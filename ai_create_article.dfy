/** The first article-creation script: the basic information it collects (with the
    article id slugged from the title) and the entry it stores in the locale's message
    file. The outline sections it extracts are `ArticleText.Sections`. */
module ArticleCreator {
  import opened Util
  import opened GeoTypes
  import opened ArticleText
  import ArticleCreatorV2

  // ---------------------------------------------------------------------------
  // collectBasicInfo

  /** `[^a-z0-9一-龥]`: the characters the id replaces. */
  predicate NotIdChar(c: char) { !(IsAsciiLower(c) || IsDigit(c) || IsCjk(c)) }

  /** The id slugged from the title: at most 50 characters of a-z, 0-9, U+4E00–U+9FA5
      and '-', never starting with '-'. */
  function ArticleId(title: string): (id: string)
    ensures |id| <= MaxSlugLength
    ensures forall k :: 0 <= k < |id| ==> ArticleCreatorV2.IsZhSlugChar(id[k])
    ensures id == [] || id[0] != '-'
  {
    SlugOf(title, NotIdChar)
  }

  /** Replacing runs of one class or of another gives the same result on a string on
      whose characters the two classes agree. */
  lemma {:induction false} ReplaceRunsAgree(s: string, f: char -> bool, g: char -> bool, inRun: bool)
    requires forall k :: 0 <= k < |s| ==> f(s[k]) == g(s[k])
    ensures ReplaceRuns(s, f, inRun) == ReplaceRuns(s, g, inRun)
    decreases |s|
  {
    if s != [] {
      assert forall k :: 0 <= k < |s[1..]| ==> s[1..][k] == s[k + 1];
      ReplaceRunsAgree(s[1..], f, g, f(s[0]));
    }
  }

  /** For a title without Chinese characters the id is the English slug of the second
      script. */
  lemma IdOfEnglishTitle(title: string)
    requires forall k :: 0 <= k < |title| ==> !IsCjk(title[k])
    ensures ArticleId(title) == ArticleCreatorV2.GenerateSlug(title, En)
  {
    var lower := ToLower(title);
    assert forall k :: 0 <= k < |lower| ==> NotIdChar(lower[k]) == ArticleCreatorV2.NotEnSlugChar(lower[k]);
    ReplaceRunsAgree(lower, NotIdChar, ArticleCreatorV2.NotEnSlugChar, false);
  }

  /** The configuration the script works from; the locale is whatever was typed, or
      "zh". */
  datatype ArticleConfig = ArticleConfig(
    id: string, title: string, locale: string, category: string,
    keywords: seq<string>, author: string)

  /** `keywordsInput.split(',').map(k => k.trim())`. */
  function Keywords(input: string): (r: seq<string>)
    ensures |r| == |Split(input, ',')|
    ensures forall k :: 0 <= k < |r| ==> r[k] == Trim(Split(input, ',')[k]) && ',' !in r[k]
  {
    var parts := Split(input, ',');
    var r := Mapped(parts, Trim);
    assert forall k :: 0 <= k < |r| ==> ',' !in r[k] by {
      forall k | 0 <= k < |r| ensures ',' !in r[k] {
        TrimIsSlice(parts[k]);
      }
    }
    r
  }

  /** `collectBasicInfo` on the answers to its prompts: an empty locale answer means
      "zh" and an empty author answer means "Seal Wax". */
  function CollectBasicInfo(title: string, localeAnswer: string, category: string,
                            keywordsAnswer: string, authorAnswer: string): (c: ArticleConfig)
    ensures c.id == ArticleId(title) && c.title == title && c.category == category
    ensures c.locale == (if localeAnswer == "" then "zh" else localeAnswer)
    ensures c.author != "" && (authorAnswer != "" ==> c.author == authorAnswer)
    ensures c.keywords == Keywords(keywordsAnswer)
  {
    ArticleConfig(
      ArticleId(title), title, if localeAnswer == "" then "zh" else localeAnswer, category,
      Keywords(keywordsAnswer), if authorAnswer == "" then ArticleCreatorV2.SealWax else authorAnswer)
  }

  // ---------------------------------------------------------------------------
  // saveArticle

  /** The entry stored under `blog.articles[id]`. */
  datatype ArticleEntry = ArticleEntry(
    title: string, description: string, content: string, aiSummary: AISummary,
    qaPairs: seq<QAPair>, author: string, authorBio: string, category: string,
    keywords: seq<string>, datePublished: string, image: string)

  /** The first script always writes the Chinese biography. */
  function AuthorBio(author: string): string {
    if author == ArticleCreatorV2.SealWax then ArticleCreatorV2.ZhBio else ""
  }

  /** The article entry of `saveArticle`; `today` is the date part of the current
      time. */
  function ArticleEntryOf(config: ArticleConfig, content: string, aiSummary: AISummary,
                          qaPairs: seq<QAPair>, today: string): (e: ArticleEntry)
    ensures e.title == config.title && e.description == aiSummary.whatIs
    ensures e.content == content && e.aiSummary == aiSummary
    ensures |e.qaPairs| == |qaPairs|
    ensures forall k :: 0 <= k < |qaPairs| ==>
      && e.qaPairs[k].question == qaPairs[k].question
      && e.qaPairs[k].answer == qaPairs[k].answer
      && e.qaPairs[k].category == qaPairs[k].category
      && e.qaPairs[k].relatedConcepts == []
    ensures e.author == config.author
    ensures e.authorBio != "" <==> config.author == ArticleCreatorV2.SealWax
    ensures e.category == config.category && e.keywords == config.keywords
    ensures e.datePublished == today
    ensures e.image == "/blog-images/" + config.id + "-hero.webp"
  {
    ArticleEntry(
      config.title, aiSummary.whatIs, content, aiSummary,
      Mapped(qaPairs, ArticleCreatorV2.SavedQA), config.author, AuthorBio(config.author),
      config.category, config.keywords, today, "/blog-images/" + config.id + "-hero.webp")
  }

  /** The `blog` object of a message file, as far as the script touches it. */
  datatype BlogMessages = BlogMessages(articles: Option<map<string, ArticleEntry>>)

  /** The articles already stored, none when `blog` or `blog.articles` is missing. */
  function StoredArticles(blog: Option<BlogMessages>): map<string, ArticleEntry> {
    if blog.Some? && blog.value.articles.Some? then blog.value.articles.value else map[]
  }

  /** The loaded message file of one locale. */
  class MessagesFile {
    var blog: Option<BlogMessages>

    /** A file that does not exist yet loads as `{}`. */
    constructor Empty()
      ensures blog == None
    {
      blog := None;
    }

    /** `saveArticle`: create `blog` and `blog.articles` when missing, then store the
        entry under the id, replacing an entry stored there before. */
    method SaveArticle(id: string, entry: ArticleEntry)
      modifies this
      ensures blog == Some(BlogMessages(Some(StoredArticles(old(blog))[id := entry])))
    {
      if blog.None? {
        blog := Some(BlogMessages(None));
      }
      if blog.value.articles.None? {
        blog := Some(BlogMessages(Some(map[])));
      }
      blog := Some(BlogMessages(Some(blog.value.articles.value[id := entry])));
    }
  }

  /** After saving, the id holds the new entry and every other stored article is
      unchanged. */
  lemma SavedEntryStored(blog: Option<BlogMessages>, id: string, entry: ArticleEntry)
    ensures var after := StoredArticles(Some(BlogMessages(Some(StoredArticles(blog)[id := entry]))));
      && id in after && after[id] == entry
      && (forall other :: other != id && other in StoredArticles(blog) ==>
            other in after && after[other] == StoredArticles(blog)[other])
      && after.Keys == StoredArticles(blog).Keys + {id}
  {
  }
}
