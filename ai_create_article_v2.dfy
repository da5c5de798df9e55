/** The text transformations of the second article-creation script: locale-aware
    slugs, the category key, the read-time estimate, the article object it saves, and
    the parsing and rebuilding of the article-id arrays inside the blog page. */
module ArticleCreatorV2 {
  import opened Util
  import opened GeoTypes
  import opened ArticleText
  import HtmlText

  // ---------------------------------------------------------------------------
  // generateSlug

  /** The characters a Chinese slug keeps: `[一-龥a-z0-9-]`. */
  predicate IsZhSlugChar(c: char) { IsCjk(c) || IsSlugChar(c) }

  /** `[^a-z0-9]`: the characters an English slug replaces. */
  predicate NotEnSlugChar(c: char) { !(IsAsciiLower(c) || IsDigit(c)) }

  /** The Chinese chain: white-space runs become '-', every other character outside
      the slug alphabet is dropped, '-' runs collapse, an outer '-' is stripped and 50
      characters are kept. */
  function ZhSlug(title: string): (r: string)
    ensures |r| <= MaxSlugLength
    ensures forall k :: 0 <= k < |r| ==> IsZhSlugChar(r[k])
    ensures r == [] || r[0] != '-'
  {
    var isDash := (c: char) => c == '-';
    var dashed := ReplaceRuns(ToLower(title), IsSpace, false);
    var kept := Filter(dashed, IsZhSlugChar);
    var collapsed := ReplaceRuns(kept, isDash, false);
    ReplaceRunsNoDoubleDash(kept, isDash, false);
    var r := FinishSlug(collapsed);
    assert forall k :: 0 <= k < |r| ==> r[k] in collapsed;
    r
  }

  /** `generateSlug`: at most 50 characters from the locale's slug alphabet, never
      starting with '-'. */
  function GenerateSlug(title: string, locale: Locale): (r: string)
    ensures |r| <= MaxSlugLength
    ensures r == [] || r[0] != '-'
    ensures locale == Zh ==> forall k :: 0 <= k < |r| ==> IsZhSlugChar(r[k])
    ensures locale == En ==> forall k :: 0 <= k < |r| ==> IsSlugChar(r[k])
  {
    match locale
    case Zh => ZhSlug(title)
    case En => SlugOf(title, NotEnSlugChar)
  }

  /** Words of lower-case letters and digits joined by single '-'. */
  predicate IsSlugForm(s: string) {
    && (forall k :: 0 <= k < |s| ==> IsSlugChar(s[k]))
    && NoDoubleDash(s)
    && (s == [] || (s[0] != '-' && s[|s| - 1] != '-'))
  }

  /** Runs of characters outside the kept set change nothing in a string whose only
      such characters are single '-' not at its start after a run. */
  lemma {:induction false} ReplaceRunsOfSlug(s: string, inRun: bool)
    requires forall k :: 0 <= k < |s| ==> IsSlugChar(s[k])
    requires NoDoubleDash(s)
    requires inRun ==> s == [] || s[0] != '-'
    ensures ReplaceRuns(s, NotEnSlugChar, inRun) == s
    decreases |s|
  {
    if s != [] {
      var t := s[1..];
      assert forall k :: 0 <= k < |t| ==> t[k] == s[k + 1];
      ReplaceRunsOfSlug(t, s[0] == '-');
      assert [s[0]] + t == s;
    }
  }

  /** An English title that is already a slug of at most 50 characters is its own
      slug. */
  lemma EnSlugOfSlug(title: string)
    requires IsSlugForm(title) && |title| <= MaxSlugLength
    ensures GenerateSlug(title, En) == title
  {
    assert IsLowerString(title);
    LowerOfLower(title);
    ReplaceRunsOfSlug(title, false);
  }

  // ---------------------------------------------------------------------------
  // mapCategoryToEnglish

  /** The category table: the four Chinese category names and the English keys. */
  const CategoryMap: map<string, string> := map[
    "安全" := "security", "教程" := "tutorial", "研究" := "research", "分析" := "analysis",
    "security" := "security", "tutorial" := "tutorial", "research" := "research",
    "analysis" := "analysis", "defi" := "defi", "web3" := "web3", "blockchain" := "blockchain"]

  /** `mapCategoryToEnglish`: the table's key for the lower-cased category, or the
      lower-cased category itself. */
  function MapCategoryToEnglish(category: string): (r: string)
    ensures IsLowerString(r)
    ensures r in CategoryMap ==> CategoryMap[r] == r
    ensures ToLower(category) !in CategoryMap ==> r == ToLower(category)
  {
    var key := ToLower(category);
    ToLowerIsLower(category);
    if key in CategoryMap then CategoryValuesAreKeys(key); CategoryMap[key] else key
  }

  /** Every key the table yields is lower case and maps to itself. */
  lemma CategoryValuesAreKeys(key: string)
    requires key in CategoryMap
    ensures IsLowerString(CategoryMap[key])
    ensures CategoryMap[key] in CategoryMap && CategoryMap[CategoryMap[key]] == CategoryMap[key]
  {
  }

  lemma ToLowerIsLower(s: string)
    ensures IsLowerString(ToLower(s))
  {
  }

  /** The category key is lower case, and mapping it again changes nothing. */
  lemma CategoryKeyLowerIdempotent(category: string)
    ensures IsLowerString(MapCategoryToEnglish(category))
    ensures MapCategoryToEnglish(MapCategoryToEnglish(category)) == MapCategoryToEnglish(category)
  {
    var key := ToLower(category);
    ToLowerIsLower(category);
    if key in CategoryMap {
      CategoryValuesAreKeys(key);
      LowerOfLower(CategoryMap[key]);
    } else {
      LowerOfLower(key);
    }
  }

  // ---------------------------------------------------------------------------
  // Read time

  /** `s.split(/\s+/)`: the pieces between maximal white-space runs, always at least
      one; `inRun` says a run has just started before `s`. */
  function SplitOnSpaceRuns(s: string, inRun: bool): (r: seq<string>)
    ensures |r| >= 1
    decreases |s|
  {
    if s == [] then [""]
    else if IsSpace(s[0]) then
      (if inRun then SplitOnSpaceRuns(s[1..], true) else [""] + SplitOnSpaceRuns(s[1..], true))
    else
      var rest := SplitOnSpaceRuns(s[1..], false);
      [[s[0]] + rest[0]] + rest[1..]
  }

  /** The word count of the article: the pieces of its tag-free text. */
  function WordCount(content: string): (n: nat)
    ensures n >= 1
  {
    |SplitOnSpaceRuns(HtmlText.RemoveTags(content), false)|
  }

  function AtLeastOne(m: int): (r: nat)
    ensures r >= 1 && r >= m
  {
    if m < 1 then 1 else m
  }

  /** `Math.max(1, Math.ceil(wordCount / 200))`. */
  function ReadTimeMinutes(content: string): nat {
    var wc := WordCount(content);
    AtLeastOne((wc + 199) / 200)
  }

  /** Two hundred words a minute, rounded up, and never less than a minute. */
  lemma ReadTimeIsCeiling(content: string)
    ensures ReadTimeMinutes(content) >= 1
    ensures 200 * (ReadTimeMinutes(content) - 1) < WordCount(content) <= 200 * ReadTimeMinutes(content)
  {
  }

  /** The read time as the saved string. */
  function ReadTime(content: string): (r: string)
    ensures r != "0"
  {
    var r := NatToString(ReadTimeMinutes(content));
    assert r != "0" by {
      if r == "0" {
        assert NatToString(0) == "0";
        NatToStringInjective(ReadTimeMinutes(content), 0);
      }
    }
    r
  }

  // ---------------------------------------------------------------------------
  // createArticleObject

  datatype Citation = Citation(id: string, title: string, url: string)

  datatype ArticleConfig = ArticleConfig(
    id: string, title: string, locale: Locale, category: string,
    keywords: seq<string>, author: string)

  /** The saved article, field by field in the order the site expects. */
  datatype ArticleObject = ArticleObject(
    title: string, excerpt: string, content: string, aiSummary: AISummary,
    qaPairs: seq<QAPair>, author: string, authorBio: string, category: string,
    keywords: string, date: string, readTime: string, citations: seq<Citation>)

  const SealWax := "Seal Wax"
  const ZhBio := "刻熵科技创始人，专注于 Web3 安全与智能合约开发"
  const EnBio := "Founder of Keentropy Tech, focusing on Web3 security and smart contract development"

  function AuthorBio(author: string, locale: Locale): string {
    if author == SealWax then (if locale == Zh then ZhBio else EnBio) else ""
  }

  /** A saved Q&A pair: the question, answer and category, with no related concepts. */
  function SavedQA(qa: QAPair): QAPair {
    QAPair(qa.question, qa.answer, qa.category, [])
  }

  /** `createArticleObject`; `today` is the date part of the current time. */
  function CreateArticleObject(config: ArticleConfig, content: string, aiSummary: AISummary,
                               qaPairs: seq<QAPair>, citations: seq<Citation>,
                               today: string): (a: ArticleObject)
    ensures a.title == config.title && a.excerpt == aiSummary.whatIs
    ensures a.content == content && a.aiSummary == aiSummary && a.citations == citations
    ensures |a.qaPairs| == |qaPairs|
    ensures forall k :: 0 <= k < |qaPairs| ==>
      && a.qaPairs[k].question == qaPairs[k].question
      && a.qaPairs[k].answer == qaPairs[k].answer
      && a.qaPairs[k].category == qaPairs[k].category
      && a.qaPairs[k].relatedConcepts == []
    ensures a.author == config.author
    ensures a.authorBio != "" <==> config.author == SealWax
    ensures a.category == MapCategoryToEnglish(config.category)
    ensures a.keywords == Join(config.keywords, ", ")
    ensures a.readTime == ReadTime(content) && a.date == today
  {
    ArticleObject(
      config.title, aiSummary.whatIs, content, aiSummary,
      Mapped(qaPairs, SavedQA), config.author, AuthorBio(config.author, config.locale),
      MapCategoryToEnglish(config.category), Join(config.keywords, ", "), today,
      ReadTime(content), citations)
  }

  // ---------------------------------------------------------------------------
  // parseArrayEntries / rebuildArray

  /** `line.trim().match(/^'([^']+)'/)`: the non-empty quote-free text between a
      leading quote and the next quote. */
  function QuotedEntry(line: string): (r: Option<string>)
    ensures r.Some? ==> r.value != [] && '\'' !in r.value
  {
    var t := Trim(line);
    if |t| >= 2 && t[0] == '\'' then
      var j := HtmlText.IndexOf(t, '\'', 1);
      if 1 < j < |t| then
        assert forall k :: 0 <= k < j - 1 ==> t[1..j][k] == t[k + 1];
        Some(t[1..j])
      else None
    else None
  }

  /** The entries of an array body: the quoted text of every line that has one. */
  function ArrayEntries(arrayContent: string): seq<string> {
    Collected(Split(arrayContent, '\n'), QuotedEntry)
  }

  /** `parseArrayEntries`: the loop over the body's lines. */
  method ParseArrayEntries(arrayContent: string) returns (entries: seq<string>)
    ensures entries == ArrayEntries(arrayContent)
  {
    var lines := Split(arrayContent, '\n');
    entries := PushCollected([], lines, QuotedEntry);
    assert [] + Collected(lines, QuotedEntry) == Collected(lines, QuotedEntry);
  }

  /** `comments.get(entry) || ''`. */
  function CommentOf(comments: map<string, string>, entry: string): string {
    if entry in comments then comments[entry] else ""
  }

  /** The indentation of a rebuilt line. */
  const Indent := "    "

  function Quoted(e: string): string { ['\''] + e + ['\''] }

  /** One rebuilt line: four spaces, the quoted entry, a comma on all but the last
      line, and the entry's comment. */
  function EntryLine(entries: seq<string>, comments: map<string, string>, k: nat): string
    requires k < |entries|
  {
    Indent + (Quoted(entries[k]) + ((if k < |entries| - 1 then "," else "") + CommentOf(comments, entries[k])))
  }

  /** The rebuilt lines, one per entry. */
  function EntryLines(entries: seq<string>, comments: map<string, string>): (r: seq<string>)
    ensures |r| == |entries|
    ensures forall k :: 0 <= k < |entries| ==> r[k] == EntryLine(entries, comments, k)
  {
    seq(|entries|, k requires 0 <= k < |entries| => EntryLine(entries, comments, k))
  }

  /** `rebuildArray`: the entry lines joined by newlines. */
  function RebuildArray(entries: seq<string>, comments: map<string, string>): string {
    Join(EntryLines(entries, comments), "\n")
  }

  /** Entries the parser can read back: non-empty, without a quote or a newline. */
  predicate Parsable(entries: seq<string>, comments: map<string, string>) {
    && (forall k :: 0 <= k < |entries| ==> entries[k] != [] && '\'' !in entries[k] && '\n' !in entries[k])
    && (forall e :: e in comments ==> '\n' !in comments[e])
  }

  /** Trimming white space in front of a string that starts with another character
      removes exactly that white space. */
  lemma TrimStartIndent(p: string, u: string)
    requires forall k :: 0 <= k < |p| ==> IsSpace(p[k])
    requires u != [] && !IsSpace(u[0])
    ensures TrimStart(p + u) == u
  {
    var s := p + u;
    var r := TrimStart(s);
    var d := |s| - |r|;
    assert s[|p|] == u[0];
    assert d <= |p|;
    assert r != [] && r[0] == s[d];
    assert forall i :: 0 <= i < |p| ==> s[i] == p[i];
    assert d == |p|;
    assert s[|p|..] == u;
  }

  /** Trimming the end keeps every position up to a non-space character. */
  lemma TrimEndKeeps(u: string, n: nat)
    requires n < |u| && !IsSpace(u[n])
    ensures n < |TrimEnd(u)|
  {
  }

  /** The first quote after a leading quote closes a quote-free entry. */
  lemma QuotedPrefix(e: string, t: string)
    requires e != [] && '\'' !in e
    requires |t| > |e| + 1 && t[..|e| + 2] == Quoted(e)
    ensures HtmlText.IndexOf(t, '\'', 1) == |e| + 1
  {
    assert t[|e| + 1] == '\'';
    assert forall k :: 1 <= k < |e| + 1 ==> t[k] == t[..|e| + 2][k] == e[k - 1];
  }

  /** A line whose trimmed form starts with a quoted entry reads back as that entry. */
  lemma QuotedEntryOfTrimmed(line: string, e: string)
    requires e != [] && '\'' !in e
    requires |Trim(line)| > |e| + 1 && Trim(line)[..|e| + 2] == Quoted(e)
    ensures QuotedEntry(line) == Some(e)
  {
    var t := Trim(line);
    QuotedPrefix(e, t);
    assert t[0] == Quoted(e)[0] == '\'';
    assert forall k :: 0 <= k < |e| ==> t[1 + k] == t[..|e| + 2][1 + k] == Quoted(e)[1 + k] == e[k];
    assert t[1..|e| + 1] == e;
  }

  /** A rebuilt line reads back as its entry. */
  lemma TrimmedEntryLine(e: string, tail: string)
    requires e != [] && '\'' !in e
    ensures QuotedEntry(Indent + (Quoted(e) + tail)) == Some(e)
  {
    var u := Quoted(e) + tail;
    assert u[0] == '\'';
    TrimStartIndent(Indent, u);
    QuotedKeptByTrimEnd(e, tail);
    assert Trim(Indent + u) == TrimEnd(u);
    QuotedEntryOfTrimmed(Indent + u, e);
  }

  /** Trimming the end of a quoted entry and what follows it keeps the quoted entry. */
  lemma QuotedKeptByTrimEnd(e: string, tail: string)
    ensures |TrimEnd(Quoted(e) + tail)| > |e| + 1
    ensures TrimEnd(Quoted(e) + tail)[..|e| + 2] == Quoted(e)
  {
    var u := Quoted(e) + tail;
    assert u[|e| + 1] == '\'';
    TrimEndKeeps(u, |e| + 1);
    var t := TrimEnd(u);
    assert t[..|e| + 2] == u[..|e| + 2];
    assert u[..|e| + 2] == Quoted(e);
  }

  lemma EntryLineParses(entries: seq<string>, comments: map<string, string>, k: nat)
    requires Parsable(entries, comments) && k < |entries|
    ensures '\n' !in EntryLine(entries, comments, k)
    ensures QuotedEntry(EntryLine(entries, comments, k)) == Some(entries[k])
  {
    var e := entries[k];
    var comment := CommentOf(comments, e);
    var tail := (if k < |entries| - 1 then "," else "") + comment;
    assert '\n' !in comment;
    assert '\n' !in Quoted(e);
    assert '\n' !in Indent;
    TrimmedEntryLine(e, tail);
  }

  /** Parsing a rebuilt array gives back its entries. */
  lemma RebuildThenParse(entries: seq<string>, comments: map<string, string>)
    requires Parsable(entries, comments)
    ensures ArrayEntries(RebuildArray(entries, comments)) == entries
  {
    var lines := EntryLines(entries, comments);
    if entries == [] {
      assert Split("", '\n') == [""];
      assert QuotedEntry("") == None;
    } else {
      forall k | 0 <= k < |lines|
        ensures '\n' !in lines[k] && QuotedEntry(lines[k]) == Some(entries[k])
      {
        EntryLineParses(entries, comments, k);
      }
      JoinSplit(lines, '\n');
      CollectedAllSome(lines, QuotedEntry, entries);
    }
  }

  // ---------------------------------------------------------------------------
  // removeDuplicateHeaders

  /** The trimmed header text of a line: `h2` stands for the first capture of
      `/<h2>(.*?)<\/h2>/` in the trimmed line. */
  function HeaderText(line: string, h2: string -> Option<string>): Option<string> {
    match h2(Trim(line))
    case Some(g) => Some(Trim(g))
    case None => None
  }

  predicate IsBlank(line: string) { Trim(line) == [] }

  /** What the scan looks at in a line: whether it is blank, and its header text. */
  datatype LineClass = LineClass(blank: bool, header: Option<string>)

  function Classify(line: string, h2: string -> Option<string>): LineClass {
    LineClass(IsBlank(line), HeaderText(line, h2))
  }

  function Classes(lines: seq<string>, h2: string -> Option<string>): (r: seq<LineClass>)
    ensures |r| == |lines| && forall k :: 0 <= k < |lines| ==> r[k] == Classify(lines[k], h2)
  {
    seq(|lines|, k requires 0 <= k < |lines| => Classify(lines[k], h2))
  }

  /** What the scan does with one line: keep it or not, and the header text that
      following duplicates are compared against. */
  datatype Decision = Decision(keep: bool, anchor: Option<string>)

  /** One step of the scan. After a header, blank lines are kept and repeats of that
      header are dropped; any other line, and every line when no header is pending, is
      kept and makes its own header text (if any) the pending one. */
  function HeaderStep(anchor: Option<string>, c: LineClass): Decision {
    if anchor.Some? && c.blank then Decision(true, anchor)
    else if anchor.Some? && c.header == anchor then Decision(false, anchor)
    else Decision(true, c.header)
  }

  /** The pending header before line `k`. */
  function AnchorAt(cs: seq<LineClass>, k: nat): Option<string>
    requires k <= |cs|
  {
    if k == 0 then None else HeaderStep(AnchorAt(cs, k - 1), cs[k - 1]).anchor
  }

  predicate Kept(cs: seq<LineClass>, k: nat)
    requires k < |cs|
  {
    HeaderStep(AnchorAt(cs, k), cs[k]).keep
  }

  /** The kept lines among the first `n`, in order. */
  function KeptUpTo(lines: seq<string>, cs: seq<LineClass>, n: nat): seq<string>
    requires |cs| == |lines| && n <= |lines|
  {
    if n == 0 then [] else KeptUpTo(lines, cs, n - 1) + (if Kept(cs, n - 1) then [lines[n - 1]] else [])
  }

  /** The positions of the kept lines among the first `n`, in order. */
  function KeptPositions(cs: seq<LineClass>, n: nat): seq<nat>
    requires n <= |cs|
  {
    if n == 0 then [] else KeptPositions(cs, n - 1) + (if Kept(cs, n - 1) then [n - 1] else [])
  }

  /** `r` is `s` at the strictly increasing positions `idx`. */
  predicate SubsequenceAt<T(==)>(r: seq<T>, s: seq<T>, idx: seq<nat>) {
    && |idx| == |r|
    && (forall j :: 0 <= j < |idx| ==> idx[j] < |s| && r[j] == s[idx[j]])
    && (forall i, j :: 0 <= i < j < |idx| ==> idx[i] < idx[j])
  }

  /** The lines the scan keeps, `h2` as in `HeaderText`. */
  function DeduplicatedLines(lines: seq<string>, h2: string -> Option<string>): seq<string> {
    KeptUpTo(lines, Classes(lines, h2), |lines|)
  }

  /** The content with its repeated headers removed. */
  function Deduplicated(content: string, h2: string -> Option<string>): string {
    Join(DeduplicatedLines(Split(content, '\n'), h2), "\n")
  }

  /** `removeDuplicateHeaders`: the scan over the lines with an inner loop after each
      header. */
  method RemoveDuplicateHeaders(content: string, h2: string -> Option<string>) returns (cleaned: string)
    ensures cleaned == Deduplicated(content, h2)
  {
    var lines := Split(content, '\n');
    ghost var cs := Classes(lines, h2);
    var result: seq<string> := [];
    var i := 0;
    while i < |lines|
      invariant 0 <= i <= |lines|
      invariant result == KeptUpTo(lines, cs, i)
      invariant i < |lines| ==> HeaderStep(AnchorAt(cs, i), cs[i]) == HeaderStep(None, cs[i])
    {
      var headerMatch := h2(Trim(lines[i]));
      assert cs[i].header == if headerMatch.Some? then Some(Trim(headerMatch.value)) else None;
      if headerMatch.Some? {
        var headerText := Trim(headerMatch.value);
        assert HeaderStep(AnchorAt(cs, i), cs[i]) == Decision(true, Some(headerText));
        assert AnchorAt(cs, i + 1) == Some(headerText);
        assert KeptUpTo(lines, cs, i + 1) == result + [lines[i]];
        result := result + [lines[i]];
        i := i + 1;
        while i < |lines|
          invariant 0 < i <= |lines|
          invariant result == KeptUpTo(lines, cs, i)
          invariant AnchorAt(cs, i) == Some(headerText)
        {
          var nextLine := Trim(lines[i]);
          assert cs[i] == Classify(lines[i], h2);
          assert cs[i].blank <==> nextLine == [];
          if nextLine == [] {
            assert HeaderStep(AnchorAt(cs, i), cs[i]) == Decision(true, Some(headerText));
            assert AnchorAt(cs, i + 1) == Some(headerText);
            assert KeptUpTo(lines, cs, i + 1) == result + [lines[i]];
            result := result + [lines[i]];
            i := i + 1;
          } else {
            var nextHeaderMatch := h2(nextLine);
            assert cs[i].header == if nextHeaderMatch.Some? then Some(Trim(nextHeaderMatch.value)) else None;
            if nextHeaderMatch.Some? && Trim(nextHeaderMatch.value) == headerText {
              assert HeaderStep(AnchorAt(cs, i), cs[i]) == Decision(false, Some(headerText));
              assert AnchorAt(cs, i + 1) == Some(headerText);
              assert KeptUpTo(lines, cs, i + 1) == result;
              i := i + 1;
            } else {
              break;
            }
          }
        }
      } else {
        result := result + [lines[i]];
        i := i + 1;
      }
    }
    cleaned := Join(result, "\n");
  }

  /** The kept lines are the lines at the kept positions. */
  lemma {:induction false} KeptAreSubsequence(lines: seq<string>, cs: seq<LineClass>, n: nat)
    requires |cs| == |lines| && n <= |lines|
    ensures SubsequenceAt(KeptUpTo(lines, cs, n), lines, KeptPositions(cs, n))
    ensures forall j :: 0 <= j < |KeptPositions(cs, n)| ==> KeptPositions(cs, n)[j] < n
    ensures forall k :: 0 <= k < n && Kept(cs, k) ==> k in KeptPositions(cs, n)
  {
    if n > 0 {
      KeptAreSubsequence(lines, cs, n - 1);
    }
  }

  /** Line `j` is a kept header with text `text`, and every line after it and before
      line `k` is blank or dropped. */
  predicate PendingSince(cs: seq<LineClass>, j: nat, k: nat, text: Option<string>)
    requires j < k <= |cs|
  {
    && Kept(cs, j) && cs[j].header == text
    && forall m :: j < m < k ==> cs[m].blank || !Kept(cs, m)
  }

  /** The pending header always comes from an earlier kept header line, with nothing
      but blank or dropped lines since. */
  lemma {:induction false} AnchorOrigin(cs: seq<LineClass>, k: nat)
    requires k <= |cs| && AnchorAt(cs, k).Some?
    ensures exists j :: 0 <= j < k && PendingSince(cs, j, k, AnchorAt(cs, k))
  {
    var a := AnchorAt(cs, k - 1);
    var c := cs[k - 1];
    if a.Some? && (c.blank || c.header == a) {
      AnchorOrigin(cs, k - 1);
      var j :| 0 <= j < k - 1 && PendingSince(cs, j, k - 1, a);
      assert PendingSince(cs, j, k, a);
    } else {
      assert PendingSince(cs, k - 1, k, AnchorAt(cs, k));
    }
  }

  /** `removeDuplicateHeaders` keeps an order-preserving subsequence of the lines, and
      every line it drops is a non-blank `<h2>` header whose text equals that of an
      earlier kept header, with only blank or dropped lines between them. */
  lemma OnlyRepeatedHeadersDropped(lines: seq<string>, h2: string -> Option<string>)
    ensures SubsequenceAt(DeduplicatedLines(lines, h2), lines, KeptPositions(Classes(lines, h2), |lines|))
    ensures forall k :: 0 <= k < |lines| && !Kept(Classes(lines, h2), k) ==>
      && !IsBlank(lines[k]) && HeaderText(lines[k], h2).Some?
      && exists j :: 0 <= j < k && PendingSince(Classes(lines, h2), j, k, HeaderText(lines[k], h2))
  {
    var cs := Classes(lines, h2);
    KeptAreSubsequence(lines, cs, |lines|);
    forall k | 0 <= k < |lines| && !Kept(cs, k)
      ensures !IsBlank(lines[k]) && HeaderText(lines[k], h2).Some?
      ensures exists j :: 0 <= j < k && PendingSince(cs, j, k, HeaderText(lines[k], h2))
    {
      AnchorOrigin(cs, k);
    }
  }

  /** A header repeated after a blank line is dropped; the blank line stays. */
  lemma RepeatedHeaderDropped(header: string, blank: string, h2: string -> Option<string>)
    requires !IsBlank(header) && HeaderText(header, h2).Some? && IsBlank(blank)
    ensures DeduplicatedLines([header, blank, header], h2) == [header, blank]
  {
    var lines := [header, blank, header];
    var cs := Classes(lines, h2);
    var hc := Classify(header, h2);
    assert cs[0] == hc && cs[2] == hc && cs[1].blank;
    assert AnchorAt(cs, 1) == hc.header;
    assert AnchorAt(cs, 2) == hc.header;
    assert Kept(cs, 0) && Kept(cs, 1) && !Kept(cs, 2);
    assert KeptUpTo(lines, cs, 1) == [header];
    assert KeptUpTo(lines, cs, 2) == [header, blank];
  }

  /** A text without headers is left as it is. */
  lemma {:induction false} NoHeadersNoChange(lines: seq<string>, cs: seq<LineClass>, n: nat)
    requires |cs| == |lines| && n <= |lines|
    requires forall k :: 0 <= k < |cs| ==> cs[k].header.None?
    ensures KeptUpTo(lines, cs, n) == lines[..n]
    ensures AnchorAt(cs, n).None?
  {
    if n > 0 {
      NoHeadersNoChange(lines, cs, n - 1);
      assert lines[..n] == lines[..n - 1] + [lines[n - 1]];
    }
  }

  /** Content without `<h2>` headers comes back unchanged. */
  lemma HeaderFreeUnchanged(content: string, h2: string -> Option<string>)
    requires forall line :: line in Split(content, '\n') ==> HeaderText(line, h2).None?
    ensures Deduplicated(content, h2) == content
  {
    var lines := Split(content, '\n');
    NoHeadersNoChange(lines, Classes(lines, h2), |lines|);
    assert lines[..|lines|] == lines;
    SplitJoin(content, '\n');
  }

  // ---------------------------------------------------------------------------
  // splitLongParagraphs

  /** A paragraph text longer than this is split into sentences. */
  const MaxParagraphText := 300
  /** Sentences are packed while the packed text and the next sentence fit in this. */
  const PackLimit := 280

  /** `text.split(/\.\s+(?=[A-Z])/)`: a break is a '.' followed by a white-space run
      and then an upper-case ASCII letter, which starts the next piece. */
  function SplitEnSentences(s: string): (r: seq<string>)
    ensures |r| >= 1
    decreases |s|
  {
    if s == [] then [""]
    else
      var gapEnd := SkipSpaces(s, 1);
      if s[0] == '.' && 1 < gapEnd < |s| && IsAsciiUpper(s[gapEnd]) then
        [""] + SplitEnSentences(s[gapEnd..])
      else
        var rest := SplitEnSentences(s[1..]);
        [[s[0]] + rest[0]] + rest[1..]
  }

  function Sentences(text: string, locale: Locale): (r: seq<string>)
    ensures |r| >= 1
  {
    if locale == Zh then SplitOn(text, "。") else SplitEnSentences(text)
  }

  /** An English sentence gets its '.' back; a Chinese one stays as it is. */
  function WithPeriod(sentence: string, locale: Locale): string {
    if locale == Zh || EndsWith(sentence, ".") then sentence else sentence + "."
  }

  /** What joins two packed sentences. */
  function Joiner(locale: Locale): string {
    if locale == Zh then "。" else " "
  }

  /** A packed Chinese paragraph ends with '。'. */
  function Finished(text: string, locale: Locale): string {
    if locale == Zh && !EndsWith(text, "。") then text + "。" else text
  }

  function Wrap(text: string, locale: Locale): string {
    "<p>" + Finished(text, locale) + "</p>"
  }

  /** The packing loop's state: the paragraphs pushed so far and `currentPara`. */
  datatype Packing = Packing(out: seq<string>, current: string)

  /** One sentence of the packing loop: blank sentences are skipped; a sentence that
      does not fit closes the current paragraph and starts the next one. */
  function PackStep(st: Packing, sentence: string, locale: Locale): Packing {
    if Trim(sentence) == [] then st
    else
      var w := WithPeriod(sentence, locale);
      if |st.current| + |w| > PackLimit then
        Packing(st.out + (if st.current != [] then [Wrap(st.current, locale)] else []), w)
      else
        Packing(st.out, st.current + (if st.current != [] then Joiner(locale) else []) + w)
  }

  function PackAll(sentences: seq<string>, locale: Locale): Packing {
    if sentences == [] then Packing([], [])
    else PackStep(PackAll(sentences[..|sentences| - 1], locale), sentences[|sentences| - 1], locale)
  }

  /** The paragraphs packed from the sentences, the last one included. */
  function Packed(sentences: seq<string>, locale: Locale): seq<string> {
    var st := PackAll(sentences, locale);
    st.out + (if st.current != [] then [Wrap(st.current, locale)] else [])
  }

  /** The replacement for one `</p>`-chunk. */
  function ChunkPieces(para: string, locale: Locale): seq<string> {
    if !Contains(para, "<p>") then [para]
    else
      var text := Trim(RemoveAll(para, "<p>"));
      if |text| > MaxParagraphText then Packed(Sentences(text, locale), locale)
      else [para + "</p>"]
  }

  function AllPieces(chunks: seq<string>, locale: Locale): seq<string> {
    Flattened(chunks, PiecesIn(locale))
  }

  function PiecesIn(locale: Locale): string -> seq<string> {
    para => ChunkPieces(para, locale)
  }

  /** The content with its long paragraphs split. */
  function SplitLong(content: string, locale: Locale): string {
    Join(AllPieces(SplitOn(content, "</p>"), locale), "")
  }

  /** The packing loop over the sentences of one long paragraph. */
  method PackSentences(sentences: seq<string>, locale: Locale) returns (paragraphs: seq<string>)
    ensures paragraphs == Packed(sentences, locale)
  {
    paragraphs := [];
    var currentPara := "";
    for i := 0 to |sentences|
      invariant Packing(paragraphs, currentPara) == PackAll(sentences[..i], locale)
    {
      assert sentences[..i + 1][..i] == sentences[..i];
      assert PackAll(sentences[..i + 1], locale) == PackStep(PackAll(sentences[..i], locale), sentences[i], locale);
      ghost var before := Packing(paragraphs, currentPara);
      var sentence := sentences[i];
      if Trim(sentence) != [] {
        var sentenceWithPeriod := WithPeriod(sentence, locale);
        if |currentPara| + |sentenceWithPeriod| > PackLimit {
          if currentPara != [] {
            paragraphs := paragraphs + [Wrap(currentPara, locale)];
          }
          currentPara := sentenceWithPeriod;
        } else {
          currentPara := currentPara + (if currentPara != [] then Joiner(locale) else []) + sentenceWithPeriod;
        }
      }
      assert Packing(paragraphs, currentPara) == PackStep(before, sentence, locale);
    }
    assert sentences[..|sentences|] == sentences;
    if currentPara != [] {
      paragraphs := paragraphs + [Wrap(currentPara, locale)];
    }
  }

  /** The body of the loop of `splitLongParagraphs` for one `</p>`-chunk. */
  method SplitChunk(para: string, locale: Locale) returns (pieces: seq<string>)
    ensures pieces == ChunkPieces(para, locale)
  {
    if !Contains(para, "<p>") {
      pieces := [para];
    } else {
      var text := Trim(RemoveAll(para, "<p>"));
      if |text| > MaxParagraphText {
        pieces := PackSentences(Sentences(text, locale), locale);
      } else {
        pieces := [para + "</p>"];
      }
    }
  }

  /** `splitLongParagraphs`: the loop over the `</p>`-chunks. */
  method SplitLongParagraphs(content: string, locale: Locale) returns (r: string)
    ensures r == SplitLong(content, locale)
  {
    var paragraphs := SplitOn(content, "</p>");
    var newParagraphs: seq<string> := [];
    for i := 0 to |paragraphs|
      invariant newParagraphs == AllPieces(paragraphs[..i], locale)
    {
      assert paragraphs[..i + 1][..i] == paragraphs[..i];
      var pieces := SplitChunk(paragraphs[i], locale);
      assert PiecesIn(locale)(paragraphs[i]) == pieces;
      newParagraphs := newParagraphs + pieces;
    }
    assert paragraphs[..|paragraphs|] == paragraphs;
    r := Join(newParagraphs, "");
  }

  /** The text of a packed paragraph: non-empty, and within the packing limit plus
      one joining character unless it is a single sentence. */
  predicate PackedText(x: string, sentences: seq<string>, locale: Locale) {
    x != [] && (|x| <= PackLimit + 1 || exists k :: 0 <= k < |sentences| && x == WithPeriod(sentences[k], locale))
  }

  /** Every paragraph pushed so far wraps a packed text, and so does the pending one. */
  ghost predicate PackingBounded(st: Packing, sentences: seq<string>, locale: Locale) {
    && (forall p :: p in st.out ==> exists x :: p == Wrap(x, locale) && PackedText(x, sentences, locale))
    && (st.current == [] || PackedText(st.current, sentences, locale))
  }

  /** A packed text of some sentences is one of any longer list of sentences too. */
  lemma PackingBoundedGrows(st: Packing, init: seq<string>, sentences: seq<string>, locale: Locale)
    requires |init| <= |sentences| && init == sentences[..|init|]
    requires PackingBounded(st, init, locale)
    ensures PackingBounded(st, sentences, locale)
  {
    forall x | PackedText(x, init, locale) ensures PackedText(x, sentences, locale) {
      if |x| > PackLimit + 1 {
        var k :| 0 <= k < |init| && x == WithPeriod(init[k], locale);
        assert init[k] == sentences[k];
      }
    }
  }

  /** A sentence with some text, with its period, is a packed text. */
  lemma SentencePacked(sentences: seq<string>, k: nat, locale: Locale)
    requires k < |sentences| && Trim(sentences[k]) != []
    ensures PackedText(WithPeriod(sentences[k], locale), sentences, locale)
  {
    assert |Trim(sentences[k])| <= |sentences[k]|;
  }

  /** Pushing the pending text and starting over with a packed text keeps the bound. */
  lemma FlushBounded(st: Packing, w: string, sentences: seq<string>, locale: Locale)
    requires PackingBounded(st, sentences, locale) && PackedText(w, sentences, locale)
    ensures PackingBounded(Packing(st.out + (if st.current != [] then [Wrap(st.current, locale)] else []), w), sentences, locale)
  {
    var out := st.out + (if st.current != [] then [Wrap(st.current, locale)] else []);
    forall p | p in out
      ensures exists y :: p == Wrap(y, locale) && PackedText(y, sentences, locale)
    {
      if p !in st.out {
        assert p == Wrap(st.current, locale) && PackedText(st.current, sentences, locale);
      }
    }
  }

  /** Adding a text to a pending one while both fit the limit keeps the bound. */
  lemma AppendBounded(st: Packing, w: string, sentences: seq<string>, locale: Locale)
    requires PackingBounded(st, sentences, locale) && w != [] && |st.current| + |w| <= PackLimit
    ensures PackingBounded(Packing(st.out, st.current + (if st.current != [] then Joiner(locale) else []) + w), sentences, locale)
  {
    assert |Joiner(locale)| == 1;
  }

  /** One packing step keeps the bound, for a sentence of the list. */
  lemma PackStepBounded(st: Packing, sentences: seq<string>, k: nat, locale: Locale)
    requires k < |sentences| && PackingBounded(st, sentences, locale)
    ensures PackingBounded(PackStep(st, sentences[k], locale), sentences, locale)
  {
    var sentence := sentences[k];
    if Trim(sentence) != [] {
      var w := WithPeriod(sentence, locale);
      SentencePacked(sentences, k, locale);
      if |st.current| + |w| > PackLimit {
        FlushBounded(st, w, sentences, locale);
      } else {
        AppendBounded(st, w, sentences, locale);
      }
    }
  }

  /** Every paragraph the packing pushes wraps a packed text, and so does the pending
      one. */
  lemma {:induction false} PackAllBounded(sentences: seq<string>, locale: Locale)
    ensures PackingBounded(PackAll(sentences, locale), sentences, locale)
  {
    if sentences != [] {
      var init := sentences[..|sentences| - 1];
      PackAllBounded(init, locale);
      PackingBoundedGrows(PackAll(init, locale), init, sentences, locale);
      PackStepBounded(PackAll(init, locale), sentences, |sentences| - 1, locale);
    }
  }

  /** Each paragraph a long text is split into is `<p>…</p>` around a non-empty text
      that fits the packing limit, plus one joining character, unless it is a single
      sentence that is longer on its own. */
  lemma PackedParagraphsBounded(sentences: seq<string>, locale: Locale)
    ensures forall p :: p in Packed(sentences, locale) ==>
      exists x :: p == Wrap(x, locale) && PackedText(x, sentences, locale)
  {
    PackAllBounded(sentences, locale);
  }

  /** A chunk that carries `<p>` and a text of at most 300 characters comes back with its
      `</p>` restored; a chunk without `<p>` comes back as it is, without one. */
  lemma ShortChunkRestored(para: string, locale: Locale)
    ensures Contains(para, "<p>") && |Trim(RemoveAll(para, "<p>"))| <= MaxParagraphText ==>
      ChunkPieces(para, locale) == [para + "</p>"]
    ensures !Contains(para, "<p>") ==> ChunkPieces(para, locale) == [para]
  {
  }

  /** Pieces that are the chunks with `sep` appended, all but the last, join back into
      the chunks joined by `sep`. */
  lemma {:induction false} JoinRestoredChunks(chunks: seq<string>, pieces: seq<string>, sep: string)
    requires |chunks| >= 1 && |pieces| == |chunks|
    requires forall k :: 0 <= k < |chunks| - 1 ==> pieces[k] == chunks[k] + sep
    requires pieces[|chunks| - 1] == chunks[|chunks| - 1]
    ensures Join(pieces, "") == Join(chunks, sep)
    decreases |chunks|
  {
    if |chunks| > 1 {
      JoinRestoredChunks(chunks[1..], pieces[1..], sep);
      assert Join(pieces, "") == pieces[0] + "" + Join(pieces[1..], "");
      assert Join(chunks, sep) == chunks[0] + sep + Join(chunks[1..], sep);
    }
  }

  /** `AllPieces` of chunks that each give one piece is those pieces. */
  lemma AllPiecesSingle(chunks: seq<string>, pieces: seq<string>, locale: Locale)
    requires |pieces| == |chunks|
    requires forall k :: 0 <= k < |chunks| ==> ChunkPieces(chunks[k], locale) == [pieces[k]]
    ensures AllPieces(chunks, locale) == pieces
  {
    FlattenedSingles(chunks, PiecesIn(locale), pieces);
  }

  /** Every chunk with its `</p>` back, except the last. */
  function Restored(chunks: seq<string>): (r: seq<string>)
    requires |chunks| >= 1
    ensures |r| == |chunks| && r[|chunks| - 1] == chunks[|chunks| - 1]
    ensures forall k :: 0 <= k < |chunks| - 1 ==> r[k] == chunks[k] + "</p>"
  {
    seq(|chunks|, k requires 0 <= k < |chunks| => if k < |chunks| - 1 then chunks[k] + "</p>" else chunks[k])
  }

  /** All paragraphs short: every chunk but the last carries `<p>` and at most 300
      characters of text, and the last has no `<p>`. */
  predicate AllShort(chunks: seq<string>) {
    && |chunks| >= 1
    && (forall k :: 0 <= k < |chunks| - 1 ==>
          Contains(chunks[k], "<p>") && |Trim(RemoveAll(chunks[k], "<p>"))| <= MaxParagraphText)
    && !Contains(chunks[|chunks| - 1], "<p>")
  }

  lemma AllShortPieces(chunks: seq<string>, locale: Locale)
    requires AllShort(chunks)
    ensures AllPieces(chunks, locale) == Restored(chunks)
  {
    var pieces := Restored(chunks);
    forall k | 0 <= k < |chunks| ensures ChunkPieces(chunks[k], locale) == [pieces[k]] {
      ShortChunkRestored(chunks[k], locale);
      if k < |chunks| - 1 {
        assert pieces[k] == chunks[k] + "</p>";
      } else {
        assert pieces[k] == chunks[k];
      }
    }
    AllPiecesSingle(chunks, pieces, locale);
  }

  /** Content whose paragraphs are all short comes back unchanged. */
  lemma ShortParagraphsUnchanged(content: string, locale: Locale)
    requires AllShort(SplitOn(content, "</p>"))
    ensures SplitLong(content, locale) == content
  {
    var chunks := SplitOn(content, "</p>");
    AllShortPieces(chunks, locale);
    JoinRestoredChunks(chunks, Restored(chunks), "</p>");
    SplitOnJoin(content, "</p>");
  }
}
