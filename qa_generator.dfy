/** The question-coverage generator: Q&A pairs built per category from an article's
    summary and text, in the fixed order definition, comparison, application,
    limitation, then cut to the configured maximum, with coverage flags computed from
    the pairs that are kept. */
module QAGenerator {
  import opened Util
  import opened GeoTypes
  import HtmlText

  /** The resolved generator settings (`Required<QAGeneratorConfig>`). */
  datatype GeneratorConfig = GeneratorConfig(
    maxQAPairs: int, includeDefinition: bool, includeComparison: bool,
    includeApplication: bool, includeLimitation: bool)

  /** The settings a caller passes; an absent key keeps the default. */
  datatype ConfigOverrides = ConfigOverrides(
    maxQAPairs: Option<int>, includeDefinition: Option<bool>, includeComparison: Option<bool>,
    includeApplication: Option<bool>, includeLimitation: Option<bool>)

  const DefaultConfig: GeneratorConfig := GeneratorConfig(10, true, true, true, true)

  const NoOverrides: ConfigOverrides := ConfigOverrides(None, None, None, None, None)

  /** `{ ...DEFAULT_CONFIG, ...config }`. */
  function MergeConfig(o: ConfigOverrides): (c: GeneratorConfig) {
    GeneratorConfig(
      OrDefault(o.maxQAPairs, DefaultConfig.maxQAPairs),
      OrDefault(o.includeDefinition, DefaultConfig.includeDefinition),
      OrDefault(o.includeComparison, DefaultConfig.includeComparison),
      OrDefault(o.includeApplication, DefaultConfig.includeApplication),
      OrDefault(o.includeLimitation, DefaultConfig.includeLimitation))
  }

  /** A given key wins over the default, an absent one leaves the default in place:
      no overrides give the defaults, and overriding every key gives exactly the
      overrides. */
  lemma MergeConfigKeys(o: ConfigOverrides)
    ensures MergeConfig(NoOverrides) == DefaultConfig
    ensures o.maxQAPairs.Some? ==> MergeConfig(o).maxQAPairs == o.maxQAPairs.value
    ensures o.maxQAPairs.None? ==> MergeConfig(o).maxQAPairs == 10
    ensures o.includeDefinition.Some? ==> MergeConfig(o).includeDefinition == o.includeDefinition.value
    ensures o.includeDefinition.None? ==> MergeConfig(o).includeDefinition
    ensures o.includeComparison.Some? ==> MergeConfig(o).includeComparison == o.includeComparison.value
    ensures o.includeComparison.None? ==> MergeConfig(o).includeComparison
    ensures o.includeApplication.Some? ==> MergeConfig(o).includeApplication == o.includeApplication.value
    ensures o.includeApplication.None? ==> MergeConfig(o).includeApplication
    ensures o.includeLimitation.Some? ==> MergeConfig(o).includeLimitation == o.includeLimitation.value
    ensures o.includeLimitation.None? ==> MergeConfig(o).includeLimitation
  {
  }

  datatype ArticleInput = ArticleInput(
    id: string, title: string, content: string, aiSummary: Option<AISummary>,
    knowledgeBlocks: Option<seq<KnowledgeBlock>>, keywords: Option<seq<string>>)

  // ---------------------------------------------------------------------------
  // Concepts and the summary-based questions

  /** `extractConcepts`: the title, then the keywords when there are any. */
  function ExtractConcepts(a: ArticleInput): (r: seq<string>)
    ensures |r| >= 1 && r[0] == a.title
    ensures a.keywords.Some? ==> r[1..] == a.keywords.value
    ensures a.keywords.None? ==> r == [a.title]
  {
    [a.title] + OrDefault(a.keywords, [])
  }

  /** `generateDefinitionQuestions`: "what is" from `whatIs`, and "why does it
      matter" when `whyImportant` is non-empty. */
  function DefinitionQuestions(a: ArticleInput): (r: seq<QAPair>)
    ensures a.aiSummary.None? ==> r == []
    ensures a.aiSummary.Some? ==>
              |r| == (if a.aiSummary.value.whyImportant != "" then 2 else 1) &&
              r[0].answer == a.aiSummary.value.whatIs &&
              (|r| == 2 ==> r[1].answer == a.aiSummary.value.whyImportant)
    ensures forall k :: 0 <= k < |r| ==>
              r[k].category == DefinitionQ && r[k].relatedConcepts == ExtractConcepts(a)
  {
    match a.aiSummary
    case None => []
    case Some(summary) =>
      var concepts := ExtractConcepts(a);
      [QAPair("什么是" + a.title + "？", summary.whatIs, DefinitionQ, concepts)] +
      (if summary.whyImportant != ""
       then [QAPair("为什么" + a.title + "很重要？", summary.whyImportant, DefinitionQ, concepts)]
       else [])
  }

  /** `generateApplicationQuestions`: two questions over the use cases, or none when
      there is no summary or it lists no use case. */
  function ApplicationQuestions(a: ArticleInput): (r: seq<QAPair>)
    ensures a.aiSummary.None? || a.aiSummary.value.useCases == [] ==> r == []
    ensures a.aiSummary.Some? && a.aiSummary.value.useCases != [] ==>
              |r| == 2 &&
              r[0].answer == Join(a.aiSummary.value.useCases, "；") &&
              r[1].answer == a.title + "主要适用于以下场景：" + Join(a.aiSummary.value.useCases, "、") + "。"
    ensures forall k :: 0 <= k < |r| ==>
              r[k].category == ApplicationQ && r[k].relatedConcepts == ExtractConcepts(a)
  {
    match a.aiSummary
    case None => []
    case Some(summary) =>
      if summary.useCases == [] then []
      else
        var concepts := ExtractConcepts(a);
        [QAPair(a.title + "适用于哪些场景？", Join(summary.useCases, "；"), ApplicationQ, concepts),
         QAPair("什么时候应该使用" + a.title + "？",
                a.title + "主要适用于以下场景：" + Join(summary.useCases, "、") + "。",
                ApplicationQ, concepts)]
  }

  // ---------------------------------------------------------------------------
  // Comparisons

  /** One match of a comparison pattern: where it starts and its two captured terms. */
  datatype ComparisonMatch = ComparisonMatch(index: nat, termA: string, termB: string)

  /** A global regular expression run with `exec` until it fails: its matches in order. */
  type ComparisonMatcher = string -> seq<ComparisonMatch>

  /** The two comparison expressions: "X和Y的区别" and "X vs Y" / "X对比Y". */
  datatype ComparisonPatterns = ComparisonPatterns(difference: ComparisonMatcher, versus: ComparisonMatcher)

  datatype TermComparison = TermComparison(termA: string, termB: string, explanation: string)

  /** The `maxLength` every comparison passes, and the `maxLength / 2` taken on each
      side of the match. */
  const SurroundingWindow: nat := 200
  const HalfWindow: nat := 100

  /** `text.replace(/<[^>]+>/g, '')`: a '<' is removed together with everything up to
      the first '>' after it, provided at least one character lies between them. */
  function RemoveNonEmptyTags(s: string): (r: string)
    ensures |r| <= |s|
    decreases |s|
  {
    if s == [] then []
    else if s[0] == '<' && 1 < HtmlText.IndexOf(s, '>', 1) < |s| then
      RemoveNonEmptyTags(s[HtmlText.IndexOf(s, '>', 1) + 1..])
    else [s[0]] + RemoveNonEmptyTags(s[1..])
  }

  /** Text without any '<'. */
  predicate PlainText(s: string) {
    forall i :: 0 <= i < |s| ==> s[i] != '<'
  }

  /** Text without any '<' passes the tag removal unchanged. */
  lemma {:induction false} RemoveNonEmptyTagsOfPlainText(s: string)
    requires PlainText(s)
    ensures RemoveNonEmptyTags(s) == s
    decreases |s|
  {
    if s != [] {
      assert s[0] != '<';
      assert PlainText(s[1..]) by {
        forall i | 0 <= i < |s[1..]| ensures s[1..][i] != '<' {
          assert s[1..][i] == s[i + 1];
        }
      }
      RemoveNonEmptyTagsOfPlainText(s[1..]);
      assert [s[0]] + s[1..] == s;
    }
  }

  /** `extractSurroundingText(content, position, 200)`: the window of 100 characters
      on either side of the match, trimmed, then cleared of tags. */
  function SurroundingText(content: string, position: nat): (r: string)
    ensures |r| <= SurroundingWindow
  {
    var half := HalfWindow;
    var start := if position - half > 0 then position - half else 0;
    var end := if |content| < position + half then |content| else position + half;
    var window := HtmlText.Substring(content, start, end);
    assert |window| <= SurroundingWindow;
    RemoveNonEmptyTags(Trim(window))
  }

  /** In text without tags the explanation is the trimmed window of up to 100
      characters on either side of the match, as `substring` clamps it. */
  lemma SurroundingTextOfPlainText(content: string, position: nat)
    requires PlainText(content)
    ensures SurroundingText(content, position) ==
            Trim(HtmlText.Substring(content, position - HalfWindow, position + HalfWindow))
  {
    var half := HalfWindow;
    var start := if position - half > 0 then position - half else 0;
    var end := if |content| < position + half then |content| else position + half;
    WindowClamped(content, position - half, position + half, start, end);
    var window := HtmlText.Substring(content, start, end);
    PlainWindow(content, start, end);
    RemoveNonEmptyTagsOfPlainText(Trim(window));
    assert SurroundingText(content, position) == RemoveNonEmptyTags(Trim(window));
  }

  /** `Math.max(0, ·)` and `Math.min(length, ·)` do not change what `substring` takes. */
  lemma WindowClamped(content: string, a: int, b: int, start: int, end: int)
    requires start == (if a > 0 then a else 0)
    requires end == (if |content| < b then |content| else b)
    ensures HtmlText.Substring(content, start, end) == HtmlText.Substring(content, a, b)
  {
  }

  lemma PlainWindow(content: string, start: int, end: int)
    requires PlainText(content)
    ensures PlainText(Trim(HtmlText.Substring(content, start, end)))
  {
    var w := HtmlText.Substring(content, start, end);
    var lo := Clamp(start, 0, |content|);
    var hi := Clamp(end, 0, |content|);
    forall i | 0 <= i < |w| ensures w[i] != '<' {
      if lo <= hi {
        assert w[i] == content[lo + i];
      } else {
        assert w[i] == content[hi + i];
      }
    }
    TrimIsSlice(w);
    var t := Trim(w);
    forall i | 0 <= i < |t| ensures t[i] != '<' {
      assert t[i] == w[TrimOffset(w) + i];
    }
  }

  function ComparisonOf(content: string, m: ComparisonMatch): TermComparison {
    TermComparison(m.termA, m.termB, SurroundingText(content, m.index))
  }

  /** The comparison a match of the pattern yields in `content`. */
  function ExplainIn(content: string): ComparisonMatch -> TermComparison {
    m => ComparisonOf(content, m)
  }

  /** `extractComparisons`: one comparison per match of the first pattern, then one per
      match of the second. */
  function Comparisons(content: string, patterns: ComparisonPatterns): (r: seq<TermComparison>)
    ensures |r| == |patterns.difference(content)| + |patterns.versus(content)|
  {
    Mapped(patterns.difference(content) + patterns.versus(content), ExplainIn(content))
  }

  /** Each comparison carries the terms its match captured and at most 200
      characters of surrounding text. */
  lemma ComparisonsShape(content: string, patterns: ComparisonPatterns)
    ensures forall k :: 0 <= k < |Comparisons(content, patterns)| ==>
              var m := (patterns.difference(content) + patterns.versus(content))[k];
              var c := Comparisons(content, patterns)[k];
              c.termA == m.termA && c.termB == m.termB &&
              c.explanation == SurroundingText(content, m.index) && |c.explanation| <= SurroundingWindow
  {
  }

  /** The source's two `exec` loops, each pushing one comparison per match. */
  method ExtractComparisons(content: string, patterns: ComparisonPatterns) returns (r: seq<TermComparison>)
    ensures r == Comparisons(content, patterns)
  {
    var first := patterns.difference(content);
    var second := patterns.versus(content);
    var explain := ExplainIn(content);
    r := PushMapped([], first, explain);
    assert r == Mapped(first, explain);
    r := PushMapped(r, second, explain);
    MappedAppend(first, second, explain);
    assert r == Mapped(first + second, explain);
  }

  function ComparisonQuestion(c: TermComparison): QAPair {
    QAPair(c.termA + "和" + c.termB + "有什么区别？", c.explanation, ComparisonQ, [c.termA, c.termB])
  }

  /** `generateComparisonQuestions`: one question per comparison found, in order. */
  function ComparisonQuestions(a: ArticleInput, patterns: ComparisonPatterns): (r: seq<QAPair>)
    ensures |r| == |Comparisons(a.content, patterns)|
    ensures forall k :: 0 <= k < |r| ==> r[k].category == ComparisonQ
  {
    Mapped(Comparisons(a.content, patterns), ComparisonQuestion)
  }

  /** Each comparison question relates exactly the two compared terms and answers with
      the text around the match. */
  lemma ComparisonQuestionsShape(a: ArticleInput, patterns: ComparisonPatterns)
    ensures forall k :: 0 <= k < |ComparisonQuestions(a, patterns)| ==>
              var c := Comparisons(a.content, patterns)[k];
              var q := ComparisonQuestions(a, patterns)[k];
              q.relatedConcepts == [c.termA, c.termB] && q.answer == c.explanation &&
              q.question == c.termA + "和" + c.termB + "有什么区别？"
  {
  }

  method GenerateComparisonQuestions(a: ArticleInput, patterns: ComparisonPatterns) returns (r: seq<QAPair>)
    ensures r == ComparisonQuestions(a, patterns)
  {
    var comparisons := ExtractComparisons(a.content, patterns);
    r := PushMapped([], comparisons, ComparisonQuestion);
    assert [] + Mapped(comparisons, ComparisonQuestion) == Mapped(comparisons, ComparisonQuestion);
  }

  // ---------------------------------------------------------------------------
  // Limitations

  const LimitationKeywords: seq<string> := ["局限性", "缺点", "不足", "注意事项", "风险", "挑战", "问题", "限制"]

  const MaxLimitations: nat := 5

  predicate IsSentenceEnd(c: char) { c == '。' || c == '！' || c == '？' }

  /** A run of characters closed by its only sentence-ending mark. */
  predicate IsSentence(x: string) {
    |x| >= 1 && IsSentenceEnd(x[|x| - 1]) && forall k :: 0 <= k < |x| - 1 ==> !IsSentenceEnd(x[k])
  }

  /** The first sentence-ending mark at or after `i`, or `|s|` when there is none. */
  function SentenceEndFrom(s: string, i: nat): (j: nat)
    requires i <= |s|
    ensures i <= j <= |s|
    ensures j < |s| ==> IsSentenceEnd(s[j])
    ensures forall k :: i <= k < j ==> !IsSentenceEnd(s[k])
    decreases |s| - i
  {
    if i == |s| || IsSentenceEnd(s[i]) then i else SentenceEndFrom(s, i + 1)
  }

  /** The text cut after every sentence-ending mark; a trailing piece without one is
      dropped. */
  function Sentences(s: string): (r: seq<string>)
    ensures forall k :: 0 <= k < |r| ==> IsSentence(r[k])
    decreases |s|
  {
    var t := SentenceEndFrom(s, 0);
    if t == |s| then [] else [s[..t + 1]] + Sentences(s[t + 1..])
  }

  /** The sentences that mention `keyword`, in order. */
  function SentencesWith(ss: seq<string>, keyword: string): (r: seq<string>)
    ensures forall k :: 0 <= k < |r| ==> r[k] in ss && Contains(r[k], keyword)
    ensures forall k :: 0 <= k < |ss| && Contains(ss[k], keyword) ==> ss[k] in r
  {
    if ss == [] then []
    else (if Contains(ss[0], keyword) then [ss[0]] else []) + SentencesWith(ss[1..], keyword)
  }

  /** `content.match(/[^。！？]*keyword[^。！？]*[。！？]/g)` for a keyword without
      sentence-ending marks: no match can cross a mark and each must end on one, so
      the leftmost matches are exactly the whole sentences that contain the keyword. */
  function KeywordMatches(content: string, keyword: string): seq<string> {
    SentencesWith(Sentences(content), keyword)
  }

  function TrimAll(ss: seq<string>): (r: seq<string>)
    ensures |r| == |ss| && forall k :: 0 <= k < |ss| ==> r[k] == Trim(ss[k])
  {
    seq(|ss|, k requires 0 <= k < |ss| => Trim(ss[k]))
  }

  /** The trimmed matches of each keyword in turn, duplicates included. */
  function LimitationCandidates(content: string, keywords: seq<string>): seq<string> {
    if keywords == [] then []
    else LimitationCandidates(content, keywords[..|keywords| - 1]) +
         TrimAll(KeywordMatches(content, keywords[|keywords| - 1]))
  }

  /** `extractLimitations`: the distinct candidates, the first five of them. */
  function Limitations(content: string): seq<string> {
    Take(Distinct(LimitationCandidates(content, LimitationKeywords)), MaxLimitations)
  }

  predicate IsLimitationSentence(content: string, x: string, keywords: seq<string>) {
    exists s, kw :: s in Sentences(content) && kw in keywords && Contains(s, kw) && x == Trim(s)
  }

  lemma {:induction false} LimitationCandidatesSound(content: string, keywords: seq<string>)
    ensures forall x :: x in LimitationCandidates(content, keywords) ==>
              IsLimitationSentence(content, x, keywords)
  {
    if keywords != [] {
      var init := keywords[..|keywords| - 1];
      var kw := keywords[|keywords| - 1];
      LimitationCandidatesSound(content, init);
      forall x | x in LimitationCandidates(content, keywords)
        ensures IsLimitationSentence(content, x, keywords)
      {
        if x in LimitationCandidates(content, init) {
          var s, k :| s in Sentences(content) && k in init && Contains(s, k) && x == Trim(s);
          assert k in keywords;
        } else {
          var ms := KeywordMatches(content, kw);
          var i :| 0 <= i < |TrimAll(ms)| && TrimAll(ms)[i] == x;
          assert ms[i] in Sentences(content) && Contains(ms[i], kw);
        }
      }
    }
  }

  /** At most five limitations, no two alike, each the trimmed text of a sentence of
      the content that mentions one of the keywords; and when there are no more than
      five distinct candidates, none is lost. */
  lemma LimitationsShape(content: string)
    ensures |Limitations(content)| <= MaxLimitations
    ensures NoDuplicates(Limitations(content))
    ensures forall x :: x in Limitations(content) ==> IsLimitationSentence(content, x, LimitationKeywords)
    ensures |Distinct(LimitationCandidates(content, LimitationKeywords))| <= MaxLimitations ==>
              forall x :: x in LimitationCandidates(content, LimitationKeywords) ==> x in Limitations(content)
  {
    var all := LimitationCandidates(content, LimitationKeywords);
    var d := Distinct(all);
    LimitationCandidatesSound(content, LimitationKeywords);
    forall x | x in Limitations(content)
      ensures IsLimitationSentence(content, x, LimitationKeywords)
    {
      var i :| 0 <= i < |Limitations(content)| && Limitations(content)[i] == x;
      assert d[i] == x;
    }
    assert NoDuplicates(Limitations(content)) by {
      forall i, j | 0 <= i < j < |Limitations(content)|
        ensures Limitations(content)[i] != Limitations(content)[j]
      {
        assert Limitations(content)[i] == d[i] && Limitations(content)[j] == d[j];
      }
    }
  }

  /** The source's keyword loop pushing each keyword's trimmed matches, then the
      de-duplication and the cut. */
  method ExtractLimitations(content: string) returns (r: seq<string>)
    ensures r == Limitations(content)
  {
    var limitations := [];
    for i := 0 to |LimitationKeywords|
      invariant limitations == LimitationCandidates(content, LimitationKeywords[..i])
    {
      var matches := KeywordMatches(content, LimitationKeywords[i]);
      limitations := limitations + TrimAll(matches);
      assert LimitationKeywords[..i + 1][..i] == LimitationKeywords[..i];
    }
    assert LimitationKeywords[..|LimitationKeywords|] == LimitationKeywords;
    r := Take(Distinct(limitations), MaxLimitations);
  }

  /** `generateLimitationQuestions`, given the limitations found in the content: two
      questions when there is any. */
  function LimitationQuestions(a: ArticleInput, limitations: seq<string>): (r: seq<QAPair>)
    ensures limitations == [] ==> r == []
    ensures limitations != [] ==> |r| == 2 && r[0].answer == Join(limitations, "；")
    ensures forall k :: 0 <= k < |r| ==>
              r[k].category == LimitationQ && r[k].relatedConcepts == ExtractConcepts(a)
  {
    if limitations == [] then []
    else
      var concepts := ExtractConcepts(a);
      [QAPair(a.title + "有哪些局限性？", Join(limitations, "；"), LimitationQ, concepts),
       QAPair("使用" + a.title + "时需要注意什么？",
              "使用" + a.title + "时需要注意以下几点：" + Join(limitations, "；") + "。",
              LimitationQ, concepts)]
  }

  // ---------------------------------------------------------------------------
  // Assembling the matrix

  function DefinitionPart(c: GeneratorConfig, a: ArticleInput): (r: seq<QAPair>)
    ensures AllOfCategory(r, DefinitionQ)
    ensures r != [] <==> c.includeDefinition && a.aiSummary.Some?
  {
    Part(c.includeDefinition && a.aiSummary.Some?, DefinitionQuestions(a))
  }

  function ComparisonPart(c: GeneratorConfig, a: ArticleInput, patterns: ComparisonPatterns): (r: seq<QAPair>)
    ensures AllOfCategory(r, ComparisonQ)
    ensures r != [] <==> c.includeComparison && Comparisons(a.content, patterns) != []
  {
    Part(c.includeComparison, ComparisonQuestions(a, patterns))
  }

  function ApplicationPart(c: GeneratorConfig, a: ArticleInput): (r: seq<QAPair>)
    ensures AllOfCategory(r, ApplicationQ)
    ensures r != [] <==> c.includeApplication && a.aiSummary.Some? && a.aiSummary.value.useCases != []
  {
    Part(c.includeApplication && a.aiSummary.Some?, ApplicationQuestions(a))
  }

  function LimitationPart(c: GeneratorConfig, a: ArticleInput): (r: seq<QAPair>)
    ensures AllOfCategory(r, LimitationQ)
    ensures r != [] <==> c.includeLimitation && Limitations(a.content) != []
  {
    Part(c.includeLimitation, LimitationQuestions(a, Limitations(a.content)))
  }

  /** Every pair the enabled categories produce, before the cut: definition,
      comparison, application and limitation questions, in that order. */
  function AllPairs(c: GeneratorConfig, a: ArticleInput, patterns: ComparisonPatterns): seq<QAPair> {
    DefinitionPart(c, a) + ComparisonPart(c, a, patterns) + ApplicationPart(c, a) + LimitationPart(c, a)
  }

  predicate HasCategory(ps: seq<QAPair>, category: QACategory) {
    exists k :: 0 <= k < |ps| && ps[k].category == category
  }

  /** `calculateCoverage`. */
  function CalculateCoverage(ps: seq<QAPair>): (r: Coverage)
    ensures r.hasDefinition <==> exists p :: p in ps && p.category == DefinitionQ
    ensures r.hasComparison <==> exists p :: p in ps && p.category == ComparisonQ
    ensures r.hasApplication <==> exists p :: p in ps && p.category == ApplicationQ
    ensures r.hasLimitation <==> exists p :: p in ps && p.category == LimitationQ
  {
    Coverage(HasCategory(ps, DefinitionQ), HasCategory(ps, ComparisonQ),
             HasCategory(ps, ApplicationQ), HasCategory(ps, LimitationQ))
  }

  function Rank(category: QACategory): nat {
    match category
    case DefinitionQ => 0
    case ComparisonQ => 1
    case ApplicationQ => 2
    case LimitationQ => 3
  }

  predicate InCategoryOrder(ps: seq<QAPair>) {
    forall i, j :: 0 <= i < j < |ps| ==> Rank(ps[i].category) <= Rank(ps[j].category)
  }

  predicate AllOfCategory(ps: seq<QAPair>, category: QACategory) {
    forall k :: 0 <= k < |ps| ==> ps[k].category == category
  }

  /** The pairs of one category, or nothing when that category is switched off. */
  function Part(enabled: bool, ps: seq<QAPair>): seq<QAPair> {
    if enabled then ps else []
  }

  lemma AppendInCategoryOrder(ps: seq<QAPair>, qs: seq<QAPair>, category: QACategory)
    requires InCategoryOrder(ps)
    requires forall k :: 0 <= k < |ps| ==> Rank(ps[k].category) <= Rank(category)
    requires AllOfCategory(qs, category)
    ensures InCategoryOrder(ps + qs)
    ensures forall k :: 0 <= k < |ps + qs| ==> Rank((ps + qs)[k].category) <= Rank(category)
  {
  }

  /** Four parts, each of a single category, concatenated in rank order. */
  lemma PartsInCategoryOrder(d: seq<QAPair>, m: seq<QAPair>, u: seq<QAPair>, l: seq<QAPair>)
    requires AllOfCategory(d, DefinitionQ) && AllOfCategory(m, ComparisonQ)
    requires AllOfCategory(u, ApplicationQ) && AllOfCategory(l, LimitationQ)
    ensures InCategoryOrder(d + m + u + l)
  {
    AppendInCategoryOrder([], d, DefinitionQ);
    assert [] + d == d;
    AppendInCategoryOrder(d, m, ComparisonQ);
    AppendInCategoryOrder(d + m, u, ApplicationQ);
    AppendInCategoryOrder(d + m + u, l, LimitationQ);
  }

  lemma HasCategoryAppend(ps: seq<QAPair>, qs: seq<QAPair>, category: QACategory)
    ensures HasCategory(ps + qs, category) <==> HasCategory(ps, category) || HasCategory(qs, category)
  {
    if HasCategory(ps, category) {
      var k :| 0 <= k < |ps| && ps[k].category == category;
      assert (ps + qs)[k].category == category;
    }
    if HasCategory(ps + qs, category) {
      var k :| 0 <= k < |ps + qs| && (ps + qs)[k].category == category;
      if k >= |ps| {
        assert qs[k - |ps|].category == category;
      }
    }
    if HasCategory(qs, category) {
      var k :| 0 <= k < |qs| && qs[k].category == category;
      assert (ps + qs)[|ps| + k].category == category;
    }
  }

  lemma SingleCategory(ps: seq<QAPair>, only: QACategory, category: QACategory)
    requires AllOfCategory(ps, only)
    ensures HasCategory(ps, category) <==> ps != [] && only == category
  {
    if ps != [] && only == category {
      assert ps[0].category == category;
    }
  }

  /** Only the categories of the parts that are present can occur in the whole. */
  lemma PartsCategories(d: seq<QAPair>, m: seq<QAPair>, u: seq<QAPair>, l: seq<QAPair>)
    requires AllOfCategory(d, DefinitionQ) && AllOfCategory(m, ComparisonQ)
    requires AllOfCategory(u, ApplicationQ) && AllOfCategory(l, LimitationQ)
    ensures HasCategory(d + m + u + l, DefinitionQ) <==> d != []
    ensures HasCategory(d + m + u + l, ComparisonQ) <==> m != []
    ensures HasCategory(d + m + u + l, ApplicationQ) <==> u != []
    ensures HasCategory(d + m + u + l, LimitationQ) <==> l != []
  {
    forall category
      ensures HasCategory(d + m + u + l, category) <==>
              HasCategory(d, category) || HasCategory(m, category) || HasCategory(u, category) || HasCategory(l, category)
    {
      HasCategoryAppend(d, m, category);
      HasCategoryAppend(d + m, u, category);
      HasCategoryAppend(d + m + u, l, category);
    }
    forall category
      ensures HasCategory(d, category) <==> d != [] && category == DefinitionQ
      ensures HasCategory(m, category) <==> m != [] && category == ComparisonQ
      ensures HasCategory(u, category) <==> u != [] && category == ApplicationQ
      ensures HasCategory(l, category) <==> l != [] && category == LimitationQ
    {
      SingleCategory(d, DefinitionQ, category);
      SingleCategory(m, ComparisonQ, category);
      SingleCategory(u, ApplicationQ, category);
      SingleCategory(l, LimitationQ, category);
    }
  }

  /** The pairs come category by category: definition, comparison, application,
      limitation. */
  lemma AllPairsInCategoryOrder(c: GeneratorConfig, a: ArticleInput, patterns: ComparisonPatterns)
    ensures InCategoryOrder(AllPairs(c, a, patterns))
  {
    PartsInCategoryOrder(DefinitionPart(c, a), ComparisonPart(c, a, patterns),
                         ApplicationPart(c, a), LimitationPart(c, a));
  }

  /** A category is represented before the cut exactly when it is enabled and its
      generator found something; in particular a disabled category, and without a
      summary the definition and application categories, contribute no pair. */
  lemma AllPairsCategories(c: GeneratorConfig, a: ArticleInput, patterns: ComparisonPatterns)
    ensures HasCategory(AllPairs(c, a, patterns), DefinitionQ) <==>
              c.includeDefinition && a.aiSummary.Some?
    ensures HasCategory(AllPairs(c, a, patterns), ComparisonQ) <==>
              c.includeComparison && Comparisons(a.content, patterns) != []
    ensures HasCategory(AllPairs(c, a, patterns), ApplicationQ) <==>
              c.includeApplication && a.aiSummary.Some? && a.aiSummary.value.useCases != []
    ensures HasCategory(AllPairs(c, a, patterns), LimitationQ) <==>
              c.includeLimitation && Limitations(a.content) != []
  {
    PartsCategories(DefinitionPart(c, a), ComparisonPart(c, a, patterns),
                    ApplicationPart(c, a), LimitationPart(c, a));
  }

  /** The matrix `generateFromArticle` returns, as a value. */
  function Matrix(c: GeneratorConfig, a: ArticleInput, patterns: ComparisonPatterns): QuestionCoverageMatrix {
    var kept := SliceTo(AllPairs(c, a, patterns), c.maxQAPairs);
    QuestionCoverageMatrix(a.id, kept, CalculateCoverage(kept))
  }

  /** What the returned matrix promises: its article is the input id, it keeps a
      prefix of the ordered pairs no longer than the maximum, no disabled or
      summary-less category appears in it, and each coverage flag tells whether a
      kept pair has that category. */
  lemma MatrixShape(c: GeneratorConfig, a: ArticleInput, patterns: ComparisonPatterns)
    ensures Matrix(c, a, patterns).article == a.id
    ensures c.maxQAPairs >= 0 ==> |Matrix(c, a, patterns).qaPairs| <= c.maxQAPairs
    ensures InCategoryOrder(Matrix(c, a, patterns).qaPairs)
    ensures !c.includeDefinition || a.aiSummary.None? ==> !Matrix(c, a, patterns).coverage.hasDefinition
    ensures !c.includeComparison ==> !Matrix(c, a, patterns).coverage.hasComparison
    ensures !c.includeApplication || a.aiSummary.None? ==> !Matrix(c, a, patterns).coverage.hasApplication
    ensures !c.includeLimitation ==> !Matrix(c, a, patterns).coverage.hasLimitation
    ensures c.maxQAPairs >= |AllPairs(c, a, patterns)| ==>
              Matrix(c, a, patterns).qaPairs == AllPairs(c, a, patterns) &&
              (Matrix(c, a, patterns).coverage.hasDefinition <==> c.includeDefinition && a.aiSummary.Some?) &&
              (Matrix(c, a, patterns).coverage.hasLimitation <==> c.includeLimitation && Limitations(a.content) != [])
  {
    var all := AllPairs(c, a, patterns);
    var kept := SliceTo(all, c.maxQAPairs);
    AllPairsInCategoryOrder(c, a, patterns);
    AllPairsCategories(c, a, patterns);
    assert forall k :: 0 <= k < |kept| ==> kept[k] == all[k];
  }

  /** A generator holds the merged configuration it was built with. */
  class Generator {
    const config: GeneratorConfig

    constructor(overrides: ConfigOverrides)
      ensures config == MergeConfig(overrides)
    {
      config := MergeConfig(overrides);
    }

    /** `generateFromArticle`: the enabled categories pushed in order, the list cut
        to `maxQAPairs`, and the coverage of what was kept. */
    method GenerateFromArticle(a: ArticleInput, patterns: ComparisonPatterns) returns (m: QuestionCoverageMatrix)
      ensures m == Matrix(config, a, patterns)
    {
      var qaPairs := [];
      if config.includeDefinition && a.aiSummary.Some? {
        qaPairs := qaPairs + DefinitionQuestions(a);
      }
      assert qaPairs == DefinitionPart(config, a);
      if config.includeComparison {
        var questions := GenerateComparisonQuestions(a, patterns);
        qaPairs := qaPairs + questions;
      }
      assert qaPairs == DefinitionPart(config, a) + ComparisonPart(config, a, patterns);
      if config.includeApplication && a.aiSummary.Some? {
        qaPairs := qaPairs + ApplicationQuestions(a);
      }
      assert qaPairs == DefinitionPart(config, a) + ComparisonPart(config, a, patterns) + ApplicationPart(config, a);
      if config.includeLimitation {
        var limitations := ExtractLimitations(a.content);
        qaPairs := qaPairs + LimitationQuestions(a, limitations);
      }
      assert qaPairs == AllPairs(config, a, patterns);
      var limited := SliceTo(qaPairs, config.maxQAPairs);
      m := QuestionCoverageMatrix(a.id, limited, CalculateCoverage(limited));
    }
  }

  /** `generateQA`: a generator built from the overrides, applied to the article. */
  method GenerateQA(a: ArticleInput, overrides: ConfigOverrides, patterns: ComparisonPatterns)
    returns (m: QuestionCoverageMatrix)
    ensures m == Matrix(MergeConfig(overrides), a, patterns)
  {
    var generator := new Generator(overrides);
    m := generator.GenerateFromArticle(a, patterns);
  }
}
