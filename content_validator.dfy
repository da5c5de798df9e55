/** The content quality validator: it scans an article's HTML for over-long
    paragraphs, rhetorical questions, vague terms and hyperbole, derives boolean
    metrics, scores the article out of 100 and recommends fixes.

    Regular expressions with general structure (the Q&A markers, the citation
    patterns, the eight rhetorical-question patterns) are inputs: `Patterns` gives,
    for a text, whether the markers occur and the matches of each question pattern in
    order. Patterns built from literal terms, the paragraph pattern and tag stripping
    are modelled exactly (see `HtmlText`). */
module ContentValidator {
  import opened Util
  import opened GeoTypes
  import opened HtmlText

  const MaxParagraphLength: nat := 300

  const VagueTermsZh: seq<string> := ["可能", "也许", "大概", "或许", "似乎", "好像", "大约", "左右", "差不多", "基本上"]

  const VagueTermsEn: seq<string> := ["maybe", "perhaps", "possibly", "probably", "might", "could be",
                                     "seems like", "appears to", "roughly", "approximately"]

  const HyperboleTermsZh: seq<string> := ["颠覆", "史无前例", "革命性", "划时代", "空前", "绝无仅有", "前所未有",
                                         "最强", "最好", "完美", "终极", "极致", "无敌", "碾压", "秒杀"]

  const HyperboleTermsEn: seq<string> := ["revolutionary", "groundbreaking", "unprecedented", "game-changing",
                                         "disruptive", "paradigm shift", "best ever", "perfect", "ultimate",
                                         "unbelievable", "amazing", "incredible", "mind-blowing"]

  /** Number of rhetorical-question patterns: five Chinese, then three English. */
  const ZhQuestionPatterns: nat := 5
  const QuestionPatterns: nat := 8

  datatype RegexMatch = RegexMatch(index: nat, text: string)

  /** The regular expressions the model does not spell out. */
  datatype Patterns = Patterns(
    isQAContent: string -> bool,
    hasCitations: string -> bool,
    questionMatches: (nat, string) -> seq<RegexMatch>)

  predicate NonEmptyTerms(terms: seq<string>) {
    forall k :: 0 <= k < |terms| ==> terms[k] != []
  }

  lemma TermListsNonEmpty()
    ensures NonEmptyTerms(VagueTermsZh) && NonEmptyTerms(VagueTermsEn)
    ensures NonEmptyTerms(HyperboleTermsZh) && NonEmptyTerms(HyperboleTermsEn)
  {
  }

  // ---------------------------------------------------------------------------
  // Paragraph length

  predicate IsLong(p: ParagraphMatch) {
    |StripHtmlTags(p.inner)| > MaxParagraphLength
  }

  function ParagraphIssue(n: nat, length: nat): QualityIssue {
    QualityIssue(Warning, "paragraph_length",
      "Paragraph " + NatToString(n) + " exceeds 300 characters (" + NatToString(length)
      + " characters). Consider breaking it into smaller, more digestible chunks.",
      Some("Paragraph " + NatToString(n)))
  }

  /** The issues for paragraphs `ps`, the first of which is paragraph number `n`. */
  function LongParagraphIssues(ps: seq<ParagraphMatch>, n: nat): seq<QualityIssue> {
    if ps == [] then []
    else ParagraphIssueFor(ps[0], n) + LongParagraphIssues(ps[1..], n + 1)
  }

  function ParagraphIssues(content: string): seq<QualityIssue> {
    LongParagraphIssues(ParagraphMatches(content, 0), 1)
  }

  /** The scan starts at the beginning of the content with paragraph number 1. */
  lemma ParagraphIssuesStart(content: string, issues: seq<QualityIssue>, from: nat, n: nat)
    requires issues == [] && from == 0 && n == 1
    ensures issues + LongParagraphIssues(ParagraphMatches(content, from), n) == ParagraphIssues(content)
  {
    assert issues + LongParagraphIssues(ParagraphMatches(content, from), n) == LongParagraphIssues(ParagraphMatches(content, from), n);
  }

  /** The issue, if any, for paragraph number `n`. */
  function ParagraphIssueFor(p: ParagraphMatch, n: nat): seq<QualityIssue> {
    if IsLong(p) then [ReportFor(p, n)] else []
  }

  /** One step of the global search: the first match, then the rest numbered on. */
  lemma ParagraphStep(content: string, from: nat, n: nat)
    requires from <= |content| && NextParagraph(content, from).Some?
    ensures var m := NextParagraph(content, from).value;
      LongParagraphIssues(ParagraphMatches(content, from), n)
      == ParagraphIssueFor(m, n) + LongParagraphIssues(ParagraphMatches(content, m.end), n + 1)
  {
    var m := NextParagraph(content, from).value;
    var rest := ParagraphMatches(content, m.end);
    assert ParagraphMatches(content, from) == [m] + rest;
    assert ([m] + rest)[1..] == rest;
  }

  /** `checkParagraphLength`: one warning per paragraph whose text is too long,
      numbered by the paragraph's position among all paragraphs. */
  method CheckParagraphLength(content: string) returns (issues: seq<QualityIssue>)
    ensures issues == ParagraphIssues(content)
  {
    issues := [];
    var lastIndex: nat := 0;
    var paragraphIndex: nat := 0;
    ghost var total := issues + LongParagraphIssues(ParagraphMatches(content, lastIndex), paragraphIndex + 1);
    ParagraphIssuesStart(content, issues, lastIndex, paragraphIndex + 1);
    while true
      invariant lastIndex <= |content|
      invariant issues + LongParagraphIssues(ParagraphMatches(content, lastIndex), paragraphIndex + 1) == total
      decreases |content| - lastIndex
    {
      var m := NextParagraph(content, lastIndex);
      if m.None? {
        break;
      }
      ParagraphStep(content, lastIndex, paragraphIndex + 1);
      ghost var before := issues;
      ghost var rest := LongParagraphIssues(ParagraphMatches(content, m.value.end), paragraphIndex + 2);
      paragraphIndex := paragraphIndex + 1;
      var paragraphText := StripHtmlTags(m.value.inner);
      if |paragraphText| > MaxParagraphLength {
        issues := issues + [ParagraphIssue(paragraphIndex, |paragraphText|)];
      }
      assert issues == before + ParagraphIssueFor(m.value, paragraphIndex);
      AppendAssoc(before, ParagraphIssueFor(m.value, paragraphIndex), rest);
      lastIndex := m.value.end;
    }
  }

  // ---------------------------------------------------------------------------
  // Rhetorical questions

  function QuestionIssue(text: string, m: RegexMatch): QualityIssue {
    QualityIssue(Warning, "rhetorical_question",
      "Rhetorical question detected: \"" + Trim(m.text)
      + "\". Consider using a declarative statement instead for better semantic certainty.",
      Some(LocationContext(text, m.index)))
  }

  function MatchIssues(text: string, ms: seq<RegexMatch>): (r: seq<QualityIssue>)
    ensures |r| == |ms|
  {
    if ms == [] then [] else [QuestionIssue(text, ms[0])] + MatchIssues(text, ms[1..])
  }

  /** The issues for the matches of patterns `from` up to `to`, pattern by pattern. */
  function PatternIssues(p: Patterns, text: string, from: nat, to: nat): seq<QualityIssue>
    decreases to
  {
    if to <= from then [] else PatternIssues(p, text, from, to - 1) + MatchIssues(text, p.questionMatches(to - 1, text))
  }

  lemma PatternIssuesSnoc(p: Patterns, text: string, from: nat, k: nat, next: nat)
    requires from <= k && next == k + 1
    ensures PatternIssues(p, text, from, next) == PatternIssues(p, text, from, k) + MatchIssues(text, p.questionMatches(k, text))
  {
  }

  function RhetoricalIssues(p: Patterns, content: string): seq<QualityIssue> {
    if p.isQAContent(content) then []
    else
      var text := StripHtmlTags(content);
      PatternIssues(p, text, 0, ZhQuestionPatterns) + PatternIssues(p, text, ZhQuestionPatterns, QuestionPatterns)
  }

  /** The `exec` loop of one pattern: a warning for each match, in order. */
  method PushMatches(issues: seq<QualityIssue>, text: string, ms: seq<RegexMatch>) returns (issues': seq<QualityIssue>)
    ensures issues' == issues + MatchIssues(text, ms)
  {
    issues' := issues;
    var i := 0;
    ghost var total := issues + MatchIssues(text, ms);
    while i < |ms|
      invariant 0 <= i <= |ms|
      invariant issues' + MatchIssues(text, ms[i..]) == total
    {
      assert ms[i..][1..] == ms[i + 1..];
      AppendAssoc(issues', [QuestionIssue(text, ms[i])], MatchIssues(text, ms[i + 1..]));
      issues' := issues' + [QuestionIssue(text, ms[i])];
      i := i + 1;
    }
  }

  /** The loop over a list of patterns (`from` up to `to`), each searched in turn. */
  method PushPatternMatches(issues: seq<QualityIssue>, p: Patterns, text: string, from: nat, to: nat)
    returns (issues': seq<QualityIssue>)
    requires from <= to
    ensures issues' == issues + PatternIssues(p, text, from, to)
  {
    issues' := issues;
    var k := from;
    while k < to
      invariant from <= k <= to
      invariant issues' == issues + PatternIssues(p, text, from, k)
    {
      var next := k + 1;
      PatternIssuesSnoc(p, text, from, k, next);
      AppendAssoc(issues, PatternIssues(p, text, from, k), MatchIssues(text, p.questionMatches(k, text)));
      issues' := PushMatches(issues', text, p.questionMatches(k, text));
      k := next;
    }
  }

  /** `checkRhetoricalQuestions`: nothing for Q&A content; otherwise a warning per
      match of each Chinese, then each English, question pattern in the stripped text. */
  method CheckRhetoricalQuestions(p: Patterns, content: string) returns (issues: seq<QualityIssue>)
    ensures issues == RhetoricalIssues(p, content)
  {
    issues := [];
    if p.isQAContent(content) {
      return;
    }
    var text := StripHtmlTags(content);
    issues := PushPatternMatches(issues, p, text, 0, ZhQuestionPatterns);
    assert issues == PatternIssues(p, text, 0, ZhQuestionPatterns);
    issues := PushPatternMatches(issues, p, text, ZhQuestionPatterns, QuestionPatterns);
  }

  // ---------------------------------------------------------------------------
  // Vague terms and hyperbole

  datatype TermKind = Vague | Hyperbole {
    function Name(): string {
      match this
      case Vague => "vague_term"
      case Hyperbole => "hyperbole"
    }

    function Message(term: string): string {
      match this
      case Vague => "Vague term detected: \"" + term + "\". Use more definitive language to improve semantic certainty."
      case Hyperbole => "Hyperbolic term detected: \"" + term + "\". Use more measured, factual language to improve verifiability."
    }
  }

  function TermIssue(kind: TermKind, text: string, term: string, index: nat): QualityIssue {
    QualityIssue(Warning, kind.Name(), kind.Message(term), Some(LocationContext(text, index)))
  }

  function OccurrenceIssues(kind: TermKind, text: string, term: string, occ: seq<nat>): (r: seq<QualityIssue>)
    ensures |r| == |occ|
  {
    if occ == [] then [] else [TermIssue(kind, text, term, occ[0])] + OccurrenceIssues(kind, text, term, occ[1..])
  }

  lemma OccurrenceIssuesCons(kind: TermKind, text: string, term: string, i: nat, rest: seq<nat>)
    ensures OccurrenceIssues(kind, text, term, [i] + rest)
            == [TermIssue(kind, text, term, i)] + OccurrenceIssues(kind, text, term, rest)
  {
    assert ([i] + rest)[1..] == rest;
  }

  /** One step of the search for `term`: the issue at the leftmost occurrence, then
      the issues for the occurrences from its end (`next`) on. */
  lemma OccurrenceIssuesStep(kind: TermKind, text: string, term: string, from: nat, mode: Mode, i: nat, next: nat)
    requires term != [] && NextOccurrence(text, term, from, mode) == Some(i) && next == i + |term|
    ensures OccurrenceIssues(kind, text, term, Occurrences(text, term, from, mode))
            == [TermIssue(kind, text, term, i)] + OccurrenceIssues(kind, text, term, Occurrences(text, term, next, mode))
  {
    OccurrencesStep(text, term, from, mode, i, next);
    OccurrenceIssuesCons(kind, text, term, i, Occurrences(text, term, next, mode));
  }

  /** The issues for every occurrence of every term, term by term. */
  function TermListIssues(kind: TermKind, text: string, terms: seq<string>, mode: Mode): seq<QualityIssue>
    requires NonEmptyTerms(terms)
  {
    if terms == [] then []
    else
      var last := terms[|terms| - 1];
      TermListIssues(kind, text, terms[..|terms| - 1], mode)
      + OccurrenceIssues(kind, text, last, Occurrences(text, last, 0, mode))
  }

  /** The `exec` loop for one term: a warning at each occurrence. */
  method PushTermMatches(issues: seq<QualityIssue>, kind: TermKind, text: string, term: string, mode: Mode)
    returns (issues': seq<QualityIssue>)
    requires term != []
    ensures issues' == issues + OccurrenceIssues(kind, text, term, Occurrences(text, term, 0, mode))
  {
    issues' := issues;
    var lastIndex: nat := 0;
    ghost var total := issues + OccurrenceIssues(kind, text, term, Occurrences(text, term, lastIndex, mode));
    while true
      invariant issues' + OccurrenceIssues(kind, text, term, Occurrences(text, term, lastIndex, mode)) == total
      decreases |text| + 1 - lastIndex
    {
      var m := NextOccurrence(text, term, lastIndex, mode);
      if m.None? {
        break;
      }
      var index := m.value;
      var next := index + |term|;
      var issue := TermIssue(kind, text, term, index);
      OccurrenceIssuesStep(kind, text, term, lastIndex, mode, index, next);
      AppendAssoc(issues', [issue], OccurrenceIssues(kind, text, term, Occurrences(text, term, next, mode)));
      issues' := issues' + [issue];
      lastIndex := next;
    }
  }

  /** The loop over a list of terms. */
  method ScanTerms(issues: seq<QualityIssue>, kind: TermKind, text: string, terms: seq<string>, mode: Mode)
    returns (issues': seq<QualityIssue>)
    requires NonEmptyTerms(terms)
    ensures issues' == issues + TermListIssues(kind, text, terms, mode)
  {
    issues' := issues;
    var i := 0;
    while i < |terms|
      invariant 0 <= i <= |terms|
      invariant issues' == issues + TermListIssues(kind, text, terms[..i], mode)
    {
      ghost var before := issues';
      issues' := PushTermMatches(issues', kind, text, terms[i], mode);
      assert terms[..i + 1][..i] == terms[..i];
      AppendAssoc(issues, TermListIssues(kind, text, terms[..i], mode),
                  OccurrenceIssues(kind, text, terms[i], Occurrences(text, terms[i], 0, mode)));
      i := i + 1;
    }
    assert terms[..i] == terms;
  }

  /** The Chinese and the English list of a kind. */
  function ZhTerms(kind: TermKind): seq<string> {
    match kind
    case Vague => VagueTermsZh
    case Hyperbole => HyperboleTermsZh
  }

  function EnTerms(kind: TermKind): seq<string> {
    match kind
    case Vague => VagueTermsEn
    case Hyperbole => HyperboleTermsEn
  }

  /** Chinese terms match literally; English terms match as whole words, ignoring case. */
  function TermIssuesOf(kind: TermKind, content: string): seq<QualityIssue> {
    TermListsNonEmpty();
    var text := StripHtmlTags(content);
    TermListIssues(kind, text, ZhTerms(kind), Exact) + TermListIssues(kind, text, EnTerms(kind), WholeWordAnyCase)
  }

  /** The body shared by `checkVagueTerms` and `checkHyperbole`: the Chinese list
      searched literally, then the English list as whole words in any case. */
  method ScanKind(kind: TermKind, content: string) returns (issues: seq<QualityIssue>)
    ensures issues == TermIssuesOf(kind, content)
  {
    TermListsNonEmpty();
    var text := StripHtmlTags(content);
    var zh, en := ZhTerms(kind), EnTerms(kind);
    issues := ScanTerms([], kind, text, zh, Exact);
    assert issues == TermListIssues(kind, text, zh, Exact);
    issues := ScanTerms(issues, kind, text, en, WholeWordAnyCase);
  }

  /** `checkVagueTerms`. */
  method CheckVagueTerms(content: string) returns (issues: seq<QualityIssue>)
    ensures issues == TermIssuesOf(Vague, content)
  {
    issues := ScanKind(Vague, content);
  }

  /** `checkHyperbole`. */
  method CheckHyperbole(content: string) returns (issues: seq<QualityIssue>)
    ensures issues == TermIssuesOf(Hyperbole, content)
  {
    issues := ScanKind(Hyperbole, content);
  }

  // ---------------------------------------------------------------------------
  // Citations and the content markers

  const MissingCitations: QualityIssue := QualityIssue(Warning, "missing_citations",
    "No citations or references found. Technical articles should include citations to improve verifiability and credibility.",
    Some("Article content"))

  /** `checkCitations`. */
  function CheckCitations(p: Patterns, content: string): (issues: seq<QualityIssue>)
    ensures issues == [] <==> p.hasCitations(content)
    ensures forall i :: i in issues ==> i == MissingCitations
  {
    if p.hasCitations(content) then [] else [MissingCitations]
  }

  /** The citation check runs only when citations were not declared. */
  function CitationIssues(p: Patterns, content: string, hasCitations: bool): seq<QualityIssue> {
    if hasCitations then [] else CheckCitations(p, content)
  }

  /** The first index at or after `j` that is not white space. */
  function SkipSpaces(s: string, j: nat): (k: nat)
    requires j <= |s|
    ensures j <= k <= |s|
    decreases |s| - j
  {
    if j < |s| && IsSpace(s[j]) then SkipSpaces(s, j + 1) else j
  }

  /** `w0\s+w1\s+…` ignoring case, at `i`; every word starts with a non-space. */
  predicate WordsAt(s: string, i: nat, words: seq<string>)
    decreases |words|
  {
    words != [] && LiteralAt(s, words[0], i, true)
    && (|words| == 1
        || (var j := i + |words[0]|;
            j < |s| && IsSpace(s[j]) && WordsAt(s, SkipSpaces(s, j), words[1..])))
  }

  predicate MentionsWords(s: string, words: seq<string>) {
    exists i :: 0 <= i <= |s| && WordsAt(s, i, words)
  }

  /** `hasDefinitionSentences`. */
  predicate HasDefinitionSentences(content: string) {
    Contains(content, "是指") || Contains(content, "指的是") || Contains(content, "定义为")
    || MentionsWords(content, ["is", "defined", "as"]) || MentionsWords(content, ["refers", "to"])
  }

  /** `hasConclusionMarkers`. */
  predicate HasConclusionMarkers(content: string) {
    Contains(content, "因此") || Contains(content, "结论是") || Contains(content, "综上所述")
    || Contains(content, "总结来说") || MentionsWords(content, ["therefore"])
    || MentionsWords(content, ["in", "conclusion"]) || MentionsWords(content, ["to", "summarize"])
  }

  /** `<ul[^>]*>` or `<ol[^>]*>`: the opening of a list tag that a later '>' closes. */
  predicate HasProperListStructures(content: string) {
    exists i :: 0 <= i <= |content| - 3
      && (LiteralAt(content, "<ul", i, false) || LiteralAt(content, "<ol", i, false))
      && IndexOf(content, '>', i + 3) < |content|
  }

  // ---------------------------------------------------------------------------
  // Score and recommendations

  function CountSeverity(issues: seq<QualityIssue>, s: Severity): (n: nat)
    ensures n <= |issues|
  {
    if issues == [] then 0 else (if issues[0].severity == s then 1 else 0) + CountSeverity(issues[1..], s)
  }

  /** The deductions for missing features. */
  function FeaturePenalty(m: QualityMetrics): (d: nat)
    ensures d <= 45
  {
    (if !m.hasDefinitions then 10 else 0) + (if !m.hasConclusions then 5 else 0)
    + (if !m.hasProperLists then 5 else 0) + (if !m.hasAISummary then 15 else 0)
    + (if !m.hasQACoverage then 10 else 0)
  }

  function RawScore(m: QualityMetrics, issues: seq<QualityIssue>): int {
    100 - FeaturePenalty(m) - 5 * CountSeverity(issues, Error) - 2 * CountSeverity(issues, Warning)
  }

  /** `calculateOverallScore`: deductions, then clamped into [0, 100]. */
  method CalculateOverallScore(m: QualityMetrics, issues: seq<QualityIssue>) returns (score: int)
    ensures 0 <= score <= 100
    ensures score == Clamp(RawScore(m, issues), 0, 100)
  {
    score := 100;
    if !m.hasDefinitions { score := score - 10; }
    if !m.hasConclusions { score := score - 5; }
    if !m.hasProperLists { score := score - 5; }
    if !m.hasAISummary { score := score - 15; }
    if !m.hasQACoverage { score := score - 10; }
    var errorCount := CountSeverity(issues, Error);
    var warningCount := CountSeverity(issues, Warning);
    score := score - errorCount * 5;
    score := score - warningCount * 2;
    score := if 100 < score then 100 else score;
    score := if 0 < score then score else 0;
  }

  function HasKind(issues: seq<QualityIssue>, kind: string): bool {
    exists i :: 0 <= i < |issues| && issues[i].kind == kind
  }

  /** A recommendation that is given exactly when its condition holds. */
  function Advice(condition: bool, text: string): (r: seq<string>)
    ensures |r| == if condition then 1 else 0
  {
    if condition then [text] else []
  }

  // The recommendation texts, in the order they are given.
  const DefinitionsAdvice: string := "Add clear definition sentences using patterns like \"X 是指...\" or \"X is defined as...\""
  const ConclusionsAdvice: string := "Add explicit conclusion markers like \"因此\" or \"therefore\" to make conclusions clear"
  const ListsAdvice: string := "Use <ul> or <ol> tags for lists instead of plain text enumeration"
  const ParagraphsAdvice: string := "Break long paragraphs (>300 characters) into smaller, more digestible chunks"
  const VagueTermsAdvice: string := "Replace vague terms (可能, 也许, maybe, perhaps) with more definitive language"
  const HyperboleAdvice: string := "Replace hyperbolic terms (颠覆, 革命性, revolutionary) with measured, factual language"
  const CitationsAdvice: string := "Add citations and references to external sources to improve verifiability and credibility"
  const SummaryAdvice: string := "Add an AI Summary section with whatIs, whyImportant, useCases, and keyTakeaways"
  const QACoverageAdvice: string := "Add Q&A coverage addressing common questions (definition, comparison, application, limitation)"
  const RhetoricalAdvice: string := "Convert rhetorical questions to declarative statements for better semantic certainty"
  const CitationMarkersAdvice: string := "Include external links, references section, or citation markers to support technical claims"

  /** The advice for each failing metric, in a fixed order. */
  function MetricAdvice(m: QualityMetrics): (r: seq<string>)
    ensures r == [] <==> m.hasDefinitions && m.hasConclusions && m.hasProperLists && m.paragraphLengthOk
                         && m.avoidsVagueTerms && m.avoidsHyperbole && m.hasCitations && m.hasAISummary
                         && m.hasQACoverage
  {
    Advice(!m.hasDefinitions, DefinitionsAdvice)
    + Advice(!m.hasConclusions, ConclusionsAdvice)
    + Advice(!m.hasProperLists, ListsAdvice)
    + Advice(!m.paragraphLengthOk, ParagraphsAdvice)
    + Advice(!m.avoidsVagueTerms, VagueTermsAdvice)
    + Advice(!m.avoidsHyperbole, HyperboleAdvice)
    + Advice(!m.hasCitations, CitationsAdvice)
    + Advice(!m.hasAISummary, SummaryAdvice)
    + Advice(!m.hasQACoverage, QACoverageAdvice)
  }

  /** The advice for the issue types that have their own. */
  function IssueAdvice(issues: seq<QualityIssue>): (r: seq<string>)
    ensures r == [] <==> !HasKind(issues, "rhetorical_question") && !HasKind(issues, "missing_citations")
  {
    Advice(HasKind(issues, "rhetorical_question"), RhetoricalAdvice)
    + Advice(HasKind(issues, "missing_citations"), CitationMarkersAdvice)
  }

  /** `generateRecommendations`: one line per failing metric in a fixed order, then one
      per issue type that needs its own advice. */
  function GenerateRecommendations(m: QualityMetrics, issues: seq<QualityIssue>): seq<string> {
    MetricAdvice(m) + IssueAdvice(issues)
  }

  // ---------------------------------------------------------------------------
  // The report

  function MetricsOf(p: Patterns, content: string, hasAISummary: bool, hasQACoverage: bool, hasCitations: bool): QualityMetrics {
    QualityMetrics(
      hasDefinitions := HasDefinitionSentences(content),
      hasConclusions := HasConclusionMarkers(content),
      hasProperLists := HasProperListStructures(content),
      paragraphLengthOk := ParagraphIssues(content) == [],
      avoidsVagueTerms := TermIssuesOf(Vague, content) == [],
      avoidsHyperbole := TermIssuesOf(Hyperbole, content) == [],
      hasAuthorInfo := true,
      hasAISummary := hasAISummary,
      hasQACoverage := hasQACoverage,
      hasCitations := hasCitations || p.hasCitations(content))
  }

  function IssuesOf(p: Patterns, content: string, hasCitations: bool): seq<QualityIssue> {
    ParagraphIssues(content) + RhetoricalIssues(p, content) + TermIssuesOf(Vague, content)
    + TermIssuesOf(Hyperbole, content) + CitationIssues(p, content, hasCitations)
  }

  function ReportOf(p: Patterns, articleId: string, content: string, hasAISummary: bool, hasQACoverage: bool,
                    hasCitations: bool): ContentQualityReport {
    var metrics := MetricsOf(p, content, hasAISummary, hasQACoverage, hasCitations);
    var issues := IssuesOf(p, content, hasCitations);
    ContentQualityReport(articleId, Clamp(RawScore(metrics, issues), 0, 100), metrics, issues,
                         GenerateRecommendations(metrics, issues))
  }

  /** `validate`: the issues of every check in order, the metrics derived from them,
      the score and the recommendations. */
  method Validate(p: Patterns, articleId: string, content: string, hasAISummary: bool, hasQACoverage: bool,
                  hasCitations: bool) returns (report: ContentQualityReport)
    ensures report == ReportOf(p, articleId, content, hasAISummary, hasQACoverage, hasCitations)
  {
    var issues: seq<QualityIssue> := [];
    var paragraphIssues := CheckParagraphLength(content);
    issues := issues + paragraphIssues;
    assert issues == paragraphIssues;
    var rhetoricalIssues := CheckRhetoricalQuestions(p, content);
    issues := issues + rhetoricalIssues;
    var vagueIssues := CheckVagueTerms(content);
    issues := issues + vagueIssues;
    var hyperboleIssues := CheckHyperbole(content);
    issues := issues + hyperboleIssues;
    var citationIssues := if hasCitations then [] else CheckCitations(p, content);
    issues := issues + citationIssues;
    assert issues == paragraphIssues + rhetoricalIssues + vagueIssues + hyperboleIssues + citationIssues;
    var metrics := QualityMetrics(
      hasDefinitions := HasDefinitionSentences(content),
      hasConclusions := HasConclusionMarkers(content),
      hasProperLists := HasProperListStructures(content),
      paragraphLengthOk := |paragraphIssues| == 0,
      avoidsVagueTerms := |vagueIssues| == 0,
      avoidsHyperbole := |hyperboleIssues| == 0,
      hasAuthorInfo := true,
      hasAISummary := hasAISummary,
      hasQACoverage := hasQACoverage,
      hasCitations := hasCitations || p.hasCitations(content));
    assert issues == IssuesOf(p, content, hasCitations);
    assert metrics == MetricsOf(p, content, hasAISummary, hasQACoverage, hasCitations);
    var overallScore := CalculateOverallScore(metrics, issues);
    var recommendations := GenerateRecommendations(metrics, issues);
    report := ContentQualityReport(articleId, overallScore, metrics, issues, recommendations);
  }

  // ---------------------------------------------------------------------------
  // Properties of the checks and of the report

  /** Every issue is a warning of type `kind`. */
  predicate WarningsOfKind(issues: seq<QualityIssue>, kind: string) {
    forall i :: 0 <= i < |issues| ==> issues[i].severity == Warning && issues[i].kind == kind
  }

  lemma WarningsOfKindAppend(a: seq<QualityIssue>, b: seq<QualityIssue>, kind: string)
    requires WarningsOfKind(a, kind) && WarningsOfKind(b, kind)
    ensures WarningsOfKind(a + b, kind)
  {
    forall i | 0 <= i < |a + b|
      ensures (a + b)[i].severity == Warning && (a + b)[i].kind == kind
    {
      if i < |a| {
        assert (a + b)[i] == a[i];
      } else {
        assert (a + b)[i] == b[i - |a|];
      }
    }
  }

  predicate AllWarnings(issues: seq<QualityIssue>) {
    forall i :: 0 <= i < |issues| ==> issues[i].severity == Warning
  }

  lemma HasKindAppend(a: seq<QualityIssue>, b: seq<QualityIssue>, kind: string)
    ensures HasKind(a + b, kind) <==> HasKind(a, kind) || HasKind(b, kind)
  {
    var ab := a + b;
    if HasKind(a, kind) {
      var i :| 0 <= i < |a| && a[i].kind == kind;
      assert ab[i] == a[i];
    }
    if HasKind(b, kind) {
      var i :| 0 <= i < |b| && b[i].kind == kind;
      assert ab[|a| + i] == b[i];
    }
    if HasKind(ab, kind) {
      var i :| 0 <= i < |ab| && ab[i].kind == kind;
      if i < |a| {
        assert a[i] == ab[i];
      } else {
        assert b[i - |a|] == ab[i];
      }
    }
  }

  /** Paragraph issues: one warning per long paragraph and no other. */
  lemma {:induction false} LongParagraphIssuesCount(ps: seq<ParagraphMatch>, n: nat)
    ensures WarningsOfKind(LongParagraphIssues(ps, n), "paragraph_length")
    ensures |LongParagraphIssues(ps, n)| == Count(ps, IsLong)
  {
    if ps != [] {
      var head := ParagraphIssueFor(ps[0], n);
      var rest := LongParagraphIssues(ps[1..], n + 1);
      LongParagraphIssuesCount(ps[1..], n + 1);
      assert LongParagraphIssues(ps, n) == head + rest;
      WarningsOfKindAppend(head, rest, "paragraph_length");
    }
  }

  /** There is no paragraph issue exactly when no paragraph is long. */
  lemma {:induction false} LongParagraphIssuesEmptyIff(ps: seq<ParagraphMatch>, n: nat)
    ensures LongParagraphIssues(ps, n) == [] <==> forall k :: 0 <= k < |ps| ==> !IsLong(ps[k])
  {
    if ps != [] {
      var tail := ps[1..];
      LongParagraphIssuesEmptyIff(tail, n + 1);
      assert LongParagraphIssues(ps, n) == ParagraphIssueFor(ps[0], n) + LongParagraphIssues(tail, n + 1);
      if forall k :: 0 <= k < |ps| ==> !IsLong(ps[k]) {
        forall k | 0 <= k < |tail|
          ensures !IsLong(tail[k])
        {
          assert tail[k] == ps[k + 1];
        }
      } else if !IsLong(ps[0]) {
        var k :| 0 <= k < |ps| && IsLong(ps[k]);
        assert tail[k - 1] == ps[k];
      }
    }
  }

  /** The issue for paragraph `p` as paragraph number `n`. */
  function ReportFor(p: ParagraphMatch, n: nat): QualityIssue {
    ParagraphIssue(n, |StripHtmlTags(p.inner)|)
  }

  lemma {:induction false} LongParagraphIssuesKept(ps: seq<ParagraphMatch>, n: nat)
    ensures LongParagraphIssues(ps, n) == NumberedKept(ps, n, IsLong, ReportFor)
  {
    if ps != [] {
      LongParagraphIssuesKept(ps[1..], n + 1);
    }
  }

  /** Each long paragraph is reported with its own number and text length, and every
      paragraph issue is such a report. */
  lemma LongParagraphIssuesNumbered(ps: seq<ParagraphMatch>, n: nat)
    ensures forall k :: 0 <= k < |ps| && IsLong(ps[k]) ==> ReportFor(ps[k], n + k) in LongParagraphIssues(ps, n)
    ensures forall x :: x in LongParagraphIssues(ps, n) ==>
              exists k :: 0 <= k < |ps| && IsLong(ps[k]) && x == ReportFor(ps[k], n + k)
  {
    LongParagraphIssuesKept(ps, n);
    NumberedKeptComplete(ps, n, IsLong, ReportFor);
    NumberedKeptSound(ps, n, IsLong, ReportFor);
  }

  /** Content without any `<p` tag has no paragraph issue. */
  lemma NoParagraphNoIssue(content: string)
    requires forall i :: 0 <= i ==> !LiteralAt(content, "<p", i, true)
    ensures ParagraphIssues(content) == []
  {
    NoParagraphWithoutOpenTag(content, 0);
  }

  lemma {:induction false} MatchIssuesKind(text: string, ms: seq<RegexMatch>)
    ensures WarningsOfKind(MatchIssues(text, ms), "rhetorical_question")
  {
    if ms != [] {
      var rest := ms[1..];
      MatchIssuesKind(text, rest);
      WarningsOfKindAppend([QuestionIssue(text, ms[0])], MatchIssues(text, rest), "rhetorical_question");
    }
  }

  lemma {:induction false} PatternIssuesKind(p: Patterns, text: string, from: nat, until: nat)
    ensures WarningsOfKind(PatternIssues(p, text, from, until), "rhetorical_question")
    decreases until
  {
    if from < until {
      var k := until - 1;
      var ms := p.questionMatches(k, text);
      PatternIssuesKind(p, text, from, k);
      MatchIssuesKind(text, ms);
      WarningsOfKindAppend(PatternIssues(p, text, from, k), MatchIssues(text, ms), "rhetorical_question");
      PatternIssuesSnoc(p, text, from, k, until);
    }
  }

  /** Rhetorical-question issues: none for Q&A content, and each is a warning. */
  lemma RhetoricalIssuesKind(p: Patterns, content: string)
    ensures WarningsOfKind(RhetoricalIssues(p, content), "rhetorical_question")
    ensures p.isQAContent(content) ==> RhetoricalIssues(p, content) == []
  {
    if !p.isQAContent(content) {
      var text := StripHtmlTags(content);
      var zh := PatternIssues(p, text, 0, ZhQuestionPatterns);
      var en := PatternIssues(p, text, ZhQuestionPatterns, QuestionPatterns);
      PatternIssuesKind(p, text, 0, ZhQuestionPatterns);
      PatternIssuesKind(p, text, ZhQuestionPatterns, QuestionPatterns);
      WarningsOfKindAppend(zh, en, "rhetorical_question");
    }
  }

  /** No term of `terms` occurs anywhere in `text`. */
  ghost predicate NoTermOccurs(text: string, terms: seq<string>, mode: Mode) {
    forall j, i: nat :: 0 <= j < |terms| ==> !TermAt(text, terms[j], i, mode)
  }

  /** No term of a list occurs exactly when none of its front occurs and its last
      term does not occur. */
  lemma NoTermOccursSnoc(text: string, terms: seq<string>, init: seq<string>, last: string, mode: Mode)
    requires terms != [] && init == terms[..|terms| - 1] && last == terms[|terms| - 1]
    ensures NoTermOccurs(text, terms, mode)
            <==> NoTermOccurs(text, init, mode) && forall i: nat :: !TermAt(text, last, i, mode)
  {
    if NoTermOccurs(text, init, mode) && forall i: nat :: !TermAt(text, last, i, mode) {
      forall j, i: nat | 0 <= j < |terms|
        ensures !TermAt(text, terms[j], i, mode)
      {
        if j < |init| {
          assert terms[j] == init[j];
        }
      }
    }
    if NoTermOccurs(text, terms, mode) {
      forall j, i: nat | 0 <= j < |init|
        ensures !TermAt(text, init[j], i, mode)
      {
        assert terms[j] == init[j];
      }
    }
  }

  /** The issues for a term list are warnings of the kind's type. */
  lemma {:induction false} TermListIssuesKind(kind: TermKind, text: string, terms: seq<string>, mode: Mode)
    requires NonEmptyTerms(terms)
    ensures WarningsOfKind(TermListIssues(kind, text, terms, mode), kind.Name())
    decreases |terms|
  {
    if terms != [] {
      var init := terms[..|terms| - 1];
      var last := terms[|terms| - 1];
      var occ := Occurrences(text, last, 0, mode);
      TermListIssuesKind(kind, text, init, mode);
      OccurrenceIssuesKind(kind, text, last, occ);
      WarningsOfKindAppend(TermListIssues(kind, text, init, mode), OccurrenceIssues(kind, text, last, occ), kind.Name());
    }
  }

  /** The issues for a term list are absent exactly when no term of the list occurs. */
  lemma {:induction false} TermListIssuesEmptyIff(kind: TermKind, text: string, terms: seq<string>, mode: Mode)
    requires NonEmptyTerms(terms)
    ensures TermListIssues(kind, text, terms, mode) == [] <==> NoTermOccurs(text, terms, mode)
    decreases |terms|
  {
    if terms != [] {
      var init := terms[..|terms| - 1];
      var last := terms[|terms| - 1];
      var occ := Occurrences(text, last, 0, mode);
      TermListIssuesEmptyIff(kind, text, init, mode);
      OccurrencesEmptyIff(text, last, 0, mode);
      NoTermOccursSnoc(text, terms, init, last, mode);
      assert |OccurrenceIssues(kind, text, last, occ)| == |occ|;
    } else {
      assert NoTermOccurs(text, terms, mode);
    }
  }

  lemma {:induction false} OccurrenceIssuesKind(kind: TermKind, text: string, term: string, occ: seq<nat>)
    ensures WarningsOfKind(OccurrenceIssues(kind, text, term, occ), kind.Name())
  {
    if occ != [] {
      var rest := occ[1..];
      OccurrenceIssuesKind(kind, text, term, rest);
      WarningsOfKindAppend([TermIssue(kind, text, term, occ[0])], OccurrenceIssues(kind, text, term, rest), kind.Name());
    }
  }

  /** Vague-term and hyperbole issues: none exactly when no Chinese term occurs in the
      stripped text and no English term occurs there as a whole word in any case. */
  lemma TermIssuesEmptyIff(kind: TermKind, content: string)
    ensures WarningsOfKind(TermIssuesOf(kind, content), kind.Name())
    ensures TermIssuesOf(kind, content) == []
            <==> NoTermOccurs(StripHtmlTags(content), ZhTerms(kind), Exact)
                 && NoTermOccurs(StripHtmlTags(content), EnTerms(kind), WholeWordAnyCase)
  {
    TermListsNonEmpty();
    var text := StripHtmlTags(content);
    var zh := TermListIssues(kind, text, ZhTerms(kind), Exact);
    var en := TermListIssues(kind, text, EnTerms(kind), WholeWordAnyCase);
    TermListIssuesKind(kind, text, ZhTerms(kind), Exact);
    TermListIssuesKind(kind, text, EnTerms(kind), WholeWordAnyCase);
    TermListIssuesEmptyIff(kind, text, ZhTerms(kind), Exact);
    TermListIssuesEmptyIff(kind, text, EnTerms(kind), WholeWordAnyCase);
    WarningsOfKindAppend(zh, en, kind.Name());
  }

  lemma {:induction false} CountSeverityAppend(a: seq<QualityIssue>, b: seq<QualityIssue>, s: Severity)
    ensures CountSeverity(a + b, s) == CountSeverity(a, s) + CountSeverity(b, s)
  {
    if a == [] {
      assert a + b == b;
    } else {
      assert (a + b)[1..] == a[1..] + b;
      CountSeverityAppend(a[1..], b, s);
    }
  }

  lemma {:induction false} CountWarnings(issues: seq<QualityIssue>)
    requires AllWarnings(issues)
    ensures CountSeverity(issues, Warning) == |issues| && CountSeverity(issues, Error) == 0
  {
    if issues != [] {
      CountWarnings(issues[1..]);
    }
  }

  /** Further issues never raise the score. */
  lemma MoreIssuesNeverRaiseScore(m: QualityMetrics, issues: seq<QualityIssue>, extra: seq<QualityIssue>)
    ensures Clamp(RawScore(m, issues + extra), 0, 100) <= Clamp(RawScore(m, issues), 0, 100)
  {
    CountSeverityAppend(issues, extra, Error);
    CountSeverityAppend(issues, extra, Warning);
  }

  lemma AllWarningsAppend(a: seq<QualityIssue>, b: seq<QualityIssue>)
    requires AllWarnings(a) && AllWarnings(b)
    ensures AllWarnings(a + b)
  {
    forall i | 0 <= i < |a + b|
      ensures (a + b)[i].severity == Warning
    {
      if i < |a| {
        assert (a + b)[i] == a[i];
      } else {
        assert (a + b)[i] == b[i - |a|];
      }
    }
  }

  lemma CitationIssuesKind(p: Patterns, content: string, hasCitations: bool)
    ensures WarningsOfKind(CitationIssues(p, content, hasCitations), "missing_citations")
    ensures CitationIssues(p, content, hasCitations) == [] <==> hasCitations || p.hasCitations(content)
  {
    if !hasCitations && !p.hasCitations(content) {
      assert CitationIssues(p, content, hasCitations) == [MissingCitations];
    }
  }

  lemma KindWarnings(issues: seq<QualityIssue>, kind: string)
    requires WarningsOfKind(issues, kind)
    ensures AllWarnings(issues)
  {
  }

  lemma AllWarningsParts(a: seq<QualityIssue>, b: seq<QualityIssue>, c: seq<QualityIssue>, d: seq<QualityIssue>,
                         e: seq<QualityIssue>)
    requires AllWarnings(a) && AllWarnings(b) && AllWarnings(c) && AllWarnings(d) && AllWarnings(e)
    ensures AllWarnings(a + b + c + d + e)
  {
    AllWarningsAppend(a, b);
    AllWarningsAppend(a + b, c);
    AllWarningsAppend(a + b + c, d);
    AllWarningsAppend(a + b + c + d, e);
  }

  /** Every issue the validator reports is a warning. */
  lemma IssuesAreWarnings(p: Patterns, content: string, hasCitations: bool)
    ensures AllWarnings(IssuesOf(p, content, hasCitations))
  {
    var a := ParagraphIssues(content);
    var b := RhetoricalIssues(p, content);
    var c := TermIssuesOf(Vague, content);
    var d := TermIssuesOf(Hyperbole, content);
    var e := CitationIssues(p, content, hasCitations);
    LongParagraphIssuesCount(ParagraphMatches(content, 0), 1);
    KindWarnings(a, "paragraph_length");
    RhetoricalIssuesKind(p, content);
    KindWarnings(b, "rhetorical_question");
    TermIssuesEmptyIff(Vague, content);
    KindWarnings(c, Vague.Name());
    TermIssuesEmptyIff(Hyperbole, content);
    KindWarnings(d, Hyperbole.Name());
    CitationIssuesKind(p, content, hasCitations);
    KindWarnings(e, "missing_citations");
    AllWarningsParts(a, b, c, d, e);
  }

  /** The citation warning is present exactly when citations were neither declared nor
      found, and a rhetorical-question warning exactly when that check found one. */
  lemma IssuesOfKinds(p: Patterns, content: string, hasCitations: bool)
    ensures HasKind(IssuesOf(p, content, hasCitations), "missing_citations")
            <==> !hasCitations && !p.hasCitations(content)
    ensures HasKind(IssuesOf(p, content, hasCitations), "rhetorical_question")
            <==> RhetoricalIssues(p, content) != []
  {
    var a := ParagraphIssues(content);
    var b := RhetoricalIssues(p, content);
    var c := TermIssuesOf(Vague, content);
    var d := TermIssuesOf(Hyperbole, content);
    var e := CitationIssues(p, content, hasCitations);
    LongParagraphIssuesCount(ParagraphMatches(content, 0), 1);
    RhetoricalIssuesKind(p, content);
    TermIssuesEmptyIff(Vague, content);
    TermIssuesEmptyIff(Hyperbole, content);
    CitationIssuesKind(p, content, hasCitations);
    KindAbsent(a, "paragraph_length", "missing_citations");
    KindAbsent(a, "paragraph_length", "rhetorical_question");
    KindAbsent(b, "rhetorical_question", "missing_citations");
    KindAbsent(c, "vague_term", "missing_citations");
    KindAbsent(c, "vague_term", "rhetorical_question");
    KindAbsent(d, "hyperbole", "missing_citations");
    KindAbsent(d, "hyperbole", "rhetorical_question");
    KindAbsent(e, "missing_citations", "rhetorical_question");
    KindsAbsent(a, b, c, d, e, "missing_citations");
    KindsAbsent(a, b, c, d, e, "rhetorical_question");
    if e != [] {
      assert e[0].kind == "missing_citations";
    }
    if b != [] {
      assert b[0].kind == "rhetorical_question";
    }
  }

  lemma KindsAbsent(a: seq<QualityIssue>, b: seq<QualityIssue>, c: seq<QualityIssue>, d: seq<QualityIssue>,
                    e: seq<QualityIssue>, kind: string)
    ensures HasKind(a + b + c + d + e, kind)
            <==> HasKind(a, kind) || HasKind(b, kind) || HasKind(c, kind) || HasKind(d, kind) || HasKind(e, kind)
  {
    HasKindAppend(a, b, kind);
    HasKindAppend(a + b, c, kind);
    HasKindAppend(a + b + c, d, kind);
    HasKindAppend(a + b + c + d, e, kind);
  }

  lemma KindAbsent(issues: seq<QualityIssue>, kind: string, other: string)
    requires WarningsOfKind(issues, kind) && kind != other
    ensures !HasKind(issues, other)
  {
  }

  /** The score: 100 less the feature deductions and two points per issue, within
      [0, 100]. */
  lemma ReportScore(p: Patterns, articleId: string, content: string, hasAISummary: bool, hasQACoverage: bool,
                    hasCitations: bool)
    ensures var r := ReportOf(p, articleId, content, hasAISummary, hasQACoverage, hasCitations);
      r.overallScore == Clamp(100 - FeaturePenalty(r.metrics) - 2 * |r.issues|, 0, 100)
  {
    IssuesAreWarnings(p, content, hasCitations);
    CountWarnings(IssuesOf(p, content, hasCitations));
  }

  /** The paragraph check finds nothing exactly when no paragraph is long. */
  lemma ParagraphIssuesEmptyIff(content: string)
    ensures var ps := ParagraphMatches(content, 0);
      ParagraphIssues(content) == [] <==> forall k :: 0 <= k < |ps| ==> !IsLong(ps[k])
  {
    LongParagraphIssuesEmptyIff(ParagraphMatches(content, 0), 1);
  }

  /** Every issue comes with advice: with any issue there is a recommendation, and
      there is none exactly when every metric holds and no rhetorical question was
      found. */
  lemma RecommendationsCoverIssues(p: Patterns, content: string, hasAISummary: bool, hasQACoverage: bool,
                                   hasCitations: bool)
    ensures var m := MetricsOf(p, content, hasAISummary, hasQACoverage, hasCitations);
      var issues := IssuesOf(p, content, hasCitations);
      (issues != [] ==> GenerateRecommendations(m, issues) != [])
      && (GenerateRecommendations(m, issues) == [] <==> MetricAdvice(m) == [] && RhetoricalIssues(p, content) == [])
  {
    IssuesOfKinds(p, content, hasCitations);
    CitationIssuesKind(p, content, hasCitations);
    var a := ParagraphIssues(content);
    var b := RhetoricalIssues(p, content);
    var c := TermIssuesOf(Vague, content);
    var d := TermIssuesOf(Hyperbole, content);
    var e := CitationIssues(p, content, hasCitations);
    assert IssuesOf(p, content, hasCitations) == a + b + c + d + e;
  }

  /** Declared citations suppress the citation warning and satisfy the metric. */
  lemma DeclaredCitations(p: Patterns, content: string, hasAISummary: bool, hasQACoverage: bool)
    ensures MetricsOf(p, content, hasAISummary, hasQACoverage, true).hasCitations
    ensures !HasKind(IssuesOf(p, content, true), "missing_citations")
  {
    IssuesOfKinds(p, content, true);
  }
}
