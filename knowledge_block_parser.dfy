/** The knowledge-block parser: it splits article HTML into definition, explanation,
    comparison, example and conclusion blocks, in that order, numbers them `kb-1`,
    `kb-2`, ... with a counter it resets on every parse, and scores each block's
    extractability. The regular expressions that find definitions, tables, comparisons,
    code, examples and conclusions are parameters (`BlockPatterns`); the paragraph
    pattern, tag stripping, the surrounding-context scan, titles and scores are spelled
    out. */
module KnowledgeBlocks {
  import opened Util
  import opened GeoTypes
  import opened HtmlText

  /** One match of a pattern: where it starts, the whole match and its two groups
      (empty for patterns without groups). */
  datatype GroupMatch = GroupMatch(index: nat, whole: string, first: string, second: string)

  /** One global regular expression: every match it finds in a text, left to right. */
  type Matcher = string -> seq<GroupMatch>

  /** The searches the model does not spell out: the lists of definition (8 in the
      source), comparison (5), example (5) and conclusion (9) patterns, and the table
      and code-block patterns. */
  datatype BlockPatterns = BlockPatterns(
    definitions: seq<Matcher>,
    table: Matcher,
    comparisons: seq<Matcher>,
    code: Matcher,
    examples: seq<Matcher>,
    conclusions: seq<Matcher>)

  /** A block before it is numbered. */
  datatype Draft = Draft(kind: BlockType, title: string, content: string, extractability: real)

  // ---------------------------------------------------------------------------
  // Extractability

  function TypeScore(kind: BlockType): real {
    match kind
    case Definition => 0.9
    case Conclusion => 0.85
    case Comparison => 0.8
    case Example => 0.7
    case Explanation => 0.6
  }

  /** The score of a block type after the length adjustment; lengths from 301 to
      500 keep the type's score. */
  function LengthAdjusted(t: real, n: nat): real {
    if n < 10 then t * 0.5
    else if n > 500 then t * 0.7
    else if 20 <= n <= 300 then t * 1.0
    else if 10 <= n < 20 then t * 0.9
    else t
  }

  /** The structure adjustments: lists, tables and code raise the score. */
  function Structured(score: real, lists: bool, tables: bool, code: bool): real {
    var withLists := if lists then score * 1.1 else score;
    var withTables := if tables then withLists * 1.15 else withLists;
    if code then withTables * 1.05 else withTables
  }

  predicate HasList(content: string) {
    Contains(content, "<ul>") || Contains(content, "<ol>")
  }

  predicate HasTable(content: string) {
    Contains(content, "<table>")
  }

  predicate HasCode(content: string) {
    Contains(content, "<code>") || Contains(content, "<pre>")
  }

  /** The score before it is clipped to [0, 1]. */
  function RawScore(content: string, kind: BlockType): real {
    Structured(LengthAdjusted(TypeScore(kind), |StripHtmlTags(content)|), HasList(content), HasTable(content), HasCode(content))
  }

  /** `calculateExtractability`: `Math.min(1, Math.max(0, score))`. */
  function Extractability(content: string, kind: BlockType): (r: real)
    ensures 0.0 <= r <= 1.0
  {
    var score := RawScore(content, kind);
    if score > 1.0 then 1.0 else if score < 0.0 then 0.0 else score
  }

  /** Every factor is positive, so the lower bound never clips; content of a good
      length without lists, tables or code scores exactly its type's score. */
  lemma ExtractabilityShape(content: string, kind: BlockType)
    ensures 0.0 < Extractability(content, kind)
    ensures 20 <= |StripHtmlTags(content)| <= 300 && !HasList(content) && !HasTable(content) && !HasCode(content)
            ==> Extractability(content, kind) == TypeScore(kind)
  {
    var t := TypeScore(kind);
    var score := LengthAdjusted(t, |StripHtmlTags(content)|);
    assert 0.0 < score;
    var raw := Structured(score, HasList(content), HasTable(content), HasCode(content));
    assert 0.0 < raw;
    assert RawScore(content, kind) == raw;
  }

  /** A draft scored by `calculateExtractability` on its content and kind. */
  function Scored(kind: BlockType, title: string, content: string): (d: Draft)
    ensures d.kind == kind && d.title == title && d.content == content
    ensures 0.0 < d.extractability <= 1.0
  {
    ExtractabilityShape(content, kind);
    Draft(kind, title, content, Extractability(content, kind))
  }

  // ---------------------------------------------------------------------------
  // Numbering

  function BlockId(n: nat): string {
    "kb-" + NatToString(n)
  }

  /** The block a draft becomes when the counter reaches `n`. */
  function BlockOf(d: Draft, n: nat): KnowledgeBlock {
    KnowledgeBlock(BlockId(n), d.kind, d.title, d.content, [], d.extractability)
  }

  /** The drafts numbered on from a counter at `n`: block `k` is draft `k` with the id
      `kb-(n + k + 1)`. */
  function Numbered(ds: seq<Draft>, n: nat): (r: seq<KnowledgeBlock>)
    ensures |r| == |ds|
  {
    seq(|ds|, k requires 0 <= k < |ds| => BlockOf(ds[k], n + k + 1))
  }

  /** Numbering a concatenation numbers the second part on from where the first ends. */
  lemma NumberedAppend(a: seq<Draft>, b: seq<Draft>, n: nat)
    ensures Numbered(a + b, n) == Numbered(a, n) + Numbered(b, n + |a|)
  {
    var left := Numbered(a + b, n);
    var right := Numbered(a, n) + Numbered(b, n + |a|);
    forall k | 0 <= k < |left|
      ensures left[k] == right[k]
    {
      if k >= |a| {
        assert (a + b)[k] == b[k - |a|];
      }
    }
  }

  lemma NumberedSnoc(ds: seq<Draft>, d: Draft, n: nat)
    ensures Numbered(ds + [d], n) == Numbered(ds, n) + [BlockOf(d, n + |ds| + 1)]
  {
    NumberedAppend(ds, [d], n);
  }

  /** One more paragraph match moves from the matches ahead to those seen. */
  lemma ParagraphStep(html: string, lastIndex: nat, seen: seq<ParagraphMatch>, all: seq<ParagraphMatch>, m: ParagraphMatch)
    requires lastIndex <= |html|
    requires seen + ParagraphMatches(html, lastIndex) == all
    requires NextParagraph(html, lastIndex) == Some(m)
    ensures m.end <= |html|
    ensures (seen + [m]) + ParagraphMatches(html, m.end) == all
  {
    var rest := ParagraphMatches(html, m.end);
    assert ParagraphMatches(html, lastIndex) == [m] + rest;
    AppendAssoc(seen, [m], rest);
  }

  /** Adding the next block after `blocks + Numbered(ds, n)` numbers one more draft. */
  lemma PushedNumbered(blocks: seq<KnowledgeBlock>, ds: seq<Draft>, d: Draft, n: nat)
    ensures blocks + Numbered(ds, n) + [BlockOf(d, n + |ds| + 1)] == blocks + Numbered(ds + [d], n)
  {
    NumberedSnoc(ds, d, n);
    AppendAssoc(blocks, Numbered(ds, n), [BlockOf(d, n + |ds| + 1)]);
  }

  /** Appending the blocks of `b` after those of `a` numbers `a + b`. */
  lemma AppendedNumbered(blocks: seq<KnowledgeBlock>, a: seq<Draft>, b: seq<Draft>, n: nat)
    ensures blocks + Numbered(a, n) + Numbered(b, n + |a|) == blocks + Numbered(a + b, n)
  {
    NumberedAppend(a, b, n);
    AppendAssoc(blocks, Numbered(a, n), Numbered(b, n + |a|));
  }

  lemma PatternDraftsStep(patterns: seq<Matcher>, k: nat, html: string, draft: GroupMatch -> Option<Draft>)
    requires k < |patterns|
    ensures PatternDrafts(patterns[..k + 1], html, draft)
         == PatternDrafts(patterns[..k], html, draft) + Collected(patterns[k](html), draft)
  {
    assert patterns[..k + 1][..k] == patterns[..k];
  }

  lemma CollectedStep<T, U>(s: seq<T>, i: nat, f: T -> Option<U>)
    requires i < |s|
    ensures Collected(s[..i + 1], f) == Collected(s[..i], f) + (match f(s[i]) case Some(u) => [u] case None => [])
  {
    assert s[..i + 1][..i] == s[..i];
  }

  /** Five parts numbered one after the other from a reset counter are their
      concatenation numbered from it. */
  lemma NumberedParts(b1: seq<KnowledgeBlock>, b2: seq<KnowledgeBlock>, b3: seq<KnowledgeBlock>,
                      b4: seq<KnowledgeBlock>, b5: seq<KnowledgeBlock>,
                      a: seq<Draft>, b: seq<Draft>, c: seq<Draft>, d: seq<Draft>, e: seq<Draft>,
                      n2: nat, n3: nat, n4: nat, n5: nat)
    requires b1 == Numbered(a, 0) && n2 == |a|
    requires b2 == Numbered(b, n2) && n3 == n2 + |b|
    requires b3 == Numbered(c, n3) && n4 == n3 + |c|
    requires b4 == Numbered(d, n4) && n5 == n4 + |d|
    requires b5 == Numbered(e, n5)
    ensures b1 + b2 + b3 + b4 + b5 == Numbered(a + b + c + d + e, 0)
  {
    NumberedAppend(a, b, 0);
    NumberedAppend(a + b, c, 0);
    NumberedAppend(a + b + c, d, 0);
    NumberedAppend(a + b + c + d, e, 0);
  }

  /** Numbered from a reset counter, block `k` has the id `kb-(k + 1)`, so no two
      blocks share an id. */
  lemma BlockIdsDistinct(ds: seq<Draft>)
    ensures forall k :: 0 <= k < |ds| ==> Numbered(ds, 0)[k].id == BlockId(k + 1)
    ensures forall j, k :: 0 <= j < k < |ds| ==> Numbered(ds, 0)[j].id != Numbered(ds, 0)[k].id
  {
    forall j, k | 0 <= j < k < |ds|
      ensures Numbered(ds, 0)[j].id != Numbered(ds, 0)[k].id
    {
      if NatToString(j + 1) == NatToString(k + 1) {
        NatToStringInjective(j + 1, k + 1);
      }
      assert BlockId(j + 1)[3..] == NatToString(j + 1);
      assert BlockId(k + 1)[3..] == NatToString(k + 1);
    }
  }

  // ---------------------------------------------------------------------------
  // The drafts of each kind

  /** The drafts of the matches of each pattern in turn. */
  function PatternDrafts(patterns: seq<Matcher>, html: string, draft: GroupMatch -> Option<Draft>): seq<Draft> {
    if patterns == [] then []
    else PatternDrafts(patterns[..|patterns| - 1], html, draft) + Collected(patterns[|patterns| - 1](html), draft)
  }

  /** A definition match is kept when its term and its definition, tags stripped, are
      non-empty and the definition is longer than 5 characters. */
  function DefinitionDraft(m: GroupMatch): Option<Draft> {
    var term := Trim(StripHtmlTags(m.first));
    var definition := Trim(StripHtmlTags(m.second));
    if term != "" && definition != "" && |definition| > 5 then Some(Scored(Definition, "Definition: " + term, m.whole))
    else None
  }

  function DefinitionDrafts(p: BlockPatterns, html: string): seq<Draft> {
    PatternDrafts(p.definitions, html, DefinitionDraft)
  }

  /** Words separated by white space (`\s+`), starting at `i`, ignoring case. */
  predicate PhraseAt(text: string, words: seq<string>, i: nat)
    decreases |words|
  {
    if words == [] then true
    else
      LiteralAt(text, words[0], i, true)
      && (|words| == 1
          || exists k :: i + |words[0]| < k <= |text| && AllSpaces(text, i + |words[0]|, k) && PhraseAt(text, words[1..], k))
  }

  predicate AllSpaces(text: string, a: nat, b: nat)
    requires a <= b <= |text|
  {
    forall j :: a <= j < b ==> IsSpace(text[j])
  }

  predicate PhraseIn(text: string, words: seq<string>) {
    exists i :: 0 <= i <= |text| && PhraseAt(text, words, i)
  }

  /** `isDefinitionSentence`. */
  predicate IsDefinitionSentence(text: string) {
    Contains(text, "\U{662F}\U{6307}") || Contains(text, "\U{6307}\U{7684}\U{662F}") || Contains(text, "\U{5B9A}\U{4E49}\U{4E3A}")
    || PhraseIn(text, ["is", "defined", "as"]) || PhraseIn(text, ["refers", "to"])
  }

  /** `isConclusionSentence`: the trimmed text starts with a conclusion marker. */
  predicate IsConclusionSentence(text: string) {
    var t := Trim(text);
    StartsWith(t, "\U{56E0}\U{6B64}") || StartsWith(t, "\U{7ED3}\U{8BBA}\U{662F}")
    || StartsWith(t, "\U{7EFC}\U{4E0A}\U{6240}\U{8FF0}") || StartsWith(t, "\U{603B}\U{7ED3}\U{6765}\U{8BF4}")
    || StartsWith(t, "\U{603B}\U{4E4B}")
    || PhraseAt(t, ["therefore"], 0) || PhraseAt(t, ["in", "conclusion"], 0) || PhraseAt(t, ["to", "summarize"], 0)
  }

  /** A paragraph becomes an explanation when its text is neither a definition nor a
      conclusion and is longer than 20 and at most 300 characters. */
  function ExplanationDraft(m: ParagraphMatch): Option<Draft> {
    var text := StripHtmlTags(m.whole);
    if IsDefinitionSentence(text) || IsConclusionSentence(text) then None
    else if |text| > 20 && |text| <= 300 then Some(Scored(Explanation, ExtractTitle(text, 50), m.whole))
    else None
  }

  function ExplanationDrafts(html: string): seq<Draft> {
    Collected(ParagraphMatches(html, 0), ExplanationDraft)
  }

  function TableDraft(m: GroupMatch): Option<Draft> {
    Some(Scored(Comparison, "Comparison Table", m.whole))
  }

  function ComparisonDraft(html: string, m: GroupMatch): Option<Draft> {
    var item1 := Trim(StripHtmlTags(m.first));
    var item2 := Trim(StripHtmlTags(m.second));
    if item1 != "" && item2 != "" then
      Some(Scored(Comparison, "Comparison: " + item1 + " vs " + item2, SurroundingContext(html, m.index)))
    else None
  }

  function ComparisonRule(html: string): GroupMatch -> Option<Draft> {
    m => ComparisonDraft(html, m)
  }

  function ComparisonDrafts(p: BlockPatterns, html: string): seq<Draft> {
    Collected(p.table(html), TableDraft) + PatternDrafts(p.comparisons, html, ComparisonRule(html))
  }

  function CodeDraft(m: GroupMatch): Option<Draft> {
    Some(Scored(Example, "Code Example", m.whole))
  }

  function ExampleDraft(html: string, m: GroupMatch): Option<Draft> {
    Some(Scored(Example, "Example", SurroundingContext(html, m.index)))
  }

  function ExampleRule(html: string): GroupMatch -> Option<Draft> {
    m => ExampleDraft(html, m)
  }

  function ExampleDrafts(p: BlockPatterns, html: string): seq<Draft> {
    Collected(p.code(html), CodeDraft) + PatternDrafts(p.examples, html, ExampleRule(html))
  }

  /** A conclusion is kept when its context has more than 20 characters of text. */
  function ConclusionDraft(html: string, m: GroupMatch): Option<Draft> {
    var context := SurroundingContext(html, m.index);
    if |StripHtmlTags(context)| > 20 then Some(Scored(Conclusion, "Conclusion", context)) else None
  }

  function ConclusionRule(html: string): GroupMatch -> Option<Draft> {
    m => ConclusionDraft(html, m)
  }

  function ConclusionDrafts(p: BlockPatterns, html: string): seq<Draft> {
    PatternDrafts(p.conclusions, html, ConclusionRule(html))
  }

  /** Every draft of a parse, in the order `parse` concatenates them. */
  function AllDrafts(p: BlockPatterns, html: string): seq<Draft> {
    DefinitionDrafts(p, html) + ExplanationDrafts(html) + ComparisonDrafts(p, html)
    + ExampleDrafts(p, html) + ConclusionDrafts(p, html)
  }

  // ---------------------------------------------------------------------------
  // Titles

  /** The characters that end a sentence: `。.!?！？`. */
  predicate IsSentenceEnd(c: char) {
    c == '\U{3002}' || c == '.' || c == '!' || c == '?' || c == '\U{FF01}' || c == '\U{FF1F}'
  }

  /** The first sentence end at or after `i`, or the length. */
  function SentenceEnd(text: string, i: nat): (k: nat)
    requires i <= |text|
    ensures i <= k <= |text|
    ensures k < |text| ==> IsSentenceEnd(text[k])
    ensures forall j :: i <= j < k ==> !IsSentenceEnd(text[j])
    decreases |text| - i
  {
    if i == |text| || IsSentenceEnd(text[i]) then i else SentenceEnd(text, i + 1)
  }

  /** `/^[^。.!?！？]+[。.!?！？]/`: at least one other character, then the first
      sentence end. */
  function FirstSentence(text: string): Option<string> {
    if text == [] || IsSentenceEnd(text[0]) then None
    else
      var k := SentenceEnd(text, 0);
      if k == |text| then None else Some(text[..k + 1])
  }

  /** `s.substring(0, max) + '...'` for text over `max` characters. */
  function Shorten(s: string, maxLength: nat): string {
    if |s| > maxLength then s[..maxLength] + "..." else s
  }

  /** What a title is cut from: the trimmed first sentence, or the whole text when
      there is none. */
  function TitleSource(text: string): string {
    match FirstSentence(text)
    case Some(sentence) => Trim(sentence)
    case None => text
  }

  /** `extractTitle`: the source kept whole when it fits, otherwise its first
      `maxLength` characters followed by `...`. */
  function ExtractTitle(text: string, maxLength: nat): (r: string)
    ensures |TitleSource(text)| <= maxLength ==> r == TitleSource(text)
    ensures |TitleSource(text)| > maxLength ==> r == TitleSource(text)[..maxLength] + "..."
    ensures |r| <= maxLength + 3
    ensures FirstSentence(text).None? && |text| <= maxLength ==> r == text
    ensures FirstSentence(text).Some? ==> |r| <= |FirstSentence(text).value| + 3
  {
    Shorten(TitleSource(text), maxLength)
  }

  // ---------------------------------------------------------------------------
  // The surrounding context of a match

  const ContextSize: nat := 500

  /** The test of the backward scan: does the text contain `<p`, `<div` or `<section`? */
  predicate OpensBlock(t: string) {
    Contains(t, "<p") || Contains(t, "<div") || Contains(t, "<section")
  }

  /** The backward scan tests one character at a time against patterns of two or more
      characters, so it never stops at a tag. */
  lemma OneCharNeverOpensBlock(t: string)
    requires |t| <= 1
    ensures !OpensBlock(t)
  {
    ContainsLonger(t, "<p");
    ContainsLonger(t, "<div");
    ContainsLonger(t, "<section");
  }

  /** Where the context starts: `ContextSize + 1` characters before the match, or the
      beginning of the text. */
  function ContextStart(matchIndex: nat): nat {
    if matchIndex > ContextSize + 1 then matchIndex - (ContextSize + 1) else 0
  }

  /** The forward scan from `j`: it stops at a '>', at the end of the text, or once it
      is `ContextSize + 1` characters past the match. */
  function ScanEnd(html: string, matchIndex: nat, j: nat): (r: nat)
    requires matchIndex <= j <= matchIndex + ContextSize + 1
    ensures j <= r <= matchIndex + ContextSize + 1
    ensures j <= |html| ==> r <= |html|
    ensures r < |html| && r < matchIndex + ContextSize + 1 ==> html[r] == '>'
    ensures forall k :: j <= k < r ==> k < |html| && html[k] != '>'
    decreases matchIndex + ContextSize + 1 - j
  {
    if j >= |html| || html[j] == '>' || j == matchIndex + ContextSize + 1 then j
    else ScanEnd(html, matchIndex, j + 1)
  }

  /** The length of the closing tag `</p>`, `</div>` or `</section>` at `i`, or 0. */
  function ClosingTagLength(html: string, i: nat): nat {
    if LiteralAt(html, "</p>", i, false) then 4
    else if LiteralAt(html, "</div>", i, false) then 6
    else if LiteralAt(html, "</section>", i, false) then 10
    else 0
  }

  /** `/<\/(p|div|section)>/` searched from `from`: the first closing tag. */
  function FirstClosingTag(html: string, from: nat): (r: Option<nat>)
    ensures r.Some? ==> from <= r.value && ClosingTagLength(html, r.value) > 0
    ensures r.Some? ==> forall i :: from <= i < r.value ==> ClosingTagLength(html, i) == 0
    ensures r.None? ==> forall i :: from <= i ==> ClosingTagLength(html, i) == 0
    decreases |html| - from
  {
    if from >= |html| then None
    else if ClosingTagLength(html, from) > 0 then Some(from)
    else FirstClosingTag(html, from + 1)
  }

  /** Where the context ends: past the first closing tag after the forward scan, or
      where the scan stopped. */
  function ContextEnd(html: string, matchIndex: nat): nat {
    var end := ScanEnd(html, matchIndex, matchIndex);
    match FirstClosingTag(html, end)
    case Some(i) => i + ClosingTagLength(html, i)
    case None => end
  }

  function SurroundingContext(html: string, matchIndex: nat): string {
    Substring(html, ContextStart(matchIndex), ContextEnd(html, matchIndex))
  }

  /** The context runs from at most `ContextSize + 1` characters before the match to
      past it, within the text. */
  lemma SurroundingContextBounds(html: string, matchIndex: nat)
    requires matchIndex <= |html|
    ensures ContextStart(matchIndex) <= matchIndex <= ContextEnd(html, matchIndex) <= |html|
    ensures matchIndex - ContextStart(matchIndex) <= ContextSize + 1
    ensures SurroundingContext(html, matchIndex) == html[ContextStart(matchIndex)..ContextEnd(html, matchIndex)]
  {
    match FirstClosingTag(html, ScanEnd(html, matchIndex, matchIndex))
    case None =>
    case Some(i) =>
      assert LiteralAt(html, "</p>", i, false) || LiteralAt(html, "</div>", i, false)
          || LiteralAt(html, "</section>", i, false);
  }

  predicate IsClosingTag(t: string) {
    t == "</p>" || t == "</div>" || t == "</section>"
  }

  /** A closing tag found by the search is one of the three tags, within the text. */
  lemma ClosingTagText(html: string, i: nat)
    requires ClosingTagLength(html, i) > 0
    ensures i + ClosingTagLength(html, i) <= |html|
    ensures IsClosingTag(html[i..i + ClosingTagLength(html, i)])
  {
    var n := ClosingTagLength(html, i);
    var lit := if n == 4 then "</p>" else if n == 6 then "</div>" else "</section>";
    assert LiteralAt(html, lit, i, false);
    assert html[i..i + n] == lit by {
      forall k | 0 <= k < n
        ensures html[i..i + n][k] == lit[k]
      {
        assert FoldEq(html[i + k], lit[k], false);
      }
    }
  }

  /** When a closing tag follows the forward scan, the context ends with it. */
  lemma SurroundingContextClosed(html: string, matchIndex: nat)
    requires matchIndex <= |html|
    requires FirstClosingTag(html, ScanEnd(html, matchIndex, matchIndex)).Some?
    ensures exists t :: IsClosingTag(t) && EndsWith(SurroundingContext(html, matchIndex), t)
  {
    SurroundingContextBounds(html, matchIndex);
    var i := FirstClosingTag(html, ScanEnd(html, matchIndex, matchIndex)).value;
    var n := ClosingTagLength(html, i);
    ClosingTagText(html, i);
    var start := ContextStart(matchIndex);
    var e := ContextEnd(html, matchIndex);
    assert e == i + n;
    SliceEndsWith(html, start, i, e);
    assert IsClosingTag(html[i..e]) && EndsWith(SurroundingContext(html, matchIndex), html[i..e]);
  }

  /** A slice ends with any slice that shares its end. */
  lemma SliceEndsWith(s: string, a: nat, b: nat, e: nat)
    requires a <= b <= e <= |s|
    ensures EndsWith(s[a..e], s[b..e])
  {
    var c := s[a..e];
    assert c[|c| - (e - b)..] == s[b..e];
  }

  /** The backward scan of `extractSurroundingContext`: it steps back one character at
      a time while the character before does not open a block. */
  method ScanBack(html: string, matchIndex: nat) returns (start: nat)
    ensures start == ContextStart(matchIndex)
  {
    forall t: string | |t| <= 1
      ensures !OpensBlock(t)
    {
      OneCharNeverOpensBlock(t);
    }
    start := matchIndex;
    while start > 0 && !OpensBlock(Substring(html, start - 1, start))
      invariant start <= matchIndex && matchIndex - start <= ContextSize
      decreases start
    {
      start := start - 1;
      if matchIndex - start > ContextSize {
        return;
      }
    }
  }

  /** The forward scan of `extractSurroundingContext`: it steps forward to the next '>'. */
  method ScanForward(html: string, matchIndex: nat) returns (end: nat)
    ensures end == ScanEnd(html, matchIndex, matchIndex)
  {
    end := matchIndex;
    while end < |html| && html[end] != '>'
      invariant matchIndex <= end < matchIndex + ContextSize + 1
      invariant ScanEnd(html, matchIndex, end) == ScanEnd(html, matchIndex, matchIndex)
      decreases matchIndex + ContextSize + 1 - end
    {
      end := end + 1;
      if end - matchIndex > ContextSize {
        return;
      }
    }
  }

  /** `extractSurroundingContext` with its default context size. */
  method ExtractSurroundingContext(html: string, matchIndex: nat) returns (context: string)
    ensures context == SurroundingContext(html, matchIndex)
  {
    var start := ScanBack(html, matchIndex);
    var end := ScanForward(html, matchIndex);
    var closing := FirstClosingTag(html, end);
    if closing.Some? {
      end := closing.value + ClosingTagLength(html, closing.value);
    }
    context := Substring(html, start, end);
  }

  // ---------------------------------------------------------------------------
  // What the drafts promise

  /** Every definition block has a non-empty term, a definition of more than 5
      characters, and the title `Definition: ` followed by the term. */
  lemma DefinitionDraftsSound(p: BlockPatterns, html: string, d: Draft)
    requires d in DefinitionDrafts(p, html)
    ensures d.kind == Definition
    ensures exists k, m :: 0 <= k < |p.definitions| && m in p.definitions[k](html) && DefinitionDraft(m) == Some(d)
    ensures exists term :: term != "" && d.title == "Definition: " + term
  {
    PatternDraftsSound(p.definitions, html, DefinitionDraft, d);
    var k, m :| 0 <= k < |p.definitions| && m in p.definitions[k](html) && DefinitionDraft(m) == Some(d);
    assert Trim(StripHtmlTags(m.first)) != "";
  }

  lemma {:induction false} PatternDraftsSound(patterns: seq<Matcher>, html: string, draft: GroupMatch -> Option<Draft>, d: Draft)
    requires d in PatternDrafts(patterns, html, draft)
    ensures exists k, m :: 0 <= k < |patterns| && m in patterns[k](html) && draft(m) == Some(d)
  {
    if patterns != [] {
      var init := patterns[..|patterns| - 1];
      if d in PatternDrafts(init, html, draft) {
        PatternDraftsSound(init, html, draft, d);
        var k, m :| 0 <= k < |init| && m in init[k](html) && draft(m) == Some(d);
        assert patterns[k] == init[k];
      } else {
        CollectedIff(patterns[|patterns| - 1](html), draft, d);
      }
    }
  }

  /** An explanation block comes only from a paragraph whose text is not a definition
      or conclusion sentence and has more than 20 and at most 300 characters; its
      content is the whole paragraph and its title is drawn from the text. */
  /** The paragraph `m` passes the explanation tests and `d` is drawn from it. */
  predicate ExplanationKept(m: ParagraphMatch, d: Draft) {
    var text := StripHtmlTags(m.whole);
    !IsDefinitionSentence(text) && !IsConclusionSentence(text) && 20 < |text| <= 300
    && d.content == m.whole && d.title == ExtractTitle(text, 50)
  }

  lemma ExplanationDraftsSound(html: string, d: Draft)
    requires d in ExplanationDrafts(html)
    ensures d.kind == Explanation
    ensures exists m :: m in ParagraphMatches(html, 0) && ExplanationKept(m, d)
  {
    CollectedIff(ParagraphMatches(html, 0), ExplanationDraft, d);
  }

  /** Conclusion blocks carry more than 20 characters of text. */
  lemma ConclusionDraftsSound(p: BlockPatterns, html: string, d: Draft)
    requires d in ConclusionDrafts(p, html)
    ensures d.kind == Conclusion && d.title == "Conclusion" && |StripHtmlTags(d.content)| > 20
  {
    PatternDraftsSound(p.conclusions, html, ConclusionRule(html), d);
  }

  /** The type order of blocks: definitions, explanations, comparisons, examples,
      conclusions. */
  function Rank(kind: BlockType): nat {
    match kind
    case Definition => 0
    case Explanation => 1
    case Comparison => 2
    case Example => 3
    case Conclusion => 4
  }

  predicate AllOfKind(ds: seq<Draft>, kind: BlockType) {
    forall d :: d in ds ==> d.kind == kind
  }

  lemma {:induction false} PatternDraftsKind(patterns: seq<Matcher>, html: string, draft: GroupMatch -> Option<Draft>, kind: BlockType)
    requires forall m :: draft(m).Some? ==> draft(m).value.kind == kind
    ensures AllOfKind(PatternDrafts(patterns, html, draft), kind)
  {
    if patterns != [] {
      PatternDraftsKind(patterns[..|patterns| - 1], html, draft, kind);
      CollectedKind(patterns[|patterns| - 1](html), draft, kind);
    }
  }

  lemma CollectedKind<T>(ms: seq<T>, draft: T -> Option<Draft>, kind: BlockType)
    requires forall m :: draft(m).Some? ==> draft(m).value.kind == kind
    ensures AllOfKind(Collected(ms, draft), kind)
  {
    forall d | d in Collected(ms, draft)
      ensures d.kind == kind
    {
      CollectedIff(ms, draft, d);
    }
  }

  /** Each part of a parse holds blocks of its own kind only. */
  lemma DraftKinds(p: BlockPatterns, html: string)
    ensures AllOfKind(DefinitionDrafts(p, html), Definition)
    ensures AllOfKind(ExplanationDrafts(html), Explanation)
    ensures AllOfKind(ComparisonDrafts(p, html), Comparison)
    ensures AllOfKind(ExampleDrafts(p, html), Example)
    ensures AllOfKind(ConclusionDrafts(p, html), Conclusion)
  {
    PatternDraftsKind(p.definitions, html, DefinitionDraft, Definition);
    CollectedKind(ParagraphMatches(html, 0), ExplanationDraft, Explanation);
    CollectedKind(p.table(html), TableDraft, Comparison);
    PatternDraftsKind(p.comparisons, html, ComparisonRule(html), Comparison);
    CollectedKind(p.code(html), CodeDraft, Example);
    PatternDraftsKind(p.examples, html, ExampleRule(html), Example);
    PatternDraftsKind(p.conclusions, html, ConclusionRule(html), Conclusion);
  }

  /** Drafts in type order, given as parts of one kind each in order. */
  predicate InTypeOrder(ds: seq<Draft>) {
    forall j, k :: 0 <= j < k < |ds| ==> Rank(ds[j].kind) <= Rank(ds[k].kind)
  }

  lemma AppendInTypeOrder(a: seq<Draft>, b: seq<Draft>, kind: BlockType)
    requires InTypeOrder(a) && AllOfKind(b, kind)
    requires forall d :: d in a ==> Rank(d.kind) <= Rank(kind)
    ensures InTypeOrder(a + b)
  {
    var c := a + b;
    forall j, k | 0 <= j < k < |c|
      ensures Rank(c[j].kind) <= Rank(c[k].kind)
    {
      if k < |a| {
        assert c[j] == a[j] && c[k] == a[k];
      } else if j < |a| {
        assert c[j] in a && c[k] == b[k - |a|] && c[k] in b;
      } else {
        assert c[j] == b[j - |a|] && c[k] == b[k - |a|];
        assert c[j] in b && c[k] in b;
      }
    }
  }

  lemma FivePartsInTypeOrder(a: seq<Draft>, b: seq<Draft>, c: seq<Draft>, d: seq<Draft>, e: seq<Draft>)
    requires AllOfKind(a, Definition) && AllOfKind(b, Explanation) && AllOfKind(c, Comparison)
    requires AllOfKind(d, Example) && AllOfKind(e, Conclusion)
    ensures InTypeOrder(a + b + c + d + e)
  {
    assert [] + a == a;
    AppendInTypeOrder([], a, Definition);
    AppendInTypeOrder(a, b, Explanation);
    AppendInTypeOrder(a + b, c, Comparison);
    AppendInTypeOrder(a + b + c, d, Example);
    AppendInTypeOrder(a + b + c + d, e, Conclusion);
  }

  /** A parse lists all definitions, then explanations, comparisons, examples and
      conclusions. */
  lemma AllDraftsInTypeOrder(p: BlockPatterns, html: string)
    ensures InTypeOrder(AllDrafts(p, html))
  {
    DraftKinds(p, html);
    FivePartsInTypeOrder(DefinitionDrafts(p, html), ExplanationDrafts(html), ComparisonDrafts(p, html),
                         ExampleDrafts(p, html), ConclusionDrafts(p, html));
  }

  /** Patterns that find nothing in empty text. */
  predicate SilentOnEmpty(p: BlockPatterns) {
    NoneOnEmpty(p.definitions) && p.table("") == [] && NoneOnEmpty(p.comparisons)
    && p.code("") == [] && NoneOnEmpty(p.examples) && NoneOnEmpty(p.conclusions)
  }

  predicate NoneOnEmpty(patterns: seq<Matcher>) {
    forall k :: 0 <= k < |patterns| ==> patterns[k]("") == []
  }

  lemma {:induction false} PatternDraftsOfNothing(patterns: seq<Matcher>, draft: GroupMatch -> Option<Draft>)
    requires NoneOnEmpty(patterns)
    ensures PatternDrafts(patterns, "", draft) == []
  {
    if patterns != [] {
      PatternDraftsOfNothing(patterns[..|patterns| - 1], draft);
      assert patterns[|patterns| - 1]("") == [];
    }
  }

  /** Empty content yields no block. */
  lemma EmptyContentNoBlocks(p: BlockPatterns)
    requires SilentOnEmpty(p)
    ensures AllDrafts(p, "") == []
  {
    NoParagraphWithoutOpenTag("", 0);
    PatternDraftsOfNothing(p.definitions, DefinitionDraft);
    PatternDraftsOfNothing(p.comparisons, ComparisonRule(""));
    PatternDraftsOfNothing(p.examples, ExampleRule(""));
    PatternDraftsOfNothing(p.conclusions, ConclusionRule(""));
  }

  // ---------------------------------------------------------------------------
  // The parser

  class KnowledgeBlockParser {
    var blockIdCounter: nat

    constructor()
      ensures blockIdCounter == 0
    {
      blockIdCounter := 0;
    }

    /** `generateBlockId`: the pre-incremented counter. */
    method GenerateBlockId() returns (id: string)
      modifies this
      ensures blockIdCounter == old(blockIdCounter) + 1
      ensures id == BlockId(blockIdCounter)
    {
      blockIdCounter := blockIdCounter + 1;
      id := "kb-" + NatToString(blockIdCounter);
    }

    /** Adds the block for `d` with the next id. */
    method Push(blocks: seq<KnowledgeBlock>, d: Draft) returns (blocks': seq<KnowledgeBlock>)
      modifies this
      ensures blockIdCounter == old(blockIdCounter) + 1
      ensures blocks' == blocks + [BlockOf(d, blockIdCounter)]
    {
      var id := GenerateBlockId();
      blocks' := blocks + [KnowledgeBlock(id, d.kind, d.title, d.content, [], d.extractability)];
    }

    /** Adds the block for `x` when `draft` accepts it, numbered after those of the
        elements seen before it. */
    method PushAccepted<T>(blocks: seq<KnowledgeBlock>, ghost prefix: seq<KnowledgeBlock>, ghost seen: seq<T>, x: T,
                           draft: T -> Option<Draft>, ghost n: nat)
      returns (blocks': seq<KnowledgeBlock>)
      requires blockIdCounter == n + |Collected(seen, draft)|
      requires blocks == prefix + Numbered(Collected(seen, draft), n)
      modifies this
      ensures blockIdCounter == n + |Collected(seen + [x], draft)|
      ensures blocks' == prefix + Numbered(Collected(seen + [x], draft), n)
    {
      ghost var done := Collected(seen, draft);
      CollectedAppend(seen, [x], draft);
      var d := draft(x);
      if d.Some? {
        blocks' := Push(blocks, d.value);
        assert Collected([x], draft) == [d.value];
        PushedNumbered(prefix, done, d.value, n);
      } else {
        blocks' := blocks;
        assert Collected([x], draft) == [];
        assert done + [] == done;
      }
    }

    /** The `exec` loop of one pattern: a block for each match `draft` accepts. */
    method PushMatches(blocks: seq<KnowledgeBlock>, ms: seq<GroupMatch>, draft: GroupMatch -> Option<Draft>)
      returns (blocks': seq<KnowledgeBlock>)
      modifies this
      ensures blockIdCounter == old(blockIdCounter) + |Collected(ms, draft)|
      ensures blocks' == blocks + Numbered(Collected(ms, draft), old(blockIdCounter))
    {
      ghost var n := blockIdCounter;
      blocks' := blocks;
      var i := 0;
      while i < |ms|
        invariant 0 <= i <= |ms|
        invariant blockIdCounter == n + |Collected(ms[..i], draft)|
        invariant blocks' == blocks + Numbered(Collected(ms[..i], draft), n)
      {
        assert ms[..i + 1] == ms[..i] + [ms[i]];
        blocks' := PushAccepted(blocks', blocks, ms[..i], ms[i], draft, n);
        i := i + 1;
      }
      assert ms[..i] == ms;
    }

    /** The loop over a list of patterns. */
    method PushPatterns(blocks: seq<KnowledgeBlock>, patterns: seq<Matcher>, html: string,
                        draft: GroupMatch -> Option<Draft>)
      returns (blocks': seq<KnowledgeBlock>)
      modifies this
      ensures blockIdCounter == old(blockIdCounter) + |PatternDrafts(patterns, html, draft)|
      ensures blocks' == blocks + Numbered(PatternDrafts(patterns, html, draft), old(blockIdCounter))
    {
      ghost var n := blockIdCounter;
      blocks' := blocks;
      var k := 0;
      while k < |patterns|
        invariant 0 <= k <= |patterns|
        invariant blockIdCounter == n + |PatternDrafts(patterns[..k], html, draft)|
        invariant blocks' == blocks + Numbered(PatternDrafts(patterns[..k], html, draft), n)
      {
        PatternDraftsStep(patterns, k, html, draft);
        AppendedNumbered(blocks, PatternDrafts(patterns[..k], html, draft), Collected(patterns[k](html), draft), n);
        blocks' := PushMatches(blocks', patterns[k](html), draft);
        k := k + 1;
      }
      assert patterns[..k] == patterns;
    }

    /** The blocks of a list of patterns, numbered on from the counter. */
    method ExtractByPatterns(patterns: seq<Matcher>, html: string, draft: GroupMatch -> Option<Draft>)
      returns (blocks: seq<KnowledgeBlock>)
      modifies this
      ensures blockIdCounter == old(blockIdCounter) + |PatternDrafts(patterns, html, draft)|
      ensures blocks == Numbered(PatternDrafts(patterns, html, draft), old(blockIdCounter))
    {
      blocks := PushPatterns([], patterns, html, draft);
      assert [] + Numbered(PatternDrafts(patterns, html, draft), old(blockIdCounter))
          == Numbered(PatternDrafts(patterns, html, draft), old(blockIdCounter));
    }

    /** The blocks of one search, then of a list of patterns, numbered on from the
        counter. */
    method ExtractBySearchAndPatterns(ms: seq<GroupMatch>, first: GroupMatch -> Option<Draft>,
                                      patterns: seq<Matcher>, html: string, draft: GroupMatch -> Option<Draft>)
      returns (blocks: seq<KnowledgeBlock>)
      modifies this
      ensures blockIdCounter == old(blockIdCounter) + |Collected(ms, first) + PatternDrafts(patterns, html, draft)|
      ensures blocks == Numbered(Collected(ms, first) + PatternDrafts(patterns, html, draft), old(blockIdCounter))
    {
      ghost var n := blockIdCounter;
      ghost var a := Collected(ms, first);
      ghost var b := PatternDrafts(patterns, html, draft);
      blocks := PushMatches([], ms, first);
      blocks := PushPatterns(blocks, patterns, html, draft);
      AppendedNumbered([], a, b, n);
      assert [] + Numbered(a + b, n) == Numbered(a + b, n);
    }

    /** `extractDefinitions`. */
    method ExtractDefinitions(p: BlockPatterns, html: string) returns (blocks: seq<KnowledgeBlock>)
      modifies this
      ensures blockIdCounter == old(blockIdCounter) + |DefinitionDrafts(p, html)|
      ensures blocks == Numbered(DefinitionDrafts(p, html), old(blockIdCounter))
    {
      blocks := ExtractByPatterns(p.definitions, html, DefinitionDraft);
    }

    /** `extractExplanations`: the `exec` loop of the paragraph pattern. */
    method ExtractExplanations(html: string) returns (blocks: seq<KnowledgeBlock>)
      modifies this
      ensures blockIdCounter == old(blockIdCounter) + |ExplanationDrafts(html)|
      ensures blocks == Numbered(ExplanationDrafts(html), old(blockIdCounter))
    {
      ghost var n := blockIdCounter;
      ghost var all := ParagraphMatches(html, 0);
      blocks := [];
      var lastIndex: nat := 0;
      ghost var seen: seq<ParagraphMatch> := [];
      while true
        invariant lastIndex <= |html|
        invariant seen + ParagraphMatches(html, lastIndex) == all
        invariant blockIdCounter == n + |Collected(seen, ExplanationDraft)|
        invariant blocks == Numbered(Collected(seen, ExplanationDraft), n)
        decreases |html| - lastIndex
      {
        var m := NextParagraph(html, lastIndex);
        if m.None? {
          break;
        }
        ParagraphStep(html, lastIndex, seen, all, m.value);
        // definitions and conclusions are skipped, as are paragraphs too short or too long
        blocks := PushAccepted(blocks, [], seen, m.value, ExplanationDraft, n);
        seen := seen + [m.value];
        lastIndex := m.value.end;
      }
      assert ParagraphMatches(html, lastIndex) == [];
      assert seen == all;
    }

    /** `extractComparisons`: tables, then the comparison phrases. */
    method ExtractComparisons(p: BlockPatterns, html: string) returns (blocks: seq<KnowledgeBlock>)
      modifies this
      ensures blockIdCounter == old(blockIdCounter) + |ComparisonDrafts(p, html)|
      ensures blocks == Numbered(ComparisonDrafts(p, html), old(blockIdCounter))
    {
      blocks := ExtractBySearchAndPatterns(p.table(html), TableDraft, p.comparisons, html, ComparisonRule(html));
    }

    /** `extractExamples`: code blocks, then the example phrases. */
    method ExtractExamples(p: BlockPatterns, html: string) returns (blocks: seq<KnowledgeBlock>)
      modifies this
      ensures blockIdCounter == old(blockIdCounter) + |ExampleDrafts(p, html)|
      ensures blocks == Numbered(ExampleDrafts(p, html), old(blockIdCounter))
    {
      blocks := ExtractBySearchAndPatterns(p.code(html), CodeDraft, p.examples, html, ExampleRule(html));
    }

    /** `extractConclusions`. */
    method ExtractConclusions(p: BlockPatterns, html: string) returns (blocks: seq<KnowledgeBlock>)
      modifies this
      ensures blockIdCounter == old(blockIdCounter) + |ConclusionDrafts(p, html)|
      ensures blocks == Numbered(ConclusionDrafts(p, html), old(blockIdCounter))
    {
      blocks := ExtractByPatterns(p.conclusions, html, ConclusionRule(html));
    }

    /** `parse`: the counter is reset, then the five kinds are extracted in order. */
    method Parse(p: BlockPatterns, html: string) returns (blocks: seq<KnowledgeBlock>)
      modifies this
      ensures blocks == Numbered(AllDrafts(p, html), 0)
      ensures blockIdCounter == |blocks|
    {
      blockIdCounter := 0;
      var definitions := ExtractDefinitions(p, html);
      ghost var n2 := blockIdCounter;
      var explanations := ExtractExplanations(html);
      ghost var n3 := blockIdCounter;
      var comparisons := ExtractComparisons(p, html);
      ghost var n4 := blockIdCounter;
      var examples := ExtractExamples(p, html);
      ghost var n5 := blockIdCounter;
      var conclusions := ExtractConclusions(p, html);
      blocks := definitions + explanations + comparisons + examples + conclusions;
      NumberedParts(definitions, explanations, comparisons, examples, conclusions,
                    DefinitionDrafts(p, html), ExplanationDrafts(html), ComparisonDrafts(p, html),
                    ExampleDrafts(p, html), ConclusionDrafts(p, html), n2, n3, n4, n5);
    }
  }

  /** `parseKnowledgeBlocks`: a fresh parser's parse. */
  method ParseKnowledgeBlocks(p: BlockPatterns, html: string) returns (blocks: seq<KnowledgeBlock>)
    ensures blocks == Numbered(AllDrafts(p, html), 0)
  {
    var parser := new KnowledgeBlockParser();
    blocks := parser.Parse(p, html);
  }
}
