/** Plain-text views of HTML and the literal searches the validators run over them:
    tag stripping, the JavaScript `substring` window used for issue locations, and
    the leftmost, non-overlapping occurrences that a global regular expression built
    from an escaped literal finds (optionally between word boundaries, ignoring ASCII
    case). */
module HtmlText {
  import opened Util

  /** The first index at or after `i` holding `c`, or `|s|` when there is none. */
  function IndexOf(s: string, c: char, i: nat): (j: nat)
    requires i <= |s|
    ensures i <= j <= |s|
    ensures j < |s| ==> s[j] == c
    ensures forall k :: i <= k < j ==> s[k] != c
    decreases |s| - i
  {
    if i == |s| || s[i] == c then i else IndexOf(s, c, i + 1)
  }

  /** `html.replace(/<[^>]*>/g, '')`: every '<' that some later '>' closes is removed
      together with everything up to that first '>'. */
  function RemoveTags(s: string): (r: string)
    ensures |r| <= |s|
    decreases |s|
  {
    if s == [] then []
    else if s[0] == '<' && IndexOf(s, '>', 1) < |s| then RemoveTags(s[IndexOf(s, '>', 1) + 1..])
    else [s[0]] + RemoveTags(s[1..])
  }

  /** `stripHtmlTags`: the tags removed, then surrounding white space trimmed. */
  function StripHtmlTags(html: string): (text: string)
    ensures |text| <= |html|
  {
    Trim(RemoveTags(html))
  }

  /** Text with no '<' that a later '>' would close, i.e. without a tag. */
  predicate TagFree(s: string) {
    forall i, j :: 0 <= i < j < |s| && s[i] == '<' ==> s[j] != '>'
  }

  /** `String.prototype.substring`: both ends clamped to the string, swapped when
      given in decreasing order. */
  function Substring(s: string, a: int, b: int): (r: string)
    ensures |r| <= |s|
    ensures a <= b ==> |r| <= b - a
  {
    var lo := Clamp(a, 0, |s|);
    var hi := Clamp(b, 0, |s|);
    if lo <= hi then s[lo..hi] else s[hi..lo]
  }

  /** `getLocationContext`: up to 50 characters on each side of a match, between
      ellipses. */
  function LocationContext(text: string, position: nat): (r: string)
    ensures |r| <= |text| + 6
    ensures |r| >= 6 && r[..3] == "..." && r[|r| - 3..] == "..."
  {
    var start := if position - 50 > 0 then position - 50 else 0;
    var end := if |text| < position + 50 then |text| else position + 50;
    "..." + Substring(text, start, end) + "..."
  }

  /** Characters equal under the `i` flag for an ASCII pattern character. */
  predicate FoldEq(c: char, t: char, ignoreCase: bool) {
    if ignoreCase then LowerChar(c) == LowerChar(t) else c == t
  }

  predicate LiteralAt(text: string, lit: string, i: nat, ignoreCase: bool) {
    i + |lit| <= |text| && forall k :: 0 <= k < |lit| ==> FoldEq(text[i + k], lit[k], ignoreCase)
  }

  /** `\b` at position `p`: exactly one of the characters around it is a word character. */
  predicate Boundary(text: string, p: nat) {
    var before := 0 < p <= |text| && IsWordChar(text[p - 1]);
    var after := p < |text| && IsWordChar(text[p]);
    before != after
  }

  /** The flags of a regular expression built from an escaped literal: `\b…\b` around
      it, and the `i` flag. */
  datatype Mode = Mode(wordBounded: bool, ignoreCase: bool)

  /** The escaped literal alone, matched exactly. */
  const Exact: Mode := Mode(false, false)

  /** `\b…\b` with the `i` flag. */
  const WholeWordAnyCase: Mode := Mode(true, true)

  /** The escaped literal matches at `i` under the flags of `mode`. */
  predicate TermAt(text: string, term: string, i: nat, mode: Mode) {
    LiteralAt(text, term, i, mode.ignoreCase)
    && (mode.wordBounded ==> Boundary(text, i) && Boundary(text, i + |term|))
  }

  /** `exec` with `lastIndex = from`: the leftmost match at or after `from`. */
  function NextOccurrence(text: string, term: string, from: nat, mode: Mode): (r: Option<nat>)
    ensures r.Some? ==> from <= r.value && r.value + |term| <= |text|
    decreases |text| + 1 - from
  {
    if from + |term| > |text| then None
    else if TermAt(text, term, from, mode) then Some(from)
    else NextOccurrence(text, term, from + 1, mode)
  }

  /** The search finds a match, the leftmost one, and reports none only when there
      is none. */
  lemma {:induction false} NextOccurrenceLeftmost(text: string, term: string, from: nat, mode: Mode)
    ensures var r := NextOccurrence(text, term, from, mode);
      (r.Some? ==> TermAt(text, term, r.value, mode)
                   && forall i :: from <= i < r.value ==> !TermAt(text, term, i, mode))
      && (r.None? <==> forall i :: from <= i ==> !TermAt(text, term, i, mode))
    decreases |text| + 1 - from
  {
    if from + |term| <= |text| && !TermAt(text, term, from, mode) {
      NextOccurrenceLeftmost(text, term, from + 1, mode);
    }
  }

  /** Where a global search resumes after a match at `i`: the match's end, or one
      further when the match is empty. */
  function ResumeAt(i: nat, term: string): (next: nat)
    ensures i + |term| <= next && i < next
  {
    if term == [] then i + 1 else i + |term|
  }

  /** The start of every match a global search finds from `from`: the leftmost match,
      then the search resumes after it. */
  function Occurrences(text: string, term: string, from: nat, mode: Mode): (r: seq<nat>)
    decreases |text| + 1 - from
  {
    match NextOccurrence(text, term, from, mode)
    case None => []
    case Some(i) => [i] + Occurrences(text, term, ResumeAt(i, term), mode)
  }

  /** One step of the global search: the leftmost match, then the matches after its
      end `next`. */
  lemma OccurrencesStep(text: string, term: string, from: nat, mode: Mode, i: nat, next: nat)
    requires term != [] && NextOccurrence(text, term, from, mode) == Some(i) && next == i + |term|
    ensures Occurrences(text, term, from, mode) == [i] + Occurrences(text, term, next, mode)
  {
  }

  /** Every position in `r` is a match at or after `from`. */
  predicate AllMatches(text: string, term: string, r: seq<nat>, from: nat, mode: Mode) {
    forall k :: 0 <= k < |r| ==> from <= r[k] && TermAt(text, term, r[k], mode)
  }

  /** Every position the search reports is a match at or after `from`. */
  lemma {:induction false} OccurrencesAreMatches(text: string, term: string, from: nat, mode: Mode)
    ensures AllMatches(text, term, Occurrences(text, term, from, mode), from, mode)
    decreases |text| + 1 - from
  {
    NextOccurrenceLeftmost(text, term, from, mode);
    var n := NextOccurrence(text, term, from, mode);
    if n.Some? {
      var next := ResumeAt(n.value, term);
      var rest := Occurrences(text, term, next, mode);
      OccurrencesAreMatches(text, term, next, mode);
      var r := Occurrences(text, term, from, mode);
      assert r == [n.value] + rest;
      forall k | 0 <= k < |r|
        ensures from <= r[k] && TermAt(text, term, r[k], mode)
      {
        if k > 0 {
          assert r[k] == rest[k - 1];
        }
      }
    }
  }

  /** The search reports nothing exactly when there is no match at or after `from`. */
  lemma OccurrencesEmptyIff(text: string, term: string, from: nat, mode: Mode)
    ensures Occurrences(text, term, from, mode) == []
            <==> forall i :: from <= i ==> !TermAt(text, term, i, mode)
  {
    NextOccurrenceLeftmost(text, term, from, mode);
  }

  /** Successive starts at least `len` apart: matches of that length do not overlap. */
  predicate Disjoint(r: seq<nat>, len: nat) {
    forall k :: 0 <= k < |r| - 1 ==> r[k] + len <= r[k + 1]
  }

  /** Successive matches do not overlap. */
  lemma {:induction false} OccurrencesDisjoint(text: string, term: string, from: nat, mode: Mode)
    ensures Disjoint(Occurrences(text, term, from, mode), |term|)
    decreases |text| + 1 - from
  {
    var n := NextOccurrence(text, term, from, mode);
    if n.Some? {
      var next := ResumeAt(n.value, term);
      var rest := Occurrences(text, term, next, mode);
      OccurrencesDisjoint(text, term, next, mode);
      var r := Occurrences(text, term, from, mode);
      assert r == [n.value] + rest;
      forall k | 0 <= k < |r| - 1
        ensures r[k] + |term| <= r[k + 1]
      {
        if k > 0 {
          assert r[k] == rest[k - 1] && r[k + 1] == rest[k];
        } else {
          assert r[1] == rest[0];
        }
      }
    }
  }

  lemma {:induction false} RemoveTagsTagFree(s: string)
    ensures TagFree(RemoveTags(s))
    ensures forall c :: c in RemoveTags(s) ==> c in s
    decreases |s|
  {
    if s != [] {
      if s[0] == '<' && IndexOf(s, '>', 1) < |s| {
        RemoveTagsTagFree(s[IndexOf(s, '>', 1) + 1..]);
      } else {
        RemoveTagsTagFree(s[1..]);
        var rest := RemoveTags(s[1..]);
        var r := [s[0]] + rest;
        if s[0] == '<' {
          assert forall c :: c in rest ==> c in s[1..];
          assert '>' !in s[1..] by {
            assert forall k :: 0 <= k < |s[1..]| ==> s[1..][k] == s[k + 1];
          }
        }
        forall i, j | 0 <= i < j < |r| && r[i] == '<'
          ensures r[j] != '>'
        {
          if i > 0 {
            assert r[i] == rest[i - 1] && r[j] == rest[j - 1];
          } else {
            assert r[j] in rest;
          }
        }
      }
    }
  }

  lemma {:induction false} RemoveTagsOfTagFree(s: string)
    requires TagFree(s)
    ensures RemoveTags(s) == s
    decreases |s|
  {
    if s != [] {
      if s[0] == '<' {
        assert forall k :: 1 <= k < |s| ==> s[k] != '>';
      }
      assert TagFree(s[1..]) by {
        forall i, j | 0 <= i < j < |s[1..]| && s[1..][i] == '<'
          ensures s[1..][j] != '>'
        {
          assert s[i + 1] == '<';
        }
      }
      RemoveTagsOfTagFree(s[1..]);
      assert s == [s[0]] + s[1..];
    }
  }

  lemma SliceTagFree(s: string, a: nat, b: nat)
    requires TagFree(s) && a <= b <= |s|
    ensures TagFree(s[a..b])
  {
    forall i, j | 0 <= i < j < |s[a..b]| && s[a..b][i] == '<'
      ensures s[a..b][j] != '>'
    {
      assert s[a..b][i] == s[a + i] && s[a..b][j] == s[a + j];
    }
  }

  lemma TrimTagFree(s: string)
    requires TagFree(s)
    ensures TagFree(Trim(s))
  {
    var front := TrimStart(s);
    SliceTagFree(s, |s| - |front|, |s|);
    SliceTagFree(front, 0, |Trim(s)|);
  }

  /** Stripped text carries no tag, and stripping it again changes nothing. */
  lemma StripHtmlTagsIdempotent(html: string)
    ensures TagFree(StripHtmlTags(html))
    ensures StripHtmlTags(StripHtmlTags(html)) == StripHtmlTags(html)
  {
    var removed := RemoveTags(html);
    RemoveTagsTagFree(html);
    TrimTagFree(removed);
    RemoveTagsOfTagFree(Trim(removed));
    TrimIdempotent(removed);
  }

  // ---------------------------------------------------------------------------
  // The paragraph pattern `/<p[^>]*>(.*?)<\/p>/gi`

  /** One match: where it starts, the whole match, the captured inner HTML, and the
      index just past it, where the next search resumes. */
  datatype ParagraphMatch = ParagraphMatch(index: nat, whole: string, inner: string, end: nat)

  /** The lazy `(.*?)<\/p>` from `k`: the first closing tag reached before any line
      terminator. */
  function CloseParagraph(s: string, k: nat): (r: Option<nat>)
    requires k <= |s|
    ensures r.Some? ==> k <= r.value && r.value + 4 <= |s| && LiteralAt(s, "</p>", r.value, true)
    ensures r.Some? ==> forall j :: k <= j < r.value ==> !IsLineTerminator(s[j])
    decreases |s| - k
  {
    if LiteralAt(s, "</p>", k, true) then Some(k)
    else if k == |s| || IsLineTerminator(s[k]) then None
    else CloseParagraph(s, k + 1)
  }

  /** The match starting exactly at `i`, if any: `<p` in either case, everything up to
      the first '>', then the shortest single-line run up to `</p>`. */
  function ParagraphAt(s: string, i: nat): (r: Option<ParagraphMatch>)
    requires i <= |s|
    ensures r.Some? ==> r.value.index == i && i < r.value.end <= |s|
    ensures r.Some? ==> r.value.whole == s[i..r.value.end]
  {
    if !LiteralAt(s, "<p", i, true) then None
    else
      var g := IndexOf(s, '>', i + 2);
      if g == |s| then None
      else match CloseParagraph(s, g + 1)
        case None => None
        case Some(e) => Some(ParagraphMatch(i, s[i..e + 4], s[g + 1..e], e + 4))
  }

  /** `exec` from `lastIndex = from`: the leftmost match at or after `from`. */
  function NextParagraph(s: string, from: nat): (r: Option<ParagraphMatch>)
    requires from <= |s|
    ensures r.Some? ==> from <= r.value.index < r.value.end <= |s|
    decreases |s| - from
  {
    if ParagraphAt(s, from).Some? then ParagraphAt(s, from)
    else if from == |s| then None
    else NextParagraph(s, from + 1)
  }

  /** Every match a global search from `from` finds, in order. */
  function ParagraphMatches(s: string, from: nat): (r: seq<ParagraphMatch>)
    requires from <= |s|
    ensures forall k :: 0 <= k < |r| ==> from <= r[k].index < r[k].end <= |s|
    decreases |s| - from
  {
    match NextParagraph(s, from)
    case None => []
    case Some(p) => [p] + ParagraphMatches(s, p.end)
  }

  /** Text without any `<p` (in either case) has no paragraph. */
  lemma {:induction false} NoParagraphWithoutOpenTag(s: string, from: nat)
    requires from <= |s|
    requires forall i :: from <= i ==> !LiteralAt(s, "<p", i, true)
    ensures ParagraphMatches(s, from) == []
    decreases |s| - from
  {
    if from < |s| {
      NoParagraphWithoutOpenTag(s, from + 1);
      NextParagraphNone(s, from);
    } else {
      NextParagraphNone(s, from);
    }
  }

  lemma {:induction false} NextParagraphNone(s: string, from: nat)
    requires from <= |s|
    requires forall i :: from <= i ==> !LiteralAt(s, "<p", i, true)
    ensures NextParagraph(s, from) == None
    decreases |s| - from
  {
    if from < |s| {
      NextParagraphNone(s, from + 1);
    }
  }
}
