/** Text helpers shared by the two article-creation scripts: slugs built by chained
    regular-expression replacements, and the `## ` sections of an outline. */
module ArticleText {
  import opened Util

  // ---------------------------------------------------------------------------
  // Slugs

  /** `s.replace(/[class]+/g, '-')`: every maximal run of characters in `inClass`
      becomes one '-'; `inRun` says the character before `s` ended such a run. */
  function ReplaceRuns(s: string, inClass: char -> bool, inRun: bool): (r: string)
    ensures forall k :: 0 <= k < |r| ==> r[k] == '-' || (r[k] in s && !inClass(r[k]))
    ensures |r| <= |s|
  {
    if s == [] then []
    else if inClass(s[0]) then
      (if inRun then [] else ['-']) + ReplaceRuns(s[1..], inClass, true)
    else [s[0]] + ReplaceRuns(s[1..], inClass, false)
  }

  /** No two '-' are adjacent. */
  predicate NoDoubleDash(s: string) {
    forall k :: 0 <= k < |s| - 1 ==> !(s[k] == '-' && s[k + 1] == '-')
  }

  /** When '-' itself belongs to the class, the runs leave no "--" behind, and after a
      run the output does not start with '-'. */
  lemma {:induction false} ReplaceRunsNoDoubleDash(s: string, inClass: char -> bool, inRun: bool)
    requires inClass('-')
    ensures NoDoubleDash(ReplaceRuns(s, inClass, inRun))
    ensures inRun ==> ReplaceRuns(s, inClass, inRun) == [] || ReplaceRuns(s, inClass, inRun)[0] != '-'
  {
    if s != [] {
      var rest := ReplaceRuns(s[1..], inClass, inClass(s[0]));
      ReplaceRunsNoDoubleDash(s[1..], inClass, inClass(s[0]));
      if inClass(s[0]) {
        if !inRun {
          var r := ['-'] + rest;
          forall k | 0 <= k < |r| - 1 ensures !(r[k] == '-' && r[k + 1] == '-') {
            if k > 0 {
              assert r[k] == rest[k - 1] && r[k + 1] == rest[k];
            }
          }
        }
      } else {
        var r := [s[0]] + rest;
        forall k | 0 <= k < |r| - 1 ensures !(r[k] == '-' && r[k + 1] == '-') {
          if k > 0 {
            assert r[k] == rest[k - 1] && r[k + 1] == rest[k];
          }
        }
      }
    }
  }

  /** `s.replace(/^-|-$/g, '')`: one leading and one trailing '-' removed. */
  function StripDash(s: string): (r: string)
    ensures |r| <= |s|
    ensures forall c :: c in r ==> c in s
    ensures NoDoubleDash(s) ==> r == [] || r[0] != '-'
    ensures NoDoubleDash(s) ==> NoDoubleDash(r)
  {
    var a := if |s| > 0 && s[0] == '-' then s[1..] else s;
    assert NoDoubleDash(s) ==> NoDoubleDash(a) by {
      if NoDoubleDash(s) && |s| > 0 && s[0] == '-' {
        assert forall k :: 0 <= k < |a| ==> a[k] == s[k + 1];
      }
    }
    if |a| > 0 && a[|a| - 1] == '-' then a[..|a| - 1] else a
  }

  /** `.substring(0, 50)`. */
  const MaxSlugLength := 50

  /** The common tail of every slug chain: strip an outer '-' and keep 50 characters. */
  function FinishSlug(s: string): (r: string)
    ensures |r| <= MaxSlugLength
    ensures forall c :: c in r ==> c in s
    ensures NoDoubleDash(s) ==> r == [] || r[0] != '-'
  {
    var t := StripDash(s);
    var r := Take(t, MaxSlugLength);
    assert forall c :: c in r ==> c in t;
    r
  }

  predicate IsCjk(c: char) { '一' <= c <= '龥' }

  predicate IsSlugChar(c: char) { IsAsciiLower(c) || IsDigit(c) || c == '-' }

  /** `lower.replace(/[^keep]+/g, '-').replace(/^-|-$/g, '').substring(0, 50)`: the
      chain shared by the English slug and the article id; `replaced` is the class
      `[^keep]`, to which '-' belongs. */
  function SlugOf(title: string, replaced: char -> bool): (r: string)
    requires replaced('-')
    ensures |r| <= MaxSlugLength
    ensures forall k :: 0 <= k < |r| ==> r[k] == '-' || !replaced(r[k])
    ensures r == [] || r[0] != '-'
  {
    var runs := ReplaceRuns(ToLower(title), replaced, false);
    ReplaceRunsNoDoubleDash(ToLower(title), replaced, false);
    var r := FinishSlug(runs);
    assert forall k :: 0 <= k < |r| ==> r[k] in runs;
    r
  }

  // ---------------------------------------------------------------------------
  // Outline sections

  /** The first index at or after `i` that is not white space, or `|s|`. */
  function SkipSpaces(s: string, i: nat): (e: nat)
    requires i <= |s|
    ensures i <= e <= |s|
    ensures forall k :: i <= k < e ==> IsSpace(s[k])
    ensures e < |s| ==> !IsSpace(s[e])
    decreases |s| - i
  {
    if i == |s| || !IsSpace(s[i]) then i else SkipSpaces(s, i + 1)
  }

  /** `line.match(/^##\s+(.+)$/)`: "##", at least one white-space character, then at
      least one character up to the end with no line terminator. The greedy `\s+` stops
      at the first other character, or one before the end on an all-space rest. */
  predicate IsSectionLine(line: string) {
    && |line| >= 4
    && line[0] == '#' && line[1] == '#'
    && IsSpace(line[2])
    && var e := SkipSpaces(line, 3);
       var g := if e < |line| then e else |line| - 1;
       forall k :: g <= k < |line| ==> !IsLineTerminator(line[k])
  }

  /** The trimmed group of a section line: the line after "##", trimmed. */
  function SectionOf(line: string): (r: Option<string>)
    ensures r.Some? <==> IsSectionLine(line)
    ensures r.Some? ==> r.value == Trim(line[2..])
  {
    if IsSectionLine(line) then Some(Trim(line[2..])) else None
  }

  /** `extractSections` as a specification: the sections of the outline's lines. */
  function Sections(outline: string): seq<string> {
    Collected(Split(outline, '\n'), SectionOf)
  }

  /** `extractSections`: the loop over the outline's lines. */
  method ExtractSections(outline: string) returns (sections: seq<string>)
    ensures sections == Sections(outline)
  {
    var lines := Split(outline, '\n');
    sections := PushCollected([], lines, SectionOf);
    assert [] + Collected(lines, SectionOf) == Collected(lines, SectionOf);
  }

  /** Every section is the trimmed rest of some "##"-line of the outline, so it is
      itself trimmed; and a `###` line is never a section. */
  lemma SectionsAreHeadings(outline: string)
    ensures forall x :: x in Sections(outline) ==>
      exists line :: line in Split(outline, '\n') && IsSectionLine(line) && x == Trim(line[2..])
    ensures forall x :: x in Sections(outline) ==> Trim(x) == x
    ensures |Sections(outline)| <= |Split(outline, '\n')|
  {
    forall x | x in Sections(outline)
      ensures exists line :: line in Split(outline, '\n') && IsSectionLine(line) && x == Trim(line[2..])
      ensures Trim(x) == x
    {
      CollectedIff(Split(outline, '\n'), SectionOf, x);
      var line :| line in Split(outline, '\n') && SectionOf(line) == Some(x);
      TrimIdempotent(line[2..]);
    }
    CollectedIff(Split(outline, '\n'), SectionOf, "");
  }

  /** A sub-heading line ("###...") and a line with "##" not followed by white space
      are ignored. */
  lemma SubheadingIgnored(line: string)
    requires |line| >= 3 && line[0] == '#' && line[1] == '#' && line[2] == '#'
    ensures SectionOf(line) == None
  {
  }

  /** A heading line "## T" with a non-blank title and no line terminator is a section,
      namely the title trimmed. */
  lemma PlainHeadingIsSection(title: string)
    requires title != [] && !IsSpace(title[0])
    requires forall k :: 0 <= k < |title| ==> !IsLineTerminator(title[k])
    ensures SectionOf("## " + title) == Some(Trim(" " + title))
  {
    var line := "## " + title;
    assert line[2] == ' ' && line[3] == title[0];
    assert SkipSpaces(line, 3) == 3;
    assert line[2..] == " " + title;
    forall k | 3 <= k < |line| ensures !IsLineTerminator(line[k]) {
      assert line[k] == title[k - 3];
    }
  }
}
