/** The terminology dictionary: lookup of an entry by canonical name, term or alias,
    canonicalisation, translations with their fallbacks, the alias and translation
    consistency checks over article text, the comparison of definitions after
    normalisation, and the structural validation of a dictionary read from JSON.
    The manager only reads its dictionary, so every operation takes it as a value. */
module Terminology {
  import opened Util
  import opened GeoTypes
  import opened HtmlText

  datatype Dictionary = Dictionary(version: string, lastUpdated: string, entries: seq<TerminologyEntry>)

  // ---------------------------------------------------------------------------
  // Lookup

  /** The form a query is compared in: lower-cased, then trimmed. */
  function Query(term: string): string {
    Trim(ToLower(term))
  }

  /** An entry answers a query when its canonical name, its term or one of its
      aliases, lower-cased, equals the query. The entry's own strings are not trimmed. */
  predicate EntryMatches(e: TerminologyEntry, q: string) {
    ToLower(e.canonicalName) == q || ToLower(e.term) == q || exists a :: a in e.aliases && ToLower(a) == q
  }

  /** `Array.prototype.find` over the entries: the index of the first entry that
      answers the query. */
  function FindIndex(entries: seq<TerminologyEntry>, q: string): (r: Option<nat>)
    ensures r.Some? ==> r.value < |entries| && EntryMatches(entries[r.value], q)
    ensures r.Some? ==> forall j :: 0 <= j < r.value ==> !EntryMatches(entries[j], q)
    ensures r.None? <==> forall j :: 0 <= j < |entries| ==> !EntryMatches(entries[j], q)
  {
    if entries == [] then None
    else if EntryMatches(entries[0], q) then Some(0)
    else match FindIndex(entries[1..], q)
      case None => None
      case Some(k) => Some(k + 1)
  }

  /** `findTerm`: the first entry, in dictionary order, that answers the normalised
      query; nothing when no entry does. */
  function FindTerm(d: Dictionary, term: string): (r: Option<TerminologyEntry>)
    ensures r.Some? ==> r.value in d.entries && EntryMatches(r.value, Query(term))
    ensures r.None? <==> forall e :: e in d.entries ==> !EntryMatches(e, Query(term))
  {
    match FindIndex(d.entries, Query(term))
    case None => None
    case Some(k) => Some(d.entries[k])
  }

  /** The entry found is the first one, in dictionary order, that answers the query. */
  lemma FindTermFirst(d: Dictionary, term: string)
    requires FindTerm(d, term).Some?
    ensures exists k :: 0 <= k < |d.entries| && d.entries[k] == FindTerm(d, term).value
                        && forall j :: 0 <= j < k ==> !EntryMatches(d.entries[j], Query(term))
  {
    var q := Query(term);
    var i := FindIndex(d.entries, q);
    assert i.Some?;
    var k := i.value;
    assert d.entries[k] == FindTerm(d, term).value;
    assert forall j :: 0 <= j < k ==> !EntryMatches(d.entries[j], q);
  }

  /** Normalising a query a second time changes nothing, so looking up the normalised
      form of a term finds what the term itself finds. */
  lemma FindTermByQuery(d: Dictionary, term: string)
    ensures Query(Query(term)) == Query(term)
    ensures FindTerm(d, Query(term)) == FindTerm(d, term)
  {
    var l := ToLower(term);
    var t := Trim(l);
    TrimKeepsLower(l);
    LowerOfLower(t);
    TrimIdempotent(l);
  }

  /** `getCanonicalName`: the canonical name of the entry found, or the term itself. */
  function GetCanonicalName(d: Dictionary, term: string): (r: string)
    ensures (forall e :: e in d.entries ==> !EntryMatches(e, Query(term))) ==> r == term
    ensures (exists e :: e in d.entries && EntryMatches(e, Query(term)))
            ==> exists e :: e in d.entries && EntryMatches(e, Query(term)) && r == e.canonicalName
  {
    match FindTerm(d, term)
    case None => term
    case Some(e) => e.canonicalName
  }

  predicate AliasMatches(aliases: seq<string>, q: string) {
    exists a :: a in aliases && ToLower(a) == q
  }

  /** The nested `some` over entries and their aliases. */
  predicate SomeAliasMatches(entries: seq<TerminologyEntry>, q: string) {
    entries != [] && (AliasMatches(entries[0].aliases, q) || SomeAliasMatches(entries[1..], q))
  }

  /** `isAlias`: a term is an alias exactly when some entry lists it as an alias,
      ignoring case and surrounding white space; such a term is always found. */
  function IsAlias(d: Dictionary, term: string): (r: bool)
    ensures r <==> exists e, a :: e in d.entries && a in e.aliases && ToLower(a) == Query(term)
    ensures r ==> FindTerm(d, term).Some?
  {
    SomeAliasMatchesIff(d.entries, Query(term));
    if SomeAliasMatches(d.entries, Query(term)) then AliasFound(d, term); true else false
  }

  lemma {:induction false} SomeAliasMatchesIff(entries: seq<TerminologyEntry>, q: string)
    ensures SomeAliasMatches(entries, q) <==> exists e, a :: e in entries && a in e.aliases && ToLower(a) == q
  {
    if entries != [] {
      SomeAliasMatchesIff(entries[1..], q);
      if AliasMatches(entries[0].aliases, q) {
        var a :| a in entries[0].aliases && ToLower(a) == q;
        assert entries[0] in entries;
      }
      if SomeAliasMatches(entries[1..], q) {
        var e, a :| e in entries[1..] && a in e.aliases && ToLower(a) == q;
        assert e in entries;
      }
      if exists e, a :: e in entries && a in e.aliases && ToLower(a) == q {
        var e, a :| e in entries && a in e.aliases && ToLower(a) == q;
        if e != entries[0] {
          assert e in entries[1..];
          assert exists e', a' :: e' in entries[1..] && a' in e'.aliases && ToLower(a') == q by {
            assert e in entries[1..] && a in e.aliases && ToLower(a) == q;
          }
        } else {
          assert AliasMatches(entries[0].aliases, q);
        }
      }
    }
  }

  /** An entry listing the query as an alias answers the lookup. */
  lemma AliasFound(d: Dictionary, term: string)
    requires exists e, a :: e in d.entries && a in e.aliases && ToLower(a) == Query(term)
    ensures FindTerm(d, term).Some?
  {
    var e, a :| e in d.entries && a in e.aliases && ToLower(a) == Query(term);
    assert EntryMatches(e, Query(term));
  }

  /** `getTermsByCategory`: the entries of one category, in dictionary order. */
  function GetTermsByCategory(d: Dictionary, category: TermCategory): (r: seq<TerminologyEntry>)
    ensures forall e :: e in r <==> e in d.entries && e.category == category
    ensures |r| <= |d.entries|
  {
    Filter(d.entries, (e: TerminologyEntry) => e.category == category)
  }

  /** Each name looked up in turn; names no entry answers are dropped. */
  function ResolveAll(d: Dictionary, names: seq<string>): (r: seq<TerminologyEntry>)
    ensures |r| <= |names|
    ensures forall e :: e in r ==> exists n :: n in names && FindTerm(d, n) == Some(e)
    ensures forall n :: n in names && FindTerm(d, n).Some? ==> FindTerm(d, n).value in r
  {
    var resolve := (n: string) => FindTerm(d, n);
    CollectedAllIff(names, resolve);
    Collected(names, resolve)
  }

  /** `getRelatedTerms`: nothing for an unknown term; otherwise exactly the entries its
      related names resolve to. */
  function GetRelatedTerms(d: Dictionary, term: string): (r: seq<TerminologyEntry>)
    ensures FindTerm(d, term).None? ==> r == []
    ensures forall e :: e in r ==> e in d.entries
    ensures FindTerm(d, term).Some? ==>
      forall e :: e in r <==> exists n :: n in FindTerm(d, term).value.relatedTerms && FindTerm(d, n) == Some(e)
  {
    match FindTerm(d, term)
    case None => []
    case Some(entry) => ResolveAll(d, entry.relatedTerms)
  }

  // ---------------------------------------------------------------------------
  // Locale detection

  /** The range `[一-龥]` the detection counts. */
  predicate IsChineseChar(c: char) {
    '\U{4E00}' <= c <= '\U{9FA5}'
  }

  function ChineseCount(content: string): nat {
    Count(content, IsChineseChar)
  }

  /** `detectLocale`: Chinese when more than a tenth of the characters are Chinese.
      On empty content the ratio is 0 / 0, which is NaN, and NaN > 0.1 is false, so
      empty content is English. The ratio test is the integer test
      `10 * count > length`. */
  function DetectLocale(content: string): (r: Locale)
    ensures r == Zh <==> 0 < |content| && 10 * ChineseCount(content) > |content|
  {
    if |content| == 0 then En
    else
      var c := ChineseCount(content) as real;
      RatioAboveTenth(c, |content| as real);
      assert (10 * ChineseCount(content)) as real == 10.0 * c;
      if c / (|content| as real) > 0.1 then Zh
      else En
  }

  /** A ratio exceeds a tenth exactly when ten times the numerator exceeds the
      denominator. */
  lemma RatioAboveTenth(c: real, t: real)
    requires 0.0 < t
    ensures c / t > 0.1 <==> 10.0 * c > t
  {
    var q := c / t;
    assert q * t == c;
    ScaleMono(0.1, q, t);
    ScaleMono(q, 0.1, t);
  }

  lemma ScaleMono(x: real, y: real, t: real)
    requires 0.0 < t
    ensures x <= y ==> x * t <= y * t
    ensures x < y ==> x * t < y * t
  {
  }

  // ---------------------------------------------------------------------------
  // Alias consistency

  /** The term the translation prescribes for a locale. */
  function AppropriateTerm(t: Translation, locale: Locale): Option<string> {
    if locale == En then t.en else t.zh
  }

  /** Whether an alias is searched for: always without translation; with one, unless
      the alias or the canonical name is the term prescribed for the locale. */
  predicate AliasChecked(e: TerminologyEntry, locale: Locale, alias: string) {
    match e.translation
    case None => true
    case Some(t) => Some(alias) != AppropriateTerm(t, locale) && Some(e.canonicalName) != AppropriateTerm(t, locale)
  }

  /** `new RegExp('\\b' + escaped + '\\b', 'gi').test(content)` on a fresh pattern. */
  predicate UsedAsWord(content: string, term: string) {
    NextOccurrence(content, term, 0, WholeWordAnyCase).Some?
  }

  function AliasConflict(e: TerminologyEntry, alias: string): ConflictReport {
    ConflictReport(alias, e.definition,
      "Using alias \"" + alias + "\" instead of canonical name \"" + e.canonicalName + "\"", "unknown")
  }

  /** The conflicts the alias loop of one entry reports, for its first aliases. */
  function AliasConflicts(e: TerminologyEntry, aliases: seq<string>, locale: Locale, content: string): seq<ConflictReport> {
    if aliases == [] then []
    else
      var a := aliases[|aliases| - 1];
      AliasConflicts(e, aliases[..|aliases| - 1], locale, content)
      + (if AliasChecked(e, locale, a) && UsedAsWord(content, a) then [AliasConflict(e, a)] else [])
  }

  /** The conflicts the entry loop reports, for the first entries. */
  function Conflicts(entries: seq<TerminologyEntry>, locale: Locale, content: string): seq<ConflictReport> {
    if entries == [] then []
    else
      var e := entries[|entries| - 1];
      Conflicts(entries[..|entries| - 1], locale, content) + AliasConflicts(e, e.aliases, locale, content)
  }

  /** The locale given, or the one detected from the content. */
  function ResolveLocale(content: string, locale: Option<Locale>): Locale {
    if locale.Some? then locale.value else DetectLocale(content)
  }

  /** The loop over one entry's aliases. */
  method ScanAliases(conflicts: seq<ConflictReport>, e: TerminologyEntry, locale: Locale, content: string)
    returns (conflicts': seq<ConflictReport>)
    ensures conflicts' == conflicts + AliasConflicts(e, e.aliases, locale, content)
  {
    conflicts' := conflicts;
    var appropriate := if e.translation.Some? then AppropriateTerm(e.translation.value, locale) else None;
    var i := 0;
    while i < |e.aliases|
      invariant 0 <= i <= |e.aliases|
      invariant conflicts' == conflicts + AliasConflicts(e, e.aliases[..i], locale, content)
    {
      var alias := e.aliases[i];
      assert e.aliases[..i + 1][..i] == e.aliases[..i];
      if e.translation.Some? && (Some(alias) == appropriate || Some(e.canonicalName) == appropriate) {
        // skipped: the alias, or the canonical name, is the term for this locale
      } else if NextOccurrence(content, alias, 0, WholeWordAnyCase).Some? {
        conflicts' := conflicts' + [AliasConflict(e, alias)];
      }
      i := i + 1;
    }
    assert e.aliases[..i] == e.aliases;
  }

  /** `validateTerminologyConsistency`. */
  method ValidateTerminologyConsistency(d: Dictionary, content: string, locale: Option<Locale>)
    returns (conflicts: seq<ConflictReport>)
    ensures conflicts == Conflicts(d.entries, ResolveLocale(content, locale), content)
  {
    var loc := if locale.Some? then locale.value else DetectLocale(content);
    conflicts := [];
    var i := 0;
    while i < |d.entries|
      invariant 0 <= i <= |d.entries|
      invariant conflicts == Conflicts(d.entries[..i], loc, content)
    {
      assert d.entries[..i + 1][..i] == d.entries[..i];
      conflicts := ScanAliases(conflicts, d.entries[i], loc, content);
      i := i + 1;
    }
    assert d.entries[..i] == d.entries;
  }

  lemma {:induction false} AliasConflictsIff(e: TerminologyEntry, aliases: seq<string>, locale: Locale, content: string,
                                             c: ConflictReport)
    ensures c in AliasConflicts(e, aliases, locale, content)
            <==> exists a :: a in aliases && AliasChecked(e, locale, a) && UsedAsWord(content, a) && c == AliasConflict(e, a)
  {
    if aliases != [] {
      var init := aliases[..|aliases| - 1];
      var a := aliases[|aliases| - 1];
      AliasConflictsIff(e, init, locale, content, c);
      assert aliases == init + [a];
      if exists x :: x in aliases && AliasChecked(e, locale, x) && UsedAsWord(content, x) && c == AliasConflict(e, x) {
        var x :| x in aliases && AliasChecked(e, locale, x) && UsedAsWord(content, x) && c == AliasConflict(e, x);
        if x != a {
          assert x in init;
        }
      }
    }
  }

  /** A conflict is reported exactly for each alias that is searched for and occurs
      as a whole word, ignoring case. */
  lemma {:induction false} ConflictsIff(entries: seq<TerminologyEntry>, locale: Locale, content: string, c: ConflictReport)
    ensures c in Conflicts(entries, locale, content)
            <==> exists e, a :: e in entries && a in e.aliases && AliasChecked(e, locale, a)
                                && UsedAsWord(content, a) && c == AliasConflict(e, a)
  {
    if entries != [] {
      var init := entries[..|entries| - 1];
      var e := entries[|entries| - 1];
      ConflictsIff(init, locale, content, c);
      AliasConflictsIff(e, e.aliases, locale, content, c);
      assert entries == init + [e];
      if exists x, a :: x in entries && a in x.aliases && AliasChecked(x, locale, a)
                        && UsedAsWord(content, a) && c == AliasConflict(x, a) {
        var x, a :| x in entries && a in x.aliases && AliasChecked(x, locale, a)
                    && UsedAsWord(content, a) && c == AliasConflict(x, a);
        if x != e {
          assert x in init;
        }
      }
    }
  }

  /** An entry whose canonical name is the term prescribed for the locale reports no
      alias at all. */
  lemma {:induction false} CanonicalAppropriateNoConflicts(e: TerminologyEntry, aliases: seq<string>, locale: Locale,
                                                           content: string)
    requires e.translation.Some? && AppropriateTerm(e.translation.value, locale) == Some(e.canonicalName)
    ensures AliasConflicts(e, aliases, locale, content) == []
  {
    if aliases != [] {
      CanonicalAppropriateNoConflicts(e, aliases[..|aliases| - 1], locale, content);
    }
  }

  /** `\b` needs a word character on exactly one side, so in text without any ASCII
      letter, digit or underscore, such as Chinese prose, no whole-word search ever
      matches. */
  lemma NoWordCharsNoWholeWord(text: string, term: string, from: nat, ignoreCase: bool)
    requires forall k :: 0 <= k < |text| ==> !IsWordChar(text[k])
    ensures NextOccurrence(text, term, from, Mode(true, ignoreCase)).None?
  {
    NextOccurrenceLeftmost(text, term, from, Mode(true, ignoreCase));
    forall i | from <= i
      ensures !TermAt(text, term, i, Mode(true, ignoreCase))
    {
      assert !Boundary(text, i);
    }
  }

  /** Hence content without ASCII word characters never reports an alias, whatever
      the dictionary lists. */
  lemma NoWordCharsNoConflicts(entries: seq<TerminologyEntry>, locale: Locale, content: string)
    requires forall k :: 0 <= k < |content| ==> !IsWordChar(content[k])
    ensures Conflicts(entries, locale, content) == []
  {
    if Conflicts(entries, locale, content) != [] {
      var c := Conflicts(entries, locale, content)[0];
      ConflictsIff(entries, locale, content, c);
      var e, a :| e in entries && a in e.aliases && AliasChecked(e, locale, a)
                  && UsedAsWord(content, a) && c == AliasConflict(e, a);
      NoWordCharsNoWholeWord(content, a, 0, true);
      assert false;
    }
  }

  // ---------------------------------------------------------------------------
  // Definitions

  /** The punctuation `normalizeDefinition` removes: `.,;:!?` and their full-width
      forms `。，；：！？`. */
  predicate IsDefinitionPunct(c: char) {
    c == '.' || c == ',' || c == ';' || c == ':' || c == '!' || c == '?'
    || c == '\U{3002}' || c == '\U{FF0C}' || c == '\U{FF1B}' || c == '\U{FF1A}' || c == '\U{FF01}' || c == '\U{FF1F}'
  }

  function RemovePunct(s: string): (r: string)
    ensures forall c :: c in r ==> c in s && !IsDefinitionPunct(c)
  {
    if s == [] then []
    else (if IsDefinitionPunct(s[0]) then [] else [s[0]]) + RemovePunct(s[1..])
  }

  /** `replace(/\s+/g, ' ')`: each maximal run of white space becomes one space. */
  function CollapseSpaces(s: string): (r: string)
    ensures forall c :: c in r ==> c in s || c == ' '
    ensures r != [] && IsSpace(r[0]) ==> s != [] && IsSpace(s[0])
    ensures SpacesCollapsed(r)
    decreases |s|
  {
    if s == [] then []
    else if IsSpace(s[0]) then
      var rest := TrimStart(s[1..]);
      assert forall c :: c in rest ==> c in s by {
        forall c | c in rest ensures c in s {
          var k :| 0 <= k < |rest| && rest[k] == c;
          assert c == s[1..][|s| - 1 - |rest| + k];
        }
      }
      [' '] + CollapseSpaces(rest)
    else [s[0]] + CollapseSpaces(s[1..])
  }

  /** Every white-space character is a plain space and no two are adjacent. */
  predicate SpacesCollapsed(s: string) {
    (forall c :: c in s && IsSpace(c) ==> c == ' ')
    && forall k :: 0 <= k < |s| - 1 ==> !IsSpace(s[k]) || !IsSpace(s[k + 1])
  }

  /** `normalizeDefinition`: lower-case, remove punctuation, collapse white space,
      trim. */
  function NormalizeDefinition(definition: string): (r: string)
    ensures NormalForm(r)
  {
    StepsReachNormalForm(definition);
    Trim(CollapseSpaces(RemovePunct(ToLower(definition))))
  }

  /** The strings `NormalizeDefinition` produces. */
  predicate NormalForm(s: string) {
    (forall c :: c in s ==> !IsAsciiUpper(c) && !IsDefinitionPunct(c))
    && SpacesCollapsed(s)
    && (s == [] || (!IsSpace(s[0]) && !IsSpace(s[|s| - 1])))
  }

  lemma ToLowerNoUpper(s: string)
    ensures forall c :: c in ToLower(s) ==> !IsAsciiUpper(c)
  {
    var a := ToLower(s);
    forall c | c in a
      ensures !IsAsciiUpper(c)
    {
      var k :| 0 <= k < |a| && a[k] == c;
      assert c == LowerChar(s[k]);
    }
  }

  /** A slice keeps the characters and the collapsed spacing of what it is cut from. */
  lemma SliceKeepsCollapsed(s: string, a: nat, b: nat)
    requires a <= b <= |s| && SpacesCollapsed(s)
    ensures forall x :: x in s[a..b] ==> x in s
    ensures SpacesCollapsed(s[a..b])
  {
    var t := s[a..b];
    forall x | x in t
      ensures x in s
    {
      var k :| 0 <= k < |t| && t[k] == x;
      assert x == s[a + k];
    }
    forall k | 0 <= k < |t| - 1
      ensures !IsSpace(t[k]) || !IsSpace(t[k + 1])
    {
      assert t[k] == s[a + k] && t[k + 1] == s[a + k + 1];
    }
  }

  /** Trimming keeps the characters and the collapsed spacing of what it trims. */
  lemma TrimKeepsCollapsed(s: string)
    requires SpacesCollapsed(s)
    ensures forall x :: x in Trim(s) ==> x in s
    ensures SpacesCollapsed(Trim(s))
  {
    TrimIsSlice(s);
    var off := TrimOffset(s);
    SliceKeepsCollapsed(s, off, off + |Trim(s)|);
  }

  /** Lower-casing, removing punctuation, collapsing and trimming reach the normal
      form. */
  lemma StepsReachNormalForm(definition: string)
    ensures NormalForm(Trim(CollapseSpaces(RemovePunct(ToLower(definition)))))
  {
    var a := ToLower(definition);
    ToLowerNoUpper(definition);
    var b := RemovePunct(a);
    assert forall x :: x in b ==> !IsAsciiUpper(x) && !IsDefinitionPunct(x);
    var c := CollapseSpaces(b);
    assert forall x :: x in c ==> !IsAsciiUpper(x) && !IsDefinitionPunct(x);
    TrimKeepsCollapsed(c);
    var t := Trim(c);
    assert forall x :: x in t ==> !IsAsciiUpper(x) && !IsDefinitionPunct(x);
  }

  lemma {:induction false} RemovePunctOfNone(s: string)
    requires forall c :: c in s ==> !IsDefinitionPunct(c)
    ensures RemovePunct(s) == s
  {
    if s != [] {
      assert forall c :: c in s[1..] ==> c in s;
      RemovePunctOfNone(s[1..]);
    }
  }

  lemma {:induction false} CollapseSpacesOfCollapsed(s: string)
    requires SpacesCollapsed(s)
    ensures CollapseSpaces(s) == s
    decreases |s|
  {
    if s != [] {
      var tail := s[1..];
      SliceKeepsCollapsed(s, 1, |s|);
      CollapseSpacesOfCollapsed(tail);
      assert s == [s[0]] + tail;
      if IsSpace(s[0]) {
        assert s[0] in s;
        assert s[0] == ' ';
        if tail != [] {
          assert !IsSpace(s[1]);
          assert !IsSpace(tail[0]);
        }
        assert TrimStart(tail) == tail;
        assert CollapseSpaces(s) == [' '] + CollapseSpaces(tail);
      } else {
        assert CollapseSpaces(s) == [s[0]] + CollapseSpaces(tail);
      }
    }
  }

  /** A string already in normal form is its own normalisation. */
  lemma NormalFormFixed(s: string)
    requires NormalForm(s)
    ensures NormalizeDefinition(s) == s
  {
    LowerOfLower(s);
    RemovePunctOfNone(s);
    CollapseSpacesOfCollapsed(s);
    assert TrimStart(s) == s;
    assert TrimEnd(s) == s;
  }

  /** Normalising a definition twice is normalising it once. */
  lemma NormalizeDefinitionIdempotent(definition: string)
    ensures NormalizeDefinition(NormalizeDefinition(definition)) == NormalizeDefinition(definition)
  {
    NormalFormFixed(NormalizeDefinition(definition));
  }

  /** `checkDefinitionConflict`. */
  function CheckDefinitionConflict(d: Dictionary, term: string, definition: string): (r: Option<ConflictReport>)
    ensures r.None? <==> FindTerm(d, term).None?
                         || NormalizeDefinition(FindTerm(d, term).value.definition) == NormalizeDefinition(definition)
    ensures r.Some? ==> r.value.term == FindTerm(d, term).value.canonicalName
                        && r.value.canonicalDefinition == FindTerm(d, term).value.definition
                        && r.value.articleDefinition == definition
  {
    match FindTerm(d, term)
    case None => None
    case Some(entry) =>
      if NormalizeDefinition(entry.definition) != NormalizeDefinition(definition) then
        Some(ConflictReport(entry.canonicalName, entry.definition, definition, "unknown"))
      else None
  }

  /** Whether a definition conflicts does not change when it is normalised first, and
      an entry's own definition never conflicts with itself. */
  lemma DefinitionConflictNormalised(d: Dictionary, term: string, definition: string)
    ensures CheckDefinitionConflict(d, term, NormalizeDefinition(definition)).None?
            <==> CheckDefinitionConflict(d, term, definition).None?
    ensures FindTerm(d, term).Some? ==> CheckDefinitionConflict(d, term, FindTerm(d, term).value.definition).None?
  {
    NormalizeDefinitionIdempotent(definition);
  }

  // ---------------------------------------------------------------------------
  // Terms used in content

  /** The entries, among the first ones, whose canonical name occurs as a whole word. */
  function TermsIn(entries: seq<TerminologyEntry>, content: string): seq<TerminologyEntry> {
    if entries == [] then []
    else
      var e := entries[|entries| - 1];
      TermsIn(entries[..|entries| - 1], content) + (if UsedAsWord(content, e.canonicalName) then [e] else [])
  }

  /** `extractTermsFromContent`. */
  method ExtractTermsFromContent(d: Dictionary, content: string) returns (found: seq<TerminologyEntry>)
    ensures found == TermsIn(d.entries, content)
  {
    found := [];
    var i := 0;
    while i < |d.entries|
      invariant 0 <= i <= |d.entries|
      invariant found == TermsIn(d.entries[..i], content)
    {
      var entry := d.entries[i];
      assert d.entries[..i + 1][..i] == d.entries[..i];
      if NextOccurrence(content, entry.canonicalName, 0, WholeWordAnyCase).Some? {
        found := found + [entry];
      }
      i := i + 1;
    }
    assert d.entries[..i] == d.entries;
  }

  /** An entry is extracted exactly when it is in the dictionary and its canonical
      name occurs as a whole word, ignoring case. */
  lemma {:induction false} TermsInIff(entries: seq<TerminologyEntry>, content: string, e: TerminologyEntry)
    ensures e in TermsIn(entries, content) <==> e in entries && UsedAsWord(content, e.canonicalName)
  {
    if entries != [] {
      var init := entries[..|entries| - 1];
      var last := entries[|entries| - 1];
      TermsInIff(init, content, e);
      assert entries == init + [last];
    }
  }

  // ---------------------------------------------------------------------------
  // Translations

  /** `value || fallback` on an optional string: undefined and "" fall back. */
  function OrElse(o: Option<string>, fallback: string): string {
    if o.Some? && o.value != "" then o.value else fallback
  }

  datatype TermText = TermText(term: string, definition: string)

  datatype BilingualPair = BilingualPair(zh: string, en: string, zhDefinition: string, enDefinition: string)

  /** `hasTranslation`. */
  predicate HasTranslation(d: Dictionary, term: string) {
    FindTerm(d, term).Some? && FindTerm(d, term).value.translation.Some?
  }

  /** The translated definition for a locale, when the translation has one. */
  function AppropriateDefinition(t: Translation, locale: Locale): Option<string> {
    if locale == En then t.enDefinition else t.zhDefinition
  }

  /** The translated term and definition of an entry: each is the translation's own
      text for the target when present and non-empty, and otherwise falls back to the
      entry's canonical name and definition. */
  function TranslationOf(e: TerminologyEntry, t: Translation, target: Locale): (r: TermText)
    ensures AppropriateTerm(t, target).Some? && AppropriateTerm(t, target).value != ""
            ==> r.term == AppropriateTerm(t, target).value
    ensures !(AppropriateTerm(t, target).Some? && AppropriateTerm(t, target).value != "")
            ==> r.term == e.canonicalName
    ensures AppropriateDefinition(t, target).Some? && AppropriateDefinition(t, target).value != ""
            ==> r.definition == AppropriateDefinition(t, target).value
    ensures !(AppropriateDefinition(t, target).Some? && AppropriateDefinition(t, target).value != "")
            ==> r.definition == e.definition
  {
    if target == En then TermText(OrElse(t.en, e.canonicalName), OrElse(t.enDefinition, e.definition))
    else TermText(OrElse(t.zh, e.canonicalName), OrElse(t.zhDefinition, e.definition))
  }

  /** `getTranslation`. */
  function GetTranslation(d: Dictionary, term: string, target: Locale): (r: Option<TermText>)
    ensures r.Some? <==> HasTranslation(d, term)
    ensures r.Some? ==> r.value == TranslationOf(FindTerm(d, term).value, FindTerm(d, term).value.translation.value, target)
  {
    match FindTerm(d, term)
    case None => None
    case Some(entry) =>
      match entry.translation
      case None => None
      case Some(t) => Some(TranslationOf(entry, t, target))
  }

  function PairOf(e: TerminologyEntry, t: Translation): BilingualPair {
    BilingualPair(OrElse(t.zh, e.canonicalName), OrElse(t.en, e.canonicalName),
                  OrElse(t.zhDefinition, e.definition), OrElse(t.enDefinition, e.definition))
  }

  /** `getBilingualPair`: the pair exists exactly when a translation does, and agrees
      with the translations into each language. */
  function GetBilingualPair(d: Dictionary, term: string): (r: Option<BilingualPair>)
    ensures r.Some? <==> HasTranslation(d, term)
    ensures r.Some? ==>
      var zh := GetTranslation(d, term, Zh).value;
      var en := GetTranslation(d, term, En).value;
      r.value.zh == zh.term && r.value.zhDefinition == zh.definition
      && r.value.en == en.term && r.value.enDefinition == en.definition
  {
    match FindTerm(d, term)
    case None => None
    case Some(entry) =>
      match entry.translation
      case None => None
      case Some(t) =>
        assert GetTranslation(d, term, Zh) == Some(TranslationOf(entry, t, Zh));
        assert GetTranslation(d, term, En) == Some(TranslationOf(entry, t, En));
        Some(PairOf(entry, t))
  }

  /** The English translation `formatWithEnglish` adds: present, non-empty, and
      different from both the term and the canonical name. */
  ghost predicate AddsEnglish(d: Dictionary, term: string) {
    exists e, t, en :: FindTerm(d, term) == Some(e) && e.translation == Some(t) && t.en == Some(en)
                       && en != "" && en != term && en != e.canonicalName
  }

  /** `formatWithEnglish`. */
  function FormatWithEnglish(d: Dictionary, term: string): (r: string)
    ensures r == term <==> !AddsEnglish(d, term)
    ensures AddsEnglish(d, term) ==>
      r == term + "\U{FF08}" + FindTerm(d, term).value.translation.value.en.value + "\U{FF09}"
  {
    AddsEnglishOf(d, term);
    match FindTerm(d, term)
    case None => term
    case Some(entry) =>
      if entry.translation.None? || entry.translation.value.en.None? || entry.translation.value.en.value == "" then term
      else
        var enTerm := entry.translation.value.en.value;
        if enTerm == term || entry.canonicalName == enTerm then term
        else
          var r := term + "\U{FF08}" + enTerm + "\U{FF09}";
          assert |r| == |term| + |enTerm| + 2;
          r
  }

  /** `AddsEnglish` read off the entry the term resolves to. */
  lemma AddsEnglishOf(d: Dictionary, term: string)
    ensures FindTerm(d, term).None? ==> !AddsEnglish(d, term)
    ensures FindTerm(d, term).Some? ==>
      var e := FindTerm(d, term).value;
      (AddsEnglish(d, term) <==>
        e.translation.Some? && e.translation.value.en.Some?
        && e.translation.value.en.value != "" && e.translation.value.en.value != term
        && e.translation.value.en.value != e.canonicalName)
  {
    if FindTerm(d, term).Some? {
      var e := FindTerm(d, term).value;
      if e.translation.Some? && e.translation.value.en.Some? {
        var t := e.translation.value;
        var en := t.en.value;
        if en != "" && en != term && en != e.canonicalName {
          assert FindTerm(d, term) == Some(e) && e.translation == Some(t) && t.en == Some(en);
        }
      }
    }
  }

  /** `\b…\b` with the `g` flag only: the Chinese side is matched case-sensitively. */
  const WholeWordExact: Mode := Mode(true, false)

  function ZhTerm(e: TerminologyEntry, t: Translation): string {
    OrElse(t.zh, e.canonicalName)
  }

  function EnTerm(e: TerminologyEntry, t: Translation): string {
    OrElse(t.en, e.canonicalName)
  }

  /** The issue one entry raises: its term is found on one side only. Counts are the
      lengths of the `match` results. */
  function TranslationIssue(e: TerminologyEntry, zhContent: string, enContent: string): Option<ConflictReport> {
    match e.translation
    case None => None
    case Some(t) =>
      var zhTerm := ZhTerm(e, t);
      var enTerm := EnTerm(e, t);
      var zhCount := |Occurrences(zhContent, zhTerm, 0, WholeWordExact)|;
      var enCount := |Occurrences(enContent, enTerm, 0, WholeWordAnyCase)|;
      if zhCount > 0 && enCount == 0 then
        Some(ConflictReport(zhTerm, "Term appears in Chinese (" + NatToString(zhCount) + " times) but not in English",
                            "Missing English translation: " + enTerm, "translation-consistency-check"))
      else if enCount > 0 && zhCount == 0 then
        Some(ConflictReport(enTerm, "Term appears in English (" + NatToString(enCount) + " times) but not in Chinese",
                            "Missing Chinese translation: " + zhTerm, "translation-consistency-check"))
      else None
  }

  /** The issues of the entries, in dictionary order. */
  function TranslationIssues(entries: seq<TerminologyEntry>, zhContent: string, enContent: string): seq<ConflictReport> {
    Collected(entries, IssueIn(zhContent, enContent))
  }

  /** The issue an entry raises in the two contents. */
  function IssueIn(zhContent: string, enContent: string): TerminologyEntry -> Option<ConflictReport> {
    e => TranslationIssue(e, zhContent, enContent)
  }

  /** The body of the loop of `validateTranslationConsistency` for one entry. */
  method EntryIssue(entry: TerminologyEntry, zhContent: string, enContent: string) returns (issue: Option<ConflictReport>)
    ensures issue == TranslationIssue(entry, zhContent, enContent)
  {
    issue := None;
    if entry.translation.Some? {
      var t := entry.translation.value;
      var zhTerm := OrElse(t.zh, entry.canonicalName);
      var enTerm := OrElse(t.en, entry.canonicalName);
      var zhMatches := Occurrences(zhContent, zhTerm, 0, WholeWordExact);
      var enMatches := Occurrences(enContent, enTerm, 0, WholeWordAnyCase);
      if |zhMatches| > 0 && |enMatches| == 0 {
        issue := Some(ConflictReport(zhTerm,
          "Term appears in Chinese (" + NatToString(|zhMatches|) + " times) but not in English",
          "Missing English translation: " + enTerm, "translation-consistency-check"));
      } else if |enMatches| > 0 && |zhMatches| == 0 {
        issue := Some(ConflictReport(enTerm,
          "Term appears in English (" + NatToString(|enMatches|) + " times) but not in Chinese",
          "Missing Chinese translation: " + zhTerm, "translation-consistency-check"));
      }
    }
  }

  /** `validateTranslationConsistency`. */
  method ValidateTranslationConsistency(d: Dictionary, zhContent: string, enContent: string)
    returns (issues: seq<ConflictReport>)
    ensures issues == TranslationIssues(d.entries, zhContent, enContent)
  {
    issues := [];
    var i := 0;
    while i < |d.entries|
      invariant 0 <= i <= |d.entries|
      invariant issues == Collected(d.entries[..i], IssueIn(zhContent, enContent))
    {
      CollectedSnoc(d.entries, i, IssueIn(zhContent, enContent));
      var issue := EntryIssue(d.entries[i], zhContent, enContent);
      assert IssueIn(zhContent, enContent)(d.entries[i]) == issue;
      if issue.Some? {
        issues := issues + [issue.value];
      }
      i := i + 1;
    }
    assert d.entries[..i] == d.entries;
  }

  /** An entry with a translation raises an issue exactly when its term occurs as a
      whole word on one side only, and the issue names the side it occurs on. */
  lemma TranslationIssueIff(e: TerminologyEntry, zhContent: string, enContent: string)
    ensures TranslationIssue(e, zhContent, enContent).Some? <==>
      e.translation.Some? &&
      NextOccurrence(zhContent, ZhTerm(e, e.translation.value), 0, WholeWordExact).Some?
      != NextOccurrence(enContent, EnTerm(e, e.translation.value), 0, WholeWordAnyCase).Some?
    ensures TranslationIssue(e, zhContent, enContent).Some? ==>
      var t := e.translation.value;
      var r := TranslationIssue(e, zhContent, enContent).value;
      r.articleId == "translation-consistency-check"
      && (if NextOccurrence(zhContent, ZhTerm(e, t), 0, WholeWordExact).Some? then r.term == ZhTerm(e, t)
          else r.term == EnTerm(e, t))
  {
    if e.translation.Some? {
      var t := e.translation.value;
      OccurrencesEmptyIff(zhContent, ZhTerm(e, t), 0, WholeWordExact);
      OccurrencesEmptyIff(enContent, EnTerm(e, t), 0, WholeWordAnyCase);
      NextOccurrenceLeftmost(zhContent, ZhTerm(e, t), 0, WholeWordExact);
      NextOccurrenceLeftmost(enContent, EnTerm(e, t), 0, WholeWordAnyCase);
    }
  }

  /** The issues are exactly those of the entries, one at most per entry. */
  lemma TranslationIssuesIff(entries: seq<TerminologyEntry>, zhContent: string, enContent: string, c: ConflictReport)
    ensures c in TranslationIssues(entries, zhContent, enContent)
            <==> exists e :: e in entries && TranslationIssue(e, zhContent, enContent) == Some(c)
    ensures |TranslationIssues(entries, zhContent, enContent)| <= |entries|
  {
    CollectedIff(entries, IssueIn(zhContent, enContent), c);
  }

  /** Chinese content without ASCII word characters never matches its Chinese term
      under `\b…\b`, so such an entry is flagged exactly when its English term occurs
      in the English content, as "missing Chinese translation". */
  lemma ChineseProseFlagsEnglishSide(e: TerminologyEntry, zhContent: string, enContent: string)
    requires e.translation.Some?
    requires forall k :: 0 <= k < |zhContent| ==> !IsWordChar(zhContent[k])
    ensures TranslationIssue(e, zhContent, enContent).Some?
            <==> NextOccurrence(enContent, EnTerm(e, e.translation.value), 0, WholeWordAnyCase).Some?
    ensures TranslationIssue(e, zhContent, enContent).Some? ==>
            TranslationIssue(e, zhContent, enContent).value.term == EnTerm(e, e.translation.value)
  {
    NoWordCharsNoWholeWord(zhContent, ZhTerm(e, e.translation.value), 0, false);
    TranslationIssueIff(e, zhContent, enContent);
  }

  // ---------------------------------------------------------------------------
  // Dictionary validation

  /** The fields `validateDictionary` inspects in one entry of untyped JSON: the
      strings may be absent, and the two lists are either arrays or not. */
  datatype RawEntry = RawEntry(term: Option<string>, canonicalName: Option<string>, definition: Option<string>,
                               aliasesIsArray: bool, relatedTermsIsArray: bool, category: Option<string>)

  /** `entries` is `None` when the JSON value is not an array. */
  datatype RawDictionary = RawDictionary(version: Option<string>, lastUpdated: Option<string>,
                                         entries: Option<seq<RawEntry>>)

  datatype DictionaryCheck = DictionaryCheck(valid: bool, errors: seq<string>)

  /** JavaScript truthiness of a string field: present and non-empty. */
  predicate Truthy(o: Option<string>) {
    o.Some? && o.value != ""
  }

  /** The error pushed when a check fails. */
  function Require(ok: bool, message: string): seq<string> {
    if ok then [] else [message]
  }

  function EntryPrefix(index: nat): string {
    "Entry " + NatToString(index) + ": "
  }

  /** The errors of one entry, in the order the fields are checked. */
  function EntryErrors(e: RawEntry, index: nat): (r: seq<string>)
    ensures forall m :: m in r ==> StartsWith(m, EntryPrefix(index))
    ensures r == [] <==> WellFormedEntry(e)
    ensures |r| <= 6
  {
    var p := EntryPrefix(index);
    Require(Truthy(e.term), p + "Missing required field: term")
    + Require(Truthy(e.canonicalName), p + "Missing required field: canonicalName")
    + Require(Truthy(e.definition), p + "Missing required field: definition")
    + Require(e.aliasesIsArray, p + "Field 'aliases' must be an array")
    + Require(e.relatedTermsIsArray, p + "Field 'relatedTerms' must be an array")
    + Require(Truthy(e.category), p + "Missing required field: category")
  }

  /** The errors of the first entries. */
  function EntriesErrors(entries: seq<RawEntry>): seq<string> {
    if entries == [] then []
    else EntriesErrors(entries[..|entries| - 1]) + EntryErrors(entries[|entries| - 1], |entries| - 1)
  }

  function DictionaryErrors(data: RawDictionary): seq<string> {
    Require(Truthy(data.version), "Missing required field: version")
    + Require(Truthy(data.lastUpdated), "Missing required field: lastUpdated")
    + (if data.entries.Some? then EntriesErrors(data.entries.value)
       else ["Missing or invalid field: entries (must be an array)"])
  }

  /** The checks `validateDictionary` makes on one entry. */
  method CheckEntry(entry: RawEntry, index: nat) returns (errors: seq<string>)
    ensures errors == EntryErrors(entry, index)
  {
    var p := EntryPrefix(index);
    errors := [];
    ghost var r1 := Require(Truthy(entry.term), p + "Missing required field: term");
    ghost var r2 := Require(Truthy(entry.canonicalName), p + "Missing required field: canonicalName");
    ghost var r3 := Require(Truthy(entry.definition), p + "Missing required field: definition");
    ghost var r4 := Require(entry.aliasesIsArray, p + "Field 'aliases' must be an array");
    ghost var r5 := Require(entry.relatedTermsIsArray, p + "Field 'relatedTerms' must be an array");
    ghost var r6 := Require(Truthy(entry.category), p + "Missing required field: category");
    if !Truthy(entry.term) {
      errors := errors + [p + "Missing required field: term"];
    }
    assert errors == r1;
    if !Truthy(entry.canonicalName) {
      errors := errors + [p + "Missing required field: canonicalName"];
    }
    assert errors == r1 + r2;
    if !Truthy(entry.definition) {
      errors := errors + [p + "Missing required field: definition"];
    }
    assert errors == r1 + r2 + r3;
    if !entry.aliasesIsArray {
      errors := errors + [p + "Field 'aliases' must be an array"];
    }
    assert errors == r1 + r2 + r3 + r4;
    if !entry.relatedTermsIsArray {
      errors := errors + [p + "Field 'relatedTerms' must be an array"];
    }
    assert errors == r1 + r2 + r3 + r4 + r5;
    if !Truthy(entry.category) {
      errors := errors + [p + "Missing required field: category"];
    }
  }

  /** The `forEach` over the entries. */
  method CheckEntries(entries: seq<RawEntry>) returns (errors: seq<string>)
    ensures errors == EntriesErrors(entries)
  {
    errors := [];
    var i := 0;
    while i < |entries|
      invariant 0 <= i <= |entries|
      invariant errors == EntriesErrors(entries[..i])
    {
      assert entries[..i + 1][..i] == entries[..i];
      var entryErrors := CheckEntry(entries[i], i);
      errors := errors + entryErrors;
      i := i + 1;
    }
    assert entries[..i] == entries;
  }

  /** `validateDictionary`. */
  method ValidateDictionary(data: RawDictionary) returns (result: DictionaryCheck)
    ensures result.errors == DictionaryErrors(data)
    ensures result.valid <==> result.errors == []
  {
    var errors: seq<string> := [];
    if !Truthy(data.version) {
      errors := errors + ["Missing required field: version"];
    }
    assert errors == Require(Truthy(data.version), "Missing required field: version");
    if !Truthy(data.lastUpdated) {
      errors := errors + ["Missing required field: lastUpdated"];
    }
    assert errors == Require(Truthy(data.version), "Missing required field: version")
                     + Require(Truthy(data.lastUpdated), "Missing required field: lastUpdated");
    if data.entries.None? {
      errors := errors + ["Missing or invalid field: entries (must be an array)"];
    } else {
      var entryErrors := CheckEntries(data.entries.value);
      errors := errors + entryErrors;
    }
    result := DictionaryCheck(|errors| == 0, errors);
  }

  /** Every required field of an entry is present. */
  predicate WellFormedEntry(e: RawEntry) {
    Truthy(e.term) && Truthy(e.canonicalName) && Truthy(e.definition)
    && e.aliasesIsArray && e.relatedTermsIsArray && Truthy(e.category)
  }

  predicate WellFormed(data: RawDictionary) {
    Truthy(data.version) && Truthy(data.lastUpdated) && data.entries.Some?
    && forall e :: e in data.entries.value ==> WellFormedEntry(e)
  }

  lemma {:induction false} EntriesErrorsEmptyIff(entries: seq<RawEntry>)
    ensures EntriesErrors(entries) == [] <==> forall e :: e in entries ==> WellFormedEntry(e)
  {
    if entries != [] {
      var init := entries[..|entries| - 1];
      var last := entries[|entries| - 1];
      EntriesErrorsEmptyIff(init);
      assert entries == init + [last];
    }
  }

  /** A dictionary is valid exactly when every required field, at the top and in
      every entry, is present. */
  lemma DictionaryValidIff(data: RawDictionary)
    ensures DictionaryErrors(data) == [] <==> WellFormed(data)
  {
    if data.entries.Some? {
      EntriesErrorsEmptyIff(data.entries.value);
    }
  }

  /** Each entry contributes one error per missing field, and no more than six. */
  lemma {:induction false} EntriesErrorsBound(entries: seq<RawEntry>)
    ensures |EntriesErrors(entries)| <= 6 * |entries|
  {
    if entries != [] {
      EntriesErrorsBound(entries[..|entries| - 1]);
    }
  }
}
