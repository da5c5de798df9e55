/** Character and string helpers shared by every module: the ECMAScript notions of
    white space, ASCII case mapping, trimming, prefix and substring tests, and the
    decimal rendering of counts that appear inside report messages. */
module Util {

  datatype Option<T> = None | Some(value: T)

  /** The value, or the default when there is none (`o ?? default`). */
  function OrDefault<T>(o: Option<T>, default: T): T {
    match o
    case Some(v) => v
    case None => default
  }

  /** The characters matched by `\s` and removed by `String.prototype.trim`:
      WhiteSpace and LineTerminator of ECMAScript. */
  predicate IsSpace(c: char) {
    c == '\t' || c == '\n' || c == '\U{000B}' || c == '\U{000C}' || c == '\r' || c == ' '
    || c == '\U{00A0}' || c == '\U{1680}' || ('\U{2000}' <= c <= '\U{200A}')
    || c == '\U{2028}' || c == '\U{2029}' || c == '\U{202F}' || c == '\U{205F}'
    || c == '\U{3000}' || c == '\U{FEFF}'
  }

  /** Line terminators, the characters `.` does not match in a regular expression. */
  predicate IsLineTerminator(c: char) {
    c == '\n' || c == '\r' || c == '\U{2028}' || c == '\U{2029}'
  }

  predicate IsAsciiUpper(c: char) { 'A' <= c <= 'Z' }
  predicate IsAsciiLower(c: char) { 'a' <= c <= 'z' }
  predicate IsDigit(c: char) { '0' <= c <= '9' }

  /** `\w` of a regular expression without the unicode flag. */
  predicate IsWordChar(c: char) { IsAsciiUpper(c) || IsAsciiLower(c) || IsDigit(c) || c == '_' }

  function LowerChar(c: char): char {
    if IsAsciiUpper(c) then (c as int + 32) as char else c
  }

  function ToLower(s: string): (r: string)
    ensures |r| == |s|
    ensures forall i :: 0 <= i < |s| ==> r[i] == LowerChar(s[i])
  {
    if s == [] then [] else [LowerChar(s[0])] + ToLower(s[1..])
  }

  predicate IsLowerString(s: string) {
    forall i :: 0 <= i < |s| ==> !IsAsciiUpper(s[i])
  }

  function TrimStart(s: string): (r: string)
    ensures |r| <= |s| && r == s[|s| - |r|..]
    ensures forall i :: 0 <= i < |s| - |r| ==> IsSpace(s[i])
    ensures r == [] || !IsSpace(r[0])
  {
    if s != [] && IsSpace(s[0]) then TrimStart(s[1..]) else s
  }

  function TrimEnd(s: string): (r: string)
    ensures |r| <= |s| && r == s[..|r|]
    ensures forall i :: |r| <= i < |s| ==> IsSpace(s[i])
    ensures r == [] || !IsSpace(r[|r| - 1])
  {
    if s != [] && IsSpace(s[|s| - 1]) then TrimEnd(s[..|s| - 1]) else s
  }

  /** `String.prototype.trim`. */
  function Trim(s: string): (r: string)
    ensures |r| <= |s|
    ensures r == [] || (!IsSpace(r[0]) && !IsSpace(r[|r| - 1]))
  {
    TrimEnd(TrimStart(s))
  }

  /** Trimming twice is trimming once. */
  lemma TrimIdempotent(s: string)
    ensures Trim(Trim(s)) == Trim(s)
  {
    var t := Trim(s);
    assert TrimStart(t) == t;
    assert TrimEnd(t) == t;
  }

  /** Lower-casing a string without upper-case letters changes nothing. */
  lemma LowerOfLower(s: string)
    requires IsLowerString(s)
    ensures ToLower(s) == s
  {
    assert forall i :: 0 <= i < |s| ==> ToLower(s)[i] == s[i];
  }

  /** Where the trimmed string starts inside the original. */
  function TrimOffset(s: string): (a: nat)
    ensures a + |Trim(s)| <= |s|
  {
    |s| - |TrimStart(s)|
  }

  /** Trimming keeps a contiguous slice of the original. */
  lemma TrimIsSlice(s: string)
    ensures Trim(s) == s[TrimOffset(s)..TrimOffset(s) + |Trim(s)|]
  {
    var a := TrimStart(s);
    var b := TrimEnd(a);
    assert b == a[..|b|];
    assert a == s[TrimOffset(s)..];
  }

  lemma TrimKeepsLower(s: string)
    requires IsLowerString(s)
    ensures IsLowerString(Trim(s))
  {
    TrimIsSlice(s);
    var t := Trim(s);
    forall i | 0 <= i < |t|
      ensures !IsAsciiUpper(t[i])
    {
      assert t[i] == s[TrimOffset(s) + i];
    }
  }

  predicate StartsWith(s: string, prefix: string) {
    |prefix| <= |s| && s[..|prefix|] == prefix
  }

  /** `String.prototype.includes`. */
  predicate Contains(s: string, sub: string)
    decreases |s|
  {
    StartsWith(s, sub) || (s != [] && Contains(s[1..], sub))
  }

  function DigitChar(d: nat): char
    requires d < 10
  {
    ('0' as int + d) as char
  }

  /** Decimal rendering of a count, as a template literal prints it. */
  function NatToString(n: nat): (r: string)
    ensures |r| >= 1
  {
    if n < 10 then [DigitChar(n)] else NatToString(n / 10) + [DigitChar(n % 10)]
  }

  lemma NatToStringShort(n: nat)
    ensures n < 10 <==> |NatToString(n)| == 1
  {
    if n >= 10 {
      assert |NatToString(n)| == |NatToString(n / 10)| + 1;
    }
  }

  /** Distinct counts render differently. */
  lemma {:induction false} NatToStringInjective(a: nat, b: nat)
    requires NatToString(a) == NatToString(b)
    ensures a == b
    decreases a
  {
    NatToStringShort(a);
    NatToStringShort(b);
    if a >= 10 {
      var sa := NatToString(a);
      assert sa == NatToString(a / 10) + [DigitChar(a % 10)];
      assert sa == NatToString(b / 10) + [DigitChar(b % 10)];
      assert sa[..|sa| - 1] == NatToString(a / 10) && sa[..|sa| - 1] == NatToString(b / 10);
      assert sa[|sa| - 1] == DigitChar(a % 10) && sa[|sa| - 1] == DigitChar(b % 10);
      NatToStringInjective(a / 10, b / 10);
    }
  }

  /** A string never contains a longer one. */
  lemma {:induction false} ContainsLonger(s: string, sub: string)
    requires |s| < |sub|
    ensures !Contains(s, sub)
    decreases |s|
  {
    if s != [] {
      ContainsLonger(s[1..], sub);
    }
  }

  /** `Array.prototype.join`. */
  function Join(parts: seq<string>, sep: string): string {
    if parts == [] then ""
    else if |parts| == 1 then parts[0]
    else parts[0] + sep + Join(parts[1..], sep)
  }

  /** `Math.max(lo, Math.min(hi, x))`. */
  function Clamp(x: int, lo: int, hi: int): (r: int)
    requires lo <= hi
    ensures lo <= r <= hi
    ensures lo <= x <= hi ==> r == x
  {
    if x < lo then lo else if x > hi then hi else x
  }

  /** A message pushed only when its condition holds. */
  function When<T>(c: bool, message: T): seq<T> {
    if c then [message] else []
  }

  function Count<T>(s: seq<T>, p: T -> bool): (n: nat)
    ensures n <= |s|
  {
    if s == [] then 0 else (if p(s[0]) then 1 else 0) + Count(s[1..], p)
  }

  function Filter<T>(s: seq<T>, p: T -> bool): (r: seq<T>)
    ensures |r| == Count(s, p)
    ensures forall x :: x in r ==> x in s && p(x)
    ensures forall x :: x in s && p(x) ==> x in r
  {
    if s == [] then [] else (if p(s[0]) then [s[0]] else []) + Filter(s[1..], p)
  }

  /** `f(s[k], n + k)` for each element `s[k]` that satisfies `keep`, in order: the
      kept elements, each with its position counted from `n`. */
  function NumberedKept<T, U>(s: seq<T>, n: nat, keep: T -> bool, f: (T, nat) -> U): seq<U> {
    if s == [] then [] else (if keep(s[0]) then [f(s[0], n)] else []) + NumberedKept(s[1..], n + 1, keep, f)
  }

  /** Each kept element appears, with its own position. */
  lemma {:induction false} NumberedKeptComplete<T, U>(s: seq<T>, n: nat, keep: T -> bool, f: (T, nat) -> U)
    ensures forall k :: 0 <= k < |s| && keep(s[k]) ==> f(s[k], n + k) in NumberedKept(s, n, keep, f)
  {
    if s != [] {
      var tail := s[1..];
      NumberedKeptComplete(tail, n + 1, keep, f);
      var head := if keep(s[0]) then [f(s[0], n)] else [];
      var rest := NumberedKept(tail, n + 1, keep, f);
      assert NumberedKept(s, n, keep, f) == head + rest;
      forall k | 0 <= k < |s| && keep(s[k])
        ensures f(s[k], n + k) in head + rest
      {
        if k > 0 {
          assert tail[k - 1] == s[k];
          assert n + 1 + (k - 1) == n + k;
        }
      }
    }
  }

  /** Nothing but the kept elements, with their positions, appears. */
  lemma {:induction false} NumberedKeptSound<T, U>(s: seq<T>, n: nat, keep: T -> bool, f: (T, nat) -> U)
    ensures forall x :: x in NumberedKept(s, n, keep, f) ==>
              exists k :: 0 <= k < |s| && keep(s[k]) && x == f(s[k], n + k)
  {
    if s != [] {
      var tail := s[1..];
      NumberedKeptSound(tail, n + 1, keep, f);
      var head := if keep(s[0]) then [f(s[0], n)] else [];
      var rest := NumberedKept(tail, n + 1, keep, f);
      assert NumberedKept(s, n, keep, f) == head + rest;
      forall x | x in head + rest
        ensures exists k :: 0 <= k < |s| && keep(s[k]) && x == f(s[k], n + k)
      {
        if x in head {
          assert keep(s[0]) && x == f(s[0], n + 0);
        } else {
          var j :| 0 <= j < |tail| && keep(tail[j]) && x == f(tail[j], n + 1 + j);
          assert tail[j] == s[j + 1];
          assert n + 1 + j == n + (j + 1);
        }
      }
    }
  }

  /** The values `f` yields for the elements of `s`, in order, skipping elements for
      which it yields nothing. */
  function Collected<T, U>(s: seq<T>, f: T -> Option<U>): seq<U> {
    if s == [] then []
    else Collected(s[..|s| - 1], f) + (match f(s[|s| - 1]) case Some(u) => [u] case None => [])
  }

  lemma {:induction false} CollectedIff<T, U>(s: seq<T>, f: T -> Option<U>, u: U)
    ensures u in Collected(s, f) <==> exists x :: x in s && f(x) == Some(u)
    ensures |Collected(s, f)| <= |s|
  {
    if s != [] {
      var init := s[..|s| - 1];
      var last := s[|s| - 1];
      CollectedIff(init, f, u);
      assert s == init + [last];
      if exists x :: x in s && f(x) == Some(u) {
        var x :| x in s && f(x) == Some(u);
        if x != last {
          assert x in init;
        }
      }
    }
  }

  /** Collecting over one more element of `s`. */
  lemma CollectedSnoc<T, U>(s: seq<T>, i: nat, f: T -> Option<U>)
    requires i < |s|
    ensures Collected(s[..i + 1], f) == Collected(s[..i], f) + if f(s[i]).Some? then [f(s[i]).value] else []
  {
    assert s[..i + 1][..i] == s[..i];
  }

  /** The sequences `f` gives for the elements of `s`, concatenated in order. */
  function Flattened<T, U>(s: seq<T>, f: T -> seq<U>): seq<U> {
    if s == [] then [] else Flattened(s[..|s| - 1], f) + f(s[|s| - 1])
  }

  /** When every element gives exactly one value, flattening lists those values. */
  lemma {:induction false} FlattenedSingles<T, U>(s: seq<T>, f: T -> seq<U>, g: seq<U>)
    requires |g| == |s|
    requires forall k :: 0 <= k < |s| ==> f(s[k]) == [g[k]]
    ensures Flattened(s, f) == g
    decreases |s|
  {
    if s != [] {
      var n := |s|;
      assert forall k :: 0 <= k < n - 1 ==> s[..n - 1][k] == s[k] && g[..n - 1][k] == g[k];
      FlattenedSingles(s[..n - 1], f, g[..n - 1]);
      assert g[..n - 1] + [g[n - 1]] == g;
    }
  }

  /** `CollectedIff` for every value at once. */
  lemma CollectedAllIff<T, U>(s: seq<T>, f: T -> Option<U>)
    ensures forall u :: u in Collected(s, f) <==> exists x :: x in s && f(x) == Some(u)
    ensures |Collected(s, f)| <= |s|
  {
    forall u
      ensures u in Collected(s, f) <==> exists x :: x in s && f(x) == Some(u)
    {
      CollectedIff(s, f, u);
    }
    if |Collected(s, f)| > 0 {
      CollectedIff(s, f, Collected(s, f)[0]);
    }
  }

  /** Collecting over a concatenation collects over each part. */
  lemma {:induction false} CollectedAppend<T, U>(a: seq<T>, b: seq<T>, f: T -> Option<U>)
    ensures Collected(a + b, f) == Collected(a, f) + Collected(b, f)
  {
    if b != [] {
      var init := b[..|b| - 1];
      var last := b[|b| - 1];
      CollectedAppend(a, init, f);
      assert (a + b)[..|a + b| - 1] == a + init;
      assert (a + b)[|a + b| - 1] == last;
      AppendAssoc(Collected(a, f), Collected(init, f), match f(last) case Some(u) => [u] case None => []);
    } else {
      assert a + b == a;
    }
  }

  /** Concatenation is associative; stated once so that large proof contexts need not
      rediscover it. */
  lemma AppendAssoc<T>(a: seq<T>, b: seq<T>, c: seq<T>)
    ensures (a + b) + c == a + (b + c)
  {
  }

  predicate NoDuplicates<T(==)>(s: seq<T>) {
    forall i, j :: 0 <= i < j < |s| ==> s[i] != s[j]
  }

  /** `Array.from(new Set(s))`: each value once, at the position of its first
      occurrence. */
  function Distinct<T(==)>(s: seq<T>): (r: seq<T>)
    ensures forall i :: 0 <= i < |r| ==> r[i] in s
    ensures forall i :: 0 <= i < |s| ==> s[i] in r
    ensures |r| <= |s|
    ensures NoDuplicates(r)
  {
    if s == [] then []
    else
      var d := Distinct(s[..|s| - 1]);
      if s[|s| - 1] in d then d else d + [s[|s| - 1]]
  }

  /** Appending values already present changes nothing. */
  lemma {:induction false} DistinctOfDistinct<T>(s: seq<T>)
    requires NoDuplicates(s)
    ensures Distinct(s) == s
  {
    if s != [] {
      var init := s[..|s| - 1];
      assert NoDuplicates(init) by {
        forall i, j | 0 <= i < j < |init| ensures init[i] != init[j] {
          assert init[i] == s[i] && init[j] == s[j];
        }
      }
      DistinctOfDistinct(init);
      assert s[|s| - 1] !in init by {
        forall i | 0 <= i < |init| ensures init[i] != s[|s| - 1] {
          assert init[i] == s[i];
        }
      }
      assert init + [s[|s| - 1]] == s;
    }
  }

  /** `s.slice(0, n)` for a non-negative `n`. */
  function Take<T>(s: seq<T>, n: nat): (r: seq<T>)
    ensures |r| <= n && |r| <= |s|
    ensures r == s[..|r|]
    ensures n >= |s| ==> r == s
  {
    if n >= |s| then s else s[..n]
  }

  /** `s.slice(0, end)`: a negative `end` counts from the back. */
  function SliceTo<T>(s: seq<T>, end: int): (r: seq<T>)
    ensures |r| <= |s| && r == s[..|r|]
    ensures end >= 0 ==> |r| <= end
    ensures end >= |s| ==> r == s
    ensures end < 0 ==> |r| == if |s| + end > 0 then |s| + end else 0
  {
    if end >= 0 then Take(s, end)
    else if |s| + end > 0 then s[..|s| + end]
    else []
  }

  /** `s.map(f)`. */
  function Mapped<T, U>(s: seq<T>, f: T -> U): (r: seq<U>)
    ensures |r| == |s| && forall k :: 0 <= k < |s| ==> r[k] == f(s[k])
  {
    seq(|s|, k requires 0 <= k < |s| => f(s[k]))
  }

  lemma MappedAppend<T, U>(a: seq<T>, b: seq<T>, f: T -> U)
    ensures Mapped(a + b, f) == Mapped(a, f) + Mapped(b, f)
  {
    assert forall k :: 0 <= k < |a + b| ==> Mapped(a + b, f)[k] == (Mapped(a, f) + Mapped(b, f))[k];
  }

  /** A loop pushing `f(x)` for each `x` of `s` onto `acc`. */
  method PushMapped<T, U>(acc: seq<U>, s: seq<T>, f: T -> U) returns (r: seq<U>)
    ensures r == acc + Mapped(s, f)
  {
    r := acc;
    var i := 0;
    while i < |s|
      invariant 0 <= i <= |s|
      invariant r == acc + Mapped(s[..i], f)
    {
      assert Mapped(s[..i + 1], f) == Mapped(s[..i], f) + [f(s[i])];
      r := r + [f(s[i])];
      i := i + 1;
    }
    assert s[..i] == s;
  }

  /** A loop pushing the value `f` yields for each `x` of `s` onto `acc`, skipping the
      elements for which it yields nothing. */
  method PushCollected<T, U>(acc: seq<U>, s: seq<T>, f: T -> Option<U>) returns (r: seq<U>)
    ensures r == acc + Collected(s, f)
  {
    r := acc;
    for i := 0 to |s|
      invariant r == acc + Collected(s[..i], f)
    {
      assert s[..i + 1][..i] == s[..i];
      var m := f(s[i]);
      if m.Some? {
        r := r + [m.value];
      }
    }
    assert s[..|s|] == s;
  }

  /** `s.split(sep)` for a one-character separator: the pieces between separators,
      always at least one. */
  function Split(s: string, sep: char): (r: seq<string>)
    ensures |r| >= 1
    ensures forall k :: 0 <= k < |r| ==> sep !in r[k]
    decreases |s|
  {
    if s == [] then [""]
    else
      var rest := Split(s[1..], sep);
      if s[0] == sep then [""] + rest else [[s[0]] + rest[0]] + rest[1..]
  }

  /** Joining the pieces with the separator gives back the original. */
  lemma {:induction false} SplitJoin(s: string, sep: char)
    ensures Join(Split(s, sep), [sep]) == s
    decreases |s|
  {
    if s != [] {
      var rest := Split(s[1..], sep);
      SplitJoin(s[1..], sep);
      if s[0] == sep {
        assert Split(s, sep) == [""] + rest;
        assert ([""] + rest)[1..] == rest;
        assert [s[0]] + s[1..] == s;
      } else {
        var r := Split(s, sep);
        assert r == [[s[0]] + rest[0]] + rest[1..];
        if |rest| == 1 {
          assert s == [s[0]] + s[1..];
        } else {
          assert r[1..] == rest[1..];
          assert Join(rest, [sep]) == rest[0] + [sep] + Join(rest[1..], [sep]);
          assert s == [s[0]] + s[1..];
        }
      }
    }
  }

  /** A filter keeps nothing exactly when no element passes. */
  lemma {:induction false} FilterEmpty<T>(s: seq<T>, p: T -> bool)
    ensures Filter(s, p) == [] <==> forall k :: 0 <= k < |s| ==> !p(s[k])
  {
    if s != [] {
      FilterEmpty(s[1..], p);
      assert forall k :: 1 <= k < |s| ==> s[k] == s[1..][k - 1];
    }
  }

  /** Splitting a piece without the separator, followed by the separator, yields that
      piece first. */
  lemma {:induction false} SplitAfterPiece(a: string, b: string, sep: char)
    requires sep !in a
    ensures Split(a + [sep] + b, sep) == [a] + Split(b, sep)
    decreases |a|
  {
    if a == [] {
      assert [] + [sep] + b == [sep] + b;
      assert ([sep] + b)[1..] == b;
    } else {
      SplitAfterPiece(a[1..], b, sep);
      assert (a + [sep] + b)[1..] == a[1..] + [sep] + b;
      assert [a[0]] + a[1..] == a;
    }
  }

  /** A piece without the separator splits into itself. */
  lemma {:induction false} SplitOfPiece(a: string, sep: char)
    requires sep !in a
    ensures Split(a, sep) == [a]
    decreases |a|
  {
    if a != [] {
      SplitOfPiece(a[1..], sep);
      assert [a[0]] + a[1..] == a;
    }
  }

  /** Splitting undoes joining, when no piece holds the separator. */
  lemma {:induction false} JoinSplit(parts: seq<string>, sep: char)
    requires |parts| >= 1
    requires forall k :: 0 <= k < |parts| ==> sep !in parts[k]
    ensures Split(Join(parts, [sep]), sep) == parts
    decreases |parts|
  {
    if |parts| == 1 {
      SplitOfPiece(parts[0], sep);
    } else {
      JoinSplit(parts[1..], sep);
      SplitAfterPiece(parts[0], Join(parts[1..], [sep]), sep);
      assert [parts[0]] + parts[1..] == parts;
    }
  }

  /** Collecting a sequence on which `f` always yields a value gives those values. */
  lemma {:induction false} CollectedAllSome<T, U>(s: seq<T>, f: T -> Option<U>, g: seq<U>)
    requires |g| == |s|
    requires forall k :: 0 <= k < |s| ==> f(s[k]) == Some(g[k])
    ensures Collected(s, f) == g
    decreases |s|
  {
    if s != [] {
      CollectedAllSome(s[..|s| - 1], f, g[..|g| - 1]);
      assert g[..|g| - 1] + [g[|g| - 1]] == g;
    }
  }

  /** `s.split(sep)` for a separator string: the pieces between the leftmost
      non-overlapping occurrences of `sep`, always at least one. */
  function SplitOn(s: string, sep: string): (r: seq<string>)
    requires sep != []
    ensures |r| >= 1
    decreases |s|
  {
    if |s| < |sep| then [s]
    else if s[..|sep|] == sep then [""] + SplitOn(s[|sep|..], sep)
    else
      var rest := SplitOn(s[1..], sep);
      [[s[0]] + rest[0]] + rest[1..]
  }

  /** Prepending a character to the first piece prepends it to the joined string. */
  lemma JoinOntoFirst(c: char, parts: seq<string>, sep: string)
    requires |parts| >= 1
    ensures Join([[c] + parts[0]] + parts[1..], sep) == [c] + Join(parts, sep)
  {
    var r := [[c] + parts[0]] + parts[1..];
    if |parts| > 1 {
      assert r[1..] == parts[1..];
      calc {
        Join(r, sep);
        ([c] + parts[0]) + sep + Join(parts[1..], sep);
        [c] + (parts[0] + sep + Join(parts[1..], sep));
      }
    }
  }

  /** An empty first piece puts the separator in front. */
  lemma JoinAfterEmpty(parts: seq<string>, sep: string)
    requires |parts| >= 1
    ensures Join([""] + parts, sep) == sep + Join(parts, sep)
  {
    assert ([""] + parts)[1..] == parts;
  }

  /** Joining the pieces with the separator gives back the original. */
  lemma {:induction false} SplitOnJoin(s: string, sep: string)
    requires sep != []
    ensures Join(SplitOn(s, sep), sep) == s
    decreases |s|
  {
    if |s| >= |sep| {
      if s[..|sep|] == sep {
        SplitOnJoin(s[|sep|..], sep);
        JoinAfterEmpty(SplitOn(s[|sep|..], sep), sep);
        assert s == s[..|sep|] + s[|sep|..];
      } else {
        SplitOnJoin(s[1..], sep);
        JoinOntoFirst(s[0], SplitOn(s[1..], sep), sep);
        assert s == [s[0]] + s[1..];
      }
    }
  }

  /** `s.replace(/pat/g, '')` for a literal pattern: every leftmost non-overlapping
      occurrence removed. */
  function RemoveAll(s: string, pat: string): (r: string)
    requires pat != []
    ensures |r| <= |s|
    decreases |s|
  {
    if |s| < |pat| then s
    else if s[..|pat|] == pat then RemoveAll(s[|pat|..], pat)
    else [s[0]] + RemoveAll(s[1..], pat)
  }

  predicate EndsWith(s: string, suffix: string) {
    |suffix| <= |s| && s[|s| - |suffix|..] == suffix
  }
}
