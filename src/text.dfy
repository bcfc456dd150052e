/**
 * The parts of Go's `strings`, `strconv`, `slices` and `lo` packages that the
 * profiling collector relies on, stated over Dafny strings: lexicographic
 * order and sorting, splitting and joining, prefix/suffix trimming,
 * deduplication and decimal formatting/parsing of 64-bit integers.
 */
module Text {
  import opened Wrappers

  // ---------------------------------------------------------------------------
  // Lexicographic order (Go's `<=` on strings)
  // ---------------------------------------------------------------------------

  /** `a <= b` in Go: a is a prefix of b, or the first difference is smaller in a. */
  predicate LessEq(a: string, b: string)
    decreases |a|
  {
    a == [] || (b != [] && (a[0] < b[0] || (a[0] == b[0] && LessEq(a[1..], b[1..]))))
  }

  /** Go's strict `a < b` on strings. */
  predicate Less(a: string, b: string)
  {
    !LessEq(b, a)
  }

  lemma {:induction false} LessEqReflexive(a: string)
    ensures LessEq(a, a)
    decreases |a|
  {
    if a != [] {
      LessEqReflexive(a[1..]);
    }
  }

  lemma {:induction false} LessEqTotal(a: string, b: string)
    ensures LessEq(a, b) || LessEq(b, a)
    decreases |a|
  {
    if a != [] && b != [] && a[0] == b[0] {
      LessEqTotal(a[1..], b[1..]);
    }
  }

  lemma {:induction false} LessEqTransitive(a: string, b: string, c: string)
    requires LessEq(a, b) && LessEq(b, c)
    ensures LessEq(a, c)
    decreases |a|
  {
    if a != [] && b != [] && c != [] && a[0] == b[0] && b[0] == c[0] {
      LessEqTransitive(a[1..], b[1..], c[1..]);
    }
  }

  lemma {:induction false} LessEqAntisymmetric(a: string, b: string)
    requires LessEq(a, b) && LessEq(b, a)
    ensures a == b
    decreases |a|
  {
    if a != [] && b != [] {
      LessEqAntisymmetric(a[1..], b[1..]);
      assert a == [a[0]] + a[1..] && b == [b[0]] + b[1..];
    }
  }

  // ---------------------------------------------------------------------------
  // Sorting (`slices.Sort`, `slices.SortFunc`)
  // ---------------------------------------------------------------------------

  function Id(s: string): string { s }

  /** Every neighbouring pair is in order of `key`. */
  predicate SortedBy<T>(s: seq<T>, key: T -> string)
  {
    forall i :: 0 < i < |s| ==> LessEq(key(s[i - 1]), key(s[i]))
  }

  lemma {:induction false} SortedByPairwise<T>(s: seq<T>, key: T -> string, i: int, j: int)
    requires SortedBy(s, key) && 0 <= i <= j < |s|
    ensures LessEq(key(s[i]), key(s[j]))
    decreases j - i
  {
    if i == j {
      LessEqReflexive(key(s[i]));
    } else {
      SortedByPairwise(s, key, i, j - 1);
      LessEqTransitive(key(s[i]), key(s[j - 1]), key(s[j]));
    }
  }

  /** In a sorted non-empty sequence no element's key is above the last one's. */
  lemma SortedLastIsGreatest<T>(s: seq<T>, key: T -> string)
    requires SortedBy(s, key) && |s| > 0
    ensures forall k :: 0 <= k < |s| ==> LessEq(key(s[k]), key(s[|s| - 1]))
  {
    forall k | 0 <= k < |s|
      ensures LessEq(key(s[k]), key(s[|s| - 1]))
    {
      SortedByPairwise(s, key, k, |s| - 1);
    }
  }

  /** What holds while the element that started at `i` moves down to `j`. */
  predicate Inserting<T>(s: seq<T>, key: T -> string, j: int, i: int)
  {
    && 0 <= j <= i < |s|
    && SortedBy(s[..j], key)
    && SortedBy(s[j..i + 1], key)
    && (0 < j < i ==> LessEq(key(s[j - 1]), key(s[j + 1])))
  }

  /** One swap of the insertion step keeps `Inserting` one position further down. */
  lemma InsertingStep<T>(s: seq<T>, key: T -> string, j: int, i: int)
    requires Inserting(s, key, j, i) && j > 0 && !LessEq(key(s[j - 1]), key(s[j]))
    ensures Inserting(s[j - 1 := s[j]][j := s[j - 1]], key, j - 1, i)
    ensures multiset(s[j - 1 := s[j]][j := s[j - 1]]) == multiset(s)
  {
    LessEqTotal(key(s[j - 1]), key(s[j]));
    var t := s[j - 1 := s[j]][j := s[j - 1]];
    assert t[..j - 1] == s[..j - 1];
    var u, w := t[j - 1..i + 1], s[j..i + 1];
    forall k | 0 < k < |u|
      ensures LessEq(key(u[k - 1]), key(u[k]))
    {
      if k > 2 {
        assert u[k - 1] == w[k - 2] && u[k] == w[k - 1];
      }
    }
    if 0 < j - 1 {
      assert s[..j][j - 2] == s[j - 2] && s[..j][j - 1] == s[j - 1];
    }
  }

  /** Ending the insertion step: the first `i + 1` elements are sorted. */
  lemma InsertingDone<T>(s: seq<T>, key: T -> string, j: int, i: int)
    requires Inserting(s, key, j, i) && (j == 0 || LessEq(key(s[j - 1]), key(s[j])))
    ensures SortedBy(s[..i + 1], key)
  {
    var u := s[..i + 1];
    forall k | 0 < k < |u|
      ensures LessEq(key(u[k - 1]), key(u[k]))
    {
      if k < j {
        assert s[..j][k - 1] == s[k - 1] && s[..j][k] == s[k];
      } else if k > j {
        assert s[j..i + 1][k - 1 - j] == s[k - 1] && s[j..i + 1][k - j] == s[k];
      }
    }
  }

  /** An in-place insertion sort by `key`; one of the orders Go's sort may produce. */
  method SortBy<T>(a: array<T>, key: T -> string)
    modifies a
    ensures SortedBy(a[..], key)
    ensures multiset(a[..]) == old(multiset(a[..]))
  {
    var i := 0;
    while i < a.Length
      invariant 0 <= i <= a.Length
      invariant SortedBy(a[..i], key)
      invariant multiset(a[..]) == old(multiset(a[..]))
    {
      Insert(a, key, i);
      i := i + 1;
    }
    assert a[..a.Length] == a[..];
  }

  /** Moves `a[i]` down into the sorted prefix `a[..i]`. */
  method Insert<T>(a: array<T>, key: T -> string, i: int)
    requires 0 <= i < a.Length && SortedBy(a[..i], key)
    modifies a
    ensures SortedBy(a[..i + 1], key)
    ensures multiset(a[..]) == old(multiset(a[..]))
  {
    var j := i;
    assert a[..i + 1][..j] == a[..i];
    while j > 0 && !LessEq(key(a[j - 1]), key(a[j]))
      invariant Inserting(a[..], key, j, i)
      invariant multiset(a[..]) == old(multiset(a[..]))
    {
      InsertingStep(a[..], key, j, i);
      a[j - 1], a[j] := a[j], a[j - 1];
      j := j - 1;
    }
    InsertingDone(a[..], key, j, i);
    assert a[..][..i + 1] == a[..i + 1];
  }

  /** A non-empty set has an element. */
  lemma NonEmptyHasElement<T>(s: set<T>)
    requires s != {}
    ensures exists x :: x in s
  {
    var e: set<T> := {};
    assert s != e;
  }

  /** The lexicographically greatest element of a finite non-empty set of strings. */
  ghost function Greatest(S: set<string>): (m: string)
    requires S != {}
    ensures m in S && forall x :: x in S ==> LessEq(x, m)
  {
    GreatestExists(S);
    var m :| IsGreatest(S, m);
    m
  }

  /** `m` is an element of `S` that no element of `S` exceeds. */
  predicate IsGreatest(S: set<string>, m: string)
  {
    m in S && forall x :: x in S ==> LessEq(x, m)
  }

  lemma {:induction false} GreatestExists(S: set<string>)
    requires S != {}
    ensures exists m :: IsGreatest(S, m)
    decreases S
  {
    var y :| y in S;
    if S == {y} {
      LessEqReflexive(y);
      assert IsGreatest(S, y);
    } else {
      GreatestExists(S - {y});
      var m :| IsGreatest(S - {y}, m);
      GreatestStep(S, y, m);
    }
  }

  /** Adding `y` back to `S - {y}` keeps the greater of `y` and the old greatest. */
  lemma GreatestStep(S: set<string>, y: string, m: string)
    requires y in S && IsGreatest(S - {y}, m)
    ensures IsGreatest(S, if LessEq(y, m) then m else y)
  {
    LessEqReflexive(y);
    if LessEq(y, m) {
      assert forall x :: x in S ==> x == y || x in S - {y};
    } else {
      LessEqTotal(m, y);
      forall x | x in S
        ensures LessEq(x, y)
      {
        if x != y {
          LessEqTransitive(x, m, y);
        }
      }
    }
  }

  ghost function Elements<T>(s: seq<T>): set<T>
  {
    set x | x in s
  }

  /** The last element of a sorted sequence of distinct strings is the greatest one. */
  lemma SortedLastIsGreatestString(s: seq<string>)
    requires SortedBy(s, Id) && |s| > 0
    ensures s[0] in Elements(s) && s[|s| - 1] == Greatest(Elements(s))
  {
    var S := Elements(s);
    assert s[0] in S;
    var g := Greatest(S);
    SortedLastIsGreatest(s, Id);
    var k :| 0 <= k < |s| && s[k] == g;
    assert LessEq(s[k], s[|s| - 1]);
    assert LessEq(s[|s| - 1], g);
    LessEqAntisymmetric(g, s[|s| - 1]);
  }

  // ---------------------------------------------------------------------------
  // strings.Split / strings.Join on a one-character separator
  // ---------------------------------------------------------------------------

  /** `strings.Split(s, string(c))`: never empty, no part contains the separator. */
  function Split(s: string, c: char): (parts: seq<string>)
    ensures |parts| >= 1
    ensures forall i :: 0 <= i < |parts| ==> c !in parts[i]
    decreases |s|
  {
    if s == [] then [""]
    else
      var rest := Split(s[1..], c);
      if s[0] == c then [""] + rest
      else [[s[0]] + rest[0]] + rest[1..]
  }

  /** `strings.Join(parts, sep)`. */
  function Join(parts: seq<string>, sep: string): string
    decreases |parts|
  {
    if |parts| == 0 then ""
    else if |parts| == 1 then parts[0]
    else parts[0] + sep + Join(parts[1..], sep)
  }

  /** Joining the parts of a split with the separator gives the input back. */
  lemma {:induction false} JoinSplit(s: string, c: char)
    ensures Join(Split(s, c), [c]) == s
    decreases |s|
  {
    if s != [] {
      var rest := Split(s[1..], c);
      JoinSplit(s[1..], c);
      if s[0] == c {
        assert Split(s, c) == [""] + rest;
        assert Join([""] + rest, [c]) == "" + [c] + Join(rest, [c]);
      } else {
        var parts := Split(s, c);
        assert parts == [[s[0]] + rest[0]] + rest[1..];
        if |rest| == 1 {
          assert Join(parts, [c]) == [s[0]] + rest[0];
        } else {
          assert parts[1..] == rest[1..];
          assert Join(rest, [c]) == rest[0] + [c] + Join(rest[1..], [c]);
          assert Join(parts, [c]) == [s[0]] + rest[0] + [c] + Join(rest[1..], [c]);
        }
      }
    }
  }

  /** A string without the separator splits into itself. */
  lemma {:induction false} SplitNoSeparator(p: string, c: char)
    requires c !in p
    ensures Split(p, c) == [p]
    decreases |p|
  {
    if p != [] {
      SplitNoSeparator(p[1..], c);
      assert [p[0]] + p[1..] == p;
    }
  }

  /** Splitting distributes over a separator occurrence. */
  lemma {:induction false} SplitAround(a: string, b: string, c: char)
    ensures Split(a + [c] + b, c) == Split(a, c) + Split(b, c)
    decreases |a|
  {
    var s := a + [c] + b;
    if a == [] {
      assert s[1..] == b;
    } else {
      assert s[1..] == a[1..] + [c] + b;
      SplitAround(a[1..], b, c);
    }
  }

  /** Splitting a join of separator-free parts gives the parts back. */
  lemma {:induction false} SplitJoin(parts: seq<string>, c: char)
    requires |parts| >= 1
    requires forall i :: 0 <= i < |parts| ==> c !in parts[i]
    ensures Split(Join(parts, [c]), c) == parts
    decreases |parts|
  {
    SplitNoSeparator(parts[0], c);
    if |parts| > 1 {
      SplitJoin(parts[1..], c);
      SplitAround(parts[0], Join(parts[1..], [c]), c);
      assert [parts[0]] + parts[1..] == parts;
    }
  }

  /** `path.Base` of a cleaned path: the text after the last '/'. */
  function Base(p: string): (b: string)
    ensures '/' !in b
  {
    var parts := Split(p, '/');
    parts[|parts| - 1]
  }

  // ---------------------------------------------------------------------------
  // Prefix, suffix and space trimming, character replacement, counting
  // ---------------------------------------------------------------------------

  predicate HasPrefix(s: string, p: string) { |p| <= |s| && s[..|p|] == p }
  predicate HasSuffix(s: string, p: string) { |p| <= |s| && s[|s| - |p|..] == p }

  /** `strings.TrimPrefix`: removes one leading copy of p, if present. */
  function TrimPrefix(s: string, p: string): (r: string)
    ensures HasPrefix(s, p) ==> s == p + r
    ensures !HasPrefix(s, p) ==> r == s
  {
    if HasPrefix(s, p) then s[|p|..] else s
  }

  /** `strings.TrimSuffix`: removes one trailing copy of p, if present. */
  function TrimSuffix(s: string, p: string): (r: string)
    ensures HasSuffix(s, p) ==> s == r + p
    ensures !HasSuffix(s, p) ==> r == s
  {
    if HasSuffix(s, p) then s[..|s| - |p|] else s
  }

  /** `unicode.IsSpace`. */
  predicate IsSpace(c: char)
  {
    || c == ' ' || c == '\t' || c == '\n' || c == '\r' || c == '\U{0B}' || c == '\U{0C}'
    || c == '\U{85}' || c == '\U{A0}' || c == '\U{1680}'
    || ('\U{2000}' <= c <= '\U{200A}')
    || c == '\U{2028}' || c == '\U{2029}' || c == '\U{202F}' || c == '\U{205F}' || c == '\U{3000}'
  }

  function TrimLeftSpace(s: string): (r: string)
    ensures |r| <= |s| && r == s[|s| - |r|..]
    ensures forall i :: 0 <= i < |s| - |r| ==> IsSpace(s[i])
    ensures r == [] || !IsSpace(r[0])
    decreases |s|
  {
    if s != [] && IsSpace(s[0]) then TrimLeftSpace(s[1..]) else s
  }

  function TrimRightSpace(s: string): (r: string)
    ensures |r| <= |s| && r == s[..|r|]
    ensures forall i :: |r| <= i < |s| ==> IsSpace(s[i])
    ensures r == [] || !IsSpace(r[|r| - 1])
    decreases |s|
  {
    if s != [] && IsSpace(s[|s| - 1]) then TrimRightSpace(s[..|s| - 1]) else s
  }

  /** `strings.TrimSpace`: drops leading and trailing white space and nothing else. */
  function TrimSpace(s: string): (r: string)
    ensures r == [] || (!IsSpace(r[0]) && !IsSpace(r[|r| - 1]))
  {
    TrimRightSpace(TrimLeftSpace(s))
  }

  lemma TrimSpaceIdempotent(s: string)
    ensures TrimSpace(TrimSpace(s)) == TrimSpace(s)
  {
    var r := TrimSpace(s);
    assert TrimLeftSpace(r) == r;
    assert TrimRightSpace(r) == r;
  }

  /** `strings.ReplaceAll` with one-character old and new strings. */
  function ReplaceChar(s: string, from: char, to: char): (r: string)
    ensures |r| == |s|
    ensures forall i :: 0 <= i < |s| ==> r[i] == (if s[i] == from then to else s[i])
  {
    seq(|s|, i requires 0 <= i < |s| => if s[i] == from then to else s[i])
  }

  /** Joining parts that avoid a character, with a separator other than it, avoids it too. */
  lemma {:induction false} NoCharInJoin(parts: seq<string>, sep: char, c: char)
    requires c != sep
    requires forall i :: 0 <= i < |parts| ==> c !in parts[i]
    ensures c !in Join(parts, [sep])
    decreases |parts|
  {
    if |parts| > 1 {
      NoCharInJoin(parts[1..], sep, c);
    }
  }

  /** `strings.Count` with a one-character substring. */
  function Count(s: string, c: char): nat
  {
    if s == [] then 0 else (if s[0] == c then 1 else 0) + Count(s[1..], c)
  }

  lemma {:induction false} CountAppend(a: string, b: string, c: char)
    ensures Count(a + b, c) == Count(a, c) + Count(b, c)
    decreases |a|
  {
    if a == [] {
      assert a + b == b;
    } else {
      assert (a + b)[0] == a[0] && (a + b)[1..] == a[1..] + b;
      CountAppend(a[1..], b, c);
    }
  }

  /** Cutting a string before an occurrence of c leaves fewer occurrences of c. */
  lemma CountBefore(s: string, i: int, c: char)
    requires 0 <= i < |s| && s[i] == c
    ensures Count(s[..i], c) < Count(s, c)
  {
    assert s == s[..i] + s[i..];
    CountAppend(s[..i], s[i..], c);
  }

  // ---------------------------------------------------------------------------
  // Deduplication (`lo.Uniq`)
  // ---------------------------------------------------------------------------

  predicate NoDup<T(==)>(s: seq<T>)
  {
    forall i, j :: 0 <= i < j < |s| ==> s[i] != s[j]
  }

  lemma NoDupSnoc<T>(s: seq<T>, x: T)
    requires NoDup(s) && x !in s
    ensures NoDup(s + [x])
  {
    var t := s + [x];
    forall i, j | 0 <= i < j < |t|
      ensures t[i] != t[j]
    {
      if j < |s| {
        assert t[i] == s[i] && t[j] == s[j];
      } else {
        assert t[i] == s[i];
      }
    }
  }

  lemma NoDupSnocIff<T>(s: seq<T>)
    requires |s| > 0
    ensures NoDup(s) <==> NoDup(s[..|s| - 1]) && s[|s| - 1] !in s[..|s| - 1]
  {
    var p, y := s[..|s| - 1], s[|s| - 1];
    if NoDup(p) && y !in p {
      assert s == p + [y];
      NoDupSnoc(p, y);
    }
    if NoDup(s) {
      forall i, j | 0 <= i < j < |p|
        ensures p[i] != p[j]
      {
        assert p[i] == s[i] && p[j] == s[j];
      }
      forall i | 0 <= i < |p|
        ensures p[i] != y
      {
        assert p[i] == s[i];
      }
    }
  }

  /** A sequence has at most as many distinct elements as entries, and exactly as many when it has no duplicates. */
  lemma {:induction false} NoDupCard<T>(s: seq<T>)
    ensures |Elements(s)| <= |s|
    ensures NoDup(s) <==> |Elements(s)| == |s|
    decreases |s|
  {
    if s != [] {
      var p, y := s[..|s| - 1], s[|s| - 1];
      NoDupCard(p);
      NoDupSnocIff(s);
      assert s == p + [y];
      assert Elements(s) == Elements(p) + {y};
      if y in p {
        assert y in Elements(p);
        assert Elements(s) == Elements(p);
      } else {
        assert y !in Elements(p);
      }
    }
  }

  /** A duplicate-free sequence whose elements are exactly x is [x]. */
  lemma NoDupSingleton<T>(s: seq<T>, x: T)
    requires NoDup(s) && forall y :: y in s <==> y == x
    ensures s == [x]
  {
    NoDupCard(s);
    assert Elements(s) == {x};
    assert s[0] in s;
  }

  /** The position of the first occurrence of x in s. */
  function FirstIndex<T(==)>(s: seq<T>, x: T): (i: nat)
    requires x in s
    ensures i < |s| && s[i] == x && forall j :: 0 <= j < i ==> s[j] != x
  {
    if s[0] == x then 0 else FirstIndex(s[1..], x) + 1
  }

  /** r lists elements of s in the order of their first occurrences in s. */
  predicate InFirstOccurrenceOrder<T(==)>(r: seq<T>, s: seq<T>)
  {
    forall i, j :: 0 <= i < j < |r| ==> r[i] in s && r[j] in s && FirstIndex(s, r[i]) < FirstIndex(s, r[j])
  }

  /** A position holding x with no x before it is the first occurrence. */
  lemma FirstIndexUnique<T>(s: seq<T>, x: T, i: int)
    requires 0 <= i < |s| && s[i] == x && forall j :: 0 <= j < i ==> s[j] != x
    ensures FirstIndex(s, x) == i
  {
  }

  /**
   * `lo.Uniq`: every element once, at the place of its first occurrence, so
   * the kept elements appear in the order they first occur in the input.
   */
  function Uniq<T(==,!new)>(s: seq<T>): (r: seq<T>)
    ensures forall x :: x in r <==> x in s
    ensures NoDup(r)
    ensures InFirstOccurrenceOrder(r, s)
    ensures s != [] ==> r != [] && r[0] == s[0]
    decreases |s|
  {
    if s == [] then []
    else
      var init := s[..|s| - 1];
      var u := Uniq(init);
      UniqFirstIndices(s, u);
      if s[|s| - 1] in init then u
      else
        FirstIndexUnique(s, s[|s| - 1], |s| - 1);
        u + [s[|s| - 1]]
  }

  /** Dropping the last element keeps the first index of everything before it. */
  lemma UniqFirstIndices<T>(s: seq<T>, u: seq<T>)
    requires s != [] && forall i :: 0 <= i < |u| ==> u[i] in s[..|s| - 1]
    ensures forall i :: 0 <= i < |u| ==> FirstIndex(s, u[i]) == FirstIndex(s[..|s| - 1], u[i])
  {
    var init := s[..|s| - 1];
    forall i | 0 <= i < |u|
      ensures FirstIndex(s, u[i]) == FirstIndex(init, u[i])
    {
      var k := FirstIndex(init, u[i]);
      assert forall j :: 0 <= j < k ==> s[j] == init[j];
      FirstIndexUnique(s, u[i], k);
    }
  }

  // ---------------------------------------------------------------------------
  // Decimal formatting (`%d`) and `strconv.ParseInt(s, 10, 64)`
  // ---------------------------------------------------------------------------

  const MinInt64: int := -0x8000_0000_0000_0000
  const MaxInt64: int := 0x7FFF_FFFF_FFFF_FFFF

  predicate IsDigit(c: char) { '0' <= c <= '9' }

  predicate AllDigits(s: string) { forall i :: 0 <= i < |s| ==> IsDigit(s[i]) }

  function DigitChar(d: nat): (c: char)
    requires d < 10
    ensures IsDigit(c) && c as int - '0' as int == d
  {
    ('0' as int + d) as char
  }

  /** The decimal digits of a natural number, most significant first. */
  function NatDigits(n: nat): (s: string)
    ensures |s| >= 1 && AllDigits(s)
  {
    if n < 10 then [DigitChar(n)] else NatDigits(n / 10) + [DigitChar(n % 10)]
  }

  /** `fmt.Sprintf("%d", n)`. */
  function FormatInt(n: int): (s: string)
    ensures |s| >= 1
    ensures forall i :: 0 <= i < |s| ==> IsDigit(s[i]) || s[i] == '-'
    ensures forall i :: 1 <= i < |s| ==> IsDigit(s[i])
  {
    if n < 0 then "-" + NatDigits(-n) else NatDigits(n)
  }

  /** The value of a string of decimal digits. */
  function DigitsValue(s: string): nat
    requires AllDigits(s)
  {
    if s == [] then 0 else 10 * DigitsValue(s[..|s| - 1]) + (s[|s| - 1] as int - '0' as int)
  }

  lemma {:induction false} DigitsValueOfNatDigits(n: nat)
    ensures DigitsValue(NatDigits(n)) == n
  {
    if n >= 10 {
      DigitsValueOfNatDigits(n / 10);
      var s := NatDigits(n);
      assert s[..|s| - 1] == NatDigits(n / 10);
    }
  }

  /** `strconv.ParseInt(s, 10, 64)`: optional sign, at least one digit, 64-bit range. */
  function ParseInt(s: string): (r: Result<int>)
    ensures r.Ok? ==> MinInt64 <= r.value <= MaxInt64
  {
    var digits := if s != [] && (s[0] == '+' || s[0] == '-') then s[1..] else s;
    if digits == [] || !AllDigits(digits) then Err("strconv.ParseInt: invalid syntax")
    else
      var v: int := if s[0] == '-' then -(DigitsValue(digits) as int) else DigitsValue(digits);
      if v < MinInt64 || MaxInt64 < v then Err("strconv.ParseInt: value out of range")
      else Ok(v)
  }

  /** Parsing what `%d` printed for a 64-bit integer gives the integer back. */
  lemma ParseFormatInt(n: int)
    requires MinInt64 <= n <= MaxInt64
    ensures ParseInt(FormatInt(n)) == Ok(n)
  {
    if n < 0 {
      ParseNegativeDigits(-n);
    } else {
      ParseNatDigits(n);
    }
  }

  lemma ParseNatDigits(n: nat)
    requires n <= MaxInt64
    ensures ParseInt(NatDigits(n)) == Ok(n)
  {
    var d := NatDigits(n);
    DigitsValueOfNatDigits(n);
    assert IsDigit(d[0]);
  }

  lemma ParseNegativeDigits(m: nat)
    requires 0 < m <= -MinInt64
    ensures ParseInt("-" + NatDigits(m)) == Ok(-(m as int))
  {
    var d := NatDigits(m);
    DigitsValueOfNatDigits(m);
    assert ("-" + d)[0] == '-' && ("-" + d)[1..] == d;
  }

  lemma FormatIntAvoids(n: int, c: char)
    requires !IsDigit(c) && c != '-'
    ensures c !in FormatInt(n)
  {
  }
}
