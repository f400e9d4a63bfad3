/**
 The order setting names are sorted in: runs of digits compare as numbers, everything else
 byte by byte. The loop is proved equal to a lexicographic order on keys, one integer per
 maximal digit run or single byte, from which the order's laws follow.
 */
module VersionOrder {
  import opened Bytes

  const MAX_INT := 0x7fff_ffff_ffff_ffff

  /** The length of the digit run s starts with. */
  function Run(s: seq<Byte>): (n: nat)
    ensures n <= |s|
    ensures forall i :: 0 <= i < n ==> IsDigit(s[i])
    ensures n < |s| ==> !IsDigit(s[n])
  {
    if s == [] || !IsDigit(s[0]) then 0 else 1 + Run(s[1..])
  }

  method DigitRun(s: seq<Byte>) returns (n: nat)
    ensures n <= |s|
    ensures forall i :: 0 <= i < n ==> IsDigit(s[i])
    ensures n < |s| ==> !IsDigit(s[n])
    ensures n == Run(s)
  {
    n := 0;
    while n < |s| && IsDigit(s[n])
      invariant n <= |s|
      invariant forall i :: 0 <= i < n ==> IsDigit(s[i])
    {
      n := n + 1;
    }
  }

  /** The number a run of digits writes in base ten. */
  function Value(d: seq<Byte>): int {
    if d == [] then 0 else 10 * Value(d[..|d| - 1]) + d[|d| - 1] - '0' as int
  }

  /** strconv.Atoi with its error ignored: a number past the widest int reads as that int. */
  function Atoi(d: seq<Byte>): int {
    if Value(d) > MAX_INT then MAX_INT else Value(d)
  }

  /** Where a byte that is not a digit sorts: outside every number, on its own side of '0'. */
  function Rank(b: Byte): int {
    if b < '0' as int then b - '0' as int else MAX_INT + 1 + b
  }

  function Key(s: seq<Byte>): seq<int> {
    if s == [] then []
    else if Run(s) > 0 then [Atoi(s[..Run(s)])] + Key(s[Run(s)..])
    else [Rank(s[0])] + Key(s[1..])
  }

  predicate LexLess(x: seq<int>, y: seq<int>) {
    if y == [] then false
    else if x == [] then true
    else if x[0] != y[0] then x[0] < y[0]
    else LexLess(x[1..], y[1..])
  }

  predicate Less(a: seq<Byte>, b: seq<Byte>) {
    LexLess(Key(a), Key(b))
  }

  predicate Tie(a: seq<Byte>, b: seq<Byte>) {
    !Less(a, b) && !Less(b, a)
  }

  method VersionLess(a0: seq<Byte>, b0: seq<Byte>) returns (less: bool)
    ensures less == Less(a0, b0)
  {
    var a, b := a0, b0;
    while a != [] && b != []
      invariant Less(a, b) == Less(a0, b0)
      decreases |a|
    {
      var da := DigitRun(a);
      var db := DigitRun(b);
      if da > 0 && db > 0 {
        var na := Atoi(a[..da]);
        var nb := Atoi(b[..db]);
        if na != nb {
          return na < nb;
        }
        a, b := a[da..], b[db..];
        continue;
      }
      ValueBounds(a[..da]);
      ValueBounds(b[..db]);
      if a[0] != b[0] {
        return a[0] < b[0];
      }
      a, b := a[1..], b[1..];
    }
    return |a| < |b|;
  }

  lemma {:induction false} ValueBounds(d: seq<Byte>)
    requires forall i :: 0 <= i < |d| ==> IsDigit(d[i])
    ensures Value(d) >= 0
  {
    if d != [] {
      ValueBounds(d[..|d| - 1]);
    }
  }

  lemma {:induction false} LexTransitive(x: seq<int>, y: seq<int>, z: seq<int>)
    requires LexLess(x, y) && LexLess(y, z)
    ensures LexLess(x, z)
  {
    if x != [] && x[0] == y[0] == z[0] {
      LexTransitive(x[1..], y[1..], z[1..]);
    }
  }

  lemma {:induction false} LexTrichotomy(x: seq<int>, y: seq<int>)
    ensures LexLess(x, y) ==> !LexLess(y, x)
    ensures !LexLess(x, y) && !LexLess(y, x) <==> x == y
  {
    if x != [] && y != [] && x[0] == y[0] {
      LexTrichotomy(x[1..], y[1..]);
      assert x == [x[0]] + x[1..] && y == [y[0]] + y[1..];
    }
  }

  /** What sort.Slice needs of its comparison. */
  lemma StrictWeakOrder(a: seq<Byte>, b: seq<Byte>, c: seq<Byte>)
    ensures !Less(a, a)
    ensures Less(a, b) ==> !Less(b, a)
    ensures Less(a, b) && Less(b, c) ==> Less(a, c)
    ensures Tie(a, b) && Tie(b, c) ==> Tie(a, c)
    ensures Tie(a, b) && Less(b, c) ==> Less(a, c)
  {
    LexTrichotomy(Key(a), Key(a));
    LexTrichotomy(Key(a), Key(b));
    LexTrichotomy(Key(b), Key(c));
    if Less(a, b) && Less(b, c) {
      LexTransitive(Key(a), Key(b), Key(c));
    }
  }

  // ----- which way it goes

  /** The text p may stand before: it splits no run of digits. */
  predicate Splits(p: seq<Byte>, s: seq<Byte>) {
    p != [] && IsDigit(p[|p| - 1]) ==> s == [] || !IsDigit(s[0])
  }

  lemma {:induction false} RunBefore(p: seq<Byte>, s: seq<Byte>)
    requires p != [] && Splits(p, s)
    ensures Run(p + s) == Run(p)
  {
    assert (p + s)[0] == p[0] && (p + s)[1..] == p[1..] + s;
    if IsDigit(p[0]) {
      if |p| == 1 {
        assert p[1..] + s == s;
      } else {
        RunBefore(p[1..], s);
      }
    }
  }

  /** What a name's first number or byte weighs, and its length. */
  function Head(s: seq<Byte>): int
    requires s != []
  {
    if Run(s) > 0 then Atoi(s[..Run(s)]) else Rank(s[0])
  }

  function HeadLength(s: seq<Byte>): (n: nat)
    requires s != []
    ensures 0 < n <= |s|
  {
    if Run(s) > 0 then Run(s) else 1
  }

  lemma KeyHead(s: seq<Byte>)
    requires s != []
    ensures Key(s) == [Head(s)] + Key(s[HeadLength(s)..])
  {
  }

  lemma HeadBefore(p: seq<Byte>, s: seq<Byte>)
    requires p != [] && Splits(p, s)
    ensures Head(p + s) == Head(p) && HeadLength(p + s) == HeadLength(p)
    ensures (p + s)[HeadLength(p)..] == p[HeadLength(p)..] + s && Splits(p[HeadLength(p)..], s)
  {
    hide Atoi, Rank;
    RunBefore(p, s);
    assert (p + s)[..Run(p)] == p[..Run(p)] && (p + s)[0] == p[0];
  }

  lemma {:induction false} KeyAfter(p: seq<Byte>, s: seq<Byte>)
    requires Splits(p, s)
    ensures Key(p + s) == Key(p) + Key(s)
    decreases |p|
  {
    hide Key, Head, HeadLength, Run, Splits;
    if p == [] {
      assert p + s == s;
      KeyOfNothing();
    } else {
      HeadBefore(p, s);
      KeyAfter(p[HeadLength(p)..], s);
      KeyHead(p);
      KeyHead(p + s);
      Regroup(Head(p), Key(p[HeadLength(p)..]), Key(s));
    }
  }

  lemma Regroup(x: int, y: seq<int>, z: seq<int>)
    ensures [x] + (y + z) == [x] + y + z
  {
  }

  lemma {:induction false} LexAfter(x: seq<int>, y: seq<int>, z: seq<int>)
    ensures LexLess(x + y, x + z) == LexLess(y, z)
  {
    if x == [] {
      assert x + y == y && x + z == z;
    } else {
      assert (x + y)[1..] == x[1..] + y && (x + z)[1..] == x[1..] + z;
      LexAfter(x[1..], y, z);
    }
  }

  /** What two names have in common before does not matter, unless it ends inside a number. */
  lemma CommonStart(p: seq<Byte>, a: seq<Byte>, b: seq<Byte>)
    requires Splits(p, a) && Splits(p, b)
    ensures Less(p + a, p + b) == Less(a, b)
  {
    KeyAfter(p, a);
    KeyAfter(p, b);
    LexAfter(Key(p), Key(a), Key(b));
  }

  /**
   Where they first differ decides: between two numbers not both at or past the widest int the
   smaller comes first, between bytes, one not a digit, the smaller, and a name comes before its
   own continuations.
   */
  lemma SmallerFirst(a: seq<Byte>, b: seq<Byte>)
    requires a != b
    ensures a == [] ==> Less(a, b)
    ensures b == [] ==> !Less(a, b)
    ensures a != [] && b != [] && Run(a) > 0 && Run(b) > 0 ==>
      var x, y := Value(a[..Run(a)]), Value(b[..Run(b)]);
      x != y && (x < MAX_INT || y < MAX_INT) ==> (Less(a, b) <==> x < y)
    ensures a != [] && b != [] && (Run(a) == 0 || Run(b) == 0) && a[0] != b[0] ==> (Less(a, b) <==> a[0] < b[0])
  {
    hide *;
    EmptyFirst(a, b);
    if a != [] && b != [] {
      HeadIs(a);
      HeadIs(b);
      if Run(a) > 0 && Run(b) > 0 {
        NumbersDecide(a, b, Value(a[..Run(a)]), Value(b[..Run(b)]));
      } else if a[0] != b[0] {
        BytesDecide(a, b);
      }
    }
  }

  lemma EmptyFirst(a: seq<Byte>, b: seq<Byte>)
    requires a != b
    ensures a == [] ==> Less(a, b)
    ensures b == [] ==> !Less(a, b)
  {
    if a == [] {
      KeyHead(b);
      hide Head;
    }
  }

  lemma NumbersDecide(a: seq<Byte>, b: seq<Byte>, x: int, y: int)
    requires a != [] && b != []
    requires Head(a) == (if x > MAX_INT then MAX_INT else x) && Head(b) == (if y > MAX_INT then MAX_INT else y)
    ensures x != y && (x < MAX_INT || y < MAX_INT) ==> (Less(a, b) <==> x < y)
  {
    hide Head, Less;
    if Head(a) != Head(b) { HeadsDecide(a, b); }
  }

  lemma BytesDecide(a: seq<Byte>, b: seq<Byte>)
    requires a != [] && b != [] && (Run(a) == 0 || Run(b) == 0) && a[0] != b[0]
    ensures Less(a, b) <==> a[0] < b[0]
  {
    HeadIs(a);
    HeadIs(b);
    hide Less, Key, Head, Value;
    HeadsDecide(a, b);
  }

  /** The first weight: a number an int holds, or a byte outside them all on its own side. */
  lemma HeadIs(s: seq<Byte>)
    requires s != []
    ensures Run(s) > 0 <==> IsDigit(s[0])
    ensures Run(s) > 0 ==> var v := Value(s[..Run(s)]); 0 <= v && Head(s) == if v > MAX_INT then MAX_INT else v
    ensures Run(s) == 0 ==> Head(s) == Rank(s[0])
  {
    ValueBounds(s[..Run(s)]);
  }

  lemma KeyOfNothing()
    ensures Key([]) == []
  {
  }

  lemma HeadsDecide(a: seq<Byte>, b: seq<Byte>)
    requires a != [] && b != [] && Head(a) != Head(b)
    ensures Less(a, b) <==> Head(a) < Head(b)
  {
    KeyHead(a);
    KeyHead(b);
    hide Key, Head;
  }

  // ----- which names tie

  /** A run of digits without its leading zeros; the last digit always stays. */
  function Trim(d: seq<Byte>): (r: seq<Byte>)
    ensures d != [] ==> r != []
    ensures (forall i :: 0 <= i < |d| ==> IsDigit(d[i])) ==> forall i :: 0 <= i < |r| ==> IsDigit(r[i])
  {
    if |d| > 1 && d[0] == '0' as int then Trim(d[1..]) else d
  }

  /** s with the leading zeros of every digit run dropped. */
  function Canonical(s: seq<Byte>): seq<Byte> {
    if s == [] then []
    else if Run(s) > 0 then Trim(s[..Run(s)]) + Canonical(s[Run(s)..])
    else [s[0]] + Canonical(s[1..])
  }

  /** Every digit run of s is a number an int holds. */
  predicate RunsFit(s: seq<Byte>) {
    if s == [] then true
    else if Run(s) > 0 then Value(s[..Run(s)]) <= MAX_INT && RunsFit(s[Run(s)..])
    else RunsFit(s[1..])
  }

  lemma {:induction false} ValueTrim(d: seq<Byte>)
    ensures Value(Trim(d)) == Value(d)
  {
    if |d| > 1 && d[0] == '0' as int {
      ValueTrim(d[1..]);
      ValueLeadingZero(d);
    }
  }

  lemma {:induction false} ValueLeadingZero(d: seq<Byte>)
    requires d != [] && d[0] == '0' as int
    ensures Value(d) == Value(d[1..])
  {
    if |d| > 1 {
      ValueLeadingZero(d[..|d| - 1]);
      assert d[..|d| - 1][1..] == d[1..][..|d| - 2];
    }
  }

  predicate Trimmed(d: seq<Byte>) {
    d != [] && (|d| > 1 ==> d[0] != '0' as int) && forall i :: 0 <= i < |d| ==> IsDigit(d[i])
  }

  lemma {:induction false} TrimmedAfterTrim(d: seq<Byte>)
    requires d != [] && forall i :: 0 <= i < |d| ==> IsDigit(d[i])
    ensures Trimmed(Trim(d))
  {
    if |d| > 1 && d[0] == '0' as int {
      TrimmedAfterTrim(d[1..]);
    }
  }

  lemma {:induction false} TrimmedLong(d: seq<Byte>)
    requires Trimmed(d)
    ensures |d| > 1 <==> Value(d) >= 10
  {
    if |d| == 1 {
      assert Value(d[..0]) == 0;
    } else {
      var e := d[..|d| - 1];
      TrimmedLong(e);
      if |e| == 1 {
        assert Value(e[..0]) == 0;
        assert Value(e) == d[0] - '0' as int >= 1;
      }
    }
  }

  lemma {:induction false} TrimmedInjective(d: seq<Byte>, e: seq<Byte>)
    requires Trimmed(d) && Trimmed(e) && Value(d) == Value(e)
    ensures d == e
  {
    TrimmedLong(d);
    TrimmedLong(e);
    var m, n := |d| - 1, |e| - 1;
    if |d| > 1 {
      TrimmedInjective(d[..m], e[..n]);
    } else {
      assert Value(d[..0]) == Value(e[..0]) == 0;
    }
    assert d == d[..m] + [d[m]] && e == e[..n] + [e[n]];
  }

  lemma {:induction false} CanonicalStart(s: seq<Byte>)
    ensures Canonical(s) == [] <==> s == []
    ensures s != [] ==> (IsDigit(Canonical(s)[0]) <==> IsDigit(s[0]))
  {
    if s != [] && Run(s) > 0 {
      assert Canonical(s)[0] == Trim(s[..Run(s)])[0];
    }
  }

  lemma {:induction false} RunOf(d: seq<Byte>, rest: seq<Byte>)
    requires forall i :: 0 <= i < |d| ==> IsDigit(d[i])
    requires rest != [] ==> !IsDigit(rest[0])
    ensures Run(d + rest) == |d|
  {
    if d != [] {
      RunOf(d[1..], rest);
      assert (d + rest)[1..] == d[1..] + rest;
    } else {
      assert d + rest == rest;
    }
  }

  lemma {:induction false} KeyCanonical(s: seq<Byte>)
    ensures Key(Canonical(s)) == Key(s)
  {
    if s != [] {
      var n := Run(s);
      if n > 0 {
        var d, rest := s[..n], s[n..];
        KeyCanonical(rest);
        CanonicalStart(rest);
        RunOf(Trim(d), Canonical(rest));
        ValueTrim(d);
        var c := Trim(d) + Canonical(rest);
        assert c[..|Trim(d)|] == Trim(d) && c[|Trim(d)|..] == Canonical(rest);
      } else {
        KeyCanonical(s[1..]);
        var c := [s[0]] + Canonical(s[1..]);
        assert c[1..] == Canonical(s[1..]);
      }
    }
  }

  lemma {:induction false} SameKey(a: seq<Byte>, b: seq<Byte>)
    requires RunsFit(a) && RunsFit(b) && Key(a) == Key(b)
    ensures Canonical(a) == Canonical(b)
  {
    if a != [] && b != [] {
      var m, n := Run(a), Run(b);
      assert Key(a)[0] == Key(b)[0];
      ValueBounds(a[..m]);
      ValueBounds(b[..n]);
      if m > 0 {
        assert Key(a)[1..] == Key(a[m..]) && Key(b)[1..] == Key(b[n..]);
        ValueTrim(a[..m]);
        ValueTrim(b[..n]);
        TrimmedAfterTrim(a[..m]);
        TrimmedAfterTrim(b[..n]);
        TrimmedInjective(Trim(a[..m]), Trim(b[..n]));
        SameKey(a[m..], b[n..]);
      } else {
        assert Key(a)[1..] == Key(a[1..]) && Key(b)[1..] == Key(b[1..]);
        SameKey(a[1..], b[1..]);
      }
    }
  }

  /** Two names whose numbers fit an int tie exactly when they differ only in leading zeros. */
  lemma TieExactly(a: seq<Byte>, b: seq<Byte>)
    ensures Canonical(a) == Canonical(b) ==> Tie(a, b)
    ensures RunsFit(a) && RunsFit(b) ==> (Tie(a, b) <==> Canonical(a) == Canonical(b))
  {
    KeyCanonical(a);
    KeyCanonical(b);
    LexTrichotomy(Key(a), Key(b));
    if RunsFit(a) && RunsFit(b) && Tie(a, b) {
      SameKey(a, b);
    }
  }

  /** a and b read alike from the left: equal bytes, and equal numbers or two past the widest int. */
  predicate ReadAlike(a: seq<Byte>, b: seq<Byte>) {
    var m, n := Run(a), Run(b);
    if a == [] || b == [] then a == b
    else if m > 0 && n > 0 then
      && (Trim(a[..m]) == Trim(b[..n]) || (Value(a[..m]) >= MAX_INT && Value(b[..n]) >= MAX_INT))
      && ReadAlike(a[m..], b[n..])
    else a[0] == b[0] && ReadAlike(a[1..], b[1..])
  }

  /** Which names tie, for every pair: the only ties beyond leading zeros are oversize numbers. */
  lemma {:induction false} TieIffReadAlike(a: seq<Byte>, b: seq<Byte>)
    ensures Tie(a, b) <==> ReadAlike(a, b)
  {
    LexTrichotomy(Key(a), Key(b));
    if a != [] && b != [] {
      var m, n := Run(a), Run(b);
      ValueBounds(a[..m]);
      ValueBounds(b[..n]);
      if m > 0 && n > 0 {
        TieIffReadAlike(a[m..], b[n..]);
        LexTrichotomy(Key(a[m..]), Key(b[n..]));
        ValueTrim(a[..m]);
        ValueTrim(b[..n]);
        TrimmedAfterTrim(a[..m]);
        TrimmedAfterTrim(b[..n]);
        if Value(a[..m]) == Value(b[..n]) {
          TrimmedInjective(Trim(a[..m]), Trim(b[..n]));
        }
        assert Key(a)[0] == Atoi(a[..m]) && Key(b)[0] == Atoi(b[..n]);
        assert Key(a)[1..] == Key(a[m..]) && Key(b)[1..] == Key(b[n..]);
      } else {
        TieIffReadAlike(a[1..], b[1..]);
        LexTrichotomy(Key(a[1..]), Key(b[1..]));
        if m == 0 && n == 0 {
          assert Key(a)[1..] == Key(a[1..]) && Key(b)[1..] == Key(b[1..]);
        } else {
          assert Key(a)[0] != Key(b)[0];
        }
      }
    }
  }

  /** Past an int the numbers saturate: any two such runs tie. */
  lemma OversizeRunsTie(d: seq<Byte>, e: seq<Byte>)
    requires d != [] && forall i :: 0 <= i < |d| ==> IsDigit(d[i])
    requires e != [] && forall i :: 0 <= i < |e| ==> IsDigit(e[i])
    requires Value(d) >= MAX_INT && Value(e) >= MAX_INT
    ensures Tie(d, e)
  {
    RunOf(d, []);
    RunOf(e, []);
    assert d + [] == d && e + [] == e;
    assert Key(d[|d|..]) == [] && Key(e[|e|..]) == [];
    assert d[..|d|] == d && e[..|e|] == e;
    assert Key(d) == [MAX_INT] == Key(e);
    LexTrichotomy(Key(d), Key(e));
  }

  function Pow10(n: nat): nat {
    if n == 0 then 1 else 10 * Pow10(n - 1)
  }

  lemma {:induction false} Nines(n: nat)
    ensures Value(seq(n, _ => '9' as int)) == Pow10(n) - 1
  {
    if n > 0 {
      Nines(n - 1);
      assert seq(n, _ => '9' as int)[..n - 1] == seq(n - 1, _ => '9' as int);
    }
  }

  /** Nineteen nines and twenty nines tie, though they differ in more than leading zeros. */
  lemma NinesTieWitness() returns (a: seq<Byte>, b: seq<Byte>)
    ensures Tie(a, b) && Canonical(a) != Canonical(b)
  {
    a, b := seq(19, _ => '9' as int), seq(20, _ => '9' as int);
    Nines(19);
    Nines(20);
    assert Pow10(6) == 1_000_000;
    assert Pow10(12) == 1_000_000 * Pow10(6);
    assert Pow10(19) == 10_000_000 * Pow10(12);
    OversizeRunsTie(a, b);
    RunOf(a, []);
    RunOf(b, []);
    assert a + [] == a && b + [] == b;
    assert a[..19] == a && b[..20] == b;
    assert Canonical(a) == a && Canonical(b) == b;
  }
}
