/**
 The bash pathname pattern matcher. A pattern component is parsed into tokens, and a name
 matches when it can be cut into pieces, one per token, each in that token's language. The
 backtracking matcher and the bracket scanner, both loops over the raw bytes, are proved
 equal to that reading.
 */
module Glob {
  import opened Bytes
  import opened Options

  const STAR: Byte := '*' as int
  const ANY: Byte := '?' as int
  const OPEN: Byte := '[' as int
  const CLOSE: Byte := ']' as int
  const ESCAPE: Byte := '\\' as int
  const DOT: Byte := '.' as int
  const DASH: Byte := '-' as int
  const BANG: Byte := '!' as int
  const CARET: Byte := '^' as int
  const COLON: Byte := ':' as int
  const EQUALS: Byte := '=' as int

  // ----- the POSIX character classes, as the C locale defines them

  datatype Name =
    Alnum | Alpha | Blank | Cntrl | Digit | Graph | Lower | Print | Punct | Space | Upper | Xdigit | Word

  predicate InNamed(n: Name, c: Byte) {
    match n
    case Alnum => IsAlpha(c) || IsDigit(c)
    case Alpha => IsAlpha(c)
    case Blank => c == ' ' as int || c == 9
    case Cntrl => c < 0x20 || c == 0x7f
    case Digit => IsDigit(c)
    case Graph => 0x20 < c < 0x7f
    case Lower => 'a' as int <= c <= 'z' as int
    case Print => 0x20 <= c < 0x7f
    case Punct => 0x20 < c < 0x7f && !IsAlpha(c) && !IsDigit(c)
    case Space => c == ' ' as int || 9 <= c <= 13
    case Upper => 'A' as int <= c <= 'Z' as int
    case Xdigit => IsDigit(c) || 'a' as int <= c <= 'f' as int || 'A' as int <= c <= 'F' as int
    case Word => IsAlpha(c) || IsDigit(c) || c == '_' as int
  }

  /** How many of the classes that share out the bytes hold c. */
  function Shares(c: Byte): nat {
    (if InNamed(Cntrl, c) then 1 else 0) + (if InNamed(Digit, c) then 1 else 0) + (if InNamed(Upper, c) then 1 else 0)
    + (if InNamed(Lower, c) then 1 else 0) + (if InNamed(Punct, c) then 1 else 0)
  }

  /** The classes as the C locale has them: five share out ASCII but the space, the others are made of those. */
  lemma ClassesOfTheCLocale(c: Byte)
    ensures Shares(c) == if c < 128 && c != ' ' as int then 1 else 0
    ensures InNamed(Alpha, c) <==> InNamed(Upper, c) || InNamed(Lower, c)
    ensures InNamed(Alnum, c) <==> InNamed(Alpha, c) || InNamed(Digit, c)
    ensures InNamed(Word, c) <==> InNamed(Alnum, c) || c == '_' as int
    ensures InNamed(Graph, c) <==> InNamed(Alnum, c) || InNamed(Punct, c)
    ensures InNamed(Print, c) <==> InNamed(Graph, c) || c == ' ' as int
    ensures InNamed(Upper, c) <==> c < 128 && InNamed(Lower, (c + 32) % 256)
    ensures InNamed(Blank, c) <==> InNamed(Space, c) && !(10 <= c <= 13)
    ensures InNamed(Space, c) ==> InNamed(Cntrl, c) || c == ' ' as int
    ensures InNamed(Digit, c) || InNamed(Xdigit, c) ==> InNamed(Alnum, c)
  {
  }

  /** A name's first and third letters, which tell it from the others. */
  function Sign(n: Name): (char, char) {
    match n
    case Alnum => ('a', 'n')
    case Alpha => ('a', 'p')
    case Blank => ('b', 'a')
    case Cntrl => ('c', 't')
    case Digit => ('d', 'g')
    case Graph => ('g', 'a')
    case Lower => ('l', 'w')
    case Print => ('p', 'i')
    case Punct => ('p', 'n')
    case Space => ('s', 'a')
    case Upper => ('u', 'p')
    case Xdigit => ('x', 'i')
    case Word => ('w', 'r')
  }

  function Spelling(n: Name): (r: seq<Byte>)
    ensures |r| >= 4 && forall k :: 0 <= k < |r| ==> IsAlpha(r[k])
    ensures r[0] == Sign(n).0 as int && r[2] == Sign(n).1 as int
  {
    match n
    case Alnum => Ascii("alnum")
    case Alpha => Ascii("alpha")
    case Blank => Ascii("blank")
    case Cntrl => Ascii("cntrl")
    case Digit => Ascii("digit")
    case Graph => Ascii("graph")
    case Lower => Ascii("lower")
    case Print => Ascii("print")
    case Punct => Ascii("punct")
    case Space => Ascii("space")
    case Upper => Ascii("upper")
    case Xdigit => Ascii("xdigit")
    case Word => Ascii("word")
  }

  const NAMES := [Alnum, Alpha, Blank, Cntrl, Digit, Graph, Lower, Print, Punct, Space, Upper, Xdigit, Word]

  function Find(names: seq<Name>, s: seq<Byte>): (r: Option<Name>)
    ensures r.Some? ==> Spelling(r.value) == s
    ensures r.None? ==> forall k :: 0 <= k < |names| ==> Spelling(names[k]) != s
  {
    if names == [] then None
    else if Spelling(names[0]) == s then Some(names[0])
    else Find(names[1..], s)
  }

  function NameOf(s: seq<Byte>): Option<Name> {
    Find(NAMES, s)
  }

  // ----- what a pattern component says

  datatype Item = Span(lo: Byte, hi: Byte) | Named(name: Name)
  datatype Class = Class(negate: bool, items: seq<Item>)
  datatype Token = Star | Any | Bracket(cls: Class) | Lit(b: Byte)

  predicate InItem(it: Item, c: Byte) {
    match it
    case Span(lo, hi) => lo <= c <= hi
    case Named(n) => InNamed(n, c)
  }

  predicate InSome(items: seq<Item>, c: Byte) {
    exists k :: 0 <= k < |items| && InItem(items[k], c)
  }

  predicate InClass(cls: Class, c: Byte) {
    InSome(cls.items, c) != cls.negate
  }

  /** The strings one token stands for. */
  predicate InToken(t: Token, s: seq<Byte>) {
    match t
    case Star => true
    case Any => |s| == 1
    case Bracket(cls) => |s| == 1 && InClass(cls, s[0])
    case Lit(b) => s == [b]
  }

  function Join(pieces: seq<seq<Byte>>): seq<Byte> {
    if pieces == [] then [] else pieces[0] + Join(pieces[1..])
  }

  ghost predicate Cuts(ts: seq<Token>, pieces: seq<seq<Byte>>, s: seq<Byte>) {
    && |pieces| == |ts|
    && Join(pieces) == s
    && forall k :: 0 <= k < |ts| ==> InToken(ts[k], pieces[k])
  }

  /** s can be cut into pieces, one in each token's language. */
  ghost predicate Denotes(ts: seq<Token>, s: seq<Byte>) {
    exists pieces :: Cuts(ts, pieces, s)
  }

  /** Denotes, one token at a time from the left. */
  predicate Matches(ts: seq<Token>, s: seq<Byte>) {
    if ts == [] then s == []
    else if ts[0] == Star then exists i :: 0 <= i <= |s| && Matches(ts[1..], s[i..])
    else s != [] && InToken(ts[0], s[..1]) && Matches(ts[1..], s[1..])
  }

  lemma {:induction false} MatchesIffDenotes(ts: seq<Token>, s: seq<Byte>)
    ensures Matches(ts, s) <==> Denotes(ts, s)
  {
    if ts == [] {
      assert s == [] ==> Cuts(ts, [], s);
    } else {
      if Matches(ts, s) {
        var i := if ts[0] == Star then var i :| 0 <= i <= |s| && Matches(ts[1..], s[i..]); i else 1;
        MatchesIffDenotes(ts[1..], s[i..]);
        var rest :| Cuts(ts[1..], rest, s[i..]);
        var pieces := [s[..i]] + rest;
        assert pieces[1..] == rest;
        assert Cuts(ts, pieces, s);
      }
      if Denotes(ts, s) {
        var pieces :| Cuts(ts, pieces, s);
        var i := |pieces[0]|;
        assert InToken(ts[0], pieces[0]);
        assert s == pieces[0] + Join(pieces[1..]);
        assert s[..i] == pieces[0] && s[i..] == Join(pieces[1..]);
        assert Cuts(ts[1..], pieces[1..], s[i..]);
        MatchesIffDenotes(ts[1..], s[i..]);
      }
    }
  }

  lemma StarStar(ts: seq<Token>, s: seq<Byte>)
    ensures Matches([Star, Star] + ts, s) <==> Matches([Star] + ts, s)
  {
    assert ([Star, Star] + ts)[1..] == [Star] + ts && ([Star] + ts)[1..] == ts;
    if Matches([Star, Star] + ts, s) {
      var i :| 0 <= i <= |s| && Matches([Star] + ts, s[i..]);
      var j :| 0 <= j <= |s[i..]| && Matches(ts, s[i..][j..]);
      assert s[i..][j..] == s[i + j..];
    }
    if Matches([Star] + ts, s) {
      assert s[0..] == s;
    }
  }

  // ----- reading a component

  predicate Together(p: seq<Byte>, k: nat, x: Byte, y: Byte) {
    k + 1 < |p| && p[k] == x && p[k + 1] == y
  }

  /** Where the two bytes x, y first stand together in p at or after i; |p| if nowhere. */
  function IndexOf(p: seq<Byte>, i: nat, x: Byte, y: Byte): (e: nat)
    requires i <= |p|
    ensures i <= e <= |p|
    ensures e < |p| ==> Together(p, e, x, y)
    ensures forall k :: i <= k < e ==> !Together(p, k, x, y)
    decreases |p| - i
  {
    if i == |p| || Together(p, i, x, y) then i else IndexOf(p, i + 1, x, y)
  }

  /** The member of a bracket expression at i, and where the next one starts. */
  function NextItem(p: seq<Byte>, i: nat): (r: (Item, nat))
    requires i < |p|
    ensures i < r.1 <= |p|
  {
    var named := if p[i] == OPEN && i + 1 < |p| && p[i + 1] == COLON then NamedAt(p, i) else None;
    if named.Some? then (Named(named.value.0), named.value.1)
    else if Collating(p, i) then (Span(p[i + 2], p[i + 2]), i + 5)
    else
      var escaped := p[i] == ESCAPE && i + 1 < |p|;
      var lo := if escaped then p[i + 1] else p[i];
      var j := if escaped then i + 2 else i + 1;
      if j + 1 < |p| && p[j] == DASH && p[j + 1] != CLOSE then
        if p[j + 1] == ESCAPE && j + 2 < |p| then (Span(lo, p[j + 2]), j + 3)
        else (Span(lo, p[j + 1]), j + 2)
      else (Span(lo, lo), j)
  }

  /** A class [:name:] at i, and where it ends; an unknown name is none. */
  function NamedAt(p: seq<Byte>, i: nat): (r: Option<(Name, nat)>)
    requires i < |p|
    ensures r.Some? ==> i < r.value.1 <= |p|
  {
    var e := IndexOf(p, i, COLON, CLOSE);
    // In "[:]" the two overlap: no class.
    if e < i + 2 || e == |p| then None
    else match NameOf(p[i + 2..e])
      case Some(n) => Some((n, e + 2))
      case None => None
  }

  /** [=c=] or [.c.] at i, one character in the C locale. */
  predicate Collating(p: seq<Byte>, i: nat)
    requires i < |p|
    ensures Collating(p, i) ==> i + 4 < |p|
  {
    && p[i] == OPEN && i + 2 < |p| && (p[i + 1] == EQUALS || p[i + 1] == DOT)
    && IndexOf(p, i + 2, p[i + 1], CLOSE) == i + 3 < |p|
  }

  /** The members from i up to the closing bracket, and where it ends; None when it never closes. */
  function Items(p: seq<Byte>, i: nat, first: bool): (r: Option<(nat, seq<Item>)>)
    requires i <= |p|
    ensures r.Some? ==> i < r.value.0 <= |p|
    decreases |p| - i
  {
    if i >= |p| then None
    else if p[i] == CLOSE && !first then Some((i + 1, []))
    else
      var (it, j) := NextItem(p, i);
      match Items(p, j, false)
      case None => None
      case Some((end, its)) => Some((end, [it] + its))
  }

  function After(done: seq<Item>, r: Option<(nat, seq<Item>)>): Option<(nat, seq<Item>)> {
    match r
    case None => None
    case Some((end, its)) => Some((end, done + its))
  }

  predicate Negated(p: seq<Byte>) {
    |p| > 1 && (p[1] == BANG || p[1] == CARET)
  }

  /** The bracket expression p starts with and its length; None when its [ is a literal. */
  function ReadBracket(p: seq<Byte>): (r: Option<(nat, Class)>)
    requires p != []
    ensures r.Some? ==> 1 < r.value.0 <= |p|
  {
    match Items(p, if Negated(p) then 2 else 1, true)
    case None => None
    case Some((end, its)) => Some((end, Class(Negated(p), its)))
  }

  function Read(p: seq<Byte>): seq<Token> {
    if p == [] then []
    else if p[0] == STAR then [Star] + Read(p[1..])
    else if p[0] == ANY then [Any] + Read(p[1..])
    else if p[0] == OPEN then
      match ReadBracket(p)
      case Some((end, cls)) => [Bracket(cls)] + Read(p[end..])
      case None => [Lit(OPEN)] + Read(p[1..])
    else if p[0] == ESCAPE && |p| > 1 then [Lit(p[1])] + Read(p[2..])
    else [Lit(p[0])] + Read(p[1..])
  }

  // ----- the matcher

  /** end is the bracket expression's length, 0 when it does not close; it depends on p alone. */
  method ClassMatch(p: seq<Byte>, s: seq<Byte>) returns (end: nat, ok: bool)
    requires p != []
    ensures match ReadBracket(p)
      case None => end == 0 && !ok
      case Some((n, cls)) => end == n && ok == (s != [] && InClass(cls, s[0]))
  {
    hide Items, InNamed, NameOf, Spelling, InSome, IndexOf, Together;
    var i := 1;
    var negate := false;
    if i < |p| && (p[i] == BANG || p[i] == CARET) {
      negate := true;
      i := i + 1;
    }
    ghost var from: nat := i;
    var matched := false;
    var c: Byte := 0;
    if s != [] {
      c := s[0];
    }
    var first := true;
    ghost var done: seq<Item> := [];
    AfterNone(Items(p, from, true), c);
    while i < |p|
      invariant 1 <= i <= |p|
      invariant Items(p, from, true) == After(done, Items(p, i, first))
      invariant matched == (s != [] && InSome(done, c))
      decreases |p| - i
    {
      ItemsUnfold(p, i, first);
      if p[i] == CLOSE && !first {
        assert done + [] == done;
        return i + 1, s != [] && matched != negate;
      }
      ghost var next := NextItem(p, i);
      AddItem(done, next.0, Items(p, next.1, false), c);
      if p[i] == OPEN && i + 1 < |p| && p[i + 1] == COLON {
        var e := IndexOf(p, i, COLON, CLOSE);
        if i + 2 <= e < |p| {
          var named := NameOf(p[i + 2..e]);
          if named.Some? {
            matched := matched || (s != [] && InNamed(named.value, c));
            i := e + 2;
            done := done + [next.0];
            first := false;
            continue;
          }
        }
      }
      if p[i] == OPEN && i + 2 < |p| && (p[i + 1] == EQUALS || p[i + 1] == DOT) {
        var e := IndexOf(p, i + 2, p[i + 1], CLOSE);
        if e == i + 3 < |p| {
          matched := matched || (s != [] && c == p[i + 2]);
          i := i + 5;
          done := done + [next.0];
          first := false;
          continue;
        }
      }
      var lo := p[i];
      if lo == ESCAPE && i + 1 < |p| {
        i := i + 1;
        lo := p[i];
      }
      i := i + 1;
      var hi := lo;
      if i + 1 < |p| && p[i] == DASH && p[i + 1] != CLOSE {
        hi := p[i + 1];
        if hi == ESCAPE && i + 2 < |p| {
          hi := p[i + 2];
          i := i + 1;
        }
        i := i + 2;
      }
      if s != [] && lo <= c <= hi {
        matched := true;
      }
      done := done + [next.0];
      first := false;
    }
    ItemsUnfold(p, i, first);
    return 0, false;
  }

  lemma AfterNone(r: Option<(nat, seq<Item>)>, c: Byte)
    ensures r == After([], r) && !InSome([], c)
  {
    if r.Some? {
      assert [] + r.value.1 == r.value.1;
    }
  }

  lemma ItemsUnfold(p: seq<Byte>, i: nat, first: bool)
    requires i <= |p|
    ensures i == |p| ==> Items(p, i, first) == None
    ensures i < |p| && p[i] == CLOSE && !first ==> Items(p, i, first) == Some((i + 1, []))
    ensures i < |p| && !(p[i] == CLOSE && !first) ==>
      Items(p, i, first) == After([NextItem(p, i).0], Items(p, NextItem(p, i).1, false))
  {
  }

  lemma AddItem(done: seq<Item>, it: Item, rest: Option<(nat, seq<Item>)>, c: Byte)
    ensures After(done, After([it], rest)) == After(done + [it], rest)
    ensures InSome(done + [it], c) <==> InSome(done, c) || InItem(it, c)
  {
    if rest.Some? {
      assert done + ([it] + rest.value.1) == done + [it] + rest.value.1;
    }
    if InSome(done, c) {
      var k :| 0 <= k < |done| && InItem(done[k], c);
      assert InItem((done + [it])[k], c);
    }
    if InItem(it, c) {
      assert InItem((done + [it])[|done|], c);
    }
  }

  // ----- one token at a time, as the loop takes them

  lemma TakeToken(t: Token, ts: seq<Token>, s: seq<Byte>)
    requires t != Star
    ensures Matches([t] + ts, s) <==> s != [] && InToken(t, s[..1]) && Matches(ts, s[1..])
  {
    assert ([t] + ts)[1..] == ts;
  }

  lemma TakeAny(p: seq<Byte>, s: seq<Byte>)
    requires p != [] && p[0] == ANY
    ensures Matches(Read(p), s) <==> s != [] && Matches(Read(p[1..]), s[1..])
  {
    TakeToken(Any, Read(p[1..]), s);
  }

  lemma TakeBracket(p: seq<Byte>, s: seq<Byte>)
    requires p != [] && p[0] == OPEN
    ensures ReadBracket(p) == None ==>
      (Matches(Read(p), s) <==> s != [] && s[0] == OPEN && Matches(Read(p[1..]), s[1..]))
    ensures ReadBracket(p).Some? ==>
      (Matches(Read(p), s) <==>
       s != [] && InClass(ReadBracket(p).value.1, s[0]) && Matches(Read(p[ReadBracket(p).value.0..]), s[1..]))
  {
    hide ReadBracket, InClass;
    match ReadBracket(p)
    case None => TakeToken(Lit(OPEN), Read(p[1..]), s);
    case Some((end, cls)) => TakeToken(Bracket(cls), Read(p[end..]), s);
  }

  lemma TakeByte(p: seq<Byte>, s: seq<Byte>)
    requires p != [] && p[0] != ANY && p[0] != STAR && p[0] != OPEN
    ensures var n := if p[0] == ESCAPE && |p| > 1 then 1 else 0;
            Matches(Read(p), s) <==> s != [] && s[0] == p[n] && Matches(Read(p[n + 1..]), s[1..])
  {
    if p[0] == ESCAPE && |p| > 1 {
      TakeToken(Lit(p[1]), Read(p[2..]), s);
    } else {
      TakeToken(Lit(p[0]), Read(p[1..]), s);
    }
  }

  lemma TakeStar(p: seq<Byte>, s: seq<Byte>)
    requires p != [] && p[0] == STAR
    ensures Read(p) == [Star] + Read(p[1..])
    ensures Matches([Star] + Read(p), s) <==> Matches([Star] + Read(p[1..]), s)
  {
    StarStar(Read(p[1..]), s);
    assert [Star] + ([Star] + Read(p[1..])) == [Star, Star] + Read(p[1..]);
  }

  lemma TakeSome(p: seq<Byte>, s: seq<Byte>)
    ensures Matches([Star] + Read(p), s) <==> exists i :: 0 <= i <= |s| && Matches(Read(p), s[i..])
    ensures p == [] ==> Matches([Star] + Read(p), s)
  {
    assert ([Star] + Read(p))[1..] == Read(p);
    assert s[|s|..] == [];
  }

  lemma TakeNothing(s: seq<Byte>)
    ensures Matches(Read([]), s) <==> s == []
  {
  }

  method MatchAt(p0: seq<Byte>, s0: seq<Byte>) returns (ok: bool)
    ensures ok == Matches(Read(p0), s0)
    decreases |p0|
  {
    hide *;
    var p, s := p0, s0;
    while p != []
      invariant |p| <= |p0|
      invariant Matches(Read(p), s) == Matches(Read(p0), s0)
      decreases |p|
    {
      if p[0] == STAR {
        ghost var q := p;
        TakeStar(p, s);
        p := p[1..];
        while p != [] && p[0] == STAR
          invariant |p| < |q|
          invariant Matches([Star] + Read(p), s) == Matches(Read(q), s)
          decreases |p|
        {
          TakeStar(p, s);
          p := p[1..];
        }
        TakeSome(p, s);
        if p == [] {
          return true;
        }
        for i := 0 to |s| + 1
          invariant forall k :: 0 <= k < i ==> !Matches(Read(p), s[k..])
        {
          var m := MatchAt(p, s[i..]);
          if m {
            return true;
          }
        }
        return false;
      } else if p[0] == ANY {
        TakeAny(p, s);
        if s == [] {
          return false;
        }
        p, s := p[1..], s[1..];
      } else {
        if p[0] == OPEN {
          TakeBracket(p, s);
          var end, inside := ClassMatch(p, s);
          if end > 0 {
            if !inside {
              return false;
            }
            p, s := p[end..], s[1..];
            continue;
          }
        } else if p[0] == ESCAPE && |p| > 1 {
          TakeByte(p, s);
          p := p[1..];
          if s == [] || s[0] != p[0] {
            return false;
          }
          p, s := p[1..], s[1..];
          continue;
        } else {
          TakeByte(p, s);
        }
        if s == [] || s[0] != p[0] {
          return false;
        }
        p, s := p[1..], s[1..];
      }
    }
    TakeNothing(s);
    return s == [];
  }

  predicate StartsWith(s: seq<Byte>, prefix: seq<Byte>) {
    |prefix| <= |s| && s[..|prefix|] == prefix
  }

  predicate Match(p: seq<Byte>, s: seq<Byte>) {
    if StartsWith(s, [DOT]) && !StartsWith(p, [DOT]) && !StartsWith(p, [ESCAPE, DOT]) then false
    else Matches(Read(p), s)
  }

  method MatchName(p: seq<Byte>, s: seq<Byte>) returns (ok: bool)
    ensures ok == Match(p, s)
  {
    if StartsWith(s, [DOT]) && !StartsWith(p, [DOT]) && !StartsWith(p, [ESCAPE, DOT]) {
      return false;
    }
    ok := MatchAt(p, s);
  }

  /** A name starting with a dot needs a pattern whose first token is that dot, and no more. */
  lemma MatchIffDenotes(p: seq<Byte>, s: seq<Byte>)
    ensures Match(p, s) <==>
      Denotes(Read(p), s) && (s != [] && s[0] == DOT ==> Read(p)[..1] <= [Lit(DOT)] && Read(p) != [])
  {
    MatchesIffDenotes(Read(p), s);
    if s != [] && s[0] == DOT {
      assert s[..1] == [DOT];
      if p != [] && p[0] == DOT {
        assert p[..1] == [DOT];
        assert Read(p)[0] == Lit(DOT);
      } else if |p| > 1 && p[0] == ESCAPE && p[1] == DOT {
        assert p[..2] == [ESCAPE, DOT];
        assert Read(p)[0] == Lit(DOT);
      }
    }
  }

  // ----- patterns without wildcards

  predicate HasMeta(p: seq<Byte>) {
    STAR in p || ANY in p || OPEN in p
  }

  function Plain(p: seq<Byte>): seq<Byte> {
    if p == [] then []
    else if p[0] == ESCAPE && |p| > 1 then [p[1]] + Plain(p[2..])
    else [p[0]] + Plain(p[1..])
  }

  /** Drops the backslashes that quote something. */
  method Unescape(s: seq<Byte>) returns (b: seq<Byte>)
    ensures b == Plain(s)
  {
    b := [];
    var i := 0;
    while i < |s|
      invariant 0 <= i <= |s|
      invariant b + Plain(s[i..]) == Plain(s)
    {
      ghost var rest := s[i..];
      if s[i] == ESCAPE && i + 1 < |s| {
        assert rest[2..] == s[i + 2..];
        i := i + 1;
      }
      b := b + [s[i]];
      i := i + 1;
      assert i < |s| ==> (rest[1..] == s[i..] || rest[2..] == s[i..]);
    }
  }

  function Lits(s: seq<Byte>): seq<Token> {
    seq(|s|, i requires 0 <= i < |s| => Lit(s[i]))
  }

  lemma {:induction false} LitsMatchOnly(t: seq<Byte>, s: seq<Byte>)
    ensures Matches(Lits(t), s) <==> s == t
  {
    if t != [] {
      assert Lits(t)[1..] == Lits(t[1..]);
      if s != [] {
        LitsMatchOnly(t[1..], s[1..]);
        assert s[..1] == [s[0]];
        assert s == [s[0]] + s[1..] && t == [t[0]] + t[1..];
      }
    }
  }

  lemma {:induction false} ReadPlain(p: seq<Byte>)
    requires !HasMeta(p)
    ensures Read(p) == Lits(Plain(p))
  {
    if p != [] {
      var n := if p[0] == ESCAPE && |p| > 1 then 2 else 1;
      ReadPlain(p[n..]);
      assert Plain(p) == [p[n - 1]] + Plain(p[n..]);
      assert Lits(Plain(p)) == [Lit(p[n - 1])] + Lits(Plain(p[n..]));
    }
  }

  /** Without a wildcard a pattern matches the one name it unquotes to, leading dot or not. */
  lemma PlainPattern(p: seq<Byte>, s: seq<Byte>)
    requires !HasMeta(p)
    ensures Match(p, s) <==> s == Plain(p)
  {
    ReadPlain(p);
    LitsMatchOnly(Plain(p), s);
    MatchIffDenotes(p, s);
    MatchesIffDenotes(Read(p), s);
    if s != [] && s[0] == DOT && s == Plain(p) {
      assert Read(p)[0] == Lit(DOT);
      assert Read(p)[..1] == [Lit(DOT)];
    }
  }

  // ----- every token sequence has a spelling, and reading it gives it back

  function WriteItem(it: Item): (w: seq<Byte>)
    ensures w != [] && (w[0] == ESCAPE || w[0] == OPEN)
  {
    match it
    case Span(lo, hi) => [ESCAPE, lo, DASH, ESCAPE, hi]
    case Named(n) => [OPEN, COLON] + Spelling(n) + [COLON, CLOSE]
  }

  function WriteItems(its: seq<Item>): seq<Byte> {
    if its == [] then [] else WriteItem(its[0]) + WriteItems(its[1..])
  }

  function WriteToken(t: Token): seq<Byte> {
    match t
    case Star => [STAR]
    case Any => [ANY]
    case Lit(b) => [ESCAPE, b]
    case Bracket(cls) => (if cls.negate then [OPEN, BANG] else [OPEN]) + WriteItems(cls.items) + [CLOSE]
  }

  function Write(ts: seq<Token>): seq<Byte> {
    if ts == [] then [] else WriteToken(ts[0]) + Write(ts[1..])
  }

  /** A bracket expression always holds something: a ] right after the [ is a member. */
  predicate Writable(ts: seq<Token>) {
    forall k :: 0 <= k < |ts| && ts[k].Bracket? ==> ts[k].cls.items != []
  }

  function Place(n: Name): (k: nat)
    ensures k < |NAMES| && NAMES[k] == n
  {
    match n
    case Alnum => 0 case Alpha => 1 case Blank => 2 case Cntrl => 3 case Digit => 4 case Graph => 5
    case Lower => 6 case Print => 7 case Punct => 8 case Space => 9 case Upper => 10 case Xdigit => 11
    case Word => 12
  }

  lemma NameOfSpelling(n: Name)
    ensures NameOf(Spelling(n)) == Some(n)
  {
    hide Spelling;
    var m := NameOf(Spelling(n));
    assert NAMES[Place(n)] == n;
    assert Sign(m.value) == Sign(n);
  }

  lemma ReadsItem(p: seq<Byte>, i: nat, it: Item)
    requires i + |WriteItem(it)| <= |p|
    requires p[i..i + |WriteItem(it)|] == WriteItem(it)
    ensures NextItem(p, i) == (it, i + |WriteItem(it)|)
  {
    hide Spelling;
    var w := WriteItem(it);
    forall k | 0 <= k < |w| ensures p[i + k] == w[k] {
      assert p[i..i + |w|][k] == w[k];
    }
    match it {
      case Span(lo, hi) =>
        assert p[i] == w[0] && p[i + 1] == w[1] && p[i + 2] == w[2] && p[i + 3] == w[3] && p[i + 4] == w[4];
      case Named(n) =>
        var name := Spelling(n);
        var end := i + 2 + |name|;
        assert p[i + 2..end] == name by {
          forall k | 0 <= k < |name| ensures p[i + 2..end][k] == name[k] {
            assert p[i + (2 + k)] == w[2 + k];
          }
        }
        assert p[i] == w[0] && p[i + 1] == w[1] && p[end] == w[2 + |name|] && p[end + 1] == w[3 + |name|];
        forall k | i <= k < end ensures !Together(p, k, COLON, CLOSE) {
          if k >= i + 2 {
            assert p[i + 2..end][k - (i + 2)] == p[k];
          } else if k == i + 1 {
            assert p[i + 2..end][0] == p[k + 1];
          }
        }
        assert Together(p, end, COLON, CLOSE);
        assert IndexOf(p, i, COLON, CLOSE) == end;
        NameOfSpelling(n);
    }
  }

  lemma {:induction false} ReadsItems(p: seq<Byte>, i: nat, its: seq<Item>, first: bool)
    requires i + |WriteItems(its)| < |p|
    requires p[i..i + |WriteItems(its)|] == WriteItems(its)
    requires p[i + |WriteItems(its)|] == CLOSE
    requires first ==> its != []
    decreases |its|
    ensures Items(p, i, first) == Some((i + |WriteItems(its)| + 1, its))
  {
    hide NextItem, WriteItem;
    if its != [] {
      var w, rest := WriteItem(its[0]), WriteItems(its[1..]);
      var all := p[i..i + |w| + |rest|];
      assert all == w + rest;
      assert p[i..i + |w|] == all[..|w|] == w;
      assert p[i + |w|..i + |w| + |rest|] == all[|w|..] == rest;
      ReadsItem(p, i, its[0]);
      ReadsItems(p, i + |w|, its[1..], false);
      assert p[i] == w[0] != CLOSE;
      assert its == [its[0]] + its[1..];
    }
  }

  lemma ReadsBracket(cls: Class, rest: seq<Byte>)
    requires cls.items != []
    ensures ReadBracket(WriteToken(Bracket(cls)) + rest) == Some((|WriteToken(Bracket(cls))|, cls))
  {
    hide Items, WriteItem;
    var w := WriteToken(Bracket(cls));
    var p := w + rest;
    var from := if cls.negate then 2 else 1;
    var its := WriteItems(cls.items);
    assert its[0] == WriteItem(cls.items[0])[0];
    assert p[from] == its[0];
    assert Negated(p) == cls.negate;
    assert p[from..from + |its|] == its;
    assert p[from + |its|] == CLOSE;
    ReadsItems(p, from, cls.items, true);
  }

  lemma ReadsToken(t: Token, rest: seq<Byte>)
    requires Writable([t])
    ensures Read(WriteToken(t) + rest) == [t] + Read(rest)
  {
    var w := WriteToken(t);
    var p := w + rest;
    assert p[|w|..] == rest;
    assert p[0] == w[0];
    if t.Bracket? {
      assert [t][0].Bracket?;
      ReadsBracket(t.cls, rest);
    } else if t.Lit? {
      assert p[1] == w[1] == t.b;
    }
  }

  /** Writing tokens and reading them back is the identity. */
  lemma {:induction false} ReadWrite(ts: seq<Token>)
    requires Writable(ts)
    ensures Read(Write(ts)) == ts
  {
    if ts != [] {
      assert [ts[0]][0] == ts[0];
      ReadWrite(ts[1..]);
      ReadsToken(ts[0], Write(ts[1..]));
      assert ts == [ts[0]] + ts[1..];
    }
  }

  /** So every language of tokens is some pattern's. */
  lemma EveryLanguageHasAPattern(ts: seq<Token>, s: seq<Byte>)
    requires Writable(ts) && !StartsWith(s, [DOT])
    ensures Match(Write(ts), s) <==> Denotes(ts, s)
  {
    ReadWrite(ts);
    MatchesIffDenotes(ts, s);
  }
}
