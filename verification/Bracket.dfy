/**
 Bracket expressions as they are written: members one after another, a range's ends a byte, an
 escaped byte or a collating symbol, with the rules that keep ], -, [ and \ apart. The grammar
 knows nothing of the scanner; the scanner is proved to read what is written exactly when no
 range ends in a collating symbol.
 */
module Bracket {
  import opened Bytes
  import opened Options
  import opened Glob

  // ----- what may be written

  /** One character: c, \c or [.c.]. */
  datatype Atom = Plain(b: Byte) | Quoted(b: Byte) | Symbol(b: Byte)

  /** A character, a range, a class [:name:] or an equivalence class [=c=]. */
  datatype Member = Single(a: Atom) | Range(lo: Atom, hi: Atom) | Kind(name: Name) | Same(c: Byte)

  function AtomText(a: Atom): (t: seq<Byte>)
    ensures t != []
  {
    match a
    case Plain(b) => [b]
    case Quoted(b) => [ESCAPE, b]
    case Symbol(b) => [OPEN, DOT, b, DOT, CLOSE]
  }

  function Text(m: Member): (t: seq<Byte>)
    ensures t != []
  {
    match m
    case Single(a) => AtomText(a)
    case Range(lo, hi) => AtomText(lo) + [DASH] + AtomText(hi)
    case Kind(n) => [OPEN, COLON] + Spelling(n) + [COLON, CLOSE]
    case Same(c) => [OPEN, EQUALS, c, EQUALS, CLOSE]
  }

  predicate Contains(m: Member, c: Byte) {
    match m
    case Single(a) => c == a.b
    case Range(lo, hi) => lo.b <= c <= hi.b
    case Kind(n) => InNamed(n, c)
    case Same(b) => c == b
  }

  /** The text opens a collating symbol. */
  predicate Symbolic(t: seq<Byte>) {
    exists b: Byte :: StartsWith(t, AtomText(Symbol(b)))
  }

  /** The text opens a class, an equivalence class or a collating symbol. */
  predicate Special(t: seq<Byte>) {
    || Symbolic(t)
    || (exists b: Byte :: StartsWith(t, Text(Same(b))))
    || (exists n: Name :: StartsWith(t, Text(Kind(n))))
  }

  /** A hyphen that is not last: between two characters it makes a range. */
  predicate HyphenWithin(after: seq<Byte>) {
    |after| > 1 && after[0] == DASH && after[1] != CLOSE
  }

  /** A character a member may begin with: a plain ] only first, a plain [ only where it opens nothing. */
  predicate Begins(a: Atom, first: bool, after: seq<Byte>) {
    a.Plain? ==> a.b != ESCAPE && (a.b == CLOSE ==> first) && (a.b == OPEN ==> !Special([OPEN] + after))
  }

  predicate Ends(a: Atom, after: seq<Byte>) {
    a.Plain? ==> a.b != ESCAPE && a.b != CLOSE && (a.b == OPEN ==> !Symbolic([OPEN] + after))
  }

  /** m may stand first or not, before the text after it. */
  predicate Proper(m: Member, first: bool, after: seq<Byte>) {
    match m
    case Single(a) => Begins(a, first, after) && !HyphenWithin(after)
    case Range(lo, hi) => Begins(lo, first, [DASH] + AtomText(hi) + after) && Ends(hi, after)
    case Kind(_) => true
    case Same(_) => true
  }

  /** t is the members ms as written, and then rest. */
  predicate Body(t: seq<Byte>, ms: seq<Member>, first: bool, rest: seq<Byte>)
    decreases |ms|
  {
    if ms == [] then t == rest
    else
      && StartsWith(t, Text(ms[0])) && Proper(ms[0], first, t[|Text(ms[0])|..])
      && Body(t[|Text(ms[0])|..], ms[1..], false, rest)
  }

  /** Where the members of a bracket expression begin: after the [ and a ! or ^. */
  function From(p: seq<Byte>): (i: nat)
    requires p != []
    ensures i <= |p|
  {
    if Negated(p) then 2 else 1
  }

  /** p opens with the bracket expression of ms, with rest after its ]. */
  predicate Written(p: seq<Byte>, ms: seq<Member>, rest: seq<Byte>)
    requires p != []
  {
    ms != [] && Body(p[From(p)..], ms, true, [CLOSE] + rest)
  }

  /** p opens with [ and the members ms, whether or not it closes. */
  predicate Opened(p: seq<Byte>, ms: seq<Member>, rest: seq<Byte>)
    requires p != []
  {
    Body(p[From(p)..], ms, true, rest)
  }

  predicate SymbolEnds(m: Member) {
    m.Range? && (m.lo.Symbol? || m.hi.Symbol?)
  }

  // ----- one text, one reading

  lemma SymbolicAt(t: seq<Byte>)
    ensures Symbolic(t) <==> |t| >= 5 && t[0] == OPEN && t[1] == DOT && t[3] == DOT && t[4] == CLOSE
  {
    if b: Byte :| StartsWith(t, AtomText(Symbol(b))) {
      assert t[..5] == AtomText(Symbol(b));
      assert t[0] == t[..5][0] && t[1] == t[..5][1] && t[3] == t[..5][3] && t[4] == t[..5][4];
    }
    if |t| >= 5 && t[0] == OPEN && t[1] == DOT && t[3] == DOT && t[4] == CLOSE {
      assert t[..5] == AtomText(Symbol(t[2]));
      assert StartsWith(t, AtomText(Symbol(t[2])));
    }
  }

  lemma SameAt(t: seq<Byte>, b: Byte)
    ensures StartsWith(t, Text(Same(b))) <==>
      |t| >= 5 && t[0] == OPEN && t[1] == EQUALS && t[2] == b && t[3] == EQUALS && t[4] == CLOSE
  {
    if StartsWith(t, Text(Same(b))) {
      assert t[..5] == Text(Same(b));
      assert forall k :: 0 <= k < 5 ==> t[k] == t[..5][k];
    }
    if |t| >= 5 && t[0] == OPEN && t[1] == EQUALS && t[2] == b && t[3] == EQUALS && t[4] == CLOSE {
      assert t[..5] == Text(Same(b));
    }
  }

  /** The atom a text opens with, as a member begins or as a range ends, is determined. */
  lemma AtomAt(t: seq<Byte>, a: Atom)
    requires StartsWith(t, AtomText(a))
    ensures a.Symbol? ==> |t| >= 5 && t[0] == OPEN && t[1] == DOT && a.b == t[2] && t[3] == DOT && t[4] == CLOSE
    ensures a.Quoted? ==> |t| >= 2 && t[0] == ESCAPE && a.b == t[1]
    ensures a.Plain? ==> a.b == t[0] && t == [a.b] + t[1..]
  {
    var x := AtomText(a);
    assert forall k :: 0 <= k < |x| ==> t[k] == t[..|x|][k];
  }

  lemma KindAt(t: seq<Byte>, n: Name)
    requires StartsWith(t, Text(Kind(n)))
    ensures |t| >= 8 && t[0] == OPEN && t[1] == COLON && t[2] == Sign(n).0 as int && t[4] == Sign(n).1 as int
  {
    var x := Text(Kind(n));
    assert x[2] == Spelling(n)[0] && x[4] == Spelling(n)[2];
    assert forall k :: 0 <= k < |x| ==> t[k] == t[..|x|][k];
  }

  lemma SplitText(t: seq<Byte>, x: seq<Byte>, y: seq<Byte>)
    requires StartsWith(t, x + y)
    ensures StartsWith(t, x) && StartsWith(t[|x|..], y) && t[|x|..][|y|..] == t[|x + y|..]
    ensures t[|x|..] == y + t[|x + y|..]
  {
    var all := x + y;
    assert t == all + t[|all|..];
    assert t[..|x|] == all[..|x|] == x;
    assert t[|x|..][..|y|] == all[|x|..] == y;
  }

  /** The character a member begins with. */
  function Lead(m: Member): Atom
    requires m.Single? || m.Range?
  {
    if m.Single? then m.a else m.lo
  }

  /** a begins a member of t. */
  predicate LeadsOff(t: seq<Byte>, a: Atom, first: bool) {
    && StartsWith(t, AtomText(a))
    && (a.Plain? ==> a.b != ESCAPE && (a.b == CLOSE ==> first) && (a.b == OPEN ==> !Special(t)))
  }

  /** a ends a range of t. */
  predicate EndsOff(t: seq<Byte>, a: Atom) {
    && StartsWith(t, AtomText(a))
    && (a.Plain? ==> a.b != ESCAPE && a.b != CLOSE && (a.b == OPEN ==> !Symbolic(t)))
  }

  lemma BeginsAt(t: seq<Byte>, a: Atom, first: bool)
    requires StartsWith(t, AtomText(a))
    ensures Begins(a, first, t[|AtomText(a)|..]) <==> LeadsOff(t, a, first)
    ensures Ends(a, t[|AtomText(a)|..]) <==> EndsOff(t, a)
  {
    hide Special, Symbolic;
    AtomAt(t, a);
  }

  /** A single character at the start of t: no hyphen within follows. */
  lemma SingleAt(t: seq<Byte>, a: Atom, first: bool)
    requires StartsWith(t, AtomText(a))
    ensures Proper(Single(a), first, t[|AtomText(a)|..]) <==> LeadsOff(t, a, first) && !HyphenWithin(t[|AtomText(a)|..])
  {
    hide Special, Symbolic, LeadsOff, Begins, EndsOff, Ends;
    BeginsAt(t, a, first);
  }

  /** A range at the start of t: a character, a hyphen within, and a character that may end it. */
  lemma RangeAt(t: seq<Byte>, lo: Atom, hi: Atom, first: bool)
    requires StartsWith(t, Text(Range(lo, hi))) && Proper(Range(lo, hi), first, t[|Text(Range(lo, hi))|..])
    ensures LeadsOff(t, lo, first) && HyphenWithin(t[|AtomText(lo)|..]) && EndsOff(t[|AtomText(lo)| + 1..], hi)
  {
    hide Special, Symbolic, LeadsOff, Begins, EndsOff, Ends;
    var l, h := AtomText(lo), AtomText(hi);
    assert l + [DASH] + h == l + ([DASH] + h);
    SplitText(t, l, [DASH] + h);
    var after := t[|l|..];
    SplitText(after, [DASH], h);
    assert after[1..] == t[|l| + 1..];
    assert after == [DASH] + h + t[|Text(Range(lo, hi))|..];
    BeginsAt(t, lo, first);
    BeginsAt(after[1..], hi, first);
    assert t[|l| + 1..][|h|..] == t[|Text(Range(lo, hi))|..];
    EndHead(after[1..], hi);
    assert after[0] == DASH && after[1] == after[1..][0];
  }

  lemma EndHead(t: seq<Byte>, a: Atom)
    requires EndsOff(t, a)
    ensures t != [] && t[0] != CLOSE
  {
    AtomAt(t, a);
  }

  lemma CharacterAt(t: seq<Byte>, m: Member, first: bool)
    requires StartsWith(t, Text(m)) && Proper(m, first, t[|Text(m)|..]) && (m.Single? || m.Range?)
    ensures LeadsOff(t, Lead(m), first) && (m.Range? <==> HyphenWithin(t[|AtomText(Lead(m))|..]))
    ensures m.Range? ==> EndsOff(t[|AtomText(m.lo)| + 1..], m.hi)
  {
    hide LeadsOff, HyphenWithin, EndsOff, Begins, Ends;
    match m
    case Single(a) => SingleAt(t, a, first);
    case Range(lo, hi) => RangeAt(t, lo, hi, first);
  }

  lemma OneAtom(t: seq<Byte>, a: Atom, b: Atom, first: bool)
    requires (LeadsOff(t, a, first) && LeadsOff(t, b, first)) || (EndsOff(t, a) && EndsOff(t, b))
    ensures a == b
  {
    AtomAt(t, a);
    AtomAt(t, b);
    SymbolicAt(t);
  }

  lemma OneMember(t: seq<Byte>, m: Member, n: Member, first: bool)
    requires StartsWith(t, Text(m)) && Proper(m, first, t[|Text(m)|..])
    requires StartsWith(t, Text(n)) && Proper(n, first, t[|Text(n)|..])
    ensures m == n
  {
    hide Text, Proper, Special;
    if m.Kind? || m.Same? || n.Kind? || n.Same? {
      Telling(t, m, first);
      Telling(t, n, first);
    } else {
      OneCharacter(t, m, n, first);
    }
  }

  lemma OneCharacter(t: seq<Byte>, m: Member, n: Member, first: bool)
    requires StartsWith(t, Text(m)) && Proper(m, first, t[|Text(m)|..]) && (m.Single? || m.Range?)
    requires StartsWith(t, Text(n)) && Proper(n, first, t[|Text(n)|..]) && (n.Single? || n.Range?)
    ensures m == n
  {
    hide EndsOff, Proper, Text;
    CharacterAt(t, m, first);
    CharacterAt(t, n, first);
    OneAtom(t, Lead(m), Lead(n), first);
    if m.Range? {
      OneAtom(t[|AtomText(m.lo)| + 1..], m.hi, n.hi, first);
    }
  }

  /** The bytes that tell a class and an equivalence class from everything else. */
  lemma Telling(t: seq<Byte>, m: Member, first: bool)
    requires StartsWith(t, Text(m)) && Proper(m, first, t[|Text(m)|..])
    ensures m.Kind? ==>
      |t| >= 8 && t[0] == OPEN && t[1] == COLON && t[2] == Sign(m.name).0 as int && t[4] == Sign(m.name).1 as int
    ensures m.Same? ==> |t| >= 5 && t[0] == OPEN && t[1] == EQUALS && t[2] == m.c
    ensures m.Kind? || m.Same? ==> Special(t)
    ensures m.Single? || m.Range? ==> t[0] != OPEN || !Special(t) || (|t| >= 2 && t[1] == DOT)
  {
    match m
    case Kind(n) => KindAt(t, n);
    case Same(b) => SameAt(t, b);
    case Single(a) =>
      SingleAt(t, a, first);
      AtomAt(t, a);
    case Range(lo, hi) =>
      RangeAt(t, lo, hi, first);
      AtomAt(t, lo);
  }

  /** Two readings of one text go the same way for as long as both go on. */
  lemma {:induction false} OneReading(t: seq<Byte>, ms: seq<Member>, rest: seq<Byte>, ns: seq<Member>,
          other: seq<Byte>, first: bool)
    requires Body(t, ms, first, rest) && Body(t, ns, first, other)
    ensures ms <= ns || ns <= ms
    ensures ms == ns ==> rest == other
    decreases |ms|
  {
    if ms != [] && ns != [] {
      OneMember(t, ms[0], ns[0], first);
      OneReading(t[|Text(ms[0])|..], ms[1..], rest, ns[1..], other, false);
      assert ms == [ms[0]] + ms[1..] && ns == [ns[0]] + ns[1..];
    }
  }

  lemma NotClose(t: seq<Byte>, m: Member)
    requires StartsWith(t, Text(m)) && Proper(m, false, t[|Text(m)|..])
    ensures t[0] != CLOSE
  {
    Telling(t, m, false);
    if m.Single? || m.Range? {
      CharacterAt(t, m, false);
      AtomAt(t, Lead(m));
    }
  }

  /** Nothing begins at a ] that is not first, so no reading goes on past a closed one. */
  lemma {:induction false} ClosedEnds(t: seq<Byte>, ms: seq<Member>, rest: seq<Byte>, ns: seq<Member>,
          other: seq<Byte>, first: bool)
    requires Body(t, ms, first, [CLOSE] + rest) && Body(t, ns, first, other)
    requires ms != [] || !first
    ensures ns <= ms
    decreases |ms|
  {
    if ns != [] {
      if ms == [] {
        assert t[0] == CLOSE;
        NotClose(t, ns[0]);
      } else {
        OneMember(t, ms[0], ns[0], first);
        ClosedEnds(t[|Text(ms[0])|..], ms[1..], rest, ns[1..], other, false);
        assert ms == [ms[0]] + ms[1..] && ns == [ns[0]] + ns[1..];
      }
    }
  }

  /** A pattern opens with at most one bracket expression. */
  lemma WrittenOnce(p: seq<Byte>, ms: seq<Member>, rest: seq<Byte>, ns: seq<Member>, other: seq<Byte>)
    requires p != [] && Written(p, ms, rest) && Written(p, ns, other)
    ensures ms == ns && rest == other
  {
    ClosedEnds(p[From(p)..], ms, rest, ns, [CLOSE] + other, true);
    ClosedEnds(p[From(p)..], ns, other, ms, [CLOSE] + rest, true);
    OneReading(p[From(p)..], ms, [CLOSE] + rest, ns, [CLOSE] + other, true);
    assert ([CLOSE] + rest)[1..] == rest && ([CLOSE] + other)[1..] == other;
  }

  // ----- the scanner reads it

  function Meaning(m: Member): Item {
    match m
    case Single(a) => Span(a.b, a.b)
    case Range(lo, hi) => Span(lo.b, hi.b)
    case Kind(n) => Named(n)
    case Same(c) => Span(c, c)
  }

  function Meanings(ms: seq<Member>): seq<Item> {
    if ms == [] then [] else [Meaning(ms[0])] + Meanings(ms[1..])
  }

  /** At i the scanner takes exactly the members ms, each for what it means, and then a closing ]. */
  predicate Scans(p: seq<Byte>, i: nat, ms: seq<Member>, first: bool)
    requires i <= |p|
    decreases |ms|
  {
    && i < |p|
    && if ms == [] then p[i] == CLOSE && !first
       else
         && !(p[i] == CLOSE && !first)
         && NextItem(p, i) == (Meaning(ms[0]), i + |Text(ms[0])|)
         && Scans(p, i + |Text(ms[0])|, ms[1..], false)
  }

  function End(ms: seq<Member>, i: nat): nat {
    if ms == [] then i else End(ms[1..], i + |Text(ms[0])|)
  }

  lemma {:induction false} ScansItems(p: seq<Byte>, i: nat, ms: seq<Member>, first: bool)
    requires i <= |p| && Scans(p, i, ms, first)
    ensures Items(p, i, first) == Some((End(ms, i) + 1, Meanings(ms)))
    decreases |ms|
  {
    hide NextItem, Text, Meaning;
    if ms != [] {
      ScansItems(p, i + |Text(ms[0])|, ms[1..], false);
    }
  }

  lemma CollatingIff(p: seq<Byte>, i: nat)
    requires i < |p|
    ensures Collating(p, i) <==> Symbolic(p[i..]) || (exists b: Byte :: StartsWith(p[i..], Text(Same(b))))
    ensures Collating(p, i) ==> |p| > i + 4 && (p[i + 1] == EQUALS ==> StartsWith(p[i..], Text(Same(p[i + 2]))))
    ensures Collating(p, i) ==> (p[i + 1] == DOT ==> StartsWith(p[i..], AtomText(Symbol(p[i + 2]))))
  {
    var t := p[i..];
    SymbolicAt(t);
    if Collating(p, i) {
      assert Together(p, i + 3, p[i + 1], CLOSE);
      assert t[0] == p[i] && t[1] == p[i + 1] && t[2] == p[i + 2] && t[3] == p[i + 3] && t[4] == p[i + 4];
      SameAt(t, p[i + 2]);
      if p[i + 1] == DOT { assert t[..5] == AtomText(Symbol(p[i + 2])); }
    }
    if Symbolic(t) { CollatesAt(p, i); }
    if b: Byte :| StartsWith(t, Text(Same(b))) {
      SameAt(t, b);
      CollatesAt(p, i);
    }
  }

  lemma CollatesAt(p: seq<Byte>, i: nat)
    requires i + 4 < |p| && p[i..][0] == OPEN && p[i..][4] == CLOSE
    requires p[i..][1] == p[i..][3] == DOT || p[i..][1] == p[i..][3] == EQUALS
    ensures Collating(p, i)
  {
    assert !Together(p, i + 2, p[i + 1], CLOSE) && Together(p, i + 3, p[i + 1], CLOSE);
    assert IndexOf(p, i + 3, p[i + 1], CLOSE) == i + 3;
  }

  lemma KindScans(p: seq<Byte>, i: nat, n: Name)
    requires i < |p| && StartsWith(p[i..], Text(Kind(n)))
    ensures NextItem(p, i) == (Named(n), i + |Text(Kind(n))|) && i + 1 < |p| && p[i] == OPEN && p[i + 1] == COLON
    ensures NamedAt(p, i) == Some((n, i + |Text(Kind(n))|))
  {
    hide NextItem, Spelling;
    assert Text(Kind(n)) == WriteItem(Named(n));
    assert p[i..i + |Text(Kind(n))|] == p[i..][..|Text(Kind(n))|];
    KindAt(p[i..], n);
    ReadsItem(p, i, Named(n));
    NamedFrom(p, i);
  }

  lemma NamedFrom(p: seq<Byte>, i: nat)
    requires i < |p| && NextItem(p, i).0.Named?
    ensures NamedAt(p, i) == Some((NextItem(p, i).0.name, NextItem(p, i).1))
  {
    hide NamedAt;
  }

  /** A class the scanner finds is written there. */
  lemma NamedWritten(p: seq<Byte>, i: nat)
    requires i + 1 < |p| && p[i] == OPEN && p[i + 1] == COLON && NamedAt(p, i).Some?
    ensures var (n, end) := NamedAt(p, i).value;
      StartsWith(p[i..], Text(Kind(n))) && end == i + |Text(Kind(n))|
  {
    var (n, end) := NamedAt(p, i).value;
    var e := end - 2;
    assert Together(p, e, COLON, CLOSE) && Spelling(n) == p[i + 2..e];
    assert p[i..end] == [OPEN, COLON] + p[i + 2..e] + [COLON, CLOSE];
    assert p[i..][..end - i] == p[i..end];
  }

  /** Where nothing special opens, the scanner takes one character, and a range over a hyphen within. */
  lemma CharacterScans(p: seq<Byte>, i: nat)
    requires i < |p| && (p[i] == OPEN ==> !Special(p[i..]))
    ensures var quoted := p[i] == ESCAPE && i + 1 < |p|;
      var lo, j := if quoted then p[i + 1] else p[i], if quoted then i + 2 else i + 1;
      NextItem(p, i) ==
        if !HyphenWithin(p[j..]) then (Span(lo, lo), j)
        else if p[j + 1] == ESCAPE && j + 2 < |p| then (Span(lo, p[j + 2]), j + 3)
        else (Span(lo, p[j + 1]), j + 2)
  {
    hide NamedAt, Text, Spelling;
    var named := if p[i] == OPEN && i + 1 < |p| && p[i + 1] == COLON then NamedAt(p, i) else None;
    if named.Some? {
      NamedWritten(p, i);
      assert false;
    }
    CollatingIff(p, i);
  }

  lemma SpecialAt(p: seq<Byte>, i: nat, t: seq<Byte>)
    requires i < |p| && t == p[i..] && p[i] != OPEN
    ensures !Special(t)
  {
    SymbolicAt(t);
    if b: Byte :| StartsWith(t, Text(Same(b))) { SameAt(t, b); }
    if n: Name :| StartsWith(t, Text(Kind(n))) { KindAt(t, n); }
  }

  /** A single character is scanned as written. */
  lemma SingleScanned(p: seq<Byte>, i: nat, a: Atom, first: bool)
    requires i < |p| && !a.Symbol? && LeadsOff(p[i..], a, first) && !HyphenWithin(p[i..][|AtomText(a)|..])
    ensures NextItem(p, i) == (Span(a.b, a.b), i + |AtomText(a)|)
  {
    hide NextItem, Special, Symbolic;
    AtomAt(p[i..], a);
    if p[i] != OPEN { SpecialAt(p, i, p[i..]); }
    CharacterScans(p, i);
    assert p[i..][|AtomText(a)|..] == p[i + |AtomText(a)|..];
  }

  /** A range is scanned as written exactly when it does not end at a collating symbol. */
  lemma RangeScanned(p: seq<Byte>, i: nat, lo: Atom, hi: Atom, first: bool)
    requires i < |p| && !lo.Symbol? && LeadsOff(p[i..], lo, first) && HyphenWithin(p[i..][|AtomText(lo)|..])
    requires EndsOff(p[i..][|AtomText(lo)| + 1..], hi)
    ensures !hi.Symbol? ==> NextItem(p, i) == (Span(lo.b, hi.b), i + |AtomText(lo)| + 1 + |AtomText(hi)|)
    ensures hi.Symbol? ==> NextItem(p, i).1 != i + |AtomText(lo)| + 1 + |AtomText(hi)|
  {
    hide NextItem, Special, Symbolic;
    AtomAt(p[i..], lo);
    if p[i] != OPEN { SpecialAt(p, i, p[i..]); }
    CharacterScans(p, i);
    var j := i + |AtomText(lo)|;
    assert p[i..][|AtomText(lo)|..] == p[j..] && p[i..][|AtomText(lo)| + 1..] == p[j + 1..];
    AtomAt(p[j + 1..], hi);
  }

  /** So is a member that does not begin with a collating symbol. */
  lemma CharacterScanned(p: seq<Byte>, i: nat, m: Member, first: bool)
    requires i < |p| && StartsWith(p[i..], Text(m)) && Proper(m, first, p[i..][|Text(m)|..])
    requires (m.Single? || m.Range?) && !Lead(m).Symbol?
    ensures m.Single? || !m.hi.Symbol? ==> NextItem(p, i) == (Meaning(m), i + |Text(m)|)
    ensures m.Range? && m.hi.Symbol? ==> NextItem(p, i).1 != i + |Text(m)|
  {
    hide NextItem, LeadsOff, EndsOff, HyphenWithin, Proper;
    CharacterAt(p[i..], m, first);
    match m
    case Single(a) => SingleScanned(p, i, a, first);
    case Range(lo, hi) => RangeScanned(p, i, lo, hi, first);
  }

  /** A member that begins with a collating symbol: taken as that one character, whatever follows. */
  lemma SymbolScanned(p: seq<Byte>, i: nat, m: Member, first: bool)
    requires i < |p| && StartsWith(p[i..], Text(m)) && Proper(m, first, p[i..][|Text(m)|..])
    requires (m.Single? || m.Range?) && Lead(m).Symbol?
    ensures NextItem(p, i) == (Span(Lead(m).b, Lead(m).b), i + 5)
  {
    var t := p[i..];
    CharacterAt(t, m, first);
    AtomAt(t, Lead(m));
    CollatesAt(p, i);
  }

  /** One member is scanned as written exactly when it is no range that ends in a collating symbol. */
  lemma MemberScanned(p: seq<Byte>, i: nat, m: Member, first: bool)
    requires i < |p| && StartsWith(p[i..], Text(m)) && Proper(m, first, p[i..][|Text(m)|..])
    ensures NextItem(p, i) == (Meaning(m), i + |Text(m)|) <==> !SymbolEnds(m)
    ensures p[i] == CLOSE ==> first
  {
    hide *;
    match m
    case Kind(n) => KindCase(p, i, n);
    case Same(b) => SameCase(p, i, b);
    case Single(_) => CharacterCase(p, i, m, first);
    case Range(_, _) => CharacterCase(p, i, m, first);
  }

  lemma KindCase(p: seq<Byte>, i: nat, n: Name)
    requires i < |p| && StartsWith(p[i..], Text(Kind(n)))
    ensures NextItem(p, i) == (Meaning(Kind(n)), i + |Text(Kind(n))|) && !SymbolEnds(Kind(n)) && p[i] != CLOSE
  {
    hide NextItem, Text;
    KindScans(p, i, n);
  }

  lemma SameCase(p: seq<Byte>, i: nat, b: Byte)
    requires i < |p| && StartsWith(p[i..], Text(Same(b)))
    ensures NextItem(p, i) == (Meaning(Same(b)), i + |Text(Same(b))|) && !SymbolEnds(Same(b)) && p[i] != CLOSE
  {
    SameAt(p[i..], b);
    CollatesAt(p, i);
    assert p[i] == OPEN && p[i + 1] == EQUALS && p[i + 2] == b;
  }

  lemma CharacterCase(p: seq<Byte>, i: nat, m: Member, first: bool)
    requires i < |p| && StartsWith(p[i..], Text(m)) && Proper(m, first, p[i..][|Text(m)|..]) && (m.Single? || m.Range?)
    ensures NextItem(p, i) == (Meaning(m), i + |Text(m)|) <==> !SymbolEnds(m)
    ensures p[i] == CLOSE ==> first
  {
    hide NextItem, Proper, Special;
    if Lead(m).Symbol? { SymbolScanned(p, i, m, first); } else { CharacterScanned(p, i, m, first); }
    CharacterAt(p[i..], m, first);
    AtomAt(p[i..], Lead(m));
  }

  predicate AnySymbolEnds(ms: seq<Member>) {
    exists k :: 0 <= k < |ms| && SymbolEnds(ms[k])
  }

  lemma {:induction false} BodyScanned(p: seq<Byte>, i: nat, ms: seq<Member>, first: bool, rest: seq<Byte>)
    requires i <= |p| && Body(p[i..], ms, first, [CLOSE] + rest) && (ms != [] || !first)
    ensures Scans(p, i, ms, first) <==> !AnySymbolEnds(ms)
    ensures End(ms, i) < |p| && p[End(ms, i) + 1..] == rest
    decreases |ms|
  {
    hide NextItem, Proper, Meaning, Text;
    if ms == [] {
      assert p[i..][0] == CLOSE && p[i..][1..] == p[i + 1..] && ([CLOSE] + rest)[1..] == rest;
    } else {
      var j := i + |Text(ms[0])|;
      assert p[i..][|Text(ms[0])|..] == p[j..];
      BodyScanned(p, j, ms[1..], false, rest);
      EndBeyond(ms[1..], j);
      MemberScanned(p, i, ms[0], first);
      assert ms == [ms[0]] + ms[1..];
      assert AnySymbolEnds(ms) <==> SymbolEnds(ms[0]) || AnySymbolEnds(ms[1..]) by {
        if k :| 0 <= k < |ms| && SymbolEnds(ms[k]) && k > 0 { assert SymbolEnds(ms[1..][k - 1]); }
        if k :| 0 <= k < |ms[1..]| && SymbolEnds(ms[1..][k]) { assert SymbolEnds(ms[k + 1]); }
      }
    }
  }

  lemma {:induction false} EndBeyond(ms: seq<Member>, i: nat)
    ensures End(ms, i) >= i
    decreases |ms|
  {
    if ms != [] { EndBeyond(ms[1..], i + |Text(ms[0])|); }
  }

  /**
   A bracket expression, whatever its members: the scanner takes them as written exactly when no
   range ends in a collating symbol, and then finds its length and its class.
   */
  lemma WrittenIsScanned(p: seq<Byte>, ms: seq<Member>, rest: seq<Byte>)
    requires p != [] && Written(p, ms, rest)
    ensures Scans(p, From(p), ms, true) <==> !AnySymbolEnds(ms)
    ensures !AnySymbolEnds(ms) ==>
      ReadBracket(p).Some? && p[ReadBracket(p).value.0..] == rest &&
        ReadBracket(p).value.1 == Class(Negated(p), Meanings(ms))
  {
    hide Scans, Body;
    BodyScanned(p, From(p), ms, true, rest);
    if !AnySymbolEnds(ms) { ScansItems(p, From(p), ms, true); }
  }

  /** What the scanner's class holds, said of the members. */
  lemma {:induction false} MeaningsContain(ms: seq<Member>, c: Byte)
    ensures InSome(Meanings(ms), c) <==> exists k :: 0 <= k < |ms| && Contains(ms[k], c)
  {
    if ms != [] {
      MeaningsContain(ms[1..], c);
      var its := Meanings(ms);
      assert its[1..] == Meanings(ms[1..]);
      assert InItem(its[0], c) == Contains(ms[0], c);
      if k :| 0 <= k < |its| && InItem(its[k], c) && k > 0 { assert InItem(its[1..][k - 1], c); }
      if k :| 0 <= k < |its[1..]| && InItem(its[1..][k], c) { assert InItem(its[k + 1], c); }
      if k :| 0 <= k < |ms| && Contains(ms[k], c) && k > 0 { assert Contains(ms[1..][k - 1], c); }
      if k :| 0 <= k < |ms[1..]| && Contains(ms[1..][k], c) { assert Contains(ms[k + 1], c); }
    }
  }

  // ----- whatever the scanner reads is written

  lemma JoinText(t: seq<Byte>, x: seq<Byte>, y: seq<Byte>)
    requires StartsWith(t, x) && StartsWith(t[|x|..], y)
    ensures StartsWith(t, x + y) && t[|x + y|..] == t[|x|..][|y|..]
    ensures t[|x|..] == y + t[|x + y|..]
  {
    assert t == x + (y + t[|x|..][|y|..]);
  }

  lemma RangeThere(t: seq<Byte>, lo: Atom, hi: Atom, first: bool)
    requires LeadsOff(t, lo, first) && HyphenWithin(t[|AtomText(lo)|..]) && EndsOff(t[|AtomText(lo)| + 1..], hi)
    ensures StartsWith(t, Text(Range(lo, hi))) && Proper(Range(lo, hi), first, t[|Text(Range(lo, hi))|..])
  {
    hide Special, Symbolic, Begins, Ends;
    var l, h := AtomText(lo), AtomText(hi);
    var after := t[|l|..];
    assert StartsWith(after, [DASH]) && after[1..] == t[|l| + 1..];
    JoinText(after, [DASH], h);
    JoinText(t, l, [DASH] + h);
    assert l + [DASH] + h == l + ([DASH] + h);
    BeginsAt(t, lo, first);
    BeginsAt(after[1..], hi, first);
    assert after[1..][|h|..] == t[|Text(Range(lo, hi))|..];
    assert after == [DASH] + h + t[|Text(Range(lo, hi))|..];
  }

  lemma NothingAfter(p: seq<Byte>, i: nat, first: bool)
    requires i < |p| && p[i] == ESCAPE && i + 1 == |p|
    ensures Items(p, i, first) == None
  {
    SpecialAt(p, i, p[i..]);
    CharacterScans(p, i);
    assert Items(p, i + 1, false) == None;
  }

  /** The end of a range over a hyphen within, unless the text ends in a lone backslash. */
  lemma EndThere(p: seq<Byte>, e: nat) returns (hi: Atom)
    requires e < |p| && p[e] != CLOSE && !(p[e] == ESCAPE && e + 1 == |p|)
    ensures EndsOff(p[e..], hi)
    ensures !hi.Symbol? ==> hi == if p[e] == ESCAPE then Quoted(p[e + 1]) else Plain(p[e])
  {
    SymbolicAt(p[e..]);
    if Symbolic(p[e..]) {
      hi := Symbol(p[e + 2]);
      assert p[e..][..5] == AtomText(hi);
    } else if p[e] == ESCAPE {
      hi := Quoted(p[e + 1]);
      assert p[e..][..2] == AtomText(hi);
    } else {
      hi := Plain(p[e]);
      assert p[e..][..1] == AtomText(hi);
    }
  }

  /** The character a member at i begins with, where no class opens. */
  lemma LeadThere(p: seq<Byte>, i: nat, first: bool) returns (a: Atom)
    requires i < |p| && !(p[i] == CLOSE && !first) && !(p[i] == ESCAPE && i + 1 == |p|)
    requires Symbolic(p[i..]) || !Special(p[i..])
    ensures LeadsOff(p[i..], a, first)
    ensures a.Symbol? <==> Symbolic(p[i..])
    ensures !a.Symbol? ==> a == if p[i] == ESCAPE then Quoted(p[i + 1]) else Plain(p[i])
  {
    hide Special;
    SymbolicAt(p[i..]);
    if Symbolic(p[i..]) {
      a := Symbol(p[i + 2]);
      assert p[i..][..5] == AtomText(a);
    } else if p[i] == ESCAPE {
      a := Quoted(p[i + 1]);
      assert p[i..][..2] == AtomText(a);
    } else {
      a := Plain(p[i]);
      assert p[i..][..1] == AtomText(a);
    }
  }

  /** Where no class opens and the scan goes on to a close, a character or a range is written. */
  lemma CharacterThere(p: seq<Byte>, i: nat, first: bool) returns (m: Member)
    requires i < |p| && !(p[i] == CLOSE && !first) && Items(p, i, first).Some?
    requires Symbolic(p[i..]) || !Special(p[i..])
    ensures StartsWith(p[i..], Text(m)) && Proper(m, first, p[i..][|Text(m)|..])
  {
    hide Special, Symbolic, Items, Text, NextItem, LeadsOff, EndsOff, Proper;
    if p[i] == ESCAPE && i + 1 == |p| { NothingAfter(p, i, first); }
    var a := LeadThere(p, i, first);
    LeadStarts(p[i..], a, first);
    var j := i + |AtomText(a)|;
    assert p[i..][|AtomText(a)|..] == p[j..];
    if HyphenWithin(p[j..]) {
      assert p[i..][|AtomText(a)| + 1..] == p[j + 1..];
      if p[j + 1] == ESCAPE && j + 2 == |p| { HangingRange(p, i, a, first); }
      var hi := EndThere(p, j + 1);
      RangeThere(p[i..], a, hi, first);
      m := Range(a, hi);
    } else {
      SingleAt(p[i..], a, first);
      m := Single(a);
      SingleText(a);
    }
  }

  lemma SingleText(a: Atom)
    ensures Text(Single(a)) == AtomText(a)
  {
  }

  lemma LeadStarts(t: seq<Byte>, a: Atom, first: bool)
    requires LeadsOff(t, a, first)
    ensures StartsWith(t, AtomText(a))
  {
  }

  /** A range that would end in the pattern's last backslash never closes. */
  lemma HangingRange(p: seq<Byte>, i: nat, a: Atom, first: bool)
    requires i < |p| && LeadsOff(p[i..], a, first) && !(p[i] == CLOSE && !first)
    requires var j := i + |AtomText(a)|; j + 2 == |p| && p[j] == DASH && p[j + 1] == ESCAPE
    requires Symbolic(p[i..]) || !Special(p[i..])
    requires !a.Symbol? ==> !Symbolic(p[i..])
    ensures Items(p, i, first) == None
  {
    hide Special, Symbolic;
    var j := i + |AtomText(a)|;
    AtomAt(p[i..], a);
    if a.Symbol? {
      CollatesAt(p, i);
      SpecialAt(p, j, p[j..]);
      CharacterScans(p, j);
      NothingAfter(p, j + 1, false);
      assert Items(p, j, false) == None;
    } else {
      if p[i] != OPEN { SpecialAt(p, i, p[i..]); }
      CharacterScans(p, i);
      assert Items(p, |p|, false) == None;
    }
  }

  /** Wherever the scan goes on to a close, some member is written. */
  lemma MemberThere(p: seq<Byte>, i: nat, first: bool) returns (m: Member)
    requires i < |p| && !(p[i] == CLOSE && !first) && Items(p, i, first).Some?
    ensures StartsWith(p[i..], Text(m)) && Proper(m, first, p[i..][|Text(m)|..])
  {
    hide Items, NextItem, NamedAt, Symbolic, Text;
    if n: Name :| StartsWith(p[i..], Text(Kind(n))) {
      m := Kind(n);
    } else if b: Byte :| StartsWith(p[i..], Text(Same(b))) {
      m := Same(b);
    } else {
      m := CharacterThere(p, i, first);
    }
  }

  /** What the scanner reads to a close is written, up to a range that ends in a collating symbol if there is one. */
  lemma {:induction false} ItemsWritten(p: seq<Byte>, i: nat, first: bool) returns (ms: seq<Member>, rest: seq<Byte>)
    requires i <= |p| && Items(p, i, first).Some?
    ensures Body(p[i..], ms, first, rest)
    ensures !AnySymbolEnds(ms) ==> (ms != [] || !first) && rest != [] && rest[0] == CLOSE
    decreases |p| - i
  {
    hide NextItem, Proper, Text;
    if p[i] == CLOSE && !first {
      return [], p[i..];
    }
    var m := MemberThere(p, i, first);
    MemberScanned(p, i, m, first);
    var j := i + |Text(m)|;
    assert p[i..][|Text(m)|..] == p[j..];
    if SymbolEnds(m) {
      ms, rest := [m], p[j..];
      assert Body(p[j..], [], false, rest) && ms[1..] == [] && SymbolEnds(ms[0]);
    } else {
      var more;
      more, rest := ItemsWritten(p, j, false);
      ms := [m] + more;
      assert ms[1..] == more;
      if !AnySymbolEnds(ms) {
        forall k | 0 <= k < |more| ensures !SymbolEnds(more[k]) { assert ms[k + 1] == more[k]; }
      }
    }
  }

  // ----- exactly when scanner and grammar agree

  /** Both find the same members there, or neither finds a bracket expression. */
  ghost predicate Agree(p: seq<Byte>)
    requires p != []
  {
    || (ReadBracket(p) == None && !exists ms, rest :: Written(p, ms, rest))
    || (exists ms, rest :: Written(p, ms, rest) && Scans(p, From(p), ms, true))
  }

  /** Somewhere before any close a range ends in a collating symbol. */
  ghost predicate SymbolEndsRange(p: seq<Byte>)
    requires p != []
  {
    exists ms, rest :: Opened(p, ms, rest) && AnySymbolEnds(ms)
  }

  /**
   Every pattern: the scanner agrees with the grammar exactly when no range ends in a collating
   symbol, or the [ is a literal to both.
   */
  lemma AgreeExactly(p: seq<Byte>)
    requires p != []
    ensures Agree(p) <==>
      !SymbolEndsRange(p) || (ReadBracket(p) == None && !exists ms, rest :: Written(p, ms, rest))
  {
    hide Scans, Body;
    if !SymbolEndsRange(p) && ReadBracket(p).Some? {
      var ms, rest := ItemsWritten(p, From(p), true);
      assert Opened(p, ms, rest);
      assert rest == [CLOSE] + rest[1..];
      assert Written(p, ms, rest[1..]);
      WrittenIsScanned(p, ms, rest[1..]);
    }
    if ms: seq<Member>, rest: seq<Byte> :| Written(p, ms, rest) {
      assert Opened(p, ms, [CLOSE] + rest);
      WrittenIsScanned(p, ms, rest);
    }
    if ms: seq<Member>, rest: seq<Byte> :| Written(p, ms, rest) && Scans(p, From(p), ms, true) {
      WrittenIsScanned(p, ms, rest);
      if ns: seq<Member>, other: seq<Byte> :| Opened(p, ns, other) && AnySymbolEnds(ns) {
        ClosedEnds(p[From(p)..], ms, rest, ns, other, true);
      }
    }
  }

  // ----- such a range, never closed

  lemma {:induction false} NoClose(p: seq<Byte>, i: nat, first: bool)
    requires i <= |p| && CLOSE !in p[i..]
    ensures Items(p, i, first) == None
    decreases |p| - i
  {
    hide NextItem;
    if i < |p| {
      assert p[i..][0] == p[i];
      var j := NextItem(p, i).1;
      assert p[j..] == p[i..][j - i..];
      NoClose(p, j, false);
    }
  }

  /** The scanner goes through members as written and finds nothing after them. */
  lemma {:induction false} NothingBeyond(p: seq<Byte>, i: nat, ms: seq<Member>, first: bool, rest: seq<Byte>)
    requires i <= |p| && Body(p[i..], ms, first, rest) && !AnySymbolEnds(ms) && rest != []
    requires forall e: nat, f: bool :: e < |p| && p[e..] == rest ==> Items(p, e, f) == None
    ensures Items(p, i, first) == None
    decreases |ms|
  {
    hide NextItem, Proper, Text;
    if ms != [] {
      var j := i + |Text(ms[0])|;
      assert p[i..][|Text(ms[0])|..] == p[j..];
      MemberScanned(p, i, ms[0], first);
      forall k | 0 <= k < |ms[1..]| ensures !SymbolEnds(ms[1..][k]) { assert ms[k + 1] == ms[1..][k]; }
      NothingBeyond(p, j, ms[1..], false, rest);
    }
  }

  lemma {:induction false} BodyGoesOn(t: seq<Byte>, ms: seq<Member>, rest: seq<Byte>, ns: seq<Member>,
          other: seq<Byte>, first: bool)
    requires Body(t, ms, first, rest) && Body(t, ns, first, other) && ms <= ns
    ensures Body(rest, ns[|ms|..], first && ms == [], other)
    decreases |ms|
  {
    hide Proper, Text;
    if ms != [] {
      BodyGoesOn(t[|Text(ms[0])|..], ms[1..], rest, ns[1..], other, false);
      assert ns[1..][|ms| - 1..] == ns[|ms|..];
    }
  }

  lemma {:induction false} BodyHolds(t: seq<Byte>, ms: seq<Member>, first: bool, rest: seq<Byte>, b: Byte)
    requires Body(t, ms, first, rest) && b in rest
    ensures b in t
    decreases |ms|
  {
    if ms != [] { BodyHolds(t[|Text(ms[0])|..], ms[1..], false, rest, b); }
  }

  /** The start of a range at a collating symbol, and what stands after the hyphen. */
  function Dangling(b: Byte, u: seq<Byte>): (t: seq<Byte>)
    ensures |t| == |u| + 6 && t[0] == OPEN && t[1] == t[3] == DOT && t[4] == CLOSE
    ensures t[5..] == [DASH] + u
  {
    AtomText(Symbol(b)) + [DASH] + u
  }

  lemma DanglingNone(p: seq<Byte>, e: nat, b: Byte, u: seq<Byte>, first: bool)
    requires e < |p| && p[e..] == Dangling(b, u) && CLOSE !in u
    ensures Items(p, e, first) == None
  {
    hide Dangling;
    assert p[e] == p[e..][0];
    CollatesAt(p, e);
    assert p[e + 5..] == p[e..][5..];
    NoClose(p, e + 5, false);
  }

  /** A member that begins at a collating symbol takes all of it. */
  lemma DanglingLead(t: seq<Byte>, m: Member, first: bool)
    requires Symbolic(t) && StartsWith(t, Text(m)) && Proper(m, first, t[|Text(m)|..])
    ensures |Text(m)| >= 5
  {
    hide Proper, Text;
    SymbolicAt(t);
    Telling(t, m, first);
    if m.Single? || m.Range? {
      CharacterAt(t, m, first);
      AtomAt(t, Lead(m));
      LeadWithin(m);
    }
  }

  lemma LeadWithin(m: Member)
    requires m.Single? || m.Range?
    ensures |Text(m)| >= |AtomText(Lead(m))|
  {
  }

  /** Nothing closes after such a start with no ] beyond. */
  lemma DanglingUnwritten(b: Byte, u: seq<Byte>, ns: seq<Member>, other: seq<Byte>, first: bool)
    requires CLOSE !in u
    ensures !Body(Dangling(b, u), ns, first, [CLOSE] + other)
  {
    hide Dangling, Proper, Text;
    var t := Dangling(b, u);
    if ns != [] && Body(t, ns, first, [CLOSE] + other) {
      SymbolicAt(t);
      DanglingLead(t, ns[0], first);
      var n := |Text(ns[0])|;
      assert t[n..] == t[5..][n - 5..];
      BodyHolds(t[n..], ns[1..], false, [CLOSE] + other, CLOSE);
      assert false;
    }
  }

  /**
   A range that begins at a collating symbol, in an expression with no ] after it: the [ is a
   literal to both, though the scanner takes the range apart.
   */
  lemma UnclosedAgrees(p: seq<Byte>, ms: seq<Member>, b: Byte, u: seq<Byte>)
    requires p != [] && Opened(p, ms, Dangling(b, u)) && !AnySymbolEnds(ms) && CLOSE !in u
    ensures ReadBracket(p) == None && (forall ns, other :: !Written(p, ns, other)) && Agree(p)
  {
    hide Dangling, Body, Items, AnySymbolEnds;
    forall e: nat, f: bool | e < |p| && p[e..] == Dangling(b, u) ensures Items(p, e, f) == None {
      DanglingNone(p, e, b, u, f);
    }
    NothingBeyond(p, From(p), ms, true, Dangling(b, u));
    forall ns, other ensures !Written(p, ns, other) {
      if Written(p, ns, other) {
        ClosedEnds(p[From(p)..], ns, other, ms, Dangling(b, u), true);
        BodyGoesOn(p[From(p)..], ms, Dangling(b, u), ns, [CLOSE] + other, true);
        DanglingUnwritten(b, u, ns[|ms|..], other, ms == []);
      }
    }
  }

  // ----- what such patterns match

  /** Without such a range a bracket expression matches one byte: one that some member contains, or with ! or ^ none. */
  lemma WrittenMatches(p: seq<Byte>, ms: seq<Member>, rest: seq<Byte>, s: seq<Byte>)
    requires p != [] && p[0] == OPEN && Written(p, ms, rest) && !AnySymbolEnds(ms)
    ensures Matches(Read(p), s) <==>
      s != [] && (exists k :: 0 <= k < |ms| && Contains(ms[k], s[0])) != Negated(p) && Matches(Read(rest), s[1..])
  {
    hide Matches, Read, Body, Scans, Contains;
    WrittenIsScanned(p, ms, rest);
    TakeBracket(p, s);
    if s != [] { MeaningsContain(ms, s[0]); }
  }

  /** A [ that opens no bracket expression, and before which no such range stands, is a literal. */
  lemma UnwrittenMatches(p: seq<Byte>, s: seq<Byte>)
    requires p != [] && p[0] == OPEN && !SymbolEndsRange(p) && !exists ms, rest :: Written(p, ms, rest)
    ensures Matches(Read(p), s) <==> s != [] && s[0] == OPEN && Matches(Read(p[1..]), s[1..])
  {
    hide Matches, Read, Body, Scans;
    AgreeExactly(p);
    TakeBracket(p, s);
  }

  // ----- the example of section 9.3.5 of the Base Definitions, and the members it has there

  const EXAMPLE: seq<Byte> := [OPEN, CLOSE, OPEN, DOT, DASH, DOT, CLOSE, DASH, '0' as int, CLOSE]
  const ZERO: Byte := '0' as int
  const EXAMPLE_ITEMS := [Span(CLOSE, CLOSE), Span(DASH, DASH), Span(DASH, DASH), Span(ZERO, ZERO)]

  lemma ExampleWritten()
    ensures Written(EXAMPLE, [Single(Plain(CLOSE)), Range(Symbol(DASH), Plain(ZERO))], [])
  {
    var first, second := Single(Plain(CLOSE)), Range(Symbol(DASH), Plain(ZERO));
    var t := EXAMPLE[1..];
    var u := t[1..];
    assert Text(first) == [CLOSE] && t[..1] == [CLOSE];
    assert Text(second) == [OPEN, DOT, DASH, DOT, CLOSE, DASH, ZERO] && u[..7] == Text(second);
    assert u[7..] == [CLOSE] == [CLOSE] + [];
    assert Body(u[7..], [], false, [CLOSE] + []);
    assert [second][1..] == [] && [first, second][1..] == [second];
    assert Proper(second, false, u[7..]) && Body(u, [second], false, [CLOSE] + []);
    assert Proper(first, true, u) && Body(t, [first, second], true, [CLOSE] + []);
  }

  lemma ExampleScanned()
    ensures ReadBracket(EXAMPLE) == Some((10, Class(false, EXAMPLE_ITEMS)))
  {
    var p := EXAMPLE;
    SpecialAt(p, 1, p[1..]);
    CharacterScans(p, 1);
    assert p[2..][0] == OPEN && p[2..][4] == CLOSE && p[2..][1] == p[2..][3] == DOT;
    CollatesAt(p, 2);
    assert NextItem(p, 2) == (Span(DASH, DASH), 7);
    SpecialAt(p, 7, p[7..]);
    CharacterScans(p, 7);
    SpecialAt(p, 8, p[8..]);
    CharacterScans(p, 8);
    assert NextItem(p, 1) == (Span(CLOSE, CLOSE), 2) && NextItem(p, 7) == (Span(DASH, DASH), 8);
    assert NextItem(p, 8) == (Span(ZERO, ZERO), 9);
    hide NextItem, Items;
    ItemsUnfold(p, 9, false);
    ItemsUnfold(p, 8, false);
    ItemsUnfold(p, 7, false);
    ItemsUnfold(p, 2, false);
    ItemsUnfold(p, 1, true);
    var close, dash, zero := Span(CLOSE, CLOSE), Span(DASH, DASH), Span(ZERO, ZERO);
    assert Items(p, 8, false) == Some((10, [zero])) by { assert [zero] + [] == [zero]; }
    assert [close] + ([dash] + ([dash] + [zero])) == [close, dash, dash, zero];
  }

  lemma ExampleMisses()
    ensures !Matches(Read(EXAMPLE), [DOT])
  {
    ExampleScanned();
    hide Items, Read, Matches;
    TakeBracket(EXAMPLE, [DOT]);
    assert !InSome(EXAMPLE_ITEMS, DOT);
  }

  /** [][.-.]-0] is ] and the range from - to 0, which holds the dot; the matcher's class does not. */
  lemma ExampleWitness() returns (ms: seq<Member>)
    ensures Written(EXAMPLE, ms, []) && (exists k :: 0 <= k < |ms| && Contains(ms[k], DOT)) && !Negated(EXAMPLE)
    ensures !Matches(Read(EXAMPLE), [DOT]) && !Agree(EXAMPLE)
  {
    ms := [Single(Plain(CLOSE)), Range(Symbol(DASH), Plain(ZERO))];
    ExampleWritten();
    ExampleMisses();
    hide Written, Opened, Agree, Matches, Read, Items;
    assert Contains(ms[1], DOT) && SymbolEnds(ms[1]);
    WrittenOpens(EXAMPLE, ms, []);
    AgreeExactly(EXAMPLE);
  }

  lemma WrittenOpens(p: seq<Byte>, ms: seq<Member>, rest: seq<Byte>)
    requires p != [] && Written(p, ms, rest)
    ensures Opened(p, ms, [CLOSE] + rest)
  {
  }
}
