/**
 Restore drills: which services a run takes, and what it still owes them. A selection is
 saved as pending before anything is restored, so a run killed at any point is taken up again
 where it was; the rotation moves on only from a selection that is done.
 */
module Drill {
  import opened Options
  import Runs

  datatype Name = Name(text: string)

  /** What drills of one kind remember between runs, storage by storage. */
  datatype Memory = Memory(pending: map<Name, seq<Name>>, rotation: map<Name, nat>)

  function PendingOn(m: Memory, storage: Name): seq<Name> {
    if storage in m.pending then m.pending[storage] else []
  }

  function RotationOn(m: Memory, storage: Name): nat {
    if storage in m.rotation then m.rotation[storage] else 0
  }

  predicate Distinct(s: seq<Name>) {
    forall i, j :: 0 <= i < j < |s| ==> s[i] != s[j]
  }

  function Kept(names: seq<Name>, among: seq<Name>): seq<Name> {
    if names == [] then []
    else Kept(names[..|names| - 1], among) + (if names[|names| - 1] in among then [names[|names| - 1]] else [])
  }

  lemma {:induction false} KeptMember(names: seq<Name>, among: seq<Name>, n: Name)
    ensures n in Kept(names, among) <==> n in names && n in among
  {
    if names != [] {
      KeptMember(names[..|names| - 1], among, n);
      assert names == names[..|names| - 1] + [names[|names| - 1]];
    }
  }

  function Less(names: seq<Name>, gone: Name): seq<Name> {
    if names == [] then []
    else Less(names[..|names| - 1], gone) + (if names[|names| - 1] != gone then [names[|names| - 1]] else [])
  }

  lemma {:induction false} LessMember(names: seq<Name>, gone: Name, n: Name)
    ensures n in Less(names, gone) <==> n in names && n != gone
  {
    if names != [] {
      LessMember(names[..|names| - 1], gone, n);
      assert names == names[..|names| - 1] + [names[|names| - 1]];
    }
  }

  /** Each name is added once. */
  function With(names: seq<Name>, more: seq<Name>): seq<Name> {
    if more == [] then names
    else
      var before, last := With(names, more[..|more| - 1]), more[|more| - 1];
      if last in before then before else before + [last]
  }

  lemma {:induction false} WithMember(names: seq<Name>, more: seq<Name>, n: Name)
    ensures n in With(names, more) <==> n in names || n in more
  {
    if more != [] {
      WithMember(names, more[..|more| - 1], n);
      assert more == more[..|more| - 1] + [more[|more| - 1]];
    }
  }

  lemma {:induction false} WithPresent(names: seq<Name>, more: seq<Name>)
    requires forall n :: n in more ==> n in names
    ensures With(names, more) == names
  {
    if more != [] {
      WithPresent(names, more[..|more| - 1]);
    }
  }

  function Window(services: seq<Name>, start: nat, count: nat): seq<Name>
    requires services != []
  {
    seq(count, i requires 0 <= i < count => services[(start + i) % |services|])
  }

  /** A run that takes the next services in turn: nothing named, nothing pending, not all of them. */
  predicate Fresh(m: Memory, storage: Name, services: seq<Name>, count: nat, named: bool) {
    !named && Kept(PendingOn(m, storage), services) == [] && 0 < count < |services|
  }

  function Picks(m: Memory, storage: Name, services: seq<Name>, count: nat, named: bool): seq<Name> {
    if !named && Kept(PendingOn(m, storage), services) != [] then Kept(PendingOn(m, storage), services)
    else if Fresh(m, storage, services, count, named)
      then Window(services, RotationOn(m, storage) % |services|, count)
    else services
  }

  function AfterPick(m: Memory, storage: Name, services: seq<Name>, count: nat, named: bool): Memory {
    var kept := if named then PendingOn(m, storage) else Kept(PendingOn(m, storage), services);
    Memory(m.pending[storage := With(kept, Picks(m, storage, services, count, named))],
           if Fresh(m, storage, services, count, named)
           then m.rotation[storage := (RotationOn(m, storage) % |services| + count) % |services|] else m.rotation)
  }

  datatype Outcome = Outcome(ok: bool, skipped: bool, interrupted: bool)

  /** A pass, or a skip that hides no failure. */
  predicate Resolves(o: Outcome, incidentOpen: bool) {
    !o.interrupted && (o.ok || (o.skipped && !incidentOpen))
  }

  function AfterTry(m: Memory, storage: Name, name: Name, o: Outcome, incidentOpen: bool): Memory {
    if Resolves(o, incidentOpen) then m.(pending := m.pending[storage := Less(PendingOn(m, storage), name)]) else m
  }

  /** The memory as the running drill changes it. */
  class Drills {
    var pending: map<Name, seq<Name>>
    var rotation: map<Name, nat>

    function View(): Memory
      reads this
    {
      Memory(pending, rotation)
    }

    method DropGone(storage: Name, services: seq<Name>)
      modifies `pending
      ensures pending == old(pending)[storage := Kept(PendingOn(old(View()), storage), services)]
    {
      var names := if storage in pending then pending[storage] else [];
      var kept: seq<Name> := [];
      for i := 0 to |names|
        invariant kept == Kept(names[..i], services)
      {
        assert names[..i + 1][..i] == names[..i];
        if names[i] in services { kept := kept + [names[i]]; }
      }
      assert names[..|names|] == names;
      pending := pending[storage := kept];
    }

    method Add(storage: Name, names: seq<Name>)
      modifies `pending
      ensures pending == old(pending)[storage := With(PendingOn(old(View()), storage), names)]
    {
      var list := if storage in pending then pending[storage] else [];
      ghost var was := list;
      for i := 0 to |names|
        invariant list == With(was, names[..i])
      {
        assert names[..i + 1][..i] == names[..i];
        if names[i] !in list { list := list + [names[i]]; }
      }
      assert names[..|names|] == names;
      pending := pending[storage := list];
    }

    method Pick(storage: Name, services: seq<Name>, count: nat, named: bool) returns (out: seq<Name>)
      modifies this
      ensures out == Picks(old(View()), storage, services, count, named)
      ensures View() == AfterPick(old(View()), storage, services, count, named)
    {
      if !named {
        DropGone(storage, services);
        if pending[storage] != [] {
          out := pending[storage];
          WithPresent(out, out);
          return;
        }
      }
      if named || count == 0 || count >= |services| {
        out := services;
      } else {
        var start := (if storage in rotation then rotation[storage] else 0) % |services|;
        out := [];
        for i := 0 to count
          invariant out == Window(services, start, i)
        {
          out := out + [services[(start + i) % |services|]];
        }
        rotation := rotation[storage := (start + count) % |services|];
      }
      Add(storage, out);
    }

    method Tried(storage: Name, name: Name, o: Outcome, incidentOpen: bool)
      modifies `pending
      ensures View() == AfterTry(old(View()), storage, name, o, incidentOpen)
    {
      if !o.interrupted && (o.ok || (o.skipped && !incidentOpen)) {
        var names := if storage in pending then pending[storage] else [];
        var left: seq<Name> := [];
        for i := 0 to |names|
          invariant left == Less(names[..i], name)
        {
          assert names[..i + 1][..i] == names[..i];
          if names[i] != name { left := left + [names[i]]; }
        }
        assert names[..|names|] == names;
        pending := pending[storage := left];
      }
    }
  }

  // ----- the rotation is fair

  /** The place d services after r, around a list of n. */
  function Place(r: nat, d: nat, n: nat): (p: nat)
    requires r < n
    ensures p < n
  {
    if d == 0 then r
    else
      var before := Place(r, d - 1, n);
      if before + 1 == n then 0 else before + 1
  }

  lemma {:induction false} PlaceNear(r: nat, d: nat, n: nat)
    requires r < n && d < n
    ensures Place(r, d, n) == if r + d < n then r + d else r + d - n
  {
    if d > 0 { PlaceNear(r, d - 1, n); }
  }

  lemma {:induction false} PlaceOn(r: nat, a: nat, b: nat, n: nat)
    requires r < n
    ensures Place(Place(r, a, n), b, n) == Place(r, a + b, n)
  {
    if b > 0 { PlaceOn(r, a, b - 1, n); }
  }

  lemma Scaled(a: int, b: int, n: nat)
    requires a <= b
    ensures a * n <= b * n
  {
  }

  lemma OnceAround(q: int, m: nat, n: nat)
    requires m < n && 0 <= q * n + m < 2 * n
    ensures q == 0 || q == 1
  {
    if q >= 2 { Scaled(2, q, n); }
    if q <= -1 { Scaled(q, -1, n); }
  }

  lemma Remainder(x: nat, n: nat)
    requires n > 0 && x < 2 * n
    ensures x % n == if x < n then x else x - n
  {
    OnceAround(x / n, x % n, n);
    assert x == (x / n) * n + x % n;
  }

  /** The code's remainder is the place. */
  lemma PlaceIsRemainder(r: nat, d: nat, n: nat)
    requires r < n && d < n
    ensures (r + d) % n == Place(r, d, n)
  {
    PlaceNear(r, d, n);
    Remainder(r + d, n);
  }

  /** How many services the first k selections take. */
  function Taken(k: nat, count: nat): nat {
    if k == 0 then 0 else Taken(k - 1, count) + count
  }

  lemma {:induction false} TakenIs(k: nat, count: nat)
    ensures Taken(k, count) == k * count
  {
    if k > 0 {
      TakenIs(k - 1, count);
      assert (k - 1) * count + count == k * count;
    }
  }

  lemma {:induction false} TakenGrows(k: nat, more: nat, count: nat)
    requires k < more
    ensures Taken(k, count) + count <= Taken(more, count)
  {
    if k < more - 1 { TakenGrows(k, more - 1, count); }
  }

  lemma {:induction false} TurnOf(d: nat, turns: nat, count: nat) returns (k: nat)
    requires d < Taken(turns, count)
    ensures k < turns && Taken(k, count) <= d < Taken(k, count) + count
  {
    if d >= Taken(turns - 1, count) { k := turns - 1; } else { k := TurnOf(d, turns - 1, count); }
  }

  function StartOf(m: Memory, storage: Name, n: nat): (start: nat)
    requires n > 0
    ensures start < n
  {
    RotationOn(m, storage) % n
  }

  /** The memory before the k-th selection, each earlier one done. */
  function Turn(m: Memory, storage: Name, services: seq<Name>, count: nat, k: nat): Memory {
    if k == 0 then m
    else Done(AfterPick(Turn(m, storage, services, count, k - 1), storage, services, count, false), storage)
  }

  function Done(m: Memory, storage: Name): Memory {
    m.(pending := m.pending[storage := []])
  }

  lemma FreshAfter(m: Memory, storage: Name, services: seq<Name>, count: nat)
    requires Fresh(m, storage, services, count, false)
    ensures services != [] && count < |services|
    ensures Fresh(Done(AfterPick(m, storage, services, count, false), storage), storage, services, count, false)
    ensures RotationOn(Done(AfterPick(m, storage, services, count, false), storage), storage)
         == (StartOf(m, storage, |services|) + count) % |services|
  {
  }

  lemma StartIs(m: Memory, storage: Name, n: nat)
    requires RotationOn(m, storage) < n
    ensures StartOf(m, storage, n) == RotationOn(m, storage)
  {
    Remainder(RotationOn(m, storage), n);
  }

  lemma FreshAgain(m: Memory, storage: Name, services: seq<Name>, count: nat)
    requires Fresh(m, storage, services, count, false)
    ensures services != []
    ensures Fresh(Done(AfterPick(m, storage, services, count, false), storage), storage, services, count, false)
    ensures StartOf(Done(AfterPick(m, storage, services, count, false), storage), storage, |services|)
         == Place(StartOf(m, storage, |services|), count, |services|)
  {
    hide *;
    FreshAfter(m, storage, services, count);
    PlaceIsRemainder(StartOf(m, storage, |services|), count, |services|);
    StartIs(Done(AfterPick(m, storage, services, count, false), storage), storage, |services|);
  }

  lemma {:induction false} TurnIs(m: Memory, storage: Name, services: seq<Name>, count: nat, k: nat)
    requires Fresh(m, storage, services, count, false)
    ensures Fresh(Turn(m, storage, services, count, k), storage, services, count, false)
    ensures StartOf(Turn(m, storage, services, count, k), storage, |services|)
         == Place(StartOf(m, storage, |services|), Taken(k, count), |services|)
  {
    hide *;
    FreshHasServices(m, storage, services, count);
    TurnUnfolds(m, storage, services, count, k);
    if k > 0 {
      var at := Turn(m, storage, services, count, k - 1);
      TurnIs(m, storage, services, count, k - 1);
      FreshAgain(at, storage, services, count);
      PlaceOn(StartOf(m, storage, |services|), Taken(k - 1, count), count, |services|);
    }
  }

  lemma TurnUnfolds(m: Memory, storage: Name, services: seq<Name>, count: nat, k: nat)
    requires services != []
    ensures k == 0 ==> Turn(m, storage, services, count, k) == m && Taken(k, count) == 0
    ensures forall r: nat :: r < |services| ==> Place(r, 0, |services|) == r
    ensures k > 0 ==>
      && Turn(m, storage, services, count, k)
           == Done(AfterPick(Turn(m, storage, services, count, k - 1), storage, services, count, false), storage)
      && Taken(k, count) == Taken(k - 1, count) + count
  {
  }

  lemma PicksAt(m: Memory, storage: Name, services: seq<Name>, count: nat)
    requires Fresh(m, storage, services, count, false)
    ensures |Picks(m, storage, services, count, false)| == count
    ensures forall i :: 0 <= i < count ==>
      Picks(m, storage, services, count, false)[i] == services[Place(StartOf(m, storage, |services|), i, |services|)]
  {
    var n, start := |services|, StartOf(m, storage, |services|);
    var out := Picks(m, storage, services, count, false);
    assert out == Window(services, start, count);
    forall i | 0 <= i < count ensures out[i] == services[Place(start, i, n)] {
      PlaceIsRemainder(start, i, n);
    }
  }

  function Selection(m: Memory, storage: Name, services: seq<Name>, count: nat, k: nat): seq<Name> {
    Picks(Turn(m, storage, services, count, k), storage, services, count, false)
  }

  lemma FreshHasServices(m: Memory, storage: Name, services: seq<Name>, count: nat)
    requires Fresh(m, storage, services, count, false)
    ensures services != []
  {
  }

  lemma SelectionAt(m: Memory, storage: Name, services: seq<Name>, count: nat, k: nat)
    requires Fresh(Turn(m, storage, services, count, k), storage, services, count, false)
    ensures |Selection(m, storage, services, count, k)| == count
    ensures forall i :: 0 <= i < count ==>
      Selection(m, storage, services, count, k)[i]
        == services[Place(StartOf(Turn(m, storage, services, count, k), storage, |services|), i, |services|)]
  {
    PicksAt(Turn(m, storage, services, count, k), storage, services, count);
  }

  /** The k-th selection is the services from place k * count on, counted from the rotation. */
  lemma SelectionIs(m: Memory, storage: Name, services: seq<Name>, count: nat, k: nat)
    requires Fresh(m, storage, services, count, false)
    ensures |Selection(m, storage, services, count, k)| == count
    ensures forall d :: Taken(k, count) <= d < Taken(k, count) + count ==>
      Selection(m, storage, services, count, k)[d - Taken(k, count)]
        == services[Place(StartOf(m, storage, |services|), d, |services|)]
  {
    hide *;
    FreshHasServices(m, storage, services, count);
    var n, r, t := |services|, StartOf(m, storage, |services|), Taken(k, count);
    var out := Selection(m, storage, services, count, k);
    TurnIs(m, storage, services, count, k);
    SelectionAt(m, storage, services, count, k);
    forall d | t <= d < t + count ensures out[d - t] == services[Place(r, d, n)] {
      PlaceOn(r, t, d - t, n);
    }
  }

  lemma OnlyOne(services: seq<Name>, i: nat, j: nat)
    requires Distinct(services) && i < |services| && j < |services| && services[i] == services[j]
    ensures i == j
  {
  }

  lemma SelectedIff(m: Memory, storage: Name, services: seq<Name>, count: nat, k: nat, j: nat)
    requires Fresh(m, storage, services, count, false) && Distinct(services) && j < |services|
    ensures services[j] in Selection(m, storage, services, count, k) <==>
            exists d :: Taken(k, count) <= d < Taken(k, count) + count &&
              Place(StartOf(m, storage, |services|), d, |services|) == j
  {
    hide *;
    FreshHasServices(m, storage, services, count);
    var n, r, t := |services|, StartOf(m, storage, |services|), Taken(k, count);
    var out := Selection(m, storage, services, count, k);
    SelectionIs(m, storage, services, count, k);
    if services[j] in out {
      var i :| 0 <= i < |out| && out[i] == services[j];
      var d := t + i;
      assert out[d - t] == services[Place(r, d, n)];
      OnlyOne(services, Place(r, d, n), j);
    }
    if d :| t <= d < t + count && Place(r, d, n) == j {
      assert out[d - t] == services[j];
      assert services[j] in out;
    }
  }

  lemma Apart(r: nat, d: nat, e: nat, n: nat)
    requires r < n && d < e < n
    ensures Place(r, d, n) != Place(r, e, n)
  {
    PlaceNear(r, d, n);
    PlaceNear(r, e, n);
  }

  /** Every fresh selection has count services, none twice. */
  lemma FreshIsDistinct(m: Memory, storage: Name, services: seq<Name>, count: nat)
    requires Fresh(m, storage, services, count, false) && Distinct(services)
    ensures |Picks(m, storage, services, count, false)| == count && Distinct(Picks(m, storage, services, count, false))
  {
    PicksAt(m, storage, services, count);
    var out := Picks(m, storage, services, count, false);
    forall i, j | 0 <= i < j < count ensures out[i] != out[j] {
      Apart(StartOf(m, storage, |services|), i, j, |services|);
    }
  }

  predicate Reached(m: Memory, storage: Name, services: seq<Name>, count: nat, turns: nat, name: Name) {
    exists k :: 0 <= k < turns && name in Selection(m, storage, services, count, k)
  }

  lemma ReachesAll(m: Memory, storage: Name, services: seq<Name>, count: nat, turns: nat, j: nat)
    requires Fresh(m, storage, services, count, false) && Distinct(services) && j < |services| <= Taken(turns, count)
    ensures Reached(m, storage, services, count, turns, services[j])
  {
    hide Fresh, Selection, Place, Taken, StartOf;
    var n, r := |services|, StartOf(m, storage, |services|);
    var d := if r <= j then j - r else j + n - r;
    PlaceNear(r, d, n);
    var k := TurnOf(d, turns, count);
    SelectedIff(m, storage, services, count, k, j);
    assert Place(r, d, n) == j;
  }

  lemma MissesOne(m: Memory, storage: Name, services: seq<Name>, count: nat, turns: nat) returns (j: nat)
    requires Fresh(m, storage, services, count, false) && Distinct(services) && Taken(turns, count) < |services|
    ensures j < |services| && !Reached(m, storage, services, count, turns, services[j])
  {
    hide Fresh, Selection, Place, Taken, StartOf;
    var n, r := |services|, StartOf(m, storage, |services|);
    j := Place(r, Taken(turns, count), n);
    forall k | 0 <= k < turns ensures services[j] !in Selection(m, storage, services, count, k) {
      SelectedIff(m, storage, services, count, k, j);
      TakenGrows(k, turns, count);
      if d :| Taken(k, count) <= d < Taken(k, count) + count && Place(r, d, n) == j {
        Apart(r, d, Taken(turns, count), n);
      }
    }
  }

  /** Fairness, both ways: that many selections in a row reach every service exactly when they are enough. */
  lemma RotationCovers(m: Memory, storage: Name, services: seq<Name>, count: nat, turns: nat)
    requires Fresh(m, storage, services, count, false) && Distinct(services)
    ensures (forall j :: 0 <= j < |services| ==> Reached(m, storage, services, count, turns, services[j]))
            <==> turns * count >= |services|
  {
    hide Fresh, Reached, Taken;
    TakenIs(turns, count);
    if Taken(turns, count) >= |services| {
      forall j | 0 <= j < |services| ensures Reached(m, storage, services, count, turns, services[j]) {
        ReachesAll(m, storage, services, count, turns, j);
      }
    } else {
      var j := MissesOne(m, storage, services, count, turns);
    }
  }

  // ----- alternating storages

  /** Where an alternating drill is: its place, the storage it is still on, the list that was for. */
  datatype Alternation = Alternation(next: int, storage: Option<Name>, order: seq<Name>)

  predicate Has(targets: seq<Name>, storage: Option<Name>) {
    storage.Some? && storage.value in targets
  }

  /** The saved place, in a list that may have changed its length. */
  function Around(next: int, n: nat): (i: nat)
    requires n > 0
    ensures i < n
  {
    if next < 0 then 0 else next % n
  }

  /** The storage an unfinished run is on, wherever it is listed now; otherwise the place. */
  function Chosen(a: Alternation, targets: seq<Name>): (i: nat)
    requires targets != []
    ensures i < |targets|
  {
    if Has(targets, a.storage) then IndexOf(targets, a.storage.value)
    else Around(if a.order != targets then 0 else a.next, |targets|)
  }

  function IndexOf(targets: seq<Name>, name: Name): (i: nat)
    requires name in targets
    ensures i < |targets| && targets[i] == name && name !in targets[..i]
  {
    if targets[0] == name then 0 else 1 + IndexOf(targets[1..], name)
  }

  function AfterRun(a: Alternation, targets: seq<Name>, done: bool): Alternation
    requires targets != []
  {
    var i := Chosen(a, targets);
    var begun := Alternation(i, Some(targets[i]), targets);
    if done then Advanced(begun) else begun
  }

  /** Go's %, which takes the sign of what it divides. */
  function Rem(a: int, n: nat): int
    requires n > 0
  {
    if a >= 0 then a % n else -(-a % n)
  }

  /** On to the next place, with no storage unfinished. */
  function Advanced(a: Alternation): Alternation
    requires a.order != []
  {
    Alternation(Rem(a.next + 1, |a.order|), None, a.order)
  }

  lemma {:induction false} IndexIs(targets: seq<Name>, name: Name, i: nat)
    requires i < |targets| && targets[i] == name && name !in targets[..i]
    ensures IndexOf(targets, name) == i
  {
    if i > 0 {
      assert targets[0] == targets[..i][0] && targets[1..][..i - 1] == targets[..i][1..];
      IndexIs(targets[1..], name, i - 1);
    }
  }

  /** The storage's place when it is listed, or the one given. */
  method Where(targets: seq<Name>, storage: Option<Name>, given: nat) returns (index: nat)
    requires given < |targets| && Distinct(targets)
    ensures index == if Has(targets, storage) then IndexOf(targets, storage.value) else given
  {
    index := given;
    if Some(targets[given]) != storage {
      for i := 0 to |targets|
        invariant index == given
        invariant forall j :: 0 <= j < i ==> Some(targets[j]) != storage
      {
        if Some(targets[i]) == storage {
          IndexIs(targets, targets[i], i);
          return i;
        }
      }
    } else {
      IndexIs(targets, targets[given], given);
    }
  }

  class Cursor {
    var next: int
    var storage: Option<Name>
    var order: seq<Name>

    function View(): Alternation
      reads this
    {
      Alternation(next, storage, order)
    }

    method Choose(targets: seq<Name>) returns (index: nat)
      requires targets != [] && Distinct(targets)
      modifies this
      ensures index == Chosen(old(View()), targets)
      ensures View() == AfterRun(old(View()), targets, false)
    {
      hide Around, IndexOf;
      if order != targets {
        next, order := 0, targets;
      }
      index := Where(targets, storage, Around(next, |targets|));
      next, storage := index, Some(targets[index]);
    }

    /** A run not stopped, in which nothing failed and nothing is left pending on its storage, moves on. */
    method Finish(stopped: bool, failed: nat, pending: seq<Name>)
      requires order != []
      modifies this
      ensures var done := !stopped && failed == 0 && pending == [];
        View() == if done then Advanced(old(View())) else old(View())
    {
      if !stopped && failed == 0 && |pending| == 0 {
        next := if next + 1 >= 0 then (next + 1) % |order| else -(-(next + 1) % |order|);
        storage := None;
      }
    }
  }

  /** An unfinished storage is drilled again, however the list is reordered meanwhile. */
  lemma UnfinishedStorageStays(a: Alternation, targets: seq<Name>, later: seq<Name>)
    requires targets != [] && later != [] && targets[Chosen(a, targets)] in later
    ensures later[Chosen(AfterRun(a, targets, false), later)] == targets[Chosen(a, targets)]
  {
  }

  /** With no unfinished storage listed, a list that changed is begun at its first place. */
  lemma ChangedListStartsOver(a: Alternation, targets: seq<Name>, done: bool)
    requires targets != [] && a.order != targets && !Has(targets, a.storage)
    ensures Chosen(a, targets) == 0
    ensures AfterRun(a, targets, done).order == targets
    ensures !done ==> AfterRun(a, targets, done).storage == Some(targets[0])
  {
    Remainder(0, |targets|);
  }

  function AfterRuns(a: Alternation, targets: seq<Name>, k: nat): Alternation
    requires targets != []
  {
    if k == 0 then a else AfterRun(AfterRuns(a, targets, k - 1), targets, true)
  }

  /** Finished runs go round the storages one by one, so as many as there are reach each of them. */
  lemma {:induction false} RoundRobin(a: Alternation, targets: seq<Name>, k: nat)
    requires targets != []
    ensures Chosen(AfterRuns(a, targets, k), targets) == Place(Chosen(a, targets), k, |targets|)
  {
    if k > 0 {
      RoundRobin(a, targets, k - 1);
      var i := Chosen(AfterRuns(a, targets, k - 1), targets);
      Remainder(i + 1, |targets|);
      NextPlace(i, |targets|);
    }
  }

  lemma NextPlace(i: nat, n: nat)
    requires i < n
    ensures (i + 1) % n % n == if i + 1 == n then 0 else i + 1
  {
    Remainder(i + 1, n);
    Remainder(if i + 1 == n then 0 else i + 1, n);
  }

  lemma EveryStorageHasItsTurn(a: Alternation, targets: seq<Name>, j: nat) returns (k: nat)
    requires j < |targets|
    ensures k < |targets| && Chosen(AfterRuns(a, targets, k), targets) == j
  {
    var i := Chosen(a, targets);
    k := if i <= j then j - i else j + |targets| - i;
    RoundRobin(a, targets, k);
    PlaceNear(i, k, |targets|);
  }

  // ----- a killed run loses nothing it owes

  /** The file, and the memory of the drill running now. */
  datatype State = State(disk: Memory, run: Option<Memory>)

  datatype Step =
    | Begin
    | Select(storage: Name, services: seq<Name>, count: nat, named: bool, tidy: bool, saved: bool)
    | Try(storage: Name, name: Name, outcome: Outcome, incidentOpen: bool, saved: bool)
    | Ends  // killed, or over

  /** A drill named in the configuration first drops what it no longer covers. */
  function Tidied(m: Memory, storage: Name, services: seq<Name>, tidy: bool): Memory {
    if tidy then m.(pending := m.pending[storage := Kept(PendingOn(m, storage), services)]) else m
  }

  /** A save that fails ends the run. */
  predicate Saves(s: State, t: State, m: Memory, saved: bool) {
    t == if saved then State(m, Some(m)) else State(s.disk, None)
  }

  predicate Next(s: State, step: Step, t: State) {
    match step
    case Begin => s.run == None && t == State(s.disk, Some(s.disk))
    case Select(storage, services, count, named, tidy, saved) =>
      && s.run.Some?
      && var tidied := Tidied(s.run.value, storage, services, tidy);
         Saves(s, t, AfterPick(tidied, storage, services, count, named), saved)
    case Try(storage, name, outcome, open, saved) =>
      s.run.Some? && Saves(s, t, AfterTry(s.run.value, storage, name, outcome, open), saved)
    case Ends => t == State(s.disk, None)
  }

  ghost predicate Trace(s: State, steps: seq<Step>, t: State) {
    Runs.Run(Next, s, steps, t)
  }

  predicate Inv(s: State) {
    s.run.Some? ==> s.run.value == s.disk
  }

  predicate Owed(s: State, storage: Name, name: Name) {
    name in PendingOn(s.disk, storage)
  }

  /** It passed, was skipped with no failure open, or is no longer a service drilled here. */
  predicate Excuses(step: Step, storage: Name, name: Name) {
    && step != Begin && step != Ends && step.storage == storage && step.saved
    && match step
       case Try(_, tried, outcome, open, _) =>
         tried == name && !outcome.interrupted && (outcome.ok || (outcome.skipped && !open))
       case Select(_, services, _, named, tidy, _) => (!named || tidy) && name !in services
  }

  lemma OwedStep(s: State, step: Step, t: State, storage: Name, name: Name)
    requires Inv(s) && Next(s, step, t)
    ensures Inv(t)
    ensures Owed(s, storage, name) ==> (Owed(t, storage, name) <==> !Excuses(step, storage, name))
  {
    match step
    case Select(on, services, count, named, tidy, saved) =>
      var m := s.run.value;
      var tidied := Tidied(m, on, services, tidy);
      KeptMember(PendingOn(m, on), services, name);
      KeptMember(PendingOn(tidied, on), services, name);
      var kept := if named then PendingOn(tidied, on) else Kept(PendingOn(tidied, on), services);
      WithMember(kept, Picks(tidied, on, services, count, named), name);
    case Try(on, tried, outcome, open, saved) =>
      LessMember(PendingOn(s.run.value, on), tried, name);
    case _ =>
  }

  ghost predicate Excused(steps: seq<Step>, storage: Name, name: Name) {
    exists k :: 0 <= k < |steps| && Excuses(steps[k], storage, name)
  }

  /** A selected service stays owed until it is excused, whatever is killed when. */
  lemma {:induction false} OwedUntilExcused(s: State, steps: seq<Step>, t: State, storage: Name, name: Name)
    requires Inv(s) && Trace(s, steps, t) && Owed(s, storage, name)
    ensures Inv(t)
    ensures Owed(t, storage, name) || Excused(steps, storage, name)
    decreases |steps|
  {
    if steps != [] {
      var m := Runs.First(Next, s, steps, t);
      OwedStep(s, steps[0], m, storage, name);
      InvTrace(m, steps[1..], t);
      if Owed(m, storage, name) {
        OwedUntilExcused(m, steps[1..], t, storage, name);
        if k :| 0 <= k < |steps[1..]| && Excuses(steps[1..][k], storage, name) {
          assert Excuses(steps[k + 1], storage, name);
        }
      }
    }
  }

  lemma InvTrace(s: State, steps: seq<Step>, t: State)
    requires Inv(s) && Trace(s, steps, t)
    ensures Inv(t)
  {
    Runs.Keeps(Next, Inv, s, steps, t);
  }

  /** The selection takes name. */
  predicate Takes(s: State, step: Step, name: Name)
    requires step.Select?
  {
    var tidied := Tidied(s.disk, step.storage, step.services, step.tidy);
    name in Picks(tidied, step.storage, step.services, step.count, step.named)
  }

  /** What a selection that was saved takes is owed from then on. */
  lemma SelectedIsOwed(s: State, step: Step, t: State, name: Name)
    requires Inv(s) && step.Select? && step.saved && Next(s, step, t)
    requires Takes(s, step, name)
    ensures Owed(t, step.storage, name)
  {
    var m := Tidied(s.disk, step.storage, step.services, step.tidy);
    var kept := if step.named then PendingOn(m, step.storage) else Kept(PendingOn(m, step.storage), step.services);
    WithMember(kept, Picks(m, step.storage, step.services, step.count, step.named), name);
  }

  /** The next drill takes up every service still owed there, before the rotation moves. */
  lemma OwedComesFirst(s: State, step: Step, t: State, name: Name)
    requires Inv(s) && step.Select? && !step.named && !step.tidy && step.saved && Next(s, step, t)
    requires Owed(s, step.storage, name) && name in step.services
    ensures name in Picks(s.disk, step.storage, step.services, step.count, false)
    ensures t.disk.rotation == s.disk.rotation
  {
    KeptMember(PendingOn(s.disk, step.storage), step.services, name);
  }

  /**
   The rotation never passes a service over: between the selection that took it and the next
   that moves the rotation on its storage, it was excused.
   */
  lemma NeverPassedOver(s: State, first: Step, m: State, steps: seq<Step>, n: State, again: Step, t: State, name: Name)
    requires Inv(s) && first.Select? && first.saved && Next(s, first, m)
    requires Takes(s, first, name)
    requires Trace(m, steps, n) && again.Select? && again.storage == first.storage && Next(n, again, t)
    requires t.disk.rotation != n.disk.rotation && name in again.services
    ensures Excused(steps, first.storage, name)
  {
    SelectedIsOwed(s, first, m, name);
    OwedStep(s, first, m, first.storage, name);
    OwedUntilExcused(m, steps, n, first.storage, name);
    if Owed(n, first.storage, name) {
      var tidied := Tidied(n.disk, again.storage, again.services, again.tidy);
      KeptMember(PendingOn(n.disk, again.storage), again.services, name);
      KeptMember(PendingOn(tidied, again.storage), again.services, name);
    }
  }

  // ----- when all are taken

  /**
   A drill of a named service or a named drill, and one of all of them with nothing pending, takes
   every service it is given, in order, owes them all, and leaves the rotation.
   */
  lemma AllTaken(m: Memory, storage: Name, services: seq<Name>, count: nat, named: bool)
    requires named || (Kept(PendingOn(m, storage), services) == [] && (count == 0 || count >= |services|))
    ensures Picks(m, storage, services, count, named) == services
    ensures var t := AfterPick(m, storage, services, count, named);
      && t.rotation == m.rotation
      && (forall n :: n in PendingOn(t, storage) <==> n in services || (named && n in PendingOn(m, storage)))
      && (forall other :: other != storage ==> PendingOn(t, other) == PendingOn(m, other))
  {
    var kept := if named then PendingOn(m, storage) else [];
    forall n ensures n in With(kept, services) <==> n in kept || n in services { WithMember(kept, services, n); }
  }
}
