/**
 Counting again how far a busy target is behind: one listing of the primary at a time, asked
 for by any number of wakes, against passes that list everything meanwhile. Each locked
 section of recount is one step; the listing runs between them.
 */
module Recount {
  import opened Options
  import Runs
  import Mirror

  type Rev = Mirror.Rev

  /** What local has that the last listing found missing on the target, or had not seen. */
  function Lacking(local: set<Rev>, last: set<Rev>, missing: set<Rev>): set<Rev> {
    set r | r in local && (r in missing || r !in last)
  }

  function Behind(local: set<Rev>, last: set<Rev>, missing: set<Rev>): nat {
    |Lacking(local, last, missing)|
  }

  method Count(local: set<Rev>, last: set<Rev>, missing: set<Rev>) returns (behind: nat)
    ensures behind == Behind(local, last, missing)
  {
    behind := 0;
    var todo, counted := local, {};
    while todo != {}
      invariant todo <= local && counted !! todo
      invariant counted == Lacking(local - todo, last, missing)
      invariant behind == |counted|
      decreases |todo|
    {
      var r :| r in todo;
      ghost var done := local - todo + {r};
      assert Lacking(done, last, missing) == counted + if r in missing || r !in last then {r} else {};
      todo := todo - {r};
      assert local - todo == done;
      if r in missing || r !in last {
        behind := behind + 1;
        counted := counted + {r};
      }
    }
    assert local - todo == local;
  }

  /**
   Listing the primary alone is enough while a mirror pass deletes on the target: target was
   listed with last, and of what local has gained since the target has nothing.
   */
  lemma PrimaryIsEnough(local: set<Rev>, last: set<Rev>, target: set<Rev>, own: set<Mirror.Id>, busy: set<Rev>,
                        mirrored: set<Rev>, after: set<Rev>)
    requires Mirror.Pass(mirrored, target, own, busy, after)
    requires local * target <= last && local * target <= mirrored
    ensures Lacking(local, last, Mirror.Missing(last, target)) == Mirror.Missing(local, after)
  {
    Mirror.PassKeeps(mirrored, target, own, busy, after);
  }

  // ----- one listing at a time

  /** A call that is listing: what it had read of the worker, and what the primary holds, once listed. */
  datatype Flight = Flight(listings: nat, last: set<Rev>, missing: set<Rev>, local: Option<set<Rev>>)

  datatype State = State(
    listings: nat, last: Option<set<Rev>>, missing: set<Rev>, behind: nat,
    recounting: bool, due: bool, flights: map<nat, Flight>,
    calls: nat,  // wakes that have asked for a count
    seen: nat)   // those made before the newest listing began

  datatype Step =
    | Call(id: nat, busy: bool)
    | Listed(id: nat, local: set<Rev>)
    | Fails(id: nat)
    | Ends(id: nat, busy: bool)
    | Pass(last: set<Rev>, missing: set<Rev>, behind: nat)

  /** The head of the loop: a new listing, or nothing to count. */
  function Head(s: State, id: nat, busy: bool): State {
    if s.last.Some? && busy
    then s.(recounting := true, due := false, seen := s.calls,
            flights := s.flights[id := Flight(s.listings, s.last.value, s.missing, None)])
    else s.(recounting := false, due := false, flights := s.flights - {id})
  }

  predicate Landed(s: State, id: nat) {
    id in s.flights && s.flights[id].local.Some?
  }

  /** What a listing that ends writes: nothing, once a pass has listed since. */
  function Published(s: State, f: Flight): State
    requires f.local.Some?
  {
    if s.listings == f.listings then s.(behind := Behind(f.local.value, f.last, f.missing)) else s
  }

  predicate Next(s: State, step: Step, t: State) {
    match step
    case Call(id, busy) =>
      && id !in s.flights
      && t == if s.recounting then s.(due := true, calls := s.calls + 1) else Head(s.(calls := s.calls + 1), id, busy)
    case Listed(id, local) =>
      && id in s.flights && s.flights[id].local == None
      && t == s.(flights := s.flights[id := s.flights[id].(local := Some(local))])
    case Fails(id) =>
      id in s.flights && s.flights[id].local == None && t == s.(recounting := false, flights := s.flights - {id})
    case Ends(id, busy) =>
      && Landed(s, id)
      && var p := Published(s, s.flights[id]);
         t == if s.due then Head(p, id, busy) else p.(recounting := false, flights := p.flights - {id})
    case Pass(last, missing, behind) =>
      t == s.(listings := s.listings + 1, last := Some(last), missing := missing, behind := behind)
  }

  ghost predicate Init(s: State) {
    s.flights == map[] && !s.recounting && !s.due && s.calls == s.seen
  }

  ghost predicate Reachable(s: State) {
    Runs.Reachable(Init, Next, s)
  }

  ghost predicate Inv(s: State) {
    && (s.recounting <==> s.flights != map[])
    && (forall a, b :: a in s.flights && b in s.flights ==> a == b)
    && (forall a :: a in s.flights ==>
         && s.flights[a].listings <= s.listings
         && (s.flights[a].listings == s.listings ==>
           s.last == Some(s.flights[a].last) && s.missing == s.flights[a].missing))
    && s.seen <= s.calls
    && (s.recounting && !s.due ==> s.seen == s.calls)
  }

  lemma InvStep(s: State, step: Step, t: State)
    requires Inv(s) && Next(s, step, t)
    ensures Inv(t)
  {
  }

  lemma ReachableInv(s: State)
    requires Reachable(s)
    ensures Inv(s)
  {
    forall a: State | Init(a) ensures Inv(a) {}
    forall a: State, step: Step, b: State | Inv(a) && Next(a, step, b) ensures Inv(b) {
      InvStep(a, step, b);
    }
    hide Inv, Next, Init;
    Runs.Everywhere(Init, Next, Inv, s);
  }

  /** However many wakes ask, one listing runs. */
  lemma OneListingAtATime(s: State, a: nat, b: nat)
    requires Reachable(s) && a in s.flights && b in s.flights
    ensures a == b
  {
    ReachableInv(s);
  }

  /** A count is written only against the listing the worker still goes by: none from before a pass. */
  lemma CountsTheCurrentListing(s: State, id: nat, busy: bool, t: State)
    requires Reachable(s) && Next(s, Ends(id, busy), t)
    ensures s.listings == s.flights[id].listings ==>
      s.last.Some? && t.behind == Behind(s.flights[id].local.value, s.last.value, s.missing)
    ensures s.listings != s.flights[id].listings ==> t.behind == s.behind
    ensures t.last == s.last && t.missing == s.missing && t.listings == s.listings
  {
    ReachableInv(s);
  }

  /** No wake is lost: a count that stops began its last listing after every wake, unless none could. */
  lemma NoCallLost(s: State, id: nat, busy: bool, t: State)
    requires Reachable(s) && Next(s, Ends(id, busy), t)
    ensures t.recounting || s.due || t.seen == t.calls
    ensures t.recounting ==> t.seen == t.calls
    ensures !t.recounting && s.due ==> !(busy && s.last.Some?)
  {
    ReachableInv(s);
    InvStep(s, Ends(id, busy), t);
  }

  /** A wake while the target is busy and has been listed: a listing is under way, or will be made again. */
  lemma CallIsAnswered(s: State, id: nat, t: State)
    requires Reachable(s) && Next(s, Call(id, true), t) && s.last.Some?
    ensures t.recounting && t.calls == s.calls + 1
    ensures s.recounting ==> t.due && t.flights == s.flights
    ensures !s.recounting ==>
      t.flights == map[id := Flight(s.listings, s.last.value, s.missing, None)] && t.seen == t.calls
  {
    ReachableInv(s);
  }

  /** And when a listing ends with a wake noted, the next begins, of what the worker goes by now. */
  lemma DueIsListed(s: State, id: nat, t: State)
    requires Reachable(s) && Next(s, Ends(id, true), t) && s.due && s.last.Some?
    ensures t.recounting && !t.due && t.seen == t.calls
    ensures t.flights == map[id := Flight(s.listings, s.last.value, s.missing, None)]
  {
    ReachableInv(s);
  }
}
