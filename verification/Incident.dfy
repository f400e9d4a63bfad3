/**
 Incidents: an alert when a condition starts, repeats while it lasts, and its recovery, sent
 by many processes that share one file and may die while sending. Every edit of the file is
 one section of the class, proved equal to a function on the incident; the step system runs
 those functions against deliveries in progress.
 */
module Incident {
  import opened Options
  import Runs

  type Dest = string

  const SECOND := 1_000_000_000
  const LEASE := 300 * SECOND

  /** Routine, problem, failure, critical. */
  type Kind = k: int | 0 <= k <= 3

  /** NOTIFY_ON for one destination: the least kind it receives, and whether drills are left out. */
  datatype On = Failures | Problems | Everything
  datatype Destination = Destination(name: Dest, on: On, noDrills: bool)

  type Config = seq<Destination>

  datatype Incident = Incident(
    kind: Kind, title: string, since: int, lastSent: int,
    to: seq<Dest>,      // who the alert goes to
    told: seq<Dest>,    // who has received it, and so is owed its recovery
    pending: seq<Dest>, // who the notice being sent is still owed to
    sending: int,       // when a send claimed it, in seconds
    gen: nat,
    recovered: bool,
    clearTitle: string) // a clear that came while the alert was being sent

  predicate Prefixed(s: string, p: string) {
    |p| <= |s| && s[..|p|] == p
  }

  predicate DrillTitle(title: string) {
    Prefixed(title, "Restore Drill") || Prefixed(title, "Deep Check") || Prefixed(title, "Kit Drill")
  }

  predicate Admits(on: On, k: Kind) {
    match on
    case Everything => true
    case Problems => k >= 1
    case Failures => k >= 2
  }

  function Unix(t: int): int {
    t / SECOND
  }

  /** Another sender's claim still holds; one in the future is no claim. */
  predicate Claimed(x: Incident, now: int) {
    x.sending != 0 && 0 <= now - x.sending * SECOND < LEASE
  }

  function Receiving(cfg: Config, k: Kind, title: string): seq<Dest> {
    if cfg == [] then []
    else
      (if Admits(cfg[0].on, k) && (!DrillTitle(title) || !cfg[0].noDrills) then [cfg[0].name] else [])
      + Receiving(cfg[1..], k, title)
  }

  function Newcomers(now: seq<Dest>, before: seq<Dest>): seq<Dest> {
    if now == [] then [] else (if now[0] in before then [] else [now[0]]) + Newcomers(now[1..], before)
  }

  predicate Configured(cfg: Config, name: Dest) {
    exists k :: 0 <= k < |cfg| && cfg[k].name == name
  }

  /** The destination by that name leaves drills out, and this is one. */
  predicate Suppressed(cfg: Config, name: Dest, title: string) {
    if cfg == [] then false
    else if cfg[0].name == name then DrillTitle(title) && cfg[0].noDrills
    else Suppressed(cfg[1..], name, title)
  }

  // ----- the edits, as functions

  /** What an edit leaves in the file and what it sends. */
  datatype Edit = Edit(slot: Option<Incident>, send: Option<Incident>)

  function Send(x: Incident, now: int): Edit {
    var y := x.(sending := Unix(now));
    Edit(Some(y), Some(y))
  }

  function Raised(slot: Option<Incident>, cfg: Config, repeat: int, k: Kind, title: string, now: int, gen: nat): Edit {
    if slot.Some? && Claimed(slot.value, now) then Edit(slot, None)
    else if slot.None? || slot.value.recovered then
      var to := Receiving(cfg, k, title);
      Send(Incident(k, title, Unix(now), Unix(now), to, [], to, 0, gen, false, ""), now)
    else
      var x := slot.value;
      if repeat > 0 && now - x.lastSent * SECOND >= repeat then
        var kind := if k > x.kind then k else x.kind;
        var pending := Receiving(cfg, kind, title);
        Send(x.(kind := kind, title := title, gen := gen, pending := pending, lastSent := Unix(now),
                to := x.to + Newcomers(pending, x.to)), now)
      else if x.pending != [] then Send(x, now)
      else
        var added := Newcomers(Receiving(cfg, x.kind, x.title), x.to);
        if added != [] then Send(x.(to := x.to + added, pending := added), now) else Edit(slot, None)
  }

  /** The recovery notice, owed to whoever the alert reached. */
  function Recovery(x: Incident, title: string, now: int, gen: nat): Incident {
    Incident(x.kind, title, x.since, 0, x.told, [], x.told, Unix(now), gen, true, "")
  }

  function Cleared(slot: Option<Incident>, title: string, now: int, gen: nat): Edit {
    if slot.None? then Edit(slot, None)
    else
      var x := slot.value;
      if Claimed(x, now) && !x.recovered then Edit(Some(x.(clearTitle := title)), None)
      else if Claimed(x, now) then Edit(slot, None)
      else if !x.recovered then Send(Recovery(x, title, now, gen), now)
      else if x.pending == [] then Edit(None, None)
      else Send(x, now)
  }

  function Without(to: seq<Dest>, told: seq<Dest>, cfg: Config, title: string): seq<Dest> {
    if to == [] then []
    else (if Suppressed(cfg, to[0], title) && to[0] !in told then [] else [to[0]]) + Without(to[1..], told, cfg, title)
  }

  function Reached(told: seq<Dest>, pending: seq<Dest>, missed: seq<Dest>, cfg: Config, title: string): seq<Dest>
    decreases |pending|
  {
    if pending == [] then told
    else
      var d := pending[0];
      var more := if !Suppressed(cfg, d, title) && d !in missed && d !in told then told + [d] else told;
      Reached(more, pending[1..], missed, cfg, title)
  }

  /** A pending recipient not configured now was sent nothing: an alert stays owed to it. */
  function Owed(missed: seq<Dest>, sent: Incident, cfg: Config): seq<Dest> {
    missed + if sent.recovered then [] else Unconfigured(sent.pending, cfg)
  }

  function Unconfigured(pending: seq<Dest>, cfg: Config): seq<Dest> {
    if pending == [] then []
    else (if Configured(cfg, pending[0]) then [] else [pending[0]]) + Unconfigured(pending[1..], cfg)
  }

  function Delivered(slot: Option<Incident>, sent: Incident, cfg: Config, missed: seq<Dest>, now: int, gen: nat): Edit {
    if slot.None? || slot.value.gen != sent.gen then Edit(slot, None)
    else
      var x := slot.value;
      var y :=
        if x.recovered then x.(pending := missed, sending := 0)
        else x.(to := Without(x.to, x.told, cfg, sent.title),
          told := Reached(x.told, x.pending, missed, cfg, sent.title),
                pending := missed, sending := 0);
      if y.clearTitle != "" && !y.recovered then
        var r := Recovery(y, y.clearTitle, now, gen);
        Edit(Some(r), Some(r))
      else if y.recovered && missed == [] then Edit(None, None)
      else Edit(Some(y), None)
  }

  // ----- the edits, as the code makes them

  method ReceivingNow(cfg: Config, k: Kind, title: string) returns (out: seq<Dest>)
    ensures out == Receiving(cfg, k, title)
  {
    out := [];
    for n := 0 to |cfg|
      invariant out + Receiving(cfg[n..], k, title) == Receiving(cfg, k, title)
    {
      assert cfg[n..][1..] == cfg[n + 1..];
      if Admits(cfg[n].on, k) && (!DrillTitle(title) || !cfg[n].noDrills) {
        out := out + [cfg[n].name];
      }
    }
  }

  method NewcomersOf(now: seq<Dest>, before: seq<Dest>) returns (out: seq<Dest>)
    ensures out == Newcomers(now, before)
  {
    out := [];
    for n := 0 to |now|
      invariant out + Newcomers(now[n..], before) == Newcomers(now, before)
    {
      assert now[n..][1..] == now[n + 1..];
      if now[n] !in before {
        out := out + [now[n]];
      }
    }
  }

  /** The shared file, each method one edit of it under its lock. */
  class Incidents {
    var incidents: map<string, Incident>

    constructor ()
      ensures incidents == map[]
    {
      incidents := map[];
    }

    function Slot(key: string): Option<Incident>
      reads this
    {
      if key in incidents then Some(incidents[key]) else None
    }

    method Put(key: string, x: Incident)
      modifies this
      ensures Slot(key) == Some(x)
      ensures forall other :: other != key ==> Slot(other) == old(Slot(other))
    {
      incidents := incidents[key := x];
    }

    method Raise(key: string, k: Kind, title: string, cfg: Config, repeat: int, now: int, gen: nat)
      returns (send: Option<Incident>)
      modifies this
      ensures Edit(Slot(key), send) == Raised(old(Slot(key)), cfg, repeat, k, title, now, gen)
      ensures forall other :: other != key ==> Slot(other) == old(Slot(other))
    {
      send := None;
      var x := Incident(k, title, Unix(now), Unix(now), [], [], [], 0, gen, false, "");
      if key in incidents && Claimed(incidents[key], now) {
        return;
      } else if key !in incidents || incidents[key].recovered {
        var to := ReceivingNow(cfg, k, title);
        x := x.(to := to, pending := to);
      } else {
        x := incidents[key];
        if repeat > 0 && now - x.lastSent * SECOND >= repeat {
          x := x.(kind := if k > x.kind then k else x.kind, title := title, gen := gen);
          var pending := ReceivingNow(cfg, x.kind, x.title);
          x := x.(pending := pending, lastSent := Unix(now));
          var added := NewcomersOf(x.pending, x.to);
          x := x.(to := x.to + added);
        } else if x.pending == [] {
          var receiving := ReceivingNow(cfg, x.kind, x.title);
          var added := NewcomersOf(receiving, x.to);
          if added == [] {
            return;
          }
          x := x.(to := x.to + added, pending := added);
        }
      }
      x := x.(sending := Unix(now));
      Put(key, x);
      send := Some(x);
    }

    method Clear(key: string, title: string, now: int, gen: nat) returns (send: Option<Incident>)
      modifies this
      ensures Edit(Slot(key), send) == Cleared(old(Slot(key)), title, now, gen)
      ensures forall other :: other != key ==> Slot(other) == old(Slot(other))
    {
      send := None;
      if key !in incidents {
        return;
      }
      var x := incidents[key];
      if Claimed(x, now) && !x.recovered {
        Put(key, x.(clearTitle := title));
        return;
      } else if Claimed(x, now) {
        return;
      } else if !x.recovered {
        x := Recovery(x, title, now, gen);
      } else if x.pending == [] {
        incidents := incidents - {key};
        return;
      }
      x := x.(sending := Unix(now));
      Put(key, x);
      send := Some(x);
    }

    /** The edit after a delivery that missed some destinations. */
    method Deliver(key: string, sent: Incident, cfg: Config, missed: seq<Dest>, now: int, gen: nat)
      returns (next: Option<Incident>)
      modifies this
      ensures Edit(Slot(key), next) == Delivered(old(Slot(key)), sent, cfg, missed, now, gen)
      ensures forall other :: other != key ==> Slot(other) == old(Slot(other))
    {
      next := None;
      if key !in incidents || incidents[key].gen != sent.gen {
        return;
      }
      var x := incidents[key];
      if !x.recovered {
        var told := x.told;
        for n := 0 to |x.pending|
          invariant Reached(told, x.pending[n..], missed, cfg, sent.title)
            == Reached(x.told, x.pending, missed, cfg, sent.title)
        {
          assert x.pending[n..][1..] == x.pending[n + 1..];
          var d := x.pending[n];
          if !Suppressed(cfg, d, sent.title) && d !in missed && d !in told {
            told := told + [d];
          }
        }
        x := x.(to := Without(x.to, x.told, cfg, sent.title), told := told);
      }
      x := x.(pending := missed, sending := 0);
      if x.clearTitle != "" && !x.recovered {
        x := Recovery(x, x.clearTitle, now, gen);
        Put(key, x);
        next := Some(x);
      } else if x.recovered && missed == [] {
        incidents := incidents - {key};
      } else {
        Put(key, x);
      }
    }
  }

  // ----- deliveries in progress

  /** A process sending a notice, destination by destination in its configuration's order. */
  datatype Sender = Sender(sent: Incident, cfg: Config, next: nat, missed: seq<Dest>)

  /** One key; acked have received an alert of its current incident, and heard its recovery. */
  datatype State = State(
    slot: Option<Incident>, now: int, senders: map<nat, Sender>, gens: nat, acked: set<Dest>, heard: set<Dest>)

  datatype Step =
    | Raise(p: nat, cfg: Config, repeat: int, k: Kind, title: string, at: int) // at: read before the file's lock
    | Clear(p: nat, cfg: Config, title: string)
    | SendNext(p: nat, ok: bool)
    | Finish(p: nat)
    | Die(p: nat)
    | Tick(now: int)

  /** Whether a sender sends to the n-th destination. */
  predicate Attempts(x: Sender, n: nat)
    requires n < |x.cfg|
  {
    x.cfg[n].name in x.sent.pending && !(DrillTitle(x.sent.title) && x.cfg[n].noDrills)
  }

  predicate Enabled(s: State, step: Step) {
    match step
    case Raise(p, _, _, _, _, at) => p !in s.senders && SECOND <= at <= s.now
    case Clear(p, _, _) => p !in s.senders
    case SendNext(p, _) => p in s.senders && s.senders[p].next < |s.senders[p].cfg|
    case Finish(p) => p in s.senders && s.senders[p].next == |s.senders[p].cfg|
    case Die(p) => p in s.senders
    case Tick(now) => s.now <= now
  }

  function Then(s: State, e: Edit, p: nat, cfg: Config): State {
    var senders := if e.send.Some? then s.senders[p := Sender(e.send.value, cfg, 0, [])] else s.senders - {p};
    s.(slot := e.slot, senders := senders, gens := s.gens + 1)
  }

  function Apply(s: State, step: Step): State
    requires Enabled(s, step)
  {
    match step
    case Raise(p, cfg, repeat, k, title, at) =>
      var e := Raised(s.slot, cfg, repeat, k, title, at, s.gens);
      var anew := e.send.Some? && (s.slot.None? || s.slot.value.recovered);
      var t := Then(s, e, p, cfg);
      if anew then t.(acked := {}, heard := {}) else t
    case Clear(p, cfg, title) => Then(s, Cleared(s.slot, title, s.now, s.gens), p, cfg)
    case SendNext(p, ok) =>
      var x := s.senders[p];
      var d := x.cfg[x.next].name;
      var on := s.(senders := s.senders[p := x.(next := x.next + 1)]);
      if !Attempts(x, x.next) then on
      else if ok then if x.sent.recovered then on.(heard := s.heard + {d}) else on.(acked := s.acked + {d})
      else s.(senders := s.senders[p := x.(next := x.next + 1, missed := x.missed + [d])])
    case Finish(p) =>
      var x := s.senders[p];
      Then(s, Delivered(s.slot, x.sent, x.cfg, Owed(x.missed, x.sent, x.cfg), s.now, s.gens), p, x.cfg)
    case Die(p) => s.(senders := s.senders - {p})
    case Tick(now) => s.(now := now)
  }

  /** Every live sender is within the lease of its claim. */
  predicate Timely(s: State) {
    forall p :: p in s.senders ==> 0 <= s.now - s.senders[p].sent.sending * SECOND < LEASE
  }

  /** A raise that meets a live sender's claim did not read the clock before it was made. */
  predicate ClockAfterClaim(s: State, step: Step) {
    step.Raise? && s.senders != map[] && s.slot.Some? ==> s.slot.value.sending * SECOND <= step.at
  }

  /** A step among senders that are within their leases, before and after. */
  ghost predicate Next(s: State, step: Step, t: State) {
    Timely(s) && Enabled(s, step) && ClockAfterClaim(s, step) && t == Apply(s, step) && Timely(t)
  }

  predicate Init(s: State) {
    s.slot == None && s.senders == map[] && s.now >= SECOND && s.gens == 0 && s.acked == {} && s.heard == {}
  }

  ghost predicate Reachable(t: State) {
    Runs.Reachable(Init, Next, t)
  }

  predicate All(ds: seq<Dest>, names: set<Dest>) {
    forall d :: d in ds ==> d in names
  }

  /** A live sender owns the claim in the file, and what it has sent was received or is in missed. */
  predicate SenderOk(s: State, p: nat)
    requires p in s.senders
  {
    var x := s.senders[p];
    && s.slot.Some? && s.slot.value == x.sent.(clearTitle := s.slot.value.clearTitle)
    && x.sent.sending != 0 && x.next <= |x.cfg|
    && (forall d :: d in x.missed ==> d in x.sent.pending)
    && (forall n :: 0 <= n < x.next && Attempts(x, n) ==>
      x.cfg[n].name in x.missed || x.cfg[n].name in if x.sent.recovered then s.heard else s.acked)
  }

  predicate SlotOk(s: State) {
    s.slot.Some? ==>
      var x := s.slot.value;
      && x.gen < s.gens
      && (x.recovered ==> All(x.pending, s.acked) && All(x.to, s.acked) && x.clearTitle == "")
      && (!x.recovered ==> All(x.told, s.acked))
  }

  predicate Inv(s: State) {
    && s.now >= SECOND
    && (forall p, q :: p in s.senders && q in s.senders ==> p == q)
    && (forall p :: p in s.senders ==> SenderOk(s, p))
    && SlotOk(s)
  }

  lemma {:induction false} ReachedOnly(told: seq<Dest>, pending: seq<Dest>, missed: seq<Dest>, cfg: Config,
          title: string)
    ensures forall d :: d in Reached(told, pending, missed, cfg, title) <==>
      d in told || (d in pending && !Suppressed(cfg, d, title) && d !in missed)
    decreases |pending|
  {
    if pending != [] {
      var d := pending[0];
      var more := if !Suppressed(cfg, d, title) && d !in missed && d !in told then told + [d] else told;
      ReachedOnly(more, pending[1..], missed, cfg, title);
      assert pending == [d] + pending[1..];
    }
  }

  lemma {:induction false} UnconfiguredOnly(pending: seq<Dest>, cfg: Config)
    ensures forall d :: d in Unconfigured(pending, cfg) <==> d in pending && !Configured(cfg, d)
  {
    if pending != [] {
      UnconfiguredOnly(pending[1..], cfg);
      assert pending == [pending[0]] + pending[1..];
    }
  }

  lemma {:induction false} NotSuppressed(cfg: Config, d: Dest, title: string) returns (n: nat)
    requires Configured(cfg, d) && !Suppressed(cfg, d, title)
    ensures n < |cfg| && cfg[n].name == d && !(DrillTitle(title) && cfg[n].noDrills)
  {
    if cfg[0].name == d {
      n := 0;
    } else {
      assert Configured(cfg[1..], d) by {
        var k :| 0 <= k < |cfg| && cfg[k].name == d;
        assert cfg[1..][k - 1] == cfg[k];
      }
      var m := NotSuppressed(cfg[1..], d, title);
      n := m + 1;
    }
  }

  /** Who a finished alert reached did receive it. */
  lemma ToldReceived(s: State, p: nat)
    requires Inv(s) && Enabled(s, Finish(p)) && !s.senders[p].sent.recovered
    ensures var x := s.senders[p];
      All(Reached(s.slot.value.told, x.sent.pending, Owed(x.missed, x.sent, x.cfg), x.cfg, x.sent.title), s.acked)
  {
    var x := s.senders[p];
    var owed := Owed(x.missed, x.sent, x.cfg);
    assert SenderOk(s, p);
    ReachedOnly(s.slot.value.told, x.sent.pending, owed, x.cfg, x.sent.title);
    UnconfiguredOnly(x.sent.pending, x.cfg);
    forall d | d in Reached(s.slot.value.told, x.sent.pending, owed, x.cfg, x.sent.title) ensures d in s.acked {
      if d !in s.slot.value.told {
        var n := NotSuppressed(x.cfg, d, x.sent.title);
        assert Attempts(x, n);
      }
    }
  }

  lemma FinishKeeps(s: State, p: nat)
    requires Inv(s) && Enabled(s, Finish(p))
    ensures Inv(Apply(s, Finish(p)))
  {
    hide Reached, Without, Suppressed;
    var x := s.senders[p];
    assert SenderOk(s, p);
    if !x.sent.recovered {
      ToldReceived(s, p);
    }
    assert Unix(s.now) != 0;
  }

  lemma SendKeeps(s: State, p: nat, ok: bool)
    requires Inv(s) && Enabled(s, SendNext(p, ok))
    ensures Inv(Apply(s, SendNext(p, ok)))
  {
    assert SenderOk(s, p);
    var t := Apply(s, SendNext(p, ok));
    var x, y := s.senders[p], t.senders[p];
    forall n | 0 <= n < y.next && Attempts(y, n)
      ensures y.cfg[n].name in y.missed || y.cfg[n].name in if y.sent.recovered then t.heard else t.acked
    {
      assert Attempts(x, n);
    }
  }

  /** A live sender's claim holds against a raise whose clock is not older, so nobody else sends. */
  lemma ClaimHolds(s: State, p: nat, at: int)
    requires Inv(s) && Timely(s) && p in s.senders && at <= s.now
    ensures s.slot.Some? && (Claimed(s.slot.value, at) <==> s.slot.value.sending * SECOND <= at)
  {
    assert SenderOk(s, p);
  }

  lemma RaiseKeeps(s: State, step: Step)
    requires Inv(s) && Timely(s) && Enabled(s, step) && ClockAfterClaim(s, step) && step.Raise?
    ensures Inv(Apply(s, step))
  {
    hide Receiving, Newcomers;
    if q :| q in s.senders {
      ClaimHolds(s, q, step.at);
      assert SenderOk(s, q);
      assert s.senders - {step.p} == s.senders;
    } else {
      assert s.senders == map[];
    }
    assert Unix(step.at) != 0;
  }

  lemma ClearKeeps(s: State, step: Step)
    requires Inv(s) && Timely(s) && Enabled(s, step) && step.Clear?
    ensures Inv(Apply(s, step))
  {
    if q :| q in s.senders {
      ClaimHolds(s, q, s.now);
      assert SenderOk(s, q);
      assert s.senders - {step.p} == s.senders;
    } else {
      assert s.senders == map[];
    }
    assert Unix(s.now) != 0;
  }

  lemma InvStep(s: State, step: Step)
    requires Inv(s) && Timely(s) && Enabled(s, step) && ClockAfterClaim(s, step)
    ensures Inv(Apply(s, step))
  {
    match step {
      case Raise(_, _, _, _, _, _) => RaiseKeeps(s, step);
      case Clear(_, _, _) => ClearKeeps(s, step);
      case SendNext(p, ok) => SendKeeps(s, p, ok);
      case Finish(p) => FinishKeeps(s, p);
      case Die(p) => assert forall q :: q in s.senders ==> SenderOk(s, q);
      case Tick(_) => assert forall q :: q in s.senders ==> SenderOk(s, q);
    }
  }

  predicate InvInTime(s: State) {
    Inv(s) && Timely(s)
  }

  lemma ReachableInv(t: State)
    requires Reachable(t)
    ensures Inv(t) && Timely(t)
  {
    forall a: State | Init(a) ensures InvInTime(a) {}
    hide Inv, Init, Enabled, Apply, Timely;
    forall a: State, step: Step, b: State | InvInTime(a) && Next(a, step, b) ensures InvInTime(b) {
      InvStep(a, step);
    }
    Runs.Everywhere(Init, Next, InvInTime, t);
  }

  /**
   At most one delivery is in flight; a recovery goes only to destinations that received an alert
   of that incident, and while it goes no alert is being sent.
   */
  lemma OneDeliveryAtATime(t: State, p: nat, q: nat)
    requires Reachable(t) && p in t.senders && q in t.senders
    ensures p == q
    ensures t.senders[p].sent.recovered ==>
      forall n :: 0 <= n < |t.senders[p].cfg| && Attempts(t.senders[p], n) ==> t.senders[p].cfg[n].name in t.acked
  {
    ReachableInv(t);
    assert SenderOk(t, p);
  }

  /** Once a recovery is owed to nobody its key is gone; one a dead sender left goes at the next clear. */
  lemma DoneOnceNobodyIsOwed(t: State, step: Step)
    requires Reachable(t) && Enabled(t, step)
    ensures step.Finish? && t.senders[step.p].sent.recovered ==>
      (Apply(t, step).slot == None <==> t.senders[step.p].missed == [])
    ensures step.Clear? && t.slot.Some? && t.slot.value.recovered && !Claimed(t.slot.value, t.now) ==>
      (Apply(t, step).slot == None <==> t.slot.value.pending == [])
  {
    ReachableInv(t);
    if step.Finish? {
      assert SenderOk(t, step.p);
    }
  }

  /** A raise respects a live claim exactly when its clock is not older than the claim's second. */
  lemma ClaimHonouredExactly(t: State, p: nat, at: int)
    requires Reachable(t) && p in t.senders && at <= t.now
    ensures t.slot.Some? && (Claimed(t.slot.value, at) <==> t.slot.value.sending * SECOND <= at)
  {
    ReachableInv(t);
    ClaimHolds(t, p, at);
  }

  lemma Ran(s: State, step: Step, t: State)
    requires Init(s) && Next(s, step, t)
    ensures Reachable(t)
  {
    Runs.Starts(Init, Next, s);
    Runs.Further(Init, Next, s, step, t);
  }

  /** A raise that read the clock just before another's claim, over a second's edge, sends beside it. */
  lemma OvertakeWitness() returns (t: State, step: Step)
    ensures Reachable(t) && Enabled(t, step)
    ensures 1 in t.senders && 1 in Apply(t, step).senders && 2 in Apply(t, step).senders
    ensures Timely(Apply(t, step))
  {
    var cfg := [Destination("a", Everything, false)];
    var now := 11 * SECOND + 100;
    var s := State(None, now, map[], 0, {}, {});
    var raise := Raise(1, cfg, 0, 2, "T", now);
    t := Apply(s, raise);
    step := Raise(2, cfg, 0, 2, "T", 11 * SECOND - 100);
    assert !DrillTitle("T");
    assert Receiving(cfg, 2, "T") == ["a"];
    assert Init(s) && Next(s, raise, t);
    assert Enabled(t, step) && 1 in t.senders && 1 in Apply(t, step).senders && 2 in Apply(t, step).senders;
    assert Timely(Apply(t, step));
    hide *;
    assert Reachable(t) by { Ran(s, raise, t); }
  }

  // ----- at least once

  predicate DistinctNames(cfg: Config) {
    forall m, n :: 0 <= m < n < |cfg| ==> cfg[m].name != cfg[n].name
  }

  /** Destinations and settings stay, and a key's titles are all drills' or all not. */
  predicate Fixed(step: Step, cfg: Config, drill: bool) {
    && (step.Raise? ==> step.cfg == cfg && DrillTitle(step.title) == drill)
    && (step.Clear? ==> step.cfg == cfg)
  }

  predicate Within(a: seq<Dest>, b: seq<Dest>) {
    forall d :: d in a ==> d in b
  }

  /** Everyone the alert goes to has been told or is still owed it. */
  predicate NobodyForgotten(x: Incident) {
    Within(x.pending, x.to) && Within(x.told, x.to) && forall d :: d in x.to ==> d in x.told || d in x.pending
  }

  predicate Settled(s: State, cfg: Config, drill: bool) {
    && (forall p :: p in s.senders ==> s.senders[p].cfg == cfg)
    && (s.slot.Some? && !s.slot.value.recovered ==>
      var x := s.slot.value;
      && DrillTitle(x.title) == drill && NobodyForgotten(x)
      && Within(x.to, Receiving(cfg, x.kind, x.title)) && Within(Receiving(cfg, x.kind, x.title), x.to))
  }

  predicate Receives(d: Destination, k: Kind, title: string) {
    Admits(d.on, k) && (!DrillTitle(title) || !d.noDrills)
  }

  lemma {:induction false} ReceivingOnly(cfg: Config, k: Kind, title: string, d: Dest)
    ensures d in Receiving(cfg, k, title) <==>
      exists n :: 0 <= n < |cfg| && cfg[n].name == d && Receives(cfg[n], k, title)
  {
    if cfg != [] {
      ReceivingOnly(cfg[1..], k, title, d);
      if n :| 0 <= n < |cfg| && cfg[n].name == d && Receives(cfg[n], k, title) {
        assert n > 0 ==> cfg[1..][n - 1] == cfg[n];
      }
      if m :| 0 <= m < |cfg[1..]| && cfg[1..][m].name == d && Receives(cfg[1..][m], k, title) {
        assert cfg[m + 1] == cfg[1..][m];
      }
    }
  }

  /** A more serious kind reaches everyone a lesser one does. */
  lemma ReceivingMore(cfg: Config, k: Kind, title: string, k2: Kind, title2: string)
    requires k <= k2 && DrillTitle(title) == DrillTitle(title2)
    ensures Within(Receiving(cfg, k, title), Receiving(cfg, k2, title2))
  {
    forall d | d in Receiving(cfg, k, title) ensures d in Receiving(cfg, k2, title2) {
      ReceivingOnly(cfg, k, title, d);
      ReceivingOnly(cfg, k2, title2, d);
      var n :| 0 <= n < |cfg| && cfg[n].name == d && Receives(cfg[n], k, title);
      assert Receives(cfg[n], k2, title2);
    }
  }

  lemma {:induction false} NewcomersOnly(now: seq<Dest>, before: seq<Dest>)
    ensures forall d :: d in Newcomers(now, before) <==> d in now && d !in before
  {
    if now != [] {
      NewcomersOnly(now[1..], before);
      assert now == [now[0]] + now[1..];
    }
  }

  lemma {:induction false} WithoutOnly(to: seq<Dest>, told: seq<Dest>, cfg: Config, title: string)
    ensures forall d :: d in Without(to, told, cfg, title) <==> d in to && !(Suppressed(cfg, d, title) && d !in told)
  {
    if to != [] {
      WithoutOnly(to[1..], told, cfg, title);
      assert to == [to[0]] + to[1..];
    }
  }

  /** Who receives a title is configured, and not kept from it. */
  lemma {:induction false} ReceiverNotSuppressed(cfg: Config, k: Kind, title: string, d: Dest)
    requires DistinctNames(cfg) && d in Receiving(cfg, k, title)
    ensures Configured(cfg, d) && !Suppressed(cfg, d, title)
  {
    ReceivingOnly(cfg, k, title, d);
    var n :| 0 <= n < |cfg| && cfg[n].name == d && Receives(cfg[n], k, title);
    if n > 0 {
      ReceivingOnly(cfg[1..], k, title, d);
      assert cfg[1..][n - 1] == cfg[n];
      ReceiverNotSuppressed(cfg[1..], k, title, d);
    }
  }

  lemma RaiseSettled(s: State, step: Step, cfg: Config, drill: bool)
    requires Settled(s, cfg, drill) && Enabled(s, step) && step.Raise? && Fixed(step, cfg, drill)
    ensures Settled(Apply(s, step), cfg, drill)
  {
    hide Newcomers, Receiving;
    var k, title := step.k, step.title;
    if s.slot.Some? && !s.slot.value.recovered {
      var x := s.slot.value;
      var kind := if k > x.kind then k else x.kind;
      ReceivingMore(cfg, x.kind, x.title, kind, title);
      NewcomersOnly(Receiving(cfg, kind, title), x.to);
      NewcomersOnly(Receiving(cfg, x.kind, x.title), x.to);
    }
  }

  lemma FinishSettled(s: State, p: nat, cfg: Config, drill: bool)
    requires Inv(s) && Settled(s, cfg, drill) && Enabled(s, Finish(p)) && DistinctNames(cfg)
    ensures Settled(Apply(s, Finish(p)), cfg, drill)
  {
    hide Without, Reached, Receiving, Suppressed, Unconfigured;
    var x := s.senders[p];
    assert SenderOk(s, p);
    if !x.sent.recovered {
      var owed := Owed(x.missed, x.sent, cfg);
      WithoutOnly(x.sent.to, x.sent.told, cfg, x.sent.title);
      ReachedOnly(x.sent.told, x.sent.pending, owed, cfg, x.sent.title);
      UnconfiguredOnly(x.sent.pending, cfg);
      forall d | d in x.sent.to ensures Configured(cfg, d) && !Suppressed(cfg, d, x.sent.title) {
        ReceiverNotSuppressed(cfg, x.sent.kind, x.sent.title, d);
      }
    }
  }

  lemma SettledStep(s: State, step: Step, cfg: Config, drill: bool)
    requires Inv(s) && Settled(s, cfg, drill) && Enabled(s, step) && Fixed(step, cfg, drill) && DistinctNames(cfg)
    ensures Settled(Apply(s, step), cfg, drill)
  {
    match step {
      case Raise(_, _, _, _, _, _) => RaiseSettled(s, step, cfg, drill);
      case Finish(p) => FinishSettled(s, p, cfg, drill);
      case _ =>
    }
  }

  lemma {:induction false} SettledRun(s: State, steps: seq<Step>, t: State, cfg: Config, drill: bool)
    requires Inv(s) && Settled(s, cfg, drill) && DistinctNames(cfg) && Runs.Run(Next, s, steps, t)
    requires forall k :: 0 <= k < |steps| ==> Fixed(steps[k], cfg, drill)
    ensures Inv(t) && Settled(t, cfg, drill)
    decreases |steps|
  {
    if steps != [] {
      var m := Runs.First(Next, s, steps, t);
      InvStep(s, steps[0]);
      SettledStep(s, steps[0], cfg, drill);
      SettledRun(m, steps[1..], t, cfg, drill);
    }
  }

  /**
   Through raises, repeats, clears, failed sends and senders that die, an open incident is for
   everyone who receives its kind and title, forgets nobody, and once its claim is free the next
   raise sends to everyone still owed.
   */
  lemma AtLeastOnce(s: State, steps: seq<Step>, t: State, cfg: Config, drill: bool)
    requires Init(s) && Runs.Run(Next, s, steps, t) && DistinctNames(cfg)
    requires forall k :: 0 <= k < |steps| ==> Fixed(steps[k], cfg, drill)
    requires t.slot.Some? && !t.slot.value.recovered
    ensures forall d :: d in t.slot.value.to <==> Takes(cfg, d, t.slot.value.kind, t.slot.value.title)
    ensures NobodyForgotten(t.slot.value) && All(t.slot.value.told, t.acked)
    ensures forall repeat: int, k: Kind, title: string, at: int, gen: nat ::
      DrillTitle(title) == drill && !Claimed(t.slot.value, at) && t.slot.value.pending != [] ==>
      var e := Raised(t.slot, cfg, repeat, k, title, at, gen);
      e.send.Some? && Within(t.slot.value.pending, e.send.value.pending)
  {
    SettledRun(s, steps, t, cfg, drill);
    var x := t.slot.value;
    forall d ensures d in x.to <==> Takes(cfg, d, x.kind, x.title) { ReceivingOnly(cfg, x.kind, x.title, d); }
    forall repeat: int, k: Kind, title: string, at: int, gen: nat |
      DrillTitle(title) == drill && !Claimed(x, at) && x.pending != []
      ensures var e := Raised(t.slot, cfg, repeat, k, title, at, gen);
        e.send.Some? && Within(x.pending, e.send.value.pending)
    {
      var kind := if k > x.kind then k else x.kind;
      ReceivingMore(cfg, x.kind, x.title, kind, title);
    }
  }

  // ----- the recovery, too

  /** Everyone told can be sent the recovery, and has received it or is still owed it. */
  predicate RecoveryOwed(s: State, cfg: Config)
    requires s.slot.Some?
  {
    var x := s.slot.value;
    forall d :: d in x.to ==>
      Configured(cfg, d) && !Suppressed(cfg, d, x.title) && (d in x.pending || d in s.heard)
  }

  predicate Mending(s: State, cfg: Config, drill: bool) {
    s.slot.Some? ==>
      if s.slot.value.recovered then RecoveryOwed(s, cfg)
      else s.slot.value.clearTitle != "" ==> DrillTitle(s.slot.value.clearTitle) == drill
  }

  /** Clears' titles, too, are drills' exactly when the raises' are. */
  predicate FixedTitles(step: Step, cfg: Config, drill: bool) {
    Fixed(step, cfg, drill) && (step.Clear? ==> DrillTitle(step.title) == drill)
  }

  /** Who receives an alert can be sent its recovery. */
  lemma CanHear(told: seq<Dest>, cfg: Config, k: Kind, title: string, over: string)
    requires DistinctNames(cfg) && DrillTitle(title) == DrillTitle(over) && Within(told, Receiving(cfg, k, title))
    ensures forall d :: d in told ==> Configured(cfg, d) && !Suppressed(cfg, d, over)
  {
    ReceivingMore(cfg, k, title, k, over);
    forall d | d in told ensures Configured(cfg, d) && !Suppressed(cfg, d, over) {
      ReceiverNotSuppressed(cfg, k, over, d);
    }
  }

  lemma ClearMends(s: State, step: Step, cfg: Config, drill: bool)
    requires Inv(s) && Settled(s, cfg, drill) && Mending(s, cfg, drill) && DistinctNames(cfg)
    requires Enabled(s, step) && step.Clear? && FixedTitles(step, cfg, drill)
    ensures Mending(Apply(s, step), cfg, drill)
  {
    hide Suppressed, Receiving;
    if s.slot.Some? && !s.slot.value.recovered {
      var x := s.slot.value;
      CanHear(x.told, cfg, x.kind, x.title, step.title);
    }
  }

  /** Whom a finished delivery did not miss it reached, recovery or not. */
  lemma RecoveryReached(s: State, p: nat, d: Dest)
    requires Inv(s) && Enabled(s, Finish(p)) && s.senders[p].sent.recovered && d in s.senders[p].sent.pending
    requires Configured(s.senders[p].cfg, d) && !Suppressed(s.senders[p].cfg, d, s.senders[p].sent.title)
    ensures d in s.senders[p].missed || d in s.heard
  {
    var x := s.senders[p];
    assert SenderOk(s, p);
    var n := NotSuppressed(x.cfg, d, x.sent.title);
    assert Attempts(x, n);
  }

  lemma FinishMends(s: State, p: nat, cfg: Config, drill: bool)
    requires Inv(s) && Settled(s, cfg, drill) && Mending(s, cfg, drill) && DistinctNames(cfg) && Enabled(s, Finish(p))
    requires Settled(Apply(s, Finish(p)), cfg, drill)
    ensures Mending(Apply(s, Finish(p)), cfg, drill)
  {
    hide Suppressed, Receiving, Reached, Without, Unconfigured;
    var x := s.senders[p];
    var t := Apply(s, Finish(p));
    assert SenderOk(s, p) && s.slot.value.gen == x.sent.gen;
    if x.sent.recovered {
      forall d | d in x.sent.to ensures d in x.missed || d in s.heard {
        if d in x.sent.pending { RecoveryReached(s, p, d); }
      }
    } else {
      var y := s.slot.value;
      var told := Reached(y.told, y.pending, Owed(x.missed, x.sent, cfg), cfg, x.sent.title);
      ReachedOnly(y.told, y.pending, Owed(x.missed, x.sent, cfg), cfg, x.sent.title);
      if y.clearTitle != "" { CanHear(told, cfg, y.kind, y.title, y.clearTitle); }
    }
  }

  lemma SendMends(s: State, step: Step, cfg: Config, drill: bool)
    requires Mending(s, cfg, drill) && Enabled(s, step) && !step.Clear? && !step.Finish?
    ensures Mending(Apply(s, step), cfg, drill)
  {
    hide Receiving, Newcomers, Suppressed, Configured, DrillTitle;
  }

  lemma {:induction false} MendingRun(s: State, steps: seq<Step>, t: State, cfg: Config, drill: bool)
    requires Inv(s) && Settled(s, cfg, drill) && Mending(s, cfg, drill)
    requires DistinctNames(cfg) && Runs.Run(Next, s, steps, t)
    requires forall k :: 0 <= k < |steps| ==> FixedTitles(steps[k], cfg, drill)
    ensures Inv(t) && Settled(t, cfg, drill) && Mending(t, cfg, drill)
    decreases |steps|
  {
    hide Inv, Settled, Mending, Apply, Enabled;
    if steps != [] {
      var m := Runs.First(Next, s, steps, t);
      var step := steps[0];
      InvStep(s, step);
      SettledStep(s, step, cfg, drill);
      if step.Clear? { ClearMends(s, step, cfg, drill); }
      else if step.Finish? { FinishMends(s, step.p, cfg, drill); }
      else { SendMends(s, step, cfg, drill); }
      MendingRun(m, steps[1..], t, cfg, drill);
    }
  }

  /**
   A recovery, too, is sent at least once: whoever it is for has received it or is still owed it, and
   its key goes, short of a new raise, only when all of them have received it.
   */
  lemma RecoveryAtLeastOnce(s: State, steps: seq<Step>, t: State, cfg: Config, drill: bool, step: Step, u: State)
    requires Init(s) && Runs.Run(Next, s, steps, t) && DistinctNames(cfg) && Next(t, step, u)
    requires forall k :: 0 <= k < |steps| ==> FixedTitles(steps[k], cfg, drill)
    requires t.slot.Some? && t.slot.value.recovered && FixedTitles(step, cfg, drill)
    ensures forall d :: d in t.slot.value.to ==> d in t.slot.value.pending || d in t.heard
    ensures u.slot == None ==> forall d :: d in t.slot.value.to ==> d in t.heard
    ensures All(t.slot.value.to, t.acked)
  {
    MendingRun(s, steps, t, cfg, drill);
    if step.Finish? && u.slot == None {
      var x := t.senders[step.p];
      assert SenderOk(t, step.p);
      forall d | d in t.slot.value.to ensures d in t.heard {
        if d in x.sent.pending { RecoveryReached(t, step.p, d); }
      }
    }
  }

  // ----- what one edit sends, and to whom

  /** Some destination by that name takes a notice of that kind and title. */
  predicate Takes(cfg: Config, d: Dest, k: Kind, title: string) {
    exists n :: 0 <= n < |cfg| && cfg[n].name == d && Receives(cfg[n], k, title)
  }

  /** A raise that no claim holds off of a key with no open incident: a new one, owed to everyone who receives it. */
  lemma NewAlertReachesAll(slot: Option<Incident>, cfg: Config, repeat: int, k: Kind, title: string, now: int, gen: nat)
    requires slot.Some? ==> slot.value.recovered && !Claimed(slot.value, now)
    ensures var e := Raised(slot, cfg, repeat, k, title, now, gen);
      && e.send.Some? && e.slot == e.send
      && var x := e.send.value;
         && x.kind == k && x.title == title && x.since == x.lastSent == x.sending == Unix(now)
         && x.told == [] && x.gen == gen && !x.recovered && x.clearTitle == ""
         && (forall d :: d in x.to <==> Takes(cfg, d, k, title))
         && (forall d :: d in x.pending <==> Takes(cfg, d, k, title))
  {
    forall d ensures d in Receiving(cfg, k, title) <==> Takes(cfg, d, k, title) { ReceivingOnly(cfg, k, title, d); }
  }

  /**
   A raise of an open incident that no claim holds off: once the repeat is due it is sent to whoever
   receives the more serious kind; else what is still owed is sent; else newcomers are told; else
   nothing is sent. Nobody it went to before is dropped, nor what they are owed.
   */
  lemma OpenAlertGoesOn(x: Incident, cfg: Config, repeat: int, k: Kind, title: string, now: int, gen: nat)
    requires !x.recovered && !Claimed(x, now)
    ensures var e := Raised(Some(x), cfg, repeat, k, title, now, gen);
      var due := repeat > 0 && now - x.lastSent * SECOND >= repeat;
      var kind := if due && k > x.kind then k else x.kind;
      var called := if due then title else x.title;
      && (e.send == None ==> e.slot == Some(x))
      && (e.send == None <==> !due && x.pending == [] && forall d :: Takes(cfg, d, kind, called) ==> d in x.to)
      && (e.send.Some? ==>
            var y := e.send.value;
            && e.slot == e.send && y.kind == kind && y.title == called && y.sending == Unix(now)
            && y.since == x.since && y.told == x.told && y.clearTitle == x.clearTitle && !y.recovered
            && y.gen == (if due then gen else x.gen) && y.lastSent == (if due then Unix(now) else x.lastSent)
            && (forall d :: d in y.pending <==>
                  if due then Takes(cfg, d, kind, called)
                  else if x.pending != [] then d in x.pending
                  else Takes(cfg, d, kind, called) && d !in x.to)
            && (forall d :: d in y.to <==> d in x.to || (d in y.pending && (due || x.pending == []))))
  {
    hide Receiving, Newcomers;
    var due := repeat > 0 && now - x.lastSent * SECOND >= repeat;
    var kind := if due && k > x.kind then k else x.kind;
    var called := if due then title else x.title;
    forall d ensures d in Receiving(cfg, kind, called) <==> Takes(cfg, d, kind, called) {
      ReceivingOnly(cfg, kind, called, d);
    }
    NewcomersOnly(Receiving(cfg, kind, called), x.to);
    if Newcomers(Receiving(cfg, kind, called), x.to) != [] {
      var d := Newcomers(Receiving(cfg, kind, called), x.to)[0];
      assert d in Newcomers(Receiving(cfg, kind, called), x.to);
    }
  }

  /** A clear of an open incident: deferred while its alert is being sent, else a recovery to exactly those told. */
  lemma ClearTellsTheTold(x: Incident, title: string, now: int, gen: nat)
    requires !x.recovered
    ensures var e := Cleared(Some(x), title, now, gen);
      && (Claimed(x, now) ==> e.send == None && e.slot == Some(x.(clearTitle := title)))
      && (!Claimed(x, now) ==>
            && e.send.Some? && e.slot == e.send
            && var y := e.send.value;
               && y.recovered && y.to == y.pending == x.told && y.title == title && y.clearTitle == ""
               && y.since == x.since && y.kind == x.kind && y.gen == gen && y.sending == Unix(now))
  {
  }

  /** A clear of a recovery: nothing while it is being sent, its end when it is owed to nobody, else it is sent on. */
  lemma ClearSendsOn(x: Incident, title: string, now: int, gen: nat)
    requires x.recovered
    ensures var e := Cleared(Some(x), title, now, gen);
      && (e.slot == None <==> !Claimed(x, now) && x.pending == [])
      && (e.send.Some? <==> !Claimed(x, now) && x.pending != [])
      && (e.send.Some? ==> e.slot == e.send && e.send.value == x.(sending := Unix(now)))
      && (e.send == None && e.slot.Some? ==> e.slot == Some(x))
  {
  }

  /**
   The edit after a live alert's delivery: told gains whom it reached, whom it missed and who is not
   configured now are owed it, who leaves it out is not, and a clear deferred meanwhile is sent at
   once, to exactly those told by then.
   */
  lemma DeliveryEnds(t: State, p: nat)
    requires Reachable(t) && Enabled(t, Finish(p)) && !t.senders[p].sent.recovered
    ensures t.slot.Some? && !t.slot.value.recovered
    ensures var x, sender, u := t.slot.value, t.senders[p], Apply(t, Finish(p));
      var owed := Owed(sender.missed, sender.sent, sender.cfg);
      && u.slot.Some?
      && (forall d :: d in owed <==> d in sender.missed || (d in x.pending && !Configured(sender.cfg, d)))
      && (x.clearTitle == "" ==>
            forall d :: d in u.slot.value.to <==> d in x.to && !(Suppressed(sender.cfg, d, x.title) && d !in x.told))
      && (forall d :: d in (if x.clearTitle == "" then u.slot.value.told else u.slot.value.to) <==>
            d in x.told || (d in x.pending && d !in owed && !Suppressed(sender.cfg, d, x.title)))
      && (x.clearTitle == "" ==>
            !u.slot.value.recovered && u.slot.value.pending == owed && u.slot.value.sending == 0 && p !in u.senders)
      && (x.clearTitle != "" ==>
            && u.slot.value.recovered && u.slot.value.pending == u.slot.value.to && u.slot.value.title == x.clearTitle
            && p in u.senders && u.senders[p] == Sender(u.slot.value, sender.cfg, 0, []))
  {
    hide Receiving, Without, Suppressed, Unconfigured;
    ReachableInv(t);
    assert SenderOk(t, p);
    var x, sender := t.slot.value, t.senders[p];
    ReachedOnly(x.told, x.pending, Owed(sender.missed, sender.sent, sender.cfg), sender.cfg, x.title);
    UnconfiguredOnly(x.pending, sender.cfg);
    WithoutOnly(x.to, x.told, sender.cfg, x.title);
  }
}
