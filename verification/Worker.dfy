/**
 The copy worker: one goroutine runs passes while stops, wakes, pauses and a closing copy
 window arrive at any moment. Each section under the worker's mutex is one method of the
 class, proved to change the state as a function; the step system interleaves those
 functions with the channel, the signals still on their way and the run loop's own position.
 */
module Worker {
  import opened Options
  import Runs

  datatype Status = Idle | Copying | Retrying | Down | Stopped | Held | Mirroring | Pruning | Checking

  /** A started program: the counts it was started under, and the signals it has had. */
  datatype Prog = Prog(id: nat, stops: nat, wakes: nat, check: bool, frozen: bool)

  /** What the mutex protects. */
  datatype Shared = Shared(
    status: Status, held: bool,
    stops: nat, wakes: nat, wakesAtStop: nat, passWakes: nat, holdAt: nat,
    paused: bool, checking: bool, current: Option<Prog>, token: bool)

  function Thaw(p: Option<Prog>): Option<Prog> {
    match p case None => None case Some(c) => Some(c.(frozen := false))
  }

  function Freeze(p: Option<Prog>): Option<Prog> {
    match p case None => None case Some(c) => Some(c.(frozen := true))
  }

  // ----- the sections, as functions

  function Woken(w: Shared): Shared {
    w.(wakes := w.wakes + 1)
  }

  /** One token at most: a send to a full channel is dropped. */
  function Sent(w: Shared): Shared {
    w.(token := true)
  }

  function StoppedBy(w: Shared): Shared {
    w.(stops := w.stops + 1, wakesAtStop := w.wakes, token := false, status := Stopped, held := false,
       current := if w.paused then Thaw(w.current) else w.current, paused := false)
  }

  function MarkedHeld(w: Shared): Shared {
    w.(held := true, status := if w.status == Retrying || w.status == Down then w.status else Held)
  }

  /** The window closes: like a stop, but nothing for one already stopped, and a pause stays. */
  function HeldBy(w: Shared): Shared {
    if w.status == Stopped then w
    else MarkedHeld(w).(stops := w.stops + 1, holdAt := w.stops + 1,
                        current := if w.paused then Thaw(w.current) else w.current)
  }

  function PausedBy(w: Shared): Shared {
    if w.paused then w else w.(paused := true, current := Freeze(w.current))
  }

  function ResumedBy(w: Shared): Shared {
    if w.paused then w.(paused := false, current := Thaw(w.current)) else w
  }

  /** A stopped worker goes on only for a wake after the stop. */
  predicate Dispatches(w: Shared) {
    w.status != Stopped || w.wakes != w.wakesAtStop
  }

  function Dispatched(w: Shared): Shared {
    if Dispatches(w) then w.(status := if w.status == Stopped then Idle else w.status, passWakes := w.wakes) else w
  }

  predicate Starts(w: Shared, stops: nat, check: bool) {
    w.stops == stops && !(check && w.wakes != w.passWakes) && !w.paused
  }

  function Started(w: Shared, id: nat, status: Status, check: bool): Shared {
    w.(current := Some(Prog(id, w.stops, w.passWakes, check, false)), checking := check, status := status)
  }

  function Ended(w: Shared): Shared {
    w.(current := None, checking := false)
  }

  /** caughtUp, failed and upkeep's end write a status only while no stop has come. */
  function Settled(w: Shared, stops: nat, status: Status): Shared {
    if w.stops == stops then w.(status := status) else w
  }

  // ----- the sections, as the code runs them

  /** A running program, as the worker signals it. */
  class Program {
    const id: nat
    const stops: nat
    const wakes: nat
    const check: bool
    var frozen: bool

    constructor (id: nat, stops: nat, wakes: nat, check: bool)
      ensures this.id == id && this.stops == stops && this.wakes == wakes && this.check == check && !frozen
    {
      this.id, this.stops, this.wakes, this.check, frozen := id, stops, wakes, check, false;
    }

    function View(): Prog
      reads this
    {
      Prog(id, stops, wakes, check, frozen)
    }

    method Pause()
      modifies this
      ensures frozen
    {
      frozen := true;
    }

    method Resume()
      modifies this
      ensures !frozen
    {
      frozen := false;
    }
  }

  class Worker {
    var status: Status
    var held: bool // waiting for the copy window (HeldUntil set)
    var stops: nat
    var wakes: nat
    var wakesAtStop: nat
    var passWakes: nat
    var holdAt: nat
    var paused: bool
    var checking: bool
    var current: Program?
    var token: bool // in the one-slot wake channel

    function View(): Shared
      reads this, current
    {
      Shared(status, held, stops, wakes, wakesAtStop, passWakes, holdAt, paused, checking,
             if current == null then None else Some(current.View()), token)
    }

    /** New: a stop or a copy does not outlive the process. */
    constructor (saved: Status)
      ensures View() == Shared(
        if saved in {Copying, Stopped, Held} then Idle else saved, false, 0, 0, 0, 0, 0, false, false, None, false)
    {
      status := if saved == Copying || saved == Stopped || saved == Held then Idle else saved;
      held, stops, wakes, wakesAtStop, passWakes, holdAt := false, 0, 0, 0, 0, 0;
      paused, checking, current, token := false, false, null, false;
    }

    /** Wake's section: a check running is to be terminated. */
    method Wake() returns (check: Program?)
      modifies this`wakes
      ensures View() == Woken(old(View()))
      ensures check == if checking then current else null
    {
      wakes := wakes + 1;
      check := null;
      if checking {
        check := current;
      }
    }

    /** Wake's and nudge's send, after the section. */
    method Send()
      modifies this`token
      ensures View() == Sent(old(View()))
    {
      if !token {
        token := true;
      }
    }

    method Stop() returns (c: Program?)
      modifies this, current
      ensures View() == StoppedBy(old(View()))
      ensures c == current == old(current)
    {
      stops := stops + 1;
      wakesAtStop := wakes;
      token := false;
      c := current;
      var was := paused;
      paused := false;
      status, held := Stopped, false;
      if c != null && was {
        c.Resume();
      }
    }

    method MarkHeld()
      modifies this`held, this`status
      ensures View() == MarkedHeld(old(View()))
    {
      held := true;
      if status != Retrying && status != Down {
        status := Held;
      }
    }

    method Hold() returns (c: Program?)
      modifies this, current
      ensures View() == HeldBy(old(View()))
      ensures c == if old(status) == Stopped then null else old(current)
    {
      c := null;
      if status == Stopped {
        return;
      }
      stops := stops + 1;
      holdAt := stops;
      c := current;
      MarkHeld();
      if c != null && paused {
        c.Resume();
      }
    }

    method Pause()
      modifies this, current
      ensures View() == PausedBy(old(View()))
    {
      if paused {
        return;
      }
      paused := true;
      if current != null {
        current.Pause();
      }
    }

    method Resume()
      modifies this, current
      ensures View() == ResumedBy(old(View()))
    {
      if !paused {
        return;
      }
      paused := false;
      if current != null {
        current.Resume();
      }
    }

    /** Run's section after it wakes. */
    method Dispatch() returns (go: bool, at: nat)
      modifies this`status, this`passWakes
      ensures View() == Dispatched(old(View())) && go == Dispatches(old(View())) && at == stops
    {
      at := stops;
      if status == Stopped {
        if wakes == wakesAtStop {
          return false, at;
        }
        status := Idle;
      }
      passWakes := wakes;
      go := true;
    }

    /** outsideWindow's section, with the window open or closed. */
    method OutsideWindow(open: bool) returns (outside: bool)
      modifies this`held, this`status
      ensures outside == !open
      ensures View() == if open then old(View()).(held := false) else MarkedHeld(old(View()))
    {
      if open {
        held := false;
        return false;
      }
      MarkHeld();
      outside := true;
    }

    /** run's section: stopped ends the run, neither stopped nor started waits and tries again. */
    method Start(at: nat, s: Status, check: bool, id: nat) returns (stopped: bool, started: bool)
      modifies this`current, this`checking, this`status
      ensures stopped == (stops != at || (check && wakes != passWakes))
      ensures started == Starts(old(View()), at, check)
      ensures View() == if started then Started(old(View()), id, s, check) else old(View())
      ensures started ==> fresh(current)
    {
      if stops != at || (check && wakes != passWakes) {
        return true, false;
      }
      if paused {
        return false, false;
      }
      current := new Program(id, stops, passWakes, check);
      checking := check;
      status := s;
      return false, true;
    }

    /** run's section after the program ended. */
    method Finish(at: nat, check: bool, startWakes: nat) returns (stopped: bool)
      modifies this`current, this`checking
      ensures View() == Ended(old(View()))
      ensures stopped == (stops != at || (check && wakes != startWakes))
    {
      current, checking := null, false;
      stopped := stops != at || (check && wakes != startWakes);
    }

    method Settle(at: nat, s: Status)
      modifies this`status
      ensures View() == Settled(old(View()), at, s)
    {
      if stops == at {
        status := s;
      }
    }
  }

  // ----- everything at once

  /** Where the run loop is. */
  datatype Pc =
    | Waiting
    | Awake                   // received a token or a timer, or making its first pass
    | Given(stops: nat)       // dispatched with the stop count, before pass's check of it
    | Entered(stops: nat)     // past that check, before outsideWindow
    | Passing(stops: nat)     // in the pass
    | Running(stops: nat)     // a program is current

  datatype State = State(
    w: Shared, pc: Pc,
    ending: set<nat>, // programs whose termination has been requested, delivered or on its way
    wakers: nat,      // wakes past their section that have not sent yet
    nextId: nat,
    windowed: bool, open: bool)

  datatype Step =
    | WakeSection | WakeSend | Nudge | StopSection | HoldSection | PauseSection | ResumeSection
    | Window
    | Receive | Timer | Dispatch | Enter | Outside
    | Start(status: Status, check: bool) | Finish | Settle(status: Status) | Return

  predicate Enabled(s: State, step: Step) {
    match step
    case WakeSend => s.wakers > 0
    case HoldSection => s.windowed
    case Window => s.windowed
    case Receive => s.pc.Waiting? && s.w.token
    case Timer => s.pc.Waiting?
    case Dispatch => s.pc.Awake?
    case Enter => s.pc.Given?
    case Outside => s.pc.Entered?
    case Start(st, check) =>
      s.pc.Passing? && st in {Copying, Mirroring, Pruning, Checking} && Starts(s.w, s.pc.stops, check)
    case Finish => s.pc.Running?
    case Settle(st) => s.pc.Passing? && st in {Idle, Retrying, Down}
    case Return => s.pc.Passing?
    case _ => true
  }

  function Ending(w: Shared): set<nat> {
    match w.current case None => {} case Some(c) => {c.id}
  }

  function Apply(s: State, step: Step): State
    requires Enabled(s, step)
  {
    match step
    case WakeSection =>
      s.(w := Woken(s.w), wakers := s.wakers + 1,
         ending := s.ending + if s.w.checking then Ending(s.w) else {})
    case WakeSend => s.(w := Sent(s.w), wakers := s.wakers - 1)
    case Nudge => s.(w := Sent(s.w))
    case StopSection => s.(w := StoppedBy(s.w), ending := s.ending + Ending(s.w))
    case HoldSection => s.(w := HeldBy(s.w), ending := s.ending + if s.w.status == Stopped then {} else Ending(s.w))
    case PauseSection => s.(w := PausedBy(s.w))
    case ResumeSection => s.(w := ResumedBy(s.w))
    case Window => s.(open := !s.open)
    case Receive => s.(w := s.w.(token := false), pc := Awake)
    case Timer => s.(pc := Awake)
    case Dispatch => s.(w := Dispatched(s.w), pc := if Dispatches(s.w) then Given(s.w.stops) else Waiting)
    case Enter => s.(pc := if s.w.stops == s.pc.stops then Entered(s.pc.stops) else Waiting)
    case Outside =>
      if !s.windowed then s.(pc := Passing(s.pc.stops))
      else if s.open then s.(w := s.w.(held := false), pc := Passing(s.pc.stops))
      else s.(w := MarkedHeld(s.w), pc := Waiting)
    case Start(st, check) =>
      s.(w := Started(s.w, s.nextId, st, check), nextId := s.nextId + 1, pc := Running(s.pc.stops))
    case Finish => s.(w := Ended(s.w), pc := Passing(s.pc.stops))
    case Settle(st) => s.(w := Settled(s.w, s.pc.stops, st))
    case Return => s.(pc := Waiting)
  }

  /** A new worker, from a saved status a constructor leaves, about to make its first pass. */
  predicate Init(s: State) {
    && s.w == Shared(s.w.status, false, 0, 0, 0, 0, 0, false, false, None, false) && s.w.status != Stopped
    && s.pc == Awake && s.ending == {} && s.wakers == 0 && s.nextId == 0
  }

  ghost predicate Next(s: State, step: Step, t: State) {
    Enabled(s, step) && t == Apply(s, step)
  }

  ghost predicate Reachable(t: State) {
    Runs.Reachable(Init, Next, t)
  }

  predicate Dying(s: State) {
    s.w.current.Some? && s.w.current.value.id in s.ending
  }

  /** A program still current under an older stop count has had its termination requested. */
  predicate StopsWin(s: State) {
    s.w.current.Some? && s.w.current.value.stops != s.w.stops ==> Dying(s)
  }

  /** A current program nobody is ending is frozen exactly when the worker is paused. */
  predicate FrozenWhenPaused(s: State) {
    s.w.current.Some? && !Dying(s) ==> (s.w.current.value.frozen <==> s.w.paused)
  }

  /** A check does not outlast a wake that came after it began. */
  predicate ChecksYield(s: State) {
    s.w.current.Some? && s.w.current.value.check && s.w.wakes != s.w.current.value.wakes ==> Dying(s)
  }

  /** A change to local since the last pass began and the last stop is never forgotten. */
  predicate NoWakeLost(s: State) {
    s.w.wakes > s.w.passWakes && s.w.wakes > s.w.wakesAtStop ==> s.w.token || s.wakers > 0 || s.pc.Awake?
  }

  /** Without a window a stop lasts until a wake after it. */
  predicate StopLasts(s: State) {
    !s.windowed && s.w.stops > 0 && s.w.wakes == s.w.wakesAtStop ==> s.w.status == Stopped
  }

  predicate Inv(s: State) {
    && StopsWin(s) && FrozenWhenPaused(s) && ChecksYield(s) && NoWakeLost(s) && StopLasts(s)
    && s.w.passWakes <= s.w.wakes && s.w.wakesAtStop <= s.w.wakes
    && (s.w.current.Some? <==> s.pc.Running?)
    && (s.w.checking <==> s.w.current.Some? && s.w.current.value.check)
    && (s.w.current.Some? ==>
      var c := s.w.current.value; c.id < s.nextId && c.wakes == s.w.passWakes && c.stops == s.pc.stops)
    && (s.w.current.Some? && s.w.current.value.frozen ==> s.w.paused)
    && (forall id :: id in s.ending ==> id < s.nextId)
    && (s.w.status == Stopped ==> s.w.stops > 0 && (!s.pc.Waiting? && !s.pc.Awake? ==> s.pc.stops < s.w.stops))
    && (!s.pc.Waiting? && !s.pc.Awake? ==>
      s.pc.stops <= s.w.stops && (!s.windowed && s.pc.stops == s.w.stops > 0 ==> s.w.wakes > s.w.wakesAtStop))
  }

  /** The run loop's own steps. */
  predicate Loop(step: Step) {
    step.Dispatch? || step.Enter? || step.Outside? || step.Start? || step.Finish? || step.Settle?
  }

  lemma InvLoop(s: State, step: Step)
    requires Inv(s) && Enabled(s, step) && Loop(step)
    ensures Inv(Apply(s, step))
  {
  }

  lemma InvStops(s: State, step: Step)
    requires Inv(s) && Enabled(s, step) && (step == StopSection || step == HoldSection)
    ensures Inv(Apply(s, step))
  {
  }

  predicate OfPause(step: Step) {
    step == PauseSection || step == ResumeSection || step == Window
  }

  lemma InvPauses(s: State, step: Step)
    requires Inv(s) && Enabled(s, step) && OfPause(step)
    ensures Inv(Apply(s, step))
  {
  }

  lemma InvSignal(s: State, step: Step)
    requires Inv(s) && Enabled(s, step) && !Loop(step) && !OfPause(step) && step != StopSection && step != HoldSection
    ensures Inv(Apply(s, step))
  {
  }

  lemma InvStep(s: State, step: Step)
    requires Inv(s) && Enabled(s, step)
    ensures Inv(Apply(s, step))
  {
    hide Inv, Enabled, Apply;
    if Loop(step) {
      InvLoop(s, step);
    } else if OfPause(step) {
      InvPauses(s, step);
    } else if step == StopSection || step == HoldSection {
      InvStops(s, step);
    } else {
      InvSignal(s, step);
    }
  }

  lemma ReachableInv(t: State)
    requires Reachable(t)
    ensures Inv(t)
  {
    forall a: State | Init(a) ensures Inv(a) {}
    hide Inv, Init, Enabled, Apply;
    forall a: State, step: Step, b: State | Inv(a) && Next(a, step, b) ensures Inv(b) {
      InvStep(a, step);
    }
    Runs.Everywhere(Init, Next, Inv, t);
  }

  /** In every interleaving: stops win, pauses freeze, checks yield, no wake is lost, stops last. */
  lemma Safety(t: State)
    requires Reachable(t)
    ensures StopsWin(t) && FrozenWhenPaused(t) && ChecksYield(t) && NoWakeLost(t) && StopLasts(t)
  {
    ReachableInv(t);
  }

  /**
   What a program starts under: the newest stop, no pause, for a check no later wake, after a stop
   only a later wake.
   */
  lemma StartsClean(t: State, step: Step)
    requires Reachable(t) && step.Start? && Enabled(t, step)
    ensures t.w.current.None? && t.pc.stops == t.w.stops && !t.w.paused
    ensures step.check ==> t.w.wakes == t.w.passWakes
    ensures !t.windowed && t.w.stops > 0 ==> t.w.wakes > t.w.wakesAtStop
    ensures Apply(t, step).w.current == Some(Prog(t.nextId, t.w.stops, t.w.passWakes, step.check, false))
    ensures Apply(t, step).w.status == step.status && !Dying(Apply(t, step))
  {
    ReachableInv(t);
  }

  // ----- what each section brings about

  predicate Lifts(step: Step) {
    step == ResumeSection || step == StopSection
  }

  lemma PausedStep(s: State, step: Step)
    requires Inv(s) && s.w.paused && Enabled(s, step) && !Lifts(step)
    ensures Apply(s, step).w.paused && !step.Start?
  {
  }

  lemma {:induction false} PausedRun(s: State, steps: seq<Step>, t: State)
    requires Inv(s) && s.w.paused && Runs.Run(Next, s, steps, t)
    requires forall k :: 0 <= k < |steps| ==> !Lifts(steps[k])
    ensures Inv(t) && t.w.paused && forall k :: 0 <= k < |steps| ==> !steps[k].Start?
    decreases |steps|
  {
    hide Inv, Enabled, Apply;
    if steps != [] {
      var m := Runs.First(Next, s, steps, t);
      InvStep(s, steps[0]);
      PausedStep(s, steps[0]);
      PausedRun(m, steps[1..], t);
      assert steps == [steps[0]] + steps[1..];
    }
  }

  /**
   A pause, whatever the worker was at: until the next resume or stop nothing starts, and a program
   nobody is ending is frozen.
   */
  lemma PauseHolds(s: State, steps: seq<Step>, t: State)
    requires Reachable(s) && Runs.Run(Next, Apply(s, PauseSection), steps, t)
    requires forall k :: 0 <= k < |steps| ==> !Lifts(steps[k])
    ensures t.w.paused && (forall k :: 0 <= k < |steps| ==> !steps[k].Start?)
    ensures forall status, check :: !Enabled(t, Start(status, check))
    ensures t.w.current.Some? && !Dying(t) ==> t.w.current.value.frozen
  {
    ReachableInv(s);
    InvStep(s, PauseSection);
    PausedRun(Apply(s, PauseSection), steps, t);
  }

  /** After either the worker is not paused, and no program is left frozen. */
  lemma LiftedPause(s: State, step: Step)
    requires Reachable(s) && Lifts(step)
    ensures var t := Apply(s, step); !t.w.paused && (t.w.current.Some? ==> !t.w.current.value.frozen)
  {
    ReachableInv(s);
  }

  /** A pass whose stop count is not the current one starts nothing; only a dispatch gives a pass another. */
  predicate Outdated(s: State) {
    s.pc.Waiting? || s.pc.Awake? || s.pc.stops < s.w.stops
  }

  lemma OutdatedStep(s: State, step: Step)
    requires Outdated(s) && Enabled(s, step) && step != Dispatch
    ensures Outdated(Apply(s, step)) && !step.Start?
    ensures Apply(s, step).w.stops >= s.w.stops
  {
  }

  lemma {:induction false} OutdatedRun(s: State, steps: seq<Step>, t: State)
    requires Outdated(s) && Runs.Run(Next, s, steps, t) && Dispatch !in steps
    ensures forall k :: 0 <= k < |steps| ==> !steps[k].Start?
    decreases |steps|
  {
    hide Outdated, Enabled, Apply;
    if steps != [] {
      var m := Runs.First(Next, s, steps, t);
      OutdatedStep(s, steps[0]);
      OutdatedRun(m, steps[1..], t);
      assert steps == [steps[0]] + steps[1..];
    }
  }

  /**
   A stop, or the window closing on a worker not stopped, ends the program there is, and nothing
   starts before the loop is dispatched again.
   */
  lemma StopEnds(s: State, step: Step, steps: seq<Step>, t: State)
    requires Reachable(s) && (step == StopSection || (step == HoldSection && s.w.status != Stopped))
    requires Enabled(s, step) && Runs.Run(Next, Apply(s, step), steps, t) && Dispatch !in steps
    ensures Apply(s, step).w.current.Some? ==> Dying(Apply(s, step)) && !Apply(s, step).w.current.value.frozen
    ensures step == StopSection ==> Apply(s, step).w.status == Stopped && !Apply(s, step).w.token
    ensures step == HoldSection ==> Apply(s, step).w.held && Apply(s, step).w.paused == s.w.paused
    ensures step == HoldSection ==>
      Apply(s, step).w.status == if s.w.status in {Retrying, Down} then s.w.status else Held
    ensures forall k :: 0 <= k < |steps| ==> !steps[k].Start?
  {
    ReachableInv(s);
    InvStep(s, step);
    OutdatedRun(Apply(s, step), steps, t);
  }

  /** A wake that no pass has been dispatched for since, and no stop has dropped. */
  predicate Unheard(s: State, wakes: nat) {
    s.w.passWakes < wakes <= s.w.wakes && s.w.wakesAtStop < wakes
  }

  lemma UnheardStep(s: State, step: Step, wakes: nat)
    requires Inv(s) && Unheard(s, wakes) && Enabled(s, step) && step != StopSection
    ensures Unheard(Apply(s, step), wakes) || step == Dispatch
    ensures step == Dispatch ==> Dispatches(s.w) && Apply(s, step).w.passWakes >= wakes
  {
  }

  lemma {:induction false} UnheardRun(s: State, steps: seq<Step>, t: State, wakes: nat)
    requires Inv(s) && Unheard(s, wakes) && Runs.Run(Next, s, steps, t) && StopSection !in steps
    ensures Dispatch in steps || (Inv(t) && Unheard(t, wakes))
    decreases |steps|
  {
    hide Inv, Unheard, Enabled, Apply;
    if steps != [] {
      var m := Runs.First(Next, s, steps, t);
      InvStep(s, steps[0]);
      UnheardStep(s, steps[0], wakes);
      if steps[0] != Dispatch { UnheardRun(m, steps[1..], t, wakes); }
    }
  }

  /**
   A wake is one more, ends a running check, and unless a stop comes it stays on its way, in the
   channel, in a waker's hands or in the loop's, until the loop is dispatched, which then makes a pass.
   */
  lemma WakeIsHeard(s: State, steps: seq<Step>, t: State)
    requires Reachable(s) && Runs.Run(Next, Apply(s, WakeSection), steps, t)
    requires StopSection !in steps && Dispatch !in steps
    ensures t.w.token || t.wakers > 0 || t.pc.Awake?
    ensures Enabled(t, Dispatch) ==> Apply(t, Dispatch).pc.Given? && Apply(t, Dispatch).w.passWakes > s.w.wakes
    ensures var m := Apply(s, WakeSection); m.w.current.Some? && m.w.current.value.check ==> Dying(m)
  {
    ReachableInv(s);
    InvStep(s, WakeSection);
    UnheardRun(Apply(s, WakeSection), steps, t, s.w.wakes + 1);
    if Enabled(t, Dispatch) { UnheardStep(t, Dispatch, s.w.wakes + 1); }
  }

  /** In a pass no stop or closing window has met. */
  predicate Undisturbed(s: State, at: nat) {
    s.w.stops == at && (s.pc.Waiting? || (!s.pc.Awake? && s.pc.stops == at))
  }

  /** Neither stops, holds nor ends the pass. */
  predicate Minds(step: Step) {
    step != StopSection && step != HoldSection && !step.Receive? && !step.Timer?
  }

  lemma UndisturbedStep(s: State, step: Step, at: nat)
    requires Undisturbed(s, at) && Enabled(s, step) && Minds(step)
    ensures Undisturbed(Apply(s, step), at)
  {
  }

  lemma {:induction false} UndisturbedRun(s: State, steps: seq<Step>, t: State, at: nat)
    requires Undisturbed(s, at) && Runs.Run(Next, s, steps, t) && forall k :: 0 <= k < |steps| ==> Minds(steps[k])
    ensures Undisturbed(t, at)
    decreases |steps|
  {
    hide Undisturbed, Enabled, Apply;
    if steps != [] {
      var m := Runs.First(Next, s, steps, t);
      UndisturbedStep(s, steps[0], at);
      UndisturbedRun(m, steps[1..], t, at);
    }
  }

  /**
   A pass dispatched and met by no stop or closing window may start what it likes unless paused, but
   for a check a wake forestalls, and what it reports is written.
   */
  lemma PassCounts(s: State, steps: seq<Step>, t: State, status: Status)
    requires Reachable(s) && Enabled(s, Dispatch) && Dispatches(s.w)
    requires Runs.Run(Next, Apply(s, Dispatch), steps, t) && forall k :: 0 <= k < |steps| ==> Minds(steps[k])
    requires t.pc.Passing?
    ensures t.pc.stops == t.w.stops
    ensures status in {Idle, Retrying, Down} ==> Apply(t, Settle(status)).w.status == status
    ensures status in {Copying, Mirroring, Pruning, Checking} ==> forall check ::
      Enabled(t, Start(status, check)) <==> !t.w.paused && (check ==> t.w.wakes == t.w.passWakes)
  {
    assert Undisturbed(Apply(s, Dispatch), s.w.stops);
    UndisturbedRun(Apply(s, Dispatch), steps, t, s.w.stops);
    hide Apply, Enabled, Dispatches;
    CurrentPass(t, status);
  }

  lemma CurrentPass(t: State, status: Status)
    requires t.pc.Passing? && t.pc.stops == t.w.stops
    ensures status in {Idle, Retrying, Down} ==> Apply(t, Settle(status)).w.status == status
    ensures status in {Copying, Mirroring, Pruning, Checking} ==> forall check ::
      Enabled(t, Start(status, check)) <==> !t.w.paused && (check ==> t.w.wakes == t.w.passWakes)
  {
  }

  predicate Quiet(steps: seq<Step>) {
    forall k :: 0 <= k < |steps| ==> steps[k] != WakeSection
  }

  /** Stopped, without a window, with no wake since. */
  predicate Resting(s: State) {
    Inv(s) && !s.windowed && s.w.status == Stopped && s.w.wakes == s.w.wakesAtStop
  }

  lemma RestStep(s: State, step: Step)
    requires Resting(s) && Enabled(s, step) && step != WakeSection
    ensures Resting(Apply(s, step)) && !step.Start?
  {
    InvStep(s, step);
  }

  /** Without a window nothing is dispatched or started after a stop until the next wake, however long the run. */
  lemma {:induction false} StopHolds(s: State, steps: seq<Step>, t: State)
    requires Resting(s) && Runs.Run(Next, s, steps, t) && Quiet(steps)
    ensures t.w.status == Stopped
    ensures forall k :: 0 <= k < |steps| ==> !steps[k].Start?
    decreases |steps|
  {
    if steps != [] {
      var m := Runs.First(Next, s, steps, t);
      RestStep(s, steps[0]);
      StopHolds(m, steps[1..], t);
      assert steps == [steps[0]] + steps[1..];
    }
  }

  /** Stopped, with no wake since, and not between pass's check of its stops and outsideWindow. */
  predicate AtRest(s: State) {
    Inv(s) && s.w.status == Stopped && s.w.wakes == s.w.wakesAtStop && !s.pc.Entered?
  }

  lemma StopSeen(s: State, step: Step)
    requires AtRest(s) && Enabled(s, step) && step != WakeSection
    ensures AtRest(Apply(s, step)) && !step.Start?
  {
    InvStep(s, step);
  }

  /** Window or not, a stop that does not come just there lasts, and nothing starts, until the next wake. */
  lemma {:induction false} StopHoldsElsewhere(s: State, steps: seq<Step>, t: State)
    requires AtRest(s) && Runs.Run(Next, s, steps, t) && Quiet(steps)
    ensures t.w.status == Stopped
    ensures forall k :: 0 <= k < |steps| ==> !steps[k].Start?
    decreases |steps|
  {
    hide Enabled, Apply, Inv;
    if steps != [] {
      var m := Runs.First(Next, s, steps, t);
      StopSeen(s, steps[0]);
      StopHoldsElsewhere(m, steps[1..], t);
      assert steps == [steps[0]] + steps[1..];
    }
  }

  /** At one of these steps outsideWindow finds the window open, or none configured. */
  ghost predicate LetIn(s: State, steps: seq<Step>)
    decreases |steps|
  {
    steps != [] && Enabled(s, steps[0]) &&
    ((steps[0] == Outside && (!s.windowed || s.open)) || LetIn(Apply(s, steps[0]), steps[1..]))
  }

  predicate InPass(s: State) {
    s.pc.Passing? || s.pc.Running?
  }

  /** A pass gets as far as starting anything only past an open window, and an open one always lets it. */
  lemma {:induction false} OnlyInWindow(s: State, steps: seq<Step>, t: State)
    requires !InPass(s) && Runs.Run(Next, s, steps, t)
    ensures InPass(t) ==> LetIn(s, steps)
    ensures Enabled(s, Outside) ==> (InPass(Apply(s, Outside)) <==> !s.windowed || s.open)
    decreases |steps|
  {
    if steps != [] {
      var m := Runs.First(Next, s, steps, t);
      if !InPass(m) { OnlyInWindow(m, steps[1..], t); }
    }
  }

  /** With a window, outsideWindow's mark forgets a stop that no wake has ended; no other step does. */
  lemma StopForgottenExactly(t: State, step: Step)
    requires Reachable(t) && Enabled(t, step) && t.w.status == Stopped
    requires step == Dispatch ==> t.w.wakes == t.w.wakesAtStop
    ensures Apply(t, step).w.status != Stopped <==> step.Outside? && t.windowed && !t.open
  {
    ReachableInv(t);
  }

  lemma Reaches(s: State, step: Step, t: State)
    requires Reachable(s) && Next(s, step, t)
    ensures Reachable(t)
  {
    Runs.Further(Init, Next, s, step, t);
  }

  /** A stop between pass's check and outsideWindow, with the window closed: the worker is no longer stopped. */
  lemma StopForgottenWitness() returns (t: State)
    ensures Reachable(t) && t.w.stops > 0 && t.w.wakes == t.w.wakesAtStop && t.w.status == Held && Dispatches(t.w)
  {
    var s := State(Shared(Idle, false, 0, 0, 0, 0, 0, false, false, None, false), Awake, {}, 0, 0, true, false);
    var s1 := Apply(s, Dispatch);
    var s2 := Apply(s1, Enter);
    var s3 := Apply(s2, StopSection);
    t := Apply(s3, Outside);
    assert Init(s) && Next(s, Dispatch, s1) && Next(s1, Enter, s2) && Next(s2, StopSection, s3) && Next(s3, Outside, t);
    assert t.w.stops > 0 && t.w.wakes == t.w.wakesAtStop && t.w.status == Held && Dispatches(t.w);
    assert Reachable(s) by { Runs.Starts(Init, Next, s); }
    hide *;
    Reaches(s, Dispatch, s1);
    Reaches(s1, Enter, s2);
    Reaches(s2, StopSection, s3);
    Reaches(s3, Outside, t);
  }
}
