/**
 Pausing a run: its lock file records what happened to it, one edit of the file at a time, and
 a pause or resume signals the run's programs before it lets the next edit in. The class has
 the edits as the code runs them; the step system takes them apart, with runs that end and
 begin, programs that exit and editors that die anywhere in between.
 */
module Pause {
  import Runs

  datatype Mark = Running | Paused | Cleanup | Completed | Stopped | Failed

  datatype Event = Event(at: int, mark: Mark)

  predicate LastIs(events: seq<Event>, m: Mark) {
    events != [] && events[|events| - 1].mark == m
  }

  predicate IsPaused(events: seq<Event>) {
    LastIs(events, Paused)
  }

  // ----- the edits

  /** A run's lock file and the programs the run has started, each frozen or not. */
  class LockFile {
    var header: string
    var events: seq<Event>
    var programs: map<nat, bool>

    constructor (text: string, at: int)
      ensures header == text && events == [Event(at, Running)] && programs == map[]
    {
      header, events, programs := text, [Event(at, Running)], map[];
    }

    /** A copy of the events goes into the new file. */
    method SetStage(text: string)
      modifies `header, `events
      ensures header == text && events == old(events)
    {
      var rest := events;
      header, events := text, rest;
    }

    method Append(mark: Mark, at: int)
      modifies `events
      ensures events == old(events) + [Event(at, mark)]
    {
      events := events + [Event(at, mark)];
    }

    /** The signal reaches every program the run has started. */
    method Signal(frozen: bool)
      modifies `programs
      ensures programs.Keys == old(programs.Keys)
      ensures forall p :: p in programs ==> programs[p] == frozen
    {
      var todo := programs.Keys;
      while todo != {}
        invariant programs.Keys == old(programs.Keys) && todo <= programs.Keys
        invariant forall p :: p in programs && p !in todo ==> programs[p] == frozen
      {
        var p :| p in todo;
        programs := programs[p := frozen];
        todo := todo - {p};
      }
    }

    method Pause(at: int) returns (paused: bool)
      modifies `events, `programs
      ensures paused <==> !LastIs(old(events), Paused) && !LastIs(old(events), Cleanup)
      ensures programs.Keys == old(programs.Keys)
      ensures paused ==> events == old(events) + [Event(at, Paused)] && forall p :: p in programs ==> programs[p]
      ensures !paused ==> events == old(events) && programs == old(programs)
    {
      if IsPaused(events) {
        return false;
      }
      if |events| > 0 && events[|events| - 1].mark == Cleanup {
        return false;
      }
      Append(Paused, at);
      Signal(true);
      paused := true;
    }

    method Resume(at: int) returns (resumed: bool)
      modifies `events, `programs
      ensures resumed <==> LastIs(old(events), Paused)
      ensures programs.Keys == old(programs.Keys)
      ensures resumed ==> events == old(events) + [Event(at, Running)] && forall p :: p in programs ==> !programs[p]
      ensures !resumed ==> events == old(events) && programs == old(programs)
    {
      if !IsPaused(events) {
        return false;
      }
      Signal(false);
      Append(Running, at);
      resumed := true;
    }

    method Unpaused(id: nat) returns (started: bool)
      requires id !in programs
      modifies `programs
      ensures started <==> !IsPaused(events)
      ensures programs == if started then old(programs)[id := false] else old(programs)
    {
      if IsPaused(events) {
        return false;
      }
      programs := programs[id := false];
      started := true;
    }
  }

  // ----- the edits taken apart

  /** Who holds the edit lock, and how far it is. */
  datatype Edit =
    | NoEdit
    | Staging(text: string, rest: seq<Event>)  // the owner has read the events to copy
    | Starting                                 // the owner has seen no pause
    | Pausing(seen: nat)                       // a pauser has read the file of run seen
    | Freezing(seen: nat, todo: set<nat>)
    | Resuming(seen: nat)
    | Thawing(seen: nat, todo: set<nat>)

  datatype State = State(
    run: nat, held: bool, header: string, events: seq<Event>, programs: map<nat, bool>, edit: Edit)

  datatype Step =
    | Acquire(text: string, at: int)
    | Release
    | StageRead(text: string)
    | StageWrite
    | Record(at: int, mark: Mark)
    | PauseRead
    | PauseWrite(at: int)
    | PauseFails
    | FreezeOne(id: nat)
    | PauseEnd
    | ResumeRead
    | ResumeSignal
    | ThawOne(id: nat)
    | ResumeWrite(at: int)
    | ResumeFails
    | StartRead
    | Start(id: nat)
    | Exit(id: nat)
    | EditorDies

  function Appended(s: State, at: int, m: Mark): State {
    s.(events := s.events + [Event(at, m)])
  }

  /** The programs a signal to run seen can reach. */
  function Reach(s: State, seen: nat): set<nat> {
    if seen == s.run then s.programs.Keys else {}
  }

  ghost predicate Next(s: State, step: Step, t: State) {
    match step
    case Acquire(text, at) =>
      !s.held && t == s.(run := s.run + 1, held := true, header := text, events := [Event(at, Running)])
    case Release =>
      && s.held && s.programs == map[] && !s.edit.Staging? && !s.edit.Starting? && !LastIs(s.events, Cleanup)
      && t == s.(held := false, events := [])
    case StageRead(text) => s.held && s.edit == NoEdit && t == s.(edit := Staging(text, s.events))
    case StageWrite => s.edit.Staging? && t == s.(header := s.edit.text, events := s.edit.rest, edit := NoEdit)
    case Record(at, m) =>
      && s.held && s.edit == NoEdit && m != Paused
      && (m == Running <==> LastIs(s.events, Cleanup))       // a cleanup is followed by its end
      && (m == Cleanup || m == Running || s.programs == map[])  // a run ends after its programs
      && t == Appended(s, at, m)
    case PauseRead =>
      && s.held && s.edit == NoEdit && !IsPaused(s.events) && !LastIs(s.events, Cleanup)
      && t == s.(edit := Pausing(s.run))
    case PauseWrite(at) =>
      && s.edit.Pausing? && s.held
      && t == Appended(s, at, Paused).(edit := Freezing(s.edit.seen, Reach(s, s.edit.seen)))
    case PauseFails => s.edit.Pausing? && !s.held && t == s.(edit := NoEdit)
    case FreezeOne(id) =>
      && s.edit.Freezing? && id in s.edit.todo
      && t == s.(edit := Freezing(s.edit.seen, s.edit.todo - {id}),
                 programs := if id in s.programs && s.edit.seen == s.run then s.programs[id := true] else s.programs)
    case PauseEnd => s.edit.Freezing? && s.edit.todo == {} && t == s.(edit := NoEdit)
    case ResumeRead => s.held && s.edit == NoEdit && IsPaused(s.events) && t == s.(edit := Resuming(s.run))
    case ResumeSignal => s.edit.Resuming? && t == s.(edit := Thawing(s.edit.seen, Reach(s, s.edit.seen)))
    case ThawOne(id) =>
      && s.edit.Thawing? && id in s.edit.todo
      && t == s.(edit := Thawing(s.edit.seen, s.edit.todo - {id}),
                 programs := if id in s.programs && s.edit.seen == s.run then s.programs[id := false] else s.programs)
    case ResumeWrite(at) =>
      && s.edit.Thawing? && s.edit.todo == {} && s.held && t == Appended(s, at, Running).(edit := NoEdit)
    case ResumeFails => s.edit.Thawing? && s.edit.todo == {} && !s.held && t == s.(edit := NoEdit)
    case StartRead => s.held && s.edit == NoEdit && !IsPaused(s.events) && t == s.(edit := Starting)
    case Start(id) =>
      && s.edit == Starting && id !in s.programs && t == s.(programs := s.programs[id := false], edit := NoEdit)
    case Exit(id) =>
      && id in s.programs && t == s.(programs := s.programs - {id})
    case EditorDies => s.edit != NoEdit && !s.edit.Staging? && !s.edit.Starting? && t == s.(edit := NoEdit)
  }

  ghost predicate Init(s: State) {
    !s.held && s.events == [] && s.programs == map[] && s.edit == NoEdit
  }

  ghost predicate Trace(s: State, steps: seq<Step>, t: State) {
    Runs.Run(Next, s, steps, t)
  }

  ghost predicate Reachable(s: State) {
    Runs.Reachable(Init, Next, s)
  }

  // ----- the invariant

  /** The file says paused exactly when the running programs are frozen. */
  ghost predicate InStep(s: State) {
    forall p :: p in s.programs ==> s.programs[p] == IsPaused(s.events)
  }

  ghost predicate CleanupsEnd(events: seq<Event>) {
    forall i :: 0 <= i < |events| - 1 && events[i].mark == Cleanup ==> events[i + 1].mark == Running
  }

  /** A signal is for the run whose file was read; a later one has no program yet. */
  ghost predicate Aimed(s: State, seen: nat) {
    (s.held && seen == s.run) || s.programs == map[]
  }

  ghost predicate EditInv(s: State) {
    match s.edit
    case NoEdit => true
    case Staging(_, rest) => s.held && rest == s.events
    case Starting => s.held && !IsPaused(s.events)
    case Pausing(seen) => Aimed(s, seen) && (s.held ==> !IsPaused(s.events) && !LastIs(s.events, Cleanup))
    case Freezing(seen, _) => Aimed(s, seen) && (s.programs != map[] ==> IsPaused(s.events))
    case Resuming(seen) => Aimed(s, seen) && (s.programs != map[] ==> IsPaused(s.events))
    case Thawing(seen, _) => Aimed(s, seen) && (s.programs != map[] ==> IsPaused(s.events))
  }

  ghost predicate Inv(s: State) {
    && (s.held <==> s.events != [])
    && (!s.held ==> s.programs == map[])
    && CleanupsEnd(s.events)
    && EditInv(s)
  }

  predicate OfSignal(step: Step) {
    step.PauseWrite? || step.FreezeOne? || step.PauseEnd? || step.ResumeSignal? || step.ThawOne? || step.EditorDies?
  }

  lemma SignalKeeps(s: State, step: Step, t: State)
    requires Inv(s) && Next(s, step, t) && OfSignal(step)
    ensures Inv(t)
  {
  }

  lemma OtherKeeps(s: State, step: Step, t: State)
    requires Inv(s) && Next(s, step, t) && !OfSignal(step)
    ensures Inv(t)
  {
  }

  lemma InvStep(s: State, step: Step, t: State)
    requires Inv(s) && Next(s, step, t)
    ensures Inv(t)
  {
    hide Inv, Next;
    if OfSignal(step) { SignalKeeps(s, step, t); } else { OtherKeeps(s, step, t); }
  }

  lemma ReachableInv(s: State)
    requires Reachable(s)
    ensures Inv(s)
  {
    forall a: State | Init(a) ensures Inv(a) {}
    forall a: State, step: Step, b: State | Inv(a) && Next(a, step, b) ensures Inv(b) {
      InvStep(a, step, b);
    }
    hide Inv, Next, Init;
    Runs.Everywhere(Init, Next, Inv, s);
  }

  // ----- what it is for

  /** In step, but for the programs a signal under way has still to reach. */
  ghost predicate Tuned(s: State) {
    match s.edit
    case Freezing(_, todo) => forall p :: p in s.programs && !s.programs[p] ==> p in todo
    case Thawing(_, todo) => forall p :: p in s.programs && s.programs[p] ==> p in todo
    case _ => InStep(s)
  }

  /** A cleanup recorded over a pause while programs run, or an editor dying with a program still to signal. */
  ghost predicate Parts(s: State, step: Step) {
    || (step.Record? && step.mark == Cleanup && IsPaused(s.events) && s.programs != map[])
    || (step.EditorDies? && exists p :: p in s.programs && s.programs[p] != IsPaused(s.events))
  }

  lemma TunedStep(s: State, step: Step, t: State)
    requires Inv(s) && Tuned(s) && Next(s, step, t)
    ensures Tuned(t) <==> !Parts(s, step)
  {
    if step.Record? && Parts(s, step) {
      var p :| p in s.programs;
      assert t.programs[p] != IsPaused(t.events);
    }
  }

  /** Those two steps, and no other of any pause, resume, start, stage or run, part file and programs. */
  lemma PartedExactly(s: State, step: Step, t: State)
    requires Reachable(s) && Tuned(s) && Next(s, step, t)
    ensures Tuned(t) <==> !Parts(s, step)
    ensures t.edit == NoEdit ==> (InStep(t) <==> !Parts(s, step))
  {
    ReachableInv(s);
    TunedStep(s, step, t);
  }

  /** A step that parts nothing. */
  ghost predicate Calm(s: State, step: Step, t: State) {
    Next(s, step, t) && !Parts(s, step)
  }

  ghost predicate InvTuned(s: State) {
    Inv(s) && Tuned(s)
  }

  /**
   Between edits the last event is a pause exactly when the running programs are frozen, over every
   run without them.
   */
  lemma PausedExactlyWhenFrozen(s: State)
    requires Runs.Reachable(Init, Calm, s)
    ensures Tuned(s)
    ensures s.edit == NoEdit ==> forall p :: p in s.programs ==> (s.programs[p] <==> IsPaused(s.events))
  {
    forall a: State | Init(a) ensures InvTuned(a) {}
    forall a: State, step: Step, b: State | InvTuned(a) && Calm(a, step, b) ensures InvTuned(b) {
      InvStep(a, step, b);
      TunedStep(a, step, b);
    }
    Runs.Everywhere(Init, Calm, InvTuned, s);
  }

  /** Parted or not, the next pause or resume signals every program: it puts them in step again. */
  lemma SignalsMend(s: State, step: Step, t: State)
    requires Reachable(s) && Next(s, step, t) && (step.PauseWrite? || step.ResumeSignal?)
    ensures Tuned(t)
  {
    ReachableInv(s);
  }

  lemma NothingStartsPaused(s: State, id: nat, t: State)
    requires Reachable(s) && Next(s, Start(id), t)
    ensures !IsPaused(s.events) && !IsPaused(t.events)
  {
    ReachableInv(s);
  }

  /**
   No freeze lands between a cleanup and the running that ends it: one that lands finds a
   pause recorded last, and the event after a cleanup is never a pause.
   */
  lemma CleanupIsNeverFrozen(s: State, step: Step, t: State, p: nat, i: nat)
    requires Reachable(s) && Next(s, step, t)
    ensures p in s.programs && p in t.programs && !s.programs[p] && t.programs[p] ==> IsPaused(s.events)
    ensures i + 1 < |t.events| && t.events[i].mark == Cleanup ==> t.events[i + 1].mark == Running
  {
    ReachableInv(s);
    InvStep(s, step, t);
  }

  lemma EventsKeptOnce(s: State, step: Step, t: State)
    requires Inv(s) && Next(s, step, t) && !step.Acquire? && !step.Release?
    ensures s.events <= t.events
  {
  }

  /** No edit drops another's event, a stage set between another's read and write included. */
  lemma {:induction false} EventsKept(s: State, steps: seq<Step>, t: State)
    requires Inv(s) && Trace(s, steps, t)
    requires forall k :: 0 <= k < |steps| ==> !steps[k].Acquire? && !steps[k].Release?
    ensures s.events <= t.events
    decreases |steps|
  {
    hide Inv, Next;
    if steps != [] {
      var m := Runs.First(Next, s, steps, t);
      InvStep(s, steps[0], m);
      EventsKeptOnce(s, steps[0], m);
      EventsKept(m, steps[1..], t);
    }
  }

  lemma {:induction false} SignalsLand(s: State) returns (steps: seq<Step>, t: State)
    requires s.edit.Freezing? && s.edit.seen == s.run && s.edit.todo <= s.programs.Keys
    ensures Trace(s, steps, t) && t.edit == NoEdit && t.events == s.events && t.programs.Keys == s.programs.Keys
    ensures forall p :: p in s.programs ==> t.programs[p] == if p in s.edit.todo then true else s.programs[p]
    decreases s.edit.todo
  {
    if s.edit.todo == {} {
      t := s.(edit := NoEdit);
      assert Trace(t, [], t);
      Runs.Prepend(Next, s, PauseEnd, t, [], t);
      steps := [PauseEnd] + [];
    } else {
      var id :| id in s.edit.todo;
      var m := s.(edit := Freezing(s.run, s.edit.todo - {id}), programs := s.programs[id := true]);
      var rest;
      rest, t := SignalsLand(m);
      Runs.Prepend(Next, s, FreezeOne(id), m, rest, t);
      steps := [FreezeOne(id)] + rest;
    }
  }

  /** Left alone, a pause's steps come to what the whole edit does: every program frozen. */
  lemma PauseLands(s: State, at: int) returns (steps: seq<Step>, t: State)
    requires s.held && s.edit == NoEdit && !IsPaused(s.events) && !LastIs(s.events, Cleanup)
    ensures Trace(s, steps, t) && t.edit == NoEdit && t.events == s.events + [Event(at, Paused)]
    ensures t.programs.Keys == s.programs.Keys && forall p :: p in t.programs ==> t.programs[p]
  {
    var a := s.(edit := Pausing(s.run));
    var b := Appended(a, at, Paused).(edit := Freezing(s.run, s.programs.Keys));
    var rest;
    rest, t := SignalsLand(b);
    Runs.Prepend(Next, a, PauseWrite(at), b, rest, t);
    Runs.Prepend(Next, s, PauseRead, a, [PauseWrite(at)] + rest, t);
    steps := [PauseRead] + ([PauseWrite(at)] + rest);
  }

  lemma {:induction false} ThawsLand(s: State) returns (steps: seq<Step>, t: State)
    requires s.edit.Thawing? && s.edit.seen == s.run && s.edit.todo <= s.programs.Keys
    ensures Trace(s, steps, t) && t.programs.Keys == s.programs.Keys
    ensures t == s.(edit := Thawing(s.run, {}), programs := t.programs)
    ensures forall p :: p in s.programs ==> t.programs[p] == if p in s.edit.todo then false else s.programs[p]
    decreases s.edit.todo
  {
    if s.edit.todo == {} {
      t, steps := s, [];
      assert Trace(s, [], s);
    } else {
      var id :| id in s.edit.todo;
      var m := s.(edit := Thawing(s.run, s.edit.todo - {id}), programs := s.programs[id := false]);
      var rest;
      rest, t := ThawsLand(m);
      Runs.Prepend(Next, s, ThawOne(id), m, rest, t);
      steps := [ThawOne(id)] + rest;
    }
  }

  /** And a resume's: every program thawed, and then the event that says so. */
  lemma ResumeLands(s: State, at: int) returns (steps: seq<Step>, t: State)
    requires s.held && s.edit == NoEdit && IsPaused(s.events)
    ensures Trace(s, steps, t) && t.edit == NoEdit && t.events == s.events + [Event(at, Running)]
    ensures t.programs.Keys == s.programs.Keys && forall p :: p in t.programs ==> !t.programs[p]
  {
    var a := s.(edit := Resuming(s.run));
    var b := s.(edit := Thawing(s.run, s.programs.Keys));
    var thaws, c := ThawsLand(b);
    t := Appended(c, at, Running).(edit := NoEdit);
    Runs.Append(Next, b, thaws, c, ResumeWrite(at), t);
    Runs.Prepend(Next, a, ResumeSignal, b, thaws + [ResumeWrite(at)], t);
    Runs.Prepend(Next, s, ResumeRead, a, [ResumeSignal] + (thaws + [ResumeWrite(at)]), t);
    steps := [ResumeRead] + ([ResumeSignal] + (thaws + [ResumeWrite(at)]));
  }

  /** A new stage keeps the events, and a program starts exactly in a run that is not paused. */
  lemma StageAndStartLand(s: State, text: string, id: nat)
    requires s.held && s.edit == NoEdit && id !in s.programs
    ensures Trace(s, [StageRead(text), StageWrite], s.(header := text))
    ensures !IsPaused(s.events) <==> exists t :: Trace(s, [StartRead, Start(id)], t)
    ensures forall t :: Trace(s, [StartRead, Start(id)], t) ==> t == s.(programs := s.programs[id := false])
  {
    TwoSteps(s, StageRead(text), s.(edit := Staging(text, s.events)), StageWrite, s.(header := text));
    var after := s.(programs := s.programs[id := false]);
    if !IsPaused(s.events) { TwoSteps(s, StartRead, s.(edit := Starting), Start(id), after); }
    forall t | Trace(s, [StartRead, Start(id)], t) ensures !IsPaused(s.events) && t == after {
      var m := Runs.First(Next, s, [StartRead, Start(id)], t);
      var n := Runs.First(Next, m, [StartRead, Start(id)][1..], t);
    }
  }

  lemma TwoSteps(s: State, a: Step, m: State, b: Step, t: State)
    requires Next(s, a, m) && Next(m, b, t)
    ensures Trace(s, [a, b], t)
  {
    assert Trace(t, [], t);
    hide Next;
    Runs.Prepend(Next, m, b, t, [], t);
    Runs.Prepend(Next, s, a, m, [b] + [], t);
    assert [a] + ([b] + []) == [a, b];
  }

  /** The edit that has read the file neither writes nor gives up nor dies in these steps. */
  predicate InFlight(steps: seq<Step>) {
    forall k :: 0 <= k < |steps| ==> !steps[k].PauseWrite? && !steps[k].PauseFails? && !steps[k].EditorDies?
  }

  ghost predicate TakenAnew(steps: seq<Step>) {
    exists k :: 0 <= k < |steps| && steps[k].Acquire?
  }

  /** A pause is recorded against another run than it read exactly when a run takes the lock anew meanwhile. */
  lemma {:induction false} PauseCrossesExactly(s: State, steps: seq<Step>, t: State, seen: nat)
    requires s.edit == Pausing(seen) && Trace(s, steps, t) && InFlight(steps)
    ensures t.edit == Pausing(seen) && t.run >= s.run
    ensures t.run != s.run <==> TakenAnew(steps)
    ensures s.held && TakenAnew(steps) ==> exists k :: 0 <= k < |steps| && steps[k] == Release
    decreases |steps|
  {
    if steps != [] {
      var m := Runs.First(Next, s, steps, t);
      PauseCrossesExactly(m, steps[1..], t, seen);
      assert steps == [steps[0]] + steps[1..];
      if TakenAnew(steps[1..]) {
        var k :| 0 <= k < |steps[1..]| && steps[1..][k].Acquire?;
        assert steps[k + 1].Acquire?;
      }
      if TakenAnew(steps) && !steps[0].Acquire? {
        var k :| 0 <= k < |steps| && steps[k].Acquire?;
        assert steps[1..][k - 1].Acquire?;
      }
      if k :| 0 <= k < |steps[1..]| && steps[1..][k] == Release { assert steps[k + 1] == Release; }
    }
  }

  /** Paused, with no program to freeze and none on its way. */
  ghost predicate Stalled(s: State) {
    s.held && IsPaused(s.events) && s.programs == map[] && !s.edit.Starting?
  }

  /** A resume's end, another event of the run, or the run's end. */
  predicate Lifts(step: Step) {
    step.ResumeWrite? || step.Record? || step.Release?
  }

  lemma LiftedExactly(s: State, step: Step, t: State)
    requires Inv(s) && Stalled(s) && Next(s, step, t)
    ensures Stalled(t) <==> !Lifts(step)
    ensures !step.StartRead? && !step.Start?
  {
  }

  /**
   A pause recorded against another run than it read freezes nothing, but that run starts no program
   until someone resumes it, records another event or ends it: its file stays paused all the while.
   */
  lemma CrossedPauseStalls(s: State, at: int, t: State, steps: seq<Step>, u: State)
    requires Reachable(s) && s.edit.Pausing? && s.edit.seen != s.run && Next(s, PauseWrite(at), t)
    requires Trace(t, steps, u) && forall k :: 0 <= k < |steps| ==> !Lifts(steps[k])
    ensures t.programs == map[] && t.edit == Freezing(s.edit.seen, {})
    ensures IsPaused(u.events) && u.programs == map[] && u.run == s.run
    ensures forall k :: 0 <= k < |steps| ==> !steps[k].StartRead? && !steps[k].Start?
  {
    ReachableInv(s);
    InvStep(s, PauseWrite(at), t);
    StaysStalled(t, steps, u);
  }

  lemma {:induction false} StaysStalled(s: State, steps: seq<Step>, t: State)
    requires Inv(s) && Stalled(s) && Trace(s, steps, t) && forall k :: 0 <= k < |steps| ==> !Lifts(steps[k])
    ensures Stalled(t) && t.run == s.run
    ensures forall k :: 0 <= k < |steps| ==> !steps[k].StartRead? && !steps[k].Start?
    decreases |steps|
  {
    if steps != [] {
      var m := Runs.First(Next, s, steps, t);
      InvStep(s, steps[0], m);
      LiftedExactly(s, steps[0], m);
      SameRun(s, steps[0], m);
      hide Inv, Next, Stalled;
      StaysStalled(m, steps[1..], t);
      assert steps == [steps[0]] + steps[1..];
    }
  }

  lemma SameRun(s: State, step: Step, t: State)
    requires Next(s, step, t)
    ensures t.run == s.run <==> !step.Acquire?
    ensures step.Acquire? ==> !s.held
  {
  }

  // ----- that these things happen

  lemma Reaches(s: State, step: Step, t: State)
    requires Reachable(s) && Next(s, step, t)
    ensures Reachable(t)
  {
    Runs.Further(Init, Next, s, step, t);
  }

  const BEGUN := State(1, true, "", [Event(0, Running)], map[], NoEdit)
  const WORKING := BEGUN.(programs := map[0 := false])
  const PAUSED := WORKING.(events := [Event(0, Running), Event(0, Paused)], programs := map[0 := true])

  lemma WorkingReached()
    ensures Reachable(BEGUN) && Reachable(WORKING)
  {
    var s := State(0, false, "", [], map[], NoEdit);
    assert Reachable(s) by { Runs.Starts(Init, Next, s); }
    hide Reachable;
    Reaches(s, Acquire("", 0), BEGUN);
    var starting := BEGUN.(edit := Starting);
    Reaches(BEGUN, StartRead, starting);
    assert starting.programs[0 := false] == WORKING.programs;
    Reaches(starting, Start(0), WORKING);
  }

  /** A pause of the working run, to the first of its signals. */
  lemma FreezingReached() returns (s: State)
    ensures Reachable(s) && s == PAUSED.(programs := map[0 := false], edit := Freezing(1, {0})) && Tuned(s)
  {
    WorkingReached();
    hide Reachable;
    var reading := WORKING.(edit := Pausing(1));
    Reaches(WORKING, PauseRead, reading);
    s := PAUSED.(programs := map[0 := false], edit := Freezing(1, {0}));
    assert reading.events + [Event(0, Paused)] == s.events && Reach(reading, 1) == {0};
    Reaches(reading, PauseWrite(0), s);
  }

  /** A pauser that dies before its signal: the file says paused and the program runs. */
  lemma DeathWitness() returns (s: State, t: State)
    ensures Reachable(s) && Tuned(s) && Next(s, EditorDies, t)
    ensures IsPaused(t.events) && t.programs == map[0 := false] && !InStep(t)
  {
    s := FreezingReached();
    t := s.(edit := NoEdit);
    assert 0 in t.programs && !t.programs[0];
  }

  /** A cleanup recorded over a pause: the file no longer says paused and the program is frozen. */
  lemma CleanupWitness() returns (s: State, t: State)
    ensures Reachable(s) && InStep(s) && s.edit == NoEdit && Next(s, Record(0, Cleanup), t)
    ensures !IsPaused(t.events) && t.programs == map[0 := true] && !InStep(t)
  {
    var f := FreezingReached();
    hide Reachable;
    var frozen := PAUSED.(edit := Freezing(1, {}));
    assert f.programs[0 := true] == frozen.programs && {0} - {0} == {};
    Reaches(f, FreezeOne(0), frozen);
    Reaches(frozen, PauseEnd, PAUSED);
    s := PAUSED;
    t := Appended(s, 0, Cleanup);
    assert t.programs[0];
  }

  /** A pause in flight over the end of its run is recorded against the next one. */
  lemma PauseCrossesWitness() returns (s: State, t: State)
    ensures Reachable(s) && s.edit == Pausing(s.run) && Trace(s, [Release, Acquire("", 0), PauseWrite(0)], t)
    ensures t.run == s.run + 1 && IsPaused(t.events)
  {
    WorkingReached();
    s := BEGUN.(edit := Pausing(1));
    Reaches(BEGUN, PauseRead, s);
    var a := s.(held := false, events := []);
    var b := a.(run := 2, held := true, events := [Event(0, Running)]);
    t := Appended(b, 0, Paused).(edit := Freezing(1, {}));
    assert Trace(t, [], t);
    Runs.Prepend(Next, b, PauseWrite(0), t, [], t);
    Runs.Prepend(Next, a, Acquire("", 0), b, [PauseWrite(0)] + [], t);
    Runs.Prepend(Next, s, Release, a, [Acquire("", 0)] + ([PauseWrite(0)] + []), t);
    assert [Release] + ([Acquire("", 0)] + ([PauseWrite(0)] + [])) == [Release, Acquire("", 0), PauseWrite(0)];
  }
}
