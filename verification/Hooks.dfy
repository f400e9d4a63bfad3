/**
 What survives a backup that dies between a service's hooks: the run's record on the logs
 volume, the class that keeps it, and the step system of a backup that may be stopped, crash
 or fail to write the record at any moment.
 */
module Hooks {
  import opened Options
  import Runs

  type Dir = string

  datatype Stage = Pending | Hooked | Done

  type Record = map<Dir, Stage>

  predicate Unfinished(r: Record, d: Dir) {
    d in r && r[d] != Done
  }

  // ----- the record and its file

  /** A recorded run; a write that fails leaves the file as it was. */
  class Run {
    var services: Record
    var disk: Option<Record>

    constructor (rec: Record, before: Option<Record>, written: bool)
      ensures services == rec && disk == if written then Some(rec) else before
    {
      services, disk := rec, if written then Some(rec) else before;
    }

    method Write(written: bool)
      modifies `disk
      ensures disk == if written then Some(services) else old(disk)
    {
      if written { disk := Some(services); }
    }

    method Replace(rec: Record, written: bool)
      modifies this
      ensures services == rec
      ensures disk == if written then Some(rec) else old(disk)
    {
      services := rec;
      Write(written);
    }

    method Set(d: Dir, stage: Stage, written: bool) returns (onDisk: bool)
      modifies this
      ensures services == old(services)[d := stage]
      ensures disk == if written then Some(services) else old(disk)
      ensures onDisk == written
    {
      services := services[d := stage];
      Write(written);
      onDisk := written;
    }

    method Forget(d: Dir, written: bool)
      modifies this
      ensures services == old(services) - {d}
      ensures disk == if written then Some(services) else old(disk)
    {
      services := services - {d};
      Write(written);
    }

    method End()
      modifies `disk
      ensures disk == None
    {
      disk := None;
    }
  }

  function AllPending(dirs: set<Dir>): Record {
    map d | d in dirs :: Pending
  }

  /** A run's record as it starts: each of its services, pending. */
  method RecordRun(dirs: seq<Dir>) returns (rec: Record)
    ensures rec == AllPending(set d | d in dirs)
    ensures forall d :: Unfinished(rec, d) <==> d in dirs
  {
    rec := map[];
    for i := 0 to |dirs|
      invariant rec == AllPending(set d | d in dirs[..i])
    {
      rec := rec[dirs[i] := Pending];
    }
    assert dirs[..|dirs|] == dirs;
  }

  // ----- what the next run backs up first

  /** The directories the record calls unfinished, or the others, in the configured order. */
  function Which(dirs: seq<Dir>, r: Record, unfinished: bool): seq<Dir> {
    if dirs == [] then []
    else
      var last := dirs[|dirs| - 1];
      Which(dirs[..|dirs| - 1], r, unfinished) + (if Unfinished(r, last) == unfinished then [last] else [])
  }

  lemma {:induction false} WhichMember(dirs: seq<Dir>, r: Record, unfinished: bool, d: Dir)
    ensures d in Which(dirs, r, unfinished) <==> d in dirs && Unfinished(r, d) == unfinished
  {
    if dirs != [] {
      var init, last := dirs[..|dirs| - 1], dirs[|dirs| - 1];
      WhichMember(init, r, unfinished, d);
      assert dirs == init + [last];
      assert d in dirs <==> d in init || d == last;
    }
  }

  /** The two halves are together the whole list: nothing is dropped or doubled. */
  predicate Halves(first: seq<Dir>, rest: seq<Dir>, whole: seq<Dir>) {
    multiset(first) + multiset(rest) == multiset(whole)
  }

  /** One more directory joins either half. */
  lemma HalvesOneMore(first: seq<Dir>, rest: seq<Dir>, whole: seq<Dir>, last: Dir)
    requires Halves(first, rest, whole)
    ensures Halves(first + [last], rest, whole + [last]) && Halves(first, rest + [last], whole + [last])
  {
    assert multiset(whole + [last]) == multiset(whole) + multiset{last};
    assert multiset(first + [last]) == multiset(first) + multiset{last};
    assert multiset(rest + [last]) == multiset(rest) + multiset{last};
  }

  lemma {:induction false} WhichSplits(dirs: seq<Dir>, r: Record)
    ensures Halves(Which(dirs, r, true), Which(dirs, r, false), dirs)
  {
    if dirs == [] {
      assert Halves([], [], []);
    } else {
      hide Halves, Unfinished;
      var init, last := dirs[..|dirs| - 1], dirs[|dirs| - 1];
      WhichSplits(init, r);
      HalvesOneMore(Which(init, r, true), Which(init, r, false), init, last);
      assert init + [last] == dirs;
      if Unfinished(r, last) {
        assert Which(init, r, false) + [] == Which(init, r, false);
      } else {
        assert Which(init, r, true) + [] == Which(init, r, true);
      }
    }
  }

  lemma {:induction false} NoneUnfinished(dirs: seq<Dir>)
    ensures Which(dirs, map[], true) == [] && Which(dirs, map[], false) == dirs
  {
    if dirs != [] {
      NoneUnfinished(dirs[..|dirs| - 1]);
      assert dirs == dirs[..|dirs| - 1] + [dirs[|dirs| - 1]];
    }
  }

  /** The order is the configured one, every service the interrupted run left unfinished first. */
  lemma FirstComeFirst(dirs: seq<Dir>, r: Record, out: seq<Dir>)
    requires out == Which(dirs, r, true) + Which(dirs, r, false)
    ensures multiset(out) == multiset(dirs)
    ensures forall i, j :: 0 <= i < j < |out| && Unfinished(r, out[j]) ==> Unfinished(r, out[i])
  {
    WhichSplits(dirs, r);
    var first, rest := Which(dirs, r, true), Which(dirs, r, false);
    forall i, j | 0 <= i < j < |out| && Unfinished(r, out[j]) ensures Unfinished(r, out[i]) {
      if j >= |first| {
        assert out[j] == rest[j - |first|];
        WhichMember(dirs, r, false, rest[j - |first|]);
        assert false;
      }
      assert out[i] == first[i];
      WhichMember(dirs, r, true, out[i]);
    }
  }

  method UnfinishedFirst(dirs: seq<Dir>, prior: Record) returns (out: seq<Dir>)
    ensures out == Which(dirs, prior, true) + Which(dirs, prior, false)
  {
    if |prior| == 0 {
      NoneUnfinished(dirs);
      return dirs;
    }
    var first: seq<Dir>, rest: seq<Dir> := [], [];
    for i := 0 to |dirs|
      invariant first == Which(dirs[..i], prior, true) && rest == Which(dirs[..i], prior, false)
    {
      assert dirs[..i + 1][..i] == dirs[..i];
      if Unfinished(prior, dirs[i]) { first := first + [dirs[i]]; } else { rest := rest + [dirs[i]]; }
    }
    assert dirs[..|dirs|] == dirs;
    out := first + rest;
  }

  // ----- the run, step by step

  datatype Result = Success | Failed | Skipped | Stopped

  /** What comes before the post hook: the pre hook, the backup, and how it went. */
  datatype Way = Hooking | Clear | Ended(result: Result)

  /** Where one service is between being taken and having its stage recorded. */
  datatype Leg =
    | Ready(hasPre: bool, hasPost: bool)  // its hooks looked up
    | Marked(hasPost: bool)               // the pre hook about to start
    | Between(hasPost: bool, way: Way)    // the pre hook started
    | Bare(hasPost: bool, way: Way)       // no pre hook
    | Settling(result: Result)            // the hooks are through

  datatype Phase =
    | Off
    | Finishing(todo: seq<Dir>, tried: bool)  // an interrupted run's services, the head first
    | Main
    | Ending

  datatype State = State(
    disk: Option<Record>, mem: Option<Record>, phase: Phase, legs: map<Dir, Leg>, stopping: bool,
    owed: set<Dir>,    // the pre hook started, there was a post hook, and none has been attempted since
    unseen: set<Dir>)  // owed from before this run, which the record did not tell of

  datatype Step =
    | Boot(todo: seq<Dir>)
    | Attempt(d: Dir)
    | Skip(d: Dir)
    | Recover(d: Dir, written: bool)
    | Refuse
    | Begin(dirs: set<Dir>, written: bool)
    | Stop
    | Take(d: Dir, hasPre: bool, hasPost: bool)
    | Drop(d: Dir)
    | Note(d: Dir, written: bool)
    | Balk(d: Dir)
    | Plain(d: Dir)
    | StartPre(d: Dir)
    | HoldPre(d: Dir)
    | PreEnds(d: Dir, failed: bool, unreadable: bool)  // unreadable: the filters after it
    | Backup(d: Dir, result: Result)
    | Refrain(d: Dir)
    | RunPost(d: Dir, result: Result)
    | NoPost(d: Dir)
    | Settle(d: Dir, written: bool)
    | Finish
    | Close(keep: bool)
    | Crash

  predicate HookedIn(r: Option<Record>, d: Dir) {
    r.Some? && d in r.value && r.value[d] == Hooked
  }

  /** The services an interrupted run left between its hooks. */
  ghost predicate Lists(todo: seq<Dir>, r: Option<Record>) {
    && (forall d :: d in todo <==> HookedIn(r, d))
    && (forall i, j :: 0 <= i < j < |todo| ==> todo[i] != todo[j])
  }

  /** Where a step takes one service's leg; None is not between take and settle. */
  function After(leg: Option<Leg>, step: Step): Option<Option<Leg>> {
    match (leg, step)
    case (None, Take(_, hasPre, hasPost)) => Some(Some(Ready(hasPre, hasPost)))
    case (Some(Ready(_, _)), Drop(_)) => Some(None)
    case (Some(Ready(true, hasPost)), Note(_, _)) => Some(Some(Marked(hasPost)))
    case (Some(Ready(true, _)), Balk(_)) => Some(Some(Settling(Stopped)))
    case (Some(Ready(false, hasPost)), Plain(_)) => Some(Some(Bare(hasPost, Clear)))
    case (Some(Marked(hasPost)), StartPre(_)) => Some(Some(Between(hasPost, Hooking)))
    case (Some(Marked(_)), HoldPre(_)) => Some(Some(Settling(Stopped)))
    case (Some(Between(hasPost, way)), _) => OnWay(Between(hasPost, way), step)
    case (Some(Bare(hasPost, way)), _) => OnWay(Bare(hasPost, way), step)
    case (Some(Settling(_)), Settle(_, _)) => Some(None)
    case _ => None
  }

  /** A failed pre hook, or filters it left unreadable, stands in the way of the backup. */
  function OnWay(leg: Leg, step: Step): Option<Option<Leg>>
    requires leg.Between? || leg.Bare?
  {
    match (leg.way, step)
    case (Hooking, PreEnds(_, failed, unreadable)) =>
      Some(Some(leg.(way := if failed then Ended(Skipped) else if unreadable then Ended(Failed) else Clear)))
    case (Clear, Backup(_, result)) => Some(Some(leg.(way := Ended(result))))
    case (Clear, Refrain(_)) => Some(Some(leg.(way := Ended(Stopped))))
    case (Ended(r), RunPost(_, result)) => if leg.hasPost && result == r then Some(Some(Settling(r))) else None
    case (Ended(r), NoPost(_)) => if leg.hasPost then None else Some(Some(Settling(r)))
    case _ => None
  }

  function LegOf(s: State, d: Dir): Option<Leg> {
    if d in s.legs then Some(s.legs[d]) else None
  }

  /** A step of one service that its leg allows. */
  predicate Goes(s: State, step: Step, d: Dir) {
    s.phase == Main && s.mem.Some? && After(LegOf(s, d), step).Some?
  }

  function Moved(s: State, step: Step, d: Dir): State
    requires Goes(s, step, d)
  {
    s.(legs := match After(LegOf(s, d), step).value
               case None => s.legs - {d}
               case Some(leg) => s.legs[d := leg])
  }

  /** One change of the record in memory, and of the file when the write works. */
  function Write(s: State, d: Dir, stage: Stage, written: bool): State
    requires s.mem.Some?
  {
    var rec := s.mem.value[d := stage];
    s.(mem := Some(rec), disk := if written then Some(rec) else s.disk)
  }

  /** The debt of d is met or given up. */
  function Freed(s: State, d: Dir): State {
    s.(owed := s.owed - {d}, unseen := s.unseen - {d})
  }

  predicate HeadIs(s: State, d: Dir, tried: bool) {
    s.phase.Finishing? && s.phase.tried == tried && s.phase.todo != [] && s.phase.todo[0] == d
  }

  ghost predicate Next(s: State, step: Step, t: State) {
    match step
    case Boot(todo) =>
      && s.phase == Off && Lists(todo, s.disk)
      && t == s.(mem := s.disk, phase := Finishing(todo, false), unseen := set d | d in s.owed && d !in todo)
    case Attempt(d) => HeadIs(s, d, false) && t == Freed(s, d).(phase := s.phase.(tried := true))
    case Skip(d) => HeadIs(s, d, false) && t == Freed(s, d).(phase := s.phase.(tried := true))
    case Recover(d, written) =>
      && HeadIs(s, d, true) && s.mem.Some?
      && t == Write(s, d, Pending, written).(phase := Finishing(s.phase.todo[1..], false))
    case Refuse => s.phase == Finishing([], false) && t == s.(phase := Ending)
    case Begin(dirs, written) =>
      && s.phase == Finishing([], false)
      && var rec := Some(AllPending(dirs));
         t == s.(phase := Main, mem := rec, disk := if written then rec else s.disk)
    case Stop => s.phase != Off && t == s.(stopping := true)
    case Take(d, _, _) => Goes(s, step, d) && !s.stopping && t == Moved(s, step, d)
    case Drop(d) => Goes(s, step, d) && t == Moved(s, step, d)
    case Note(d, written) =>
      Goes(s, step, d) && !s.stopping && t == Write(Moved(s, step, d), d, Hooked, written)
    case Balk(d) => Goes(s, step, d) && s.stopping && t == Moved(s, step, d)
    case Plain(d) => Goes(s, step, d) && t == Moved(s, step, d)
    case StartPre(d) =>
      && Goes(s, step, d)
      && var moved := Moved(s, step, d);
         t == if s.legs[d].hasPost then Freed(moved, d).(owed := s.owed + {d}) else moved
    case HoldPre(d) => Goes(s, step, d) && s.stopping && t == Moved(s, step, d)
    case PreEnds(d, _, _) => Goes(s, step, d) && t == Moved(s, step, d)
    case Backup(d, result) => Goes(s, step, d) && (result == Stopped ==> s.stopping) && t == Moved(s, step, d)
    case Refrain(d) => Goes(s, step, d) && s.stopping && t == Moved(s, step, d)
    case RunPost(d, _) => Goes(s, step, d) && t == Freed(Moved(s, step, d), d)
    case NoPost(d) => Goes(s, step, d) && t == Moved(s, step, d)
    case Settle(d, written) =>
      && Goes(s, step, d)
      && t == Write(Moved(s, step, d), d, if s.legs[d].result == Stopped then Pending else Done, written)
    case Finish => s.phase == Main && s.legs == map[] && t == s.(phase := Ending)
    case Close(keep) =>
      && s.phase == Ending && (keep ==> s.stopping)
      && t == Gone(s).(disk := if keep || s.mem == None then s.disk else None)
    case Crash => s.phase != Off && t == Gone(s)
  }

  /** What is left of a run that is over, however it ended: the file, and what is owed. */
  function Gone(s: State): State {
    State(s.disk, None, Off, map[], false, s.owed, {})
  }

  ghost predicate Init(s: State) {
    s == State(None, None, Off, map[], false, {}, {})
  }

  ghost predicate Trace(s: State, steps: seq<Step>, t: State) {
    Runs.Run(Next, s, steps, t)
  }

  // ----- one service, and recovery, as the code runs them

  /** What one service's backup finds out as it goes. */
  datatype Answers = Answers(
    hasPre: bool, hasPost: bool, primaryDown: bool,
    stopAtPre: bool,      // a stop is seen before the pre hook is recorded
    heldBack: bool,       // a stop is seen while the pre hook waits to start
    preFails: bool, filtersFail: bool, stopAtBackup: bool, backup: Result)

  predicate About(step: Step, d: Dir) {
    match step
    case Take(e, _, _) => e == d
    case Drop(e) => e == d
    case Note(e, _) => e == d
    case Balk(e) => e == d
    case Plain(e) => e == d
    case StartPre(e) => e == d
    case HoldPre(e) => e == d
    case PreEnds(e, _, _) => e == d
    case Backup(e, _) => e == d
    case Refrain(e) => e == d
    case RunPost(e, _) => e == d
    case NoPost(e) => e == d
    case Settle(e, _) => e == d
    case _ => false
  }

  /** A step about a service moves its leg as After says; of the others only the end of a run moves one. */
  lemma StepMovesLeg(s: State, step: Step, t: State, d: Dir)
    requires Next(s, step, t)
    ensures About(step, d) ==> After(LegOf(s, d), step) == Some(LegOf(t, d))
    ensures !About(step, d) ==> LegOf(t, d) == if step == Crash || step.Close? then None else LegOf(s, d)
  {
  }

  /** Where a service's own steps, from its first, have taken it. */
  function Leads(steps: seq<Step>): Option<Option<Leg>> {
    if steps == [] then Some(None)
    else match Leads(steps[..|steps| - 1])
      case None => None
      case Some(leg) => After(leg, steps[|steps| - 1])
  }

  lemma {:induction false} LeadsAlong(steps: seq<Step>, legs: seq<Option<Leg>>)
    requires |legs| == |steps| + 1 && legs[0] == None
    requires forall i :: 0 <= i < |steps| ==> After(legs[i], steps[i]) == Some(legs[i + 1])
    ensures Leads(steps) == Some(legs[|steps|])
  {
    if steps != [] {
      LeadsAlong(steps[..|steps| - 1], legs[..|steps|]);
    }
  }

  /** How a service's backup ends; None when the primary was found down before its pre hook. */
  function Outcome(a: Answers): Option<Result> {
    if a.primaryDown then None
    else if a.hasPre && (a.stopAtPre || a.heldBack) then Some(Stopped)
    else if a.hasPre && a.preFails then Some(Skipped)
    else if a.hasPre && a.filtersFail then Some(Failed)
    else if a.stopAtBackup then Some(Stopped)
    else Some(a.backup)
  }

  /** The courses a service's backup can take; its mark and its stage are two writes. */
  function Course(d: Dir, a: Answers, marked: bool, settled: bool): seq<Step> {
    var take := Take(d, a.hasPre, a.hasPost);
    if a.primaryDown then [take, Drop(d)]
    else
      var body := if a.stopAtBackup then Refrain(d) else Backup(d, a.backup);
      var post := if a.hasPost then RunPost(d, Outcome(a).value) else NoPost(d);
      var pre := PreEnds(d, a.preFails, a.filtersFail);
      if !a.hasPre then [take, Plain(d), body, post, Settle(d, settled)]
      else if a.stopAtPre then [take, Balk(d), Settle(d, settled)]
      else if a.heldBack then [take, Note(d, marked), HoldPre(d), Settle(d, settled)]
      else if a.preFails || a.filtersFail then
        [take, Note(d, marked), StartPre(d), pre, post, Settle(d, settled)]
      else [take, Note(d, marked), StartPre(d), pre, body, post, Settle(d, settled)]
  }

  /** Nothing keeps the service from being backed up. */
  predicate BacksUp(a: Answers) {
    !a.primaryDown && !(a.hasPre && (a.stopAtPre || a.heldBack || a.preFails || a.filtersFail)) && !a.stopAtBackup
  }

  /** The pre hook was run. */
  predicate RanPre(a: Answers) {
    !a.primaryDown && a.hasPre && !a.stopAtPre && !a.heldBack
  }

  /** The pre hook was recorded. */
  predicate Noted(a: Answers) {
    !a.primaryDown && a.hasPre && !a.stopAtPre
  }

  /** Up to where the backup may begin. */
  function Prelude(d: Dir, a: Answers, marked: bool): seq<Step> {
    if !a.hasPre then [Take(d, a.hasPre, a.hasPost), Plain(d)]
    else if a.stopAtPre then [Take(d, a.hasPre, a.hasPost), Balk(d)]
    else if a.heldBack then [Take(d, a.hasPre, a.hasPost), Note(d, marked), HoldPre(d)]
    else [Take(d, a.hasPre, a.hasPost), Note(d, marked), StartPre(d), PreEnds(d, a.preFails, a.filtersFail)]
  }

  /** The backup, when nothing has gone wrong before it. */
  function Body(d: Dir, a: Answers): seq<Step> {
    if a.hasPre && (!RanPre(a) || a.preFails || a.filtersFail) then []
    else [if a.stopAtBackup then Refrain(d) else Backup(d, a.backup)]
  }

  /** The post hook, when the pre hook ran or there is none. */
  function Post(d: Dir, a: Answers): seq<Step> {
    if a.primaryDown || (a.hasPre && !RanPre(a)) then []
    else [if a.hasPost then RunPost(d, Outcome(a).value) else NoPost(d)]
  }

  /** What a service's backup comes to and does, said of what it finds out. */
  predicate RightFor(d: Dir, a: Answers, result: Option<Result>, did: seq<Step>) {
    && (result == None <==> a.primaryDown)
    && ((exists r :: Backup(d, r) in did) <==> BacksUp(a))
    && (BacksUp(a) ==> result == Some(a.backup) && Backup(d, a.backup) in did)
    && (StartPre(d) in did <==> RanPre(a))
    && (RanPre(a) && a.preFails ==> result == Some(Skipped))
    && (RanPre(a) && !a.preFails && a.filtersFail ==> result == Some(Failed))
    && (!BacksUp(a) && !a.primaryDown && !(RanPre(a) && (a.preFails || a.filtersFail)) ==> result == Some(Stopped))
    && ((exists r :: RunPost(d, r) in did) <==> a.hasPost && !a.primaryDown && (a.hasPre ==> RanPre(a)))
    && (forall r :: RunPost(d, r) in did ==> result == Some(r))
  }

  /** The pre hook, if there is one: recorded, run, its filters read; out is not Success when the backup is off. */
  method PreHook(run: Run, d: Dir, a: Answers, marked: bool) returns (out: Result, preRan: bool, did: seq<Step>)
    requires !a.primaryDown
    modifies run
    ensures did == Prelude(d, a, marked) && preRan == RanPre(a)
    ensures out == if Body(d, a) != [] then Success else Outcome(a).value
    ensures Body(d, a) == [] ==> out != Success
    ensures run.services == if Noted(a) then old(run.services)[d := Hooked] else old(run.services)
    ensures run.disk == if Noted(a) && marked then Some(run.services) else old(run.disk)
  {
    out, preRan := Success, false;
    did := [Take(d, a.hasPre, a.hasPost)];
    if a.hasPre && a.stopAtPre {
      out := Stopped;
      did := did + [Balk(d)];
    } else if a.hasPre {
      preRan := true;
      var _ := run.Set(d, Hooked, marked);
      did := did + [Note(d, marked)];
      if a.heldBack {
        preRan, out := false, Stopped;
        did := did + [HoldPre(d)];
      } else {
        did := did + [StartPre(d), PreEnds(d, a.preFails, a.filtersFail)];
        if a.preFails { out := Skipped; } else if a.filtersFail { out := Failed; }
      }
    } else {
      did := did + [Plain(d)];
    }
  }

  method BackupService(run: Run, d: Dir, a: Answers, marked: bool, settled: bool)
    returns (result: Option<Result>, did: seq<Step>)
    modifies run
    ensures result == Outcome(a) && did == Course(d, a, marked, settled) && RightFor(d, a, result, did)
    ensures result == None ==> run.services == old(run.services) && run.disk == old(run.disk)
    ensures result.Some? ==> run.services == old(run.services)[d := if result.value == Stopped then Pending else Done]
    ensures result.Some? && settled ==> run.disk == Some(run.services)
    ensures result.Some? && !settled ==>
      run.disk == (if marked && Noted(a) then Some(old(run.services)[d := Hooked]) else old(run.disk))
  {
    hide RightFor, Course, Prelude, Noted;
    CourseMeans(d, a, marked, settled);
    if a.primaryDown {
      WhenDown(d, a, marked, settled);
      return None, [Take(d, a.hasPre, a.hasPost)] + [Drop(d)];
    }
    var out, preRan;
    out, preRan, did := PreHook(run, d, a, marked);
    if out == Success {
      out := if a.stopAtBackup then Stopped else a.backup;
      did := did + [if a.stopAtBackup then Refrain(d) else Backup(d, a.backup)];
    }
    assert out == Outcome(a).value && did == Prelude(d, a, marked) + Body(d, a);
    hide Outcome, Body;
    if a.hasPost && (preRan || !a.hasPre) {
      did := did + [RunPost(d, out)];
    } else if preRan || !a.hasPre {
      did := did + [NoPost(d)];
    }
    assert did == Prelude(d, a, marked) + Body(d, a) + Post(d, a);
    InParts(d, a, marked, settled);
    var _ := run.Set(d, if out == Stopped then Pending else Done, settled);
    did := did + [Settle(d, settled)];
    result := Some(out);
  }

  lemma WhenDown(d: Dir, a: Answers, marked: bool, settled: bool)
    requires a.primaryDown
    ensures Course(d, a, marked, settled) == [Take(d, a.hasPre, a.hasPost)] + [Drop(d)]
  {
  }

  lemma InParts(d: Dir, a: Answers, marked: bool, settled: bool)
    requires !a.primaryDown
    ensures Course(d, a, marked, settled) == Prelude(d, a, marked) + Body(d, a) + Post(d, a) + [Settle(d, settled)]
  {
    hide Outcome;
  }

  lemma CourseMeans(d: Dir, a: Answers, marked: bool, settled: bool)
    ensures RightFor(d, a, Outcome(a), Course(d, a, marked, settled))
  {
    var c := Course(d, a, marked, settled);
    assert BacksUp(a) ==> Backup(d, a.backup) in c;
    assert a.hasPost && !a.primaryDown && (a.hasPre ==> RanPre(a)) ==> RunPost(d, Outcome(a).value) in c;
  }

  /** Every course is one the step system allows, from before the service is taken to after. */
  lemma CourseLeadsBack(d: Dir, a: Answers, marked: bool, settled: bool)
    ensures var c := Course(d, a, marked, settled);
      Leads(c) == Some(None) && forall k :: 0 <= k < |c| ==> About(c[k], d)
  {
    hide Leads;
    var c := Course(d, a, marked, settled);
    if RanPre(a) {
      HookedCourse(d, a, marked, settled);
      return;
    }
    var ready := Some(Ready(a.hasPre, a.hasPost));
    if a.primaryDown {
      LeadsAlong(c, [None, ready, None]);
    } else if !a.hasPre {
      var r := Outcome(a).value;
      LeadsAlong(c, [None, ready, Some(Bare(a.hasPost, Clear)), Some(Bare(a.hasPost, Ended(r))), Some(Settling(r)),
                     None]);
    } else if a.stopAtPre {
      LeadsAlong(c, [None, ready, Some(Settling(Stopped)), None]);
    } else {
      LeadsAlong(c, [None, ready, Some(Marked(a.hasPost)), Some(Settling(Stopped)), None]);
    }
  }

  lemma HookedCourse(d: Dir, a: Answers, marked: bool, settled: bool)
    requires RanPre(a)
    ensures Leads(Course(d, a, marked, settled)) == Some(None)
  {
    hide Leads, Course;
    InParts(d, a, marked, settled);
    PreludeLeads(d, a, marked);
    var begun, body, post := Prelude(d, a, marked), Body(d, a), Post(d, a);
    hide Prelude;
    if body == [] {
      LeadsOn(begun, post[0]);
      LeadsOn(begun + post, Settle(d, settled));
      assert begun + body + post == begun + post;
    } else {
      LeadsOn(begun, body[0]);
      LeadsOn(begun + body, post[0]);
      LeadsOn(begun + body + post, Settle(d, settled));
    }
  }

  lemma PreludeLeads(d: Dir, a: Answers, marked: bool)
    requires RanPre(a)
    ensures Leads(Prelude(d, a, marked)) == Some(Some(Between(a.hasPost,
              if a.preFails then Ended(Skipped) else if a.filtersFail then Ended(Failed) else Clear)))
  {
    hide Leads;
    var way := if a.preFails then Ended(Skipped) else if a.filtersFail then Ended(Failed) else Clear;
    LeadsAlong(Prelude(d, a, marked),
      [None, Some(Ready(true, a.hasPost)), Some(Marked(a.hasPost)), Some(Between(a.hasPost, Hooking)),
       Some(Between(a.hasPost, way))]);
  }

  lemma {:induction false} LeadsThrough(steps: seq<Step>, j: nat)
    requires Leads(steps).Some? && j < |steps|
    ensures Leads(steps[..j]).Some? && Leads(steps[..j + 1]).Some?
    ensures Leads(steps[..j + 1]) == After(Leads(steps[..j]).value, steps[j])
    decreases |steps|
  {
    var init := steps[..|steps| - 1];
    assert steps[..|steps|] == steps;
    if j < |steps| - 1 {
      LeadsThrough(init, j);
      assert init[..j] == steps[..j] && init[..j + 1] == steps[..j + 1];
    }
  }

  /**
   The pre hook at k was recorded just before, and its post hook, if it has one, runs once the pre
   hook and, unless that failed, the backup or its refusal are through, before the stage is recorded.
   */
  predicate InOrder(steps: seq<Step>, k: nat) {
    && 2 <= k < |steps| && steps[k - 1].Note? && steps[k - 2].Take? && steps[k - 2].hasPre
    && (k + 1 < |steps| ==> steps[k + 1].PreEnds?)
    && var body := k + 1 < |steps| && !steps[k + 1].failed && !steps[k + 1].unreadable;
       var j := if body then k + 3 else k + 2;
       && (body && k + 2 < |steps| ==> steps[k + 2].Backup? || steps[k + 2].Refrain?)
       && (j < |steps| ==> if steps[k - 2].hasPost then steps[j].RunPost? else steps[j].NoPost?)
       && (j + 1 < |steps| ==> steps[j + 1].Settle?)
  }

  /** So it is in any steps of a service. */
  lemma HooksInOrder(steps: seq<Step>, k: nat)
    requires Leads(steps).Some? && k < |steps| && steps[k].StartPre?
    ensures InOrder(steps, k)
  {
    hide Leads;
    MarkedBefore(steps, k);
    if k + 1 < |steps| {
      LeadsThrough(steps, k + 1);
      ThenTheBackup(steps, k + 1);
    }
  }

  lemma MarkedBefore(steps: seq<Step>, k: nat)
    requires Leads(steps).Some? && k < |steps| && steps[k].StartPre?
    ensures k >= 2 && steps[k - 1].Note? && steps[k - 2].Take? && steps[k - 2].hasPre
    ensures Leads(steps[..k + 1]) == Some(Some(Between(steps[k - 2].hasPost, Hooking)))
  {
    LeadsNowhere(steps);
    hide Leads;
    LeadsThrough(steps, k);
    if k > 0 { LeadsThrough(steps, k - 1); }
    if k > 1 { LeadsThrough(steps, k - 2); }
  }

  lemma ThenTheBackup(steps: seq<Step>, k: nat)
    requires Leads(steps).Some? && k < |steps| && Leads(steps[..k]).Some?
    requires Leads(steps[..k]).value.Some? && Leads(steps[..k]).value.value.Between?
    requires Leads(steps[..k]).value.value.way == Hooking
    ensures steps[k].PreEnds?
    ensures var hasPost := Leads(steps[..k]).value.value.hasPost;
      var body := !steps[k].failed && !steps[k].unreadable;
      var j := if body then k + 2 else k + 1;
      && (body && k + 1 < |steps| ==> steps[k + 1].Backup? || steps[k + 1].Refrain?)
      && (j < |steps| ==> if hasPost then steps[j].RunPost? else steps[j].NoPost?)
      && (j + 1 < |steps| ==> steps[j + 1].Settle?)
  {
    hide Leads;
    LeadsThrough(steps, k);
    if k + 1 < |steps| { LeadsThrough(steps, k + 1); }
    if k + 2 < |steps| { LeadsThrough(steps, k + 2); }
    if k + 3 < |steps| { LeadsThrough(steps, k + 3); }
  }

  /** A backup follows a pre hook that passed, its filters read, or there was no pre hook. */
  lemma BackupAfterItsHook(steps: seq<Step>, k: nat)
    requires Leads(steps).Some? && k < |steps| && (steps[k].Backup? || steps[k].Refrain?)
    ensures k >= 2
    ensures steps[k - 1].Plain? || (steps[k - 1].PreEnds? && !steps[k - 1].failed && !steps[k - 1].unreadable)
    ensures k + 1 < |steps| ==> steps[k + 1].RunPost? || steps[k + 1].NoPost?
  {
    LeadsNowhere(steps);
    hide Leads;
    LeadsThrough(steps, k);
    if k > 0 { LeadsThrough(steps, k - 1); }
    if k > 1 { LeadsThrough(steps, k - 2); }
    if k + 1 < |steps| { LeadsThrough(steps, k + 1); }
  }

  /** How a service's steps say it went: the last word of a stop, its pre hook or its backup. */
  function Said(steps: seq<Step>): Option<Result> {
    if steps == [] then None
    else
      match steps[|steps| - 1]
      case Balk(_) => Some(Stopped)
      case HoldPre(_) => Some(Stopped)
      case Refrain(_) => Some(Stopped)
      case PreEnds(_, failed, unreadable) =>
        if failed then Some(Skipped) else if unreadable then Some(Failed) else None
      case Backup(_, result) => Some(result)
      case _ => Said(steps[..|steps| - 1])
  }

  lemma {:induction false} SaidIsMeant(steps: seq<Step>, leg: Leg)
    requires Leads(steps) == Some(Some(leg))
    ensures leg.Settling? ==> Said(steps) == Some(leg.result)
    ensures (leg.Between? || leg.Bare?) && leg.way.Ended? ==> Said(steps) == Some(leg.way.result)
  {
    if steps != [] {
      var init := steps[..|steps| - 1];
      if Leads(init).value.Some? { SaidIsMeant(init, Leads(init).value.value); }
    }
  }

  /** A post hook is told how the backup went, or why there was none. */
  lemma PostHookIsTold(steps: seq<Step>, k: nat)
    requires Leads(steps).Some? && k < |steps| && steps[k].RunPost?
    ensures Said(steps[..k]) == Some(steps[k].result)
  {
    LeadsThrough(steps, k);
    hide Leads, Said;
    SaidIsMeant(steps[..k], Leads(steps[..k]).value.value);
  }

  lemma LeadsNowhere(steps: seq<Step>)
    ensures Leads(steps[..0]) == Some(None)
  {
  }

  /** The post hooks recovery runs, of the services at dirs. */
  function Rerun(r: Record, dirs: seq<Dir>, able: set<Dir>): seq<Dir> {
    if dirs == [] then []
    else
      var last := dirs[|dirs| - 1];
      Rerun(r, dirs[..|dirs| - 1], able) + (if last in r && r[last] == Hooked && last in able then [last] else [])
  }

  /** The record once recovery has passed dirs. */
  function Repaired(r: Record, dirs: seq<Dir>): (out: Record)
    ensures out.Keys == r.Keys
    ensures forall d :: d in r ==> out[d] == if d in dirs && r[d] == Hooked then Pending else r[d]
  {
    if dirs == [] then r
    else
      var prev, last := Repaired(r, dirs[..|dirs| - 1]), dirs[|dirs| - 1];
      assert dirs == dirs[..|dirs| - 1] + [last];
      if last in prev && prev[last] == Hooked then prev[last := Pending] else prev
  }

  /** The file meanwhile, from write to write. */
  function FileAfter(r: Record, dirs: seq<Dir>, written: seq<bool>, before: Option<Record>): Option<Record>
    requires |written| == |dirs|
  {
    if dirs == [] then before
    else
      var n := |dirs| - 1;
      if written[n] && dirs[n] in r && Repaired(r, dirs[..n])[dirs[n]] == Hooked then Some(Repaired(r, dirs))
      else FileAfter(r, dirs[..n], written[..n], before)
  }

  /** The order of sort.Strings. */
  predicate AtMost(a: Dir, b: Dir) {
    a == [] || (b != [] && (a[0] < b[0] || (a[0] == b[0] && AtMost(a[1..], b[1..]))))
  }

  lemma {:induction false} AtMostTotal(a: Dir, b: Dir)
    ensures AtMost(a, b) || AtMost(b, a)
  {
    if a != [] && b != [] { AtMostTotal(a[1..], b[1..]); }
  }

  lemma {:induction false} AtMostTransitive(a: Dir, b: Dir, c: Dir)
    requires AtMost(a, b) && AtMost(b, c)
    ensures AtMost(a, c)
  {
    if a != [] && b != [] && c != [] && a[0] == b[0] == c[0] { AtMostTransitive(a[1..], b[1..], c[1..]); }
  }

  lemma {:induction false} Least(keys: set<Dir>) returns (d: Dir)
    requires keys != {}
    ensures d in keys && forall e :: e in keys ==> AtMost(d, e)
  {
    hide AtMost;
    var k :| k in keys;
    d := k;
    AtMostTotal(k, k);
    if keys != {k} {
      assert keys == (keys - {k}) + {k};
      d := Least(keys - {k});
      AtMostTotal(k, d);
      if AtMost(k, d) {
        forall e | e in keys && e != k ensures AtMost(k, e) { AtMostTransitive(k, d, e); }
        d := k;
      }
    }
  }

  /** Each once, in order. */
  predicate SortedOnce(dirs: seq<Dir>) {
    forall i, j :: 0 <= i < j < |dirs| ==> dirs[i] != dirs[j] && AtMost(dirs[i], dirs[j])
  }

  method SortedDirs(keys: set<Dir>) returns (dirs: seq<Dir>)
    ensures SortedOnce(dirs) && |dirs| == |keys|
    ensures forall d :: d in dirs <==> d in keys
  {
    dirs := [];
    var todo := keys;
    while todo != {}
      invariant SortedOnce(dirs) && |dirs| + |todo| == |keys| && todo <= keys
      invariant forall d :: d in dirs <==> d in keys && d !in todo
      invariant forall d, e :: d in dirs && e in todo ==> AtMost(d, e)
      decreases |todo|
    {
      var _ := Least(todo);
      var d :| d in todo && forall e :: e in todo ==> AtMost(d, e);
      dirs, todo := dirs + [d], todo - {d};
    }
  }

  lemma NonePassed(r: Record, able: set<Dir>, before: Option<Record>)
    ensures Rerun(r, [], able) == [] && Repaired(r, []) == r && FileAfter(r, [], [], before) == before
  {
  }

  /** Recovery passes one more service. */
  lemma OnePassed(r: Record, dirs: seq<Dir>, able: set<Dir>, written: seq<bool>, before: Option<Record>, k: nat)
    requires |written| == |dirs| && k < |dirs| && dirs[k] in r && dirs[k] !in dirs[..k]
    ensures var d, rec := dirs[k], Repaired(r, dirs[..k + 1]);
      var file := FileAfter(r, dirs[..k], written[..k], before);
      if r[d] == Hooked then
        && rec == Repaired(r, dirs[..k])[d := Pending]
        && Rerun(r, dirs[..k + 1], able) == Rerun(r, dirs[..k], able) + (if d in able then [d] else [])
        && FileAfter(r, dirs[..k + 1], written[..k + 1], before) == if written[k] then Some(rec) else file
      else
        && rec == Repaired(r, dirs[..k])
        && Rerun(r, dirs[..k + 1], able) == Rerun(r, dirs[..k], able)
        && FileAfter(r, dirs[..k + 1], written[..k + 1], before) == file
  {
    assert dirs[..k + 1][..k] == dirs[..k] && written[..k + 1][..k] == written[..k];
  }

  method FinishInterrupted(run: Run, configured: set<Dir>, runnable: set<Dir>, written: seq<bool>)
    returns (ran: seq<Dir>, dirs: seq<Dir>)
    requires |written| == |run.services|
    modifies run
    ensures SortedOnce(dirs) && |dirs| == |written| && forall d :: d in dirs <==> d in old(run.services)
    ensures ran == Rerun(old(run.services), dirs, configured * runnable)
    ensures run.services == Repaired(old(run.services), dirs)
    ensures run.disk == FileAfter(old(run.services), dirs, written, old(run.disk))
  {
    hide Rerun, Repaired, FileAfter, AtMost;
    dirs := SortedDirs(run.services.Keys);
    ran := [];
    NonePassed(run.services, configured * runnable, run.disk);
    assert dirs[..0] == [] && written[..0] == [];
    for k := 0 to |dirs|
      invariant ran == Rerun(old(run.services), dirs[..k], configured * runnable)
      invariant run.services == Repaired(old(run.services), dirs[..k])
      invariant run.disk == FileAfter(old(run.services), dirs[..k], written[..k], old(run.disk))
    {
      var d := dirs[k];
      assert d !in dirs[..k];
      OnePassed(old(run.services), dirs, configured * runnable, written, old(run.disk), k);
      if run.services[d] == Hooked {
        if d in configured && d in runnable { ran := ran + [d]; }
        var _ := run.Set(d, Pending, written[k]);
      }
    }
    assert dirs[..|dirs|] == dirs && written[..|written|] == written;
  }

  /** Wherever recovery is cut short, whichever writes worked, a service not yet passed is marked on disk. */
  lemma {:induction false} MarkedUntilPassed(r: Record, dirs: seq<Dir>, written: seq<bool>, d: Dir)
    requires |written| == |dirs| && d in r && r[d] == Hooked && d !in dirs
    ensures HookedIn(FileAfter(r, dirs, written, Some(r)), d)
  {
    if dirs != [] {
      MarkedUntilPassed(r, dirs[..|dirs| - 1], written[..|dirs| - 1], d);
    }
  }

  /** Recovery wrote the record at the j-th service, having passed d. */
  predicate WrittenPast(r: Record, dirs: seq<Dir>, written: seq<bool>, d: Dir, j: nat) {
    j < |dirs| && j < |written| && written[j] && HookedIn(Some(r), dirs[j]) && d in dirs[..j + 1]
  }

  /** It is marked until then, and no longer. */
  lemma {:induction false} MarkedExactly(r: Record, dirs: seq<Dir>, written: seq<bool>, d: Dir)
    requires |written| == |dirs| && d in r && r[d] == Hooked
    requires forall i, j :: 0 <= i < j < |dirs| ==> dirs[i] != dirs[j]
    ensures HookedIn(FileAfter(r, dirs, written, Some(r)), d) <==> !exists j: nat :: WrittenPast(r, dirs, written, d, j)
  {
    if dirs != [] {
      var n := |dirs| - 1;
      MarkedExactly(r, dirs[..n], written[..n], d);
      assert dirs[..n + 1] == dirs && dirs[n] !in dirs[..n];
      forall j: nat | j < n
        ensures WrittenPast(r, dirs, written, d, j) <==> WrittenPast(r, dirs[..n], written[..n], d, j)
        ensures d in dirs[..j + 1] ==> d in dirs
      {
        assert dirs[..n][..j + 1] == dirs[..j + 1];
      }
      assert WrittenPast(r, dirs, written, d, n) <==> written[n] && HookedIn(Some(r), dirs[n]) && d in dirs;
    }
  }

  /** Each service left between its hooks, and no other, has its post hook run, once. */
  lemma {:induction false} RerunExactly(r: Record, dirs: seq<Dir>, able: set<Dir>, d: Dir)
    requires forall i, j :: 0 <= i < j < |dirs| ==> dirs[i] != dirs[j]
    ensures multiset(Rerun(r, dirs, able))[d] == if d in dirs && d in r && r[d] == Hooked && d in able then 1 else 0
  {
    if dirs != [] {
      var init, last := dirs[..|dirs| - 1], dirs[|dirs| - 1];
      RerunExactly(r, init, able, d);
      assert dirs == init + [last];
      assert d in dirs <==> d in init || d == last;
      assert last !in init;
    }
  }

  // ----- the invariant

  /** Owed by this run: between its hooks now, with a post hook to come. */
  predicate Owing(s: State, d: Dir) {
    d in s.legs && s.legs[d].Between? && s.legs[d].hasPost
  }

  ghost predicate Inv(s: State) {
    match s.phase
    case Off => s.mem == None && s.legs == map[]
    case Finishing(todo, tried) =>
      && s.legs == map[]
      && (tried ==> todo != []) && (todo != [] ==> s.mem.Some?)
      && (forall d :: d in s.owed && d !in s.unseen ==> d in Remaining(s.phase))
      && (forall d :: d in todo ==> HookedIn(s.mem, d))
      && (forall i, j :: 0 <= i < j < |todo| ==> todo[i] != todo[j])
    case Main =>
      && s.mem.Some?
      && (forall d :: d in s.owed && d !in s.unseen <==> Owing(s, d))
      && (forall d :: d in s.legs && (s.legs[d].Marked? || s.legs[d].Between?) ==> HookedIn(s.mem, d))
    case Ending => s.legs == map[] && s.owed <= s.unseen
  }

  /** Those recovery has still to act on. */
  function Remaining(phase: Phase): seq<Dir>
    requires phase.Finishing? && (phase.tried ==> phase.todo != [])
  {
    if phase.tried then phase.todo[1..] else phase.todo
  }

  predicate OfRecovery(step: Step) {
    step.Boot? || step.Attempt? || step.Skip? || step.Recover? || step.Refuse? || step.Begin?
  }

  lemma RecoveryKeeps(s: State, step: Step, t: State)
    requires Inv(s) && Next(s, step, t) && OfRecovery(step)
    ensures Inv(t)
  {
    if step.Boot? {
      assert step.todo != [] ==> step.todo[0] in step.todo;
    } else if step.Attempt? || step.Skip? {
      HeadGone(s, step.d);
    } else if step.Recover? {
      RestHooked(s, step.d);
    }
  }

  predicate OfHooks(step: Step) {
    step.StartPre? || step.HoldPre? || step.RunPost? || step.NoPost? || step.Settle?
  }

  lemma HooksKeep(s: State, step: Step, t: State)
    requires Inv(s) && Next(s, step, t) && OfHooks(step)
    ensures Inv(t)
  {
  }

  predicate OfBackup(step: Step) {
    step.PreEnds? || step.Backup? || step.Refrain?
  }

  lemma BackupKeeps(s: State, step: Step, t: State)
    requires Inv(s) && Next(s, step, t) && OfBackup(step)
    ensures Inv(t)
  {
  }

  lemma OtherKeeps(s: State, step: Step, t: State)
    requires Inv(s) && Next(s, step, t) && !OfRecovery(step) && !OfHooks(step) && !OfBackup(step)
    ensures Inv(t)
  {
  }

  lemma InvStep(s: State, step: Step, t: State)
    requires Inv(s) && Next(s, step, t)
    ensures Inv(t)
  {
    hide Inv, Next;
    if OfRecovery(step) {
      RecoveryKeeps(s, step, t);
    } else if OfHooks(step) {
      HooksKeep(s, step, t);
    } else if OfBackup(step) {
      BackupKeeps(s, step, t);
    } else {
      OtherKeeps(s, step, t);
    }
  }

  lemma HeadGone(s: State, d: Dir)
    requires Inv(s) && HeadIs(s, d, false)
    ensures forall e :: e in s.owed - {d} && e !in s.unseen ==> e in s.phase.todo[1..]
  {
    forall e | e in s.owed - {d} && e !in s.unseen ensures e in s.phase.todo[1..] {
      var i :| 0 <= i < |s.phase.todo| && s.phase.todo[i] == e;
      assert s.phase.todo[1..][i - 1] == e;
    }
  }

  lemma RestHooked(s: State, d: Dir)
    requires Inv(s) && s.phase.Finishing? && s.phase.todo != [] && s.phase.todo[0] == d
    ensures forall e :: e in s.phase.todo[1..] ==> HookedIn(s.mem, e) && e != d
  {
    var rest := s.phase.todo[1..];
    forall e | e in rest ensures HookedIn(s.mem, e) && e != d {
      var i :| 0 <= i < |rest| && rest[i] == e;
      assert s.phase.todo[i + 1] == e && e in s.phase.todo;
    }
  }

  ghost predicate Reachable(s: State) {
    Runs.Reachable(Init, Next, s)
  }

  lemma ReachableInv(s: State)
    requires Reachable(s)
    ensures Inv(s)
  {
    forall a: State | Init(a) ensures Inv(a) {}
    forall a: State, step: Step, b: State | Inv(a) && Next(a, step, b) ensures Inv(b) {
      InvStep(a, step, b);
    }
    hide Inv, Next, Init;
    Runs.Everywhere(Init, Next, Inv, s);
  }

  // ----- each service's steps, picked out of a run

  /** The steps of d since the last crash. */
  function Since(steps: seq<Step>, d: Dir): (own: seq<Step>)
    ensures forall k :: 0 <= k < |own| ==> About(own[k], d) && own[k] in steps
  {
    if steps == [] then []
    else
      var n := |steps| - 1;
      if steps[n] == Crash then []
      else Since(steps[..n], d) + (if About(steps[n], d) then [steps[n]] else [])
  }

  /** However a run interleaves its services, the steps of each are a path, and end where it is. */
  lemma {:induction false} RunLeads(i: State, steps: seq<Step>, t: State, d: Dir)
    requires Init(i) && Trace(i, steps, t)
    ensures Leads(Since(steps, d)) == Some(LegOf(t, d))
  {
    if steps != [] {
      var n := |steps| - 1;
      var m := Runs.Last(Next, i, steps, t);
      RunLeads(i, steps[..n], m, d);
      Runs.Arrives(Init, Next, i, steps[..n], m);
      ReachableInv(m);
      StepMovesLeg(m, steps[n], t, d);
      LeadsOn(Since(steps[..n], d), steps[n]);
    }
  }

  lemma LeadsOn(steps: seq<Step>, step: Step)
    requires Leads(steps).Some?
    ensures Leads(steps + [step]) == After(Leads(steps).value, step)
    ensures steps + [] == steps
  {
    assert (steps + [step])[..|steps|] == steps;
  }

  /**
   So in every run, of one service's steps since a crash, a pre hook that starts was recorded just
   before, and its post hook runs once it and the backup it may allow are through, before the
   stage is recorded.
   */
  lemma HooksInOrderInRuns(i: State, steps: seq<Step>, t: State, d: Dir, k: nat)
    requires Init(i) && Trace(i, steps, t) && k < |Since(steps, d)| && Since(steps, d)[k] == StartPre(d)
    ensures InOrder(Since(steps, d), k)
  {
    RunLeads(i, steps, t, d);
    HooksInOrder(Since(steps, d), k);
  }

  /** In every run no service is backed up whose pre hook, or the filters after it, failed. */
  lemma NeverBackedUpAfterAFailedHook(i: State, steps: seq<Step>, t: State, d: Dir, k: nat)
    requires Init(i) && Trace(i, steps, t) && k < |Since(steps, d)| && Since(steps, d)[k].Backup?
    ensures var own := Since(steps, d);
      k >= 2 && (own[k - 1] == Plain(d) || own[k - 1] == PreEnds(d, false, false))
  {
    RunLeads(i, steps, t, d);
    BackupAfterItsHook(Since(steps, d), k);
    assert About(Since(steps, d)[k - 1], d);
  }

  /** Its stage is recorded as it went: pending after a stop, and done however else it ended. */
  lemma StagedAsItWent(i: State, steps: seq<Step>, s: State, d: Dir, written: bool, t: State)
    requires Init(i) && Trace(i, steps, s) && Next(s, Settle(d, written), t)
    ensures var said := Said(Since(steps, d));
      said.Some? && t.mem.Some? && t.mem.value == s.mem.value[d := if said.value == Stopped then Pending else Done]
    ensures t.disk == if written then t.mem else s.disk
  {
    RunLeads(i, steps, s, d);
    SaidIsMeant(Since(steps, d), s.legs[d]);
  }

  // ----- what the record promises

  /** A service between its hooks that the run knows of is recorded so, on disk unless a write failed since. */
  lemma RecordedWhileOwed(s: State, d: Dir)
    requires Reachable(s) && s.phase != Off && d in s.owed && d !in s.unseen
    ensures HookedIn(s.mem, d)
    ensures s.disk == s.mem ==> HookedIn(s.disk, d)
  {
    ReachableInv(s);
    if s.phase.Finishing? {
      assert d in Remaining(s.phase);
      assert d in s.phase.todo;
    }
  }

  /** However a run ends its record, no service it knows of is left between its hooks. */
  lemma EndsWithNobodyOwed(s: State, keep: bool, t: State)
    requires Reachable(s) && Next(s, Close(keep), t)
    ensures s.owed <= s.unseen
    ensures t.disk == if keep || s.mem == None then s.disk else None
  {
    ReachableInv(s);
  }

  /** A pre hook starts only once every debt recovery was told of has been met or given up. */
  lemma PreHookOwesNobodyElse(s: State, d: Dir, t: State)
    requires Reachable(s) && Next(s, StartPre(d), t)
    ensures forall e :: e in s.owed && e !in s.unseen ==> Owing(s, e)
  {
    ReachableInv(s);
  }

  /** The post hook of d was attempted, in recovery or in its own run. */
  predicate Met(step: Step, d: Dir) {
    step == Attempt(d) || (step.RunPost? && step.d == d)
  }

  /** Attempted, or given up by a recovery that could not act on it. */
  ghost predicate Answered(steps: seq<Step>, d: Dir) {
    exists k :: 0 <= k < |steps| && (Met(steps[k], d) || steps[k] == Skip(d))
  }

  lemma AnsweredLater(steps: seq<Step>, d: Dir)
    requires steps != []
    ensures Answered(steps, d) <==> Met(steps[0], d) || steps[0] == Skip(d) || Answered(steps[1..], d)
  {
    if Answered(steps[1..], d) {
      var k :| 0 <= k < |steps[1..]| && (Met(steps[1..][k], d) || steps[1..][k] == Skip(d));
      assert Met(steps[k + 1], d) || steps[k + 1] == Skip(d);
    }
    if k :| 0 < k < |steps| && (Met(steps[k], d) || steps[k] == Skip(d)) {
      assert Met(steps[1..][k - 1], d) || steps[1..][k - 1] == Skip(d);
    }
  }

  /** Over any run a debt ends only by an attempt of the post hook or by being given up. */
  lemma {:induction false} DebtLasts(s: State, steps: seq<Step>, t: State, d: Dir)
    requires Trace(s, steps, t) && d in s.owed
    ensures d in t.owed || Answered(steps, d)
    decreases |steps|
  {
    if steps != [] {
      var m := Runs.First(Next, s, steps, t);
      AnsweredLater(steps, d);
      assert d in m.owed || Met(steps[0], d) || steps[0] == Skip(d);
      if d in m.owed { DebtLasts(m, steps[1..], t, d); }
    }
  }

  /** Marked on disk, and recovery has not come to it. */
  predicate Waiting(s: State, d: Dir) {
    && HookedIn(s.disk, d)
    && (s.phase.Finishing? ==> (s.phase.tried ==> s.phase.todo != []) && d in Remaining(s.phase))
    && (s.phase.Off? || s.phase.Finishing?)
  }

  lemma WaitingStep(s: State, step: Step, t: State, d: Dir)
    requires Inv(s) && Waiting(s, d) && Next(s, step, t)
    ensures Waiting(t, d) || step == Attempt(d) || step == Skip(d)
  {
    match step
    case Recover(e, _) => RestHooked(s, e);
    case Attempt(e) => HeadApart(s, e, d);
    case Skip(e) => HeadApart(s, e, d);
    case _ =>
  }

  lemma HeadApart(s: State, e: Dir, d: Dir)
    requires Inv(s) && HeadIs(s, e, false) && d in s.phase.todo
    ensures d == e || d in s.phase.todo[1..]
  {
    var i :| 0 <= i < |s.phase.todo| && s.phase.todo[i] == d;
    assert i > 0 ==> s.phase.todo[1..][i - 1] == d;
  }

  /**
   The next run repays before it borrows: between a crash and the first pre hook after it, and
   however many more crashes and failed writes, the post hook of every service marked on disk
   was attempted or, where recovery could not act on it, given up.
   */
  lemma {:induction false} RepaidBeforeAnyPreHook(s: State, steps: seq<Step>, t: State, e: Dir, u: State, d: Dir)
    requires Reachable(s) && Waiting(s, d) && Trace(s, steps, t) && Next(t, StartPre(e), u)
    ensures Answered(steps, d)
    decreases |steps|
  {
    ReachableInv(s);
    if steps != [] {
      var m := Runs.First(Next, s, steps, t);
      Reaches(s, steps[0], m);
      WaitingStep(s, steps[0], m, d);
      AnsweredLater(steps, d);
      if Waiting(m, d) { RepaidBeforeAnyPreHook(m, steps[1..], t, e, u, d); }
    }
  }

  /** A crash in these steps found d's mark not on disk. */
  ghost predicate Unmarked(s: State, steps: seq<Step>, t: State, d: Dir)
    requires Trace(s, steps, t)
    decreases |steps|
  {
    steps != [] &&
    ((steps[0] == Crash && !HookedIn(s.disk, d)) ||
     exists m: State :: Next(s, steps[0], m) && Trace(m, steps[1..], t) && Unmarked(m, steps[1..], t, d))
  }

  /** A debt the run knows of, or will be told of. */
  predicate Known(s: State, d: Dir) {
    d in s.owed && if s.phase == Off then HookedIn(s.disk, d) else d !in s.unseen
  }

  lemma KnownStep(s: State, step: Step, t: State, d: Dir)
    requires Inv(s) && Known(s, d) && Next(s, step, t)
    ensures Known(t, d) || Met(step, d) || step == Skip(d) || (step == Crash && !HookedIn(s.disk, d))
  {
  }

  lemma {:induction false} KnownIsAnswered(s: State, steps: seq<Step>, t: State, keep: bool, u: State, d: Dir)
    requires Reachable(s) && Known(s, d) && Trace(s, steps, t) && Next(t, Close(keep), u)
    ensures Answered(steps, d) || Unmarked(s, steps, t, d)
    decreases |steps|
  {
    ReachableInv(s);
    if steps != [] {
      var m := Runs.First(Next, s, steps, t);
      Reaches(s, steps[0], m);
      KnownStep(s, steps[0], m, d);
      AnsweredLater(steps, d);
      if Known(m, d) { KnownIsAnswered(m, steps[1..], t, keep, u, d); }
    }
  }

  /** A pre hook that started is answered before a run's record goes, unless a crash since found it unmarked. */
  lemma AnsweredBeforeTheEnd(s: State, d: Dir, m: State, steps: seq<Step>, t: State, keep: bool, u: State)
    requires Reachable(s) && Next(s, StartPre(d), m) && s.legs[d].hasPost
    requires Trace(m, steps, t) && Next(t, Close(keep), u)
    ensures Answered(steps, d) || Unmarked(m, steps, t, d)
  {
    Reaches(s, StartPre(d), m);
    KnownIsAnswered(m, steps, t, keep, u, d);
  }

  /** Once a run is stopping it takes no service and records no pre hook any more. */
  lemma {:induction false} NothingNewOnceStopping(s: State, steps: seq<Step>, t: State)
    requires s.stopping && Trace(s, steps, t)
    requires forall k :: 0 <= k < |steps| ==> steps[k] != Crash && !steps[k].Close?
    ensures t.stopping && forall k :: 0 <= k < |steps| ==> !steps[k].Take? && !steps[k].Note?
    decreases |steps|
  {
    if steps != [] {
      var m := Runs.First(Next, s, steps, t);
      assert m.stopping && !steps[0].Take? && !steps[0].Note?;
      hide Next;
      NothingNewOnceStopping(m, steps[1..], t);
      assert steps == [steps[0]] + steps[1..];
    }
  }

  // ----- what is left to do first next time

  /** Recovery leaves what was unfinished so, in memory and on disk. */
  lemma RecoveryLeavesUnfinished(s: State, step: Step, t: State, d: Dir)
    requires s.mem.Some? && Unfinished(s.mem.value, d) && Next(s, step, t)
    requires step.Attempt? || step.Skip? || step.Recover? || step.Refuse?
    ensures t.mem.Some? && Unfinished(t.mem.value, d)
    ensures s.disk.Some? && Unfinished(s.disk.value, d) ==> t.disk.Some? && Unfinished(t.disk.value, d)
  {
  }

  lemma StaysUnfinished(s: State, step: Step, t: State, d: Dir)
    requires s.phase.Main? && s.mem.Some? && Unfinished(s.mem.value, d) && Next(s, step, t)
    requires step != Crash && !(step.Settle? && step.d == d)
    ensures t.mem.Some? && Unfinished(t.mem.value, d) && (t.phase.Main? || step == Finish)
  {
  }

  /** Since a run began, whatever it wrote, each of its services not yet settled is unfinished in its record. */
  lemma {:induction false} UnfinishedUntilSettled(s: State, steps: seq<Step>, t: State, d: Dir)
    requires s.phase.Main? && s.mem.Some? && Unfinished(s.mem.value, d) && Trace(s, steps, t)
    requires forall k :: 0 <= k < |steps| ==> steps[k] != Crash && steps[k] != Finish
    requires forall k :: 0 <= k < |steps| ==> !(steps[k].Settle? && steps[k].d == d)
    ensures t.phase.Main? && t.mem.Some? && Unfinished(t.mem.value, d)
    decreases |steps|
  {
    hide Next, Unfinished;
    if steps != [] {
      var m := Runs.First(Next, s, steps, t);
      StaysUnfinished(s, steps[0], m, d);
      UnfinishedUntilSettled(m, steps[1..], t, d);
    }
  }

  /** So a crash, the last record written, leaves the next run to take first each service not settled. */
  lemma CrashedRunComesFirst(s: State, dirs: set<Dir>, written: bool, m: State, steps: seq<Step>, t: State, u: State,
          d: Dir, order: seq<Dir>, i: nat, j: nat)
    requires Next(s, Begin(dirs, written), m) && d in dirs && Trace(m, steps, t) && Next(t, Crash, u)
    requires forall k :: 0 <= k < |steps| ==> steps[k] != Crash && steps[k] != Finish
    requires forall k :: 0 <= k < |steps| ==> !(steps[k].Settle? && steps[k].d == d)
    requires t.disk == t.mem
    ensures u.disk.Some? && Unfinished(u.disk.value, d)
    ensures var out := Which(order, u.disk.value, true) + Which(order, u.disk.value, false);
      i < j < |out| && out[j] == d ==> Unfinished(u.disk.value, out[i])
  {
    assert Unfinished(m.mem.value, d);
    UnfinishedUntilSettled(m, steps, t, d);
    FirstComeFirst(order, u.disk.value, Which(order, u.disk.value, true) + Which(order, u.disk.value, false));
  }

  // ----- nobody is lost

  predicate Written(step: Step) {
    match step
    case Recover(_, w) => w
    case Begin(_, w) => w
    case Note(_, w) => w
    case Settle(_, w) => w
    case _ => true
  }

  /** Record writes work, and recovery can act on every service: each is still configured. */
  predicate Kind(step: Step) {
    Written(step) && !step.Skip?
  }

  predicate AllKind(steps: seq<Step>) {
    forall k :: 0 <= k < |steps| ==> Kind(steps[k])
  }

  /** Memory is on disk, and no debt is unknown. */
  predicate Saved(s: State) {
    && (s.mem.Some? ==> s.disk == s.mem)
    && (s.phase == Off ==> forall d :: d in s.owed ==> HookedIn(s.disk, d))
    && s.unseen == {}
  }

  lemma SavedStep(s: State, step: Step, t: State)
    requires Inv(s) && Saved(s) && Next(s, step, t) && Kind(step)
    ensures Saved(t)
  {
    if step == Crash || step.Close? {
      forall d | d in s.owed && s.phase != Off ensures HookedIn(s.disk, d) {
        if s.phase.Finishing? {
          assert d in Remaining(s.phase);
          assert d in s.phase.todo;
        }
      }
    }
  }

  lemma {:induction false} SavedTrace(s: State, steps: seq<Step>, t: State)
    requires Inv(s) && Saved(s) && Trace(s, steps, t) && AllKind(steps)
    ensures Saved(t) && Inv(t)
    decreases |steps|
  {
    if steps != [] {
      var m := Runs.First(Next, s, steps, t);
      InvStep(s, steps[0], m);
      SavedStep(s, steps[0], m);
      SavedTrace(m, steps[1..], t);
    }
  }

  /** Then whatever crashes, a post hook still to come is recorded on disk, and none is at the end of a run. */
  lemma NobodyLost(i: State, steps: seq<Step>, t: State, d: Dir)
    requires Init(i) && Trace(i, steps, t) && AllKind(steps)
    ensures d in t.owed ==> HookedIn(t.disk, d)
    ensures t.phase == Ending ==> d !in t.owed
  {
    SavedTrace(i, steps, t);
    if d in t.owed && t.phase.Finishing? {
      assert d in Remaining(t.phase);
      assert d in t.phase.todo;
    }
  }

  /**
   The promise: with record writes that work and services that stay configured, whatever a
   crash left between its hooks has its post hook attempted before any pre hook starts again.
   */
  lemma AttemptedBeforeAnyPreHook(i: State, before: seq<Step>, s: State, steps: seq<Step>, t: State, e: Dir,
          u: State, d: Dir)
    requires Init(i) && Trace(i, before, s) && AllKind(before) && s.phase == Off && d in s.owed
    requires Trace(s, steps, t) && AllKind(steps) && Next(t, StartPre(e), u)
    ensures exists k :: 0 <= k < |steps| && Met(steps[k], d)
  {
    NobodyLost(i, before, s, d);
    Runs.Arrives(Init, Next, i, before, s);
    RepaidBeforeAnyPreHook(s, steps, t, e, u, d);
    var k :| 0 <= k < |steps| && (Met(steps[k], d) || steps[k] == Skip(d));
    assert Kind(steps[k]);
  }

  /** After a crash the next run is told of exactly the debts marked on disk: of all, when memory was. */
  lemma CrashLosesOnlyTheUnwritten(s: State, t: State, todo: seq<Dir>, u: State, d: Dir)
    requires Reachable(s) && Next(s, Crash, t) && Next(t, Boot(todo), u) && d in s.owed
    ensures d in u.owed && (d in todo <==> HookedIn(s.disk, d)) && (d in u.unseen <==> !HookedIn(s.disk, d))
    ensures s.disk == s.mem && d !in s.unseen ==> d in todo
  {
    if d !in s.unseen { RecordedWhileOwed(s, d); }
  }

  /** Nothing stops the run, and of d's steps only the start of its pre hook is among these. */
  predicate UnderWay(steps: seq<Step>, d: Dir) {
    forall k :: 0 <= k < |steps| ==> steps[k] != Crash && (About(steps[k], d) ==> steps[k] == StartPre(d))
  }

  /** The record got to the file, whichever service it was written for. */
  predicate Lands(step: Step) {
    (step.Note? || step.Settle?) && step.written
  }

  /** Between the hooks of d, the record in memory marking it. */
  predicate Inside(s: State, d: Dir) {
    s.phase == Main && d in s.legs && HookedIn(s.mem, d)
  }

  lemma InsideStep(s: State, step: Step, t: State, d: Dir)
    requires Inside(s, d) && Next(s, step, t) && step != Crash && (About(step, d) ==> step == StartPre(d))
    ensures Inside(t, d) && (HookedIn(t.disk, d) <==> HookedIn(s.disk, d) || Lands(step))
  {
  }

  lemma {:induction false} MarkedSince(m: State, steps: seq<Step>, t: State, d: Dir)
    requires Inside(m, d) && Trace(m, steps, t) && UnderWay(steps, d)
    ensures HookedIn(t.disk, d) <==> HookedIn(m.disk, d) || exists k :: 0 <= k < |steps| && Lands(steps[k])
    decreases |steps|
  {
    hide Next, Inside, Lands, HookedIn;
    if steps != [] {
      var n := Runs.First(Next, m, steps, t);
      InsideStep(m, steps[0], n, d);
      MarkedSince(n, steps[1..], t, d);
      assert steps == [steps[0]] + steps[1..];
    }
  }

  /**
   A crash inside d's hooks: the next run is told of d exactly when d's own mark was written, or any
   record since was, for any service, or the file marked d from before.
   */
  lemma ToldExactly(s: State, written: bool, m: State, steps: seq<Step>, t: State, u: State, todo: seq<Dir>, v: State,
          d: Dir)
    requires Next(s, Note(d, written), m) && Trace(m, steps, t) && UnderWay(steps, d)
    requires Next(t, Crash, u) && Next(u, Boot(todo), v)
    ensures d in todo <==> written || HookedIn(s.disk, d) || exists k :: 0 <= k < |steps| && Lands(steps[k])
    ensures d in t.owed ==> d in v.owed && (d in v.unseen <==> d !in todo)
  {
    MarkedSince(m, steps, t, d);
  }

  lemma Reaches(s: State, step: Step, t: State)
    requires Reachable(s) && Next(s, step, t)
    ensures Reachable(t)
  {
    Runs.Further(Init, Next, s, step, t);
  }

  /** A run of one service, its record written. */
  lemma Begun(d: Dir) returns (s: State)
    ensures Reachable(s) && s == State(Some(map[d := Pending]), Some(map[d := Pending]), Main, map[], false, {}, {})
  {
    var s0 := State(None, None, Off, map[], false, {}, {});
    assert Reachable(s0) by { Runs.Starts(Init, Next, s0); }
    hide Reachable, Trace;
    var s1 := s0.(phase := Finishing([], false));
    Reaches(s0, Boot([]), s1);
    assert AllPending({d}) == map[d := Pending];
    s := s1.(disk := Some(map[d := Pending]), mem := Some(map[d := Pending]), phase := Main);
    Reaches(s1, Begin({d}, true), s);
  }

  /** Its pre hook started, the mark before it not written. */
  lemma StartedUnmarked(d: Dir) returns (s: State)
    ensures Reachable(s)
    ensures s == State(Some(map[d := Pending]), Some(map[d := Hooked]), Main, map[d := Between(true, Hooking)], false,
                       {d}, {})
  {
    var s0 := MarkedUnwritten(d);
    hide Reachable;
    s := s0.(legs := map[d := Between(true, Hooking)], owed := {d});
    assert s0.legs[d := Between(true, Hooking)] == s.legs;
    Reaches(s0, StartPre(d), s);
  }

  lemma MarkedUnwritten(d: Dir) returns (s: State)
    ensures Reachable(s)
    ensures s == State(Some(map[d := Pending]), Some(map[d := Hooked]), Main, map[d := Marked(true)], false, {}, {})
  {
    var s0 := Begun(d);
    hide Reachable;
    var s1 := s0.(legs := map[d := Ready(true, true)]);
    Reaches(s0, Take(d, true, true), s1);
    s := s1.(mem := Some(map[d := Hooked]), legs := map[d := Marked(true)]);
    assert s1.mem.value[d := Hooked] == map[d := Hooked];
    assert s1.legs[d := Marked(true)] == s.legs;
    Reaches(s1, Note(d, false), s);
  }

  /** A mark that could not be written, then a crash inside the pre hook: the next run is not told. */
  lemma UnwrittenWitness(d: Dir) returns (s: State, t: State, u: State)
    ensures Reachable(s) && Next(s, Crash, t) && Next(t, Boot([]), u) && d in u.owed && d in u.unseen
  {
    s := StartedUnmarked(d);
    hide Reachable;
    t := Gone(s);
    u := t.(mem := t.disk, phase := Finishing([], false), unseen := {d});
  }
}
