/**
 Backups and restores into service directories keep out of each other's way: a backup
 publishes its lock file and then probes the restore lock, a restore takes that lock and then
 looks for a live backup in the file. The step system has any number of both, read and
 decision apart, kernel locks that outlive a restore in its children, stale files left by
 dead runs, and process IDs that come back as other processes.
 */
module Exclusion {
  import opened Options
  import Runs

  type Pid = nat

  datatype Backup = Trying | Held | Published | Probing | Running | Leaving | Dropping

  datatype Stage = Locked | Seen(pid: Option<Pid>) | Inside
  /** Every process with the restore's lock file open keeps the lock. */
  datatype Restore = Restore(stage: Stage, holders: set<Pid>)

  datatype Owner = ByBackup(pid: Pid) | ByRestore(id: nat)

  datatype State = State(
    live: set<Pid>, backups: map<Pid, Backup>, restores: map<nat, Restore>,
    backupLock: Option<Pid>, restoreLock: Option<Owner>,
    file: Option<Pid>)  // the process named in the backup's lock file

  datatype Step =
    | Spawn(pid: Pid)
    | Die(pid: Pid)
    | Start(pid: Pid)
    | Take(pid: Pid)
    | Busy(pid: Pid)
    | BackOff(pid: Pid)
    | Publish(pid: Pid)
    | PublishFails(pid: Pid)
    | Probe(pid: Pid)
    | Refused(pid: Pid)
    | Pass(pid: Pid)
    | Finish(pid: Pid)
    | Unpublish(pid: Pid)
    | Drop(pid: Pid)
    | Lock(id: nat, pid: Pid)
    | Read(id: nat)
    | Yield(id: nat)
    | Enter(id: nat)
    | Fork(id: nat, pid: Pid)
    | Release(id: nat, pid: Pid)

  /** A live process has the ID in the file, whoever it is. */
  predicate NamesLive(s: State, named: Option<Pid>) {
    named.Some? && named.value in s.live
  }

  predicate At(s: State, pid: Pid, b: Backup) {
    pid in s.backups && s.backups[pid] == b
  }

  function Without(rs: map<nat, Restore>, pid: Pid): map<nat, Restore> {
    map id | id in rs && rs[id].holders != {pid} :: rs[id].(holders := rs[id].holders - {pid})
  }

  /** What a process leaves locked when it ends: locks its children also have open. */
  function RestoreLockAfter(s: State, pid: Pid): Option<Owner> {
    match s.restoreLock
    case None => None
    case Some(ByBackup(p)) => if p == pid then None else s.restoreLock
    case Some(ByRestore(id)) => if id in s.restores && s.restores[id].holders == {pid} then None else s.restoreLock
  }

  ghost predicate Next(s: State, step: Step, t: State) {
    match step
    case Spawn(p) => p !in s.live && t == s.(live := s.live + {p})
    case Die(p) =>
      && p in s.live
      && t == s.(live := s.live - {p}, backups := s.backups - {p}, restores := Without(s.restores, p),
                 backupLock := if s.backupLock == Some(p) then None else s.backupLock,
                 restoreLock := RestoreLockAfter(s, p))
    case Start(p) => p in s.live && p !in s.backups && t == s.(backups := s.backups[p := Trying])
    case Take(p) =>
      At(s, p, Trying) && s.backupLock == None && t == s.(backupLock := Some(p), backups := s.backups[p := Held])
    case Busy(p) => At(s, p, Trying) && s.backupLock.Some? && t == s.(backups := s.backups - {p})
    case BackOff(p) =>
      && At(s, p, Held) && s.file != Some(p) && NamesLive(s, s.file)
      && t == s.(backupLock := None, backups := s.backups - {p})
    case Publish(p) =>
      && At(s, p, Held) && !(s.file != Some(p) && NamesLive(s, s.file))
      && t == s.(file := Some(p), backups := s.backups[p := Published])
    case PublishFails(p) =>
      && At(s, p, Held) && !(s.file != Some(p) && NamesLive(s, s.file)) && t == s.(backups := s.backups[p := Leaving])
    case Probe(p) =>
      && At(s, p, Published) && s.restoreLock == None
      && t == s.(restoreLock := Some(ByBackup(p)), backups := s.backups[p := Probing])
    case Refused(p) => At(s, p, Published) && s.restoreLock.Some? && t == s.(backups := s.backups[p := Leaving])
    case Pass(p) => At(s, p, Probing) && t == s.(restoreLock := None, backups := s.backups[p := Running])
    case Finish(p) => At(s, p, Running) && t == s.(backups := s.backups[p := Leaving])
    case Unpublish(p) => At(s, p, Leaving) && t == s.(file := None, backups := s.backups[p := Dropping])
    case Drop(p) => At(s, p, Dropping) && t == s.(backupLock := None, backups := s.backups - {p})
    case Lock(id, p) =>
      && id !in s.restores && p in s.live && s.restoreLock == None
      && t == s.(restoreLock := Some(ByRestore(id)), restores := s.restores[id := Restore(Locked, {p})])
    case Read(id) =>
      && id in s.restores && s.restores[id].stage == Locked
      && t == s.(restores := s.restores[id := s.restores[id].(stage := Seen(s.file))])
    case Yield(id) =>
      && id in s.restores && s.restores[id].stage.Seen? && NamesLive(s, s.restores[id].stage.pid)
      && t == s.(restores := s.restores - {id}, restoreLock := None)
    case Enter(id) =>
      && id in s.restores && s.restores[id].stage.Seen? && !NamesLive(s, s.restores[id].stage.pid)
      && t == s.(restores := s.restores[id := s.restores[id].(stage := Inside)])
    case Fork(id, c) =>
      && id in s.restores && s.restores[id].stage == Inside && c !in s.live
      && t == s.(live := s.live + {c},
        restores := s.restores[id := s.restores[id].(holders := s.restores[id].holders + {c})])
    case Release(id, p) =>
      && id in s.restores && s.restores[id].stage == Inside && p in s.restores[id].holders
      && t == if s.restores[id].holders == {p}
              then s.(restores := s.restores - {id}, restoreLock := None)
              else s.(restores := s.restores[id := s.restores[id].(holders := s.restores[id].holders - {p})])
  }

  ghost predicate Init(s: State) {
    s.backups == map[] && s.restores == map[] && s.backupLock == None && s.restoreLock == None && s.file == None
  }

  ghost predicate Trace(s: State, steps: seq<Step>, t: State) {
    Runs.Run(Next, s, steps, t)
  }

  ghost predicate Reachable(s: State) {
    Runs.Reachable(Init, Next, s)
  }

  // ----- the invariant

  /** The backup lock and its file: one run has it, and names itself from publishing to leaving. */
  ghost predicate Locks(s: State) {
    && (forall p: Pid :: p in s.backups ==> p in s.live)
    && (forall p: Pid :: p in s.backups && s.backups[p] != Trying ==> s.backupLock == Some(p))
    && (s.backupLock.Some? ==> s.backupLock.value in s.backups && s.backups[s.backupLock.value] != Trying)
    && (forall p: Pid :: At(s, p, Published) || At(s, p, Probing) || At(s, p, Running) ==> s.file == Some(p))
    && (s.backupLock.Some? && At(s, s.backupLock.value, Dropping) ==> s.file == None)
  }

  /** The restore lock: a probing backup's, or that of the one restore with a process left. */
  ghost predicate Holds(s: State) {
    && (forall p: Pid :: At(s, p, Probing) <==> s.restoreLock == Some(ByBackup(p)))
    && (forall id: nat :: id in s.restores <==> s.restoreLock == Some(ByRestore(id)))
    && (forall id :: id in s.restores ==> s.restores[id].holders != {} && s.restores[id].holders <= s.live)
  }

  /** A restore beside a backup at work has not looked yet, or has seen it. */
  ghost predicate Watched(s: State) {
    forall id: nat, p: Pid :: id in s.restores && At(s, p, Running) ==>
      s.restores[id].stage == Locked || s.restores[id].stage == Seen(Some(p))
  }

  ghost predicate Inv(s: State) {
    Locks(s) && Holds(s) && Watched(s)
  }

  predicate OfRestore(step: Step) {
    step.Lock? || step.Read? || step.Yield? || step.Enter? || step.Fork? || step.Release?
  }

  predicate Entering(step: Step) {
    step.Start? || step.Take? || step.Busy? || step.BackOff? || step.Publish? || step.PublishFails?
  }

  predicate OfProcess(step: Step) {
    step.Spawn? || step.Die?
  }

  lemma LocksOutside(s: State, step: Step, t: State)
    requires Locks(s) && Next(s, step, t) && (OfRestore(step) || OfProcess(step))
    ensures Locks(t)
  {
    hide Without, RestoreLockAfter;
  }

  lemma LocksEntering(s: State, step: Step, t: State)
    requires Locks(s) && Next(s, step, t) && Entering(step)
    ensures Locks(t)
  {
  }

  lemma LocksLater(s: State, step: Step, t: State)
    requires Locks(s) && Next(s, step, t) && !OfRestore(step) && !OfProcess(step) && !Entering(step)
    ensures Locks(t)
  {
  }

  lemma HoldsProcess(s: State, step: Step, t: State)
    requires Locks(s) && Holds(s) && Next(s, step, t) && OfProcess(step)
    ensures Holds(t)
  {
  }

  lemma HoldsRestore(s: State, step: Step, t: State)
    requires Holds(s) && Next(s, step, t) && OfRestore(step)
    ensures Holds(t)
  {
  }

  lemma HoldsBackup(s: State, step: Step, t: State)
    requires Locks(s) && Holds(s) && Next(s, step, t) && !OfRestore(step) && !OfProcess(step)
    ensures Holds(t)
  {
  }

  lemma WatchedRestore(s: State, step: Step, t: State)
    requires Inv(s) && Next(s, step, t) && OfRestore(step)
    ensures Watched(t)
  {
  }

  lemma WatchedBackup(s: State, step: Step, t: State)
    requires Inv(s) && Next(s, step, t) && !OfRestore(step)
    ensures Watched(t)
  {
  }

  lemma InvStep(s: State, step: Step, t: State)
    requires Inv(s) && Next(s, step, t)
    ensures Inv(t)
  {
    hide Locks, Holds, Watched, Next;
    if OfRestore(step) {
      LocksOutside(s, step, t);
      HoldsRestore(s, step, t);
      WatchedRestore(s, step, t);
    } else {
      if OfProcess(step) {
        LocksOutside(s, step, t);
        HoldsProcess(s, step, t);
      } else {
        if Entering(step) { LocksEntering(s, step, t); } else { LocksLater(s, step, t); }
        HoldsBackup(s, step, t);
      }
      WatchedBackup(s, step, t);
    }
  }

  lemma ReachableInv(s: State)
    requires Reachable(s)
    ensures Inv(s)
  {
    forall a: State | Init(a) ensures Inv(a) {}
    forall a: State, step: Step, b: State | Inv(a) && Next(a, step, b) ensures Inv(b) {
      InvStep(a, step, b);
    }
    hide Inv, Next, Init;
    Runs.Everywhere(Init, Next, Inv, s);
  }

  // ----- what it is for

  /** No backup is past its probe while a restore, or a child of one, is past its guard. */
  lemma NeverBoth(s: State, p: Pid, id: nat)
    requires Reachable(s) && At(s, p, Running)
    ensures !(id in s.restores && s.restores[id].stage == Inside)
  {
    ReachableInv(s);
  }

  /** One backup past the lock, and one restore into a service directory, at a time. */
  lemma OneOfEach(s: State, p: Pid, q: Pid, id: nat, other: nat)
    requires Reachable(s)
    ensures p in s.backups && q in s.backups && s.backups[p] != Trying && s.backups[q] != Trying ==> p == q
    ensures id in s.restores && other in s.restores ==> id == other
  {
    ReachableInv(s);
  }

  /** The lock file always names the run that is past the lock and before its release. */
  lemma FileNamesTheRun(s: State, p: Pid)
    requires Reachable(s) && At(s, p, Running)
    ensures NamesLive(s, s.file) && s.file == Some(p)
  {
    ReachableInv(s);
  }

  /** A new run's steps when nothing else moves. */
  function AllClear(p: Pid): seq<Step> {
    [Start(p), Take(p), Publish(p), Probe(p), Pass(p)]
  }

  predicate Idle(s: State) {
    s.backups == map[] && s.restores == map[] && s.backupLock == None && s.restoreLock == None
  }

  /** Once every backup and restore is over, however it ended, no lock is left. */
  lemma NoLockOutlives(s: State)
    requires Reachable(s) && s.backups == map[] && s.restores == map[]
    ensures Idle(s)
  {
    ReachableInv(s);
    match s.restoreLock
    case None =>
    case Some(ByBackup(q)) => assert false;
    case Some(ByRestore(id)) => assert false;
  }

  /** From its lock file on: nothing holds the restore lock, so the probe passes. */
  lemma ProbeRuns(s: State, p: Pid, t: State)
    requires s.backups == map[p := Published] && s.restoreLock == None && t == s.(backups := map[p := Running])
    ensures Trace(s, [Probe(p), Pass(p)], t)
  {
    var d := s.(restoreLock := Some(ByBackup(p)), backups := s.backups[p := Probing]);
    assert s.backups[p := Probing] == map[p := Probing] && d.backups[p := Running] == map[p := Running];
    assert Next(s, Probe(p), d) && Next(d, Pass(p), t);
    hide Next;
    assert Trace(t, [], t);
    hide Trace;
    Runs.Prepend(Next, d, Pass(p), t, [], t);
    Runs.Prepend(Next, s, Probe(p), d, [Pass(p)] + [], t);
    assert [Probe(p)] + ([Pass(p)] + []) == [Probe(p), Pass(p)];
  }

  /** From its lock on: the file names no other live process, so it is replaced. */
  lemma PublishRuns(s: State, p: Pid, t: State)
    requires s.backups == map[p := Held] && s.restoreLock == None && !(NamesLive(s, s.file) && s.file != Some(p))
    requires t == s.(file := Some(p), backups := map[p := Running])
    ensures Trace(s, [Publish(p), Probe(p), Pass(p)], t)
  {
    var c := s.(file := Some(p), backups := s.backups[p := Published]);
    assert s.backups[p := Published] == map[p := Published] && Next(s, Publish(p), c);
    hide Next;
    ProbeRuns(c, p, t);
    hide Trace;
    Runs.Prepend(Next, s, Publish(p), c, [Probe(p), Pass(p)], t);
    assert [Publish(p)] + [Probe(p), Pass(p)] == [Publish(p), Probe(p), Pass(p)];
  }

  lemma ClearRuns(s: State, p: Pid, t: State)
    requires Idle(s) && p in s.live && !(NamesLive(s, s.file) && s.file != Some(p))
    requires t == s.(file := Some(p), backupLock := Some(p), backups := map[p := Running])
    ensures Trace(s, AllClear(p), t)
  {
    var a := s.(backups := s.backups[p := Trying]);
    var b := a.(backupLock := Some(p), backups := a.backups[p := Held]);
    assert a.backups[p := Held] == map[p := Held] && Next(s, Start(p), a) && Next(a, Take(p), b);
    hide Next;
    PublishRuns(b, p, t);
    hide Trace;
    var rest := [Publish(p), Probe(p), Pass(p)];
    Runs.Prepend(Next, a, Take(p), b, rest, t);
    Runs.Prepend(Next, s, Start(p), a, [Take(p)] + rest, t);
    assert [Start(p)] + ([Take(p)] + rest) == AllClear(p);
  }

  lemma ClearNeeds(s: State, p: Pid, t: State)
    requires Idle(s) && Trace(s, AllClear(p), t)
    ensures !(NamesLive(s, s.file) && s.file != Some(p))
  {
    var all := AllClear(p);
    var a := Runs.First(Next, s, all, t);
    var b := Runs.First(Next, a, all[1..], t);
    var c := Runs.First(Next, b, all[1..][1..], t);
  }

  /**
   A dead run never blocks the next, nor a dead restore: with none in progress a new backup
   gets to work, unless another live process has by now the ID the dead run left in the file.
   */
  lemma OnlyAReusedIdBlocks(s: State, p: Pid, t: State)
    requires Reachable(s) && s.backups == map[] && s.restores == map[] && p in s.live
    requires t == s.(file := Some(p), backupLock := Some(p), backups := map[p := Running])
    ensures Trace(s, AllClear(p), t) <==> !(NamesLive(s, s.file) && s.file != Some(p))
  {
    NoLockOutlives(s);
    hide Next, Trace;
    if !(NamesLive(s, s.file) && s.file != Some(p)) { ClearRuns(s, p, t); }
    if Trace(s, AllClear(p), t) { ClearNeeds(s, p, t); }
  }

  /** A restore's steps into a service directory when nothing else moves. */
  function WayIn(id: nat, p: Pid): seq<Step> {
    [Lock(id, p), Read(id), Enter(id)]
  }

  lemma WayInRuns(s: State, id: nat, p: Pid, t: State)
    requires Idle(s) && p in s.live && !NamesLive(s, s.file)
    requires t == s.(restoreLock := Some(ByRestore(id)), restores := map[id := Restore(Inside, {p})])
    ensures Trace(s, WayIn(id, p), t)
  {
    var a := t.(restores := map[id := Restore(Locked, {p})]);
    var b := t.(restores := map[id := Restore(Seen(s.file), {p})]);
    assert s.restores[id := Restore(Locked, {p})] == a.restores && a.restores[id := b.restores[id]] == b.restores;
    assert b.restores[id := t.restores[id]] == t.restores;
    assert Next(s, Lock(id, p), a) && Next(a, Read(id), b) && Next(b, Enter(id), t);
    hide Next;
    assert Trace(t, [], t);
    hide Trace;
    Runs.Prepend(Next, b, Enter(id), t, [], t);
    Runs.Prepend(Next, a, Read(id), b, [Enter(id)] + [], t);
    Runs.Prepend(Next, s, Lock(id, p), a, [Read(id)] + ([Enter(id)] + []), t);
    assert [Lock(id, p)] + ([Read(id)] + ([Enter(id)] + [])) == WayIn(id, p);
  }

  lemma WayInNeeds(s: State, id: nat, p: Pid, t: State)
    requires Trace(s, WayIn(id, p), t)
    ensures !NamesLive(s, s.file)
  {
    hide Next;
    var way := WayIn(id, p);
    assert way[1..] == [Read(id), Enter(id)] && way[1..][1..] == [Enter(id)];
    var a := Runs.First(Next, s, way, t);
    var b := Runs.First(Next, a, way[1..], t);
    var c := Runs.First(Next, b, way[1..][1..], t);
    SeenThenEntered(s, id, p, a, b, c);
  }

  lemma SeenThenEntered(s: State, id: nat, p: Pid, a: State, b: State, c: State)
    requires Next(s, Lock(id, p), a) && Next(a, Read(id), b) && Next(b, Enter(id), c)
    ensures !NamesLive(s, s.file)
  {
  }

  /** With none in progress a restore gets into a service directory unless a live process has the file's ID. */
  lemma RestoreGetsIn(s: State, id: nat, p: Pid, t: State)
    requires Reachable(s) && s.backups == map[] && s.restores == map[] && p in s.live
    requires t == s.(restoreLock := Some(ByRestore(id)), restores := map[id := Restore(Inside, {p})])
    ensures Trace(s, WayIn(id, p), t) <==> !NamesLive(s, s.file)
  {
    NoLockOutlives(s);
    hide Next, Trace, WayIn;
    if !NamesLive(s, s.file) { WayInRuns(s, id, p, t); }
    if Trace(s, WayIn(id, p), t) { WayInNeeds(s, id, p, t); }
  }

  /** A backup that is over, other than by dying, leaves no file, and so blocks nobody. */
  lemma FinishedLeavesNoFile(s: State, p: Pid, t: State)
    requires Reachable(s) && Next(s, Drop(p), t)
    ensures t.file == None && t.backupLock == None && p !in t.backups
  {
    ReachableInv(s);
  }
}
