/**
 The in-use registry as the file system sees it: readers that register, narrow, release or
 die, against prunes that read the directory file by file and then delete. Locks are the open
 files of live readers. Names and inodes are never reused, an unlocked file's reader is gone,
 and a directory listing is one step; everything else interleaves freely.
 */
module Registry {
  import opened Options
  import Runs
  import opened InUse

  type Name = nat
  type Inode = nat
  type Pid = nat

  datatype Snap = Snap(storage: string, id: string, rev: int)

  /** Where a reader's registration is: the name it published and the file now under it. */
  datatype Reg = Reg(name: Name, inode: Inode)

  /** A live reader: the gates it holds shared, the files it holds open and locked, its registration. */
  datatype Reader = Reader(gates: set<string>, files: set<Inode>, reg: Option<Reg>)

  /** What a prune is doing with one directory entry. */
  datatype Cur =
    | Idle
    | Trying(name: Name, tries: nat)
    | Opened(name: Name, inode: Inode, tries: nat)
    | Unlocked(name: Name, inode: Inode, tries: nat) // not locked: its reader narrowed or died
    | Stale(name: Name)                              // and still the same file: about to be removed

  datatype Phase =
    | Gated
    | Reading(todo: set<Name>, cur: Cur, seen: set<seq<Row>>)
    | Deleting(seen: set<seq<Row>>)
    | Clearing(seen: set<seq<Row>>, id: string, listed: set<int>) // forget: id listed, none in use

  /** A prune, a mirror pass or a forget: it holds its storage's gate until it leaves. */
  datatype Pruner = Pruner(storage: string, phase: Phase)

  datatype State = State(
    stored: set<Snap>,
    names: map<Name, Inode>,
    rows: map<Inode, seq<Row>>,
    used: set<Name>,
    readers: map<Pid, Reader>,
    pruners: map<Pid, Pruner>)

  const TRIES := 10

  predicate Locked(s: State, i: Inode) {
    exists p :: p in s.readers && i in s.readers[p].files
  }

  predicate SeenCovers(seen: set<seq<Row>>, storage: string, id: string, rev: int) {
    exists rows :: rows in seen && Covers(rows, storage, id, rev)
  }

  /** small covers nothing on storage that big does not. */
  ghost predicate Within(small: seq<Row>, big: seq<Row>, storage: string) {
    forall id, rev :: Covers(small, storage, id, rev) ==> Covers(big, storage, id, rev)
  }

  ghost predicate Accounted(rows: seq<Row>, seen: set<seq<Row>>, storage: string) {
    forall id, rev :: Covers(rows, storage, id, rev) ==> SeenCovers(seen, storage, id, rev)
  }

  /** What reader p's registration covers. */
  predicate RegCovers(s: State, p: Pid, snap: Snap) {
    && p in s.readers && s.readers[p].reg.Some? && s.readers[p].reg.value.inode in s.rows
    && Covers(s.rows[s.readers[p].reg.value.inode], snap.storage, snap.id, snap.rev)
  }

  datatype Step =
    // readers
    | Arrive(p: Pid)
    | TakeShared(p: Pid, storage: string)
    | DropShared(p: Pid, storage: string)
    | Create(p: Pid, i: Inode, lines: seq<Row>)       // a hidden, locked file of rows
    | Link(p: Pid, i: Inode, n: Name)                 // Hold's rename to a fresh visible name
    | Rename(p: Pid, i: Inode)                        // Narrow's rename over the old file
    | Close(p: Pid, i: Inode)                         // a file replaced, failed or released
    | Unlink(p: Pid)                                  // Release's remove
    | Die(p: Pid)
    | Publish(snap: Snap)                             // a backup or copy writes a revision
    // prunes
    | TakeExclusive(q: Pid, storage: string)
    | ListDir(q: Pid)
    | Try(q: Pid, n: Name)
    | Open(q: Pid)
    | Probe(q: Pid)
    | Stat(q: Pid)
    | Remove(q: Pid)
    | EndRead(q: Pid)
    | Delete(q: Pid, id: string, rev: int)
    | Check(q: Pid, id: string)                       // forget lists the ID, nothing listed in use
    | Clear(q: Pid)                                   // and removes its whole directory
    | Leave(q: Pid)                                   // done, failed, stopped or killed

  /** A Narrow covers nothing new, but on storages whose gate the reader holds. */
  ghost predicate Narrows(s: State, p: Pid, i: Inode)
    requires p in s.readers && s.readers[p].reg.Some?
  {
    var was := s.readers[p].reg.value.inode;
    i in s.rows && was in s.rows && forall st :: st !in s.readers[p].gates ==> Within(s.rows[i], s.rows[was], st)
  }

  /** Hold is called with the gate of every storage it names held shared. */
  ghost predicate GatesHeld(s: State, p: Pid, i: Inode)
    requires p in s.readers && i in s.rows
  {
    forall st, id, rev :: Covers(s.rows[i], st, id, rev) ==> st in s.readers[p].gates
  }

  ghost predicate Reads(s: State, q: Pid) {
    q in s.pruners && s.pruners[q].phase.Reading?
  }

  ghost predicate Enabled(s: State, step: Step) {
    match step
    case Arrive(p) => p !in s.readers
    case TakeShared(p, st) => p in s.readers && forall q :: q in s.pruners ==> s.pruners[q].storage != st
    case DropShared(p, st) => p in s.readers
    case Create(p, i, lines) => p in s.readers && i !in s.rows
    case Link(p, i, n) =>
      && p in s.readers && s.readers[p].reg.None? && i in s.readers[p].files && i in s.rows
      && i !in s.names.Values && n !in s.used && GatesHeld(s, p, i)
    case Rename(p, i) =>
      && p in s.readers && s.readers[p].reg.Some? && i in s.readers[p].files && i !in s.names.Values
      && Narrows(s, p, i)
    case Close(p, i) =>
      p in s.readers && i in s.readers[p].files && (s.readers[p].reg.Some? ==> s.readers[p].reg.value.inode != i)
    case Unlink(p) => p in s.readers && s.readers[p].reg.Some?
    case Die(p) => p in s.readers
    case Publish(snap) => true
    case TakeExclusive(q, st) =>
      && q !in s.pruners
      && (forall p :: p in s.readers ==> st !in s.readers[p].gates)
      && (forall r :: r in s.pruners ==> s.pruners[r].storage != st)
    case ListDir(q) => q in s.pruners && s.pruners[q].phase.Gated?
    case Try(q, n) => Reads(s, q) && s.pruners[q].phase.cur.Idle? && n in s.pruners[q].phase.todo
    case Open(q) => Reads(s, q) && s.pruners[q].phase.cur.Trying?
    case Probe(q) => Reads(s, q) && s.pruners[q].phase.cur.Opened? && s.pruners[q].phase.cur.inode in s.rows
    // the tenth file found changed ends the read with an error (Leave)
    case Stat(q) => Reads(s, q) && s.pruners[q].phase.cur.Unlocked? &&
      var c := s.pruners[q].phase.cur;
      c.name in s.names && s.names[c.name] != c.inode ==> c.tries + 1 < TRIES
    case Remove(q) => Reads(s, q) && s.pruners[q].phase.cur.Stale?
    case EndRead(q) => Reads(s, q) && s.pruners[q].phase.cur.Idle? && s.pruners[q].phase.todo == {}
    case Delete(q, id, rev) =>
      q in s.pruners && s.pruners[q].phase.Deleting? &&
        !SeenCovers(s.pruners[q].phase.seen, s.pruners[q].storage, id, rev)
    case Check(q, id) =>
      q in s.pruners && s.pruners[q].phase.Deleting? &&
      forall rev :: rev in RevsOf(s, s.pruners[q].storage, id) ==>
        !SeenCovers(s.pruners[q].phase.seen, s.pruners[q].storage, id, rev)
    case Clear(q) => q in s.pruners && s.pruners[q].phase.Clearing?
    case Leave(q) => q in s.pruners
  }

  function RevsOf(s: State, storage: string, id: string): set<int> {
    set snap | snap in s.stored && snap.storage == storage && snap.id == id :: snap.rev
  }

  function SetReader(s: State, p: Pid, r: Reader): State {
    s.(readers := s.readers[p := r])
  }

  function SetPhase(s: State, q: Pid, ph: Phase): State
    requires q in s.pruners
  {
    s.(pruners := s.pruners[q := s.pruners[q].(phase := ph)])
  }

  /** Entry n is dealt with; more is what its file, read live, holds. */
  function Finish(ph: Phase, n: Name, more: set<seq<Row>>): Phase
    requires ph.Reading?
  {
    Reading(ph.todo - {n}, Idle, ph.seen + more)
  }

  function Apply(s: State, step: Step): State
    requires Enabled(s, step)
  {
    match step
    case Arrive(p) => SetReader(s, p, Reader({}, {}, None))
    case TakeShared(p, st) => SetReader(s, p, s.readers[p].(gates := s.readers[p].gates + {st}))
    case DropShared(p, st) => SetReader(s, p, s.readers[p].(gates := s.readers[p].gates - {st}))
    case Create(p, i, lines) =>
      SetReader(s, p, s.readers[p].(files := s.readers[p].files + {i})).(rows := s.rows[i := lines])
    case Link(p, i, n) =>
      SetReader(s, p, s.readers[p].(reg := Some(Reg(n, i)))).(names := s.names[n := i], used := s.used + {n})
    case Rename(p, i) =>
      var n := s.readers[p].reg.value.name;
      SetReader(s, p, s.readers[p].(reg := Some(Reg(n, i)))).(names := s.names[n := i])
    case Close(p, i) => SetReader(s, p, s.readers[p].(files := s.readers[p].files - {i}))
    case Unlink(p) =>
      SetReader(s, p, s.readers[p].(reg := None)).(names := s.names - {s.readers[p].reg.value.name})
    case Die(p) => s.(readers := s.readers - {p})
    case Publish(snap) => s.(stored := s.stored + {snap})
    case TakeExclusive(q, st) => s.(pruners := s.pruners[q := Pruner(st, Gated)])
    case ListDir(q) => SetPhase(s, q, Reading(s.names.Keys, Idle, {}))
    case Try(q, n) => SetPhase(s, q, s.pruners[q].phase.(cur := Trying(n, 0)))
    case Open(q) =>
      var ph := s.pruners[q].phase;
      var n := ph.cur.name;
      SetPhase(s, q, if n in s.names then ph.(cur := Opened(n, s.names[n], ph.cur.tries)) else Finish(ph, n, {}))
    case Probe(q) =>
      var ph := s.pruners[q].phase;
      var Opened(n, i, tries) := ph.cur;
      SetPhase(s, q, if Locked(s, i) then Finish(ph, n, {s.rows[i]}) else ph.(cur := Unlocked(n, i, tries)))
    case Stat(q) =>
      var ph := s.pruners[q].phase;
      var Unlocked(n, i, tries) := ph.cur;
      SetPhase(s, q,
        if n !in s.names then Finish(ph, n, {})
        else if s.names[n] == i then ph.(cur := Stale(n))
        else ph.(cur := Trying(n, tries + 1)))
    case Remove(q) =>
      var ph := s.pruners[q].phase;
      SetPhase(s, q, Finish(ph, ph.cur.name, {})).(names := s.names - {ph.cur.name})
    case EndRead(q) => SetPhase(s, q, Deleting(s.pruners[q].phase.seen))
    case Delete(q, id, rev) => s.(stored := s.stored - {Snap(s.pruners[q].storage, id, rev)})
    case Check(q, id) =>
      SetPhase(s, q, Clearing(s.pruners[q].phase.seen, id, RevsOf(s, s.pruners[q].storage, id)))
    case Clear(q) =>
      var st, id := s.pruners[q].storage, s.pruners[q].phase.id;
      SetPhase(s, q, Deleting(s.pruners[q].phase.seen))
        .(stored := set snap | snap in s.stored && !(snap.storage == st && snap.id == id))
    case Leave(q) => s.(pruners := s.pruners - {q})
  }

  // ----- the invariant

  ghost predicate ReaderOk(s: State, p: Pid)
    requires p in s.readers
  {
    var r := s.readers[p];
    && (forall i :: i in r.files ==> i in s.rows)
    && (r.reg.Some? ==>
      && r.reg.value.inode in r.files
      && r.reg.value.name in s.names && s.names[r.reg.value.name] == r.reg.value.inode
      && r.reg.value.name in s.used)
  }

  predicate Registered(s: State, p: Pid) {
    p in s.readers && s.readers[p].reg.Some?
  }

  ghost predicate Files(s: State) {
    && (forall p :: p in s.readers ==> ReaderOk(s, p))
    && (forall n :: n in s.names ==> n in s.used && s.names[n] in s.rows)
    && (forall p, q, i :: p in s.readers && q in s.readers && i in s.readers[p].files && i in s.readers[q].files ==>
      p == q)
    && (forall p, q | Registered(s, p) && Registered(s, q) ::
          s.readers[p].reg.value.name == s.readers[q].reg.value.name ==> p == q)
  }

  ghost predicate Gates(s: State) {
    && (forall p, q :: p in s.readers && q in s.pruners ==> s.pruners[q].storage !in s.readers[p].gates)
    && (forall q, r :: q in s.pruners && r in s.pruners && s.pruners[q].storage == s.pruners[r].storage ==> q == r)
  }

  /** Reader p's registration is one prune q has yet to come to, or has read and accounted for. */
  ghost predicate Noticed(s: State, p: Pid, q: Pid)
    requires p in s.readers && q in s.pruners && s.readers[p].reg.Some? && s.readers[p].reg.value.inode in s.rows
  {
    var Reg(name, inode) := s.readers[p].reg.value;
    var st := s.pruners[q].storage;
    match s.pruners[q].phase
    case Gated => true
    case Reading(todo, cur, seen) =>
      (name in todo || Accounted(s.rows[inode], seen, st)) && CurOk(s, cur, name, inode, st)
    case Deleting(seen) => Accounted(s.rows[inode], seen, st)
    case Clearing(seen, id, listed) =>
      Accounted(s.rows[inode], seen, st) && forall rev :: rev in listed ==> !Covers(s.rows[inode], st, id, rev)
  }

  /** The file a prune has open under a live registration's name is it, or one it has superseded. */
  ghost predicate CurOk(s: State, cur: Cur, name: Name, inode: Inode, st: string)
    requires inode in s.rows
  {
    match cur
    case Idle => true
    case Trying(n, _) => true
    case Opened(n, i, _) => n == name ==> i in s.rows && Within(s.rows[inode], s.rows[i], st)
    case Unlocked(n, i, _) => n == name ==> i != inode
    case Stale(n) => n != name
  }

  ghost predicate CurKnown(s: State, q: Pid)
    requires q in s.pruners
  {
    match s.pruners[q].phase
    case Gated => true
    case Deleting(_) => true
    case Clearing(_, _, _) => true
    case Reading(todo, cur, seen) =>
      match cur
      case Idle => true
      case Trying(n, _) => n in s.used
      case Opened(n, i, _) => n in s.used && i in s.rows
      case Unlocked(n, i, _) => n in s.used && i in s.rows && !Locked(s, i)
      case Stale(n) => n in s.used
  }

  ghost predicate Inv(s: State) {
    && Files(s) && Gates(s)
    && (forall q :: q in s.pruners ==>
      CurKnown(s, q) && (s.pruners[q].phase.Reading? ==> s.pruners[q].phase.todo <= s.used))
    && (forall p, q :: p in s.readers && q in s.pruners && s.readers[p].reg.Some? ==> Noticed(s, p, q))
  }

  const INIT := State({}, map[], map[], {}, map[], map[])

  lemma InitInv()
    ensures Inv(INIT)
  {
  }

  // ----- one step keeps it

  lemma AccountedVia(rows: seq<Row>, read: seq<Row>, seen: set<seq<Row>>, st: string)
    requires Within(rows, read, st) && read in seen
    ensures Accounted(rows, seen, st)
  {
  }

  lemma AccountedMore(rows: seq<Row>, seen: set<seq<Row>>, more: set<seq<Row>>, st: string)
    requires Accounted(rows, seen, st)
    ensures Accounted(rows, seen + more, st)
  {
    forall id, rev | SeenCovers(seen, st, id, rev) ensures SeenCovers(seen + more, st, id, rev) {
      var r :| r in seen && Covers(r, st, id, rev);
      assert r in seen + more;
    }
  }

  lemma WithinAll(a: seq<Row>, b: seq<Row>, c: seq<Row>, st: string)
    requires Within(a, b, st)
    ensures Within(a, a, st)
    ensures Within(b, c, st) ==> Within(a, c, st)
  {
  }

  lemma AccountedNothing(s: State, p: Pid, i: Inode, seen: set<seq<Row>>, st: string)
    requires p in s.readers && i in s.rows && GatesHeld(s, p, i) && st !in s.readers[p].gates
    ensures Accounted(s.rows[i], seen, st)
  {
  }

  /** What a prune removes is no live reader's. */
  lemma RemoveSpares(s: State, q: Pid, p: Pid)
    requires Inv(s) && Enabled(s, Remove(q)) && Registered(s, p)
    ensures s.readers[p].reg.value.name != s.pruners[q].phase.cur.name
  {
    hide Covers, Accounted, Within, SeenCovers;
    assert Noticed(s, p, q);
  }

  lemma CoversNothing(s: State, p: Pid, i: Inode, st: string)
    requires p in s.readers && i in s.rows && GatesHeld(s, p, i) && st !in s.readers[p].gates
    ensures forall id, rev :: !Covers(s.rows[i], st, id, rev)
  {
  }

  /** A new set of open files or gates for one reader, its registration as it was. */
  lemma ReaderFiles(s: State, t: State, p: Pid)
    requires Files(s) && p in s.readers && p in t.readers && t.readers == s.readers[p := t.readers[p]]
    requires t.readers[p].reg == s.readers[p].reg
    requires t.names == s.names && t.used == s.used
    requires forall i :: i in s.rows ==> i in t.rows
    requires forall i :: i in t.readers[p].files ==> i in t.rows && (i in s.readers[p].files || i !in s.rows)
    requires t.readers[p].reg.Some? ==> t.readers[p].reg.value.inode in t.readers[p].files
    ensures Files(t)
  {
    forall q | q in t.readers ensures ReaderOk(t, q) {
      assert ReaderOk(s, q);
    }
    forall q, r, i | q in t.readers && r in t.readers && i in t.readers[q].files && i in t.readers[r].files
      ensures q == r
    {
      assert ReaderOk(s, q) && ReaderOk(s, r);
    }
    forall q, r | Registered(t, q) && Registered(t, r) && t.readers[q].reg.value.name == t.readers[r].reg.value.name
      ensures q == r
    {
      assert Registered(s, q) && Registered(s, r);
    }
  }

  lemma PointFiles(s: State, p: Pid, i: Inode, n: Name)
    requires Files(s) && p in s.readers && i in s.readers[p].files && i in s.rows
    requires if s.readers[p].reg.Some? then n == s.readers[p].reg.value.name else n !in s.used
    ensures var t := SetReader(s, p, s.readers[p].(reg := Some(Reg(n, i))));
      Files(t.(names := s.names[n := i], used := s.used + {n}))
  {
    var t := SetReader(s, p, s.readers[p].(reg := Some(Reg(n, i)))).(names := s.names[n := i], used := s.used + {n});
    assert ReaderOk(s, p);
    forall q | q in t.readers ensures ReaderOk(t, q) {
      assert ReaderOk(s, q);
      if q != p && s.readers[q].reg.Some? {
        assert Registered(s, q);
        assert Registered(s, p) ==> s.readers[q].reg.value.name != n;
      }
    }
    forall q, r | Registered(t, q) && Registered(t, r) && t.readers[q].reg.value.name == t.readers[r].reg.value.name
      ensures q == r
    {
      assert q != p ==> Registered(s, q) && ReaderOk(s, q);
      assert r != p ==> Registered(s, r) && ReaderOk(s, r);
      assert s.readers[p].reg.Some? ==> Registered(s, p);
    }
  }

  /** Fewer readers, or one no longer registered, and a name gone that no one left is registered under. */
  lemma FewerFiles(s: State, t: State)
    requires Files(s) && t.rows == s.rows && t.used == s.used
    requires forall p :: p in t.readers ==> p in s.readers && t.readers[p].files == s.readers[p].files
    requires forall p :: p in t.readers ==> t.readers[p].reg.None? || t.readers[p].reg == s.readers[p].reg
    requires forall n :: n in t.names ==> n in s.names && t.names[n] == s.names[n]
    requires forall p :: Registered(t, p) ==> t.readers[p].reg.value.name in t.names
    ensures Files(t)
  {
    forall p | p in t.readers ensures ReaderOk(t, p) {
      assert ReaderOk(s, p);
      assert t.readers[p].reg.Some? ==> Registered(t, p);
    }
    forall q, r | Registered(t, q) && Registered(t, r) && t.readers[q].reg.value.name == t.readers[r].reg.value.name
      ensures q == r
    {
      assert Registered(s, q) && Registered(s, r);
    }
  }

  lemma UnlinkFiles(s: State, p: Pid)
    requires Inv(s) && Registered(s, p)
    ensures Files(Apply(s, Unlink(p)))
  {
    hide Covers, Accounted, Within, SeenCovers, Noticed, CurKnown, Gates;
    var t := Apply(s, Unlink(p));
    forall q | Registered(t, q) ensures t.readers[q].reg.value.name in t.names {
      assert ReaderOk(s, q);
      assert Registered(s, q);
    }
    FewerFiles(s, t);
  }

  lemma RemoveFiles(s: State, q: Pid)
    requires Inv(s) && Enabled(s, Remove(q))
    ensures Files(Apply(s, Remove(q)))
  {
    hide Covers, Accounted, Within, SeenCovers, Noticed, CurKnown, Gates;
    var t := Apply(s, Remove(q));
    forall p | Registered(t, p) ensures t.readers[p].reg.value.name in t.names {
      assert ReaderOk(s, p);
      RemoveSpares(s, q, p);
    }
    FewerFiles(s, t);
  }

  lemma ArriveFiles(s: State, p: Pid)
    requires Files(s) && p !in s.readers
    ensures Files(SetReader(s, p, Reader({}, {}, None)))
  {
    var t := SetReader(s, p, Reader({}, {}, None));
    forall q | q in t.readers ensures ReaderOk(t, q) {
      assert q != p ==> ReaderOk(s, q);
    }
    forall q, r | Registered(t, q) && Registered(t, r) && t.readers[q].reg.value.name == t.readers[r].reg.value.name
      ensures q == r
    {
      assert Registered(s, q) && Registered(s, r);
    }
  }

  lemma SameFiles(s: State, t: State)
    requires Files(s) && t.readers == s.readers && t.names == s.names && t.rows == s.rows && t.used == s.used
    ensures Files(t)
  {
    forall p | p in t.readers ensures ReaderOk(t, p) {
      assert ReaderOk(s, p);
    }
    forall q, r | Registered(t, q) && Registered(t, r) && t.readers[q].reg.value.name == t.readers[r].reg.value.name
      ensures q == r
    {
      assert Registered(s, q) && Registered(s, r);
    }
  }

  predicate OfFiles(step: Step) {
    step.TakeShared? || step.DropShared? || step.Create? || step.Close? || step.Link? || step.Rename?
  }

  /** A live reader's steps on its gates and files. */
  lemma FilesReader(s: State, step: Step)
    requires Inv(s) && Enabled(s, step) && OfFiles(step)
    ensures Files(Apply(s, step))
  {
    hide Covers, Accounted, Within, SeenCovers, Noticed, CurKnown, Gates, Narrows, GatesHeld, Files;
    assert Files(s);
    FilesOf(s, step.p);
    var t := Apply(s, step);
    if step.Link? {
      PointFiles(s, step.p, step.i, step.n);
    } else if step.Rename? {
      var n := s.readers[step.p].reg.value.name;
      PointFiles(s, step.p, step.i, n);
      assert s.used + {n} == s.used;
    } else {
      ReaderFiles(s, t, step.p);
    }
  }

  lemma FilesOther(s: State, step: Step)
    requires Inv(s) && Enabled(s, step) && !OfFiles(step)
    ensures Files(Apply(s, step))
  {
    hide Covers, Accounted, Within, SeenCovers, Noticed, CurKnown, Gates, Narrows, GatesHeld, Files;
    assert Files(s);
    var t := Apply(s, step);
    match step {
      case Arrive(p) => ArriveFiles(s, p);
      case Unlink(p) => UnlinkFiles(s, p);
      case Die(p) =>
        forall q | Registered(t, q) ensures t.readers[q].reg.value.name in t.names {
          FilesOf(s, q);
        }
        FewerFiles(s, t);
      case Remove(q) => RemoveFiles(s, q);
      case _ => SameFiles(s, t);
    }
  }

  lemma FilesStep(s: State, step: Step)
    requires Inv(s) && Enabled(s, step)
    ensures Files(Apply(s, step))
  {
    hide *;
    if OfFiles(step) { FilesReader(s, step); } else { FilesOther(s, step); }
  }

  lemma FilesOf(s: State, p: Pid)
    requires Files(s) && p in s.readers
    ensures ReaderOk(s, p)
  {
  }

  /** Gates held by readers and prunes there were before. */
  lemma FewerGates(s: State, t: State)
    requires Gates(s)
    requires forall p :: p in t.readers ==>
      t.readers[p].gates == {} || (p in s.readers && t.readers[p].gates <= s.readers[p].gates)
    requires forall q :: q in t.pruners ==> q in s.pruners && t.pruners[q].storage == s.pruners[q].storage
    ensures Gates(t)
  {
  }

  /** What every step leaves: files keep their rows, names stay used, nothing unlocked is locked. */
  lemma Frame(s: State, step: Step)
    requires Enabled(s, step)
    ensures var t := Apply(s, step);
      s.used <= t.used && forall i :: i in s.rows ==> i in t.rows && t.rows[i] == s.rows[i]
  {
    hide SeenCovers, Covers, Within, Narrows, GatesHeld, Locked;
  }

  lemma LocksFall(s: State, step: Step, i: Inode)
    requires Enabled(s, step) && i in s.rows && Locked(Apply(s, step), i)
    ensures Locked(s, i)
  {
    hide SeenCovers, Covers, Within, Narrows, GatesHeld;
    var t := Apply(s, step);
    var p :| p in t.readers && i in t.readers[p].files;
    assert p in s.readers && i in s.readers[p].files;
  }

  lemma GatesFall(s: State, step: Step, p: Pid)
    requires Enabled(s, step) && !step.TakeShared? && p in Apply(s, step).readers
    ensures var t := Apply(s, step);
      t.readers[p].gates == {} || (p in s.readers && t.readers[p].gates <= s.readers[p].gates)
  {
    hide SeenCovers, Covers, Within, Narrows, GatesHeld, Locked;
  }

  lemma PrunersFall(s: State, step: Step, q: Pid)
    requires Enabled(s, step) && !step.TakeExclusive? && q in Apply(s, step).pruners
    ensures q in s.pruners && Apply(s, step).pruners[q].storage == s.pruners[q].storage
  {
    hide SeenCovers, Covers, Within, Narrows, GatesHeld, Locked;
  }

  lemma GatesStep(s: State, step: Step)
    requires Inv(s) && Enabled(s, step)
    ensures Gates(Apply(s, step))
  {
    hide Covers, Accounted, Within, SeenCovers, Noticed, CurKnown, Files, Narrows, GatesHeld, Gates, Locked;
    assert Gates(s);
    if step.TakeShared? {
      SharedGates(s, step.p, step.storage);
    } else if step.TakeExclusive? {
      ExclusiveGates(s, step.q, step.storage);
    } else {
      hide Apply, Enabled;
      var t := Apply(s, step);
      forall p | p in t.readers
        ensures t.readers[p].gates == {} || (p in s.readers && t.readers[p].gates <= s.readers[p].gates)
      {
        GatesFall(s, step, p);
      }
      forall q | q in t.pruners ensures q in s.pruners && t.pruners[q].storage == s.pruners[q].storage {
        PrunersFall(s, step, q);
      }
      FewerGates(s, t);
    }
  }

  lemma SharedGates(s: State, p: Pid, st: string)
    requires Gates(s) && Enabled(s, TakeShared(p, st))
    ensures Gates(Apply(s, TakeShared(p, st)))
  {
  }

  lemma ExclusiveGates(s: State, q: Pid, st: string)
    requires Gates(s) && Enabled(s, TakeExclusive(q, st))
    ensures Gates(Apply(s, TakeExclusive(q, st)))
  {
  }

  ghost predicate Known(s: State, q: Pid)
    requires q in s.pruners
  {
    CurKnown(s, q) && (s.pruners[q].phase.Reading? ==> s.pruners[q].phase.todo <= s.used)
  }

  /** A prune's own reading stays sound while others step: nothing unlocked is locked again. */
  lemma OthersKnown(s: State, step: Step, q: Pid)
    requires Inv(s) && Enabled(s, step) && q in s.pruners && q in Apply(s, step).pruners
    requires Apply(s, step).pruners[q] == s.pruners[q]
    ensures Known(Apply(s, step), q)
  {
    hide Covers, Accounted, Within, SeenCovers, Noticed, Narrows, GatesHeld, Gates, Apply, Enabled;
    var t := Apply(s, step);
    assert Known(s, q);
    Frame(s, step);
    forall i | i in s.rows && Locked(t, i) ensures Locked(s, i) {
      LocksFall(s, step, i);
    }
  }

  /** The prune a step is by. */
  predicate By(step: Step, q: Pid) {
    match step
    case TakeExclusive(r, _) => r == q
    case ListDir(r) => r == q
    case Try(r, _) => r == q
    case Open(r) => r == q
    case Probe(r) => r == q
    case Stat(r) => r == q
    case Remove(r) => r == q
    case EndRead(r) => r == q
    case Check(r, _) => r == q
    case Clear(r) => r == q
    case _ => false
  }

  lemma OwnKnown(s: State, step: Step, q: Pid)
    requires Inv(s) && Enabled(s, step) && By(step, q)
    ensures q in Apply(s, step).pruners && Known(Apply(s, step), q)
  {
    hide Covers, Accounted, Within, SeenCovers, Noticed, Narrows, GatesHeld, Gates;
    if q in s.pruners {
      assert Known(s, q);
    }
  }

  lemma KnownStep(s: State, step: Step)
    requires Inv(s) && Enabled(s, step)
    ensures forall q :: q in Apply(s, step).pruners ==> Known(Apply(s, step), q)
  {
    hide Covers, Accounted, Within, SeenCovers, Noticed, Narrows, GatesHeld, Gates, Files, Known, CurKnown;
    var t := Apply(s, step);
    forall q | q in t.pruners ensures Known(t, q) {
      if By(step, q) {
        OwnKnown(s, step, q);
      } else {
        OthersKnown(s, step, q);
      }
    }
  }

  // ----- registrations stay noticed

  /** Nothing about p's registration or q's reading changed. */
  lemma NoticedSame(s: State, t: State, p: Pid, q: Pid)
    requires Registered(s, p) && q in s.pruners && Registered(t, p) && q in t.pruners
    requires s.readers[p].reg == t.readers[p].reg && s.pruners[q] == t.pruners[q]
    requires s.readers[p].reg.value.inode in s.rows && forall i :: i in s.rows ==> i in t.rows && t.rows[i] == s.rows[i]
    requires Noticed(s, p, q)
    ensures Noticed(t, p, q)
  {
    hide Covers, Accounted, Within, SeenCovers;
  }

  /** A new registration is on storages whose gate no prune holds. */
  lemma NoticedLink(s: State, p: Pid, i: Inode, n: Name, q: Pid)
    requires Inv(s) && Enabled(s, Link(p, i, n)) && q in s.pruners
    ensures Noticed(Apply(s, Link(p, i, n)), p, q)
  {
    hide Covers, Within, SeenCovers, Accounted, GatesHeld;
    var st := s.pruners[q].storage;
    match s.pruners[q].phase {
      case Gated =>
      case Reading(todo, cur, seen) =>
        AccountedNothing(s, p, i, seen, st);
        assert CurKnown(s, q);
      case Deleting(seen) =>
        AccountedNothing(s, p, i, seen, st);
      case Clearing(seen, id, listed) =>
        AccountedNothing(s, p, i, seen, st);
        CoversNothing(s, p, i, st);
    }
  }

  /** A narrowed registration covers less on any storage being pruned. */
  lemma NoticedRename(s: State, p: Pid, i: Inode, q: Pid)
    requires Inv(s) && Enabled(s, Rename(p, i)) && q in s.pruners
    ensures Noticed(Apply(s, Rename(p, i)), p, q)
  {
    hide Covers, SeenCovers;
    var st := s.pruners[q].storage;
    var was := s.readers[p].reg.value.inode;
    assert Noticed(s, p, q) && CurKnown(s, q) && ReaderOk(s, p);
    assert Within(s.rows[i], s.rows[was], st);
    match s.pruners[q].phase {
      case Gated =>
      case Reading(todo, cur, seen) =>
        assert cur.Opened? && cur.name == s.readers[p].reg.value.name ==> Within(s.rows[i], s.rows[cur.inode], st);
        assert cur.Unlocked? ==> cur.inode != i by {
          assert i in s.readers[p].files;
        }
      case Deleting(seen) =>
      case Clearing(seen, id, listed) =>
    }
  }

  /** A file read live accounts for the registration under its name. */
  lemma NoticedProbe(s: State, p: Pid, q: Pid)
    requires Inv(s) && Enabled(s, Probe(q)) && Registered(s, p)
    ensures Noticed(Apply(s, Probe(q)), p, q)
  {
    hide Covers, SeenCovers, Accounted, Within;
    var Reg(name, inode) := s.readers[p].reg.value;
    assert ReaderOk(s, p) && Noticed(s, p, q) && CurKnown(s, q);
    var st := s.pruners[q].storage;
    var Reading(todo, cur, seen) := s.pruners[q].phase;
    var read := s.rows[cur.inode];
    if Locked(s, cur.inode) {
      if name == cur.name {
        AccountedVia(s.rows[inode], read, seen + {read}, st);
      } else if name !in todo {
        AccountedMore(s.rows[inode], seen, {read}, st);
      }
    }
  }

  lemma NoticedOpen(s: State, p: Pid, q: Pid)
    requires Inv(s) && Enabled(s, Open(q)) && Registered(s, p)
    ensures Noticed(Apply(s, Open(q)), p, q)
  {
    hide Covers, SeenCovers, Accounted, Within;
    var Reg(name, inode) := s.readers[p].reg.value;
    assert ReaderOk(s, p) && Noticed(s, p, q) && CurKnown(s, q);
    WithinAll(s.rows[inode], s.rows[inode], [], s.pruners[q].storage);
    assert s.pruners[q].phase.seen + {} == s.pruners[q].phase.seen;
  }

  lemma NoticedStat(s: State, step: Step, p: Pid, q: Pid)
    requires Inv(s) && (step == Stat(q) || step == Remove(q)) && Enabled(s, step) && Registered(s, p)
    ensures Noticed(Apply(s, step), p, q)
  {
    hide Covers, SeenCovers, Accounted, Within;
    assert ReaderOk(s, p) && Noticed(s, p, q) && CurKnown(s, q);
    assert s.pruners[q].phase.seen + {} == s.pruners[q].phase.seen;
  }

  /** Prune q's own step accounts for what it finishes with. */
  lemma NoticedOwn(s: State, step: Step, p: Pid, q: Pid)
    requires Inv(s) && Enabled(s, step) && By(step, q) && Registered(s, p)
    ensures Noticed(Apply(s, step), p, q)
  {
    hide Covers, SeenCovers, Accounted, Within;
    assert ReaderOk(s, p);
    match step {
      case Probe(_) => NoticedProbe(s, p, q);
      case Open(_) => NoticedOpen(s, p, q);
      case Stat(_) => NoticedStat(s, step, p, q);
      case Remove(_) => NoticedStat(s, step, p, q);
      case Check(_, id) => assert Noticed(s, p, q); NoneListed(s, p, q, id);
      case TakeExclusive(_, _) =>
      case ListDir(_) =>
      case Try(_, _) => assert Noticed(s, p, q);
      case EndRead(_) => assert Noticed(s, p, q);
      case Clear(_) => assert Noticed(s, p, q);
      case _ =>
    }
  }

  /** What forget lists without finding it in use, no registration covers. */
  lemma NoneListed(s: State, p: Pid, q: Pid, id: string)
    requires Inv(s) && Enabled(s, Check(q, id)) && Registered(s, p)
    ensures var i := s.readers[p].reg.value.inode;
      i in s.rows && forall rev :: rev in RevsOf(s, s.pruners[q].storage, id) ==>
        !Covers(s.rows[i], s.pruners[q].storage, id, rev)
  {
    hide Covers, SeenCovers;
    assert ReaderOk(s, p) && Noticed(s, p, q);
  }

  lemma NoticedOthers(s: State, step: Step, p: Pid, q: Pid)
    requires Inv(s) && Enabled(s, step) && Files(Apply(s, step))
    requires Registered(Apply(s, step), p) && q in Apply(s, step).pruners && !By(step, q)
    requires !(step.Link? && step.p == p) && !(step.Rename? && step.p == p)
    ensures Noticed(Apply(s, step), p, q)
  {
    hide Covers, SeenCovers, Accounted, Within, Noticed, CurKnown, Gates, GatesHeld, Narrows;
    var t := Apply(s, step);
    assert ReaderOk(t, p);
    hide Apply, Enabled;
    WasRegistered(s, step, p, q);
    assert ReaderOk(s, p) && Noticed(s, p, q);
    Frame(s, step);
    NoticedSame(s, t, p, q);
  }

  lemma WasRegistered(s: State, step: Step, p: Pid, q: Pid)
    requires Enabled(s, step) && Registered(Apply(s, step), p) && q in Apply(s, step).pruners && !By(step, q)
    requires !(step.Link? && step.p == p) && !(step.Rename? && step.p == p)
    ensures Registered(s, p) && Apply(s, step).readers[p].reg == s.readers[p].reg
    ensures q in s.pruners && Apply(s, step).pruners[q] == s.pruners[q]
  {
    hide Covers, SeenCovers, Narrows, GatesHeld, Locked;
  }

  lemma NoticedStep(s: State, step: Step)
    requires Inv(s) && Enabled(s, step) && Files(Apply(s, step))
    ensures forall p, q :: Registered(Apply(s, step), p) && q in Apply(s, step).pruners ==>
      Noticed(Apply(s, step), p, q)
  {
    hide Covers, SeenCovers, Accounted, Within, Noticed, CurKnown, Gates, GatesHeld, Narrows;
    var t := Apply(s, step);
    forall p, q | Registered(t, p) && q in t.pruners ensures Noticed(t, p, q) {
      assert ReaderOk(t, p);
      if By(step, q) {
        NoticedOwn(s, step, p, q);
      } else if step.Link? && step.p == p {
        NoticedLink(s, p, step.i, step.n, q);
      } else if step.Rename? && step.p == p {
        NoticedRename(s, p, step.i, q);
      } else {
        NoticedOthers(s, step, p, q);
      }
    }
  }

  lemma InvStep(s: State, step: Step)
    requires Inv(s) && Enabled(s, step)
    ensures Inv(Apply(s, step))
  {
    hide Covers, SeenCovers, Accounted, Within, Noticed, CurKnown, Gates, GatesHeld, Narrows, Files;
    FilesStep(s, step);
    GatesStep(s, step);
    KnownStep(s, step);
    NoticedStep(s, step);
  }

  // ----- whole runs

  predicate Init(s: State) {
    s == INIT
  }

  ghost predicate Next(s: State, step: Step, t: State) {
    Enabled(s, step) && t == Apply(s, step)
  }

  ghost predicate Reachable(s: State) {
    Runs.Reachable(Init, Next, s)
  }

  lemma ReachableInv(s: State)
    requires Reachable(s)
    ensures Inv(s)
  {
    InitInv();
    hide Inv, Enabled, Apply;
    forall a: State, step: Step, b: State | Inv(a) && Next(a, step, b) ensures Inv(b) {
      InvStep(a, step);
    }
    Runs.Everywhere(Init, Next, Inv, s);
  }

  /** Forget is about to clear an ID that gained snap after it listed it. */
  ghost predicate Exposed(s: State, snap: Snap) {
    exists q :: q in s.pruners && ExposedTo(s, q, snap)
  }

  ghost predicate ExposedTo(s: State, q: Pid, snap: Snap)
    requires q in s.pruners
  {
    var pr := s.pruners[q];
    pr.phase.Clearing? && pr.storage == snap.storage && pr.phase.id == snap.id && snap.rev !in pr.phase.listed
  }

  /**
   A live registration's revisions: no step of any run deletes one, but a forget's removal of an
   ID that gained it after the forget's own listing.
   */
  lemma NoRevisionInUseDeleted(s: State, step: Step, p: Pid, snap: Snap)
    requires Reachable(s) && Enabled(s, step)
    requires RegCovers(s, p, snap) && snap in s.stored
    ensures snap in Apply(s, step).stored <==> !(step.Clear? && ExposedTo(s, step.q, snap))
  {
    ReachableInv(s);
    if step.Delete? || step.Clear? {
      assert Noticed(s, p, step.q);
    }
  }

  /** In every state along a run, p's registration covers snap. */
  ghost predicate CoversThroughout(s: State, steps: seq<Step>, p: Pid, snap: Snap)
    decreases |steps|
  {
    RegCovers(s, p, snap) && (steps != [] ==>
      Enabled(s, steps[0]) && CoversThroughout(Apply(s, steps[0]), steps[1..], p, snap))
  }

  lemma {:induction false} Survives(s: State, steps: seq<Step>, t: State, p: Pid, snap: Snap)
    requires Inv(s) && Runs.Run(Next, s, steps, t) && CoversThroughout(s, steps, p, snap)
    requires snap in s.stored && !Exposed(s, snap)
    ensures snap in t.stored && !Exposed(t, snap)
    decreases |steps|
  {
    if steps != [] {
      var m := Runs.First(Next, s, steps, t);
      InvStep(s, steps[0]);
      StaysStored(s, steps[0], p, snap);
      StaysHidden(s, steps[0], p, snap);
      Survives(m, steps[1..], t, p, snap);
    }
  }

  lemma StaysStored(s: State, step: Step, p: Pid, snap: Snap)
    requires Inv(s) && Enabled(s, step) && RegCovers(s, p, snap) && snap in s.stored && !Exposed(s, snap)
    ensures snap in Apply(s, step).stored
  {
    hide Covers, SeenCovers, Within, Narrows, GatesHeld, Locked, CurOk, CurKnown, Files, Gates;
    if step.Delete? || step.Clear? {
      assert Noticed(s, p, step.q);
      assert !ExposedTo(s, step.q, snap);
    }
  }

  lemma StaysHidden(s: State, step: Step, p: Pid, snap: Snap)
    requires Inv(s) && Enabled(s, step) && RegCovers(s, p, snap) && snap in s.stored && !Exposed(s, snap)
    ensures !Exposed(Apply(s, step), snap)
  {
    hide Covers, SeenCovers, Within, Narrows, GatesHeld, Locked, Inv;
    var t := Apply(s, step);
    forall q | q in t.pruners ensures !ExposedTo(t, q, snap) {
      assert q in s.pruners ==> !ExposedTo(s, q, snap);
    }
  }

  /**
   A revision present and covered while its reader holds the storage's gate, as it does when it
   registers, is there for as long as the registration covers it.
   */
  lemma RegisteredRevisionSurvives(s: State, steps: seq<Step>, t: State, p: Pid, snap: Snap)
    requires Reachable(s) && p in s.readers && snap.storage in s.readers[p].gates
    requires RegCovers(s, p, snap) && snap in s.stored
    requires Runs.Run(Next, s, steps, t) && CoversThroughout(s, steps, p, snap)
    ensures snap in t.stored
  {
    ReachableInv(s);
    assert !Exposed(s, snap);
    Survives(s, steps, t, p, snap);
  }

  /**
   While a prune reads the entry of a live registration: the entry is there and is the current
   file; a file found unlocked is a superseded one, so it is neither reported gone nor removed;
   and what is read covers everything still registered.
   */
  lemma LiveEntryReadRight(s: State, q: Pid, p: Pid)
    requires Reachable(s) && Reads(s, q) && Registered(s, p)
    requires var cur := s.pruners[q].phase.cur; !cur.Idle? && cur.name == s.readers[p].reg.value.name
    ensures var Reg(name, inode) := s.readers[p].reg.value;
      var cur := s.pruners[q].phase.cur;
      && name in s.names && s.names[name] == inode && inode in s.rows && Locked(s, inode)
      && (cur.Opened? ==> cur.inode in s.rows && Within(s.rows[inode], s.rows[cur.inode], s.pruners[q].storage))
      && (cur.Unlocked? ==> cur.inode != s.names[name])
      && !cur.Stale?
  {
    hide Covers;
    ReachableInv(s);
    assert ReaderOk(s, p) && Noticed(s, p, q);
  }

  // ----- and only live registrations count

  /** What prune q has read so far. */
  function SeenBy(s: State, q: Pid): set<seq<Row>> {
    if q !in s.pruners then {}
    else
      match s.pruners[q].phase
      case Gated => {}
      case Reading(_, _, seen) => seen
      case Deleting(seen) => seen
      case Clearing(seen, _, _) => seen
  }

  /** A live reader has a file open that holds these rows. */
  ghost predicate HeldOpen(s: State, rows: seq<Row>) {
    exists i :: i in s.rows && Locked(s, i) && s.rows[i] == rows
  }

  /** A prune takes in rows only from a file that a live reader has open at that moment. */
  lemma SeenIsLive(s: State, step: Step, q: Pid, rows: seq<Row>)
    requires Enabled(s, step) && rows in SeenBy(Apply(s, step), q) && rows !in SeenBy(s, q)
    ensures step == Probe(q) && HeldOpen(s, rows)
  {
    hide Covers, SeenCovers, Narrows, GatesHeld, Locked;
    if step == Probe(q) {
      assert Locked(s, s.pruners[q].phase.cur.inode);
    }
  }

  /** In some state along a run a file a live reader has open covers the revision. */
  ghost predicate LiveCovers(s: State, steps: seq<Step>, storage: string, id: string, rev: int)
    decreases |steps|
  {
    || (exists i :: i in s.rows && Locked(s, i) && Covers(s.rows[i], storage, id, rev))
    || (steps != [] && Enabled(s, steps[0]) && LiveCovers(Apply(s, steps[0]), steps[1..], storage, id, rev))
  }

  lemma {:induction false} SeenWasLive(s: State, steps: seq<Step>, t: State, q: Pid, storage: string, id: string,
          rev: int)
    requires Runs.Run(Next, s, steps, t) && SeenCovers(SeenBy(t, q), storage, id, rev)
    ensures SeenCovers(SeenBy(s, q), storage, id, rev) || LiveCovers(s, steps, storage, id, rev)
    decreases |steps|
  {
    hide Covers, Enabled, Apply, Locked, SeenBy;
    if steps != [] {
      var m := Runs.First(Next, s, steps, t);
      SeenWasLive(m, steps[1..], t, q, storage, id, rev);
      if rows :| rows in SeenBy(m, q) && Covers(rows, storage, id, rev) {
        if rows !in SeenBy(s, q) { SeenIsLive(s, steps[0], q, rows); }
      }
    }
  }

  /**
   What nobody alive has registered at any moment since the prune began, it may delete, and
   deletes just that: no dead reader's registration blocks it.
   */
  lemma UncoveredMayGo(s: State, steps: seq<Step>, t: State, q: Pid, id: string, rev: int)
    requires q !in s.pruners || s.pruners[q].phase.Gated?
    requires Runs.Run(Next, s, steps, t) && q in t.pruners && t.pruners[q].phase.Deleting?
    requires !LiveCovers(s, steps, t.pruners[q].storage, id, rev)
    ensures Enabled(t, Delete(q, id, rev))
    ensures Apply(t, Delete(q, id, rev)) == t.(stored := t.stored - {Snap(t.pruners[q].storage, id, rev)})
  {
    hide Covers, LiveCovers;
    if SeenCovers(t.pruners[q].phase.seen, t.pruners[q].storage, id, rev) {
      SeenWasLive(s, steps, t, q, t.pruners[q].storage, id, rev);
      assert false;
    }
  }

  /** The file once under name n is a dead reader's. */
  ghost predicate DeadName(s: State, n: Name, i: Inode) {
    i in s.rows && !Locked(s, i) && n in s.used && (n in s.names ==> s.names[n] == i)
  }

  /** Prune q is before that name, at it with that file, or past it with the name gone. */
  ghost predicate Clears(s: State, q: Pid, n: Name, i: Inode)
    requires q in s.pruners
  {
    match s.pruners[q].phase
    case Gated => true
    case Reading(todo, cur, _) =>
      && (n in todo || n !in s.names)
      && ((cur.Opened? || cur.Unlocked?) && cur.name == n ==> cur.inode == i)
    case Deleting(_) => n !in s.names
    case Clearing(_, _, _) => n !in s.names
  }

  lemma DeadStays(s: State, step: Step, n: Name, i: Inode)
    requires Inv(s) && Enabled(s, step) && DeadName(s, n, i)
    ensures DeadName(Apply(s, step), n, i) && (n !in s.names ==> n !in Apply(s, step).names)
  {
    hide Locked, Inv, Enabled, Apply;
    if Locked(Apply(s, step), i) { LocksFall(s, step, i); }
    Frame(s, step);
    NamesStay(s, step, n, i);
  }

  lemma NamesStay(s: State, step: Step, n: Name, i: Inode)
    requires Inv(s) && Enabled(s, step) && DeadName(s, n, i)
    ensures n in Apply(s, step).names ==> n in s.names && Apply(s, step).names[n] == i
  {
    hide Covers, SeenCovers, Narrows, GatesHeld, Locked, Noticed, CurKnown, Gates, Accounted, Within;
    if step.Rename? {
      assert ReaderOk(s, step.p);
      LivesLocked(s, step.p);
    }
    hide Inv;
  }

  lemma LivesLocked(s: State, p: Pid)
    requires Registered(s, p) && ReaderOk(s, p)
    ensures Locked(s, s.readers[p].reg.value.inode)
  {
  }

  lemma ClearsOwn(s: State, step: Step, q: Pid, n: Name, i: Inode)
    requires Inv(s) && Enabled(s, step) && DeadName(s, n, i) && By(step, q)
    requires q in s.pruners ==> Clears(s, q, n, i)
    ensures q in Apply(s, step).pruners && Clears(Apply(s, step), q, n, i)
  {
    hide Covers, SeenCovers, Narrows, GatesHeld, Locked, Noticed, CurKnown, Gates, Accounted, Within, Files;
  }

  lemma ClearsOther(s: State, step: Step, q: Pid, n: Name, i: Inode)
    requires Inv(s) && Enabled(s, step) && DeadName(s, n, i) && !By(step, q) && q in Apply(s, step).pruners
    requires q in s.pruners ==> Clears(s, q, n, i)
    ensures Clears(Apply(s, step), q, n, i)
  {
    DeadStays(s, step, n, i);
    PrunerStays(s, step, q);
    hide Apply, Enabled, Inv;
  }

  lemma PrunerStays(s: State, step: Step, q: Pid)
    requires Enabled(s, step) && !By(step, q) && q in Apply(s, step).pruners
    ensures q in s.pruners && Apply(s, step).pruners[q] == s.pruners[q]
  {
    hide Covers, SeenCovers, Narrows, GatesHeld, Locked;
  }

  lemma {:induction false} DeadRun(s: State, steps: seq<Step>, t: State, q: Pid, n: Name, i: Inode)
    requires Inv(s) && DeadName(s, n, i) && (q in s.pruners ==> Clears(s, q, n, i)) && Runs.Run(Next, s, steps, t)
    ensures q in t.pruners ==> Clears(t, q, n, i)
    decreases |steps|
  {
    hide Inv, Enabled, Apply, DeadName, Clears;
    if steps != [] {
      var m := Runs.First(Next, s, steps, t);
      InvStep(s, steps[0]);
      DeadStays(s, steps[0], n, i);
      if q in m.pruners {
        if By(steps[0], q) { ClearsOwn(s, steps[0], q, n, i); } else { ClearsOther(s, steps[0], q, n, i); }
      }
      DeadRun(m, steps[1..], t, q, n, i);
    }
  }

  /** A name whose reader is dead before a prune lists is gone once that prune has read the directory. */
  lemma DeadIsRemoved(s: State, steps: seq<Step>, t: State, q: Pid, n: Name)
    requires Reachable(s) && n in s.names && !Locked(s, s.names[n]) && (q !in s.pruners || s.pruners[q].phase.Gated?)
    requires Runs.Run(Next, s, steps, t) && q in t.pruners
    ensures t.pruners[q].phase.Deleting? || t.pruners[q].phase.Clearing? ==> n !in t.names
  {
    ReachableInv(s);
    assert DeadName(s, n, s.names[n]);
    DeadRun(s, steps, t, q, n, s.names[n]);
  }

  /** A prune reading the directory always has a next step, short of a tenth file that changed under it. */
  lemma PruneGoesOn(s: State, q: Pid) returns (step: Step)
    requires Reachable(s) && q in s.pruners && !s.pruners[q].phase.Deleting?
    ensures By(step, q)
    ensures Enabled(s, step) ||
      (step.Stat? && Reads(s, q) && s.pruners[q].phase.cur.Unlocked? && s.pruners[q].phase.cur.tries + 1 >= TRIES)
  {
    ReachableInv(s);
    assert CurKnown(s, q);
    match s.pruners[q].phase
    case Gated => step := ListDir(q);
    case Clearing(_, _, _) => step := Clear(q);
    case Reading(todo, cur, _) =>
      match cur
      case Idle =>
        if todo == {} {
          step := EndRead(q);
        } else {
          var n :| n in todo;
          step := Try(q, n);
        }
      case Trying(_, _) => step := Open(q);
      case Opened(_, _, _) => step := Probe(q);
      case Unlocked(_, _, _) => step := Stat(q);
      case Stale(_) => step := Remove(q);
  }

  /** Where p's registration is after a step. */
  lemma RegAfter(s: State, step: Step, p: Pid)
    requires Enabled(s, step) && p in Apply(s, step).readers
    ensures Apply(s, step).readers[p].reg ==
      if step == Unlink(p) || step == Arrive(p) then None
      else if step.Link? && step.p == p then Some(Reg(step.n, step.i))
      else if step.Rename? && step.p == p then Some(Reg(s.readers[p].reg.value.name, step.i))
      else s.readers[p].reg
  {
    hide Covers, SeenCovers, Locked, Narrows, GatesHeld;
  }

  lemma WhoIsThere(s: State, step: Step, p: Pid)
    requires Enabled(s, step)
    ensures p in Apply(s, step).readers <==> (p in s.readers && step != Die(p)) || step == Arrive(p)
    ensures step == Arrive(p) || ((step.Link? || step.Rename?) && step.p == p) ==> (p in s.readers) == !step.Arrive?
  {
    hide Covers, SeenCovers, Locked, Narrows, GatesHeld;
  }

  /** What a registration covers after each step: the file linked or renamed to, or nothing once it is gone. */
  lemma RegistersExactly(s: State, step: Step, p: Pid, snap: Snap)
    requires Inv(s) && Enabled(s, step)
    ensures RegCovers(Apply(s, step), p, snap) <==>
      if (step.Link? || step.Rename?) && step.p == p then
        step.i in s.rows && Covers(s.rows[step.i], snap.storage, snap.id, snap.rev)
      else RegCovers(s, p, snap) && !(step == Unlink(p) || step == Die(p))
  {
    if p in s.readers { assert ReaderOk(s, p); }
    if (step.Link? || step.Rename?) && step.p == p { FileThere(s, step); }
    hide Covers, Apply, Enabled, Inv;
    Frame(s, step);
    WhoIsThere(s, step, p);
    if p in Apply(s, step).readers { RegAfter(s, step, p); }
  }

  lemma FileThere(s: State, step: Step)
    requires Inv(s) && Enabled(s, step) && (step.Link? || step.Rename?)
    ensures step.i in s.rows
  {
    assert ReaderOk(s, step.p);
  }

  // ----- the copy worker keeps the discipline

  /** Narrowing to what is missing needs no gate. */
  lemma CopyNarrows(s: State, p: Pid, i: Inode, storage: string, local: set<Key>, missing: set<Key>,
          newest: map<string, int>)
    requires Registered(s, p) && i in s.rows && s.readers[p].reg.value.inode in s.rows
    requires Listing(local) && Newest(local, newest) && missing <= local
    requires Registers(s.rows[s.readers[p].reg.value.inode], storage, local, newest) &&
      Registers(s.rows[i], storage, missing, newest)
    ensures Narrows(s, p, i)
  {
    forall on, id, rev | Covers(s.rows[i], on, id, rev)
      ensures Covers(s.rows[s.readers[p].reg.value.inode], on, id, rev)
    {
      NarrowShrinks(s.rows[s.readers[p].reg.value.inode], s.rows[i], storage, local, missing, newest, on, id, rev);
    }
  }

  /** Listing again, under the primary's gate, may register more. */
  lemma CopyRelists(s: State, p: Pid, i: Inode, storage: string, keys: set<Key>, newest: map<string, int>)
    requires Registered(s, p) && i in s.rows && s.readers[p].reg.value.inode in s.rows
    requires storage in s.readers[p].gates && Registers(s.rows[i], storage, keys, newest)
    ensures Narrows(s, p, i) && GatesHeld(s, p, i)
  {
    forall on, id, rev | Covers(s.rows[i], on, id, rev) ensures on == storage {
      OneStorage(s.rows[i], storage, keys, newest, on);
    }
  }

  // ----- the one exception

  const LINES := [Row("t", "a", 2, true)]
  const READER := Reader({}, {0}, Some(Reg(0, 0)))
  const HAD := Snap("t", "a", 1)
  const COPYING := State({HAD}, map[0 := 0], map[0 := LINES], {0}, map[1 := READER], map[])

  function Pruning(ph: Phase): State {
    COPYING.(pruners := map[2 := Pruner("t", ph)])
  }

  lemma Reach(s: State, step: Step, t: State)
    requires Reachable(s) && Enabled(s, step) && Apply(s, step) == t
    ensures Reachable(t)
  {
    Runs.Further(Init, Next, s, step, t);
  }

  const HOLDING := INIT.(stored := {HAD})
  const CREATED := HOLDING.(rows := map[0 := LINES], readers := map[1 := Reader({"t"}, {0}, None)])

  lemma WitnessCreates()
    ensures Reachable(CREATED)
  {
    Runs.Starts(Init, Next, INIT);
    hide Reachable, Covers;
    assert {} + {HAD} == {HAD};
    Reach(INIT, Publish(HAD), HOLDING);
    var s1 := HOLDING.(readers := map[1 := Reader({}, {}, None)]);
    Reach(HOLDING, Arrive(1), s1);
    var s2 := HOLDING.(readers := map[1 := Reader({"t"}, {}, None)]);
    assert {} + {"t"} == {"t"} && s1.readers[1 := Reader({"t"}, {}, None)] == s2.readers;
    Reach(s1, TakeShared(1, "t"), s2);
    assert {} + {0} == {0} && s2.readers[1 := Reader({"t"}, {0}, None)] == CREATED.readers;
    Reach(s2, Create(1, 0, LINES), CREATED);
  }

  lemma WitnessRegisters()
    ensures Reachable(COPYING)
  {
    assert GatesHeld(CREATED, 1, 0);
    hide Reachable, Covers, GatesHeld;
    WitnessCreates();
    var linked := COPYING.(readers := map[1 := Reader({"t"}, {0}, Some(Reg(0, 0)))]);
    Reach(CREATED, Link(1, 0, 0), linked);
    assert {"t"} - {"t"} == {};
    Reach(linked, DropShared(1, "t"), COPYING);
  }

  const LISTED := Pruning(Reading({0}, Idle, {}))
  const READ := Pruning(Reading({}, Idle, {LINES}))

  lemma WitnessLists()
    ensures Reachable(LISTED)
  {
    hide Covers, Reachable;
    WitnessRegisters();
    Reach(COPYING, TakeExclusive(2, "t"), Pruning(Gated));
    assert COPYING.names.Keys == {0};
    Reach(Pruning(Gated), ListDir(2), LISTED);
  }

  lemma WitnessReads()
    ensures Reachable(READ)
  {
    hide Covers, Reachable;
    WitnessLists();
    var trying, found := Pruning(Reading({0}, Trying(0, 0), {})), Pruning(Reading({0}, Opened(0, 0, 0), {}));
    Reach(LISTED, Try(2, 0), trying);
    Reach(trying, Open(2), found);
    assert 1 in found.readers && 0 in found.readers[1].files;
    assert Locked(found, 0);
    assert {0} - {0} == {} && {} + {LINES} == {LINES};
    Reach(found, Probe(2), READ);
  }

  const CHECKED := Pruning(Clearing({LINES}, "a", {1}))

  /** The copy has revision 1 already: it registered what the ID gains. */
  lemma NotCovered()
    ensures !Covers(LINES, "t", "a", 1)
  {
    assert LINES[0].id == "a";
  }

  lemma WitnessChecks()
    ensures Reachable(CHECKED)
  {
    hide Covers, Reachable;
    WitnessReads();
    Reach(READ, EndRead(2), Pruning(Deleting({LINES})));
    assert RevsOf(Pruning(Deleting({LINES})), "t", "a") == {1};
    assert !SeenCovers({LINES}, "t", "a", 1) by { NotCovered(); }
    Reach(Pruning(Deleting({LINES})), Check(2, "a"), CHECKED);
  }

  /** A copy covers what an ID gains; a forget that listed the ID's one old revision deletes it all the same. */
  lemma ForgetWitness() returns (s: State, snap: Snap)
    ensures Reachable(s) && RegCovers(s, 1, snap) && snap in s.stored
    ensures Enabled(s, Clear(2)) && snap !in Apply(s, Clear(2)).stored
  {
    snap := Snap("t", "a", 2);
    assert LINES[0].id == "a" && Covers(LINES, "t", "a", 2);
    hide Covers, Reachable;
    WitnessChecks();
    s := CHECKED.(stored := {HAD, snap});
    assert {HAD} + {snap} == {HAD, snap};
    Reach(CHECKED, Publish(snap), s);
  }
}
