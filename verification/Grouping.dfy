/**
 Which services may back up at the same time. Directories sharing a base name (one snapshot
 ID) or a resolved path are linked; linked directories go one after another. The grouping is
 a union-find over an array with path compression, proved equal to connectivity through
 chains of shared keys, and the slot scheduler over its groups never runs two linked
 services at once.
 */
module Grouping {
  import opened Options

  /** A service directory: the base name of its absolute path, and where its links lead. */
  datatype Dir = Dir(base: string, resolved: Option<string>)
  datatype Key = Id(name: string) | Path(path: string)

  function Keys(d: Dir): (ks: seq<Key>)
    ensures Id(d.base) in ks
    ensures forall r :: Path(r) in ks <==> d.resolved == Some(r)
  {
    match d.resolved
    case None => [Id(d.base)]
    case Some(r) => [Id(d.base), Path(r)]
  }

  // ----- linked directories

  predicate Share(dirs: seq<Dir>, i: nat, j: nat) {
    && i < |dirs| && j < |dirs|
    && (dirs[i].base == dirs[j].base || (dirs[i].resolved.Some? && dirs[i].resolved == dirs[j].resolved))
  }

  ghost predicate Chain(dirs: seq<Dir>, path: seq<nat>, i: nat, j: nat) {
    && path != [] && path[0] == i && path[|path| - 1] == j
    && forall k {:trigger path[k]} :: 0 <= k < |path| - 1 ==> Share(dirs, path[k], path[k + 1])
  }

  /** A chain of directories leads from i to j, each sharing a key with the next. */
  ghost predicate Linked(dirs: seq<Dir>, i: nat, j: nat) {
    exists path :: Chain(dirs, path, i, j)
  }

  lemma LinkedSelf(dirs: seq<Dir>, i: nat)
    ensures Linked(dirs, i, i)
  {
    assert Chain(dirs, [i], i, i);
  }

  lemma LinkedStep(dirs: seq<Dir>, i: nat, j: nat)
    requires Share(dirs, i, j)
    ensures Linked(dirs, i, j)
  {
    assert Chain(dirs, [i, j], i, j);
  }

  lemma LinkedTransitive(dirs: seq<Dir>, i: nat, j: nat, k: nat)
    requires Linked(dirs, i, j) && Linked(dirs, j, k)
    ensures Linked(dirs, i, k)
  {
    var p :| Chain(dirs, p, i, j);
    var q :| Chain(dirs, q, j, k);
    var r := p + q[1..];
    forall m {:trigger r[m]} | 0 <= m < |r| - 1 ensures Share(dirs, r[m], r[m + 1]) {
      if m < |p| - 1 {
        assert r[m] == p[m] && r[m + 1] == p[m + 1];
      } else {
        var n := m - |p| + 1;
        assert r[m] == q[n] && r[m + 1] == q[n + 1];
      }
    }
    assert Chain(dirs, r, i, k);
  }

  lemma LinkedSymmetric(dirs: seq<Dir>, i: nat, j: nat)
    requires Linked(dirs, i, j)
    ensures Linked(dirs, j, i)
  {
    var p :| Chain(dirs, p, i, j);
    var r := seq(|p|, k requires 0 <= k < |p| => p[|p| - 1 - k]);
    forall m {:trigger r[m]} | 0 <= m < |r| - 1 ensures Share(dirs, r[m], r[m + 1]) {
      var n := |p| - 2 - m;
      assert r[m] == p[n + 1] && r[m + 1] == p[n];
      assert Share(dirs, p[n], p[n + 1]);
    }
    assert Chain(dirs, r, j, i);
  }

  /** A relation that respects sharing respects whole chains. */
  lemma {:induction false} ChainWithin(dirs: seq<Dir>, root: seq<nat>, path: seq<nat>, i: nat, j: nat)
    requires |root| == |dirs| && i < |dirs| && j < |dirs|
    requires forall a: nat, b: nat :: Share(dirs, a, b) ==> root[a] == root[b]
    requires Chain(dirs, path, i, j)
    ensures root[i] == root[j]
    decreases |path|
  {
    if |path| > 1 {
      assert Share(dirs, path[0], path[1]);
      var tail := path[1..];
      forall k {:trigger tail[k]} | 0 <= k < |tail| - 1 ensures Share(dirs, tail[k], tail[k + 1]) {
        assert tail[k] == path[k + 1] && tail[k + 1] == path[k + 2];
      }
      ChainWithin(dirs, root, tail, path[1], j);
    }
  }

  // ----- the forest

  /** parent's trees: every index climbs to its root, and depth falls on the way. */
  ghost predicate Forest(parent: seq<nat>, root: seq<nat>, depth: seq<nat>) {
    && |parent| == |root| == |depth|
    && forall i :: 0 <= i < |parent| ==> Climbs(parent, root, depth, i)
  }

  ghost predicate Climbs(parent: seq<nat>, root: seq<nat>, depth: seq<nat>, i: nat)
    requires |parent| == |root| == |depth| && i < |parent|
  {
    && parent[i] < |parent| && root[i] < |parent|
    && root[root[i]] == root[i] && root[parent[i]] == root[i]
    && (parent[i] == i <==> root[i] == i)
    && (parent[i] != i ==> depth[parent[i]] < depth[i])
  }

  method Find(parent: array<nat>, i: nat, ghost root: seq<nat>, ghost depth: seq<nat>) returns (r: nat)
    requires Forest(parent[..], root, depth) && i < parent.Length
    modifies parent
    ensures Forest(parent[..], root, depth)
    ensures r == root[i] && r < parent.Length && root[r] == r
    ensures i != r ==> depth[r] < depth[i]
    decreases depth[i]
  {
    assert Climbs(parent[..], root, depth, i);
    if parent[i] != i {
      assert parent[..][i] == parent[i];
      ghost var up := parent[i];
      var p := Find(parent, parent[i], root, depth);
      assert root[up] == root[i] && depth[p] < depth[i];
      ghost var before := parent[..];
      assert Climbs(before, root, depth, i) && Climbs(before, root, depth, p) && Climbs(before, root, depth, up);
      parent[i] := p;
      assert parent[..] == before[i := p];
      forall k | 0 <= k < |before| ensures Climbs(parent[..], root, depth, k) {
        assert Climbs(before, root, depth, k);
      }
    } else {
      assert parent[..][i] == i;
    }
    r := parent[i];
  }

  /** root after ri's tree goes under rj. */
  ghost function Merged(root: seq<nat>, ri: nat, rj: nat): (r: seq<nat>)
    ensures |r| == |root|
    ensures forall k :: 0 <= k < |root| ==> r[k] == if root[k] == ri then rj else root[k]
  {
    seq(|root|, k requires 0 <= k < |root| => if root[k] == ri then rj else root[k])
  }

  ghost function Deepened(root: seq<nat>, depth: seq<nat>, ri: nat, rj: nat): (r: seq<nat>)
    requires |root| == |depth| && rj < |depth|
    ensures |r| == |root|
    ensures forall k :: 0 <= k < |root| ==> r[k] == if root[k] == ri then depth[k] + depth[rj] + 1 else depth[k]
  {
    seq(|root|, k requires 0 <= k < |root| => if root[k] == ri then depth[k] + depth[rj] + 1 else depth[k])
  }

  lemma Grafted(parent: seq<nat>, root: seq<nat>, depth: seq<nat>, ri: nat, rj: nat)
    requires Forest(parent, root, depth) && ri < |parent| && rj < |parent|
    requires ri != rj && root[ri] == ri && root[rj] == rj
    ensures Forest(parent[ri := rj], Merged(root, ri, rj), Deepened(root, depth, ri, rj))
  {
    var p, r, d := parent[ri := rj], Merged(root, ri, rj), Deepened(root, depth, ri, rj);
    forall k | 0 <= k < |p| ensures Climbs(p, r, d, k) {
      assert Climbs(parent, root, depth, k) && Climbs(parent, root, depth, ri) && Climbs(parent, root, depth, rj);
      assert Climbs(parent, root, depth, parent[k]);
    }
  }

  /** root[a] == root[b] only for linked directories. */
  ghost predicate Sound(dirs: seq<Dir>, root: seq<nat>) {
    |root| == |dirs| && forall a, b :: 0 <= a < |dirs| && 0 <= b < |dirs| && root[a] == root[b] ==> Linked(dirs, a, b)
  }

  lemma MergedSound(dirs: seq<Dir>, root: seq<nat>, i: nat, j: nat)
    requires Sound(dirs, root) && Share(dirs, i, j)
    ensures Sound(dirs, Merged(root, root[i], root[j]))
  {
    var r := Merged(root, root[i], root[j]);
    LinkedStep(dirs, i, j);
    LinkedSymmetric(dirs, i, j);
    forall a, b | 0 <= a < |dirs| && 0 <= b < |dirs| && r[a] == r[b] ensures Linked(dirs, a, b) {
      if root[a] != root[b] {
        if root[a] == root[i] {
          LinkedTransitive(dirs, a, i, j);
          LinkedTransitive(dirs, a, j, b);
        } else {
          LinkedTransitive(dirs, a, j, i);
          LinkedTransitive(dirs, a, i, b);
        }
      }
    }
  }

  /** Every directory before i, and i under its first done keys, is in its keys' tree. */
  ghost predicate Seen(dirs: seq<Dir>, root: seq<nat>, byKey: map<Key, nat>, i: nat, done: nat) {
    && |root| == |dirs|
    && (forall k :: k in byKey ==> byKey[k] < |dirs| && byKey[k] <= i && k in Keys(dirs[byKey[k]]))
    && (forall a, k :: 0 <= a < |dirs| && Entered(dirs, a, k, i, done) ==> k in byKey && root[byKey[k]] == root[a])
  }

  ghost predicate Entered(dirs: seq<Dir>, a: nat, k: Key, i: nat, done: nat) {
    && a < |dirs|
    && k in (if a < i then Keys(dirs[a])
             else if a == i && done <= |Keys(dirs[a])| then Keys(dirs[a])[..done]
             else [])
  }

  lemma SharedKey(dirs: seq<Dir>, i: nat, j: nat, k: Key)
    requires i < |dirs| && j < |dirs| && k in Keys(dirs[i]) && k in Keys(dirs[j])
    ensures Share(dirs, i, j)
  {
  }

  lemma SeenMore(dirs: seq<Dir>, root: seq<nat>, byKey: map<Key, nat>, i: nat, n: nat, newRoot: seq<nat>)
    requires Seen(dirs, root, byKey, i, n) && i < |dirs| && n < |Keys(dirs[i])|
    requires var k := Keys(dirs[i])[n]; k in byKey && newRoot == Merged(root, root[i], root[byKey[k]])
    ensures Seen(dirs, newRoot, byKey, i, n + 1)
  {
    hide Keys;
    var keys := Keys(dirs[i]);
    var m := n + 1;
    forall a: nat, k | a < |dirs| && Entered(dirs, a, k, i, m) ensures k in byKey && newRoot[byKey[k]] == newRoot[a] {
      assert keys[..m] == keys[..n] + [keys[n]];
      if !(a == i && k == keys[n]) {
        assert Entered(dirs, a, k, i, n);
      }
    }
  }

  lemma SeenNew(dirs: seq<Dir>, root: seq<nat>, byKey: map<Key, nat>, i: nat, n: nat)
    requires Seen(dirs, root, byKey, i, n) && i < |dirs| && n < |Keys(dirs[i])|
    requires Keys(dirs[i])[n] !in byKey
    ensures Seen(dirs, root, byKey[Keys(dirs[i])[n] := i], i, n + 1)
  {
    hide Keys;
    var keys := Keys(dirs[i]);
    var m := n + 1;
    forall a: nat, k | a < |dirs| && Entered(dirs, a, k, i, m)
      ensures k in byKey[keys[n] := i] && root[byKey[keys[n] := i][k]] == root[a]
    {
      assert keys[..m] == keys[..n] + [keys[n]];
      if k == keys[n] {
        assert a != i ==> Entered(dirs, a, k, i, n);
      } else {
        assert Entered(dirs, a, k, i, n);
      }
    }
  }

  lemma SeenNext(dirs: seq<Dir>, root: seq<nat>, byKey: map<Key, nat>, i: nat)
    requires i < |dirs| && Seen(dirs, root, byKey, i, |Keys(dirs[i])|)
    ensures Seen(dirs, root, byKey, i + 1, 0)
  {
    var keys := Keys(dirs[i]);
    assert keys[..|keys|] == keys;
    var m := i + 1;
    forall a: nat, k | a < |dirs| && Entered(dirs, a, k, m, 0) ensures k in byKey && root[byKey[k]] == root[a] {
      assert Entered(dirs, a, k, i, |keys|);
    }
  }

  lemma SeenAll(dirs: seq<Dir>, root: seq<nat>, byKey: map<Key, nat>)
    requires Seen(dirs, root, byKey, |dirs|, 0)
    ensures forall a: nat, b: nat :: Share(dirs, a, b) ==> root[a] == root[b]
  {
    forall a: nat, b: nat | Share(dirs, a, b) ensures root[a] == root[b] {
      var k := if dirs[a].base == dirs[b].base then Id(dirs[a].base) else Path(dirs[a].resolved.value);
      assert Entered(dirs, a, k, |dirs|, 0) && Entered(dirs, b, k, |dirs|, 0);
    }
  }

  // ----- the groups

  ghost predicate InGroup(groups: seq<seq<nat>>, g: nat, i: nat) {
    g < |groups| && i in groups[g]
  }

  /** The first n indexes, grouped: every one in one group, groups by first member, members ascending. */
  ghost predicate Partition(groups: seq<seq<nat>>, n: nat) {
    && (forall g :: 0 <= g < |groups| ==> groups[g] != [])
    && (forall g: nat, i: nat :: InGroup(groups, g, i) ==> i < n)
    && (forall i: nat :: i < n ==> Together(groups, i, i))
    && (forall g: nat, h: nat, i: nat :: InGroup(groups, g, i) && InGroup(groups, h, i) ==> g == h)
    && (forall g :: 0 <= g < |groups| ==> Ascending(groups[g]))
    && (forall g, h :: 0 <= g < h < |groups| ==> groups[g] != [] && groups[h] != [] && groups[g][0] < groups[h][0])
  }

  ghost predicate Ascending(s: seq<nat>) {
    forall a, b :: 0 <= a < b < |s| ==> s[a] < s[b]
  }

  ghost predicate Together(groups: seq<seq<nat>>, i: nat, j: nat) {
    exists g: nat :: InGroup(groups, g, i) && InGroup(groups, g, j)
  }

  /** One group at a parallelism of one; else the classes of linked directories. */
  ghost predicate Grouped(dirs: seq<Dir>, parallelism: int, groups: seq<seq<nat>>) {
    if parallelism <= 1 then groups == [seq(|dirs|, i => i)]
    else
      && Partition(groups, |dirs|)
      && forall i: nat, j: nat :: i < |dirs| && j < |dirs| ==> (Together(groups, i, j) <==> Linked(dirs, i, j))
  }

  method GroupServices(dirs: seq<Dir>, parallelism: int) returns (groups: seq<seq<nat>>)
    ensures Grouped(dirs, parallelism, groups)
  {
    if parallelism <= 1 {
      var all: seq<nat> := seq(|dirs|, i => i);
      return [all];
    }
    var parent := new nat[|dirs|](i => i);
    ghost var root, depth := JoinAll(dirs, parent);
    groups := Collect(dirs, parent, root, depth);
    forall i: nat, j: nat | i < |dirs| && j < |dirs| ensures Together(groups, i, j) <==> Linked(dirs, i, j) {
      if Linked(dirs, i, j) {
        var path :| Chain(dirs, path, i, j);
        ChainWithin(dirs, root, path, i, j);
      }
    }
  }

  /** Puts i's tree under j's root. */
  method Union(parent: array<nat>, i: nat, j: nat, ghost root: seq<nat>, ghost depth: seq<nat>)
    returns (ghost newRoot: seq<nat>, ghost newDepth: seq<nat>)
    requires Forest(parent[..], root, depth) && i < parent.Length && j < parent.Length
    modifies parent
    ensures Forest(parent[..], newRoot, newDepth)
    ensures newRoot == Merged(root, root[i], root[j])
  {
    var ri := Find(parent, i, root, depth);
    var rj := Find(parent, j, root, depth);
    ghost var before := parent[..];
    assert Climbs(before, root, depth, ri);
    parent[ri] := rj;
    assert parent[..] == before[ri := rj];
    newRoot, newDepth := Merged(root, ri, rj), depth;
    if ri != rj {
      newDepth := Deepened(root, depth, ri, rj);
      Grafted(before, root, depth, ri, rj);
    } else {
      assert newRoot == root && parent[..] == before;
    }
  }

  /** Joins directories that share a key. */
  method JoinAll(dirs: seq<Dir>, parent: array<nat>) returns (ghost root: seq<nat>, ghost depth: seq<nat>)
    requires parent[..] == seq(|dirs|, i => i)
    modifies parent
    ensures Forest(parent[..], root, depth) && Sound(dirs, root)
    ensures forall a: nat, b: nat :: Share(dirs, a, b) ==> root[a] == root[b]
  {
    root, depth := parent[..], seq(|dirs|, _ => 0);
    var byKey: map<Key, nat> := map[];
    forall a | 0 <= a < |dirs| ensures Linked(dirs, a, a) {
      LinkedSelf(dirs, a);
    }
    for i := 0 to |dirs|
      invariant Forest(parent[..], root, depth) && Sound(dirs, root)
      invariant Seen(dirs, root, byKey, i, 0)
    {
      var keys := Keys(dirs[i]);
      for n := 0 to |keys|
        invariant Forest(parent[..], root, depth) && Sound(dirs, root)
        invariant Seen(dirs, root, byKey, i, n)
      {
        var k := keys[n];
        assert keys[..n + 1] == keys[..n] + [k];
        if k in byKey {
          var j := byKey[k];
          SharedKey(dirs, i, j, k);
          MergedSound(dirs, root, i, j);
          ghost var was := root;
          root, depth := Union(parent, i, j, root, depth);
          SeenMore(dirs, was, byKey, i, n, root);
        } else {
          SeenNew(dirs, root, byKey, i, n);
          byKey := byKey[k := i];
        }
      }
      SeenNext(dirs, root, byKey, i);
    }
    SeenAll(dirs, root, byKey);
  }

  lemma Added(before: seq<seq<nat>>, groups: seq<seq<nat>>, g: nat, i: nat)
    requires Partition(before, i)
    requires || (g < |before| && groups == before[g := before[g] + [i]])
             || (g == |before| && groups == before + [[i]])
    ensures Partition(groups, i + 1)
    ensures forall h: nat, a: nat :: InGroup(groups, h, a) <==> InGroup(before, h, a) || (h == g && a == i)
  {
    forall h: nat, a: nat ensures InGroup(groups, h, a) <==> InGroup(before, h, a) || (h == g && a == i) {
      if h == g && g < |before| {
        assert a in before[g] + [i] <==> a in before[g] || a == i;
      }
    }
    forall a: nat | a < i + 1 ensures Together(groups, a, a) {
      if a < i {
        assert Together(before, a, a);
        var h: nat :| InGroup(before, h, a);
        assert InGroup(groups, h, a);
      } else {
        assert InGroup(groups, g, i);
      }
    }
    forall h | 0 <= h < |groups| ensures Ascending(groups[h]) && (h < |before| ==> groups[h][0] == before[h][0]) {
      if h < |before| {
        forall a | 0 <= a < |before[h]| ensures before[h][a] < i {
          assert InGroup(before, h, before[h][a]);
        }
      }
    }
    forall h, k | 0 <= h < k < |groups| ensures groups[h] != [] && groups[k] != [] && groups[h][0] < groups[k][0] {
      assert InGroup(before, h, before[h][0]);
    }
  }

  /** Gathers the trees, in order of first appearance. */
  method Collect(dirs: seq<Dir>, parent: array<nat>, ghost root: seq<nat>, ghost depth: seq<nat>)
    returns (groups: seq<seq<nat>>)
    requires Forest(parent[..], root, depth) && |dirs| == parent.Length
    modifies parent
    ensures Partition(groups, |dirs|)
    ensures forall i: nat, j: nat :: i < |dirs| && j < |dirs| ==> (Together(groups, i, j) <==> root[i] == root[j])
  {
    groups := [];
    var index: map<nat, nat> := map[];
    for i := 0 to |dirs|
      invariant Forest(parent[..], root, depth)
      invariant Partition(groups, i)
      invariant forall r :: r in index ==> index[r] < |groups|
      invariant forall q, r :: q in index && r in index && index[q] == index[r] ==> q == r
      invariant forall g: nat, a: nat :: InGroup(groups, g, a) ==> a < |dirs| && root[a] in index && index[root[a]] == g
    {
      var r := Find(parent, i, root, depth);
      ghost var before := groups;
      var g := |groups|;
      if r in index {
        g := index[r];
        groups := groups[g := groups[g] + [i]];
      } else {
        index := index[r := g];
        groups := groups + [[i]];
      }
      Added(before, groups, g, i);
    }
    forall i: nat, j: nat | i < |dirs| && j < |dirs| ensures Together(groups, i, j) <==> root[i] == root[j] {
      assert Together(groups, i, i) && Together(groups, j, j);
      var g: nat :| InGroup(groups, g, i);
      var h: nat :| InGroup(groups, h, j);
    }
  }

  // ----- the slots

  /**
   The run of the groups: next is the group dispatched next; at[g] is how far group g's
   goroutine has got, and busy says whether its service is backing up now.
   */
  datatype Sched = Sched(next: nat, at: map<nat, At>, stopping: bool)
  datatype At = At(pos: nat, busy: bool)

  datatype Step = Dispatch | Start(g: nat) | Finish(g: nat) | Skip(g: nat) | Leave(g: nat) | Stop

  /** slots is the channel's capacity: a group holds one from dispatch until its goroutine leaves. */
  predicate Enabled(groups: seq<seq<nat>>, slots: int, s: Sched, step: Step) {
    match step
    case Dispatch => !s.stopping && s.next < |groups| && |s.at| < slots
    case Start(g) => !s.stopping && g in s.at && !s.at[g].busy && g < |groups| && s.at[g].pos < |groups[g]|
    case Finish(g) => g in s.at && s.at[g].busy
    // primary down: skipped without backing up
    case Skip(g) => !s.stopping && g in s.at && !s.at[g].busy && g < |groups| && s.at[g].pos < |groups[g]|
    // its services done, or the run stopping
    case Leave(g) => g in s.at && !s.at[g].busy && (s.stopping || (g < |groups| ==> s.at[g].pos >= |groups[g]|))
    case Stop => true
  }

  function Apply(s: Sched, step: Step): Sched
    requires step.Dispatch? || step.Stop? || step.g in s.at
  {
    match step
    case Dispatch => s.(next := s.next + 1, at := s.at[s.next := At(0, false)])
    case Start(g) => s.(at := s.at[g := At(s.at[g].pos, true)])
    case Finish(g) => s.(at := s.at[g := At(s.at[g].pos + 1, false)])
    case Skip(g) => s.(at := s.at[g := At(s.at[g].pos + 1, false)])
    case Leave(g) => s.(at := s.at - {g})
    case Stop => s.(stopping := true)
  }

  ghost predicate Run(groups: seq<seq<nat>>, slots: int, s: Sched, steps: seq<Step>, end: Sched)
    decreases |steps|
  {
    if steps == [] then s == end
    else Enabled(groups, slots, s, steps[0]) && Run(groups, slots, Apply(s, steps[0]), steps[1..], end)
  }

  ghost predicate Scheduled(groups: seq<seq<nat>>, slots: int, s: Sched) {
    && |s.at| <= slots && s.next <= |groups|
    && forall g :: g in s.at ==> g < s.next && (s.at[g].busy ==> s.at[g].pos < |groups[g]|)
  }

  /** Directory index i is backing up. */
  ghost predicate BackingUp(groups: seq<seq<nat>>, s: Sched, g: nat, i: nat) {
    g in s.at && s.at[g].busy && g < |groups| && s.at[g].pos < |groups[g]| && groups[g][s.at[g].pos] == i
  }

  lemma {:induction false} RunScheduled(groups: seq<seq<nat>>, slots: int, s: Sched, steps: seq<Step>, end: Sched)
    requires Scheduled(groups, slots, s) && Run(groups, slots, s, steps, end)
    ensures Scheduled(groups, slots, end)
    decreases |steps|
  {
    if steps != [] {
      var t := Apply(s, steps[0]);
      match steps[0] {
        case Dispatch => assert t.at.Keys == s.at.Keys + {s.next};
        case Start(g) => assert t.at.Keys == s.at.Keys;
        case Finish(g) => assert t.at.Keys == s.at.Keys;
        case Skip(g) => assert t.at.Keys == s.at.Keys;
        case Leave(g) => assert t.at.Keys == s.at.Keys - {g};
        case Stop =>
      }
      RunScheduled(groups, slots, t, steps[1..], end);
    }
  }

  /** However the goroutines interleave, two directories backing up at once are never linked. */
  lemma LinkedNeverTogether(dirs: seq<Dir>, groups: seq<seq<nat>>, slots: int, steps: seq<Step>, end: Sched,
                            g: nat, h: nat, i: nat, j: nat)
    requires slots > 0 && Grouped(dirs, slots, groups)
    requires Run(groups, slots, Sched(0, map[], false), steps, end)
    requires BackingUp(groups, end, g, i) && BackingUp(groups, end, h, j)
    ensures |end.at| <= slots
    ensures g != h ==> i != j && !Linked(dirs, i, j)
  {
    RunScheduled(groups, slots, Sched(0, map[], false), steps, end);
    if g != h {
      assert InGroup(groups, g, i) && InGroup(groups, h, j);
    }
  }

  // ----- each service once

  /** Directory index i is the k-th of group g. */
  predicate Stands(groups: seq<seq<nat>>, g: nat, k: nat, i: nat) {
    g < |groups| && k < |groups[g]| && groups[g][k] == i
  }

  ghost predicate OnePlace(groups: seq<seq<nat>>) {
    forall g: nat, k: nat, h: nat, j: nat, i: nat :: Stands(groups, g, k, i) && Stands(groups, h, j, i) ==>
      g == h && k == j
  }

  lemma GroupedOnePlace(dirs: seq<Dir>, slots: int, groups: seq<seq<nat>>)
    requires Grouped(dirs, slots, groups)
    ensures OnePlace(groups)
  {
    forall g: nat, k: nat, h: nat, j: nat, i: nat | Stands(groups, g, k, i) && Stands(groups, h, j, i)
      ensures g == h && k == j
    {
      if slots > 1 { assert InGroup(groups, g, i) && InGroup(groups, h, i); }
    }
  }

  /** The k-th of group g is still to come. */
  predicate Due(s: Sched, g: nat, k: nat) {
    g >= s.next || (g in s.at && (k > s.at[g].pos || (k == s.at[g].pos && !s.at[g].busy)))
  }

  ghost predicate Ahead(groups: seq<seq<nat>>, s: Sched, i: nat) {
    exists g: nat, k: nat :: Stands(groups, g, k, i) && Due(s, g, k)
  }

  /** The service one step starts, or skips because the primary is down. */
  function Handles(groups: seq<seq<nat>>, slots: int, s: Sched, step: Step): seq<nat>
    requires Enabled(groups, slots, s, step)
  {
    if step.Start? || step.Skip? then [groups[step.g][s.at[step.g].pos]] else []
  }

  function Handled(groups: seq<seq<nat>>, slots: int, s: Sched, steps: seq<Step>): seq<nat>
    decreases |steps|
  {
    if steps == [] || !Enabled(groups, slots, s, steps[0]) then []
    else Handles(groups, slots, s, steps[0]) + Handled(groups, slots, Apply(s, steps[0]), steps[1..])
  }

  predicate Distinct(s: seq<nat>) {
    forall a, b :: 0 <= a < b < |s| ==> s[a] != s[b]
  }

  lemma AheadStep(groups: seq<seq<nat>>, slots: int, s: Sched, step: Step, i: nat)
    requires Scheduled(groups, slots, s) && OnePlace(groups) && Enabled(groups, slots, s, step)
    ensures var t, h := Apply(s, step), Handles(groups, slots, s, step);
      && (Ahead(groups, t, i) ==> Ahead(groups, s, i) && i !in h)
      && (i in h ==> Ahead(groups, s, i))
      && (Ahead(groups, s, i) && !t.stopping ==> i in h || Ahead(groups, t, i))
  {
    var t, h := Apply(s, step), Handles(groups, slots, s, step);
    if i in h { assert Stands(groups, step.g, s.at[step.g].pos, i) && Due(s, step.g, s.at[step.g].pos); }
    if g: nat, k: nat :| Stands(groups, g, k, i) && Due(t, g, k) {
      assert Due(s, g, k);
      if i in h { assert Stands(groups, step.g, s.at[step.g].pos, i); }
    }
    if g: nat, k: nat :| Stands(groups, g, k, i) && Due(s, g, k) && !t.stopping && i !in h {
      assert Due(t, g, k);
    }
  }

  lemma {:induction false} HandledOnce(groups: seq<seq<nat>>, slots: int, s: Sched, steps: seq<Step>, end: Sched)
    requires Scheduled(groups, slots, s) && OnePlace(groups) && Run(groups, slots, s, steps, end)
    ensures var all := Handled(groups, slots, s, steps);
      && Distinct(all) && (forall i :: i in all ==> Ahead(groups, s, i))
      && (!end.stopping ==> !s.stopping && forall i: nat :: Ahead(groups, s, i) ==> i in all || Ahead(groups, end, i))
    decreases |steps|
  {
    hide Ahead, OnePlace, Handles;
    if steps != [] {
      var t := Apply(s, steps[0]);
      var h, rest := Handles(groups, slots, s, steps[0]), Handled(groups, slots, t, steps[1..]);
      assert Run(groups, slots, s, steps[..1], t) by { assert Run(groups, slots, t, [], t); }
      RunScheduled(groups, slots, s, steps[..1], t);
      HandledOnce(groups, slots, t, steps[1..], end);
      forall i: nat
        ensures Ahead(groups, t, i) ==> Ahead(groups, s, i) && i !in h
        ensures i in h ==> Ahead(groups, s, i)
        ensures Ahead(groups, s, i) && !t.stopping ==> i in h || Ahead(groups, t, i)
      {
        AheadStep(groups, slots, s, steps[0], i);
      }
      AtMostOne(groups, slots, s, steps[0]);
      if h != [] {
        assert h[0] in h && h[0] !in rest;
        assert h + rest == [h[0]] + rest;
      } else {
        assert h + rest == rest;
      }
    }
  }

  lemma AtMostOne(groups: seq<seq<nat>>, slots: int, s: Sched, step: Step)
    requires Enabled(groups, slots, s, step)
    ensures |Handles(groups, slots, s, step)| <= 1
  {
  }

  /**
   However the goroutines interleave, no service is taken twice, and once every group has been
   dispatched and has left, without a stop, every service has been.
   */
  lemma EveryServiceOnce(dirs: seq<Dir>, groups: seq<seq<nat>>, slots: int, steps: seq<Step>, end: Sched)
    requires slots > 0 && Grouped(dirs, slots, groups)
    requires Run(groups, slots, Sched(0, map[], false), steps, end)
    ensures var all := Handled(groups, slots, Sched(0, map[], false), steps);
      && Distinct(all)
      && (end.next == |groups| && end.at == map[] && !end.stopping ==> forall i: nat :: i < |dirs| ==> i in all)
  {
    var begin := Sched(0, map[], false);
    GroupedOnePlace(dirs, slots, groups);
    HandledOnce(groups, slots, begin, steps, end);
    if end.next == |groups| && end.at == map[] && !end.stopping {
      forall i: nat | i < |dirs| ensures i in Handled(groups, slots, begin, steps) {
        var g, k := PlaceOf(dirs, slots, groups, i);
        assert Due(begin, g, k);
        assert Ahead(groups, begin, i) && !Ahead(groups, end, i);
      }
    }
  }

  lemma PlaceOf(dirs: seq<Dir>, slots: int, groups: seq<seq<nat>>, i: nat) returns (g: nat, k: nat)
    requires Grouped(dirs, slots, groups) && i < |dirs|
    ensures Stands(groups, g, k, i)
  {
    if slots <= 1 {
      g, k := 0, i;
    } else {
      assert Together(groups, i, i);
      g :| InGroup(groups, g, i);
      k :| 0 <= k < |groups[g]| && groups[g][k] == i;
    }
  }
}
