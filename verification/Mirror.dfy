/**
 Mirroring local's retention onto a target: what one pass deletes, what it always keeps, and
 where repeated passes end up while restores hold revisions back.
 */
module Mirror {
  type Id = string

  /** "id:revision", as the storages' listings give it. */
  datatype Rev = Rev(id: Id, n: int)

  function Of(revs: set<Rev>, id: Id): set<int> {
    set r | r in revs && r.id == id :: r.n
  }

  predicate Ascending(s: seq<int>) {
    forall i, j :: 0 <= i < j < |s| ==> s[i] < s[j]
  }

  function Elems(s: seq<int>): set<int> {
    set x | x in s
  }

  ghost function Max(s: set<int>): (m: int)
    requires s != {}
    ensures m in s && forall x :: x in s ==> x <= m
  {
    assert exists x :: x in s by {
      assert (forall x :: x !in s) ==> s == {};
    }
    var x :| x in s;
    if s == {x} then x
    else
      var m := Max(s - {x});
      assert s == (s - {x}) + {x};
      if x > m then x else m
  }

  // ----- what a pass proposes and refuses for one ID

  /** What local has pruned from the ID: nothing when local has none of it at all. */
  ghost function Proposed(l: set<int>, t: set<int>): set<int> {
    if l == {} || t == {} then {} else set r | r in t && r !in l && r != Max(t) && r < Max(l)
  }

  /** More than half the ID's target revisions would go. */
  ghost predicate TooMany(l: set<int>, t: set<int>) {
    2 * |Proposed(l, t)| > |t|
  }

  datatype Plan = Plan(delete: map<Id, seq<int>>, refused: map<Id, (nat, nat)>)

  ghost predicate Planned(plan: Plan, local: set<Rev>, target: set<Rev>, own: set<Id>, allow: bool, id: Id) {
    var l, t := Of(local, id), Of(target, id);
    var proposes := id in own && Proposed(l, t) != {};
    && (id in plan.delete <==> proposes && (allow || !TooMany(l, t)))
    && (id in plan.refused <==> proposes && !allow && TooMany(l, t))
    && (id in plan.delete ==> Ascending(plan.delete[id]) && Elems(plan.delete[id]) == Proposed(l, t))
    && (id in plan.refused ==> plan.refused[id] == (|Proposed(l, t)|, |t|))
  }

  predicate Sorted(s: seq<int>) {
    forall i, j :: 0 <= i < j < |s| ==> s[i] <= s[j]
  }

  lemma Inserted(r: seq<int>, i: nat, x: int)
    requires i <= |r|
    ensures multiset(r[..i] + [x] + r[i..]) == multiset(r) + multiset{x}
  {
    assert r == r[..i] + r[i..];
    assert multiset(r) == multiset(r[..i]) + multiset(r[i..]);
  }

  method Insert(r: seq<int>, x: int) returns (out: seq<int>)
    requires Sorted(r)
    ensures Sorted(out) && multiset(out) == multiset(r) + multiset{x}
  {
    var i := |r|;
    while i > 0 && r[i - 1] > x
      invariant 0 <= i <= |r|
      invariant i < |r| ==> r[i] > x
    {
      i := i - 1;
    }
    out := r[..i] + [x] + r[i..];
    assert Sorted(out);
    Inserted(r, i, x);
  }

  method SortInts(s: seq<int>) returns (r: seq<int>)
    ensures Sorted(r) && multiset(r) == multiset(s)
  {
    r := [];
    for k := 0 to |s|
      invariant Sorted(r) && multiset(r) == multiset(s[..k])
    {
      assert s[..k + 1] == s[..k] + [s[k]];
      r := Insert(r, s[k]);
    }
    assert s[..|s|] == s;
  }

  lemma SameElems(r: seq<int>, s: seq<int>)
    requires multiset(r) == multiset(s)
    ensures Elems(r) == Elems(s)
  {
    forall x ensures x in r <==> x in s {
      assert x in multiset(r) <==> x in r;
      assert x in multiset(s) <==> x in s;
    }
  }

  predicate Distinct(s: seq<int>) {
    forall i, j :: 0 <= i < j < |s| ==> s[i] != s[j]
  }

  lemma {:induction false} DistinctCount(s: seq<int>)
    requires Distinct(s)
    ensures |Elems(s)| == |s|
  {
    if s != [] {
      var n := |s| - 1;
      DistinctCount(s[..n]);
      assert s == s[..n] + [s[n]];
      assert Elems(s) == Elems(s[..n]) + {s[n]};
      assert s[n] !in s[..n];
    }
  }

  lemma SortedDistinct(r: seq<int>, s: seq<int>)
    requires multiset(r) == multiset(s) && Distinct(s)
    requires Sorted(r)
    ensures Ascending(r)
  {
    forall i, j | 0 <= i < j < |r| ensures r[i] < r[j] {
      if r[i] == r[j] {
        assert r == r[..i] + [r[i]] + r[i + 1..j] + [r[j]] + r[j + 1..];
        assert multiset(r)[r[i]] >= 2;
        OnceEach(s, r[i]);
      }
    }
  }

  lemma {:induction false} OnceEach(s: seq<int>, x: int)
    requires Distinct(s)
    ensures multiset(s)[x] <= 1
  {
    if s != [] {
      var n := |s| - 1;
      assert s == s[..n] + [s[n]];
      OnceEach(s[..n], x);
      if x == s[n] {
        assert x !in s[..n];
        assert x !in multiset(s[..n]);
      }
    }
  }

  lemma OfAdd(done: set<Rev>, r: Rev, id: Id)
    ensures Of(done + {r}, id) == if id == r.id then Of(done, id) + {r.n} else Of(done, id)
  {
    forall x ensures x in Of(done + {r}, id) <==> x in Of(done, id) || (id == r.id && x == r.n) {
      assert x in Of(done + {r}, id) <==> Rev(id, x) in done + {r};
    }
  }

  lemma OfMember(revs: set<Rev>, r: Rev)
    ensures r.n in Of(revs, r.id) <==> r in revs
  {
  }

  ghost predicate Lists(out: map<Id, seq<int>>, revs: set<Rev>, id: Id) {
    && (id in out <==> Of(revs, id) != {})
    && (id in out ==> Distinct(out[id]) && Elems(out[id]) == Of(revs, id))
  }

  lemma ListsAdd(out: map<Id, seq<int>>, done: set<Rev>, r: Rev)
    requires Lists(out, done, r.id) && r !in done
    ensures var had := if r.id in out then out[r.id] else [];
      Lists(out[r.id := had + [r.n]], done + {r}, r.id)
  {
    var had := if r.id in out then out[r.id] else [];
    OfMember(done, r);
    OfAdd(done, r, r.id);
    assert r.n !in Elems(had);
    assert Elems(had + [r.n]) == Elems(had) + {r.n};
  }

  /** Groups a listing per ID. */
  method Group(revs: set<Rev>) returns (out: map<Id, seq<int>>)
    ensures forall id :: Lists(out, revs, id)
  {
    out := map[];
    var todo, done := revs, {};
    while todo != {}
      invariant todo + done == revs && todo !! done
      invariant forall id :: Lists(out, done, id)
      decreases |todo|
    {
      var r :| r in todo;
      todo := todo - {r};
      ghost var before := out;
      var had := if r.id in out then out[r.id] else [];
      out := out[r.id := had + [r.n]];
      forall id ensures Lists(out, done + {r}, id) {
        assert Lists(before, done, id);
        if id == r.id {
          ListsAdd(before, done, r);
        } else {
          OfAdd(done, r, id);
        }
      }
      done := done + {r};
    }
    assert done == revs;
  }

  /** Groups a listing into ascending revisions per ID. */
  method ById(revs: set<Rev>) returns (out: map<Id, seq<int>>)
    ensures forall id :: id in out <==> Of(revs, id) != {}
    ensures forall id :: id in out ==> Ascending(out[id]) && Elems(out[id]) == Of(revs, id)
  {
    out := Group(revs);
    var ids := out.Keys;
    ghost var raw := out;
    forall id ensures id in raw <==> Of(revs, id) != {}
      ensures id in raw ==> Distinct(raw[id]) && Elems(raw[id]) == Of(revs, id)
    {
      assert Lists(raw, revs, id);
    }
    while ids != {}
      invariant ids <= out.Keys == raw.Keys
      invariant forall id :: id in ids ==> out[id] == raw[id]
      invariant forall id :: id in out && id !in ids ==> Ascending(out[id]) && Elems(out[id]) == Of(revs, id)
      decreases |ids|
    {
      var id :| id in ids;
      ids := ids - {id};
      var sorted := SortInts(out[id]);
      SortedDistinct(sorted, out[id]);
      SameElems(sorted, out[id]);
      out := out[id := sorted];
    }
  }

  lemma LastIsMax(s: seq<int>, t: set<int>)
    requires Ascending(s) && Elems(s) == t && t != {}
    ensures s != [] && s[|s| - 1] == Max(t)
  {
    assert exists x :: x in s;
    assert s[|s| - 1] in t;
    var k :| 0 <= k < |s| && s[k] == Max(t);
  }

  /** The revisions of tr that local, whose listing is lr, has pruned. */
  method Deletions(lr: seq<int>, tr: seq<int>, ghost l: set<int>, ghost t: set<int>) returns (del: seq<int>)
    requires Ascending(lr) && Elems(lr) == l != {}
    requires Ascending(tr) && Elems(tr) == t != {}
    ensures Ascending(del) && Elems(del) == Proposed(l, t)
  {
    LastIsMax(tr, t);
    LastIsMax(lr, l);
    var localNewest, targetNewest := lr[|lr| - 1], tr[|tr| - 1];
    del := [];
    for k := 0 to |tr|
      invariant Ascending(del)
      invariant forall x :: x in del <==> x in tr[..k] && x !in lr && x != targetNewest && x < localNewest
    {
      var r := tr[k];
      assert tr[..k + 1] == tr[..k] + [r];
      if r !in lr && r != targetNewest && r < localNewest {
        forall j | 0 <= j < |del| ensures del[j] < r {
          assert del[j] in del;
        }
        del := del + [r];
      }
    }
    assert tr[..|tr|] == tr;
    forall x ensures x in del <==> x in Proposed(l, t) {
      assert (x in tr <==> x in Elems(tr)) && (x in lr <==> x in Elems(lr));
    }
  }

  /** Adds id to the plan. */
  method PlanId(plan: Plan, id: Id, lr: seq<int>, tr: seq<int>, allow: bool, ghost local: set<Rev>,
          ghost target: set<Rev>, ghost own: set<Id>)
    returns (out: Plan)
    requires id !in plan.delete && id !in plan.refused && id in own
    requires Ascending(lr) && Elems(lr) == Of(local, id) != {}
    requires Ascending(tr) && Elems(tr) == Of(target, id) != {}
    ensures Planned(out, local, target, own, allow, id) && Apart(plan, out, id)
  {
    hide Of, Proposed;
    out := plan;
    var del := Deletions(lr, tr, Of(local, id), Of(target, id));
    DistinctCount(del);
    DistinctCount(tr);
    if del == [] {
      return;
    }
    assert del[0] in Elems(del);
    if 2 * |del| > |tr| && !allow {
      out := plan.(refused := plan.refused[id := (|del|, |tr|)]);
    } else {
      out := plan.(delete := plan.delete[id := del]);
    }
  }

  /** Two plans that differ at most on id. */
  ghost predicate Apart(p: Plan, q: Plan, id: Id) {
    forall other | other != id ::
      && (other in p.delete <==> other in q.delete) && (other in p.delete ==> p.delete[other] == q.delete[other])
      && (other in p.refused <==> other in q.refused) && (other in p.refused ==> p.refused[other] == q.refused[other])
  }

  ghost predicate PlannedAll(plan: Plan, local: set<Rev>, target: set<Rev>, own: set<Id>, allow: bool) {
    forall id :: Planned(plan, local, target, own, allow, id)
  }

  method PlanMirror(local: set<Rev>, target: set<Rev>, own: set<Id>, allow: bool) returns (plan: Plan)
    ensures PlannedAll(plan, local, target, own, allow)
  {
    hide Of, Proposed, TooMany;
    plan := Plan(map[], map[]);
    forall id | Of(local, id) == {} || Of(target, id) == {} ensures Proposed(Of(local, id), Of(target, id)) == {} {
      ProposedNothing(Of(local, id), Of(target, id));
    }
    var lrevs := ById(local);
    var trevs := ById(target);
    var ids := trevs.Keys;
    while ids != {}
      invariant ids <= trevs.Keys
      invariant forall id :: id !in ids ==> Planned(plan, local, target, own, allow, id)
      invariant forall id :: id in ids ==> id !in plan.delete && id !in plan.refused
      decreases |ids|
    {
      ghost var before := plan;
      var id :| id in ids;
      ids := ids - {id};
      if id in own && id in lrevs {
        plan := PlanId(plan, id, lrevs[id], trevs[id], allow, local, target, own);
      }
      forall other | other !in ids ensures Planned(plan, local, target, own, allow, other) {
        assert other != id ==> Planned(before, local, target, own, allow, other);
      }
    }
  }

  lemma ProposedNothing(l: set<int>, t: set<int>)
    requires l == {} || t == {}
    ensures Proposed(l, t) == {}
  {
  }

  /** left is the plan without the revisions a reader holds. */
  ghost predicate LeftOf(left: Plan, plan: Plan, busy: set<Rev>) {
    && left.refused == plan.refused
    && (forall id :: id in left.delete <==>
      id in plan.delete && exists r :: r in plan.delete[id] && Rev(id, r) !in busy)
    && (forall id :: id in left.delete ==> Elems(left.delete[id]) == Elems(plan.delete[id]) - Of(busy, id))
  }

  /** The revisions of id that no reader holds, in order. */
  method Unread(id: Id, revs: seq<int>, busy: set<Rev>) returns (keep: seq<int>)
    ensures Elems(keep) == Elems(revs) - Of(busy, id)
    ensures keep != [] <==> exists r :: r in revs && Rev(id, r) !in busy
  {
    keep := [];
    for k := 0 to |revs|
      invariant forall x :: x in keep <==> x in revs[..k] && Rev(id, x) !in busy
    {
      assert revs[..k + 1] == revs[..k] + [revs[k]];
      if Rev(id, revs[k]) !in busy {
        keep := keep + [revs[k]];
      }
    }
    assert revs[..|revs|] == revs;
    if keep != [] {
      var x := keep[0];
      assert x in keep;
    }
    forall x ensures x in Elems(keep) <==> x in Elems(revs) && x !in Of(busy, id) {
      OfMember(busy, Rev(id, x));
    }
  }

  /** Drops from a plan the revisions a reader holds. */
  method LeaveInUse(plan: Plan, busy: set<Rev>) returns (out: Plan)
    ensures LeftOf(out, plan, busy)
  {
    var delete := plan.delete;
    var ids := plan.delete.Keys;
    while ids != {}
      invariant ids <= plan.delete.Keys && delete.Keys <= plan.delete.Keys
      invariant forall id :: id in ids ==> id in delete && delete[id] == plan.delete[id]
      invariant forall id :: id in plan.delete && id !in ids ==>
        (id in delete <==> exists r :: r in plan.delete[id] && Rev(id, r) !in busy)
      invariant forall id :: id in delete && id !in ids ==> Elems(delete[id]) == Elems(plan.delete[id]) - Of(busy, id)
      decreases |ids|
    {
      var id :| id in ids;
      ids := ids - {id};
      var keep := Unread(id, plan.delete[id], busy);
      if keep == [] {
        delete := delete - {id};
      } else {
        delete := delete[id := keep];
      }
    }
    out := Plan(delete, plan.refused);
  }

  // ----- repeated passes over one ID

  /** One finished pass over an ID without the override: refused, it deletes nothing. */
  ghost function Next(l: set<int>, t: set<int>, busy: set<int>): set<int> {
    if TooMany(l, t) then t else t - (Proposed(l, t) - busy)
  }

  lemma KeepsMax(l: set<int>, t: set<int>, gone: set<int>)
    requires gone <= Proposed(l, t)
    ensures t != {} ==> t - gone != {} && Max(t - gone) == Max(t)
  {
    if t != {} {
      assert Max(t) in t - gone;
    }
  }

  lemma CardinalityOf(t: set<int>, gone: set<int>)
    requires gone <= t
    ensures |t - gone| == |t| - |gone|
  {
    assert t == (t - gone) + gone;
  }

  /** After gone went, what is proposed is what was proposed and stayed. */
  lemma Replanned(l: set<int>, t: set<int>, gone: set<int>)
    requires gone <= Proposed(l, t)
    ensures Proposed(l, t - gone) == Proposed(l, t) - gone
  {
    KeepsMax(l, t, gone);
  }

  /** A pass that was not refused is never followed by a refusal: only what was held back remains. */
  lemma ReplanAfterPass(l: set<int>, t: set<int>, busy: set<int>)
    requires !TooMany(l, t)
    ensures Proposed(l, Next(l, t, busy)) == Proposed(l, t) * busy
    ensures !TooMany(l, Next(l, t, busy))
    ensures Proposed(l, t) !! busy ==> Proposed(l, Next(l, t, busy)) == {}
  {
    var d := Proposed(l, t);
    Replanned(l, t, d - busy);
    assert d - (d - busy) == d * busy;
    CardinalityOf(t, d - busy);
    CardinalityOf(d, d - busy);
  }

  /** With the override a follow-up is refused exactly when what was held back is over half of what is left. */
  lemma ReplanAfterOverride(l: set<int>, t: set<int>, busy: set<int>)
    ensures var d := Proposed(l, t);
      var t' := t - (d - busy);
      TooMany(l, t') <==> 2 * |d * busy| > |t| - |d - busy|
  {
    var d := Proposed(l, t);
    Replanned(l, t, d - busy);
    assert d - (d - busy) == d * busy;
    CardinalityOf(t, d - busy);
  }

  lemma OverrideWitness() returns (l: set<int>, t: set<int>, busy: set<int>)
    ensures TooMany(l, t) && TooMany(l, t - (Proposed(l, t) - busy))
  {
    l, t, busy := {9}, {1, 2, 3, 9}, {1, 2};
    var d := Proposed(l, t);
    assert Max(t) == 9 && Max(l) == 9;
    assert d == {1, 2, 3};
    assert t - (d - busy) == {1, 2, 9};
    assert d * busy == {1, 2};
    ReplanAfterOverride(l, t, busy);
    assert d - busy == {3};
  }

  ghost function Passes(l: set<int>, t: set<int>, busies: seq<set<int>>): set<int>
    decreases |busies|
  {
    if busies == [] then t else Passes(l, Next(l, t, busies[0]), busies[1..])
  }

  /** Those of s held back in every one of the passes. */
  function Held(s: set<int>, busies: seq<set<int>>): set<int>
    decreases |busies|
  {
    if busies == [] then s else Held(s * busies[0], busies[1..])
  }

  /** Where any number of passes lead: everything proposed goes but what was busy every time. */
  lemma {:induction false} PassesConverge(l: set<int>, t: set<int>, busies: seq<set<int>>)
    requires !TooMany(l, t)
    ensures Passes(l, t, busies) == t - (Proposed(l, t) - Held(Proposed(l, t), busies))
    ensures Proposed(l, Passes(l, t, busies)) == Held(Proposed(l, t), busies)
    ensures !TooMany(l, Passes(l, t, busies))
    decreases |busies|
  {
    hide Proposed, TooMany;
    var d := Proposed(l, t);
    if busies == [] {
      assert t - (d - d) == t;
    } else {
      ReplanAfterPass(l, t, busies[0]);
      PassesConverge(l, Next(l, t, busies[0]), busies[1..]);
      HeldWithin(d * busies[0], busies[1..]);
      InTwoGoes(t, d, busies[0], Held(d, busies));
    }
  }

  lemma InTwoGoes(t: set<int>, d: set<int>, busy: set<int>, held: set<int>)
    requires held <= d * busy
    ensures t - (d - busy) - (d * busy - held) == t - (d - held)
  {
  }

  lemma {:induction false} HeldWithin(s: set<int>, busies: seq<set<int>>)
    ensures Held(s, busies) == set r | r in s && forall k :: 0 <= k < |busies| ==> r in busies[k]
    decreases |busies|
  {
    if busies != [] {
      HeldWithin(s * busies[0], busies[1..]);
      forall r ensures (forall k :: 0 <= k < |busies| ==> r in busies[k]) <==>
        r in busies[0] && (forall k :: 0 <= k < |busies[1..]| ==> r in busies[1..][k])
      {
        assert (forall k :: 0 <= k < |busies[1..]| ==> busies[1..][k] == busies[k + 1]);
        assert forall k :: 1 <= k < |busies| ==> busies[k] == busies[1..][k - 1];
      }
    }
  }

  // ----- passes cut short

  /** One pass over an ID without the override: some of what is proposed and not held goes, if not refused. */
  ghost predicate Goes(l: set<int>, t: set<int>, busy: set<int>, after: set<int>) {
    after <= t && t - after <= if TooMany(l, t) then {} else Proposed(l, t) - busy
  }

  /** ts is an ID's listing before the first pass and after each, finished or cut short. */
  ghost predicate Going(l: set<int>, ts: seq<set<int>>, busies: seq<set<int>>) {
    |ts| == |busies| + 1 && forall k :: 0 <= k < |busies| ==> Goes(l, ts[k], busies[k], ts[k + 1])
  }

  lemma GoesOn(l: set<int>, t: set<int>, busy: set<int>, after: set<int>)
    requires !TooMany(l, t) && Goes(l, t, busy, after)
    ensures !TooMany(l, after)
    ensures Proposed(l, after) == Proposed(l, t) * after
    ensures Proposed(l, t) * busy <= Proposed(l, after)
    ensures after == Next(l, t, busy) ==> Proposed(l, after) <= busy
  {
    var d, gone := Proposed(l, t), t - after;
    assert after == t - gone;
    Replanned(l, t, gone);
    assert d - gone == d * after;
    CardinalityOf(t, gone);
    CardinalityOf(d, gone);
  }

  /**
   Passes that finish or are cut short anywhere: none after an unrefused first is refused, and what
   is still proposed is what was at first and has not gone, all that every pass held among it, and of
   it nothing that some finished pass did not hold.
   */
  lemma {:induction false} AnyPassesConverge(l: set<int>, ts: seq<set<int>>, busies: seq<set<int>>)
    requires Going(l, ts, busies) && !TooMany(l, ts[0])
    ensures var last, d := ts[|busies|], Proposed(l, ts[0]);
      && !TooMany(l, last)
      && Proposed(l, last) == d * last && last == ts[0] - (d - Proposed(l, last))
      && (forall r :: r in d && (forall k :: 0 <= k < |busies| ==> r in busies[k]) ==> r in last)
      && (forall k :: 0 <= k < |busies| && ts[k + 1] == Next(l, ts[k], busies[k]) ==> Proposed(l, last) <= busies[k])
    decreases |busies|
  {
    hide Proposed, TooMany, Next, Goes;
    var d := Proposed(l, ts[0]);
    if busies == [] {
      ProposedWithin(l, ts[0]);
    } else {
      var n := |busies| - 1;
      assert Going(l, ts[..n + 1], busies[..n]);
      AnyPassesConverge(l, ts[..n + 1], busies[..n]);
      GoesOn(l, ts[n], busies[n], ts[n + 1]);
      GoesWithin(l, ts[n], busies[n], ts[n + 1]);
      forall r | r in d && forall k :: 0 <= k < |busies| ==> r in busies[k] ensures r in ts[n + 1] {
        assert forall k :: 0 <= k < n ==> busies[..n][k] == busies[k];
        assert r in ts[..n + 1][n];
        assert r in Proposed(l, ts[n]) * busies[n];
      }
      TakenFrom(ts[0], d, ts[n], ts[n + 1]);
    }
  }

  lemma TakenFrom(t: set<int>, d: set<int>, now: set<int>, after: set<int>)
    requires now == t - (d - d * now) && after <= now && now - after <= d * now
    ensures after == t - (d - d * after)
  {
    forall x ensures x in after <==> x in t && (x in d ==> x in after) {
      if x in now && x !in after { assert x in now - after; }
    }
  }

  lemma ProposedWithin(l: set<int>, t: set<int>)
    ensures Proposed(l, t) <= t
  {
  }

  lemma GoesWithin(l: set<int>, t: set<int>, busy: set<int>, after: set<int>)
    requires Goes(l, t, busy, after)
    ensures after <= t && t - after <= Proposed(l, t)
  {
  }

  // ----- whole passes

  /** What a pass may delete: planned for an ID of this deployment, and nobody reads it. */
  ghost predicate MayDelete(local: set<Rev>, target: set<Rev>, own: set<Id>, busy: set<Rev>, r: Rev) {
    r.id in own && r !in busy && r.n in Proposed(Of(local, r.id), Of(target, r.id))
  }

  /** A pass, finished or cut short: some of what it may delete is gone. */
  ghost predicate Pass(local: set<Rev>, target: set<Rev>, own: set<Id>, busy: set<Rev>, after: set<Rev>) {
    after <= target && forall r :: r in target && r !in after ==> MayDelete(local, target, own, busy, r)
  }

  function Missing(local: set<Rev>, target: set<Rev>): set<Rev> {
    local - target
  }

  /** Of one ID, local has a newer revision, and so has the target, and local no longer has r itself. */
  ghost predicate Prunable(local: set<Rev>, target: set<Rev>, r: Rev) {
    && r in target && r !in local
    && (exists q :: q in local && q.id == r.id && q.n > r.n)
    && (exists q :: q in target && q.id == r.id && q.n > r.n)
  }

  ghost function PrunableOf(local: set<Rev>, target: set<Rev>, id: Id): set<int> {
    set r | r in target && r.id == id && Prunable(local, target, r) :: r.n
  }

  /** The rule by newest revisions is the rule by what is newer. */
  lemma ProposedMeans(local: set<Rev>, target: set<Rev>, id: Id)
    ensures Proposed(Of(local, id), Of(target, id)) == PrunableOf(local, target, id)
  {
    var l, t := Of(local, id), Of(target, id);
    forall n ensures n in Proposed(l, t) <==> n in PrunableOf(local, target, id) {
      OfMember(local, Rev(id, n));
      OfMember(target, Rev(id, n));
      if n in Proposed(l, t) {
        OfMember(local, Rev(id, Max(l)));
        OfMember(target, Rev(id, Max(t)));
        assert Rev(id, Max(l)) in local && Rev(id, Max(t)) in target;
        assert Prunable(local, target, Rev(id, n));
      }
      if n in PrunableOf(local, target, id) {
        var q :| q in local && q.id == id && q.n > n;
        var p :| p in target && p.id == id && p.n > n;
        OfMember(local, q);
        OfMember(target, p);
        assert q.n <= Max(l) && p.n <= Max(t);
      }
    }
  }

  /** No pass undoes a copy, empties an ID, or touches another deployment's or what local cannot have pruned. */
  lemma PassKeeps(local: set<Rev>, target: set<Rev>, own: set<Id>, busy: set<Rev>, after: set<Rev>)
    requires Pass(local, target, own, busy, after)
    ensures Missing(local, after) == Missing(local, target)
    ensures forall r :: r in target && r in local ==> r in after
    ensures forall r :: r in target && r in busy ==> r in after
    ensures forall r :: r in target && r.id !in own ==> r in after
    ensures forall r :: r in target && (forall q :: q in local && q.id == r.id ==> q.n <= r.n) ==> r in after
    ensures forall id :: Of(target, id) != {} ==> Of(after, id) != {} && Max(Of(after, id)) == Max(Of(target, id))
  {
    forall r | r in target && r in local ensures r in after {
      assert r.n in Of(local, r.id);
    }
    forall r | r in target && (forall q :: q in local && q.id == r.id ==> q.n <= r.n) ensures r in after {
      ProposedMeans(local, target, r.id);
      assert !Prunable(local, target, r);
    }
    forall id | Of(target, id) != {} ensures Of(after, id) != {} && Max(Of(after, id)) == Max(Of(target, id)) {
      var m := Max(Of(target, id));
      assert Rev(id, m) in target;
      assert Rev(id, m) in after;
      assert m in Of(after, id);
      assert Max(Of(after, id)) in Of(target, id);
    }
  }

  // ----- the pass as the worker makes it

  /** The revisions of the IDs that a plan deletes. */
  function Deleted(delete: map<Id, seq<int>>, ids: set<Id>): set<Rev> {
    set id, n | id in ids && id in delete && n in delete[id] :: Rev(id, n)
  }

  lemma OfTaken(target: set<Rev>, gone: set<Rev>, id: Id)
    ensures Of(target - gone, id) == Of(target, id) - Of(gone, id)
  {
    forall n ensures n in Of(target, id) <==> Rev(id, n) in target {
      assert n in Of(target, id) ==> Rev(id, n) in target;
    }
  }

  lemma OfDeleted(delete: map<Id, seq<int>>, ids: set<Id>, id: Id)
    ensures Of(Deleted(delete, ids), id) == if id in ids && id in delete then Elems(delete[id]) else {}
  {
    var d := Deleted(delete, ids);
    forall n ensures n in Of(d, id) <==> id in ids && id in delete && n in delete[id] {
      assert n in Of(d, id) <==> Rev(id, n) in d;
    }
  }

  /** What the plan leaves to delete of an ID is what the rule proposes and nobody reads, unless refused. */
  lemma LeftIs(local: set<Rev>, target: set<Rev>, own: set<Id>, busy: set<Rev>, allow: bool, plan: Plan, left: Plan,
          id: Id)
    requires PlannedAll(plan, local, target, own, allow) && LeftOf(left, plan, busy)
    ensures var l, t := Of(local, id), Of(target, id);
      (if id in left.delete then Elems(left.delete[id]) else {}) ==
      if id in own && (allow || !TooMany(l, t)) then Proposed(l, t) - Of(busy, id) else {}
  {
    hide Proposed, TooMany;
    assert Planned(plan, local, target, own, allow, id);
    if id in plan.delete && id !in left.delete {
      forall n | n in Elems(plan.delete[id]) ensures n in Of(busy, id) {
        assert Rev(id, n) in busy;
      }
    }
  }

  /** Carried out in full without the override, the pass is Next of every own ID, and nothing of another's. */
  lemma CarriedOut(local: set<Rev>, target: set<Rev>, own: set<Id>, busy: set<Rev>, plan: Plan, left: Plan, id: Id)
    requires PlannedAll(plan, local, target, own, false) && LeftOf(left, plan, busy)
    ensures Of(target - Deleted(left.delete, left.delete.Keys), id) ==
      if id in own then Next(Of(local, id), Of(target, id), Of(busy, id)) else Of(target, id)
  {
    hide Proposed, TooMany, Of, PlannedAll, LeftOf;
    OfTaken(target, Deleted(left.delete, left.delete.Keys), id);
    OfDeleted(left.delete, left.delete.Keys, id);
    LeftIs(local, target, own, busy, false, plan, left, id);
  }

  /** Prunable, not in use, and of an ID the pass may take from. */
  ghost predicate Taken(local: set<Rev>, target: set<Rev>, own: set<Id>, busy: set<Rev>, allow: bool, r: Rev) {
    && r.id in own && r !in busy && Prunable(local, target, r)
    && (allow || 2 * |PrunableOf(local, target, r.id)| <= |Of(target, r.id)|)
  }

  /** What a finished pass leaves. */
  ghost predicate Finished(local: set<Rev>, target: set<Rev>, own: set<Id>, busy: set<Rev>, allow: bool,
          after: set<Rev>)
  {
    forall r :: r in after <==> r in target && !Taken(local, target, own, busy, allow, r)
  }

  lemma FinishedPass(local: set<Rev>, target: set<Rev>, own: set<Id>, busy: set<Rev>, allow: bool, plan: Plan,
          left: Plan)
    requires PlannedAll(plan, local, target, own, allow) && LeftOf(left, plan, busy)
    ensures Finished(local, target, own, busy, allow, target - Deleted(left.delete, left.delete.Keys))
  {
    hide Proposed, PlannedAll, LeftOf, Prunable, Deleted, PrunableOf;
    var gone := Deleted(left.delete, left.delete.Keys);
    forall r | r in target ensures r in gone <==> Taken(local, target, own, busy, allow, r) {
      ProposedMeans(local, target, r.id);
      PrunableMember(local, target, r);
      LeftIs(local, target, own, busy, allow, plan, left, r.id);
      OfDeleted(left.delete, left.delete.Keys, r.id);
      OfMember(gone, r);
      OfMember(busy, r);
    }
  }

  lemma PrunableMember(local: set<Rev>, target: set<Rev>, r: Rev)
    ensures r.n in PrunableOf(local, target, r.id) <==> Prunable(local, target, r)
  {
  }

  /** Cut short anywhere, with the override or not, it has deleted only what a pass may. */
  lemma PartIsPass(local: set<Rev>, target: set<Rev>, own: set<Id>, busy: set<Rev>, allow: bool, plan: Plan,
          left: Plan, gone: set<Rev>)
    requires PlannedAll(plan, local, target, own, allow) && LeftOf(left, plan, busy)
    requires gone <= Deleted(left.delete, left.delete.Keys)
    ensures Pass(local, target, own, busy, target - gone)
  {
    hide Proposed, TooMany;
    forall r | r in target && r !in target - gone ensures MayDelete(local, target, own, busy, r) {
      LeftIs(local, target, own, busy, allow, plan, left, r.id);
      assert r in Deleted(left.delete, left.delete.Keys);
      assert r.n in Elems(left.delete[r.id]);
      assert r.n in Of(busy, r.id) <==> r in busy;
    }
  }

  /** One pass: planned, freed of what is in use, deleted ID by ID until done or stopped. */
  method ApplyMirror(local: set<Rev>, target: set<Rev>, own: set<Id>, busy: set<Rev>, allow: bool, goes: nat)
    returns (after: set<Rev>, left: Plan, finished: bool)
    ensures Pass(local, target, own, busy, after)
    ensures exists plan :: PlannedAll(plan, local, target, own, allow) && LeftOf(left, plan, busy)
    ensures finished ==> after == target - Deleted(left.delete, left.delete.Keys)
    ensures finished ==> Finished(local, target, own, busy, allow, after)
    ensures finished && !allow ==> after == Passed(local, target, own, busy)
    ensures goes >= |left.delete| ==> finished
  {
    hide *;
    var plan := PlanMirror(local, target, own, allow);
    left := LeaveInUse(plan, busy);
    var ids, done, n := left.delete.Keys, {}, 0;
    after := target;
    DeletedNone(left.delete);
    while ids != {} && n < goes
      invariant done + ids == left.delete.Keys && done !! ids && n == |done|
      invariant after == target - Deleted(left.delete, done)
      decreases |ids|
    {
      var id :| id in ids;
      DeletedMore(left.delete, done, id);
      after := after - (set k | k in left.delete[id] :: Rev(id, k));
      ids, done, n := ids - {id}, done + {id}, n + 1;
    }
    finished := ids == {};
    KeysCount(left.delete, done, ids);
    DeletedWithin(left.delete, done);
    PartIsPass(local, target, own, busy, allow, plan, left, Deleted(left.delete, done));
    if finished {
      assert done == left.delete.Keys;
      FinishedPass(local, target, own, busy, allow, plan, left);
      if !allow { PassedIs(local, target, own, busy, plan, left); }
    }
  }

  lemma DeletedNone(delete: map<Id, seq<int>>)
    ensures Deleted(delete, {}) == {}
  {
  }

  lemma DeletedMore(delete: map<Id, seq<int>>, done: set<Id>, id: Id)
    requires id in delete
    ensures Deleted(delete, done + {id}) == Deleted(delete, done) + (set k | k in delete[id] :: Rev(id, k))
  {
  }

  lemma DeletedWithin(delete: map<Id, seq<int>>, done: set<Id>)
    requires done <= delete.Keys
    ensures Deleted(delete, done) <= Deleted(delete, delete.Keys)
  {
  }

  lemma KeysCount(delete: map<Id, seq<int>>, done: set<Id>, ids: set<Id>)
    requires done + ids == delete.Keys && done !! ids
    ensures |delete| == |done| + |ids|
  {
    assert |delete| == |delete.Keys|;
  }

  /** A target after one finished pass. */
  ghost function Passed(local: set<Rev>, target: set<Rev>, own: set<Id>, busy: set<Rev>): set<Rev> {
    set r | r in target && (r.id in own ==> r.n in Next(Of(local, r.id), Of(target, r.id), Of(busy, r.id)))
  }

  lemma OfPassed(local: set<Rev>, target: set<Rev>, own: set<Id>, busy: set<Rev>, id: Id)
    ensures Of(Passed(local, target, own, busy), id) ==
      if id in own then Next(Of(local, id), Of(target, id), Of(busy, id)) else Of(target, id)
  {
    hide Proposed, TooMany;
    var after := Passed(local, target, own, busy);
    forall n ensures n in Of(after, id) <==> Rev(id, n) in after { OfMember(after, Rev(id, n)); }
    forall n ensures n in Of(target, id) <==> Rev(id, n) in target { OfMember(target, Rev(id, n)); }
  }

  lemma PassedIs(local: set<Rev>, target: set<Rev>, own: set<Id>, busy: set<Rev>, plan: Plan, left: Plan)
    requires PlannedAll(plan, local, target, own, false) && LeftOf(left, plan, busy)
    ensures target - Deleted(left.delete, left.delete.Keys) == Passed(local, target, own, busy)
  {
    hide Next, PlannedAll, LeftOf, Deleted;
    var after := target - Deleted(left.delete, left.delete.Keys);
    forall r ensures r in after <==> r in Passed(local, target, own, busy) {
      CarriedOut(local, target, own, busy, plan, left, r.id);
      OfPassed(local, target, own, busy, r.id);
      OfMember(after, r);
      OfMember(Passed(local, target, own, busy), r);
    }
  }

  // ----- whole listings, planned again and again

  /**
   Replanning after a finished pass: exactly what was planned and held back as in use is
   proposed again, nothing else is, and exactly what was refused before is refused, as before.
   */
  lemma PlanAfterPass(local: set<Rev>, target: set<Rev>, own: set<Id>, busy: set<Rev>, plan: Plan, again: Plan, id: Id)
    requires PlannedAll(plan, local, target, own, false)
    requires PlannedAll(again, local, Passed(local, target, own, busy), own, false)
    ensures id in again.delete <==> id in plan.delete && Elems(plan.delete[id]) * Of(busy, id) != {}
    ensures id in again.delete ==> Elems(again.delete[id]) == Elems(plan.delete[id]) * Of(busy, id)
    ensures (id in again.refused <==> id in plan.refused) &&
      (id in again.refused ==> again.refused[id] == plan.refused[id])
  {
    hide Proposed, TooMany, Of, Passed;
    var l, t, b := Of(local, id), Of(target, id), Of(busy, id);
    assert Planned(plan, local, target, own, false, id);
    assert Planned(again, local, Passed(local, target, own, busy), own, false, id);
    OfPassed(local, target, own, busy, id);
    if !TooMany(l, t) { ReplanAfterPass(l, t, b); }
    assert {} * b == {};
  }

  ghost function PassedAll(local: set<Rev>, target: set<Rev>, own: set<Id>, busies: seq<set<Rev>>): set<Rev>
    decreases |busies|
  {
    if busies == [] then target else PassedAll(local, Passed(local, target, own, busies[0]), own, busies[1..])
  }

  function OfEach(busies: seq<set<Rev>>, id: Id): seq<set<int>>
    decreases |busies|
  {
    if busies == [] then [] else [Of(busies[0], id)] + OfEach(busies[1..], id)
  }

  lemma {:induction false} OfPassedAll(local: set<Rev>, target: set<Rev>, own: set<Id>, busies: seq<set<Rev>>, id: Id)
    ensures Of(PassedAll(local, target, own, busies), id) ==
      if id in own then Passes(Of(local, id), Of(target, id), OfEach(busies, id)) else Of(target, id)
    decreases |busies|
  {
    hide Of, Passed, Next;
    if busies != [] {
      OfPassed(local, target, own, busies[0], id);
      OfPassedAll(local, Passed(local, target, own, busies[0]), own, busies[1..], id);
      assert OfEach(busies, id)[1..] == OfEach(busies[1..], id);
    }
  }

  /**
   Any number of finished passes over whole listings: an ID planned at first has lost everything
   planned but what was in use at every pass, which is all a plan then proposes of it, and none
   of its passes was refused; an ID refused at first, or of another deployment, has lost nothing.
   */
  lemma ListingsConverge(local: set<Rev>, target: set<Rev>, own: set<Id>, busies: seq<set<Rev>>, plan: Plan,
          last: Plan, id: Id)
    requires PlannedAll(plan, local, target, own, false)
    requires PlannedAll(last, local, PassedAll(local, target, own, busies), own, false)
    ensures var stays := if id in plan.delete then Held(Elems(plan.delete[id]), OfEach(busies, id)) else {};
      && Of(PassedAll(local, target, own, busies), id) ==
           Of(target, id) - ((if id in plan.delete then Elems(plan.delete[id]) else {}) - stays)
      && (id in last.delete <==> stays != {}) && (id in last.delete ==> Elems(last.delete[id]) == stays)
      && (id in last.refused <==> id in plan.refused)
  {
    hide Proposed, TooMany, Of, Passed, PassedAll, Next;
    var l, t, each := Of(local, id), Of(target, id), OfEach(busies, id);
    assert Planned(plan, local, target, own, false, id);
    assert Planned(last, local, PassedAll(local, target, own, busies), own, false, id);
    OfPassedAll(local, target, own, busies, id);
    if TooMany(l, t) {
      RefusedStays(l, t, each);
    } else {
      PassesConverge(l, t, each);
    }
    NoneHeld(each);
  }

  lemma {:induction false} RefusedStays(l: set<int>, t: set<int>, busies: seq<set<int>>)
    requires TooMany(l, t)
    ensures Passes(l, t, busies) == t
    decreases |busies|
  {
    if busies != [] { RefusedStays(l, t, busies[1..]); }
  }

  lemma {:induction false} NoneHeld(busies: seq<set<int>>)
    ensures Held({}, busies) == {}
    decreases |busies|
  {
    if busies != [] {
      assert {} * busies[0] == {};
      NoneHeld(busies[1..]);
    }
  }

  // ----- the same with passes cut short, and after the override

  /** A pass without the override, finished or cut short: nothing of a refused ID is gone. */
  ghost predicate Unforced(local: set<Rev>, target: set<Rev>, own: set<Id>, busy: set<Rev>, after: set<Rev>) {
    && Pass(local, target, own, busy, after)
    && forall r :: r in target && r !in after ==> !TooMany(Of(local, r.id), Of(target, r.id))
  }

  lemma PartIsUnforced(local: set<Rev>, target: set<Rev>, own: set<Id>, busy: set<Rev>, plan: Plan, left: Plan,
          gone: set<Rev>)
    requires PlannedAll(plan, local, target, own, false) && LeftOf(left, plan, busy)
    requires gone <= Deleted(left.delete, left.delete.Keys)
    ensures Unforced(local, target, own, busy, target - gone)
  {
    hide Proposed, TooMany, Pass;
    PartIsPass(local, target, own, busy, false, plan, left, gone);
    forall r | r in target && r !in target - gone ensures !TooMany(Of(local, r.id), Of(target, r.id)) {
      assert r in Deleted(left.delete, left.delete.Keys);
      assert Planned(plan, local, target, own, false, r.id);
    }
  }

  /** What such a pass does to one ID. */
  lemma UnforcedGoes(local: set<Rev>, target: set<Rev>, own: set<Id>, busy: set<Rev>, after: set<Rev>, id: Id)
    requires Unforced(local, target, own, busy, after)
    ensures Goes(Of(local, id), Of(target, id), Of(busy, id), Of(after, id))
    ensures id !in own ==> Of(after, id) == Of(target, id)
  {
    hide Proposed, TooMany;
    var gone := Of(target, id) - Of(after, id);
    forall n | n in Of(after, id) ensures n in Of(target, id) { OfMember(after, Rev(id, n)); }
    forall n | n in gone
      ensures id in own && !TooMany(Of(local, id), Of(target, id))
      ensures n in Proposed(Of(local, id), Of(target, id)) && n !in Of(busy, id)
    {
      OfMember(target, Rev(id, n));
      OfMember(after, Rev(id, n));
      OfMember(busy, Rev(id, n));
      assert MayDelete(local, target, own, busy, Rev(id, n));
    }
  }

  /** targets are the target's listings before the first pass and after each. */
  ghost predicate Passing(local: set<Rev>, targets: seq<set<Rev>>, own: set<Id>, busies: seq<set<Rev>>) {
    && |targets| == |busies| + 1
    && forall k :: 0 <= k < |busies| ==> Unforced(local, targets[k], own, busies[k], targets[k + 1])
  }

  function Each(sets: seq<set<Rev>>, id: Id): (out: seq<set<int>>)
    ensures |out| == |sets| && forall k :: 0 <= k < |sets| ==> out[k] == Of(sets[k], id)
  {
    seq(|sets|, k requires 0 <= k < |sets| => Of(sets[k], id))
  }

  lemma PassingGoes(local: set<Rev>, targets: seq<set<Rev>>, own: set<Id>, busies: seq<set<Rev>>, id: Id)
    requires Passing(local, targets, own, busies)
    ensures Going(Of(local, id), Each(targets, id), Each(busies, id))
  {
    hide Of, Goes, Unforced;
    forall k | 0 <= k < |busies|
      ensures Goes(Of(local, id), Of(targets[k], id), Of(busies[k], id), Of(targets[k + 1], id))
    {
      UnforcedGoes(local, targets[k], own, busies[k], targets[k + 1], id);
    }
  }

  /** An ID with nothing planned at first loses nothing in any of them. */
  lemma {:induction false} UnplannedStays(local: set<Rev>, targets: seq<set<Rev>>, own: set<Id>, busies: seq<set<Rev>>,
          id: Id)
    requires Passing(local, targets, own, busies)
    requires var l, t := Of(local, id), Of(targets[0], id); id !in own || TooMany(l, t) || Proposed(l, t) == {}
    ensures Of(targets[|busies|], id) == Of(targets[0], id)
    decreases |busies|
  {
    hide Of, TooMany, Proposed, Unforced;
    if busies != [] {
      var n := |busies| - 1;
      UnplannedStays(local, targets[..n + 1], own, busies[..n], id);
      UnforcedGoes(local, targets[n], own, busies[n], targets[n + 1], id);
    }
  }

  /**
   Any number of passes over whole listings, each finished or cut short at any deletion: the last
   plan refuses exactly the IDs the first refused, which have lost nothing, and proposes of the others
   what was planned at first and is still there, all that every pass held among it, and of it nothing
   that some finished pass did not hold.
   */
  lemma CutShortConverge(local: set<Rev>, targets: seq<set<Rev>>, own: set<Id>, busies: seq<set<Rev>>, plan: Plan,
          last: Plan, id: Id)
    requires Passing(local, targets, own, busies)
    requires PlannedAll(plan, local, targets[0], own, false)
    requires PlannedAll(last, local, targets[|busies|], own, false)
    ensures id in last.refused <==> id in plan.refused
    ensures id !in plan.delete ==> id !in last.delete && Of(targets[|busies|], id) == Of(targets[0], id)
    ensures id in plan.delete ==>
      var stays := Elems(plan.delete[id]) * Of(targets[|busies|], id);
      && (id in last.delete <==> stays != {}) && (id in last.delete ==> Elems(last.delete[id]) == stays)
      && Of(targets[|busies|], id) == Of(targets[0], id) - (Elems(plan.delete[id]) - stays)
      && (forall n :: n in plan.delete[id] && (forall k :: 0 <= k < |busies| ==> Rev(id, n) in busies[k]) ==>
            n in stays)
      && forall k :: 0 <= k < |busies| && targets[k + 1] == Passed(local, targets[k], own, busies[k]) ==>
           stays <= Of(busies[k], id)
  {
    hide Proposed, TooMany, Of, Passed, Next, Unforced;
    var l, ts, bs := Of(local, id), Each(targets, id), Each(busies, id);
    assert Planned(plan, local, targets[0], own, false, id);
    assert Planned(last, local, targets[|busies|], own, false, id);
    PassingGoes(local, targets, own, busies, id);
    if id !in own || TooMany(l, ts[0]) || Proposed(l, ts[0]) == {} {
      UnplannedStays(local, targets, own, busies, id);
    } else {
      AnyPassesConverge(l, ts, bs);
      forall n | n in Proposed(l, ts[0]) && forall k :: 0 <= k < |busies| ==> Rev(id, n) in busies[k]
        ensures n in ts[|busies|]
      {
        forall k | 0 <= k < |busies| ensures n in bs[k] { OfMember(busies[k], Rev(id, n)); }
      }
      forall k | 0 <= k < |busies| && targets[k + 1] == Passed(local, targets[k], own, busies[k])
        ensures ts[k + 1] == Next(l, ts[k], bs[k])
      {
        OfPassed(local, targets[k], own, busies[k], id);
      }
    }
  }

  /**
   Replanning after an allowed pass, finished or cut short: what was planned and has not gone is
   proposed again, and refused exactly when it is over half of what the target is left with.
   */
  lemma PlanAfterOverride(local: set<Rev>, target: set<Rev>, own: set<Id>, busy: set<Rev>, plan: Plan, left: Plan,
          gone: set<Rev>, again: Plan, id: Id)
    requires PlannedAll(plan, local, target, own, true) && LeftOf(left, plan, busy)
    requires gone <= Deleted(left.delete, left.delete.Keys)
    requires PlannedAll(again, local, target - gone, own, false)
    ensures var d := if id in plan.delete then Elems(plan.delete[id]) else {};
      var stays, rest := d - Of(gone, id), |Of(target, id)| - |Of(gone, id)|;
      && (id in again.refused <==> 2 * |stays| > rest)
      && (id in again.refused ==> again.refused[id] == (|stays|, rest))
      && (id in again.delete <==> stays != {} && 2 * |stays| <= rest)
      && (id in again.delete ==> Elems(again.delete[id]) == stays)
      && (gone == Deleted(left.delete, left.delete.Keys) ==> stays == d * Of(busy, id))
  {
    assert Planned(plan, local, target, own, true, id);
    assert Planned(again, local, target - gone, own, false, id);
    hide Proposed, TooMany, Of, Deleted, PlannedAll, LeftOf, Elems;
    StillProposed(local, target, own, busy, plan, left, gone, id);
    if id in own {
      assert (if id in plan.delete then Elems(plan.delete[id]) else {}) == Proposed(Of(local, id), Of(target, id));
      hide Planned;
      Replan(local, target, own, gone, again, id);
    } else {
      assert Of(gone, id) == {};
    }
  }

  /** The next plan of an ID, of what is left. */
  lemma Replan(local: set<Rev>, target: set<Rev>, own: set<Id>, gone: set<Rev>, again: Plan, id: Id)
    requires id in own && StillOf(local, target, own, gone, id) && Planned(again, local, target - gone, own, false, id)
    ensures var stays := Proposed(Of(local, id), Of(target, id)) - Of(gone, id);
      var rest := |Of(target, id)| - |Of(gone, id)|;
      && (id in again.refused <==> 2 * |stays| > rest)
      && (id in again.refused ==> again.refused[id] == (|stays|, rest))
      && (id in again.delete <==> stays != {} && 2 * |stays| <= rest)
      && (id in again.delete ==> Elems(again.delete[id]) == stays)
  {
    hide Proposed, TooMany, Of, Elems;
  }

  /** What is proposed of an ID after some of an allowed pass, and whether that is too many. */
  lemma StillProposed(local: set<Rev>, target: set<Rev>, own: set<Id>, busy: set<Rev>, plan: Plan, left: Plan,
          gone: set<Rev>, id: Id)
    requires PlannedAll(plan, local, target, own, true) && LeftOf(left, plan, busy)
    requires gone <= Deleted(left.delete, left.delete.Keys)
    ensures StillOf(local, target, own, gone, id)
    ensures gone == Deleted(left.delete, left.delete.Keys) && id in own ==>
      Proposed(Of(local, id), Of(target, id)) - Of(gone, id) == Proposed(Of(local, id), Of(target, id)) * Of(busy, id)
  {
    hide Proposed, TooMany, Of, Deleted, PlannedAll, LeftOf;
    OfTaken(target, gone, id);
    GoneOf(local, target, own, busy, plan, left, gone, id);
    if id in own {
      ReplanAfterPart(Of(local, id), Of(target, id), Of(gone, id));
      StayBusy(Proposed(Of(local, id), Of(target, id)), Of(busy, id));
    }
  }

  ghost predicate StillOf(local: set<Rev>, target: set<Rev>, own: set<Id>, gone: set<Rev>, id: Id) {
    var l, t, g := Of(local, id), Of(target, id), Of(gone, id);
    if id in own then
      && Of(target - gone, id) == t - g && |t - g| == |t| - |g|
      && Proposed(l, t - g) == Proposed(l, t) - g
      && (TooMany(l, t - g) <==> 2 * |Proposed(l, t) - g| > |t| - |g|)
    else g == {}
  }

  lemma StayBusy(d: set<int>, busy: set<int>)
    ensures d - (d - busy) == d * busy
  {
  }

  /** What is gone of an ID after some of an allowed pass was planned and read by nobody. */
  lemma GoneOf(local: set<Rev>, target: set<Rev>, own: set<Id>, busy: set<Rev>, plan: Plan, left: Plan,
          gone: set<Rev>, id: Id)
    requires PlannedAll(plan, local, target, own, true) && LeftOf(left, plan, busy)
    requires gone <= Deleted(left.delete, left.delete.Keys)
    ensures var free := if id in own then Proposed(Of(local, id), Of(target, id)) - Of(busy, id) else {};
      && Of(gone, id) <= free
      && (gone == Deleted(left.delete, left.delete.Keys) ==> Of(gone, id) == free)
  {
    LeftIs(local, target, own, busy, true, plan, left, id);
    hide Proposed, Of, PlannedAll, LeftOf, Deleted;
    OfWithin(gone, Deleted(left.delete, left.delete.Keys), id);
    OfDeleted(left.delete, left.delete.Keys, id);
  }

  lemma ReplanAfterPart(l: set<int>, t: set<int>, gone: set<int>)
    requires gone <= Proposed(l, t)
    ensures Proposed(l, t - gone) == Proposed(l, t) - gone && |t - gone| == |t| - |gone|
    ensures TooMany(l, t - gone) <==> 2 * |Proposed(l, t) - gone| > |t| - |gone|
  {
    ProposedWithin(l, t);
    hide Proposed;
    Replanned(l, t, gone);
    CardinalityOf(t, gone);
  }

  lemma OfWithin(a: set<Rev>, b: set<Rev>, id: Id)
    requires a <= b
    ensures Of(a, id) <= Of(b, id)
  {
  }
}
