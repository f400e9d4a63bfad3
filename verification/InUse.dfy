/**
 The registry's rows: which snapshot revisions a reader's registration says are in use, and
 what a copy registers while it lists and after it knows what the target lacks.
 */
module InUse {
  /** One line of a registration. Id "*" stands for every ID the registration does not name. */
  datatype Row = Row(storage: string, id: string, rev: int, andNewer: bool)

  const ANY_ID := "*"

  predicate RowCovers(r: Row, rev: int) {
    rev == r.rev || (r.andNewer && rev >= r.rev)
  }

  predicate Names(rows: seq<Row>, storage: string, id: string) {
    exists k :: 0 <= k < |rows| && rows[k].storage == storage && rows[k].id == id
  }

  predicate NamesCovering(rows: seq<Row>, storage: string, id: string, rev: int) {
    exists k :: 0 <= k < |rows| && rows[k].storage == storage && rows[k].id == id && RowCovers(rows[k], rev)
  }

  /** What a registration covers on a storage: the rows naming the ID, or "*" when none does. */
  predicate Covers(rows: seq<Row>, storage: string, id: string, rev: int) {
    NamesCovering(rows, storage, id, rev) || (!Names(rows, storage, id) && NamesCovering(rows, storage, ANY_ID, rev))
  }

  // ----- reading a registry

  /** The lines for storage, each as often as it is there and in order. */
  function ForStorage(lines: seq<Row>, storage: string): seq<Row> {
    if lines == [] then []
    else
      var n := |lines| - 1;
      ForStorage(lines[..n], storage) + (if lines[n].storage == storage then [lines[n]] else [])
  }

  /** The lines of one file that are for storage. */
  method Parse(lines: seq<Row>, storage: string) returns (out: seq<Row>)
    ensures out == ForStorage(lines, storage)
    ensures forall r :: r in out <==> r in lines && r.storage == storage
    ensures forall id, rev :: Covers(out, storage, id, rev) <==> Covers(lines, storage, id, rev)
  {
    out := [];
    for k := 0 to |lines|
      invariant out == ForStorage(lines[..k], storage)
      invariant forall r :: r in out <==> r in lines[..k] && r.storage == storage
    {
      assert lines[..k + 1] == lines[..k] + [lines[k]] && lines[..k + 1][..k] == lines[..k];
      if lines[k].storage != storage {
        continue;
      }
      out := out + [lines[k]];
    }
    assert lines[..|lines|] == lines;
    forall id, rev ensures Covers(out, storage, id, rev) <==> Covers(lines, storage, id, rev) {
      SameRowsCover(out, lines, storage, id, rev);
    }
  }

  lemma SameRowsCover(a: seq<Row>, b: seq<Row>, storage: string, id: string, rev: int)
    requires forall r :: r in a <==> r in b && r.storage == storage
    ensures Covers(a, storage, id, rev) <==> Covers(b, storage, id, rev)
  {
    SameNamed(a, b, storage, id, rev);
    SameNamed(a, b, storage, ANY_ID, rev);
  }

  lemma SameNamed(a: seq<Row>, b: seq<Row>, storage: string, id: string, rev: int)
    requires forall r :: r in a <==> r in b && r.storage == storage
    ensures Names(a, storage, id) <==> Names(b, storage, id)
    ensures NamesCovering(a, storage, id, rev) <==> NamesCovering(b, storage, id, rev)
  {
    assert forall k :: 0 <= k < |a| ==> a[k] in b;
    assert forall k :: 0 <= k < |b| && b[k].storage == storage ==> b[k] in a;
  }

  /** What every live reader registered on one storage. */
  class Set {
    var holdings: seq<seq<Row>>
    const storage: string

    ghost predicate Valid()
      reads this
    {
      forall h, r :: h in holdings && r in h ==> r.storage == storage
    }

    constructor (storage: string)
      ensures Valid() && holdings == [] && this.storage == storage
    {
      this.storage := storage;
      holdings := [];
    }

    method Add(lines: seq<Row>)
      requires Valid()
      modifies this
      ensures Valid()
      ensures forall id, rev :: Busy(id, rev) <==> old(Busy(id, rev)) || Covers(lines, storage, id, rev)
    {
      var revs := Parse(lines, storage);
      ghost var before := holdings;
      if |revs| > 0 {
        holdings := holdings + [revs];
      }
      forall id, rev
        ensures Busy(id, rev) <==>
          (exists h :: h in before && Covers(h, storage, id, rev)) || Covers(lines, storage, id, rev)
      {
        if Covers(lines, storage, id, rev) {
          assert revs != [];
          assert revs in holdings;
        }
        if h :| h in before && Covers(h, storage, id, rev) {
          assert h in holdings;
        }
      }
    }

    ghost predicate Busy(id: string, rev: int)
      reads this
    {
      exists h :: h in holdings && Covers(h, storage, id, rev)
    }

    /** Whether any reader still needs id's revision rev. */
    method Has(id: string, rev: int) returns (busy: bool)
      requires Valid()
      ensures busy == Busy(id, rev)
    {
      for n := 0 to |holdings|
        invariant forall m :: 0 <= m < n ==> !Covers(holdings[m], storage, id, rev)
      {
        var h := holdings[n];
        var named := false;
        for k := 0 to |h|
          invariant named <==> exists j :: 0 <= j < k && h[j].id == id
          invariant forall j :: 0 <= j < k && h[j].id == id ==> !RowCovers(h[j], rev)
        {
          assert h[k] in h;
          if h[k].id == id {
            named := true;
            if RowCovers(h[k], rev) {
              assert Covers(h, storage, id, rev);
              return true;
            }
          }
        }
        assert named <==> Names(h, storage, id);
        if named {
          continue;
        }
        for k := 0 to |h|
          invariant forall j :: 0 <= j < k && h[j].id == ANY_ID ==> !RowCovers(h[j], rev)
        {
          assert h[k] in h;
          if h[k].id == ANY_ID && RowCovers(h[k], rev) {
            assert Covers(h, storage, id, rev);
            return true;
          }
        }
      }
      return false;
    }
  }

  /** The revisions of one ID not in busy, in order. */
  function Free(revs: seq<int>, busy: set<int>): seq<int> {
    if revs == [] then []
    else (if revs[0] in busy then [] else [revs[0]]) + Free(revs[1..], busy)
  }

  /** The revisions of one ID in busy, in order. */
  function Held(revs: seq<int>, busy: set<int>): seq<int> {
    if revs == [] then []
    else (if revs[0] in busy then [revs[0]] else []) + Held(revs[1..], busy)
  }

  lemma {:induction false} FreeAndHeld(revs: seq<int>, busy: set<int>)
    ensures forall r :: r in Free(revs, busy) <==> r in revs && r !in busy
    ensures forall r :: r in Held(revs, busy) <==> r in revs && r in busy
    ensures multiset(Free(revs, busy)) + multiset(Held(revs, busy)) == multiset(revs)
  {
    if revs != [] {
      FreeAndHeld(revs[1..], busy);
      assert revs == [revs[0]] + revs[1..];
    }
  }

  /** Separates one ID's planned deletions into those to make now and those that wait. */
  method Split(planned: seq<int>, busy: set<int>) returns (now: seq<int>, held: seq<int>)
    ensures now == Free(planned, busy) && held == Held(planned, busy)
  {
    now, held := [], [];
    for k := 0 to |planned|
      invariant now + Free(planned[k..], busy) == Free(planned, busy)
      invariant held + Held(planned[k..], busy) == Held(planned, busy)
    {
      var r := planned[k];
      assert planned[k..][1..] == planned[k + 1..];
      if r in busy {
        held := held + [r];
      } else {
        now := now + [r];
      }
    }
  }

  // ----- what a copy registers

  /** "id:revision", as the primary's listing gives it. */
  datatype Key = Key(id: string, rev: int)

  ghost predicate Newest(local: set<Key>, newest: map<string, int>) {
    && (forall k :: k in local ==> k.id in newest && k.rev <= newest[k.id])
    && (forall id :: id in newest ==> Key(id, newest[id]) in local)
  }

  /** A listing: revisions start at 1, and no snapshot ID is the wildcard. */
  predicate Listing(local: set<Key>) {
    forall k :: k in local ==> k.rev >= 1 && k.id != ANY_ID
  }

  lemma NewestAdd(done: set<Key>, newest: map<string, int>, k: Key)
    requires Newest(done, newest) && k.rev >= 1
    ensures var before := if k.id in newest then newest[k.id] else 0;
      Newest(done + {k}, if k.rev > before then newest[k.id := k.rev] else newest)
  {
  }

  /** The newest revision of each ID listed. */
  method ListedNewest(local: set<Key>) returns (newest: map<string, int>)
    requires Listing(local)
    ensures Newest(local, newest)
  {
    newest := map[];
    var todo, done := local, {};
    assert Newest(done, newest);
    hide Newest;
    while todo != {}
      invariant todo <= local && done == local - todo
      invariant Newest(done, newest)
      decreases |todo|
    {
      var k :| k in todo;
      NewestAdd(done, newest, k);
      todo, done := todo - {k}, done + {k};
      if k.rev > (if k.id in newest then newest[k.id] else 0) {
        newest := newest[k.id := k.rev];
      }
    }
    assert done == local;
  }

  ghost predicate Registers(rows: seq<Row>, storage: string, keys: set<Key>, newest: map<string, int>) {
    forall r :: r in rows <==>
      || (exists k :: k in keys && r == Row(storage, k.id, k.rev, false))
      || (exists id :: id in newest && r == Row(storage, id, newest[id] + 1, true))
      || r == Row(storage, ANY_ID, 1, true)
  }

  /** The rows a copy holds for keys: each, whatever its listed IDs gain later, and unlisted IDs. */
  method Revisions(storage: string, keys: set<Key>, newest: map<string, int>) returns (out: seq<Row>)
    ensures Registers(out, storage, keys, newest)
  {
    out := [];
    var todo := keys;
    while todo != {}
      invariant todo <= keys
      invariant forall r :: r in out <==> exists k :: k in keys && k !in todo && r == Row(storage, k.id, k.rev, false)
      decreases |todo|
    {
      var k :| k in todo;
      todo := todo - {k};
      out := out + [Row(storage, k.id, k.rev, false)];
    }
    var ids := newest.Keys;
    while ids != {}
      invariant ids <= newest.Keys
      invariant forall r :: r in out <==>
        || (exists k :: k in keys && r == Row(storage, k.id, k.rev, false))
        || (exists id :: id in newest && id !in ids && r == Row(storage, id, newest[id] + 1, true))
      decreases |ids|
    {
      var id :| id in ids;
      ids := ids - {id};
      out := out + [Row(storage, id, newest[id] + 1, true)];
    }
    out := out + [Row(storage, ANY_ID, 1, true)];
  }

  /** What the all-snapshot copy can still read: what it lacks, and whatever local gains meanwhile. */
  ghost predicate CopyReads(local: set<Key>, missing: set<Key>, newest: map<string, int>, id: string, rev: int) {
    || Key(id, rev) in missing
    || (id in newest && rev > newest[id])
    || (id !in newest && rev >= 1)
  }

  /** A copy's registration covers exactly what it can read, at the listing and once narrowed. */
  lemma RegisteredExactly(rows: seq<Row>, storage: string, local: set<Key>, keys: set<Key>, newest: map<string, int>,
          id: string, rev: int)
    requires Listing(local) && Newest(local, newest) && keys <= local
    requires Registers(rows, storage, keys, newest) && id != ANY_ID
    ensures Covers(rows, storage, id, rev) <==> CopyReads(local, keys, newest, id, rev)
  {
    forall k | 0 <= k < |rows| && rows[k].id == id
      ensures id in newest
      ensures rows[k] == Row(storage, id, newest[id] + 1, true) || (Key(id, rows[k].rev) in keys && !rows[k].andNewer)
    {
      assert rows[k] in rows;
    }
    if id in newest {
      assert Row(storage, id, newest[id] + 1, true) in rows;
      assert Names(rows, storage, id);
      if Key(id, rev) in keys {
        assert Row(storage, id, rev, false) in rows;
      }
    } else {
      assert !Names(rows, storage, id);
      assert Row(storage, ANY_ID, 1, true) in rows;
      StarRow(rows, storage, keys, newest, local, rev);
    }
  }

  lemma StarRow(rows: seq<Row>, storage: string, keys: set<Key>, newest: map<string, int>, local: set<Key>, rev: int)
    requires Listing(local) && Newest(local, newest) && keys <= local
    requires Registers(rows, storage, keys, newest)
    ensures NamesCovering(rows, storage, ANY_ID, rev) <==> rev >= 1
  {
    assert ANY_ID !in newest;
    assert Row(storage, ANY_ID, 1, true) in rows;
    forall k | 0 <= k < |rows| && rows[k].id == ANY_ID ensures rows[k] == Row(storage, ANY_ID, 1, true) {
      assert rows[k] in rows;
    }
  }

  lemma OneStorage(rows: seq<Row>, storage: string, keys: set<Key>, newest: map<string, int>, on: string)
    requires Registers(rows, storage, keys, newest)
    ensures on != storage ==> forall id, rev :: !Covers(rows, on, id, rev)
  {
    forall k | 0 <= k < |rows| ensures rows[k].storage == storage {
      assert rows[k] in rows;
    }
  }

  /** Narrowing from everything listed to what is missing never covers anything new, on any storage. */
  lemma NarrowShrinks(all: seq<Row>, narrowed: seq<Row>, storage: string, local: set<Key>, missing: set<Key>,
          newest: map<string, int>, on: string, id: string, rev: int)
    requires Listing(local) && Newest(local, newest) && missing <= local
    requires Registers(all, storage, local, newest) && Registers(narrowed, storage, missing, newest)
    requires Covers(narrowed, on, id, rev)
    ensures Covers(all, on, id, rev)
  {
    OneStorage(narrowed, storage, missing, newest, on);
    if id == ANY_ID {
      StarRow(all, storage, local, newest, local, rev);
      StarRow(narrowed, storage, missing, newest, local, rev);
    } else {
      RegisteredExactly(all, storage, local, local, newest, id, rev);
      RegisteredExactly(narrowed, storage, local, missing, newest, id, rev);
    }
  }

  /** The rows a copy would register without each listed ID's newest+1. */
  ghost predicate RegistersKeysOnly(rows: seq<Row>, storage: string, keys: set<Key>) {
    forall r :: r in rows <==>
      (exists k :: k in keys && r == Row(storage, k.id, k.rev, false)) || r == Row(storage, ANY_ID, 1, true)
  }

  /** Then "*" takes in every listed revision of an ID the target lacks nothing of, which no copy can read. */
  lemma NewestRowsNeeded(rows: seq<Row>, storage: string, local: set<Key>, missing: set<Key>,
          newest: map<string, int>, k: Key)
    requires Listing(local) && Newest(local, newest) && missing <= local && k in local
    requires RegistersKeysOnly(rows, storage, missing) && forall m :: m in missing ==> m.id != k.id
    ensures Covers(rows, storage, k.id, k.rev) && !CopyReads(local, missing, newest, k.id, k.rev)
  {
    forall j | 0 <= j < |rows| ensures rows[j].id != k.id {
      assert rows[j] in rows;
    }
    assert Row(storage, ANY_ID, 1, true) in rows;
  }
}
