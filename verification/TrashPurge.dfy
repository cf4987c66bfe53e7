/** Permanent deletion of trashed subtrees (src/maintenance.rs: purge_trash_roots, purge_one_trash_root). */
module TrashPurge {
  import opened Common
  import opened DriveForest

  const BATCH_SIZE: nat := 100
  const MAX_ROOTS: nat := 5000

  datatype Report = Report(roots: nat, entries: nat)

  function Without(es: Entries, gone: set<Id>): Entries {
    es - gone
  }

  ghost predicate IsSubtree(es: Entries, root: Id, s: set<Id>) {
    forall x :: x in s <==> Below(es, root, x, false)
  }

  /** The rows of a subtree listing from position `k` on. */
  function Tail(rows: seq<Id>, k: nat): set<Id>
    requires k <= |rows|
  {
    set x | x in rows[k..]
  }

  /** A complete subtree listing, parents first. */
  ghost predicate FullListing(es: Entries, root: Id, rows: seq<Id>) {
    ListedSoFar(es, root, false, rows) && forall x :: Below(es, root, x, false) ==> x in rows
  }

  lemma ChildGoesFirst(es: Entries, root: Id, rows: seq<Id>, k: nat, e: Id)
    requires FullListing(es, root, rows) && k <= |rows| && e in es
      && es[e].parent.Some? && es[e].parent.value in Tail(rows, k)
    ensures e in Tail(rows, k)
  {
    var m :| k <= m < |rows| && rows[m] == es[e].parent.value;
    BelowChild(es, root, rows[m], e, false);
    var n :| 0 <= n < |rows| && rows[n] == e;
    assert es[rows[n]].parent == Some(rows[m]);
    assert m < n;
    assert rows[k..][n - k] == e;
  }

  /** Deleting the listing from its end never orphans a child. */
  lemma DeletedTailHasNoOrphan(es: Entries, root: Id, rows: seq<Id>, k: nat)
    requires ParentsOk(es) && FullListing(es, root, rows) && k <= |rows|
    ensures ParentsOk(Without(es, Tail(rows, k)))
  {
    var cur := Without(es, Tail(rows, k));
    forall e | e in cur ensures ParentOk(cur, e) {
      assert ParentOk(es, e);
      if es[e].parent.Some? && es[e].parent.value in Tail(rows, k) {
        ChildGoesFirst(es, root, rows, k, e);
      }
    }
  }

  lemma PurgeKeepsForest(es: Entries, root: Id, gone: set<Id>)
    requires Forest(es) && IsSubtree(es, root, gone)
    ensures Forest(Without(es, gone))
  {
    var cur := Without(es, gone);
    forall e | e in cur ensures ParentOk(cur, e) && HasChain(cur, e) {
      ChainSurvives(es, root, gone, e);
      assert ParentOk(es, e);
      ChainOfParent(es, e);
      if es[e].parent.Some? {
        assert es[e].parent.value == ChainOf(es, e)[1];
      }
    }
  }

  /** Everything below the root goes, and nothing that stays loses an ancestor. */
  lemma PurgeKeepsChains(es: Entries, root: Id, gone: set<Id>)
    requires Forest(es) && IsSubtree(es, root, gone)
    ensures Forest(Without(es, gone))
    ensures forall e :: e in Without(es, gone) ==> ChainOf(Without(es, gone), e) == ChainOf(es, e)
  {
    PurgeKeepsForest(es, root, gone);
    var cur := Without(es, gone);
    forall e | e in cur ensures ChainOf(cur, e) == ChainOf(es, e) {
      ChainSurvives(es, root, gone, e);
      ChainUnique(cur, ChainOf(cur, e), ChainOf(es, e));
    }
  }

  lemma ChainSurvives(es: Entries, root: Id, gone: set<Id>, e: Id)
    requires Forest(es) && IsSubtree(es, root, gone) && e in es && e !in gone
    ensures Chain(Without(es, gone), ChainOf(es, e))
  {
    var c := ChainOf(es, e);
    BelowOnChain(es, root, e);
    forall x | x in c ensures x !in gone {
      var k :| 0 <= k < |c| && c[k] == x;
      ChainTail(es, c, k);
      ChainUnique(es, ChainOf(es, x), c[k..]);
      BelowOnChain(es, root, x);
    }
    SameClimb(es, Without(es, gone), c);
  }

  lemma {:induction false} DistinctTail(rows: seq<Id>, k: nat)
    requires k <= |rows| && forall i, j :: 0 <= i < j < |rows| ==> rows[i] != rows[j]
    ensures |Tail(rows, k)| == |rows| - k
    decreases |rows| - k
  {
    if k < |rows| {
      DistinctTail(rows, k + 1);
      TailStep(rows, k);
    }
  }

  lemma TailStep(rows: seq<Id>, k: nat)
    requires k < |rows| && forall i, j :: 0 <= i < j < |rows| ==> rows[i] != rows[j]
    ensures Tail(rows, k) == {rows[k]} + Tail(rows, k + 1) && rows[k] !in Tail(rows, k + 1)
  {
    assert rows[k..] == [rows[k]] + rows[k + 1..];
  }

  ghost predicate Shrinking(es: Entries, history: seq<Entries>) {
    forall k :: 0 <= k < |history| ==> ParentsOk(history[k]) && |history[k]| == |es| - 1 - k
  }

  lemma ShrinkNext(es: Entries, history: seq<Entries>, next: Entries)
    requires Shrinking(es, history) && ParentsOk(next) && |next| == |es| - 1 - |history|
    ensures Shrinking(es, history + [next])
  {
  }

  lemma DeleteNext(es: Entries, root: Id, rows: seq<Id>, k: nat, cur: Entries)
    requires FullListing(es, root, rows) && k < |rows| && cur == Without(es, Tail(rows, k + 1))
    ensures cur - {rows[k]} == Without(es, Tail(rows, k)) && rows[k] in cur
  {
    TailStep(rows, k);
    assert rows[k] in rows;
  }

  method DeleteRows(es: Entries, rows: seq<Id>, ghost root: Id) returns (cur: Entries, ghost history: seq<Entries>)
    requires ParentsOk(es) && FullListing(es, root, rows)
    ensures cur == Without(es, Tail(rows, 0)) && |cur| == |es| - |rows|
    ensures |history| == |rows| && Shrinking(es, history)
  {
    cur, history := es, [];
    assert rows[|rows|..] == [];
    var k := |rows|;
    while k > 0
      invariant 0 <= k <= |rows| && cur == Without(es, Tail(rows, k)) && |cur| == |es| - (|rows| - k)
      invariant |history| == |rows| - k && Shrinking(es, history)
    {
      k := k - 1;
      DeleteNext(es, root, rows, k, cur);
      cur := cur - {rows[k]};
      DeletedTailHasNoOrphan(es, root, rows, k);
      ShrinkNext(es, history, cur);
      history := history + [cur];
    }
  }

  /** Deletes one trashed root with its whole subtree, children before parents.
      `history` holds the table after every single row delete. */
  method PurgeOne(es: Entries, owner: Id, root: Id)
      returns (cur: Entries, removed: nat, ghost gone: set<Id>, ghost history: seq<Entries>)
    requires Forest(es)
    ensures Forest(cur) && removed == |es| - |cur|
    ensures removed > 0 <==> root in es && es[root].owner == owner && es[root].trashed
    ensures removed == 0 ==> cur == es
    ensures removed > 0 ==> cur == Without(es, gone) && IsSubtree(es, root, gone)
    ensures |history| == removed && Shrinking(es, history)
  {
    cur, removed, gone, history := es, 0, {}, [];
    if root !in es || es[root].owner != owner || !es[root].trashed {
      return;
    }
    var rows := Subtree(es, owner, root, false);
    cur, history := DeleteRows(es, rows, root);
    gone := Tail(rows, 0);
    assert rows[0..] == rows;
    PurgeKeepsChains(es, root, gone);
    removed := |rows|;
  }

  // ----- emptying the trash

  predicate TrashRoot(es: Entries, owner: Id, x: Id) {
    && x in es && es[x].owner == owner && es[x].trashed
    && (es[x].parent.Some? && es[x].parent.value in es ==> !es[es[x].parent.value].trashed)
  }

  function TrashRoots(es: Entries, owner: Id): set<Id> {
    set x | x in es && TrashRoot(es, owner, x)
  }

  /** Trashed itself or through an ancestor. */
  ghost predicate Doomed(es: Entries, x: Id)
    requires Forest(es)
  {
    x in es && !Clean(es, x)
  }

  /** Climbing from a trashed entry reaches a trash root. */
  lemma {:induction false} TrashHasRoot(es: Entries, owner: Id, x: Id) returns (root: Id)
    requires Forest(es) && x in es && es[x].owner == owner && es[x].trashed
    ensures TrashRoot(es, owner, root)
    decreases |ChainOf(es, x)|
  {
    ChainOfParent(es, x);
    if es[x].parent.Some? && es[es[x].parent.value].trashed {
      root := TrashHasRoot(es, owner, es[x].parent.value);
    } else {
      root := x;
    }
  }

  ghost predicate Kept(es: Entries, cur: Entries, x: Id)
    requires Forest(es) && Forest(cur)
  {
    x in es && x in cur && cur[x] == es[x] && ChainOf(cur, x) == ChainOf(es, x)
  }

  /** What repeated purging has done so far: only doomed rows are gone, and chains are as before. */
  ghost predicate PurgedSoFar(es: Entries, cur: Entries, owner: Id)
    requires Forest(es)
  {
    && Forest(cur)
    && (forall x {:trigger Kept(es, cur, x)} :: x in cur ==> Kept(es, cur, x))
    && (forall x {:trigger Doomed(es, x)} :: x in es && x !in cur ==> es[x].owner == owner && Doomed(es, x))
  }

  lemma PurgedNothing(es: Entries, owner: Id)
    requires Forest(es)
    ensures PurgedSoFar(es, es, owner)
  {
  }

  lemma DoomedBelow(es: Entries, cur: Entries, owner: Id, root: Id, x: Id)
    requires Forest(es) && PurgedSoFar(es, cur, owner) && root in cur && cur[root].owner == owner && cur[root].trashed
    requires x in cur && Below(cur, root, x, false)
    ensures x in es && es[x].owner == owner && Doomed(es, x)
  {
    assert Kept(es, cur, x);
    BelowOnChain(cur, root, x);
    var c := ChainOf(cur, x);
    var k :| 0 <= k < |c| && c[k] == root;
    ChainOwner(cur, c, k);
    assert Kept(es, cur, x) && Kept(es, cur, root);
  }

  lemma PurgedStep(es: Entries, cur: Entries, next: Entries, owner: Id, root: Id, gone: set<Id>)
    requires Forest(es) && PurgedSoFar(es, cur, owner) && root in cur && cur[root].owner == owner && cur[root].trashed
    requires next == Without(cur, gone) && IsSubtree(cur, root, gone)
    ensures PurgedSoFar(es, next, owner)
  {
    PurgeKeepsChains(cur, root, gone);
    forall x | x in next ensures Kept(es, next, x) {
      assert Kept(es, cur, x);
    }
    forall x | x in es && x !in next ensures es[x].owner == owner && Doomed(es, x) {
      if x in cur {
        DoomedBelow(es, cur, owner, root, x);
      } else {
        assert Doomed(es, x);
      }
    }
  }

  /** Exactly the owner's entries that are trashed, themselves or through an ancestor, are gone. */
  ghost predicate Emptied(es: Entries, cur: Entries, owner: Id)
    requires Forest(es)
  {
    && (forall x :: x in cur && cur[x].owner == owner ==> !cur[x].trashed)
    && (forall x :: x in es ==> (x in cur <==> !(es[x].owner == owner && Doomed(es, x))))
  }

  lemma NothingTrashed(es: Entries, cur: Entries, owner: Id)
    requires Forest(es) && PurgedSoFar(es, cur, owner) && forall x :: !TrashRoot(cur, owner, x)
    ensures Emptied(es, cur, owner)
  {
    forall x | x in cur && cur[x].owner == owner ensures !cur[x].trashed {
      if cur[x].trashed {
        var root := TrashHasRoot(cur, owner, x);
      }
    }
    forall x | x in cur ensures x in es && (es[x].owner == owner ==> Clean(es, x)) {
      assert Kept(es, cur, x);
      var c := ChainOf(cur, x);
      forall i | 0 <= i < |c| && cur[x].owner == owner ensures !es[c[i]].trashed {
        ChainOwner(cur, c, i);
        assert Kept(es, cur, c[i]);
      }
    }
  }

  method PurgeBatch(es: Entries, cur0: Entries, owner: Id, batch: seq<Id>, report0: Report)
      returns (cur: Entries, report: Report)
    requires Forest(es) && PurgedSoFar(es, cur0, owner)
    ensures PurgedSoFar(es, cur, owner) && report.entries + |cur| == report0.entries + |cur0|
    ensures report0.roots <= report.roots && report.roots + report0.entries <= report.entries + report0.roots
      && |cur| <= |cur0|
    ensures batch != [] && TrashRoot(cur0, owner, batch[0]) ==> report.roots > report0.roots && |cur| < |cur0|
  {
    cur, report := cur0, report0;
    for k := 0 to |batch|
      invariant PurgedSoFar(es, cur, owner) && report.entries + |cur| == report0.entries + |cur0|
      invariant report0.roots <= report.roots && report.roots + report0.entries <= report.entries + report0.roots
        && |cur| <= |cur0|
      invariant k == 0 ==> cur == cur0
      invariant k > 0 && TrashRoot(cur0, owner, batch[0]) ==> report.roots > report0.roots && |cur| < |cur0|
    {
      var next, removed, gone, _ := PurgeOne(cur, owner, batch[k]);
      if removed > 0 {
        PurgedStep(es, cur, next, owner, batch[k], gone);
        report := Report(report.roots + 1, report.entries + removed);
      }
      cur := next;
    }
  }

  /** One round: fetch a batch of roots and purge it; `done` when there is none. A round that purges nothing, where the
      source would stop too, does not occur. */
  method EmptyRound(es: Entries, cur0: Entries, owner: Id, report0: Report)
      returns (cur: Entries, report: Report, done: bool)
    requires Forest(es) && PurgedSoFar(es, cur0, owner)
    ensures PurgedSoFar(es, cur, owner) && report.entries + |cur| == report0.entries + |cur0|
    ensures report.roots + report0.entries <= report.entries + report0.roots
    ensures done ==> Emptied(es, cur, owner) && report == report0
    ensures !done ==> report.roots > report0.roots && |cur| < |cur0|
  {
    cur, report, done := cur0, report0, false;
    var roots := Ascending(TrashRoots(cur, owner));
    var batch := if |roots| > BATCH_SIZE then roots[..BATCH_SIZE] else roots;
    if batch == [] {
      assert forall x :: TrashRoot(cur, owner, x) ==> x in roots;
      NothingTrashed(es, cur, owner);
      done := true;
    } else {
      assert batch[0] in roots;
      cur, report := PurgeBatch(es, cur0, owner, batch, report0);
    }
  }

  /** Empties the owner's trash in batches, stopping between batches once 5000 roots are purged. */
  method EmptyTrash(es: Entries, owner: Id) returns (cur: Entries, report: Report)
    requires Forest(es)
    ensures PurgedSoFar(es, cur, owner) && report.entries == |es| - |cur| && report.roots <= report.entries
    ensures report.roots < MAX_ROOTS ==> Emptied(es, cur, owner)
  {
    cur, report := es, Report(0, 0);
    PurgedNothing(es, owner);
    var done := false;
    while report.roots < MAX_ROOTS && !done
      invariant PurgedSoFar(es, cur, owner) && report.entries == |es| - |cur| && report.roots <= report.entries
      invariant done ==> Emptied(es, cur, owner)
      decreases !done, |cur|
    {
      cur, report, done := EmptyRound(es, cur, owner, report);
    }
  }

  function Names(ids: seq<Id>): set<Id> {
    set x | x in ids
  }

  /** Purges the named roots only; every name must be a trash root of the owner. */
  method PurgeSelected(es: Entries, owner: Id, ids: seq<Id>) returns (r: Result<Report, DriveError>, cur: Entries)
    requires Forest(es)
    ensures r.Err? ==> cur == es
    ensures r.Ok? <==> 0 < |Names(ids)| <= 100 && forall x :: x in ids ==> TrashRoot(es, owner, x)
    ensures r.Ok? ==> PurgedSoFar(es, cur, owner) && r.value.entries == |es| - |cur|
    ensures r.Ok? ==> forall x :: x in es ==> (x in cur <==> Spared(es, ids, x))
  {
    cur := es;
    var unique := Names(ids);
    if |unique| == 0 || |unique| > 100 {
      return Err(NotFound), cur;
    }
    var found := set x | x in unique && TrashRoot(es, owner, x);
    if |found| != |unique| {
      assert unique <= found ==> found == unique;
      ghost var x :| x in unique && x !in found;
      return Err(NotFound), cur;
    }
    SubsetSameSize(found, unique);
    var report;
    cur, report := PurgeAll(es, owner, Ascending(unique));
    assert forall x :: x in Ascending(unique) <==> x in ids;
    r := Ok(report);
  }

  /** The entry lies neither at nor below any of the named ones. */
  ghost predicate Spared(es: Entries, ids: seq<Id>, x: Id) {
    forall id :: id in ids ==> !Below(es, id, x, false)
  }

  /** Among the rows still there, a purge takes exactly those below its root in the original table. */
  lemma PurgedBelow(es: Entries, cur: Entries, owner: Id, root: Id, x: Id)
    requires Forest(es) && PurgedSoFar(es, cur, owner) && x in cur
    ensures x in es && (Below(es, root, x, false) <==> Below(cur, root, x, false))
      && (root !in cur ==> !Below(cur, root, x, false))
  {
    assert Kept(es, cur, x);
    BelowOnChain(es, root, x);
    BelowOnChain(cur, root, x);
  }

  lemma SparedNext(es: Entries, batch: seq<Id>, k: nat, x: Id)
    requires k < |batch|
    ensures Spared(es, batch[..k + 1], x) <==> Spared(es, batch[..k], x) && !Below(es, batch[k], x, false)
  {
    assert batch[..k + 1] == batch[..k] + [batch[k]];
  }

  lemma PurgeNext(es: Entries, cur: Entries, next: Entries, owner: Id, batch: seq<Id>, k: nat, removed: nat,
      gone: set<Id>, x: Id)
    requires Forest(es) && PurgedSoFar(es, cur, owner) && k < |batch| && x in es
      && (x in cur <==> Spared(es, batch[..k], x))
    requires if removed == 0 then next == cur && batch[k] !in cur
      else next == Without(cur, gone) && IsSubtree(cur, batch[k], gone)
    ensures x in next <==> Spared(es, batch[..k + 1], x)
  {
    SparedNext(es, batch, k, x);
    if x in cur {
      PurgedBelow(es, cur, owner, batch[k], x);
    }
  }

  method PurgeAll(es: Entries, owner: Id, batch: seq<Id>) returns (cur: Entries, report: Report)
    requires Forest(es) && forall x :: x in batch ==> TrashRoot(es, owner, x)
    ensures PurgedSoFar(es, cur, owner) && report.entries == |es| - |cur|
    ensures forall x :: x in es ==> (x in cur <==> Spared(es, batch, x))
  {
    cur, report := es, Report(0, 0);
    PurgedNothing(es, owner);
    for k := 0 to |batch|
      invariant PurgedSoFar(es, cur, owner) && report.entries == |es| - |cur|
      invariant forall x :: x in es ==> (x in cur <==> Spared(es, batch[..k], x))
    {
      var next, removed, gone, _ := PurgeOne(cur, owner, batch[k]);
      assert batch[k] in batch;
      assert batch[k] in cur ==> Kept(es, cur, batch[k]);
      forall x | x in es ensures x in next <==> Spared(es, batch[..k + 1], x) {
        PurgeNext(es, cur, next, owner, batch, k, removed, gone, x);
      }
      if removed > 0 {
        PurgedStep(es, cur, next, owner, batch[k], gone);
        report := Report(report.roots + 1, report.entries + removed);
      }
      cur := next;
    }
    assert batch[..|batch|] == batch;
  }

  lemma SubsetSameSize(a: set<Id>, b: set<Id>)
    requires a <= b && |a| == |b|
    ensures a == b
  {
    assert |b - a| == |b| - |a|;
  }
}
