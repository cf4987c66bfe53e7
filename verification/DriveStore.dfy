/** The drive as its requests change it: entries, links and grants (src/drive.rs, src/shares.rs, src/developer.rs,
    src/maintenance.rs, src/devices.rs). A transaction is a method on the tables it finds; `Drive` holds the tables.
    Its handlers run undisturbed here; `DriveRuns` lets others write between their statements. */
module DriveStore {
  import opened Common
  import opened DriveForest
  import opened DriveCopy
  import opened TrashPurge
  import opened Shares
  import opened DriveWrites

  const MAX_BATCH_ENTRIES: nat := 100

  datatype Action = Move | Copy | Trash

  /** `trash_owned_entry` on a transaction's tables. */
  method TrashOwned(t: Tables, owner: Id, id: Id) returns (r: Result<Tables, DriveError>)
    requires Consistent(t)
    ensures r.Ok? <==> Mutable(t.entries, owner, id)
    ensures r.Ok? ==> r.value == TrashTx(t, owner, id)
  {
    if id !in t.entries || t.entries[id].owner != owner || t.entries[id].trashed {
      return Err(NotFound);
    }
    if t.entries[id].system {
      return Err(Protected);
    }
    TrashedChain(t.entries, id, true, id);
    var marked := t.(entries := Trashed(t.entries, id, true));
    var listed := Subtree(marked.entries, owner, id, false);
    var rows := set x | x in listed;
    SameBelow(t.entries, id, rows, listed);
    BelowIsThere(t.entries, id);
    assert rows == Under(t.entries, id);
    r := Ok(RevokeUnder(marked, owner, rows));
  }

  /** What trashing does to the links, stated without the statements: exactly those at or below the entry are
    * revoked. */
  lemma TrashRevokesBelow(t: Tables, owner: Id, id: Id, s: Id)
    requires Consistent(t) && Mutable(t.entries, owner, id) && s in t.shares
    ensures s in TrashTx(t, owner, id).shares
    ensures TrashTx(t, owner, id).shares[s] ==
      t.shares[s].(revoked := t.shares[s].revoked || EntryBelow(t.entries, t.shares[s], id))
  {
    assert ShareOk(t.entries, t.shares[s]);
    if EntryBelow(t.entries, t.shares[s], id) {
      var p :| DownPath(t.entries, id, t.shares[s].resource.id, false, p);
      ChainOwner(t.entries, p, |p| - 1);
    }
  }

  ghost predicate EntryBelow(es: Entries, s: Share, id: Id) {
    s.resource.EntryOf? && Below(es, id, s.resource.id, false)
  }

  lemma SameBelow(es: Entries, id: Id, rows: set<Id>, listed: seq<Id>)
    requires Forest(es) && id in es && rows == set x | x in listed
    requires Forest(Trashed(es, id, true)) && ListedSoFar(Trashed(es, id, true), id, false, listed)
    requires forall x :: Below(Trashed(es, id, true), id, x, false) ==> x in listed
    ensures forall x :: x in rows <==> Below(es, id, x, false)
  {
    var es' := Trashed(es, id, true);
    forall x ensures x in rows <==> Below(es, id, x, false) {
      if Below(es, id, x, false) {
        var p :| DownPath(es, id, x, false, p);
        SameClimb(es, es', p);
        assert DownPath(es', id, x, false, p);
      }
      if Below(es', id, x, false) {
        var p :| DownPath(es', id, x, false, p);
        SameClimb(es', es, p);
        assert DownPath(es, id, x, false, p);
      }
    }
  }

  // ----- batches

  lemma MoveOneMore(es: Entries, owner: Id, ids: seq<Id>, k: nat, dest: Option<Id>)
    requires Forest(es) && UniqueNames(es) && k < |ids| && MovableTogether(es, owner, ids[..k], dest)
    requires Forest(MoveAll(es, Named(ids[..k]), dest)) && UniqueNames(MoveAll(es, Named(ids[..k]), dest))
    ensures MayReparent(MoveAll(es, Named(ids[..k]), dest), owner, ids[k], dest) <==>
      MovableTogether(es, owner, ids[..k + 1], dest)
  {
    GuardStays(es, owner, ids[..k], ids[k], dest);
    assert ids[..k + 1] == ids[..k] + [ids[k]];
    OneMoreMovable(es, owner, ids[..k], ids[k], dest);
    if ids[k] in es && es[ids[k]].owner == owner && !es[ids[k]].trashed {
      NameStays(es, owner, ids[..k], ids[k], dest);
    }
  }

  lemma OneMoreMovable(es: Entries, owner: Id, moved: seq<Id>, id: Id, dest: Option<Id>)
    requires Forest(es) && MovableTogether(es, owner, moved, dest)
    ensures MovableTogether(es, owner, moved + [id], dest)
            <==> MayReparent(es, owner, id, dest) && forall x :: x in moved ==> !SameName(es, x, id)
  {
    var all := moved + [id];
    assert all[|moved|] == id;
    assert forall x :: x in all <==> x in moved || x == id;
    if MayReparent(es, owner, id, dest) && forall x :: x in moved ==> !SameName(es, x, id) {
      forall x, y | x in all && y in all ensures !SameName(es, x, y) {
        assert x in moved && y in moved ==> !SameName(es, x, y);
        assert x in moved ==> !SameName(es, x, id);
        assert y in moved ==> !SameName(es, y, id);
      }
    }
  }

  /** Moving others to the destination changes nothing for the trigger. */
  lemma GuardStays(es: Entries, owner: Id, moved: seq<Id>, id: Id, dest: Option<Id>)
    requires Forest(es) && MovableTogether(es, owner, moved, dest) && Forest(MoveAll(es, Named(moved), dest))
    ensures GuardLets(MoveAll(es, Named(moved), dest), owner, id, dest) <==> GuardLets(es, owner, id, dest)
  {
    if moved == [] {
      assert MoveAll(es, Named(moved), dest) == es;
    } else {
      TogetherIsApart(es, owner, moved, dest);
      if dest.Some? {
        ChainAfterMove(es, owner, Named(moved), dest, dest.value);
        assert ChainOf(es, dest.value)[0] == dest.value;
      }
    }
  }

  /** The index sees those who were there and those who came before. */
  lemma NameStays(es: Entries, owner: Id, moved: seq<Id>, id: Id, dest: Option<Id>)
    requires Forest(es) && UniqueNames(es) && MovableTogether(es, owner, moved, dest)
      && id in es && es[id].owner == owner && !es[id].trashed
    ensures Taken(MoveAll(es, Named(moved), dest), owner, dest, es[id].name, Some(id))
            <==> Taken(es, owner, dest, es[id].name, Some(id)) || exists x :: x in moved && SameName(es, x, id)
  {
    var cur := MoveAll(es, Named(moved), dest);
    if Taken(cur, owner, dest, es[id].name, Some(id)) {
      var x :| x in cur && Some(x) != Some(id) && Occupies(cur[x], owner, dest, es[id].name);
      assert x in moved ==> SameName(es, x, id);
    }
    if Taken(es, owner, dest, es[id].name, Some(id)) {
      var x :| x in es && Some(x) != Some(id) && Occupies(es[x], owner, dest, es[id].name);
      assert Occupies(cur[x], owner, dest, es[id].name);
    }
    if x :| x in moved && SameName(es, x, id) {
      assert Occupies(cur[x], owner, dest, es[id].name);
    }
  }

  /** The moves of a batch: all of them succeed one after the other exactly when they may be made together. */
  method BatchMove(t: Tables, owner: Id, ids: seq<Id>, dest: Option<Id>) returns (r: Result<Tables, DriveError>)
    requires Consistent(t)
    ensures r.Ok? <==> MovableTogether(t.entries, owner, ids, dest)
    ensures r.Ok? ==> r.value == MoveBatch(t, owner, ids, dest)
  {
    var cur := t.entries;
    assert MoveAll(t.entries, Named([]), dest) == t.entries;
    for k := 0 to |ids|
      invariant Forest(cur) && UniqueNames(cur) && cur == MoveAll(t.entries, Named(ids[..k]), dest)
      invariant MovableTogether(t.entries, owner, ids[..k], dest)
    {
      MoveOneMore(t.entries, owner, ids, k, dest);
      var moved := MoveOwned(cur, owner, ids[k], dest);
      if moved.Err? {
        NotTogether(t.entries, owner, ids, k + 1, dest);
        return Err(moved.error);
      }
      MovedOneMore(t.entries, ids, k, dest);
      cur := moved.value;
    }
    assert ids[..|ids|] == ids;
    r := Ok(t.(entries := cur));
  }

  lemma NotTogether(es: Entries, owner: Id, ids: seq<Id>, k: nat, dest: Option<Id>)
    requires Forest(es) && k <= |ids| && !MovableTogether(es, owner, ids[..k], dest)
    ensures !MovableTogether(es, owner, ids, dest)
  {
  }

  lemma MovedOneMore(es: Entries, ids: seq<Id>, k: nat, dest: Option<Id>)
    requires k < |ids| && ids[k] in es
    ensures Reparent(MoveAll(es, Named(ids[..k]), dest), ids[k], dest) == MoveAll(es, Named(ids[..k + 1]), dest)
  {
    assert ids[..k + 1] == ids[..k] + [ids[k]];
  }

  /** Trashing some entries leaves every other one as trashable as it was. */
  lemma {:induction false} TrashEachRows(t: Tables, owner: Id, ids: seq<Id>)
    requires TrashableTogether(t.entries, owner, ids)
    ensures TrashEach(t, owner, ids).entries.Keys == t.entries.Keys
    ensures forall x :: x in t.entries ==>
              TrashEach(t, owner, ids).entries[x] == if x in ids then t.entries[x].(trashed := true) else t.entries[x]
  {
    if ids != [] {
      var n := |ids| - 1;
      FewerTogether(t.entries, owner, ids, n);
      TrashEachRows(t, owner, ids[..n]);
      assert ids == ids[..n] + [ids[n]];
    }
  }

  lemma FewerTogether(es: Entries, owner: Id, ids: seq<Id>, k: nat)
    requires k <= |ids|
    ensures TrashableTogether(es, owner, ids) ==> TrashableTogether(es, owner, ids[..k])
  {
    forall i | 0 <= i < k && TrashableTogether(es, owner, ids)
      ensures Mutable(es, owner, ids[..k][i]) && ids[..k][i] !in ids[..k][..i] {
      assert ids[..k][..i] == ids[..i];
    }
  }

  lemma OneMoreTogether(es: Entries, owner: Id, ids: seq<Id>, k: nat)
    requires k < |ids| && TrashableTogether(es, owner, ids[..k])
    ensures TrashableTogether(es, owner, ids[..k + 1]) <==> Mutable(es, owner, ids[k]) && ids[k] !in ids[..k]
  {
    var more := ids[..k + 1];
    assert more[..k] == ids[..k] && more[k] == ids[k];
    forall i | 0 <= i < k ensures Mutable(es, owner, more[i]) && more[i] !in more[..i] {
      assert ids[..k][i] == more[i] && ids[..k][..i] == more[..i];
    }
  }

  method BatchTrash(t: Tables, owner: Id, ids: seq<Id>) returns (r: Result<Tables, DriveError>)
    requires Consistent(t)
    ensures r.Ok? <==> TrashableTogether(t.entries, owner, ids)
    ensures r.Ok? ==> r.value == TrashEach(t, owner, ids)
  {
    var u := t;
    for k := 0 to |ids|
      invariant Consistent(u) && TrashableTogether(t.entries, owner, ids[..k]) && u == TrashEach(t, owner, ids[..k])
    {
      OneMoreTogether(t.entries, owner, ids, k);
      TrashEachRows(t, owner, ids[..k]);
      TrashIsHarmless(u, owner, ids[k]);
      var trashed := TrashOwned(u, owner, ids[k]);
      if trashed.Err? {
        FewerTogether(t.entries, owner, ids, k + 1);
        return Err(trashed.error);
      }
      u := trashed.value;
      assert ids[..k + 1][..k] == ids[..k];
    }
    assert ids[..|ids|] == ids;
    r := Ok(u);
  }

  /** One copy of a batch, when `base` entries were there before the batch. */
  ghost predicate OneCopy(base: nat, es: Entries, es': Entries, image: map<Id, Id>, owner: Id, id: Id, dest: Option<Id>,
      namer: Namer) {
    && Forest(es) && base <= |es| && Copyable(es, owner, id, dest, |es| - base, namer)
    && IsCopy(es, es', id, dest, RootName(es, id, dest, namer), image)
  }

  ghost predicate CopyStep(stages: seq<Entries>, images: seq<map<Id, Id>>, owner: Id, ids: seq<Id>, dest: Option<Id>,
      namer: Namer, i: nat)
    requires i < |images| <= |ids| && |stages| == |images| + 1
  {
    OneCopy(|stages[0]|, stages[i], stages[i + 1], images[i], owner, ids[i], dest, namer)
  }

  ghost predicate CopySteps(stages: seq<Entries>, images: seq<map<Id, Id>>, owner: Id, ids: seq<Id>, dest: Option<Id>,
      namer: Namer) {
    && |images| <= |ids| && |stages| == |images| + 1
    && forall i {:trigger CopyStep(stages, images, owner, ids, dest, namer, i)} :: 0 <= i < |images| ==>
      CopyStep(stages, images, owner, ids, dest, namer, i)
  }

  lemma OldStep(stages: seq<Entries>, images: seq<map<Id, Id>>, owner: Id, ids: seq<Id>, dest: Option<Id>, namer: Namer,
      next: Entries, image: map<Id, Id>, i: nat)
    requires i < |images| < |ids| && |stages| == |images| + 1 && CopyStep(stages, images, owner, ids, dest, namer, i)
    ensures CopyStep(stages + [next], images + [image], owner, ids, dest, namer, i)
  {
    var stages', images' := stages + [next], images + [image];
    assert stages'[0] == stages[0] && stages'[i] == stages[i]
      && stages'[i + 1] == stages[i + 1] && images'[i] == images[i];
  }

  lemma NewStep(stages: seq<Entries>, images: seq<map<Id, Id>>, owner: Id, ids: seq<Id>, dest: Option<Id>, namer: Namer,
      next: Entries, image: map<Id, Id>)
    requires |images| < |ids| && |stages| == |images| + 1
    requires OneCopy(|stages[0]|, stages[|images|], next, image, owner, ids[|images|], dest, namer)
    ensures CopyStep(stages + [next], images + [image], owner, ids, dest, namer, |images|)
  {
    var i, stages', images' := |images|, stages + [next], images + [image];
    assert stages'[0] == stages[0] && stages'[i] == stages[i] && stages'[i + 1] == next && images'[i] == image;
  }

  lemma OneMoreCopy(stages: seq<Entries>, images: seq<map<Id, Id>>, owner: Id, ids: seq<Id>, dest: Option<Id>,
      namer: Namer, next: Entries, image: map<Id, Id>)
    requires CopySteps(stages, images, owner, ids, dest, namer) && |images| < |ids|
    requires OneCopy(|stages[0]|, stages[|images|], next, image, owner, ids[|images|], dest, namer)
    ensures CopySteps(stages + [next], images + [image], owner, ids, dest, namer)
    ensures (stages + [next])[0] == stages[0] && (stages + [next])[|images| + 1] == next
  {
    forall i | 0 <= i <= |images| ensures CopyStep(stages + [next], images + [image], owner, ids, dest, namer, i) {
      if i < |images| {
        OldStep(stages, images, owner, ids, dest, namer, next, image, i);
      } else {
        NewStep(stages, images, owner, ids, dest, namer, next, image);
      }
    }
  }

  ghost predicate AllKept(es: Entries, cur: Entries) {
    forall x :: x in es ==> x in cur && cur[x] == es[x]
  }

  lemma AllKeptOn(es: Entries, cur: Entries, next: Entries)
    requires AllKept(es, cur) && AllKept(cur, next)
    ensures AllKept(es, next)
  {
  }

  /** Copies one after the other, sharing one budget of 500 entries; the first impossible one fails the batch. */
  method BatchCopy(t: Tables, owner: Id, ids: seq<Id>, dest: Option<Id>, namer: Namer)
    returns (r: Result<Tables, DriveError>, ghost stages: seq<Entries>, ghost images: seq<map<Id, Id>>)
    requires Consistent(t)
    ensures CopySteps(stages, images, owner, ids, dest, namer) && stages[0] == t.entries
    ensures r.Ok? ==> |images| == |ids| && r.value == t.(entries := stages[|ids|]) && Harmless(t, r.value)
    ensures r.Ok? ==> |r.value.entries| <= |t.entries| + MAX_COPY_ENTRIES && AllKept(t.entries, r.value.entries)
    ensures r.Err? ==> |images| < |ids| && StuckAt(stages, owner, ids[|images|], dest, namer)
  {
    var cur := t.entries;
    var copied: nat := 0;
    stages, images := [cur], [];
    for k := 0 to |ids|
      invariant |images| == k && BatchCopying(t, cur, copied, stages, images, owner, ids, dest, namer)
    {
      var one, count, image := CopyOwned(cur, owner, ids[k], dest, copied, namer);
      if one.Err? {
        return Err(one.error), stages, images;
      }
      BatchCopyTurn(t, cur, copied, stages, images, owner, ids, dest, namer, one.value.0, count, image);
      stages, images := stages + [one.value.0], images + [image];
      cur, copied := one.value.0, count;
    }
    ExtensionKeepsConsistent(t, cur);
    r := Ok(t.(entries := cur));
  }

  ghost predicate BatchCopying(t: Tables, cur: Entries, copied: nat, stages: seq<Entries>, images: seq<map<Id, Id>>,
                               owner: Id, ids: seq<Id>, dest: Option<Id>, namer: Namer) {
    && Forest(cur) && UniqueNames(cur) && AllKept(t.entries, cur)
    && copied <= MAX_COPY_ENTRIES && |cur| == |t.entries| + copied
    && CopySteps(stages, images, owner, ids, dest, namer) && stages[0] == t.entries && stages[|images|] == cur
  }

  lemma BatchCopyTurn(t: Tables, cur: Entries, copied: nat, stages: seq<Entries>, images: seq<map<Id, Id>>, owner: Id,
      ids: seq<Id>, dest: Option<Id>, namer: Namer, next: Entries, count: nat, image: map<Id, Id>)
    requires BatchCopying(t, cur, copied, stages, images, owner, ids, dest, namer) && |images| < |ids|
    requires Copyable(cur, owner, ids[|images|], dest, copied, namer)
    requires Forest(next) && UniqueNames(next) && count <= MAX_COPY_ENTRIES && |next| == |cur| + count - copied
    requires IsCopy(cur, next, ids[|images|], dest, RootName(cur, ids[|images|], dest, namer), image)
    ensures BatchCopying(t, next, count, stages + [next], images + [image], owner, ids, dest, namer)
  {
    OneMoreCopy(stages, images, owner, ids, dest, namer, next, image);
    AllKeptOn(t.entries, cur, next);
  }

  ghost predicate StuckAt(stages: seq<Entries>, owner: Id, id: Id, dest: Option<Id>, namer: Namer)
    requires stages != []
  {
    var es := stages[|stages| - 1];
    Forest(es) && |es| >= |stages[0]| && !Copyable(es, owner, id, dest, |es| - |stages[0]|, namer)
  }

  lemma {:induction false} NamesBound(ids: seq<Id>)
    ensures |Names(ids)| <= |ids|
  {
    if ids != [] {
      var n := |ids| - 1;
      NamesBound(ids[..n]);
      assert Names(ids) == Names(ids[..n]) + {ids[n]};
    }
  }

  lemma DistinctIds(ids: seq<Id>)
    requires |Names(ids)| == |ids|
    ensures forall k :: 0 <= k < |ids| ==> ids[k] !in ids[..k]
  {
    forall k | 0 <= k < |ids| ensures ids[k] !in ids[..k] {
      if ids[k] in ids[..k] {
        var others := ids[..k] + ids[k + 1..];
        assert Names(ids) == Names(others);
        NamesBound(others);
      }
    }
  }

  class Drive {
    var entries: Entries
    var shares: map<Id, Share>
    var grants: map<Id, Grant>

    ghost function View(): (t: Tables)
      reads this
    {
      Tables(entries, shares, grants)
    }

    ghost predicate Valid()
      reads this
    {
      Consistent(View())
    }

    constructor ()
      ensures Valid() && entries == map[] && shares == map[] && grants == map[]
    {
      entries, shares, grants := map[], map[], map[];
    }

    method Commit(t: Tables)
      requires Consistent(t)
      modifies this
      ensures Valid() && View() == t
    {
      entries, shares, grants := t.entries, t.shares, t.grants;
    }

    // ----- single statements, with the row trigger and the unique index

    method InsertRow(row: Entry) returns (r: Result<Id, DriveError>)
      requires Valid() && !row.trashed
      modifies this
      ensures Valid()
      ensures r.Err? ==> View() == old(View()) && forall id :: !MayInsert(old(entries), id, row)
      ensures r.Ok? ==> MayInsert(old(entries), r.value, row) && View() == InsertEntry(old(View()), r.value, row)
    {
      if !OpenHome(entries, row.owner, row.parent) || Taken(entries, row.owner, row.parent, row.name, None) {
        return Err(Conflict);
      }
      FreshExists(entries.Keys);
      var id :| id !in entries;
      InsertIsHarmless(View(), id, row);
      entries := entries[id := row];
      r := Ok(id);
    }

    method WriteParent(owner: Id, id: Id, dest: Option<Id>) returns (r: Result<(), DriveError>)
      requires Valid()
      modifies this
      ensures Valid() && View() == UpdateParent(old(View()), owner, id, dest)
      ensures r.Ok? <==> MayUpdateParent(old(entries), owner, id, dest)
    {
      if id !in entries || entries[id].owner != owner || entries[id].trashed {
        return Err(NotFound);
      }
      var lets := RowTrigger(entries, owner, id, entries[id].kind, dest);
      if !lets || Taken(entries, owner, dest, entries[id].name, Some(id)) {
        return Err(Conflict);
      }
      UpdateParentIff(View(), owner, id, dest);
      entries := Reparent(entries, id, dest);
      r := Ok(());
    }

    method WriteUntrashed(owner: Id, id: Id) returns (r: Result<(), DriveError>)
      requires Valid()
      modifies this
      ensures Valid() && View() == Untrash(old(View()), owner, id)
      ensures r.Ok? <==> MayUntrash(old(entries), owner, id)
    {
      if id !in entries || entries[id].owner != owner || !entries[id].trashed {
        return Err(NotFound);
      }
      if Taken(entries, owner, entries[id].parent, entries[id].name, Some(id)) {
        return Err(Conflict);
      }
      UntrashIsHarmless(View(), owner, id);
      entries := Trashed(entries, id, false);
      r := Ok(());
    }

    /** The insert checks nothing but the foreign key. */
    method InsertLink(s: Share) returns (r: Result<Id, DriveError>)
      requires Valid() && (s.resource.EntryOf? && s.resource.id in entries ==> ShareOk(entries, s))
      requires s.resource.AlbumOf? ==> ShareOk(entries, s)
      modifies this
      ensures Valid()
      ensures r.Err? ==> View() == old(View()) && s.resource.EntryOf? && s.resource.id !in entries
      ensures r.Ok? ==> MayInsertShare(old(View()), r.value, s) && View() == InsertShare(old(View()), r.value, s)
    {
      if s.resource.EntryOf? && s.resource.id !in entries {
        return Err(NotFound);
      }
      FreshExists(shares.Keys);
      var id :| id !in shares;
      InsertShareIff(View(), id, s);
      shares := shares[id := s];
      r := Ok(id);
    }

    // ----- handlers, undisturbed

    method CreateFolder(owner: Id, parent: Option<Id>, name: Name) returns (r: Result<Id, DriveError>)
      requires Valid()
      modifies this
      ensures Valid() && (Sound(old(View())) ==> Sound(View()))
      ensures r.Err? ==> View() == old(View())
      ensures r.Ok? <==>
        (parent.Some? ==> Active(old(entries), owner, parent.value, true))
        && !Taken(old(entries), owner, parent, name, None)
      ensures r.Ok? ==> r.value !in old(entries) && shares == old(shares) && grants == old(grants)
      ensures r.Ok? ==> entries == old(entries)[r.value := Entry(owner, parent, Folder, name, false, false, None)]
    {
      if parent.Some? {
        var active := EnsureActive(entries, owner, parent.value, true);
        if !active {
          return Err(NotFound);
        }
        ActiveIsOpen(entries, owner, parent.value);
      }
      ghost var t := View();
      r := InsertRow(Entry(owner, parent, Folder, name, false, false, None));
      if r.Ok? {
        InsertIsHarmless(t, r.value, Entry(owner, parent, Folder, name, false, false, None));
      } else {
        NeverInserted(entries, Entry(owner, parent, Folder, name, false, false, None));
      }
    }

    static lemma ActiveIsOpen(es: Entries, owner: Id, id: Id)
      requires Forest(es) && Active(es, owner, id, true)
      ensures OpenHome(es, owner, Some(id))
    {
      assert ChainOf(es, id)[0] == id;
    }

    static lemma NeverInserted(es: Entries, row: Entry)
      requires !row.trashed && forall id :: !MayInsert(es, id, row)
      ensures !OpenHome(es, row.owner, row.parent) || Taken(es, row.owner, row.parent, row.name, None)
    {
      FreshExists(es.Keys);
      var id: Id :| id !in es;
      assert !MayInsert(es, id, row);
    }

    /** `link_content`: `twins` are the objects with the bytes asked for and `ready` one of them that is ready. The file
        of that name refers to such an object then, or a new file does; a folder of that name, or a file without any
        version, is a conflict. */
    method LinkContent(owner: Id, parent: Option<Id>, name: Name, twins: set<Id>, ready: Option<Id>)
      returns (r: Result<Id, DriveError>)
      requires Valid() && (ready.Some? ==> ready.value in twins)
      modifies this
      ensures Valid() && (Sound(old(View())) ==> Sound(View()))
      ensures r.Err? ==> View() == old(View())
      ensures r.Ok? <==>
        (parent.Some? ==> Active(old(entries), owner, parent.value, true)) && ready.Some?
        && !NameBlocked(old(entries), owner, parent, name)
      ensures r.Ok? ==> View() == LinkFile(old(View()), owner, parent, name, r.value, ready.value, twins)
      ensures r.Ok? ==>
        r.value in entries && IsFileNamed(entries[r.value], owner, parent, name)
        && entries[r.value].stored.value in twins
    {
      if parent.Some? {
        var active := EnsureActive(entries, owner, parent.value, true);
        if !active {
          return Err(NotFound);
        }
        ActiveIsOpen(entries, owner, parent.value);
      }
      if ready.None? {
        return Err(NotFound);
      }
      var content := ready.value;
      ghost var t := View();
      if exists x :: x in entries && IsFileNamed(entries[x], owner, parent, name) {
        var x :| x in entries && IsFileNamed(entries[x], owner, parent, name);
        OnlyFileNamed(entries, owner, parent, name, x);
        LinkFileIsHarmless(t, owner, parent, name, x, content, twins);
        if entries[x].stored.value !in twins {
          entries := entries[x := entries[x].(stored := Some(content))];
        }
        return Ok(x);
      }
      var row := Entry(owner, parent, File, name, false, false, Some(content));
      r := InsertRow(row);
      if r.Ok? {
        LinkFileIsHarmless(t, owner, parent, name, r.value, content, twins);
        assert !NameBlocked(old(entries), owner, parent, name);
      } else {
        NeverInserted(entries, row);
      }
    }

    /** The name is taken by an entry that cannot take content. */
    static ghost predicate NameBlocked(es: Entries, owner: Id, parent: Option<Id>, name: Name) {
      exists x :: x in es && (es[x].kind.Folder? || es[x].stored.None?) && Occupies(es[x], owner, parent, name)
    }

    static lemma OnlyFileNamed(es: Entries, owner: Id, parent: Option<Id>, name: Name, x: Id)
      requires UniqueNames(es) && x in es && IsFileNamed(es[x], owner, parent, name)
      ensures forall y :: y in es && Occupies(es[y], owner, parent, name) ==> y == x
    {
      forall y | y in es && Occupies(es[y], owner, parent, name) ensures y == x {
        assert !Clash(es, y, x);
      }
    }

    /** `ensure_photos_folder`: the owner's protected folder, an adopted top-level folder, or a new one under the
        first of three names that is free. */
    method EnsurePhotosFolder(owner: Id) returns (r: Result<Id, DriveError>)
      requires Valid()
      modifies this
      ensures Valid() && (Sound(old(View())) ==> Sound(View()))
      ensures r.Ok? <==> PhotosPossible(old(entries), owner)
      ensures r.Err? ==> View() == old(View())
      ensures r.Ok? ==> View() == PhotosTx(old(View()), owner, r.value)
      ensures r.Ok? ==> PhotosMade(old(entries), entries, owner, r.value)
    {
      ghost var t := View();
      if x :| x in entries && IsPhotos(entries[x], owner) {
        return Ok(x);
      }
      for k := 0 to |PHOTOS_NAMES|
        invariant View() == old(View())
        invariant forall j :: j < k ==> !CanAdopt(entries, owner, j)
        invariant forall id :: PhotosTx(t, owner, id) == AdoptFrom(t, owner, id, k)
      {
        if x :| x in entries && Adoptable(entries[x], owner, PHOTOS_NAMES[k].folded) {
          assert CanAdopt(entries, owner, k);
          OneAdoptable(entries, owner, PHOTOS_NAMES[k].folded, x);
          AdoptionIsHarmless(View(), x);
          entries := entries[x := entries[x].(system := true)];
          return Ok(x);
        }
      }
      r := NamePhotosFolder(t, owner);
    }

    /** The part that adds a folder: none is there and none can be adopted. */
    method NamePhotosFolder(ghost t: Tables, owner: Id) returns (r: Result<Id, DriveError>)
      requires Valid() && t == View() && !HasPhotos(entries, owner) && forall k :: !CanAdopt(entries, owner, k)
      modifies this
      ensures Valid() && (Sound(t) ==> Sound(View()))
      ensures r.Ok? <==> PhotosPossible(t.entries, owner)
      ensures r.Err? ==> View() == t
      ensures r.Ok? ==> View() == NameFrom(t, owner, r.value, 0) && PhotosMade(t.entries, entries, owner, r.value)
    {
      for k := 0 to |PHOTOS_NAMES|
        invariant View() == t
        invariant forall j :: j < k ==> !CanName(entries, owner, j)
        invariant forall id :: NameFrom(t, owner, id, 0) == NameFrom(t, owner, id, k)
      {
        if forall x :: x in entries ==> !Occupies(entries[x], owner, None, PHOTOS_NAMES[k]) {
          assert CanName(entries, owner, k);
          r := InsertPhotos(owner, PHOTOS_NAMES[k]);
          return;
        }
      }
      return Err(Conflict);
    }

    method InsertPhotos(owner: Id, name: Name) returns (r: Result<Id, DriveError>)
      requires Valid() && !Taken(entries, owner, None, name, None)
      modifies this
      ensures Valid() && (Sound(old(View())) ==> Sound(View())) && shares == old(shares) && grants == old(grants)
      ensures r.Ok? && r.value !in old(entries)
      ensures View() == InsertEntry(old(View()), r.value, Entry(owner, None, Folder, name, false, true, None))
      ensures entries == old(entries)[r.value := Entry(owner, None, Folder, name, false, true, None)]
    {
      ghost var t := View();
      var row := Entry(owner, None, Folder, name, false, true, None);
      r := InsertRow(row);
      if r.Ok? {
        InsertIsHarmless(t, r.value, row);
      } else {
        NeverInserted(entries, row);
      }
    }

    method MoveEntry(owner: Id, id: Id, dest: Option<Id>) returns (r: Result<(), DriveError>)
      requires Valid()
      modifies this
      ensures Valid() && (Sound(old(View())) ==> Sound(View()))
      ensures r.Err? ==> View() == old(View())
      ensures r.Ok? <==> MayMove(old(entries), owner, id, dest)
      ensures r.Ok? ==> entries == Reparent(old(entries), id, dest) && shares == old(shares) && grants == old(grants)
    {
      var active := EnsureActive(entries, owner, id, false);
      if !active {
        return Err(NotFound);
      }
      assert ChainOf(entries, id)[0] == id;
      if entries[id].system {
        return Err(Protected);
      }
      if dest.Some? {
        var home := EnsureActive(entries, owner, dest.value, true);
        if !home {
          return Err(NotFound);
        }
        BelowOnChain(entries, id, dest.value);
        NoCycleMissed(entries, owner, id, dest.value);
        GuardIfActive(entries, owner, id, dest.value);
        var contained := FolderContains(entries, owner, id, dest.value);
        if dest.value == id || contained {
          BelowSelf(entries, id, false);
          return Err(Conflict);
        }
      }
      ghost var t := View();
      r := WriteParent(owner, id, dest);
      UpdateParentIff(t, owner, id, dest);
    }

    /** The entry is active and mutable; the destination is active, not below the entry, and has no such name yet. */
    static ghost predicate MayMove(es: Entries, owner: Id, id: Id, dest: Option<Id>)
      requires Forest(es)
    {
      && Active(es, owner, id, false) && !es[id].system
      && (dest.Some? ==> Active(es, owner, dest.value, true) && !Below(es, id, dest.value, false))
      && !Taken(es, owner, dest, es[id].name, Some(id))
    }

    method TrashEntry(owner: Id, id: Id) returns (r: Result<(), DriveError>)
      requires Valid()
      modifies this
      ensures Valid() && (Sound(old(View())) ==> Sound(View()))
      ensures r.Ok? <==> Active(old(entries), owner, id, false) && !old(entries)[id].system
      ensures View() == if r.Ok? then TrashTx(old(View()), owner, id) else old(View())
    {
      var active := EnsureActive(entries, owner, id, false);
      if !active {
        return Err(NotFound);
      }
      assert ChainOf(entries, id)[0] == id;
      var trashed := TrashOwned(Tables(entries, shares, grants), owner, id);
      if trashed.Err? {
        return Err(trashed.error);
      }
      TrashIsHarmless(View(), owner, id);
      Commit(trashed.value);
      r := Ok(());
    }

    method RestoreEntry(owner: Id, id: Id) returns (r: Result<(), DriveError>)
      requires Valid()
      modifies this
      ensures Valid() && (Sound(old(View())) ==> Sound(View()))
      ensures r.Err? ==> View() == old(View())
      ensures r.Ok? <==> MayRestore(old(entries), owner, id)
      ensures r.Ok? ==> entries == Trashed(old(entries), id, false) && shares == old(shares) && grants == old(grants)
    {
      if id !in entries || entries[id].owner != owner || !entries[id].trashed {
        return Err(NotFound);
      }
      if entries[id].parent.Some? {
        var active := EnsureActive(entries, owner, entries[id].parent.value, true);
        if !active {
          return Err(NotFound);
        }
      }
      UntrashIsHarmless(View(), owner, id);
      r := WriteUntrashed(owner, id);
    }

    /** Trashed, with its parent (if any) active again and its name still free there. */
    static ghost predicate MayRestore(es: Entries, owner: Id, id: Id)
      requires Forest(es)
    {
      && id in es && es[id].owner == owner && es[id].trashed
      && (es[id].parent.Some? ==> Active(es, owner, es[id].parent.value, true))
      && !Taken(es, owner, es[id].parent, es[id].name, Some(id))
    }

    /** The request itself is in order: some distinct entries, and an active destination where one is wanted. */
    static ghost predicate WellPut(es: Entries, owner: Id, action: Action, ids: seq<Id>, dest: Option<Id>)
      requires Forest(es)
    {
      && 0 < |ids| <= MAX_BATCH_ENTRIES && |Names(ids)| == |ids|
      && (dest.Some? ==> !action.Trash? && Active(es, owner, dest.value, true) && dest.value !in ids)
    }

    /** A batch is one transaction: all of it or nothing. */
    method BatchEntries(owner: Id, action: Action, ids: seq<Id>, dest: Option<Id>, namer: Namer)
      returns (r: Result<(), DriveError>, ghost stages: seq<Entries>, ghost images: seq<map<Id, Id>>)
      requires Valid()
      modifies this
      ensures Valid() && (Sound(old(View())) ==> Sound(View()))
      ensures r.Err? ==> View() == old(View())
      ensures r.Ok? ==> WellPut(old(entries), owner, action, ids, dest)
      ensures action.Move? ==>
                (r.Ok? <==>
                  WellPut(old(entries), owner, action, ids, dest) && MovableTogether(old(entries), owner, ids, dest))
      ensures action.Trash? ==>
                (r.Ok? <==>
                  && WellPut(old(entries), owner, action, ids, dest)
                  && forall x :: x in ids ==> Mutable(old(entries), owner, x))
      ensures action.Copy? && WellPut(old(entries), owner, action, ids, dest) ==>
                CopySteps(stages, images, owner, ids, dest, namer) && stages[0] == old(entries)
      ensures action.Copy? && r.Err? && WellPut(old(entries), owner, action, ids, dest) ==>
                |images| < |ids| && StuckAt(stages, owner, ids[|images|], dest, namer)
      ensures r.Ok? && action.Move? ==> View() == MoveBatch(old(View()), owner, ids, dest)
      ensures r.Ok? && action.Trash? ==> View() == TrashEach(old(View()), owner, ids)
      ensures r.Ok? && action.Copy? ==>
                |images| == |ids| && View() == old(View()).(entries := stages[|ids|])
                  && |entries| <= |old(entries)| + MAX_COPY_ENTRIES
    {
      stages, images := [], [];
      if |ids| == 0 || |ids| > MAX_BATCH_ENTRIES || |Names(ids)| != |ids| {
        return Err(BadRequest), stages, images;
      }
      if action.Trash? {
        if dest.Some? {
          return Err(BadRequest), stages, images;
        }
      } else if dest.Some? {
        var active := EnsureActive(entries, owner, dest.value, true);
        if !active {
          return Err(NotFound), stages, images;
        }
        if dest.value in ids {
          return Err(BadRequest), stages, images;
        }
      }
      var t := Tables(entries, shares, grants);
      var done;
      match action {
        case Move =>
          done := BatchMove(t, owner, ids, dest);
          MoveBatchIff(t, owner, ids, dest);
        case Copy =>
          done, stages, images := BatchCopy(t, owner, ids, dest, namer);
        case Trash =>
          DistinctIds(ids);
          done := BatchTrash(t, owner, ids);
          TrashEachIsHarmless(t, owner, ids);
      }
      if done.Err? {
        return Err(done.error), stages, images;
      }
      Commit(done.value);
      r := Ok(());
    }

    method PurgeTrash(owner: Id) returns (report: Report)
      requires Valid()
      modifies this
      ensures Valid() && (Sound(old(View())) ==> Sound(View()))
      ensures PurgedSoFar(old(entries), entries, owner) && report.entries == |old(entries)| - |entries|
      ensures View() == Cascade(old(View()), entries)
      ensures report.roots < MAX_ROOTS ==> Emptied(old(entries), entries, owner)
    {
      var left;
      left, report := EmptyTrash(entries, owner);
      PurgeCascades(View(), left, owner);
      Commit(Cascade(Tables(entries, shares, grants), left));
    }

    static lemma PurgeCascades(t: Tables, left: Entries, owner: Id)
      requires Consistent(t) && PurgedSoFar(t.entries, left, owner)
      ensures Harmless(t, Cascade(t, left))
    {
      forall e | e in left
        ensures e in t.entries && left[e] == t.entries[e] && ChainOf(left, e) == ChainOf(t.entries, e) {
        assert Kept(t.entries, left, e);
      }
      CascadeKeepsConsistent(t, left);
      if LinksClean(t) {
        CascadeKeepsLinks(t, left);
      }
    }

    /** Permanently deletes named trash roots only. */
    method PurgeNamed(owner: Id, ids: seq<Id>) returns (r: Result<Report, DriveError>)
      requires Valid()
      modifies this
      ensures Valid() && (Sound(old(View())) ==> Sound(View()))
      ensures r.Err? ==> View() == old(View())
      ensures r.Ok? <==> 0 < |Names(ids)| <= 100 && forall x :: x in ids ==> TrashRoot(old(entries), owner, x)
      ensures r.Ok? ==> View() == Cascade(old(View()), entries) && r.value.entries == |old(entries)| - |entries|
      ensures r.Ok? ==> forall x :: x in old(entries) ==> (x in entries <==> Spared(old(entries), ids, x))
    {
      var left;
      r, left := PurgeSelected(entries, owner, ids);
      if r.Ok? {
        PurgeCascades(View(), left, owner);
        Commit(Cascade(Tables(entries, shares, grants), left));
      }
    }

    static ghost predicate ShareableBy(es: Entries, owner: Id, resource: Resource, albumOwned: bool)
      requires Forest(es)
    {
      match resource
      case AlbumOf(_) => albumOwned
      case EntryOf(id, kind) => Active(es, owner, id, false) && es[id].kind == kind
    }

    /** A link can only be made to an active entry of the stated kind (album links skip that check). */
    method CreateShare(now: int, owner: Id, resource: Resource, albumOwned: bool, password: bool, expires: Option<int>,
                       allowDownload: bool, maxDownloads: Option<nat>, key: Option<Id>, keyValid: bool)
      returns (r: Result<Id, DriveError>)
      requires Valid()
      modifies this
      ensures Valid() && (Sound(old(View())) ==> Sound(View()))
      ensures r.Ok? <==>
        && ShareableBy(old(entries), owner, resource, albumOwned) && (expires.Some? ==> expires.value > now)
        && maxDownloads != Some(0) && (key.Some? ==> keyValid)
      ensures r.Err? ==> View() == old(View())
      ensures r.Ok? ==> r.value !in old(shares)
                        && View() == InsertShare(old(View()), r.value,
                          NewShare(owner, resource, password, expires, allowDownload, maxDownloads, key))
    {
      if (expires.Some? && expires.value <= now) || maxDownloads == Some(0) {
        return Err(BadRequest);
      }
      if resource.AlbumOf? {
        if !albumOwned {
          return Err(NotFound);
        }
      } else {
        var active := EnsureActive(entries, owner, resource.id, resource.kind.Folder?);
        if !active {
          return Err(NotFound);
        }
        if entries[resource.id].kind != resource.kind {
          return Err(BadRequest);
        }
      }
      if key.Some? && !keyValid {
        return Err(Protected);
      }
      ghost var t := View();
      var s := NewShare(owner, resource, password, expires, allowDownload, maxDownloads, key);
      r := InsertLink(s);
      if r.Ok? {
        InsertShareIff(t, r.value, s);
      }
    }

    method RevokeShare(owner: Id, id: Id) returns (r: Result<(), DriveError>)
      requires Valid()
      modifies this
      ensures Valid() && (Sound(old(View())) ==> Sound(View()))
      ensures r.Ok? <==> id in old(shares) && old(shares)[id].owner == owner
      ensures View() == if r.Ok? then RevokeWhere(old(View()), {id}) else old(View())
    {
      if id !in shares || shares[id].owner != owner {
        return Err(NotFound);
      }
      RevokeKeepsConsistent(View(), {id});
      Commit(RevokeWhere(Tables(entries, shares, grants), {id}));
      r := Ok(());
    }

    /** Revoking everything one API key created. */
    method RevokeKeyShares(owner: Id, key: Id)
      requires Valid()
      modifies this
      ensures Valid() && (Sound(old(View())) ==> Sound(View()))
      ensures View() ==
        RevokeWhere(old(View()),
          set s | s in old(shares) && old(shares)[s].key == Some(key) && old(shares)[s].owner == owner)
    {
      var which := set s | s in shares && shares[s].key == Some(key) && shares[s].owner == owner;
      RevokeKeepsConsistent(View(), which);
      Commit(RevokeWhere(Tables(entries, shares, grants), which));
    }

    /** `fetch_active_share`: of the live file and folder links it refuses exactly those left behind by a trash. */
    method FetchActiveShare(now: int, id: Id, albumExists: bool) returns (ok: bool)
      requires Valid()
      ensures ok <==> Fetchable(View(), now, id, albumExists)
    {
      if id !in shares || !Live(shares[id], now) {
        return false;
      }
      var share := shares[id];
      if share.resource.AlbumOf? {
        return albumExists;
      }
      assert ShareOk(entries, share);
      var active := EnsureActive(entries, share.owner, share.resource.id, share.resource.kind.Folder?);
      ok := active && entries[share.resource.id].kind == share.resource.kind;
    }

    static ghost predicate Fetchable(t: Tables, now: int, id: Id, albumExists: bool)
      requires Forest(t.entries)
    {
      && id in t.shares && Live(t.shares[id], now) && (t.shares[id].resource.AlbumOf? ==> albumExists)
      && !LeftBehind(t.entries, t.shares[id])
    }

    /** A correct password on an unlocked live link yields a grant that expires no later than the link. */
    method UnlockShare(now: int, id: Id, albumExists: bool, correct: bool) returns (r: Result<Id, DriveError>)
      requires Valid()
      modifies this
      ensures Valid() && (Sound(old(View())) ==> Sound(View()))
      ensures r.Ok? <==> Opens(old(View()), now, id, albumExists) && correct
      ensures r.Ok? ==> r.value !in old(grants) && View() == UnlockTx(old(View()), now, id, r.value)
      ensures r.Err? ==> View() == if Opens(old(View()), now, id, albumExists)
        then FailureTx(old(View()), now, id) else old(View())
    {
      var found := FetchActiveShare(now, id, albumExists);
      if !found {
        return Err(NotFound);
      }
      var share := shares[id];
      if !share.password {
        return Err(BadRequest);
      }
      if Locked(share, now) {
        return Err(Conflict);
      }
      if !correct {
        RecordPasswordFailure(now, id);
        return Err(Protected);
      }
      FreshExists(grants.Keys);
      var token :| token !in grants;
      UnlockIsHarmless(View(), now, id, token);
      shares := shares[id := share.(failures := 0, lockedUntil := None)];
      grants := grants[token := Grant(id, GrantEnd(share, now))];
      r := Ok(token);
    }

    /** The link is live, protected and not locked, so a password is tried on it. */
    static ghost predicate Opens(t: Tables, now: int, id: Id, albumExists: bool)
      requires Forest(t.entries)
    {
      Fetchable(t, now, id, albumExists) && t.shares[id].password && !Locked(t.shares[id], now)
    }

    /** Five failures in a row lock the link; an expired lock starts a new count. */
    method RecordPasswordFailure(now: int, id: Id)
      requires Valid() && id in shares
      modifies this
      ensures Valid() && View() == FailureTx(old(View()), now, id) && (Sound(old(View())) ==> Sound(View()))
    {
      FailureIsHarmless(View(), now, id);
      var share := shares[id];
      if !Live(share, now) || Locked(share, now) {
        assert shares == shares[id := share];
        return;
      }
      var next := share;
      if share.lockedUntil.Some? {
        next := share.(failures := 1, lockedUntil := None);
      } else if share.failures + 1 >= PASSWORD_FAILURE_LIMIT {
        next := share.(failures := share.failures + 1, lockedUntil := Some(now + PASSWORD_LOCKOUT));
      } else {
        next := share.(failures := share.failures + 1);
      }
      shares := shares[id := next];
    }

    /** Counts a download only while the link is live and below its limit. */
    method ReserveDownload(now: int, id: Id) returns (ok: bool)
      requires Valid()
      modifies this
      ensures Valid() && View() == DownloadTx(old(View()), now, id) && (Sound(old(View())) ==> Sound(View()))
      ensures ok <==> id in old(shares) && Downloadable(old(shares)[id], now)
    {
      DownloadIsHarmless(View(), now, id);
      ok := id in shares && Downloadable(shares[id], now);
      if ok {
        shares := shares[id := shares[id].(downloads := shares[id].downloads + 1)];
      }
    }
  }
}
