/** The statements and transactions that write the drive's tables, as functions of the tables they find: a row that
    the WHERE clause misses, the row trigger or the unique index on names refuses leaves the tables as they were.
    Whatever a request checked before, only this decides (src/drive.rs, src/shares.rs, src/devices.rs,
    src/maintenance.rs, migrations/0001_initial.sql). */
module DriveWrites {
  import opened Common
  import opened DriveForest
  import opened DriveCopy
  import opened TrashPurge
  import opened Shares

  // ----- single rows of the tree

  predicate MayInsert(es: Entries, id: Id, row: Entry) {
    id !in es && !row.trashed && OpenHome(es, row.owner, row.parent)
      && !Taken(es, row.owner, row.parent, row.name, None)
  }

  function InsertEntry(t: Tables, id: Id, row: Entry): Tables {
    if MayInsert(t.entries, id, row) then t.(entries := t.entries[id := row]) else t
  }

  predicate Mutable(es: Entries, owner: Id, id: Id) {
    id in es && es[id].owner == owner && !es[id].trashed && !es[id].system
  }

  /** The update of a parent looks at the row's owner and trash mark only; `system` was a matter of earlier checks. */
  ghost predicate MayUpdateParent(es: Entries, owner: Id, id: Id, dest: Option<Id>)
    requires Forest(es)
  {
    && id in es && es[id].owner == owner && !es[id].trashed
    && GuardLets(es, owner, id, dest) && !Taken(es, owner, dest, es[id].name, Some(id))
  }

  ghost function UpdateParent(t: Tables, owner: Id, id: Id, dest: Option<Id>): Tables
    requires Forest(t.entries)
  {
    if MayUpdateParent(t.entries, owner, id, dest) then t.(entries := Reparent(t.entries, id, dest)) else t
  }

  predicate MayRename(es: Entries, owner: Id, id: Id, name: Name) {
    id in es && es[id].owner == owner && !es[id].trashed && !Taken(es, owner, es[id].parent, name, Some(id))
  }

  function UpdateName(t: Tables, owner: Id, id: Id, name: Name): Tables {
    if MayRename(t.entries, owner, id, name) then t.(entries := t.entries[id := t.entries[id].(name := name)]) else t
  }

  predicate MayUntrash(es: Entries, owner: Id, id: Id) {
    id in es && es[id].owner == owner && es[id].trashed && !Taken(es, owner, es[id].parent, es[id].name, Some(id))
  }

  function Untrash(t: Tables, owner: Id, id: Id): Tables {
    if MayUntrash(t.entries, owner, id) then t.(entries := Trashed(t.entries, id, false)) else t
  }

  /** The untrashed file of that name at that place, with a current version. */
  predicate IsFileNamed(e: Entry, owner: Id, parent: Option<Id>, name: Name) {
    e.kind.File? && e.stored.Some? && Occupies(e, owner, parent, name)
  }

  /** A file that takes new content: the one of that name with a version if there is one, else a new row. A file whose
      object is one of `twins`, the objects with the same bytes, stays as it is. */
  ghost function LinkFile(t: Tables, owner: Id, parent: Option<Id>, name: Name, id: Id, content: Id,
      twins: set<Id>): Tables {
    if exists x :: x in t.entries && IsFileNamed(t.entries[x], owner, parent, name) then
      var x :| x in t.entries && IsFileNamed(t.entries[x], owner, parent, name);
      if t.entries[x].stored.value in twins then t
      else t.(entries := t.entries[x := t.entries[x].(stored := Some(content))])
    else InsertEntry(t, id, Entry(owner, parent, File, name, false, false, Some(content)))
  }

  // ----- the protected folder

  const PHOTOS_NAMES :=
    [Name("Photos", "photos"), Name("Pictures", "pictures"), Name("Photos Library", "photos library")]

  predicate IsPhotos(e: Entry, owner: Id) {
    e.owner == owner && e.system && !e.trashed && e.kind.Folder?
  }

  predicate Adoptable(e: Entry, owner: Id, folded: string) {
    e.owner == owner && e.parent.None? && e.kind.Folder? && !e.trashed && !e.system && e.name.folded == folded
  }

  predicate HasPhotos(es: Entries, owner: Id) {
    exists x :: x in es && IsPhotos(es[x], owner)
  }

  predicate CanAdopt(es: Entries, owner: Id, k: int) {
    0 <= k < |PHOTOS_NAMES| && exists x :: x in es && Adoptable(es[x], owner, PHOTOS_NAMES[k].folded)
  }

  predicate CanName(es: Entries, owner: Id, k: int) {
    0 <= k < |PHOTOS_NAMES| && !Taken(es, owner, None, PHOTOS_NAMES[k], None)
  }

  ghost predicate PhotosPossible(es: Entries, owner: Id) {
    HasPhotos(es, owner) || (exists k :: CanAdopt(es, owner, k)) || (exists k :: CanName(es, owner, k))
  }

  /** Protects the top-level folder under the first name from the `k`-th that has one, or else adds one. */
  ghost function AdoptFrom(t: Tables, owner: Id, id: Id, k: nat): Tables
    requires k <= |PHOTOS_NAMES|
    decreases |PHOTOS_NAMES| - k
  {
    if k == |PHOTOS_NAMES| then NameFrom(t, owner, id, 0)
    else if CanAdopt(t.entries, owner, k) then
      var x :| x in t.entries && Adoptable(t.entries[x], owner, PHOTOS_NAMES[k].folded);
      t.(entries := t.entries[x := t.entries[x].(system := true)])
    else AdoptFrom(t, owner, id, k + 1)
  }

  ghost function NameFrom(t: Tables, owner: Id, id: Id, k: nat): Tables
    requires k <= |PHOTOS_NAMES|
    decreases |PHOTOS_NAMES| - k
  {
    if k == |PHOTOS_NAMES| then t
    else if CanName(t.entries, owner, k)
      then InsertEntry(t, id, Entry(owner, None, Folder, PHOTOS_NAMES[k], false, true, None))
    else NameFrom(t, owner, id, k + 1)
  }

  /** The transaction, whose update or insert the unique index refuses if the owner has a protected folder by now. */
  ghost function PhotosTx(t: Tables, owner: Id, id: Id): Tables {
    if HasPhotos(t.entries, owner) then t else AdoptFrom(t, owner, id, 0)
  }

  /** The folder that was there; else the one under the first of three names that can be adopted; else a new one.
      Either way the owner has no second one. */
  ghost predicate PhotosMade(es: Entries, es': Entries, owner: Id, id: Id) {
    && id in es' && IsPhotos(es'[id], owner)
    && if HasPhotos(es, owner) then es' == es
       else
         && (forall x :: x in es' && IsPhotos(es'[x], owner) ==> x == id)
         && if id in es then
              && es' == es[id := es[id].(system := true)]
              && exists k: nat :: k < |PHOTOS_NAMES| && Adoptable(es[id], owner, PHOTOS_NAMES[k].folded)
                                  && forall j :: j < k ==> !CanAdopt(es, owner, j)
            else
              && es' == es[id := Entry(owner, None, Folder, PHOTOS_NAMES[0], false, true, None).(name := es'[id].name)]
              && (forall j :: !CanAdopt(es, owner, j))
              && exists k: nat :: k < |PHOTOS_NAMES| && es'[id].name == PHOTOS_NAMES[k] && CanName(es, owner, k)
                                  && forall j :: j < k ==> !CanName(es, owner, j)
  }

  lemma OneAdoptable(es: Entries, owner: Id, folded: string, x: Id)
    requires UniqueNames(es) && x in es && Adoptable(es[x], owner, folded)
    ensures forall y :: y in es && Adoptable(es[y], owner, folded) ==> y == x
  {
    forall y | y in es && Adoptable(es[y], owner, folded) ensures y == x {
      assert !Clash(es, y, x);
    }
  }

  // ----- transactions over several rows

  ghost function Under(es: Entries, id: Id): set<Id> {
    set x | x in es && Below(es, id, x, false)
  }

  ghost function TrashTx(t: Tables, owner: Id, id: Id): Tables {
    if Mutable(t.entries, owner, id)
      then RevokeUnder(t.(entries := Trashed(t.entries, id, true)), owner, Under(t.entries, id)) else t
  }

  ghost function TrashEach(t: Tables, owner: Id, ids: seq<Id>): Tables {
    if ids == [] then t else TrashTx(TrashEach(t, owner, ids[..|ids| - 1]), owner, ids[|ids| - 1])
  }

  /** An entry named twice is already trashed the second time. */
  ghost predicate TrashableTogether(es: Entries, owner: Id, ids: seq<Id>) {
    forall k :: 0 <= k < |ids| ==> Mutable(es, owner, ids[k]) && ids[k] !in ids[..k]
  }

  /** A batch fails as a whole when one of its entries cannot be trashed. */
  ghost function TrashBatch(t: Tables, owner: Id, ids: seq<Id>): Tables {
    if TrashableTogether(t.entries, owner, ids) then TrashEach(t, owner, ids) else t
  }

  function Named(ids: seq<Id>): set<Id> {
    set x | x in ids
  }

  ghost predicate SameName(es: Entries, x: Id, y: Id)
    requires x in es && y in es
  {
    x != y && es[x].name.folded == es[y].name.folded
  }

  /** Every entry may go there, and no two of them carry the same name. */
  ghost predicate MovableTogether(es: Entries, owner: Id, ids: seq<Id>, dest: Option<Id>)
    requires Forest(es)
  {
    && (forall x :: x in ids ==> MayReparent(es, owner, x, dest))
    && (forall x, y {:trigger SameName(es, x, y)} :: x in ids && y in ids ==> !SameName(es, x, y))
  }

  ghost function MoveBatch(t: Tables, owner: Id, ids: seq<Id>, dest: Option<Id>): Tables
    requires Forest(t.entries)
  {
    if MovableTogether(t.entries, owner, ids, dest) then t.(entries := MoveAll(t.entries, Named(ids), dest)) else t
  }

  ghost function PurgeTx(t: Tables, owner: Id, root: Id): Tables {
    if root in t.entries && t.entries[root].owner == owner && t.entries[root].trashed
    then Cascade(t, Without(t.entries, Under(t.entries, root))) else t
  }

  // ----- links

  /** The foreign key only demands that the entry still exists. */
  predicate MayInsertShare(t: Tables, id: Id, s: Share) {
    id !in t.shares && (s.resource.EntryOf? ==> s.resource.id in t.entries)
  }

  function InsertShare(t: Tables, id: Id, s: Share): Tables {
    if MayInsertShare(t, id, s) then t.(shares := t.shares[id := s]) else t
  }

  function NewShare(owner: Id, resource: Resource, password: bool, expires: Option<int>, allowDownload: bool,
      maxDownloads: Option<nat>, key: Option<Id>): Share {
    Share(owner, resource, password, expires, false, allowDownload, maxDownloads, 0, key, 0, None)
  }

  predicate Locked(s: Share, now: int) {
    s.lockedUntil.Some? && s.lockedUntil.value > now
  }

  function GrantEnd(s: Share, now: int): int {
    if s.expires.Some? && s.expires.value <= now + ACCESS_GRANT_TTL then s.expires.value else now + ACCESS_GRANT_TTL
  }

  /** The unlocking transaction looks again at everything but the lock. */
  predicate MayUnlock(t: Tables, now: int, link: Id, token: Id) {
    link in t.shares && Live(t.shares[link], now) && t.shares[link].password && token !in t.grants
  }

  function UnlockTx(t: Tables, now: int, link: Id, token: Id): Tables {
    if MayUnlock(t, now, link, token) then
      t.(shares := t.shares[link := t.shares[link].(failures := 0, lockedUntil := None)],
         grants := t.grants[token := Grant(link, GrantEnd(t.shares[link], now))])
    else t
  }

  /** An expired lock starts a new count; the fifth failure in a row locks; a locked or dead link does not change. */
  function AfterFailure(s: Share, now: int): Share {
    if !Live(s, now) || Locked(s, now) then s
    else if s.lockedUntil.Some? then s.(failures := 1, lockedUntil := None)
    else if s.failures + 1 >= PASSWORD_FAILURE_LIMIT
      then s.(failures := s.failures + 1, lockedUntil := Some(now + PASSWORD_LOCKOUT))
    else s.(failures := s.failures + 1)
  }

  function FailureTx(t: Tables, now: int, link: Id): Tables {
    if link in t.shares then t.(shares := t.shares[link := AfterFailure(t.shares[link], now)]) else t
  }

  predicate Downloadable(s: Share, now: int) {
    Live(s, now) && s.allowDownload && (s.maxDownloads.Some? ==> s.downloads < s.maxDownloads.value)
  }

  function DownloadTx(t: Tables, now: int, link: Id): Tables {
    if link in t.shares && Downloadable(t.shares[link], now)
    then t.(shares := t.shares[link := t.shares[link].(downloads := t.shares[link].downloads + 1)]) else t
  }

  // ----- what each write keeps

  /** The tables stay consistent, and links that were clean stay clean. */
  ghost predicate Harmless(t: Tables, u: Tables) {
    Consistent(u) && (Consistent(t) && LinksClean(t) ==> LinksClean(u))
  }

  lemma InsertIsHarmless(t: Tables, id: Id, row: Entry)
    requires Consistent(t)
    ensures Harmless(t, InsertEntry(t, id, row))
  {
    if MayInsert(t.entries, id, row) {
      InsertKeepsForest(t.entries, id, row);
      assert !Taken(t.entries, row.owner, row.parent, row.name, Some(id));
      RowKeepsNames(t.entries, id, row);
      ExtensionKeepsConsistent(t, t.entries[id := row]);
    }
  }

  /** Changing a row's name or content. */
  lemma RowUpdateIsHarmless(t: Tables, id: Id, row: Entry)
    requires Consistent(t) && id in t.entries && UniqueNames(t.entries[id := row])
    requires row.owner == t.entries[id].owner && row.parent == t.entries[id].parent && row.kind == t.entries[id].kind
    requires row.trashed == t.entries[id].trashed
    ensures Harmless(t, t.(entries := t.entries[id := row]))
  {
    var es := t.entries[id := row];
    SameShape(t.entries, es);
    TreeKeepsConsistent(t, es);
    if LinksClean(t) {
      ExtensionKeepsLinks(t, es);
    }
  }

  lemma RenameIsHarmless(t: Tables, owner: Id, id: Id, name: Name)
    requires Consistent(t)
    ensures Harmless(t, UpdateName(t, owner, id, name))
  {
    if MayRename(t.entries, owner, id, name) {
      RowKeepsNames(t.entries, id, t.entries[id].(name := name));
      RowUpdateIsHarmless(t, id, t.entries[id].(name := name));
    }
  }

  lemma SameNamesElsewhere(es: Entries, id: Id, content: Option<Id>)
    requires UniqueNames(es) && id in es
    ensures UniqueNames(es[id := es[id].(stored := content)])
  {
    var es' := es[id := es[id].(stored := content)];
    forall x, y | x in es' && y in es' ensures !Clash(es', x, y) {
      assert !Clash(es, x, y);
    }
  }

  lemma LinkFileIsHarmless(t: Tables, owner: Id, parent: Option<Id>, name: Name, id: Id, content: Id, twins: set<Id>)
    requires Consistent(t)
    ensures Harmless(t, LinkFile(t, owner, parent, name, id, content, twins))
  {
    if exists x :: x in t.entries && IsFileNamed(t.entries[x], owner, parent, name) {
      forall x | x in t.entries && IsFileNamed(t.entries[x], owner, parent, name)
        ensures Harmless(t, t.(entries := t.entries[x := t.entries[x].(stored := Some(content))]))
      {
        SameNamesElsewhere(t.entries, x, Some(content));
        RowUpdateIsHarmless(t, x, t.entries[x].(stored := Some(content)));
      }
    } else {
      InsertIsHarmless(t, id, Entry(owner, parent, File, name, false, false, Some(content)));
    }
  }

  lemma AdoptionIsHarmless(t: Tables, x: Id)
    requires Consistent(t) && x in t.entries
    ensures Harmless(t, t.(entries := t.entries[x := t.entries[x].(system := true)]))
  {
    var es := t.entries[x := t.entries[x].(system := true)];
    forall y, z | y in es && z in es ensures !Clash(es, y, z) {
      assert !Clash(t.entries, y, z);
    }
    RowUpdateIsHarmless(t, x, t.entries[x].(system := true));
  }

  lemma {:induction false} NamingIsHarmless(t: Tables, owner: Id, id: Id, k: nat)
    requires Consistent(t) && k <= |PHOTOS_NAMES|
    ensures Harmless(t, NameFrom(t, owner, id, k))
    decreases |PHOTOS_NAMES| - k
  {
    if k < |PHOTOS_NAMES| {
      InsertIsHarmless(t, id, Entry(owner, None, Folder, PHOTOS_NAMES[k], false, true, None));
      NamingIsHarmless(t, owner, id, k + 1);
    }
  }

  lemma {:induction false} AdoptingIsHarmless(t: Tables, owner: Id, id: Id, k: nat)
    requires Consistent(t) && k <= |PHOTOS_NAMES|
    ensures Harmless(t, AdoptFrom(t, owner, id, k))
    decreases |PHOTOS_NAMES| - k
  {
    if k == |PHOTOS_NAMES| {
      NamingIsHarmless(t, owner, id, 0);
    } else if CanAdopt(t.entries, owner, k) {
      forall x | x in t.entries ensures Harmless(t, t.(entries := t.entries[x := t.entries[x].(system := true)])) {
        AdoptionIsHarmless(t, x);
      }
    } else {
      AdoptingIsHarmless(t, owner, id, k + 1);
    }
  }

  lemma PhotosIsHarmless(t: Tables, owner: Id, id: Id)
    requires Consistent(t)
    ensures Harmless(t, PhotosTx(t, owner, id))
  {
    AdoptingIsHarmless(t, owner, id, 0);
  }

  lemma UntrashIsHarmless(t: Tables, owner: Id, id: Id)
    requires Consistent(t)
    ensures Harmless(t, Untrash(t, owner, id))
  {
    if MayUntrash(t.entries, owner, id) {
      RestoreKeepsConsistent(t, id);
      if LinksClean(t) {
        RestoreKeepsLinks(t, id);
      }
    }
  }

  lemma TrashIsHarmless(t: Tables, owner: Id, id: Id)
    requires Consistent(t)
    ensures Harmless(t, TrashTx(t, owner, id))
  {
    if Mutable(t.entries, owner, id) {
      BelowIsThere(t.entries, id);
      TrashKeepsConsistent(t, id, owner, Under(t.entries, id));
      if LinksClean(t) {
        TrashKeepsLinks(t, id, Under(t.entries, id));
      }
    }
  }

  lemma BelowIsThere(es: Entries, id: Id)
    ensures forall x :: x in Under(es, id) <==> Below(es, id, x, false)
  {
    forall x | Below(es, id, x, false) ensures x in es {
      var p :| DownPath(es, id, x, false, p);
    }
  }

  lemma {:induction false} TrashEachIsHarmless(t: Tables, owner: Id, ids: seq<Id>)
    requires Consistent(t)
    ensures Harmless(t, TrashEach(t, owner, ids))
  {
    if ids != [] {
      TrashEachIsHarmless(t, owner, ids[..|ids| - 1]);
      TrashIsHarmless(TrashEach(t, owner, ids[..|ids| - 1]), owner, ids[|ids| - 1]);
    }
  }

  lemma PurgeIsHarmless(t: Tables, owner: Id, root: Id)
    requires Consistent(t)
    ensures Harmless(t, PurgeTx(t, owner, root))
  {
    if root in t.entries && t.entries[root].owner == owner && t.entries[root].trashed {
      var gone := Under(t.entries, root);
      BelowIsThere(t.entries, root);
      PurgeKeepsChains(t.entries, root, gone);
      CascadeKeepsConsistent(t, Without(t.entries, gone));
      if LinksClean(t) {
        CascadeKeepsLinks(t, Without(t.entries, gone));
      }
    }
  }

  lemma UnlockIsHarmless(t: Tables, now: int, link: Id, token: Id)
    requires Consistent(t)
    ensures Harmless(t, UnlockTx(t, now, link, token))
  {
    if MayUnlock(t, now, link, token) {
      assert ShareOk(t.entries, t.shares[link]);
      UpdateKeepsConsistent(t, link, t.shares[link].(failures := 0, lockedUntil := None));
    }
  }

  lemma FailureIsHarmless(t: Tables, now: int, link: Id)
    requires Consistent(t)
    ensures Harmless(t, FailureTx(t, now, link))
  {
    if link in t.shares {
      assert ShareOk(t.entries, t.shares[link]);
      UpdateKeepsConsistent(t, link, AfterFailure(t.shares[link], now));
    }
  }

  lemma DownloadIsHarmless(t: Tables, now: int, link: Id)
    requires Consistent(t)
    ensures Harmless(t, DownloadTx(t, now, link))
  {
    if link in t.shares && Downloadable(t.shares[link], now) {
      assert ShareOk(t.entries, t.shares[link]);
      UpdateKeepsConsistent(t, link, t.shares[link].(downloads := t.shares[link].downloads + 1));
    }
  }

  // ----- the two writes that can leave a link behind

  lemma MoveAllKeepsNames(es: Entries, owner: Id, ids: seq<Id>, dest: Option<Id>)
    requires Forest(es) && UniqueNames(es) && MovableTogether(es, owner, ids, dest)
    ensures UniqueNames(MoveAll(es, Named(ids), dest))
  {
    var es' := MoveAll(es, Named(ids), dest);
    forall x, y | x in es' && y in es' ensures !Clash(es', x, y) {
      assert !Clash(es, x, y);
      assert x in ids && y in ids ==> !SameName(es, x, y);
      assert x in ids ==> !Taken(es, owner, dest, es[x].name, Some(x));
      assert y in ids ==> !Taken(es, owner, dest, es[y].name, Some(y));
    }
  }

  lemma TogetherIsApart(es: Entries, owner: Id, ids: seq<Id>, dest: Option<Id>)
    requires Forest(es) && MovableTogether(es, owner, ids, dest) && ids != []
    ensures MovesApart(es, owner, Named(ids), dest)
  {
    assert ids[0] in ids;
  }

  /** A batch of moves keeps the tables consistent; links stay clean exactly when the destination's whole chain is
      untrashed at the write, or no link moves along. */
  lemma MoveBatchIff(t: Tables, owner: Id, ids: seq<Id>, dest: Option<Id>)
    requires Consistent(t)
    ensures Consistent(MoveBatch(t, owner, ids, dest))
    ensures LinksClean(t) && ids != [] && MovableTogether(t.entries, owner, ids, dest) ==>
              (LinksClean(MoveBatch(t, owner, ids, dest)) <==> StillClean(t, Named(ids), dest))
  {
    if MovableTogether(t.entries, owner, ids, dest) && ids != [] {
      TogetherIsApart(t.entries, owner, ids, dest);
      MoveKeepsForest(t.entries, owner, Named(ids), dest);
      MoveAllKeepsNames(t.entries, owner, ids, dest);
      TreeKeepsConsistent(t, MoveAll(t.entries, Named(ids), dest));
      if LinksClean(t) {
        MoveCleanIff(t, owner, Named(ids), dest);
      }
    } else {
      assert ids == [] ==> MoveAll(t.entries, Named(ids), dest) == t.entries;
    }
  }

  ghost predicate StillClean(t: Tables, ids: set<Id>, dest: Option<Id>)
    requires Forest(t.entries)
  {
    (dest.Some? && dest.value in t.entries ==> Clean(t.entries, dest.value)) || !LinkedBelow(t, ids)
  }

  /** The same for the update of one parent. */
  lemma UpdateParentIff(t: Tables, owner: Id, id: Id, dest: Option<Id>)
    requires Consistent(t)
    ensures Consistent(UpdateParent(t, owner, id, dest))
    ensures LinksClean(t) && MayUpdateParent(t.entries, owner, id, dest) ==>
              (LinksClean(UpdateParent(t, owner, id, dest)) <==> StillClean(t, {id}, dest))
  {
    if MayUpdateParent(t.entries, owner, id, dest) {
      OneMove(t.entries, id, dest);
      MoveKeepsForest(t.entries, owner, {id}, dest);
      RowKeepsNames(t.entries, id, t.entries[id].(parent := dest));
      TreeKeepsConsistent(t, Reparent(t.entries, id, dest));
      if LinksClean(t) {
        MoveCleanIff(t, owner, {id}, dest);
      }
    }
  }

  /** A link inserted for an entry it fits keeps the tables consistent; links stay clean exactly when the entry's whole
      chain is untrashed at the write. */
  lemma InsertShareIff(t: Tables, id: Id, s: Share)
    requires Consistent(t) && (MayInsertShare(t, id, s) ==> ShareOk(t.entries, s))
    ensures Consistent(InsertShare(t, id, s))
    ensures LinksClean(t) && MayInsertShare(t, id, s) ==>
      (LinksClean(InsertShare(t, id, s)) <==> !LeftBehind(t.entries, s))
  {
    if MayInsertShare(t, id, s) {
      NewLinkIff(t, id, s);
    }
  }
}
