/** Three runs in which requests interleave badly: a link that a trash does not see, two moves that only the row trigger
  * keeps from closing a cycle, and a move that takes the protected folder away (src/shares.rs:325-408,
  * src/drive.rs:356-382, src/drive.rs:851-973, migrations/0001_initial.sql:36-84). */
module DriveRaces {
  import opened Common
  import opened DriveForest
  import opened Shares
  import opened DriveWrites
  import opened DriveStore
  import opened DriveRuns
  import opened DriveProtected

  const OWNER: Id := 7
  const DOCS := Entry(OWNER, None, Folder, Name("docs", "docs"), false, false, None)
  const PLANS := Entry(OWNER, None, Folder, Name("Plans", "plans"), false, false, None)

  lemma TopChain(es: Entries, id: Id)
    requires Forest(es) && id in es && es[id].parent.None?
    ensures ChainOf(es, id) == [id]
  {
    ChainOfParent(es, id);
  }

  // ----- a link left behind

  /** What the owner asks for: an open link to folder 1. */
  const ASK := ShareIt(OWNER, EntryOf(1, Folder), false, None, true, None, None)
  const LINK := NewShare(OWNER, EntryOf(1, Folder), false, None, true, None, None)

  lemma FolderMade() returns (ops: seq<Op>, s: State)
    ensures At(ops, |ops|) == s && s == State(Tables(map[1 := DOCS], map[], map[]), {1}, 0, map[])
  {
    ops, s := Begins([], Initial, 10, CreateFolder(OWNER, None, DOCS.name));
    ops, s := Writes(ops, s, 10, 1, true);
    assert s.t.entries == map[1 := DOCS];
    assert s.flights == map[];
  }

  /** Both checks of the link request have passed. */
  lemma LinkChecked() returns (ops: seq<Op>, s: State)
    ensures At(ops, |ops|) == s && s == State(Tables(map[1 := DOCS], map[], map[]), {1}, 0, map[11 := Flight(ASK, 2)])
  {
    ops, s := FolderMade();
    TopChain(s.t.entries, 1);
    ops, s := AllPass(ops, s, 11, ASK, 2);
  }

  /** Trashing the folder finds no link to revoke. */
  lemma TrashFindsNothing(s: State)
    requires Inv(s) && s.t == Tables(map[1 := DOCS], map[], map[])
    ensures TrashTx(s.t, OWNER, 1) == Tables(map[1 := DOCS.(trashed := true)], map[], map[])
  {
    var u := TrashTx(s.t, OWNER, 1);
    assert u.entries == map[1 := DOCS.(trashed := true)];
    assert u.shares == map[] && u.grants == map[];
  }

  lemma FolderTrashed() returns (ops: seq<Op>, s: State)
    ensures At(ops, |ops|) == s
    ensures s == State(Tables(map[1 := DOCS.(trashed := true)], map[], map[]), {1, 3}, 0, map[11 := Flight(ASK, 2)])
  {
    ops, s := LinkChecked();
    TopChain(s.t.entries, 1);
    TrashFindsNothing(s);
    ops, s := AllPass(ops, s, 12, TrashOne(OWNER, 1), 1);
    ops, s := Writes(ops, s, 12, 3, true);
    assert s.flights == map[11 := Flight(ASK, 2)];
  }

  /** Now the link is inserted: it is unrevoked and leads to a trashed folder. */
  lemma LinkLeftBehind() returns (ops: seq<Op>, s: State)
    ensures At(ops, |ops|) == s && !LinksClean(s.t)
    ensures s == State(Tables(map[1 := DOCS.(trashed := true)], map[2 := LINK], map[]), {1, 2, 3}, 0, map[])
  {
    ops, s := FolderTrashed();
    ops, s := Writes(ops, s, 11, 2, true);
    assert s.t.shares == map[2 := LINK];
    assert s.flights == map[];
    TopChain(s.t.entries, 1);
    assert LeftBehind(s.t.entries, s.t.shares[2]);
  }

  /** Nobody can open it while the folder is in the trash, but a restore brings to life a link that the trash should
    * have revoked. */
  lemma RestoreOpensIt() returns (ops: seq<Op>, s: State)
    ensures At(ops, |ops|) == s && s == State(Tables(map[1 := DOCS], map[2 := LINK], map[]), {1, 2, 3, 4}, 0, map[])
    ensures Drive.Fetchable(s.t, s.now, 2, false)
  {
    ops, s := LinkLeftBehind();
    ops, s := AllPass(ops, s, 13, Restore(OWNER, 1, None), 1);
    ops, s := Writes(ops, s, 13, 4, true);
    assert s.t.entries == map[1 := DOCS];
    assert s.flights == map[];
    TopChain(s.t.entries, 1);
  }

  // ----- two moves

  const INTO1 := MoveOne(OWNER, 2, Some(1))
  const BOTH: Entries := map[1 := DOCS, 2 := PLANS]

  lemma TwoFolders() returns (ops: seq<Op>, s: State)
    ensures At(ops, |ops|) == s && s == State(Tables(BOTH, map[], map[]), {1, 2}, 0, map[])
  {
    ops, s := FolderMade();
    ops, s := Begins(ops, s, 10, CreateFolder(OWNER, None, PLANS.name));
    ops, s := Writes(ops, s, 10, 2, true);
    assert s.t.entries == BOTH;
    assert s.flights == map[];
  }

  /** Folders 1 and 2, both at the top level and neither in the trash nor protected. */
  predicate TwoTops(es: Entries) {
    es.Keys == {1, 2} && forall x :: x in es ==> es[x] == Entry(OWNER, None, Folder, es[x].name, false, false, None)
  }

  lemma MovePassesChecks(s: State, id: Id, dest: Id)
    requires Inv(s) && TwoTops(s.t.entries) && {id, dest} == {1, 2}
    ensures |Checks(MoveOne(OWNER, id, Some(dest)))| == 4
    ensures forall k :: 0 <= k < 4 ==> Holds(s, Checks(MoveOne(OWNER, id, Some(dest)))[k], true)
  {
    TopChain(s.t.entries, 1);
    TopChain(s.t.entries, 2);
    NotBelow(s.t.entries, id, dest);
    assert Checks(MoveOne(OWNER, id, Some(dest))) ==
           [IsActive(OWNER, id, false), IsMutable(OWNER, id), IsActive(OWNER, dest, true), IsApart(OWNER, id, dest)];
  }

  /** All checks of a request pass one after the other. */
  lemma {:induction false} AllPass(ops: seq<Op>, s: State, f: Id, request: Request, n: nat)
      returns (ops': seq<Op>, s': State)
    requires At(ops, |ops|) == s && f !in s.flights && WellFormed(request, s.now) && n <= |Checks(request)|
    requires forall k :: 0 <= k < n ==> Holds(s, Checks(request)[k], true)
    ensures At(ops', |ops'|) == s' && s' == s.(flights := s.flights[f := Flight(request, n)])
  {
    if n == 0 {
      ops', s' := Begins(ops, s, f, request);
    } else {
      ops', s' := AllPass(ops, s, f, request, n - 1);
      SameTables(s, s', Checks(request)[n - 1]);
      ops', s' := ReadsOn(ops', s', f, true);
    }
  }

  lemma SameTables(s: State, s': State, check: Check)
    requires Inv(s) && s' == s.(flights := s'.flights) && Holds(s, check, true)
    ensures Holds(s', check, true)
  {
  }

  /** All four checks of a move of one top-level folder into another pass. */
  lemma MoveChecked(ops: seq<Op>, s: State, f: Id, id: Id, dest: Id) returns (ops': seq<Op>, s': State)
    requires At(ops, |ops|) == s && TwoTops(s.t.entries) && f !in s.flights && {id, dest} == {1, 2}
    ensures At(ops', |ops'|) == s' && s' == s.(flights := s.flights[f := Flight(MoveOne(OWNER, id, Some(dest)), 4)])
  {
    MovePassesChecks(s, id, dest);
    ops', s' := AllPass(ops, s, f, MoveOne(OWNER, id, Some(dest)), 4);
  }

  lemma NotBelow(es: Entries, top: Id, x: Id)
    requires Forest(es) && x in es && ChainOf(es, x) == [x] && top != x
    ensures !Below(es, top, x, true)
  {
    if Below(es, top, x, true) {
      var p :| DownPath(es, top, x, true, p);
      ClimbIsPrefix(es, p);
    }
  }

  lemma TwoFoldersInACircle(es: Entries)
    requires 1 in es && 2 in es && es[1].parent == Some(2) && es[2].parent == Some(1)
    ensures !Forest(es)
  {
    if Forest(es) {
      ChainOfParent(es, 1);
      ChainOfParent(es, 2);
    }
  }

  /** The trigger sees folder 2 above its new parent. */
  lemma TriggerRefuses(es: Entries)
    requires Forest(es) && es == BOTH[1 := DOCS.(parent := Some(2))]
    ensures !GuardLets(es, OWNER, 2, Some(1)) && !Forest(Reparent(es, 2, Some(1)))
    ensures !Taken(es, OWNER, Some(1), es[2].name, Some(2))
  {
    TwoFoldersInACircle(Reparent(es, 2, Some(1)));
    ChainOfParent(es, 1);
    assert ChainOf(es, 2)[0] == 2;
    assert ChainOf(es, 1)[1] == 2;
  }

  lemma FirstMoveWorks(s: State)
    requires Inv(s) && s.t == Tables(BOTH, map[], map[])
    ensures UpdateParent(s.t, OWNER, 1, Some(2)) == s.t.(entries := BOTH[1 := DOCS.(parent := Some(2))])
  {
    TopChain(s.t.entries, 2);
  }

  /** Two moves whose checks have all passed: the first is written. The application's checks let the second pass too,
      and its update alone would close a cycle; the row trigger refuses it. */
  lemma TriggerKeepsForest() returns (ops: seq<Op>, s: State)
    ensures At(ops, |ops|) == s && Ready(s, 21) && s.flights[21].request == INTO1
    ensures s.t.entries == BOTH[1 := DOCS.(parent := Some(2))]
    ensures !Taken(s.t.entries, OWNER, Some(1), PLANS.name, Some(2)) && !Forest(Reparent(s.t.entries, 2, Some(1)))
    ensures forall drawn, answer :: Effect(s, INTO1, drawn, answer) == s.t
  {
    ops, s := BothChecked();
    FirstMoveWorks(s);
    ops, s := Writes(ops, s, 20, 5, true);
    SecondIsRefused(s);
  }

  lemma BothChecked() returns (ops: seq<Op>, s: State)
    ensures At(ops, |ops|) == s && s.t == Tables(BOTH, map[], map[]) && s.used == {1, 2}
    ensures s.flights == map[20 := Flight(MoveOne(OWNER, 1, Some(2)), 4), 21 := Flight(INTO1, 4)]
  {
    ops, s := TwoFolders();
    ops, s := MoveChecked(ops, s, 20, 1, 2);
    ops, s := MoveChecked(ops, s, 21, 2, 1);
  }

  lemma SecondIsRefused(s: State)
    requires Inv(s) && s.t.entries == BOTH[1 := DOCS.(parent := Some(2))]
    ensures !Taken(s.t.entries, OWNER, Some(1), PLANS.name, Some(2)) && !Forest(Reparent(s.t.entries, 2, Some(1)))
    ensures forall drawn, answer :: Effect(s, INTO1, drawn, answer) == s.t
  {
    TriggerRefuses(s.t.entries);
  }

  // ----- the protected folder

  const ALBUM := Entry(OWNER, None, Folder, PHOTOS_NAMES[0], false, false, None)
  const TOPS: Entries := map[1 := DOCS, 2 := ALBUM]
  const ADOPTED: Entries := map[1 := DOCS, 2 := ALBUM.(system := true)]
  const MOVED: Entries := map[1 := DOCS, 2 := ALBUM.(system := true, parent := Some(1))]
  const BINNED: Entries := map[1 := DOCS.(trashed := true), 2 := MOVED[2]]

  lemma TopsMade() returns (ops: seq<Op>, s: State)
    ensures At(ops, |ops|) == s && s == State(Tables(TOPS, map[], map[]), {1, 2}, 0, map[])
  {
    ops, s := FolderMade();
    ops, s := Begins(ops, s, 10, CreateFolder(OWNER, None, ALBUM.name));
    ops, s := Writes(ops, s, 10, 2, true);
    assert s.t.entries == TOPS;
    assert s.flights == map[];
  }

  lemma FirstIsAdopted()
    ensures PhotosTx(Tables(TOPS, map[], map[]), OWNER, 3) == Tables(ADOPTED, map[], map[])
  {
    var t := Tables(TOPS, map[], map[]);
    assert Adoptable(TOPS[2], OWNER, PHOTOS_NAMES[0].folded) && !Adoptable(TOPS[1], OWNER, PHOTOS_NAMES[0].folded);
    assert CanAdopt(TOPS, OWNER, 0);
    assert AdoptFrom(t, OWNER, 3, 0) == t.(entries := TOPS[2 := TOPS[2].(system := true)]);
    assert TOPS[2 := TOPS[2].(system := true)] == ADOPTED;
  }

  /** The checks of a move pass, then the folder becomes the protected one. */
  lemma FolderAdopted() returns (ops: seq<Op>, s: State)
    ensures At(ops, |ops|) == s
    ensures s == State(Tables(ADOPTED, map[], map[]), {1, 2, 3}, 0, map[20 := Flight(MoveOne(OWNER, 2, Some(1)), 4)])
  {
    ops, s := TopsMade();
    ops, s := MoveChecked(ops, s, 20, 2, 1);
    FirstIsAdopted();
    ops, s := AllPass(ops, s, 21, EnsurePhotos(OWNER), 1);
    ops, s := Writes(ops, s, 21, 3, true);
    assert s.flights == map[20 := Flight(MoveOne(OWNER, 2, Some(1)), 4)];
  }

  lemma MoveStillLets(es: Entries)
    requires Forest(es) && es == ADOPTED
    ensures MayUpdateParent(es, OWNER, 2, Some(1)) && Reparent(es, 2, Some(1)) == MOVED
  {
    TopChain(es, 1);
  }

  lemma MoveDisplaces(s: State)
    requires Inv(s) && s.t.entries == ADOPTED && s.used == {1, 2, 3}
    requires s.flights == map[20 := Flight(MoveOne(OWNER, 2, Some(1)), 4)]
    ensures AtTop(s.t.entries, 2) && Displaces(s, Write(20, 4, true), 2)
    ensures Effect(s, MoveOne(OWNER, 2, Some(1)), 4, true) == s.t.(entries := MOVED)
  {
    MoveStillLets(s.t.entries);
  }

  /** The move is written all the same: the protected folder is no longer at the top level. */
  lemma FolderDisplaced() returns (ops: seq<Op>, s: State)
    ensures At(ops, |ops|) == s && s == State(Tables(MOVED, map[], map[]), {1, 2, 3, 4}, 0, map[])
  {
    ops, s := FolderAdopted();
    MoveDisplaces(s);
    ops, s := Writes(ops, s, 20, 4, true);
    assert s.flights == map[];
  }

  lemma DisplacementHappens() returns (ops: seq<Op>)
    ensures |ops| > 0 && TopAt(ops, |ops| - 1, 2) && DisplacedAt(ops, |ops| - 1, 2)
  {
    var s;
    ops, s := FolderAdopted();
    MoveDisplaces(s);
    DisplacedNext(ops, Write(20, 4, true), 2);
    ops := ops + [Write(20, 4, true)];
  }

  lemma DisplacedNext(ops: seq<Op>, op: Op, x: Id)
    requires AtTop(At(ops, |ops|).t.entries, x) && Displaces(At(ops, |ops|), op, x)
    ensures TopAt(ops + [op], |ops|, x) && DisplacedAt(ops + [op], |ops|, x)
  {
    AtPrefix(ops, op, |ops|);
  }

  lemma BinnedHidesIt(es: Entries)
    requires Forest(es) && es == BINNED
    ensures HasPhotos(es, OWNER) && !Active(es, OWNER, 2, true)
  {
    assert IsPhotos(es[2], OWNER);
    TopChain(es, 1);
    ChainOfParent(es, 2);
    assert 1 in ChainOf(es, 2);
  }

  lemma TrashAbove(s: State)
    requires Inv(s) && s.t == Tables(MOVED, map[], map[])
    ensures TrashTx(s.t, OWNER, 1) == Tables(BINNED, map[], map[])
  {
    var u := TrashTx(s.t, OWNER, 1);
    assert u.entries == BINNED;
    assert u.shares == map[] && u.grants == map[];
  }

  /** Trashing the folder above hides it: it is still the owner's protected folder, but not active. */
  lemma ProtectedHidden() returns (ops: seq<Op>, s: State)
    ensures At(ops, |ops|) == s && s == State(Tables(BINNED, map[], map[]), {1, 2, 3, 4, 5}, 0, map[])
    ensures HasPhotos(s.t.entries, OWNER) && !Active(s.t.entries, OWNER, 2, true)
  {
    ops, s := FolderDisplaced();
    TopChain(s.t.entries, 1);
    TrashAbove(s);
    ops, s := AllPass(ops, s, 22, TrashOne(OWNER, 1), 1);
    ops, s := Writes(ops, s, 22, 5, true);
    assert s.flights == map[];
    BinnedHidesIt(s.t.entries);
  }

  lemma PurgeAbove(s: State)
    requires Inv(s) && s.t == Tables(BINNED, map[], map[])
    ensures PurgeTx(s.t, OWNER, 1) == Tables(map[], map[], map[])
  {
    BelowSelf(BINNED, 1, false);
    BelowChild(BINNED, 1, 1, 2, false);
    var u := PurgeTx(s.t, OWNER, 1);
    assert u.entries == map[];
    assert u.shares == map[] && u.grants == map[];
  }

  /** Emptying the trash deletes it. */
  lemma ProtectedLost() returns (ops: seq<Op>, s: State)
    ensures At(ops, |ops|) == s && s == State(Tables(map[], map[], map[]), {1, 2, 3, 4, 5, 6}, 0, map[])
  {
    ops, s := ProtectedHidden();
    PurgeAbove(s);
    ops, s := Begins(ops, s, 23, Purge(OWNER, 1));
    ops, s := Writes(ops, s, 23, 6, true);
    assert s.flights == map[];
  }
}
