/** The protected photos folder in the interleaved runs: how many there are, and what can still move and remove one
    (src/drive.rs:325-382, src/drive.rs:851-973, migrations/0013_system_photos_folder.sql). */
module DriveProtected {
  import opened Common
  import opened DriveForest
  import opened DriveCopy
  import opened TrashPurge
  import opened Shares
  import opened DriveWrites
  import opened DriveStore
  import opened DriveRuns

  predicate Sys(es: Entries, x: Id) {
    x in es && es[x].system
  }

  /** A protected entry is an untrashed folder and the only one of its owner. */
  ghost predicate SysOk(es: Entries, x: Id)
    requires x in es
  {
    && es[x].kind.Folder? && !es[x].trashed
    && forall y {:trigger Sys(es, y)} :: Sys(es, y) && es[y].owner == es[x].owner ==> y == x
  }

  ghost predicate OneProtected(es: Entries) {
    forall x {:trigger Sys(es, x)} :: Sys(es, x) ==> SysOk(es, x)
  }

  // ----- at most one for each owner

  /** Every protected row was one before, with its owner, kind and trash mark. */
  ghost predicate NoNewOnes(es: Entries, es': Entries) {
    forall x {:trigger Sys(es', x)} :: Sys(es', x) ==>
      Sys(es, x) && es'[x].owner == es[x].owner && es'[x].kind == es[x].kind && es'[x].trashed == es[x].trashed
  }

  lemma NoNewKeepsOne(es: Entries, es': Entries)
    requires OneProtected(es) && NoNewOnes(es, es')
    ensures OneProtected(es')
  {
    forall x | Sys(es', x) ensures SysOk(es', x) {
      assert Sys(es, x) && SysOk(es, x);
    }
  }

  lemma TrashOnProtected(t: Tables, owner: Id, id: Id)
    ensures NoNewOnes(t.entries, TrashTx(t, owner, id).entries)
    ensures forall x {:trigger Sys(t.entries, x)} :: Sys(t.entries, x) ==>
      x in TrashTx(t, owner, id).entries && TrashTx(t, owner, id).entries[x] == t.entries[x]
  {
  }

  lemma {:induction false} TrashEachOnProtected(t: Tables, owner: Id, ids: seq<Id>)
    ensures NoNewOnes(t.entries, TrashEach(t, owner, ids).entries)
    ensures forall x {:trigger Sys(t.entries, x)} :: Sys(t.entries, x) ==>
      x in TrashEach(t, owner, ids).entries && TrashEach(t, owner, ids).entries[x] == t.entries[x]
  {
    if ids != [] {
      var u := TrashEach(t, owner, ids[..|ids| - 1]);
      TrashEachOnProtected(t, owner, ids[..|ids| - 1]);
      TrashOnProtected(u, owner, ids[|ids| - 1]);
      forall x | Sys(t.entries, x) ensures Sys(u.entries, x) {
      }
    }
  }

  /** What the photos transaction changes, if anything: one top-level folder of the owner's becomes protected, or is
      added. */
  ghost predicate MadeProtected(es: Entries, es': Entries, owner: Id, id: Id, x: Id) {
    && x in es' && es' == es[x := es'[x]] && IsPhotos(es'[x], owner) && es'[x].parent.None?
    && (x in es ==> es'[x] == es[x].(system := true)) && (x !in es ==> x == id)
  }

  lemma {:induction false} NamedProtected(t: Tables, owner: Id, id: Id, k: nat)
    requires k <= |PHOTOS_NAMES|
    ensures NameFrom(t, owner, id, k) == t
      || MadeProtected(t.entries, NameFrom(t, owner, id, k).entries, owner, id, id)
    decreases |PHOTOS_NAMES| - k
  {
    if k < |PHOTOS_NAMES| {
      NamedProtected(t, owner, id, k + 1);
    }
  }

  lemma {:induction false} AdoptedProtected(t: Tables, owner: Id, id: Id, k: nat) returns (x: Id)
    requires k <= |PHOTOS_NAMES|
    ensures AdoptFrom(t, owner, id, k) == t
      || MadeProtected(t.entries, AdoptFrom(t, owner, id, k).entries, owner, id, x)
    decreases |PHOTOS_NAMES| - k
  {
    x := id;
    if k == |PHOTOS_NAMES| {
      NamedProtected(t, owner, id, 0);
    } else if CanAdopt(t.entries, owner, k) {
      x :| x in t.entries && Adoptable(t.entries[x], owner, PHOTOS_NAMES[k].folded)
           && AdoptFrom(t, owner, id, k) == t.(entries := t.entries[x := t.entries[x].(system := true)]);
    } else {
      x := AdoptedProtected(t, owner, id, k + 1);
    }
  }

  lemma PhotosKeepsOne(t: Tables, owner: Id, id: Id)
    requires OneProtected(t.entries)
    ensures OneProtected(PhotosTx(t, owner, id).entries)
    ensures forall x {:trigger Sys(t.entries, x)} :: Sys(t.entries, x) ==>
      x in PhotosTx(t, owner, id).entries && PhotosTx(t, owner, id).entries[x] == t.entries[x]
  {
    var es, es' := t.entries, PhotosTx(t, owner, id).entries;
    if es' != es {
      var x := AdoptedProtected(t, owner, id, 0);
      forall z | Sys(es, z) ensures es[z].owner != owner {
        assert SysOk(es, z) && !IsPhotos(es[z], owner);
      }
      forall y, z | Sys(es', y) && Sys(es', z) && es'[y].owner == es'[z].owner ensures y == z {
        assert (y != x ==> Sys(es, y)) && (z != x ==> Sys(es, z));
        assert y != x ==> SysOk(es, y);
      }
      forall y | Sys(es', y) ensures SysOk(es', y) {
        assert y != x ==> Sys(es, y) && SysOk(es, y);
      }
    }
  }

  lemma EffectKeepsOne(s: State, request: Request, drawn: Id, answer: bool)
    requires Inv(s) && OneProtected(s.t.entries) && drawn !in s.used
    ensures OneProtected(Effect(s, request, drawn, answer).entries)
  {
    var es, es' := s.t.entries, Effect(s, request, drawn, answer).entries;
    match request
    case EnsurePhotos(o) => PhotosKeepsOne(s.t, o, drawn);
    case TrashOne(o, i) => TrashOnProtected(s.t, o, i); NoNewKeepsOne(es, es');
    case TrashMany(o, ids) => TrashEachOnProtected(s.t, o, ids); NoNewKeepsOne(es, es');
    case _ => OtherEffects(s, request, drawn, answer); NoNewKeepsOne(es, es');
  }

  lemma OtherEffects(s: State, request: Request, drawn: Id, answer: bool)
    requires Inv(s) && OneProtected(s.t.entries)
    requires !request.EnsurePhotos? && !request.TrashOne? && !request.TrashMany?
    ensures NoNewOnes(s.t.entries, Effect(s, request, drawn, answer).entries)
  {
    if request.Restore? && Sys(s.t.entries, request.id) {
      assert SysOk(s.t.entries, request.id);
    }
  }

  /** Copies are never protected. */
  lemma {:induction false} CopiesOnProtected(stages: seq<Entries>, images: seq<map<Id, Id>>, owner: Id, ids: seq<Id>,
      dest: Option<Id>, namer: Namer, k: nat)
    requires CopySteps(stages, images, owner, ids, dest, namer) && k <= |images|
    ensures NoNewOnes(stages[0], stages[k]) && AllKept(stages[0], stages[k])
  {
    if k > 0 {
      CopiesOnProtected(stages, images, owner, ids, dest, namer, k - 1);
      assert CopyStep(stages, images, owner, ids, dest, namer, k - 1);
      OneCopyOnProtected(stages[k - 1], stages[k], ids[k - 1], dest, RootName(stages[k - 1], ids[k - 1], dest, namer),
        images[k - 1]);
      AllKeptOn(stages[0], stages[k - 1], stages[k]);
    }
  }

  lemma OneCopyOnProtected(es: Entries, cur: Entries, source: Id, dest: Option<Id>, rootName: Name, image: map<Id, Id>)
    requires IsCopy(es, cur, source, dest, rootName, image)
    ensures NoNewOnes(es, cur) && AllKept(es, cur)
  {
    forall y | y in cur && y !in es ensures !cur[y].system {
      var x :| x in image && image[x] == y;
      assert CopiedRow(es, cur, source, dest, rootName, image, x);
    }
  }

  lemma StepKeepsOne(s: State, op: Op)
    requires Inv(s) && OneProtected(s.t.entries)
    ensures OneProtected(Step(s, op).t.entries)
  {
    if op.Write? && Ready(s, op.flight) && op.drawn !in s.used {
      EffectKeepsOne(s, s.flights[op.flight].request, op.drawn, op.answer);
    } else if op.WriteCopies? && Ready(s, op.flight) && Copies(s, s.flights[op.flight].request, op.stages, op.images) {
      var r := s.flights[op.flight].request;
      CopiesOnProtected(op.stages, op.images, r.owner, r.ids, r.dest, r.namer, |op.images|);
      NoNewKeepsOne(s.t.entries, op.stages[|op.images|]);
    }
  }

  /** Over every run an owner has at most one protected entry; it is a folder and not in the trash. */
  lemma {:induction false} RunKeepsOne(ops: seq<Op>, k: nat)
    requires k <= |ops|
    ensures OneProtected(At(ops, k).t.entries)
  {
    if k > 0 {
      RunKeepsOne(ops, k - 1);
      StepKeepsOne(At(ops, k - 1), ops[k - 1]);
    }
  }

  // ----- where it is

  ghost predicate AtTop(es: Entries, x: Id) {
    Sys(es, x) && es[x].parent.None?
  }

  lemma TopIsActive(es: Entries, x: Id)
    requires Forest(es) && OneProtected(es) && AtTop(es, x)
    ensures Active(es, es[x].owner, x, true)
  {
    ChainOfParent(es, x);
    assert SysOk(es, x);
  }

  /** The write of a move that was checked while the folder was not yet protected. */
  ghost predicate Displaces(s: State, op: Op, x: Id)
    requires Forest(s.t.entries)
  {
    && op.Write? && Ready(s, op.flight) && op.drawn !in s.used
    && var r := s.flights[op.flight].request;
       r.MoveOne? && r.id == x && r.dest.Some? && MayUpdateParent(s.t.entries, r.owner, x, r.dest)
  }

  /** Purging a trash root spares what is not in the trash at the top level. */
  lemma PurgeSparesTop(t: Tables, owner: Id, root: Id, x: Id)
    requires Forest(t.entries) && x in t.entries && t.entries[x].parent.None? && !t.entries[x].trashed
    ensures x in PurgeTx(t, owner, root).entries && PurgeTx(t, owner, root).entries[x] == t.entries[x]
  {
    ChainOfParent(t.entries, x);
    if root in t.entries {
      BelowOnChain(t.entries, root, x);
    }
  }

  lemma EffectOnTop(s: State, r: Request, drawn: Id, answer: bool, x: Id)
    requires Inv(s) && OneProtected(s.t.entries) && AtTop(s.t.entries, x) && drawn !in s.used
    ensures var es' := Effect(s, r, drawn, answer).entries;
            && Sys(es', x)
            && (AtTop(es', x) <==>
                !(r.MoveOne? && r.id == x && r.dest.Some? && MayUpdateParent(s.t.entries, r.owner, x, r.dest)))
  {
    assert SysOk(s.t.entries, x);
    match r
    case EnsurePhotos(o) => PhotosKeepsOne(s.t, o, drawn);
    case TrashOne(o, i) => TrashOnProtected(s.t, o, i);
    case TrashMany(o, ids) => TrashEachOnProtected(s.t, o, ids);
    case Purge(o, root) => PurgeSparesTop(s.t, o, root, x);
    case _ =>
  }

  /** A protected top-level folder stays protected in every step, and at the top level unless such a move is written. */
  lemma StepOnTop(s: State, op: Op, x: Id)
    requires Inv(s) && OneProtected(s.t.entries) && AtTop(s.t.entries, x)
    ensures Sys(Step(s, op).t.entries, x)
    ensures AtTop(Step(s, op).t.entries, x) <==> !Displaces(s, op, x)
  {
    if op.Write? && Ready(s, op.flight) && op.drawn !in s.used {
      EffectOnTop(s, s.flights[op.flight].request, op.drawn, op.answer, x);
    } else if op.WriteCopies? && Ready(s, op.flight) && Copies(s, s.flights[op.flight].request, op.stages, op.images) {
      var r := s.flights[op.flight].request;
      CopiesOnProtected(op.stages, op.images, r.owner, r.ids, r.dest, r.namer, |op.images|);
    }
  }

  ghost predicate TopAt(ops: seq<Op>, k: nat, x: Id)
    requires k <= |ops|
  {
    AtTop(At(ops, k).t.entries, x)
  }

  ghost predicate DisplacedAt(ops: seq<Op>, k: nat, x: Id)
    requires k < |ops|
  {
    Displaces(At(ops, k), ops[k], x)
  }

  lemma NextTop(ops: seq<Op>, k: nat, x: Id)
    requires k < |ops| && TopAt(ops, k, x)
    ensures TopAt(ops, k + 1, x) <==> !DisplacedAt(ops, k, x)
  {
    RunKeepsOne(ops, k);
    StepOnTop(At(ops, k), ops[k], x);
  }

  /** Over every run: the protected folder stays, untrashed at the top level, until a move is written that was checked
      before it was protected; without such a write it is there at every later moment. */
  lemma TopUntil(ops: seq<Op>, i: nat, k: nat, x: Id) returns (j: Option<nat>)
    requires i <= k <= |ops| && TopAt(ops, i, x)
    ensures j.None? ==> forall m {:trigger TopAt(ops, m, x)} :: i <= m <= k ==> TopAt(ops, m, x)
    ensures j.Some? ==> i <= j.value < k && DisplacedAt(ops, j.value, x) && !TopAt(ops, j.value + 1, x)
  {
    var p := (m: nat) => m <= |ops| && TopAt(ops, m, x);
    var q := (m: nat) => m < |ops| && DisplacedAt(ops, m, x);
    forall m: nat | i <= m < k && p(m) ensures p(m + 1) <==> !q(m) {
      NextTop(ops, m, x);
    }
    j := UntilFirst(p, q, i, k);
    if j.Some? {
      assert p(j.value) && q(j.value);
      NextTop(ops, j.value, x);
    } else {
      assert forall m: nat {:trigger TopAt(ops, m, x)} :: i <= m <= k ==> p(m);
    }
  }
}
