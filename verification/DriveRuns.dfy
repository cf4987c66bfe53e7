/** Requests against the drive as they really interleave: every check is a statement of its own, the write comes later,
    and any other request may commit in between (src/drive.rs, src/shares.rs). A request remembers only that its checks
    passed. The time of a run, the identifiers drawn and the answers of tables outside the model are given with its
    operations. */
module DriveRuns {
  import opened Common
  import opened DriveForest
  import opened DriveCopy
  import opened Shares
  import opened DriveWrites
  import opened DriveStore

  datatype Request =
    | CreateFolder(owner: Id, parent: Option<Id>, name: Name)
    | AddFile(owner: Id, parent: Option<Id>, name: Name, content: Id, twins: set<Id>)
    | EnsurePhotos(owner: Id)
    | Rename(owner: Id, id: Id, name: Name)
    | MoveOne(owner: Id, id: Id, dest: Option<Id>)
    | MoveMany(owner: Id, ids: seq<Id>, dest: Option<Id>)
    | CopyMany(owner: Id, ids: seq<Id>, dest: Option<Id>, namer: Namer)
    | TrashOne(owner: Id, id: Id)
    | TrashMany(owner: Id, ids: seq<Id>)
    | Restore(owner: Id, id: Id, parent: Option<Id>)
    | Purge(owner: Id, root: Id)
    | ShareIt(owner: Id, resource: Resource, password: bool, expires: Option<int>, allowDownload: bool,
      maxDownloads: Option<nat>, key: Option<Id>)
    | Unlock(link: Id, correct: bool)
    | Download(link: Id)
    | Revoke(owner: Id, link: Id)
    | RevokeKey(owner: Id, apiKey: Id)

  /** One reading statement of a request. */
  datatype Check =
    | IsActive(owner: Id, id: Id, folder: bool)
    | IsMutable(owner: Id, id: Id)
    | IsApart(owner: Id, id: Id, dest: Id)
    | LacksPhotos(owner: Id)
    | HasKind(owner: Id, id: Id, kind: Kind)
    | IsTrashed(owner: Id, id: Id, parent: Option<Id>)
    | LinkLive(link: Id)
    | LinkActive(link: Id)
    | AlbumOwned

  datatype Flight = Flight(request: Request, passed: nat)

  /** `used` is every identifier ever drawn; `flights` are the requests under way. */
  datatype State = State(t: Tables, used: set<Id>, now: int, flights: map<Id, Flight>)

  const Initial := State(Tables(map[], map[], map[]), {}, 0, map[])

  datatype Op =
    | Tick(seconds: nat)
    | Begin(flight: Id, request: Request)
    | Read(flight: Id, answer: bool)
    | Write(flight: Id, drawn: Id, answer: bool)
    | WriteCopies(flight: Id, stages: seq<Entries>, images: seq<map<Id, Id>>)
    | GiveUp(flight: Id)

  function Parent(owner: Id, parent: Option<Id>): seq<Check> {
    if parent.Some? then [IsActive(owner, parent.value, true)] else []
  }

  /** The statements a request reads before it writes, in order. */
  function Checks(request: Request): seq<Check> {
    match request
    case CreateFolder(o, p, _) => Parent(o, p)
    case AddFile(o, p, _, _, _) => Parent(o, p)
    case EnsurePhotos(o) => [LacksPhotos(o)]
    case Rename(o, i, _) => [IsActive(o, i, false), IsMutable(o, i)]
    case MoveOne(o, i, d) =>
      [IsActive(o, i, false), IsMutable(o, i)] + Parent(o, d) + (if d.Some? then [IsApart(o, i, d.value)] else [])
    case MoveMany(o, _, d) => Parent(o, d)
    case CopyMany(o, _, d, _) => Parent(o, d)
    case TrashOne(o, i) => [IsActive(o, i, false)]
    case TrashMany(_, _) => []
    case Restore(o, i, p) => [IsTrashed(o, i, p)] + Parent(o, p)
    case Purge(_, _) => []
    case ShareIt(o, r, _, _, _, _, _) =>
      if r.AlbumOf? then [AlbumOwned] else [IsActive(o, r.id, r.kind.Folder?), HasKind(o, r.id, r.kind)]
    case Unlock(l, _) => [LinkLive(l), LinkActive(l)]
    case Download(l) => [LinkLive(l), LinkActive(l)]
    case Revoke(_, _) => []
    case RevokeKey(_, _) => []
  }

  /** What a request must look like to be taken at all. */
  predicate WellFormed(request: Request, now: int) {
    match request
    case MoveMany(_, ids, d) => 0 < |ids| <= MAX_BATCH_ENTRIES && |Named(ids)| == |ids| && (d.Some? ==> d.value !in ids)
    case CopyMany(_, ids, d, _) =>
      0 < |ids| <= MAX_BATCH_ENTRIES && |Named(ids)| == |ids| && (d.Some? ==> d.value !in ids)
    case TrashMany(_, ids) => 0 < |ids| <= MAX_BATCH_ENTRIES && |Named(ids)| == |ids|
    case ShareIt(_, _, _, e, _, m, _) => (e.Some? ==> e.value > now) && m != Some(0)
    case _ => true
  }

  ghost predicate Holds(s: State, check: Check, answer: bool)
    requires Forest(s.t.entries)
  {
    var es := s.t.entries;
    match check
    case IsActive(o, i, f) => Active(es, o, i, f)
    case IsMutable(o, i) => Mutable(es, o, i)
    case IsApart(o, i, d) => d != i && !(i in es && es[i].owner == o && es[i].kind.Folder? && Below(es, i, d, true))
    case LacksPhotos(o) => !HasPhotos(es, o)
    case HasKind(o, i, k) => i in es && es[i].owner == o && es[i].kind == k
    case IsTrashed(o, i, p) => i in es && es[i].owner == o && es[i].trashed && es[i].parent == p
    case LinkLive(l) => l in s.t.shares && Live(s.t.shares[l], s.now)
    case LinkActive(l) => l in s.t.shares && LinkReaches(es, s.t.shares[l], answer)
    case AlbumOwned => answer
  }

  /** The second half of `fetch_active_share`. */
  ghost predicate LinkReaches(es: Entries, share: Share, albumExists: bool)
    requires Forest(es)
  {
    match share.resource
    case AlbumOf(_) => albumExists
    case EntryOf(i, k) => Active(es, share.owner, i, k.Folder?) && es[i].kind == k
  }

  /** The new tables after the request's write; `drawn` names what it creates, `keyValid` is the API key's state. */
  ghost function Effect(s: State, request: Request, drawn: Id, keyValid: bool): Tables
    requires Forest(s.t.entries)
  {
    match request
    case CreateFolder(o, p, n) => InsertEntry(s.t, drawn, Entry(o, p, Folder, n, false, false, None))
    case AddFile(o, p, n, c, twins) => LinkFile(s.t, o, p, n, drawn, c, twins)
    case EnsurePhotos(o) => PhotosTx(s.t, o, drawn)
    case Rename(o, i, n) => UpdateName(s.t, o, i, n)
    case MoveOne(o, i, d) => UpdateParent(s.t, o, i, d)
    case MoveMany(o, ids, d) => MoveBatch(s.t, o, ids, d)
    case CopyMany(_, _, _, _) => s.t
    case TrashOne(o, i) => TrashTx(s.t, o, i)
    case TrashMany(o, ids) => TrashBatch(s.t, o, ids)
    case Restore(o, i, _) => Untrash(s.t, o, i)
    case Purge(o, r) => PurgeTx(s.t, o, r)
    case ShareIt(o, r, p, e, a, m, k) =>
      if k.Some? && !keyValid then s.t else InsertShare(s.t, drawn, NewShare(o, r, p, e, a, m, k))
    case Unlock(l, correct) => if correct then UnlockTx(s.t, s.now, l, drawn) else FailureTx(s.t, s.now, l)
    case Download(l) => DownloadTx(s.t, s.now, l)
    case Revoke(o, l) => if l in s.t.shares && s.t.shares[l].owner == o then RevokeWhere(s.t, {l}) else s.t
    case RevokeKey(o, k) =>
      RevokeWhere(s.t, set l | l in s.t.shares && s.t.shares[l].key == Some(k) && s.t.shares[l].owner == o)
  }

  predicate Ready(s: State, flight: Id) {
    flight in s.flights && s.flights[flight].passed == |Checks(s.flights[flight].request)|
  }

  /** A complete batch of copies, on the entries there are now and with identifiers never drawn before. */
  ghost predicate Copies(s: State, request: Request, stages: seq<Entries>, images: seq<map<Id, Id>>) {
    && request.CopyMany? && CopySteps(stages, images, request.owner, request.ids, request.dest, request.namer)
    && |images| == |request.ids| && stages[0] == s.t.entries
    && (stages[|images|].Keys - s.t.entries.Keys) !! s.used
  }

  ghost function Step(s: State, op: Op): State
    requires Forest(s.t.entries)
  {
    match op
    case Tick(d) => s.(now := s.now + d)
    case Begin(f, request) =>
      if f !in s.flights && WellFormed(request, s.now) then s.(flights := s.flights[f := Flight(request, 0)]) else s
    case Read(f, answer) =>
      if f in s.flights && s.flights[f].passed < |Checks(s.flights[f].request)| then
        var flight := s.flights[f];
        if Holds(s, Checks(flight.request)[flight.passed], answer)
          then s.(flights := s.flights[f := flight.(passed := flight.passed + 1)])
        else s.(flights := s.flights - {f})
      else s
    case Write(f, drawn, answer) =>
      if Ready(s, f) && drawn !in s.used
      then s.(t := Effect(s, s.flights[f].request, drawn, answer), used := s.used + {drawn}, flights := s.flights - {f})
      else s
    case WriteCopies(f, stages, images) =>
      if Ready(s, f) && Copies(s, s.flights[f].request, stages, images)
      then s.(t := s.t.(entries := stages[|images|]), used := s.used + stages[|images|].Keys,
        flights := s.flights - {f})
      else s
    case GiveUp(f) => s.(flights := s.flights - {f})
  }

  // ----- what holds in every run

  /** A share request that has read the entry's owner and kind keeps being right about them. */
  ghost predicate FlightOk(s: State, f: Id)
    requires f in s.flights
  {
    var request, passed := s.flights[f].request, s.flights[f].passed;
    && passed <= |Checks(request)|
    && (request.ShareIt? && request.resource.EntryOf? && passed == 2 ==>
      Knows(s, request.owner, request.resource.id, request.resource.kind))
  }

  ghost predicate Knows(s: State, owner: Id, id: Id, kind: Kind) {
    id in s.used && (id in s.t.entries ==> s.t.entries[id].owner == owner && s.t.entries[id].kind == kind)
  }

  ghost predicate Inv(s: State) {
    && Consistent(s.t) && s.t.entries.Keys <= s.used
    && (forall f {:trigger FlightOk(s, f)} :: f in s.flights ==> FlightOk(s, f))
  }

  /** Rows are never given another owner or kind, and new ones come under new identifiers. */
  ghost predicate RowsPersist(t: Tables, u: Tables, drawn: Id) {
    forall x :: x in u.entries ==>
      (x in t.entries && u.entries[x].owner == t.entries[x].owner && u.entries[x].kind == t.entries[x].kind)
        || x == drawn
  }

  lemma {:induction false} TrashEachPersists(t: Tables, owner: Id, ids: seq<Id>, drawn: Id)
    ensures RowsPersist(t, TrashEach(t, owner, ids), drawn)
  {
    if ids != [] {
      TrashEachPersists(t, owner, ids[..|ids| - 1], drawn);
    }
  }

  lemma {:induction false} NamingPersists(t: Tables, owner: Id, drawn: Id, k: nat)
    requires k <= |PHOTOS_NAMES|
    ensures RowsPersist(t, NameFrom(t, owner, drawn, k), drawn)
    decreases |PHOTOS_NAMES| - k
  {
    if k < |PHOTOS_NAMES| {
      NamingPersists(t, owner, drawn, k + 1);
    }
  }

  lemma {:induction false} AdoptingPersists(t: Tables, owner: Id, drawn: Id, k: nat)
    requires k <= |PHOTOS_NAMES|
    ensures RowsPersist(t, AdoptFrom(t, owner, drawn, k), drawn)
    decreases |PHOTOS_NAMES| - k
  {
    if k == |PHOTOS_NAMES| {
      NamingPersists(t, owner, drawn, 0);
    } else {
      AdoptingPersists(t, owner, drawn, k + 1);
    }
  }

  lemma TreeEffectPersists(s: State, request: Request, drawn: Id, answer: bool)
    requires Inv(s) && !request.TrashMany? && !request.EnsurePhotos?
    ensures RowsPersist(s.t, Effect(s, request, drawn, answer), drawn)
  {
  }

  lemma EffectPersists(s: State, request: Request, drawn: Id, answer: bool)
    requires Inv(s)
    ensures RowsPersist(s.t, Effect(s, request, drawn, answer), drawn)
  {
    if request.TrashMany? {
      TrashEachPersists(s.t, request.owner, request.ids, drawn);
    } else if request.EnsurePhotos? {
      AdoptingPersists(s.t, request.owner, drawn, 0);
    } else {
      TreeEffectPersists(s, request, drawn, answer);
    }
  }

  /** The write of a request that is not a move and not a new link. */
  predicate Quiet(request: Request) {
    !request.MoveOne? && !request.MoveMany? && !request.ShareIt?
  }

  lemma TreeEffectIsHarmless(s: State, request: Request, drawn: Id, answer: bool)
    requires Inv(s)
    requires request.CreateFolder? || request.AddFile? || request.Rename? || request.CopyMany? || request.EnsurePhotos?
    ensures Harmless(s.t, Effect(s, request, drawn, answer))
  {
    match request
    case CreateFolder(o, p, n) => InsertIsHarmless(s.t, drawn, Entry(o, p, Folder, n, false, false, None));
    case AddFile(o, p, n, c, twins) => LinkFileIsHarmless(s.t, o, p, n, drawn, c, twins);
    case EnsurePhotos(o) => PhotosIsHarmless(s.t, o, drawn);
    case Rename(o, i, n) => RenameIsHarmless(s.t, o, i, n);
    case _ =>
  }

  lemma TrashEffectIsHarmless(s: State, request: Request, drawn: Id, answer: bool)
    requires Inv(s) && (request.TrashOne? || request.TrashMany? || request.Restore? || request.Purge?)
    ensures Harmless(s.t, Effect(s, request, drawn, answer))
  {
    match request
    case TrashOne(o, i) => TrashIsHarmless(s.t, o, i);
    case TrashMany(o, ids) => TrashEachIsHarmless(s.t, o, ids);
    case Restore(o, i, _) => UntrashIsHarmless(s.t, o, i);
    case Purge(o, r) => PurgeIsHarmless(s.t, o, r);
  }

  lemma LinkEffectIsHarmless(s: State, request: Request, drawn: Id, answer: bool)
    requires Inv(s) && (request.Unlock? || request.Download? || request.Revoke? || request.RevokeKey?)
    ensures Harmless(s.t, Effect(s, request, drawn, answer))
  {
    match request
    case Unlock(l, correct) =>
      UnlockIsHarmless(s.t, s.now, l, drawn);
      FailureIsHarmless(s.t, s.now, l);
    case Download(l) => DownloadIsHarmless(s.t, s.now, l);
    case Revoke(_, l) => RevokeKeepsConsistent(s.t, {l});
    case RevokeKey(o, k) =>
      RevokeKeepsConsistent(s.t, set l | l in s.t.shares && s.t.shares[l].key == Some(k) && s.t.shares[l].owner == o);
  }

  lemma QuietIsHarmless(s: State, request: Request, drawn: Id, answer: bool)
    requires Inv(s) && Quiet(request)
    ensures Harmless(s.t, Effect(s, request, drawn, answer))
  {
    if request.Unlock? || request.Download? || request.Revoke? || request.RevokeKey? {
      LinkEffectIsHarmless(s, request, drawn, answer);
    } else if request.TrashOne? || request.TrashMany? || request.Restore? || request.Purge? {
      TrashEffectIsHarmless(s, request, drawn, answer);
    } else {
      TreeEffectIsHarmless(s, request, drawn, answer);
    }
  }

  /** By the time of its insert a link fits its entry, if the entry still exists. */
  lemma NewLinkFits(s: State, f: Id, drawn: Id)
    requires Inv(s) && Ready(s, f) && s.flights[f].request.ShareIt?
    ensures var r := s.flights[f].request;
            var share := NewShare(r.owner, r.resource, r.password, r.expires, r.allowDownload, r.maxDownloads, r.key);
            MayInsertShare(s.t, drawn, share) ==> ShareOk(s.t.entries, share)
  {
    assert FlightOk(s, f);
  }

  lemma WriteKeepsConsistent(s: State, f: Id, drawn: Id, answer: bool)
    requires Inv(s) && Ready(s, f)
    ensures Consistent(Effect(s, s.flights[f].request, drawn, answer))
  {
    var r := s.flights[f].request;
    match r
    case MoveOne(o, i, d) => UpdateParentIff(s.t, o, i, d);
    case MoveMany(o, ids, d) => MoveBatchIff(s.t, o, ids, d);
    case ShareIt(o, res, p, e, a, m, k) =>
      NewLinkFits(s, f, drawn);
      InsertShareIff(s.t, drawn, NewShare(o, res, p, e, a, m, k));
    case _ => QuietIsHarmless(s, r, drawn, answer);
  }

  // ----- copies within a run

  lemma {:induction false} StagesAreWellFormed(stages: seq<Entries>, images: seq<map<Id, Id>>, owner: Id, ids: seq<Id>,
      dest: Option<Id>, namer: Namer, k: nat)
    requires CopySteps(stages, images, owner, ids, dest, namer) && k <= |images|
      && UniqueNames(stages[0]) && Forest(stages[0])
    ensures Forest(stages[k]) && UniqueNames(stages[k]) && AllKept(stages[0], stages[k])
  {
    if k > 0 {
      StagesAreWellFormed(stages, images, owner, ids, dest, namer, k - 1);
      assert CopyStep(stages, images, owner, ids, dest, namer, k - 1);
      OneCopyIsWellFormed(|stages[0]|, stages[k - 1], stages[k], images[k - 1], owner, ids[k - 1], dest, namer);
      AllKeptOn(stages[0], stages[k - 1], stages[k]);
    }
  }

  lemma OneCopyIsWellFormed(base: nat, es: Entries, cur: Entries, image: map<Id, Id>, owner: Id, id: Id,
      dest: Option<Id>, namer: Namer)
    requires OneCopy(base, es, cur, image, owner, id, dest, namer) && UniqueNames(es)
    ensures Forest(cur) && UniqueNames(cur) && AllKept(es, cur)
  {
    CopyIsWellFormed(es, cur, owner, id, dest, |es| - base, namer, image);
  }

  lemma CopiesAreHarmless(s: State, request: Request, stages: seq<Entries>, images: seq<map<Id, Id>>)
    requires Inv(s) && Copies(s, request, stages, images)
    ensures Harmless(s.t, s.t.(entries := stages[|images|])) && AllKept(s.t.entries, stages[|images|])
  {
    StagesAreWellFormed(stages, images, request.owner, request.ids, request.dest, request.namer, |images|);
    ExtensionKeepsConsistent(s.t, stages[|images|]);
  }

  // ----- the invariant

  lemma StepKeepsConsistent(s: State, op: Op)
    requires Inv(s)
    ensures Consistent(Step(s, op).t) && Step(s, op).t.entries.Keys <= Step(s, op).used
  {
    if op.Write? && Ready(s, op.flight) && op.drawn !in s.used {
      WriteKeepsConsistent(s, op.flight, op.drawn, op.answer);
      EffectPersists(s, s.flights[op.flight].request, op.drawn, op.answer);
    }
    if op.WriteCopies? && Ready(s, op.flight) && Copies(s, s.flights[op.flight].request, op.stages, op.images) {
      CopiesAreHarmless(s, s.flights[op.flight].request, op.stages, op.images);
    }
  }

  lemma StepKeepsKnowledge(s: State, op: Op, owner: Id, id: Id, kind: Kind)
    requires Inv(s) && Knows(s, owner, id, kind)
    ensures Knows(Step(s, op), owner, id, kind)
  {
    if op.Write? && Ready(s, op.flight) && op.drawn !in s.used {
      EffectPersists(s, s.flights[op.flight].request, op.drawn, op.answer);
    }
    if op.WriteCopies? && Ready(s, op.flight) && Copies(s, s.flights[op.flight].request, op.stages, op.images) {
      CopiesAreHarmless(s, s.flights[op.flight].request, op.stages, op.images);
    }
  }

  lemma StepKeepsFlight(s: State, op: Op, f: Id)
    requires Inv(s) && f in Step(s, op).flights
    ensures FlightOk(Step(s, op), f)
  {
    if f in s.flights {
      assert FlightOk(s, f);
      var request := s.flights[f].request;
      if request.ShareIt? && request.resource.EntryOf? && s.flights[f].passed == 2 {
        StepKeepsKnowledge(s, op, request.owner, request.resource.id, request.resource.kind);
      }
    }
  }

  lemma StepKeepsInv(s: State, op: Op)
    requires Inv(s)
    ensures Inv(Step(s, op))
  {
    StepKeepsConsistent(s, op);
    forall f | f in Step(s, op).flights ensures FlightOk(Step(s, op), f) {
      StepKeepsFlight(s, op, f);
    }
  }

  /** The state before the `k`-th operation. In every run, whatever interleaves: the entries are a forest of one owner's
      folders with unique untrashed sibling names, links name entries of their owner and kind, no revoked link holds a
      grant, and no grant outlives its link. */
  ghost function At(ops: seq<Op>, k: nat): (s: State)
    requires k <= |ops|
    ensures Inv(s)
  {
    if k == 0 then Initial
    else
      var s := At(ops, k - 1);
      StepKeepsInv(s, ops[k - 1]);
      Step(s, ops[k - 1])
  }

  // ----- links left behind

  /** The step is a write that meets a tree its request did not see: a link inserted for an entry that is trashed by
      now, or a move, with links, to a destination that is. */
  ghost predicate LeavesBehind(s: State, op: Op)
    requires Forest(s.t.entries)
  {
    && op.Write? && Ready(s, op.flight) && op.drawn !in s.used
    && match s.flights[op.flight].request
       case MoveOne(o, i, d) => MayUpdateParent(s.t.entries, o, i, d) && !StillClean(s.t, {i}, d)
       case MoveMany(o, ids, d) =>
         ids != [] && MovableTogether(s.t.entries, o, ids, d) && !StillClean(s.t, Named(ids), d)
       case ShareIt(o, r, p, e, a, m, k) =>
         (k.Some? ==> op.answer) && MayInsertShare(s.t, op.drawn, NewShare(o, r, p, e, a, m, k))
         && LeftBehind(s.t.entries, NewShare(o, r, p, e, a, m, k))
       case _ => false
  }

  lemma WriteCleanIff(s: State, f: Id, drawn: Id, answer: bool)
    requires Inv(s) && LinksClean(s.t) && Ready(s, f) && drawn !in s.used
    ensures Consistent(Effect(s, s.flights[f].request, drawn, answer))
    ensures LinksClean(Effect(s, s.flights[f].request, drawn, answer)) <==> !LeavesBehind(s, Write(f, drawn, answer))
  {
    WriteKeepsConsistent(s, f, drawn, answer);
    var r := s.flights[f].request;
    match r
    case MoveOne(o, i, d) => UpdateParentIff(s.t, o, i, d);
    case MoveMany(o, ids, d) =>
      MoveBatchIff(s.t, o, ids, d);
      assert ids == [] ==> MoveAll(s.t.entries, Named(ids), d) == s.t.entries;
    case ShareIt(o, res, p, e, a, m, k) =>
      NewLinkFits(s, f, drawn);
      InsertShareIff(s.t, drawn, NewShare(o, res, p, e, a, m, k));
    case _ => QuietIsHarmless(s, r, drawn, answer);
  }

  /** A step leaves every link clean exactly when it is not such a write. */
  lemma StepCleanIff(s: State, op: Op)
    requires Inv(s) && LinksClean(s.t)
    ensures Consistent(Step(s, op).t)
    ensures LinksClean(Step(s, op).t) <==> !LeavesBehind(s, op)
  {
    StepKeepsConsistent(s, op);
    if op.Write? && Ready(s, op.flight) && op.drawn !in s.used {
      WriteCleanIff(s, op.flight, op.drawn, op.answer);
    } else if op.WriteCopies? && Ready(s, op.flight) && Copies(s, s.flights[op.flight].request, op.stages, op.images) {
      CopiesAreHarmless(s, s.flights[op.flight].request, op.stages, op.images);
    }
  }

  ghost predicate CleanAt(ops: seq<Op>, k: nat)
    requires k <= |ops|
  {
    LinksClean(At(ops, k).t)
  }

  ghost predicate LeavesAt(ops: seq<Op>, k: nat)
    requires k < |ops|
  {
    LeavesBehind(At(ops, k), ops[k])
  }

  ghost predicate CleanThroughout(ops: seq<Op>, n: nat)
    requires n <= |ops|
  {
    forall k: nat {:trigger CleanAt(ops, k)} :: k <= n ==> CleanAt(ops, k)
  }

  ghost predicate NeverLeaves(ops: seq<Op>, n: nat)
    requires n <= |ops|
  {
    forall k: nat {:trigger LeavesAt(ops, k)} :: k < n ==> !LeavesAt(ops, k)
  }

  lemma OneMoreMoment(ops: seq<Op>, n: nat)
    requires 0 < n <= |ops|
    ensures CleanThroughout(ops, n) <==> CleanThroughout(ops, n - 1) && CleanAt(ops, n)
  {
    if CleanThroughout(ops, n) {
      assert forall k: nat {:trigger CleanAt(ops, k)} :: k <= n - 1 ==> CleanAt(ops, k);
      assert CleanAt(ops, n);
    }
  }

  lemma OneMoreStep(ops: seq<Op>, n: nat)
    requires 0 < n <= |ops|
    ensures NeverLeaves(ops, n) <==> NeverLeaves(ops, n - 1) && !LeavesAt(ops, n - 1)
  {
    if NeverLeaves(ops, n) {
      assert forall k: nat {:trigger LeavesAt(ops, k)} :: k < n - 1 ==> !LeavesAt(ops, k);
      assert !LeavesAt(ops, n - 1);
    }
  }

  lemma CleanNextIff(ops: seq<Op>, k: nat)
    requires k < |ops|
    ensures CleanThroughout(ops, k) ==> (CleanAt(ops, k + 1) <==> !LeavesAt(ops, k))
  {
    if CleanThroughout(ops, k) {
      assert CleanAt(ops, k);
      StepCleanIff(At(ops, k), ops[k]);
    }
  }

  /** Over a whole run: no moment shows an unrevoked link to a trashed entry exactly when no step of the run was such a
      write. */
  lemma {:induction false} RunCleanIff(ops: seq<Op>, n: nat)
    requires n <= |ops|
    ensures CleanThroughout(ops, n) <==> NeverLeaves(ops, n)
  {
    if n > 0 {
      RunCleanIff(ops, n - 1);
      OneMoreMoment(ops, n);
      OneMoreStep(ops, n);
      CleanNextIff(ops, n - 1);
    } else {
      NothingAtStart(ops);
    }
  }

  lemma NothingAtStart(ops: seq<Op>)
    ensures CleanThroughout(ops, 0) && NeverLeaves(ops, 0)
  {
    assert At(ops, 0) == Initial;
  }

  /** What visitors see is not affected: at every moment of every run the active-link query refuses exactly the live
      links that were left behind, and those whose album is gone. */
  lemma VisitorsSeeCleanLinks(ops: seq<Op>, k: nat, link: Id, albumExists: bool)
    requires k <= |ops| && link in At(ops, k).t.shares && Live(At(ops, k).t.shares[link], At(ops, k).now)
    ensures var s := At(ops, k);
            Holds(s, LinkLive(link), albumExists) && Holds(s, LinkActive(link), albumExists)
            <==> !LeftBehind(s.t.entries, s.t.shares[link]) && (s.t.shares[link].resource.AlbumOf? ==> albumExists)
  {
    assert ShareOk(At(ops, k).t.entries, At(ops, k).t.shares[link]);
  }

  // ----- building runs

  lemma {:induction false} AtPrefix(ops: seq<Op>, op: Op, k: nat)
    requires k <= |ops|
    ensures At(ops + [op], k) == At(ops, k)
  {
    if k > 0 {
      AtPrefix(ops, op, k - 1);
      assert (ops + [op])[k - 1] == ops[k - 1];
    }
  }

  /** A run and one more operation. */
  lemma Extend(ops: seq<Op>, s: State, op: Op) returns (ops': seq<Op>, s': State)
    requires At(ops, |ops|) == s
    ensures ops' == ops + [op] && At(ops', |ops'|) == s' && s' == Step(s, op) && Inv(s')
  {
    ops', s' := ops + [op], Step(s, op);
    AtPrefix(ops, op, |ops|);
    StepKeepsInv(s, op);
  }

  lemma Begins(ops: seq<Op>, s: State, f: Id, request: Request) returns (ops': seq<Op>, s': State)
    requires At(ops, |ops|) == s && f !in s.flights && WellFormed(request, s.now)
    ensures At(ops', |ops'|) == s' && Inv(s') && ops < ops' && s' == s.(flights := s.flights[f := Flight(request, 0)])
  {
    ops', s' := Extend(ops, s, Begin(f, request));
  }

  lemma ReadsOn(ops: seq<Op>, s: State, f: Id, answer: bool) returns (ops': seq<Op>, s': State)
    requires At(ops, |ops|) == s && f in s.flights && s.flights[f].passed < |Checks(s.flights[f].request)|
    requires Holds(s, Checks(s.flights[f].request)[s.flights[f].passed], answer)
    ensures At(ops', |ops'|) == s' && Inv(s') && ops < ops'
    ensures s' == s.(flights := s.flights[f := Flight(s.flights[f].request, s.flights[f].passed + 1)])
  {
    ops', s' := Extend(ops, s, Read(f, answer));
  }

  lemma Writes(ops: seq<Op>, s: State, f: Id, drawn: Id, answer: bool) returns (ops': seq<Op>, s': State)
    requires At(ops, |ops|) == s && Ready(s, f) && drawn !in s.used
    ensures At(ops', |ops'|) == s' && Inv(s') && ops < ops' && ops' == ops + [Write(f, drawn, answer)]
    ensures s' == State(Effect(s, s.flights[f].request, drawn, answer), s.used + {drawn}, s.now, s.flights - {f})
  {
    ops', s' := Extend(ops, s, Write(f, drawn, answer));
  }
}
