/** The crash-recoverable import worker (src/google_drive.rs: sync_tick and the functions it calls).
    Every operation is one transaction, one file-system call, or a crash that loses the worker's position. */
module ImportWorker {
  import opened Common

  /** A payload stands for its bytes; its SHA-256 digest identifies it. */
  type Payload = nat

  datatype ItemState = Pending | Downloading | Committing | Stored | Skipped | Failed
  datatype Item = Item(run: Id, state: ItemState, staging: Option<Id>, stored: Option<Id>, checksum: Option<Payload>,
    size: nat)
  datatype RunState = ListingRun | DownloadingRun | CompletedRun | FailedRun
  datatype Run = Run(state: RunState, discovered: nat, downloadedFiles: nat, downloadedBytes: nat, skipped: nat,
    failed: nat)
  datatype Object = Object(ready: bool, checksum: Option<Payload>)

  /** What the worker keeps in memory only. */
  datatype Position =
    | Idle
    | Recovering(keys: set<Id>)
    | Claimed(item: Id)
    | Created(item: Id, key: Id)
    | Writing(item: Id, key: Id)
    | Staged(item: Id, key: Id, payload: Payload, size: nat)
    | Committed(item: Id, key: Id, stored: Id, payload: Payload, size: nat)
    | Resuming(item: Id)
    | Promoted(item: Id, stored: Id, payload: Payload, size: nat)
    | Failing(item: Id)
    | FailedUncounted(item: Id)
    | ReadingPage(run: Id)

  datatype State = State(items: map<Id, Item>, runs: map<Id, Run>, open: set<Id>, objects: map<Id, Object>,
    staging: map<Id, Payload>, files: map<Id, Payload>, keyFor: map<Id, Id>, objectFor: map<Id, Id>, at: Position)

  /** `keyFor` and `objectFor` are history: the item each staging key and object id was drawn for.
      A fresh UUID repeats none of them. */
  const Initial := State(map[], map[], {}, map[], map[], map[], map[], map[], Idle)

  datatype ListOp =
    | StartRun(run: Id) | FetchPage(run: Id) | Discover(item: Id, skip: bool) | ClosePage(done: bool)
    | FinishRuns | FailRuns
  datatype RecoverOp = RecoverDownloads | RemoveRecovered(key: Id, ok: bool)
  datatype ClaimOp = Claim(item: Id) | Release
  datatype DownloadOp =
    | CreateStaging(key: Id) | NoteStaging | NoteFails | Write(payload: Payload) | FinishDownload(size: nat)
    | AbortDownload(removed: bool)
  datatype CommitOp = Commit(stored: Id) | CommitFails(removed: bool) | Promote | FinishReady
  datatype ResumeOp = PickResume(item: Id) | ResumePresent(removed: bool) | ResumePromote | Abandon
  datatype FailOp = FailItem(removed: bool) | MarkFailed | CountFailed

  datatype Op =
    | Listing(listingOp: ListOp)
    | Restoring(restoringOp: RecoverOp)
    | Claiming(claimingOp: ClaimOp)
    | Fetching(fetchingOp: DownloadOp)
    | Storing(storingOp: CommitOp)
    | Recommitting(recommittingOp: ResumeOp)
    | GivingUp(givingUpOp: FailOp)
    | Crash

  predicate RunActive(s: State, r: Id) {
    r in s.runs && (s.runs[r].state.ListingRun? || s.runs[r].state.DownloadingRun?)
  }

  predicate Unfinished(st: ItemState) {
    st.Pending? || st.Downloading? || st.Committing?
  }

  function SetItem(s: State, i: Id, item: Item): State {
    s.(items := s.items[i := item])
  }

  function Unstage(s: State, key: Id, really: bool): State {
    if really then s.(staging := s.staging - {key}) else s
  }

  /** `resume_commit` gives an item up in exactly these cases. */
  predicate MustAbandon(s: State, i: Id)
    requires i in s.items
  {
    var item := s.items[i];
    item.stored.None? || item.stored.value !in s.objects || item.checksum.None?
    || (item.stored.value !in s.files && item.staging.None?)
  }

  function Finished(s: State, i: Id, o: Id, payload: Payload, size: nat): State
    requires i in s.items
  {
    var objects := if o in s.objects then s.objects[o := Object(true, Some(payload))] else s.objects;
    var t := s.(objects := objects, at := Idle);
    if !s.items[i].state.Committing? then t
    else
      var r := s.items[i].run;
      var u := SetItem(t, i, s.items[i].(state := Stored, staging := None));
      if r !in s.runs then u
      else
        var run := u.runs[r];
        u.(runs := u.runs[r := run.(downloadedFiles := run.downloadedFiles + 1,
                                    downloadedBytes := run.downloadedBytes + size)])
  }

  function Recovered(item: Item): Item {
    if item.state.Downloading? then item.(state := Pending, staging := None, size := 0) else item
  }

  function RecoveredItems(items: map<Id, Item>): (r: map<Id, Item>)
    ensures r.Keys == items.Keys
  {
    map i | i in items :: Recovered(items[i])
  }

  function StuckKeys(items: map<Id, Item>): set<Id> {
    set i | i in items && items[i].state.Downloading? && items[i].staging.Some? :: items[i].staging.value
  }

  function FinishedRun(s: State, r: Id): Run
    requires r in s.runs
  {
    var run := s.runs[r];
    if !RunActive(s, r) || r in s.open then run
    else if exists i :: i in s.items && s.items[i].run == r && Unfinished(s.items[i].state)
      then run.(state := DownloadingRun)
    else run.(state := CompletedRun)
  }

  function ListingStep(s: State, op: ListOp): State {
    match op
    case StartRun(r) =>
      if r in s.runs then s else s.(runs := s.runs[r := Run(ListingRun, 0, 0, 0, 0, 0)], open := s.open + {r})
    case FetchPage(r) =>
      if s.at.Idle? && RunActive(s, r) && r in s.open then s.(at := ReadingPage(r)) else s
    case Discover(i, skip) =>
      if s.at.ReadingPage? && i !in s.items && s.at.run in s.runs then
        var run := s.runs[s.at.run];
        SetItem(s, i, Item(s.at.run, if skip then Skipped else Pending, None, None, None, 0))
        .(runs :=
          s.runs[s.at.run := run.(discovered := run.discovered + 1, skipped := run.skipped + if skip then 1 else 0)])
      else s
    case ClosePage(done) =>
      if s.at.ReadingPage? then s.(open := if done then s.open - {s.at.run} else s.open, at := Idle) else s
    case FinishRuns =>
      if s.at.Idle? then s.(runs := map r | r in s.runs :: FinishedRun(s, r)) else s
    case FailRuns =>
      s.(runs := map r | r in s.runs :: if RunActive(s, r) then s.runs[r].(state := FailedRun) else s.runs[r])
  }

  function RestoringStep(s: State, op: RecoverOp): State {
    match op
    case RecoverDownloads =>
      if s.at.Idle? then
        s.(items := RecoveredItems(s.items), at := Recovering(StuckKeys(s.items)))
      else s
    case RemoveRecovered(key, ok) =>
      if s.at.Recovering? && s.at.keys == {} then s.(at := Idle)
      else if s.at.Recovering? && key in s.at.keys then Unstage(s, key, ok).(at := Recovering(s.at.keys - {key}))
      else s
  }

  function ClaimingStep(s: State, op: ClaimOp): State {
    match op
    case Claim(i) =>
      if s.at.Idle? && i in s.items && s.items[i].state.Pending? && RunActive(s, s.items[i].run)
      then SetItem(s, i, s.items[i].(state := Downloading)).(at := Claimed(i)) else s
    case Release =>
      if s.at.Claimed? && s.at.item in s.items && s.items[s.at.item].state.Downloading?
      then SetItem(s, s.at.item, s.items[s.at.item].(state := Pending, staging := None, size := 0)).(at := Idle) else s
  }

  function FetchingStep(s: State, op: DownloadOp): State {
    match op
    case CreateStaging(key) =>
      if s.at.Claimed? && key !in s.keyFor
      then s.(staging := s.staging[key := 0], keyFor := s.keyFor[key := s.at.item], at := Created(s.at.item, key))
        else s
    case NoteStaging =>
      if s.at.Created? && s.at.item in s.items
      then SetItem(s, s.at.item, s.items[s.at.item].(staging := Some(s.at.key))).(at := Writing(s.at.item, s.at.key))
        else s
    case NoteFails =>
      if s.at.Created? then s.(at := Failing(s.at.item)) else s
    case Write(payload) =>
      if s.at.Writing? then s.(staging := s.staging[s.at.key := payload]) else s
    case FinishDownload(size) =>
      if s.at.Writing? && s.at.key in s.staging
        then s.(at := Staged(s.at.item, s.at.key, s.staging[s.at.key], size)) else s
    case AbortDownload(removed) =>
      if s.at.Writing? then Unstage(s, s.at.key, removed).(at := Failing(s.at.item)) else s
  }

  function StoringStep(s: State, op: CommitOp): State {
    match op
    case Commit(o) =>
      if s.at.Staged? && o !in s.objectFor && s.at.item in s.items && s.items[s.at.item].state.Downloading? then
        SetItem(s, s.at.item,
          s.items[s.at.item].(state := Committing, stored := Some(o), checksum := Some(s.at.payload),
          size := s.at.size))
        .(objects := s.objects[o := Object(false, None)], objectFor := s.objectFor[o := s.at.item],
          at := Committed(s.at.item, s.at.key, o, s.at.payload, s.at.size))
      else s
    case CommitFails(removed) =>
      if s.at.Staged? then Unstage(s, s.at.key, removed).(at := Failing(s.at.item)) else s
    case Promote =>
      if s.at.Committed? && s.at.key in s.staging && s.at.stored !in s.files then
        s.(files := s.files[s.at.stored := s.staging[s.at.key]], staging := s.staging - {s.at.key},
           at := Promoted(s.at.item, s.at.stored, s.at.payload, s.at.size))
      else s
    case FinishReady =>
      if s.at.Promoted? && s.at.item in s.items then Finished(s, s.at.item, s.at.stored, s.at.payload, s.at.size) else s
  }

  function RecommittingStep(s: State, op: ResumeOp): State {
    match op
    case PickResume(i) =>
      if s.at.Idle? && i in s.items && s.items[i].state.Committing? then s.(at := Resuming(i)) else s
    case ResumePresent(removed) =>
      if s.at.Resuming? && s.at.item in s.items && !MustAbandon(s, s.at.item)
        && s.items[s.at.item].stored.value in s.files then
        var item := s.items[s.at.item];
        (if item.staging.Some? then Unstage(s, item.staging.value, removed) else s)
        .(at := Promoted(s.at.item, item.stored.value, item.checksum.value, item.size))
      else s
    case ResumePromote =>
      if s.at.Resuming? && s.at.item in s.items && !MustAbandon(s, s.at.item)
        && s.items[s.at.item].stored.value !in s.files then
        var item := s.items[s.at.item];
        if item.staging.value in s.staging then
          s.(files := s.files[item.stored.value := s.staging[item.staging.value]],
            staging := s.staging - {item.staging.value},
            at := Promoted(s.at.item, item.stored.value, item.checksum.value, item.size))
        else s.(at := Idle)
      else s
    case Abandon =>
      if s.at.Resuming? && s.at.item in s.items && MustAbandon(s, s.at.item) && s.items[s.at.item].state.Committing?
         && s.items[s.at.item].run in s.runs then
        var r := s.items[s.at.item].run;
        SetItem(s, s.at.item, s.items[s.at.item].(state := Failed, staging := None))
        .(runs := s.runs[r := s.runs[r].(failed := s.runs[r].failed + 1)], at := Idle)
      else s
  }

  function GivingUpStep(s: State, op: FailOp): State {
    match op
    case FailItem(removed) =>
      if s.at.Claimed? then s.(at := Failing(s.at.item))
      else if s.at.Failing? && s.at.item in s.items && s.items[s.at.item].staging.Some?
      then Unstage(s, s.items[s.at.item].staging.value, removed) else s
    case MarkFailed =>
      if s.at.Failing? && s.at.item in s.items
        && (s.items[s.at.item].state.Pending? || s.items[s.at.item].state.Downloading?)
      then SetItem(s, s.at.item,
        s.items[s.at.item].(state := Failed, staging := None)).(at := FailedUncounted(s.at.item)) else s
    case CountFailed =>
      if s.at.FailedUncounted? && s.at.item in s.items && s.items[s.at.item].run in s.runs then
        var r := s.items[s.at.item].run;
        s.(runs := s.runs[r := s.runs[r].(failed := s.runs[r].failed + 1)], at := Idle)
      else s
  }

  /** One step; an operation that does not apply changes nothing. */
  function Step(s: State, op: Op): State {
    match op
    case Listing(o) => ListingStep(s, o)
    case Restoring(o) => RestoringStep(s, o)
    case Claiming(o) => ClaimingStep(s, o)
    case Fetching(o) => FetchingStep(s, o)
    case Storing(o) => StoringStep(s, o)
    case Recommitting(o) => RecommittingStep(s, o)
    case GivingUp(o) => GivingUpStep(s, o)
    case Crash => s.(at := Idle)
  }

  function Execute(s: State, ops: seq<Op>): State {
    if ops == [] then s else Step(Execute(s, ops[..|ops| - 1]), ops[|ops| - 1])
  }

  // ----- payloads

  /** A committing item has its object row, its checksum, and its payload in staging or in place. */
  ghost predicate CommittingOk(s: State, i: Id)
    requires i in s.items
  {
    var item := s.items[i];
    item.state.Committing? ==>
      && item.stored.Some? && item.stored.value in s.objects && item.checksum.Some? && item.staging.Some?
      && if item.stored.value in s.files then s.files[item.stored.value] == item.checksum.value
         else item.staging.value in s.staging && s.staging[item.staging.value] == item.checksum.value
  }

  /** A staging key or object is referenced only by the item it was drawn for. */
  ghost predicate ItemOk(s: State, i: Id)
    requires i in s.items
  {
    var item := s.items[i];
    && CommittingOk(s, i) && item.run in s.runs
    && (item.staging.Some? ==>
      item.staging.value in s.keyFor && s.keyFor[item.staging.value] == i
      && (item.state.Downloading? || item.state.Committing?))
    && (item.stored.Some? ==>
      item.stored.value in s.objectFor && s.objectFor[item.stored.value] == i
      && !item.state.Downloading? && !item.state.Pending?)
  }

  /** An object is ready only with its payload in place. */
  ghost predicate ObjectOk(s: State, o: Id)
    requires o in s.objects
  {
    s.objects[o].ready ==> o in s.files && s.objects[o].checksum == Some(s.files[o])
  }

  /** No item row names this key any more. */
  ghost predicate Loose(s: State, key: Id) {
    key in s.keyFor && s.keyFor[key] in s.items && s.items[s.keyFor[key]].staging != Some(key)
  }

  ghost predicate HasStaging(s: State, i: Id, key: Id) {
    i in s.items && s.items[i].state.Downloading? && s.items[i].staging == Some(key)
  }

  ghost predicate PositionOk(s: State) {
    match s.at
    case Idle => true
    case Recovering(keys) => forall k :: k in keys ==> Loose(s, k)
    case Claimed(i) => i in s.items && s.items[i].state.Downloading?
    case Created(i, k) =>
      i in s.items && s.items[i].state.Downloading? && Loose(s, k) && s.keyFor[k] == i && k in s.staging
    case Writing(i, k) => HasStaging(s, i, k) && k in s.staging
    case Staged(i, k, p, n) => HasStaging(s, i, k) && k in s.staging && s.staging[k] == p
    case Committed(i, k, o, p, n) =>
      && i in s.items
      && s.items[i] ==
         s.items[i].(state := Committing, staging := Some(k), stored := Some(o), checksum := Some(p), size := n)
      && o !in s.files
    case Resuming(i) => i in s.items && s.items[i].state.Committing?
    case Promoted(i, o, p, n) =>
      i in s.items && s.items[i] == s.items[i].(state := Committing, stored := Some(o), checksum := Some(p), size := n)
      && o in s.files && s.files[o] == p
    case Failing(i) => i in s.items && s.items[i].state.Downloading?
    case FailedUncounted(i) => i in s.items && s.items[i].state.Failed?
    case ReadingPage(r) => r in s.runs && r in s.open && !s.runs[r].state.CompletedRun?
  }

  ghost predicate PayloadsOk(s: State) {
    && (forall i {:trigger ItemOk(s, i)} :: i in s.items ==> ItemOk(s, i))
    && (forall o {:trigger ObjectOk(s, o)} :: o in s.objects ==> ObjectOk(s, o))
    && PositionOk(s) && TablesMatch(s)
  }

  ghost predicate TablesMatch(s: State) {
    s.files.Keys <= s.objects.Keys <= s.objectFor.Keys && s.staging.Keys <= s.keyFor.Keys && s.open <= s.runs.Keys
  }

  lemma InitialPayloadsOk()
    ensures PayloadsOk(Initial)
  {
  }

  /** The worker is busy with a known item. */
  ghost predicate Holding(s: State) {
    !(s.at.Idle? || s.at.Recovering? || s.at.ReadingPage?) && s.at.item in s.items
  }

  /** What a step sees of the state: the tables' keys, its own position and the item it holds. */
  ghost predicate HereOk(s: State) {
    PositionOk(s) && TablesMatch(s) && (Holding(s) ==> ItemOk(s, s.at.item))
  }

  lemma PayloadsHere(s: State)
    requires PayloadsOk(s)
    ensures HereOk(s)
  {
    assert Holding(s) ==> ItemOk(s, s.at.item);
  }

  lemma UnstageKeepsItem(s: State, key: Id, really: bool, at: Position, i: Id)
    requires i in s.items && ItemOk(s, i) && Loose(s, key)
    ensures ItemOk(Unstage(s, key, really).(at := at), i)
  {
  }

  lemma RecoveryKeepsItem(s: State, at: Position, i: Id)
    requires i in s.items && ItemOk(s, i)
    ensures ItemOk(s.(items := RecoveredItems(s.items), at := at), i)
  {
  }

  lemma RestoringKeepsItem(s: State, op: RecoverOp, i: Id)
    requires HereOk(s) && (i in s.items ==> ItemOk(s, i)) && i in RestoringStep(s, op).items
    ensures ItemOk(RestoringStep(s, op), i)
  {
    assert ItemOk(s, i);
    match op {
      case RecoverDownloads => RecoveryKeepsItem(s, Recovering(StuckKeys(s.items)), i);
      case RemoveRecovered(key, ok) =>
        if s.at.Recovering? && key in s.at.keys {
          UnstageKeepsItem(s, key, ok, Recovering(s.at.keys - {key}), i);
        }
    }
  }

  lemma ListingKeepsItem(s: State, op: ListOp, i: Id)
    requires HereOk(s) && (i in s.items ==> ItemOk(s, i)) && i in ListingStep(s, op).items
    ensures ItemOk(ListingStep(s, op), i)
  {
  }

  lemma ListingKeepsPosition(s: State, op: ListOp)
    requires PayloadsOk(s)
    ensures PositionOk(ListingStep(s, op))
  {
    assert Holding(s) ==> ItemOk(s, s.at.item);
  }

  lemma ListingKeepsObject(s: State, op: ListOp, o: Id)
    requires HereOk(s) && (o in s.objects ==> ObjectOk(s, o))
    ensures TablesMatch(ListingStep(s, op)) && (o in ListingStep(s, op).objects ==> ObjectOk(ListingStep(s, op), o))
  {
  }

  lemma ListingKeepsPayloads(s: State, op: ListOp)
    requires PayloadsOk(s)
    ensures PayloadsOk(ListingStep(s, op))
  {
    PayloadsHere(s);
    var t := ListingStep(s, op);
    forall i | i in t.items ensures ItemOk(t, i) {
      assert i in s.items ==> ItemOk(s, i);
      ListingKeepsItem(s, op, i);
    }
    forall o ensures TablesMatch(t) && (o in t.objects ==> ObjectOk(t, o)) {
      assert o in s.objects ==> ObjectOk(s, o);
      ListingKeepsObject(s, op, o);
    }
    ListingKeepsPosition(s, op);
  }

  lemma RestoringKeepsPosition(s: State, op: RecoverOp)
    requires PayloadsOk(s)
    ensures PositionOk(RestoringStep(s, op))
  {
    assert Holding(s) ==> ItemOk(s, s.at.item);
    forall i | i in s.items
      ensures s.items[i].staging.Some? ==>
      s.items[i].staging.value in s.keyFor && s.keyFor[s.items[i].staging.value] == i {
      assert ItemOk(s, i);
    }
  }

  lemma UnstageKeepsObject(s: State, key: Id, really: bool, at: Position, o: Id)
    requires TablesMatch(s) && (o in s.objects ==> ObjectOk(s, o))
    ensures var t := Unstage(s, key, really).(at := at); TablesMatch(t) && (o in t.objects ==> ObjectOk(t, o))
  {
  }

  lemma RestoringKeepsObject(s: State, op: RecoverOp, o: Id)
    requires HereOk(s) && (o in s.objects ==> ObjectOk(s, o))
    ensures TablesMatch(RestoringStep(s, op))
      && (o in RestoringStep(s, op).objects ==> ObjectOk(RestoringStep(s, op), o))
  {
    if op.RemoveRecovered? && s.at.Recovering? {
      UnstageKeepsObject(s, op.key, op.ok, Recovering(s.at.keys - {op.key}), o);
    }
  }

  lemma RestoringKeepsPayloads(s: State, op: RecoverOp)
    requires PayloadsOk(s)
    ensures PayloadsOk(RestoringStep(s, op))
  {
    PayloadsHere(s);
    var t := RestoringStep(s, op);
    forall i | i in t.items ensures ItemOk(t, i) {
      assert i in s.items ==> ItemOk(s, i);
      RestoringKeepsItem(s, op, i);
    }
    forall o ensures TablesMatch(t) && (o in t.objects ==> ObjectOk(t, o)) {
      assert o in s.objects ==> ObjectOk(s, o);
      RestoringKeepsObject(s, op, o);
    }
    RestoringKeepsPosition(s, op);
  }

  lemma ClaimingKeepsItem(s: State, op: ClaimOp, i: Id)
    requires HereOk(s) && (i in s.items ==> ItemOk(s, i)) && i in ClaimingStep(s, op).items
    ensures ItemOk(ClaimingStep(s, op), i)
  {
  }

  lemma ClaimingKeepsPosition(s: State, op: ClaimOp)
    requires PayloadsOk(s)
    ensures PositionOk(ClaimingStep(s, op))
  {
    assert Holding(s) ==> ItemOk(s, s.at.item);
  }

  lemma ClaimingKeepsObject(s: State, op: ClaimOp, o: Id)
    requires HereOk(s) && (o in s.objects ==> ObjectOk(s, o))
    ensures TablesMatch(ClaimingStep(s, op)) && (o in ClaimingStep(s, op).objects ==> ObjectOk(ClaimingStep(s, op), o))
  {
  }

  lemma ClaimingKeepsPayloads(s: State, op: ClaimOp)
    requires PayloadsOk(s)
    ensures PayloadsOk(ClaimingStep(s, op))
  {
    PayloadsHere(s);
    var t := ClaimingStep(s, op);
    forall i | i in t.items ensures ItemOk(t, i) {
      assert i in s.items ==> ItemOk(s, i);
      ClaimingKeepsItem(s, op, i);
    }
    forall o ensures TablesMatch(t) && (o in t.objects ==> ObjectOk(t, o)) {
      assert o in s.objects ==> ObjectOk(s, o);
      ClaimingKeepsObject(s, op, o);
    }
    ClaimingKeepsPosition(s, op);
  }

  lemma FetchingKeepsItem(s: State, op: DownloadOp, i: Id)
    requires HereOk(s) && (i in s.items ==> ItemOk(s, i)) && i in FetchingStep(s, op).items
    ensures ItemOk(FetchingStep(s, op), i)
  {
  }

  lemma FetchingKeepsPosition(s: State, op: DownloadOp)
    requires PayloadsOk(s)
    ensures PositionOk(FetchingStep(s, op))
  {
    assert Holding(s) ==> ItemOk(s, s.at.item);
  }

  lemma FetchingKeepsObject(s: State, op: DownloadOp, o: Id)
    requires HereOk(s) && (o in s.objects ==> ObjectOk(s, o))
    ensures TablesMatch(FetchingStep(s, op)) && (o in FetchingStep(s, op).objects ==> ObjectOk(FetchingStep(s, op), o))
  {
  }

  lemma FetchingKeepsPayloads(s: State, op: DownloadOp)
    requires PayloadsOk(s)
    ensures PayloadsOk(FetchingStep(s, op))
  {
    PayloadsHere(s);
    var t := FetchingStep(s, op);
    forall i | i in t.items ensures ItemOk(t, i) {
      assert i in s.items ==> ItemOk(s, i);
      FetchingKeepsItem(s, op, i);
    }
    forall o ensures TablesMatch(t) && (o in t.objects ==> ObjectOk(t, o)) {
      assert o in s.objects ==> ObjectOk(s, o);
      FetchingKeepsObject(s, op, o);
    }
    FetchingKeepsPosition(s, op);
  }

  lemma CommitKeepsItem(s: State, o: Id, i: Id)
    requires HereOk(s) && i in s.items && ItemOk(s, i)
    ensures i in StoringStep(s, Commit(o)).items && ItemOk(StoringStep(s, Commit(o)), i)
  {
  }

  lemma FinishKeepsItem(s: State, i: Id)
    requires HereOk(s) && i in s.items && ItemOk(s, i)
    ensures i in StoringStep(s, FinishReady).items && ItemOk(StoringStep(s, FinishReady), i)
  {
  }

  lemma PromoteKeepsItem(s: State, i: Id)
    requires HereOk(s) && i in s.items && ItemOk(s, i)
    ensures i in StoringStep(s, Promote).items && ItemOk(StoringStep(s, Promote), i)
  {
  }

  lemma StoringKeepsItem(s: State, op: CommitOp, i: Id)
    requires HereOk(s) && (i in s.items ==> ItemOk(s, i)) && i in StoringStep(s, op).items
    ensures ItemOk(StoringStep(s, op), i)
  {
    if op.Commit? {
      CommitKeepsItem(s, op.stored, i);
    } else if op.FinishReady? {
      FinishKeepsItem(s, i);
    } else if op.Promote? {
      PromoteKeepsItem(s, i);
    }
  }

  lemma StoringKeepsPosition(s: State, op: CommitOp)
    requires PayloadsOk(s)
    ensures PositionOk(StoringStep(s, op))
  {
    assert Holding(s) ==> ItemOk(s, s.at.item);
  }

  lemma StoringKeepsObject(s: State, op: CommitOp, o: Id)
    requires HereOk(s) && (o in s.objects ==> ObjectOk(s, o))
    ensures TablesMatch(StoringStep(s, op)) && (o in StoringStep(s, op).objects ==> ObjectOk(StoringStep(s, op), o))
  {
  }

  lemma StoringKeepsPayloads(s: State, op: CommitOp)
    requires PayloadsOk(s)
    ensures PayloadsOk(StoringStep(s, op))
  {
    PayloadsHere(s);
    var t := StoringStep(s, op);
    forall i | i in t.items ensures ItemOk(t, i) {
      assert i in s.items ==> ItemOk(s, i);
      StoringKeepsItem(s, op, i);
    }
    forall o ensures TablesMatch(t) && (o in t.objects ==> ObjectOk(t, o)) {
      assert o in s.objects ==> ObjectOk(s, o);
      StoringKeepsObject(s, op, o);
    }
    StoringKeepsPosition(s, op);
  }

  lemma RecommittingKeepsItem(s: State, op: ResumeOp, i: Id)
    requires HereOk(s) && (i in s.items ==> ItemOk(s, i)) && i in RecommittingStep(s, op).items
    ensures ItemOk(RecommittingStep(s, op), i)
  {
  }

  lemma RecommittingKeepsPosition(s: State, op: ResumeOp)
    requires PayloadsOk(s)
    ensures PositionOk(RecommittingStep(s, op))
  {
    assert Holding(s) ==> ItemOk(s, s.at.item);
  }

  lemma RecommittingKeepsObject(s: State, op: ResumeOp, o: Id)
    requires HereOk(s) && (o in s.objects ==> ObjectOk(s, o))
    ensures TablesMatch(RecommittingStep(s, op))
      && (o in RecommittingStep(s, op).objects ==> ObjectOk(RecommittingStep(s, op), o))
  {
  }

  lemma RecommittingKeepsPayloads(s: State, op: ResumeOp)
    requires PayloadsOk(s)
    ensures PayloadsOk(RecommittingStep(s, op))
  {
    PayloadsHere(s);
    var t := RecommittingStep(s, op);
    forall i | i in t.items ensures ItemOk(t, i) {
      assert i in s.items ==> ItemOk(s, i);
      RecommittingKeepsItem(s, op, i);
    }
    forall o ensures TablesMatch(t) && (o in t.objects ==> ObjectOk(t, o)) {
      assert o in s.objects ==> ObjectOk(s, o);
      RecommittingKeepsObject(s, op, o);
    }
    RecommittingKeepsPosition(s, op);
  }

  lemma GivingUpKeepsItem(s: State, op: FailOp, i: Id)
    requires HereOk(s) && (i in s.items ==> ItemOk(s, i)) && i in GivingUpStep(s, op).items
    ensures ItemOk(GivingUpStep(s, op), i)
  {
  }

  lemma GivingUpKeepsPosition(s: State, op: FailOp)
    requires PayloadsOk(s)
    ensures PositionOk(GivingUpStep(s, op))
  {
    assert Holding(s) ==> ItemOk(s, s.at.item);
  }

  lemma GivingUpKeepsObject(s: State, op: FailOp, o: Id)
    requires HereOk(s) && (o in s.objects ==> ObjectOk(s, o))
    ensures TablesMatch(GivingUpStep(s, op)) && (o in GivingUpStep(s, op).objects ==> ObjectOk(GivingUpStep(s, op), o))
  {
  }

  lemma GivingUpKeepsPayloads(s: State, op: FailOp)
    requires PayloadsOk(s)
    ensures PayloadsOk(GivingUpStep(s, op))
  {
    PayloadsHere(s);
    var t := GivingUpStep(s, op);
    forall i | i in t.items ensures ItemOk(t, i) {
      assert i in s.items ==> ItemOk(s, i);
      GivingUpKeepsItem(s, op, i);
    }
    forall o ensures TablesMatch(t) && (o in t.objects ==> ObjectOk(t, o)) {
      assert o in s.objects ==> ObjectOk(s, o);
      GivingUpKeepsObject(s, op, o);
    }
    GivingUpKeepsPosition(s, op);
  }

  lemma StepKeepsPayloads(s: State, op: Op)
    requires PayloadsOk(s)
    ensures PayloadsOk(Step(s, op))
  {
    PayloadsHere(s);
    match op {
      case Listing(o) => ListingKeepsPayloads(s, o);
      case Restoring(o) => RestoringKeepsPayloads(s, o);
      case Claiming(o) => ClaimingKeepsPayloads(s, o);
      case Fetching(o) => FetchingKeepsPayloads(s, o);
      case Storing(o) => StoringKeepsPayloads(s, o);
      case Recommitting(o) => RecommittingKeepsPayloads(s, o);
      case GivingUp(o) => GivingUpKeepsPayloads(s, o);
      case Crash =>
        forall i | i in s.items ensures ItemOk(s.(at := Idle), i) {
          assert ItemOk(s, i);
        }
        forall o | o in s.objects ensures ObjectOk(s.(at := Idle), o) {
          assert ObjectOk(s, o);
        }
    }
  }
}
