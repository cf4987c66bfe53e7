/** Listing a remote folder graph page by page into a queue, with a crash possible between any two
    transactions (src/google_drive.rs: list_one_page, record_remote, remember_folder, remember_file, start_run). */
module RemoteWalk {
  import opened Common

  type GoogleId = string

  datatype Mime = FolderMime | ShortcutMime | OtherMime
  datatype RemoteFile = RemoteFile(id: GoogleId, mime: Mime, target: Option<GoogleId>, targetIsFolder: bool)
  /** `next` is the continuation token; it names the following page of the same folder. */
  datatype Page = Page(files: seq<RemoteFile>, next: Option<string>)
  type Remote = map<GoogleId, seq<Page>>

  datatype Finding = FoundFolder(id: GoogleId) | FoundFile(id: GoogleId) | Ignored

  predicate IdChar(c: char) {
    'a' <= c <= 'z' || 'A' <= c <= 'Z' || '0' <= c <= '9' || c == '_' || c == '-'
  }

  /** The alias "root", which the source names separately, satisfies the general rule. */
  predicate ValidGoogleId(id: GoogleId) {
    1 <= |id| <= 128 && forall i :: 0 <= i < |id| ==> IdChar(id[i])
  }

  predicate ControlChar(c: char) {
    c < ' ' || '\U{7f}' <= c <= '\U{9f}'
  }

  /** The length in UTF-8, which is what the source measures. */
  function ByteLength(s: string): nat {
    if s == "" then 0
    else (if s[0] < '\U{80}' then 1 else if s[0] < '\U{800}' then 2
      else if s[0] < '\U{10000}' then 3 else 4) + ByteLength(s[1..])
  }

  predicate ValidPageToken(token: string) {
    1 <= ByteLength(token) <= 1024 && forall i :: 0 <= i < |token| ==> !ControlChar(token[i])
  }

  /** How one listed file is recorded: shortcuts count as their target, invalid ids are dropped. */
  function Classify(f: RemoteFile): Finding {
    if f.mime.ShortcutMime? then
      if f.target.Some? && ValidGoogleId(f.target.value) then
        if f.targetIsFolder then FoundFolder(f.target.value) else FoundFile(f.target.value)
      else Ignored
    else if f.mime.FolderMime? && ValidGoogleId(f.id) then FoundFolder(f.id)
    else if ValidGoogleId(f.id) then FoundFile(f.id)
    else Ignored
  }

  predicate Continues(p: Page) {
    p.next.Some? && ValidPageToken(p.next.value)
  }

  /** Every folder has a first page, and exactly a page with a token has a successor. */
  ghost predicate WellFormed(remote: Remote) {
    forall f :: f in remote ==>
      |remote[f]| > 0 && forall p :: 0 <= p < |remote[f]| ==> (remote[f][p].next.Some? <==> p + 1 < |remote[f]|)
  }

  /** A page the worker gets to: every earlier token of the folder is one it accepts. */
  ghost predicate Visible(remote: Remote, f: GoogleId, p: nat) {
    f in remote && p < |remote[f]| && forall q :: 0 <= q < p ==> Continues(remote[f][q])
  }

  ghost predicate ListsAt(remote: Remote, f: GoogleId, p: nat, k: nat, x: Finding) {
    Visible(remote, f, p) && k < |remote[f][p].files| && Classify(remote[f][p].files[k]) == x
  }

  ghost predicate Lists(remote: Remote, f: GoogleId, x: Finding) {
    exists p, k :: ListsAt(remote, f, p, k, x)
  }

  ghost predicate Trail(remote: Remote, trail: seq<GoogleId>) {
    |trail| > 0 && forall i {:trigger trail[i]} :: 0 <= i < |trail| - 1 ==> LinksOn(remote, trail, i)
  }

  ghost predicate LinksOn(remote: Remote, trail: seq<GoogleId>, i: nat)
    requires i + 1 < |trail|
  {
    Lists(remote, trail[i], FoundFolder(trail[i + 1]))
  }

  /** Reachable from the selected folder through child and shortcut edges. */
  ghost predicate Reachable(remote: Remote, root: GoogleId, f: GoogleId) {
    exists trail :: Trail(remote, trail) && trail[0] == root && trail[|trail| - 1] == f
  }

  lemma ReachableRoot(remote: Remote, root: GoogleId)
    ensures Reachable(remote, root, root)
  {
    assert Trail(remote, [root]);
  }

  lemma ReachableStep(remote: Remote, root: GoogleId, f: GoogleId, g: GoogleId)
    requires Reachable(remote, root, f) && Lists(remote, f, FoundFolder(g))
    ensures Reachable(remote, root, g)
  {
    var t :| Trail(remote, t) && t[0] == root && t[|t| - 1] == f;
    var u := t + [g];
    forall i | 0 <= i < |u| - 1 ensures LinksOn(remote, u, i) {
      if i < |t| - 1 {
        assert LinksOn(remote, t, i);
      }
    }
    assert Trail(remote, u);
  }

  /** A set holding the root and closed under listed folders holds everything reachable. */
  lemma {:induction false} ClosedHoldsTrail(remote: Remote, s: set<GoogleId>, trail: seq<GoogleId>)
    requires Trail(remote, trail) && trail[0] in s
    requires forall f, g :: f in s && Lists(remote, f, FoundFolder(g)) ==> g in s
    ensures trail[|trail| - 1] in s
    decreases |trail|
  {
    if |trail| > 1 {
      assert LinksOn(remote, trail, 0);
      var rest := trail[1..];
      forall i | 0 <= i < |rest| - 1 ensures LinksOn(remote, rest, i) {
        assert LinksOn(remote, trail, i + 1);
      }
      ClosedHoldsTrail(remote, s, rest);
    }
  }

  // ----- the run's tables and the worker's position

  datatype Row = Row(page: nat, done: bool)
  datatype Cursor = Idle | Reading(folder: GoogleId, page: nat, next: nat)
  datatype Walk = Walk(queue: map<GoogleId, Row>, items: set<GoogleId>, folders: nat, files: nat, at: Cursor)

  datatype Op = Fetch(folder: GoogleId) | RecordNext | CompletePage | Crash

  function Started(root: GoogleId): Walk {
    Walk(map[root := Row(0, false)], {}, 0, 0, Idle)
  }

  /** `remember_folder` and `remember_file`: insert unless present, and count only what was inserted. */
  function Remember(w: Walk, x: Finding): Walk {
    match x
    case Ignored => w
    case FoundFolder(g) =>
      if g in w.queue then w else w.(queue := w.queue[g := Row(0, false)], folders := w.folders + 1)
    case FoundFile(g) => if g in w.items then w else w.(items := w.items + {g}, files := w.files + 1)
  }

  /** The file under the cursor. */
  function Current(remote: Remote, w: Walk): Finding
    requires CanRecord(remote, w)
  {
    Classify(remote[w.at.folder][w.at.page].files[w.at.next])
  }

  /** One atomic step; an operation that does not apply changes nothing.  A crash loses only the position. */
  function Step(remote: Remote, w: Walk, op: Op): Walk {
    match op
    case Fetch(f) =>
      if w.at.Idle? && f in w.queue && !w.queue[f].done && f in remote && w.queue[f].page < |remote[f]|
      then w.(at := Reading(f, w.queue[f].page, 0)) else w
    case RecordNext =>
      if CanRecord(remote, w) then Remember(w, Current(remote, w)).(at := w.at.(next := w.at.next + 1)) else w
    case CompletePage =>
      if w.at.Reading? && w.at.folder in remote && w.at.page < |remote[w.at.folder]|
        && w.at.next == |remote[w.at.folder][w.at.page].files|
      then
        var row := if Continues(remote[w.at.folder][w.at.page])
          then Row(w.at.page + 1, false) else Row(w.at.page, true);
        w.(queue := w.queue[w.at.folder := row], at := Idle)
      else w
    case Crash => w.(at := Idle)
  }

  predicate CanRecord(remote: Remote, w: Walk) {
    w.at.Reading? && w.at.folder in remote && w.at.page < |remote[w.at.folder]|
      && w.at.next < |remote[w.at.folder][w.at.page].files|
  }

  function Run(remote: Remote, w: Walk, ops: seq<Op>): Walk {
    if ops == [] then w else Step(remote, Run(remote, w, ops[..|ops| - 1]), ops[|ops| - 1])
  }

  // ----- the invariant

  ghost predicate Recorded(w: Walk, x: Finding) {
    match x
    case Ignored => true
    case FoundFolder(g) => g in w.queue
    case FoundFile(g) => g in w.items
  }

  ghost predicate PageRecorded(remote: Remote, w: Walk, f: GoogleId, p: nat, upTo: nat)
    requires f in remote && p < |remote[f]|
  {
    forall k :: 0 <= k < upTo && k < |remote[f][p].files| ==> Recorded(w, Classify(remote[f][p].files[k]))
  }

  /** What a queue row promises: the pages before it, and the whole folder once done, are recorded. */
  ghost predicate RowOk(remote: Remote, w: Walk, f: GoogleId)
    requires f in w.queue
  {
    var row := w.queue[f];
    && (f in remote ==> Visible(remote, f, row.page))
    && (row.done || row.page > 0 ==> f in remote)
    && (f in remote ==> forall p :: 0 <= p < row.page ==> PageRecorded(remote, w, f, p, |remote[f][p].files|))
    && (row.done ==>
      !Continues(remote[f][row.page]) && PageRecorded(remote, w, f, row.page, |remote[f][row.page].files|))
  }

  ghost predicate CursorOk(remote: Remote, w: Walk) {
    w.at.Reading? ==>
      var Reading(f, p, k) := w.at;
      f in w.queue && w.queue[f] == Row(p, false) && Visible(remote, f, p)
        && k <= |remote[f][p].files| && PageRecorded(remote, w, f, p, k)
  }

  ghost predicate ListedFile(remote: Remote, root: GoogleId, g: GoogleId) {
    exists f :: Reachable(remote, root, f) && Lists(remote, f, FoundFile(g))
  }

  ghost predicate TablesOk(remote: Remote, root: GoogleId, w: Walk) {
    && root in w.queue
    && (forall f {:trigger RowOk(remote, w, f)} :: f in w.queue ==> RowOk(remote, w, f))
    && (forall f :: f in w.queue ==> Reachable(remote, root, f))
    && (forall g :: g in w.items ==> ListedFile(remote, root, g))
    && w.folders == |w.queue| - 1 && w.files == |w.items|
  }

  ghost predicate Inv(remote: Remote, root: GoogleId, w: Walk) {
    TablesOk(remote, root, w) && CursorOk(remote, w)
  }

  lemma StartedInv(remote: Remote, root: GoogleId)
    requires WellFormed(remote)
    ensures Inv(remote, root, Started(root))
  {
    ReachableRoot(remote, root);
    assert RowOk(remote, Started(root), root);
  }

  ghost predicate Grows(w: Walk, w': Walk) {
    forall x :: Recorded(w, x) ==> Recorded(w', x)
  }

  lemma PageRecordedGrows(remote: Remote, w: Walk, w': Walk, f: GoogleId, p: nat, k: nat)
    requires f in remote && p < |remote[f]| && PageRecorded(remote, w, f, p, k) && Grows(w, w')
    ensures PageRecorded(remote, w', f, p, k)
  {
  }

  lemma RowOkGrows(remote: Remote, w: Walk, w': Walk, f: GoogleId)
    requires f in w.queue && RowOk(remote, w, f) && f in w'.queue && w'.queue[f] == w.queue[f] && Grows(w, w')
    ensures RowOk(remote, w', f)
  {
  }

  lemma RememberFolder(remote: Remote, root: GoogleId, w: Walk, f: GoogleId, g: GoogleId)
    requires WellFormed(remote) && TablesOk(remote, root, w) && f in w.queue
      && g !in w.queue && Lists(remote, f, FoundFolder(g))
    ensures TablesOk(remote, root, Remember(w, FoundFolder(g))) && Grows(w, Remember(w, FoundFolder(g)))
  {
    var w' := Remember(w, FoundFolder(g));
    ReachableStep(remote, root, f, g);
    assert Grows(w, w');
    forall h | h in w'.queue ensures RowOk(remote, w', h) {
      if h != g {
        assert RowOk(remote, w, h);
        RowOkGrows(remote, w, w', h);
      }
    }
  }

  lemma RememberFile(remote: Remote, root: GoogleId, w: Walk, f: GoogleId, g: GoogleId)
    requires TablesOk(remote, root, w) && f in w.queue && g !in w.items && Lists(remote, f, FoundFile(g))
    ensures TablesOk(remote, root, Remember(w, FoundFile(g))) && Grows(w, Remember(w, FoundFile(g)))
  {
    var w' := Remember(w, FoundFile(g));
    assert Grows(w, w');
    forall h | h in w'.queue ensures RowOk(remote, w', h) {
      assert RowOk(remote, w, h);
      RowOkGrows(remote, w, w', h);
    }
    assert ListedFile(remote, root, g);
  }

  lemma RememberKeepsTables(remote: Remote, root: GoogleId, w: Walk, f: GoogleId, x: Finding)
    requires WellFormed(remote) && TablesOk(remote, root, w) && f in w.queue && Lists(remote, f, x)
    ensures TablesOk(remote, root, Remember(w, x)) && Grows(w, Remember(w, x)) && Recorded(Remember(w, x), x)
  {
    match x {
      case Ignored =>
      case FoundFolder(g) => if g !in w.queue { RememberFolder(remote, root, w, f, g); }
      case FoundFile(g) => if g !in w.items { RememberFile(remote, root, w, f, g); }
    }
  }

  lemma CursorIrrelevant(remote: Remote, root: GoogleId, w: Walk, at: Cursor)
    requires TablesOk(remote, root, w)
    ensures TablesOk(remote, root, w.(at := at)) && Grows(w, w.(at := at))
  {
    forall f | f in w.queue ensures RowOk(remote, w.(at := at), f) {
      assert RowOk(remote, w, f);
      RowOkGrows(remote, w, w.(at := at), f);
    }
  }

  /** Recording file `k` of the page extends what is recorded of it. */
  lemma PageRecordedNext(remote: Remote, w: Walk, w': Walk, f: GoogleId, p: nat, k: nat)
    requires f in remote && p < |remote[f]| && PageRecorded(remote, w, f, p, k)
      && Grows(w, w') && k < |remote[f][p].files|
    requires Recorded(w', Classify(remote[f][p].files[k]))
    ensures PageRecorded(remote, w', f, p, k + 1)
  {
  }

  lemma RecordKeepsInv(remote: Remote, root: GoogleId, w: Walk)
    requires WellFormed(remote) && Inv(remote, root, w) && CanRecord(remote, w)
    ensures Inv(remote, root, Remember(w, Current(remote, w)).(at := w.at.(next := w.at.next + 1)))
  {
    var Reading(f, p, k) := w.at;
    var x, at := Current(remote, w), Reading(f, p, k + 1);
    assert ListsAt(remote, f, p, k, x);
    RememberKeepsTables(remote, root, w, f, x);
    CursorIrrelevant(remote, root, Remember(w, x), at);
    RecordCursor(remote, w, x);
  }

  lemma RecordCursor(remote: Remote, w: Walk, x: Finding)
    requires CursorOk(remote, w) && CanRecord(remote, w) && x == Current(remote, w)
    requires Grows(w, Remember(w, x)) && Recorded(Remember(w, x), x)
    ensures CursorOk(remote, Remember(w, x).(at := w.at.(next := w.at.next + 1)))
  {
    var Reading(f, p, k) := w.at;
    var w' := Remember(w, x).(at := w.at.(next := w.at.next + 1));
    assert forall y :: Recorded(Remember(w, x), y) ==> Recorded(w', y);
    PageRecordedNext(remote, w, w', f, p, k);
  }

  lemma CompletedRow(remote: Remote, w: Walk, w': Walk)
    requires WellFormed(remote) && CursorOk(remote, w) && w.at.Reading? && RowOk(remote, w, w.at.folder)
    requires w' == Step(remote, w, CompletePage) && w' != w && Grows(w, w')
    ensures RowOk(remote, w', w.at.folder)
  {
    var Reading(f, p, k) := w.at;
    PageRecordedGrows(remote, w, w', f, p, k);
    forall q | 0 <= q < p ensures PageRecorded(remote, w', f, q, |remote[f][q].files|) {
      PageRecordedGrows(remote, w, w', f, q, |remote[f][q].files|);
    }
  }

  lemma CompleteKeepsInv(remote: Remote, root: GoogleId, w: Walk)
    requires WellFormed(remote) && Inv(remote, root, w) && Step(remote, w, CompletePage) != w
    ensures Inv(remote, root, Step(remote, w, CompletePage))
  {
    var w' := Step(remote, w, CompletePage);
    assert w'.queue.Keys == w.queue.Keys && |w'.queue.Keys| == |w'.queue| && |w.queue.Keys| == |w.queue|;
    assert Grows(w, w');
    forall g | g in w'.queue ensures RowOk(remote, w', g) {
      assert RowOk(remote, w, g);
      if g != w.at.folder {
        RowOkGrows(remote, w, w', g);
      } else {
        CompletedRow(remote, w, w');
      }
    }
  }

  lemma StepKeepsInv(remote: Remote, root: GoogleId, w: Walk, op: Op)
    requires WellFormed(remote) && Inv(remote, root, w)
    ensures Inv(remote, root, Step(remote, w, op))
  {
    if Step(remote, w, op) != w {
      match op {
        case RecordNext => RecordKeepsInv(remote, root, w);
        case CompletePage => CompleteKeepsInv(remote, root, w);
        case Crash => CursorIrrelevant(remote, root, w, Idle);
        case Fetch(f) =>
          assert RowOk(remote, w, f);
          CursorIrrelevant(remote, root, w, Reading(f, w.queue[f].page, 0));
      }
    }
  }

  lemma {:induction false} RunKeepsInv(remote: Remote, root: GoogleId, ops: seq<Op>)
    requires WellFormed(remote)
    ensures Inv(remote, root, Run(remote, Started(root), ops))
  {
    if ops == [] {
      StartedInv(remote, root);
    } else {
      RunKeepsInv(remote, root, ops[..|ops| - 1]);
      StepKeepsInv(remote, root, Run(remote, Started(root), ops[..|ops| - 1]), ops[|ops| - 1]);
    }
  }

  // ----- a drained queue is the reachable graph

  ghost predicate Drained(w: Walk) {
    forall f :: f in w.queue ==> w.queue[f].done
  }

  lemma LastVisible(remote: Remote, f: GoogleId, last: nat, p: nat)
    requires Visible(remote, f, last) && !Continues(remote[f][last]) && Visible(remote, f, p)
    ensures p <= last
  {
  }

  lemma DoneRecordsAll(remote: Remote, root: GoogleId, w: Walk, f: GoogleId, x: Finding)
    requires Inv(remote, root, w) && f in w.queue && w.queue[f].done && Lists(remote, f, x)
    ensures Recorded(w, x)
  {
    assert RowOk(remote, w, f);
    var p: nat, k: nat :| ListsAt(remote, f, p, k, x);
    LastVisible(remote, f, w.queue[f].page, p);
    assert PageRecorded(remote, w, f, p, |remote[f][p].files|);
  }

  /** Over every run, with crashes and pages read again: once the queue has drained, the queued folders are
      exactly the reachable ones, the items exactly the files they list, and both counters are exact. */
  lemma DrainedIsExact(remote: Remote, root: GoogleId, ops: seq<Op>)
    requires WellFormed(remote) && Drained(Run(remote, Started(root), ops))
    ensures var w := Run(remote, Started(root), ops);
            && (forall f :: f in w.queue <==> Reachable(remote, root, f))
            && (forall g :: g in w.items <==> ListedFile(remote, root, g))
            && w.folders == |w.queue| - 1 && w.files == |w.items|
  {
    var w := Run(remote, Started(root), ops);
    RunKeepsInv(remote, root, ops);
    forall f, x | f in w.queue && Lists(remote, f, x) ensures Recorded(w, x) {
      DoneRecordsAll(remote, root, w, f, x);
    }
    forall f | Reachable(remote, root, f) ensures f in w.queue {
      var t :| Trail(remote, t) && t[0] == root && t[|t| - 1] == f;
      forall a, b | a in w.queue.Keys && Lists(remote, a, FoundFolder(b)) ensures b in w.queue.Keys {
        assert Recorded(w, FoundFolder(b));
      }
      ClosedHoldsTrail(remote, w.queue.Keys, t);
    }
    forall g | ListedFile(remote, root, g) ensures g in w.items {
      var f :| Reachable(remote, root, f) && Lists(remote, f, FoundFile(g));
      assert Recorded(w, FoundFile(g));
    }
  }

  // ----- the whole folder graph, refused tokens or not

  ghost predicate HoldsAt(remote: Remote, f: GoogleId, p: nat, k: nat, x: Finding) {
    f in remote && p < |remote[f]| && k < |remote[f][p].files| && Classify(remote[f][p].files[k]) == x
  }

  /** Some page of the folder holds it. */
  ghost predicate Contains(remote: Remote, f: GoogleId, x: Finding) {
    exists p, k :: HoldsAt(remote, f, p, k, x)
  }

  ghost predicate Path(remote: Remote, path: seq<GoogleId>) {
    |path| > 0 && forall i {:trigger path[i]} :: 0 <= i < |path| - 1 ==> Edge(remote, path, i)
  }

  ghost predicate Edge(remote: Remote, path: seq<GoogleId>, i: nat)
    requires i + 1 < |path|
  {
    Contains(remote, path[i], FoundFolder(path[i + 1]))
  }

  /** Reachable through child and shortcut edges on any page. */
  ghost predicate Connected(remote: Remote, root: GoogleId, f: GoogleId) {
    exists path :: Path(remote, path) && path[0] == root && path[|path| - 1] == f
  }

  ghost predicate HasFile(remote: Remote, root: GoogleId, g: GoogleId) {
    exists f :: Connected(remote, root, f) && Contains(remote, f, FoundFile(g))
  }

  /** The folder sends no token that the worker refuses. */
  ghost predicate Accepted(remote: Remote, f: GoogleId) {
    f in remote ==> forall p :: 0 <= p < |remote[f]| && remote[f][p].next.Some? ==>
      ValidPageToken(remote[f][p].next.value)
  }

  ghost predicate AllAccepted(remote: Remote, root: GoogleId) {
    forall f :: Connected(remote, root, f) ==> Accepted(remote, f)
  }

  lemma ListsIsContains(remote: Remote, f: GoogleId, x: Finding)
    requires WellFormed(remote)
    ensures Lists(remote, f, x) ==> Contains(remote, f, x)
    ensures Accepted(remote, f) && Contains(remote, f, x) ==> Lists(remote, f, x)
  {
    if Lists(remote, f, x) {
      var p: nat, k: nat :| ListsAt(remote, f, p, k, x);
      assert HoldsAt(remote, f, p, k, x);
    }
    if Accepted(remote, f) && Contains(remote, f, x) {
      var p: nat, k: nat :| HoldsAt(remote, f, p, k, x);
      assert ListsAt(remote, f, p, k, x);
    }
  }

  lemma ReachableIsConnected(remote: Remote, root: GoogleId, f: GoogleId)
    requires WellFormed(remote) && Reachable(remote, root, f)
    ensures Connected(remote, root, f)
  {
    var trail :| Trail(remote, trail) && trail[0] == root && trail[|trail| - 1] == f;
    forall i | 0 <= i < |trail| - 1 ensures Edge(remote, trail, i) {
      assert LinksOn(remote, trail, i);
      ListsIsContains(remote, trail[i], FoundFolder(trail[i + 1]));
    }
    assert Path(remote, trail);
  }

  /** A path whose folders, as far as the worker reaches them, send no refused token is one the worker can follow. */
  lemma {:induction false} PathIsFollowed(remote: Remote, root: GoogleId, path: seq<GoogleId>)
    requires WellFormed(remote) && Path(remote, path) && path[0] == root
    requires forall f :: Reachable(remote, root, f) ==> Accepted(remote, f)
    ensures Reachable(remote, root, path[|path| - 1])
  {
    var n := |path| - 1;
    if n == 0 {
      ReachableRoot(remote, root);
    } else {
      var front := path[..n];
      assert Path(remote, front) by {
        forall i | 0 <= i < n - 1 ensures Edge(remote, front, i) {
          assert Edge(remote, path, i);
        }
      }
      PathIsFollowed(remote, root, front);
      assert Edge(remote, path, n - 1);
      ListsIsContains(remote, path[n - 1], FoundFolder(path[n]));
      ReachableStep(remote, root, path[n - 1], path[n]);
    }
  }

  /** When no folder the worker reaches sends a refused token, it reaches all there are. */
  lemma AcceptedReachesAll(remote: Remote, root: GoogleId)
    requires WellFormed(remote) && forall f :: Reachable(remote, root, f) ==> Accepted(remote, f)
    ensures forall f :: Connected(remote, root, f) <==> Reachable(remote, root, f)
    ensures forall g :: HasFile(remote, root, g) <==> ListedFile(remote, root, g)
  {
    forall f ensures Connected(remote, root, f) <==> Reachable(remote, root, f) {
      if Connected(remote, root, f) {
        var path :| Path(remote, path) && path[0] == root && path[|path| - 1] == f;
        PathIsFollowed(remote, root, path);
      }
      if Reachable(remote, root, f) {
        ReachableIsConnected(remote, root, f);
      }
    }
    forall g ensures HasFile(remote, root, g) <==> ListedFile(remote, root, g) {
      forall f ensures Reachable(remote, root, f) ==>
        (Contains(remote, f, FoundFile(g)) <==> Lists(remote, f, FoundFile(g))) {
        ListsIsContains(remote, f, FoundFile(g));
      }
    }
  }

  /** Completeness of every drained run: with no refused token in the graph, the queue is exactly the folders connected
      to the selected one and the items exactly their files, over all pages. */
  lemma DrainedIsComplete(remote: Remote, root: GoogleId, ops: seq<Op>)
    requires WellFormed(remote) && Drained(Run(remote, Started(root), ops)) && AllAccepted(remote, root)
    ensures var w := Run(remote, Started(root), ops);
            && (forall f :: f in w.queue <==> Connected(remote, root, f))
            && (forall g :: g in w.items <==> HasFile(remote, root, g))
  {
    DrainedIsExact(remote, root, ops);
    forall f | Reachable(remote, root, f) ensures Accepted(remote, f) {
      ReachableIsConnected(remote, root, f);
    }
    AcceptedReachesAll(remote, root);
  }

  /** The worker has read every page of every folder in its queue. */
  ghost predicate ReadWhole(remote: Remote, w: Walk) {
    forall f :: f in w.queue ==> f in remote && w.queue[f].page == |remote[f]| - 1
  }

  lemma ReadWholeFolder(remote: Remote, root: GoogleId, w: Walk, f: GoogleId)
    requires WellFormed(remote) && Inv(remote, root, w) && f in w.queue && w.queue[f].done
    ensures f in remote && (w.queue[f].page == |remote[f]| - 1 <==> Accepted(remote, f))
  {
    assert RowOk(remote, w, f);
    var last := w.queue[f].page;
    if last == |remote[f]| - 1 {
      assert forall p :: 0 <= p < last ==> Continues(remote[f][p]);
    }
  }

  /** And only then: a drained run has read every page of its folders exactly when the graph, over all pages, holds no
      refused token. */
  lemma ReadWholeIff(remote: Remote, root: GoogleId, ops: seq<Op>)
    requires WellFormed(remote) && Drained(Run(remote, Started(root), ops))
    ensures ReadWhole(remote, Run(remote, Started(root), ops)) <==> AllAccepted(remote, root)
  {
    var w := Run(remote, Started(root), ops);
    RunKeepsInv(remote, root, ops);
    DrainedIsExact(remote, root, ops);
    forall f | f in w.queue ensures f in remote && (w.queue[f].page == |remote[f]| - 1 <==> Accepted(remote, f)) {
      ReadWholeFolder(remote, root, w, f);
    }
    if ReadWhole(remote, w) {
      AcceptedReachesAll(remote, root);
    } else if AllAccepted(remote, root) {
      DrainedIsComplete(remote, root, ops);
    }
  }

  /** Any refused token loses pages: a folder of two pages is drained after the first, and the file on the second is
      never recorded. */
  lemma RefusedTokenLosesFile(token: string) returns (remote: Remote, ops: seq<Op>)
    requires !ValidPageToken(token)
    ensures WellFormed(remote) && Drained(Run(remote, Started("a"), ops))
    ensures HasFile(remote, "a", "b") && "b" !in Run(remote, Started("a"), ops).items
  {
    var lost := RemoteFile("b", OtherMime, None, false);
    remote := map["a" := [Page([], Some(token)), Page([lost], None)]];
    ops := [Fetch("a"), CompletePage];
    assert ops[..1] == [Fetch("a")] && ops[..1][..0] == [];
    var w := Started("a");
    assert Run(remote, w, ops[..1]) == Step(remote, w, Fetch("a"));
    assert Run(remote, w, ops) == Step(remote, Step(remote, w, Fetch("a")), CompletePage);
    assert Path(remote, ["a"]) && ["a"][0] == "a";
    assert Connected(remote, "a", "a");
    assert HoldsAt(remote, "a", 1, 0, FoundFile("b"));
    assert Contains(remote, "a", FoundFile("b"));
  }

  // ----- draining terminates

  /** Pages not yet completed. */
  ghost function Todo(remote: Remote, w: Walk): set<(GoogleId, nat)> {
    set f, p | f in remote && 0 <= p < |remote[f]|
      && !(f in w.queue && (p < w.queue[f].page || w.queue[f].done)) :: (f, p)
  }

  lemma RememberKeepsTodo(remote: Remote, w: Walk, x: Finding)
    ensures Todo(remote, Remember(w, x)) == Todo(remote, w)
  {
  }

  /** Completing a page shrinks the work that is left. */
  lemma CompleteShrinksTodo(remote: Remote, root: GoogleId, w: Walk)
    requires Inv(remote, root, w) && w.at.Reading? && Step(remote, w, CompletePage) != w
    ensures Todo(remote, Step(remote, w, CompletePage)) < Todo(remote, w)
  {
    var Reading(f, p, k) := w.at;
    assert (f, p) in Todo(remote, w);
    assert (f, p) !in Todo(remote, Step(remote, w, CompletePage));
  }

  /** The walk so far, as a run; rows of folders the remote does not answer for stay at their first page. */
  ghost predicate AtWork(remote: Remote, root: GoogleId, w: Walk, ops: seq<Op>) {
    w == Run(remote, Started(root), ops) && Inv(remote, root, w)
  }

  lemma WorkOn(remote: Remote, root: GoogleId, w: Walk, ops: seq<Op>, op: Op)
    requires WellFormed(remote) && AtWork(remote, root, w, ops)
    ensures AtWork(remote, root, Step(remote, w, op), ops + [op])
  {
    StepKeepsInv(remote, root, w, op);
    RunAppend(remote, root, ops, op);
  }

  /** Files of the current page still to record. */
  function Left(remote: Remote, w: Walk): nat {
    if CanRecord(remote, w) then |remote[w.at.folder][w.at.page].files| - w.at.next else 0
  }

  lemma FetchTurn(remote: Remote, root: GoogleId, w: Walk, ops: seq<Op>, f: GoogleId)
    requires WellFormed(remote) && AtWork(remote, root, w, ops) && w.at.Idle?
      && f in w.queue && !w.queue[f].done && f in remote
    ensures AtWork(remote, root, Step(remote, w, Fetch(f)), ops + [Fetch(f)])
    ensures Step(remote, w, Fetch(f)).at.Reading? && Todo(remote, Step(remote, w, Fetch(f))) == Todo(remote, w)
  {
    assert RowOk(remote, w, f);
    WorkOn(remote, root, w, ops, Fetch(f));
  }

  lemma RecordTurn(remote: Remote, root: GoogleId, w: Walk, ops: seq<Op>)
    requires WellFormed(remote) && AtWork(remote, root, w, ops) && CanRecord(remote, w)
    ensures AtWork(remote, root, Step(remote, w, RecordNext), ops + [RecordNext])
    ensures Step(remote, w, RecordNext).at.Reading? && Todo(remote, Step(remote, w, RecordNext)) == Todo(remote, w)
    ensures Left(remote, Step(remote, w, RecordNext)) < Left(remote, w)
  {
    WorkOn(remote, root, w, ops, RecordNext);
    RememberKeepsTodo(remote, w, Current(remote, w));
  }

  lemma CompleteTurn(remote: Remote, root: GoogleId, w: Walk, ops: seq<Op>)
    requires WellFormed(remote) && AtWork(remote, root, w, ops) && w.at.Reading? && !CanRecord(remote, w)
    ensures AtWork(remote, root, Step(remote, w, CompletePage), ops + [CompletePage])
    ensures Step(remote, w, CompletePage).at.Idle? && Todo(remote, Step(remote, w, CompletePage)) < Todo(remote, w)
  {
    WorkOn(remote, root, w, ops, CompletePage);
    CompleteShrinksTodo(remote, root, w);
  }

  /** Reads one whole page of a pending folder. A folder the remote does not answer for stays pending. */
  method ListOnePage(remote: Remote, root: GoogleId, start: Walk, f: GoogleId, ghost before: seq<Op>)
    returns (answered: bool, w: Walk, ghost ops: seq<Op>)
    requires WellFormed(remote) && AtWork(remote, root, start, before)
    requires start.at.Idle? && f in start.queue && !start.queue[f].done
    ensures AtWork(remote, root, w, ops) && w.at.Idle? && (answered <==> f in remote)
    ensures if answered then Todo(remote, w) < Todo(remote, start) else w == start
  {
    if f !in remote {
      return false, start, before;
    }
    FetchTurn(remote, root, start, before, f);
    w, ops := Step(remote, start, Fetch(f)), before + [Fetch(f)];
    while CanRecord(remote, w)
      invariant AtWork(remote, root, w, ops) && w.at.Reading?
      invariant Todo(remote, w) == Todo(remote, start)
      decreases Left(remote, w)
    {
      RecordTurn(remote, root, w, ops);
      w, ops := Step(remote, w, RecordNext), ops + [RecordNext];
    }
    CompleteTurn(remote, root, w, ops);
    w, ops := Step(remote, w, CompletePage), ops + [CompletePage];
    answered := true;
  }

  /** The worker left alone: it reads pages until none is pending, cycles or not, or until a folder is not answered for.
      It drains the queue exactly when the remote answers for every folder it reaches. */
  method ListAll(remote: Remote, root: GoogleId) returns (missing: Option<GoogleId>, w: Walk, ghost ops: seq<Op>)
    requires WellFormed(remote)
    ensures w == Run(remote, Started(root), ops)
    ensures missing.None? ==> Drained(w)
    ensures missing.Some? ==> Reachable(remote, root, missing.value) && missing.value !in remote
    ensures missing.None? <==> forall f :: Reachable(remote, root, f) ==> f in remote
  {
    w, ops := Started(root), [];
    StartedInv(remote, root);
    while exists f :: f in w.queue && !w.queue[f].done
      invariant AtWork(remote, root, w, ops) && w.at.Idle?
      decreases Todo(remote, w)
    {
      var f: GoogleId :| f in w.queue && !w.queue[f].done;
      var answered;
      answered, w, ops := ListOnePage(remote, root, w, f, ops);
      if !answered {
        return Some(f), w, ops;
      }
    }
    missing := None;
    DrainedIsExact(remote, root, ops);
    forall f | Reachable(remote, root, f) ensures f in remote {
      assert RowOk(remote, w, f);
    }
  }

  lemma RunAppend(remote: Remote, root: GoogleId, ops: seq<Op>, op: Op)
    ensures Run(remote, Started(root), ops + [op]) == Step(remote, Run(remote, Started(root), ops), op)
  {
    assert (ops + [op])[..|ops|] == ops;
  }
}
