/** Validating and extracting the storage archive of a backup (scripts/storage_archive.py:98-183). */
module Archive {
  import opened Common
  import opened ArchivePath

  type Byte = b: nat | b < 256

  const CHUNK: nat := 1024 * 1024

  /** A tar member; `data` is what reading it yields. */
  datatype Member = Member(name: string, kind: MemberType, size: int, data: seq<Byte>)
  datatype Node = Dir | File(data: seq<Byte>)
  datatype Entry = Entry(path: Path, node: Node)

  // ----- what a good stream is

  predicate Named(m: Member, roots: set<string>) {
    MemberPath(m.name, m.kind, m.size, roots).Some?
  }

  function EntryOf(m: Member, roots: set<string>): (e: Entry)
    requires Named(m, roots)
    ensures |e.path| > 0
  {
    Entry(MemberPath(m.name, m.kind, m.size, roots).value, if m.kind.Directory? then Dir else File(m.data))
  }

  /** A later member neither repeats nor contains an earlier path, and no earlier file is in its way. */
  predicate Compatible(earlier: Entry, later: Entry) {
    !(later.path <= earlier.path) && (earlier.node.File? ==> !(earlier.path <= later.path))
  }

  predicate Whole(m: Member) {
    m.kind.Regular? ==> |m.data| == m.size
  }

  ghost predicate MembersOk(ms: seq<Member>, roots: set<string>) {
    forall i :: 0 <= i < |ms| ==> Named(ms[i], roots) && Whole(ms[i])
  }

  ghost predicate Acceptable(ms: seq<Member>, roots: set<string>) {
    && MembersOk(ms, roots)
    && (forall i, j :: 0 <= i < j < |ms| ==> Compatible(EntryOf(ms[i], roots), EntryOf(ms[j], roots)))
    && (forall r :: r in roots - OPTIONAL_ROOTS ==> exists i :: 0 <= i < |ms| && EntryOf(ms[i], roots).path == [r])
  }

  function FileBytes(ms: seq<Member>): int {
    if ms == [] then 0
    else FileBytes(ms[..|ms| - 1]) + (if ms[|ms| - 1].kind.Regular? then ms[|ms| - 1].size else 0)
  }

  predicate Under(p: Path, path: Path) {
    p != [] && p <= path
  }

  ghost predicate Covered(es: seq<Entry>, p: Path) {
    exists i :: 0 <= i < |es| && Under(p, es[i].path)
  }

  ghost predicate Recorded(es: seq<Entry>, t: map<Path, Node>, i: nat)
    requires i < |es|
  {
    es[i].path in t && t[es[i].path] == es[i].node
  }

  ghost predicate FromEntry(es: seq<Entry>, t: map<Path, Node>, p: Path)
    requires p in t
  {
    t[p].File? ==> Entry(p, t[p]) in es
  }

  /** The tree a list of entries describes: exactly their paths and the directories above them. */
  ghost predicate IsTree(es: seq<Entry>, t: map<Path, Node>) {
    && (forall p {:trigger Covered(es, p)} :: p in t <==> Covered(es, p))
    && (forall i {:trigger Recorded(es, t, i)} :: 0 <= i < |es| ==> Recorded(es, t, i))
    && (forall p {:trigger FromEntry(es, t, p)} :: p in t ==> FromEntry(es, t, p))
  }

  // ----- growing a tree

  /** The first `k` ancestors of a path, added where they are missing. */
  function AddDirs<V>(t: map<Path, V>, path: Path, k: nat, dir: V): map<Path, V>
    requires k <= |path|
  {
    if k == 0 then t
    else
      var u := AddDirs(t, path, k - 1, dir);
      if path[..k] in u then u else u[path[..k] := dir]
  }

  lemma {:induction false} AddDirsAt<V>(t: map<Path, V>, path: Path, k: nat, dir: V, p: Path)
    requires k <= |path|
    ensures p in AddDirs(t, path, k, dir) <==> p in t || (Under(p, path) && |p| <= k)
    ensures p in AddDirs(t, path, k, dir) ==> AddDirs(t, path, k, dir)[p] == if p in t then t[p] else dir
  {
    if k > 0 {
      AddDirsAt(t, path, k - 1, dir, p);
      AddDirsAt(t, path, k - 1, dir, path[..k]);
      if Under(p, path) && |p| == k {
        assert p == path[..k];
      }
    }
  }

  lemma {:induction false} AddDirsPrefix(t: map<Path, Node>, path: Path, m: nat, k: nat)
    requires k <= m <= |path|
    ensures AddDirs(t, path[..m], k, Dir) == AddDirs(t, path, k, Dir)
  {
    if k > 0 {
      AddDirsPrefix(t, path, m, k - 1);
      assert path[..m][..k] == path[..k];
    }
  }

  function Grown(t: map<Path, Node>, e: Entry): map<Path, Node>
    requires |e.path| > 0
  {
    AddDirs(t, e.path, |e.path| - 1, Dir)[e.path := e.node]
  }

  /** What `seen` holds: for each path whether it is a file. */
  ghost function Kinds(t: map<Path, Node>): map<Path, bool> {
    map p | p in t :: t[p].File?
  }

  lemma {:induction false} KindsAddDirs(t: map<Path, Node>, path: Path, k: nat)
    requires k <= |path|
    ensures AddDirs(Kinds(t), path, k, false) == Kinds(AddDirs(t, path, k, Dir))
  {
    if k > 0 {
      KindsAddDirs(t, path, k - 1);
    }
  }

  lemma KindsGrow(t: map<Path, Node>, e: Entry)
    requires |e.path| > 0
    ensures AddDirs(Kinds(t), e.path, |e.path| - 1, false)[e.path := e.node.File?] == Kinds(Grown(t, e))
  {
    KindsAddDirs(t, e.path, |e.path| - 1);
  }

  /** Some proper ancestor of the path is a file of the tree. */
  ghost predicate Blocked(t: map<Path, Node>, path: Path) {
    exists d :: 0 < d < |path| && path[..d] in t && t[path[..d]].File?
  }

  lemma WholePrefix(p: Path, q: Path)
    requires p <= q && |p| >= |q|
    ensures p == q
  {
  }

  lemma CoveredGrows(es: seq<Entry>, e: Entry, p: Path)
    ensures Covered(es + [e], p) <==> Covered(es, p) || Under(p, e.path)
  {
    var es' := es + [e];
    if Covered(es, p) {
      var i :| 0 <= i < |es| && Under(p, es[i].path);
      assert Under(p, es'[i].path);
    }
    if Under(p, e.path) {
      assert Under(p, es'[|es|].path);
    }
  }

  lemma GrownHolds(t: map<Path, Node>, e: Entry, p: Path)
    requires |e.path| > 0
    ensures p in Grown(t, e) <==> p in t || Under(p, e.path)
  {
    AddDirsAt(t, e.path, |e.path| - 1, Dir, p);
    if Under(p, e.path) && |p| == |e.path| {
      WholePrefix(p, e.path);
    }
  }

  lemma GrownIsTree(es: seq<Entry>, t: map<Path, Node>, e: Entry)
    requires IsTree(es, t) && |e.path| > 0 && e.path !in t
    ensures IsTree(es + [e], Grown(t, e))
  {
    var es', t' := es + [e], Grown(t, e);
    forall p ensures p in t' <==> Covered(es', p) {
      CoveredGrows(es, e, p);
      GrownHolds(t, e, p);
      assert p in t <==> Covered(es, p);
    }
    forall i | 0 <= i < |es'| ensures Recorded(es', t', i) {
      if i < |es| {
        assert Recorded(es, t, i) && es'[i] == es[i];
        AddDirsAt(t, e.path, |e.path| - 1, Dir, es[i].path);
      }
    }
    forall p | p in t' ensures FromEntry(es', t', p) {
      AddDirsAt(t, e.path, |e.path| - 1, Dir, p);
      assert p in t ==> FromEntry(es, t, p);
      assert es'[|es|] == e;
    }
  }

  lemma SeenIff(es: seq<Entry>, t: map<Path, Node>, path: Path)
    requires IsTree(es, t) && path != []
    ensures path in t <==> exists i :: 0 <= i < |es| && path <= es[i].path
  {
    assert path in t <==> Covered(es, path);
    if i :| 0 <= i < |es| && path <= es[i].path {
      assert Under(path, es[i].path);
    }
  }

  lemma BlockedBy(es: seq<Entry>, t: map<Path, Node>, path: Path) returns (i: nat)
    requires IsTree(es, t) && Blocked(t, path)
    ensures i < |es| && es[i].node.File? && es[i].path <= path
  {
    var d :| 0 < d < |path| && path[..d] in t && t[path[..d]].File?;
    assert FromEntry(es, t, path[..d]);
    i :| i < |es| && es[i] == Entry(path[..d], t[path[..d]]);
  }

  lemma Blocks(es: seq<Entry>, t: map<Path, Node>, path: Path, i: nat)
    requires IsTree(es, t) && i < |es| && es[i].node.File? && es[i].path <= path && es[i].path != [] && path !in t
    ensures Blocked(t, path)
  {
    var d := |es[i].path|;
    assert Recorded(es, t, i);
    assert path[..d] == es[i].path;
    if d == |path| {
      WholePrefix(es[i].path, path);
    }
  }

  /** The two checks against `seen` decide compatibility with every earlier member. */
  lemma CompatibleIff(es: seq<Entry>, t: map<Path, Node>, e: Entry)
    requires IsTree(es, t) && |e.path| > 0 && forall i :: 0 <= i < |es| ==> es[i].path != []
    ensures e.path !in t && !Blocked(t, e.path) <==> forall i :: 0 <= i < |es| ==> Compatible(es[i], e)
  {
    SeenIff(es, t, e.path);
    if e.path in t {
      var i :| 0 <= i < |es| && e.path <= es[i].path;
      assert !Compatible(es[i], e);
    } else if Blocked(t, e.path) {
      var i := BlockedBy(es, t, e.path);
      assert !Compatible(es[i], e);
    } else {
      forall i | 0 <= i < |es| ensures Compatible(es[i], e) {
        if es[i].node.File? && es[i].path <= e.path {
          Blocks(es, t, e.path, i);
        }
      }
    }
  }

  // ----- the pieces of the loop

  /** Reading a member in chunks succeeds exactly when it yields as many bytes as its header declares. */
  method ReadMember(data: seq<Byte>, size: nat) returns (r: Option<seq<Byte>>)
    ensures r == if |data| == size then Some(data) else None
  {
    var out: seq<Byte>, remaining: nat := [], size;
    while remaining != 0
      invariant |out| <= |data| && |out| + remaining == size && out == data[..|out|]
    {
      var left := |data| - |out|;
      var n := if CHUNK < remaining then CHUNK else remaining;
      n := if left < n then left else n;
      if n == 0 {
        return None;
      }
      out, remaining := out + data[|out|..|out| + n], remaining - n;
    }
    if |out| < |data| {
      return None;
    }
    assert out == data;
    r := Some(out);
  }

  ghost predicate FileAbove(seen: map<Path, bool>, path: Path) {
    exists d :: 0 < d < |path| && path[..d] in seen && seen[path[..d]]
  }

  /** The checks of a member against the paths seen so far, and their update. */
  method Admit(seen: map<Path, bool>, path: Path, isFile: bool) returns (r: Option<map<Path, bool>>)
    requires |path| > 0
    ensures r.Some? <==> path !in seen && !FileAbove(seen, path)
    ensures r.Some? ==> r.value == AddDirs(seen, path, |path| - 1, false)[path := isFile]
  {
    if path in seen {
      return None;
    }
    var now := seen;
    for depth := 1 to |path|
      invariant now == AddDirs(seen, path, depth - 1, false)
      invariant forall d :: 0 < d < depth ==> !(path[..d] in seen && seen[path[..d]])
    {
      var ancestor := path[..depth];
      AddDirsAt(seen, path, depth - 1, false, ancestor);
      if ancestor in now && now[ancestor] {
        return None;
      }
      if ancestor !in now {
        now := now[ancestor := false];
      }
    }
    r := Some(now[path := isFile]);
  }

  ghost predicate FileOn(fs: map<Path, Node>, path: Path) {
    exists d :: 0 < d <= |path| && path[..d] in fs && fs[path[..d]].File?
  }

  /** `ensure_directory`: fails only on a file in the way. */
  method EnsureDirectory(fs: map<Path, Node>, path: Path) returns (r: Option<map<Path, Node>>)
    ensures r.Some? <==> !FileOn(fs, path)
    ensures r.Some? ==> r.value == AddDirs(fs, path, |path|, Dir)
  {
    var now := fs;
    for depth := 1 to |path| + 1
      invariant now == AddDirs(fs, path, depth - 1, Dir)
      invariant forall d :: 0 < d < depth ==> !(path[..d] in fs && fs[path[..d]].File?)
    {
      var current := path[..depth];
      AddDirsAt(fs, path, depth - 1, Dir, current);
      if current in now {
        if now[current].File? {
          return None;
        }
      } else {
        now := now[current := Dir];
      }
    }
    r := Some(now);
  }

  lemma LastDir(t: map<Path, Node>, path: Path)
    requires |path| > 0 && path !in t
    ensures AddDirs(t, path, |path|, Dir) == Grown(t, Entry(path, Dir))
  {
    TakeAll(path);
    AddDirsAt(t, path, |path| - 1, Dir, path);
    AddLastDir(t, path, |path|);
  }

  lemma AddLastDir(t: map<Path, Node>, path: Path, k: nat)
    requires 0 < k <= |path| && path[..k] !in AddDirs(t, path, k - 1, Dir)
    ensures AddDirs(t, path, k, Dir) == AddDirs(t, path, k - 1, Dir)[path[..k] := Dir]
  {
  }

  lemma TakeAll(path: Path)
    ensures path[..|path|] == path
  {
  }

  lemma FilesOn(fs: map<Path, Node>, path: Path, k: nat)
    requires k <= |path| && k + 1 >= |path| && (k == |path| ==> path !in fs) && !Blocked(fs, path)
    ensures !FileOn(fs, path[..k])
  {
    forall d | 0 < d <= k && path[..k][..d] in fs ensures !fs[path[..k][..d]].File? {
      assert path[..k][..d] == path[..d];
      if d == |path| {
        TakeAll(path);
      }
    }
  }

  /** Writing one member below a fresh destination; the exclusive open fails on anything already there. */
  method WriteEntry(fs: map<Path, Node>, e: Entry) returns (r: Option<map<Path, Node>>)
    requires |e.path| > 0
    ensures e.path !in fs && !Blocked(fs, e.path) ==> r == Some(Grown(fs, e))
  {
    if e.node.Dir? {
      r := EnsureDirectory(fs, e.path);
      if e.path !in fs && !Blocked(fs, e.path) {
        TakeAll(e.path);
        FilesOn(fs, e.path, |e.path|);
        LastDir(fs, e.path);
      }
    } else {
      var k := |e.path| - 1;
      r := EnsureDirectory(fs, e.path[..k]);
      if e.path !in fs && !Blocked(fs, e.path) {
        FilesOn(fs, e.path, k);
      }
      if r.Some? {
        AddDirsPrefix(fs, e.path, k, k);
        AddDirsAt(fs, e.path, k, Dir, e.path);
        if e.path in r.value {
          return None;
        }
        r := Some(r.value[e.path := e.node]);
      }
    }
  }

  // ----- the whole archive

  ghost function EntriesOf(ms: seq<Member>, roots: set<string>): (es: seq<Entry>)
    requires MembersOk(ms, roots)
    ensures |es| == |ms| && forall i :: 0 <= i < |ms| ==> es[i] == EntryOf(ms[i], roots)
  {
    seq(|ms|, i requires 0 <= i < |ms| => EntryOf(ms[i], roots))
  }

  /** The extracted tree: the archive's, and an empty directory for an allowed root the archive leaves out. */
  ghost function WithRoots(t: map<Path, Node>, roots: set<string>): map<Path, Node> {
    map p | p in t.Keys + RootPaths(roots) :: if p in t then t[p] else Dir
  }

  function RootPaths(roots: set<string>): set<Path> {
    set r | r in roots :: [r]
  }

  ghost predicate RootsAreDirs(t: map<Path, Node>) {
    forall p :: p in t && |p| == 1 ==> t[p].Dir?
  }

  /** The loop has accepted the first members: their tree, in the form `seen` and the destination hold it. */
  ghost predicate Accepted(ms: seq<Member>, roots: set<string>, t: map<Path, Node>) {
    && MembersOk(ms, roots) && IsTree(EntriesOf(ms, roots), t) && RootsAreDirs(t)
    && (forall i, j :: 0 <= i < j < |ms| ==> Compatible(EntryOf(ms[i], roots), EntryOf(ms[j], roots)))
  }

  lemma EntriesGrow(ms: seq<Member>, roots: set<string>, m: Member)
    requires MembersOk(ms, roots) && Named(m, roots) && Whole(m)
    ensures MembersOk(ms + [m], roots) && EntriesOf(ms + [m], roots) == EntriesOf(ms, roots) + [EntryOf(m, roots)]
  {
  }

  lemma RootsStayDirs(t: map<Path, Node>, e: Entry)
    requires RootsAreDirs(t) && |e.path| > 0 && (|e.path| == 1 ==> e.node.Dir?)
    ensures RootsAreDirs(Grown(t, e))
  {
    forall p | p in Grown(t, e) && |p| == 1 ensures Grown(t, e)[p].Dir? {
      AddDirsAt(t, e.path, |e.path| - 1, Dir, p);
    }
  }

  lemma AcceptOne(ms: seq<Member>, roots: set<string>, t: map<Path, Node>, m: Member)
    requires Accepted(ms, roots, t) && Named(m, roots) && Whole(m)
    requires EntryOf(m, roots).path !in t && !Blocked(t, EntryOf(m, roots).path)
    ensures Accepted(ms + [m], roots, Grown(t, EntryOf(m, roots)))
  {
    var e, es := EntryOf(m, roots), EntriesOf(ms, roots);
    EntriesGrow(ms, roots, m);
    GrownIsTree(es, t, e);
    RootsStayDirs(t, e);
    CompatibleIff(es, t, e);
    forall i, j | 0 <= i < j < |ms + [m]|
      ensures Compatible(EntryOf((ms + [m])[i], roots), EntryOf((ms + [m])[j], roots)) {
      assert j == |ms| ==> Compatible(es[i], e);
    }
  }

  lemma RefuseOne(ms: seq<Member>, roots: set<string>, t: map<Path, Node>, k: nat)
    requires k < |ms| && Accepted(ms[..k], roots, t) && Named(ms[k], roots)
    requires EntryOf(ms[k], roots).path in t || Blocked(t, EntryOf(ms[k], roots).path)
    ensures !Acceptable(ms, roots)
  {
    var es := EntriesOf(ms[..k], roots);
    CompatibleIff(es, t, EntryOf(ms[k], roots));
    var i :| 0 <= i < |es| && !Compatible(es[i], EntryOf(ms[k], roots));
    assert es[i] == EntryOf(ms[i], roots);
  }

  ghost predicate RootSeen(ms: seq<Member>, roots: set<string>, r: string) {
    exists i :: 0 <= i < |ms| && Named(ms[i], roots) && EntryOf(ms[i], roots).path == [r]
  }

  lemma RootSeenOneMore(ms: seq<Member>, roots: set<string>, m: Member, r: string)
    ensures RootSeen(ms + [m], roots, r) <==>
      RootSeen(ms, roots, r) || (Named(m, roots) && EntryOf(m, roots).path == [r])
  {
    var all := ms + [m];
    assert all[|ms|] == m;
    if i :| 0 <= i < |ms| && Named(ms[i], roots) && EntryOf(ms[i], roots).path == [r] {
      assert all[i] == ms[i];
    }
  }

  lemma AdmitIff(t: map<Path, Node>, path: Path)
    ensures path in Kinds(t) <==> path in t
    ensures FileAbove(Kinds(t), path) <==> Blocked(t, path)
  {
  }

  datatype Progress = Progress(seen: map<Path, bool>, fs: map<Path, Node>, path: Path, size: int)

  ghost predicate Takes(m: Member, roots: set<string>, t: map<Path, Node>) {
    Named(m, roots) && Whole(m) && EntryOf(m, roots).path !in t && !Blocked(t, EntryOf(m, roots).path)
  }

  /** One turn of the loop. */
  method ProcessMember(m: Member, roots: set<string>, seen: map<Path, bool>, fs: map<Path, Node>, extract: bool,
      ghost t: map<Path, Node>)
    returns (r: Option<Progress>)
    requires seen == Kinds(t) && (extract ==> fs == t)
    ensures r.Some? <==> Takes(m, roots, t)
    ensures r.Some? ==> var e := EntryOf(m, roots);
                        && r.value.seen == Kinds(Grown(t, e)) && r.value.fs == (if extract then Grown(t, e) else fs)
                        && r.value.path == e.path && r.value.size == (if m.kind.Regular? then m.size else 0)
  {
    var parts := MemberPath(m.name, m.kind, m.size, roots);
    if parts.None? {
      return None;
    }
    var path := parts.value;
    ghost var e := EntryOf(m, roots);
    AdmitIff(t, path);
    var now := Admit(seen, path, !m.kind.Directory?);
    if now.None? {
      return None;
    }
    KindsGrow(t, e);
    var node, size := Dir, 0;
    if !m.kind.Directory? {
      size := m.size;
      var data := ReadMember(m.data, m.size);
      if data.None? {
        return None;
      }
      node := File(data.value);
    }
    var fs' := fs;
    if extract {
      var written := WriteEntry(fs, Entry(path, node));
      fs' := written.value;
    }
    r := Some(Progress(now.value, fs', path, size));
  }

  lemma BadMember(ms: seq<Member>, roots: set<string>, t: map<Path, Node>, k: nat)
    requires k < |ms| && Accepted(ms[..k], roots, t) && !Takes(ms[k], roots, t)
    ensures !Acceptable(ms, roots)
  {
    if Named(ms[k], roots) && Whole(ms[k]) {
      RefuseOne(ms, roots, t, k);
    }
  }

  ghost predicate RootsAre(ms: seq<Member>, roots: set<string>, rootsSeen: set<string>) {
    forall x {:trigger RootSeen(ms, roots, x)} :: x in rootsSeen <==> RootSeen(ms, roots, x)
  }

  lemma AcceptableIff(ms: seq<Member>, roots: set<string>, t: map<Path, Node>, rootsSeen: set<string>)
    requires Accepted(ms, roots, t) && RootsAre(ms, roots, rootsSeen)
    ensures Acceptable(ms, roots) <==> roots - OPTIONAL_ROOTS - rootsSeen == {}
  {
    if Acceptable(ms, roots) {
      forall x | x in roots - OPTIONAL_ROOTS ensures x in rootsSeen {
        var i :| 0 <= i < |ms| && EntryOf(ms[i], roots).path == [x];
        assert RootSeen(ms, roots, x);
      }
    } else {
      var x :| x in roots - OPTIONAL_ROOTS && !exists i :: 0 <= i < |ms| && EntryOf(ms[i], roots).path == [x];
      assert !RootSeen(ms, roots, x);
      assert x in roots - OPTIONAL_ROOTS - rootsSeen;
    }
  }

  /** `process_archive`, validating or extracting into a fresh directory: the same streams pass, the total is the
      number of file bytes, and what is extracted is the tree the members describe. */
  method ProcessArchive(ms: seq<Member>, roots: set<string>, extract: bool)
    returns (r: Result<int, ()>, fs: map<Path, Node>, ghost t: map<Path, Node>)
    ensures r.Ok? <==> Acceptable(ms, roots)
    ensures r.Ok? ==> r.value == FileBytes(ms) && Accepted(ms, roots, t)
    ensures r.Ok? && extract ==> fs == WithRoots(t, roots)
    ensures !extract ==> fs == map[]
  {
    var loop := Loop(map[], map[], {}, 0);
    r, fs, t := Err(()), map[], map[];
    for k := 0 to |ms|
      invariant Held(ms[..k], roots, extract, loop, t)
    {
      var step := ProcessMember(ms[k], roots, loop.seen, loop.fs, extract, t);
      if step.None? {
        BadMember(ms, roots, t, k);
        return;
      }
      NextMember(ms, k, roots, t, loop.rootsSeen);
      t := Grown(t, EntryOf(ms[k], roots));
      var path := step.value.path;
      loop := Loop(step.value.seen, step.value.fs, if |path| == 1 then loop.rootsSeen + {path[0]} else loop.rootsSeen,
                   loop.total + step.value.size);
    }
    assert ms[..|ms|] == ms;
    AcceptableIff(ms, roots, t, loop.rootsSeen);
    if roots - OPTIONAL_ROOTS - loop.rootsSeen != {} {
      return;
    }
    fs := loop.fs;
    if extract {
      fs := AddRoots(fs, roots);
    }
    r := Ok(loop.total);
  }

  /** The variables of the loop: `seen`, the destination, `roots_seen` and `total_bytes`. */
  datatype Loop = Loop(seen: map<Path, bool>, fs: map<Path, Node>, rootsSeen: set<string>, total: int)

  ghost predicate Held(ms: seq<Member>, roots: set<string>, extract: bool, loop: Loop, t: map<Path, Node>) {
    && Accepted(ms, roots, t) && loop.seen == Kinds(t) && loop.total == FileBytes(ms)
      && RootsAre(ms, roots, loop.rootsSeen)
    && loop.fs == if extract then t else map[]
  }

  lemma NextMember(ms: seq<Member>, k: nat, roots: set<string>, t: map<Path, Node>, rootsSeen: set<string>)
    requires k < |ms| && Accepted(ms[..k], roots, t) && Takes(ms[k], roots, t) && RootsAre(ms[..k], roots, rootsSeen)
    ensures Accepted(ms[..k + 1], roots, Grown(t, EntryOf(ms[k], roots)))
    ensures FileBytes(ms[..k + 1]) == FileBytes(ms[..k]) + (if ms[k].kind.Regular? then ms[k].size else 0)
    ensures var path := EntryOf(ms[k], roots).path;
            RootsAre(ms[..k + 1], roots, if |path| == 1 then rootsSeen + {path[0]} else rootsSeen)
  {
    TakeOneMore(ms, k);
    AcceptOne(ms[..k], roots, t, ms[k]);
    var path := EntryOf(ms[k], roots).path;
    var after := if |path| == 1 then rootsSeen + {path[0]} else rootsSeen;
    forall x ensures x in after <==> RootSeen(ms[..k + 1], roots, x) {
      RootSeenOneMore(ms[..k], roots, ms[k], x);
    }
  }

  lemma TakeOneMore(ms: seq<Member>, k: nat)
    requires k < |ms|
    ensures ms[..k + 1] == ms[..k] + [ms[k]]
    ensures FileBytes(ms[..k + 1]) == FileBytes(ms[..k]) + (if ms[k].kind.Regular? then ms[k].size else 0)
  {
    assert ms[..k + 1][..k] == ms[..k];
  }

  lemma AddRoot(t: map<Path, Node>, done: set<string>, root: string)
    requires RootsAreDirs(t)
    ensures !FileOn(WithRoots(t, done), [root])
    ensures AddDirs(WithRoots(t, done), [root], 1, Dir) == WithRoots(t, done + {root})
  {
    var fs := WithRoots(t, done);
    assert [root][..1] == [root];
    assert AddDirs(fs, [root], 1, Dir) == if [root] in fs then fs else fs[[root] := Dir];
  }

  /** The final pass that makes sure every allowed root exists. */
  method AddRoots(t: map<Path, Node>, roots: set<string>) returns (fs: map<Path, Node>)
    requires RootsAreDirs(t)
    ensures fs == WithRoots(t, roots)
  {
    var todo: set<string>, done: set<string> := roots, {};
    fs := t;
    assert t == WithRoots(t, {});
    while todo != {}
      invariant todo + done == roots && fs == WithRoots(t, done)
      decreases |todo|
    {
      var root :| root in todo;
      AddRoot(t, done, root);
      var made := EnsureDirectory(fs, [root]);
      fs := made.value;
      todo, done := todo - {root}, done + {root};
    }
    assert done == roots;
  }

  // ----- what an accepted archive describes

  /** Every path lies under an allowed root, the tree is closed under taking parents, nothing lies below a file, and
      its files are exactly the archive's, with their bytes. */
  lemma AcceptedTree(ms: seq<Member>, roots: set<string>, t: map<Path, Node>, p: Path)
    requires Acceptable(ms, roots) && IsTree(EntriesOf(ms, roots), t) && p in t && roots <= ROOTS
    ensures p != [] && p[0] in roots && AllPlain(p)
    ensures |p| > 1 ==> p[..|p| - 1] in t && t[p[..|p| - 1]].Dir?
    ensures t[p].File? <==> exists i :: 0 <= i < |ms| && ms[i].kind.Regular? && EntryOf(ms[i], roots) == Entry(p, t[p])
  {
    var es := EntriesOf(ms, roots);
    assert Covered(es, p);
    var i :| 0 <= i < |es| && Under(p, es[i].path);
    MemberPathIff(ms[i].name, ms[i].kind, ms[i].size, roots, es[i].path);
    assert forall k :: 0 <= k < |p| ==> p[k] == es[i].path[k];
    if |p| > 1 {
      var q := p[..|p| - 1];
      assert Under(q, es[i].path);
      assert Covered(es, q);
      NotAFile(ms, roots, t, q, i);
    }
    FilesOfTree(ms, roots, t, p);
  }

  lemma FilesOfTree(ms: seq<Member>, roots: set<string>, t: map<Path, Node>, p: Path)
    requires MembersOk(ms, roots) && IsTree(EntriesOf(ms, roots), t) && p in t
    ensures t[p].File? <==> exists i :: 0 <= i < |ms| && ms[i].kind.Regular? && EntryOf(ms[i], roots) == Entry(p, t[p])
  {
    var es := EntriesOf(ms, roots);
    if t[p].File? {
      assert FromEntry(es, t, p);
      var i :| 0 <= i < |es| && es[i] == Entry(p, t[p]);
      assert EntryOf(ms[i], roots) == Entry(p, t[p]);
    }
  }

  /** A file of an accepted archive is no proper ancestor of any member, wherever the two stand in the stream. */
  lemma FilesAreLeaves(ms: seq<Member>, roots: set<string>, j: nat, i: nat)
    requires Acceptable(ms, roots) && i < |ms| && j < |ms| && EntryOf(ms[j], roots).node.File?
    ensures EntryOf(ms[j], roots).path <= EntryOf(ms[i], roots).path ==> i == j
  {
    assert j < i ==> Compatible(EntryOf(ms[j], roots), EntryOf(ms[i], roots));
    assert i < j ==> Compatible(EntryOf(ms[i], roots), EntryOf(ms[j], roots));
  }

  lemma NotAFile(ms: seq<Member>, roots: set<string>, t: map<Path, Node>, q: Path, i: nat)
    requires Acceptable(ms, roots) && IsTree(EntriesOf(ms, roots), t) && i < |ms|
    requires q in t && q <= EntryOf(ms[i], roots).path && |q| < |EntryOf(ms[i], roots).path|
    ensures t[q].Dir?
  {
    FilesOfTree(ms, roots, t, q);
    if t[q].File? {
      var j :| 0 <= j < |ms| && ms[j].kind.Regular? && EntryOf(ms[j], roots) == Entry(q, t[q]);
      FilesAreLeaves(ms, roots, j, i);
    }
  }
}
