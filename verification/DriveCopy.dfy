/** The bounded worklist copy of a subtree (src/drive.rs: copy_owned_entry, copy_one_entry). */
module DriveCopy {
  import opened Common
  import opened DriveForest

  const MAX_COPY_ENTRIES: nat := 500
  const MAX_COPY_DEPTH: nat := 40

  datatype CopyJob = CopyJob(source: Id, parent: Option<Id>, rename: bool, depth: nat)

  const MAX_NAME_ATTEMPTS: nat := 40

  /** `copy_display_name`: the candidate of each attempt. */
  type Namer = (Name, nat, Kind) -> Name

  /** `available_copy_name`: the first candidate from this attempt on that no untrashed sibling holds. */
  function FirstFree(es: Entries, owner: Id, parent: Option<Id>, name: Name, kind: Kind, namer: Namer,
      attempt: nat): (r: Option<Name>)
    ensures r.Some? ==> !Taken(es, owner, parent, r.value, None)
    decreases MAX_NAME_ATTEMPTS + 1 - attempt
  {
    if attempt > MAX_NAME_ATTEMPTS then None
    else if !Taken(es, owner, parent, namer(name, attempt, kind), None) then Some(namer(name, attempt, kind))
    else FirstFree(es, owner, parent, name, kind, namer, attempt + 1)
  }

  function CopyName(es: Entries, owner: Id, parent: Option<Id>, name: Name, kind: Kind, namer: Namer): Option<Name> {
    FirstFree(es, owner, parent, name, kind, namer, 1)
  }

  function Children(es: Entries, owner: Id, folder: Id): set<Id> {
    set x | x in es && es[x].parent == Some(folder) && es[x].owner == owner && !es[x].trashed
  }

  function ChildJobs(children: seq<Id>, parent: Id, depth: nat): (jobs: seq<CopyJob>)
    ensures |jobs| == |children|
    ensures forall i :: 0 <= i < |jobs| ==>
      jobs[i] == CopyJob(children[|children| - 1 - i], Some(parent), false, depth + 1)
  {
    seq(|children|,
      i requires 0 <= i < |children| => CopyJob(children[|children| - 1 - i], Some(parent), false, depth + 1))
  }

  // ----- what a successful copy is

  /** The copied row of `x`: same kind, name and stored object, placed under the copy of x's parent. */
  ghost predicate CopiedRow(es: Entries, cur: Entries, source: Id, dest: Option<Id>, rootName: Name, image: map<Id, Id>,
      x: Id) {
    && x in es && x in image && image[x] in cur && image[x] !in es && Below(es, source, x, true)
    && (x == source ==> cur[image[x]] == Entry(es[x].owner, dest, es[x].kind, rootName, false, false, es[x].stored))
    && (x != source ==> es[x].parent.Some? && es[x].parent.value in image)
    && (x != source ==>
      cur[image[x]] ==
      Entry(es[x].owner, Some(image[es[x].parent.value]), es[x].kind, es[x].name, false, false, es[x].stored))
  }

  ghost predicate CopiedRows(es: Entries, cur: Entries, source: Id, dest: Option<Id>, rootName: Name,
      image: map<Id, Id>) {
    && (forall x {:trigger CopiedRow(es, cur, source, dest, rootName, image, x)} :: x in image ==>
      CopiedRow(es, cur, source, dest, rootName, image, x))
    && (forall x, y :: x in image && y in image && x != y ==> image[x] != image[y])
    && cur.Keys == es.Keys + image.Values
    && (forall x :: x in es ==> x in cur && cur[x] == es[x])
  }

  /** `cur` is `es` plus one fresh row for every untrashed entry below `source`, shaped alike, rooted at `dest`. */
  ghost predicate IsCopy(es: Entries, cur: Entries, source: Id, dest: Option<Id>, rootName: Name, image: map<Id, Id>) {
    CopiedRows(es, cur, source, dest, rootName, image) && forall x :: x in image <==> Below(es, source, x, true)
  }

  // ----- the worklist, when the destination lies outside the source

  ghost predicate JobFits(es: Entries, source: Id, dest: Option<Id>, image: map<Id, Id>, j: CopyJob) {
    && j.source in es && j.source !in image && Below(es, source, j.source, true) && (j.rename <==> j.source == source)
    && (j.source == source ==> j.parent == dest)
    && (j.source != source ==> es[j.source].parent.Some? && es[j.source].parent.value in image)
    && (j.source != source ==> j.parent == Some(image[es[j.source].parent.value]))
  }

  ghost predicate Waiting(pending: seq<CopyJob>, x: Id) {
    exists k :: 0 <= k < |pending| && pending[k].source == x
  }

  ghost predicate Due(es: Entries, image: map<Id, Id>, x: Id) {
    x in es && !es[x].trashed && es[x].parent.Some? && es[x].parent.value in image
  }

  ghost predicate Copying(es: Entries, cur: Entries, source: Id, dest: Option<Id>, rootName: Name, image: map<Id, Id>,
      pending: seq<CopyJob>) {
    && CopiedRows(es, cur, source, dest, rootName, image)
    && JobsFit(es, source, dest, image, pending)
    && (forall x {:trigger Due(es, image, x)} :: Due(es, image, x) ==> x in image || Waiting(pending, x))
    && (source in image || Waiting(pending, source))
  }

  ghost predicate Outside(es: Entries, source: Id, dest: Option<Id>) {
    dest.Some? ==> !Below(es, source, dest.value, true)
  }

  lemma CopyHangsElsewhere(es: Entries, cur: Entries, source: Id, dest: Option<Id>, rootName: Name, image: map<Id, Id>,
      z: Id, x: Id)
    requires CopiedRows(es, cur, source, dest, rootName, image) && Outside(es, source, dest)
    requires x in es && Below(es, source, x, true) && z in image
    ensures image[z] in cur && cur[image[z]].parent != Some(x)
  {
    assert CopiedRow(es, cur, source, dest, rootName, image, z);
    if z != source {
      assert CopiedRow(es, cur, source, dest, rootName, image, es[z].parent.value);
    }
  }

  /** While copying, the source's folders gain no children. */
  lemma ChildrenUnchanged(es: Entries, cur: Entries, owner: Id, source: Id, dest: Option<Id>, rootName: Name,
      image: map<Id, Id>, x: Id)
    requires CopiedRows(es, cur, source, dest, rootName, image) && Outside(es, source, dest)
    requires x in es && Below(es, source, x, true)
    ensures Children(cur, owner, x) == Children(es, owner, x)
  {
    forall z | z in image ensures image[z] !in Children(cur, owner, x) {
      CopyHangsElsewhere(es, cur, source, dest, rootName, image, z, x);
    }
    assert forall y :: y in cur ==> y in es || y in image.Values;
  }

  lemma CopyRowsStep(es: Entries, cur: Entries, source: Id, dest: Option<Id>, rootName: Name, image: map<Id, Id>,
      j: CopyJob, id: Id, name: Name)
    requires CopiedRows(es, cur, source, dest, rootName, image) && JobFits(es, source, dest, image, j) && id !in cur
    requires name == if j.rename then rootName else es[j.source].name
    ensures var x := j.source;
            CopiedRows(es, cur[id := Entry(es[x].owner, j.parent, es[x].kind, name, false, false, es[x].stored)],
                       source, dest, rootName, image[x := id])
  {
    var x := j.source;
    var cur' := cur[id := Entry(es[x].owner, j.parent, es[x].kind, name, false, false, es[x].stored)];
    var image' := image[x := id];
    forall y | y in image' ensures CopiedRow(es, cur', source, dest, rootName, image', y) {
      if y != x {
        assert CopiedRow(es, cur, source, dest, rootName, image, y);
      }
    }
    forall y | y in image ensures image[y] in cur {
      assert CopiedRow(es, cur, source, dest, rootName, image, y);
    }
    ValuesGrow(image, x, id);
  }

  lemma ValuesGrow(image: map<Id, Id>, x: Id, id: Id)
    requires x !in image
    ensures image[x := id].Values == image.Values + {id}
  {
    var image' := image[x := id];
    assert image'[x] == id;
    forall v | v in image.Values ensures v in image'.Values {
      var y :| y in image && image[y] == v;
      assert image'[y] == v;
    }
  }

  lemma JobsStep(es: Entries, source: Id, dest: Option<Id>, image: map<Id, Id>, rest: seq<CopyJob>, j: CopyJob, id: Id,
      owner: Id, children: seq<Id>)
    requires Forest(es) && source in es && JobFits(es, source, dest, image, j)
    requires forall k :: 0 <= k < |rest| ==> JobFits(es, source, dest, image, rest[k]) && rest[k].source != j.source
    requires forall y :: y in children ==> y in Children(es, owner, j.source)
    requires forall y :: y in image && y != source ==> y in es && es[y].parent.Some? && es[y].parent.value in image
    ensures forall k :: 0 <= k < |rest| ==> JobFits(es, source, dest, image[j.source := id], rest[k])
    ensures forall y :: y in children ==>
      JobFits(es, source, dest, image[j.source := id], CopyJob(y, Some(id), false, j.depth + 1))
    ensures forall k :: 0 <= k < |rest| ==> rest[k].source !in children
  {
    AboveNotBelow(es, source, j.source, true);
    forall y | y in children
      ensures JobFits(es, source, dest, image[j.source := id], CopyJob(y, Some(id), false, j.depth + 1)) {
      ChildOfFits(es, source, image, j, y, owner);
    }
  }

  lemma ChildOfFits(es: Entries, source: Id, image: map<Id, Id>, j: CopyJob, y: Id, owner: Id)
    requires Forest(es) && source in es && j.source in es && j.source !in image && Below(es, source, j.source, true)
    requires y in Children(es, owner, j.source)
    requires y in image && y != source ==> es[y].parent.Some? && es[y].parent.value in image
    ensures y != source && y != j.source && y !in image && Below(es, source, y, true)
  {
    AboveNotBelow(es, source, j.source, true);
    BelowSelf(es, j.source, true);
    AboveNotBelow(es, j.source, j.source, true);
    BelowChild(es, source, j.source, y, true);
  }

  lemma {:induction false} WaitingSplit(rest: seq<CopyJob>, j: CopyJob, x: Id)
    ensures Waiting(rest + [j], x) <==> Waiting(rest, x) || j.source == x
  {
    if Waiting(rest, x) {
      var k :| 0 <= k < |rest| && rest[k].source == x;
      assert (rest + [j])[k].source == x;
    }
    assert (rest + [j])[|rest|] == j;
  }

  lemma WaitingJoin(rest: seq<CopyJob>, children: seq<Id>, parent: Id, depth: nat, x: Id)
    ensures Waiting(rest + ChildJobs(children, parent, depth), x) <==> Waiting(rest, x) || x in children
  {
    var jobs := ChildJobs(children, parent, depth);
    if Waiting(rest, x) {
      var k :| 0 <= k < |rest| && rest[k].source == x;
      assert (rest + jobs)[k].source == x;
    }
    if x in children {
      var i :| 0 <= i < |children| && children[i] == x;
      assert (rest + jobs)[|rest| + |children| - 1 - i].source == x;
    }
    if Waiting(rest + jobs, x) && !Waiting(rest, x) {
      var k :| 0 <= k < |rest + jobs| && (rest + jobs)[k].source == x;
      assert k < |rest| ==> rest[k].source == x;
    }
  }

  ghost predicate JobsFit(es: Entries, source: Id, dest: Option<Id>, image: map<Id, Id>, pending: seq<CopyJob>) {
    && (forall k :: 0 <= k < |pending| ==> JobFits(es, source, dest, image, pending[k]))
    && (forall k, l :: 0 <= k < l < |pending| ==> pending[k].source != pending[l].source)
  }

  lemma PendingStep(es: Entries, source: Id, dest: Option<Id>, image: map<Id, Id>, rest: seq<CopyJob>, j: CopyJob,
      id: Id, owner: Id, children: seq<Id>)
    requires Forest(es) && source in es && JobsFit(es, source, dest, image, rest + [j])
    requires forall y :: y in children ==> y in Children(es, owner, j.source)
    requires forall k, l :: 0 <= k < l < |children| ==> children[k] != children[l]
    requires forall y :: y in image && y != source ==> y in es && es[y].parent.Some? && es[y].parent.value in image
    ensures JobsFit(es, source, dest, image[j.source := id], rest + ChildJobs(children, id, j.depth))
  {
    var pending, jobs := rest + [j], ChildJobs(children, id, j.depth);
    assert pending[|rest|] == j;
    forall k | 0 <= k < |rest| ensures JobFits(es, source, dest, image, rest[k]) && rest[k].source != j.source {
      assert pending[k] == rest[k];
    }
    JobsStep(es, source, dest, image, rest, j, id, owner, children);
    assert forall k :: 0 <= k < |jobs| ==> jobs[k].source in children;
    var all := rest + jobs;
    forall k, l | 0 <= k < l < |all| ensures all[k].source != all[l].source {
      if l < |rest| {
        assert pending[k] == rest[k] && pending[l] == rest[l];
      }
    }
  }

  lemma DueStep(es: Entries, image: map<Id, Id>, rest: seq<CopyJob>, j: CopyJob, id: Id, owner: Id, children: seq<Id>,
      y: Id)
    requires ParentsOk(es) && j.source in es && es[j.source].owner == owner
    requires forall x :: x in Children(es, owner, j.source) ==> x in children
    requires Due(es, image, y) ==> y in image || Waiting(rest + [j], y)
    requires Due(es, image[j.source := id], y)
    ensures y in image[j.source := id] || Waiting(rest + ChildJobs(children, id, j.depth), y)
  {
    WaitingJoin(rest, children, id, j.depth, y);
    WaitingSplit(rest, j, y);
    assert ParentOk(es, y);
  }

  /** Popping one job, copying its entry and pushing the children keeps the worklist exact. */
  lemma CopyingStep(es: Entries, cur: Entries, owner: Id, source: Id, dest: Option<Id>, rootName: Name,
      image: map<Id, Id>, rest: seq<CopyJob>, j: CopyJob, id: Id, name: Name, children: seq<Id>)
    requires Forest(es) && source in es && j.source in es && es[j.source].owner == owner
    requires Copying(es, cur, source, dest, rootName, image, rest + [j])
    requires id !in cur && name == (if j.rename then rootName else es[j.source].name)
    requires forall y :: y in children <==> y in Children(es, owner, j.source)
    requires forall k, l :: 0 <= k < l < |children| ==> children[k] != children[l]
    ensures Copying(es, cur[id := Entry(owner, j.parent, es[j.source].kind, name, false, false, es[j.source].stored)],
                    source, dest, rootName, image[j.source := id], rest + ChildJobs(children, id, j.depth))
  {
    var x, jobs := j.source, ChildJobs(children, id, j.depth);
    assert (rest + [j])[|rest|] == j;
    CopyRowsStep(es, cur, source, dest, rootName, image, j, id, name);
    forall y | y in image && y != source ensures y in es && es[y].parent.Some? && es[y].parent.value in image {
      assert CopiedRow(es, cur, source, dest, rootName, image, y);
    }
    PendingStep(es, source, dest, image, rest, j, id, owner, children);
    forall y | Due(es, image[x := id], y) ensures y in image[x := id] || Waiting(rest + jobs, y) {
      DueStep(es, image, rest, j, id, owner, children, y);
    }
    WaitingJoin(rest, children, id, j.depth, source);
    WaitingSplit(rest, j, source);
  }

  lemma CopyingDone(es: Entries, cur: Entries, source: Id, dest: Option<Id>, rootName: Name, image: map<Id, Id>)
    requires Copying(es, cur, source, dest, rootName, image, [])
    ensures IsCopy(es, cur, source, dest, rootName, image)
  {
    forall x | x in image ensures Below(es, source, x, true) {
      assert CopiedRow(es, cur, source, dest, rootName, image, x);
    }
    forall x | Below(es, source, x, true) ensures x in image {
      var p :| DownPath(es, source, x, true, p);
      assert forall y :: y in es && es[y].parent.Some? && es[y].parent.value in image.Keys && !es[y].trashed ==>
        Due(es, image, y);
      BelowInClosed(es, source, true, image.Keys, p);
    }
  }

  // ----- the worklist, when the destination lies inside the source

  /** Some waiting job would copy an entry to a place below that entry. */
  ghost predicate Chasing(cur: Entries, pending: seq<CopyJob>) {
    exists k :: 0 <= k < |pending| && Chases(cur, pending[k])
  }

  ghost predicate Chases(cur: Entries, j: CopyJob) {
    j.parent.Some? && Below(cur, j.source, j.parent.value, true)
  }

  lemma BelowGrows(es: Entries, es': Entries, top: Id, x: Id)
    requires Below(es, top, x, true) && forall y :: y in es ==> y in es' && es'[y] == es[y]
    ensures Below(es', top, x, true)
  {
    var p :| DownPath(es, top, x, true, p);
    SameClimb(es, es', p);
    assert DownPath(es', top, x, true, p);
  }

  /** The step down from `top` towards `x`. */
  lemma FirstStep(es: Entries, top: Id, x: Id) returns (child: Id)
    requires Below(es, top, x, true) && x != top
    ensures child in es && es[child].parent == Some(top) && !es[child].trashed && Below(es, child, x, true)
  {
    var p :| DownPath(es, top, x, true, p);
    child := p[|p| - 2];
    StepUp(es, p, |p| - 2);
    ClimbPrefix(es, p, |p| - 1);
    assert DownPath(es, child, x, true, p[..|p| - 1]);
  }

  /** Copying the chasing entry makes a child of it chase the copy just made. */
  lemma ChaseOn(cur: Entries, cur': Entries, owner: Id, j: CopyJob, id: Id) returns (child: Id)
    requires Forest(cur) && j.source in cur && cur[j.source].owner == owner && Chases(cur, j)
    requires id !in cur && cur'.Keys == cur.Keys + {id} && forall y :: y in cur ==> cur'[y] == cur[y]
    requires cur'[id].parent == j.parent && cur'[id].owner == owner && !cur'[id].trashed
    requires j.parent.value in cur && cur[j.parent.value].kind.Folder?
    ensures cur[j.source].kind.Folder? && child in Children(cur', owner, j.source)
      && Chases(cur', CopyJob(child, Some(id), false, j.depth + 1))
  {
    var x, t := j.source, j.parent.value;
    if t == x {
      child := id;
      BelowSelf(cur', id, true);
    } else {
      child := FirstStep(cur, x, t);
      assert ParentOk(cur, child);
      BelowGrows(cur, cur', child, t);
      BelowChild(cur', child, t, id, true);
    }
  }

  lemma ChasingStep(cur: Entries, cur': Entries, owner: Id, rest: seq<CopyJob>, j: CopyJob, id: Id, children: seq<Id>)
    requires Forest(cur) && Chasing(cur, rest + [j]) && j.source in cur && cur[j.source].owner == owner
    requires id !in cur && cur'.Keys == cur.Keys + {id} && forall y :: y in cur ==> cur'[y] == cur[y]
    requires cur'[id].parent == j.parent && cur'[id].owner == owner && !cur'[id].trashed
    requires j.parent.Some? ==> j.parent.value in cur && cur[j.parent.value].kind.Folder?
    requires cur[j.source].kind.Folder? ==> forall y :: y in Children(cur', owner, j.source) ==> y in children
    ensures Chasing(cur', rest + ChildJobs(children, id, j.depth))
  {
    var pending, jobs := rest + [j], ChildJobs(children, id, j.depth);
    var k :| 0 <= k < |pending| && Chases(cur, pending[k]);
    if k < |rest| {
      BelowGrows(cur, cur', pending[k].source, pending[k].parent.value);
      assert (rest + jobs)[k] == pending[k];
    } else {
      var child := ChaseOn(cur, cur', owner, j, id);
      var i :| 0 <= i < |children| && children[i] == child;
      assert (rest + jobs)[|rest| + |children| - 1 - i] == CopyJob(child, Some(id), false, j.depth + 1);
    }
  }

  // ----- the code

  /** The row `copy_one_entry` inserts for a job. */
  function CopyRow(cur: Entries, owner: Id, j: CopyJob, name: Name): Entry
    requires j.source in cur
  {
    Entry(owner, j.parent, cur[j.source].kind, name, false, false, cur[j.source].stored)
  }

  ghost predicate ListsChildren(cur: Entries, owner: Id, folder: Id, children: seq<Id>) {
    && (forall y :: y in children <==> y in Children(cur, owner, folder))
    && (forall k, l :: 0 <= k < l < |children| ==> children[k] != children[l])
  }

  lemma FilesHaveNoChildren(cur: Entries, owner: Id, x: Id)
    requires ParentsOk(cur) && x in cur && !cur[x].kind.Folder?
    ensures Children(cur, owner, x) == {}
  {
    forall y | y in cur ensures y !in Children(cur, owner, x) {
      assert ParentOk(cur, y);
    }
  }

  predicate Refused(cur: Entries, owner: Id, j: CopyJob, copied: nat, namer: Namer) {
    || j.depth > MAX_COPY_DEPTH || copied == MAX_COPY_ENTRIES
    || j.source !in cur || cur[j.source].owner != owner || cur[j.source].trashed || cur[j.source].system
    || !OpenHome(cur, owner, j.parent)
    || (if j.rename then CopyName(cur, owner, j.parent, cur[j.source].name, cur[j.source].kind, namer).None?
        else Taken(cur, owner, j.parent, cur[j.source].name, None))
  }

  method CopyOne(cur: Entries, owner: Id, j: CopyJob, copied: nat, namer: Namer)
    returns (r: Result<(Entries, Id, seq<Id>), DriveError>, count: nat, name: Name)
    requires Forest(cur) && UniqueNames(cur) && copied <= MAX_COPY_ENTRIES
    ensures copied <= count <= copied + 1
      && (r.Ok? ==> count == copied + 1 <= MAX_COPY_ENTRIES && j.depth <= MAX_COPY_DEPTH)
    ensures r.Ok? ==> j.source in cur && cur[j.source].owner == owner && !cur[j.source].trashed && !cur[j.source].system
    ensures r.Ok? ==> r.value.1 !in cur && r.value.0 == cur[r.value.1 := CopyRow(cur, owner, j, name)]
    ensures r.Ok? ==> Forest(r.value.0) && UniqueNames(r.value.0)
    ensures r.Ok? ==> ListsChildren(r.value.0, owner, j.source, r.value.2)
    ensures r.Ok? ==> if j.rename
      then CopyName(cur, owner, j.parent, cur[j.source].name, cur[j.source].kind, namer) == Some(name)
      else name == cur[j.source].name
    ensures r.Ok? <==> !Refused(cur, owner, j, copied, namer)
  {
    count, name := copied, Name("", "");
    if j.depth > MAX_COPY_DEPTH {
      return Err(BadRequest), count, name;
    }
    count := copied + 1;
    if count > MAX_COPY_ENTRIES {
      return Err(BadRequest), count, name;
    }
    if j.source !in cur || cur[j.source].owner != owner || cur[j.source].trashed {
      return Err(NotFound), count, name;
    }
    var source := cur[j.source];
    if source.system {
      return Err(Protected), count, name;
    }
    name := source.name;
    if j.rename {
      var unused := CopyName(cur, owner, j.parent, source.name, source.kind, namer);
      if unused.None? {
        return Err(Conflict), count, name;
      }
      name := unused.value;
    }
    if !OpenHome(cur, owner, j.parent) || Taken(cur, owner, j.parent, name, None) {
      return Err(Conflict), count, name;
    }
    FreshExists(cur.Keys);
    var id :| id !in cur;
    RowKeepsNames(cur, id, CopyRow(cur, owner, j, name));
    InsertKeepsForest(cur, id, CopyRow(cur, owner, j, name));
    var next := cur[id := CopyRow(cur, owner, j, name)];
    var children := [];
    if source.kind.Folder? {
      children := Ascending(Children(next, owner, j.source));
    } else {
      FilesHaveNoChildren(next, owner, j.source);
    }
    r := Ok((next, id, children));
  }

  /** Every waiting job but the root's hangs under a copy, which can take it. */
  ghost predicate Homes(cur: Entries, owner: Id, pending: seq<CopyJob>) {
    forall k :: 0 <= k < |pending| && !pending[k].rename ==> OpenHome(cur, owner, pending[k].parent)
  }

  lemma HomesStep(cur: Entries, owner: Id, rest: seq<CopyJob>, j: CopyJob, id: Id, row: Entry, children: seq<Id>)
    requires Homes(cur, owner, rest + [j]) && id !in cur && row.owner == owner && !row.trashed
    requires row.kind.Folder? || children == []
    ensures Homes(cur[id := row], owner, rest + ChildJobs(children, id, j.depth))
  {
    forall k | 0 <= k < |rest| && !rest[k].rename ensures OpenHome(cur[id := row], owner, rest[k].parent) {
      assert (rest + [j])[k] == rest[k];
    }
  }

  /** One turn of the loop when the destination is outside the source. */
  lemma OutsideTurn(es: Entries, cur: Entries, owner: Id, source: Id, dest: Option<Id>, rootName: Name,
      image: map<Id, Id>, rest: seq<CopyJob>, j: CopyJob, id: Id, name: Name, children: seq<Id>)
    requires Forest(es) && source in es && Outside(es, source, dest)
      && Copying(es, cur, source, dest, rootName, image, rest + [j])
    requires j.source in cur && cur[j.source].owner == owner && id !in cur
      && name == (if j.rename then rootName else cur[j.source].name)
    requires ListsChildren(cur[id := CopyRow(cur, owner, j, name)], owner, j.source, children)
    ensures Copying(es, cur[id := CopyRow(cur, owner, j, name)], source, dest, rootName, image[j.source := id],
      rest + ChildJobs(children, id, j.depth))
  {
    assert (rest + [j])[|rest|] == j;
    CopyRowsStep(es, cur, source, dest, rootName, image, j, id, name);
    ChildrenUnchanged(es, cur[id := CopyRow(cur, owner, j, name)], owner, source, dest, rootName, image[j.source := id],
      j.source);
    CopyingStep(es, cur, owner, source, dest, rootName, image, rest, j, id, name, children);
  }

  /** What every turn keeps: an exact partial copy, or a job that still chases its own copies. */
  ghost predicate Progress(es: Entries, cur: Entries, owner: Id, source: Id, dest: Option<Id>, rootName: Name,
      image: map<Id, Id>, pending: seq<CopyJob>) {
    && Homes(cur, owner, pending)
    && (source in es ==> if Outside(es, source, dest) then Copying(es, cur, source, dest, rootName, image, pending)
      else Chasing(cur, pending))
  }

  lemma ProgressStart(es: Entries, owner: Id, source: Id, dest: Option<Id>, rootName: Name)
    ensures Progress(es, es, owner, source, dest, rootName, map[], [CopyJob(source, dest, true, 0)])
  {
    var pending := [CopyJob(source, dest, true, 0)];
    assert pending[0].source == source;
    assert Waiting(pending, source);
    if source in es {
      BelowSelf(es, source, true);
      if Outside(es, source, dest) {
        assert Copying(es, es, source, dest, rootName, map[], pending);
      } else {
        assert Chases(es, pending[0]);
      }
    }
  }

  lemma ProgressTurn(es: Entries, cur: Entries, owner: Id, source: Id, dest: Option<Id>, rootName: Name,
      image: map<Id, Id>, rest: seq<CopyJob>, j: CopyJob, id: Id, name: Name, children: seq<Id>)
    requires Forest(es) && Forest(cur) && source in es
      && Progress(es, cur, owner, source, dest, rootName, image, rest + [j])
    requires j.source in cur && cur[j.source].owner == owner && id !in cur
      && name == (if j.rename then rootName else cur[j.source].name)
    requires OpenHome(cur, owner, j.parent) && Forest(cur[id := CopyRow(cur, owner, j, name)])
    requires ListsChildren(cur[id := CopyRow(cur, owner, j, name)], owner, j.source, children)
    ensures Progress(es, cur[id := CopyRow(cur, owner, j, name)], owner, source, dest, rootName, image[j.source := id],
      rest + ChildJobs(children, id, j.depth))
  {
    var row := CopyRow(cur, owner, j, name);
    var grown := cur[id := row];
    assert (rest + [j])[|rest|] == j;
    assert children == [] || children[0] in children;
    if !row.kind.Folder? {
      FilesHaveNoChildren(grown, owner, j.source);
    }
    HomesStep(cur, owner, rest, j, id, row, children);
    if Outside(es, source, dest) {
      OutsideTurn(es, cur, owner, source, dest, rootName, image, rest, j, id, name, children);
    } else {
      ChasingStep(cur, grown, owner, rest, j, id, children);
    }
  }

  /** The name the copied root gets. */
  function RootName(es: Entries, source: Id, dest: Option<Id>, namer: Namer): Name {
    if source in es
      then CopyName(es, es[source].owner, dest, es[source].name, es[source].kind, namer).GetOr(es[source].name)
    else Name("", "")
  }

  /** Before the first turn only the root's job waits; afterwards no waiting job renames and the root has its copy. */
  ghost predicate RootFacts(es: Entries, owner: Id, first: CopyJob, copied: nat, namer: Namer, cur: Entries,
      image: map<Id, Id>, pending: seq<CopyJob>, count: nat, root: Option<Id>) {
    if root.None? then pending == [first] && cur == es && count == copied
    else
      && first.source in es && first.source in image && !Refused(es, owner, first, copied, namer)
      && (Outside(es, first.source, first.parent) ==> root.value == image[first.source])
      && forall k :: 0 <= k < |pending| ==> !pending[k].rename
  }

  lemma RootFactsTurn(es: Entries, owner: Id, first: CopyJob, copied: nat, namer: Namer, cur: Entries,
      image: map<Id, Id>, rest: seq<CopyJob>, j: CopyJob, count: nat, root: Option<Id>, grown: Entries, id: Id,
      children: seq<Id>)
    requires RootFacts(es, owner, first, copied, namer, cur, image, rest + [j], count, root)
    requires root.None? ==> first.rename && !Refused(es, owner, first, copied, namer)
    requires root.Some? && Outside(es, first.source, first.parent) ==> j.source !in image
    ensures RootFacts(es, owner, first, copied, namer, grown, image[j.source := id],
      rest + ChildJobs(children, id, j.depth), count + 1, if root.None? then Some(id) else root)
  {
    var pending := rest + [j];
    assert pending[|rest|] == j;
    if root.None? {
      assert rest == [] && j == first;
    } else {
      forall k | 0 <= k < |rest| ensures !rest[k].rename {
        assert pending[k] == rest[k];
      }
    }
  }

  // ----- which copies succeed

  /** `source` is `d` levels above `x`. */
  ghost predicate DeepAt(es: Entries, source: Id, x: Id, d: nat)
    requires Forest(es)
  {
    x in es && d < |ChainOf(es, x)| && ChainOf(es, x)[d] == source
  }

  ghost predicate WithinLimits(es: Entries, source: Id, x: Id)
    requires Forest(es)
  {
    x in es && !es[x].system && forall d: nat :: DeepAt(es, source, x, d) ==> d <= MAX_COPY_DEPTH
  }

  ghost function LiveBelow(es: Entries, source: Id): set<Id> {
    set x | x in es && Below(es, source, x, true)
  }

  /** The root may be copied, to a place outside its own subtree, and every untrashed entry below it is unprotected, at
      most 40 levels down and within the rest of the 500 entries. */
  ghost predicate Copyable(es: Entries, owner: Id, source: Id, dest: Option<Id>, copied: nat, namer: Namer)
    requires Forest(es)
  {
    && !Refused(es, owner, CopyJob(source, dest, true, 0), copied, namer) && Outside(es, source, dest)
    && (forall x :: x in LiveBelow(es, source) ==> WithinLimits(es, source, x))
    && |LiveBelow(es, source)| + copied <= MAX_COPY_ENTRIES
  }

  lemma OneDepth(es: Entries, source: Id, x: Id, d: nat, e: nat)
    requires Forest(es) && DeepAt(es, source, x, d) && DeepAt(es, source, x, e)
    ensures d == e
  {
    if d < e {
      ChainDistinct(es, ChainOf(es, x), d, e);
    } else if e < d {
      ChainDistinct(es, ChainOf(es, x), e, d);
    }
  }

  lemma ChildDepth(es: Entries, source: Id, x: Id, y: Id, d: nat)
    requires Forest(es) && DeepAt(es, source, x, d) && y in es && es[y].parent == Some(x)
    ensures DeepAt(es, source, y, d + 1)
  {
    ChainOfParent(es, y);
  }

  /** How much has been copied, that all of it was within the limits, and how deep the waiting entries are. */
  ghost predicate Measured(es: Entries, source: Id, image: map<Id, Id>, pending: seq<CopyJob>, n: int)
    requires Forest(es)
  {
    && |image| == n && (forall x :: x in image ==> WithinLimits(es, source, x))
    && (forall k :: 0 <= k < |pending| ==> DeepAt(es, source, pending[k].source, pending[k].depth))
  }

  lemma MeasuredTurn(es: Entries, owner: Id, source: Id, image: map<Id, Id>, rest: seq<CopyJob>, j: CopyJob, id: Id,
      children: seq<Id>, n: int)
    requires Forest(es) && Measured(es, source, image, rest + [j], n)
    requires j.source in es && j.source !in image && !es[j.source].system && j.depth <= MAX_COPY_DEPTH
    requires forall y :: y in children ==> y in Children(es, owner, j.source)
    ensures Measured(es, source, image[j.source := id], rest + ChildJobs(children, id, j.depth), n + 1)
  {
    var pending, jobs := rest + [j], ChildJobs(children, id, j.depth);
    assert pending[|rest|] == j;
    assert DeepAt(es, source, j.source, j.depth);
    forall d: nat | DeepAt(es, source, j.source, d) ensures d <= MAX_COPY_DEPTH {
      OneDepth(es, source, j.source, d, j.depth);
    }
    forall k | 0 <= k < |rest + jobs| ensures DeepAt(es, source, (rest + jobs)[k].source, (rest + jobs)[k].depth) {
      if k < |rest| {
        assert pending[k] == rest[k];
      } else {
        assert jobs[k - |rest|].source in children;
        ChildDepth(es, source, j.source, jobs[k - |rest|].source, j.depth);
      }
    }
  }

  lemma MeasuredDone(es: Entries, cur: Entries, source: Id, dest: Option<Id>, rootName: Name, image: map<Id, Id>,
      n: int)
    requires Forest(es) && Measured(es, source, image, [], n) && IsCopy(es, cur, source, dest, rootName, image)
    ensures |LiveBelow(es, source)| == n && forall x :: x in LiveBelow(es, source) ==> WithinLimits(es, source, x)
  {
    forall x | x in image ensures x in LiveBelow(es, source) {
      assert CopiedRow(es, cur, source, dest, rootName, image, x);
    }
    assert LiveBelow(es, source) == image.Keys;
    assert |image.Keys| == |image|;
  }

  lemma BelowIsOwned(es: Entries, source: Id, x: Id)
    requires Forest(es) && x in es && Below(es, source, x, true)
    ensures source in es && es[x].owner == es[source].owner && (x != source ==> !es[x].trashed)
  {
    var p :| DownPath(es, source, x, true, p);
    assert DownPath(es, source, x, false, p);
    ChainOwner(es, p, |p| - 1);
    if x != source {
      BelowParent(es, source, x, true);
    }
  }

  /** A refusal on the way means that the copy as a whole was not possible. */
  lemma RefusedOnTheWay(es: Entries, cur: Entries, owner: Id, source: Id, dest: Option<Id>, rootName: Name,
      image: map<Id, Id>, pending: seq<CopyJob>, j: CopyJob, copied: nat, count: nat, namer: Namer)
    requires Forest(es) && source in es && es[source].owner == owner
      && Copying(es, cur, source, dest, rootName, image, pending)
    requires Measured(es, source, image, pending, count - copied) && count <= MAX_COPY_ENTRIES
      && j in pending && j.source != source && !j.rename
    requires Refused(cur, owner, j, count, namer) && OpenHome(cur, owner, j.parent)
    requires UniqueNames(es) && OpenHome(es, owner, dest)
    ensures !Copyable(es, owner, source, dest, copied, namer)
  {
    var k :| 0 <= k < |pending| && pending[k] == j;
    assert JobFits(es, source, dest, image, j) && DeepAt(es, source, j.source, j.depth);
    BelowIsOwned(es, source, j.source);
    ChildNeverCollides(es, cur, source, dest, rootName, image, j);
    assert cur[j.source] == es[j.source];
    if count == MAX_COPY_ENTRIES {
      CopiedIsBelow(es, cur, source, dest, rootName, image);
      OneMore(image.Keys, LiveBelow(es, source), j.source);
      assert |image.Keys| == |image|;
    } else {
      assert j.source in LiveBelow(es, source) && !WithinLimits(es, source, j.source);
    }
  }

  lemma CopiedIsBelow(es: Entries, cur: Entries, source: Id, dest: Option<Id>, rootName: Name, image: map<Id, Id>)
    requires CopiedRows(es, cur, source, dest, rootName, image)
    ensures image.Keys <= LiveBelow(es, source)
  {
    forall y | y in image ensures y in LiveBelow(es, source) {
      assert CopiedRow(es, cur, source, dest, rootName, image, y);
    }
  }

  lemma OneMore(a: set<Id>, b: set<Id>, x: Id)
    requires a <= b && x in b && x !in a
    ensures |a| < |b|
  {
    SubsetSize(a, b - {x});
  }

  /** Copied children never collide: beside them under the new folder are only copies of their own siblings. */
  lemma ChildNeverCollides(es: Entries, cur: Entries, source: Id, dest: Option<Id>, rootName: Name, image: map<Id, Id>,
      j: CopyJob)
    requires Forest(es) && UniqueNames(es) && CopiedRows(es, cur, source, dest, rootName, image)
    requires JobFits(es, source, dest, image, j) && j.source != source && !es[j.source].trashed
      && source in es && OpenHome(es, es[source].owner, dest)
    ensures !Taken(cur, es[j.source].owner, j.parent, es[j.source].name, None)
  {
    var p := es[j.source].parent.value;
    assert CopiedRow(es, cur, source, dest, rootName, image, p);
    forall z | z in cur ensures !Occupies(cur[z], es[j.source].owner, j.parent, es[j.source].name) {
      if z in es {
        assert ParentOk(es, z);
      } else {
        var y :| y in image && image[y] == z;
        assert CopiedRow(es, cur, source, dest, rootName, image, y);
        SiblingsDiffer(es, cur, source, dest, rootName, image, j, y);
      }
    }
  }

  lemma SiblingsDiffer(es: Entries, cur: Entries, source: Id, dest: Option<Id>, rootName: Name, image: map<Id, Id>,
      j: CopyJob, y: Id)
    requires Forest(es) && UniqueNames(es) && CopiedRows(es, cur, source, dest, rootName, image)
    requires JobFits(es, source, dest, image, j) && j.source != source && !es[j.source].trashed && y in image
    requires CopiedRow(es, cur, source, dest, rootName, image, y)
      && CopiedRow(es, cur, source, dest, rootName, image, es[j.source].parent.value)
    requires y == source ==> dest != j.parent
    ensures !Occupies(cur[image[y]], es[j.source].owner, j.parent, es[j.source].name)
  {
    if y != source && es[y].parent == es[j.source].parent {
      BelowParent(es, source, y, true);
      assert !Clash(es, y, j.source);
    }
  }

  lemma SubsetSize(a: set<Id>, b: set<Id>)
    requires a <= b
    ensures |a| <= |b|
  {
    assert b == a + (b - a);
  }

  lemma SplitLast(pending: seq<CopyJob>)
    requires pending != []
    ensures pending == pending[..|pending| - 1] + [pending[|pending| - 1]]
  {
  }

  /** Everything the loop keeps. */
  ghost predicate CopyLoop(es: Entries, owner: Id, first: CopyJob, copied: nat, namer: Namer, cur: Entries,
      image: map<Id, Id>, pending: seq<CopyJob>, count: nat, root: Option<Id>)
    requires Forest(es)
  {
    && Forest(cur) && UniqueNames(cur) && copied <= count <= MAX_COPY_ENTRIES && |cur| == |es| + count - copied
    && Progress(es, cur, owner, first.source, first.parent, RootName(es, first.source, first.parent, namer), image,
      pending)
    && RootFacts(es, owner, first, copied, namer, cur, image, pending, count, root)
    && (first.source in es && Outside(es, first.source, first.parent) ==>
      Measured(es, first.source, image, pending, count - copied))
  }

  lemma LoopStart(es: Entries, owner: Id, first: CopyJob, copied: nat, namer: Namer)
    requires Forest(es) && UniqueNames(es) && copied <= MAX_COPY_ENTRIES && first.rename && first.depth == 0
    ensures CopyLoop(es, owner, first, copied, namer, es, map[], [first], copied, None)
  {
    ProgressStart(es, owner, first.source, first.parent, RootName(es, first.source, first.parent, namer));
    if first.source in es {
      assert DeepAt(es, first.source, first.source, 0);
    }
  }

  /** The job just copied was waiting for its first copy, and its children in the grown table are its old ones. */
  lemma JobFacts(es: Entries, cur: Entries, owner: Id, source: Id, dest: Option<Id>, rootName: Name, image: map<Id, Id>,
                 rest: seq<CopyJob>, j: CopyJob, id: Id, name: Name, children: seq<Id>)
    requires source in es && Outside(es, source, dest) && Copying(es, cur, source, dest, rootName, image, rest + [j])
    requires j.source in cur && cur[j.source].owner == owner && id !in cur
      && name == (if j.rename then rootName else cur[j.source].name)
    requires ListsChildren(cur[id := CopyRow(cur, owner, j, name)], owner, j.source, children)
    ensures JobFits(es, source, dest, image, j) && cur[j.source] == es[j.source]
    ensures forall y :: y in children ==> y in Children(es, owner, j.source)
  {
    assert (rest + [j])[|rest|] == j;
    CopyRowsStep(es, cur, source, dest, rootName, image, j, id, name);
    ChildrenUnchanged(es, cur[id := CopyRow(cur, owner, j, name)], owner, source, dest, rootName, image[j.source := id],
      j.source);
  }

  lemma LoopTurn(es: Entries, owner: Id, first: CopyJob, copied: nat, namer: Namer, cur: Entries, image: map<Id, Id>,
                 rest: seq<CopyJob>, j: CopyJob, count: nat, root: Option<Id>, id: Id, name: Name, children: seq<Id>)
    requires Forest(es) && first.rename
      && CopyLoop(es, owner, first, copied, namer, cur, image, rest + [j], count, root)
    requires !Refused(cur, owner, j, count, namer) && id !in cur
    requires Forest(cur[id := CopyRow(cur, owner, j, name)]) && UniqueNames(cur[id := CopyRow(cur, owner, j, name)])
    requires if j.rename
      then CopyName(cur, owner, j.parent, cur[j.source].name, cur[j.source].kind, namer) == Some(name)
      else name == cur[j.source].name
    requires ListsChildren(cur[id := CopyRow(cur, owner, j, name)], owner, j.source, children)
    ensures CopyLoop(es, owner, first, copied, namer, cur[id := CopyRow(cur, owner, j, name)], image[j.source := id],
                     rest + ChildJobs(children, id, j.depth), count + 1, if root.None? then Some(id) else root)
  {
    var grown, rootName := cur[id := CopyRow(cur, owner, j, name)], RootName(es, first.source, first.parent, namer);
    assert (rest + [j])[|rest|] == j;
    assert root.None? ==> rest == [] && j == first;
    assert first.source in es && name == (if j.rename then rootName else cur[j.source].name);
    ProgressTurn(es, cur, owner, first.source, first.parent, rootName, image, rest, j, id, name, children);
    if Outside(es, first.source, first.parent) {
      JobFacts(es, cur, owner, first.source, first.parent, rootName, image, rest, j, id, name, children);
      MeasuredTurn(es, owner, first.source, image, rest, j, id, children, count - copied);
    }
    RootFactsTurn(es, owner, first, copied, namer, cur, image, rest, j, count, root, grown, id, children);
  }

  lemma LoopRefused(es: Entries, owner: Id, first: CopyJob, copied: nat, namer: Namer, cur: Entries, image: map<Id, Id>,
                    rest: seq<CopyJob>, j: CopyJob, count: nat, root: Option<Id>)
    requires Forest(es) && first == CopyJob(first.source, first.parent, true, 0)
    requires CopyLoop(es, owner, first, copied, namer, cur, image, rest + [j], count, root)
      && Refused(cur, owner, j, count, namer)
    requires UniqueNames(es)
    ensures !Copyable(es, owner, first.source, first.parent, copied, namer)
  {
    var pending := rest + [j];
    assert pending[|rest|] == j;
    if root.None? {
      assert j == first && cur == es && count == copied;
    } else if Outside(es, first.source, first.parent) {
      RefusedOnTheWay(es, cur, owner, first.source, first.parent, RootName(es, first.source, first.parent, namer),
        image, pending, j, copied, count, namer);
    }
  }

  lemma LoopDone(es: Entries, owner: Id, first: CopyJob, copied: nat, namer: Namer, cur: Entries, image: map<Id, Id>,
      count: nat, root: Option<Id>)
    requires Forest(es) && first == CopyJob(first.source, first.parent, true, 0)
    requires CopyLoop(es, owner, first, copied, namer, cur, image, [], count, root)
    ensures Copyable(es, owner, first.source, first.parent, copied, namer) && root.Some?
      && first.source in image && root.value == image[first.source]
    ensures IsCopy(es, cur, first.source, first.parent, RootName(es, first.source, first.parent, namer), image)
  {
    var rootName := RootName(es, first.source, first.parent, namer);
    assert root.Some?;
    CopyingDone(es, cur, first.source, first.parent, rootName, image);
    MeasuredDone(es, cur, first.source, first.parent, rootName, image, count - copied);
  }

  /** `copy_owned_entry`: a success is an exact copy, and the copies that succeed are exactly the possible ones. In
      particular none into the source's own subtree does, where the worklist keeps finding its own copies. */
  method CopyOwned(es: Entries, owner: Id, source: Id, dest: Option<Id>, copied: nat, namer: Namer)
    returns (r: Result<(Entries, Id), DriveError>, count: nat, ghost image: map<Id, Id>)
    requires Forest(es) && UniqueNames(es) && copied <= MAX_COPY_ENTRIES
    ensures r.Ok? <==> Copyable(es, owner, source, dest, copied, namer)
    ensures r.Ok? ==>
      IsCopy(es, r.value.0, source, dest, RootName(es, source, dest, namer), image)
      && source in image && r.value.1 == image[source]
    ensures r.Ok? ==>
      Forest(r.value.0) && UniqueNames(r.value.0) && count <= MAX_COPY_ENTRIES && |r.value.0| == |es| + count - copied
  {
    image, count := map[], copied;
    var cur := es;
    var first := CopyJob(source, dest, true, 0);
    var pending := [first];
    var root: Option<Id> := None;
    LoopStart(es, owner, first, copied, namer);
    while pending != []
      invariant CopyLoop(es, owner, first, copied, namer, cur, image, pending, count, root)
      decreases MAX_COPY_ENTRIES - count
    {
      var job := pending[|pending| - 1];
      var rest := pending[..|pending| - 1];
      SplitLast(pending);
      var one, next, name := CopyOne(cur, owner, job, count, namer);
      if one.Err? {
        LoopRefused(es, owner, first, copied, namer, cur, image, rest, job, count, root);
        return Err(one.error), count, image;
      }
      var (grown, id, children) := one.value;
      LoopTurn(es, owner, first, copied, namer, cur, image, rest, job, count, root, id, name, children);
      image := image[job.source := id];
      root := if root.None? then Some(id) else root;
      count, cur, pending := next, grown, rest + ChildJobs(children, id, job.depth);
    }
    LoopDone(es, owner, first, copied, namer, cur, image, count, root);
    r := Ok((cur, root.value));
  }

  // ----- a copy is a well-formed tree

  lemma {:induction false} CopyHasChain(es: Entries, cur: Entries, source: Id, dest: Option<Id>, rootName: Name,
      image: map<Id, Id>, x: Id)
    requires Forest(es) && source in es && CopiedRows(es, cur, source, dest, rootName, image) && x in image
    requires dest.Some? ==> dest.value in es
    ensures image[x] in cur && HasChain(cur, image[x])
    decreases if x in es then |ChainOf(es, x)| else 0
  {
    assert CopiedRow(es, cur, source, dest, rootName, image, x);
    var above: seq<Id>;
    if x == source {
      above := ChainFrom(es, dest);
      if dest.Some? {
        SameClimb(es, cur, above);
      }
    } else {
      var p := es[x].parent.value;
      ChainOfParent(es, x);
      CopyHasChain(es, cur, source, dest, rootName, image, p);
      above :| Chain(cur, above) && above[0] == image[p];
    }
    ClimbSplice(cur, [image[x]], above);
    assert Chain(cur, [image[x]] + above) && ([image[x]] + above)[0] == image[x];
  }

  lemma CopyParents(es: Entries, cur: Entries, source: Id, dest: Option<Id>, rootName: Name, image: map<Id, Id>, z: Id)
    requires Forest(es) && source in es && CopiedRows(es, cur, source, dest, rootName, image) && z in cur
    requires OpenHome(es, es[source].owner, dest)
    ensures ParentOk(cur, z)
  {
    if z in es {
      assert ParentOk(es, z);
    } else {
      var x :| x in image && image[x] == z;
      assert CopiedRow(es, cur, source, dest, rootName, image, x);
      if x != source {
        assert ParentOk(es, x);
        assert CopiedRow(es, cur, source, dest, rootName, image, es[x].parent.value);
      }
    }
  }

  lemma CopyKeepsForest(es: Entries, cur: Entries, source: Id, dest: Option<Id>, rootName: Name, image: map<Id, Id>)
    requires Forest(es) && source in es && CopiedRows(es, cur, source, dest, rootName, image)
    requires OpenHome(es, es[source].owner, dest)
    ensures Forest(cur)
  {
    forall z | z in cur ensures ParentOk(cur, z) && HasChain(cur, z) {
      CopyParents(es, cur, source, dest, rootName, image, z);
      if z in es {
        SameClimb(es, cur, ChainOf(es, z));
        assert Chain(cur, ChainOf(es, z));
      } else {
        var x :| x in image && image[x] == z;
        CopyHasChain(es, cur, source, dest, rootName, image, x);
      }
    }
  }

  /** A copy clashes neither with what was there nor with another copy. */
  lemma CopyNoClash(es: Entries, cur: Entries, source: Id, dest: Option<Id>, rootName: Name, image: map<Id, Id>, x: Id,
      z: Id)
    requires Forest(es) && UniqueNames(es) && source in es && CopiedRows(es, cur, source, dest, rootName, image)
    requires OpenHome(es, es[source].owner, dest) && !Taken(es, es[source].owner, dest, rootName, None)
    requires x in image && z in cur && z != image[x]
    ensures !Occupies(cur[z], cur[image[x]].owner, cur[image[x]].parent, cur[image[x]].name)
  {
    assert CopiedRow(es, cur, source, dest, rootName, image, x);
    BelowIsOwned(es, source, x);
    if x != source {
      assert CopiedRow(es, cur, source, dest, rootName, image, es[x].parent.value);
    }
    if z in es {
      assert ParentOk(es, z);
    } else {
      var y :| y in image && image[y] == z;
      assert CopiedRow(es, cur, source, dest, rootName, image, y);
      BelowIsOwned(es, source, y);
      if y != source {
        assert CopiedRow(es, cur, source, dest, rootName, image, es[y].parent.value);
      }
      assert !Clash(es, y, x);
    }
  }

  lemma CopyKeepsNames(es: Entries, cur: Entries, source: Id, dest: Option<Id>, rootName: Name, image: map<Id, Id>)
    requires Forest(es) && UniqueNames(es) && source in es && CopiedRows(es, cur, source, dest, rootName, image)
    requires OpenHome(es, es[source].owner, dest) && !Taken(es, es[source].owner, dest, rootName, None)
    ensures UniqueNames(cur)
  {
    forall z, w | z in cur && w in cur ensures !Clash(cur, z, w) {
      if w in es && z in es {
        assert !Clash(es, z, w);
      } else if w !in es {
        var x :| x in image && image[x] == w;
        if z != w {
          CopyNoClash(es, cur, source, dest, rootName, image, x, z);
        }
      } else {
        var x :| x in image && image[x] == z;
        if z != w {
          CopyNoClash(es, cur, source, dest, rootName, image, x, w);
        }
      }
    }
  }

  /** Whatever a possible copy adds, the result is again a forest with unique names. */
  lemma CopyIsWellFormed(es: Entries, cur: Entries, owner: Id, source: Id, dest: Option<Id>, copied: nat, namer: Namer,
      image: map<Id, Id>)
    requires Forest(es) && UniqueNames(es) && Copyable(es, owner, source, dest, copied, namer)
    requires IsCopy(es, cur, source, dest, RootName(es, source, dest, namer), image)
    ensures Forest(cur) && UniqueNames(cur)
  {
    CopyKeepsForest(es, cur, source, dest, RootName(es, source, dest, namer), image);
    CopyKeepsNames(es, cur, source, dest, RootName(es, source, dest, namer), image);
  }
}
