/** Every run of face jobs and of the owner's renames, merges and separations over one table of file versions
    (src/media_indexer.rs, src/faces.rs). Each is one transaction; what a job's detector and candidate query answer is
    given with it. */
module FaceRuns {
  import opened Common
  import opened FaceMerge
  import opened FacePlan
  import opened FaceLabel
  import opened FaceStore

  /** `used` is every cluster id ever drawn. */
  datatype State = State(observations: Observations, clusters: Clusters, used: set<Id>)

  /** The files not in the trash, and the candidate query's rows with the observations they came from. */
  datatype Query = Query(live: set<Id>, rows: seq<Candidate>, from: seq<Id>)

  datatype Op =
    | FaceJob(version: Id, recipe: nat, faces: seq<Descriptor>, query: Query, ownsLease: bool, trace: Trace)
    | Rename(user: Id, cluster: Id, text: Option<string>)
    | Merge(user: Id, target: Id, sources: seq<Id>)
    | Separate(user: Id, cluster: Id, files: seq<Id>, newId: Id)

  const Initial := State(map[], map[], {})

  /** The job commits: its lease holds, its faces are admissible, its candidates are those of the query, and `trace` is
      what it did to the tables it found. */
  ghost predicate Commits(versions: map<Id, Version>, s: State, op: Op)
    requires op.FaceJob?
  {
    && op.version in versions && op.ownsLease && Store.Admissible(s.observations, op.version, op.recipe, op.faces)
    && AnswersSwept(versions, s.observations, s.clusters, op.version, op.recipe, op.query.live, op.query.rows,
         op.query.from)
    && var obs := Dropped(s.observations, op.version, op.recipe);
       var owner := versions[op.version].owner;
       && Explains(obs, Swept(s.clusters, obs, owner), Redirect(op.trace.filed, op.trace.plan),
            op.trace.groups - Sources(op.trace.plan), owner, op.version, op.recipe, op.faces, op.query.rows, op.trace)
       && op.trace.groups.Keys - Swept(s.clusters, obs, owner).Keys !! s.used
  }

  ghost function Step(versions: map<Id, Version>, s: State, op: Op): State {
    match op
    case FaceJob(_, _, _, _, _, trace) =>
      if Commits(versions, s, op)
        then State(Redirect(trace.filed, trace.plan), trace.groups - Sources(trace.plan), s.used + trace.groups.Keys)
      else s
    case Rename(u, c, text) =>
      if Store.MayRename(s.clusters, u, c, text)
        then s.(clusters := s.clusters[c := Cluster(u, NormalizeLabel(text).value)])
      else s
    case Merge(u, t, sources) =>
      if Store.MayMerge(s.clusters, u, t, sources) then
        s.(observations := map o | o in s.observations :: Store.MergedInto(s.observations[o], sources, t),
           clusters := s.clusters - (set c | c in sources))
      else s
    case Separate(u, c, files, n) =>
      if Store.MaySeparate(versions, s.observations, s.clusters, u, c, files) && n !in s.used then
        var obs := SplitOff(versions, s.observations, u, c, files, n);
        var left := if s.clusters[c].labelText.None? && !Used(obs, c) then s.clusters - {c} else s.clusters;
        State(obs, left[n := Cluster(u, None)], s.used + {n})
      else s
  }

  function SplitOff(versions: map<Id, Version>, obs: Observations, user: Id, cluster: Id, files: seq<Id>,
      newId: Id): Observations {
    map o | o in obs :: if Store.Splits(versions, obs[o], user, cluster, files)
      then obs[o].(cluster := Some(newId)) else obs[o]
  }

  // ----- observations point to clusters of their file's owner

  lemma FiledGroupIsBacked(faces: seq<Descriptor>, fetched: seq<Candidate>, f: Filing, clusters: Clusters, owner: Id,
      i: nat)
    requires i < |faces| == |f.seen| == |f.groups| && FiledUnder(faces, fetched, f, i)
      && Backed(f.candidates, clusters, owner)
    ensures f.groups[i] in clusters && clusters[f.groups[i]].owner == owner
  {
    var n := f.seen[i];
    if !NoMatch(faces[i], f.candidates[..n]) {
      var c :| c in f.candidates[..n] && c.cluster == f.groups[i];
      var k :| 0 <= k < n && f.candidates[k] == c;
    }
  }

  lemma FilingKeepsConsistent(versions: map<Id, Version>, obs: Observations, clusters: Clusters, owner: Id, version: Id,
      recipe: nat, faces: seq<Descriptor>, fetched: seq<Candidate>, trace: Trace)
    requires Consistent(versions, obs, clusters) && version in versions && versions[version].owner == owner
    requires Filed(obs, trace.filed, version, recipe, faces, fetched, trace.filing)
    requires Grew(clusters, trace.groups, owner, fetched, trace.filing.candidates)
    requires Backed(trace.filing.candidates, trace.groups, owner)
    ensures Consistent(versions, trace.filed, trace.groups)
  {
    var f := trace.filing;
    forall o | o in trace.filed
      ensures trace.filed[o].version in versions
      ensures trace.filed[o].cluster.Some? ==>
                trace.filed[o].cluster.value in trace.groups
                && trace.groups[trace.filed[o].cluster.value].owner == versions[trace.filed[o].version].owner
    {
      if o !in obs {
        var i :| 0 <= i < |f.ids| && f.ids[i] == o;
        assert RowFor(trace.filed, version, recipe, faces, f, i) && FiledUnder(faces, fetched, f, i);
        FiledGroupIsBacked(faces, fetched, f, trace.groups, owner, i);
      }
    }
  }

  /** What a committed job finds after its sweep, and what its candidates are backed by. */
  lemma JobStarts(versions: map<Id, Version>, s: State, op: Op)
    requires Consistent(versions, s.observations, s.clusters) && op.FaceJob? && Commits(versions, s, op)
    ensures var obs := Dropped(s.observations, op.version, op.recipe);
            Consistent(versions, obs, Swept(s.clusters, obs, versions[op.version].owner))
  {
    SweepKeepsConsistent(versions, s.observations, s.clusters, op.version, op.recipe, versions[op.version].owner);
  }

  lemma JobKeepsConsistent(versions: map<Id, Version>, s: State, op: Op)
    requires Consistent(versions, s.observations, s.clusters) && op.FaceJob? && Commits(versions, s, op)
    ensures Consistent(versions, Step(versions, s, op).observations, Step(versions, s, op).clusters)
  {
    var owner, obs := versions[op.version].owner, Dropped(s.observations, op.version, op.recipe);
    JobStarts(versions, s, op);
    FilingKeepsConsistent(versions, obs, Swept(s.clusters, obs, owner), owner, op.version, op.recipe, op.faces,
      op.query.rows, op.trace);
    RedirectConsistent(versions, op.trace.filed, op.trace.groups, op.trace.plan, owner);
  }

  lemma SeparateKeepsConsistent(versions: map<Id, Version>, s: State, op: Op)
    requires Consistent(versions, s.observations, s.clusters) && s.clusters.Keys <= s.used && op.Separate?
    ensures Consistent(versions, Step(versions, s, op).observations, Step(versions, s, op).clusters)
  {
    var t := Step(versions, s, op);
    if t != s {
      forall o | o in t.observations && t.observations[o].cluster.Some?
        ensures t.observations[o].cluster.value in t.clusters {
        assert Used(t.observations, t.observations[o].cluster.value);
      }
    }
  }

  lemma StepKeepsConsistent(versions: map<Id, Version>, s: State, op: Op)
    requires Inv(versions, s)
    ensures Consistent(versions, Step(versions, s, op).observations, Step(versions, s, op).clusters)
  {
    if op.FaceJob? && Commits(versions, s, op) {
      JobKeepsConsistent(versions, s, op);
    } else if op.Separate? {
      SeparateKeepsConsistent(versions, s, op);
    }
  }

  /** Labels as the table demands them; clusters under ids that were drawn. */
  ghost predicate Inv(versions: map<Id, Version>, s: State) {
    && Consistent(versions, s.observations, s.clusters) && s.clusters.Keys <= s.used
    && forall c :: c in s.clusters && s.clusters[c].labelText.Some? ==> GoodLabel(s.clusters[c].labelText.value)
  }

  lemma StepKeepsLabels(versions: map<Id, Version>, s: State, op: Op, c: Id)
    requires Inv(versions, s) && c in Step(versions, s, op).clusters
    ensures c in Step(versions, s, op).used
    ensures var text := Step(versions, s, op).clusters[c].labelText; text.Some? ==> GoodLabel(text.value)
  {
    if op.Rename? && op.text.Some? {
      NormalizedIsGood(op.text.value);
    }
  }

  lemma StepKeepsInv(versions: map<Id, Version>, s: State, op: Op)
    requires Inv(versions, s)
    ensures Inv(versions, Step(versions, s, op))
  {
    StepKeepsConsistent(versions, s, op);
    var t := Step(versions, s, op);
    forall c | c in t.clusters
      ensures c in t.used && (t.clusters[c].labelText.Some? ==> GoodLabel(t.clusters[c].labelText.value)) {
      StepKeepsLabels(versions, s, op, c);
    }
  }

  /** `tr` holds the tables before each operation and after the last. */
  ghost predicate IsRun(versions: map<Id, Version>, ops: seq<Op>, tr: seq<State>) {
    && |tr| == |ops| + 1 && tr[0] == Initial
    && forall k {:trigger Follows(versions, ops, tr, k)} :: 0 <= k < |ops| ==> Follows(versions, ops, tr, k)
  }

  ghost predicate Follows(versions: map<Id, Version>, ops: seq<Op>, tr: seq<State>, k: nat)
    requires k < |ops| && k + 1 < |tr|
  {
    tr[k + 1] == Step(versions, tr[k], ops[k])
  }

  /** Whatever operations are asked for, they have a run. */
  lemma {:induction false} RunExists(versions: map<Id, Version>, ops: seq<Op>) returns (tr: seq<State>)
    ensures IsRun(versions, ops, tr)
  {
    tr := [Initial];
    if ops != [] {
      var front := ops[..|ops| - 1];
      var before := RunExists(versions, front);
      tr := before + [Step(versions, before[|front|], ops[|front|])];
      forall k | 0 <= k < |front| ensures Follows(versions, ops, tr, k) {
        assert Follows(versions, front, before, k);
      }
    }
  }

  /** In every run each clustered observation points to an existing cluster of its file's owner, and every label is
    * trimmed and has 1 to 80 characters. */
  lemma {:induction false} RunKeepsInv(versions: map<Id, Version>, ops: seq<Op>, tr: seq<State>, k: nat)
    requires IsRun(versions, ops, tr) && k <= |ops|
    ensures Inv(versions, tr[k])
  {
    if k > 0 {
      RunKeepsInv(versions, ops, tr, k - 1);
      assert Follows(versions, ops, tr, k - 1);
      StepKeepsInv(versions, tr[k - 1], ops[k - 1]);
    }
  }

  // ----- labelled clusters

  ghost predicate Labelled(s: State, c: Id) {
    c in s.clusters && s.clusters[c].labelText.Some?
  }

  /** The step is an owner merge that succeeds and takes `c` as a source. */
  ghost predicate Absorbs(s: State, op: Op, c: Id) {
    op.Merge? && Store.MayMerge(s.clusters, op.user, op.target, op.sources) && c in op.sources
  }

  /** The step is a rename of `c` by its owner that succeeds. */
  ghost predicate Renames(s: State, op: Op, c: Id) {
    op.Rename? && op.cluster == c && Store.MayRename(s.clusters, op.user, c, op.text)
  }

  /** The owner takes the label away. */
  ghost predicate Clears(s: State, op: Op, c: Id) {
    Renames(s, op, c) && op.text.None?
  }

  /** One of the two ways in which a label is lost. */
  ghost predicate LosesLabel(s: State, op: Op, c: Id) {
    Absorbs(s, op, c) || Clears(s, op, c)
  }

  /** A labelled cluster goes in a step exactly when an owner merge absorbs it; it changes only when its owner renames
      it, and is left without a label exactly when that clears it. */
  lemma StepOnLabelled(versions: map<Id, Version>, s: State, op: Op, c: Id)
    requires Labelled(s, c) && s.clusters.Keys <= s.used
    ensures c !in Step(versions, s, op).clusters <==> Absorbs(s, op, c)
    ensures !Labelled(Step(versions, s, op), c) <==> LosesLabel(s, op, c)
    ensures !Absorbs(s, op, c) && !Renames(s, op, c) ==>
      c in Step(versions, s, op).clusters && Step(versions, s, op).clusters[c] == s.clusters[c]
  {
    if op.FaceJob? && Commits(versions, s, op) {
      var owner, obs := versions[op.version].owner, Dropped(s.observations, op.version, op.recipe);
      var t := Step(versions, s, op);
      FaceJobConserves(obs, Swept(s.clusters, obs, owner), t.observations, t.clusters, owner, op.version, op.recipe,
        op.faces, op.query.rows, op.trace);
    }
  }

  lemma NextMoment(versions: map<Id, Version>, ops: seq<Op>, tr: seq<State>, j: nat, c: Id)
    requires IsRun(versions, ops, tr) && j < |ops| && Labelled(tr[j], c)
    ensures c !in tr[j + 1].clusters <==> Absorbs(tr[j], ops[j], c)
    ensures !Labelled(tr[j + 1], c) <==> LosesLabel(tr[j], ops[j], c)
    ensures !Absorbs(tr[j], ops[j], c) && !Renames(tr[j], ops[j], c) ==>
      c in tr[j + 1].clusters && tr[j + 1].clusters[c] == tr[j].clusters[c]
  {
    RunKeepsInv(versions, ops, tr, j);
    assert Follows(versions, ops, tr, j);
    StepOnLabelled(versions, tr[j], ops[j], c);
  }

  /** Over every run: a cluster labelled before step `i` keeps a label until, at some step `j`, an owner merge absorbs
      it or its owner clears the label; without such a step it is labelled still. */
  lemma LabelledUntil(versions: map<Id, Version>, ops: seq<Op>, tr: seq<State>, i: nat, k: nat, c: Id)
      returns (j: Option<nat>)
    requires IsRun(versions, ops, tr) && i <= k <= |ops| && Labelled(tr[i], c)
    ensures j.None? ==> forall m :: i <= m <= k ==> Labelled(tr[m], c)
    ensures j.None? ==> forall m :: i <= m < k ==> !LosesLabel(tr[m], ops[m], c)
    ensures j.Some? ==> i <= j.value < k && LosesLabel(tr[j.value], ops[j.value], c)
    ensures j.Some? ==> forall m :: i <= m <= j.value ==> Labelled(tr[m], c)
  {
    var p := (m: nat) => m < |tr| && Labelled(tr[m], c);
    var q := (m: nat) => m < |ops| && m < |tr| && LosesLabel(tr[m], ops[m], c);
    forall m: nat | i <= m < k && p(m) ensures p(m + 1) <==> !q(m) {
      NextMoment(versions, ops, tr, m, c);
    }
    j := UntilFirst(p, q, i, k);
    assert forall m: nat {:trigger Labelled(tr[m], c)} :: i <= m <= (if j.None? then k else j.value) ==> p(m);
    assert j.None? ==> forall m: nat {:trigger LosesLabel(tr[m], ops[m], c)} :: i <= m < k ==> !q(m);
  }

  /** As long as nobody merges it away or renames it, it stays as it is. */
  lemma {:induction false} KeepsItsLabel(versions: map<Id, Version>, ops: seq<Op>, tr: seq<State>, i: nat, k: nat,
      c: Id)
    requires IsRun(versions, ops, tr) && i <= k <= |ops| && Labelled(tr[i], c)
    requires forall j :: i <= j < k ==> !Absorbs(tr[j], ops[j], c) && !Renames(tr[j], ops[j], c)
    ensures c in tr[k].clusters && tr[k].clusters[c] == tr[i].clusters[c]
  {
    if i < k {
      KeepsItsLabel(versions, ops, tr, i, k - 1, c);
      NextMoment(versions, ops, tr, k - 1, c);
    }
  }

  lemma StaysGone(versions: map<Id, Version>, s: State, op: Op, c: Id)
    requires c in s.used && c !in s.clusters
    ensures c in Step(versions, s, op).used && c !in Step(versions, s, op).clusters
  {
    if op.FaceJob? && Commits(versions, s, op) {
      var owner, obs := versions[op.version].owner, Dropped(s.observations, op.version, op.recipe);
      assert c !in Swept(s.clusters, obs, owner);
    }
  }

  /** A cluster id that is gone does not come back. */
  lemma {:induction false} GoneStaysGone(versions: map<Id, Version>, ops: seq<Op>, tr: seq<State>, i: nat, k: nat,
      c: Id)
    requires IsRun(versions, ops, tr) && i <= k <= |ops| && c in tr[i].used && c !in tr[i].clusters
    ensures c in tr[k].used && c !in tr[k].clusters
  {
    if i < k {
      GoneStaysGone(versions, ops, tr, i, k - 1, c);
      assert Follows(versions, ops, tr, k - 1);
      StaysGone(versions, tr[k - 1], ops[k - 1], c);
    }
  }

  lemma StaysUsed(versions: map<Id, Version>, s: State, op: Op)
    ensures s.used <= Step(versions, s, op).used
  {
  }

  lemma AbsorbedIsGone(versions: map<Id, Version>, ops: seq<Op>, tr: seq<State>, j: nat, k: nat, c: Id)
    requires IsRun(versions, ops, tr) && j < k <= |ops| && Labelled(tr[j], c) && Absorbs(tr[j], ops[j], c)
    ensures c !in tr[k].clusters
  {
    RunKeepsInv(versions, ops, tr, j);
    NextMoment(versions, ops, tr, j, c);
    assert Follows(versions, ops, tr, j);
    StaysUsed(versions, tr[j], ops[j]);
    GoneStaysGone(versions, ops, tr, j + 1, k, c);
  }

  ghost predicate NeverCleared(ops: seq<Op>, tr: seq<State>, i: nat, k: nat, c: Id)
    requires i <= k <= |ops| < |tr|
  {
    forall j :: i <= j < k ==> !Clears(tr[j], ops[j], c)
  }

  ghost predicate AbsorbedWithin(ops: seq<Op>, tr: seq<State>, i: nat, k: nat, c: Id)
    requires i <= k <= |ops| < |tr|
  {
    exists j :: i <= j < k && Absorbs(tr[j], ops[j], c)
  }

  /** Over every run: a cluster labelled before step `i`, whose owner does not clear the label until step `k`, is gone
      then exactly when a successful owner merge in between took it as a source; otherwise it is labelled. */
  lemma LostOnlyByMerge(versions: map<Id, Version>, ops: seq<Op>, tr: seq<State>, i: nat, k: nat, c: Id)
    requires IsRun(versions, ops, tr) && i <= k <= |ops| && Labelled(tr[i], c) && NeverCleared(ops, tr, i, k, c)
    ensures c !in tr[k].clusters <==> AbsorbedWithin(ops, tr, i, k, c)
    ensures Labelled(tr[k], c) <==> !AbsorbedWithin(ops, tr, i, k, c)
  {
    var j := LabelledUntil(versions, ops, tr, i, k, c);
    if j.Some? {
      assert Absorbs(tr[j.value], ops[j.value], c);
      AbsorbedIsGone(versions, ops, tr, j.value, k, c);
    } else {
      forall m | i <= m < k ensures !Absorbs(tr[m], ops[m], c) {
        assert !LosesLabel(tr[m], ops[m], c);
      }
    }
  }

  /** Whatever the owner does: who finds it gone finds it absorbed, or its label cleared before. */
  lemma GoneHasCause(versions: map<Id, Version>, ops: seq<Op>, tr: seq<State>, i: nat, k: nat, c: Id)
    requires IsRun(versions, ops, tr) && i <= k <= |ops| && Labelled(tr[i], c) && !Labelled(tr[k], c)
    ensures exists j :: i <= j < k && Labelled(tr[j], c) && LosesLabel(tr[j], ops[j], c)
  {
    var j := LabelledUntil(versions, ops, tr, i, k, c);
    assert Labelled(tr[j.value], c) && LosesLabel(tr[j.value], ops[j.value], c);
  }

  // ----- faces in labelled clusters

  ghost predicate Placed(s: State, o: Id, c: Id) {
    o in s.observations && s.observations[o].cluster == Some(c) && Labelled(s, c)
  }

  /** The owner merges the face's cluster away or separates the face from it, or a newer recipe replaces it. */
  ghost predicate Leaves(versions: map<Id, Version>, s: State, op: Op, o: Id, c: Id)
    requires o in s.observations
  {
    match op
    case FaceJob(v, recipe, _, _, _, _) =>
      Commits(versions, s, op) && s.observations[o].version == v && s.observations[o].recipe < recipe
    case Rename(_, _, _) => false
    case Merge(_, _, _) => Absorbs(s, op, c)
    case Separate(u, from, files, n) =>
      && Store.MaySeparate(versions, s.observations, s.clusters, u, from, files) && n !in s.used
      && Store.Splits(versions, s.observations[o], u, from, files)
  }

  lemma JobOnPlaced(versions: map<Id, Version>, s: State, op: Op, o: Id, c: Id)
    requires Placed(s, o, c) && op.FaceJob? && Commits(versions, s, op)
    ensures var t := Step(versions, s, op);
            (o in t.observations && t.observations[o] == s.observations[o]) <==> !Leaves(versions, s, op, o, c)
  {
    var owner, obs := versions[op.version].owner, Dropped(s.observations, op.version, op.recipe);
    var t := Step(versions, s, op);
    if o in obs {
      FaceJobConserves(obs, Swept(s.clusters, obs, owner), t.observations, t.clusters, owner, op.version, op.recipe,
        op.faces, op.query.rows, op.trace);
      assert Survives(Swept(s.clusters, obs, owner), obs[o], t.observations[o]);
    } else if o in op.trace.filed {
      var f := op.trace.filing;
      var i :| 0 <= i < |f.ids| && f.ids[i] == o;
      assert RowFor(op.trace.filed, op.version, op.recipe, op.faces, f, i);
    }
  }

  /** A face in a labelled cluster keeps its row in a step exactly when it is none of these. */
  lemma StepOnPlaced(versions: map<Id, Version>, s: State, op: Op, o: Id, c: Id)
    requires Inv(versions, s) && Placed(s, o, c)
    ensures var t := Step(versions, s, op);
            (o in t.observations && t.observations[o] == s.observations[o]) <==> !Leaves(versions, s, op, o, c)
  {
    if op.FaceJob? && Commits(versions, s, op) {
      JobOnPlaced(versions, s, op, o, c);
    }
  }

  ghost predicate TakenOut(versions: map<Id, Version>, s: State, op: Op, o: Id, c: Id) {
    Placed(s, o, c) && (Leaves(versions, s, op, o, c) || Clears(s, op, c))
  }

  /** The face has the row it had, in a labelled cluster still. */
  ghost predicate StillPlaced(row: Observation, s: State, o: Id, c: Id) {
    Placed(s, o, c) && s.observations[o] == row
  }

  lemma NextPlace(versions: map<Id, Version>, ops: seq<Op>, tr: seq<State>, row: Observation, j: nat, o: Id, c: Id)
    requires IsRun(versions, ops, tr) && j < |ops| && StillPlaced(row, tr[j], o, c)
    ensures StillPlaced(row, tr[j + 1], o, c) <==> !TakenOut(versions, tr[j], ops[j], o, c)
  {
    RunKeepsInv(versions, ops, tr, j);
    assert Follows(versions, ops, tr, j);
    StepOnPlaced(versions, tr[j], ops[j], o, c);
    StepOnLabelled(versions, tr[j], ops[j], c);
  }

  /** Over every run: a face in a labelled cluster stays there, row and all, until its owner merges that cluster away,
      separates the face from it or clears the label, or until a newer recipe indexes its file again. */
  lemma PlacedUntil(versions: map<Id, Version>, ops: seq<Op>, tr: seq<State>, i: nat, k: nat, o: Id, c: Id)
      returns (j: Option<nat>)
    requires IsRun(versions, ops, tr) && i <= k <= |ops| && Placed(tr[i], o, c)
    ensures j.None? ==> forall m :: i <= m <= k ==> StillPlaced(tr[i].observations[o], tr[m], o, c)
    ensures j.Some? ==> i <= j.value < k && TakenOut(versions, tr[j.value], ops[j.value], o, c)
    ensures j.Some? ==> forall m :: i <= m <= j.value ==> StillPlaced(tr[i].observations[o], tr[m], o, c)
  {
    var row := tr[i].observations[o];
    var p := (m: nat) => m < |tr| && StillPlaced(row, tr[m], o, c);
    var q := (m: nat) => m < |ops| && m < |tr| && TakenOut(versions, tr[m], ops[m], o, c);
    forall m: nat | i <= m < k && p(m) ensures p(m + 1) <==> !q(m) {
      NextPlace(versions, ops, tr, row, m, o, c);
    }
    j := UntilFirst(p, q, i, k);
    assert forall m: nat {:trigger StillPlaced(row, tr[m], o, c)} ::
        i <= m <= (if j.None? then k else j.value) ==> p(m);
  }

  // ----- conservation

  /** What a step adds to the number of observations: the faces of a committed job, less the older ones it replaces. */
  ghost function Change(versions: map<Id, Version>, s: State, op: Op): int {
    if op.FaceJob? && Commits(versions, s, op)
    then |op.faces| - (|s.observations| - |Dropped(s.observations, op.version, op.recipe)|) else 0
  }

  lemma StepCounts(versions: map<Id, Version>, s: State, op: Op)
    ensures |Step(versions, s, op).observations| == |s.observations| + Change(versions, s, op)
  {
    var t := Step(versions, s, op);
    if op.FaceJob? {
      if Commits(versions, s, op) {
        var owner, obs := versions[op.version].owner, Dropped(s.observations, op.version, op.recipe);
        FaceJobConserves(obs, Swept(s.clusters, obs, owner), t.observations, t.clusters, owner, op.version, op.recipe,
          op.faces, op.query.rows, op.trace);
      }
    } else {
      SameKeysSameSize(t.observations, s.observations);
    }
  }

  ghost function Balance(versions: map<Id, Version>, ops: seq<Op>, tr: seq<State>, k: nat): int
    requires k <= |ops| < |tr|
  {
    if k == 0 then 0 else Balance(versions, ops, tr, k - 1) + Change(versions, tr[k - 1], ops[k - 1])
  }

  /** Merge plans, renames, owner merges and separations neither lose nor invent an observation. */
  lemma {:induction false} ObservationsAreConserved(versions: map<Id, Version>, ops: seq<Op>, tr: seq<State>, k: nat)
    requires IsRun(versions, ops, tr) && k <= |ops|
    ensures |tr[k].observations| == Balance(versions, ops, tr, k)
  {
    if k > 0 {
      ObservationsAreConserved(versions, ops, tr, k - 1);
      assert Follows(versions, ops, tr, k - 1);
      StepCounts(versions, tr[k - 1], ops[k - 1]);
    }
  }

  // ----- a run that loses a labelled cluster

  const FILES := map[1 := Version(5, 7)]
  const FACE: Descriptor := seq(DESCRIPTOR_LEN, i => 0)
  const ROW := Observation(1, 1, 0, Some(10), FACE)
  const FIRST := Candidate(10, FACE, None)
  const INDEX := FaceJob(1, 1, [FACE], Query({5}, [], []), true,
    Trace(Filing([FIRST], [0], [20], [10]), map[20 := ROW], map[10 := Cluster(7, None)], []))

  /** One group is its own target. */
  lemma NothingToMerge()
    ensures IsMergePlan([FIRST], [])
  {
    assert Ids([FIRST]) == {10};
    assert 10 in ClassOf([FIRST], [], 10);
    ConnectedSelf([FIRST], ClassOf([FIRST], [], 10), 10);
  }

  lemma FiledFirst()
    ensures Filed(map[], map[20 := ROW], 1, 1, [FACE], [], INDEX.trace.filing)
  {
    var f := INDEX.trace.filing;
    assert f.candidates[..0] == [];
    assert FiledUnder([FACE], [], f, 0);
    assert RowFor(map[20 := ROW], 1, 1, [FACE], f, 0);
  }

  lemma GrewFirst()
    ensures Grew(map[], map[10 := Cluster(7, None)], 7, [], [FIRST])
  {
    assert [FIRST][0].cluster == 10;
  }

  lemma FirstCommits()
    ensures Commits(FILES, Initial, INDEX)
  {
    var none: Observations := map[];
    assert Dropped(none, 1, 1) == none && Swept(map[], none, 7) == map[];
    NothingToMerge();
    FiledFirst();
    GrewFirst();
    assert RowsOf([], 10) == {};
  }

  lemma FirstFace()
    ensures Step(FILES, Initial, INDEX) == NEW
  {
    FirstCommits();
    assert Redirect(map[20 := ROW], []) == map[20 := ROW];
    assert map[10 := Cluster(7, None)] - Sources([]) == map[10 := Cluster(7, None)];
  }

  const NAMED := State(map[20 := ROW], map[10 := Cluster(7, Some("Ada"))], {10})
  const SPLIT := State(map[20 := ROW.(cluster := Some(11))], NAMED.clusters[11 := Cluster(7, None)], {10, 11})
  const LOST := State(SPLIT.observations, map[11 := Cluster(7, None)], {10, 11})

  lemma NameIt()
    ensures Step(FILES, NEW, Rename(7, 10, Some("Ada"))) == NAMED
  {
    assert Core("Ada", 0, 3);
    NormalizedIsGood("Ada");
  }

  lemma SplitIt()
    ensures Step(FILES, NAMED, Separate(7, 10, [5], 11)) == SPLIT
  {
    assert Store.Splits(FILES, NAMED.observations[20], 7, 10, [5]);
    assert SplitOff(FILES, NAMED.observations, 7, 10, [5], 11) == SPLIT.observations;
  }

  lemma MergeIt()
    ensures Step(FILES, SPLIT, Merge(7, 11, [10])) == LOST && Absorbs(SPLIT, Merge(7, 11, [10]), 10)
  {
    assert SPLIT.clusters - (set c | c in [10]) == LOST.clusters;
    var moved := map o | o in SPLIT.observations :: Store.MergedInto(SPLIT.observations[o], [10], 11);
    assert moved == SPLIT.observations;
  }

  lemma SeparatesIt()
    ensures Placed(NAMED, 20, 10) && Leaves(FILES, NAMED, Separate(7, 10, [5], 11), 20, 10)
  {
    assert Store.Splits(FILES, NAMED.observations[20], 7, 10, [5]);
  }

  const NEW := State(map[20 := ROW], map[10 := Cluster(7, None)], {10})
  const OPS := [INDEX, Rename(7, 10, Some("Ada")), Separate(7, 10, [5], 11), Merge(7, 11, [10])]
  const TRACE := [Initial, NEW, NAMED, SPLIT, LOST]

  lemma RunOf(versions: map<Id, Version>, a: Op, b: Op, c: Op, d: Op, s: State, t: State, u: State, v: State)
    requires s == Step(versions, Initial, a) && t == Step(versions, s, b)
    requires u == Step(versions, t, c) && v == Step(versions, u, d)
    ensures IsRun(versions, [a, b, c, d], [Initial, s, t, u, v])
  {
    var ops, tr := [a, b, c, d], [Initial, s, t, u, v];
    forall k | 0 <= k < 4 ensures Follows(versions, ops, tr, k) {
      assert k == 0 || k == 1 || k == 2 || k == 3;
    }
  }

  lemma FourSteps()
    ensures IsRun(FILES, OPS, TRACE)
  {
    FirstFace();
    NameIt();
    SplitIt();
    MergeIt();
    RunOf(FILES, INDEX, Rename(7, 10, Some("Ada")), Separate(7, 10, [5], 11), Merge(7, 11, [10]), NEW, NAMED, SPLIT,
      LOST);
  }

  /** A face is indexed, its group is named, the face is separated from it, and the named group is merged away. */
  lemma LabelledIsLost()
    ensures IsRun(FILES, OPS, TRACE) && Labelled(TRACE[2], 10) && NeverCleared(OPS, TRACE, 2, 4, 10)
    ensures TakenOut(FILES, TRACE[2], OPS[2], 20, 10)
    ensures Absorbs(TRACE[3], OPS[3], 10) && 10 !in TRACE[4].clusters
  {
    FourSteps();
    SeparatesIt();
    MergeIt();
  }
}
