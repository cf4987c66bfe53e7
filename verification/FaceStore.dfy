/** Face observations and clusters as the indexer and the owner change them
    (src/media_indexer.rs, src/faces.rs).  Each method is one transaction. */
module FaceStore {
  import opened Common
  import opened FaceMerge
  import opened FacePlan
  import opened FaceLabel

  const MAX_MERGE_SOURCES: nat := 64

  datatype Version = Version(file: Id, owner: Id)
  datatype Cluster = Cluster(owner: Id, labelText: Option<string>)
  datatype Observation = Observation(version: Id, recipe: nat, faceIndex: nat, cluster: Option<Id>,
    descriptor: Descriptor)

  type Observations = map<Id, Observation>
  type Clusters = map<Id, Cluster>

  // ----- the plan as one simultaneous redirection

  function Moved(plan: seq<(Id, Id)>, o: Observation): Observation {
    if o.cluster.Some? then o.(cluster := Some(Target(plan, o.cluster.value))) else o
  }

  function Redirect(obs: Observations, plan: seq<(Id, Id)>): (r: Observations) {
    map o | o in obs :: Moved(plan, obs[o])
  }

  function Sources(plan: seq<(Id, Id)>): set<Id> {
    set e | e in plan :: e.0
  }

  ghost predicate PlanShape(plan: seq<(Id, Id)>) {
    && (forall k, l :: 0 <= k < l < |plan| ==> plan[k].0 != plan[l].0)
    && (forall k, l :: 0 <= k < |plan| && 0 <= l < |plan| ==> plan[k].1 != plan[l].0)
  }

  /** The plan's rows name clusters of one owner; the sources are unlabelled. */
  ghost predicate Applicable(plan: seq<(Id, Id)>, clusters: Clusters, owner: Id) {
    && PlanShape(plan)
    && forall k :: 0 <= k < |plan| ==>
         plan[k].0 in clusters && plan[k].1 in clusters && clusters[plan[k].0] == Cluster(owner, None)
         && clusters[plan[k].1].owner == owner
  }

  /** Because no target is ever a source, moving row by row equals moving all at once. */
  lemma RowByRow(plan: seq<(Id, Id)>, k: nat, c: Id)
    requires PlanShape(plan) && k < |plan|
    ensures Target(plan[..k + 1], c) == var t := Target(plan[..k], c); if t == plan[k].0 then plan[k].1 else t
  {
    assert plan[..k + 1][..k] == plan[..k];
    TargetCases(plan[..k], c);
  }

  lemma RedirectNext(obs: Observations, plan: seq<(Id, Id)>, k: nat, next: Observations)
    requires PlanShape(plan) && k < |plan|
    requires next == map o | o in Redirect(obs, plan[..k]) ::
               var x := Redirect(obs, plan[..k])[o];
               if x.cluster == Some(plan[k].0) then x.(cluster := Some(plan[k].1)) else x
    ensures next == Redirect(obs, plan[..k + 1])
  {
    forall o | o in obs ensures next[o] == Moved(plan[..k + 1], obs[o]) {
      if obs[o].cluster.Some? {
        RowByRow(plan, k, obs[o].cluster.value);
      }
    }
  }

  // ----- the store

  ghost predicate Consistent(versions: map<Id, Version>, obs: Observations, clusters: Clusters) {
    forall o :: o in obs ==> obs[o].version in versions && (obs[o].cluster.Some? ==>
      obs[o].cluster.value in clusters && clusters[obs[o].cluster.value].owner == versions[obs[o].version].owner)
  }

  ghost predicate LabelledKept(before: Clusters, after: Clusters) {
    forall c :: c in before && before[c].labelText.Some? ==> c in after && after[c] == before[c]
  }

  /** Observations left after older recipes of this version are dropped. */
  function Dropped(obs: Observations, version: Id, recipe: nat): Observations {
    map o | o in obs && !(obs[o].version == version && obs[o].recipe < recipe) :: obs[o]
  }

  predicate Used(obs: Observations, c: Id) {
    exists o :: o in obs && obs[o].cluster == Some(c)
  }

  /** Clusters left after the owner's empty unlabelled ones are swept. */
  function Swept(clusters: Clusters, obs: Observations, owner: Id): Clusters {
    map c | c in clusters
      && !(clusters[c].owner == owner && clusters[c].labelText.None? && !Used(obs, c)) :: clusters[c]
  }

  /** Candidate rows carry an existing cluster of the owner together with its label. */
  ghost predicate Backed(cs: seq<Candidate>, clusters: Clusters, owner: Id) {
    forall k :: 0 <= k < |cs| ==>
      cs[k].cluster in clusters && clusters[cs[k].cluster] == Cluster(owner, cs[k].labelText)
  }

  const MAX_CANDIDATES: nat := 512
  const PER_CLUSTER: nat := 5

  /** An observation the candidate query ranks: clustered, at the job's recipe, on a file of the owner's that is not in
      the trash; `live` are the files that are not. */
  predicate Eligible(versions: map<Id, Version>, obs: Observations, owner: Id, recipe: nat, live: set<Id>, o: Id) {
    && o in obs && obs[o].cluster.Some? && obs[o].recipe == recipe && obs[o].version in versions
    && versions[obs[o].version].owner == owner && versions[obs[o].version].file in live
  }

  /** One row of its answer: the descriptor of such an observation, with its cluster and the cluster's label. */
  predicate Represents(versions: map<Id, Version>, obs: Observations, clusters: Clusters, owner: Id, recipe: nat,
      live: set<Id>, c: Candidate, o: Id) {
    && Eligible(versions, obs, owner, recipe, live, o)
    && obs[o].cluster == Some(c.cluster) && obs[o].descriptor == c.descriptor
    && c.cluster in clusters && clusters[c.cluster].labelText == c.labelText
  }

  function RowsOf(cs: seq<Candidate>, cluster: Id): set<nat> {
    set k: nat | k < |cs| && cs[k].cluster == cluster
  }

  /** The candidate query's answer: each row another observation, at most five of a cluster and 512 in all, and below
      those bounds every eligible one; which are taken at a bound is a matter of their age. */
  ghost predicate Answers(versions: map<Id, Version>, obs: Observations, clusters: Clusters, owner: Id, recipe: nat,
      live: set<Id>, cs: seq<Candidate>, from: seq<Id>) {
    && |cs| == |from| <= MAX_CANDIDATES && (forall i, j :: 0 <= i < j < |from| ==> from[i] != from[j])
    && (forall k :: 0 <= k < |cs| ==> Represents(versions, obs, clusters, owner, recipe, live, cs[k], from[k]))
    && (forall c {:trigger RowsOf(cs, c)} :: |RowsOf(cs, c)| <= PER_CLUSTER)
    && forall o :: Eligible(versions, obs, owner, recipe, live, o) && |cs| < MAX_CANDIDATES ==>
         o in from || |RowsOf(cs, obs[o].cluster.value)| == PER_CLUSTER
  }

  /** Whatever it answers, its rows carry existing clusters of the owner with their labels. */
  lemma AnswersAreBacked(versions: map<Id, Version>, obs: Observations, clusters: Clusters, owner: Id, recipe: nat,
      live: set<Id>, cs: seq<Candidate>, from: seq<Id>)
    requires Consistent(versions, obs, clusters)
    requires Answers(versions, obs, clusters, owner, recipe, live, cs, from)
    ensures Backed(cs, clusters, owner)
  {
    forall k | 0 <= k < |cs|
      ensures cs[k].cluster in clusters && clusters[cs[k].cluster] == Cluster(owner, cs[k].labelText) {
      assert Represents(versions, obs, clusters, owner, recipe, live, cs[k], from[k]);
    }
  }

  /** The answer on the tables the job finds after dropping and sweeping. */
  ghost predicate AnswersSwept(versions: map<Id, Version>, obs: Observations, clusters: Clusters, version: Id,
      recipe: nat, live: set<Id>, cs: seq<Candidate>, from: seq<Id>)
    requires version in versions
  {
    var kept, owner := Dropped(obs, version, recipe), versions[version].owner;
    Answers(versions, kept, Swept(clusters, kept, owner), owner, recipe, live, cs, from)
  }

  lemma SweepKeepsConsistent(versions: map<Id, Version>, obs: Observations, clusters: Clusters, version: Id,
      recipe: nat, owner: Id)
    requires Consistent(versions, obs, clusters)
    ensures Consistent(versions, Dropped(obs, version, recipe), Swept(clusters, Dropped(obs, version, recipe), owner))
  {
    var kept := Dropped(obs, version, recipe);
    forall o | o in kept && kept[o].cluster.Some? ensures kept[o].cluster.value in Swept(clusters, kept, owner) {
      assert Used(kept, kept[o].cluster.value);
    }
  }

  lemma {:induction false} BackedLabels(cs: seq<Candidate>, clusters: Clusters, owner: Id, id: Id)
    requires Backed(cs, clusters, owner) && id in Ids(cs)
    ensures id in clusters && clusters[id] == Cluster(owner, LabelOf(cs, id))
  {
    var front := cs[..|cs| - 1];
    if id in Ids(front) {
      BackedLabels(front, clusters, owner, id);
    } else {
      AbsentIdIsEmpty(front, id);
    }
  }

  lemma MergePlanApplies(cs: seq<Candidate>, plan: seq<(Id, Id)>, clusters: Clusters, owner: Id)
    requires IsMergePlan(cs, plan) && Backed(cs, clusters, owner)
    ensures Applicable(plan, clusters, owner)
  {
    forall k | 0 <= k < |plan|
      ensures plan[k].0 in clusters && plan[k].1 in clusters && clusters[plan[k].0] == Cluster(owner, None)
              && clusters[plan[k].1].owner == owner
      ensures forall l :: 0 <= l < |plan| ==> plan[k].1 != plan[l].0
    {
      assert GoodEntry(cs, plan, plan[k]);
      BackedLabels(cs, clusters, owner, plan[k].0);
      BackedLabels(cs, clusters, owner, plan[k].1);
    }
  }

  lemma RedirectConsistent(versions: map<Id, Version>, obs: Observations, clusters: Clusters, plan: seq<(Id, Id)>,
      owner: Id)
    requires Consistent(versions, obs, clusters) && Applicable(plan, clusters, owner)
    ensures Consistent(versions, Redirect(obs, plan), clusters - Sources(plan))
  {
    forall o | o in obs && obs[o].cluster.Some?
      ensures var t := Target(plan, obs[o].cluster.value);
              t in clusters && t !in Sources(plan) && clusters[t].owner == clusters[obs[o].cluster.value].owner
    {
      var c := obs[o].cluster.value;
      TargetCases(plan, c);
      SourceMoves(plan, c);
    }
  }

  lemma {:induction false} SourceMoves(plan: seq<(Id, Id)>, c: Id)
    ensures c in Sources(plan) ==> exists k :: 0 <= k < |plan| && plan[k] == (c, Target(plan, c))
  {
    if plan != [] && plan[|plan| - 1].0 != c {
      SourceMoves(plan[..|plan| - 1], c);
    }
  }

  // ----- filing detected faces

  ghost predicate NoMatch(face: Descriptor, candidates: seq<Candidate>) {
    forall c :: c in candidates ==> !Matches(face, c)
  }

  /** The cluster of the best match; among equals the one with the smallest id. */
  ghost predicate Nearest(face: Descriptor, candidates: seq<Candidate>, cluster: Id) {
    exists c :: c in candidates && Matches(face, c) && c.cluster == cluster
                && forall o :: o in candidates && Matches(face, o) ==> NotWorse(face, c, o)
  }

  /** For each face how many candidates were known, the row it got and the group it was filed under. */
  datatype Filing = Filing(candidates: seq<Candidate>, seen: seq<nat>, ids: seq<Id>, groups: seq<Id>)

  /** Face `i` went to its nearest group among those known by then, or else to a new one that was known from then on. */
  ghost predicate FiledUnder(faces: seq<Descriptor>, fetched: seq<Candidate>, f: Filing, i: nat)
    requires i < |faces| == |f.seen| == |f.groups|
  {
    var n := f.seen[i];
    && |fetched| <= n <= |f.candidates|
    && if NoMatch(faces[i], f.candidates[..n])
      then n < |f.candidates| && f.candidates[n] == Candidate(f.groups[i], faces[i], None)
       else Nearest(faces[i], f.candidates[..n], f.groups[i])
  }

  ghost predicate RowFor(after: Observations, version: Id, recipe: nat, faces: seq<Descriptor>, f: Filing, i: nat)
    requires i < |faces| == |f.ids| == |f.groups|
  {
    f.ids[i] in after && after[f.ids[i]] == Observation(version, recipe, i, Some(f.groups[i]), faces[i])
  }

  /** The old rows are untouched and there is one new row per id. */
  ghost predicate NewRows(before: Observations, after: Observations, ids: seq<Id>) {
    && (forall x :: x in after <==> x in before || x in ids) && |after| == |before| + |ids|
    && forall o :: o in before ==> o in after && after[o] == before[o]
  }

  ghost predicate AllUnder(faces: seq<Descriptor>, fetched: seq<Candidate>, f: Filing)
    requires |faces| == |f.seen| == |f.groups|
  {
    forall i {:trigger FiledUnder(faces, fetched, f, i)} :: 0 <= i < |faces| ==> FiledUnder(faces, fetched, f, i)
  }

  ghost predicate AllRows(after: Observations, version: Id, recipe: nat, faces: seq<Descriptor>, f: Filing)
    requires |faces| == |f.ids| == |f.groups|
  {
    forall i {:trigger RowFor(after, version, recipe, faces, f, i)} :: 0 <= i < |faces| ==>
      RowFor(after, version, recipe, faces, f, i)
  }

  /** Exactly one new row per face, in a group chosen as `FiledUnder` says. */
  ghost predicate Filed(before: Observations, after: Observations, version: Id, recipe: nat, faces: seq<Descriptor>,
      fetched: seq<Candidate>, f: Filing) {
    && |f.seen| == |f.ids| == |f.groups| == |faces| && fetched <= f.candidates
    && NewRows(before, after, f.ids) && AllUnder(faces, fetched, f) && AllRows(after, version, recipe, faces, f)
  }

  lemma FiledNothing(obs: Observations, version: Id, recipe: nat, faces: seq<Descriptor>, fetched: seq<Candidate>)
    ensures Filed(obs, obs, version, recipe, faces[..0], fetched, Filing(fetched, [], [], []))
  {
  }

  function FiledOneMore(f: Filing, known: seq<Candidate>, id: Id, c: Id): Filing {
    Filing(known, f.seen + [|f.candidates|], f.ids + [id], f.groups + [c])
  }

  lemma FiledUnderStays(faces: seq<Descriptor>, face: Descriptor, fetched: seq<Candidate>, f: Filing, g: Filing, i: nat)
    requires i < |faces| == |f.seen| == |f.groups| && FiledUnder(faces, fetched, f, i) && f.candidates <= g.candidates
    requires |g.seen| == |g.groups| == |faces| + 1 && g.seen[i] == f.seen[i] && g.groups[i] == f.groups[i]
    ensures FiledUnder(faces + [face], fetched, g, i)
  {
    assert g.candidates[..f.seen[i]] == f.candidates[..f.seen[i]];
    assert (faces + [face])[i] == faces[i];
  }

  lemma UnderNext(faces: seq<Descriptor>, face: Descriptor, fetched: seq<Candidate>, f: Filing, known: seq<Candidate>,
      id: Id, c: Id)
    requires |faces| == |f.seen| == |f.groups| && fetched <= f.candidates && AllUnder(faces, fetched, f)
    requires if NoMatch(face, f.candidates) then known == f.candidates + [Candidate(c, face, None)]
             else Nearest(face, f.candidates, c) && known == f.candidates
    ensures AllUnder(faces + [face], fetched, FiledOneMore(f, known, id, c))
  {
    var all, g, k := faces + [face], FiledOneMore(f, known, id, c), |faces|;
    assert all[k] == face && g.seen[k] == |f.candidates| && g.groups[k] == c && known[..|f.candidates|] == f.candidates;
    forall i | 0 <= i < |all| ensures FiledUnder(all, fetched, g, i) {
      if i < k {
        assert FiledUnder(faces, fetched, f, i);
        FiledUnderStays(faces, face, fetched, f, g, i);
      }
    }
  }

  lemma RowsNext(cur: Observations, version: Id, recipe: nat, faces: seq<Descriptor>, face: Descriptor, f: Filing,
      known: seq<Candidate>, id: Id, c: Id)
    requires |faces| == |f.ids| == |f.groups| && AllRows(cur, version, recipe, faces, f) && id !in cur
    ensures AllRows(cur[id := Observation(version, recipe, |faces|, Some(c), face)], version, recipe, faces + [face],
      FiledOneMore(f, known, id, c))
  {
    var all, g, k := faces + [face], FiledOneMore(f, known, id, c), |faces|;
    var next := cur[id := Observation(version, recipe, k, Some(c), face)];
    assert all[k] == face && g.ids[k] == id && g.groups[k] == c;
    forall i | 0 <= i < |all| ensures RowFor(next, version, recipe, all, g, i) {
      if i < k {
        assert RowFor(cur, version, recipe, faces, f, i);
        assert all[i] == faces[i] && g.ids[i] == f.ids[i] && g.groups[i] == f.groups[i];
      }
    }
  }

  lemma TakeOneMore(faces: seq<Descriptor>, k: nat)
    requires k < |faces|
    ensures faces[..k + 1] == faces[..k] + [faces[k]]
  {
  }

  lemma NewRowsNext(before: Observations, cur: Observations, ids: seq<Id>, id: Id, row: Observation)
    requires NewRows(before, cur, ids) && id !in cur
    ensures NewRows(before, cur[id := row], ids + [id])
  {
  }

  lemma FiledNext(before: Observations, cur: Observations, version: Id, recipe: nat, faces: seq<Descriptor>,
      face: Descriptor, fetched: seq<Candidate>, f: Filing, known: seq<Candidate>, id: Id, c: Id)
    requires Filed(before, cur, version, recipe, faces, fetched, f) && id !in cur
    requires if NoMatch(face, f.candidates) then known == f.candidates + [Candidate(c, face, None)]
             else Nearest(face, f.candidates, c) && known == f.candidates
    ensures Filed(before, cur[id := Observation(version, recipe, |faces|, Some(c), face)], version, recipe,
      faces + [face], fetched, FiledOneMore(f, known, id, c))
  {
    NewRowsNext(before, cur, f.ids, id, Observation(version, recipe, |faces|, Some(c), face));
    UnderNext(faces, face, fetched, f, known, id, c);
    RowsNext(cur, version, recipe, faces, face, f, known, id, c);
  }

  /** The clusters created on the way: one unlabelled cluster per candidate that was added. */
  ghost predicate Grew(before: Clusters, after: Clusters, owner: Id, fetched: seq<Candidate>,
      candidates: seq<Candidate>) {
    && fetched <= candidates
    && (forall c :: c in before ==> c in after && after[c] == before[c])
    && (forall c :: c in after && c !in before ==> after[c] == Cluster(owner, None) && Added(fetched, candidates, c))
  }

  ghost predicate Added(fetched: seq<Candidate>, candidates: seq<Candidate>, c: Id) {
    exists j :: |fetched| <= j < |candidates| && candidates[j].cluster == c
  }

  lemma GrewNext(before: Clusters, cur: Clusters, next: Clusters, owner: Id, fetched: seq<Candidate>,
      candidates: seq<Candidate>, known: seq<Candidate>, c: Id)
    requires Grew(before, cur, owner, fetched, candidates) && candidates <= known
    requires if known == candidates then next == cur
             else
               && |known| == |candidates| + 1 && known[|candidates|].cluster == c
               && c !in cur && next == cur[c := Cluster(owner, None)]
    ensures Grew(before, next, owner, fetched, known)
  {
    forall x | x in next && x !in before ensures Added(fetched, known, x) {
      if x in cur {
        var j :| |fetched| <= j < |candidates| && candidates[j].cluster == x;
        assert known[j].cluster == x;
      } else {
        assert known[|candidates|].cluster == x;
      }
    }
  }

  /** A whole face job: the filing, the tables it left, and the merge plan applied to them. */
  datatype Trace = Trace(filing: Filing, filed: Observations, groups: Clusters, plan: seq<(Id, Id)>)

  ghost predicate Explains(obs: Observations, clusters: Clusters, obs': Observations, clusters': Clusters, owner: Id,
                           version: Id, recipe: nat, faces: seq<Descriptor>, fetched: seq<Candidate>, trace: Trace) {
    && Filed(obs, trace.filed, version, recipe, faces, fetched, trace.filing)
    && Grew(clusters, trace.groups, owner, fetched, trace.filing.candidates)
    && Backed(trace.filing.candidates, trace.groups, owner)
    && IsMergePlan(trace.filing.candidates, trace.plan) && Applicable(trace.plan, trace.groups, owner)
    && obs' == Redirect(trace.filed, trace.plan) && clusters' == trace.groups - Sources(trace.plan)
  }

  /** What a face job means for what was there before: labelled clusters stay, every observation survives for the same
      file and keeps being clustered, those in labelled clusters stay put, and there is one more per face. */
  lemma FaceJobConserves(obs: Observations, clusters: Clusters, obs': Observations, clusters': Clusters, owner: Id,
                         version: Id, recipe: nat, faces: seq<Descriptor>, fetched: seq<Candidate>, trace: Trace)
    requires Explains(obs, clusters, obs', clusters', owner, version, recipe, faces, fetched, trace)
    ensures LabelledKept(clusters, clusters') && |obs'| == |obs| + |faces|
    ensures forall o :: o in obs ==> o in obs' && Survives(clusters, obs[o], obs'[o])
  {
    SameKeysSameSize(obs', trace.filed);
    forall o | o in obs ensures Survives(clusters, obs[o], Moved(trace.plan, obs[o])) {
      StaysIfLabelled(clusters, trace.groups, owner, trace.plan, obs[o]);
    }
  }

  lemma StaysIfLabelled(clusters: Clusters, groups: Clusters, owner: Id, plan: seq<(Id, Id)>, o: Observation)
    requires Applicable(plan, groups, owner) && forall c :: c in clusters ==> c in groups && groups[c] == clusters[c]
    ensures Survives(clusters, o, Moved(plan, o))
  {
    if InLabelled(clusters, o) {
      TargetCases(plan, o.cluster.value);
    }
  }

  /** The observation survives for the same file; it stays clustered if it was, and stays put in a labelled group. */
  ghost predicate Survives(clusters: Clusters, before: Observation, after: Observation) {
    && after.(cluster := None) == before.(cluster := None) && (after.cluster.None? <==> before.cluster.None?)
    && (InLabelled(clusters, before) ==> after == before)
  }

  ghost predicate InLabelled(clusters: Clusters, o: Observation) {
    o.cluster.Some? && o.cluster.value in clusters && clusters[o.cluster.value].labelText.Some?
  }

  class Store {
    const versions: map<Id, Version>
    var observations: Observations
    var clusters: Clusters

    ghost predicate Valid()
      reads this
    {
      Consistent(versions, observations, clusters)
    }

    constructor (versions: map<Id, Version>)
      ensures Valid() && this.versions == versions && observations == map[] && clusters == map[]
    {
      this.versions := versions;
      observations, clusters := map[], map[];
    }

    /** Applies a plan row by row.  Every observation survives, sent to its target; exactly the sources disappear. */
    method ApplyPlan(plan: seq<(Id, Id)>, owner: Id)
      requires Valid() && Applicable(plan, clusters, owner)
      modifies this
      ensures Valid()
      ensures observations == Redirect(old(observations), plan)
      ensures clusters == old(clusters) - Sources(plan)
      ensures LabelledKept(old(clusters), clusters)
    {
      assert observations == Redirect(observations, plan[..0]);
      for k := 0 to |plan|
        invariant observations == Redirect(old(observations), plan[..k])
        invariant clusters == old(clusters) - Sources(plan[..k])
      {
        var (from, into) := plan[k];
        ghost var before := observations;
        observations := map o | o in observations ::
          if observations[o].cluster == Some(from) then observations[o].(cluster := Some(into)) else observations[o];
        RedirectNext(old(observations), plan, k, observations);
        assert Sources(plan[..k + 1]) == Sources(plan[..k]) + {from};
        if from in clusters && clusters[from].labelText.None? {
          clusters := clusters - {from};
        }
        assert from !in Sources(plan[..k]);
      }
      assert plan[..|plan|] == plan;
      RedirectConsistent(versions, old(observations), old(clusters), plan, owner);
    }

    /** Files one detected face under its nearest cluster, or under a new one. */
    method FileFace(version: Id, recipe: nat, index: nat, face: Descriptor, candidates: seq<Candidate>)
      returns (known: seq<Candidate>, ghost id: Id, ghost cluster: Id)
      requires Valid() && version in versions && Backed(candidates, clusters, versions[version].owner)
      modifies this
      ensures Valid() && Backed(known, clusters, versions[version].owner)
      ensures id !in old(observations)
        && observations == old(observations)[id := Observation(version, recipe, index, Some(cluster), face)]
      ensures if NoMatch(face, candidates)
              then cluster !in old(clusters) && known == candidates + [Candidate(cluster, face, None)]
                   && clusters == old(clusters)[cluster := Cluster(versions[version].owner, None)]
              else Nearest(face, candidates, cluster) && known == candidates && clusters == old(clusters)
    {
      known := candidates;
      var matched := MatchingCluster(face, candidates);
      var into;
      if matched.Some? {
        into := matched.value;
        assert exists k :: 0 <= k < |candidates| && candidates[k].cluster == into;
      } else {
        FreshExists(clusters.Keys);
        into :| into !in clusters;
        clusters := clusters[into := Cluster(versions[version].owner, None)];
        known := candidates + [Candidate(into, face, None)];
      }
      FreshExists(observations.Keys);
      var fresh' :| fresh' !in observations;
      observations := observations[fresh' := Observation(version, recipe, index, Some(into), face)];
      id, cluster := fresh', into;
    }

    method FileFaces(version: Id, recipe: nat, faces: seq<Descriptor>, fetched: seq<Candidate>)
      returns (candidates: seq<Candidate>, ghost f: Filing)
      requires Valid() && version in versions && Backed(fetched, clusters, versions[version].owner)
      modifies this
      ensures Valid() && Backed(candidates, clusters, versions[version].owner) && f.candidates == candidates
      ensures Filed(old(observations), observations, version, recipe, faces, fetched, f)
      ensures Grew(old(clusters), clusters, versions[version].owner, fetched, candidates)
    {
      candidates := fetched;
      f := Filing(fetched, [], [], []);
      FiledNothing(observations, version, recipe, faces, fetched);
      for index := 0 to |faces|
        invariant Valid() && Backed(candidates, clusters, versions[version].owner) && f.candidates == candidates
        invariant Filed(old(observations), observations, version, recipe, faces[..index], fetched, f)
        invariant Grew(old(clusters), clusters, versions[version].owner, fetched, candidates)
      {
        ghost var obs, groups := observations, clusters;
        ghost var id, c;
        var known;
        known, id, c := FileFace(version, recipe, index, faces[index], candidates);
        FiledNext(old(observations), obs, version, recipe, faces[..index], faces[index], fetched, f, known, id, c);
        GrewNext(old(clusters), groups, clusters, versions[version].owner, fetched, candidates, known, c);
        TakeOneMore(faces, index);
        f := FiledOneMore(f, known, id, c);
        candidates := known;
      }
      assert faces[..|faces|] == faces;
    }

    static predicate Admissible(obs: Observations, version: Id, recipe: nat, faces: seq<Descriptor>) {
      && (forall i :: 0 <= i < |faces| ==> |faces[i]| == DESCRIPTOR_LEN)
      && forall o :: o in obs ==> !Collides(obs[o], version, recipe, |faces|)
    }

    method PlanFor(candidates: seq<Candidate>, owner: Id) returns (plan: seq<(Id, Id)>)
      requires Backed(candidates, clusters, owner)
      ensures Applicable(plan, clusters, owner) && IsMergePlan(candidates, plan)
    {
      plan := ClusterMergePlan(candidates);
      MergePlanApplies(candidates, plan, clusters, owner);
    }

    /** Files the faces, then merges groups that have become close: `filed` and `groups` are the tables in between. */
    method FileAndMerge(version: Id, recipe: nat, faces: seq<Descriptor>, fetched: seq<Candidate>)
        returns (ghost trace: Trace)
      requires Valid() && version in versions && Backed(fetched, clusters, versions[version].owner)
      modifies this
      ensures Valid()
      ensures Explains(old(observations), old(clusters), observations, clusters, versions[version].owner, version,
        recipe, faces, fetched, trace)
    {
      ghost var filing;
      var candidates;
      candidates, filing := FileFaces(version, recipe, faces, fetched);
      var plan := PlanFor(candidates, versions[version].owner);
      trace := Trace(filing, observations, clusters, plan);
      ApplyPlan(plan, versions[version].owner);
    }

    /** The database part of a face job.  `fetched` is the bounded candidate query's answer. */
    method ProcessFaceJob(version: Id, recipe: nat, faces: seq<Descriptor>, fetched: seq<Candidate>, ownsLease: bool,
        ghost live: set<Id>, ghost from: seq<Id>)
      returns (ok: bool, ghost trace: Trace)
      requires Valid() && version in versions
      requires AnswersSwept(versions, observations, clusters, version, recipe, live, fetched, from)
      modifies this
      ensures Valid()
      ensures ok <==> ownsLease && Admissible(old(observations), version, recipe, faces)
      ensures !ok ==> observations == old(observations) && clusters == old(clusters)
      ensures LabelledKept(old(clusters), clusters)
      ensures ok ==> var obs := Dropped(old(observations), version, recipe);
                     Explains(obs, Swept(old(clusters), obs, versions[version].owner), observations, clusters,
                       versions[version].owner, version, recipe, faces, fetched, trace)
    {
      trace := Trace(Filing([], [], [], []), map[], map[], []);
      if !ownsLease || !Admissible(observations, version, recipe, faces) {
        return false, trace;
      }
      var owner := versions[version].owner;
      SweepKeepsConsistent(versions, observations, clusters, version, recipe, owner);
      observations := Dropped(observations, version, recipe);
      clusters := Swept(clusters, observations, owner);
      ghost var obs, groups := observations, clusters;
      AnswersAreBacked(versions, obs, groups, owner, recipe, live, fetched, from);
      trace := FileAndMerge(version, recipe, faces, fetched);
      FaceJobConserves(obs, groups, observations, clusters, owner, version, recipe, faces, fetched, trace);
      ok := true;
    }

    static predicate Collides(o: Observation, version: Id, recipe: nat, count: nat) {
      o.version == version && o.recipe == recipe && o.faceIndex < count
    }

    /** The owner names a group, or takes its name away. */
    method RenameFace(user: Id, cluster: Id, text: Option<string>) returns (r: Result<Option<string>, string>)
      requires Valid()
      modifies this
      ensures Valid() && observations == old(observations)
      ensures r.Ok? <==> MayRename(old(clusters), user, cluster, text)
      ensures r.Err? ==> clusters == old(clusters)
      ensures r.Ok? ==> r == NormalizeLabel(text) && (r.value.Some? ==> GoodLabel(r.value.value))
      ensures r.Ok? ==> clusters == old(clusters)[cluster := Cluster(user, r.value)]
    {
      r := NormalizeLabel(text);
      if r.Err? {
        return;
      }
      if cluster !in clusters || clusters[cluster].owner != user {
        return Err("not_found");
      }
      if text.Some? {
        NormalizedIsGood(text.value);
      }
      clusters := clusters[cluster := Cluster(user, r.value)];
    }

    static predicate MayRename(clusters: Clusters, user: Id, cluster: Id, text: Option<string>) {
      NormalizeLabel(text).Ok? && cluster in clusters && clusters[cluster].owner == user
    }

    /** The owner merges whole groups: observations move to the target, exactly the sources disappear. */
    method MergeFaces(user: Id, target: Id, sources: seq<Id>) returns (r: Result<(nat, nat), string>)
      requires Valid()
      modifies this
      ensures Valid()
      ensures r.Err? ==> observations == old(observations) && clusters == old(clusters)
      ensures r.Ok? ==> clusters == old(clusters) - (set s | s in sources) && target in clusters
      ensures r.Ok? ==> observations.Keys == old(observations).Keys
      ensures r.Ok? ==> forall o :: o in observations ==>
        observations[o] == MergedInto(old(observations)[o], sources, target)
      ensures r.Ok? <==> MayMerge(old(clusters), user, target, sources)
      ensures r.Ok? ==> r.value == (|sources|, |set o | o in old(observations) && In(old(observations)[o], sources)|)
    {
      if |sources| == 0 || |sources| > MAX_MERGE_SOURCES || !Distinct(sources) || target in sources {
        return Err("bad_request");
      }
      if target !in clusters || clusters[target].owner != user {
        return Err("not_found");
      }
      if exists s :: s in sources && (s !in clusters || clusters[s].owner != user) {
        return Err("not_found");
      }
      var moved := |set o | o in observations && In(observations[o], sources)|;
      observations := map o | o in observations :: MergedInto(observations[o], sources, target);
      clusters := clusters - (set s | s in sources);
      r := Ok((|sources|, moved));
    }

    static function MergedInto(x: Observation, sources: seq<Id>, target: Id): Observation {
      if In(x, sources) then x.(cluster := Some(target)) else x
    }

    static predicate In(x: Observation, sources: seq<Id>) {
      x.cluster.Some? && x.cluster.value in sources
    }

    static predicate MayMerge(clusters: Clusters, user: Id, target: Id, sources: seq<Id>) {
      && 0 < |sources| <= MAX_MERGE_SOURCES && Distinct(sources) && target !in sources
      && target in clusters && clusters[target].owner == user
      && forall s :: s in sources ==> s in clusters && clusters[s].owner == user
    }

    static predicate Distinct(ids: seq<Id>) {
      forall i, j :: 0 <= i < j < |ids| ==> ids[i] != ids[j]
    }

    /** The owner splits the faces of some files off into a new unlabelled group. */
    method SeparateFaces(user: Id, cluster: Id, files: seq<Id>) returns (r: Result<Id, string>)
      requires Valid()
      modifies this
      ensures Valid() && LabelledKept(old(clusters), clusters)
      ensures r.Err? ==> observations == old(observations) && clusters == old(clusters)
      ensures r.Ok? <==> MaySeparate(versions, old(observations), old(clusters), user, cluster, files)
      ensures r.Ok? ==> r.value !in old(clusters) && observations.Keys == old(observations).Keys
      ensures r.Ok? ==>
        clusters == (if old(clusters)[cluster].labelText.None? && !Used(observations, cluster)
          then old(clusters) - {cluster} else old(clusters))[r.value := Cluster(user, None)]
      ensures r.Ok? ==> forall o :: o in observations ==> observations[o] == (var x := old(observations)[o];
                if Splits(versions, x, user, cluster, files) then x.(cluster := Some(r.value)) else x)
      ensures r.Ok? ==> Used(observations, r.value)
    {
      if |files| == 0 || |files| > MAX_MERGE_SOURCES || !Distinct(files) {
        return Err("bad_request");
      }
      if cluster !in clusters || clusters[cluster].owner != user {
        return Err("not_found");
      }
      if !exists o :: o in observations && Splits(versions, observations[o], user, cluster, files) {
        return Err("not_found");
      }
      FreshExists(clusters.Keys);
      var newId :| newId !in clusters;
      ghost var o :| o in observations && Splits(versions, observations[o], user, cluster, files);
      clusters := clusters[newId := Cluster(user, None)];
      observations := map o | o in observations ::
        if Splits(versions, observations[o], user, cluster, files)
        then observations[o].(cluster := Some(newId)) else observations[o];
      assert observations[o].cluster == Some(newId);
      if clusters[cluster].labelText.None? && !Used(observations, cluster) {
        clusters := clusters - {cluster};
      }
      r := Ok(newId);
    }

    static predicate MaySeparate(versions: map<Id, Version>, obs: Observations, clusters: Clusters, user: Id,
        cluster: Id, files: seq<Id>) {
      && 0 < |files| <= MAX_MERGE_SOURCES && Distinct(files) && cluster in clusters && clusters[cluster].owner == user
      && exists o :: o in obs && Splits(versions, obs[o], user, cluster, files)
    }

    static predicate Splits(versions: map<Id, Version>, x: Observation, user: Id, cluster: Id, files: seq<Id>) {
      x.cluster == Some(cluster) && x.version in versions && versions[x.version].owner == user
      && versions[x.version].file in files
    }
  }
}
