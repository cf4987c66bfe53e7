/** Automatic merging of face groups: `cluster_merge_plan` and the descriptor
    distance it is built on (src/media_indexer.rs). */
module FaceMerge {
  import opened Common

  const DESCRIPTOR_LEN: nat := 256
  const MERGE_THRESHOLD: nat := 28
  const MATCH_THRESHOLD: nat := 40

  type Byte = b: int | 0 <= b < 256
  type Descriptor = seq<Byte>

  datatype Candidate = Candidate(cluster: Id, descriptor: Descriptor, labelText: Option<string>)
  datatype Group = Group(id: Id, labelText: Option<string>, descriptors: seq<Descriptor>)

  // ----- descriptor distance

  function AbsDiff(a: Byte, b: Byte): nat {
    if a < b then b - a else a - b
  }

  function TotalDiff(left: Descriptor, right: Descriptor): nat
    requires |left| == |right|
  {
    if left == [] then 0 else AbsDiff(left[0], right[0]) + TotalDiff(left[1..], right[1..])
  }

  function DescriptorDistance(left: Descriptor, right: Descriptor): Option<nat> {
    if |left| != DESCRIPTOR_LEN || |right| != DESCRIPTOR_LEN then None
    else Some(TotalDiff(left, right) / DESCRIPTOR_LEN)
  }

  predicate Close(left: Descriptor, right: Descriptor) {
    var d := DescriptorDistance(left, right);
    d.Some? && d.value <= MERGE_THRESHOLD
  }

  lemma {:induction false} TotalDiffSymmetric(left: Descriptor, right: Descriptor)
    requires |left| == |right|
    ensures TotalDiff(left, right) == TotalDiff(right, left)
  {
    if left != [] {
      TotalDiffSymmetric(left[1..], right[1..]);
    }
  }

  lemma CloseSymmetric(left: Descriptor, right: Descriptor)
    ensures Close(left, right) == Close(right, left)
  {
    if |left| == |right| {
      TotalDiffSymmetric(left, right);
    }
  }

  ghost predicate CloseSets(left: seq<Descriptor>, right: seq<Descriptor>) {
    exists i, j :: 0 <= i < |left| && 0 <= j < |right| && Close(left[i], right[j])
  }

  /** The minimum over all comparable pairs, or None when no pair is comparable. */
  method ClosestDescriptorDistance(left: seq<Descriptor>, right: seq<Descriptor>) returns (best: Option<nat>)
    ensures best.None? ==> forall i, j :: 0 <= i < |left| && 0 <= j < |right| ==>
      DescriptorDistance(left[i], right[j]).None?
    ensures best.Some? ==>
      exists i, j :: 0 <= i < |left| && 0 <= j < |right| && DescriptorDistance(left[i], right[j]) == best
    ensures forall i, j :: 0 <= i < |left| && 0 <= j < |right| && DescriptorDistance(left[i], right[j]).Some?
              ==> best.Some? && best.value <= DescriptorDistance(left[i], right[j]).value
  {
    best := None;
    for a := 0 to |left|
      invariant best.Some? ==>
        exists i, j :: 0 <= i < a && 0 <= j < |right| && DescriptorDistance(left[i], right[j]) == best
      invariant forall i, j :: 0 <= i < a && 0 <= j < |right| && DescriptorDistance(left[i], right[j]).Some?
                  ==> best.Some? && best.value <= DescriptorDistance(left[i], right[j]).value
    {
      for b := 0 to |right|
        invariant best.Some? ==>
          exists i, j :: 0 <= i <= a && 0 <= j < |right| && DescriptorDistance(left[i], right[j]) == best
        invariant forall i, j :: 0 <= i < a && 0 <= j < |right| && DescriptorDistance(left[i], right[j]).Some?
                    ==> best.Some? && best.value <= DescriptorDistance(left[i], right[j]).value
        invariant forall j :: 0 <= j < b && DescriptorDistance(left[a], right[j]).Some?
                    ==> best.Some? && best.value <= DescriptorDistance(left[a], right[j]).value
      {
        var distance := DescriptorDistance(left[a], right[b]);
        if distance.Some? && (best.None? || distance.value < best.value) {
          best := distance;
        }
      }
    }
  }

  /** The nearest candidate within the match threshold; ties go to the smaller cluster id. */
  method MatchingCluster(descriptor: Descriptor, candidates: seq<Candidate>) returns (r: Option<Id>)
    ensures r.None? <==> forall c :: c in candidates ==> !Matches(descriptor, c)
    ensures r.Some? ==> exists c :: c in candidates && Matches(descriptor, c) && c.cluster == r.value
                         && forall o :: o in candidates && Matches(descriptor, o) ==> NotWorse(descriptor, c, o)
  {
    var best: Option<(nat, Id)> := None;
    ghost var at: int := -1;
    for k := 0 to |candidates|
      invariant best.None? ==> forall i :: 0 <= i < k ==> !Matches(descriptor, candidates[i])
      invariant best.Some? ==> 0 <= at < k && Matches(descriptor, candidates[at])
      invariant best.Some? ==>
        best.value == (DescriptorDistance(descriptor, candidates[at].descriptor).value, candidates[at].cluster)
      invariant best.Some? ==> forall i :: 0 <= i < k && Matches(descriptor, candidates[i]) ==>
        NotWorse(descriptor, candidates[at], candidates[i])
    {
      var candidate := candidates[k];
      var distance := DescriptorDistance(descriptor, candidate.descriptor);
      if distance.Some? && distance.value <= MATCH_THRESHOLD {
        if best.None? || distance.value < best.value.0
           || (distance.value == best.value.0 && candidate.cluster < best.value.1) {
          best, at := Some((distance.value, candidate.cluster)), k;
        }
      }
    }
    r := if best.Some? then Some(best.value.1) else None;
    if best.Some? {
      assert candidates[at] in candidates;
    }
  }

  predicate Matches(descriptor: Descriptor, c: Candidate) {
    var d := DescriptorDistance(descriptor, c.descriptor);
    d.Some? && d.value <= MATCH_THRESHOLD
  }

  predicate NotWorse(descriptor: Descriptor, c: Candidate, o: Candidate)
    requires Matches(descriptor, c) && Matches(descriptor, o)
  {
    var dc, d := DescriptorDistance(descriptor, c.descriptor).value, DescriptorDistance(descriptor, o.descriptor).value;
    dc < d || (dc == d && c.cluster <= o.cluster)
  }

  // ----- what a plan must be, stated on the candidates alone

  function Ids(cs: seq<Candidate>): set<Id> {
    set c | c in cs :: c.cluster
  }

  /** The descriptors filed under one cluster, in candidate order. */
  function DescriptorsOf(cs: seq<Candidate>, id: Id): seq<Descriptor> {
    if cs == [] then []
    else
      var rest := DescriptorsOf(cs[..|cs| - 1], id);
      if cs[|cs| - 1].cluster == id then rest + [cs[|cs| - 1].descriptor] else rest
  }

  /** The first label any candidate of the cluster carries. */
  function LabelOf(cs: seq<Candidate>, id: Id): Option<string> {
    if cs == [] then None
    else
      var rest := LabelOf(cs[..|cs| - 1], id);
      if rest.None? && cs[|cs| - 1].cluster == id then cs[|cs| - 1].labelText else rest
  }

  predicate Labelled(cs: seq<Candidate>, id: Id) {
    LabelOf(cs, id).Some?
  }

  /** Two clusters are near when some pair of their descriptors is close. */
  ghost predicate Near(cs: seq<Candidate>, x: Id, y: Id) {
    CloseSets(DescriptorsOf(cs, x), DescriptorsOf(cs, y))
  }

  ghost predicate IsPath(cs: seq<Candidate>, within: set<Id>, path: seq<Id>) {
    && (forall k :: 0 <= k < |path| ==> path[k] in within)
    && (forall k :: 0 < k < |path| ==> Near(cs, path[k - 1], path[k]))
  }

  ghost predicate Connected(cs: seq<Candidate>, within: set<Id>, x: Id, y: Id) {
    exists path :: IsPath(cs, within, path) && |path| > 0 && path[0] == x && path[|path| - 1] == y
  }

  /** Where the plan sends a cluster. */
  function Target(plan: seq<(Id, Id)>, id: Id): Id {
    if plan == [] then id
    else if plan[|plan| - 1].0 == id then plan[|plan| - 1].1
    else Target(plan[..|plan| - 1], id)
  }

  ghost function ClassOf(cs: seq<Candidate>, plan: seq<(Id, Id)>, id: Id): set<Id> {
    set x | x in Ids(cs) && Target(plan, x) == Target(plan, id)
  }

  /** A source is an unlabelled cluster; a target is a cluster and never a source. */
  ghost predicate GoodEntry(cs: seq<Candidate>, plan: seq<(Id, Id)>, e: (Id, Id)) {
    && e.0 in Ids(cs) && e.1 in Ids(cs) && !Labelled(cs, e.0)
    && forall l :: 0 <= l < |plan| ==> e.1 != plan[l].0
  }

  /** Sound: a class hangs together through close descriptor pairs of its own members. */
  ghost predicate SoundAt(cs: seq<Candidate>, plan: seq<(Id, Id)>, x: Id) {
    Connected(cs, ClassOf(cs, plan, x), x, Target(plan, x))
  }

  /** Maximal: near clusters left apart are in two labelled classes. */
  ghost predicate MaximalAt(cs: seq<Candidate>, plan: seq<(Id, Id)>, x: Id, y: Id) {
    Near(cs, x, y) && Target(plan, x) != Target(plan, y)
    ==> Labelled(cs, Target(plan, x)) && Labelled(cs, Target(plan, y))
  }

  ghost predicate IsMergePlan(cs: seq<Candidate>, plan: seq<(Id, Id)>) {
    // sources are listed once, in ascending order
    && (forall k, l :: 0 <= k < l < |plan| ==> plan[k].0 < plan[l].0)
    && (forall k :: 0 <= k < |plan| ==> GoodEntry(cs, plan, plan[k]))
    && (forall x :: x in Ids(cs) ==> SoundAt(cs, plan, x))
    && (forall x, y :: x in Ids(cs) && y in Ids(cs) ==> MaximalAt(cs, plan, x, y))
    // an unlabelled target is the smallest id of its class
    && (forall x :: x in Ids(cs) && !Labelled(cs, Target(plan, x)) ==> Target(plan, x) <= x)
  }

  // ----- connectivity

  lemma NearSymmetric(cs: seq<Candidate>, x: Id, y: Id)
    requires Near(cs, x, y)
    ensures Near(cs, y, x)
  {
    var l, r := DescriptorsOf(cs, x), DescriptorsOf(cs, y);
    var i, j :| 0 <= i < |l| && 0 <= j < |r| && Close(l[i], r[j]);
    CloseSymmetric(l[i], r[j]);
  }

  lemma ConnectedSelf(cs: seq<Candidate>, s: set<Id>, x: Id)
    requires x in s
    ensures Connected(cs, s, x, x)
  {
    assert IsPath(cs, s, [x]);
  }

  lemma ConnectedWiden(cs: seq<Candidate>, s: set<Id>, t: set<Id>, x: Id, y: Id)
    requires Connected(cs, s, x, y) && s <= t
    ensures Connected(cs, t, x, y)
  {
    var p :| IsPath(cs, s, p) && |p| > 0 && p[0] == x && p[|p| - 1] == y;
    assert IsPath(cs, t, p);
  }

  lemma ConnectedJoin(cs: seq<Candidate>, s: set<Id>, x: Id, y: Id, z: Id)
    requires Connected(cs, s, x, y) && Connected(cs, s, y, z)
    ensures Connected(cs, s, x, z)
  {
    var p :| IsPath(cs, s, p) && |p| > 0 && p[0] == x && p[|p| - 1] == y;
    var q :| IsPath(cs, s, q) && |q| > 0 && q[0] == y && q[|q| - 1] == z;
    var r := p + q[1..];
    forall k | 0 < k < |r| ensures Near(cs, r[k - 1], r[k]) {
      if k >= |p| {
        assert r[k] == q[k - |p| + 1] && r[k - 1] == q[k - |p|];
      }
    }
    assert IsPath(cs, s, r);
    assert r[0] == x && r[|r| - 1] == z;
  }

  lemma ConnectedEdge(cs: seq<Candidate>, s: set<Id>, x: Id, y: Id)
    requires Near(cs, x, y) && x in s && y in s
    ensures Connected(cs, s, x, y)
  {
    assert IsPath(cs, s, [x, y]);
  }

  lemma {:induction false} ConnectedFlip(cs: seq<Candidate>, s: set<Id>, p: seq<Id>)
    requires IsPath(cs, s, p) && |p| > 0
    ensures Connected(cs, s, p[|p| - 1], p[0])
  {
    if |p| == 1 {
      ConnectedSelf(cs, s, p[0]);
    } else {
      var q := p[1..];
      assert IsPath(cs, s, q) by {
        assert forall k :: 0 < k < |q| ==> q[k - 1] == p[k] && q[k] == p[k + 1];
      }
      ConnectedFlip(cs, s, q);
      assert Near(cs, p[0], p[1]);
      NearSymmetric(cs, p[0], p[1]);
      ConnectedEdge(cs, s, p[1], p[0]);
      ConnectedJoin(cs, s, p[|p| - 1], p[1], p[0]);
    }
  }

  lemma ConnectedSymmetric(cs: seq<Candidate>, s: set<Id>, x: Id, y: Id)
    requires Connected(cs, s, x, y)
    ensures Connected(cs, s, y, x)
  {
    var p :| IsPath(cs, s, p) && |p| > 0 && p[0] == x && p[|p| - 1] == y;
    ConnectedFlip(cs, s, p);
  }
}
