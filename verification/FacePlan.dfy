/** The union-find forest behind `cluster_merge_plan`.  A root is a fixed point
    of the parent table; labelled groups outrank unlabelled ones and otherwise the
    smaller index (the smaller id, since groups are sorted) wins. */
module GroupForest {

  function Rank(lab: seq<bool>, i: nat): nat
    requires i < |lab|
  {
    if lab[i] then i else |lab| + i
  }

  ghost predicate Forest(p: seq<nat>, lab: seq<bool>) {
    |p| == |lab| &&
    forall i :: 0 <= i < |p| ==> p[i] < |p| && (p[i] == i || (!lab[i] && (lab[p[i]] || p[i] < i)))
  }

  ghost function Root(p: seq<nat>, lab: seq<bool>, i: nat): (r: nat)
    requires Forest(p, lab) && i < |p|
    ensures r < |p| && p[r] == r
    ensures r == i || (!lab[i] && (lab[r] || r < i))
    decreases Rank(lab, i)
  {
    if p[i] == i then i else Root(p, lab, p[i])
  }

  ghost function Roots(p: seq<nat>, lab: seq<bool>): (r: seq<nat>)
    requires Forest(p, lab)
    ensures |r| == |p| && forall i :: 0 <= i < |p| ==> r[i] == Root(p, lab, i)
  {
    seq(|p|, i requires 0 <= i < |p| => Root(p, lab, i))
  }

  /** One halving step moves no element to another root. */
  lemma {:induction false} HalveKeepsRoot(p: seq<nat>, lab: seq<bool>, i: nat, j: nat)
    requires Forest(p, lab) && i < |p| && j < |p|
    ensures Forest(p[i := p[p[i]]], lab)
    ensures Root(p[i := p[p[i]]], lab, j) == Root(p, lab, j)
    decreases Rank(lab, j)
  {
    var q := p[i := p[p[i]]];
    if q[j] != j {
      HalveKeepsRoot(p, lab, i, q[j]);
    }
  }

  lemma HalveKeepsRoots(p: seq<nat>, lab: seq<bool>, i: nat)
    requires Forest(p, lab) && i < |p|
    ensures Forest(p[i := p[p[i]]], lab)
    ensures Roots(p[i := p[p[i]]], lab) == Roots(p, lab)
  {
    forall j | 0 <= j < |p| ensures Forest(p[i := p[p[i]]], lab) && Root(p[i := p[p[i]]], lab, j) == Root(p, lab, j) {
      HalveKeepsRoot(p, lab, i, j);
    }
    HalveKeepsRoot(p, lab, i, i);
  }

  ghost predicate MayLink(p: seq<nat>, lab: seq<bool>, child: nat, root: nat) {
    Forest(p, lab) && child < |p| && root < |p| && child != root && p[child] == child && p[root] == root
    && !lab[child] && (lab[root] || root < child)
  }

  lemma {:induction false} LinkMovesRoot(p: seq<nat>, lab: seq<bool>, child: nat, root: nat, j: nat)
    requires MayLink(p, lab, child, root) && j < |p|
    ensures Forest(p[child := root], lab)
    ensures Root(p[child := root], lab, j) == if Root(p, lab, j) == child then root else Root(p, lab, j)
    decreases Rank(lab, j)
  {
    if p[j] != j {
      LinkMovesRoot(p, lab, child, root, p[j]);
    }
  }

  ghost function Relinked(r: seq<nat>, child: nat, root: nat): (s: seq<nat>) {
    seq(|r|, i requires 0 <= i < |r| => if r[i] == child then root else r[i])
  }

  lemma LinkMovesRoots(p: seq<nat>, lab: seq<bool>, child: nat, root: nat)
    requires MayLink(p, lab, child, root)
    ensures Forest(p[child := root], lab)
    ensures Roots(p[child := root], lab) == Relinked(Roots(p, lab), child, root)
  {
    LinkMovesRoot(p, lab, child, root, child);
    forall j | 0 <= j < |p| ensures Roots(p[child := root], lab)[j] == Relinked(Roots(p, lab), child, root)[j] {
      LinkMovesRoot(p, lab, child, root, j);
    }
  }

  /** Path-halving `find`: terminates, returns the root and keeps every element's root. */
  method Find(parent: array<nat>, start: nat, ghost lab: seq<bool>) returns (root: nat)
    requires Forest(parent[..], lab) && start < parent.Length
    modifies parent
    ensures Forest(parent[..], lab)
    ensures Roots(parent[..], lab) == old(Roots(parent[..], lab))
    ensures root == old(Root(parent[..], lab, start)) && root < parent.Length && parent[root] == root
  {
    var index: nat := start;
    while parent[index] != index
      invariant index < parent.Length && Forest(parent[..], lab)
      invariant Roots(parent[..], lab) == old(Roots(parent[..], lab))
      invariant Root(parent[..], lab, index) == old(Root(parent[..], lab, start))
      decreases Rank(lab, index)
    {
      ghost var before := parent[..];
      HalveKeepsRoots(before, lab, index);
      parent[index] := parent[parent[index]];
      assert parent[..] == before[index := before[before[index]]];
      index := parent[index];
      assert Root(parent[..], lab, index) == Roots(before, lab)[index];
    }
    root := index;
  }
}

/** `cluster_merge_plan` proved to return a sound, maximal merge plan. */
module FacePlan {
  import opened Common
  import opened FaceMerge
  import opened GroupForest

  // ----- grouping the candidates

  ghost predicate DistinctIds(g: seq<Group>) {
    forall i, j :: 0 <= i < j < |g| ==> g[i].id != g[j].id
  }

  ghost predicate HasId(g: seq<Group>, id: Id) {
    exists i :: 0 <= i < |g| && g[i].id == id
  }

  /** The group holds what the candidates file under its id. */
  ghost predicate FiledGroup(cs: seq<Candidate>, x: Group) {
    x.id in Ids(cs) && x.descriptors == DescriptorsOf(cs, x.id) && x.labelText == LabelOf(cs, x.id)
  }

  ghost predicate Grouped(cs: seq<Candidate>, g: seq<Group>) {
    && (forall i :: 0 <= i < |g| ==> FiledGroup(cs, g[i]))
    && (forall id :: id in Ids(cs) ==> HasId(g, id))
  }

  lemma AbsentIdIsEmpty(cs: seq<Candidate>, id: Id)
    requires id !in Ids(cs)
    ensures DescriptorsOf(cs, id) == [] && LabelOf(cs, id) == None
  {
    if cs != [] {
      assert cs[|cs| - 1].cluster in Ids(cs);
      assert Ids(cs[..|cs| - 1]) <= Ids(cs);
      AbsentIdIsEmpty(cs[..|cs| - 1], id);
    }
  }

  function Extended(x: Group, c: Candidate): Group {
    Group(x.id, if x.labelText.None? then c.labelText else x.labelText, x.descriptors + [c.descriptor])
  }

  lemma FiledStays(cs: seq<Candidate>, c: Candidate, x: Group)
    requires FiledGroup(cs, x)
    ensures FiledGroup(cs + [c], if x.id == c.cluster then Extended(x, c) else x)
  {
    assert (cs + [c])[..|cs|] == cs;
    var y :| y in cs && y.cluster == x.id;
    assert y in cs + [c];
  }

  lemma GroupedAfter(cs: seq<Candidate>, c: Candidate, g: seq<Group>, at: nat, g': seq<Group>)
    requires Grouped(cs, g) && at <= |g|
    requires forall i :: 0 <= i < |g| ==> (g[i].id == c.cluster <==> i == at)
    requires if at < |g| then g' == g[at := Extended(g[at], c)]
             else g' == g + [Group(c.cluster, c.labelText, [c.descriptor])]
    ensures Grouped(cs + [c], g')
  {
    forall i | 0 <= i < |g| ensures FiledGroup(cs + [c], g'[i]) {
      FiledStays(cs, c, g[i]);
    }
    if at == |g| {
      assert !HasId(g, c.cluster);
      AbsentIdIsEmpty(cs, c.cluster);
      assert (cs + [c])[..|cs|] == cs && (cs + [c])[|cs|] == c;
      assert FiledGroup(cs + [c], g'[at]);
    }
    assert g'[at].id == c.cluster;
    forall id | id in Ids(cs + [c]) ensures HasId(g', id) {
      if id != c.cluster {
        assert id in Ids(cs);
        assert HasId(g, id);
        var i :| 0 <= i < |g| && g[i].id == id;
        assert g'[i].id == id;
      }
    }
  }

  method GroupCandidates(cs: seq<Candidate>) returns (groups: seq<Group>)
    ensures Grouped(cs, groups) && DistinctIds(groups)
  {
    groups := [];
    for k := 0 to |cs|
      invariant Grouped(cs[..k], groups) && DistinctIds(groups)
    {
      var candidate := cs[k];
      ghost var was := groups;
      var at := 0;
      while at < |groups| && groups[at].id != candidate.cluster
        invariant at <= |groups|
        invariant forall i :: 0 <= i < at ==> groups[i].id != candidate.cluster
      {
        at := at + 1;
      }
      if at < |groups| {
        groups := groups[at := Extended(groups[at], candidate)];
      } else {
        groups := groups + [Group(candidate.cluster, candidate.labelText, [candidate.descriptor])];
      }
      GroupedAfter(cs[..k], candidate, was, at, groups);
      assert cs[..k + 1] == cs[..k] + [candidate];
    }
    assert cs[..|cs|] == cs;
  }

  lemma {:induction false} DistinctOnce(g: seq<Group>, x: Group)
    requires DistinctIds(g)
    ensures multiset(g)[x] <= 1
  {
    if g != [] {
      var front := g[..|g| - 1];
      assert g == front + [g[|g| - 1]];
      DistinctOnce(front, x);
      assert x == g[|g| - 1] ==> x !in multiset(front) by {
        assert forall i :: 0 <= i < |front| ==> front[i] == g[i];
      }
    }
  }

  lemma RepeatCounts<T>(s: seq<T>, i: nat, j: nat)
    requires i < j < |s| && s[i] == s[j]
    ensures multiset(s)[s[i]] >= 2
  {
    assert s == s[..j] + s[j..];
    assert s[..j][i] == s[i] && s[j..][0] == s[i];
    assert s[i] in multiset(s[..j]) && s[i] in multiset(s[j..]);
  }

  lemma SortedGroups(cs: seq<Candidate>, g: seq<Group>, s: seq<Group>)
    requires Grouped(cs, g) && DistinctIds(g)
    requires multiset(s) == multiset(g) && SortedBy(s, (x: Group) => x.id)
    ensures Grouped(cs, s)
    ensures forall i, j :: 0 <= i < j < |s| ==> s[i].id < s[j].id
  {
    forall i | 0 <= i < |s| ensures s[i] in g {
      assert s[i] in multiset(g);
    }
    forall id | id in Ids(cs) ensures HasId(s, id) {
      assert HasId(g, id);
      var k :| 0 <= k < |g| && g[k].id == id;
      assert g[k] in multiset(s);
    }
    forall i, j | 0 <= i < j < |s| ensures s[i].id < s[j].id {
      if s[i].id == s[j].id {
        RepeatCounts(s, i, j);
        DistinctOnce(g, s[i]);
      }
    }
  }

  // ----- the state of the merging loop, over roots instead of parents

  ghost predicate Ordered(cs: seq<Candidate>, g: seq<Group>) {
    Grouped(cs, g) && forall i, j :: 0 <= i < j < |g| ==> g[i].id < g[j].id
  }

  function LabelFlags(g: seq<Group>): (lab: seq<bool>) {
    seq(|g|, i requires 0 <= i < |g| => g[i].labelText.Some?)
  }

  ghost function Members(g: seq<Group>, r: seq<nat>, root: nat): set<Id>
    requires |r| == |g|
  {
    set i | 0 <= i < |g| && r[i] == root :: g[i].id
  }

  /** `r` gives each group's root. */
  ghost predicate RootTable(g: seq<Group>, r: seq<nat>) {
    && |r| == |g|
    && (forall i :: 0 <= i < |r| ==> r[i] < |r| && r[r[i]] == r[i])
    && (forall i :: 0 <= i < |r| ==> r[i] == i || (g[i].labelText.None? && (g[r[i]].labelText.Some? || r[i] < i)))
  }

  ghost predicate Includes(all: seq<Descriptor>, some: seq<Descriptor>) {
    forall x :: x in some ==> x in all
  }

  ghost predicate Contributed(g: seq<Group>, r: seq<nat>, k: nat, x: Descriptor)
    requires |r| == |g|
  {
    exists i :: 0 <= i < |g| && r[i] == k && x in g[i].descriptors
  }

  /** `d` holds at each root exactly the descriptors of its class. */
  ghost predicate Gathered(g: seq<Group>, r: seq<nat>, d: seq<seq<Descriptor>>)
    requires RootTable(g, r)
  {
    && |d| == |g|
    && (forall i :: 0 <= i < |r| ==> Includes(d[r[i]], g[i].descriptors))
    && (forall k, x :: 0 <= k < |r| && r[k] == k && x in d[k] ==> Contributed(g, r, k, x))
  }

  ghost predicate LinkedAt(cs: seq<Candidate>, g: seq<Group>, r: seq<nat>, i: nat)
    requires RootTable(g, r) && i < |r|
  {
    Connected(cs, Members(g, r, r[i]), g[i].id, g[r[i]].id)
  }

  ghost predicate Linked(cs: seq<Candidate>, g: seq<Group>, r: seq<nat>)
    requires RootTable(g, r)
  {
    forall i :: 0 <= i < |r| ==> LinkedAt(cs, g, r, i)
  }

  ghost predicate Merged(cs: seq<Candidate>, g: seq<Group>, r: seq<nat>, d: seq<seq<Descriptor>>) {
    RootTable(g, r) && Gathered(g, r, d) && Linked(cs, g, r)
  }

  lemma MergedInitially(cs: seq<Candidate>, g: seq<Group>, r: seq<nat>, d: seq<seq<Descriptor>>)
    requires |r| == |g| == |d|
    requires forall i :: 0 <= i < |g| ==> r[i] == i && d[i] == g[i].descriptors
    ensures Merged(cs, g, r, d)
  {
    forall i | 0 <= i < |r| ensures LinkedAt(cs, g, r, i) {
      assert g[i].id in Members(g, r, i);
      ConnectedSelf(cs, Members(g, r, i), g[i].id);
    }
  }

  /** A close pair of accumulated descriptors comes from two near members of the classes. */
  lemma NearMembers(cs: seq<Candidate>, g: seq<Group>, r: seq<nat>, d: seq<seq<Descriptor>>, a: nat, c: nat)
    returns (m: nat, n: nat)
    requires Grouped(cs, g) && RootTable(g, r) && Gathered(g, r, d)
    requires a < |r| && c < |r| && r[a] == a && r[c] == c && CloseSets(d[c], d[a])
    ensures m < |r| && n < |r| && r[m] == c && r[n] == a && Near(cs, g[m].id, g[n].id)
  {
    var x, y :| x in d[c] && y in d[a] && Close(x, y);
    assert Contributed(g, r, c, x) && Contributed(g, r, a, y);
    m :| 0 <= m < |g| && r[m] == c && x in g[m].descriptors;
    n :| 0 <= n < |g| && r[n] == a && y in g[n].descriptors;
  }

  lemma ConnectThrough(cs: seq<Candidate>, s: set<Id>, c: Id, m: Id, n: Id, a: Id)
    requires Connected(cs, s, m, c) && Connected(cs, s, n, a) && Near(cs, m, n) && m in s && n in s
    ensures Connected(cs, s, c, a)
  {
    ConnectedSymmetric(cs, s, m, c);
    ConnectedEdge(cs, s, m, n);
    ConnectedJoin(cs, s, c, m, n);
    ConnectedJoin(cs, s, c, n, a);
  }

  lemma JoinedMembers(g: seq<Group>, r: seq<nat>, a: nat, c: nat)
    requires |r| == |g|
    ensures Members(g, r, a) + Members(g, r, c) <= Members(g, Relinked(r, c, a), a)
    ensures forall k :: k != a && k != c ==> Members(g, Relinked(r, c, a), k) == Members(g, r, k)
  {
    var r' := Relinked(r, c, a);
    forall i | 0 <= i < |g| && (r[i] == a || r[i] == c) ensures g[i].id in Members(g, r', a) {
      assert r'[i] == a;
    }
    forall k | k != a && k != c ensures Members(g, r', k) == Members(g, r, k) {
      assert forall i :: 0 <= i < |g| ==> (r'[i] == k <==> r[i] == k);
    }
  }

  ghost predicate Joinable(g: seq<Group>, r: seq<nat>, a: nat, c: nat) {
    RootTable(g, r) && a < |r| && c < |r| && a != c && r[a] == a && r[c] == c
    && g[c].labelText.None? && (g[a].labelText.Some? || a < c)
  }

  lemma LinkKeepsTable(g: seq<Group>, r: seq<nat>, a: nat, c: nat)
    requires Joinable(g, r, a, c)
    ensures RootTable(g, Relinked(r, c, a))
  {
  }

  lemma LinkConnects(cs: seq<Candidate>, g: seq<Group>, r: seq<nat>, d: seq<seq<Descriptor>>, a: nat, c: nat, i: nat)
    requires Grouped(cs, g) && Joinable(g, r, a, c) && Merged(cs, g, r, d) && CloseSets(d[c], d[a]) && i < |r|
    ensures RootTable(g, Relinked(r, c, a)) && LinkedAt(cs, g, Relinked(r, c, a), i)
  {
    LinkKeepsTable(g, r, a, c);
    JoinedMembers(g, r, a, c);
    assert LinkedAt(cs, g, r, i);
    if r[i] == a || r[i] == c {
      var s := Members(g, Relinked(r, c, a), a);
      ConnectedWiden(cs, Members(g, r, r[i]), s, g[i].id, g[r[i]].id);
      if r[i] == c {
        var m, n := NearMembers(cs, g, r, d, a, c);
        assert LinkedAt(cs, g, r, m) && LinkedAt(cs, g, r, n);
        assert g[m].id in Members(g, r, c) && g[n].id in Members(g, r, a);
        ConnectedWiden(cs, Members(g, r, c), s, g[m].id, g[c].id);
        ConnectedWiden(cs, Members(g, r, a), s, g[n].id, g[a].id);
        ConnectThrough(cs, s, g[c].id, g[m].id, g[n].id, g[a].id);
        ConnectedJoin(cs, s, g[i].id, g[c].id, g[a].id);
      }
    }
  }

  lemma LinkGathers(g: seq<Group>, r: seq<nat>, d: seq<seq<Descriptor>>, a: nat, c: nat)
    requires Joinable(g, r, a, c) && Gathered(g, r, d)
    ensures RootTable(g, Relinked(r, c, a)) && Gathered(g, Relinked(r, c, a), d[a := d[a] + d[c]])
  {
    LinkKeepsTable(g, r, a, c);
    var r', d' := Relinked(r, c, a), d[a := d[a] + d[c]];
    forall i | 0 <= i < |r| ensures Includes(d'[r'[i]], g[i].descriptors) {
      assert Includes(d[r[i]], g[i].descriptors);
    }
    forall k, x | 0 <= k < |r| && r'[k] == k && x in d'[k] ensures Contributed(g, r', k, x) {
      var from := if k == a && x !in d[a] then c else k;
      assert Contributed(g, r, from, x);
      var i :| 0 <= i < |g| && r[i] == from && x in g[i].descriptors;
      assert r'[i] == k;
    }
  }

  lemma MergedAfterLink(cs: seq<Candidate>, g: seq<Group>, r: seq<nat>, d: seq<seq<Descriptor>>, a: nat, c: nat)
    requires Grouped(cs, g) && Joinable(g, r, a, c) && Merged(cs, g, r, d) && CloseSets(d[c], d[a])
    ensures Merged(cs, g, Relinked(r, c, a), d[a := d[a] + d[c]])
  {
    LinkGathers(g, r, d, a, c);
    forall i | 0 <= i < |r| ensures LinkedAt(cs, g, Relinked(r, c, a), i) {
      LinkConnects(cs, g, r, d, a, c, i);
    }
  }

  /** A pair the loop has finished with: joined, both labelled, or not near.  Later links keep it. */
  ghost predicate Settled(cs: seq<Candidate>, g: seq<Group>, r: seq<nat>, i: nat, j: nat)
    requires |r| == |g| && i < |g| && j < |g| && r[i] < |g| && r[j] < |g|
  {
    r[i] == r[j] || (g[r[i]].labelText.Some? && g[r[j]].labelText.Some?) || !Near(cs, g[i].id, g[j].id)
  }

  ghost predicate SettledBefore(cs: seq<Candidate>, g: seq<Group>, r: seq<nat>, left: nat, right: nat)
    requires |r| == |g| && forall i :: 0 <= i < |g| ==> r[i] < |g|
  {
    forall i, j {:trigger Settled(cs, g, r, i, j)} ::
      0 <= i < j < |g| && (i < left || (i == left && j < right)) ==> Settled(cs, g, r, i, j)
  }

  lemma SettledStays(cs: seq<Candidate>, g: seq<Group>, r: seq<nat>, a: nat, c: nat, left: nat, right: nat)
    requires |r| == |g| && (forall i :: 0 <= i < |g| ==> r[i] < |g|)
    requires a < |g| && c < |g| && g[c].labelText.None?
    requires SettledBefore(cs, g, r, left, right)
    ensures SettledBefore(cs, g, Relinked(r, c, a), left, right)
  {
    var r' := Relinked(r, c, a);
    forall i, j | 0 <= i < j < |g| && (i < left || (i == left && j < right)) ensures Settled(cs, g, r', i, j) {
      assert Settled(cs, g, r, i, j);
    }
  }

  /** Near groups have close accumulated descriptors at their roots. */
  lemma NearReachesRoots(cs: seq<Candidate>, g: seq<Group>, r: seq<nat>, d: seq<seq<Descriptor>>, i: nat, j: nat)
    requires Grouped(cs, g) && RootTable(g, r) && Gathered(g, r, d) && i < |g| && j < |g|
    requires Near(cs, g[i].id, g[j].id)
    ensures CloseSets(d[r[i]], d[r[j]])
  {
    var l, m := g[i].descriptors, g[j].descriptors;
    var a, b :| 0 <= a < |l| && 0 <= b < |m| && Close(l[a], m[b]);
    assert Includes(d[r[i]], l) && Includes(d[r[j]], m);
    assert l[a] in d[r[i]] && m[b] in d[r[j]];
  }

  function Accumulated(groups: seq<Group>): (d: seq<seq<Descriptor>>) {
    seq(|groups|, i requires 0 <= i < |groups| => groups[i].descriptors)
  }

  // ----- reading the plan off the roots

  function PlanOf(g: seq<Group>, r: seq<nat>, k: nat): (plan: seq<(Id, Id)>)
    requires k <= |g| == |r| && forall i :: 0 <= i < |r| ==> r[i] < |g|
  {
    if k == 0 then []
    else PlanOf(g, r, k - 1) + if r[k - 1] != k - 1 then [(g[k - 1].id, g[r[k - 1]].id)] else []
  }

  ghost predicate PlanEntry(g: seq<Group>, r: seq<nat>, k: nat, e: (Id, Id))
    requires k <= |g| == |r| && forall i :: 0 <= i < |r| ==> r[i] < |g|
  {
    exists i :: 0 <= i < k && r[i] != i && e == (g[i].id, g[r[i]].id)
  }

  lemma {:induction false} PlanEntries(cs: seq<Candidate>, g: seq<Group>, r: seq<nat>, k: nat)
    requires Ordered(cs, g) && RootTable(g, r) && k <= |g|
    ensures forall e :: e in PlanOf(g, r, k) ==> PlanEntry(g, r, k, e)
    ensures forall i, j :: 0 <= i < j < |PlanOf(g, r, k)| ==> PlanOf(g, r, k)[i].0 < PlanOf(g, r, k)[j].0
  {
    if k > 0 {
      PlanEntries(cs, g, r, k - 1);
      var front := PlanOf(g, r, k - 1);
      forall e | e in front ensures PlanEntry(g, r, k, e) && e.0 < g[k - 1].id {
        assert PlanEntry(g, r, k - 1, e);
        var i :| 0 <= i < k - 1 && r[i] != i && e == (g[i].id, g[r[i]].id);
      }
    }
  }

  lemma {:induction false} PlanTarget(cs: seq<Candidate>, g: seq<Group>, r: seq<nat>, k: nat, i: nat)
    requires Ordered(cs, g) && RootTable(g, r) && k <= |g| && i < |g|
    ensures Target(PlanOf(g, r, k), g[i].id) == if i < k then g[r[i]].id else g[i].id
  {
    if k > 0 {
      PlanTarget(cs, g, r, k - 1, i);
      var front, plan := PlanOf(g, r, k - 1), PlanOf(g, r, k);
      assert g[i].id == g[k - 1].id <==> i == k - 1;
      if r[k - 1] != k - 1 {
        assert plan[..|plan| - 1] == front;
      } else {
        assert plan == front;
      }
    }
  }

  lemma GroupOf(cs: seq<Candidate>, g: seq<Group>, id: Id) returns (i: nat)
    requires Ordered(cs, g) && id in Ids(cs)
    ensures i < |g| && g[i].id == id && (Labelled(cs, id) <==> g[i].labelText.Some?)
  {
    assert HasId(g, id);
    i :| 0 <= i < |g| && g[i].id == id;
    assert FiledGroup(cs, g[i]);
  }

  lemma PlanClasses(cs: seq<Candidate>, g: seq<Group>, r: seq<nat>, i: nat)
    requires Ordered(cs, g) && RootTable(g, r) && i < |g|
    ensures Members(g, r, r[i]) <= ClassOf(cs, PlanOf(g, r, |g|), g[i].id)
  {
    PlanTarget(cs, g, r, |g|, i);
    forall j | 0 <= j < |g| && r[j] == r[i] ensures g[j].id in ClassOf(cs, PlanOf(g, r, |g|), g[i].id) {
      PlanTarget(cs, g, r, |g|, j);
      assert FiledGroup(cs, g[j]);
    }
  }

  lemma PlanSound(cs: seq<Candidate>, g: seq<Group>, r: seq<nat>, x: Id)
    requires Ordered(cs, g) && RootTable(g, r) && Linked(cs, g, r) && x in Ids(cs)
    ensures var plan := PlanOf(g, r, |g|);
            SoundAt(cs, plan, x) && (!Labelled(cs, Target(plan, x)) ==> Target(plan, x) <= x)
  {
    var i := GroupOf(cs, g, x);
    PlanTarget(cs, g, r, |g|, i);
    PlanClasses(cs, g, r, i);
    assert LinkedAt(cs, g, r, i);
    ConnectedWiden(cs, Members(g, r, r[i]), ClassOf(cs, PlanOf(g, r, |g|), x), x, g[r[i]].id);
    assert FiledGroup(cs, g[r[i]]);
  }

  lemma PlanMaximal(cs: seq<Candidate>, g: seq<Group>, r: seq<nat>, x: Id, y: Id)
    requires Ordered(cs, g) && RootTable(g, r) && SettledBefore(cs, g, r, |g|, |g|) && x in Ids(cs) && y in Ids(cs)
    ensures MaximalAt(cs, PlanOf(g, r, |g|), x, y)
  {
    if Near(cs, x, y) {
      var i := GroupOf(cs, g, x);
      var j := GroupOf(cs, g, y);
      PlanTarget(cs, g, r, |g|, i);
      PlanTarget(cs, g, r, |g|, j);
      NearSymmetric(cs, x, y);
      assert if i < j then Settled(cs, g, r, i, j) else i == j || Settled(cs, g, r, j, i);
      assert FiledGroup(cs, g[r[i]]) && FiledGroup(cs, g[r[j]]);
    }
  }

  lemma PlanGoodEntry(cs: seq<Candidate>, g: seq<Group>, r: seq<nat>, e: (Id, Id))
    requires Ordered(cs, g) && RootTable(g, r) && e in PlanOf(g, r, |g|)
    ensures GoodEntry(cs, PlanOf(g, r, |g|), e)
  {
    var plan := PlanOf(g, r, |g|);
    PlanEntries(cs, g, r, |g|);
    assert PlanEntry(g, r, |g|, e);
    var i :| 0 <= i < |g| && r[i] != i && e == (g[i].id, g[r[i]].id);
    assert FiledGroup(cs, g[i]) && FiledGroup(cs, g[r[i]]);
    forall l | 0 <= l < |plan| ensures e.1 != plan[l].0 {
      assert PlanEntry(g, r, |g|, plan[l]);
      var j :| 0 <= j < |g| && r[j] != j && plan[l] == (g[j].id, g[r[j]].id);
      assert r[i] != j;
    }
  }

  lemma PlanIsMergePlan(cs: seq<Candidate>, g: seq<Group>, r: seq<nat>)
    requires Ordered(cs, g) && RootTable(g, r) && Linked(cs, g, r) && SettledBefore(cs, g, r, |g|, |g|)
    ensures IsMergePlan(cs, PlanOf(g, r, |g|))
  {
    var plan := PlanOf(g, r, |g|);
    PlanEntries(cs, g, r, |g|);
    forall k | 0 <= k < |plan| ensures GoodEntry(cs, plan, plan[k]) {
      PlanGoodEntry(cs, g, r, plan[k]);
    }
    forall x | x in Ids(cs) ensures SoundAt(cs, plan, x) && (!Labelled(cs, Target(plan, x)) ==> Target(plan, x) <= x) {
      PlanSound(cs, g, r, x);
    }
    forall x, y | x in Ids(cs) && y in Ids(cs) ensures MaximalAt(cs, plan, x, y) {
      PlanMaximal(cs, g, r, x, y);
    }
  }

  // ----- the algorithm

  /** What holds between iterations: only descriptor lists and roots have changed. */
  ghost predicate Looping(cs: seq<Candidate>, g: seq<Group>, groups: seq<Group>, r: seq<nat>) {
    && Ordered(cs, g) && |groups| == |g|
    && (forall i :: 0 <= i < |g| ==> groups[i].id == g[i].id && groups[i].labelText == g[i].labelText)
    && Merged(cs, g, r, Accumulated(groups))
  }

  lemma CloseSetsSymmetric(l: seq<Descriptor>, r: seq<Descriptor>)
    requires CloseSets(l, r)
    ensures CloseSets(r, l)
  {
    var i, j :| 0 <= i < |l| && 0 <= j < |r| && Close(l[i], r[j]);
    CloseSymmetric(l[i], r[j]);
  }

  lemma FarApart(l: seq<Descriptor>, r: seq<Descriptor>)
    requires forall i, j :: 0 <= i < |l| && 0 <= j < |r| && DescriptorDistance(l[i], r[j]).Some? ==>
      DescriptorDistance(l[i], r[j]).value > MERGE_THRESHOLD
    ensures !CloseSets(l, r)
  {
  }

  lemma PairIsSettled(cs: seq<Candidate>, g: seq<Group>, groups: seq<Group>, r: seq<nat>, left: nat, right: nat)
    requires Looping(cs, g, groups, r) && left < right < |g|
    requires var a, b := r[left], r[right];
             a == b || (g[a].labelText.Some? && g[b].labelText.Some?)
               || !CloseSets(groups[a].descriptors, groups[b].descriptors)
    ensures Settled(cs, g, r, left, right)
  {
    if Near(cs, g[left].id, g[right].id) {
      NearReachesRoots(cs, g, r, Accumulated(groups), left, right);
    }
  }

  lemma OneMoreSettled(cs: seq<Candidate>, g: seq<Group>, r: seq<nat>, left: nat, right: nat)
    requires |r| == |g| && (forall i :: 0 <= i < |g| ==> r[i] < |g|) && left < right < |g|
    requires SettledBefore(cs, g, r, left, right) && Settled(cs, g, r, left, right)
    ensures SettledBefore(cs, g, r, left, right + 1)
  {
  }

  lemma PairSettled(cs: seq<Candidate>, g: seq<Group>, groups: seq<Group>, r: seq<nat>, left: nat, right: nat)
    requires Looping(cs, g, groups, r) && left < right < |g|
    requires SettledBefore(cs, g, r, left, right)
    requires var a, b := r[left], r[right];
             a == b || (g[a].labelText.Some? && g[b].labelText.Some?)
               || !CloseSets(groups[a].descriptors, groups[b].descriptors)
    ensures SettledBefore(cs, g, r, left, right + 1)
  {
    PairIsSettled(cs, g, groups, r, left, right);
    OneMoreSettled(cs, g, r, left, right);
  }

  function Absorb(groups: seq<Group>, root: nat, child: nat): seq<Group>
    requires root < |groups| && child < |groups|
  {
    groups[root := groups[root].(descriptors := groups[root].descriptors + groups[child].descriptors)]
  }

  lemma LinkKeepsLooping(cs: seq<Candidate>, g: seq<Group>, groups: seq<Group>, r: seq<nat>, root: nat, child: nat)
    requires Looping(cs, g, groups, r) && Joinable(g, r, root, child)
    requires CloseSets(groups[child].descriptors, groups[root].descriptors)
    ensures Looping(cs, g, Absorb(groups, root, child), Relinked(r, child, root))
  {
    var d := Accumulated(groups);
    MergedAfterLink(cs, g, r, d, root, child);
    assert Accumulated(Absorb(groups, root, child)) == d[root := d[root] + d[child]];
  }

  lemma PairLinked(cs: seq<Candidate>, g: seq<Group>, r: seq<nat>, left: nat, right: nat, root: nat, child: nat)
    requires left < right < |g| && Joinable(g, r, root, child)
    requires SettledBefore(cs, g, r, left, right)
    requires (root == r[left] && child == r[right]) || (root == r[right] && child == r[left])
    ensures SettledBefore(cs, g, Relinked(r, child, root), left, right + 1)
  {
    SettledStays(cs, g, r, root, child, left, right);
    assert Settled(cs, g, Relinked(r, child, root), left, right);
    OneMoreSettled(cs, g, Relinked(r, child, root), left, right);
  }

  /** The winner of a join is the labelled root, else the root with the smaller id. */
  lemma WinnerIsJoinable(cs: seq<Candidate>, g: seq<Group>, groups: seq<Group>, r: seq<nat>, a: nat, b: nat)
    requires Looping(cs, g, groups, r) && a < |g| && b < |g| && a != b && r[a] == a && r[b] == b
    requires groups[a].labelText.None? || groups[b].labelText.None?
    ensures if groups[a].labelText.None? && (groups[b].labelText.Some? || groups[a].id > groups[b].id)
            then Joinable(g, r, b, a) else Joinable(g, r, a, b)
  {
    assert a < b ==> g[a].id < g[b].id;
    assert b < a ==> g[b].id < g[a].id;
  }

  lemma JoinableMayLink(g: seq<Group>, p: seq<nat>, root: nat, child: nat)
    requires Forest(p, LabelFlags(g)) && Joinable(g, Roots(p, LabelFlags(g)), root, child)
    ensures MayLink(p, LabelFlags(g), child, root)
  {
  }

  /** The parent vector is a forest whose roots are `r`. */
  ghost predicate RootedAt(p: seq<nat>, g: seq<Group>, r: seq<nat>) {
    Forest(p, LabelFlags(g)) && Roots(p, LabelFlags(g)) == r
  }

  method FindRoot(parent: array<nat>, start: nat, ghost g: seq<Group>, ghost r: seq<nat>) returns (root: nat)
    requires RootedAt(parent[..], g, r) && start < |g|
    modifies parent
    ensures RootedAt(parent[..], g, r) && |r| == |g| == parent.Length
      && root < |g| && root == r[start] && r[root] == root
  {
    root := Find(parent, start, LabelFlags(g));
  }

  /** The later root is hung below the winner, which takes over its descriptors. */
  method JoinRoots(parent: array<nat>, groups: seq<Group>, root: nat, child: nat, ghost g: seq<Group>,
      ghost r: seq<nat>)
    returns (merged: seq<Group>)
    requires RootedAt(parent[..], g, r) && |groups| == |g| && Joinable(g, r, root, child)
    modifies parent
    ensures RootedAt(parent[..], g, Relinked(r, child, root)) && merged == Absorb(groups, root, child)
  {
    ghost var before := parent[..];
    JoinableMayLink(g, before, root, child);
    LinkMovesRoots(before, LabelFlags(g), child, root);
    parent[child] := root;
    assert parent[..] == before[child := root];
    merged := Absorb(groups, root, child);
  }

  /** One step of the inner loop: compare the two current roots and join them when they are close. */
  method ComparePair(parent: array<nat>, groups: seq<Group>, left: nat, right: nat,
                     ghost cs: seq<Candidate>, ghost g: seq<Group>, ghost r: seq<nat>)
    returns (merged: seq<Group>, ghost r': seq<nat>)
    requires RootedAt(parent[..], g, r)
    requires Looping(cs, g, groups, r) && left < right < |g| && SettledBefore(cs, g, r, left, right)
    modifies parent
    ensures RootedAt(parent[..], g, r')
    ensures Looping(cs, g, merged, r') && SettledBefore(cs, g, r', left, right + 1)
  {
    merged, r' := groups, r;
    var leftRoot := FindRoot(parent, left, g, r);
    var rightRoot := FindRoot(parent, right, g, r);
    if leftRoot == rightRoot || (groups[leftRoot].labelText.Some? && groups[rightRoot].labelText.Some?) {
      PairSettled(cs, g, groups, r, left, right);
      return;
    }
    var distance := ClosestDescriptorDistance(groups[leftRoot].descriptors, groups[rightRoot].descriptors);
    if distance.None? || distance.value > MERGE_THRESHOLD {
      FarApart(groups[leftRoot].descriptors, groups[rightRoot].descriptors);
      PairSettled(cs, g, groups, r, left, right);
      return;
    }
    CloseSetsSymmetric(groups[leftRoot].descriptors, groups[rightRoot].descriptors);
    WinnerIsJoinable(cs, g, groups, r, leftRoot, rightRoot);
    var root, child := leftRoot, rightRoot;
    if groups[leftRoot].labelText.None?
      && (groups[rightRoot].labelText.Some? || groups[leftRoot].id > groups[rightRoot].id) {
      root, child := rightRoot, leftRoot;
    }
    LinkKeepsLooping(cs, g, groups, r, root, child);
    PairLinked(cs, g, r, left, right, root, child);
    merged := JoinRoots(parent, groups, root, child, g, r);
    r' := Relinked(r, child, root);
  }

  /** The doubly nested loop over all pairs. */
  method MergeGroups(parent: array<nat>, start: seq<Group>, ghost cs: seq<Candidate>)
      returns (groups: seq<Group>, ghost r: seq<nat>)
    requires Ordered(cs, start) && parent.Length == |start| && forall i :: 0 <= i < |start| ==> parent[i] == i
    modifies parent
    ensures RootedAt(parent[..], start, r)
    ensures Looping(cs, start, groups, r) && SettledBefore(cs, start, r, |start|, |start|)
  {
    groups := start;
    r := Roots(parent[..], LabelFlags(start));
    MergedInitially(cs, start, r, Accumulated(groups));
    for left := 0 to |start|
      invariant RootedAt(parent[..], start, r)
      invariant Looping(cs, start, groups, r) && SettledBefore(cs, start, r, left, left + 1)
    {
      for right := left + 1 to |start|
        invariant RootedAt(parent[..], start, r)
        invariant Looping(cs, start, groups, r) && SettledBefore(cs, start, r, left, right)
      {
        groups, r := ComparePair(parent, groups, left, right, cs, start, r);
      }
    }
  }

  lemma PlanStep(g: seq<Group>, r: seq<nat>, k: nat)
    requires k < |g| == |r| && forall i :: 0 <= i < |r| ==> r[i] < |g|
    ensures PlanOf(g, r, k + 1) == if r[k] != k then PlanOf(g, r, k) + [(g[k].id, g[r[k]].id)] else PlanOf(g, r, k)
  {
  }

  method ReadPlan(parent: array<nat>, groups: seq<Group>, ghost g: seq<Group>, ghost r: seq<nat>)
      returns (plan: seq<(Id, Id)>)
    requires RootedAt(parent[..], g, r) && |r| == |g| && forall i :: 0 <= i < |r| ==> r[i] < |g|
    requires |groups| == |g| && forall i :: 0 <= i < |g| ==> groups[i].id == g[i].id
    modifies parent
    ensures plan == PlanOf(g, r, |g|)
  {
    plan := [];
    for index := 0 to |groups|
      invariant RootedAt(parent[..], g, r) && plan == PlanOf(g, r, index)
    {
      var root := FindRoot(parent, index, g, r);
      PlanStep(g, r, index);
      if root != index {
        plan := plan + [(groups[index].id, groups[root].id)];
      }
    }
  }

  lemma PlanIsSorted(cs: seq<Candidate>, plan: seq<(Id, Id)>)
    requires IsMergePlan(cs, plan)
    ensures SortByKey(plan, (e: (Id, Id)) => e.0) == plan
  {
    SortFixed(plan, (e: (Id, Id)) => e.0);
  }

  method ClusterMergePlan(cs: seq<Candidate>) returns (plan: seq<(Id, Id)>)
    ensures IsMergePlan(cs, plan)
  {
    var gathered := GroupCandidates(cs);
    var sorted := SortByKey(gathered, (x: Group) => x.id);
    SortedGroups(cs, gathered, sorted);
    var parent := new nat[|sorted|](i => i);
    var groups, r := MergeGroups(parent, sorted, cs);
    plan := ReadPlan(parent, groups, sorted, r);
    PlanIsMergePlan(cs, sorted, r);
    PlanIsSorted(cs, plan);
    plan := SortByKey(plan, (e: (Id, Id)) => e.0);
  }

  // ----- what a merge plan means

  /** A labelled group keeps its place, so a class holds at most one label, at its target. */
  lemma LabelsStayApart(cs: seq<Candidate>, plan: seq<(Id, Id)>, x: Id, y: Id)
    requires IsMergePlan(cs, plan) && x in Ids(cs) && y in Ids(cs) && Labelled(cs, x)
    ensures Target(plan, x) == x
    ensures Labelled(cs, y) && Target(plan, x) == Target(plan, y) ==> x == y
  {
    assert forall k :: 0 <= k < |plan| ==> GoodEntry(cs, plan, plan[k]);
    TargetCases(plan, x);
    TargetCases(plan, y);
  }

  lemma {:induction false} TargetCases(plan: seq<(Id, Id)>, x: Id)
    ensures Target(plan, x) == x || exists k :: 0 <= k < |plan| && plan[k] == (x, Target(plan, x))
  {
    if plan != [] && plan[|plan| - 1].0 != x {
      TargetCases(plan[..|plan| - 1], x);
    }
  }

  lemma {:induction false} SameTargetAlongPath(cs: seq<Candidate>, plan: seq<(Id, Id)>, path: seq<Id>)
    requires IsMergePlan(cs, plan) && IsPath(cs, Ids(cs), path) && |path| > 0
    requires forall x :: x in Ids(cs) ==> !Labelled(cs, x)
    ensures Target(plan, path[0]) == Target(plan, path[|path| - 1])
  {
    if |path| > 1 {
      var rest := path[1..];
      assert IsPath(cs, Ids(cs), rest) by {
        assert forall k :: 0 < k < |rest| ==> rest[k - 1] == path[k] && rest[k] == path[k + 1];
      }
      SameTargetAlongPath(cs, plan, rest);
      assert path[0] in Ids(cs) && path[1] in Ids(cs) && Near(cs, path[0], path[1]);
      assert MaximalAt(cs, plan, path[0], path[1]);
      TargetInIds(cs, plan, path[0]);
    }
  }

  lemma TargetInIds(cs: seq<Candidate>, plan: seq<(Id, Id)>, x: Id)
    requires IsMergePlan(cs, plan) && x in Ids(cs)
    ensures Target(plan, x) in Ids(cs)
  {
    TargetCases(plan, x);
  }

  /** Without labels the classes are exactly the connected components of the closeness graph. */
  lemma ClassesAreComponents(cs: seq<Candidate>, plan: seq<(Id, Id)>, x: Id, y: Id)
    requires IsMergePlan(cs, plan) && x in Ids(cs) && y in Ids(cs)
    requires forall z :: z in Ids(cs) ==> !Labelled(cs, z)
    ensures Target(plan, x) == Target(plan, y) <==> Connected(cs, Ids(cs), x, y)
  {
    if Connected(cs, Ids(cs), x, y) {
      var path :| IsPath(cs, Ids(cs), path) && |path| > 0 && path[0] == x && path[|path| - 1] == y;
      SameTargetAlongPath(cs, plan, path);
    }
    if Target(plan, x) == Target(plan, y) {
      assert SoundAt(cs, plan, x) && SoundAt(cs, plan, y);
      ConnectedWiden(cs, ClassOf(cs, plan, x), Ids(cs), x, Target(plan, x));
      ConnectedWiden(cs, ClassOf(cs, plan, y), Ids(cs), y, Target(plan, y));
      ConnectedSymmetric(cs, Ids(cs), y, Target(plan, y));
      ConnectedJoin(cs, Ids(cs), x, Target(plan, x), y);
    }
  }

  /** ... and each class collapses onto its smallest id, so the targets are determined. */
  lemma TargetsAreDetermined(cs: seq<Candidate>, p: seq<(Id, Id)>, q: seq<(Id, Id)>, x: Id)
    requires IsMergePlan(cs, p) && IsMergePlan(cs, q) && x in Ids(cs)
    requires forall z :: z in Ids(cs) ==> !Labelled(cs, z)
    ensures Target(p, x) == Target(q, x)
  {
    var a, b := Target(p, x), Target(q, x);
    TargetInIds(cs, p, x);
    TargetInIds(cs, q, x);
    TargetOfTarget(cs, p, x);
    TargetOfTarget(cs, q, x);
    ClassesAreComponents(cs, p, x, a);
    ClassesAreComponents(cs, q, x, a);
    ClassesAreComponents(cs, q, x, b);
    ClassesAreComponents(cs, p, x, b);
    assert Target(q, a) <= a && Target(p, b) <= b;
  }

  lemma TargetOfTarget(cs: seq<Candidate>, plan: seq<(Id, Id)>, x: Id)
    requires IsMergePlan(cs, plan) && x in Ids(cs)
    ensures Target(plan, Target(plan, x)) == Target(plan, x)
  {
    TargetCases(plan, x);
    TargetCases(plan, Target(plan, x));
  }
}
