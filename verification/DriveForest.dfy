/** The tree of drive entries: ancestor chains, subtree queries and the requests
    that change one parent link (src/drive.rs). */
module DriveForest {
  import opened Common

  datatype Kind = File | Folder
  /** A name comes with what `lower` makes of it; nothing is assumed of the folding. */
  datatype Name = Name(text: string, folded: string)
  datatype Entry = Entry(owner: Id, parent: Option<Id>, kind: Kind, name: Name, trashed: bool, system: bool,
    stored: Option<Id>)
  type Entries = map<Id, Entry>

  datatype DriveError = NotFound | Conflict | BadRequest | Protected

  // ----- climbing parent links

  ghost predicate Up(es: Entries, p: seq<Id>, i: int) {
    0 <= i < |p| - 1 && p[i] in es && es[p[i]].parent == Some(p[i + 1])
  }

  /** Each element's parent is the next element. */
  ghost predicate Climb(es: Entries, p: seq<Id>) {
    && |p| > 0
    && (forall i :: 0 <= i < |p| ==> p[i] in es)
    && (forall i {:trigger Up(es, p, i)} :: 0 <= i < |p| - 1 ==> Up(es, p, i))
  }

  lemma StepUp(es: Entries, p: seq<Id>, k: nat)
    requires Climb(es, p) && k < |p|
    ensures k + 1 < |p| ==> es[p[k]].parent == Some(p[k + 1])
  {
    assert k + 1 < |p| ==> Up(es, p, k);
  }

  lemma ClimbTail(es: Entries, p: seq<Id>, k: nat)
    requires Climb(es, p) && k < |p|
    ensures Climb(es, p[k..])
  {
    var t := p[k..];
    forall i | 0 <= i < |t| - 1 ensures Up(es, t, i) {
      StepUp(es, p, k + i);
    }
  }

  lemma ClimbPrefix(es: Entries, p: seq<Id>, k: nat)
    requires Climb(es, p) && 0 < k <= |p|
    ensures Climb(es, p[..k])
  {
    forall i | 0 <= i < k - 1 ensures Up(es, p[..k], i) {
      StepUp(es, p, i);
    }
  }

  /** A climb that ends at a top-level entry. */
  ghost predicate Chain(es: Entries, c: seq<Id>) {
    Climb(es, c) && es[c[|c| - 1]].parent == None
  }

  ghost predicate ParentOk(es: Entries, e: Id)
    requires e in es
  {
    es[e].parent.Some? ==>
      var p := es[e].parent.value; p in es && es[p].kind.Folder? && es[p].owner == es[e].owner
  }

  ghost predicate ParentsOk(es: Entries) {
    forall e {:trigger ParentOk(es, e)} :: e in es ==> ParentOk(es, e)
  }

  ghost predicate HasChain(es: Entries, e: Id) {
    exists c :: Chain(es, c) && c[0] == e
  }

  /** Parents are folders of the same owner and every entry climbs to a top-level one: no cycles. */
  ghost predicate Forest(es: Entries) {
    ParentsOk(es) && forall e {:trigger HasChain(es, e)} :: e in es ==> HasChain(es, e)
  }

  ghost function ChainOf(es: Entries, e: Id): (c: seq<Id>)
    requires Forest(es) && e in es
    ensures Chain(es, c) && c[0] == e
  {
    assert HasChain(es, e);
    var c :| Chain(es, c) && c[0] == e;
    c
  }

  lemma {:induction false} ChainUnique(es: Entries, c: seq<Id>, d: seq<Id>)
    requires Chain(es, c) && Chain(es, d) && c[0] == d[0]
    ensures c == d
  {
    StepUp(es, c, 0);
    StepUp(es, d, 0);
    if |c| > 1 && |d| > 1 {
      ChainTail(es, c, 1);
      ChainTail(es, d, 1);
      ChainUnique(es, c[1..], d[1..]);
      assert c == [c[0]] + c[1..] && d == [d[0]] + d[1..];
    }
  }

  lemma ChainTail(es: Entries, c: seq<Id>, k: nat)
    requires Chain(es, c) && k < |c|
    ensures Chain(es, c[k..])
  {
    ClimbTail(es, c, k);
  }

  lemma ChainDistinct(es: Entries, c: seq<Id>, i: nat, j: nat)
    requires Chain(es, c) && i < j < |c|
    ensures c[i] != c[j]
  {
    if c[i] == c[j] {
      ChainTail(es, c, i);
      ChainTail(es, c, j);
      ChainUnique(es, c[i..], c[j..]);
    }
  }

  lemma ChainOfParent(es: Entries, e: Id)
    requires Forest(es) && e in es
    ensures ParentOk(es, e)
    ensures es[e].parent.None? ==> ChainOf(es, e) == [e]
    ensures es[e].parent.Some? ==> ChainOf(es, e) == [e] + ChainOf(es, es[e].parent.value)
  {
    assert ParentOk(es, e);
    var c := ChainOf(es, e);
    StepUp(es, c, 0);
    if es[e].parent.Some? {
      ChainTail(es, c, 1);
      ChainUnique(es, c[1..], ChainOf(es, es[e].parent.value));
      assert c == [e] + c[1..];
    }
  }

  lemma {:induction false} ClimbFollows(es: Entries, p: seq<Id>, c: seq<Id>)
    requires Climb(es, p) && Chain(es, c) && c[0] == p[0]
    ensures |p| <= |c| && forall i :: 0 <= i < |p| ==> p[i] == c[i]
  {
    if |p| > 1 {
      StepUp(es, p, 0);
      StepUp(es, c, 0);
      ClimbTail(es, p, 1);
      ChainTail(es, c, 1);
      ClimbFollows(es, p[1..], c[1..]);
      assert forall i :: 1 <= i < |p| ==> p[i] == p[1..][i - 1] && c[i] == c[1..][i - 1];
    }
  }

  /** A climb from an entry is a prefix of its chain. */
  lemma ClimbIsPrefix(es: Entries, p: seq<Id>)
    requires Forest(es) && Climb(es, p)
    ensures |p| <= |ChainOf(es, p[0])| && forall i :: 0 <= i < |p| ==> p[i] == ChainOf(es, p[0])[i]
  {
    ClimbFollows(es, p, ChainOf(es, p[0]));
  }

  lemma ChainOwner(es: Entries, c: seq<Id>, k: nat)
    requires ParentsOk(es) && Climb(es, c) && k < |c|
    ensures es[c[k]].owner == es[c[0]].owner && (k > 0 ==> es[c[k]].kind.Folder?)
  {
    if k > 0 {
      ChainOwner(es, c, k - 1);
      StepUp(es, c, k - 1);
      assert ParentOk(es, c[k - 1]);
    }
  }

  // ----- being active, being below

  /** Owned, of the right kind, and neither it nor any ancestor is trashed. */
  ghost predicate Active(es: Entries, owner: Id, id: Id, requireFolder: bool)
    requires Forest(es)
  {
    && id in es && es[id].owner == owner && (requireFolder ==> es[id].kind.Folder?)
    && Clean(es, id)
  }

  ghost predicate Clean(es: Entries, id: Id)
    requires Forest(es) && id in es
  {
    forall x :: x in ChainOf(es, id) ==> !es[x].trashed
  }

  ghost predicate DownPath(es: Entries, top: Id, x: Id, live: bool, p: seq<Id>) {
    && Climb(es, p) && p[0] == x && p[|p| - 1] == top
    && (live ==> forall i :: 0 <= i < |p| - 1 ==> !es[p[i]].trashed)
  }

  /** `x` is `top` or lies under it; with `live`, through untrashed entries only (top itself excepted). */
  ghost predicate Below(es: Entries, top: Id, x: Id, live: bool) {
    exists p :: DownPath(es, top, x, live, p)
  }

  lemma BelowSelf(es: Entries, top: Id, live: bool)
    requires top in es
    ensures Below(es, top, top, live)
  {
    assert DownPath(es, top, top, live, [top]);
  }

  lemma BelowChild(es: Entries, top: Id, x: Id, child: Id, live: bool)
    requires Below(es, top, x, live) && child in es && es[child].parent == Some(x) && (live ==> !es[child].trashed)
    ensures Below(es, top, child, live)
  {
    var p :| DownPath(es, top, x, live, p);
    var q := [child] + p;
    forall i | 0 <= i < |q| - 1 ensures Up(es, q, i) {
      if i > 0 {
        StepUp(es, p, i - 1);
      }
    }
    assert DownPath(es, top, child, live, q);
  }

  lemma BelowParent(es: Entries, top: Id, x: Id, live: bool)
    requires Below(es, top, x, live) && x != top
    ensures x in es && es[x].parent.Some? && Below(es, top, es[x].parent.value, live) && (live ==> !es[x].trashed)
  {
    var p :| DownPath(es, top, x, live, p);
    StepUp(es, p, 0);
    ClimbTail(es, p, 1);
    assert DownPath(es, top, p[1], live, p[1..]);
  }

  lemma BelowOnChain(es: Entries, top: Id, x: Id)
    requires Forest(es) && x in es
    ensures Below(es, top, x, false) <==> top in ChainOf(es, x)
  {
    var c := ChainOf(es, x);
    if top in c {
      var k :| 0 <= k < |c| && c[k] == top;
      ClimbPrefix(es, c, k + 1);
      assert DownPath(es, top, x, false, c[..k + 1]);
    }
    if Below(es, top, x, false) {
      var p :| DownPath(es, top, x, false, p);
      ClimbIsPrefix(es, p);
      assert c[|p| - 1] == top;
    }
  }

  /** A set that holds the top and is closed under (live) children holds everything below. */
  lemma {:induction false} BelowInClosed(es: Entries, top: Id, live: bool, s: set<Id>, p: seq<Id>)
    requires DownPath(es, top, if |p| > 0 then p[0] else top, live, p)
    requires top in s
    requires forall x :: x in es && es[x].parent.Some? && es[x].parent.value in s && (live ==> !es[x].trashed) ==>
      x in s
    ensures p[0] in s
  {
    if |p| > 1 {
      StepUp(es, p, 0);
      ClimbTail(es, p, 1);
      BelowInClosed(es, top, live, s, p[1..]);
    }
  }

  /** The recursive ancestor query. */
  method EnsureActive(es: Entries, owner: Id, id: Id, requireFolder: bool) returns (ok: bool)
    requires Forest(es)
    ensures ok <==> Active(es, owner, id, requireFolder)
  {
    if id !in es || es[id].owner != owner || (requireFolder && !es[id].kind.Folder?) {
      return false;
    }
    ghost var c := ChainOf(es, id);
    ghost var k := 0;
    var at := id;
    while true
      invariant 0 <= k < |c| && at == c[k]
      invariant forall i :: 0 <= i < k ==> !es[c[i]].trashed
      decreases |c| - k
    {
      if es[at].trashed {
        assert c[k] in c;
        return false;
      }
      StepUp(es, c, k);
      if es[at].parent.None? {
        return true;
      }
      at, k := es[at].parent.value, k + 1;
    }
  }

  // ----- listing a subtree by depth

  lemma MinimumExists(s: set<Id>) returns (m: Id)
    requires s != {}
    ensures m in s && forall y :: y in s ==> m <= y
  {
    var x :| x in s;
    m := x;
    var rest := s - {x};
    if rest != {} {
      var n := MinimumExists(rest);
      m := if x <= n then x else n;
    }
    forall y | y in s ensures m <= y {
      assert y == x || y in rest;
    }
  }

  lemma MinimumIsThere(s: set<Id>)
    requires s != {}
    ensures exists x :: x in s && forall y :: y in s ==> x <= y
  {
    var m := MinimumExists(s);
  }

  function Minimum(s: set<Id>): (x: Id)
    requires s != {}
    ensures x in s && forall y :: y in s ==> x <= y
  {
    MinimumIsThere(s);
    var x :| x in s && forall y :: y in s ==> x <= y;
    x
  }

  /** The members of a set in ascending order. */
  function Ascending(s: set<Id>): (r: seq<Id>)
    ensures forall x :: x in r <==> x in s
    ensures forall i, j :: 0 <= i < j < |r| ==> r[i] < r[j]
  {
    if s == {} then []
    else
      var x := Minimum(s);
      var rest := Ascending(s - {x});
      assert forall i :: 0 <= i < |rest| ==> rest[i] in s - {x} && x < rest[i];
      [x] + rest
  }

  predicate ChildOf(es: Entries, x: Id, parents: set<Id>, owner: Id, live: bool) {
    x in es && es[x].parent.Some? && es[x].parent.value in parents && es[x].owner == owner && (live ==> !es[x].trashed)
  }

  /** No duplicates, and a parent stands before its children. */
  ghost predicate TopDown(es: Entries, rows: seq<Id>) {
    && (forall i, j :: 0 <= i < j < |rows| ==> rows[i] != rows[j])
    && (forall i, j :: 0 <= i < |rows| && 0 <= j < |rows| && rows[i] in es && es[rows[i]].parent == Some(rows[j]) ==>
      j < i)
  }

  lemma TopDownExtend(es: Entries, rows: seq<Id>, next: seq<Id>)
    requires TopDown(es, rows)
    requires forall i, j :: 0 <= i < j < |next| ==> next[i] != next[j]
    requires forall x :: x in next ==> x !in rows
    requires forall x :: x in next ==> x in es && es[x].parent.Some? && es[x].parent.value in rows
    requires forall x :: x in rows && x in es && es[x].parent.Some? ==> es[x].parent.value !in next
    ensures TopDown(es, rows + next)
  {
    var all := rows + next;
    assert forall k :: |rows| <= k < |all| ==> all[k] in next;
    forall i, j | 0 <= i < j < |all| ensures all[i] != all[j] {
      if i < |rows| <= j {
        assert all[j] in next;
      }
    }
    forall i, j | 0 <= i < |all| && 0 <= j < |all| && all[i] in es && es[all[i]].parent == Some(all[j]) ensures j < i {
      assert i < |rows| ==> all[i] in rows;
    }
  }

  /** The top's own parent is never below the top. */
  lemma AboveNotBelow(es: Entries, top: Id, y: Id, live: bool)
    requires Forest(es) && top in es && Below(es, top, y, live)
    ensures es[top].parent != Some(y)
  {
    if es[top].parent == Some(y) {
      var p :| DownPath(es, top, y, live, p);
      ClimbIsPrefix(es, p);
      var c := ChainOf(es, top);
      ChainOfParent(es, top);
      assert c[|p|] == top;
      ChainDistinct(es, c, 0, |p|);
    }
  }

  /** The parent of a row already listed is listed too (or it is the top's own parent, which is never below the top). */
  lemma ParentNotNew(es: Entries, top: Id, rows: seq<Id>, live: bool, x: Id, y: Id)
    requires Forest(es) && top in es && x in rows && y !in rows
    requires forall z :: z in rows ==> z in es && Below(es, top, z, live)
    requires ParentListed(es, top, rows, x) && Below(es, top, y, live)
    ensures es[x].parent != Some(y)
  {
    if x == top {
      AboveNotBelow(es, top, y, live);
    }
  }

  ghost predicate ListedSoFar(es: Entries, top: Id, live: bool, rows: seq<Id>) {
    && top in rows && TopDown(es, rows)
    && (forall x :: x in rows ==> x in es && Below(es, top, x, live))
    && (forall x {:trigger ParentListed(es, top, rows, x)} :: x in rows ==> ParentListed(es, top, rows, x))
  }

  ghost predicate ParentListed(es: Entries, top: Id, rows: seq<Id>, x: Id) {
    x == top || (x in es && es[x].parent.Some? && es[x].parent.value in rows)
  }

  lemma ListLevel(es: Entries, top: Id, live: bool, rows: seq<Id>, next: seq<Id>)
    requires Forest(es) && top in es && ListedSoFar(es, top, live, rows)
    requires forall i, j :: 0 <= i < j < |next| ==> next[i] != next[j]
    requires forall x :: x in next ==>
      x !in rows && x in es && es[x].parent.Some? && es[x].parent.value in rows && (live ==> !es[x].trashed)
    ensures ListedSoFar(es, top, live, rows + next)
  {
    forall x | x in next ensures Below(es, top, x, live) {
      BelowChild(es, top, es[x].parent.value, x, live);
    }
    forall x, y | x in rows && y in next ensures es[x].parent != Some(y) {
      assert ParentListed(es, top, rows, x);
      ParentNotNew(es, top, rows, live, x, y);
    }
    TopDownExtend(es, rows, next);
    forall x | x in rows + next ensures ParentListed(es, top, rows + next, x) {
      assert x in rows ==> ParentListed(es, top, rows, x);
    }
  }

  ghost predicate OpenChild(es: Entries, live: bool, rows: seq<Id>, frontier: set<Id>, x: Id) {
    x in es && es[x].parent.Some? && es[x].parent.value in rows
      && es[x].parent.value !in frontier && (live ==> !es[x].trashed)
  }

  /** The state of the walk: entries outside the frontier have all their children listed. */
  ghost predicate Listing(es: Entries, owner: Id, top: Id, live: bool, rows: seq<Id>, frontier: set<Id>,
      seen: set<Id>) {
    && ListedSoFar(es, top, live, rows) && frontier <= seen <= es.Keys
    && (forall x :: x in rows <==> x in seen)
    && (forall x :: x in seen ==> es[x].owner == owner)
    && (forall x :: OpenChild(es, live, rows, frontier, x) ==> x in seen)
  }

  lemma ListingStart(es: Entries, owner: Id, top: Id, live: bool)
    requires top in es && es[top].owner == owner && Forest(es)
    ensures Listing(es, owner, top, live, [top], {top}, {top})
  {
    BelowSelf(es, top, live);
    ChainOfParent(es, top);
  }

  lemma ListingStep(es: Entries, owner: Id, top: Id, live: bool, rows: seq<Id>, frontier: set<Id>, seen: set<Id>,
      level: set<Id>, next: seq<Id>)
    requires Forest(es) && top in es && Listing(es, owner, top, live, rows, frontier, seen)
    requires level == set x | x in es && ChildOf(es, x, frontier, owner, live) && x !in seen
    requires forall x :: x in next <==> x in level
    requires forall i, j :: 0 <= i < j < |next| ==> next[i] != next[j]
    ensures Listing(es, owner, top, live, rows + next, level, seen + level)
  {
    ListLevel(es, top, live, rows, next);
    forall x | OpenChild(es, live, rows + next, level, x) ensures x in seen + level {
      assert es[x].parent.value in seen;
      assert ParentOk(es, x);
      assert es[x].parent.value !in frontier ==> OpenChild(es, live, rows, frontier, x);
    }
  }

  lemma AllListed(es: Entries, owner: Id, top: Id, live: bool, rows: seq<Id>, seen: set<Id>)
    requires Listing(es, owner, top, live, rows, {}, seen)
    ensures forall x :: Below(es, top, x, live) ==> x in rows
  {
    assert forall x :: x in es && es[x].parent.Some? && es[x].parent.value in seen && (live ==> !es[x].trashed)
             ==> OpenChild(es, live, rows, {}, x);
    forall x | Below(es, top, x, live) ensures x in rows {
      var p :| DownPath(es, top, x, live, p);
      BelowInClosed(es, top, live, seen, p);
    }
  }

  /** The recursive subtree query, level by level: exactly the entries below `top`, each once, parents first. */
  method Subtree(es: Entries, owner: Id, top: Id, live: bool) returns (rows: seq<Id>)
    requires Forest(es)
    ensures top !in es || es[top].owner != owner ==> rows == []
    ensures top in es && es[top].owner == owner ==> ListedSoFar(es, top, live, rows)
    ensures top in es && es[top].owner == owner ==> forall x :: Below(es, top, x, live) ==> x in rows
  {
    if top !in es || es[top].owner != owner {
      return [];
    }
    ListingStart(es, owner, top, live);
    rows := [top];
    var frontier, seen := {top}, {top};
    while frontier != {}
      invariant Listing(es, owner, top, live, rows, frontier, seen)
      decreases es.Keys - seen, frontier
    {
      var level := set x | x in es && ChildOf(es, x, frontier, owner, live) && x !in seen;
      var next := Ascending(level);
      ListingStep(es, owner, top, live, rows, frontier, seen, level, next);
      rows, frontier, seen := rows + next, level, seen + level;
    }
    AllListed(es, owner, top, live, rows, seen);
  }

  // ----- changing one row

  function Reparent(es: Entries, id: Id, dest: Option<Id>): Entries
    requires id in es
  {
    es[id := es[id].(parent := dest)]
  }

  /** `dest` can take entries of `owner`: the top level, or one of the owner's folders. */
  ghost predicate Home(es: Entries, owner: Id, dest: Option<Id>) {
    dest.Some? ==> dest.value in es && es[dest.value].kind.Folder? && es[dest.value].owner == owner
  }

  ghost function ChainFrom(es: Entries, dest: Option<Id>): (c: seq<Id>)
    requires Forest(es) && (dest.Some? ==> dest.value in es)
  {
    if dest.Some? then ChainOf(es, dest.value) else []
  }

  /** Several entries hung under one destination. */
  function MoveAll(es: Entries, ids: set<Id>, dest: Option<Id>): Entries {
    map x | x in es :: if x in ids then es[x].(parent := dest) else es[x]
  }

  lemma OneMove(es: Entries, id: Id, dest: Option<Id>)
    requires id in es
    ensures MoveAll(es, {id}, dest) == Reparent(es, id, dest)
  {
  }

  /** Entries of one owner go to a home that lies below none of them. */
  ghost predicate MovesApart(es: Entries, owner: Id, ids: set<Id>, dest: Option<Id>)
    requires Forest(es)
  {
    && ids <= es.Keys && (forall x :: x in ids ==> es[x].owner == owner)
    && Home(es, owner, dest) && forall x :: x in ids ==> x !in ChainFrom(es, dest)
  }

  /** The first moved entry on a chain. */
  function FirstIn(c: seq<Id>, ids: set<Id>): (k: nat)
    ensures k <= |c| && (k < |c| ==> c[k] in ids) && forall i :: 0 <= i < k ==> c[i] !in ids
  {
    if c == [] || c[0] in ids then 0 else 1 + FirstIn(c[1..], ids)
  }

  /** After a move, a chain continues from the new parent once it reaches a moved entry. */
  ghost function MovedChain(es: Entries, ids: set<Id>, dest: Option<Id>, e: Id): (c: seq<Id>)
    requires Forest(es) && e in es && (dest.Some? ==> dest.value in es)
  {
    var c := ChainOf(es, e);
    var k := FirstIn(c, ids);
    if k < |c| then c[..k + 1] + ChainFrom(es, dest) else c
  }

  lemma ClimbSplice(es: Entries, p: seq<Id>, q: seq<Id>)
    requires Climb(es, p) && (q == [] || (Climb(es, q) && es[p[|p| - 1]].parent == Some(q[0])))
    ensures Climb(es, p + q)
  {
    var r := p + q;
    forall i | 0 <= i < |r| - 1 ensures Up(es, r, i) {
      if i < |p| {
        StepUp(es, p, i);
      } else {
        StepUp(es, q, i - |p|);
      }
    }
  }

  lemma ClimbElsewhere(es: Entries, p: seq<Id>, ids: set<Id>, dest: Option<Id>)
    requires Climb(es, p) && forall i :: 0 <= i < |p| - 1 ==> p[i] !in ids
    ensures Climb(MoveAll(es, ids, dest), p)
  {
    forall i | 0 <= i < |p| - 1 ensures Up(MoveAll(es, ids, dest), p, i) {
      StepUp(es, p, i);
    }
  }

  lemma MoveChain(es: Entries, owner: Id, ids: set<Id>, dest: Option<Id>, e: Id)
    requires Forest(es) && e in es && MovesApart(es, owner, ids, dest)
    ensures Chain(MoveAll(es, ids, dest), MovedChain(es, ids, dest, e)) && MovedChain(es, ids, dest, e)[0] == e
  {
    var c, es' := ChainOf(es, e), MoveAll(es, ids, dest);
    var k := FirstIn(c, ids);
    if k < |c| {
      var p, q := c[..k + 1], ChainFrom(es, dest);
      ClimbPrefix(es, c, k + 1);
      ClimbElsewhere(es, p, ids, dest);
      if dest.Some? {
        ClimbElsewhere(es, q, ids, dest);
      }
      ClimbSplice(es', p, q);
    } else {
      ClimbElsewhere(es, c, ids, dest);
    }
  }

  /** Moving entries under a folder that lies below none of them keeps the forest. */
  lemma MoveKeepsForest(es: Entries, owner: Id, ids: set<Id>, dest: Option<Id>)
    requires Forest(es) && MovesApart(es, owner, ids, dest)
    ensures Forest(MoveAll(es, ids, dest))
  {
    var es' := MoveAll(es, ids, dest);
    forall e | e in es' ensures ParentOk(es', e) && HasChain(es', e) {
      assert ParentOk(es, e);
      MoveChain(es, owner, ids, dest, e);
    }
  }

  lemma ChainAfterMove(es: Entries, owner: Id, ids: set<Id>, dest: Option<Id>, e: Id)
    requires Forest(es) && e in es && MovesApart(es, owner, ids, dest)
    ensures Forest(MoveAll(es, ids, dest)) && ChainOf(MoveAll(es, ids, dest), e) == MovedChain(es, ids, dest, e)
  {
    MoveKeepsForest(es, owner, ids, dest);
    MoveChain(es, owner, ids, dest, e);
    ChainUnique(MoveAll(es, ids, dest), ChainOf(MoveAll(es, ids, dest), e), MovedChain(es, ids, dest, e));
  }

  /** The cycle check skips trashed children, yet it misses nothing: an active destination has no trashed ancestor. */
  lemma NoCycleMissed(es: Entries, owner: Id, id: Id, dest: Id)
    requires Forest(es) && id in es && Active(es, owner, dest, true)
    ensures id in ChainOf(es, dest) <==> es[id].owner == owner && es[id].kind.Folder? && Below(es, id, dest, true)
  {
    var c := ChainOf(es, dest);
    if id in c {
      var k :| 0 <= k < |c| && c[k] == id;
      ChainOwner(es, c, k);
      ClimbPrefix(es, c, k + 1);
      assert DownPath(es, id, dest, true, c[..k + 1]);
    }
    if Below(es, id, dest, true) {
      var p :| DownPath(es, id, dest, true, p);
      ClimbIsPrefix(es, p);
      assert c[|p| - 1] == id;
    }
  }

  ghost predicate SameRow(es: Entries, es': Entries, e: Id) {
    e in es && e in es' && es'[e].parent == es[e].parent && es'[e].owner == es[e].owner && es'[e].kind == es[e].kind
  }

  lemma SameShapeAt(es: Entries, es': Entries, e: Id)
    requires Forest(es) && es.Keys == es'.Keys && e in es
    requires forall x {:trigger SameRow(es, es', x)} :: x in es ==> SameRow(es, es', x)
    ensures ParentOk(es', e) && Chain(es', ChainOf(es, e))
  {
    assert ParentOk(es, e) && SameRow(es, es', e);
    if es[e].parent.Some? {
      assert SameRow(es, es', es[e].parent.value);
    }
    var c := ChainOf(es, e);
    forall x | x in c ensures es'[x].parent == es[x].parent {
      assert SameRow(es, es', x);
    }
    SameClimb(es, es', c);
  }

  /** Rows that keep every parent, owner and kind keep every chain. */
  lemma SameShape(es: Entries, es': Entries)
    requires Forest(es) && es.Keys == es'.Keys
    requires forall e {:trigger SameRow(es, es', e)} :: e in es ==> SameRow(es, es', e)
    ensures Forest(es')
  {
    forall e | e in es' ensures ParentOk(es', e) && HasChain(es', e) {
      SameShapeAt(es, es', e);
    }
  }

  lemma SameChain(es: Entries, es': Entries, e: Id)
    requires Forest(es) && es.Keys == es'.Keys && e in es
    requires forall x {:trigger SameRow(es, es', x)} :: x in es ==> SameRow(es, es', x)
    ensures Forest(es') && ChainOf(es', e) == ChainOf(es, e)
  {
    SameShape(es, es');
    SameShapeAt(es, es', e);
    ChainUnique(es', ChainOf(es', e), ChainOf(es, e));
  }

  lemma SameClimb(es: Entries, es': Entries, c: seq<Id>)
    requires Climb(es, c) && forall x :: x in c ==> x in es' && es'[x].parent == es[x].parent
    ensures Climb(es', c)
  {
    forall i | 0 <= i < |c| - 1 ensures Up(es', c, i) {
      StepUp(es, c, i);
    }
  }

  /** A new row under a home extends the forest and leaves every other chain alone. */
  lemma InsertKeepsForest(es: Entries, id: Id, entry: Entry)
    requires Forest(es) && id !in es && Home(es, entry.owner, entry.parent)
    ensures Forest(es[id := entry])
  {
    var es' := es[id := entry];
    var fresh' := [id] + ChainFrom(es, entry.parent);
    assert Chain(es', fresh') by {
      if entry.parent.Some? {
        SameClimb(es, es', ChainOf(es, entry.parent.value));
      }
      ClimbSplice(es', [id], ChainFrom(es, entry.parent));
    }
    forall e | e in es' ensures ParentOk(es', e) && HasChain(es', e) {
      if e != id {
        assert ParentOk(es, e);
        SameClimb(es, es', ChainOf(es, e));
        assert Chain(es', ChainOf(es, e));
      }
    }
  }

  // ----- what the database itself enforces

  /** An untrashed row that holds this name among its siblings. */
  predicate Occupies(e: Entry, owner: Id, parent: Option<Id>, name: Name) {
    !e.trashed && e.owner == owner && e.parent == parent && e.name.folded == name.folded
  }

  /** The unique index on names would refuse the name to any row but `self`. */
  predicate Taken(es: Entries, owner: Id, parent: Option<Id>, name: Name, self: Option<Id>) {
    exists x :: x in es && Some(x) != self && Occupies(es[x], owner, parent, name)
  }

  ghost predicate Clash(es: Entries, x: Id, y: Id)
    requires x in es && y in es
  {
    x != y && !es[y].trashed && Occupies(es[x], es[y].owner, es[y].parent, es[y].name)
  }

  /** No two untrashed siblings share a folded name. */
  ghost predicate UniqueNames(es: Entries) {
    forall x, y {:trigger Clash(es, x, y)} :: x in es && y in es ==> !Clash(es, x, y)
  }

  lemma RowKeepsNames(es: Entries, id: Id, row: Entry)
    requires UniqueNames(es) && (row.trashed || !Taken(es, row.owner, row.parent, row.name, Some(id)))
    ensures UniqueNames(es[id := row])
  {
    var es' := es[id := row];
    forall x, y | x in es' && y in es' ensures !Clash(es', x, y) {
      if x != id && y != id {
        assert !Clash(es, x, y);
      }
    }
  }

  /** Conversely the index refuses nothing but what would break uniqueness. */
  lemma TakenBreaksNames(es: Entries, id: Id, row: Entry)
    requires !row.trashed && Taken(es, row.owner, row.parent, row.name, Some(id))
    ensures !UniqueNames(es[id := row])
  {
    var es' := es[id := row];
    var x :| x in es && Some(x) != Some(id) && Occupies(es[x], row.owner, row.parent, row.name);
    assert Clash(es', x, id);
  }

  lemma FewerKeepNames(es: Entries, es': Entries)
    requires UniqueNames(es) && forall x :: x in es' ==> x in es && es'[x] == es[x]
    ensures UniqueNames(es')
  {
    forall x, y | x in es' && y in es' ensures !Clash(es', x, y) {
      assert !Clash(es, x, y);
    }
  }

  /** The row trigger's first check: the parent is an untrashed folder of the same owner. */
  predicate OpenHome(es: Entries, owner: Id, parent: Option<Id>) {
    parent.Some? ==>
      parent.value in es && es[parent.value].kind.Folder?
      && es[parent.value].owner == owner && !es[parent.value].trashed
  }

  /** The row trigger: an open home which, for a folder, does not lie below the row. */
  ghost predicate GuardLets(es: Entries, owner: Id, id: Id, parent: Option<Id>)
    requires Forest(es)
  {
    OpenHome(es, owner, parent) && id !in ChainFrom(es, parent)
  }

  /** The trigger's ancestor query. */
  method ClosesCycle(es: Entries, id: Id, parent: Id) returns (found: bool)
    requires Forest(es) && parent in es
    ensures found <==> id in ChainOf(es, parent)
  {
    ghost var c := ChainOf(es, parent);
    ghost var k := 0;
    var at := parent;
    while at != id
      invariant 0 <= k < |c| && at == c[k]
      invariant forall i :: 0 <= i < k ==> c[i] != id
      decreases |c| - k
    {
      StepUp(es, c, k);
      if es[at].parent.None? {
        return false;
      }
      at, k := es[at].parent.value, k + 1;
    }
    assert c[k] in c;
    found := true;
  }

  /** The trigger looks for cycles only when a folder is written; a file is nobody's ancestor. */
  lemma FilesAboveNothing(es: Entries, id: Id, parent: Option<Id>)
    requires Forest(es) && id in es && es[id].kind.File? && OpenHome(es, es[id].owner, parent)
    ensures id !in ChainFrom(es, parent)
  {
    if parent.Some? && id in ChainOf(es, parent.value) {
      var c := ChainOf(es, parent.value);
      var k :| 0 <= k < |c| && c[k] == id;
      ChainOwner(es, c, k);
    }
  }

  method RowTrigger(es: Entries, owner: Id, id: Id, kind: Kind, parent: Option<Id>) returns (lets: bool)
    requires Forest(es) && (id in es ==> es[id].kind == kind && es[id].owner == owner)
    ensures lets <==> GuardLets(es, owner, id, parent)
  {
    if !OpenHome(es, owner, parent) {
      return false;
    }
    if parent.None? {
      return true;
    }
    if kind.Folder? {
      var cycle := ClosesCycle(es, id, parent.value);
      return !cycle;
    }
    if id in es {
      FilesAboveNothing(es, id, parent);
    }
    lets := true;
  }

  /** The row may be moved there: it is the owner's, untrashed and unprotected, and the database accepts the write. */
  ghost predicate MayReparent(es: Entries, owner: Id, id: Id, dest: Option<Id>)
    requires Forest(es)
  {
    && id in es && es[id].owner == owner && !es[id].trashed && !es[id].system
    && GuardLets(es, owner, id, dest) && !Taken(es, owner, dest, es[id].name, Some(id))
  }

  /** `move_owned_entry`: the application's checks, then the update with its trigger and index. The destination may
      have changed since it was last looked at. */
  method MoveOwned(es: Entries, owner: Id, id: Id, dest: Option<Id>) returns (r: Result<Entries, DriveError>)
    requires Forest(es) && UniqueNames(es)
    ensures r.Ok? <==> MayReparent(es, owner, id, dest)
    ensures r.Ok? ==> r.value == Reparent(es, id, dest) && Forest(r.value) && UniqueNames(r.value)
  {
    if id !in es || es[id].owner != owner || es[id].trashed {
      return Err(NotFound);
    }
    if es[id].system {
      return Err(Protected);
    }
    if dest.Some? {
      var contained := FolderContains(es, owner, id, dest.value);
      if dest.value == id || contained {
        InsideIsAncestor(es, owner, id, dest.value);
        return Err(Conflict);
      }
    }
    var lets := RowTrigger(es, owner, id, es[id].kind, dest);
    if !lets || Taken(es, owner, dest, es[id].name, Some(id)) {
      return Err(Conflict);
    }
    MoveKeepsForest(es, owner, {id}, dest);
    OneMove(es, id, dest);
    RowKeepsNames(es, id, es[id].(parent := dest));
    r := Ok(Reparent(es, id, dest));
  }

  lemma InsideIsAncestor(es: Entries, owner: Id, id: Id, dest: Id)
    requires Forest(es) && id in es && (dest == id || Below(es, id, dest, true))
    ensures !GuardLets(es, owner, id, Some(dest))
  {
    if dest in es {
      if dest == id {
        assert ChainOf(es, dest)[0] == id;
      } else {
        var p :| DownPath(es, id, dest, true, p);
        assert DownPath(es, id, dest, false, p);
        BelowOnChain(es, id, dest);
      }
    }
  }

  /** With an active destination the trigger adds nothing to the application's own checks. */
  lemma GuardIfActive(es: Entries, owner: Id, id: Id, dest: Id)
    requires Forest(es) && id in es && es[id].owner == owner && Active(es, owner, dest, true)
    ensures GuardLets(es, owner, id, Some(dest)) <==> !Below(es, id, dest, false)
  {
    assert ChainOf(es, dest)[0] == dest;
    BelowOnChain(es, id, dest);
  }

  /** The recursive containment query behind a move: descends through untrashed children only. */
  method FolderContains(es: Entries, owner: Id, folder: Id, candidate: Id) returns (found: bool)
    requires Forest(es)
    ensures found <==>
      folder in es && es[folder].owner == owner && es[folder].kind.Folder? && Below(es, folder, candidate, true)
  {
    if folder !in es || es[folder].owner != owner || !es[folder].kind.Folder? {
      return false;
    }
    var rows := Subtree(es, owner, folder, true);
    found := candidate in rows;
  }
}
