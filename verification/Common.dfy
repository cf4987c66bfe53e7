/** Shared value types and the two library facilities the source leans on:
    sorting by a key and drawing a fresh identifier. */
module Common {

  datatype Option<+T> = None | Some(value: T) {
    function GetOr(default: T): T {
      if Some? then value else default
    }
  }

  datatype Result<+T, +E> = Ok(value: T) | Err(error: E)

  /** Identifiers (UUIDs) are ordered values; only equality and order matter. */
  type Id = nat

  ghost predicate SortedBy<T>(s: seq<T>, key: T -> nat) {
    forall i, j :: 0 <= i < j < |s| ==> key(s[i]) <= key(s[j])
  }

  function InsertBy<T>(x: T, s: seq<T>, key: T -> nat): (r: seq<T>)
    ensures multiset(r) == multiset(s) + multiset{x}
  {
    if s == [] then [x]
    else if key(x) <= key(s[0]) then [x] + s
    else
      assert s == [s[0]] + s[1..];
      [s[0]] + InsertBy(x, s[1..], key)
  }

  lemma InsertMembers<T>(x: T, s: seq<T>, key: T -> nat, y: T)
    requires y in InsertBy(x, s, key)
    ensures y == x || y in s
  {
    assert y in multiset(InsertBy(x, s, key));
  }

  lemma {:induction false} InsertSorted<T>(x: T, s: seq<T>, key: T -> nat)
    requires SortedBy(s, key)
    ensures SortedBy(InsertBy(x, s, key), key)
  {
    if s != [] && key(x) > key(s[0]) {
      var rest := InsertBy(x, s[1..], key);
      InsertSorted(x, s[1..], key);
      forall j | 0 <= j < |rest| ensures key(s[0]) <= key(rest[j]) {
        InsertMembers(x, s[1..], key, rest[j]);
      }
    }
  }

  /** `sort_by_key`: a stable insertion sort, ordered by key and a permutation of its input. */
  function SortByKey<T>(s: seq<T>, key: T -> nat): (r: seq<T>)
    ensures SortedBy(r, key)
    ensures multiset(r) == multiset(s)
  {
    if s == [] then []
    else
      assert s == [s[0]] + s[1..];
      InsertSorted(s[0], SortByKey(s[1..], key), key);
      InsertBy(s[0], SortByKey(s[1..], key), key)
  }

  /** Sorting what is already sorted changes nothing. */
  lemma {:induction false} SortFixed<T>(s: seq<T>, key: T -> nat)
    requires SortedBy(s, key)
    ensures SortByKey(s, key) == s
  {
    if s != [] {
      SortFixed(s[1..], key);
    }
  }

  ghost function MaxOf(s: set<nat>): (m: nat)
    ensures forall x :: x in s ==> x <= m
  {
    if s == {} then 0
    else
      var x :| x in s;
      var m := MaxOf(s - {x});
      assert s == (s - {x}) + {x};
      if m < x then x else m
  }

  lemma FreshExists(used: set<Id>)
    ensures exists id: Id :: id !in used
  {
    assert MaxOf(used) + 1 !in used;
  }

  lemma SameKeysSameSize<K, V>(a: map<K, V>, b: map<K, V>)
    requires a.Keys == b.Keys
    ensures |a| == |b|
  {
    assert |a.Keys| == |a| && |b.Keys| == |b|;
  }

  /** If `p` goes on exactly until `q` happens, then up to `k` either `q` happens a first time or `p` goes on. */
  lemma {:induction false} UntilFirst(p: nat -> bool, q: nat -> bool, i: nat, k: nat) returns (j: Option<nat>)
    requires i <= k && p(i) && forall m: nat :: i <= m < k && p(m) ==> (p(m + 1) <==> !q(m))
    ensures j.None? ==> forall m: nat :: (i <= m <= k ==> p(m)) && (i <= m < k ==> !q(m))
    ensures j.Some? ==> i <= j.value < k && q(j.value) && forall m: nat :: i <= m <= j.value ==> p(m)
  {
    j := None;
    if i < k {
      j := UntilFirst(p, q, i, k - 1);
      if j.None? && q(k - 1) {
        j := Some(k - 1);
      }
    }
  }
}
