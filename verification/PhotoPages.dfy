/** Keyset pagination of the photo library (src/library.rs:294-300, 615-668): a client follows `next_cursor` while
    photos come and go between its requests. */
module PhotoPages {
  import opened Common

  const DEFAULT_PAGE_SIZE: nat := 60
  const MAX_PAGE_SIZE: nat := 120

  /** The order of the listing; creation time and id of an entry never change. */
  datatype Key = Key(created: int, id: Id)

  predicate Less(a: Key, b: Key) {
    a.created < b.created || (a.created == b.created && a.id < b.id)
  }

  ghost predicate Descending(s: seq<Key>) {
    forall i, j :: 0 <= i < j < |s| ==> Less(s[j], s[i])
  }

  // ----- the query

  predicate Below(k: Key, before: Option<Key>) {
    before.Some? ==> Less(k, before.value)
  }

  function Insert(k: Key, s: seq<Key>): seq<Key> {
    if s == [] || Less(s[0], k) then [k] + s else [s[0]] + Insert(k, s[1..])
  }

  /** WHERE and ORDER BY: the visible rows below the cursor, newest first. */
  function Sorted(rows: seq<Key>, before: Option<Key>): seq<Key> {
    if rows == [] then []
    else
      var rest := Sorted(rows[1..], before);
      if Below(rows[0], before) then Insert(rows[0], rest) else rest
  }

  ghost predicate Distinct(rows: seq<Key>) {
    forall i, j :: 0 <= i < j < |rows| ==> rows[i] != rows[j]
  }

  lemma {:induction false} InsertMembers(k: Key, s: seq<Key>, x: Key)
    ensures x in Insert(k, s) <==> x == k || x in s
  {
    if s != [] && !Less(s[0], k) {
      InsertMembers(k, s[1..], x);
      assert s == [s[0]] + s[1..];
    }
  }

  lemma {:induction false} InsertDescends(k: Key, s: seq<Key>)
    requires Descending(s) && k !in s
    ensures Descending(Insert(k, s))
  {
    if s != [] && !Less(s[0], k) {
      InsertDescends(k, s[1..]);
      var r := Insert(k, s[1..]);
      forall j | 0 <= j < |r| ensures Less(r[j], s[0]) {
        InsertMembers(k, s[1..], r[j]);
      }
    }
  }

  lemma {:induction false} SortedMembers(rows: seq<Key>, before: Option<Key>, x: Key)
    ensures x in Sorted(rows, before) <==> x in rows && Below(x, before)
  {
    if rows != [] {
      SortedMembers(rows[1..], before, x);
      assert x in rows <==> x == rows[0] || x in rows[1..];
      if Below(rows[0], before) {
        InsertMembers(rows[0], Sorted(rows[1..], before), x);
      }
    }
  }

  lemma {:induction false} SortedDescends(rows: seq<Key>, before: Option<Key>)
    requires Distinct(rows)
    ensures Descending(Sorted(rows, before))
  {
    if rows != [] {
      SortedDescends(rows[1..], before);
      SortedMembers(rows[1..], before, rows[0]);
      assert rows[0] !in rows[1..];
      if Below(rows[0], before) {
        InsertDescends(rows[0], Sorted(rows[1..], before));
      }
    }
  }

  // ----- cursors

  /** The text forms of timestamps and ids, which are foreign code. */
  datatype Format = Format(
    showStamp: int -> string,
    readStamp: string -> Option<int>,
    showId: Id -> string,
    readId: string -> Option<Id>)

  /** RFC 3339 stamps and hyphenated ids read back as what was written, and no id contains a bar. */
  ghost predicate Faithful(f: Format) {
    && (forall t :: f.readStamp(f.showStamp(t)) == Some(t))
    && (forall i: Id :: f.readId(f.showId(i)) == Some(i) && '|' !in f.showId(i))
  }

  function EncodeCursor(f: Format, k: Key): string {
    f.showStamp(k.created) + "|" + f.showId(k.id)
  }

  /** `rsplit_once`: at the last bar. */
  function SplitLast(s: string): Option<(string, string)> {
    if s == "" then None
    else if s[|s| - 1] == '|' then Some((s[..|s| - 1], ""))
    else
      match SplitLast(s[..|s| - 1])
      case None => None
      case Some(p) => Some((p.0, p.1 + [s[|s| - 1]]))
  }

  function ParseCursor(f: Format, s: string): Option<Key> {
    match SplitLast(s)
    case None => None
    case Some(p) =>
      match (f.readStamp(p.0), f.readId(p.1))
      case (Some(created), Some(id)) => Some(Key(created, id))
      case _ => None
  }

  lemma {:induction false} SplitLastBar(a: string, b: string)
    requires '|' !in b
    ensures SplitLast(a + "|" + b) == Some((a, b))
  {
    var s := a + "|" + b;
    if b == "" {
      assert s[..|s| - 1] == a;
    } else {
      SplitLastBar(a, b[..|b| - 1]);
      assert s[..|s| - 1] == a + "|" + b[..|b| - 1];
      assert b == b[..|b| - 1] + [b[|b| - 1]];
    }
  }

  /** A cursor parses back to the key it was made from, whatever the stamp looks like. */
  lemma CursorRoundTrip(f: Format, k: Key)
    requires Faithful(f)
    ensures ParseCursor(f, EncodeCursor(f, k)) == Some(k)
  {
    SplitLastBar(f.showStamp(k.created), f.showId(k.id));
  }

  // ----- a page

  function PageLimit(limit: Option<nat>): Option<nat> {
    var n := limit.GetOr(DEFAULT_PAGE_SIZE);
    if n == 0 || n > MAX_PAGE_SIZE then None else Some(n)
  }

  datatype Page = Page(items: seq<Key>, next: Option<string>)

  function PageAfter(f: Format, rows: seq<Key>, before: Option<Key>, limit: nat): Page
    requires limit > 0
  {
    var all := Sorted(rows, before);
    if |all| <= limit then Page(all, None) else Page(all[..limit], Some(EncodeCursor(f, all[limit - 1])))
  }

  /** `list_photos`: one row more than asked for is fetched to learn whether there are more. */
  method ListPhotos(f: Format, rows: seq<Key>, limit: Option<nat>, cursor: Option<string>) returns (r: Result<Page, ()>)
    ensures r.Err? <==> PageLimit(limit).None? || (cursor.Some? && ParseCursor(f, cursor.value).None?)
    ensures r.Ok? ==>
      r.value == PageAfter(f, rows, if cursor.Some? then ParseCursor(f, cursor.value) else None, PageLimit(limit).value)
  {
    var size := PageLimit(limit);
    if size.None? {
      return Err(());
    }
    var before := None;
    if cursor.Some? {
      before := ParseCursor(f, cursor.value);
      if before.None? {
        return Err(());
      }
    }
    var items := Sorted(rows, before);
    if |items| > size.value + 1 {
      items := items[..size.value + 1];
    }
    var more := |items| > size.value;
    if more {
      items := items[..size.value];
    }
    r := Ok(Page(items, if more then Some(EncodeCursor(f, items[|items| - 1])) else None));
  }

  // ----- a walk over changing photos

  /** The client's `i`-th request sees the rows `snaps[i]` and sends the cursor of the page before. */
  ghost predicate IsWalk(f: Format, snaps: seq<seq<Key>>, pages: seq<Page>, limit: nat)
    requires limit > 0
  {
    && |pages| == |snaps| && (forall i :: 0 <= i < |snaps| ==> Distinct(snaps[i]))
    && (forall i {:trigger Follows(f, snaps, pages, limit, i)} :: 0 <= i < |pages| ==>
      Follows(f, snaps, pages, limit, i))
  }

  /** Page `i` answers the cursor of page `i - 1`, which offered one. */
  ghost predicate Follows(f: Format, snaps: seq<seq<Key>>, pages: seq<Page>, limit: nat, i: nat)
    requires limit > 0 && i < |pages| == |snaps|
  {
    var before := CursorOf(f, pages, i);
    (i > 0 ==> before.Some?) && pages[i] == PageAfter(f, snaps[i], before, limit)
  }

  ghost function CursorOf(f: Format, pages: seq<Page>, i: nat): Option<Key>
    requires i <= |pages|
  {
    if i == 0 || pages[i - 1].next.None? then None else ParseCursor(f, pages[i - 1].next.value)
  }

  function Items(pages: seq<Page>): seq<Key> {
    if pages == [] then [] else Items(pages[..|pages| - 1]) + pages[|pages| - 1].items
  }

  /** Everything at or above the cursor that the page could see is on it. */
  lemma PageIsFull(f: Format, rows: seq<Key>, before: Option<Key>, limit: nat, k: Key)
    requires Faithful(f) && Distinct(rows) && limit > 0 && k in rows && Below(k, before)
    ensures var p := PageAfter(f, rows, before, limit);
            k in p.items
              || (p.next.Some? && ParseCursor(f, p.next.value).Some? && Less(k, ParseCursor(f, p.next.value).value))
  {
    var all := Sorted(rows, before);
    SortedMembers(rows, before, k);
    SortedDescends(rows, before);
    var i :| 0 <= i < |all| && all[i] == k;
    if |all| > limit {
      CursorRoundTrip(f, all[limit - 1]);
      if i < limit {
        assert all[..limit][i] == k;
      }
    }
  }

  /** A page descends, lies below its cursor, shows only rows it saw and ends at its own next cursor. */
  lemma PageShape(f: Format, rows: seq<Key>, before: Option<Key>, limit: nat)
    requires Faithful(f) && Distinct(rows) && limit > 0
    ensures var p := PageAfter(f, rows, before, limit);
            && Descending(p.items) && (forall k :: k in p.items ==> k in rows && Below(k, before))
            && (p.next.Some? ==> p.items != [] && ParseCursor(f, p.next.value) == Some(p.items[|p.items| - 1]))
  {
    var all := Sorted(rows, before);
    var p := PageAfter(f, rows, before, limit);
    SortedDescends(rows, before);
    forall k | k in p.items ensures k in rows && Below(k, before) {
      assert k in all;
      SortedMembers(rows, before, k);
    }
    if |all| > limit {
      CursorRoundTrip(f, all[limit - 1]);
    }
  }

  lemma WalkPrefix(f: Format, snaps: seq<seq<Key>>, pages: seq<Page>, limit: nat, n: nat)
    requires limit > 0 && n <= |pages| && IsWalk(f, snaps, pages, limit)
    ensures IsWalk(f, snaps[..n], pages[..n], limit)
  {
    forall i | 0 <= i < n ensures Follows(f, snaps[..n], pages[..n], limit, i) {
      assert Follows(f, snaps, pages, limit, i);
    }
  }

  /** Whatever changes between the requests, the items descend strictly over all pages, so none is shown twice, and
      none lies below the last cursor. */
  lemma {:induction false} WalkDescends(f: Format, snaps: seq<seq<Key>>, pages: seq<Page>, limit: nat)
    requires Faithful(f) && limit > 0 && IsWalk(f, snaps, pages, limit)
    ensures Descending(Items(pages))
    ensures forall k :: k in Items(pages) && CursorOf(f, pages, |pages|).Some? ==>
      !Less(k, CursorOf(f, pages, |pages|).value)
  {
    if pages != [] {
      var n := |pages| - 1;
      WalkPrefix(f, snaps, pages, limit, n);
      WalkDescends(f, snaps[..n], pages[..n], limit);
      assert Follows(f, snaps, pages, limit, n);
      var before, page := CursorOf(f, pages, n), pages[n];
      assert CursorOf(f, pages[..n], n) == before;
      PageShape(f, snaps[n], before, limit);
      JoinDescends(Items(pages[..n]), page.items, before);
    }
  }

  lemma JoinDescends(a: seq<Key>, b: seq<Key>, before: Option<Key>)
    requires Descending(a) && Descending(b) && (before.None? ==> a == [])
    requires forall k :: k in a && before.Some? ==> !Less(k, before.value)
    requires forall k :: k in b ==> Below(k, before)
    ensures Descending(a + b)
    ensures b != [] ==> forall k :: k in a + b ==> !Less(k, b[|b| - 1])
  {
    forall i, j | 0 <= i < |a| && 0 <= j < |b| ensures Less(b[j], a[i]) {
      assert a[i] in a && b[j] in b;
    }
    forall i, j | 0 <= i < j < |a + b| ensures Less((a + b)[j], (a + b)[i]) {
      assert i < |a| <= j ==> Less(b[j - |a|], a[i]);
      assert |a| <= i ==> Less(b[j - |a|], b[i - |a|]);
    }
    forall k | k in a + b && b != [] ensures !Less(k, b[|b| - 1]) {
      assert k in b ==> exists i :: 0 <= i < |b| && b[i] == k;
      assert k in a ==> exists i :: 0 <= i < |a| && a[i] == k;
    }
  }

  /** A photo that every request could see is on one of the pages, unless it lies below the cursor still to follow. */
  lemma {:induction false} WalkReaches(f: Format, snaps: seq<seq<Key>>, pages: seq<Page>, limit: nat, k: Key)
    requires Faithful(f) && limit > 0 && IsWalk(f, snaps, pages, limit) && |pages| > 0
    requires forall i :: 0 <= i < |snaps| ==> k in snaps[i]
    ensures k in Items(pages) || (CursorOf(f, pages, |pages|).Some? && Less(k, CursorOf(f, pages, |pages|).value))
  {
    var n := |pages| - 1;
    assert Follows(f, snaps, pages, limit, n);
    var before := CursorOf(f, pages, n);
    if n > 0 {
      WalkPrefix(f, snaps, pages, limit, n);
      WalkReaches(f, snaps[..n], pages[..n], limit, k);
      assert CursorOf(f, pages[..n], n) == before;
    }
    if Below(k, before) {
      PageIsFull(f, snaps[n], before, limit, k);
    }
  }

  ghost function Count(s: seq<Key>, k: Key): nat {
    multiset(s)[k]
  }

  lemma {:induction false} DescendingOnce(s: seq<Key>, k: Key)
    requires Descending(s)
    ensures Count(s, k) == if k in s then 1 else 0
  {
    if s != [] {
      DescendingOnce(s[1..], k);
      assert s == [s[0]] + s[1..];
      assert s[0] !in s[1..];
    }
  }

  /** When the last page offers no cursor, every photo that was there throughout has been shown exactly once. */
  lemma CompleteWalk(f: Format, snaps: seq<seq<Key>>, pages: seq<Page>, limit: nat, k: Key)
    requires Faithful(f) && limit > 0 && IsWalk(f, snaps, pages, limit) && |pages| > 0 && pages[|pages| - 1].next.None?
    requires forall i :: 0 <= i < |snaps| ==> k in snaps[i]
    ensures Descending(Items(pages)) && Count(Items(pages), k) == 1
  {
    WalkDescends(f, snaps, pages, limit);
    WalkReaches(f, snaps, pages, limit, k);
    DescendingOnce(Items(pages), k);
  }

  lemma {:induction false} ItemsWereSeen(f: Format, snaps: seq<seq<Key>>, pages: seq<Page>, limit: nat, k: Key)
      returns (i: nat)
    requires Faithful(f) && limit > 0 && IsWalk(f, snaps, pages, limit) && k in Items(pages)
    ensures i < |snaps| && k in pages[i].items && k in snaps[i]
  {
    var n := |pages| - 1;
    if k in pages[n].items {
      assert Follows(f, snaps, pages, limit, n);
      PageShape(f, snaps[n], CursorOf(f, pages, n), limit);
      i := n;
    } else {
      WalkPrefix(f, snaps, pages, limit, n);
      i := ItemsWereSeen(f, snaps[..n], pages[..n], limit, k);
    }
  }

  /** If nothing changes, the finished walk shows exactly the photos there are. */
  lemma QuietWalk(f: Format, rows: seq<Key>, snaps: seq<seq<Key>>, pages: seq<Page>, limit: nat, k: Key)
    requires Faithful(f) && limit > 0 && IsWalk(f, snaps, pages, limit) && |pages| > 0 && pages[|pages| - 1].next.None?
    requires forall i :: 0 <= i < |snaps| ==> snaps[i] == rows
    ensures Descending(Items(pages)) && Count(Items(pages), k) == if k in rows then 1 else 0
  {
    WalkDescends(f, snaps, pages, limit);
    DescendingOnce(Items(pages), k);
    if k in rows {
      CompleteWalk(f, snaps, pages, limit, k);
    } else if k in Items(pages) {
      var i := ItemsWereSeen(f, snaps, pages, limit, k);
    }
  }
}
