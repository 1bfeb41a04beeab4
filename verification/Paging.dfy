/** `list_jobs` of app/repository.py: keyset pages over a table that keeps changing between requests. */
module Paging {
  import opened Jobs
  import opened Order

  datatype Filter = Filter(
    status: Option<Status>,
    kind: Option<JobType>,
    priority: Option<Priority>,
    owner: Option<nat>)

  predicate Passes(f: Filter, r: Row) {
    && (f.status.Some? ==> r.status == f.status.value)
    && (f.kind.Some? ==> r.kind == f.kind.value)
    && (f.priority.Some? ==> r.priority == f.priority.value)
    && (f.owner.Some? ==> r.owner == f.owner)
  }

  /** (created_at, id) of every row that passes the filter. */
  function Matching(rows: Table, f: Filter): set<Key> {
    set j | j in rows && Passes(f, rows[j]) :: Key(rows[j].createdAt, j)
  }

  predicate Below(k: Key, cursor: Option<Key>) {
    cursor.None? || Less(k, cursor.value)
  }

  function Remaining(rows: Table, f: Filter, cursor: Option<Key>): set<Key> {
    set k | k in Matching(rows, f) && Below(k, cursor)
  }

  datatype Page = Page(keys: seq<Key>, next: Option<Key>)

  /** LIMIT limit + 1, then the page proper and the cursor. */
  function Cut(s: seq<Key>, limit: nat): Page
    requires limit >= 1
  {
    var found := Prefix(s, limit + 1);
    if |found| > limit then Page(found[..limit], Some(found[..limit][limit - 1])) else Page(found, None)
  }

  /** `list_jobs`: newest first, one row more than asked for to see whether there is a next page. */
  function ListJobs(rows: Table, f: Filter, limit: nat, cursor: Option<Key>): Page
    requires limit >= 1
  {
    Cut(Sorted(true, Remaining(rows, f, cursor)), limit)
  }

  /** Following `next_cursor`: the i-th request finds the table `tables[i]`. */
  function Follow(tables: seq<Table>, f: Filter, limit: nat, cursor: Option<Key>): seq<Page>
    requires limit >= 1
  {
    if tables == [] then []
    else
      var page := ListJobs(tables[0], f, limit, cursor);
      [page] + if page.next.None? then [] else Follow(tables[1..], f, limit, page.next)
  }

  /** All rows the client got, in the order it got them. */
  function Listed(pages: seq<Page>): seq<Key> {
    if pages == [] then [] else pages[0].keys + Listed(pages[1..])
  }

  /** The client has read to the end. */
  predicate Ended(pages: seq<Page>) {
    pages != [] && pages[|pages| - 1].next.None?
  }

  predicate IsPage(p: Page, left: set<Key>, limit: nat)
    requires limit >= 1
  {
    && |p.keys| <= limit
    && (forall k | k in p.keys :: k in left)
    && (p.next.None? ==> forall k | k in left :: k in p.keys)
    && (p.next.Some? ==>
          && |p.keys| == limit && p.next.value == p.keys[limit - 1] && p.next.value in left
          && (forall k | k in left :: k in p.keys || Less(k, p.next.value))
          && (forall k | k in p.keys :: !Less(k, p.next.value)))
  }

  lemma CutExact(s: seq<Key>, left: set<Key>, limit: nat)
    requires limit >= 1 && Ordered(true, s) && forall k :: k in s <==> k in left
    ensures IsPage(Cut(s, limit), left, limit) && Ordered(true, Cut(s, limit).keys)
  {
    var p := Cut(s, limit);
    assert forall k | k in p.keys :: k in s;
    if p.next.Some? {
      forall k | k in left
        ensures k in p.keys || Less(k, p.next.value)
      {
        var i :| 0 <= i < |s| && s[i] == k;
        if i < limit { assert p.keys[i] == k; } else { assert First(true, s[limit - 1], s[i]); }
      }
      forall k | k in p.keys
        ensures !Less(k, p.next.value)
      {
        var i :| 0 <= i < limit && s[i] == k;
        assert i == limit - 1 || First(true, s[i], s[limit - 1]);
      }
    }
  }

  /** One page: the newest remaining rows in order, and a cursor exactly when there are more. */
  lemma PageExact(rows: Table, f: Filter, limit: nat, cursor: Option<Key>)
    requires limit >= 1
    ensures IsPage(ListJobs(rows, f, limit, cursor), Remaining(rows, f, cursor), limit)
    ensures Ordered(true, ListJobs(rows, f, limit, cursor).keys)
  {
    var left := Remaining(rows, f, cursor);
    SortedElems(true, left);
    SortedIsOrdered(true, left);
    CutExact(Sorted(true, left), left, limit);
  }

  /** A stored row created at the key's rank, with the requested owner, status, type and priority. */
  predicate Asked(rows: Table, f: Filter, k: Key) {
    && k.id in rows && rows[k.id].createdAt == k.rank
    && (f.owner.None? || rows[k.id].owner == Some(f.owner.value))
    && (f.status.None? || rows[k.id].status == f.status.value)
    && (f.kind.None? || rows[k.id].kind == f.kind.value)
    && (f.priority.None? || rows[k.id].priority == f.priority.value)
  }

  lemma MatchingExact(rows: Table, f: Filter, k: Key)
    ensures k in Matching(rows, f) <==> Asked(rows, f, k)
  {
    if Asked(rows, f, k) { assert k == Key(rows[k.id].createdAt, k.id); }
  }

  /** The row was there and had what is asked for at every request. */
  ghost predicate Throughout(tables: seq<Table>, f: Filter, k: Key) {
    forall i | 0 <= i < |tables| :: Asked(tables[i], f, k)
  }

  lemma JoinOrdered(a: seq<Key>, b: seq<Key>, next: Key)
    requires Ordered(true, a) && Ordered(true, b)
    requires (forall k | k in a :: !Less(k, next)) && (forall k | k in b :: Less(k, next))
    ensures Ordered(true, a + b)
  {
    forall i, j | 0 <= i < j < |a + b|
      ensures First(true, (a + b)[i], (a + b)[j])
    {
      if i < |a| <= j {
        assert a[i] in a && b[j - |a|] in b;
      }
    }
  }

  /**
   * Paging is sound: whatever happens to the table between requests, the rows come in strictly
   * descending (created_at, id) order over all pages, so no row comes twice.
   */
  lemma {:induction false} PagesDescend(tables: seq<Table>, f: Filter, limit: nat, cursor: Option<Key>)
    requires limit >= 1
    ensures var listed := Listed(Follow(tables, f, limit, cursor));
            && Ordered(true, listed) && (forall k | k in listed :: Below(k, cursor))
            && forall i, j | 0 <= i < j < |listed| ::
                 listed[i].rank > listed[j].rank || (listed[i].rank == listed[j].rank && listed[i].id > listed[j].id)
  {
    if tables != [] {
      var p := ListJobs(tables[0], f, limit, cursor);
      PageExact(tables[0], f, limit, cursor);
      if p.next.Some? {
        var rest := Follow(tables[1..], f, limit, p.next);
        assert ([p] + rest)[1..] == rest;
        PagesDescend(tables[1..], f, limit, p.next);
        JoinOrdered(p.keys, Listed(rest), p.next.value);
      } else {
        assert [p][1..] == [] && p.keys + [] == p.keys;
      }
    }
  }

  /** Paging is complete: read to the end, a row that was there throughout has been listed. */
  lemma {:induction false} PagesComplete(tables: seq<Table>, f: Filter, limit: nat, cursor: Option<Key>, k: Key)
    requires limit >= 1 && Throughout(tables, f, k) && Below(k, cursor)
    requires Ended(Follow(tables, f, limit, cursor))
    ensures k in Listed(Follow(tables, f, limit, cursor))
  {
    var p := ListJobs(tables[0], f, limit, cursor);
    PageExact(tables[0], f, limit, cursor);
    MatchingExact(tables[0], f, k);
    assert k in Remaining(tables[0], f, cursor);
    if p.next.Some? {
      var rest := Follow(tables[1..], f, limit, p.next);
      assert ([p] + rest)[1..] == rest;
      if k !in p.keys {
        assert Throughout(tables[1..], f, k);
        assert rest != [] ==> rest[|rest| - 1] == ([p] + rest)[|rest|];
        PagesComplete(tables[1..], f, limit, p.next, k);
      }
    } else {
      assert [p][1..] == [] && p.keys + [] == p.keys;
    }
  }

  /** Every listed row had what was asked for when its page was read. */
  lemma {:induction false} PagesMatch(tables: seq<Table>, f: Filter, limit: nat, cursor: Option<Key>, i: nat, k: Key)
    requires limit >= 1 && i < |Follow(tables, f, limit, cursor)|
    requires k in Follow(tables, f, limit, cursor)[i].keys
    ensures i < |tables| && Asked(tables[i], f, k)
  {
    PageExact(tables[0], f, limit, cursor);
    MatchingExact(tables[0], f, k);
    if i > 0 { PagesMatch(tables[1..], f, limit, ListJobs(tables[0], f, limit, cursor).next, i - 1, k); }
  }

  lemma {:induction false} ListedMatch(tables: seq<Table>, f: Filter, limit: nat, cursor: Option<Key>, k: Key)
    requires limit >= 1 && k in Listed(Follow(tables, f, limit, cursor))
    ensures exists i :: 0 <= i < |tables| && k in Matching(tables[i], f)
  {
    var pages := Follow(tables, f, limit, cursor);
    PageExact(tables[0], f, limit, cursor);
    if k in pages[0].keys {
      assert k in Matching(tables[0], f);
    } else {
      var rest := Follow(tables[1..], f, limit, pages[0].next);
      assert pages[1..] == rest;
      ListedMatch(tables[1..], f, limit, pages[0].next, k);
      var i :| 0 <= i < |tables[1..]| && k in Matching(tables[1..][i], f);
      assert tables[1..][i] == tables[i + 1];
    }
  }

  /** A row's creation time never changes; see Jobs.SameIdentity. */
  ghost predicate CreatedOnce(tables: seq<Table>) {
    forall a, b, j | 0 <= a < |tables| && 0 <= b < |tables| && j in tables[a] && j in tables[b] ::
      tables[a][j].createdAt == tables[b][j].createdAt
  }

  /** Paging is duplicate-free: no job is listed twice, whatever is inserted or changed between the pages. */
  lemma NoJobTwice(tables: seq<Table>, f: Filter, limit: nat, cursor: Option<Key>, i: nat, j: nat)
    requires limit >= 1 && CreatedOnce(tables) && i < j < |Listed(Follow(tables, f, limit, cursor))|
    ensures var listed := Listed(Follow(tables, f, limit, cursor)); listed[i].id != listed[j].id
  {
    var listed := Listed(Follow(tables, f, limit, cursor));
    PagesDescend(tables, f, limit, cursor);
    assert First(true, listed[i], listed[j]);
    ListedMatch(tables, f, limit, cursor, listed[i]);
    ListedMatch(tables, f, limit, cursor, listed[j]);
  }

  /** Cursors strictly decrease from page to page. */
  lemma {:induction false} CursorsDescend(tables: seq<Table>, f: Filter, limit: nat, cursor: Option<Key>, i: nat)
    requires limit >= 1 && i < |Follow(tables, f, limit, cursor)|
    ensures var pages := Follow(tables, f, limit, cursor);
            pages[i].next.Some? ==>
              Below(pages[i].next.value, if i == 0 then cursor else pages[i - 1].next)
              && (i > 0 ==> pages[i - 1].next.Some?)
  {
    PageExact(tables[0], f, limit, cursor);
    if i > 0 {
      var p := ListJobs(tables[0], f, limit, cursor);
      CursorsDescend(tables[1..], f, limit, p.next, i - 1);
    }
  }

  /** Rows are created at the top: below the cursor a later table holds nothing that was not there. */
  ghost predicate NothingNewBelow(rows: Table, rows': Table, f: Filter, cursor: Option<Key>) {
    Remaining(rows', f, cursor) <= Remaining(rows, f, cursor)
  }

  lemma SubsetSize<T>(a: set<T>, b: set<T>)
    requires a <= b
    ensures |a| <= |b|
  {
    assert b == a + (b - a);
  }

  lemma RestSize(left: set<Key>, n: nat)
    requires n <= |Sorted(true, left)|
    ensures |left - Elems(Sorted(true, left)[..n])| == |Sorted(true, left)| - n
  {
    SortedDrop(true, left, n);
    SortedElems(true, left - Elems(Sorted(true, left)[..n]));
  }

  /** Then each full page leaves `limit` rows fewer, so the client reaches the end. */
  lemma PageShrinks(rows: Table, rows': Table, f: Filter, limit: nat, cursor: Option<Key>)
    requires limit >= 1 && ListJobs(rows, f, limit, cursor).next.Some?
    requires NothingNewBelow(rows, rows', f, ListJobs(rows, f, limit, cursor).next)
    ensures |Remaining(rows', f, ListJobs(rows, f, limit, cursor).next)| + limit <= |Remaining(rows, f, cursor)|
  {
    var p := ListJobs(rows, f, limit, cursor);
    var left := Remaining(rows, f, cursor);
    PageExact(rows, f, limit, cursor);
    SortedElems(true, left);
    RestSize(left, limit);
    assert p.keys == Sorted(true, left)[..limit];
    SubsetSize(Remaining(rows', f, p.next), left - Elems(p.keys));
  }

  lemma OneMorePage(n: int, limit: int)
    ensures (n + 1) * limit == n * limit + limit
  {
  }

  /** The hypothesis of `PagesBounded` for the pages after the first. */
  lemma SettledLater(tables: seq<Table>, f: Filter, limit: nat, cursor: Option<Key>)
    requires limit >= 1 && |tables| > 1 && ListJobs(tables[0], f, limit, cursor).next.Some?
    requires Settled(tables, f, Follow(tables, f, limit, cursor))
    ensures var next := ListJobs(tables[0], f, limit, cursor).next;
            && Settled(tables[1..], f, Follow(tables[1..], f, limit, next))
            && Follow(tables, f, limit, cursor) == [ListJobs(tables[0], f, limit, cursor)] + Follow(tables[1..], f, limit, next)
            && NothingNewBelow(tables[0], tables[1], f, next)
  {
    var p := ListJobs(tables[0], f, limit, cursor);
    var pages, rest := Follow(tables, f, limit, cursor), Follow(tables[1..], f, limit, p.next);
    assert pages == [p] + rest;
    FollowLength(tables[1..], f, limit, p.next);
    assert NothingNewBelow(tables[0], tables[1], f, pages[0].next);
    forall i, j | 0 <= i && j == i + 1 && j < |rest| <= |tables[1..]|
      ensures NothingNewBelow(tables[1..][i], tables[1..][j], f, rest[i].next)
    {
      assert pages[i + 1] == rest[i];
      assert NothingNewBelow(tables[i + 1], tables[j + 1], f, pages[i + 1].next);
    }
  }

  /** Between two page requests nothing new shows up below the cursor. */
  ghost predicate Settled(tables: seq<Table>, f: Filter, pages: seq<Page>) {
    forall i, j | 0 <= i && j == i + 1 && j < |pages| <= |tables| :: NothingNewBelow(tables[i], tables[j], f, pages[i].next)
  }

  /** Reading to the end takes at most one request per `limit` rows, plus one. */
  lemma {:induction false} PagesBounded(tables: seq<Table>, f: Filter, limit: nat, cursor: Option<Key>)
    requires limit >= 1 && tables != []
    requires Settled(tables, f, Follow(tables, f, limit, cursor))
    ensures (|Follow(tables, f, limit, cursor)| - 1) * limit <= |Remaining(tables[0], f, cursor)|
    decreases |tables|
  {
    FollowLength(tables, f, limit, cursor);
    var p := ListJobs(tables[0], f, limit, cursor);
    if p.next.Some? && |tables| > 1 {
      var rest := Follow(tables[1..], f, limit, p.next);
      SettledLater(tables, f, limit, cursor);
      PagesBounded(tables[1..], f, limit, p.next);
      PageShrinks(tables[0], tables[1], f, limit, cursor);
      OneMorePage(|rest| - 1, limit);
    }
  }

  lemma {:induction false} FollowLength(tables: seq<Table>, f: Filter, limit: nat, cursor: Option<Key>)
    requires limit >= 1
    ensures |Follow(tables, f, limit, cursor)| <= |tables| && (tables != [] ==> Follow(tables, f, limit, cursor) != [])
  {
    if tables != [] {
      var p := ListJobs(tables[0], f, limit, cursor);
      if p.next.Some? { FollowLength(tables[1..], f, limit, p.next); }
    }
  }
}
