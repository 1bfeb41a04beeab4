/** ORDER BY over (rank, id) pairs: (created_at, id) in queries, (score, member) in the delayed set. */
module Order {

  datatype Key = Key(rank: int, id: nat)

  predicate Less(a: Key, b: Key) {
    a.rank < b.rank || (a.rank == b.rank && a.id < b.id)
  }

  /** `a` comes first, ascending or descending. */
  predicate First(desc: bool, a: Key, b: Key) {
    if desc then Less(b, a) else Less(a, b)
  }

  ghost predicate Ordered(desc: bool, s: seq<Key>) {
    forall i, j | 0 <= i < j < |s| :: First(desc, s[i], s[j])
  }

  lemma {:induction false} FirstExists(desc: bool, ks: set<Key>)
    requires ks != {}
    ensures exists k :: k in ks && forall m | m in ks && m != k :: First(desc, k, m)
    decreases |ks|
  {
    var x :| x in ks;
    var rest := ks - {x};
    if rest == {} {
      assert ks == {x};
    } else {
      FirstExists(desc, rest);
      var y :| y in rest && forall m | m in rest && m != y :: First(desc, y, m);
      var k := if First(desc, x, y) then x else y;
      forall m | m in ks && m != k
        ensures First(desc, k, m)
      {
        if m != x && m != y { assert m in rest; }
      }
    }
  }

  function Top(desc: bool, ks: set<Key>): (k: Key)
    requires ks != {}
    ensures k in ks
  {
    FirstExists(desc, ks);
    var k :| k in ks && forall m | m in ks && m != k :: First(desc, k, m);
    k
  }

  lemma TopIsFirst(desc: bool, ks: set<Key>)
    requires ks != {}
    ensures forall m | m in ks && m != Top(desc, ks) :: First(desc, Top(desc, ks), m)
  {
    FirstExists(desc, ks);
  }

  /** The keys in order. */
  function Sorted(desc: bool, ks: set<Key>): (s: seq<Key>)
    decreases |ks|
  {
    if ks == {} then []
    else
      var k := Top(desc, ks);
      [k] + Sorted(desc, ks - {k})
  }

  lemma {:induction false} SortedElems(desc: bool, ks: set<Key>)
    ensures |Sorted(desc, ks)| == |ks| && forall k :: k in Sorted(desc, ks) <==> k in ks
    decreases |ks|
  {
    if ks != {} { SortedElems(desc, ks - {Top(desc, ks)}); }
  }

  lemma {:induction false} SortedIsOrdered(desc: bool, ks: set<Key>)
    ensures Ordered(desc, Sorted(desc, ks))
    decreases |ks|
  {
    if ks != {} {
      var k := Top(desc, ks);
      var rest := Sorted(desc, ks - {k});
      SortedIsOrdered(desc, ks - {k});
      SortedElems(desc, ks - {k});
      TopIsFirst(desc, ks);
      var s := Sorted(desc, ks);
      assert s == [k] + rest;
      forall i, j | 0 <= i < j < |s|
        ensures First(desc, s[i], s[j])
      {
        assert s[j] == rest[j - 1] && rest[j - 1] in rest;
        if i > 0 { assert s[i] == rest[i - 1]; }
      }
    }
  }

  lemma Assoc<T>(a: seq<T>, b: seq<T>, c: seq<T>)
    ensures (a + b) + c == a + (b + c)
  {
  }

  function Elems<T>(s: seq<T>): set<T> {
    set x | x in s
  }

  lemma ElemsPrefix<T>(ks: set<T>, x: T, rest: seq<T>, n: nat)
    requires n < |rest| + 1
    ensures ([x] + rest)[n + 1..] == rest[n..]
    ensures ks - Elems(([x] + rest)[..n + 1]) == ks - {x} - Elems(rest[..n])
  {
    assert ([x] + rest)[..n + 1] == [x] + rest[..n];
    assert Elems([x] + rest[..n]) == {x} + Elems(rest[..n]);
  }

  /** Removing the first `n` keys leaves the rest of the order. */
  lemma {:induction false} SortedDrop(desc: bool, ks: set<Key>, n: nat)
    requires n <= |Sorted(desc, ks)|
    ensures Sorted(desc, ks - Elems(Sorted(desc, ks)[..n])) == Sorted(desc, ks)[n..]
    decreases n
  {
    if n == 0 {
      assert ks - Elems(Sorted(desc, ks)[..n]) == ks;
    } else {
      var k := Top(desc, ks);
      SortedDrop(desc, ks - {k}, n - 1);
      ElemsPrefix(ks, k, Sorted(desc, ks - {k}), n - 1);
    }
  }

  function Ids(ks: seq<Key>): (s: seq<nat>)
    ensures |s| == |ks|
  {
    if ks == [] then [] else [ks[0].id] + Ids(ks[1..])
  }

  lemma {:induction false} IdsAt(ks: seq<Key>)
    ensures forall i | 0 <= i < |ks| :: Ids(ks)[i] == ks[i].id
  {
    if ks != [] { IdsAt(ks[1..]); }
  }

  lemma {:induction false} IdsDrop(ks: seq<Key>, n: nat)
    requires n <= |ks|
    ensures Ids(ks[n..]) == Ids(ks)[n..]
  {
    if n > 0 {
      IdsDrop(ks[1..], n - 1);
      assert ks[1..][n - 1..] == ks[n..];
    }
  }

  function Prefix<T>(s: seq<T>, n: nat): seq<T> {
    if n <= |s| then s[..n] else s
  }

  /** Taking pages of `w`: the next page extends what was taken, and a short page is the last. */
  lemma NextPage<T>(w: seq<T>, n: nat, limit: nat)
    requires n <= |w|
    ensures var page := Prefix(w[n..], limit);
            && n + |page| <= |w| && w[..n] + page == w[..n + |page|]
            && (|page| < limit ==> n + |page| == |w|) && (|page| == 0 && limit > 0 ==> n == |w|)
            && (forall x | x in page :: x in w)
  {
  }

  /** No two keys share an id. */
  ghost predicate OnePerId(ks: set<Key>) {
    forall a, b | a in ks && b in ks && a.id == b.id :: a == b
  }

  lemma IdTaken(ks: set<Key>, s: seq<Key>, n: nat, k: Key)
    requires OnePerId(ks) && n <= |s| && k in ks && forall x | x in s :: x in ks
    ensures k.id in Ids(s)[..n] <==> k in s[..n]
  {
    var ids := Ids(s);
    IdsAt(s);
    if k in s[..n] {
      var i :| 0 <= i < n && s[i] == k;
      assert ids[..n][i] == k.id;
    }
    if k.id in ids[..n] {
      var i :| 0 <= i < n && ids[i] == k.id;
      assert s[i] in ks && s[..n][i] == k;
    }
  }

  lemma KeysLeft(ks: set<Key>, ks': set<Key>, s: seq<Key>, n: nat)
    requires OnePerId(ks) && n <= |s| && forall x | x in s :: x in ks
    requires forall k :: k in ks' <==> k in ks && k.id !in Ids(s)[..n]
    ensures ks' == ks - Elems(s[..n])
  {
    forall k
      ensures k in ks' <==> k in ks - Elems(s[..n])
    {
      if k in ks { IdTaken(ks, s, n, k); }
    }
  }

  /** Dropping the keys of the first `n` ids leaves the rest of the id list. */
  lemma IdsRest(ks: set<Key>, ks': set<Key>, n: nat)
    requires OnePerId(ks) && n <= |Sorted(false, ks)|
    requires forall k :: k in ks' <==> k in ks && k.id !in Ids(Sorted(false, ks))[..n]
    ensures Ids(Sorted(false, ks')) == Ids(Sorted(false, ks))[n..]
  {
    SortedElems(false, ks);
    KeysLeft(ks, ks', Sorted(false, ks), n);
    SortedDrop(false, ks, n);
    IdsDrop(Sorted(false, ks), n);
  }

  /** The ids of sorted keys: exactly the keys' ids, in the order of their keys. */
  lemma SortedIds(ks: set<Key>, s: seq<Key>)
    requires s == Sorted(false, ks)
    ensures Ordered(false, s)
    ensures |Ids(s)| == |s| && forall i | 0 <= i < |s| :: s[i] in ks && Ids(s)[i] == s[i].id
    ensures forall k | k in ks :: k.id in Ids(s)
  {
    SortedIsOrdered(false, ks);
    SortedElems(false, ks);
    IdsAt(s);
    forall k | k in ks
      ensures k.id in Ids(s)
    {
      assert k in s;
      var i :| 0 <= i < |s| && s[i] == k;
      assert Ids(s)[i] == k.id;
    }
  }
}
