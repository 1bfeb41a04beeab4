/** app/auth/cache.py: a bounded cache with expiry over an insertion-ordered dictionary. */
module TokenCaches {
  import opened Jobs

  // ----- an insertion-ordered dictionary -----

  datatype Entry<U> = Entry(key: string, expires: real, user: U)

  function Find<U>(es: seq<Entry<U>>, key: string): Option<Entry<U>> {
    if es == [] then None else if es[0].key == key then Some(es[0]) else Find(es[1..], key)
  }

  /** `del d[key]`, or `pop` with a default when the key may be absent. */
  function Erase<U>(es: seq<Entry<U>>, key: string): seq<Entry<U>> {
    if es == [] then [] else if es[0].key == key then es[1..] else [es[0]] + Erase(es[1..], key)
  }

  /** `d[key] = ...`: a known key keeps its place, a new one goes to the end. */
  function Stored<U>(es: seq<Entry<U>>, e: Entry<U>): seq<Entry<U>> {
    if es == [] then [e] else if es[0].key == e.key then [e] + es[1..] else [es[0]] + Stored(es[1..], e)
  }

  predicate DistinctKeys<U>(es: seq<Entry<U>>) {
    es == [] || (Find(es[1..], es[0].key).None? && DistinctKeys(es[1..]))
  }

  lemma {:induction false} FindKey<U>(es: seq<Entry<U>>, key: string)
    ensures Find(es, key).Some? ==> Find(es, key).value.key == key
  {
    if es != [] { FindKey(es[1..], key); }
  }

  lemma {:induction false} FindErased<U>(es: seq<Entry<U>>, key: string, q: string)
    requires DistinctKeys(es)
    ensures Find(Erase(es, key), q) == if q == key then None else Find(es, q)
    ensures DistinctKeys(Erase(es, key))
    ensures |Erase(es, key)| == if Find(es, key).Some? then |es| - 1 else |es|
  {
    if es != [] && es[0].key != key {
      var tail := Erase(es[1..], key);
      FindErased(es[1..], key, q);
      FindErased(es[1..], key, es[0].key);
      assert ([es[0]] + tail)[1..] == tail;
    }
  }

  lemma {:induction false} FindStored<U>(es: seq<Entry<U>>, e: Entry<U>, q: string)
    requires DistinctKeys(es)
    ensures Find(Stored(es, e), q) == if q == e.key then Some(e) else Find(es, q)
    ensures DistinctKeys(Stored(es, e))
    ensures |Stored(es, e)| == if Find(es, e.key).Some? then |es| else |es| + 1
  {
    if es != [] {
      assert ([e] + es[1..])[1..] == es[1..];
      if es[0].key != e.key {
        var tail := Stored(es[1..], e);
        FindStored(es[1..], e, q);
        FindStored(es[1..], e, es[0].key);
        assert ([es[0]] + tail)[1..] == tail;
      }
    }
  }

  lemma {:induction false} FindDropped<U>(es: seq<Entry<U>>, n: nat, q: string)
    requires DistinctKeys(es) && n <= |es|
    ensures Find(es[n..], q).Some? ==> Find(es, q) == Find(es[n..], q)
    ensures DistinctKeys(es[n..])
  {
    if n > 0 {
      assert es[n..] == es[1..][n - 1..];
      FindDropped(es[1..], n - 1, q);
      FindKey(es[1..], q);
    }
  }

  // ----- what each call computes -----

  /** The value `get` returns. */
  function Got<U>(es: seq<Entry<U>>, key: string, now: real): Option<U> {
    var e := Find(es, key);
    if e.Some? && now < e.value.expires then Some(e.value.user) else None
  }

  /** The entries after `get`: an expired hit is dropped. */
  function AfterGet<U>(es: seq<Entry<U>>, key: string, now: real): seq<Entry<U>> {
    var e := Find(es, key);
    if e.Some? && now >= e.value.expires then Erase(es, key) else es
  }

  function Live<U>(es: seq<Entry<U>>, now: real): seq<Entry<U>> {
    if es == [] then [] else if es[0].expires <= now then Live(es[1..], now) else [es[0]] + Live(es[1..], now)
  }

  /** The oldest entries go until there is room for one more. */
  function Trimmed<U>(es: seq<Entry<U>>, max: int): seq<Entry<U>> {
    if |es| < max then es else if max <= 0 then [] else es[|es| - max + 1..]
  }

  /** `_evict`: expired entries first, then the oldest ones. */
  function Evicted<U>(es: seq<Entry<U>>, max: int, now: real): seq<Entry<U>> {
    Trimmed(Live(es, now), max)
  }

  /** Without room even for one entry, `put` empties the cache and raises StopIteration. */
  predicate Raises<U>(es: seq<Entry<U>>, ttl: real, max: int, key: string) {
    ttl > 0.0 && max <= 0 && Find(es, key).None?
  }

  /** What `put` makes room in; the clock is read once here and once for the expiry. */
  function Room<U>(es: seq<Entry<U>>, max: int, key: string, now: real): seq<Entry<U>> {
    if Find(es, key).None? && |es| >= max then Evicted(es, max, now) else es
  }

  function AfterPut<U>(es: seq<Entry<U>>, ttl: real, max: int, e: Entry<U>, evictAt: real): seq<Entry<U>> {
    if ttl <= 0.0 then es
    else if Raises(es, ttl, max, e.key) then []
    else Stored(Room(es, max, e.key, evictAt), e)
  }

  lemma {:induction false} FindLive<U>(es: seq<Entry<U>>, now: real, q: string)
    requires DistinctKeys(es)
    ensures Find(Live(es, now), q) == if Find(es, q).Some? && Find(es, q).value.expires > now then Find(es, q) else None
    ensures DistinctKeys(Live(es, now)) && |Live(es, now)| <= |es|
  {
    if es != [] {
      var tail := Live(es[1..], now);
      FindLive(es[1..], now, q);
      FindLive(es[1..], now, es[0].key);
      assert ([es[0]] + tail)[1..] == tail;
    }
  }

  // ----- the cache object -----

  class TokenCache<U> {
    const ttl: real
    const max: int
    var entries: seq<Entry<U>>

    constructor (ttl: real, max: int)
      ensures this.ttl == ttl && this.max == max && entries == []
    {
      this.ttl, this.max := ttl, max;
      entries := [];
    }

    method Get(key: string, now: real) returns (r: Option<U>)
      modifies this
      ensures r == Got(old(entries), key, now) && entries == AfterGet(old(entries), key, now)
    {
      var e := Find(entries, key);
      if e.None? { return None; }
      if now >= e.value.expires {
        entries := Erase(entries, key);
        return None;
      }
      r := Some(e.value.user);
    }

    method Put(key: string, user: U, evictAt: real, now: real) returns (raised: bool)
      requires DistinctKeys(entries)
      modifies this
      ensures raised == Raises(old(entries), ttl, max, key)
      ensures entries == AfterPut(old(entries), ttl, max, Entry(key, now + ttl, user), evictAt)
    {
      raised := false;
      if ttl <= 0.0 { return; }
      if Find(entries, key).None? && |entries| >= max {
        raised := Evict(evictAt);
        if raised { return; }
      }
      entries := Stored(entries, Entry(key, now + ttl, user));
    }

    /** The list comprehension of `_evict`. */
    method CollectDead(now: real) returns (dead: seq<string>)
      ensures dead == DeadKeys(entries, now)
    {
      dead := [];
      assert entries[0..] == entries;
      for i := 0 to |entries|
        invariant dead + DeadKeys(entries[i..], now) == DeadKeys(entries, now)
      {
        assert entries[i..][1..] == entries[i + 1..];
        if entries[i].expires <= now { dead := dead + [entries[i].key]; }
      }
    }

    method Evict(now: real) returns (raised: bool)
      requires DistinctKeys(entries)
      modifies this
      ensures raised == (max <= 0) && entries == Evicted(old(entries), max, now)
    {
      var dead := CollectDead(now);
      EraseEachDead(entries, now);
      EraseAll(dead);
      raised := Trim();
    }

    /** The first loop of `_evict`: the expired keys. */
    method EraseAll(keys: seq<string>)
      modifies this
      ensures entries == EraseEach(old(entries), keys)
    {
      assert keys[0..] == keys;
      for i := 0 to |keys|
        invariant EraseEach(entries, keys[i..]) == EraseEach(old(entries), keys)
      {
        assert keys[i..][1..] == keys[i + 1..];
        entries := Erase(entries, keys[i]);
      }
    }

    /** The second loop of `_evict`: the oldest insertions; there may be none left to delete. */
    method Trim() returns (raised: bool)
      modifies this
      ensures raised == (max <= 0) && entries == Trimmed(old(entries), max)
    {
      ghost var cut := 0;
      while |entries| >= max
        invariant cut <= |old(entries)| && entries == old(entries)[cut..]
        invariant cut > 0 ==> |entries| >= max - 1
      {
        if entries == [] { return true; }
        entries := entries[1..];
        cut := cut + 1;
      }
      raised := false;
    }
  }

  function DeadKeys<U>(es: seq<Entry<U>>, now: real): seq<string> {
    if es == [] then [] else (if es[0].expires <= now then [es[0].key] else []) + DeadKeys(es[1..], now)
  }

  function EraseEach<U>(es: seq<Entry<U>>, keys: seq<string>): seq<Entry<U>>
    decreases |keys|
  {
    if keys == [] then es else EraseEach(Erase(es, keys[0]), keys[1..])
  }

  lemma {:induction false} DeadKeysIn<U>(es: seq<Entry<U>>, now: real, key: string)
    ensures key in DeadKeys(es, now) ==> Find(es, key).Some?
  {
    if es != [] { DeadKeysIn(es[1..], now, key); }
  }

  /** Erasing keys other than the first one leaves the first entry where it is. */
  lemma {:induction false} EraseEachTail<U>(head: Entry<U>, tail: seq<Entry<U>>, keys: seq<string>)
    requires head.key !in keys
    ensures EraseEach([head] + tail, keys) == [head] + EraseEach(tail, keys)
    decreases |keys|
  {
    if keys != [] {
      assert ([head] + tail)[1..] == tail;
      EraseEachTail(head, Erase(tail, keys[0]), keys[1..]);
    }
  }

  /** Deleting every expired key leaves the live entries, in their order. */
  lemma {:induction false} EraseEachDead<U>(es: seq<Entry<U>>, now: real)
    requires DistinctKeys(es)
    ensures EraseEach(es, DeadKeys(es, now)) == Live(es, now)
  {
    if es != [] {
      var dead := DeadKeys(es[1..], now);
      EraseEachDead(es[1..], now);
      if es[0].expires <= now {
        assert ([es[0].key] + dead)[1..] == dead;
      } else {
        DeadKeysIn(es[1..], now, es[0].key);
        assert es == [es[0]] + es[1..] && [] + dead == dead;
        EraseEachTail(es[0], es[1..], dead);
      }
    }
  }

  // ----- runs of calls -----

  datatype Op<U> =
    | GetOp(key: string, now: real)
    | PutOp(key: string, user: U, evictAt: real, now: real)

  function Perform<U>(es: seq<Entry<U>>, ttl: real, max: int, op: Op<U>): seq<Entry<U>> {
    match op
    case GetOp(key, now) => AfterGet(es, key, now)
    case PutOp(key, user, evictAt, now) => AfterPut(es, ttl, max, Entry(key, now + ttl, user), evictAt)
  }

  function Run<U>(es: seq<Entry<U>>, ttl: real, max: int, ops: seq<Op<U>>): seq<Entry<U>> {
    if ops == [] then es else Perform(Run(es, ttl, max, ops[..|ops| - 1]), ttl, max, ops[|ops| - 1])
  }

  /** The timed map that the cache stands for: the latest `put` of each key, while it is younger than the TTL. */
  function Latest<U>(ops: seq<Op<U>>, ttl: real, key: string): Option<Entry<U>> {
    if ops == [] then None
    else
      var op := ops[|ops| - 1];
      if op.PutOp? && op.key == key then Some(Entry(key, op.now + ttl, op.user)) else Latest(ops[..|ops| - 1], ttl, key)
  }

  predicate Bounded<U>(es: seq<Entry<U>>, max: int) {
    DistinctKeys(es) && |es| <= max
  }

  lemma FindTrimmed<U>(es: seq<Entry<U>>, max: int, q: string)
    requires DistinctKeys(es)
    ensures Find(Trimmed(es, max), q).Some? ==> Find(Trimmed(es, max), q) == Find(es, q)
    ensures DistinctKeys(Trimmed(es, max)) && (max >= 1 ==> |Trimmed(es, max)| < max)
  {
    if |es| >= max >= 1 { FindDropped(es, |es| - max + 1, q); }
  }

  lemma FindRoom<U>(es: seq<Entry<U>>, max: int, key: string, now: real, q: string)
    requires Bounded(es, max) && max >= 1
    ensures var r := Room(es, max, key, now);
            && Bounded(r, max) && (Find(r, key).None? ==> |r| < max)
            && (Find(r, q).Some? ==> Find(r, q) == Find(es, q))
  {
    FindLive(es, now, q);
    FindTrimmed(Live(es, now), max, q);
  }

  /** One call keeps the bound, and what it holds afterwards it held before, or has just stored. */
  lemma PerformKeeps<U>(es: seq<Entry<U>>, ttl: real, max: int, op: Op<U>, q: string)
    requires Bounded(es, max) && max >= 1
    ensures var es' := Perform(es, ttl, max, op);
            && Bounded(es', max)
            && (Find(es', q).Some? ==>
                  if op.PutOp? && op.key == q && ttl > 0.0 then Find(es', q).value == Entry(q, op.now + ttl, op.user)
                  else Find(es', q) == Find(es, q))
  {
    match op
    case GetOp(key, now) => FindErased(es, key, q);
    case PutOp(key, user, evictAt, now) =>
      FindRoom(es, max, key, evictAt, q);
      FindRoom(es, max, key, evictAt, key);
      FindStored(Room(es, max, key, evictAt), Entry(key, now + ttl, user), q);
  }

  /**
   * Refinement: from an empty cache, whatever calls are made, the cache holds at most `max`
   * entries, and whatever it holds is the latest `put` of its key.  Without a TTL it stays empty.
   */
  lemma {:induction false} RunIsLatest<U>(ttl: real, max: int, ops: seq<Op<U>>, q: string)
    requires max >= 1
    ensures Bounded(Run([], ttl, max, ops), max)
    ensures Find(Run([], ttl, max, ops), q).Some? ==> Find(Run([], ttl, max, ops), q) == Latest(ops, ttl, q)
    ensures ttl <= 0.0 ==> Run([], ttl, max, ops) == []
  {
    if ops != [] {
      var n := |ops| - 1;
      RunIsLatest(ttl, max, ops[..n], q);
      PerformKeeps(Run([], ttl, max, ops[..n]), ttl, max, ops[n], q);
    }
  }

  /** `get` returns nothing, or the value of the latest `put` of that key, less than one TTL ago. */
  lemma GetIsLatest<U>(ttl: real, max: int, ops: seq<Op<U>>, key: string, now: real)
    requires max >= 1
    ensures var got := Got(Run([], ttl, max, ops), key, now); var put := Latest(ops, ttl, key);
            got.Some? ==> ttl > 0.0 && put.Some? && now < put.value.expires && got.value == put.value.user
  {
    RunIsLatest(ttl, max, ops, key);
  }

  // ----- how long a new key stays -----

  /** Entries inserted after `key`. */
  function Behind<U>(es: seq<Entry<U>>, key: string): nat {
    if es == [] then 0 else if es[0].key == key then |es| - 1 else Behind(es[1..], key)
  }

  lemma {:induction false} BehindErased<U>(es: seq<Entry<U>>, key: string, q: string)
    requires key != q && Find(es, q).Some?
    ensures Behind(Erase(es, key), q) <= Behind(es, q)
  {
    if es[0].key != key {
      assert ([es[0]] + Erase(es[1..], key))[1..] == Erase(es[1..], key);
      if es[0].key == q { EraseShrinks(es[1..], key); } else { BehindErased(es[1..], key, q); }
    }
  }

  lemma {:induction false} EraseShrinks<U>(es: seq<Entry<U>>, key: string)
    ensures |Erase(es, key)| <= |es|
  {
    if es != [] { EraseShrinks(es[1..], key); }
  }

  lemma {:induction false} BehindStored<U>(es: seq<Entry<U>>, e: Entry<U>, q: string)
    requires DistinctKeys(es)
    ensures Find(es, q).Some? ==> Behind(Stored(es, e), q) == Behind(es, q) + if Find(es, e.key).None? then 1 else 0
    ensures Find(es, e.key).None? ==> Behind(Stored(es, e), e.key) == 0
  {
    if es != [] {
      assert ([e] + es[1..])[1..] == es[1..];
      assert ([es[0]] + Stored(es[1..], e))[1..] == Stored(es[1..], e);
      FindStored(es[1..], e, q);
      BehindStored(es[1..], e, q);
    }
  }

  lemma {:induction false} BehindLive<U>(es: seq<Entry<U>>, now: real, q: string)
    requires DistinctKeys(es) && Find(es, q).Some? && Find(es, q).value.expires > now
    ensures Behind(Live(es, now), q) <= Behind(es, q)
  {
    assert ([es[0]] + Live(es[1..], now))[1..] == Live(es[1..], now);
    if es[0].key == q { FindLive(es[1..], now, q); } else { BehindLive(es[1..], now, q); }
  }

  lemma {:induction false} BehindDropped<U>(es: seq<Entry<U>>, n: nat, q: string)
    requires Find(es, q).Some? && n + Behind(es, q) < |es|
    ensures Find(es[n..], q) == Find(es, q) && Behind(es[n..], q) == Behind(es, q)
  {
    if n > 0 {
      assert es[n..] == es[1..][n - 1..];
      BehindDropped(es[1..], n - 1, q);
    } else {
      assert es[0..] == es;
    }
  }

  function Puts<U>(ops: seq<Op<U>>): nat {
    if ops == [] then 0 else Puts(ops[..|ops| - 1]) + if ops[|ops| - 1].PutOp? then 1 else 0
  }

  /** The call happens before `until`, and does not shorten the life of `key`. */
  predicate Before<U>(op: Op<U>, ttl: real, key: string, until: real) {
    && op.now < until && (op.PutOp? ==> op.evictAt < until)
    && (op.PutOp? && op.key == key ==> op.now + ttl >= until)
  }

  /** `key` is held until `until`, with at most `n` entries behind it. */
  predicate Held<U>(es: seq<Entry<U>>, key: string, until: real, n: int) {
    Find(es, key).Some? && Find(es, key).value.expires >= until && Behind(es, key) <= n
  }

  lemma RoomKeeps<U>(es: seq<Entry<U>>, max: int, key: string, now: real, q: string, until: real, n: int)
    requires Bounded(es, max) && Held(es, q, until, n) && n + 1 < max && now < until
    ensures Held(Room(es, max, key, now), q, until, n)
  {
    var live := Live(es, now);
    FindLive(es, now, q);
    BehindLive(es, now, q);
    if |live| >= max { BehindDropped(live, |live| - max + 1, q); }
  }

  lemma PerformHolds<U>(es: seq<Entry<U>>, ttl: real, max: int, op: Op<U>, q: string, until: real, n: int)
    requires Bounded(es, max) && ttl > 0.0 && Before(op, ttl, q, until) && Held(es, q, until, n)
    requires op.PutOp? ==> n + 1 < max
    ensures Held(Perform(es, ttl, max, op), q, until, if op.PutOp? then n + 1 else n)
  {
    match op
    case GetOp(key, now) =>
      if key != q && Find(es, key).Some? {
        BehindErased(es, key, q);
        FindErased(es, key, q);
      }
    case PutOp(key, user, evictAt, now) =>
      RoomKeeps(es, max, key, evictAt, q, until, n);
      FindRoom(es, max, key, evictAt, q);
      var room := Room(es, max, key, evictAt);
      FindStored(room, Entry(key, now + ttl, user), q);
      BehindStored(room, Entry(key, now + ttl, user), q);
  }

  lemma {:induction false} RunHolds<U>(es: seq<Entry<U>>, ttl: real, max: int, ops: seq<Op<U>>, q: string, until: real, n: nat)
    requires Bounded(es, max) && max >= 1 && ttl > 0.0 && Held(es, q, until, n) && n + Puts(ops) < max
    requires forall i | 0 <= i < |ops| :: Before(ops[i], ttl, q, until)
    ensures Held(Run(es, ttl, max, ops), q, until, n + Puts(ops)) && Bounded(Run(es, ttl, max, ops), max)
  {
    if ops != [] {
      var k := |ops| - 1;
      RunHolds(es, ttl, max, ops[..k], q, until, n);
      PerformHolds(Run(es, ttl, max, ops[..k]), ttl, max, ops[k], q, until, n + Puts(ops[..k]));
      PerformKeeps(Run(es, ttl, max, ops[..k]), ttl, max, ops[k], q);
    }
  }

  /** A newly inserted key survives the next `max - 1` puts, until it expires, whatever is read meanwhile. */
  lemma NewKeySurvives<U>(es: seq<Entry<U>>, ttl: real, max: int, e: Entry<U>, evictAt: real, ops: seq<Op<U>>, now: real)
    requires Bounded(es, max) && max >= 1 && ttl > 0.0 && Find(es, e.key).None?
    requires Puts(ops) <= max - 1 && now < e.expires
    requires forall i | 0 <= i < |ops| :: Before(ops[i], ttl, e.key, e.expires)
    ensures Got(Run(AfterPut(es, ttl, max, e, evictAt), ttl, max, ops), e.key, now).Some?
  {
    FindRoom(es, max, e.key, evictAt, e.key);
    var room := Room(es, max, e.key, evictAt);
    FindStored(room, e, e.key);
    BehindStored(room, e, e.key);
    RunHolds(Stored(room, e), ttl, max, ops, e.key, e.expires, 0);
  }

  // ----- and how soon it can go -----

  predicate AllYoung<U>(es: seq<Entry<U>>, until: real) {
    es == [] || (es[0].expires >= until && AllYoung(es[1..], until))
  }

  /** The entry of `q` and those inserted after it live until `until`. */
  predicate YoungFrom<U>(es: seq<Entry<U>>, q: string, until: real) {
    es == [] || (if es[0].key == q then AllYoung(es, until) else YoungFrom(es[1..], q, until))
  }

  lemma {:induction false} AllYoungLives<U>(es: seq<Entry<U>>, now: real, until: real)
    requires AllYoung(es, until) && now < until
    ensures Live(es, now) == es
  {
    if es != [] { AllYoungLives(es[1..], now, until); }
  }

  lemma {:induction false} LiveYoung<U>(es: seq<Entry<U>>, now: real, q: string, until: real)
    requires Find(es, q).Some? && YoungFrom(es, q, until) && now < until
    ensures Find(Live(es, now), q).Some? && YoungFrom(Live(es, now), q, until) && Behind(Live(es, now), q) == Behind(es, q)
  {
    if es[0].key == q {
      AllYoungLives(es, now, until);
    } else {
      assert ([es[0]] + Live(es[1..], now))[1..] == Live(es[1..], now);
      LiveYoung(es[1..], now, q, until);
    }
  }

  lemma {:induction false} AllYoungStored<U>(es: seq<Entry<U>>, e: Entry<U>, until: real)
    requires AllYoung(es, until) && e.expires >= until
    ensures AllYoung(Stored(es, e), until)
  {
    if es != [] {
      assert ([e] + es[1..])[1..] == es[1..];
      assert ([es[0]] + Stored(es[1..], e))[1..] == Stored(es[1..], e);
      AllYoungStored(es[1..], e, until);
    }
  }

  lemma {:induction false} StoredYoung<U>(es: seq<Entry<U>>, e: Entry<U>, q: string, until: real)
    requires YoungFrom(es, q, until) && e.expires >= until && e.key != q && Find(es, e.key).None?
    ensures YoungFrom(Stored(es, e), q, until)
  {
    if es != [] {
      assert ([es[0]] + Stored(es[1..], e))[1..] == Stored(es[1..], e);
      if es[0].key == q { AllYoungStored(es[1..], e, until); } else { StoredYoung(es[1..], e, q, until); }
    }
  }

  /** Dropping from the front keeps `q` as it is, or drops it. */
  lemma {:induction false} DroppedYoung<U>(es: seq<Entry<U>>, n: nat, q: string, until: real)
    requires DistinctKeys(es) && n <= |es| && YoungFrom(es, q, until)
    ensures Find(es[n..], q).Some? ==>
              Find(es, q).Some? && YoungFrom(es[n..], q, until) && Behind(es[n..], q) == Behind(es, q)
  {
    if n > 0 {
      assert es[n..] == es[1..][n - 1..];
      if es[0].key == q { FindDropped(es[1..], n - 1, q); } else { DroppedYoung(es[1..], n - 1, q, until); }
    } else {
      assert es[0..] == es;
    }
  }

  lemma {:induction false} BehindLess<U>(es: seq<Entry<U>>, q: string)
    requires Find(es, q).Some?
    ensures Behind(es, q) < |es|
  {
    if es[0].key != q { BehindLess(es[1..], q); }
  }

  /** `q` is gone, or has at least `n` entries behind it, none of which expires before `until`. */
  predicate Pushed<U>(es: seq<Entry<U>>, q: string, until: real, n: nat) {
    Find(es, q).Some? ==> YoungFrom(es, q, until) && Behind(es, q) >= n
  }

  lemma RoomPushes<U>(es: seq<Entry<U>>, max: int, key: string, now: real, q: string, until: real, n: nat)
    requires Bounded(es, max) && max >= 1 && Pushed(es, q, until, n) && now < until
    ensures Pushed(Room(es, max, key, now), q, until, n)
  {
    var live := Live(es, now);
    FindLive(es, now, q);
    if Find(es, q).Some? {
      LiveYoung(es, now, q, until);
      if |live| >= max { DroppedYoung(live, |live| - max + 1, q, until); }
    } else {
      FindTrimmed(live, max, q);
    }
  }

  /** A put of a key that the cache does not hold puts one more entry behind every other one. */
  lemma PutPushes<U>(es: seq<Entry<U>>, ttl: real, max: int, e: Entry<U>, evictAt: real, q: string, until: real, n: nat)
    requires Bounded(es, max) && max >= 1 && ttl > 0.0 && Pushed(es, q, until, n) && evictAt < until
    requires e.key != q && e.expires >= until && Find(es, e.key).None?
    ensures Pushed(AfterPut(es, ttl, max, e, evictAt), q, until, n + 1)
  {
    var room := Room(es, max, e.key, evictAt);
    RoomPushes(es, max, e.key, evictAt, q, until, n);
    FindRoom(es, max, e.key, evictAt, e.key);
    FindRoom(es, max, e.key, evictAt, q);
    FindStored(room, e, q);
    if Find(room, q).Some? {
      BehindStored(room, e, q);
      StoredYoung(room, e, q, until);
    }
  }

  /** Puts of keys that differ from each other and from those of `es`, made and expiring around `until`. */
  predicate FreshPuts<U>(es: seq<Entry<U>>, ttl: real, ops: seq<Op<U>>, until: real) {
    && (forall i | 0 <= i < |ops| ::
          && ops[i].PutOp? && Find(es, ops[i].key).None?
          && ops[i].evictAt < until <= ops[i].now + ttl)
    && (forall i, k | 0 <= i < k < |ops| :: ops[i].key != ops[k].key)
  }

  lemma {:induction false} StaysAbsent<U>(es: seq<Entry<U>>, ttl: real, max: int, ops: seq<Op<U>>, q: string)
    requires Bounded(es, max) && max >= 1 && Find(es, q).None?
    requires forall i | 0 <= i < |ops| :: ops[i].PutOp? ==> ops[i].key != q
    ensures Bounded(Run(es, ttl, max, ops), max) && Find(Run(es, ttl, max, ops), q).None?
  {
    if ops != [] {
      var k := |ops| - 1;
      StaysAbsent(es, ttl, max, ops[..k], q);
      PerformKeeps(Run(es, ttl, max, ops[..k]), ttl, max, ops[k], q);
    }
  }

  lemma {:induction false} RunPushes<U>(es: seq<Entry<U>>, ttl: real, max: int, ops: seq<Op<U>>, q: string, until: real)
    requires Bounded(es, max) && max >= 1 && ttl > 0.0 && Find(es, q).Some? && YoungFrom(es, q, until)
    requires FreshPuts(es, ttl, ops, until)
    ensures Bounded(Run(es, ttl, max, ops), max) && Pushed(Run(es, ttl, max, ops), q, until, |ops|)
  {
    if ops != [] {
      var k := |ops| - 1;
      var es' := Run(es, ttl, max, ops[..k]);
      RunPushes(es, ttl, max, ops[..k], q, until);
      StaysAbsent(es, ttl, max, ops[..k], ops[k].key);
      PutPushes(es', ttl, max, Entry(ops[k].key, ops[k].now + ttl, ops[k].user), ops[k].evictAt, q, until, k);
      PerformKeeps(es', ttl, max, ops[k], q);
    }
  }

  lemma {:induction false} NewestYoung<U>(es: seq<Entry<U>>, e: Entry<U>, until: real)
    requires Find(es, e.key).None? && e.expires >= until
    ensures YoungFrom(Stored(es, e), e.key, until)
  {
    if es != [] {
      assert ([es[0]] + Stored(es[1..], e))[1..] == Stored(es[1..], e);
      NewestYoung(es[1..], e, until);
    }
  }

  /**
   * One put more than `NewKeySurvives` allows is too many: after `max` puts of fresh keys, with nothing
   * that was stored since expired, the key is gone, although it has not expired either.
   */
  lemma NewKeyDropped<U>(es: seq<Entry<U>>, ttl: real, max: int, e: Entry<U>, evictAt: real, ops: seq<Op<U>>, until: real, now: real)
    requires Bounded(es, max) && max >= 1 && ttl > 0.0 && Find(es, e.key).None? && e.expires >= until
    requires |ops| == max && FreshPuts(AfterPut(es, ttl, max, e, evictAt), ttl, ops, until)
    ensures Got(Run(AfterPut(es, ttl, max, e, evictAt), ttl, max, ops), e.key, now).None?
  {
    FindRoom(es, max, e.key, evictAt, e.key);
    var room := Room(es, max, e.key, evictAt);
    FindStored(room, e, e.key);
    NewestYoung(room, e, until);
    var es1 := AfterPut(es, ttl, max, e, evictAt);
    RunPushes(es1, ttl, max, ops, e.key, until);
    var end := Run(es1, ttl, max, ops);
    if Find(end, e.key).Some? { BehindLess(end, e.key); }
  }

  // ----- exactly what a put evicts -----

  lemma {:induction false} DroppedGone<U>(es: seq<Entry<U>>, n: nat, q: string)
    requires DistinctKeys(es) && n <= |es| && (Find(es, q).Some? ==> n + Behind(es, q) >= |es|)
    ensures Find(es[n..], q).None?
  {
    if n > 0 {
      assert es[n..] == es[1..][n - 1..];
      if es[0].key == q { FindDropped(es[1..], n - 1, q); } else { DroppedGone(es[1..], n - 1, q); }
    } else {
      if Find(es, q).Some? { BehindLess(es, q); }
      assert es[0..] == es;
    }
  }

  /** The entry stays when the key is known or there is room, else if it is live and among the newest `max - 1` live ones. */
  predicate Kept<U>(es: seq<Entry<U>>, max: int, key: string, evictAt: real, q: string) {
    Find(es, key).Some? || |es| < max
    || (Find(Live(es, evictAt), q).Some? && (|Live(es, evictAt)| < max || Behind(Live(es, evictAt), q) < max - 1))
  }

  /** A put stores its entry, and every other key keeps what it has or is evicted, exactly as `Kept` says. */
  lemma PutExactly<U>(es: seq<Entry<U>>, ttl: real, max: int, e: Entry<U>, evictAt: real, q: string)
    requires Bounded(es, max) && max >= 1 && ttl > 0.0
    ensures var es' := AfterPut(es, ttl, max, e, evictAt);
            Find(es', q) == if q == e.key then Some(e) else if Kept(es, max, e.key, evictAt, q) then Find(es, q) else None
  {
    FindRoom(es, max, e.key, evictAt, e.key);
    FindStored(Room(es, max, e.key, evictAt), e, q);
    if Find(es, e.key).None? && |es| >= max {
      var live := Live(es, evictAt);
      FindLive(es, evictAt, q);
      if |live| >= max {
        var n := |live| - max + 1;
        if Find(live, q).Some? && Behind(live, q) < max - 1 { BehindDropped(live, n, q); } else { DroppedGone(live, n, q); }
      }
    }
  }
}
