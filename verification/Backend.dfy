/** The two stores as objects: one Postgres table and one Redis server.  No transaction spans them. */
module Backend {
  import opened Jobs
  import opened Queue
  import opened Order
  import opened Sweeps

  class Database {
    var rows: Table

    constructor ()
      ensures rows == map[]
    {
      rows := map[];
    }

    /** One committed UPDATE ... WHERE id = j; tells whether a row matched. */
    method Execute(u: Update, j: JobId) returns (won: bool)
      modifies this
      ensures rows == Commit(u, old(rows), j) && won == Wins(u, old(rows), j)
    {
      won := j in rows && Matches(u, rows[j]);
      if won { rows := rows[j := Apply(u, rows[j])]; }
    }

    /** What other processes commit on one row. */
    method ExecuteEach(j: JobId, us: seq<Update>)
      modifies this
      ensures rows == Later(old(rows), j, us)
    {
      assert us[0..] == us;
      for i := 0 to |us|
        invariant Later(rows, j, us[i..]) == Later(old(rows), j, us)
      {
        assert us[i..][1..] == us[i + 1..];
        var _ := Execute(us[i], j);
      }
    }

    /** The batch UPDATE of the promoter: scheduled rows among `ids` become pending. */
    method PromoteScheduledToPending(ids: seq<JobId>)
      modifies this
      ensures rows == PromoteRows(old(rows), Elems(ids))
      ensures rows.Keys == old(rows).Keys
      ensures forall j | j in rows ::
                rows[j] == if j in ids && old(rows)[j].status == Scheduled then old(rows)[j].(status := Pending) else old(rows)[j]
    {
      var i := 0;
      while i < |ids|
        invariant i <= |ids|
        invariant rows == PromoteRows(old(rows), Elems(ids[..i]))
      {
        assert Elems(ids[..i + 1]) == Elems(ids[..i]) + {ids[i]};
        var won := Execute(PromoteScheduled, ids[i]);
        i := i + 1;
      }
      assert ids[..i] == ids;
      PromoteRowsColumns(old(rows), ids);
    }

    /** INSERT; refused (IntegrityError) when the (owner, key) pair is taken. */
    method Insert(j: JobId, r: Row) returns (ok: bool)
      requires j !in rows
      modifies this
      ensures ok <==> (r.owner.Some? && r.key.Some? ==> ByKey(old(rows), r.owner.value, r.key.value).None?)
      ensures rows == if ok then old(rows)[j := r] else old(rows)
    {
      ok := true;
      if r.owner.Some? && r.key.Some? {
        var found := GetByKey(r.owner.value, r.key.value);
        ok := found.None?;
      }
      if ok { rows := rows[j := r]; }
    }

    /** `get_by_idempotency_key`. */
    method GetByKey(owner: nat, key: string) returns (found: Option<JobId>)
      ensures found.None? <==> ByKey(rows, owner, key).None?
      ensures found.Some? ==> Stores(rows, found.value, owner, key)
    {
      found := None;
      var left := rows.Keys;
      while left != {}
        invariant left <= rows.Keys
        invariant found.Some? ==> Stores(rows, found.value, owner, key)
        invariant found.None? ==> forall j | j in rows && j !in left :: !Stores(rows, j, owner, key)
        decreases |left|
      {
        var j :| j in left;
        left := left - {j};
        if Stores(rows, j, owner, key) { found := Some(j); }
      }
    }

    /** `list_unsynced`: the oldest orphans, at most `limit`. */
    method ListUnsynced(cutoff: Time, limit: nat) returns (ids: seq<JobId>)
      ensures ids == Prefix(Orphans(rows, cutoff), limit)
    {
      ids := Prefix(Orphans(rows, cutoff), limit);
    }
  }

  /** XAUTOCLAIM's effect on the PEL: the claimed entries get a fresh lease. */
  function Refresh(pel: map<Msg, Lease>, ms: seq<Msg>, lease: Lease): map<Msg, Lease> {
    map m | m in pel :: if m in ms then lease else pel[m]
  }

  /** The entries of one stream with ids in `[lo, hi)`, in XADD order. */
  function Range(p: Priority, lo: nat, hi: nat): seq<Msg>
    decreases hi - lo
  {
    if lo >= hi then [] else [Msg(p, lo)] + Range(p, lo + 1, hi)
  }

  lemma {:induction false} RangeSplit(p: Priority, lo: nat, mid: nat, hi: nat)
    requires lo <= mid <= hi
    ensures Range(p, lo, hi) == Range(p, lo, mid) + Range(p, mid, hi) && |Range(p, lo, mid)| == mid - lo
    decreases mid - lo
  {
    if lo < mid {
      var m := [Msg(p, lo)];
      RangeSplit(p, lo + 1, mid, hi);
      calc {
        Range(p, lo, hi);
        m + Range(p, lo + 1, hi);
        m + (Range(p, lo + 1, mid) + Range(p, mid, hi));
        { Assoc(m, Range(p, lo + 1, mid), Range(p, mid, hi)); }
        (m + Range(p, lo + 1, mid)) + Range(p, mid, hi);
        Range(p, lo, mid) + Range(p, mid, hi);
      }
    } else {
      assert [] + Range(p, mid, hi) == Range(p, mid, hi);
    }
  }

  /** What the group has not delivered yet. */
  function Undelivered(streams: Streams, p: Priority): seq<Msg> {
    Range(p, streams[p].next, |streams[p].entries|)
  }

  /** The group's cursor moves past `n` entries. */
  function Advance(streams: Streams, p: Priority, n: nat): Streams {
    streams[p := streams[p].(next := streams[p].next + n)]
  }

  /** The delivered entries join the PEL. */
  function Leased(pel: map<Msg, Lease>, ms: seq<Msg>, lease: Lease): map<Msg, Lease> {
    map m | m in pel.Keys + Elems(ms) :: if m in ms then lease else pel[m]
  }

  lemma AdvanceTwice(streams: Streams, p: Priority, n: nat, k: nat)
    ensures Advance(Advance(streams, p, n), p, k) == Advance(streams, p, n + k)
    ensures Advance(streams, p, 0) == streams
  {
  }

  lemma LeasedOneMore(pel: map<Msg, Lease>, ms: seq<Msg>, m: Msg, lease: Lease)
    ensures Leased(pel, ms + [m], lease) == Leased(pel, ms, lease)[m := lease]
    ensures Leased(pel, [], lease) == pel
  {
    assert Elems(ms + [m]) == Elems(ms) + {m};
  }

  class Redis {
    var streams: Streams
    var pel: map<Msg, Lease>
    var zset: map<JobId, Time>

    constructor ()
      ensures streams == EMPTY_STREAMS && pel == map[] && zset == map[]
    {
      streams, pel, zset := EMPTY_STREAMS, map[], map[];
    }

    method Add(p: Priority, e: Option<JobId>)
      modifies this`streams
      ensures streams == XAdd(old(streams), p, e)
    {
      streams := XAdd(streams, p, e);
    }

    method Ack(m: Msg)
      modifies this`pel
      ensures pel == old(pel) - {m}
    {
      pel := pel - {m};
    }

    method Schedule(j: JobId, score: Time)
      modifies this`zset
      ensures zset == old(zset)[j := score]
    {
      zset := zset[j := score];
    }

    method Remove(ids: seq<JobId>)
      modifies this`zset
      ensures zset == old(zset) - Elems(ids)
    {
      zset := zset - Elems(ids);
    }

    /** ZRANGEBYSCORE 0 now LIMIT 0 limit. */
    method RangeDue(now: Time, limit: nat) returns (ids: seq<JobId>)
      ensures ids == Prefix(DueIds(zset, now), limit)
    {
      ids := Prefix(DueIds(zset, now), limit);
    }

    /** XREADGROUP of one stream with `>`: up to `count` undelivered entries, each now pending. */
    method ReadGroup(p: Priority, c: Consumer, now: Time, count: nat) returns (got: seq<Msg>)
      modifies this`streams, this`pel
      ensures got == Prefix(Undelivered(old(streams), p), count)
      ensures streams == Advance(old(streams), p, |got|)
      ensures pel == Leased(old(pel), got, Lease(c, now))
    {
      ghost var lo, hi := streams[p].next, |streams[p].entries|;
      got := [];
      LeasedOneMore(pel, [], Msg(p, lo), Lease(c, now));
      AdvanceTwice(streams, p, 0, 0);
      while |got| < count && streams[p].next < |streams[p].entries|
        invariant |got| <= count && (lo <= hi ==> lo + |got| <= hi) && (lo > hi ==> got == [])
        invariant streams == Advance(old(streams), p, |got|)
        invariant got == Range(p, lo, lo + |got|)
        invariant pel == Leased(old(pel), got, Lease(c, now))
        decreases count - |got|
      {
        var m := Msg(p, streams[p].next);
        RangeSplit(p, lo, lo + |got|, lo + |got| + 1);
        LeasedOneMore(old(pel), got, m, Lease(c, now));
        AdvanceTwice(old(streams), p, |got|, 1);
        got := got + [m];
        pel := pel[m := Lease(c, now)];
        streams := Advance(streams, p, 1);
      }
      if lo <= hi { RangeSplit(p, lo, lo + |got|, hi); }
    }

    /**
     * XAUTOCLAIM: looks at up to ten times `count` pending entries from `start` on, takes
     * over the stale ones until it has `count`, and returns the next pending id to look at
     * (`None` stands for 0-0: the end was reached).
     */
    method AutoClaim(p: Priority, now: Time, minIdle: nat, start: nat, count: nat)
        returns (cursor: Option<nat>, claimed: seq<Msg>)
      requires count >= 1
      modifies this`pel
      ensures cursor.Some? ==> start < cursor.value < streams[p].next
      ensures claimed == StaleFrom(old(pel), p, start, if cursor.Some? then cursor.value else streams[p].next, now, minIdle)
      ensures |claimed| <= count
      ensures pel == Refresh(old(pel), claimed, Lease(Reaper, now))
      ensures forall m | m in claimed :: m in old(pel) && now - old(pel)[m].since >= minIdle
      ensures forall m | m in old(pel) && m.prio == p && now - old(pel)[m].since >= minIdle ::
                start <= m.id < (if cursor.Some? then cursor.value else streams[p].next) ==> m in claimed
      ensures pel.Keys == old(pel).Keys
      ensures forall m | m in pel :: pel[m] == if m in claimed then Lease(Reaper, now) else old(pel)[m]
    {
      var i: nat;
      i, claimed := Scan(p, now, minIdle, start, count);
      var hi := streams[p].next;
      ghost var from := i;
      while i < hi && Msg(p, i) !in pel
        invariant from <= i && (i <= hi || i == from)
        invariant claimed == StaleFrom(old(pel), p, start, i, now, minIdle)
        invariant pel == Refresh(old(pel), claimed, Lease(Reaper, now))
      {
        StaleFromSplit(old(pel), p, start, i, i + 1, now, minIdle);
        i := i + 1;
      }
      cursor := if i < hi then Some(i) else None;
      StaleFromExact(old(pel), p, start, if cursor.Some? then cursor.value else hi, now, minIdle);
    }

    /** The bounded scan of XAUTOCLAIM; it always gets past `start`. */
    method Scan(p: Priority, now: Time, minIdle: nat, start: nat, count: nat) returns (i: nat, claimed: seq<Msg>)
      requires count >= 1
      modifies this`pel
      ensures start <= i && (start < streams[p].next ==> start < i <= streams[p].next)
      ensures start >= streams[p].next ==> i == start
      ensures claimed == StaleFrom(old(pel), p, start, i, now, minIdle) && |claimed| <= count
      ensures pel == Refresh(old(pel), claimed, Lease(Reaper, now))
    {
      var hi := streams[p].next;
      var looks := 10 * count;
      i, claimed := start, [];
      while i < hi && looks > 0 && |claimed| < count
        invariant start <= i && (start < hi ==> i <= hi) && (start >= hi ==> i == start)
                  && (i == start ==> looks > 0 && claimed == [])
        invariant |claimed| <= count
        invariant claimed == StaleFrom(old(pel), p, start, i, now, minIdle)
        invariant pel == Refresh(old(pel), claimed, Lease(Reaper, now))
      {
        var m := Msg(p, i);
        StaleFromSplit(old(pel), p, start, i, i + 1, now, minIdle);
        StaleFromExact(old(pel), p, start, i, now, minIdle);
        if m in pel {
          looks := looks - 1;
          if now - pel[m].since >= minIdle {
            claimed := claimed + [m];
            pel := pel[m := Lease(Reaper, now)];
          }
        }
        i := i + 1;
      }
    }
  }

  /** The state of both stores. */
  ghost function Snapshot(db: Database, redis: Redis): Store
    reads db, redis
  {
    Store(db.rows, redis.streams, redis.pel, redis.zset)
  }
}
