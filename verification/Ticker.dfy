/** app/ticker/runner.py and app/retry.py as loops over the two stores, proved to compute the sweeps. */
module Ticker {
  import opened Jobs
  import opened Queue
  import opened Retry
  import opened Order
  import opened Sweeps
  import opened Backend

  /** The Redis write of a handoff, then mark_synced. */
  method HandOffJob(db: Database, redis: Redis, j: JobId, t: Target)
    modifies db, redis
    ensures Snapshot(db, redis) == HandOff(old(Snapshot(db, redis)), j, t)
  {
    match t {
      case ToStream(p) => redis.Add(p, Some(j));
      case ToDelayed(score) => redis.Schedule(j, score);
    }
    var _ := db.Execute(MarkSynced, j);
  }

  /** Retry with backoff, or fail at the limit; true iff this caller won the guarded transition. */
  method ScheduleRetryOrFail(db: Database, redis: Redis, cfg: Config, now: Time, j: JobId, snap: Row, error: Json)
      returns (won: bool)
    requires cfg.schedule != []
    modifies db, redis
    ensures !Decide(cfg, snap).IndexError?
    ensures Snapshot(db, redis) == RetryOrFail(cfg, old(Snapshot(db, redis)), now, j, snap, error)
    ensures won == Wins(DecisionUpdate(Decide(cfg, snap), now, error), old(db.rows), j)
    ensures won <==> j in old(db.rows) && old(db.rows)[j].status == Processing
    ensures won ==>
              && j in db.rows && db.rows == old(db.rows)[j := db.rows[j]] && redis.pel == old(redis.pel)
              && RetriedOrFailed(cfg, snap, old(db.rows)[j], db.rows[j], now, error)
              && RetrySent(cfg, snap, old(Snapshot(db, redis)), Snapshot(db, redis), now, j)
    ensures !won ==> Snapshot(db, redis) == old(Snapshot(db, redis))
  {
    Decides(cfg, snap);
    RetryColumns(cfg, Snapshot(db, redis), now, j, snap, error);
    var n := snap.attempts + 1;
    if n >= snap.maxAttempts {
      won := db.Execute(Fail(now, error), j);
      return;
    }
    var delay := BackoffDelay(n, cfg.schedule).value;
    if delay <= 0 {
      won := db.Execute(RetryToPending, j);
      if won { HandOffJob(db, redis, j, ToStream(snap.priority)); }
    } else {
      won := db.Execute(RetryToScheduled(now + delay), j);
      if won { HandOffJob(db, redis, j, ToDelayed(now + delay)); }
    }
  }

  /** `_reap_one`. */
  method ReapJob(db: Database, redis: Redis, cfg: Config, now: Time, m: Msg, j: JobId)
    requires cfg.schedule != [] && EntryAt(redis.streams, m) == Some(j)
    modifies db, redis
    ensures Snapshot(db, redis) == ReapOne(cfg, old(Snapshot(db, redis)), now, m)
  {
    if j in db.rows {
      var job := db.rows[j];
      Decides(cfg, job);
      if job.status == Processing {
        var _ := ScheduleRetryOrFail(db, redis, cfg, now, j, job, "WorkerLost");
      } else if !Terminal(job.status) && !job.synced {
        if job.status == Scheduled && job.scheduledAt.Some? {
          HandOffJob(db, redis, j, ToDelayed(job.scheduledAt.value));
        } else {
          HandOffJob(db, redis, j, ToStream(job.priority));
        }
      }
    }
    redis.Ack(m);
  }

  // ----- the reaper's sweep -----

  lemma RefreshAcked(pel: map<Msg, Lease>, ms: seq<Msg>, lease: Lease)
    ensures Refresh(pel, ms, lease) - Elems(ms) == pel - Elems(ms)
  {
  }

  /** One more entry of a claimed batch: the rest of the batch keeps its fresh leases. */
  lemma BatchStep(cfg: Config, s: Store, now: Time, ms: seq<Msg>, k: nat, pel: map<Msg, Lease>)
    requires cfg.schedule != [] && k < |ms|
    ensures ReapEach(cfg, s, now, ms[..k + 1]).(pel := pel - Elems(ms[..k + 1]))
         == ReapOne(cfg, ReapEach(cfg, s, now, ms[..k]).(pel := pel - Elems(ms[..k])), now, ms[k])
  {
    assert ms[..k + 1] == ms[..k] + [ms[k]];
    var s1 := ReapEach(cfg, s, now, ms[..k]);
    ReapEachAppends(cfg, s, now, ms[..k], [ms[k]]);
    assert ReapEach(cfg, s1, now, [ms[k]]) == ReapOne(cfg, s1, now, ms[k]);
    ReapOneIgnoresPel(cfg, s1, now, ms[k], pel - Elems(ms[..k]));
    assert Elems(ms[..k + 1]) == Elems(ms[..k]) + {ms[k]};
    assert pel - Elems(ms[..k]) - {ms[k]} == pel - Elems(ms[..k + 1]);
  }

  /** A batch that XAUTOCLAIM returned: poison entries are acked, the others reaped. */
  method ReapBatch(db: Database, redis: Redis, cfg: Config, now: Time, ms: seq<Msg>, ghost s: Store)
    requires cfg.schedule != []
    requires Snapshot(db, redis) == s.(pel := Refresh(s.pel, ms, Lease(Reaper, now)))
    modifies db, redis
    ensures Snapshot(db, redis) == ReapEach(cfg, s, now, ms)
  {
    var k := 0;
    ghost var pel := redis.pel;
    assert pel - Elems(ms[..0]) == pel;
    while k < |ms|
      invariant k <= |ms|
      invariant Snapshot(db, redis) == ReapEach(cfg, s, now, ms[..k]).(pel := pel - Elems(ms[..k]))
    {
      BatchStep(cfg, s, now, ms, k, pel);
      var entry := EntryAt(redis.streams, ms[k]);
      if entry.None? {
        redis.Ack(ms[k]);
      } else {
        ReapJob(db, redis, cfg, now, ms[k], entry.value);
      }
      k := k + 1;
    }
    assert ms[..k] == ms;
    RefreshAcked(s.pel, ms, Lease(Reaper, now));
    ReapEachAcks(cfg, s, now, ms);
  }

  lemma ReapOneKeepsCursors(cfg: Config, st: Store, now: Time, m: Msg, p: Priority)
    requires cfg.schedule != []
    ensures ReapOne(cfg, st, now, m).streams[p].next == st.streams[p].next
  {
    var e := EntryAt(st.streams, m);
    if e.Some? && e.value in st.rows { Decides(cfg, st.rows[e.value]); }
  }

  /** Handling entries moves no cursor. */
  lemma {:induction false} ReapEachKeepsCursors(cfg: Config, st: Store, now: Time, ms: seq<Msg>, p: Priority)
    requires cfg.schedule != []
    ensures ReapEach(cfg, st, now, ms).streams[p].next == st.streams[p].next
    decreases |ms|
  {
    if ms != [] {
      ReapOneKeepsCursors(cfg, st, now, ms[0], p);
      ReapEachKeepsCursors(cfg, ReapOne(cfg, st, now, ms[0]), now, ms[1..], p);
    }
  }

  /** What is left to scan of the stream after the ids below `mid` were swept. */
  lemma SweptPrefix(cfg: Config, st: Store, now: Time, p: Priority, mid: nat, hi: nat)
    requires cfg.schedule != [] && mid <= hi
    ensures var done := StaleFrom(st.pel, p, 0, mid, now, cfg.visibility);
            StaleFrom(ReapEach(cfg, st, now, done).pel, p, mid, hi, now, cfg.visibility)
              == StaleFrom(st.pel, p, mid, hi, now, cfg.visibility)
  {
    var done := StaleFrom(st.pel, p, 0, mid, now, cfg.visibility);
    ReapEachAcks(cfg, st, now, done);
    StaleFromExact(st.pel, p, 0, mid, now, cfg.visibility);
    StaleFromAgrees(ReapEach(cfg, st, now, done).pel, st.pel, p, mid, hi, now, cfg.visibility);
  }

  /** The XAUTOCLAIM cursor loop of one stream. */
  method ReapStream(db: Database, redis: Redis, cfg: Config, now: Time, p: Priority) returns (handled: nat)
    requires cfg.schedule != [] && cfg.reaperBatch >= 1
    modifies db, redis
    ensures var work := StaleFrom(old(redis.pel), p, 0, old(redis.streams)[p].next, now, cfg.visibility);
            Snapshot(db, redis) == ReapEach(cfg, old(Snapshot(db, redis)), now, work) && handled == |work|
  {
    ghost var st := Snapshot(db, redis);
    ghost var hi := redis.streams[p].next;
    var start, more := 0, true;
    handled := 0;
    while more
      invariant start <= hi
      invariant var done := StaleFrom(st.pel, p, 0, if more then start else hi, now, cfg.visibility);
                Snapshot(db, redis) == ReapEach(cfg, st, now, done) && handled == |done|
      invariant redis.streams[p].next == hi
      decreases more, hi - start
    {
      ghost var done := StaleFrom(st.pel, p, 0, start, now, cfg.visibility);
      ghost var s := Snapshot(db, redis);
      var cursor, messages := redis.AutoClaim(p, now, cfg.visibility, start, cfg.reaperBatch);
      ghost var end := if cursor.Some? then cursor.value else hi;
      SweptPrefix(cfg, st, now, p, start, end);
      StaleFromSplit(st.pel, p, 0, start, end, now, cfg.visibility);
      ReapBatch(db, redis, cfg, now, messages, s);
      ReapEachAppends(cfg, st, now, done, messages);
      ReapEachKeepsCursors(cfg, s, now, messages, p);
      handled := handled + |messages|;
      if cursor.None? {
        more := false;
      } else {
        start := cursor.value;
      }
    }
  }

  /** Sweeping one stream leaves the work of another stream as it was. */
  lemma OtherStreamWaits(cfg: Config, st: Store, now: Time, ms: seq<Msg>, p: Priority)
    requires cfg.schedule != [] && forall m | m in ms :: m.prio != p
    ensures var st1 := ReapEach(cfg, st, now, ms);
            StaleFrom(st1.pel, p, 0, st1.streams[p].next, now, cfg.visibility)
              == StaleFrom(st.pel, p, 0, st.streams[p].next, now, cfg.visibility)
  {
    ReapEachAcks(cfg, st, now, ms);
    ReapEachKeepsCursors(cfg, st, now, ms, p);
    StaleFromAgrees(ReapEach(cfg, st, now, ms).pel, st.pel, p, 0, st.streams[p].next, now, cfg.visibility);
  }

  /**
   * `reap_stale`: every entry idle for the visibility timeout, of every stream, is handled
   * and acknowledged exactly once, poison and row-less entries included, and every younger
   * entry keeps its lease.
   */
  method ReapStale(db: Database, redis: Redis, cfg: Config, now: Time) returns (handled: nat)
    requires cfg.schedule != [] && cfg.reaperBatch >= 1
    modifies db, redis
    ensures var work := StaleMsgs(old(Snapshot(db, redis)), now, cfg.visibility);
            && Snapshot(db, redis) == ReapEach(cfg, old(Snapshot(db, redis)), now, work)
            && handled == |work| && redis.pel == old(redis.pel) - Elems(work)
    ensures StreamsOk(old(Snapshot(db, redis))) ==>
              OnlyStaleReaped(old(Snapshot(db, redis)), Snapshot(db, redis), now, cfg.visibility)
  {
    ghost var st := Snapshot(db, redis);
    ghost var a := StaleFrom(st.pel, High, 0, st.streams[High].next, now, cfg.visibility);
    ghost var b := StaleFrom(st.pel, Normal, 0, st.streams[Normal].next, now, cfg.visibility);
    ghost var c := StaleFrom(st.pel, Low, 0, st.streams[Low].next, now, cfg.visibility);
    StaleFromExact(st.pel, High, 0, st.streams[High].next, now, cfg.visibility);
    StaleFromExact(st.pel, Normal, 0, st.streams[Normal].next, now, cfg.visibility);
    var n1 := ReapStream(db, redis, cfg, now, High);
    OtherStreamWaits(cfg, st, now, a, Normal);
    var n2 := ReapStream(db, redis, cfg, now, Normal);
    ReapEachAppends(cfg, st, now, a, b);
    OtherStreamWaits(cfg, st, now, a + b, Low);
    var n3 := ReapStream(db, redis, cfg, now, Low);
    ReapEachAppends(cfg, st, now, a + b, c);
    handled := n1 + n2 + n3;
    ReapEachAcks(cfg, st, now, a + b + c);
    if StreamsOk(st) { ReapColumns(cfg, st, now); }
  }

  // ----- the reconciler's pass -----

  /** After the first `n` orphans were handed off, the rest of the list is what a new query returns. */
  lemma OrphansRest(st: Store, cutoff: Time, n: nat)
    requires n <= |Orphans(st.rows, cutoff)|
    ensures Orphans(HandOffEach(st, Orphans(st.rows, cutoff)[..n]).rows, cutoff) == Orphans(st.rows, cutoff)[n..]
  {
    var ids := Orphans(st.rows, cutoff);
    var st' := HandOffEach(st, ids[..n]);
    OrphansExact(st.rows, cutoff);
    HandOffEachRows(st, ids[..n]);
    OrphanKeysRest(st.rows, st'.rows, cutoff, ids[..n]);
    IdsRest(OrphanKeys(st.rows, cutoff), OrphanKeys(st'.rows, cutoff), n);
  }

  lemma OrphanKeysRest(rows: Table, rows': Table, cutoff: Time, done: seq<JobId>)
    requires rows'.Keys == rows.Keys
    requires forall j | j in rows :: rows'[j] == if j in done then rows[j].(synced := true) else rows[j]
    ensures OnePerId(OrphanKeys(rows, cutoff))
    ensures forall k :: k in OrphanKeys(rows', cutoff) <==> k in OrphanKeys(rows, cutoff) && k.id !in done
  {
    forall k
      ensures k in OrphanKeys(rows', cutoff) <==> k in OrphanKeys(rows, cutoff) && k.id !in done
    {
      if k in OrphanKeys(rows, cutoff) && k.id !in done { assert k == Key(rows'[k.id].createdAt, k.id); }
    }
  }

  /** One page of the pass; a scheduled row without a due time would be skipped. */
  method HandOffPage(db: Database, redis: Redis, page: seq<JobId>) returns (total: nat)
    requires forall j | j in page :: j in db.rows && !Skipped(db.rows[j])
    modifies db, redis
    ensures Snapshot(db, redis) == HandOffEach(old(Snapshot(db, redis)), page) && total == |page|
  {
    ghost var st := Snapshot(db, redis);
    var rows := db.rows;
    total := 0;
    var i := 0;
    while i < |page|
      invariant i <= |page| && total == i
      invariant Snapshot(db, redis) == HandOffEach(st, page[..i])
    {
      var job := rows[page[i]];
      HandOffEachRows(st, page[..i]);
      assert RowTarget(db.rows[page[i]]) == RowTarget(job);
      assert page[..i + 1] == page[..i] + [page[i]];
      HandOffEachAppends(st, page[..i], [page[i]]);
      if job.status == Scheduled {
        if job.scheduledAt.Some? {
          HandOffJob(db, redis, page[i], ToDelayed(job.scheduledAt.value));
          total := total + 1;
        }
      } else {
        HandOffJob(db, redis, page[i], ToStream(job.priority));
        total := total + 1;
      }
      i := i + 1;
    }
    assert page[..i] == page;
  }

  lemma PassExtends(st: Store, work: seq<JobId>, done: nat, limit: nat)
    requires done <= |work|
    ensures var page := Prefix(work[done..], limit);
            && done + |page| <= |work| && (|page| < limit || (|page| == 0 && limit > 0) ==> done + |page| == |work|)
            && HandOffEach(HandOffEach(st, work[..done]), page) == HandOffEach(st, work[..done + |page|])
  {
    var page := Prefix(work[done..], limit);
    NextPage(work, done, limit);
    HandOffEachAppends(st, work[..done], page);
  }

  /** No row that the pass leaves is one that it would skip. */
  lemma PassSkipsNone(st: Store, ids: seq<JobId>)
    requires (forall j | j in ids :: j in st.rows) && (forall j | j in st.rows :: !Skipped(st.rows[j]))
    ensures forall j | j in HandOffEach(st, ids).rows :: !Skipped(HandOffEach(st, ids).rows[j])
  {
    HandOffEachRows(st, ids);
  }

  /** One round of the paging loop: query, then hand off what it returned. */
  method ReconcilePage(db: Database, redis: Redis, cutoff: Time, limit: nat) returns (n: nat)
    requires forall j | j in db.rows :: !Skipped(db.rows[j])
    modifies db, redis
    ensures var page := Prefix(Orphans(old(db.rows), cutoff), limit);
            n == |page| && Snapshot(db, redis) == HandOffEach(old(Snapshot(db, redis)), page)
  {
    OrphansExact(db.rows, cutoff);
    var page := db.ListUnsynced(cutoff, limit);
    assert forall j | j in page :: j in Orphans(db.rows, cutoff);
    n := HandOffPage(db, redis, page);
  }

  /** The state after `done` orphans, as the loop sees it. */
  ghost predicate PassAt(st: Store, cutoff: Time, work: seq<JobId>, done: nat, cur: Store) {
    && done <= |work| && cur == HandOffEach(st, work[..done])
    && Orphans(cur.rows, cutoff) == work[done..]
    && forall j | j in cur.rows :: !Skipped(cur.rows[j])
  }

  lemma PassSteps(st: Store, cutoff: Time, work: seq<JobId>, done: nat, limit: nat, cur: Store, cur': Store)
    requires work == Orphans(st.rows, cutoff) && forall j | j in st.rows :: !Skipped(st.rows[j])
    requires PassAt(st, cutoff, work, done, cur) && cur' == HandOffEach(cur, Prefix(work[done..], limit))
    ensures PassAt(st, cutoff, work, done + |Prefix(work[done..], limit)|, cur')
  {
    PassExtends(st, work, done, limit);
    PassReaches(st, cutoff, work, done + |Prefix(work[done..], limit)|);
  }

  lemma PassReaches(st: Store, cutoff: Time, work: seq<JobId>, done: nat)
    requires work == Orphans(st.rows, cutoff) && done <= |work| && forall j | j in st.rows :: !Skipped(st.rows[j])
    ensures PassAt(st, cutoff, work, done, HandOffEach(st, work[..done]))
  {
    OrphansRest(st, cutoff, done);
    OrphansExact(st.rows, cutoff);
    assert forall j | j in work[..done] :: j in work;
    PassSkipsNone(st, work[..done]);
  }

  method ReconcileRound(db: Database, redis: Redis, cutoff: Time, limit: nat, ghost st: Store, ghost work: seq<JobId>,
                        ghost done: nat) returns (n: nat)
    requires work == Orphans(st.rows, cutoff) && (forall j | j in st.rows :: !Skipped(st.rows[j]))
    requires PassAt(st, cutoff, work, done, Snapshot(db, redis))
    modifies db, redis
    ensures PassAt(st, cutoff, work, done + n, Snapshot(db, redis))
    ensures n <= limit && (n < limit ==> done + n == |work|)
  {
    ghost var cur := Snapshot(db, redis);
    NextPage(work, done, limit);
    n := ReconcilePage(db, redis, cutoff, limit);
    PassSteps(st, cutoff, work, done, limit, cur, Snapshot(db, redis));
  }

  lemma PassBegins(st: Store, cutoff: Time, work: seq<JobId>)
    requires work == Orphans(st.rows, cutoff) && forall j | j in st.rows :: !Skipped(st.rows[j])
    ensures PassAt(st, cutoff, work, 0, st)
  {
    PassReaches(st, cutoff, work, 0);
    assert work[..0] == [];
  }

  lemma PassEnds(st: Store, cutoff: Time, work: seq<JobId>, done: nat, cur: Store)
    requires PassAt(st, cutoff, work, done, cur)
    ensures done == 0 ==> cur == st
    ensures done == |work| ==> cur == HandOffEach(st, work)
  {
    if done == |work| { assert work[..done] == work; }
  }

  /** The paging loop: a page that is not full is the last. */
  method ReconcileLoop(db: Database, redis: Redis, cutoff: Time, limit: nat) returns (total: nat)
    requires forall j | j in db.rows :: !Skipped(db.rows[j])
    modifies db, redis
    ensures limit == 0 ==> Snapshot(db, redis) == old(Snapshot(db, redis)) && total == 0
    ensures limit != 0 ==>
              var work := Orphans(old(db.rows), cutoff);
              Snapshot(db, redis) == HandOffEach(old(Snapshot(db, redis)), work) && total == |work|
  {
    ghost var st := Snapshot(db, redis);
    ghost var work := Orphans(st.rows, cutoff);
    PassBegins(st, cutoff, work);
    total := 0;
    var more := true;
    while more
      invariant PassAt(st, cutoff, work, total, Snapshot(db, redis))
      invariant if limit == 0 then total == 0 else !more ==> total == |work|
      decreases more, |work| - total
    {
      var n := ReconcileRound(db, redis, cutoff, limit, st, work, total);
      total := total + n;
      if n == 0 || n < limit { more := false; }
    }
    PassEnds(st, cutoff, work, total, Snapshot(db, redis));
  }

  /**
   * `reconcile_orphans`: with scheduled rows carrying a due time, as every reachable row
   * does, the paging loop ends and hands off exactly the orphans, oldest first, once each.
   */
  method ReconcileOrphans(db: Database, redis: Redis, cfg: Config, now: Time) returns (total: nat)
    requires forall j | j in db.rows :: !Skipped(db.rows[j])
    modifies db, redis
    ensures if cfg.reconcileBatch == 0 then Snapshot(db, redis) == old(Snapshot(db, redis)) && total == 0
            else && Snapshot(db, redis) == Reconcile(cfg, old(Snapshot(db, redis)), now)
                 && total == |Orphans(old(db.rows), now - cfg.grace)|
    ensures cfg.reconcileBatch != 0 ==> OnlyOrphansMoved(old(Snapshot(db, redis)), Snapshot(db, redis), now - cfg.grace)
  {
    ghost var st := Snapshot(db, redis);
    total := ReconcileLoop(db, redis, now - cfg.grace, cfg.reconcileBatch);
    if cfg.reconcileBatch != 0 {
      ghost var end := Reconcile(cfg, st, now);
      ReconcileColumns(cfg, st, now);
      assert Snapshot(db, redis) == end;
    }
  }

  // ----- the promoter -----

  lemma PushFrame(streams: Streams, rows: Table, rows': Table, ids: seq<JobId>)
    requires rows'.Keys == rows.Keys && forall j | j in rows :: rows'[j].priority == rows[j].priority
    ensures PushEach(streams, rows', ids) == PushEach(streams, rows, ids)
    decreases |ids|
  {
    if ids != [] {
      PushFrame(if ids[0] in rows then XAdd(streams, rows[ids[0]].priority, Some(ids[0])) else streams, rows, rows', ids[1..]);
    }
  }

  lemma {:induction false} PushAppends(streams: Streams, rows: Table, a: seq<JobId>, b: seq<JobId>)
    ensures PushEach(streams, rows, a + b) == PushEach(PushEach(streams, rows, a), rows, b)
    decreases |a|
  {
    if a == [] {
      assert a + b == b;
    } else {
      assert (a + b)[0] == a[0] && (a + b)[1..] == a[1..] + b;
      PushAppends(if a[0] in rows then XAdd(streams, rows[a[0]].priority, Some(a[0])) else streams, rows, a[1..], b);
    }
  }

  lemma PromoteAppends(st: Store, a: seq<JobId>, b: seq<JobId>)
    ensures PromoteEach(st, a + b) == PromoteEach(PromoteEach(st, a), b)
  {
    var st1 := PromoteEach(st, a);
    PushAppends(st.streams, st.rows, a, b);
    PushFrame(st1.streams, st.rows, st1.rows, b);
    assert Elems(a + b) == Elems(a) + Elems(b);
    assert st.zset - Elems(a + b) == st1.zset - Elems(b);
    PromoteRowsTwice(st.rows, Elems(a), Elems(b));
  }

  lemma PromoteRowsTwice(rows: Table, a: set<JobId>, b: set<JobId>)
    ensures PromoteRows(rows, a + b) == PromoteRows(PromoteRows(rows, a), b)
  {
  }

  /** `promote_due`: one batch of due jobs, XADDs before the ZREM, the row update last. */
  method PromoteDue(db: Database, redis: Redis, cfg: Config, now: Time) returns (n: nat)
    modifies db, redis
    ensures var ids := Prefix(DueIds(old(redis.zset), now), cfg.tickerBatch);
            && Snapshot(db, redis) == PromoteEach(old(Snapshot(db, redis)), ids) && n == |ids|
            && db.rows.Keys == old(db.rows).Keys
            && forall j | j in db.rows ::
                 var r := old(db.rows)[j];
                 db.rows[j] == if j in ids && r.status == Scheduled then r.(status := Pending) else r
  {
    var ids := redis.RangeDue(now, cfg.tickerBatch);
    n := |ids|;
    if n == 0 {
      assert redis.zset - Elems(ids) == redis.zset;
      assert PromoteRows(db.rows, Elems(ids)) == db.rows;
      return;
    }
    ghost var streams := redis.streams;
    var i := 0;
    while i < |ids|
      invariant i <= |ids| && db.rows == old(db.rows) && redis.zset == old(redis.zset) && redis.pel == old(redis.pel)
      invariant redis.streams == PushEach(streams, db.rows, ids[..i])
    {
      assert ids[..i + 1] == ids[..i] + [ids[i]];
      PushAppends(streams, db.rows, ids[..i], [ids[i]]);
      if ids[i] in db.rows { redis.Add(db.rows[ids[i]].priority, Some(ids[i])); }
      i := i + 1;
    }
    assert ids[..i] == ids;
    redis.Remove(ids);
    db.PromoteScheduledToPending(ids);
  }

  /** The due list holds exactly the due members, by score, then by member. */
  lemma DueExact(zset: map<JobId, Time>, now: Time)
    ensures forall j :: j in DueIds(zset, now) <==> j in zset && 0 <= zset[j] <= now
    ensures var s := DueIds(zset, now);
            forall i, k | 0 <= i < k < |s| ::
              && s[i] in zset && s[k] in zset
              && (zset[s[i]] < zset[s[k]] || (zset[s[i]] == zset[s[k]] && s[i] < s[k]))
  {
    var ks := DueKeys(zset, now);
    var sorted := Sorted(false, ks);
    SortedIds(ks, sorted);
    forall j
      ensures j in Ids(sorted) <==> j in zset && 0 <= zset[j] <= now
    {
      if j in zset && 0 <= zset[j] <= now { assert Key(zset[j], j) in ks; }
      if j in Ids(sorted) {
        var i :| 0 <= i < |sorted| && Ids(sorted)[i] == j;
        assert sorted[i] in ks;
      }
    }
  }

  lemma DueRest(zset: map<JobId, Time>, now: Time, n: nat)
    requires n <= |DueIds(zset, now)|
    ensures DueIds(zset - Elems(DueIds(zset, now)[..n]), now) == DueIds(zset, now)[n..]
  {
    var done := DueIds(zset, now)[..n];
    var rest := zset - Elems(done);
    forall k
      ensures k in DueKeys(rest, now) <==> k in DueKeys(zset, now) && k.id !in done
    {
      if k in DueKeys(zset, now) && k.id !in done { assert k == Key(rest[k.id], k.id); }
    }
    IdsRest(DueKeys(zset, now), DueKeys(rest, now), n);
  }

  /** One more batch at the same clock. */
  method PromoteNext(db: Database, redis: Redis, cfg: Config, now: Time, ghost st: Store, ghost done: nat)
      returns (n: nat)
    requires done <= |DueIds(st.zset, now)| && Snapshot(db, redis) == PromoteEach(st, DueIds(st.zset, now)[..done])
    modifies db, redis
    ensures n == |Prefix(DueIds(st.zset, now)[done..], cfg.tickerBatch)| && done + n <= |DueIds(st.zset, now)|
    ensures Snapshot(db, redis) == PromoteEach(st, DueIds(st.zset, now)[..done + n])
  {
    ghost var ids := DueIds(st.zset, now);
    DueRest(st.zset, now, done);
    NextPage(ids, done, cfg.tickerBatch);
    PromoteAppends(st, ids[..done], Prefix(ids[done..], cfg.tickerBatch));
    n := PromoteDue(db, redis, cfg, now);
  }

  /**
   * The drain rule of `run_forever` at a fixed clock: a full batch is followed by another.
   * It ends, moves every due job exactly once, in score order, and leaves the others.
   */
  method DrainDue(db: Database, redis: Redis, cfg: Config, now: Time) returns (total: nat)
    requires cfg.tickerBatch >= 1
    modifies db, redis
    ensures var ids := DueIds(old(redis.zset), now);
            Snapshot(db, redis) == PromoteEach(old(Snapshot(db, redis)), ids) && total == |ids|
  {
    ghost var st := Snapshot(db, redis);
    ghost var ids := DueIds(st.zset, now);
    total := 0;
    var promoted := cfg.tickerBatch;
    NothingPromoted(st);
    assert ids[..0] == [] && ids[..|ids|] == ids;
    while promoted >= cfg.tickerBatch
      invariant total <= |ids| && (promoted < cfg.tickerBatch ==> total == |ids|)
      invariant Snapshot(db, redis) == PromoteEach(st, ids[..total])
      decreases |ids| - total + (if promoted >= cfg.tickerBatch then 1 else 0)
    {
      promoted := PromoteNext(db, redis, cfg, now, st, total);
      total := total + promoted;
    }
  }

  lemma NothingPromoted(st: Store)
    ensures PromoteEach(st, []) == st
  {
    assert st.zset - Elems([]) == st.zset && PromoteRows(st.rows, Elems([])) == st.rows;
  }
}
