/**
 * What the ticker's sweeps compute, as functions of the store: the reaper's pass over
 * stale entries, the reconciler's pass over orphans and the promoter's pass over due jobs.
 * The loops themselves are in Ticker.dfy and are proved to compute these functions.
 */
module Sweeps {
  import opened Jobs
  import opened Queue
  import opened Retry
  import opened Order

  // ----- retry or fail -----

  /** `schedule_retry_or_fail`, run to its end. */
  function RetryOrFail(cfg: Config, st: Store, now: Time, j: JobId, snap: Row, error: Json): Store
    requires !Decide(cfg, snap).IndexError?
  {
    var d := Decide(cfg, snap);
    var u := DecisionUpdate(d, now, error);
    if !Wins(u, st.rows, j) then st
    else
      var t := DecisionTarget(d, now, snap.priority);
      if t.None? then OnRow(st, u, j) else HandOff(OnRow(st, u, j), j, t.value)
  }

  /** With a non-empty schedule a decision is always reached. */
  lemma Decides(cfg: Config, snap: Row)
    requires cfg.schedule != []
    ensures !Decide(cfg, snap).IndexError?
  {
    BackoffIsClampedLookup(snap.attempts + 1, cfg.schedule);
  }

  /** What a decision on `snap` makes of a processing row, column by column. */
  predicate RetriedOrFailed(cfg: Config, snap: Row, r: Row, r': Row, now: Time, error: Json) {
    var n := snap.attempts + 1;
    if n >= snap.maxAttempts then
      r' == r.(status := Failed, error := Some(error), completedAt := Some(now), attempts := r.attempts + 1)
    else
      && BackoffDelay(n, cfg.schedule).Some?
      && var delay := BackoffDelay(n, cfg.schedule).value;
         if delay <= 0 then r' == r.(status := Pending, attempts := r.attempts + 1, startedAt := None, synced := true)
         else r' == r.(status := Scheduled, scheduledAt := Some(now + delay), attempts := r.attempts + 1,
                       startedAt := None, synced := true)
  }

  /** One entry for the job at the end of the stream, and nothing else in any stream. */
  ghost predicate Sent(streams: Streams, streams': Streams, p: Priority, j: JobId) {
    forall q: Priority ::
      && streams'[q].next == streams[q].next
      && streams'[q].entries == streams[q].entries + if q == p then [Some(j)] else []
  }

  /** Where Redis is told about it: nowhere after the last attempt, else in the stream or in the delayed set. */
  ghost predicate RetrySent(cfg: Config, snap: Row, st: Store, st': Store, now: Time, j: JobId) {
    var n := snap.attempts + 1;
    if n >= snap.maxAttempts then st'.streams == st.streams && st'.zset == st.zset
    else
      && BackoffDelay(n, cfg.schedule).Some?
      && var delay := BackoffDelay(n, cfg.schedule).value;
         if delay <= 0 then Sent(st.streams, st'.streams, snap.priority, j) && st'.zset == st.zset
         else st'.streams == st.streams && st'.zset == st.zset[j := now + delay]
  }

  /** The whole effect of `schedule_retry_or_fail`, spelled out; a row that is not processing is left alone. */
  lemma RetryColumns(cfg: Config, st: Store, now: Time, j: JobId, snap: Row, error: Json)
    requires cfg.schedule != [] && !Decide(cfg, snap).IndexError?
    ensures var st' := RetryOrFail(cfg, st, now, j, snap, error);
            if j in st.rows && st.rows[j].status == Processing then
              && j in st'.rows && st'.rows == st.rows[j := st'.rows[j]] && st'.pel == st.pel
              && RetriedOrFailed(cfg, snap, st.rows[j], st'.rows[j], now, error)
              && RetrySent(cfg, snap, st, st', now, j)
            else st' == st
  {
    if j in st.rows && st.rows[j].status == Processing {
      RetryRow(cfg, st, now, j, snap, error);
      RetrySends(cfg, st, now, j, snap, error);
    }
  }

  lemma RetryRow(cfg: Config, st: Store, now: Time, j: JobId, snap: Row, error: Json)
    requires cfg.schedule != [] && !Decide(cfg, snap).IndexError? && j in st.rows && st.rows[j].status == Processing
    ensures var st' := RetryOrFail(cfg, st, now, j, snap, error);
            && j in st'.rows && st'.rows == st.rows[j := st'.rows[j]] && st'.pel == st.pel
            && RetriedOrFailed(cfg, snap, st.rows[j], st'.rows[j], now, error)
  {
    BackoffIsClampedLookup(snap.attempts + 1, cfg.schedule);
  }

  lemma RetrySends(cfg: Config, st: Store, now: Time, j: JobId, snap: Row, error: Json)
    requires cfg.schedule != [] && !Decide(cfg, snap).IndexError? && j in st.rows && st.rows[j].status == Processing
    ensures RetrySent(cfg, snap, st, RetryOrFail(cfg, st, now, j, snap, error), now, j)
  {
    BackoffIsClampedLookup(snap.attempts + 1, cfg.schedule);
  }

  // ----- reaper -----

  function EntryAt(streams: Streams, m: Msg): Option<JobId> {
    if HasEntry(streams, m) then EntryOf(streams, m) else None
  }

  /** `_reap_one` up to its XACK. */
  function ReapEffect(cfg: Config, st: Store, now: Time, e: Option<JobId>): Store
    requires cfg.schedule != []
  {
    if e.None? || e.value !in st.rows then st
    else
      var r := st.rows[e.value];
      Decides(cfg, r);
      if r.status == Processing then RetryOrFail(cfg, st, now, e.value, r, "WorkerLost")
      else if Waiting(r.status) && !r.synced then HandOff(st, e.value, RowTarget(r))
      else st
  }

  function ReapOne(cfg: Config, st: Store, now: Time, m: Msg): Store
    requires cfg.schedule != []
  {
    XAck(ReapEffect(cfg, st, now, EntryAt(st.streams, m)), m)
  }

  function ReapEach(cfg: Config, st: Store, now: Time, ms: seq<Msg>): Store
    requires cfg.schedule != []
    decreases |ms|
  {
    if ms == [] then st else ReapEach(cfg, ReapOne(cfg, st, now, ms[0]), now, ms[1..])
  }

  predicate IsStale(pel: map<Msg, Lease>, m: Msg, now: Time, minIdle: nat) {
    m in pel && now - pel[m].since >= minIdle
  }

  /** The stale entries of one stream with ids in `[lo, hi)`, in id order. */
  function StaleFrom(pel: map<Msg, Lease>, p: Priority, lo: nat, hi: nat, now: Time, minIdle: nat): seq<Msg>
    decreases hi - lo
  {
    if lo >= hi then []
    else (if IsStale(pel, Msg(p, lo), now, minIdle) then [Msg(p, lo)] else [])
         + StaleFrom(pel, p, lo + 1, hi, now, minIdle)
  }

  /** All stale entries, stream by stream, high priority first. */
  function StaleMsgs(st: Store, now: Time, minIdle: nat): seq<Msg> {
    StaleFrom(st.pel, High, 0, st.streams[High].next, now, minIdle)
    + StaleFrom(st.pel, Normal, 0, st.streams[Normal].next, now, minIdle)
    + StaleFrom(st.pel, Low, 0, st.streams[Low].next, now, minIdle)
  }

  lemma {:induction false} StaleFromExact(pel: map<Msg, Lease>, p: Priority, lo: nat, hi: nat, now: Time, minIdle: nat)
    ensures var s := StaleFrom(pel, p, lo, hi, now, minIdle);
            && (forall m :: m in s <==> m.prio == p && lo <= m.id < hi && m in pel && now - pel[m].since >= minIdle)
            && (forall i, k | 0 <= i < k < |s| :: s[i].id < s[k].id)
    decreases hi - lo
  {
    if lo < hi { StaleFromExact(pel, p, lo + 1, hi, now, minIdle); }
  }

  lemma {:induction false} StaleFromSplit(pel: map<Msg, Lease>, p: Priority, lo: nat, mid: nat, hi: nat, now: Time, minIdle: nat)
    requires lo <= mid <= hi
    ensures StaleFrom(pel, p, lo, hi, now, minIdle)
         == StaleFrom(pel, p, lo, mid, now, minIdle) + StaleFrom(pel, p, mid, hi, now, minIdle)
    decreases mid - lo
  {
    if lo < mid { StaleFromSplit(pel, p, lo + 1, mid, hi, now, minIdle); }
  }

  lemma {:induction false} StaleFromAgrees(pel: map<Msg, Lease>, pel': map<Msg, Lease>, p: Priority, lo: nat,
                                           hi: nat, now: Time, minIdle: nat)
    requires forall i: nat | lo <= i < hi :: IsStale(pel, Msg(p, i), now, minIdle) == IsStale(pel', Msg(p, i), now, minIdle)
    ensures StaleFrom(pel, p, lo, hi, now, minIdle) == StaleFrom(pel', p, lo, hi, now, minIdle)
    decreases hi - lo
  {
    if lo < hi { StaleFromAgrees(pel, pel', p, lo + 1, hi, now, minIdle); }
  }

  /** The sweep's work list holds exactly the stale entries, none of them twice. */
  lemma StaleMsgsExact(st: Store, now: Time, minIdle: nat)
    requires StreamsOk(st)
    ensures var s := StaleMsgs(st, now, minIdle);
            && (forall m :: m in s <==> m in st.pel && now - st.pel[m].since >= minIdle)
            && (forall i, k | 0 <= i < k < |s| :: s[i] != s[k])
  {
    StaleFromExact(st.pel, High, 0, st.streams[High].next, now, minIdle);
    StaleFromExact(st.pel, Normal, 0, st.streams[Normal].next, now, minIdle);
    StaleFromExact(st.pel, Low, 0, st.streams[Low].next, now, minIdle);
    assert forall m :: m in st.pel ==> Delivered(st.streams, m);
  }

  lemma {:induction false} ReapEachAppends(cfg: Config, st: Store, now: Time, a: seq<Msg>, b: seq<Msg>)
    requires cfg.schedule != []
    ensures ReapEach(cfg, st, now, a + b) == ReapEach(cfg, ReapEach(cfg, st, now, a), now, b)
    decreases |a|
  {
    if a == [] {
      assert a + b == b;
    } else {
      assert (a + b)[0] == a[0] && (a + b)[1..] == a[1..] + b;
      ReapEachAppends(cfg, ReapOne(cfg, st, now, a[0]), now, a[1..], b);
    }
  }

  lemma RetryIgnoresPel(cfg: Config, st: Store, now: Time, j: JobId, snap: Row, error: Json, pel: map<Msg, Lease>)
    requires !Decide(cfg, snap).IndexError?
    ensures RetryOrFail(cfg, st.(pel := pel), now, j, snap, error) == RetryOrFail(cfg, st, now, j, snap, error).(pel := pel)
    ensures RetryOrFail(cfg, st, now, j, snap, error).pel == st.pel
  {
  }

  lemma HandOffIgnoresPel(st: Store, j: JobId, t: Target, pel: map<Msg, Lease>)
    ensures HandOff(st.(pel := pel), j, t) == HandOff(st, j, t).(pel := pel) && HandOff(st, j, t).pel == st.pel
  {
  }

  /** Handling an entry reads nothing of the PEL and removes the entry from it. */
  lemma ReapOneIgnoresPel(cfg: Config, st: Store, now: Time, m: Msg, pel: map<Msg, Lease>)
    requires cfg.schedule != []
    ensures ReapOne(cfg, st.(pel := pel), now, m) == ReapOne(cfg, st, now, m).(pel := pel - {m})
    ensures ReapOne(cfg, st, now, m).pel == st.pel - {m}
  {
    var e := EntryAt(st.streams, m);
    if e.Some? && e.value in st.rows {
      var r := st.rows[e.value];
      Decides(cfg, r);
      RetryIgnoresPel(cfg, st, now, e.value, r, "WorkerLost", pel);
      HandOffIgnoresPel(st, e.value, RowTarget(r), pel);
    }
  }

  lemma AckedOneByOne(pel: map<Msg, Lease>, ms: seq<Msg>)
    requires ms != []
    ensures pel - {ms[0]} - Elems(ms[1..]) == pel - Elems(ms)
  {
    assert ms == [ms[0]] + ms[1..];
  }

  /** The sweep acknowledges exactly its work list and leaves every other lease as it was. */
  lemma {:induction false} ReapEachAcks(cfg: Config, st: Store, now: Time, ms: seq<Msg>)
    requires cfg.schedule != []
    ensures ReapEach(cfg, st, now, ms).pel == st.pel - Elems(ms)
    decreases |ms|
  {
    if ms != [] {
      var st1 := ReapOne(cfg, st, now, ms[0]);
      ReapOneIgnoresPel(cfg, st, now, ms[0], st.pel);
      ReapEachAcks(cfg, st1, now, ms[1..]);
      AckedOneByOne(st.pel, ms);
    } else {
      assert st.pel - Elems(ms) == st.pel;
    }
  }

  /** `st'` came from `st` by handling entries: rows and entries stay, and entries keep their places. */
  ghost predicate Reaped(st: Store, st': Store) {
    && st'.rows.Keys == st.rows.Keys
    && forall p: Priority :: st.streams[p].entries <= st'.streams[p].entries
  }

  /** Handling an entry changes no row but the one it names. */
  lemma ReapOneRows(cfg: Config, st: Store, now: Time, m: Msg)
    requires cfg.schedule != []
    ensures var st' := ReapOne(cfg, st, now, m);
            Reaped(st, st') && forall j | j in st.rows && EntryAt(st.streams, m) != Some(j) :: st'.rows[j] == st.rows[j]
  {
    var e := EntryAt(st.streams, m);
    if e.Some? && e.value in st.rows {
      Decides(cfg, st.rows[e.value]);
      RetryColumns(cfg, st, now, e.value, st.rows[e.value], "WorkerLost");
      HandOffEffect(st, e.value);
    }
  }

  /** Handling a list of entries changes only rows that one of them names. */
  lemma {:induction false} ReapEachRows(cfg: Config, st: Store, now: Time, ms: seq<Msg>, j: JobId)
    requires cfg.schedule != [] && j in st.rows
    requires forall m | m in ms :: HasEntry(st.streams, m) && EntryOf(st.streams, m) != Some(j)
    ensures var st' := ReapEach(cfg, st, now, ms); st'.rows.Keys == st.rows.Keys && st'.rows[j] == st.rows[j]
    decreases |ms|
  {
    if ms != [] {
      ReapOneRows(cfg, st, now, ms[0]);
      var st1 := ReapOne(cfg, st, now, ms[0]);
      assert st1.rows[j] == st.rows[j];
      forall m | m in ms[1..]
        ensures HasEntry(st1.streams, m) && EntryOf(st1.streams, m) == EntryOf(st.streams, m)
      {
        assert st.streams[m.prio].entries <= st1.streams[m.prio].entries && m in ms;
      }
      ReapEachRows(cfg, st1, now, ms[1..], j);
    }
  }

  /** Some entry that is idle for the timeout names the job. */
  ghost predicate StaleNames(st: Store, now: Time, minIdle: nat, j: JobId) {
    exists m :: m in st.pel && now - st.pel[m].since >= minIdle && EntryAt(st.streams, m) == Some(j)
  }

  /**
   * A sweep on the columns, with the timeout written out: younger entries keep their leases, the others
   * are gone, and no row changes that none of the others names.
   */
  ghost predicate OnlyStaleReaped(st: Store, st': Store, now: Time, minIdle: nat) {
    && (forall m :: m in st'.pel <==> m in st.pel && now - st.pel[m].since < minIdle)
    && (forall m | m in st'.pel :: st'.pel[m] == st.pel[m])
    && st'.rows.Keys == st.rows.Keys
    && (forall j | j in st.rows && !StaleNames(st, now, minIdle, j) :: st'.rows[j] == st.rows[j])
  }

  lemma ReapColumns(cfg: Config, st: Store, now: Time)
    requires cfg.schedule != [] && StreamsOk(st)
    ensures OnlyStaleReaped(st, ReapEach(cfg, st, now, StaleMsgs(st, now, cfg.visibility)), now, cfg.visibility)
  {
    var work := StaleMsgs(st, now, cfg.visibility);
    StaleMsgsExact(st, now, cfg.visibility);
    ReapEachAcks(cfg, st, now, work);
    ReapEachKeys(cfg, st, now, work);
    forall j | j in st.rows && !StaleNames(st, now, cfg.visibility, j)
      ensures ReapEach(cfg, st, now, work).rows.Keys == st.rows.Keys
      ensures ReapEach(cfg, st, now, work).rows[j] == st.rows[j]
    {
      ReapEachRows(cfg, st, now, work, j);
    }
  }

  lemma {:induction false} ReapEachKeys(cfg: Config, st: Store, now: Time, ms: seq<Msg>)
    requires cfg.schedule != []
    ensures ReapEach(cfg, st, now, ms).rows.Keys == st.rows.Keys
    decreases |ms|
  {
    if ms != [] {
      ReapOneRows(cfg, st, now, ms[0]);
      ReapEachKeys(cfg, ReapOne(cfg, st, now, ms[0]), now, ms[1..]);
    }
  }

  // ----- reconciler -----

  predicate IsOrphan(r: Row, cutoff: Time) {
    !r.synced && Waiting(r.status) && r.createdAt < cutoff
  }

  function OrphanKeys(rows: Table, cutoff: Time): set<Key> {
    set j | j in rows && IsOrphan(rows[j], cutoff) :: Key(rows[j].createdAt, j)
  }

  /** `list_unsynced` without its LIMIT: oldest first. */
  function Orphans(rows: Table, cutoff: Time): seq<JobId> {
    Ids(Sorted(false, OrphanKeys(rows, cutoff)))
  }

  /** Hand each listed job off to where its row says. */
  function HandOffEach(st: Store, ids: seq<JobId>): Store
    decreases |ids|
  {
    if ids == [] then st
    else HandOffEach(if ids[0] in st.rows then HandOff(st, ids[0], RowTarget(st.rows[ids[0]])) else st, ids[1..])
  }

  /** What a whole reconciler pass computes. */
  function Reconcile(cfg: Config, st: Store, now: Time): Store {
    HandOffEach(st, Orphans(st.rows, now - cfg.grace))
  }

  // ----- promoter -----

  function DueKeys(zset: map<JobId, Time>, now: Time): set<Key> {
    set j | j in zset && 0 <= zset[j] <= now :: Key(zset[j], j)
  }

  /** ZRANGEBYSCORE 0 now, without its LIMIT. */
  function DueIds(zset: map<JobId, Time>, now: Time): seq<JobId> {
    Ids(Sorted(false, DueKeys(zset, now)))
  }

  /** One XADD per listed job that has a row, to the stream of its priority. */
  function PushEach(streams: Streams, rows: Table, ids: seq<JobId>): Streams
    decreases |ids|
  {
    if ids == [] then streams
    else PushEach(if ids[0] in rows then XAdd(streams, rows[ids[0]].priority, Some(ids[0])) else streams, rows, ids[1..])
  }

  function PromoteRows(rows: Table, ids: set<JobId>): Table {
    map j | j in rows :: if j in ids && Matches(PromoteScheduled, rows[j]) then Apply(PromoteScheduled, rows[j]) else rows[j]
  }

  /** Exactly the listed scheduled rows become pending. */
  lemma PromoteRowsColumns(rows: Table, ids: seq<JobId>)
    ensures PromoteRows(rows, Elems(ids)).Keys == rows.Keys
    ensures forall j | j in rows ::
              PromoteRows(rows, Elems(ids))[j]
                == if j in ids && rows[j].status == Scheduled then rows[j].(status := Pending) else rows[j]
  {
  }

  /** XADD them all, ZREM them all, then one UPDATE. */
  function PromoteEach(st: Store, ids: seq<JobId>): Store {
    Store(PromoteRows(st.rows, Elems(ids)), PushEach(st.streams, st.rows, ids), st.pel, st.zset - Elems(ids))
  }

  /** The entries a pass appends to one stream. */
  function EntriesFor(rows: Table, ids: seq<JobId>, p: Priority): seq<Option<JobId>>
    decreases |ids|
  {
    if ids == [] then []
    else (if ids[0] in rows && rows[ids[0]].priority == p then [Some(ids[0])] else []) + EntriesFor(rows, ids[1..], p)
  }

  /** Each stream gets exactly its own jobs' messages, in list order; cursors stay. */
  lemma {:induction false} PushedEntries(streams: Streams, rows: Table, ids: seq<JobId>, p: Priority)
    ensures var t := PushEach(streams, rows, ids);
            t[p].entries == streams[p].entries + EntriesFor(rows, ids, p) && t[p].next == streams[p].next
    decreases |ids|
  {
    if ids != [] {
      var s1 := if ids[0] in rows then XAdd(streams, rows[ids[0]].priority, Some(ids[0])) else streams;
      PushedEntries(s1, rows, ids[1..], p);
      Assoc(streams[p].entries, EntriesFor(rows, [ids[0]], p), EntriesFor(rows, ids[1..], p));
    }
  }

  // ----- what the reconciler's pass leaves -----

  /** The messages a reconciler pass appends to one stream. */
  function SentTo(rows: Table, ids: seq<JobId>, p: Priority): seq<Option<JobId>>
    decreases |ids|
  {
    if ids == [] then []
    else (if ids[0] in rows && !HasDueTime(rows[ids[0]]) && rows[ids[0]].priority == p then [Some(ids[0])] else [])
         + SentTo(rows, ids[1..], p)
  }

  /** A scheduled row goes to the delayed set, any other to the stream of its priority. */
  predicate HasDueTime(r: Row) {
    r.status == Scheduled && r.scheduledAt.Some?
  }

  predicate DelayedTo(rows: Table, ids: seq<JobId>, j: JobId) {
    j in ids && j in rows && HasDueTime(rows[j])
  }

  lemma HandOffEffect(st: Store, j: JobId)
    requires j in st.rows
    ensures var st' := HandOff(st, j, RowTarget(st.rows[j]));
            && st'.rows == st.rows[j := st.rows[j].(synced := true)] && st'.pel == st.pel
            && st'.streams == (if RowTarget(st.rows[j]).ToStream?
                               then XAdd(st.streams, RowTarget(st.rows[j]).prio, Some(j)) else st.streams)
            && st'.zset == (if RowTarget(st.rows[j]).ToDelayed? then st.zset[j := RowTarget(st.rows[j]).score] else st.zset)
  {
  }

  /** The columns that decide where a row goes. */
  predicate SameTarget(r: Row, r': Row) {
    r'.status == r.status && r'.scheduledAt == r.scheduledAt && r'.priority == r.priority
  }

  /** Setting sync flags changes no target. */
  lemma {:induction false} SentToFrame(rows: Table, rows': Table, ids: seq<JobId>, p: Priority)
    requires rows'.Keys == rows.Keys
    requires forall j | j in rows :: SameTarget(rows[j], rows'[j])
    ensures SentTo(rows', ids, p) == SentTo(rows, ids, p)
    decreases |ids|
  {
    if ids != [] { SentToFrame(rows, rows', ids[1..], p); }
  }

  /** A pass over `ids` sets exactly their sync flags and touches nothing else in the table or the PEL. */
  lemma {:induction false} HandOffEachRows(st: Store, ids: seq<JobId>)
    requires forall j | j in ids :: j in st.rows
    ensures var st' := HandOffEach(st, ids);
            && st'.pel == st.pel && st'.rows.Keys == st.rows.Keys
            && (forall j | j in st.rows :: st'.rows[j] == if j in ids then st.rows[j].(synced := true) else st.rows[j])
    decreases |ids|
  {
    if ids != [] {
      HandOffEffect(st, ids[0]);
      HandOffEachRows(HandOff(st, ids[0], RowTarget(st.rows[ids[0]])), ids[1..]);
    }
  }

  /** It appends to each stream exactly the messages of the jobs that go there, in list order. */
  lemma HandOffEachStreams(st: Store, ids: seq<JobId>, p: Priority)
    requires forall j | j in ids :: j in st.rows
    ensures var st' := HandOffEach(st, ids);
            && st'.streams[p].entries == st.streams[p].entries + SentTo(st.rows, ids, p)
            && st'.streams[p].next == st.streams[p].next
  {
    HandOffEachSends(st, ids, p);
    HandOffEachNext(st, ids, p);
  }

  lemma {:induction false} HandOffEachNext(st: Store, ids: seq<JobId>, p: Priority)
    requires forall j | j in ids :: j in st.rows
    ensures HandOffEach(st, ids).streams[p].next == st.streams[p].next
    decreases |ids|
  {
    if ids != [] {
      HandOffEffect(st, ids[0]);
      HandOffEachNext(HandOff(st, ids[0], RowTarget(st.rows[ids[0]])), ids[1..], p);
    }
  }

  lemma OneMoreSent(rows: Table, ids: seq<JobId>, p: Priority, entries: seq<Option<JobId>>, head: seq<Option<JobId>>)
    requires ids != [] && ids[0] in rows
    requires head == if !HasDueTime(rows[ids[0]]) && rows[ids[0]].priority == p then [Some(ids[0])] else []
    ensures entries + head + SentTo(rows, ids[1..], p) == entries + SentTo(rows, ids, p)
  {
    Assoc(entries, head, SentTo(rows, ids[1..], p));
  }

  lemma {:induction false} HandOffEachSends(st: Store, ids: seq<JobId>, p: Priority)
    requires forall j | j in ids :: j in st.rows
    ensures HandOffEach(st, ids).streams[p].entries == st.streams[p].entries + SentTo(st.rows, ids, p)
    decreases |ids|
  {
    if ids != [] {
      var st1 := HandOff(st, ids[0], RowTarget(st.rows[ids[0]]));
      var head := if !HasDueTime(st.rows[ids[0]]) && st.rows[ids[0]].priority == p then [Some(ids[0])] else [];
      var rest := ids[1..];
      HandOffAdds(st, ids[0], p, head);
      SentToFrame(st.rows, st1.rows, rest, p);
      HandOffEachSends(st1, rest, p);
      OneMoreSent(st.rows, ids, p, st.streams[p].entries, head);
    }
  }

  lemma HandOffAdds(st: Store, j: JobId, p: Priority, head: seq<Option<JobId>>)
    requires j in st.rows && head == if !HasDueTime(st.rows[j]) && st.rows[j].priority == p then [Some(j)] else []
    ensures var st' := HandOff(st, j, RowTarget(st.rows[j]));
            && st'.streams[p].entries == st.streams[p].entries + head && st'.streams[p].next == st.streams[p].next
            && st'.rows.Keys == st.rows.Keys && forall k | k in st.rows :: SameTarget(st.rows[k], st'.rows[k])
  {
    HandOffEffect(st, j);
  }

  /** It adds exactly the delayed ones to the delayed set, each at its own due time. */
  lemma {:induction false} HandOffEachZset(st: Store, ids: seq<JobId>, j: JobId)
    requires forall k | k in ids :: k in st.rows
    ensures var st' := HandOffEach(st, ids);
            && (j in st'.zset <==> j in st.zset || DelayedTo(st.rows, ids, j))
            && (DelayedTo(st.rows, ids, j) ==> st'.zset[j] == st.rows[j].scheduledAt.value)
            && (j in st.zset && !DelayedTo(st.rows, ids, j) ==> st'.zset[j] == st.zset[j])
    decreases |ids|
  {
    if ids != [] {
      HandOffEffect(st, ids[0]);
      HandOffEachZset(HandOff(st, ids[0], RowTarget(st.rows[ids[0]])), ids[1..], j);
    }
  }

  /** The job's row is as it was, and no message or delayed entry was added for it. */
  ghost predicate Untouched(st: Store, st': Store, j: JobId)
    requires j in st.rows
  {
    && j in st'.rows && st'.rows[j] == st.rows[j]
    && (j in st'.zset <==> j in st.zset) && (j in st.zset ==> st'.zset[j] == st.zset[j])
    && forall p: Priority, i | |st.streams[p].entries| <= i < |st'.streams[p].entries| :: st'.streams[p].entries[i] != Some(j)
  }

  /** What the pass does to one job. */
  ghost predicate OrphanMoved(st: Store, st': Store, cutoff: Time, j: JobId)
    requires j in st.rows
  {
    var r := st.rows[j];
    if !r.synced && r.status in {Pending, Scheduled} && r.createdAt < cutoff then
      j in st'.rows && st'.rows[j] == r.(synced := true)
    else Untouched(st, st', j)
  }

  /** A whole pass, on the columns: the orphans get their sync flag, and nobody else's job is put anywhere. */
  ghost predicate OnlyOrphansMoved(st: Store, st': Store, cutoff: Time) {
    && st'.rows.Keys == st.rows.Keys
    && forall j | j in st.rows :: OrphanMoved(st, st', cutoff, j)
  }

  lemma {:induction false} SentNames(rows: Table, ids: seq<JobId>, p: Priority, i: nat)
    requires i < |SentTo(rows, ids, p)|
    ensures SentTo(rows, ids, p)[i].Some? && SentTo(rows, ids, p)[i].value in ids
    decreases |ids|
  {
    var head := if ids[0] in rows && !HasDueTime(rows[ids[0]]) && rows[ids[0]].priority == p then [Some(ids[0])] else [];
    assert SentTo(rows, ids, p) == head + SentTo(rows, ids[1..], p);
    if i >= |head| { SentNames(rows, ids[1..], p, i - |head|); }
  }

  /** No message is added for a job that is not on the list. */
  lemma SentToListed(st: Store, ids: seq<JobId>, p: Priority, i: nat, j: JobId)
    requires forall k | k in ids :: k in st.rows
    requires var st' := HandOffEach(st, ids);
             j !in ids && |st.streams[p].entries| <= i < |st'.streams[p].entries|
    ensures HandOffEach(st, ids).streams[p].entries[i] != Some(j)
  {
    HandOffEachStreams(st, ids, p);
    SentNames(st.rows, ids, p, i - |st.streams[p].entries|);
  }

  lemma UnlistedUntouched(st: Store, ids: seq<JobId>, j: JobId)
    requires (forall k | k in ids :: k in st.rows) && j in st.rows && j !in ids
    ensures Untouched(st, HandOffEach(st, ids), j)
  {
    HandOffEachRows(st, ids);
    HandOffEachZset(st, ids, j);
    var st' := HandOffEach(st, ids);
    forall p: Priority, i | |st.streams[p].entries| <= i < |st'.streams[p].entries|
      ensures st'.streams[p].entries[i] != Some(j)
    {
      SentToListed(st, ids, p, i, j);
    }
  }

  lemma ListedSynced(st: Store, ids: seq<JobId>, j: JobId)
    requires (forall k | k in ids :: k in st.rows) && j in ids
    ensures HandOffEach(st, ids).rows.Keys == st.rows.Keys
    ensures HandOffEach(st, ids).rows[j] == st.rows[j].(synced := true)
  {
    HandOffEachRows(st, ids);
  }

  lemma ReconcileJob(cfg: Config, st: Store, now: Time, j: JobId)
    requires j in st.rows
    ensures OrphanMoved(st, Reconcile(cfg, st, now), now - cfg.grace, j)
  {
    var ids := Orphans(st.rows, now - cfg.grace);
    OrphansExact(st.rows, now - cfg.grace);
    if j in ids { ListedSynced(st, ids, j); } else { UnlistedUntouched(st, ids, j); }
  }

  lemma {:induction false} HandOffEachKeys(st: Store, ids: seq<JobId>)
    ensures HandOffEach(st, ids).rows.Keys == st.rows.Keys
    decreases |ids|
  {
    if ids != [] {
      HandOffEachKeys(if ids[0] in st.rows then HandOff(st, ids[0], RowTarget(st.rows[ids[0]])) else st, ids[1..]);
    }
  }

  lemma ReconcileColumns(cfg: Config, st: Store, now: Time)
    ensures OnlyOrphansMoved(st, Reconcile(cfg, st, now), now - cfg.grace)
  {
    HandOffEachKeys(st, Orphans(st.rows, now - cfg.grace));
    forall j | j in st.rows
      ensures OrphanMoved(st, Reconcile(cfg, st, now), now - cfg.grace, j)
    {
      ReconcileJob(cfg, st, now, j);
    }
  }

  lemma {:induction false} HandOffEachAppends(st: Store, a: seq<JobId>, b: seq<JobId>)
    ensures HandOffEach(st, a + b) == HandOffEach(HandOffEach(st, a), b)
    decreases |a|
  {
    if a == [] {
      assert a + b == b;
    } else {
      assert (a + b)[0] == a[0] && (a + b)[1..] == a[1..] + b;
      HandOffEachAppends(if a[0] in st.rows then HandOff(st, a[0], RowTarget(st.rows[a[0]])) else st, a[1..], b);
    }
  }

  /** The work list holds exactly the orphans, oldest first. */
  lemma OrphansExact(rows: Table, cutoff: Time)
    ensures forall j :: j in Orphans(rows, cutoff) <==>
              j in rows && !rows[j].synced && rows[j].status in {Pending, Scheduled} && rows[j].createdAt < cutoff
    ensures var s := Orphans(rows, cutoff);
            forall i, k | 0 <= i < k < |s| ::
              && s[i] in rows && s[k] in rows
              && (rows[s[i]].createdAt < rows[s[k]].createdAt || (rows[s[i]].createdAt == rows[s[k]].createdAt && s[i] < s[k]))
  {
    var ks := OrphanKeys(rows, cutoff);
    var sorted := Sorted(false, ks);
    SortedIds(ks, sorted);
    forall j
      ensures j in Ids(sorted) <==> j in rows && IsOrphan(rows[j], cutoff)
    {
      if j in rows && IsOrphan(rows[j], cutoff) { assert Key(rows[j].createdAt, j) in ks; }
      if j in Ids(sorted) {
        var i :| 0 <= i < |sorted| && Ids(sorted)[i] == j;
        assert sorted[i] in ks;
      }
    }
  }

  /** Membership alone. */
  lemma OrphanIff(rows: Table, cutoff: Time)
    ensures forall j :: j in Orphans(rows, cutoff) <==> j in rows && IsOrphan(rows[j], cutoff)
  {
    OrphansExact(rows, cutoff);
  }
}
