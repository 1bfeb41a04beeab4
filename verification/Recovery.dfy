/**
 * Crash recovery: when everybody has stopped and enough time has passed, one reaper
 * sweep followed by one reconciler pass makes every unfinished job reachable again.
 */
module Recovery {
  import opened Jobs
  import opened Queue
  import opened Retry
  import opened Order
  import opened Sweeps
  import opened Protocol
  import opened Accounting
  import opened Safety
  import opened Coverage
  import opened Pointers
  import opened Stranding
  import opened Scenes

  /** A waiting job can be found: by the reconciler, by a worker or by the promoter. */
  ghost predicate Findable(st: Store, j: JobId) {
    j in st.rows && (Waiting(st.rows[j].status) ==> !st.rows[j].synced || Queued(st, j) || j in st.zset)
  }

  /** A processing job still has an entry that the reaper will see. */
  ghost predicate Tracked(st: Store, j: JobId) {
    j in st.rows && (st.rows[j].status == Processing ==> exists m :: m in st.pel && EntryAt(st.streams, m) == Some(j))
  }

  /** The sweeps will find the job. */
  ghost predicate Sought(st: Store, j: JobId) {
    Findable(st, j) && Tracked(st, j)
  }

  /** What every reachable store has: streams and pointers in order, rows in shape. */
  ghost predicate Base(st: Store) {
    StreamsOk(st) && PointersOk(st) && forall j | j in st.rows :: WellFormed(st.rows[j])
  }

  lemma ReachableBase(cfg: Config, f: Fences, s: State)
    requires Reachable(cfg, f, s)
    ensures Base(s.store)
  {
    ReachableAnchored(cfg, f, s);
    forall j | j in s.store.rows
      ensures WellFormed(s.store.rows[j])
    {
      assert Balanced(s.store.rows[j], s.hist[j]);
    }
  }

  /** New entries name `j`. */
  ghost predicate AddsOnly(t: Streams, t': Streams, j: JobId) {
    forall p: Priority, i: nat | |t[p].entries| <= i < |t'[p].entries| :: t'[p].entries[i] == Some(j)
  }

  /** Only row `j` may change, together with what points to it; streams grow. */
  ghost predicate Touches(st: Store, st': Store, j: JobId) {
    && Grows(st.streams, st'.streams) && AddsOnly(st.streams, st'.streams, j)
    && (forall p: Priority :: st'.streams[p].next == st.streams[p].next)
    && st'.rows.Keys == st.rows.Keys && st'.pel == st.pel
    && (forall k | k in st.rows && k != j :: st'.rows[k] == st.rows[k])
    && (j in st.rows ==> SameIdentity(st.rows[j], st'.rows[j]) && WellFormed(st'.rows[j]))
    && (forall k | k != j :: k in st.zset <==> k in st'.zset)
    && PointersOk(st')
  }

  lemma SendTouches(st: Store, j: JobId, p: Priority)
    requires StreamsOk(st) && PointersOk(st) && j in st.rows && p == st.rows[j].priority
    ensures var st' := st.(streams := XAdd(st.streams, p, Some(j)));
            PointersOk(st') && Queued(st', j)
            && Grows(st.streams, st'.streams) && AddsOnly(st.streams, st'.streams, j)
  {
    AddPoints(st, p, Some(j));
    AddGrows(st.streams, p, Some(j));
    assert UndeliveredAt(XAdd(st.streams, p, Some(j))[p], |st.streams[p].entries|, j);
  }

  lemma HandOffTouches(st: Store, j: JobId, t: Target)
    requires StreamsOk(st) && PointersOk(st) && j in st.rows && WellFormed(st.rows[j])
    requires t.ToStream? ==> t.prio == st.rows[j].priority
    ensures var st' := HandOff(st, j, t);
            Touches(st, st', j) && st'.rows[j] == st.rows[j].(synced := true) && (Queued(st', j) || j in st'.zset)
  {
    if t.ToStream? {
      SendTouches(st, j, t.prio);
      SyncTouches(st.(streams := XAdd(st.streams, t.prio, Some(j))), j);
    } else {
      DelayTouches(st, j, t.score);
    }
  }

  lemma DelayTouches(st: Store, j: JobId, score: Time)
    requires StreamsOk(st) && PointersOk(st) && j in st.rows && WellFormed(st.rows[j])
    ensures var st' := HandOff(st, j, ToDelayed(score));
            Touches(st, st', j) && st'.rows[j] == st.rows[j].(synced := true) && j in st'.zset
  {
    PointersFrame(st, HandOff(st, j, ToDelayed(score)));
  }

  /** `mark_synced` moves no pointer. */
  lemma SyncTouches(st: Store, j: JobId)
    requires PointersOk(st) && j in st.rows
    ensures var st' := OnRow(st, MarkSynced, j);
            PointersOk(st') && (Queued(st, j) ==> Queued(st', j)) && st'.rows == st.rows[j := st.rows[j].(synced := true)]
  {
    PointersFrame(st, OnRow(st, MarkSynced, j));
  }

  lemma HandOffAfterTouches(st: Store, st1: Store, j: JobId, t: Target)
    requires StreamsOk(st) && j in st.rows && Touches(st, st1, j) && st1.streams == st.streams && st1.zset == st.zset
    requires t.ToStream? ==> t.prio == st.rows[j].priority
    ensures var st' := HandOff(st1, j, t);
            Touches(st, st', j) && st'.rows[j].status == st1.rows[j].status && (Queued(st', j) || j in st'.zset)
  {
    HandOffTouches(st1, j, t);
  }

  lemma RetryTouches(cfg: Config, st: Store, now: Time, j: JobId, error: Json)
    requires StreamsOk(st) && PointersOk(st) && j in st.rows && WellFormed(st.rows[j])
    requires st.rows[j].status == Processing && !Decide(cfg, st.rows[j]).IndexError?
    ensures var st' := RetryOrFail(cfg, st, now, j, st.rows[j], error);
            && Touches(st, st', j) && st'.rows[j].status != Processing
            && (Waiting(st'.rows[j].status) ==> Queued(st', j) || j in st'.zset)
  {
    var d := Decide(cfg, st.rows[j]);
    var u := DecisionUpdate(d, now, error);
    var st1 := OnRow(st, u, j);
    UpdateKeepsShape(u, st.rows[j]);
    PointersFrame(st, st1);
    var t := DecisionTarget(d, now, st.rows[j].priority);
    if t.Some? { HandOffAfterTouches(st, st1, j, t.value); }
  }

  /** Whether another job is queued does not change. */
  lemma QueuedSame(st: Store, st': Store, j: JobId, k: JobId)
    requires Touches(st, st', j) && k in st.rows && k != j
    ensures Queued(st, k) <==> Queued(st', k)
  {
    var p := st.rows[k].priority;
    if Queued(st, k) { QueuedStays(st, st', k); }
    if i: nat :| UndeliveredAt(st'.streams[p], i, k) {
      assert i < |st.streams[p].entries|;
      assert UndeliveredAt(st.streams[p], i, k);
    }
  }

  // ----- the reaper's sweep, seen by one job -----

  lemma EffectTouches(cfg: Config, st: Store, now: Time, j: JobId)
    requires cfg.schedule != [] && Base(st) && j in st.rows
    ensures var st' := ReapEffect(cfg, st, now, Some(j));
            && Touches(st, st', j) && st'.rows[j].status != Processing
            && (st.rows[j].status == Processing || Findable(st, j) ==> Findable(st', j))
            && (st.rows[j].status != Processing && !Findable(st, j) ==> st' == st)
  {
    Decides(cfg, st.rows[j]);
    if st.rows[j].status == Processing {
      RetryTouches(cfg, st, now, j, "WorkerLost");
    } else if Waiting(st.rows[j].status) && !st.rows[j].synced {
      HandOffTouches(st, j, RowTarget(st.rows[j]));
    }
  }

  lemma AckBase(st: Store, st1: Store, j: JobId, m: Msg)
    requires Base(st) && Touches(st, st1, j)
    ensures Base(XAck(st1, m))
  {
    PointersFrame(st1, XAck(st1, m));
  }

  lemma AckSame(st: Store, m: Msg, k: JobId)
    requires k in st.rows
    ensures Findable(XAck(st, m), k) <==> Findable(st, k)
  {
    assert Queued(XAck(st, m), k) <==> Queued(st, k);
  }

  /** Acknowledging an entry that names another job, or none, keeps a job tracked or untracked. */
  lemma TrackedSame(st: Store, st1: Store, j: JobId, m: Msg, k: JobId)
    requires StreamsOk(st) && Touches(st, st1, j) && k in st.rows && k != j
    requires EntryAt(st.streams, m) != Some(k)
    ensures Tracked(XAck(st1, m), k) <==> Tracked(st, k)
  {
    assert forall n | n in st.pel :: EntryAt(st1.streams, n) == EntryAt(st.streams, n);
    if Tracked(st, k) && st.rows[k].status == Processing {
      var n :| n in st.pel && EntryAt(st.streams, n) == Some(k);
      assert n in XAck(st1, m).pel && EntryAt(st1.streams, n) == Some(k);
    }
    if Tracked(XAck(st1, m), k) && st.rows[k].status == Processing {
      var n :| n in XAck(st1, m).pel && EntryAt(st1.streams, n) == Some(k);
      assert n in st.pel && EntryAt(st.streams, n) == Some(k);
    }
  }

  lemma OtherSought(st: Store, st1: Store, j: JobId, m: Msg, k: JobId)
    requires Base(st) && Touches(st, st1, j) && EntryAt(st.streams, m) != Some(k) && k in st.rows && k != j
    ensures Sought(XAck(st1, m), k) <==> Sought(st, k)
  {
    QueuedSame(st, st1, j, k);
    AckSame(st1, m, k);
    TrackedSame(st, st1, j, m, k);
  }

  /** Handling one pending entry neither loses nor finds a job, the one it names included. */
  lemma ReapOneSought(cfg: Config, st: Store, now: Time, m: Msg, k: JobId)
    requires cfg.schedule != [] && Base(st) && m in st.pel && k in st.rows
    ensures Base(ReapOne(cfg, st, now, m))
    ensures k in ReapOne(cfg, st, now, m).rows && (Sought(ReapOne(cfg, st, now, m), k) <==> Sought(st, k))
  {
    var e := EntryAt(st.streams, m);
    var st1 := ReapEffect(cfg, st, now, e);
    if e.Some? && e.value in st.rows {
      var j := e.value;
      EffectTouches(cfg, st, now, j);
      AckBase(st, st1, j, m);
      if k == j { AckSame(st1, m, j); } else { OtherSought(st, st1, j, m, k); }
    } else {
      assert EntryOf(st.streams, m).None?;
      NamelessSought(st, m, k);
    }
  }

  /** A poison entry. */
  lemma NamelessSought(st: Store, m: Msg, k: JobId)
    requires Base(st) && EntryAt(st.streams, m).None? && k in st.rows
    ensures Base(XAck(st, m)) && (Sought(XAck(st, m), k) <==> Sought(st, k))
  {
    PointersFrame(st, XAck(st, m));
    AckSame(st, m, k);
    if Tracked(st, k) && st.rows[k].status == Processing {
      var n :| n in st.pel && EntryAt(st.streams, n) == Some(k);
      assert n in XAck(st, m).pel;
    }
  }

  /** The whole sweep: each job is sought after it exactly when it was before. */
  lemma {:induction false} ReapEachSought(cfg: Config, st: Store, now: Time, ms: seq<Msg>, k: JobId)
    requires cfg.schedule != [] && Base(st) && k in st.rows
    requires forall m | m in ms :: m in st.pel
    requires forall i, l | 0 <= i < l < |ms| :: ms[i] != ms[l]
    ensures var st' := ReapEach(cfg, st, now, ms);
            Base(st') && k in st'.rows && (Sought(st', k) <==> Sought(st, k))
    decreases |ms|
  {
    if ms != [] {
      ReapOneSought(cfg, st, now, ms[0], k);
      ReapOneIgnoresPel(cfg, st, now, ms[0], st.pel);
      ReapEachSought(cfg, ReapOne(cfg, st, now, ms[0]), now, ms[1..], k);
    }
  }

  ghost predicate SameCreation(rows: Table, rows': Table) {
    rows'.Keys == rows.Keys && forall j | j in rows :: rows'[j].createdAt == rows[j].createdAt
  }

  lemma RetryKeepsRows(cfg: Config, st: Store, now: Time, j: JobId, snap: Row, error: Json)
    requires !Decide(cfg, snap).IndexError?
    ensures SameCreation(st.rows, RetryOrFail(cfg, st, now, j, snap, error).rows)
  {
    var u := DecisionUpdate(Decide(cfg, snap), now, error);
    assert SameCreation(st.rows, OnRow(st, u, j).rows);
  }

  lemma ReapOneKeepsRows(cfg: Config, st: Store, now: Time, m: Msg)
    requires cfg.schedule != []
    ensures SameCreation(st.rows, ReapOne(cfg, st, now, m).rows)
  {
    var e := EntryAt(st.streams, m);
    if e.Some? && e.value in st.rows {
      var r := st.rows[e.value];
      Decides(cfg, r);
      if r.status == Processing {
        RetryKeepsRows(cfg, st, now, e.value, r, "WorkerLost");
      } else if Waiting(r.status) && !r.synced {
        HandOffEffect(st, e.value);
      }
    }
  }

  /** The sweep keeps every row and its creation time. */
  lemma {:induction false} ReapEachKeepsRows(cfg: Config, st: Store, now: Time, ms: seq<Msg>)
    requires cfg.schedule != []
    ensures SameCreation(st.rows, ReapEach(cfg, st, now, ms).rows)
    decreases |ms|
  {
    if ms != [] {
      ReapOneKeepsRows(cfg, st, now, ms[0]);
      ReapEachKeepsRows(cfg, ReapOne(cfg, st, now, ms[0]), now, ms[1..]);
    }
  }

  // ----- the reconciler's pass, seen by one job -----

  /** The job is in its stream, undelivered, or in the delayed set. */
  ghost predicate Placed(st: Store, j: JobId) {
    Queued(st, j) || j in st.zset
  }

  lemma HandOffPlaces(st: Store, j: JobId, k: JobId)
    requires Base(st) && j in st.rows && k in st.rows
    ensures var st' := HandOff(st, j, RowTarget(st.rows[j]));
            Base(st') && st'.rows.Keys == st.rows.Keys && (Placed(st', k) <==> k == j || Placed(st, k))
  {
    var st' := HandOff(st, j, RowTarget(st.rows[j]));
    HandOffTouches(st, j, RowTarget(st.rows[j]));
    if k != j { QueuedSame(st, st', j, k); }
  }

  /** The pass places exactly the listed jobs. */
  lemma {:induction false} HandOffEachPlaces(st: Store, ids: seq<JobId>, k: JobId)
    requires Base(st) && k in st.rows && forall j | j in ids :: j in st.rows
    ensures Placed(HandOffEach(st, ids), k) <==> k in ids || Placed(st, k)
    decreases |ids|
  {
    if ids != [] {
      HandOffPlaces(st, ids[0], k);
      HandOffEachPlaces(HandOff(st, ids[0], RowTarget(st.rows[ids[0]])), ids[1..], k);
    }
  }

  // ----- what the two sweeps recover -----

  /** Finished, or waiting in Redis and known to be there. */
  ghost predicate JobRecovered(st: Store, j: JobId) {
    && j in st.rows
    && (!Terminal(st.rows[j].status) ==> Waiting(st.rows[j].status) && st.rows[j].synced && Placed(st, j))
  }

  /** Every job is, and nothing is pending in Redis. */
  ghost predicate Recovered(st: Store) {
    st.pel == map[] && forall j | j in st.rows :: JobRecovered(st, j)
  }

  /** Long enough after everybody stopped: every pending entry is stale, every row is past the grace period. */
  ghost predicate LongAfter(cfg: Config, st: Store, reapAt: Time, reconcileAt: Time) {
    && (forall m | m in st.pel :: reapAt - st.pel[m].since >= cfg.visibility)
    && (forall j | j in st.rows :: st.rows[j].createdAt < reconcileAt - cfg.grace)
  }

  /** What `ReapStale` computes. */
  function ReapAll(cfg: Config, st: Store, now: Time): Store
    requires cfg.schedule != []
  {
    ReapEach(cfg, st, now, StaleMsgs(st, now, cfg.visibility))
  }

  /** One `ReapStale` at `reapAt`, then one `ReconcileOrphans` at `reconcileAt`. */
  function ReapThenReconcile(cfg: Config, st: Store, reapAt: Time, reconcileAt: Time): Store
    requires cfg.schedule != []
  {
    Reconcile(cfg, ReapAll(cfg, st, reapAt), reconcileAt)
  }

  /** With every entry stale, the sweep empties the PEL. */
  lemma ReapAllEmpties(cfg: Config, st: Store, now: Time)
    requires cfg.schedule != [] && StreamsOk(st) && forall m | m in st.pel :: now - st.pel[m].since >= cfg.visibility
    ensures ReapAll(cfg, st, now).pel == map[] && SameCreation(st.rows, ReapAll(cfg, st, now).rows)
  {
    var ms := StaleMsgs(st, now, cfg.visibility);
    StaleMsgsExact(st, now, cfg.visibility);
    ReapEachAcks(cfg, st, now, ms);
    ReapEachKeepsRows(cfg, st, now, ms);
    assert st.pel - Elems(ms) == map[];
  }

  lemma ReapAllSought(cfg: Config, st: Store, now: Time, k: JobId)
    requires cfg.schedule != [] && Base(st) && k in st.rows
    ensures var st1 := ReapAll(cfg, st, now); Base(st1) && k in st1.rows && (Sought(st1, k) <==> Sought(st, k))
  {
    StaleMsgsExact(st, now, cfg.visibility);
    ReapEachSought(cfg, st, now, StaleMsgs(st, now, cfg.visibility), k);
  }

  lemma {:induction false} HandOffEachKeeps(st: Store, ids: seq<JobId>)
    ensures HandOffEach(st, ids).pel == st.pel && HandOffEach(st, ids).rows.Keys == st.rows.Keys
    decreases |ids|
  {
    if ids != [] {
      if ids[0] in st.rows { HandOffEffect(st, ids[0]); }
      HandOffEachKeeps(if ids[0] in st.rows then HandOff(st, ids[0], RowTarget(st.rows[ids[0]])) else st, ids[1..]);
    }
  }

  /** A pass over all waiting, unsynced jobs. */
  lemma PassExactly(st: Store, ids: seq<JobId>, k: JobId)
    requires Base(st) && st.pel == map[] && k in st.rows
    requires forall j :: j in ids <==> j in st.rows && Waiting(st.rows[j].status) && !st.rows[j].synced
    ensures JobRecovered(HandOffEach(st, ids), k) <==> Sought(st, k)
  {
    HandOffEachRows(st, ids);
    HandOffEachPlaces(st, ids, k);
    assert Tracked(st, k) <==> st.rows[k].status != Processing;
    assert Findable(st, k) <==> (Waiting(st.rows[k].status) ==> !st.rows[k].synced || Placed(st, k));
  }

  lemma OrphansAllWait(rows: Table, cutoff: Time)
    requires forall j | j in rows :: rows[j].createdAt < cutoff
    ensures forall j :: j in Orphans(rows, cutoff) <==> j in rows && Waiting(rows[j].status) && !rows[j].synced
  {
    OrphanIff(rows, cutoff);
  }

  lemma OrphanPassExactly(st: Store, cutoff: Time, k: JobId)
    requires Base(st) && st.pel == map[] && k in st.rows && forall j | j in st.rows :: st.rows[j].createdAt < cutoff
    ensures JobRecovered(HandOffEach(st, Orphans(st.rows, cutoff)), k) <==> Sought(st, k)
  {
    OrphansAllWait(st.rows, cutoff);
    PassExactly(st, Orphans(st.rows, cutoff), k);
  }

  lemma ReconcileExactly(cfg: Config, st: Store, now: Time, k: JobId)
    requires Base(st) && st.pel == map[] && k in st.rows
    requires forall j | j in st.rows :: st.rows[j].createdAt < now - cfg.grace
    ensures JobRecovered(Reconcile(cfg, st, now), k) <==> Sought(st, k)
  {
    OrphanPassExactly(st, now - cfg.grace, k);
  }

  /**
   * Recovery, job by job and exactly.  Of a store left by any crash, once the visibility timeout and
   * the grace period have passed, one reaper sweep and one reconciler pass recover a job if and only
   * if it was findable and tracked.
   */
  lemma JobRecoversExactly(cfg: Config, st: Store, reapAt: Time, reconcileAt: Time, k: JobId)
    requires cfg.schedule != [] && Base(st) && LongAfter(cfg, st, reapAt, reconcileAt) && k in st.rows
    ensures JobRecovered(ReapThenReconcile(cfg, st, reapAt, reconcileAt), k) <==> Sought(st, k)
  {
    ReapAllEmpties(cfg, st, reapAt);
    ReapAllSought(cfg, st, reapAt, k);
    ReconcileExactly(cfg, ReapAll(cfg, st, reapAt), reconcileAt, k);
  }

  lemma ReconcileKeeps(cfg: Config, st: Store, now: Time)
    ensures Reconcile(cfg, st, now).pel == st.pel && Reconcile(cfg, st, now).rows.Keys == st.rows.Keys
  {
    HandOffEachKeeps(st, Orphans(st.rows, now - cfg.grace));
  }

  lemma SweepsEmpty(cfg: Config, st: Store, reapAt: Time, reconcileAt: Time)
    requires cfg.schedule != [] && Base(st) && LongAfter(cfg, st, reapAt, reconcileAt)
    ensures var st' := ReapThenReconcile(cfg, st, reapAt, reconcileAt); st'.pel == map[] && st'.rows.Keys == st.rows.Keys
  {
    ReapAllEmpties(cfg, st, reapAt);
    ReconcileKeeps(cfg, ReapAll(cfg, st, reapAt), reconcileAt);
  }

  /** Recovery of the whole store. */
  lemma RecoveryExactly(cfg: Config, st: Store, reapAt: Time, reconcileAt: Time)
    requires cfg.schedule != [] && Base(st) && LongAfter(cfg, st, reapAt, reconcileAt)
    ensures Recovered(ReapThenReconcile(cfg, st, reapAt, reconcileAt)) <==> forall j | j in st.rows :: Sought(st, j)
  {
    SweepsEmpty(cfg, st, reapAt, reconcileAt);
    forall j | j in st.rows
      ensures JobRecovered(ReapThenReconcile(cfg, st, reapAt, reconcileAt), j) <==> Sought(st, j)
    {
      JobRecoversExactly(cfg, st, reapAt, reconcileAt, j);
    }
  }

  /**
   * Every store that any run leaves, with no hypothesis about interference and at whatever points the
   * actors die, recovers exactly when no job of it is lost: waiting, marked synced and nowhere in
   * Redis, or processing without a pending entry.
   */
  lemma CrashAnywhere(cfg: Config, f: Fences, s: State, reapAt: Time, reconcileAt: Time)
    requires Reachable(cfg, f, s) && cfg.schedule != [] && LongAfter(cfg, s.store, reapAt, reconcileAt)
    ensures Recovered(ReapThenReconcile(cfg, s.store, reapAt, reconcileAt))
       <==> forall j | j in s.store.rows :: !Vanished(s.store, j) && !Untracked(s.store, j)
  {
    ReachableBase(cfg, f, s);
    RecoveryExactly(cfg, s.store, reapAt, reconcileAt);
    assert forall j | j in s.store.rows :: Sought(s.store, j) <==> !Vanished(s.store, j) && !Untracked(s.store, j);
  }

  /** The row says that the job is in Redis, and it is not. */
  ghost predicate Vanished(st: Store, j: JobId) {
    j in st.rows && Waiting(st.rows[j].status) && st.rows[j].synced && !Placed(st, j)
  }

  /** The row says that a worker has the job, and no pending entry leads the reaper to it. */
  ghost predicate Untracked(st: Store, j: JobId) {
    j in st.rows && st.rows[j].status == Processing && forall m | m in st.pel :: EntryAt(st.streams, m) != Some(j)
  }

  /** A job that the losing runs lose is one of these. */
  lemma LostIsNotSought(s: State, j: JobId)
    requires Lost(s, j)
    ensures Vanished(s.store, j) || Untracked(s.store, j)
  {
    assert forall m | m in s.store.pel :: EntryAt(s.store.streams, m) == EntryOf(s.store.streams, m);
  }

  /** Under the hypotheses, with no message between delivery and claim, no job is lost. */
  lemma InvIsSought(s: State, j: JobId)
    requires Inv(s) && (forall a | a in s.actors :: !s.actors[a].Held?) && j in s.store.rows
    ensures Sought(s.store, j)
  {
    assert RowCovered(s, j) && ClaimOk(s.store, s.hist, j);
    assert !HeldFor(s, j);
    if s.store.rows[j].status == Processing {
      var m := s.hist[j].claimMsg.value;
      assert m in s.store.pel && EntryAt(s.store.streams, m) == Some(j);
    }
  }

  /**
   * Crash recovery from wherever the system stops: under the hypotheses, unless a worker dies between
   * delivery and claim, the two sweeps leave every PEL empty, no row processing, and every unfinished
   * job synced and undelivered in its stream or waiting in the delayed set.
   */
  lemma CrashRecovery(cfg: Config, s: State, reapAt: Time, reconcileAt: Time)
    requires Reachable(cfg, ALL_FENCES, s) && forall a | a in s.actors :: !s.actors[a].Held?
    requires cfg.schedule != [] && LongAfter(cfg, s.store, reapAt, reconcileAt)
    ensures Recovered(ReapThenReconcile(cfg, s.store, reapAt, reconcileAt))
  {
    ReachableInv(cfg, s);
    ReachableBase(cfg, ALL_FENCES, s);
    forall j | j in s.store.rows
      ensures Sought(s.store, j)
    {
      InvIsSought(s, j);
    }
    RecoveryExactly(cfg, s.store, reapAt, reconcileAt);
  }

  /** Stopping is always possible: when nobody is between delivery and claim, everybody can crash. */
  lemma {:induction false} EverybodyStops(cfg: Config, s: State)
    requires Reachable(cfg, ALL_FENCES, s) && forall a | a in s.actors :: !s.actors[a].Held?
    ensures Reachable(cfg, ALL_FENCES, s.(actors := map[]))
    decreases |s.actors|
  {
    if s.actors == map[] {
      assert s.(actors := map[]) == s;
    } else {
      var a :| a in s.actors;
      var s' := Gone(s, a);
      Do(cfg, ALL_FENCES, s, Crash(a), s');
      assert s'.actors.Keys == s.actors.Keys - {a};
      EverybodyStops(cfg, s');
      assert s'.(actors := map[]) == s.(actors := map[]);
    }
  }
}
