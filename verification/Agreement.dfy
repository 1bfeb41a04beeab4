/**
 * The two layers agree: an actor of the interleaved machine that nobody disturbs does what the
 * sweep functions and the worker's exit compute, which the loops over the stores are proved against.
 */
module Agreement {
  import opened Jobs
  import opened Queue
  import opened Retry
  import opened Order
  import opened Sweeps
  import opened Protocol
  import opened Backend
  import opened Consumers
  import opened Worker

  /** The actor runs its next `n` commands, or until it is done. */
  function Alone(cfg: Config, s: State, a: ActorId, n: nat): State
    decreases n
  {
    if n == 0 || a !in s.actors || !CanGo(cfg, s, s.actors[a]) then s
    else Alone(cfg, GoStep(cfg, s, a, s.actors[a]), a, n - 1)
  }

  /** The actor is through, and the store is `st`. */
  predicate Leaves(s: State, a: ActorId, st: Store) {
    a !in s.actors && s.store == st
  }

  lemma GoOn(cfg: Config, s: State, a: ActorId, n: nat)
    requires a in s.actors && CanGo(cfg, s, s.actors[a])
    ensures Alone(cfg, s, a, n + 1) == Alone(cfg, GoStep(cfg, s, a, s.actors[a]), a, n)
  {
  }

  /** Redis write, mark_synced and, when a message is owed, XACK. */
  lemma HandoffAlone(cfg: Config, s: State, a: ActorId, src: Option<Msg>, j: JobId, t: Target, n: nat)
    requires a in s.actors && s.actors[a] == Handoff(src, j, t) && n >= 3
    ensures var st := HandOff(s.store, j, t);
            Leaves(Alone(cfg, s, a, n), a, if src.Some? then XAck(st, src.value) else st)
  {
    GoOn(cfg, s, a, n - 1);
    var s1 := GoStep(cfg, s, a, s.actors[a]);
    GoOn(cfg, s1, a, n - 2);
    var s2 := GoStep(cfg, s1, a, s1.actors[a]);
    assert s2.store == HandOff(s.store, j, t);
    if src.Some? { AckAlone(cfg, s2, a, src.value, n - 2); }
  }

  lemma AckAlone(cfg: Config, s: State, a: ActorId, m: Msg, n: nat)
    requires a in s.actors && s.actors[a] == Acking(m) && n >= 1
    ensures Leaves(Alone(cfg, s, a, n), a, XAck(s.store, m))
  {
    GoOn(cfg, s, a, n - 1);
  }

  /** After the guarded write of a decision: the handoff it owes, if any, and the acknowledgement. */
  lemma DecisionAlone(cfg: Config, s: State, a: ActorId, m: Msg, j: JobId, snap: Row, error: Json, reaper: bool, n: nat)
    requires !Decide(cfg, snap).IndexError? && n >= 3
    requires reaper || Wins(DecisionUpdate(Decide(cfg, snap), s.now, error), s.store.rows, j)
    ensures Leaves(Alone(cfg, Settle(cfg, s, a, m, j, snap, error, reaper), a, n), a,
                   XAck(RetryOrFail(cfg, s.store, s.now, j, snap, error), m))
  {
    var s1 := Settle(cfg, s, a, m, j, snap, error, reaper);
    if s1.actors[a].Handoff? {
      HandoffAlone(cfg, s1, a, Some(m), j, s1.actors[a].target, n);
    } else {
      AckAlone(cfg, s1, a, m, n);
    }
  }

  /** One reaped entry. */
  lemma ReaperAlone(cfg: Config, s: State, a: ActorId, m: Msg)
    requires cfg.schedule != [] && a in s.actors && s.actors[a] == Reaping(m, EntryAt(s.store.streams, m))
    ensures Leaves(Alone(cfg, s, a, 5), a, ReapOne(cfg, s.store, s.now, m))
  {
    var e := EntryAt(s.store.streams, m);
    GoOn(cfg, s, a, 4);
    var s1 := GoStep(cfg, s, a, s.actors[a]);
    assert s1.store == s.store && s1.now == s.now;
    match s1.actors[a]
    case Reclaimed(_, j, snap) =>
      Decides(cfg, snap);
      GoOn(cfg, s1, a, 3);
      DecisionAlone(cfg, s1, a, m, j, snap, "WorkerLost", true, 3);
    case Handoff(_, j, t) => HandoffAlone(cfg, s1, a, Some(m), j, t, 4);
    case Acking(_) => AckAlone(cfg, s1, a, m, 4);
  }

  /** A submission: the insert, the Redis write and mark_synced of `Api.CreateAndHandoff`. */
  lemma SubmitterAlone(cfg: Config, s: State, a: ActorId, j: JobId, sub: Submission)
    requires Enabled(cfg, s, Submit(a, j, sub))
    ensures var r := NewRow(sub, cfg.maxAttempts, s.now);
            Leaves(Alone(cfg, Exec(cfg, s, Submit(a, j, sub)), a, 3), a,
                   HandOff(s.store.(rows := s.store.rows[j := r]), j, RowTarget(r)))
  {
    HandoffAlone(cfg, Exec(cfg, s, Submit(a, j, sub)), a, None, j, RowTarget(NewRow(sub, cfg.maxAttempts, s.now)), 3);
  }

  /** A retry call that won the reset, as in `Api.RetryJob`. */
  lemma RetrierAlone(cfg: Config, s: State, a: ActorId, j: JobId)
    requires Enabled(cfg, s, RetryCall(a, j))
    ensures Leaves(Alone(cfg, Exec(cfg, s, RetryCall(a, j)), a, 3), a,
                   HandOff(OnRow(s.store, ResetFailed, j), j, ToStream(s.store.rows[j].priority)))
  {
    HandoffAlone(cfg, Exec(cfg, s, RetryCall(a, j)), a, None, j, ToStream(s.store.rows[j].priority), 3);
  }

  /** One orphan of the reconciler: a listed row, handed off as `HandOffEach` does. */
  lemma ReconcilerAlone(cfg: Config, s: State, a: ActorId, j: JobId)
    requires Enabled(cfg, s, PickOrphan(a, j))
    ensures IsOrphan(s.store.rows[j], s.now - cfg.grace)
    ensures Leaves(Alone(cfg, Exec(cfg, s, PickOrphan(a, j)), a, 3), a, HandOffEach(s.store, [j]))
  {
    HandoffAlone(cfg, Exec(cfg, s, PickOrphan(a, j)), a, None, j, RowTarget(s.store.rows[j]), 3);
    assert [j][1..] == [];
  }

  /** The sweeps of the machine pick exactly what the queries return: the promoter what is due, */
  lemma PicksDue(cfg: Config, s: State, a: ActorId, j: JobId)
    requires a !in s.actors
    ensures Enabled(cfg, s, PickDue(a, j)) <==> j in DueIds(s.store.zset, s.now)
  {
    Ticker.DueExact(s.store.zset, s.now);
  }

  /** ... the reconciler the orphans, */
  lemma PicksOrphans(cfg: Config, s: State, a: ActorId, j: JobId)
    requires a !in s.actors
    ensures Enabled(cfg, s, PickOrphan(a, j))
       <==> j in s.store.rows && j in Orphans(s.store.rows, s.now - cfg.grace) && !Skipped(s.store.rows[j])
  {
    OrphansExact(s.store.rows, s.now - cfg.grace);
  }

  /** ... and the reaper the stale entries. */
  lemma PicksStale(cfg: Config, s: State, a: ActorId, m: Msg)
    requires a !in s.actors && StreamsOk(s.store)
    ensures Enabled(cfg, s, Reap(a, m)) <==> m in StaleMsgs(s.store, s.now, cfg.visibility)
  {
    StaleMsgsExact(s.store, s.now, cfg.visibility);
  }

  /** A delivery is a group read with COUNT 1. */
  lemma TakeIsRead(cfg: Config, s: State, a: ActorId, p: Priority)
    requires Enabled(cfg, s, Take(a, p))
    ensures Exec(cfg, s, Take(a, p)).store == Read(s.store, p, Worker(a), s.now, 1)
    ensures Exec(cfg, s, Take(a, p)).actors[a] == Held(Undelivered(s.store.streams, p)[0], EntryOf(s.store.streams, HeadOf(s, p)))
  {
    ReadOne(s.store, p, Worker(a), s.now);
  }

  /** A poison entry, or one whose job is not waiting: the worker just acks it, as in `Worker.HandleMessage`. */
  lemma SkipAlone(cfg: Config, s: State, a: ActorId, m: Msg, e: Option<JobId>)
    requires a in s.actors && s.actors[a] == Held(m, e) && (e.Some? ==> !Wins(Claim(s.now), s.store.rows, e.value))
    ensures Leaves(Alone(cfg, s, a, 2), a, XAck(s.store, m))
  {
    GoOn(cfg, s, a, 1);
    AckAlone(cfg, At(s, a, Acking(m)), a, m, 1);
  }

  /** A handler whose row has left processing writes nothing and leaves its message to the reaper. */
  lemma LateExitAlone(cfg: Config, s: State, a: ActorId, m: Msg, j: JobId, snap: Row, out: Outcome)
    requires a in s.actors && s.actors[a] == Running(m, j, snap) && Enabled(cfg, s, Finish(a, out))
    requires j in s.store.rows && s.store.rows[j].status != Processing
    ensures Leaves(Exec(cfg, s, Finish(a, out)), a, s.store)
  {
  }

  lemma DeliverIsRead(st: Store, p: Priority, c: Consumer, now: Time)
    requires Backlog(st.streams, p)
    ensures Deliver(st, p, c, now) == Read(st, p, c, now, 1)
    ensures Prefix(Undelivered(st.streams, p), 1) == [Msg(p, st.streams[p].next)]
  {
    ReadOne(st, p, c, now);
  }

  lemma DeliveriesCommute(st: Store, p: Priority, q: Priority, c: Consumer, now: Time)
    requires p != q && Backlog(st.streams, p) && Backlog(st.streams, q)
    ensures Deliver(Deliver(st, q, c, now), p, c, now) == Deliver(Deliver(st, p, c, now), q, c, now)
  {
    var s, t := st.streams[p], st.streams[q];
    UpdatesCommute(st.streams, p, s.(next := s.next + 1), q, t.(next := t.next + 1));
    UpdatesCommute(st.pel, Msg(p, s.next), Lease(c, now), Msg(q, t.next), Lease(c, now));
  }

  lemma UpdatesCommute<K, V>(m: map<K, V>, a: K, x: V, b: K, y: V)
    requires a != b
    ensures m[a := x][b := y] == m[b := y][a := x]
  {
  }

  /** A blocking read over two busy streams delivers the head of each. */
  lemma ReadBoth(st: Store, p: Priority, q: Priority, c: Consumer, now: Time)
    requires p != q && Backlog(st.streams, p) && Backlog(st.streams, q)
    ensures ReadAll(st, [p, q], c, now, 1)
         == Reading([Msg(p, st.streams[p].next), Msg(q, st.streams[q].next)], Deliver(Deliver(st, p, c, now), q, c, now))
  {
    var st1 := Deliver(st, p, c, now);
    DeliverIsRead(st, p, c, now);
    DeliverIsRead(st1, q, c, now);
    assert [p, q][1..] == [q] && [q][1..] == [];
    assert ReadAll(st1, [q], c, now, 1) == Reading([Msg(q, st.streams[q].next)], Deliver(st1, q, c, now));
  }

  /** The worker keeps the entry of the higher stream. */
  lemma TakeTwoIsRead(cfg: Config, s: State, a: ActorId, p: Priority, q: Priority)
    requires Enabled(cfg, s, TakeTwo(a, p, q))
    ensures var r := ReadAll(s.store, [p, q], Worker(a), s.now, 1); var s' := Exec(cfg, s, TakeTwo(a, p, q));
            && s'.store == r.end && |r.msgs| == 2 && Rank(r.msgs[0].prio) < Rank(r.msgs[1].prio)
            && a in s'.actors && s'.actors[a] == Held(r.msgs[0], EntryAt(s.store.streams, r.msgs[0]))
  {
    ReadBoth(s.store, p, q, Worker(a), s.now);
    DeliveriesCommute(s.store, p, q, Worker(a), s.now);
  }

  /** A reap starts with XAUTOCLAIM's effect on one stale entry. */
  lemma ReapIsAutoClaim(cfg: Config, s: State, a: ActorId, m: Msg)
    requires Enabled(cfg, s, Reap(a, m))
    ensures IsStale(s.store.pel, m, s.now, cfg.visibility)
    ensures var s' := Exec(cfg, s, Reap(a, m));
            && s'.store == s.store.(pel := Refresh(s.store.pel, [m], Lease(Reaper, s.now)))
            && s'.actors[a] == Reaping(m, EntryAt(s.store.streams, m))
  {
    assert s.store.pel[m := Lease(Reaper, s.now)] == Refresh(s.store.pel, [m], Lease(Reaper, s.now));
  }

  /** A cancel call on a waiting row, as in `Api.CancelRound`: cancel it, then ZREM. */
  lemma WithdrawAlone(cfg: Config, s: State, a: ActorId, j: JobId, k: nat, base: nat)
    requires a in s.actors && s.actors[a] == CancelTry(j, k, base) && j in s.store.rows && Waiting(s.store.rows[j].status)
    ensures var s' := Alone(cfg, s, a, 2);
            && s'.store == ZRem(OnRow(s.store, CancelWaiting(s.now), j), j)
            && a in s'.actors && s'.actors[a] == Answered(j, Ok200, base)
  {
    GoOn(cfg, s, a, 1);
    var s1 := GoStep(cfg, s, a, s.actors[a]);
    assert s1 == At(Plain(s, CancelWaiting(s.now), j), a, Withdrawing(j, base));
    GoOn(cfg, s1, a, 0);
  }

  lemma TryFails(cfg: Config, s: State, a: ActorId, j: JobId, k: nat, base: nat)
    requires j in s.store.rows && !Waiting(s.store.rows[j].status)
    ensures GoStep(cfg, s, a, CancelTry(j, k, base)) == At(s, a, CancelAsk(j, k, base))
  {
  }

  lemma AskFails(cfg: Config, s: State, a: ActorId, j: JobId, k: nat, base: nat)
    requires j in s.store.rows && s.store.rows[j].status != Processing
    ensures GoStep(cfg, s, a, CancelAsk(j, k, base)) == At(s, a, CancelLook(j, k, base))
  {
  }

  /** On a processing row: set the flag. */
  lemma AskAlone(cfg: Config, s: State, a: ActorId, j: JobId, k: nat, base: nat)
    requires a in s.actors && s.actors[a] == CancelTry(j, k, base) && j in s.store.rows && s.store.rows[j].status == Processing
    ensures var s' := Alone(cfg, s, a, 2);
            && s'.store == OnRow(s.store, RequestCancel(s.now), j)
            && a in s'.actors && s'.actors[a] == Answered(j, Accepted202, base)
  {
    GoOn(cfg, s, a, 1);
    TryFails(cfg, s, a, j, k, base);
    GoOn(cfg, At(s, a, CancelAsk(j, k, base)), a, 0);
  }

  /** On a finished row: change nothing and say what it is. */
  lemma RefuseAlone(cfg: Config, s: State, a: ActorId, j: JobId, k: nat, base: nat)
    requires a in s.actors && s.actors[a] == CancelTry(j, k, base) && j in s.store.rows && Terminal(s.store.rows[j].status)
    ensures var s' := Alone(cfg, s, a, 3); var st := s.store.rows[j].status;
            && s'.store == s.store
            && a in s'.actors && s'.actors[a] == Answered(j, if st == Cancelled then Ok200 else Conflict409(st), base)
  {
    GoOn(cfg, s, a, 2);
    TryFails(cfg, s, a, j, k, base);
    var s1 := At(s, a, CancelAsk(j, k, base));
    GoOn(cfg, s1, a, 1);
    AskFails(cfg, s1, a, j, k, base);
    GoOn(cfg, At(s1, a, CancelLook(j, k, base)), a, 0);
  }

  /** One promoted job. */
  lemma PromoterAlone(cfg: Config, s: State, a: ActorId, j: JobId)
    requires a in s.actors && s.actors[a] == Due(j) && j in s.store.rows
    ensures Leaves(Alone(cfg, s, a, 4), a, PromoteEach(s.store, [j]))
  {
    GoOn(cfg, s, a, 3);
    var s1 := GoStep(cfg, s, a, s.actors[a]);
    GoOn(cfg, s1, a, 2);
    var s2 := GoStep(cfg, s1, a, s1.actors[a]);
    GoOn(cfg, s2, a, 1);
    var s3 := GoStep(cfg, s2, a, s2.actors[a]);
    GoOn(cfg, s3, a, 0);
    var s4 := GoStep(cfg, s3, a, s3.actors[a]);
    PromoteOneJob(s.store, j);
  }

  lemma PromoteOneJob(st: Store, j: JobId)
    requires j in st.rows
    ensures PromoteEach(st, [j])
         == OnRow(ZRem(WriteRedis(st, j, ToStream(st.rows[j].priority)), j), PromoteScheduled, j)
  {
    var got, want := PromoteEach(st, [j]), OnRow(ZRem(WriteRedis(st, j, ToStream(st.rows[j].priority)), j), PromoteScheduled, j);
    assert forall k :: k in Elems([j]) <==> k == j;
    assert got.rows == want.rows;
    assert got.zset == want.zset;
    assert PushEach(st.streams, st.rows, [j]) == want.streams;
  }

  /** Claim and row read. */
  lemma ClaimAlone(cfg: Config, s: State, a: ActorId, m: Msg, j: JobId)
    requires a in s.actors && s.actors[a] == Held(m, Some(j)) && Wins(Claim(s.now), s.store.rows, j)
    ensures var s1 := Alone(cfg, s, a, 2);
            && a in s1.actors && s1.actors[a] == Running(m, j, Apply(Claim(s.now), s.store.rows[j]))
            && s1.store == OnRow(s.store, Claim(s.now), j) && s1.now == s.now
  {
    GoOn(cfg, s, a, 1);
    var s1 := GoStep(cfg, s, a, s.actors[a]);
    GoOn(cfg, s1, a, 0);
  }

  /** Claim, row read and, for an owned batch job, the initial progress. */
  function Started(cfg: Config, s: State, a: ActorId, r: Row): State
    requires Enabled(cfg, Alone(cfg, s, a, 2), Progress(a, 0))
  {
    var s1 := Alone(cfg, s, a, 2);
    if r.owner.Some? && r.kind == Batch then Exec(cfg, s1, Progress(a, 0)) else s1
  }

  lemma StartAlone(cfg: Config, s: State, a: ActorId, m: Msg, j: JobId)
    requires a in s.actors && s.actors[a] == Held(m, Some(j)) && Wins(Claim(s.now), s.store.rows, j)
    ensures Enabled(cfg, Alone(cfg, s, a, 2), Progress(a, 0))
    ensures var s1 := Started(cfg, s, a, s.store.rows[j]);
            && a in s1.actors && s1.actors[a] == Running(m, j, Apply(Claim(s.now), s.store.rows[j]))
            && s1.now == s.now && s1.store == AtExit(s.store, s.now, j, [])
            && j in s1.store.rows && s1.store.rows[j].status == Processing
  {
    ClaimAlone(cfg, s, a, m, j);
    ProgressAlone(cfg, Alone(cfg, s, a, 2), a, m, j, Apply(Claim(s.now), s.store.rows[j]));
  }

  lemma ProgressAlone(cfg: Config, s: State, a: ActorId, m: Msg, j: JobId, snap: Row)
    requires a in s.actors && s.actors[a] == Running(m, j, snap)
    requires j in s.store.rows && s.store.rows[j].status == Processing
    ensures var s' := Exec(cfg, s, Progress(a, 0));
            && s'.actors == s.actors && s'.now == s.now && s'.store == OnRow(s.store, WriteProgress(0), j)
            && j in s'.store.rows && s'.store.rows[j].status == Processing
  {
  }

  /** The exit of a handler whose row is still processing, and the acknowledgement. */
  lemma ExitAlone(cfg: Config, s: State, a: ActorId, m: Msg, j: JobId, snap: Row, out: Outcome)
    requires cfg.schedule != [] && a in s.actors && s.actors[a] == Running(m, j, snap)
    requires j in s.store.rows && s.store.rows[j].status == Processing && (snap.owner.None? ==> out.Rejects?)
    ensures Enabled(cfg, s, Finish(a, out))
    ensures Leaves(Alone(cfg, Exec(cfg, s, Finish(a, out)), a, 3), a, XAck(Exit(cfg, s.store, s.now, j, snap, out), m))
  {
    Decides(cfg, snap);
    if out.Fails? {
      DecisionAlone(cfg, s, a, m, j, snap, out.error, false, 3);
    } else {
      AckAlone(cfg, Exec(cfg, s, Finish(a, out)), a, m, 3);
    }
  }

  /** One delivered message whose job nobody else touches: claim, row read, exit, acknowledgement. */
  lemma WorkerAlone(cfg: Config, s: State, a: ActorId, m: Msg, j: JobId, out: Outcome)
    requires cfg.schedule != [] && a in s.actors && s.actors[a] == Held(m, Some(j)) && Wins(Claim(s.now), s.store.rows, j)
    requires s.store.rows[j].owner.None? ==> out.Rejects?
    ensures Enabled(cfg, Alone(cfg, s, a, 2), Progress(a, 0))
    ensures var r := s.store.rows[j]; var s1 := Started(cfg, s, a, r);
            && Enabled(cfg, s1, Finish(a, out))
            && Leaves(Alone(cfg, Exec(cfg, s1, Finish(a, out)), a, 3), a,
                      XAck(Exit(cfg, AtExit(s.store, s.now, j, []), s.now, j, Apply(Claim(s.now), r), out), m))
  {
    StartAlone(cfg, s, a, m, j);
    var r := s.store.rows[j];
    ExitAlone(cfg, Started(cfg, s, a, r), a, m, j, Apply(Claim(s.now), r), out);
  }
}
