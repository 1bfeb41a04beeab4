/** app/worker/runner.py: one delivered message, from claim to acknowledgement, and the retry ladder. */
module Worker {
  import opened Jobs
  import opened Queue
  import opened Retry
  import opened Order
  import opened Sweeps
  import opened Protocol
  import opened Backend
  import opened Ticker

  /** The row the handler leaves its exit statement to: claimed, and changed by nobody or by others. */
  function AtExit(st: Store, now: Time, j: JobId, others: seq<Update>): Store {
    var st1 := OnRow(st, Claim(now), j);
    if j in st1.rows && st1.rows[j].owner.None? then st1
    else
      var st2 := if j in st1.rows && st1.rows[j].kind == Batch then OnRow(st1, WriteProgress(0), j) else st1;
      st2.(rows := Later(st2.rows, j, others))
  }

  /** The exit statement of a handler that ran on snapshot `snap` and ended with `out`. */
  function Exit(cfg: Config, st: Store, now: Time, j: JobId, snap: Row, out: Outcome): Store
    requires cfg.schedule != []
  {
    if snap.owner.None? then OnRow(st, Fail(now, "ownerless job dropped"), j)
    else if out.Fails? then Decides(cfg, snap); RetryOrFail(cfg, st, now, j, snap, out.error)
    else OnRow(st, OutcomeUpdate(out, now, snap), j)
  }

  /** The claim was lost, or the row is still in `processing` when the exit is written. */
  predicate Settles(st: Store, now: Time, j: JobId, others: seq<Update>) {
    var st' := AtExit(st, now, j, others);
    !Wins(Claim(now), st.rows, j) || (j in st'.rows && st'.rows[j].status == Processing)
  }

  /** The stores after `process_job`: nothing new without the claim, no exit once the row has left `processing`. */
  function Processed(cfg: Config, st: Store, now: Time, j: JobId, out: Outcome, others: seq<Update>): Store
    requires cfg.schedule != []
  {
    if !Wins(Claim(now), st.rows, j) then st
    else if !Settles(st, now, j, others) then AtExit(st, now, j, others)
    else Exit(cfg, AtExit(st, now, j, others), now, j, Apply(Claim(now), st.rows[j]), out)
  }

  // ----- the same on the columns -----

  /** The row as the handler starts on it. */
  function Begun(r0: Row, now: Time): Row {
    r0.(status := Processing, startedAt := Some(now),
        progress := if r0.owner.Some? && r0.kind == Batch then Some(0) else r0.progress)
  }

  /** The table that the handler's exit finds: what others committed on the row meanwhile is in it. */
  function Found(rows: Table, now: Time, j: JobId, others: seq<Update>): Table
    requires j in rows
  {
    var begun := rows[j := Begun(rows[j], now)];
    if rows[j].owner.None? then begun else Later(begun, j, others)
  }

  /** How the handler's outcome leaves the row `r` that it finds at its exit; `r0` is the row before the claim. */
  predicate EndsAs(cfg: Config, r0: Row, r: Row, r': Row, now: Time, out: Outcome) {
    if r0.owner.None? then
      r' == r.(status := Failed, error := Some("ownerless job dropped"), completedAt := Some(now), attempts := r.attempts + 1)
    else
      match out
      case Completes(value) =>
        r' == r.(status := Completed, result := Some(value), completedAt := Some(now), attempts := r.attempts + 1,
                 progress := if r0.kind == Batch then Some(100) else r.progress)
      case Cancels(summary) => r' == r.(status := Cancelled, result := Some(summary), completedAt := Some(now))
      case Rejects(error) =>
        r' == r.(status := Failed, error := Some(error), completedAt := Some(now), attempts := r.attempts + 1)
      case Fails(error) => RetriedOrFailed(cfg, r0, r, r', now, error)
  }

  /** What `process_job` leaves of the table, of the streams and of the delayed set. */
  ghost predicate RunsTo(cfg: Config, st: Store, st': Store, now: Time, j: JobId, out: Outcome, others: seq<Update>) {
    if !(j in st.rows && st.rows[j].status in {Pending, Scheduled}) then
      st'.rows == st.rows && st'.streams == st.streams && st'.zset == st.zset
    else
      var rows := Found(st.rows, now, j, others);
      && j in rows && j in st'.rows && st'.rows == rows[j := st'.rows[j]]
      && (rows[j].status == Processing ==> EndsAs(cfg, st.rows[j], rows[j], st'.rows[j], now, out))
      && (rows[j].status != Processing ==> st'.rows[j] == rows[j])
      && if rows[j].status == Processing && st.rows[j].owner.Some? && out.Fails? then RetrySent(cfg, st.rows[j], st, st', now, j)
         else st'.streams == st.streams && st'.zset == st.zset
  }

  /** The message is done with: the row did not wait for a claim, or is still processing when the exit is written. */
  predicate Acks(st: Store, now: Time, j: JobId, others: seq<Update>) {
    if j in st.rows && st.rows[j].status in {Pending, Scheduled} then
      var rows := Found(st.rows, now, j, others);
      j in rows && rows[j].status == Processing
    else true
  }

  lemma AtExitStarts(st: Store, now: Time, j: JobId, others: seq<Update>)
    requires j in st.rows && Waiting(st.rows[j].status)
    ensures var st1 := AtExit(st, now, j, others);
            && j in st1.rows && st1.streams == st.streams && st1.zset == st.zset && st1.pel == st.pel
            && st1.rows == Found(st.rows, now, j, others)
  {
    var st1 := OnRow(st, Claim(now), j);
    var st2 := if st1.rows[j].owner.Some? && st1.rows[j].kind == Batch then OnRow(st1, WriteProgress(0), j) else st1;
    assert st2.rows == st.rows[j := Begun(st.rows[j], now)];
    LaterKeepsJobs(st2.rows, j, others);
  }

  /** An exit on a row that is still processing. */
  lemma ExitColumns(cfg: Config, st: Store, now: Time, j: JobId, r0: Row, out: Outcome)
    requires cfg.schedule != [] && j in st.rows && st.rows[j].status == Processing
    ensures var st' := Exit(cfg, st, now, j, Apply(Claim(now), r0), out);
            && j in st'.rows && st'.rows == st.rows[j := st'.rows[j]] && st'.pel == st.pel
            && EndsAs(cfg, r0, st.rows[j], st'.rows[j], now, out)
            && if r0.owner.Some? && out.Fails? then RetrySent(cfg, r0, st, st', now, j)
               else st'.streams == st.streams && st'.zset == st.zset
  {
    if r0.owner.Some? && out.Fails? {
      Decides(cfg, Apply(Claim(now), r0));
      RetryColumns(cfg, st, now, j, Apply(Claim(now), r0), out.error);
    }
  }

  lemma ProcessedColumns(cfg: Config, st: Store, now: Time, j: JobId, out: Outcome, others: seq<Update>)
    requires cfg.schedule != []
    ensures RunsTo(cfg, st, Processed(cfg, st, now, j, out, others), now, j, out, others)
    ensures Settles(st, now, j, others) <==> Acks(st, now, j, others)
  {
    if Wins(Claim(now), st.rows, j) {
      AtExitStarts(st, now, j, others);
      var st1 := AtExit(st, now, j, others);
      if st1.rows[j].status == Processing { ExitColumns(cfg, st1, now, j, st.rows[j], out); }
    }
  }

  /** The rest of `process_job` once the claim has won: read the row, run, write the exit. */
  method RunClaimed(db: Database, redis: Redis, cfg: Config, now: Time, j: JobId, out: Outcome, others: seq<Update>,
                    ghost st: Store) returns (ack: bool)
    requires cfg.schedule != [] && Wins(Claim(now), st.rows, j) && Snapshot(db, redis) == OnRow(st, Claim(now), j)
    modifies db, redis
    ensures ack == Settles(st, now, j, others)
    ensures Snapshot(db, redis) == Processed(cfg, st, now, j, out, others)
  {
    var job := db.rows[j];
    if job.owner.None? {
      ack := db.Execute(Fail(now, "ownerless job dropped"), j);
      return;
    }
    if job.kind == Batch { var _ := db.Execute(WriteProgress(0), j); }
    db.ExecuteEach(j, others);
    match out {
      case Completes(value) => ack := db.Execute(Complete(now, value, if job.kind == Batch then Some(100) else None), j);
      case Cancels(summary) => ack := db.Execute(CancelRunning(now, summary), j);
      case Rejects(error) => ack := db.Execute(Fail(now, error), j);
      case Fails(error) => ack := ScheduleRetryOrFail(db, redis, cfg, now, j, job, error);
    }
  }

  /** `process_job`: claim, run, write the exit; the result says whether to acknowledge. */
  method ProcessJob(db: Database, redis: Redis, cfg: Config, now: Time, j: JobId, out: Outcome, others: seq<Update>)
      returns (ack: bool)
    requires cfg.schedule != []
    modifies db, redis
    ensures ack == Settles(old(Snapshot(db, redis)), now, j, others)
    ensures Snapshot(db, redis) == Processed(cfg, old(Snapshot(db, redis)), now, j, out, others)
    ensures RunsTo(cfg, old(Snapshot(db, redis)), Snapshot(db, redis), now, j, out, others)
    ensures ack <==> Acks(old(Snapshot(db, redis)), now, j, others)
  {
    ghost var st := Snapshot(db, redis);
    ack := db.Execute(Claim(now), j);
    if !ack {
      ack := true;
    } else {
      ack := RunClaimed(db, redis, cfg, now, j, out, others, st);
    }
    ghost var end := Processed(cfg, st, now, j, out, others);
    ProcessedColumns(cfg, st, now, j, out, others);
    assert Snapshot(db, redis) == end;
  }

  /** The message of job `j` is handled: the job processed, and the message acked unless the exit was lost. */
  ghost predicate Handled(cfg: Config, st: Store, st': Store, now: Time, m: Msg, j: JobId, out: Outcome,
                          others: seq<Update>, acked: bool)
    requires cfg.schedule != []
  {
    var done := Processed(cfg, st, now, j, out, others);
    && (acked <==> Settles(st, now, j, others)) && (acked <==> Acks(st, now, j, others))
    && st' == (if acked then XAck(done, m) else done)
    && st'.pel == (if acked then st.pel - {m} else st.pel)
    && RunsTo(cfg, st, st', now, j, out, others)
  }

  lemma ProcessedIsHandled(cfg: Config, st: Store, now: Time, m: Msg, j: JobId, out: Outcome, others: seq<Update>)
    requires cfg.schedule != []
    ensures var done := Processed(cfg, st, now, j, out, others); var acked := Settles(st, now, j, others);
            Handled(cfg, st, if acked then XAck(done, m) else done, now, m, j, out, others, acked)
  {
    ProcessedColumns(cfg, st, now, j, out, others);
    ProcessedKeepsPel(cfg, st, now, j, out, others);
  }

  lemma ProcessedKeepsPel(cfg: Config, st: Store, now: Time, j: JobId, out: Outcome, others: seq<Update>)
    requires cfg.schedule != []
    ensures Processed(cfg, st, now, j, out, others).pel == st.pel
  {
    if Wins(Claim(now), st.rows, j) {
      AtExitStarts(st, now, j, others);
      var st1 := AtExit(st, now, j, others);
      if st1.rows[j].status == Processing { ExitColumns(cfg, st1, now, j, st.rows[j], out); }
    }
  }

  /** `handle_message`: poison and skipped messages are acked; a lost exit leaves the message to the reaper. */
  method HandleMessage(db: Database, redis: Redis, cfg: Config, now: Time, m: Msg, out: Outcome, others: seq<Update>)
      returns (acked: bool)
    requires cfg.schedule != [] && HasEntry(redis.streams, m)
    modifies db, redis
    ensures EntryOf(old(redis.streams), m).None? ==> acked && Snapshot(db, redis) == XAck(old(Snapshot(db, redis)), m)
    ensures EntryOf(old(redis.streams), m).Some? ==>
              Handled(cfg, old(Snapshot(db, redis)), Snapshot(db, redis), now, m, EntryOf(old(redis.streams), m).value,
                      out, others, acked)
  {
    var entry := EntryOf(redis.streams, m);
    if entry.None? {
      redis.Ack(m);
      return true;
    }
    ProcessedIsHandled(cfg, Snapshot(db, redis), now, m, entry.value, out, others);
    acked := ProcessJob(db, redis, cfg, now, entry.value, out, others);
    if acked { redis.Ack(m); }
  }

  // ----- the retry ladder -----

  predicate Climbs(cfg: Config, st: Store, j: JobId) {
    cfg.schedule != [] && j in st.rows && Waiting(st.rows[j].status)
  }

  /** One execution that fails retryably: claim, fail, retry or give up. */
  function FailOnce(cfg: Config, st: Store, now: Time, j: JobId): Store
    requires Climbs(cfg, st, j)
  {
    var st1 := OnRow(st, Claim(now), j);
    Decides(cfg, st1.rows[j]);
    RetryOrFail(cfg, st1, now, j, st1.rows[j], "handler failed")
  }

  /** The same table with another progress in one row. */
  function WithProgress(st: Store, j: JobId, pct: int): Store
    requires j in st.rows
  {
    st.(rows := st.rows[j := st.rows[j].(progress := Some(pct))])
  }

  lemma UpdateIgnoresProgress(st: Store, u: Update, j: JobId, pct: int)
    requires j in st.rows && (u.Fail? || u.RetryToPending? || u.RetryToScheduled? || u.MarkSynced?)
    ensures OnRow(WithProgress(st, j, pct), u, j) == WithProgress(OnRow(st, u, j), j, pct)
  {
    var got, want := OnRow(WithProgress(st, j, pct), u, j).rows, WithProgress(OnRow(st, u, j), j, pct).rows;
    assert got.Keys == want.Keys && got[j] == want[j];
    assert got == want;
  }

  /** The retry decision neither reads nor writes the progress. */
  lemma RetryIgnoresProgress(cfg: Config, st: Store, now: Time, j: JobId, snap: Row, pct: int, error: Json)
    requires cfg.schedule != [] && j in st.rows
    ensures !Decide(cfg, snap).IndexError? && j in RetryOrFail(cfg, st, now, j, snap, error).rows
    ensures RetryOrFail(cfg, WithProgress(st, j, pct), now, j, snap, error)
         == WithProgress(RetryOrFail(cfg, st, now, j, snap, error), j, pct)
  {
    Decides(cfg, snap);
    var d := Decide(cfg, snap);
    var u := DecisionUpdate(d, now, error);
    UpdateIgnoresProgress(st, u, j, pct);
    var st1 := OnRow(st, u, j);
    match DecisionTarget(d, now, snap.priority)
    case None =>
    case Some(t) =>
      assert WriteRedis(WithProgress(st1, j, pct), j, t) == WithProgress(WriteRedis(st1, j, t), j, pct);
      UpdateIgnoresProgress(WriteRedis(st1, j, t), MarkSynced, j, pct);
  }

  /** That is `process_job` undisturbed, for an owned job; a batch job's progress also starts at 0. */
  lemma FailOnceIsExit(cfg: Config, st: Store, now: Time, j: JobId)
    requires Climbs(cfg, st, j) && st.rows[j].owner.Some?
    ensures j in FailOnce(cfg, st, now, j).rows
    ensures Exit(cfg, AtExit(st, now, j, []), now, j, Apply(Claim(now), st.rows[j]), Fails("handler failed"))
         == if st.rows[j].kind == Batch then WithProgress(FailOnce(cfg, st, now, j), j, 0) else FailOnce(cfg, st, now, j)
  {
    var st1 := OnRow(st, Claim(now), j);
    RetryIgnoresProgress(cfg, st1, now, j, st1.rows[j], 0, "handler failed");
    assert AtExit(st, now, j, []) == if st.rows[j].kind == Batch then WithProgress(st1, j, 0) else st1;
  }

  /** One rung: one more attempt, and either the end or a pointer to the job at the right place and time. */
  lemma FailOnceRow(cfg: Config, st: Store, now: Time, j: JobId)
    requires Climbs(cfg, st, j)
    ensures var st1 := FailOnce(cfg, st, now, j); var n := st.rows[j].attempts + 1;
            && j in st1.rows && st1.rows[j].attempts == n
            && st1.rows[j].maxAttempts == st.rows[j].maxAttempts
            && BackoffDelay(n, cfg.schedule).Some?
            && (var d := BackoffDelay(n, cfg.schedule).value;
                if n >= st.rows[j].maxAttempts then st1.rows[j].status == Failed
                else if d <= 0 then st1.rows[j].status == Pending && (StreamsOk(st) ==> Queued(st1, j))
                else st1.rows[j].status == Scheduled && j in st1.zset && st1.zset[j] == now + d)
            && (n < st.rows[j].maxAttempts ==> st1.rows[j].synced)
            && st1.rows[j].status in {Failed, Pending, Scheduled}
            && (st1.rows[j].status == Scheduled ==> j in st1.zset)
  {
    var n := st.rows[j].attempts + 1;
    BackoffIsClampedLookup(n, cfg.schedule);
    var st1 := FailOnce(cfg, st, now, j);
    if n < st.rows[j].maxAttempts && BackoffDelay(n, cfg.schedule).value <= 0 {
      var p := st.rows[j].priority;
      if StreamsOk(st) { assert UndeliveredAt(st1.streams[p], |st.streams[p].entries|, j); }
    }
  }

  lemma PromoteOne(st: Store, j: JobId)
    requires j in st.rows && st.rows[j].status == Scheduled
    ensures var st' := PromoteEach(st, [j]);
            j in st'.rows && st'.rows[j] == st.rows[j].(status := Pending)
  {
    assert j in Elems([j]);
  }

  /** The wait before the retry that follows `n` attempts. */
  function WaitAfter(cfg: Config, n: nat): int
    requires cfg.schedule != [] && n >= 1
  {
    BackoffIsClampedLookup(n, cfg.schedule);
    var d := BackoffDelay(n, cfg.schedule).value;
    if d <= 0 then 0 else d
  }

  datatype Rung = Done(end: Store) | Again(st: Store, at: Time)

  /** One failed execution, and the promotion of its delayed retry the moment it is due. */
  function Rise(cfg: Config, st: Store, now: Time, j: JobId): Rung
    requires Climbs(cfg, st, j)
  {
    var st1 := FailOnce(cfg, st, now, j);
    FailOnceRow(cfg, st, now, j);
    if st1.rows[j].status == Failed then Done(st1)
    else if st1.rows[j].status == Pending then Again(st1, now)
    else Again(PromoteEach(st1, [j]), st1.zset[j])
  }

  /** A rung after `a` attempts: the end when no attempt is left, or a wait of exactly the backoff. */
  predicate Rises(cfg: Config, a: nat, max: int, j: JobId, now: Time, rung: Rung)
    requires cfg.schedule != []
  {
    && (rung.Done? <==> a + 1 >= max)
    && (rung.Done? ==> j in rung.end.rows && rung.end.rows[j].status == Failed && rung.end.rows[j].attempts == a + 1)
    && (rung.Again? ==> rung.at - now == WaitAfter(cfg, a + 1))
  }

  /** One more failed execution is one more attempt, and the job is out of attempts or waiting again. */
  lemma RiseExact(cfg: Config, st: Store, now: Time, j: JobId)
    requires Climbs(cfg, st, j)
    ensures var rung := Rise(cfg, st, now, j);
            && Rises(cfg, st.rows[j].attempts, st.rows[j].maxAttempts, j, now, rung)
            && (rung.Again? ==>
                  && Climbs(cfg, rung.st, j) && rung.st.rows[j].attempts == st.rows[j].attempts + 1
                  && rung.st.rows[j].maxAttempts == st.rows[j].maxAttempts)
  {
    FailOnceRow(cfg, st, now, j);
    var st1 := FailOnce(cfg, st, now, j);
    if st1.rows[j].status == Scheduled { PromoteOne(st1, j); }
  }

  datatype Climb = Climb(claims: nat, waits: seq<int>, end: Store)

  predicate Exact(cfg: Config, a: nat, max: int, j: JobId, c: Climb)
    requires cfg.schedule != []
  {
    && c.claims == (if a < max then max - a else 1)
    && |c.waits| == c.claims - 1
    && (forall k | 0 <= k < |c.waits| :: c.waits[k] == WaitAfter(cfg, a + 1 + k))
    && j in c.end.rows && c.end.rows[j].status == Failed
    && c.end.rows[j].attempts == (if a < max then max else a + 1)
  }

  /** One rung below a ladder. */
  function Extend(cfg: Config, a: nat, max: int, j: JobId, now: Time, rung: Rung, rest: Option<Climb>): (c: Climb)
    requires cfg.schedule != [] && Rises(cfg, a, max, j, now, rung)
    requires rung.Again? ==> rest.Some? && Exact(cfg, a + 1, max, j, rest.value)
    ensures Exact(cfg, a, max, j, c)
  {
    match rung
    case Done(end) => Climb(1, [], end)
    case Again(_, at) => Climb(1 + rest.value.claims, [at - now] + rest.value.waits, rest.value.end)
  }

  /**
   * Failed executions one after the other, until the job is out of attempts.  It is claimed
   * exactly `max_attempts` times, waits exactly the backoff delays in between, and ends failed
   * with `attempts = max_attempts`.  A row at or past its last attempt gets one more claim.
   */
  function Ladder(cfg: Config, st: Store, now: Time, j: JobId): (c: Climb)
    requires Climbs(cfg, st, j)
    ensures Exact(cfg, st.rows[j].attempts, st.rows[j].maxAttempts, j, c)
    decreases st.rows[j].maxAttempts - st.rows[j].attempts
  {
    RiseExact(cfg, st, now, j);
    Extend(cfg, st.rows[j].attempts, st.rows[j].maxAttempts, j, now, Rise(cfg, st, now, j),
           match Rise(cfg, st, now, j)
           case Done(_) => None
           case Again(st', at) => Some(Ladder(cfg, st', at, j)))
  }
}
