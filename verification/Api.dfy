/** app/api/routes.py: submit, retry and cancel, with what others commit between their statements. */
module Api {
  import opened Jobs
  import opened Queue
  import opened Retry
  import opened Backend
  import opened Sweeps
  import Idempotency
  import Ticker

  datatype Response =
    | Accepted(id: JobId)     // 202
    | Replayed(id: JobId)     // 200
    | Done                    // 200
    | CancelAsked             // 202
    | NotFound                // 404
    | KeyReused               // 409
    | NotRetryable            // 409
    | NotCancellable          // 409
    | StateChanging           // 409

  /** The row that a submission stores, column by column. */
  predicate Inserted(r: Row, sub: Submission, maxAttempts: int, now: Time) {
    && r.owner == sub.owner && r.kind == sub.kind && r.priority == sub.priority && r.key == sub.key && r.hash == sub.hash
    && r.attempts == 0 && r.maxAttempts == (if sub.kind == Batch then 1 else maxAttempts) && r.createdAt == now
    && r.startedAt.None? && r.completedAt.None? && r.progress.None? && r.cancelRequestedAt.None?
    && r.result.None? && r.error.None? && r.synced
    && if sub.scheduledAt.Some? && sub.scheduledAt.value > now then r.status == Scheduled && r.scheduledAt == sub.scheduledAt
       else r.status == Pending && r.scheduledAt.None?
  }

  /** That row is new, and Redis holds one pointer more: a delayed entry when the job is due later, else a message. */
  ghost predicate Submitted(st: Store, st': Store, sub: Submission, maxAttempts: int, now: Time, j: JobId) {
    && j in st'.rows && st'.rows == st.rows[j := st'.rows[j]] && Inserted(st'.rows[j], sub, maxAttempts, now)
    && st'.pel == st.pel
    && if sub.scheduledAt.Some? && sub.scheduledAt.value > now then
         st'.streams == st.streams && st'.zset == st.zset[j := sub.scheduledAt.value]
       else Sent(st.streams, st'.streams, sub.priority, j) && st'.zset == st.zset
  }

  lemma InsertColumns(st: Store, sub: Submission, maxAttempts: int, now: Time, j: JobId)
    ensures var r := NewRow(sub, maxAttempts, now);
            Submitted(st, HandOff(st.(rows := st.rows[j := r]), j, RowTarget(r)), sub, maxAttempts, now, j)
  {
    var r := NewRow(sub, maxAttempts, now);
    HandOffEffect(st.(rows := st.rows[j := r]), j);
  }

  /** `_create_and_handoff`; not ok is the IntegrityError of the unique index. */
  method CreateAndHandoff(db: Database, redis: Redis, cfg: Config, now: Time, sub: Submission, j: JobId)
      returns (ok: bool)
    requires j !in db.rows
    modifies db, redis
    ensures ok <==> (sub.owner.Some? && sub.key.Some? ==> ByKey(old(db.rows), sub.owner.value, sub.key.value).None?)
    ensures !ok ==> Snapshot(db, redis) == old(Snapshot(db, redis))
    ensures ok ==>
              var st := old(Snapshot(db, redis)); var r := NewRow(sub, cfg.maxAttempts, now);
              Snapshot(db, redis) == HandOff(st.(rows := st.rows[j := r]), j, RowTarget(r))
    ensures ok ==> Submitted(old(Snapshot(db, redis)), Snapshot(db, redis), sub, cfg.maxAttempts, now, j)
  {
    InsertColumns(Snapshot(db, redis), sub, cfg.maxAttempts, now, j);
    var r := NewRow(sub, cfg.maxAttempts, now);
    ok := db.Insert(j, r);
    if ok {
      if Deferred(sub, now) {
        Ticker.HandOffJob(db, redis, j, ToDelayed(sub.scheduledAt.value));
      } else {
        Ticker.HandOffJob(db, redis, j, ToStream(sub.priority));
      }
    }
  }

  /** The unique index, as a fact about the table. */
  ghost predicate KeysUnique(rows: Table) {
    forall a: JobId, b: JobId, o: nat, k: string | Stores(rows, a, o, k) && Stores(rows, b, o, k) :: a == b
  }

  lemma InsertKeepsUnique(st: Store, j: JobId, r: Row, t: Target)
    requires KeysUnique(st.rows) && j !in st.rows
    requires r.owner.Some? && r.key.Some? ==> ByKey(st.rows, r.owner.value, r.key.value).None?
    ensures KeysUnique(HandOff(st.(rows := st.rows[j := r]), j, t).rows)
  {
    var rows' := HandOff(st.(rows := st.rows[j := r]), j, t).rows;
    forall a: JobId, o: nat, k: string | Stores(rows', a, o, k)
      ensures if a == j then r.owner == Some(o) && r.key == Some(k) else Stores(st.rows, a, o, k)
    {
    }
  }

  /** `submit_job`; `racers` are the jobs that other calls insert between the lookup and the insert. */
  method SubmitJob(db: Database, redis: Redis, cfg: Config, now: Time, sub: Submission, j: JobId, racers: Table)
      returns (reply: Response)
    requires sub.owner.Some? && (sub.key.Some? ==> sub.hash.Some?)
    requires j !in db.rows && j !in racers && racers.Keys !! db.rows.Keys && KeysUnique(db.rows + racers)
    modifies db, redis
    ensures reply.Accepted? || reply.Replayed? || reply.KeyReused?
    ensures reply.Accepted? ==>
              var st := old(Snapshot(db, redis)); var r := NewRow(sub, cfg.maxAttempts, now);
              && reply.id == j
              && (sub.key.Some? ==> ByKey(st.rows + racers, sub.owner.value, sub.key.value).None?)
              && Snapshot(db, redis) == HandOff(st.(rows := (st.rows + racers)[j := r]), j, RowTarget(r))
              && Submitted(st.(rows := st.rows + racers), Snapshot(db, redis), sub, cfg.maxAttempts, now, j)
    ensures !reply.Accepted? ==>
              && redis.streams == old(redis.streams) && redis.zset == old(redis.zset) && redis.pel == old(redis.pel)
              && (db.rows == old(db.rows) || db.rows == old(db.rows) + racers)
              && sub.key.Some?
              && exists id :: Stores(db.rows, id, sub.owner.value, sub.key.value)
                   && if db.rows[id].hash == sub.hash then reply == Replayed(id) else reply == KeyReused
    ensures KeysUnique(db.rows)
    ensures sub.key.Some? ==>
              reply == CallReply(old(db.rows), old(db.rows) + racers,
                                 Idempotency.Request(sub.owner.value, sub.key.value, sub.hash.value), j)
  {
    assert forall a: JobId, o: nat, k: string | Stores(db.rows, a, o, k) :: Stores(db.rows + racers, a, o, k);
    if sub.key.None? {
      db.rows := db.rows + racers;
      InsertKeepsUnique(Snapshot(db, redis), j, NewRow(sub, cfg.maxAttempts, now), RowTarget(NewRow(sub, cfg.maxAttempts, now)));
      var _ := CreateAndHandoff(db, redis, cfg, now, sub, j);
      return Accepted(j);
    }
    var existing := db.GetByKey(sub.owner.value, sub.key.value);
    if existing.Some? {
      reply := ReplayOrConflict(db, existing, sub.hash);
      return;
    }
    db.rows := db.rows + racers;
    ghost var st := Snapshot(db, redis);
    var ok := CreateAndHandoff(db, redis, cfg, now, sub, j);
    if ok {
      InsertKeepsUnique(st, j, NewRow(sub, cfg.maxAttempts, now), RowTarget(NewRow(sub, cfg.maxAttempts, now)));
      return Accepted(j);
    }
    existing := db.GetByKey(sub.owner.value, sub.key.value);
    reply := ReplayOrConflict(db, existing, sub.hash);
  }

  /** `_replay_or_conflict`. */
  method ReplayOrConflict(db: Database, existing: Option<JobId>, hash: Option<string>) returns (reply: Response)
    requires existing.Some? ==> existing.value in db.rows
    ensures reply == if existing.Some? && db.rows[existing.value].hash == hash then Replayed(existing.value) else KeyReused
  {
    if existing.Some? && db.rows[existing.value].hash == hash { return Replayed(existing.value); }
    reply := KeyReused;
  }

  // ----- a submission is a call of the interleaved submissions -----

  /** A row with those columns is one that such a call may create. */
  lemma InsertIsCreate(s: Idempotency.State, c: Idempotency.CallId, j: JobId, r: Row, sub: Submission, maxAttempts: int, now: Time)
    requires Idempotency.InPhase(s, c, Idempotency.Creating) && j !in s.rows && Inserted(r, sub, maxAttempts, now)
    requires var req := s.calls[c].req; sub.owner == Some(req.owner) && sub.key == Some(req.key) && sub.hash == Some(req.hash)
    ensures Idempotency.Legal(s, Idempotency.Create(c, j, r))
  {
  }

  /** What a call is answered whose lookup finds the table `rows` and whose insert finds `rows'`. */
  ghost function CallReply(rows: Table, rows': Table, req: Idempotency.Request, j: JobId): Response {
    var first, second := ByKey(rows, req.owner, req.key), ByKey(rows', req.owner, req.key);
    if first.Some? then Shown(Idempotency.ReplayOrConflict(rows, first, req.hash))
    else if second.Some? then Shown(Idempotency.ReplayOrConflict(rows', second, req.hash))
    else Accepted(j)
  }

  function Shown(reply: Idempotency.Reply): Response {
    match reply
    case Accepted(id) => Accepted(id)
    case Replayed(id) => Replayed(id)
    case Conflict => KeyReused
  }

  /** The call has its answer, to be handed over in its next step. */
  predicate Decided(s: Idempotency.State, c: Idempotency.CallId, reply: Response) {
    c in s.calls && s.calls[c].phase.Answering? && Shown(s.calls[c].phase.reply) == reply
  }

  /**
   * That is what the steps of the call lead to: its lookup in `s` or, when that finds nothing, its insert
   * in whatever state `s1` the others have brought about by then, and what follows the insert.
   */
  lemma CallReplyIsRun(s: Idempotency.State, s1: Idempotency.State, c: Idempotency.CallId, j: JobId, r: Row)
    requires Idempotency.InPhase(s, c, Idempotency.Looking) && Idempotency.InPhase(s1, c, Idempotency.Creating)
    requires s1.calls[c].req == s.calls[c].req && Idempotency.Legal(s1, Idempotency.Create(c, j, r))
    ensures var req := s.calls[c].req; var reply := CallReply(s.rows, s1.rows, req, j);
            var looked := Idempotency.Next(s, Idempotency.LookUp(c));
            if ByKey(s.rows, req.owner, req.key).Some? then Decided(looked, c, reply)
            else
              && Idempotency.InPhase(looked, c, Idempotency.Creating)
              && var created := Idempotency.Next(s1, Idempotency.Create(c, j, r));
                 if ByKey(s1.rows, req.owner, req.key).Some? then
                   && Idempotency.Legal(created, Idempotency.LookUpAgain(c))
                   && Decided(Idempotency.Next(created, Idempotency.LookUpAgain(c)), c, reply)
                 else
                   && Idempotency.Legal(created, Idempotency.HandOff(c))
                   && Decided(Idempotency.Next(created, Idempotency.HandOff(c)), c, reply)
                   && created.rows == s1.rows[j := r]
  {
  }

  ghost predicate SameKeys(rows: Table, rows': Table) {
    && rows'.Keys == rows.Keys
    && forall i | i in rows :: rows'[i].owner == rows[i].owner && rows'[i].key == rows[i].key && rows'[i].hash == rows[i].hash
  }

  lemma CommitKeepsKeys(rows: Table, u: Update, j: JobId)
    ensures SameKeys(rows, Commit(u, rows, j))
  {
  }

  /** Committed UPDATEs of whatever kind keep the pair and the hash of every row. */
  lemma {:induction false} LaterKeepsKeys(rows: Table, j: JobId, us: seq<Update>)
    ensures SameKeys(rows, Later(rows, j, us))
    decreases |us|
  {
    if us != [] {
      CommitKeepsKeys(rows, us[0], j);
      LaterKeepsKeys(Commit(us[0], rows, j), j, us[1..]);
    }
  }

  lemma SameKeysStore(rows: Table, rows': Table, id: JobId, owner: nat, key: string)
    requires KeysUnique(rows) && SameKeys(rows, rows') && Stores(rows, id, owner, key)
    ensures KeysUnique(rows') && ByKey(rows', owner, key) == Some(id) && rows'[id].hash == rows[id].hash
  {
    assert forall i, o, k | Stores(rows', i, o, k) :: Stores(rows, i, o, k);
    assert Stores(rows', id, owner, key);
  }

  /** A call for a key that is taken: the row that holds it decides. */
  lemma TakenReplies(rows: Table, rows': Table, id: JobId, req: Idempotency.Request, k: JobId)
    requires KeysUnique(rows) && SameKeys(rows, rows') && Stores(rows, id, req.owner, req.key)
    ensures KeysUnique(rows')
    ensures CallReply(rows', rows', req, k) == if rows[id].hash == Some(req.hash) then Replayed(id) else KeyReused
  {
    SameKeysStore(rows, rows', id, req.owner, req.key);
  }

  /** A call that nobody disturbs; `id` is the row that holds the key afterwards. */
  method SubmitAlone(db: Database, redis: Redis, cfg: Config, now: Time, sub: Submission, j: JobId)
      returns (reply: Response, ghost id: JobId)
    requires sub.owner.Some? && sub.key.Some? && sub.hash.Some? && j !in db.rows && KeysUnique(db.rows)
    modifies db, redis
    ensures KeysUnique(db.rows) && Stores(db.rows, id, sub.owner.value, sub.key.value)
    ensures if reply.Accepted? then reply.id == id == j && db.rows.Keys == old(db.rows).Keys + {j} && db.rows[id].hash == sub.hash
            else db.rows == old(db.rows) && reply == if db.rows[id].hash == sub.hash then Replayed(id) else KeyReused
    ensures reply == CallReply(old(db.rows), old(db.rows), Idempotency.Request(sub.owner.value, sub.key.value, sub.hash.value), j)
  {
    assert db.rows + map[] == db.rows;
    reply := SubmitJob(db, redis, cfg, now, sub, j, map[]);
    assert reply.Accepted? ==> Stores(db.rows, j, sub.owner.value, sub.key.value);
    id :| Stores(db.rows, id, sub.owner.value, sub.key.value);
  }

  /**
   * A client that submits the same key twice: whatever becomes of the first job in between, the second
   * call names it if the hash is the same, and is refused if it is not.
   */
  method SubmitTwice(db: Database, redis: Redis, cfg: Config, now: Time, later: Time, sub: Submission, again: Submission,
                     j: JobId, k: JobId, between: seq<Update>) returns (first: Response, second: Response)
    requires sub.owner.Some? && sub.key.Some? && sub.hash.Some? && again.hash.Some?
    requires again.owner == sub.owner && again.key == sub.key
    requires j !in db.rows && k !in db.rows && k != j && KeysUnique(db.rows)
    modifies db, redis
    ensures first.Accepted? ==>
              && first.id == j && j in db.rows
              && second == if again.hash == sub.hash then Replayed(j) else KeyReused
    ensures first.Replayed? ==> second == if again.hash == sub.hash then first else KeyReused
    ensures first.KeyReused? && again.hash == sub.hash ==> second == KeyReused
  {
    ghost var id;
    first, id := SubmitAlone(db, redis, cfg, now, sub, j);
    ghost var rows := db.rows;
    LaterKeepsKeys(rows, j, between);
    db.ExecuteEach(j, between);
    TakenReplies(rows, db.rows, id, Idempotency.Request(sub.owner.value, sub.key.value, again.hash.value), k);
    second, id := SubmitAlone(db, redis, cfg, later, again, k);
  }

  /** A failed row without a cancel request, and only that, starts over; its message goes to the stream it came from. */
  ghost predicate Reset(r: Row, st: Store, st': Store, rows: Table, j: JobId, won: bool)
    requires j in st.rows
  {
    && (won <==> r.status == Failed && r.cancelRequestedAt.None?)
    && st'.pel == st.pel && st'.zset == st.zset
    && if won then
         && st'.rows == rows[j := r.(status := Pending, attempts := 0, error := None, startedAt := None,
                                     completedAt := None, synced := true)]
         && Sent(st.streams, st'.streams, st.rows[j].priority, j)
       else st'.rows == rows && st'.streams == st.streams
  }

  /** `retry_job`: only a failed job of the caller's, not asked to cancel, goes back to its stream. */
  method RetryJob(db: Database, redis: Redis, j: JobId, owner: nat, others: seq<Update>) returns (reply: Response)
    modifies db, redis
    ensures var st := old(Snapshot(db, redis)); var later := st.(rows := Later(st.rows, j, others));
            if j !in st.rows || st.rows[j].owner != Some(owner) then
              reply == NotFound && Snapshot(db, redis) == st
            else if !Wins(ResetFailed, later.rows, j) then
              reply == NotRetryable && Snapshot(db, redis) == later
            else
              reply == Done
              && Snapshot(db, redis) == HandOff(OnRow(later, ResetFailed, j), j, ToStream(st.rows[j].priority))
    ensures reply != NotFound ==>
              var st := old(Snapshot(db, redis)); var rows := Later(st.rows, j, others);
              j in st.rows && j in rows && Reset(rows[j], st, Snapshot(db, redis), rows, j, reply == Done)
  {
    LaterKeepsJobs(db.rows, j, others);
    if j !in db.rows || db.rows[j].owner != Some(owner) { return NotFound; }
    var priority := db.rows[j].priority;
    db.ExecuteEach(j, others);
    var won := db.Execute(ResetFailed, j);
    if !won { return NotRetryable; }
    Ticker.HandOffJob(db, redis, j, ToStream(priority));
    reply := Done;
  }

  /** What a reply of the cancel call says about the row at the moment of the reply. */
  predicate TrueOf(reply: Response, r: Row) {
    match reply
    case Done => r.status == Cancelled
    case CancelAsked => r.status == Processing && r.cancelRequestedAt.Some?
    case NotCancellable => r.status == Completed || r.status == Failed
    case StateChanging => !Terminal(r.status)
    case _ => false
  }

  /** Only the job's own row and delayed entry are touched. */
  ghost predicate OthersKept(rows: Table, rows': Table, j: JobId) {
    rows'.Keys == rows.Keys && forall k | k in rows && k != j :: rows'[k] == rows[k]
  }

  /**
   * One round of `cancel_job_route`; `gap1` and `gap2` are what others commit between its three
   * statements.  No reply means that the row flapped between waiting and processing.
   */
  method CancelRound(db: Database, redis: Redis, now: Time, j: JobId, gap1: seq<Update>, gap2: seq<Update>)
      returns (reply: Option<Response>)
    requires j in db.rows
    modifies db, redis
    ensures OthersKept(old(db.rows), db.rows, j) && redis.streams == old(redis.streams) && redis.pel == old(redis.pel)
    ensures redis.zset == old(redis.zset) || (redis.zset == old(redis.zset) - {j} && reply == Some(Done))
    ensures reply.Some? ==> TrueOf(reply.value, db.rows[j]) && !reply.value.StateChanging?
    ensures reply.None? ==> !Terminal(db.rows[j].status) && (gap1 != [] || gap2 != [])
    ensures Waiting(old(db.rows)[j].status) ==>
              reply == Some(Done) && redis.zset == old(redis.zset) - {j}
              && db.rows == old(db.rows)[j := old(db.rows)[j].(status := Cancelled, completedAt := Some(now))]
    ensures gap1 == [] && old(db.rows)[j].status == Processing ==>
              reply == Some(CancelAsked)
              && db.rows == old(db.rows)[j := old(db.rows)[j].(cancelRequestedAt := Some(now))]
  {
    var won := db.Execute(CancelWaiting(now), j);
    if won {
      redis.Remove([j]);
      assert forall k :: k in [j] <==> k == j;
      return Some(Done);
    }
    LaterKeepsJobs(db.rows, j, gap1);
    db.ExecuteEach(j, gap1);
    won := db.Execute(RequestCancel(now), j);
    if won { return Some(CancelAsked); }
    LaterKeepsJobs(db.rows, j, gap2);
    db.ExecuteEach(j, gap2);
    var status := db.rows[j].status;
    if status == Cancelled { return Some(Done); }
    if status == Completed || status == Failed { return Some(NotCancellable); }
    reply := None;
  }

  /** What others commit during one round, and before the next one. */
  datatype Gaps = Gaps(ask: seq<Update>, look: seq<Update>, next: seq<Update>)

  /**
   * `cancel_job_route`: at most three rounds.  Every reply is true of the row at that moment, and the
   * "state is changing" answer is given only when others kept changing the row.
   */
  method CancelJob(db: Database, redis: Redis, now: Time, j: JobId, owner: nat, gaps: seq<Gaps>) returns (reply: Response)
    requires |gaps| == 3
    modifies db, redis
    ensures OthersKept(old(db.rows), db.rows, j) && redis.streams == old(redis.streams) && redis.pel == old(redis.pel)
    ensures redis.zset == old(redis.zset) || (redis.zset == old(redis.zset) - {j} && reply == Done)
    ensures reply == NotFound <==> j !in old(db.rows) || old(db.rows)[j].owner != Some(owner)
    ensures reply == NotFound ==> db.rows == old(db.rows)
    ensures reply != NotFound && (reply != StateChanging || gaps[2].next == []) ==> TrueOf(reply, db.rows[j])
    ensures reply == StateChanging ==> forall i | 0 <= i < 3 :: gaps[i].ask != [] || gaps[i].look != []
  {
    if j !in db.rows || db.rows[j].owner != Some(owner) { return NotFound; }
    for i := 0 to 3
      invariant OthersKept(old(db.rows), db.rows, j) && j in db.rows
      invariant redis.streams == old(redis.streams) && redis.pel == old(redis.pel) && redis.zset == old(redis.zset)
      invariant forall k | 0 <= k < i :: gaps[k].ask != [] || gaps[k].look != []
      invariant i == 3 && gaps[2].next == [] ==> !Terminal(db.rows[j].status)
    {
      var answer := CancelRound(db, redis, now, j, gaps[i].ask, gaps[i].look);
      if answer.Some? { return answer.value; }
      LaterKeepsJobs(db.rows, j, gaps[i].next);
      db.ExecuteEach(j, gaps[i].next);
    }
    reply := StateChanging;
  }
}
