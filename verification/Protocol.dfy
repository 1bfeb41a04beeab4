/**
 * The job lifecycle as an interleaved machine.
 *
 * One step is one committed UPDATE, one Redis command or one row read, by one
 * actor: an API call, a worker task, or one job's share of a ticker sweep.
 * Any actor can crash between two of its steps.  A batch of a sweep is several
 * actors, one per job, so every interleaving of a batch is a run of this machine.
 */
module Protocol {
  import opened Jobs
  import opened Queue
  import opened Retry

  type ActorId = nat

  datatype CancelReply = Ok200 | Accepted202 | Conflict409(seen: Status) | Changing409

  /** Workers probe streams in this order, and multi-stream replies keep it. */
  function Rank(p: Priority): nat {
    match p case High => 0 case Normal => 1 case Low => 2
  }

  /** What an actor does next.  `src` is the message it still has to acknowledge. */
  datatype Pc =
    // worker: message delivered; row claimed; handler running on a row snapshot
    | Held(m: Msg, entry: Option<JobId>)
    | Claimed(m: Msg, j: JobId)
    | Running(m: Msg, j: JobId, snap: Row)
    // row committed, Redis write owed; Redis written, mark_synced owed; XACK owed
    | Handoff(src: Option<Msg>, j: JobId, target: Target)
    | Syncing(src: Option<Msg>, j: JobId)
    | Acking(m: Msg)
    // reaper: entry reclaimed; processing row read
    | Reaping(m: Msg, entry: Option<JobId>)
    | Reclaimed(m: Msg, j: JobId, snap: Row)
    // promoter: id read from the delayed set; row read; XADDed; ZREMed
    | Due(j: JobId)
    | Routed(j: JobId, prio: Priority)
    | Added(j: JobId)
    | Removed(j: JobId)
    // cancel call: the three statements of one loop round; ZREM owed; answered
    | CancelTry(j: JobId, round: nat, base: nat)
    | CancelAsk(j: JobId, round: nat, base: nat)
    | CancelLook(j: JobId, round: nat, base: nat)
    | Withdrawing(j: JobId, base: nat)
    | Answered(j: JobId, reply: CancelReply, base: nat)

  /** Bookkeeping about one job; no step reads it. */
  datatype Hist = Hist(
    claims: nat,            // successful claims
    exits: nat,             // winning complete, fail, retry and cancel of a processing row
    ended: nat,             // winning exits other than cancel since the last reset
    outdated: nat,          // retries since the last reset decided on another `attempts` than the row's
    moves: nat,             // status changes
    claimMsg: Option<Msg>)  // the message under which the row was last claimed

  type History = map<JobId, Hist>

  const NO_HIST := Hist(0, 0, 0, 0, 0, None)

  datatype State = State(now: Time, store: Store, actors: map<ActorId, Pc>, hist: History)

  const INIT := State(0, EMPTY_STORE, map[], map[])

  /** How a handler run ends; external cancellation is a crash. */
  datatype Outcome =
    | Completes(value: Json)
    | Cancels(summary: Json)
    | Rejects(error: Json)
    | Fails(error: Json)

  datatype Step =
    | Advance(d: nat)
    | Foreign(p: Priority)                             // an entry without a valid job id appears
    | Submit(a: ActorId, j: JobId, sub: Submission)
    | Take(a: ActorId, p: Priority)                    // one entry delivered to a worker task
    | TakeTwo(a: ActorId, p: Priority, q: Priority)    // a blocking read delivers two, the worker keeps the first
    | TakeThree(a: ActorId)                            // ... or one from each stream
    | Finish(a: ActorId, out: Outcome)
    | Progress(a: ActorId, pct: int)
    | Reap(a: ActorId, m: Msg)
    | PickDue(a: ActorId, j: JobId)
    | PickOrphan(a: ActorId, j: JobId)
    | RetryCall(a: ActorId, j: JobId)
    | CancelCall(a: ActorId, j: JobId)
    | Go(a: ActorId)                                   // the actor's next command
    | Crash(a: ActorId)

  function HistOf(s: State, j: JobId): Hist {
    if j in s.hist then s.hist[j] else NO_HIST
  }

  predicate Exits(u: Update) {
    u.Complete? || u.Fail? || u.RetryToPending? || u.RetryToScheduled? || u.CancelRunning?
  }

  /** The statement clears the sync flag. */
  predicate Unsyncs(u: Update) {
    u.RetryToPending? || u.RetryToScheduled? || u.ResetFailed?
  }

  /** History after a winning `u` on row `r`; `src` claims, `seen` is the snapshot's attempt count. */
  function Track(h: Hist, u: Update, r: Row, src: Option<Msg>, seen: nat): Hist {
    var retry := u.RetryToPending? || u.RetryToScheduled?;
    Hist(h.claims + if u.Claim? then 1 else 0,
         h.exits + if Exits(u) then 1 else 0,
         if u.ResetFailed? then 0 else h.ended + if Exits(u) && !u.CancelRunning? then 1 else 0,
         if u.ResetFailed? then 0 else h.outdated + if retry && seen != r.attempts then 1 else 0,
         h.moves + if Apply(u, r).status != r.status then 1 else 0,
         if u.Claim? then src else h.claimMsg)
  }

  /** An UPDATE together with its bookkeeping. */
  function Write(s: State, u: Update, j: JobId, src: Option<Msg>, seen: nat): State {
    if Wins(u, s.store.rows, j) then
      s.(store := OnRow(s.store, u, j), hist := s.hist[j := Track(HistOf(s, j), u, s.store.rows[j], src, seen)])
    else
      s
  }

  function Plain(s: State, u: Update, j: JobId): State {
    Write(s, u, j, None, 0)
  }

  function At(s: State, a: ActorId, pc: Pc): State {
    s.(actors := s.actors[a := pc])
  }

  function Gone(s: State, a: ActorId): State {
    s.(actors := s.actors - {a})
  }

  function HeadOf(s: State, p: Priority): Msg {
    Msg(p, s.store.streams[p].next)
  }

  /** `schedule_retry_or_fail` up to its commit; a worker that loses neither hands off nor acks. */
  function Settle(cfg: Config, s: State, a: ActorId, m: Msg, j: JobId, snap: Row, error: Json, reaper: bool): State
    requires !Decide(cfg, snap).IndexError?
  {
    var d := Decide(cfg, snap);
    var u := DecisionUpdate(d, s.now, error);
    if Wins(u, s.store.rows, j) then
      var t := DecisionTarget(d, s.now, snap.priority);
      At(Write(s, u, j, None, snap.attempts), a, if t.None? then Acking(m) else Handoff(Some(m), j, t.value))
    else if reaper then At(s, a, Acking(m))
    else Gone(s, a)
  }

  /** The exit statement of every handler outcome but a retryable failure. */
  function OutcomeUpdate(out: Outcome, now: Time, snap: Row): Update
    requires !out.Fails?
  {
    if snap.owner.None? then Fail(now, "ownerless job dropped")
    else match out
         case Completes(value) => Complete(now, value, if snap.kind == Batch then Some(100) else None)
         case Cancels(summary) => CancelRunning(now, summary)
         case Rejects(error) => Fail(now, error)
  }

  function FinishStep(cfg: Config, s: State, a: ActorId, m: Msg, j: JobId, snap: Row, out: Outcome): State
    requires out.Fails? ==> !Decide(cfg, snap).IndexError?
  {
    if out.Fails? then Settle(cfg, s, a, m, j, snap, out.error, false)
    else
      var u := OutcomeUpdate(out, s.now, snap);
      if Wins(u, s.store.rows, j) then At(Plain(s, u, j), a, Acking(m)) else Gone(s, a)
  }

  /** The reaper's row read, and the branch it selects. */
  function ReadForReap(s: State, a: ActorId, m: Msg, e: Option<JobId>): State {
    if e.None? || e.value !in s.store.rows then At(s, a, Acking(m))
    else
      var r := s.store.rows[e.value];
      if r.status == Processing then At(s, a, Reclaimed(m, e.value, r))
      else if Waiting(r.status) && !r.synced then At(s, a, Handoff(Some(m), e.value, RowTarget(r)))
      else At(s, a, Acking(m))
  }

  function CancelStep(s: State, a: ActorId, pc: Pc): State
    requires pc.CancelTry? || pc.CancelAsk? || pc.CancelLook?
  {
    match pc
    case CancelTry(j, k, base) =>
      var u := CancelWaiting(s.now);
      if Wins(u, s.store.rows, j) then At(Plain(s, u, j), a, Withdrawing(j, base))
      else At(s, a, CancelAsk(j, k, base))
    case CancelAsk(j, k, base) =>
      var u := RequestCancel(s.now);
      if Wins(u, s.store.rows, j) then At(Plain(s, u, j), a, Answered(j, Accepted202, base))
      else At(s, a, CancelLook(j, k, base))
    case CancelLook(j, k, base) =>
      if j !in s.store.rows then Gone(s, a)
      else
        var st := s.store.rows[j].status;
        if st == Cancelled then At(s, a, Answered(j, Ok200, base))
        else if Terminal(st) then At(s, a, Answered(j, Conflict409(st), base))
        else if k + 1 < 3 then At(s, a, CancelTry(j, k + 1, base))
        else At(s, a, Answered(j, Changing409, base))
  }

  /** The actor's next command. */
  function GoStep(cfg: Config, s: State, a: ActorId, pc: Pc): State
    requires CanGo(cfg, s, pc)
  {
    match pc
    case Held(m, e) =>
      if e.Some? && Wins(Claim(s.now), s.store.rows, e.value)
      then At(Write(s, Claim(s.now), e.value, Some(m), 0), a, Claimed(m, e.value))
      else At(s, a, Acking(m))
    case Claimed(m, j) => At(s, a, Running(m, j, s.store.rows[j]))
    case Handoff(src, j, t) => At(s.(store := WriteRedis(s.store, j, t)), a, Syncing(src, j))
    case Syncing(src, j) =>
      var s' := Plain(s, MarkSynced, j);
      if src.Some? then At(s', a, Acking(src.value)) else Gone(s', a)
    case Acking(m) => Gone(s.(store := XAck(s.store, m)), a)
    case Reaping(m, e) => ReadForReap(s, a, m, e)
    case Reclaimed(m, j, snap) => Settle(cfg, s, a, m, j, snap, "WorkerLost", true)
    case Due(j) => At(s, a, Routed(j, s.store.rows[j].priority))
    case Routed(j, p) => At(s.(store := WriteRedis(s.store, j, ToStream(p))), a, Added(j))
    case Added(j) => At(s.(store := ZRem(s.store, j)), a, Removed(j))
    case Removed(j) => Gone(Plain(s, PromoteScheduled, j), a)
    case Withdrawing(j, base) => At(s.(store := ZRem(s.store, j)), a, Answered(j, Ok200, base))
    case Answered(_, _, _) => Gone(s, a)
    case CancelTry(_, _, _) => CancelStep(s, a, pc)
    case CancelAsk(_, _, _) => CancelStep(s, a, pc)
    case CancelLook(_, _, _) => CancelStep(s, a, pc)
    case Running(_, _, _) => s
  }

  /** `Running` goes on by `Finish`; an IndexError from an empty schedule leaves only the crash. */
  predicate CanGo(cfg: Config, s: State, pc: Pc) {
    match pc
    case Running(_, _, _) => false
    case Claimed(_, j) => j in s.store.rows
    case Reclaimed(_, _, snap) => !Decide(cfg, snap).IndexError?
    case Due(j) => j in s.store.rows
    case _ => true
  }

  /** The actor a step starts, if any. */
  function Starts(step: Step): Option<ActorId> {
    match step
    case Submit(a, _, _) => Some(a)
    case Take(a, _) => Some(a)
    case TakeTwo(a, _, _) => Some(a)
    case TakeThree(a) => Some(a)
    case Reap(a, _) => Some(a)
    case PickDue(a, _) => Some(a)
    case PickOrphan(a, _) => Some(a)
    case RetryCall(a, _) => Some(a)
    case CancelCall(a, _) => Some(a)
    case _ => None
  }

  predicate Enabled(cfg: Config, s: State, step: Step) {
    && (Starts(step).Some? ==> Starts(step).value !in s.actors)
    && match step
       case Advance(_) => true
       case Foreign(_) => true
       case Submit(_, j, _) => j !in s.store.rows
       case Take(_, p) => Backlog(s.store.streams, p)
       case TakeTwo(_, p, q) => Rank(p) < Rank(q) && Backlog(s.store.streams, p) && Backlog(s.store.streams, q)
       case TakeThree(_) => EachHasBacklog(s.store.streams)
       case Finish(a, out) =>
         && a in s.actors && s.actors[a].Running?
         && (s.actors[a].snap.owner.None? ==> out.Rejects?)
         && (out.Fails? ==> !Decide(cfg, s.actors[a].snap).IndexError?)
       case Progress(a, _) => a in s.actors && s.actors[a].Running?
       case Reap(_, m) =>
         m in s.store.pel && HasEntry(s.store.streams, m) && s.now - s.store.pel[m].since >= cfg.visibility
       case PickDue(_, j) => j in s.store.zset && 0 <= s.store.zset[j] <= s.now
       case PickOrphan(_, j) =>
         && j in s.store.rows && Waiting(s.store.rows[j].status) && !s.store.rows[j].synced
         && s.store.rows[j].createdAt < s.now - cfg.grace && !Skipped(s.store.rows[j])
       case RetryCall(_, j) => Wins(ResetFailed, s.store.rows, j)
       case CancelCall(_, j) => j in s.store.rows
       case Go(a) => a in s.actors && CanGo(cfg, s, s.actors[a])
       case Crash(a) => a in s.actors
  }

  function Exec(cfg: Config, s: State, step: Step): State
    requires Enabled(cfg, s, step)
  {
    match step
    case Advance(d) => s.(now := s.now + d)
    case Foreign(p) => s.(store := s.store.(streams := XAdd(s.store.streams, p, None)))
    case Submit(a, j, sub) =>
      var r := NewRow(sub, cfg.maxAttempts, s.now);
      At(s.(store := s.store.(rows := s.store.rows[j := r]), hist := s.hist[j := NO_HIST]), a,
         Handoff(None, j, RowTarget(r)))
    case Take(a, p) => TakeStep(s, a, p)
    case TakeTwo(a, p, q) => TakeTwoStep(s, a, p, q)
    case TakeThree(a) => TakeThreeStep(s, a)
    case Finish(a, out) =>
      FinishStep(cfg, s, a, s.actors[a].m, s.actors[a].j, s.actors[a].snap, out)
    case Progress(a, pct) => Plain(s, WriteProgress(pct), s.actors[a].j)
    case Reap(a, m) =>
      At(s.(store := s.store.(pel := s.store.pel[m := Lease(Reaper, s.now)])), a,
         Reaping(m, EntryOf(s.store.streams, m)))
    case PickDue(a, j) => At(s, a, Due(j))
    case PickOrphan(a, j) => At(s, a, Handoff(None, j, RowTarget(s.store.rows[j])))
    case RetryCall(a, j) =>
      At(Plain(s, ResetFailed, j), a, Handoff(None, j, ToStream(s.store.rows[j].priority)))
    case CancelCall(a, j) => At(s, a, CancelTry(j, 0, HistOf(s, j).moves))
    case Go(a) => GoStep(cfg, s, a, s.actors[a])
    case Crash(a) => Gone(s, a)
  }

  function TakeStep(s: State, a: ActorId, p: Priority): State
    requires Backlog(s.store.streams, p)
  {
    var m := HeadOf(s, p);
    At(s.(store := Deliver(s.store, p, Worker(a), s.now)), a, Held(m, EntryOf(s.store.streams, m)))
  }

  function TakeTwoStep(s: State, a: ActorId, p: Priority, q: Priority): State
    requires p != q && Backlog(s.store.streams, p) && Backlog(s.store.streams, q)
  {
    TakeStep(s.(store := Deliver(s.store, q, Worker(a), s.now)), a, p)
  }

  predicate EachHasBacklog(streams: Streams) {
    Backlog(streams, High) && Backlog(streams, Normal) && Backlog(streams, Low)
  }

  function TakeThreeStep(s: State, a: ActorId): State
    requires EachHasBacklog(s.store.streams)
  {
    TakeTwoStep(s.(store := Deliver(s.store, Low, Worker(a), s.now)), a, High, Normal)
  }

  /** The step delivers messages to a worker. */
  predicate Delivers(step: Step) {
    step.Take? || step.TakeTwo? || step.TakeThree?
  }

  /** The stream of the message that the worker keeps. */
  function KeptFrom(step: Step): Priority
    requires Delivers(step)
  {
    if step.TakeThree? then High else step.p
  }

  /**
   * Hypotheses about interference, each of which can be dropped on its own:
   *  - singleRead: a read hands out one entry, not one per stream of which the first is kept;
   *  - holdersSurvive: no worker crashes between delivery and claim;
   *  - heldUnreaped: the reaper does not take a message between delivery and claim;
   *  - quietHandoff: between a Redis write and its mark_synced, no other actor clears the job's sync flag;
   *  - quietPromotion: between the XADD and the ZREM of a promotion, no other actor ZADDs the job.
   */
  datatype Fences = Fences(
    singleRead: bool, holdersSurvive: bool, heldUnreaped: bool, quietHandoff: bool, quietPromotion: bool)

  const ALL_FENCES := Fences(true, true, true, true, true)

  predicate Holds(pc: Pc, m: Msg) {
    pc.Held? && pc.m == m
  }

  predicate SyncingJob(pc: Pc, j: JobId) {
    pc.Syncing? && pc.j == j
  }

  predicate AddedJob(pc: Pc, j: JobId) {
    pc.Added? && pc.j == j
  }

  /** A worker has claimed the job and is about to read the row and start the handler. */
  predicate AtClaimed(pc: Pc, j: JobId) {
    pc.Claimed? && pc.j == j
  }

  /** The actor holds a snapshot on which it will decide about the job. */
  predicate Deciding(pc: Pc, j: JobId) {
    (pc.Running? || pc.Reclaimed?) && pc.j == j
  }

  /** `schedule_retry_or_fail` would retry on this snapshot. */
  predicate Retries(cfg: Config, snap: Row) {
    Decide(cfg, snap).RetryNow? || Decide(cfg, snap).RetryAfter?
  }

  /** The actor whose step it is; 0 for steps of the environment. */
  function Mover(step: Step): ActorId {
    match step
    case Finish(a, _) => a
    case Progress(a, _) => a
    case Go(a) => a
    case Crash(a) => a
    case _ => if Starts(step).Some? then Starts(step).value else 0
  }

  /** The UPDATE a step runs; it takes effect if it wins. */
  datatype Writing = Writing(u: Update, j: JobId, src: Option<Msg>, seen: nat)

  function GoWriting(cfg: Config, s: State, pc: Pc): Option<Writing>
    requires CanGo(cfg, s, pc)
  {
    match pc
    case Held(m, e) => if e.Some? then Some(Writing(Claim(s.now), e.value, Some(m), 0)) else None
    case Syncing(_, j) => Some(Writing(MarkSynced, j, None, 0))
    case Reclaimed(_, j, snap) =>
      Some(Writing(DecisionUpdate(Decide(cfg, snap), s.now, "WorkerLost"), j, None, snap.attempts))
    case Removed(j) => Some(Writing(PromoteScheduled, j, None, 0))
    case CancelTry(j, _, _) => Some(Writing(CancelWaiting(s.now), j, None, 0))
    case CancelAsk(j, _, _) => Some(Writing(RequestCancel(s.now), j, None, 0))
    case _ => None
  }

  function StepWriting(cfg: Config, s: State, step: Step): Option<Writing>
    requires Enabled(cfg, s, step)
  {
    match step
    case Finish(a, out) =>
      var pc := s.actors[a];
      if out.Fails? then
        Some(Writing(DecisionUpdate(Decide(cfg, pc.snap), s.now, out.error), pc.j, None, pc.snap.attempts))
      else
        Some(Writing(OutcomeUpdate(out, s.now, pc.snap), pc.j, None, 0))
    case Progress(a, pct) => Some(Writing(WriteProgress(pct), s.actors[a].j, None, 0))
    case RetryCall(_, j) => Some(Writing(ResetFailed, j, None, 0))
    case Go(a) => GoWriting(cfg, s, s.actors[a])
    case _ => None
  }

  function Written(s: State, w: Option<Writing>): State {
    if w.Some? then Write(s, w.value.u, w.value.j, w.value.src, w.value.seen) else s
  }

  predicate WritesRow(pc: Pc) {
    pc.Held? || pc.Syncing? || pc.Reclaimed? || pc.Removed? || pc.CancelTry? || pc.CancelAsk?
  }

  lemma GoWrites(cfg: Config, s: State, pc: Pc, a: ActorId)
    requires CanGo(cfg, s, pc) && WritesRow(pc)
    ensures var s' := GoStep(cfg, s, a, pc); var w := Written(s, GoWriting(cfg, s, pc));
            s'.store == w.store && s'.hist == w.hist
  {
  }

  lemma GoReads(cfg: Config, s: State, pc: Pc, a: ActorId)
    requires CanGo(cfg, s, pc) && !WritesRow(pc)
    ensures GoWriting(cfg, s, pc) == None
    ensures GoStep(cfg, s, a, pc).store.rows == s.store.rows && GoStep(cfg, s, a, pc).hist == s.hist
  {
  }

  /** Every step but an insertion commits at most the one UPDATE `StepWriting` names. */
  lemma StepWrites(cfg: Config, s: State, step: Step)
    requires Enabled(cfg, s, step) && !step.Submit?
    ensures var s' := Exec(cfg, s, step); var w := Written(s, StepWriting(cfg, s, step));
            s'.store.rows == w.store.rows && s'.hist == w.hist
  {
    if step.Go? {
      if WritesRow(s.actors[step.a]) {
        GoWrites(cfg, s, s.actors[step.a], step.a);
      } else {
        GoReads(cfg, s, s.actors[step.a], step.a);
      }
    }
  }

  /** The step's own UPDATE wins the job's row. */
  predicate WritesJob(cfg: Config, s: State, step: Step, j: JobId)
    requires Enabled(cfg, s, step)
  {
    !step.Submit? &&
    var w := StepWriting(cfg, s, step);
    w.Some? && w.value.j == j && Wins(w.value.u, s.store.rows, j)
  }

  /** It alone changes the row and its history. */
  lemma StepOnRow(cfg: Config, s: State, step: Step, j: JobId)
    requires Enabled(cfg, s, step) && j in s.store.rows && j in s.hist
    ensures var s' := Exec(cfg, s, step);
            && j in s'.store.rows && j in s'.hist
            && if WritesJob(cfg, s, step, j) then
                 var w := StepWriting(cfg, s, step).value;
                 && s'.store.rows[j] == Apply(w.u, s.store.rows[j])
                 && s'.hist[j] == Track(s.hist[j], w.u, s.store.rows[j], w.src, w.seen)
               else
                 s'.store.rows[j] == s.store.rows[j] && s'.hist[j] == s.hist[j]
  {
    if !step.Submit? { StepWrites(cfg, s, step); }
  }

  /** Only the mover's program counter changes. */
  lemma OthersStay(cfg: Config, s: State, step: Step)
    requires Enabled(cfg, s, step)
    ensures var s' := Exec(cfg, s, step);
            forall b | b != Mover(step) || step.Advance? || step.Foreign? ::
              (b in s'.actors <==> b in s.actors) && (b in s.actors ==> s'.actors[b] == s.actors[b])
  {
    if step.Go? { GoStaysAlone(cfg, s, step.a); }
  }

  lemma GoStaysAlone(cfg: Config, s: State, a: ActorId)
    requires a in s.actors && CanGo(cfg, s, s.actors[a])
    ensures var s' := GoStep(cfg, s, a, s.actors[a]);
            forall b | b != a :: (b in s'.actors <==> b in s.actors) && (b in s.actors ==> s'.actors[b] == s.actors[b])
  {
  }

  /** The job whose sync flag the step clears. */
  function Clears(cfg: Config, s: State, step: Step): Option<JobId>
    requires Enabled(cfg, s, step)
  {
    var w := StepWriting(cfg, s, step);
    if w.Some? && Unsyncs(w.value.u) && Wins(w.value.u, s.store.rows, w.value.j) then Some(w.value.j) else None
  }

  ghost predicate Allowed(cfg: Config, f: Fences, s: State, step: Step)
    requires Enabled(cfg, s, step)
  {
    && (f.singleRead ==> !step.TakeTwo? && !step.TakeThree?)
    && (f.holdersSurvive && step.Crash? ==> !s.actors[step.a].Held?)
    && (f.heldUnreaped && step.Reap? ==> forall b | b in s.actors :: !Holds(s.actors[b], step.m))
    && (f.quietHandoff && Clears(cfg, s, step).Some? ==>
          forall b | b in s.actors && b != Mover(step) :: !SyncingJob(s.actors[b], Clears(cfg, s, step).value))
    && (f.quietPromotion && step.Go? && s.actors[step.a].Handoff? && s.actors[step.a].target.ToDelayed? ==>
          forall b | b in s.actors :: !AddedJob(s.actors[b], s.actors[step.a].j))
  }

  /** The step can happen under the hypotheses `f`. */
  ghost predicate Legal(cfg: Config, f: Fences, s: State, step: Step) {
    Enabled(cfg, s, step) && Allowed(cfg, f, s, step)
  }

  /** `steps` is a run from `s` under `f`. */
  ghost predicate Run(cfg: Config, f: Fences, s: State, steps: seq<Step>)
    decreases |steps|
  {
    steps == [] || (Legal(cfg, f, s, steps[0]) && Run(cfg, f, Exec(cfg, s, steps[0]), steps[1..]))
  }

  ghost function After(cfg: Config, f: Fences, s: State, steps: seq<Step>): State
    requires Run(cfg, f, s, steps)
    decreases |steps|
  {
    if steps == [] then s else After(cfg, f, Exec(cfg, s, steps[0]), steps[1..])
  }

  /** Some run under `f` leads from the empty system to `s`. */
  ghost predicate Reachable(cfg: Config, f: Fences, s: State) {
    exists steps :: Run(cfg, f, INIT, steps) && After(cfg, f, INIT, steps) == s
  }
}
