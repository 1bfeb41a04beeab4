/**
 * What holds of every run of the machine, with no hypothesis on interference:
 * the claim/exit balance, the attempt bound, terminal absorption and the
 * justification of every cancel reply.
 */
module Accounting {
  import opened Jobs
  import opened Queue
  import opened Retry
  import opened Protocol

  function Cap(r: Row): int {
    if r.maxAttempts < 1 then 1 else r.maxAttempts
  }

  /** Balance and attempt bound of one job. */
  predicate Balanced(r: Row, h: Hist) {
    && WellFormed(r)
    && h.claims == h.exits + (if r.status == Processing then 1 else 0)
    && r.attempts == h.ended
    && (if Terminal(r.status) then r.attempts <= Cap(r) + h.outdated else r.attempts < Cap(r) + h.outdated)
  }

  /** What an actor knows about its job. */
  predicate Informed(pc: Pc, rows: Table, hist: History) {
    match pc
    case Claimed(_, j) => j in rows
    case Running(_, j, snap) => j in rows && SameIdentity(snap, rows[j])
    case Reclaimed(_, j, snap) => j in rows && SameIdentity(snap, rows[j])
    case CancelTry(j, k, base) => j in rows && j in hist && k < 3 && hist[j].moves >= base + k
    case CancelAsk(j, k, base) =>
      && j in rows && j in hist && k < 3 && hist[j].moves >= base + k
      && (hist[j].moves > base + k || !Waiting(rows[j].status))
    case CancelLook(j, k, base) =>
      && j in rows && j in hist && k < 3 && hist[j].moves >= base + k
      && (hist[j].moves > base + k || Terminal(rows[j].status))
    case Withdrawing(j, _) => j in rows && rows[j].status == Cancelled
    case Answered(j, reply, base) => j in rows && j in hist && Justified(reply, rows[j], hist[j].moves, base)
    case _ => true
  }

  /** What a cancel reply tells the client, as long as the client remembers it. */
  predicate Justified(reply: CancelReply, r: Row, moves: nat, base: nat) {
    match reply
    case Ok200 => r.status == Cancelled
    case Accepted202 => r.cancelRequestedAt.Some?
    case Conflict409(seen) => seen == Completed || seen == Failed
    case Changing409 => moves >= base + 3
  }

  ghost predicate Accounted(s: State) {
    && AllBalanced(s.store.rows, s.hist)
    && (forall a | a in s.actors :: Informed(s.actors[a], s.store.rows, s.hist))
  }

  /** How one step may change a stored row and its history. */
  predicate Evolves(r: Row, h: Hist, r': Row, h': Hist) {
    && SameIdentity(r, r')
    && (r.cancelRequestedAt.Some? ==> r'.cancelRequestedAt.Some?)
    && (Absorbed(r) ==> r' == r.(synced := r'.synced) && h'.claims == h.claims)
    && (r.status == r'.status || Edge(r.status, r'.status))
    && (r.status == Failed && r'.status != Failed ==> r' == Apply(ResetFailed, r))
    && h'.moves == h.moves + (if r.status == r'.status then 0 else 1)
  }

  ghost predicate Evolved(rows: Table, hist: History, rows': Table, hist': History) {
    && hist.Keys == rows.Keys && hist'.Keys == rows'.Keys
    && forall j | j in rows :: j in rows' && Evolves(rows[j], hist[j], rows'[j], hist'[j])
  }

  /** A retry must have been decided below the snapshot's limit. */
  predicate FairWrite(u: Update, r: Row, seen: nat) {
    u.RetryToPending? || u.RetryToScheduled? ==> seen + 1 < r.maxAttempts
  }

  lemma UpdateBalances(u: Update, r: Row, h: Hist, src: Option<Msg>, seen: nat)
    requires Matches(u, r) && Balanced(r, h) && FairWrite(u, r, seen)
    ensures Balanced(Apply(u, r), Track(h, u, r, src, seen))
    ensures Evolves(r, h, Apply(u, r), Track(h, u, r, src, seen))
  {
    UpdateKeepsShape(u, r);
  }

  ghost predicate AllBalanced(rows: Table, hist: History) {
    hist.Keys == rows.Keys && forall k | k in rows :: Balanced(rows[k], hist[k])
  }

  lemma WriteBalances(s: State, u: Update, j: JobId, src: Option<Msg>, seen: nat)
    requires AllBalanced(s.store.rows, s.hist)
    requires j in s.store.rows ==> FairWrite(u, s.store.rows[j], seen)
    ensures var w := Write(s, u, j, src, seen);
            Evolved(s.store.rows, s.hist, w.store.rows, w.hist) && AllBalanced(w.store.rows, w.hist)
  {
    if Wins(u, s.store.rows, j) {
      UpdateBalances(u, s.store.rows[j], s.hist[j], src, seen);
    }
  }

  /** What an actor knows stays true. */
  lemma EvolutionInforms(rows: Table, hist: History, rows': Table, hist': History, pc: Pc)
    requires Evolved(rows, hist, rows', hist') && Informed(pc, rows, hist)
    ensures Informed(pc, rows', hist')
  {
    match pc
    case Running(_, j, _) => assert j in rows';
    case Reclaimed(_, j, _) => assert j in rows';
    case Claimed(_, j) => assert j in rows';
    case CancelTry(j, _, _) => assert j in rows';
    case CancelAsk(j, _, _) => assert j in rows';
    case CancelLook(j, _, _) => assert j in rows';
    case Withdrawing(j, _) => assert j in rows';
    case Answered(j, _, _) => assert j in rows';
    case _ =>
  }

  /** A retry is decided on a snapshot of the row's own attempt limit. */
  lemma WritesFairly(cfg: Config, s: State, step: Step)
    requires Accounted(s) && Enabled(cfg, s, step) && StepWriting(cfg, s, step).Some?
    ensures var w := StepWriting(cfg, s, step).value;
            w.j in s.store.rows ==> FairWrite(w.u, s.store.rows[w.j], w.seen)
  {
    if step.Finish? || step.Go? { assert Informed(s.actors[step.a], s.store.rows, s.hist); }
  }

  lemma StepBalances(cfg: Config, s: State, step: Step)
    requires Accounted(s) && Enabled(cfg, s, step)
    ensures var s' := Exec(cfg, s, step);
            Evolved(s.store.rows, s.hist, s'.store.rows, s'.hist) && AllBalanced(s'.store.rows, s'.hist)
  {
    if step.Submit? {
      assert Balanced(NewRow(step.sub, cfg.maxAttempts, s.now), NO_HIST);
    } else {
      StepWrites(cfg, s, step);
      var w := StepWriting(cfg, s, step);
      if w.Some? {
        WritesFairly(cfg, s, step);
        WriteBalances(s, w.value.u, w.value.j, w.value.src, w.value.seen);
      }
    }
  }

  predicate InCancel(pc: Pc) {
    pc.CancelTry? || pc.CancelAsk? || pc.CancelLook? || pc.Withdrawing?
  }

  lemma CancelInforms(cfg: Config, s: State, a: ActorId)
    requires Accounted(s) && a in s.actors && InCancel(s.actors[a])
    ensures var s' := GoStep(cfg, s, a, s.actors[a]);
            a in s'.actors ==> Informed(s'.actors[a], s'.store.rows, s'.hist)
  {
    assert Informed(s.actors[a], s.store.rows, s.hist);
  }

  lemma MoverInforms(cfg: Config, s: State, step: Step)
    requires Accounted(s) && Enabled(cfg, s, step)
    ensures var s' := Exec(cfg, s, step); var a := Mover(step);
            a in s'.actors && (a in s.actors ==> s'.actors[a] != s.actors[a]) ==>
              Informed(s'.actors[a], s'.store.rows, s'.hist)
  {
    if step.Go? {
      if InCancel(s.actors[step.a]) { CancelInforms(cfg, s, step.a); } else { GoInforms(cfg, s, step.a); }
    }
  }

  lemma GoInforms(cfg: Config, s: State, a: ActorId)
    requires Accounted(s) && a in s.actors && CanGo(cfg, s, s.actors[a]) && !InCancel(s.actors[a])
    ensures var s' := GoStep(cfg, s, a, s.actors[a]);
            a in s'.actors ==> Informed(s'.actors[a], s'.store.rows, s'.hist)
  {
    assert Informed(s.actors[a], s.store.rows, s.hist);
  }

  /** One step of any actor keeps the books and evolves every row legally. */
  lemma StepAccounts(cfg: Config, s: State, step: Step)
    requires Accounted(s) && Enabled(cfg, s, step)
    ensures Accounted(Exec(cfg, s, step))
    ensures Evolved(s.store.rows, s.hist, Exec(cfg, s, step).store.rows, Exec(cfg, s, step).hist)
  {
    StepBalances(cfg, s, step);
    OthersStay(cfg, s, step);
    MoverInforms(cfg, s, step);
    var s' := Exec(cfg, s, step);
    forall b | b in s'.actors
      ensures Informed(s'.actors[b], s'.store.rows, s'.hist)
    {
      if b in s.actors && s'.actors[b] == s.actors[b] {
        EvolutionInforms(s.store.rows, s.hist, s'.store.rows, s'.hist, s.actors[b]);
      }
    }
  }

  lemma {:induction false} RunAccounts(cfg: Config, f: Fences, s: State, steps: seq<Step>)
    requires Accounted(s) && Run(cfg, f, s, steps)
    ensures Accounted(After(cfg, f, s, steps))
    decreases |steps|
  {
    if steps != [] {
      StepAccounts(cfg, s, steps[0]);
      RunAccounts(cfg, f, Exec(cfg, s, steps[0]), steps[1..]);
    }
  }

  /**
   * Claim/exit balance: in every reachable state a job's successful claims minus its
   * winning exits is 1 while it is processing and 0 otherwise, and `attempts` counts
   * the winning exits other than cancellations since the last reset.
   */
  lemma ClaimExitBalance(cfg: Config, f: Fences, steps: seq<Step>, j: JobId)
    requires Run(cfg, f, INIT, steps)
    requires j in After(cfg, f, INIT, steps).store.rows
    ensures var s := After(cfg, f, INIT, steps);
            && j in s.hist
            && s.hist[j].claims - s.hist[j].exits == (if s.store.rows[j].status == Processing then 1 else 0)
            && s.store.rows[j].attempts == s.hist[j].ended
  {
    RunAccounts(cfg, f, INIT, steps);
  }

  /**
   * Attempt bound: a non-terminal row stays below `max_attempts` plus the number of
   * retries decided on an outdated snapshot (a limit below one counts as one).
   */
  lemma AttemptBound(cfg: Config, f: Fences, steps: seq<Step>, j: JobId)
    requires Run(cfg, f, INIT, steps)
    requires j in After(cfg, f, INIT, steps).store.rows
    ensures var s := After(cfg, f, INIT, steps); var r := s.store.rows[j];
            && j in s.hist
            && r.attempts <= Cap(r) + s.hist[j].outdated
            && (!Terminal(r.status) ==> r.attempts < Cap(r) + s.hist[j].outdated)
            && WellFormed(r)
  {
    RunAccounts(cfg, f, INIT, steps);
  }

  /**
   * Terminal absorption: once completed, cancelled, or failed with a cancel request, a
   * row changes in no column but the sync flag, and it is never claimed again.  A worker
   * that claimed it before may still start its handler; see Cancellation.HandlerStartsExactly.
   */
  lemma {:induction false} TerminalAbsorption(cfg: Config, f: Fences, s: State, steps: seq<Step>, j: JobId)
    requires Accounted(s) && Run(cfg, f, s, steps)
    requires j in s.store.rows && Absorbed(s.store.rows[j])
    ensures var s' := After(cfg, f, s, steps);
            && j in s'.store.rows && j in s'.hist
            && s'.store.rows[j] == s.store.rows[j].(synced := s'.store.rows[j].synced)
            && s'.hist[j].claims == s.hist[j].claims
    decreases |steps|
  {
    if steps != [] {
      StepAccounts(cfg, s, steps[0]);
      TerminalAbsorption(cfg, f, Exec(cfg, s, steps[0]), steps[1..], j);
    }
  }

  /** A cancel request, once committed, is never withdrawn. */
  lemma {:induction false} CancelFlagStays(cfg: Config, f: Fences, s: State, steps: seq<Step>, j: JobId)
    requires Accounted(s) && Run(cfg, f, s, steps)
    requires j in s.store.rows && s.store.rows[j].cancelRequestedAt.Some?
    ensures var s' := After(cfg, f, s, steps);
            j in s'.store.rows && s'.store.rows[j].cancelRequestedAt.Some?
    decreases |steps|
  {
    if steps != [] {
      StepAccounts(cfg, s, steps[0]);
      CancelFlagStays(cfg, f, Exec(cfg, s, steps[0]), steps[1..], j);
    }
  }

  /** A failed row is left only by the retry endpoint's statement, and only without a cancel request. */
  lemma FailedLeftByResetOnly(cfg: Config, s: State, step: Step, j: JobId)
    requires Accounted(s) && Enabled(cfg, s, step)
    requires j in s.store.rows && s.store.rows[j].status == Failed
    ensures var rows' := Exec(cfg, s, step).store.rows;
            && j in rows'
            && (rows'[j].status == Failed
                || (s.store.rows[j].cancelRequestedAt.None? && rows'[j] == Apply(ResetFailed, s.store.rows[j])))
  {
    StepAccounts(cfg, s, step);
  }

  /**
   * Cancel replies are justified when they are given: 200 says the row is cancelled,
   * 202 says the request is recorded, the "current state" 409 names the status the row
   * has at that very step, and the "changing" 409 follows three status changes since the
   * call began.
   */
  lemma CancelReplyJustified(cfg: Config, s: State, a: ActorId)
    requires Accounted(s) && Enabled(cfg, s, Go(a)) && !s.actors[a].Answered?
    requires a in Exec(cfg, s, Go(a)).actors && Exec(cfg, s, Go(a)).actors[a].Answered?
    ensures var s' := Exec(cfg, s, Go(a)); var pc := s'.actors[a];
            && pc.j in s.store.rows && pc.j in s'.store.rows && pc.j in s'.hist
            && match pc.reply
               case Ok200 => s'.store.rows[pc.j].status == Cancelled
               case Accepted202 => s'.store.rows[pc.j].cancelRequestedAt.Some?
               case Conflict409(seen) =>
                 s.store.rows[pc.j].status == seen && (seen == Completed || seen == Failed)
               case Changing409 => s'.hist[pc.j].moves >= pc.base + 3
  {
    assert Informed(s.actors[a], s.store.rows, s.hist);
    var pc := s.actors[a];
    assert pc.CancelAsk? || pc.CancelLook? || pc.Withdrawing?;
    if pc.CancelAsk? {
      assert Wins(RequestCancel(s.now), s.store.rows, pc.j);
    } else {
      assert Exec(cfg, s, Go(a)).hist == s.hist && Exec(cfg, s, Go(a)).store.rows == s.store.rows;
    }
  }

  /** ... and stay justified however the run continues. */
  lemma CancelReplyLasts(cfg: Config, f: Fences, s: State, steps: seq<Step>, a: ActorId)
    requires Accounted(s) && Run(cfg, f, s, steps)
    requires a in s.actors && s.actors[a].Answered?
    ensures var s' := After(cfg, f, s, steps); var pc := s.actors[a];
            && pc.j in s'.store.rows
            && (pc.reply.Ok200? ==> s'.store.rows[pc.j].status == Cancelled)
            && (pc.reply.Accepted202? ==> s'.store.rows[pc.j].cancelRequestedAt.Some?)
  {
    var pc := s.actors[a];
    assert Informed(pc, s.store.rows, s.hist);
    if pc.reply.Ok200? {
      TerminalAbsorption(cfg, f, s, steps, pc.j);
    } else if pc.reply.Accepted202? {
      CancelFlagStays(cfg, f, s, steps, pc.j);
    } else {
      RowsStay(cfg, f, s, steps, pc.j);
    }
  }

  /** Rows are never deleted and keep their identity columns. */
  lemma {:induction false} RowsStay(cfg: Config, f: Fences, s: State, steps: seq<Step>, j: JobId)
    requires Accounted(s) && Run(cfg, f, s, steps) && j in s.store.rows
    ensures var s' := After(cfg, f, s, steps);
            j in s'.store.rows && SameIdentity(s.store.rows[j], s'.store.rows[j])
    decreases |steps|
  {
    if steps != [] {
      StepAccounts(cfg, s, steps[0]);
      RowsStay(cfg, f, Exec(cfg, s, steps[0]), steps[1..], j);
    }
  }
}
