/**
 * What a committed cancellation does and does not stop.  It stops claims of the job, but not the
 * handler of a worker that has claimed it and not yet read the row: `process_job` reads the row after
 * the claim and runs the handler whatever the status is by then.  A request that is only recorded stops
 * less: whether a handler can still start depends on what is left to be retried.
 */
module Cancellation {
  import opened Jobs
  import opened Queue
  import opened Retry
  import opened Protocol
  import opened Accounting
  import opened Continuations
  import opened Overshoot

  /** The actor's next step is possible and starts a handler; the job of an unowned row is dropped instead. */
  ghost predicate StartsHandler(cfg: Config, f: Fences, s: State, a: ActorId, j: JobId) {
    && a in s.actors && AtClaimed(s.actors[a], j) && Legal(cfg, f, s, Go(a))
    && j in s.store.rows && s.store.rows[j].owner.Some?
  }

  lemma ClaimedIsLegal(cfg: Config, f: Fences, s: State, a: ActorId, j: JobId)
    requires a in s.actors && AtClaimed(s.actors[a], j) && j in s.store.rows
    ensures Legal(cfg, f, s, Go(a))
  {
  }

  /** From the claim it starts at once, under any hypotheses, exactly when the row has an owner; it runs on the row as it is. */
  lemma ClaimedStarts(cfg: Config, f: Fences, s: State, a: ActorId, j: JobId)
    requires Accounted(s) && a in s.actors && AtClaimed(s.actors[a], j)
    ensures j in s.store.rows && (StartsHandler(cfg, f, s, a, j) <==> s.store.rows[j].owner.Some?)
    ensures Legal(cfg, f, s, Go(a))
    ensures var s' := Exec(cfg, s, Go(a));
            a in s'.actors && s'.actors[a] == Running(s.actors[a].m, j, s.store.rows[j])
  {
    assert Informed(s.actors[a], s.store.rows, s.hist);
    ClaimedIsLegal(cfg, f, s, a, j);
  }

  /** Some continuation starts a handler of the job. */
  ghost predicate HandlerStarts(cfg: Config, f: Fences, s: State, j: JobId) {
    exists steps, a :: Run(cfg, f, s, steps) && StartsHandler(cfg, f, After(cfg, f, s, steps), a, j)
  }

  /** The job of an unowned row never gets a handler, whatever its status is and becomes. */
  lemma UnownedNeverStarts(cfg: Config, f: Fences, s: State, j: JobId)
    requires Accounted(s) && j in s.store.rows && s.store.rows[j].owner.None?
    ensures !HandlerStarts(cfg, f, s, j)
  {
    if HandlerStarts(cfg, f, s, j) {
      var steps, a :| Run(cfg, f, s, steps) && StartsHandler(cfg, f, After(cfg, f, s, steps), a, j);
      RowsStay(cfg, f, s, steps, j);
    }
  }

  // ----- after a committed cancellation -----

  /** Nobody comes to stand between claim and start of an absorbed job. */
  lemma NoNewClaim(cfg: Config, s: State, step: Step, a: ActorId, j: JobId)
    requires Accounted(s) && Enabled(cfg, s, step) && j in s.store.rows && !Waiting(s.store.rows[j].status)
    requires a in Exec(cfg, s, step).actors && AtClaimed(Exec(cfg, s, step).actors[a], j)
    ensures a in s.actors && s.actors[a] == Exec(cfg, s, step).actors[a]
  {
    if step.Go? && a == step.a { GoClaimsWaiting(cfg, s, a, j); } else { OnlyGoClaims(cfg, s, step, a, j); }
  }

  lemma OnlyGoClaims(cfg: Config, s: State, step: Step, a: ActorId, j: JobId)
    requires Enabled(cfg, s, step) && step != Go(a)
    requires a in Exec(cfg, s, step).actors && AtClaimed(Exec(cfg, s, step).actors[a], j)
    ensures a in s.actors && s.actors[a] == Exec(cfg, s, step).actors[a]
  {
    OthersStay(cfg, s, step);
  }

  lemma GoClaimsWaiting(cfg: Config, s: State, a: ActorId, j: JobId)
    requires a in s.actors && CanGo(cfg, s, s.actors[a])
    requires a in GoStep(cfg, s, a, s.actors[a]).actors && AtClaimed(GoStep(cfg, s, a, s.actors[a]).actors[a], j)
    ensures s.actors[a].Held? && j in s.store.rows && Waiting(s.store.rows[j].status)
  {
  }

  lemma AbsorbedStays(cfg: Config, s: State, step: Step, j: JobId)
    requires Accounted(s) && Enabled(cfg, s, step) && j in s.store.rows && Absorbed(s.store.rows[j])
    ensures Accounted(Exec(cfg, s, step))
    ensures j in Exec(cfg, s, step).store.rows && Absorbed(Exec(cfg, s, step).store.rows[j])
  {
    StepAccounts(cfg, s, step);
  }

  lemma {:induction false} WasClaimed(cfg: Config, f: Fences, s: State, steps: seq<Step>, a: ActorId, j: JobId)
    requires Accounted(s) && Run(cfg, f, s, steps) && j in s.store.rows && Absorbed(s.store.rows[j])
    requires a in After(cfg, f, s, steps).actors && AtClaimed(After(cfg, f, s, steps).actors[a], j)
    ensures a in s.actors && AtClaimed(s.actors[a], j)
    decreases |steps|
  {
    if steps != [] {
      AbsorbedStays(cfg, s, steps[0], j);
      WasClaimed(cfg, f, Exec(cfg, s, steps[0]), steps[1..], a, j);
      NoNewClaim(cfg, s, steps[0], a, j);
    }
  }

  /**
   * After a job is completed, cancelled, or failed with a cancel request, a handler of it starts in some
   * continuation if and only if its row has an owner and some worker already stood between its claim and
   * its row read.
   */
  lemma HandlerStartsExactly(cfg: Config, f: Fences, s: State, j: JobId)
    requires Accounted(s) && j in s.store.rows && Absorbed(s.store.rows[j])
    ensures HandlerStarts(cfg, f, s, j)
       <==> s.store.rows[j].owner.Some? && exists a :: a in s.actors && AtClaimed(s.actors[a], j)
  {
    if s.store.rows[j].owner.None? { UnownedNeverStarts(cfg, f, s, j); }
    if HandlerStarts(cfg, f, s, j) {
      var steps, a :| Run(cfg, f, s, steps) && StartsHandler(cfg, f, After(cfg, f, s, steps), a, j);
      WasClaimed(cfg, f, s, steps, a, j);
    }
    if a :| a in s.actors && AtClaimed(s.actors[a], j) {
      ClaimedStarts(cfg, f, s, a, j);
      assert Run(cfg, f, s, []) && After(cfg, f, s, []) == s;
    }
  }

  // ----- after a recorded request -----

  /** Somebody holds a snapshot of the job on which it would retry. */
  ghost predicate RetryHeld(cfg: Config, s: State, j: JobId) {
    exists a :: a in s.actors && Deciding(s.actors[a], j) && Retries(cfg, s.actors[a].snap)
  }

  /**
   * A worker stands between claim and row read, or the row waits, or it is processing and can still be
   * retried: by the row's own attempt count, or by the snapshot of somebody who has yet to decide.
   */
  ghost predicate CanRestart(cfg: Config, s: State, j: JobId)
    requires j in s.store.rows
  {
    var r := s.store.rows[j];
    || (exists a :: a in s.actors && AtClaimed(s.actors[a], j))
    || Waiting(r.status)
    || (r.status == Processing && (Retries(cfg, r) || RetryHeld(cfg, s, j)))
  }

  /** The request is recorded or no longer needed, and none of that is the case. */
  ghost predicate Quelled(cfg: Config, s: State, j: JobId) {
    && j in s.store.rows && (s.store.rows[j].cancelRequestedAt.Some? || Absorbed(s.store.rows[j]))
    && !CanRestart(cfg, s, j)
  }

  /** Who retries the job is somebody whose snapshot says so. */
  lemma RetryWritten(cfg: Config, s: State, step: Step)
    requires Enabled(cfg, s, step) && StepWriting(cfg, s, step).Some?
    ensures var w := StepWriting(cfg, s, step).value;
            w.u.RetryToPending? || w.u.RetryToScheduled? ==> RetryHeld(cfg, s, w.j)
  {
    if step.Finish? || step.Go? {
      var pc := s.actors[step.a];
      if pc.Running? || pc.Reclaimed? { assert Deciding(pc, pc.j); }
    }
  }

  /** An update that does not retry leaves a flagged processing row processing, with its count, or finished for good. */
  lemma UpdateQuells(u: Update, r: Row)
    requires Matches(u, r) && r.status == Processing && r.cancelRequestedAt.Some?
    requires !u.RetryToPending? && !u.RetryToScheduled?
    ensures var r' := Apply(u, r);
            && r'.cancelRequestedAt.Some?
            && (Absorbed(r') || (r'.status == Processing && r'.attempts == r.attempts && r'.maxAttempts == r.maxAttempts))
  {
  }

  /** What one step may make of the row. */
  predicate RowQuelled(cfg: Config, r: Row, r': Row) {
    && (r'.cancelRequestedAt.Some? || Absorbed(r')) && !Waiting(r'.status)
    && (r'.status == Processing ==> r.status == Processing && !Retries(cfg, r'))
  }

  lemma CommitQuells(cfg: Config, rows: Table, u: Update, k: JobId, j: JobId)
    requires j in rows && rows[j].status == Processing && rows[j].cancelRequestedAt.Some? && !Retries(cfg, rows[j])
    requires k == j ==> !u.RetryToPending? && !u.RetryToScheduled?
    ensures j in Commit(u, rows, k) && RowQuelled(cfg, rows[j], Commit(u, rows, k)[j])
  {
    if k == j && Wins(u, rows, j) { UpdateQuells(u, rows[j]); }
  }

  lemma FlaggedRowStays(cfg: Config, s: State, step: Step, j: JobId)
    requires Enabled(cfg, s, step) && j in s.store.rows && s.store.rows[j].status == Processing
    requires s.store.rows[j].cancelRequestedAt.Some? && !Retries(cfg, s.store.rows[j]) && !RetryHeld(cfg, s, j)
    ensures var s' := Exec(cfg, s, step); j in s'.store.rows && RowQuelled(cfg, s.store.rows[j], s'.store.rows[j])
  {
    if !step.Submit? {
      StepWrites(cfg, s, step);
      var w := StepWriting(cfg, s, step);
      if w.Some? {
        RetryWritten(cfg, s, step);
        CommitQuells(cfg, s.store.rows, w.value.u, w.value.j, j);
      }
    }
  }

  lemma RowStaysQuelled(cfg: Config, s: State, step: Step, j: JobId)
    requires Accounted(s) && Enabled(cfg, s, step) && Quelled(cfg, s, j)
    ensures var s' := Exec(cfg, s, step); j in s'.store.rows && RowQuelled(cfg, s.store.rows[j], s'.store.rows[j])
  {
    if Absorbed(s.store.rows[j]) { AbsorbedStays(cfg, s, step, j); } else { FlaggedRowStays(cfg, s, step, j); }
  }

  /** Who comes to hold a snapshot has just read the row. */
  lemma SnapshotIsRow(cfg: Config, s: State, step: Step, b: ActorId, j: JobId)
    requires Enabled(cfg, s, step) && b in Exec(cfg, s, step).actors && Deciding(Exec(cfg, s, step).actors[b], j)
    requires !(b in s.actors && s.actors[b] == Exec(cfg, s, step).actors[b])
    ensures j in s.store.rows && Exec(cfg, s, step).actors[b].snap == s.store.rows[j]
    ensures b in s.actors && (AtClaimed(s.actors[b], j) || s.store.rows[j].status == Processing)
  {
    OthersStay(cfg, s, step);
    if step.Go? && !Deciding(s.actors[step.a], j) { GoReadsRow(cfg, s, step.a, j); }
  }

  lemma GoReadsRow(cfg: Config, s: State, a: ActorId, j: JobId)
    requires a in s.actors && CanGo(cfg, s, s.actors[a]) && !Deciding(s.actors[a], j)
    ensures var s' := GoStep(cfg, s, a, s.actors[a]);
            a in s'.actors && Deciding(s'.actors[a], j) ==>
              && j in s.store.rows && s'.actors[a].snap == s.store.rows[j]
              && (AtClaimed(s.actors[a], j) || s.store.rows[j].status == Processing)
  {
  }

  lemma StepStaysQuelled(cfg: Config, s: State, step: Step, j: JobId)
    requires Accounted(s) && Enabled(cfg, s, step) && Quelled(cfg, s, j)
    ensures Quelled(cfg, Exec(cfg, s, step), j)
  {
    RowStaysQuelled(cfg, s, step, j);
    var s' := Exec(cfg, s, step);
    forall b | b in s'.actors
      ensures !AtClaimed(s'.actors[b], j)
      ensures s'.store.rows[j].status == Processing && Deciding(s'.actors[b], j) ==> !Retries(cfg, s'.actors[b].snap)
    {
      if AtClaimed(s'.actors[b], j) { NoNewClaim(cfg, s, step, b, j); }
      if Deciding(s'.actors[b], j) && !(b in s.actors && s.actors[b] == s'.actors[b]) {
        SnapshotIsRow(cfg, s, step, b, j);
      }
    }
  }

  /** Under any hypotheses or none: what is quelled stays quelled, and no handler of it starts. */
  lemma {:induction false} QuelledForGood(cfg: Config, f: Fences, s: State, steps: seq<Step>, j: JobId)
    requires Accounted(s) && Quelled(cfg, s, j) && Run(cfg, f, s, steps)
    ensures Quelled(cfg, After(cfg, f, s, steps), j)
    ensures forall a :: !StartsHandler(cfg, f, After(cfg, f, s, steps), a, j)
    decreases |steps|
  {
    if steps != [] {
      StepAccounts(cfg, s, steps[0]);
      StepStaysQuelled(cfg, s, steps[0], j);
      QuelledForGood(cfg, f, Exec(cfg, s, steps[0]), steps[1..], j);
    }
  }

  /** The claim that a continuation leads to starts a handler. */
  lemma ClaimStarts(cfg: Config, s: State, s': State, a: ActorId, j: JobId)
    requires Leads(cfg, s, s') && a in s'.actors && AtClaimed(s'.actors[a], j)
    requires j in s'.store.rows && s'.store.rows[j].owner.Some?
    ensures HandlerStarts(cfg, ALL_FENCES, s, j)
  {
    var steps :| Run(cfg, ALL_FENCES, s, steps) && After(cfg, ALL_FENCES, s, steps) == s';
    ClaimedIsLegal(cfg, ALL_FENCES, s', a, j);
    assert StartsHandler(cfg, ALL_FENCES, s', a, j);
  }

  lemma WaitingStarts(cfg: Config, o: State, s: State, j: JobId)
    requires Sound(o) && Leads(cfg, o, s) && j in s.store.rows && Waiting(s.store.rows[j].status)
    requires s.store.rows[j].owner.Some?
    ensures HandlerStarts(cfg, ALL_FENCES, o, j)
  {
    LeadsSound(cfg, o, s);
    var s', a := WaitingClaims(cfg, o, s, j);
    ClaimStarts(cfg, o, s', a, j);
  }

  /** A snapshot has the owner of its row. */
  lemma OwnerSeen(cfg: Config, o: State, s: State, a: ActorId, j: JobId)
    requires Sound(o) && Leads(cfg, o, s) && a in s.actors && Deciding(s.actors[a], j)
    ensures j in s.store.rows && s.actors[a].snap.owner == s.store.rows[j].owner
  {
    LeadsSound(cfg, o, s);
    assert Informed(s.actors[a], s.store.rows, s.hist);
  }

  lemma HeldRetryStarts(cfg: Config, o: State, s: State, j: JobId)
    requires Sound(o) && Leads(cfg, o, s) && j in s.store.rows && s.store.rows[j].status == Processing
    requires s.store.rows[j].owner.Some? && RetryHeld(cfg, s, j)
    ensures HandlerStarts(cfg, ALL_FENCES, o, j)
  {
    var a :| a in s.actors && Deciding(s.actors[a], j) && Retries(cfg, s.actors[a].snap);
    OwnerSeen(cfg, o, s, a, j);
    var s' := Decides(cfg, o, s, a, j);
    WaitingStarts(cfg, o, s', j);
  }

  lemma RetryableStarts(cfg: Config, s: State, j: JobId)
    requires Sound(s) && j in s.store.rows && s.store.rows[j].status == Processing
    requires s.store.rows[j].owner.Some? && Retries(cfg, s.store.rows[j])
    ensures HandlerStarts(cfg, ALL_FENCES, s, j)
  {
    Here(cfg, s);
    var s', a := Suspects(cfg, s, s, j);
    HeldRetryStarts(cfg, s, s', j);
  }

  lemma CanRestartStarts(cfg: Config, s: State, j: JobId)
    requires Sound(s) && j in s.store.rows && s.store.rows[j].owner.Some? && CanRestart(cfg, s, j)
    ensures HandlerStarts(cfg, ALL_FENCES, s, j)
  {
    Here(cfg, s);
    if a :| a in s.actors && AtClaimed(s.actors[a], j) {
      ClaimStarts(cfg, s, s, a, j);
    } else if Waiting(s.store.rows[j].status) {
      WaitingStarts(cfg, s, s, j);
    } else if Retries(cfg, s.store.rows[j]) {
      RetryableStarts(cfg, s, j);
    } else {
      HeldRetryStarts(cfg, s, s, j);
    }
  }

  /**
   * Once a cancel request is recorded, in every state that can be reached with all hypotheses holding: a
   * handler of the job starts in some continuation if and only if the row has an owner and something of
   * the job is left to be claimed or retried.
   */
  lemma StartsAfterRequestExactly(cfg: Config, s: State, j: JobId)
    requires Reachable(cfg, ALL_FENCES, s) && j in s.store.rows && s.store.rows[j].cancelRequestedAt.Some?
    ensures HandlerStarts(cfg, ALL_FENCES, s, j) <==> s.store.rows[j].owner.Some? && CanRestart(cfg, s, j)
  {
    assert Leads(cfg, INIT, s);
    ReachedSound(cfg, s);
    if s.store.rows[j].owner.None? {
      UnownedNeverStarts(cfg, ALL_FENCES, s, j);
    } else if CanRestart(cfg, s, j) {
      CanRestartStarts(cfg, s, j);
    } else if HandlerStarts(cfg, ALL_FENCES, s, j) {
      var steps, a :| Run(cfg, ALL_FENCES, s, steps)
                      && StartsHandler(cfg, ALL_FENCES, After(cfg, ALL_FENCES, s, steps), a, j);
      QuelledForGood(cfg, ALL_FENCES, s, steps, j);
    }
  }

  // ----- two runs in which a handler starts after the client got its answer -----

  lemma Calls(cfg: Config, s: State, c: ActorId, j: JobId)
    requires Leads(cfg, INIT, s) && c !in s.actors && j in s.store.rows
    ensures Leads(cfg, INIT, At(s, c, CancelTry(j, 0, HistOf(s, j).moves)))
  {
    Onward(cfg, INIT, s, CancelCall(c, j));
  }

  /** The first statement of the cancel call wins a waiting row. */
  lemma Cancels(cfg: Config, s: State, c: ActorId, j: JobId, base: nat)
    requires Leads(cfg, INIT, s) && c in s.actors && s.actors[c] == CancelTry(j, 0, base)
    requires j in s.store.rows && Waiting(s.store.rows[j].status)
    ensures Leads(cfg, INIT, At(Plain(s, CancelWaiting(s.now), j), c, Withdrawing(j, base)))
  {
    Onward(cfg, INIT, s, Go(c));
  }

  lemma Withdraws(cfg: Config, s: State, c: ActorId, j: JobId, base: nat)
    requires Leads(cfg, INIT, s) && c in s.actors && s.actors[c] == Withdrawing(j, base)
    ensures Leads(cfg, INIT, At(s.(store := ZRem(s.store, j)), c, Answered(j, Ok200, base)))
  {
    Onward(cfg, INIT, s, Go(c));
  }

  /** The client has its answer. */
  ghost predicate Told(s: State, c: ActorId, j: JobId, reply: CancelReply) {
    c in s.actors && s.actors[c].Answered? && s.actors[c].j == j && s.actors[c].reply == reply
  }

  lemma CancelWins(cfg: Config, s: State, j: JobId) returns (s': State, c: ActorId)
    requires Leads(cfg, INIT, s) && j in s.store.rows && Waiting(s.store.rows[j].status)
    ensures Leads(cfg, INIT, s') && c !in s.actors
    ensures s' == At(Plain(s, CancelWaiting(s.now), j), c, Withdrawing(j, HistOf(s, j).moves))
  {
    c := Fresh(s);
    var base := HistOf(s, j).moves;
    Calls(cfg, s, c, j);
    var s1 := At(s, c, CancelTry(j, 0, base));
    Cancels(cfg, s1, c, j, base);
    s' := At(Plain(s1, CancelWaiting(s1.now), j), c, Withdrawing(j, base));
    assert s'.actors == s.actors[c := Withdrawing(j, base)];
  }

  lemma CancelAnswered(cfg: Config, s: State, j: JobId) returns (s': State, c: ActorId)
    requires Leads(cfg, INIT, s) && j in s.store.rows && Waiting(s.store.rows[j].status)
    ensures Leads(cfg, INIT, s') && Keeps(s, s') && Told(s', c, j, Ok200)
    ensures j in s'.store.rows && s'.store.rows[j] == Apply(CancelWaiting(s.now), s.store.rows[j])
  {
    var s1;
    s1, c := CancelWins(cfg, s, j);
    Withdraws(cfg, s1, c, j, HistOf(s, j).moves);
    s' := At(s1.(store := ZRem(s1.store, j)), c, Answered(j, Ok200, HistOf(s, j).moves));
  }

  /** A worker claims and pauses, and the reaper retries the job. */
  lemma RetriedUnderClaim(cfg: Config) returns (s: State, a: ActorId)
    requires CanRetry(cfg)
    ensures Leads(cfg, INIT, s) && a in s.actors && AtClaimed(s.actors[a], 0)
    ensures 0 in s.store.rows && Waiting(s.store.rows[0].status) && s.store.rows[0].owner.Some?
  {
    var s1;
    s1, a := FirstClaim(cfg, SUB);
    var s2, b := NextSuspect(cfg, s1, 0);
    RetriesBelow(cfg, s1.store.rows[0]);
    s := Decides(cfg, INIT, s2, b, 0);
  }

  /** The client has its 200, the row is cancelled, and the handler is still to start: it runs on a cancelled row. */
  lemma StartsAfter200(cfg: Config) returns (s: State, a: ActorId, c: ActorId)
    requires CanRetry(cfg)
    ensures Reachable(cfg, ALL_FENCES, s) && Told(s, c, 0, Ok200)
    ensures 0 in s.store.rows && s.store.rows[0].status == Cancelled && StartsHandler(cfg, ALL_FENCES, s, a, 0)
  {
    var s1;
    s1, a := RetriedUnderClaim(cfg);
    s, c := CancelAnswered(cfg, s1, 0);
    ClaimedIsLegal(cfg, ALL_FENCES, s, a, 0);
  }

  lemma TriesInVain(cfg: Config, s: State, c: ActorId, j: JobId, base: nat)
    requires Leads(cfg, INIT, s) && c in s.actors && s.actors[c] == CancelTry(j, 0, base)
    requires j in s.store.rows && s.store.rows[j].status == Processing
    ensures Leads(cfg, INIT, At(s, c, CancelAsk(j, 0, base)))
  {
    Onward(cfg, INIT, s, Go(c));
  }

  lemma Asks(cfg: Config, s: State, c: ActorId, j: JobId, base: nat)
    requires Leads(cfg, INIT, s) && c in s.actors && s.actors[c] == CancelAsk(j, 0, base)
    requires j in s.store.rows && s.store.rows[j].status == Processing
    ensures Leads(cfg, INIT, At(Plain(s, RequestCancel(s.now), j), c, Answered(j, Accepted202, base)))
  {
    Onward(cfg, INIT, s, Go(c));
  }

  lemma TryLoses(cfg: Config, s: State, j: JobId) returns (s': State, c: ActorId)
    requires Leads(cfg, INIT, s) && j in s.store.rows && s.store.rows[j].status == Processing
    ensures Leads(cfg, INIT, s') && c !in s.actors && s' == At(s, c, CancelAsk(j, 0, HistOf(s, j).moves))
  {
    c := Fresh(s);
    var base := HistOf(s, j).moves;
    Calls(cfg, s, c, j);
    var s1 := At(s, c, CancelTry(j, 0, base));
    TriesInVain(cfg, s1, c, j, base);
    s' := At(s1, c, CancelAsk(j, 0, base));
    assert s'.actors == s.actors[c := CancelAsk(j, 0, base)];
  }

  lemma RequestAnswered(cfg: Config, s: State, j: JobId) returns (s': State, c: ActorId)
    requires Leads(cfg, INIT, s) && j in s.store.rows && s.store.rows[j].status == Processing
    ensures Leads(cfg, INIT, s') && Keeps(s, s') && Told(s', c, j, Accepted202) && c !in s.actors
    ensures j in s'.store.rows && s'.store.rows[j] == Apply(RequestCancel(s.now), s.store.rows[j])
  {
    var s1;
    s1, c := TryLoses(cfg, s, j);
    var base := HistOf(s, j).moves;
    Asks(cfg, s1, c, j, base);
    s' := At(Plain(s1, RequestCancel(s1.now), j), c, Answered(j, Accepted202, base));
  }

  lemma AskedWhileRunning(cfg: Config) returns (s: State, b: ActorId, c: ActorId)
    ensures Leads(cfg, INIT, s) && Told(s, c, 0, Accepted202) && 0 in s.store.rows
    ensures s.store.rows[0].status == Processing && s.store.rows[0].cancelRequestedAt.Some?
    ensures s.store.rows[0].owner.Some? && b in s.actors && s.actors[b].Running? && s.actors[b].j == 0
    ensures var snap := s.actors[b].snap; snap.attempts == 0 && snap.maxAttempts == cfg.maxAttempts && snap.owner.Some?
  {
    var s1;
    s1, b := FirstClaim(cfg, SUB);
    Reads(cfg, INIT, s1, b, 0);
    s, c := RequestAnswered(cfg, At(s1, b, Running(s1.actors[b].m, 0, s1.store.rows[0])), 0);
  }

  /** The handler fails, and the retry decision does not look at the flag. */
  lemma RequeuedWithFlag(cfg: Config) returns (s: State, c: ActorId)
    requires CanRetry(cfg)
    ensures Leads(cfg, INIT, s) && Told(s, c, 0, Accepted202) && 0 in s.store.rows && s.store.rows[0].owner.Some?
    ensures Waiting(s.store.rows[0].status) && s.store.rows[0].cancelRequestedAt.Some?
  {
    var s1, b;
    s1, b, c := AskedWhileRunning(cfg);
    RetriesBelow(cfg, s1.actors[b].snap);
    s := Decides(cfg, INIT, s1, b, 0);
  }

  /** No worker is slow here: the client gets its 202 while the handler runs, and the job is claimed again. */
  lemma StartsAfter202(cfg: Config) returns (s: State, a: ActorId, c: ActorId)
    requires CanRetry(cfg)
    ensures Reachable(cfg, ALL_FENCES, s) && Told(s, c, 0, Accepted202)
    ensures 0 in s.store.rows && s.store.rows[0].cancelRequestedAt.Some? && StartsHandler(cfg, ALL_FENCES, s, a, 0)
  {
    var s1;
    s1, c := RequeuedWithFlag(cfg);
    s, a := NextClaim(cfg, s1, 0);
    ClaimedIsLegal(cfg, ALL_FENCES, s, a, 0);
  }
}
