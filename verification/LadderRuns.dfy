/**
 * The retry ladder as a property of runs of the machine: a job whose every execution fails retryably,
 * with other jobs, the reaper, the reconciler, crashes and slow workers around it.
 */
module LadderRuns {
  import opened Jobs
  import opened Queue
  import opened Retry
  import opened Protocol
  import opened Accounting

  predicate Cancelling(pc: Pc, j: JobId) {
    (pc.CancelTry? || pc.CancelAsk? || pc.CancelLook?) && pc.j == j
  }

  /** The step ends no execution of the job but by a retryable failure, and no client cancels or resets it. */
  predicate FailsOnly(s: State, step: Step, j: JobId) {
    && (step.Finish? && step.a in s.actors && Deciding(s.actors[step.a], j) ==> step.out.Fails?)
    && !(step.RetryCall? && step.j == j) && !(step.CancelCall? && step.j == j)
  }

  /** At most one actor is about to decide about the job. */
  ghost predicate Single(s: State, j: JobId) {
    forall a, b | a in s.actors && b in s.actors && Deciding(s.actors[a], j) && Deciding(s.actors[b], j) :: a == b
  }

  /** Every step of the run is such a step; `single` asks for one deciding actor at a time. */
  ghost predicate FailingRun(cfg: Config, f: Fences, s: State, steps: seq<Step>, j: JobId, single: bool)
    requires Run(cfg, f, s, steps)
    decreases |steps|
  {
    steps == [] ||
    (&& FailsOnly(s, steps[0], j) && (single ==> Single(s, j))
     && FailingRun(cfg, f, Exec(cfg, s, steps[0]), steps[1..], j, single))
  }

  /** The row and its history: no exit but retries and a last failure, which came no attempt too early. */
  predicate Climbing(r: Row, h: Hist, single: bool) {
    && h.exits == h.ended && r.status != Completed && r.status != Cancelled
    && (r.status == Failed ==> r.attempts >= Cap(r))
    && (single ==> h.outdated == 0)
  }

  /** A snapshot is never ahead of the row; with one deciding actor it is the row's own count. */
  predicate Seen(pc: Pc, j: JobId, r: Row, single: bool) {
    && !Cancelling(pc, j)
    && (Deciding(pc, j) ==> pc.snap.attempts <= r.attempts && (single ==> pc.snap.attempts == r.attempts))
  }

  ghost predicate OnLadder(s: State, j: JobId, single: bool) {
    && Accounted(s)
    && (j in s.store.rows ==> j in s.hist && Climbing(s.store.rows[j], s.hist[j], single))
    && (forall a | a in s.actors :: j in s.store.rows ==> Seen(s.actors[a], j, s.store.rows[j], single))
    && (forall a | a in s.actors :: j !in s.store.rows ==> !Deciding(s.actors[a], j) && !Cancelling(s.actors[a], j))
  }

  /** What may be written to the row of such a job, and by whom. */
  lemma WritesOnLadder(cfg: Config, s: State, step: Step, j: JobId, single: bool)
    requires OnLadder(s, j, single) && Enabled(cfg, s, step) && FailsOnly(s, step, j) && j in s.store.rows
    requires var w := StepWriting(cfg, s, step); w.Some? && w.value.j == j && Wins(w.value.u, s.store.rows, j)
    ensures var w := StepWriting(cfg, s, step).value; var r := s.store.rows[j];
            && !w.u.CancelRunning? && !w.u.ResetFailed? && !w.u.Complete? && !w.u.CancelWaiting?
            && (w.u.Fail? ==> r.attempts + 1 >= Cap(r))
            && (Exits(w.u) ==> (step.Finish? || step.Go?) && Deciding(s.actors[step.a], j) && w.seen <= r.attempts
                               && (single ==> w.u.Fail? || w.seen == r.attempts))
  {
    if step.Finish? || step.Go? {
      var pc := s.actors[step.a];
      assert Seen(pc, j, s.store.rows[j], single) && Informed(pc, s.store.rows, s.hist);
      if step.Finish? { assert pc.j == j; }
    }
  }

  /** The row after such a write. */
  lemma WriteClimbs(u: Update, r: Row, h: Hist, src: Option<Msg>, seen: nat, single: bool)
    requires Matches(u, r) && Climbing(r, h, single)
    requires !u.CancelRunning? && !u.ResetFailed? && !u.Complete? && !u.CancelWaiting?
    requires u.Fail? ==> r.attempts + 1 >= Cap(r)
    requires Exits(u) && single ==> u.Fail? || seen == r.attempts
    ensures Climbing(Apply(u, r), Track(h, u, r, src, seen), single)
    ensures Apply(u, r).attempts == if Exits(u) then r.attempts + 1 else r.attempts
  {
  }

  /** What one step does to the job: nothing, or such a write. */
  lemma StepClimbs(cfg: Config, s: State, step: Step, j: JobId, single: bool)
    requires OnLadder(s, j, single) && Enabled(cfg, s, step) && FailsOnly(s, step, j) && j in s.store.rows
    ensures var s' := Exec(cfg, s, step);
            && j in s'.store.rows && j in s'.hist && Climbing(s'.store.rows[j], s'.hist[j], single)
            && (s'.store.rows[j].attempts == s.store.rows[j].attempts
                || (s'.store.rows[j].attempts > s.store.rows[j].attempts
                    && (step.Finish? || step.Go?) && Deciding(s.actors[step.a], j)))
  {
    StepOnRow(cfg, s, step, j);
    if WritesJob(cfg, s, step, j) {
      var w := StepWriting(cfg, s, step).value;
      WritesOnLadder(cfg, s, step, j, single);
      WriteClimbs(w.u, s.store.rows[j], s.hist[j], w.src, w.seen, single);
    }
  }

  /** A mover that comes to decide about the job has just read its row. */
  lemma FreshSnapshot(cfg: Config, s: State, step: Step, j: JobId)
    requires Enabled(cfg, s, step) && FailsOnly(s, step, j)
    requires forall a | a in s.actors :: !Cancelling(s.actors[a], j)
    ensures var s' := Exec(cfg, s, step); var a := Mover(step);
            a in s'.actors && (a in s.actors ==> s'.actors[a] != s.actors[a]) ==>
              && !Cancelling(s'.actors[a], j)
              && (Deciding(s'.actors[a], j) ==>
                    j in s.store.rows && s'.actors[a].snap == s.store.rows[j] && s'.store.rows == s.store.rows)
  {
    if step.Go? { GoSnapshot(cfg, s, step.a, j); } else { OthersTakeNone(cfg, s, step, j); }
  }

  /** Only `Go` reads rows. */
  lemma OthersTakeNone(cfg: Config, s: State, step: Step, j: JobId)
    requires Enabled(cfg, s, step) && FailsOnly(s, step, j) && !step.Go?
    ensures var s' := Exec(cfg, s, step); var a := Mover(step);
            a in s'.actors && (a in s.actors ==> s'.actors[a] != s.actors[a]) ==>
              !Cancelling(s'.actors[a], j) && !Deciding(s'.actors[a], j)
  {
  }

  lemma GoSnapshot(cfg: Config, s: State, a: ActorId, j: JobId)
    requires a in s.actors && CanGo(cfg, s, s.actors[a]) && !Cancelling(s.actors[a], j)
    ensures var s' := GoStep(cfg, s, a, s.actors[a]);
            a in s'.actors && s'.actors[a] != s.actors[a] ==>
              && !Cancelling(s'.actors[a], j)
              && (Deciding(s'.actors[a], j) ==>
                    j in s.store.rows && s'.actors[a].snap == s.store.rows[j] && s'.store.rows == s.store.rows)
  {
  }

  /** The job's submission. */
  lemma SubmitClimbs(cfg: Config, s: State, step: Step, j: JobId, single: bool)
    requires Enabled(cfg, s, step) && j !in s.store.rows && j in Exec(cfg, s, step).store.rows
    ensures var s' := Exec(cfg, s, step); step.Submit? && j in s'.hist && Climbing(s'.store.rows[j], s'.hist[j], single)
  {
    if !step.Submit? { StepWrites(cfg, s, step); }
  }

  /** Who decided is done deciding. */
  lemma DecisionLeaves(cfg: Config, s: State, step: Step, j: JobId)
    requires Enabled(cfg, s, step) && (step.Finish? || step.Go?) && Deciding(s.actors[step.a], j)
    ensures step.a in Exec(cfg, s, step).actors ==> !Deciding(Exec(cfg, s, step).actors[step.a], j)
  {
  }

  /** An actor that stays where it was. */
  lemma BystanderSees(cfg: Config, s: State, step: Step, j: JobId, single: bool, b: ActorId)
    requires OnLadder(s, j, single) && Enabled(cfg, s, step) && FailsOnly(s, step, j) && (single ==> Single(s, j))
    requires j in s.store.rows && b in s.actors && b in Exec(cfg, s, step).actors
    requires Exec(cfg, s, step).actors[b] == s.actors[b]
    ensures j in Exec(cfg, s, step).store.rows && Seen(s.actors[b], j, Exec(cfg, s, step).store.rows[j], single)
  {
    assert Seen(s.actors[b], j, s.store.rows[j], single);
    StepClimbs(cfg, s, step, j, single);
    if (step.Finish? || step.Go?) && Deciding(s.actors[step.a], j) { DecisionLeaves(cfg, s, step, j); }
  }

  lemma AllSee(cfg: Config, s: State, step: Step, j: JobId, single: bool)
    requires OnLadder(s, j, single) && Enabled(cfg, s, step) && FailsOnly(s, step, j) && (single ==> Single(s, j))
    requires j in s.store.rows && j in Exec(cfg, s, step).store.rows
    ensures var s' := Exec(cfg, s, step); forall b | b in s'.actors :: Seen(s'.actors[b], j, s'.store.rows[j], single)
  {
    var s' := Exec(cfg, s, step);
    OthersStay(cfg, s, step);
    assert forall a | a in s.actors :: Seen(s.actors[a], j, s.store.rows[j], single);
    FreshSnapshot(cfg, s, step, j);
    forall b | b in s'.actors
      ensures Seen(s'.actors[b], j, s'.store.rows[j], single)
    {
      if b in s.actors && s'.actors[b] == s.actors[b] { BystanderSees(cfg, s, step, j, single, b); }
    }
  }

  /** Before the job exists nobody is concerned with it. */
  lemma NobodyYet(cfg: Config, s: State, step: Step, j: JobId, single: bool)
    requires OnLadder(s, j, single) && Enabled(cfg, s, step) && FailsOnly(s, step, j) && j !in s.store.rows
    ensures var s' := Exec(cfg, s, step);
            forall b | b in s'.actors :: !Deciding(s'.actors[b], j) && !Cancelling(s'.actors[b], j)
  {
    OthersStay(cfg, s, step);
    FreshSnapshot(cfg, s, step, j);
  }

  /** One step of anybody. */
  lemma StepOnLadder(cfg: Config, s: State, step: Step, j: JobId, single: bool)
    requires OnLadder(s, j, single) && Enabled(cfg, s, step) && FailsOnly(s, step, j) && (single ==> Single(s, j))
    ensures OnLadder(Exec(cfg, s, step), j, single)
  {
    assert Accounted(Exec(cfg, s, step)) by { StepAccounts(cfg, s, step); }
    if j in s.store.rows {
      StepClimbs(cfg, s, step, j, single);
      AllSee(cfg, s, step, j, single);
    } else {
      NobodyYet(cfg, s, step, j, single);
      if j in Exec(cfg, s, step).store.rows { SubmitClimbs(cfg, s, step, j, single); }
    }
  }

  lemma {:induction false} RunOnLadder(cfg: Config, f: Fences, s: State, steps: seq<Step>, j: JobId, single: bool)
    requires OnLadder(s, j, single) && Run(cfg, f, s, steps) && FailingRun(cfg, f, s, steps, j, single)
    ensures OnLadder(After(cfg, f, s, steps), j, single)
    decreases |steps|
  {
    if steps != [] {
      StepOnLadder(cfg, s, steps[0], j, single);
      RunOnLadder(cfg, f, Exec(cfg, s, steps[0]), steps[1..], j, single);
    }
  }

  /**
   * In every run, with any crashes and races: a job whose every execution fails retryably is claimed
   * once per attempt (and once more while it is processing), and when it ends failed it has had at
   * least all its attempts, and at most one more per decision on an outdated snapshot.
   */
  lemma LadderInEveryRun(cfg: Config, f: Fences, steps: seq<Step>, j: JobId)
    requires Run(cfg, f, INIT, steps) && FailingRun(cfg, f, INIT, steps, j, false)
    requires j in After(cfg, f, INIT, steps).store.rows
    ensures var s := After(cfg, f, INIT, steps); var r := s.store.rows[j];
            && j in s.hist
            && s.hist[j].claims == r.attempts + (if r.status == Processing then 1 else 0)
            && (Terminal(r.status) ==> r.status == Failed && Cap(r) <= s.hist[j].claims <= Cap(r) + s.hist[j].outdated)
  {
    RunOnLadder(cfg, f, INIT, steps, j, false);
    assert Balanced(After(cfg, f, INIT, steps).store.rows[j], After(cfg, f, INIT, steps).hist[j]);
  }

  /** With one deciding actor at a time the job is claimed exactly `max_attempts` times, and ends with as many attempts. */
  lemma LadderWithOneActor(cfg: Config, f: Fences, steps: seq<Step>, j: JobId)
    requires Run(cfg, f, INIT, steps) && FailingRun(cfg, f, INIT, steps, j, true)
    requires j in After(cfg, f, INIT, steps).store.rows && Terminal(After(cfg, f, INIT, steps).store.rows[j].status)
    ensures var s := After(cfg, f, INIT, steps); var r := s.store.rows[j];
            j in s.hist && r.status == Failed && s.hist[j].claims == Cap(r) && r.attempts == Cap(r)
  {
    RunOnLadder(cfg, f, INIT, steps, j, true);
    assert Balanced(After(cfg, f, INIT, steps).store.rows[j], After(cfg, f, INIT, steps).hist[j]);
  }

  // ----- how long a retry waits -----

  /** Made to wait at `now` for the backoff that follows `n` attempts. */
  predicate WaitsOut(cfg: Config, r: Row, now: Time, n: nat) {
    var delay := BackoffDelay(n, cfg.schedule);
    && delay.Some?
    && if delay.value <= 0 then r.status == Pending else r.status == Scheduled && r.scheduledAt == Some(now + delay.value)
  }

  /** Whoever makes a processing row wait again has decided so on its snapshot, whose count sets the delay. */
  lemma RetryWaits(cfg: Config, s: State, step: Step, j: JobId)
    requires Enabled(cfg, s, step) && j in s.store.rows && j in s.hist && s.store.rows[j].status == Processing
    requires j in Exec(cfg, s, step).store.rows && Waiting(Exec(cfg, s, step).store.rows[j].status)
    ensures (step.Finish? || step.Go?) && Deciding(s.actors[step.a], j)
    ensures WaitsOut(cfg, Exec(cfg, s, step).store.rows[j], s.now, s.actors[step.a].snap.attempts + 1)
  {
    StepOnRow(cfg, s, step, j);
  }

  /** It gives up exactly at the snapshot's limit. */
  lemma Decided(cfg: Config, s: State, step: Step, j: JobId)
    requires OnLadder(s, j, true) && Enabled(cfg, s, step) && FailsOnly(s, step, j) && j in s.store.rows
    requires WritesJob(cfg, s, step, j) && Exits(StepWriting(cfg, s, step).value.u)
    ensures var u := StepWriting(cfg, s, step).value.u; var r := s.store.rows[j];
            u.Fail? <==> r.attempts + 1 >= r.maxAttempts
  {
    WritesOnLadder(cfg, s, step, j, true);
    assert Seen(s.actors[step.a], j, s.store.rows[j], true) && Informed(s.actors[step.a], s.store.rows, s.hist);
  }

  /** Any other way out of processing that is left to such a job is its failure. */
  lemma EndsOrWaits(cfg: Config, s: State, step: Step, j: JobId)
    requires OnLadder(s, j, true) && Enabled(cfg, s, step) && FailsOnly(s, step, j)
    requires j in s.store.rows && s.store.rows[j].status == Processing
    requires j in Exec(cfg, s, step).store.rows && Exec(cfg, s, step).store.rows[j].status != Processing
    ensures var r' := Exec(cfg, s, step).store.rows[j];
            && r'.attempts == s.store.rows[j].attempts + 1
            && (Waiting(r'.status) || r'.status == Failed)
            && (r'.status == Failed <==> r'.attempts >= r'.maxAttempts)
  {
    StepOnRow(cfg, s, step, j);
    WritesOnLadder(cfg, s, step, j, true);
    Decided(cfg, s, step, j);
  }

  lemma DeciderSees(s: State, a: ActorId, j: JobId)
    requires OnLadder(s, j, true) && j in s.store.rows && a in s.actors && Deciding(s.actors[a], j)
    ensures s.actors[a].snap.attempts == s.store.rows[j].attempts
  {
    assert Seen(s.actors[a], j, s.store.rows[j], true);
  }

  lemma FreshRetryWaits(cfg: Config, s: State, step: Step, j: JobId)
    requires OnLadder(s, j, true) && Enabled(cfg, s, step)
    requires j in s.store.rows && j in s.hist && s.store.rows[j].status == Processing
    requires j in Exec(cfg, s, step).store.rows && Waiting(Exec(cfg, s, step).store.rows[j].status)
    ensures WaitsOut(cfg, Exec(cfg, s, step).store.rows[j], s.now, s.store.rows[j].attempts + 1)
  {
    RetryWaits(cfg, s, step, j);
    DeciderSees(s, step.a, j);
  }

  /** The row failed with its last attempt used up, or waits out the backoff of its attempt count. */
  predicate ExecutionEnded(cfg: Config, r: Row, r': Row, now: Time) {
    && r'.attempts == r.attempts + 1
    && if r'.attempts >= r'.maxAttempts then r'.status == Failed else WaitsOut(cfg, r', now, r'.attempts)
  }

  lemma StepWaits(cfg: Config, s: State, step: Step, j: JobId)
    requires OnLadder(s, j, true) && Enabled(cfg, s, step) && FailsOnly(s, step, j)
    requires j in s.store.rows && s.store.rows[j].status == Processing
    requires j in Exec(cfg, s, step).store.rows && Exec(cfg, s, step).store.rows[j].status != Processing
    ensures ExecutionEnded(cfg, s.store.rows[j], Exec(cfg, s, step).store.rows[j], s.now)
  {
    EndsOrWaits(cfg, s, step, j);
    if Waiting(Exec(cfg, s, step).store.rows[j].status) { FreshRetryWaits(cfg, s, step, j); }
  }

  /**
   * With one deciding actor at a time, in every run: an execution that ends either used up the last attempt
   * and fails the job, or makes it wait from that instant on for exactly the backoff of its attempt count.
   */
  lemma LadderWaits(cfg: Config, f: Fences, steps: seq<Step>, step: Step, j: JobId)
    requires Run(cfg, f, INIT, steps) && FailingRun(cfg, f, INIT, steps, j, true)
    requires var s := After(cfg, f, INIT, steps);
             && Legal(cfg, f, s, step) && FailsOnly(s, step, j) && Single(s, j)
             && j in s.store.rows && s.store.rows[j].status == Processing
             && j in Exec(cfg, s, step).store.rows && Exec(cfg, s, step).store.rows[j].status != Processing
    ensures var s := After(cfg, f, INIT, steps);
            ExecutionEnded(cfg, s.store.rows[j], Exec(cfg, s, step).store.rows[j], s.now)
  {
    RunOnLadder(cfg, f, INIT, steps, j, true);
    StepWaits(cfg, After(cfg, f, INIT, steps), step, j);
  }
}
