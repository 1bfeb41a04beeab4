/**
 * The attempt bound is tight, for every limit that allows a retry and any number of outdated decisions:
 * reapers that pause between their row read and their decision carry the count past `max_attempts`,
 * one attempt each, even when every hypothesis about interference holds.
 */
module Overshoot {
  import opened Jobs
  import opened Retry
  import opened Protocol
  import opened Accounting
  import opened Continuations
  import opened LadderRuns

  const SUB := Submission(Some(7), Email, Normal, None, None, None)

  /** The configuration retries at all: some job gets a second attempt. */
  predicate CanRetry(cfg: Config) {
    cfg.maxAttempts >= 2 && cfg.schedule != []
  }

  lemma RetriesBelow(cfg: Config, snap: Row)
    requires CanRetry(cfg) && snap.maxAttempts == cfg.maxAttempts && snap.attempts + 1 < cfg.maxAttempts
    ensures Retries(cfg, snap)
  {
    BackoffIsClampedLookup(snap.attempts + 1, cfg.schedule);
  }

  /** A reaper that read the row before its first attempt ended and has not decided yet. */
  predicate Paused(cfg: Config, pc: Pc) {
    pc.Reclaimed? && pc.j == 0 && pc.snap.attempts == 0 && pc.snap.maxAttempts == cfg.maxAttempts
  }

  ghost predicate AllPaused(cfg: Config, s: State, ids: set<ActorId>) {
    forall a | a in ids :: a in s.actors && Paused(cfg, s.actors[a])
  }

  /** The one job: `n` attempts so far, `d` outdated decisions, and the reapers `ids` still to decide. */
  ghost predicate Stage(cfg: Config, s: State, n: nat, d: nat, ids: set<ActorId>) {
    && Leads(cfg, INIT, s) && 0 in s.store.rows && 0 in s.hist
    && s.store.rows[0].attempts == n && s.store.rows[0].maxAttempts == cfg.maxAttempts && s.store.rows[0].owner.Some?
    && s.hist[0].outdated == d && AllPaused(cfg, s, ids)
  }

  ghost predicate JobWaits(s: State) {
    0 in s.store.rows && Waiting(s.store.rows[0].status)
  }

  ghost predicate JobWorks(s: State) {
    0 in s.store.rows && s.store.rows[0].status == Processing
  }

  /** Another reaper suspects the first worker, and pauses. */
  lemma Pauses(cfg: Config, s: State, ids: set<ActorId>) returns (s': State, a: ActorId)
    requires Stage(cfg, s, 0, 0, ids) && JobWorks(s)
    ensures Stage(cfg, s', 0, 0, ids + {a}) && JobWorks(s') && a !in ids && Keeps(s, s')
  {
    s', a := NextSuspect(cfg, s, 0);
  }

  lemma {:induction false} Gathers(cfg: Config, s: State, ids: set<ActorId>, k: nat) returns (s': State, ids': set<ActorId>)
    requires Stage(cfg, s, 0, 0, ids) && JobWorks(s)
    ensures Stage(cfg, s', 0, 0, ids') && JobWorks(s') && |ids'| == |ids| + k && Keeps(s, s')
    decreases k
  {
    s', ids' := s, ids;
    if k > 0 {
      var s1, a := Pauses(cfg, s, ids);
      s', ids' := Gathers(cfg, s1, ids + {a}, k - 1);
    }
  }

  /** The job is claimed again. */
  lemma Resumes(cfg: Config, s: State, n: nat, d: nat, ids: set<ActorId>) returns (s': State, a: ActorId)
    requires Stage(cfg, s, n, d, ids) && JobWaits(s)
    ensures Stage(cfg, s', n, d, ids) && JobWorks(s') && a in s'.actors && AtClaimed(s'.actors[a], 0)
  {
    s', a := NextClaim(cfg, s, 0);
  }

  /** The worker at the claim reads the row, fails, and decides on what it read. */
  lemma FailsFreshly(cfg: Config, s: State, n: nat, d: nat, ids: set<ActorId>, a: ActorId) returns (s': State)
    requires CanRetry(cfg) && Stage(cfg, s, n, d, ids) && JobWorks(s) && n + 1 < cfg.maxAttempts
    requires a in s.actors && AtClaimed(s.actors[a], 0)
    ensures Stage(cfg, s', n + 1, d, ids) && JobWaits(s')
  {
    Reads(cfg, INIT, s, a, 0);
    var s1 := At(s, a, Running(s.actors[a].m, 0, s.store.rows[0]));
    RetriesBelow(cfg, s.store.rows[0]);
    assert a !in ids;
    s' := Decides(cfg, INIT, s1, a, 0);
  }

  lemma {:induction false} Climbs(cfg: Config, s: State, n: nat, ids: set<ActorId>) returns (s': State)
    requires CanRetry(cfg) && Stage(cfg, s, n, 0, ids) && JobWaits(s) && n < cfg.maxAttempts
    ensures Stage(cfg, s', cfg.maxAttempts - 1, 0, ids) && JobWaits(s')
    decreases cfg.maxAttempts - n
  {
    s' := s;
    if n + 1 < cfg.maxAttempts {
      var s1, a := Resumes(cfg, s, n, 0, ids);
      var s2 := FailsFreshly(cfg, s1, n, 0, ids, a);
      s' := Climbs(cfg, s2, n + 1, ids);
    }
  }

  /** A paused reaper decides on what it read long ago. */
  lemma FailsLate(cfg: Config, s: State, n: nat, d: nat, ids: set<ActorId>, a: ActorId) returns (s': State)
    requires CanRetry(cfg) && Stage(cfg, s, n, d, ids) && JobWorks(s) && n >= 1 && a in ids
    ensures Stage(cfg, s', n + 1, d + 1, ids - {a}) && JobWaits(s')
  {
    assert Paused(cfg, s.actors[a]);
    RetriesBelow(cfg, s.actors[a].snap);
    s' := Decides(cfg, INIT, s, a, 0);
  }

  lemma {:induction false} Overruns(cfg: Config, s: State, n: nat, d: nat, ids: set<ActorId>) returns (s': State)
    requires CanRetry(cfg) && Stage(cfg, s, n, d, ids) && JobWaits(s) && n >= 1
    ensures Stage(cfg, s', n + |ids|, d + |ids|, {}) && JobWaits(s')
    decreases |ids|
  {
    s' := s;
    if a :| a in ids {
      var s1, b := Resumes(cfg, s, n, d, ids);
      var s2 := FailsLate(cfg, s1, n, d, ids, a);
      s' := Overruns(cfg, s2, n + 1, d + 1, ids - {a});
    }
  }

  /**
   * For every limit of at least two and every `k`, some run ends with the job waiting for one more
   * attempt at `max_attempts + k - 1` attempts, after `k` retries decided on an outdated snapshot.
   */
  lemma BoundIsTight(cfg: Config, k: nat) returns (s: State)
    requires cfg.maxAttempts >= 2 && cfg.schedule != []
    ensures Reachable(cfg, ALL_FENCES, s) && 0 in s.store.rows && 0 in s.hist && s.hist[0].outdated == k
    ensures var r := s.store.rows[0];
            && Waiting(r.status) && r.owner.Some?
            && r.maxAttempts == cfg.maxAttempts && r.attempts == cfg.maxAttempts + k - 1
  {
    var s1, a := FirstClaim(cfg, SUB);
    var s2, ids := Gathers(cfg, s1, {}, k);
    var s3 := FailsFreshly(cfg, s2, 0, 0, ids, a);
    var s4 := Climbs(cfg, s3, 1, ids);
    s := Overruns(cfg, s4, cfg.maxAttempts - 1, 0, ids);
  }

  lemma Rejected(cfg: Config, s: State, a: ActorId)
    requires Leads(cfg, INIT, s) && a in s.actors && s.actors[a].Running? && s.actors[a].snap.owner.Some?
    requires Wins(Fail(s.now, "policy"), s.store.rows, s.actors[a].j)
    ensures Leads(cfg, INIT, At(Plain(s, Fail(s.now, "policy"), s.actors[a].j), a, Acking(s.actors[a].m)))
  {
    Onward(cfg, INIT, s, Finish(a, Rejects("policy")));
  }

  /** The bound on finished jobs is attained too: that attempt is made, and it is the last. */
  lemma FailedBoundIsTight(cfg: Config, k: nat) returns (s: State)
    requires cfg.maxAttempts >= 2 && cfg.schedule != []
    ensures Reachable(cfg, ALL_FENCES, s) && 0 in s.store.rows && 0 in s.hist && s.hist[0].outdated == k
    ensures var r := s.store.rows[0];
            r.status == Failed && r.maxAttempts == cfg.maxAttempts && r.attempts == cfg.maxAttempts + k
  {
    var s1 := BoundIsTight(cfg, k);
    var s2, a := NextClaim(cfg, s1, 0);
    Reads(cfg, INIT, s2, a, 0);
    var s3 := At(s2, a, Running(s2.actors[a].m, 0, s2.store.rows[0]));
    Rejected(cfg, s3, a);
    s := At(Plain(s3, Fail(s3.now, "policy"), 0), a, Acking(s3.actors[a].m));
  }

  // ----- and no other configuration has outdated decisions -----

  /** The row's limit is the configured one, or that of a batch job; nothing was retried on an old snapshot. */
  predicate Plainly(cfg: Config, r: Row, h: Hist) {
    (r.maxAttempts == 1 || r.maxAttempts == cfg.maxAttempts) && h.outdated == 0
  }

  ghost predicate NeverLate(cfg: Config, s: State) {
    Accounted(s) && forall j | j in s.store.rows :: j in s.hist && Plainly(cfg, s.store.rows[j], s.hist[j])
  }

  lemma NoRetryWritten(cfg: Config, s: State, step: Step, j: JobId)
    requires !CanRetry(cfg) && NeverLate(cfg, s) && Enabled(cfg, s, step) && WritesJob(cfg, s, step, j)
    ensures var u := StepWriting(cfg, s, step).value.u; !u.RetryToPending? && !u.RetryToScheduled?
  {
    if step.Finish? || step.Go? {
      assert Informed(s.actors[step.a], s.store.rows, s.hist);
      assert Plainly(cfg, s.store.rows[j], s.hist[j]);
    }
  }

  lemma StepNeverLate(cfg: Config, s: State, step: Step)
    requires !CanRetry(cfg) && NeverLate(cfg, s) && Enabled(cfg, s, step)
    ensures NeverLate(cfg, Exec(cfg, s, step))
  {
    var s' := Exec(cfg, s, step);
    StepAccounts(cfg, s, step);
    forall j | j in s'.store.rows
      ensures j in s'.hist && Plainly(cfg, s'.store.rows[j], s'.hist[j])
    {
      if j in s.store.rows {
        StepOnRow(cfg, s, step, j);
        if WritesJob(cfg, s, step, j) { NoRetryWritten(cfg, s, step, j); }
      } else {
        SubmitClimbs(cfg, s, step, j, true);
      }
    }
  }

  lemma {:induction false} RunNeverLate(cfg: Config, f: Fences, s: State, steps: seq<Step>)
    requires !CanRetry(cfg) && NeverLate(cfg, s) && Run(cfg, f, s, steps)
    ensures NeverLate(cfg, After(cfg, f, s, steps))
    decreases |steps|
  {
    if steps != [] {
      StepNeverLate(cfg, s, steps[0]);
      RunNeverLate(cfg, f, Exec(cfg, s, steps[0]), steps[1..]);
    }
  }

  /** Some retry of the job was decided on an outdated snapshot. */
  predicate Outdated(s: State, j: JobId) {
    j in s.store.rows && j in s.hist && s.hist[j].outdated > 0
  }

  /** Whatever the hypotheses: some run has an outdated decision if and only if the configuration retries at all. */
  lemma OvershootExactly(cfg: Config, f: Fences)
    ensures (exists steps, j :: Run(cfg, f, INIT, steps) && Outdated(After(cfg, f, INIT, steps), j)) <==> CanRetry(cfg)
  {
    if CanRetry(cfg) {
      var s := BoundIsTight(cfg, 1);
      var steps :| Run(cfg, ALL_FENCES, INIT, steps) && After(cfg, ALL_FENCES, INIT, steps) == s;
      FencedAnywhere(cfg, f, INIT, steps);
      assert Run(cfg, f, INIT, steps) && Outdated(After(cfg, f, INIT, steps), 0);
    } else if steps, j :| Run(cfg, f, INIT, steps) && Outdated(After(cfg, f, INIT, steps), j) {
      RunNeverLate(cfg, f, INIT, steps);
      assert false;
    }
  }
}
