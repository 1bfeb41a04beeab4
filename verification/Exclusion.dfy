/**
 * How many workers are at work on one job: at most one, as long as the reaper decides about no job that
 * somebody is still at work on.  The exit guards carry no lease, so without that two handlers run at once.
 */
module Exclusion {
  import opened Jobs
  import opened Queue
  import opened Retry
  import opened Protocol
  import opened Continuations

  /** A worker has claimed the job, and reads its row or runs its handler. */
  predicate AtWork(pc: Pc, j: JobId) {
    AtClaimed(pc, j) || (pc.Running? && pc.j == j)
  }

  ghost predicate WorkIsProcessing(s: State) {
    forall a, j | a in s.actors && AtWork(s.actors[a], j) :: j in s.store.rows && s.store.rows[j].status == Processing
  }

  ghost predicate OneAtWork(s: State) {
    forall a, b, j | a in s.actors && b in s.actors && AtWork(s.actors[a], j) && AtWork(s.actors[b], j) :: a == b
  }

  /** Whoever is at work on a job is alone at it, and its row is processing. */
  ghost predicate Exclusive(s: State) {
    WorkIsProcessing(s) && OneAtWork(s)
  }

  /** The reaper decides about a processing job while a worker is at work on it. */
  ghost predicate Overtakes(s: State, step: Step) {
    && step.Go? && step.a in s.actors && s.actors[step.a].Reclaimed?
    && var j := s.actors[step.a].j;
       && j in s.store.rows && s.store.rows[j].status == Processing
       && exists b :: b in s.actors && AtWork(s.actors[b], j)
  }

  /** A winning exit is written by whoever decides; the claim needs a waiting row. */
  lemma WriterDecides(cfg: Config, s: State, step: Step)
    requires Enabled(cfg, s, step) && StepWriting(cfg, s, step).Some?
    ensures var u := StepWriting(cfg, s, step).value.u;
            Exits(u) ==> (step.Finish? || step.Go?) && Deciding(s.actors[step.a], StepWriting(cfg, s, step).value.j)
  {
  }

  lemma CommitProcessing(rows: Table, u: Update, k: JobId, j: JobId)
    requires j in rows && rows[j].status == Processing && (k == j ==> !Exits(u))
    ensures j in Commit(u, rows, k) && Commit(u, rows, k)[j].status == Processing
  {
  }

  /** Nobody but the worker itself ends the work on its job. */
  lemma OnlyOwnExit(cfg: Config, s: State, step: Step, j: JobId, b: ActorId)
    requires Exclusive(s) && Enabled(cfg, s, step) && !Overtakes(s, step) && b in s.actors && AtWork(s.actors[b], j)
    requires j in s.store.rows && s.store.rows[j].status == Processing
    requires b in Exec(cfg, s, step).actors && AtWork(Exec(cfg, s, step).actors[b], j)
    ensures var w := StepWriting(cfg, s, step); w.Some? && w.value.j == j ==> !Exits(w.value.u)
  {
    if StepWriting(cfg, s, step).Some? {
      WriterDecides(cfg, s, step);
      if step.Finish? { FinishEnds(cfg, s, step, b, j); }
    }
  }

  lemma FinishEnds(cfg: Config, s: State, step: Step, b: ActorId, j: JobId)
    requires OneAtWork(s) && Enabled(cfg, s, step) && step.Finish? && b in s.actors && AtWork(s.actors[b], j)
    requires b in Exec(cfg, s, step).actors && AtWork(Exec(cfg, s, step).actors[b], j)
    ensures s.actors[step.a].j != j
  {
    assert s.actors[step.a].j == j ==> AtWork(s.actors[step.a], j);
  }

  lemma WorkRowStays(cfg: Config, s: State, step: Step, j: JobId, b: ActorId)
    requires Exclusive(s) && Enabled(cfg, s, step) && !Overtakes(s, step) && b in s.actors && AtWork(s.actors[b], j)
    requires b in Exec(cfg, s, step).actors && AtWork(Exec(cfg, s, step).actors[b], j)
    ensures j in Exec(cfg, s, step).store.rows && Exec(cfg, s, step).store.rows[j].status == Processing
  {
    OnlyOwnExit(cfg, s, step, j, b);
    if !step.Submit? {
      StepWrites(cfg, s, step);
      var w := StepWriting(cfg, s, step);
      if w.Some? { CommitProcessing(s.store.rows, w.value.u, w.value.j, j); }
    }
  }

  /** Work begins with a claim, which finds the row waiting and leaves it processing. */
  lemma WorkBegins(cfg: Config, s: State, step: Step, b: ActorId, j: JobId)
    requires Enabled(cfg, s, step) && b in Exec(cfg, s, step).actors && AtWork(Exec(cfg, s, step).actors[b], j)
    requires !(b in s.actors && AtWork(s.actors[b], j))
    ensures step == Go(b) && j in s.store.rows && Waiting(s.store.rows[j].status)
    ensures j in Exec(cfg, s, step).store.rows && Exec(cfg, s, step).store.rows[j].status == Processing
  {
    OthersStay(cfg, s, step);
    if step.Go? { GoBegins(cfg, s, step.a, j); }
  }

  lemma GoBegins(cfg: Config, s: State, a: ActorId, j: JobId)
    requires a in s.actors && CanGo(cfg, s, s.actors[a])
    ensures var s' := GoStep(cfg, s, a, s.actors[a]);
            a in s'.actors && AtWork(s'.actors[a], j) && !AtWork(s.actors[a], j) ==>
              && j in s.store.rows && Waiting(s.store.rows[j].status)
              && j in s'.store.rows && s'.store.rows[j].status == Processing
  {
  }

  lemma StepExclusive(cfg: Config, s: State, step: Step)
    requires Exclusive(s) && Enabled(cfg, s, step) && !Overtakes(s, step)
    ensures Exclusive(Exec(cfg, s, step))
  {
    var s' := Exec(cfg, s, step);
    forall a, j | a in s'.actors && AtWork(s'.actors[a], j)
      ensures j in s'.store.rows && s'.store.rows[j].status == Processing
    {
      if a in s.actors && AtWork(s.actors[a], j) {
        WorkRowStays(cfg, s, step, j, a);
      } else {
        WorkBegins(cfg, s, step, a, j);
      }
    }
    forall a, b, j | a in s'.actors && b in s'.actors && AtWork(s'.actors[a], j) && AtWork(s'.actors[b], j)
      ensures a == b
    {
      if !(a in s.actors && AtWork(s.actors[a], j)) { WorkBegins(cfg, s, step, a, j); }
      if !(b in s.actors && AtWork(s.actors[b], j)) { WorkBegins(cfg, s, step, b, j); }
    }
  }

  /** No reaper of the run decides under a worker. */
  ghost predicate Gentle(cfg: Config, f: Fences, s: State, steps: seq<Step>)
    requires Run(cfg, f, s, steps)
    decreases |steps|
  {
    steps == [] || (!Overtakes(s, steps[0]) && Gentle(cfg, f, Exec(cfg, s, steps[0]), steps[1..]))
  }

  lemma {:induction false} RunExclusive(cfg: Config, f: Fences, s: State, steps: seq<Step>)
    requires Exclusive(s) && Run(cfg, f, s, steps) && Gentle(cfg, f, s, steps)
    ensures Exclusive(After(cfg, f, s, steps))
    decreases |steps|
  {
    if steps != [] {
      StepExclusive(cfg, s, steps[0]);
      RunExclusive(cfg, f, Exec(cfg, s, steps[0]), steps[1..]);
    }
  }

  // ----- two handlers of one job -----

  /** A batch job gets a single attempt under every configuration. */
  const BATCH_SUB := Submission(Some(7), Batch, Normal, None, None, None)

  lemma GivesUp(cfg: Config, s: State, a: ActorId, j: JobId)
    requires Leads(cfg, INIT, s) && a in s.actors && s.actors[a].Reclaimed? && s.actors[a].j == j
    requires Decide(cfg, s.actors[a].snap) == GiveUp && j in s.store.rows && s.store.rows[j].status == Processing
    ensures Leads(cfg, INIT, At(Write(s, Fail(s.now, "WorkerLost"), j, None, s.actors[a].snap.attempts), a, Acking(s.actors[a].m)))
  {
    Onward(cfg, INIT, s, Go(a));
  }

  lemma Resets(cfg: Config, s: State, c: ActorId, j: JobId)
    requires Leads(cfg, INIT, s) && c !in s.actors && Wins(ResetFailed, s.store.rows, j)
    requires forall b | b in s.actors :: !s.actors[b].Syncing?
    ensures Leads(cfg, INIT, At(Plain(s, ResetFailed, j), c, Handoff(None, j, ToStream(s.store.rows[j].priority))))
  {
    Onward(cfg, INIT, s, RetryCall(c, j));
  }

  predicate RunsJob(pc: Pc, j: JobId) {
    pc.Running? && pc.j == j
  }

  /** A worker runs the job, and the reaper is about to give it up. */
  lemma SlowWorker(cfg: Config) returns (s: State, a: ActorId, b: ActorId)
    ensures Leads(cfg, INIT, s) && a in s.actors && RunsJob(s.actors[a], 0) && b in s.actors && s.actors[b].Reclaimed?
    ensures 0 in s.store.rows && s.store.rows[0].status == Processing && s.store.rows[0].cancelRequestedAt.None?
    ensures s.actors[b].j == 0 && Decide(cfg, s.actors[b].snap) == GiveUp
  {
    var s1;
    s1, a := FirstClaim(cfg, BATCH_SUB);
    Reads(cfg, INIT, s1, a, 0);
    s, b := NextSuspect(cfg, At(s1, a, Running(s1.actors[a].m, 0, s1.store.rows[0])), 0);
  }

  lemma FailedUnderWorker(cfg: Config) returns (s: State, a: ActorId)
    ensures Leads(cfg, INIT, s) && a in s.actors && RunsJob(s.actors[a], 0)
    ensures Wins(ResetFailed, s.store.rows, 0)
  {
    var s1, b;
    s1, a, b := SlowWorker(cfg);
    GivesUp(cfg, s1, b, 0);
    s := At(Write(s1, Fail(s1.now, "WorkerLost"), 0, None, s1.actors[b].snap.attempts), b, Acking(s1.actors[b].m));
  }

  /** The client retries the failed job, whose first worker is still at it. */
  lemma ResetUnderWorker(cfg: Config) returns (s: State, a: ActorId)
    ensures Leads(cfg, INIT, s) && a in s.actors && RunsJob(s.actors[a], 0)
    ensures 0 in s.store.rows && Waiting(s.store.rows[0].status)
  {
    var s1;
    s1, a := FailedUnderWorker(cfg);
    var s2 := Quiets(cfg, INIT, s1);
    var c := Fresh(s2);
    Resets(cfg, s2, c, 0);
    s := At(Plain(s2, ResetFailed, 0), c, Handoff(None, 0, ToStream(s2.store.rows[0].priority)));
  }

  /** Two workers run the job at once, with all five hypotheses holding. */
  lemma TwoHandlers(cfg: Config) returns (s: State, a: ActorId, b: ActorId)
    ensures Leads(cfg, INIT, s) && a != b
    ensures a in s.actors && RunsJob(s.actors[a], 0) && b in s.actors && RunsJob(s.actors[b], 0)
  {
    var s1;
    s1, a := ResetUnderWorker(cfg);
    var s2;
    s2, b := NextClaim(cfg, s1, 0);
    Reads(cfg, INIT, s2, b, 0);
    s := At(s2, b, Running(s2.actors[b].m, 0, s2.store.rows[0]));
  }

  /** The runs considered: all, or only the gentle ones. */
  ghost predicate Considered(cfg: Config, f: Fences, steps: seq<Step>, gentle: bool) {
    Run(cfg, f, INIT, steps) && (gentle ==> Gentle(cfg, f, INIT, steps))
  }

  /**
   * In every run a worker is alone at its job, and the row is processing, if and only if no reaper is let
   * to decide under a worker; the five hypotheses about interference make no difference to it.
   */
  lemma ExclusionExactly(cfg: Config, f: Fences, gentle: bool)
    ensures (forall steps :: Considered(cfg, f, steps, gentle) ==> Exclusive(After(cfg, f, INIT, steps))) <==> gentle
  {
    if gentle {
      forall steps | Considered(cfg, f, steps, gentle)
        ensures Exclusive(After(cfg, f, INIT, steps))
      {
        RunExclusive(cfg, f, INIT, steps);
      }
    } else {
      var s, a, b := TwoHandlers(cfg);
      var steps :| Run(cfg, ALL_FENCES, INIT, steps) && After(cfg, ALL_FENCES, INIT, steps) == s;
      FencedAnywhere(cfg, f, INIT, steps);
      assert AtWork(s.actors[a], 0) && AtWork(s.actors[b], 0);
      assert Considered(cfg, f, steps, gentle) && !Exclusive(After(cfg, f, INIT, steps));
    }
  }
}
