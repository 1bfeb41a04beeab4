/**
 * The hypotheses of the no-stranding theorem are exactly the ones needed: dropping any
 * of the five admits a run after which a job is lost for good.
 */
module Stranding {
  import opened Jobs
  import opened Queue
  import opened Retry
  import opened Protocol
  import opened Accounting
  import opened Safety
  import opened Coverage
  import opened Pointers
  import opened Scenes

  // ----- lost for good -----

  function JobOf(pc: Pc): Option<JobId> {
    match pc
    case Held(_, e) => e
    case Claimed(_, j) => Some(j)
    case Running(_, j, _) => Some(j)
    case Handoff(_, j, _) => Some(j)
    case Syncing(_, j) => Some(j)
    case Acking(_) => None
    case Reaping(_, e) => e
    case Reclaimed(_, j, _) => Some(j)
    case Due(j) => Some(j)
    case Routed(j, _) => Some(j)
    case Added(j) => Some(j)
    case Removed(j) => Some(j)
    case CancelTry(j, _, _) => Some(j)
    case CancelAsk(j, _, _) => Some(j)
    case CancelLook(j, _, _) => Some(j)
    case Withdrawing(j, _) => Some(j)
    case Answered(j, _, _) => Some(j)
  }

  /** Nothing in the system points to the unfinished job any more. */
  ghost predicate Lost(s: State, j: JobId) {
    && StreamsOk(s.store) && j in s.store.rows
    && ((Waiting(s.store.rows[j].status) && s.store.rows[j].synced) || s.store.rows[j].status == Processing)
    && j !in s.store.zset
    && (forall p: Priority, i: nat :: !UndeliveredAt(s.store.streams[p], i, j))
    && (forall m | m in s.store.pel :: EntryOf(s.store.streams, m) != Some(j))
    && (forall a | a in s.actors :: JobOf(s.actors[a]) != Some(j))
  }

  lemma LostIsUnsafe(s: State, j: JobId)
    requires Lost(s, j) && (s.store.rows[j].status == Processing ==> s.store.pel == map[])
    ensures !Safe(s, j)
  {
  }

  /** Nobody is left, the stream is read to the end, and nothing is pending or delayed. */
  lemma SceneLost(c: Scene)
    requires c.actors == map[] && c.pel == map[] && c.zset == map[] && c.q == Stream([Some(0)], 1)
    requires c.hi == EMPTY || c.hi == Stream([None], 1)
    requires (Waiting(c.r.status) && c.r.synced) || c.r.status == Processing
    ensures Lost(Of(c), 0) && !Safe(Of(c), 0)
  {
    LostIsUnsafe(Of(c), 0);
  }

  const NOW_SUB := Submission(Some(7), Email, Normal, None, None, None)

  /** A job submitted and handed off without disturbance. */
  function QueuedScene(cfg: Config): Scene {
    Scene(0, NewRow(NOW_SUB, cfg.maxAttempts, 0).(synced := true), EMPTY, Stream([Some(0)], 0), map[], map[], map[], NO_HIST)
  }

  function SentScene(cfg: Config): Scene {
    At0(FirstScene(cfg, NOW_SUB).(q := Stream([Some(0)], 0)), 0, Syncing(None, 0))
  }

  lemma SentReachable(cfg: Config, f: Fences)
    ensures Reachable(cfg, f, Of(SentScene(cfg)))
  {
    Submits(cfg, f, NOW_SUB);
    Sends(cfg, f, FirstScene(cfg, NOW_SUB), 0);
  }

  lemma QueuedReachable(cfg: Config, f: Fences)
    ensures Reachable(cfg, f, Of(QueuedScene(cfg)))
  {
    SentReachable(cfg, f);
    Syncs(cfg, f, SentScene(cfg), 0);
    assert SentScene(cfg).actors - {0} == map[];
  }

  /** From "delivered, not held": the reaper drops the message once it is old enough. */
  lemma Dropped(cfg: Config, f: Fences, c: Scene) returns (s: State)
    requires Reachable(cfg, f, Of(c)) && c.actors == map[] && c.zset == map[]
    requires c.pel.Keys == {M0} && c.pel[M0].since == c.now && c.q == Stream([Some(0)], 1)
    requires Waiting(c.r.status) && c.r.synced && (c.hi == EMPTY || c.hi == Stream([None], 1))
    ensures Reachable(cfg, f, s) && Lost(s, 0) && !Safe(s, 0)
  {
    Waits(cfg, f, c, cfg.visibility);
    var c1 := c.(now := c.now + cfg.visibility);
    Reaps(cfg, f, c1, 2);
    var c2 := At0(c1.(pel := c1.pel[M0 := Lease(Reaper, c1.now)]), 2, Reaping(M0, Some(0)));
    Shrugs(cfg, f, c2, 2);
    var c3 := At0(c2, 2, Acking(M0));
    Acks(cfg, f, c3, 2);
    var c4 := c3.(pel := c3.pel - {M0}, actors := c3.actors - {2});
    assert c4.pel == map[] && c4.actors == map[];
    SceneLost(c4);
    s := Of(c4);
  }

  /** A multi-stream read of which the worker handles the first entry only. */
  lemma SecondEntryDropped(cfg: Config, f: Fences) returns (s: State)
    requires !f.singleRead
    ensures Reachable(cfg, f, s) && Lost(s, 0) && !Safe(s, 0)
  {
    QueuedReachable(cfg, f);
    var c := QueuedScene(cfg);
    Pollutes(cfg, f, c);
    var c1 := c.(hi := Stream([None], 0));
    TakesTwo(cfg, f, c1, 1);
    var c2 := At0(c1.(hi := Stream([None], 1), q := Stream([Some(0)], 1),
                      pel := map[M0 := Lease(Worker(1), 0), MX := Lease(Worker(1), 0)]), 1, Held(MX, None));
    SkipsForeign(cfg, f, c2, 1);
    var c3 := At0(c2, 1, Acking(MX));
    AcksForeign(cfg, f, c3, 1);
    s := Dropped(cfg, f, c3.(pel := c3.pel - {MX}, actors := c3.actors - {1}));
  }

  /** A worker crash between delivery and claim. */
  lemma HolderCrashes(cfg: Config, f: Fences) returns (s: State)
    requires !f.holdersSurvive
    ensures Reachable(cfg, f, s) && Lost(s, 0) && !Safe(s, 0)
  {
    QueuedReachable(cfg, f);
    var c := QueuedScene(cfg);
    Takes(cfg, f, c, 1);
    var c1 := At0(c.(q := Stream([Some(0)], 1), pel := map[M0 := Lease(Worker(1), 0)]), 1, Held(M0, Some(0)));
    Crashes(cfg, f, c1, 1);
    s := Dropped(cfg, f, c1.(actors := c1.actors - {1}));
  }

  lemma ReclaimedUnderHolder(cfg: Config, f: Fences) returns (c: Scene)
    requires !f.heldUnreaped
    ensures Reachable(cfg, f, Of(c)) && c.pel.Keys == {M0}
    ensures c == QueuedScene(cfg).(now := cfg.visibility, q := Stream([Some(0)], 1), pel := c.pel,
                                   actors := map[1 := Held(M0, Some(0)), 2 := Reaping(M0, Some(0))])
  {
    QueuedReachable(cfg, f);
    var c0 := QueuedScene(cfg);
    Takes(cfg, f, c0, 1);
    var c1 := At0(c0.(q := Stream([Some(0)], 1), pel := map[M0 := Lease(Worker(1), 0)]), 1, Held(M0, Some(0)));
    Waits(cfg, f, c1, cfg.visibility);
    var c2 := c1.(now := c1.now + cfg.visibility);
    Reaps(cfg, f, c2, 2);
    c := At0(c2.(pel := c2.pel[M0 := Lease(Reaper, c2.now)]), 2, Reaping(M0, Some(0)));
    assert c.actors == map[1 := Held(M0, Some(0)), 2 := Reaping(M0, Some(0))];
  }

  /** The reaper acks a message whose worker has not claimed yet. */
  lemma ReapedUnderHolder(cfg: Config, f: Fences) returns (c: Scene)
    requires !f.heldUnreaped
    ensures Reachable(cfg, f, Of(c))
    ensures c == QueuedScene(cfg).(now := cfg.visibility, q := Stream([Some(0)], 1), actors := map[1 := Held(M0, Some(0))])
  {
    var c3 := ReclaimedUnderHolder(cfg, f);
    Shrugs(cfg, f, c3, 2);
    var c4 := At0(c3, 2, Acking(M0));
    Acks(cfg, f, c4, 2);
    c := c4.(pel := c4.pel - {M0}, actors := c4.actors - {2});
    assert c.pel == map[] && c.actors == map[1 := Held(M0, Some(0))];
  }

  /** ... and the worker then claims and dies: the row stays processing with no message anywhere. */
  lemma HeldMessageReaped(cfg: Config, f: Fences) returns (s: State)
    requires !f.heldUnreaped
    ensures Reachable(cfg, f, s) && Lost(s, 0) && !Safe(s, 0) && s.store.rows[0].status == Processing
  {
    var c := ReapedUnderHolder(cfg, f);
    Claims(cfg, f, c, 1);
    var c1 := At0(Wrote(c, Claim(c.now), Some(M0)), 1, Claimed(M0, 0));
    Crashes(cfg, f, c1, 1);
    var c2 := c1.(actors := c1.actors - {1});
    SceneLost(c2);
    s := Of(c2);
  }

  lemma RunsToClaim(cfg: Config, f: Fences, c: Scene, a: ActorId) returns (c': Scene)
    requires Reachable(cfg, f, Of(c)) && a !in c.actors && c.q == Stream([Some(0)], 0) && c.pel == map[]
    requires Waiting(c.r.status)
    ensures Reachable(cfg, f, Of(c'))
    ensures c' == c.(r := Apply(Claim(c.now), c.r), h := c'.h, q := Stream([Some(0)], 1), pel := c'.pel,
                     actors := c.actors[a := Claimed(M0, 0)])
    ensures c'.pel.Keys == {M0}
  {
    Takes(cfg, f, c, a);
    var c1 := At0(c.(q := Stream([Some(0)], 1), pel := map[M0 := Lease(Worker(a), c.now)]), a, Held(M0, Some(0)));
    Claims(cfg, f, c1, a);
    c' := At0(Wrote(c1, Claim(c1.now), Some(M0)), a, Claimed(M0, 0));
    assert c'.actors == c.actors[a := Claimed(M0, 0)];
  }

  lemma RunsToAck(cfg: Config, f: Fences, c: Scene, a: ActorId) returns (c': Scene)
    requires Reachable(cfg, f, Of(c)) && a in c.actors && c.actors[a] == Claimed(M0, 0)
    requires c.r.status == Processing && c.r.owner.Some?
    ensures Reachable(cfg, f, Of(c'))
    ensures c' == c.(r := Apply(Fail(c.now, "policy"), c.r), h := c'.h, actors := c.actors[a := Acking(M0)])
  {
    Loads(cfg, f, c, a);
    var c1 := At0(c, a, Running(M0, 0, c.r));
    FailsForGood(cfg, f, c1, a);
    c' := At0(Wrote(c1, Fail(c1.now, "policy"), None), a, Acking(M0));
    assert c'.actors == c.actors[a := Acking(M0)];
  }

  /** A worker takes the message, fails the row for good and acks. */
  lemma RunsToFailure(cfg: Config, f: Fences, c: Scene, a: ActorId) returns (c': Scene)
    requires Reachable(cfg, f, Of(c)) && a !in c.actors && c.q == Stream([Some(0)], 0) && c.pel == map[]
    requires Waiting(c.r.status) && c.r.owner.Some?
    ensures Reachable(cfg, f, Of(c'))
    ensures c' == c.(r := c'.r, h := c'.h, q := Stream([Some(0)], 1))
    ensures c'.r == Apply(Fail(c.now, "policy"), Apply(Claim(c.now), c.r))
  {
    var c1 := RunsToClaim(cfg, f, c, a);
    var c2 := RunsToAck(cfg, f, c1, a);
    Acks(cfg, f, c2, a);
    c' := c2.(pel := c2.pel - {M0}, actors := c2.actors - {a});
    assert c'.actors == c.actors && c'.pel == c.pel;
  }

  /** ... and a retry call resets the row. */
  lemma FailsAndResets(cfg: Config, f: Fences, c: Scene, a: ActorId, b: ActorId) returns (c': Scene)
    requires Reachable(cfg, f, Of(c)) && a !in c.actors && b !in c.actors && c.q == Stream([Some(0)], 0) && c.pel == map[]
    requires Waiting(c.r.status) && c.r.owner.Some? && c.r.cancelRequestedAt.None? && c.r.priority == Normal
    requires f.quietHandoff ==> forall b | b in c.actors :: !SyncingJob(c.actors[b], 0)
    ensures Reachable(cfg, f, Of(c')) && c'.r.status == Pending
    ensures c' == c.(r := c'.r, h := c'.h, q := Stream([Some(0)], 1),
                     actors := c.actors[b := Handoff(None, 0, ToStream(Normal))])
  {
    var c1 := RunsToFailure(cfg, f, c, a);
    Resets(cfg, f, c1, b);
    c' := At0(Wrote(c1, ResetFailed, None), b, Handoff(None, 0, ToStream(c1.r.priority)));
  }

  /** The submitter's late mark_synced hides a reset that was not handed off yet. */
  lemma LateMarkSynced(cfg: Config, f: Fences) returns (s: State)
    requires !f.quietHandoff
    ensures Reachable(cfg, f, s) && Lost(s, 0) && !Safe(s, 0)
  {
    Submits(cfg, f, NOW_SUB);
    var c := FirstScene(cfg, NOW_SUB);
    Sends(cfg, f, c, 0);
    var c1 := FailsAndResets(cfg, f, At0(c.(q := Stream([Some(0)], 0)), 0, Syncing(None, 0)), 1, 2);
    s := SyncedTooLate(cfg, f, c1);
  }

  lemma SyncedTooLate(cfg: Config, f: Fences, c: Scene) returns (s: State)
    requires Reachable(cfg, f, Of(c)) && c.actors == map[0 := Syncing(None, 0), 2 := Handoff(None, 0, ToStream(Normal))]
    requires c.hi == EMPTY && c.q == Stream([Some(0)], 1) && c.pel == map[] && c.zset == map[] && c.r.status == Pending
    ensures Reachable(cfg, f, s) && Lost(s, 0) && !Safe(s, 0)
  {
    Syncs(cfg, f, c, 0);
    var c1 := Wrote(c, MarkSynced, None).(actors := c.actors - {0});
    Crashes(cfg, f, c1, 2);
    var c2 := c1.(actors := c1.actors - {2});
    assert c2.actors == map[];
    SceneLost(c2);
    s := Of(c2);
  }

  const LATER_SUB := Submission(Some(7), Email, Normal, Some(1), None, None)

  lemma OrphanFound(cfg: Config, f: Fences) returns (c: Scene)
    ensures Reachable(cfg, f, Of(c))
    ensures c == At0(FirstScene(cfg, LATER_SUB).(now := cfg.grace + 1), 1, Handoff(None, 0, ToDelayed(1)))
  {
    Submits(cfg, f, LATER_SUB);
    var c0 := FirstScene(cfg, LATER_SUB);
    Waits(cfg, f, c0, cfg.grace + 1);
    var c1 := c0.(now := c0.now + cfg.grace + 1);
    FindsOrphan(cfg, f, c1, 1);
    c := At0(c1, 1, Handoff(None, 0, ToDelayed(1)));
  }

  /**
   * The submitter of a deferred job is slow: its commit is done, its ZADD is not.  By the time the job is
   * due and past the grace period, the reconciler has handed it off in its stead.
   */
  lemma ReconciledFirst(cfg: Config, f: Fences) returns (c: Scene)
    ensures Reachable(cfg, f, Of(c))
    ensures var c0 := FirstScene(cfg, LATER_SUB);
            c == c0.(r := c0.r.(synced := true), now := cfg.grace + 1, zset := map[0 := 1])
  {
    var c0 := FirstScene(cfg, LATER_SUB);
    var c2 := OrphanFound(cfg, f);
    Delays(cfg, f, c2, 1, 1);
    var c3 := At0(c2.(zset := c2.zset[0 := 1]), 1, Syncing(None, 0));
    Syncs(cfg, f, c3, 1);
    c := Wrote(c3, MarkSynced, None).(actors := c3.actors - {1});
    assert c.actors == c0.actors && c.zset == map[0 := 1];
  }

  /** The same ticker process then promotes the job. */
  lemma RoutedWhileSubmitting(cfg: Config, f: Fences) returns (c: Scene)
    ensures Reachable(cfg, f, Of(c))
    ensures var c0 := FirstScene(cfg, LATER_SUB);
            c == c0.(r := c0.r.(synced := true), now := cfg.grace + 1, zset := map[0 := 1],
                     actors := map[0 := Handoff(None, 0, ToDelayed(1)), 2 := Routed(0, Normal)])
  {
    var c0 := ReconciledFirst(cfg, f);
    FindsDue(cfg, f, c0, 2);
    var c1 := At0(c0, 2, Due(0));
    Routes(cfg, f, c1, 2);
    c := At0(c1, 2, Routed(0, Normal));
    assert c.actors == map[0 := Handoff(None, 0, ToDelayed(1)), 2 := Routed(0, Normal)];
  }

  /** A promoter pushes the job's message while its submitter is still about to put it into the delayed set. */
  lemma PushedWhileSubmitting(cfg: Config, f: Fences) returns (c: Scene)
    ensures Reachable(cfg, f, Of(c))
    ensures var c0 := FirstScene(cfg, LATER_SUB);
            c == c0.(r := c0.r.(synced := true), now := cfg.grace + 1, zset := map[0 := 1], q := Stream([Some(0)], 0),
                     actors := map[0 := Handoff(None, 0, ToDelayed(1)), 2 := Added(0)])
  {
    var c3 := RoutedWhileSubmitting(cfg, f);
    Pushes(cfg, f, c3, 2);
    c := At0(c3.(q := Stream([Some(0)], 0)), 2, Added(0));
    assert c.actors == map[0 := Handoff(None, 0, ToDelayed(1)), 2 := Added(0)];
  }

  /** The promoter's ZREM removes what another actor added after the XADD. */
  lemma LateZrem(cfg: Config, f: Fences) returns (s: State)
    requires !f.quietPromotion
    ensures Reachable(cfg, f, s) && Lost(s, 0) && !Safe(s, 0)
  {
    var c := PushedWhileSubmitting(cfg, f);
    var c2 := FailsAndResets(cfg, f, c, 3, 4);
    Crashes(cfg, f, c2, 4);
    var c3 := c2.(actors := c2.actors - {4});
    assert c3.actors == map[0 := Handoff(None, 0, ToDelayed(1)), 2 := Added(0)];
    s := ReaddedThenRemoved(cfg, f, c3);
  }

  lemma ReaddedThenRemoved(cfg: Config, f: Fences, c: Scene) returns (s: State)
    requires !f.quietPromotion
    requires Reachable(cfg, f, Of(c)) && c.actors == map[0 := Handoff(None, 0, ToDelayed(1)), 2 := Added(0)]
    requires c.hi == EMPTY && c.q == Stream([Some(0)], 1) && c.pel == map[] && c.zset.Keys == {0} && c.r.status == Pending
    ensures Reachable(cfg, f, s) && Lost(s, 0) && !Safe(s, 0)
  {
    Delays(cfg, f, c, 0, 1);
    var c1 := At0(c.(zset := c.zset[0 := 1]), 0, Syncing(None, 0));
    Syncs(cfg, f, c1, 0);
    var c2 := Wrote(c1, MarkSynced, None).(actors := c1.actors - {0});
    Pulls(cfg, f, c2, 2);
    var c3 := At0(c2.(zset := c2.zset - {0}), 2, Removed(0));
    Crashes(cfg, f, c3, 2);
    var c4 := c3.(actors := c3.actors - {2});
    assert c4.actors == map[] && c4.zset == map[];
    SceneLost(c4);
    s := Of(c4);
  }

  /** Reachable states are the ends of runs, so the invariant holds of them. */
  lemma ReachableInv(cfg: Config, s: State)
    requires Reachable(cfg, ALL_FENCES, s)
    ensures Inv(s)
  {
    var steps :| Run(cfg, ALL_FENCES, INIT, steps) && After(cfg, ALL_FENCES, INIT, steps) == s;
    RunCovers(cfg, INIT, steps);
  }

  /**
   * No job is ever stranded if and only if all five hypotheses hold: the theorem of
   * Coverage in one direction, and in the other a run that loses a job for each
   * hypothesis that is dropped, whatever becomes of the other four.
   */
  lemma StrandingExactly(cfg: Config, f: Fences)
    ensures (forall s :: Reachable(cfg, f, s) ==> NoneStranded(s)) <==> f == ALL_FENCES
  {
    if f == ALL_FENCES {
      forall s | Reachable(cfg, f, s)
        ensures NoneStranded(s)
      {
        ReachableInv(cfg, s);
        InvIsSafe(s);
      }
    } else {
      var s;
      if !f.singleRead {
        s := SecondEntryDropped(cfg, f);
      } else if !f.holdersSurvive {
        s := HolderCrashes(cfg, f);
      } else if !f.heldUnreaped {
        s := HeldMessageReaped(cfg, f);
      } else if !f.quietHandoff {
        s := LateMarkSynced(cfg, f);
      } else {
        s := LateZrem(cfg, f);
      }
      assert Reachable(cfg, f, s) && !NoneStranded(s);
    }
  }

  // ----- lost jobs stay lost -----

  /** No step but a cancel call starts or has an actor that writes the lost job's row. */
  lemma LostRowStays(cfg: Config, s: State, step: Step, j: JobId)
    requires Accounted(s) && Lost(s, j) && Enabled(cfg, s, step)
    ensures j in Exec(cfg, s, step).store.rows && Exec(cfg, s, step).store.rows[j] == s.store.rows[j]
  {
    if !step.Submit? {
      StepWrites(cfg, s, step);
      WritesOther(cfg, s, step, j);
    }
  }

  lemma WritesOther(cfg: Config, s: State, step: Step, j: JobId)
    requires Lost(s, j) && Enabled(cfg, s, step)
    ensures var w := StepWriting(cfg, s, step); w.Some? ==> w.value.j != j || !Wins(w.value.u, s.store.rows, j)
  {
    if step.Go? || step.Finish? || step.Progress? { assert JobOf(s.actors[step.a]) != Some(j); }
  }

  lemma LostZsetStays(cfg: Config, s: State, step: Step, j: JobId)
    requires Accounted(s) && Lost(s, j) && Enabled(cfg, s, step)
    ensures j !in Exec(cfg, s, step).store.zset
  {
    if step.Go? { assert JobOf(s.actors[step.a]) != Some(j); }
    if j in Exec(cfg, s, step).store.zset { ZsetGrows(cfg, s, step, j); }
  }

  lemma LostActorsStay(cfg: Config, s: State, step: Step, j: JobId)
    requires Accounted(s) && Lost(s, j) && Enabled(cfg, s, step) && !(step.CancelCall? && step.j == j)
    ensures forall a | a in Exec(cfg, s, step).actors :: JobOf(Exec(cfg, s, step).actors[a]) != Some(j)
  {
    OthersStay(cfg, s, step);
    var a := Mover(step);
    if a in s.actors { assert JobOf(s.actors[a]) != Some(j); }
    if step.Go? {
      MoverKeepsJob(cfg, s, s.actors[a], a);
    } else {
      StarterNamesOther(cfg, s, step, j);
    }
  }

  /** Handler exits stay with their job, and starting actors find no pointer to the lost one. */
  lemma StarterNamesOther(cfg: Config, s: State, step: Step, j: JobId)
    requires Accounted(s) && Lost(s, j) && Enabled(cfg, s, step) && !step.Go? && !(step.CancelCall? && step.j == j)
    ensures var s' := Exec(cfg, s, step); Mover(step) in s'.actors ==> JobOf(s'.actors[Mover(step)]) != Some(j)
  {
    if Delivers(step) { TakerNamesOther(cfg, s, step, j); }
    else if step.Finish? { FinishNamesOther(cfg, s, step, j); }
    else if Mover(step) in s.actors { assert JobOf(s.actors[Mover(step)]) != Some(j); }
  }

  lemma FinishNamesOther(cfg: Config, s: State, step: Step, j: JobId)
    requires Lost(s, j) && Enabled(cfg, s, step) && step.Finish?
    ensures var s' := Exec(cfg, s, step); step.a in s'.actors ==> JobOf(s'.actors[step.a]) != Some(j)
  {
    assert JobOf(s.actors[step.a]) != Some(j);
  }

  lemma TakerNamesOther(cfg: Config, s: State, step: Step, j: JobId)
    requires Lost(s, j) && Enabled(cfg, s, step) && Delivers(step)
    ensures var s' := Exec(cfg, s, step); step.a in s'.actors && JobOf(s'.actors[step.a]) != Some(j)
  {
    var p := KeptFrom(step);
    assert !UndeliveredAt(s.store.streams[p], s.store.streams[p].next, j);
  }

  lemma MoverKeepsJob(cfg: Config, s: State, pc: Pc, a: ActorId)
    requires CanGo(cfg, s, pc)
    ensures var s' := GoStep(cfg, s, a, pc);
            a in s'.actors && a in s.actors && s.actors[a] == pc ==>
              JobOf(s'.actors[a]) == JobOf(pc) || JobOf(s'.actors[a]) == None
  {
  }

  lemma LostQueueStays(cfg: Config, s: State, step: Step, j: JobId)
    requires Accounted(s) && Lost(s, j) && Enabled(cfg, s, step)
    ensures forall p: Priority, i: nat :: !UndeliveredAt(Exec(cfg, s, step).store.streams[p], i, j)
  {
    if Appends(s, step) { LostQueueGrows(cfg, s, step, j); } else { LostQueueShrinks(cfg, s, step, j); }
  }

  /** No entry is added: what is undelivered was undelivered before. */
  lemma LostQueueShrinks(cfg: Config, s: State, step: Step, j: JobId)
    requires Lost(s, j) && Enabled(cfg, s, step) && !Appends(s, step)
    ensures forall p: Priority, i: nat :: !UndeliveredAt(Exec(cfg, s, step).store.streams[p], i, j)
  {
    StreamsGrow(cfg, s, step);
    EntriesStay(cfg, s, step);
    forall p: Priority, i: nat
      ensures !UndeliveredAt(Exec(cfg, s, step).store.streams[p], i, j)
    {
      assert !UndeliveredAt(s.store.streams[p], i, j);
    }
  }

  lemma AddedEntry(t: Streams, p: Priority, e: Option<JobId>, j: JobId)
    requires e != Some(j) && forall q: Priority, i: nat :: !UndeliveredAt(t[q], i, j)
    ensures forall q: Priority, i: nat :: !UndeliveredAt(XAdd(t, p, e)[q], i, j)
  {
    forall q: Priority, i: nat
      ensures !UndeliveredAt(XAdd(t, p, e)[q], i, j)
    {
      assert !UndeliveredAt(t[q], i, j);
    }
  }

  /** The entry added names another job. */
  lemma LostQueueGrows(cfg: Config, s: State, step: Step, j: JobId)
    requires Lost(s, j) && Enabled(cfg, s, step) && Appends(s, step)
    ensures forall p: Priority, i: nat :: !UndeliveredAt(Exec(cfg, s, step).store.streams[p], i, j)
  {
    if step.Foreign? {
      AddedEntry(s.store.streams, step.p, None, j);
    } else {
      var pc := s.actors[step.a];
      assert JobOf(pc) != Some(j);
      AddedEntry(s.store.streams, if pc.Routed? then pc.prio else pc.target.prio, Some(pc.j), j);
    }
  }

  lemma LostPelStays(cfg: Config, s: State, step: Step, j: JobId)
    requires Accounted(s) && Lost(s, j) && Enabled(cfg, s, step)
    ensures StreamsOk(Exec(cfg, s, step).store)
    ensures forall m | m in Exec(cfg, s, step).store.pel :: EntryOf(Exec(cfg, s, step).store.streams, m) != Some(j)
  {
    StreamsGrow(cfg, s, step);
    if Delivers(step) {
      TakenNamesOther(cfg, s, step, j);
    } else if !step.Reap? {
      PelKept(cfg, s, step);
    }
  }

  lemma TakenNamesOther(cfg: Config, s: State, step: Step, j: JobId)
    requires Lost(s, j) && Enabled(cfg, s, step) && Delivers(step)
    ensures StreamsOk(Exec(cfg, s, step).store)
    ensures forall m | m in Exec(cfg, s, step).store.pel :: EntryOf(Exec(cfg, s, step).store.streams, m) != Some(j)
  {
    if step.Take? {
      DeliverNamesOther(s.store, step.p, Worker(step.a), s.now, j);
    } else if step.TakeTwo? {
      TwoNameOther(s.store, step.p, step.q, Worker(step.a), s.now, j);
    } else {
      DeliverNamesOther(s.store, Low, Worker(step.a), s.now, j);
      TwoNameOther(Deliver(s.store, Low, Worker(step.a), s.now), High, Normal, Worker(step.a), s.now, j);
    }
  }

  lemma TwoNameOther(st: Store, p: Priority, q: Priority, c: Consumer, now: Time, j: JobId)
    requires Unnamed(st, j) && p != q && Backlog(st.streams, p) && Backlog(st.streams, q)
    ensures Unnamed(Deliver(Deliver(st, q, c, now), p, c, now), j)
  {
    DeliverNamesOther(st, q, c, now, j);
    DeliverNamesOther(Deliver(st, q, c, now), p, c, now, j);
  }

  /** Neither the pending entries nor the undelivered ones name the job. */
  ghost predicate Unnamed(st: Store, j: JobId) {
    && StreamsOk(st)
    && (forall p: Priority, i: nat :: !UndeliveredAt(st.streams[p], i, j))
    && (forall m | m in st.pel :: EntryOf(st.streams, m) != Some(j))
  }

  lemma DeliverNamesOther(st: Store, p: Priority, c: Consumer, now: Time, j: JobId)
    requires Unnamed(st, j) && Backlog(st.streams, p)
    ensures Unnamed(Deliver(st, p, c, now), j)
  {
    var st' := Deliver(st, p, c, now);
    assert !UndeliveredAt(st.streams[p], st.streams[p].next, j);
    forall q: Priority, i: nat
      ensures !UndeliveredAt(st'.streams[q], i, j)
    {
      assert !UndeliveredAt(st.streams[q], i, j);
    }
  }

  lemma StepLost(cfg: Config, s: State, step: Step, j: JobId)
    requires Accounted(s) && Lost(s, j) && Enabled(cfg, s, step) && !(step.CancelCall? && step.j == j)
    ensures Lost(Exec(cfg, s, step), j) && Exec(cfg, s, step).store.rows[j] == s.store.rows[j]
  {
    LostRowStays(cfg, s, step, j);
    LostZsetStays(cfg, s, step, j);
    LostActorsStay(cfg, s, step, j);
    LostQueueStays(cfg, s, step, j);
    LostPelStays(cfg, s, step, j);
  }

  /** A lost job stays lost, its row untouched, through every run in which no client cancels it. */
  lemma {:induction false} LostForGood(cfg: Config, f: Fences, s: State, steps: seq<Step>, j: JobId)
    requires Accounted(s) && Lost(s, j) && Run(cfg, f, s, steps)
    requires forall i | 0 <= i < |steps| :: !(steps[i].CancelCall? && steps[i].j == j)
    ensures var s' := After(cfg, f, s, steps); Lost(s', j) && s'.store.rows[j] == s.store.rows[j]
    decreases |steps|
  {
    if steps != [] {
      StepLost(cfg, s, steps[0], j);
      StepAccounts(cfg, s, steps[0]);
      LostForGood(cfg, f, Exec(cfg, s, steps[0]), steps[1..], j);
    }
  }
}
