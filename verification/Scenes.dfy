/** Runs built by hand: single steps between states that hold the one job 0. */
module Scenes {
  import opened Jobs
  import opened Queue
  import opened Retry
  import opened Protocol

  lemma {:induction false} RunExtends(cfg: Config, f: Fences, s: State, steps: seq<Step>, step: Step)
    requires Run(cfg, f, s, steps) && Legal(cfg, f, After(cfg, f, s, steps), step)
    ensures Run(cfg, f, s, steps + [step])
    ensures After(cfg, f, s, steps + [step]) == Exec(cfg, After(cfg, f, s, steps), step)
    decreases |steps|
  {
    var t := steps + [step];
    if steps == [] {
      assert t[1..] == [];
      assert Run(cfg, f, Exec(cfg, s, t[0]), t[1..]);
    } else {
      assert t[1..] == steps[1..] + [step];
      RunExtends(cfg, f, Exec(cfg, s, steps[0]), steps[1..], step);
    }
  }

  /** Equality, component by component. */
  predicate Same(s: State, s': State) {
    && s.now == s'.now && s.store.rows == s'.store.rows && s.store.streams == s'.store.streams
    && s.store.pel == s'.store.pel && s.store.zset == s'.store.zset
    && s.actors == s'.actors && s.hist == s'.hist
  }

  /** A run under construction: one more legal step. */
  lemma Do(cfg: Config, f: Fences, s: State, step: Step, s': State)
    requires Reachable(cfg, f, s) && Legal(cfg, f, s, step) && Same(Exec(cfg, s, step), s')
    ensures Reachable(cfg, f, s')
  {
    assert Exec(cfg, s, step) == s';
    var steps :| Run(cfg, f, INIT, steps) && After(cfg, f, INIT, steps) == s;
    RunExtends(cfg, f, INIT, steps, step);
  }

  lemma InitReachable(cfg: Config, f: Fences)
    ensures Reachable(cfg, f, INIT)
  {
    assert Run(cfg, f, INIT, []) && After(cfg, f, INIT, []) == INIT;
  }

  // ----- scenes: states with the one job 0, of normal priority, and foreign entries in another stream -----

  const EMPTY := Stream([], 0)
  const M0 := Msg(Normal, 0)
  const MX := Msg(High, 0)

  datatype Scene = Scene(now: Time, r: Row, hi: Stream, q: Stream, pel: map<Msg, Lease>, zset: map<JobId, Time>,
                         actors: map<ActorId, Pc>, h: Hist)

  function Of(c: Scene): State {
    State(c.now, Store(map[0 := c.r], EMPTY_STREAMS[High := c.hi][Normal := c.q], c.pel, c.zset), c.actors, map[0 := c.h])
  }

  function At0(c: Scene, a: ActorId, pc: Pc): Scene {
    c.(actors := c.actors[a := pc])
  }

  /** The scene after `u` won on the row; `src` is the claim message. */
  function Wrote(c: Scene, u: Update, src: Option<Msg>): Scene
    requires Matches(u, c.r)
  {
    c.(r := Apply(u, c.r), h := Track(c.h, u, c.r, src, 0))
  }

  /** A winning statement on job 0 leads to the scene `Wrote`. */
  lemma WritesIn(c: Scene, u: Update, src: Option<Msg>)
    requires Matches(u, c.r)
    ensures Wins(u, Of(c).store.rows, 0)
    ensures Same(Write(Of(c), u, 0, src, 0), Of(Wrote(c, u, src)))
  {
  }

  function FirstScene(cfg: Config, sub: Submission): Scene {
    var r := NewRow(sub, cfg.maxAttempts, 0);
    Scene(0, r, EMPTY, EMPTY, map[], map[], map[0 := Handoff(None, 0, RowTarget(r))], NO_HIST)
  }

  lemma Submits(cfg: Config, f: Fences, sub: Submission)
    requires sub.priority == Normal
    ensures Reachable(cfg, f, Of(FirstScene(cfg, sub)))
  {
    InitReachable(cfg, f);
    Do(cfg, f, INIT, Submit(0, 0, sub), Of(FirstScene(cfg, sub)));
  }

  /** XADD of job 0's first message. */
  lemma Sends(cfg: Config, f: Fences, c: Scene, a: ActorId)
    requires Reachable(cfg, f, Of(c))
    requires a in c.actors && c.actors[a] == Handoff(None, 0, ToStream(Normal)) && c.q == EMPTY
    ensures Reachable(cfg, f, Of(At0(c.(q := Stream([Some(0)], 0)), a, Syncing(None, 0))))
  {
    assert EMPTY.entries + [Some(0)] == [Some(0)];
    Do(cfg, f, Of(c), Go(a), Of(At0(c.(q := Stream([Some(0)], 0)), a, Syncing(None, 0))));
  }

  lemma Delays(cfg: Config, f: Fences, c: Scene, a: ActorId, t: Time)
    requires Reachable(cfg, f, Of(c))
    requires a in c.actors && c.actors[a] == Handoff(None, 0, ToDelayed(t))
    requires f.quietPromotion ==> forall b | b in c.actors :: !AddedJob(c.actors[b], 0)
    ensures Reachable(cfg, f, Of(At0(c.(zset := c.zset[0 := t]), a, Syncing(None, 0))))
  {
    Do(cfg, f, Of(c), Go(a), Of(At0(c.(zset := c.zset[0 := t]), a, Syncing(None, 0))));
  }

  lemma Syncs(cfg: Config, f: Fences, c: Scene, a: ActorId)
    requires Reachable(cfg, f, Of(c))
    requires a in c.actors && c.actors[a] == Syncing(None, 0)
    ensures Reachable(cfg, f, Of(Wrote(c, MarkSynced, None).(actors := c.actors - {a})))
  {
    WritesIn(c, MarkSynced, None);
    Do(cfg, f, Of(c), Go(a), Of(Wrote(c, MarkSynced, None).(actors := c.actors - {a})));
  }

  lemma Takes(cfg: Config, f: Fences, c: Scene, a: ActorId)
    requires Reachable(cfg, f, Of(c))
    requires a !in c.actors && c.q == Stream([Some(0)], 0) && c.pel == map[]
    ensures Reachable(cfg, f, Of(At0(c.(q := Stream([Some(0)], 1), pel := map[M0 := Lease(Worker(a), c.now)]),
                                   a, Held(M0, Some(0)))))
  {
    Do(cfg, f, Of(c), Take(a, Normal), Of(At0(c.(q := Stream([Some(0)], 1), pel := map[M0 := Lease(Worker(a), c.now)]),
                                            a, Held(M0, Some(0)))));
  }

  lemma Pollutes(cfg: Config, f: Fences, c: Scene)
    requires Reachable(cfg, f, Of(c))
    requires c.hi == EMPTY
    ensures Reachable(cfg, f, Of(c.(hi := Stream([None], 0))))
  {
    assert EMPTY.entries + [None] == [None];
    Do(cfg, f, Of(c), Foreign(High), Of(c.(hi := Stream([None], 0))));
  }

  /** A blocking read returns a foreign entry and job 0's message; the worker keeps only the first. */
  lemma TakesTwo(cfg: Config, f: Fences, c: Scene, a: ActorId)
    requires Reachable(cfg, f, Of(c))
    requires a !in c.actors && c.q == Stream([Some(0)], 0) && c.hi == Stream([None], 0) && c.pel == map[]
    requires !f.singleRead
    ensures Reachable(cfg, f, Of(At0(c.(hi := Stream([None], 1), q := Stream([Some(0)], 1),
                                        pel := map[M0 := Lease(Worker(a), c.now), MX := Lease(Worker(a), c.now)]),
                                   a, Held(MX, None))))
  {
    Do(cfg, f, Of(c), TakeTwo(a, High, Normal), Of(At0(c.(hi := Stream([None], 1), q := Stream([Some(0)], 1),
                                        pel := map[M0 := Lease(Worker(a), c.now), MX := Lease(Worker(a), c.now)]),
                                   a, Held(MX, None))));
  }

  lemma Crashes(cfg: Config, f: Fences, c: Scene, a: ActorId)
    requires Reachable(cfg, f, Of(c))
    requires a in c.actors && (f.holdersSurvive ==> !c.actors[a].Held?)
    ensures Reachable(cfg, f, Of(c.(actors := c.actors - {a})))
  {
    Do(cfg, f, Of(c), Crash(a), Of(c.(actors := c.actors - {a})));
  }

  lemma Waits(cfg: Config, f: Fences, c: Scene, d: nat)
    requires Reachable(cfg, f, Of(c))
    ensures Reachable(cfg, f, Of(c.(now := c.now + d)))
  {
    Do(cfg, f, Of(c), Advance(d), Of(c.(now := c.now + d)));
  }

  lemma Reaps(cfg: Config, f: Fences, c: Scene, a: ActorId)
    requires Reachable(cfg, f, Of(c))
    requires a !in c.actors && M0 in c.pel && c.now - c.pel[M0].since >= cfg.visibility
    requires c.q == Stream([Some(0)], 1)
    requires f.heldUnreaped ==> forall b | b in c.actors :: !Holds(c.actors[b], M0)
    ensures Reachable(cfg, f, Of(At0(c.(pel := c.pel[M0 := Lease(Reaper, c.now)]), a, Reaping(M0, Some(0)))))
  {
    Do(cfg, f, Of(c), Reap(a, M0), Of(At0(c.(pel := c.pel[M0 := Lease(Reaper, c.now)]), a, Reaping(M0, Some(0)))));
  }

  /** The reaper finds the row waiting and synced, takes a fresh message for granted, and acks. */
  lemma Shrugs(cfg: Config, f: Fences, c: Scene, a: ActorId)
    requires Reachable(cfg, f, Of(c))
    requires a in c.actors && c.actors[a] == Reaping(M0, Some(0)) && Waiting(c.r.status) && c.r.synced
    ensures Reachable(cfg, f, Of(At0(c, a, Acking(M0))))
  {
    Do(cfg, f, Of(c), Go(a), Of(At0(c, a, Acking(M0))));
  }

  lemma Acks(cfg: Config, f: Fences, c: Scene, a: ActorId)
    requires Reachable(cfg, f, Of(c))
    requires a in c.actors && c.actors[a] == Acking(M0)
    ensures Reachable(cfg, f, Of(c.(pel := c.pel - {M0}, actors := c.actors - {a})))
  {
    Do(cfg, f, Of(c), Go(a), Of(c.(pel := c.pel - {M0}, actors := c.actors - {a})));
  }

  lemma SkipsForeign(cfg: Config, f: Fences, c: Scene, a: ActorId)
    requires Reachable(cfg, f, Of(c))
    requires a in c.actors && c.actors[a] == Held(MX, None)
    ensures Reachable(cfg, f, Of(At0(c, a, Acking(MX))))
  {
    Do(cfg, f, Of(c), Go(a), Of(At0(c, a, Acking(MX))));
  }

  lemma AcksForeign(cfg: Config, f: Fences, c: Scene, a: ActorId)
    requires Reachable(cfg, f, Of(c))
    requires a in c.actors && c.actors[a] == Acking(MX)
    ensures Reachable(cfg, f, Of(c.(pel := c.pel - {MX}, actors := c.actors - {a})))
  {
    Do(cfg, f, Of(c), Go(a), Of(c.(pel := c.pel - {MX}, actors := c.actors - {a})));
  }

  lemma Claims(cfg: Config, f: Fences, c: Scene, a: ActorId)
    requires Reachable(cfg, f, Of(c))
    requires a in c.actors && c.actors[a] == Held(M0, Some(0)) && Waiting(c.r.status)
    ensures Reachable(cfg, f, Of(At0(Wrote(c, Claim(c.now), Some(M0)), a, Claimed(M0, 0))))
  {
    WritesIn(c, Claim(c.now), Some(M0));
    Do(cfg, f, Of(c), Go(a), Of(At0(Wrote(c, Claim(c.now), Some(M0)), a, Claimed(M0, 0))));
  }

  lemma Loads(cfg: Config, f: Fences, c: Scene, a: ActorId)
    requires Reachable(cfg, f, Of(c))
    requires a in c.actors && c.actors[a] == Claimed(M0, 0)
    ensures Reachable(cfg, f, Of(At0(c, a, Running(M0, 0, c.r))))
  {
    Do(cfg, f, Of(c), Go(a), Of(At0(c, a, Running(M0, 0, c.r))));
  }

  lemma FailsForGood(cfg: Config, f: Fences, c: Scene, a: ActorId)
    requires Reachable(cfg, f, Of(c))
    requires a in c.actors && c.actors[a] == Running(M0, 0, c.r) && c.r.status == Processing && c.r.owner.Some?
    ensures Reachable(cfg, f, Of(At0(Wrote(c, Fail(c.now, "policy"), None), a, Acking(M0))))
  {
    WritesIn(c, Fail(c.now, "policy"), None);
    Do(cfg, f, Of(c), Finish(a, Rejects("policy")), Of(At0(Wrote(c, Fail(c.now, "policy"), None), a, Acking(M0))));
  }

  lemma Resets(cfg: Config, f: Fences, c: Scene, a: ActorId)
    requires Reachable(cfg, f, Of(c))
    requires a !in c.actors && Matches(ResetFailed, c.r)
    requires f.quietHandoff ==> forall b | b in c.actors :: !SyncingJob(c.actors[b], 0)
    ensures Reachable(cfg, f, Of(At0(Wrote(c, ResetFailed, None), a, Handoff(None, 0, ToStream(c.r.priority)))))
  {
    WritesIn(c, ResetFailed, None);
    Do(cfg, f, Of(c), RetryCall(a, 0), Of(At0(Wrote(c, ResetFailed, None), a, Handoff(None, 0, ToStream(c.r.priority)))));
  }

  lemma FindsOrphan(cfg: Config, f: Fences, c: Scene, a: ActorId)
    requires Reachable(cfg, f, Of(c))
    requires a !in c.actors && Waiting(c.r.status) && !c.r.synced && c.r.createdAt < c.now - cfg.grace && !Skipped(c.r)
    ensures Reachable(cfg, f, Of(At0(c, a, Handoff(None, 0, RowTarget(c.r)))))
  {
    Do(cfg, f, Of(c), PickOrphan(a, 0), Of(At0(c, a, Handoff(None, 0, RowTarget(c.r)))));
  }

  lemma FindsDue(cfg: Config, f: Fences, c: Scene, a: ActorId)
    requires Reachable(cfg, f, Of(c))
    requires a !in c.actors && 0 in c.zset && 0 <= c.zset[0] <= c.now
    ensures Reachable(cfg, f, Of(At0(c, a, Due(0))))
  {
    Do(cfg, f, Of(c), PickDue(a, 0), Of(At0(c, a, Due(0))));
  }

  lemma Routes(cfg: Config, f: Fences, c: Scene, a: ActorId)
    requires Reachable(cfg, f, Of(c))
    requires a in c.actors && c.actors[a] == Due(0)
    ensures Reachable(cfg, f, Of(At0(c, a, Routed(0, c.r.priority))))
  {
    Do(cfg, f, Of(c), Go(a), Of(At0(c, a, Routed(0, c.r.priority))));
  }

  lemma Pushes(cfg: Config, f: Fences, c: Scene, a: ActorId)
    requires Reachable(cfg, f, Of(c))
    requires a in c.actors && c.actors[a] == Routed(0, Normal) && c.q == EMPTY
    ensures Reachable(cfg, f, Of(At0(c.(q := Stream([Some(0)], 0)), a, Added(0))))
  {
    assert EMPTY.entries + [Some(0)] == [Some(0)];
    Do(cfg, f, Of(c), Go(a), Of(At0(c.(q := Stream([Some(0)], 0)), a, Added(0))));
  }

  lemma Pulls(cfg: Config, f: Fences, c: Scene, a: ActorId)
    requires Reachable(cfg, f, Of(c))
    requires a in c.actors && c.actors[a] == Added(0)
    ensures Reachable(cfg, f, Of(At0(c.(zset := c.zset - {0}), a, Removed(0))))
  {
    Do(cfg, f, Of(c), Go(a), Of(At0(c.(zset := c.zset - {0}), a, Removed(0))));
  }
}
