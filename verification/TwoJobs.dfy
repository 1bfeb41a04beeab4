/**
 * The everyday loss behind the hypothesis `singleRead`: two ordinary jobs of different priority arrive
 * while a worker blocks on all streams.  The read hands over both, and the worker keeps the first.
 */
module TwoJobs {
  import opened Jobs
  import opened Queue
  import opened Retry
  import opened Protocol
  import opened Safety
  import opened Scenes
  import opened Stranding

  const HIGH_SUB := Submission(Some(7), Email, High, None, None, None)

  /** Job 0, of normal priority, queued and left alone, and all that changes around it. */
  datatype Duo = Duo(now: Time, r: Row, hi: Stream, q: Stream, pel: map<Msg, Lease>, actors: map<ActorId, Pc>)

  function Both(cfg: Config, d: Duo): State {
    State(d.now,
          Store(map[0 := QueuedScene(cfg).r, 1 := d.r], EMPTY_STREAMS[High := d.hi][Normal := d.q], d.pel, map[]),
          d.actors, map[0 := NO_HIST, 1 := NO_HIST])
  }

  /** Job 1, of high priority, was submitted and handed off too. */
  function BothQueued(cfg: Config): Duo {
    Duo(0, NewRow(HIGH_SUB, cfg.maxAttempts, 0).(synced := true), Stream([Some(1)], 0), Stream([Some(0)], 0), map[], map[])
  }

  lemma SubmitsSecond(cfg: Config, f: Fences) returns (d: Duo)
    ensures Reachable(cfg, f, Both(cfg, d))
    ensures d == BothQueued(cfg).(r := NewRow(HIGH_SUB, cfg.maxAttempts, 0), hi := EMPTY,
                                  actors := map[4 := Handoff(None, 1, ToStream(High))])
  {
    QueuedReachable(cfg, f);
    d := BothQueued(cfg).(r := NewRow(HIGH_SUB, cfg.maxAttempts, 0), hi := EMPTY,
                          actors := map[4 := Handoff(None, 1, ToStream(High))]);
    Do(cfg, f, Of(QueuedScene(cfg)), Submit(4, 1, HIGH_SUB), Both(cfg, d));
  }

  lemma SendsSecond(cfg: Config, f: Fences) returns (d: Duo)
    ensures Reachable(cfg, f, Both(cfg, d))
    ensures d == BothQueued(cfg).(r := NewRow(HIGH_SUB, cfg.maxAttempts, 0), actors := map[4 := Syncing(None, 1)])
  {
    var c := SubmitsSecond(cfg, f);
    assert EMPTY.entries + [Some(1)] == [Some(1)];
    d := BothQueued(cfg).(r := NewRow(HIGH_SUB, cfg.maxAttempts, 0), actors := map[4 := Syncing(None, 1)]);
    Do(cfg, f, Both(cfg, c), Go(4), Both(cfg, d));
  }

  lemma BothQueuedReachable(cfg: Config, f: Fences)
    ensures Reachable(cfg, f, Both(cfg, BothQueued(cfg)))
  {
    var c := SendsSecond(cfg, f);
    Do(cfg, f, Both(cfg, c), Go(4), Both(cfg, BothQueued(cfg)));
  }

  lemma TakesBoth(cfg: Config, f: Fences) returns (d: Duo)
    requires !f.singleRead
    ensures Reachable(cfg, f, Both(cfg, d))
    ensures d == BothQueued(cfg).(hi := Stream([Some(1)], 1), q := Stream([Some(0)], 1),
                                  pel := map[M0 := Lease(Worker(1), 0), MX := Lease(Worker(1), 0)],
                                  actors := map[1 := Held(MX, Some(1))])
  {
    BothQueuedReachable(cfg, f);
    d := BothQueued(cfg).(hi := Stream([Some(1)], 1), q := Stream([Some(0)], 1),
                          pel := map[M0 := Lease(Worker(1), 0), MX := Lease(Worker(1), 0)],
                          actors := map[1 := Held(MX, Some(1))]);
    Do(cfg, f, Both(cfg, BothQueued(cfg)), TakeTwo(1, High, Normal), Both(cfg, d));
  }

  /** The reaper takes the entry that nobody holds. */
  lemma ReapsSecond(cfg: Config, f: Fences) returns (d: Duo)
    requires !f.singleRead
    ensures Reachable(cfg, f, Both(cfg, d))
    ensures d == BothQueued(cfg).(now := cfg.visibility, hi := Stream([Some(1)], 1), q := Stream([Some(0)], 1),
                                  pel := map[M0 := Lease(Reaper, cfg.visibility), MX := Lease(Worker(1), 0)],
                                  actors := map[1 := Held(MX, Some(1)), 2 := Reaping(M0, Some(0))])
  {
    var c := TakesBoth(cfg, f);
    var c1 := c.(now := cfg.visibility);
    Do(cfg, f, Both(cfg, c), Advance(cfg.visibility), Both(cfg, c1));
    d := c1.(pel := map[M0 := Lease(Reaper, cfg.visibility), MX := Lease(Worker(1), 0)],
             actors := map[1 := Held(MX, Some(1)), 2 := Reaping(M0, Some(0))]);
    Do(cfg, f, Both(cfg, c1), Reap(2, M0), Both(cfg, d));
  }

  /** Its row waits and is synced, so a fresh message is taken for granted. */
  lemma ShrugsSecond(cfg: Config, f: Fences) returns (d: Duo)
    requires !f.singleRead
    ensures Reachable(cfg, f, Both(cfg, d))
    ensures d == BothQueued(cfg).(now := cfg.visibility, hi := Stream([Some(1)], 1), q := Stream([Some(0)], 1),
                                  pel := map[M0 := Lease(Reaper, cfg.visibility), MX := Lease(Worker(1), 0)],
                                  actors := map[1 := Held(MX, Some(1)), 2 := Acking(M0)])
  {
    var c := ReapsSecond(cfg, f);
    d := c.(actors := map[1 := Held(MX, Some(1)), 2 := Acking(M0)]);
    Do(cfg, f, Both(cfg, c), Go(2), Both(cfg, d));
  }

  lemma DropsSecond(cfg: Config, f: Fences) returns (d: Duo)
    requires !f.singleRead
    ensures Reachable(cfg, f, Both(cfg, d))
    ensures d == BothQueued(cfg).(now := cfg.visibility, hi := Stream([Some(1)], 1), q := Stream([Some(0)], 1),
                                  pel := map[MX := Lease(Worker(1), 0)], actors := map[1 := Held(MX, Some(1))])
  {
    var c1 := ShrugsSecond(cfg, f);
    d := c1.(pel := map[MX := Lease(Worker(1), 0)], actors := map[1 := Held(MX, Some(1))]);
    Do(cfg, f, Both(cfg, c1), Go(2), Both(cfg, d));
  }

  /** Job 0 is lost: two ordinary submissions, one blocking read, nobody crashed. */
  lemma SecondJobDropped(cfg: Config, f: Fences) returns (s: State)
    requires !f.singleRead
    ensures Reachable(cfg, f, s) && Lost(s, 0) && !Safe(s, 0)
    ensures s.store.rows.Keys == {0, 1} && s.store.rows[1].status == Pending && s.actors == map[1 := Held(MX, Some(1))]
  {
    var d := DropsSecond(cfg, f);
    s := Both(cfg, d);
    LostIsUnsafe(s, 0);
  }
}
