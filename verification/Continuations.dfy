/**
 * What can still happen: runs continued from an arbitrary state, with all five hypotheses about
 * interference holding.  A waiting job can always be claimed next, a processing one suspected by the
 * reaper, and a decision to retry carried out, whatever the other actors are in the middle of.
 */
module Continuations {
  import opened Jobs
  import opened Queue
  import opened Retry
  import opened Protocol
  import opened Accounting
  import opened Safety
  import opened Coverage
  import Scenes

  /** Some continuation leads from `o` to `s`. */
  ghost predicate Leads(cfg: Config, o: State, s: State) {
    exists steps :: Run(cfg, ALL_FENCES, o, steps) && After(cfg, ALL_FENCES, o, steps) == s
  }

  lemma Here(cfg: Config, s: State)
    ensures Leads(cfg, s, s)
  {
    assert Run(cfg, ALL_FENCES, s, []) && After(cfg, ALL_FENCES, s, []) == s;
  }

  /** One more legal step. */
  lemma Onward(cfg: Config, o: State, s: State, step: Step)
    requires Leads(cfg, o, s) && Legal(cfg, ALL_FENCES, s, step)
    ensures Leads(cfg, o, Exec(cfg, s, step))
  {
    var steps :| Run(cfg, ALL_FENCES, o, steps) && After(cfg, ALL_FENCES, o, steps) == s;
    Scenes.RunExtends(cfg, ALL_FENCES, o, steps, step);
  }

  /** A run under all hypotheses is a run under any. */
  lemma {:induction false} FencedAnywhere(cfg: Config, f: Fences, s: State, steps: seq<Step>)
    requires Run(cfg, ALL_FENCES, s, steps)
    ensures Run(cfg, f, s, steps) && After(cfg, f, s, steps) == After(cfg, ALL_FENCES, s, steps)
    decreases |steps|
  {
    if steps != [] { FencedAnywhere(cfg, f, Exec(cfg, s, steps[0]), steps[1..]); }
  }

  // ----- no instant lies before the start of the clock -----

  predicate DueLater(pc: Pc) {
    pc.Handoff? && pc.target.ToDelayed? ==> pc.target.score >= 0
  }

  ghost predicate RowsDueLater(rows: Table) {
    forall j | j in rows && rows[j].scheduledAt.Some? :: rows[j].scheduledAt.value >= 0
  }

  ghost predicate Timed(s: State) {
    && s.now >= 0 && RowsDueLater(s.store.rows)
    && (forall j | j in s.store.zset :: s.store.zset[j] >= 0)
    && (forall a | a in s.actors :: DueLater(s.actors[a]))
  }

  predicate WritesLater(u: Update) {
    u.RetryToScheduled? ==> u.at >= 0
  }

  lemma WritingTimed(cfg: Config, s: State, step: Step)
    requires Timed(s) && Enabled(cfg, s, step) && StepWriting(cfg, s, step).Some?
    ensures WritesLater(StepWriting(cfg, s, step).value.u)
  {
  }

  lemma CommitTimed(rows: Table, u: Update, j: JobId)
    requires RowsDueLater(rows) && WritesLater(u)
    ensures RowsDueLater(Commit(u, rows, j))
  {
  }

  lemma RowsTimed(cfg: Config, s: State, step: Step)
    requires Timed(s) && Enabled(cfg, s, step)
    ensures RowsDueLater(Exec(cfg, s, step).store.rows)
  {
    if !step.Submit? {
      StepWrites(cfg, s, step);
      var w := StepWriting(cfg, s, step);
      if w.Some? {
        WritingTimed(cfg, s, step);
        CommitTimed(s.store.rows, w.value.u, w.value.j);
      }
    }
  }

  lemma ZsetTimed(cfg: Config, s: State, step: Step)
    requires Timed(s) && Enabled(cfg, s, step)
    ensures forall j | j in Exec(cfg, s, step).store.zset :: Exec(cfg, s, step).store.zset[j] >= 0
  {
    if step.Go? { GoZset(cfg, s, s.actors[step.a], step.a); } else { OnlyGoMovesZset(cfg, s, step); }
  }

  lemma ActorsTimed(cfg: Config, s: State, step: Step)
    requires Timed(s) && Enabled(cfg, s, step)
    ensures forall a | a in Exec(cfg, s, step).actors :: DueLater(Exec(cfg, s, step).actors[a])
  {
    OthersStay(cfg, s, step);
    if step.Go? { GoTimed(cfg, s, step.a); }
  }

  lemma GoTimed(cfg: Config, s: State, a: ActorId)
    requires Timed(s) && a in s.actors && CanGo(cfg, s, s.actors[a])
    ensures a in GoStep(cfg, s, a, s.actors[a]).actors ==> DueLater(GoStep(cfg, s, a, s.actors[a]).actors[a])
  {
  }

  lemma StepTimed(cfg: Config, s: State, step: Step)
    requires Timed(s) && Enabled(cfg, s, step)
    ensures Timed(Exec(cfg, s, step))
  {
    RowsTimed(cfg, s, step);
    ZsetTimed(cfg, s, step);
    ActorsTimed(cfg, s, step);
  }

  /** The two invariants that a continuation can rely on. */
  ghost predicate Sound(s: State) {
    Inv(s) && Timed(s)
  }

  lemma StepSound(cfg: Config, s: State, step: Step)
    requires Sound(s) && Legal(cfg, ALL_FENCES, s, step)
    ensures Sound(Exec(cfg, s, step))
  {
    StepTimed(cfg, s, step);
    StepCovers(cfg, ALL_FENCES, s, step);
  }

  lemma {:induction false} RunSound(cfg: Config, s: State, steps: seq<Step>)
    requires Sound(s) && Run(cfg, ALL_FENCES, s, steps)
    ensures Sound(After(cfg, ALL_FENCES, s, steps))
    decreases |steps|
  {
    if steps != [] {
      StepSound(cfg, s, steps[0]);
      RunSound(cfg, Exec(cfg, s, steps[0]), steps[1..]);
    }
  }

  lemma LeadsSound(cfg: Config, o: State, s: State)
    requires Sound(o) && Leads(cfg, o, s)
    ensures Sound(s)
  {
    var steps :| Run(cfg, ALL_FENCES, o, steps) && After(cfg, ALL_FENCES, o, steps) == s;
    RunSound(cfg, o, steps);
  }

  // ----- what a continuation leaves alone -----

  /** On its way between the stores; whoever is anywhere else is left where it is. */
  predicate Passing(pc: Pc) {
    pc.Held? || pc.Syncing? || pc.Added?
  }

  ghost predicate Keeps(s: State, s': State) {
    forall b | b in s.actors && !Passing(s.actors[b]) :: b in s'.actors && s'.actors[b] == s.actors[b]
  }

  ghost predicate Steady(s: State, s': State) {
    s'.store.rows == s.store.rows && s'.hist == s.hist && Keeps(s, s')
  }

  lemma {:induction false} Above(ids: set<ActorId>) returns (n: ActorId)
    ensures forall a | a in ids :: a < n
    decreases |ids|
  {
    if ids == {} {
      n := 0;
    } else {
      var a :| a in ids;
      n := Above(ids - {a});
      if n <= a { n := a + 1; }
      assert forall b | b in ids :: b == a || b in ids - {a};
    }
  }

  lemma Fresh(s: State) returns (a: ActorId)
    ensures a !in s.actors
  {
    a := Above(s.actors.Keys);
  }

  /** Whoever stands between a Redis write and the step after it dies there. */
  lemma {:induction false} Quiets(cfg: Config, o: State, s: State) returns (s': State)
    requires Leads(cfg, o, s)
    ensures Leads(cfg, o, s') && Steady(s, s') && s'.store == s.store && s'.now == s.now
    ensures forall b | b in s'.actors :: !s'.actors[b].Syncing? && !s'.actors[b].Added?
    decreases |s.actors|
  {
    if a :| a in s.actors && (s.actors[a].Syncing? || s.actors[a].Added?) {
      Onward(cfg, o, s, Crash(a));
      assert |s.actors - {a}| < |s.actors| by { Fewer(s.actors, a); }
      s' := Quiets(cfg, o, Gone(s, a));
    } else {
      s' := s;
    }
  }

  lemma Fewer(m: map<ActorId, Pc>, a: ActorId)
    requires a in m
    ensures |m - {a}| < |m|
  {
    assert m == (m - {a})[a := m[a]];
  }

  // ----- single steps -----

  lemma Waits(cfg: Config, o: State, s: State, t: Time) returns (s': State)
    requires Leads(cfg, o, s)
    ensures Leads(cfg, o, s') && s' == s.(now := s'.now) && s'.now >= t && s'.now >= s.now
  {
    var d := if t > s.now then t - s.now else 0;
    Onward(cfg, o, s, Advance(d));
    s' := Exec(cfg, s, Advance(d));
  }

  lemma Dies(cfg: Config, o: State, s: State, a: ActorId)
    requires Leads(cfg, o, s) && a in s.actors && !s.actors[a].Held?
    ensures Leads(cfg, o, Gone(s, a))
  {
    Onward(cfg, o, s, Crash(a));
  }

  lemma FindsDue(cfg: Config, o: State, s: State, a: ActorId, j: JobId)
    requires Leads(cfg, o, s) && a !in s.actors && j in s.store.zset && 0 <= s.store.zset[j] <= s.now
    ensures Leads(cfg, o, At(s, a, Due(j)))
  {
    Onward(cfg, o, s, PickDue(a, j));
  }

  lemma Routes(cfg: Config, o: State, s: State, a: ActorId, j: JobId)
    requires Leads(cfg, o, s) && a in s.actors && s.actors[a] == Due(j) && j in s.store.rows
    ensures Leads(cfg, o, At(s, a, Routed(j, s.store.rows[j].priority)))
  {
    Onward(cfg, o, s, Go(a));
  }

  lemma Pushes(cfg: Config, o: State, s: State, a: ActorId, j: JobId, p: Priority)
    requires Leads(cfg, o, s) && a in s.actors && s.actors[a] == Routed(j, p)
    ensures Leads(cfg, o, At(s.(store := WriteRedis(s.store, j, ToStream(p))), a, Added(j)))
  {
    Onward(cfg, o, s, Go(a));
  }

  lemma FindsOrphan(cfg: Config, o: State, s: State, a: ActorId, j: JobId)
    requires Leads(cfg, o, s) && a !in s.actors
    requires j in s.store.rows && Waiting(s.store.rows[j].status) && !s.store.rows[j].synced && !Skipped(s.store.rows[j])
    requires s.store.rows[j].createdAt < s.now - cfg.grace
    ensures Leads(cfg, o, At(s, a, Handoff(None, j, RowTarget(s.store.rows[j]))))
  {
    Onward(cfg, o, s, PickOrphan(a, j));
  }

  lemma HandsOff(cfg: Config, o: State, s: State, a: ActorId, j: JobId, t: Target)
    requires Leads(cfg, o, s) && a in s.actors && s.actors[a] == Handoff(None, j, t)
    requires forall b | b in s.actors :: !s.actors[b].Added?
    ensures Leads(cfg, o, At(s.(store := WriteRedis(s.store, j, t)), a, Syncing(None, j)))
  {
    Onward(cfg, o, s, Go(a));
  }

  lemma TakesOver(cfg: Config, o: State, s: State, a: ActorId, m: Msg)
    requires Leads(cfg, o, s) && a !in s.actors
    requires m in s.store.pel && HasEntry(s.store.streams, m) && s.now - s.store.pel[m].since >= cfg.visibility
    requires forall b | b in s.actors :: !Holds(s.actors[b], m)
    ensures Leads(cfg, o, At(s.(store := s.store.(pel := s.store.pel[m := Lease(Reaper, s.now)])), a,
                             Reaping(m, EntryOf(s.store.streams, m))))
  {
    Onward(cfg, o, s, Reap(a, m));
  }

  lemma FindsProcessing(cfg: Config, o: State, s: State, a: ActorId, m: Msg, j: JobId)
    requires Leads(cfg, o, s) && a in s.actors && s.actors[a] == Reaping(m, Some(j))
    requires j in s.store.rows && s.store.rows[j].status == Processing
    ensures Leads(cfg, o, At(s, a, Reclaimed(m, j, s.store.rows[j])))
  {
    Onward(cfg, o, s, Go(a));
  }

  /** A claimed row is read. */
  lemma Reads(cfg: Config, o: State, s: State, a: ActorId, j: JobId)
    requires Leads(cfg, o, s) && a in s.actors && AtClaimed(s.actors[a], j) && j in s.store.rows
    ensures Leads(cfg, o, At(s, a, Running(s.actors[a].m, j, s.store.rows[j])))
  {
    Onward(cfg, o, s, Go(a));
  }

  // ----- from a waiting row to a claim -----

  /** Reading on until the entry comes up: the workers that got the others just sit on them. */
  lemma {:induction false} Drains(cfg: Config, o: State, s: State, p: Priority, i: nat, j: JobId)
      returns (s': State, a: ActorId)
    requires Leads(cfg, o, s) && UndeliveredAt(s.store.streams[p], i, j)
    ensures Leads(cfg, o, s') && Steady(s, s') && a !in s.actors && a in s'.actors && HoldsJob(s'.actors[a], j)
    decreases i - s.store.streams[p].next
  {
    var b := Fresh(s);
    Onward(cfg, o, s, Take(b, p));
    s', a := Exec(cfg, s, Take(b, p)), b;
    if i != s.store.streams[p].next { s', a := Drains(cfg, o, s', p, i, j); }
  }

  /** From a delayed entry to a message in the stream. */
  lemma Promotes(cfg: Config, o: State, s: State, j: JobId) returns (s': State, i: nat)
    requires Leads(cfg, o, s) && StreamsOk(s.store) && j in s.store.rows && j in s.store.zset && s.store.zset[j] >= 0
    ensures Leads(cfg, o, s') && Steady(s, s') && UndeliveredAt(s'.store.streams[s.store.rows[j].priority], i, j)
  {
    var p := s.store.rows[j].priority;
    var s1 := Waits(cfg, o, s, s.store.zset[j]);
    var a := Fresh(s1);
    FindsDue(cfg, o, s1, a, j);
    Routes(cfg, o, At(s1, a, Due(j)), a, j);
    Pushes(cfg, o, At(At(s1, a, Due(j)), a, Routed(j, p)), a, j, p);
    s' := At(At(At(s1, a, Due(j)), a, Routed(j, p)).(store := WriteRedis(s1.store, j, ToStream(p))), a, Added(j));
    i := |s.store.streams[p].entries|;
  }

  /** The reconciler hands a row off that nobody has: to its stream, or to the delayed set. */
  lemma Adopts(cfg: Config, o: State, s: State, j: JobId) returns (s': State)
    requires Leads(cfg, o, s) && j in s.store.rows && Waiting(s.store.rows[j].status) && !s.store.rows[j].synced
    requires !Skipped(s.store.rows[j]) && forall b | b in s.actors :: !s.actors[b].Added?
    ensures Leads(cfg, o, s') && Steady(s, s') && s'.store == WriteRedis(s.store, j, RowTarget(s.store.rows[j]))
  {
    var t := RowTarget(s.store.rows[j]);
    var s1 := Waits(cfg, o, s, s.store.rows[j].createdAt + cfg.grace + 1);
    var a := Fresh(s1);
    FindsOrphan(cfg, o, s1, a, j);
    HandsOff(cfg, o, At(s1, a, Handoff(None, j, t)), a, j, t);
    s' := At(At(s1, a, Handoff(None, j, t)).(store := WriteRedis(s1.store, j, t)), a, Syncing(None, j));
  }

  /** A worker has claimed the job; its row is otherwise as it was, and so is everybody in the middle of something. */
  ghost predicate Claims(s: State, s': State, a: ActorId, j: JobId) {
    && j in s.store.rows && Waiting(s.store.rows[j].status) && j in s'.store.rows
    && a in s'.actors && AtClaimed(s'.actors[a], j) && (a in s.actors ==> Passing(s.actors[a]))
    && s'.store.rows[j] == Apply(Claim(s'.now), s.store.rows[j])
    && j in s'.hist && s'.hist[j].outdated == HistOf(s, j).outdated
    && Keeps(s, s')
  }

  lemma HolderClaims(cfg: Config, o: State, s: State, a: ActorId, j: JobId) returns (s': State)
    requires Leads(cfg, o, s) && a in s.actors && HoldsJob(s.actors[a], j)
    requires j in s.store.rows && Waiting(s.store.rows[j].status)
    ensures Leads(cfg, o, s') && Claims(s, s', a, j)
  {
    Onward(cfg, o, s, Go(a));
    s' := Exec(cfg, s, Go(a));
  }

  lemma QueuedClaims(cfg: Config, o: State, s: State, p: Priority, i: nat, j: JobId) returns (s': State, a: ActorId)
    requires Leads(cfg, o, s) && UndeliveredAt(s.store.streams[p], i, j)
    requires j in s.store.rows && Waiting(s.store.rows[j].status)
    ensures Leads(cfg, o, s') && Claims(s, s', a, j)
  {
    var s1;
    s1, a := Drains(cfg, o, s, p, i, j);
    s' := HolderClaims(cfg, o, s1, a, j);
  }

  lemma DelayedClaims(cfg: Config, o: State, s: State, j: JobId) returns (s': State, a: ActorId)
    requires Leads(cfg, o, s) && StreamsOk(s.store) && j in s.store.zset && s.store.zset[j] >= 0
    requires j in s.store.rows && Waiting(s.store.rows[j].status)
    ensures Leads(cfg, o, s') && Claims(s, s', a, j)
  {
    var s1, i := Promotes(cfg, o, s, j);
    s', a := QueuedClaims(cfg, o, s1, s.store.rows[j].priority, i, j);
  }

  /** Housekeeping before the claim does not matter. */
  lemma ClaimsAfter(s: State, s1: State, s': State, a: ActorId, j: JobId)
    requires Steady(s, s1) && Claims(s1, s', a, j)
    ensures Claims(s, s', a, j)
  {
  }

  lemma AdoptedClaims(cfg: Config, o: State, s: State, st: Store, j: JobId) returns (s': State, a: ActorId)
    requires Leads(cfg, o, s) && StreamsOk(st) && j in st.rows && Waiting(st.rows[j].status)
    requires WellFormed(st.rows[j]) && RowsDueLater(st.rows) && s.store == WriteRedis(st, j, RowTarget(st.rows[j]))
    ensures Leads(cfg, o, s') && Claims(s, s', a, j)
  {
    var r := st.rows[j];
    if r.status == Scheduled {
      s', a := DelayedClaims(cfg, o, s, j);
    } else {
      s', a := QueuedClaims(cfg, o, s, r.priority, |st.streams[r.priority].entries|, j);
    }
  }

  lemma OrphanClaims(cfg: Config, o: State, s: State, j: JobId) returns (s': State, a: ActorId)
    requires Leads(cfg, o, s) && StreamsOk(s.store)
    requires j in s.store.rows && Waiting(s.store.rows[j].status) && !s.store.rows[j].synced
    requires WellFormed(s.store.rows[j]) && RowsDueLater(s.store.rows)
    ensures Leads(cfg, o, s') && Claims(s, s', a, j)
  {
    var s1 := Quiets(cfg, o, s);
    var s2 := Adopts(cfg, o, s1, j);
    s', a := AdoptedClaims(cfg, o, s2, s.store, j);
    ClaimsAfter(s1, s2, s', a, j);
    ClaimsAfter(s, s1, s', a, j);
  }

  /** Every waiting job can be claimed next. */
  lemma WaitingClaims(cfg: Config, o: State, s: State, j: JobId) returns (s': State, a: ActorId)
    requires Leads(cfg, o, s) && Sound(s) && j in s.store.rows && Waiting(s.store.rows[j].status)
    ensures Leads(cfg, o, s') && Claims(s, s', a, j)
  {
    assert RowCovered(s, j) && Balanced(s.store.rows[j], s.hist[j]);
    if b :| b in s.actors && HoldsJob(s.actors[b], j) {
      a := b;
      s' := HolderClaims(cfg, o, s, b, j);
    } else if Queued(s.store, j) {
      var i :| UndeliveredAt(s.store.streams[s.store.rows[j].priority], i, j);
      s', a := QueuedClaims(cfg, o, s, s.store.rows[j].priority, i, j);
    } else if j in s.store.zset {
      s', a := DelayedClaims(cfg, o, s, j);
    } else {
      s', a := OrphanClaims(cfg, o, s, j);
    }
  }

  // ----- from a processing row to a decision -----

  /** The claim message of a processing row is pending, names it, and is held by nobody. */
  lemma ClaimMessage(s: State, j: JobId) returns (m: Msg)
    requires Sound(s) && j in s.store.rows && s.store.rows[j].status == Processing
    ensures m in s.store.pel && HasEntry(s.store.streams, m) && EntryOf(s.store.streams, m) == Some(j)
    ensures forall b | b in s.actors :: !Holds(s.actors[b], m)
  {
    assert ClaimOk(s.store, s.hist, j);
    m := s.hist[j].claimMsg.value;
    assert ClaimedUnder(s.store.rows, s.hist, j, m);
    forall b | b in s.actors
      ensures !Holds(s.actors[b], m)
    {
      assert PcMsgOk(s.store, s.hist, s.actors[b]);
    }
  }

  lemma SuspectsUnder(cfg: Config, o: State, s: State, j: JobId, m: Msg) returns (s': State, a: ActorId)
    requires Leads(cfg, o, s) && j in s.store.rows && s.store.rows[j].status == Processing
    requires m in s.store.pel && HasEntry(s.store.streams, m) && EntryOf(s.store.streams, m) == Some(j)
    requires forall b | b in s.actors :: !Holds(s.actors[b], m)
    ensures Leads(cfg, o, s') && Steady(s, s') && a !in s.actors && a in s'.actors
    ensures s'.actors[a] == Reclaimed(m, j, s.store.rows[j])
  {
    var s1 := Waits(cfg, o, s, s.store.pel[m].since + cfg.visibility);
    a := Fresh(s1);
    TakesOver(cfg, o, s1, a, m);
    var s2 := At(s1.(store := s1.store.(pel := s1.store.pel[m := Lease(Reaper, s1.now)])), a, Reaping(m, Some(j)));
    FindsProcessing(cfg, o, s2, a, m, j);
    s' := At(s2, a, Reclaimed(m, j, s.store.rows[j]));
  }

  /** The reaper comes to suspect whoever works on the job. */
  lemma Suspects(cfg: Config, o: State, s: State, j: JobId) returns (s': State, a: ActorId)
    requires Leads(cfg, o, s) && Sound(s) && j in s.store.rows && s.store.rows[j].status == Processing
    ensures Leads(cfg, o, s') && Steady(s, s') && a !in s.actors && a in s'.actors
    ensures s'.actors[a].Reclaimed? && s'.actors[a].j == j && s'.actors[a].snap == s.store.rows[j]
  {
    var m := ClaimMessage(s, j);
    s', a := SuspectsUnder(cfg, o, s, j, m);
  }

  /** The row after a decision to retry. */
  predicate Retried(r: Row, r': Row) {
    && Waiting(r'.status) && !r'.synced && r'.attempts == r.attempts + 1
    && SameIdentity(r, r') && r'.cancelRequestedAt == r.cancelRequestedAt
  }

  lemma Fails(cfg: Config, o: State, s: State, a: ActorId)
    requires Leads(cfg, o, s) && a in s.actors && s.actors[a].Running? && Retries(cfg, s.actors[a].snap)
    requires s.actors[a].snap.owner.Some? && forall b | b in s.actors :: !s.actors[b].Syncing?
    ensures var pc := s.actors[a];
            Leads(cfg, o, Settle(cfg, s, a, pc.m, pc.j, pc.snap, "handler failed", false))
  {
    Onward(cfg, o, s, Finish(a, Outcome.Fails("handler failed")));
  }

  lemma GivesOver(cfg: Config, o: State, s: State, a: ActorId)
    requires Leads(cfg, o, s) && a in s.actors && s.actors[a].Reclaimed? && Retries(cfg, s.actors[a].snap)
    requires forall b | b in s.actors :: !s.actors[b].Syncing?
    ensures var pc := s.actors[a];
            Leads(cfg, o, Settle(cfg, s, a, pc.m, pc.j, pc.snap, "WorkerLost", true))
  {
    Onward(cfg, o, s, Go(a));
  }

  /** Everybody but `a` is left where he is, but for those between the stores. */
  ghost predicate KeepsBut(s: State, s': State, a: ActorId) {
    forall b | b in s.actors && b != a && !Passing(s.actors[b]) :: b in s'.actors && s'.actors[b] == s.actors[b]
  }

  /** The row and its history after a decision to retry on the snapshot `snap`. */
  ghost predicate RetriedOn(s: State, s': State, j: JobId, snap: Row) {
    && j in s.store.rows && j in s'.store.rows && Retried(s.store.rows[j], s'.store.rows[j])
    && j in s'.hist
    && s'.hist[j].outdated == HistOf(s, j).outdated + if snap.attempts == s.store.rows[j].attempts then 0 else 1
  }

  lemma SettleRetries(cfg: Config, s: State, a: ActorId, m: Msg, j: JobId, snap: Row, error: Json, reaper: bool)
    requires j in s.store.rows && s.store.rows[j].status == Processing && Retries(cfg, snap)
    ensures var s' := Settle(cfg, s, a, m, j, snap, error, reaper); RetriedOn(s, s', j, snap) && KeepsBut(s, s', a)
  {
  }

  /** An actor that has decided to retry does so while the row is processing, and dies before the handoff. */
  lemma Decides(cfg: Config, o: State, s: State, a: ActorId, j: JobId) returns (s': State)
    requires Leads(cfg, o, s) && j in s.store.rows && s.store.rows[j].status == Processing
    requires a in s.actors && Deciding(s.actors[a], j) && Retries(cfg, s.actors[a].snap)
    requires s.actors[a].Running? ==> s.actors[a].snap.owner.Some?
    ensures Leads(cfg, o, s') && RetriedOn(s, s', j, s.actors[a].snap) && KeepsBut(s, s', a)
  {
    var pc := s.actors[a];
    var s1 := Quiets(cfg, o, s);
    if pc.Running? { Fails(cfg, o, s1, a); } else { GivesOver(cfg, o, s1, a); }
    var s2 := Settle(cfg, s1, a, pc.m, j, pc.snap, if pc.Running? then "handler failed" else "WorkerLost", pc.Reclaimed?);
    SettleRetries(cfg, s1, a, pc.m, j, pc.snap, if pc.Running? then "handler failed" else "WorkerLost", pc.Reclaimed?);
    Dies(cfg, o, s2, a);
    s' := Gone(s2, a);
  }

  // ----- from the empty system -----

  lemma ReachedSound(cfg: Config, s: State)
    requires Leads(cfg, INIT, s)
    ensures Sound(s)
  {
    LeadsSound(cfg, INIT, s);
  }

  lemma NextClaim(cfg: Config, s: State, j: JobId) returns (s': State, a: ActorId)
    requires Leads(cfg, INIT, s) && j in s.store.rows && Waiting(s.store.rows[j].status)
    ensures Leads(cfg, INIT, s') && Claims(s, s', a, j)
  {
    ReachedSound(cfg, s);
    s', a := WaitingClaims(cfg, INIT, s, j);
  }

  lemma NextSuspect(cfg: Config, s: State, j: JobId) returns (s': State, a: ActorId)
    requires Leads(cfg, INIT, s) && j in s.store.rows && s.store.rows[j].status == Processing
    ensures Leads(cfg, INIT, s') && Steady(s, s') && a !in s.actors && a in s'.actors
    ensures s'.actors[a].Reclaimed? && s'.actors[a].j == j && s'.actors[a].snap == s.store.rows[j]
  {
    ReachedSound(cfg, s);
    s', a := Suspects(cfg, INIT, s, j);
  }

  lemma Submitted(cfg: Config, sub: Submission) returns (s: State)
    ensures Leads(cfg, INIT, s) && 0 in s.store.rows && s.store.rows[0] == NewRow(sub, cfg.maxAttempts, 0)
    ensures HistOf(s, 0) == NO_HIST
  {
    Here(cfg, INIT);
    Onward(cfg, INIT, INIT, Submit(0, 0, sub));
    s := Exec(cfg, INIT, Submit(0, 0, sub));
  }

  /** A worker has claimed the first job for the first time. */
  lemma FirstClaim(cfg: Config, sub: Submission) returns (s: State, a: ActorId)
    ensures Leads(cfg, INIT, s) && a in s.actors && AtClaimed(s.actors[a], 0)
    ensures 0 in s.store.rows && s.store.rows[0] == Apply(Claim(s.now), NewRow(sub, cfg.maxAttempts, 0))
    ensures 0 in s.hist && s.hist[0].outdated == 0
  {
    var s1 := Submitted(cfg, sub);
    s, a := NextClaim(cfg, s1, 0);
  }
}
