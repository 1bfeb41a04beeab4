/** Safety, continued: every waiting job stays reachable, one step at a time. */
module Coverage {
  import opened Jobs
  import opened Queue
  import opened Retry
  import opened Protocol
  import opened Accounting
  import opened Safety

  /** Job `j`, if it waits, has a message on its way. */
  ghost predicate LiveIfWaiting(s: State, j: JobId) {
    j in s.store.rows && (Waiting(s.store.rows[j].status) ==> Live(s, j))
  }

  /** What the actor is about to write to Redis names a stored job and its own stream. */
  predicate Aimed(rows: Table, pc: Pc) {
    match pc
    case Handoff(_, j, t) => j in rows && (t.ToStream? ==> t.prio == rows[j].priority)
    case Due(j) => j in rows
    case Routed(j, p) => j in rows && p == rows[j].priority
    case _ => true
  }

  ghost predicate PcCovers(s: State, pc: Pc) {
    match pc
    case Syncing(_, j) =>
      j in s.store.rows && (Waiting(s.store.rows[j].status) ==> Live(s, j) || j in s.store.zset)
    case Added(j) =>
      j in s.store.rows && (Waiting(s.store.rows[j].status) ==> Live(s, j) || !s.store.rows[j].synced)
    case _ => Aimed(s.store.rows, pc)
  }

  ghost predicate RowCovered(s: State, j: JobId) {
    j in s.store.rows &&
    (Waiting(s.store.rows[j].status) ==> !s.store.rows[j].synced || Live(s, j) || j in s.store.zset)
  }

  ghost predicate CoverOk(s: State) {
    && PointersOk(s.store)
    && (forall a | a in s.actors :: PcCovers(s, s.actors[a]))
    && (forall a, b, j | a in s.actors && b in s.actors && AddedJob(s.actors[a], j) && SyncingJob(s.actors[b], j) ::
          LiveIfWaiting(s, j))
    && (forall j | j in s.store.rows :: RowCovered(s, j))
  }

  // ----- what one step does to one job -----

  /** Appending to streams and keeping priorities keeps a queued message, unless it is delivered. */
  lemma QueuedStays(st: Store, st': Store, j: JobId)
    requires Queued(st, j) && Grows(st.streams, st'.streams)
    requires j in st'.rows && st'.rows[j].priority == st.rows[j].priority
    requires st'.streams[st.rows[j].priority].next == st.streams[st.rows[j].priority].next
    ensures Queued(st', j)
  {
    var p := st.rows[j].priority;
    var i: nat :| UndeliveredAt(st.streams[p], i, j);
    assert UndeliveredAt(st'.streams[p], i, j);
  }

  /** A delivery turns the head of the backlog into a held message. */
  lemma TakeKeepsLive(cfg: Config, s: State, a: ActorId, p: Priority, j: JobId)
    requires MsgsOk(s) && Enabled(cfg, s, Take(a, p)) && j in s.store.rows && Live(s, j)
    ensures Live(Exec(cfg, s, Take(a, p)), j)
  {
    var s' := Exec(cfg, s, Take(a, p));
    if HeldFor(s, j) {
      var b :| b in s.actors && HoldsJob(s.actors[b], j);
      assert b in s'.actors && HoldsJob(s'.actors[b], j);
    } else {
      var q := s.store.rows[j].priority;
      var i: nat :| UndeliveredAt(s.store.streams[q], i, j);
      if q == p && i == s.store.streams[p].next {
        assert HoldsJob(s'.actors[a], j);
      } else {
        assert UndeliveredAt(s'.store.streams[q], i, j);
      }
    }
  }

  /** A claim attempt on a held message ends the wait of its job. */
  lemma ClaimEndsWait(s: State, s': State, cfg: Config, a: ActorId, j: JobId)
    requires a in s.actors && HoldsJob(s.actors[a], j) && j in s.store.rows && s' == GoStep(cfg, s, a, s.actors[a])
    ensures j in s'.store.rows && !Waiting(s'.store.rows[j].status)
  {
  }

  lemma LiveStays(cfg: Config, f: Fences, s: State, step: Step, j: JobId)
    requires Accounted(s) && MsgsOk(s) && Legal(cfg, f, s, step) && f.singleRead && f.holdersSurvive
    requires j in s.store.rows && Live(s, j)
    requires var s' := Exec(cfg, s, step);
             && j in s'.store.rows && SameIdentity(s.store.rows[j], s'.store.rows[j])
             && Grows(s.store.streams, s'.store.streams)
    ensures LiveIfWaiting(Exec(cfg, s, step), j)
  {
    if step.Take? {
      TakeKeepsLive(cfg, s, step.a, step.p, j);
    } else if HeldFor(s, j) {
      HeldStays(cfg, f, s, step, j);
    } else {
      CursorStays(cfg, s, step);
      QueuedStays(s.store, Exec(cfg, s, step).store, j);
    }
  }

  lemma HeldStays(cfg: Config, f: Fences, s: State, step: Step, j: JobId)
    requires Legal(cfg, f, s, step) && f.holdersSurvive && j in s.store.rows && HeldFor(s, j)
    requires j in Exec(cfg, s, step).store.rows
    ensures LiveIfWaiting(Exec(cfg, s, step), j)
  {
    var b :| b in s.actors && HoldsJob(s.actors[b], j);
    if step == Go(b) {
      ClaimEndsWait(s, Exec(cfg, s, step), cfg, b, j);
    } else {
      HolderStays(cfg, f, s, step, b);
      assert HoldsJob(Exec(cfg, s, step).actors[b], j);
    }
  }

  lemma HolderStays(cfg: Config, f: Fences, s: State, step: Step, b: ActorId)
    requires Legal(cfg, f, s, step) && f.holdersSurvive && step != Go(b)
    requires b in s.actors && s.actors[b].Held?
    ensures var s' := Exec(cfg, s, step); b in s'.actors && s'.actors[b] == s.actors[b]
  {
    OthersStay(cfg, s, step);
  }

  lemma CursorStays(cfg: Config, s: State, step: Step)
    requires Enabled(cfg, s, step) && !Delivers(step)
    ensures forall p: Priority :: Exec(cfg, s, step).store.streams[p].next == s.store.streams[p].next
  {
    if step.Go? && WritesRow(s.actors[step.a]) {
      GoWrites(cfg, s, s.actors[step.a], step.a);
    }
  }

  /** What a command does to the delayed set. */
  lemma GoZset(cfg: Config, s: State, pc: Pc, a: ActorId)
    requires CanGo(cfg, s, pc)
    ensures GoStep(cfg, s, a, pc).store.zset
         == if pc.Handoff? && pc.target.ToDelayed? then s.store.zset[pc.j := pc.target.score]
            else if pc.Added? || pc.Withdrawing? then s.store.zset - {pc.j}
            else s.store.zset
  {
    if WritesRow(pc) { GoWrites(cfg, s, pc, a); }
  }

  lemma OnlyGoMovesZset(cfg: Config, s: State, step: Step)
    requires Enabled(cfg, s, step) && !step.Go?
    ensures Exec(cfg, s, step).store.zset == s.store.zset
  {
  }

  /** A member leaves the delayed set only by its promoter's or its canceller's ZREM. */
  lemma ZsetStays(cfg: Config, s: State, step: Step, j: JobId)
    requires Enabled(cfg, s, step) && j in s.store.zset && j !in Exec(cfg, s, step).store.zset
    ensures step.Go? && (s.actors[step.a] == Added(j) || (s.actors[step.a].Withdrawing? && s.actors[step.a].j == j))
  {
    if step.Go? { GoZset(cfg, s, s.actors[step.a], step.a); } else { OnlyGoMovesZset(cfg, s, step); }
  }

  lemma SyncedBySyncing(cfg: Config, s: State, step: Step)
    requires Enabled(cfg, s, step) && StepWriting(cfg, s, step).Some? && StepWriting(cfg, s, step).value.u.MarkSynced?
    ensures step.Go? && SyncingJob(s.actors[step.a], StepWriting(cfg, s, step).value.j)
  {
  }

  lemma RowStep(cfg: Config, s: State, step: Step, j: JobId)
    requires Accounted(s) && Enabled(cfg, s, step) && j in s.store.rows
    ensures var s' := Exec(cfg, s, step);
            && j in s'.store.rows
            && (Clears(cfg, s, step) == Some(j) ==> !s'.store.rows[j].synced)
            && (Clears(cfg, s, step) != Some(j) ==>
                  && (Waiting(s'.store.rows[j].status) ==> Waiting(s.store.rows[j].status))
                  && (s'.store.rows[j].synced && !s.store.rows[j].synced ==>
                        step.Go? && SyncingJob(s.actors[step.a], j)))
  {
    StepOnRow(cfg, s, step, j);
    if WritesJob(cfg, s, step, j) {
      var u := StepWriting(cfg, s, step).value.u;
      UpdateEffect(u, s.store.rows[j]);
      if u.MarkSynced? { SyncedBySyncing(cfg, s, step); }
    }
  }

  lemma UpdateEffect(u: Update, r: Row)
    requires Matches(u, r)
    ensures Unsyncs(u) ==> !Apply(u, r).synced
    ensures !Unsyncs(u) && Waiting(Apply(u, r).status) ==> Waiting(r.status)
    ensures Apply(u, r).synced && !r.synced ==> u.MarkSynced?
  {
  }

  // ----- pointers -----

  lemma AddPoints(st: Store, p: Priority, e: Option<JobId>)
    requires PointersOk(st) && (e.Some? ==> e.value in st.rows && st.rows[e.value].priority == p)
    ensures PointersOk(st.(streams := XAdd(st.streams, p, e)))
  {
    var st' := st.(streams := XAdd(st.streams, p, e));
    forall m: Msg | HasEntry(st'.streams, m) && EntryOf(st'.streams, m).Some?
      ensures EntryOf(st'.streams, m).value in st'.rows
           && st'.rows[EntryOf(st'.streams, m).value].priority == m.prio
    {
      if HasEntry(st.streams, m) {
        assert EntryOf(st'.streams, m) == EntryOf(st.streams, m);
      } else {
        assert m == Msg(p, |st.streams[p].entries|);
      }
    }
  }

  ghost predicate KeepsIdentity(rows: Table, rows': Table) {
    forall j | j in rows :: j in rows' && rows'[j].priority == rows[j].priority
  }

  lemma PointersFrame(st: Store, st': Store)
    requires PointersOk(st) && KeepsIdentity(st.rows, st'.rows)
    requires forall p: Priority :: st'.streams[p].entries == st.streams[p].entries
    requires forall j | j in st'.zset :: j in st.zset || j in st'.rows
    ensures PointersOk(st')
  {
    forall m: Msg | HasEntry(st'.streams, m) && EntryOf(st'.streams, m).Some?
      ensures EntryOf(st'.streams, m).value in st'.rows
           && st'.rows[EntryOf(st'.streams, m).value].priority == m.prio
    {
      assert HasEntry(st.streams, m) && EntryOf(st.streams, m) == EntryOf(st'.streams, m);
    }
  }

  /** Whether the step appends to a stream. */
  predicate Appends(s: State, step: Step) {
    step.Foreign? || (step.Go? && step.a in s.actors
      && (s.actors[step.a].Routed? || (s.actors[step.a].Handoff? && s.actors[step.a].target.ToStream?)))
  }

  lemma EntriesStay(cfg: Config, s: State, step: Step)
    requires Enabled(cfg, s, step) && !Appends(s, step)
    ensures forall p: Priority :: Exec(cfg, s, step).store.streams[p].entries == s.store.streams[p].entries
  {
    if step.Go? && WritesRow(s.actors[step.a]) {
      GoWrites(cfg, s, s.actors[step.a], step.a);
    }
  }

  /** A member enters the delayed set only by a handoff. */
  lemma ZsetGrows(cfg: Config, s: State, step: Step, j: JobId)
    requires Enabled(cfg, s, step) && j in Exec(cfg, s, step).store.zset && j !in s.store.zset
    ensures step.Go? && s.actors[step.a].Handoff? && s.actors[step.a].target.ToDelayed? && s.actors[step.a].j == j
  {
    if step.Go? { GoZset(cfg, s, s.actors[step.a], step.a); } else { OnlyGoMovesZset(cfg, s, step); }
  }

  lemma StepPoints(cfg: Config, s: State, step: Step)
    requires Accounted(s) && PointersOk(s.store) && Enabled(cfg, s, step)
    requires forall a | a in s.actors :: Aimed(s.store.rows, s.actors[a])
    ensures PointersOk(Exec(cfg, s, step).store)
  {
    var s' := Exec(cfg, s, step);
    StepAccounts(cfg, s, step);
    if Appends(s, step) {
      if step.Foreign? {
        AddPoints(s.store, step.p, None);
      } else {
        var pc := s.actors[step.a];
        AddPoints(s.store, if pc.Routed? then pc.prio else pc.target.prio, Some(pc.j));
      }
    } else {
      EntriesStay(cfg, s, step);
      forall j | j in s'.store.zset
        ensures j in s.store.zset || j in s'.store.rows
      {
        if j !in s.store.zset {
          ZsetGrows(cfg, s, step, j);
        }
      }
      PointersFrame(s.store, s'.store);
    }
  }

  // ----- one step keeps everything covered -----

  ghost predicate Inv(s: State) {
    Accounted(s) && MsgsOk(s) && CoverOk(s)
  }

  lemma NoClearWhileSyncing(cfg: Config, f: Fences, s: State, step: Step, b: ActorId, j: JobId)
    requires Legal(cfg, f, s, step) && f.quietHandoff
    requires b in s.actors && SyncingJob(s.actors[b], j)
    ensures Clears(cfg, s, step) != Some(j)
  {
    if Mover(step) == b && step.Go? { assert StepWriting(cfg, s, step) == Some(Writing(MarkSynced, j, None, 0)); }
  }

  lemma RowStaysCovered(cfg: Config, f: Fences, s: State, step: Step, j: JobId)
    requires Inv(s) && Legal(cfg, f, s, step) && f == ALL_FENCES && j in s.store.rows
    ensures RowCovered(Exec(cfg, s, step), j)
  {
    var s' := Exec(cfg, s, step);
    assert RowCovered(s, j);
    RowStep(cfg, s, step, j);
    assert SameIdentity(s.store.rows[j], s'.store.rows[j]) by { StepAccounts(cfg, s, step); }
    StreamsGrow(cfg, s, step);
    if Live(s, j) {
      LiveStays(cfg, f, s, step, j);
    } else if Clears(cfg, s, step) != Some(j) && Waiting(s'.store.rows[j].status) {
      if step.Go? { assert PcCovers(s, s.actors[step.a]) && Informed(s.actors[step.a], s.store.rows, s.hist); }
      if j in s.store.zset && j !in s'.store.zset { ZsetStays(cfg, s, step, j); }
    }
  }

  /** An actor that was already between its Redis write and its mark_synced. */
  lemma SyncingStaysCovered(cfg: Config, f: Fences, s: State, step: Step, b: ActorId, j: JobId)
    requires Inv(s) && Legal(cfg, f, s, step) && f == ALL_FENCES
    requires b in s.actors && SyncingJob(s.actors[b], j)
    ensures var s' := Exec(cfg, s, step);
            j in s'.store.rows && (Waiting(s'.store.rows[j].status) ==> Live(s', j) || j in s'.store.zset)
  {
    var s' := Exec(cfg, s, step);
    assert PcCovers(s, s.actors[b]);
    RowStep(cfg, s, step, j);
    assert SameIdentity(s.store.rows[j], s'.store.rows[j]) by { StepAccounts(cfg, s, step); }
    StreamsGrow(cfg, s, step);
    NoClearWhileSyncing(cfg, f, s, step, b, j);
    if step.Go? {
      assert Informed(s.actors[step.a], s.store.rows, s.hist);
      if AddedJob(s.actors[step.a], j) { assert LiveIfWaiting(s, j); }
    }
    if Live(s, j) {
      LiveStays(cfg, f, s, step, j);
    } else if j in s.store.zset && j !in s'.store.zset {
      ZsetStays(cfg, s, step, j);
    }
  }

  /** A promoter that was already between its XADD and its ZREM. */
  lemma AddedStaysCovered(cfg: Config, f: Fences, s: State, step: Step, b: ActorId, j: JobId)
    requires Inv(s) && Legal(cfg, f, s, step) && f == ALL_FENCES
    requires b in s.actors && AddedJob(s.actors[b], j)
    ensures var s' := Exec(cfg, s, step);
            j in s'.store.rows && (Waiting(s'.store.rows[j].status) ==> Live(s', j) || !s'.store.rows[j].synced)
  {
    var s' := Exec(cfg, s, step);
    assert PcCovers(s, s.actors[b]);
    RowStep(cfg, s, step, j);
    assert SameIdentity(s.store.rows[j], s'.store.rows[j]) by { StepAccounts(cfg, s, step); }
    StreamsGrow(cfg, s, step);
    if step.Go? && SyncingJob(s.actors[step.a], j) { assert LiveIfWaiting(s, j); }
    if Live(s, j) { LiveStays(cfg, f, s, step, j); }
  }

  /** Both at once: the message is still on its way. */
  lemma PairStaysLive(cfg: Config, f: Fences, s: State, step: Step, a: ActorId, b: ActorId, j: JobId)
    requires Inv(s) && Legal(cfg, f, s, step) && f == ALL_FENCES
    requires a in s.actors && AddedJob(s.actors[a], j) && b in s.actors && SyncingJob(s.actors[b], j)
    ensures LiveIfWaiting(Exec(cfg, s, step), j)
  {
    StepAccounts(cfg, s, step);
    StreamsGrow(cfg, s, step);
    RowStep(cfg, s, step, j);
    NoClearWhileSyncing(cfg, f, s, step, b, j);
    assert LiveIfWaiting(s, j);
    if Live(s, j) { LiveStays(cfg, f, s, step, j); }
  }

  /** Who starts syncing or finishes an XADD just wrote to Redis. */
  lemma WriterCovers(cfg: Config, s: State, a: ActorId)
    requires Accounted(s) && CoverOk(s) && MsgsOk(s) && a in s.actors && (s.actors[a].Handoff? || s.actors[a].Routed?)
    ensures var s' := GoStep(cfg, s, a, s.actors[a]); var pc := s.actors[a];
            && a in s'.actors && pc.j in s'.store.rows
            && (if pc.Handoff? && pc.target.ToDelayed? then pc.j in s'.store.zset else Live(s', pc.j))
            && (pc.Handoff? ==> s'.actors[a] == Syncing(pc.src, pc.j))
            && (pc.Routed? ==> s'.actors[a] == Added(pc.j))
  {
    var pc := s.actors[a];
    assert PcCovers(s, pc);
    var s' := GoStep(cfg, s, a, pc);
    if pc.Routed? || pc.target.ToStream? {
      var p := s.store.rows[pc.j].priority;
      assert UndeliveredAt(s'.store.streams[p], |s.store.streams[p].entries|, pc.j);
      assert Queued(s'.store, pc.j);
    }
  }

  /** An actor's place is new after the step, or it is where it was. */
  lemma PcAfter(cfg: Config, f: Fences, s: State, step: Step, b: ActorId)
    requires Inv(s) && Legal(cfg, f, s, step) && f == ALL_FENCES && b in Exec(cfg, s, step).actors
    ensures PcCovers(Exec(cfg, s, step), Exec(cfg, s, step).actors[b])
  {
    var s' := Exec(cfg, s, step);
    StepAccounts(cfg, s, step);
    OthersStay(cfg, s, step);
    if b in s.actors && s'.actors[b] == s.actors[b] {
      var pc := s.actors[b];
      assert PcCovers(s, pc);
      if pc.Syncing? {
        SyncingStaysCovered(cfg, f, s, step, b, pc.j);
      } else if pc.Added? {
        AddedStaysCovered(cfg, f, s, step, b, pc.j);
      }
    } else if step.Go? && (s.actors[b].Handoff? || s.actors[b].Routed?) {
      WriterCovers(cfg, s, b);
    } else {
      MoverCovers(cfg, s, step);
    }
  }

  lemma ExitCovers(cfg: Config, s: State, a: ActorId, m: Msg, j: JobId, snap: Row, error: Json, reaper: bool)
    requires j in s.store.rows && SameIdentity(snap, s.store.rows[j]) && !Decide(cfg, snap).IndexError?
    ensures var s' := Settle(cfg, s, a, m, j, snap, error, reaper);
            a in s'.actors ==> (s'.actors[a].Handoff? || s'.actors[a].Acking?) && PcCovers(s', s'.actors[a])
  {
  }

  lemma FinishCovers(cfg: Config, s: State, a: ActorId, out: Outcome)
    requires Accounted(s) && Enabled(cfg, s, Finish(a, out))
    ensures var s' := Exec(cfg, s, Finish(a, out)); a in s'.actors ==> PcCovers(s', s'.actors[a])
  {
    var pc := s.actors[a];
    assert Informed(pc, s.store.rows, s.hist);
    if out.Fails? { ExitCovers(cfg, s, a, pc.m, pc.j, pc.snap, out.error, false); }
  }

  lemma GoCovers(cfg: Config, s: State, a: ActorId)
    requires Inv(s) && Enabled(cfg, s, Go(a))
    requires !s.actors[a].Handoff? && !s.actors[a].Routed?
    ensures var s' := Exec(cfg, s, Go(a));
            a in s'.actors && s'.actors[a] != s.actors[a] ==> PcCovers(s', s'.actors[a])
  {
    var pc := s.actors[a];
    if pc.Reclaimed? {
      assert Informed(pc, s.store.rows, s.hist);
      ExitCovers(cfg, s, a, pc.m, pc.j, pc.snap, "WorkerLost", true);
    } else if pc.Reaping? {
      ReapingCovers(s, a, pc.m, pc.entry);
    } else if pc.Due? {
      assert PcCovers(s, pc);
    } else {
      OwesNothing(cfg, s, a, pc);
    }
  }

  lemma ReapingCovers(s: State, a: ActorId, m: Msg, e: Option<JobId>)
    ensures var s' := ReadForReap(s, a, m, e); a in s'.actors && PcCovers(s', s'.actors[a])
  {
  }

  /** From every other place the next one owes the job nothing. */
  lemma OwesNothing(cfg: Config, s: State, a: ActorId, pc: Pc)
    requires CanGo(cfg, s, pc)
    requires !pc.Handoff? && !pc.Routed? && !pc.Reclaimed? && !pc.Reaping? && !pc.Due? && !pc.Running?
    ensures var s' := GoStep(cfg, s, a, pc);
            a in s.actors && a in s'.actors && s'.actors[a] != s.actors[a] ==>
              (var q := s'.actors[a]; !q.Handoff? && !q.Syncing? && !q.Due? && !q.Routed? && !q.Added?)
  {
  }

  lemma MoverCovers(cfg: Config, s: State, step: Step)
    requires Inv(s) && Enabled(cfg, s, step)
    requires step.Go? ==> !s.actors[step.a].Handoff? && !s.actors[step.a].Routed?
    ensures var s' := Exec(cfg, s, step); var a := Mover(step);
            a in s'.actors && (a in s.actors ==> s'.actors[a] != s.actors[a]) ==> PcCovers(s', s'.actors[a])
  {
    if step.Go? {
      GoCovers(cfg, s, step.a);
    } else if step.Finish? {
      FinishCovers(cfg, s, step.a, step.out);
    }
  }

  lemma PairAfter(cfg: Config, f: Fences, s: State, step: Step, a: ActorId, b: ActorId, j: JobId)
    requires Inv(s) && Legal(cfg, f, s, step) && f == ALL_FENCES
    requires var s' := Exec(cfg, s, step);
             a in s'.actors && b in s'.actors && AddedJob(s'.actors[a], j) && SyncingJob(s'.actors[b], j)
    ensures LiveIfWaiting(Exec(cfg, s, step), j)
  {
    var s' := Exec(cfg, s, step);
    OthersStay(cfg, s, step);
    FreshPlace(cfg, s, step);
    if a in s.actors && s.actors[a].Routed? && step == Go(a) {
      WriterCovers(cfg, s, a);
    } else if b in s.actors && s.actors[b].Handoff? && step == Go(b) {
      WriterCovers(cfg, s, b);
    } else {
      PairStaysLive(cfg, f, s, step, a, b, j);
    }
  }

  /** A mover that is now syncing or promoting wrote to Redis in this step, or did not move. */
  lemma FreshPlace(cfg: Config, s: State, step: Step)
    requires Enabled(cfg, s, step)
    ensures var s' := Exec(cfg, s, step); var a := Mover(step);
            a in s'.actors && (s'.actors[a].Added? || s'.actors[a].Syncing?) ==>
              && a in s.actors
              && (s'.actors[a] == s.actors[a] || (step.Go? && (s.actors[a].Routed? || s.actors[a].Handoff?)))
              && (s'.actors[a].Added? && s'.actors[a] != s.actors[a] ==> s.actors[a].Routed?)
              && (s'.actors[a].Syncing? && s'.actors[a] != s.actors[a] ==> s.actors[a].Handoff?)
  {
  }

  lemma StepCovers(cfg: Config, f: Fences, s: State, step: Step)
    requires Inv(s) && Legal(cfg, f, s, step) && f == ALL_FENCES
    ensures Inv(Exec(cfg, s, step))
  {
    var s' := Exec(cfg, s, step);
    StepAccounts(cfg, s, step);
    StepMsgs(cfg, f, s, step);
    assert forall a | a in s.actors :: PcCovers(s, s.actors[a]) && Aimed(s.store.rows, s.actors[a]);
    StepPoints(cfg, s, step);
    forall b | b in s'.actors
      ensures PcCovers(s', s'.actors[b])
    {
      PcAfter(cfg, f, s, step, b);
    }
    forall a, b, j | a in s'.actors && b in s'.actors && AddedJob(s'.actors[a], j) && SyncingJob(s'.actors[b], j)
      ensures LiveIfWaiting(s', j)
    {
      PairAfter(cfg, f, s, step, a, b, j);
    }
    forall j | j in s'.store.rows
      ensures RowCovered(s', j)
    {
      if j in s.store.rows {
        RowStaysCovered(cfg, f, s, step, j);
      } else {
        NewRowUnsynced(cfg, s, step, j);
      }
    }
  }

  lemma NewRowUnsynced(cfg: Config, s: State, step: Step, j: JobId)
    requires Enabled(cfg, s, step) && j !in s.store.rows
    ensures var rows' := Exec(cfg, s, step).store.rows; j in rows' ==> !rows'[j].synced
  {
    if !step.Submit? { StepWrites(cfg, s, step); }
  }

  lemma InvIsSafe(s: State)
    requires Inv(s)
    ensures NoneStranded(s)
  {
    forall j | j in s.store.rows
      ensures Safe(s, j)
    {
      assert RowCovered(s, j) && ClaimOk(s.store, s.hist, j);
      if s.store.rows[j].status == Processing {
        var m := s.hist[j].claimMsg.value;
        assert ClaimedUnder(s.store.rows, s.hist, j, m);
        forall a | a in s.actors
          ensures s.actors[a] != Acking(m)
        {
          assert PcMsgOk(s.store, s.hist, s.actors[a]);
        }
      }
    }
  }

  lemma {:induction false} RunCovers(cfg: Config, s: State, steps: seq<Step>)
    requires Inv(s) && Run(cfg, ALL_FENCES, s, steps)
    ensures Inv(After(cfg, ALL_FENCES, s, steps))
    decreases |steps|
  {
    if steps != [] {
      StepCovers(cfg, ALL_FENCES, s, steps[0]);
      RunCovers(cfg, Exec(cfg, s, steps[0]), steps[1..]);
    }
  }

  /**
   * No stranded job.  Under the five hypotheses, in every state of every run, with any
   * actors crashing anywhere else: a waiting row is unsynced, or has a message on its way,
   * or is in the delayed set; and a processing row's claim message is still in the PEL
   * with nobody about to acknowledge it.
   */
  lemma NoJobStranded(cfg: Config, steps: seq<Step>)
    requires Run(cfg, ALL_FENCES, INIT, steps)
    ensures NoneStranded(After(cfg, ALL_FENCES, INIT, steps))
  {
    RunCovers(cfg, INIT, steps);
    InvIsSafe(After(cfg, ALL_FENCES, INIT, steps));
  }
}
