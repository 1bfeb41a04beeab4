/**
 * No job is stranded: under the five hypotheses of `Protocol.Fences`, every waiting
 * job can still be found by some part of the system, and every processing job is
 * still recoverable through the message under which it was claimed.
 */
module Safety {
  import opened Jobs
  import opened Queue
  import opened Retry
  import opened Protocol
  import opened Accounting

  /** A worker holds a delivered message of the job and is about to claim it. */
  ghost predicate HeldFor(s: State, j: JobId) {
    exists a :: a in s.actors && HoldsJob(s.actors[a], j)
  }

  predicate HoldsJob(pc: Pc, j: JobId) {
    pc.Held? && pc.entry == Some(j)
  }

  /** The job has a message on its way to a claim. */
  ghost predicate Live(s: State, j: JobId) {
    Queued(s.store, j) || HeldFor(s, j)
  }

  /** The property of one stored job. */
  ghost predicate Safe(s: State, j: JobId)
    requires j in s.store.rows
  {
    var r := s.store.rows[j];
    && (Waiting(r.status) ==> !r.synced || Live(s, j) || j in s.store.zset)
    && (r.status == Processing ==>
          && j in s.hist && s.hist[j].claimMsg.Some? && s.hist[j].claimMsg.value in s.store.pel
          && forall a | a in s.actors :: s.actors[a] != Acking(s.hist[j].claimMsg.value))
  }

  ghost predicate NoneStranded(s: State) {
    forall j | j in s.store.rows :: Safe(s, j)
  }

  // ----- messages -----

  function MsgOf(pc: Pc): Option<Msg> {
    match pc
    case Held(m, _) => Some(m)
    case Claimed(m, _) => Some(m)
    case Running(m, _, _) => Some(m)
    case Handoff(src, _, _) => src
    case Syncing(src, _) => src
    case Acking(m) => Some(m)
    case Reaping(m, _) => Some(m)
    case Reclaimed(m, _, _) => Some(m)
    case _ => None
  }

  /** The actor's message claims no processing row: it was never used, or its row was left. */
  predicate Spent(pc: Pc) {
    pc.Held? || pc.Handoff? || pc.Syncing? || pc.Acking?
  }

  /** The job named by the actor's message, as far as the actor relies on it. */
  function EntryKnown(pc: Pc): Option<Option<JobId>> {
    match pc
    case Held(_, e) => Some(e)
    case Claimed(_, j) => Some(Some(j))
    case Running(_, j, _) => Some(Some(j))
    case Reaping(_, e) => Some(e)
    case Reclaimed(_, j, _) => Some(Some(j))
    case _ => None
  }

  predicate ClaimedUnder(rows: Table, hist: History, j: JobId, m: Msg) {
    j in rows && rows[j].status == Processing && j in hist && hist[j].claimMsg == Some(m)
  }

  ghost predicate PcMsgOk(st: Store, hist: History, pc: Pc) {
    MsgOf(pc).Some? ==>
      var m := MsgOf(pc).value;
      && Delivered(st.streams, m)
      && (EntryKnown(pc).Some? ==> EntryOf(st.streams, m) == EntryKnown(pc).value)
      && (Spent(pc) ==> forall j :: !ClaimedUnder(st.rows, hist, j, m))
      && (pc.Held? ==> m in st.pel)
  }

  /** A processing row's claim message is delivered, un-acked and names the row. */
  ghost predicate ClaimOk(st: Store, hist: History, j: JobId) {
    j in st.rows && st.rows[j].status == Processing ==>
      && j in hist && hist[j].claimMsg.Some?
      && var m := hist[j].claimMsg.value;
         m in st.pel && Delivered(st.streams, m) && EntryOf(st.streams, m) == Some(j)
  }

  ghost predicate MsgsOk(s: State) {
    && StreamsOk(s.store)
    && (forall a | a in s.actors :: PcMsgOk(s.store, s.hist, s.actors[a]))
    && (forall a, b | a in s.actors && b in s.actors && a != b && s.actors[a].Held? ::
          MsgOf(s.actors[b]) != Some(s.actors[a].m))
    && (forall j | j in s.store.rows :: ClaimOk(s.store, s.hist, j))
  }

  /** Streams are append-only and the cursor only advances. */
  ghost predicate Grows(t: Streams, t': Streams) {
    forall p: Priority :: t[p].next <= t'[p].next <= |t'[p].entries| && t[p].entries <= t'[p].entries
  }

  /** No row became processing, and no processing row changed its claim message. */
  ghost predicate QuietRows(rows: Table, hist: History, rows': Table, hist': History) {
    forall j | j in rows' && rows'[j].status == Processing ::
      && j in rows && rows[j].status == Processing
      && j in hist && j in hist' && hist'[j].claimMsg == hist[j].claimMsg
  }

  /** Only actor `a` moves, to a place with the message it already had or none. */
  ghost predicate OnlyMoves(s: State, s': State, a: ActorId) {
    && (forall b | b in s'.actors && b != a :: b in s.actors && s'.actors[b] == s.actors[b])
    && (a in s'.actors && MsgOf(s'.actors[a]).Some? ==>
          a in s.actors && MsgOf(s'.actors[a]) == MsgOf(s.actors[a]))
    && (a in s'.actors && s'.actors[a].Held? ==> a in s.actors && s.actors[a].Held?)
  }

  lemma UpdateQuiet(u: Update, r: Row, h: Hist, src: Option<Msg>, seen: nat)
    requires !u.Claim? && Matches(u, r)
    ensures Apply(u, r).status == Processing ==> r.status == Processing
    ensures Track(h, u, r, src, seen).claimMsg == h.claimMsg
  {
  }

  lemma WriteQuiet(s: State, u: Update, j: JobId, src: Option<Msg>, seen: nat)
    requires s.hist.Keys == s.store.rows.Keys && !u.Claim?
    ensures var w := Write(s, u, j, src, seen);
            QuietRows(s.store.rows, s.hist, w.store.rows, w.hist) && w.hist.Keys == w.store.rows.Keys
  {
    if Wins(u, s.store.rows, j) {
      UpdateQuiet(u, s.store.rows[j], s.hist[j], src, seen);
    }
  }

  /** Every step but a claim leaves the set of processing rows alone or shrinks it. */
  lemma StepQuiet(cfg: Config, s: State, step: Step)
    requires Accounted(s) && Enabled(cfg, s, step)
    requires step.Go? ==> !s.actors[step.a].Held?
    ensures var s' := Exec(cfg, s, step);
            QuietRows(s.store.rows, s.hist, s'.store.rows, s'.hist) && s'.hist.Keys == s'.store.rows.Keys
  {
    if !step.Submit? {
      StepWrites(cfg, s, step);
      var w := StepWriting(cfg, s, step);
      if w.Some? {
        WriteQuiet(s, w.value.u, w.value.j, w.value.src, w.value.seen);
      }
    }
  }

  lemma QuietClaims(rows: Table, hist: History, rows': Table, hist': History, m: Msg)
    requires QuietRows(rows, hist, rows', hist')
    requires forall j :: !ClaimedUnder(rows, hist, j, m)
    ensures forall j :: !ClaimedUnder(rows', hist', j, m)
  {
    assert forall j :: ClaimedUnder(rows', hist', j, m) ==> ClaimedUnder(rows, hist, j, m);
  }

  lemma PcMsgFrame(s: State, s': State, pc: Pc)
    requires PcMsgOk(s.store, s.hist, pc)
    requires Grows(s.store.streams, s'.store.streams)
    requires QuietRows(s.store.rows, s.hist, s'.store.rows, s'.hist)
    requires pc.Held? && pc.m in s.store.pel ==> pc.m in s'.store.pel
    ensures PcMsgOk(s'.store, s'.hist, pc)
  {
    if MsgOf(pc).Some? && Spent(pc) {
      QuietClaims(s.store.rows, s.hist, s'.store.rows, s'.hist, MsgOf(pc).value);
    }
  }

  /** Frame: a step without claim whose actor ends with consistent knowledge of its message. */
  lemma MsgsFrame(s: State, s': State, a: ActorId)
    requires MsgsOk(s) && s.hist.Keys == s.store.rows.Keys
    requires Grows(s.store.streams, s'.store.streams)
    requires QuietRows(s.store.rows, s.hist, s'.store.rows, s'.hist) && s'.hist.Keys == s'.store.rows.Keys
    requires forall m | m in s'.store.pel :: m in s.store.pel
    requires forall m | m in s.store.pel && m !in s'.store.pel ::
               a in s.actors && s.actors[a] == Acking(m)
    requires OnlyMoves(s, s', a)
    requires a in s'.actors ==> PcMsgOk(s'.store, s'.hist, s'.actors[a])
    ensures MsgsOk(s')
  {
    assert a in s.actors ==> PcMsgOk(s.store, s.hist, s.actors[a]);
    forall b | b in s'.actors
      ensures PcMsgOk(s'.store, s'.hist, s'.actors[b])
    {
      if b != a { PcMsgFrame(s, s', s.actors[b]); }
    }
    ClaimsFrame(s, s', a);
  }

  /** Only an acking actor's message leaves the PEL, and that claims nothing. */
  lemma ClaimsFrame(s: State, s': State, a: ActorId)
    requires forall j | j in s.store.rows :: ClaimOk(s.store, s.hist, j)
    requires a in s.actors ==> PcMsgOk(s.store, s.hist, s.actors[a])
    requires Grows(s.store.streams, s'.store.streams)
    requires QuietRows(s.store.rows, s.hist, s'.store.rows, s'.hist)
    requires forall m | m in s.store.pel && m !in s'.store.pel ::
               a in s.actors && s.actors[a] == Acking(m)
    ensures forall j | j in s'.store.rows :: ClaimOk(s'.store, s'.hist, j)
  {
    forall j | j in s'.store.rows
      ensures ClaimOk(s'.store, s'.hist, j)
    {
      if s'.store.rows[j].status == Processing {
        assert ClaimOk(s.store, s.hist, j);
        assert ClaimedUnder(s.store.rows, s.hist, j, s.hist[j].claimMsg.value);
      }
    }
  }

  /** A message whose job is not processing claims nothing. */
  lemma NotClaiming(s: State, rows': Table, hist': History, m: Msg)
    requires MsgsOk(s) && s.hist.Keys == s.store.rows.Keys && Delivered(s.store.streams, m)
    requires QuietRows(s.store.rows, s.hist, rows', hist')
    requires EntryOf(s.store.streams, m).Some? && EntryOf(s.store.streams, m).value in rows' ==>
               rows'[EntryOf(s.store.streams, m).value].status != Processing
    ensures forall j :: !ClaimedUnder(rows', hist', j, m)
  {
    forall j
      ensures !ClaimedUnder(rows', hist', j, m)
    {
      assert j in s.store.rows ==> ClaimOk(s.store, s.hist, j);
    }
  }

  // ----- messages, step by step -----

  lemma AddGrows(streams: Streams, p: Priority, e: Option<JobId>)
    requires forall q: Priority :: streams[q].next <= |streams[q].entries|
    ensures Grows(streams, XAdd(streams, p, e))
  {
  }

  lemma GoGrows(cfg: Config, s: State, pc: Pc, a: ActorId)
    requires StreamsOk(s.store) && CanGo(cfg, s, pc)
    ensures Grows(s.store.streams, GoStep(cfg, s, a, pc).store.streams)
  {
    if pc.Handoff? && pc.target.ToStream? {
      AddGrows(s.store.streams, pc.target.prio, Some(pc.j));
    } else if pc.Routed? {
      AddGrows(s.store.streams, pc.prio, Some(pc.j));
    } else {
      GoKeepsStreams(cfg, s, pc, a);
    }
  }

  lemma GoKeepsStreams(cfg: Config, s: State, pc: Pc, a: ActorId)
    requires CanGo(cfg, s, pc) && !pc.Routed? && !(pc.Handoff? && pc.target.ToStream?)
    ensures GoStep(cfg, s, a, pc).store.streams == s.store.streams
  {
    if WritesRow(pc) { GoWrites(cfg, s, pc, a); }
  }

  lemma StreamsGrow(cfg: Config, s: State, step: Step)
    requires StreamsOk(s.store) && Enabled(cfg, s, step)
    ensures Grows(s.store.streams, Exec(cfg, s, step).store.streams)
  {
    if step.Go? {
      GoGrows(cfg, s, s.actors[step.a], step.a);
    } else if step.Foreign? {
      AddGrows(s.store.streams, step.p, None);
    } else if Delivers(step) {
      DeliveryGrows(cfg, s, step);
    } else {
      StreamsStay(cfg, s, step);
    }
  }

  lemma DeliveryGrows(cfg: Config, s: State, step: Step)
    requires StreamsOk(s.store) && Enabled(cfg, s, step) && Delivers(step)
    ensures Grows(s.store.streams, Exec(cfg, s, step).store.streams)
  {
  }

  lemma StreamsStay(cfg: Config, s: State, step: Step)
    requires Enabled(cfg, s, step) && !step.Go? && !step.Foreign? && !Delivers(step)
    ensures Exec(cfg, s, step).store.streams == s.store.streams
  {
  }

  /** XREADGROUP: a fresh message, unknown to every actor and every row. */
  lemma TakeMsgs(cfg: Config, s: State, a: ActorId, p: Priority)
    requires Accounted(s) && MsgsOk(s) && Enabled(cfg, s, Take(a, p))
    ensures MsgsOk(Exec(cfg, s, Take(a, p)))
  {
    var s' := Exec(cfg, s, Take(a, p));
    var m := HeadOf(s, p);
    forall j
      ensures !ClaimedUnder(s'.store.rows, s'.hist, j, m)
    {
      assert j in s.store.rows ==> ClaimOk(s.store, s.hist, j);
    }
    forall b | b in s'.actors
      ensures PcMsgOk(s'.store, s'.hist, s'.actors[b])
    {
      if b != a { PcMsgFrame(s, s', s.actors[b]); }
    }
    PelGrowsClaims(s.store, s'.store, s.hist);
  }

  /** New pending entries take no claim away. */
  lemma PelGrowsClaims(st: Store, st': Store, hist: History)
    requires forall j | j in st.rows :: ClaimOk(st, hist, j)
    requires st'.rows == st.rows && forall m | m in st.pel :: m in st'.pel
    requires forall p: Priority :: st'.streams[p].entries == st.streams[p].entries && st'.streams[p].next >= st.streams[p].next
    requires StreamsOk(st')
    ensures forall j | j in st'.rows :: ClaimOk(st', hist, j)
  {
    forall j | j in st'.rows
      ensures ClaimOk(st', hist, j)
    {
      assert ClaimOk(st, hist, j);
    }
  }

  /** XAUTOCLAIM of a message that nobody holds. */
  lemma ReapMsgs(cfg: Config, s: State, a: ActorId, m: Msg)
    requires Accounted(s) && MsgsOk(s) && Enabled(cfg, s, Reap(a, m))
    requires forall b | b in s.actors :: !Holds(s.actors[b], m)
    ensures MsgsOk(Exec(cfg, s, Reap(a, m)))
  {
    var s' := Exec(cfg, s, Reap(a, m));
    forall b | b in s'.actors
      ensures PcMsgOk(s'.store, s'.hist, s'.actors[b])
    {
      if b != a { PcMsgFrame(s, s', s.actors[b]); }
    }
    forall j | j in s'.store.rows
      ensures ClaimOk(s'.store, s'.hist, j)
    {
      assert ClaimOk(s.store, s.hist, j);
    }
  }

  /** A winning claim concerns nobody else's message. */
  lemma ClaimMsgsOther(cfg: Config, s: State, a: ActorId, b: ActorId)
    requires a in s.actors && b in s.actors && b != a && s.actors[a].Held? && s.actors[a].entry.Some?
    requires PcMsgOk(s.store, s.hist, s.actors[b]) && MsgOf(s.actors[b]) != Some(s.actors[a].m)
    requires Wins(Claim(s.now), s.store.rows, s.actors[a].entry.value)
    ensures var s' := GoStep(cfg, s, a, s.actors[a]); PcMsgOk(s'.store, s'.hist, s.actors[b])
  {
    var s' := GoStep(cfg, s, a, s.actors[a]);
    if MsgOf(s.actors[b]).Some? && Spent(s.actors[b]) {
      var n := MsgOf(s.actors[b]).value;
      assert forall k :: ClaimedUnder(s'.store.rows, s'.hist, k, n) ==> ClaimedUnder(s.store.rows, s.hist, k, n);
    }
  }

  /** A winning claim: the held message becomes the row's claim message. */
  lemma ClaimMsgs(cfg: Config, s: State, a: ActorId)
    requires Accounted(s) && MsgsOk(s) && a in s.actors && s.actors[a].Held? && s.actors[a].entry.Some?
    requires Wins(Claim(s.now), s.store.rows, s.actors[a].entry.value)
    ensures MsgsOk(GoStep(cfg, s, a, s.actors[a]))
  {
    var s' := GoStep(cfg, s, a, s.actors[a]);
    assert PcMsgOk(s.store, s.hist, s.actors[a]);
    forall b | b in s'.actors
      ensures PcMsgOk(s'.store, s'.hist, s'.actors[b])
    {
      if b != a { ClaimMsgsOther(cfg, s, a, b); }
    }
    forall k | k in s'.store.rows
      ensures ClaimOk(s'.store, s'.hist, k)
    {
      assert ClaimOk(s.store, s.hist, k);
    }
  }

  predicate Special(s: State, step: Step) {
    Delivers(step) || step.Reap?
    || (step.Go? && step.a in s.actors && s.actors[step.a].Held?)
  }

  lemma SettleMsg(cfg: Config, s: State, s': State, a: ActorId, j: JobId)
    requires Accounted(s) && MsgsOk(s) && a in s.actors && j in s.store.rows
    requires EntryKnown(s.actors[a]) == Some(Some(j)) && MsgOf(s.actors[a]).Some?
    requires QuietRows(s.store.rows, s.hist, s'.store.rows, s'.hist)
    requires s'.store.streams == s.store.streams && s'.store.pel == s.store.pel
    requires j in s'.store.rows && s'.store.rows[j].status != Processing
    requires a in s'.actors && MsgOf(s'.actors[a]) == MsgOf(s.actors[a])
    requires s'.actors[a].Acking? || s'.actors[a].Handoff?
    ensures PcMsgOk(s'.store, s'.hist, s'.actors[a])
  {
    assert PcMsgOk(s.store, s.hist, s.actors[a]);
    NotClaiming(s, s'.store.rows, s'.hist, MsgOf(s.actors[a]).value);
  }

  /** Whoever wins, the row is not processing after an exit statement, and the message is passed on. */
  ghost predicate Settled(s: State, s': State, a: ActorId, m: Msg, j: JobId) {
    && s'.store.streams == s.store.streams && s'.store.pel == s.store.pel
    && j in s'.store.rows && s'.store.rows[j].status != Processing
    && (a in s'.actors ==> MsgOf(s'.actors[a]) == Some(m) && (s'.actors[a].Acking? || s'.actors[a].Handoff?))
  }

  lemma SettleSettles(cfg: Config, s: State, a: ActorId, m: Msg, j: JobId, snap: Row, error: Json, reaper: bool)
    requires j in s.store.rows && !Decide(cfg, snap).IndexError?
    ensures Settled(s, Settle(cfg, s, a, m, j, snap, error, reaper), a, m, j)
  {
  }

  lemma FinishSettles(cfg: Config, s: State, a: ActorId, m: Msg, j: JobId, snap: Row, out: Outcome)
    requires j in s.store.rows && (out.Fails? ==> !Decide(cfg, snap).IndexError?)
    ensures Settled(s, FinishStep(cfg, s, a, m, j, snap, out), a, m, j)
  {
    if out.Fails? { SettleSettles(cfg, s, a, m, j, snap, out.error, false); }
  }

  lemma ExitMsg(cfg: Config, s: State, step: Step)
    requires Accounted(s) && MsgsOk(s) && Enabled(cfg, s, step)
    requires step.Finish? || (step.Go? && s.actors[step.a].Reclaimed?)
    ensures var s' := Exec(cfg, s, step);
            step.a in s'.actors ==> PcMsgOk(s'.store, s'.hist, s'.actors[step.a])
  {
    var a, s' := step.a, Exec(cfg, s, step);
    var pc := s.actors[a];
    assert Informed(pc, s.store.rows, s.hist);
    if step.Finish? {
      FinishSettles(cfg, s, a, pc.m, pc.j, pc.snap, step.out);
    } else {
      SettleSettles(cfg, s, a, pc.m, pc.j, pc.snap, "WorkerLost", true);
    }
    StepQuiet(cfg, s, step);
    if a in s'.actors { SettleMsg(cfg, s, s', a, pc.j); }
  }

  lemma ReapingMsg(s: State, a: ActorId, m: Msg, e: Option<JobId>)
    requires Accounted(s) && MsgsOk(s) && a in s.actors && s.actors[a] == Reaping(m, e)
    ensures var s' := ReadForReap(s, a, m, e);
            s'.store == s.store && s'.hist == s.hist && a in s'.actors && PcMsgOk(s.store, s.hist, s'.actors[a])
  {
    var s' := ReadForReap(s, a, m, e);
    assert PcMsgOk(s.store, s.hist, s.actors[a]);
    var pc := s'.actors[a];
    assert MsgOf(pc) == Some(m) && !pc.Held?;
    if !pc.Reclaimed? { NotClaiming(s, s.store.rows, s.hist, m); }
  }

  /** The mover of an ordinary step ends with consistent knowledge of its message. */
  lemma MoverMsg(cfg: Config, s: State, step: Step)
    requires Accounted(s) && MsgsOk(s) && Enabled(cfg, s, step) && !Special(s, step)
    ensures var s' := Exec(cfg, s, step); var a := Mover(step);
            a in s'.actors ==> PcMsgOk(s'.store, s'.hist, s'.actors[a])
  {
    var a := Mover(step);
    if step.Finish? || (step.Go? && s.actors[a].Reclaimed?) {
      ExitMsg(cfg, s, step);
    } else if step.Go? && s.actors[a].Reaping? {
      ReapingMsg(s, a, s.actors[a].m, s.actors[a].entry);
    } else {
      StepQuiet(cfg, s, step);
      StreamsGrow(cfg, s, step);
      OtherMsg(cfg, s, step);
    }
  }

  /** Steps that keep what the mover's message means to it. */
  lemma OtherMsg(cfg: Config, s: State, step: Step)
    requires MsgsOk(s) && Enabled(cfg, s, step) && !Special(s, step)
    requires !step.Finish? && (step.Go? ==> !s.actors[step.a].Reclaimed? && !s.actors[step.a].Reaping?)
    requires var s' := Exec(cfg, s, step);
             && QuietRows(s.store.rows, s.hist, s'.store.rows, s'.hist)
             && Grows(s.store.streams, s'.store.streams)
    ensures var s' := Exec(cfg, s, step); var a := Mover(step);
            a in s'.actors ==> PcMsgOk(s'.store, s'.hist, s'.actors[a])
  {
    var s', a := Exec(cfg, s, step), Mover(step);
    MoverInherits(cfg, s, step);
    PelShrinks(cfg, s, step);
    if a in s.actors {
      assert PcMsgOk(s.store, s.hist, s.actors[a]);
      PcMsgFrame(s, s', s.actors[a]);
    }
  }

  /** The new place relies on no more about the message than the old one. */
  predicate Inherits(pc: Pc, pc': Pc) {
    pc == pc'
    || (!pc'.Held? && MsgOf(pc') == MsgOf(pc) && (Spent(pc') ==> Spent(pc))
        && (EntryKnown(pc').Some? ==> EntryKnown(pc') == EntryKnown(pc)))
    || MsgOf(pc') == None
  }

  lemma MoverInherits(cfg: Config, s: State, step: Step)
    requires Enabled(cfg, s, step) && !Special(s, step)
    requires !step.Finish? && (step.Go? ==> !s.actors[step.a].Reclaimed? && !s.actors[step.a].Reaping?)
    ensures var s' := Exec(cfg, s, step); var a := Mover(step);
            a in s'.actors ==>
              if a in s.actors then Inherits(s.actors[a], s'.actors[a]) else MsgOf(s'.actors[a]) == None
  {
  }

  lemma MoverKeepsMsg(cfg: Config, s: State, step: Step)
    requires Enabled(cfg, s, step) && !Special(s, step)
    ensures OnlyMoves(s, Exec(cfg, s, step), Mover(step))
  {
    OthersStay(cfg, s, step);
    if step.Go? { GoKeepsMsg(cfg, s, step.a); }
  }

  lemma GoKeepsMsg(cfg: Config, s: State, a: ActorId)
    requires a in s.actors && CanGo(cfg, s, s.actors[a]) && !s.actors[a].Held?
    ensures var s' := GoStep(cfg, s, a, s.actors[a]);
            && (a in s'.actors && MsgOf(s'.actors[a]).Some? ==> MsgOf(s'.actors[a]) == MsgOf(s.actors[a]))
            && (a in s'.actors ==> !s'.actors[a].Held?)
  {
  }

  /** XACK only removes the mover's own message. */
  lemma PelShrinks(cfg: Config, s: State, step: Step)
    requires Enabled(cfg, s, step) && !Special(s, step)
    ensures var s' := Exec(cfg, s, step);
            forall m :: (m in s'.store.pel ==> m in s.store.pel)
              && (m in s.store.pel && m !in s'.store.pel ==>
                    Mover(step) in s.actors && s.actors[Mover(step)] == Acking(m))
  {
    if step.Go? && WritesRow(s.actors[step.a]) {
      GoWrites(cfg, s, s.actors[step.a], step.a);
    }
  }

  /** One step keeps the message facts, if no held message is reaped and each read hands out one entry. */
  lemma StepMsgs(cfg: Config, f: Fences, s: State, step: Step)
    requires Accounted(s) && MsgsOk(s) && Legal(cfg, f, s, step) && f.singleRead && f.heldUnreaped
    ensures MsgsOk(Exec(cfg, s, step))
  {
    if step.Take? {
      TakeMsgs(cfg, s, step.a, step.p);
    } else if step.Reap? {
      ReapMsgs(cfg, s, step.a, step.m);
    } else if step.Go? && s.actors[step.a].Held? {
      var pc := s.actors[step.a];
      if pc.entry.Some? && Wins(Claim(s.now), s.store.rows, pc.entry.value) {
        ClaimMsgs(cfg, s, step.a);
      } else {
        SkipMsgs(cfg, s, step.a);
      }
    } else {
      StreamsGrow(cfg, s, step);
      StepQuiet(cfg, s, step);
      MoverMsg(cfg, s, step);
      MoverKeepsMsg(cfg, s, step);
      PelShrinks(cfg, s, step);
      MsgsFrame(s, Exec(cfg, s, step), Mover(step));
    }
  }

  /** A claim that loses, or a poison entry: the worker goes straight to the ack. */
  lemma SkipMsgs(cfg: Config, s: State, a: ActorId)
    requires Accounted(s) && MsgsOk(s) && a in s.actors && s.actors[a].Held?
    requires s.actors[a].entry.Some? ==> !Wins(Claim(s.now), s.store.rows, s.actors[a].entry.value)
    ensures MsgsOk(GoStep(cfg, s, a, s.actors[a]))
  {
    var s' := GoStep(cfg, s, a, s.actors[a]);
    assert PcMsgOk(s.store, s.hist, s.actors[a]);
    MsgsFrame(s, s', a);
  }
}
