/**
 * What needs no hypothesis about interference: entries and delayed members always name stored jobs,
 * and the cursors and the PELs are always in order, whoever crashes wherever.
 */
module Pointers {
  import opened Jobs
  import opened Queue
  import opened Retry
  import opened Protocol
  import opened Accounting
  import opened Safety
  import opened Coverage

  ghost predicate Anchored(s: State) {
    && Accounted(s) && StreamsOk(s.store) && PointersOk(s.store)
    && (forall a | a in s.actors :: Aimed(s.store.rows, s.actors[a]))
  }

  lemma SettleAims(cfg: Config, s: State, a: ActorId, m: Msg, j: JobId, snap: Row, error: Json, reaper: bool)
    requires j in s.store.rows && SameIdentity(snap, s.store.rows[j]) && !Decide(cfg, snap).IndexError?
    ensures var s' := Settle(cfg, s, a, m, j, snap, error, reaper);
            a in s'.actors ==> Aimed(s'.store.rows, s'.actors[a])
  {
  }

  lemma FinishAims(cfg: Config, s: State, a: ActorId, out: Outcome)
    requires Anchored(s) && Enabled(cfg, s, Finish(a, out))
    ensures var s' := Exec(cfg, s, Finish(a, out)); a in s'.actors ==> Aimed(s'.store.rows, s'.actors[a])
  {
    var pc := s.actors[a];
    assert Informed(pc, s.store.rows, s.hist);
    if out.Fails? { SettleAims(cfg, s, a, pc.m, pc.j, pc.snap, out.error, false); }
  }

  lemma GoAims(cfg: Config, s: State, a: ActorId)
    requires Anchored(s) && a in s.actors && CanGo(cfg, s, s.actors[a])
    ensures var s' := GoStep(cfg, s, a, s.actors[a]); a in s'.actors ==> Aimed(s'.store.rows, s'.actors[a])
  {
    var pc := s.actors[a];
    assert Aimed(s.store.rows, pc);
    if pc.Reclaimed? {
      assert Informed(pc, s.store.rows, s.hist);
      SettleAims(cfg, s, a, pc.m, pc.j, pc.snap, "WorkerLost", true);
    }
  }

  lemma StarterAims(cfg: Config, s: State, step: Step)
    requires Anchored(s) && Enabled(cfg, s, step) && Starts(step).Some?
    ensures var s' := Exec(cfg, s, step); var a := Mover(step);
            a in s'.actors ==> Aimed(s'.store.rows, s'.actors[a])
  {
    assert step.PickDue? ==> step.j in s.store.rows;
  }

  /** Every actor stays aimed: the others because rows keep their identity. */
  lemma StepAims(cfg: Config, s: State, step: Step)
    requires Anchored(s) && Enabled(cfg, s, step)
    ensures var s' := Exec(cfg, s, step); forall b | b in s'.actors :: Aimed(s'.store.rows, s'.actors[b])
  {
    var s' := Exec(cfg, s, step);
    StepAccounts(cfg, s, step);
    OthersStay(cfg, s, step);
    forall b | b in s'.actors
      ensures Aimed(s'.store.rows, s'.actors[b])
    {
      if b in s.actors && s'.actors[b] == s.actors[b] {
        assert Aimed(s.store.rows, s.actors[b]);
      } else if step.Go? {
        GoAims(cfg, s, b);
      } else if step.Finish? {
        FinishAims(cfg, s, b, step.out);
      } else {
        StarterAims(cfg, s, step);
      }
    }
  }

  lemma DeliverKeepsOrder(st: Store, p: Priority, c: Consumer, now: Time)
    requires StreamsOk(st) && Backlog(st.streams, p)
    ensures StreamsOk(Deliver(st, p, c, now))
  {
  }

  lemma TwoKeepOrder(st: Store, p: Priority, q: Priority, c: Consumer, now: Time)
    requires StreamsOk(st) && p != q && Backlog(st.streams, p) && Backlog(st.streams, q)
    ensures StreamsOk(Deliver(Deliver(st, q, c, now), p, c, now))
  {
    DeliverKeepsOrder(st, q, c, now);
    DeliverKeepsOrder(Deliver(st, q, c, now), p, c, now);
  }

  lemma PelKept(cfg: Config, s: State, step: Step)
    requires Enabled(cfg, s, step) && !Delivers(step)
    ensures forall m | m in Exec(cfg, s, step).store.pel :: m in s.store.pel
  {
    if step.Go? && WritesRow(s.actors[step.a]) { GoWrites(cfg, s, s.actors[step.a], step.a); }
  }

  lemma StepOrders(cfg: Config, s: State, step: Step)
    requires StreamsOk(s.store) && Enabled(cfg, s, step)
    ensures StreamsOk(Exec(cfg, s, step).store)
  {
    if step.Take? {
      DeliverKeepsOrder(s.store, step.p, Worker(step.a), s.now);
    } else if step.TakeTwo? {
      TwoKeepOrder(s.store, step.p, step.q, Worker(step.a), s.now);
    } else if step.TakeThree? {
      DeliverKeepsOrder(s.store, Low, Worker(step.a), s.now);
      TwoKeepOrder(Deliver(s.store, Low, Worker(step.a), s.now), High, Normal, Worker(step.a), s.now);
    } else {
      StreamsGrow(cfg, s, step);
      PelKept(cfg, s, step);
    }
  }

  lemma StepAnchors(cfg: Config, s: State, step: Step)
    requires Anchored(s) && Enabled(cfg, s, step)
    ensures Anchored(Exec(cfg, s, step))
  {
    StepAccounts(cfg, s, step);
    StepOrders(cfg, s, step);
    StepPoints(cfg, s, step);
    StepAims(cfg, s, step);
  }

  lemma {:induction false} RunAnchors(cfg: Config, f: Fences, s: State, steps: seq<Step>)
    requires Anchored(s) && Run(cfg, f, s, steps)
    ensures Anchored(After(cfg, f, s, steps))
    decreases |steps|
  {
    if steps != [] {
      StepAnchors(cfg, s, steps[0]);
      RunAnchors(cfg, f, Exec(cfg, s, steps[0]), steps[1..]);
    }
  }

  /** In every reachable state, whatever the interference. */
  lemma ReachableAnchored(cfg: Config, f: Fences, s: State)
    requires Reachable(cfg, f, s)
    ensures Anchored(s)
  {
    var steps :| Run(cfg, f, INIT, steps) && After(cfg, f, INIT, steps) == s;
    RunAnchors(cfg, f, INIT, steps);
  }
}
