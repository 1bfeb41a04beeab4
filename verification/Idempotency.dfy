/**
 * Idempotent submission under races (`submit_job` of app/api/routes.py with the unique index of
 * app/models/job.py).  Any number of calls run interleaved; every committed statement is one step.
 * The log is a history variable: a call is entered when its outcome is decided.
 */
module Idempotency {
  import opened Jobs

  type CallId = nat

  datatype Request = Request(owner: nat, key: string, hash: string)

  /** 202, 200, and 409. */
  datatype Reply = Accepted(id: JobId) | Replayed(id: JobId) | Conflict

  datatype Phase =
    | Looking
    | Creating
    | LookingAgain
    | HandingOff(id: JobId)
    | Answering(reply: Reply)
    | Answered(reply: Reply)
    | Crashed

  datatype Call = Call(req: Request, phase: Phase)

  datatype Entry = Entry(call: CallId, req: Request, reply: Reply)

  datatype State = State(rows: Table, calls: map<CallId, Call>, log: seq<Entry>)

  const INIT := State(map[], map[], [])

  datatype Step =
    | Invoke(call: CallId, req: Request)
    | LookUp(call: CallId)
    | Create(call: CallId, id: JobId, row: Row)
    | LookUpAgain(call: CallId)
    | HandOff(call: CallId)
    | Respond(call: CallId)
    | Crash(call: CallId)
    | Write(id: JobId, update: Update)
    | InsertUnkeyed(id: JobId, row: Row)

  /** `_replay_or_conflict`; looking nothing up is a conflict too. */
  function ReplayOrConflict(rows: Table, found: Option<JobId>, hash: string): Reply
    requires found.Some? ==> found.value in rows
  {
    if found.Some? && rows[found.value].hash == Some(hash) then Replayed(found.value) else Conflict
  }

  predicate InPhase(s: State, c: CallId, phase: Phase) {
    c in s.calls && s.calls[c].phase == phase
  }

  predicate Legal(s: State, step: Step) {
    match step
    case Invoke(c, _) => c !in s.calls
    case LookUp(c) => InPhase(s, c, Looking)
    case Create(c, j, r) =>
      && InPhase(s, c, Creating) && j !in s.rows
      && r.owner == Some(s.calls[c].req.owner) && r.key == Some(s.calls[c].req.key) && r.hash == Some(s.calls[c].req.hash)
    case LookUpAgain(c) => InPhase(s, c, LookingAgain)
    case HandOff(c) => c in s.calls && s.calls[c].phase.HandingOff?
    case Respond(c) => c in s.calls && s.calls[c].phase.Answering?
    case Crash(c) => c in s.calls && !s.calls[c].phase.Answered?
    case Write(_, _) => true
    case InsertUnkeyed(j, r) => j !in s.rows && r.key.None?
  }

  function Moved(s: State, c: CallId, phase: Phase): State
    requires c in s.calls
  {
    s.(calls := s.calls[c := s.calls[c].(phase := phase)])
  }

  /** The outcome of the call is decided here. */
  function Decided(s: State, c: CallId, reply: Reply): State
    requires c in s.calls
  {
    Moved(s, c, Answering(reply)).(log := s.log + [Entry(c, s.calls[c].req, reply)])
  }

  ghost function Next(s: State, step: Step): State
    requires Legal(s, step)
  {
    match step
    case Invoke(c, req) => s.(calls := s.calls[c := Call(req, Looking)])
    case LookUp(c) =>
      var req := s.calls[c].req;
      var found := ByKey(s.rows, req.owner, req.key);
      if found.Some? then Decided(s, c, ReplayOrConflict(s.rows, found, req.hash)) else Moved(s, c, Creating)
    case Create(c, j, r) =>
      var req := s.calls[c].req;
      if ByKey(s.rows, req.owner, req.key).Some? then Moved(s, c, LookingAgain)
      else Moved(s, c, HandingOff(j)).(rows := s.rows[j := r], log := s.log + [Entry(c, req, Accepted(j))])
    case LookUpAgain(c) =>
      var req := s.calls[c].req;
      Decided(s, c, ReplayOrConflict(s.rows, ByKey(s.rows, req.owner, req.key), req.hash))
    case HandOff(c) => Moved(s, c, Answering(Accepted(s.calls[c].phase.id)))
    case Respond(c) => Moved(s, c, Answered(s.calls[c].phase.reply))
    case Crash(c) => Moved(s, c, Crashed)
    case Write(j, u) => s.(rows := Commit(u, s.rows, j))
    case InsertUnkeyed(j, r) => s.(rows := s.rows[j := r])
  }

  /** The state after any sequence of steps; a step that is not enabled does nothing. */
  ghost function After(steps: seq<Step>): State {
    if steps == [] then INIT
    else
      var s, last := After(steps[..|steps| - 1]), steps[|steps| - 1];
      if Legal(s, last) then Next(s, last) else s
  }

  // ----- the atomic specification -----

  datatype Slot = Slot(owner: nat, key: string)
  datatype Taken = Taken(id: JobId, hash: string)

  /** One job per (owner, key). */
  type Ledger = map<Slot, Taken>

  /** What an indivisible submission would answer; `id` is the new job's, if one is made. */
  function Answer(l: Ledger, req: Request, id: JobId): Reply {
    var slot := Slot(req.owner, req.key);
    if slot !in l then Accepted(id)
    else if l[slot].hash == req.hash then Replayed(l[slot].id)
    else Conflict
  }

  function Booked(l: Ledger, req: Request, reply: Reply): Ledger {
    if reply.Accepted? then l[Slot(req.owner, req.key) := Taken(reply.id, req.hash)] else l
  }

  function Replay(log: seq<Entry>): Ledger {
    if log == [] then map[]
    else
      var last := log[|log| - 1];
      Booked(Replay(log[..|log| - 1]), last.req, last.reply)
  }

  /** Every entry answers as the indivisible submission would after the entries before it. */
  predicate Atomic(log: seq<Entry>) {
    log == [] ||
    (var last := log[|log| - 1]; var before := log[..|log| - 1];
     && Atomic(before)
     && last.reply == Answer(Replay(before), last.req, if last.reply.Accepted? then last.reply.id else 0))
  }

  /** The table holds exactly the keyed jobs of the ledger. */
  ghost predicate Agrees(rows: Table, l: Ledger) {
    && (forall j, o, k | Stores(rows, j, o, k) ::
          Slot(o, k) in l && l[Slot(o, k)].id == j && rows[j].hash == Some(l[Slot(o, k)].hash))
    && (forall slot | slot in l :: Stores(rows, l[slot].id, slot.owner, slot.key))
  }

  predicate Logged(log: seq<Entry>, c: CallId, req: Request, reply: Reply) {
    Entry(c, req, reply) in log
  }

  predicate Unlogged(log: seq<Entry>, c: CallId) {
    forall e | e in log :: e.call != c
  }

  /** What each phase says about the log. */
  predicate CallOk(c: CallId, call: Call, log: seq<Entry>, l: Ledger) {
    match call.phase
    case Looking => Unlogged(log, c)
    case Creating => Unlogged(log, c)
    case LookingAgain => Unlogged(log, c) && Slot(call.req.owner, call.req.key) in l
    case HandingOff(id) => Logged(log, c, call.req, Accepted(id))
    case Answering(reply) => Logged(log, c, call.req, reply)
    case Answered(reply) => Logged(log, c, call.req, reply)
    case Crashed => true
  }

  ghost predicate Inv(s: State) {
    && Atomic(s.log) && Agrees(s.rows, Replay(s.log))
    && (forall e | e in s.log :: e.call in s.calls)
    && (forall i, k | 0 <= i < k < |s.log| :: s.log[i].call != s.log[k].call)
    && (forall c | c in s.calls :: CallOk(c, s.calls[c], s.log, Replay(s.log)))
  }

  lemma LookupAgrees(rows: Table, l: Ledger, req: Request)
    requires Agrees(rows, l)
    ensures var found := ByKey(rows, req.owner, req.key);
            && (found.Some? <==> Slot(req.owner, req.key) in l)
            && (found.Some? ==> found.value == l[Slot(req.owner, req.key)].id)
            && (found.Some? ==> found.value in rows && ReplayOrConflict(rows, found, req.hash) == Answer(l, req, 0))
  {
    var slot := Slot(req.owner, req.key);
    if slot in l { assert Stores(rows, l[slot].id, slot.owner, slot.key); }
  }

  lemma WriteKeepsKeys(rows: Table, j: JobId, u: Update, l: Ledger)
    requires Agrees(rows, l)
    ensures Agrees(Commit(u, rows, j), l)
  {
    var rows' := Commit(u, rows, j);
    assert forall i :: i in rows' <==> i in rows;
    assert forall i | i in rows :: rows'[i].owner == rows[i].owner && rows'[i].key == rows[i].key;
    assert forall i | i in rows :: rows'[i].hash == rows[i].hash;
    forall i, o, k | Stores(rows', i, o, k)
      ensures Slot(o, k) in l && l[Slot(o, k)].id == i && rows'[i].hash == Some(l[Slot(o, k)].hash)
    {
      assert Stores(rows, i, o, k);
    }
  }

  lemma DecidedKeeps(s: State, c: CallId, reply: Reply)
    requires Inv(s) && c in s.calls && Unlogged(s.log, c) && !reply.Accepted?
    requires reply == Answer(Replay(s.log), s.calls[c].req, 0)
    ensures Inv(Decided(s, c, reply))
  {
    var s' := Decided(s, c, reply);
    LogGrows(s, s', c, Entry(c, s.calls[c].req, reply));
  }

  /** Appending one consistent entry for a call that had none. */
  lemma LogGrows(s: State, s': State, c: CallId, e: Entry)
    requires Inv(s) && c in s.calls && Unlogged(s.log, c) && e.call == c && s'.log == s.log + [e]
    requires e.reply == Answer(Replay(s.log), e.req, if e.reply.Accepted? then e.reply.id else 0)
    requires s'.calls.Keys == s.calls.Keys && forall d | d in s.calls && d != c :: s'.calls[d] == s.calls[d]
    requires Logged([e], c, s'.calls[c].req, e.reply)
    requires s'.calls[c].phase == Answering(e.reply) || (e.reply.Accepted? && s'.calls[c].phase == HandingOff(e.reply.id))
    requires Agrees(s'.rows, Booked(Replay(s.log), e.req, e.reply))
    ensures Inv(s')
  {
    assert s'.log[..|s'.log| - 1] == s.log;
    assert Replay(s'.log) == Booked(Replay(s.log), e.req, e.reply);
    forall d | d in s'.calls
      ensures CallOk(d, s'.calls[d], s'.log, Replay(s'.log))
    {
      if d != c { OtherCallOk(s.calls[d], d, s.log, e); }
    }
  }

  /** Another call's entry does not concern this one. */
  lemma OtherCallOk(call: Call, d: CallId, log: seq<Entry>, e: Entry)
    requires CallOk(d, call, log, Replay(log)) && e.call != d
    ensures CallOk(d, call, log + [e], Booked(Replay(log), e.req, e.reply))
  {
  }

  /** A step that decides nothing. */
  lemma MovedKeeps(s: State, c: CallId, phase: Phase)
    requires Inv(s) && c in s.calls && CallOk(c, s.calls[c].(phase := phase), s.log, Replay(s.log))
    ensures Inv(Moved(s, c, phase))
  {
  }

  lemma CreateKeeps(s: State, step: Step)
    requires Inv(s) && step.Create? && Legal(s, step)
    ensures Inv(Next(s, step))
  {
    var c, j, r := step.call, step.id, step.row;
    var req := s.calls[c].req;
    LookupAgrees(s.rows, Replay(s.log), req);
    assert CallOk(c, s.calls[c], s.log, Replay(s.log));
    if ByKey(s.rows, req.owner, req.key).Some? {
      MovedKeeps(s, c, LookingAgain);
    } else {
      InsertAgrees(s.rows, j, r, Replay(s.log), req);
      LogGrows(s, Next(s, step), c, Entry(c, req, Accepted(j)));
    }
  }

  lemma InsertAgrees(rows: Table, j: JobId, r: Row, l: Ledger, req: Request)
    requires Agrees(rows, l) && j !in rows && Slot(req.owner, req.key) !in l
    requires r.owner == Some(req.owner) && r.key == Some(req.key) && r.hash == Some(req.hash)
    ensures Agrees(rows[j := r], Booked(l, req, Accepted(j)))
  {
    var rows' := rows[j := r];
    forall i, o, k | Stores(rows', i, o, k)
      ensures i == j || Stores(rows, i, o, k)
    {
    }
    forall slot | slot in l
      ensures Stores(rows', l[slot].id, slot.owner, slot.key)
    {
      assert Stores(rows, l[slot].id, slot.owner, slot.key);
    }
  }

  lemma UnkeyedAgrees(rows: Table, j: JobId, r: Row, l: Ledger)
    requires Agrees(rows, l) && j !in rows && r.key.None?
    ensures Agrees(rows[j := r], l)
  {
    forall i, o, k | Stores(rows[j := r], i, o, k)
      ensures Stores(rows, i, o, k)
    {
    }
    forall slot | slot in l
      ensures Stores(rows[j := r], l[slot].id, slot.owner, slot.key)
    {
      assert Stores(rows, l[slot].id, slot.owner, slot.key);
    }
  }

  lemma StepKeeps(s: State, step: Step)
    requires Inv(s) && Legal(s, step)
    ensures Inv(Next(s, step))
  {
    match step
    case Invoke(c, req) => InvokeKeeps(s, c, req);
    case LookUp(c) =>
      assert CallOk(c, s.calls[c], s.log, Replay(s.log));
      LookupAgrees(s.rows, Replay(s.log), s.calls[c].req);
      var found := ByKey(s.rows, s.calls[c].req.owner, s.calls[c].req.key);
      if found.Some? { DecidedKeeps(s, c, ReplayOrConflict(s.rows, found, s.calls[c].req.hash)); }
      else { MovedKeeps(s, c, Creating); }
    case Create(_, _, _) => CreateKeeps(s, step);
    case LookUpAgain(c) =>
      assert CallOk(c, s.calls[c], s.log, Replay(s.log));
      LookupAgrees(s.rows, Replay(s.log), s.calls[c].req);
      var found := ByKey(s.rows, s.calls[c].req.owner, s.calls[c].req.key);
      DecidedKeeps(s, c, ReplayOrConflict(s.rows, found, s.calls[c].req.hash));
    case HandOff(c) =>
      assert CallOk(c, s.calls[c], s.log, Replay(s.log));
      MovedKeeps(s, c, Answering(Accepted(s.calls[c].phase.id)));
    case Respond(c) =>
      assert CallOk(c, s.calls[c], s.log, Replay(s.log));
      MovedKeeps(s, c, Answered(s.calls[c].phase.reply));
    case Crash(c) => MovedKeeps(s, c, Crashed);
    case Write(j, u) => WriteKeepsKeys(s.rows, j, u, Replay(s.log));
    case InsertUnkeyed(j, r) => UnkeyedAgrees(s.rows, j, r, Replay(s.log));
  }

  lemma InvokeKeeps(s: State, c: CallId, req: Request)
    requires Inv(s) && c !in s.calls
    ensures Inv(s.(calls := s.calls[c := Call(req, Looking)]))
  {
    assert Unlogged(s.log, c);
  }

  lemma {:induction false} RunKeeps(steps: seq<Step>)
    ensures Inv(After(steps))
  {
    if steps != [] {
      var s, last := After(steps[..|steps| - 1]), steps[|steps| - 1];
      RunKeeps(steps[..|steps| - 1]);
      if Legal(s, last) { StepKeeps(s, last); }
    }
  }

  // ----- what that means -----

  /** At most one job per (owner, key), in every reachable state. */
  lemma OneJobPerKey(steps: seq<Step>, a: JobId, b: JobId, owner: nat, key: string)
    requires var rows := After(steps).rows; Stores(rows, a, owner, key) && Stores(rows, b, owner, key)
    ensures a == b
  {
    RunKeeps(steps);
  }

  /**
   * Every answered call names the one job of its key: 202 and 200 when the stored hash is the
   * request's, and 409 exactly when it differs.
   */
  lemma RepliesNameTheJob(steps: seq<Step>, c: CallId)
    requires c in After(steps).calls && After(steps).calls[c].phase.Answered?
    ensures var s := After(steps); var call := s.calls[c]; var found := ByKey(s.rows, call.req.owner, call.req.key);
            && found.Some? && found.value in s.rows
            && (call.phase.reply.Conflict? <==> s.rows[found.value].hash != Some(call.req.hash))
            && (!call.phase.reply.Conflict? ==> call.phase.reply.id == found.value)
  {
    RunKeeps(steps);
    var s := After(steps);
    var call := s.calls[c];
    assert CallOk(c, call, s.log, Replay(s.log));
    LookupAgrees(s.rows, Replay(s.log), call.req);
    LoggedInLedger(s.log, Entry(c, call.req, call.phase.reply));
  }

  /** A slot once taken keeps its job and hash, and every entry agrees with it. */
  lemma {:induction false} LoggedInLedger(log: seq<Entry>, e: Entry)
    requires Atomic(log) && e in log
    ensures var l := Replay(log); var slot := Slot(e.req.owner, e.req.key);
            && slot in l
            && (e.reply.Conflict? <==> l[slot].hash != e.req.hash)
            && (!e.reply.Conflict? ==> e.reply.id == l[slot].id)
  {
    var n := |log| - 1;
    if e != log[n] {
      assert e in log[..n];
      LoggedInLedger(log[..n], e);
    }
  }

  /** The lookup after an IntegrityError always finds the job that got in the way. */
  lemma SecondLookupFinds(steps: seq<Step>, c: CallId)
    requires InPhase(After(steps), c, LookingAgain)
    ensures var s := After(steps); ByKey(s.rows, s.calls[c].req.owner, s.calls[c].req.key).Some?
  {
    RunKeeps(steps);
    var s := After(steps);
    assert CallOk(c, s.calls[c], s.log, Replay(s.log));
    LookupAgrees(s.rows, Replay(s.log), s.calls[c].req);
  }

  /**
   * Linearizability: the log is a history of indivisible submissions that the table agrees with;
   * every answered call is in it, once, with the reply that the caller got.
   */
  lemma Linearizable(steps: seq<Step>, c: CallId)
    requires c in After(steps).calls && After(steps).calls[c].phase.Answered?
    ensures var s := After(steps);
            && Atomic(s.log) && Agrees(s.rows, Replay(s.log))
            && (exists i :: 0 <= i < |s.log| && s.log[i] == Entry(c, s.calls[c].req, s.calls[c].phase.reply)
                  && forall k | 0 <= k < |s.log| && s.log[k].call == c :: k == i)
  {
    RunKeeps(steps);
    var s := After(steps);
    assert CallOk(c, s.calls[c], s.log, Replay(s.log));
    var i :| 0 <= i < |s.log| && s.log[i] == Entry(c, s.calls[c].req, s.calls[c].phase.reply);
  }

  /** The log only grows. */
  lemma {:induction false} LogExtends(steps: seq<Step>, n: nat)
    requires n <= |steps|
    ensures After(steps[..n]).log <= After(steps).log
    decreases |steps|
  {
    if n < |steps| {
      var p := steps[..|steps| - 1];
      assert p[..n] == steps[..n];
      LogExtends(p, n);
    } else {
      assert steps[..n] == steps;
    }
  }

  /** Real-time order: a call answered before another one starts comes first in the log. */
  lemma RealTimeOrder(steps: seq<Step>, n: nat, c: CallId, d: CallId, i: nat, k: nat)
    requires n <= |steps| && i < |After(steps).log| && k < |After(steps).log|
    requires var early := After(steps[..n]); c in early.calls && early.calls[c].phase.Answered? && d !in early.calls
    requires After(steps).log[i].call == c && After(steps).log[k].call == d
    ensures i < k
  {
    var early, s := After(steps[..n]), After(steps);
    RunKeeps(steps[..n]);
    RunKeeps(steps);
    LogExtends(steps, n);
    assert CallOk(c, early.calls[c], early.log, Replay(early.log));
    var at :| 0 <= at < |early.log| && early.log[at].call == c;
    assert s.log[at].call == c;
    assert forall x | 0 <= x < |early.log| :: s.log[x] == early.log[x] && early.log[x] in early.log;
  }
}
