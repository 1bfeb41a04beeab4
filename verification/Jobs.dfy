/**
 * The `jobs` table: one row per job, changed only by guarded UPDATEs.
 *
 * An UPDATE ... WHERE is an `Update` value: `Matches` is its WHERE clause, `Apply`
 * its SET clause, and `Commit` runs it on the table.  Both the interleaved machine
 * (Protocol.dfy) and the imperative layer (Backend.dfy) use these definitions.
 */
module Jobs {

  datatype Option<+T> = None | Some(value: T)

  type JobId = nat
  type Time = int
  type Json = string

  datatype Status = Scheduled | Pending | Processing | Completed | Failed | Cancelled
  datatype Priority = High | Normal | Low
  datatype JobType = Email | Webhook | Report | Batch

  datatype Row = Row(
    owner: Option<nat>,
    kind: JobType,
    status: Status,
    priority: Priority,
    attempts: nat,
    maxAttempts: int,
    createdAt: Time,
    startedAt: Option<Time>,
    completedAt: Option<Time>,
    scheduledAt: Option<Time>,
    synced: bool,
    progress: Option<int>,
    cancelRequestedAt: Option<Time>,
    result: Option<Json>,
    error: Option<Json>,
    key: Option<string>,
    hash: Option<string>)

  type Table = map<JobId, Row>

  /** Waiting to be claimed: the statuses that `claim_job` accepts. */
  predicate Waiting(st: Status) {
    st == Pending || st == Scheduled
  }

  predicate Terminal(st: Status) {
    st == Completed || st == Failed || st == Cancelled
  }

  datatype Update =
    | MarkSynced
    | Claim(now: Time)
    | Complete(now: Time, outcome: Json, pct: Option<int>)
    | Fail(now: Time, reason: Json)
    | RetryToPending
    | RetryToScheduled(at: Time)
    | ResetFailed
    | PromoteScheduled
    | WriteProgress(value: int)
    | CancelWaiting(now: Time)
    | RequestCancel(now: Time)
    | CancelRunning(now: Time, summary: Json)

  /** The WHERE clause of each statement, besides the id. */
  predicate Matches(u: Update, r: Row) {
    match u
    case MarkSynced => true
    case Claim(_) => Waiting(r.status)
    case ResetFailed => r.status == Failed && r.cancelRequestedAt.None?
    case PromoteScheduled => r.status == Scheduled
    case CancelWaiting(_) => Waiting(r.status)
    case _ => r.status == Processing
  }

  /** The SET clause of each statement. */
  function Apply(u: Update, r: Row): Row {
    match u
    case MarkSynced => r.(synced := true)
    case Claim(now) => r.(status := Processing, startedAt := Some(now))
    case Complete(now, outcome, pct) =>
      r.(status := Completed, result := Some(outcome), completedAt := Some(now),
         attempts := r.attempts + 1, progress := if pct.Some? then pct else r.progress)
    case Fail(now, reason) =>
      r.(status := Failed, error := Some(reason), completedAt := Some(now), attempts := r.attempts + 1)
    case RetryToPending =>
      r.(status := Pending, attempts := r.attempts + 1, synced := false, startedAt := None)
    case RetryToScheduled(at) =>
      r.(status := Scheduled, scheduledAt := Some(at), attempts := r.attempts + 1, synced := false,
         startedAt := None)
    case ResetFailed =>
      r.(status := Pending, attempts := 0, error := None, startedAt := None, completedAt := None,
         synced := false)
    case PromoteScheduled => r.(status := Pending)
    case WriteProgress(value) => r.(progress := Some(value))
    case CancelWaiting(now) => r.(status := Cancelled, completedAt := Some(now))
    case RequestCancel(now) => r.(cancelRequestedAt := Some(now))
    case CancelRunning(now, summary) =>
      r.(status := Cancelled, result := Some(summary), completedAt := Some(now))
  }

  /** `rowcount == 1`: the statement found a row whose guard holds. */
  predicate Wins(u: Update, rows: Table, j: JobId) {
    j in rows && Matches(u, rows[j])
  }

  /** One committed UPDATE. */
  function Commit(u: Update, rows: Table, j: JobId): Table {
    if Wins(u, rows, j) then rows[j := Apply(u, rows[j])] else rows
  }

  /** Several statements on one row, one after the other. */
  function Later(rows: Table, j: JobId, us: seq<Update>): Table
    decreases |us|
  {
    if us == [] then rows else Later(Commit(us[0], rows, j), j, us[1..])
  }

  lemma {:induction false} LaterKeepsJobs(rows: Table, j: JobId, us: seq<Update>)
    ensures Later(rows, j, us).Keys == rows.Keys
    ensures forall k | k in rows && k != j :: Later(rows, j, us)[k] == rows[k]
    decreases |us|
  {
    if us != [] { LaterKeepsJobs(Commit(us[0], rows, j), j, us[1..]); }
  }

  /** What a client submits; `scheduledAt` in the past means "now". */
  datatype Submission = Submission(
    owner: Option<nat>,
    kind: JobType,
    priority: Priority,
    scheduledAt: Option<Time>,
    key: Option<string>,
    hash: Option<string>)

  predicate Deferred(sub: Submission, now: Time) {
    sub.scheduledAt.Some? && sub.scheduledAt.value > now
  }

  /** The row that `_create_and_handoff` inserts; batch jobs get a single attempt. */
  function NewRow(sub: Submission, maxAttempts: int, now: Time): Row {
    var deferred := Deferred(sub, now);
    Row(sub.owner, sub.kind, if deferred then Scheduled else Pending, sub.priority, 0,
        if sub.kind == Batch then 1 else maxAttempts, now, None, None,
        if deferred then sub.scheduledAt else None, false, None, None, None, None, sub.key, sub.hash)
  }

  /** The pair the unique index is over. */
  predicate Stores(rows: Table, j: JobId, owner: nat, key: string) {
    j in rows && rows[j].owner == Some(owner) && rows[j].key == Some(key)
  }

  /** `get_by_idempotency_key`. */
  ghost function ByKey(rows: Table, owner: nat, key: string): Option<JobId> {
    if exists j :: Stores(rows, j, owner, key) then
      var j :| Stores(rows, j, owner, key);
      Some(j)
    else None
  }

  /** The shape every stored row has: which columns are null in which status. */
  predicate WellFormed(r: Row) {
    && (r.completedAt.Some? <==> Terminal(r.status))
    && (Waiting(r.status) ==> r.startedAt.None?)
    && (r.status == Processing ==> r.startedAt.Some?)
    && (r.status == Scheduled ==> r.scheduledAt.Some?)
    && (r.status == Completed ==> r.result.Some? && r.startedAt.Some?)
    && (r.status == Failed ==> r.error.Some? && r.startedAt.Some?)
  }

  /** Columns that no statement ever writes. */
  predicate SameIdentity(r: Row, r': Row) {
    && r'.owner == r.owner && r'.kind == r.kind && r'.priority == r.priority
    && r'.maxAttempts == r.maxAttempts && r'.createdAt == r.createdAt
    && r'.key == r.key && r'.hash == r.hash
  }

  /** The legal status changes, as the guards leave them. */
  predicate Edge(from: Status, to: Status) {
    match from
    case Scheduled => to == Pending || to == Processing || to == Cancelled
    case Pending => to == Processing || to == Cancelled
    case Processing => to == Pending || to == Scheduled || Terminal(to)
    case Failed => to == Pending
    case _ => false
  }

  /** Rows that nothing but `mark_synced` can touch again. */
  predicate Absorbed(r: Row) {
    || r.status == Completed
    || r.status == Cancelled
    || (r.status == Failed && r.cancelRequestedAt.Some?)
  }

  /** Every statement keeps the row shape, the identity columns and the status graph. */
  lemma UpdateKeepsShape(u: Update, r: Row)
    requires Matches(u, r) && WellFormed(r)
    ensures WellFormed(Apply(u, r))
    ensures SameIdentity(r, Apply(u, r))
    ensures Apply(u, r).status == r.status || Edge(r.status, Apply(u, r).status)
    ensures r.cancelRequestedAt.Some? ==> Apply(u, r).cancelRequestedAt.Some?
    ensures Absorbed(r) ==> Apply(u, r) == r.(synced := true)
    ensures match u
            case MarkSynced => Apply(u, r) == r.(synced := true)
            case Claim(_) => r.status in {Pending, Scheduled}
            case CancelWaiting(_) => r.status in {Pending, Scheduled}
            case PromoteScheduled => r.status == Scheduled
            case ResetFailed => r.status == Failed && r.cancelRequestedAt.None?
            case _ => r.status == Processing
  {
  }
}
