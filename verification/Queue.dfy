/**
 * Redis as the system uses it: one append-only stream per priority with the
 * consumer group's cursor, the group's pending-entries list (PEL), and one
 * sorted set of delayed jobs.  Each function is one Redis command.
 */
module Queue {
  import opened Jobs

  /** A message id: the stream's priority and the entry's position in it. */
  datatype Msg = Msg(prio: Priority, id: nat)

  /** `entries[next..]` is undelivered.  An entry without a valid job id is `None`. */
  datatype Stream = Stream(entries: seq<Option<JobId>>, next: nat)

  type Streams = m: map<Priority, Stream> | forall p: Priority :: p in m
    witness map p: Priority :: Stream([], 0)

  datatype Consumer = Worker(id: nat) | Reaper

  /** A delivered, un-acknowledged entry: who owns it and since when it is idle. */
  datatype Lease = Lease(owner: Consumer, since: Time)

  datatype Store = Store(rows: Table, streams: Streams, pel: map<Msg, Lease>, zset: map<JobId, Time>)

  const EMPTY_STREAMS: Streams := map p: Priority :: Stream([], 0)
  const EMPTY_STORE := Store(map[], EMPTY_STREAMS, map[], map[])

  predicate HasEntry(streams: Streams, m: Msg) {
    m.id < |streams[m.prio].entries|
  }

  /** The message was handed to a consumer at some point. */
  predicate Delivered(streams: Streams, m: Msg) {
    m.id < streams[m.prio].next <= |streams[m.prio].entries|
  }

  function EntryOf(streams: Streams, m: Msg): Option<JobId>
    requires HasEntry(streams, m)
  {
    streams[m.prio].entries[m.id]
  }

  function XAdd(streams: Streams, p: Priority, e: Option<JobId>): (r: Streams) {
    streams[p := Stream(streams[p].entries + [e], streams[p].next)]
  }

  /** The stream has an entry that the group has not delivered yet. */
  predicate Backlog(streams: Streams, p: Priority) {
    streams[p].next < |streams[p].entries|
  }

  /** XREADGROUP with `>` and COUNT 1: the head of the backlog moves into the PEL. */
  function Deliver(st: Store, p: Priority, c: Consumer, now: Time): Store
    requires Backlog(st.streams, p)
  {
    var s := st.streams[p];
    st.(streams := st.streams[p := s.(next := s.next + 1)], pel := st.pel[Msg(p, s.next) := Lease(c, now)])
  }

  function XAck(st: Store, m: Msg): Store {
    st.(pel := st.pel - {m})
  }

  function ZAdd(st: Store, j: JobId, score: Time): Store {
    st.(zset := st.zset[j := score])
  }

  function ZRem(st: Store, j: JobId): Store {
    st.(zset := st.zset - {j})
  }

  function OnRow(st: Store, u: Update, j: JobId): Store {
    st.(rows := Commit(u, st.rows, j))
  }

  /** Where a committed row is handed off to: its stream, or the delayed set. */
  datatype Target = ToStream(prio: Priority) | ToDelayed(score: Time)

  /** The Redis write of a handoff. */
  function WriteRedis(st: Store, j: JobId, t: Target): Store {
    match t
    case ToStream(p) => st.(streams := XAdd(st.streams, p, Some(j)))
    case ToDelayed(score) => ZAdd(st, j, score)
  }

  /** A whole handoff: Redis write, then `mark_synced`. */
  function HandOff(st: Store, j: JobId, t: Target): Store {
    OnRow(WriteRedis(st, j, t), MarkSynced, j)
  }

  /** Where the reaper hands off a waiting row. */
  function RowTarget(r: Row): Target {
    if r.status == Scheduled && r.scheduledAt.Some? then ToDelayed(r.scheduledAt.value) else ToStream(r.priority)
  }

  /** The reconciler skips a scheduled row without a due time. */
  predicate Skipped(r: Row) {
    r.status == Scheduled && r.scheduledAt.None?
  }

  /** The job has an undelivered message in the stream of its priority. */
  ghost predicate Queued(st: Store, j: JobId) {
    && j in st.rows
    && exists i :: UndeliveredAt(st.streams[st.rows[j].priority], i, j)
  }

  predicate UndeliveredAt(s: Stream, i: nat, j: JobId) {
    s.next <= i < |s.entries| && s.entries[i] == Some(j)
  }

  /** The group's cursor never passes the end of its stream, and the PEL holds delivered entries only. */
  ghost predicate StreamsOk(st: Store) {
    && (forall p: Priority :: st.streams[p].next <= |st.streams[p].entries|)
    && (forall m | m in st.pel :: Delivered(st.streams, m))
  }

  /** Entries and delayed members name stored jobs, and every entry sits in its job's stream. */
  ghost predicate PointersOk(st: Store) {
    && (forall m: Msg | HasEntry(st.streams, m) && EntryOf(st.streams, m).Some? ::
          && EntryOf(st.streams, m).value in st.rows
          && st.rows[EntryOf(st.streams, m).value].priority == m.prio)
    && (forall j | j in st.zset :: j in st.rows)
  }
}
