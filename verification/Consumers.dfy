/** app/queue/consumer.py: strict-priority reads, while others write and read the streams too. */
module Consumers {
  import opened Jobs
  import opened Queue
  import opened Order
  import opened Backend

  /** What other processes do to the streams between two commands of this reader. */
  datatype Event =
    | Arrives(prio: Priority, entry: Option<JobId>)
    | OtherReads(prio: Priority, reader: Consumer, at: Time, count: nat)

  /** Redis alone; the table plays no part here. */
  ghost function Keyspace(redis: Redis): Store
    reads redis
  {
    Store(map[], redis.streams, redis.pel, redis.zset)
  }

  /** XREADGROUP of one stream. */
  function Read(st: Store, p: Priority, c: Consumer, now: Time, count: nat): Store {
    var got := Prefix(Undelivered(st.streams, p), count);
    st.(streams := Advance(st.streams, p, |got|), pel := Leased(st.pel, got, Lease(c, now)))
  }

  function Happens(st: Store, e: Event): Store {
    match e
    case Arrives(p, entry) => st.(streams := XAdd(st.streams, p, entry))
    case OtherReads(p, c, now, count) => Read(st, p, c, now, count)
  }

  function After(st: Store, events: seq<Event>): Store
    decreases |events|
  {
    if events == [] then st else After(Happens(st, events[0]), events[1..])
  }

  /** Redis as the `k`-th command finds it, when the commands before it read nothing. */
  function SeenBy(st: Store, gaps: seq<seq<Event>>, k: nat): Store
    requires k < |gaps|
  {
    After(if k == 0 then st else SeenBy(st, gaps, k - 1), gaps[k])
  }

  datatype Reading = Reading(msgs: seq<Msg>, end: Store)

  /** One XREADGROUP over several streams: up to `count` entries of each, in the order of the request. */
  function ReadAll(st: Store, ps: seq<Priority>, c: Consumer, now: Time, count: nat): Reading
    decreases |ps|
  {
    if ps == [] then Reading([], st)
    else
      var rest := ReadAll(Read(st, ps[0], c, now, count), ps[1..], c, now, count);
      Reading(Prefix(Undelivered(st.streams, ps[0]), count) + rest.msgs, rest.end)
  }

  predicate AllEmpty(streams: Streams, ps: seq<Priority>) {
    forall p | p in ps :: !Backlog(streams, p)
  }

  /** Where a blocked read wakes up: as soon as one stream has an entry, or at the timeout. */
  function WakesAt(st: Store, ps: seq<Priority>, waiting: seq<Event>): Store
    decreases |waiting|
  {
    if waiting == [] || !AllEmpty(st.streams, ps) then st else WakesAt(Happens(st, waiting[0]), ps, waiting[1..])
  }

  /** It wakes up after the first `n` events: all streams were empty until then, and one has an entry now, unless it timed out. */
  predicate Wakes(st: Store, ps: seq<Priority>, waiting: seq<Event>, n: nat)
    requires n <= |waiting|
  {
    && (forall i | 0 <= i < n :: AllEmpty(After(st, waiting[..i]).streams, ps))
    && (n < |waiting| ==> exists p :: p in ps && Backlog(After(st, waiting[..n]).streams, p))
  }

  lemma AfterFirst(st: Store, events: seq<Event>, i: nat)
    requires 1 <= i <= |events|
    ensures After(st, events[..i]) == After(Happens(st, events[0]), events[1..][..i - 1])
  {
    assert events[..i][1..] == events[1..][..i - 1];
  }

  lemma {:induction false} WakesAtFirst(st: Store, ps: seq<Priority>, waiting: seq<Event>) returns (n: nat)
    ensures n <= |waiting| && Wakes(st, ps, waiting, n) && WakesAt(st, ps, waiting) == After(st, waiting[..n])
    decreases |waiting|
  {
    assert waiting[..0] == [];
    if waiting == [] || !AllEmpty(st.streams, ps) {
      n := 0;
    } else {
      var k := WakesAtFirst(Happens(st, waiting[0]), ps, waiting[1..]);
      n := k + 1;
      AfterFirst(st, waiting, n);
      forall i | 0 <= i < n
        ensures AllEmpty(After(st, waiting[..i]).streams, ps)
      {
        if i > 0 { AfterFirst(st, waiting, i); }
      }
    }
  }

  lemma ReadNothing(st: Store, p: Priority, c: Consumer, now: Time, count: nat)
    requires !Backlog(st.streams, p)
    ensures Read(st, p, c, now, count) == st && Undelivered(st.streams, p) == []
  {
    LeasedOneMore(st.pel, [], Msg(p, 0), Lease(c, now));
    AdvanceTwice(st.streams, p, 0, 0);
  }

  method Disturb(redis: Redis, events: seq<Event>)
    modifies redis
    ensures Keyspace(redis) == After(old(Keyspace(redis)), events)
  {
    for i := 0 to |events|
      invariant After(Keyspace(redis), events[i..]) == After(old(Keyspace(redis)), events)
    {
      assert events[i..][1..] == events[i + 1..];
      match events[i]
      case Arrives(p, entry) => redis.Add(p, entry);
      case OtherReads(p, c, now, count) => var _ := redis.ReadGroup(p, c, now, count);
    }
  }

  method ReadEach(redis: Redis, ps: seq<Priority>, c: Consumer, now: Time, count: nat) returns (got: seq<Msg>)
    modifies redis
    ensures Reading(got, Keyspace(redis)) == ReadAll(old(Keyspace(redis)), ps, c, now, count)
    decreases |ps|
  {
    if ps == [] { return []; }
    var first := redis.ReadGroup(ps[0], c, now, count);
    var rest := ReadEach(redis, ps[1..], c, now, count);
    got := first + rest;
  }

  /** XREADGROUP with several streams and BLOCK. */
  method ReadBlocking(redis: Redis, ps: seq<Priority>, c: Consumer, now: Time, count: nat, waiting: seq<Event>)
      returns (got: seq<Msg>)
    modifies redis
    ensures Reading(got, Keyspace(redis)) == ReadAll(WakesAt(old(Keyspace(redis)), ps, waiting), ps, c, now, count)
  {
    var i := 0;
    assert waiting[0..] == waiting;
    while i < |waiting| && AllEmpty(redis.streams, ps)
      invariant i <= |waiting|
      invariant WakesAt(Keyspace(redis), ps, waiting[i..]) == WakesAt(old(Keyspace(redis)), ps, waiting)
    {
      assert waiting[i..][1..] == waiting[i + 1..];
      Disturb(redis, [waiting[i]]);
      i := i + 1;
    }
    got := ReadEach(redis, ps, c, now, count);
  }

  /** A non-blocking probe after some disturbance. */
  method Probe(redis: Redis, p: Priority, c: Consumer, now: Time, count: nat, gap: seq<Event>) returns (got: seq<Msg>)
    requires count >= 1
    modifies redis
    ensures var st := After(old(Keyspace(redis)), gap);
            && got == Prefix(Undelivered(st.streams, p), count)
            && (got == [] <==> !Backlog(st.streams, p))
            && Keyspace(redis) == if got == [] then st else Read(st, p, c, now, count)
  {
    Disturb(redis, gap);
    if !Backlog(redis.streams, p) { ReadNothing(Keyspace(redis), p, c, now, count); }
    got := redis.ReadGroup(p, c, now, count);
  }

  /** The probes one after the other, then the blocking read. */
  function Reads(st: Store, ps: seq<Priority>, all: seq<Priority>, c: Consumer, now: Time, count: nat,
                 gaps: seq<seq<Event>>, waiting: seq<Event>): Reading
    requires |gaps| == |ps| + 1
    decreases |ps|
  {
    var st1 := After(st, gaps[0]);
    if ps == [] then ReadAll(WakesAt(st1, all, waiting), all, c, now, count)
    else if Backlog(st1.streams, ps[0]) then
      Reading(Prefix(Undelivered(st1.streams, ps[0]), count), Read(st1, ps[0], c, now, count))
    else Reads(st1, ps[1..], all, c, now, count, gaps[1..], waiting)
  }

  /** `read_priority`: probe each stream, highest first; block on all of them when every probe found nothing. */
  method ReadPriority(redis: Redis, ps: seq<Priority>, c: Consumer, now: Time, count: nat,
                      gaps: seq<seq<Event>>, waiting: seq<Event>) returns (got: seq<Msg>)
    requires count >= 1 && |gaps| == |ps| + 1
    modifies redis
    ensures Reading(got, Keyspace(redis)) == Reads(old(Keyspace(redis)), ps, ps, c, now, count, gaps, waiting)
  {
    ghost var st := Keyspace(redis);
    assert ps[0..] == ps && gaps[0..] == gaps;
    for i := 0 to |ps|
      invariant Reads(Keyspace(redis), ps[i..], ps, c, now, count, gaps[i..], waiting)
             == Reads(st, ps, ps, c, now, count, gaps, waiting)
    {
      assert ps[i..][1..] == ps[i + 1..] && gaps[i..][1..] == gaps[i + 1..];
      got := Probe(redis, ps[i], c, now, count, gaps[i]);
      if got != [] { return; }
    }
    Disturb(redis, gaps[|ps|]);
    got := ReadBlocking(redis, ps, c, now, count, waiting);
  }

  lemma {:induction false} SeenLater(st: Store, gaps: seq<seq<Event>>, k: nat)
    requires k + 1 < |gaps|
    ensures SeenBy(st, gaps, k + 1) == SeenBy(After(st, gaps[0]), gaps[1..], k)
  {
    if k > 0 { SeenLater(st, gaps, k - 1); }
  }

  /** The first `k` probes found nothing. */
  predicate Quiet(st: Store, ps: seq<Priority>, gaps: seq<seq<Event>>, k: nat)
    requires k <= |ps| < |gaps|
  {
    forall i | 0 <= i < k :: !Backlog(SeenBy(st, gaps, i).streams, ps[i])
  }

  lemma QuietLater(st: Store, ps: seq<Priority>, gaps: seq<seq<Event>>, k: nat)
    requires k < |ps| < |gaps| && Quiet(st, ps, gaps, k + 1)
    ensures !Backlog(After(st, gaps[0]).streams, ps[0]) && Quiet(After(st, gaps[0]), ps[1..], gaps[1..], k)
  {
    assert !Backlog(SeenBy(st, gaps, 0).streams, ps[0]);
    forall i | 0 <= i < k
      ensures !Backlog(SeenBy(After(st, gaps[0]), gaps[1..], i).streams, ps[1..][i])
    {
      SeenLater(st, gaps, i);
      assert !Backlog(SeenBy(st, gaps, i + 1).streams, ps[i + 1]);
    }
  }

  /** What the read returns when the first `k` probes found nothing and redis then is `seen`. */
  predicate Returns(seen: Store, ps: seq<Priority>, all: seq<Priority>, c: Consumer, now: Time, count: nat,
                    waiting: seq<Event>, k: nat, r: Reading)
    requires k <= |ps|
  {
    if k == |ps| then r == ReadAll(WakesAt(seen, all, waiting), all, c, now, count)
    else Backlog(seen.streams, ps[k]) ==>
      r == Reading(Prefix(Undelivered(seen.streams, ps[k]), count), Read(seen, ps[k], c, now, count))
  }

  /**
   * Strict priority: the entries come from the first probe that found its stream non-empty, so
   * every higher stream was empty when probed; only when all were does the blocking read decide.
   */
  lemma {:induction false} StrictPriority(st: Store, ps: seq<Priority>, all: seq<Priority>, c: Consumer, now: Time,
                                          count: nat, gaps: seq<seq<Event>>, waiting: seq<Event>, k: nat)
    requires |gaps| == |ps| + 1 && k <= |ps| && Quiet(st, ps, gaps, k)
    ensures Returns(SeenBy(st, gaps, k), ps, all, c, now, count, waiting, k,
                    Reads(st, ps, all, c, now, count, gaps, waiting))
    decreases k
  {
    if k == 0 {
      FirstProbe(st, ps, all, c, now, count, gaps, waiting);
    } else {
      QuietLater(st, ps, gaps, k - 1);
      SeenLater(st, gaps, k - 1);
      StrictPriority(After(st, gaps[0]), ps[1..], all, c, now, count, gaps[1..], waiting, k - 1);
      ReadsLater(st, ps, all, c, now, count, gaps, waiting);
    }
  }

  lemma FirstProbe(st: Store, ps: seq<Priority>, all: seq<Priority>, c: Consumer, now: Time, count: nat,
                   gaps: seq<seq<Event>>, waiting: seq<Event>)
    requires |gaps| == |ps| + 1
    ensures Returns(SeenBy(st, gaps, 0), ps, all, c, now, count, waiting, 0, Reads(st, ps, all, c, now, count, gaps, waiting))
  {
  }

  lemma ReadsLater(st: Store, ps: seq<Priority>, all: seq<Priority>, c: Consumer, now: Time, count: nat,
                   gaps: seq<seq<Event>>, waiting: seq<Event>)
    requires |gaps| == |ps| + 1 && ps != [] && !Backlog(After(st, gaps[0]).streams, ps[0])
    ensures Reads(st, ps, all, c, now, count, gaps, waiting)
         == Reads(After(st, gaps[0]), ps[1..], all, c, now, count, gaps[1..], waiting)
  {
  }

  // ----- draining a backlog -----

  predicate Distinct<T(==)>(s: seq<T>) {
    forall i, k | 0 <= i < k < |s| :: s[i] != s[k]
  }

  /** The whole backlog, stream after stream. */
  function Rest(streams: Streams, ps: seq<Priority>): seq<Msg>
    decreases |ps|
  {
    if ps == [] then [] else Undelivered(streams, ps[0]) + Rest(streams, ps[1..])
  }

  lemma {:induction false} RangeExact(p: Priority, lo: nat, hi: nat, m: Msg)
    ensures m in Range(p, lo, hi) <==> m.prio == p && lo <= m.id < hi
    decreases hi - lo
  {
    if lo < hi { RangeExact(p, lo + 1, hi, m); }
  }

  /** The backlog lists every undelivered entry of every stream, and nothing else. */
  lemma {:induction false} RestExact(streams: Streams, ps: seq<Priority>, m: Msg)
    ensures m in Rest(streams, ps) <==> m.prio in ps && streams[m.prio].next <= m.id < |streams[m.prio].entries|
    decreases |ps|
  {
    if ps != [] {
      RangeExact(ps[0], streams[ps[0]].next, |streams[ps[0]].entries|, m);
      RestExact(streams, ps[1..], m);
    }
  }

  /** Where a stream stands in the list. */
  function Place(ps: seq<Priority>, p: Priority): nat {
    if ps == [] || ps[0] == p then 0 else 1 + Place(ps[1..], p)
  }

  /** An earlier stream of the list, or the same stream and XADDed before. */
  predicate Before(ps: seq<Priority>, m: Msg, n: Msg) {
    Place(ps, m.prio) < Place(ps, n.prio) || (m.prio == n.prio && m.id < n.id)
  }

  lemma {:induction false} RangeAt(p: Priority, lo: nat, hi: nat, i: nat)
    requires i < |Range(p, lo, hi)|
    ensures Range(p, lo, hi)[i] == Msg(p, lo + i)
    decreases hi - lo
  {
    if i > 0 { RangeAt(p, lo + 1, hi, i - 1); }
  }

  /** The backlog is in order: stream by stream as listed, in XADD order inside a stream; so no entry comes twice. */
  lemma {:induction false} RestInOrder(streams: Streams, ps: seq<Priority>, i: nat, k: nat)
    requires Distinct(ps) && i < k < |Rest(streams, ps)|
    ensures Before(ps, Rest(streams, ps)[i], Rest(streams, ps)[k]) && Rest(streams, ps)[i] != Rest(streams, ps)[k]
    decreases |ps|
  {
    var first, rest := Undelivered(streams, ps[0]), Rest(streams, ps[1..]);
    var n := |first|;
    var s := streams[ps[0]];
    assert Rest(streams, ps) == first + rest;
    if i < n { RangeAt(ps[0], s.next, |s.entries|, i); }
    if k < n {
      RangeAt(ps[0], s.next, |s.entries|, k);
    } else {
      RestExact(streams, ps[1..], rest[k - n]);
      if i >= n {
        RestInOrder(streams, ps[1..], i - n, k - n);
        RestExact(streams, ps[1..], rest[i - n]);
      }
    }
  }

  /** No other process does anything. */
  function Calm(n: nat): (gaps: seq<seq<Event>>)
    ensures |gaps| == n
  {
    if n == 0 then [] else [[]] + Calm(n - 1)
  }

  lemma {:induction false} RestElsewhere(streams: Streams, p: Priority, n: nat, ps: seq<Priority>)
    requires p !in ps
    ensures Rest(Advance(streams, p, n), ps) == Rest(streams, ps)
    decreases |ps|
  {
    if ps != [] { RestElsewhere(streams, p, n, ps[1..]); }
  }

  /** A single-entry read of a busy stream takes the head of its backlog. */
  lemma ReadOne(st: Store, p: Priority, c: Consumer, now: Time)
    requires Backlog(st.streams, p)
    ensures var all := Undelivered(st.streams, p);
            && Prefix(all, 1) == [all[0]] && Undelivered(Read(st, p, c, now, 1).streams, p) == all[1..]
            && Read(st, p, c, now, 1).pel == st.pel[all[0] := Lease(c, now)]
            && Read(st, p, c, now, 1).streams == Advance(st.streams, p, 1)
  {
    var all := Undelivered(st.streams, p);
    LeasedOneMore(st.pel, [], all[0], Lease(c, now));
    assert [] + [all[0]] == [all[0]];
  }

  /** One undisturbed read takes the head of the whole backlog. */
  lemma {:induction false} CalmRead(st: Store, ps: seq<Priority>, all: seq<Priority>, c: Consumer, now: Time)
    requires Distinct(ps) && Rest(st.streams, ps) != []
    ensures var r := Reads(st, ps, all, c, now, 1, Calm(|ps| + 1), []); var rest := Rest(st.streams, ps);
            && r.msgs == [rest[0]] && Rest(r.end.streams, ps) == rest[1..]
            && r.end.pel == st.pel[rest[0] := Lease(c, now)] && r.end.zset == st.zset
            && (forall p | p !in ps :: r.end.streams[p] == st.streams[p])
    decreases |ps|
  {
    assert Calm(|ps| + 1)[1..] == Calm(|ps|);
    if Backlog(st.streams, ps[0]) {
      ReadOne(st, ps[0], c, now);
      RestElsewhere(st.streams, ps[0], 1, ps[1..]);
    } else {
      ReadNothing(st, ps[0], c, now, 1);
      CalmRead(st, ps[1..], all, c, now);
    }
  }

  /** With no backlog an undisturbed read times out and changes nothing. */
  lemma {:induction false} CalmTimeout(st: Store, ps: seq<Priority>, all: seq<Priority>, c: Consumer, now: Time)
    requires Rest(st.streams, ps) == [] && Rest(st.streams, all) == []
    ensures Reads(st, ps, all, c, now, 1, Calm(|ps| + 1), []) == Reading([], st)
    decreases |ps|
  {
    assert Calm(|ps| + 1)[1..] == Calm(|ps|);
    if ps == [] { ReadAllNothing(st, all, c, now, 1); } else { CalmTimeout(st, ps[1..], all, c, now); }
  }

  lemma {:induction false} ReadAllNothing(st: Store, ps: seq<Priority>, c: Consumer, now: Time, count: nat)
    requires Rest(st.streams, ps) == []
    ensures ReadAll(st, ps, c, now, count) == Reading([], st)
    decreases |ps|
  {
    if ps != [] {
      ReadNothing(st, ps[0], c, now, count);
      ReadAllNothing(st, ps[1..], c, now, count);
    }
  }

  method ReadCalm(redis: Redis, ps: seq<Priority>, c: Consumer, now: Time) returns (got: seq<Msg>)
    requires Distinct(ps)
    modifies redis
    ensures var rest := Rest(old(redis.streams), ps);
            if rest == [] then got == [] && Keyspace(redis) == old(Keyspace(redis))
            else
              && got == [rest[0]] && Rest(redis.streams, ps) == rest[1..]
              && redis.pel == old(redis.pel)[rest[0] := Lease(c, now)] && redis.zset == old(redis.zset)
  {
    if Rest(redis.streams, ps) == [] {
      CalmTimeout(Keyspace(redis), ps, ps, c, now);
    } else {
      CalmRead(Keyspace(redis), ps, ps, c, now);
    }
    got := ReadPriority(redis, ps, c, now, 1, Calm(|ps| + 1), []);
  }

  /**
   * Reading until nothing comes back delivers the whole backlog: each entry once, all of the
   * higher streams before any of the lower ones, in XADD order inside a stream.
   */
  method Drain(redis: Redis, ps: seq<Priority>, c: Consumer, now: Time) returns (log: seq<Msg>)
    requires Distinct(ps)
    modifies redis
    ensures log == Rest(old(redis.streams), ps) && Rest(redis.streams, ps) == []
    ensures forall i, k | 0 <= i < k < |log| :: Before(ps, log[i], log[k])
    ensures redis.pel == Leased(old(redis.pel), log, Lease(c, now)) && redis.zset == old(redis.zset)
  {
    log := [];
    ghost var all := Rest(redis.streams, ps);
    LeasedOneMore(redis.pel, [], Msg(High, 0), Lease(c, now));
    var more := true;
    while more
      invariant log + Rest(redis.streams, ps) == all
      invariant !more ==> Rest(redis.streams, ps) == []
      invariant redis.pel == Leased(old(redis.pel), log, Lease(c, now)) && redis.zset == old(redis.zset)
      decreases |Rest(redis.streams, ps)|, more
    {
      if Rest(redis.streams, ps) != [] {
        LeasedOneMore(old(redis.pel), log, Rest(redis.streams, ps)[0], Lease(c, now));
      }
      var got := ReadCalm(redis, ps, c, now);
      log := log + got;
      more := got != [];
    }
    forall i, k | 0 <= i < k < |log|
      ensures Before(ps, log[i], log[k])
    {
      RestInOrder(old(redis.streams), ps, i, k);
    }
  }

  /** The streams that have something to deliver. */
  function Busy(streams: Streams, ps: seq<Priority>): nat {
    if ps == [] then 0 else (if Backlog(streams, ps[0]) then 1 else 0) + Busy(streams, ps[1..])
  }

  lemma {:induction false} BusyElsewhere(streams: Streams, p: Priority, n: nat, ps: seq<Priority>)
    requires p !in ps
    ensures Busy(Advance(streams, p, n), ps) == Busy(streams, ps)
  {
    if ps != [] { BusyElsewhere(streams, p, n, ps[1..]); }
  }

  /**
   * A blocking read with COUNT 1 hands over one entry per busy stream, so several when more than
   * one stream has a backlog; the worker takes the first and leaves the others in the PEL.
   */
  lemma {:induction false} BlockingReadMayTakeSeveral(st: Store, ps: seq<Priority>, c: Consumer, now: Time)
    requires Distinct(ps)
    ensures |ReadAll(st, ps, c, now, 1).msgs| == Busy(st.streams, ps)
    decreases |ps|
  {
    if ps != [] {
      BlockingReadMayTakeSeveral(Read(st, ps[0], c, now, 1), ps[1..], c, now);
      if Backlog(st.streams, ps[0]) {
        ReadOne(st, ps[0], c, now);
        BusyElsewhere(st.streams, ps[0], 1, ps[1..]);
      } else {
        ReadNothing(st, ps[0], c, now, 1);
      }
    }
  }

  /** A blocking read returns undelivered entries of the listed streams only. */
  lemma {:induction false} BlockingReadFrom(st: Store, ps: seq<Priority>, c: Consumer, now: Time, count: nat, m: Msg)
    requires Distinct(ps) && m in ReadAll(st, ps, c, now, count).msgs
    ensures m.prio in ps && st.streams[m.prio].next <= m.id < |st.streams[m.prio].entries|
    decreases |ps|
  {
    var head := Prefix(Undelivered(st.streams, ps[0]), count);
    if m in head {
      RangeExact(ps[0], st.streams[ps[0]].next, |st.streams[ps[0]].entries|, m);
    } else {
      BlockingReadFrom(Read(st, ps[0], c, now, count), ps[1..], c, now, count, m);
    }
  }

  lemma FirstBefore(ps: seq<Priority>, m: Msg, n: Msg)
    requires Distinct(ps) && ps != [] && m.prio == ps[0] && n.prio in ps[1..]
    ensures Before(ps, m, n)
  {
  }

  lemma BeforeLater(ps: seq<Priority>, m: Msg, n: Msg)
    requires Distinct(ps) && ps != [] && m.prio in ps[1..] && n.prio in ps[1..] && Before(ps[1..], m, n)
    ensures Before(ps, m, n)
  {
  }

  ghost predicate InOrder(ps: seq<Priority>, ms: seq<Msg>) {
    forall i, k | 0 <= i < k < |ms| :: Before(ps, ms[i], ms[k])
  }

  /** Entries of one stream, oldest first. */
  ghost predicate OfStream(p: Priority, ms: seq<Msg>) {
    && (forall m | m in ms :: m.prio == p)
    && (forall i, k | 0 <= i < k < |ms| :: ms[i].id < ms[k].id)
  }

  /** Entries of the head stream followed by ordered entries of the later ones. */
  lemma JoinInOrder(ps: seq<Priority>, head: seq<Msg>, rest: seq<Msg>)
    requires Distinct(ps) && ps != [] && OfStream(ps[0], head) && InOrder(ps[1..], rest)
    requires forall m | m in rest :: m.prio in ps[1..]
    ensures InOrder(ps, head + rest)
  {
    forall i, k | 0 <= i < k < |head + rest|
      ensures Before(ps, (head + rest)[i], (head + rest)[k])
    {
      if i < |head| <= k {
        FirstBefore(ps, head[i], rest[k - |head|]);
      } else if i >= |head| {
        BeforeLater(ps, rest[i - |head|], rest[k - |head|]);
      }
    }
  }

  /** What the read of one stream returns comes from that stream, oldest first. */
  lemma ReadInOrder(streams: Streams, p: Priority, count: nat)
    ensures OfStream(p, Prefix(Undelivered(streams, p), count))
  {
    var s, got := streams[p], Prefix(Undelivered(streams, p), count);
    forall i | 0 <= i < |got|
      ensures got[i] == Msg(p, s.next + i)
    {
      RangeAt(p, s.next, |s.entries|, i);
    }
  }

  lemma RestFrom(st: Store, ps: seq<Priority>, c: Consumer, now: Time, count: nat)
    requires Distinct(ps)
    ensures forall m | m in ReadAll(st, ps, c, now, count).msgs :: m.prio in ps
  {
    forall m | m in ReadAll(st, ps, c, now, count).msgs
      ensures m.prio in ps
    {
      BlockingReadFrom(st, ps, c, now, count, m);
    }
  }

  /** ... in the order of the streams, and oldest first inside a stream. */
  lemma {:induction false} BlockingReadInOrder(st: Store, ps: seq<Priority>, c: Consumer, now: Time, count: nat)
    requires Distinct(ps)
    ensures InOrder(ps, ReadAll(st, ps, c, now, count).msgs)
    decreases |ps|
  {
    if ps != [] {
      var st1 := Read(st, ps[0], c, now, count);
      ReadInOrder(st.streams, ps[0], count);
      RestFrom(st1, ps[1..], c, now, count);
      BlockingReadInOrder(st1, ps[1..], c, now, count);
      JoinInOrder(ps, Prefix(Undelivered(st.streams, ps[0]), count), ReadAll(st1, ps[1..], c, now, count).msgs);
    }
  }

  /** `m` is the oldest undelivered entry of its stream, and every stream listed before that one is empty. */
  ghost predicate IsHead(streams: Streams, ps: seq<Priority>, m: Msg) {
    && m.prio in ps && m.id == streams[m.prio].next && Backlog(streams, m.prio)
    && forall p | p in ps && Place(ps, p) < Place(ps, m.prio) :: !Backlog(streams, p)
  }

  lemma BusyHead(st: Store, ps: seq<Priority>, c: Consumer, now: Time, count: nat)
    requires ps != [] && count >= 1 && Backlog(st.streams, ps[0])
    ensures var got := ReadAll(st, ps, c, now, count).msgs; got != [] && IsHead(st.streams, ps, got[0])
  {
    assert ReadAll(st, ps, c, now, count).msgs[0] == Msg(ps[0], st.streams[ps[0]].next);
  }

  lemma LaterHead(streams: Streams, ps: seq<Priority>, m: Msg)
    requires ps != [] && !Backlog(streams, ps[0]) && IsHead(streams, ps[1..], m)
    ensures IsHead(streams, ps, m)
  {
    forall p | p in ps && Place(ps, p) < Place(ps, m.prio)
      ensures !Backlog(streams, p)
    {
      if p != ps[0] { assert p in ps[1..] && Place(ps[1..], p) < Place(ps[1..], m.prio); }
    }
  }

  /**
   * The entry that the worker keeps of a blocking read is the oldest undelivered one of the highest
   * stream that has any; the read returns nothing exactly when none has.
   */
  lemma {:induction false} BlockingReadHead(st: Store, ps: seq<Priority>, c: Consumer, now: Time, count: nat)
    requires Distinct(ps) && count >= 1
    ensures var got := ReadAll(st, ps, c, now, count).msgs;
            && (got == [] <==> AllEmpty(st.streams, ps))
            && (got != [] ==> IsHead(st.streams, ps, got[0]))
    decreases |ps|
  {
    if ps != [] {
      if Backlog(st.streams, ps[0]) {
        BusyHead(st, ps, c, now, count);
      } else {
        ReadNothing(st, ps[0], c, now, count);
        BlockingReadHead(st, ps[1..], c, now, count);
        var got := ReadAll(st, ps[1..], c, now, count).msgs;
        assert ReadAll(st, ps, c, now, count).msgs == [] + got == got;
        if got != [] { LaterHead(st.streams, ps, got[0]); }
        assert forall p :: p in ps <==> p == ps[0] || p in ps[1..];
      }
    }
  }
}
