/** app/worker/context.py and handle_batch of app/jobs/handlers.py: a batch under throttled cancellation. */
module Batches {
  import opened Jobs
  import opened Order

  /** What a poll can see of the job's row. */
  datatype View = View(processing: bool, cancelRequested: bool)

  /** The row as it changes over time, at the hands of everybody else. */
  type History = real -> View

  /** Seen at this instant, the row tells the handler to stop. */
  predicate Stops(v: View) {
    !v.processing || v.cancelRequested
  }

  /** From `at` on every look at the row says stop: the cancel flag is never cleared. */
  ghost predicate StoppedFrom(row: History, at: real) {
    forall t: real | t >= at :: Stops(row(t))
  }

  /**
   * One check: the look at the clock and, when a poll follows it, the instants at which the poll
   * reaches the database and at which its reply is back.
   */
  datatype Tick = Tick(now: real, readAt: real, replyAt: real)

  datatype Poll = Poll(tick: Tick, wrote: Option<int>)

  /** The progress values written, oldest first. */
  ghost function Writes(polls: seq<Poll>): seq<int> {
    if polls == [] then []
    else
      var last := polls[|polls| - 1];
      Writes(polls[..|polls| - 1]) + if last.wrote.Some? then [last.wrote.value] else []
  }

  lemma WritesMore(polls: seq<Poll>, poll: Poll)
    ensures Writes(polls + [poll]) == Writes(polls) + if poll.wrote.Some? then [poll.wrote.value] else []
  {
    assert (polls + [poll])[..|polls|] == polls;
  }

  ghost predicate Throttled(polls: seq<Poll>, interval: real) {
    forall i, k | 0 <= i && k == i + 1 && k < |polls| :: polls[k].tick.now - polls[i].tick.now >= interval
  }

  ghost predicate AdjacentDiffer(s: seq<int>) {
    forall i, k | 0 <= i && k == i + 1 && k < |s| :: s[i] != s[k]
  }

  /** The last instant polled and the last value written are those of the history, which keeps the throttle. */
  ghost predicate Kept(polls: seq<Poll>, interval: real, lastPoll: Option<real>, lastWritten: Option<int>) {
    && lastPoll == (if polls == [] then None else Some(polls[|polls| - 1].tick.now))
    && lastWritten == (if Writes(polls) == [] then None else Some(Writes(polls)[|Writes(polls)| - 1]))
    && Throttled(polls, interval) && AdjacentDiffer(Writes(polls))
  }

  /** One poll more, not too early, that writes the progress if that changed. */
  lemma KeptMore(polls: seq<Poll>, interval: real, lastPoll: Option<real>, lastWritten: Option<int>, tick: Tick, pct: int)
    requires Kept(polls, interval, lastPoll, lastWritten)
    requires lastPoll.None? || tick.now - lastPoll.value >= interval
    ensures var poll := Poll(tick, if lastWritten != Some(pct) then Some(pct) else None);
            Kept(polls + [poll], interval, Some(tick.now), Some(pct))
  {
    WritesMore(polls, Poll(tick, if lastWritten != Some(pct) then Some(pct) else None));
  }

  class JobContext {
    const interval: real
    var pendingPct: int
    var lastWritten: Option<int>
    var lastPoll: Option<real>
    var cached: bool
    ghost var polls: seq<Poll>

    constructor (interval: real)
      ensures this.interval == interval && polls == [] && pendingPct == 0 && !cached
      ensures Valid()
    {
      this.interval := interval;
      pendingPct, lastWritten, lastPoll, cached, polls := 0, None, None, false, [];
    }

    /** The fields remember the last poll and the last write; the history keeps the throttle. */
    ghost predicate Valid()
      reads this
    {
      Kept(polls, interval, lastPoll, lastWritten)
    }

    predicate Due(now: real)
      reads this
    {
      lastPoll.None? || now - lastPoll.value >= interval
    }

    method SetProgress(pct: int)
      requires Valid()
      modifies this`pendingPct
      ensures Valid() && pendingPct == pct
    {
      pendingPct := pct;
    }

    /**
     * `cancelled`: at most one statement per interval; it writes the progress if that changed and
     * reads the cancel flag either way.  Between polls the last answer is repeated.
     */
    method Cancelled(row: History, tick: Tick) returns (r: bool)
      requires Valid()
      modifies this`lastWritten, this`lastPoll, this`cached, this`polls
      ensures Valid() && r == cached
      ensures if old(lastPoll).None? || tick.now - old(lastPoll).value >= interval then
                && r == (!row(tick.readAt).processing || row(tick.readAt).cancelRequested)
                && polls == old(polls) + [Poll(tick, if old(lastWritten) != Some(pendingPct) then Some(pendingPct) else None)]
                && Writes(polls) != [] && Writes(polls)[|Writes(polls)| - 1] == pendingPct
              else r == old(cached) && polls == old(polls)
    {
      if Due(tick.now) {
        var view := row(tick.readAt);
        var wrote := None;
        if lastWritten != Some(pendingPct) {
          wrote := Some(pendingPct);
          lastWritten := Some(pendingPct);
        }
        cached := view.cancelRequested || !view.processing;
        lastPoll := Some(tick.now);
        KeptMore(polls, interval, old(lastPoll), old(lastWritten), tick, pendingPct);
        polls := polls + [Poll(tick, wrote)];
      }
      r := cached;
    }
  }

  // ----- the batch -----

  datatype ItemEnd = Succeeds(value: Json) | Raises(error: Json)

  datatype Indexed = Indexed(index: nat, value: Json)

  datatype Summary = Summary(total: nat, succeeded: nat, failed: nat, results: seq<Indexed>, errors: seq<Indexed>)

  /** Every processed item is listed once, with what became of it, and the lists are in item order. */
  ghost predicate Describes(s: Summary, items: seq<ItemEnd>, done: nat)
    requires done <= |items|
  {
    && s.total == |items|
    && s.succeeded == |s.results| && s.failed == |s.errors| && s.succeeded + s.failed == done
    && (forall i | 0 <= i < done ::
          if items[i].Succeeds? then Indexed(i, items[i].value) in s.results else Indexed(i, items[i].error) in s.errors)
    && (forall x | x in s.results :: x.index < done && items[x.index] == Succeeds(x.value))
    && (forall x | x in s.errors :: x.index < done && items[x.index] == Raises(x.value))
    && Ascending(s.results) && Ascending(s.errors)
  }

  ghost predicate Ascending(xs: seq<Indexed>) {
    forall i, k | 0 <= i < k < |xs| :: xs[i].index < xs[k].index
  }

  /** The clock never goes back: read it, ask the database, get the reply, and only then read it again. */
  ghost predicate Monotone(ticks: seq<Tick>) {
    && (forall i | 0 <= i < |ticks| :: ticks[i].now <= ticks[i].readAt <= ticks[i].replyAt)
    && (forall i, k | 0 <= i < k < |ticks| :: ticks[i].replyAt <= ticks[k].now)
  }

  lemma NoElems(s: seq<Indexed>)
    ensures s != [] ==> Elems(s) != {}
  {
    assert s != [] ==> s[0] in Elems(s);
  }

  lemma LastGreatest(a: seq<Indexed>, b: seq<Indexed>)
    requires Ascending(a) && Ascending(b) && a != [] && b != [] && forall x :: x in a <==> x in b
    ensures a[|a| - 1] == b[|b| - 1]
  {
    var n, k := |a| - 1, |b| - 1;
    assert a[n] in b && b[k] in a;
    var i :| 0 <= i <= k && b[i] == a[n];
    var l :| 0 <= l <= n && a[l] == b[k];
  }

  lemma {:induction false} AscendingUnique(a: seq<Indexed>, b: seq<Indexed>)
    requires Ascending(a) && Ascending(b) && forall x :: x in a <==> x in b
    ensures a == b
    decreases |a|
  {
    assert Elems(a) == Elems(b);
    if a == [] {
      assert Elems(b) == {};
      NoElems(b);
    } else {
      assert a[0] in b;
      var n, k := |a| - 1, |b| - 1;
      LastGreatest(a, b);
      forall x
        ensures x in a[..n] <==> x in b[..k]
      {
        assert x in a[..n] <==> x in a && x != a[n];
        assert x in b[..k] <==> x in b && x != b[k];
      }
      AscendingUnique(a[..n], b[..k]);
      assert a == a[..n] + [a[n]] && b == b[..k] + [b[k]];
    }
  }

  /** There is only one summary that describes a processed prefix. */
  lemma SummaryUnique(s: Summary, s': Summary, items: seq<ItemEnd>, done: nat)
    requires done <= |items| && Describes(s, items, done) && Describes(s', items, done)
    ensures s == s'
  {
    forall x
      ensures x in s.results <==> x in s'.results
      ensures x in s.errors <==> x in s'.errors
    {
    }
    AscendingUnique(s.results, s'.results);
    AscendingUnique(s.errors, s'.errors);
  }

  lemma DescribesOneMore(s: Summary, items: seq<ItemEnd>, i: nat)
    requires i < |items| && Describes(s, items, i)
    ensures Describes(Counted(s, i, items[i]), items, i + 1)
  {
    var s' := Counted(s, i, items[i]);
    assert forall x | x in s.results :: x in s'.results;
    assert forall x | x in s.errors :: x in s'.errors;
    assert items[i].Succeeds? ==> s'.results[|s.results|] in s'.results;
    assert items[i].Raises? ==> s'.errors[|s.errors|] in s'.errors;
  }

  /** The summary with one more item in it. */
  function Counted(s: Summary, i: nat, end: ItemEnd): Summary {
    match end
    case Succeeds(value) => s.(succeeded := s.succeeded + 1, results := s.results + [Indexed(i, value)])
    case Raises(error) => s.(failed := s.failed + 1, errors := s.errors + [Indexed(i, error)])
  }

  /** The summary of the first `n` items. */
  function Summed(items: seq<ItemEnd>, n: nat): Summary
    requires n <= |items|
  {
    if n == 0 then Summary(|items|, 0, 0, [], []) else Counted(Summed(items, n - 1), n - 1, items[n - 1])
  }

  lemma {:induction false} SummedDescribes(items: seq<ItemEnd>, n: nat)
    requires n <= |items|
    ensures Describes(Summed(items, n), items, n)
  {
    if n > 0 {
      SummedDescribes(items, n - 1);
      DescribesOneMore(Summed(items, n - 1), items, n - 1);
    }
  }

  // ----- which checks poll, and when the items start -----

  /** A check at `now` polls when no poll came less than an interval before. */
  predicate PollsNow(polled: seq<Tick>, now: real, interval: real) {
    polled == [] || now - polled[|polled| - 1].now >= interval
  }

  /** The checks among the first `n` that poll: a matter of the clock alone. */
  function Polled(ticks: seq<Tick>, interval: real, n: nat): seq<Tick>
    requires n <= |ticks|
  {
    if n == 0 then []
    else
      var polled := Polled(ticks, interval, n - 1);
      if PollsNow(polled, ticks[n - 1].now, interval) then polled + [ticks[n - 1]] else polled
  }

  predicate PollsAt(ticks: seq<Tick>, interval: real, i: nat)
    requires i < |ticks|
  {
    PollsNow(Polled(ticks, interval, i), ticks[i].now, interval)
  }

  /** The instant at which item `i` starts: after the reply, if its check polls. */
  function StartAt(ticks: seq<Tick>, interval: real, i: nat): real
    requires i < |ticks|
  {
    if PollsAt(ticks, interval, i) then ticks[i].replyAt else ticks[i].now
  }

  /** No poll up to the check of item `i` saw a reason to stop, so the item starts. */
  ghost predicate Starts(row: History, ticks: seq<Tick>, interval: real, i: nat)
    requires i < |ticks|
  {
    forall k {:trigger PollsAt(ticks, interval, k)} | 0 <= k <= i && PollsAt(ticks, interval, k) :: !Stops(row(ticks[k].readAt))
  }

  lemma {:induction false} PolledIn(ticks: seq<Tick>, interval: real, n: nat) returns (k: nat)
    requires n <= |ticks| && Polled(ticks, interval, n) != []
    ensures k < n && PollsAt(ticks, interval, k) && ticks[k] == Polled(ticks, interval, n)[|Polled(ticks, interval, n)| - 1]
  {
    if PollsAt(ticks, interval, n - 1) { k := n - 1; } else { k := PolledIn(ticks, interval, n - 1); }
  }

  /** How long a stop can go unnoticed: the interval, or the latency of the check's own poll if that is larger. */
  function Lag(interval: real, tick: Tick): real {
    var latency := tick.replyAt - tick.readAt;
    if latency > interval then latency else interval
  }

  /** An item starts less than a lag after the row began to say stop; without a poll, less than an interval after. */
  lemma StartsInTime(row: History, ticks: seq<Tick>, interval: real, i: nat, at: real)
    requires Monotone(ticks) && i < |ticks| && Starts(row, ticks, interval, i) && StoppedFrom(row, at)
    ensures StartAt(ticks, interval, i) < at + Lag(interval, ticks[i])
    ensures PollsAt(ticks, interval, i) ==> StartAt(ticks, interval, i) < at + (ticks[i].replyAt - ticks[i].readAt)
    ensures !PollsAt(ticks, interval, i) ==> StartAt(ticks, interval, i) < at + interval
  {
    if PollsAt(ticks, interval, i) {
      assert ticks[i].readAt < at;
    } else {
      var k := PolledIn(ticks, interval, i);
      assert ticks[k].readAt < at;
    }
  }

  /** Whatever the row does, every item that starts does so less than an interval after the stop. */
  ghost predicate AlwaysInTime(ticks: seq<Tick>, interval: real) {
    forall row: History, at: real, i: nat | i < |ticks| && StoppedFrom(row, at) && Starts(row, ticks, interval, i) ::
      StartAt(ticks, interval, i) < at + interval
  }

  /** Every poll is answered within an interval of its look at the row. */
  ghost predicate QuickReplies(ticks: seq<Tick>, interval: real) {
    forall i {:trigger PollsAt(ticks, interval, i)} | 0 <= i < |ticks| && PollsAt(ticks, interval, i) ::
      ticks[i].replyAt - ticks[i].readAt <= interval
  }

  /** A slow reply: there is a row for which the item starts an interval after the stop, or later. */
  lemma SlowReply(ticks: seq<Tick>, interval: real, i: nat) returns (row: History, at: real)
    requires Monotone(ticks) && i < |ticks| && PollsAt(ticks, interval, i)
    requires ticks[i].replyAt - ticks[i].readAt > interval
    ensures StoppedFrom(row, at) && Starts(row, ticks, interval, i) && StartAt(ticks, interval, i) >= at + interval
  {
    var stop := ticks[i].replyAt - interval;
    at := stop;
    row := t => View(true, t >= stop);
    forall k | 0 <= k <= i && PollsAt(ticks, interval, k)
      ensures !Stops(row(ticks[k].readAt))
    {
      assert k == i || ticks[k].replyAt <= ticks[i].now;
    }
  }

  /**
   * The bound by the interval alone holds for every row and every stop if and only if every check that
   * polls gets its reply within an interval.
   */
  lemma InTimeExactly(ticks: seq<Tick>, interval: real)
    requires Monotone(ticks)
    ensures AlwaysInTime(ticks, interval) <==> QuickReplies(ticks, interval)
  {
    if QuickReplies(ticks, interval) {
      forall row: History, at: real, i: nat | i < |ticks| && StoppedFrom(row, at) && Starts(row, ticks, interval, i)
        ensures StartAt(ticks, interval, i) < at + interval
      {
        StartsInTime(row, ticks, interval, i, at);
      }
    } else {
      var i :| 0 <= i < |ticks| && PollsAt(ticks, interval, i) && ticks[i].replyAt - ticks[i].readAt > interval;
      var row, at := SlowReply(ticks, interval, i);
      assert !(StartAt(ticks, interval, i) < at + interval);
    }
  }

  // ----- the loop -----

  ghost function Ticks(polls: seq<Poll>): seq<Tick> {
    if polls == [] then [] else Ticks(polls[..|polls| - 1]) + [polls[|polls| - 1].tick]
  }

  lemma {:induction false} LastTick(polls: seq<Poll>)
    ensures |Ticks(polls)| == |polls| && (polls != [] ==> Ticks(polls)[|polls| - 1] == polls[|polls| - 1].tick)
  {
    if polls != [] { LastTick(polls[..|polls| - 1]); }
  }

  // ----- what the polls write -----

  /** The checks among the first `n` that poll, by number. */
  function Checks(ticks: seq<Tick>, interval: real, n: nat): seq<nat>
    requires n <= |ticks|
  {
    if n == 0 then []
    else Checks(ticks, interval, n - 1) + if PollsAt(ticks, interval, n - 1) then [n - 1] else []
  }

  /** What is done of the batch when check `i` looks: the percentage set after the last finished item. */
  function PctAt(start: int, pcts: seq<int>, i: nat): int
    requires i <= |pcts|
  {
    if i == 0 then start else pcts[i - 1]
  }

  /** Up to and including poll `k`, the latest value written is `pct`. */
  ghost predicate WrittenBy(polls: seq<Poll>, k: nat, pct: int)
    requires k < |polls|
  {
    var w := Writes(polls[..k + 1]);
    w != [] && w[|w| - 1] == pct
  }

  /** After each poll the progress in the database is the percentage as of its check. */
  ghost predicate Reported(polls: seq<Poll>, checks: seq<nat>, start: int, pcts: seq<int>) {
    && |polls| == |checks|
    && (polls == [] ||
        var k := |polls| - 1;
        && Reported(polls[..k], checks[..k], start, pcts)
        && checks[k] <= |pcts| && WrittenBy(polls, k, PctAt(start, pcts, checks[k])))
  }

  lemma {:induction false} ReportedExactly(polls: seq<Poll>, checks: seq<nat>, start: int, pcts: seq<int>)
    requires Reported(polls, checks, start, pcts)
    ensures forall k | 0 <= k < |polls| :: checks[k] <= |pcts| && WrittenBy(polls, k, PctAt(start, pcts, checks[k]))
  {
    if polls != [] {
      var n := |polls| - 1;
      ReportedExactly(polls[..n], checks[..n], start, pcts);
      forall k | 0 <= k < n
        ensures checks[k] <= |pcts| && WrittenBy(polls, k, PctAt(start, pcts, checks[k]))
      {
        assert polls[..n][..k + 1] == polls[..k + 1] && checks[..n][k] == checks[k];
        assert WrittenBy(polls[..n], k, PctAt(start, pcts, checks[k]));
      }
    }
  }

  lemma ReportsMore(polls: seq<Poll>, checks: seq<nat>, start: int, pcts: seq<int>, poll: Poll, i: nat)
    requires Reported(polls, checks, start, pcts) && i <= |pcts|
    requires var w := Writes(polls + [poll]); w != [] && w[|w| - 1] == PctAt(start, pcts, i)
    ensures Reported(polls + [poll], checks + [i], start, pcts)
  {
    var polls', checks', n := polls + [poll], checks + [i], |polls|;
    assert polls'[..n + 1] == polls' && polls'[..n] == polls && checks'[..n] == checks;
  }

  /** No poll among the first `n` checks saw a reason to stop. */
  ghost predicate Quiet(row: History, ticks: seq<Tick>, interval: real, n: nat)
    requires n <= |ticks|
  {
    n == 0 || (Quiet(row, ticks, interval, n - 1) && (PollsAt(ticks, interval, n - 1) ==> !Stops(row(ticks[n - 1].readAt))))
  }

  lemma {:induction false} QuietExactly(row: History, ticks: seq<Tick>, interval: real, n: nat)
    requires n <= |ticks|
    ensures Quiet(row, ticks, interval, n)
       <==> forall k {:trigger PollsAt(ticks, interval, k)} | 0 <= k < n && PollsAt(ticks, interval, k) ::
              !Stops(row(ticks[k].readAt))
  {
    if n > 0 { QuietExactly(row, ticks, interval, n - 1); }
  }

  /** The polls of the first `n` checks: when the clock prescribes them, each with the progress of its moment. */
  ghost predicate Polls(polls: seq<Poll>, ticks: seq<Tick>, interval: real, start: int, pcts: seq<int>, n: nat)
    requires n <= |ticks|
  {
    Ticks(polls) == Polled(ticks, interval, n) && Reported(polls, Checks(ticks, interval, n), start, pcts)
  }

  /** What the context remembers of its last poll is what the clock says. */
  lemma DueIsPollsAt(polls: seq<Poll>, ticks: seq<Tick>, interval: real, i: nat)
    requires i < |ticks| && Ticks(polls) == Polled(ticks, interval, i)
    ensures PollsAt(ticks, interval, i)
        <==> polls == [] || ticks[i].now - polls[|polls| - 1].tick.now >= interval
  {
    LastTick(polls);
  }

  lemma OnePolled(polls: seq<Poll>, poll: Poll, ticks: seq<Tick>, interval: real, start: int, pcts: seq<int>, i: nat)
    requires i < |ticks| && i <= |pcts| && Polls(polls, ticks, interval, start, pcts, i)
    requires PollsAt(ticks, interval, i) && poll.tick == ticks[i]
    requires var w := Writes(polls + [poll]); w != [] && w[|w| - 1] == PctAt(start, pcts, i)
    ensures Polls(polls + [poll], ticks, interval, start, pcts, i + 1)
  {
    assert (polls + [poll])[..|polls|] == polls;
    ReportsMore(polls, Checks(ticks, interval, i), start, pcts, poll, i);
  }

  lemma NonePolled(polls: seq<Poll>, ticks: seq<Tick>, interval: real, start: int, pcts: seq<int>, i: nat)
    requires i < |ticks| && Polls(polls, ticks, interval, start, pcts, i) && !PollsAt(ticks, interval, i)
    ensures Polls(polls, ticks, interval, start, pcts, i + 1)
  {
    assert Checks(ticks, interval, i) + [] == Checks(ticks, interval, i);
  }

  lemma StaysQuiet(row: History, ticks: seq<Tick>, interval: real, i: nat)
    requires i < |ticks| && Quiet(row, ticks, interval, i)
    ensures Starts(row, ticks, interval, i) == Quiet(row, ticks, interval, i + 1)
         == (PollsAt(ticks, interval, i) ==> !Stops(row(ticks[i].readAt)))
  {
    QuietExactly(row, ticks, interval, i);
  }

  /** One check: it polls exactly when the clock says so, and stops the batch exactly when a poll saw a reason. */
  method Check(ctx: JobContext, row: History, ticks: seq<Tick>, i: nat, ghost start: int, ghost pcts: seq<int>)
      returns (stop: bool)
    requires ctx.Valid() && !ctx.cached && i < |ticks| == |pcts| && ctx.pendingPct == PctAt(start, pcts, i)
    requires Polls(ctx.polls, ticks, ctx.interval, start, pcts, i) && Quiet(row, ticks, ctx.interval, i)
    modifies ctx`lastWritten, ctx`lastPoll, ctx`cached, ctx`polls
    ensures ctx.Valid() && stop == ctx.cached && stop == !Starts(row, ticks, ctx.interval, i)
    ensures Polls(ctx.polls, ticks, ctx.interval, start, pcts, i + 1)
    ensures !stop ==> Quiet(row, ticks, ctx.interval, i + 1)
    ensures stop ==> Informed(ctx.polls, row)
  {
    ghost var before := ctx.polls;
    DueIsPollsAt(before, ticks, ctx.interval, i);
    StaysQuiet(row, ticks, ctx.interval, i);
    stop := ctx.Cancelled(row, ticks[i]);
    if PollsAt(ticks, ctx.interval, i) {
      OnePolled(before, ctx.polls[|before|], ticks, ctx.interval, start, pcts, i);
    } else {
      NonePolled(before, ticks, ctx.interval, start, pcts, i);
    }
  }

  /** One round of the loop: the check and, once the item is finished, its percentage. */
  method NextItem(ctx: JobContext, pcts: seq<int>, row: History, ticks: seq<Tick>, i: nat, ghost start: int)
      returns (stop: bool)
    requires ctx.Valid() && !ctx.cached && i < |ticks| == |pcts| && ctx.pendingPct == PctAt(start, pcts, i)
    requires Polls(ctx.polls, ticks, ctx.interval, start, pcts, i) && Quiet(row, ticks, ctx.interval, i)
    modifies ctx
    ensures ctx.Valid() && stop == ctx.cached && Polls(ctx.polls, ticks, ctx.interval, start, pcts, i + 1)
    ensures stop ==> !Starts(row, ticks, ctx.interval, i) && Informed(ctx.polls, row)
    ensures !stop ==> ctx.pendingPct == PctAt(start, pcts, i + 1) && Quiet(row, ticks, ctx.interval, i + 1)
  {
    stop := Check(ctx, row, ticks, i, start, pcts);
    if !stop { ctx.SetProgress(pcts[i]); }
  }

  /** The last poll saw a reason to stop. */
  ghost predicate Informed(polls: seq<Poll>, row: History) {
    polls != [] && Stops(row(polls[|polls| - 1].tick.readAt))
  }

  /** Exactly the first `n` items start. */
  ghost predicate Started(row: History, ticks: seq<Tick>, n: nat, interval: real)
    requires n <= |ticks|
  {
    forall i {:trigger Starts(row, ticks, interval, i)} | 0 <= i < |ticks| :: i < n <==> Starts(row, ticks, interval, i)
  }

  lemma AllStarted(row: History, ticks: seq<Tick>, n: nat, interval: real)
    requires n <= |ticks| && Quiet(row, ticks, interval, n) && (n < |ticks| ==> !Starts(row, ticks, interval, n))
    ensures Started(row, ticks, n, interval)
  {
    QuietExactly(row, ticks, interval, n);
    if n < |ticks| {
      var k :| 0 <= k <= n && PollsAt(ticks, interval, k) && Stops(row(ticks[k].readAt));
      assert forall i | n <= i < |ticks| :: k <= i && !Starts(row, ticks, interval, i);
    }
  }

  /** How a batch went that ended with `n` items processed. */
  ghost predicate Went(polls: seq<Poll>, row: History, ticks: seq<Tick>, interval: real, start: int, pcts: seq<int>,
                       n: nat, cancelled: bool) {
    && n <= |ticks| && (cancelled <==> n < |ticks|)
    && Polls(polls, ticks, interval, start, pcts, if cancelled then n + 1 else n)
    && (cancelled ==> Informed(polls, row))
    && Started(row, ticks, n, interval) && Prompt(row, ticks, n, interval)
  }

  /** The summary describes the items processed, and that is how the batch went; it is cancelled if any is left. */
  ghost predicate Ends(polls: seq<Poll>, items: seq<ItemEnd>, row: History, ticks: seq<Tick>, interval: real, start: int,
                       pcts: seq<int>, summary: Summary, cancelled: bool) {
    var n := summary.succeeded + summary.failed;
    && n <= |items| == |ticks| && Describes(summary, items, n)
    && Went(polls, row, ticks, interval, start, pcts, n, cancelled)
  }

  lemma EndsWell(polls: seq<Poll>, items: seq<ItemEnd>, row: History, ticks: seq<Tick>, interval: real, start: int,
                 pcts: seq<int>, n: nat)
    requires Monotone(ticks) && n <= |ticks| == |items| && Quiet(row, ticks, interval, n)
    requires n < |ticks| ==> !Starts(row, ticks, interval, n) && Informed(polls, row)
    requires Polls(polls, ticks, interval, start, pcts, if n < |ticks| then n + 1 else n)
    ensures Ends(polls, items, row, ticks, interval, start, pcts, Summed(items, n), n < |ticks|)
  {
    SummedDescribes(items, n);
    WentWell(polls, row, ticks, interval, start, pcts, n);
  }

  lemma WentWell(polls: seq<Poll>, row: History, ticks: seq<Tick>, interval: real, start: int, pcts: seq<int>, n: nat)
    requires Monotone(ticks) && n <= |ticks| && Quiet(row, ticks, interval, n)
    requires n < |ticks| ==> !Starts(row, ticks, interval, n) && Informed(polls, row)
    requires Polls(polls, ticks, interval, start, pcts, if n < |ticks| then n + 1 else n)
    ensures Went(polls, row, ticks, interval, start, pcts, n, n < |ticks|)
  {
    AllPrompt(row, ticks, n, interval);
    AllStarted(row, ticks, n, interval);
  }

  /** The loop: `n` items are processed when it ends. */
  method RunItems(ctx: JobContext, items: seq<ItemEnd>, pcts: seq<int>, row: History, ticks: seq<Tick>)
      returns (cancelled: bool, summary: Summary, ghost n: nat)
    requires ctx.Valid() && ctx.polls == [] && !ctx.cached && |items| == |ticks| == |pcts|
    modifies ctx
    ensures ctx.Valid() && n <= |items| && (cancelled <==> n < |items|) && summary == Summed(items, n)
    ensures Quiet(row, ticks, ctx.interval, n)
    ensures Polls(ctx.polls, ticks, ctx.interval, old(ctx.pendingPct), pcts, if cancelled then n + 1 else n)
    ensures cancelled ==> !Starts(row, ticks, ctx.interval, n) && Informed(ctx.polls, row)
  {
    ghost var start := ctx.pendingPct;
    summary := Summary(|items|, 0, 0, [], []);
    for i := 0 to |items|
      invariant ctx.Valid() && !ctx.cached && ctx.pendingPct == PctAt(start, pcts, i)
      invariant Polls(ctx.polls, ticks, ctx.interval, start, pcts, i) && Quiet(row, ticks, ctx.interval, i)
      invariant summary == Summed(items, i)
    {
      cancelled := NextItem(ctx, pcts, row, ticks, i, start);
      if cancelled {
        n := i;
        return;
      }
      summary := Counted(summary, i, items[i]);
    }
    cancelled, n := false, |items|;
  }

  /** `handle_batch`; `cancelled` says that it ended by raising JobCancelled with the partial summary. */
  method HandleBatch(ctx: JobContext, items: seq<ItemEnd>, pcts: seq<int>, row: History, ticks: seq<Tick>)
      returns (cancelled: bool, summary: Summary)
    requires ctx.Valid() && ctx.polls == [] && !ctx.cached
    requires |items| == |ticks| == |pcts| && Monotone(ticks)
    modifies ctx
    ensures ctx.Valid()
    ensures Ends(ctx.polls, items, row, ticks, ctx.interval, old(ctx.pendingPct), pcts, summary, cancelled)
  {
    ghost var start := ctx.pendingPct;
    ghost var n;
    cancelled, summary, n := RunItems(ctx, items, pcts, row, ticks);
    EndsWell(ctx.polls, items, row, ticks, ctx.interval, start, pcts, n);
  }

  /** Whenever the row began to say stop, the first `n` items started less than a lag later. */
  ghost predicate Prompt(row: History, ticks: seq<Tick>, n: nat, interval: real)
    requires n <= |ticks|
  {
    forall at, i {:trigger StoppedFrom(row, at), StartAt(ticks, interval, i)} | StoppedFrom(row, at) && 0 <= i < n ::
      StartAt(ticks, interval, i) < at + Lag(interval, ticks[i])
  }

  lemma AllPrompt(row: History, ticks: seq<Tick>, n: nat, interval: real)
    requires Monotone(ticks) && n <= |ticks| && Quiet(row, ticks, interval, n)
    ensures Prompt(row, ticks, n, interval)
  {
    QuietExactly(row, ticks, interval, n);
    forall at, i | StoppedFrom(row, at) && 0 <= i < n
      ensures StartAt(ticks, interval, i) < at + Lag(interval, ticks[i])
    {
      StartsInTime(row, ticks, interval, i, at);
    }
  }
}
