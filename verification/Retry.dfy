/** app/retry.py: the backoff table and the retry-or-fail decision. */
module Retry {
  import opened Jobs
  import opened Queue

  datatype Config = Config(
    maxAttempts: int,
    schedule: seq<int>,
    visibility: nat,
    grace: nat,
    tickerBatch: nat,
    reconcileBatch: nat,
    reaperBatch: nat)

  /** Python list indexing: negative indices count from the end; otherwise IndexError. */
  function PyIndex<T>(s: seq<T>, i: int): Option<T> {
    if 0 <= i < |s| then Some(s[i])
    else if -|s| <= i < 0 then Some(s[i + |s|])
    else None
  }

  /** The schedule's entry for the n-th retry; past its end the last entry counts. */
  function BackoffDelay(attempts: int, schedule: seq<int>): Option<int> {
    PyIndex(schedule, if attempts - 1 <= |schedule| - 1 then attempts - 1 else |schedule| - 1)
  }

  /** From the first attempt on, the schedule is read in order and its last entry repeats; only an empty one fails. */
  lemma BackoffIsClampedLookup(attempts: nat, schedule: seq<int>)
    requires attempts >= 1
    ensures BackoffDelay(attempts, schedule).None? <==> schedule == []
    ensures attempts <= |schedule| ==> BackoffDelay(attempts, schedule) == Some(schedule[attempts - 1])
    ensures attempts > |schedule| > 0 ==> BackoffDelay(attempts, schedule) == Some(schedule[|schedule| - 1])
  {
  }

  datatype Decision = GiveUp | RetryNow | RetryAfter(delay: int) | IndexError

  /** What `schedule_retry_or_fail` decides from the row snapshot it was given. */
  function Decide(cfg: Config, snap: Row): Decision {
    var n := snap.attempts + 1;
    if n >= snap.maxAttempts then GiveUp
    else match BackoffDelay(n, cfg.schedule)
         case None => IndexError
         case Some(d) => if d <= 0 then RetryNow else RetryAfter(d)
  }

  /** The guarded write a decision performs. */
  function DecisionUpdate(d: Decision, now: Time, error: Json): Update
    requires !d.IndexError?
  {
    match d
    case GiveUp => Fail(now, error)
    case RetryNow => RetryToPending
    case RetryAfter(delay) => RetryToScheduled(now + delay)
  }

  /** The handoff a winning decision owes. */
  function DecisionTarget(d: Decision, now: Time, prio: Priority): Option<Target> {
    match d
    case RetryNow => Some(ToStream(prio))
    case RetryAfter(delay) => Some(ToDelayed(now + delay))
    case _ => None
  }
}
