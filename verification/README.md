# A verified model of the job queue

The system accepts jobs over HTTP, keeps one Postgres row per job, hands the job's id to workers
through Redis, and recovers from crashes with a ticker process. Nothing spans the two stores:
everything rests on guarded UPDATEs, a sync flag, and the order of operations (commit, Redis write,
`mark_synced`, acknowledgement). This project models that protocol and the algorithms around it in
Dafny and proves what they promise.

## Structure

Everything shares the definitions of the guarded UPDATEs (`Jobs.dfy`) and of the Redis commands
(`Queue.dfy`); `Retry.dfy` holds the backoff table and the retry decision.

**The interleaved layer.** `Protocol.dfy` is a state machine. A step is one committed UPDATE, one Redis
command or one row read by one actor: an API call, a worker task, or one job's share of a sweep. Every
actor may crash between any two of its steps, and a batch of a sweep is several actors, so every
interleaving of a batch is a run. On top of it:

- `Accounting.dfy`: what holds in every interleaving, with no hypothesis at all. Claims and exits balance,
  the attempt bound with its overshoot, terminal states absorb, cancel replies are justified.
- `LadderRuns.dfy`: the retry ladder in every run.
- `Pointers.dfy`: what holds of the two stores in every run without any hypothesis.
- `Safety.dfy`, `Coverage.dfy`: the inductive invariant behind "no job is ever stranded".
- `Scenes.dfy`, `Stranding.dfy`, `TwoJobs.dfy`: hand-built runs. Each of the five hypotheses is necessary;
  without it a job is lost, and it stays lost whatever anybody but a cancel call does.
- `Continuations.dfy`: from any state the invariant covers, a waiting job can be claimed, a processing one
  reclaimed, and a retry decided. On it rest `Cancellation.dfy` (what a committed or requested cancellation
  stops, exactly), `Exclusion.dfy` (when a worker is alone at its job, exactly) and `Overshoot.dfy` (the
  attempt bound is attained for every limit).
- `Recovery.dfy`: whatever crashed wherever, which jobs one reaper sweep and one reconciler pass recover;
  `Restart.dfy` is the same as the ticker's loops on the two stores.

**The imperative layer.** `Backend.dfy` has the two stores as objects. `Ticker.dfy`, `Worker.dfy`,
`Consumers.dfy` and `Api.dfy` are the loops and statement sequences of the source, each proved against
functions of the store (`Sweeps.dfy`, `Order.dfy`), about which the properties are lemmas. The contracts also
spell out, column by column and without those functions, what each operation leaves of a row and where in
Redis it puts the job. `Agreement.dfy` connects the layers: an undisturbed actor of the machine computes
exactly those functions, and the machine's sweeps pick exactly what the queries return.

**Satellites.** `Idempotency.dfy` (submission under races), `Paging.dfy` (keyset pages over a changing
table), `TokenCaches.dfy`, `Batches.dfy` (throttled cancellation), `Hosts.dfy` (allowlists).

## Hypotheses about interference

"No job is stranded" is false of the code as it stands. `Protocol.Fences` names five hypotheses, and
`Stranding.StrandingExactly` proves that the property holds in all reachable states if and only if all
five hold:

| hypothesis | what goes wrong without it |
|---|---|
| `singleRead` | the blocking read over several streams returns one entry per non-empty stream, so up to three, and the worker handles only the first (app/queue/consumer.py:57-65, app/worker/runner.py:344); the reaper later acks the other one, because its row is pending and synced (app/ticker/runner.py:144-146) |
| `holdersSurvive` | a worker that dies between delivery and claim leaves the same kind of entry; the reaper acks it |
| `heldUnreaped` | the reaper does the same to an entry whose worker is merely slow to claim; the claim then succeeds, and a crash leaves a processing row that no pending entry points to |
| `quietHandoff` | `mark_synced` is unguarded (app/repository.py:97-101): arriving late, it hides from the reconciler a row that another actor has just made pending again |
| `quietPromotion` | the ZREM of a promotion removes the delayed entry that another actor has just written |

Crashes anywhere else are allowed, and the gap between a commit and its handoff is freely interleaved.
DECISIONS.md:14 says that all in-flight jobs of a crashed worker are recovered. That is false of the code,
and `Recovery.CrashAnywhere` says exactly when it is true. Take the stores that any run leaves, with no
hypothesis at all and with the actors dead wherever they were. After the visibility timeout and the grace
period, one reaper sweep and one reconciler pass recover everything if and only if no row is waiting, marked
synced and neither undelivered in its stream nor in the delayed set, and no row is processing without a
pending entry that names it. Both are tests on the stopped stores, job by job
(`Recovery.JobRecoversExactly`). Under the five hypotheses the test is met unless a worker died between
delivery and claim (`Recovery.CrashRecovery`); `Stranding.HolderCrashes` is a run that fails it.

A committed cancellation does not mean that no handler starts afterwards. `process_job` reads the row after
its claim and does not look at the status (app/worker/runner.py:89-114), so a worker that claimed the job
before may start its handler on a cancelled row, and this is the only way
(`Cancellation.HandlerStartsExactly`). A cancel request answered 202 stops less: the retry decision does not
look at the flag. Once the flag is set, a handler can start again if and only if the row has an owner and a
worker stands between claim and row read, or the row waits, or it is processing and can be retried, by its
own attempt count or by the snapshot of an actor that has yet to decide
(`Cancellation.StartsAfterRequestExactly`; a batch that already runs stops at its next poll, see `Batches.dfy`). When none of these holds, no handler starts in any continuation,
whatever the interference (`Cancellation.QuelledForGood`).

DECISIONS.md:12 relies on the single owner of a pending entry to keep competing workers apart. For a job that
is not enough: the exit guards carry no lease, so when the reaper decides about a job whose worker is merely
slow, the worker and its successor, who has a new entry, both run. This is also the only way: in every run in which no reaper decides about a
processing row under a worker, each worker is alone at its job (`Exclusion.ExclusionExactly`). What holds in
all runs is the balance, and the attempt bound plus one per retry decided on an outdated snapshot. No smaller
bound would do (`Overshoot.BoundIsTight`), and such retries exist exactly when the configuration retries at
all (`Overshoot.OvershootExactly`).

## Conventions

- An `UPDATE ... WHERE` is a value of `Jobs.Update`: `Matches` is the WHERE clause, `Apply` the SET clause.
- Times are integers (seconds on one clock), except in the token cache and the batch context, where they
  are reals. Job ids are natural numbers in the order of their UUIDs; message ids are positions in a stream.
- A handler is an arbitrary outcome: success, cancellation, policy rejection, retryable failure. Handler
  timeout is a retryable failure, external cancellation is a crash.
- `hist` in the machine's state is bookkeeping that no step reads.
- The attempt limit of a row is at least one: a configured limit below one still allows one attempt.
- An empty backoff schedule makes `backoff_delay` raise IndexError; in the machine the actor can then only
  crash, and the imperative layer requires a non-empty schedule, the one the settings ship with.

## Model

| member | source | states |
|---|---|---|
| Jobs.UpdateKeepsShape | app/repository.py:97-291 | every guarded UPDATE acts on the statuses of its WHERE clause only, and keeps the null-column shape of a row, its identity columns and the status graph; it never clears the cancel flag; on completed, cancelled and cancel-requested failed rows only `mark_synced` acts |
| Retry.BackoffIsClampedLookup | app/retry.py:17-20 | from the first attempt on the schedule is read in order and its last entry repeats; it fails exactly on an empty schedule |
| Protocol.StepWrites | app/repository.py:97-291 | every step of every actor but an insertion commits at most one guarded UPDATE, the one named for it |
| Protocol.OthersStay | app/ticker/runner.py:38-198 | a step moves only the actor that takes it |
| Accounting.StepAccounts | app/repository.py:104-291 | every step of every actor keeps the books (balance, attempt bound, what actors know about their rows) and changes each row only along the status graph |
| Accounting.ClaimExitBalance | app/repository.py:104-205 | in every run with any crashes and races, claims minus winning exits is 1 for a processing row and 0 otherwise, and `attempts` is the number of winning non-cancel exits since the last reset |
| Accounting.AttemptBound | app/retry.py:33-73 | in every run a non-terminal row has `attempts < max_attempts + k` and any row `attempts <= max_attempts + k`, k being the retries since the last reset that were decided on another attempt count than the row's |
| Accounting.TerminalAbsorption | app/repository.py:104-291 | under every continuation a completed, cancelled, or failed and cancel-requested row keeps every column but the sync flag, and is never claimed again |
| Cancellation.HandlerStartsExactly | app/worker/runner.py:89-114 | after such a row was committed, under any hypotheses, some continuation starts a handler of the job if and only if the row has an owner and a worker already stood between its claim and its row read |
| Cancellation.WasClaimed | app/worker/runner.py:89-114 | whoever stands there later stood there when the row was committed |
| Cancellation.ClaimedStarts | app/worker/runner.py:94-114 | from there the next step starts the handler exactly when the row has an owner, under any hypotheses, and it runs on the row as it is by then |
| Cancellation.UnownedNeverStarts | app/worker/runner.py:99-104 | in no continuation of any state does a handler of an unowned row start |
| Cancellation.QuelledForGood | app/retry.py:33-73 | with the flag set (or the row finished for good), nobody between claim and row read, and a processing row that neither its own count nor anybody's snapshot lets retry: this stays so in every run, with no hypothesis, and no handler starts |
| Cancellation.StartsAfterRequestExactly | app/retry.py:33-73 | with the flag set, in every state reachable under the five hypotheses: some continuation starts a handler if and only if the row has an owner and waits, or has a worker between claim and row read, or is processing and can be retried by its count or by a held snapshot |
| Cancellation.StartsAfter200 | app/worker/runner.py:89-114 | for every configuration that retries at all, with all hypotheses holding: a run in which a handler starts on a cancelled row after the client got its 200 |
| Cancellation.StartsAfter202 | app/retry.py:33-73 | likewise with no slow worker: a run in which the job is claimed and its handler starts after the client got its 202 |
| Exclusion.StepExclusive | app/repository.py:104-181 | every step but a reaper's decision about a processing row under a worker keeps each worker alone at its job and its row processing |
| Exclusion.TwoHandlers | app/ticker/runner.py:112-146 | for every configuration, with all hypotheses holding: a run in which two workers run the same job at once |
| Exclusion.ExclusionExactly | DECISIONS.md:12 | in every state of every run each worker is alone at its job if and only if no reaper decides about a processing row under a worker; the five hypotheses make no difference |
| Continuations.WaitingClaims | app/ticker/runner.py:38-109 | from every state reachable under the five hypotheses, whatever the other actors are in the middle of, some continuation claims a waiting job and leaves everybody else's place alone |
| Continuations.Suspects | app/ticker/runner.py:149-198 | likewise the reaper can come to reclaim any processing job |
| Accounting.CancelFlagStays | app/repository.py:274-281 | a committed cancel request is never withdrawn by any step |
| Accounting.FailedLeftByResetOnly | app/repository.py:184-205 | a failed row is left only by the retry endpoint's reset, and only without a cancel request |
| Accounting.CancelReplyJustified | app/api/routes.py:254-273 | at the instant of the reply: 200 means the row is cancelled, 202 that its flag is set, the "current state" 409 that it is completed or failed, and "state is changing" that it changed status at least three times during the call |
| Accounting.CancelReplyLasts | app/api/routes.py:254-273 | the 200 and 202 replies stay true in every continuation |
| Accounting.RowsStay | app/models/job.py:69-78 | rows are never deleted and keep owner, type, priority, limits, creation time, key and hash |
| Overshoot.BoundIsTight | app/retry.py:33-73 | the attempt bound is attained for every limit of at least two, every non-empty schedule and every k, with all hypotheses holding: a run that leaves the job waiting with `max_attempts + k - 1` attempts after k outdated decisions |
| Overshoot.FailedBoundIsTight | app/retry.py:33-73 | so is the bound on finished jobs: a run that ends failed with `max_attempts + k` attempts |
| Overshoot.OvershootExactly | app/retry.py:33-73 | under any hypotheses, some run has an outdated decision if and only if the limit is at least two and the schedule is not empty |
| LadderRuns.LadderInEveryRun | app/retry.py:33-73 | in every run, with any crashes and races: a job whose every execution fails retryably has as many claims as attempts (one more while processing), and when it ends it is failed, with at least `max_attempts` claims and at most one more per outdated decision |
| LadderRuns.LadderWithOneActor | app/retry.py:33-73 | with one actor deciding about the job at a time it is claimed exactly `max_attempts` times and ends failed with `attempts = max_attempts` |
| LadderRuns.LadderWaits | app/retry.py:17-73 | with one actor deciding at a time, in every run: an execution that ends either uses up the last attempt and fails the job, or makes it wait until exactly the decision time plus `backoff_delay` of its attempt count (or at once, when that is not positive) |
| LadderRuns.RetryWaits | app/retry.py:33-73 | whoever makes a processing row wait again, in any state: the due time is the decision time plus the backoff that follows its snapshot's count |
| LadderRuns.StepOnLadder | app/retry.py:33-73 | the invariant behind these: no step of anybody, whatever job it is about, breaks the count or lets a snapshot get ahead of its row |
| Safety.StepQuiet | app/repository.py:104-115 | only a claim makes a row processing or changes the message it was claimed under |
| Coverage.StepCovers | app/ticker/runner.py:112-146 | the stranding invariant is inductive: every step of every actor, crashes included, keeps it under the five hypotheses |
| Coverage.NoJobStranded | app/ticker/runner.py:112-146 | under the five hypotheses, in every state of every run, a waiting row is unsynced, or has an undelivered or held message, or is in the delayed set; a processing row's claim message is in the PEL and nobody is about to ack it |
| Stranding.StrandingExactly | app/ticker/runner.py:144-146 | no reachable state strands a job if and only if all five hypotheses hold |
| Stranding.SecondEntryDropped | app/queue/consumer.py:57-65 | without `singleRead` a run loses a job: a blocking read returns a poison entry and the job's, and the worker keeps the first |
| TwoJobs.SecondJobDropped | app/worker/runner.py:329-345 | the everyday case: two ordinary submissions of different priority, one blocking read, nobody crashes, and the second job is lost |
| Stranding.HolderCrashes | app/worker/runner.py:329-345 | without `holdersSurvive` a run loses a job: a worker dies between delivery and claim |
| Stranding.HeldMessageReaped | app/ticker/runner.py:112-146 | without `heldUnreaped` a run loses a job that is processing |
| Stranding.LateMarkSynced | app/repository.py:97-101 | without `quietHandoff` a run loses a job to a late `mark_synced` |
| Stranding.LateZrem | app/queue/delayed.py:14-30 | without `quietPromotion` a run loses a job to the ZREM of a promotion |
| Stranding.LostForGood | app/ticker/runner.py:68-198 | a lost job keeps its row unchanged in every continuation in which nobody calls cancel on it, however often the sweeps run |
| Pointers.ReachableAnchored | app/queue/delayed.py:14-30 | in every reachable state, with no hypothesis, entries and delayed members name stored jobs in their own streams, and cursors and PELs are in order |
| Recovery.ReapEachSought | app/ticker/runner.py:112-146 | handling pending entries in any order neither loses nor finds a job: each is findable and tracked afterwards exactly when it was before |
| Recovery.HandOffEachPlaces | app/ticker/runner.py:68-109 | a reconciler pass puts exactly the listed jobs back into Redis |
| Recovery.JobRecoversExactly | app/ticker/runner.py:68-198 | for any store of the reachable shape, after the visibility timeout and the grace period, the two sweeps recover a job if and only if it was findable and tracked |
| Recovery.RecoveryExactly | app/ticker/runner.py:68-198 | they recover the whole store if and only if every job was |
| Recovery.CrashAnywhere | app/ticker/runner.py:68-198 | in every run, with no hypothesis, wherever the actors die: the stores recover if and only if no row is waiting, synced and nowhere in Redis, and none is processing without a pending entry |
| Recovery.LostIsNotSought | app/ticker/runner.py:144-146 | the jobs that the losing runs lose are of these two kinds |
| Recovery.CrashRecovery | app/ticker/runner.py:68-198 | under the five hypotheses, wherever the system stops with no message between delivery and claim, the two sweeps leave empty PELs, no processing row, and each non-terminal job synced and either undelivered in its stream or in the delayed set |
| Recovery.EverybodyStops | app/ticker/runner.py:112-146 | every reachable state without a delivered-unclaimed message can stop: all actors crash, and the stores stay as they are |
| Restart.RecoverAfterCrash | app/ticker/runner.py:68-198 | the loops of the reaper and of the reconciler, one after the other on the two stores, recover everything exactly when no job had been lost |
| Sweeps.StaleMsgsExact | app/ticker/runner.py:149-198 | the reaper's work list is exactly the pending entries with `now - since` at least the timeout, each once |
| Sweeps.RetryColumns | app/retry.py:23-73 | the whole effect of a retry decision, spelled out: a row that is not processing stays as it is; otherwise the last attempt fails it with the error, or it waits, unstarted and synced, with a message at the end of its stream or a delayed entry at the decision time plus the backoff |
| Sweeps.StaleFromExact | app/ticker/runner.py:149-198 | the part of it between two cursor positions is in id order |
| Sweeps.ReapEachAcks | app/ticker/runner.py:112-146 | handling a list of entries removes exactly those entries from the PEL |
| Sweeps.OrphansExact | app/repository.py:222-235 | the orphan list holds exactly the pending and scheduled, unsynced rows created before the cutoff, by creation time, then by id |
| Sweeps.HandOffEachRows | app/ticker/runner.py:68-109 | a reconciler pass sets the sync flag of exactly the orphans and changes no other column |
| Sweeps.HandOffEachStreams | app/ticker/runner.py:68-109 | each stream gets exactly one entry per listed job of its priority that has no due time, in list order |
| Sweeps.HandOffEachZset | app/ticker/runner.py:68-109 | the delayed set gets exactly the listed scheduled jobs, at the `scheduled_at` of their rows |
| Sweeps.PushedEntries | app/queue/delayed.py:14-30 | a promotion appends to each stream exactly the due jobs of its priority that have a row, in list order, and moves no cursor |
| Backend.Database.Execute | app/repository.py:97-291 | one guarded UPDATE: the row changes if and only if the guard holds, and the result says so |
| Backend.Database.PromoteScheduledToPending | app/repository.py:208-219 | the batch UPDATE sets exactly the listed scheduled rows to pending and changes nothing else |
| Backend.Database.Insert | app/models/job.py:69-75 | an insert is refused exactly when the (owner, key) pair is taken |
| Backend.Database.GetByKey | app/repository.py:294-301 | the lookup finds a row of the pair if there is one |
| Backend.Redis.ReadGroup | app/queue/consumer.py:43-52 | a group read delivers the head of the backlog, moves the cursor past it and leases it |
| Backend.Redis.AutoClaim | app/ticker/runner.py:163-171 | one XAUTOCLAIM call takes over exactly the entries between two cursor positions that have been idle for the timeout, gives them and only them a fresh lease, and always advances, so the caller's loop ends |
| Ticker.ScheduleRetryOrFail | app/retry.py:23-73 | the statement sequence computes the retry decision and has its columns and its Redis write; it wins exactly a processing row, and changes nothing otherwise |
| Ticker.ReapJob | app/ticker/runner.py:112-146 | one reaped entry: the branch its row selects, then the XACK |
| Ticker.ReapStream | app/ticker/runner.py:158-194 | the cursor loop ends and handles each stale entry of the stream once, in id order, whatever the batch size |
| Ticker.ReapStale | app/ticker/runner.py:149-198 | the whole sweep terminates, handles each stale entry once, poison and row-less ones included; afterwards exactly the entries younger than the visibility timeout are pending, with their old leases, and only rows that one of the older entries names have changed |
| Ticker.ReconcileOrphans | app/ticker/runner.py:68-109 | the paging loop terminates and equals one hand-off of all orphans: each waiting, unsynced row older than the grace period gets its sync flag, and any other row, its delayed entry and the messages for it stay as they were; the skip branch is never taken on rows of the proved shape |
| Ticker.OrphansRest | app/repository.py:222-235 | after a page was handed off the same query returns the rest of the list, so each full page shrinks the work |
| Ticker.PromoteDue | app/ticker/runner.py:38-65 | one batch: XADDs, then the ZREM, then the row update, for the first due members; scheduled ones among them become pending |
| Ticker.DueExact | app/queue/delayed.py:8-11 | the due list is exactly the members with a score between 0 and now, by score, then by member |
| Ticker.DrainDue | app/ticker/runner.py:363-365 | repeating until a batch is not full terminates and equals promoting all due members once, in that order; later members stay |
| Agreement.ReaperAlone | app/ticker/runner.py:112-146 | an undisturbed reaper actor of the machine leaves the store that the sweep function computes |
| Agreement.SubmitterAlone | app/api/routes.py:78-130 | an undisturbed submission of the machine inserts its row and performs the whole handoff, as the method does |
| Agreement.RetrierAlone | app/api/routes.py:216-235 | so does an undisturbed retry call, from the reset on |
| Agreement.ReconcilerAlone | app/ticker/runner.py:68-109 | the reconciler actor picks an orphan of the query and computes the pass over it |
| Agreement.PicksOrphans | app/repository.py:222-235 | the machine's reconciler can pick exactly the jobs of the query |
| Agreement.PicksDue | app/queue/delayed.py:8-11 | its promoter can pick exactly the due members |
| Agreement.PicksStale | app/ticker/runner.py:163-171 | its reaper can take exactly the entries idle for the timeout |
| Agreement.TakeIsRead | app/queue/consumer.py:43-52 | a delivery of the machine is a group read with COUNT 1 |
| Agreement.TakeTwoIsRead | app/queue/consumer.py:55-65 | a double delivery of the machine is a blocking read that finds two streams busy, and the worker keeps the entry of the higher one |
| Agreement.ReapIsAutoClaim | app/ticker/runner.py:163-171 | a reap of the machine starts with XAUTOCLAIM's effect on one stale entry |
| Agreement.WithdrawAlone | app/api/routes.py:255-259 | an undisturbed cancel call cancels a waiting row, removes its delayed entry and answers 200 |
| Agreement.AskAlone | app/api/routes.py:260-262 | it sets the flag of a processing row and answers 202 |
| Agreement.RefuseAlone | app/api/routes.py:263-271 | it changes nothing about a finished row and answers 200 or 409 by its status |
| Agreement.PromoterAlone | app/ticker/runner.py:38-65 | an undisturbed promoter actor leaves the store that the promotion function computes |
| Agreement.WorkerAlone | app/worker/runner.py:81-257 | an undisturbed worker actor, batch jobs and ownerless ones included, leaves the store that the worker's exit computes, acknowledged |
| Agreement.SkipAlone | app/worker/runner.py:89-92 | a worker actor whose entry is poison or whose claim is lost acks it and changes nothing else |
| Agreement.LateExitAlone | app/worker/runner.py:195-201 | one whose row has left processing before its exit changes nothing and does not ack |
| Worker.ProcessJob | app/worker/runner.py:81-204 | a lost claim changes nothing and acks; otherwise the exit is written, and acked, exactly when the row is still processing after whatever others committed meanwhile; which exit, with all its columns and its Redis write, is that of ProcessedColumns |
| Worker.ProcessedColumns | app/worker/runner.py:94-204 | spelled out: on a won claim the row starts with its start time (a batch with progress 0); a success ends it completed with its result (a batch with progress 100), a cancellation cancelled with the summary and no attempt more, a rejection failed with its error, no owner failed, a failure as the retry decision says; a row that has left processing keeps what others made of it |
| Worker.HandleMessage | app/worker/runner.py:207-257 | the whole effect on both stores: a poison message is acked and nothing else; otherwise the job is processed, with the columns of ProcessedColumns, and the message is acked exactly when it was skipped or its exit won |
| Worker.FailOnceIsExit | app/worker/runner.py:178-193 | a failed execution of the ladder is `process_job` undisturbed |
| Worker.RiseExact | app/retry.py:33-73 | one failed execution adds one attempt and either ends the job or makes it wait exactly the backoff |
| Worker.Ladder | app/retry.py:17-73 | a job whose every execution fails is claimed exactly `max_attempts` times, waits exactly the backoff delays 1 to `max_attempts - 1` in between, and ends failed with `attempts = max_attempts` |
| Consumers.ReadPriority | app/queue/consumer.py:32-65 | the probe loop and the blocking read, with arbitrary arrivals and other readers between the commands |
| Consumers.WakesAtFirst | app/queue/consumer.py:55-57 | the blocked read wakes up at the first moment at which one of its streams has an entry, or at the timeout |
| Consumers.StrictPriority | app/queue/consumer.py:40-54 | a probe returns entries only if every higher stream was empty when it was probed; the blocking read decides only when all were |
| Consumers.Drain | app/queue/consumer.py:32-65 | with no arrivals, reading until nothing comes back delivers the whole backlog, each entry once, all of a higher stream before any of a lower one, in XADD order |
| Consumers.RestExact | app/queue/consumer.py:32-65 | that backlog is every undelivered entry of every stream and nothing else |
| Consumers.RestInOrder | app/queue/consumer.py:32-65 | it lists no entry twice, the streams in the order of the list, and the entries of a stream in XADD order |
| Consumers.BlockingReadMayTakeSeveral | app/queue/consumer.py:57-65 | a blocking read with COUNT 1 hands over exactly one entry per non-empty stream |
| Consumers.BlockingReadInOrder | app/queue/consumer.py:55-65 | whatever COUNT is, a blocking read returns its entries in the order of the streams, oldest first inside a stream |
| Consumers.BlockingReadHead | app/worker/runner.py:344 | so the entry the worker keeps is the oldest undelivered one of the highest stream that has any, and the read is empty exactly when none has |
| Api.CreateAndHandoff | app/api/routes.py:78-130 | a submission inserts a row with the owner, type, priority, key and hash it was given, one attempt for a batch and the configured limit otherwise, scheduled exactly when due later; it hands the job off to the delayed set or to its stream accordingly; a taken key changes nothing |
| Api.SubmitJob | app/api/routes.py:159-192 | with other calls inserting in between: 202 with the new row of those columns, handed off, when the key was free, else 200 or 409 by the stored hash and no job of its own |
| Api.SubmitTwice | app/api/routes.py:144-192 | a client that sends the same key again, whatever became of the first job, gets that job's id for the same hash and 409 for another |
| Api.CallReplyIsRun | app/api/routes.py:159-192 | the reply of a submission is what the steps of one call of the interleaved submissions lead to, with any steps of others between its lookup and its insert |
| Api.InsertIsCreate | app/api/routes.py:78-130 | a row with the columns that a submission inserts is one that such a call may create |
| Api.RetryJob | app/api/routes.py:216-235 | 404 without the caller's row; otherwise 409 and no change unless the row is failed without a cancel request, and then it starts over with no attempts and no error, and a message goes to the stream of its priority |
| Api.CancelJob | app/api/routes.py:243-273 | at most three rounds; every reply is true of the row at that moment; "state is changing" is answered only when others changed the row in all three; nothing but the row and its delayed entry is touched |
| Api.CancelRound | app/api/routes.py:254-271 | a waiting row is cancelled at that time and its delayed entry removed, an undisturbed processing row gets its flag, no other column changes, and no answer means that somebody changed the row in between |
| Idempotency.StepKeeps | app/api/routes.py:173-192 | every step of any interleaving keeps the table in agreement with a log of indivisible submissions |
| Idempotency.OneJobPerKey | app/models/job.py:69-75 | at most one row per (user, key) in every reachable state |
| Idempotency.RepliesNameTheJob | app/api/routes.py:144-150 | every 200 and 202 names the one row of the key, and a reply is 409 exactly when the request's hash differs from the stored one |
| Idempotency.SecondLookupFinds | app/api/routes.py:188-191 | the lookup after an IntegrityError always finds the row |
| Idempotency.Linearizable | app/api/routes.py:159-192 | every answered call stands once in a history of indivisible submissions, with the reply it got |
| Idempotency.RealTimeOrder | app/api/routes.py:159-192 | a call answered before another starts comes first in that history |
| Paging.PageExact | app/repository.py:83-94 | a page is the newest remaining rows in order, and there is a cursor exactly when rows remain |
| Paging.PagesDescend | app/repository.py:83-94 | over all pages, whatever happens to the table in between, rows come strictly by descending creation time, then by descending id |
| Paging.NoJobTwice | app/repository.py:83-94 | no job is listed twice |
| Paging.PagesComplete | app/repository.py:72-94 | a row that was stored with the requested owner, status, type and priority throughout is listed when the client reads to the end |
| Paging.PagesMatch | app/repository.py:74-82 | a listed row was stored when its page was read, with that creation time and with the owner, status, type and priority wherever one was asked for |
| Paging.CursorsDescend | app/repository.py:89-93 | cursors strictly decrease |
| Paging.PagesBounded | app/repository.py:86-94 | when nothing new appears below the cursor, reading to the end takes at most one request per `limit` rows, plus one |
| TokenCaches.TokenCache.Get | app/auth/cache.py:26-34 | a hit returns its value, an expired entry is removed, nothing else changes |
| TokenCaches.TokenCache.Put | app/auth/cache.py:36-41 | makes room, stores with the new expiry; raises exactly when there is no room even for one entry |
| TokenCaches.TokenCache.Evict | app/auth/cache.py:43-48 | drops all expired entries, then the oldest insertions until one more fits; terminates |
| TokenCaches.EraseEachDead | app/auth/cache.py:43-46 | deleting the expired keys one by one leaves the live entries in their order |
| TokenCaches.PutExactly | app/auth/cache.py:36-48 | after a put the cache holds the new entry, and of the others all when the key was known or there was room, else exactly those live ones among the newest `max_entries - 1` |
| TokenCaches.RunIsLatest | app/auth/cache.py:26-48 | after any calls the cache is within its bound and whatever it holds is the latest `put` of its key; without a positive TTL it stays empty |
| TokenCaches.GetIsLatest | app/auth/cache.py:26-34 | `get` returns nothing, or the value of the latest `put` of that key less than one TTL ago |
| TokenCaches.NewKeySurvives | app/auth/cache.py:43-48 | a newly inserted key survives the next `max_entries - 1` puts until it expires |
| TokenCaches.NewKeyDropped | app/auth/cache.py:43-48 | for every `max_entries` that is tight: after `max_entries` puts of fresh keys, with nothing stored since expired, the key is gone |
| Batches.JobContext.Cancelled | app/worker/context.py:49-88 | a check polls exactly when the last poll is an interval ago or there was none; it then answers whether the row has left processing or has its flag set, and writes the progress exactly when it differs from the last value written; between polls the last answer is repeated |
| Batches.HandleBatch | app/jobs/handlers.py:45-61 | whether it ends or is cancelled, result and error indices ascend and partition the processed prefix, the counts add up, its polls are exactly those the clock prescribes and leave in the database the percentage of the last finished item, the items processed are exactly those before the first poll that saw a reason, and each starts less than one interval after the row began to say stop, or less than its own poll's latency if that is larger |
| Batches.InTimeExactly | app/worker/context.py:49-59 | every item, for every row and stop instant, starts less than one interval after the stop if and only if every check that polls gets its reply within an interval; which checks poll is a function of the clock alone |
| Batches.SlowReply | app/worker/context.py:49-59 | for each check that polls with a slower reply there is a row whose stop that item outruns |
| Batches.SummaryUnique | app/jobs/handlers.py:48-61 | that description leaves no freedom: only one summary describes a processed prefix |
| Hosts.MatchesIsLabelSuffix | app/schemas/payloads.py:92-98 | the string test holds exactly when the dot-separated labels of the entry are a suffix of the host's, for all strings |
| Hosts.HostAllowedExactly | app/schemas/payloads.py:92-98 | a host is allowed exactly when some normalised entry covers it by labels |
| Hosts.JoinOfLabels | app/schemas/payloads.py:92-98 | labels have no dots, and splitting into them loses nothing |
| Hosts.StripTrims | app/schemas/payloads.py:92-98 | normalising an entry removes dots at its ends, all of them, and nothing else |
| Hosts.ItemAcceptedExactly | app/schemas/payloads.py:101-109 | an item passes exactly when its host, or the part after its address's last "@", is covered by the allowlist |
| Hosts.SingleCheckedExactly | app/schemas/payloads.py:101-112 | a payload of one item passes exactly when the item complies, and is otherwise refused with its own host, for the missing "@", or with its lower-cased domain |
| Hosts.BatchCheckedInOrder | app/schemas/payloads.py:110-112 | a batch passes exactly when every item complies, and otherwise it is refused for what is wrong with the first item that does not |

## Left out

- Real Postgres, Redis, SQLAlchemy and HTTP: an UPDATE is an atomic guarded map update, a Redis command its documented effect; ORM identity map and rollback expiry are ignored.
- Consumer-group creation: the groups exist before the first XADD, so no entry is older than its group.
- Telemetry, logging, metrics, trace carriers, health servers, gauges, settings parsing: no effect on job state.
- The TokenReview client, the rate limiter, FastAPI dependencies, deployment: library plumbing.
- SHA-256, JSON and base64 in idempotency hashes and cursors: the hash is a value, the cursor an exact (created_at, id) pair.
- Schema validation and the mock handlers: a handler is an arbitrary outcome.
- The worker's semaphore, its memory recycler and `stats`: latches, counters and folds.
- Delayed-set members without a row in the interleaved machine: rows are never deleted, so there are none; the imperative promoter handles them.
- Coverage.NoJobStranded: stated under the five hypotheses, because without any one of them it is false (Stranding.StrandingExactly).
- Cancellation.StartsAfterRequestExactly: stated for states reachable under the five hypotheses, because without them the job may be lost, and then no continuation claims it; the half that says when no handler starts has no hypothesis (Cancellation.QuelledForGood).
- Recovery.CrashRecovery: stated for states reachable under the five hypotheses, for the same reason; Recovery.CrashAnywhere has no hypothesis and the exact condition.
- Batches.HandleBatch: the progress percentages are arbitrary integers per item, so float rounding plays no part; the handler timeout, which abandons the summary, is not modelled.
- Consumers.ReadPriority: a blocked read wakes up at the first entry or at the timeout; how long it blocks is not modelled.
- Ticker.ReconcileOrphans: required of its rows is the shape that every reachable row has (Accounting.AttemptBound ends with it): no scheduled row without a due time. A full page of such rows would make the source's loop repeat forever.
- Worker.Ladder: one actor on the job, and the promoter is taken to run the moment a retry is due, which fixes the waits; LadderRuns.dfy has the counts and the due times in every run.
- Worker.ProcessJob: what others commit while the handler runs is a parameter; the handler's own progress writes are part of it.
- Api.SubmitJob: payload validation, which rejects a request before anything is stored, is in Hosts.dfy only as far as the allowlists go.
- Paging.PagesBounded: termination needs that rows do not keep appearing below the cursor, which a status filter alone does not ensure.
