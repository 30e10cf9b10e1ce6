# A verified model of the jobs service

The jobs service is a durable queue over one PostgreSQL table. Callers enqueue jobs under an
optional idempotency key, workers claim batches under a lease and report outcomes, a reaper recovers
claims whose lease has lapsed, and a scheduled purge deletes settled rows after seven days. This
project models that table and every statement run against it as a state machine, and proves what
holds over all runs of it, with any number of workers, reapers and enqueuers interleaved.

`dafny verify dfyconfig.toml` checks everything.

## How it is laid out

| file | what it holds |
|---|---|
| `Jobs.dfy` | a row, the CHECK constraints, the unique index, each statement's WHERE and SET clauses |
| `Queue.dfy` | the table as a state machine: one event per statement, runs of events |
| `Reachable.dfy` | the invariant of every reachable row, stronger than the constraints |
| `Lifecycle.dfy` | finality, retention, no job lost, durable outcomes |
| `Attempts.dfy` | attempts count claims; the cap, exactly when it holds; the decreasing measure; crash-only jobs |
| `Leases.dfy` | a ledger of grants read off the events alone, lease exclusion, and which claim a report ends |
| `Idempotency.dfy` | creations and purges per key, and when two answers agree |
| `Dispatch.dfy` | bounded bypass, and what a late commit does to it |
| `Sweep.dfy`, `Reaper.dfy` | the recovery sweep over whole runs, and the loop that drives it |
| `Locking.dfy` | every writing statement as an open transaction that waits, locks, then commits or rolls back; linearisation |
| `Contention.dfy` | bounded bypass counted in rows that wait or are about to |
| `Progress.dfy` | a job settles after a bounded number of rounds |
| `SplitRetry.dfy` | the retryable failure as a read and a later write, or none |
| `System.dfy` | locks and split retries together, and the queue's runs as histories of the service |
| `Backlog.dfy`, `Watch.dfy`, `StatusCache.dfy` | the readers |
| `Examples.dfy` | the steps the concrete runs are made of |
| `Table.dfy` | the table and its index updated in place, each method tied to its event |
| `ClaimService.dfy`, `SettleService.dfy`, `EnqueueService.dfy`, `Errors.dfy` | the services above it and the transport codes |

An event carries the statement's parameters, its clock readings (in the order they are written) and
the choices the database made: which rows others held locked, how `run_at` ties were broken. Batches
are sets, because RETURNING promises no order. The clock never goes back. Ids are fresh and never
reused. A statement that fails or rolls back is an idle event.

An event takes effect when its transaction commits, and what it writes of the clock may have been
read earlier. Results about times say what that costs: by a `lag`, which bounds how long after its
reading a change commits, or by the transactions open at the moment in question.

## Where the code and its documentation part

- The comments on the retry say its transaction keeps the reaper from recovering the job between the
  read and the write (internal/core/jobSettle.go:145-147). The transaction has default isolation
  (cmd/grpc/main.go:91) and the read takes no lock, so it does not. The write's guard names the
  worker, not the claim: `SplitRetry.StaleWriteOverrunsCap` is a run in which a job capped at two
  attempts is claimed three times. `SplitRetry.WriteBreaksCapIff` and `Attempts.CapKeptIffNoOverrun`
  say exactly when the cap breaks, and `SplitRetry.CapHoldsWithoutSelfReclaim` gives, job by job, a
  condition under which it does not.
- The terminal-fields constraint is described as rejecting either timestamp on a running job
  (internal/models/migrations/20260722233602_jobs_table.up.sql:62-64). It accepts one of the two;
  `Lifecycle.ChecksAloneLosePendingRow` shows a pending row it admits being purged. Reachable rows
  never look like that.
- The guard of a report is described as keeping a worker settling stale work from overwriting
  anything (internal/dao/pg.jobSettle.sql:1-3). It names the worker, not the claim, so a worker that
  lost a job and took it back can settle its second run with the report of its first:
  `Leases.LateReportEndsSecondClaim`. `Leases.ReportEndsClaim` says exactly when a report ends the
  claim it was made for: if and only if the row's attempt is still the one that claim was given.
- The status cache's lifetime is described as bounding how stale the reported depth can be
  (cmd/grpc/main.go:42-44). It bounds the age since the value was stored. `StatusCache.StalenessBound`
  gives what does bound staleness, the lifetime and the slowest measurement together and nothing less,
  and `StatusCache.TTLBoundsStalenessIff` when the lifetime alone does: if and only if no measurement
  takes any time.
- Nor does a later report have to be as recent as an earlier one: `StatusCache.ReportsCanGoBack` shows
  a slow probe overwriting a newer value. `StatusCache.ReportsGoForwardIff` says exactly when it is: if
  and only if no store replaces a measurement by one begun earlier, which a comparison before the
  store would ensure.
- The idempotency key is described as having no expiry (README.md:25). It lasts as long as its row:
  `Idempotency.KeyIsReused` is a run that creates two jobs under one key,
  `Idempotency.AnswersAgree` says exactly when two submissions get the same job, and
  `Idempotency.ReuseWaitsForRetention` how long a key is safe.

Ordering claims by `run_at` is not first come, first served either, and nothing promises that it is. A
write that has stamped `run_at` and not committed is invisible to claims, so a job can be overtaken by
one stamped before it: `Dispatch.LateCommitOvertakes`. `Dispatch.AheadOnlyShrinks` says exactly when
that happens, and `Contention.LockedBypass` bounds it by the rows that open transactions hold or
wait for when the job begins to wait.

## Model

| member | source | states |
|---|---|---|
| Reachable.StatementKeepsInvariant | internal/models/migrations/20260722233602_jobs_table.up.sql:59-79 | each statement keeps lease and holder set exactly while claimed, both settle timestamps exactly while terminal, run_at and settled_at not in the future, honest labels, and unique keys |
| Reachable.InvariantHolds | internal/models/migrations/20260722233602_jobs_table.up.sql:59-79 | the invariant holds at every position of every run |
| Reachable.InvariantImpliesChecks | internal/models/migrations/20260722233602_jobs_table.up.sql:27-72 | the invariant implies every CHECK |
| Reachable.ChecksAdmitMore | internal/models/migrations/20260722233602_jobs_table.up.sql:42-72 | the CHECKs admit a live row with an expiry, and a holder without a claim |
| Reachable.InsertMeetsChecks | internal/models/migrations/20260722233602_jobs_table.up.sql:27-72 | an insert goes through exactly when the row it makes meets every CHECK |
| Reachable.PartialWritesAreRefused | internal/models/migrations/20260722233602_jobs_table.up.sql:59-72 | a claim without a lease, a hand-back or settle that keeps it, a settle without both timestamps and a running row with both are refused |
| Reachable.GoneForGood | internal/core/jobEnqueue.go:73-80 | a deleted job's id never reappears |
| Lifecycle.SettledIsFinal | internal/dao/pg.jobSettle.sql:8-21 | after settling, a row is unchanged until purged; submitted fields never change at all |
| Lifecycle.LabelsAreHonest | internal/core/jobSettle.go:107-115 | cancelled is never reached; a result means succeeded; an error means failed or abandoned |
| Lifecycle.PurgeIsSafe | builds/database.sql:25 | a row disappears only by a purge, only when settled, only after settled_at plus the retention |
| Lifecycle.StampsAreReadings | internal/dao/pg.jobClaim.sql:29-34 | run_at, lease and settle time are the clock readings of the event that last changed the row |
| Lifecycle.PurgeIsPrompt | builds/database.sql:25 | a purge whose clock is past the retention of a settled row deletes it |
| Lifecycle.SettledBy | internal/dao/pg.jobSettle.sql:15-16 | a row live at one position and settled at another carries the clock reading of the one event that settled it in between |
| Lifecycle.SettledLater | internal/dao/pg.jobSettle.sql:15-16 | a row settled after a position carries a settle time behind the clock there by at most what its settle took to commit |
| Lifecycle.SettledAfterChange | internal/dao/pg.jobSettle.sql:15-16 | under row locks, a settle time is never behind an earlier change of the row |
| Lifecycle.GoneTakesRetention | builds/database.sql:25 | a job live at one position and gone at another has more than the retention between them, less what its settle took to commit |
| Lifecycle.NeverLost | README.md:25 | every job is in the table, or settled more than the retention ago |
| Lifecycle.OutcomeEndures | internal/dao/pg.jobSettle.sql:10-12 | the result or error a holder reported is what the row carries ever after |
| Lifecycle.ChecksAloneLosePendingRow | internal/models/migrations/20260722233602_jobs_table.up.sql:65-72 | a row satisfying every CHECK is deleted while pending |
| Attempts.AttemptCountsClaims | internal/dao/pg.jobClaim.sql:5-7 | attempt equals the number of claims of the job so far, in every run |
| Attempts.CapHolds | internal/dao/pg.jobClaim.sql:18-32 | attempt stays within max_attempts, strictly while pending, if no requeue overruns |
| Attempts.CapKeptIffNoOverrun | internal/dao/pg.jobRequeue.sql:7-17 | the cap holds at every position if and only if no requeue takes effect on a row that used its last attempt |
| Attempts.AtomicNeverOverruns | internal/core/jobSettle.go:170-182 | a run whose retries are indivisible never overruns |
| Attempts.MeasureDescends | internal/dao/pg.jobReap.sql:27-30 | every status change moves strictly down the measure; nothing moves up it |
| Attempts.ChangesAreClaimsAndEnds | internal/dao/pg.jobClaim.sql:5-7 | a job's status changes are exactly its claims and their ends |
| Attempts.ChangesSpendMeasure | internal/dao/pg.jobReap.sql:27-30 | status changes so far plus the remaining measure never exceed the initial measure |
| Attempts.JobIsBounded | internal/dao/pg.job.go:59-63 | at most max_attempts claims and twice as many status changes per job, over the whole run |
| Attempts.AttemptNeverOverflows | internal/dao/pg.jobClaim.sql:32 | if no requeue overruns, the increment stays within max_attempts and smallint |
| Attempts.AbandonedUsedEveryAttempt | internal/dao/pg.jobReap.sql:7-9 | abandoned means attempt, max_attempts and the claim count are equal |
| Attempts.ReportSettlesIff | internal/core/jobSettle.go:107-116 | a job turns succeeded or failed by exactly the final reports of its holder |
| Attempts.CrashOnly | internal/core/jobReap.go:15-18 | a job kept within its cap that no report settles, late reports and hand-backs notwithstanding, settles only as abandoned, after exactly max_attempts claims, with the reaper's error and no result |
| Leases.LedgerMatchesTable | internal/dao/pg.jobClaim.sql:29-34 | a claimed row has exactly one outstanding grant, to its claimed_by and until its lease; other rows have none |
| Leases.GrantStands | internal/dao/pg.jobSettle.sql:18-21 | a grant ends only by its holder's report or a sweep that finds it expired |
| Leases.LeaseExclusion | internal/core/jobClaim.go:28-30 | between two grants of a job, the first lease ended or its holder reported |
| Leases.LatestClaimHolds | internal/dao/pg.jobClaim.sql:29-34 | an outstanding grant is the one its job's latest claim was given |
| Leases.ReportEndsClaim | internal/dao/pg.jobSettle.sql:1-3 | a report that takes effect ends the job's grant; that is the reporting worker's given claim if and only if the job was not claimed since, that is, the attempt is unchanged |
| Leases.LateReportEndsSecondClaim | internal/dao/pg.jobSettle.sql:18-21 | a run in which the report of a worker's first claim settles its second |
| Idempotency.OneRowPerKey | internal/models/migrations/20260722233602_jobs_table.up.sql:75-79 | at most one row per owner, kind and key at every position |
| Idempotency.KeyStep | internal/dao/pg.jobEnqueue.sql:16-20 | a creation needs the key free, a purge frees it, no other event matters to it |
| Idempotency.CreationsBalancePurges | internal/core/jobEnqueue.go:102-109 | created answers equal purges, plus one while the key is taken |
| Idempotency.HolderEndures | internal/dao/pg.jobEnqueue.sql:16-20 | the row holding a key is the same at two positions if and only if the key was not purged in between |
| Idempotency.EverySubmissionIsAnswered | internal/dao/pg.jobEnqueue.sql:16-22 | every submission under a key is answered with exactly one job: its own if and only if it created one, otherwise the key's holder |
| Idempotency.AnswersAgree | internal/dao/pg.jobEnqueue.sql:1-3 | two submissions under a key are answered with the same job if and only if the key was not purged in between |
| Idempotency.KeyIsReused | README.md:25 | a run that creates a second job under a key, after a purge |
| Idempotency.ReuseWaitsForRetention | cmd/grpc/main.go:35-37 | two creations under a key have between them a purge of the first job, settled at least the retention before the second, and under row locks not before it was visible |
| Dispatch.AheadChanges | internal/dao/pg.jobClaim.sql:18-27 | the pending rows up to a time lose exactly what is claimed and gain exactly what turns pending on a reading up to it |
| Dispatch.AheadOnlyShrinks | internal/dao/pg.jobRequeue.sql:12 | they only shrink if and only if nothing turns pending on so old a reading |
| Dispatch.QueueBalances | internal/dao/pg.jobClaim.sql:18-27 | over any stretch of a run, what the queue up to a time held plus what joined it is what was claimed from it plus what it holds |
| Dispatch.PassingOverCosts | internal/dao/pg.jobClaim.sql:22-27 | a claim that passes over a due, unlocked job takes a full batch of rows no younger, whichever others it found locked |
| Dispatch.BoundedBypass | internal/dao/pg.jobClaim.sql:18-27 | with k rows no later than the job, and j joining them by committing late, any ceil((k + j) / n) claims of at least n for its kind that find the job itself unlocked take it |
| Dispatch.LateCommitOvertakes | internal/core/jobSettle.go:154-198 | a run in which a requeue stamped earlier and committed later is claimed ahead of the only waiting job |
| Contention.ContendersOnlyShrink | internal/dao/pg.jobClaim.sql:18-27 | once the clock has passed a time, no row joins those pending up to it or staked by transactions begun by then; a claim's batch leaves them |
| Contention.LockedBypass | internal/dao/pg.jobClaim.sql:18-27 | with k such rows, any ceil(k / n) claims of at least n that find the job unlocked take it, however many workers contend, through any late commits and rollbacks |
| Contention.UnobstructedClaimServes | internal/dao/pg.jobClaim.sql:18-27 | a locked claim counts if the job was due and unlocked when it selected |
| Progress.RoundChangesStatus | internal/lib/reaper.go:75-77 | enough serving claims while a job waits, or one sweep that finds its lease ended while it is claimed, change its status whatever else happens |
| Progress.UnobstructedSweepFinds | internal/dao/pg.jobReap.sql:13-23 | a locked sweep counts if the lease had ended and the row was free when it looked |
| Progress.ClaimIsRound | internal/dao/pg.jobClaim.sql:18-27 | one claim large enough for every contender, which found the job due and unlocked, is a round |
| Progress.SweepIsRound | internal/dao/pg.jobReap.sql:13-23 | one sweep that looked after the lease had ended and found the row free is a round |
| Progress.JobSettles | README.md:25 | a job kept within its cap has settled after at most 2 * max_attempts such rounds |
| Sweep.SweepIsExact | internal/dao/pg.jobReap.sql:13-55 | no unlocked lapsed lease is left, nothing else changes, recovered rows split exactly into requeued and abandoned |
| Sweep.SweepAgainIsNoOp | internal/dao/pg.jobReap.sql:19-23 | a second sweep at the same clock changes nothing |
| Sweep.RecoveredOnce | internal/dao/pg.jobReap.go:32-38 | two recoveries of a job have a claim between them |
| Sweep.LapsedWaits | internal/lib/reaper.go:38-40 | a lapsed claim stays as it is until reported on or recovered |
| Sweep.SkippedIsRecoverable | internal/lib/reaper.go:75-77 | a lapsed claim skipped or rolled back has ended by the next sweep that finds it unlocked: taken by it, or dealt with before |
| Reaper.SweepOnce | internal/lib/reaper.go:63-73 | one pass: a sweep event and its count, or a failure and an unchanged table |
| Reaper.Run | internal/lib/reaper.go:41-58 | one sweep at boot and one per tick, failures included |
| Locking.ActionIsOneEvent | internal/dao/pg.jobClaim.sql:12-41 | each locking action commits exactly the table of one queue event |
| Locking.CommitIsOneReap | internal/dao/pg.jobReap.sql:13-55 | a sweep locked earlier and committed now is one sweep at the commit |
| Locking.PassedOverIsExcused | internal/dao/pg.jobClaim.sql:1-3 | what the linearised statement passes over was locked or waited for when it looked, or became eligible later |
| Locking.ActionKeepsInvariant | internal/dao/pg.jobSettle.sql:1-3 | rows locked by claims, sweeps, reports and inserts stay as selected under everyone else's commits |
| Locking.InFlightBatchesAreDisjoint | internal/dao/pg.jobClaim.go:36-38 | rows held by in-flight transactions of any kind never overlap |
| Locking.CommitChanges | internal/dao/pg.jobClaim.sql:25-28 | a commit changes only rows it holds, and leaves none due or lapsed at the clock it began at |
| Locking.CommitLeavesRest | internal/dao/pg.jobClaim.sql:29-41 | a commit leaves every row it does not hold as it was |
| Locking.CommitTakesBatch | internal/dao/pg.jobClaim.sql:29-41 | every row of a committed claim is claimed for its worker under its lease; of a sweep, recovered |
| Locking.CommitReports | internal/dao/pg.jobSettle.sql:8-21 | a committed report settles or hands back the row it holds, with the times it read |
| Locking.CommitInserts | internal/dao/pg.jobEnqueue.sql:4-22 | a committed insert adds the submitted row, or nothing when answered with another |
| Locking.CommitIsWhatWasAsked | internal/dao/pg.jobClaim.sql:12-41 | what a transaction commits has the parameters, rows and readings it was opened with |
| Locking.OthersGoOn | internal/dao/pg.jobClaim.sql:1-3 | an action leaves every other transaction as it was, except reports waiting for a row it changes |
| Locking.LookingNeverWaits | internal/dao/pg.jobClaim.sql:1-3 | a claim and a sweep can select at any time, whoever holds what |
| Locking.HoldersNeverWait | internal/dao/pg.jobClaim.sql:1-3 | a transaction holding its rows can commit at any time, unless a key was taken or an attempt would leave its column, and roll back always |
| Locking.ReportingOutcome | internal/dao/pg.jobSettle.sql:18-21 | a report gets its row at once, or waits for it, or comes to nothing, by guard and lock alone |
| Locking.WaitersGetFreeRows | internal/dao/pg.jobSettle.sql:18-21 | a waiting report goes on exactly when its row is free |
| Locking.RunsLinearise | internal/dao/pg.jobClaim.sql:12-41 | every fine-grained run has the same committed tables as a run of one-step statements in which a row's changes read the clock in turn |
| Locking.ChangeReadsLaterAt | internal/dao/pg.jobEnqueue.go:58-60 | a change of a row reads the clock no earlier than the oldest transaction holding it, or waiting for it, began, and leaves it free |
| Locking.SeenLiveIsKept | builds/database.sql:25 | a job seen live and unheld settles after it was seen and is kept for the whole retention from then; a held or awaited one, from when its oldest holder began |
| Locking.ShortTransactionsCommitWithin | internal/core/jobSettle.go:154-198 | if no transaction stays open for longer than a lag, every change commits within it of its clock reading |
| Locking.PurgeWaitsForReplaysOnly | builds/database.sql:25 | a purge can run if and only if no submission is being answered with a row it deletes |
| SplitRetry.SplitRunIsRun | internal/core/jobSettle.go:154-198 | split retries are runs of the queue's statements |
| SplitRetry.FreshWriteIsAtomic | internal/core/jobSettle.go:170-193 | a write whose read is still current acts as the indivisible retry, guard matching or not |
| SplitRetry.SplitActsAtomically | internal/core/jobSettle.go:145-198 | without a worker reclaiming a job under its own open retry, the run is one with atomic retries, table for table; retries may be given up at any point |
| SplitRetry.CallStandsForRead | internal/core/jobSettle.go:154-170 | an open retry is for the job, worker and error of its call, with the counters its read saw |
| SplitRetry.RetryLeaves | internal/core/jobSettle.go:170-193 | its write hands the job back or fails it with the reported error, as the read decided, or changes nothing if the claim was lost |
| SplitRetry.CapHoldsWithoutSelfReclaim | internal/core/jobSettle.go:154-198 | a job's cap holds up to any position before which no worker took that job back under its own open retry |
| SplitRetry.ReadPlusClaims | internal/dao/pg.jobGetByID.sql:4-9 | what the write finds is what the read saw plus the claims since |
| SplitRetry.WriteBreaksCapIff | internal/dao/pg.jobRequeue.sql:14-17 | a write breaks the cap if and only if the read chose to requeue and the claims since used up the rest |
| SplitRetry.StaleWriteOverrunsCap | internal/core/jobSettle.go:145-147 | a run that claims a job three times under a cap of two |
| System.HistoryIsFineRun | cmd/grpc/main.go:89-98 | a history of the service is a run of the locking system |
| System.HistoryIsSplitRun | internal/core/jobSettle.go:154-198 | ... and a run of split retries, in which a retry writes when it commits |
| System.ServiceRunsTheQueue | cmd/grpc/main.go:89-98 | locks, late commits, rollbacks and split retries together commit the tables of a queue run |
| System.EveryRunIsServed | cmd/grpc/main.go:89-98 | conversely, every run of the queue whose statements take turns is a history of the service, three steps to an event |
| System.ServiceRetryLeaves | internal/core/jobSettle.go:154-198 | a retry that commits hands back or fails the job it was called for, with its error, and leaves every other job alone |
| System.RetriesWaitForRowsOnly | internal/core/jobSettle.go:154-198 | a retry can read, write, commit and give up at any time, and waits only for its row |
| System.OthersIgnoreRetries | internal/core/jobSettle.go:154-198 | an open retry stands in no other statement's way but through the row it holds |
| System.SelfReclaimIsTakeBack | internal/core/jobSettle.go:145-147 | the condition for the cap, read off the locks, is the one read off the split retries |
| System.ViewsAgree | internal/core/jobSettle.go:154-198 | the locking view and the split view of a history are one and the same run of the queue |
| System.ServiceKeepsCap | internal/core/jobSettle.go:154-198 | in the full system a job's cap holds up to any position before which no claim committed it to a worker whose own retry of it was open |
| System.ServiceSettles | README.md:25 | ... and then 2 * max_attempts rounds settle it, through locks, late commits, rollbacks and crashes |
| Backlog.BacklogsAgree | internal/dao/pg.jobQueueDepth.sql:11-22 | in every reachable state both backlog queries report the same count; the age is nonnegative and absent exactly at zero |
| Backlog.AgeIsOldest | internal/dao/pg.jobQueueDepth.sql:11-22 | the reported age is how long the oldest due row has been due |
| Backlog.CountAgeIsOldest | internal/dao/pg.jobCountPending.sql:8-21 | likewise for all pending rows, and zero on an empty queue |
| Backlog.ScheduledRowSplitsQueries | internal/dao/pg.jobCountPending.sql:8-21 | off the reachable states they differ |
| Backlog.BacklogIsWhatAClaimTakes | internal/dao/pg.jobQueueDepth.sql:6-10 | an unlimited claim over all kinds takes exactly the reported count and leaves none |
| Backlog.OpenClaimTakesOldest | internal/dao/pg.jobClaim.sql:18-25 | an unobstructed claim takes the smaller of its limit and the backlog |
| Watch.Stream | internal/handlers/grpc.jobWatch.go:68-106 | sends the polled rows with consecutive repeats removed, and ends for exactly the reason reported |
| Watch.HeardShape | internal/handlers/grpc.jobWatch.go:73-105 | the rows read are the polls up to the first failure or through the first settled row |
| Watch.SnapshotsAreWellFormed | internal/handlers/grpc.jobWatch.go:93-97 | at most one terminal snapshot, only as the last; no status twice in a row; the last snapshot has the last polled status |
| Watch.SnapshotsAreBounded | internal/handlers/grpc.jobWatch.go:73-105 | at most 2 * max_attempts + 1 snapshots under the cap |
| Watch.LiveJobIsNeverMissing | internal/handlers/grpc.jobWatch.go:74-79 | a job live at one position is read as it stands by its owner at any other within the retention, less what its settle takes to commit |
| Watch.OnlyOwnersRead | internal/dao/pg.jobGet.sql:1-10 | a read finds a job exactly when it exists and is the caller's; otherwise it is not found |
| Watch.StreamOverRun | internal/handlers/grpc.jobWatch.go:68-106 | over such polls of an evolving run: at most 2 * max_attempts + 1 snapshots, one terminal at most and last, and not-found only as the first answer |
| StatusCache.GrpcStatus.ReportQueueDepth | internal/handlers/grpc.status.go:107-133 | one probe: the cached report, or the measured one stored, or nothing on failure |
| StatusCache.ProbesAreApart | internal/handlers/grpc.status.go:120-131 | a probe ends when its query fails or its measurement is stored; a failure stores and reports nothing; other probes go on |
| StatusCache.ReportsAreFresh | internal/handlers/grpc.status.go:107-133 | over any interleaving, every report was stored within the last TTL, its measurement before that |
| StatusCache.ReportsWereMeasured | internal/handlers/grpc.status.go:120-133 | every report carries the depth some query returned, begun and ended when it says |
| StatusCache.FreshnessIsTight | internal/handlers/grpc.status.go:111-130 | for every latency there is a report as old as the TTL and the latency together, less a tick |
| StatusCache.StalenessBound | cmd/grpc/main.go:42-45 | with measurements stored within a latency of their start, a bound holds of every report of every history if and only if it is at least the TTL and the latency together |
| StatusCache.TTLBoundsStalenessIff | cmd/grpc/main.go:42-45 | the TTL alone bounds staleness if and only if that latency is zero |
| StatusCache.StoreLastsTheTTL | cmd/grpc/main.go:42-45 | a stored measurement answers every probe less than one TTL later, unless replaced, and none after; only then is the table measured again |
| StatusCache.ReportsGoForwardIff | internal/handlers/grpc.status.go:127-130 | over any history, reports never go back in time if and only if no store replaces a measurement by one begun earlier |
| StatusCache.ReportsCanGoBack | internal/handlers/grpc.status.go:127-130 | a slow probe can overwrite a newer measurement |
| Table.JobTable.Enqueue | internal/dao/pg.jobEnqueue.sql:4-22 | inserts or returns the row holding the key; fails on a CHECK without changing a row |
| Table.JobTable.SelectClaimable | internal/dao/pg.jobClaim.sql:12-28 | picks an oldest-first batch up to the limit, skipping locked rows |
| Table.JobTable.Claim | internal/dao/pg.jobClaim.sql:12-41 | the table becomes what one claim event makes of it; each taken row is held by the worker under its lease with one more attempt |
| Table.JobTable.Settle | internal/dao/pg.jobSettle.sql:8-23 | settles exactly the row the guard matches, or none |
| Table.JobTable.Requeue | internal/dao/pg.jobRequeue.sql:7-19 | hands back exactly the row the guard matches, or none |
| Table.JobTable.Reap | internal/dao/pg.jobReap.sql:13-55 | the table becomes what one sweep event makes of it |
| Table.JobTable.Purge | builds/database.sql:25 | deletes exactly the expired rows, and their index entries |
| Table.JobTable.Drain | internal/dao/pg.jobClaim.sql:18-25 | claiming until the backlog is empty takes ceil(backlog / limit) claims |
| ClaimService.Exec | internal/core/jobClaim.go:43-76 | refuses exactly an empty worker or nonpositive limit or lease; otherwise takes an oldest-first batch of the kinds up to the limit, none of it locked, for the worker and the lease asked for |
| SettleService.Exec | internal/core/jobSettle.go:90-116 | refuses exactly a missing id or worker; otherwise one event of the queue, succeeding exactly when the caller holds the job, which then carries the reported result, the reported error or, with an attempt left, is pending again |
| SettleService.SettleOnce | internal/core/jobSettle.go:119-143 | one terminal write; a failed guard maps to failed-precondition |
| SettleService.RetryRead | internal/core/jobSettle.go:155-170 | decides from the row read; a job not held maps to failed-precondition |
| SettleService.RetryWrite | internal/core/jobSettle.go:170-193 | a claim lost since the read leaves the rows unchanged and maps to internal |
| SettleService.HeldWriteIsRetry | internal/core/jobSettle.go:145-147 | uninterrupted, read and write are the indivisible retry |
| SettleService.OneTransitionOrNothing | internal/dao/pg.jobSettle.go:42-46 | a report moves exactly the named job out of the caller's claim, or nothing |
| EnqueueService.Exec | internal/core/jobEnqueue.go:58-114 | created, replayed or conflicting, each exactly when it should be; a created row holds the submission with its defaults, and only a creation changes a row |
| EnqueueService.SpaceIsWhiteSpace | internal/core/jobEnqueue.go:26-27 | a blank kind is one of Unicode white space only |
| EnqueueService.Handle | internal/handlers/grpc.jobEnqueue.go:48-68 | each code exactly when it should be, and otherwise the row created or the key's row with the same payload digest |
| EnqueueService.FingerprintsAreDigests | internal/core/jobEnqueue.go:116-123 | every stored fingerprint is the digest of the payload as submitted |
| EnqueueService.AnswerFollowsBytes | internal/core/jobEnqueue.go:104-109 | equal normalised bytes never conflict, a conflict means different bytes, and an injective digest makes it exact |

## Left out

- PostgreSQL below row locks, guard recheck and unique-key serialisation: MVCC, planning, indexes other than the unique one, vacuuming.
- The columns created_at, updated_at, cancel_requested_at and provider_call_id: nothing here reads them or depends on them.
- The purge's own transaction: it deletes at one instant, so a row it has deleted and not yet committed is not modelled.
- Per-row clock readings in a WHERE clause: a statement takes one reading for its selection; its SET clauses read the clock per row.
- Time units: one integer tick for everything; make_interval's calendar and the float conversion of ages are not modelled.
- SHA-256 (an arbitrary function here), UUID version 7 (freshness only), JSON and jsonb (opaque strings, a payload being the bytes as submitted; jsonb's own normal form and an invalid payload's rejection are not modelled).
- gRPC plumbing, protobuf conversion of jobs and statuses, UUID parsing, configuration, tracing and logging: easy members only.
- The get, count-pending and queue-depth services: thin wrappers over the reads in `Watch.dfy` and `Backlog.dfy`.
- Tickers, contexts and the mutex itself: a tick, a cancellation or an interleaving is a choice of the environment.
- Table.JobTable.Claim: one uninterrupted method with the rows others hold locked as a parameter; the interval between its lock and its commit is in `Locking.dfy`.
- Table.JobTable.Reap: likewise.
- SettleService.Exec: no interference inside the call; the interrupted retry is RetryWrite on an arbitrary later table, and `SplitRetry.dfy`.
- Reaper.Run: what others do to the table between ticks is not inside this method; `Sweep.dfy` covers it over whole runs.
- StatusCache.GrpcStatus.ReportQueueDepth: one probe alone; interleaved probes are the state machine in the same file.
