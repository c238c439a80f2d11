# GoFire, modelled and proved in Dafny

GoFire is a job scheduler: programs enqueue one-off jobs and register cron jobs, and any
number of worker processes take them from two PostgreSQL tables, lock them, run their
handlers and record the results. This project models four parts of it and proves what they
keep in every run.

1. **Cron expressions and the next-run search** (`Text`, `Calendar`, `CronField`,
   `CronGrammar`, `CronShapes`, `CronSearch`, `CronLaws`, `CronPosix`, `CronWitnesses`). `parsePart` is proved against a set denotation
   of its token grammar; `CalculateNextRun`, which skips by month, day, hour and minute
   under a budget of 525600 iterations, is proved equal to the minute-by-minute search for
   every expression and every UTC time.
2. **The life of enqueued jobs** (`Statuses`, `EnqueuedTable`, `EnqueuedProtocol`,
   `EnqueuedCluster`, `EnqueuedLedger`, `EnqueuedSingle`, `EnqueuedHistory`,
   `EnqueuedOutcome`). A state machine
   over the table, the fetched snapshots and the executions in flight; a run is any list of
   enabled events of any number of workers, with lost replies, failed statements, panics,
   crashes and restarts. The cluster executes every run by the statements of the store.
3. **The life of cron jobs and their clocks** (`CronTable`, `CronProtocol`, `CronHistory`, `CronCluster`,
   `CronPaging`, `TimerLoop`).
4. **Around the stores** (`Paging`, `SqlBuilder`, `SqlText`, `BatchWorker`, `WorkerPool`): paging, the
   numbering of placeholders, the worker that moves broker messages to the table, and the
   goroutines, permits and result channel of a manager.

`dafny verify dfyconfig.toml` checks everything.

## How the code is modelled

- A time is a number of nanoseconds (seconds in the enqueued protocol) since 1 January of
  year 1, UTC. The calendar is the proleptic Gregorian one and is defined for all days.
- Integers are unbounded except where the code can overflow: `i += step` in `parsePart`
  wraps at 64 bits, and `strconv.Atoi` rejects what does not fit.
- A statement on a table is one atomic step, which may fail, or be committed with its reply
  lost. A worker's snapshot is what it fetched, and is used later as the code uses it.
- `execs` records which executions are open. An execution is lost when its worker stops,
  its handler panics, or its result cannot be written; the row does not show the difference.
- Handlers, clocks, timers, the broker, the JSON codec and the success of each statement are
  parameters or events, so the theorems hold for all their choices.

## Where the code differs from what one expects

These are modelled as written. For each, a lemma says exactly when it matters, and another
gives an input or a run on which it does.

- The end of the range in a token `a-b/s` is shadowed (line 66 of the parser), so the token
  yields `{0}` for a = 0 and nothing otherwise: `MeaningIsIntendedIff`, `FieldEmptyIff`;
  `SteppedRangeIsEmpty`.
- A field that begins with a stepped star must be that star alone: `*/5,1` is rejected while
  `1,*/5` is accepted: `FieldRoundTrip`; `StarMayNotStandFirst`, `StarMayStandLast`.
- A step near the largest 64-bit integer wraps around and adds a negative value to the set:
  `SteppedMeaning`, `FieldInBoundsIff`; `StepWrapsAround`.
- Month, day of month and day of week are all required, where the `crontab` utility of
  POSIX.1-2017 accepts a restricted weekday as an alternative to a restricted month or day of
  month: `PosixAgreesIff`; `FridayTheThirteenth`.
- The comment on the search budget speaks of one year of minutes. The budget covers the
  whole 400-year cycle of the calendar, so the fallback to one hour later is taken only when
  no minute ever matches: `CalculateNextRun`, `SatisfiableIff`; `LeapDayIsFar`,
  `LastOfFebruary`.
- `UnlockStaleJobs` ignores its timeout. Recovery while a job is in flight lets two workers
  run the job at once: `StartKeepsJobIff`, `KeptThroughoutIff`, `NoisyStartShares`; `NoisyStartSharesJob`.
- `MarkFailure` chooses `dead` from the snapshot and increments the row. A job with three
  attempts is `failed` for good exactly when its third failure was judged on a snapshot
  fetched before its second was recorded: `FailureVerdictIff`, `StrandedIff`;
  `StaleSnapshotsStrandAJob`.
- `LockJob` does not look at the time. A lock is early exactly when a sweep has marked the
  job since the worker fetched it, less than a minute ago: `LockedEarlyIff`;
  `StaleSnapshotLocksEarly`.
- The comment in `FetchDueCronJobs` says that jobs with an expired lock are due again. They
  are fetched, but `LockJob` never takes a `processing` row, so such a job is never run
  again: `OrphanForever`, `OrphanedByIff`; `CrashOrphans`.
- The paging loop of the cron manager locks jobs between its fetches, and a locked job that
  was listed for its status alone leaves the clause, so the next page skips a job. The loop
  visits every job exactly when no job on a page before the last leaves:
  `WalkVisitsAllIff`, `ProcessCronJobs`; `SecondJobIsSkipped`.
- The cron manager leaves the wait group before it releases its permit, so `Start` may
  return with a permit still held: `FullAtReturnIff`; `CronReturnsEarly`.
- The result processor of the enqueued manager ends with the context, while handlers still
  post. While `Start` waits it is safe from waiting for ever exactly when all results, posted
  and still to be posted, fit in the channel; the cron manager's always is: `NeverStuckIff`;
  `StartBlocks`.

## Model

| member | source | states |
|---|---|---|
| Text.AtoiOfItoa | pgk/parser/cron_expression_parser.go:95-99 | parsing inverts decimal printing on every natural number of 64 bits |
| Text.AtoiIff | pgk/parser/cron_expression_parser.go:35-99 | a number is accepted exactly when it is an optional sign and digits within 64 bits, with that value |
| Text.DigitsByPlace | pgk/parser/cron_expression_parser.go:35-99 | each further digit counts ten times what stands before it |
| Text.JoinOfSplit | pgk/parser/cron_expression_parser.go:45-47 | joining inverts splitting on every text |
| Text.SpaceIff | pgk/parser/cron_expression_parser.go:120-120 | the code points that separate fields |
| Text.SplitOfJoin | pgk/parser/cron_expression_parser.go:45-45 | splitting inverts joining when no part holds the separator |
| Text.FieldsOfSpaced | pgk/parser/cron_expression_parser.go:119-123 | the fields are recovered from any white space before, between and after them |
| Calendar.DateOf | pgk/parser/cron_expression_parser.go:168-172 | the date computed from cycles of 400, 100, 4 and 1 years is the only valid date with that day number |
| Calendar.CivilOfDayNumber | pgk/parser/cron_expression_parser.go:168-173 | date and day number are inverse to each other on all valid dates |
| Calendar.CivilPeriodic | pgk/parser/cron_expression_parser.go:165-166 | months, days and weekdays repeat every 146097 days |
| Calendar.FirstOfNextMonth | pgk/parser/cron_expression_parser.go:168-171 | the month skip lands on the first day of the next month, over December and leap years, and every day before it is in the same month |
| Calendar.AddOneDay | pgk/parser/cron_expression_parser.go:172-175 | the day skip is the next day, over month and year ends |
| Calendar.MonthsFollow | pgk/parser/cron_expression_parser.go:168-171 | the months of every year follow each other at 31, 30, and 28 or 29 days |
| Calendar.DaysFollow | pgk/parser/cron_expression_parser.go:172-173 | the days of a month follow its first |
| Calendar.WeekdaysFollow | pgk/parser/cron_expression_parser.go:172-172 | 1 January of year 1 is a Monday, and the weekdays take turns |
| Calendar.SomeYear | pgk/parser/cron_expression_parser.go:172-172 | every day of every month, 29 February included, falls on every weekday in some year |
| CronField.SteppedMeaning | pgk/parser/cron_expression_parser.go:41-43 | the stepping loop visits the arithmetic progression unless its first step overflows, and then it visits a negative value |
| CronField.AddSteps | pgk/parser/cron_expression_parser.go:78-80 | the loop terminates for every positive step, overflow included, and adds exactly the visited values |
| CronField.MeaningIsIntendedIff | pgk/parser/cron_expression_parser.go:46-80 | a token means what its grammar says exactly when no step overflows and an `a-b/s` token wants only 0 |
| CronField.MeaningInFieldIff | pgk/parser/cron_expression_parser.go:57-80 | a token yields a non-empty subset of the field exactly when no step overflows and an `a-b/s` token starts at 0 |
| CronField.AddToken | pgk/parser/cron_expression_parser.go:46-100 | a token is rejected, or adds its meaning, with every check of the code |
| CronField.ParsePart | pgk/parser/cron_expression_parser.go:29-110 | a field is rejected exactly when it has no denotation; otherwise the result is strictly ascending and holds exactly the denoted set |
| CronField.SearchIntsFinds | pgk/parser/cron_expression_parser.go:113-116 | the binary search splits a sorted list at the value |
| CronField.ContainsIsMembership | pgk/parser/cron_expression_parser.go:113-116 | on every parsed field `contains` is set membership |
| CronGrammar.FieldSetIsUnion | pgk/parser/cron_expression_parser.go:29-110 | a field is accepted exactly when it splits into tokens that all pass their checks, and denotes the union of their meanings |
| CronGrammar.FieldInBoundsIff | pgk/parser/cron_expression_parser.go:41-99 | an accepted field stays in [min, max] exactly when no step overflows |
| CronGrammar.FieldEmptyIff | pgk/parser/cron_expression_parser.go:57-80 | an accepted field is empty exactly when all its tokens are `a-b/s` with a > 0 |
| CronGrammar.ParseOfRender | pgk/parser/cron_expression_parser.go:46-99 | every printed token is read back as itself |
| CronGrammar.FieldRoundTrip | pgk/parser/cron_expression_parser.go:32-101 | every printed list of valid tokens is read back as the union of their meanings, and rejected exactly when a stepped star stands first before others |
| CronGrammar.SubsetRoundTrip | pgk/parser/cron_expression_parser.go:45-109 | every non-empty list of values in [min, max], printed as decimals with commas, is read back as exactly that set |
| CronShapes.ParseTokenIff | pgk/parser/cron_expression_parser.go:46-99 | a token is read exactly when it is written as N, N-N, or a star, N or N-N with a slash and N, with one separator of each kind |
| CronShapes.TokenOkIff | pgk/parser/cron_expression_parser.go:53-98 | a token passes its checks exactly when it reaches a non-empty part of the field in positive steps |
| CronShapes.FieldAcceptedIff | pgk/parser/cron_expression_parser.go:29-110 | a field is accepted with a set exactly when it is written as tokens that pass their checks and the set is their union |
| CronSearch.ParseCron | pgk/parser/cron_expression_parser.go:119-153 | an expression is accepted exactly when it has five fields that all have a denotation, and is represented field by field |
| CronSearch.MatchWithinEra | pgk/parser/cron_expression_parser.go:165-166 | a schedule that ever matches does so within 400 years of any start |
| CronSearch.NoMatchingDayBetween | pgk/parser/cron_expression_parser.go:172-184 | hour and minute steps happen only on the first day and on the day of the match |
| CronSearch.StepPaid | pgk/parser/cron_expression_parser.go:166-184 | every skip stays at or before the first match and is paid for by the bound on iterations |
| CronSearch.SpentWithinBudget | pgk/parser/cron_expression_parser.go:166-166 | the bound on iterations is below 525600 until the first match |
| CronSearch.Advance | pgk/parser/cron_expression_parser.go:166-184 | one pass finds a match, or moves on without passing one |
| CronSearch.CalculateNextRun | pgk/parser/cron_expression_parser.go:156-188 | the result is the least matching minute after `from`; one hour later exactly when the text is rejected or no minute ever matches |
| CronLaws.SatisfiableIff | pgk/parser/cron_expression_parser.go:168-187 | a schedule ever matches exactly when each field accepts a possible value and some accepted day exists in some accepted month |
| CronLaws.MatchesIff | pgk/parser/cron_expression_parser.go:168-182 | a date and time match exactly when minute, hour, day, month and weekday are in their own fields |
| CronLaws.FallbackIff | pgk/parser/cron_expression_parser.go:157-187 | the fallback is 3600 seconds later, without a matching minute, and a matching minute otherwise |
| CronLaws.AcceptedIff | pgk/parser/cron_expression_parser.go:119-144 | an expression is accepted exactly when it has five fields, each accepted within its bounds |
| CronLaws.NextRunIsLater | pgk/parser/cron_expression_parser.go:156-188 | the next run is after the time it is computed from, fallbacks included |
| CronLaws.NextRunIsFirst | pgk/parser/cron_expression_parser.go:163-184 | on a satisfiable expression the next run matches and no earlier minute after `from` does |
| CronLaws.ExpressionRoundTrip | pgk/parser/cron_expression_parser.go:119-153 | every printed expression, bare stars included and with any white space, is accepted and denotes its five sets |
| CronLaws.NoSuchDay | pgk/parser/cron_expression_parser.go:186-187 | 31 February always falls back to one hour later |
| CronPosix.PosixAgreesIff | pgk/parser/cron_expression_parser.go:168-175 | on every accepted expression the search and the POSIX rule choose the same days exactly when the weekday is written as a star, or month and day of month both are, or every day or no day is accepted |
| CronWitnesses.SteppedRangeIsEmpty | pgk/parser/cron_expression_parser.go:60-80 | `1-10/2` is accepted and denotes the empty set |
| CronWitnesses.StarMayNotStandFirst | pgk/parser/cron_expression_parser.go:32-40 | `*/5,1` is rejected |
| CronWitnesses.StarMayStandLast | pgk/parser/cron_expression_parser.go:45-80 | `1,*/5` is accepted |
| CronWitnesses.StepWrapsAround | pgk/parser/cron_expression_parser.go:70-80 | a start of 1 with the largest step puts the smallest 64-bit integer in the set |
| CronWitnesses.FridayTheThirteenth | pgk/parser/cron_expression_parser.go:172-175 | `0 0 13 * 5` denotes its five sets, and its days are not those of the POSIX rule |
| CronWitnesses.LastOfFebruary | pgk/parser/cron_expression_parser.go:186-187 | `0 0 31 2 *` is accepted and falls back to one hour later from every time |
| CronWitnesses.LeapDayIsFar | pgk/parser/cron_expression_parser.go:165-166 | from 1 March 1896 a schedule for 29 February has a match, but none within seven times 525600 minutes |
| CronWitnesses.NextMonday | pgk/parser/cron_expression_parser.go:156-188 | from Friday 20 June 2025, 08:59, `0 9 * * 1` runs next on Monday 23 June at 09:00 |
| CronWitnesses.NextNewYear | pgk/parser/cron_expression_parser.go:156-188 | from 31 December 2025, 23:59, `0 0 1 1 *` runs next at midnight |
| CronWitnesses.NumbersAcceptedIff | pgk/parser/cron_expression_parser.go:125-141 | five plain numbers are accepted exactly within 0-59, 0-23, 1-31, 1-12 and 0-6 |
| CronWitnesses.ThreeNumbersRejected | pgk/parser/cron_expression_parser.go:82-85 | `1-2-3` is rejected |
| EnqueuedTable.EnqueuedJobStore.Insert | internal/store/postgres/postgres_enqueued_job_store.go:26-55 | adds one queued row under a number not in use, and nothing else |
| EnqueuedTable.EnqueuedJobStore.Lock | internal/store/postgres/postgres_enqueued_job_store.go:203-218 | succeeds exactly on a queued or retrying row, which cannot be locked again |
| EnqueuedTable.EnqueuedJobStore.Sweep | internal/store/postgres/postgres_enqueued_job_store.go:184-201 | every retryable row becomes retrying a minute later, and none is left |
| EnqueuedTable.EnqueuedJobStore.Recover | internal/store/postgres/postgres_enqueued_job_store.go:247-258 | every row locked in the past is queued again, whatever the age of the lock |
| EnqueuedTable.InsertAtAppend | internal/store/postgres/postgres_enqueued_job_store.go:321-346 | two bulk inserts one after the other are one insert of both batches |
| EnqueuedCluster.Cluster.LockNext | client/enqueue_job_manager.go:167-181 | one turn of the batch loop, with the store's conditional update, is the Lock step of the protocol |
| EnqueuedCluster.Cluster.RecordNext | client/enqueue_job_manager.go:134-150 | taking one result, with the store's statements, is the Record step of the protocol |
| EnqueuedCluster.Cluster.Step | client/enqueue_job_manager.go:75-228 | every event, executed on the mutable store and workers, is the step of the protocol |
| EnqueuedCluster.Run | client/enqueue_job_manager.go:75-228 | every run, executed event by event, ends in the state that the protocol says, so all theorems on runs hold of the store |
| EnqueuedProtocol.EveryRunKeepsJob | internal/store/postgres/postgres_enqueued_job_store.go:184-258 | in every run of any number of workers that recovers only when nothing of the job is in flight: a row is `processing` exactly when it has one execution, snapshots are never ahead of the row, attempts stay within 3, waiting and running rows have fewer than 3, and `dead` means 3 |
| EnqueuedProtocol.StartKeepsJobIff | client/enqueue_job_manager.go:75-81 | a start keeps that invariant of a job if and only if nothing of the job is in flight |
| EnqueuedProtocol.KeptThroughoutIff | client/enqueue_job_manager.go:75-96 | a run keeps the invariant of a job in every state if and only if it recovers only when nothing of the job is in flight |
| EnqueuedProtocol.NoisyStartShares | internal/store/postgres/postgres_enqueued_job_store.go:247-258 | every start that finds a job in flight, in a run quiet so far, can be continued to two live executions of the job |
| EnqueuedProtocol.NoisyStartSharesJob | internal/store/postgres/postgres_enqueued_job_store.go:247-258 | a run in which a second worker starts while the first is running has two live executions of one job |
| EnqueuedLedger.RowEffect | client/enqueue_job_manager.go:128-182 | what every event does to the row of a job, by the kind of write |
| EnqueuedLedger.Conservation | client/enqueue_job_manager.go:156-228 | in every such run locks = failures + successes + requeues + the open execution; with c requeues at most 3 + c locks and handler calls and 8 + 2c status writes |
| EnqueuedLedger.WritesAreTransitions | internal/state/statuses.go:32-48 | every status write changes the status, by an edge of ValidTransitions, or `processing` to `dead` through `failed`, or the requeueing of a start; no other event changes it |
| Statuses.TransitionsExact | internal/state/statuses.go:32-48 | which transitions are valid, and that no other is |
| EnqueuedLedger.SettledIsFinal | internal/store/postgres/postgres_enqueued_job_store.go:184-245 | `succeeded`, `dead`, and `failed` at three attempts never change again in any continuation |
| EnqueuedLedger.NeverReborn | internal/store/postgres/postgres_enqueued_job_store.go:26-55 | the number of a row is never given out again |
| EnqueuedSingle.SingleWorkerRun | client/enqueue_job_manager.go:156-182 | with one worker process, restarts included and no assumption on recovery, snapshots stay fresh, `dead` holds exactly at three attempts and `failed` exactly when retryable |
| EnqueuedSingle.SingleWorkerIsQuiet | client/enqueue_job_manager.go:75-96 | one worker alone recovers only when nothing is in flight |
| EnqueuedSingle.LockedWhenDue | internal/store/postgres/postgres_enqueued_job_store.go:203-218 | one worker alone never locks a job before its scheduled time |
| EnqueuedSingle.RetryWaitsAMinute | internal/store/postgres/postgres_enqueued_job_store.go:184-218 | a retry is locked at least a minute after the sweep that marked the job |
| EnqueuedSingle.StaleSnapshotsStrandAJob | internal/store/postgres/postgres_enqueued_job_store.go:231-245 | a run of three workers leaves a job `failed` at three attempts, neither dead nor retryable |
| EnqueuedSingle.StaleSnapshotLocksEarly | internal/store/postgres/postgres_enqueued_job_store.go:203-218 | a run of several workers in which a job can be locked before its scheduled time |
| EnqueuedHistory.HistoryIsPlaced | client/enqueue_job_manager.go:156-182 | the history of a job names its failures, the fetch that each was judged on, and its last mark, by their positions in the run |
| EnqueuedHistory.FailureVerdictIff | internal/store/postgres/postgres_enqueued_job_store.go:231-245 | with any number of workers, recording a failure leaves `dead` exactly at three attempts if and only if a third failure is recorded on a snapshot with two |
| EnqueuedHistory.StrandedIff | client/enqueue_job_manager.go:128-228 | over whole runs of any number of workers, a job with three attempts is `dead` exactly when its third failure was judged on a snapshot fetched after its second was recorded, and otherwise it is `failed` and not retryable |
| EnqueuedHistory.LockedEarlyIff | internal/store/postgres/postgres_enqueued_job_store.go:184-218 | over whole runs of any number of workers, a lock is before the scheduled time exactly when a sweep has marked the job since the worker fetched it, less than a minute ago |
| EnqueuedOutcome.RecordedAsReturned | client/enqueue_job_manager.go:128-235 | in every run a recorded result is what the handler returned: `succeeded` without an error, one more failed attempt otherwise, and no other row changes |
| EnqueuedOutcome.SucceededByHandler | client/enqueue_job_manager.go:218-235 | a job is `succeeded` only because a handler of it returned no error and that was recorded |
| EnqueuedOutcome.FailedByHandler | client/enqueue_job_manager.go:193-228 | each failure of a job is that of one of its handlers, or of a call that was not possible |
| EnqueuedOutcome.EveryPhaseIsTold | client/enqueue_job_manager.go:184-228 | an execution is where its own events brought it, and is lost only by a panic, an unwritten result, its worker's end or a lock without a start |
| EnqueuedOutcome.NothingAfterTheEnd | client/enqueue_job_manager.go:184-191 | after a panic, and after its result was taken, nothing is called or recorded for an execution |
| EnqueuedOutcome.RowOrigin | internal/store/postgres/postgres_enqueued_job_store.go:26-55 | name and payload of a row are those of the one insert that got its number, and its schedule that of the insert or of its last mark |
| EnqueuedOutcome.DeletedForGood | internal/store/postgres/postgres_enqueued_job_store.go:84-101 | a deleted row is gone in every continuation, and no other row is touched |
| EnqueuedOutcome.ClockIsLastTick | client/enqueue_job_manager.go:158-158 | the clock is that of the last tick |
| EnqueuedOutcome.BatchInOrder | client/enqueue_job_manager.go:167-181 | a worker goes through the jobs it fetched one by one, in order |
| EnqueuedOutcome.LeftWithoutPermit | client/enqueue_job_manager.go:174-177 | a worker without a permit leaves its batch until it fetches again |
| EnqueuedOutcome.LockTakesIff | client/enqueue_job_manager.go:168-172 | a lock takes a job exactly when its statement is committed and the row is queued or retrying, and otherwise changes nothing |
| EnqueuedOutcome.UpIff | client/enqueue_job_manager.go:75-96 | a worker is up exactly from its start to its stop |
| CronTable.CronJobStore.Upsert | internal/store/postgres/postgres_cron_job_store.go:23-49 | a new job is queued; an existing one keeps its status, lock and last run |
| CronTable.CronJobStore.Lock | internal/store/postgres/postgres_cron_job_store.go:265-279 | succeeds exactly on a row that is neither `processing` nor `dead`, which cannot be locked again |
| CronTable.CronJobStore.RecordResult | internal/store/postgres/postgres_cron_job_store.go:242-263 | a success leaves `succeeded`, a failure `failed`, and either leaves the job lockable |
| CronTable.FetchedIff | internal/store/postgres/postgres_cron_job_store.go:63-73 | which rows are listed, by status: settled ones when active and due, waiting ones always, locked ones also 3600 seconds after the lock |
| CronTable.LockableIff | internal/store/postgres/postgres_cron_job_store.go:267-273 | every row can be locked but a `processing` or `dead` one |
| CronHistory.TableIsHistory | client/cron_job_manager.go:58-163 | in every run each row is what the events say: its next run computed at the last schedule or recorded execution, from the clock and expression of that moment, its status that of the last lock or recorded result |
| CronHistory.RunTimesWritten | client/cron_job_manager.go:95-158 | writing the run times sets the clock of the beginning and the next run after it of the fetched expression, and changes nothing else |
| CronHistory.ResultRecorded | client/cron_job_manager.go:141-153 | a recorded result is what the handler returned, and changes nothing else |
| CronHistory.EveryPhaseIsTold | client/cron_job_manager.go:95-158 | an execution is where its own events brought it, and its times are written once |
| CronHistory.BatchInOrder | client/cron_job_manager.go:69-86 | a worker goes through the jobs it fetched one by one, in order, also past those it gets no permit for |
| CronHistory.LockTakesIff | client/cron_job_manager.go:70-74 | a lock takes a job exactly when its statement is committed and the row is neither `processing` nor `dead`, and otherwise changes nothing |
| CronHistory.UpIff | client/cron_job_manager.go:40-56 | a worker is up exactly from its start to its stop |
| CronCluster.Cluster.Step | client/cron_job_manager.go:58-163 | every event, executed on the mutable store and workers with the search itself, is the step of the protocol |
| CronCluster.Run | client/cron_job_manager.go:58-163 | every run, executed event by event, ends in the state that the protocol says |
| CronProtocol.MutualExclusion | client/cron_job_manager.go:58-163 | in every run, with any number of workers, crashes, expired locks, reschedules and lost replies, a cron job has at most one live execution, and then its row is `processing` |
| CronProtocol.OrphanForever | internal/store/postgres/postgres_cron_job_store.go:265-279 | a `processing` row without a live execution is never locked again in any continuation |
| CronProtocol.CrashOrphans | client/cron_job_manager.go:69-86 | for every job a run exists in which its worker crashes and leaves it orphaned |
| CronProtocol.OrphanedByIff | client/cron_job_manager.go:69-78 | an event orphans a job exactly when it is a crash of its owner, a result that is not written, or a lock that starts no handler |
| CronProtocol.LastRunBeforeNextRun | client/cron_job_manager.go:95-158 | in every run a row's last run is before its next run, however late results are written |
| TimerLoop.RunWithTimer | client/job_manager.go:212-238 | the callback is called for strictly increasing run times, never before they come, until the context ends during a wait |
| TimerLoop.NoRunSkippedIff | client/job_manager.go:213-215 | a pass follows on the one before exactly when it starts before the next matching minute |
| TimerLoop.EveryMinuteRuns | client/job_manager.go:212-238 | if every callback returns in time, every matching minute between the first and the last run is run |
| Paging.TotalPagesIsLeast | internal/store/postgres/postgres_cron_job_store.go:118-118 | the page count computed from the rounded float64 quotient is the least one that holds all rows |
| Paging.RoundedPagesExact | internal/store/postgres/postgres_cron_job_store.go:118-118 | the page count computed from the rounded float64 quotient is the exact one for fewer than 2^53 rows |
| Paging.HasNextPageIff | internal/store/postgres/postgres_cron_job_store.go:119-127 | there is a next page exactly when rows remain |
| Paging.PageNumbers | internal/store/postgres/postgres_cron_job_store.go:52-55 | a page below 1 is page 1, and only the first has none before it |
| Paging.PagesCoverRows | internal/store/postgres/postgres_cron_job_store.go:51-130 | the pages 1 to TotalPages joined are the list, with no gap and no duplicate |
| Paging.VisitAll | client/cron_job_manager.go:61-92 | over a frozen table the paging loop ends and has visited each row once, in order |
| Paging.WalkVisitsAllIff | client/cron_job_manager.go:61-92 | over rows that may leave once visited, the loop visits all of them in order exactly when at the fetch of the last page no row of the pages before has left, and otherwise it visits fewer |
| CronPaging.ProcessCronJobs | client/cron_job_manager.go:58-93 | the loop with its own locks on the store ends, and visits every job listed at the start exactly when no job on a page before the last leaves the clause by its lock |
| CronPaging.SecondJobIsSkipped | internal/store/postgres/postgres_cron_job_store.go:65-73 | of three queued jobs that are not due, one to a page, the loop visits the first and the third |
| SqlBuilder.BulkInsertQuery | internal/store/postgres/postgres_enqueued_job_store.go:306-346 | no statement for an empty batch, the first job that cannot be marshalled, or a statement whose placeholders are 1 to len(args) in order |
| SqlBuilder.RowBindsJob | internal/store/postgres/postgres_enqueued_job_store.go:330-341 | row i of the text carries placeholders whose arguments denote exactly the row that the bulk insert adds for job i; 1000 jobs use at most 4000 |
| SqlBuilder.WhereClause | internal/store/postgres/postgres_enqueued_job_store.go:115-137 | the clause has the placeholders 1 to len(args) in the order of its arguments |
| SqlBuilder.FetchDueQueries | internal/store/postgres/postgres_enqueued_job_store.go:110-150 | the count query uses all arguments but the last two, the select query all; both carry the clause, and the last two are limit and offset |
| SqlBuilder.ClauseIsFilter | internal/store/postgres/postgres_enqueued_job_store.go:115-137 | on its arguments the clause selects exactly the rows asked for |
| SqlText.ClauseSelectsFilter | internal/store/postgres/postgres_enqueued_job_store.go:115-137 | the text of the clause, read word by word with its arguments, selects exactly the rows asked for, locked ones 3600 seconds after the lock |
| SqlBuilder.WorkerFilterIsDue | client/enqueue_job_manager.go:158-160 | what a worker asks for is exactly the due jobs of the protocol |
| BatchWorker.PickSettled | client/enqueue_job_manager.go:256-266 | after a flush the batch stands, in order of arrival, behind what was settled the same way |
| BatchWorker.SyncWorker.Flush | client/enqueue_job_manager.go:256-266 | the pending messages become rows under ascending numbers, or are all dropped when the insert fails, which may use up numbers, and the batch is empty |
| BatchWorker.SyncWorker.Receive | client/enqueue_job_manager.go:275-291 | a message is malformed, or joins the batch, and the thousandth flushes it |
| BatchWorker.SyncWorker.Step | client/enqueue_job_manager.go:269-295 | every turn keeps the account of messages; a tick and a stop settle all pending ones and leave no batch |
| BatchWorker.SyncWorker.Run | client/enqueue_job_manager.go:268-296 | for every interleaving of messages, ticks and stops the received messages partition in order into rows, dropped, malformed and pending, and none is pending beyond the next tick or stop |
| BatchWorker.EnqueueDirect | client/job_manager.go:49-52 | direct mode adds one row per job, in order |
| BatchWorker.EnqueueThroughQueue | client/job_manager.go:54-69 | with a codec that round-trips and no failed insert, queue mode leaves the table that direct mode leaves |
| WorkerPool.PermitsConserved | client/enqueue_job_manager.go:174-228 | in every run of either manager, through missing handlers, bad payloads, blocked posts and recovered panics, free permits and those still to be released make up the worker count, and no goroutine is in a handler once `Start` has returned |
| WorkerPool.EveryStepFollows | client/enqueue_job_manager.go:184-228 | in every run a goroutine runs the handler only after it was found and its payload read, posts one result unless it panics, and the channel holds what was posted and not taken |
| WorkerPool.FullAtReturnIff | client/enqueue_job_manager.go:185-191 | for every worker count, all permits are free at every return exactly when the deferred calls release the permit before they leave the group |
| WorkerPool.CronReturnsEarly | client/cron_job_manager.go:81-85 | for every worker count a run of the cron manager returns from `Start` with a permit still held |
| WorkerPool.ReturnNeedsRoom | client/enqueue_job_manager.go:128-133 | without the result processor, `Start` returns only if all results but those lost by panics fit in the channel |
| WorkerPool.CanReturnIff | client/enqueue_job_manager.go:87-90 | a waiting `Start` has a way on without a panic in which it returns exactly when the processor is still there or all results fit in the channel |
| WorkerPool.NeverStuckIff | client/enqueue_job_manager.go:87-133 | whatever happens while it waits, `Start` can still return: always for the cron manager, and for the enqueued manager exactly when all results fit in the channel already |
| WorkerPool.StartBlocks | client/enqueue_job_manager.go:87-90 | for every worker count a run comes to a `Start` that waits in every continuation |

## Left out

- Local time zones and daylight saving: `Truncate(24h)` cuts at UTC midnight, so the search is stated for UTC only.
- `ExecuteJobManually`: it posts a result without taking the lock, and nothing in the server calls it.
- EnqueuedProtocol.EveryRunKeepsJob: assumes that a start finds nothing of the job in flight, because recovery requeues live jobs; `KeptThroughoutIff` shows the assumption exact and `NoisyStartSharesJob` what happens without it.
- Paging.TotalPagesIsLeast: for fewer than 2^53 rows, because float64 has no exact row count beyond; page sizes below 1 are not modelled.
- CronPaging.ProcessCronJobs: the clock, other workers and results recorded between two pages are not in its loop; `WalkVisitsAllIff` covers visited rows that leave for any reason.
- BatchWorker.SyncWorker.Run: the worker is the only writer of the store while it runs.
- SqlBuilder.FetchDueQueries: the text of a statement is a list of fixed words and numbered placeholders, not characters.
- In `WorkerPool` the permit, the wait group and the goroutine of a job are taken in one step, and so is a post to the channel.
- A failed single insert, which only uses up a number of the serial column.
- A manager that is started again in the same process with results of its earlier start still in its channel.
- `addOrUpdate` reads the clock, computes the next run and writes the row in three steps; here they are one.
- The clocks of the database and of all workers are one clock that never goes back.
- PostgreSQL advisory locks, drivers, connection pools, RabbitMQ acknowledgement and redelivery.
- JSON encoding: a codec parameter with a round-trip assumption; large integers lose precision through `any`.
- The texts of errors and logs: an error is one value, with the index of the job for a bulk insert.
- The columns `executed_at`, `last_error`, `created_at` and `updated_at`, the payload of cron jobs and the name of the worker in a cron lock.
- The claim that cron fetch returns only active and due rows: the grouping of AND and OR in its clause does not give it; the protocol fetches by the clause as written.
- The handler registry, configuration, container wiring, migrations, user store, dashboard and counting queries: they would only add easy members.
