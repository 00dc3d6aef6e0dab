# Verified model of the ops-monitor protocols

This project models, in Dafny, the parts of ops-monitor whose correctness depends on how several operations interact, and proves what they keep over whole runs.

**Task engine** (`TaskService`, its repositories, the retry policy). A task has targets; every target has a chain of execution attempts; the status of a task is derived from the latest attempt of each target. Nine operations interleave freely: create, confirm, cancel, agent claim, agent report, timeout scan, retry dispatch, CRON fire and retention cleanup.

- `RetryPolicy`, `TaskModel`: error classification, backoff, the rows and the rules that look at one task.
- `JobInvariant`, `JobFacts`, `JobProgress`: the invariant of one task, its consequences, and a measure that falls with every move.
- `TaskStore`, `StoreInvariant`: the tables, the nine operations as functions on them, and why each keeps the invariant.
- `TaskHistory`, `TaskRuns`, `TaskReports`: runs of any calls on a clock that never runs backwards, what holds in all of them, and what a report does, sent once or again.
- `TaskConfirmation`: by exactly which calls a task that nobody confirmed gets on its way to an agent.
- `TaskExamples`: concrete runs that show what the engine does not promise.
- `TaskService`: the operations as the code runs them, with loops over rows and writes in place, each proved to end in exactly the state its function gives. Where the code's order comes from a set or an unordered query, the order is a parameter or an arbitrary choice, so the result holds for every order.

**Alert engine** (`AlertEngine`, `AlertService`, their repositories). `AlertRules` holds readings and comparisons, `AlertBoard` the steps and the proof that the nested loops amount to one simultaneous step, `AlertRounds` the theorems about one evaluation, `AlertInvariant` and `AlertHistory` invariants and runs, `AlertService` the classes.

**Distributed job lock** (`Redis`, `SchedulerLock`): any number of processes, one Redis, expiry, crashes, lost replies and stale releases.

**Signed requests** (`RequestReplay`), **agent backoff** (`ClientBackoff`) and both together (`SignedCalls`): at-most-once acceptance, the retry loops of the Python and the Go agent, and why a call with all its retries takes effect at most once.

`Wrappers`, `Numbers`, `Clock` and `Text` are shared: optional values, milliseconds, and decimal texts that keys are built from.

Each operation reads the clock once; instants are integer milliseconds. A call is one atomic step, as the code takes no row locks and nothing is claimed about two calls overlapping.

## Code and documentation

Where they disagree the model follows the code.

- A retry takes the task from RETRYING to RUNNING (`backend/app/services/task_service.py:437`); the flow in `docs/architecture/task-retry-strategy.md` speaks of a PENDING attempt only. Both hold: the new execution is PENDING, the task RUNNING.
- `docs/modules/automation.md:75` lets a CRON task become due after its confirmation; the query also takes unconfirmed ones (`backend/app/repositories/task_repository.py:41`). `FiringIgnoresConfirmation` says exactly when firing exposes a CRON task, and `CronRunsUnconfirmed` is a run.
- A comment (`backend/app/repositories/task_repository.py:150`) says that only executions of confirmed tasks are claimed. `report_result` never asks whether an execution was handed out (`backend/app/services/task_service.py:210-256`), so a report on an execution of a ONCE task that waits for its confirmation can take the task past it. `FirstExposureIsExact` says exactly which reports do, `HandedOutOnlyAfterConfirmation` that nothing else does, and `StrayReportBypassesConfirmation` is a run.
- `docs/modules/automation.md` calls repeated reports idempotent; a repeated retryable failure of an execution that waits for its retry moves the retry. `ReportIsIdleExactly` and `ReportedTwice` say exactly when a report changes nothing, `SecondReportMovesTheRetry` is a run.
- `docs/modules/alerting.md:49` lets a rule without recovery threshold recover below its threshold; for LOAD the code compares with the unscaled threshold, and a recovery threshold is compared with `<=` for every operator. `RecoveryOpposesViolation` and `SelfRecovery` give the exact conditions.
- The comment on cancellation says that what is unfinished is cancelled; only PENDING executions are. `CancelEndsTheTask` gives the exact condition under which a cancellation ends a task, `CancelLeavesRunning` a run in which it does not.

## Model

| member | source | states |
|---|---|---|
| RetryPolicy.RetryDecision | backend/app/core/retry.py:45-69 | exactly which reports are retried: a stated transient type, or no type and a message that names a transient condition; anything unknown is not |
| RetryPolicy.UnknownIsNotRetryable | backend/app/core/retry.py:7 | the type given to an error nobody recognises is no retryable one |
| RetryPolicy.BackoffGrowsToItsCap | backend/app/core/retry.py:72-82 | the delay never shrinks with the attempt and stays between 5 and 60 seconds |
| RetryPolicy.CumulativeBackoffClosedForm | backend/app/core/retry.py:72-82 | total delay before attempt k is 0, 5, 15, 45, 105 and then 60 more each |
| JobInvariant.AggregatedOk | backend/app/services/task_service.py:419-453 | deriving the status restores the invariant of a task whatever its status was |
| JobInvariant.CancelUntouched | backend/app/services/task_service.py:161-173 | cancelling a ONCE task nobody has started makes it CANCELLED |
| JobInvariant.PurgeIsOldestFirst | backend/app/repositories/task_repository.py:232-251 | an execution that survives retention keeps every later attempt of its target, so only initial segments of a chain go |
| JobInvariant.PurgeKeepsSeenStatuses | backend/app/repositories/task_repository.py:235-236 | as long as every target keeps an execution, retention hides no latest status |
| JobFacts.VerdictsMeanWhatTheySay | backend/app/services/task_service.py:226-256 | a latest attempt is DEAD only with a retryable error and an exhausted budget, FAILED only with a non-retryable error, RETRYING only with a retryable error and attempts left, due exactly its backoff after it failed |
| JobFacts.VerdictIsTheWorst | backend/app/services/task_service.py:434-450 | the derived status is the gravest of the latest ones in the order RETRYING, active, DEAD, FAILED or TIMEOUT, SUCCESS, CANCELLED; the last fallback is never reached |
| JobFacts.OnlyTheDeadlineKillsARetry | backend/app/services/task_service.py:302-332 | a due retry is killed exactly if the deadline has passed and otherwise replaced by exactly one PENDING attempt with the next number |
| JobFacts.TenByTenStopsAtFour | backend/app/services/task_service.py:89 | with timeout 10 and ten attempts there is never a fifth attempt |
| JobProgress.RemainingIsBounded | backend/app/services/task_service.py:161-335 | the measure that every move of an execution spends is at most 4 times allowed attempts times targets |
| StoreInvariant.CreateSteps | backend/app/services/task_service.py:52-101 | creating keeps the invariant of all tables, evolves every other task and raises no measure |
| StoreInvariant.CreatedTaskIsComplete | backend/app/services/task_service.py:66-98 | a new task has one target per distinct server, one untouched first attempt per target if ONCE, none otherwise, and starts CREATED exactly if it is CRON or guarded |
| StoreInvariant.ConfirmSteps | backend/app/services/task_service.py:103-112 | confirming keeps the invariant of all tables and only moves forward |
| StoreInvariant.CancelSteps | backend/app/services/task_service.py:161-173 | cancelling keeps the invariant of all tables and only moves forward |
| StoreInvariant.FetchSteps | backend/app/services/task_service.py:175-194 | claiming any answer of the pending query keeps the invariant of all tables and spends the measure |
| StoreInvariant.ReportSteps | backend/app/services/task_service.py:196-260 | a report of any content keeps the invariant of all tables and lowers the measure whenever it changes a status |
| StoreInvariant.ScanSteps | backend/app/services/task_service.py:264-279 | a timeout scan keeps the invariant of all tables and spends the measure of every task it touches |
| StoreInvariant.DispatchSteps | backend/app/services/task_service.py:281-335 | dispatching any batch of distinct due executions, several of one task included, keeps the invariant and leaves executions outside the batch alone |
| StoreInvariant.FinishedTasksHaveNoRetries | backend/app/services/task_service.py:291-300 | at every turn of the dispatcher the execution is still due and its task is not finished: the archiving branch is never taken |
| StoreInvariant.FireSteps | backend/app/services/task_service.py:358-380 | firing a batch of CRON tasks keeps the invariant: every task that was fit to fire still is when its turn comes |
| StoreInvariant.CleanupSteps | backend/app/services/task_service.py:337-347 | retention cleanup keeps the invariant of all tables and removes no CRON task |
| StoreInvariant.CleanupIsExact | backend/app/repositories/task_repository.py:51-71 | one cleanup removes exactly the outdated executions with their logs and exactly the expired ONCE tasks with their targets, changes nothing else and leaves no dangling reference |
| TaskHistory.NextSteps | backend/app/services/task_service.py:52-380 | every one of the nine operations keeps the invariant, evolves every task and spends its measure |
| TaskHistory.ReachableOk | backend/app/services/task_service.py:52-380 | the invariant holds after every sequence of operations |
| TaskHistory.RunEvolves | backend/app/services/task_service.py:52-380 | any later state of a run is an evolution of any earlier one: fixed terms, growing ids, statuses that only move forward |
| TaskHistory.StatusIsExplained | backend/app/services/task_service.py:419-453 | in every reachable state a status is CREATED or PENDING over untouched first attempts (none unless ONCE), or the verdict over the latest attempts, or final over ended executions; a final status is that verdict as long as every target has an execution |
| TaskHistory.EndedIsForever | backend/app/services/task_service.py:215-217 | a finished task and an ended execution never change again while they are stored |
| TaskHistory.FirstResultWins | backend/app/services/task_service.py:210-217 | a report on an ended execution changes neither rows nor logs |
| TaskHistory.HandedOutOnce | backend/app/repositories/task_repository.py:149-168 | in any run an execution is handed out at most once and only to its own server |
| TaskHistory.LaunchedOnce | backend/app/services/task_service.py:374-375 | first attempts are added to an existing task at most once in any run |
| TaskHistory.CronFiresOnce | backend/app/services/task_service.py:358-380 | no CRON task is in two firing batches of a run, whatever is cancelled, retried or cleaned up in between |
| TaskHistory.KeyFindsItsTask | backend/app/services/task_service.py:57-62 | while the task created with an idempotency key is stored, every request with that key returns it and changes nothing |
| TaskHistory.MovesAreBounded | backend/app/services/task_service.py:161-335 | in any run at most 4 times allowed attempts times targets calls create an execution of a task or change the status of one |
| TaskConfirmation.ExposureIsExact | backend/app/services/task_service.py:210-260 | a call exposes a shut, unconfirmed task to hand-out, at once or after a retry, exactly if it is a report by the right server on an execution of it that was never handed out, and that execution has a sibling or earns a retry due before the deadline |
| TaskConfirmation.FirstExposureIsExact | backend/app/services/task_service.py:210-260 | in any run the first call that exposes an unconfirmed task is exactly the first such report |
| TaskConfirmation.HandedOutOnlyAfterConfirmation | backend/app/repositories/task_repository.py:149-162 | in any run an execution of a ONCE task that needs confirmation is handed out only after the confirmation or after such a report on this very task; reports on other tasks, ids or by other servers do not matter |
| TaskConfirmation.HandedOutReportsAreHarmless | backend/app/services/task_service.py:210-217 | a report on an execution that was handed out before never takes a task past its confirmation |
| TaskConfirmation.FiringIgnoresConfirmation | backend/app/repositories/task_repository.py:37-43 | firing makes an execution of an unstarted CRON task claimable exactly if its expression is there and due, and never touches its confirmation |
| TaskExamples.StrayReportBypassesConfirmation | backend/app/services/task_service.py:210-260 | a run in which one report on an execution nobody was handed lets the retry of an unconfirmed restart be handed out |
| TaskExamples.CronRunsUnconfirmed | backend/app/repositories/task_repository.py:41 | a run in which an unconfirmed CRON task fires and is handed out |
| TaskReports.ReportIsIdleExactly | backend/app/services/task_service.py:210-217 | an accepted report leaves the tables as they are exactly if the execution has ended |
| TaskReports.ReportedTwice | backend/app/services/task_service.py:226-243 | a report sent twice in a row changes the tables again exactly if the first left RETRYING; then one more log row is written and the retry moves to the backoff after the second report, or the execution dies |
| TaskExamples.SecondReportMovesTheRetry | backend/app/services/task_service.py:226-235 | a run in which the second of two equal reports moves the retry by a second |
| TaskRuns.RetryChain | backend/app/services/task_service.py:312-325 | in every reachable state the attempts of a target differ, leave no gap and stay within the limit; each but the last failed with a retryable error and precedes the next by its backoff |
| TaskRuns.RetryBudget | backend/app/services/task_service.py:349-356 | attempt k is created at least the cumulative backoff after the launch, a retry before the deadline, so the backoff fits into timeout times attempts |
| TaskRuns.ExecutionsPerTask | backend/app/models/task.py:122 | a task stores at most targets times allowed attempts executions |
| TaskRuns.LatestAttemptMeans | backend/app/services/task_service.py:226-256 | in any run the meaning of DEAD, FAILED and RETRYING given by VerdictsMeanWhatTheySay holds for every latest attempt |
| TaskRuns.TenByTenInRuns | backend/app/services/task_service.py:89 | in any run a task with ten attempts of ten seconds has no attempt beyond the fourth |
| TaskRuns.DispatchTurn | backend/app/services/task_service.py:302-332 | at every turn of every dispatch the due execution is killed exactly if the deadline has passed, and otherwise archived and followed by exactly one pending attempt with the next number |
| TaskRuns.CleanupIsOldestFirst | backend/app/repositories/task_repository.py:232-251 | in any run a cleanup that leaves an attempt leaves every later one of its target |
| TaskRuns.DispatchFindsOpenTasks | backend/app/services/task_service.py:291-300 | in any run no due execution met by the dispatcher belongs to a finished task |
| TaskRuns.CleanupLeaves | backend/app/repositories/task_repository.py:51-71 | after a cleanup in any run nothing outdated is left, no reference dangles, and CRON and unfinished tasks are still there |
| TaskRuns.CleanupKeepsVerdicts | backend/app/repositories/task_repository.py:232-251 | a cleanup leaves the verdict over an unfinished task's latest attempts as it was |
| TaskReports.ReportOutcome | backend/app/services/task_service.py:221-260 | a report on an open execution makes it SUCCESS, FAILED, RETRYING or DEAD exactly as the error, the attempts left and the deadline say, keeps the reported result, sets the time of the retry, and changes nothing else but one new log row |
| TaskRuns.CancelEndsTheTask | backend/app/services/task_service.py:161-173 | an accepted cancellation ends a task exactly if it has executions and none is running or waiting for a retry; without executions it becomes PENDING |
| TaskRuns.ScanMissesRetryingTasks | backend/app/services/task_service.py:264-279 | an expired execution is timed out by the scan exactly unless its task is RETRYING |
| TaskExamples.CancelLeavesRunning | backend/app/services/task_service.py:161-173 | a run in which a cancelled task stays unfinished with its execution running |
| TaskExamples.ScanSkipsRetryingTask | backend/app/services/task_service.py:267 | a run in which a scan leaves an expired execution running because its sibling waits for a retry |
| TaskService.TaskService.LatestByTarget | backend/app/services/task_service.py:429-433 | whatever the order of the rows, the dictionary ends with an execution of the highest attempt for every target |
| TaskService.LeadersAreLatest | backend/app/services/task_service.py:429-434 | the statuses collected by that loop are those of the latest attempts, each target counted once |
| TaskService.TaskService.AggregateTaskStatus | backend/app/services/task_service.py:419-453 | the loop and the chain of tests end in the derived status, and a final one sets finished_at |
| TaskService.TaskService.CreateTask | backend/app/services/task_service.py:52-101 | returns the task and the tables of the specified creation, or the specified error with nothing changed |
| TaskService.TaskService.ConfirmTask | backend/app/services/task_service.py:103-112 | confirms a CREATED task only |
| TaskService.TaskService.CancelTask | backend/app/services/task_service.py:161-173 | cancels the PENDING executions in any row order and derives the status; refuses a finished task |
| TaskService.TaskService.FetchPending | backend/app/services/task_service.py:175-194 | marks exactly the batch RUNNING and returns one assignment per execution with the terms of its task |
| TaskService.TaskService.ReportResult | backend/app/services/task_service.py:196-260 | settles the execution as specified, logs it, derives the status and returns the stored row |
| TaskService.TaskService.ScanTimeouts | backend/app/services/task_service.py:264-279 | scanning task by task in any order times out exactly the expired executions of RUNNING tasks and counts them |
| TaskService.TaskService.DispatchRetries | backend/app/services/task_service.py:281-335 | handles the due executions one after the other and returns the number of new attempts |
| TaskService.TaskService.FireDueCron | backend/app/services/task_service.py:358-380 | creates the batch of every due CRON task and returns how many fired |
| TaskService.TaskService.CleanupHistory | backend/app/services/task_service.py:337-347 | deletes as specified and returns how many executions and tasks are gone |
| TaskService.TaskService.DeleteTerminalBefore | backend/app/repositories/task_repository.py:232-251 | deletes ended executions before the cutoff with their logs and counts them |
| TaskService.TaskService.DeleteFinishedTasksBefore | backend/app/repositories/task_repository.py:51-71 | deletes finished ONCE tasks before the cutoff that have no execution, with their targets, and counts them |
| Text.SplitAtColon | backend/app/services/alert_engine.py:178-180 | a decimal number followed by a colon can be read back from a key |
| AlertRules.AlertKeyInjective | backend/app/services/alert_engine.py:178-180 | two alert keys are equal only for the same rule, server and metric, whatever text the metric type is |
| AlertRules.SelfRecovery | backend/app/services/alert_engine.py:162-166 | some reading resolves an alert of a rule exactly unless it is a lower-bound rule whose recovery threshold lies below its threshold (LT), or not above it (LTE) |
| AlertRules.RecoveryOpposesViolation | backend/app/services/alert_engine.py:95-102 | without recovery threshold, recovery is the opposite of violation for all readings exactly if no scaling of a LOAD threshold moves it |
| AlertBoard.FindActive | backend/app/repositories/alert_repository.py:29-35 | finds an active event of the key exactly if there is one |
| AlertBoard.PairsHaveDistinctKeys | backend/app/services/alert_engine.py:64-66 | no two turns of the nested loops look at the same key |
| AlertBoard.PairsAreIndependent | backend/app/services/alert_engine.py:64-76 | turns that each see what the earlier ones wrote end in the state where every old event is judged by its own pair and every raised event is appended |
| AlertRounds.RoundIsPointwise | backend/app/services/alert_engine.py:52-80 | an evaluation of all rules and servers is that one simultaneous step |
| AlertRounds.ActiveAfterRound | backend/app/services/alert_engine.py:119-166 | afterwards a key with a reading has an active event exactly if it violates, or had one and has not recovered |
| AlertRounds.NoReadingNoChange | backend/app/services/alert_engine.py:66-69 | keys without a reading keep their events unchanged and get no new one |
| AlertRounds.CreatedCount | backend/app/services/alert_engine.py:72-80 | the number of new alerts is the number of violating pairs that had no active alert before the round |
| AlertRounds.OrderIsIrrelevant | backend/app/services/alert_engine.py:64-66 | another order of rules and servers gives the same old events and the same multiset of new ones |
| AlertRounds.OldHistories | backend/app/services/alert_engine.py:64-76 | the loops add to the log of an old event one row if the event's own pair changes its status and nothing otherwise |
| AlertRounds.OrderIsIrrelevantForLogs | backend/app/services/alert_engine.py:64-66 | another order of rules and servers gives every old event the same log |
| AlertInvariant.EvaluatePairsSteps | backend/app/services/alert_engine.py:119-176 | evaluations keep one active event per key, sound timestamps and connected logs |
| AlertInvariant.AcknowledgeSteps | backend/app/services/alert_service.py:113-128 | an accepted acknowledgement keeps the same invariant |
| AlertInvariant.ResolveSteps | backend/app/services/alert_service.py:130-144 | an accepted manual recovery keeps the same invariant |
| AlertHistory.ReachableOk | backend/app/services/alert_engine.py:36-42 | the invariant holds after any sequence of evaluations and operator actions |
| AlertHistory.HistoryIsAPath | backend/app/services/alert_engine.py:168-176 | at most one event per key is active, and the log of every event leads from its creation as PENDING, each old status being the previous new one, to its current status |
| AlertHistory.StatusesOnlyRise | backend/app/services/alert_engine.py:37-40 | statuses never fall in PENDING, FIRING, ACKNOWLEDGED, RESOLVED; a resolved event never changes; logs are only appended |
| AlertHistory.BirthIsViolation | backend/app/services/alert_engine.py:119-145 | an event is only created by an evaluation that reads a violation for a key without active event, as PENDING and first fired at that moment |
| AlertHistory.FiringIsExact | backend/app/services/alert_engine.py:147-153 | a PENDING event starts FIRING exactly when a violation is read at least the rule's duration after its creation |
| AlertHistory.ResolvingIsExact | backend/app/services/alert_engine.py:155-166 | an active event is resolved exactly by a reading that recovers without violating, or by an operator |
| AlertHistory.FiringIsSustained | backend/app/services/alert_engine.py:147-166 | an event that starts FIRING violated at its creation and now, at least the duration apart, and no reading evaluated in between had recovered |
| AlertHistory.EveryReadingViolates | backend/app/services/alert_engine.py:162-166 | without recovery threshold and for metrics other than LOAD every reading evaluated in between violated |
| AlertHistory.EpisodesDoNotOverlap | backend/app/repositories/alert_repository.py:29-35 | of two events of a key the earlier was resolved no later than the later began |
| AlertService.AlertEngine.EvaluateAll | backend/app/services/alert_engine.py:52-80 | the nested loops end in the specified tables and return the number of violating pairs without active alert |
| AlertService.AlertEngine.HandleViolation | backend/app/services/alert_engine.py:119-153 | creates the event or updates the active one, firing it when due, and logs every change of status |
| AlertService.AlertEngine.HandleRecovery | backend/app/services/alert_engine.py:155-160 | resolves and logs the active event if the reading has recovered |
| AlertService.AlertOperators.Acknowledge | backend/app/services/alert_service.py:113-128 | acknowledges an active event with operator and time and logs it; refuses a missing or resolved one |
| AlertService.AlertOperators.Resolve | backend/app/services/alert_service.py:130-144 | resolves an active event and logs it; refuses a missing or resolved one |
| SchedulerLock.StepKeepsInv | backend/app/core/scheduler_lock.py:47-83 | every step of every process, failed commands with or without effect and crashes included, keeps the lock invariant |
| SchedulerLock.HolderIsStored | backend/app/core/scheduler_lock.py:60-76 | a process within the time to live of its own successful SET finds its token stored |
| SchedulerLock.MutualExclusion | backend/app/core/scheduler_lock.py:1-8 | two processes run one job at once only if one has outlived its time to live |
| SchedulerLock.AcquisitionIsExact | backend/app/core/scheduler_lock.py:57-71 | a process gets the lock exactly if the key is free, and then every other holder has outlived its own |
| SchedulerLock.OutlivingTheLockLetsAnotherIn | backend/app/core/scheduler_lock.py:61 | a run in which a second process starts the job because the first outlived its lock |
| SchedulerLock.ReleaseIsOwn | backend/app/core/scheduler_lock.py:25-45 | a release, however stale, changes nothing but an entry holding the releasing process's own token |
| SchedulerLock.LockComesBack | backend/app/core/scheduler_lock.py:43-45 | unless a new lock is stored, a job is free as soon as the stored entry's own time is over, whatever crashes and lost releases there were |
| SchedulerLock.CrashFreesTheLock | backend/app/core/scheduler_lock.py:43-45 | after a crash, unless a new lock is stored, the job is free once the crashed process's own time to live is over |
| SchedulerLock.OwnLockEnds | backend/app/core/scheduler_lock.py:60-62 | whatever happens, no live key carries a process's token once its own time to live is over |
| SchedulerLock.LockComesBackWithinTtl | backend/app/core/scheduler_lock.py:60-62 | unless a new lock is stored, a job is free after the longest time to live of the run |
| SchedulerLock.Lock.TryAcquire | backend/app/core/scheduler_lock.py:57-71 | sets the key with at least one second to live exactly if it is free |
| Redis.Client.Delete | backend/app/core/scheduler_lock.py:24-27 | compares and deletes in one step |
| RequestReplay.ReplayKeyInjective | backend/app/core/replay.py:35 | servers never share a replay key, whatever request ids their agents choose |
| RequestReplay.RequiredMeansGuarded | backend/app/api/v1/deps.py:189-217 | where signatures are required, whatever is accepted has passed the replay check |
| RequestReplay.SecondIsLate | backend/app/core/replay.py:36-37 | a recorded request id is accepted again no earlier than twice the skew later |
| RequestReplay.SecondNeedsFullLead | backend/app/api/v1/deps.py:189-217 | two acceptances of a request need the full lead at the first and the full lag at the second |
| RequestReplay.AtMostOnce | backend/app/api/v1/deps.py:189-217 | a request that leads the clock by at most the skew minus one second is never accepted twice in any run |
| RequestReplay.NeverThrice | backend/app/api/v1/deps.py:189-217 | no request is accepted three times |
| RequestReplay.ReplayWindow | backend/app/api/v1/deps.py:189-217 | an accepted request would be accepted again at some later moment exactly if it led the clock by the whole skew |
| RequestReplay.Guard.IsReplayed | backend/app/core/replay.py:21-37 | records the id for the time to live and reports whether it was there |
| RequestReplay.Guard.VerifyAgentSignature | backend/app/api/v1/deps.py:169-217 | decides in the order of the source: missing headers, agent id, timestamp, window, key, signature, replay |
| SignedCalls.CallAppliesAtMostOnce | agent/reporter/client.py:92-110 | of all requests in a replay run that carry the headers of one call's sends at most one passes the replay check, if the first that does leads the clock by at most the skew less one second |
| SignedCalls.CallIsAcceptedAtMostOnce | backend/app/api/v1/deps.py:206-217 | where signatures are required, at most one of the sends of a call is accepted at all |
| ClientBackoff.DoublingsIsLeast | agent/reporter/client.py:119-126 | the number of doublings is the least power of two that reaches the cap |
| ClientBackoff.TotalSleep | agent/reporter/client.py:119-127 | all sleeps of a call together stay below three times the cap for any jitter |
| ClientBackoff.AgentClient.Request | agent/reporter/client.py:92-131 | sends one more request than the lesser of failures, limit and doublings, all with the headers of one signature; every sleep is capped and their sum below three times the cap |
| ClientBackoff.GoClient.Request | agent-go/internal/reporter/client.go:113-155 | the same for the Go loop with its own cap of 60 seconds and integer nanoseconds |
| ClientBackoff.GoOptionsBoundCalls | agent-go/internal/reporter/client.go:58-68 | whatever the options, a Go client sends at most seven requests per call, never retries exactly if its cap is one second, and with the defaults sends three to a server that never answers |
| ClientBackoff.AgentsAgree | agent-go/internal/reporter/client.go:118-155 | both agents send equally often on every network exactly if the cap is at most 64 seconds or the limit at most six |

## Left out

- Interleavings inside a call: a call is one atomic step and transactions, locks and rollbacks of MySQL are not part of this model.
- Several clock readings within one call: each call has one `now`.
- Microseconds: instants are whole milliseconds, as the columns store them.
- `duration_ms`, `target_status`, task names and log texts: nothing decides on them; a log row is its execution and level.
- Case folding beyond ASCII in error messages.
- Cron expressions: which tasks have come due is an input of the firing operation.
- Settings that switch the job lock off.
- Rounding of a scaled LOAD threshold to four decimals: thresholds have four decimals and core counts are whole, so in exact arithmetic it changes nothing; floating point itself is not part of this model.
- Editing rules: every round carries the rules as they stand, so an edit is another round; deleting rules and events is not part of this model.
- Redis expiring a key in the very millisecond its time is over: a key is gone from that millisecond on.
- The text of JSON bodies, the signature algorithm, the drawing of request ids and Python's parsing of numbers: their answers are inputs.
- Cancellation of a Go request by its context, and overflow of Go durations for caps beyond 292 years.
- The callback that a job lock protects: running it is a phase of the process, so the lock class only has the two calls around it.
- TaskService.TaskService.CreateTask: an empty idempotency key that is already stored violates the unique index; the model answers with an error where the code lets the database exception through.
- User, role and server administration, paging, monitoring queries, discovery and metric archiving: they would only add routine members.
