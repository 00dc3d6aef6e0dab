/**
 * Rows of the task engine and the rules that look at one task only
 * (backend/app/models/task.py, backend/app/repositories/task_repository.py,
 * backend/app/services/task_service.py). Times are integer milliseconds.
 */
module TaskModel {
  import opened Wrappers
  import opened Clock
  import opened RetryPolicy
  import Text

  datatype Status = CREATED | PENDING | RUNNING | RETRYING | SUCCESS | FAILED | TIMEOUT | CANCELLED | DEAD

  /** The free-text column `schedule_type`; only two of its values are ever acted upon. */
  datatype Schedule = ONCE | CRON | OTHER(name: string)

  /** The part of a task that is fixed when it is created. */
  datatype Terms = Terms(schedule: Schedule, cron: Option<string>, action: string, serviceName: Option<string>,
                         createdBy: int, createdAt: int, timeoutSeconds: nat, maxAttempts: nat,
                         deadlineAt: Option<int>, idempotencyKey: Option<string>, confirmationRequired: bool)

  datatype Task = Task(terms: Terms, status: Status, attempt: int, startedAt: Option<int>, finishedAt: Option<int>,
                       confirmedBy: Option<int>, confirmedAt: Option<int>)

  datatype Target = Target(taskId: int, serverId: int)

  /** The part of an execution that is fixed when it is created. */
  datatype Ticket = Ticket(taskId: int, targetId: int, serverId: int, attempt: int, createdAt: int)

  datatype Execution = Execution(ticket: Ticket, status: Status, startedAt: Option<int>, finishedAt: Option<int>,
                                 nextRetryAt: Option<int>, errorType: Option<string>, errorMessage: Option<string>,
                                 exitCode: Option<int>, resultText: Option<string>)

  predicate Terminal(s: Status) {
    s in {SUCCESS, FAILED, TIMEOUT, CANCELLED, DEAD}
  }

  /** A task no execution of which has been touched yet. */
  predicate Untouched(s: Status) {
    s == CREATED || s == PENDING
  }

  // ---------- row writes (TaskExecutionRepository) ----------

  function NewExecution(taskId: int, targetId: int, serverId: int, attempt: int, now: int): Execution {
    Execution(Ticket(taskId, targetId, serverId, attempt, now), PENDING, None, None, None, None, None, None, None)
  }

  function MarkRunning(e: Execution, now: int): Execution {
    e.(status := RUNNING, startedAt := Some(now))
  }

  function Finish(e: Execution, now: int, status: Status, exitCode: Option<int>, resultText: Option<string>,
                  errorMessage: Option<string>, errorType: Option<string>): Execution {
    e.(status := status, exitCode := exitCode, resultText := resultText, errorMessage := errorMessage,
       errorType := if errorType.Some? then errorType else e.errorType, finishedAt := Some(now))
  }

  function MarkRetrying(e: Execution, now: int, errorType: string, errorMessage: Option<string>, nextRetryAt: int): Execution {
    e.(status := RETRYING, errorType := Some(errorType), errorMessage := errorMessage,
       nextRetryAt := Some(nextRetryAt), finishedAt := Some(now))
  }

  function MarkDead(e: Execution, now: int, errorType: string, errorMessage: Option<string>): Execution {
    e.(status := DEAD, errorType := Some(errorType), errorMessage := errorMessage, nextRetryAt := None, finishedAt := Some(now))
  }

  function MarkTimeout(e: Execution, timeoutSeconds: nat, now: int): Execution {
    e.(status := TIMEOUT, finishedAt := Some(now), errorMessage := Some("执行超时（" + Text.NatText(timeoutSeconds) + "s）"))
  }

  predicate IsExpired(e: Execution, timeoutSeconds: nat, now: int) {
    e.status == RUNNING && e.startedAt.Some? && e.startedAt.value < now - timeoutSeconds * SECOND
  }

  // ---------- decisions on one execution (TaskService) ----------

  predicate CanRetry(task: Task, e: Execution, now: int) {
    e.ticket.attempt < task.terms.maxAttempts && !(task.terms.deadlineAt.Some? && now >= task.terms.deadlineAt.value)
  }

  /** What an agent sends back; `status` is free text of which only SUCCESS is recognised. */
  datatype Report = Report(status: string, exitCode: Option<int>, resultText: Option<string>,
                           errorMessage: Option<string>, errorType: Option<string>)

  const BUDGET_EXHAUSTED := "重试预算耗尽"

  /** Python's `s or fallback` on an optional string. */
  function OrElse(s: Option<string>, fallback: string): Option<string> {
    if s.Some? && s.value != "" then s else Some(fallback)
  }

  /** The row `report_result` leaves behind for an execution that has not ended yet. */
  function Settle(task: Task, e: Execution, report: Report, now: int): Execution {
    if report.status == "SUCCESS" then Finish(e, now, SUCCESS, report.exitCode, report.resultText, None, None)
    else
      var failedType := ClassifyError(report.errorType, report.errorMessage);
      if IsRetryable(report.errorType, report.errorMessage) then
        if CanRetry(task, e, now) then
          MarkRetrying(e, now, failedType, report.errorMessage, now + BackoffSeconds(e.ticket.attempt) * SECOND)
        else
          MarkDead(e, now, failedType, OrElse(report.errorMessage, BUDGET_EXHAUSTED))
      else
        Finish(e, now, FAILED, report.exitCode, None, report.errorMessage, Some(failedType))
  }

  /** The row of a failed attempt that is archived because the next attempt replaces it. */
  function Archive(e: Execution, now: int): Execution {
    Finish(e, now, FAILED, None, None, e.errorMessage, e.errorType)
  }

  function Exhaust(e: Execution, now: int): Execution {
    MarkDead(e, now, OrElse(e.errorType, UNKNOWN_ERROR_TYPE).value, OrElse(e.errorMessage, BUDGET_EXHAUSTED))
  }

  function NextAttempt(e: Execution, now: int): Execution {
    NewExecution(e.ticket.taskId, e.ticket.targetId, e.ticket.serverId, e.ticket.attempt + 1, now)
  }

  // ---------- one task with all its rows ----------

  /** A task, its executions by id and the ids of its targets. */
  datatype Job = Job(task: Task, rows: map<int, Execution>, targets: set<int>)

  /** Whether `i` holds the highest attempt among the executions of its target. */
  ghost predicate IsLatest(rows: map<int, Execution>, i: int) {
    i in rows &&
    forall k | k in rows && rows[k].ticket.targetId == rows[i].ticket.targetId ::
      rows[k].ticket.attempt <= rows[i].ticket.attempt
  }

  /** The statuses of every target's latest attempt. */
  ghost function LatestStatuses(rows: map<int, Execution>): set<Status> {
    set i | i in rows && IsLatest(rows, i) :: rows[i].status
  }

  /** The task status that a set of latest statuses stands for. */
  function Verdict(statuses: set<Status>): Status {
    if RETRYING in statuses then RETRYING
    else if PENDING in statuses || RUNNING in statuses then RUNNING
    else if DEAD in statuses then DEAD
    else if FAILED in statuses || TIMEOUT in statuses then FAILED
    else if forall s | s in statuses :: s == SUCCESS then SUCCESS
    else if forall s | s in statuses :: s == CANCELLED then CANCELLED
    else if SUCCESS in statuses then SUCCESS else FAILED
  }

  /** The task after its status has been derived from its executions again. */
  ghost function AggregatedTask(task: Task, rows: map<int, Execution>, now: int): Task {
    if rows == map[] then task.(status := PENDING)
    else
      var s := Verdict(LatestStatuses(rows));
      task.(status := s, finishedAt := if Terminal(s) then Some(now) else task.finishedAt)
  }

  ghost function Aggregated(j: Job, now: int): Job {
    j.(task := AggregatedTask(j.task, j.rows, now))
  }

  // ---------- what each operation does to one task ----------

  function CancelRow(e: Execution, now: int): Execution {
    if e.status == PENDING then Finish(e, now, CANCELLED, None, None, Some("任务被取消"), None) else e
  }

  function CancelRows(rows: map<int, Execution>, now: int): map<int, Execution> {
    map i | i in rows :: CancelRow(rows[i], now)
  }

  ghost function Cancelled(j: Job, now: int): Job {
    Aggregated(j.(rows := CancelRows(j.rows, now)), now)
  }

  function ClaimTask(task: Task, now: int): Task {
    task.(status := RUNNING, startedAt := if task.startedAt.Some? then task.startedAt else Some(now))
  }

  function ClaimRows(rows: map<int, Execution>, claimed: set<int>, now: int): map<int, Execution> {
    map i | i in rows :: if i in claimed then MarkRunning(rows[i], now) else rows[i]
  }

  predicate Touches(rows: map<int, Execution>, claimed: set<int>) {
    exists i | i in rows :: i in claimed
  }

  function Claimed(j: Job, claimed: set<int>, now: int): Job {
    if !Touches(j.rows, claimed) then j
    else j.(task := ClaimTask(j.task, now), rows := ClaimRows(j.rows, claimed, now))
  }

  ghost function Reported(j: Job, i: int, report: Report, now: int): Job
    requires i in j.rows
  {
    Aggregated(j.(rows := j.rows[i := Settle(j.task, j.rows[i], report, now)]), now)
  }

  function TimeoutRows(rows: map<int, Execution>, timeoutSeconds: nat, now: int): map<int, Execution> {
    map i | i in rows :: if IsExpired(rows[i], timeoutSeconds, now) then MarkTimeout(rows[i], timeoutSeconds, now) else rows[i]
  }

  predicate HasExpired(rows: map<int, Execution>, timeoutSeconds: nat, now: int) {
    exists i | i in rows :: IsExpired(rows[i], timeoutSeconds, now)
  }

  ghost function TimedOut(j: Job, now: int): Job {
    if j.task.status == RUNNING && HasExpired(j.rows, j.task.terms.timeoutSeconds, now)
    then Aggregated(j.(rows := TimeoutRows(j.rows, j.task.terms.timeoutSeconds, now)), now)
    else j
  }

  /** One turn of the retry dispatcher on execution `i`; a new attempt gets the id `newId`. */
  ghost function Redispatched(j: Job, i: int, newId: int, now: int): Job
    requires i in j.rows
  {
    var e := j.rows[i];
    if Terminal(j.task.status) then j.(rows := j.rows[i := Archive(e, now)])
    else if !CanRetry(j.task, e, now) then Aggregated(j.(rows := j.rows[i := Exhaust(e, now)]), now)
    else
      Aggregated(j.(rows := j.rows[i := Archive(e, now)][newId := NextAttempt(e, now)],
                    task := j.task.(attempt := e.ticket.attempt + 1)), now)
  }

  /** The status and start time a CRON task gets when it fires. */
  function FireTask(task: Task, now: int): Task {
    ClaimTask(task, now)
  }

  predicate Outdated(e: Execution, cutoff: int) {
    Terminal(e.status) && e.finishedAt.Some? && e.finishedAt.value < cutoff
  }

  function PurgeRows(rows: map<int, Execution>, cutoff: int): map<int, Execution> {
    map i | i in rows && !Outdated(rows[i], cutoff) :: rows[i]
  }

  function Purged(j: Job, cutoff: int): Job {
    j.(rows := PurgeRows(j.rows, cutoff))
  }
}
