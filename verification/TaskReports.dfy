/** What a report of an agent does, and when repeating it does nothing. */
module TaskReports {
  import opened Wrappers
  import opened Clock
  import opened RetryPolicy
  import opened TaskModel
  import opened JobInvariant
  import opened TaskStore
  import opened StoreInvariant
  import opened TaskHistory

  /** The error the agent reports is a transient one. */
  predicate Transient(report: Report) {
    if Stated(report.errorType) then RetryableType(report.errorType)
    else Mentions(Lower(report.errorMessage.GetOr("")), TIMEOUT_TOKENS + NETWORK_TOKENS + OFFLINE_TOKENS)
  }

  /** Attempts are left and the deadline has not passed. */
  predicate HasBudget(task: Task, attempt: int, now: int) {
    attempt < task.terms.maxAttempts && now < task.terms.createdAt + task.terms.timeoutSeconds * task.terms.maxAttempts * SECOND
  }

  /** The execution has the status the retry strategy gives a report, and what the agent sent along. */
  predicate SettledBy(task: Task, f: Execution, report: Report, now: int) {
    && f.finishedAt == Some(now)
    && f.status == (if report.status == "SUCCESS" then SUCCESS
                    else if !Transient(report) then FAILED
                    else if HasBudget(task, f.ticket.attempt, now) then RETRYING
                    else DEAD)
    && (f.status in {SUCCESS, FAILED} ==> f.exitCode == report.exitCode)
    && (f.status == SUCCESS ==> f.resultText == report.resultText && f.errorMessage == None)
    && (f.status in {FAILED, RETRYING} ==> f.errorMessage == report.errorMessage)
    && (f.status == RETRYING ==> f.nextRetryAt == Some(now + BackoffSeconds(f.ticket.attempt) * SECOND))
  }

  /** The tables differ in execution `i`, task `t` and one new log row of `i`, and in nothing else. */
  predicate DiffersIn(s: Store, r: Store, i: int, t: int) {
    && i in r.execs && t in r.tasks && s.nextLog in r.logs && r.logs[s.nextLog].executionId == i
    && r == s.(execs := s.execs[i := r.execs[i]], tasks := s.tasks[t := r.tasks[t]],
               logs := s.logs[s.nextLog := r.logs[s.nextLog]], nextLog := s.nextLog + 1)
  }

  /**
   * A report of the right server on an execution that has not ended decides its status as the retry strategy says and
   * keeps the reported result; no other execution and no other task changes.
   */
  lemma ReportOutcome(run: Run, n: nat, server: int, i: int, report: Report)
    requires IsRun(run) && n < |run.calls| && run.calls[n].event == Answer(server, i, report)
    requires i in run.states[n].execs && run.states[n].execs[i].ticket.serverId == server
    requires !Terminal(run.states[n].execs[i].status)
    ensures run.states[n].execs[i].ticket.taskId in run.states[n].tasks && i in run.states[n + 1].execs
    ensures var t := run.states[n].execs[i].ticket.taskId;
            SettledBy(run.states[n].tasks[t], run.states[n + 1].execs[i], report, run.calls[n].now) &&
            DiffersIn(run.states[n], run.states[n + 1], i, t)
  {
    ReachableRefs(run, n);
    InItsJob(run.states[n], i);
    StepAt(run, n);
    ReportSettles(run.states[n], run.calls[n].now, server, i, report);
  }

  lemma ReportSettles(s: Store, now: int, server: int, i: int, report: Report)
    requires StoreOk(s, now) && i in s.execs && s.execs[i].ticket.serverId == server && !Terminal(s.execs[i].status)
    requires s.execs[i].ticket.taskId in s.tasks
    ensures var t, r := s.execs[i].ticket.taskId, ReportResult(s, now, server, i, report);
            r.Ok? && DiffersIn(s, r.value, i, t) && SettledBy(s.tasks[t], r.value.execs[i], report, now)
  {
    var t := s.execs[i].ticket.taskId;
    assert JobOk(JobOf(s, t), now);
    SettledStatus(JobOf(s, t), s.execs[i], report, now);
    ReportTouchesOne(s, now, server, i, report);
  }

  lemma SettledStatus(j: Job, e: Execution, report: Report, now: int)
    requires JobOk(j, now)
    ensures SettledBy(j.task, Settle(j.task, e, report, now), report, now)
  {
    RetryDecision(report.errorType, report.errorMessage);
    assert CanRetry(j.task, e, now) <==> HasBudget(j.task, e.ticket.attempt, now);
  }

  lemma ReportTouchesOne(s: Store, now: int, server: int, i: int, report: Report)
    requires i in s.execs && s.execs[i].ticket.serverId == server && !Terminal(s.execs[i].status)
    requires s.execs[i].ticket.taskId in s.tasks
    ensures var t, r := s.execs[i].ticket.taskId, ReportResult(s, now, server, i, report);
            && r.Ok? && r.value.execs == s.execs[i := Settle(s.tasks[t], s.execs[i], report, now)]
            && DiffersIn(s, r.value, i, t)
  {
  }

  // ---------- repeated reports ----------

  /** The report comes from the server the stored execution is meant for. */
  predicate Accepted(s: Store, server: int, i: int) {
    i in s.execs && s.execs[i].ticket.serverId == server
  }

  lemma IdleReport(s: Store, now: int, server: int, i: int, report: Report)
    requires StoreOk(s, now) && Accepted(s, server, i) && s.execs[i].ticket.taskId in s.tasks
    ensures ReportResult(s, now, server, i, report) == Ok(s) <==> Terminal(s.execs[i].status)
  {
    if !Terminal(s.execs[i].status) {
      ReportSettles(s, now, server, i, report);
    }
  }

  /** An accepted report, repeated or not, leaves the tables alone exactly if the execution has ended. */
  lemma ReportIsIdleExactly(run: Run, n: nat, server: int, i: int, report: Report)
    requires IsRun(run) && n < |run.calls| && run.calls[n].event == Answer(server, i, report)
    requires Accepted(run.states[n], server, i)
    ensures run.states[n + 1] == run.states[n] <==> Terminal(run.states[n].execs[i].status)
  {
    ReachableRefs(run, n);
    InItsJob(run.states[n], i);
    StepAt(run, n);
    IdleReport(run.states[n], run.calls[n].now, server, i, report);
    if !Terminal(run.states[n].execs[i].status) {
      ReportSettles(run.states[n], run.calls[n].now, server, i, report);
    }
  }

  /**
   * A report sent twice in a row changes the tables again exactly if the first one left the execution waiting for its
   * retry; then the second settles it anew, which moves the retry to the backoff after the second report or kills it.
   */
  lemma ReportedTwice(run: Run, n: nat, server: int, i: int, report: Report)
    requires IsRun(run) && n + 1 < |run.calls| && Accepted(run.states[n], server, i)
    requires run.calls[n].event == Answer(server, i, report) && run.calls[n + 1].event == Answer(server, i, report)
    ensures i in run.states[n + 1].execs && run.states[n + 1].execs[i].ticket.taskId in run.states[n + 1].tasks
    ensures i in run.states[n + 2].execs
    ensures run.states[n + 2] == run.states[n + 1] <==> run.states[n + 1].execs[i].status != RETRYING
    ensures run.states[n + 1].execs[i].status == RETRYING ==>
              var e, f, now := run.states[n + 1].execs[i], run.states[n + 2].execs[i], run.calls[n + 1].now;
              && |run.states[n + 2].logs| == |run.states[n + 1].logs| + 1
              && if HasBudget(run.states[n + 1].tasks[e.ticket.taskId], e.ticket.attempt, now)
                 then f.status == RETRYING && f.nextRetryAt == Some(now + BackoffSeconds(e.ticket.attempt) * SECOND)
                 else f.status == DEAD
  {
    FirstReport(run, n, server, i, report);
    ReportIsIdleExactly(run, n + 1, server, i, report);
    if run.states[n + 1].execs[i].status == RETRYING {
      ReportOnRetrying(run, n + 1, server, i, report);
    }
  }

  /** A transient failure reported for an execution that waits for its retry moves the retry or kills it. */
  lemma ReportOnRetrying(run: Run, n: nat, server: int, i: int, report: Report)
    requires IsRun(run) && n < |run.calls| && Accepted(run.states[n], server, i)
    requires run.calls[n].event == Answer(server, i, report) && report.status != "SUCCESS" && Transient(report)
    requires run.states[n].execs[i].status == RETRYING
    ensures run.states[n].execs[i].ticket.taskId in run.states[n].tasks && i in run.states[n + 1].execs
    ensures var e, f, now := run.states[n].execs[i], run.states[n + 1].execs[i], run.calls[n].now;
            && |run.states[n + 1].logs| == |run.states[n].logs| + 1
            && if HasBudget(run.states[n].tasks[e.ticket.taskId], e.ticket.attempt, now)
               then f.status == RETRYING && f.nextRetryAt == Some(now + BackoffSeconds(e.ticket.attempt) * SECOND)
               else f.status == DEAD
  {
    ReportOutcome(run, n, server, i, report);
    ReachableRefs(run, n);
    OneMoreLog(run.states[n], run.states[n + 1], i, run.states[n].execs[i].ticket.taskId);
    StepEvolves(run, n);
  }

  lemma OneMoreLog(s: Store, r: Store, i: int, t: int)
    requires RefsOk(s) && DiffersIn(s, r, i, t)
    ensures |r.logs| == |s.logs| + 1
  {
    assert s.nextLog !in s.logs;
    assert r.logs.Keys == s.logs.Keys + {s.nextLog};
    assert |r.logs| == |r.logs.Keys| && |s.logs| == |s.logs.Keys|;
  }

  /** After an accepted report the execution has ended or waits for a retry of a transient error. */
  lemma FirstReport(run: Run, n: nat, server: int, i: int, report: Report)
    requires IsRun(run) && n < |run.calls| && Accepted(run.states[n], server, i)
    requires run.calls[n].event == Answer(server, i, report)
    ensures Accepted(run.states[n + 1], server, i) && run.states[n + 1].execs[i].ticket.taskId in run.states[n + 1].tasks
    ensures var status := run.states[n + 1].execs[i].status;
            Terminal(status) || (status == RETRYING && report.status != "SUCCESS" && Transient(report))
  {
    ReachableRefs(run, n + 1);
    if Terminal(run.states[n].execs[i].status) {
      ReportIsIdleExactly(run, n, server, i, report);
    } else {
      ReachableRefs(run, n);
      InItsJob(run.states[n], i);
      ReportOutcome(run, n, server, i, report);
      StepEvolves(run, n);
    }
    InItsJob(run.states[n + 1], i);
  }
}
