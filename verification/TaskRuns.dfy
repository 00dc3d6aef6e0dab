/** What holds of every task in every state a run of the task engine can reach. */
module TaskRuns {
  import opened Wrappers
  import opened Clock
  import opened RetryPolicy
  import opened TaskModel
  import opened JobInvariant
  import opened JobFacts
  import opened TaskStore
  import opened StoreInvariant
  import opened TaskHistory

  predicate SameChain(s: Store, i: int, k: int) {
    i in s.execs && k in s.execs && s.execs[i].ticket.taskId == s.execs[k].ticket.taskId &&
    s.execs[i].ticket.targetId == s.execs[k].ticket.targetId
  }

  /**
   * The stored attempts of a target differ and leave no gap; all but the last failed with a retryable error,
   * and an execution that has not ended is the last.
   */
  lemma RetryChain(run: Run, n: nat, i: int, k: int, attempt: int)
    requires IsRun(run) && n <= |run.calls| && SameChain(run.states[n], i, k) && i != k
    requires run.states[n].execs[i].ticket.attempt <= attempt <= run.states[n].execs[k].ticket.attempt
    ensures run.states[n].execs[k].ticket.taskId in run.states[n].tasks
    ensures var s := run.states[n]; var e, f := s.execs[i], s.execs[k];
            && e.ticket.attempt < f.ticket.attempt <= s.tasks[f.ticket.taskId].terms.maxAttempts
            && e.status == FAILED && RetryableType(e.errorType)
            && e.ticket.createdAt + BackoffSeconds(e.ticket.attempt) * SECOND <= f.ticket.createdAt
            && exists m :: SameChain(s, i, m) && s.execs[m].ticket.attempt == attempt
  {
    ReachableRefs(run, n);
    var s := run.states[n];
    InItsJob(s, i);
    InItsJob(s, k);
    var t, now := s.execs[i].ticket.taskId, ClockAt(run, n);
    var j := JobOf(s, t);
    ReachableJobOk(run, n, t);
    OnlyTheLastAttemptIsOpen(j, now, i, k);
    OnlyTheLastAttemptIsOpen(j, now, k, i);
    BackoffIsRespected(j, now, i, k);
    AttemptsAreConsecutive(j, now, i, k, attempt);
    var m :| m in j.rows && j.rows[m].ticket.targetId == s.execs[i].ticket.targetId && j.rows[m].ticket.attempt == attempt;
    assert SameChain(s, i, m);
  }

  /** No attempt starts before the delays of the earlier ones have passed, and no retry starts past the deadline. */
  lemma RetryBudget(run: Run, n: nat, i: int)
    requires IsRun(run) && n <= |run.calls| && i in run.states[n].execs
    ensures run.states[n].execs[i].ticket.taskId in run.states[n].tasks
    ensures var e := run.states[n].execs[i]; var task := run.states[n].tasks[e.ticket.taskId];
            var k, terms := e.ticket.attempt, task.terms;
            && LaunchTime(task) + CumulativeBackoff(k) * SECOND <= e.ticket.createdAt
            && (k >= 2 ==> e.ticket.createdAt < terms.createdAt + terms.timeoutSeconds * terms.maxAttempts * SECOND)
            && (k >= 2 ==> CumulativeBackoff(k) < terms.timeoutSeconds * terms.maxAttempts)
  {
    ReachableRefs(run, n);
    var s := run.states[n];
    InItsJob(s, i);
    var t := s.execs[i].ticket.taskId;
    ReachableJobOk(run, n, t);
    AttemptsFitTheBudget(JobOf(s, t), ClockAt(run, n), i);
  }

  /** A task never stores more executions than targets times allowed attempts. */
  lemma ExecutionsPerTask(run: Run, n: nat, t: int)
    requires IsRun(run) && n <= |run.calls| && t in run.states[n].tasks
    ensures var s := run.states[n];
            |Rows(s.execs, t).Keys| <= |TargetsOf(s.targets, t)| * s.tasks[t].terms.maxAttempts
  {
    ReachableJobOk(run, n, t);
    ExecutionsAreBounded(JobOf(run.states[n], t), ClockAt(run, n));
  }

  /** DEAD, FAILED and RETRYING mean what ADR-009 says, for the attempt that decides the result of a target, in any run. */
  lemma LatestAttemptMeans(run: Run, n: nat, t: int, i: int)
    requires IsRun(run) && n <= |run.calls| && t in run.states[n].tasks && IsLatest(Rows(run.states[n].execs, t), i)
    ensures var s := run.states[n]; var e, task := s.execs[i], s.tasks[t];
            && (e.status == FAILED ==> e.errorType.Some? && !RetryableType(e.errorType))
            && (e.status == DEAD ==> RetryableType(e.errorType) && e.finishedAt.Some? && !CanRetry(task, e, e.finishedAt.value))
            && (e.status == RETRYING ==> RetryableType(e.errorType) && e.ticket.attempt < task.terms.maxAttempts &&
                                         e.finishedAt.Some? && e.nextRetryAt == Some(e.finishedAt.value + BackoffSeconds(e.ticket.attempt) * SECOND))
  {
    ReachableJobOk(run, n, t);
    VerdictsMeanWhatTheySay(JobOf(run.states[n], t), ClockAt(run, n), i);
  }

  /** With ten attempts of ten seconds each there is never a fifth attempt, in any run. */
  lemma TenByTenInRuns(run: Run, n: nat, i: int)
    requires IsRun(run) && n <= |run.calls| && i in run.states[n].execs
    ensures run.states[n].execs[i].ticket.taskId in run.states[n].tasks
    ensures var terms := run.states[n].tasks[run.states[n].execs[i].ticket.taskId].terms;
            terms.timeoutSeconds == 10 && terms.maxAttempts == 10 ==> run.states[n].execs[i].ticket.attempt <= 4
  {
    RetryBudget(run, n, i);
    CumulativeBackoffClosedForm(run.states[n].execs[i].ticket.attempt);
  }

  /**
   * At every turn of the dispatcher in any run, the due execution is killed exactly if the deadline of its task has
   * passed; otherwise it is archived and exactly one pending attempt with the next number is added.
   */
  lemma DispatchTurn(run: Run, n: nat, m: nat)
    requires IsRun(run) && n < |run.calls| && run.calls[n].event.Dispatch? && m < |run.calls[n].event.due|
    ensures var due, now := run.calls[n].event.due, run.calls[n].now;
            var s, r := DispatchRetries(run.states[n], now, due[..m]), DispatchRetries(run.states[n], now, due[..m + 1]);
            TurnDone(s, r, due[m], now)
  {
    StepAt(run, n);
    TurnOfBatch(run.states[n], run.calls[n].now, run.calls[n].event.due, m);
  }

  lemma TurnOfBatch(s: Store, now: int, due: seq<int>, m: nat)
    requires StoreOk(s, now) && Distinct(due) && (forall k | 0 <= k < |due| :: DueExec(s, now, due[k])) && m < |due|
    ensures TurnDone(DispatchRetries(s, now, due[..m]), DispatchRetries(s, now, due[..m + 1]), due[m], now)
  {
    FinishedTasksHaveNoRetries(s, now, due, m);
    DispatchSteps(s, now, due[..m]);
    assert due[..m + 1][..m] == due[..m];
    TurnIsExact(DispatchRetries(s, now, due[..m]), now, due[m]);
  }

  predicate TurnDone(s: Store, r: Store, i: int, now: int) {
    && i in s.execs && s.execs[i].ticket.taskId in s.tasks && i in r.execs
    && var e, terms := s.execs[i], s.tasks[s.execs[i].ticket.taskId].terms;
       if terms.createdAt + terms.timeoutSeconds * terms.maxAttempts * SECOND <= now
       then r.execs.Keys == s.execs.Keys && r.execs[i].status == DEAD
       else && s.nextExec !in s.execs && r.execs.Keys == s.execs.Keys + {s.nextExec}
            && r.execs[i].status == FAILED && r.execs[s.nextExec].status == PENDING
            && r.execs[s.nextExec].ticket == e.ticket.(attempt := e.ticket.attempt + 1, createdAt := now)
  }

  lemma TurnIsExact(s: Store, now: int, i: int)
    requires StoreOk(s, now) && DueExec(s, now, i)
    ensures TurnDone(s, DispatchOne(s, now, i), i, now)
  {
    DueMeansOpen(s, now, i);
    TasksOfOthers(s, now, i);
  }

  /** A cleanup in any run removes only initial segments of a chain: with an attempt, every later one survives. */
  lemma CleanupIsOldestFirst(run: Run, n: nat, i: int, k: int)
    requires IsRun(run) && n < |run.calls| && run.calls[n].event.Cleanup? && SameChain(run.states[n], i, k)
    requires run.states[n].execs[i].ticket.attempt <= run.states[n].execs[k].ticket.attempt && i in run.states[n + 1].execs
    ensures k in run.states[n + 1].execs
  {
    StepAt(run, n);
    LaterAttemptsSurvive(run.states[n], run.calls[n].now, run.calls[n].event.cutoff, i, k);
    CleanedExecs(run.states[n], run.calls[n].event.cutoff, i);
    CleanedExecs(run.states[n], run.calls[n].event.cutoff, k);
  }

  lemma CleanedExecs(s: Store, cutoff: int, i: int)
    ensures i in CleanupHistory(s, cutoff).execs <==> i in s.execs && !Outdated(s.execs[i], cutoff)
  {
  }

  lemma LaterAttemptsSurvive(s: Store, now: int, cutoff: int, i: int, k: int)
    requires StoreOk(s, now) && SameChain(s, i, k) && s.execs[i].ticket.attempt <= s.execs[k].ticket.attempt
    ensures !Outdated(s.execs[i], cutoff) ==> !Outdated(s.execs[k], cutoff)
  {
    InItsJob(s, i);
    InItsJob(s, k);
    var j := JobOf(s, s.execs[i].ticket.taskId);
    assert JobOk(j, now);
    if !Outdated(j.rows[i], cutoff) {
      PurgeIsOldestFirst(j, now, cutoff, i, k);
    }
  }

  /** The dispatcher never meets a waiting execution of a finished task, whatever else is due in the same batch. */
  lemma DispatchFindsOpenTasks(run: Run, n: nat, m: nat)
    requires IsRun(run) && n < |run.calls| && run.calls[n].event.Dispatch? && m < |run.calls[n].event.due|
    ensures var due, now := run.calls[n].event.due, run.calls[n].now;
            var r := DispatchRetries(run.states[n], now, due[..m]);
            && DueExec(r, now, due[m]) && r.execs[due[m]].ticket.taskId in r.tasks
            && !Terminal(r.tasks[r.execs[due[m]].ticket.taskId].status)
  {
    StepAt(run, n);
    FinishedTasksHaveNoRetries(run.states[n], run.calls[n].now, run.calls[n].event.due, m);
  }

  /** After a cleanup nothing refers to a missing row and no expired ONCE task is left; CRON tasks and unfinished ones stay. */
  lemma CleanupLeaves(run: Run, n: nat)
    requires IsRun(run) && n < |run.calls| && run.calls[n].event.Cleanup?
    ensures var s, r, cutoff := run.states[n], run.states[n + 1], run.calls[n].event.cutoff;
            && RefsOk(r)
            && (forall t | t in r.tasks :: !Expired(r.tasks[t], cutoff))
            && (forall t | t in s.tasks && (s.tasks[t].terms.schedule == CRON || !Terminal(s.tasks[t].status)) :: t in r.tasks)
            && (forall i | i in r.execs :: !Outdated(r.execs[i], cutoff))
  {
    StepAt(run, n);
    CleanupIsExact(run.states[n], run.calls[n].now, run.calls[n].event.cutoff);
  }

  /** A cleanup leaves the verdict over an unfinished task's latest attempts as it was. */
  lemma CleanupKeepsVerdicts(run: Run, n: nat, t: int)
    requires IsRun(run) && n < |run.calls| && run.calls[n].event.Cleanup?
    requires t in run.states[n].tasks && !Terminal(run.states[n].tasks[t].status) && !Untouched(run.states[n].tasks[t].status)
    ensures var s, r := run.states[n], run.states[n + 1];
            && Verdict(LatestStatuses(Rows(s.execs, t))) == s.tasks[t].status
            && Verdict(LatestStatuses(Rows(r.execs, t))) == s.tasks[t].status
  {
    StepAt(run, n);
    var s, r, cutoff, now := run.states[n], run.states[n + 1], run.calls[n].event.cutoff, run.calls[n].now;
    assert JobOk(JobOf(s, t), now);
    PurgeKeepsTheVerdict(JobOf(s, t), now, cutoff);
    PurgeRowsOf(s.execs, cutoff, t);
    assert Rows(r.execs, t) == PurgeRows(Rows(s.execs, t), cutoff);
  }

  // ---------- what cancelling and scanning do not do ----------

  /** An execution an agent has claimed or that waits for its retry. */
  predicate InFlight(e: Execution) {
    e.status in {RUNNING, RETRYING}
  }

  /** What cancelling leaves in flight is still seen; if nothing is, everything has ended. */
  lemma CancelledStatuses(j: Job, now: int)
    requires JobOk(j, now)
    ensures LatestStatuses(CancelRows(j.rows, now)) !! {PENDING, RUNNING, RETRYING} <==> forall i | i in j.rows :: !InFlight(j.rows[i])
  {
    var rows := CancelRows(j.rows, now);
    CancelKeepsShape(j, now);
    if i :| i in j.rows && InFlight(j.rows[i]) {
      assert rows[i].status == j.rows[i].status;
      OpenStatusIsSeen(j.(rows := rows), now, i);
    } else {
      forall i | i in rows ensures Terminal(rows[i].status) {
        assert !InFlight(j.rows[i]);
      }
    }
  }

  lemma CancelledStatus(j: Job, now: int)
    requires JobOk(j, now)
    ensures Terminal(Cancelled(j, now).task.status) <==> j.rows != map[] && forall i | i in j.rows :: !InFlight(j.rows[i])
    ensures j.rows == map[] ==> Cancelled(j, now).task.status == PENDING
  {
    var rows := CancelRows(j.rows, now);
    CancelledStatuses(j, now);
    VerdictNeverUntouched(LatestStatuses(rows));
    assert rows.Keys == j.rows.Keys;
    assert rows == map[] <==> j.rows == map[] by {
      assert rows == map[] <==> rows.Keys == {};
      assert j.rows == map[] <==> j.rows.Keys == {};
    }
  }

  /**
   * An accepted cancellation ends a task exactly if it has executions and none is running or waiting for a retry;
   * a CRON task that has not fired becomes PENDING and can still fire.
   */
  lemma CancelEndsTheTask(run: Run, n: nat, t: int)
    requires IsRun(run) && n < |run.calls| && run.calls[n].event == Cancel(t)
    requires t in run.states[n].tasks && !Terminal(run.states[n].tasks[t].status)
    ensures t in run.states[n + 1].tasks
    ensures var rows, status := Rows(run.states[n].execs, t), run.states[n + 1].tasks[t].status;
            && (Terminal(status) <==> rows != map[] && forall i | i in rows :: !InFlight(rows[i]))
            && (rows == map[] ==> status == PENDING)
  {
    StepAt(run, n);
    var s, now := run.states[n], run.calls[n].now;
    assert JobOk(JobOf(s, t), now);
    CancelledStatus(JobOf(s, t), now);
    CancelRowsOf(s.execs, t, now, t);
  }

  /** A scan lets an expired execution run on exactly if its task is RETRYING for the sake of another target. */
  lemma ScanMissesRetryingTasks(run: Run, n: nat, i: int)
    requires IsRun(run) && n < |run.calls| && run.calls[n].event.Scan? && i in run.states[n].execs
    ensures run.states[n].execs[i].ticket.taskId in run.states[n].tasks && i in run.states[n + 1].execs
    ensures var s, r, now := run.states[n], run.states[n + 1], run.calls[n].now;
            var task := s.tasks[s.execs[i].ticket.taskId];
            IsExpired(s.execs[i], task.terms.timeoutSeconds, now) ==>
              r.execs[i].status == (if task.status == RETRYING then RUNNING else TIMEOUT)
  {
    StepAt(run, n);
    ReachableRefs(run, n);
    var s, now := run.states[n], run.calls[n].now;
    InItsJob(s, i);
    if s.execs[i].status == RUNNING {
      RunningMeansActive(JobOf(s, s.execs[i].ticket.taskId), now, i);
    }
  }

  lemma RunningMeansActive(j: Job, now: int, i: int)
    requires JobOk(j, now) && i in j.rows && j.rows[i].status == RUNNING
    ensures j.task.status in {RUNNING, RETRYING}
  {
    OpenStatusIsSeen(j, now, i);
    OpenRowMeansOpenTask(j, now, i);
  }
}
