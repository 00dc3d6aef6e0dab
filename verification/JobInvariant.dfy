/**
 * What holds of a single task and its executions at all times, and why every operation keeps it.
 */
module JobInvariant {
  import opened Wrappers
  import opened Clock
  import opened RetryPolicy
  import opened TaskModel

  // ---------- the invariant ----------

  /** The attempt-1 executions of a task exist, or may exist. */
  predicate Launched(task: Task) {
    task.terms.schedule == ONCE || task.startedAt.Some?
  }

  /** When attempt 1 of every target was created: with the task, or when the CRON task fired. */
  function LaunchTime(task: Task): int {
    if task.terms.schedule != ONCE && task.startedAt.Some? then task.startedAt.value else task.terms.createdAt
  }

  predicate TermsOk(terms: Terms, now: int) {
    terms.maxAttempts >= 1 && terms.timeoutSeconds >= 0 && terms.createdAt <= now &&
    terms.deadlineAt == Some(terms.createdAt + terms.timeoutSeconds * terms.maxAttempts * SECOND)
  }

  predicate TaskOk(task: Task, now: int) {
    TermsOk(task.terms, now) && task.status != TIMEOUT &&
    (task.startedAt.Some? ==> task.terms.createdAt <= task.startedAt.value <= now) &&
    (task.finishedAt.Some? ==> task.finishedAt.value <= now)
  }

  predicate TicketOk(task: Task, c: Ticket, now: int) {
    Launched(task) &&
    1 <= c.attempt <= task.terms.maxAttempts &&
    LaunchTime(task) + CumulativeBackoff(c.attempt) * SECOND <= c.createdAt <= now &&
    (c.attempt >= 2 ==> task.terms.deadlineAt.Some? && c.createdAt < task.terms.deadlineAt.value)
  }

  /** The meaning of an execution's status, as ADR-009 words it. */
  predicate ResultOk(task: Task, e: Execution, now: int) {
    e.status != CREATED &&
    (e.status == PENDING ==> e == NewExecution(e.ticket.taskId, e.ticket.targetId, e.ticket.serverId, e.ticket.attempt, e.ticket.createdAt)) &&
    (e.status == RUNNING ==> e.startedAt.Some?) &&
    (Terminal(e.status) || e.status == RETRYING ==> e.finishedAt.Some? && e.ticket.createdAt <= e.finishedAt.value <= now) &&
    (e.status == RETRYING ==>
       RetryableType(e.errorType) && e.ticket.attempt < task.terms.maxAttempts &&
       e.nextRetryAt == Some(e.finishedAt.value + BackoffSeconds(e.ticket.attempt) * SECOND)) &&
    (e.status == DEAD ==>
       RetryableType(e.errorType) &&
       (e.ticket.attempt == task.terms.maxAttempts ||
        (task.terms.deadlineAt.Some? && e.finishedAt.value >= task.terms.deadlineAt.value))) &&
    (e.status == FAILED ==> e.errorType.Some?)
  }

  predicate RowOk(task: Task, e: Execution, now: int) {
    TicketOk(task, e.ticket, now) && ResultOk(task, e, now)
  }

  predicate RowsOk(j: Job, now: int) {
    forall i | i in j.rows :: RowOk(j.task, j.rows[i], now) && j.rows[i].ticket.targetId in j.targets
  }

  /** `e` failed in a retryable way, was archived, and `f` came after it no sooner than the backoff allows. */
  predicate Superseded(e: Execution, f: Execution) {
    e.status == FAILED && RetryableType(e.errorType) &&
    e.finishedAt.Some? && e.finishedAt.value <= f.ticket.createdAt &&
    e.ticket.createdAt + BackoffSeconds(e.ticket.attempt) * SECOND <= f.ticket.createdAt
  }

  predicate SameTarget(e: Execution, f: Execution) {
    e.ticket.targetId == f.ticket.targetId
  }

  /** Two executions of one target differ in attempt number, and the lower one is superseded. */
  predicate Ordered(e: Execution, f: Execution) {
    e.ticket.attempt != f.ticket.attempt && (e.ticket.attempt < f.ticket.attempt ==> Superseded(e, f))
  }

  predicate ChainsOk(rows: map<int, Execution>) {
    forall i, k | i in rows && k in rows && i != k && SameTarget(rows[i], rows[k]) :: Ordered(rows[i], rows[k])
  }

  predicate HasAttempt(rows: map<int, Execution>, targetId: int, attempt: int) {
    exists i | i in rows :: rows[i].ticket.targetId == targetId && rows[i].ticket.attempt == attempt
  }

  /** An archived attempt is always followed by its successor. */
  predicate LinksOk(rows: map<int, Execution>) {
    forall i | i in rows && rows[i].status == FAILED && RetryableType(rows[i].errorType) ::
      HasAttempt(rows, rows[i].ticket.targetId, rows[i].ticket.attempt + 1)
  }

  /** Everything but the task's own status. */
  predicate ShapeOk(j: Job, now: int) {
    TaskOk(j.task, now) && (exists g :: g in j.targets) && RowsOk(j, now) && ChainsOk(j.rows) && LinksOk(j.rows)
  }

  /** Every target still has an execution, i.e. retention has not erased any target's result. */
  predicate EveryTargetSeen(j: Job) {
    forall g | g in j.targets :: exists i | i in j.rows :: j.rows[i].ticket.targetId == g
  }

  predicate UntouchedOk(j: Job) {
    (forall i | i in j.rows :: j.rows[i].status == PENDING && j.rows[i].ticket.attempt == 1) &&
    j.task.startedAt.None? &&
    (if j.task.terms.schedule == ONCE then EveryTargetSeen(j) else j.rows == map[])
  }

  predicate AllOver(j: Job) {
    j.task.finishedAt.Some? &&
    forall i | i in j.rows :: Terminal(j.rows[i].status) && j.rows[i].finishedAt.Some? &&
                              j.rows[i].finishedAt.value <= j.task.finishedAt.value
  }

  /** The three shapes a task's status can have. */
  ghost predicate StatusOk(j: Job) {
    if Untouched(j.task.status) then UntouchedOk(j)
    else if Terminal(j.task.status) then
      AllOver(j) && (EveryTargetSeen(j) ==> j.task.status == Verdict(LatestStatuses(j.rows)))
    else
      j.rows != map[] && j.task.status == Verdict(LatestStatuses(j.rows))
  }

  ghost predicate JobOk(j: Job, now: int) {
    ShapeOk(j, now) && StatusOk(j)
  }

  // ---------- consequences ----------

  /** Time may pass. */
  lemma JobOkLater(j: Job, now: int, later: int)
    requires JobOk(j, now) && now <= later
    ensures JobOk(j, later)
  {
  }

  /** An execution that has not ended holds the highest attempt of its target. */
  lemma OpenIsLatest(j: Job, now: int, i: int)
    requires ShapeOk(j, now) && i in j.rows && !Terminal(j.rows[i].status)
    ensures IsLatest(j.rows, i)
  {
    forall k | k in j.rows && SameTarget(j.rows[k], j.rows[i])
      ensures j.rows[k].ticket.attempt <= j.rows[i].ticket.attempt
    {
      if k != i {
        assert Ordered(j.rows[i], j.rows[k]);
      }
    }
  }

  lemma OpenStatusIsSeen(j: Job, now: int, i: int)
    requires ShapeOk(j, now) && i in j.rows && !Terminal(j.rows[i].status)
    ensures j.rows[i].status in LatestStatuses(j.rows)
  {
    OpenIsLatest(j, now, i);
  }

  /** A task with an execution that has not ended has not ended either. */
  lemma OpenRowMeansOpenTask(j: Job, now: int, i: int)
    requires JobOk(j, now) && i in j.rows && !Terminal(j.rows[i].status)
    ensures !Terminal(j.task.status)
  {
  }

  lemma VerdictNeverUntouched(statuses: set<Status>)
    ensures !Untouched(Verdict(statuses))
    ensures Verdict(statuses) != TIMEOUT
    ensures Terminal(Verdict(statuses)) <==> statuses !! {PENDING, RUNNING, RETRYING}
  {
  }

  /** Only the unfinished members of a set decide an unfinished verdict. */
  lemma VerdictIgnoresEnded(a: set<Status>, b: set<Status>)
    requires forall s | !Terminal(s) :: s in a <==> s in b
    requires !Terminal(Verdict(a))
    ensures Verdict(b) == Verdict(a)
  {
  }

  // ---------- aggregation restores the status ----------

  /** Deriving the status puts a job in order again whatever the status was before. */
  lemma AggregatedOk(j: Job, now: int)
    requires ShapeOk(j, now) && j.rows != map[]
    ensures JobOk(Aggregated(j, now), now)
    ensures !Untouched(Aggregated(j, now).task.status)
  {
    var statuses := LatestStatuses(j.rows);
    var a := Aggregated(j, now);
    VerdictNeverUntouched(statuses);
    assert ShapeOk(a, now);
    if Terminal(a.task.status) {
      forall i | i in j.rows ensures Terminal(j.rows[i].status) {
        assert RowOk(j.task, j.rows[i], now);
        if !Terminal(j.rows[i].status) {
          OpenStatusIsSeen(j, now, i);
        }
      }
      assert AllOver(a);
    }
  }

  // ---------- row updates keep the shape ----------

  /** A legal move of one execution that has not ended. */
  predicate Advances(task: Task, e: Execution, f: Execution, now: int) {
    !Terminal(e.status) && e.ticket == f.ticket && ResultOk(task, f, now) &&
    (f.status == FAILED ==> !RetryableType(f.errorType))
  }

  /** Moving any number of unfinished executions forward keeps everything but the task status. */
  lemma ShapeAdvances(j: Job, rows: map<int, Execution>, now: int)
    requires ShapeOk(j, now)
    requires rows.Keys == j.rows.Keys
    requires forall i | i in rows :: rows[i] == j.rows[i] || Advances(j.task, j.rows[i], rows[i], now)
    ensures ShapeOk(j.(rows := rows), now)
  {
    forall i, k | i in rows && k in rows && i != k && SameTarget(rows[i], rows[k])
      ensures Ordered(rows[i], rows[k])
    {
      assert rows[i].ticket == j.rows[i].ticket && rows[k].ticket == j.rows[k].ticket;
      assert Ordered(j.rows[i], j.rows[k]);
    }
    forall i | i in rows && rows[i].status == FAILED && RetryableType(rows[i].errorType)
      ensures HasAttempt(rows, rows[i].ticket.targetId, rows[i].ticket.attempt + 1)
    {
      assert rows[i] == j.rows[i];
      var k :| k in j.rows && j.rows[k].ticket.targetId == rows[i].ticket.targetId && j.rows[k].ticket.attempt == rows[i].ticket.attempt + 1;
      assert rows[k].ticket == j.rows[k].ticket;
    }
  }

  // ---------- the operations keep the invariant ----------

  lemma CancelAdvances(task: Task, e: Execution, now: int)
    requires RowOk(task, e, now)
    ensures CancelRow(e, now) == e || Advances(task, e, CancelRow(e, now), now)
  {
  }

  lemma TimeoutAdvances(task: Task, e: Execution, now: int)
    requires RowOk(task, e, now) && e.status == RUNNING
    ensures Advances(task, e, MarkTimeout(e, task.terms.timeoutSeconds, now), now)
  {
  }

  lemma ClaimAdvances(task: Task, e: Execution, now: int)
    requires RowOk(task, e, now) && e.status == PENDING
    ensures Advances(task, e, MarkRunning(e, now), now)
  {
  }

  lemma CancelKeepsShape(j: Job, now: int)
    requires JobOk(j, now)
    ensures ShapeOk(j.(rows := CancelRows(j.rows, now)), now)
  {
    var rows := CancelRows(j.rows, now);
    forall i | i in rows ensures rows[i] == j.rows[i] || Advances(j.task, j.rows[i], rows[i], now) {
      assert RowOk(j.task, j.rows[i], now);
      CancelAdvances(j.task, j.rows[i], now);
    }
    ShapeAdvances(j, rows, now);
  }

  lemma CancelledOk(j: Job, now: int)
    requires JobOk(j, now) && !Terminal(j.task.status)
    ensures JobOk(Cancelled(j, now), now)
  {
    var rows := CancelRows(j.rows, now);
    CancelKeepsShape(j, now);
    assert rows.Keys == j.rows.Keys;
    if rows == map[] {
      assert j.rows.Keys == {};
    } else {
      AggregatedOk(j.(rows := rows), now);
    }
  }

  /** Cancelling a ONCE task nobody has started cancels all of it. */
  lemma CancelUntouched(j: Job, now: int)
    requires JobOk(j, now) && Untouched(j.task.status) && j.task.terms.schedule == ONCE
    ensures Cancelled(j, now).task.status == CANCELLED
  {
    var rows := CancelRows(j.rows, now);
    var g :| g in j.targets;
    var i :| i in j.rows && j.rows[i].ticket.targetId == g;
    OpenIsLatest(j, now, i);
    SameTicketsSameLatest(j.rows, rows, i);
    assert rows[i].status in LatestStatuses(rows);
    assert LatestStatuses(rows) <= {CANCELLED};
  }

  lemma FinishAdvances(task: Task, e: Execution, status: Status, report: Report, failedType: Option<string>, now: int)
    requires RowOk(task, e, now) && !Terminal(e.status)
    requires status == SUCCESS || (status == FAILED && failedType.Some? && !RetryableType(failedType))
    ensures Advances(task, e, Finish(e, now, status, report.exitCode, if status == SUCCESS then report.resultText else None,
                                     if status == SUCCESS then None else report.errorMessage, failedType), now)
  {
  }

  lemma RetryingAdvances(task: Task, e: Execution, failedType: string, errorMessage: Option<string>, now: int)
    requires RowOk(task, e, now) && !Terminal(e.status) && RetryableType(Some(failedType)) && CanRetry(task, e, now)
    ensures Advances(task, e, MarkRetrying(e, now, failedType, errorMessage, now + BackoffSeconds(e.ticket.attempt) * SECOND), now)
  {
  }

  lemma DeadAdvances(task: Task, e: Execution, failedType: string, errorMessage: Option<string>, now: int)
    requires RowOk(task, e, now) && !Terminal(e.status) && RetryableType(Some(failedType)) && !CanRetry(task, e, now)
    ensures Advances(task, e, MarkDead(e, now, failedType, errorMessage), now)
  {
  }

  /** Whatever an agent reports, the row it leaves is a legal move. */
  lemma SettleAdvances(task: Task, e: Execution, report: Report, now: int)
    requires RowOk(task, e, now) && !Terminal(e.status)
    ensures Advances(task, e, Settle(task, e, report, now), now)
  {
    var failedType := ClassifyError(report.errorType, report.errorMessage);
    RetryDecision(report.errorType, report.errorMessage);
    if report.status == "SUCCESS" {
      FinishAdvances(task, e, SUCCESS, report, None, now);
    } else if !IsRetryable(report.errorType, report.errorMessage) {
      FinishAdvances(task, e, FAILED, report, Some(failedType), now);
    } else if CanRetry(task, e, now) {
      RetryingAdvances(task, e, failedType, report.errorMessage, now);
    } else {
      DeadAdvances(task, e, failedType, OrElse(report.errorMessage, BUDGET_EXHAUSTED), now);
    }
  }

  lemma ReportedOk(j: Job, i: int, report: Report, now: int)
    requires JobOk(j, now) && i in j.rows && !Terminal(j.rows[i].status)
    ensures JobOk(Reported(j, i, report, now), now)
    ensures !Untouched(Reported(j, i, report, now).task.status)
  {
    SettleAdvances(j.task, j.rows[i], report, now);
    var rows := j.rows[i := Settle(j.task, j.rows[i], report, now)];
    ShapeAdvances(j, rows, now);
    assert i in rows;
    AggregatedOk(j.(rows := rows), now);
  }

  lemma TimedOutOk(j: Job, now: int)
    requires JobOk(j, now)
    ensures JobOk(TimedOut(j, now), now)
  {
    var t := j.task.terms.timeoutSeconds;
    if j.task.status == RUNNING && HasExpired(j.rows, t, now) {
      var rows := TimeoutRows(j.rows, t, now);
      forall i | i in rows ensures rows[i] == j.rows[i] || Advances(j.task, j.rows[i], rows[i], now) {
        assert RowOk(j.task, j.rows[i], now);
        if IsExpired(j.rows[i], t, now) {
          TimeoutAdvances(j.task, j.rows[i], now);
        }
      }
      ShapeAdvances(j, rows, now);
      assert rows.Keys == j.rows.Keys;
      AggregatedOk(j.(rows := rows), now);
    }
  }

  /** Starting the clock of a task changes no obligation of its executions. */
  lemma ClaimTaskShape(j: Job, now: int)
    requires ShapeOk(j, now)
    requires j.task.terms.schedule == ONCE || j.task.startedAt.Some? || j.rows == map[]
    ensures ShapeOk(j.(task := ClaimTask(j.task, now)), now)
  {
    var task := ClaimTask(j.task, now);
    forall i | i in j.rows ensures RowOk(task, j.rows[i], now) {
      assert RowOk(j.task, j.rows[i], now);
      assert LaunchTime(task) == LaunchTime(j.task);
    }
  }

  lemma ClaimedShape(j: Job, claimed: set<int>, now: int)
    requires ShapeOk(j, now)
    requires j.task.terms.schedule == ONCE || j.task.startedAt.Some? || j.rows == map[]
    requires forall i | i in claimed && i in j.rows :: j.rows[i].status == PENDING
    ensures ShapeOk(j.(task := ClaimTask(j.task, now), rows := ClaimRows(j.rows, claimed, now)), now)
  {
    var rows := ClaimRows(j.rows, claimed, now);
    ClaimTaskShape(j, now);
    var started := j.(task := ClaimTask(j.task, now));
    forall k | k in rows
      ensures rows[k] == j.rows[k] || Advances(started.task, j.rows[k], rows[k], now)
    {
      assert RowOk(started.task, j.rows[k], now);
      if k in claimed {
        ClaimAdvances(started.task, j.rows[k], now);
      }
    }
    ShapeAdvances(started, rows, now);
  }

  /** Handing out pending executions of a PENDING or RUNNING task. */
  lemma ClaimedOk(j: Job, claimed: set<int>, now: int)
    requires JobOk(j, now)
    requires Touches(j.rows, claimed) ==> j.task.status in {PENDING, RUNNING}
    requires forall i | i in claimed && i in j.rows :: j.rows[i].status == PENDING
    ensures JobOk(Claimed(j, claimed, now), now)
  {
    if Touches(j.rows, claimed) {
      var i :| i in j.rows && i in claimed;
      assert RowOk(j.task, j.rows[i], now);
      ClaimedShape(j, claimed, now);
      ClaimedVerdict(j, ClaimRows(j.rows, claimed, now), i, claimed, now);
      assert i in ClaimRows(j.rows, claimed, now);
    }
  }

  lemma SameTicketsSameLatest(a: map<int, Execution>, b: map<int, Execution>, i: int)
    requires a.Keys == b.Keys && (forall k | k in a :: a[k].ticket == b[k].ticket) && IsLatest(a, i)
    ensures IsLatest(b, i)
  {
    forall k | k in b && SameTarget(b[k], b[i]) ensures b[k].ticket.attempt <= b[i].ticket.attempt {
      assert k in a && SameTarget(a[k], a[i]);
    }
  }

  lemma ClaimedVerdict(j: Job, rows: map<int, Execution>, i: int, claimed: set<int>, now: int)
    requires JobOk(j, now) && j.task.status in {PENDING, RUNNING}
    requires i in claimed && i in j.rows && j.rows[i].status == PENDING
    requires rows == ClaimRows(j.rows, claimed, now)
    ensures Verdict(LatestStatuses(rows)) == RUNNING
  {
    OpenIsLatest(j, now, i);
    SameTicketsSameLatest(j.rows, rows, i);
    assert rows[i].status in LatestStatuses(rows);
    if RETRYING in LatestStatuses(rows) {
      var k :| k in rows && IsLatest(rows, k) && rows[k].status == RETRYING;
      OpenStatusIsSeen(j, now, k);
    }
  }

  /** The dispatcher gives up on a due execution: its budget is exhausted. */
  lemma ExhaustAdvances(task: Task, e: Execution, now: int)
    requires RowOk(task, e, now) && e.status == RETRYING && !CanRetry(task, e, now)
    ensures Advances(task, e, Exhaust(e, now), now)
  {
    ListedTypesAreNotEmpty(e.errorType.value);
  }

  /** The executions of a job after `i` was archived and its next attempt inserted under the id `newId`. */
  function RetryRows(rows: map<int, Execution>, i: int, newId: int, now: int): map<int, Execution>
    requires i in rows
  {
    rows[i := Archive(rows[i], now)][newId := NextAttempt(rows[i], now)]
  }

  /** Is `i` an execution the dispatcher may pick up at `now`? */
  predicate Due(j: Job, i: int, now: int) {
    i in j.rows && j.rows[i].status == RETRYING && j.rows[i].nextRetryAt.Some? && j.rows[i].nextRetryAt.value <= now
  }

  lemma RetryTickets(task: Task, e: Execution, now: int)
    requires TaskOk(task, now) && RowOk(task, e, now)
    requires e.status == RETRYING && e.nextRetryAt.value <= now && CanRetry(task, e, now)
    ensures RowOk(task, Archive(e, now), now) && RowOk(task, NextAttempt(e, now), now)
  {
    var k := e.ticket.attempt;
    assert CumulativeBackoff(k + 1) == CumulativeBackoff(k) + BackoffSeconds(k);
  }

  lemma RetryLinks(j: Job, i: int, newId: int, now: int)
    requires LinksOk(j.rows) && i in j.rows && newId !in j.rows
    ensures LinksOk(RetryRows(j.rows, i, newId, now))
  {
    var rows := RetryRows(j.rows, i, newId, now);
    forall k | k in rows && rows[k].status == FAILED && RetryableType(rows[k].errorType)
      ensures HasAttempt(rows, rows[k].ticket.targetId, rows[k].ticket.attempt + 1)
    {
      if k == i {
        assert rows[newId].ticket.attempt == j.rows[i].ticket.attempt + 1;
      } else {
        assert rows[k] == j.rows[k];
        var m :| m in j.rows && j.rows[m].ticket.targetId == rows[k].ticket.targetId && j.rows[m].ticket.attempt == rows[k].ticket.attempt + 1;
        assert rows[m].ticket == j.rows[m].ticket;
      }
    }
  }

  lemma RetryChains(j: Job, i: int, newId: int, now: int)
    requires ShapeOk(j, now) && Due(j, i, now) && newId !in j.rows
    ensures ChainsOk(RetryRows(j.rows, i, newId, now))
  {
    var rows := RetryRows(j.rows, i, newId, now);
    OpenIsLatest(j, now, i);
    forall k, m | k in rows && m in rows && k != m && SameTarget(rows[k], rows[m])
      ensures Ordered(rows[k], rows[m])
    {
      RetryOrdered(j, i, newId, now, k, m);
    }
  }

  /** A new attempt keeps every ticket, chain and link in order. */
  lemma RetryShape(j: Job, i: int, newId: int, now: int)
    requires ShapeOk(j, now) && Due(j, i, now) && newId !in j.rows && CanRetry(j.task, j.rows[i], now)
    ensures ShapeOk(j.(rows := RetryRows(j.rows, i, newId, now)), now)
  {
    RetryTickets(j.task, j.rows[i], now);
    RetryLinks(j, i, newId, now);
    RetryChains(j, i, newId, now);
  }

  lemma RetryOrdered(j: Job, i: int, newId: int, now: int, k: int, m: int)
    requires ShapeOk(j, now) && Due(j, i, now) && newId !in j.rows && IsLatest(j.rows, i)
    requires k != m && (k in j.rows || k == newId) && (m in j.rows || m == newId)
    ensures var rows := RetryRows(j.rows, i, newId, now);
            SameTarget(rows[k], rows[m]) ==> Ordered(rows[k], rows[m])
  {
    var rows := RetryRows(j.rows, i, newId, now);
    assert RowOk(j.task, j.rows[i], now);
    if SameTarget(rows[k], rows[m]) {
      if k != newId && m != newId {
        assert Ordered(j.rows[k], j.rows[m]);
        assert m == i || k == i ==> j.rows[k].ticket.attempt <= j.rows[i].ticket.attempt;
      } else if m == newId {
        assert j.rows[k].ticket.attempt <= j.rows[i].ticket.attempt;
        if k != i {
          assert Ordered(j.rows[k], j.rows[i]);
        }
      } else {
        assert j.rows[m].ticket.attempt <= j.rows[i].ticket.attempt;
      }
    }
  }

  lemma ExhaustedOk(j: Job, i: int, now: int)
    requires JobOk(j, now) && Due(j, i, now) && !CanRetry(j.task, j.rows[i], now)
    ensures var a := Aggregated(j.(rows := j.rows[i := Exhaust(j.rows[i], now)]), now);
            JobOk(a, now) && !Untouched(a.task.status)
  {
    assert RowOk(j.task, j.rows[i], now);
    ExhaustAdvances(j.task, j.rows[i], now);
    var rows := j.rows[i := Exhaust(j.rows[i], now)];
    ShapeAdvances(j, rows, now);
    assert i in rows;
    AggregatedOk(j.(rows := rows), now);
  }

  lemma RetriedOk(j: Job, i: int, newId: int, attempt: int, now: int)
    requires JobOk(j, now) && Due(j, i, now) && CanRetry(j.task, j.rows[i], now) && newId !in j.rows
    ensures var a := Aggregated(j.(rows := RetryRows(j.rows, i, newId, now), task := j.task.(attempt := attempt)), now);
            JobOk(a, now) && !Untouched(a.task.status)
  {
    RetryShape(j, i, newId, now);
    var k := j.(rows := RetryRows(j.rows, i, newId, now));
    assert i in k.rows;
    AttemptCounterIsFree(k, attempt, now);
    AggregatedOk(k.(task := k.task.(attempt := attempt)), now);
  }

  /** No obligation reads the task's own attempt counter. */
  lemma AttemptCounterIsFree(j: Job, attempt: int, now: int)
    requires ShapeOk(j, now)
    ensures ShapeOk(j.(task := j.task.(attempt := attempt)), now)
  {
    var k := j.(task := j.task.(attempt := attempt));
    forall m | m in k.rows ensures RowOk(k.task, k.rows[m], now) {
      assert RowOk(j.task, j.rows[m], now);
    }
  }

  /** A due execution is archived and replaced, or killed because its budget is gone; nothing else can happen to it. */
  lemma RedispatchedOk(j: Job, i: int, newId: int, now: int)
    requires JobOk(j, now) && Due(j, i, now) && newId !in j.rows
    ensures !Terminal(j.task.status)
    ensures JobOk(Redispatched(j, i, newId, now), now)
    ensures !Untouched(Redispatched(j, i, newId, now).task.status)
  {
    OpenRowMeansOpenTask(j, now, i);
    if CanRetry(j.task, j.rows[i], now) {
      RetriedOk(j, i, newId, j.rows[i].ticket.attempt + 1, now);
    } else {
      ExhaustedOk(j, i, now);
    }
  }

  /** One fresh attempt-1 execution per target. */
  predicate FirstBatch(rows: map<int, Execution>, targets: set<int>, now: int) {
    (forall i | i in rows ::
       rows[i] == NewExecution(rows[i].ticket.taskId, rows[i].ticket.targetId, rows[i].ticket.serverId, 1, now) &&
       rows[i].ticket.targetId in targets) &&
    (forall i, k | i in rows && k in rows && i != k :: rows[i].ticket.targetId != rows[k].ticket.targetId) &&
    (forall g | g in targets :: exists i | i in rows :: rows[i].ticket.targetId == g)
  }

  /** A CRON task that has never fired gets its only batch. */
  lemma FiredOk(j: Job, rows: map<int, Execution>, now: int)
    requires JobOk(j, now) && j.task.terms.schedule == CRON && Untouched(j.task.status)
    requires FirstBatch(rows, j.targets, now)
    ensures JobOk(j.(task := FireTask(j.task, now), rows := rows), now)
  {
    var k := j.(task := FireTask(j.task, now), rows := rows);
    assert ShapeOk(k, now);
    var g :| g in j.targets;
    var i :| i in rows && rows[i].ticket.targetId == g;
    assert IsLatest(rows, i);
    assert rows[i].status in LatestStatuses(rows);
    assert LatestStatuses(rows) <= {PENDING};
  }

  /** A task as it is created: with its batch if it is a ONCE task, without any execution otherwise. */
  lemma CreatedOk(j: Job, now: int)
    requires TermsOk(j.task.terms, now) && j.task.terms.createdAt == now
    requires (exists g :: g in j.targets) && Untouched(j.task.status) && j.task.startedAt.None? && j.task.finishedAt.None?
    requires if j.task.terms.schedule == ONCE then FirstBatch(j.rows, j.targets, now) else j.rows == map[]
    ensures JobOk(j, now)
  {
  }

  /** An execution that outlives a purge keeps every later attempt of its target. */
  lemma PurgeIsOldestFirst(j: Job, now: int, cutoff: int, i: int, k: int)
    requires ShapeOk(j, now) && i in j.rows && k in j.rows && SameTarget(j.rows[i], j.rows[k])
    requires j.rows[i].ticket.attempt <= j.rows[k].ticket.attempt
    requires i in PurgeRows(j.rows, cutoff)
    ensures k in PurgeRows(j.rows, cutoff)
  {
    if i != k {
      assert Ordered(j.rows[i], j.rows[k]);
      assert RowOk(j.task, j.rows[k], now);
    }
  }

  lemma PurgeLatest(j: Job, now: int, cutoff: int, i: int)
    requires ShapeOk(j, now) && i in PurgeRows(j.rows, cutoff)
    ensures IsLatest(PurgeRows(j.rows, cutoff), i) <==> IsLatest(j.rows, i)
  {
    var rows := PurgeRows(j.rows, cutoff);
    if IsLatest(rows, i) {
      forall k | k in j.rows && SameTarget(j.rows[k], j.rows[i])
        ensures j.rows[k].ticket.attempt <= j.rows[i].ticket.attempt
      {
        if j.rows[i].ticket.attempt <= j.rows[k].ticket.attempt {
          PurgeIsOldestFirst(j, now, cutoff, i, k);
        }
      }
    }
  }

  /** What a purge takes away from the latest statuses is only ended results. */
  lemma PurgeKeepsOpenStatuses(j: Job, now: int, cutoff: int)
    requires ShapeOk(j, now)
    ensures LatestStatuses(PurgeRows(j.rows, cutoff)) <= LatestStatuses(j.rows)
    ensures forall s | s in LatestStatuses(j.rows) && !Terminal(s) :: s in LatestStatuses(PurgeRows(j.rows, cutoff))
  {
    var rows := PurgeRows(j.rows, cutoff);
    forall s | s in LatestStatuses(rows) ensures s in LatestStatuses(j.rows) {
      var i :| i in rows && IsLatest(rows, i) && rows[i].status == s;
      PurgeLatest(j, now, cutoff, i);
    }
    forall s | s in LatestStatuses(j.rows) && !Terminal(s) ensures s in LatestStatuses(rows) {
      var i :| i in j.rows && IsLatest(j.rows, i) && j.rows[i].status == s;
      PurgeLatest(j, now, cutoff, i);
    }
  }

  /** As long as every target keeps some execution, a purge hides no result. */
  lemma PurgeKeepsSeenStatuses(j: Job, now: int, cutoff: int)
    requires ShapeOk(j, now) && EveryTargetSeen(Purged(j, cutoff))
    ensures EveryTargetSeen(j)
    ensures LatestStatuses(PurgeRows(j.rows, cutoff)) == LatestStatuses(j.rows)
  {
    var rows := PurgeRows(j.rows, cutoff);
    PurgeKeepsOpenStatuses(j, now, cutoff);
    forall g | g in j.targets ensures exists i | i in j.rows :: j.rows[i].ticket.targetId == g {
      var i :| i in rows && rows[i].ticket.targetId == g;
      assert i in j.rows;
    }
    forall s | s in LatestStatuses(j.rows) ensures s in LatestStatuses(rows) {
      var i :| i in j.rows && IsLatest(j.rows, i) && j.rows[i].status == s;
      var k :| k in rows && rows[k].ticket.targetId == j.rows[i].ticket.targetId;
      assert j.rows[k].ticket.attempt <= j.rows[i].ticket.attempt;
      PurgeIsOldestFirst(j, now, cutoff, k, i);
      PurgeLatest(j, now, cutoff, i);
    }
  }

  lemma PurgedShape(j: Job, now: int, cutoff: int)
    requires ShapeOk(j, now)
    ensures ShapeOk(Purged(j, cutoff), now)
  {
    var rows := PurgeRows(j.rows, cutoff);
    forall i | i in rows && rows[i].status == FAILED && RetryableType(rows[i].errorType)
      ensures HasAttempt(rows, rows[i].ticket.targetId, rows[i].ticket.attempt + 1)
    {
      var k :| k in j.rows && j.rows[k].ticket.targetId == rows[i].ticket.targetId && j.rows[k].ticket.attempt == rows[i].ticket.attempt + 1;
      PurgeIsOldestFirst(j, now, cutoff, i, k);
    }
  }

  lemma PurgedOk(j: Job, now: int, cutoff: int)
    requires JobOk(j, now)
    ensures JobOk(Purged(j, cutoff), now)
  {
    var k := Purged(j, cutoff);
    PurgedShape(j, now, cutoff);
    if Terminal(j.task.status) {
      if EveryTargetSeen(k) {
        PurgeKeepsSeenStatuses(j, now, cutoff);
      }
    } else if !Untouched(j.task.status) {
      var statuses := LatestStatuses(j.rows);
      PurgeKeepsOpenStatuses(j, now, cutoff);
      VerdictNeverUntouched(statuses);
      var s :| s in statuses && s in {PENDING, RUNNING, RETRYING};
      assert s in LatestStatuses(k.rows);
      VerdictIgnoresEnded(statuses, LatestStatuses(k.rows));
    } else {
      assert forall i | i in j.rows :: !Outdated(j.rows[i], cutoff);
      assert k.rows == j.rows;
    }
  }
}
