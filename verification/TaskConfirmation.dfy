/**
 * Confirmation before hand-out: by exactly which calls a task that nobody confirmed gets on its way to an agent.
 */
module TaskConfirmation {
  import opened Wrappers
  import opened Clock
  import opened RetryPolicy
  import opened TaskModel
  import opened JobInvariant
  import opened JobProgress
  import opened TaskStore
  import opened StoreInvariant
  import opened TaskHistory
  import opened TaskReports

  /** A stored ONCE task that needs a confirmation nobody has given. */
  predicate Unconfirmed(s: Store, t: int) {
    t in s.tasks && s.tasks[t].terms.schedule == ONCE && s.tasks[t].terms.confirmationRequired && s.tasks[t].confirmedBy.None?
  }

  predicate OnlyRow(s: Store, t: int, i: int) {
    i in s.execs && s.execs[i].ticket.taskId == t && forall k | k in s.execs && s.execs[k].ticket.taskId == t :: k == i
  }

  function Deadline(task: Task): int {
    task.terms.createdAt + task.terms.timeoutSeconds * task.terms.maxAttempts * SECOND
  }

  /** The only execution of the task waits for a retry that comes due no sooner than the deadline. */
  predicate Doomed(s: Store, t: int) {
    t in s.tasks &&
    exists i | i in s.execs :: OnlyRow(s, t, i) && s.execs[i].status == RETRYING && s.execs[i].nextRetryAt.Some? &&
                               Deadline(s.tasks[t]) <= s.execs[i].nextRetryAt.value
  }

  /** An unconfirmed task none of whose executions can reach an agent as things stand. */
  predicate Shut(s: Store, t: int) {
    Unconfirmed(s, t) ==> s.tasks[t].status == CREATED || Terminal(s.tasks[t].status) || Doomed(s, t)
  }

  /**
   * The call is a report of the right server on an execution of a task that waits for its confirmation, hence on one that
   * was never handed out, and the task has another execution or the report earns a retry that comes due before the deadline.
   */
  predicate Unlocks(s: Store, call: Call, t: int) {
    && Unconfirmed(s, t) && s.tasks[t].status == CREATED && call.event.Answer?
    && Accepted(s, call.event.server, call.event.execution) && s.execs[call.event.execution].ticket.taskId == t
    && (!OnlyRow(s, t, call.event.execution) || EarnsRetry(s.tasks[t], call.event.report, call.now))
  }

  predicate EarnsRetry(task: Task, report: Report, now: int) {
    report.status != "SUCCESS" && Transient(report) && 1 < task.terms.maxAttempts && now + BackoffSeconds(1) * SECOND < Deadline(task)
  }

  // ---------- what can be handed out ----------

  /** An execution of the task would be handed to its server. */
  predicate CanClaim(s: Store, t: int) {
    exists y | y in s.execs :: s.execs[y].ticket.taskId == t && Claimable(s, s.execs[y].ticket.serverId, y)
  }

  /** At some moment the turn of a due execution of the task makes one of its executions claimable. */
  ghost predicate CanClaimAfterRetry(s: Store, now: int, t: int) {
    exists i, later | i in s.execs && s.execs[i].ticket.taskId == t :: RetryOpens(s, now, later, i, t)
  }

  ghost predicate RetryOpens(s: Store, now: int, later: int, i: int, t: int) {
    now <= later && DueExec(s, later, i) && CanClaim(DispatchOne(s, later, i), t)
  }

  /** The task nobody confirmed can reach an agent without further reports or confirmations. */
  ghost predicate Exposed(s: Store, now: int, t: int) {
    Unconfirmed(s, t) && (CanClaim(s, t) || CanClaimAfterRetry(s, now, t))
  }

  /** None of the executions of a CREATED or finished task is running or waits for a retry. */
  lemma IdleRows(s: Store, now: int, t: int, i: int)
    requires StoreOk(s, now) && t in s.tasks && (s.tasks[t].status == CREATED || Terminal(s.tasks[t].status))
    requires i in s.execs && s.execs[i].ticket.taskId == t
    ensures (s.execs[i].status == PENDING && s.tasks[t].status == CREATED) || Terminal(s.execs[i].status)
  {
    assert JobOk(JobOf(s, t), now);
    assert i in JobOf(s, t).rows;
  }

  /** Cancelling a CREATED ONCE task finishes it. */
  lemma CancelCreated(s: Store, now: int, t: int)
    requires StoreOk(s, now) && t in s.tasks && s.tasks[t].status == CREATED && s.tasks[t].terms.schedule == ONCE
    ensures CancelTask(s, now, t).Ok? && t in CancelTask(s, now, t).value.tasks
    ensures CancelTask(s, now, t).value.tasks[t].status == CANCELLED
  {
    assert JobOk(JobOf(s, t), now);
    CancelRowsOf(s.execs, t, now, t);
    CancelUntouched(JobOf(s, t), now);
  }

  // ---------- what keeps a task shut ----------

  lemma AllEndedMeansOver(j: Job, now: int, i: int)
    requires JobOk(j, now) && i in j.rows && forall k | k in j.rows :: Terminal(j.rows[k].status)
    ensures Terminal(j.task.status)
  {
    VerdictNeverUntouched(LatestStatuses(j.rows));
  }

  lemma OnlyRowEnded(s: Store, now: int, t: int, i: int)
    requires StoreOk(s, now) && t in s.tasks && OnlyRow(s, t, i) && Terminal(s.execs[i].status)
    ensures Terminal(s.tasks[t].status)
  {
    AllEndedMeansOver(JobOf(s, t), now, i);
  }

  /** Whatever leaves a task's terms and executions alone leaves it doomed. */
  lemma SameRowsStayDoomed(s: Store, r: Store, t: int)
    requires Doomed(s, t) && t in r.tasks && r.tasks[t].terms == s.tasks[t].terms
    requires Rows(r.execs, t) == Rows(s.execs, t)
    ensures Doomed(r, t)
  {
    var i :| i in s.execs && OnlyRow(s, t, i) && s.execs[i].status == RETRYING && s.execs[i].nextRetryAt.Some? &&
             Deadline(s.tasks[t]) <= s.execs[i].nextRetryAt.value;
    forall k ensures (k in s.execs && s.execs[k].ticket.taskId == t) <==> (k in r.execs && r.execs[k].ticket.taskId == t) {
      assert k in Rows(s.execs, t) <==> k in Rows(r.execs, t);
    }
    assert i in Rows(s.execs, t) && Rows(r.execs, t)[i] == s.execs[i];
    assert OnlyRow(r, t, i);
  }

  /** A settled only execution ends its task, unless it waits for a retry. */
  lemma SettledOnlyRow(s: Store, now: int, t: int, server: int, i: int, report: Report)
    requires StoreOk(s, now) && Unconfirmed(s, t) && OnlyRow(s, t, i) && Accepted(s, server, i) && !Terminal(s.execs[i].status)
    requires s.execs[i].status == RETRYING ==> Deadline(s.tasks[t]) <= s.execs[i].nextRetryAt.GetOr(0)
    requires s.execs[i].status != RETRYING ==> s.tasks[t].status == CREATED && !EarnsRetry(s.tasks[t], report, now)
    ensures var r := ReportResult(s, now, server, i, report); r.Ok? && StoreOk(r.value, now) && Shut(r.value, t)
  {
    ReportSettles(s, now, server, i, report);
    ReportSteps(s, now, server, i, report);
    var r := ReportResult(s, now, server, i, report).value;
    assert OnlyRow(r, t, i);
    if Terminal(r.execs[i].status) {
      OnlyRowEnded(r, now, t, i);
    } else {
      assert JobOk(JobOf(s, t), now) && i in JobOf(s, t).rows;
      assert RowOk(s.tasks[t], JobOf(s, t).rows[i], now);
      assert r.tasks[t].terms == s.tasks[t].terms by {
        assert JobEvolves(JobOf(s, t), JobOf(r, t), s.nextExec);
      }
    }
  }

  lemma AnswerKeepsShut(s: Store, call: Call, r: Store, t: int)
    requires StoreOk(s, call.now) && Follows(s, call, r) && call.event.Answer? && t in s.tasks
    requires Unconfirmed(s, t) && Shut(s, t) && !Unlocks(s, call, t)
    ensures t in r.tasks && Shut(r, t)
  {
    var i, server := call.event.execution, call.event.server;
    if Accepted(s, server, i) && !Terminal(s.execs[i].status) {
      InItsJob(s, i);
      if s.execs[i].ticket.taskId == t {
        if s.tasks[t].status == CREATED || Terminal(s.tasks[t].status) {
          IdleRows(s, call.now, t, i);
        }
        SettledOnlyRow(s, call.now, t, server, i, call.event.report);
      } else {
        ReportOnOther(s, call.now, server, i, call.event.report, t);
      }
    }
  }

  lemma ReportOnOther(s: Store, now: int, server: int, i: int, report: Report, t: int)
    requires StoreOk(s, now) && Accepted(s, server, i) && !Terminal(s.execs[i].status) && s.execs[i].ticket.taskId in s.tasks
    requires s.execs[i].ticket.taskId != t && Unconfirmed(s, t) && Shut(s, t)
    ensures var r := ReportResult(s, now, server, i, report); r.Ok? && t in r.value.tasks && Shut(r.value, t)
  {
    ReportSettles(s, now, server, i, report);
    SameTicketAfterReport(s, now, server, i, report);
    var r := ReportResult(s, now, server, i, report).value;
    if Doomed(s, t) {
      OtherRows(s.execs, r.execs, i, t);
      SameRowsStayDoomed(s, r, t);
    }
  }

  lemma OtherRows(a: map<int, Execution>, b: map<int, Execution>, i: int, t: int)
    requires i in a && i in b && b == a[i := b[i]] && a[i].ticket.taskId != t && b[i].ticket.taskId != t
    ensures Rows(a, t) == Rows(b, t)
  {
    forall k ensures k in Rows(a, t) <==> k in Rows(b, t) {
    }
  }

  /** One turn of the dispatcher keeps a task shut: a doomed one is over. */
  lemma TurnKeepsShut(s: Store, now: int, i: int, t: int)
    requires StoreOk(s, now) && DueExec(s, now, i) && Unconfirmed(s, t) && Shut(s, t)
    ensures t in DispatchOne(s, now, i).tasks && Shut(DispatchOne(s, now, i), t)
  {
    DueMeansOpen(s, now, i);
    DispatchOneSteps(s, now, i);
    var u, r := s.execs[i].ticket.taskId, DispatchOne(s, now, i);
    if u == t {
      if s.tasks[t].status == CREATED {
        IdleRows(s, now, t, i);
      }
      assert Doomed(s, t);
      assert JobOk(JobOf(s, t), now);
      assert !CanRetry(s.tasks[t], s.execs[i], now);
      assert OnlyRow(r, t, i) && r.execs[i].status == DEAD;
      OnlyRowEnded(r, now, t, i);
    } else {
      assert s.nextExec !in s.execs;
      RetryOfOther(s, now, i, u, t);
      if Doomed(s, t) {
        SameRowsStayDoomed(s, r, t);
      }
    }
  }

  lemma RetryOfOther(s: Store, now: int, i: int, u: int, t: int)
    requires StoreOk(s, now) && DueExec(s, now, i) && s.execs[i].ticket.taskId == u && u != t && t in s.tasks && u in s.tasks
    requires !Terminal(s.tasks[u].status)
    ensures t in DispatchOne(s, now, i).tasks && JobOf(DispatchOne(s, now, i), t) == JobOf(s, t)
  {
    assert s.nextExec !in s.execs;
    if CanRetry(s.tasks[u], s.execs[i], now) {
      RetryProjects(s, now, i, u, t);
    } else {
      RecordProjects(s, i, Exhaust(s.execs[i], now), ERROR, u, now, t);
    }
  }

  lemma {:induction false} DispatchKeepsShut(s: Store, now: int, due: seq<int>, t: int)
    requires StoreOk(s, now) && Distinct(due) && (forall k | 0 <= k < |due| :: DueExec(s, now, due[k]))
    requires t in s.tasks && Shut(s, t)
    ensures t in DispatchRetries(s, now, due).tasks && Shut(DispatchRetries(s, now, due), t)
  {
    if due != [] {
      var n := |due| - 1;
      DispatchKeepsShut(s, now, due[..n], t);
      FinishedTasksHaveNoRetries(s, now, due, n);
      DispatchSteps(s, now, due[..n]);
      var r := DispatchRetries(s, now, due[..n]);
      if Unconfirmed(r, t) {
        TurnKeepsShut(r, now, due[n], t);
      } else {
        DispatchOneSteps(r, now, due[n]);
        StaysConfirmed(r, DispatchOne(r, now, due[n]), now, t);
      }
    }
  }

  lemma StaysConfirmed(s: Store, r: Store, now: int, t: int)
    requires Steps(s, r, now) && t in s.tasks && t in r.tasks && !Unconfirmed(s, t)
    ensures !Unconfirmed(r, t)
  {
    assert JobEvolves(JobOf(s, t), JobOf(r, t), s.nextExec);
  }

  lemma CancelKeepsGuard(s: Store, call: Call, r: Store, t: int)
    requires StoreOk(s, call.now) && Follows(s, call, r) && call.event.Cancel? && t in s.tasks
    requires s.tasks[t].terms.schedule == ONCE && (s.tasks[t].status == CREATED || Terminal(s.tasks[t].status))
    ensures t in r.tasks && (r.tasks[t] == s.tasks[t] || r.tasks[t].status == CANCELLED)
  {
    if call.event.taskId == t && s.tasks[t].status == CREATED {
      CancelCreated(s, call.now, t);
    }
  }

  lemma FireKeepsGuard(s: Store, call: Call, r: Store, t: int)
    requires Follows(s, call, r) && call.event.Fire? && t in s.tasks && s.tasks[t].terms.schedule == ONCE
    ensures t in r.tasks && r.tasks[t] == s.tasks[t]
  {
    forall f | f in call.event.firings ensures f.taskId != t {
      assert Fireable(s, f);
    }
    FiresItsTasks(s, call.now, call.event.firings);
  }

  lemma NewTasksComeFromCreate(s: Store, call: Call, r: Store, t: int)
    requires StoreOk(s, call.now) && Follows(s, call, r) && t in r.tasks && t !in s.tasks
    ensures call.event.Create?
    ensures CreateTask(s, call.now, call.event.fleet, call.event.data, call.event.creator, call.event.key, call.event.order).Ok?
  {
    if call.event.Dispatch? {
      DispatchKeepsTaskIds(s, call.now, call.event.due);
    }
  }

  lemma {:induction false} DispatchKeepsTaskIds(s: Store, now: int, due: seq<int>)
    ensures DispatchRetries(s, now, due).tasks.Keys == s.tasks.Keys
  {
    if due != [] {
      DispatchKeepsTaskIds(s, now, due[..|due| - 1]);
    }
  }

  // ---------- the other calls ----------

  /** The only execution of a doomed task, for lemmas about single calls. */
  lemma DoomedRow(s: Store, now: int, t: int) returns (i: int)
    requires StoreOk(s, now) && Doomed(s, t)
    ensures OnlyRow(s, t, i) && s.execs[i].status == RETRYING && !Untouched(s.tasks[t].status)
    ensures forall k | k in Rows(s.execs, t) :: Rows(s.execs, t)[k].status == RETRYING
  {
    i :| i in s.execs && OnlyRow(s, t, i) && s.execs[i].status == RETRYING && s.execs[i].nextRetryAt.Some? &&
         Deadline(s.tasks[t]) <= s.execs[i].nextRetryAt.value;
    assert JobOk(JobOf(s, t), now) && i in JobOf(s, t).rows;
    assert JobOf(s, t).rows[i].status == RETRYING;
  }

  lemma CreateKeepsShut(s: Store, call: Call, r: Store, t: int)
    requires StoreOk(s, call.now) && Follows(s, call, r) && call.event.Create? && Unconfirmed(s, t) && Shut(s, t)
    ensures t in r.tasks && Shut(r, t)
  {
    var ev := call.event;
    if CreateTask(s, call.now, ev.fleet, ev.data, ev.creator, ev.key, ev.order).Ok? {
      CreateCases(s, call.now, ev.fleet, ev.data, ev.creator, ev.key, ev.order);
      if r != s {
        InsertJobKeepsOthers(s, NewTask(ev.data, Admit(ev.fleet, ev.data).value, ev.creator, ev.key, call.now), ev.order, call.now, t);
      }
    }
    SameJobStaysShut(s, r, t);
  }

  lemma SameJobStaysShut(s: Store, r: Store, t: int)
    requires Unconfirmed(s, t) && Shut(s, t) && t in r.tasks && JobOf(r, t) == JobOf(s, t)
    ensures Shut(r, t)
  {
    assert Rows(r.execs, t) == JobOf(r, t).rows;
    if Doomed(s, t) {
      SameRowsStayDoomed(s, r, t);
    }
  }

  lemma ConfirmKeepsShut(s: Store, call: Call, r: Store, t: int)
    requires Follows(s, call, r) && call.event.Confirm? && Unconfirmed(s, t) && Shut(s, t)
    ensures t in r.tasks && Shut(r, t)
  {
    if Unconfirmed(r, t) {
      SameJobStaysShut(s, r, t);
    }
  }

  lemma CancelKeepsShut(s: Store, call: Call, r: Store, t: int)
    requires StoreOk(s, call.now) && Follows(s, call, r) && call.event.Cancel? && Unconfirmed(s, t) && Shut(s, t)
    ensures t in r.tasks && Shut(r, t)
  {
    if s.tasks[t].status == CREATED || Terminal(s.tasks[t].status) {
      CancelKeepsGuard(s, call, r, t);
    } else {
      var i := DoomedRow(s, call.now, t);
      if call.event.taskId in s.tasks && !Terminal(s.tasks[call.event.taskId].status) {
        CancelRowsOf(s.execs, call.event.taskId, call.now, t);
        RetryingRowsStay(Rows(s.execs, t), 0, call.now);
      }
      SameRowsStayDoomed(s, r, t);
    }
  }

  lemma RetryingRowsStay(rows: map<int, Execution>, timeout: nat, now: int)
    requires forall k | k in rows :: rows[k].status == RETRYING
    ensures CancelRows(rows, now) == rows
    ensures TimeoutRows(rows, timeout, now) == rows
    ensures PurgeRows(rows, now) == rows
  {
    forall k | k in rows ensures CancelRows(rows, now)[k] == rows[k] && TimeoutRows(rows, timeout, now)[k] == rows[k] {
    }
    assert CancelRows(rows, now) == rows;
    assert TimeoutRows(rows, timeout, now) == rows;
    forall k ensures k in PurgeRows(rows, now) <==> k in rows {
    }
    assert PurgeRows(rows, now) == rows;
  }

  lemma FetchKeepsShut(s: Store, call: Call, r: Store, t: int)
    requires StoreOk(s, call.now) && Follows(s, call, r) && call.event.Fetch? && Unconfirmed(s, t) && Shut(s, t)
    ensures t in r.tasks && Shut(r, t)
  {
    var claimed, rows := SetOf(call.event.batch), Rows(s.execs, t);
    if s.tasks[t].status != CREATED && !Terminal(s.tasks[t].status) {
      var k := DoomedRow(s, call.now, t);
    }
    forall i | i in rows ensures i !in claimed {
      if i in claimed {
        FetchedIsRunning(s, call, r, i);
      }
    }
    ClaimRowsOf(s.execs, claimed, call.now, t);
    SameJobStaysShut(s, r, t);
  }

  lemma ScanKeepsShut(s: Store, call: Call, r: Store, t: int)
    requires StoreOk(s, call.now) && Follows(s, call, r) && call.event.Scan? && Unconfirmed(s, t) && Shut(s, t)
    ensures t in r.tasks && Shut(r, t)
  {
    if s.tasks[t].status != CREATED && !Terminal(s.tasks[t].status) {
      var i := DoomedRow(s, call.now, t);
      ScanRowsOf(s, call.now, t);
      RetryingRowsStay(Rows(s.execs, t), s.tasks[t].terms.timeoutSeconds, call.now);
      ScanSteps(s, call.now);
      assert JobEvolves(JobOf(s, t), JobOf(r, t), s.nextExec);
      SameRowsStayDoomed(s, r, t);
    }
  }

  lemma {:induction false} FireLeavesRows(s: Store, now: int, batch: seq<Firing>, t: int)
    requires StoreOk(s, now) && AllFireable(s, batch) && (forall f | f in batch :: f.taskId != t)
    ensures Rows(FireDueCron(s, now, batch).execs, t) == Rows(s.execs, t)
  {
    if batch != [] {
      var rest, f := batch[..|batch| - 1], batch[|batch| - 1];
      SplitBatch(s, batch);
      FireLeavesRows(s, now, rest, t);
      FireSteps(s, now, rest);
      FireOneLeavesRows(FireDueCron(s, now, rest), now, f, t);
    }
  }

  lemma FireOneLeavesRows(s: Store, now: int, f: Firing, t: int)
    requires Known(s, f) && f.taskId != t && forall i | i in s.execs :: i < s.nextExec
    ensures Rows(FireOne(s, now, f).execs, t) == Rows(s.execs, t)
  {
    BatchRowsOf(s, f.taskId, f.targets, now, t);
  }

  lemma FireKeepsShut(s: Store, call: Call, r: Store, t: int)
    requires StoreOk(s, call.now) && Follows(s, call, r) && call.event.Fire? && Unconfirmed(s, t) && Shut(s, t)
    ensures t in r.tasks && Shut(r, t)
  {
    FireKeepsGuard(s, call, r, t);
    if Doomed(s, t) {
      forall f | f in call.event.firings ensures f.taskId != t {
        assert Fireable(s, f);
      }
      FireLeavesRows(s, call.now, call.event.firings, t);
      SameRowsStayDoomed(s, r, t);
    }
  }

  lemma CleanupKeepsShut(s: Store, call: Call, r: Store, t: int)
    requires StoreOk(s, call.now) && Follows(s, call, r) && call.event.Cleanup? && Unconfirmed(s, t) && Shut(s, t) && t in r.tasks
    ensures Shut(r, t)
  {
    if s.tasks[t].status != CREATED && !Terminal(s.tasks[t].status) {
      var i := DoomedRow(s, call.now, t);
      PurgeRowsOf(s.execs, call.event.cutoff, t);
      RetryingRowsStay(Rows(s.execs, t), 0, call.event.cutoff);
      SameRowsStayDoomed(s, r, t);
    }
  }

  // ---------- the exact condition ----------

  /** Apart from reports that unlock it, no call opens a task that waits for its confirmation. */
  lemma CallKeepsShut(s: Store, call: Call, r: Store, t: int)
    requires StoreOk(s, call.now) && Follows(s, call, r) && t in s.tasks && t in r.tasks
    requires Shut(s, t) && !Unlocks(s, call, t)
    ensures Shut(r, t)
  {
    if Unconfirmed(s, t) {
      match call.event
      case Create(_, _, _, _, _) => CreateKeepsShut(s, call, r, t);
      case Confirm(_, _) => ConfirmKeepsShut(s, call, r, t);
      case Cancel(_) => CancelKeepsShut(s, call, r, t);
      case Fetch(_, _) => FetchKeepsShut(s, call, r, t);
      case Answer(_, _, _) => AnswerKeepsShut(s, call, r, t);
      case Scan => ScanKeepsShut(s, call, r, t);
      case Dispatch(_, due) => DispatchKeepsShut(s, call.now, due, t);
      case Fire(_, _) => FireKeepsShut(s, call, r, t);
      case Cleanup(_) => CleanupKeepsShut(s, call, r, t);
    } else {
      NextSteps(s, call.now, call.event);
      StaysConfirmed(s, r, call.now, t);
    }
  }

  /** Nothing of a shut task can be handed out, now or after a retry. */
  lemma ShutMeansHidden(s: Store, now: int, t: int)
    requires StoreOk(s, now) && Unconfirmed(s, t) && Shut(s, t)
    ensures !Exposed(s, now, t)
  {
    ShutMeansUnclaimable(s, now, t);
    forall i, later | i in s.execs && s.execs[i].ticket.taskId == t && now <= later && DueExec(s, later, i)
      ensures !CanClaim(DispatchOne(s, later, i), t)
    {
      StoreOkLater(s, now, later);
      TurnKeepsShut(s, later, i, t);
      DispatchOneSteps(s, later, i);
      if Unconfirmed(DispatchOne(s, later, i), t) {
        ShutMeansUnclaimable(DispatchOne(s, later, i), later, t);
      } else {
        TurnLeavesConfirmation(s, later, i, t);
      }
    }
  }

  lemma TurnLeavesConfirmation(s: Store, now: int, i: int, t: int)
    requires t in s.tasks
    ensures t in DispatchOne(s, now, i).tasks
    ensures DispatchOne(s, now, i).tasks[t].terms == s.tasks[t].terms
    ensures DispatchOne(s, now, i).tasks[t].confirmedBy == s.tasks[t].confirmedBy
  {
  }

  lemma ShutMeansUnclaimable(s: Store, now: int, t: int)
    requires StoreOk(s, now) && Unconfirmed(s, t) && Shut(s, t)
    ensures !CanClaim(s, t)
  {
    if s.tasks[t].status != CREATED && !Terminal(s.tasks[t].status) {
      var i := DoomedRow(s, now, t);
    }
  }

  /** A task with a pending execution and none waiting for a retry is RUNNING once it has been touched. */
  lemma PendingMeansRunning(s: Store, now: int, t: int, y: int)
    requires StoreOk(s, now) && t in s.tasks && y in s.execs && s.execs[y].ticket.taskId == t && s.execs[y].status == PENDING
    requires !Untouched(s.tasks[t].status)
    requires forall k | k in s.execs && s.execs[k].ticket.taskId == t :: s.execs[k].status != RETRYING
    ensures CanClaim(s, t)
  {
    var j := JobOf(s, t);
    assert JobOk(j, now) && y in j.rows;
    OpenStatusIsSeen(j, now, y);
    OpenRowMeansOpenTask(j, now, y);
    assert RETRYING !in LatestStatuses(j.rows);
    assert Claimable(s, s.execs[y].ticket.serverId, y);
  }

  lemma ReportKeepsConfirmation(s: Store, now: int, server: int, i: int, report: Report, t: int)
    requires ReportResult(s, now, server, i, report).Ok? && t in s.tasks
    ensures var r := ReportResult(s, now, server, i, report).value;
            t in r.tasks && r.tasks[t].terms == s.tasks[t].terms && r.tasks[t].confirmedBy == s.tasks[t].confirmedBy
  {
  }

  lemma StartedMeansTouched(s: Store, now: int, t: int, i: int)
    requires StoreOk(s, now) && t in s.tasks && i in s.execs && s.execs[i].ticket.taskId == t && s.execs[i].status != PENDING
    ensures !Untouched(s.tasks[t].status)
  {
    assert JobOk(JobOf(s, t), now) && i in JobOf(s, t).rows;
  }

  /** A report has settled execution `i` of task `t` and every other execution of the task is pending. */
  predicate Settled(r: Store, t: int, i: int) {
    && t in r.tasks && i in r.execs && r.execs[i].ticket.taskId == t && r.execs[i].status != PENDING
    && forall k | k in r.execs && r.execs[k].ticket.taskId == t && k != i :: r.execs[k].status == PENDING
  }

  /** The turn that retries a settled execution makes the new attempt claimable. */
  lemma RetryExposes(r: Store, later: int, t: int, i: int)
    requires StoreOk(r, later) && Settled(r, t, i) && DueExec(r, later, i) && CanRetry(r.tasks[t], r.execs[i], later)
    ensures CanClaim(DispatchOne(r, later, i), t)
  {
    DueMeansOpen(r, later, i);
    DispatchOneSteps(r, later, i);
    assert r.nextExec !in r.execs;
    RetriedRows(r, later, t, i);
    NewAttemptClaimable(r, DispatchOne(r, later, i), later, t, i);
  }

  lemma RetriedRows(r: Store, later: int, t: int, i: int)
    requires i in r.execs && t in r.tasks && r.execs[i].ticket.taskId == t && !Terminal(r.tasks[t].status)
    requires CanRetry(r.tasks[t], r.execs[i], later)
    ensures var r2 := DispatchOne(r, later, i);
            r2.execs == r.execs[i := Archive(r.execs[i], later)][r.nextExec := NextAttempt(r.execs[i], later)] && t in r2.tasks
  {
  }

  lemma NewAttemptClaimable(r: Store, r2: Store, later: int, t: int, i: int)
    requires Settled(r, t, i) && r.nextExec !in r.execs && StoreOk(r2, later) && t in r2.tasks
    requires r2.execs == r.execs[i := Archive(r.execs[i], later)][r.nextExec := NextAttempt(r.execs[i], later)]
    ensures CanClaim(r2, t)
  {
    StartedMeansTouched(r2, later, t, i);
    PendingMeansRunning(r2, later, t, r.nextExec);
  }

  /** The turn that kills a settled execution leaves its pending siblings claimable. */
  lemma DeathExposes(r: Store, later: int, t: int, i: int, y: int)
    requires StoreOk(r, later) && Settled(r, t, i) && DueExec(r, later, i) && !CanRetry(r.tasks[t], r.execs[i], later)
    requires y in r.execs && r.execs[y].ticket.taskId == t && y != i
    ensures CanClaim(DispatchOne(r, later, i), t)
  {
    DueMeansOpen(r, later, i);
    DispatchOneSteps(r, later, i);
    var r2 := Record(r, i, Exhaust(r.execs[i], later), ERROR, t, later);
    StartedMeansTouched(r2, later, t, i);
    PendingMeansRunning(r2, later, t, y);
  }

  /** After the turn of its only waiting execution a task with a pending one can be handed out. */
  lemma TurnExposes(r: Store, later: int, t: int, i: int)
    requires StoreOk(r, later) && Settled(r, t, i) && DueExec(r, later, i)
    requires OnlyRow(r, t, i) ==> CanRetry(r.tasks[t], r.execs[i], later)
    ensures CanClaim(DispatchOne(r, later, i), t)
  {
    if CanRetry(r.tasks[t], r.execs[i], later) {
      RetryExposes(r, later, t, i);
    } else {
      var y :| y in r.execs && r.execs[y].ticket.taskId == t && y != i;
      DeathExposes(r, later, t, i, y);
    }
  }

  lemma SettledExposes(r: Store, now: int, t: int, i: int)
    requires StoreOk(r, now) && Settled(r, t, i) && Unconfirmed(r, t)
    requires r.execs[i].status == RETRYING ==> r.execs[i].nextRetryAt.Some? && now <= r.execs[i].nextRetryAt.value
    requires OnlyRow(r, t, i) ==> r.execs[i].status == RETRYING && CanRetry(r.tasks[t], r.execs[i], r.execs[i].nextRetryAt.GetOr(0))
    requires r.execs[i].status != RETRYING ==> Terminal(r.execs[i].status)
    ensures Exposed(r, now, t)
  {
    if r.execs[i].status == RETRYING {
      var later := r.execs[i].nextRetryAt.value;
      StoreOkLater(r, now, later);
      TurnExposes(r, later, t, i);
      assert RetryOpens(r, now, later, i, t);
    } else {
      StartedMeansTouched(r, now, t, i);
      var y :| y in r.execs && r.execs[y].ticket.taskId == t && y != i;
      PendingMeansRunning(r, now, t, y);
    }
  }

  /** A report that unlocks a task leaves an execution that can be handed out, at once or after the retry it earned. */
  lemma UnlockingExposes(s: Store, call: Call, r: Store, t: int)
    requires StoreOk(s, call.now) && Follows(s, call, r) && Unlocks(s, call, t)
    ensures Exposed(r, call.now, t)
  {
    ReportExposes(s, call.now, call.event.server, call.event.execution, call.event.report, t);
  }

  lemma ReportExposes(s: Store, now: int, server: int, i: int, report: Report, t: int)
    requires StoreOk(s, now) && Unconfirmed(s, t) && s.tasks[t].status == CREATED
    requires Accepted(s, server, i) && s.execs[i].ticket.taskId == t
    requires OnlyRow(s, t, i) ==> EarnsRetry(s.tasks[t], report, now)
    ensures ReportResult(s, now, server, i, report).Ok? && Exposed(ReportResult(s, now, server, i, report).value, now, t)
  {
    UntouchedRow(s, now, t, i);
    ReportSettles(s, now, server, i, report);
    ReportSteps(s, now, server, i, report);
    ReportKeepsConfirmation(s, now, server, i, report, t);
    SameTicketAfterReport(s, now, server, i, report);
    DeadlineIsStored(s, now, t);
    SettledTaskExposes(s, ReportResult(s, now, server, i, report).value, now, t, i, report);
  }

  lemma SettledTaskExposes(s: Store, r: Store, now: int, t: int, i: int, report: Report)
    requires StoreOk(s, now) && StoreOk(r, now) && DiffersIn(s, r, i, t) && Unconfirmed(r, t)
    requires t in s.tasks && s.tasks[t].status == CREATED && r.tasks[t].terms == s.tasks[t].terms
    requires s.tasks[t].terms.deadlineAt == Some(Deadline(s.tasks[t]))
    requires i in s.execs && s.execs[i].ticket.taskId == t && s.execs[i].ticket.attempt == 1 && r.execs[i].ticket == s.execs[i].ticket
    requires SettledBy(s.tasks[t], r.execs[i], report, now)
    requires OnlyRow(s, t, i) ==> EarnsRetry(s.tasks[t], report, now)
    ensures Exposed(r, now, t)
  {
    SettledOthers(s, now, r, t, i);
    RetryIsEarned(s.tasks[t], r.tasks[t], r.execs[i], report, now);
    SiblingsStay(s, r, t, i);
    SettledExposes(r, now, t, i);
  }

  lemma SiblingsStay(s: Store, r: Store, t: int, i: int)
    requires DiffersIn(s, r, i, t) && i in s.execs && s.execs[i].ticket.taskId == t
    ensures OnlyRow(r, t, i) ==> OnlyRow(s, t, i)
  {
    forall k | k in s.execs && s.execs[k].ticket.taskId == t ensures OnlyRow(r, t, i) ==> k == i {
      assert k in r.execs && (k != i ==> r.execs[k] == s.execs[k]);
    }
  }

  lemma SameTicketAfterReport(s: Store, now: int, server: int, i: int, report: Report)
    requires i in s.execs && ReportResult(s, now, server, i, report).Ok?
    ensures var r := ReportResult(s, now, server, i, report).value; i in r.execs && r.execs[i].ticket == s.execs[i].ticket
  {
  }

  /** A first attempt that earned its retry can be retried when it comes due. */
  lemma RetryIsEarned(task: Task, after: Task, e: Execution, report: Report, now: int)
    requires SettledBy(task, e, report, now) && after.terms == task.terms && e.ticket.attempt == 1
    requires task.terms.deadlineAt == Some(Deadline(task))
    ensures Terminal(e.status) || (e.status == RETRYING && e.nextRetryAt == Some(now + BackoffSeconds(1) * SECOND))
    ensures EarnsRetry(task, report, now) ==> e.status == RETRYING && CanRetry(after, e, e.nextRetryAt.GetOr(0))
  {
  }

  lemma UntouchedRow(s: Store, now: int, t: int, i: int)
    requires StoreOk(s, now) && t in s.tasks && s.tasks[t].status == CREATED && i in s.execs && s.execs[i].ticket.taskId == t
    ensures s.execs[i].status == PENDING && s.execs[i].ticket.attempt == 1
  {
    assert JobOk(JobOf(s, t), now) && i in JobOf(s, t).rows;
  }

  lemma SettledOthers(s: Store, now: int, r: Store, t: int, i: int)
    requires StoreOk(s, now) && t in s.tasks && s.tasks[t].status == CREATED && i in s.execs && s.execs[i].ticket.taskId == t
    requires DiffersIn(s, r, i, t) && r.execs[i].ticket == s.execs[i].ticket && r.execs[i].status != PENDING
    ensures Settled(r, t, i)
  {
    forall k | k in r.execs && r.execs[k].ticket.taskId == t && k != i ensures r.execs[k].status == PENDING {
      UntouchedRow(s, now, t, k);
    }
  }

  lemma DeadlineIsStored(s: Store, now: int, t: int)
    requires StoreOk(s, now) && t in s.tasks
    ensures s.tasks[t].terms.deadlineAt == Some(Deadline(s.tasks[t]))
  {
    assert JobOk(JobOf(s, t), now);
  }

  /**
   * From a state in which a task nobody confirmed is shut, a call exposes it to being handed out exactly if it is a
   * report that unlocks it: one by the right server on an execution that was never handed out, which has a sibling or
   * earns a retry that comes due before the deadline.
   */
  lemma ExposureIsExact(s: Store, call: Call, r: Store, t: int)
    requires StoreOk(s, call.now) && Follows(s, call, r) && t in s.tasks && t in r.tasks && Shut(s, t)
    ensures Exposed(r, call.now, t) <==> Unlocks(s, call, t)
    ensures Shut(r, t) <==> !Unlocks(s, call, t)
  {
    NextSteps(s, call.now, call.event);
    if Unlocks(s, call, t) {
      UnlockingExposes(s, call, r, t);
    } else {
      CallKeepsShut(s, call, r, t);
    }
    if Unconfirmed(r, t) && Shut(r, t) {
      ShutMeansHidden(r, call.now, t);
    }
  }

  // ---------- runs ----------

  /** The `m`-th call unlocks the task. */
  predicate UnlockedAt(run: Run, m: nat, t: int)
    requires m < |run.calls| && |run.states| == |run.calls| + 1
  {
    Unlocks(run.states[m], run.calls[m], t)
  }

  lemma NewTaskShut(s: Store, call: Call, r: Store, t: int)
    requires StoreOk(s, call.now) && Follows(s, call, r) && t in r.tasks && t !in s.tasks
    ensures Shut(r, t)
  {
    NewTasksComeFromCreate(s, call, r, t);
    var ev := call.event;
    CreateCases(s, call.now, ev.fleet, ev.data, ev.creator, ev.key, ev.order);
    NewTaskOk(ev.data, Admit(ev.fleet, ev.data).value, ev.creator, ev.key, call.now);
  }

  /** As long as no report has unlocked it, an unconfirmed task is shut. */
  lemma {:induction false} ShutUntilUnlocked(run: Run, k: nat, t: int)
    requires IsRun(run) && k <= |run.calls| && t in run.states[k].tasks
    requires forall m | 0 <= m < k :: !UnlockedAt(run, m, t)
    ensures Shut(run.states[k], t)
  {
    if k > 0 {
      if t in run.states[k - 1].tasks {
        ShutUntilUnlocked(run, k - 1, t);
      }
      assert !UnlockedAt(run, k - 1, t);
      ShutStep(run, k - 1, t);
    }
  }

  lemma ShutStep(run: Run, k: nat, t: int)
    requires IsRun(run) && k < |run.calls| && t in run.states[k + 1].tasks && !UnlockedAt(run, k, t)
    requires t in run.states[k].tasks ==> Shut(run.states[k], t)
    ensures Shut(run.states[k + 1], t)
  {
    StepAt(run, k);
    if t in run.states[k].tasks {
      CallKeepsShut(run.states[k], run.calls[k], run.states[k + 1], t);
    } else {
      NewTaskShut(run.states[k], run.calls[k], run.states[k + 1], t);
    }
  }

  /**
   * Every execution of a ONCE task that needs confirmation is handed out after the confirmation, or after an earlier
   * report that unlocked this task. Reports on other tasks, on unknown ids or by other servers do not matter.
   */
  lemma HandedOutOnlyAfterConfirmation(run: Run, k: nat, x: int)
    requires IsRun(run) && k < |run.calls| && run.calls[k].event.Fetch? && x in run.calls[k].event.batch
    ensures x in run.states[k].execs && run.states[k].execs[x].ticket.taskId in run.states[k].tasks
    ensures var t := run.states[k].execs[x].ticket.taskId; var task := run.states[k].tasks[t];
            task.terms.schedule == ONCE && task.terms.confirmationRequired ==>
              task.confirmedBy.Some? || exists m | 0 <= m < k :: UnlockedAt(run, m, t)
  {
    FetchedAt(run, k, x);
    var s, t := run.states[k], run.states[k].execs[x].ticket.taskId;
    if Unconfirmed(s, t) && forall m | 0 <= m < k :: !UnlockedAt(run, m, t) {
      ShutUntilUnlocked(run, k, t);
      StepAt(run, k);
      ShutMeansUnclaimable(s, run.calls[k].now, t);
      assert Claimable(s, run.calls[k].event.server, x);
    }
  }

  /**
   * In any run, a task that waits for its confirmation becomes exposed to hand-out for the first time exactly by the
   * first report that unlocks it, and by no other call.
   */
  lemma FirstExposureIsExact(run: Run, m: nat, t: int)
    requires IsRun(run) && m < |run.calls| && t in run.states[m + 1].tasks
    requires forall k | 0 <= k < m :: !UnlockedAt(run, k, t)
    ensures Exposed(run.states[m + 1], run.calls[m].now, t) <==> UnlockedAt(run, m, t)
  {
    StepAt(run, m);
    if t in run.states[m].tasks {
      ShutUntilUnlocked(run, m, t);
      ExposureIsExact(run.states[m], run.calls[m], run.states[m + 1], t);
    } else {
      ShutStep(run, m, t);
      if Unconfirmed(run.states[m + 1], t) {
        ShutMeansHidden(run.states[m + 1], run.calls[m].now, t);
      }
    }
  }

  /** A report on an execution the agent was handed never unlocks anything. */
  lemma HandedOutReportsAreHarmless(run: Run, i: nat, m: nat, t: int)
    requires IsRun(run) && i < m < |run.calls| && run.calls[i].event.Fetch?
    requires run.calls[m].event.Answer? && run.calls[m].event.execution in run.calls[i].event.batch
    ensures !UnlockedAt(run, m, t)
  {
    HandedOutStaysBusy(run, i, m, run.calls[m].event.execution);
    if UnlockedAt(run, m, t) {
      StepAt(run, m);
      UntouchedRow(run.states[m], run.calls[m].now, t, run.calls[m].event.execution);
    }
  }

  // ---------- CRON tasks ----------

  /** The executions of a CRON task that nobody started. */
  lemma NoRowsBeforeFiring(s: Store, now: int, t: int)
    requires StoreOk(s, now) && t in s.tasks && s.tasks[t].terms.schedule == CRON && Untouched(s.tasks[t].status)
    ensures Rows(s.execs, t) == map[]
  {
    assert JobOk(JobOf(s, t), now);
  }

  /**
   * Firing takes no notice of confirmation: a CRON task that was never fired starts to run, with a pending execution to
   * hand out, exactly if its expression is there and has come due, confirmed or not.
   */
  lemma FiringIgnoresConfirmation(run: Run, n: nat, t: int)
    requires IsRun(run) && n < |run.calls| && run.calls[n].event.Fire? && t in run.states[n].tasks
    requires run.states[n].tasks[t].terms.schedule == CRON && Untouched(run.states[n].tasks[t].status)
    ensures t in run.states[n + 1].tasks
    ensures CanClaim(run.states[n + 1], t) <==> CronDue(run.states[n], run.calls[n].event.dueTasks, t)
    ensures run.states[n + 1].tasks[t].confirmedBy == run.states[n].tasks[t].confirmedBy
  {
    StepAt(run, n);
    var s, now, ev := run.states[n], run.calls[n].now, run.calls[n].event;
    FiringKeepsConfirmation(s, now, ev.firings, t);
    if CronDue(s, ev.dueTasks, t) {
      DueTaskIsFired(s, now, ev.dueTasks, ev.firings, t);
    } else {
      OtherTaskIsNot(s, now, ev.dueTasks, ev.firings, t);
    }
  }

  lemma DueTaskIsFired(s: Store, now: int, dueTasks: set<int>, batch: seq<Firing>, t: int)
    requires StoreOk(s, now) && IsFiringBatch(s, dueTasks, batch) && AllFireable(s, batch) && t in s.tasks && CronDue(s, dueTasks, t)
    ensures CanClaim(FireDueCron(s, now, batch), t)
  {
    var k :| 0 <= k < |batch| && batch[k].taskId == t;
    FiredTaskHasPendingRow(s, now, batch, batch[k]);
  }

  lemma OtherTaskIsNot(s: Store, now: int, dueTasks: set<int>, batch: seq<Firing>, t: int)
    requires StoreOk(s, now) && IsFiringBatch(s, dueTasks, batch) && AllFireable(s, batch) && !CronDue(s, dueTasks, t)
    requires t in s.tasks && s.tasks[t].terms.schedule == CRON && Untouched(s.tasks[t].status)
    ensures !CanClaim(FireDueCron(s, now, batch), t)
  {
    var r := FireDueCron(s, now, batch);
    forall f | f in batch ensures f.taskId != t {
      var k :| 0 <= k < |batch| && batch[k] == f;
      assert CronDue(s, dueTasks, batch[k].taskId);
    }
    NoRowsBeforeFiring(s, now, t);
    FireLeavesRows(s, now, batch, t);
    forall y | y in r.execs ensures r.execs[y].ticket.taskId != t {
      assert y !in Rows(r.execs, t);
    }
  }

  lemma {:induction false} FiringKeepsConfirmation(s: Store, now: int, batch: seq<Firing>, t: int)
    requires AllFireable(s, batch) && t in s.tasks
    ensures FireDueCron(s, now, batch).tasks[t].confirmedBy == s.tasks[t].confirmedBy
  {
    if batch != [] {
      SplitBatch(s, batch);
      FiringKeepsConfirmation(s, now, batch[..|batch| - 1], t);
    }
  }

  lemma {:induction false} FiredTaskHasPendingRow(s: Store, now: int, batch: seq<Firing>, f: Firing)
    requires StoreOk(s, now) && AllFireable(s, batch) && f in batch
    ensures CanClaim(FireDueCron(s, now, batch), f.taskId)
  {
    var rest, g := batch[..|batch| - 1], batch[|batch| - 1];
    SplitBatch(s, batch);
    FireSteps(s, now, rest);
    FireSteps(s, now, batch);
    FiresItsTasks(s, now, rest);
    var s1, r := FireDueCron(s, now, rest), FireDueCron(s, now, batch);
    assert Known(s1, g) && r == FireOne(s1, now, g);
    if f == g {
      assert JobOk(JobOf(s, f.taskId), now);
      var target :| target in TargetsOf(s.targets, f.taskId);
      assert f.targets[0] in s1.targets;
      FirstRow(s1, now, f);
    } else {
      FiredTaskHasPendingRow(s, now, rest, f);
      FireOneKeepsClaims(s1, now, g, f.taskId);
    }
  }

  lemma FirstRow(s: Store, now: int, f: Firing)
    requires Known(s, f) && |f.targets| > 0
    ensures CanClaim(FireOne(s, now, f), f.taskId)
  {
    var r := FireOne(s, now, f);
    assert s.nextExec in BatchRows(s, f.taskId, f.targets, now);
    assert Claimable(r, r.execs[s.nextExec].ticket.serverId, s.nextExec);
  }

  lemma FireOneKeepsClaims(s: Store, now: int, g: Firing, t: int)
    requires Known(s, g) && g.taskId != t && CanClaim(s, t) && forall i | i in s.execs :: i < s.nextExec
    ensures CanClaim(FireOne(s, now, g), t)
  {
    var y :| y in s.execs && s.execs[y].ticket.taskId == t && Claimable(s, s.execs[y].ticket.serverId, y);
    var r := FireOne(s, now, g);
    assert y in r.execs && r.execs[y] == s.execs[y];
    assert Claimable(r, r.execs[y].ticket.serverId, y);
  }
}
