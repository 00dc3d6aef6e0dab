/**
 * Runs that show what the task engine does not promise: each ends in a state one might have thought impossible.
 */
module TaskExamples {
  import opened Wrappers
  import opened Clock
  import opened RetryPolicy
  import opened TaskModel
  import opened JobInvariant
  import opened TaskStore
  import opened StoreInvariant
  import opened TaskHistory
  import opened TaskReports
  import opened TaskRuns
  import opened TaskConfirmation

  // ---------- building runs ----------

  const EMPTY_RUN := Run([EMPTY_STORE], [])

  function Last(run: Run): Store
    requires |run.states| > 0
  {
    run.states[|run.states| - 1]
  }

  ghost function Then(run: Run, now: int, ev: Event): Run
    requires |run.states| > 0 && Legal(Last(run), now, ev)
  {
    Run(run.states + [Next(Last(run), now, ev)], run.calls + [Call(now, ev)])
  }

  lemma ThenIsRun(run: Run, now: int, ev: Event)
    requires IsRun(run) && Legal(Last(run), now, ev) && forall k | 0 <= k < |run.calls| :: run.calls[k].now <= now
    ensures IsRun(Then(run, now, ev)) && Last(Then(run, now, ev)) == Next(Last(run), now, ev)
    ensures forall k | 0 <= k < |Then(run, now, ev).calls| :: Then(run, now, ev).calls[k].now <= now
  {
    var r := Then(run, now, ev);
    forall k: nat | k < |r.calls| ensures CallFollows(r, k) {
      if k < |run.calls| {
        assert CallFollows(run, k);
        assert r.states[k] == run.states[k] && r.states[k + 1] == run.states[k + 1] && r.calls[k] == run.calls[k];
      }
    }
  }

  // ---------- the first calls ----------

  const FLEET := Fleet({1, 2}, {(1, "nginx"), (2, "nginx")})
  const CHECK := TaskCreate("SERVICE_CHECK", None, None, [1], ONCE, None, 10, 3, None)
  const CHECK_BOTH := CHECK.(serverIds := [1, 2])
  const RESTART := TaskCreate("SERVICE_ACTION", Some("RESTART"), Some("nginx"), [1], ONCE, None, 10, 3, None)
  const NIGHTLY := CHECK.(schedule := CRON, cron := Some("0 3 * * *"))
  const OFFLINE := Report("FAILED", None, None, None, Some("NETWORK_ERROR"))

  /** Task 1 is the only task, with one target per server of `order` and nothing else but its first attempts. */
  ghost predicate Fresh(s: Store, task: Task, order: seq<int>) {
    && s.tasks == map[1 := task] && s.nextTask == 2
    && (forall g :: g in s.targets <==> 1 <= g <= |order|) && (forall g | 1 <= g <= |order| :: s.targets[g] == Target(1, order[g - 1]))
    && if task.terms.schedule == ONCE then
         && s.nextExec == |order| + 1 && (forall i :: i in s.execs <==> 1 <= i <= |order|)
         && (forall i | 1 <= i <= |order| :: s.execs[i] == NewExecution(1, i, order[i - 1], 1, 0))
       else s.execs == map[] && s.nextExec == 1
  }

  lemma FreshTargets(task: Task, order: seq<int>)
    ensures var s := InsertTask(EMPTY_STORE, task, order);
            && (forall g :: g in s.targets <==> 1 <= g <= |order|)
            && (forall g | 1 <= g <= |order| :: s.targets[g] == Target(1, order[g - 1]))
  {
  }

  lemma FreshBatch(s: Store, order: seq<int>)
    requires TargetsKnown(s, Upwards(1, |order|)) && s.execs == map[] && s.nextExec == 1
    requires forall g | 1 <= g <= |order| :: g in s.targets && s.targets[g] == Target(1, order[g - 1])
    ensures var r := InsertBatch(s, 1, Upwards(1, |order|), 0);
            && (forall i :: i in r.execs <==> 1 <= i <= |order|)
            && (forall i | 1 <= i <= |order| :: r.execs[i] == NewExecution(1, i, order[i - 1], 1, 0))
  {
    var gs := Upwards(1, |order|);
    var rows := BatchRows(s, 1, gs, 0);
    assert s.execs + rows == rows;
    forall i | 1 <= i <= |order| ensures i in rows && rows[i] == NewExecution(1, i, order[i - 1], 1, 0) {
      assert gs[i - 1] == i;
    }
  }

  lemma InsertedFresh(task: Task, order: seq<int>)
    ensures Fresh(InsertJob(EMPTY_STORE, task, order, 0), task, order)
  {
    NewTargetsKnown(EMPTY_STORE, task, order);
    FreshTargets(task, order);
    var s := InsertTask(EMPTY_STORE, task, order);
    if task.terms.schedule == ONCE {
      FreshBatch(s, order);
    }
  }

  /** The run that creates a task and nothing else. */
  lemma CreateRun(data: TaskCreate, order: seq<int>) returns (run: Run, task: Task)
    requires SchemaOk(data) && IsOrderOf(order, ServersOf(data)) && Admit(FLEET, data).Ok?
    ensures IsRun(run) && |run.calls| == 1 && run.calls[0] == Call(0, Create(FLEET, data, 7, None, order))
    ensures task == NewTask(data, Admit(FLEET, data).value, 7, None, 0) && Fresh(Last(run), task, order)
  {
    task := NewTask(data, Admit(FLEET, data).value, 7, None, 0);
    var ev := Create(FLEET, data, 7, None, order);
    ThenIsRun(EMPTY_RUN, 0, ev);
    run := Then(EMPTY_RUN, 0, ev);
    InsertedFresh(task, order);
  }

  /** The tables after the creation of a task with one server. */
  lemma OneServer(s: Store, task: Task, x: int)
    requires Fresh(s, task, [x])
    ensures s.targets.Keys == {1} && s.targets[1] == Target(1, x)
    ensures task.terms.schedule == ONCE ==> s.execs.Keys == {1} && s.execs[1] == NewExecution(1, 1, x, 1, 0)
    ensures task.terms.schedule == ONCE && task.status == PENDING ==> Claimable(s, x, 1)
  {
    forall g ensures g in s.targets <==> g == 1 {
    }
    if task.terms.schedule == ONCE {
      forall i ensures i in s.execs <==> i == 1 {
      }
    }
  }

  lemma TransientOffline()
    ensures Transient(OFFLINE) && OFFLINE.status != "SUCCESS"
  {
    assert "NETWORK_ERROR" in RETRYABLE_ERROR_TYPES;
  }

  lemma Orders()
    ensures IsOrderOf([1], ServersOf(CHECK)) && IsOrderOf([1], ServersOf(RESTART)) && IsOrderOf([1], ServersOf(NIGHTLY))
    ensures IsOrderOf([1, 2], ServersOf(CHECK_BOTH))
    ensures Admit(FLEET, CHECK).Ok? && Admit(FLEET, CHECK_BOTH).Ok? && Admit(FLEET, RESTART).Ok? && Admit(FLEET, NIGHTLY).Ok?
  {
  }

  /** The agent of a server claims the one execution that is there for it. */
  lemma FetchOne(run: Run, now: int, server: int, x: int) returns (r: Run)
    requires IsRun(run) && (forall k | 0 <= k < |run.calls| :: run.calls[k].now <= now)
    requires Claimable(Last(run), server, x) && forall i | i in Last(run).execs && i != x :: !Claimable(Last(run), server, i)
    ensures IsRun(r) && r.calls == run.calls + [Call(now, Fetch(server, [x]))] && r.states[..|run.states|] == run.states
    ensures var s, f := Last(run), Last(r);
            && f.execs.Keys == s.execs.Keys && f.targets == s.targets
            && f.execs[x] == MarkRunning(s.execs[x], now) && (forall i | i in s.execs && i != x :: f.execs[i] == s.execs[i])
            && f.tasks.Keys == s.tasks.Keys && forall t | t in s.tasks :: f.tasks[t].terms == s.tasks[t].terms
    ensures forall k | 0 <= k < |r.calls| :: r.calls[k].now <= now
  {
    var ev := Fetch(server, [x]);
    assert IsPendingBatch(Last(run), server, [x]);
    ThenIsRun(run, now, ev);
    r := Then(run, now, ev);
    assert SetOf([x]) == {x};
  }

  lemma LastOk(run: Run, now: int)
    requires IsRun(run) && (forall k | 0 <= k < |run.calls| :: run.calls[k].now <= now) && |run.calls| > 0
    ensures StoreOk(Last(run), now)
  {
    ReachableOk(run, |run.calls|);
    StoreOkLater(Last(run), ClockAt(run, |run.calls|), now);
  }

  /** An agent reports on an execution that has not ended. */
  lemma AnswerOne(run: Run, now: int, server: int, x: int, report: Report) returns (r: Run)
    requires IsRun(run) && (forall k | 0 <= k < |run.calls| :: run.calls[k].now <= now) && |run.calls| > 0
    requires Accepted(Last(run), server, x) && !Terminal(Last(run).execs[x].status) && Last(run).execs[x].ticket.taskId in Last(run).tasks
    ensures IsRun(r) && r.calls == run.calls + [Call(now, Answer(server, x, report))] && r.states[..|run.states|] == run.states
    ensures forall k | 0 <= k < |r.calls| :: r.calls[k].now <= now
    ensures var s, f := Last(run), Last(r); var t := s.execs[x].ticket.taskId;
            && DiffersIn(s, f, x, t) && f.execs[x].ticket == s.execs[x].ticket
            && SettledBy(s.tasks[t], f.execs[x], report, now)
            && f.tasks[t].terms == s.tasks[t].terms && f.tasks[t].confirmedBy == s.tasks[t].confirmedBy
  {
    var ev := Answer(server, x, report);
    ThenIsRun(run, now, ev);
    r := Then(run, now, ev);
    LastOk(run, now);
    ReportSettles(Last(run), now, server, x, report);
    SameTicketAfterReport(Last(run), now, server, x, report);
    ReportKeepsConfirmation(Last(run), now, server, x, report, Last(run).execs[x].ticket.taskId);
  }

  // ---------- hand-out without confirmation ----------

  /** The last call of the run hands out an execution of a task that needs confirmation and never got it. */
  predicate HandsOutUnconfirmed(run: Run, x: int)
    requires |run.calls| > 0 && |run.states| == |run.calls| + 1
  {
    var n := |run.calls| - 1; var s := run.states[n];
    && run.calls[n].event.Fetch? && x in run.calls[n].event.batch && x in s.execs && s.execs[x].ticket.taskId in s.tasks
    && var task := s.tasks[s.execs[x].ticket.taskId];
       (task.terms.confirmationRequired || task.terms.schedule == CRON) && task.confirmedBy.None?
  }

  /** A restart waits for its confirmation and an agent reports a transient error on an execution it was never handed. */
  lemma StrayReport() returns (run: Run)
    ensures IsRun(run) && |run.calls| == 2 && forall k | 0 <= k < |run.calls| :: run.calls[k].now <= 0
    ensures var s := Last(run);
            && s.execs.Keys == {1} && s.nextExec == 2 && s.tasks.Keys == {1} && s.execs[1].ticket == Ticket(1, 1, 1, 1, 0)
            && DueExec(s, 5 * SECOND, 1) && CanRetry(s.tasks[1], s.execs[1], 5 * SECOND)
            && s.tasks[1].terms.confirmationRequired && s.tasks[1].confirmedBy.None?
  {
    Orders();
    var r1, task := CreateRun(RESTART, [1]);
    OneServer(Last(r1), task, 1);
    TransientOffline();
    assert HasBudget(task, 1, 0);
    run := AnswerOne(r1, 0, 1, 1, OFFLINE);
  }

  /** Such a report is retried, and the retry is handed out. */
  lemma StrayReportBypassesConfirmation() returns (run: Run)
    ensures IsRun(run) && |run.calls| > 0 && HandsOutUnconfirmed(run, 2)
  {
    var r2 := StrayReport();
    var r3 := RetryOne(r2, 5 * SECOND, 1, 1);
    run := FetchOne(r3, 5 * SECOND, 1, 2);
    assert run.states[|r3.calls|] == Last(r3);
  }

  /** The dispatcher retries the only execution there is. */
  lemma RetryOne(run: Run, now: int, t: int, x: int) returns (r: Run)
    requires IsRun(run) && (forall k | 0 <= k < |run.calls| :: run.calls[k].now <= now) && |run.calls| > 0
    requires var s := Last(run);
             && s.execs.Keys == {x} && s.nextExec == x + 1 && t in s.tasks && s.execs[x].ticket.taskId == t
             && DueExec(s, now, x) && CanRetry(s.tasks[t], s.execs[x], now)
    ensures IsRun(r) && r.calls == run.calls + [Call(now, Dispatch(50, [x]))] && r.states[..|run.states|] == run.states
    ensures forall k | 0 <= k < |r.calls| :: r.calls[k].now <= now
    ensures var s, f := Last(run), Last(r); var server := s.execs[x].ticket.serverId;
            && f.execs.Keys == {x, x + 1} && t in f.tasks && f.execs[x + 1].ticket.taskId == t && f.execs[x + 1].ticket.serverId == server
            && Claimable(f, server, x + 1) && !Claimable(f, server, x)
            && f.tasks[t].terms == s.tasks[t].terms && f.tasks[t].confirmedBy == s.tasks[t].confirmedBy
  {
    var s, ev := Last(run), Dispatch(50, [x]);
    assert IsDueBatch(s, now, 50, [x]);
    ThenIsRun(run, now, ev);
    r := Then(run, now, ev);
    LastOk(run, now);
    assert [x][..0] == [];
    assert DispatchRetries(s, now, [x][..0]) == s && DispatchRetries(s, now, [x]) == DispatchOne(s, now, x);
    RetriedOnly(s, now, t, x);
  }

  lemma RetriedOnly(s: Store, now: int, t: int, x: int)
    requires StoreOk(s, now) && s.execs.Keys == {x} && s.nextExec == x + 1 && t in s.tasks && s.execs[x].ticket.taskId == t
    requires DueExec(s, now, x) && CanRetry(s.tasks[t], s.execs[x], now)
    ensures var f := DispatchOne(s, now, x); var server := s.execs[x].ticket.serverId;
            && f.execs.Keys == {x, x + 1} && t in f.tasks && f.execs[x + 1].ticket.taskId == t && f.execs[x + 1].ticket.serverId == server
            && Claimable(f, server, x + 1) && !Claimable(f, server, x)
            && f.tasks[t].terms == s.tasks[t].terms && f.tasks[t].confirmedBy == s.tasks[t].confirmedBy
  {
    DueMeansOpen(s, now, x);
    RetryExposes(s, now, t, x);
    RetriedRows(s, now, t, x);
    TurnLeavesConfirmation(s, now, x, t);
  }

  /** A CRON task that nobody has confirmed. */
  lemma Nightly() returns (run: Run)
    ensures IsRun(run) && |run.calls| == 1 && run.calls[0].now == 0
    ensures var s := Last(run);
            && s.targets.Keys == {1} && s.targets[1] == Target(1, 1) && s.execs == map[] && s.nextExec == 1 && s.tasks.Keys == {1}
            && s.tasks[1].confirmedBy.None? && s.tasks[1].terms.schedule == CRON
            && IsFiringBatch(s, {1}, [Firing(1, [1])]) && AllFireable(s, [Firing(1, [1])])
  {
    Orders();
    var task;
    run, task := CreateRun(NIGHTLY, [1]);
    OneServer(Last(run), task, 1);
    NightlyIsDue(Last(run), task);
    ReachableRefs(run, 1);
    FiringBatchIsFireable(Last(run), {1}, [Firing(1, [1])]);
  }

  /** Its firing. */
  lemma FireOnce() returns (run: Run)
    ensures IsRun(run) && |run.calls| == 2 && forall k | 0 <= k < |run.calls| :: run.calls[k].now <= SECOND
    ensures var s := Last(run);
            && s.execs.Keys == {1} && s.execs[1] == NewExecution(1, 1, 1, 1, SECOND) && 1 in s.tasks
            && s.tasks[1].status == RUNNING && s.tasks[1].confirmedBy.None? && s.tasks[1].terms.schedule == CRON
  {
    var r1 := Nightly();
    ThenIsRun(r1, SECOND, Fire({1}, [Firing(1, [1])]));
    run := Then(r1, SECOND, Fire({1}, [Firing(1, [1])]));
    FirstFiring(Last(r1), SECOND);
  }

  lemma FirstFiring(s: Store, now: int)
    requires s.execs == map[] && s.nextExec == 1 && 1 in s.targets && s.targets[1] == Target(1, 1) && 1 in s.tasks
    requires forall f | f in [Firing(1, [1])] :: Known(s, f)
    ensures var r := FireDueCron(s, now, [Firing(1, [1])]);
            && r.execs.Keys == {1} && r.execs[1] == NewExecution(1, 1, 1, 1, now)
            && r.tasks == s.tasks[1 := FireTask(s.tasks[1], now)]
  {
    var firing := Firing(1, [1]);
    assert [firing][..0] == [];
    assert FireDueCron(s, now, [firing]) == FireOne(s, now, firing);
    FirstBatchOf(s, now);
  }

  lemma NightlyIsDue(s: Store, task: Task)
    requires s.tasks == map[1 := task] && s.targets.Keys == {1} && s.targets[1] == Target(1, 1)
    requires task.terms.schedule == CRON && task.status == CREATED && task.terms.cron == NIGHTLY.cron
    ensures IsFiringBatch(s, {1}, [Firing(1, [1])])
  {
    assert TargetsOf(s.targets, 1) == {1};
    assert CronDue(s, {1}, [Firing(1, [1])][0].taskId);
  }

  lemma FirstBatchOf(s: Store, now: int)
    requires s.execs == map[] && s.nextExec == 1 && 1 in s.targets && s.targets[1] == Target(1, 1)
    ensures var r := InsertBatch(s, 1, [1], now); r.execs.Keys == {1} && r.execs[1] == NewExecution(1, 1, 1, 1, now)
  {
    var rows := BatchRows(s, 1, [1], now);
    forall i ensures i in rows <==> i == 1 {
    }
    assert s.execs + rows == rows;
  }

  /** A CRON task fires and is handed out though nobody confirmed it. */
  lemma CronRunsUnconfirmed() returns (run: Run)
    ensures IsRun(run) && |run.calls| > 0 && HandsOutUnconfirmed(run, 1)
  {
    var r2 := FireOnce();
    run := FetchOne(r2, SECOND, 1, 1);
    assert run.states[|r2.calls|] == Last(r2);
  }

  // ---------- repeated reports ----------

  /** An agent has claimed the only execution of a check that may be attempted three times within thirty seconds. */
  lemma ClaimedCheck() returns (run: Run)
    ensures IsRun(run) && |run.calls| == 2 && forall k | 0 <= k < |run.calls| :: run.calls[k].now <= 0
    ensures var s := Last(run);
            && s.execs.Keys == {1} && s.execs[1] == MarkRunning(NewExecution(1, 1, 1, 1, 0), 0) && s.tasks.Keys == {1}
            && s.tasks[1].terms.maxAttempts == 3 && s.tasks[1].terms.createdAt == 0 && s.tasks[1].terms.timeoutSeconds == 10
  {
    Orders();
    var r1, task := CreateRun(CHECK, [1]);
    OneServer(Last(r1), task, 1);
    run := FetchOne(r1, 0, 1, 1);
  }

  /** The agent has reported a transient error one second later. */
  lemma ReportedCheck() returns (run: Run)
    ensures IsRun(run) && |run.calls| == 3 && (forall k | 0 <= k < |run.calls| :: run.calls[k].now <= SECOND)
    ensures run.calls[2].event == Answer(1, 1, OFFLINE)
    ensures var s := Last(run);
            && Accepted(s, 1, 1) && s.execs[1].ticket == Ticket(1, 1, 1, 1, 0) && s.execs[1].status == RETRYING
            && s.execs[1].nextRetryAt == Some(6 * SECOND) && s.tasks.Keys == {1}
            && s.tasks[1].terms.maxAttempts == 3 && s.tasks[1].terms.createdAt == 0 && s.tasks[1].terms.timeoutSeconds == 10
  {
    var r2 := ClaimedCheck();
    TransientOffline();
    assert HasBudget(Last(r2).tasks[1], 1, SECOND);
    run := AnswerOne(r2, SECOND, 1, 1, OFFLINE);
  }

  /** The second of two equal reports moves the retry. */
  lemma SecondReportMovesTheRetry() returns (run: Run)
    ensures IsRun(run) && |run.calls| == 4 && run.calls[2].event == run.calls[3].event && run.calls[2].event.Answer?
    ensures 1 in run.states[3].execs && run.states[3].execs[1].nextRetryAt == Some(6 * SECOND)
    ensures 1 in run.states[4].execs && run.states[4].execs[1].nextRetryAt == Some(7 * SECOND)
  {
    var r3 := ReportedCheck();
    TransientOffline();
    assert HasBudget(Last(r3).tasks[1], 1, 2 * SECOND);
    run := AnswerOne(r3, 2 * SECOND, 1, 1, OFFLINE);
    assert run.states[3] == Last(r3) && run.states[4] == Last(run);
  }

  // ---------- cancelling and scanning ----------

  /** A cancelled task whose claimed execution runs on. */
  lemma CancelLeavesRunning() returns (run: Run)
    ensures IsRun(run) && |run.calls| == 3 && run.calls[2].event == Cancel(1)
    ensures 1 in run.states[3].tasks && !Terminal(run.states[3].tasks[1].status)
    ensures 1 in run.states[3].execs && run.states[3].execs[1].status == RUNNING
  {
    var r2 := ClaimedCheck();
    ThenIsRun(r2, SECOND, Cancel(1));
    run := Then(r2, SECOND, Cancel(1));
    LastOk(r2, SECOND);
    CancelRunning(Last(r2), SECOND, 1);
    CancelledStatus(JobOf(Last(r2), 1), SECOND);
    CancelRowsOf(Last(r2).execs, 1, SECOND, 1);
    assert run.states[3] == Last(run);
  }

  lemma CancelRunning(s: Store, now: int, i: int)
    requires StoreOk(s, now) && i in s.execs && s.execs[i].status == RUNNING
    ensures var t := s.execs[i].ticket.taskId;
            && t in s.tasks && JobOk(JobOf(s, t), now) && !Terminal(s.tasks[t].status)
            && i in Rows(s.execs, t) && InFlight(Rows(s.execs, t)[i])
            && CancelTask(s, now, t).Ok? && i in CancelTask(s, now, t).value.execs
            && CancelTask(s, now, t).value.execs[i] == s.execs[i]
  {
    InItsJob(s, i);
    var t := s.execs[i].ticket.taskId;
    assert JobOk(JobOf(s, t), now);
    OpenRowMeansOpenTask(JobOf(s, t), now, i);
  }

  /** Two agents have claimed the two executions of a check. */
  lemma ClaimedBoth() returns (run: Run)
    ensures IsRun(run) && |run.calls| == 3 && forall k | 0 <= k < |run.calls| :: run.calls[k].now <= 0
    ensures var s := Last(run);
            && s.execs.Keys == {1, 2} && s.tasks.Keys == {1}
            && s.execs[1] == MarkRunning(NewExecution(1, 1, 1, 1, 0), 0) && s.execs[2] == MarkRunning(NewExecution(1, 2, 2, 1, 0), 0)
            && s.tasks[1].terms.maxAttempts == 3 && s.tasks[1].terms.createdAt == 0 && s.tasks[1].terms.timeoutSeconds == 10
  {
    var r2 := ClaimedFirst();
    run := FetchOne(r2, 0, 2, 2);
  }

  /** The first of two agents has claimed its execution. */
  lemma ClaimedFirst() returns (run: Run)
    ensures IsRun(run) && |run.calls| == 2 && forall k | 0 <= k < |run.calls| :: run.calls[k].now <= 0
    ensures var s := Last(run);
            && s.execs.Keys == {1, 2} && s.tasks.Keys == {1} && Claimable(s, 2, 2)
            && s.execs[1] == MarkRunning(NewExecution(1, 1, 1, 1, 0), 0) && s.execs[2] == NewExecution(1, 2, 2, 1, 0)
            && s.tasks[1].terms.maxAttempts == 3 && s.tasks[1].terms.createdAt == 0 && s.tasks[1].terms.timeoutSeconds == 10
  {
    Orders();
    var r1, task := CreateRun(CHECK_BOTH, [1, 2]);
    TwoServers(Last(r1), task);
    run := FetchOne(r1, 0, 1, 1);
    FetchLeavesClaimable(r1, run, 0, 1, 1, 2, 2);
  }

  lemma TwoServers(s: Store, task: Task)
    requires Fresh(s, task, [1, 2]) && task.terms.schedule == ONCE && task.status == PENDING
    ensures s.execs.Keys == {1, 2} && s.execs[1] == NewExecution(1, 1, 1, 1, 0) && s.execs[2] == NewExecution(1, 2, 2, 1, 0)
    ensures Claimable(s, 1, 1) && Claimable(s, 2, 2) && !Claimable(s, 1, 2) && !Claimable(s, 2, 1)
  {
    forall i ensures i in s.execs <==> i == 1 || i == 2 {
    }
  }

  /** An execution that has expired and is left running by the scan, because its sibling waits for a retry. */
  lemma ScanSkipsRetryingTask() returns (run: Run)
    ensures IsRun(run) && |run.calls| == 5 && run.calls[4].event == Scan && 1 in run.states[4].tasks
    ensures 1 in run.states[4].execs && IsExpired(run.states[4].execs[1], run.states[4].tasks[1].terms.timeoutSeconds, run.calls[4].now)
    ensures 1 in run.states[5].execs && run.states[5].execs[1].status == RUNNING
  {
    var r3 := ClaimedBoth();
    TransientOffline();
    assert HasBudget(Last(r3).tasks[1], 1, 9 * SECOND);
    var r4 := AnswerOne(r3, 9 * SECOND, 2, 2, OFFLINE);
    ThenIsRun(r4, 11 * SECOND, Scan);
    run := Then(r4, 11 * SECOND, Scan);
    LastOk(r4, 11 * SECOND);
    RetryingRowMeansRetryingTask(Last(r4), 11 * SECOND, 2);
    assert run.states[4] == Last(r4);
    ScanMissesRetryingTasks(run, 4, 1);
  }

  /** Claiming an execution leaves those of other servers claimable. */
  lemma FetchLeavesClaimable(run: Run, r: Run, now: int, server: int, x: int, other: int, y: int)
    requires IsRun(run) && IsRun(r) && r.calls == run.calls + [Call(now, Fetch(server, [x]))] && r.states[..|run.states|] == run.states
    requires Claimable(Last(run), server, x) && Claimable(Last(run), other, y) && x != y
    requires Last(r).execs.Keys == Last(run).execs.Keys && forall i | i in Last(run).execs && i != x :: Last(r).execs[i] == Last(run).execs[i]
    ensures Claimable(Last(r), other, y)
  {
    assert CallFollows(r, |run.calls|);
  }

  lemma RetryingRowMeansRetryingTask(s: Store, now: int, i: int)
    requires StoreOk(s, now) && i in s.execs && s.execs[i].status == RETRYING
    ensures s.execs[i].ticket.taskId in s.tasks && s.tasks[s.execs[i].ticket.taskId].status == RETRYING
  {
    TasksOfOthers(s, now, i);
    var j := JobOf(s, s.execs[i].ticket.taskId);
    OpenStatusIsSeen(j, now, i);
    OpenRowMeansOpenTask(j, now, i);
  }
}
