/**
 * The task engine as the source runs it: tables that are updated in place, rows visited one at a time, the
 * answer of a query with no fixed order taken as it comes (backend/app/services/task_service.py).
 *
 * `now` is the one reading of the clock a call makes. A parameter called `order`, `batch` or `due` is what a
 * query or the iteration over a Python set answered; its precondition says which answers are possible.
 */
module TaskService {
  import opened Wrappers
  import opened Clock
  import opened RetryPolicy
  import opened TaskModel
  import opened JobInvariant
  import opened TaskStore
  import opened StoreInvariant

  /** The attempts stored for one target differ, as the UNIQUE index on executions demands. */
  predicate NoTies(rows: map<int, Execution>) {
    forall i, k | i in rows && k in rows && i != k && SameTarget(rows[i], rows[k]) :: rows[i].ticket.attempt != rows[k].ticket.attempt
  }

  predicate NoTiesAnywhere(s: Store) {
    forall t | t in s.tasks :: NoTies(Rows(s.execs, t))
  }

  lemma OkMeansNoTies(s: Store, now: int, t: int)
    requires StoreOk(s, now) && t in s.tasks
    ensures NoTies(Rows(s.execs, t))
  {
    assert JobOk(JobOf(s, t), now);
    forall i, k | i in Rows(s.execs, t) && k in Rows(s.execs, t) && i != k && SameTarget(s.execs[i], s.execs[k])
      ensures s.execs[i].ticket.attempt != s.execs[k].ticket.attempt
    {
      assert Ordered(s.execs[i], s.execs[k]);
    }
  }

  /** `latest` holds the highest attempt of every target among the executions `seen`. */
  ghost predicate Leads(rows: map<int, Execution>, seen: set<int>, latest: map<int, int>) {
    (forall g | g in latest :: latest[g] in rows && latest[g] in seen && rows[latest[g]].ticket.targetId == g) &&
    (forall i | i in seen && i in rows :: rows[i].ticket.targetId in latest &&
                                          rows[i].ticket.attempt <= rows[latest[rows[i].ticket.targetId]].ticket.attempt)
  }

  lemma TopIsUnique(rows: map<int, Execution>, i: int, k: int)
    requires NoTies(rows) && i in rows && k in rows && SameTarget(rows[i], rows[k])
    requires rows[i].ticket.attempt == rows[k].ticket.attempt
    ensures i == k
  {
  }

  lemma LeadersAreLatest(rows: map<int, Execution>, latest: map<int, int>)
    requires NoTies(rows) && Leads(rows, rows.Keys, latest)
    ensures (set g | g in latest :: rows[latest[g]].status) == LatestStatuses(rows)
  {
    forall g | g in latest ensures IsLatest(rows, latest[g]) {
    }
    forall i | i in rows && IsLatest(rows, i) ensures rows[i].ticket.targetId in latest && latest[rows[i].ticket.targetId] == i {
      TopIsUnique(rows, i, latest[rows[i].ticket.targetId]);
    }
    forall s | s in LatestStatuses(rows) ensures s in (set g | g in latest :: rows[latest[g]].status) {
      var i :| i in rows && IsLatest(rows, i) && rows[i].status == s;
      assert latest[rows[i].ticket.targetId] == i;
    }
  }

  /** What an agent is told about an execution it has claimed. */
  datatype Assignment = Assignment(executionId: int, taskId: int, action: string, serviceName: Option<string>, timeoutSeconds: nat)

  function AssignmentOf(s: Store, i: int): Assignment
    requires i in s.execs && s.execs[i].ticket.taskId in s.tasks
  {
    var task := s.tasks[s.execs[i].ticket.taskId];
    Assignment(i, s.execs[i].ticket.taskId, task.terms.action, task.terms.serviceName, task.terms.timeoutSeconds)
  }

  class TaskService {
    var db: Store
    ghost var clock: int

    ghost predicate Valid()
      reads this
    {
      StoreOk(db, clock)
    }

    constructor ()
      ensures Valid() && db == EMPTY_STORE
    {
      db := EMPTY_STORE;
      clock := 0;
    }

    // ---------- repositories ----------

    method PutExecution(i: int, e: Execution)
      modifies this`db
      ensures db == PutExec(old(db), i, e)
    {
      db := db.(execs := db.execs[i := e]);
    }

    method CreateExecution(taskId: int, targetId: int, serverId: int, attempt: int, now: int)
      modifies this`db
      ensures db == InsertExec(old(db), NewExecution(taskId, targetId, serverId, attempt, now))
    {
      db := db.(execs := db.execs[db.nextExec := NewExecution(taskId, targetId, serverId, attempt, now)], nextExec := db.nextExec + 1);
    }

    method RecordLog(i: int, level: Level)
      modifies this`db
      ensures db == AddLog(old(db), i, level)
    {
      db := db.(logs := db.logs[db.nextLog := LogRow(i, level)], nextLog := db.nextLog + 1);
    }

    /** Deletes executions that ended before the cutoff, with their logs. */
    method DeleteTerminalBefore(cutoff: int) returns (count: nat)
      modifies this`db
      ensures db == TaskStore.DeleteTerminalBefore(old(db), cutoff)
      ensures count == |old(db).execs| - |db.execs|
    {
      var ids := set i | i in db.execs && Outdated(db.execs[i], cutoff);
      WithoutOutdated(db, cutoff, ids);
      db := db.(logs := map l | l in db.logs && db.logs[l].executionId !in ids :: db.logs[l]);
      db := db.(execs := map i | i in db.execs && i !in ids :: db.execs[i]);
      Fewer(old(db).execs, ids, db.execs);
      count := |ids|;
    }

    /** Deletes ONCE tasks that finished before the cutoff and have no execution left, with their targets. */
    method DeleteFinishedTasksBefore(cutoff: int) returns (count: nat)
      modifies this`db
      ensures db == TaskStore.DeleteFinishedTasksBefore(old(db), cutoff)
      ensures count == |old(db).tasks| - |db.tasks|
    {
      var ids := set t | t in db.tasks && Forgotten(db, cutoff, t);
      WithoutForgotten(db, cutoff, ids);
      db := db.(targets := map g | g in db.targets && db.targets[g].taskId !in ids :: db.targets[g]);
      db := db.(tasks := map t | t in db.tasks && t !in ids :: db.tasks[t]);
      Fewer(old(db).tasks, ids, db.tasks);
      count := |ids|;
    }

    // ---------- _aggregate_task_status ----------

    /** The execution with the highest attempt of every target, the rows being visited in any order. */
    method LatestByTarget(rows: map<int, Execution>) returns (latest: map<int, int>)
      ensures Leads(rows, rows.Keys, latest)
    {
      latest := map[];
      var todo := rows.Keys;
      while exists i :: i in todo
        invariant todo <= rows.Keys && Leads(rows, rows.Keys - todo, latest)
        decreases todo
      {
        var i :| i in todo;
        var g := rows[i].ticket.targetId;
        if g !in latest || rows[i].ticket.attempt > rows[latest[g]].ticket.attempt {
          latest := latest[g := i];
        }
        todo := todo - {i};
      }
      assert rows.Keys - todo == rows.Keys;
    }

    /** Derives the status of a task from the latest execution of every target. */
    method AggregateTaskStatus(t: int, now: int)
      requires t in db.tasks && NoTies(Rows(db.execs, t))
      modifies this`db
      ensures db == Aggregate(old(db), t, now)
    {
      var rows := Rows(db.execs, t);
      if rows == map[] {
        db := db.(tasks := db.tasks[t := db.tasks[t].(status := PENDING)]);
        return;
      }
      var latest := LatestByTarget(rows);
      LeadersAreLatest(rows, latest);
      var statuses := set g | g in latest :: rows[latest[g]].status;
      var status := DeriveStatus(statuses);
      var task := db.tasks[t].(status := status);
      if Terminal(status) {
        task := task.(finishedAt := Some(now));
      }
      db := db.(tasks := db.tasks[t := task]);
    }

    method DeriveStatus(statuses: set<Status>) returns (status: Status)
      ensures status == Verdict(statuses)
    {
      if RETRYING in statuses {
        status := RETRYING;
      } else if exists s | s in statuses :: s == PENDING || s == RUNNING {
        status := RUNNING;
      } else if DEAD in statuses {
        status := DEAD;
      } else if exists s | s in statuses :: s == FAILED || s == TIMEOUT {
        status := FAILED;
      } else if forall s | s in statuses :: s == SUCCESS {
        status := SUCCESS;
      } else if forall s | s in statuses :: s == CANCELLED {
        status := CANCELLED;
      } else {
        status := if SUCCESS in statuses then SUCCESS else FAILED;
      }
    }

    // ---------- create_task ----------

    /** Creates a task with its targets and, for a ONCE task, its first attempts. */
    method CreateTask(now: int, fleet: Fleet, data: TaskCreate, creator: int, key: Option<string>, order: seq<int>)
      returns (r: Result<int, Error>)
      requires Valid() && clock <= now && SchemaOk(data) && IsOrderOf(order, ServersOf(data))
      modifies this
      ensures Valid() && clock == now
      ensures match TaskStore.CreateTask(old(db), now, fleet, data, creator, key, order)
              case Ok((s, t)) => r == Ok(t) && db == s
              case Err(e) => r == Err(e) && db == old(db)
    {
      CreateKeepsOk(db, clock, now, fleet, data, creator, key, order);
      clock := now;
      r := CreateChecked(now, fleet, data, creator, key, order);
    }

    method CreateChecked(now: int, fleet: Fleet, data: TaskCreate, creator: int, key: Option<string>, order: seq<int>)
      returns (r: Result<int, Error>)
      requires KeysUnique(db)
      modifies this`db
      ensures match TaskStore.CreateTask(old(db), now, fleet, data, creator, key, order)
              case Ok((s, t)) => r == Ok(t) && db == s
              case Err(e) => r == Err(e) && db == old(db)
    {
      if key.Some? && key.value != "" && KeyTaken(db, key.value) {
        var t :| t in db.tasks && HasKey(db, t, key.value);
        OwnerIsUnique(db, t, key.value);
        return Ok(t);
      }
      var admitted := Admit(fleet, data);
      if admitted.Err? {
        return Err(admitted.error);
      }
      if key.Some? && KeyTaken(db, key.value) {
        return Err(DuplicateKey);
      }
      r := Ok(db.nextTask);
      InsertJob(NewTask(data, admitted.value, creator, key, now), order, now);
    }

    method InsertJob(task: Task, order: seq<int>, now: int)
      modifies this`db
      ensures db == TaskStore.InsertJob(old(db), task, order, now)
    {
      var t := db.nextTask;
      NewTargetsKnown(db, task, order);
      var created := InsertTargets(task, order);
      if task.terms.schedule == ONCE {
        CreateExecutions(t, created, now);
      }
    }

    /** The task row and one target row per server, in the given order. */
    method InsertTargets(task: Task, order: seq<int>) returns (created: seq<int>)
      modifies this`db
      ensures db == InsertTask(old(db), task, order)
      ensures created == Upwards(old(db).nextTarget, |order|)
    {
      ghost var s := db;
      var t := db.nextTask;
      db := db.(tasks := db.tasks[t := task], nextTask := db.nextTask + 1);
      NoTargets(s, task);
      created := [];
      for k := 0 to |order|
        invariant db == InsertTask(s, task, order[..k])
        invariant |created| == k && forall m | 0 <= m < k :: created[m] == s.nextTarget + m
      {
        OneMoreTarget(s, task, order, k);
        created := created + [db.nextTarget];
        db := db.(targets := db.targets[db.nextTarget := Target(t, order[k])], nextTarget := db.nextTarget + 1);
      }
      assert order[..|order|] == order;
      assert created == Upwards(s.nextTarget, |order|);
    }

    /** One first attempt per target, in the given order. */
    method CreateExecutions(t: int, gs: seq<int>, now: int)
      requires TargetsKnown(db, gs)
      modifies this`db
      ensures db == InsertBatch(old(db), t, gs, now)
    {
      ghost var s := db;
      EmptyBatch(s, t, now);
      for k := 0 to |gs|
        invariant TargetsKnown(s, gs[..k]) && db == InsertBatch(s, t, gs[..k], now)
      {
        OneMoreExecution(s, t, gs, k, now);
        CreateExecution(t, gs[k], db.targets[gs[k]].serverId, 1, now);
      }
      assert gs[..|gs|] == gs;
    }

    // ---------- confirm_task, cancel_task ----------

    method ConfirmTask(t: int, operator: int, now: int) returns (r: Result<(), Error>)
      requires Valid() && clock <= now
      modifies this
      ensures Valid() && clock == now
      ensures match TaskStore.ConfirmTask(old(db), now, t, operator)
              case Ok(s) => r.Ok? && db == s
              case Err(e) => r == Err(e) && db == old(db)
    {
      ghost var s := db;
      StoreOkLater(s, clock, now);
      clock := now;
      if t !in db.tasks {
        return Err(TaskNotFound);
      }
      if db.tasks[t].status != CREATED {
        return Err(BadRequest);
      }
      ConfirmSteps(s, now, t, operator);
      db := db.(tasks := db.tasks[t := db.tasks[t].(status := PENDING, confirmedBy := Some(operator), confirmedAt := Some(now))]);
      r := Ok(());
    }

    /** Cancels what has not started, row by row in any order. */
    method CancelTask(t: int, now: int) returns (r: Result<(), Error>)
      requires Valid() && clock <= now
      modifies this
      ensures Valid() && clock == now
      ensures match TaskStore.CancelTask(old(db), now, t)
              case Ok(s) => r.Ok? && db == s
              case Err(e) => r == Err(e) && db == old(db)
    {
      ghost var s := db;
      CancelKeepsOk(s, clock, now, t);
      clock := now;
      if t !in db.tasks {
        return Err(TaskNotFound);
      }
      if Terminal(db.tasks[t].status) {
        return Err(BadRequest);
      }
      CancelPending(t, now);
      SameTicketsNoTies(s.execs, db.execs, t);
      AggregateTaskStatus(t, now);
      r := Ok(());
    }

    method CancelPending(t: int, now: int)
      modifies this`db
      ensures db == old(db).(execs := CancelExecs(old(db).execs, t, now))
    {
      ghost var s := db;
      var rows := Rows(db.execs, t);
      var todo := rows.Keys;
      while exists i :: i in todo
        invariant todo <= rows.Keys
        invariant db == s.(execs := db.execs) && db.execs.Keys == s.execs.Keys
        invariant forall i | i in s.execs ::
                    db.execs[i] == if i in rows.Keys - todo then CancelRow(s.execs[i], now) else s.execs[i]
        decreases todo
      {
        var i :| i in todo;
        if db.execs[i].status == PENDING {
          PutExecution(i, Finish(db.execs[i], now, CANCELLED, None, None, Some("任务被取消"), None));
        }
        todo := todo - {i};
      }
      assert rows.Keys - todo == rows.Keys;
      forall i | i in s.execs ensures db.execs[i] == CancelExecs(s.execs, t, now)[i] {
        assert i in rows <==> s.execs[i].ticket.taskId == t;
      }
      assert db.execs.Keys == CancelExecs(s.execs, t, now).Keys;
      assert db.execs == CancelExecs(s.execs, t, now);
    }

    // ---------- fetch_pending ----------

    /** Hands the pending executions `batch` of a server to its agent. */
    method FetchPending(server: int, batch: seq<int>, now: int) returns (result: seq<Assignment>)
      requires Valid() && clock <= now && IsPendingBatch(db, server, batch)
      modifies this
      ensures Valid() && clock == now
      ensures db == TaskStore.FetchPending(old(db), now, SetOf(batch))
      ensures |result| == |batch|
      ensures forall k | 0 <= k < |batch| :: Claimable(old(db), server, batch[k]) && result[k] == AssignmentOf(old(db), batch[k])
    {
      ghost var s := db;
      FetchKeepsOk(s, clock, now, server, batch);
      clock := now;
      result := ClaimAll(server, batch, now);
    }

    method ClaimAll(server: int, batch: seq<int>, now: int) returns (result: seq<Assignment>)
      requires forall k | 0 <= k < |batch| :: Claimable(db, server, batch[k])
      requires forall k, m | 0 <= k < m < |batch| :: batch[k] < batch[m]
      modifies this`db
      ensures db == TaskStore.FetchPending(old(db), now, SetOf(batch))
      ensures |result| == |batch|
      ensures forall k | 0 <= k < |batch| :: Claimable(old(db), server, batch[k]) && result[k] == AssignmentOf(old(db), batch[k])
    {
      ghost var s := db;
      result := [];
      NothingClaimed(s, now);
      for k := 0 to |batch|
        invariant db == TaskStore.FetchPending(s, now, SetOf(batch[..k]))
        invariant |result| == k
        invariant forall m | 0 <= m < k :: Claimable(s, server, batch[m]) && result[m] == AssignmentOf(s, batch[m])
      {
        var i := batch[k];
        assert Claimable(s, server, batch[k]);
        var t := db.execs[i].ticket.taskId;
        OneMoreClaim(s, now, batch, k);
        PutExecution(i, MarkRunning(db.execs[i], now));
        db := db.(tasks := db.tasks[t := db.tasks[t].(status := RUNNING, startedAt := if db.tasks[t].startedAt.Some? then db.tasks[t].startedAt else Some(now))]);
        result := result + [Assignment(i, t, db.tasks[t].terms.action, db.tasks[t].terms.serviceName, db.tasks[t].terms.timeoutSeconds)];
      }
      assert batch[..|batch|] == batch;
    }

    // ---------- report_result ----------

    method ReportResult(server: int, i: int, report: Report, now: int) returns (r: Result<Execution, Error>)
      requires Valid() && clock <= now
      modifies this
      ensures Valid() && clock == now
      ensures match TaskStore.ReportResult(old(db), now, server, i, report)
              case Ok(s) => db == s && i in s.execs && r == Ok(s.execs[i])
              case Err(e) => r == Err(e) && db == old(db)
    {
      ghost var s := db;
      ReportKeepsOk(s, clock, now, server, i, report);
      clock := now;
      r := ReportChecked(server, i, report, now);
    }

    method ReportChecked(server: int, i: int, report: Report, now: int) returns (r: Result<Execution, Error>)
      requires i in db.execs && db.execs[i].ticket.taskId in db.tasks ==> NoTies(Rows(db.execs, db.execs[i].ticket.taskId))
      modifies this`db
      ensures match TaskStore.ReportResult(old(db), now, server, i, report)
              case Ok(s) => db == s && i in s.execs && r == Ok(s.execs[i])
              case Err(e) => r == Err(e) && db == old(db)
    {
      ghost var s := db;
      if i !in db.execs || db.execs[i].ticket.serverId != server {
        return Err(ExecutionNotFound);
      }
      if Terminal(db.execs[i].status) {
        return Ok(db.execs[i]);
      }
      var t := db.execs[i].ticket.taskId;
      if t !in db.tasks {
        return Err(TaskNotFound);
      }
      SettleExecution(i, report, now);
      SameTicketsNoTies(s.execs, db.execs, t);
      AggregateTaskStatus(t, now);
      r := Ok(db.execs[i]);
    }

    method SettleExecution(i: int, report: Report, now: int)
      requires i in db.execs && db.execs[i].ticket.taskId in db.tasks
      modifies this`db
      ensures db == AddLog(PutExec(old(db), i, Settle(old(db).tasks[old(db).execs[i].ticket.taskId], old(db).execs[i], report, now)), i,
                           if report.status == "SUCCESS" then INFO else ERROR)
    {
      var e := db.execs[i];
      if report.status == "SUCCESS" {
        PutExecution(i, Finish(e, now, SUCCESS, report.exitCode, report.resultText, None, None));
        RecordLog(i, INFO);
      } else {
        var failedType := ClassifyError(report.errorType, report.errorMessage);
        if IsRetryable(report.errorType, report.errorMessage) {
          if CanRetry(db.tasks[e.ticket.taskId], e, now) {
            PutExecution(i, MarkRetrying(e, now, failedType, report.errorMessage, now + BackoffSeconds(e.ticket.attempt) * SECOND));
          } else {
            PutExecution(i, MarkDead(e, now, failedType, OrElse(report.errorMessage, BUDGET_EXHAUSTED)));
          }
        } else {
          PutExecution(i, Finish(e, now, FAILED, report.exitCode, None, report.errorMessage, Some(failedType)));
        }
        RecordLog(i, ERROR);
      }
    }

    // ---------- scan_timeouts ----------

    /** Times out what has run too long, task by task in any order; `total` counts the executions. */
    method ScanTimeouts(now: int) returns (total: nat)
      requires Valid() && clock <= now
      modifies this
      ensures Valid() && clock == now
      ensures db == TaskStore.ScanTimeouts(old(db), now)
      ensures total == |set i | i in old(db).execs && Scanned(old(db), old(db).execs[i], now)|
    {
      ScanKeepsOk(db, clock, now);
      clock := now;
      total := ScanRunning(now);
    }

    method ScanRunning(now: int) returns (total: nat)
      requires NoTiesAnywhere(db)
      modifies this`db
      ensures db == TaskStore.ScanTimeouts(old(db), now)
      ensures total == |set i | i in old(db).execs && Scanned(old(db), old(db).execs[i], now)|
    {
      ghost var s := db;
      var running := set t | t in db.tasks && db.tasks[t].status == RUNNING;
      var todo := running;
      total := 0;
      ghost var done := {};
      ScanNothing(s, now);
      while exists t :: t in todo
        invariant todo <= running && done == running - todo
        invariant db == ScanOf(s, now, done)
        invariant total == |ExpiredOf(s, now, done)|
        decreases todo
      {
        var t :| t in todo;
        ScanOneMore(s, now, done, t);
        var n := ScanTask(t, now);
        total := total + n;
        todo := todo - {t};
        done := done + {t};
      }
      assert done == running;
      ScanAll(s, now, running);
    }

    /** Times out the expired executions of one RUNNING task and derives its status again. */
    method ScanTask(t: int, now: int) returns (count: nat)
      requires t in db.tasks && db.tasks[t].status == RUNNING && NoTies(Rows(db.execs, t))
      modifies this`db
      ensures db == ScanOf(old(db), now, {t})
      ensures count == |ExpiredOf(old(db), now, {t})|
    {
      ghost var s := db;
      var timeout := db.tasks[t].terms.timeoutSeconds;
      var expired := set i | i in db.execs && db.execs[i].ticket.taskId == t && IsExpired(db.execs[i], timeout, now);
      ScannedRows(s, now, t, expired);
      ScannedTask(s, now, t);
      count := TimeOutAll(expired, timeout, now, ScannedExecs(s, now, {t}));
      if expired != {} {
        SameTicketsNoTies(s.execs, db.execs, t);
        AggregateTaskStatus(t, now);
      }
    }

    method TimeOutAll(expired: set<int>, timeout: nat, now: int, ghost goal: map<int, Execution>) returns (count: nat)
      requires expired <= db.execs.Keys && goal.Keys == db.execs.Keys
      requires forall i | i in goal :: if i in expired then TimedOutRow(db.execs[i], goal[i], timeout, now) else goal[i] == db.execs[i]
      modifies this`db
      ensures db == old(db).(execs := goal)
      ensures count == |expired|
    {
      ghost var s := db;
      count := 0;
      var todo := expired;
      while exists i :: i in todo
        invariant todo <= expired && count == |expired| - |todo|
        invariant db == s.(execs := db.execs) && db.execs.Keys == s.execs.Keys
        invariant forall i | i in s.execs :: db.execs[i] == if i in expired && i !in todo then goal[i] else s.execs[i]
        decreases todo
      {
        var i :| i in todo;
        assert TimedOutRow(db.execs[i], goal[i], timeout, now);
        PutExecution(i, MarkTimeout(db.execs[i], timeout, now));
        todo := todo - {i};
        count := count + 1;
      }
      assert todo == {};
      SameRowsAs(db.execs, goal);
    }

    // ---------- dispatch_retries ----------

    /** Turns due retries into new attempts; `created` counts them. */
    method DispatchRetries(limit: nat, due: seq<int>, now: int) returns (created: nat)
      requires Valid() && clock <= now && IsDueBatch(db, now, limit, due)
      modifies this
      ensures Valid() && clock == now
      ensures db == TaskStore.DispatchRetries(old(db), now, due)
      ensures created == db.nextExec - old(db).nextExec
    {
      DispatchKeepsOk(db, clock, now, due);
      clock := now;
      created := DispatchAll(due, now);
    }

    method DispatchAll(due: seq<int>, now: int) returns (created: nat)
      requires forall k | 0 <= k < |due| :: Dispatchable(TaskStore.DispatchRetries(db, now, due[..k]), now, due[k])
      modifies this`db
      ensures db == TaskStore.DispatchRetries(old(db), now, due)
      ensures created == db.nextExec - old(db).nextExec
    {
      ghost var s := db;
      created := 0;
      for k := 0 to |due|
        invariant db == TaskStore.DispatchRetries(s, now, due[..k])
        invariant created == db.nextExec - s.nextExec
      {
        assert Dispatchable(db, now, due[k]) && due[..k + 1][..k] == due[..k];
        var n := DispatchOne(due[k], now);
        created := created + n;
      }
      assert due[..|due|] == due;
    }

    /** One due execution: archived, killed, or replaced by its next attempt. */
    method DispatchOne(i: int, now: int) returns (created: nat)
      requires Dispatchable(db, now, i)
      modifies this`db
      ensures db == TaskStore.DispatchOne(old(db), now, i)
      ensures created == db.nextExec - old(db).nextExec
    {
      var e := db.execs[i];
      var t := e.ticket.taskId;
      if Terminal(db.tasks[t].status) {
        PutExecution(i, Archive(e, now));
        created := 0;
      } else if !CanRetry(db.tasks[t], e, now) {
        PutExecution(i, Exhaust(e, now));
        RecordLog(i, ERROR);
        AggregateTaskStatus(t, now);
        created := 0;
      } else {
        var nextAttempt := e.ticket.attempt + 1;
        PutExecution(i, Archive(e, now));
        CreateExecution(t, e.ticket.targetId, e.ticket.serverId, nextAttempt, now);
        db := db.(tasks := db.tasks[t := db.tasks[t].(attempt := nextAttempt)]);
        RecordLog(i, INFO);
        AggregateTaskStatus(t, now);
        created := 1;
      }
    }

    // ---------- fire_due_cron ----------

    /** Creates the batch of every CRON task that has come due; `dueTasks` stands for the cron library. */
    method FireDueCron(dueTasks: set<int>, batch: seq<Firing>, now: int) returns (fired: nat)
      requires Valid() && clock <= now && IsFiringBatch(db, dueTasks, batch)
      modifies this
      ensures Valid() && clock == now && AllFireable(old(db), batch)
      ensures db == TaskStore.FireDueCron(old(db), now, batch)
      ensures fired == |batch|
    {
      FiringKeepsOk(db, clock, now, dueTasks, batch);
      clock := now;
      fired := FireAll(batch, now);
    }

    method FireAll(batch: seq<Firing>, now: int) returns (fired: nat)
      requires forall f | f in batch :: Known(db, f)
      modifies this`db
      ensures db == TaskStore.FireDueCron(old(db), now, batch)
      ensures fired == |batch|
    {
      ghost var s := db;
      fired := 0;
      for k := 0 to |batch|
        invariant fired == k && (forall f | f in batch[..k] :: Known(s, f))
        invariant db == TaskStore.FireDueCron(s, now, batch[..k])
      {
        var f := batch[k];
        PrefixKnown(s, batch, k);
        CreateExecutions(f.taskId, f.targets, now);
        var task := db.tasks[f.taskId];
        db := db.(tasks := db.tasks[f.taskId := task.(status := RUNNING, startedAt := if task.startedAt.Some? then task.startedAt else Some(now))]);
        fired := fired + 1;
      }
      assert batch[..|batch|] == batch;
    }

    // ---------- cleanup_history ----------

    method CleanupHistory(retentionDays: nat, now: int) returns (executions: nat, finished: nat)
      requires Valid() && clock <= now
      modifies this
      ensures Valid() && clock == now
      ensures db == TaskStore.CleanupHistory(old(db), Cutoff(now, retentionDays))
      ensures executions == |old(db).execs| - |db.execs| && finished == |old(db).tasks| - |db.tasks|
    {
      var cutoff := Cutoff(now, retentionDays);
      CleanupKeepsOk(db, clock, now, cutoff);
      clock := now;
      executions, finished := Cleanup(cutoff);
    }

    method Cleanup(cutoff: int) returns (executions: nat, finished: nat)
      modifies this`db
      ensures db == TaskStore.CleanupHistory(old(db), cutoff)
      ensures executions == |old(db).execs| - |db.execs| && finished == |old(db).tasks| - |db.tasks|
    {
      executions := DeleteTerminalBefore(cutoff);
      finished := DeleteFinishedTasksBefore(cutoff);
    }
  }

  // ---------- every operation keeps the invariant ----------

  lemma CreateKeepsOk(s: Store, clock: int, now: int, fleet: Fleet, data: TaskCreate, creator: int, key: Option<string>, order: seq<int>)
    requires StoreOk(s, clock) && clock <= now && SchemaOk(data) && IsOrderOf(order, ServersOf(data))
    ensures StoreOk(s, now)
    ensures var r := TaskStore.CreateTask(s, now, fleet, data, creator, key, order); r.Ok? ==> StoreOk(r.value.0, now)
  {
    StoreOkLater(s, clock, now);
    if TaskStore.CreateTask(s, now, fleet, data, creator, key, order).Ok? {
      CreateSteps(s, now, fleet, data, creator, key, order);
    }
  }

  lemma CancelKeepsOk(s: Store, clock: int, now: int, t: int)
    requires StoreOk(s, clock) && clock <= now
    ensures StoreOk(s, now) && (t in s.tasks ==> NoTies(Rows(s.execs, t)))
    ensures var r := TaskStore.CancelTask(s, now, t); r.Ok? ==> StoreOk(r.value, now)
  {
    StoreOkLater(s, clock, now);
    if t in s.tasks {
      OkMeansNoTies(s, now, t);
    }
    if TaskStore.CancelTask(s, now, t).Ok? {
      CancelSteps(s, now, t);
    }
  }

  lemma ReportKeepsOk(s: Store, clock: int, now: int, server: int, i: int, report: Report)
    requires StoreOk(s, clock) && clock <= now
    ensures StoreOk(s, now)
    ensures i in s.execs && s.execs[i].ticket.taskId in s.tasks ==> NoTies(Rows(s.execs, s.execs[i].ticket.taskId))
    ensures var r := TaskStore.ReportResult(s, now, server, i, report); r.Ok? ==> StoreOk(r.value, now)
  {
    StoreOkLater(s, clock, now);
    if i in s.execs && s.execs[i].ticket.taskId in s.tasks {
      OkMeansNoTies(s, now, s.execs[i].ticket.taskId);
    }
    if TaskStore.ReportResult(s, now, server, i, report).Ok? {
      ReportSteps(s, now, server, i, report);
    }
  }

  lemma FetchKeepsOk(s: Store, clock: int, now: int, server: int, batch: seq<int>)
    requires StoreOk(s, clock) && clock <= now && IsPendingBatch(s, server, batch)
    ensures StoreOk(TaskStore.FetchPending(s, now, SetOf(batch)), now)
  {
    StoreOkLater(s, clock, now);
    FetchSteps(s, now, server, batch);
  }

  lemma ScanKeepsOk(s: Store, clock: int, now: int)
    requires StoreOk(s, clock) && clock <= now
    ensures StoreOk(TaskStore.ScanTimeouts(s, now), now)
    ensures NoTiesAnywhere(s)
  {
    StoreOkLater(s, clock, now);
    ScanSteps(s, now);
    forall t | t in s.tasks ensures NoTies(Rows(s.execs, t)) {
      OkMeansNoTies(s, now, t);
    }
  }

  /** What a turn of the dispatcher relies on: the task exists and attempts stay distinct. */
  ghost predicate Dispatchable(s: Store, now: int, i: int) {
    i in s.execs && s.execs[i].ticket.taskId in s.tasks &&
    NoTies(Rows(TaskStore.DispatchOne(s, now, i).execs, s.execs[i].ticket.taskId))
  }

  lemma DispatchKeepsOk(s: Store, clock: int, now: int, due: seq<int>)
    requires StoreOk(s, clock) && clock <= now && Distinct(due) && forall k | 0 <= k < |due| :: DueExec(s, now, due[k])
    ensures StoreOk(TaskStore.DispatchRetries(s, now, due), now)
    ensures forall k | 0 <= k < |due| :: Dispatchable(TaskStore.DispatchRetries(s, now, due[..k]), now, due[k])
  {
    StoreOkLater(s, clock, now);
    DispatchSteps(s, now, due);
    forall k | 0 <= k < |due| ensures Dispatchable(TaskStore.DispatchRetries(s, now, due[..k]), now, due[k]) {
      TurnIsDispatchable(s, now, due, k);
    }
  }

  lemma TurnIsDispatchable(s: Store, now: int, due: seq<int>, k: nat)
    requires StoreOk(s, now) && Distinct(due) && (forall m | 0 <= m < |due| :: DueExec(s, now, due[m])) && k < |due|
    ensures Dispatchable(TaskStore.DispatchRetries(s, now, due[..k]), now, due[k])
  {
    var r := TaskStore.DispatchRetries(s, now, due[..k]);
    FinishedTasksHaveNoRetries(s, now, due, k);
    DispatchSteps(s, now, due[..k]);
    DispatchOneSteps(r, now, due[k]);
    var t := r.execs[due[k]].ticket.taskId;
    assert t in TaskStore.DispatchOne(r, now, due[k]).tasks;
    OkMeansNoTies(TaskStore.DispatchOne(r, now, due[k]), now, t);
  }

  lemma FiringKeepsOk(s: Store, clock: int, now: int, dueTasks: set<int>, batch: seq<Firing>)
    requires StoreOk(s, clock) && clock <= now && IsFiringBatch(s, dueTasks, batch)
    ensures AllFireable(s, batch) && StoreOk(TaskStore.FireDueCron(s, now, batch), now)
  {
    StoreOkLater(s, clock, now);
    FiringBatchIsFireable(s, dueTasks, batch);
    FireSteps(s, now, batch);
  }

  lemma CleanupKeepsOk(s: Store, clock: int, now: int, cutoff: int)
    requires StoreOk(s, clock) && clock <= now
    ensures StoreOk(TaskStore.CleanupHistory(s, cutoff), now)
  {
    StoreOkLater(s, clock, now);
    CleanupSteps(s, now, cutoff);
  }

  // ---------- lemmas about the loops ----------

  lemma Fewer<T>(before: map<int, T>, ids: set<int>, after: map<int, T>)
    requires ids <= before.Keys && after.Keys == before.Keys - ids
    ensures |ids| == |before| - |after|
  {
    assert before.Keys == ids + after.Keys;
    assert |before| == |before.Keys| && |after| == |after.Keys|;
  }

  lemma WithoutOutdated(s: Store, cutoff: int, ids: set<int>)
    requires forall i :: i in ids <==> i in s.execs && Outdated(s.execs[i], cutoff)
    ensures TaskStore.DeleteTerminalBefore(s, cutoff) ==
            s.(logs := map l | l in s.logs && s.logs[l].executionId !in ids :: s.logs[l],
               execs := map i | i in s.execs && i !in ids :: s.execs[i])
  {
    var r := TaskStore.DeleteTerminalBefore(s, cutoff);
    var logs := map l | l in s.logs && s.logs[l].executionId !in ids :: s.logs[l];
    var execs := map i | i in s.execs && i !in ids :: s.execs[i];
    forall i ensures i in r.execs <==> i in execs {
    }
    assert r.execs == execs;
    forall l ensures l in r.logs <==> l in logs {
    }
    assert r.logs == logs;
  }

  lemma WithoutForgotten(s: Store, cutoff: int, ids: set<int>)
    requires forall t :: t in ids <==> t in s.tasks && Forgotten(s, cutoff, t)
    ensures TaskStore.DeleteFinishedTasksBefore(s, cutoff) ==
            s.(targets := map g | g in s.targets && s.targets[g].taskId !in ids :: s.targets[g],
               tasks := map t | t in s.tasks && t !in ids :: s.tasks[t])
  {
    var r := TaskStore.DeleteFinishedTasksBefore(s, cutoff);
    var targets := map g | g in s.targets && s.targets[g].taskId !in ids :: s.targets[g];
    var tasks := map t | t in s.tasks && t !in ids :: s.tasks[t];
    forall g ensures g in r.targets <==> g in targets {
    }
    assert r.targets == targets;
    forall t ensures t in r.tasks <==> t in tasks {
    }
    assert r.tasks == tasks;
  }

  lemma SameRowsAs(a: map<int, Execution>, b: map<int, Execution>)
    requires a.Keys == b.Keys && forall i | i in a :: a[i] == b[i]
    ensures a == b
  {
    forall i | i in a ensures a[i] == b[i] {
    }
  }

  lemma NoTargets(s: Store, task: Task)
    ensures InsertTask(s, task, []) == s.(tasks := s.tasks[s.nextTask := task], nextTask := s.nextTask + 1)
  {
    assert InsertTask(s, task, []).targets == s.targets;
  }

  lemma OneMoreTarget(s: Store, task: Task, order: seq<int>, k: nat)
    requires k < |order|
    ensures var r := InsertTask(s, task, order[..k]);
            InsertTask(s, task, order[..k + 1]) ==
            r.(targets := r.targets[r.nextTarget := Target(s.nextTask, order[k])], nextTarget := r.nextTarget + 1)
  {
    assert InsertTask(s, task, order[..k + 1]).targets ==
           InsertTask(s, task, order[..k]).targets[s.nextTarget + k := Target(s.nextTask, order[k])];
  }

  lemma EmptyBatch(s: Store, t: int, now: int)
    ensures InsertBatch(s, t, [], now) == s
  {
    assert BatchRows(s, t, [], now) == map[];
  }

  lemma OneMoreExecution(s: Store, t: int, gs: seq<int>, k: nat, now: int)
    requires TargetsKnown(s, gs) && k < |gs|
    ensures TargetsKnown(s, gs[..k]) && TargetsKnown(s, gs[..k + 1])
    ensures InsertBatch(s, t, gs[..k + 1], now) ==
            InsertExec(InsertBatch(s, t, gs[..k], now), NewExecution(t, gs[k], s.targets[gs[k]].serverId, 1, now))
  {
    var e := NewExecution(t, gs[k], s.targets[gs[k]].serverId, 1, now);
    var a, b := BatchRows(s, t, gs[..k + 1], now), BatchRows(s, t, gs[..k], now)[s.nextExec + k := e];
    forall i ensures i in a <==> i in b {
    }
    forall i | i in a ensures a[i] == b[i] {
    }
    assert a == b;
    assert s.execs + a == (s.execs + BatchRows(s, t, gs[..k], now))[s.nextExec + k := e];
  }

  lemma NothingClaimed(s: Store, now: int)
    ensures TaskStore.FetchPending(s, now, SetOf([])) == s
  {
    assert ClaimRows(s.execs, SetOf([]), now) == s.execs;
  }

  /** Claiming one more execution is one more turn of the loop. */
  lemma OneMoreClaim(s: Store, now: int, batch: seq<int>, k: nat)
    requires k < |batch| && batch[k] in s.execs && batch[k] !in batch[..k] && s.execs[batch[k]].ticket.taskId in s.tasks
    ensures var i, t, r := batch[k], s.execs[batch[k]].ticket.taskId, TaskStore.FetchPending(s, now, SetOf(batch[..k]));
            && i in r.execs && r.execs[i] == s.execs[i] && t in r.tasks && r.tasks[t].terms == s.tasks[t].terms
            && TaskStore.FetchPending(s, now, SetOf(batch[..k + 1])) ==
               r.(execs := r.execs[i := MarkRunning(r.execs[i], now)], tasks := r.tasks[t := ClaimTask(r.tasks[t], now)])
  {
    var i, t := batch[k], s.execs[batch[k]].ticket.taskId;
    var before, after := SetOf(batch[..k]), SetOf(batch[..k + 1]);
    assert after == before + {i};
    forall u | u in s.tasks
      ensures Touches(Rows(s.execs, u), after) <==> Touches(Rows(s.execs, u), before) || u == t
    {
      if u == t {
        assert i in Rows(s.execs, u);
      }
    }
    assert ClaimRows(s.execs, after, now) == ClaimRows(s.execs, before, now)[i := MarkRunning(s.execs[i], now)];
  }

  /** The tables after the tasks `done` have been scanned. */
  ghost function ScanOf(s: Store, now: int, done: set<int>): Store {
    s.(execs := ScannedExecs(s, now, done),
       tasks := map t | t in s.tasks :: if t in done then TaskStore.ScanTask(s, ScannedExecs(s, now, done), t, now) else s.tasks[t])
  }

  function ScannedExecs(s: Store, now: int, done: set<int>): map<int, Execution> {
    map i | i in s.execs ::
      if s.execs[i].ticket.taskId in done && Scanned(s, s.execs[i], now)
      then MarkTimeout(s.execs[i], s.tasks[s.execs[i].ticket.taskId].terms.timeoutSeconds, now) else s.execs[i]
  }

  function ExpiredOf(s: Store, now: int, done: set<int>): set<int> {
    set i | i in s.execs && s.execs[i].ticket.taskId in done && Scanned(s, s.execs[i], now)
  }

  lemma ScanNothing(s: Store, now: int)
    ensures ScanOf(s, now, {}) == s && ExpiredOf(s, now, {}) == {}
  {
    assert ScannedExecs(s, now, {}) == s.execs;
  }

  lemma SameTicketsNoTies(a: map<int, Execution>, b: map<int, Execution>, t: int)
    requires a.Keys == b.Keys && (forall i | i in a :: a[i].ticket == b[i].ticket) && NoTies(Rows(a, t))
    ensures NoTies(Rows(b, t))
  {
    var old_, new_ := Rows(a, t), Rows(b, t);
    forall i, k | i in new_ && k in new_ && i != k && SameTarget(new_[i], new_[k])
      ensures new_[i].ticket.attempt != new_[k].ticket.attempt
    {
      assert i in old_ && k in old_ && SameTarget(old_[i], old_[k]);
    }
  }

  predicate TimedOutRow(e: Execution, f: Execution, timeout: nat, now: int) {
    f == MarkTimeout(e, timeout, now)
  }

  lemma ScannedRows(s: Store, now: int, t: int, expired: set<int>)
    requires t in s.tasks && s.tasks[t].status == RUNNING
    requires forall i :: i in expired <==>
      i in s.execs && s.execs[i].ticket.taskId == t && IsExpired(s.execs[i], s.tasks[t].terms.timeoutSeconds, now)
    ensures expired == ExpiredOf(s, now, {t})
    ensures forall i | i in s.execs ::
      if i in expired then TimedOutRow(s.execs[i], ScannedExecs(s, now, {t})[i], s.tasks[t].terms.timeoutSeconds, now)
      else ScannedExecs(s, now, {t})[i] == s.execs[i]
  {
    forall i ensures i in expired <==> i in ExpiredOf(s, now, {t}) {
    }
  }

  /** Scanning one task touches that task only, and only if something of it has expired. */
  lemma ScannedTask(s: Store, now: int, t: int)
    requires t in s.tasks && s.tasks[t].status == RUNNING
    ensures var r := ScanOf(s, now, {t});
            r.tasks == if ExpiredOf(s, now, {t}) == {} then s.tasks
                       else s.tasks[t := AggregatedTask(s.tasks[t], Rows(r.execs, t), now)]
  {
    var rows, timeout := Rows(s.execs, t), s.tasks[t].terms.timeoutSeconds;
    if HasExpired(rows, timeout, now) {
      var i :| i in rows && IsExpired(rows[i], timeout, now);
      assert i in ExpiredOf(s, now, {t});
    } else {
      forall i | i in s.execs && s.execs[i].ticket.taskId == t
        ensures i !in ExpiredOf(s, now, {t})
      {
        assert i in rows;
      }
      assert ExpiredOf(s, now, {t}) == {};
    }
    var r := ScanOf(s, now, {t});
    forall u | u in s.tasks
      ensures r.tasks[u] == if u == t && ExpiredOf(s, now, {t}) != {} then AggregatedTask(s.tasks[t], Rows(r.execs, t), now) else s.tasks[u]
    {
    }
  }

  lemma ScanKeepsTickets(s: Store, now: int, done: set<int>)
    ensures var r := ScanOf(s, now, done);
            r.execs.Keys == s.execs.Keys && r.tasks.Keys == s.tasks.Keys
            && (forall i | i in s.execs :: r.execs[i].ticket == s.execs[i].ticket)
            && (forall i | i in s.execs && s.execs[i].ticket.taskId !in done :: r.execs[i] == s.execs[i])
            && (forall t | t in s.tasks && t !in done :: r.tasks[t] == s.tasks[t])
  {
  }

  lemma SameRows(a: map<int, Execution>, b: map<int, Execution>, t: int)
    requires a.Keys == b.Keys
    requires forall i | i in a && (a[i].ticket.taskId == t || b[i].ticket.taskId == t) :: a[i] == b[i]
    ensures Rows(a, t) == Rows(b, t)
  {
    forall i ensures i in Rows(a, t) <==> i in Rows(b, t) {
      assert i in a <==> i in b;
    }
    assert Rows(a, t).Keys == Rows(b, t).Keys;
    forall i | i in Rows(a, t) ensures Rows(a, t)[i] == Rows(b, t)[i] {
    }
  }

  lemma ExpiredSplit(s: Store, r: Store, now: int, done: set<int>, t: int)
    requires r.execs.Keys == s.execs.Keys && t in s.tasks && t in r.tasks && r.tasks[t] == s.tasks[t] && t !in done
    requires forall i | i in s.execs :: r.execs[i].ticket == s.execs[i].ticket
    requires forall i | i in s.execs && s.execs[i].ticket.taskId == t :: r.execs[i] == s.execs[i]
    ensures |ExpiredOf(s, now, done + {t})| == |ExpiredOf(s, now, done)| + |ExpiredOf(r, now, {t})|
  {
    var all, before, more := ExpiredOf(s, now, done + {t}), ExpiredOf(s, now, done), ExpiredOf(r, now, {t});
    forall i ensures i in all <==> i in before + more {
      assert i in s.execs <==> i in r.execs;
    }
    assert all == before + more;
    forall i | i in before ensures i !in more {
    }
    assert before !! more;
  }

  lemma ScanExecsOneMore(s: Store, now: int, done: set<int>, t: int)
    requires t in s.tasks && t !in done
    ensures ScannedExecs(ScanOf(s, now, done), now, {t}) == ScannedExecs(s, now, done + {t})
  {
    var r := ScanOf(s, now, done);
    var a, b := ScannedExecs(r, now, {t}), ScannedExecs(s, now, done + {t});
    ScanKeepsTickets(s, now, done);
    assert a.Keys == b.Keys;
    forall i | i in s.execs ensures a[i] == b[i] {
      assert r.execs[i].ticket == s.execs[i].ticket;
    }
  }

  /** Scanning one more task is one more turn of the loop. */
  lemma ScanOneMore(s: Store, now: int, done: set<int>, t: int)
    requires t in s.tasks && t !in done && s.tasks[t].status == RUNNING && NoTiesAnywhere(s)
    ensures var r := ScanOf(s, now, done);
            && NoTies(Rows(r.execs, t)) && t in r.tasks && r.tasks[t] == s.tasks[t]
            && ScanOf(r, now, {t}) == ScanOf(s, now, done + {t})
            && |ExpiredOf(s, now, done + {t})| == |ExpiredOf(s, now, done)| + |ExpiredOf(r, now, {t})|
  {
    var r := ScanOf(s, now, done);
    ScanKeepsTickets(s, now, done);
    SameRows(r.execs, s.execs, t);
    var a, b := ScanOf(r, now, {t}), ScanOf(s, now, done + {t});
    ScanExecsOneMore(s, now, done, t);
    forall u | u in s.tasks ensures a.tasks[u] == b.tasks[u] {
      if u in done {
        assert a.tasks[u] == r.tasks[u];
        SameRows(ScannedExecs(s, now, done), b.execs, u);
      }
    }
    assert a.tasks == b.tasks;
    ExpiredSplit(s, r, now, done, t);
  }

  /** Having scanned every RUNNING task is having scanned the tables. */
  lemma ScanAll(s: Store, now: int, running: set<int>)
    requires running == set t | t in s.tasks && s.tasks[t].status == RUNNING
    ensures ScanOf(s, now, running) == TaskStore.ScanTimeouts(s, now)
    ensures ExpiredOf(s, now, running) == set i | i in s.execs && Scanned(s, s.execs[i], now)
  {
    forall i | i in s.execs ensures ScannedExecs(s, now, running)[i] == ScanExecs(s, now)[i] {
    }
    assert ScannedExecs(s, now, running) == ScanExecs(s, now);
    forall i ensures i in ExpiredOf(s, now, running) <==> i in s.execs && Scanned(s, s.execs[i], now) {
    }
  }

  lemma PrefixKnown(s: Store, batch: seq<Firing>, k: nat)
    requires k < |batch| && forall f | f in batch :: Known(s, f)
    ensures (forall f | f in batch[..k + 1] :: Known(s, f)) && batch[..k + 1][..k] == batch[..k] && Known(s, batch[k])
  {
    assert forall f | f in batch[..k + 1] :: f in batch;
  }
}
