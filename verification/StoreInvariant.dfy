/**
 * The invariant of the task tables, what may change from one moment to a later one, and why every
 * operation of TaskService keeps the one and respects the other.
 */
module StoreInvariant {
  import opened Wrappers
  import opened TaskModel
  import opened JobInvariant
  import opened JobFacts
  import opened JobProgress
  import opened TaskStore

  // ---------- the invariant ----------

  predicate ExecRefsOk(s: Store, e: Execution) {
    e.ticket.taskId in s.tasks && e.ticket.targetId in s.targets &&
    s.targets[e.ticket.targetId] == Target(e.ticket.taskId, e.ticket.serverId)
  }

  /** Ids are below their counters and no row refers to a missing parent. */
  predicate RefsOk(s: Store) {
    (forall t | t in s.tasks :: 0 <= t < s.nextTask) &&
    (forall g | g in s.targets :: 0 <= g < s.nextTarget && s.targets[g].taskId in s.tasks) &&
    (forall i | i in s.execs :: 0 <= i < s.nextExec && ExecRefsOk(s, s.execs[i])) &&
    (forall l | l in s.logs :: 0 <= l < s.nextLog && s.logs[l].executionId in s.execs) &&
    s.nextTask >= 0 && s.nextTarget >= 0 && s.nextExec >= 0 && s.nextLog >= 0
  }

  ghost predicate JobsOk(s: Store, now: int) {
    forall t | t in s.tasks :: JobOk(JobOf(s, t), now)
  }

  ghost predicate StoreOk(s: Store, now: int) {
    RefsOk(s) && KeysUnique(s) && JobsOk(s, now)
  }

  // ---------- what may change ----------

  predicate JobsEvolve(s: Store, r: Store) {
    forall t | t in s.tasks && t in r.tasks :: JobEvolves(JobOf(s, t), JobOf(r, t), s.nextExec)
  }

  predicate ExecsEvolve(s: Store, r: Store) {
    forall i | i in r.execs :: if i in s.execs then RowEvolves(s.execs[i], r.execs[i]) else s.nextExec <= i
  }

  predicate TasksEvolve(s: Store, r: Store) {
    (forall t | t in r.tasks && t !in s.tasks :: s.nextTask <= t) &&
    (forall t | t in s.tasks && t !in r.tasks :: s.tasks[t].terms.schedule == ONCE)
  }

  predicate CountersEvolve(s: Store, r: Store) {
    s.nextTask <= r.nextTask && s.nextTarget <= r.nextTarget && s.nextExec <= r.nextExec && s.nextLog <= r.nextLog
  }

  /** `r` is a possible later state of the tables `s`. */
  predicate StoreEvolves(s: Store, r: Store) {
    CountersEvolve(s, r) && TasksEvolve(s, r) && ExecsEvolve(s, r) && JobsEvolve(s, r)
  }

  ghost predicate SpendsFrom(j: Job, k: Job, low: int) {
    forall n: nat | n >= low :: Spends(j, k, n)
  }

  /** No task's measure rises, and that of a task with a moved execution falls. */
  ghost predicate StoreSpends(s: Store, r: Store) {
    forall t | t in s.tasks && t in r.tasks :: SpendsFrom(JobOf(s, t), JobOf(r, t), r.nextExec)
  }

  /** A legal step from `s` to `r` at time `now`. */
  ghost predicate Steps(s: Store, r: Store, now: int) {
    StoreOk(r, now) && StoreEvolves(s, r) && StoreSpends(s, r)
  }

  // ---------- order laws ----------

  lemma StoreOkLater(s: Store, now: int, later: int)
    requires StoreOk(s, now) && now <= later
    ensures StoreOk(s, later)
  {
    forall t | t in s.tasks ensures JobOk(JobOf(s, t), later) {
      JobOkLater(JobOf(s, t), now, later);
    }
  }

  lemma StaysPut(s: Store, now: int)
    requires StoreOk(s, now)
    ensures Steps(s, s, now)
  {
    forall t | t in s.tasks ensures JobEvolves(JobOf(s, t), JobOf(s, t), s.nextExec) {
      EvolvesReflexive(JobOf(s, t), s.nextExec);
    }
  }

  lemma RowIdsBelow(s: Store, t: int)
    requires RefsOk(s) && t in s.tasks
    ensures IdsBelow(JobOf(s, t).rows, s.nextExec)
  {
  }

  lemma SpendsTransitive(j: Job, k: Job, m: Job, n: nat, bound: int)
    requires Spends(j, k, n) && Spends(k, m, n) && JobEvolves(k, m, bound)
    requires forall i | i in j.rows :: i < bound
    ensures Spends(j, m, n)
  {
    if Moved(j, m) {
      var i :| i in m.rows && (i !in j.rows || j.rows[i].status != m.rows[i].status);
      assert i in k.rows || bound <= i;
      assert Moved(j, k) || Moved(k, m);
    }
  }

  lemma EvolutionTransitive(s: Store, r: Store, q: Store)
    requires RefsOk(s) && RefsOk(r) && RefsOk(q) && StoreEvolves(s, r) && StoreEvolves(r, q)
    ensures StoreEvolves(s, q)
  {
    forall i | i in q.execs
      ensures if i in s.execs then RowEvolves(s.execs[i], q.execs[i]) else s.nextExec <= i
    {
      if i in s.execs {
        assert i in r.execs;
        RowEvolvesTransitive(s.execs[i], r.execs[i], q.execs[i]);
      }
    }
    forall t | t in s.tasks && t in q.tasks
      ensures JobEvolves(JobOf(s, t), JobOf(q, t), s.nextExec)
    {
      assert t in r.tasks;
      RowIdsBelow(s, t);
      EvolvesTransitive(JobOf(s, t), JobOf(r, t), JobOf(q, t), s.nextExec, r.nextExec);
    }
    forall t | t in s.tasks && t !in q.tasks ensures s.tasks[t].terms.schedule == ONCE {
      if t in r.tasks {
        assert JobEvolves(JobOf(s, t), JobOf(r, t), s.nextExec);
      }
    }
  }

  lemma StepsTransitive(s: Store, r: Store, q: Store, now: int)
    requires RefsOk(s) && Steps(s, r, now) && Steps(r, q, now)
    ensures Steps(s, q, now)
  {
    EvolutionTransitive(s, r, q);
    forall t, n: nat | t in s.tasks && t in q.tasks && n >= q.nextExec
      ensures Spends(JobOf(s, t), JobOf(q, t), n)
    {
      assert t in r.tasks;
      RowIdsBelow(s, t);
      assert SpendsFrom(JobOf(s, t), JobOf(r, t), r.nextExec) && SpendsFrom(JobOf(r, t), JobOf(q, t), q.nextExec);
      SpendsTransitive(JobOf(s, t), JobOf(r, t), JobOf(q, t), n, r.nextExec);
    }
  }

  // ---------- lifting steps of single tasks ----------

  /** What an operation has to show about each task it leaves in place. */
  ghost predicate JobSteps(s: Store, r: Store, t: int, now: int)
    requires t in s.tasks && t in r.tasks
  {
    JobOk(JobOf(r, t), now) && JobEvolves(JobOf(s, t), JobOf(r, t), s.nextExec) &&
    SpendsFrom(JobOf(s, t), JobOf(r, t), r.nextExec)
  }

  lemma SameJobSteps(s: Store, r: Store, t: int, now: int)
    requires StoreOk(s, now) && t in s.tasks && t in r.tasks && JobOf(r, t) == JobOf(s, t)
    ensures JobSteps(s, r, t, now)
  {
    assert JobOk(JobOf(s, t), now);
    EvolvesReflexive(JobOf(s, t), s.nextExec);
  }

  /** A change that creates no execution of task `t` spends. */
  lemma SettledJobSteps(s: Store, r: Store, t: int, now: int)
    requires StoreOk(s, now) && t in s.tasks && t in r.tasks && s.nextExec <= r.nextExec
    requires JobOk(JobOf(r, t), now) && JobEvolves(JobOf(s, t), JobOf(r, t), s.nextExec)
    requires JobOf(r, t).rows.Keys <= JobOf(s, t).rows.Keys
    ensures JobSteps(s, r, t, now)
  {
    assert JobOk(JobOf(s, t), now);
    RowIdsBelow(s, t);
    forall n: nat | n >= r.nextExec ensures Spends(JobOf(s, t), JobOf(r, t), n) {
      SettlingSpends(JobOf(s, t), JobOf(r, t), now, n, s.nextExec);
    }
  }

  lemma LiftSteps(s: Store, r: Store, now: int)
    requires StoreOk(s, now) && RefsOk(r) && CountersEvolve(s, r) && ExecsEvolve(s, r)
    requires r.tasks.Keys == s.tasks.Keys
    requires forall t | t in s.tasks :: JobSteps(s, r, t, now)
    ensures Steps(s, r, now)
  {
    forall t | t in r.tasks ensures r.tasks[t].terms == s.tasks[t].terms {
      assert JobSteps(s, r, t, now);
    }
    forall t | t in r.tasks ensures JobOk(JobOf(r, t), now) {
      assert JobSteps(s, r, t, now);
    }
  }

  // ---------- the rows of a task ----------

  lemma RowsPut(execs: map<int, Execution>, i: int, e: Execution, t: int)
    requires i in execs ==> execs[i].ticket.taskId == e.ticket.taskId
    ensures Rows(execs[i := e], t) == if e.ticket.taskId == t then Rows(execs, t)[i := e] else Rows(execs, t)
  {
  }

  lemma TasksOfOthers(s: Store, now: int, i: int)
    requires StoreOk(s, now) && i in s.execs
    ensures s.execs[i].ticket.taskId in s.tasks
    ensures i in JobOf(s, s.execs[i].ticket.taskId).rows
    ensures JobOk(JobOf(s, s.execs[i].ticket.taskId), now)
    ensures RowOk(s.tasks[s.execs[i].ticket.taskId], s.execs[i], now)
  {
    assert ExecRefsOk(s, s.execs[i]);
    var j := JobOf(s, s.execs[i].ticket.taskId);
    assert RowOk(j.task, j.rows[i], now);
  }

  // ---------- confirm_task ----------

  lemma ConfirmJobSteps(s: Store, now: int, t: int, operator: int, u: int)
    requires StoreOk(s, now) && ConfirmTask(s, now, t, operator).Ok? && u in s.tasks
    ensures JobSteps(s, ConfirmTask(s, now, t, operator).value, u, now)
  {
    var r := ConfirmTask(s, now, t, operator).value;
    if u == t {
      assert JobOf(r, t) == Confirmed(JobOf(s, t), now, operator);
      ConfirmedEvolves(JobOf(s, t), now, operator, s.nextExec);
      SettledJobSteps(s, r, t, now);
    } else {
      SameJobSteps(s, r, u, now);
    }
  }

  lemma ConfirmRefs(s: Store, now: int, t: int, operator: int)
    requires RefsOk(s) && ConfirmTask(s, now, t, operator).Ok?
    ensures var r := ConfirmTask(s, now, t, operator).value; RefsOk(r) && CountersEvolve(s, r) && ExecsEvolve(s, r)
  {
  }

  lemma ConfirmSteps(s: Store, now: int, t: int, operator: int)
    requires StoreOk(s, now) && ConfirmTask(s, now, t, operator).Ok?
    ensures Steps(s, ConfirmTask(s, now, t, operator).value, now)
  {
    var r := ConfirmTask(s, now, t, operator).value;
    ConfirmRefs(s, now, t, operator);
    forall u | u in s.tasks ensures JobSteps(s, r, u, now) {
      ConfirmJobSteps(s, now, t, operator, u);
    }
    LiftSteps(s, r, now);
  }

  // ---------- cancel_task ----------

  lemma CancelRowsOf(execs: map<int, Execution>, t: int, now: int, u: int)
    ensures Rows(CancelExecs(execs, t, now), u) == if u == t then CancelRows(Rows(execs, t), now) else Rows(execs, u)
  {
    assert forall i | i in execs :: CancelExecs(execs, t, now)[i].ticket == execs[i].ticket;
  }

  lemma CancelJobSteps(s: Store, now: int, t: int, u: int)
    requires StoreOk(s, now) && CancelTask(s, now, t).Ok? && u in s.tasks
    ensures JobSteps(s, CancelTask(s, now, t).value, u, now)
  {
    var r := CancelTask(s, now, t).value;
    CancelRowsOf(s.execs, t, now, u);
    if u == t {
      var j := JobOf(s, t);
      assert JobOf(r, t) == Cancelled(j, now);
      CancelledOk(j, now);
      CancelledEvolves(j, now, s.nextExec);
      SettledJobSteps(s, r, t, now);
    } else {
      SameJobSteps(s, r, u, now);
    }
  }

  lemma CancelSteps(s: Store, now: int, t: int)
    requires StoreOk(s, now) && CancelTask(s, now, t).Ok?
    ensures Steps(s, CancelTask(s, now, t).value, now)
  {
    var r := CancelTask(s, now, t).value;
    forall u | u in s.tasks ensures JobSteps(s, r, u, now) {
      CancelJobSteps(s, now, t, u);
    }
    CancelRefs(s, now, t);
    LiftSteps(s, r, now);
  }

  lemma CancelRefs(s: Store, now: int, t: int)
    requires RefsOk(s) && CancelTask(s, now, t).Ok?
    ensures RefsOk(CancelTask(s, now, t).value) && ExecsEvolve(s, CancelTask(s, now, t).value)
  {
    var r := CancelTask(s, now, t).value;
    forall i | i in r.execs ensures RowEvolves(s.execs[i], r.execs[i]) && ExecRefsOk(r, r.execs[i]) {
      assert ExecRefsOk(s, s.execs[i]);
    }
  }

  // ---------- fetch_pending ----------

  lemma ClaimRowsOf(execs: map<int, Execution>, claimed: set<int>, now: int, t: int)
    ensures Rows(ClaimRows(execs, claimed, now), t) == ClaimRows(Rows(execs, t), claimed, now)
    ensures !Touches(Rows(execs, t), claimed) ==> ClaimRows(Rows(execs, t), claimed, now) == Rows(execs, t)
  {
    var after := ClaimRows(execs, claimed, now);
    assert forall i | i in execs :: after[i].ticket == execs[i].ticket;
    assert Rows(after, t).Keys == Rows(execs, t).Keys;
    if !Touches(Rows(execs, t), claimed) {
      assert forall i | i in Rows(execs, t) :: i !in claimed;
    }
  }

  lemma FetchJobSteps(s: Store, now: int, server: int, batch: seq<int>, t: int)
    requires StoreOk(s, now) && IsPendingBatch(s, server, batch) && t in s.tasks
    ensures JobSteps(s, FetchPending(s, now, SetOf(batch)), t, now)
  {
    var claimed := SetOf(batch);
    var r := FetchPending(s, now, claimed);
    var j := JobOf(s, t);
    assert JobOk(j, now);
    assert forall i | i in claimed :: Claimable(s, server, i);
    ClaimRowsOf(s.execs, claimed, now, t);
    assert JobOf(r, t) == Claimed(j, claimed, now);
    ClaimedOk(j, claimed, now);
    ClaimedEvolves(j, claimed, now, s.nextExec);
    SettledJobSteps(s, r, t, now);
  }

  lemma FetchRefs(s: Store, now: int, server: int, batch: seq<int>)
    requires RefsOk(s) && IsPendingBatch(s, server, batch)
    ensures RefsOk(FetchPending(s, now, SetOf(batch))) && ExecsEvolve(s, FetchPending(s, now, SetOf(batch)))
  {
    var r := FetchPending(s, now, SetOf(batch));
    assert forall i | i in SetOf(batch) :: Claimable(s, server, i);
    forall i | i in r.execs ensures RowEvolves(s.execs[i], r.execs[i]) && ExecRefsOk(r, r.execs[i]) {
      assert ExecRefsOk(s, s.execs[i]);
    }
  }

  lemma FetchSteps(s: Store, now: int, server: int, batch: seq<int>)
    requires StoreOk(s, now) && IsPendingBatch(s, server, batch)
    ensures Steps(s, FetchPending(s, now, SetOf(batch)), now)
  {
    var r := FetchPending(s, now, SetOf(batch));
    forall t | t in s.tasks ensures JobSteps(s, r, t, now) {
      FetchJobSteps(s, now, server, batch, t);
    }
    FetchRefs(s, now, server, batch);
    LiftSteps(s, r, now);
  }

  // ---------- report_result ----------

  lemma RecordProjects(s: Store, i: int, e: Execution, level: Level, t: int, now: int, u: int)
    requires i in s.execs && t in s.tasks && u in s.tasks && s.execs[i].ticket == e.ticket && e.ticket.taskId == t
    ensures i in JobOf(s, t).rows
    ensures JobOf(Record(s, i, e, level, t, now), u) ==
            if u == t then Aggregated(JobOf(s, t).(rows := JobOf(s, t).rows[i := e]), now) else JobOf(s, u)
  {
    RowsPut(s.execs, i, e, u);
  }

  /** Replacing one execution, and adding a log line about it, keeps all references. */
  lemma RecordRefs(s: Store, i: int, e: Execution, level: Level, t: int, now: int)
    requires RefsOk(s) && i in s.execs && t in s.tasks && RowEvolves(s.execs[i], e)
    ensures var r := Record(s, i, e, level, t, now);
            RefsOk(r) && ExecsEvolve(s, r) && CountersEvolve(s, r) && r.tasks.Keys == s.tasks.Keys
  {
    var r := Record(s, i, e, level, t, now);
    forall k | k in r.execs ensures ExecRefsOk(r, r.execs[k]) {
      assert ExecRefsOk(s, s.execs[k]);
    }
  }

  /** Recording a legal result of an unfinished execution is a legal step. */
  lemma RecordSteps(s: Store, i: int, e: Execution, level: Level, t: int, now: int)
    requires StoreOk(s, now) && i in s.execs && t in s.tasks && s.execs[i].ticket.taskId == t
    requires s.execs[i].ticket == e.ticket && RowEvolves(s.execs[i], e) && i in JobOf(s, t).rows
    requires var k := Aggregated(JobOf(s, t).(rows := JobOf(s, t).rows[i := e]), now);
             JobOk(k, now) && JobEvolves(JobOf(s, t), k, s.nextExec)
    ensures Steps(s, Record(s, i, e, level, t, now), now)
  {
    var r := Record(s, i, e, level, t, now);
    RecordRefs(s, i, e, level, t, now);
    forall u | u in s.tasks ensures JobSteps(s, r, u, now) {
      RecordProjects(s, i, e, level, t, now, u);
      if u == t {
        SettledJobSteps(s, r, t, now);
      } else {
        SameJobSteps(s, r, u, now);
      }
    }
    LiftSteps(s, r, now);
  }

  lemma SettleSteps(s: Store, now: int, i: int, report: Report, level: Level, t: int)
    requires StoreOk(s, now) && i in s.execs && !Terminal(s.execs[i].status)
    requires s.execs[i].ticket.taskId == t && t in s.tasks
    ensures Steps(s, Record(s, i, Settle(s.tasks[t], s.execs[i], report, now), level, t, now), now)
  {
    TasksOfOthers(s, now, i);
    var e := Settle(s.tasks[t], s.execs[i], report, now);
    SettleAdvances(s.tasks[t], s.execs[i], report, now);
    AdvancesEvolves(s.tasks[t], s.execs[i], e, now);
    ReportedOk(JobOf(s, t), i, report, now);
    ReportedEvolves(JobOf(s, t), i, report, now, s.nextExec);
    RecordSteps(s, i, e, level, t, now);
  }

  lemma ReportSteps(s: Store, now: int, server: int, i: int, report: Report)
    requires StoreOk(s, now) && ReportResult(s, now, server, i, report).Ok?
    ensures Steps(s, ReportResult(s, now, server, i, report).value, now)
  {
    if Terminal(s.execs[i].status) {
      StaysPut(s, now);
    } else {
      SettleSteps(s, now, i, report, if report.status == "SUCCESS" then INFO else ERROR, s.execs[i].ticket.taskId);
    }
  }

  // ---------- scan_timeouts ----------

  lemma ScanRowsOf(s: Store, now: int, t: int)
    requires t in s.tasks
    ensures var rows, task := Rows(s.execs, t), s.tasks[t];
            Rows(ScanExecs(s, now), t) ==
            if task.status == RUNNING then TimeoutRows(rows, task.terms.timeoutSeconds, now) else rows
  {
    var after, rows := Rows(ScanExecs(s, now), t), Rows(s.execs, t);
    assert forall i | i in s.execs :: ScanExecs(s, now)[i].ticket == s.execs[i].ticket;
    assert after.Keys == rows.Keys;
    assert forall i | i in rows :: Scanned(s, s.execs[i], now) <==> s.tasks[t].status == RUNNING && IsExpired(rows[i], s.tasks[t].terms.timeoutSeconds, now);
  }

  lemma ScanSteps(s: Store, now: int)
    requires StoreOk(s, now)
    ensures Steps(s, ScanTimeouts(s, now), now)
  {
    var r := ScanTimeouts(s, now);
    forall t | t in s.tasks ensures JobSteps(s, r, t, now) {
      ScanJobSteps(s, now, t);
    }
    ScanRefs(s, now);
    LiftSteps(s, r, now);
  }

  lemma ScanJobSteps(s: Store, now: int, t: int)
    requires StoreOk(s, now) && t in s.tasks
    ensures JobSteps(s, ScanTimeouts(s, now), t, now)
  {
    var j := JobOf(s, t);
    assert JobOk(j, now);
    ScanRowsOf(s, now, t);
    ScanProjects(s, now, t);
    TimedOutOk(j, now);
    TimedOutEvolves(j, now, s.nextExec);
    SettledJobSteps(s, ScanTimeouts(s, now), t, now);
  }

  lemma ScanRefs(s: Store, now: int)
    requires RefsOk(s)
    ensures var r := ScanTimeouts(s, now); RefsOk(r) && CountersEvolve(s, r) && ExecsEvolve(s, r)
  {
    var r := ScanTimeouts(s, now);
    forall i | i in r.execs ensures RowEvolves(s.execs[i], r.execs[i]) && ExecRefsOk(r, r.execs[i]) {
      assert ExecRefsOk(s, s.execs[i]);
      TimeoutEvolves(s.execs[i], s.tasks[s.execs[i].ticket.taskId].terms.timeoutSeconds, now);
    }
  }

  lemma ScanProjects(s: Store, now: int, t: int)
    requires t in s.tasks
    ensures JobOf(ScanTimeouts(s, now), t) == TimedOut(JobOf(s, t), now)
  {
    var rows, timeout := Rows(s.execs, t), s.tasks[t].terms.timeoutSeconds;
    ScanRowsOf(s, now, t);
    if !HasExpired(rows, timeout, now) {
      assert forall i | i in rows :: !IsExpired(rows[i], timeout, now);
      assert TimeoutRows(rows, timeout, now) == rows;
    }
  }

  // ---------- dispatch_retries ----------

  /** A due execution belongs to an unfinished task. */
  lemma DueMeansOpen(s: Store, now: int, i: int)
    requires StoreOk(s, now) && DueExec(s, now, i)
    ensures s.execs[i].ticket.taskId in s.tasks && !Terminal(s.tasks[s.execs[i].ticket.taskId].status)
    ensures Due(JobOf(s, s.execs[i].ticket.taskId), i, now)
  {
    TasksOfOthers(s, now, i);
    OpenRowMeansOpenTask(JobOf(s, s.execs[i].ticket.taskId), now, i);
  }

  lemma GiveUpSteps(s: Store, now: int, i: int, t: int)
    requires StoreOk(s, now) && DueExec(s, now, i) && t in s.tasks && s.execs[i].ticket.taskId == t
    requires !CanRetry(s.tasks[t], s.execs[i], now)
    ensures Steps(s, Record(s, i, Exhaust(s.execs[i], now), ERROR, t, now), now)
  {
    DueMeansOpen(s, now, i);
    assert JobOk(JobOf(s, t), now);
    RedispatchedOk(JobOf(s, t), i, s.nextExec, now);
    RedispatchedEvolves(JobOf(s, t), i, s.nextExec, now);
    RetryEvolves(s.execs[i], now);
    RecordSteps(s, i, Exhaust(s.execs[i], now), ERROR, t, now);
  }

  /** A retry is a turn on the task the execution belongs to and touches no other task. */
  lemma RetryProjects(s: Store, now: int, i: int, t: int, u: int)
    requires s.nextExec !in s.execs && i in s.execs && t in s.tasks && u in s.tasks && s.execs[i].ticket.taskId == t
    ensures var task, rows := s.tasks[t], Rows(s.execs, t);
            i in rows && JobOf(Retry(s, now, i, t), u) ==
            if u == t then Aggregated(JobOf(s, t).(rows := RetryRows(rows, i, s.nextExec, now),
                                                   task := task.(attempt := s.execs[i].ticket.attempt + 1)), now)
            else JobOf(s, u)
  {
    RowsPut(s.execs, i, Archive(s.execs[i], now), u);
    RowsPut(s.execs[i := Archive(s.execs[i], now)], s.nextExec, NextAttempt(s.execs[i], now), u);
  }

  lemma RetryRefs(s: Store, now: int, i: int, t: int)
    requires RefsOk(s) && DueExec(s, now, i) && t in s.tasks
    ensures var r := Retry(s, now, i, t);
            RefsOk(r) && ExecsEvolve(s, r) && CountersEvolve(s, r) && r.tasks.Keys == s.tasks.Keys
  {
    var r := Retry(s, now, i, t);
    RetryEvolves(s.execs[i], now);
    assert ExecRefsOk(s, s.execs[i]);
    forall k | k in r.execs ensures 0 <= k < r.nextExec && ExecRefsOk(r, r.execs[k]) {
      if k != s.nextExec {
        assert ExecRefsOk(s, s.execs[k]);
      }
    }
  }

  lemma RetryIsTurn(s: Store, now: int, i: int, t: int)
    requires s.nextExec !in s.execs && i in s.execs && t in s.tasks && s.execs[i].ticket.taskId == t
    requires CanRetry(s.tasks[t], s.execs[i], now) && !Terminal(s.tasks[t].status)
    ensures t in Retry(s, now, i, t).tasks && i in JobOf(s, t).rows
    ensures JobOf(Retry(s, now, i, t), t) == Redispatched(JobOf(s, t), i, s.nextExec, now)
  {
    RetryProjects(s, now, i, t, t);
  }

  lemma RetryJobSteps(s: Store, now: int, i: int, t: int)
    requires StoreOk(s, now) && DueExec(s, now, i) && t in s.tasks && s.execs[i].ticket.taskId == t
    requires CanRetry(s.tasks[t], s.execs[i], now)
    ensures t in Retry(s, now, i, t).tasks
    ensures JobSteps(s, Retry(s, now, i, t), t, now)
  {
    DueMeansOpen(s, now, i);
    RetryIsTurn(s, now, i, t);
    TurnJobSteps(s, Retry(s, now, i, t), now, i, t);
  }

  lemma TurnJobSteps(s: Store, r: Store, now: int, i: int, t: int)
    requires StoreOk(s, now) && t in s.tasks && Due(JobOf(s, t), i, now)
    requires t in r.tasks && r.nextExec == s.nextExec + 1 && JobOf(r, t) == Redispatched(JobOf(s, t), i, s.nextExec, now)
    ensures JobSteps(s, r, t, now)
  {
    assert JobOk(JobOf(s, t), now);
    RowIdsBelow(s, t);
    RedispatchedStep(JobOf(s, t), i, s.nextExec, now);
  }

  lemma RetrySteps(s: Store, now: int, i: int, t: int)
    requires StoreOk(s, now) && DueExec(s, now, i) && t in s.tasks && s.execs[i].ticket.taskId == t
    requires CanRetry(s.tasks[t], s.execs[i], now)
    ensures Steps(s, Retry(s, now, i, t), now)
  {
    var r := Retry(s, now, i, t);
    RetryRefs(s, now, i, t);
    forall u | u in s.tasks ensures JobSteps(s, r, u, now) {
      if u == t {
        RetryJobSteps(s, now, i, t);
      } else {
        RetryProjects(s, now, i, t, u);
        SameJobSteps(s, r, u, now);
      }
    }
    LiftSteps(s, r, now);
  }

  lemma DispatchOneSteps(s: Store, now: int, i: int)
    requires StoreOk(s, now) && DueExec(s, now, i)
    ensures Steps(s, DispatchOne(s, now, i), now)
  {
    DueMeansOpen(s, now, i);
    var t := s.execs[i].ticket.taskId;
    if CanRetry(s.tasks[t], s.execs[i], now) {
      RetrySteps(s, now, i, t);
    } else {
      GiveUpSteps(s, now, i, t);
    }
  }

  lemma DispatchLeavesOthers(s: Store, now: int, i: int, k: int)
    requires k in s.execs && k != i && k != s.nextExec
    ensures k in DispatchOne(s, now, i).execs && DispatchOne(s, now, i).execs[k] == s.execs[k]
  {
  }

  predicate KeepsExec(s: Store, r: Store, i: int) {
    i in s.execs && i in r.execs && r.execs[i] == s.execs[i]
  }

  /**
   * A whole batch of due retries: every one of them is dispatched while its task is unfinished, although
   * earlier turns of the same batch may have changed that task.
   */
  lemma {:induction false} DispatchSteps(s: Store, now: int, due: seq<int>)
    requires StoreOk(s, now) && Distinct(due) && forall k | 0 <= k < |due| :: DueExec(s, now, due[k])
    ensures Steps(s, DispatchRetries(s, now, due), now)
    ensures forall i | i in s.execs && i !in due :: KeepsExec(s, DispatchRetries(s, now, due), i)
  {
    if due == [] {
      StaysPut(s, now);
    } else {
      var rest, i := due[..|due| - 1], due[|due| - 1];
      DispatchSteps(s, now, rest);
      var r := DispatchRetries(s, now, rest);
      assert i !in rest && DueExec(s, now, i) && KeepsExec(s, r, i);
      DispatchOneSteps(r, now, i);
      StepsTransitive(s, r, DispatchOne(r, now, i), now);
      forall k | k in s.execs && k !in due ensures KeepsExec(s, DispatchOne(r, now, i), k) {
        assert KeepsExec(s, r, k) && k != i;
        DispatchLeavesOthers(r, now, i, k);
      }
    }
  }

  /** The branch that archives the executions of a finished task is never taken. */
  lemma FinishedTasksHaveNoRetries(s: Store, now: int, due: seq<int>, n: nat)
    requires StoreOk(s, now) && Distinct(due) && forall k | 0 <= k < |due| :: DueExec(s, now, due[k])
    requires n < |due|
    ensures var r := DispatchRetries(s, now, due[..n]);
            && DueExec(s, now, due[n]) && DueExec(r, now, due[n]) && r.execs[due[n]] == s.execs[due[n]]
            && r.execs[due[n]].ticket.taskId in r.tasks
            && !Terminal(r.tasks[r.execs[due[n]].ticket.taskId].status)
  {
    DispatchSteps(s, now, due[..n]);
    assert due[n] !in due[..n] && DueExec(s, now, due[n]);
    assert KeepsExec(s, DispatchRetries(s, now, due[..n]), due[n]);
    DueMeansOpen(DispatchRetries(s, now, due[..n]), now, due[n]);
  }

  // ---------- create_task ----------

  lemma InsertTaskProjects(s: Store, task: Task, order: seq<int>, t: int)
    requires RefsOk(s)
    ensures var r := InsertTask(s, task, order);
            && Rows(s.execs, s.nextTask) == map[]
            && TargetsOf(r.targets, t) == if t == s.nextTask then Ids(s.nextTarget, |order|) else TargetsOf(s.targets, t)
  {
    var r := InsertTask(s, task, order);
    forall i | i in s.execs ensures s.execs[i].ticket.taskId != s.nextTask {
      assert ExecRefsOk(s, s.execs[i]);
    }
    assert forall g | g in s.targets :: s.targets[g].taskId != s.nextTask;
  }

  lemma InsertTaskRefs(s: Store, task: Task, order: seq<int>)
    requires RefsOk(s)
    ensures RefsOk(InsertTask(s, task, order))
  {
    var r := InsertTask(s, task, order);
    forall i | i in r.execs ensures ExecRefsOk(r, r.execs[i]) {
      assert ExecRefsOk(s, s.execs[i]);
    }
  }

  lemma NewTargets(s: Store, task: Task, order: seq<int>, g: int)
    requires g in Ids(s.nextTarget, |order|)
    ensures g in InsertTask(s, task, order).targets
    ensures InsertTask(s, task, order).targets[g] == Target(s.nextTask, order[g - s.nextTarget])
  {
  }

  lemma NewTargetsKnown(s: Store, task: Task, order: seq<int>)
    ensures var r, gs := InsertTask(s, task, order), Upwards(s.nextTarget, |order|);
            TargetsKnown(r, gs) && forall k | 0 <= k < |gs| :: r.targets[gs[k]].taskId == s.nextTask
  {
    var gs := Upwards(s.nextTarget, |order|);
    forall k | 0 <= k < |gs|
      ensures gs[k] in InsertTask(s, task, order).targets && InsertTask(s, task, order).targets[gs[k]].taskId == s.nextTask
    {
      NewTargets(s, task, order, gs[k]);
    }
  }

  lemma InsertJobRefs(s: Store, task: Task, order: seq<int>, now: int)
    requires RefsOk(s)
    ensures var r := InsertJob(s, task, order, now);
            RefsOk(r) && CountersEvolve(s, r) && ExecsEvolve(s, r) && r.tasks == s.tasks[s.nextTask := task]
  {
    InsertTaskRefs(s, task, order);
    NewTargetsKnown(s, task, order);
    var s1 := InsertTask(s, task, order);
    if task.terms.schedule == ONCE {
      BatchRefs(s1, InsertJob(s, task, order, now), s.nextTask, Upwards(s.nextTarget, |order|), now);
    }
  }

  lemma UpwardsInOrder(first: int, n: nat)
    ensures IsOrderOf(Upwards(first, n), Ids(first, n))
  {
    var gs := Upwards(first, n);
    forall x | x in Ids(first, n) ensures x in gs {
      assert gs[x - first] == x;
    }
  }

  lemma InsertJobKeepsOthers(s: Store, task: Task, order: seq<int>, now: int, t: int)
    requires RefsOk(s) && t in s.tasks
    ensures t in InsertJob(s, task, order, now).tasks && JobOf(InsertJob(s, task, order, now), t) == JobOf(s, t)
  {
    InsertTaskProjects(s, task, order, t);
    if task.terms.schedule == ONCE {
      NewTargetsKnown(s, task, order);
      BatchRowsOf(InsertTask(s, task, order), s.nextTask, Upwards(s.nextTarget, |order|), now, t);
    }
  }

  lemma BatchIntoEmpty(s: Store, t: int, gs: seq<int>, now: int)
    requires TargetsKnown(s, gs) && Rows(s.execs, t) == map[] && forall i | i in s.execs :: i < s.nextExec
    ensures Rows(InsertBatch(s, t, gs, now).execs, t) == BatchRows(s, t, gs, now)
  {
    BatchRowsOf(s, t, gs, now, t);
    assert map[] + BatchRows(s, t, gs, now) == BatchRows(s, t, gs, now);
  }

  lemma InsertedRows(s: Store, task: Task, order: seq<int>, now: int)
    requires RefsOk(s) && task.terms.schedule == ONCE
    requires TargetsKnown(InsertTask(s, task, order), Upwards(s.nextTarget, |order|))
    ensures Rows(InsertJob(s, task, order, now).execs, s.nextTask) ==
            BatchRows(InsertTask(s, task, order), s.nextTask, Upwards(s.nextTarget, |order|), now)
  {
    var t, s1, gs := s.nextTask, InsertTask(s, task, order), Upwards(s.nextTarget, |order|);
    InsertTaskProjects(s, task, order, t);
    BatchIntoEmpty(s1, t, gs, now);
  }

  lemma InsertedBatch(s: Store, task: Task, order: seq<int>, now: int)
    requires RefsOk(s) && task.terms.schedule == ONCE
    ensures FirstBatch(Rows(InsertJob(s, task, order, now).execs, s.nextTask), Ids(s.nextTarget, |order|), now)
  {
    NewTargetsKnown(s, task, order);
    InsertedRows(s, task, order, now);
    InsertTaskProjects(s, task, order, s.nextTask);
    UpwardsInOrder(s.nextTarget, |order|);
    BatchIsFirst(InsertTask(s, task, order), s.nextTask, Upwards(s.nextTarget, |order|), now);
  }

  lemma InsertedJob(s: Store, task: Task, order: seq<int>, now: int)
    requires RefsOk(s)
    ensures s.nextTask in InsertJob(s, task, order, now).tasks
    ensures var j := JobOf(InsertJob(s, task, order, now), s.nextTask);
            j.task == task && j.targets == Ids(s.nextTarget, |order|) &&
            if task.terms.schedule == ONCE then FirstBatch(j.rows, j.targets, now) else j.rows == map[]
  {
    InsertTaskProjects(s, task, order, s.nextTask);
    if task.terms.schedule == ONCE {
      InsertedBatch(s, task, order, now);
    }
  }

  /** What a request that is not answered from an earlier one adds. */
  lemma InsertSteps(s: Store, task: Task, order: seq<int>, now: int)
    requires StoreOk(s, now) && |order| >= 1
    requires TermsOk(task.terms, now) && task.terms.createdAt == now
    requires Untouched(task.status) && task.startedAt.None? && task.finishedAt.None?
    requires task.terms.idempotencyKey.Some? ==> !KeyTaken(s, task.terms.idempotencyKey.value)
    ensures Steps(s, InsertJob(s, task, order, now), now)
  {
    var r := InsertJob(s, task, order, now);
    InsertJobRefs(s, task, order, now);
    forall t | t in r.tasks ensures JobOk(JobOf(r, t), now) {
      if t == s.nextTask {
        InsertedJob(s, task, order, now);
        assert s.nextTarget in JobOf(r, t).targets;
        CreatedOk(JobOf(r, t), now);
      } else {
        InsertJobKeepsOthers(s, task, order, now, t);
        assert JobOk(JobOf(s, t), now);
      }
    }
    forall t | t in s.tasks && t in r.tasks
      ensures JobEvolves(JobOf(s, t), JobOf(r, t), s.nextExec) && SpendsFrom(JobOf(s, t), JobOf(r, t), r.nextExec)
    {
      InsertJobKeepsOthers(s, task, order, now, t);
      EvolvesReflexive(JobOf(s, t), s.nextExec);
    }
    forall t, u | t in r.tasks && u in r.tasks && t != u
      ensures r.tasks[t].terms.idempotencyKey.None? || r.tasks[t].terms.idempotencyKey != r.tasks[u].terms.idempotencyKey
    {
      NewKeyIsFree(s, task, t);
      NewKeyIsFree(s, task, u);
    }
  }

  lemma NewKeyIsFree(s: Store, task: Task, t: int)
    requires task.terms.idempotencyKey.Some? ==> !KeyTaken(s, task.terms.idempotencyKey.value)
    ensures t in s.tasks && task.terms.idempotencyKey.Some? ==> s.tasks[t].terms.idempotencyKey != task.terms.idempotencyKey
  {
    if t in s.tasks && task.terms.idempotencyKey.Some? {
      assert !HasKey(s, t, task.terms.idempotencyKey.value);
    }
  }

  lemma OrderLength(order: seq<int>, data: TaskCreate)
    requires SchemaOk(data) && IsOrderOf(order, ServersOf(data))
    ensures |order| >= 1
  {
    var sid := data.serverIds[0];
    assert sid in data.serverIds;
    assert sid in ServersOf(data);
    assert sid in order;
  }

  lemma NewTaskOk(data: TaskCreate, action: string, creator: int, key: Option<string>, now: int)
    requires SchemaOk(data)
    ensures var task := NewTask(data, action, creator, key, now);
            && TermsOk(task.terms, now) && task.terms.createdAt == now && task.startedAt.None? && task.finishedAt.None?
            && task.terms.schedule == data.schedule && task.terms.idempotencyKey == key
            && (task.status == if data.schedule == CRON || task.terms.confirmationRequired then CREATED else PENDING)
  {
  }

  lemma OwnerIsUnique(s: Store, t: int, key: string)
    requires KeysUnique(s) && HasKey(s, t, key)
    ensures KeyTaken(s, key) && KeyOwner(s, key) == t
  {
  }

  /** A request that is neither refused nor answered from an earlier one. */
  predicate Admitted(s: Store, fleet: Fleet, data: TaskCreate, key: Option<string>) {
    Admit(fleet, data).Ok? && (key.Some? ==> !KeyTaken(s, key.value))
  }

  lemma CreateCases(s: Store, now: int, fleet: Fleet, data: TaskCreate, creator: int, key: Option<string>, order: seq<int>)
    requires CreateTask(s, now, fleet, data, creator, key, order).Ok?
    ensures var (r, t) := CreateTask(s, now, fleet, data, creator, key, order).value;
            if key.Some? && KeyTaken(s, key.value) then r == s && t in s.tasks && HasKey(s, t, key.value)
            else Admitted(s, fleet, data, key) && t == s.nextTask &&
                 r == InsertJob(s, NewTask(data, Admit(fleet, data).value, creator, key, now), order, now)
  {
  }

  lemma CreateSteps(s: Store, now: int, fleet: Fleet, data: TaskCreate, creator: int, key: Option<string>, order: seq<int>)
    requires StoreOk(s, now) && SchemaOk(data) && IsOrderOf(order, ServersOf(data))
    requires CreateTask(s, now, fleet, data, creator, key, order).Ok?
    ensures Steps(s, CreateTask(s, now, fleet, data, creator, key, order).value.0, now)
  {
    CreateCases(s, now, fleet, data, creator, key, order);
    if key.Some? && KeyTaken(s, key.value) {
      StaysPut(s, now);
    } else {
      OrderLength(order, data);
      var action := Admit(fleet, data).value;
      NewTaskOk(data, action, creator, key, now);
      InsertSteps(s, NewTask(data, action, creator, key, now), order, now);
    }
  }

  /** Every distinct server gets exactly one target. */
  predicate OneTargetPerServer(s: Store, t: int, serverIds: seq<int>) {
    (forall g, h | g in TargetsOf(s.targets, t) && h in TargetsOf(s.targets, t) && g != h :: s.targets[g].serverId != s.targets[h].serverId) &&
    (forall g | g in TargetsOf(s.targets, t) :: s.targets[g].serverId in serverIds) &&
    (forall sid | sid in serverIds :: exists g | g in TargetsOf(s.targets, t) :: s.targets[g].serverId == sid)
  }

  lemma InsertedTargets(s: Store, task: Task, order: seq<int>, now: int, serverIds: seq<int>)
    requires RefsOk(s) && IsOrderOf(order, set sid | sid in serverIds)
    ensures OneTargetPerServer(InsertJob(s, task, order, now), s.nextTask, serverIds)
  {
    var r := InsertJob(s, task, order, now);
    InsertedJob(s, task, order, now);
    forall g | g in TargetsOf(r.targets, s.nextTask)
      ensures 0 <= g - s.nextTarget < |order| && r.targets[g].serverId == order[g - s.nextTarget]
    {
      NewTargets(s, task, order, g);
    }
    forall g, h | g in TargetsOf(r.targets, s.nextTask) && h in TargetsOf(r.targets, s.nextTask) && g != h
      ensures r.targets[g].serverId != r.targets[h].serverId
    {
      assert g < h || h < g;
    }
    forall sid | sid in serverIds
      ensures exists g | g in TargetsOf(r.targets, s.nextTask) :: r.targets[g].serverId == sid
    {
      assert sid in (set x | x in serverIds);
      assert sid in order;
      var k :| 0 <= k < |order| && order[k] == sid;
      assert s.nextTarget + k in TargetsOf(r.targets, s.nextTask);
    }
  }

  /**
   * A new task has one target per distinct server, and one first attempt per target if it is a ONCE task;
   * it waits for confirmation exactly if it is a CRON task or guarded.
   */
  lemma CreatedTaskIsComplete(s: Store, now: int, fleet: Fleet, data: TaskCreate, creator: int, key: Option<string>, order: seq<int>)
    requires StoreOk(s, now) && SchemaOk(data) && IsOrderOf(order, ServersOf(data))
    requires CreateTask(s, now, fleet, data, creator, key, order).Ok?
    requires key.Some? ==> !KeyTaken(s, key.value)
    ensures var (r, t) := CreateTask(s, now, fleet, data, creator, key, order).value;
            && t !in s.tasks && t in r.tasks && OneTargetPerServer(r, t, data.serverIds)
            && (if data.schedule == ONCE then FirstBatch(Rows(r.execs, t), TargetsOf(r.targets, t), now) else Rows(r.execs, t) == map[])
            && (r.tasks[t].status == if data.schedule == CRON || r.tasks[t].terms.confirmationRequired then CREATED else PENDING)
  {
    CreateCases(s, now, fleet, data, creator, key, order);
    var action := Admit(fleet, data).value;
    var task := NewTask(data, action, creator, key, now);
    NewTaskOk(data, action, creator, key, now);
    InsertedJob(s, task, order, now);
    InsertedTargets(s, task, order, now, data.serverIds);
  }

  // ---------- fire_due_cron ----------

  lemma BatchRowsOf(s: Store, t: int, gs: seq<int>, now: int, u: int)
    requires TargetsKnown(s, gs) && forall i | i in s.execs :: i < s.nextExec
    ensures Rows(InsertBatch(s, t, gs, now).execs, u) ==
            if u == t then Rows(s.execs, t) + BatchRows(s, t, gs, now) else Rows(s.execs, u)
  {
  }

  function BatchRow(s: Store, t: int, gs: seq<int>, now: int, i: int): Execution
    requires TargetsKnown(s, gs) && s.nextExec <= i < s.nextExec + |gs|
  {
    NewExecution(t, gs[i - s.nextExec], s.targets[gs[i - s.nextExec]].serverId, 1, now)
  }

  lemma BatchShape(s: Store, t: int, gs: seq<int>, now: int, i: int)
    requires TargetsKnown(s, gs) && i in BatchRows(s, t, gs, now)
    ensures s.nextExec <= i < s.nextExec + |gs| && BatchRows(s, t, gs, now)[i] == BatchRow(s, t, gs, now, i)
  {
  }

  lemma BatchCovers(s: Store, t: int, gs: seq<int>, now: int, g: int)
    requires TargetsKnown(s, gs) && g in gs
    ensures exists i | i in BatchRows(s, t, gs, now) :: BatchRows(s, t, gs, now)[i].ticket.targetId == g
  {
    var k :| 0 <= k < |gs| && gs[k] == g;
    assert s.nextExec + k in BatchRows(s, t, gs, now);
  }

  lemma BatchIsFirst(s: Store, t: int, gs: seq<int>, now: int)
    requires TargetsKnown(s, gs) && IsOrderOf(gs, TargetsOf(s.targets, t))
    ensures FirstBatch(BatchRows(s, t, gs, now), TargetsOf(s.targets, t), now)
  {
    var rows, targets := BatchRows(s, t, gs, now), TargetsOf(s.targets, t);
    forall i | i in rows
      ensures rows[i] == NewExecution(rows[i].ticket.taskId, rows[i].ticket.targetId, rows[i].ticket.serverId, 1, now)
      ensures rows[i].ticket.targetId in targets
    {
      BatchShape(s, t, gs, now, i);
    }
    forall i, k | i in rows && k in rows && i != k ensures rows[i].ticket.targetId != rows[k].ticket.targetId {
      BatchShape(s, t, gs, now, i);
      BatchShape(s, t, gs, now, k);
      assert i < k || k < i;
    }
    forall g | g in targets ensures exists i | i in rows :: rows[i].ticket.targetId == g {
      BatchCovers(s, t, gs, now, g);
    }
  }

  /** Inserting a batch for the targets of `t` keeps all references. */
  lemma BatchRefs(s: Store, r: Store, t: int, gs: seq<int>, now: int)
    requires RefsOk(s) && t in s.tasks && TargetsKnown(s, gs) && forall k | 0 <= k < |gs| :: s.targets[gs[k]].taskId == t
    requires r == InsertBatch(s, t, gs, now).(tasks := r.tasks) && r.tasks.Keys == s.tasks.Keys
    ensures RefsOk(r) && ExecsEvolve(s, r) && CountersEvolve(s, r)
  {
    forall i | i in r.execs ensures 0 <= i < r.nextExec && ExecRefsOk(r, r.execs[i]) {
      if i in s.execs {
        assert ExecRefsOk(s, s.execs[i]);
      }
    }
  }

  predicate Fireable(s: Store, f: Firing) {
    f.taskId in s.tasks && s.tasks[f.taskId].terms.schedule == CRON && Untouched(s.tasks[f.taskId].status) &&
    IsOrderOf(f.targets, TargetsOf(s.targets, f.taskId)) && Known(s, f)
  }

  lemma FiredStep(j: Job, rows: map<int, Execution>, now: int, bound: nat, low: nat)
    requires JobOk(j, now) && j.task.terms.schedule == CRON && Untouched(j.task.status)
    requires FirstBatch(rows, j.targets, now) && forall i | i in rows :: bound <= i < low
    ensures var k := j.(task := FireTask(j.task, now), rows := rows);
            JobOk(k, now) && JobEvolves(j, k, bound) && SpendsFrom(j, k, low)
  {
    FiredOk(j, rows, now);
    FiredEvolves(j, rows, now, bound);
    forall n: nat | n >= low ensures Spends(j, j.(task := FireTask(j.task, now), rows := rows), n) {
      FiredSpends(j, rows, now, n);
    }
  }

  lemma FireProjects(s: Store, now: int, f: Firing, u: int)
    requires Fireable(s, f) && u in s.tasks && forall i | i in s.execs :: i < s.nextExec
    requires Rows(s.execs, f.taskId) == map[]
    ensures JobOf(FireOne(s, now, f), u) ==
            if u == f.taskId
            then JobOf(s, u).(task := FireTask(s.tasks[u], now), rows := BatchRows(s, u, f.targets, now))
            else JobOf(s, u)
  {
    BatchRowsOf(s, f.taskId, f.targets, now, u);
  }

  lemma FireJobSteps(s: Store, now: int, f: Firing, u: int)
    requires StoreOk(s, now) && Fireable(s, f) && u in s.tasks
    ensures JobSteps(s, FireOne(s, now, f), u, now)
  {
    assert JobOk(JobOf(s, f.taskId), now);
    FireProjects(s, now, f, u);
    if u == f.taskId {
      BatchIsFirst(s, u, f.targets, now);
      FiredStep(JobOf(s, u), BatchRows(s, u, f.targets, now), now, s.nextExec, s.nextExec + |f.targets|);
    } else {
      SameJobSteps(s, FireOne(s, now, f), u, now);
    }
  }

  lemma FireOneSteps(s: Store, now: int, f: Firing)
    requires StoreOk(s, now) && Fireable(s, f)
    ensures Steps(s, FireOne(s, now, f), now)
  {
    var r := FireOne(s, now, f);
    forall u | u in s.tasks ensures JobSteps(s, r, u, now) {
      FireJobSteps(s, now, f, u);
    }
    BatchRefs(s, r, f.taskId, f.targets, now);
    LiftSteps(s, r, now);
  }

  predicate AllFireable(s: Store, batch: seq<Firing>) {
    (forall f | f in batch :: Fireable(s, f)) &&
    (forall k, m | 0 <= k < m < |batch| :: batch[k].taskId != batch[m].taskId)
  }

  lemma SplitBatch(s: Store, batch: seq<Firing>)
    requires batch != [] && AllFireable(s, batch)
    ensures var rest, f := batch[..|batch| - 1], batch[|batch| - 1];
            AllFireable(s, rest) && Fireable(s, f) && (forall g | g in rest :: g.taskId != f.taskId) &&
            (forall g | g in batch :: g == f || g in rest)
  {
    var rest, f := batch[..|batch| - 1], batch[|batch| - 1];
    assert forall g | g in rest :: g in batch;
    forall g | g in rest ensures g.taskId != f.taskId {
      var k :| 0 <= k < |rest| && rest[k] == g;
      assert batch[k] == g;
    }
  }

  /** Firing touches the tasks of the batch and no others. */
  lemma {:induction false} FiresItsTasks(s: Store, now: int, batch: seq<Firing>)
    requires AllFireable(s, batch)
    ensures forall t | t in s.tasks && (forall f | f in batch :: f.taskId != t) :: FireDueCron(s, now, batch).tasks[t] == s.tasks[t]
    ensures forall f | f in batch :: FireDueCron(s, now, batch).tasks[f.taskId].status == RUNNING
  {
    if batch != [] {
      SplitBatch(s, batch);
      FiresItsTasks(s, now, batch[..|batch| - 1]);
    }
  }

  /** Every task of a batch that was fit to fire at the start of the loop still is when its turn comes. */
  lemma {:induction false} FireSteps(s: Store, now: int, batch: seq<Firing>)
    requires StoreOk(s, now) && AllFireable(s, batch)
    ensures Steps(s, FireDueCron(s, now, batch), now)
  {
    if batch == [] {
      StaysPut(s, now);
    } else {
      var rest, f := batch[..|batch| - 1], batch[|batch| - 1];
      SplitBatch(s, batch);
      FireSteps(s, now, rest);
      FiresItsTasks(s, now, rest);
      var r := FireDueCron(s, now, rest);
      FireOneSteps(r, now, f);
      StepsTransitive(s, r, FireOne(r, now, f), now);
    }
  }

  lemma FiringBatchIsFireable(s: Store, dueTasks: set<int>, batch: seq<Firing>)
    requires RefsOk(s) && IsFiringBatch(s, dueTasks, batch)
    ensures AllFireable(s, batch)
  {
    forall f | f in batch ensures Fireable(s, f) {
      var k :| 0 <= k < |batch| && batch[k] == f;
      assert CronDue(s, dueTasks, batch[k].taskId);
    }
  }

  // ---------- cleanup_history ----------

  lemma PurgeRowsOf(execs: map<int, Execution>, cutoff: int, t: int)
    ensures Rows(PurgeRows(execs, cutoff), t) == PurgeRows(Rows(execs, t), cutoff)
  {
  }

  lemma PurgeSteps(s: Store, now: int, cutoff: int)
    requires StoreOk(s, now)
    ensures Steps(s, DeleteTerminalBefore(s, cutoff), now)
  {
    var r := DeleteTerminalBefore(s, cutoff);
    forall t | t in s.tasks ensures JobSteps(s, r, t, now) {
      assert JobOk(JobOf(s, t), now);
      PurgeRowsOf(s.execs, cutoff, t);
      assert JobOf(r, t) == Purged(JobOf(s, t), cutoff);
      PurgedOk(JobOf(s, t), now, cutoff);
      PurgedEvolves(JobOf(s, t), now, cutoff, s.nextExec);
      SettledJobSteps(s, r, t, now);
    }
    forall i | i in r.execs ensures ExecRefsOk(r, r.execs[i]) {
      assert ExecRefsOk(s, s.execs[i]);
    }
    LiftSteps(s, r, now);
  }

  lemma ForgetKeepsJobs(s: Store, now: int, cutoff: int, t: int)
    requires StoreOk(s, now) && t in DeleteFinishedTasksBefore(s, cutoff).tasks
    ensures t in s.tasks && JobOf(DeleteFinishedTasksBefore(s, cutoff), t) == JobOf(s, t)
  {
    var r := DeleteFinishedTasksBefore(s, cutoff);
    assert TargetsOf(r.targets, t) == TargetsOf(s.targets, t);
  }

  lemma ForgetSteps(s: Store, now: int, cutoff: int)
    requires StoreOk(s, now)
    ensures Steps(s, DeleteFinishedTasksBefore(s, cutoff), now)
  {
    var r := DeleteFinishedTasksBefore(s, cutoff);
    forall t | t in r.tasks
      ensures JobOk(JobOf(r, t), now) && JobEvolves(JobOf(s, t), JobOf(r, t), s.nextExec)
      ensures SpendsFrom(JobOf(s, t), JobOf(r, t), r.nextExec)
    {
      ForgetKeepsJobs(s, now, cutoff, t);
      assert JobOk(JobOf(s, t), now);
      EvolvesReflexive(JobOf(s, t), s.nextExec);
    }
    ForgetRefs(s, cutoff);
  }

  lemma ForgetRefs(s: Store, cutoff: int)
    requires RefsOk(s)
    ensures var r := DeleteFinishedTasksBefore(s, cutoff); RefsOk(r) && CountersEvolve(s, r) && ExecsEvolve(s, r)
  {
    var r := DeleteFinishedTasksBefore(s, cutoff);
    forall i | i in r.execs ensures ExecRefsOk(r, r.execs[i]) {
      assert ExecRefsOk(s, s.execs[i]);
    }
  }

  lemma CleanupSteps(s: Store, now: int, cutoff: int)
    requires StoreOk(s, now)
    ensures Steps(s, CleanupHistory(s, cutoff), now)
  {
    PurgeSteps(s, now, cutoff);
    var r := DeleteTerminalBefore(s, cutoff);
    ForgetSteps(r, now, cutoff);
    StepsTransitive(s, r, CleanupHistory(s, cutoff), now);
  }

  /** The tasks a cleanup is meant to forget. */
  predicate Expired(task: Task, cutoff: int) {
    task.terms.schedule == ONCE && Terminal(task.status) && task.finishedAt.Some? && task.finishedAt.value < cutoff
  }

  /**
   * One cleanup removes exactly the outdated executions with their logs, and exactly the expired ONCE
   * tasks with their targets; a CRON task and an unfinished task always stay.
   */
  lemma CleanupIsExact(s: Store, now: int, cutoff: int)
    requires StoreOk(s, now)
    ensures var r := CleanupHistory(s, cutoff);
            && RefsOk(r)
            && (forall i | i in s.execs :: i in r.execs <==> !Outdated(s.execs[i], cutoff))
            && (forall l | l in s.logs :: l in r.logs <==> s.logs[l].executionId in r.execs)
            && (forall t | t in s.tasks :: t in r.tasks <==> !Expired(s.tasks[t], cutoff))
            && (forall g | g in s.targets :: g in r.targets <==> s.targets[g].taskId in r.tasks)
            && (forall t | t in r.tasks :: t in s.tasks && r.tasks[t] == s.tasks[t])
            && (forall i | i in r.execs :: i in s.execs && r.execs[i] == s.execs[i])
  {
    CleanupSteps(s, now, cutoff);
    var p := DeleteTerminalBefore(s, cutoff);
    forall t | t in s.tasks && Expired(s.tasks[t], cutoff) ensures Forgotten(p, cutoff, t) {
      var j := JobOf(s, t);
      assert JobOk(j, now);
      PurgeEmptiesOldTasks(j, now, cutoff);
      forall i | i in p.execs ensures p.execs[i].ticket.taskId != t {
        assert p.execs[i].ticket.taskId == t ==> i in j.rows && i in PurgeRows(j.rows, cutoff);
      }
    }
  }
}
