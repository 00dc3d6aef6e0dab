/**
 * Whole runs of the task engine: any interleaving of its operations, one at a time, on a clock that never
 * runs backwards.
 */
module TaskHistory {
  import opened Wrappers
  import opened TaskModel
  import opened JobInvariant
  import opened JobProgress
  import opened TaskStore
  import opened StoreInvariant

  /** A call of a public operation, together with what the queries inside it answered. */
  datatype Event =
    | Create(fleet: Fleet, data: TaskCreate, creator: int, key: Option<string>, order: seq<int>)
    | Confirm(taskId: int, operator: int)
    | Cancel(taskId: int)
    | Fetch(server: int, batch: seq<int>)
    | Answer(server: int, execution: int, report: Report)
    | Scan
    | Dispatch(limit: nat, due: seq<int>)
    | Fire(dueTasks: set<int>, firings: seq<Firing>)
    | Cleanup(cutoff: int)

  /** The queries inside the call answered as the tables demand. */
  predicate Legal(s: Store, now: int, ev: Event) {
    match ev
    case Create(_, data, _, _, order) => SchemaOk(data) && IsOrderOf(order, ServersOf(data))
    case Fetch(server, batch) => IsPendingBatch(s, server, batch)
    case Dispatch(limit, due) => IsDueBatch(s, now, limit, due)
    case Fire(dueTasks, firings) => IsFiringBatch(s, dueTasks, firings) && AllFireable(s, firings)
    case _ => true
  }

  function OrSame(s: Store, r: Result<Store, Error>): Store {
    if r.Ok? then r.value else s
  }

  /** The tables after a call; a refused call leaves them alone. */
  ghost function Next(s: Store, now: int, ev: Event): Store
    requires Legal(s, now, ev)
  {
    match ev
    case Create(fleet, data, creator, key, order) =>
      var r := CreateTask(s, now, fleet, data, creator, key, order);
      if r.Ok? then r.value.0 else s
    case Confirm(t, operator) => OrSame(s, ConfirmTask(s, now, t, operator))
    case Cancel(t) => OrSame(s, CancelTask(s, now, t))
    case Fetch(_, batch) => FetchPending(s, now, SetOf(batch))
    case Answer(server, i, report) => OrSame(s, ReportResult(s, now, server, i, report))
    case Scan => ScanTimeouts(s, now)
    case Dispatch(_, due) => DispatchRetries(s, now, due)
    case Fire(_, firings) => FireDueCron(s, now, firings)
    case Cleanup(cutoff) => CleanupHistory(s, cutoff)
  }

  lemma CallSteps(s: Store, now: int, r: Result<Store, Error>)
    requires StoreOk(s, now) && (r.Ok? ==> Steps(s, r.value, now))
    ensures Steps(s, OrSame(s, r), now)
  {
    if r.Err? {
      StaysPut(s, now);
    }
  }

  lemma NextCreateSteps(s: Store, now: int, ev: Event)
    requires StoreOk(s, now) && Legal(s, now, ev) && ev.Create?
    ensures Steps(s, Next(s, now, ev), now)
  {
    if CreateTask(s, now, ev.fleet, ev.data, ev.creator, ev.key, ev.order).Ok? {
      CreateSteps(s, now, ev.fleet, ev.data, ev.creator, ev.key, ev.order);
    } else {
      StaysPut(s, now);
    }
  }

  lemma NextCallSteps(s: Store, now: int, ev: Event)
    requires StoreOk(s, now) && Legal(s, now, ev) && (ev.Confirm? || ev.Cancel? || ev.Answer?)
    ensures Steps(s, Next(s, now, ev), now)
  {
    match ev
    case Confirm(t, operator) =>
      if ConfirmTask(s, now, t, operator).Ok? { ConfirmSteps(s, now, t, operator); }
      CallSteps(s, now, ConfirmTask(s, now, t, operator));
    case Cancel(t) =>
      if CancelTask(s, now, t).Ok? { CancelSteps(s, now, t); }
      CallSteps(s, now, CancelTask(s, now, t));
    case Answer(server, i, report) =>
      if ReportResult(s, now, server, i, report).Ok? { ReportSteps(s, now, server, i, report); }
      CallSteps(s, now, ReportResult(s, now, server, i, report));
  }

  lemma NextBatchSteps(s: Store, now: int, ev: Event)
    requires StoreOk(s, now) && Legal(s, now, ev) && (ev.Fetch? || ev.Dispatch?)
    ensures Steps(s, Next(s, now, ev), now)
  {
    if ev.Fetch? {
      FetchSteps(s, now, ev.server, ev.batch);
    } else {
      DispatchSteps(s, now, ev.due);
    }
  }

  lemma NextFireSteps(s: Store, now: int, ev: Event)
    requires StoreOk(s, now) && Legal(s, now, ev) && ev.Fire?
    ensures Steps(s, Next(s, now, ev), now)
  {
    FireSteps(s, now, ev.firings);
  }

  lemma NextScanSteps(s: Store, now: int, ev: Event)
    requires StoreOk(s, now) && (ev.Scan? || ev.Cleanup?)
    ensures Steps(s, Next(s, now, ev), now)
  {
    if ev.Scan? {
      ScanSteps(s, now);
    } else {
      CleanupSteps(s, now, ev.cutoff);
    }
  }

  /** Every operation keeps the invariant, evolves every task and spends its measure. */
  lemma NextSteps(s: Store, now: int, ev: Event)
    requires StoreOk(s, now) && Legal(s, now, ev)
    ensures Steps(s, Next(s, now, ev), now)
  {
    if ev.Create? {
      NextCreateSteps(s, now, ev);
    } else if ev.Confirm? || ev.Cancel? || ev.Answer? {
      NextCallSteps(s, now, ev);
    } else if ev.Fetch? || ev.Dispatch? {
      NextBatchSteps(s, now, ev);
    } else if ev.Fire? {
      NextFireSteps(s, now, ev);
    } else {
      NextScanSteps(s, now, ev);
    }
  }

  // ---------- runs ----------

  datatype Call = Call(now: int, event: Event)

  /** `states[k]` are the tables before the `k`-th call. */
  datatype Run = Run(states: seq<Store>, calls: seq<Call>)

  ghost predicate Follows(s: Store, call: Call, r: Store) {
    Legal(s, call.now, call.event) && r == Next(s, call.now, call.event)
  }

  ghost predicate CallFollows(run: Run, k: nat)
    requires k < |run.calls| && |run.states| == |run.calls| + 1
  {
    Follows(run.states[k], run.calls[k], run.states[k + 1])
  }

  /** A run starts with empty tables and a clock that never runs backwards. */
  ghost predicate IsRun(run: Run) {
    |run.states| == |run.calls| + 1 && run.states[0] == EMPTY_STORE &&
    (forall k: nat | k < |run.calls| :: CallFollows(run, k)) &&
    (forall k, m | 0 <= k < m < |run.calls| :: run.calls[k].now <= run.calls[m].now)
  }

  /** The clock after the first `k` calls. */
  function ClockAt(run: Run, k: nat): int
    requires k <= |run.calls|
  {
    if k > 0 then run.calls[k - 1].now else if |run.calls| > 0 then run.calls[0].now else 0
  }

  lemma EmptyStoreOk(now: int)
    ensures StoreOk(EMPTY_STORE, now)
  {
  }

  lemma FollowsSteps(s: Store, call: Call, r: Store, before: int)
    requires StoreOk(s, before) && before <= call.now && Follows(s, call, r)
    ensures StoreOk(s, call.now) && Steps(s, r, call.now)
  {
    StoreOkLater(s, before, call.now);
    NextSteps(s, call.now, call.event);
  }

  /** The invariant holds in every reachable state. */
  lemma {:induction false} ReachableOk(run: Run, k: nat)
    requires IsRun(run) && k <= |run.calls|
    ensures StoreOk(run.states[k], ClockAt(run, k))
  {
    if k == 0 {
      EmptyStoreOk(ClockAt(run, 0));
    } else {
      ReachableOk(run, k - 1);
      assert CallFollows(run, k - 1);
      FollowsSteps(run.states[k - 1], run.calls[k - 1], run.states[k], ClockAt(run, k - 1));
    }
  }

  /** What one call of a run does. */
  lemma StepAt(run: Run, k: nat)
    requires IsRun(run) && k < |run.calls|
    ensures StoreOk(run.states[k], run.calls[k].now)
    ensures Follows(run.states[k], run.calls[k], run.states[k + 1])
    ensures Steps(run.states[k], run.states[k + 1], run.calls[k].now)
  {
    ReachableOk(run, k);
    assert CallFollows(run, k);
    FollowsSteps(run.states[k], run.calls[k], run.states[k + 1], ClockAt(run, k));
  }

  lemma ReachableRefs(run: Run, k: nat)
    requires IsRun(run) && k <= |run.calls|
    ensures RefsOk(run.states[k]) && KeysUnique(run.states[k])
  {
    ReachableOk(run, k);
  }

  lemma StepEvolves(run: Run, k: nat)
    requires IsRun(run) && k < |run.calls|
    ensures StoreEvolves(run.states[k], run.states[k + 1])
  {
    StepAt(run, k);
  }

  lemma EvolutionReflexive(s: Store)
    ensures StoreEvolves(s, s)
  {
    forall t | t in s.tasks ensures JobEvolves(JobOf(s, t), JobOf(s, t), s.nextExec) {
      EvolvesReflexive(JobOf(s, t), s.nextExec);
    }
  }

  /** Any later state of a run is an evolution of any earlier one. */
  lemma {:induction false} RunEvolves(run: Run, i: nat, k: nat)
    requires IsRun(run) && i <= k <= |run.calls|
    ensures StoreEvolves(run.states[i], run.states[k])
  {
    if i == k {
      EvolutionReflexive(run.states[i]);
    } else {
      RunEvolves(run, i, k - 1);
      StepEvolves(run, k - 1);
      ReachableRefs(run, i);
      ReachableRefs(run, k - 1);
      ReachableRefs(run, k);
      EvolutionTransitive(run.states[i], run.states[k - 1], run.states[k]);
    }
  }

  lemma InItsJob(s: Store, i: int)
    requires RefsOk(s) && i in s.execs
    ensures s.execs[i].ticket.taskId in s.tasks && i in Rows(s.execs, s.execs[i].ticket.taskId)
  {
  }

  /** The invariant of one task in a reachable state. */
  lemma ReachableJobOk(run: Run, k: nat, t: int)
    requires IsRun(run) && k <= |run.calls| && t in run.states[k].tasks
    ensures JobOk(JobOf(run.states[k], t), ClockAt(run, k))
  {
    ReachableOk(run, k);
  }

  // ---------- the status of a task ----------

  /**
   * In every reachable state the status of a task is CREATED or PENDING with nothing but untouched first
   * attempts, or the verdict over the latest attempts, or final with only ended executions left; a final status is
   * the verdict over the latest attempts as long as retention has not erased the last result of a target.
   */
  lemma StatusIsExplained(run: Run, k: nat, t: int)
    requires IsRun(run) && k <= |run.calls| && t in run.states[k].tasks
    ensures var task, rows := run.states[k].tasks[t], Rows(run.states[k].execs, t);
            || (task.status in {CREATED, PENDING} &&
                (task.terms.schedule != ONCE ==> rows == map[]) &&
                forall i | i in rows :: rows[i].status == PENDING && rows[i].ticket.attempt == 1)
            || (rows != map[] && task.status == Verdict(LatestStatuses(rows)))
            || (Terminal(task.status) && forall i | i in rows :: Terminal(rows[i].status))
    ensures var s := run.states[k];
            Terminal(s.tasks[t].status) && EveryTargetSeen(JobOf(s, t)) ==> s.tasks[t].status == Verdict(LatestStatuses(Rows(s.execs, t)))
    ensures run.states[k].tasks[t].status != TIMEOUT
  {
    ReachableJobOk(run, k, t);
  }

  /** Ids are never reused, so a task present at two moments was there all the time in between. */
  lemma TasksPersist(run: Run, i: nat, m: nat, k: nat, t: int)
    requires IsRun(run) && i <= m <= k <= |run.calls| && t in run.states[i].tasks && t in run.states[k].tasks
    ensures t in run.states[m].tasks
  {
    RunEvolves(run, i, m);
    RunEvolves(run, m, k);
    ReachableRefs(run, i);
  }

  lemma EvolvedTask(s: Store, r: Store, t: int)
    requires StoreEvolves(s, r) && t in s.tasks && t in r.tasks
    ensures TaskEvolves(s.tasks[t], r.tasks[t])
    ensures JobEvolves(JobOf(s, t), JobOf(r, t), s.nextExec)
  {
    assert JobEvolves(JobOf(s, t), JobOf(r, t), s.nextExec);
  }

  /** What has ended never changes again: neither a task nor an execution. */
  lemma EndedIsForever(run: Run, i: nat, k: nat, t: int, x: int)
    requires IsRun(run) && i <= k <= |run.calls|
    ensures t in run.states[i].tasks && t in run.states[k].tasks && Terminal(run.states[i].tasks[t].status) ==>
              run.states[k].tasks[t] == run.states[i].tasks[t]
    ensures x in run.states[i].execs && x in run.states[k].execs && Terminal(run.states[i].execs[x].status) ==>
              run.states[k].execs[x] == run.states[i].execs[x]
  {
    RunEvolves(run, i, k);
    if t in run.states[i].tasks && t in run.states[k].tasks {
      EvolvedTask(run.states[i], run.states[k], t);
    }
  }

  /** The first final result wins: later reports on an ended execution change nothing, logs included. */
  lemma FirstResultWins(run: Run, i: nat, k: nat, x: int)
    requires IsRun(run) && i <= k < |run.calls|
    requires x in run.states[i].execs && Terminal(run.states[i].execs[x].status)
    requires run.calls[k].event.Answer? && run.calls[k].event.execution == x
    ensures run.states[k + 1] == run.states[k]
  {
    EndedIsForever(run, i, k, 0, x);
    RunEvolves(run, i, k);
    ReachableRefs(run, i);
    assert CallFollows(run, k);
  }

  // ---------- handing out executions ----------

  lemma FetchedIsRunning(s: Store, call: Call, r: Store, x: int)
    requires Follows(s, call, r) && call.event.Fetch? && x in call.event.batch
    ensures x in s.execs && s.execs[x].status == PENDING && s.execs[x].ticket.serverId == call.event.server
    ensures s.execs[x].ticket.taskId in s.tasks && s.tasks[s.execs[x].ticket.taskId].status in {PENDING, RUNNING}
    ensures x in r.execs && r.execs[x].status == RUNNING
  {
    var k :| 0 <= k < |call.event.batch| && call.event.batch[k] == x;
    assert Claimable(s, call.event.server, call.event.batch[k]);
  }

  lemma FetchedAt(run: Run, k: nat, x: int)
    requires IsRun(run) && k < |run.calls| && run.calls[k].event.Fetch? && x in run.calls[k].event.batch
    ensures var s := run.states[k];
            x in s.execs && s.execs[x].status == PENDING && s.execs[x].ticket.serverId == run.calls[k].event.server &&
            s.execs[x].ticket.taskId in s.tasks && s.tasks[s.execs[x].ticket.taskId].status in {PENDING, RUNNING}
    ensures x in run.states[k + 1].execs && run.states[k + 1].execs[x].status == RUNNING
  {
    assert CallFollows(run, k);
    FetchedIsRunning(run.states[k], run.calls[k], run.states[k + 1], x);
  }

  lemma HandedOutStaysBusy(run: Run, i: nat, k: nat, x: int)
    requires IsRun(run) && i < k <= |run.calls| && run.calls[i].event.Fetch? && x in run.calls[i].event.batch
    ensures x in run.states[i].execs
    ensures x in run.states[k].execs ==> run.states[k].execs[x].status != PENDING
  {
    FetchedAt(run, i, x);
    RunEvolves(run, i + 1, k);
  }

  /** Every execution is handed out at most once, and only to the server it is meant for. */
  lemma HandedOutOnce(run: Run, i: nat, k: nat, x: int)
    requires IsRun(run) && i < k < |run.calls|
    requires run.calls[i].event.Fetch? && run.calls[k].event.Fetch? && x in run.calls[i].event.batch
    ensures x !in run.calls[k].event.batch
    ensures x in run.states[i].execs && run.states[i].execs[x].ticket.serverId == run.calls[i].event.server
  {
    FetchedAt(run, i, x);
    HandedOutStaysBusy(run, i, k, x);
    if x in run.calls[k].event.batch {
      FetchedAt(run, k, x);
    }
  }

  // ---------- launching ----------

  /** The `k`-th call creates a first attempt of task `t`, which existed before. */
  predicate Launches(run: Run, k: nat, t: int)
    requires k + 1 < |run.states|
  {
    t in run.states[k].tasks &&
    exists x | x in run.states[k + 1].execs ::
      x !in run.states[k].execs && run.states[k + 1].execs[x].ticket.taskId == t && run.states[k + 1].execs[x].ticket.attempt == 1
  }

  lemma LaunchTouches(run: Run, k: nat, t: int)
    requires IsRun(run) && k < |run.calls| && Launches(run, k, t)
    ensures Untouched(run.states[k].tasks[t].status)
    ensures t in run.states[k + 1].tasks && !Untouched(run.states[k + 1].tasks[t].status)
  {
    var s, r := run.states[k], run.states[k + 1];
    var x :| x in r.execs && x !in s.execs && r.execs[x].ticket.taskId == t && r.execs[x].ticket.attempt == 1;
    StepEvolves(run, k);
    ReachableRefs(run, k + 1);
    assert ExecRefsOk(r, r.execs[x]);
    EvolvedTask(s, r, t);
    assert x in JobOf(r, t).rows && x !in JobOf(s, t).rows;
  }

  /** The batch of first attempts of an existing task, i.e. of a CRON task, is created at most once. */
  lemma LaunchedOnce(run: Run, i: nat, k: nat, t: int)
    requires IsRun(run) && i < k < |run.calls| && Launches(run, i, t)
    ensures !Launches(run, k, t)
  {
    LaunchTouches(run, i, t);
    if Launches(run, k, t) {
      LaunchTouches(run, k, t);
      RunEvolves(run, i + 1, k);
      EvolvedTask(run.states[i + 1], run.states[k], t);
    }
  }

  lemma FiredIsRunning(s: Store, call: Call, r: Store, f: Firing)
    requires Follows(s, call, r) && call.event.Fire? && f in call.event.firings
    ensures f.taskId in s.tasks && Untouched(s.tasks[f.taskId].status)
    ensures f.taskId in r.tasks && r.tasks[f.taskId].status == RUNNING
  {
    assert Fireable(s, f);
    FiresItsTasks(s, call.now, call.event.firings);
  }

  lemma FiredAt(run: Run, k: nat, f: Firing)
    requires IsRun(run) && k < |run.calls| && run.calls[k].event.Fire? && f in run.calls[k].event.firings
    ensures f.taskId in run.states[k].tasks && Untouched(run.states[k].tasks[f.taskId].status)
    ensures f.taskId in run.states[k + 1].tasks && run.states[k + 1].tasks[f.taskId].status == RUNNING
  {
    StepAt(run, k);
    FiredIsRunning(run.states[k], run.calls[k], run.states[k + 1], f);
  }

  /** A CRON task fires at most once, whatever is cancelled, retried or cleaned up in between. */
  lemma CronFiresOnce(run: Run, i: nat, k: nat, f: Firing, g: Firing)
    requires IsRun(run) && i < k < |run.calls| && run.calls[i].event.Fire? && run.calls[k].event.Fire?
    requires f in run.calls[i].event.firings && g in run.calls[k].event.firings
    ensures f.taskId != g.taskId
  {
    FiredAt(run, i, f);
    FiredAt(run, k, g);
    if f.taskId == g.taskId {
      RunEvolves(run, i + 1, k);
      EvolvedTask(run.states[i + 1], run.states[k], f.taskId);
    }
  }

  // ---------- creating with an idempotency key ----------

  /** As long as the task created with a key is stored, a request with that key finds it and changes nothing. */
  lemma KeyFindsItsTask(run: Run, i: nat, k: nat, t: int, key: string, fleet: Fleet, data: TaskCreate, creator: int, order: seq<int>)
    requires IsRun(run) && i <= k <= |run.calls| && key != ""
    requires HasKey(run.states[i], t, key) && t in run.states[k].tasks
    ensures CreateTask(run.states[k], ClockAt(run, k), fleet, data, creator, Some(key), order) == Ok((run.states[k], t))
  {
    var s := run.states[k];
    RunEvolves(run, i, k);
    EvolvedTask(run.states[i], s, t);
    assert HasKey(s, t, key);
    ReachableRefs(run, k);
    OwnerIsUnique(s, t, key);
  }

  // ---------- the end of all change ----------

  /** How many of the calls from the `i`-th up to the `k`-th move an execution of task `t`. */
  function MovesOf(run: Run, t: int, i: nat, k: nat): nat
    requires i <= k < |run.states|
    requires forall m | i <= m <= k :: t in run.states[m].tasks
  {
    if i == k then 0
    else MovesOf(run, t, i, k - 1) + if Moved(JobOf(run.states[k - 1], t), JobOf(run.states[k], t)) then 1 else 0
  }

  lemma StepSpends(run: Run, k: nat, t: int, n: nat)
    requires IsRun(run) && k < |run.calls| && t in run.states[k].tasks && t in run.states[k + 1].tasks
    requires n >= run.states[k + 1].nextExec
    ensures Spends(JobOf(run.states[k], t), JobOf(run.states[k + 1], t), n)
  {
    StepAt(run, k);
    assert SpendsFrom(JobOf(run.states[k], t), JobOf(run.states[k + 1], t), run.states[k + 1].nextExec);
  }

  lemma {:induction false} MovesSpend(run: Run, t: int, i: nat, k: nat, n: nat)
    requires IsRun(run) && i <= k <= |run.calls| && n >= run.states[k].nextExec
    requires forall m | i <= m <= k :: t in run.states[m].tasks
    ensures MovesOf(run, t, i, k) + Remaining(JobOf(run.states[k], t), n) <= Remaining(JobOf(run.states[i], t), n)
  {
    if i < k {
      StepEvolves(run, k - 1);
      MovesSpend(run, t, i, k - 1, n);
      StepSpends(run, k - 1, t, n);
    }
  }

  /**
   * Work on a task ends: in any run at most 4 * max_attempts * targets calls ever create one of its
   * executions or change the status of one.
   */
  lemma MovesAreBounded(run: Run, t: int, i: nat, k: nat)
    requires IsRun(run) && i <= k <= |run.calls| && t in run.states[i].tasks && t in run.states[k].tasks
    ensures forall m | i <= m <= k :: t in run.states[m].tasks
    ensures var j := JobOf(run.states[i], t);
            MovesOf(run, t, i, k) <= 4 * j.task.terms.maxAttempts * |j.targets|
  {
    forall m | i <= m <= k ensures t in run.states[m].tasks {
      TasksPersist(run, i, m, k, t);
    }
    ReachableRefs(run, k);
    var n := run.states[k].nextExec;
    MovesSpend(run, t, i, k, n);
    RunEvolves(run, i, k);
    ReachableRefs(run, i);
    RowIdsBelow(run.states[i], t);
    ReachableJobOk(run, i, t);
    RemainingIsBounded(JobOf(run.states[i], t), ClockAt(run, i), n);
    ReachableJobOk(run, k, t);
    RemainingIsNatural(JobOf(run.states[k], t), ClockAt(run, k), n);
  }
}
