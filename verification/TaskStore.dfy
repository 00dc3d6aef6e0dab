/**
 * The task tables and what each public operation of TaskService does to them
 * (backend/app/services/task_service.py). Ids are handed out in increasing order and never reused.
 */
module TaskStore {
  import opened Wrappers
  import opened Clock
  import opened TaskModel

  datatype Level = INFO | ERROR

  datatype LogRow = LogRow(executionId: int, level: Level)

  datatype Store = Store(tasks: map<int, Task>, targets: map<int, Target>, execs: map<int, Execution>,
                         logs: map<int, LogRow>, nextTask: int, nextTarget: int, nextExec: int, nextLog: int)

  const EMPTY_STORE := Store(map[], map[], map[], map[], 1, 1, 1, 1)

  datatype Error =
    | TaskNotFound
    | ExecutionNotFound
    | ServerNotFound
    | BadRequest
    | TaskActionInvalid
    | ServiceNotWhitelisted
    | UnknownTaskType
    | DuplicateKey

  // ---------- looking at the tables ----------

  /** `xs` lists the elements of `s`, each once, in some order. */
  predicate IsOrderOf(xs: seq<int>, s: set<int>) {
    (forall k | 0 <= k < |xs| :: xs[k] in s) && (forall x | x in s :: x in xs) && Distinct(xs)
  }

  predicate Distinct(xs: seq<int>) {
    forall k, m | 0 <= k < m < |xs| :: xs[k] != xs[m]
  }

  /** The `n` ids from `first` on. */
  function Ids(first: int, n: nat): (ids: set<int>)
    ensures forall x :: x in ids <==> first <= x < first + n
  {
    if n == 0 then {} else Ids(first, n - 1) + {first + n - 1}
  }

  function Rows(execs: map<int, Execution>, t: int): map<int, Execution> {
    map i | i in execs && execs[i].ticket.taskId == t :: execs[i]
  }

  function TargetsOf(targets: map<int, Target>, t: int): set<int> {
    set g | g in targets && targets[g].taskId == t
  }

  function JobOf(s: Store, t: int): Job
    requires t in s.tasks
  {
    Job(s.tasks[t], Rows(s.execs, t), TargetsOf(s.targets, t))
  }

  // ---------- single writes ----------

  function PutExec(s: Store, i: int, e: Execution): Store {
    s.(execs := s.execs[i := e])
  }

  function InsertExec(s: Store, e: Execution): Store {
    s.(execs := s.execs[s.nextExec := e], nextExec := s.nextExec + 1)
  }

  function AddLog(s: Store, i: int, level: Level): Store {
    s.(logs := s.logs[s.nextLog := LogRow(i, level)], nextLog := s.nextLog + 1)
  }

  ghost function Aggregate(s: Store, t: int, now: int): Store
    requires t in s.tasks
  {
    s.(tasks := s.tasks[t := AggregatedTask(s.tasks[t], Rows(s.execs, t), now)])
  }

  /** Replace execution `i`, log it and derive the status of its task `t` again. */
  ghost function Record(s: Store, i: int, e: Execution, level: Level, t: int, now: int): Store
    requires t in s.tasks
  {
    Aggregate(AddLog(PutExec(s, i, e), i, level), t, now)
  }

  // ---------- create_task ----------

  datatype TaskCreate = TaskCreate(taskType: string, action: Option<string>, serviceName: Option<string>,
                                   serverIds: seq<int>, schedule: Schedule, cron: Option<string>,
                                   timeoutSeconds: nat, maxAttempts: nat, confirmationRequired: Option<bool>)

  /** The limits the request schema puts on a task (backend/app/schemas/task.py). */
  predicate SchemaOk(data: TaskCreate) {
    |data.serverIds| >= 1 && 10 <= data.timeoutSeconds <= 3600 && 1 <= data.maxAttempts <= 10
  }

  function ServersOf(data: TaskCreate): set<int> {
    set sid | sid in data.serverIds
  }

  /** The server and service tables as create_task sees them. */
  datatype Fleet = Fleet(servers: set<int>, whitelist: set<(int, string)>)

  const GUARDED_ACTIONS: set<string> := {"START", "STOP", "RESTART"}

  function NormalizeAction(data: TaskCreate): Result<string, Error> {
    if data.taskType == "SERVICE_CHECK" then
      if data.action in {None, Some("STATUS")} then Ok("STATUS") else Err(TaskActionInvalid)
    else if data.taskType == "SERVICE_LOG" then
      if data.action in {None, Some("LOGS")} then Ok("LOGS") else Err(TaskActionInvalid)
    else if data.taskType == "SERVICE_ACTION" then
      if data.action.Some? && data.action.value in GUARDED_ACTIONS then Ok(data.action.value) else Err(TaskActionInvalid)
    else Err(UnknownTaskType)
  }

  function CheckWhitelist(fleet: Fleet, data: TaskCreate, action: string): Result<(), Error> {
    if action == "STATUS" || action == "LOGS" then Ok(())
    else if data.serviceName.None? || data.serviceName.value == "" then Err(BadRequest)
    else if exists sid | sid in ServersOf(data) :: (sid, data.serviceName.value) !in fleet.whitelist then Err(ServiceNotWhitelisted)
    else Ok(())
  }

  predicate HasKey(s: Store, t: int, key: string) {
    t in s.tasks && s.tasks[t].terms.idempotencyKey == Some(key)
  }

  function NewTask(data: TaskCreate, action: string, creator: int, key: Option<string>, now: int): Task {
    var confirm := if data.confirmationRequired.Some? then data.confirmationRequired.value else action in GUARDED_ACTIONS;
    Task(Terms(data.schedule, data.cron, action, data.serviceName, creator, now, data.timeoutSeconds, data.maxAttempts,
               Some(now + data.timeoutSeconds * data.maxAttempts * SECOND), key, confirm),
         if data.schedule == CRON || confirm then CREATED else PENDING, 0, None, None, None, None)
  }

  /** A batch of attempt-1 executions for the targets `gs` of task `t`, in that order. */
  function InsertBatch(s: Store, t: int, gs: seq<int>, now: int): Store
    requires forall k | 0 <= k < |gs| :: gs[k] in s.targets
  {
    s.(execs := s.execs + BatchRows(s, t, gs, now), nextExec := s.nextExec + |gs|)
  }

  function BatchRows(s: Store, t: int, gs: seq<int>, now: int): map<int, Execution>
    requires forall k | 0 <= k < |gs| :: gs[k] in s.targets
  {
    map i | i in Ids(s.nextExec, |gs|) ::
      NewExecution(t, gs[i - s.nextExec], s.targets[gs[i - s.nextExec]].serverId, 1, now)
  }

  /** The `n` ids from `first` on, in increasing order. */
  function Upwards(first: int, n: nat): (ids: seq<int>)
    ensures |ids| == n && forall k | 0 <= k < n :: ids[k] == first + k
  {
    seq(n, k => first + k)
  }

  /** The new task and its targets, without executions. */
  function InsertTask(s: Store, task: Task, order: seq<int>): Store {
    s.(tasks := s.tasks[s.nextTask := task], nextTask := s.nextTask + 1,
       targets := s.targets + (map g | g in Ids(s.nextTarget, |order|) :: Target(s.nextTask, order[g - s.nextTarget])),
       nextTarget := s.nextTarget + |order|)
  }

  function InsertJob(s: Store, task: Task, order: seq<int>, now: int): Store {
    var s1 := InsertTask(s, task, order);
    if task.terms.schedule == ONCE then InsertBatch(s1, s.nextTask, Upwards(s.nextTarget, |order|), now) else s1
  }

  predicate KeyTaken(s: Store, key: string) {
    exists t | t in s.tasks :: HasKey(s, t, key)
  }

  /** The task that owns an idempotency key. */
  ghost function KeyOwner(s: Store, key: string): int
    requires KeyTaken(s, key)
  {
    var t :| t in s.tasks && HasKey(s, t, key);
    t
  }

  /** The UNIQUE index on idempotency_key. */
  predicate KeysUnique(s: Store) {
    forall t, u | t in s.tasks && u in s.tasks && t != u ::
      s.tasks[t].terms.idempotencyKey.None? || s.tasks[t].terms.idempotencyKey != s.tasks[u].terms.idempotencyKey
  }

  /** Validation of a request that is not answered from an earlier one. */
  function Admit(fleet: Fleet, data: TaskCreate): Result<string, Error> {
    match NormalizeAction(data)
    case Err(e) => Err(e)
    case Ok(action) =>
      if !(ServersOf(data) <= fleet.servers) then Err(ServerNotFound)
      else
        match CheckWhitelist(fleet, data, action)
        case Err(e) => Err(e)
        case Ok(_) => Ok(action)
  }

  /** `order` is the order in which Python happens to walk the set of server ids. */
  ghost function CreateTask(s: Store, now: int, fleet: Fleet, data: TaskCreate, creator: int, key: Option<string>, order: seq<int>)
    : Result<(Store, int), Error>
  {
    if key.Some? && key.value != "" && KeyTaken(s, key.value) then Ok((s, KeyOwner(s, key.value)))
    else
      match Admit(fleet, data)
      case Err(e) => Err(e)
      case Ok(action) =>
        // the UNIQUE index also covers the empty key, which the lookup above skips
        if key.Some? && KeyTaken(s, key.value) then Err(DuplicateKey)
        else Ok((InsertJob(s, NewTask(data, action, creator, key, now), order, now), s.nextTask))
  }

  // ---------- confirm_task, cancel_task ----------

  function ConfirmTask(s: Store, now: int, t: int, operator: int): Result<Store, Error> {
    if t !in s.tasks then Err(TaskNotFound)
    else if s.tasks[t].status != CREATED then Err(BadRequest)
    else Ok(s.(tasks := s.tasks[t := s.tasks[t].(status := PENDING, confirmedBy := Some(operator), confirmedAt := Some(now))]))
  }

  function CancelExecs(execs: map<int, Execution>, t: int, now: int): map<int, Execution> {
    map i | i in execs :: if execs[i].ticket.taskId == t then CancelRow(execs[i], now) else execs[i]
  }

  ghost function CancelTask(s: Store, now: int, t: int): Result<Store, Error> {
    if t !in s.tasks then Err(TaskNotFound)
    else if Terminal(s.tasks[t].status) then Err(BadRequest)
    else Ok(Aggregate(s.(execs := CancelExecs(s.execs, t, now)), t, now))
  }

  // ---------- fetch_pending ----------

  const FETCH_LIMIT := 10

  predicate Claimable(s: Store, server: int, i: int) {
    i in s.execs && s.execs[i].ticket.serverId == server && s.execs[i].status == PENDING &&
    s.execs[i].ticket.taskId in s.tasks && s.tasks[s.execs[i].ticket.taskId].status in {PENDING, RUNNING}
  }

  /** `batch` is what the query for a server's pending executions answers: the oldest ten. */
  predicate IsPendingBatch(s: Store, server: int, batch: seq<int>) {
    |batch| <= FETCH_LIMIT &&
    (forall k | 0 <= k < |batch| :: Claimable(s, server, batch[k])) &&
    (forall k, m | 0 <= k < m < |batch| :: batch[k] < batch[m]) &&
    (forall i | i in s.execs && Claimable(s, server, i) && i !in batch ::
       |batch| == FETCH_LIMIT && forall k | 0 <= k < |batch| :: batch[k] < i)
  }

  function SetOf(xs: seq<int>): set<int> {
    set x | x in xs
  }

  function FetchPending(s: Store, now: int, claimed: set<int>): Store {
    s.(execs := ClaimRows(s.execs, claimed, now),
       tasks := map t | t in s.tasks ::
         if Touches(Rows(s.execs, t), claimed) then ClaimTask(s.tasks[t], now) else s.tasks[t])
  }

  // ---------- report_result ----------

  ghost function ReportResult(s: Store, now: int, server: int, i: int, report: Report): Result<Store, Error> {
    if i !in s.execs || s.execs[i].ticket.serverId != server then Err(ExecutionNotFound)
    else if Terminal(s.execs[i].status) then Ok(s)
    else if s.execs[i].ticket.taskId !in s.tasks then Err(TaskNotFound)
    else
      var t := s.execs[i].ticket.taskId;
      var e := Settle(s.tasks[t], s.execs[i], report, now);
      Ok(Record(s, i, e, if report.status == "SUCCESS" then INFO else ERROR, t, now))
  }

  // ---------- scan_timeouts ----------

  predicate Scanned(s: Store, e: Execution, now: int) {
    e.ticket.taskId in s.tasks && s.tasks[e.ticket.taskId].status == RUNNING &&
    IsExpired(e, s.tasks[e.ticket.taskId].terms.timeoutSeconds, now)
  }

  function ScanExecs(s: Store, now: int): map<int, Execution> {
    map i | i in s.execs ::
      if Scanned(s, s.execs[i], now) then MarkTimeout(s.execs[i], s.tasks[s.execs[i].ticket.taskId].terms.timeoutSeconds, now)
      else s.execs[i]
  }

  ghost function ScanTask(s: Store, execs: map<int, Execution>, t: int, now: int): Task
    requires t in s.tasks
  {
    var task := s.tasks[t];
    if task.status == RUNNING && HasExpired(Rows(s.execs, t), task.terms.timeoutSeconds, now)
    then AggregatedTask(task, Rows(execs, t), now)
    else task
  }

  ghost function ScanTimeouts(s: Store, now: int): Store {
    s.(execs := ScanExecs(s, now), tasks := map t | t in s.tasks :: ScanTask(s, ScanExecs(s, now), t, now))
  }

  // ---------- dispatch_retries ----------

  predicate DueExec(s: Store, now: int, i: int) {
    i in s.execs && s.execs[i].status == RETRYING && s.execs[i].nextRetryAt.Some? && s.execs[i].nextRetryAt.value <= now
  }

  /** `due` is what the query for due retries answers: the `limit` earliest ones, ties in any order. */
  predicate IsDueBatch(s: Store, now: int, limit: nat, due: seq<int>) {
    |due| <= limit && Distinct(due) &&
    (forall k | 0 <= k < |due| :: DueExec(s, now, due[k])) &&
    (forall k, m | 0 <= k < m < |due| :: s.execs[due[k]].nextRetryAt.value <= s.execs[due[m]].nextRetryAt.value) &&
    (forall i | i in s.execs && DueExec(s, now, i) && i !in due ::
       |due| == limit && forall k | 0 <= k < |due| :: s.execs[due[k]].nextRetryAt.value <= s.execs[i].nextRetryAt.value)
  }

  /** The dispatcher replaces execution `i` of task `t` by its next attempt. */
  ghost function Retry(s: Store, now: int, i: int, t: int): Store
    requires i in s.execs && t in s.tasks
  {
    var e := s.execs[i];
    var s1 := InsertExec(PutExec(s, i, Archive(e, now)), NextAttempt(e, now));
    var s2 := s1.(tasks := s1.tasks[t := s1.tasks[t].(attempt := e.ticket.attempt + 1)]);
    Aggregate(AddLog(s2, i, INFO), t, now)
  }

  /** One turn of the loop in dispatch_retries, on execution `i`. */
  ghost function DispatchOne(s: Store, now: int, i: int): Store {
    if i !in s.execs || s.execs[i].ticket.taskId !in s.tasks then s
    else
      var t := s.execs[i].ticket.taskId;
      if Terminal(s.tasks[t].status) then PutExec(s, i, Archive(s.execs[i], now))
      else if !CanRetry(s.tasks[t], s.execs[i], now) then Record(s, i, Exhaust(s.execs[i], now), ERROR, t, now)
      else Retry(s, now, i, t)
  }

  ghost function DispatchRetries(s: Store, now: int, due: seq<int>): Store {
    if due == [] then s else DispatchOne(DispatchRetries(s, now, due[..|due| - 1]), now, due[|due| - 1])
  }

  // ---------- fire_due_cron ----------

  /** A CRON task to fire and the order in which its targets were read. */
  datatype Firing = Firing(taskId: int, targets: seq<int>)

  /** `dueTasks` are the tasks whose cron expression is valid and has come due. */
  predicate CronDue(s: Store, dueTasks: set<int>, t: int) {
    t in s.tasks && s.tasks[t].terms.schedule == CRON && Untouched(s.tasks[t].status) &&
    s.tasks[t].terms.cron.Some? && s.tasks[t].terms.cron.value != "" && t in dueTasks
  }

  predicate IsFiringBatch(s: Store, dueTasks: set<int>, batch: seq<Firing>) {
    (forall k | 0 <= k < |batch| :: CronDue(s, dueTasks, batch[k].taskId) && IsOrderOf(batch[k].targets, TargetsOf(s.targets, batch[k].taskId))) &&
    (forall k, m | 0 <= k < m < |batch| :: batch[k].taskId != batch[m].taskId) &&
    (forall t | t in s.tasks && CronDue(s, dueTasks, t) :: exists k | 0 <= k < |batch| :: batch[k].taskId == t)
  }

  predicate TargetsKnown(s: Store, gs: seq<int>) {
    forall k | 0 <= k < |gs| :: gs[k] in s.targets
  }

  predicate Known(s: Store, f: Firing) {
    f.taskId in s.tasks && TargetsKnown(s, f.targets)
  }

  function FireOne(s: Store, now: int, f: Firing): Store
    requires Known(s, f)
  {
    InsertBatch(s, f.taskId, f.targets, now).(tasks := s.tasks[f.taskId := FireTask(s.tasks[f.taskId], now)])
  }

  function FireDueCron(s: Store, now: int, batch: seq<Firing>): (r: Store)
    requires forall f | f in batch :: Known(s, f)
    ensures r.targets == s.targets && r.tasks.Keys == s.tasks.Keys
  {
    if batch == [] then s
    else
      var f := batch[|batch| - 1];
      var s1 := FireDueCron(s, now, batch[..|batch| - 1]);
      assert f in batch && s1.targets == s.targets && Known(s, f);
      FireOne(s1, now, f)
  }

  // ---------- cleanup_history ----------

  const DAY := 86400 * SECOND

  function Cutoff(now: int, retentionDays: nat): int {
    now - retentionDays * DAY
  }

  function DeleteTerminalBefore(s: Store, cutoff: int): Store {
    var kept := PurgeRows(s.execs, cutoff);
    s.(execs := kept,
       logs := map l | l in s.logs && !(s.logs[l].executionId in s.execs && s.logs[l].executionId !in kept) :: s.logs[l])
  }

  predicate Forgotten(s: Store, cutoff: int, t: int) {
    t in s.tasks && s.tasks[t].terms.schedule == ONCE && Terminal(s.tasks[t].status) &&
    s.tasks[t].finishedAt.Some? && s.tasks[t].finishedAt.value < cutoff &&
    forall i | i in s.execs :: s.execs[i].ticket.taskId != t
  }

  function DeleteFinishedTasksBefore(s: Store, cutoff: int): Store {
    s.(targets := map g | g in s.targets && !Forgotten(s, cutoff, s.targets[g].taskId) :: s.targets[g],
       tasks := map t | t in s.tasks && !Forgotten(s, cutoff, t) :: s.tasks[t])
  }

  function CleanupHistory(s: Store, cutoff: int): Store {
    DeleteFinishedTasksBefore(DeleteTerminalBefore(s, cutoff), cutoff)
  }
}
