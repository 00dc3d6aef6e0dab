/**
 * How a single task may change from one moment to a later one, and the measure that every change uses up.
 */
module JobProgress {
  import opened Wrappers
  import opened TaskModel
  import opened JobInvariant
  import opened JobFacts

  /** How far an execution is from its end. */
  function Rank(s: Status): nat {
    match s
    case PENDING => 3
    case RUNNING => 2
    case RETRYING => 1
    case _ => 0
  }

  /** An execution keeps its ticket and only moves towards its end; what has ended is never written again. */
  predicate RowEvolves(e: Execution, f: Execution) {
    e.ticket == f.ticket &&
    (e == f || Rank(f.status) < Rank(e.status) || (e.status == RETRYING && f.status == RETRYING))
  }

  predicate TaskEvolves(t: Task, u: Task) {
    t.terms == u.terms &&
    (Terminal(t.status) ==> u == t) &&
    (!Untouched(t.status) ==> !Untouched(u.status)) &&
    (t.startedAt.Some? ==> u.startedAt == t.startedAt) &&
    (t.confirmedBy.Some? ==> u.confirmedBy.Some?)
  }

  /** New executions have ids from `bound` on and belong to unfinished tasks; a first attempt appears only on launch. */
  predicate NewRowOk(t: Task, u: Task, e: Execution) {
    !Terminal(t.status) && (e.ticket.attempt == 1 ==> Untouched(t.status) && !Untouched(u.status))
  }

  /** `k` is a possible later state of `j`, where ids below `bound` were taken in `j`. */
  predicate JobEvolves(j: Job, k: Job, bound: int) {
    k.targets == j.targets && TaskEvolves(j.task, k.task) &&
    (forall i | i in j.rows && i in k.rows :: RowEvolves(j.rows[i], k.rows[i])) &&
    (forall i | i in k.rows && i !in j.rows :: bound <= i && NewRowOk(j.task, k.task, k.rows[i]))
  }

  lemma EvolvesReflexive(j: Job, bound: int)
    ensures JobEvolves(j, j, bound)
  {
  }

  lemma RowEvolvesTransitive(e: Execution, f: Execution, g: Execution)
    requires RowEvolves(e, f) && RowEvolves(f, g)
    ensures RowEvolves(e, g)
  {
  }

  lemma EvolvesTransitive(j: Job, k: Job, m: Job, bound: int, later: int)
    requires JobEvolves(j, k, bound) && JobEvolves(k, m, later) && bound <= later
    requires forall i | i in j.rows :: i < bound
    ensures JobEvolves(j, m, bound)
  {
    forall i | i in j.rows && i in m.rows ensures RowEvolves(j.rows[i], m.rows[i]) {
      assert i in k.rows;
      RowEvolvesTransitive(j.rows[i], k.rows[i], m.rows[i]);
    }
    forall i | i in m.rows && i !in j.rows
      ensures bound <= i && NewRowOk(j.task, m.task, m.rows[i])
    {
      if i in k.rows {
        assert RowEvolves(k.rows[i], m.rows[i]);
      }
    }
  }

  // ---------- the measure ----------

  /** The most an execution and its successors may still change. */
  function Weight(maxAttempts: int, e: Execution): int {
    if Terminal(e.status) then 0 else 4 * (maxAttempts - e.ticket.attempt) + Rank(e.status)
  }

  function WeightAt(maxAttempts: int, rows: map<int, Execution>, i: int): int {
    if i in rows then Weight(maxAttempts, rows[i]) else 0
  }

  /** Total weight of the executions with ids below `n`. */
  function Work(maxAttempts: int, rows: map<int, Execution>, n: nat): int {
    if n == 0 then 0 else Work(maxAttempts, rows, n - 1) + WeightAt(maxAttempts, rows, n - 1)
  }

  /** What a CRON task that has not fired will still bring along. */
  function Unlaunched(j: Job): int {
    if Untouched(j.task.status) && j.task.terms.schedule != ONCE then 4 * j.task.terms.maxAttempts * |j.targets| else 0
  }

  function Remaining(j: Job, n: nat): int {
    Work(j.task.terms.maxAttempts, j.rows, n) + Unlaunched(j)
  }

  /** Some execution changed its status or came into being. */
  predicate Moved(j: Job, k: Job) {
    exists i | i in k.rows :: i !in j.rows || j.rows[i].status != k.rows[i].status
  }

  predicate IdsBelow(rows: map<int, Execution>, n: nat) {
    forall i | i in rows :: 0 <= i < n
  }

  lemma {:induction false} WorkMonotone(max: int, a: map<int, Execution>, b: map<int, Execution>, n: nat)
    requires forall i | 0 <= i < n :: WeightAt(max, b, i) <= WeightAt(max, a, i)
    ensures Work(max, b, n) <= Work(max, a, n)
    ensures (exists i | 0 <= i < n :: WeightAt(max, b, i) < WeightAt(max, a, i)) ==> Work(max, b, n) < Work(max, a, n)
  {
    if n > 0 {
      WorkMonotone(max, a, b, n - 1);
    }
  }

  lemma {:induction false} WorkUpdate(max: int, rows: map<int, Execution>, i: nat, e: Execution, n: nat)
    requires i < n
    ensures Work(max, rows[i := e], n) == Work(max, rows, n) - WeightAt(max, rows, i) + Weight(max, e)
  {
    if n - 1 == i {
      WorkSame(max, rows, rows[i := e], i);
    } else {
      WorkUpdate(max, rows, i, e, n - 1);
    }
  }

  lemma {:induction false} WorkSame(max: int, a: map<int, Execution>, b: map<int, Execution>, n: nat)
    requires forall i | 0 <= i < n :: WeightAt(max, a, i) == WeightAt(max, b, i)
    ensures Work(max, a, n) == Work(max, b, n)
  {
    if n > 0 {
      WorkSame(max, a, b, n - 1);
    }
  }

  lemma {:induction false} WorkBound(max: int, rows: map<int, Execution>, ids: set<int>, n: nat, c: int)
    requires c >= 0 && forall i | i in rows :: Weight(max, rows[i]) <= c
    requires ids == set i | i in rows.Keys && i < n
    requires forall i | i in rows :: i >= 0
    ensures Work(max, rows, n) <= c * |ids|
  {
    if n > 0 {
      var fewer := set i | i in rows.Keys && i < n - 1;
      WorkBound(max, rows, fewer, n - 1, c);
      if n - 1 in rows {
        assert ids == fewer + {n - 1};
        OneMore(c, |fewer|);
      } else {
        assert ids == fewer;
      }
    }
  }

  lemma OneMore(c: int, k: int)
    ensures c * (k + 1) == c * k + c
  {
  }

  /** The measure of a job never rises, and falls whenever an execution moves. */
  predicate Spends(j: Job, k: Job, n: nat) {
    Remaining(k, n) <= Remaining(j, n) && (Moved(j, k) ==> Remaining(k, n) < Remaining(j, n))
  }

  lemma RowWeightFalls(task: Task, e: Execution, f: Execution, now: int)
    requires RowOk(task, e, now) && RowOk(task, f, now) && RowEvolves(e, f)
    ensures 0 <= Weight(task.terms.maxAttempts, f) <= Weight(task.terms.maxAttempts, e)
    ensures e.status != f.status ==> Weight(task.terms.maxAttempts, f) < Weight(task.terms.maxAttempts, e)
  {
  }

  /** A change that creates no execution spends. */
  lemma SettlingSpends(j: Job, k: Job, now: int, n: nat, bound: int)
    requires JobOk(j, now) && JobOk(k, now) && JobEvolves(j, k, bound) && k.rows.Keys <= j.rows.Keys
    requires IdsBelow(j.rows, n)
    ensures Spends(j, k, n)
  {
    var max := j.task.terms.maxAttempts;
    forall i | 0 <= i < n
      ensures WeightAt(max, k.rows, i) <= WeightAt(max, j.rows, i)
      ensures i in k.rows && j.rows[i].status != k.rows[i].status ==> WeightAt(max, k.rows, i) < WeightAt(max, j.rows, i)
    {
      if i in k.rows {
        SameTermsSameRows(j, k, now, i);
        RowWeightFalls(k.task, j.rows[i], k.rows[i], now);
      } else if i in j.rows {
        assert RowOk(j.task, j.rows[i], now);
      }
    }
    WorkMonotone(max, j.rows, k.rows, n);
    if Moved(j, k) {
      var i :| i in k.rows && (i !in j.rows || j.rows[i].status != k.rows[i].status);
      assert WeightAt(max, k.rows, i) < WeightAt(max, j.rows, i);
    }
  }

  /** An execution is judged by the terms of its task only, so a later state of the task judges it the same. */
  lemma SameTermsSameRows(j: Job, k: Job, now: int, i: int)
    requires JobOk(j, now) && JobOk(k, now) && k.task.terms == j.task.terms && i in j.rows && i in k.rows
    requires j.rows[i].ticket == k.rows[i].ticket
    ensures RowOk(k.task, j.rows[i], now) && RowOk(k.task, k.rows[i], now)
  {
    assert RowOk(j.task, j.rows[i], now);
    assert RowOk(k.task, k.rows[i], now);
  }

  // ---------- every operation evolves the job and spends ----------

  lemma AdvancesEvolves(task: Task, e: Execution, f: Execution, now: int)
    requires RowOk(task, e, now) && Advances(task, e, f, now)
    requires f.status == RUNNING ==> e.status == PENDING
    requires f.status != PENDING
    ensures RowEvolves(e, f)
  {
  }

  function Confirmed(j: Job, now: int, operator: int): Job {
    j.(task := j.task.(status := PENDING, confirmedBy := Some(operator), confirmedAt := Some(now)))
  }

  lemma ConfirmedEvolves(j: Job, now: int, operator: int, bound: int)
    requires JobOk(j, now) && j.task.status == CREATED
    ensures JobOk(Confirmed(j, now, operator), now) && JobEvolves(j, Confirmed(j, now, operator), bound)
  {
    forall i | i in j.rows ensures RowOk(Confirmed(j, now, operator).task, j.rows[i], now) {
      assert RowOk(j.task, j.rows[i], now);
    }
  }

  lemma CancelledEvolves(j: Job, now: int, bound: int)
    requires JobOk(j, now) && !Terminal(j.task.status)
    ensures JobEvolves(j, Cancelled(j, now), bound)
    ensures Cancelled(j, now).rows.Keys == j.rows.Keys
  {
    VerdictNeverUntouched(LatestStatuses(CancelRows(j.rows, now)));
    assert CancelRows(j.rows, now).Keys == j.rows.Keys;
    forall i | i in j.rows ensures RowEvolves(j.rows[i], CancelRows(j.rows, now)[i]) {
      assert RowOk(j.task, j.rows[i], now);
    }
  }

  lemma ReportedEvolves(j: Job, i: int, report: Report, now: int, bound: int)
    requires JobOk(j, now) && i in j.rows && !Terminal(j.rows[i].status)
    ensures JobEvolves(j, Reported(j, i, report, now), bound)
    ensures Reported(j, i, report, now).rows.Keys == j.rows.Keys
  {
    OpenRowMeansOpenTask(j, now, i);
    ReportedOk(j, i, report, now);
    SettleAdvances(j.task, j.rows[i], report, now);
    AdvancesEvolves(j.task, j.rows[i], Settle(j.task, j.rows[i], report, now), now) by {
      assert RowOk(j.task, j.rows[i], now);
    }
  }

  lemma TimeoutEvolves(e: Execution, timeoutSeconds: nat, now: int)
    ensures RowEvolves(e, if IsExpired(e, timeoutSeconds, now) then MarkTimeout(e, timeoutSeconds, now) else e)
  {
  }

  lemma RetryEvolves(e: Execution, now: int)
    requires e.status == RETRYING
    ensures RowEvolves(e, Archive(e, now)) && RowEvolves(e, Exhaust(e, now))
  {
  }

  lemma TimedOutEvolves(j: Job, now: int, bound: int)
    requires JobOk(j, now)
    ensures JobEvolves(j, TimedOut(j, now), bound)
    ensures TimedOut(j, now).rows.Keys == j.rows.Keys
  {
    var rows := TimeoutRows(j.rows, j.task.terms.timeoutSeconds, now);
    VerdictNeverUntouched(LatestStatuses(rows));
    assert rows.Keys == j.rows.Keys;
    if j.task.status == RUNNING && HasExpired(j.rows, j.task.terms.timeoutSeconds, now) {
      var k := Aggregated(j.(rows := rows), now);
      forall i | i in j.rows ensures RowEvolves(j.rows[i], rows[i]) {
        TimeoutEvolves(j.rows[i], j.task.terms.timeoutSeconds, now);
      }
      assert k.rows == rows;
      assert TaskEvolves(j.task, k.task);
    } else {
      EvolvesReflexive(j, bound);
    }
  }

  lemma ClaimedEvolves(j: Job, claimed: set<int>, now: int, bound: int)
    requires JobOk(j, now)
    requires Touches(j.rows, claimed) ==> j.task.status in {PENDING, RUNNING}
    requires forall i | i in claimed && i in j.rows :: j.rows[i].status == PENDING
    ensures JobEvolves(j, Claimed(j, claimed, now), bound)
    ensures Claimed(j, claimed, now).rows.Keys == j.rows.Keys
  {
    var rows := ClaimRows(j.rows, claimed, now);
    assert rows.Keys == j.rows.Keys;
    forall i | i in j.rows ensures RowEvolves(j.rows[i], rows[i]) {
      assert i !in claimed ==> rows[i] == j.rows[i];
    }
  }

  lemma RedispatchedEvolves(j: Job, i: int, newId: int, now: int)
    requires JobOk(j, now) && Due(j, i, now) && newId !in j.rows
    ensures JobEvolves(j, Redispatched(j, i, newId, now), newId)
  {
    RedispatchedOk(j, i, newId, now);
    RetryEvolves(j.rows[i], now);
    var k := Redispatched(j, i, newId, now);
    assert TaskEvolves(j.task, k.task);
    forall m | m in j.rows && m in k.rows ensures RowEvolves(j.rows[m], k.rows[m]) {
      assert m != i ==> k.rows[m] == j.rows[m];
    }
    forall m | m in k.rows && m !in j.rows ensures newId <= m && NewRowOk(j.task, k.task, k.rows[m]) {
      assert m == newId;
      assert RowOk(j.task, j.rows[i], now);
    }
  }

  lemma FiredEvolves(j: Job, rows: map<int, Execution>, now: int, bound: int)
    requires JobOk(j, now) && j.task.terms.schedule == CRON && Untouched(j.task.status)
    requires FirstBatch(rows, j.targets, now) && forall i | i in rows :: bound <= i
    ensures JobEvolves(j, j.(task := FireTask(j.task, now), rows := rows), bound)
  {
  }

  lemma PurgedEvolves(j: Job, now: int, cutoff: int, bound: int)
    requires JobOk(j, now)
    ensures JobEvolves(j, Purged(j, cutoff), bound)
    ensures Purged(j, cutoff).rows.Keys <= j.rows.Keys
  {
  }

  lemma RedispatchedSpends(j: Job, i: int, newId: nat, now: int, n: nat)
    requires JobOk(j, now) && Due(j, i, now) && newId !in j.rows && IdsBelow(j.rows, n) && newId < n
    ensures Spends(j, Redispatched(j, i, newId, now), n)
  {
    var k := Redispatched(j, i, newId, now);
    RedispatchedOk(j, i, newId, now);
    RedispatchedEvolves(j, i, newId, now);
    if CanRetry(j.task, j.rows[i], now) {
      var max, e := j.task.terms.maxAttempts, j.rows[i];
      assert RowOk(j.task, e, now);
      var rows := j.rows[i := Archive(e, now)];
      WorkUpdate(max, j.rows, i, Archive(e, now), n);
      WorkUpdate(max, rows, newId, NextAttempt(e, now), n);
    } else {
      SettlingSpends(j, k, now, n, newId);
    }
  }

  /** Everything the store needs to know about one turn of the dispatcher. */
  lemma RedispatchedStep(j: Job, i: int, newId: nat, now: int)
    requires JobOk(j, now) && Due(j, i, now) && newId !in j.rows && IdsBelow(j.rows, newId)
    ensures JobOk(Redispatched(j, i, newId, now), now) && JobEvolves(j, Redispatched(j, i, newId, now), newId)
    ensures forall n: nat | n > newId :: Spends(j, Redispatched(j, i, newId, now), n)
  {
    RedispatchedOk(j, i, newId, now);
    RedispatchedEvolves(j, i, newId, now);
    forall n: nat | n > newId ensures Spends(j, Redispatched(j, i, newId, now), n) {
      RedispatchedSpends(j, i, newId, now, n);
    }
  }

  lemma FiredSpends(j: Job, rows: map<int, Execution>, now: int, n: nat)
    requires JobOk(j, now) && j.task.terms.schedule == CRON && Untouched(j.task.status)
    requires FirstBatch(rows, j.targets, now) && IdsBelow(rows, n)
    ensures Spends(j, j.(task := FireTask(j.task, now), rows := rows), n)
    ensures Work(j.task.terms.maxAttempts, rows, n) < 4 * j.task.terms.maxAttempts * |j.targets|
  {
    var max := j.task.terms.maxAttempts;
    FirstBatchWork(rows, j.targets, max, now, n);
    assert j.rows == map[];
    WorkSame(max, j.rows, map[], n);
    EmptyWork(max, n);
  }

  lemma {:induction false} EmptyWork(max: int, n: nat)
    ensures Work(max, map[], n) == 0
  {
    if n > 0 {
      EmptyWork(max, n - 1);
    }
  }

  /** A whole first batch weighs less than its task did before the launch. */
  lemma FirstBatchWork(rows: map<int, Execution>, targets: set<int>, max: nat, now: int, n: nat)
    requires FirstBatch(rows, targets, now) && IdsBelow(rows, n) && max >= 1 && exists g :: g in targets
    ensures Work(max, rows, n) < 4 * max * |targets|
  {
    var ids := set i | i in rows.Keys && i < n;
    assert ids == rows.Keys;
    WorkBound(max, rows, ids, n, 4 * max - 1);
    var pairs := set i | i in rows.Keys :: ChainKey(rows[i]);
    InjectiveCount(rows, rows.Keys, pairs);
    PairsCount(targets, 1, pairs);
    var g :| g in targets;
    assert |targets| >= 1;
    Arithmetic(max, |rows.Keys|, |targets|);
  }

  lemma Arithmetic(max: nat, rows: nat, targets: nat)
    requires max >= 1 && rows <= targets && targets >= 1
    ensures (4 * max - 1) * rows < 4 * max * targets
  {
    assert (4 * max - 1) * rows <= (4 * max - 1) * targets;
    assert (4 * max - 1) * targets == 4 * max * targets - targets;
  }

  // ---------- bounds of the measure ----------

  /** The executions that have not ended. */
  function OpenRows(rows: map<int, Execution>): map<int, Execution> {
    map i | i in rows && !Terminal(rows[i].status) :: rows[i]
  }

  /** Every target has at most one execution that has not ended. */
  lemma OpenRowsAreFew(j: Job, now: int)
    requires JobOk(j, now)
    ensures |OpenRows(j.rows).Keys| <= |j.targets|
  {
    var open := OpenRows(j.rows);
    var pairs := set i | i in open.Keys :: ChainKey(open[i]);
    var firsts := set p | p in pairs :: p.0;
    forall i, k | i in open && k in open && i != k ensures open[i].ticket.targetId != open[k].ticket.targetId {
      if SameTarget(open[i], open[k]) {
        OnlyTheLastAttemptIsOpen(j, now, i, k);
      }
    }
    var targets := set i | i in open.Keys :: open[i].ticket.targetId;
    TargetCount(open, open.Keys, targets);
    forall g | g in targets ensures g in j.targets {
      var i :| i in open && open[i].ticket.targetId == g;
      assert i in j.rows;
    }
    SubsetCount(targets, j.targets);
  }

  lemma {:induction false} TargetCount(rows: map<int, Execution>, ids: set<int>, targets: set<int>)
    requires ids <= rows.Keys && targets == set i | i in ids :: rows[i].ticket.targetId
    requires forall i, k | i in ids && k in ids && i != k :: rows[i].ticket.targetId != rows[k].ticket.targetId
    ensures |ids| == |targets|
    decreases ids
  {
    if ids == {} {
      assert targets == {};
    } else {
      var i :| i in ids;
      var g := rows[i].ticket.targetId;
      assert targets - {g} == set k | k in ids - {i} :: rows[k].ticket.targetId;
      TargetCount(rows, ids - {i}, targets - {g});
      assert g in targets;
    }
  }

  lemma {:induction false} WorkIsNatural(max: int, rows: map<int, Execution>, n: nat)
    requires forall i | i in rows :: Weight(max, rows[i]) >= 0
    ensures Work(max, rows, n) >= 0
  {
    if n > 0 {
      WorkIsNatural(max, rows, n - 1);
    }
  }

  lemma RowWeightBounds(task: Task, e: Execution, now: int)
    requires RowOk(task, e, now)
    ensures 0 <= Weight(task.terms.maxAttempts, e) <= 4 * task.terms.maxAttempts - 1
  {
  }

  lemma RemainingIsNatural(j: Job, now: int, n: nat)
    requires JobOk(j, now)
    ensures Remaining(j, n) >= 0
  {
    forall i | i in j.rows ensures Weight(j.task.terms.maxAttempts, j.rows[i]) >= 0 {
      RowWeightBounds(j.task, j.rows[i], now);
    }
    WorkIsNatural(j.task.terms.maxAttempts, j.rows, n);
  }

  lemma OpenWork(j: Job, now: int, n: nat, c: nat)
    requires JobOk(j, now) && IdsBelow(j.rows, n) && c == 4 * j.task.terms.maxAttempts - 1
    ensures Work(j.task.terms.maxAttempts, j.rows, n) <= c * |OpenRows(j.rows).Keys|
  {
    var max, open := j.task.terms.maxAttempts, OpenRows(j.rows);
    WorkSame(max, j.rows, open, n);
    var ids := set i | i in open.Keys && i < n;
    assert ids == open.Keys;
    forall i | i in open ensures Weight(max, open[i]) <= c {
      RowWeightBounds(j.task, j.rows[i], now);
    }
    WorkBound(max, open, ids, n, c);
  }

  lemma WithinBudget(c: int, open: nat, targets: nat, work: int)
    requires c >= 0 && open <= targets && work <= c * open
    ensures work <= (c + 1) * targets
  {
    assert c * open <= c * targets;
  }

  lemma LaunchedWorkIsBounded(j: Job, now: int, n: nat, c: nat)
    requires JobOk(j, now) && IdsBelow(j.rows, n) && c == 4 * j.task.terms.maxAttempts - 1
    ensures Work(j.task.terms.maxAttempts, j.rows, n) <= (c + 1) * |j.targets|
  {
    OpenWork(j, now, n, c);
    OpenRowsAreFew(j, now);
    WithinBudget(c, |OpenRows(j.rows).Keys|, |j.targets|, Work(j.task.terms.maxAttempts, j.rows, n));
  }

  lemma RemainingIsBounded(j: Job, now: int, n: nat)
    requires JobOk(j, now) && IdsBelow(j.rows, n)
    ensures Remaining(j, n) <= 4 * j.task.terms.maxAttempts * |j.targets|
  {
    if Untouched(j.task.status) && j.task.terms.schedule != ONCE {
      assert j.rows == map[];
      EmptyWork(j.task.terms.maxAttempts, n);
    } else {
      LaunchedWorkIsBounded(j, now, n, 4 * j.task.terms.maxAttempts - 1);
    }
  }
}
