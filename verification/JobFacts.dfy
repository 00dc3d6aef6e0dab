/**
 * What the invariant of a single task means: the retry chain, the time budget, the verdicts, retention.
 */
module JobFacts {
  import opened Wrappers
  import opened Clock
  import opened RetryPolicy
  import opened TaskModel
  import opened JobInvariant

  // ---------- the retry chain ----------

  /** The stored attempts of a target are consecutive numbers. */
  lemma {:induction false} AttemptsAreConsecutive(j: Job, now: int, i: int, k: int, attempt: int)
    requires JobOk(j, now) && i in j.rows && k in j.rows && SameTarget(j.rows[i], j.rows[k])
    requires j.rows[i].ticket.attempt <= attempt <= j.rows[k].ticket.attempt
    ensures HasAttempt(j.rows, j.rows[i].ticket.targetId, attempt)
    decreases attempt - j.rows[i].ticket.attempt
  {
    if attempt > j.rows[i].ticket.attempt {
      AttemptsAreConsecutive(j, now, i, k, attempt - 1);
      var m :| m in j.rows && j.rows[m].ticket.targetId == j.rows[i].ticket.targetId && j.rows[m].ticket.attempt == attempt - 1;
      assert Ordered(j.rows[m], j.rows[k]);
    }
  }

  /** Every attempt of a target but the last one failed in a retryable way; one that has not ended is the last. */
  lemma OnlyTheLastAttemptIsOpen(j: Job, now: int, i: int, k: int)
    requires JobOk(j, now) && i in j.rows && k in j.rows && i != k && SameTarget(j.rows[i], j.rows[k])
    ensures j.rows[i].ticket.attempt != j.rows[k].ticket.attempt
    ensures !IsLatest(j.rows, i) ==> j.rows[i].status == FAILED && RetryableType(j.rows[i].errorType)
    ensures !Terminal(j.rows[i].status) ==> IsLatest(j.rows, i) && Terminal(j.rows[k].status)
    ensures j.rows[k].ticket.attempt <= j.task.terms.maxAttempts
  {
    assert Ordered(j.rows[i], j.rows[k]) && Ordered(j.rows[k], j.rows[i]);
    assert RowOk(j.task, j.rows[k], now);
    if !IsLatest(j.rows, i) {
      var m :| m in j.rows && SameTarget(j.rows[m], j.rows[i]) && j.rows[m].ticket.attempt > j.rows[i].ticket.attempt;
      assert Ordered(j.rows[i], j.rows[m]);
    }
  }

  /** The unique key (target, attempt) of an execution. */
  function ChainKey(e: Execution): (int, int) {
    (e.ticket.targetId, e.ticket.attempt)
  }

  lemma {:induction false} PairsCount(targets: set<int>, n: nat, pairs: set<(int, int)>)
    requires forall p | p in pairs :: p.0 in targets && 1 <= p.1 <= n
    ensures |pairs| <= |targets| * n
    decreases n
  {
    if n == 0 {
      assert pairs == {};
    } else {
      var last := set p | p in pairs && p.1 == n;
      var firsts := set p | p in last :: p.0;
      PairsCount(targets, n - 1, pairs - last);
      FirstsCount(last, firsts, n);
      SubsetCount(firsts, targets);
      assert |pairs| == |pairs - last| + |last|;
      assert |targets| * n == |targets| * (n - 1) + |targets|;
    }
  }

  lemma {:induction false} FirstsCount(pairs: set<(int, int)>, firsts: set<int>, n: int)
    requires firsts == set p | p in pairs :: p.0
    requires forall p | p in pairs :: p.1 == n
    ensures |pairs| == |firsts|
  {
    if pairs == {} {
      assert firsts == {};
    } else {
      var p :| p in pairs;
      var fewer := pairs - {p};
      FirstsCount(fewer, firsts - {p.0}, n) by {
        assert firsts - {p.0} == set q | q in fewer :: q.0;
      }
    }
  }

  lemma {:induction false} SubsetCount<T>(a: set<T>, b: set<T>)
    requires a <= b
    ensures |a| <= |b|
  {
    if a != {} {
      var x :| x in a;
      SubsetCount(a - {x}, b - {x});
    }
  }

  lemma {:induction false} InjectiveCount(rows: map<int, Execution>, ids: set<int>, pairs: set<(int, int)>)
    requires ids <= rows.Keys && pairs == set i | i in ids :: ChainKey(rows[i])
    requires forall i, k | i in ids && k in ids && i != k :: ChainKey(rows[i]) != ChainKey(rows[k])
    ensures |ids| == |pairs|
    decreases ids
  {
    if ids == {} {
      assert pairs == {};
    } else {
      var i :| i in ids;
      InjectiveCount(rows, ids - {i}, pairs - {ChainKey(rows[i])}) by {
        assert pairs - {ChainKey(rows[i])} == set k | k in ids - {i} :: ChainKey(rows[k]);
      }
      assert ChainKey(rows[i]) in pairs;
    }
  }

  /** A task never has more executions than targets times attempts. */
  lemma ExecutionsAreBounded(j: Job, now: int)
    requires JobOk(j, now)
    ensures |j.rows.Keys| <= |j.targets| * j.task.terms.maxAttempts
  {
    var pairs := set i | i in j.rows.Keys :: ChainKey(j.rows[i]);
    forall i, k | i in j.rows && k in j.rows && i != k ensures ChainKey(j.rows[i]) != ChainKey(j.rows[k]) {
      if SameTarget(j.rows[i], j.rows[k]) {
        assert Ordered(j.rows[i], j.rows[k]);
      }
    }
    InjectiveCount(j.rows, j.rows.Keys, pairs);
    forall p | p in pairs ensures p.0 in j.targets && 1 <= p.1 <= j.task.terms.maxAttempts {
      var i :| i in j.rows && p == ChainKey(j.rows[i]);
      assert RowOk(j.task, j.rows[i], now);
    }
    PairsCount(j.targets, j.task.terms.maxAttempts, pairs);
  }

  // ---------- the time budget ----------

  /** Attempt k+1 of a target starts its life no sooner than the backoff after attempt k did. */
  lemma BackoffIsRespected(j: Job, now: int, i: int, k: int)
    requires JobOk(j, now) && i in j.rows && k in j.rows && SameTarget(j.rows[i], j.rows[k])
    requires j.rows[i].ticket.attempt < j.rows[k].ticket.attempt
    ensures j.rows[i].ticket.createdAt + BackoffSeconds(j.rows[i].ticket.attempt) * SECOND <= j.rows[k].ticket.createdAt
    ensures j.rows[i].finishedAt.Some? && j.rows[i].finishedAt.value <= j.rows[k].ticket.createdAt
  {
    assert Ordered(j.rows[i], j.rows[k]);
  }

  /**
   * Attempt k exists only if all the backoff before it fits into the budget of the task, and it was
   * created after that much time and before the deadline.
   */
  lemma AttemptsFitTheBudget(j: Job, now: int, i: int)
    requires JobOk(j, now) && i in j.rows
    ensures var k, terms := j.rows[i].ticket.attempt, j.task.terms;
            && LaunchTime(j.task) + CumulativeBackoff(k) * SECOND <= j.rows[i].ticket.createdAt
            && (k >= 2 ==> j.rows[i].ticket.createdAt < terms.createdAt + terms.timeoutSeconds * terms.maxAttempts * SECOND)
            && (k >= 2 ==> CumulativeBackoff(k) < terms.timeoutSeconds * terms.maxAttempts)
  {
    assert RowOk(j.task, j.rows[i], now);
  }

  /** Ten attempts of ten seconds are a budget of 100 seconds; the 105 seconds before a fifth attempt never fit. */
  lemma TenByTenStopsAtFour(j: Job, now: int, i: int)
    requires JobOk(j, now) && i in j.rows
    requires j.task.terms.timeoutSeconds == 10 && j.task.terms.maxAttempts == 10
    ensures j.rows[i].ticket.attempt <= 4
  {
    AttemptsFitTheBudget(j, now, i);
    CumulativeBackoffClosedForm(j.rows[i].ticket.attempt);
  }

  // ---------- the verdicts ----------

  /** DEAD, FAILED and RETRYING mean what ADR-009 says, for the attempt that decides a target's result. */
  lemma VerdictsMeanWhatTheySay(j: Job, now: int, i: int)
    requires JobOk(j, now) && IsLatest(j.rows, i)
    ensures var e, task := j.rows[i], j.task;
            && (e.status == FAILED ==> e.errorType.Some? && !RetryableType(e.errorType))
            && (e.status == DEAD ==> RetryableType(e.errorType) && e.finishedAt.Some? && !CanRetry(task, e, e.finishedAt.value))
            && (e.status == RETRYING ==> RetryableType(e.errorType) && e.ticket.attempt < task.terms.maxAttempts &&
                                         e.finishedAt.Some? && e.nextRetryAt == Some(e.finishedAt.value + BackoffSeconds(e.ticket.attempt) * SECOND))
  {
    var e := j.rows[i];
    assert RowOk(j.task, e, now);
    assert e.status == FAILED && RetryableType(e.errorType) ==> HasAttempt(j.rows, e.ticket.targetId, e.ticket.attempt + 1);
  }

  /** The dispatcher kills a due execution exactly when the deadline of its task has passed. */
  lemma OnlyTheDeadlineKillsARetry(j: Job, now: int, i: int, newId: int)
    requires JobOk(j, now) && Due(j, i, now) && newId !in j.rows
    ensures !Terminal(j.task.status)
    ensures var r := Redispatched(j, i, newId, now);
            if j.task.terms.createdAt + j.task.terms.timeoutSeconds * j.task.terms.maxAttempts * SECOND <= now
            then r.rows.Keys == j.rows.Keys && r.rows[i].status == DEAD
            else r.rows.Keys == j.rows.Keys + {newId} && r.rows[i].status == FAILED && r.rows[newId].status == PENDING &&
                 r.rows[newId].ticket.attempt == j.rows[i].ticket.attempt + 1
  {
    assert RowOk(j.task, j.rows[i], now);
    OpenRowMeansOpenTask(j, now, i);
  }

  // ---------- retention ----------

  /** A purge never changes the status an unfinished, launched task would be given. */
  lemma PurgeKeepsTheVerdict(j: Job, now: int, cutoff: int)
    requires JobOk(j, now) && !Untouched(j.task.status)
    requires !Terminal(j.task.status) || EveryTargetSeen(Purged(j, cutoff))
    ensures Verdict(LatestStatuses(Purged(j, cutoff).rows)) == j.task.status
  {
    PurgedOk(j, now, cutoff);
    if Terminal(j.task.status) {
      PurgeKeepsSeenStatuses(j, now, cutoff);
    }
  }

  /** Once a task ended before the cutoff, one purge removes every execution it has. */
  lemma PurgeEmptiesOldTasks(j: Job, now: int, cutoff: int)
    requires JobOk(j, now) && Terminal(j.task.status) && j.task.finishedAt.Some? && j.task.finishedAt.value < cutoff
    ensures PurgeRows(j.rows, cutoff) == map[]
  {
    forall i | i in j.rows ensures Outdated(j.rows[i], cutoff) {
      assert Terminal(j.rows[i].status);
    }
  }

  // ---------- the verdict ----------

  /** How much a latest status weighs in the status of its task. */
  function Severity(s: Status): nat {
    match s
    case RETRYING => 6
    case PENDING => 5
    case RUNNING => 5
    case DEAD => 4
    case FAILED => 3
    case TIMEOUT => 3
    case SUCCESS => 2
    case CANCELLED => 1
    case CREATED => 0
  }

  /** The task status an execution status counts as. */
  function Shown(s: Status): Status {
    match s
    case PENDING => RUNNING
    case TIMEOUT => FAILED
    case _ => s
  }

  predicate IsWorst(s: Status, statuses: set<Status>) {
    s in statuses && forall u | u in statuses :: Severity(u) <= Severity(s)
  }

  /** The verdict is the gravest of the latest statuses; the fallback at the end of the chain of tests is never reached. */
  lemma VerdictIsTheWorst(statuses: set<Status>)
    requires statuses != {} && CREATED !in statuses
    ensures exists s :: IsWorst(s, statuses) && Verdict(statuses) == Shown(s)
    ensures forall s | IsWorst(s, statuses) :: Verdict(statuses) == Shown(s)
  {
    var worst := if RETRYING in statuses then RETRYING else if PENDING in statuses then PENDING else if RUNNING in statuses then RUNNING
                 else if DEAD in statuses then DEAD else if FAILED in statuses then FAILED else if TIMEOUT in statuses then TIMEOUT
                 else if SUCCESS in statuses then SUCCESS else CANCELLED;
    if worst == CANCELLED {
      var s :| s in statuses;
      assert s == CANCELLED;
      assert forall u | u in statuses :: u == CANCELLED;
    }
    assert IsWorst(worst, statuses);
  }
}
