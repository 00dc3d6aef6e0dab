/** Whole runs of the alert engine: evaluations and operator actions in any order, on a clock that never runs backwards. */
module AlertHistory {
  import opened Wrappers
  import opened Clock
  import opened AlertRules
  import opened AlertBoard
  import opened AlertRounds
  import opened AlertInvariant

  datatype Call =
    | Evaluation(round: Round)
    | Acknowledgement(eventId: nat, operator: Option<int>, at: int)
    | Resolution(eventId: nat, operator: Option<int>, at: int)

  function Now(call: Call): int {
    match call
    case Evaluation(round) => round.now
    case Acknowledgement(_, _, at) => at
    case Resolution(_, _, at) => at
  }

  predicate Legal(call: Call) {
    call.Evaluation? ==> RoundOk(call.round)
  }

  /** The events and logs after a call; a refused call leaves them alone. */
  function Next(b: Board, call: Call): Board {
    match call
    case Evaluation(round) => EvaluateAll(b, round)
    case Acknowledgement(k, operator, at) =>
      var r := Acknowledge(b, k, operator, at);
      if r.Ok? then r.value else b
    case Resolution(k, operator, at) =>
      var r := Resolve(b, k, operator, at);
      if r.Ok? then r.value else b
  }

  lemma EvolvesReflexive(b: Board)
    ensures BoardEvolves(b, b)
  {
  }

  lemma NextSteps(b: Board, call: Call)
    requires BoardOk(b, Now(call))
    ensures Steps(b, Next(b, call), Now(call))
  {
    EvolvesReflexive(b);
    match call
    case Evaluation(round) => EvaluatePairsSteps(b, round, Pairs(round.rules, round.servers));
    case Acknowledgement(k, operator, at) =>
      if Acknowledge(b, k, operator, at).Ok? {
        AcknowledgeSteps(b, k, operator, at);
      }
    case Resolution(k, operator, at) =>
      if Resolve(b, k, operator, at).Ok? {
        ResolveSteps(b, k, operator, at);
      }
  }

  // ---------- runs ----------

  /** `states[k]` are the events and logs before the `k`-th call. */
  datatype Run = Run(states: seq<Board>, calls: seq<Call>)

  predicate CallFollows(run: Run, k: nat)
    requires k < |run.calls| && |run.states| == |run.calls| + 1
  {
    Legal(run.calls[k]) && run.states[k + 1] == Next(run.states[k], run.calls[k])
  }

  ghost predicate IsRun(run: Run) {
    |run.states| == |run.calls| + 1 && run.states[0] == Board([], []) &&
    (forall k: nat | k < |run.calls| :: CallFollows(run, k)) &&
    (forall k, m | 0 <= k < m < |run.calls| :: Now(run.calls[k]) <= Now(run.calls[m]))
  }

  function ClockAt(run: Run, k: nat): int
    requires k <= |run.calls|
  {
    if k > 0 then Now(run.calls[k - 1]) else if |run.calls| > 0 then Now(run.calls[0]) else 0
  }

  /** The invariant holds in every reachable state. */
  lemma {:induction false} ReachableOk(run: Run, k: nat)
    requires IsRun(run) && k <= |run.calls|
    ensures BoardOk(run.states[k], ClockAt(run, k))
  {
    if k > 0 {
      ReachableOk(run, k - 1);
      assert CallFollows(run, k - 1);
      BoardOkLater(run.states[k - 1], ClockAt(run, k - 1), Now(run.calls[k - 1]));
      NextSteps(run.states[k - 1], run.calls[k - 1]);
    }
  }

  lemma StepAt(run: Run, k: nat)
    requires IsRun(run) && k < |run.calls|
    ensures BoardOk(run.states[k], Now(run.calls[k])) && BoardEvolves(run.states[k], run.states[k + 1])
    ensures Legal(run.calls[k]) && run.states[k + 1] == Next(run.states[k], run.calls[k])
  {
    ReachableOk(run, k);
    assert CallFollows(run, k);
    BoardOkLater(run.states[k], ClockAt(run, k), Now(run.calls[k]));
    NextSteps(run.states[k], run.calls[k]);
  }

  lemma {:induction false} RunEvolves(run: Run, i: nat, k: nat)
    requires IsRun(run) && i <= k <= |run.calls|
    ensures BoardEvolves(run.states[i], run.states[k])
  {
    if i == k {
      EvolvesReflexive(run.states[i]);
    } else {
      RunEvolves(run, i, k - 1);
      StepAt(run, k - 1);
      EvolvesTransitive(run.states[i], run.states[k - 1], run.states[k]);
    }
  }

  /** In every reachable state a key has at most one active event and every event's log leads to its status. */
  lemma HistoryIsAPath(run: Run, k: nat, x: nat)
    requires IsRun(run) && k <= |run.calls| && x < |run.states[k].events|
    ensures OneActive(run.states[k].events)
    ensures Path(History(run.states[k].logs, x), run.states[k].events[x].status)
  {
    ReachableOk(run, k);
  }

  /** Statuses only rise, a resolved event never changes again and the log is only appended to. */
  lemma StatusesOnlyRise(run: Run, i: nat, k: nat, x: nat)
    requires IsRun(run) && i <= k <= |run.calls| && x < |run.states[i].events|
    ensures x < |run.states[k].events| && run.states[i].logs <= run.states[k].logs
    ensures Rank(run.states[i].events[x].status) <= Rank(run.states[k].events[x].status)
    ensures run.states[i].events[x].status == RESOLVED ==> run.states[k].events[x] == run.states[i].events[x]
  {
    RunEvolves(run, i, k);
    assert EventEvolves(run.states[i].events[x], run.states[k].events[x]);
  }

  // ---------- why a status changes ----------

  /** The evaluation judges a reading of the key. */
  predicate Reads(call: Call, p: Pair, key: string) {
    call.Evaluation? && InRound(call.round, p) && Key(p) == key && Value(call.round, p).Some?
  }

  function ReadingOf(call: Call, p: Pair): real
    requires Reads(call, p, Key(p))
  {
    Value(call.round, p).value
  }

  predicate Born(run: Run, i: nat, x: nat)
    requires i < |run.calls| && |run.states| == |run.calls| + 1
  {
    |run.states[i].events| <= x < |run.states[i + 1].events|
  }

  /** What an evaluation does to one event that it finds. */
  lemma EvaluationJudges(run: Run, i: nat, x: nat, p: Pair)
    requires IsRun(run) && i < |run.calls| && x < |run.states[i].events|
    requires Reads(run.calls[i], p, run.states[i].events[x].alertKey) && Active(run.states[i].events[x])
    ensures x < |run.states[i + 1].events|
    ensures run.states[i + 1].events[x] == Judge(run.states[i].events[x], p, ReadingOf(run.calls[i], p), Now(run.calls[i]))
  {
    StepAt(run, i);
    RoundIsPointwise(run.states[i], run.calls[i].round);
    PairForIs(run.calls[i].round, p);
  }

  /** An evaluation leaves an event alone if it is resolved or has no reading. */
  lemma EvaluationPasses(run: Run, i: nat, x: nat)
    requires IsRun(run) && i < |run.calls| && x < |run.states[i].events| && run.calls[i].Evaluation?
    requires Active(run.states[i].events[x]) ==> forall p :: !Reads(run.calls[i], p, run.states[i].events[x].alertKey)
    ensures x < |run.states[i + 1].events| && run.states[i + 1].events[x] == run.states[i].events[x]
  {
    StepAt(run, i);
    var round, e := run.calls[i].round, run.states[i].events[x];
    RoundIsPointwise(run.states[i], round);
    RoundPairs(round);
    var q := PairFor(PairsOf(round), e.alertKey);
    assert q.Some? && Active(e) ==> !Reads(run.calls[i], q.value, e.alertKey);
  }

  /** An event is only created, as PENDING, by an evaluation that reads a violating value for its key. */
  lemma BirthIsViolation(run: Run, i: nat, x: nat) returns (p: Pair)
    requires IsRun(run) && i < |run.calls| && Born(run, i, x)
    ensures var e := run.states[i + 1].events[x];
            && Reads(run.calls[i], p, e.alertKey) && Violates(p, ReadingOf(run.calls[i], p))
            && !HasActive(run.states[i].events, e.alertKey)
            && e.status == PENDING && e.firstFiredAt == Now(run.calls[i])
  {
    StepAt(run, i);
    var round, events := run.calls[i].round, run.states[i].events;
    RoundIsPointwise(run.states[i], round);
    RoundPairs(round);
    var e := run.states[i + 1].events[x];
    assert e == Raised(events, round, PairsOf(round))[x - |events|];
    RaisedKeys(events, round, PairsOf(round), e);
    p :| p in PairsOf(round) && Raises(events, round, p) && e == NewEvent(p, Value(round, p).value, round.now);
  }

  /** A PENDING event starts FIRING exactly when an evaluation reads a violation at least the rule's duration after its creation. */
  lemma FiringIsExact(run: Run, i: nat, x: nat)
    requires IsRun(run) && i < |run.calls| && x < |run.states[i].events| && run.states[i].events[x].status == PENDING
    ensures x < |run.states[i + 1].events|
    ensures run.states[i + 1].events[x].status == FIRING <==>
            exists p :: Reads(run.calls[i], p, run.states[i].events[x].alertKey) && Violates(p, ReadingOf(run.calls[i], p)) &&
                        Now(run.calls[i]) - run.states[i].events[x].firstFiredAt >= p.rule.durationSeconds * SECOND
  {
    StepAt(run, i);
    var e := run.states[i].events[x];
    if p :| Reads(run.calls[i], p, e.alertKey) {
      EvaluationJudges(run, i, x, p);
      forall q | Reads(run.calls[i], q, e.alertKey) ensures q == p {
        PairForIs(run.calls[i].round, p);
        PairForIs(run.calls[i].round, q);
      }
    } else if run.calls[i].Evaluation? {
      EvaluationPasses(run, i, x);
    }
  }

  /** An active event is resolved exactly by a reading that recovers it or by an operator. */
  lemma ResolvingIsExact(run: Run, i: nat, x: nat)
    requires IsRun(run) && i < |run.calls| && x < |run.states[i].events| && Active(run.states[i].events[x])
    ensures x < |run.states[i + 1].events|
    ensures run.states[i + 1].events[x].status == RESOLVED <==>
            || (exists p :: Reads(run.calls[i], p, run.states[i].events[x].alertKey) && Recovers(p, ReadingOf(run.calls[i], p)))
            || (run.calls[i].Resolution? && run.calls[i].eventId == x)
  {
    StepAt(run, i);
    var e := run.states[i].events[x];
    if p :| Reads(run.calls[i], p, e.alertKey) {
      EvaluationJudges(run, i, x, p);
      forall q | Reads(run.calls[i], q, e.alertKey) ensures q == p {
        PairForIs(run.calls[i].round, p);
        PairForIs(run.calls[i].round, q);
      }
    } else if run.calls[i].Evaluation? {
      EvaluationPasses(run, i, x);
    }
  }

  // ---------- sustained violation ----------

  /** Between its creation and its firing an event stays PENDING. */
  lemma PendingInBetween(run: Run, i: nat, m: nat, j: nat, x: nat)
    requires IsRun(run) && i < m <= j < |run.calls| && Born(run, i, x)
    requires x < |run.states[j].events| && run.states[j].events[x].status == PENDING
    ensures x < |run.states[m].events| && run.states[m].events[x].status == PENDING
    ensures run.states[m].events[x].alertKey == run.states[j].events[x].alertKey
    ensures run.states[m].events[x].firstFiredAt == Now(run.calls[i])
  {
    var p := BirthIsViolation(run, i, x);
    RunEvolves(run, i + 1, m);
    assert EventEvolves(run.states[i + 1].events[x], run.states[m].events[x]);
    RunEvolves(run, m, j);
    assert EventEvolves(run.states[m].events[x], run.states[j].events[x]);
  }

  /** Readings of an event's key strictly between two calls never recover it. */
  ghost predicate NoRecoveryBetween(run: Run, i: nat, j: nat, key: string)
    requires j <= |run.calls|
  {
    forall m, p | i < m < j && Reads(run.calls[m], p, key) :: !Recovers(p, ReadingOf(run.calls[m], p))
  }

  /** The reading that makes an event fire. */
  lemma FiringReading(run: Run, j: nat, x: nat) returns (p: Pair)
    requires IsRun(run) && j < |run.calls| && x < |run.states[j].events| && run.states[j].events[x].status == PENDING
    requires x < |run.states[j + 1].events| && run.states[j + 1].events[x].status == FIRING
    ensures Reads(run.calls[j], p, run.states[j].events[x].alertKey) && Violates(p, ReadingOf(run.calls[j], p))
    ensures Now(run.calls[j]) - run.states[j].events[x].firstFiredAt >= p.rule.durationSeconds * SECOND
  {
    FiringIsExact(run, j, x);
    p :| Reads(run.calls[j], p, run.states[j].events[x].alertKey) && Violates(p, ReadingOf(run.calls[j], p)) &&
         Now(run.calls[j]) - run.states[j].events[x].firstFiredAt >= p.rule.durationSeconds * SECOND;
  }

  /**
   * An alert that starts FIRING was violated when it was created, is violated now, at least the rule's duration lies
   * in between, and no reading evaluated meanwhile had recovered.
   */
  lemma FiringIsSustained(run: Run, i: nat, j: nat, x: nat) returns (first: Pair, last: Pair)
    requires IsRun(run) && i < j < |run.calls| && Born(run, i, x)
    requires x < |run.states[j].events| && run.states[j].events[x].status == PENDING
    requires x < |run.states[j + 1].events| && run.states[j + 1].events[x].status == FIRING
    ensures var key := run.states[j].events[x].alertKey;
            && Reads(run.calls[i], first, key) && Violates(first, ReadingOf(run.calls[i], first))
            && Reads(run.calls[j], last, key) && Violates(last, ReadingOf(run.calls[j], last))
            && Now(run.calls[j]) - Now(run.calls[i]) >= last.rule.durationSeconds * SECOND
            && NoRecoveryBetween(run, i, j, key)
  {
    var key := run.states[j].events[x].alertKey;
    PendingInBetween(run, i, j, j, x);
    PendingInBetween(run, i, i + 1, j, x);
    first := BirthIsViolation(run, i, x);
    last := FiringReading(run, j, x);
    forall m, p | i < m < j && Reads(run.calls[m], p, key) ensures !Recovers(p, ReadingOf(run.calls[m], p)) {
      PendingSurvives(run, i, m, j, x, p);
    }
  }

  /** A reading of the key of an event that stays PENDING does not recover it. */
  lemma PendingSurvives(run: Run, i: nat, m: nat, j: nat, x: nat, p: Pair)
    requires IsRun(run) && i < m < j < |run.calls| && Born(run, i, x)
    requires x < |run.states[j].events| && run.states[j].events[x].status == PENDING
    requires Reads(run.calls[m], p, run.states[j].events[x].alertKey)
    ensures !Recovers(p, ReadingOf(run.calls[m], p))
  {
    PendingInBetween(run, i, m, j, x);
    PendingInBetween(run, i, m + 1, j, x);
    ResolvingIsExact(run, m, x);
  }

  /** Unless a recovery threshold or the scaling of LOAD opens a band, every reading evaluated meanwhile violated. */
  lemma EveryReadingViolates(run: Run, i: nat, j: nat, x: nat, m: nat, p: Pair)
    requires IsRun(run) && i < m < j < |run.calls| && Born(run, i, x)
    requires x < |run.states[j].events| && run.states[j].events[x].status == PENDING
    requires x < |run.states[j + 1].events| && run.states[j + 1].events[x].status == FIRING
    requires Reads(run.calls[m], p, run.states[j].events[x].alertKey)
    requires p.rule.recoveryThreshold.None? && p.rule.metricType != "LOAD"
    ensures Violates(p, ReadingOf(run.calls[m], p))
  {
    var first, last := FiringIsSustained(run, i, j, x);
    RecoveryOpposesViolation(p);
    assert !Recovers(p, ReadingOf(run.calls[m], p));
  }

  // ---------- episodes ----------

  /** The call that created an event. */
  lemma {:induction false} BirthOf(run: Run, k: nat, x: nat) returns (i: nat)
    requires IsRun(run) && k <= |run.calls| && x < |run.states[k].events|
    ensures i < k && Born(run, i, x)
  {
    if x >= |run.states[k - 1].events| {
      i := k - 1;
    } else {
      i := BirthOf(run, k - 1, x);
    }
  }

  /** Alerts of one key never overlap: an earlier one was resolved before a later one began. */
  lemma EpisodesDoNotOverlap(run: Run, k: nat, x: nat, y: nat)
    requires IsRun(run) && k <= |run.calls| && x < y < |run.states[k].events|
    requires run.states[k].events[x].alertKey == run.states[k].events[y].alertKey
    ensures var e, f := run.states[k].events[x], run.states[k].events[y];
            e.status == RESOLVED && e.resolvedAt.Some? && e.resolvedAt.value <= f.firstFiredAt
  {
    var i := BirthOf(run, k, y);
    var p := BirthIsViolation(run, i, y);
    RunEvolves(run, i + 1, k);
    assert EventEvolves(run.states[i + 1].events[y], run.states[k].events[y]);
    assert EventEvolves(run.states[i + 1].events[x], run.states[k].events[x]);
    SameRoundDifferentKeys(run, i, x, y);
    RunEvolves(run, i, k);
    StepAt(run, i);
    var e := run.states[i].events[x];
    assert EventEvolves(e, run.states[k].events[x]);
    assert !Holds(e, e.alertKey);
    assert EventOk(e, Now(run.calls[i]));
  }

  /** One round never creates two events of a key. */
  lemma SameRoundDifferentKeys(run: Run, i: nat, x: nat, y: nat)
    requires IsRun(run) && i < |run.calls| && Born(run, i, y) && x < y
    requires run.states[i + 1].events[x].alertKey == run.states[i + 1].events[y].alertKey
    ensures x < |run.states[i].events|
  {
    if x >= |run.states[i].events| {
      var p := BirthIsViolation(run, i, x);
      var q := BirthIsViolation(run, i, y);
      ReachableOk(run, i + 1);
      assert Active(run.states[i + 1].events[x]) && Active(run.states[i + 1].events[y]);
    }
  }
}
