/**
 * The alert engine and the operator service over the tables they share, as the source runs them: nested loops that
 * look events up, change them in place and append to the log.
 */
module AlertService {
  import opened Wrappers
  import opened Clock
  import opened AlertRules
  import opened AlertBoard
  import opened AlertRounds
  import opened AlertInvariant

  /** The tables of events and logs with the writes of their repositories. */
  class AlertTables {
    var events: seq<Event>
    var logs: seq<LogRow>
    ghost var clock: int

    function Board(): Board
      reads this
    {
      AlertBoard.Board(events, logs)
    }

    ghost predicate Valid()
      reads this
    {
      BoardOk(Board(), clock)
    }

    constructor ()
      ensures Valid() && Board() == AlertBoard.Board([], [])
    {
      events, logs := [], [];
      clock := 0;
    }

    method Insert(e: Event) returns (id: nat)
      modifies this`events
      ensures id == |old(events)| && events == old(events) + [e]
    {
      id := |events|;
      events := events + [e];
    }

    method Record(eventId: nat, oldStatus: Option<Status>, newStatus: Status, value: real, operator: Option<int>)
      modifies this`logs
      ensures Board() == Log(old(Board()), eventId, oldStatus, newStatus, value, operator)
    {
      logs := logs + [LogRow(eventId, oldStatus, newStatus, value, operator)];
    }
  }

  class AlertEngine {
    const db: AlertTables

    constructor (db: AlertTables)
      ensures this.db == db
    {
      this.db := db;
    }

    /** Evaluates every rule for every server; `created` counts the new alerts. */
    method EvaluateAll(round: Round) returns (created: nat)
      requires db.Valid() && db.clock <= round.now && RoundOk(round)
      modifies db
      ensures db.Valid() && db.clock == round.now
      ensures db.Board() == AlertBoard.EvaluateAll(old(db.Board()), round)
      ensures created == |set p | p in PairsOf(round) && InRound(round, p) && Raises(old(db.events), round, p)|
    {
      ghost var b := db.Board();
      BoardOkLater(b, db.clock, round.now);
      EvaluatePairsSteps(b, round, PairsOf(round));
      CreatedCount(b, round);
      db.clock := round.now;
      if |round.rules| == 0 || |round.servers| == 0 {
        NothingToEvaluate(round.rules, round.servers);
        return 0;
      }
      created := EvaluateRules(round);
    }

    method EvaluateRules(round: Round) returns (created: nat)
      modifies db`events, db`logs
      ensures db.Board() == AlertBoard.EvaluateAll(old(db.Board()), round)
      ensures created == |db.events| - |old(db.events)|
    {
      ghost var b := db.Board();
      created := 0;
      for i := 0 to |round.rules|
        invariant db.Board() == EvaluatePairs(b, round, Pairs(round.rules[..i], round.servers))
        invariant created == |db.events| - |b.events|
      {
        var n := EvaluateRule(round, round.rules[i], Pairs(round.rules[..i], round.servers), b);
        created := created + n;
        assert round.rules[..i + 1][..i] == round.rules[..i];
      }
      assert round.rules[..|round.rules|] == round.rules;
    }

    /** The inner loop: one rule for every server. `earlier` are the pairs already done since the state `b`. */
    method EvaluateRule(round: Round, rule: Rule, ghost earlier: seq<Pair>, ghost b: Board) returns (created: nat)
      requires db.Board() == EvaluatePairs(b, round, earlier)
      modifies db`events, db`logs
      ensures db.Board() == EvaluatePairs(b, round, earlier + RowOf(rule, round.servers))
      ensures created == |db.events| - |old(db.events)|
    {
      ghost var row := RowOf(rule, round.servers);
      created := 0;
      assert earlier + row[..0] == earlier;
      for j := 0 to |round.servers|
        invariant db.Board() == EvaluatePairs(b, round, earlier + row[..j])
        invariant created == |db.events| - |old(db.events)|
      {
        NextTurn(b, round, earlier, row, j);
        var isNew := Evaluate(round, rule, round.servers[j]);
        if isNew {
          created := created + 1;
        }
      }
      assert row[..|row|] == row;
    }

    /** One turn of the loops. */
    method Evaluate(round: Round, rule: Rule, server: Server) returns (isNew: bool)
      modifies db`events, db`logs
      ensures db.Board() == EvaluatePair(old(db.Board()), round, Pair(rule, server))
      ensures |db.events| == |old(db.events)| + if isNew then 1 else 0
    {
      var value := GetValue(rule, server, if server.id in round.metrics then Some(round.metrics[server.id]) else None, round.now);
      if value.None? {
        return false;
      }
      var threshold := EffectiveThreshold(rule, server);
      if Compare(value.value, rule.operator, threshold) {
        isNew := HandleViolation(rule, server, value.value, threshold, round.now);
      } else {
        HandleRecovery(rule, server, value.value, round.now);
        isNew := false;
      }
    }

    method HandleViolation(rule: Rule, server: Server, value: real, threshold: Option<real>, now: int) returns (isNew: bool)
      requires threshold == EffectiveThreshold(rule, server) && Violates(Pair(rule, server), value)
      modifies db`events, db`logs
      ensures var p, found, b := Pair(rule, server), FindActive(old(db.events), AlertKey(rule.id, server.id, rule.metricType)), old(db.Board());
              && isNew == found.None?
              && db.Board() == if found.None? then Create(b, NewEvent(p, value, now))
                               else Update(b, found.value, Judge(b.events[found.value], p, value, now))
    {
      var alertKey := AlertKey(rule.id, server.id, rule.metricType);
      var found := FindActive(db.events, alertKey);
      if found.None? {
        var id := db.Insert(Event(rule.id, server.id, rule.metricType, alertKey, rule.targetType, rule.severity, PENDING, now, now,
                                  None, None, None, value, threshold));
        db.Record(id, None, PENDING, value, None);
        return true;
      }
      var k := found.value;
      db.events := db.events[k := db.events[k].(lastFiredAt := now, currentValue := value)];
      if db.events[k].status == PENDING && now - db.events[k].firstFiredAt >= rule.durationSeconds * SECOND {
        Transition(k, FIRING, value);
      }
      isNew := false;
    }

    method HandleRecovery(rule: Rule, server: Server, value: real, now: int)
      requires !Violates(Pair(rule, server), value)
      modifies db`events, db`logs
      ensures var p, found, b := Pair(rule, server), FindActive(old(db.events), AlertKey(rule.id, server.id, rule.metricType)), old(db.Board());
              db.Board() == if found.None? then b else Update(b, found.value, Judge(b.events[found.value], p, value, now))
    {
      var found := FindActive(db.events, AlertKey(rule.id, server.id, rule.metricType));
      if found.Some? {
        var k := found.value;
        if IsRecovered(rule, value) {
          db.events := db.events[k := db.events[k].(resolvedAt := Some(now))];
          Transition(k, RESOLVED, value);
        }
      }
    }

    method Transition(k: nat, newStatus: Status, value: real)
      requires k < |db.events|
      modifies db`events, db`logs
      ensures db.Board() == Log(old(db.Board()).(events := old(db.events)[k := old(db.events)[k].(status := newStatus, currentValue := value)]),
                                k, Some(old(db.events)[k].status), newStatus, value, None)
    {
      var oldStatus := db.events[k].status;
      db.events := db.events[k := db.events[k].(status := newStatus, currentValue := value)];
      db.Record(k, Some(oldStatus), newStatus, value, None);
    }
  }

  class AlertOperators {
    const db: AlertTables

    constructor (db: AlertTables)
      ensures this.db == db
    {
      this.db := db;
    }

    method Acknowledge(eventId: nat, operator: Option<int>, now: int) returns (r: Result<Event, Error>)
      requires db.Valid() && db.clock <= now
      modifies db
      ensures db.Valid() && db.clock == now
      ensures match AlertBoard.Acknowledge(old(db.Board()), eventId, operator, now)
              case Ok(b) => db.Board() == b && eventId < |b.events| && r == Ok(b.events[eventId])
              case Err(e) => r == Err(e) && db.Board() == old(db.Board())
    {
      ghost var b := db.Board();
      BoardOkLater(b, db.clock, now);
      db.clock := now;
      if eventId >= |db.events| {
        return Err(EventNotFound);
      }
      var e := db.events[eventId];
      if e.status == RESOLVED {
        return Err(BadRequest);
      }
      AcknowledgeSteps(b, eventId, operator, now);
      db.events := db.events[eventId := e.(status := ACKNOWLEDGED, acknowledgedBy := operator, acknowledgedAt := Some(now))];
      db.Record(eventId, Some(e.status), ACKNOWLEDGED, e.currentValue, operator);
      r := Ok(db.events[eventId]);
    }

    method Resolve(eventId: nat, operator: Option<int>, now: int) returns (r: Result<Event, Error>)
      requires db.Valid() && db.clock <= now
      modifies db
      ensures db.Valid() && db.clock == now
      ensures match AlertBoard.Resolve(old(db.Board()), eventId, operator, now)
              case Ok(b) => db.Board() == b && eventId < |b.events| && r == Ok(b.events[eventId])
              case Err(e) => r == Err(e) && db.Board() == old(db.Board())
    {
      ghost var b := db.Board();
      BoardOkLater(b, db.clock, now);
      db.clock := now;
      if eventId >= |db.events| {
        return Err(EventNotFound);
      }
      var e := db.events[eventId];
      if e.status == RESOLVED {
        return Err(BadRequest);
      }
      ResolveSteps(b, eventId, operator, now);
      db.events := db.events[eventId := e.(status := RESOLVED, resolvedAt := Some(now))];
      db.Record(eventId, Some(e.status), RESOLVED, e.currentValue, operator);
      r := Ok(db.events[eventId]);
    }
  }

  // ---------- lemmas about the loops ----------

  lemma {:induction false} NothingToEvaluate(rules: seq<Rule>, servers: seq<Server>)
    requires rules == [] || servers == []
    ensures Pairs(rules, servers) == []
  {
    if rules != [] {
      NothingToEvaluate(rules[..|rules| - 1], servers);
    }
  }

  lemma NextTurn(b: Board, round: Round, earlier: seq<Pair>, row: seq<Pair>, j: nat)
    requires j < |row|
    ensures EvaluatePairs(b, round, earlier + row[..j + 1]) == EvaluatePair(EvaluatePairs(b, round, earlier + row[..j]), round, row[j])
  {
    var pairs := earlier + row[..j + 1];
    assert pairs[..|pairs| - 1] == earlier + row[..j];
    assert pairs[|pairs| - 1] == row[j];
  }
}
