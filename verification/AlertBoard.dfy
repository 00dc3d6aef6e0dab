/**
 * Alert events with their log and what one evaluation, an acknowledgement and a manual recovery do to them
 * (backend/app/services/alert_engine.py, backend/app/services/alert_service.py,
 * backend/app/repositories/alert_repository.py). An event's id is its position.
 */
module AlertBoard {
  import opened Wrappers
  import opened Clock
  import opened AlertRules

  datatype Status = PENDING | FIRING | ACKNOWLEDGED | RESOLVED

  datatype Event = Event(ruleId: nat, serverId: nat, metricType: string, alertKey: string, resourceType: string,
                         severity: string, status: Status, firstFiredAt: int, lastFiredAt: int,
                         acknowledgedBy: Option<int>, acknowledgedAt: Option<int>, resolvedAt: Option<int>,
                         currentValue: real, thresholdValue: Option<real>)

  datatype LogRow = LogRow(eventId: nat, oldStatus: Option<Status>, newStatus: Status, currentValue: real, operatorId: Option<int>)

  datatype Board = Board(events: seq<Event>, logs: seq<LogRow>)

  datatype Error = EventNotFound | BadRequest

  /** The generated column `is_active`. */
  predicate Active(e: Event) {
    e.status != RESOLVED
  }

  predicate Holds(e: Event, key: string) {
    e.alertKey == key && Active(e)
  }

  /** The active event of a key, if there is one. */
  function FindActive(events: seq<Event>, key: string): (r: Option<nat>)
    ensures r.Some? ==> r.value < |events| && Holds(events[r.value], key)
    ensures r.None? ==> forall k | 0 <= k < |events| :: !Holds(events[k], key)
  {
    if events == [] then None
    else
      var n := |events| - 1;
      var earlier := FindActive(events[..n], key);
      if earlier.Some? then earlier else if Holds(events[n], key) then Some(n) else None
  }

  predicate HasActive(events: seq<Event>, key: string) {
    FindActive(events, key).Some?
  }

  // ---------- single steps ----------

  function NewEvent(p: Pair, value: real, now: int): Event {
    Event(p.rule.id, p.server.id, p.rule.metricType, Key(p), p.rule.targetType, p.rule.severity, PENDING, now, now,
          None, None, None, value, EffectiveThreshold(p.rule, p.server))
  }

  /** What a reading does to the active event of its key. */
  function Judge(e: Event, p: Pair, value: real, now: int): Event {
    if Violates(p, value) then
      e.(lastFiredAt := now, currentValue := value,
         status := if e.status == PENDING && now - e.firstFiredAt >= p.rule.durationSeconds * SECOND then FIRING else e.status)
    else if IsRecovered(p.rule, value) then e.(status := RESOLVED, resolvedAt := Some(now), currentValue := value)
    else e
  }

  function Log(b: Board, k: nat, old_: Option<Status>, new_: Status, value: real, operator: Option<int>): Board {
    b.(logs := b.logs + [LogRow(k, old_, new_, value, operator)])
  }

  function Create(b: Board, e: Event): Board {
    Log(b.(events := b.events + [e]), |b.events|, None, e.status, e.currentValue, None)
  }

  /** Replace event `k`; a change of status is logged. */
  function Update(b: Board, k: nat, e: Event): Board
    requires k < |b.events|
  {
    var b1 := b.(events := b.events[k := e]);
    if e.status == b.events[k].status then b1 else Log(b1, k, Some(b.events[k].status), e.status, e.currentValue, None)
  }

  /** One turn of the nested loops. */
  function EvaluatePair(b: Board, round: Round, p: Pair): Board {
    match Value(round, p)
    case None => b
    case Some(value) =>
      match FindActive(b.events, Key(p))
      case None => if Violates(p, value) then Create(b, NewEvent(p, value, round.now)) else b
      case Some(k) => Update(b, k, Judge(b.events[k], p, value, round.now))
  }

  function EvaluatePairs(b: Board, round: Round, pairs: seq<Pair>): Board {
    if pairs == [] then b
    else EvaluatePair(EvaluatePairs(b, round, pairs[..|pairs| - 1]), round, pairs[|pairs| - 1])
  }

  /** The pairs of one rule, in the order of the servers. */
  function RowOf(rule: Rule, servers: seq<Server>): (pairs: seq<Pair>)
    ensures |pairs| == |servers| && forall j | 0 <= j < |servers| :: pairs[j] == Pair(rule, servers[j])
  {
    seq(|servers|, j requires 0 <= j < |servers| => Pair(rule, servers[j]))
  }

  /** All pairs, rule by rule. */
  function Pairs(rules: seq<Rule>, servers: seq<Server>): seq<Pair> {
    if rules == [] then [] else Pairs(rules[..|rules| - 1], servers) + RowOf(rules[|rules| - 1], servers)
  }

  function EvaluateAll(b: Board, round: Round): Board {
    EvaluatePairs(b, round, Pairs(round.rules, round.servers))
  }

  function Acknowledge(b: Board, k: nat, operator: Option<int>, now: int): Result<Board, Error> {
    if k >= |b.events| then Err(EventNotFound)
    else if b.events[k].status == RESOLVED then Err(BadRequest)
    else
      var e := b.events[k].(status := ACKNOWLEDGED, acknowledgedBy := operator, acknowledgedAt := Some(now));
      Ok(Log(b.(events := b.events[k := e]), k, Some(b.events[k].status), ACKNOWLEDGED, e.currentValue, operator))
  }

  function Resolve(b: Board, k: nat, operator: Option<int>, now: int): Result<Board, Error> {
    if k >= |b.events| then Err(EventNotFound)
    else if b.events[k].status == RESOLVED then Err(BadRequest)
    else
      var e := b.events[k].(status := RESOLVED, resolvedAt := Some(now));
      Ok(Log(b.(events := b.events[k := e]), k, Some(b.events[k].status), RESOLVED, e.currentValue, operator))
  }

  // ---------- the pairs of a round ----------

  predicate DistinctKeys(pairs: seq<Pair>) {
    forall k, m | 0 <= k < m < |pairs| :: Key(pairs[k]) != Key(pairs[m])
  }

  /** Ids are primary keys: no rule and no server is listed twice. */
  predicate RoundOk(round: Round) {
    (forall k, m | 0 <= k < m < |round.rules| :: round.rules[k].id != round.rules[m].id) &&
    (forall k, m | 0 <= k < m < |round.servers| :: round.servers[k].id != round.servers[m].id)
  }

  lemma {:induction false} PairsAreAll(rules: seq<Rule>, servers: seq<Server>, p: Pair)
    ensures p in Pairs(rules, servers) <==> p.rule in rules && p.server in servers
  {
    if rules != [] {
      var n := |rules| - 1;
      PairsAreAll(rules[..n], servers, p);
      assert rules == rules[..n] + [rules[n]];
      if p.rule == rules[n] && p.server in servers {
        var j :| 0 <= j < |servers| && servers[j] == p.server;
        assert RowOf(rules[n], servers)[j] == p;
      }
    }
  }

  lemma KeysDiffer(p: Pair, q: Pair)
    requires p.rule.id != q.rule.id || p.server.id != q.server.id
    ensures Key(p) != Key(q)
  {
    if Key(p) == Key(q) {
      AlertKeyInjective(p.rule.id, p.server.id, p.rule.metricType, q.rule.id, q.server.id, q.rule.metricType);
    }
  }

  lemma {:induction false} PairsHaveDistinctKeys(rules: seq<Rule>, servers: seq<Server>, round: Round)
    requires RoundOk(round) && servers == round.servers && |rules| <= |round.rules| && rules == round.rules[..|rules|]
    ensures DistinctKeys(Pairs(rules, servers))
  {
    if rules != [] {
      var n := |rules| - 1;
      var front, row := Pairs(rules[..n], servers), RowOf(rules[n], servers);
      PairsHaveDistinctKeys(rules[..n], servers, round);
      forall k, m | 0 <= k < m < |front + row| ensures Key((front + row)[k]) != Key((front + row)[m]) {
        if k >= |front| {
          KeysDiffer(row[k - |front|], row[m - |front|]);
        } else if m >= |front| {
          PairsAreAll(rules[..n], servers, front[k]);
          KeysDiffer(front[k], row[m - |front|]);
        }
      }
    }
  }

  // ---------- the round as one simultaneous step ----------

  /** The pair with a given key. */
  function PairFor(pairs: seq<Pair>, key: string): (r: Option<Pair>)
    ensures r.Some? ==> r.value in pairs && Key(r.value) == key
    ensures r.None? ==> forall k | 0 <= k < |pairs| :: Key(pairs[k]) != key
  {
    if pairs == [] then None
    else
      var n := |pairs| - 1;
      if Key(pairs[n]) == key then Some(pairs[n]) else PairFor(pairs[..n], key)
  }

  /** What a round makes of an event, judged from the event and its own pair alone. */
  function EventAfter(e: Event, round: Round, pairs: seq<Pair>): Event {
    match PairFor(pairs, e.alertKey)
    case None => e
    case Some(p) =>
      match Value(round, p)
      case None => e
      case Some(value) => if Active(e) then Judge(e, p, value, round.now) else e
  }

  function EventsAfter(events: seq<Event>, round: Round, pairs: seq<Pair>): (r: seq<Event>)
    ensures |r| == |events| && forall k | 0 <= k < |events| :: r[k] == EventAfter(events[k], round, pairs)
  {
    seq(|events|, k requires 0 <= k < |events| => EventAfter(events[k], round, pairs))
  }

  /** A pair whose reading violates the rule and whose key had no active event before the round. */
  predicate Raises(events: seq<Event>, round: Round, p: Pair) {
    Value(round, p).Some? && Violates(p, Value(round, p).value) && !HasActive(events, Key(p))
  }

  /** The events a round adds, judged from the events before the round alone. */
  function Raised(events: seq<Event>, round: Round, pairs: seq<Pair>): seq<Event> {
    if pairs == [] then []
    else
      var n := |pairs| - 1;
      Raised(events, round, pairs[..n]) +
      if Raises(events, round, pairs[n]) then [NewEvent(pairs[n], Value(round, pairs[n]).value, round.now)] else []
  }

  /** At most one active event per key: the UNIQUE index on (alert_key, is_active). */
  predicate OneActive(events: seq<Event>) {
    forall k, m | 0 <= k < m < |events| && Active(events[k]) && Active(events[m]) :: events[k].alertKey != events[m].alertKey
  }

  lemma {:induction false} RaisedKeys(events: seq<Event>, round: Round, pairs: seq<Pair>, e: Event)
    ensures e in Raised(events, round, pairs) <==>
            exists p :: p in pairs && Raises(events, round, p) && e == NewEvent(p, Value(round, p).value, round.now)
  {
    if pairs != [] {
      var n := |pairs| - 1;
      RaisedKeys(events, round, pairs[..n], e);
      assert pairs == pairs[..n] + [pairs[n]];
    }
  }

  lemma ActiveMeansFound(events: seq<Event>, k: nat, key: string)
    requires OneActive(events) && k < |events| && Holds(events[k], key)
    ensures FindActive(events, key) == Some(k)
  {
    var r := FindActive(events, key);
    assert r.Some?;
    assert r.value < k || k < r.value || r.value == k;
  }

  /** Before its own turn, a pair finds the events of its key as they were before the round. */
  lemma NotYetSeen(events: seq<Event>, round: Round, pairs: seq<Pair>, key: string)
    requires OneActive(events) && PairFor(pairs, key).None?
    ensures var r := EventsAfter(events, round, pairs) + Raised(events, round, pairs);
            FindActive(r, key) == FindActive(events, key)
            && forall k | 0 <= k < |events| && events[k].alertKey == key :: r[k] == events[k]
  {
    var r := EventsAfter(events, round, pairs) + Raised(events, round, pairs);
    forall k | |events| <= k < |r| ensures r[k].alertKey != key {
      RaisedKeys(events, round, pairs, r[k]);
    }
    forall k | 0 <= k < |events| ensures Holds(r[k], key) <==> Holds(events[k], key) {
    }
    SameHolders(events, r, key);
  }

  lemma {:induction false} SameHolders(a: seq<Event>, b: seq<Event>, key: string)
    requires |a| <= |b|
    requires forall k | 0 <= k < |a| :: Holds(a[k], key) <==> Holds(b[k], key)
    requires forall k | |a| <= k < |b| :: !Holds(b[k], key)
    ensures FindActive(a, key) == FindActive(b, key)
  {
    if b != [] {
      if |a| < |b| {
        SameHolders(a, b[..|b| - 1], key);
      } else {
        SameHolders(a[..|a| - 1], b[..|b| - 1], key);
      }
    }
  }

  /**
   * One after the other is the same as all at once: the turns of the loops, each looking at what the earlier ones
   * left, end in the state where every old event was judged by its own pair and every raised event appended.
   */
  lemma {:induction false} PairsAreIndependent(b: Board, round: Round, pairs: seq<Pair>)
    requires OneActive(b.events) && DistinctKeys(pairs)
    ensures EvaluatePairs(b, round, pairs).events == EventsAfter(b.events, round, pairs) + Raised(b.events, round, pairs)
  {
    if pairs == [] {
      assert EventsAfter(b.events, round, []) == b.events;
    } else {
      var n := |pairs| - 1;
      var rest, p := pairs[..n], pairs[n];
      PairsAreIndependent(b, round, rest);
      assert PairFor(rest, Key(p)).None?;
      NotYetSeen(b.events, round, rest, Key(p));
      if Value(round, p).Some? && FindActive(b.events, Key(p)).Some? {
        JudgingTurn(b.events, EvaluatePairs(b, round, rest), round, rest, p);
      } else {
        OtherTurn(b.events, EvaluatePairs(b, round, rest), round, rest, p);
      }
      assert rest + [p] == pairs;
    }
  }

  lemma OneMoreEvent(e: Event, round: Round, rest: seq<Pair>, p: Pair)
    requires PairFor(rest, Key(p)).None?
    ensures EventAfter(e, round, rest + [p]) ==
            if Holds(e, Key(p)) && Value(round, p).Some? then Judge(e, p, Value(round, p).value, round.now)
            else EventAfter(e, round, rest)
  {
    assert (rest + [p])[..|rest + [p]| - 1] == rest;
  }

  lemma OneMoreEvents(events: seq<Event>, round: Round, rest: seq<Pair>, p: Pair)
    requires OneActive(events) && PairFor(rest, Key(p)).None?
    ensures var found, after := FindActive(events, Key(p)), EventsAfter(events, round, rest);
            EventsAfter(events, round, rest + [p]) ==
            if Value(round, p).Some? && found.Some?
            then after[found.value := Judge(events[found.value], p, Value(round, p).value, round.now)] else after
  {
    var after, after' := EventsAfter(events, round, rest), EventsAfter(events, round, rest + [p]);
    var found := FindActive(events, Key(p));
    forall k | 0 <= k < |events|
      ensures after'[k] == if Value(round, p).Some? && found == Some(k)
                           then Judge(events[k], p, Value(round, p).value, round.now) else after[k]
    {
      OneMoreEvent(events[k], round, rest, p);
      if Holds(events[k], Key(p)) {
        ActiveMeansFound(events, k, Key(p));
      }
    }
  }

  lemma Splice<T>(a: seq<T>, b: seq<T>, k: nat, x: T)
    requires k < |a|
    ensures (a + b)[k := x] == a[k := x] + b
  {
  }

  /** The events after a turn that judges an event. */
  lemma JudgingTurn(events: seq<Event>, b1: Board, round: Round, rest: seq<Pair>, p: Pair)
    requires OneActive(events) && PairFor(rest, Key(p)).None?
    requires b1.events == EventsAfter(events, round, rest) + Raised(events, round, rest)
    requires FindActive(b1.events, Key(p)) == FindActive(events, Key(p))
    requires Value(round, p).Some? && FindActive(events, Key(p)).Some?
    requires b1.events[FindActive(events, Key(p)).value] == events[FindActive(events, Key(p)).value]
    ensures EvaluatePair(b1, round, p).events == EventsAfter(events, round, rest + [p]) + Raised(events, round, rest + [p])
  {
    OneMoreEvents(events, round, rest, p);
    OneMoreRaised(events, round, rest, p);
    EvaluatePairEvents(b1, round, p);
    var found := FindActive(events, Key(p)).value;
    Splice(EventsAfter(events, round, rest), Raised(events, round, rest), found,
           Judge(events[found], p, Value(round, p).value, round.now));
  }

  /** The events after a turn that finds none to judge. */
  lemma OtherTurn(events: seq<Event>, b1: Board, round: Round, rest: seq<Pair>, p: Pair)
    requires OneActive(events) && PairFor(rest, Key(p)).None?
    requires b1.events == EventsAfter(events, round, rest) + Raised(events, round, rest)
    requires FindActive(b1.events, Key(p)) == FindActive(events, Key(p))
    requires Value(round, p).None? || FindActive(events, Key(p)).None?
    ensures EvaluatePair(b1, round, p).events == EventsAfter(events, round, rest + [p]) + Raised(events, round, rest + [p])
  {
    OneMoreEvents(events, round, rest, p);
    OneMoreRaised(events, round, rest, p);
    EvaluatePairEvents(b1, round, p);
    if Raises(events, round, p) {
      Append(EventsAfter(events, round, rest), Raised(events, round, rest), NewEvent(p, Value(round, p).value, round.now));
    }
  }

  lemma Append<T>(a: seq<T>, b: seq<T>, x: T)
    ensures (a + b) + [x] == a + (b + [x])
  {
  }

  lemma OneMoreRaised(events: seq<Event>, round: Round, rest: seq<Pair>, p: Pair)
    ensures Raised(events, round, rest + [p]) ==
            if Raises(events, round, p) then Raised(events, round, rest) + [NewEvent(p, Value(round, p).value, round.now)]
            else Raised(events, round, rest)
  {
    assert (rest + [p])[..|rest + [p]| - 1] == rest;
  }

  lemma EvaluatePairEvents(b: Board, round: Round, p: Pair)
    ensures var value, found, r := Value(round, p), FindActive(b.events, Key(p)), EvaluatePair(b, round, p).events;
            r == if value.None? then b.events
                 else if found.Some? then b.events[found.value := Judge(b.events[found.value], p, value.value, round.now)]
                 else if Violates(p, value.value) then b.events + [NewEvent(p, value.value, round.now)] else b.events
  {
  }
}
