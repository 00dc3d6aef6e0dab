/** The invariant of alert events and their log, and why every step keeps it. */
module AlertInvariant {
  import opened Wrappers
  import opened AlertRules
  import opened AlertBoard

  function Rank(s: Status): nat {
    match s
    case PENDING => 0
    case FIRING => 1
    case ACKNOWLEDGED => 2
    case RESOLVED => 3
  }

  /** A logged change of status: upwards, never out of RESOLVED; only an acknowledgement may be repeated. */
  predicate Edge(a: Status, b: Status) {
    a != RESOLVED && (Rank(a) < Rank(b) || (a == ACKNOWLEDGED && b == ACKNOWLEDGED))
  }

  /** The log rows of event `k`, oldest first. */
  function History(logs: seq<LogRow>, k: nat): seq<LogRow> {
    if logs == [] then []
    else
      var n := |logs| - 1;
      History(logs[..n], k) + if logs[n].eventId == k then [logs[n]] else []
  }

  /** A connected path of statuses from the creation to `status`. */
  predicate Path(h: seq<LogRow>, status: Status) {
    && |h| > 0 && h[0].oldStatus == None && h[0].newStatus == PENDING && h[|h| - 1].newStatus == status
    && forall m | 0 < m < |h| :: h[m].oldStatus == Some(h[m - 1].newStatus) && Edge(h[m - 1].newStatus, h[m].newStatus)
  }

  predicate EventOk(e: Event, now: int) {
    && e.alertKey == AlertKey(e.ruleId, e.serverId, e.metricType)
    && e.firstFiredAt <= e.lastFiredAt <= now
    && (e.resolvedAt.Some? <==> e.status == RESOLVED)
    && (e.resolvedAt.Some? ==> e.lastFiredAt <= e.resolvedAt.value <= now)
    && (e.status == ACKNOWLEDGED ==> e.acknowledgedAt.Some?)
    && (e.acknowledgedAt.Some? ==> Rank(e.status) >= 2 && e.firstFiredAt <= e.acknowledgedAt.value <= now)
    && e.thresholdValue.Some?
  }

  predicate EventsOk(events: seq<Event>, now: int) {
    forall k | 0 <= k < |events| :: EventOk(events[k], now)
  }

  predicate LogsOk(b: Board) {
    (forall m | 0 <= m < |b.logs| :: b.logs[m].eventId < |b.events|) &&
    (forall k | 0 <= k < |b.events| :: Path(History(b.logs, k), b.events[k].status))
  }

  predicate BoardOk(b: Board, now: int) {
    OneActive(b.events) && EventsOk(b.events, now) && LogsOk(b)
  }

  /** What may change about an event: never its identity or first time, and nothing once it is resolved. */
  predicate EventEvolves(e: Event, f: Event) {
    && f == e.(status := f.status, lastFiredAt := f.lastFiredAt, acknowledgedBy := f.acknowledgedBy,
               acknowledgedAt := f.acknowledgedAt, resolvedAt := f.resolvedAt, currentValue := f.currentValue)
    && Rank(e.status) <= Rank(f.status) && e.lastFiredAt <= f.lastFiredAt
    && (e.status == RESOLVED ==> f == e)
    && (e.acknowledgedAt.Some? ==> f.acknowledgedAt.Some?)
  }

  predicate EventsEvolve(a: seq<Event>, b: seq<Event>) {
    |a| <= |b| && forall k | 0 <= k < |a| :: EventEvolves(a[k], b[k])
  }

  predicate BoardEvolves(a: Board, b: Board) {
    EventsEvolve(a.events, b.events) && a.logs <= b.logs
  }

  predicate Steps(a: Board, b: Board, now: int) {
    BoardOk(b, now) && BoardEvolves(a, b)
  }

  lemma BoardOkLater(b: Board, now: int, later: int)
    requires BoardOk(b, now) && now <= later
    ensures BoardOk(b, later)
  {
  }

  lemma EventEvolvesTransitive(e: Event, f: Event, g: Event)
    requires EventEvolves(e, f) && EventEvolves(f, g)
    ensures EventEvolves(e, g)
  {
  }

  lemma EvolvesTransitive(a: Board, b: Board, c: Board)
    requires BoardEvolves(a, b) && BoardEvolves(b, c)
    ensures BoardEvolves(a, c)
  {
    forall k | 0 <= k < |a.events| ensures EventEvolves(a.events[k], c.events[k]) {
      EventEvolvesTransitive(a.events[k], b.events[k], c.events[k]);
    }
  }

  // ---------- one event changes ----------

  lemma OneMoreRow(logs: seq<LogRow>, row: LogRow, k: nat)
    ensures History(logs + [row], k) == History(logs, k) + if row.eventId == k then [row] else []
  {
    assert (logs + [row])[..|logs|] == logs;
  }

  lemma {:induction false} NoRows(logs: seq<LogRow>, k: nat)
    requires forall m | 0 <= m < |logs| :: logs[m].eventId != k
    ensures History(logs, k) == []
  {
    if logs != [] {
      NoRows(logs[..|logs| - 1], k);
    }
  }

  /** Replacing an event by an evolved one, with a log row for the change of status, keeps everything. */
  lemma LoggedChange(b: Board, k: nat, e: Event, value: real, operator: Option<int>, now: int)
    requires BoardOk(b, now) && k < |b.events| && EventEvolves(b.events[k], e) && EventOk(e, now)
    requires Edge(b.events[k].status, e.status)
    ensures Steps(b, Log(b.(events := b.events[k := e]), k, Some(b.events[k].status), e.status, value, operator), now)
  {
    var row := LogRow(k, Some(b.events[k].status), e.status, value, operator);
    var r := Board(b.events[k := e], b.logs + [row]);
    forall m | 0 <= m < |r.events| ensures Path(History(r.logs, m), r.events[m].status) {
      OneMoreRow(b.logs, row, m);
      assert Path(History(b.logs, m), b.events[m].status);
    }
    UnchangedOthers(b.events, k, e);
  }

  lemma SilentChange(b: Board, k: nat, e: Event, now: int)
    requires BoardOk(b, now) && k < |b.events| && EventEvolves(b.events[k], e) && EventOk(e, now)
    requires b.events[k].status == e.status
    ensures Steps(b, b.(events := b.events[k := e]), now)
  {
    var r := b.(events := b.events[k := e]);
    forall m | 0 <= m < |r.events| ensures Path(History(r.logs, m), r.events[m].status) {
      assert Path(History(b.logs, m), b.events[m].status);
    }
    UnchangedOthers(b.events, k, e);
  }

  lemma UnchangedOthers(events: seq<Event>, k: nat, e: Event)
    requires OneActive(events) && k < |events| && EventEvolves(events[k], e)
    ensures OneActive(events[k := e]) && EventsEvolve(events, events[k := e])
  {
    var r := events[k := e];
    forall m, n | 0 <= m < n < |r| && Active(r[m]) && Active(r[n]) ensures r[m].alertKey != r[n].alertKey {
      assert Active(events[m]) && Active(events[n]);
    }
  }

  lemma CreatedLogsOk(b: Board, e: Event)
    requires LogsOk(b) && e.status == PENDING
    ensures LogsOk(Create(b, e))
  {
    var r := Create(b, e);
    var n := |b.events|;
    NoRows(b.logs, n);
    forall m | 0 <= m < |r.events| ensures Path(History(r.logs, m), r.events[m].status) {
      OneMoreRow(b.logs, r.logs[|b.logs|], m);
      assert m < n ==> Path(History(b.logs, m), b.events[m].status);
    }
  }

  lemma CreateSteps(b: Board, e: Event, now: int)
    requires BoardOk(b, now) && EventOk(e, now) && e.status == PENDING && !HasActive(b.events, e.alertKey)
    ensures Steps(b, Create(b, e), now)
  {
    CreatedLogsOk(b, e);
    forall m | 0 <= m < |b.events| && Active(b.events[m]) ensures b.events[m].alertKey != e.alertKey {
      assert !Holds(b.events[m], e.alertKey);
    }
  }

  // ---------- steps ----------

  lemma NewEventOk(p: Pair, value: real, now: int)
    requires Violates(p, value)
    ensures EventOk(NewEvent(p, value, now), now)
  {
  }

  lemma JudgeOk(e: Event, p: Pair, value: real, now: int)
    requires EventOk(e, now) && Active(e)
    ensures var f := Judge(e, p, value, now);
            EventOk(f, now) && EventEvolves(e, f) && (f.status == e.status || Edge(e.status, f.status))
  {
  }

  lemma EvaluatePairSteps(b: Board, round: Round, p: Pair)
    requires BoardOk(b, round.now)
    ensures Steps(b, EvaluatePair(b, round, p), round.now)
  {
    var found := FindActive(b.events, Key(p));
    if Value(round, p).Some? {
      var value := Value(round, p).value;
      if found.Some? {
        var k := found.value;
        var e := Judge(b.events[k], p, value, round.now);
        JudgeOk(b.events[k], p, value, round.now);
        if e.status == b.events[k].status {
          SilentChange(b, k, e, round.now);
        } else {
          LoggedChange(b, k, e, e.currentValue, None, round.now);
        }
      } else if Violates(p, value) {
        NewEventOk(p, value, round.now);
        CreateSteps(b, NewEvent(p, value, round.now), round.now);
      }
    }
  }

  lemma {:induction false} EvaluatePairsSteps(b: Board, round: Round, pairs: seq<Pair>)
    requires BoardOk(b, round.now)
    ensures Steps(b, EvaluatePairs(b, round, pairs), round.now)
  {
    if pairs != [] {
      var rest := pairs[..|pairs| - 1];
      EvaluatePairsSteps(b, round, rest);
      EvaluatePairSteps(EvaluatePairs(b, round, rest), round, pairs[|pairs| - 1]);
      EvolvesTransitive(b, EvaluatePairs(b, round, rest), EvaluatePairs(b, round, pairs));
    }
  }

  lemma AcknowledgeSteps(b: Board, k: nat, operator: Option<int>, now: int)
    requires BoardOk(b, now) && Acknowledge(b, k, operator, now).Ok?
    ensures Steps(b, Acknowledge(b, k, operator, now).value, now)
  {
    assert EventOk(b.events[k], now);
    var e := b.events[k].(status := ACKNOWLEDGED, acknowledgedBy := operator, acknowledgedAt := Some(now));
    LoggedChange(b, k, e, e.currentValue, operator, now);
  }

  lemma ResolveSteps(b: Board, k: nat, operator: Option<int>, now: int)
    requires BoardOk(b, now) && Resolve(b, k, operator, now).Ok?
    ensures Steps(b, Resolve(b, k, operator, now).value, now)
  {
    assert EventOk(b.events[k], now);
    var e := b.events[k].(status := RESOLVED, resolvedAt := Some(now));
    LoggedChange(b, k, e, e.currentValue, operator, now);
  }
}
