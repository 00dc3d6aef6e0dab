/** What one evaluation round does, stated without the order in which the engine visits rules and servers. */
module AlertRounds {
  import opened Wrappers
  import opened AlertRules
  import opened AlertBoard
  import opened AlertInvariant

  predicate InRound(round: Round, p: Pair) {
    p.rule in round.rules && p.server in round.servers
  }

  function PairsOf(round: Round): seq<Pair> {
    Pairs(round.rules, round.servers)
  }

  lemma RoundPairs(round: Round)
    requires RoundOk(round)
    ensures DistinctKeys(PairsOf(round)) && forall p :: p in PairsOf(round) <==> InRound(round, p)
  {
    assert round.rules[..|round.rules|] == round.rules;
    PairsHaveDistinctKeys(round.rules, round.servers, round);
    forall p ensures p in PairsOf(round) <==> InRound(round, p) {
      PairsAreAll(round.rules, round.servers, p);
    }
  }

  /** The nested loops refine one simultaneous step on all old events. */
  lemma RoundIsPointwise(b: Board, round: Round)
    requires OneActive(b.events) && RoundOk(round)
    ensures EvaluateAll(b, round).events == EventsAfter(b.events, round, PairsOf(round)) + Raised(b.events, round, PairsOf(round))
  {
    RoundPairs(round);
    PairsAreIndependent(b, round, PairsOf(round));
  }

  lemma PairForIs(round: Round, p: Pair)
    requires RoundOk(round) && InRound(round, p)
    ensures PairFor(PairsOf(round), Key(p)) == Some(p)
  {
    RoundPairs(round);
    var pairs := PairsOf(round);
    var q := PairFor(pairs, Key(p));
    var k :| 0 <= k < |pairs| && pairs[k] == p;
    assert q.Some?;
    var m :| 0 <= m < |pairs| && pairs[m] == q.value;
    assert m < k || k < m || k == m;
  }

  /** A violation, or an active event that does not recover, leaves the key with an active event. */
  lemma StaysActive(b: Board, round: Round, p: Pair)
    requires OneActive(b.events) && RoundOk(round) && InRound(round, p) && Value(round, p).Some?
    requires Violates(p, Value(round, p).value) ||
             (HasActive(b.events, Key(p)) && !IsRecovered(p.rule, Value(round, p).value))
    ensures HasActive(EvaluateAll(b, round).events, Key(p))
  {
    var pairs, value, n := PairsOf(round), Value(round, p).value, |b.events|;
    var r := EvaluateAll(b, round).events;
    RoundIsPointwise(b, round);
    PairForIs(round, p);
    var found := FindActive(b.events, Key(p));
    if found.Some? {
      assert r[found.value] == Judge(b.events[found.value], p, value, round.now);
    } else {
      var e := NewEvent(p, value, round.now);
      RoundPairs(round);
      assert p in pairs && Raises(b.events, round, p);
      RaisedKeys(b.events, round, pairs, e);
      var raised := Raised(b.events, round, pairs);
      var k :| 0 <= k < |raised| && raised[k] == e;
      assert Holds(r[n + k], Key(p));
    }
  }

  /** An event active after the round was violated or was active before without recovering. */
  lemma WasActive(b: Board, round: Round, p: Pair)
    requires OneActive(b.events) && RoundOk(round) && InRound(round, p) && Value(round, p).Some?
    requires HasActive(EvaluateAll(b, round).events, Key(p))
    ensures Violates(p, Value(round, p).value) ||
            (HasActive(b.events, Key(p)) && !IsRecovered(p.rule, Value(round, p).value))
  {
    var r := EvaluateAll(b, round).events;
    RoundIsPointwise(b, round);
    PairForIs(round, p);
    var k := FindActive(r, Key(p)).value;
    if k >= |b.events| {
      NewEventsComeFromTheirPair(b, round, p, r[k]);
    } else {
      ActiveMeansFound(b.events, k, Key(p));
    }
  }

  /** Whether the key of `p` has an active event afterwards depends on its own reading and on whether it had one before. */
  lemma ActiveAfterRound(b: Board, round: Round, p: Pair)
    requires OneActive(b.events) && RoundOk(round) && InRound(round, p) && Value(round, p).Some?
    ensures HasActive(EvaluateAll(b, round).events, Key(p)) <==>
            Violates(p, Value(round, p).value) ||
            (HasActive(b.events, Key(p)) && !IsRecovered(p.rule, Value(round, p).value))
  {
    if HasActive(EvaluateAll(b, round).events, Key(p)) {
      WasActive(b, round, p);
    } else if Violates(p, Value(round, p).value) || (HasActive(b.events, Key(p)) && !IsRecovered(p.rule, Value(round, p).value)) {
      StaysActive(b, round, p);
    }
  }

  lemma NewEventsComeFromTheirPair(b: Board, round: Round, p: Pair, e: Event)
    requires RoundOk(round) && InRound(round, p)
    requires e in Raised(b.events, round, PairsOf(round)) && e.alertKey == Key(p)
    ensures Raises(b.events, round, p) && e == NewEvent(p, Value(round, p).value, round.now)
  {
    RaisedKeys(b.events, round, PairsOf(round), e);
    var q :| q in PairsOf(round) && Raises(b.events, round, q) && e == NewEvent(q, Value(round, q).value, round.now);
    RoundPairs(round);
    PairForIs(round, p);
    PairForIs(round, q);
  }

  /** Events of keys without a reading in the round stay as they are and none is added. */
  lemma NoReadingNoChange(b: Board, round: Round, key: string)
    requires OneActive(b.events) && RoundOk(round)
    requires forall p | InRound(round, p) && Key(p) == key :: Value(round, p).None?
    ensures var n, r := |b.events|, EvaluateAll(b, round).events;
            |r| >= n
            && (forall k | 0 <= k < n && b.events[k].alertKey == key :: r[k] == b.events[k])
            && (forall k | n <= k < |r| :: r[k].alertKey != key)
  {
    RoundIsPointwise(b, round);
    RoundPairs(round);
    var n, r, pairs := |b.events|, EvaluateAll(b, round).events, PairsOf(round);
    assert PairFor(pairs, key).Some? ==> InRound(round, PairFor(pairs, key).value);
    forall k | n <= k < |r| ensures r[k].alertKey != key {
      RaisedKeys(b.events, round, pairs, r[k]);
    }
  }

  // ---------- how many alerts are new ----------

  function Raising(events: seq<Event>, round: Round, pairs: seq<Pair>): set<Pair> {
    set p | p in pairs && Raises(events, round, p)
  }

  lemma {:induction false} RaisedCount(events: seq<Event>, round: Round, pairs: seq<Pair>)
    requires DistinctKeys(pairs)
    ensures |Raised(events, round, pairs)| == |Raising(events, round, pairs)|
  {
    if pairs != [] {
      var n := |pairs| - 1;
      var rest, p := pairs[..n], pairs[n];
      RaisedCount(events, round, rest);
      assert p !in rest;
      RaisingOneMore(events, round, pairs);
    }
  }

  lemma RaisingOneMore(events: seq<Event>, round: Round, pairs: seq<Pair>)
    requires pairs != []
    ensures var rest, p := pairs[..|pairs| - 1], pairs[|pairs| - 1];
            Raising(events, round, pairs) == Raising(events, round, rest) + if Raises(events, round, p) then {p} else {}
  {
    var rest, p := pairs[..|pairs| - 1], pairs[|pairs| - 1];
    forall q ensures q in pairs <==> q in rest || q == p {
      assert pairs == rest + [p];
    }
  }

  /** The returned count is the number of violating rule-server pairs that had no active alert before the round. */
  lemma CreatedCount(b: Board, round: Round)
    requires OneActive(b.events) && RoundOk(round)
    ensures |EvaluateAll(b, round).events| - |b.events| ==
            |set p | p in PairsOf(round) && InRound(round, p) && Raises(b.events, round, p)|
  {
    RoundIsPointwise(b, round);
    RoundPairs(round);
    RaisedCount(b.events, round, PairsOf(round));
    assert Raising(b.events, round, PairsOf(round)) ==
           set p | p in PairsOf(round) && InRound(round, p) && Raises(b.events, round, p);
  }

  // ---------- the order of rules and servers ----------

  /** The same rules, servers, readings and clock in another order. */
  ghost predicate Reordered(a: Round, b: Round) {
    a.now == b.now && a.metrics == b.metrics &&
    (forall x :: x in a.rules <==> x in b.rules) && (forall x :: x in a.servers <==> x in b.servers)
  }

  predicate NoRepeats(events: seq<Event>) {
    forall k, m | 0 <= k < m < |events| :: events[k] != events[m]
  }

  lemma {:induction false} CountOnce(events: seq<Event>, e: Event)
    requires NoRepeats(events)
    ensures multiset(events)[e] == if e in events then 1 else 0
  {
    if events != [] {
      var n := |events| - 1;
      CountOnce(events[..n], e);
      assert events == events[..n] + [events[n]];
    }
  }

  lemma {:induction false} RaisedOnce(events: seq<Event>, round: Round, pairs: seq<Pair>)
    requires DistinctKeys(pairs)
    ensures NoRepeats(Raised(events, round, pairs))
  {
    if pairs != [] {
      var n := |pairs| - 1;
      RaisedOnce(events, round, pairs[..n]);
      var front := Raised(events, round, pairs[..n]);
      forall k | 0 <= k < |front| ensures front[k].alertKey != Key(pairs[n]) {
        RaisedKeys(events, round, pairs[..n], front[k]);
      }
    }
  }

  /** Old events end up the same whatever the order; new ones differ at most in their numbering. */
  lemma OrderIsIrrelevant(b: Board, round: Round, other: Round)
    requires OneActive(b.events) && RoundOk(round) && RoundOk(other) && Reordered(round, other)
    ensures var n, r, q := |b.events|, EvaluateAll(b, round).events, EvaluateAll(b, other).events;
            |r| >= n && |q| >= n && r[..n] == q[..n] && multiset(r[n..]) == multiset(q[n..])
  {
    RoundIsPointwise(b, round);
    RoundIsPointwise(b, other);
    SameOldEvents(b.events, round, other);
    SameNewEvents(b.events, round, other);
    var after := EventsAfter(b.events, round, PairsOf(round));
    Cut(after, Raised(b.events, round, PairsOf(round)));
    Cut(after, Raised(b.events, other, PairsOf(other)));
  }

  /** The log rows a round adds for an old event: one if its status changes. */
  function RowsAfter(e: Event, k: nat, round: Round, pairs: seq<Pair>): seq<LogRow> {
    ChangeOf(e, EventAfter(e, round, pairs), k)
  }

  /** One turn logs a change of the event it finds, a new event, or nothing. */
  lemma TurnLogs(b: Board, round: Round, p: Pair, k: nat)
    requires k < |b.events|
    ensures var found, value, r := FindActive(b.events, Key(p)), Value(round, p), EvaluatePair(b, round, p);
            History(r.logs, k) == History(b.logs, k) +
              if value.Some? && found == Some(k)
              then ChangeOf(b.events[k], Judge(b.events[k], p, value.value, round.now), k) else []
  {
    var r := EvaluatePair(b, round, p);
    if |r.logs| > |b.logs| {
      OneMoreRow(b.logs, r.logs[|b.logs|], k);
    }
  }

  function ChangeOf(e: Event, f: Event, k: nat): seq<LogRow> {
    if f.status == e.status then [] else [LogRow(k, Some(e.status), f.status, f.currentValue, None)]
  }

  lemma OldHistoryTurn(b: Board, r: Board, round: Round, rest: seq<Pair>, p: Pair, k: nat)
    requires OneActive(b.events) && PairFor(rest, Key(p)).None? && k < |b.events| <= |r.events|
    requires FindActive(r.events, Key(p)) == FindActive(b.events, Key(p))
    requires b.events[k].alertKey == Key(p) ==> r.events[k] == b.events[k]
    requires History(r.logs, k) == History(b.logs, k) + RowsAfter(b.events[k], k, round, rest)
    ensures History(EvaluatePair(r, round, p).logs, k) == History(b.logs, k) + RowsAfter(b.events[k], k, round, rest + [p])
  {
    TurnLogs(r, round, p, k);
    OneMoreRowsAfter(b.events, r.events, round, rest, p, k);
  }

  /** The history of an old event after the round depends on the event and its own pair alone. */
  lemma {:induction false} OldHistories(b: Board, round: Round, pairs: seq<Pair>, k: nat)
    requires OneActive(b.events) && DistinctKeys(pairs) && k < |b.events|
    ensures History(EvaluatePairs(b, round, pairs).logs, k) == History(b.logs, k) + RowsAfter(b.events[k], k, round, pairs)
  {
    if pairs != [] {
      var n := |pairs| - 1;
      var rest, p := pairs[..n], pairs[n];
      OldHistories(b, round, rest, k);
      PairsAreIndependent(b, round, rest);
      assert PairFor(rest, Key(p)).None?;
      NotYetSeen(b.events, round, rest, Key(p));
      assert rest + [p] == pairs;
      OldHistoryTurn(b, EvaluatePairs(b, round, rest), round, rest, p, k);
    }
  }

  lemma OneMoreRowsAfter(events: seq<Event>, later: seq<Event>, round: Round, rest: seq<Pair>, p: Pair, k: nat)
    requires OneActive(events) && PairFor(rest, Key(p)).None? && k < |events| <= |later|
    requires FindActive(later, Key(p)) == FindActive(events, Key(p))
    requires events[k].alertKey == Key(p) ==> later[k] == events[k]
    ensures var value := Value(round, p);
            RowsAfter(events[k], k, round, rest + [p]) ==
            RowsAfter(events[k], k, round, rest) +
              if value.Some? && FindActive(later, Key(p)) == Some(k)
              then ChangeOf(later[k], Judge(later[k], p, value.value, round.now), k) else []
  {
    OneMoreEvent(events[k], round, rest, p);
    if Holds(events[k], Key(p)) {
      ActiveMeansFound(events, k, Key(p));
    }
  }

  /** In any order of rules and servers, every old event gets the same log rows. */
  lemma OrderIsIrrelevantForLogs(b: Board, round: Round, other: Round, k: nat)
    requires OneActive(b.events) && RoundOk(round) && RoundOk(other) && Reordered(round, other) && k < |b.events|
    ensures History(EvaluateAll(b, round).logs, k) == History(EvaluateAll(b, other).logs, k)
    ensures History(EvaluateAll(b, round).logs, k) == History(b.logs, k) + RowsAfter(b.events[k], k, round, PairsOf(round))
  {
    RoundPairs(round);
    RoundPairs(other);
    OldHistories(b, round, PairsOf(round), k);
    OldHistories(b, other, PairsOf(other), k);
    SamePairFor(round, other, b.events[k].alertKey);
  }

  lemma Cut<T>(a: seq<T>, b: seq<T>)
    ensures (a + b)[..|a|] == a && (a + b)[|a|..] == b
  {
  }

  lemma SameOldEvents(events: seq<Event>, round: Round, other: Round)
    requires RoundOk(round) && RoundOk(other) && Reordered(round, other)
    ensures EventsAfter(events, round, PairsOf(round)) == EventsAfter(events, other, PairsOf(other))
  {
    forall k | 0 <= k < |events|
      ensures EventAfter(events[k], round, PairsOf(round)) == EventAfter(events[k], other, PairsOf(other))
    {
      SamePairFor(round, other, events[k].alertKey);
    }
  }

  lemma SameNewEvents(events: seq<Event>, round: Round, other: Round)
    requires RoundOk(round) && RoundOk(other) && Reordered(round, other)
    ensures multiset(Raised(events, round, PairsOf(round))) == multiset(Raised(events, other, PairsOf(other)))
  {
    var x, y := Raised(events, round, PairsOf(round)), Raised(events, other, PairsOf(other));
    RoundPairs(round);
    RoundPairs(other);
    RaisedOnce(events, round, PairsOf(round));
    RaisedOnce(events, other, PairsOf(other));
    forall e ensures e in x <==> e in y {
      SameRaised(events, round, other, e);
    }
    SameBag(x, y);
  }

  lemma SameBag(x: seq<Event>, y: seq<Event>)
    requires NoRepeats(x) && NoRepeats(y) && forall e :: e in x <==> e in y
    ensures multiset(x) == multiset(y)
  {
    forall e ensures multiset(x)[e] == multiset(y)[e] {
      CountOnce(x, e);
      CountOnce(y, e);
    }
  }

  lemma SamePairFor(round: Round, other: Round, key: string)
    requires RoundOk(round) && RoundOk(other) && Reordered(round, other)
    ensures PairFor(PairsOf(round), key) == PairFor(PairsOf(other), key)
  {
    RoundPairs(round);
    RoundPairs(other);
    var x, y := PairFor(PairsOf(round), key), PairFor(PairsOf(other), key);
    if x.Some? {
      PairForIs(other, x.value);
    } else if y.Some? {
      PairForIs(round, y.value);
    }
  }

  lemma SameRaised(events: seq<Event>, round: Round, other: Round, e: Event)
    requires RoundOk(round) && RoundOk(other) && Reordered(round, other)
    ensures e in Raised(events, round, PairsOf(round)) <==> e in Raised(events, other, PairsOf(other))
  {
    RoundPairs(round);
    RoundPairs(other);
    RaisedKeys(events, round, PairsOf(round), e);
    RaisedKeys(events, other, PairsOf(other), e);
    forall p ensures Value(round, p) == Value(other, p) {
    }
    forall p ensures Raises(events, round, p) <==> Raises(events, other, p) {
    }
    forall p ensures p in PairsOf(round) <==> p in PairsOf(other) {
    }
  }
}
