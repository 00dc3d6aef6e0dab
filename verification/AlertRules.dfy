/**
 * Readings, thresholds and comparisons of the alert engine (backend/app/services/alert_engine.py).
 * Values and thresholds are reals, instants are milliseconds.
 */
module AlertRules {
  import opened Wrappers
  import opened Clock
  import Text

  datatype Rule = Rule(id: nat, metricType: string, targetType: string, severity: string, operator: string,
                       threshold: Option<real>, durationSeconds: nat, recoveryThreshold: Option<real>)

  datatype Server = Server(id: nat, cpuCores: Option<nat>, lastHeartbeatAt: Option<int>)

  datatype Metric = Metric(cpuUsage: Option<real>, memoryUsage: Option<real>, diskUsage: Option<real>, load1m: Option<real>)

  /** A rule and a server it is evaluated for. */
  datatype Pair = Pair(rule: Rule, server: Server)

  /** What one evaluation reads: enabled rules, active servers, the latest metrics by server id and the clock. */
  datatype Round = Round(rules: seq<Rule>, servers: seq<Server>, metrics: map<nat, Metric>, now: int)

  function GetValue(rule: Rule, server: Server, metric: Option<Metric>, now: int): Option<real> {
    if rule.metricType == "AGENT" then
      if server.lastHeartbeatAt.None? then None else Some((now - server.lastHeartbeatAt.value) as real / SECOND as real)
    else if metric.None? then None
    else
      match rule.metricType
      case "CPU" => metric.value.cpuUsage
      case "MEMORY" => metric.value.memoryUsage
      case "DISK" => metric.value.diskUsage
      case "LOAD" => metric.value.load1m
      case _ => None
  }

  function Value(round: Round, p: Pair): Option<real> {
    GetValue(p.rule, p.server, if p.server.id in round.metrics then Some(round.metrics[p.server.id]) else None, round.now)
  }

  /** The core count a LOAD threshold is multiplied with; an unknown or zero count stands for one. */
  function Cores(server: Server): nat {
    if server.cpuCores.None? || server.cpuCores.value == 0 then 1 else server.cpuCores.value
  }

  function EffectiveThreshold(rule: Rule, server: Server): Option<real> {
    if rule.threshold.None? then None
    else if rule.metricType == "LOAD" then Some(rule.threshold.value * Cores(server) as real)
    else rule.threshold
  }

  function Compare(value: real, operator: string, threshold: Option<real>): bool {
    if threshold.None? then false
    else
      match operator
      case "GTE" => value >= threshold.value
      case "LT" => value < threshold.value
      case "LTE" => value <= threshold.value
      case "EQ" => value == threshold.value
      case _ => value > threshold.value
  }

  predicate Violates(p: Pair, value: real) {
    Compare(value, p.rule.operator, EffectiveThreshold(p.rule, p.server))
  }

  predicate IsRecovered(rule: Rule, value: real) {
    if rule.recoveryThreshold.Some? then value <= rule.recoveryThreshold.value
    else !Compare(value, rule.operator, rule.threshold)
  }

  function AlertKey(rule: nat, server: nat, metricType: string): string {
    Text.NatText(rule) + ":" + Text.NatText(server) + ":" + metricType
  }

  function Key(p: Pair): string {
    AlertKey(p.rule.id, p.server.id, p.rule.metricType)
  }

  /** Keys tell rules, servers and metrics apart, whatever text the metric type is. */
  lemma AlertKeyInjective(rule: nat, server: nat, metricType: string, rule': nat, server': nat, metricType': string)
    requires AlertKey(rule, server, metricType) == AlertKey(rule', server', metricType')
    ensures rule == rule' && server == server' && metricType == metricType'
  {
    var rest, rest' := Text.NatText(server) + ":" + metricType, Text.NatText(server') + ":" + metricType';
    assert AlertKey(rule, server, metricType) == Text.NatText(rule) + ":" + rest;
    assert AlertKey(rule', server', metricType') == Text.NatText(rule') + ":" + rest';
    Text.SplitAtColon(rule, rest, rule', rest');
    Text.SplitAtColon(server, metricType, server', metricType');
  }

  /** A reading that resolves an active alert of this rule and server. */
  predicate Recovers(p: Pair, value: real) {
    !Violates(p, value) && IsRecovered(p.rule, value)
  }

  /**
   * Because `<=` is used for recovery whatever the operator, a lower-bound rule whose recovery threshold lies below
   * its threshold can never recover by itself; every other rule can.
   */
  lemma SelfRecovery(p: Pair)
    ensures (exists v: real :: Recovers(p, v)) <==> !NeverRecovers(p)
  {
    if p.rule.threshold.None? {
      assert Recovers(p, p.rule.recoveryThreshold.GetOr(0.0));
    } else {
      var raw, scaled := p.rule.threshold.value, EffectiveThreshold(p.rule, p.server).value;
      var low, high := if raw < scaled then raw else scaled, if raw < scaled then scaled else raw;
      var lowerBound := p.rule.operator in {"LT", "LTE"};
      if p.rule.recoveryThreshold.Some? {
        var r := p.rule.recoveryThreshold.value;
        var v := if lowerBound then r else if r < low then r - 1.0 else low - 1.0;
        assert Recovers(p, v) || NeverRecovers(p);
      } else {
        assert Recovers(p, if lowerBound then high + 1.0 else low - 1.0);
      }
    }
  }

  predicate NeverRecovers(p: Pair) {
    p.rule.threshold.Some? && p.rule.recoveryThreshold.Some? &&
    var t, r := EffectiveThreshold(p.rule, p.server).value, p.rule.recoveryThreshold.value;
    (p.rule.operator == "LT" && r < t) || (p.rule.operator == "LTE" && r <= t)
  }

  /**
   * Without a recovery threshold, recovery is the opposite of violation exactly if the rule is no LOAD rule scaled by
   * more than one core: recovery compares with the unscaled threshold.
   */
  lemma RecoveryOpposesViolation(p: Pair)
    requires p.rule.recoveryThreshold.None?
    ensures (forall v: real :: IsRecovered(p.rule, v) <==> !Violates(p, v)) <==>
            (p.rule.metricType == "LOAD" && p.rule.threshold.Some? ==> Cores(p.server) == 1 || p.rule.threshold.value == 0.0)
  {
    if p.rule.metricType == "LOAD" && p.rule.threshold.Some? {
      var raw, scaled := p.rule.threshold.value, EffectiveThreshold(p.rule, p.server).value;
      ScalingMoves(raw, Cores(p.server));
      if raw != scaled {
        assert IsRecovered(p.rule, raw) == Violates(p, raw) || IsRecovered(p.rule, scaled) == Violates(p, scaled);
      }
    }
  }

  lemma ScalingMoves(x: real, n: nat)
    requires n >= 1
    ensures x * n as real == x <==> n == 1 || x == 0.0
  {
    assert x * n as real - x == x * (n as real - 1.0);
  }
}
