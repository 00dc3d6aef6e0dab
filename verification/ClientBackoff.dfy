/**
 * The retry loops of the two agents (agent/reporter/client.py, agent-go/internal/reporter/client.go): how often they
 * send a request and how long they sleep, whatever the network and the random numbers do.
 */
module ClientBackoff {
  import opened Wrappers
  import opened Numbers
  import opened RequestReplay

  /** The number of transport failures before the server answers, if it ever does. */
  datatype Network = AnswersAfter(failures: nat) | NeverAnswers

  /** Whether sending number `k`, counted from 0, fails. */
  predicate Fails(network: Network, k: nat) {
    network.NeverAnswers? || k < network.failures
  }

  function Pow2(k: nat): (r: nat)
    ensures r >= 1
  {
    if k == 0 then 1 else 2 * Pow2(k - 1)
  }

  /** How often a delay of one second doubles until it reaches `m` seconds. */
  function Doublings(m: int): nat {
    if m <= 1 then 0 else 1 + Doublings((m + 1) / 2)
  }

  lemma {:induction false} DoublingsIsLeast(m: int, k: nat)
    ensures Pow2(k) >= m <==> k >= Doublings(m)
  {
    if m > 1 && k > 0 {
      DoublingsIsLeast((m + 1) / 2, k - 1);
    }
  }

  /** The most sleeps a call with retry limit `count` and cap `seconds` can make. */
  function Limit(count: int, seconds: int): nat {
    if count <= 0 then 0 else Min(count, Doublings(seconds))
  }

  function SendCount(network: Network, limit: nat): nat {
    if network.AnswersAfter? && network.failures <= limit then network.failures + 1 else limit + 1
  }

  predicate Answered(network: Network, limit: nat) {
    network.AnswersAfter? && network.failures <= limit
  }

  function Sum(xs: seq<real>): real {
    if xs == [] then 0.0 else Sum(xs[..|xs| - 1]) + xs[|xs| - 1]
  }

  /** Sleep number `k` lasts between `low` and half as much again, but no longer than the cap. */
  predicate Bounded(sleep: real, k: nat, low: real, cap: int) {
    sleep <= cap as real && sleep <= 1.5 * Pow2(k) as real &&
    (sleep >= low * Pow2(k) as real || sleep == cap as real)
  }

  predicate AllBounded(slept: seq<real>, low: real, cap: int) {
    forall k | 0 <= k < |slept| :: Bounded(slept[k], k, low, cap)
  }

  lemma {:induction false} SumIsBounded(slept: seq<real>, low: real, cap: int)
    requires AllBounded(slept, low, cap)
    ensures Sum(slept) <= 1.5 * (Pow2(|slept|) as real - 1.0)
  {
    if slept != [] {
      var n := |slept| - 1;
      SumIsBounded(slept[..n], low, cap);
      assert Bounded(slept[n], n, low, cap);
      assert Pow2(n + 1) == 2 * Pow2(n);
    }
  }

  /** All sleeps of a call together stay below three times the cap. */
  lemma TotalSleep(slept: seq<real>, low: real, cap: int)
    requires cap >= 1 && AllBounded(slept, low, cap) && |slept| <= Doublings(cap)
    ensures Sum(slept) < 3.0 * cap as real
  {
    SumIsBounded(slept, low, cap);
    if |slept| > 0 {
      DoublingsIsLeast(cap, |slept| - 1);
      assert Pow2(|slept|) == 2 * Pow2(|slept| - 1);
    }
  }

  /** When a loop that has slept `n` times gives up after one more failure. */
  lemma GivesUp(count: int, seconds: int, n: nat)
    requires n <= Limit(count, seconds)
    ensures n == Limit(count, seconds) <==> n + 1 > count || Pow2(n) >= seconds
  {
    DoublingsIsLeast(seconds, n);
  }

  /** What both loops rely on when they have slept for `slept` and are about to send once more. */
  lemma LoopFacts(count: int, cap: int, slept: seq<real>, low: real)
    requires AllBounded(slept, low, cap) && |slept| <= Limit(count, cap)
    ensures var n := |slept|;
            && (n == Limit(count, cap) <==> n + 1 > count || Pow2(n) >= cap)
            && (Pow2(n) < cap ==> Min(Pow2(n), cap) == Pow2(n) && Min(Pow2(n + 1), cap) == Min(2 * Pow2(n), cap))
            && (cap >= 1 ==> Sum(slept) < 3.0 * cap as real)
  {
    GivesUp(count, cap, |slept|);
    if Pow2(|slept|) < cap {
      DelayDoubles(|slept|, cap);
    }
    if cap >= 1 {
      TotalSleep(slept, low, cap);
    }
  }

  /** What a call puts on the wire: signature headers, or nothing if the agent does not sign. */
  type Sends = seq<Option<Headers>>

  /** All sends of a call carry the headers of its one signature. */
  predicate SignedOnce(sent: Sends, signature: Option<Headers>) {
    forall k | 0 <= k < |sent| :: sent[k] == signature
  }

  /** `signer(k)` is what signing answers the `k`-th time it is asked. */
  type Signer = nat -> Headers

  function FirstSignature(signer: Option<Signer>): Option<Headers> {
    if signer.Some? then Some(signer.value(0)) else None
  }

  /** The Python agent's client. */
  class AgentClient {
    const retryMaxSeconds: int
    const retryMaxCount: int
    const retryJitter: bool

    constructor (retryMaxSeconds: int, retryMaxCount: int, retryJitter: bool)
      ensures this.retryMaxSeconds == retryMaxSeconds && this.retryMaxCount == retryMaxCount && this.retryJitter == retryJitter
    {
      this.retryMaxSeconds, this.retryMaxCount, this.retryJitter := retryMaxSeconds, retryMaxCount, retryJitter;
    }

    /** `random` stands for random.random(). */
    method Request(network: Network, random: nat -> real, signer: Option<Signer>) returns (sent: Sends, slept: seq<real>, answered: bool)
      requires forall k :: 0.0 <= random(k) < 1.0
      ensures |sent| == SendCount(network, Limit(retryMaxCount, retryMaxSeconds)) && SignedOnce(sent, FirstSignature(signer))
      ensures answered == Answered(network, Limit(retryMaxCount, retryMaxSeconds))
      ensures |slept| == |sent| - 1 && AllBounded(slept, if retryJitter then 0.5 else 1.0, retryMaxSeconds)
      ensures retryMaxSeconds >= 1 ==> Sum(slept) < 3.0 * retryMaxSeconds as real
    {
      ghost var low := if retryJitter then 0.5 else 1.0;
      ghost var limit := Limit(retryMaxCount, retryMaxSeconds);
      var signedHeaders := if signer.Some? then Some(signer.value(0)) else None;
      var delay, attempt := 1.0, 0;
      sent, slept := [], [];
      while true
        invariant attempt == |sent| == |slept| <= limit && SignedOnce(sent, signedHeaders)
        invariant network.AnswersAfter? ==> attempt <= network.failures
        invariant delay == if attempt == 0 then 1.0 else Min(Pow2(attempt), retryMaxSeconds) as real
        invariant AllBounded(slept, low, retryMaxSeconds)
        decreases limit - attempt
      {
        LoopFacts(retryMaxCount, retryMaxSeconds, slept, low);
        var failed := Fails(network, |sent|);
        sent := sent + [signedHeaders];
        if !failed {
          return sent, slept, true;
        }
        attempt := attempt + 1;
        if attempt > retryMaxCount {
          return sent, slept, false;
        }
        if delay >= retryMaxSeconds as real {
          return sent, slept, false;
        }
        var sleepFor := SleepFor(delay, random(attempt));
        assert Bounded(sleepFor, attempt - 1, low, retryMaxSeconds);
        slept := slept + [sleepFor];
        delay := if delay * 2.0 <= retryMaxSeconds as real then delay * 2.0 else retryMaxSeconds as real;
      }
    }

    /** The sleep after a failure, with jitter and cap. */
    method SleepFor(delay: real, random: real) returns (sleepFor: real)
      requires delay >= 1.0 && 0.0 <= random < 1.0
      ensures sleepFor <= retryMaxSeconds as real && sleepFor <= 1.5 * delay
      ensures sleepFor == retryMaxSeconds as real || sleepFor >= if retryJitter then 0.5 * delay else delay
    {
      sleepFor := if retryJitter then Jittered(delay, 0.5 + random) else delay;
      if sleepFor > retryMaxSeconds as real {
        sleepFor := retryMaxSeconds as real;
      }
    }
  }

  function Jittered(delay: real, factor: real): (r: real)
    requires delay > 0.0 && 0.5 <= factor < 1.5
    ensures 0.5 * delay <= r <= 1.5 * delay
  {
    JitterBounds(delay, factor);
    delay * factor
  }

  lemma JitterBounds(delay: real, factor: real)
    requires delay > 0.0 && 0.5 <= factor < 1.5
    ensures 0.5 * delay <= delay * factor <= 1.5 * delay
  {
    assert delay * factor == 0.5 * delay + delay * (factor - 0.5);
    assert delay * (factor - 0.5) >= 0.0;
    assert 1.5 * delay == delay * factor + delay * (1.5 - factor);
    assert delay * (1.5 - factor) >= 0.0;
  }

  /** Doubling a delay that has not reached the cap. */
  lemma DelayDoubles(k: nat, cap: int)
    requires Pow2(k) < cap
    ensures Min(Pow2(k), cap) == Pow2(k) && Min(Pow2(k + 1), cap) == Min(2 * Pow2(k), cap)
  {
  }

  // ---------- the Go agent ----------

  const NANOS := 1_000_000_000
  const MAX_RETRY_DELAY := 60

  function GoCount(retryMaxCount: int): int {
    if retryMaxCount <= 0 then 2 else retryMaxCount
  }

  function GoSeconds(retryMaxSeconds: int): int {
    if retryMaxSeconds <= 0 then 60 else retryMaxSeconds
  }

  /** The cap the loop works with, in seconds. */
  function GoCap(retryMaxSeconds: int): int {
    Min(GoSeconds(retryMaxSeconds), MAX_RETRY_DELAY)
  }

  function InSeconds(nanos: int): real {
    nanos as real / NANOS as real
  }

  function AllInSeconds(nanos: seq<int>): (r: seq<real>)
    ensures |r| == |nanos| && forall k | 0 <= k < |nanos| :: r[k] == InSeconds(nanos[k])
  {
    seq(|nanos|, k requires 0 <= k < |nanos| => InSeconds(nanos[k]))
  }

  /** The Go agent's client; durations are integer nanoseconds. */
  class GoClient {
    const retryMaxSeconds: int
    const retryMaxCount: int

    constructor (maxSeconds: int, maxCount: int)
      ensures retryMaxSeconds >= 1 && retryMaxCount >= 1
      ensures maxSeconds >= 1 ==> retryMaxSeconds == maxSeconds
      ensures maxCount >= 1 ==> retryMaxCount == maxCount
      ensures retryMaxSeconds == GoSeconds(maxSeconds) && retryMaxCount == GoCount(maxCount)
    {
      retryMaxSeconds := if maxSeconds <= 0 then 60 else maxSeconds;
      retryMaxCount := if maxCount <= 0 then 2 else maxCount;
    }

    /** `random(k, n)` stands for the `k`-th rand.Int63n(n). */
    method Request(network: Network, random: (nat, nat) -> nat, signer: Option<Signer>) returns (sent: Sends, slept: seq<int>, answered: bool)
      requires retryMaxSeconds >= 1 && forall k, n | n > 0 :: random(k, n) < n
      ensures |sent| == SendCount(network, Limit(retryMaxCount, GoCap(retryMaxSeconds))) && SignedOnce(sent, FirstSignature(signer))
      ensures answered == Answered(network, Limit(retryMaxCount, GoCap(retryMaxSeconds)))
      ensures |slept| == |sent| - 1 && AllBounded(AllInSeconds(slept), 1.0, GoCap(retryMaxSeconds))
      ensures Sum(AllInSeconds(slept)) < 3.0 * GoCap(retryMaxSeconds) as real
    {
      var headers := if signer.Some? then Some(signer.value(0)) else None;
      var delay := NANOS;
      var maxDelay := retryMaxSeconds * NANOS;
      if maxDelay > MAX_RETRY_DELAY * NANOS {
        maxDelay := MAX_RETRY_DELAY * NANOS;
      }
      ghost var cap := GoCap(retryMaxSeconds);
      ghost var limit := Limit(retryMaxCount, cap);
      assert maxDelay == cap * NANOS;
      var attempt := 0;
      sent, slept := [], [];
      while true
        invariant attempt == |sent| == |slept| <= limit && SignedOnce(sent, headers)
        invariant network.AnswersAfter? ==> attempt <= network.failures
        invariant delay == Min(Pow2(attempt), cap) * NANOS
        invariant AllBounded(AllInSeconds(slept), 1.0, cap)
        decreases limit - attempt
      {
        LoopFacts(retryMaxCount, cap, AllInSeconds(slept), 1.0);
        var failed := Fails(network, |sent|);
        sent := sent + [headers];
        if !failed {
          return sent, slept, true;
        }
        attempt := attempt + 1;
        if attempt > retryMaxCount {
          return sent, slept, false;
        }
        if delay >= maxDelay {
          return sent, slept, false;
        }
        var sleep := SleepFor(delay, maxDelay, random(attempt, delay / 2 + 1), attempt - 1, cap);
        AppendInSeconds(slept, sleep);
        slept := slept + [sleep];
        NanosDouble(attempt - 1, cap);
        delay := delay * 2;
        if delay > maxDelay {
          delay := maxDelay;
        }
      }
    }

    /** The sleep after a failure, with jitter and cap. */
    method SleepFor(delay: int, maxDelay: int, random: nat, ghost k: nat, ghost cap: int) returns (sleep: int)
      requires delay == Pow2(k) * NANOS && maxDelay == cap * NANOS && random <= delay / 2
      ensures Bounded(InSeconds(sleep), k, 1.0, cap)
    {
      sleep := delay + random;
      if sleep > maxDelay {
        sleep := maxDelay;
      }
      NanoBounds(sleep, delay, k, cap);
    }
  }

  lemma AppendInSeconds(nanos: seq<int>, n: int)
    ensures AllInSeconds(nanos + [n]) == AllInSeconds(nanos) + [InSeconds(n)]
  {
  }

  lemma NanosDouble(k: nat, cap: int)
    requires Pow2(k) < cap
    ensures Min(Pow2(k + 1), cap) * NANOS == Min(Pow2(k) * NANOS * 2, cap * NANOS)
  {
  }

  lemma NanoBounds(sleep: int, delay: int, k: nat, cap: int)
    requires delay == Pow2(k) * NANOS && (delay <= sleep || sleep == cap * NANOS)
    requires sleep <= cap * NANOS && sleep <= delay + delay / 2
    ensures Bounded(InSeconds(sleep), k, 1.0, cap)
  {
  }

  /**
   * Whatever its options, a Go client sends at most seven requests per call; it never retries exactly if its cap is set
   * to one second, and with the defaults it sends three times to a server that never answers.
   */
  lemma GoOptionsBoundCalls(maxSeconds: int, maxCount: int, network: Network)
    ensures var limit := Limit(GoCount(maxCount), GoCap(GoSeconds(maxSeconds)));
            && 1 <= SendCount(network, limit) <= 7
            && (limit == 0 <==> maxSeconds == 1)
            && (maxSeconds <= 0 && maxCount <= 0 && network.NeverAnswers? ==> SendCount(network, limit) == 3)
  {
    var cap := GoCap(GoSeconds(maxSeconds));
    assert Pow2(6) == 64 && Pow2(1) == 2 && Pow2(0) == 1;
    DoublingsIsLeast(cap, 6);
    DoublingsIsLeast(cap, 1);
    DoublingsIsLeast(cap, 0);
  }

  // ---------- both agents ----------

  predicate SameSends(network: Network, a: nat, b: nat) {
    SendCount(network, a) == SendCount(network, b) && Answered(network, a) == Answered(network, b)
  }

  /**
   * On every network both agents send equally often exactly if the cap is at most 64 seconds or the limit at most six:
   * beyond that the Go agent's own cap of 60 seconds ends the doubling first.
   */
  lemma AgentsAgree(count: int, seconds: int)
    requires count >= 1 && seconds >= 1
    ensures (forall network :: SameSends(network, Limit(count, seconds), Limit(GoCount(count), GoCap(GoSeconds(seconds))))) <==>
            seconds <= 64 || count <= 6
  {
    var a, b := Limit(count, seconds), Limit(GoCount(count), GoCap(GoSeconds(seconds)));
    LimitsAgree(count, seconds);
    if a == b {
      forall network ensures SameSends(network, a, b) {
      }
    } else {
      assert !SameSends(NeverAnswers, a, b);
    }
  }

  lemma LimitsAgree(count: int, seconds: int)
    requires count >= 1 && seconds >= 1
    ensures Limit(count, seconds) == Limit(GoCount(count), GoCap(GoSeconds(seconds))) <==> seconds <= 64 || count <= 6
  {
    assert Pow2(6) == 64 && Pow2(5) == 32;
    DoublingsIsLeast(60, 6);
    DoublingsIsLeast(60, 5);
    DoublingsIsLeast(seconds, 6);
    DoublingsIsLeast(seconds, 5);
    assert Doublings(60) == 6;
    if 60 < seconds {
      assert Doublings(seconds) >= 6;
      assert Doublings(seconds) == 6 <==> seconds <= 64;
    }
  }
}
