/**
 * Signature and replay check of agent requests (backend/app/api/v1/deps.py, backend/app/core/replay.py).
 * Times are milliseconds; timestamps are seconds. What the cryptography and Python's int() answer is part of the input.
 */
module RequestReplay {
  import opened Wrappers
  import opened Clock
  import opened Redis
  import Text

  datatype Settings = Settings(requireSignature: bool, maxSkew: int)

  /** The server a token belongs to and the public key registered with the token. */
  datatype Sender = Sender(serverId: nat, serverCode: string, publicKey: Option<string>)

  /** The signature headers; `timestamp` pairs the text with the number int() reads in it. */
  datatype Headers = Headers(agentId: Option<string>, timestamp: Option<(string, Option<int>)>,
                             requestId: Option<string>, signature: Option<string>)

  datatype Error = SignatureMissing | SignatureInvalid | TimestampInvalid | ReplayUnavailable | Replayed

  /** Where the checks before Redis lead. */
  datatype Gate =
    | Pass
    | Reject(error: Error)
    | AskRedis

  /** How the SET command went; an error may hide that it was carried out. */
  datatype Outcome = Up | Down(applied: bool)

  datatype Verdict = Accepted | Rejected(error: Error)

  function Abs(x: int): nat {
    if x < 0 then -x else x
  }

  /** int(time.time()) */
  function Seconds(now: int): int {
    now / SECOND
  }

  predicate InWindow(settings: Settings, timestamp: int, now: int) {
    Abs(Seconds(now) - timestamp) <= settings.maxSkew
  }

  /** The decisions before the replay check; `genuine` is whether the signature verifies. */
  function Check(settings: Settings, sender: Sender, h: Headers, genuine: bool, now: int): Gate {
    if h.agentId.None? || h.timestamp.None? || h.requestId.None? || h.signature.None? then
      if settings.requireSignature then Reject(SignatureMissing) else Pass
    else if h.agentId.value != sender.serverCode then Reject(SignatureInvalid)
    else if h.timestamp.value.1.None? then Reject(TimestampInvalid)
    else if !InWindow(settings, h.timestamp.value.1.value, now) then Reject(TimestampInvalid)
    else if sender.publicKey.None? || sender.publicKey.value == "" then
      if settings.requireSignature then Reject(SignatureInvalid) else Pass
    else if !genuine then Reject(SignatureInvalid)
    else AskRedis
  }

  function ReplayKey(serverId: nat, requestId: string): string {
    "agent:sig:" + Text.NatText(serverId) + ":" + requestId
  }

  /** Servers never share replay keys, whatever request ids their agents choose. */
  lemma ReplayKeyInjective(a: nat, x: string, b: nat, y: string)
    requires ReplayKey(a, x) == ReplayKey(b, y)
    ensures a == b && x == y
  {
    var prefix := "agent:sig:";
    var s, t := Text.NatText(a) + ":" + x, Text.NatText(b) + ":" + y;
    assert ReplayKey(a, x) == prefix + s && ReplayKey(b, y) == prefix + t;
    assert (prefix + s)[|prefix|..] == s && (prefix + t)[|prefix|..] == t;
    Text.SplitAtColon(a, x, b, y);
  }

  /** SET NX EX refuses a time to live that is not positive. */
  predicate TtlValid(settings: Settings) {
    settings.maxSkew * 2 > 0
  }

  function Ttl(settings: Settings): int {
    settings.maxSkew * 2 * SECOND
  }

  /** One request as the backend sees it. */
  datatype Request = Request(sender: Sender, headers: Headers, genuine: bool, now: int, redis: Outcome)

  function Verify(settings: Settings, keys: Keys, r: Request): (Keys, Verdict) {
    match Check(settings, r.sender, r.headers, r.genuine, r.now)
    case Pass => (keys, Accepted)
    case Reject(e) => (keys, Rejected(e))
    case AskRedis =>
      var recorded := SetNx(keys, KeyOf(r), "1", Ttl(settings), r.now);
      if TtlValid(settings) && r.redis.Up? then (recorded, if Live(keys, KeyOf(r), r.now) then Rejected(Replayed) else Accepted)
      else
        (if TtlValid(settings) && r.redis.applied then recorded else keys,
         if settings.requireSignature then Rejected(ReplayUnavailable) else Accepted)
  }

  function KeyOf(r: Request): string {
    ReplayKey(r.sender.serverId, r.headers.requestId.GetOr(""))
  }

  // ---------- runs ----------

  datatype Run = Run(settings: Settings, states: seq<Keys>, requests: seq<Request>)

  predicate RequestFollows(run: Run, k: nat)
    requires k < |run.requests| && |run.states| == |run.requests| + 1
  {
    run.states[k + 1] == Verify(run.settings, run.states[k], run.requests[k]).0
  }

  ghost predicate IsRun(run: Run) {
    |run.states| == |run.requests| + 1 && (forall k: nat | k < |run.requests| :: RequestFollows(run, k)) &&
    (forall k, m | 0 <= k < m < |run.requests| :: run.requests[k].now <= run.requests[m].now)
  }

  /** The request passed the replay check and was recorded. */
  predicate Guarded(run: Run, k: nat)
    requires k < |run.requests| && |run.states| == |run.requests| + 1
  {
    var r := run.requests[k];
    && Check(run.settings, r.sender, r.headers, r.genuine, r.now).AskRedis? && TtlValid(run.settings) && r.redis.Up?
    && Verify(run.settings, run.states[k], r).1 == Accepted
  }

  /** How far the agent's clock was ahead when the request came in. */
  function Lead(r: Request): int
    requires r.headers.timestamp.Some? && r.headers.timestamp.value.1.Some?
  {
    r.headers.timestamp.value.1.value - Seconds(r.now)
  }

  /** The same signed request: same server, same headers. */
  predicate SameRequest(a: Request, b: Request) {
    a.sender.serverId == b.sender.serverId && a.headers == b.headers
  }

  /** Where signatures are required, nothing is accepted without passing the replay check. */
  lemma RequiredMeansGuarded(run: Run, k: nat)
    requires IsRun(run) && k < |run.requests| && run.settings.requireSignature
    requires Verify(run.settings, run.states[k], run.requests[k]).1 == Accepted
    ensures Guarded(run, k)
  {
  }

  /** A recorded request id stays recorded until its time to live is over. */
  lemma {:induction false} StaysRecorded(run: Run, i: nat, k: nat, key: string, until: int)
    requires IsRun(run) && i <= k <= |run.requests|
    requires key in run.states[i] && run.states[i][key].expiresAt == until
    requires forall m | i <= m < k :: run.requests[m].now < until
    ensures key in run.states[k] && run.states[k][key].expiresAt == until
  {
    if k > i {
      StaysRecorded(run, i, k - 1, key, until);
      assert RequestFollows(run, k - 1);
    }
  }

  /** A recorded request is accepted again no earlier than twice the skew later. */
  lemma SecondIsLate(run: Run, i: nat, k: nat)
    requires IsRun(run) && i < k < |run.requests| && Guarded(run, i) && Guarded(run, k)
    requires KeyOf(run.requests[i]) == KeyOf(run.requests[k])
    ensures run.requests[k].now >= run.requests[i].now + Ttl(run.settings)
  {
    var until := run.requests[i].now + Ttl(run.settings);
    assert RequestFollows(run, i);
    if run.requests[k].now < until {
      StaysRecorded(run, i + 1, k, KeyOf(run.requests[i]), until);
    }
  }

  lemma SecondsLater(a: int, b: int, n: int)
    requires b >= a + n * SECOND
    ensures Seconds(b) >= Seconds(a) + n
  {
  }

  /** A second acceptance needs the largest lead the window admits at the first and the largest lag at the second. */
  lemma SecondNeedsFullLead(run: Run, i: nat, k: nat)
    requires IsRun(run) && i < k < |run.requests| && Guarded(run, i) && Guarded(run, k)
    requires SameRequest(run.requests[i], run.requests[k])
    ensures Lead(run.requests[i]) == run.settings.maxSkew && Lead(run.requests[k]) == -run.settings.maxSkew
  {
    SecondIsLate(run, i, k);
    SecondsLater(run.requests[i].now, run.requests[k].now, run.settings.maxSkew * 2);
  }

  /** A request that leads the clock by at most one second less than the skew is accepted once and never again. */
  lemma AtMostOnce(run: Run, i: nat, k: nat)
    requires IsRun(run) && i < k < |run.requests| && Guarded(run, i)
    requires SameRequest(run.requests[i], run.requests[k])
    requires Lead(run.requests[i]) <= run.settings.maxSkew - 1
    ensures !Guarded(run, k)
  {
    if Guarded(run, k) {
      SecondNeedsFullLead(run, i, k);
    }
  }

  /** No request is accepted three times. */
  lemma NeverThrice(run: Run, i: nat, k: nat, m: nat)
    requires IsRun(run) && i < k < m < |run.requests| && Guarded(run, i) && Guarded(run, k)
    requires SameRequest(run.requests[i], run.requests[k]) && SameRequest(run.requests[k], run.requests[m])
    ensures !Guarded(run, m)
  {
    SecondNeedsFullLead(run, i, k);
    if Guarded(run, m) {
      SecondNeedsFullLead(run, k, m);
    }
  }

  /**
   * The bound is sharp: after an acceptance by itself, the same request would be accepted again at some later moment
   * exactly if it led the clock by the whole skew.
   */
  lemma ReplayWindow(settings: Settings, keys: Keys, r: Request)
    requires Verify(settings, keys, r).1 == Accepted && Check(settings, r.sender, r.headers, r.genuine, r.now).AskRedis?
    requires TtlValid(settings) && r.redis.Up?
    ensures (exists later :: later >= r.now && AcceptedAgain(settings, keys, r, later)) <==> Lead(r) == settings.maxSkew
  {
    var keys1 := Verify(settings, keys, r).0;
    if later :| later >= r.now && AcceptedAgain(settings, keys, r, later) {
      assert later >= r.now + Ttl(settings);
      SecondsLater(r.now, later, settings.maxSkew * 2);
    }
    if Lead(r) == settings.maxSkew {
      var later := r.now + Ttl(settings);
      assert Seconds(later) == Seconds(r.now) + settings.maxSkew * 2;
      assert InWindow(settings, r.headers.timestamp.value.1.value, later);
      assert AcceptedAgain(settings, keys, r, later);
    }
  }

  predicate AcceptedAgain(settings: Settings, keys: Keys, r: Request, later: int) {
    Verify(settings, Verify(settings, keys, r).0, r.(now := later)).1 == Accepted
  }

  // ---------- the code ----------

  class Guard {
    const settings: Settings
    const redis: Client

    constructor (settings: Settings, redis: Client)
      ensures this.settings == settings && this.redis == redis
    {
      this.settings := settings;
      this.redis := redis;
    }

    /** Records the request id; true if it had been recorded before, nothing if Redis reports an error. */
    method IsReplayed(serverId: nat, requestId: string, ttlSeconds: int, now: int, outcome: Outcome) returns (replayed: Option<bool>)
      modifies redis
      ensures var key, before := ReplayKey(serverId, requestId), old(redis.keys);
              if ttlSeconds > 0 && outcome.Up?
              then replayed == Some(Live(before, key, now)) && redis.keys == SetNx(before, key, "1", ttlSeconds * SECOND, now)
              else replayed == None &&
                   redis.keys == if ttlSeconds > 0 && outcome.applied then SetNx(before, key, "1", ttlSeconds * SECOND, now) else before
    {
      if ttlSeconds <= 0 {
        return None;
      }
      if outcome.Down? && !outcome.applied {
        return None;
      }
      var created := redis.Set(ReplayKey(serverId, requestId), "1", ttlSeconds * SECOND, now);
      replayed := if outcome.Down? then None else Some(!created);
    }

    method VerifyAgentSignature(sender: Sender, h: Headers, genuine: bool, now: int, outcome: Outcome) returns (verdict: Verdict)
      modifies redis
      ensures (redis.keys, verdict) == Verify(settings, old(redis.keys), Request(sender, h, genuine, now, outcome))
    {
      if h.agentId.None? || h.timestamp.None? || h.requestId.None? || h.signature.None? {
        if settings.requireSignature {
          return Rejected(SignatureMissing);
        }
        return Accepted;
      }
      if h.agentId.value != sender.serverCode {
        return Rejected(SignatureInvalid);
      }
      var timestamp := h.timestamp.value.1;
      if timestamp.None? {
        return Rejected(TimestampInvalid);
      }
      if Abs(Seconds(now) - timestamp.value) > settings.maxSkew {
        return Rejected(TimestampInvalid);
      }
      if sender.publicKey.None? || sender.publicKey.value == "" {
        if settings.requireSignature {
          return Rejected(SignatureInvalid);
        }
        return Accepted;
      }
      if !genuine {
        return Rejected(SignatureInvalid);
      }
      var replayed := IsReplayed(sender.serverId, h.requestId.value, settings.maxSkew * 2, now, outcome);
      if replayed.None? {
        verdict := if settings.requireSignature then Rejected(ReplayUnavailable) else Accepted;
      } else {
        verdict := if replayed.value then Rejected(Replayed) else Accepted;
      }
    }
  }
}
