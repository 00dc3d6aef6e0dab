/**
 * Error classification and server-side backoff (backend/app/core/retry.py).
 */
module RetryPolicy {
  import opened Wrappers
  import opened Numbers

  const RETRYABLE_ERROR_TYPES: set<string> :=
    {"NETWORK_ERROR", "AGENT_OFFLINE", "AGENT_TIMEOUT", "SERVER_5XX"}

  const NON_RETRYABLE_ERROR_TYPES: set<string> :=
    {"INVALID_ARGUMENT", "PERMISSION_DENIED", "COMMAND_NOT_FOUND", "SERVICE_NOT_WHITELISTED", "TASK_ACTION_INVALID"}

  const CONDITIONAL_ERROR_TYPES: set<string> :=
    {"AGENT_EXECUTION_TIMEOUT", "SERVICE_UNHEALTHY", "DEPENDENCY_UNAVAILABLE", "RESOURCE_EXHAUSTED"}

  const UNKNOWN_ERROR_TYPE := "UNKNOWN"

  const BACKOFF_SECONDS: seq<int> := [5, 10, 30, 60]

  /** `token in text`. */
  predicate Contains(text: string, token: string) {
    exists i | 0 <= i <= |text| :: token <= text[i..]
  }

  function LowerChar(c: char): char {
    if 'A' <= c <= 'Z' then ((c as int) + 32) as char else c
  }

  function Lower(text: string): string {
    seq(|text|, i requires 0 <= i < |text| => LowerChar(text[i]))
  }

  const TIMEOUT_TOKENS: set<string> := {"timeout", "超时"}
  const NETWORK_TOKENS: set<string> := {"network", "connection", "refused", "unreachable", "网络"}
  const OFFLINE_TOKENS: set<string> := {"offline", "离线"}

  predicate Mentions(text: string, tokens: set<string>) {
    exists token | token in tokens :: Contains(text, token)
  }

  /** A type counts as reported only when it is a non-empty string. */
  predicate Stated(errorType: Option<string>) {
    errorType.Some? && errorType.value != ""
  }

  /** Normalises a reported failure to a standard error type. */
  function ClassifyError(errorType: Option<string>, errorMessage: Option<string>): string {
    if Stated(errorType) then errorType.value
    else
      var text := Lower(errorMessage.GetOr(""));
      if Mentions(text, TIMEOUT_TOKENS) then "AGENT_TIMEOUT"
      else if Mentions(text, NETWORK_TOKENS) then "NETWORK_ERROR"
      else if Mentions(text, OFFLINE_TOKENS) then "AGENT_OFFLINE"
      else UNKNOWN_ERROR_TYPE
  }

  predicate IsRetryable(errorType: Option<string>, errorMessage: Option<string>) {
    ClassifyError(errorType, errorMessage) in RETRYABLE_ERROR_TYPES
  }

  /** Whether a stored, already classified error type is a retryable one. */
  predicate RetryableType(errorType: Option<string>) {
    errorType.Some? && errorType.value in RETRYABLE_ERROR_TYPES
  }

  /** Seconds to wait after attempt number `attempt` failed. */
  function BackoffSeconds(attempt: int): int {
    var index := Max(0, Min(attempt - 1, |BACKOFF_SECONDS| - 1));
    BACKOFF_SECONDS[index]
  }

  /** Total backoff that precedes attempt `k`: 0, 5, 15, 45, 105, then 60 more each time. */
  function CumulativeBackoff(k: int): int {
    if k <= 1 then 0 else CumulativeBackoff(k - 1) + BackoffSeconds(k - 1)
  }

  /** The backoff table never shrinks and is capped at one minute. */
  lemma BackoffGrowsToItsCap(a: int, b: int)
    requires a <= b
    ensures 5 <= BackoffSeconds(a) <= BackoffSeconds(b) <= 60
    ensures b >= 4 ==> BackoffSeconds(b) == 60
  {
    assert BACKOFF_SECONDS[0] == 5 && BACKOFF_SECONDS[1] == 10 && BACKOFF_SECONDS[2] == 30 && BACKOFF_SECONDS[3] == 60;
  }

  /** Closed form of the cumulative backoff. */
  lemma {:induction false} CumulativeBackoffClosedForm(k: int)
    ensures CumulativeBackoff(k) ==
            if k <= 1 then 0 else if k == 2 then 5 else if k == 3 then 15 else if k == 4 then 45 else 60 * (k - 5) + 105
  {
    if k > 1 {
      CumulativeBackoffClosedForm(k - 1);
    }
  }

  lemma ListedTypesAreNotEmpty(errorType: string)
    requires errorType in RETRYABLE_ERROR_TYPES + NON_RETRYABLE_ERROR_TYPES + CONDITIONAL_ERROR_TYPES
    ensures |errorType| >= 9
  {
  }

  /**
   * Exactly which reports are retried: a stated retryable type, or no stated type and a message that
   * mentions one of the transient conditions. An error nobody can name is therefore never retried.
   */
  lemma RetryDecision(errorType: Option<string>, errorMessage: Option<string>)
    ensures IsRetryable(errorType, errorMessage) <==>
              if Stated(errorType) then RetryableType(errorType)
              else Mentions(Lower(errorMessage.GetOr("")), TIMEOUT_TOKENS + NETWORK_TOKENS + OFFLINE_TOKENS)
    ensures RetryableType(Some(ClassifyError(errorType, errorMessage))) <==> IsRetryable(errorType, errorMessage)
  {
    if !Stated(errorType) {
      var text := Lower(errorMessage.GetOr(""));
      MentionsUnion(text, TIMEOUT_TOKENS, NETWORK_TOKENS);
      MentionsUnion(text, TIMEOUT_TOKENS + NETWORK_TOKENS, OFFLINE_TOKENS);
      UnknownIsNotRetryable();
    }
  }

  lemma MentionsUnion(text: string, a: set<string>, b: set<string>)
    ensures Mentions(text, a + b) <==> Mentions(text, a) || Mentions(text, b)
  {
    if Mentions(text, a) {
      var token :| token in a && Contains(text, token);
      assert token in a + b;
    }
    if Mentions(text, b) {
      var token :| token in b && Contains(text, token);
      assert token in a + b;
    }
  }

  lemma UnknownIsNotRetryable()
    ensures UNKNOWN_ERROR_TYPE !in RETRYABLE_ERROR_TYPES
  {
    forall t | t in RETRYABLE_ERROR_TYPES ensures |t| >= 9 {
      ListedTypesAreNotEmpty(t);
    }
  }
}
