/** A call of an agent with all its transport retries, seen from the backend: it takes effect at most once. */
module SignedCalls {
  import opened Wrappers
  import opened RequestReplay
  import opened ClientBackoff

  /** The request brings the headers of one of the sends of a call to the server the call is for. */
  predicate Carries(r: Request, sent: Sends, serverId: nat) {
    r.sender.serverId == serverId && Some(r.headers) in sent
  }

  /** The `k`-th request of the run is a send of the call and passes the replay check. */
  predicate Applied(run: Run, k: nat, sent: Sends, serverId: nat)
    requires k < |run.requests| && |run.states| == |run.requests| + 1
  {
    Carries(run.requests[k], sent, serverId) && Guarded(run, k)
  }

  /** The earliest applied send up to the `k`-th request. */
  lemma {:induction false} FirstApplied(run: Run, k: nat, sent: Sends, serverId: nat) returns (f: nat)
    requires IsRun(run) && k < |run.requests| && Applied(run, k, sent, serverId)
    ensures f <= k && Applied(run, f, sent, serverId) && forall m | 0 <= m < f :: !Applied(run, m, sent, serverId)
  {
    if m :| 0 <= m < k && Applied(run, m, sent, serverId) {
      f := FirstApplied(run, m, sent, serverId);
    } else {
      f := k;
    }
  }

  /** The first send that the backend applies leads its clock by at most the skew less one second. */
  ghost predicate FirstLeadsLittle(run: Run, sent: Sends, serverId: nat)
    requires |run.states| == |run.requests| + 1
  {
    forall f: nat | f < |run.requests| && Applied(run, f, sent, serverId) &&
                    (forall m | 0 <= m < f :: !Applied(run, m, sent, serverId)) ::
      Lead(run.requests[f]) <= run.settings.maxSkew - 1
  }

  lemma OneSignatureOneRequest(a: Request, b: Request, sent: Sends, signature: Option<Headers>, serverId: nat)
    requires SignedOnce(sent, signature) && Carries(a, sent, serverId) && Carries(b, sent, serverId)
    ensures SameRequest(a, b)
  {
  }

  /**
   * However often the sends of one call arrive, in whatever order and between whatever other requests, at most one of
   * them passes the replay check, provided the first that does leads the clock by at most the skew less one second.
   */
  lemma CallAppliesAtMostOnce(run: Run, sent: Sends, signature: Option<Headers>, serverId: nat, i: nat, k: nat)
    requires IsRun(run) && i < |run.requests| && k < |run.requests|
    requires SignedOnce(sent, signature) && FirstLeadsLittle(run, sent, serverId)
    requires Applied(run, i, sent, serverId) && Applied(run, k, sent, serverId)
    ensures i == k
  {
    var early, late := if i < k then i else k, if i < k then k else i;
    if early < late {
      var f := FirstApplied(run, early, sent, serverId);
      OneSignatureOneRequest(run.requests[f], run.requests[late], sent, signature, serverId);
      AtMostOnce(run, f, late);
    }
  }

  /** Where signatures are required, at most one of the sends of a call is accepted at all. */
  lemma CallIsAcceptedAtMostOnce(run: Run, sent: Sends, signature: Option<Headers>, serverId: nat, i: nat, k: nat)
    requires IsRun(run) && run.settings.requireSignature && i < |run.requests| && k < |run.requests|
    requires SignedOnce(sent, signature) && FirstLeadsLittle(run, sent, serverId)
    requires Carries(run.requests[i], sent, serverId) && Verify(run.settings, run.states[i], run.requests[i]).1 == Accepted
    requires Carries(run.requests[k], sent, serverId) && Verify(run.settings, run.states[k], run.requests[k]).1 == Accepted
    ensures i == k
  {
    RequiredMeansGuarded(run, i);
    RequiredMeansGuarded(run, k);
    CallAppliesAtMostOnce(run, sent, signature, serverId, i, k);
  }
}
