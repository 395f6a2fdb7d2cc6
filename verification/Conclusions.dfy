/** What is recorded once the gateway has been called, kind by kind. */
module Conclusions {
  import opened Options
  import opened Statuses
  import opened ActionRequests
  import opened Truths
  import opened ActionStores
  import opened Coordination

  /** The call succeeded by its own account. */
  ghost predicate Answered(e: Answers) {
    e.answered.Some? && e.answered.value.outcome.Success?
  }

  /** Whatever it says of itself, the call may have had its effect: it raised, or did not end well. */
  ghost predicate MayHaveActed(e: Answers) {
    match e.answered
    case None => true
    case Some(i) =>
      || i.outcome == FailedVerification || i.outcome == UnknownOutcome
      || i.outcome == PluginTimeout || i.outcome == PluginError
      || i.dispatch == PossiblyDispatched
  }

  /** The policy gate inside the gateway let the call through. */
  ghost predicate LetThrough(e: Answers) {
    e.answered.Some? ==>
      && e.answered.value.outcome != RefusedByPolicy
      && e.answered.value.outcome != RefusedForConfirmation
      && e.answered.value.outcome != RefusedForStrongerAuth
  }

  lemma GatewayMeans(e: Answers)
    ensures !Refused(e.Gateway()) <==> LetThrough(e)
    ensures Ambiguous(e.Gateway()) <==> MayHaveActed(e)
    ensures e.Gateway().outcome.Success? <==> Answered(e)
  {
  }

  /** A refusal is recorded as what policy asked for, over the state read before. */
  lemma RefusalsAreRecorded(r: Request, e: Answers, before: Truth, effects: seq<Effect>)
    requires e.answered.Some? && !LetThrough(e)
    ensures var ending := Conclude(r, e, before, effects);
      && ending.truth == Some(before) && ending.result == None
      && (ending.status.PolicyDenied? <==> e.answered.value.outcome.RefusedByPolicy?)
      && (ending.status.RequireConfirmation? <==> e.answered.value.outcome.RefusedForConfirmation?)
      && (ending.status.RequireStrongerAuth? <==> e.answered.value.outcome.RefusedForStrongerAuth?)
  {
  }

  /** The state an outcome is judged by: read again, when there is a way to. */
  ghost function LaterTruth(r: Request, e: Answers, before: Truth): Option<Truth> {
    if r.hasRefresher && !r.tool.readOnly then e.secondRead else Some(before)
  }

  /** A notification succeeds exactly on the provider's own acceptance; nothing that was observed decides it. */
  lemma NotificationConcludesExactly(r: Request, e: Answers, before: Truth)
    requires r.spec == Some(NotificationSpec) && !r.tool.readOnly && LetThrough(e)
    ensures var ending := Conclude(r, e, before, ExpectedEffects(NotificationSpec, r.arguments, before));
      var judged := Answered(e) || MayHaveActed(e);
      var read := LaterTruth(r, e, before).Some?;
      && (ending.status.Failed? <==> !judged)
      && (ending.status.Succeeded? <==> judged && read && Answered(e) && e.answered.value.accepted)
      && (ending.status.UnknownResult? <==> judged && !(read && Answered(e) && e.answered.value.accepted))
      && (ending.status.Succeeded? ==> ending.truth == LaterTruth(r, e, before))
  {
    GatewayMeans(e);
    hide Observed;
  }

  /** A query that asks for no verification succeeds exactly on a conclusive answer, which is what is recorded. */
  lemma QueryConcludesExactly(r: Request, e: Answers, before: Truth, effects: seq<Effect>)
    requires r.tool.readOnly && r.tool.verificationNone && LetThrough(e)
    ensures var ending := Conclude(r, e, before, effects);
      && ending.truth == Some(before)
      && (ending.status.Failed? <==> !Answered(e) && !MayHaveActed(e))
      && (ending.status.UnknownResult? <==> MayHaveActed(e))
      && (ending.status.Succeeded? <==> Answered(e) && !MayHaveActed(e))
      && (ending.status.Succeeded? ==>
            match e.answered.value.reported
            case Some(entries) => ending.result == Some(ConnectorEvidence(entries))
            case None => ending.result == None)
  {
    GatewayMeans(e);
    hide Verify;
  }

  /** What a custom verifier says decides, over its own evidence or, when it gives none, over what was observed. */
  lemma VerifierConcludesExactly(r: Request, e: Answers, before: Truth, effects: seq<Effect>)
    requires r.hasVerifier && r.spec != Some(NotificationSpec) && !r.tool.readOnly && r.hasRefresher && LetThrough(e)
    ensures var ending := Conclude(r, e, before, effects);
      var judged := (Answered(e) || MayHaveActed(e)) && e.secondRead.Some?;
      var evidence :=
        if e.custom.effects != [] || effects == [] || e.secondRead == None then e.custom.effects
        else Observed(e.secondRead.value, effects).effects;
      var partly := exists i :: 0 <= i < |evidence| && evidence[i].outcome == Verified;
      && (ending.status.Succeeded? <==> judged && e.custom.outcome == Verified)
      && (ending.status.VerificationFailed? <==> judged && e.custom.outcome == Contradicted)
      && (ending.status.Partial? <==> judged && e.custom.outcome == Unverified && partly)
      && (judged ==> ending.truth == e.secondRead && ending.result == Some(Outcome(true, evidence, MayHaveActed(e))))
  {
    GatewayMeans(e);
    hide Observed;
  }
}
