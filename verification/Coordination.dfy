/**
 One execution of an action, split at every write another party can see. A crash may fall
 between any two of these steps.
 */
module Coordination {
  import opened Options
  import opened Statuses
  import opened ActionRequests
  import opened Truths
  import opened ActionStores
  import opened ApprovalStores

  datatype Decision = Allow | Deny | RequireConfirmationFirst | RequireStrongerAuthFirst

  datatype InvocationOutcome =
    | Success | PluginUnavailable | PluginTimeout | PluginError | InvalidArguments | InvalidResult
    | RefusedByPolicy | RefusedForConfirmation | RefusedForStrongerAuth | FailedVerification | UnknownOutcome

  datatype DispatchState = BeforeDispatch | PossiblyDispatched | DispatchAcknowledged

  /**
   `accepted`: the provider's result says so. `reported` is the list of effects in a result that
   is a dictionary, empty when it has none.
   */
  datatype Invocation = Invocation(
    outcome: InvocationOutcome,
    dispatch: DispatchState,
    accepted: bool,
    reported: Option<seq<Arguments>>
  )

  /** The invocation that the check before a dispatch pretends. */
  const Untried := Invocation(Success, BeforeDispatch, false, None)

  /** What is recorded of the connector's own result. */
  function ConnectorResult(i: Invocation): Option<ActionResult> {
    if i.reported.Some? then Some(ConnectorEvidence(i.reported.value)) else None
  }

  /** The policy gate inside the gateway refused; nothing was sent to the connector. */
  predicate Refused(i: Invocation) {
    i.outcome.RefusedByPolicy? || i.outcome.RefusedForConfirmation? || i.outcome.RefusedForStrongerAuth?
  }

  /**
   Everything one execution learns from outside: the lock, the two state reads and the gateway
   (`None` is an exception), the policy, the approval it may create, and a custom verifier.
   */
  datatype Answers = Answers(
    acquired: bool,
    firstRead: Option<Truth>,
    riskMatches: bool,
    decision: Decision,
    envelopeOk: bool,
    approvalId: nat,
    challengeId: nat,
    issuedAt: int,
    expiresAt: int,
    answered: Option<Invocation>,
    secondRead: Option<Truth>,
    custom: Verification
  ) {
    /** A gateway call that raised may have reached the connector. */
    function Gateway(): Invocation {
      if answered.Some? then answered.value else Invocation(PluginError, PossiblyDispatched, false, None)
    }
  }

  /** A status to be written, with the truth and the result that go with it. */
  datatype Ending = Ending(status: ActionStatus, truth: Option<Truth>, result: Option<ActionResult>)

  /** `NoIntent` is a ValueError that nothing catches: the request names its capability by no UUID. */
  datatype Plan = Stop(ending: Ending) | NoIntent | Ask(truth: Truth) | Go(before: Truth, effects: seq<Effect>)

  function Verify(
    r: Request, i: Invocation, truth: Truth, effects: seq<Effect>, useVerifier: bool, custom: Verification
  ): Verification {
    if r.spec == Some(NotificationSpec) then
      var ok := i.accepted && i.outcome.Success?;
      var outcome := if ok then Verified else Unverified;
      Verification(outcome, if effects == [] then [] else [Evidence(effects[0], outcome)])
    else if r.hasVerifier && useVerifier then
      if custom.effects != [] || effects == [] then custom
      else custom.(effects := Observed(truth, effects).effects)
    else Observed(truth, effects)
  }

  /** From the acquired lock to the decision whether to dispatch. */
  function PlanFor(r: Request, e: Answers, approvalsKept: bool): Plan {
    if !e.acquired then Stop(Ending(ResourceBusy, None, None))
    else
      var read := if r.hasRefresher then e.firstRead else Some(map[]);
      if read.None? then Stop(Ending(UnknownResult, None, None))
      else
        var truth := read.value;
        if !r.tool.readOnly && !r.hasRefresher && (r.spec.None? || RequiresFreshState(r.spec.value)) then
          Stop(Ending(UnknownResult, Some(truth), None))
        else if !r.tool.readOnly && r.spec.None? then Stop(Ending(PreconditionFailed, Some(truth), None))
        else
          var mandatory := if r.spec.Some? then MandatoryPreconditions(r.spec.value, truth) else [];
          var effects := if r.spec.Some? then ExpectedEffects(r.spec.value, r.arguments, truth) else [];
          if !AllMatch(mandatory + r.preconditions, truth) then Stop(Ending(PreconditionFailed, Some(truth), None))
          else if !IntentReads(r) then NoIntent
          else if !e.riskMatches then Stop(Ending(PolicyDenied, Some(truth), None))
          else if e.decision.Deny? then Stop(Ending(PolicyDenied, Some(truth), None))
          else if e.decision.RequireStrongerAuthFirst? then Stop(Ending(RequireStrongerAuth, Some(truth), None))
          else if e.decision.RequireConfirmationFirst? then
            if !approvalsKept then Stop(Ending(RequireConfirmation, Some(truth), None))
            else if r.principal.None? || !e.envelopeOk || e.expiresAt <= e.issuedAt then
              Stop(Ending(RequireStrongerAuth, Some(truth), None))
            else Ask(truth)
          else
            var already := Verify(r, Untried, truth, effects, false, e.custom);
            if !r.tool.readOnly && effects != [] && already.outcome.Verified? then
              Stop(Ending(Succeeded, Some(truth), Some(Outcome(false, already.effects, false))))
            else Go(truth, effects)
  }

  predicate Ambiguous(i: Invocation) {
    || i.outcome.FailedVerification? || i.outcome.UnknownOutcome? || i.outcome.PluginTimeout? || i.outcome.PluginError?
    || i.dispatch.PossiblyDispatched?
  }

  function RefusalStatus(i: Invocation): ActionStatus
    requires Refused(i)
  {
    match i.outcome
    case RefusedByPolicy => PolicyDenied
    case RefusedForConfirmation => RequireConfirmation
    case RefusedForStrongerAuth => RequireStrongerAuth
  }

  /** What is recorded after the gateway has been called. */
  function Conclude(r: Request, e: Answers, before: Truth, effects: seq<Effect>): Ending {
    var i := e.Gateway();
    if Refused(i) then Ending(RefusalStatus(i), Some(before), None)
    else if !i.outcome.Success? && !Ambiguous(i) then Ending(ActionStatus.Failed, Some(before), None)
    else if Ambiguous(i) && r.tool.readOnly && r.tool.verificationNone then
      Ending(UnknownResult, Some(before), Some(ConnectorEvidence([])))
    else if r.tool.readOnly && r.tool.verificationNone then Ending(Succeeded, Some(before), ConnectorResult(i))
    else
      var reread := !r.tool.readOnly && (r.hasRefresher || (r.spec.Some? && RequiresFreshState(r.spec.value)));
      var read := if !reread then Some(before) else if r.hasRefresher then e.secondRead else Some(map[]);
      if read.None? then Ending(UnknownResult, Some(before), None)
      else
        var after := read.value;
        var v := Verify(r, i, after, effects, true, e.custom);
        var result := Some(Outcome(true, v.effects, Ambiguous(i)));
        if v.outcome.Unverified? && AnyOutcome(v.effects, Verified) then Ending(Partial, Some(after), result)
        else if v.outcome.Contradicted? then Ending(VerificationFailed, Some(after), result)
        else if v.outcome.Unverified? then Ending(UnknownResult, Some(after), result)
        else if r.tool.readOnly then Ending(Succeeded, Some(before), ConnectorResult(i))
        else Ending(Succeeded, Some(after), result)
  }

  // ----- shared state and the steps on it -----

  /**
   One call of the gateway: what it carried, whether it was refused by policy, and the
   continuation that led to it, if any.
   */
  datatype Dispatch = Dispatch(
    key: string,
    actionId: nat,
    approval: Option<nat>,
    accepted: bool,
    toolId: string,
    arguments: Arguments
  )

  function DispatchOf(r: Request, e: Answers, approval: Option<nat>): Dispatch {
    Dispatch(r.key, r.actionId, approval, !Refused(e.Gateway()), r.tool.toolId, r.arguments)
  }

  datatype Shared = Shared(store: Store, approvals: Approvals, trace: seq<Dispatch>)

  /** Where an execution stands; the names say what it does next. */
  datatype Pc =
    | Claiming
    | Planning
    | Asking(asked: Truth)
    | Writing(ending: Ending)
    | Committing(before: Truth, effects: seq<Effect>)
    | Dispatching(committed: Truth, expected: seq<Effect>)

  /** `Returned` carries the record of the result; `Raised` is an exception out of `execute`. */
  datatype Next = Continue(pc: Pc) | Returned(record: Record, duplicate: bool, conflict: bool) | Raised

  predicate Resumable(s: ActionStatus) {
    s.RequireConfirmation? || s.Planned?
  }

  function Execute1(
    s: Shared, r: Request, e: Answers, approval: Option<nat>, approvalsKept: bool, pc: Pc
  ): (Shared, Next)
    requires r.key in s.store.byKey ==> s.store.byKey[r.key] in s.store.records
  {
    match pc
    case Claiming =>
      var (store, claim) := Claimed(s.store, r);
      if claim.conflict then (s, Returned(claim.record, true, true))
      else if claim.duplicate && !Resumable(claim.record.status) then (s, Returned(claim.record, true, false))
      else (s.(store := store), Continue(Planning))
    case Planning =>
      (s, match PlanFor(r, e, approvalsKept)
          case Stop(ending) => Continue(Writing(ending))
          case NoIntent => Raised
          case Ask(truth) => Continue(Asking(truth))
          case Go(truth, effects) => Continue(Committing(truth, effects)))
    case Asking(truth) =>
      if r.principal.None? then (s, Raised)
      else
        (s.(approvals := Created(s.approvals, r, e.approvalId, e.challengeId, e.issuedAt, e.expiresAt)),
         Continue(Writing(Ending(RequireConfirmation, Some(truth), Some(AwaitingApproval(e.approvalId))))))
    case Writing(ending) =>
      if r.actionId !in s.store.records then (s, Raised)
      else
        var store := Updated(s.store, r.actionId, ending.status, ending.result, ending.truth);
        (s.(store := store), Returned(store.records[r.actionId], false, false))
    case Committing(truth, effects) =>
      if r.actionId !in s.store.records then (s, Raised)
      else
        (s.(store := Updated(s.store, r.actionId, Executing, Some(Intended(effects)), Some(truth))),
         Continue(Dispatching(truth, effects)))
    case Dispatching(truth, effects) =>
      (s.(trace := s.trace + [DispatchOf(r, e, approval)]),
       Continue(Writing(Conclude(r, e, truth, effects))))
  }

  function Rank(pc: Pc): nat {
    match pc
    case Claiming => 5
    case Planning => 4
    case Asking(_) => 3
    case Committing(_, _) => 3
    case Dispatching(_, _) => 2
    case Writing(_) => 1
  }

  lemma StepKeepsKeys(s: Shared, r: Request, e: Answers, approval: Option<nat>, approvalsKept: bool, pc: Pc)
    requires WellKeyed(s.store)
    requires pc.Claiming? && r.key !in s.store.byKey ==> r.actionId !in s.store.records
    ensures WellKeyed(Execute1(s, r, e, approval, approvalsKept, pc).0.store)
  {
  }

  /** An execution that nothing interrupts, from `pc` to its end. */
  ghost function Execution(
    s: Shared, r: Request, e: Answers, approval: Option<nat>, approvalsKept: bool, pc: Pc
  ): (done: (Shared, Next))
    requires WellKeyed(s.store)
    requires pc.Claiming? && r.key !in s.store.byKey ==> r.actionId !in s.store.records
    ensures !done.1.Continue?
    decreases Rank(pc)
  {
    StepKeepsKeys(s, r, e, approval, approvalsKept, pc);
    var (t, next) := Execute1(s, r, e, approval, approvalsKept, pc);
    if next.Continue? then Execution(t, r, e, approval, approvalsKept, next.pc) else (t, next)
  }

  // ----- resuming an approval -----

  /**
   A call of `approve_pending`. `sceneReady` is what the extra checks on the child of a saved scene
   say: a refresher for it and an authenticated identity of the named principal.
   */
  datatype ApproveCall = ApproveCall(
    approvalId: nat,
    household: string,
    principal: string,
    choice: Choice,
    tool: Option<Tool>,
    sceneReady: bool,
    identityHousehold: string,
    identity: Option<string>,
    hasRefresher: bool,
    hasVerifier: bool,
    allowRecovery: bool,
    at: int
  )

  datatype ApprovePc =
    | Looking
    | Settling
    | Acting(pending: Approval)
    | Closing(status: ApprovalStatus, outcome: ActionStatus)

  /** `HandOver` continues with `execute`; `Ended` returns or raises. */
  datatype ApproveNext = Proceed(pc: ApprovePc) | HandOver(request: Request) | Ended

  function DecidedStatus(c: Choice): ApprovalStatus {
    if c.Approve? then Approved else Rejected
  }

  /** The child of a saved scene. */
  predicate SceneStep(a: Approval) {
    "scene-step:" <= a.key
  }

  /** The call brings the approved tool and, for the child of a scene, may carry it out. */
  predicate SameDescriptor(a: Approval, c: ApproveCall) {
    && c.tool.Some? && c.tool.value.toolId == a.toolId && c.tool.value.version == a.toolVersion
    && (SceneStep(a) ==> c.sceneReady)
  }

  /** A write to the record of an approval: a KeyError ends the call. */
  function DenyRecord(s: Shared, id: nat, then_: ApprovalStatus): (Shared, ApproveNext) {
    if id !in s.store.records then (s, Ended)
    else (s.(store := Updated(s.store, id, PolicyDenied, None, None)), Proceed(Closing(then_, PolicyDenied)))
  }

  function Approve1(s: Shared, c: ApproveCall, pc: ApprovePc): (Shared, ApproveNext) {
    match pc
    case Looking =>
      var existing := if c.approvalId in s.approvals.records then Some(s.approvals.records[c.approvalId]) else None;
      if existing.Some? && !c.allowRecovery
           && (existing.value.status.Approved? || existing.value.status.Rejected?)
      then (s, Ended)
      else if existing.Some? && existing.value.household == c.household && existing.value.principal == c.principal
              && existing.value.status == DecidedStatus(c.choice)
      then (s, Proceed(Acting(existing.value)))
      else (s, Proceed(Settling))
    case Settling =>
      var (approvals, a) := ClaimedApproval(s.approvals, c.approvalId, c.household, c.principal, c.choice, c.at);
      (s.(approvals := approvals), if a.None? then Ended else Proceed(Acting(a.value)))
    case Acting(a) =>
      if a.status.Rejected? then DenyRecord(s, a.actionId, Rejected)
      else if !a.status.Approved? then (s, Ended)
      else if !SameDescriptor(a, c) then DenyRecord(s, a.actionId, ApprovalStatus.Failed)
      else
        var r := Rebuild(a, c.tool.value, c.identityHousehold, c.identity, c.hasRefresher, c.hasVerifier);
        (s, if r.None? then Ended else HandOver(r.value))
    case Closing(status, outcome) =>
      (s.(approvals := Completed(s.approvals, c.approvalId, status, outcome)), Ended)
  }
}
