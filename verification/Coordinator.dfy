/** The coordinator itself: one call after another over stores and locks updated in place. */
module Coordinator {
  import opened Options
  import opened Statuses
  import opened ActionRequests
  import opened Truths
  import opened ActionStores
  import opened ApprovalStores
  import opened Coordination
  import opened ActionRuns
  import opened UninterruptedCalls
  import ActionSafety
  import ResourceLocks

  class ActionExecutionCoordinator {
    const store: InMemoryActionStore
    const approvals: InMemoryPendingApprovalStore?
    const locker: ResourceLocks.LockTable
    ghost var trace: seq<Dispatch>
    ghost var events: seq<Event>

    function Kept(): bool {
      approvals != null
    }

    ghost function State(): Shared
      reads this, store, approvals
    {
      Shared(store.State(), if approvals == null then Approvals(map[], map[]) else approvals.State(), trace)
    }

    constructor (store: InMemoryActionStore, approvals: InMemoryPendingApprovalStore?, locker: ResourceLocks.LockTable)
      ensures this.store == store && this.approvals == approvals && this.locker == locker
      ensures trace == [] && events == []
    {
      this.store, this.approvals, this.locker := store, approvals, locker;
      trace, events := [], [];
    }

    method Terminal(r: Request, ending: Ending) returns (next: Next)
      modifies store
      ensures (State(), next) == Written(old(State()), r, ending)
      ensures store.effects ==
        old(store.effects) + if next.Returned? then EffectRows(r.actionId, Listed(ending.result)) else []
    {
      var record := store.Update(r.actionId, ending.status, ending.result, ending.truth);
      if record.None? {
        return Raised;
      }
      store.RecordEffects(r.actionId, Listed(ending.result));
      return Returned(record.value, false, false);
    }

    /** The keys of the preconditions that the truth does not meet. */
    method Failures(checks: seq<Precondition>, truth: Truth) returns (failed: seq<string>)
      ensures failed == [] <==> AllMatch(checks, truth)
      ensures forall k :: k in failed <==>
        exists i :: 0 <= i < |checks| && checks[i].truthKey == k && !Meets(checks[i], truth)
    {
      hide MatchesTruth, Meets;
      AllMatchExactly(checks, truth);
      failed := [];
      for i := 0 to |checks|
        invariant failed == [] <==> forall j :: 0 <= j < i ==> MatchesTruth(checks[j], truth)
        invariant forall k :: k in failed <==>
          exists j :: 0 <= j < i && checks[j].truthKey == k && !MatchesTruth(checks[j], truth)
      {
        if !MatchesTruth(checks[i], truth) {
          failed := failed + [checks[i].truthKey];
        }
      }
    }

    /** Everything between the lock and the dispatch. */
    method Decide(r: Request, e: Answers) returns (plan: Plan)
      ensures plan == PlanFor(r, e, Kept())
    {
      hide Verify, AllMatch, ExpectedEffects, MandatoryPreconditions;
      if !e.acquired {
        return Stop(Ending(ResourceBusy, None, None));
      }
      var truth: Truth := map[];
      if r.hasRefresher {
        if e.firstRead.None? {
          return Stop(Ending(UnknownResult, None, None));
        }
        truth := e.firstRead.value;
      }
      if !r.tool.readOnly && !r.hasRefresher && (r.spec.None? || RequiresFreshState(r.spec.value)) {
        return Stop(Ending(UnknownResult, Some(truth), None));
      }
      if !r.tool.readOnly && r.spec.None? {
        return Stop(Ending(PreconditionFailed, Some(truth), None));
      }
      var mandatory, effects := [], [];
      if r.spec.Some? {
        mandatory := MandatoryPreconditions(r.spec.value, truth);
        effects := ExpectedEffects(r.spec.value, r.arguments, truth);
      }
      var failed := Failures(mandatory + r.preconditions, truth);
      if failed != [] {
        return Stop(Ending(PreconditionFailed, Some(truth), None));
      }
      if !IntentReads(r) {
        return NoIntent;
      }
      if !e.riskMatches {
        return Stop(Ending(PolicyDenied, Some(truth), None));
      }
      if e.decision.Deny? {
        return Stop(Ending(PolicyDenied, Some(truth), None));
      }
      if e.decision.RequireConfirmationFirst? && Kept() {
        if r.principal.None? || !e.envelopeOk || e.expiresAt <= e.issuedAt {
          return Stop(Ending(RequireStrongerAuth, Some(truth), None));
        }
        return Ask(truth);
      }
      if e.decision.RequireConfirmationFirst? {
        return Stop(Ending(RequireConfirmation, Some(truth), None));
      }
      if e.decision.RequireStrongerAuthFirst? {
        return Stop(Ending(RequireStrongerAuth, Some(truth), None));
      }
      if !r.tool.readOnly && effects != [] {
        WithoutVerifier(r, Untried, truth, effects, e.custom);
        var already := Check(r.(hasVerifier := false), Untried, truth, effects, e.custom);
        if already.outcome.Verified? {
          return Stop(Ending(Succeeded, Some(truth), Some(Outcome(false, already.effects, false))));
        }
      }
      return Go(truth, effects);
    }

    method Check(
      r: Request, i: Invocation, truth: Truth, effects: seq<Effect>, custom: Verification
    ) returns (v: Verification)
      ensures v == Verify(r, i, truth, effects, true, custom)
    {
      if r.spec == Some(NotificationSpec) {
        var outcome := if i.accepted && i.outcome.Success? then Verified else Unverified;
        return Verification(outcome, if effects == [] then [] else [Evidence(effects[0], outcome)]);
      }
      if r.hasVerifier {
        if custom.effects != [] || effects == [] {
          return custom;
        }
        var observed := VerifyObserved(truth, effects);
        return custom.(effects := observed.effects);
      }
      v := VerifyObserved(truth, effects);
    }

    /** What to record once the gateway has answered. */
    method Settle(r: Request, e: Answers, before: Truth, effects: seq<Effect>) returns (ending: Ending)
      ensures ending == Conclude(r, e, before, effects)
    {
      var i := e.Gateway();
      if Refused(i) {
        return Ending(RefusalStatus(i), Some(before), None);
      }
      var ambiguous := Ambiguous(i);
      if !i.outcome.Success? && !ambiguous {
        return Ending(ActionStatus.Failed, Some(before), None);
      }
      if ambiguous && r.tool.readOnly && r.tool.verificationNone {
        return Ending(UnknownResult, Some(before), Some(ConnectorEvidence([])));
      }
      var after := before;
      var result: Option<ActionResult> := None;
      if !r.tool.readOnly || !r.tool.verificationNone {
        if !r.tool.readOnly && (r.hasRefresher || (r.spec.Some? && RequiresFreshState(r.spec.value))) {
          after := map[];
          if r.hasRefresher {
            if e.secondRead.None? {
              return Ending(UnknownResult, Some(before), None);
            }
            after := e.secondRead.value;
          }
        }
        var v := Check(r, i, after, effects, e.custom);
        result := Some(Outcome(true, v.effects, ambiguous));
        if v.outcome.Unverified? && AnyOutcome(v.effects, Verified) {
          return Ending(Partial, Some(after), result);
        }
        if v.outcome.Contradicted? {
          return Ending(VerificationFailed, Some(after), result);
        }
        if v.outcome.Unverified? {
          return Ending(UnknownResult, Some(after), result);
        }
      }
      if r.tool.readOnly {
        return Ending(Succeeded, Some(before), ConnectorResult(i));
      }
      return Ending(Succeeded, Some(after), result);
    }

    /** The durable mark, the call of the gateway and the record of what came of it. */
    method Perform(
      r: Request, e: Answers, ghost approval: Option<nat>, truth: Truth, effects: seq<Effect>
    ) returns (next: Next)
      modifies store, this`trace
      ensures (State(), next) == AfterDispatch(old(State()), r, e, approval, truth, effects)
    {
      var marked := store.Update(r.actionId, Executing, Some(Intended(effects)), Some(truth));
      if marked.None? {
        return Raised;
      }
      trace := trace + [DispatchOf(r, e, approval)];
      var ending := Settle(r, e, truth, effects);
      next := Terminal(r, ending);
    }

    /** The body of the `with` block. */
    method Inside(r: Request, e: Answers, ghost approval: Option<nat>) returns (next: Next)
      requires WellKeyed(store.State())
      modifies store, approvals, this`trace
      ensures (State(), next) == Execution(old(State()), r, e, approval, Kept(), Planning)
    {
      var plan := Decide(r, e);
      match plan
      case Stop(ending) =>
        WritingCarriesOut(State(), r, e, approval, Kept(), ending);
        next := Terminal(r, ending);
      case NoIntent =>
        return Raised;
      case Ask(truth) =>
        var a := approvals.Create(r, e.approvalId, e.challengeId, e.issuedAt, e.expiresAt);
        var ending := Ending(RequireConfirmation, Some(truth), Some(AwaitingApproval(a.approvalId)));
        WritingCarriesOut(State(), r, e, approval, Kept(), ending);
        next := Terminal(r, ending);
      case Go(truth, effects) =>
        CommittingCarriesOut(State(), r, e, approval, Kept(), truth, effects);
        next := Perform(r, e, approval, truth, effects);
    }

    /** Claim, lock, execute, unlock: the lock is given back on every path. */
    method Carry(r: Request, e: Answers, ghost approval: Option<nat>) returns (next: Next)
      requires CanClaim(store.State(), r)
      modifies store, approvals, locker, this`trace
      ensures (State(), next) ==
        Execution(old(State()), r, Heard(e, old(locker.Taken()), r), approval, Kept(), Pc.Claiming)
      ensures locker.Taken() == old(locker.Taken())
    {
      hide Execution, Claimed, RequestDigest;
      ClaimingCarriesOut(State(), r, Heard(e, locker.Taken(), r), approval, Kept());
      var claim := store.Claim(r);
      if claim.conflict {
        return Returned(claim.record, true, true);
      }
      if claim.duplicate && !Resumable(claim.record.status) {
        return Returned(claim.record, true, false);
      }
      next := UnderLock(r, e, approval);
    }

    /** The `with` block. */
    method UnderLock(r: Request, e: Answers, ghost approval: Option<nat>) returns (next: Next)
      requires WellKeyed(store.State())
      modifies store, approvals, locker, this`trace
      ensures (State(), next) ==
        Execution(old(State()), r, Heard(e, old(locker.Taken()), r), approval, Kept(), Planning)
      ensures locker.Taken() == old(locker.Taken())
    {
      hide Execution;
      var scopes := if r.lockScopes != [] then r.lockScopes else r.resourceIds;
      var lock := new ResourceLocks.InMemoryResourceLock(locker, scopes);
      var acquired := lock.Enter();
      assert acquired == Grants(old(locker.Taken()), r);
      next := Inside(r, e.(acquired := acquired), approval);
      lock.Exit();
    }

    /** The state is that of a run in which no call is under way. */
    ghost predicate Valid()
      reads this, store, approvals
    {
      Run(Kept(), events).shared == State() && Run(Kept(), events).threads == map[]
    }

    /** The fresh ids of a call are fresh. */
    ghost predicate Startable(r: Request, e: Answers)
      reads this, store, approvals
    {
      var w := Run(Kept(), events);
      && Valid()
      && CanClaim(store.State(), r)
      && (r.actionId in w.ids ==> w.ids[r.actionId] == r.key)
      && e.approvalId !in w.shared.approvals.records
    }

    /** Every call extends the run by its own uninterrupted steps; the locks are as before. */
    method Execute(r: Request, e: Answers) returns (next: Next)
      requires Startable(r, e)
      modifies store, approvals, locker, this
      ensures Valid()
      ensures (State(), next) == Execution(old(State()), r, Heard(e, old(locker.Taken()), r), None, Kept(), Pc.Claiming)
      ensures exists n :: events == Executed(old(events), r, e, old(locker.Taken()), n)
      ensures Run(Kept(), events).ids == Run(Kept(), old(events)).ids[r.actionId := r.key]
      ensures State().approvals.records.Keys <= old(State().approvals.records.Keys) + {e.approvalId}
      ensures locker.Taken() == old(locker.Taken())
    {
      hide Run, Execution, Executed, RequestDigest, WellKeyed, Enabled, Apply, Inv, Grants, Keyed;
      ghost var heard := Heard(e, locker.Taken(), r);
      ExecutionKeepsApprovals(State(), r, heard, None, Kept(), Pc.Claiming);
      ghost var n := ExecutedAlone(Kept(), events, r, e, locker.Taken());
      ghost var extended := Executed(events, r, e, locker.Taken(), n);
      next := Carry(r, e, None);
      events := extended;
    }

    /** The answer to a decided approval that no execution follows. */
    method Deny(c: ApproveCall, a: Approval, status: ApprovalStatus) returns (next: Next)
      requires approvals != null
      modifies store, approvals
      ensures State() == Denied(old(State()), c, a, status)
      ensures next ==
        if a.actionId in old(store.records) then Returned(store.records[a.actionId], false, false) else Raised
      ensures next.Returned? ==> next.record.status.PolicyDenied?
    {
      var record := store.Update(a.actionId, PolicyDenied, None, None);
      if record.None? {
        return Raised;
      }
      approvals.Complete(c.approvalId, status, record.value.status);
      return Returned(record.value, false, false);
    }

    /** Finds or decides the approval; `None` ends the call. */
    method Take(c: ApproveCall) returns (pending: Option<Approval>)
      requires approvals != null
      modifies approvals
      ensures Resumption(old(State()), c, Looking) ==
        if pending.None? then (State(), None) else Resumption(State(), c, Acting(pending.value))
      ensures pending.Some? ==> c.approvalId in approvals.records
    {
      hide Resumption;
      LookingCases(State(), c);
      pending := approvals.Get(c.approvalId);
      var recovering := pending.Some? && (pending.value.status.Approved? || pending.value.status.Rejected?);
      if recovering && !c.allowRecovery {
        return None;
      }
      if pending.None? || pending.value.household != c.household || pending.value.principal != c.principal
         || !((c.choice.Approve? && pending.value.status.Approved?)
            || (c.choice.Reject? && pending.value.status.Rejected?)) {
        pending := approvals.Claim(c.approvalId, c.household, c.principal, c.choice, c.at);
      }
    }

    /** `approve_pending` once approvals are kept. */
    method Resume(c: ApproveCall, e: Answers) returns (reply: Option<Next>)
      requires approvals != null && CanResume(State(), c)
      modifies store, approvals, locker, this`trace
      ensures locker.Taken() == old(locker.Taken())
      ensures State() == ApprovalCall(old(State()), c, e, true, old(locker.Taken()))
      ensures reply.Some? && reply.value.Returned? ==>
        && c.approvalId in State().approvals.records
        && State().approvals.records[c.approvalId].outcome == Some(reply.value.record.status)
      ensures reply.None? ==> store.State() == old(store.State()) && trace == old(trace)
    {
      hide Execution, Resumption, Rebuild, Updated;
      var pending := Take(c);
      if pending.None? {
        return None;
      }
      var a := pending.value;
      ActingCases(State(), c, a);
      if a.status.Rejected? {
        var next := Deny(c, a, Rejected);
        return Some(next);
      }
      if !a.status.Approved? {
        return None;
      }
      if !SameDescriptor(a, c) {
        var next := Deny(c, a, ApprovalStatus.Failed);
        return Some(next);
      }
      var r := Rebuild(a, c.tool.value, c.identityHousehold, c.identity, c.hasRefresher, c.hasVerifier);
      if r.None? {
        return Some(Raised);
      }
      ExecutionKeepsApprovals(State(), r.value, Heard(e, locker.Taken(), r.value), Some(c.approvalId), true,
        Pc.Claiming);
      var next := Carry(r.value, e, Some(c.approvalId));
      if next.Returned? {
        approvals.Complete(c.approvalId, Approved, next.record.status);
      }
      return Some(next);
    }

    /** What the call of an approval leaves in the run of the system. */
    method ApprovePending(c: ApproveCall, e: Answers) returns (reply: Option<Next>)
      requires Valid() && e.approvalId !in State().approvals.records
      modifies store, approvals, locker, this
      ensures Valid()
      ensures locker.Taken() == old(locker.Taken())
      ensures approvals == null ==> reply.None? && State() == old(State())
      ensures approvals != null ==>
        && State() == ApprovalCall(old(State()), c, e, true, old(locker.Taken()))
        && exists n :: events == Called(old(events), c, e, old(locker.Taken()), n)
      ensures reply.Some? && reply.value.Returned? ==>
        && c.approvalId in State().approvals.records
        && State().approvals.records[c.approvalId].outcome == Some(reply.value.record.status)
      ensures reply.None? ==> store.State() == old(store.State()) && trace == old(trace)
    {
      hide Run, Execution, ApprovalCall, Called, Resumption;
      if approvals == null {
        return None;
      }
      ghost var n := ApprovedAlone(events, c, e, locker.Taken());
      ghost var extended := Called(events, c, e, locker.Taken(), n);
      reply := Resume(c, e);
      events := extended;
    }

    /** The store's recovery, at start-up or between calls. */
    method RecoverIncomplete() returns (recovered: seq<Record>)
      requires Valid()
      modifies store, this
      ensures Valid()
      ensures store.State() == Recovered(old(store.State()))
      ensures events == old(events) + [Recover]
    {
      hide Run, Recovered, Inv, Grants;
      ActionSafety.RunExtends(Kept(), events, Recover);
      recovered := store.RecoverIncomplete();
      events := events + [Recover];
    }
  }

  /** Whatever calls and recoveries the coordinator has served, no key was dispatched twice. */
  lemma ServedAtMostOnce(c: ActionExecutionCoordinator, key: string)
    requires c.Valid()
    ensures Accepted(c.State().trace, key) <= 1
    ensures Accepted(c.State().trace, key) == 1 ==> Settled(c.store.State(), key)
  {
    ActionSafety.AtMostOneAcceptedDispatch(c.Kept(), c.events, key);
  }
}
