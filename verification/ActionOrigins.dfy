/** Where approvals come from: over every run a continuation stays a faithful copy of its request. */
module ActionOrigins {
  import opened Options
  import opened Texts
  import opened ActionRequests
  import opened Truths
  import opened ActionStores
  import opened ApprovalStores
  import opened Coordination
  import opened ActionLocality
  import opened ActionRuns
  import opened ActionSafety
  import opened ActionSoundness

  /** Equal but for the decision and its outcome. */
  ghost predicate SameContinuation(a: Approval, b: Approval) {
    b == a.(status := b.status, decision := b.decision, outcome := b.outcome)
  }

  /** The approval continues the request kept beside it, whose digest the action store has for its key. */
  ghost predicate Continues(s: Store, approvals: Approvals, id: nat)
    requires id in approvals.records
  {
    && id in approvals.requests
    && var (a, r) := (approvals.records[id], approvals.requests[id]);
    && r.principal.Some?
    && SameContinuation(ApprovalFor(r, a.approvalId, a.challengeId, a.issuedAt, a.expiresAt), a)
    && r.key in s.byKey && s.byKey[r.key] in s.records
    && s.records[s.byKey[r.key]].digest == RequestDigest(r)
  }

  ghost predicate ThreadContinues(approvals: Approvals, t: Thread) {
    t.Resuming? && t.apc.Acting? ==>
      t.call.approvalId in approvals.records && SameContinuation(approvals.records[t.call.approvalId], t.apc.pending)
  }

  ghost predicate Origins(w: World) {
    && (forall id :: id in w.shared.approvals.records ==> Continues(w.shared.store, w.shared.approvals, id))
    && (forall t :: t in w.threads ==> ThreadContinues(w.shared.approvals, w.threads[t]))
  }

  /** Enough for one approval to stay a faithful copy. */
  lemma ContinuesAcross(s: Store, approvals: Approvals, t: Store, later: Approvals, id: nat)
    requires Grows(s, t)
    requires id in approvals.records && id in later.records && Continues(s, approvals, id)
    requires Later(approvals.records[id], later.records[id])
    requires id in later.requests && later.requests[id] == approvals.requests[id]
    ensures Continues(t, later, id)
  {
    hide RequestDigest, ApprovalFor;
  }

  lemma OriginsAcross(w: World, v: World, moved: nat)
    requires Origins(w) && Grows(w.shared.store, v.shared.store) && AllLater(w.shared.approvals, v.shared.approvals)
    requires forall id :: id in w.shared.approvals.records ==>
      (id in w.shared.approvals.requests ==>
        id in v.shared.approvals.requests && v.shared.approvals.requests[id] == w.shared.approvals.requests[id])
    requires forall id :: id in v.shared.approvals.records && id !in w.shared.approvals.records ==>
      Continues(v.shared.store, v.shared.approvals, id)
    requires forall u :: u in v.threads && u != moved ==> u in w.threads && v.threads[u] == w.threads[u]
    requires moved in v.threads ==> ThreadContinues(v.shared.approvals, v.threads[moved])
    ensures Origins(v)
  {
  }

  lemma RequestIsKept(s: Store, approvals: Approvals, id: nat)
    requires id in approvals.records && Continues(s, approvals, id)
    ensures id in approvals.requests
  {
  }

  /** An approval created under a fresh id continues the request at hand. */
  lemma CreationContinues(store: Store, s: Approvals, t: Thread)
    requires Active(t) && Bound(store, t) && t.r.principal.Some? && t.e.approvalId !in s.records
    ensures var after := Created(s, t.r, t.e.approvalId, t.e.challengeId, t.e.issuedAt, t.e.expiresAt);
      && Continues(store, after, t.e.approvalId)
      && (forall id :: id in after.records && id != t.e.approvalId ==> id in s.records)
      && (forall id :: id in s.records && id in s.requests ==>
           id in after.requests && after.requests[id] == s.requests[id])
  {
    hide RequestDigest;
  }

  lemma RunningKeepsOrigins(w: World, tid: nat)
    requires Inv(w) && Decisions(w) && Origins(w) && Enabled(w, Advance(tid)) && w.threads[tid].Running?
    ensures Origins(AdvanceRunning(w, tid))
  {
    hide Execute1, Continues, RequestDigest, Decisions, OneDispatch, Created, ThreadContinues;
    var t := w.threads[tid];
    var v := AdvanceRunning(w, tid);
    RunningKeepsDecisions(w, tid);
    RunningMovesOneThread(w, tid);
    assert ThreadNamed(w, t) && Bound(w.shared.store, t);
    ExecutionGrows(w.shared, t.r, t.e, ResumedId(t), w.kept, t.pc);
    ExecutionShape(w, tid);
    if v.shared.approvals != w.shared.approvals {
      AskingLeavesStore(w, tid);
      CreationContinues(w.shared.store, w.shared.approvals, t);
    }
    MovedThreadContinues(w, tid);
    OriginsAcross(w, v, tid);
  }

  lemma AskingLeavesStore(w: World, tid: nat)
    requires WellKeyed(w.shared.store) && tid in w.threads && w.threads[tid].Running? && w.threads[tid].pc.Asking?
    ensures AdvanceRunning(w, tid).shared.store == w.shared.store
  {
    hide ApprovalFor;
  }

  lemma MovedThreadContinues(w: World, tid: nat)
    requires WellKeyed(w.shared.store) && tid in w.threads && w.threads[tid].Running?
    ensures var v := AdvanceRunning(w, tid);
      tid in v.threads ==> ThreadContinues(v.shared.approvals, v.threads[tid])
  {
    hide Execute1;
  }

  /** Approval calls never touch the requests; what they act on is a copy of the stored approval. */
  lemma CallCopies(s: Shared, c: ApproveCall, pc: ApprovePc)
    requires pc.Acting? ==>
      c.approvalId in s.approvals.records && SameContinuation(s.approvals.records[c.approvalId], pc.pending)
    ensures var (t, next) := Approve1(s, c, pc);
      && t.approvals.requests == s.approvals.requests
      && (next.Proceed? && next.pc.Acting? ==>
            && c.approvalId in t.approvals.records
            && SameContinuation(t.approvals.records[c.approvalId], next.pc.pending))
  {
    hide Rebuild, Updated, SameDescriptor;
  }

  lemma ResumptionCopies(w: World, tid: nat)
    requires Keyed(w) && Decisions(w) && tid in w.threads && w.threads[tid].Resuming?
    requires ThreadContinues(w.shared.approvals, w.threads[tid])
    ensures var v := AdvanceResuming(w, tid);
      && v.shared.approvals.requests == w.shared.approvals.requests
      && (tid in v.threads ==> ThreadContinues(v.shared.approvals, v.threads[tid]))
  {
    hide Approve1, Keyed, Decisions, SameContinuation, Held;
    CallCopies(w.shared, w.threads[tid].call, w.threads[tid].apc);
  }

  lemma ResumingKeepsOrigins(w: World, tid: nat)
    requires Inv(w) && Decisions(w) && Origins(w) && Enabled(w, Advance(tid)) && w.threads[tid].Resuming?
    ensures Origins(AdvanceResuming(w, tid))
  {
    hide AdvanceResuming, Approve1, Continues, Decisions, OneDispatch, ThreadContinues;
    var t := w.threads[tid];
    var v := AdvanceResuming(w, tid);
    ResumingApprovals(w, tid);
    ResumingMovesOneThread(w, tid);
    ResumptionGrows(w.shared, t.call, t.apc);
    ResumptionCopies(w, tid);
    forall id | id in v.shared.approvals.records ensures id in w.shared.approvals.records {
      assert id in v.shared.approvals.records.Keys;
    }
    OriginsAcross(w, v, tid);
  }

  lemma QuietKeepsOrigins(w: World, tid: nat)
    requires WellKeyed(w.shared.store) && Origins(w) && tid in w.threads && Quiet(w.threads[tid])
    ensures Origins(AdvanceQuietly(w, tid))
  {
    hide AdvanceQuietly, Continues;
    QuietSteps(w, tid);
    SameStoreGrows(w.shared.store);
    OriginsAcross(w, AdvanceQuietly(w, tid), tid);
  }

  lemma ApplyKeepsOrigins(w: World, ev: Event)
    requires Inv(w) && Decisions(w) && Origins(w) && Enabled(w, ev)
    ensures Origins(Apply(w, ev))
  {
    hide AdvanceQuietly, AdvanceRunning, AdvanceResuming, Origins, Decisions, Keyed, OneDispatch;
    KeyedStore(w);
    if !ev.Advance? { OtherEventsKeepOrigins(w, ev); }
    else if Quiet(w.threads[ev.tid]) { QuietKeepsOrigins(w, ev.tid); }
    else if w.threads[ev.tid].Running? { RunningKeepsOrigins(w, ev.tid); }
    else { ResumingKeepsOrigins(w, ev.tid); }
  }

  lemma OtherEventsKeepOrigins(w: World, ev: Event)
    requires WellKeyed(w.shared.store) && Origins(w) && Enabled(w, ev) && !ev.Advance?
    ensures Origins(Apply(w, ev))
  {
    hide Continues, WellKeyed, Grows, AdvanceRunning, AdvanceResuming, AdvanceQuietly, Held;
    SameStoreGrows(w.shared.store);
    match ev
    case StartExecute(tid, _, _) => OriginsAcross(w, Apply(w, ev), tid);
    case StartApprove(tid, _, _) => OriginsAcross(w, Apply(w, ev), tid);
    case Abandon(tid) => OriginsAcross(w, Apply(w, ev), tid);
    case Elsewhere(_) =>
    case Recover =>
      RecoveryGrows(w.shared.store);
      forall id | id in w.shared.approvals.records
        ensures Continues(Recovered(w.shared.store), w.shared.approvals, id) {
        RequestIsKept(w.shared.store, w.shared.approvals, id);
        ContinuesAcross(w.shared.store, w.shared.approvals, Recovered(w.shared.store), w.shared.approvals, id);
      }
  }

  lemma {:induction false} AlwaysOrigins(kept: bool, events: seq<Event>)
    ensures Origins(Run(kept, events))
  {
    if events != [] {
      var n := |events| - 1;
      AlwaysOrigins(kept, events[..n]);
      AlwaysDecisions(kept, events[..n]);
      if Enabled(Run(kept, events[..n]), events[n]) { ApplyKeepsOrigins(Run(kept, events[..n]), events[n]); }
    }
  }

  /**
   Whatever happened since an approval was created, resuming it with the tool it was asked for
   rebuilds a request whose claim is a duplicate of the same record, never a conflict.
   */
  lemma ResumedClaimIsDuplicate(kept: bool, events: seq<Event>, tid: nat, args: Arguments, g: Given)
    requires var w := Run(kept, events);
      && tid in w.threads && w.threads[tid].Resuming? && w.threads[tid].apc.Acting?
      && var (c, a) := (w.threads[tid].call, w.threads[tid].apc.pending);
      && c.tool.Some? && c.identityHousehold == a.household
      && c.approvalId in w.shared.approvals.requests
      && CreateRequest(c.tool.value, args, g) == Some(w.shared.approvals.requests[c.approvalId])
    ensures var w := Run(kept, events);
      var (c, a) := (w.threads[tid].call, w.threads[tid].apc.pending);
      var again := Rebuild(a, c.tool.value, c.identityHousehold, c.identity, c.hasRefresher, c.hasVerifier);
      && again.Some?
      && var claim := Claimed(w.shared.store, again.value).1;
      && claim.duplicate && !claim.conflict
      && claim.record.key == a.key
      && again.value.actionId == a.actionId && again.value.lockScopes == a.lockScopes
  {
    hide Run, RequestDigest, Rebuild;
    AlwaysOrigins(kept, events);
    var w := Run(kept, events);
    var (c, a) := (w.threads[tid].call, w.threads[tid].apc.pending);
    var r := w.shared.approvals.requests[c.approvalId];
    assert ThreadContinues(w.shared.approvals, w.threads[tid]);
    var stored := w.shared.approvals.records[c.approvalId];
    assert Continues(w.shared.store, w.shared.approvals, c.approvalId);
    var original := ApprovalFor(r, stored.approvalId, stored.challengeId, stored.issuedAt, stored.expiresAt);
    ApprovalKeepsIdentity(c.tool.value, args, g, stored.approvalId, stored.challengeId, stored.issuedAt,
                          stored.expiresAt, c.identity, c.hasRefresher, c.hasVerifier);
    RebuildIgnoresDecision(original, a, c);
  }

  /** Only the continuation, not the decision on it, is rebuilt. */
  lemma RebuildIgnoresDecision(a: Approval, b: Approval, c: ApproveCall)
    requires SameContinuation(a, b) && c.tool.Some?
    ensures Rebuild(b, c.tool.value, c.identityHousehold, c.identity, c.hasRefresher, c.hasVerifier)
         == Rebuild(a, c.tool.value, c.identityHousehold, c.identity, c.hasRefresher, c.hasVerifier)
  {
  }

  // ----- what is sent -----

  /** The record of its key was claimed for the tool and the arguments of the dispatch. */
  ghost predicate SentAsClaimed(s: Store, d: Dispatch) {
    && d.key in s.byKey && s.byKey[d.key] in s.records
    && s.records[s.byKey[d.key]].digest.toolId == d.toolId
    && s.records[s.byKey[d.key]].digest.arguments == JsonArguments(d.arguments)
  }

  ghost predicate AllSentAsClaimed(s: Shared) {
    forall i :: 0 <= i < |s.trace| ==> SentAsClaimed(s.store, s.trace[i])
  }

  lemma GrowthKeepsSent(s: Shared, t: Shared)
    requires AllSentAsClaimed(s) && WellKeyed(s.store) && Grows(s.store, t.store) && t.trace == s.trace
    ensures AllSentAsClaimed(t)
  {
    hide JsonArguments;
  }

  lemma RunningSendsAsClaimed(w: World, tid: nat)
    requires Keyed(w) && AllSentAsClaimed(w.shared) && Enabled(w, Advance(tid)) && w.threads[tid].Running?
    ensures AllSentAsClaimed(AdvanceRunning(w, tid).shared)
  {
    hide Execute1, RequestDigest, SentAsClaimed, Held, Grows;
    var t, v := w.threads[tid], AdvanceRunning(w, tid).shared;
    assert ThreadNamed(w, t) && Bound(w.shared.store, t);
    ExecutionGrows(w.shared, t.r, t.e, ResumedId(t), w.kept, t.pc);
    StepTracesLocally(w.shared, t.r, t.e, ResumedId(t), w.kept, t.pc);
    GrowthKeepsSent(w.shared, v.(trace := w.shared.trace));
    if v.trace != w.shared.trace { OnlyDispatchingSends(w.shared, t, w.kept); }
  }

  lemma OnlyDispatchingSends(s: Shared, t: Thread, kept: bool)
    requires WellKeyed(s.store) && t.Running? && Bound(s.store, t)
    requires Execute1(s, t.r, t.e, ResumedId(t), kept, t.pc).0.trace != s.trace
    ensures var u := Execute1(s, t.r, t.e, ResumedId(t), kept, t.pc).0;
      SentAsClaimed(u.store, u.trace[|u.trace| - 1])
  {
    hide PlanFor, Conclude, ApprovalFor, Claimed, Updated;
  }

  lemma ApplySendsAsClaimed(w: World, ev: Event)
    requires Inv(w) && AllSentAsClaimed(w.shared) && Enabled(w, ev)
    ensures AllSentAsClaimed(Apply(w, ev).shared)
  {
    hide AdvanceRunning, AdvanceResuming, AdvanceQuietly, OneDispatch, SentAsClaimed, Held;
    match ev
    case Advance(tid) =>
      if Quiet(w.threads[tid]) { QuietSteps(w, tid); }
      else if w.threads[tid].Running? { RunningSendsAsClaimed(w, tid); }
      else { ResumingSendsNothing(w, tid); }
    case Recover =>
      RecoveryGrows(w.shared.store);
      GrowthKeepsSent(w.shared, Apply(w, ev).shared);
    case _ =>
  }

  lemma ResumingSendsNothing(w: World, tid: nat)
    requires Keyed(w) && AllSentAsClaimed(w.shared) && tid in w.threads && w.threads[tid].Resuming?
    ensures AllSentAsClaimed(AdvanceResuming(w, tid).shared)
  {
    hide Approve1, SentAsClaimed, Grows;
    ResumptionGrows(w.shared, w.threads[tid].call, w.threads[tid].apc);
    GrowthKeepsSent(w.shared, AdvanceResuming(w, tid).shared);
  }

  lemma {:induction false} AlwaysSentAsClaimed(kept: bool, events: seq<Event>)
    ensures AllSentAsClaimed(Run(kept, events).shared)
  {
    hide Apply, SentAsClaimed, Enabled;
    if events != [] {
      var n := |events| - 1;
      AlwaysSentAsClaimed(kept, events[..n]);
      if Enabled(Run(kept, events[..n]), events[n]) { ApplySendsAsClaimed(Run(kept, events[..n]), events[n]); }
    }
  }

  /** Over every run, whatever is sent to a connector is the tool and the arguments its key was claimed for. */
  lemma DispatchedAsClaimed(kept: bool, events: seq<Event>, i: nat)
    requires i < |Run(kept, events).shared.trace|
    ensures var (s, d) := (Run(kept, events).shared.store, Run(kept, events).shared.trace[i]);
      && d.key in s.byKey && s.byKey[d.key] in s.records
      && s.records[s.byKey[d.key]].digest.toolId == d.toolId
      && s.records[s.byKey[d.key]].digest.arguments == JsonArguments(d.arguments)
  {
    AlwaysSentAsClaimed(kept, events);
    assert SentAsClaimed(Run(kept, events).shared.store, Run(kept, events).shared.trace[i]);
  }

  // ----- what a resumed action asks for -----

  /**
   A resumed power action has the identity of the original one; it asks for the same power state
   if and only if the stored value has the truth of its text.
   */
  lemma ResumedAsksTheSameExactly(
    tool: Tool, args: Arguments, g: Given, id: nat, challengeId: nat, issuedAt: int, expiresAt: int,
    identity: Option<string>, hasRefresher: bool, hasVerifier: bool
  )
    requires CreateRequest(tool, args, g).Some? && CreateRequest(tool, args, g).value.principal.Some?
    ensures var r := CreateRequest(tool, args, g).value;
      var a := ApprovalFor(r, id, challengeId, issuedAt, expiresAt);
      var again := Rebuild(a, tool, a.household, identity, hasRefresher, hasVerifier);
      && again.Some? && RequestDigest(again.value) == RequestDigest(r)
      && (Desired(again.value.arguments) == Desired(r.arguments) <==> DesireHolds(args))
  {
    hide RequestDigest, Desired, DesireHolds, ResourceValues, ResolveSafetySpec;
    ApprovalKeepsIdentity(tool, args, g, id, challengeId, issuedAt, expiresAt, identity, hasRefresher, hasVerifier);
    StoredArgumentsAskTheSameExactly(args);
  }

  const POWER := Tool("power", "1", false, "set_power", true, false)

  /** `Decimal("0")` as the state to set. */
  function Zero(): Arguments {
    map["desired_on" := PyOther("0", false)]
  }

  function Switch(): Given {
    Given(7, "k", "h", "h", Some("p"), [], [], true, false, None, [])
  }

  /** The principal is asked to approve switching off; the resumed action, under the same digest, switches on. */
  lemma ResumedDecimalAsksTheOpposite(challengeId: nat, issuedAt: int, expiresAt: int)
    ensures var r := CreateRequest(POWER, Zero(), Switch());
      && r.Some?
      && var again :=
           Rebuild(ApprovalFor(r.value, 1, challengeId, issuedAt, expiresAt), POWER, "h", Some("p"), true, false);
      && again.Some? && RequestDigest(again.value) == RequestDigest(r.value)
      && Desired(r.value.arguments) == Some(PyStr("off"))
      && Desired(again.value.arguments) == Some(PyStr("on"))
  {
    hide RequestDigest, CreateRequest, Rebuild;
    ZeroIsBuilt();
    ApprovalKeepsIdentity(POWER, Zero(), Switch(), 1, challengeId, issuedAt, expiresAt, Some("p"), true, false);
    var a := ApprovalFor(CreateRequest(POWER, Zero(), Switch()).value, 1, challengeId, issuedAt, expiresAt);
    RebuiltArguments(a, POWER, "h", Some("p"), true, false);
    assert JsonArguments(Zero()) == map["desired_on" := PyStr("0")];
  }

  lemma ZeroIsBuilt()
    ensures var r := CreateRequest(POWER, Zero(), Switch());
      r.Some? && r.value.arguments == Zero() && r.value.principal == Some("p") && r.value.household == "h"
  {
    CollapseKeepsSpaceless("k");
    assert Argument(Zero(), "resource_id") == PyNone && Argument(Zero(), "resource_ids") == PyNone;
    assert ResourceValues(Zero()) == Some([]);
  }

  lemma RebuiltArguments(
    a: Approval, tool: Tool, household: string, identity: Option<string>, hasRefresher: bool, hasVerifier: bool
  )
    ensures var r := Rebuild(a, tool, household, identity, hasRefresher, hasVerifier); r.Some? ==>
      r.value.arguments == a.arguments
  {
    hide ResourceValues, ResolveSafetySpec, Scopes;
  }
}
