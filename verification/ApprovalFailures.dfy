/**
 How an approval comes to be `FAILED`: always and only through a call that may not carry it out,
 because it brings another tool or comes unprepared for the child of a scene, even after the
 approved action was dispatched.
 */
module ApprovalFailures {
  import opened Options
  import opened Statuses
  import opened ActionRequests
  import opened ActionStores
  import opened ApprovalStores
  import opened Coordination
  import opened ActionRuns
  import opened ActionSafety

  /** A call for approval `id` that may not carry it out is about to act on it. */
  ghost predicate Mismatching(w: World, ev: Event, id: nat) {
    && ev.Advance? && ev.tid in w.threads && w.threads[ev.tid].Resuming? && w.threads[ev.tid].apc.Acting?
    && w.threads[ev.tid].call.approvalId == id
    && w.threads[ev.tid].apc.pending.status.Approved?
    && !SameDescriptor(w.threads[ev.tid].apc.pending, w.threads[ev.tid].call)
  }

  ghost predicate Mismatch(kept: bool, events: seq<Event>, id: nat, n: nat) {
    n < |events| && Mismatching(Run(kept, events[..n]), events[n], id)
  }

  ghost predicate Mismatched(kept: bool, events: seq<Event>, id: nat) {
    exists n: nat :: Mismatch(kept, events, id, n)
  }

  lemma MismatchedStays(kept: bool, events: seq<Event>, ev: Event, id: nat)
    requires Mismatched(kept, events, id)
    ensures Mismatched(kept, events + [ev], id)
  {
    hide Run, Mismatching;
    var n: nat :| Mismatch(kept, events, id, n);
    assert (events + [ev])[..n] == events[..n];
    assert Mismatch(kept, events + [ev], id, n);
  }

  ghost predicate Failing(t: Thread, id: nat) {
    t.Resuming? && t.apc.Closing? && t.apc.status.Failed? && t.call.approvalId == id
  }

  ghost predicate FailedApproval(s: Approvals, id: nat) {
    id in s.records && s.records[id].status.Failed?
  }

  ghost predicate NoFailure(w: World, id: nat) {
    !FailedApproval(w.shared.approvals, id) && forall t :: t in w.threads ==> !Failing(w.threads[t], id)
  }

  lemma CallFailsNothing(s: Shared, c: ApproveCall, pc: ApprovePc, id: nat)
    requires !FailedApproval(s.approvals, id)
    requires pc.Closing? && pc.status.Failed? ==> c.approvalId != id
    requires pc.Acting? && pc.pending.status.Approved? && c.approvalId == id ==> SameDescriptor(pc.pending, c)
    ensures var (t, next) := Approve1(s, c, pc);
      && !FailedApproval(t.approvals, id)
      && (next.Proceed? && next.pc.Closing? && next.pc.status.Failed? ==> c.approvalId != id)
  {
    hide Rebuild, Updated, SameDescriptor;
  }

  lemma CallFails(w: World, tid: nat, id: nat)
    requires tid in w.threads && w.threads[tid].Resuming? && NoFailure(w, id) && !Mismatching(w, Advance(tid), id)
    ensures var v := AdvanceResuming(w, tid);
      !FailedApproval(v.shared.approvals, id) && (tid in v.threads ==> !Failing(v.threads[tid], id))
  {
    hide Approve1, SameDescriptor, FailedApproval, Held;
    var t := w.threads[tid];
    assert !Failing(t, id);
    CallFailsNothing(w.shared, t.call, t.apc, id);
  }

  lemma ExecutionFailsNoApproval(w: World, tid: nat, id: nat)
    requires WellKeyed(w.shared.store) && NoFailure(w, id) && tid in w.threads && w.threads[tid].Running?
    ensures var v := AdvanceRunning(w, tid);
      !FailedApproval(v.shared.approvals, id) && (tid in v.threads ==> !Failing(v.threads[tid], id))
  {
    hide AdvanceRunning, Created;
    ExecutionShape(w, tid);
    var t := w.threads[tid];
    if t.r.principal.Some? { CreatedIsPending(w.shared.approvals, t, id); }
  }

  lemma CreatedIsPending(s: Approvals, t: Thread, id: nat)
    requires t.Running? && t.r.principal.Some?
    ensures FailedApproval(Created(s, t.r, t.e.approvalId, t.e.challengeId, t.e.issuedAt, t.e.expiresAt), id) ==>
      FailedApproval(s, id)
  {
  }

  /** Only such a call brings the first failure about. */
  lemma StepFails(w: World, ev: Event, id: nat)
    requires Inv(w) && Enabled(w, ev) && NoFailure(w, id) && !Mismatching(w, ev, id)
    ensures NoFailure(Apply(w, ev), id)
  {
    hide AdvanceQuietly, AdvanceRunning, AdvanceResuming, OneDispatch;
    if ev.Advance? {
      if Quiet(w.threads[ev.tid]) {
        QuietSteps(w, ev.tid);
      } else if w.threads[ev.tid].Running? {
        ExecutionFailsNoApproval(w, ev.tid, id);
        RunningMovesOneThread(w, ev.tid);
      } else {
        CallFails(w, ev.tid, id);
        ResumingMovesOneThread(w, ev.tid);
      }
    }
  }

  /** An approval is failed, or about to be, only after such a call. */
  lemma {:induction false} FailedOnlyByMismatch(kept: bool, events: seq<Event>, id: nat)
    ensures NoFailure(Run(kept, events), id) || Mismatched(kept, events, id)
  {
    hide Mismatched, Apply, Inv, Enabled, Mismatching;
    if events != [] {
      var n := |events| - 1;
      var w, ev := Run(kept, events[..n]), events[n];
      FailedOnlyByMismatch(kept, events[..n], id);
      assert events == events[..n] + [ev];
      if Mismatched(kept, events[..n], id) {
        MismatchedStays(kept, events[..n], ev, id);
      } else if Mismatching(w, ev, id) {
        NowMismatched(kept, events, id);
      } else if Enabled(w, ev) {
        StepFails(w, ev, id);
      }
    }
  }

  lemma NowMismatched(kept: bool, events: seq<Event>, id: nat)
    requires events != [] && Mismatching(Run(kept, events[..|events| - 1]), events[|events| - 1], id)
    ensures Mismatched(kept, events, id)
  {
    assert Mismatch(kept, events, id, |events| - 1);
  }

  /**
   An accepted dispatch is attributable to a failed approval only when there was such a call;
   without one, whatever was dispatched is still approved.
   */
  lemma DispatchStaysApproved(kept: bool, events: seq<Event>, i: nat)
    requires var t := Run(kept, events).shared.trace; i < |t| && t[i].approval.Some?
    requires !Mismatched(kept, events, Run(kept, events).shared.trace[i].approval.value)
    ensures var w := Run(kept, events);
      var id := w.shared.trace[i].approval.value;
      id in w.shared.approvals.records && w.shared.approvals.records[id].status.Approved?
  {
    DispatchedOnlyIfApproved(kept, events, i);
    FailedOnlyByMismatch(kept, events, Run(kept, events).shared.trace[i].approval.value);
  }

  /** The events of one recovery call up to the moment it is closed or handed over. */
  function Recovery(tid: nat, c: ApproveCall, e: Answers): seq<Event> {
    [StartApprove(tid, c, e), Advance(tid), Advance(tid), Advance(tid)]
  }

  /** A recovery by the named principal of an approved action whose record exists. */
  ghost predicate Recovers(w: World, tid: nat, c: ApproveCall) {
    && w.kept && tid !in w.threads
    && c.approvalId in w.shared.approvals.records
    && var a := w.shared.approvals.records[c.approvalId];
    && a.status.Approved? && a.household == c.household && a.principal == c.principal
    && c.choice.Approve? && c.allowRecovery
    && a.actionId in w.shared.store.records
  }

  /** The call goes straight to acting on the stored approval. */
  lemma RecoveryActs(kept: bool, events: seq<Event>, tid: nat, c: ApproveCall, e: Answers)
    requires Recovers(Run(kept, events), tid, c)
    ensures var w := Run(kept, events);
      Run(kept, events + [StartApprove(tid, c, e)] + [Advance(tid)])
        == w.(threads := w.threads[tid := Resuming(c, e, Acting(w.shared.approvals.records[c.approvalId]))])
  {
    hide Run, Rebuild, AdvanceRunning, AdvanceQuietly, Inv, SameDescriptor, ClaimedApproval, Completed, Updated, Held;
    var w := Run(kept, events);
    var e1 := events + [StartApprove(tid, c, e)];
    RunExtends(kept, events, StartApprove(tid, c, e));
    var w1 := w.(threads := w.threads[tid := Resuming(c, e, Looking)]);
    assert Run(kept, e1) == w1;
    RunExtends(kept, e1, Advance(tid));
  }

  /** What it does next: the denial, or nothing but handing over. */
  lemma ActingDenies(w: World, tid: nat)
    requires WellKeyed(w.shared.store) && tid in w.threads && w.threads[tid].Resuming? && w.threads[tid].apc.Acting?
    requires var a := w.threads[tid].apc.pending; a.status.Approved? && a.actionId in w.shared.store.records
    ensures var v := Apply(w, Advance(tid));
      var (c, a) := (w.threads[tid].call, w.threads[tid].apc.pending);
      && v.shared.approvals == w.shared.approvals && v.shared.trace == w.shared.trace
      && (SameDescriptor(a, c) ==>
            v.shared == w.shared && (tid in v.threads ==> v.threads[tid].Running? && v.threads[tid].pc.Claiming?))
      && (!SameDescriptor(a, c) ==>
            && v.shared.store == Updated(w.shared.store, a.actionId, PolicyDenied, None, None)
            && tid in v.threads
            && v.threads[tid] == Resuming(c, w.threads[tid].answers, Closing(ApprovalStatus.Failed, PolicyDenied)))
  {
    hide Rebuild, Updated, SameDescriptor, AdvanceRunning, AdvanceQuietly, ClaimedApproval, Completed;
    hide ScopeKeys, WellKeyed;
    hide Held, FirstKeys, Taken, Alone;
  }

  /** The last step: closing the approval, or the claim of the execution it was handed to. */
  lemma LastStep(w: World, tid: nat, id: nat)
    requires WellKeyed(w.shared.store) && Enabled(w, Advance(tid)) && id in w.shared.approvals.records
    requires !w.shared.approvals.records[id].status.Failed?
    requires
      || (w.threads[tid].Running? && w.threads[tid].pc.Claiming?)
      || (w.threads[tid].Resuming? && w.threads[tid].call.approvalId == id
          && w.threads[tid].apc == Closing(ApprovalStatus.Failed, PolicyDenied))
    ensures var v := Apply(w, Advance(tid));
      && id in v.shared.approvals.records && v.shared.trace == w.shared.trace
      && (v.shared.approvals.records[id].status.Failed? <==> w.threads[tid].Resuming?)
      && (w.threads[tid].Resuming? ==> v.shared.store == w.shared.store)
  {
    hide PlanFor, Conclude, RequestDigest, ApprovalFor, Rebuild, Updated, AdvanceQuietly, Held, ClaimedApproval;
  }

  /** The two steps after the recovery has begun to act. */
  lemma RecoveryEnds(w: World, tid: nat, id: nat)
    requires Inv(w) && tid in w.threads && w.threads[tid].Resuming? && w.threads[tid].apc.Acting?
    requires w.threads[tid].call.approvalId == id && id in w.shared.approvals.records
    requires w.threads[tid].apc.pending == w.shared.approvals.records[id]
    requires var a := w.shared.approvals.records[id]; a.status.Approved? && a.actionId in w.shared.store.records
    ensures Inv(Apply(w, Advance(tid)))
    ensures var u := Apply(w, Advance(tid));
      var v := if Enabled(u, Advance(tid)) then Apply(u, Advance(tid)) else u;
      var (a, c) := (w.shared.approvals.records[id], w.threads[tid].call);
      && id in v.shared.approvals.records
      && (v.shared.approvals.records[id].status.Failed? <==> !SameDescriptor(a, c))
      && v.shared.trace == w.shared.trace
      && (!SameDescriptor(a, c) ==> v.shared.store == Updated(w.shared.store, a.actionId, PolicyDenied, None, None))
  {
    hide Apply, Updated, SameDescriptor, Held;
    ApplyKeepsInv(w, Advance(tid));
    ActingDenies(w, tid);
    var u := Apply(w, Advance(tid));
    if Enabled(u, Advance(tid)) { LastStep(u, tid, id); }
  }

  /**
   Recovering an approved action fails the approval if and only if the call may not carry it out.
   It then also overwrites the record of the action, whatever that said, and undoes no dispatch.
   */
  lemma RecoveryFailsExactly(kept: bool, events: seq<Event>, tid: nat, c: ApproveCall, e: Answers)
    requires Recovers(Run(kept, events), tid, c)
    ensures var w := Run(kept, events);
      var v := Run(kept, events + Recovery(tid, c, e));
      var a := w.shared.approvals.records[c.approvalId];
      && c.approvalId in v.shared.approvals.records
      && (v.shared.approvals.records[c.approvalId].status.Failed? <==> !SameDescriptor(a, c))
      && v.shared.trace == w.shared.trace
      && (!SameDescriptor(a, c) ==> v.shared.store == Updated(w.shared.store, a.actionId, PolicyDenied, None, None))
  {
    hide Run, Apply, Updated, SameDescriptor, Inv, Held;
    var step := Advance(tid);
    var e2 := events + [StartApprove(tid, c, e)] + [step];
    assert events + Recovery(tid, c, e) == e2 + [step] + [step];
    RecoveryActs(kept, events, tid, c, e);
    RecoveryEnds(Run(kept, e2), tid, c.approvalId);
    RunExtends(kept, e2, step);
    RunExtends(kept, e2 + [step], step);
  }
}
