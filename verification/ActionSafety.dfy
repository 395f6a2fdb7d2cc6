/** What every run of executions, approvals, recoveries and crashes keeps. */
module ActionSafety {
  import opened Options
  import opened Statuses
  import opened ActionRequests
  import opened ActionStores
  import opened ApprovalStores
  import opened Coordination
  import opened ActionRuns

  /**
   What can happen in a run, and when: anything, but for fresh numbers, one key per action id, locks held
   once, and executions of one key that do not overlap.
   */
  lemma HappensExactly(w: World, ev: Event)
    ensures Enabled(w, ev) <==>
      match ev
      case StartExecute(tid, r, _) =>
        tid !in w.threads && (r.actionId !in w.ids || w.ids[r.actionId] == r.key)
      case StartApprove(tid, _, _) => tid !in w.threads && w.kept
      case Advance(tid) =>
        tid in w.threads &&
        (match w.threads[tid]
         case Running(r, _, Claiming, _, _) =>
           forall u :: u in w.threads && u != tid && w.threads[u].Running? && !w.threads[u].pc.Claiming? ==>
             w.threads[u].r.key != r.key
         case Running(_, e, Asking(_), _, _) => e.approvalId !in w.shared.approvals.records
         case _ => true)
      case Abandon(tid) => tid in w.threads
      case Recover => true
      case Elsewhere(keys) => forall u, key :: u in w.threads && key in Held(w.threads[u]) ==> key !in keys
  {
    hide Held;
  }

  lemma RunExtends(kept: bool, events: seq<Event>, ev: Event)
    ensures Run(kept, events + [ev]) ==
      if Enabled(Run(kept, events), ev) then Apply(Run(kept, events), ev) else Run(kept, events)
  {
  }

  /**
   At most one accepted dispatch per idempotency key, whatever crashes, recoveries and approvals
   happen; and once there is one, the record of the key can never be taken up again.
   */
  lemma AtMostOneAcceptedDispatch(kept: bool, events: seq<Event>, key: string)
    ensures var s := Run(kept, events).shared;
      && Accepted(s.trace, key) <= 1
      && (Accepted(s.trace, key) == 1 ==> Settled(s.store, key))
  {
    assert KeyOnce(Run(kept, events).shared, key);
  }

  /** A recovery leaves nothing planned or executing behind. */
  lemma NothingInFlightAfterRecovery(kept: bool, events: seq<Event>, id: nat)
    requires id in Run(kept, events).shared.store.records
    ensures var r := Run(kept, events + [Recover]).shared.store.records;
      id in r && !r[id].status.Planned? && !r[id].status.Executing?
  {
    hide Run, AdvanceRunning, AdvanceResuming, AdvanceQuietly;
    RunExtends(kept, events, Recover);
    RecoveryLeavesNothingInFlight(Run(kept, events).shared.store, id);
  }

  // ----- approvals -----

  ghost predicate DecisionFits(a: Approval) {
    match a.status
    case Pending => a.decision.None?
    case Expired => a.decision.None?
    case Approved => a.decision == Some(Approve)
    case Failed => a.decision == Some(Approve)
    case Rejected => a.decision == Some(Reject)
  }

  ghost predicate Decided(s: Approvals, id: nat, choice: Choice) {
    id in s.records && s.records[id].decision == Some(choice)
  }

  /** What a running approval call already knows about the decision. */
  ghost predicate ThreadDecided(s: Approvals, t: Thread) {
    match t
    case Running(_, _, _, resumed, _) => resumed.Some? ==> Decided(s, resumed.value.approvalId, Approve)
    case Leaving(_, _, resumed, _, _) => resumed.Some? ==> Decided(s, resumed.value.approvalId, Approve)
    case Resuming(c, _, Acting(a)) => Decided(s, c.approvalId, c.choice) && a.status == DecidedStatus(c.choice)
    case Resuming(c, _, Closing(status, _)) =>
      && !status.Pending? && !status.Expired?
      && Decided(s, c.approvalId, if status.Rejected? then Reject else Approve)
    case _ => true
  }

  /** A note is true of its approval: named principal and household, in time, as decided. */
  ghost predicate NoteTrue(s: Approvals, n: DecisionNote) {
    && Decided(s, n.approvalId, n.choice)
    && s.records[n.approvalId].household == n.household
    && s.records[n.approvalId].principal == n.principal
    && n.at < s.records[n.approvalId].expiresAt
  }

  ghost predicate Noted(notes: seq<DecisionNote>, id: nat) {
    exists i :: 0 <= i < |notes| && notes[i].approvalId == id
  }

  ghost predicate Decisions(w: World) {
    && (forall id :: id in w.shared.approvals.records ==> DecisionFits(w.shared.approvals.records[id]))
    && (forall id :: id in w.shared.approvals.records && w.shared.approvals.records[id].decision.Some? ==>
         Noted(w.notes, id))
    && (forall t :: t in w.threads ==> ThreadDecided(w.shared.approvals, w.threads[t]))
    && (forall i :: 0 <= i < |w.notes| ==> NoteTrue(w.shared.approvals, w.notes[i]))
    && (forall i, j :: 0 <= i < j < |w.notes| ==> w.notes[i].approvalId != w.notes[j].approvalId)
    && (forall i :: 0 <= i < |w.shared.trace| && w.shared.trace[i].approval.Some? ==>
          Decided(w.shared.approvals, w.shared.trace[i].approval.value, Approve))
  }

  /** What may happen to one approval in one step. */
  ghost predicate Later(a: Approval, b: Approval) {
    && b == a.(status := b.status, decision := b.decision, outcome := b.outcome)
    && (a.decision.Some? ==> b.decision == a.decision)
    && (b.status.Pending? ==> a.status.Pending?)
    && (b.status.Failed? && !a.status.Failed? ==> a.status.Approved?)
    && (a.status.Rejected? ==> b.status.Rejected?)
    && (a.status.Expired? ==> b.status.Expired?)
  }

  ghost predicate AllLater(s: Approvals, t: Approvals) {
    forall id :: id in s.records ==> id in t.records && Later(s.records[id], t.records[id])
  }

  lemma LaterKeepsThread(s: Approvals, t: Approvals, th: Thread)
    requires AllLater(s, t) && ThreadDecided(s, th)
    ensures ThreadDecided(t, th)
  {
  }

  lemma NotesStayTrue(w: World, v: World)
    requires AllLater(w.shared.approvals, v.shared.approvals)
    requires forall i :: 0 <= i < |w.notes| ==> NoteTrue(w.shared.approvals, w.notes[i])
    ensures forall i :: 0 <= i < |w.notes| ==> NoteTrue(v.shared.approvals, w.notes[i])
  {
    forall i | 0 <= i < |w.notes| ensures NoteTrue(v.shared.approvals, w.notes[i]) {
      assert NoteTrue(w.shared.approvals, w.notes[i]);
    }
  }

  lemma TraceStaysDecided(w: World, v: World)
    requires AllLater(w.shared.approvals, v.shared.approvals)
    requires forall i :: 0 <= i < |w.shared.trace| && w.shared.trace[i].approval.Some? ==>
      Decided(w.shared.approvals, w.shared.trace[i].approval.value, Approve)
    requires v.shared.trace == w.shared.trace ||
      (|v.shared.trace| == |w.shared.trace| + 1 && v.shared.trace[..|w.shared.trace|] == w.shared.trace
       && (v.shared.trace[|w.shared.trace|].approval.Some? ==>
             Decided(v.shared.approvals, v.shared.trace[|w.shared.trace|].approval.value, Approve)))
    ensures forall i :: 0 <= i < |v.shared.trace| && v.shared.trace[i].approval.Some? ==>
      Decided(v.shared.approvals, v.shared.trace[i].approval.value, Approve)
  {
    forall i | 0 <= i < |v.shared.trace| && v.shared.trace[i].approval.Some?
      ensures Decided(v.shared.approvals, v.shared.trace[i].approval.value, Approve)
    {
      if i < |w.shared.trace| { assert v.shared.trace[i] == w.shared.trace[i]; }
    }
  }

  /** Enough for a step to keep the decisions. */
  lemma DecisionsAcross(w: World, v: World, moved: nat)
    requires Decisions(w) && AllLater(w.shared.approvals, v.shared.approvals)
    requires forall id :: id in v.shared.approvals.records ==> DecisionFits(v.shared.approvals.records[id])
    requires forall id :: id in v.shared.approvals.records && v.shared.approvals.records[id].decision.Some? ==>
      Noted(v.notes, id)
    requires forall u :: u in v.threads && u != moved ==> u in w.threads && v.threads[u] == w.threads[u]
    requires moved in v.threads ==> ThreadDecided(v.shared.approvals, v.threads[moved])
    requires v.notes == w.notes ||
      (|v.notes| == |w.notes| + 1 && v.notes[..|w.notes|] == w.notes
       && NoteTrue(v.shared.approvals, v.notes[|w.notes|]) && !Noted(w.notes, v.notes[|w.notes|].approvalId))
    requires v.shared.trace == w.shared.trace ||
      (|v.shared.trace| == |w.shared.trace| + 1 && v.shared.trace[..|w.shared.trace|] == w.shared.trace
       && (v.shared.trace[|w.shared.trace|].approval.Some? ==>
             Decided(v.shared.approvals, v.shared.trace[|w.shared.trace|].approval.value, Approve)))
    ensures Decisions(v)
  {
    hide DecisionFits, Later, Decided;
    forall u | u in v.threads ensures ThreadDecided(v.shared.approvals, v.threads[u]) {
      if u != moved { LaterKeepsThread(w.shared.approvals, v.shared.approvals, w.threads[u]); }
    }
    NotesStayTrue(w, v);
    forall i | 0 <= i < |v.notes| ensures NoteTrue(v.shared.approvals, v.notes[i]) {
      if i < |w.notes| { assert v.notes[i] == w.notes[i]; }
    }
    forall i, j | 0 <= i < j < |v.notes| ensures v.notes[i].approvalId != v.notes[j].approvalId {
      assert v.notes[i] == w.notes[i];
      if j < |w.notes| { assert v.notes[j] == w.notes[j]; }
    }
    TraceStaysDecided(w, v);
  }

  /** What a step of an execution does outside the action store. */
  lemma ExecutionShape(w: World, tid: nat)
    requires WellKeyed(w.shared.store) && tid in w.threads && w.threads[tid].Running?
    ensures var t := w.threads[tid];
      var v := AdvanceRunning(w, tid);
      && v.notes == w.notes && v.ids == w.ids && v.kept == w.kept && v.mixed == w.mixed
      && (v.shared.approvals == w.shared.approvals
          || (t.pc.Asking? && t.r.principal.Some?
              && v.shared.approvals ==
                   Created(w.shared.approvals, t.r, t.e.approvalId, t.e.challengeId, t.e.issuedAt, t.e.expiresAt)))
      && (v.shared.trace == w.shared.trace
          || v.shared.trace ==
               w.shared.trace + [DispatchOf(t.r, t.e, ResumedId(t))])
      && (forall u :: u in v.threads && u != tid ==> u in w.threads && v.threads[u] == w.threads[u])
      && tid in v.threads
      && (v.threads[tid] == t.(pc := if v.threads[tid].Running? then v.threads[tid].pc else t.pc)
          || (v.threads[tid].Leaving? && v.threads[tid].resumed == t.resumed))
  {
    hide PlanFor, Conclude, RequestDigest, Claimed, Updated, ApprovalFor;
  }

  /** Creating an approval under a fresh id disturbs no other. */
  lemma CreationIsLater(s: Approvals, r: Request, id: nat, challengeId: nat, issuedAt: int, expiresAt: int)
    requires r.principal.Some? && id !in s.records
    ensures var t := Created(s, r, id, challengeId, issuedAt, expiresAt);
      && AllLater(s, t)
      && DecisionFits(t.records[id]) && t.records[id].decision.None?
  {
    hide RequestDigest;
  }

  lemma RunningKeepsDecisions(w: World, tid: nat)
    requires Inv(w) && Decisions(w) && Enabled(w, Advance(tid)) && w.threads[tid].Running?
    ensures Decisions(AdvanceRunning(w, tid))
    ensures AllLater(w.shared.approvals, AdvanceRunning(w, tid).shared.approvals)
  {
    hide Execute1, ApprovalFor, Keyed, OneDispatch, AdvanceRunning;
    KeyedStore(w);
    var t := w.threads[tid];
    var v := AdvanceRunning(w, tid);
    assert ThreadDecided(w.shared.approvals, t);
    ExecutionShape(w, tid);
    if v.shared.approvals != w.shared.approvals {
      CreationIsLater(w.shared.approvals, t.r, t.e.approvalId, t.e.challengeId, t.e.issuedAt, t.e.expiresAt);
    }
    LaterKeepsThread(w.shared.approvals, v.shared.approvals, t);
    DecisionsAcross(w, v, tid);
  }

  lemma ResumingKeepsDecisions(w: World, tid: nat)
    requires Inv(w) && Decisions(w) && Enabled(w, Advance(tid)) && w.threads[tid].Resuming?
    ensures Decisions(AdvanceResuming(w, tid))
    ensures AllLater(w.shared.approvals, AdvanceResuming(w, tid).shared.approvals)
  {
    hide Rebuild, Updated;
    var t := w.threads[tid];
    var v := AdvanceResuming(w, tid);
    ResumingApprovals(w, tid);
    ResumingMovesOneThread(w, tid);
    ResumptionGrows(w.shared, t.call, t.apc);
    if v.notes != w.notes {
      assert v.notes[..|w.notes|] == w.notes;
      forall i | 0 <= i < |w.notes| ensures w.notes[i].approvalId != t.call.approvalId {
        assert NoteTrue(w.shared.approvals, w.notes[i]);
      }
    }
    NotesStay(w, v);
    DecisionsAcross(w, v, tid);
  }

  /** Whoever is decided after the step was noted before it, or by it. */
  lemma NotesStay(w: World, v: World)
    requires Decisions(w) && |v.notes| >= |w.notes| && v.notes[..|w.notes|] == w.notes
    requires forall id :: id in v.shared.approvals.records && v.shared.approvals.records[id].decision.Some? ==>
      (id in w.shared.approvals.records && w.shared.approvals.records[id].decision.Some?)
      || (|v.notes| > |w.notes| && v.notes[|w.notes|].approvalId == id)
    ensures forall id :: id in v.shared.approvals.records && v.shared.approvals.records[id].decision.Some? ==>
      Noted(v.notes, id)
  {
  }

  /** One approval record changed by a claim or a completion. */
  lemma ClaimIsLater(s: Approvals, id: nat, household: string, principal: string, choice: Choice, at: int)
    requires forall i :: i in s.records ==> DecisionFits(s.records[i])
    ensures var (t, a) := ClaimedApproval(s, id, household, principal, choice, at);
      && AllLater(s, t) && t.records.Keys == s.records.Keys
      && (forall i :: i in t.records ==> DecisionFits(t.records[i]))
      && (a.Some? ==>
            && NoteTrue(t, DecisionNote(id, household, principal, choice, at))
            && Decided(t, id, choice)
            && s.records[id].decision.None?
            && a.value.status == DecidedStatus(choice))
      && (forall i :: i in t.records && t.records[i].decision.Some? ==>
           s.records[i].decision.Some? || (a.Some? && i == id))
  {
    hide DecisionFits;
    if id in s.records {
      assert DecisionFits(s.records[id]);
      DecidedFits(s.records[id], household, principal, choice, at);
    }
  }

  lemma DecidedFits(a: Approval, household: string, principal: string, choice: Choice, at: int)
    requires DecisionFits(a)
    ensures a.status.Pending? ==>
      a.decision.None? && DecisionFits(Decide(a, choice)) && DecisionFits(a.(status := Expired))
  {
  }

  lemma CompletionIsLater(s: Approvals, id: nat, status: ApprovalStatus, outcome: ActionStatus)
    requires forall i :: i in s.records ==> DecisionFits(s.records[i])
    requires !status.Pending? && !status.Expired? && Decided(s, id, if status.Rejected? then Reject else Approve)
    ensures var t := Completed(s, id, status, outcome);
      && AllLater(s, t) && t.records.Keys == s.records.Keys
      && (forall i :: i in t.records ==> DecisionFits(t.records[i]))
      && (forall i :: i in t.records && t.records[i].decision.Some? ==> s.records[i].decision.Some?)
  {
  }

  /** What a step of an approval call does to approvals and notes. */
  ghost predicate ApprovalsAdvance(
    s: Approvals, t: Approvals, c: ApproveCall, before: seq<DecisionNote>, after: seq<DecisionNote>
  ) {
    && AllLater(s, t)
    && t.records.Keys == s.records.Keys
    && (forall id :: id in t.records ==> DecisionFits(t.records[id]))
    && (after == before || (after == before + [DecisionNote(c.approvalId, c.household, c.principal, c.choice, c.at)]
                            && NoteTrue(t, after[|before|])
                            && s.records[c.approvalId].decision.None?))
    && (forall id :: id in t.records && t.records[id].decision.Some? ==>
          s.records[id].decision.Some? || (after != before && id == c.approvalId))
  }

  lemma SettlingApprovals(w: World, tid: nat)
    requires forall id :: id in w.shared.approvals.records ==> DecisionFits(w.shared.approvals.records[id])
    requires tid in w.threads && w.threads[tid].Resuming? && w.threads[tid].apc.Settling?
    ensures var v := AdvanceResuming(w, tid);
      && ApprovalsAdvance(w.shared.approvals, v.shared.approvals, w.threads[tid].call, w.notes, v.notes)
      && (tid in v.threads ==> ThreadDecided(v.shared.approvals, v.threads[tid]))
  {
    hide ClaimedApproval, Completed, Rebuild, Updated, SameDescriptor, DecisionFits, Later, DenyRecord;
    var t := w.threads[tid];
    var c, s := t.call, w.shared.approvals;
    var (claimed, a) := ClaimedApproval(s, c.approvalId, c.household, c.principal, c.choice, c.at);
    ClaimIsLater(s, c.approvalId, c.household, c.principal, c.choice, c.at);
    var v := AdvanceResuming(w, tid);
    assert claimed == v.shared.approvals;
    if a.Some? {
      assert v.threads[tid] == t.(apc := Acting(a.value));
      assert v.notes == w.notes + [DecisionNote(c.approvalId, c.household, c.principal, c.choice, c.at)];
    } else {
      assert v.notes == w.notes;
    }
  }

  /** A call that only looks finds a decided approval or goes on to decide one. */
  lemma LookingLeavesApprovals(s: Shared, c: ApproveCall)
    ensures var (t, next) := Approve1(s, c, Looking);
      && t == s && !next.HandOver?
      && (next.Proceed? ==>
            || next.pc.Settling?
            || (&& next.pc.Acting? && c.approvalId in s.approvals.records
                && next.pc.pending == s.approvals.records[c.approvalId]
                && next.pc.pending.status == DecidedStatus(c.choice)))
  {
  }

  lemma LookingApprovals(w: World, tid: nat)
    requires Decisions(w) && tid in w.threads && w.threads[tid].Resuming? && w.threads[tid].apc.Looking?
    ensures var v := AdvanceResuming(w, tid);
      && v.shared.approvals == w.shared.approvals && v.notes == w.notes
      && (tid in v.threads ==> ThreadDecided(v.shared.approvals, v.threads[tid]))
  {
    hide Approve1, Held;
    LookingLeavesApprovals(w.shared, w.threads[tid].call);
  }

  lemma ActingApprovals(w: World, tid: nat)
    requires tid in w.threads && w.threads[tid].Resuming? && w.threads[tid].apc.Acting?
    requires ThreadDecided(w.shared.approvals, w.threads[tid])
    ensures var v := AdvanceResuming(w, tid);
      && v.shared.approvals == w.shared.approvals && v.notes == w.notes
      && (tid in v.threads ==> ThreadDecided(v.shared.approvals, v.threads[tid]))
  {
    hide Rebuild, Updated;
  }

  lemma ClosingApprovals(w: World, tid: nat)
    requires Decisions(w) && tid in w.threads && w.threads[tid].Resuming? && w.threads[tid].apc.Closing?
    ensures var v := AdvanceResuming(w, tid);
      && ApprovalsAdvance(w.shared.approvals, v.shared.approvals, w.threads[tid].call, w.notes, v.notes)
      && tid !in v.threads
  {
    hide Completed;
    var t := w.threads[tid];
    assert ThreadDecided(w.shared.approvals, t);
    CompletionIsLater(w.shared.approvals, t.call.approvalId, t.apc.status, t.apc.outcome);
  }

  lemma ResumingApprovals(w: World, tid: nat)
    requires Decisions(w) && tid in w.threads && w.threads[tid].Resuming?
    ensures var v := AdvanceResuming(w, tid);
      && ApprovalsAdvance(w.shared.approvals, v.shared.approvals, w.threads[tid].call, w.notes, v.notes)
      && (tid in v.threads ==> ThreadDecided(v.shared.approvals, v.threads[tid]))
  {
    hide AdvanceResuming;
    match w.threads[tid].apc
    case Looking => LookingApprovals(w, tid);
    case Settling => SettlingApprovals(w, tid);
    case Acting(_) => assert ThreadDecided(w.shared.approvals, w.threads[tid]); ActingApprovals(w, tid);
    case Closing(_, _) => ClosingApprovals(w, tid);
  }

  lemma QuietKeepsDecisions(w: World, tid: nat)
    requires Decisions(w) && tid in w.threads && Quiet(w.threads[tid])
    ensures Decisions(AdvanceQuietly(w, tid)) && AdvanceQuietly(w, tid).shared == w.shared
  {
    hide AdvanceQuietly;
    QuietSteps(w, tid);
    assert ThreadDecided(w.shared.approvals, w.threads[tid]);
    DecisionsAcross(w, AdvanceQuietly(w, tid), tid);
  }

  lemma ApplyKeepsDecisions(w: World, ev: Event)
    requires Inv(w) && Decisions(w) && Enabled(w, ev)
    ensures Decisions(Apply(w, ev))
    ensures AllLater(w.shared.approvals, Apply(w, ev).shared.approvals)
  {
    hide AdvanceRunning, AdvanceResuming, AdvanceQuietly, Keyed, OneDispatch, Decisions;
    KeyedStore(w);
    if !ev.Advance? { OtherEventsKeepDecisions(w, ev); }
    else if Quiet(w.threads[ev.tid]) { QuietKeepsDecisions(w, ev.tid); }
    else if w.threads[ev.tid].Running? { RunningKeepsDecisions(w, ev.tid); }
    else { ResumingKeepsDecisions(w, ev.tid); }
  }

  lemma OtherEventsKeepDecisions(w: World, ev: Event)
    requires WellKeyed(w.shared.store) && Decisions(w) && Enabled(w, ev) && !ev.Advance?
    ensures Decisions(Apply(w, ev))
    ensures Apply(w, ev).shared.approvals == w.shared.approvals
  {
    hide AdvanceRunning, AdvanceResuming, AdvanceQuietly, WellKeyed, Held, Recovered, Mixed;
    match ev
    case StartExecute(tid, _, _) => DecisionsAcross(w, Apply(w, ev), tid);
    case StartApprove(tid, _, _) => DecisionsAcross(w, Apply(w, ev), tid);
    case Abandon(tid) => DecisionsAcross(w, Apply(w, ev), tid);
    case _ =>
  }

  lemma {:induction false} AlwaysDecisions(kept: bool, events: seq<Event>)
    ensures Decisions(Run(kept, events))
  {
    if events != [] {
      var n := |events| - 1;
      AlwaysDecisions(kept, events[..n]);
      if Enabled(Run(kept, events[..n]), events[n]) { ApplyKeepsDecisions(Run(kept, events[..n]), events[n]); }
    }
  }

  lemma NextIsLater(kept: bool, events: seq<Event>, id: nat)
    requires events != [] && id in Run(kept, events[..|events| - 1]).shared.approvals.records
    ensures id in Run(kept, events).shared.approvals.records
    ensures Later(Run(kept, events[..|events| - 1]).shared.approvals.records[id],
      Run(kept, events).shared.approvals.records[id])
  {
    hide Apply, Enabled;
    var w := Run(kept, events[..|events| - 1]);
    AlwaysDecisions(kept, events[..|events| - 1]);
    if Enabled(w, events[|events| - 1]) { ApplyKeepsDecisions(w, events[|events| - 1]); }
  }

  /**
   The life of an approval: it stays as created but for its decision; the decision is made once
   and never changes, and the approval is never pending again.
   */
  lemma {:induction false} DecisionIsFinal(kept: bool, events: seq<Event>, n: nat, id: nat)
    requires n <= |events| && id in Run(kept, events[..n]).shared.approvals.records
    ensures id in Run(kept, events).shared.approvals.records
    ensures var a, b := Run(kept, events[..n]).shared.approvals.records[id],
      Run(kept, events).shared.approvals.records[id];
      && b == a.(status := b.status, decision := b.decision, outcome := b.outcome)
      && (a.decision.Some? ==> b.decision == a.decision)
      && (b.status.Pending? ==> a.status.Pending?)
      && (a.status.Rejected? ==> b.status.Rejected?)
      && (a.status.Expired? ==> b.status.Expired?)
    decreases |events|
  {
    hide Run;
    if n < |events| {
      var m := |events| - 1;
      assert events[..m][..n] == events[..n];
      DecisionIsFinal(kept, events[..m], n, id);
      NextIsLater(kept, events, id);
    } else {
      assert events[..n] == events;
    }
  }

  /** An approval is decided once, by its named household and principal, strictly before it expires. */
  lemma DecidedOnceByTheNamedPrincipal(kept: bool, events: seq<Event>, id: nat)
    requires id in Run(kept, events).shared.approvals.records
    requires Run(kept, events).shared.approvals.records[id].decision.Some?
    ensures var w := Run(kept, events);
      exists i :: 0 <= i < |w.notes| && w.notes[i].approvalId == id && NoteTrue(w.shared.approvals, w.notes[i])
        && forall j :: 0 <= j < |w.notes| && w.notes[j].approvalId == id ==> j == i
  {
    AlwaysDecisions(kept, events);
    var w := Run(kept, events);
    var i :| 0 <= i < |w.notes| && w.notes[i].approvalId == id;
    assert NoteTrue(w.shared.approvals, w.notes[i]);
  }

  /** Nothing is ever dispatched for an approval that is pending, rejected or expired. */
  lemma DispatchedOnlyIfApproved(kept: bool, events: seq<Event>, i: nat)
    requires var t := Run(kept, events).shared.trace; i < |t| && t[i].approval.Some?
    ensures var w := Run(kept, events);
      var id := w.shared.trace[i].approval.value;
      && id in w.shared.approvals.records
      && w.shared.approvals.records[id].decision == Some(Approve)
      && (w.shared.approvals.records[id].status.Approved? || w.shared.approvals.records[id].status.Failed?)
  {
    AlwaysDecisions(kept, events);
  }
}
