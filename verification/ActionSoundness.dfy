/**
 What the recorded outcome of a power action without a custom verifier says about the state
 stored beside it, over every run.
 */
module ActionSoundness {
  import opened Options
  import opened Statuses
  import opened ActionRequests
  import opened Truths
  import opened ActionStores
  import opened ApprovalStores
  import opened Coordination
  import opened Conclusions
  import opened ActionRuns

  /** Every piece of evidence is about the requested power state and judged by this truth. */
  ghost predicate Judged(args: Arguments, truth: Truth, es: seq<Evidence>) {
    && Desired(args).Some?
    && forall i :: 0 <= i < |es| ==>
         && es[i].effect.expectedValue == Desired(args).value
         && (es[i].outcome.Verified? <==> Shows(truth, es[i].effect.truthKey, Desired(args).value))
         && (es[i].outcome.Contradicted? <==>
               && es[i].effect.truthKey in truth && truth[es[i].effect.truthKey].state == "KNOWN"
               && truth[es[i].effect.truthKey].value != Desired(args).value)
  }

  /** What a status promises about the truth and the result recorded with it. */
  ghost predicate Honest(status: ActionStatus, args: Arguments, truth: Option<Truth>, result: Option<ActionResult>) {
    status.Succeeded? || status.Partial? || status.VerificationFailed? ==>
      && truth.Some? && result.Some? && result.value.Outcome?
      && var es := result.value.effects;
      && es != []
      && Judged(args, truth.value, es)
      && (status.Succeeded? ==> AllVerified(es))
      && (status.Partial? ==> AnyOutcome(es, Verified) && !AllVerified(es))
      && (status.VerificationFailed? ==> !AnyOutcome(es, Verified) && AnyOutcome(es, Contradicted))
  }

  /** The value that says on or off has the truth of its text. */
  predicate DesireHolds(args: Arguments) {
    "desired_on" in args ==> StoredTruthHolds(args["desired_on"])
  }

  /** Stored arguments ask for the same power state exactly when that value has the truth of its text. */
  lemma StoredArgumentsAskTheSameExactly(args: Arguments)
    ensures Desired(JsonArguments(args)) == Desired(args) <==> DesireHolds(args)
  {
    if "desired_on" in args { StoringKeepsTruthExactly(args["desired_on"]); }
  }

  lemma ObservedIsJudged(spec: SafetySpec, args: Arguments, before: Truth, after: Truth)
    requires spec.PowerSpec?
    ensures var effects := ExpectedEffects(spec, args, before);
      effects != [] ==> Judged(args, after, Observed(after, effects).effects)
  {
  }

  /** A plan that stops as a success found every effect there already; no other stop claims an outcome. */
  lemma PlanShape(r: Request, e: Answers, kept: bool)
    requires Plain(r)
    ensures var plan := PlanFor(r, e, kept);
      && (plan.Stop? ==> !plan.ending.status.Partial? && !plan.ending.status.VerificationFailed?)
      && (plan.Stop? && plan.ending.status.Succeeded? ==>
            && plan.ending.truth.Some?
            && var truth := plan.ending.truth.value;
            && var effects := ExpectedEffects(r.spec.value, r.arguments, truth);
            && effects != [] && Observed(truth, effects).outcome.Verified?
            && plan.ending.result == Some(Outcome(false, Observed(truth, effects).effects, false)))
      && (plan.Go? ==> plan.effects == ExpectedEffects(r.spec.value, r.arguments, plan.before))
  {
    hide ExpectedEffects, Observed, MandatoryPreconditions, AllMatch;
  }

  lemma PlanIsHonest(r: Request, e: Answers, kept: bool)
    requires Plain(r)
    ensures var plan := PlanFor(r, e, kept);
      && (plan.Stop? ==> Honest(plan.ending.status, r.arguments, plan.ending.truth, plan.ending.result))
      && (plan.Go? ==> plan.effects == ExpectedEffects(r.spec.value, r.arguments, plan.before))
  {
    hide PlanFor, ExpectedEffects, Judged, EvidenceFor;
    PlanShape(r, e, kept);
    var plan := PlanFor(r, e, kept);
    if plan.Stop? && plan.ending.truth.Some? {
      ObservedIsJudged(r.spec.value, r.arguments, plan.ending.truth.value, plan.ending.truth.value);
    }
  }

  lemma ConclusionIsHonest(r: Request, e: Answers, before: Truth)
    requires Plain(r)
    ensures var ending := Conclude(r, e, before, ExpectedEffects(r.spec.value, r.arguments, before));
      Honest(ending.status, r.arguments, ending.truth, ending.result)
  {
    if r.hasRefresher && e.secondRead.Some? { ObservedIsJudged(r.spec.value, r.arguments, before, e.secondRead.value); }
    if !r.hasRefresher { ObservedIsJudged(r.spec.value, r.arguments, before, map[]); }
  }

  /**
   Exactly when a call that reached the connector is recorded a success or a contradiction: the
   connector's own word never decides it, the state read afterwards does.
   */
  lemma ConclusionExactly(r: Request, e: Answers, before: Truth)
    requires Plain(r) && r.hasRefresher && LetThrough(e)
    ensures var status := Conclude(r, e, before, ExpectedEffects(r.spec.value, r.arguments, before)).status;
      var judged := Answered(e) || MayHaveActed(e);
      && (status.Failed? <==> !judged)
      && (status.Succeeded? <==>
            && judged && e.secondRead.Some? && Desired(r.arguments).Some? && before != map[]
            && forall k :: k in before ==> Shows(e.secondRead.value, k, Desired(r.arguments).value))
      && (status.VerificationFailed? <==>
            && judged && e.secondRead.Some? && Desired(r.arguments).Some?
            && (forall k :: k in before ==> !Shows(e.secondRead.value, k, Desired(r.arguments).value))
            && (exists k :: k in before && k in e.secondRead.value && e.secondRead.value[k].state == "KNOWN"))
      && (judged && e.secondRead == None ==> status.UnknownResult?)
    ensures var ending := Conclude(r, e, before, ExpectedEffects(r.spec.value, r.arguments, before));
      && (ending.status.Failed? || e.secondRead == None ==> ending.truth == Some(before) && ending.result == None)
      && (!ending.status.Failed? && e.secondRead.Some? ==>
            && ending.truth == e.secondRead && ending.result.Some? && ending.result.value.Outcome?
            && ending.result.value.executed && (ending.result.value.ambiguous <==> MayHaveActed(e)))
  {
    hide Observed, ExpectedEffects, Desired;
    GatewayMeans(e);
    if e.secondRead.Some? { ObservedMeans(r.spec.value, r.arguments, before, e.secondRead.value); }
  }

  // ----- over every run -----

  /** The request that last wrote an outcome vouches for it: it has the record's digest. */
  ghost predicate HonestRecord(wrote: map<nat, Request>, r: Record) {
    r.status.Succeeded? || r.status.Partial? || r.status.VerificationFailed? ==>
      && r.actionId in wrote
      && RequestDigest(wrote[r.actionId]) == r.digest
      && Honest(r.status, wrote[r.actionId].arguments, Some(r.latestTruth), r.result)
  }

  ghost predicate HonestThread(mixed: set<nat>, t: Thread) {
    t.Running? && t.r.actionId !in mixed ==>
      && Plain(t.r)
      && match t.pc
         case Writing(ending) => Honest(ending.status, t.r.arguments, ending.truth, ending.result)
         case Committing(before, effects) => effects == ExpectedEffects(t.r.spec.value, t.r.arguments, before)
         case Dispatching(before, effects) => effects == ExpectedEffects(t.r.spec.value, t.r.arguments, before)
         case _ => true
  }

  ghost predicate AllHonest(w: World) {
    && (forall id :: id in w.shared.store.records && id !in w.mixed ==>
         HonestRecord(w.wrote, w.shared.store.records[id]))
    && (forall t :: t in w.threads ==> HonestThread(w.mixed, w.threads[t]))
  }

  lemma WriteIsHonest(s: Store, t: Thread, ending: Ending, wrote: map<nat, Request>)
    requires WellKeyed(s) && Active(t) && Bound(s, t)
    requires t.r.actionId in s.records && s.records[t.r.actionId].key == t.r.key
    requires t.r.actionId in wrote && wrote[t.r.actionId] == t.r
    requires Honest(ending.status, t.r.arguments, ending.truth, ending.result)
    ensures HonestRecord(wrote,
      Updated(s, t.r.actionId, ending.status, ending.result, ending.truth).records[t.r.actionId])
  {
    hide RequestDigest, Judged;
  }

  /** Where a step of an execution writes, and when it writes an outcome. */
  lemma ExecutionWrites(s: Shared, r: Request, e: Answers, approval: Option<nat>, kept: bool, pc: Pc)
    requires WellKeyed(s.store)
    ensures var t := Execute1(s, r, e, approval, kept, pc).0;
      && (forall id :: id in t.store.records && id != r.actionId ==>
           id in s.store.records && t.store.records[id] == s.store.records[id])
      && (r.actionId in t.store.records ==>
            if pc.Writing? then
              && r.actionId in s.store.records
              && t.store == Updated(s.store, r.actionId, pc.ending.status, pc.ending.result, pc.ending.truth)
            else
              || (r.actionId in s.store.records && t.store.records[r.actionId] == s.store.records[r.actionId])
              || t.store.records[r.actionId].status.Planned?
              || t.store.records[r.actionId].status.Executing?)
  {
    hide PlanFor, Conclude, RequestDigest, ApprovalFor;
  }

  /** The record of a running execution after one of its steps. */
  lemma OwnRecordStaysHonest(w: World, tid: nat)
    requires Keyed(w) && AllHonest(w) && Enabled(w, Advance(tid)) && w.threads[tid].Running?
    ensures var v := AdvanceRunning(w, tid);
      var id := w.threads[tid].r.actionId;
      id in v.shared.store.records && id !in w.mixed ==> HonestRecord(v.wrote, v.shared.store.records[id])
  {
    hide Execute1, Updated, RequestDigest, Honest, Held;
    var t := w.threads[tid];
    var v := AdvanceRunning(w, tid);
    ExecutionWrites(w.shared, t.r, t.e, ResumedId(t), w.kept, t.pc);
    assert ThreadNamed(w, t) && Bound(w.shared.store, t) && HonestThread(w.mixed, t);
    if t.r.actionId in w.shared.store.records {
      assert Names(w, t.r.actionId, w.shared.store.records[t.r.actionId].key);
      if t.pc.Writing? && t.r.actionId !in w.mixed { WriteIsHonest(w.shared.store, t, t.pc.ending, v.wrote); }
    }
  }

  /** The store after one step of an execution. */
  lemma OtherRecordsStayHonest(w: World, v: World, own: nat)
    requires WellKeyed(w.shared.store) && AllHonest(w) && v.mixed == w.mixed
    requires forall id :: id in v.shared.store.records && id != own ==>
      id in w.shared.store.records && v.shared.store.records[id] == w.shared.store.records[id]
    requires forall id :: id in w.wrote && id != own ==> id in v.wrote && v.wrote[id] == w.wrote[id]
    ensures forall id :: id in v.shared.store.records && id !in v.mixed && id != own ==>
      HonestRecord(v.wrote, v.shared.store.records[id])
  {
    hide Honest, HonestThread, RequestDigest;
  }

  lemma RunningStaysHonest(w: World, tid: nat)
    requires Keyed(w) && AllHonest(w) && Enabled(w, Advance(tid)) && w.threads[tid].Running?
    ensures var v := AdvanceRunning(w, tid);
      && v.mixed == w.mixed
      && forall id :: id in v.shared.store.records && id !in v.mixed ==>
           HonestRecord(v.wrote, v.shared.store.records[id])
  {
    hide Execute1, Honest, HonestThread, RequestDigest, Held;
    var t := w.threads[tid];
    var v := AdvanceRunning(w, tid);
    ExecutionWrites(w.shared, t.r, t.e, ResumedId(t), w.kept, t.pc);
    OwnRecordStaysHonest(w, tid);
    OtherRecordsStayHonest(w, v, t.r.actionId);
  }

  lemma RunningThreadStaysHonest(w: World, tid: nat)
    requires AllHonest(w) && WellKeyed(w.shared.store) && tid in w.threads && w.threads[tid].Running?
    ensures var v := AdvanceRunning(w, tid);
      tid in v.threads ==> HonestThread(v.mixed, v.threads[tid])
  {
    hide PlanFor, Conclude, RequestDigest, Claimed, Updated, ApprovalFor;
    var t := w.threads[tid];
    assert HonestThread(w.mixed, t);
    if t.r.actionId !in w.mixed {
      PlanIsHonest(t.r, t.e, w.kept);
      if t.pc.Dispatching? { ConclusionIsHonest(t.r, t.e, t.pc.committed); }
    }
  }

  /** An approval call writes nothing but denials. */
  lemma ResumptionWrites(s: Shared, c: ApproveCall, pc: ApprovePc)
    ensures var t := Approve1(s, c, pc).0;
      forall id :: id in t.store.records ==>
        id in s.store.records
          && (t.store.records[id] == s.store.records[id] || t.store.records[id].status.PolicyDenied?)
  {
    hide Rebuild, ClaimedApproval, Completed;
  }

  lemma ResumedThreadIsHonest(w: World, tid: nat)
    requires tid in w.threads && w.threads[tid].Resuming?
    ensures var v := AdvanceResuming(w, tid);
      && w.mixed <= v.mixed && v.wrote == w.wrote
      && (tid in v.threads ==> HonestThread(v.mixed, v.threads[tid]))
  {
    hide Rebuild, ClaimedApproval, Completed;
  }

  lemma ResumingStaysHonest(w: World, tid: nat)
    requires WellKeyed(w.shared.store) && AllHonest(w) && Enabled(w, Advance(tid)) && w.threads[tid].Resuming?
    ensures AllHonest(AdvanceResuming(w, tid))
  {
    hide AdvanceResuming, Approve1, Plain, Judged;
    var v := AdvanceResuming(w, tid);
    ResumingMovesOneThread(w, tid);
    ResumptionWrites(w.shared, w.threads[tid].call, w.threads[tid].apc);
    ResumedThreadIsHonest(w, tid);
    forall u | u in v.threads ensures HonestThread(v.mixed, v.threads[u]) {
      if u != tid { assert HonestThread(w.mixed, w.threads[u]); }
    }
  }

  lemma QuietStaysHonest(w: World, tid: nat)
    requires AllHonest(w) && tid in w.threads && Quiet(w.threads[tid])
    ensures AllHonest(AdvanceQuietly(w, tid))
  {
    hide AdvanceQuietly, HonestRecord, Honest;
    QuietSteps(w, tid);
    var v := AdvanceQuietly(w, tid);
    forall u | u in v.threads ensures HonestThread(v.mixed, v.threads[u]) {
      assert u in w.threads ==> HonestThread(w.mixed, w.threads[u]);
    }
  }

  lemma RunningKeepsHonest(w: World, tid: nat)
    requires Keyed(w) && AllHonest(w) && Enabled(w, Advance(tid)) && w.threads[tid].Running?
    ensures AllHonest(AdvanceRunning(w, tid))
  {
    hide AdvanceRunning, Honest, HonestRecord, Held;
    var v := AdvanceRunning(w, tid);
    RunningStaysHonest(w, tid);
    RunningThreadStaysHonest(w, tid);
    RunningMovesOneThread(w, tid);
    forall u | u in v.threads ensures HonestThread(v.mixed, v.threads[u]) {
      if u != tid { assert HonestThread(w.mixed, w.threads[u]); }
    }
  }

  lemma ApplyStaysHonest(w: World, ev: Event)
    requires Inv(w) && AllHonest(w) && Enabled(w, ev)
    ensures AllHonest(Apply(w, ev))
  {
    hide AdvanceQuietly, AdvanceRunning, AdvanceResuming, Honest, HonestRecord, Recovered, Held, OneDispatch;
    var v := Apply(w, ev);
    match ev
    case Advance(tid) =>
      if Quiet(w.threads[tid]) {
        QuietStaysHonest(w, tid);
      } else if w.threads[tid].Running? {
        RunningKeepsHonest(w, tid);
      } else {
        ResumingStaysHonest(w, tid);
      }
    case Recover => RecoveryStaysHonest(w);
    case _ =>
      assert w.mixed <= v.mixed;
      forall u | u in v.threads ensures HonestThread(v.mixed, v.threads[u]) {
        if u in w.threads && v.threads[u] == w.threads[u] { assert HonestThread(w.mixed, w.threads[u]); }
      }
  }

  lemma RecoveryStaysHonest(w: World)
    requires WellKeyed(w.shared.store) && AllHonest(w)
    ensures AllHonest(Apply(w, Recover))
  {
    hide Honest, RequestDigest, Plain, WellKeyed, AdvanceRunning, AdvanceResuming, AdvanceQuietly;
    forall id | id in w.shared.store.records && id !in w.mixed
      ensures HonestRecord(w.wrote, RecoveredRecord(w.shared.store.records[id]))
    {
      assert HonestRecord(w.wrote, w.shared.store.records[id]);
    }
  }

  lemma {:induction false} AlwaysHonest(kept: bool, events: seq<Event>)
    ensures AllHonest(Run(kept, events))
  {
    if events != [] {
      var n := |events| - 1;
      AlwaysHonest(kept, events[..n]);
      if Enabled(Run(kept, events[..n]), events[n]) { ApplyStaysHonest(Run(kept, events[..n]), events[n]); }
    }
  }

  /** The request whose outcome a record shows, and whether its arguments were stored faithfully. */
  ghost predicate WrittenBy(w: World, id: nat, r: Request)
    requires id in w.shared.store.records
  {
    && id in w.wrote && r == w.wrote[id]
    && RequestDigest(r) == w.shared.store.records[id].digest
    && (Desired(w.shared.store.records[id].digest.arguments) == Desired(r.arguments) <==> DesireHolds(r.arguments))
  }

  /**
   A recorded success is an observed success: every expected key shows the state that the request
   of the record asked for.
   */
  lemma SuccessWasObserved(kept: bool, events: seq<Event>, id: nat)
    requires var w := Run(kept, events);
      id in w.shared.store.records && id !in w.mixed && w.shared.store.records[id].status.Succeeded?
    ensures var w := Run(kept, events);
      var record := w.shared.store.records[id];
      && id in w.wrote && WrittenBy(w, id, w.wrote[id])
      && Desired(w.wrote[id].arguments).Some?
      && record.result.Some? && record.result.value.Outcome? && record.result.value.effects != []
      && forall i :: 0 <= i < |record.result.value.effects| ==>
           Shows(record.latestTruth, record.result.value.effects[i].effect.truthKey,
             Desired(w.wrote[id].arguments).value)
  {
    OutcomeIsHonest(kept, events, id);
  }

  lemma OutcomeIsHonest(kept: bool, events: seq<Event>, id: nat)
    requires var w := Run(kept, events);
      && id in w.shared.store.records && id !in w.mixed
      && var s := w.shared.store.records[id].status;
      s.Succeeded? || s.Partial? || s.VerificationFailed?
    ensures var w := Run(kept, events);
      var record := w.shared.store.records[id];
      && id in w.wrote && WrittenBy(w, id, w.wrote[id])
      && Honest(record.status, w.wrote[id].arguments, Some(record.latestTruth), record.result)
  {
    hide Honest, Run, Desired, DesireHolds;
    AlwaysHonest(kept, events);
    var w := Run(kept, events);
    assert HonestRecord(w.wrote, w.shared.store.records[id]);
    assert w.shared.store.records[id].actionId == id by { RunIsKeyed(kept, events); }
    StoredArgumentsAskTheSameExactly(w.wrote[id].arguments);
  }

  lemma RunIsKeyed(kept: bool, events: seq<Event>)
    ensures WellKeyed(Run(kept, events).shared.store)
  {
  }

  /** `PARTIAL`: the stored state shows the requested value for some expected keys and not for others. */
  lemma PartialIsMixed(kept: bool, events: seq<Event>, id: nat)
    requires var w := Run(kept, events);
      id in w.shared.store.records && id !in w.mixed && w.shared.store.records[id].status.Partial?
    ensures var w := Run(kept, events);
      var r := w.shared.store.records[id];
      && id in w.wrote && WrittenBy(w, id, w.wrote[id])
      && Desired(w.wrote[id].arguments).Some? && r.result.Some? && r.result.value.Outcome?
      && var es := r.result.value.effects;
      && var desired := Desired(w.wrote[id].arguments).value;
      && (exists i :: 0 <= i < |es| && Shows(r.latestTruth, es[i].effect.truthKey, desired))
      && (exists i :: 0 <= i < |es| && !Shows(r.latestTruth, es[i].effect.truthKey, desired))
  {
    hide Run;
    OutcomeIsHonest(kept, events, id);
    var w := Run(kept, events);
    var r := w.shared.store.records[id];
    var es := r.result.value.effects;
    var i :| 0 <= i < |es| && es[i].outcome == Verified;
    assert Shows(r.latestTruth, es[i].effect.truthKey, Desired(w.wrote[id].arguments).value);
    var j :| 0 <= j < |es| && !es[j].outcome.Verified?;
    assert !Shows(r.latestTruth, es[j].effect.truthKey, Desired(w.wrote[id].arguments).value);
  }

  /** `VERIFICATION_FAILED`: no expected key shows the requested value and some key is known to differ. */
  lemma FailureWasObserved(kept: bool, events: seq<Event>, id: nat)
    requires var w := Run(kept, events);
      id in w.shared.store.records && id !in w.mixed && w.shared.store.records[id].status.VerificationFailed?
    ensures var w := Run(kept, events);
      var r := w.shared.store.records[id];
      && id in w.wrote && WrittenBy(w, id, w.wrote[id])
      && Desired(w.wrote[id].arguments).Some? && r.result.Some? && r.result.value.Outcome?
      && var es := r.result.value.effects;
      && var desired := Desired(w.wrote[id].arguments).value;
      && (forall i :: 0 <= i < |es| ==> !Shows(r.latestTruth, es[i].effect.truthKey, desired))
      && (exists i :: 0 <= i < |es| && es[i].effect.truthKey in r.latestTruth
            && r.latestTruth[es[i].effect.truthKey].state == "KNOWN"
            && r.latestTruth[es[i].effect.truthKey].value != desired)
  {
    OutcomeIsHonest(kept, events, id);
    var w := Run(kept, events);
    var r := w.shared.store.records[id];
    var es := r.result.value.effects;
    var desired := Desired(w.wrote[id].arguments).value;
    forall i | 0 <= i < |es| ensures !Shows(r.latestTruth, es[i].effect.truthKey, desired) {
      assert es[i].outcome != Verified;
    }
    var i :| 0 <= i < |es| && es[i].outcome == Contradicted;
    assert es[i].effect.truthKey in r.latestTruth;
  }
}
