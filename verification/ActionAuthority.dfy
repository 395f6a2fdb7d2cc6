/** What must have been true whenever an action is dispatched, over every run. */
module ActionAuthority {
  import opened Options
  import opened ActionRequests
  import opened Truths
  import opened ActionStores
  import opened ApprovalStores
  import opened Coordination
  import opened ActionRuns
  import ActionSafety

  /** The mandatory checks of a power request ask for nothing but known state. */
  lemma MandatoryMeansKnown(spec: SafetySpec, truth: Truth)
    ensures AllMatch(MandatoryPreconditions(spec, truth), truth) <==>
            (spec.PowerSpec? ==> forall k :: k in truth ==> truth[k].state == "KNOWN")
  {
    if spec.PowerSpec? {
      var keys, ps := SortedKeys(truth.Keys), MandatoryPreconditions(spec, truth);
      if AllMatch(ps, truth) {
        forall k | k in truth ensures truth[k].state == "KNOWN" {
          assert k in keys;
          var i :| 0 <= i < |keys| && keys[i] == k;
          assert MatchesTruth(ps[i], truth);
        }
      } else {
        var i :| 0 <= i < |ps| && !MatchesTruth(ps[i], truth);
        assert keys[i] in keys && truth[keys[i]].state != "KNOWN";
      }
    }
  }

  /** The state an execution starts from; a request without a refresher sees none. */
  function FirstTruth(r: Request, e: Answers): Option<Truth> {
    if r.hasRefresher then e.firstRead else Some(map[])
  }

  /** Everything that must hold before the connector may be called. */
  ghost predicate Authorized(r: Request, e: Answers) {
    && e.acquired
    && FirstTruth(r, e).Some?
    && var truth := FirstTruth(r, e).value;
    && (!r.tool.readOnly ==> r.spec.Some? && (r.spec.value.PowerSpec? ==> r.hasRefresher))
    && (r.spec.Some? && r.spec.value.PowerSpec? ==> forall k :: k in truth ==> truth[k].state == "KNOWN")
    && (forall i :: 0 <= i < |r.preconditions| ==> Meets(r.preconditions[i], truth))
    && IntentReads(r)
    && e.riskMatches
    && e.decision.Allow?
  }

  /** The state asked for is there already. */
  ghost predicate AlreadySo(r: Request, e: Answers)
    requires FirstTruth(r, e).Some?
  {
    && Plain(r.(hasVerifier := false))
    && var truth := FirstTruth(r, e).value;
    && truth != map[]
    && Desired(r.arguments).Some?
    && forall k :: k in truth ==> Shows(truth, k, Desired(r.arguments).value)
  }

  lemma AllMatchBoth(a: seq<Precondition>, b: seq<Precondition>, truth: Truth)
    ensures AllMatch(a + b, truth) <==> AllMatch(a, truth) && AllMatch(b, truth)
  {
    if AllMatch(a + b, truth) {
      forall i | 0 <= i < |a| ensures MatchesTruth(a[i], truth) { assert MatchesTruth((a + b)[i], truth); }
      forall i | 0 <= i < |b| ensures MatchesTruth(b[i], truth) { assert MatchesTruth((a + b)[|a| + i], truth); }
    }
  }

  /** An execution goes on to the connector if and only if it is authorized and there is something to do. */
  lemma DispatchesExactly(r: Request, e: Answers, kept: bool)
    ensures PlanFor(r, e, kept).Go? <==> Authorized(r, e) && !AlreadySo(r, e)
    ensures PlanFor(r, e, kept).Go? ==> PlanFor(r, e, kept).before == FirstTruth(r, e).value
    ensures PlanFor(r, e, kept).Ask? ==> kept && r.principal.Some? && e.decision.RequireConfirmationFirst?
  {
    hide MandatoryPreconditions, ExpectedEffects, Observed, AllMatch, Meets, MatchesTruth, Desired, IntentReads;
    if FirstTruth(r, e).Some? {
      var truth := FirstTruth(r, e).value;
      AllMatchExactly(r.preconditions, truth);
      if r.spec.Some? {
        MandatoryMeansKnown(r.spec.value, truth);
        AllMatchBoth(MandatoryPreconditions(r.spec.value, truth), r.preconditions, truth);
        AlreadyMeans(r.spec.value, r.arguments, truth);
      } else {
        AllMatchBoth([], r.preconditions, truth);
        NothingToMatch(truth);
      }
    }
  }

  /** The state was read, and is of a kind that may be acted on. */
  ghost predicate HasState(r: Request, e: Answers) {
    && e.acquired
    && FirstTruth(r, e).Some?
    && (!r.tool.readOnly && !r.hasRefresher ==> r.spec == Some(NotificationSpec))
  }

  /** The action has rules, and the state meets them and the request's own preconditions. */
  ghost predicate MeetsPreconditions(r: Request, e: Answers)
    requires FirstTruth(r, e).Some?
  {
    var truth := FirstTruth(r, e).value;
    && (!r.tool.readOnly ==> r.spec.Some?)
    && (r.spec.Some? && r.spec.value.PowerSpec? ==> forall k :: k in truth ==> truth[k].state == "KNOWN")
    && (forall i :: 0 <= i < |r.preconditions| ==> Meets(r.preconditions[i], truth))
  }

  /** The execution comes to read its intent: nothing before it stopped it. */
  ghost predicate ReachesIntent(r: Request, e: Answers) {
    HasState(r, e) && MeetsPreconditions(r, e)
  }

  /**
   Every reason not to dispatch has its own recorded status, and holds exactly when that status is
   recorded; only an intent that cannot be read ends the execution without one.
   */
  lemma StopsExactly(r: Request, e: Answers, kept: bool)
    ensures var plan := PlanFor(r, e, kept);
      var ready := ReachesIntent(r, e) && IntentReads(r);
      var confirm := ready && e.riskMatches && e.decision.RequireConfirmationFirst?;
      var askable := r.principal.Some? && e.envelopeOk && e.issuedAt < e.expiresAt;
      && (plan.NoIntent? <==> ReachesIntent(r, e) && !IntentReads(r))
      && (plan.Ask? <==> confirm && kept && askable)
      && (plan.Stop? ==>
            var s := plan.ending.status;
            && (s.ResourceBusy? <==> !e.acquired)
            && (s.UnknownResult? <==> e.acquired && !HasState(r, e))
            && (s.PreconditionFailed? <==> HasState(r, e) && !MeetsPreconditions(r, e))
            && (s.PolicyDenied? <==> ready && (!e.riskMatches || e.decision.Deny?))
            && (s.RequireConfirmation? <==> confirm && !kept)
            && (s.RequireStrongerAuth? <==>
                  (ready && e.riskMatches && e.decision.RequireStrongerAuthFirst?) || (confirm && kept && !askable))
            && (s.Succeeded? <==> ready && e.riskMatches && e.decision.Allow?)
            && (s.Succeeded? ==> AlreadySo(r, e))
            && plan.ending.truth == (if e.acquired then FirstTruth(r, e) else None)
            && (!s.Succeeded? ==> plan.ending.result == None)
            && (s.Succeeded? ==> plan.ending.result.Some? && plan.ending.result.value.Outcome?
                                 && !plan.ending.result.value.executed && !plan.ending.result.value.ambiguous))
  {
    hide MandatoryPreconditions, ExpectedEffects, Observed, AllMatch, Meets, MatchesTruth, Desired, IntentReads;
    if FirstTruth(r, e).Some? {
      var truth := FirstTruth(r, e).value;
      AllMatchExactly(r.preconditions, truth);
      if r.spec.Some? {
        MandatoryMeansKnown(r.spec.value, truth);
        AllMatchBoth(MandatoryPreconditions(r.spec.value, truth), r.preconditions, truth);
        AlreadyMeans(r.spec.value, r.arguments, truth);
      } else {
        AllMatchBoth([], r.preconditions, truth);
        NothingToMatch(truth);
      }
    }
  }

  lemma NothingToMatch(truth: Truth)
    ensures AllMatch([], truth)
  {
  }

  lemma AlreadyMeans(spec: SafetySpec, args: Arguments, truth: Truth)
    ensures spec.PowerSpec? ==>
      (ExpectedEffects(spec, args, truth) != []
        && Observed(truth, ExpectedEffects(spec, args, truth)).outcome.Verified? <==>
        Desired(args).Some? && truth != map[] && forall k :: k in truth ==> Shows(truth, k, Desired(args).value))
  {
    if spec.PowerSpec? { ObservedMeans(spec, args, truth, truth); }
  }

  // ----- over every run -----

  ghost predicate ThreadAuthorized(t: Thread) {
    t.Running? && (t.pc.Committing? || t.pc.Dispatching?) ==> Authorized(t.r, t.e) && !AlreadySo(t.r, t.e)
  }

  lemma StepStaysAuthorized(w: World, tid: nat)
    requires WellKeyed(w.shared.store) && tid in w.threads && w.threads[tid].Running?
      && ThreadAuthorized(w.threads[tid])
    ensures var v := AdvanceRunning(w, tid);
      && (tid in v.threads ==> ThreadAuthorized(v.threads[tid]))
      && (v.shared.trace != w.shared.trace ==>
           Authorized(w.threads[tid].r, w.threads[tid].e) && !AlreadySo(w.threads[tid].r, w.threads[tid].e))
  {
    hide PlanFor, Conclude, RequestDigest, ApprovalFor, Claimed, Updated, Authorized, AlreadySo;
    DispatchesExactly(w.threads[tid].r, w.threads[tid].e, w.kept);
  }

  ghost predicate AllAuthorized(w: World) {
    forall t :: t in w.threads ==> ThreadAuthorized(w.threads[t])
  }

  lemma QuietStaysAuthorized(w: World, tid: nat)
    requires tid in w.threads && Quiet(w.threads[tid])
    ensures var v := AdvanceQuietly(w, tid); tid in v.threads ==> ThreadAuthorized(v.threads[tid])
  {
    hide AdvanceQuietly, Authorized, AlreadySo;
    QuietSteps(w, tid);
  }

  lemma ApplyStaysAuthorized(w: World, ev: Event)
    requires Inv(w) && AllAuthorized(w) && Enabled(w, ev)
    ensures AllAuthorized(Apply(w, ev))
  {
    hide ThreadAuthorized, AdvanceRunning, AdvanceResuming, AdvanceQuietly, OneDispatch;
    match ev
    case Advance(tid) =>
      if Quiet(w.threads[tid]) {
        QuietSteps(w, tid);
        QuietStaysAuthorized(w, tid);
      } else if w.threads[tid].Running? {
        StepStaysAuthorized(w, tid);
        RunningMovesOneThread(w, tid);
      } else {
        ResumingMovesOneThread(w, tid);
        HandedOverIsClaiming(w, tid);
      }
    case StartExecute(tid, r, e) => NewIsAuthorized(Started(r, e, None));
    case StartApprove(tid, c, e) => NewIsAuthorized(Resuming(c, e, Looking));
    case _ =>
  }

  lemma NewIsAuthorized(t: Thread)
    requires t.Running? ==> t.pc.Claiming?
    ensures ThreadAuthorized(t)
  {
  }

  lemma {:induction false} AlwaysAuthorized(kept: bool, events: seq<Event>)
    ensures AllAuthorized(Run(kept, events))
  {
    hide Apply, Inv, Enabled;
    if events != [] {
      var n := |events| - 1;
      AlwaysAuthorized(kept, events[..n]);
      if Enabled(Run(kept, events[..n]), events[n]) { ApplyStaysAuthorized(Run(kept, events[..n]), events[n]); }
    }
  }

  lemma HandedOverIsClaiming(w: World, tid: nat)
    requires tid in w.threads && w.threads[tid].Resuming?
    ensures var v := AdvanceResuming(w, tid); tid in v.threads && v.threads[tid].Running? ==>
      v.threads[tid].pc.Claiming?
    ensures var v := AdvanceResuming(w, tid); tid in v.threads ==> ThreadAuthorized(v.threads[tid])
  {
    hide Approve1, Authorized, AlreadySo;
  }

  /**
   Whenever anything is dispatched, in whatever run, the execution that did it held its locks, had
   read the state it needed and found every precondition met, was allowed by policy, and had
   something left to do.
   */
  lemma DispatchIsAuthorized(kept: bool, events: seq<Event>, ev: Event)
    requires Run(kept, events + [ev]).shared.trace != Run(kept, events).shared.trace
    ensures var w := Run(kept, events);
      && ev.Advance? && ev.tid in w.threads && w.threads[ev.tid].Running?
      && Authorized(w.threads[ev.tid].r, w.threads[ev.tid].e) && !AlreadySo(w.threads[ev.tid].r, w.threads[ev.tid].e)
  {
    hide Run, AdvanceRunning, AdvanceResuming, AdvanceQuietly, Authorized, AlreadySo;
    ActionSafety.RunExtends(kept, events, ev);
    AlwaysAuthorized(kept, events);
    var w := Run(kept, events);
    if ev.Advance? && ev.tid in w.threads {
      if Quiet(w.threads[ev.tid]) {
        QuietSteps(w, ev.tid);
      } else if w.threads[ev.tid].Running? {
        StepStaysAuthorized(w, ev.tid);
      } else {
        ResumingMovesOneThread(w, ev.tid);
        ResumptionGrows(w.shared, w.threads[ev.tid].call, w.threads[ev.tid].apc);
      }
    }
  }
}
