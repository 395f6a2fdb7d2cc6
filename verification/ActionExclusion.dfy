/** Who holds which scope lock, over every run; no dispatch falls into another's locked section. */
module ActionExclusion {
  import opened ActionRequests
  import opened ActionStores
  import opened ApprovalStores
  import opened Coordination
  import opened ActionRuns
  import opened ActionAuthority
  import ActionSafety
  import ResourceLocks

  /** What an execution knows of its locks fits what it does. */
  ghost predicate LockFits(t: Thread) {
    match t
    case Running(r, e, pc, _, lock) =>
      && (pc.Claiming? ==> lock == Taking(0))
      && (!pc.Claiming? && !pc.Planning? ==> lock.Granted? || lock.Barred?)
      && (lock.Granted? ==> e.acquired)
      && (lock.Barred? ==> !e.acquired)
      && (lock.Taking? ==> lock.taken <= |ScopeKeys(r)|)
      && (lock.GivingBack? ==> lock.left <= |ScopeKeys(r)|)
    case Leaving(keys, held, _, _, _) => held <= |keys|
    case Resuming(_, _, _) => true
  }

  /** Every key has one holder: one thread, once, or somebody elsewhere. */
  ghost predicate Exclusive(w: World) {
    && (forall t :: t in w.threads ==> LockFits(w.threads[t]) && ResourceLocks.Distinct(Held(w.threads[t])))
    && (forall t, key :: t in w.threads && key in Held(w.threads[t]) ==> key !in w.elsewhere)
    && (forall t, u, key :: t in w.threads && u in w.threads && t != u && key in Held(w.threads[t]) ==>
         key !in Held(w.threads[u]))
  }

  /** Enough for a step: whoever moved holds no more than before, but for keys that were free. */
  lemma ExclusiveAcross(w: World, v: World, moved: nat)
    requires Exclusive(w) && v.elsewhere == w.elsewhere
    requires forall u :: u in v.threads && u != moved ==> u in w.threads && v.threads[u] == w.threads[u]
    requires moved in v.threads ==> LockFits(v.threads[moved]) && ResourceLocks.Distinct(Held(v.threads[moved]))
    requires moved in v.threads ==> forall key :: key in Held(v.threads[moved]) ==>
      (moved in w.threads && key in Held(w.threads[moved])) || !Taken(w, key)
    ensures Exclusive(v)
  {
    hide LockFits, Held, ResourceLocks.Distinct;
  }

  lemma LockStepFits(w: World, t: Thread)
    requires Locking(t) && LockFits(t) && ResourceLocks.Distinct(Held(t))
    requires forall key :: key in Held(t) ==> Taken(w, key)
    ensures var u := LockStep(w, t);
      && LockFits(u) && ResourceLocks.Distinct(Held(u))
      && forall key :: key in Held(u) ==> key in Held(t) || !Taken(w, key)
  {
    hide Taken, ScopeKeys;
    var keys, u := ScopeKeys(t.r), LockStep(w, t);
    if t.lock.Taking? && t.lock.taken < |keys| && !Taken(w, keys[t.lock.taken]) {
      assert keys[..t.lock.taken + 1] == keys[..t.lock.taken] + [keys[t.lock.taken]];
      assert Held(u) == Held(t) + [keys[t.lock.taken]];
    }
    if t.lock.GivingBack? && t.lock.left > 0 {
      assert Held(u) == Held(t)[..t.lock.left - 1];
    }
  }

  lemma QuietKeepsExclusive(w: World, tid: nat)
    requires Exclusive(w) && tid in w.threads && Quiet(w.threads[tid])
    ensures Exclusive(AdvanceQuietly(w, tid))
  {
    hide LockStep, ScopeKeys;
    var t, v := w.threads[tid], AdvanceQuietly(w, tid);
    if Locking(t) {
      forall key | key in Held(t) ensures Taken(w, key) {}
      LockStepFits(w, t);
    }
    ExclusiveAcross(w, v, tid);
  }

  /** A step of the work itself neither takes nor gives back a lock. */
  lemma WorkKeepsLocks(w: World, tid: nat)
    requires WellKeyed(w.shared.store) && tid in w.threads && w.threads[tid].Running? && LockFits(w.threads[tid])
    requires !Quiet(w.threads[tid])
    ensures var v := AdvanceRunning(w, tid);
      && v.elsewhere == w.elsewhere && tid in v.threads
      && LockFits(v.threads[tid]) && Held(v.threads[tid]) == Held(w.threads[tid])
  {
    hide PlanFor, Conclude, RequestDigest, Claimed, Updated, ApprovalFor, ScopeKeys;
  }

  lemma HandedOverHoldsNothing(w: World, tid: nat)
    requires tid in w.threads && w.threads[tid].Resuming?
    ensures var v := AdvanceResuming(w, tid);
      && v.elsewhere == w.elsewhere
      && (tid in v.threads ==> LockFits(v.threads[tid]) && Held(v.threads[tid]) == [])
  {
    hide Approve1, ScopeKeys;
  }

  lemma ApplyKeepsExclusive(w: World, ev: Event)
    requires Inv(w) && Exclusive(w) && Enabled(w, ev)
    ensures Exclusive(Apply(w, ev))
  {
    hide AdvanceQuietly, AdvanceRunning, AdvanceResuming, OneDispatch, LockFits, Exclusive;
    match ev
    case Advance(tid) =>
      if Quiet(w.threads[tid]) {
        QuietKeepsExclusive(w, tid);
      } else if w.threads[tid].Running? {
        ThreadFits(w, tid);
        WorkKeepsLocks(w, tid);
        RunningMovesOneThread(w, tid);
        ExclusiveAcross(w, Apply(w, ev), tid);
      } else {
        HandedOverHoldsNothing(w, tid);
        ResumingMovesOneThread(w, tid);
        ExclusiveAcross(w, Apply(w, ev), tid);
      }
    case _ => OtherEventsKeepExclusive(w, ev);
  }

  lemma ThreadFits(w: World, tid: nat)
    requires Exclusive(w) && tid in w.threads
    ensures LockFits(w.threads[tid]) && ResourceLocks.Distinct(Held(w.threads[tid]))
  {
  }

  lemma OtherEventsKeepExclusive(w: World, ev: Event)
    requires WellKeyed(w.shared.store) && Exclusive(w) && Enabled(w, ev) && !ev.Advance?
    ensures Exclusive(Apply(w, ev))
  {
    hide ScopeKeys, WellKeyed, AdvanceRunning, AdvanceResuming, AdvanceQuietly, Recovered, Mixed;
    match ev
    case StartExecute(tid, _, _) => ExclusiveAcross(w, Apply(w, ev), tid);
    case StartApprove(tid, _, _) => ExclusiveAcross(w, Apply(w, ev), tid);
    case Abandon(tid) => ExclusiveAcross(w, Apply(w, ev), tid);
    case _ =>
  }

  lemma {:induction false} AlwaysExclusive(kept: bool, events: seq<Event>)
    ensures Exclusive(Run(kept, events))
  {
    hide Apply, Inv, Enabled;
    if events != [] {
      var n := |events| - 1;
      AlwaysExclusive(kept, events[..n]);
      if Enabled(Run(kept, events[..n]), events[n]) { ApplyKeepsExclusive(Run(kept, events[..n]), events[n]); }
    }
  }

  // ----- the results -----

  /** An execution inside its `with` block, with the lock granted. */
  predicate Inside(t: Thread) {
    t.Running? && t.lock.Granted?
  }

  /** Of two executions that share a scope, at most one is between taking its locks and giving them back. */
  lemma SharedScopeExcludesExecutions(kept: bool, events: seq<Event>, t: nat, u: nat, key: string)
    requires var ts := Run(kept, events).threads;
      && t in ts && u in ts && t != u && Inside(ts[t]) && ts[u].Running?
      && key in ScopeKeys(ts[t].r) && key in ScopeKeys(ts[u].r)
    ensures !Inside(Run(kept, events).threads[u])
    ensures key !in Held(Run(kept, events).threads[u])
  {
    hide Run, ScopeKeys, LockFits;
    AlwaysExclusive(kept, events);
    assert key in Held(Run(kept, events).threads[t]);
  }

  /**
   Whoever dispatches holds every lock of its request, and nobody else does: no dispatch falls
   between the durable mark and the final record of another execution that shares a scope.
   */
  lemma DispatchHoldsItsLocks(kept: bool, events: seq<Event>, ev: Event)
    requires Run(kept, events + [ev]).shared.trace != Run(kept, events).shared.trace
    ensures var w := Run(kept, events);
      && ev.Advance? && ev.tid in w.threads && Inside(w.threads[ev.tid])
      && Held(w.threads[ev.tid]) == ScopeKeys(w.threads[ev.tid].r)
      && forall key, u :: key in ScopeKeys(w.threads[ev.tid].r) && u in w.threads && u != ev.tid ==>
           key !in Held(w.threads[u]) && (Marked(w.threads[u]) ==> key !in ScopeKeys(w.threads[u].r))
  {
    hide Run, ScopeKeys, Authorized, AlreadySo, Inv;
    DispatchIsAuthorized(kept, events, ev);
    AlwaysExclusive(kept, events);
    DispatcherIsDispatching(kept, events, ev);
    var w := Run(kept, events);
    assert LockFits(w.threads[ev.tid]);
    assert w.threads[ev.tid].e.acquired by { AuthorizedIsAcquired(w.threads[ev.tid]); }
    forall u | u in w.threads && Marked(w.threads[u]) ensures Held(w.threads[u]) == ScopeKeys(w.threads[u].r) {}
  }

  /** Between the mark `EXECUTING` and the record of the outcome. */
  predicate Marked(t: Thread) {
    Inside(t) && (t.pc.Dispatching? || t.pc.Writing?)
  }

  lemma AuthorizedIsAcquired(t: Thread)
    requires t.Running? && Authorized(t.r, t.e)
    ensures t.e.acquired
  {
  }

  lemma DispatcherIsDispatching(kept: bool, events: seq<Event>, ev: Event)
    requires Run(kept, events + [ev]).shared.trace != Run(kept, events).shared.trace
    requires ev.Advance? && ev.tid in Run(kept, events).threads && Run(kept, events).threads[ev.tid].Running?
    ensures Run(kept, events).threads[ev.tid].pc.Dispatching?
  {
    hide Run, AdvanceQuietly, AdvanceRunning;
    ActionSafety.RunExtends(kept, events, ev);
    var w := Run(kept, events);
    if Quiet(w.threads[ev.tid]) { QuietSteps(w, ev.tid); } else { OnlyDispatchingDispatches(w, ev.tid); }
  }

  lemma OnlyDispatchingDispatches(w: World, tid: nat)
    requires WellKeyed(w.shared.store) && tid in w.threads && w.threads[tid].Running?
    ensures AdvanceRunning(w, tid).shared.trace != w.shared.trace ==> w.threads[tid].pc.Dispatching?
  {
    hide PlanFor, Conclude, RequestDigest, Claimed, Updated, ApprovalFor, Held;
  }
}
