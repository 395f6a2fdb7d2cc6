/**
 Calls that nothing interrupts: what an execution and an approval call compute, in closed form, and
 that this is what the machine reaches when it takes their steps one by one.
 */
module UninterruptedCalls {
  import opened Options
  import opened Statuses
  import opened ActionRequests
  import opened Truths
  import opened ActionStores
  import opened ApprovalStores
  import opened Coordination
  import opened ActionRuns
  import ActionSafety
  import ResourceLocks

  // ----- an uninterrupted call in closed form -----

  /** What writing an ending does. */
  ghost function Written(s: Shared, r: Request, ending: Ending): (Shared, Next) {
    if r.actionId !in s.store.records then (s, Raised)
    else
      var store := Updated(s.store, r.actionId, ending.status, ending.result, ending.truth);
      (s.(store := store), Returned(store.records[r.actionId], false, false))
  }

  ghost function AfterDispatch(
    s: Shared, r: Request, e: Answers, approval: Option<nat>, truth: Truth, effects: seq<Effect>
  ): (Shared, Next) {
    if r.actionId !in s.store.records then (s, Raised)
    else
      Written(Shared(Updated(s.store, r.actionId, Executing, Some(Intended(effects)), Some(truth)), s.approvals,
                     s.trace + [DispatchOf(r, e, approval)]),
              r, Conclude(r, e, truth, effects))
  }

  lemma WritingCarriesOut(s: Shared, r: Request, e: Answers, approval: Option<nat>, kept: bool, ending: Ending)
    requires WellKeyed(s.store)
    ensures Execution(s, r, e, approval, kept, Writing(ending)) == Written(s, r, ending)
  {
  }

  lemma CommittingCarriesOut(
    s: Shared, r: Request, e: Answers, approval: Option<nat>, kept: bool, truth: Truth, effects: seq<Effect>
  )
    requires WellKeyed(s.store)
    ensures Execution(s, r, e, approval, kept, Committing(truth, effects)) ==
      AfterDispatch(s, r, e, approval, truth, effects)
  {
    hide Conclude, RequestDigest, Updated;
    if r.actionId in s.store.records {
      var t := s.(store := Updated(s.store, r.actionId, Executing, Some(Intended(effects)), Some(truth)));
      StepKeepsKeys(s, r, e, approval, kept, Committing(truth, effects));
      var u := t.(trace := t.trace + [DispatchOf(r, e, approval)]);
      WritingCarriesOut(u, r, e, approval, kept, Conclude(r, e, truth, effects));
      assert Execution(t, r, e, approval, kept, Dispatching(truth, effects)) ==
        Written(u, r, Conclude(r, e, truth, effects));
    }
  }

  /** Checking without the verifier is checking a request that has none. */
  lemma WithoutVerifier(r: Request, i: Invocation, truth: Truth, effects: seq<Effect>, custom: Verification)
    ensures Verify(r.(hasVerifier := false), i, truth, effects, true, custom) ==
      Verify(r, i, truth, effects, false, custom)
  {
  }

  /** The action id is new, or belongs to the record of the key. */
  ghost predicate CanClaim(s: Store, r: Request) {
    WellKeyed(s) && (r.key !in s.byKey ==> r.actionId !in s.records)
  }

  lemma ClaimingCarriesOut(s: Shared, r: Request, e: Answers, approval: Option<nat>, kept: bool)
    requires CanClaim(s.store, r)
    ensures var (store, claim) := Claimed(s.store, r);
      && WellKeyed(store)
      && ((claim.conflict || claim.duplicate) ==> store == s.store)
      && Execution(s, r, e, approval, kept, Pc.Claiming) ==
           if claim.conflict then (s, Returned(claim.record, true, true))
           else if claim.duplicate && !Resumable(claim.record.status) then (s, Returned(claim.record, true, false))
           else Execution(s.(store := store), r, e, approval, kept, Planning)
  {
  }

  /** Whether the lock of a request is granted when these keys are taken. */
  predicate Grants(taken: set<string>, r: Request) {
    ResourceLocks.Distinct(ScopeKeys(r)) && ResourceLocks.Elements(ScopeKeys(r)) !! taken
  }

  function Heard(e: Answers, taken: set<string>, r: Request): Answers {
    e.(acquired := Grants(taken, r))
  }

  // ----- an uninterrupted approval call -----

  function ApproveRank(pc: ApprovePc): nat {
    match pc
    case Looking => 3
    case Settling => 2
    case Acting(_) => 1
    case Closing(_, _) => 0
  }

  /** An approval call up to its end, or up to the execution it hands over to. */
  ghost function Resumption(s: Shared, c: ApproveCall, pc: ApprovePc): (Shared, Option<Request>)
    decreases ApproveRank(pc)
  {
    var (t, next) := Approve1(s, c, pc);
    match next
    case Ended => (t, None)
    case HandOver(r) => (t, Some(r))
    case Proceed(later) => if ApproveRank(later) < ApproveRank(pc) then Resumption(t, c, later) else (t, None)
  }

  /** The whole call, the execution and the closing of the approval included. */
  ghost function ApprovalCall(s: Shared, c: ApproveCall, e: Answers, kept: bool, taken: set<string>): Shared {
    var (t, r) := Resumption(s, c, Looking);
    if r.None? || !CanClaim(t.store, r.value) then t
    else
      var (u, next) := Execution(t, r.value, Heard(e, taken, r.value), Some(c.approvalId), kept, Pc.Claiming);
      Closed(u, c, next)
  }

  ghost function Closed(s: Shared, c: ApproveCall, next: Next): Shared {
    if next.Returned? then s.(approvals := Completed(s.approvals, c.approvalId, Approved, next.record.status)) else s
  }

  /** The call up to the moment it acts, branch by branch. */
  lemma LookingCases(s: Shared, c: ApproveCall)
    ensures var existing := if c.approvalId in s.approvals.records then Some(s.approvals.records[c.approvalId])
      else None;
      var (claimed, a) := ClaimedApproval(s.approvals, c.approvalId, c.household, c.principal, c.choice, c.at);
      Resumption(s, c, Looking) ==
        if existing.Some? && !c.allowRecovery
             && (existing.value.status.Approved? || existing.value.status.Rejected?)
        then (s, None)
        else if existing.Some? && existing.value.household == c.household && existing.value.principal == c.principal
                && existing.value.status == DecidedStatus(c.choice) then Resumption(s, c, Acting(existing.value))
        else if a.None? then (s.(approvals := claimed), None)
        else Resumption(s.(approvals := claimed), c, Acting(a.value))
  {
  }

  /** The call brings the approved tool, and what the child of a scene needs. */
  ghost predicate Fits(a: Approval, c: ApproveCall) {
    && (match c.tool
        case Some(tool) => tool.toolId == a.toolId && tool.version == a.toolVersion
        case None => false)
    && (|a.key| >= 11 && a.key[..11] == "scene-step:" ==> c.sceneReady)
  }

  /** The approval is the caller's, and still waits for this decision or, where that is allowed, already has it. */
  ghost predicate TakesUp(s: Approvals, c: ApproveCall) {
    && c.approvalId in s.records
    && var a := s.records[c.approvalId];
    && a.household == c.household && a.principal == c.principal
    && (|| (a.status.Pending? && c.at < a.expiresAt)
        || (c.allowRecovery && c.choice.Approve? && a.status.Approved?)
        || (c.allowRecovery && c.choice.Reject? && a.status.Rejected?))
  }

  lemma FitsIsSameDescriptor(a: Approval, c: ApproveCall)
    ensures SameDescriptor(a, c) <==> Fits(a, c)
  {
    assert "scene-step:" <= a.key <==> |a.key| >= 11 && a.key[..11] == "scene-step:";
  }

  /**
   What an approval call does before any execution: it goes on to one exactly for an approval that it
   takes up with APPROVE and fits, and is then the rebuilt request; a rejected or unfitting one denies
   the action; and a call that takes nothing up writes no record.
   */
  lemma CallDecidesExactly(s: Shared, c: ApproveCall)
    ensures var (t, r) := Resumption(s, c, Looking);
      var takes := TakesUp(s.approvals, c);
      && (!takes ==> r == None && t.store == s.store)
      && t.trace == s.trace
      && (takes ==>
            var a := s.approvals.records[c.approvalId];
            && (c.choice.Approve? && Fits(a, c) ==>
                  && t.store == s.store
                  && r == Rebuild(a, c.tool.value, c.identityHousehold, c.identity, c.hasRefresher, c.hasVerifier))
            && (!(c.choice.Approve? && Fits(a, c)) ==>
                  && r == None
                  && (a.actionId !in s.store.records ==> t.store == s.store)
                  && (a.actionId in s.store.records ==>
                        && t.store.records.Keys == s.store.records.Keys
                        && t.store.records[a.actionId].status.PolicyDenied?
                        && (forall id :: id in s.store.records && id != a.actionId ==>
                              t.store.records[id] == s.store.records[id])
                        && c.approvalId in t.approvals.records
                        && t.approvals.records[c.approvalId].outcome == Some(PolicyDenied)
                        && (t.approvals.records[c.approvalId].status.Rejected? <==> c.choice.Reject?)
                        && (t.approvals.records[c.approvalId].status.Failed? <==> c.choice.Approve?))))
  {
    hide Rebuild, SameDescriptor, Resumption, Updated;
    LookingCases(s, c);
    if TakesUp(s.approvals, c) {
      var a := s.approvals.records[c.approvalId];
      var taken := if a.status.Pending? then Decide(a, c.choice) else a;
      FitsIsSameDescriptor(a, c);
      FitsIsSameDescriptor(taken, c);
      var after := if a.status.Pending? then s.approvals.(records := s.approvals.records[c.approvalId := taken])
                   else s.approvals;
      ActingCases(s.(approvals := after), c, taken);
      RebuildForgetsDecision(a, taken, c);
      if a.actionId in s.store.records { DenialIsRecorded(s.(approvals := after), c, taken); }
    }
  }

  lemma RebuildForgetsDecision(a: Approval, b: Approval, c: ApproveCall)
    requires c.tool.Some? ==> b == a.(status := b.status, decision := b.decision)
    ensures c.tool.Some? ==>
      Rebuild(a, c.tool.value, c.identityHousehold, c.identity, c.hasRefresher, c.hasVerifier)
        == Rebuild(b, c.tool.value, c.identityHousehold, c.identity, c.hasRefresher, c.hasVerifier)
  {
    hide CreateRequest;
  }

  lemma DenialIsRecorded(s: Shared, c: ApproveCall, a: Approval)
    requires a.actionId in s.store.records && c.approvalId in s.approvals.records
    ensures forall status :: var t := Denied(s, c, a, status);
      && t.trace == s.trace && t.store.records.Keys == s.store.records.Keys
      && t.store.records[a.actionId].status.PolicyDenied?
      && (forall id :: id in s.store.records && id != a.actionId ==> t.store.records[id] == s.store.records[id])
      && c.approvalId in t.approvals.records
      && t.approvals.records[c.approvalId].outcome == Some(PolicyDenied)
      && t.approvals.records[c.approvalId].status == status
  {
  }

  lemma ActingCases(s: Shared, c: ApproveCall, a: Approval)
    ensures Resumption(s, c, Acting(a)) ==
      if a.status.Rejected? then (Denied(s, c, a, Rejected), None)
      else if !a.status.Approved? then (s, None)
      else if !SameDescriptor(a, c) then (Denied(s, c, a, ApprovalStatus.Failed), None)
      else (s, Rebuild(a, c.tool.value, c.identityHousehold, c.identity, c.hasRefresher, c.hasVerifier))
  {
    hide Rebuild, Updated, Completed, SameDescriptor;
  }

  ghost function Denied(s: Shared, c: ApproveCall, a: Approval, status: ApprovalStatus): Shared {
    if a.actionId !in s.store.records then s
    else s.(store := Updated(s.store, a.actionId, PolicyDenied, None, None),
            approvals := Completed(s.approvals, c.approvalId, status, PolicyDenied))
  }

  /** An execution loses no approval and adds at most its own. */
  lemma {:induction false} ExecutionKeepsApprovals(
    s: Shared, r: Request, e: Answers, approval: Option<nat>, kept: bool, pc: Pc
  )
    requires WellKeyed(s.store) && (pc.Claiming? && r.key !in s.store.byKey ==> r.actionId !in s.store.records)
    ensures var keys := Execution(s, r, e, approval, kept, pc).0.approvals.records.Keys;
      s.approvals.records.Keys <= keys <= s.approvals.records.Keys + {e.approvalId}
    decreases Rank(pc)
  {
    hide PlanFor, Conclude, RequestDigest, Claimed, Updated, ApprovalFor;
    StepKeepsKeys(s, r, e, approval, kept, pc);
    var (t, next) := Execute1(s, r, e, approval, kept, pc);
    if next.Continue? { ExecutionKeepsApprovals(t, r, e, approval, kept, next.pc); }
  }

  lemma {:induction false} ResumptionKeepsIds(s: Shared, c: ApproveCall, pc: ApprovePc)
    ensures Resumption(s, c, pc).0.approvals.records.Keys == s.approvals.records.Keys
    decreases ApproveRank(pc)
  {
    hide Rebuild, Updated, SameDescriptor;
    var (t, next) := Approve1(s, c, pc);
    if next.Proceed? && ApproveRank(next.pc) < ApproveRank(pc) { ResumptionKeepsIds(t, c, next.pc); }
  }

  /** An execution handed over by an approval call works for a known action id. */
  ghost predicate CanResume(s: Shared, c: ApproveCall) {
    var (t, r) := Resumption(s, c, Looking);
    WellKeyed(s.store) && (r.Some? ==> CanClaim(t.store, r.value))
  }

  // ----- steps of a thread that runs alone -----

  ghost function Advances(n: nat): seq<Event> {
    if n == 0 then [] else Advances(n - 1) + [Advance(0)]
  }

  lemma {:induction false} AdvancesAdd(n: nat, m: nat)
    ensures Advances(n) + Advances(m) == Advances(n + m)
  {
    if m > 0 {
      AdvancesAdd(n, m - 1);
      assert Advances(n) + Advances(m) == Advances(n) + Advances(m - 1) + [Advance(0)];
    }
  }

  /** First one step, then `n` more. */
  lemma AdvanceThen(events: seq<Event>, n: nat)
    ensures events + [Advance(0)] + Advances(n) == events + Advances(n + 1)
  {
    AdvancesAdd(1, n);
    assert Advances(1) == [Advance(0)] by { assert Advances(0) == []; }
    assert events + [Advance(0)] + Advances(n) == events + ([Advance(0)] + Advances(n));
  }

  lemma AdvancesThen(events: seq<Event>, n: nat, m: nat)
    ensures events + Advances(n) + Advances(m) == events + Advances(n + m)
  {
    AdvancesAdd(n, m);
    assert events + Advances(n) + Advances(m) == events + (Advances(n) + Advances(m));
  }

  lemma {:induction false} KeptStays(kept: bool, events: seq<Event>)
    ensures Run(kept, events).kept == kept
  {
    hide Enabled, Inv, LockStep, Execute1, Approve1;
    if events != [] { KeptStays(kept, events[..|events| - 1]); }
  }

  lemma QuietStep(kept: bool, events: seq<Event>, t: Thread)
    requires Run(kept, events).threads == map[0 := t] && Quiet(t)
    ensures Run(kept, events + [Advance(0)]) == AdvanceQuietly(Run(kept, events), 0)
  {
    hide Run, AdvanceQuietly, AdvanceRunning, AdvanceResuming, Inv;
    ActionSafety.RunExtends(kept, events, Advance(0));
  }

  /** Giving back what is held, one key after the other. */
  lemma {:induction false} LeavesAlone(kept: bool, events: seq<Event>, t: Thread) returns (n: nat)
    requires Run(kept, events).threads == map[0 := t] && t.Leaving?
    ensures Run(kept, events + Advances(n)) == Run(kept, events).(threads := AfterLeaving(t))
    decreases t.held
  {
    hide Run, Inv;
    var w := Run(kept, events);
    QuietStep(kept, events, t);
    assert w.threads - {0} == map[];
    assert forall x :: w.threads[0 := x] == map[0 := x];
    if t.held > 0 {
      var m := LeavesAlone(kept, events + [Advance(0)], t.(held := t.held - 1));
      n := m + 1;
      AdvanceThen(events, m);
    } else {
      n := 1;
      AdvanceThen(events, 0);
      assert events + [Advance(0)] + Advances(0) == events + [Advance(0)];
    }
  }

  ghost function AfterLeaving(t: Thread): map<nat, Thread>
    requires t.Leaving?
  {
    if t.resumed.Some? && t.outcome.Some? then
      map[0 := Resuming(t.resumed.value, t.answers, Closing(Approved, t.outcome.value))]
    else map[]
  }

  ghost function LockAnswered(t: Thread, granted: bool): Thread
    requires t.Running?
  {
    t.(lock := if granted then Granted else Barred, e := t.e.(acquired := granted))
  }

  lemma {:induction false} GivesBackAlone(kept: bool, events: seq<Event>, t: Thread) returns (n: nat)
    requires Run(kept, events).threads == map[0 := t] && Locking(t) && t.lock.GivingBack?
    ensures Run(kept, events + Advances(n)) == Run(kept, events).(threads := map[0 := LockAnswered(t, false)])
    decreases t.lock.left
  {
    hide Run, Taken, ScopeKeys, Inv;
    QuietStep(kept, events, t);
    assert forall x :: Run(kept, events).threads[0 := x] == map[0 := x];
    if t.lock.left > 0 {
      var m := GivesBackAlone(kept, events + [Advance(0)], t.(lock := GivingBack(t.lock.left - 1)));
      n := m + 1;
      AdvanceThen(events, m);
    } else {
      n := 1;
      AdvanceThen(events, 0);
      assert events + [Advance(0)] + Advances(0) == events + [Advance(0)];
    }
  }

  /** The first `n` keys can be taken. */
  ghost predicate Free(keys: seq<string>, n: nat, taken: set<string>)
    requires n <= |keys|
  {
    ResourceLocks.Distinct(keys[..n]) && ResourceLocks.Elements(keys[..n]) !! taken
  }

  /** Taking the keys one by one succeeds exactly when they are distinct and free. */
  lemma {:induction false} LocksAlone(kept: bool, events: seq<Event>, t: Thread) returns (n: nat)
    requires Run(kept, events).threads == map[0 := t] && Locking(t) && t.lock.Taking?
    requires t.lock.taken <= |ScopeKeys(t.r)| && Free(ScopeKeys(t.r), t.lock.taken, Run(kept, events).elsewhere)
    ensures var w := Run(kept, events);
      Run(kept, events + Advances(n)) == w.(threads := map[0 := LockAnswered(t, Grants(w.elsewhere, t.r))])
    decreases |ScopeKeys(t.r)| - t.lock.taken
  {
    hide Run, ScopeKeys, Taken, Inv;
    var w, keys, k := Run(kept, events), ScopeKeys(t.r), t.lock.taken;
    QuietStep(kept, events, t);
    assert forall x :: w.threads[0 := x] == map[0 := x];
    if k == |keys| {
      n := 1;
      assert keys[..k] == keys;
      AdvanceThen(events, 0);
      assert events + [Advance(0)] + Advances(0) == events + [Advance(0)];
    } else {
      TakenAlone(w, t);
      NextKey(keys, k, w.elsewhere);
      var m: nat;
      if Taken(w, keys[k]) {
        m := GivesBackAlone(kept, events + [Advance(0)], t.(lock := GivingBack(k)));
      } else {
        m := LocksAlone(kept, events + [Advance(0)], t.(lock := Taking(k + 1)));
      }
      n := m + 1;
      AdvanceThen(events, m);
    }
  }

  lemma TakenAlone(w: World, t: Thread)
    requires w.threads == map[0 := t] && t.Running? && t.lock.Taking? && t.lock.taken < |ScopeKeys(t.r)|
    ensures var (keys, k) := (ScopeKeys(t.r), t.lock.taken);
      Taken(w, keys[k]) <==> keys[k] in w.elsewhere || keys[k] in keys[..k]
  {
    hide ScopeKeys;
    assert Held(w.threads[0]) == ScopeKeys(t.r)[..t.lock.taken];
  }

  lemma NextKey(keys: seq<string>, k: nat, taken: set<string>)
    requires k < |keys| && Free(keys, k, taken)
    ensures Free(keys, k + 1, taken) <==> keys[k] !in taken && keys[k] !in keys[..k]
    ensures !Free(keys, k + 1, taken) ==> !(ResourceLocks.Distinct(keys) && ResourceLocks.Elements(keys) !! taken)
  {
    assert keys[..k + 1] == keys[..k] + [keys[k]];
    assert keys[k] in keys && keys[k] in keys[..k + 1];
    if keys[k] in keys[..k] {
      var j :| 0 <= j < k && keys[..k][j] == keys[k];
      assert keys[..k + 1][j] == keys[..k + 1][k] && keys[j] == keys[k];
    }
  }

  // ----- an execution that runs alone -----

  /** Past its locks, and with a fresh approval id. */
  ghost predicate Only(w: World, t: Thread) {
    && w.threads == map[0 := t] && t.Running? && !Locking(t)
    && (t.pc.Claiming? || t.pc.Planning? || t.pc.Asking? ==> t.e.approvalId !in w.shared.approvals.records)
  }

  /** The world that differs in what was shared, in who runs, and in who wrote last. */
  ghost predicate Reaches(v: World, w: World, s: Shared, threads: map<nat, Thread>) {
    v == w.(shared := s, threads := threads, wrote := v.wrote)
  }

  /** An execution is over: nobody runs, but for the approval call it goes back to. */
  ghost predicate EndsWith(threads: map<nat, Thread>, resumed: Option<ApproveCall>, next: Next) {
    if next.Returned? && resumed.Some? then
      && threads.Keys == {0} && threads[0].Resuming? && threads[0].call == resumed.value
      && threads[0].apc == Closing(Approved, next.record.status)
    else threads == map[]
  }

  /** Where one step leads. */
  ghost function After(t: Thread, next: Next): Thread
    requires t.Running?
  {
    match next
    case Continue(pc) => t.(pc := pc)
    case Returned(record, _, _) => Left(t, Some(record.status))
    case Raised => Left(t, None)
  }

  lemma ReachesThen(x: World, v: World, w: World, s: Shared, u: Shared, threads: map<nat, Thread>)
    requires Reaches(v, w, s, threads) && Reaches(x, v, u, x.threads)
    ensures Reaches(x, w, u, x.threads)
  {
  }

  /** One step of it, alone. */
  lemma OneStep(kept: bool, events: seq<Event>, t: Thread)
    requires Only(Run(kept, events), t)
    ensures var w := Run(kept, events);
      var (s, next) := Execute1(w.shared, t.r, t.e, ResumedId(t), kept, t.pc);
      Reaches(Run(kept, events + [Advance(0)]), w, s, map[0 := After(t, next)])
  {
    hide Run, Execute1, OneDispatch, AdvanceQuietly, AdvanceRunning, AdvanceResuming, Held;
    KeptStays(kept, events);
    ActionSafety.RunExtends(kept, events, Advance(0));
    StepAlone(Run(kept, events), t);
  }

  lemma StepAlone(w: World, t: Thread)
    requires WellKeyed(w.shared.store) && w.threads == map[0 := t] && t.Running?
    ensures var (s, next) := Execute1(w.shared, t.r, t.e, ResumedId(t), w.kept, t.pc);
      Reaches(AdvanceRunning(w, 0), w, s, map[0 := After(t, next)])
  {
    hide Execute1, WellKeyed, Held;
    assert forall x :: w.threads[0 := x] == map[0 := x];
  }

  lemma StaysOnly(s: Shared, t: Thread, kept: bool)
    requires WellKeyed(s.store) && t.Running?
    requires t.pc.Claiming? || t.pc.Planning? || t.pc.Asking? ==> t.e.approvalId !in s.approvals.records
    ensures var (u, next) := Execute1(s, t.r, t.e, ResumedId(t), kept, t.pc);
      next.Continue? ==>
        && (next.pc.Claiming? || next.pc.Planning? || next.pc.Asking? ==> t.e.approvalId !in u.approvals.records)
        && Rank(next.pc) < Rank(t.pc) && !next.pc.Claiming? && (next.pc.Planning? ==> t.pc.Claiming?)
  {
    hide PlanFor, Conclude, RequestDigest, ApprovalFor, Claimed, Updated;
  }

  lemma RunsCanClaim(kept: bool, events: seq<Event>, t: Thread)
    requires Run(kept, events).threads == map[0 := t] && t.Running?
    ensures CanClaim(Run(kept, events).shared.store, t.r)
  {
    hide Run, RequestDigest, OneDispatch;
    var w := Run(kept, events);
    assert ThreadNamed(w, w.threads[0]);
    assert forall id :: id in w.shared.store.records ==> Names(w, id, w.shared.store.records[id].key);
  }

  /** From its plan on: the steps to its end, and the locks given back. */
  lemma {:induction false} RestCarriedOut(kept: bool, events: seq<Event>, t: Thread) returns (n: nat)
    requires Only(Run(kept, events), t) && !t.pc.Claiming?
    ensures var w := Run(kept, events);
      && WellKeyed(w.shared.store)
      && var (s, next) := Execution(w.shared, t.r, t.e, ResumedId(t), kept, t.pc);
      var v := Run(kept, events + Advances(n));
      Reaches(v, w, s, v.threads) && EndsWith(v.threads, t.resumed, next)
    decreases Rank(t.pc)
  {
    hide Run, Execute1, Held, CanClaim, Reaches;
    var w := Run(kept, events);
    RunIsKeyed(kept, events);
    var (s, next) := Execute1(w.shared, t.r, t.e, ResumedId(t), kept, t.pc);
    StepsOn(kept, events, t);
    var m: nat;
    if next.Continue? {
      m := RestCarriedOut(kept, events + [Advance(0)], After(t, next));
    } else {
      m := LeavesNow(kept, events + [Advance(0)], t, next);
    }
    n := m + 1;
    AdvanceThen(events, m);
    var u := Execution(w.shared, t.r, t.e, ResumedId(t), kept, t.pc).0;
    ReachesThen(Run(kept, events + Advances(n)), Run(kept, events + [Advance(0)]), w, s, u, map[0 := After(t, next)]);
  }

  /** After one step it still runs alone, or is about to leave. */
  lemma StepsOn(kept: bool, events: seq<Event>, t: Thread)
    requires Only(Run(kept, events), t)
    ensures var w := Run(kept, events);
      var (s, next) := Execute1(w.shared, t.r, t.e, ResumedId(t), kept, t.pc);
      var v := Run(kept, events + [Advance(0)]);
      && Reaches(v, w, s, map[0 := After(t, next)])
      && v.threads == map[0 := After(t, next)] && v.shared == s && WellKeyed(s.store)
      && (next.Continue? ==>
            && Rank(next.pc) < Rank(t.pc) && !next.pc.Claiming?
            && (!t.pc.Claiming? ==> Only(v, After(t, next)))
            && (next.pc.Planning? ==> t.e.approvalId !in s.approvals.records))
  {
    hide Run, Execute1, Held;
    var w := Run(kept, events);
    OneStep(kept, events, t);
    RunIsKeyed(kept, events);
    RunIsKeyed(kept, events + [Advance(0)]);
    StaysOnly(w.shared, t, kept);
  }

  /** An execution that is over gives back its locks. */
  lemma LeavesNow(kept: bool, events: seq<Event>, t: Thread, next: Next) returns (m: nat)
    requires t.Running? && !next.Continue? && Run(kept, events).threads == map[0 := After(t, next)]
    ensures var w := Run(kept, events);
      var v := Run(kept, events + Advances(m));
      Reaches(v, w, w.shared, v.threads) && EndsWith(v.threads, t.resumed, next)
  {
    hide Run, Held;
    m := LeavesAlone(kept, events, After(t, next));
  }

  lemma RunIsKeyed(kept: bool, events: seq<Event>)
    ensures WellKeyed(Run(kept, events).shared.store)
  {
  }

  /** From the lock on. */
  lemma PlanCarriedOut(kept: bool, events: seq<Event>, t: Thread) returns (n: nat)
    requires Run(kept, events).threads == map[0 := t] && t.Running? && t.pc.Planning? && t.lock == Taking(0)
    requires t.e.approvalId !in Run(kept, events).shared.approvals.records
    ensures var w := Run(kept, events);
      && WellKeyed(w.shared.store)
      && var (s, next) := Execution(w.shared, t.r, Heard(t.e, w.elsewhere, t.r), ResumedId(t), kept, Planning);
      var v := Run(kept, events + Advances(n));
      Reaches(v, w, s, v.threads) && EndsWith(v.threads, t.resumed, next)
  {
    hide Run, Execution, ScopeKeys, Grants, EndsWith, CanClaim, Held;
    var w := Run(kept, events);
    var k := LocksAlone(kept, events, t);
    var m := RestCarriedOut(kept, events + Advances(k), LockAnswered(t, Grants(w.elsewhere, t.r)));
    n := k + m;
    AdvancesThen(events, k, m);
  }

  /** An execution that nothing interrupts is a run of its steps. */
  lemma CarriedOut(
    kept: bool, events: seq<Event>, r: Request, e: Answers, resumed: Option<ApproveCall>
  ) returns (n: nat)
    requires Run(kept, events).threads == map[0 := Started(r, e, resumed)]
    requires e.approvalId !in Run(kept, events).shared.approvals.records
    ensures var w := Run(kept, events);
      && CanClaim(w.shared.store, r)
      && var id := if resumed.Some? then Some(resumed.value.approvalId) else None;
      var (s, next) := Execution(w.shared, r, Heard(e, w.elsewhere, r), id, kept, Pc.Claiming);
      var v := Run(kept, events + Advances(n));
      Reaches(v, w, s, v.threads) && EndsWith(v.threads, resumed, next)
  {
    hide Run, Execution, Claimed, Held, RequestDigest, ScopeKeys, Grants, Reaches, Execute1, EndsWith;
    var w, t := Run(kept, events), Started(r, e, resumed);
    RunsCanClaim(kept, events, t);
    StepsOn(kept, events, t);
    ClaimStep(w.shared, r, e, Heard(e, w.elsewhere, r), ResumedId(t), kept);
    var (s, next) := Execute1(w.shared, r, e, ResumedId(t), kept, Pc.Claiming);
    var v := Run(kept, events + [Advance(0)]);
    SameElsewhere(v, w, s, map[0 := After(t, next)]);
    var m: nat;
    if next.Continue? {
      m := PlanCarriedOut(kept, events + [Advance(0)], After(t, next));
    } else {
      m := LeavesNow(kept, events + [Advance(0)], t, next);
    }
    n := m + 1;
    AdvanceThen(events, m);
    var u := Execution(w.shared, r, Heard(e, w.elsewhere, r), ResumedId(t), kept, Pc.Claiming).0;
    ReachesThen(Run(kept, events + Advances(n)), v, w, s, u, map[0 := After(t, next)]);
  }

  lemma SameElsewhere(v: World, w: World, s: Shared, threads: map<nat, Thread>)
    requires Reaches(v, w, s, threads)
    ensures v.elsewhere == w.elsewhere
  {
  }

  /** The claim asks nobody anything. */
  lemma ClaimStep(s: Shared, r: Request, e: Answers, heard: Answers, approval: Option<nat>, kept: bool)
    requires CanClaim(s.store, r)
    ensures var (t, next) := Execute1(s, r, e, approval, kept, Pc.Claiming);
      && WellKeyed(t.store)
      && (next.Continue? ==> next.pc.Planning?)
      && Execution(s, r, heard, approval, kept, Pc.Claiming) ==
           if next.Continue? then Execution(t, r, heard, approval, kept, Planning) else (t, next)
  {
    hide RequestDigest;
    ClaimingCarriesOut(s, r, heard, approval, kept);
  }

  /** An `execute` call from its start to its end. */
  lemma ExecutedAlone(kept: bool, events: seq<Event>, r: Request, e: Answers, taken: set<string>) returns (n: nat)
    requires var w := Run(kept, events);
      && w.threads == map[] && (r.actionId in w.ids ==> w.ids[r.actionId] == r.key)
      && e.approvalId !in w.shared.approvals.records
    ensures var w := Run(kept, events);
      && CanClaim(w.shared.store, r)
      && var v := Run(kept, Executed(events, r, e, taken, n));
      && v.threads == map[] && v.ids == w.ids[r.actionId := r.key]
      && v.shared == Execution(w.shared, r, Heard(e, taken, r), None, kept, Pc.Claiming).0
  {
    hide Run, Execution, ScopeKeys, Grants, OneDispatch, WellKeyed;
    ActionSafety.RunExtends(kept, events, Elsewhere(taken));
    ActionSafety.RunExtends(kept, events + [Elsewhere(taken)], StartExecute(0, r, e));
    n := CarriedOut(kept, events + [Elsewhere(taken)] + [StartExecute(0, r, e)], r, e, None);
  }

  /** The events of one uninterrupted `execute` while others hold `taken`. */
  ghost function Executed(es: seq<Event>, r: Request, e: Answers, taken: set<string>, n: nat): seq<Event> {
    es + [Elsewhere(taken)] + [StartExecute(0, r, e)] + Advances(n)
  }

  // ----- an approval call that runs alone -----

  lemma OneApprovalStep(kept: bool, events: seq<Event>, t: Thread)
    requires Run(kept, events).threads == map[0 := t] && t.Resuming?
    ensures var w := Run(kept, events);
      var v := Run(kept, events + [Advance(0)]);
      var (s, next) := Approve1(w.shared, t.call, t.apc);
      && v.shared == s && v.ids == w.ids && v.elsewhere == w.elsewhere
      && (next.Proceed? ==> v.threads == map[0 := t.(apc := next.pc)] && ApproveRank(next.pc) < ApproveRank(t.apc))
      && (next.HandOver? ==> v.threads == map[0 := Started(next.request, t.answers, Some(t.call))])
      && (next.Ended? ==> v.threads == map[])
  {
    hide Run, AdvanceQuietly, AdvanceRunning, AdvanceResuming, Inv, Approve1;
    ActionSafety.RunExtends(kept, events, Advance(0));
    ApprovalStepAlone(Run(kept, events), t);
  }

  lemma ApprovalStepAlone(w: World, t: Thread)
    requires w.threads == map[0 := t] && t.Resuming?
    ensures var v := AdvanceResuming(w, 0);
      var (s, next) := Approve1(w.shared, t.call, t.apc);
      && v.shared == s && v.ids == w.ids && v.elsewhere == w.elsewhere
      && (next.Proceed? ==> v.threads == map[0 := t.(apc := next.pc)] && ApproveRank(next.pc) < ApproveRank(t.apc))
      && (next.HandOver? ==> v.threads == map[0 := Started(next.request, t.answers, Some(t.call))])
      && (next.Ended? ==> v.threads == map[])
  {
    hide Rebuild, Updated, ClaimedApproval, Completed, SameDescriptor;
    assert w.threads - {0} == map[];
    assert forall x :: w.threads[0 := x] == map[0 := x];
  }

  lemma {:induction false} ResumedAlone(kept: bool, events: seq<Event>, t: Thread) returns (n: nat)
    requires Run(kept, events).threads == map[0 := t] && t.Resuming?
    ensures var w := Run(kept, events);
      var v := Run(kept, events + Advances(n));
      var (s, r) := Resumption(w.shared, t.call, t.apc);
      && v.shared == s && v.elsewhere == w.elsewhere
      && v.threads == if r.Some? then map[0 := Started(r.value, t.answers, Some(t.call))] else map[]
    decreases ApproveRank(t.apc)
  {
    hide Run, Approve1;
    OneApprovalStep(kept, events, t);
    var (s, next) := Approve1(Run(kept, events).shared, t.call, t.apc);
    if next.Proceed? {
      var m := ResumedAlone(kept, events + [Advance(0)], t.(apc := next.pc));
      n := m + 1;
      AdvanceThen(events, m);
    } else {
      n := 1;
      AdvanceThen(events, 0);
      assert events + [Advance(0)] + Advances(0) == events + [Advance(0)];
    }
  }

  /** The execution a call was handed over to, and the closing of the approval. */
  lemma HandedOver(events: seq<Event>, c: ApproveCall, e: Answers, r: Request) returns (n: nat)
    requires var w := Run(true, events);
      w.threads == map[0 := Started(r, e, Some(c))] && e.approvalId !in w.shared.approvals.records
    ensures var w := Run(true, events);
      && CanClaim(w.shared.store, r)
      && var (u, next) := Execution(w.shared, r, Heard(e, w.elsewhere, r), Some(c.approvalId), true, Pc.Claiming);
      && Run(true, events + Advances(n)).threads == map[]
      && Run(true, events + Advances(n)).shared == Closed(u, c, next)
  {
    hide Run, Execution, Approve1, ScopeKeys, Grants, Inv;
    var w := Run(true, events);
    n := CarriedOut(true, events, r, e, Some(c));
    var (u, next) := Execution(w.shared, r, Heard(e, w.elsewhere, r), Some(c.approvalId), true, Pc.Claiming);
    if next.Returned? {
      var v := Run(true, events + Advances(n));
      assert v.threads == map[0 := v.threads[0]];
      OneApprovalStep(true, events + Advances(n), v.threads[0]);
      ClosingStep(u, c, next.record.status);
      assert events + Advances(n) + [Advance(0)] == events + Advances(n + 1);
      n := n + 1;
    }
  }

  lemma ClosingStep(s: Shared, c: ApproveCall, status: ActionStatus)
    ensures Approve1(s, c, Closing(Approved, status))
         == (s.(approvals := Completed(s.approvals, c.approvalId, Approved, status)), Ended)
  {
  }

  /** The events of one uninterrupted approval call while others hold `taken`. */
  ghost function Called(es: seq<Event>, c: ApproveCall, e: Answers, taken: set<string>, n: nat): seq<Event> {
    es + [Elsewhere(taken)] + [StartApprove(0, c, e)] + Advances(n)
  }

  lemma StartedAlone(events: seq<Event>, c: ApproveCall, e: Answers, taken: set<string>) returns (n: nat)
    requires Run(true, events).threads == map[]
    ensures var w := Run(true, events);
      var v := Run(true, Called(events, c, e, taken, n));
      var (s, r) := Resumption(w.shared, c, Looking);
      && v.shared == s && v.elsewhere == taken
      && v.threads == if r.Some? then map[0 := Started(r.value, e, Some(c))] else map[]
  {
    hide Run, Approve1, Resumption;
    KeptStays(true, events);
    ActionSafety.RunExtends(true, events, Elsewhere(taken));
    ActionSafety.RunExtends(true, events + [Elsewhere(taken)], StartApprove(0, c, e));
    n := ResumedAlone(true, events + [Elsewhere(taken)] + [StartApprove(0, c, e)], Resuming(c, e, Looking));
  }

  /** An `approve_pending` call from its start to its end. */
  lemma ApprovedAlone(events: seq<Event>, c: ApproveCall, e: Answers, taken: set<string>) returns (n: nat)
    requires var w := Run(true, events); w.threads == map[] && e.approvalId !in w.shared.approvals.records
    ensures var w := Run(true, events);
      && CanResume(w.shared, c)
      && Run(true, Called(events, c, e, taken, n)).threads == map[]
      && Run(true, Called(events, c, e, taken, n)).shared == ApprovalCall(w.shared, c, e, true, taken)
  {
    hide Run, Execution, Resumption, CanClaim, Closed, ScopeKeys, Grants;
    var w := Run(true, events);
    n := StartedAlone(events, c, e, taken);
    var (t, r) := Resumption(w.shared, c, Looking);
    RunIsKeyed(true, events);
    if r.Some? {
      ResumptionKeepsIds(w.shared, c, Looking);
      var m := HandedOver(Called(events, c, e, taken, n), c, e, r.value);
      AdvancesThen(events + [Elsewhere(taken)] + [StartApprove(0, c, e)], n, m);
      n := n + m;
    }
  }
}
