/** One concrete run in which an approved, dispatched action ends with its approval failed. */
module ApprovalWitness {
  import opened Options
  import opened Statuses
  import opened Texts
  import opened ActionRequests
  import opened Truths
  import opened ActionStores
  import opened ApprovalStores
  import opened Coordination
  import opened ActionRuns
  import opened ActionSafety
  import opened ApprovalFailures

  const READER := Tool("read", "1", true, "", false, true)

  function Asked(challenge: Option<nat>): Request {
    Request(7, "k", "h", READER, map[], Some("p"), [], [], false, false, challenge, None, [])
  }

  function Told(decision: Decision): Answers {
    Answers(true, None, true, decision, true, 1, 2, 0, 10,
            Some(Invocation(Success, DispatchAcknowledged, true, None)), None, Verification(Unverified, []))
  }

  function Call(tool: Option<Tool>, recovery: bool): ApproveCall {
    ApproveCall(1, "h", "p", Approve, tool, true, "h", Some("p"), false, false, recovery, 5)
  }

  const STEP := Advance(0)
  const ASKED: seq<Event> :=
    [StartExecute(0, Asked(None), Told(RequireConfirmationFirst)), STEP, STEP, STEP, STEP, STEP, STEP]
  const RESUMED: seq<Event> := [StartApprove(0, Call(Some(READER), false), Told(Allow)), STEP, STEP, STEP]
  const DISPATCHED: seq<Event> := [STEP, STEP, STEP, STEP, STEP, STEP, STEP, STEP]
  const SENT: seq<Dispatch> := [Dispatch("k", 7, Some(1), true, "read", map[])]

  function Stored(status: ActionStatus, result: Option<ActionResult>): Store {
    Store(map[7 := Record(7, "k", RequestDigest(Asked(None)), "h", "read", status, result, map[])], map["k" := 7])
  }

  function Continuation(): Approval {
    ApprovalFor(Asked(None), 1, 2, 0, 10)
  }

  function Waiting(a: Approval): Approvals {
    Approvals(map[1 := a], map[1 := Asked(None)])
  }

  /** The execution that asks, and the approved one. */
  function Asks(pc: Pc, lock: Lock): Thread {
    Running(Asked(None), Told(RequireConfirmationFirst), pc, None, lock)
  }

  function Executes(pc: Pc, lock: Lock): Thread {
    Running(Asked(Some(2)), Told(Allow), pc, Some(Call(Some(READER), false)), lock)
  }

  function Choosing(pc: ApprovePc): Thread {
    Resuming(Call(Some(READER), false), Told(Allow), pc)
  }

  const ENDING := Ending(RequireConfirmation, Some(map[]), Some(AwaitingApproval(1)))

  /** The world while the principal is being asked. */
  function Asking0(): World {
    World(true, Shared(Stored(Planned, None), Approvals(map[], map[]), []), map[], {}, map[7 := "k"], {7}, map[], [])
  }

  /** The world when the principal is asked. */
  function First(): World {
    Asking0().(shared := Shared(Stored(RequireConfirmation, Some(AwaitingApproval(1))), Waiting(Continuation()), []),
               wrote := map[7 := Asked(None)])
  }

  /** The world when the approved execution is handed over. */
  function Second(): World {
    First().(
      shared := First().shared.(approvals := Waiting(Decide(Continuation(), Approve))),
      notes := [DecisionNote(1, "h", "p", Approve, 5)])
  }

  /** The approved execution under way. */
  function Underway(status: ActionStatus, result: Option<ActionResult>, trace: seq<Dispatch>): World {
    Second().(shared := Second().shared.(store := Stored(status, result), trace := trace))
  }

  /** The world when it has been carried out. */
  function Third(): World {
    Second().(
      shared := Shared(Stored(Succeeded, None), Waiting(Decide(Continuation(), Approve).(outcome := Some(Succeeded))),
        SENT),
      wrote := map[7 := Asked(Some(2))])
  }

  // ----- single steps -----

  /** One more event. */
  lemma Next(events: seq<Event>, ev: Event, w: World, v: World)
    requires Run(true, events) == w && Enabled(w, ev) && Apply(w, ev) == v
    ensures Run(true, events + [ev]) == v
  {
    RunExtends(true, events, ev);
  }

  lemma NoKeys(challenge: Option<nat>)
    ensures ScopeKeys(Asked(challenge)) == []
  {
  }

  /** One more step of the only execution. */
  lemma NextStep(events: seq<Event>, w: World, t: Thread, s: Shared, pc: Pc)
    requires Run(true, events) == w && w.kept && w.threads == map[0 := t] && t.Running?
    requires !t.pc.Writing? && !Locking(t) && (t.pc.Asking? ==> t.e.approvalId !in w.shared.approvals.records)
    requires Execute1(w.shared, t.r, t.e, ResumedId(t), true, t.pc) == (s, Continue(pc))
    ensures Run(true, events + [STEP]) == w.(shared := s, threads := map[0 := t.(pc := pc)])
  {
    hide Run, Execute1, AdvanceRunning, AdvanceQuietly, AdvanceResuming, OneDispatch;
    RunExtends(true, events, STEP);
    StepsAlone(w, t, s, pc);
  }

  lemma StepsAlone(w: World, t: Thread, s: Shared, pc: Pc)
    requires WellKeyed(w.shared.store) && w.kept && w.threads == map[0 := t] && t.Running? && !t.pc.Writing?
    requires Execute1(w.shared, t.r, t.e, ResumedId(t), true, t.pc) == (s, Continue(pc))
    ensures AdvanceRunning(w, 0) == w.(shared := s, threads := map[0 := t.(pc := pc)])
  {
    hide Execute1, WellKeyed;
    assert w.threads[0 := t.(pc := pc)] == map[0 := t.(pc := pc)];
  }

  /** It has no keys to take. */
  lemma NextLock(events: seq<Event>, w: World, t: Thread)
    requires Run(true, events) == w && w.threads == map[0 := t] && t.Running? && t.pc.Planning? && t.lock == Taking(0)
    requires ScopeKeys(t.r) == [] && t.e.acquired
    ensures Run(true, events + [STEP]) == w.(threads := map[0 := t.(lock := Granted)])
  {
    hide Run, AdvanceQuietly, AdvanceRunning, AdvanceResuming, Inv;
    LocksNothing(w, t);
    RunExtends(true, events, STEP);
  }

  lemma LocksNothing(w: World, t: Thread)
    requires w.threads == map[0 := t] && t.Running? && t.pc.Planning? && t.lock == Taking(0)
    requires ScopeKeys(t.r) == [] && t.e.acquired
    ensures AdvanceQuietly(w, 0) == w.(threads := map[0 := t.(lock := Granted)])
  {
    hide ScopeKeys, Taken;
    assert w.threads[0 := t.(lock := Granted)] == map[0 := t.(lock := Granted)];
  }

  /** It writes its outcome, and then leaves. */
  lemma NextWrite(events: seq<Event>, w: World, t: Thread, s: Shared, record: Record)
    requires Run(true, events) == w && w.kept && w.threads == map[0 := t] && t.Running? && t.pc.Writing?
    requires t.lock.Granted? && ScopeKeys(t.r) == []
    requires Execute1(w.shared, t.r, t.e, ResumedId(t), true, t.pc) == (s, Returned(record, false, false))
    ensures Run(true, events + [STEP]) == Wrote(w, t, s, record)
  {
    hide Run, Execute1, ScopeKeys, Inv, AdvanceQuietly;
    RunExtends(true, events, STEP);
    assert Held(t) == [];
    assert w.threads[0 := Departing(t, record)] == map[0 := Departing(t, record)];
  }

  function Departing(t: Thread, record: Record): Thread
    requires t.Running?
  {
    Leaving([], 0, t.resumed, t.e, Some(record.status))
  }

  function Wrote(w: World, t: Thread, s: Shared, record: Record): World
    requires t.Running?
  {
    w.(shared := s, threads := map[0 := Departing(t, record)], wrote := w.wrote[t.r.actionId := t.r])
  }

  lemma NextLeave(events: seq<Event>, w: World, t: Thread, s: Shared, record: Record)
    requires t.Running? && Run(true, events) == Wrote(w, t, s, record)
    ensures Run(true, events + [STEP]) == Wrote(w, t, s, record).(
      threads := if t.resumed.Some? then map[0 := Resuming(t.resumed.value, t.e, Closing(Approved, record.status))]
        else map[])
  {
    hide Run, AdvanceRunning, AdvanceResuming, Inv, Held, Keyed, OneDispatch, LockStep;
    RunExtends(true, events, STEP);
    var v := Wrote(w, t, s, record);
    assert v.threads - {0} == map[];
    assert forall u :: v.threads[0 := u] == map[0 := u];
  }

  // ----- what the steps compute -----

  lemma Plans()
    ensures PlanFor(Asked(None), Told(RequireConfirmationFirst), true) == Ask(map[])
    ensures PlanFor(Asked(Some(2)), Told(Allow), true) == Go(map[], [])
    ensures Conclude(Asked(Some(2)), Told(Allow), map[], []) == Ending(Succeeded, Some(map[]), None)
  {
  }

  lemma Writes(from: ActionStatus, was: Option<ActionResult>, status: ActionStatus, result: Option<ActionResult>)
    ensures Updated(Stored(from, was), 7, status, result, Some(map[])) == Stored(status, result)
  {
  }

  lemma Claims()
    ensures ClaimedApproval(Waiting(Continuation()), 1, "h", "p", Approve, 5)
         == (Waiting(Decide(Continuation(), Approve)), Some(Decide(Continuation(), Approve)))
    ensures Continuation().status.Pending?
  {
    assert map[1 := Continuation()][1 := Decide(Continuation(), Approve)] == map[1 := Decide(Continuation(), Approve)];
  }

  /** The request rebuilt from the continuation. */
  lemma Rebuilt()
    ensures Rebuild(Decide(Continuation(), Approve), READER, "h", Some("p"), false, false) == Some(Asked(Some(2)))
    ensures RequestDigest(Asked(Some(2))) == RequestDigest(Asked(None))
  {
    CollapseKeepsSpaceless("k");
    assert Continuation().arguments == map[];
  }

  lemma ClaimsAgain()
    ensures var s := Stored(RequireConfirmation, Some(AwaitingApproval(1)));
      Claimed(s, Asked(Some(2))) == (s, ActionClaim(s.records[7], true, false))
  {
    hide RequestDigest;
    Rebuilt();
  }

  /** The first execution, step by step. */
  lemma AskingSteps()
    ensures var (r, e) := (Asked(None), Told(RequireConfirmationFirst));
      && Execute1(Boot(true).shared, r, e, None, true, Pc.Claiming) == (Asking0().shared, Continue(Planning))
      && Execute1(Asking0().shared, r, e, None, true, Planning) == (Asking0().shared, Continue(Asking(map[])))
      && Execute1(Asking0().shared, r, e, None, true, Asking(map[])) == (AskedShared(), Continue(Writing(ENDING)))
      && Execute1(AskedShared(), r, e, None, true, Writing(ENDING))
           == (First().shared, Returned(First().shared.store.records[7], false, false))
  {
    hide RequestDigest, PlanFor, ApprovalFor, Updated;
    Plans();
    Writes(Planned, None, RequireConfirmation, Some(AwaitingApproval(1)));
  }

  function AskedShared(): Shared {
    Asking0().shared.(approvals := Waiting(Continuation()))
  }

  const DONE := Ending(Succeeded, Some(map[]), None)

  function Carried(status: ActionStatus, result: Option<ActionResult>, trace: seq<Dispatch>): Shared {
    Underway(status, result, trace).shared
  }

  /** The approved execution, step by step. */
  lemma ApprovedSteps()
    ensures var (r, e) := (Asked(Some(2)), Told(Allow));
      && Execute1(Second().shared, r, e, Some(1), true, Pc.Claiming) == (Second().shared, Continue(Planning))
      && Execute1(Second().shared, r, e, Some(1), true, Planning) == (Second().shared, Continue(Committing(map[], [])))
      && Execute1(Second().shared, r, e, Some(1), true, Committing(map[], []))
           == (Carried(Executing, Some(Intended([])), []), Continue(Dispatching(map[], [])))
  {
    hide RequestDigest, PlanFor, Conclude, ApprovalFor, Updated, Claimed;
    Plans();
    ClaimsAgain();
    Writes(RequireConfirmation, Some(AwaitingApproval(1)), Executing, Some(Intended([])));
  }

  lemma DispatchedSteps()
    ensures var (r, e) := (Asked(Some(2)), Told(Allow));
      && Execute1(Carried(Executing, Some(Intended([])), []), r, e, Some(1), true, Dispatching(map[], []))
           == (Carried(Executing, Some(Intended([])), SENT), Continue(Writing(DONE)))
      && Execute1(Carried(Executing, Some(Intended([])), SENT), r, e, Some(1), true, Writing(DONE))
           == (Carried(Succeeded, None, SENT), Returned(Stored(Succeeded, None).records[7], false, false))
  {
    hide RequestDigest, Conclude, ApprovalFor, Updated;
    Plans();
    Writes(Executing, Some(Intended([])), Succeeded, None);
    var none: seq<Dispatch> := [];
    assert none + [Dispatch("k", 7, Some(1), true, "read", map[])] == SENT;
    assert !Refused(Told(Allow).Gateway());
  }

  // ----- the run -----

  lemma BootFirst()
    ensures Run(true, []) == Boot(true)
  {
  }

  lemma ClaimedFirst()
    ensures Run(true, ASKED[..2]) == Asking0().(threads := map[0 := Asks(Planning, Taking(0))])
  {
    hide Run, RequestDigest, Execute1, Held, ScopeKeys, AdvanceQuietly, AdvanceRunning, AdvanceResuming;
    hide ApprovalFor, Inv;
    BootFirst();
    AskingSteps();
    var none: seq<Event> := [];
    var w1 := Boot(true).(threads := map[0 := Asks(Pc.Claiming, Taking(0))], ids := map[7 := "k"], mixed := {7});
    Next(none, ASKED[0], Boot(true), w1);
    NextStep(none + [ASKED[0]], w1, Asks(Pc.Claiming, Taking(0)), Asking0().shared, Planning);
    assert none + [ASKED[0]] + [STEP] == ASKED[..2];
  }

  lemma AskingFirst()
    ensures Run(true, ASKED[..4]) == Asking0().(threads := map[0 := Asks(Asking(map[]), Granted)])
  {
    hide Run, RequestDigest, Execute1, Held, ScopeKeys, AdvanceQuietly, AdvanceRunning, AdvanceResuming;
    hide ApprovalFor, Inv;
    ClaimedFirst();
    AskingSteps();
    NoKeys(None);
    var w2 := Asking0().(threads := map[0 := Asks(Planning, Taking(0))]);
    NextLock(ASKED[..2], w2, Asks(Planning, Taking(0)));
    var w3 := Asking0().(threads := map[0 := Asks(Planning, Granted)]);
    NextStep(ASKED[..2] + [STEP], w3, Asks(Planning, Granted), Asking0().shared, Asking(map[]));
    assert ASKED[..2] + [STEP] + [STEP] == ASKED[..4];
  }

  lemma AskedFirst()
    ensures Run(true, ASKED) == First()
  {
    hide Run, RequestDigest, Execute1, Held, ScopeKeys, AdvanceQuietly, AdvanceRunning, AdvanceResuming;
    hide ApprovalFor, Inv;
    AskingFirst();
    AskingSteps();
    NoKeys(None);
    var w1 := Asking0().(threads := map[0 := Asks(Asking(map[]), Granted)]);
    var w2 := Asking0().(shared := AskedShared(), threads := map[0 := Asks(Writing(ENDING), Granted)]);
    NextStep(ASKED[..4], w1, Asks(Asking(map[]), Granted), AskedShared(), Writing(ENDING));
    var record := First().shared.store.records[7];
    NextWrite(ASKED[..4] + [STEP], w2, Asks(Writing(ENDING), Granted), First().shared, record);
    NextLeave(ASKED[..4] + [STEP] + [STEP], w2, Asks(Writing(ENDING), Granted), First().shared, record);
    assert ASKED[..4] + [STEP] + [STEP] + [STEP] == ASKED;
  }

  lemma LookedFirst()
    ensures Run(true, ASKED + RESUMED[..2]) == First().(threads := map[0 := Choosing(Settling)])
  {
    hide Run, RequestDigest, Rebuild, Updated, ApprovalFor, ClaimedApproval, Inv, Completed, Held;
    hide AdvanceQuietly, AdvanceRunning;
    AskedFirst();
    Claims();
    var w1 := First().(threads := map[0 := Choosing(Looking)]);
    Next(ASKED, RESUMED[0], First(), w1);
    Next(ASKED + [RESUMED[0]], STEP, w1, First().(threads := map[0 := Choosing(Settling)]));
    assert ASKED + [RESUMED[0]] + [STEP] == ASKED + RESUMED[..2];
  }

  lemma ApprovedFirst()
    ensures Run(true, ASKED + RESUMED[..3]) ==
      Second().(threads := map[0 := Choosing(Acting(Decide(Continuation(), Approve)))])
  {
    hide Run, RequestDigest, Rebuild, Updated, ApprovalFor, ClaimedApproval, Inv, Completed, Held;
    hide AdvanceQuietly, AdvanceRunning;
    LookedFirst();
    Claims();
    var w2 := First().(threads := map[0 := Choosing(Settling)]);
    var w3 := Second().(threads := map[0 := Choosing(Acting(Decide(Continuation(), Approve)))]);
    Next(ASKED + RESUMED[..2], STEP, w2, w3);
    assert ASKED + RESUMED[..2] + [STEP] == ASKED + RESUMED[..3];
  }

  lemma ResumedSecond()
    ensures Run(true, ASKED + RESUMED) == Second().(threads := map[0 := Executes(Pc.Claiming, Taking(0))])
  {
    hide Run, RequestDigest, Rebuild, Execute1, Updated, Completed, ClaimedApproval, Inv, Held;
    hide AdvanceQuietly, AdvanceRunning;
    hide Created, ScopeKeys, DenyRecord, Alone;
    ApprovedFirst();
    Rebuilt();
    var a := Decide(Continuation(), Approve);
    Next(ASKED + RESUMED[..3], STEP, Second().(threads := map[0 := Choosing(Acting(a))]),
         Second().(threads := map[0 := Executes(Pc.Claiming, Taking(0))]));
    assert ASKED + RESUMED[..3] + [STEP] == ASKED + RESUMED;
  }

  lemma LockedThird()
    ensures Run(true, ASKED + RESUMED + DISPATCHED[..2]) == Second().(threads := map[0 := Executes(Planning, Granted)])
  {
    hide Run, RequestDigest, Execute1, Held, ScopeKeys, AdvanceQuietly, AdvanceRunning, AdvanceResuming;
    hide ApprovalFor, Inv;
    ResumedSecond();
    ApprovedSteps();
    NoKeys(Some(2));
    var es := ASKED + RESUMED;
    var w0 := Second().(threads := map[0 := Executes(Pc.Claiming, Taking(0))]);
    NextStep(es, w0, Executes(Pc.Claiming, Taking(0)), Second().shared, Planning);
    NextLock(es + [STEP], Second().(threads := map[0 := Executes(Planning, Taking(0))]), Executes(Planning, Taking(0)));
    assert es + [STEP] + [STEP] == es + DISPATCHED[..2];
  }

  lemma CommittedThird()
    ensures Run(true, ASKED + RESUMED + DISPATCHED[..4])
         == Underway(Executing, Some(Intended([])), []).(threads := map[0 := Executes(Dispatching(map[], []), Granted)])
  {
    hide Run, RequestDigest, Execute1, Held, ScopeKeys, AdvanceQuietly, AdvanceRunning, AdvanceResuming;
    hide ApprovalFor, Inv;
    ApprovedSteps();
    LockedThird();
    var es := ASKED + RESUMED + DISPATCHED[..2];
    var w2 := Second().(threads := map[0 := Executes(Planning, Granted)]);
    NextStep(es, w2, Executes(Planning, Granted), w2.shared, Committing(map[], []));
    var w3 := Second().(threads := map[0 := Executes(Committing(map[], []), Granted)]);
    NextStep(es + [STEP], w3, Executes(Committing(map[], []), Granted),
             Carried(Executing, Some(Intended([])), []), Dispatching(map[], []));
    assert es + [STEP] + [STEP] == ASKED + RESUMED + DISPATCHED[..4];
  }

  lemma SentThird()
    ensures Run(true, ASKED + RESUMED + DISPATCHED[..5])
         == Underway(Executing, Some(Intended([])), SENT).(threads := map[0 := Executes(Writing(DONE), Granted)])
  {
    hide Run, RequestDigest, Execute1, Held, ScopeKeys, AdvanceQuietly, AdvanceRunning, AdvanceResuming;
    hide ApprovalFor, Inv;
    DispatchedSteps();
    CommittedThird();
    var es := ASKED + RESUMED + DISPATCHED[..4];
    var sending := Executes(Dispatching(map[], []), Granted);
    var w3 := Underway(Executing, Some(Intended([])), []).(threads := map[0 := sending]);
    NextStep(es, w3, sending, Carried(Executing, Some(Intended([])), SENT), Writing(DONE));
    assert es + [STEP] == ASKED + RESUMED + DISPATCHED[..5];
  }

  lemma WrittenThird()
    ensures Run(true, ASKED + RESUMED + DISPATCHED[..7])
         == Third().(shared := Carried(Succeeded, None, SENT),
           threads := map[0 := Choosing(Closing(Approved, Succeeded))])
  {
    hide Run, RequestDigest, Execute1, Held, ScopeKeys, AdvanceQuietly, AdvanceRunning, AdvanceResuming;
    hide ApprovalFor, Inv;
    SentThird();
    DispatchedSteps();
    NoKeys(Some(2));
    var es := ASKED + RESUMED + DISPATCHED[..5];
    var w4 := Underway(Executing, Some(Intended([])), SENT).(threads := map[0 := Executes(Writing(DONE), Granted)]);
    var (after, record) := (Carried(Succeeded, None, SENT), Stored(Succeeded, None).records[7]);
    NextWrite(es, w4, Executes(Writing(DONE), Granted), after, record);
    NextLeave(es + [STEP], w4, Executes(Writing(DONE), Granted), after, record);
    assert map[7 := Asked(None)][7 := Asked(Some(2))] == map[7 := Asked(Some(2))];
    assert es + [STEP] + [STEP] == ASKED + RESUMED + DISPATCHED[..7];
  }

  lemma DispatchedThird()
    ensures Run(true, ASKED + RESUMED + DISPATCHED) == Third()
  {
    hide Run, RequestDigest, ApprovalFor, Held, ClaimedApproval, Rebuild, Updated, AdvanceQuietly, AdvanceRunning, Inv;
    WrittenThird();
    var w5 := Third().(shared := Underway(Succeeded, None, SENT).shared,
      threads := map[0 := Choosing(Closing(Approved, Succeeded))]);
    assert w5.threads - {0} == map[];
    Next(ASKED + RESUMED + DISPATCHED[..7], STEP, w5, Third());
    assert ASKED + RESUMED + DISPATCHED[..7] + [STEP] == ASKED + RESUMED + DISPATCHED;
  }

  /**
   An accepted dispatch can be attributable to a failed approval, and the record of the action
   that was carried out then reads `POLICY_DENIED`.
   */
  lemma DispatchedThenFailed()
    ensures var w := Run(true, ASKED + RESUMED + DISPATCHED + Recovery(0, Call(None, true), Told(Allow)));
      && w.shared.trace == [Dispatch("k", 7, Some(1), true, "read", map[])]
      && FailedApproval(w.shared.approvals, 1)
      && 7 in w.shared.store.records && w.shared.store.records[7].status.PolicyDenied?
  {
    hide Run, Inv, Approve1, Execute1, Enabled, ClaimedApproval, RequestDigest;
    DispatchedThird();
    RecoveryFailsExactly(true, ASKED + RESUMED + DISPATCHED, 0, Call(None, true), Told(Allow));
  }
}
