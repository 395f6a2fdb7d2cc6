/** Executions under fresh action ids: what a replayed request can and cannot do. */
module Replays {
  import opened Options
  import opened ActionAuthority
  import opened ActionLocality
  import opened Ordering
  import opened ActionRequests
  import opened ActionStores
  import opened ApprovalStores
  import opened Coordination
  import opened Truths
  import opened UninterruptedCalls

  /**
   A request under a fresh action id whose key is known is answered from the record of that key:
   a conflict when its digest differs, the recorded result when the record is not resumable, and
   otherwise an exception. In no case is anything dispatched or any record written.
   */
  lemma ReplayChangesNothing(s: Shared, r: Request, e: Answers, approval: Option<nat>, kept: bool)
    requires WellKeyed(s.store) && r.key in s.store.byKey && r.actionId !in s.store.records
    ensures var (t, next) := Execution(s, r, e, approval, kept, Pc.Claiming);
      var record := s.store.records[s.store.byKey[r.key]];
      && t.store == s.store && t.trace == s.trace
      && (record.digest != RequestDigest(r) ==> t == s && next == Returned(record, true, true))
      && (record.digest == RequestDigest(r) && !Resumable(record.status) ==>
           t == s && next == Returned(record, true, false))
      && (record.digest == RequestDigest(r) && Resumable(record.status) ==> next == Raised)
  {
    hide RequestDigest, Execution;
    ClaimingCarriesOut(s, r, e, approval, kept);
    UnknownIdRaises(s, r, e, approval, kept, Planning);
  }

  lemma {:induction false} UnknownIdRaises(s: Shared, r: Request, e: Answers, approval: Option<nat>, kept: bool, pc: Pc)
    requires WellKeyed(s.store) && r.actionId !in s.store.records
    requires pc.Planning? || pc.Asking? || pc.Writing? || pc.Committing?
    ensures var (t, next) := Execution(s, r, e, approval, kept, pc);
      t.store == s.store && t.trace == s.trace && next == Raised
    decreases Rank(pc)
  {
    hide PlanFor, ApprovalFor, Conclude, RequestDigest;
    var (t, next) := Execute1(s, r, e, approval, kept, pc);
    if next.Continue? {
      assert pc.Planning? || pc.Asking?;
      UnknownIdRaises(t, r, e, approval, kept, next.pc);
    }
  }

  lemma {:induction false} ExecutionIsLocal(
    s: Shared, r: Request, e: Answers, approval: Option<nat>, kept: bool, pc: Pc
  )
    requires WellKeyed(s.store) && (pc.Claiming? && r.key !in s.store.byKey ==> r.actionId !in s.store.records)
    ensures Local(s, Execution(s, r, e, approval, kept, pc).0, r)
    decreases Rank(pc)
  {
    hide Execute1;
    StepKeepsKeys(s, r, e, approval, kept, pc);
    StepIsLocal(s, r, e, approval, kept, pc);
    var (t, next) := Execute1(s, r, e, approval, kept, pc);
    if next.Continue? {
      NeverClaimsAgain(s, r, e, approval, kept, pc);
      ExecutionIsLocal(t, r, e, approval, kept, next.pc);
      var u := Execution(t, r, e, approval, kept, next.pc).0;
      assert u.trace[..|s.trace|] == t.trace[..|s.trace|];
      forall i | |s.trace| <= i < |u.trace| ensures Carries(u.trace[i], r) {
        if i < |t.trace| { assert u.trace[i] == t.trace[i]; }
      }
    }
  }

  lemma NeverClaimsAgain(s: Shared, r: Request, e: Answers, approval: Option<nat>, kept: bool, pc: Pc)
    requires WellKeyed(s.store)
    ensures var next := Execute1(s, r, e, approval, kept, pc).1; next.Continue? ==>
      !next.pc.Claiming? && Rank(next.pc) < Rank(pc)
  {
    hide PlanFor, ApprovalFor, Conclude, RequestDigest;
  }

  /** The result of an execution under a fresh action id is the record of its key. */
  lemma ResultIsRecord(s: Shared, r: Request, e: Answers, approval: Option<nat>, kept: bool)
    requires WellKeyed(s.store) && r.actionId !in s.store.records
    ensures var (t, next) := Execution(s, r, e, approval, kept, Pc.Claiming);
      next.Returned? ==> IsRecordOf(t.store, r.key, next.record)
  {
    hide Execution, RequestDigest;
    if r.key in s.store.byKey {
      ReplayChangesNothing(s, r, e, approval, kept);
    } else {
      ClaimingCarriesOut(s, r, e, approval, kept);
      var t := s.(store := Claimed(s.store, r).0);
      OwnResultIsRecord(t, r, e, approval, kept, Planning);
    }
  }

  /** The record of a new key has the digest of the request that claimed it. */
  lemma NewKeyIsClaimed(s: Shared, r: Request, e: Answers, approval: Option<nat>, kept: bool)
    requires WellKeyed(s.store) && r.actionId !in s.store.records && r.key !in s.store.byKey
    ensures var t := Execution(s, r, e, approval, kept, Pc.Claiming).0;
      && r.key in t.store.byKey && t.store.byKey[r.key] == r.actionId
      && r.actionId in t.store.records && t.store.records[r.actionId].digest == RequestDigest(r)
  {
    hide Execution, RequestDigest;
    ClaimingCarriesOut(s, r, e, approval, kept);
    OwnResultIsRecord(s.(store := Claimed(s.store, r).0), r, e, approval, kept, Planning);
  }

  ghost predicate IsRecordOf(s: Store, key: string, record: Record) {
    key in s.byKey && s.byKey[key] in s.records && s.records[s.byKey[key]] == record
  }

  /** One step of an execution that owns its key. */
  lemma OwnStepIsRecord(s: Shared, r: Request, e: Answers, approval: Option<nat>, kept: bool, pc: Pc)
    requires WellKeyed(s.store) && r.key in s.store.byKey && s.store.byKey[r.key] == r.actionId && !pc.Claiming?
    ensures var (t, next) := Execute1(s, r, e, approval, kept, pc);
      && r.key in t.store.byKey && t.store.byKey[r.key] == r.actionId
      && r.actionId in t.store.records && t.store.records[r.actionId].digest == s.store.records[r.actionId].digest
      && (next.Returned? ==> IsRecordOf(t.store, r.key, next.record))
      && (next.Continue? ==> !next.pc.Claiming? && Rank(next.pc) < Rank(pc))
  {
    hide PlanFor, ApprovalFor, Conclude, RequestDigest;
  }

  lemma {:induction false} OwnResultIsRecord(
    s: Shared, r: Request, e: Answers, approval: Option<nat>, kept: bool, pc: Pc
  )
    requires WellKeyed(s.store) && r.key in s.store.byKey && s.store.byKey[r.key] == r.actionId
    requires !pc.Claiming?
    ensures var (t, next) := Execution(s, r, e, approval, kept, pc);
      && (next.Returned? ==> IsRecordOf(t.store, r.key, next.record))
      && r.key in t.store.byKey && t.store.byKey[r.key] == r.actionId
      && r.actionId in t.store.records && t.store.records[r.actionId].digest == s.store.records[r.actionId].digest
    decreases Rank(pc)
  {
    hide Execute1;
    StepKeepsKeys(s, r, e, approval, kept, pc);
    OwnStepIsRecord(s, r, e, approval, kept, pc);
    var (t, next) := Execute1(s, r, e, approval, kept, pc);
    if next.Continue? { OwnResultIsRecord(t, r, e, approval, kept, next.pc); }
  }

  lemma OwnStepGoesOn(s: Shared, r: Request, e: Answers, approval: Option<nat>, kept: bool, pc: Pc)
    requires WellKeyed(s.store) && r.actionId in s.store.records
    requires !pc.Claiming? && (pc.Asking? ==> r.principal.Some?)
    ensures var (t, next) := Execute1(s, r, e, approval, kept, pc);
      && r.actionId in t.store.records
      && (next.Raised? <==> pc.Planning? && PlanFor(r, e, kept).NoIntent?)
      && (next.Raised? ==> t == s)
      && (next.Continue? ==>
            && !next.pc.Claiming? && !next.pc.Planning? && Rank(next.pc) < Rank(pc)
            && (next.pc.Asking? ==> r.principal.Some?))
  {
    hide ApprovalFor, Conclude, RequestDigest, Verify, MandatoryPreconditions, ExpectedEffects, AllMatch, WellKeyed;
    hide IntentReads;
  }

  lemma {:induction false} OwnRaisesExactly(
    s: Shared, r: Request, e: Answers, approval: Option<nat>, kept: bool, pc: Pc
  )
    requires WellKeyed(s.store) && r.actionId in s.store.records
    requires !pc.Claiming? && (pc.Asking? ==> r.principal.Some?)
    ensures var (t, next) := Execution(s, r, e, approval, kept, pc);
      (next.Raised? <==> pc.Planning? && PlanFor(r, e, kept).NoIntent?) && (next.Raised? ==> t == s)
    decreases Rank(pc)
  {
    hide Execute1, PlanFor;
    StepKeepsKeys(s, r, e, approval, kept, pc);
    OwnStepGoesOn(s, r, e, approval, kept, pc);
    var (t, next) := Execute1(s, r, e, approval, kept, pc);
    if next.Continue? { OwnRaisesExactly(t, r, e, approval, kept, next.pc); }
  }

  /** The record of the key has the digest of the request, and can be taken up again. */
  ghost predicate Waits(s: Store, r: Request) {
    && r.key in s.byKey && s.byKey[r.key] in s.records
    && s.records[s.byKey[r.key]].digest == RequestDigest(r)
    && Resumable(s.records[s.byKey[r.key]].status)
  }

  /**
   Exactly when an execution raises: its key is new or its record waits, and either that record is
   known under another action id, or the execution comes to read its intent and cannot. Nothing
   is dispatched then, and the only record written is the one a new key is claimed with.
   */
  lemma RaisesExactly(s: Shared, r: Request, e: Answers, approval: Option<nat>, kept: bool)
    requires CanClaim(s.store, r)
    requires r.actionId in s.store.records ==> s.store.records[r.actionId].key == r.key
    ensures var (t, next) := Execution(s, r, e, approval, kept, Pc.Claiming);
      && (next.Raised? <==>
            && (r.key in s.store.byKey ==> Waits(s.store, r))
            && (|| (r.key in s.store.byKey && r.actionId !in s.store.records)
                || (ReachesIntent(r, e) && !IntentReads(r))))
      && (next.Raised? ==> t.trace == s.trace && t.store == Claimed(s.store, r).0)
  {
    hide Execution, RequestDigest, ReachesIntent, IntentReads, PlanFor;
    if r.key in s.store.byKey && r.actionId !in s.store.records {
      ReplayChangesNothing(s, r, e, approval, kept);
    } else {
      ClaimingCarriesOut(s, r, e, approval, kept);
      StopsExactly(r, e, kept);
      OwnRaisesExactly(s.(store := Claimed(s.store, r).0), r, e, approval, kept, Planning);
    }
  }

  const READER := Tool("reader", "1", true, "read", false, true)

  lemma ReaderIsAccepted()
    ensures var args := map["capability_id" := PyStr("x")];
      CreateRequest(READER, args, Given(7, "k", "h", "h", None, [], [], false, false, None, []))
        == Some(Request(7, "k", "h", READER, args, None, [], [], false, false, None, None, []))
      && AsUuid(args["capability_id"]).Malformed?
  {
    var args := map["capability_id" := PyStr("x")];
    assert Argument(args, "resource_id") == PyNone && Argument(args, "resource_ids") == PyNone;
    assert SortedSet([]) == [];
  }

  /**
   It happens to a request that was accepted: a read-only tool whose capability is no UUID raises
   under a new key, whatever else is answered, and leaves a record that is PLANNED.
   */
  lemma UnreadableCapabilityRaises(e: Answers, kept: bool)
    requires e.acquired
    ensures var r := CreateRequest(READER, map["capability_id" := PyStr("x")],
                                   Given(7, "k", "h", "h", None, [], [], false, false, None, []));
      && r.Some?
      && var (t, next) := Execution(Shared(Store(map[], map[]), Approvals(map[], map[]), []), r.value, e, None, kept,
                                    Pc.Claiming);
      && next.Raised? && t.trace == []
      && t.store == Store(map[7 := PlannedRecord(r.value)], map["k" := 7])
  {
    hide Execution, RequestDigest, CreateRequest, AsUuid;
    var args := map["capability_id" := PyStr("x")];
    var empty := Shared(Store(map[], map[]), Approvals(map[], map[]), []);
    ReaderIsAccepted();
    var r := CreateRequest(READER, args, Given(7, "k", "h", "h", None, [], [], false, false, None, [])).value;
    RaisesExactly(empty, r, e, None, kept);
  }
}
