/** Why executions of one key must not overlap: the claim comes before the lock. */
module Overlaps {
  import opened Options
  import opened Ordering
  import opened Texts
  import opened ActionRequests
  import opened Truths
  import opened ActionStores
  import opened Coordination
  import opened UninterruptedCalls
  import ActionRuns

  /**
   Two executions of one new request that both claim before either goes on, and then take their
   turn under the lock, both dispatch: the second never looks at the record again.
   */
  lemma OverlappingClaimsDispatchTwice(s: Shared, r: Request, e: Answers, f: Answers, kept: bool)
    requires CanClaim(s.store, r) && r.key !in s.store.byKey
    requires PlanFor(r, Heard(e, {}, r), kept).Go? && !Refused(e.Gateway())
    requires PlanFor(r, Heard(f, {}, r), kept).Go? && !Refused(f.Gateway())
    ensures var (s1, first) := Execute1(s, r, e, None, kept, Pc.Claiming);
      && WellKeyed(s1.store) && first == Continue(Planning)
      && Execute1(s1, r, f, None, kept, Pc.Claiming) == (s1, Continue(Planning))
      && var s2 := Execution(s1, r, Heard(e, {}, r), None, kept, Planning).0;
      && WellKeyed(s2.store)
      && var s3 := Execution(s2, r, Heard(f, {}, r), None, kept, Planning).0;
      var sent := Dispatch(r.key, r.actionId, None, true, r.tool.toolId, r.arguments);
      s3.trace == s.trace + [sent, sent]
  {
    hide PlanFor, RequestDigest, Execution, Grants;
    StepKeepsKeys(s, r, e, None, kept, Pc.Claiming);
    var s1 := Execute1(s, r, e, None, kept, Pc.Claiming).0;
    GoingOnDispatches(s1, r, Heard(e, {}, r), kept);
    var s2 := Execution(s1, r, Heard(e, {}, r), None, kept, Planning).0;
    GoingOnDispatches(s2, r, Heard(f, {}, r), kept);
  }

  lemma GoingOnDispatches(s: Shared, r: Request, e: Answers, kept: bool)
    requires WellKeyed(s.store) && r.actionId in s.store.records
    requires PlanFor(r, e, kept).Go? && !Refused(e.Gateway())
    ensures var t := Execution(s, r, e, None, kept, Planning).0;
      && WellKeyed(t.store) && r.actionId in t.store.records
      && t.trace == s.trace + [Dispatch(r.key, r.actionId, None, true, r.tool.toolId, r.arguments)]
  {
    hide PlanFor, Execution, AfterDispatch, WellKeyed;
    var plan := PlanFor(r, e, kept);
    PlanningCommits(s, r, e, kept);
    CommittingCarriesOut(s, r, e, None, kept, plan.before, plan.effects);
    DispatchedOnce(s, r, e, plan.before, plan.effects);
  }

  lemma PlanningCommits(s: Shared, r: Request, e: Answers, kept: bool)
    requires WellKeyed(s.store) && PlanFor(r, e, kept).Go?
    ensures var plan := PlanFor(r, e, kept);
      Execution(s, r, e, None, kept, Planning) == Execution(s, r, e, None, kept, Committing(plan.before, plan.effects))
  {
    hide PlanFor, Conclude, RequestDigest, Updated;
  }

  lemma DispatchedOnce(s: Shared, r: Request, e: Answers, truth: Truth, effects: seq<Effect>)
    requires WellKeyed(s.store) && r.actionId in s.store.records && !Refused(e.Gateway())
    ensures var t := AfterDispatch(s, r, e, None, truth, effects).0;
      && WellKeyed(t.store) && r.actionId in t.store.records
      && t.trace == s.trace + [Dispatch(r.key, r.actionId, None, true, r.tool.toolId, r.arguments)]
  {
    hide Conclude;
  }

  const NOTIFIER := Tool(NOTIFICATION_TOOL, "1", false, "notifications.send", false, false)
  const PROVIDER := "external:notification:configured-provider"
  const GIVEN := Given(7, "k", "h", "h", None, [], [], false, false, None, [])
  const NOTICE :=
    Request(7, "k", "h", NOTIFIER, map[], None, [], [], false, false, None, Some(NotificationSpec), [PROVIDER])

  const SENT := Dispatch("k", 7, None, true, NOTIFICATION_TOOL, map[])

  /** Policy allows the notification and the provider accepts it. */
  const DELIVERS := Answers(
    true, None, true, Allow, true, 1, 1, 0, 60,
    Some(Invocation(Success, DispatchAcknowledged, true, None)), None, Verification(Unverified, []))

  lemma NoticeIsCreated()
    ensures CreateRequest(NOTIFIER, map[], GIVEN) == Some(NOTICE)
  {
    var none: Arguments := map[];
    assert ResourceValues(none) == Some([]) by {
      assert Argument(none, "resource_id") == PyNone && Argument(none, "resource_ids") == PyNone;
    }
    assert ResolveSafetySpec(NOTIFIER) == Some(NotificationSpec);
    assert Collapse("k") == "k" by { CollapseKeepsSpaceless("k"); }
    assert SortedSet([]) == [];
  }

  lemma NoticeIsPlanned()
    ensures PlanFor(NOTICE, Heard(DELIVERS, {}, NOTICE), false).Go?
  {
    hide Grants;
    OneScopeIsGranted(NOTICE, PROVIDER);
    assert IntentReads(NOTICE);
    assert MandatoryPreconditions(NotificationSpec, map[]) + NOTICE.preconditions == [];
  }

  lemma OneScopeIsGranted(r: Request, scope: string)
    requires r.lockScopes == [scope]
    ensures Grants({}, r)
  {
    assert SortedSet([scope]) == [scope];
  }

  /** It happens: one notification, executed twice at once under its lock, is sent twice. */
  lemma NotificationCanBeSentTwice()
    ensures CreateRequest(NOTIFIER, map[], GIVEN) == Some(NOTICE)
    ensures var s1 := Execute1(ActionRuns.Boot(false).shared, NOTICE, DELIVERS, None, false, Pc.Claiming).0;
      && WellKeyed(s1.store)
      && Execute1(s1, NOTICE, DELIVERS, None, false, Pc.Claiming) == (s1, Continue(Planning))
      && var s2 := Execution(s1, NOTICE, Heard(DELIVERS, {}, NOTICE), None, false, Planning).0;
      && WellKeyed(s2.store)
      && var s3 := Execution(s2, NOTICE, Heard(DELIVERS, {}, NOTICE), None, false, Planning).0;
      s3.trace == [SENT, SENT]
  {
    hide Execution, RequestDigest, Execute1, PlanFor, CreateRequest, Heard;
    NoticeIsCreated();
    NoticeIsPlanned();
    OverlappingClaimsDispatchTwice(ActionRuns.Boot(false).shared, NOTICE, DELIVERS, DELIVERS, false);
  }
}
