/** The client of the coordinator that turns observed events into automated actions. */
module EventRouter {
  import opened Options
  import opened Statuses
  import opened Uuids
  import opened Texts
  import opened ActionRequests
  import opened ActionStores
  import opened Coordination
  import opened Truths
  import opened Automations
  import opened Replays
  import ActionAuthority
  import ActionRuns
  import Coordinator
  import UninterruptedCalls

  // ----- the router -----

  datatype Event = Event(isObservation: bool, externalId: string, eventId: string, value: Py)

  /** `_observed_state`; `str` of anything but text or a foreign object is neither on nor off. */
  function ObservedState(value: Py, fold: string -> string): Option<string> {
    match value
    case PyBool(b) => Some(if b then "on" else "off")
    case PyStr(s) => ParseState(s, fold)
    case PyOther(shown, _) => ParseState(shown, fold)
    case _ => None
  }

  predicate Fires(a: Automation, resource: string, state: string) {
    a.enabled && a.triggerResourceId == resource && a.triggerState == state
  }

  function Firing(list: seq<Automation>, resource: string, state: string): seq<Automation> {
    if list == [] then []
    else
      var last := list[|list| - 1];
      Firing(list[..|list| - 1], resource, state) + if Fires(last, resource, state) then [last] else []
  }

  /** The observed value says the state: a truth value, or text that is it but for case and space. */
  ghost predicate Says(value: Py, state: string, fold: string -> string) {
    match value
    case PyBool(true) => state == "on"
    case PyBool(false) => state == "off"
    case PyStr(s) => state == fold(Trim(s)) && (state == "on" || state == "off")
    case PyOther(shown, _) => state == fold(Trim(shown)) && (state == "on" || state == "off")
    case _ => false
  }

  lemma ObservedStateSays(value: Py, fold: string -> string)
    ensures match ObservedState(value, fold)
            case Some(state) => forall other :: Says(value, other, fold) <==> other == state
            case None => forall other :: !Says(value, other, fold)
  {
  }

  datatype Report = Unavailable(automationId: string) | Acted(automationId: string, actionId: nat, status: ActionStatus)

  /** The fresh action id and the answers of the world for one automation. */
  datatype Outside = Outside(actionId: nat, answers: Answers)

  /** The arguments name the controlled resource alone and ask for the configured state. */
  ghost predicate AsksFor(arguments: Arguments, a: Automation) {
    && ResourceValues(arguments) == Some([a.actionResourceId])
    && (a.actionDesiredOn ==> Desired(arguments) == Some(PyStr("on")))
    && (!a.actionDesiredOn ==> Desired(arguments) == Some(PyStr("off")))
  }

  /** What a fired automation asks for, as sent and as recorded. */
  lemma RequestAsksAsConfigured(
    a: Automation, eventId: string, household: string, tool: Tool, id: nat, hasRefresher: bool, hasVerifier: bool
  )
    requires WellFormed(a)
    ensures var r := RequestFor(a, eventId, household, tool, id, hasRefresher, hasVerifier);
      && r.Some? && AsksFor(r.value.arguments, a) && AsksFor(RequestDigest(r.value).arguments, a)
      && r.value.resourceIds == [a.actionResourceId] && r.value.principal == a.creator
      && r.value.household == household && r.value.tool == tool && r.value.preconditions == []
  {
    hide ResourceValues, Scopes, Collapse, ResolveSafetySpec, WellFormed;
    RequestIsBuilt(a, eventId, household, tool, id, hasRefresher, hasVerifier);
    OneResourceOf(a);
    assert PowerArguments(a)["desired_on"] == PyBool(a.actionDesiredOn);
    assert JsonArguments(PowerArguments(a)) == PowerArguments(a);
  }

  lemma OneResourceOf(a: Automation)
    requires WellFormed(a)
    ensures ResourceValues(PowerArguments(a)) == Some([a.actionResourceId])
  {
    OneResource(a);
  }

  /** One of them fires for the key and asks so. */
  ghost predicate AskedBy(list: seq<Automation>, eventId: string, key: string, arguments: Arguments) {
    exists a :: a in list && key == AutomationKey(a.automationId, eventId) && AsksFor(arguments, a)
  }

  /**
   Since `s` old records are untouched; only new keys of this event were recorded and dispatched,
   and only for what their automation asks for.
   */
  ghost predicate OnlyNewKeys(s: Shared, t: Shared, list: seq<Automation>, eventId: string) {
    && (forall id :: id in s.store.records ==> id in t.store.records && t.store.records[id] == s.store.records[id])
    && (forall k :: k in s.store.byKey ==> k in t.store.byKey && t.store.byKey[k] == s.store.byKey[k])
    && (forall k :: k in t.store.byKey && k !in s.store.byKey ==>
          && t.store.byKey[k] in t.store.records
          && AskedBy(list, eventId, k, t.store.records[t.store.byKey[k]].digest.arguments))
    && |s.trace| <= |t.trace| && t.trace[..|s.trace|] == s.trace
    && (forall i :: |s.trace| <= i < |t.trace| ==>
         t.trace[i].key !in s.store.byKey && AskedBy(list, eventId, t.trace[i].key, t.trace[i].arguments))
  }

  lemma OneExecution(s: Shared, a: Automation, eventId: string, r: Request, e: Answers, kept: bool)
    requires WellKeyed(s.store) && r.actionId !in s.store.records && r.key == AutomationKey(a.automationId, eventId)
    requires AsksFor(r.arguments, a) && AsksFor(RequestDigest(r).arguments, a)
    ensures OnlyNewKeys(s, Execution(s, r, e, None, kept, Pc.Claiming).0, [a], eventId)
  {
    hide Execution, RequestDigest, AsksFor;
    ExecutionIsLocal(s, r, e, None, kept, Pc.Claiming);
    if r.key in s.store.byKey {
      ReplayChangesNothing(s, r, e, None, kept);
    } else {
      NewKeyIsClaimed(s, r, e, None, kept);
    }
    assert a in [a];
  }

  lemma NothingNew(s: Shared, list: seq<Automation>, eventId: string)
    ensures OnlyNewKeys(s, s, list, eventId)
  {
  }

  lemma OnlyNewKeysOfMore(s: Shared, t: Shared, list: seq<Automation>, a: Automation, eventId: string)
    requires OnlyNewKeys(s, t, list, eventId)
    ensures OnlyNewKeys(s, t, list + [a], eventId)
  {
    hide AsksFor;
    forall k, arguments | AskedBy(list, eventId, k, arguments) ensures AskedBy(list + [a], eventId, k, arguments) {
      var b :| b in list && k == AutomationKey(b.automationId, eventId) && AsksFor(arguments, b);
      assert b in list + [a];
    }
  }

  /** Nothing recorded and nothing dispatched is nothing new. */
  lemma SameIsNothingNew(s: Shared, t: Shared, u: Shared, list: seq<Automation>, eventId: string)
    requires OnlyNewKeys(s, t, list, eventId) && u.store == t.store && u.trace == t.trace
    ensures OnlyNewKeys(s, u, list, eventId)
  {
  }

  lemma OnlyNewKeysAdd(s: Shared, t: Shared, u: Shared, fired: seq<Automation>, a: Automation, eventId: string)
    requires OnlyNewKeys(s, t, fired, eventId) && OnlyNewKeys(t, u, [a], eventId)
    ensures OnlyNewKeys(s, u, fired + [a], eventId)
  {
    OnlyNewKeysOfMore(s, t, fired, a, eventId);
    AskedByLast(fired, a, eventId);
    hide AskedBy;
    assert u.trace[..|s.trace|] == t.trace[..|s.trace|];
    forall i | |s.trace| <= i < |u.trace|
      ensures u.trace[i].key !in s.store.byKey && AskedBy(fired + [a], eventId, u.trace[i].key, u.trace[i].arguments)
    {
      if i < |t.trace| { assert u.trace[i] == t.trace[i]; }
    }
  }

  lemma AskedByLast(fired: seq<Automation>, a: Automation, eventId: string)
    ensures forall k, arguments :: AskedBy([a], eventId, k, arguments) ==> AskedBy(fired + [a], eventId, k, arguments)
  {
    assert a in fired + [a];
  }

  // ----- what blocks an event -----

  /** The action of the automation for this event, as it would be requested now, still waits. */
  ghost predicate Blocks(s: Store, a: Automation, eventId: string, household: string, tool: Option<Tool>) {
    && tool.Some?
    && var r := RequestFor(a, eventId, household, tool.value, 0, false, false);
    && r.Some? && Waits(s, r.value)
  }

  ghost predicate NoneBlocks(
    s: Store, fired: seq<Automation>, eventId: string, household: string, lookup: string -> Option<Tool>
  ) {
    forall a :: a in fired ==> !Blocks(s, a, eventId, household, lookup(a.automationId))
  }

  lemma NoneBlocksMore(
    s: Store, fired: seq<Automation>, a: Automation, eventId: string, household: string,
    lookup: string -> Option<Tool>
  )
    requires NoneBlocks(s, fired, eventId, household, lookup)
    requires !Blocks(s, a, eventId, household, lookup(a.automationId))
    ensures NoneBlocks(s, fired + [a], eventId, household, lookup)
  {
    hide Blocks;
  }

  /** Neither a fresh action id nor the callbacks make a difference. */
  lemma BlocksUnderAnyId(
    s: Store, a: Automation, eventId: string, household: string, tool: Tool, id: nat, hasRefresher: bool,
    hasVerifier: bool
  )
    requires WellFormed(a)
    ensures var r := RequestFor(a, eventId, household, tool, id, hasRefresher, hasVerifier);
      r.Some? && (Waits(s, r.value) <==> Blocks(s, a, eventId, household, Some(tool)))
  {
    hide RequestFor, RequestDigest, WellFormed;
    RequestIsBuilt(a, eventId, household, tool, id, hasRefresher, hasVerifier);
    RequestIsBuilt(a, eventId, household, tool, 0, false, false);
    EditChangesDigestExactly(a, a, eventId, household, tool, 0, id, false, hasRefresher, false, hasVerifier);
  }

  /** The request of an automation raises exactly when it blocks: its capability can always be read. */
  lemma RaisesIfBlocked(
    s: Shared, a: Automation, eventId: string, r: Request, tool: Tool, hasRefresher: bool, hasVerifier: bool,
    household: string, e: Answers, kept: bool
  )
    requires WellKeyed(s.store) && WellFormed(a) && r.actionId !in s.store.records
    requires Some(r) == RequestFor(a, eventId, household, tool, r.actionId, hasRefresher, hasVerifier)
    ensures var (t, next) := Execution(s, r, e, None, kept, Pc.Claiming);
      && (next.Raised? <==> Blocks(s.store, a, eventId, household, Some(tool)))
      && (next.Raised? ==> t.store == s.store && t.trace == s.trace)
  {
    hide RequestFor, Execution, RequestDigest, Blocks, ActionAuthority.ReachesIntent, WellFormed;
    RequestIsBuilt(a, eventId, household, tool, r.actionId, hasRefresher, hasVerifier);
    assert Argument(PowerArguments(a), "capability_id") == PyNone;
    BlocksUnderAnyId(s.store, a, eventId, household, tool, r.actionId, hasRefresher, hasVerifier);
    RaisesExactly(s, r, e, None, kept);
  }

  /** What handling has done so far: true reports for what fired, which neither blocked nor touched older keys. */
  ghost predicate Progress(
    s: Shared, t: Shared, reports: seq<Report>, fired: seq<Automation>, eventId: string, household: string,
    lookup: string -> Option<Tool>
  ) {
    && |reports| == |fired|
    && OnlyNewKeys(s, t, fired, eventId)
    && Answered(t.store, reports, fired, eventId)
    && NoneBlocks(s.store, fired, eventId, household, lookup)
  }

  lemma ProgressMeans(
    s: Shared, t: Shared, reports: seq<Report>, fired: seq<Automation>, eventId: string, household: string,
    lookup: string -> Option<Tool>
  )
    requires Progress(s, t, reports, fired, eventId, household, lookup)
    ensures |reports| == |fired| && OnlyNewKeys(s, t, fired, eventId) && Answered(t.store, reports, fired, eventId)
    ensures NoneBlocks(s.store, fired, eventId, household, lookup)
  {
    hide OnlyNewKeys, Answered, NoneBlocks;
  }

  lemma NothingFires(resource: string, state: string)
    ensures Firing([], resource, state) == []
  {
  }

  lemma NoProgress(s: Shared, eventId: string, household: string, lookup: string -> Option<Tool>)
    ensures Progress(s, s, [], [], eventId, household, lookup)
  {
    NothingAnswered(s.store, eventId);
    NothingNew(s, [], eventId);
  }

  lemma ProgressMore(
    s: Shared, t: Shared, u: Shared, reports: seq<Report>, fired: seq<Automation>, report: Report, a: Automation,
    eventId: string, household: string, lookup: string -> Option<Tool>
  )
    requires Progress(s, t, reports, fired, eventId, household, lookup)
    requires OnlyNewKeys(t, u, [a], eventId) && !Blocks(s.store, a, eventId, household, lookup(a.automationId))
    requires report.automationId == a.automationId && ReportTrue(u.store, report, eventId)
    ensures Progress(s, u, reports + [report], fired + [a], eventId, household, lookup)
  {
    hide OnlyNewKeys, Answered, NoneBlocks, ReportTrue, Blocks;
    OnlyNewKeysAdd(s, t, u, fired, a, eventId);
    AnsweredStays(t, u, reports, fired, [a], eventId);
    AnsweredMore(u.store, reports, fired, eventId, report, a);
    NoneBlocksMore(s.store, fired, a, eventId, household, lookup);
  }

  lemma SameProgress(
    s: Shared, t: Shared, u: Shared, reports: seq<Report>, fired: seq<Automation>, eventId: string,
    household: string, lookup: string -> Option<Tool>
  )
    requires Progress(s, t, reports, fired, eventId, household, lookup) && u.store == t.store && u.trace == t.trace
    ensures Progress(s, u, reports, fired, eventId, household, lookup)
  {
    hide Answered, NoneBlocks;
    SameIsNothingNew(s, t, u, fired, eventId);
  }

  lemma BlocksNowAsBefore(
    s: Shared, t: Shared, reports: seq<Report>, fired: seq<Automation>, a: Automation, eventId: string,
    household: string, lookup: string -> Option<Tool>
  )
    requires Progress(s, t, reports, fired, eventId, household, lookup) && WellKeyed(s.store) && WellFormed(a)
    requires forall b :: b in fired ==> WellFormed(b) && b.automationId != a.automationId
    ensures var tool := lookup(a.automationId);
      Blocks(s.store, a, eventId, household, tool) <==> Blocks(t.store, a, eventId, household, tool)
  {
    hide OnlyNewKeys, Answered, NoneBlocks, WellKeyed, WellFormed, Blocks;
    BlocksAsBefore(s, t, fired, a, eventId, household, lookup(a.automationId));
  }

  /** What others did on this event does not touch the record of an automation. */
  lemma BlocksAsBefore(
    s: Shared, t: Shared, fired: seq<Automation>, a: Automation, eventId: string, household: string,
    tool: Option<Tool>
  )
    requires OnlyNewKeys(s, t, fired, eventId) && WellKeyed(s.store) && WellFormed(a)
    requires forall b :: b in fired ==> WellFormed(b) && b.automationId != a.automationId
    ensures Blocks(s.store, a, eventId, household, tool) <==> Blocks(t.store, a, eventId, household, tool)
  {
    hide RequestDigest, RequestFor, WellFormed;
    var key := AutomationKey(a.automationId, eventId);
    forall b | b in fired ensures AutomationKey(b.automationId, eventId) != key { OtherKey(a, b, eventId); }
    hide AsksFor;
    if tool.Some? { RequestIsBuilt(a, eventId, household, tool.value, 0, false, false); }
  }

  lemma OtherKey(a: Automation, b: Automation, eventId: string)
    requires WellFormed(a) && WellFormed(b) && a.automationId != b.automationId
    ensures AutomationKey(a.automationId, eventId) != AutomationKey(b.automationId, eventId)
  {
    KeyNamesItsEvent(a.automationId, eventId, b.automationId, eventId);
  }

  /** What fired before an automation are others. */
  lemma OnlyTheOthers(
    automations: map<string, Automation>, household: string, list: seq<Automation>, i: nat, resource: string,
    state: string
  )
    requires Lists(automations, household, list) && i < |list|
    requires forall id :: id in automations ==> automations[id].automationId == id && WellFormed(automations[id])
    ensures WellFormed(list[i])
    ensures forall b :: b in Firing(list[..i], resource, state) ==>
      WellFormed(b) && b.automationId != list[i].automationId
  {
    hide WellFormed, Firing;
    assert list[i] in list;
    forall b | b in Firing(list[..i], resource, state)
      ensures WellFormed(b) && b.automationId != list[i].automationId
    {
      FiringNames(list[..i], resource, state, b);
      var j :| 0 <= j < i && list[j] == b;
      ListedOnce(automations, household, list, i, j);
      assert b in list;
    }
  }

  /** An action id no request has used names no record. */
  lemma NewIdIsUnknown(kept: bool, events: seq<ActionRuns.Event>, id: nat)
    requires id !in ActionRuns.Run(kept, events).ids
    ensures WellKeyed(ActionRuns.Run(kept, events).shared.store)
    ensures id !in ActionRuns.Run(kept, events).shared.store.records
  {
  }

  /** A report says what the store has for the key of its automation and event. */
  ghost predicate ReportTrue(s: Store, report: Report, eventId: string) {
    report.Acted? ==>
      && var key := AutomationKey(report.automationId, eventId);
      && key in s.byKey && s.byKey[key] in s.records
      && s.records[s.byKey[key]].actionId == report.actionId
      && s.records[s.byKey[key]].status == report.status
  }

  /** One true report for each fired automation, in order. */
  ghost predicate Answered(s: Store, reports: seq<Report>, fired: seq<Automation>, eventId: string) {
    && |reports| == |fired|
    && forall k :: 0 <= k < |reports| ==>
         reports[k].automationId == fired[k].automationId && ReportTrue(s, reports[k], eventId)
  }

  lemma ReportsTheRecord(s: Store, a: Automation, eventId: string, record: Record)
    requires IsRecordOf(s, AutomationKey(a.automationId, eventId), record)
    ensures ReportTrue(s, Acted(a.automationId, record.actionId, record.status), eventId)
  {
  }

  lemma AnsweredStays(
    s: Shared, t: Shared, reports: seq<Report>, fired: seq<Automation>, list: seq<Automation>, eventId: string
  )
    requires Answered(s.store, reports, fired, eventId) && OnlyNewKeys(s, t, list, eventId)
    ensures Answered(t.store, reports, fired, eventId)
  {
  }

  lemma NothingAnswered(s: Store, eventId: string)
    ensures Answered(s, [], [], eventId)
    ensures forall resource, state :: Firing([], resource, state) == []
  {
  }

  lemma AnsweredMore(
    s: Store, reports: seq<Report>, fired: seq<Automation>, eventId: string, report: Report, a: Automation
  )
    requires Answered(s, reports, fired, eventId) && report.automationId == a.automationId
      && ReportTrue(s, report, eventId)
    ensures Answered(s, reports + [report], fired + [a], eventId)
  {
    hide ReportTrue;
  }

  lemma FiringGrows(list: seq<Automation>, i: nat, resource: string, state: string)
    requires i < |list|
    ensures var before := Firing(list[..i], resource, state);
      Firing(list[..i + 1], resource, state) == if Fires(list[i], resource, state) then before + [list[i]] else before
  {
    assert list[..i + 1][..i] == list[..i];
  }

  /** What fired so far is the beginning of all that fires, and the next one follows it. */
  lemma {:induction false} FiringPrefix(list: seq<Automation>, i: nat, resource: string, state: string)
    requires i < |list| && Fires(list[i], resource, state)
    ensures var (now, all) := (Firing(list[..i], resource, state), Firing(list, resource, state));
      |now| < |all| && all[..|now|] == now && all[|now|] == list[i]
    decreases |list|
  {
    var n := |list| - 1;
    if i < n {
      FiringPrefix(list[..n], i, resource, state);
      assert list[..n][..i] == list[..i];
    }
  }

  lemma {:induction false} FiringNames(list: seq<Automation>, resource: string, state: string, a: Automation)
    ensures a in Firing(list, resource, state) <==>
      a in list && a.enabled && a.triggerResourceId == resource && a.triggerState == state
  {
    if list != [] {
      var n := |list| - 1;
      FiringNames(list[..n], resource, state, a);
      assert list == list[..n] + [list[n]];
    }
  }

  /**
   An event replayed after its automation was edited has no second effect: nothing is dispatched
   or recorded, and the answer is a conflict exactly when the edit changed what would be done.
   */
  lemma EditedReplayHasNoEffect(
    s: Shared, a: Automation, b: Automation, eventId: string, household: string, tool: Tool, first: nat, id: nat,
    hasRefresher: bool, hasVerifier: bool, e: Answers, kept: bool
  )
    requires WellKeyed(s.store) && WellFormed(a) && WellFormed(b) && a.automationId == b.automationId
    requires var key := AutomationKey(a.automationId, eventId);
      key in s.store.byKey && id !in s.store.records
    requires var r := RequestFor(a, eventId, household, tool, first, hasRefresher, hasVerifier);
      r.Some? && s.store.records[s.store.byKey[AutomationKey(a.automationId, eventId)]].digest == RequestDigest(r.value)
    ensures var q := RequestFor(b, eventId, household, tool, id, hasRefresher, hasVerifier);
      && q.Some? && q.value.key in s.store.byKey && q.value.actionId == id
      && var (t, next) := Execution(s, q.value, e, None, kept, Pc.Claiming);
      && t.store == s.store && t.trace == s.trace
      && ((next.Returned? && next.conflict) <==>
            a.actionResourceId != b.actionResourceId || a.actionDesiredOn != b.actionDesiredOn)
  {
    hide Execution, RequestDigest, RequestFor;
    RequestIsBuilt(b, eventId, household, tool, id, hasRefresher, hasVerifier);
    EditChangesDigestExactly(a, b, eventId, household, tool, first, id, hasRefresher, hasRefresher, hasVerifier,
      hasVerifier);
    ReplayChangesNothing(s, RequestFor(b, eventId, household, tool, id, hasRefresher, hasVerifier).value, e, None,
      kept);
  }

  const SWITCH := Tool("switch", "1", false, "set_power", true, false)

  /** A known state is read, and the policy asks for a confirmation. */
  const CONFIRM_FIRST := Answers(
    true, Some(map["power" := Observation("KNOWN", PyStr("off"), "1")]),
    true, RequireConfirmationFirst, true, 1, 1, 0, 60,
    None, None, Verification(Unverified, []))

  lemma ConfirmationIsAskedFor(a: Automation, r: Request)
    requires r.tool == SWITCH && r.spec == ResolveSafetySpec(SWITCH) && r.preconditions == [] && r.hasRefresher
    requires IntentReads(r)
    ensures PlanFor(r, CONFIRM_FIRST, false) == Stop(Ending(RequireConfirmation, CONFIRM_FIRST.firstRead, None))
  {
    hide SortedKeys, ExpectedEffects, Verify;
    assert r.spec == Some(PowerSpec("set_power", true));
    var truth := CONFIRM_FIRST.firstRead.value;
    var mandatory := MandatoryPreconditions(r.spec.value, truth);
    forall i | 0 <= i < |mandatory + r.preconditions| ensures MatchesTruth((mandatory + r.preconditions)[i], truth) {
      assert SortedKeys(truth.Keys)[i] in truth.Keys;
    }
  }

  /**
   It happens to every automation of a switch: without a store for approvals its action waits
   for a confirmation, and from then on the same event, replayed under a new action id, raises.
   */
  lemma WaitingReplayRaises(
    a: Automation, eventId: string, household: string, first: nat, again: nat, hasVerifier: bool, e: Answers
  )
    requires WellFormed(a) && first != again
    ensures var r := RequestFor(a, eventId, household, SWITCH, first, true, hasVerifier);
      var q := RequestFor(a, eventId, household, SWITCH, again, true, hasVerifier);
      && r.Some? && q.Some?
      && var (s, next) := Execution(ActionRuns.Boot(false).shared, r.value, CONFIRM_FIRST, None, false, Pc.Claiming);
      && next.Returned? && next.record.status.RequireConfirmation?
      && WellKeyed(s.store) && q.value.actionId !in s.store.records
      && Execution(s, q.value, e, None, false, Pc.Claiming).1.Raised?
  {
    hide RequestFor, RequestDigest, Execution, PlanFor, ResolveSafetySpec;
    RequestIsBuilt(a, eventId, household, SWITCH, first, true, hasVerifier);
    RequestIsBuilt(a, eventId, household, SWITCH, again, true, hasVerifier);
    EditChangesDigestExactly(a, a, eventId, household, SWITCH, first, again, true, true, hasVerifier, hasVerifier);
    var r := RequestFor(a, eventId, household, SWITCH, first, true, hasVerifier).value;
    var q := RequestFor(a, eventId, household, SWITCH, again, true, hasVerifier).value;
    RequestReads(a, eventId, household, first, hasVerifier);
    ConfirmationIsAskedFor(a, r);
    var empty := ActionRuns.Boot(false).shared;
    UninterruptedCalls.ClaimingCarriesOut(empty, r, CONFIRM_FIRST, None, false);
    var ending := Ending(RequireConfirmation, CONFIRM_FIRST.firstRead, None);
    PlanningStops(empty.(store := Claimed(empty.store, r).0), r, CONFIRM_FIRST, ending);
    var s := Execution(empty, r, CONFIRM_FIRST, None, false, Pc.Claiming).0;
    ReplayChangesNothing(s, q, e, None, false);
  }

  lemma RequestReads(a: Automation, eventId: string, household: string, id: nat, hasVerifier: bool)
    requires WellFormed(a)
    ensures var r := RequestFor(a, eventId, household, SWITCH, id, true, hasVerifier);
      r.Some? && r.value.hasRefresher && r.value.spec == ResolveSafetySpec(SWITCH) && IntentReads(r.value)
  {
    hide ResourceValues, Scopes, Collapse, WellFormed;
    RequestIsBuilt(a, eventId, household, SWITCH, id, true, hasVerifier);
  }

  lemma PlanningStops(s: Shared, r: Request, e: Answers, ending: Ending)
    requires WellKeyed(s.store) && PlanFor(r, e, false) == Stop(ending)
    ensures Execution(s, r, e, None, false, Planning) == UninterruptedCalls.Written(s, r, ending)
  {
    hide PlanFor, RequestDigest;
    UninterruptedCalls.WritingCarriesOut(s, r, e, None, false, ending);
  }

  /**
   Whatever has been handled, edited and replayed, each automation acted at most once on each
   event, and no dispatch counts for two of them.
   */
  lemma EventActsOnce(
    c: Coordinator.ActionExecutionCoordinator, a: Automation, eventId: string, b: Automation, otherId: string
  )
    requires c.Valid() && WellFormed(a) && WellFormed(b)
    ensures ActionRuns.Accepted(c.State().trace, AutomationKey(a.automationId, eventId)) <= 1
    ensures forall d ::
      (&& d in c.trace
       && d.key == AutomationKey(a.automationId, eventId)
       && d.key == AutomationKey(b.automationId, otherId)) ==>
      a.automationId == b.automationId && eventId == otherId
  {
    Coordinator.ServedAtMostOnce(c, AutomationKey(a.automationId, eventId));
    KeyNamesItsEvent(a.automationId, eventId, b.automationId, otherId);
  }

  class AutomationEventRouter {
    const household: string
    const store: InMemoryAutomationStore
    const executor: Coordinator.ActionExecutionCoordinator

    constructor (household: string, store: InMemoryAutomationStore, executor: Coordinator.ActionExecutionCoordinator)
      ensures this.household == household && this.store == store && this.executor == executor
    {
      this.household, this.store, this.executor := household, store, executor;
    }

    ghost predicate New(o: Outside)
      reads executor, executor.store, executor.approvals
    {
      && o.actionId !in ActionRuns.Run(executor.Kept(), executor.events).ids
      && o.answers.approvalId !in executor.State().approvals.records
    }

    /** Every automation has been drawn ids of its own, and they are new. */
    ghost predicate Drawn(outside: map<string, Outside>)
      reads store, executor, executor.store, executor.approvals
    {
      && (forall id :: id in store.automations ==> id in outside && New(outside[id]))
      && (forall id, other :: id in store.automations && other in store.automations && id != other ==>
            id in outside && other in outside
            && outside[id].actionId != outside[other].actionId
            && outside[id].answers.approvalId != outside[other].answers.approvalId)
    }

    /** The automations an event fires, in the order they are listed. */
    ghost predicate Fired(
      event: Event, resolve: string -> Option<string>, fold: string -> string, firing: seq<Automation>
    )
      reads store
    {
      var resource := if event.externalId == "" then None else resolve(event.externalId);
      var state := ObservedState(event.value, fold);
      if !event.isObservation || resource.None? || state.None? then firing == []
      else exists list ::
        Lists(store.automations, household, list) && firing == Firing(list, resource.value, state.value)
    }

    /**
     One automation, fired: its request built and executed if its tool is there. `None` is an
     exception, which it is exactly when the action still waits.
     */
    method Act(
      a: Automation, eventId: string, tool: Option<Tool>, hasRefresher: bool, hasVerifier: bool, o: Outside
    ) returns (report: Option<Report>)
      requires executor.Valid() && WellFormed(a) && New(o)
      modifies executor, executor.store, executor.approvals, executor.locker
      ensures executor.Valid()
      ensures executor.locker.Taken() == old(executor.locker.Taken())
      ensures OnlyNewKeys(old(executor.State()), executor.State(), [a], eventId)
      ensures report.None? <==> Blocks(old(executor.store.State()), a, eventId, household, tool)
      ensures report.Some? ==>
        && report.value.automationId == a.automationId && (report.value.Acted? <==> tool.Some?)
        && ReportTrue(executor.store.State(), report.value, eventId)
      ensures report.None? ==>
        executor.store.State() == old(executor.store.State()) && executor.trace == old(executor.trace)
      ensures forall p :: old(New(p)) && p.actionId != o.actionId && p.answers.approvalId != o.answers.approvalId ==>
        New(p)
    {
      hide ActionRuns.Run, Execution, RequestDigest, RequestFor, OnlyNewKeys, UninterruptedCalls.Grants;
      hide WellKeyed, WellFormed, IsRecordOf, Waits, AsksFor, UninterruptedCalls.Heard, Uuids.Canonical;
      if tool.None? {
        NothingNew(executor.State(), [a], eventId);
        return Some(Unavailable(a.automationId));
      }
      RequestIsBuilt(a, eventId, household, tool.value, o.actionId, hasRefresher, hasVerifier);
      var r := RequestFor(a, eventId, household, tool.value, o.actionId, hasRefresher, hasVerifier).value;
      ghost var s, heard := executor.State(), UninterruptedCalls.Heard(o.answers, executor.locker.Taken(), r);
      NewIdIsUnknown(executor.Kept(), executor.events, r.actionId);
      RequestAsksAsConfigured(a, eventId, household, tool.value, o.actionId, hasRefresher, hasVerifier);
      OneExecution(s, a, eventId, r, heard, executor.Kept());
      ResultIsRecord(s, r, heard, None, executor.Kept());
      RaisesIfBlocked(s, a, eventId, r, tool.value, hasRefresher, hasVerifier, household, heard, executor.Kept());
      var next := executor.Execute(r, o.answers);
      if next.Raised? {
        return None;
      }
      ReportsTheRecord(executor.store.State(), a, eventId, next.record);
      return Some(Acted(a.automationId, next.record.actionId, next.record.status));
    }

    /**
     The tool is looked up again for every automation. Only keys this event has never used are
     dispatched. The call raises at the first automation that blocks; what it reported until then
     holds, and the automations after it are not reached.
     */
    method Handle(
      event: Event, resolve: string -> Option<string>, fold: string -> string, lookup: string -> Option<Tool>,
      hasRefresher: bool, hasVerifier: bool, outside: map<string, Outside>
    )
      returns (reports: seq<Report>, raised: bool, ghost firing: seq<Automation>)
      requires store.Valid() && executor.Valid() && Drawn(outside)
      modifies executor, executor.store, executor.approvals, executor.locker
      ensures executor.Valid()
      ensures executor.locker.Taken() == old(executor.locker.Taken())
      ensures Fired(event, resolve, fold, firing)
      ensures |reports| <= |firing| && (raised <==> |reports| < |firing|)
      ensures Answered(executor.store.State(), reports, firing[..|reports|], event.eventId)
      ensures OnlyNewKeys(old(executor.State()), executor.State(), firing[..|reports|], event.eventId)
      ensures NoneBlocks(old(executor.store.State()), firing[..|reports|], event.eventId, household, lookup)
      ensures raised ==>
        var a := firing[|reports|];
        Blocks(old(executor.store.State()), a, event.eventId, household, lookup(a.automationId))
    {
      hide ActionRuns.Run, ActionRuns.Inv, Progress, OnlyNewKeys, ReportTrue, WellFormed, Fires, Firing, Blocks;
      hide WellKeyed, ObservedState, UninterruptedCalls.Grants, Answered, NoneBlocks;
      ghost var before, fired := executor.State(), [];
      UninterruptedCalls.RunIsKeyed(executor.Kept(), executor.events);
      NoProgress(before, event.eventId, household, lookup);
      reports, firing := [], [];
      var resource := if event.externalId == "" then None else resolve(event.externalId);
      var state := ObservedState(event.value, fold);
      if !event.isObservation || resource.None? || state.None? {
        ProgressMeans(before, before, [], [], event.eventId, household, lookup);
        return [], false, [];
      }
      var list := store.List(household);
      firing := Firing(list, resource.value, state.value);
      NothingFires(resource.value, state.value);
      for i := 0 to |list|
        invariant executor.Valid() && executor.locker.Taken() == old(executor.locker.Taken())
        invariant fired == Firing(list[..i], resource.value, state.value) && |reports| == |fired|
        invariant forall j :: i <= j < |list| ==> New(outside[list[j].automationId])
        invariant Progress(before, executor.State(), reports, fired, event.eventId, household, lookup)
      {
        var a := list[i];
        FiringGrows(list, i, resource.value, state.value);
        if Fires(a, resource.value, state.value) {
          FiringPrefix(list, i, resource.value, state.value);
          OnlyTheOthers(store.automations, household, list, i, resource.value, state.value);
          ghost var was := executor.State();
          BlocksNowAsBefore(before, was, reports, fired, a, event.eventId, household, lookup);
          var tool := lookup(a.automationId);
          var report := Act(a, event.eventId, tool, hasRefresher, hasVerifier, outside[a.automationId]);
          if report.None? {
            SameProgress(before, was, executor.State(), reports, fired, event.eventId, household, lookup);
            ProgressMeans(before, executor.State(), reports, fired, event.eventId, household, lookup);
            return reports, true, firing;
          }
          ProgressMore(before, was, executor.State(), reports, fired, report.value, a,
                       event.eventId, household, lookup);
          forall j | i < j < |list| ensures New(outside[list[j].automationId]) {
            ListedOnce(store.automations, household, list, i, j);
          }
          reports, fired := reports + [report.value], fired + [a];
        }
      }
      assert list[..|list|] == list && firing[..|reports|] == fired;
      ProgressMeans(before, executor.State(), reports, fired, event.eventId, household, lookup);
      return reports, false, firing;
    }
  }

  /** What an event fires: the enabled automations of the household whose trigger it is. */
  lemma FiredExactly(
    router: AutomationEventRouter, event: Event, resolve: string -> Option<string>, fold: string -> string,
    firing: seq<Automation>, a: Automation
  )
    requires router.store.Valid() && router.Fired(event, resolve, fold, firing)
    ensures a in firing <==>
      && event.isObservation && event.externalId != ""
      && a.automationId in router.store.automations && router.store.automations[a.automationId] == a
      && a.household == router.household && a.enabled
      && resolve(event.externalId) == Some(a.triggerResourceId)
      && Says(event.value, a.triggerState, fold)
  {
    hide Says, ObservedState, Firing;
    ObservedStateSays(event.value, fold);
    var resource := if event.externalId == "" then None else resolve(event.externalId);
    var state := ObservedState(event.value, fold);
    if event.isObservation && resource.Some? && state.Some? {
      var list :| Lists(router.store.automations, router.household, list)
                  && firing == Firing(list, resource.value, state.value);
      FiringNames(list, resource.value, state.value, a);
    }
  }
}
