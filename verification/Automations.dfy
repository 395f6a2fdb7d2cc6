/** Configured automations: one observed event becomes at most one governed power action each. */
module Automations {
  import opened Options
  import opened Ordering
  import opened Uuids
  import opened Texts
  import opened ActionRequests

  datatype Automation = Automation(
    automationId: string,
    household: string,
    name: string,
    triggerResourceId: string,
    triggerState: string,
    actionResourceId: string,
    actionDesiredOn: bool,
    enabled: bool,
    creator: Option<string>,
    version: nat
  )

  /** The text forms of its ids are those that `str` gives UUIDs. */
  ghost predicate WellFormed(a: Automation) {
    Canonical(a.automationId) && Canonical(a.actionResourceId)
  }

  function AutomationKey(automationId: string, eventId: string): string {
    "automation:" + automationId + ":" + eventId
  }

  /** A key names its automation and its event, whatever characters an event id contains. */
  lemma KeyNamesItsEvent(a: string, e: string, b: string, f: string)
    requires Canonical(a) && Canonical(b)
    ensures AutomationKey(a, e) == AutomationKey(b, f) <==> a == b && e == f
  {
    CanonicalShape(a);
    CanonicalShape(b);
    var k, l := AutomationKey(a, e), AutomationKey(b, f);
    assert k[11..47] == a && k[48..] == e;
    assert l[11..47] == b && l[48..] == f;
  }

  function PowerArguments(a: Automation): Arguments {
    map["resource_id" := PyStr(a.actionResourceId), "desired_on" := PyBool(a.actionDesiredOn)]
  }

  function RequestFor(
    a: Automation, eventId: string, household: string, tool: Tool, actionId: nat, hasRefresher: bool, hasVerifier: bool
  ): Option<Request> {
    CreateRequest(tool, PowerArguments(a),
      Given(actionId, AutomationKey(a.automationId, eventId), household, household, a.creator, [], [], hasRefresher,
        hasVerifier, None, []))
  }

  lemma OneResource(a: Automation)
    requires Canonical(a.actionResourceId)
    ensures ResourceValues(PowerArguments(a)) == Some([a.actionResourceId])
  {
    var args := PowerArguments(a);
    assert Argument(args, "resource_id") == PyStr(a.actionResourceId);
    assert Argument(args, "resource_ids") == PyNone;
    var one := [PyStr(a.actionResourceId)];
    assert AsUuid(one[0]) == Uuid(a.actionResourceId);
    assert one[1..] == [] && AllUuids(one[1..]) == Some([]);
    var none: seq<string> := [];
    assert [a.actionResourceId] + none == [a.actionResourceId];
    assert AllUuids(one) == Some([a.actionResourceId]);
    assert one + Elements(PyNone) == one;
  }

  lemma ScopesExist(a: Automation, tool: Tool)
    requires Canonical(a.actionResourceId) && ResolveSafetySpec(tool).Some?
    ensures Scopes(ResolveSafetySpec(tool).value, PowerArguments(a)).Some?
  {
    hide ResolveSafetySpec, ResourceValues;
    OneResource(a);
  }

  /** A well-formed automation always yields a request, for its own key and under the given id. */
  lemma RequestIsBuilt(
    a: Automation, eventId: string, household: string, tool: Tool, actionId: nat, hasRefresher: bool, hasVerifier: bool
  )
    requires WellFormed(a)
    ensures var r := RequestFor(a, eventId, household, tool, actionId, hasRefresher, hasVerifier);
      && r.Some? && r.value.key == AutomationKey(a.automationId, eventId) && r.value.actionId == actionId
      && r.value.arguments == PowerArguments(a) && r.value.household == household && r.value.tool == tool
      && r.value.resourceIds == [a.actionResourceId] && r.value.preconditions == []
  {
    hide ParseUuid, Collapse, ResourceValues;
    OneResource(a);
    if ResolveSafetySpec(tool).Some? { ScopesExist(a, tool); }
    CollapseShrinks(AutomationKey(a.automationId, eventId));
    assert AutomationKey(a.automationId, eventId)[0] == 'a';
    SortedSetKeepsAscending([a.actionResourceId]);
  }

  /**
   After an edit a replayed event asks for the same effect if and only if the edit left the
   controlled resource and the desired state alone; otherwise its digest differs.
   */
  lemma EditChangesDigestExactly(
    a: Automation, b: Automation, eventId: string, household: string, tool: Tool, idA: nat, idB: nat, refresherA: bool,
    refresherB: bool, verifierA: bool, verifierB: bool
  )
    requires WellFormed(a) && WellFormed(b)
    ensures var (r, q) := (RequestFor(a, eventId, household, tool, idA, refresherA, verifierA),
                           RequestFor(b, eventId, household, tool, idB, refresherB, verifierB));
      && r.Some? && q.Some?
      && (RequestDigest(r.value) == RequestDigest(q.value) <==>
            a.actionResourceId == b.actionResourceId && a.actionDesiredOn == b.actionDesiredOn)
  {
    hide ResourceValues, WellFormed, Collapse, ResolveSafetySpec;
    RequestIsBuilt(a, eventId, household, tool, idA, refresherA, verifierA);
    RequestIsBuilt(b, eventId, household, tool, idB, refresherB, verifierB);
    var r := RequestFor(a, eventId, household, tool, idA, refresherA, verifierA).value;
    var q := RequestFor(b, eventId, household, tool, idB, refresherB, verifierB).value;
    assert RequestDigest(r).arguments == PowerArguments(a);
    assert RequestDigest(q).arguments == PowerArguments(b);
    assert PowerArguments(a)["resource_id"] == PyStr(a.actionResourceId);
    assert PowerArguments(b)["resource_id"] == PyStr(b.actionResourceId);
    assert PowerArguments(a)["desired_on"] == PyBool(a.actionDesiredOn);
    assert PowerArguments(b)["desired_on"] == PyBool(b.actionDesiredOn);
  }

  // ----- the store -----

  datatype Edit = Edit(
    name: string,
    triggerResourceId: string,
    triggerState: string,
    actionResourceId: string,
    actionDesiredOn: bool,
    enabled: bool
  )

  datatype EditError = NotFound | Conflict | BadState

  datatype EditResult = Changed(automation: Automation) | Refused(error: EditError)

  /** `_state`; `fold` is `str.casefold`. */
  function ParseState(text: string, fold: string -> string): Option<string> {
    var clean := fold(Trim(text));
    if clean == "on" || clean == "off" then Some(clean) else None
  }

  function Edited(
    automations: map<string, Automation>, household: string, id: string, expected: nat, edit: Edit,
    fold: string -> string
  ): (map<string, Automation>, EditResult) {
    if id !in automations || automations[id].household != household then (automations, Refused(NotFound))
    else if automations[id].version != expected then (automations, Refused(Conflict))
    else
      var state := ParseState(edit.triggerState, fold);
      if state.None? then (automations, Refused(BadState))
      else
        var current := automations[id];
        var changed := current.(name := Trim(edit.name), triggerResourceId := edit.triggerResourceId,
          triggerState := state.value,
                                actionResourceId := edit.actionResourceId, actionDesiredOn := edit.actionDesiredOn,
                                enabled := edit.enabled, version := current.version + 1);
        (automations[id := changed], Changed(changed))
  }

  /** Of two edits that expect the same version only the first is applied; a refused edit changes nothing. */
  lemma StaleEditIsRefused(automations: map<string, Automation>, household: string, id: string, expected: nat,
                           edit: Edit, other: Edit, fold: string -> string)
    ensures var (after, first) := Edited(automations, household, id, expected, edit, fold);
      && (first.Refused? ==> after == automations)
      && (first.Changed? ==>
            && Edited(after, household, id, expected, other, fold) == (after, Refused(Conflict))
            && first.automation.automationId == automations[id].automationId
            && first.automation.household == household
            && first.automation.creator == automations[id].creator
            && (forall k :: k in automations && k != id ==> k in after && after[k] == automations[k]))
  {
  }

  /** When an edit is applied, why it is refused, and what it changes. */
  lemma EditAppliesExactly(
    automations: map<string, Automation>, household: string, id: string, expected: nat, edit: Edit,
    fold: string -> string
  )
    ensures var (after, result) := Edited(automations, household, id, expected, edit, fold);
      var found := id in automations && automations[id].household == household;
      var state := fold(Trim(edit.triggerState));
      && (result == Refused(NotFound) <==> !found)
      && (result == Refused(Conflict) <==> found && automations[id].version != expected)
      && (result == Refused(BadState) <==>
            found && automations[id].version == expected && state != "on" && state != "off")
      && (result.Refused? ==> after == automations)
      && (result.Changed? ==>
            && after.Keys == automations.Keys && (forall k :: k in after && k != id ==> after[k] == automations[k])
            && var (a, was) := (after[id], automations[id]);
            && result.automation == a
            && a.automationId == was.automationId && a.household == was.household && a.creator == was.creator
            && a.name == Trim(edit.name) && a.enabled == edit.enabled && a.version == expected + 1
            && a.triggerResourceId == edit.triggerResourceId && a.triggerState == state
            && a.actionResourceId == edit.actionResourceId && a.actionDesiredOn == edit.actionDesiredOn)
  {
  }

  /** The order of a listing: by name, then by id. */
  predicate Earlier(a: Automation, b: Automation) {
    Before(a.name, b.name) || (a.name == b.name && Before(a.automationId, b.automationId))
  }

  predicate InOrder(xs: seq<Automation>) {
    forall i, j :: 0 <= i < j < |xs| ==> Earlier(xs[i], xs[j])
  }

  lemma EarlierIsTransitive(a: Automation, b: Automation, c: Automation)
    requires Earlier(a, b) && Earlier(b, c)
    ensures Earlier(a, c)
  {
    BeforeIsStrict(a.name, b.name);
    BeforeIsStrict(b.name, c.name);
    if Before(a.name, b.name) && Before(b.name, c.name) { BeforeIsTransitive(a.name, b.name, c.name); }
    if a.name == b.name && b.name == c.name { BeforeIsTransitive(a.automationId, b.automationId, c.automationId); }
  }

  /** One automation put at its place in a listing. */
  function Placed(a: Automation, xs: seq<Automation>): (r: seq<Automation>)
    requires InOrder(xs) && forall x :: x in xs ==> x.automationId != a.automationId
    ensures InOrder(r)
    ensures forall x :: x in r <==> x == a || x in xs
  {
    if xs == [] then [a]
    else if Earlier(a, xs[0]) then
      assert InOrder([a] + xs) by {
        forall i | 0 <= i < |xs| ensures Earlier(a, xs[i]) {
          if i > 0 { EarlierIsTransitive(a, xs[0], xs[i]); }
        }
      }
      [a] + xs
    else
      BeforeIsTotal(a.name, xs[0].name);
      BeforeIsTotal(a.automationId, xs[0].automationId);
      assert xs == [xs[0]] + xs[1..];
      var rest := Placed(a, xs[1..]);
      assert forall j :: 0 <= j < |rest| ==> rest[j] in rest;
      [xs[0]] + rest
  }

  /** The automations of a household, each once, in order. */
  ghost predicate Lists(automations: map<string, Automation>, household: string, items: seq<Automation>) {
    && InOrder(items)
    && forall a: Automation :: a in items <==>
         a.automationId in automations && automations[a.automationId] == a && a.household == household
  }

  /** A listing names no automation twice. */
  lemma ListedOnce(automations: map<string, Automation>, household: string, items: seq<Automation>, i: nat, j: nat)
    requires Lists(automations, household, items) && i < |items| && j < |items| && i != j
    ensures items[i].automationId != items[j].automationId
  {
    var (a, b) := if i < j then (items[i], items[j]) else (items[j], items[i]);
    assert a in items && b in items && Earlier(a, b);
    BeforeIsStrict(a.name, b.name);
    BeforeIsStrict(a.automationId, b.automationId);
  }

  class InMemoryAutomationStore {
    var automations: map<string, Automation>

    constructor ()
      ensures automations == map[]
    {
      automations := map[];
    }

    ghost predicate Valid()
      reads this
    {
      forall id :: id in automations ==> automations[id].automationId == id && WellFormed(automations[id])
    }

    method List(household: string) returns (items: seq<Automation>)
      requires Valid()
      ensures Lists(automations, household, items)
    {
      hide WellFormed, Earlier;
      items := [];
      var todo := automations.Keys;
      while todo != {}
        invariant todo <= automations.Keys
        invariant InOrder(items)
        invariant forall a :: a in items <==>
          && a.automationId in automations && a.automationId !in todo
          && automations[a.automationId] == a && a.household == household
        decreases todo
      {
        var id :| id in todo;
        if automations[id].household == household {
          items := Placed(automations[id], items);
        }
        todo := todo - {id};
      }
    }

    /** False is the conflict of an identity that exists. */
    method Create(a: Automation) returns (ok: bool)
      requires Valid() && WellFormed(a)
      modifies this
      ensures Valid()
      ensures ok <==> a.automationId !in old(automations)
      ensures automations == if ok then old(automations)[a.automationId := a] else old(automations)
    {
      if a.automationId in automations {
        return false;
      }
      automations := automations[a.automationId := a];
      return true;
    }

    method Update(
      household: string, id: string, expected: nat, edit: Edit, fold: string -> string
    ) returns (r: EditResult)
      requires Valid() && Canonical(edit.actionResourceId)
      modifies this
      ensures Valid()
      ensures (automations, r) == Edited(old(automations), household, id, expected, edit, fold)
    {
      hide ParseState, ParseUuid, Trim;
      if id !in automations || automations[id].household != household {
        return Refused(NotFound);
      }
      var current := automations[id];
      if current.version != expected {
        return Refused(Conflict);
      }
      var state := ParseState(edit.triggerState, fold);
      if state.None? {
        return Refused(BadState);
      }
      var updated := current.(name := Trim(edit.name), triggerResourceId := edit.triggerResourceId,
        triggerState := state.value,
                              actionResourceId := edit.actionResourceId, actionDesiredOn := edit.actionDesiredOn,
                              enabled := edit.enabled, version := current.version + 1);
      automations := automations[id := updated];
      return Changed(updated);
    }
  }
}
