/** Action requests, their trusted safety rules and their identity. */
module ActionRequests {
  import opened Options
  import opened Ordering
  import opened Uuids
  import opened Texts

  /**
   A Python argument value. `PyOther` is any object that JSON stores as its text; its truth value
   is its own.
   */
  datatype Py =
    | PyNone
    | PyBool(b: bool)
    | PyInt(i: int)
    | PyReal(x: real)
    | PyStr(s: string)
    | PyUuid(text: string)
    | PyList(items: seq<Py>)
    | PyTuple(elements: seq<Py>)
    | PyDict(entries: map<string, Py>)
    | PyOther(shown: string, truthy: bool)

  type Arguments = map<string, Py>

  /** `json.loads(json.dumps(v, default=str))`. */
  function Json(v: Py): Py {
    match v
    case PyUuid(text) => PyStr(text)
    case PyOther(shown, _) => PyStr(shown)
    case PyList(items) => PyList(seq(|items|, i requires 0 <= i < |items| => Json(items[i])))
    case PyTuple(items) => PyList(seq(|items|, i requires 0 <= i < |items| => Json(items[i])))
    case PyDict(entries) => PyDict(map k | k in entries :: Json(entries[k]))
    case _ => v
  }

  function JsonArguments(args: Arguments): Arguments {
    map k | k in args :: Json(args[k])
  }

  lemma {:induction false} JsonIsStable(v: Py)
    ensures Json(Json(v)) == Json(v)
  {
    match v
    case PyList(items) =>
      forall i | 0 <= i < |items| ensures Json(Json(items[i])) == Json(items[i]) { JsonIsStable(items[i]); }
      assert Json(Json(v)) == Json(v);
    case PyTuple(items) =>
      forall i | 0 <= i < |items| ensures Json(Json(items[i])) == Json(items[i]) { JsonIsStable(items[i]); }
      assert Json(Json(v)) == Json(v);
    case PyDict(entries) =>
      forall k | k in entries ensures Json(Json(entries[k])) == Json(entries[k]) { JsonIsStable(entries[k]); }
      assert Json(Json(v)) == Json(v);
    case _ =>
  }

  lemma JsonArgumentsAreStable(args: Arguments)
    ensures JsonArguments(JsonArguments(args)) == JsonArguments(args)
  {
    forall k | k in args ensures Json(Json(args[k])) == Json(args[k]) { JsonIsStable(args[k]); }
  }

  /** `bool(v)`. */
  predicate Truthy(v: Py) {
    match v
    case PyNone => false
    case PyBool(b) => b
    case PyInt(i) => i != 0
    case PyReal(x) => x != 0.0
    case PyStr(s) => s != ""
    case PyUuid(_) => true
    case PyList(items) => items != []
    case PyTuple(items) => items != []
    case PyDict(entries) => entries != map[]
    case PyOther(_, truthy) => truthy
  }

  /** Python's `==`, under which truth values and numbers compare by value. */
  predicate PyEquals(a: Py, b: Py) {
    if (a.PyBool? || a.PyInt? || a.PyReal?) && (b.PyBool? || b.PyInt? || b.PyReal?) then Numeric(a) == Numeric(b)
    else a == b
  }

  function Numeric(v: Py): real
    requires v.PyBool? || v.PyInt? || v.PyReal?
  {
    match v
    case PyBool(b) => if b then 1.0 else 0.0
    case PyInt(i) => i as real
    case PyReal(x) => x
  }

  /** `str(i)`. */
  function Decimal(i: int): string {
    if i < 0 then "-" + DecimalDigits(-i) else DecimalDigits(i)
  }

  function DecimalDigits(n: nat): string {
    (if n < 10 then "" else DecimalDigits(n / 10)) + [(n % 10) as char + '0']
  }

  /** Storing keeps the truth value: the text is empty exactly when the object counts as false. */
  predicate StoredTruthHolds(v: Py) {
    match v
    case PyUuid(text) => text != ""
    case PyOther(shown, truthy) => truthy <==> shown != ""
    case _ => true
  }

  lemma StoringKeepsTruthExactly(v: Py)
    ensures Truthy(Json(v)) == Truthy(v) <==> StoredTruthHolds(v)
  {
    if v.PyDict? {
      assert v.entries == map[] <==> v.entries.Keys == {};
      assert Json(v).entries == map[] <==> Json(v).entries.Keys == {};
    }
  }

  /** `UUID(str(v))`. */
  function AsUuid(v: Py): Parsed {
    match v
    case PyStr(s) => ParseUuid(s)
    case PyUuid(text) => ParseUuid(text)
    case PyOther(shown, _) => ParseUuid(shown)
    case PyInt(i) => ParseUuid(Decimal(i))
    case _ => Malformed
  }

  function Argument(args: Arguments, name: string): Py {
    if name in args then args[name] else PyNone
  }

  /** All of them, or `None` when one is no UUID. */
  function AllUuids(values: seq<Py>): Option<seq<string>> {
    if values == [] then Some([])
    else
      var first, rest := AsUuid(values[0]), AllUuids(values[1..]);
      if first.Malformed? || rest.None? then None else Some([first.text] + rest.value)
  }

  function Elements(v: Py): seq<Py> {
    match v
    case PyList(items) => items
    case PyTuple(items) => items
    case _ => []
  }

  /** `resource_id` and `resource_ids` of the arguments; `None` is a ValueError. */
  function ResourceValues(args: Arguments): Option<seq<string>> {
    var one := Argument(args, "resource_id");
    AllUuids((if one.PyNone? then [] else [one]) + Elements(Argument(args, "resource_ids")))
  }

  // ----- tools and safety rules -----

  datatype Tool = Tool(
    toolId: string,
    version: string,
    readOnly: bool,
    profile: string,
    keyed: bool,
    verificationNone: bool
  )

  datatype SafetySpec = NotificationSpec | PowerSpec(profile: string, keyed: bool)

  const NOTIFICATION_TOOL := "anima.external.notifications.send"
  const POWER_PROFILES := {"set_power", "home_assistant.set_power"}

  function ProfileId(s: SafetySpec): string {
    if s.PowerSpec? then s.profile else "notifications.send"
  }

  predicate RequiresFreshState(s: SafetySpec) {
    s.PowerSpec?
  }

  /** Rules come from trusted tool metadata alone; `profile` defaults to the semantic action. */
  function ResolveSafetySpec(t: Tool): Option<SafetySpec> {
    if t.readOnly then None
    else if t.toolId != NOTIFICATION_TOOL && t.profile !in POWER_PROFILES then None
    else if t.profile in {"notifications.send", NOTIFICATION_TOOL} then Some(NotificationSpec)
    else if t.profile !in POWER_PROFILES then None
    else Some(PowerSpec(t.profile, t.keyed))
  }

  function ResourceScopes(ids: seq<string>): (r: seq<string>)
    ensures |r| == |ids|
    ensures forall i :: 0 <= i < |ids| ==> r[i] == "resource:" + ids[i]
  {
    seq(|ids|, i requires 0 <= i < |ids| => "resource:" + ids[i])
  }

  function Scopes(spec: SafetySpec, args: Arguments): Option<seq<string>> {
    if spec.NotificationSpec? then Some(["external:notification:configured-provider"])
    else
      var values := ResourceValues(args);
      if values.None? then None
      else
        var ids := SortedSet(values.value);
        var capability := Argument(args, "capability_id");
        if capability.PyNone? || ids == [] then Some(SortedSet(ResourceScopes(ids)))
        else
          var parsed := AsUuid(capability);
          if parsed.Malformed? then None
          else Some(SortedSet(ResourceScopes(ids) + ["capability:" + ids[0] + ":" + parsed.text]))
  }

  datatype Precondition = Precondition(
    truthKey: string,
    expectedState: Option<string>,
    expectedValue: Py,
    expectedVersion: Option<string>
  )

  // ----- requests -----

  datatype Request = Request(
    actionId: nat,
    key: string,
    household: string,
    tool: Tool,
    arguments: Arguments,
    principal: Option<string>,
    resourceIds: seq<string>,
    preconditions: seq<Precondition>,
    hasRefresher: bool,
    hasVerifier: bool,
    challenge: Option<nat>,
    spec: Option<SafetySpec>,
    lockScopes: seq<string>
  )

  /** What callers may pass beside the arguments; empty tuples count as not given. */
  datatype Given = Given(
    actionId: nat,
    key: string,
    household: string,
    identityHousehold: string,
    principal: Option<string>,
    resourceIds: seq<string>,
    preconditions: seq<Precondition>,
    hasRefresher: bool,
    hasVerifier: bool,
    challenge: Option<nat>,
    lockScopes: seq<string>
  )

  /** `ActionRequest.create` with the default safety rules; `None` is a ValueError. */
  function CreateRequest(tool: Tool, arguments: Arguments, g: Given): Option<Request> {
    var values := ResourceValues(arguments);
    if values.None? then None
    else
      var spec := ResolveSafetySpec(tool);
      var resolved := if g.lockScopes == [] && spec.Some? then Scopes(spec.value, arguments) else Some(g.lockScopes);
      if resolved.None? || Collapse(g.key) == "" || g.household != g.identityHousehold then None
      else
        var resources := SortedSet(if g.resourceIds != [] then g.resourceIds else values.value);
        var scopes := if resolved.value != [] then resolved.value else ResourceScopes(resources);
        Some(Request(g.actionId, g.key, g.household, tool, arguments, g.principal, resources, g.preconditions,
                     g.hasRefresher, g.hasVerifier, g.challenge, spec, scopes))
  }

  /** `_intent` can read the capability, if the arguments name one. */
  predicate IntentReads(r: Request) {
    var capability := Argument(r.arguments, "capability_id");
    capability.PyNone? || AsUuid(capability).Uuid?
  }

  /** Resolving the scopes of a power request for some resource has read its capability already. */
  lemma ResolvedScopesReadTheIntent(tool: Tool, arguments: Arguments, g: Given)
    requires CreateRequest(tool, arguments, g).Some? && CreateRequest(tool, arguments, g).value.spec.Some?
    requires CreateRequest(tool, arguments, g).value.spec.value.PowerSpec?
    requires g.lockScopes == [] && ResourceValues(arguments).value != []
    ensures IntentReads(CreateRequest(tool, arguments, g).value)
  {
    hide ResourceValues, ResolveSafetySpec, Collapse;
    var values := ResourceValues(arguments).value;
    assert values[0] in SortedSet(values);
  }

  /** The hashed payload; the digest is injective on it. */
  datatype Digest = Digest(
    household: string,
    toolId: string,
    toolVersion: string,
    arguments: Arguments,
    resourceIds: seq<string>,
    preconditions: seq<Precondition>,
    lockScopes: seq<string>,
    safetyProfile: Option<string>
  )

  function JsonPrecondition(p: Precondition): Precondition {
    p.(expectedValue := Json(p.expectedValue))
  }

  function RequestDigest(r: Request): Digest {
    Digest(r.household, r.tool.toolId, r.tool.version, JsonArguments(r.arguments), r.resourceIds,
           seq(|r.preconditions|, i requires 0 <= i < |r.preconditions| => JsonPrecondition(r.preconditions[i])),
           r.lockScopes, if r.spec.Some? then Some(ProfileId(r.spec.value)) else None)
  }

  // ----- storing the arguments changes none of what is read from them -----

  lemma JsonKeepsUuid(v: Py)
    ensures AsUuid(Json(v)) == AsUuid(v)
    ensures Json(v).PyNone? == v.PyNone?
  {
  }

  lemma {:induction false} JsonKeepsUuids(values: seq<Py>, stored: seq<Py>)
    requires |stored| == |values|
    requires forall i :: 0 <= i < |values| ==> stored[i] == Json(values[i])
    ensures AllUuids(stored) == AllUuids(values)
  {
    if values != [] {
      JsonKeepsUuid(values[0]);
      JsonKeepsUuids(values[1..], stored[1..]);
    }
  }

  lemma StoredArgumentsNameTheSameResources(args: Arguments)
    ensures ResourceValues(JsonArguments(args)) == ResourceValues(args)
  {
    var stored := JsonArguments(args);
    var one, many := Argument(args, "resource_id"), Argument(args, "resource_ids");
    JsonKeepsUuid(one);
    assert Argument(stored, "resource_id") == Json(one);
    assert Argument(stored, "resource_ids") == Json(many);
    var a := (if one.PyNone? then [] else [one]) + Elements(many);
    var b := (if Json(one).PyNone? then [] else [Json(one)]) + Elements(Json(many));
    JsonKeepsUuids(a, b);
  }

  lemma StoredArgumentsNameTheSameScopes(spec: SafetySpec, args: Arguments)
    ensures Scopes(spec, JsonArguments(args)) == Scopes(spec, args)
  {
    StoredArgumentsNameTheSameResources(args);
    JsonKeepsUuid(Argument(args, "capability_id"));
    assert Argument(JsonArguments(args), "capability_id") == Json(Argument(args, "capability_id"));
  }

  lemma ScopeNamesResource(args: Arguments, id: string)
    requires ResourceValues(args).Some? && id in ResourceValues(args).value
    ensures forall p, k :: Scopes(PowerSpec(p, k), args).Some? ==>
      "resource:" + id in Scopes(PowerSpec(p, k), args).value && Ascending(Scopes(PowerSpec(p, k), args).value)
  {
  }

  // ----- what the functions above amount to -----

  /** What counts as false: nothing, zero and the empty values, or an object that says so. */
  lemma FalsyExactly(v: Py)
    ensures !Truthy(v) <==>
      || v == PyNone || v == PyBool(false) || v == PyInt(0) || v == PyReal(0.0) || v == PyStr("")
      || v == PyList([]) || v == PyTuple([]) || v == PyDict(map[]) || (v.PyOther? && v.truthy == false)
  {
  }

  /** A number reads as a UUID when its digits do. */
  lemma {:induction false} DecimalReads(n: nat)
    ensures DecimalDigits(n) != "" && forall i :: 0 <= i < |DecimalDigits(n)| ==> '0' <= DecimalDigits(n)[i] <= '9'
    ensures ValueOf(DecimalDigits(n)) == n && (n > 0 ==> DecimalDigits(n)[0] != '0')
  {
    if n >= 10 {
      DecimalReads(n / 10);
      assert DecimalDigits(n)[..|DecimalDigits(n)| - 1] == DecimalDigits(n / 10);
    }
  }

  lemma IntegersRead(i: int)
    ensures Decimal(i) == (if i < 0 then "-" else "") + DecimalDigits(if i < 0 then -i else i)
  {
    hide DecimalDigits;
  }

  /** The number that decimal digits spell. */
  ghost function ValueOf(s: string): int {
    if s == "" then 0 else 10 * ValueOf(s[..|s| - 1]) + (s[|s| - 1] as int - '0' as int)
  }

  /** One of the values that the arguments name resources by. */
  ghost predicate NamesResourceBy(args: Arguments, v: Py) {
    || (v != PyNone && "resource_id" in args && args["resource_id"] == v)
    || ("resource_ids" in args &&
        match args["resource_ids"]
        case PyList(items) => v in items
        case PyTuple(items) => v in items
        case _ => false)
  }

  lemma {:induction false} AllUuidsExactly(values: seq<Py>)
    ensures AllUuids(values) == None <==> exists v :: v in values && AsUuid(v).Malformed?
    ensures AllUuids(values).Some? ==>
      forall id :: id in AllUuids(values).value <==> exists v :: v in values && AsUuid(v) == Uuid(id)
  {
    if values != [] {
      AllUuidsExactly(values[1..]);
      assert values == [values[0]] + values[1..];
    }
  }

  /** The resources of a request are those its arguments name, each a UUID, or it is refused. */
  lemma ResourcesAreNamed(args: Arguments)
    ensures ResourceValues(args) == None <==> exists v :: NamesResourceBy(args, v) && AsUuid(v).Malformed?
    ensures ResourceValues(args).Some? ==>
      forall id :: id in ResourceValues(args).value <==> exists v :: NamesResourceBy(args, v) && AsUuid(v) == Uuid(id)
  {
    hide AsUuid;
    var one, more := Argument(args, "resource_id"), Elements(Argument(args, "resource_ids"));
    var values := (if one.PyNone? then [] else [one]) + more;
    assert forall v :: v in values <==> NamesResourceBy(args, v);
    AllUuidsExactly(values);
  }

  /** The rules a tool gets: for switching power by its profile, for the one notification tool, and else none. */
  lemma SafetyRulesExactly(t: Tool)
    ensures ResolveSafetySpec(t) == Some(NotificationSpec) <==>
      && !t.readOnly && t.toolId == "anima.external.notifications.send"
      && (t.profile == "notifications.send" || t.profile == "anima.external.notifications.send")
    ensures ResolveSafetySpec(t).Some? && ResolveSafetySpec(t).value.PowerSpec? <==>
      !t.readOnly && (t.profile == "set_power" || t.profile == "home_assistant.set_power")
    ensures forall p, k :: ResolveSafetySpec(t) == Some(PowerSpec(p, k)) ==> p == t.profile && k == t.keyed
  {
  }

  /** A power request locks each resource it names and, with a capability, that capability of the first of them. */
  lemma PowerScopesExactly(profile: string, keyed: bool, args: Arguments)
    requires ResourceValues(args).Some?
    ensures var scopes := Scopes(PowerSpec(profile, keyed), args);
      var ids := SortedSet(ResourceValues(args).value);
      var capability := Argument(args, "capability_id");
      var joint := capability != PyNone && ids != [];
      && (scopes == None <==> joint && AsUuid(capability).Malformed?)
      && (scopes.Some? ==>
            && Ascending(scopes.value)
            && forall s :: s in scopes.value <==>
                 || (exists id :: id in ResourceValues(args).value && s == "resource:" + id)
                 || (joint && s == "capability:" + ids[0] + ":" + AsUuid(capability).text))
  {
    hide ResourceValues, AsUuid;
    var values := ResourceValues(args).value;
    var ids := SortedSet(values);
    forall s ensures s in ResourceScopes(ids) <==> exists id :: id in values && s == "resource:" + id {
      if s in ResourceScopes(ids) {
        var i :| 0 <= i < |ids| && ResourceScopes(ids)[i] == s;
        assert ids[i] in values;
      }
      if id :| id in values && s == "resource:" + id {
        assert id in ids;
        var i :| 0 <= i < |ids| && ids[i] == id;
        assert ResourceScopes(ids)[i] == s;
      }
    }
  }

  /** When a request is refused, and what of the call it keeps. */
  lemma CreatesExactly(tool: Tool, arguments: Arguments, g: Given)
    ensures var r := CreateRequest(tool, arguments, g);
      var values, spec := ResourceValues(arguments), ResolveSafetySpec(tool);
      var unscoped := g.lockScopes == [] && spec.Some? && Scopes(spec.value, arguments) == None;
      && (r == None <==>
            values == None || unscoped || Collapse(g.key) == "" || g.household != g.identityHousehold)
      && (r.Some? ==>
            var q := r.value;
            && q.actionId == g.actionId && q.key == g.key && q.household == g.household && q.principal == g.principal
            && q.tool == tool && q.arguments == arguments && q.preconditions == g.preconditions && q.spec == spec
            && q.hasRefresher == g.hasRefresher && q.hasVerifier == g.hasVerifier && q.challenge == g.challenge
            && Ascending(q.resourceIds)
            && (forall id :: id in q.resourceIds <==> id in if g.resourceIds == [] then values.value else g.resourceIds)
            && (g.lockScopes != [] ==> q.lockScopes == g.lockScopes)
            && (g.lockScopes == [] && spec.Some? && Scopes(spec.value, arguments).value != [] ==>
                  q.lockScopes == Scopes(spec.value, arguments).value)
            && (g.lockScopes == [] && (spec == None || Scopes(spec.value, arguments).value == []) ==>
                  |q.lockScopes| == |q.resourceIds|
                  && forall i :: 0 <= i < |q.resourceIds| ==> q.lockScopes[i] == "resource:" + q.resourceIds[i]))
  {
    hide ResourceValues, ResolveSafetySpec, Scopes, Collapse;
  }

  /** Two requests are one for the idempotency key exactly when they agree, as stored, on what is asked of whom. */
  lemma DigestsAgreeExactly(r: Request, q: Request)
    ensures RequestDigest(r) == RequestDigest(q) <==>
      && r.household == q.household && r.tool.toolId == q.tool.toolId && r.tool.version == q.tool.version
      && JsonArguments(r.arguments) == JsonArguments(q.arguments) && r.resourceIds == q.resourceIds
      && r.lockScopes == q.lockScopes && Kind(r.spec) == Kind(q.spec)
      && |r.preconditions| == |q.preconditions|
      && forall i :: 0 <= i < |r.preconditions| ==> SameWhenStored(r.preconditions[i], q.preconditions[i])
  {
    hide JsonArguments;
    KindIsProfile(r.spec);
    KindIsProfile(q.spec);
    var a, b := RequestDigest(r).preconditions, RequestDigest(q).preconditions;
    if |a| == |b| {
      assert a == b <==> forall i :: 0 <= i < |a| ==> a[i] == b[i];
      forall i | 0 <= i < |a| ensures a[i] == b[i] <==> SameWhenStored(r.preconditions[i], q.preconditions[i]) {
        assert a[i] == JsonPrecondition(r.preconditions[i]) && b[i] == JsonPrecondition(q.preconditions[i]);
      }
    }
  }

  lemma KindIsProfile(spec: Option<SafetySpec>)
    ensures Kind(spec) == if spec.Some? then Some(ProfileId(spec.value)) else None
  {
  }

  ghost predicate SameWhenStored(p: Precondition, q: Precondition) {
    && p.truthKey == q.truthKey && p.expectedState == q.expectedState && p.expectedVersion == q.expectedVersion
    && Json(p.expectedValue) == Json(q.expectedValue)
  }

  /** The profile that the rules are for. */
  ghost function Kind(spec: Option<SafetySpec>): Option<string> {
    match spec
    case None => None
    case Some(NotificationSpec) => Some("notifications.send")
    case Some(PowerSpec(profile, _)) => Some(profile)
  }

  /** What JSON makes of a value: ids and foreign objects become text, tuples lists, and the rest stays. */
  lemma StoredExactly(v: Py)
    ensures match v
      case PyUuid(text) => Json(v) == PyStr(text)
      case PyOther(shown, _) => Json(v) == PyStr(shown)
      case PyList(items) => Json(v).PyList? && StoredItems(items, Json(v).items)
      case PyTuple(items) => Json(v).PyList? && StoredItems(items, Json(v).items)
      case PyDict(entries) =>
        && Json(v).PyDict? && Json(v).entries.Keys == entries.Keys
        && forall k :: k in entries ==> Json(v).entries[k] == Json(entries[k])
      case _ => Json(v) == v
  {
  }

  ghost predicate StoredItems(items: seq<Py>, stored: seq<Py>) {
    |stored| == |items| && forall i :: 0 <= i < |items| ==> stored[i] == Json(items[i])
  }
}
