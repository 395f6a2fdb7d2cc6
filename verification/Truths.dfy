/** Latest observed state: preconditions before an action and evidence after it. */
module Truths {
  import opened Options
  import opened Ordering
  import opened ActionRequests

  datatype Observation = Observation(state: string, value: Py, version: string)

  type Truth = map<string, Observation>

  /** The keys of a snapshot in Python's order. */
  function SortedKeys(keys: set<string>): (r: seq<string>)
    ensures Ascending(r)
    ensures forall k :: k in r <==> k in keys
  {
    if keys == {} then []
    else
      LeastExists(keys);
      var least :| least in keys && forall k :: k in keys ==> k == least || Before(least, k);
      assert forall k :: k in keys ==> !Before(k, least) by {
        forall k | k in keys ensures !Before(k, least) { BeforeIsStrict(least, k); BeforeIsStrict(k, least); }
      }
      [least] + SortedKeys(keys - {least})
  }

  lemma {:induction false} LeastExists(keys: set<string>)
    requires keys != {}
    ensures exists least :: least in keys && forall k :: k in keys ==> k == least || Before(least, k)
  {
    hide Before;
    var x :| x in keys;
    var rest := keys - {x};
    assert forall k :: k in keys <==> k == x || k in rest;
    if rest != {} {
      LeastExists(rest);
      var y :| y in rest && forall k :: k in rest ==> k == y || Before(y, k);
      BeforeIsTotal(x, y);
      if Before(x, y) {
        forall k | k in keys ensures k == x || Before(x, k) {
          if k in rest && k != y { BeforeIsTransitive(x, y, k); }
        }
      } else {
        assert y in keys && forall k :: k in keys ==> k == y || Before(y, k);
      }
    }
  }

  /** `TruthPrecondition.matches`; an expectation that is `None` is not checked. */
  predicate MatchesTruth(p: Precondition, truth: Truth) {
    && p.truthKey in truth
    && (p.expectedState.Some? ==> truth[p.truthKey].state == p.expectedState.value)
    && (p.expectedValue.PyNone? || PyEquals(truth[p.truthKey].value, p.expectedValue))
    && (p.expectedVersion.Some? ==> truth[p.truthKey].version == p.expectedVersion.value)
  }

  predicate AllMatch(ps: seq<Precondition>, truth: Truth) {
    forall i :: 0 <= i < |ps| ==> MatchesTruth(ps[i], truth)
  }

  /** Equal values, where a truth value is the number 0 or 1. */
  ghost predicate SameValue(a: Py, b: Py) {
    match (a, b)
    case (PyInt(i), PyInt(j)) => i == j
    case (PyInt(i), PyReal(y)) => i as real == y
    case (PyReal(x), PyInt(j)) => x == j as real
    case (PyReal(x), PyReal(y)) => x == y
    case (PyBool(p), PyBool(q)) => p <==> q
    case (PyBool(p), PyInt(j)) => (p && j == 1) || (!p && j == 0)
    case (PyInt(i), PyBool(q)) => (q && i == 1) || (!q && i == 0)
    case (PyBool(p), PyReal(y)) => (p && y == 1.0) || (!p && y == 0.0)
    case (PyReal(x), PyBool(q)) => (q && x == 1.0) || (!q && x == 0.0)
    case _ => a == b
  }

  lemma EqualsIsSameValue(a: Py, b: Py)
    ensures PyEquals(a, b) <==> SameValue(a, b)
  {
  }

  /** What a precondition asks for: its key was observed, and whatever it expects of it was. */
  ghost predicate Meets(p: Precondition, truth: Truth) {
    p.truthKey in truth &&
    var seen := truth[p.truthKey];
    && (match p.expectedState
        case Some(state) => seen.state == state
        case None => true)
    && (match p.expectedVersion
        case Some(version) => seen.version == version
        case None => true)
    && (p.expectedValue != PyNone ==> SameValue(seen.value, p.expectedValue))
  }

  /** The checks hold if and only if every one of them gets what it asks for. */
  lemma AllMatchExactly(ps: seq<Precondition>, truth: Truth)
    ensures AllMatch(ps, truth) <==> forall i :: 0 <= i < |ps| ==> Meets(ps[i], truth)
    ensures forall i :: 0 <= i < |ps| ==> (MatchesTruth(ps[i], truth) <==> Meets(ps[i], truth))
  {
    forall i | 0 <= i < |ps| ensures MatchesTruth(ps[i], truth) <==> Meets(ps[i], truth) {
      if ps[i].truthKey in truth { EqualsIsSameValue(truth[ps[i].truthKey].value, ps[i].expectedValue); }
    }
  }

  function MandatoryPreconditions(spec: SafetySpec, truth: Truth): seq<Precondition> {
    if spec.NotificationSpec? then []
    else
      var keys := SortedKeys(truth.Keys);
      seq(|keys|, i requires 0 <= i < |keys| => Precondition(keys[i], Some("KNOWN"), PyNone, None))
  }

  datatype Effect = Effect(truthKey: string, expectedValue: Py, expectedState: string, effectId: string)

  /** The power state asked for. */
  function Desired(args: Arguments): Option<Py> {
    if "desired_on" !in args then None
    else Some(PyStr(if Truthy(args["desired_on"]) then "on" else "off"))
  }

  /** Asked to be on exactly when the value counts as true, off when it counts as false, and nothing without it. */
  lemma DesiredExactly(args: Arguments)
    ensures Desired(args) == None <==> "desired_on" !in args
    ensures Desired(args) == Some(PyStr("on")) <==> "desired_on" in args && Truthy(args["desired_on"])
    ensures Desired(args) == Some(PyStr("off")) <==> "desired_on" in args && !Truthy(args["desired_on"])
  {
  }

  function ExpectedEffects(spec: SafetySpec, args: Arguments, truth: Truth): seq<Effect> {
    if spec.NotificationSpec? then
      [Effect("provider:notification:accepted", PyBool(true), "KNOWN", "provider:notification:accepted")]
    else if Desired(args).None? then []
    else
      var keys := SortedKeys(truth.Keys);
      seq(|keys|, i requires 0 <= i < |keys| => Effect(keys[i], Desired(args).value, "KNOWN",
        spec.profile + ":" + keys[i]))
  }

  /**
   A power call is expected to bring every key that was read to the state asked for, once each, and
   nothing when it asks for none; a notification is expected to be accepted, whatever was read.
   */
  lemma EffectsExactly(spec: SafetySpec, args: Arguments, truth: Truth)
    ensures var es := ExpectedEffects(spec, args, truth);
      match spec
      case NotificationSpec =>
        var name := "provider:notification:accepted";
        es == [Effect(name, PyBool(true), "KNOWN", name)]
      case PowerSpec(profile, _) =>
        && (Desired(args) == None ==> es == [])
        && (Desired(args) != None ==> forall k :: k in truth <==> exists i :: 0 <= i < |es| && es[i].truthKey == k)
        && (forall i, j :: 0 <= i < j < |es| ==> Before(es[i].truthKey, es[j].truthKey))
        && (forall i :: 0 <= i < |es| ==>
              && es[i].expectedState == "KNOWN" && Some(es[i].expectedValue) == Desired(args)
              && es[i].effectId == profile + ":" + es[i].truthKey)
  {
    hide Before;
    var es := ExpectedEffects(spec, args, truth);
    if spec.PowerSpec? && Desired(args) != None {
      var keys := SortedKeys(truth.Keys);
      forall k ensures k in truth <==> exists i :: 0 <= i < |es| && es[i].truthKey == k {
        assert k in truth <==> k in keys;
        forall i | 0 <= i < |es| ensures es[i].truthKey == keys[i] {}
      }
    }
  }

  // ----- verification -----

  datatype Verdict = Verified | Contradicted | Unverified

  datatype Evidence = Evidence(effect: Effect, outcome: Verdict)

  datatype Verification = Verification(outcome: Verdict, effects: seq<Evidence>)

  function Judge(truth: Truth, e: Effect): Verdict {
    if e.truthKey !in truth || truth[e.truthKey].state != e.expectedState then Unverified
    else if PyEquals(truth[e.truthKey].value, e.expectedValue) then Verified
    else Contradicted
  }

  function EvidenceFor(truth: Truth, effects: seq<Effect>): (r: seq<Evidence>)
    ensures |r| == |effects|
    ensures forall i :: 0 <= i < |effects| ==> r[i] == Evidence(effects[i], Judge(truth, effects[i]))
  {
    seq(|effects|, i requires 0 <= i < |effects| => Evidence(effects[i], Judge(truth, effects[i])))
  }

  predicate AnyOutcome(es: seq<Evidence>, v: Verdict) {
    exists i :: 0 <= i < |es| && es[i].outcome == v
  }

  predicate AllVerified(es: seq<Evidence>) {
    forall i :: 0 <= i < |es| ==> es[i].outcome.Verified?
  }

  function Observed(truth: Truth, effects: seq<Effect>): Verification {
    var es := EvidenceFor(truth, effects);
    Verification(
      if effects == [] then Unverified
      else if AllVerified(es) then Verified
      else if AnyOutcome(es, Verified) then Unverified
      else if AnyOutcome(es, Contradicted) then Contradicted
      else Unverified,
      es)
  }

  method VerifyObserved(truth: Truth, effects: seq<Effect>) returns (v: Verification)
    ensures v == Observed(truth, effects)
  {
    if effects == [] {
      return Verification(Unverified, []);
    }
    var evidence: seq<Evidence> := [];
    var i := 0;
    while i < |effects|
      invariant 0 <= i <= |effects|
      invariant evidence == EvidenceFor(truth, effects)[..i]
    {
      var e := effects[i];
      if e.truthKey !in truth || truth[e.truthKey].state != e.expectedState {
        evidence := evidence + [Evidence(e, Unverified)];
      } else if PyEquals(truth[e.truthKey].value, e.expectedValue) {
        evidence := evidence + [Evidence(e, Verified)];
      } else {
        evidence := evidence + [Evidence(e, Contradicted)];
      }
      i := i + 1;
    }
    assert evidence == EvidenceFor(truth, effects);
    var outcome :=
      if AllVerified(evidence) then Verified
      else if AnyOutcome(evidence, Verified) then Unverified
      else if AnyOutcome(evidence, Contradicted) then Contradicted
      else Unverified;
    return Verification(outcome, evidence);
  }

  /** The observed state shows exactly the requested value under a known state. */
  ghost predicate Shows(truth: Truth, key: string, value: Py) {
    key in truth && truth[key].state == "KNOWN" && truth[key].value == value
  }

  /**
   What an observed verdict means for a power request: verified when every key shows the
   requested state; contradicted when none does and some key is known to differ.
   */
  lemma ObservedMeans(spec: SafetySpec, args: Arguments, before: Truth, after: Truth)
    requires spec.PowerSpec?
    ensures var effects := ExpectedEffects(spec, args, before);
      var v := Observed(after, effects);
      && (v.outcome.Verified? <==>
            Desired(args).Some? && before != map[] && forall k :: k in before ==> Shows(after, k, Desired(args).value))
      && (v.outcome.Contradicted? <==>
            && Desired(args).Some?
            && (forall k :: k in before ==> !Shows(after, k, Desired(args).value))
            && (exists k :: k in before && k in after && after[k].state == "KNOWN"))
  {
    var keys := SortedKeys(before.Keys);
    assert before == map[] <==> before.Keys == {};
    if Desired(args).Some? {
      assert |ExpectedEffects(spec, args, before)| == |keys|;
      if keys == [] {
        assert forall k :: k in before.Keys ==> k in keys;
        assert before.Keys == {};
      } else {
        assert keys[0] in before.Keys;
        VerifiedMeans(spec, args, before, after);
        ContradictedMeans(spec, args, before, after);
      }
    }
  }

  /** One expected effect per key, judged by what that key shows. */
  lemma JudgedPerKey(spec: SafetySpec, args: Arguments, before: Truth, after: Truth, i: nat)
    requires spec.PowerSpec? && Desired(args).Some? && i < |SortedKeys(before.Keys)|
    ensures var effects := ExpectedEffects(spec, args, before);
      var key := SortedKeys(before.Keys)[i];
      && |effects| == |SortedKeys(before.Keys)|
      && key in before
      && effects[i].truthKey == key
      && (Judge(after, effects[i]).Verified? <==> Shows(after, key, Desired(args).value))
      && (Judge(after, effects[i]).Contradicted? <==>
            key in after && after[key].state == "KNOWN" && !Shows(after, key, Desired(args).value))
  {
  }

  lemma VerifiedMeans(spec: SafetySpec, args: Arguments, before: Truth, after: Truth)
    requires spec.PowerSpec? && Desired(args).Some? && SortedKeys(before.Keys) != []
    ensures Observed(after, ExpectedEffects(spec, args, before)).outcome.Verified? <==>
            forall k :: k in before ==> Shows(after, k, Desired(args).value)
  {
    hide ExpectedEffects, Judge, SortedKeys, Desired;
    var keys, effects := SortedKeys(before.Keys), ExpectedEffects(spec, args, before);
    var es := EvidenceFor(after, effects);
    JudgedPerKey(spec, args, before, after, 0);
    forall i | 0 <= i < |keys| ensures es[i].outcome.Verified? <==> Shows(after, keys[i], Desired(args).value) {
      JudgedPerKey(spec, args, before, after, i);
    }
    forall k | k in before ensures exists i :: 0 <= i < |keys| && keys[i] == k { assert k in keys; }
    forall i | 0 <= i < |keys| ensures keys[i] in before { assert keys[i] in keys; }
    assert |es| == |keys|;
  }

  lemma ContradictedMeans(spec: SafetySpec, args: Arguments, before: Truth, after: Truth)
    requires spec.PowerSpec? && Desired(args).Some? && SortedKeys(before.Keys) != []
    ensures Observed(after, ExpectedEffects(spec, args, before)).outcome.Contradicted? <==>
            && (forall k :: k in before ==> !Shows(after, k, Desired(args).value))
            && (exists k :: k in before && k in after && after[k].state == "KNOWN")
  {
    hide ExpectedEffects, Judge, SortedKeys, Desired;
    var keys, effects := SortedKeys(before.Keys), ExpectedEffects(spec, args, before);
    var es := EvidenceFor(after, effects);
    JudgedPerKey(spec, args, before, after, 0);
    forall i | 0 <= i < |keys|
      ensures es[i].outcome.Verified? <==> Shows(after, keys[i], Desired(args).value)
      ensures es[i].outcome.Contradicted? <==>
              keys[i] in after && after[keys[i]].state == "KNOWN" && !Shows(after, keys[i], Desired(args).value)
    {
      JudgedPerKey(spec, args, before, after, i);
    }
    forall k | k in before ensures exists i :: 0 <= i < |keys| && keys[i] == k { assert k in keys; }
    forall i | 0 <= i < |keys| ensures keys[i] in before { assert keys[i] in keys; }
    assert |es| == |keys|;
  }
}
