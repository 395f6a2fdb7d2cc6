/** From notification text through the outbox to the receiver's event identity. */
module EndToEnd {
  import opened Options
  import opened Texts
  import opened VendorReports
  import opened RelayOutbox
  import opened RelayRuns
  import opened RelaySafety
  import opened Normalizer

  /** A registration for the private notification bus that knows every alias of the rules. */
  predicate Serves(reg: Registration, rules: seq<Rule>, package: string) {
    && reg.Valid()
    && reg.transport.WaydroidPrivateDbus?
    && package in reg.allowedPackages
    && forall r :: r in rules && r.package == package ==> r.alias in reg.mappings
  }

  /** One registration per package, under which the reports of that package are received. */
  ghost predicate Receives(regs: string -> Registration, rules: seq<Rule>) {
    forall package :: AllowedPackage(package) ==> Serves(regs(package), rules, package)
  }

  function Aliases(rules: seq<Rule>): (aliases: set<string>)
    ensures |aliases| <= |rules|
    ensures forall alias :: alias in aliases ==> exists r :: r in rules && r.alias == alias
  {
    if rules == [] then {} else {rules[0].alias} + Aliases(rules[1..])
  }

  lemma {:induction false} AliasesAreAll(rules: seq<Rule>, r: Rule)
    requires r in rules
    ensures r.alias in Aliases(rules)
  {
    if r != rules[0] { AliasesAreAll(rules[1..], r); }
  }

  /** Every alias of the rules stands for one resource. */
  function Mapped(rules: seq<Rule>, resource: string): map<string, string> {
    map alias | alias in Aliases(rules) :: resource
  }

  lemma AliasIsLabel(r: Rule)
    requires ValidRule(r)
    ensures Label(r.alias, 64)
  {
  }

  function RegistrationFor(
    rules: seq<Rule>, household: string, relay: string, resource: string, package: string
  ): Registration {
    Registration(household, relay, Mapped(rules, resource), {}, {package}, 300, WaydroidPrivateDbus)
  }

  lemma MappedIsValid(rules: seq<Rule>, resource: string)
    requires |rules| <= 64 && (forall r :: r in rules ==> ValidRule(r)) && DeliveryUuid(Text(resource))
    ensures var m := Mapped(rules, resource);
      && |m| <= 128
      && (forall alias :: alias in m ==> Label(alias, 64) && DeliveryUuid(Text(m[alias])))
      && (forall r :: r in rules ==> r.alias in m)
  {
    hide DeliveryUuid, ValidRule, Label;
    var m := Mapped(rules, resource);
    assert m.Keys == Aliases(rules);
    forall alias | alias in m ensures Label(alias, 64) {
      var r :| r in rules && r.alias == alias;
      AliasIsLabel(r);
    }
    forall r | r in rules ensures r.alias in m { AliasesAreAll(rules, r); }
  }

  /** Such registrations can be constructed for every rule set that can be loaded. */
  lemma RegistrationsCanServe(rules: seq<Rule>, household: string, relay: string, resource: string)
    requires |rules| <= 64 && forall r :: r in rules ==> ValidRule(r)
    requires DeliveryUuid(Text(household)) && DeliveryUuid(Text(relay)) && DeliveryUuid(Text(resource))
    ensures Receives(package => RegistrationFor(rules, household, relay, resource, package), rules)
  {
    hide DeliveryUuid, ValidRule, Mapped, Label;
    MappedIsValid(rules, resource);
    forall package | AllowedPackage(package)
      ensures Serves(RegistrationFor(rules, household, relay, resource, package), rules, package)
    {
    }
  }

  predicate ControlFree(s: string) {
    forall i :: 0 <= i < |s| ==> s[i] >= ' '
  }

  lemma LabelReads(s: string, limit: nat)
    requires Label(s, limit) && limit <= 64
    ensures OptionalText(Text(s), limit) == Some(Some(s))
    ensures LabelIn(Text(s)) == Some(s)
  {
    CollapseKeepsSpaceless(s);
  }

  /** A profile reference is readable exactly when it holds no control character. */
  lemma ProfileReads(r: Rule, text: string, fold: string -> string)
    requires Profile(r, text, fold).Some?
    ensures OptionalText(Text(Profile(r, text, fold).value), 80).Some? <==> ControlFree(Profile(r, text, fold).value)
  {
    var p := Profile(r, text, fold).value;
    ProfileIsShort(r, text, fold);
    CollapseShrinks(p);
    var read := Collapse(p);
    if !ControlFree(p) {
      var i :| 0 <= i < |p| && p[i] < ' ';
      assert p[i] in p && p[i] in read;
      var j :| 0 <= j < |read| && read[j] == p[i];
    } else {
      forall j | 0 <= j < |read| ensures read[j] >= ' ' {
        assert read[j] in read;
        if read[j] != ' ' {
          var i :| 0 <= i < |p| && p[i] == read[j];
        }
      }
    }
  }

  /** The profile text that goes into a lock report, if any, holds no control character. */
  predicate CleanProfile(
    package: string, summary: string, body: string, rules: seq<Rule>, fold: string -> string
  ) {
    var text := fold(Bounded(summary) + " " + Bounded(body));
    var rule := FirstMatch(rules, package, text);
    || package == WANSVIEW_PACKAGE
    || rule.None?
    || Profile(rule.value, text, fold).None?
    || ControlFree(Profile(rule.value, text, fold).value)
  }

  /**
   The normalizer accepts what the relay matches, with one exception that it names exactly: a
   lock report whose profile text holds a control character.
   */
  lemma MatchedReportIsAccepted(
    package: string, summary: string, body: string, rules: seq<Rule>, fold: string -> string,
    id: string, receivedAt: string, reg: Registration, at: int, parse: string -> Option<int>
  )
    requires forall r :: r in rules ==> ValidRule(r)
    requires MatchReport(package, summary, body, rules, fold, id, receivedAt).Some?
    requires Serves(reg, rules, package)
    requires DeliveryUuid(Text(id)) && |receivedAt| <= 40 && parse(receivedAt).Some?
    ensures var report := MatchReport(package, summary, body, rules, fold, id, receivedAt).value;
      Sanitize(report, reg, at, parse).disposition ==
        if CleanProfile(package, summary, body, rules, fold) then NormalizedReport else InvalidFields
  {
    hide Sanitize, MotionFields, LockFields, DeliveryUuid, OptionalText, Bounded, Profile, ControlFree;
    var text := fold(Bounded(summary) + " " + Bounded(body));
    var rule := FirstMatch(rules, package, text).value;
    LabelReads(rule.alias, 64);
    LabelReads(rule.kind, 64);
    if package == WANSVIEW_PACKAGE {
      MotionIsAccepted(rule, id, receivedAt, reg, at, parse);
    } else {
      var profile := Profile(rule, text, fold);
      if profile.Some? { ProfileReads(rule, text, fold); }
      if rule.method_.Some? { LabelReads(rule.method_.value, 40); }
      LockIsAccepted(rule, id, receivedAt, profile, reg, at, parse);
    }
  }

  lemma MotionIsAccepted(
    r: Rule, id: string, receivedAt: string, reg: Registration, at: int, parse: string -> Option<int>
  )
    requires LabelIn(Text(r.alias)) == Some(r.alias) && r.alias in reg.mappings
    requires reg.transport.WaydroidPrivateDbus? && WANSVIEW_PACKAGE in reg.allowedPackages
    requires DeliveryUuid(Text(id)) && |receivedAt| <= 40 && parse(receivedAt).Some?
    ensures Sanitize(Report(WANSVIEW_PACKAGE, MotionFields(r, id, receivedAt)), reg, at, parse)
              .disposition.NormalizedReport?
  {
    hide DeliveryUuid, FreshnessOf, NormalizeMotion, LabelIn;
    var f := MotionFields(r, id, receivedAt);
    assert f.Keys == MOTION_KEYS;
    MotionFieldsNormalize(r, id, receivedAt, reg, at, parse);
  }

  lemma MotionFieldsNormalize(
    r: Rule, id: string, receivedAt: string, reg: Registration, at: int, parse: string -> Option<int>
  )
    requires LabelIn(Text(r.alias)) == Some(r.alias) && r.alias in reg.mappings
    requires reg.transport.WaydroidPrivateDbus?
    requires DeliveryUuid(Text(id)) && |receivedAt| <= 40 && parse(receivedAt).Some?
    requires MotionFields(r, id, receivedAt).Keys == MOTION_KEYS
    ensures NormalizeMotion(MotionFields(r, id, receivedAt), reg, at, parse).disposition.NormalizedReport?
  {
    hide DeliveryUuid, FreshnessOf, LabelIn;
    MotionIsALabel();
  }

  lemma MotionIsALabel()
    ensures LabelIn(Text("motion_reported")) == Some("motion_reported")
  {
  }

  lemma LockIsAccepted(
    r: Rule, id: string, receivedAt: string, profile: Option<string>, reg: Registration, at: int,
    parse: string -> Option<int>
  )
    requires LabelIn(Text(r.alias)) == Some(r.alias) && r.alias in reg.mappings
    requires LabelIn(Text(r.kind)) == Some(r.kind) && r.kind in {"locked", "unlocked"}
    requires r.method_.Some? ==> OptionalText(Text(r.method_.value), 40).Some?
    requires TAPO_PACKAGE in reg.allowedPackages
    requires DeliveryUuid(Text(id)) && |receivedAt| <= 40 && parse(receivedAt).Some?
    ensures Sanitize(Report(TAPO_PACKAGE, LockFields(r, id, receivedAt, profile)), reg, at, parse).disposition ==
      if profile.None? || OptionalText(Text(profile.value), 80).Some? then NormalizedReport else InvalidFields
  {
    hide DeliveryUuid, FreshnessOf, NormalizeLock, LabelIn, OptionalText;
    assert LockFields(r, id, receivedAt, profile).Keys == LOCK_KEYS;
    LockFieldsNormalize(r, id, receivedAt, profile, reg, at, parse);
  }

  lemma LockFieldsNormalize(
    r: Rule, id: string, receivedAt: string, profile: Option<string>, reg: Registration, at: int,
    parse: string -> Option<int>
  )
    requires LabelIn(Text(r.alias)) == Some(r.alias) && r.alias in reg.mappings
    requires LabelIn(Text(r.kind)) == Some(r.kind) && r.kind in {"locked", "unlocked"}
    requires r.method_.Some? ==> OptionalText(Text(r.method_.value), 40).Some?
    requires DeliveryUuid(Text(id)) && |receivedAt| <= 40 && parse(receivedAt).Some?
    requires LockFields(r, id, receivedAt, profile).Keys == LOCK_KEYS
    ensures NormalizeLock(LockFields(r, id, receivedAt, profile), reg, at, parse).disposition ==
      if profile.None? || OptionalText(Text(profile.value), 80).Some? then NormalizedReport else InvalidFields
  {
    hide DeliveryUuid, FreshnessOf, LabelIn, Collapse;
  }

  lemma OnlyRuleServes(reg: Registration, rule: Rule)
    requires reg.Valid() && reg.transport.WaydroidPrivateDbus?
    requires rule.package in reg.allowedPackages && rule.alias in reg.mappings
    ensures Serves(reg, [rule], rule.package)
  {
    hide DeliveryUuid, Label;
  }

  /** A control character that is no space reaches the profile, and the report is refused. */
  lemma ControlCharacterIsRefused(
    id: string, receivedAt: string, reg: Registration, at: int, parse: string -> Option<int>
  )
    requires DeliveryUuid(Text(id)) && |receivedAt| <= 40 && parse(receivedAt).Some?
    requires reg.Valid() && reg.transport.WaydroidPrivateDbus?
    requires TAPO_PACKAGE in reg.allowedPackages && "door" in reg.mappings
    ensures var rules := [Rule(TAPO_PACKAGE, "door", "unlocked", ["a"], ["b"], Some("a"), None)];
      var report := MatchReport(TAPO_PACKAGE, "a b\U{1}", "", rules, s => s, id, receivedAt);
      && ValidRule(rules[0]) && Serves(reg, rules, TAPO_PACKAGE)
      && report.Some? && Sanitize(report.value, reg, at, parse).disposition.InvalidFields?
  {
    var rule := Rule(TAPO_PACKAGE, "door", "unlocked", ["a"], ["b"], Some("a"), None);
    var fold := (s: string) => s;
    hide Sanitize, Matches, Profile, Bounded, DeliveryUuid, Serves, ValidRule, CleanProfile;
    ControlCharacterReachesTheProfile(rule, fold);
    OnlyRuleServes(reg, rule);
    MatchedReportIsAccepted(TAPO_PACKAGE, "a b\U{1}", "", [rule], fold, id, receivedAt, reg, at, parse);
  }

  lemma ControlCharacterIsNoSpace()
    ensures Bounded("a b\U{1}") == "a b\U{1}" && Bounded("") == ""
  {
    var s := "a b\U{1}";
    CollapseKeepsSpaceless("b\U{1}");
    assert s[1..] == " b\U{1}" && s[1..][1..] == "b\U{1}" && WordEnd(s) == 1;
    assert Collapse(s[1..]) == "b\U{1}";
    assert Collapse(s) == s[..1] + " " + "b\U{1}";
  }

  lemma SpacesAroundAreDropped()
    ensures Bounded(" b\U{1} ") == "b\U{1}"
  {
    var t, u := " b\U{1} ", "b\U{1} ";
    assert t[1..] == u && Collapse(t) == Collapse(u);
    assert WordEnd(u[1..]) == 1 && WordEnd(u) == 2;
    assert u[2..] == " " && Collapse(u[2..]) == "" && u[..2] == "b\U{1}";
  }

  lemma ProfileIsTheRest(rule: Rule, fold: string -> string)
    requires rule == Rule(TAPO_PACKAGE, "door", "unlocked", ["a"], ["b"], Some("a"), None)
    requires forall s :: fold(s) == s
    ensures Profile(rule, "a b\U{1} ", fold) == Some("b\U{1}")
  {
    hide Bounded;
    var text, p := "a b\U{1} ", "b\U{1}";
    SpacesAroundAreDropped();
    assert Find(text, "a") == 0 && text[1..] == " b\U{1} ";
    assert p[0] !in " .,:;!-" && p[1] !in " .,:;!-" && Strip(p, " .,:;!-") == p;
  }

  lemma ControlCharacterReachesTheProfile(rule: Rule, fold: string -> string)
    requires rule == Rule(TAPO_PACKAGE, "door", "unlocked", ["a"], ["b"], Some("a"), None)
    requires forall s :: fold(s) == s
    ensures ValidRule(rule)
    ensures Matches(rule, TAPO_PACKAGE, fold(Bounded("a b\U{1}") + " " + Bounded("")))
    ensures !CleanProfile(TAPO_PACKAGE, "a b\U{1}", "", [rule], fold)
  {
    hide Bounded, Profile, Strip;
    var text, p := "a b\U{1} ", "b\U{1}";
    ControlCharacterIsNoSpace();
    ProfileIsTheRest(rule, fold);
    assert fold(Bounded("a b\U{1}") + " " + Bounded("")) == text;
    assert Find(text, "a") == 0;
    assert text[1..] == " b\U{1} " && text[1..][1..] == "b\U{1} " && Find("b\U{1} ", "b") == 0 && Find(text, "b") == 2;
    assert rule.aliasTerms[0] == "a" && rule.eventTerms[0] == "b";
    assert Matches(rule, TAPO_PACKAGE, text);
    assert FirstMatch([rule], TAPO_PACKAGE, text) == Some(rule);
    assert p[1] < ' ';
  }

  /**
   Over every run of the relay, with any failures and crashes, two posts of one outbox entry are
   one event for the receiver, whenever it received them.
   */
  lemma ResendsAreDuplicates(
    disk: Snapshot, events: seq<RelayRuns.Event>, i: nat, j: nat, reg: Registration,
    first: int, again: int, parse: string -> Option<int>
  )
    requires Loadable(disk) && DistinctIds(disk.deliveries)
    requires i < |Run(disk, events).posts| && j < |Run(disk, events).posts|
    requires Run(disk, events).posts[i].deliveryId == Run(disk, events).posts[j].deliveryId
    ensures Run(disk, events).posts[i].report.Some?
    ensures Run(disk, events).posts[j].report == Run(disk, events).posts[i].report
    ensures var a := Sanitize(Run(disk, events).posts[i].report.value, reg, first, parse);
      var b := Sanitize(Run(disk, events).posts[j].report.value, reg, again, parse);
      && a.disposition == b.disposition
      && (a.event.Some? ==>
            b.event.Some? && CompareDelivery(a.event.value.receipt, b.event.value.receipt) == Duplicate)
  {
    ResendsAreIdentical(disk, events, i, j);
    RetryIsDuplicate(Run(disk, events).posts[i].report.value, reg, first, again, parse);
  }

  // ----- acceptance over runs -----

  /** The report of an arrival was matched in notification text, with a readable profile. */
  ghost predicate FromText(
    e: RelayRuns.Event, rules: seq<Rule>, fold: string -> string, parse: string -> Option<int>
  ) {
    e.Arriving? ==>
      && DeliveryUuid(Text(e.id))
      && exists summary, body, receivedAt ::
           && MatchReport(e.package, summary, body, rules, fold, e.id, receivedAt) == Some(e.report)
           && |receivedAt| <= 40 && parse(receivedAt).Some?
           && CleanProfile(e.package, summary, body, rules, fold)
  }

  /** The receiver accepts the report, whenever it receives it, under the id it was filed with. */
  ghost predicate Acceptable(
    id: string, report: Report, regs: string -> Registration, parse: string -> Option<int>
  ) {
    && IdOf(report) == Text(id)
    && forall at :: Sanitize(report, regs(report.package), at, parse).disposition.NormalizedReport?
  }

  ghost predicate AllAcceptable(
    issued: map<string, Option<Report>>, regs: string -> Registration, parse: string -> Option<int>
  ) {
    forall id :: id in issued && issued[id].Some? ==> Acceptable(id, issued[id].value, regs, parse)
  }

  lemma ArrivalCarriesItsId(
    e: RelayRuns.Event, rules: seq<Rule>, fold: string -> string, parse: string -> Option<int>
  )
    requires e.Arriving? && FromText(e, rules, fold, parse)
    ensures IdOf(e.report) == Text(e.id) && e.report.package == e.package
  {
    hide FirstMatch, Bounded, Profile, CleanProfile, DeliveryUuid;
  }

  lemma FromTextIsAcceptable(
    e: RelayRuns.Event, rules: seq<Rule>, fold: string -> string, regs: string -> Registration,
    parse: string -> Option<int>
  )
    requires forall r :: r in rules ==> ValidRule(r)
    requires e.Arriving? && FromText(e, rules, fold, parse) && Serves(regs(e.package), rules, e.package)
    ensures Acceptable(e.id, e.report, regs, parse)
  {
    hide Sanitize, Serves, ValidRule, CleanProfile, DeliveryUuid, MatchReport, IdOf;
    ArrivalCarriesItsId(e, rules, fold, parse);
    var summary, body, receivedAt :|
      && MatchReport(e.package, summary, body, rules, fold, e.id, receivedAt) == Some(e.report)
      && |receivedAt| <= 40 && parse(receivedAt).Some?
      && CleanProfile(e.package, summary, body, rules, fold);
    forall at ensures Sanitize(e.report, regs(e.report.package), at, parse).disposition.NormalizedReport? {
      MatchedReportIsAccepted(e.package, summary, body, rules, fold, e.id, receivedAt, regs(e.package), at, parse);
    }
  }

  /** Only an arrival files a report. */
  lemma FiledByArrivals(w: World, e: RelayRuns.Event)
    requires Enabled(w, e)
    ensures Apply(w, e).issued == w.issued
      || (e.Arriving? && Apply(w, e).issued == w.issued[e.id := Some(e.report)])
  {
    hide Compacted, ExpireAll, FirstDue, Postpone, ValidReceipt;
  }

  lemma {:induction false} IssuedStaysAcceptable(
    disk: Snapshot, events: seq<RelayRuns.Event>, rules: seq<Rule>, fold: string -> string,
    regs: string -> Registration, parse: string -> Option<int>
  )
    requires forall r :: r in rules ==> ValidRule(r)
    requires Receives(regs, rules)
    requires AllAcceptable(FiledIn(disk.deliveries), regs, parse)
    requires forall k :: 0 <= k < |events| ==> FromText(events[k], rules, fold, parse)
    ensures AllAcceptable(Run(disk, events).issued, regs, parse)
  {
    hide Apply, Acceptable, FromText, Serves, ValidRule;
    if events != [] {
      var n := |events| - 1;
      IssuedStaysAcceptable(disk, events[..n], rules, fold, regs, parse);
      var w := Run(disk, events[..n]);
      if Enabled(w, events[n]) {
        FiledByArrivals(w, events[n]);
        if events[n].Arriving? { FromTextIsAcceptable(events[n], rules, fold, regs, parse); }
      }
    }
  }

  /**
   From notification text to event identity: in every run whose reports were matched in text with
   readable profiles, over any failures and crashes, the receiver accepts every post, and two posts
   are one event for it exactly when they are of one outbox entry.
   */
  lemma PostsAreEventsOfTheirEntry(
    disk: Snapshot, events: seq<RelayRuns.Event>, rules: seq<Rule>, fold: string -> string,
    regs: string -> Registration, parse: string -> Option<int>, i: nat, j: nat, first: int, again: int
  )
    requires forall r :: r in rules ==> ValidRule(r)
    requires Receives(regs, rules)
    requires Loadable(disk) && DistinctIds(disk.deliveries) && AllAcceptable(FiledIn(disk.deliveries), regs, parse)
    requires forall k :: 0 <= k < |events| ==> FromText(events[k], rules, fold, parse)
    requires i < |Run(disk, events).posts| && j < |Run(disk, events).posts|
    ensures var p, q := Run(disk, events).posts[i], Run(disk, events).posts[j];
      && p.report.Some? && q.report.Some?
      && var a := Sanitize(p.report.value, regs(p.report.value.package), first, parse);
      var b := Sanitize(q.report.value, regs(q.report.value.package), again, parse);
      && a.event.Some? && b.event.Some?
      && CompareDelivery(a.event.value.receipt, b.event.value.receipt) ==
           if p.deliveryId == q.deliveryId then Duplicate else Distinct
  {
    hide Sanitize, Receives, ValidRule, FromText, Shape, Truthful, Loadable, DistinctIds, Run;
    var w := Run(disk, events);
    IssuedStaysAcceptable(disk, events, rules, fold, regs, parse);
    AlwaysHonest(disk, events);
    var p, q := w.posts[i], w.posts[j];
    assert FiledPost(p, w) && FiledPost(q, w);
    var a, b := p.report.value, q.report.value;
    assert Acceptable(p.deliveryId, a, regs, parse) && Acceptable(q.deliveryId, b, regs, parse);
    ReportIsNamed(a, regs(a.package), first, parse);
    ReportIsNamed(b, regs(b.package), again, parse);
    if p.deliveryId == q.deliveryId { RetryIsDuplicate(a, regs(a.package), first, again, parse); }
  }
}
