/** Minimized vendor reports, as the relay builds them from notification text. */
module VendorReports {
  import opened Options
  import opened Texts
  import opened Uuids

  /** A JSON value of a report field; `Compound` is any list, object or fraction. */
  datatype Field = Null | Text(s: string) | Flag(b: bool) | Number(n: int) | Compound

  type Fields = map<string, Field>

  datatype Report = Report(package: string, fields: Fields)

  const TAPO_PACKAGE := "com.tplink.iot"
  const WANSVIEW_PACKAGE := "net.ajcloud.wansviewplus"
  const MAX_TEXT := 512
  const MOTION_FORMAT := "anima.android.motion.report.v1"
  const LOCK_FORMAT := "anima.android.lock.report.v1"

  const MOTION_KEYS := {"format", "delivery_id", "camera_alias", "channel_id", "kind", "android_posted_at",
                        "source_occurred_at", "relay_received_at", "is_group_summary", "reported_loss_count"}
  const LOCK_KEYS := {"format", "delivery_id", "resource_alias", "kind", "reported_profile_ref",
                      "reported_method", "source_occurred_at", "relay_received_at"}

  predicate AllowedPackage(package: string) {
    package == TAPO_PACKAGE || package == WANSVIEW_PACKAGE
  }

  function KeysFor(package: string): set<string> {
    if package == WANSVIEW_PACKAGE then MOTION_KEYS else LOCK_KEYS
  }

  datatype Rule = Rule(
    package: string,
    alias: string,
    kind: string,
    aliasTerms: seq<string>,
    eventTerms: seq<string>,
    profileAfter: Option<string>,
    method_: Option<string>
  )

  /** What loading the configuration has checked of a rule. */
  predicate ValidRule(r: Rule) {
    && AllowedPackage(r.package)
    && Label(r.alias, 64)
    && Label(r.kind, 64)
    && (r.package == WANSVIEW_PACKAGE ==> r.kind == "motion_reported")
    && (r.package == TAPO_PACKAGE ==> r.kind == "locked" || r.kind == "unlocked")
    && (r.method_.Some? ==> Label(r.method_.value, 40))
  }

  /** `_bounded`. */
  function Bounded(s: string): string {
    Take(Collapse(s), MAX_TEXT)
  }

  predicate AnyTermIn(terms: seq<string>, text: string) {
    exists i :: 0 <= i < |terms| && Find(text, terms[i]) >= 0
  }

  predicate Matches(r: Rule, package: string, text: string) {
    r.package == package && AnyTermIn(r.aliasTerms, text) && AnyTermIn(r.eventTerms, text)
  }

  function Optional(value: Option<string>): Field {
    if value.Some? then Text(value.value) else Null
  }

  /** The profile reference that follows the rule's marker; `fold` is `str.casefold`. */
  function Profile(r: Rule, text: string, fold: string -> string): Option<string> {
    if r.profileAfter.None? || r.profileAfter.value == "" then None
    else
      var marker := fold(r.profileAfter.value);
      var offset := Find(text, marker);
      if offset < 0 then None
      else
        var candidate := Take(Strip(Bounded(text[offset + |marker|..]), " .,:;!-"), 80);
        if candidate == "" then None else Some(candidate)
  }

  function MotionFields(r: Rule, id: string, receivedAt: string): Fields {
    map["format" := Text(MOTION_FORMAT), "delivery_id" := Text(id), "camera_alias" := Text(r.alias),
        "channel_id" := Null, "kind" := Text("motion_reported"), "android_posted_at" := Null,
        "source_occurred_at" := Null, "relay_received_at" := Text(receivedAt),
        "is_group_summary" := Null, "reported_loss_count" := Null]
  }

  function LockFields(r: Rule, id: string, receivedAt: string, profile: Option<string>): Fields {
    map["format" := Text(LOCK_FORMAT), "delivery_id" := Text(id), "resource_alias" := Text(r.alias),
        "kind" := Text(r.kind), "reported_profile_ref" := Optional(profile),
        "reported_method" := Optional(r.method_), "source_occurred_at" := Null,
        "relay_received_at" := Text(receivedAt)]
  }

  function ReportFor(
    r: Rule, package: string, text: string, fold: string -> string, id: string, receivedAt: string
  ): Report {
    Report(package,
           if package == WANSVIEW_PACKAGE then MotionFields(r, id, receivedAt)
           else LockFields(r, id, receivedAt, Profile(r, text, fold)))
  }

  function FirstMatch(rules: seq<Rule>, package: string, text: string): (r: Option<Rule>)
    ensures r.Some? ==> r.value in rules && Matches(r.value, package, text)
    ensures r.None? ==> forall i :: 0 <= i < |rules| ==> !Matches(rules[i], package, text)
  {
    if rules == [] then None
    else if Matches(rules[0], package, text) then Some(rules[0])
    else FirstMatch(rules[1..], package, text)
  }

  /** `id` is the fresh delivery UUID, `receivedAt` the ISO text of the receipt time. */
  function MatchReport(package: string, summary: string, body: string, rules: seq<Rule>,
                       fold: string -> string, id: string, receivedAt: string): Option<Report> {
    if !AllowedPackage(package) then None
    else
      var text := fold(Bounded(summary) + " " + Bounded(body));
      var rule := FirstMatch(rules, package, text);
      if rule.None? then None else Some(ReportFor(rule.value, package, text, fold, id, receivedAt))
  }

  /** The first matching rule decides; unmatched text is discarded. */
  method Match(package: string, summary: string, body: string, rules: seq<Rule>,
               fold: string -> string, id: string, receivedAt: string) returns (report: Option<Report>)
    ensures report == MatchReport(package, summary, body, rules, fold, id, receivedAt)
  {
    if !AllowedPackage(package) {
      return None;
    }
    var text := fold(Bounded(summary) + " " + Bounded(body));
    var i := 0;
    while i < |rules|
      invariant 0 <= i <= |rules|
      invariant FirstMatch(rules[i..], package, text) == FirstMatch(rules, package, text)
    {
      var rule := rules[i];
      assert rules[i..][0] == rule && rules[i..][1..] == rules[i + 1..];
      if Matches(rule, package, text) {
        return Some(ReportFor(rule, package, text, fold, id, receivedAt));
      }
      i := i + 1;
    }
    return None;
  }

  // ----- what the outbox accepts -----

  predicate SmallField(f: Field) {
    !f.Compound? && (f.Text? ==> |f.s| <= 100)
  }

  /** The checks made on a report that is kept for sending. */
  predicate Storable(report: Report, package: string, id: string) {
    && report.package == package
    && report.fields.Keys == KeysFor(package)
    && report.fields["delivery_id"] == Text(id)
    && forall k :: k in report.fields ==> SmallField(report.fields[k])
  }

  lemma ProfileIsShort(r: Rule, text: string, fold: string -> string)
    requires Profile(r, text, fold).Some?
    ensures var p := Profile(r, text, fold).value;
      && 1 <= |p| <= 80
      && !Space(p[0])
      && forall c :: c in p ==> c == ' ' || (c in text && !Space(c))
  {
    var marker := fold(r.profileAfter.value);
    var rest := text[Find(text, marker) + |marker|..];
    CollapseShrinks(rest);
    var bounded := Bounded(rest);
    assert forall c :: c in bounded ==> c in Collapse(rest);
    var stripped := Strip(bounded, " .,:;!-");
    var p := Profile(r, text, fold).value;
    assert p[0] == stripped[0] && p[0] in bounded && p[0] != ' ';
    forall c | c in p ensures c in stripped {
      var i :| 0 <= i < |p| && p[i] == c;
      assert stripped[i] == c;
    }
  }

  /** Whatever a loaded rule matches can be kept: its fields have the right names and sizes. */
  lemma MatchedReportIsStorable(package: string, summary: string, body: string, rules: seq<Rule>,
                                fold: string -> string, id: string, receivedAt: string)
    requires forall r :: r in rules ==> ValidRule(r)
    requires Canonical(id) && |receivedAt| <= 40
    requires MatchReport(package, summary, body, rules, fold, id, receivedAt).Some?
    ensures Storable(MatchReport(package, summary, body, rules, fold, id, receivedAt).value, package, id)
  {
    var text := fold(Bounded(summary) + " " + Bounded(body));
    var rule := FirstMatch(rules, package, text).value;
    if package == WANSVIEW_PACKAGE {
      MotionIsStorable(rule, id, receivedAt);
    } else {
      if Profile(rule, text, fold).Some? { ProfileIsShort(rule, text, fold); }
      LockIsStorable(rule, id, receivedAt, Profile(rule, text, fold));
    }
  }

  lemma MotionIsStorable(r: Rule, id: string, receivedAt: string)
    requires Label(r.alias, 64) && Canonical(id) && |receivedAt| <= 40
    ensures Storable(Report(WANSVIEW_PACKAGE, MotionFields(r, id, receivedAt)), WANSVIEW_PACKAGE, id)
  {
  }

  lemma LockIsStorable(r: Rule, id: string, receivedAt: string, profile: Option<string>)
    requires Label(r.alias, 64) && Label(r.kind, 64) && (r.method_.Some? ==> Label(r.method_.value, 40))
    requires Canonical(id) && |receivedAt| <= 40 && (profile.Some? ==> |profile.value| <= 80)
    ensures Storable(Report(TAPO_PACKAGE, LockFields(r, id, receivedAt, profile)), TAPO_PACKAGE, id)
  {
  }

  // ----- what matching means -----

  ghost predicate OneOccurs(terms: seq<string>, text: string) {
    exists k, i :: 0 <= k < |terms| && OccursAt(terms[k], text, i)
  }

  /** The rule is for the package, and the text names its alias and its event. */
  ghost predicate Applies(r: Rule, package: string, text: string) {
    r.package == package && OneOccurs(r.aliasTerms, text) && OneOccurs(r.eventTerms, text)
  }

  lemma OccursIffFound(terms: seq<string>, text: string)
    ensures AnyTermIn(terms, text) <==> OneOccurs(terms, text)
  {
    forall k | 0 <= k < |terms| ensures Find(text, terms[k]) >= 0 <==> exists i :: OccursAt(terms[k], text, i) {
      FindExactly(text, terms[k]);
    }
  }

  lemma MatchesExactly(r: Rule, package: string, text: string)
    ensures Matches(r, package, text) <==> Applies(r, package, text)
  {
    OccursIffFound(r.aliasTerms, text);
    OccursIffFound(r.eventTerms, text);
  }

  /** What a report says of the rule that made it, and that it says nothing else. */
  ghost predicate Tells(f: Fields, r: Rule, profile: Option<string>, id: string, receivedAt: string) {
    if r.package == WANSVIEW_PACKAGE then
      && f.Keys == {"format", "delivery_id", "camera_alias", "channel_id", "kind", "android_posted_at",
                    "source_occurred_at", "relay_received_at", "is_group_summary", "reported_loss_count"}
      && f["format"] == Text("anima.android.motion.report.v1") && f["delivery_id"] == Text(id)
      && f["camera_alias"] == Text(r.alias) && f["kind"] == Text("motion_reported")
      && f["relay_received_at"] == Text(receivedAt)
      && f["channel_id"] == f["android_posted_at"] == f["source_occurred_at"] == Null
      && f["is_group_summary"] == f["reported_loss_count"] == Null
    else
      && f.Keys == {"format", "delivery_id", "resource_alias", "kind", "reported_profile_ref", "reported_method",
                    "source_occurred_at", "relay_received_at"}
      && f["format"] == Text("anima.android.lock.report.v1") && f["delivery_id"] == Text(id)
      && f["resource_alias"] == Text(r.alias) && f["kind"] == Text(r.kind)
      && f["relay_received_at"] == Text(receivedAt) && f["source_occurred_at"] == Null
      && f["reported_method"] == (if r.method_ == None then Null else Text(r.method_.value))
      && f["reported_profile_ref"] == (if profile == None then Null else Text(profile.value))
  }

  /** A report is made for the first rule that applies, says what that rule says, and else there is none. */
  lemma MatchReportExactly(
    package: string, summary: string, body: string, rules: seq<Rule>, fold: string -> string, id: string,
    receivedAt: string
  )
    ensures var text := fold(Bounded(summary) + " " + Bounded(body));
      match MatchReport(package, summary, body, rules, fold, id, receivedAt)
      case None => !AllowedPackage(package) || forall k :: 0 <= k < |rules| ==> !Applies(rules[k], package, text)
      case Some(report) =>
        && AllowedPackage(package) && report.package == package
        && exists k :: 0 <= k < |rules| && Applies(rules[k], package, text)
             && (forall j :: 0 <= j < k ==> !Applies(rules[j], package, text))
             && Tells(report.fields, rules[k], Profile(rules[k], text, fold), id, receivedAt)
  {
    hide Matches, Applies, Bounded, Profile;
    var text := fold(Bounded(summary) + " " + Bounded(body));
    forall k | 0 <= k < |rules| ensures Matches(rules[k], package, text) <==> Applies(rules[k], package, text) {
      MatchesExactly(rules[k], package, text);
    }
    if AllowedPackage(package) && FirstMatch(rules, package, text).Some? {
      var k := FirstIndex(rules, package, text);
      MatchesExactly(rules[k], package, text);
      RuleOfPackage(rules[k], package, text);
      LockFieldsTell(rules[k], id, receivedAt, Profile(rules[k], text, fold));
      MotionFieldsTell(rules[k], id, receivedAt);
    }
  }

  lemma RuleOfPackage(r: Rule, package: string, text: string)
    requires Matches(r, package, text)
    ensures r.package == package
  {
  }

  lemma LockFieldsTell(r: Rule, id: string, receivedAt: string, profile: Option<string>)
    ensures r.package != WANSVIEW_PACKAGE ==> Tells(LockFields(r, id, receivedAt, profile), r, profile, id, receivedAt)
  {
  }

  lemma MotionFieldsTell(r: Rule, id: string, receivedAt: string)
    ensures r.package == WANSVIEW_PACKAGE ==>
      forall profile :: Tells(MotionFields(r, id, receivedAt), r, profile, id, receivedAt)
  {
  }

  lemma {:induction false} FirstIndex(rules: seq<Rule>, package: string, text: string) returns (k: nat)
    requires FirstMatch(rules, package, text).Some?
    ensures k < |rules| && Matches(rules[k], package, text) && FirstMatch(rules, package, text) == Some(rules[k])
    ensures forall j :: 0 <= j < k ==> !Matches(rules[j], package, text)
  {
    hide Matches;
    if Matches(rules[0], package, text) {
      k := 0;
    } else {
      k := FirstIndex(rules[1..], package, text);
      k := k + 1;
    }
  }

  /**
   The profile is what follows the first place of the marker, single-spaced, without punctuation
   around it and at most 80 characters long; there is none when nothing is left.
   */
  lemma ProfileExactly(r: Rule, text: string, fold: string -> string, at: nat)
    requires r.profileAfter.Some? && r.profileAfter.value != ""
    requires OccursAt(fold(r.profileAfter.value), text, at)
    requires forall i :: 0 <= i < at ==> !OccursAt(fold(r.profileAfter.value), text, i)
    ensures var rest := Strip(Take(Collapse(text[at + |fold(r.profileAfter.value)|..]), 512), " .,:;!-");
      match Profile(r, text, fold)
      case None => rest == ""
      case Some(p) => p != "" && p == if |rest| <= 80 then rest else rest[..80]
  {
    hide Profile, Strip, Bounded, Collapse;
    FindExactly(text, fold(r.profileAfter.value));
    ProfileAfterMarker(r, text, fold);
  }

  lemma NoProfileExactly(r: Rule, text: string, fold: string -> string)
    requires r.profileAfter.Some? && r.profileAfter.value != "" ==>
      forall i :: !OccursAt(fold(r.profileAfter.value), text, i)
    ensures Profile(r, text, fold) == None
  {
    hide Bounded, Strip;
    if r.profileAfter.Some? { FindExactly(text, fold(r.profileAfter.value)); }
  }

  lemma ProfileAfterMarker(r: Rule, text: string, fold: string -> string)
    ensures r.profileAfter == None || r.profileAfter == Some("") ==> Profile(r, text, fold) == None
    ensures r.profileAfter.Some? && r.profileAfter.value != "" ==>
      var marker := fold(r.profileAfter.value);
      var at := Find(text, marker);
      if at < 0 then Profile(r, text, fold) == None
      else
        var rest := Strip(Take(Collapse(text[at + |marker|..]), 512), " .,:;!-");
        match Profile(r, text, fold)
        case None => rest == ""
        case Some(p) => p != "" && p == if |rest| <= 80 then rest else rest[..80]
  {
    hide Strip, Find, Collapse;
  }

  /** What a kept report consists of: its package, the fields of that package alone, its id, and small values. */
  lemma StorableExactly(report: Report, package: string, id: string)
    ensures Storable(report, package, id) <==>
      && report.package == package
      && report.fields.Keys ==
           (if package == "net.ajcloud.wansviewplus" then
              {"format", "delivery_id", "camera_alias", "channel_id", "kind", "android_posted_at",
               "source_occurred_at", "relay_received_at", "is_group_summary", "reported_loss_count"}
            else
              {"format", "delivery_id", "resource_alias", "kind", "reported_profile_ref", "reported_method",
               "source_occurred_at", "relay_received_at"})
      && report.fields["delivery_id"] == Text(id)
      && forall k :: k in report.fields ==>
           match report.fields[k]
           case Text(s) => |s| <= 100
           case Compound => false
           case _ => true
  {
  }
}
