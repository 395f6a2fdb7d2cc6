/** The receiving end of the relay: validation of one typed report and its retry identity. */
module Normalizer {
  import opened Options
  import opened Texts
  import opened Uuids
  import opened VendorReports

  datatype Disposition =
    | NormalizedReport | PackageRejected | FormatRejected | InvalidFields | CameraUnmapped
    | ChannelRejected | SummaryIgnored | NonMotionIgnored

  datatype Transport = AndroidListener | WaydroidPrivateDbus

  datatype Registration = Registration(
    household: string,
    relay: string,
    mappings: map<string, string>,
    allowedChannels: set<string>,
    allowedPackages: set<string>,
    staleAfterSeconds: nat,
    transport: Transport
  ) {
    /** What constructing a registration checks: above all, it is for one package at most. */
    predicate Valid() {
      && DeliveryUuid(Text(household)) && DeliveryUuid(Text(relay))
      && |allowedPackages| <= 1 && (forall p :: p in allowedPackages ==> AllowedPackage(p))
      && 1 <= staleAfterSeconds <= 86400
      && |mappings| <= 128 && |allowedChannels| <= 32
      && (forall alias :: alias in mappings ==> Label(alias, 64) && DeliveryUuid(Text(mappings[alias])))
      && (forall channel :: channel in allowedChannels ==> Label(channel, 64))
    }
  }

  /** The name under which an event is deduplicated; the UUID of this triple is injective. */
  datatype EventName = EventName(format: string, household: string, relay: string, deliveryId: string)

  /** The immutable source facts; the content digest is injective on them. */
  datatype Facts = Facts(
    format: string,
    resource: string,
    package: string,
    transport: Transport,
    channel: Option<string>,
    summary: Field,
    kind: string,
    sourceAt: Option<int>,
    postedAt: Option<int>,
    relayAt: int,
    losses: Option<int>,
    profile: Option<string>,
    method_: Option<string>
  )

  datatype DeliveryReceipt = DeliveryReceipt(event: EventName, digest: Facts)

  datatype Freshness = Recent | Stale | ClockSkew

  datatype Event = Event(receipt: DeliveryReceipt, receivedAt: int, queueFreshness: Freshness)

  datatype Normalized = Normalized(disposition: Disposition, event: Option<Event>)

  datatype Comparison = Distinct | Duplicate | Conflict

  function CompareDelivery(previous: DeliveryReceipt, candidate: DeliveryReceipt): Comparison {
    if previous.event != candidate.event then Distinct
    else if previous.digest != candidate.digest then Conflict
    else Duplicate
  }

  function FreshnessOf(at: int, receivedAt: int, seconds: nat): Freshness {
    if receivedAt - at < 0 then ClockSkew
    else if receivedAt - at > seconds then Stale
    else Recent
  }

  // Parsed fields; `None` inside is a field that was null, an outer `None` an invalid one.

  function LabelIn(f: Field): Option<string> {
    if f.Text? && Label(f.s, 64) then Some(f.s) else None
  }

  function OptionalText(f: Field, limit: nat): Option<Option<string>> {
    if f.Null? then Some(None)
    else if !f.Text? then None
    else
      var text := Collapse(f.s);
      if text == "" || |text| > limit || exists i :: 0 <= i < |text| && text[i] < ' ' then None
      else Some(Some(text))
  }

  predicate DeliveryUuid(f: Field) {
    f.Text? && |f.s| == 36 && Canonical(f.s) && f.s != "00000000-0000-0000-0000-000000000000"
  }

  /** `parse` reads an ISO timestamp with an offset. */
  function Timestamp(f: Field, parse: string -> Option<int>): Option<int> {
    if f.Text? && |f.s| <= 40 then parse(f.s) else None
  }

  function OptionalTimestamp(f: Field, parse: string -> Option<int>): Option<Option<int>> {
    if f.Null? then Some(None)
    else
      var at := Timestamp(f, parse);
      if at.None? then None else Some(at)
  }

  function Reject(d: Disposition): Normalized {
    Normalized(d, None)
  }

  function Accept(facts: Facts, reg: Registration, id: string, receivedAt: int): Normalized {
    var name := EventName(facts.format, reg.household, reg.relay, id);
    Normalized(NormalizedReport,
               Some(Event(DeliveryReceipt(name, facts), receivedAt,
                          FreshnessOf(facts.relayAt, receivedAt, reg.staleAfterSeconds))))
  }

  function NormalizeLock(f: Fields, reg: Registration, receivedAt: int, parse: string -> Option<int>): Normalized
    requires f.Keys == LOCK_KEYS
  {
    var alias := LabelIn(f["resource_alias"]);
    var kind := LabelIn(f["kind"]);
    var profile := OptionalText(f["reported_profile_ref"], 80);
    var method_ := OptionalText(f["reported_method"], 40);
    var sourceAt := OptionalTimestamp(f["source_occurred_at"], parse);
    var relayAt := Timestamp(f["relay_received_at"], parse);
    if !DeliveryUuid(f["delivery_id"]) || alias.None? || kind.None? || kind.value !in {"locked", "unlocked"}
       || profile.None? || method_.None? || sourceAt.None? || relayAt.None?
    then Reject(InvalidFields)
    else if alias.value !in reg.mappings then Reject(CameraUnmapped)
    else
      Accept(Facts(LOCK_FORMAT, reg.mappings[alias.value], TAPO_PACKAGE, reg.transport, None, Flag(false), kind.value,
                   sourceAt.value, None, relayAt.value, None, profile.value, method_.value),
             reg, f["delivery_id"].s, receivedAt)
  }

  function Losses(f: Field): Option<Option<int>> {
    if f.Null? then Some(None)
    else if f.Number? && 0 <= f.n <= 1_000_000 then Some(Some(f.n))
    else None
  }

  function NormalizeMotion(f: Fields, reg: Registration, receivedAt: int, parse: string -> Option<int>): Normalized
    requires f.Keys == MOTION_KEYS
  {
    var listener := reg.transport.AndroidListener?;
    var alias := LabelIn(f["camera_alias"]);
    var kind := LabelIn(f["kind"]);
    var channel := LabelIn(f["channel_id"]);
    var postedAt := Timestamp(f["android_posted_at"], parse);
    var sourceAt := OptionalTimestamp(f["source_occurred_at"], parse);
    var relayAt := Timestamp(f["relay_received_at"], parse);
    var losses := Losses(f["reported_loss_count"]);
    if !DeliveryUuid(f["delivery_id"]) || alias.None? || kind.None? || sourceAt.None? || relayAt.None? || losses.None?
       || (listener && (channel.None? || postedAt.None? || !f["is_group_summary"].Flag?))
       || (!listener && (f["channel_id"] != Null || f["android_posted_at"] != Null || f["is_group_summary"] != Null))
    then Reject(InvalidFields)
    else if listener && channel.value !in reg.allowedChannels then Reject(ChannelRejected)
    else if f["is_group_summary"] == Flag(true) then Reject(SummaryIgnored)
    else if kind.value != "motion_reported" then Reject(NonMotionIgnored)
    else if alias.value !in reg.mappings then Reject(CameraUnmapped)
    else
      Accept(Facts(MOTION_FORMAT, reg.mappings[alias.value], WANSVIEW_PACKAGE, reg.transport,
                   if listener then channel else None, f["is_group_summary"], kind.value,
                   sourceAt.value, if listener then postedAt else None, relayAt.value, losses.value, None, None),
             reg, f["delivery_id"].s, receivedAt)
  }

  /** `sanitize_relay_report`. */
  function Sanitize(report: Report, reg: Registration, receivedAt: int, parse: string -> Option<int>): Normalized {
    if report.package !in reg.allowedPackages then Reject(PackageRejected)
    else if report.package == TAPO_PACKAGE then
      if report.fields.Keys != LOCK_KEYS then Reject(InvalidFields)
      else if report.fields["format"] != Text(LOCK_FORMAT) then Reject(FormatRejected)
      else NormalizeLock(report.fields, reg, receivedAt, parse)
    else if report.fields.Keys != MOTION_KEYS then Reject(InvalidFields)
    else if report.fields["format"] != Text(MOTION_FORMAT) then Reject(FormatRejected)
    else NormalizeMotion(report.fields, reg, receivedAt, parse)
  }

  /** What two normalizations have in common when they are retries of one delivery. */
  ghost predicate SameDelivery(a: Normalized, b: Normalized) {
    && a.disposition == b.disposition
    && (a.event.Some? <==> b.event.Some?)
    && (a.event.Some? ==> a.event.value.receipt == b.event.value.receipt)
  }

  lemma LockRetries(f: Fields, reg: Registration, first: int, again: int, parse: string -> Option<int>)
    requires f.Keys == LOCK_KEYS
    ensures SameDelivery(NormalizeLock(f, reg, first, parse), NormalizeLock(f, reg, again, parse))
  {
    hide LabelIn, OptionalText, DeliveryUuid, OptionalTimestamp, FreshnessOf;
  }

  lemma MotionRetries(f: Fields, reg: Registration, first: int, again: int, parse: string -> Option<int>)
    requires f.Keys == MOTION_KEYS
    ensures SameDelivery(NormalizeMotion(f, reg, first, parse), NormalizeMotion(f, reg, again, parse))
  {
    hide LabelIn, Timestamp, DeliveryUuid, OptionalTimestamp, Losses, FreshnessOf;
  }

  /** The receipt time decides nothing but freshness: every retry has the same identity. */
  lemma RetryIsDuplicate(report: Report, reg: Registration, first: int, again: int, parse: string -> Option<int>)
    ensures Sanitize(report, reg, first, parse).disposition == Sanitize(report, reg, again, parse).disposition
    ensures Sanitize(report, reg, first, parse).event.Some? ==>
      && Sanitize(report, reg, again, parse).event.Some?
      && CompareDelivery(Sanitize(report, reg, first, parse).event.value.receipt,
                         Sanitize(report, reg, again, parse).event.value.receipt) == Duplicate
  {
    hide NormalizeLock, NormalizeMotion;
    if report.fields.Keys == LOCK_KEYS { LockRetries(report.fields, reg, first, again, parse); }
    if report.fields.Keys == MOTION_KEYS { MotionRetries(report.fields, reg, first, again, parse); }
  }

  /** An accepted report is named by its delivery id. */
  ghost predicate NamedBy(n: Normalized, id: Field) {
    && (n.event.Some? <==> n.disposition.NormalizedReport?)
    && (n.event.Some? ==> id == Text(n.event.value.receipt.event.deliveryId))
  }

  lemma LockIsNamed(f: Fields, reg: Registration, at: int, parse: string -> Option<int>)
    requires f.Keys == LOCK_KEYS
    ensures NamedBy(NormalizeLock(f, reg, at, parse), f["delivery_id"])
  {
    hide LabelIn, OptionalText, OptionalTimestamp, Timestamp, FreshnessOf, Canonical;
  }

  lemma MotionIsNamed(f: Fields, reg: Registration, at: int, parse: string -> Option<int>)
    requires f.Keys == MOTION_KEYS
    ensures NamedBy(NormalizeMotion(f, reg, at, parse), f["delivery_id"])
  {
    hide LabelIn, Timestamp, OptionalTimestamp, Losses, FreshnessOf, Canonical;
  }

  function IdOf(report: Report): Field {
    if "delivery_id" in report.fields then report.fields["delivery_id"] else Null
  }

  lemma ReportIsNamed(report: Report, reg: Registration, at: int, parse: string -> Option<int>)
    ensures var n := Sanitize(report, reg, at, parse);
      && (n.event.Some? <==> n.disposition.NormalizedReport?)
      && (n.event.Some? ==> IdOf(report) == Text(n.event.value.receipt.event.deliveryId))
  {
    hide NormalizeLock, NormalizeMotion;
    if report.fields.Keys == LOCK_KEYS { LockIsNamed(report.fields, reg, at, parse); }
    if report.fields.Keys == MOTION_KEYS { MotionIsNamed(report.fields, reg, at, parse); }
  }

  /** Two reports filed under different ids are never taken for one event. */
  lemma DifferentIdsAreDistinct(
    a: Report, b: Report, reg: Registration, first: int, again: int, parse: string -> Option<int>
  )
    requires Sanitize(a, reg, first, parse).event.Some? && Sanitize(b, reg, again, parse).event.Some?
    requires IdOf(a) != IdOf(b)
    ensures CompareDelivery(Sanitize(a, reg, first, parse).event.value.receipt,
                            Sanitize(b, reg, again, parse).event.value.receipt) == Distinct
  {
    hide Sanitize;
    ReportIsNamed(a, reg, first, parse);
    ReportIsNamed(b, reg, again, parse);
  }

  // ----- what an accepted report says -----

  /** Absent, or text of up to `limit` characters with no control character, spaces aside. */
  ghost predicate Readable(f: Field, limit: nat) {
    match f
    case Null => true
    case Text(s) => 1 <= |Collapse(s)| <= limit && forall i :: 0 <= i < |Collapse(s)| ==> Collapse(s)[i] >= ' '
    case _ => false
  }

  /** A UUID in the one spelling that reads as itself, other than the nil UUID. */
  ghost predicate NamesDelivery(f: Field) {
    match f
    case Text(s) => ParseUuid(s) == Uuid(s) && s != "00000000-0000-0000-0000-000000000000"
    case _ => false
  }

  lemma DeliveryIsNamed(f: Field)
    ensures DeliveryUuid(f) <==> NamesDelivery(f)
  {
    hide ParseUuid;
    if f.Text? && Canonical(f.s) { CanonicalShape(f.s); }
  }

  ghost predicate Dated(f: Field, parse: string -> Option<int>) {
    f.Text? && |f.s| <= 40 && parse(f.s) != None
  }

  ghost predicate LockReadable(f: Fields, parse: string -> Option<int>)
    requires f.Keys == LOCK_KEYS
  {
    && NamesDelivery(f["delivery_id"])
    && f["resource_alias"].Text? && Label(f["resource_alias"].s, 64)
    && (f["kind"] == Text("locked") || f["kind"] == Text("unlocked"))
    && Readable(f["reported_profile_ref"], 80) && Readable(f["reported_method"], 40)
    && (f["source_occurred_at"] == Null || Dated(f["source_occurred_at"], parse))
    && Dated(f["relay_received_at"], parse)
  }

  /** A text field as it is kept: single-spaced; `None` when it was absent. */
  ghost predicate KeptAs(f: Field, kept: Option<string>) {
    if f == Null then kept == None else f.Text? && kept == Some(Collapse(f.s))
  }

  ghost predicate TimeOf(f: Field, at: Option<int>, parse: string -> Option<int>) {
    if f == Null then at == None else f.Text? && at == parse(f.s)
  }

  /** How old the report is, by the relay's clock. */
  ghost predicate AgedBy(e: Event, seconds: nat) {
    var age := e.receivedAt - e.receipt.digest.relayAt;
    && (e.queueFreshness.ClockSkew? <==> age < 0)
    && (e.queueFreshness.Stale? <==> age > seconds)
    && (e.queueFreshness.Recent? <==> 0 <= age <= seconds)
  }

  /** When a lock report is refused or accepted, and what the event then says. */
  lemma LockDecidesExactly(f: Fields, reg: Registration, at: int, parse: string -> Option<int>)
    requires f.Keys == LOCK_KEYS
    ensures var n := NormalizeLock(f, reg, at, parse);
      && (n.disposition.InvalidFields? <==> !LockReadable(f, parse))
      && (n.disposition.CameraUnmapped? <==> LockReadable(f, parse) && f["resource_alias"].s !in reg.mappings)
      && (n.disposition.NormalizedReport? <==> LockReadable(f, parse) && f["resource_alias"].s in reg.mappings)
      && (n.event.Some? <==> n.disposition.NormalizedReport?)
      && (n.event.Some? ==>
            var (e, d) := (n.event.value, n.event.value.receipt.digest);
            && e.receipt.event == EventName(LOCK_FORMAT, reg.household, reg.relay, f["delivery_id"].s)
            && e.receivedAt == at && AgedBy(e, reg.staleAfterSeconds)
            && d.format == LOCK_FORMAT && d.package == TAPO_PACKAGE && d.transport == reg.transport
            && d.resource == reg.mappings[f["resource_alias"].s] && f["kind"] == Text(d.kind)
            && KeptAs(f["reported_profile_ref"], d.profile) && KeptAs(f["reported_method"], d.method_)
            && TimeOf(f["source_occurred_at"], d.sourceAt, parse)
            && TimeOf(f["relay_received_at"], Some(d.relayAt), parse)
            && d.channel == None && d.postedAt == None && d.losses == None && d.summary == Flag(false))
  {
    hide DeliveryUuid, NamesDelivery, Collapse;
    DeliveryIsNamed(f["delivery_id"]);
    KindIsALabel();
    ReadableExactly(f["reported_profile_ref"], 80);
    ReadableExactly(f["reported_method"], 40);
  }

  lemma KindIsALabel()
    ensures LabelIn(Text("locked")) == Some("locked") && LabelIn(Text("unlocked")) == Some("unlocked")
  {
  }

  lemma ReadableExactly(f: Field, limit: nat)
    ensures OptionalText(f, limit).Some? <==> Readable(f, limit)
    ensures OptionalText(f, limit).Some? ==> KeptAs(f, OptionalText(f, limit).value)
  {
    hide Collapse;
  }

  ghost predicate MotionReadable(f: Fields, listener: bool, parse: string -> Option<int>)
    requires f.Keys == MOTION_KEYS
  {
    && NamesDelivery(f["delivery_id"])
    && f["camera_alias"].Text? && Label(f["camera_alias"].s, 64) && f["kind"].Text? && Label(f["kind"].s, 64)
    && (f["source_occurred_at"] == Null || Dated(f["source_occurred_at"], parse))
    && Dated(f["relay_received_at"], parse)
    && (f["reported_loss_count"] == Null
        || (f["reported_loss_count"].Number? && 0 <= f["reported_loss_count"].n <= 1_000_000))
    && (if listener then
          && f["channel_id"].Text? && Label(f["channel_id"].s, 64)
          && Dated(f["android_posted_at"], parse) && f["is_group_summary"].Flag?
        else f["channel_id"] == f["android_posted_at"] == f["is_group_summary"] == Null)
  }

  /** When a motion report is refused or accepted, and what the event then says. */
  lemma MotionDecidesExactly(f: Fields, reg: Registration, at: int, parse: string -> Option<int>)
    requires f.Keys == MOTION_KEYS
    ensures var n := NormalizeMotion(f, reg, at, parse);
      var listener := reg.transport.AndroidListener?;
      var readable := MotionReadable(f, listener, parse);
      var allowed := readable && (listener ==> f["channel_id"].s in reg.allowedChannels);
      var single := allowed && f["is_group_summary"] != Flag(true);
      var motion := single && f["kind"] == Text("motion_reported");
      && (n.disposition.InvalidFields? <==> !readable)
      && (n.disposition.ChannelRejected? <==> readable && !allowed)
      && (n.disposition.SummaryIgnored? <==> allowed && !single)
      && (n.disposition.NonMotionIgnored? <==> single && !motion)
      && (n.disposition.CameraUnmapped? <==> motion && f["camera_alias"].s !in reg.mappings)
      && (n.disposition.NormalizedReport? <==> motion && f["camera_alias"].s in reg.mappings)
      && (n.event.Some? <==> n.disposition.NormalizedReport?)
      && (n.event.Some? ==> MotionTells(n.event.value, f, reg, at, parse))
  {
    hide DeliveryUuid, NamesDelivery, Collapse, Label;
    DeliveryIsNamed(f["delivery_id"]);
  }

  ghost predicate MotionTells(e: Event, f: Fields, reg: Registration, at: int, parse: string -> Option<int>)
    requires f.Keys == MOTION_KEYS && MotionReadable(f, reg.transport.AndroidListener?, parse)
    requires f["camera_alias"].s in reg.mappings
  {
    var (d, listener) := (e.receipt.digest, reg.transport.AndroidListener?);
    && e.receipt.event == EventName(MOTION_FORMAT, reg.household, reg.relay, f["delivery_id"].s)
    && e.receivedAt == at && AgedBy(e, reg.staleAfterSeconds)
    && d.format == MOTION_FORMAT && d.package == WANSVIEW_PACKAGE && d.transport == reg.transport
    && d.resource == reg.mappings[f["camera_alias"].s] && d.kind == "motion_reported"
    && TimeOf(f["source_occurred_at"], d.sourceAt, parse) && TimeOf(f["relay_received_at"], Some(d.relayAt), parse)
    && (if listener then d.channel == Some(f["channel_id"].s) && TimeOf(f["android_posted_at"], d.postedAt, parse)
        else d.channel == None && d.postedAt == None)
    && d.summary == f["is_group_summary"] && d.profile == None && d.method_ == None
    && (match d.losses
        case None => f["reported_loss_count"] == Null
        case Some(n) => f["reported_loss_count"] == Number(n))
  }

  /** Which reports come to be read at all. */
  lemma SanitizeDecidesExactly(report: Report, reg: Registration, at: int, parse: string -> Option<int>)
    ensures var n := Sanitize(report, reg, at, parse);
      var lock := report.package == TAPO_PACKAGE;
      var shaped := report.fields.Keys == if lock then LOCK_KEYS else MOTION_KEYS;
      var format := if lock then "anima.android.lock.report.v1" else "anima.android.motion.report.v1";
      var read := report.package in reg.allowedPackages && shaped && report.fields["format"] == Text(format);
      && (n.disposition.PackageRejected? <==> report.package !in reg.allowedPackages)
      && (n.disposition.FormatRejected? <==>
            report.package in reg.allowedPackages && shaped && report.fields["format"] != Text(format))
      && (report.package in reg.allowedPackages && !shaped ==> n == Normalized(InvalidFields, None))
      && (read ==>
            n == if lock then NormalizeLock(report.fields, reg, at, parse)
                 else NormalizeMotion(report.fields, reg, at, parse))
  {
    hide LabelIn, OptionalText, DeliveryUuid, OptionalTimestamp, Timestamp, Losses, FreshnessOf;
  }

  // ----- comparing two deliveries -----

  /** A second delivery of one event is a duplicate exactly when it says the same, and else a conflict. */
  lemma ComparesExactly(previous: DeliveryReceipt, candidate: DeliveryReceipt)
    ensures var same := previous.event == candidate.event;
      var c := CompareDelivery(previous, candidate);
      && (c.Distinct? <==> !same)
      && (c.Duplicate? <==> same && previous.digest == candidate.digest)
      && (c.Conflict? <==> same && previous.digest != candidate.digest)
  {
  }

  /** Two accepted lock reports under one id that differ in what they report of the lock are a conflict. */
  lemma ChangedReportConflicts(
    f: Fields, g: Fields, reg: Registration, first: int, again: int, parse: string -> Option<int>
  )
    requires f.Keys == LOCK_KEYS && g.Keys == LOCK_KEYS && f["delivery_id"] == g["delivery_id"]
    requires NormalizeLock(f, reg, first, parse).event.Some? && NormalizeLock(g, reg, again, parse).event.Some?
    requires f["kind"] != g["kind"]
    ensures CompareDelivery(NormalizeLock(f, reg, first, parse).event.value.receipt,
                            NormalizeLock(g, reg, again, parse).event.value.receipt).Conflict?
  {
    hide NormalizeLock;
    LockDecidesExactly(f, reg, first, parse);
    LockDecidesExactly(g, reg, again, parse);
  }
}
