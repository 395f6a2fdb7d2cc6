/**
 The mandatory speech ledger. Every method is one row-locked transaction, so each is one
 atomic step on the obligations.
 */
module SpeechLedger {
  import opened Options
  import opened Playback
  import opened Texts
  import opened Timing

  /** One phase of an obligation: the canonical announcement or its follow-up. */
  datatype Track = Track(
    state: State,
    generation: nat,
    attempts: nat,
    grant: Option<Grant>,
    retryAt: Option<int>,
    contentReady: Option<bool>,
    responseDigest: string
  ) {
    /** A claim always stores its lease. */
    predicate Valid() {
      state.Claimed? || state.PlaybackIntent? ==> grant.Some?
    }
  }

  datatype Delivery = Delivery(root: Track, followup: Option<Track>)

  datatype PhaseName = Canonical | Followup | OtherPhase

  datatype EventPath = AnnouncementOnly | AnnouncementAndReasoning | OtherPath

  /**
   `eligible` stands for the parts of the selection that this ledger never writes:
   provider, origin, ledger version and the qualification of the source event.
   */
  datatype Row = Row(
    household: string,
    createdAt: int,
    cancelled: bool,
    path: EventPath,
    eligible: bool,
    delivery: Option<Delivery>
  ) {
    predicate Valid() {
      delivery.Some? ==>
        && delivery.value.root.Valid()
        && (delivery.value.followup.Some? ==> delivery.value.followup.value.Valid())
    }
  }

  datatype Announcement = Announcement(occurredAt: Option<int>, text: string)

  datatype Policy = Policy(
    allowed: bool,
    required: bool,
    alwaysNotify: bool,
    announcement: Option<Announcement>,
    revocationConfirmed: bool
  )

  /** The obligation created for a required announcement, and only for one. */
  function Initialize(autonomous: bool, sentry: bool, hasPrincipal: bool, policy: Policy): Option<Delivery> {
    if !autonomous || !sentry || hasPrincipal || !policy.allowed || !policy.required
       || !policy.alwaysNotify || policy.announcement.None?
    then None
    else Some(Delivery(Track(Pending, 0, 0, None, None, None, ""), None))
  }

  function ActivePhase(d: Delivery): PhaseName {
    if d.root.state.Delivered? then Followup else Canonical
  }

  function Active(d: Delivery): Option<Track> {
    if d.root.state.Delivered? then d.followup else Some(d.root)
  }

  function WithTrack(d: Delivery, phase: PhaseName, t: Track): Delivery {
    if phase.Followup? then d.(followup := Some(t)) else d.(root := t)
  }

  function EscalateFollowup(d: Delivery): Delivery {
    if d.followup.Some? then d.(followup := Some(d.followup.value.(state := Escalated))) else d
  }

  predicate Terminal(s: State) {
    s.Delivered? || s.Unknown? || s.Escalated? || s.Cancelled?
  }

  // ----- next -----

  datatype Poll = Poll(
    at: int,
    household: string,
    clientId: string,
    instance: string,
    credentialGeneration: int,
    notBefore: int,
    maxAgeSeconds: int,
    token: string
  )

  predicate ValidPoll(p: Poll) {
    p.notBefore <= p.at && 1 <= p.maxAgeSeconds <= 120
  }

  /** The rows the query locks. */
  predicate Selected(row: Row, p: Poll) {
    && row.household == p.household
    && row.eligible
    && row.createdAt <= p.at
    && !row.path.OtherPath?
    && row.delivery.Some?
    && Active(row.delivery.value).Some?
    && var t := Active(row.delivery.value).value;
    && (t.state.Pending? || t.state.Claimed? || t.state.PlaybackIntent?)
    && (t.state.Pending? || (t.grant.Some? && t.grant.value.leaseUntil <= p.at))
    && (t.retryAt.Some? ==> t.retryAt.value <= p.at)
    && (t.contentReady == Some(false) ==> row.createdAt <= p.at - 600 * SECOND)
  }

  predicate Authorizes(policy: Option<Policy>) {
    && policy.Some?
    && policy.value.allowed
    && policy.value.required
    && policy.value.alwaysNotify
    && policy.value.announcement.Some?
  }

  datatype Answer = Empty | ClaimedAnswer(
    requestId: nat,
    generation: nat,
    token: string,
    phase: PhaseName,
    predatesEpoch: bool,
    delayed: bool
  )

  function Claim(t: Track, p: Poll): Track {
    t.(state := Claimed,
       generation := t.generation + 1,
       attempts := t.attempts + 1,
       grant := Some(Grant(p.clientId, p.instance, p.credentialGeneration, p.token, p.at + 60 * SECOND)))
  }

  /** What one row becomes when the loop of `next` reaches it, and whether it was claimed. */
  function Visit(row: Row, p: Poll, policy: Option<Policy>): (Row, bool)
    requires row.Valid() && row.delivery.Some? && Active(row.delivery.value).Some?
  {
    var d := row.delivery.value;
    var phase := ActivePhase(d);
    var saved := Active(d).value;
    if Terminal(saved.state) then (row, false)
    else if !saved.state.Pending? && saved.grant.value.leaseUntil > p.at then (row, false)
    else if saved.state.PlaybackIntent? then
      (row.(delivery := Some(EscalateFollowup(WithTrack(d, phase, saved.(state := Unknown))))), false)
    else if p.at - row.createdAt > 600 * SECOND then
      (row.(delivery := Some(EscalateFollowup(WithTrack(d, phase, saved.(state := Escalated))))), false)
    else if row.cancelled then
      (row.(delivery := Some(WithTrack(d, phase, saved.(state := Escalated)))), false)
    else if saved.retryAt.Some? && saved.retryAt.value > p.at then (row, false)
    else if !Authorizes(policy) then
      if policy.Some? && policy.value.revocationConfirmed then
        (row.(delivery := Some(WithTrack(d, phase, saved.(state := Cancelled)))), false)
      else
        var later := saved.(state := Pending, retryAt := Some(p.at + 10 * SECOND));
        (row.(delivery := Some(WithTrack(d, phase, later))), false)
    else
      var occurred := policy.value.announcement.value.occurredAt;
      if occurred.None? || !(0 <= p.at - occurred.value <= 600 * SECOND) then
        (row.(delivery := Some(WithTrack(d, phase, saved.(state := Escalated)))), false)
      else
        (row.(delivery := Some(WithTrack(d, phase, Claim(saved, p)))), true)
  }

  function AnswerFor(id: nat, row: Row, p: Poll, policy: Option<Policy>): Answer
    requires row.Valid() && row.delivery.Some? && Active(row.delivery.value).Some?
    requires Visit(row, p, policy).1
  {
    var d := row.delivery.value;
    ClaimedAnswer(id, Active(d).value.generation + 1, p.token, ActivePhase(d), row.createdAt < p.notBefore,
                  p.at - policy.value.announcement.value.occurredAt.value > 120 * SECOND)
  }

  type Rows = map<nat, Row>

  /** A locked result set: at most 32 different selected rows. */
  predicate Candidates(rows: Rows, ids: seq<nat>, p: Poll) {
    && |ids| <= 32
    && (forall i :: 0 <= i < |ids| ==> ids[i] in rows && rows[ids[i]].Valid() && Selected(rows[ids[i]], p))
    && (forall i, j :: 0 <= i < j < |ids| ==> ids[i] != ids[j])
  }

  function PolicyOf(policies: map<nat, Policy>, id: nat): Option<Policy> {
    if id in policies then Some(policies[id]) else None
  }

  /** The first claimable candidate is claimed; every row before it is settled or left. */
  function NextRows(rows: Rows, ids: seq<nat>, p: Poll, policies: map<nat, Policy>): (Rows, Answer)
    requires Candidates(rows, ids, p)
  {
    if ids == [] then (rows, Empty)
    else
      var id := ids[0];
      var policy := PolicyOf(policies, id);
      var (row, claimed) := Visit(rows[id], p, policy);
      if claimed then (rows[id := row], AnswerFor(id, rows[id], p, policy))
      else NextRows(rows[id := row], ids[1..], p, policies)
  }

  // ----- transition -----

  datatype Receipt = Receipt(
    at: int,
    household: string,
    clientId: string,
    instance: string,
    credentialGeneration: int,
    token: string,
    generation: int,
    outcome: Outcome,
    evidence: Option<Evidence>,
    phase: PhaseName
  )

  datatype Error =
    | InvalidPlaybackEvidence | InvalidOutcome | BindingLost | InvalidPhase | CanonicalNotDelivered
    | AuthorityChanged | CompletionEvidenceRequired | TransitionConflict | InvalidEnableEpoch

  datatype Result<+T> = Ok(value: T) | Err(error: Error)

  predicate BoundTo(t: Track, r: Receipt) {
    && t.grant.Some?
    && t.grant.value.clientId == r.clientId
    && t.generation == r.generation
    && t.grant.value.instance == r.instance
    && t.grant.value.credentialGeneration == r.credentialGeneration
    && t.grant.value.token == r.token
    && t.grant.value.leaseUntil > r.at
  }

  function Retry(t: Track, at: int): Track {
    t.(state := Pending, retryAt := Some(at + Backoff(t.attempts, 60, 6) * SECOND))
  }

  /** `authorized` is what the current policy says about starting the speaker now. */
  function Transitioned(row: Row, r: Receipt, authorized: bool): Result<Row> {
    if r.evidence.None? then Err(InvalidPlaybackEvidence)
    else if r.outcome.OtherOutcome? then Err(InvalidOutcome)
    else if row.household != r.household || row.delivery.None? then Err(BindingLost)
    else if r.phase.OtherPhase? then Err(InvalidPhase)
    else
      var d := row.delivery.value;
      if r.phase.Followup? && !d.root.state.Delivered? then Err(CanonicalNotDelivered)
      else if r.phase.Followup? && d.followup.None? then Err(BindingLost)
      else
        var saved := if r.phase.Followup? then d.followup.value else d.root;
        if !BoundTo(saved, r) then Err(BindingLost)
        else
          var moved := Move(d, saved, r, authorized);
          if moved.Ok? then Ok(row.(delivery := Some(moved.value))) else Err(moved.error)
  }

  function Move(d: Delivery, saved: Track, r: Receipt, authorized: bool): Result<Delivery>
    requires r.evidence.Some?
  {
    var evidence := r.evidence.value;
    if r.outcome.ContentUnavailable? && saved.state.Claimed? && r.phase.Followup? then
      Ok(WithTrack(d, r.phase, saved.(state := Escalated)))
    else if r.outcome.RecordIntent? then
      if !saved.state.Claimed? || !authorized then Err(AuthorityChanged)
      else Ok(WithTrack(d, r.phase, saved.(state := PlaybackIntent)))
    else if r.outcome.ReportUnstarted? && (saved.state.Claimed? || saved.state.PlaybackIntent?) then
      if saved.state.PlaybackIntent? && !NotStarted(evidence) then
        Ok(CloseUnknown(d, saved, r.phase))
      else Ok(WithTrack(d, r.phase, Retry(saved, r.at)))
    else if saved.state.PlaybackIntent? && (r.outcome.ReportDelivered? || r.outcome.ReportUnknown?) then
      if r.outcome.ReportUnknown? then Ok(CloseUnknown(d, saved, r.phase))
      else if !Completed(evidence) then Err(CompletionEvidenceRequired)
      else Ok(WithTrack(d, r.phase, saved.(state := Delivered)))
    else Err(TransitionConflict)
  }

  function CloseUnknown(d: Delivery, saved: Track, phase: PhaseName): Delivery {
    var e := WithTrack(d, phase, saved.(state := Unknown));
    if phase.Canonical? then EscalateFollowup(e) else e
  }

  // ----- follow-ups -----

  /** The same words in the same order, whatever their case and spacing; `lower` is `str.lower`. */
  predicate SameWords(s: string, t: string, lower: string -> string) {
    Collapse(lower(s)) == Collapse(lower(t))
  }

  /** Non-blank, at most 4000 bytes in UTF-8, and not the announcement over again. */
  predicate Usable(response: string, bytes: nat, canonical: string, lower: string -> string) {
    Trim(response) != "" && bytes <= 4000 && !SameWords(response, canonical, lower)
  }

  function Queued(row: Row, digest: string, usable: bool, allowed: bool): (Row, bool) {
    if row.delivery.None?
       || row.delivery.value.root.state.Unknown? || row.delivery.value.root.state.Escalated?
       || row.delivery.value.root.state.Cancelled?
       || row.delivery.value.followup.Some?
       || !allowed || !row.path.AnnouncementAndReasoning? || !usable
    then (row, false)
    else
      var t := Track(Pending, 0, 0, None, None, Some(false), digest);
      (row.(delivery := Some(row.delivery.value.(followup := Some(t)))), true)
  }

  function Readied(row: Row, household: string, digest: string): (Row, bool) {
    if row.household != household || row.delivery.None? || row.delivery.value.followup.None?
       || !row.delivery.value.followup.value.state.Pending?
       || row.delivery.value.followup.value.responseDigest != digest
    then (row, false)
    else
      var t := row.delivery.value.followup.value.(contentReady := Some(true));
      (row.(delivery := Some(row.delivery.value.(followup := Some(t)))), true)
  }

  class RequiredDelivery {
    var rows: Rows

    constructor (rows: Rows)
      ensures this.rows == rows
    {
      this.rows := rows;
    }

    /** `ids` is the order in which the query returned the rows it locked. */
    method Next(p: Poll, ids: seq<nat>, policies: map<nat, Policy>) returns (answer: Result<Answer>)
      requires Candidates(rows, ids, p)
      modifies this
      ensures answer.Err? <==> !ValidPoll(p)
      ensures answer.Err? ==> rows == old(rows)
      ensures answer.Ok? ==> (rows, answer.value) == NextRows(old(rows), ids, p, policies)
    {
      if !ValidPoll(p) {
        return Err(InvalidEnableEpoch);
      }
      var i := 0;
      while i < |ids|
        invariant 0 <= i <= |ids|
        invariant Candidates(rows, ids[i..], p)
        invariant NextRows(rows, ids[i..], p, policies) == NextRows(old(rows), ids, p, policies)
      {
        var id := ids[i];
        assert ids[i..][0] == id;
        assert ids[i..][1..] == ids[i + 1..];
        var policy := PolicyOf(policies, id);
        var before := rows[id];
        var (row, claimed) := Visit(before, p, policy);
        rows := rows[id := row];
        if claimed {
          return Ok(AnswerFor(id, before, p, policy));
        }
        i := i + 1;
      }
      return Ok(Empty);
    }

    /** A refused receipt changes nothing; an accepted one changes its own row alone. */
    method Transition(id: nat, r: Receipt, authorized: bool) returns (result: Result<State>)
      modifies this
      ensures result.Err? ==> rows == old(rows)
      ensures result.Ok? ==>
        && id in old(rows)
        && Transitioned(old(rows)[id], r, authorized).Ok?
        && rows == old(rows)[id := Transitioned(old(rows)[id], r, authorized).value]
        && rows[id].delivery.Some?
        && (r.phase.Followup? ==> rows[id].delivery.value.followup.Some?
                                  && result.value == rows[id].delivery.value.followup.value.state)
        && (r.phase.Canonical? ==> result.value == rows[id].delivery.value.root.state)
      ensures id in old(rows) ==> (result.Ok? <==> Transitioned(old(rows)[id], r, authorized).Ok?)
      ensures id in old(rows) && result.Err? ==> result.error == Transitioned(old(rows)[id], r, authorized).error
      ensures id !in old(rows) ==>
        result == Err(if r.evidence.None? then InvalidPlaybackEvidence
                      else if r.outcome.OtherOutcome? then InvalidOutcome else BindingLost)
    {
      if r.evidence.None? { return Err(InvalidPlaybackEvidence); }
      if r.outcome.OtherOutcome? { return Err(InvalidOutcome); }
      if id !in rows { return Err(BindingLost); }
      var changed := Transitioned(rows[id], r, authorized);
      if changed.Err? { return Err(changed.error); }
      rows := rows[id := changed.value];
      var d := changed.value.delivery.value;
      return Ok(if r.phase.Followup? then d.followup.value.state else d.root.state);
    }

    /**
     `bytes` is the length of the response in UTF-8, `digest` its SHA-256, and `canonical` the text
     of the announcement. A follow-up is queued once, as an obligation without its text.
     */
    method QueueFollowup(
      id: nat, response: string, bytes: nat, canonical: string, allowed: bool, lower: string -> string,
      digest: string -> string
    ) returns (queued: bool)
      modifies this
      ensures queued <==>
        && id in old(rows)
        && old(rows)[id].delivery.Some?
        && old(rows)[id].delivery.value.root.state !in {Unknown, Escalated, Cancelled}
        && old(rows)[id].delivery.value.followup.None?
        && old(rows)[id].path.AnnouncementAndReasoning?
        && allowed
        && Trim(response) != "" && bytes <= 4000 && Collapse(lower(response)) != Collapse(lower(canonical))
      ensures rows.Keys == old(rows).Keys && forall k :: k in rows && !(queued && k == id) ==> rows[k] == old(rows)[k]
      ensures queued ==>
        && rows[id].delivery.Some?
        && rows[id].(delivery := old(rows)[id].delivery) == old(rows)[id]
        && rows[id].delivery.value.root == old(rows)[id].delivery.value.root
        && rows[id].delivery.value.followup == Some(Track(Pending, 0, 0, None, None, Some(false), digest(response)))
      ensures id in old(rows) ==>
        (rows[id], queued) ==
          Queued(old(rows)[id], digest(response), Usable(response, bytes, canonical, lower), allowed)
    {
      if id !in rows { return false; }
      var row := rows[id];
      if row.delivery.None? { return false; }
      var saved := row.delivery.value;
      if saved.root.state in {Unknown, Escalated, Cancelled} { return false; }
      if saved.followup.Some? || !allowed { return false; }
      if !row.path.AnnouncementAndReasoning? { return false; }
      if Trim(response) == "" || bytes > 4000 { return false; }
      if SameWords(response, canonical, lower) { return false; }
      saved := saved.(followup := Some(Track(Pending, 0, 0, None, None, Some(false), digest(response))));
      rows := rows[id := row.(delivery := Some(saved))];
      return true;
    }

    /** The text of a waiting follow-up became available: only its readiness is written. */
    method ReadyFollowup(id: nat, household: string, digest: string) returns (ready: bool)
      modifies this
      ensures ready <==>
        && id in old(rows) && old(rows)[id].household == household
        && old(rows)[id].delivery.Some? && old(rows)[id].delivery.value.followup.Some?
        && old(rows)[id].delivery.value.followup.value.state.Pending?
        && old(rows)[id].delivery.value.followup.value.responseDigest == digest
      ensures rows.Keys == old(rows).Keys && forall k :: k in rows && !(ready && k == id) ==> rows[k] == old(rows)[k]
      ensures ready ==>
        && rows[id].delivery.Some? && rows[id].delivery.value.followup.Some?
        && rows[id].(delivery := old(rows)[id].delivery) == old(rows)[id]
        && rows[id].delivery.value.root == old(rows)[id].delivery.value.root
        && var was, now := old(rows)[id].delivery.value.followup.value, rows[id].delivery.value.followup.value;
        && now.contentReady == Some(true)
        && now.(contentReady := was.contentReady) == was
      ensures id in old(rows) ==> (rows[id], ready) == Readied(old(rows)[id], household, digest)
    {
      if id !in rows || rows[id].household != household { return false; }
      var row := rows[id];
      if row.delivery.None? || row.delivery.value.followup.None? { return false; }
      var following := row.delivery.value.followup.value;
      if !following.state.Pending? { return false; }
      if following.responseDigest != digest { return false; }
      following := following.(contentReady := Some(true));
      rows := rows[id := row.(delivery := Some(row.delivery.value.(followup := Some(following))))];
      return true;
    }
  }
}
