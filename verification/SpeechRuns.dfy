/**
 Everything that can happen to one obligation over time, with a log of what was observed.
 Polls, receipts and follow-up calls may come from anyone in any order.
 */
module SpeechRuns {
  import opened Options
  import opened Playback
  import opened Timing
  import opened SpeechLedger
  import L = PlaybackLedger

  /** What an observer of one phase has seen so far. */
  datatype PhaseLog = PhaseLog(
    intents: nat,
    refuted: nat,
    claims: nat,
    lastGrant: Option<Grant>,
    lastClaimAt: int
  )

  datatype Log = Log(canonical: PhaseLog, followup: PhaseLog, queued: nat, clock: int)

  datatype Tracked = Tracked(row: Row, log: Log)

  /**
   `Polled` is a `next` call whose loop reaches this row; `Outside` is any change other
   components make to the request around the obligation.
   */
  datatype Op =
    | Polled(poll: Poll, policy: Option<Policy>)
    | Received(receipt: Receipt, authorized: bool)
    | QueuedFollowup(digest: string, usable: bool, allowed: bool)
    | ReadiedFollowup(household: string, readyDigest: string)
    | Outside(cancelled: bool, path: EventPath, eligible: bool)

  const NothingSeen := PhaseLog(0, 0, 0, None, 0)

  ghost predicate Begins(row: Row) {
    && row.delivery == Some(Delivery(Track(Pending, 0, 0, None, None, None, ""), None))
  }

  /** Every obligation that is created begins like that, and only a required announcement creates one. */
  lemma ObligationsBegin(autonomous: bool, sentry: bool, hasPrincipal: bool, policy: Policy, row: Row)
    requires row.delivery == Initialize(autonomous, sentry, hasPrincipal, policy)
    ensures Begins(row) <==>
      autonomous && sentry && !hasPrincipal && policy.allowed && policy.required && policy.alwaysNotify
        && policy.announcement.Some?
    ensures row.delivery.Some? ==> Begins(row)
  {
  }

  function LogOf(log: Log, phase: PhaseName): PhaseLog {
    if phase.Followup? then log.followup else log.canonical
  }

  function WithLog(log: Log, phase: PhaseName, g: PhaseLog): Log {
    if phase.Followup? then log.(followup := g) else log.(canonical := g)
  }

  predicate Reaches(row: Row, p: Poll) {
    ValidPoll(p) && Selected(row, p)
  }

  /**
   An accepted receipt as the observer counts it: an intent, or the refutation of one by a report
   that the player neither started, nor says when it started or completed, nor by which clock.
   */
  function Observe(g: PhaseLog, r: Receipt, saved: Track): PhaseLog {
    match r.outcome
    case RecordIntent => g.(intents := g.intents + 1)
    case ReportUnstarted =>
      if saved.state.PlaybackIntent? && r.evidence.Some?
         && r.evidence.value.playbackState == Some(SawUnstarted) && r.evidence.value.startKnown
         && r.evidence.value.startedAt == None && r.evidence.value.completedAt == None
         && r.evidence.value.source == None
      then g.(refuted := g.refuted + 1)
      else g
    case _ => g
  }

  function Step(t: Tracked, op: Op): Tracked
    requires t.row.Valid()
  {
    match op
    case Polled(p, policy) =>
      if !Reaches(t.row, p) then t
      else
        var (row, claimed) := Visit(t.row, p, policy);
        var phase := ActivePhase(t.row.delivery.value);
        var g := LogOf(t.log, phase);
        var log := t.log.(clock := p.at);
        if claimed then
          var grant := Grant(p.clientId, p.instance, p.credentialGeneration, p.token, p.at + 60 * SECOND);
          Tracked(row, WithLog(log, phase, g.(claims := g.claims + 1, lastGrant := Some(grant), lastClaimAt := p.at)))
        else Tracked(row, log)
    case Received(r, authorized) =>
      var result := Transitioned(t.row, r, authorized);
      if result.Err? then t
      else
        var d := t.row.delivery.value;
        var saved := if r.phase.Followup? then d.followup.value else d.root;
        Tracked(result.value, WithLog(t.log.(clock := r.at), r.phase, Observe(LogOf(t.log, r.phase), r, saved)))
    case QueuedFollowup(digest, usable, allowed) =>
      var (row, ok) := Queued(t.row, digest, usable, allowed);
      Tracked(row, if ok then t.log.(queued := t.log.queued + 1) else t.log)
    case ReadiedFollowup(household, digest) =>
      Tracked(Readied(t.row, household, digest).0, t.log)
    case Outside(cancelled, path, eligible) =>
      t.(row := t.row.(cancelled := cancelled, path := path, eligible := eligible))
  }

  ghost function Run(row: Row, ops: seq<Op>): (t: Tracked)
    requires Begins(row)
    ensures Inv(t)
    ensures t.row.createdAt == row.createdAt
  {
    if ops == [] then Tracked(row, Log(NothingSeen, NothingSeen, 0, row.createdAt))
    else
      var before := Run(row, ops[..|ops| - 1]);
      var op := ops[|ops| - 1];
      StepKeepsInv(before, op);
      Step(before, op)
  }

  // ----- what every step keeps -----

  function PhaseOf(s: State): L.Phase {
    match s
    case Pending => L.Pending
    case Claimed => L.Owned
    case PlaybackIntent => L.Intended
    case _ => L.Closed
  }

  function AsLedger(t: Track, g: PhaseLog): L.Ledger {
    L.Ledger(PhaseOf(t.state), g.intents, g.refuted)
  }

  function CanonicalLedger(t: Tracked): L.Ledger
    requires t.row.delivery.Some?
  {
    AsLedger(t.row.delivery.value.root, t.log.canonical)
  }

  /** A follow-up that is not there yet is a fresh obligation. */
  function FollowupLedger(t: Tracked): L.Ledger
    requires t.row.delivery.Some?
  {
    var f := t.row.delivery.value.followup;
    if f.Some? then AsLedger(f.value, t.log.followup) else L.Fresh
  }

  ghost predicate Consistent(t: Track, g: PhaseLog) {
    && t.Valid()
    && t.generation == t.attempts == g.claims
    && t.grant == g.lastGrant
    && (t.grant.Some? <==> g.claims > 0)
    && L.AtMostOneStarted(AsLedger(t, g))
  }

  ghost predicate Inv(t: Tracked) {
    && t.row.delivery.Some?
    && var d := t.row.delivery.value;
    && Consistent(d.root, t.log.canonical)
    && (d.followup.None? ==> t.log.followup == NothingSeen && t.log.queued == 0)
    && (d.followup.Some? ==> Consistent(d.followup.value, t.log.followup) && t.log.queued == 1)
    && (d.followup.Some? && !d.root.state.Delivered? ==>
          d.followup.value.state.Pending? || d.followup.value.state.Escalated?)
    && (d.followup.Some? && d.root.state.Unknown? ==> d.followup.value.state.Escalated?)
  }

  lemma StepKeepsInv(t: Tracked, op: Op)
    requires Inv(t)
    ensures Inv(Step(t, op))
    ensures Step(t, op).row.createdAt == t.row.createdAt
  {
    match op
    case Polled(p, policy) => PollKeepsInv(t, p, policy);
    case Received(r, authorized) => ReceiptKeepsInv(t, r, authorized);
    case QueuedFollowup(_, _, _) =>
    case ReadiedFollowup(_, _) =>
    case Outside(_, _, _) =>
  }

  lemma PollKeepsInv(t: Tracked, p: Poll, policy: Option<Policy>)
    requires Inv(t)
    ensures Inv(Step(t, Polled(p, policy)))
  {
    if Reaches(t.row, p) {
      if Visit(t.row, p, policy).1 {
        ClaimKeepsInv(t, p, policy);
      } else if ActivePhase(t.row.delivery.value).Canonical? {
        CanonicalVisitKeepsInv(t, p, policy);
      } else {
        FollowupVisitKeepsInv(t, p, policy);
      }
    }
  }

  lemma ClaimKeepsInv(t: Tracked, p: Poll, policy: Option<Policy>)
    requires Inv(t) && Reaches(t.row, p) && Visit(t.row, p, policy).1
    ensures Inv(Step(t, Polled(p, policy)))
  {
    hide Authorizes;
  }

  lemma CanonicalVisitKeepsInv(t: Tracked, p: Poll, policy: Option<Policy>)
    requires Inv(t) && Reaches(t.row, p) && ActivePhase(t.row.delivery.value).Canonical? && !Visit(t.row, p, policy).1
    ensures Inv(Step(t, Polled(p, policy)))
  {
    hide Visit, Reaches;
    var next, lost := UnclaimedVisit(t.row, p, policy);
  }

  lemma FollowupVisitKeepsInv(t: Tracked, p: Poll, policy: Option<Policy>)
    requires Inv(t) && Reaches(t.row, p) && ActivePhase(t.row.delivery.value).Followup? && !Visit(t.row, p, policy).1
    ensures Inv(Step(t, Polled(p, policy)))
  {
    hide Visit, Reaches;
    var next, lost := UnclaimedVisit(t.row, p, policy);
  }

  /** The reached phase with another track; the follow-up escalates with it when it is lost. */
  function Saved(d: Delivery, phase: PhaseName, next: Track, lost: bool): Delivery {
    if lost then EscalateFollowup(WithTrack(d, phase, next)) else WithTrack(d, phase, next)
  }

  /** What a poll that does not claim writes. */
  lemma UnclaimedVisit(row: Row, p: Poll, policy: Option<Policy>) returns (next: Track, lost: bool)
    requires row.Valid() && Reaches(row, p) && !Visit(row, p, policy).1
    ensures Active(row.delivery.value).Some?
    ensures var d := row.delivery.value;
      var saved := Active(d).value;
      && Visit(row, p, policy).0 == row.(delivery := Some(Saved(d, ActivePhase(d), next, lost)))
      && next == saved.(state := next.state, retryAt := next.retryAt)
      && saved.state in {Pending, Claimed, PlaybackIntent}
      && (saved.state.Pending? || (saved.grant.Some? && saved.grant.value.leaseUntil <= p.at))
      && (saved.retryAt.Some? ==> saved.retryAt.value <= p.at)
      && (next.state.Pending? ==> !saved.state.PlaybackIntent? && next.retryAt == Some(p.at + 10 * SECOND))
    ensures next.state in {Pending, Cancelled, Escalated, Unknown}
    ensures next.state.Unknown? ==> lost
    ensures lost ==> next.state in {Escalated, Unknown}
  {
    hide Authorizes;
    var d := row.delivery.value;
    var e := Visit(row, p, policy).0.delivery.value;
    var saved := Active(d).value;
    lost := saved.state.PlaybackIntent? || p.at - row.createdAt > 600 * SECOND;
    next := saved.(state := Unknown);
    if !saved.state.PlaybackIntent? {
      next := if ActivePhase(d).Followup? then e.followup.value else e.root;
    }
  }

  lemma ReceiptKeepsInv(t: Tracked, r: Receipt, authorized: bool)
    requires Inv(t)
    ensures Inv(Step(t, Received(r, authorized)))
  {
    if Transitioned(t.row, r, authorized).Ok? {
      if r.phase.Followup? {
        FollowupReceiptKeepsInv(t, r, authorized);
      } else {
        CanonicalReceiptKeepsInv(t, r, authorized);
      }
    }
  }

  lemma CanonicalReceiptKeepsInv(t: Tracked, r: Receipt, authorized: bool)
    requires Inv(t) && !r.phase.Followup? && Transitioned(t.row, r, authorized).Ok?
    ensures Inv(Step(t, Received(r, authorized)))
  {
    hide Transitioned;
    var next, lost := AcceptedReceipt(t.row, r, authorized);
  }

  lemma FollowupReceiptKeepsInv(t: Tracked, r: Receipt, authorized: bool)
    requires Inv(t) && r.phase.Followup? && Transitioned(t.row, r, authorized).Ok?
    ensures Inv(Step(t, Received(r, authorized)))
  {
    hide Transitioned;
    var next, lost := AcceptedReceipt(t.row, r, authorized);
  }

  /** What an accepted receipt writes. */
  lemma AcceptedReceipt(row: Row, r: Receipt, authorized: bool) returns (next: Track, lost: bool)
    requires Transitioned(row, r, authorized).Ok?
    ensures row.delivery.Some? && r.evidence.Some? && !r.phase.OtherPhase?
    ensures r.phase.Followup? ==> row.delivery.value.root.state.Delivered? && row.delivery.value.followup.Some?
    ensures var d := row.delivery.value;
      var saved := if r.phase.Followup? then d.followup.value else d.root;
      && Transitioned(row, r, authorized).value == row.(delivery := Some(Saved(d, r.phase, next, lost)))
      && next == saved.(state := next.state, retryAt := next.retryAt)
      && BoundTo(saved, r)
      && (saved.state.Claimed? || saved.state.PlaybackIntent?)
      && (next.state.PlaybackIntent? <==> r.outcome.RecordIntent?)
      && (next.state.PlaybackIntent? ==> saved.state.Claimed?)
      && (next.state.Pending? ==> next == Retry(saved, r.at))
      && (next.state.Pending? <==>
            r.outcome.ReportUnstarted? && (saved.state.Claimed? || NotStarted(r.evidence.value)))
    ensures next.state in {Pending, PlaybackIntent, Delivered, Escalated, Unknown}
    ensures next.state.Delivered? <==> r.outcome.ReportDelivered?
    ensures next.state.Escalated? <==> r.outcome.ContentUnavailable?
    ensures !next.state.Pending? ==>
      next.retryAt == (if r.phase.Followup? then row.delivery.value.followup.value else row.delivery.value.root).retryAt
    ensures next.state.Delivered? || next.state.Escalated? ==> !lost
    ensures next.state.Escalated? ==> r.phase.Followup?
    ensures next.state.Unknown? && r.phase.Canonical? ==> lost
    ensures lost ==> next.state.Unknown? && r.phase.Canonical?
  {
    hide NotStarted, Completed, Backoff;
    var d := row.delivery.value;
    var e := Transitioned(row, r, authorized).value.delivery.value;
    next := if r.phase.Followup? then e.followup.value else e.root;
    lost := next.state.Unknown? && r.phase.Canonical?;
  }

  /** Each phase of the obligation moves only as the abstract ledger allows. */
  lemma StepRefinesLedger(t: Tracked, op: Op)
    requires Inv(t)
    ensures Inv(Step(t, op))
    ensures L.Next(CanonicalLedger(t), CanonicalLedger(Step(t, op)))
    ensures L.Next(FollowupLedger(t), FollowupLedger(Step(t, op)))
  {
    StepKeepsInv(t, op);
    CanonicalRefines(t, op);
    FollowupRefines(t, op);
  }

  lemma CanonicalRefines(t: Tracked, op: Op)
    requires Inv(t) && Inv(Step(t, op))
    ensures L.Next(CanonicalLedger(t), CanonicalLedger(Step(t, op)))
  {
    hide Inv, Step;
    CanonicalMoves(t, op);
  }

  lemma CanonicalMoves(t: Tracked, op: Op)
    requires Inv(t) && Inv(Step(t, op))
    ensures Moves(CanonicalLedger(t), CanonicalLedger(Step(t, op)))
  {
    hide Authorizes, Completed;
    match op
    case Polled(p, policy) => if Reaches(t.row, p) { CanonicalPollMoves(t, p, policy); }
    case Received(r, authorized) => CanonicalReceiptMoves(t, r, authorized);
    case _ =>
  }

  lemma CanonicalPollMoves(t: Tracked, p: Poll, policy: Option<Policy>)
    requires Inv(t) && Inv(Step(t, Polled(p, policy))) && Reaches(t.row, p)
    ensures Moves(CanonicalLedger(t), CanonicalLedger(Step(t, Polled(p, policy))))
  {
    hide Authorizes;
    if !Visit(t.row, p, policy).1 {
      hide Visit;
      var next, lost := UnclaimedVisit(t.row, p, policy);
    }
  }

  lemma CanonicalReceiptMoves(t: Tracked, r: Receipt, authorized: bool)
    requires Inv(t) && Inv(Step(t, Received(r, authorized)))
    ensures Moves(CanonicalLedger(t), CanonicalLedger(Step(t, Received(r, authorized))))
  {
    hide Completed;
  }

  lemma FollowupRefines(t: Tracked, op: Op)
    requires Inv(t) && Inv(Step(t, op))
    ensures L.Next(FollowupLedger(t), FollowupLedger(Step(t, op)))
  {
    hide Inv, Step;
    FollowupMoves(t, op);
  }

  lemma FollowupMoves(t: Tracked, op: Op)
    requires Inv(t) && Inv(Step(t, op))
    ensures Moves(FollowupLedger(t), FollowupLedger(Step(t, op)))
  {
    hide Authorizes, Completed;
    match op
    case Polled(p, policy) => if Reaches(t.row, p) { FollowupPollMoves(t, p, policy); }
    case Received(r, authorized) => FollowupReceiptMoves(t, r, authorized);
    case _ =>
  }

  lemma FollowupPollMoves(t: Tracked, p: Poll, policy: Option<Policy>)
    requires Inv(t) && Inv(Step(t, Polled(p, policy))) && Reaches(t.row, p)
    ensures Moves(FollowupLedger(t), FollowupLedger(Step(t, Polled(p, policy))))
  {
    hide Authorizes;
    if !Visit(t.row, p, policy).1 {
      hide Visit;
      var next, lost := UnclaimedVisit(t.row, p, policy);
    }
  }

  lemma FollowupReceiptMoves(t: Tracked, r: Receipt, authorized: bool)
    requires Inv(t) && Inv(Step(t, Received(r, authorized)))
    ensures Moves(FollowupLedger(t), FollowupLedger(Step(t, Received(r, authorized))))
  {
    hide Completed;
  }

  /** Nothing happened, or the one move that leads there. */
  ghost predicate Moves(l: L.Ledger, m: L.Ledger) {
    L.Allowed(l, MoveOf(l.phase, m.phase), m) || L.Allowed(l, L.Stay, m)
  }

  /** The only move that can lead from one phase to another. */
  function MoveOf(a: L.Phase, b: L.Phase): L.Move {
    match b
    case Closed => L.Close
    case Intended => L.Intend
    case Owned => L.Claim
    case Pending => if a.Intended? then L.Refute else L.Release
  }

  // ----- playback -----

  ghost function Canonicals(row: Row, ops: seq<Op>): (states: seq<L.Ledger>)
    requires Begins(row)
    ensures |states| == |ops| + 1
    ensures states[|ops|] == CanonicalLedger(Run(row, ops))
  {
    if ops == [] then [CanonicalLedger(Run(row, ops))]
    else Canonicals(row, ops[..|ops| - 1]) + [CanonicalLedger(Run(row, ops))]
  }

  ghost function Followups(row: Row, ops: seq<Op>): (states: seq<L.Ledger>)
    requires Begins(row)
    ensures |states| == |ops| + 1
    ensures states[|ops|] == FollowupLedger(Run(row, ops))
  {
    if ops == [] then [FollowupLedger(Run(row, ops))]
    else Followups(row, ops[..|ops| - 1]) + [FollowupLedger(Run(row, ops))]
  }

  /**
   Every run, phase by phase, is a history of the abstract ledger; what is proved there about
   playbacks holds here.
   */
  lemma {:induction false} RunsAreLedgerHistories(row: Row, ops: seq<Op>)
    requires Begins(row)
    ensures L.History(Canonicals(row, ops)) && L.History(Followups(row, ops))
  {
    if ops != [] {
      var n := |ops| - 1;
      RunsAreLedgerHistories(row, ops[..n]);
      StepRefinesLedger(Run(row, ops[..n]), ops[n]);
    }
  }

  /**
   No announcement that may have been heard is claimed again: when a poll claims a phase, every
   recorded intent of that phase has been refuted, and the phase was not awaiting a receipt.
   */
  lemma ClaimedOnlyIfUnheard(row: Row, ops: seq<Op>, p: Poll, policy: Option<Policy>)
    requires Begins(row)
    requires var t := Run(row, ops); Reaches(t.row, p) && Visit(t.row, p, policy).1
    ensures var t := Run(row, ops);
      var g := LogOf(t.log, ActivePhase(t.row.delivery.value));
      g.intents == g.refuted && !Active(t.row.delivery.value).value.state.PlaybackIntent?
  {
  }

  /**
   A lost receipt is never retried: the phase closes. A canonical announcement ends UNKNOWN
   with its follow-up escalated; a follow-up ends ESCALATED itself.
   */
  lemma LostReceiptCloses(row: Row, ops: seq<Op>, p: Poll, policy: Option<Policy>)
    requires Begins(row)
    requires var t := Run(row, ops);
      Reaches(t.row, p) && Active(t.row.delivery.value).value.state.PlaybackIntent?
    ensures var d := Run(row, ops).row.delivery.value;
      var e := Step(Run(row, ops), Polled(p, policy)).row.delivery.value;
      if ActivePhase(d).Followup? then e.root == d.root && e.followup.value.state.Escalated?
      else e.root.state.Unknown? && (e.followup.Some? ==> e.followup.value.state.Escalated?)
  {
  }

  /**
   Which rows a poll reaches: those of its household whose active phase is open, unleased, due and,
   unless they are ten minutes old, ready.
   */
  lemma ReachesExactly(row: Row, p: Poll)
    ensures Reaches(row, p) <==>
      && p.notBefore <= p.at && 1 <= p.maxAgeSeconds <= 120
      && row.household == p.household && row.eligible && row.createdAt <= p.at
      && (row.path.AnnouncementOnly? || row.path.AnnouncementAndReasoning?)
      && row.delivery.Some?
      && var d := row.delivery.value;
      && (d.root.state.Delivered? ==> d.followup.Some?)
      && var t := if d.root.state.Delivered? then d.followup.value else d.root;
      && (match t.state
          case Pending => true
          case Claimed => t.grant.Some? && t.grant.value.leaseUntil <= p.at
          case PlaybackIntent => t.grant.Some? && t.grant.value.leaseUntil <= p.at
          case _ => false)
      && (t.retryAt == None || t.retryAt.value <= p.at)
      && (t.contentReady != Some(false) || p.at - row.createdAt >= 600 * SECOND)
  {
  }

  /** A follow-up whose text is not there is claimed at no time but exactly ten minutes after its request. */
  lemma ClaimedWithoutContent(row: Row, p: Poll, policy: Option<Policy>)
    requires row.Valid() && Reaches(row, p) && Visit(row, p, policy).1
    requires Active(row.delivery.value).value.contentReady == Some(false)
    ensures p.at == row.createdAt + 600 * SECOND
  {
  }

  /**
   What a poll makes of the phase it reaches, as a table: each row says exactly when the phase
   ends in that state, and nothing but the reached phase and a pending escalation of the
   follow-up is ever changed.
   */
  ghost predicate PollTable(row: Row, p: Poll, policy: Option<Policy>, e: Delivery, claimed: bool)
    requires row.delivery.Some? && Active(row.delivery.value).Some?
  {
    var d := row.delivery.value;
    var phase, saved := ActivePhase(d), Active(d).value;
    var lost, old_ := saved.state.PlaybackIntent?, p.at - row.createdAt > 600 * SECOND;
    var live := !lost && !old_ && !row.cancelled;
    var permitted := policy.Some? && policy.value.allowed && policy.value.required && policy.value.alwaysNotify
                     && policy.value.announcement.Some?;
    var timely := permitted && policy.value.announcement.value.occurredAt.Some?
                  && 0 <= p.at - policy.value.announcement.value.occurredAt.value <= 600 * SECOND;
    var revoked := policy.Some? && policy.value.revocationConfirmed;
    && (e.followup.Some? <==> d.followup.Some?)
    && (phase.Followup? ==> e.root == d.root)
    && (phase.Canonical? && d.followup.Some? ==>
          e.followup.value == if lost || old_ then d.followup.value.(state := Escalated) else d.followup.value)
    && var after := if phase.Followup? then e.followup.value else e.root;
    && (claimed <==> live && timely)
    && (after.state.Claimed? <==> claimed)
    && (after.state.Unknown? <==> lost && phase.Canonical?)
    && (after.state.Escalated? <==> (lost && phase.Followup?) || (!lost && !live) || (live && permitted && !timely))
    && (after.state.Cancelled? <==> live && !permitted && revoked)
    && (after.state.Pending? <==> live && !permitted && !revoked)
    && !after.state.PlaybackIntent? && !after.state.Delivered?
    && (after.state.Pending? ==> after == saved.(state := Pending, retryAt := Some(p.at + 10 * SECOND)))
    && (after.state.Claimed? ==>
          after == saved.(state := Claimed, generation := saved.generation + 1, attempts := saved.attempts + 1,
                          grant := Some(Grant(p.clientId, p.instance, p.credentialGeneration, p.token,
                                              p.at + 60 * SECOND))))
    && (!after.state.Pending? && !after.state.Claimed? ==> after == saved.(state := after.state))
  }

  lemma PollDecidesExactly(row: Row, p: Poll, policy: Option<Policy>)
    requires row.Valid() && Reaches(row, p)
    ensures var (after, claimed) := Visit(row, p, policy);
      && after == row.(delivery := after.delivery) && after.delivery.Some?
      && PollTable(row, p, policy, after.delivery.value, claimed)
  {
  }

  /**
   Which receipts are accepted, from which state, and where they lead, as a table. A playback that
   may have started reopens on nothing less than the whole no-start proof, and is taken for heard
   on nothing less than the whole proof of completion.
   */
  lemma ReceiptDecidesExactly(row: Row, r: Receipt, authorized: bool)
    requires row.delivery.Some? && row.household == r.household && r.evidence.Some?
    requires r.phase.Canonical?
      || (r.phase.Followup? && row.delivery.value.root.state.Delivered? && row.delivery.value.followup.Some?)
    ensures var d := row.delivery.value;
      var saved := if r.phase.Followup? then d.followup.value else d.root;
      var result := Transitioned(row, r, authorized);
      var owned, playing := saved.state.Claimed?, saved.state.PlaybackIntent?;
      var seen := r.evidence.value;
      var unstarted := seen.playbackState == Some(SawUnstarted) && seen.startKnown && seen.startedAt == None
                       && seen.completedAt == None && seen.source == None;
      var completed := seen.playbackState == Some(SawDelivered) && seen.completedAt != None
                       && (seen.source == Some(LocalProcess) || seen.source == Some(ProjectionProcess));
      && (result.Ok? <==>
            && (&& saved.grant.Some? && r.at < saved.grant.value.leaseUntil
                && saved.grant.value == Grant(r.clientId, r.instance, r.credentialGeneration, r.token,
                                              saved.grant.value.leaseUntil)
                && saved.generation == r.generation)
            && match r.outcome
               case RecordIntent => owned && authorized
               case ReportUnstarted => owned || playing
               case ReportUnknown => playing
               case ReportDelivered => playing && completed
               case ContentUnavailable => owned && r.phase.Followup?
               case OtherOutcome => false)
      && (result.Ok? ==>
            && result.value == row.(delivery := result.value.delivery) && result.value.delivery.Some?
            && var e := result.value.delivery.value;
            && (r.phase.Followup? ==> e.followup.Some? && e.root == d.root)
            && (r.phase.Canonical? ==>
                  e.followup.Some? == d.followup.Some?
                  && (e.followup != d.followup ==>
                        e.root.state.Unknown? && d.followup.Some?
                        && e.followup == Some(d.followup.value.(state := Escalated))))
            && var after := if r.phase.Followup? then e.followup.value else e.root;
            && after == saved.(state := after.state, retryAt := after.retryAt)
            && (after.state.PlaybackIntent? <==> r.outcome.RecordIntent?)
            && (after.state.Delivered? <==> r.outcome.ReportDelivered?)
            && (after.state.Escalated? <==> r.outcome.ContentUnavailable?)
            && (after.state.Unknown? <==>
                  r.outcome.ReportUnknown? || (r.outcome.ReportUnstarted? && playing && !unstarted))
            && (after.state.Pending? <==> r.outcome.ReportUnstarted? && (owned || unstarted))
            && (after.state.Unknown? && r.phase.Canonical? && d.followup.Some? ==> e.followup.value.state.Escalated?)
            && (after.state.Pending? ==>
                  after.retryAt == Some(r.at + Backoff(saved.attempts, 60, 6) * SECOND))
            && (!after.state.Pending? ==> after.retryAt == saved.retryAt))
  {
    hide Transitioned, Backoff;
    AcceptedExactly(row, r, authorized);
    if Transitioned(row, r, authorized).Ok? {
      var next, lost := AcceptedReceipt(row, r, authorized);
    }
  }

  /** Why a receipt is refused: the first of these that is wrong with it. */
  lemma RefusesExactly(row: Row, r: Receipt, authorized: bool)
    ensures var result := Transitioned(row, r, authorized);
      var known := r.evidence.Some? && r.outcome != OtherOutcome;
      var here := known && row.household == r.household && row.delivery.Some?;
      var phased := here && r.phase != OtherPhase;
      var ordered := phased && (r.phase.Followup? ==> row.delivery.value.root.state.Delivered?);
      var there := ordered && (r.phase.Followup? ==> row.delivery.value.followup.Some?);
      var bound := there && BoundTo(if r.phase.Followup? then row.delivery.value.followup.value
                                    else row.delivery.value.root, r);
      && (result == Err(InvalidPlaybackEvidence) <==> r.evidence == None)
      && (result == Err(InvalidOutcome) <==> r.evidence.Some? && r.outcome == OtherOutcome)
      && (result == Err(InvalidPhase) <==> here && r.phase == OtherPhase)
      && (result == Err(CanonicalNotDelivered) <==> phased && !ordered)
      && (result == Err(BindingLost) <==> (known && !here) || (ordered && !there) || (there && !bound))
      && ((result.Ok? || result == Err(AuthorityChanged) || result == Err(CompletionEvidenceRequired)
           || result == Err(TransitionConflict)) <==> bound)
      && (result == Err(AuthorityChanged) ==> r.outcome.RecordIntent?)
      && (result == Err(CompletionEvidenceRequired) ==> r.outcome.ReportDelivered?)
      && (result == Err(TransitionConflict) ==> !r.outcome.RecordIntent?)
  {
    hide BoundTo, NotStarted, Completed;
  }

  /** When a receipt that reaches its phase is accepted. */
  lemma AcceptedExactly(row: Row, r: Receipt, authorized: bool)
    requires row.delivery.Some? && row.household == r.household && r.evidence.Some?
    requires r.phase.Canonical?
      || (r.phase.Followup? && row.delivery.value.root.state.Delivered? && row.delivery.value.followup.Some?)
    ensures var d := row.delivery.value;
      var saved := if r.phase.Followup? then d.followup.value else d.root;
      Transitioned(row, r, authorized).Ok? <==>
        && BoundTo(saved, r)
        && match r.outcome
           case RecordIntent => saved.state.Claimed? && authorized
           case ReportUnstarted => saved.state.Claimed? || saved.state.PlaybackIntent?
           case ReportUnknown => saved.state.PlaybackIntent?
           case ReportDelivered => saved.state.PlaybackIntent? && Completed(r.evidence.value)
           case ContentUnavailable => saved.state.Claimed? && r.phase.Followup?
           case OtherOutcome => false
  {
    hide BoundTo, NotStarted, Completed;
  }

  // ----- leases -----

  /** A live lease is never stolen, and each claim starts a new generation. */
  lemma LeaseIsNotStolen(row: Row, ops: seq<Op>, p: Poll, policy: Option<Policy>)
    requires Begins(row)
    requires var t := Run(row, ops); Reaches(t.row, p) && Visit(t.row, p, policy).1
    ensures var t := Run(row, ops);
      var saved := Active(t.row.delivery.value).value;
      var taken := Active(Step(t, Polled(p, policy)).row.delivery.value).value;
      && (saved.state.Claimed? ==> saved.grant.value.leaseUntil <= p.at)
      && taken.generation == saved.generation + 1
      && taken.grant == Some(Grant(p.clientId, p.instance, p.credentialGeneration, p.token, p.at + 60 * SECOND))
  {
  }

  /** Every accepted receipt comes from the holder of the most recent claim, within its lease. */
  lemma ReceiptIsFenced(row: Row, ops: seq<Op>, r: Receipt, authorized: bool)
    requires Begins(row)
    requires Transitioned(Run(row, ops).row, r, authorized).Ok?
    ensures var g := LogOf(Run(row, ops).log, r.phase);
      && g.lastGrant.Some?
      && g.lastGrant.value ==
           Grant(r.clientId, r.instance, r.credentialGeneration, r.token, g.lastGrant.value.leaseUntil)
      && r.generation == g.claims
      && r.at < g.lastGrant.value.leaseUntil
  {
  }

  // ----- order of the two phases -----

  /** A follow-up is under way only after the announcement was delivered; it is created once. */
  lemma FollowupNeverOvertakes(row: Row, ops: seq<Op>)
    requires Begins(row)
    ensures var d := Run(row, ops).row.delivery.value;
      && (d.followup.Some? ==>
            var s := d.followup.value.state;
            s.Claimed? || s.PlaybackIntent? || s.Delivered? ==> d.root.state.Delivered?)
      && (d.followup.Some? && d.root.state.Unknown? ==> d.followup.value.state.Escalated?)
      && Run(row, ops).log.queued == if d.followup.Some? then 1 else 0
  {
  }

  lemma StepKeepsClosedRoot(t: Tracked, op: Op)
    requires Inv(t) && Terminal(t.row.delivery.value.root.state)
    ensures Inv(Step(t, op)) && Step(t, op).row.delivery.value.root == t.row.delivery.value.root
  {
    StepKeepsInv(t, op);
  }

  /** The canonical phase, once closed, is never written again. */
  lemma {:induction false} ClosedCanonicalStays(row: Row, ops: seq<Op>, n: nat)
    requires Begins(row) && n <= |ops|
    requires Terminal(Run(row, ops[..n]).row.delivery.value.root.state)
    ensures Run(row, ops).row.delivery.value.root == Run(row, ops[..n]).row.delivery.value.root
    decreases |ops|
  {
    hide Step, Inv;
    if n < |ops| {
      var m := |ops| - 1;
      assert ops[..m][..n] == ops[..n];
      ClosedCanonicalStays(row, ops[..m], n);
      StepKeepsClosedRoot(Run(row, ops[..m]), ops[m]);
    } else {
      assert ops[..n] == ops;
    }
  }

  // ----- number of claims -----

  /** The clock never runs backwards along the run. */
  ghost predicate InOrder(row: Row, ops: seq<Op>)
    requires Begins(row)
  {
    ops == [] ||
    var n := |ops| - 1;
    && InOrder(row, ops[..n])
    && (ops[n].Polled? ==> ops[n].poll.at >= Run(row, ops[..n]).log.clock)
    && (ops[n].Received? ==> ops[n].receipt.at >= Run(row, ops[..n]).log.clock)
  }

  ghost predicate Paced(t: Track, g: PhaseLog, created: int, clock: int) {
    g.claims > 0 ==>
      && t.grant.Some?
      && g.lastClaimAt >= created + Waited(g.claims - 1, 60, 6) * SECOND
      && g.lastClaimAt <= created + 600 * SECOND
      && g.lastClaimAt <= clock
      && t.grant.value.leaseUntil == g.lastClaimAt + 60 * SECOND
      && (t.state.Pending? ==> t.retryAt.Some? && t.retryAt.value >= g.lastClaimAt + Backoff(g.claims, 60, 6) * SECOND)
  }

  ghost predicate PacedRun(t: Tracked) {
    && Inv(t)
    && var d := t.row.delivery.value;
    && Paced(d.root, t.log.canonical, t.row.createdAt, t.log.clock)
    && (d.followup.Some? ==> Paced(d.followup.value, t.log.followup, t.row.createdAt, t.log.clock))
  }

  lemma {:induction false} RunIsPaced(row: Row, ops: seq<Op>)
    requires Begins(row) && InOrder(row, ops)
    ensures PacedRun(Run(row, ops))
  {
    if ops != [] {
      var n := |ops| - 1;
      RunIsPaced(row, ops[..n]);
      StepIsPaced(Run(row, ops[..n]), ops[n]);
    }
  }

  lemma StepIsPaced(t: Tracked, op: Op)
    requires PacedRun(t)
    requires op.Polled? ==> op.poll.at >= t.log.clock
    requires op.Received? ==> op.receipt.at >= t.log.clock
    ensures PacedRun(Step(t, op))
  {
    StepKeepsInv(t, op);
    match op
    case Polled(p, policy) => PollIsPaced(t, p, policy);
    case Received(r, authorized) => ReceiptIsPaced(t, r, authorized);
    case QueuedFollowup(_, _, _) =>
    case ReadiedFollowup(_, _) =>
    case Outside(_, _, _) =>
  }

  lemma PollIsPaced(t: Tracked, p: Poll, policy: Option<Policy>)
    requires PacedRun(t) && p.at >= t.log.clock && Inv(Step(t, Polled(p, policy)))
    ensures PacedRun(Step(t, Polled(p, policy)))
  {
    if Reaches(t.row, p) {
      if Visit(t.row, p, policy).1 {
        ClaimIsPaced(t, p, policy);
      } else {
        UnclaimedPollIsPaced(t, p, policy);
      }
    }
  }

  lemma ClaimIsPaced(t: Tracked, p: Poll, policy: Option<Policy>)
    requires PacedRun(t) && p.at >= t.log.clock && Inv(Step(t, Polled(p, policy)))
    requires Reaches(t.row, p) && Visit(t.row, p, policy).1
    ensures PacedRun(Step(t, Polled(p, policy)))
  {
  }

  lemma UnclaimedPollIsPaced(t: Tracked, p: Poll, policy: Option<Policy>)
    requires PacedRun(t) && p.at >= t.log.clock && Inv(Step(t, Polled(p, policy)))
    requires Reaches(t.row, p) && !Visit(t.row, p, policy).1
    ensures PacedRun(Step(t, Polled(p, policy)))
  {
    UnclaimedPollKeepsLease(t.row, p, policy);
    var d := t.row.delivery.value;
    var e := Visit(t.row, p, policy).0.delivery.value;
    if ActivePhase(d).Followup? {
      EasedIsPaced(d.followup.value, e.followup.value, t.log.followup, t.row.createdAt, t.log.clock, p.at);
    } else {
      EasedIsPaced(d.root, e.root, t.log.canonical, t.row.createdAt, t.log.clock, p.at);
    }
  }

  /** A poll that does not claim keeps the lease, and reopens a phase only ten seconds from now. */
  ghost predicate Eased(saved: Track, after: Track, at: int) {
    && after.grant == saved.grant
    && (saved.state.Pending? || (saved.grant.Some? && saved.grant.value.leaseUntil <= at))
    && (after.state.Pending? ==> after.retryAt == Some(at + 10 * SECOND))
    && (saved.retryAt.Some? ==> saved.retryAt.value <= at)
  }

  lemma UnclaimedPollKeepsLease(row: Row, p: Poll, policy: Option<Policy>)
    requires row.Valid() && Reaches(row, p) && !Visit(row, p, policy).1
    ensures var d := row.delivery.value;
      var after := Visit(row, p, policy).0;
      && after.delivery.Some?
      && var e := after.delivery.value;
      && (ActivePhase(d).Followup? ==>
            e.root == d.root && e.followup.Some? && Eased(d.followup.value, e.followup.value, p.at))
      && (ActivePhase(d).Canonical? ==>
            && Eased(d.root, e.root, p.at)
            && e.followup.Some? == d.followup.Some?
            && (d.followup.Some? ==> e.followup.value == d.followup.value
                                     || e.followup.value == d.followup.value.(state := Escalated)))
  {
    hide Visit;
    var next, lost := UnclaimedVisit(row, p, policy);
  }

  lemma EasedIsPaced(saved: Track, after: Track, g: PhaseLog, created: int, clock: int, at: int)
    requires Paced(saved, g, created, clock) && clock <= at && Eased(saved, after, at)
    ensures Paced(after, g, created, at)
  {
  }

  lemma ReceiptIsPaced(t: Tracked, r: Receipt, authorized: bool)
    requires PacedRun(t) && r.at >= t.log.clock && Inv(Step(t, Received(r, authorized)))
    ensures PacedRun(Step(t, Received(r, authorized)))
  {
    hide NotStarted, Completed, Inv;
    if Transitioned(t.row, r, authorized).Ok? { ReceiptEases(t, r, authorized); }
  }

  lemma ReceiptEases(t: Tracked, r: Receipt, authorized: bool)
    requires PacedRun(t) && r.at >= t.log.clock && Transitioned(t.row, r, authorized).Ok?
    requires Inv(Step(t, Received(r, authorized)))
    ensures PacedRun(Step(t, Received(r, authorized)))
  {
    hide Transitioned, NotStarted, Backoff, Waited;
    var next, lost := AcceptedReceipt(t.row, r, authorized);
  }

  /** Between the `n`-th claim and the next lie at least `min(60, 2 ** min(n, 6))` seconds. */
  lemma ClaimsAreSpaced(t: Tracked, p: Poll, policy: Option<Policy>)
    requires PacedRun(t) && Reaches(t.row, p) && Visit(t.row, p, policy).1
    ensures var g := LogOf(t.log, ActivePhase(t.row.delivery.value));
      && t.row.createdAt <= p.at <= t.row.createdAt + 600 * SECOND
      && (g.claims > 0 ==> p.at >= g.lastClaimAt + Backoff(g.claims, 60, 6) * SECOND)
      && p.at >= t.row.createdAt + Waited(g.claims, 60, 6) * SECOND
  {
  }

  /** Each phase of an obligation is claimed at most 14 times. */
  lemma AtMostFourteenClaims(row: Row, ops: seq<Op>)
    requires Begins(row) && InOrder(row, ops)
    ensures Run(row, ops).log.canonical.claims <= 14
    ensures Run(row, ops).log.followup.claims <= 14
  {
    hide InOrder, Run, Waited, Consistent;
    RunIsPaced(row, ops);
    var t := Run(row, ops);
    if t.log.canonical.claims > 0 { SpeechTriesBounded(t.log.canonical.claims - 1); }
    if t.log.followup.claims > 0 { SpeechTriesBounded(t.log.followup.claims - 1); }
  }

  lemma RunExtends(row: Row, ops: seq<Op>, op: Op)
    requires Begins(row)
    ensures Run(row, ops + [op]) == Step(Run(row, ops), op)
    ensures InOrder(row, ops + [op]) <==>
            && InOrder(row, ops)
            && (op.Polled? ==> op.poll.at >= Run(row, ops).log.clock)
            && (op.Received? ==> op.receipt.at >= Run(row, ops).log.clock)
  {
  }

  /** The state right after the `n`-th claim when every claimer gives up at once. */
  ghost predicate EagerClaims(row: Row, t: Tracked, n: nat)
    requires n > 0
  {
    var at := row.createdAt + Waited(n - 1, 60, 6) * SECOND;
    var grant := Grant("", "", 0, "", at + 60 * SECOND);
    && t.row == row.(delivery := t.row.delivery)
    && t.row.delivery.Some?
    && t.row.delivery.value.root.state.Claimed?
    && t.row.delivery.value.root.generation == t.row.delivery.value.root.attempts == n
    && t.row.delivery.value.root.grant == Some(grant)
    && t.row.delivery.value.root.contentReady.None?
    && (t.row.delivery.value.root.retryAt.Some? ==> t.row.delivery.value.root.retryAt.value <= at)
    && t.log.canonical.claims == n
    && t.log.clock == at
  }

  function EagerTime(row: Row, n: nat): int
    requires n > 0
  {
    row.createdAt + Waited(n - 1, 60, 6) * SECOND
  }

  /** The poll that makes the `n`-th claim as early as the ledger permits. */
  function EagerPoll(row: Row, n: nat): Op
    requires n > 0
  {
    Polled(Poll(EagerTime(row, n), row.household, "", "", 0, EagerTime(row, n), 1, ""),
           Some(Policy(true, true, true, Some(Announcement(Some(row.createdAt), "")), false)))
  }

  /** The busy answer that gives the `n`-th claim back at once. */
  function BusyAnswer(row: Row, n: nat): Op
    requires n > 0
  {
    Received(Receipt(EagerTime(row, n), row.household, "", "", 0, "", n, ReportUnstarted,
                     Some(Evidence(None, None, false, None, None)), Canonical), true)
  }

  ghost predicate Willing(row: Row) {
    Begins(row) && row.eligible && !row.cancelled && row.path.AnnouncementOnly?
  }

  lemma GivesUpThenClaims(row: Row, t: Tracked, n: nat)
    requires Willing(row) && 1 < n <= 14 && Inv(t) && EagerClaims(row, t, n - 1)
    ensures var u := Step(t, BusyAnswer(row, n - 1));
      Inv(u) && u.log.clock == t.log.clock && EagerClaims(row, Step(u, EagerPoll(row, n)), n)
  {
    SpeechTriesBounded(n - 1);
    StepKeepsInv(t, BusyAnswer(row, n - 1));
    var root := t.row.delivery.value.root;
    var u := Step(t, BusyAnswer(row, n - 1));
    assert Move(t.row.delivery.value, root, BusyAnswer(row, n - 1).receipt, true)
        == Ok(WithTrack(t.row.delivery.value, Canonical, Retry(root, t.log.clock)));
    assert u.row == t.row.(delivery := Some(WithTrack(t.row.delivery.value, Canonical, Retry(root, t.log.clock))));
    ClaimsAgain(row, u, n);
  }

  lemma ClaimsAgain(row: Row, u: Tracked, n: nat)
    requires Willing(row) && 1 <= n <= 14 && Inv(u) && u.row == row.(delivery := u.row.delivery)
    requires var root := u.row.delivery.value.root;
      && root.state.Pending? && root.attempts == n - 1 && root.contentReady.None?
      && (root.retryAt.Some? ==> root.retryAt.value <= EagerTime(row, n))
    ensures EagerClaims(row, Step(u, EagerPoll(row, n)), n)
  {
    var op := EagerPoll(row, n);
    EagerPollReaches(row, u, n);
    PollDecidesExactly(u.row, op.poll, op.policy);
    hide Visit, Reaches, Waited;
  }

  lemma EagerPollReaches(row: Row, u: Tracked, n: nat)
    requires Willing(row) && 1 <= n <= 14 && Inv(u) && u.row == row.(delivery := u.row.delivery)
    requires var root := u.row.delivery.value.root;
      && root.state.Pending? && root.contentReady.None?
      && (root.retryAt.Some? ==> root.retryAt.value <= EagerTime(row, n))
    ensures var op := EagerPoll(row, n);
      && Reaches(u.row, op.poll) && ActivePhase(u.row.delivery.value).Canonical?
      && op.poll.at - u.row.createdAt <= 600 * SECOND
  {
    hide Waited;
    SpeechTriesBounded(n - 1);
  }

  /** The bound is reached: a run with a monotone clock can claim one phase 14 times. */
  lemma {:induction false} FourteenClaimsCanHappen(row: Row, n: nat) returns (ops: seq<Op>)
    requires Willing(row) && 1 <= n <= 14
    ensures InOrder(row, ops) && EagerClaims(row, Run(row, ops), n)
    ensures Run(row, ops).log.canonical.claims == n
  {
    if n == 1 {
      ops := [] + [EagerPoll(row, 1)];
      RunExtends(row, [], EagerPoll(row, 1));
      ClaimsAgain(row, Run(row, []), 1);
    } else {
      var earlier := FourteenClaimsCanHappen(row, n - 1);
      var busy := BusyAnswer(row, n - 1);
      GivesUpThenClaims(row, Run(row, earlier), n);
      RunExtends(row, earlier, busy);
      RunExtends(row, earlier + [busy], EagerPoll(row, n));
      ops := earlier + [busy] + [EagerPoll(row, n)];
    }
  }

  // ----- from the whole table to one row -----

  /** One `next` call is, for each row, a poll that reaches it once or does not reach it. */
  lemma {:induction false} NextVisitsRowsAtMostOnce(
    rows: Rows, ids: seq<nat>, p: Poll, policies: map<nat, Policy>, id: nat
  )
    requires Candidates(rows, ids, p) && ValidPoll(p) && id in rows && rows[id].Valid()
    ensures var (after, answer) := NextRows(rows, ids, p, policies);
      && after.Keys == rows.Keys
      && (after[id] == rows[id]
          || (id in ids && Reaches(rows[id], p) && after[id] == Visit(rows[id], p, PolicyOf(policies, id)).0))
      && (answer.ClaimedAnswer? && answer.requestId == id ==>
            && id in ids
            && Visit(rows[id], p, PolicyOf(policies, id)).1
            && after[id] == Visit(rows[id], p, PolicyOf(policies, id)).0)
    ensures var answer := NextRows(rows, ids, p, policies).1;
      answer.ClaimedAnswer? && answer.requestId == id ==> AnswerTells(answer, rows[id], p, PolicyOf(policies, id))
  {
    if ids != [] {
      var (row, claimed) := Visit(rows[ids[0]], p, PolicyOf(policies, ids[0]));
      if !claimed {
        var next := rows[ids[0] := row];
        assert Candidates(next, ids[1..], p);
        if id == ids[0] {
          assert id !in ids[1..];
          NextLeavesOthers(next, ids[1..], p, policies, id);
        } else {
          NextVisitsRowsAtMostOnce(next, ids[1..], p, policies, id);
        }
      }
    }
  }

  /**
   What the claimer is told: its token, the phase, the generation its receipts must carry, and
   whether the request is older than its epoch or the announcement older than two minutes.
   */
  ghost predicate AnswerTells(answer: Answer, row: Row, p: Poll, policy: Option<Policy>)
    requires answer.ClaimedAnswer?
  {
    && row.delivery.Some? && Active(row.delivery.value).Some?
    && answer.token == p.token
    && (answer.phase.Followup? <==> row.delivery.value.root.state.Delivered?)
    && (answer.phase.Canonical? <==> !row.delivery.value.root.state.Delivered?)
    && answer.generation == Active(row.delivery.value).value.generation + 1
    && (answer.predatesEpoch <==> row.createdAt < p.notBefore)
    && policy.Some? && policy.value.announcement.Some? && policy.value.announcement.value.occurredAt.Some?
    && (answer.delayed <==> p.at - policy.value.announcement.value.occurredAt.value > 120 * SECOND)
  }

  lemma {:induction false} NextLeavesOthers(rows: Rows, ids: seq<nat>, p: Poll, policies: map<nat, Policy>, id: nat)
    requires Candidates(rows, ids, p) && id in rows && id !in ids
    ensures var (after, answer) := NextRows(rows, ids, p, policies);
      && after.Keys == rows.Keys
      && after[id] == rows[id]
      && (answer.ClaimedAnswer? ==> answer.requestId != id)
  {
    if ids != [] {
      var (row, claimed) := Visit(rows[ids[0]], p, PolicyOf(policies, ids[0]));
      if !claimed {
        NextLeavesOthers(rows[ids[0] := row], ids[1..], p, policies, id);
      }
    }
  }
}
