/**
 Spoken replies to resolved approvals. The outcome of an approval is stored once; its
 playback is then tracked by a ledger written independently of the mandatory one.
 */
module ReplyLedger {
  import opened Options
  import opened Playback
  import opened Timing
  import opened Statuses

  datatype Lifecycle =
    | WaitingConfirmation | WaitingStrongerAuth | CompletedRequest
    | UnknownOutcome | NeedsRecovery | FailedRequest | OtherLifecycle

  datatype ResultStatus =
    | ActivityCompleted | StillWaitingConfirmation | StillWaitingAuth | UnknownResultStatus
    | UnavailableStatus | PartialStatus | FailedStatus

  /** What was verified about the action when the approval was resolved. */
  datatype Verdict = Verdict(
    approvalId: nat,
    actionId: nat,
    decision: string,
    actionStatus: ActionStatus,
    resultStatus: ResultStatus,
    resolvedAt: int
  )

  datatype Lease = Lease(instance: string, credentialGeneration: int, token: string, until: int)

  /** Replies that no voice surface asked for are not observed and never played. */
  datatype Stage = Playing(state: State) | NotObserved

  datatype Reply = Reply(verdict: Verdict, stage: Stage, generation: nat, lease: Option<Lease>) {
    predicate Valid() {
      stage == Playing(Claimed) || stage == Playing(PlaybackIntent) ==> lease.Some?
    }
  }

  datatype Row = Row(
    household: string,
    clientId: string,
    voice: bool,
    member: bool,
    lifecycle: Lifecycle,
    reply: Option<Reply>
  ) {
    predicate Valid() {
      reply.Some? ==> reply.value.Valid()
    }
  }

  // ----- resolve -----

  datatype Association = Association(approvalId: nat, actionId: nat, sceneStopped: bool)

  function ResultFor(status: ActionStatus, sceneStopped: bool): (ResultStatus, Lifecycle) {
    match status
    case Succeeded => if sceneStopped then (PartialStatus, FailedRequest) else (ActivityCompleted, CompletedRequest)
    case RequireConfirmation => (StillWaitingConfirmation, WaitingConfirmation)
    case RequireStrongerAuth => (StillWaitingAuth, WaitingStrongerAuth)
    case UnknownResult => (UnknownResultStatus, UnknownOutcome)
    case RecoveryRequired => (UnavailableStatus, NeedsRecovery)
    case Partial => (PartialStatus, FailedRequest)
    case _ => (FailedStatus, FailedRequest)
  }

  /** The row after `resolve`, and the reply it returns if any. */
  function Resolved(row: Row, a: Association, status: ActionStatus, decision: string, at: int): (Row, Option<Reply>) {
    if row.reply.Some? then (row, row.reply)
    else if !row.lifecycle.WaitingConfirmation? && !row.lifecycle.WaitingStrongerAuth? then (row, None)
    else if status.Planned? || status.Executing? then (row, None)
    else
      var (result, lifecycle) := ResultFor(status, a.sceneStopped);
      var verdict := Verdict(a.approvalId, a.actionId, decision, status, result, at);
      var reply := Reply(verdict, if row.voice then Playing(Pending) else NotObserved, 0, None);
      (row.(lifecycle := lifecycle, reply := Some(reply)), Some(reply))
  }

  // ----- delivery -----

  datatype Call =
    | NextReply(
        at: int, household: string, clientId: string, instance: string, credentialGeneration: int, token: string)
    | ReplyReceipt(
        at: int, household: string, clientId: string, instance: string, credentialGeneration: int, token: string,
        requestId: nat, generation: int, outcome: Outcome, evidence: Evidence)

  datatype Response =
    | Empty
    | Unavailable(state: Option<Stage>)
    | ClaimedReply(requestId: nat, claimedGeneration: nat)
    | Recorded(recordedState: State)

  /** The rows the query locks for this call. */
  predicate Selected(row: Row, id: nat, c: Call) {
    && row.household == c.household
    && row.clientId == c.clientId
    && row.voice
    && row.reply.Some?
    && (c.NextReply? ==>
          row.reply.value.stage in {Playing(Pending), Playing(Claimed), Playing(PlaybackIntent)})
    && (c.ReplyReceipt? ==> id == c.requestId)
  }

  /** A lapsed claim may be made again; a lapsed intent may have been heard. */
  function Lapse(reply: Reply, at: int): Reply
    requires reply.Valid()
  {
    if reply.stage == Playing(Claimed) && reply.lease.value.until <= at then reply.(stage := Playing(Pending))
    else if reply.stage == Playing(PlaybackIntent) && reply.lease.value.until <= at then
      reply.(stage := Playing(Unknown))
    else reply
  }

  predicate Bound(reply: Reply, c: Call)
    requires c.ReplyReceipt?
  {
    && reply.lease.Some?
    && reply.generation == c.generation
    && reply.lease.value.credentialGeneration == c.credentialGeneration
    && reply.lease.value.instance == c.instance
    && reply.lease.value.token == c.token
  }

  /** Where a receipt leads from the current stage, if it is allowed at all. */
  function Target(stage: Stage, outcome: Outcome, evidence: Evidence): Option<State> {
    if stage == Playing(Claimed) then
      match outcome
      case RecordIntent => Some(PlaybackIntent)
      case ReportUnstarted => Some(Pending)
      case _ => None
    else if stage == Playing(PlaybackIntent) then
      match outcome
      case ReportDelivered => Some(Delivered)
      case ReportUnknown => Some(Unknown)
      case ReportUnstarted => Some(if NotStarted(evidence) then Pending else Unknown)
      case _ => None
    else None
  }

  /**
   One row of the loop. `sourceMatches`: the stored action and approval still are the ones the
   reply speaks about. `authorized`: presentation is allowed for a current member.
   */
  function Visit(id: nat, reply: Reply, c: Call, sourceMatches: bool, authorized: bool): (Reply, Option<Response>)
    requires reply.Valid()
  {
    if !sourceMatches then (reply.(stage := Playing(Unknown)), None)
    else
      var lapsed := Lapse(reply, c.at);
      if c.NextReply? then
        if lapsed.stage != Playing(Pending) then (lapsed, None)
        else if lapsed.verdict.resolvedAt > c.at then (lapsed, None)
        else if c.at - lapsed.verdict.resolvedAt > 300 * SECOND then (lapsed.(stage := Playing(Escalated)), None)
        else if !authorized then (lapsed, Some(Unavailable(None)))
        else
          var lease := Lease(c.instance, c.credentialGeneration, c.token, c.at + 60 * SECOND);
          (lapsed.(stage := Playing(Claimed), generation := lapsed.generation + 1, lease := Some(lease)),
           Some(ClaimedReply(id, lapsed.generation + 1)))
      else if !Bound(lapsed, c) then (lapsed, Some(Unavailable(None)))
      else if c.outcome.RecordIntent? && !authorized then (lapsed, Some(Unavailable(Some(lapsed.stage))))
      else
        var target := Target(lapsed.stage, c.outcome, c.evidence);
        if target.None? then (lapsed, Some(Unavailable(Some(lapsed.stage))))
        else (lapsed.(stage := Playing(target.value)), Some(Recorded(target.value)))
  }

  type Rows = map<nat, Row>

  predicate Candidates(rows: Rows, ids: seq<nat>, c: Call) {
    && |ids| <= 10
    && (forall i :: 0 <= i < |ids| ==> ids[i] in rows && rows[ids[i]].Valid() && Selected(rows[ids[i]], ids[i], c))
    && (forall i, j :: 0 <= i < j < |ids| ==> ids[i] != ids[j])
  }

  predicate Holds(facts: map<nat, bool>, id: nat) {
    id in facts && facts[id]
  }

  /** The rows up to the first that produces a response, each visited once. */
  function DeliveryRows(
    rows: Rows, ids: seq<nat>, c: Call, sources: map<nat, bool>, permits: map<nat, bool>
  ): (Rows, Response)
    requires Candidates(rows, ids, c)
  {
    if ids == [] then (rows, Empty)
    else
      var id := ids[0];
      var row := rows[id];
      var (reply, response) := Visit(id, row.reply.value, c, Holds(sources, id), row.member && Holds(permits, id));
      var after := rows[id := row.(reply := Some(reply))];
      if response.Some? then (after, response.value)
      else DeliveryRows(after, ids[1..], c, sources, permits)
  }

  class ApprovalResults {
    var rows: Rows

    constructor (rows: Rows)
      ensures this.rows == rows
    {
      this.rows := rows;
    }

    /**
     `associated` is the check that the pending approval, the action and the household belong
     together; `matching` are the requests that carry the association.
     */
    method Resolve(
      matching: seq<nat>, associated: bool, a: Association, status: ActionStatus, decision: string, at: int
    )
      returns (reply: Option<Reply>)
      requires forall i :: 0 <= i < |matching| ==> matching[i] in rows
      modifies this
      ensures !associated || |matching| != 1 ==> reply == None && rows == old(rows)
      ensures associated && |matching| == 1 ==>
        && reply == Resolved(old(rows)[matching[0]], a, status, decision, at).1
        && rows == old(rows)[matching[0] := Resolved(old(rows)[matching[0]], a, status, decision, at).0]
    {
      if !associated || |matching| != 1 {
        return None;
      }
      var (row, outcome) := Resolved(rows[matching[0]], a, status, decision, at);
      rows := rows[matching[0] := row];
      return outcome;
    }

    method Delivery(
      ids: seq<nat>, c: Call, sources: map<nat, bool>, permits: map<nat, bool>
    ) returns (response: Response)
      requires Candidates(rows, ids, c)
      modifies this
      ensures (rows, response) == DeliveryRows(old(rows), ids, c, sources, permits)
    {
      var i := 0;
      while i < |ids|
        invariant 0 <= i <= |ids|
        invariant Candidates(rows, ids[i..], c)
        invariant DeliveryRows(rows, ids[i..], c, sources, permits) == DeliveryRows(old(rows), ids, c, sources, permits)
      {
        var id := ids[i];
        assert ids[i..][0] == id;
        assert ids[i..][1..] == ids[i + 1..];
        var row := rows[id];
        var (reply, answer) := Visit(id, row.reply.value, c, Holds(sources, id), row.member && Holds(permits, id));
        rows := rows[id := row.(reply := Some(reply))];
        if answer.Some? {
          return answer.value;
        }
        i := i + 1;
      }
      return Empty;
    }
  }
}
