/** Everything that can happen to one approval reply over time. */
module ReplyRuns {
  import opened Options
  import opened Playback
  import opened Timing
  import opened Statuses
  import opened ReplyLedger
  import L = PlaybackLedger

  datatype Log = Log(intents: nat, refuted: nat, claims: nat, lastLease: Option<Lease>, resolutions: nat)

  datatype Tracked = Tracked(row: Row, log: Log)

  datatype Op =
    | Settle(a: Association, status: ActionStatus, decision: string, at: int)
    | Reach(id: nat, call: Call, sourceMatches: bool, permitted: bool)
    | Outside(lifecycle: Lifecycle, member: bool)

  ghost predicate Begins(row: Row) {
    row.reply.None?
  }

  function Observe(log: Log, reply: Reply, c: Call, response: Option<Response>): Log
    requires reply.Valid()
  {
    if response.None? then log
    else match response.value
      case ClaimedReply(_, _) =>
        log.(claims := log.claims + 1,
             lastLease := Some(Lease(c.instance, c.credentialGeneration, c.token, c.at + 60 * SECOND)))
      case Recorded(_) =>
        if c.NextReply? then log
        else if c.outcome.RecordIntent? then log.(intents := log.intents + 1)
        else if c.outcome.ReportUnstarted? && reply.stage == Playing(PlaybackIntent)
                && c.evidence.playbackState == Some(SawUnstarted) && c.evidence.startKnown
                && c.evidence.startedAt == None && c.evidence.completedAt == None && c.evidence.source == None
        then log.(refuted := log.refuted + 1)
        else log
      case _ => log
  }

  function Step(t: Tracked, op: Op): Tracked
    requires t.row.Valid()
  {
    match op
    case Settle(a, status, decision, at) =>
      var (row, reply) := Resolved(t.row, a, status, decision, at);
      Tracked(row, if t.row.reply.None? && reply.Some? then t.log.(resolutions := t.log.resolutions + 1) else t.log)
    case Reach(id, c, sourceMatches, permitted) =>
      if !Selected(t.row, id, c) then t
      else
        var (reply, response) := Visit(id, t.row.reply.value, c, sourceMatches, t.row.member && permitted);
        Tracked(t.row.(reply := Some(reply)), Observe(t.log, t.row.reply.value, c, response))
    case Outside(lifecycle, member) => t.(row := t.row.(lifecycle := lifecycle, member := member))
  }

  ghost function Run(row: Row, ops: seq<Op>): (t: Tracked)
    requires Begins(row)
    ensures Inv(t)
  {
    if ops == [] then Tracked(row, Log(0, 0, 0, None, 0))
    else
      var before := Run(row, ops[..|ops| - 1]);
      StepKeepsInv(before, ops[|ops| - 1]);
      Step(before, ops[|ops| - 1])
  }

  function PhaseOf(s: Stage): L.Phase {
    match s
    case NotObserved => L.Closed
    case Playing(Pending) => L.Pending
    case Playing(Claimed) => L.Owned
    case Playing(PlaybackIntent) => L.Intended
    case Playing(_) => L.Closed
  }

  function AsLedger(t: Tracked): L.Ledger {
    if t.row.reply.None? then L.Fresh
    else L.Ledger(PhaseOf(t.row.reply.value.stage), t.log.intents, t.log.refuted)
  }

  ghost predicate Inv(t: Tracked) {
    && t.row.Valid()
    && L.AtMostOneStarted(AsLedger(t))
    && t.log.resolutions == (if t.row.reply.Some? then 1 else 0)
    && (t.row.reply.None? ==> t.log == Log(0, 0, 0, None, 0))
    && (t.row.reply.Some? ==>
          && t.row.reply.value.generation == t.log.claims
          && t.row.reply.value.lease == t.log.lastLease)
  }

  lemma StepKeepsInv(t: Tracked, op: Op)
    requires Inv(t)
    ensures Inv(Step(t, op))
  {
    if op.Reach? && Selected(t.row, op.id, op.call) {
      ReachKeepsInv(t, op);
    }
  }

  lemma ReachKeepsInv(t: Tracked, op: Op)
    requires Inv(t) && op.Reach? && Selected(t.row, op.id, op.call)
    ensures Inv(Step(t, op))
  {
  }

  /** The reply ledger moves only as the abstract ledger allows, or lapses and is claimed at once. */
  lemma StepRefinesLedger(t: Tracked, op: Op)
    requires Inv(t)
    ensures Inv(Step(t, op)) && L.Next(AsLedger(t), AsLedger(Step(t, op)))
  {
    StepKeepsInv(t, op);
    var l, m := AsLedger(t), AsLedger(Step(t, op));
    var move :=
      match m.phase
      case Closed => L.Close
      case Intended => L.Intend
      case Owned => L.Claim
      case Pending => if l.phase.Intended? then L.Refute else L.Release;
    assert L.Allowed(l, move, m) || L.Allowed(l, L.Stay, m);
  }

  ghost function Ledgers(row: Row, ops: seq<Op>): (states: seq<L.Ledger>)
    requires Begins(row)
    ensures |states| == |ops| + 1
    ensures states[|ops|] == AsLedger(Run(row, ops))
  {
    if ops == [] then [AsLedger(Run(row, ops))]
    else Ledgers(row, ops[..|ops| - 1]) + [AsLedger(Run(row, ops))]
  }

  lemma {:induction false} RunsAreLedgerHistories(row: Row, ops: seq<Op>)
    requires Begins(row)
    ensures L.History(Ledgers(row, ops))
  {
    if ops != [] {
      var n := |ops| - 1;
      RunsAreLedgerHistories(row, ops[..n]);
      StepRefinesLedger(Run(row, ops[..n]), ops[n]);
    }
  }

  /** A reply that may have been heard is never claimed again, and none later than five minutes. */
  lemma ClaimedOnlyIfUnheard(row: Row, ops: seq<Op>, id: nat, c: Call, sourceMatches: bool, authorized: bool)
    requires Begins(row)
    requires var t := Run(row, ops);
      && Selected(t.row, id, c)
      && Visit(id, t.row.reply.value, c, sourceMatches, authorized).1.Some?
      && Visit(id, t.row.reply.value, c, sourceMatches, authorized).1.value.ClaimedReply?
    ensures var t := Run(row, ops);
      && t.log.intents == t.log.refuted
      && sourceMatches && authorized
      && 0 <= c.at - t.row.reply.value.verdict.resolvedAt <= 300 * SECOND
      && (t.row.reply.value.stage == Playing(Claimed) ==> t.row.reply.value.lease.value.until <= c.at)
  {
  }

  /** A step claims a reply only for a current member who may hear it, over an unchanged source. */
  lemma ClaimingStepIsPermitted(t: Tracked, op: Op)
    requires Inv(t) && Step(t, op).log.claims != t.log.claims
    ensures op.Reach? && op.call.NextReply? && t.row.member && op.permitted && op.sourceMatches
    ensures t.row.household == op.call.household && t.row.clientId == op.call.clientId
    ensures Step(t, op).log.claims == t.log.claims + 1
  {
  }

  /** An accepted receipt comes from the latest claimer, within its lease. */
  lemma ReceiptIsFenced(row: Row, ops: seq<Op>, id: nat, c: Call, sourceMatches: bool, authorized: bool)
    requires Begins(row) && c.ReplyReceipt?
    requires var t := Run(row, ops);
      && Selected(t.row, id, c)
      && Visit(id, t.row.reply.value, c, sourceMatches, authorized).1.Some?
      && Visit(id, t.row.reply.value, c, sourceMatches, authorized).1.value.Recorded?
    ensures var g := Run(row, ops).log;
      && g.lastLease == Some(Lease(c.instance, c.credentialGeneration, c.token, g.lastLease.value.until))
      && c.generation == g.claims
      && c.at < g.lastLease.value.until
  {
  }

  lemma VerdictStays(t: Tracked, op: Op)
    requires t.row.Valid() && t.row.reply.Some?
    ensures Step(t, op).row.reply.Some?
    ensures Step(t, op).row.reply.value.verdict == t.row.reply.value.verdict
    ensures Step(t, op).log.resolutions == t.log.resolutions
  {
  }

  /** Once an approval is resolved its verdict never changes, whatever happens to the action. */
  lemma {:induction false} VerdictIsFinal(row: Row, ops: seq<Op>, n: nat)
    requires Begins(row) && n <= |ops| && Run(row, ops[..n]).row.reply.Some?
    ensures Run(row, ops).row.reply.Some?
    ensures Run(row, ops).row.reply.value.verdict == Run(row, ops[..n]).row.reply.value.verdict
    ensures Run(row, ops).log.resolutions == 1
    decreases |ops|
  {
    hide Visit, Observe, Resolved;
    if n < |ops| {
      var m := |ops| - 1;
      assert ops[..m][..n] == ops[..n];
      VerdictIsFinal(row, ops[..m], n);
      VerdictStays(Run(row, ops[..m]), ops[m]);
    } else {
      assert ops[..n] == ops;
    }
  }

  /**
   DELIVERED is relabelled exactly when a receipt arrives after the stored source changed; the
   record then says UNKNOWN although the playback was confirmed.
   */
  lemma DeliveredIsRelabelledExactly(t: Tracked, op: Op)
    requires Inv(t) && t.row.reply.Some? && t.row.reply.value.stage == Playing(Delivered)
    ensures Step(t, op).row.reply.Some?
    ensures Step(t, op).row.reply.value.stage != Playing(Delivered) <==>
            op.Reach? && op.call.ReplyReceipt? && Selected(t.row, op.id, op.call) && !op.sourceMatches
    ensures Step(t, op).row.reply.value.stage in {Playing(Delivered), Playing(Unknown)}
  {
  }

  const WITNESS := Row("home", "kitchen", true, true, WaitingConfirmation, None)

  function Receive(at: int, outcome: Outcome): Call {
    var evidence := Evidence(Some(SawDelivered), Some(LocalProcess), true, Some(at), Some(at));
    ReplyReceipt(at, "home", "kitchen", "office", 1, "token", 7, 1, outcome, evidence)
  }

  /** Resolved, claimed, played and confirmed within the lease; then confirmed over a changed source. */
  function Relabelling(): seq<Op> {
    [Settle(Association(1, 2, false), Succeeded, "APPROVE", 0),
     Reach(7, NextReply(1, "home", "kitchen", "office", 1, "token"), true, true),
     Reach(7, Receive(2, RecordIntent), true, true),
     Reach(7, Receive(3, ReportDelivered), true, true),
     Reach(7, Receive(4, ReportDelivered), false, true)]
  }

  lemma RunOneMore(row: Row, ops: seq<Op>, op: Op)
    requires Begins(row)
    ensures Run(row, ops + [op]) == Step(Run(row, ops), op)
  {
    assert (ops + [op])[..|ops + [op]| - 1] == ops;
  }

  ghost function StageAfter(n: nat): Option<Stage>
    requires n <= 5
  {
    var reply := Run(WITNESS, Relabelling()[..n]).row.reply;
    if reply.Some? then Some(reply.value.stage) else None
  }

  lemma WitnessIsClaimed()
    ensures StageAfter(2) == Some(Playing(Claimed))
    ensures Run(WITNESS, Relabelling()[..2]).row.(reply := None, lifecycle := WaitingConfirmation) == WITNESS
    ensures Run(WITNESS, Relabelling()[..2]).row.reply.value.generation == 1
    ensures Run(WITNESS, Relabelling()[..2]).row.reply.value.lease == Some(Lease("office", 1, "token", 1 + 60 * SECOND))
  {
    hide Run;
    var ops := Relabelling();
    BeforeAnything(WITNESS);
    RunOneMore(WITNESS, [], ops[0]);
    assert [] + [ops[0]] == ops[..1] && ops[..1] + [ops[1]] == ops[..2];
    RunOneMore(WITNESS, ops[..1], ops[1]);
  }

  /** It happens: a confirmed playback recorded as DELIVERED is UNKNOWN after one more receipt. */
  lemma DeliveredCanBecomeUnknown()
    ensures StageAfter(4) == Some(Playing(Delivered)) && StageAfter(5) == Some(Playing(Unknown))
  {
    hide Run;
    var ops := Relabelling();
    WitnessIsClaimed();
    assert ops[..2] + [ops[2]] == ops[..3] && ops[..3] + [ops[3]] == ops[..4] && ops[..4] + [ops[4]] == ops[..5];
    RunOneMore(WITNESS, ops[..2], ops[2]);
    assert StageAfter(3) == Some(Playing(PlaybackIntent));
    RunOneMore(WITNESS, ops[..3], ops[3]);
    RunOneMore(WITNESS, ops[..4], ops[4]);
  }

  lemma BeforeAnything(row: Row)
    requires Begins(row)
    ensures Run(row, []) == Tracked(row, Log(0, 0, 0, None, 0))
  {
  }

  /**
   What a poll makes of a reply it reaches, as a table: each row says exactly when the reply ends
   in that state.
   */
  lemma PollDecidesExactly(id: nat, reply: Reply, c: Call, sourceMatches: bool, authorized: bool)
    requires reply.Valid() && c.NextReply?
      && reply.stage in {Playing(Pending), Playing(Claimed), Playing(PlaybackIntent)}
    ensures var (after, response) := Visit(id, reply, c, sourceMatches, authorized);
      var lapsed := reply.lease.Some? && reply.lease.value.until <= c.at;
      var free := sourceMatches && (reply.stage == Playing(Pending) || (reply.stage == Playing(Claimed) && lapsed));
      var age := c.at - reply.verdict.resolvedAt;
      && (response == Some(ClaimedReply(id, reply.generation + 1)) <==> free && 0 <= age <= 300 * SECOND && authorized)
      && (after.stage == Playing(Unknown) <==> !sourceMatches || (reply.stage == Playing(PlaybackIntent) && lapsed))
      && (after.stage == Playing(Escalated) <==> free && age > 300 * SECOND)
      && (after.stage == Playing(Pending) <==> free && age <= 300 * SECOND && !(0 <= age && authorized))
      && after.verdict == reply.verdict
  {
  }

  /**
   What a receipt does to a reply it reaches, as a table: which are recorded, from which stage, and
   where each leads. The answer names the stage that is stored.
   */
  lemma ReceiptDecidesExactly(id: nat, reply: Reply, c: Call, sourceMatches: bool, authorized: bool)
    requires reply.Valid() && c.ReplyReceipt?
    ensures var (after, response) := Visit(id, reply, c, sourceMatches, authorized);
      var over := reply.lease.Some? && reply.lease.value.until <= c.at;
      var owned := reply.stage == Playing(Claimed) && !over;
      var playing := reply.stage == Playing(PlaybackIntent) && !over;
      var bound := reply.lease.Some? && reply.generation == c.generation && reply.lease.value.instance == c.instance
                   && reply.lease.value.credentialGeneration == c.credentialGeneration
                   && reply.lease.value.token == c.token;
      var unstarted := c.evidence.playbackState == Some(SawUnstarted) && c.evidence.startKnown
                       && c.evidence.startedAt == None && c.evidence.completedAt == None && c.evidence.source == None;
      var recorded := response.Some? && response.value.Recorded?;
      && (recorded <==>
            && sourceMatches && bound
            && match c.outcome
               case RecordIntent => owned && authorized
               case ReportUnstarted => owned || playing
               case ReportDelivered => playing
               case ReportUnknown => playing
               case _ => false)
      && (recorded ==>
            && after.stage == Playing(response.value.recordedState)
            && after == reply.(stage := after.stage)
            && (after.stage == Playing(PlaybackIntent) <==> c.outcome.RecordIntent?)
            && (after.stage == Playing(Delivered) <==> c.outcome.ReportDelivered?)
            && (after.stage == Playing(Pending) <==> c.outcome.ReportUnstarted? && (owned || unstarted))
            && (after.stage == Playing(Unknown) <==>
                  c.outcome.ReportUnknown? || (c.outcome.ReportUnstarted? && playing && !unstarted)))
      && (!sourceMatches ==> response.None? && after == reply.(stage := Playing(Unknown)))
      && (sourceMatches && !recorded ==>
            && response.Some? && response.value.Unavailable?
            && after == reply.(stage :=
                 if over && reply.stage == Playing(Claimed) then Playing(Pending)
                 else if over && reply.stage == Playing(PlaybackIntent) then Playing(Unknown)
                 else reply.stage)
            && (response.value.state.Some? ==> bound && response.value.state.value == after.stage))
  {
  }

  /** A reply is stored exactly when none is, the request waits, and the action has come to rest. */
  lemma ResolvesExactly(row: Row, a: Association, status: ActionStatus, decision: string, at: int)
    requires row.reply.None?
    ensures var (after, reply) := Resolved(row, a, status, decision, at);
      var waiting := row.lifecycle.WaitingConfirmation? || row.lifecycle.WaitingStrongerAuth?;
      && (reply.Some? <==> waiting && !status.Planned? && !status.Executing?)
      && (reply.None? ==> after == row)
      && (reply.Some? ==>
            && after == row.(lifecycle := after.lifecycle, reply := reply)
            && reply.value.stage == (if row.voice then Playing(Pending) else NotObserved)
            && reply.value.generation == 0 && reply.value.lease == None
            && ResultTells(reply.value.verdict, after.lifecycle, a, status)
            && reply.value.verdict.decision == decision && reply.value.verdict.resolvedAt == at)
  {
  }

  /** How the status of the action is told, and where it leaves the request. */
  ghost predicate ResultTells(v: Verdict, lifecycle: Lifecycle, a: Association, status: ActionStatus) {
    var done := status.Succeeded? && !a.sceneStopped;
    var partly := status.Partial? || (status.Succeeded? && a.sceneStopped);
    var waits := status.RequireConfirmation? || status.RequireStrongerAuth?;
    var open := waits || status.UnknownResult? || status.RecoveryRequired?;
    && v.approvalId == a.approvalId && v.actionId == a.actionId && v.actionStatus == status
    && (v.resultStatus.ActivityCompleted? <==> done)
    && (v.resultStatus.PartialStatus? <==> partly)
    && (v.resultStatus.StillWaitingConfirmation? <==> status.RequireConfirmation?)
    && (v.resultStatus.StillWaitingAuth? <==> status.RequireStrongerAuth?)
    && (v.resultStatus.UnknownResultStatus? <==> status.UnknownResult?)
    && (v.resultStatus.UnavailableStatus? <==> status.RecoveryRequired?)
    && (v.resultStatus.FailedStatus? <==> !done && !partly && !open)
    && (lifecycle.CompletedRequest? <==> done)
    && (lifecycle.WaitingConfirmation? <==> status.RequireConfirmation?)
    && (lifecycle.WaitingStrongerAuth? <==> status.RequireStrongerAuth?)
    && (lifecycle.UnknownOutcome? <==> status.UnknownResult?)
    && (lifecycle.NeedsRecovery? <==> status.RecoveryRequired?)
    && (lifecycle.FailedRequest? <==> !done && !open)
  }

  // ----- from the whole table to one row -----

  /** One call is, for each row, a visit that happens once or not at all; a claim names the row it made. */
  lemma {:induction false} DeliveryVisitsRowsAtMostOnce(
    rows: Rows, ids: seq<nat>, c: Call, sources: map<nat, bool>, permits: map<nat, bool>, id: nat
  )
    requires Candidates(rows, ids, c) && id in rows && rows[id].Valid()
    ensures var (after, response) := DeliveryRows(rows, ids, c, sources, permits);
      && after.Keys == rows.Keys
      && (after[id] == rows[id] || (id in ids && after[id] == Visited(rows[id], id, c, sources, permits)))
      && (response.ClaimedReply? && response.requestId == id ==>
            && id in ids && after[id] == Visited(rows[id], id, c, sources, permits)
            && after[id].reply.value.generation == response.claimedGeneration
            && Visit(id, rows[id].reply.value, c, Holds(sources, id), rows[id].member && Holds(permits, id)).1
                 == Some(response))
  {
    hide Target, Lapse;
    if ids != [] {
      var first := ids[0];
      var (reply, response) :=
        Visit(first, rows[first].reply.value, c, Holds(sources, first), rows[first].member && Holds(permits, first));
      var next := rows[first := rows[first].(reply := Some(reply))];
      if response.None? {
        assert Candidates(next, ids[1..], c);
        if id == first {
          DeliveryLeavesOthers(next, ids[1..], c, sources, permits, id);
        } else {
          DeliveryVisitsRowsAtMostOnce(next, ids[1..], c, sources, permits, id);
        }
      }
    }
  }

  /** The row after one visit. */
  function Visited(row: Row, id: nat, c: Call, sources: map<nat, bool>, permits: map<nat, bool>): Row
    requires row.Valid() && row.reply.Some?
  {
    row.(reply := Some(Visit(id, row.reply.value, c, Holds(sources, id), row.member && Holds(permits, id)).0))
  }

  lemma {:induction false} DeliveryLeavesOthers(
    rows: Rows, ids: seq<nat>, c: Call, sources: map<nat, bool>, permits: map<nat, bool>, id: nat
  )
    requires Candidates(rows, ids, c) && id in rows && id !in ids
    ensures var (after, response) := DeliveryRows(rows, ids, c, sources, permits);
      && after.Keys == rows.Keys && after[id] == rows[id]
      && (response.ClaimedReply? ==> response.requestId != id)
  {
    hide Target, Lapse;
    if ids != [] {
      var first := ids[0];
      var (reply, response) :=
        Visit(first, rows[first].reply.value, c, Holds(sources, first), rows[first].member && Holds(permits, first));
      if response.None? {
        DeliveryLeavesOthers(rows[first := rows[first].(reply := Some(reply))], ids[1..], c, sources, permits, id);
      }
    }
  }

  /** Which rows a call reaches: the voiced replies of this household and client, open ones or the named one. */
  lemma ReachesExactly(row: Row, id: nat, c: Call)
    ensures Selected(row, id, c) <==>
      && row.household == c.household && row.clientId == c.clientId && row.voice && row.reply.Some?
      && match c
         case NextReply(_, _, _, _, _, _) =>
           var stage := row.reply.value.stage;
           stage == Playing(Pending) || stage == Playing(Claimed) || stage == Playing(PlaybackIntent)
         case ReplyReceipt(_, _, _, _, _, _, requestId, _, _, _) => id == requestId
  {
  }

  /**
   A reply is handed out only to the client of its household that it is for, while its member is
   current and may hear it, and over the action and the approval it speaks of.
   */
  lemma ClaimedForItsClient(
    rows: Rows, ids: seq<nat>, c: Call, sources: map<nat, bool>, permits: map<nat, bool>, id: nat
  )
    requires Candidates(rows, ids, c) && id in rows && rows[id].Valid()
    requires var response := DeliveryRows(rows, ids, c, sources, permits).1;
      response.ClaimedReply? && response.requestId == id
    ensures rows[id].household == c.household && rows[id].clientId == c.clientId && rows[id].member
    ensures id in permits && permits[id] && id in sources && sources[id]
  {
    hide DeliveryRows, Visit;
    DeliveryVisitsRowsAtMostOnce(rows, ids, c, sources, permits, id);
    var k :| 0 <= k < |ids| && ids[k] == id;
    assert Selected(rows[id], id, c);
    var reply, authorized := rows[id].reply.value, rows[id].member && Holds(permits, id);
    OnlyPollsClaim(id, reply, c, Holds(sources, id), authorized);
    PollDecidesExactly(id, reply, c, Holds(sources, id), authorized);
  }

  lemma OnlyPollsClaim(id: nat, reply: Reply, c: Call, sourceMatches: bool, authorized: bool)
    requires reply.Valid() && Visit(id, reply, c, sourceMatches, authorized).1.Some?
    requires Visit(id, reply, c, sourceMatches, authorized).1.value.ClaimedReply?
    ensures c.NextReply?
    ensures Visit(id, reply, c, sourceMatches, authorized).1 == Some(ClaimedReply(id, reply.generation + 1))
  {
  }
}
