/** The durable idempotency records of actions. */
module ActionStores {
  import opened Options
  import opened Statuses
  import opened ActionRequests
  import opened Truths

  datatype ActionResult =
    | Intended(expected: seq<Effect>)
    | Outcome(executed: bool, effects: seq<Evidence>, ambiguous: bool)
    | AwaitingApproval(approvalId: nat)
    | ConnectorEvidence(listed: seq<Arguments>)

  datatype Record = Record(
    actionId: nat,
    key: string,
    digest: Digest,
    household: string,
    toolId: string,
    status: ActionStatus,
    result: Option<ActionResult>,
    latestTruth: Truth
  )

  datatype Store = Store(records: map<nat, Record>, byKey: map<string, nat>)

  datatype ActionClaim = ActionClaim(record: Record, duplicate: bool, conflict: bool)

  /** The uniqueness rules: one record per key, found again under its own id. */
  ghost predicate WellKeyed(s: Store) {
    && (forall k :: k in s.byKey ==> s.byKey[k] in s.records && s.records[s.byKey[k]].key == k)
    && (forall id :: id in s.records ==>
          s.records[id].actionId == id && s.records[id].key in s.byKey && s.byKey[s.records[id].key] == id)
  }

  function PlannedRecord(r: Request): Record {
    Record(r.actionId, r.key, RequestDigest(r), r.household, r.tool.toolId, Planned, None, map[])
  }

  function Claimed(s: Store, r: Request): (Store, ActionClaim)
    requires r.key in s.byKey ==> s.byKey[r.key] in s.records
  {
    if r.key in s.byKey then
      var existing := s.records[s.byKey[r.key]];
      (s, ActionClaim(existing, existing.digest == RequestDigest(r), existing.digest != RequestDigest(r)))
    else
      (Store(s.records[r.actionId := PlannedRecord(r)], s.byKey[r.key := r.actionId]),
        ActionClaim(PlannedRecord(r), false, false))
  }

  function UpdatedRecord(
    old_: Record, status: ActionStatus, result: Option<ActionResult>, truth: Option<Truth>
  ): Record {
    old_.(status := status, result := result, latestTruth := if truth.Some? then truth.value else old_.latestTruth)
  }

  /** An unconditional overwrite; the key and the digest are never touched. */
  function Updated(s: Store, id: nat, status: ActionStatus, result: Option<ActionResult>, truth: Option<Truth>): Store
    requires id in s.records
  {
    s.(records := s.records[id := UpdatedRecord(s.records[id], status, result, truth)])
  }

  function RecoveredRecord(r: Record): Record {
    if r.status.Executing? then r.(status := UnknownResult)
    else if r.status.Planned? then r.(status := RecoveryRequired)
    else r
  }

  function Recovered(s: Store): Store {
    s.(records := map id | id in s.records :: RecoveredRecord(s.records[id]))
  }

  /** The same key with the same digest is a duplicate; with another digest a conflict that changes nothing. */
  lemma ClaimSeparatesDigests(s: Store, r: Request, q: Request)
    requires WellKeyed(s) && r.key == q.key && r.key !in s.byKey && r.actionId !in s.records
    ensures var (after, first) := Claimed(s, r);
      && WellKeyed(after)
      && !first.duplicate && !first.conflict && first.record.status.Planned?
      && var (again, second) := Claimed(after, q);
      && again == after && second.record == first.record
      && (second.duplicate <==> RequestDigest(q) == RequestDigest(r))
      && (second.conflict <==> RequestDigest(q) != RequestDigest(r))
  {
  }

  /** A new claim plans the action of the request, and an update changes status, result and truth alone. */
  lemma RecordsTell(r: Request, old_: Record, status: ActionStatus, result: Option<ActionResult>, truth: Option<Truth>)
    ensures var p := PlannedRecord(r);
      && p.actionId == r.actionId && p.key == r.key && p.digest == RequestDigest(r) && p.household == r.household
      && p.toolId == r.tool.toolId && p.status.Planned? && p.result == None && p.latestTruth == map[]
    ensures var u := UpdatedRecord(old_, status, result, truth);
      && u.status == status && u.result == result
      && (truth == None ==> u.latestTruth == old_.latestTruth) && (truth.Some? ==> u.latestTruth == truth.value)
      && u.(status := old_.status, result := old_.result, latestTruth := old_.latestTruth) == old_
  {
  }

  /** After recovery nothing is planned or executing, and every other record is as before. */
  lemma RecoveryLeavesNothingInFlight(s: Store, id: nat)
    requires id in s.records
    ensures var r := Recovered(s).records[id];
      && !r.status.Planned? && !r.status.Executing?
      && (s.records[id].status.Executing? ==> r.status.UnknownResult?)
      && (s.records[id].status.Planned? ==> r.status.RecoveryRequired?)
      && r == s.records[id].(status := r.status)
      && (!s.records[id].status.Planned? && !s.records[id].status.Executing? ==> r == s.records[id])
      && Recovered(Recovered(s)) == Recovered(s)
  {
  }

  /** A row of the effects table: evidence of the coordinator's own, or an entry the connector reported. */
  datatype EffectEntry = Found(evidence: Evidence) | Reported(entry: Arguments)

  datatype EffectRow = EffectRow(actionId: nat, index: nat, entry: EffectEntry)

  /** The `effects` list of a result, if it has one. */
  function Listed(result: Option<ActionResult>): seq<EffectEntry> {
    match result
    case Some(Outcome(_, es, _)) => seq(|es|, i requires 0 <= i < |es| => Found(es[i]))
    case Some(ConnectorEvidence(entries)) => seq(|entries|, i requires 0 <= i < |entries| => Reported(entries[i]))
    case _ => []
  }

  /** What has an effects list: an outcome, by its evidence, and what the connector listed; nothing else. */
  lemma ListedExactly(result: Option<ActionResult>)
    ensures match result
      case Some(Outcome(_, es, _)) =>
        |Listed(result)| == |es| && forall i :: 0 <= i < |es| ==> Listed(result)[i] == Found(es[i])
      case Some(ConnectorEvidence(entries)) =>
        |Listed(result)| == |entries| && forall i :: 0 <= i < |entries| ==> Listed(result)[i] == Reported(entries[i])
      case Some(Intended(_)) => Listed(result) == []
      case Some(AwaitingApproval(_)) => Listed(result) == []
      case None => Listed(result) == []
  {
  }

  /** One row per entry, numbered in order. */
  function EffectRows(id: nat, entries: seq<EffectEntry>): (rows: seq<EffectRow>)
    ensures |rows| == |entries|
    ensures forall i :: 0 <= i < |entries| ==> rows[i] == EffectRow(id, i, entries[i])
  {
    seq(|entries|, i requires 0 <= i < |entries| => EffectRow(id, i, entries[i]))
  }

  predicate InFlight(r: Record) {
    r.status.Planned? || r.status.Executing?
  }

  /** What was recovered of the records in `done`. */
  ghost predicate Collected(before: map<nat, Record>, done: set<nat>, recovered: seq<Record>) {
    forall r :: r in recovered <==>
      exists id :: id in done && id in before && InFlight(before[id]) && r == RecoveredRecord(before[id])
  }

  lemma NothingCollected(before: map<nat, Record>)
    ensures Collected(before, {}, [])
  {
  }

  lemma CollectedMore(before: map<nat, Record>, done: set<nat>, id: nat, recovered: seq<Record>)
    requires Collected(before, done, recovered) && id in before && id !in done
    ensures Collected(before, done + {id},
                      recovered + if InFlight(before[id]) then [RecoveredRecord(before[id])] else [])
  {
    hide RecoveredRecord;
    var more := recovered + if InFlight(before[id]) then [RecoveredRecord(before[id])] else [];
    forall r ensures r in more <==>
      exists i :: i in done + {id} && i in before && InFlight(before[i]) && r == RecoveredRecord(before[i])
    {
      if r in recovered {
        var i :| i in done && i in before && InFlight(before[i]) && r == RecoveredRecord(before[i]);
        assert i in done + {id};
      } else if r in more {
        assert id in done + {id};
      }
    }
  }

  lemma CollectedAll(before: map<nat, Record>, recovered: seq<Record>)
    requires Collected(before, before.Keys, recovered)
    ensures forall r :: r in recovered <==>
      exists id :: id in before && InFlight(before[id]) && r == RecoveredRecord(before[id])
  {
    hide RecoveredRecord;
  }

  /** Recovery writes what the two updates write, and leaves alone what is not in flight. */
  lemma RecoveryUpdates(r: Record)
    ensures r.status.Executing? ==> RecoveredRecord(r) == UpdatedRecord(r, UnknownResult, r.result, None)
    ensures r.status.Planned? ==> RecoveredRecord(r) == UpdatedRecord(r, RecoveryRequired, r.result, None)
    ensures !InFlight(r) ==> RecoveredRecord(r) == r
  {
  }

  class InMemoryActionStore {
    var records: map<nat, Record>
    var byKey: map<string, nat>
    var effects: seq<EffectRow>

    constructor ()
      ensures State() == Store(map[], map[]) && effects == []
    {
      records, byKey, effects := map[], map[], [];
    }

    function State(): Store
      reads this
    {
      Store(records, byKey)
    }

    method Claim(r: Request) returns (claim: ActionClaim)
      requires WellKeyed(State())
      modifies this`records, this`byKey
      ensures (State(), claim) == Claimed(old(State()), r)
    {
      if r.key in byKey {
        var existing := records[byKey[r.key]];
        var same := existing.digest == RequestDigest(r);
        return ActionClaim(existing, same, !same);
      }
      var record := PlannedRecord(r);
      records := records[r.actionId := record];
      byKey := byKey[r.key := r.actionId];
      return ActionClaim(record, false, false);
    }

    /** `None` is a KeyError: nothing was written. */
    method Update(
      id: nat, status: ActionStatus, result: Option<ActionResult>, truth: Option<Truth>
    ) returns (record: Option<Record>)
      modifies this`records
      ensures record.Some? <==> id in old(records)
      ensures record.Some? ==>
        State() == Updated(old(State()), id, status, result, truth) && record.value == records[id]
      ensures record.None? ==> State() == old(State())
    {
      if id !in records {
        return None;
      }
      var new_ := UpdatedRecord(records[id], status, result, truth);
      records := records[id := new_];
      return Some(new_);
    }

    method Get(id: nat) returns (record: Option<Record>)
      ensures record == if id in records then Some(records[id]) else None
    {
      return if id in records then Some(records[id]) else None;
    }

    /** Returns each record that was in flight, in its recovered form. */
    method RecoverIncomplete() returns (recovered: seq<Record>)
      modifies this`records
      ensures State() == Recovered(old(State()))
      ensures forall r :: r in recovered <==>
        exists id :: id in old(records) && InFlight(old(records)[id]) && r == RecoveredRecord(old(records)[id])
    {
      hide RecoveredRecord, UpdatedRecord, Collected;
      ghost var before, done := records, {};
      var todo := records.Keys;
      recovered := [];
      NothingCollected(before);
      while todo != {}
        invariant records.Keys == before.Keys && todo <= before.Keys && done == before.Keys - todo
        invariant byKey == old(byKey)
        invariant forall id :: id in before ==>
          records[id] == if id in todo then before[id] else RecoveredRecord(before[id])
        invariant Collected(before, done, recovered)
        decreases todo
      {
        var id :| id in todo;
        var record := records[id];
        RecoveryUpdates(record);
        CollectedMore(before, done, id, recovered);
        ghost var more := recovered + if InFlight(record) then [RecoveredRecord(record)] else [];
        if record.status.Executing? {
          var changed := Update(id, UnknownResult, record.result, None);
          recovered := recovered + [changed.value];
        } else if record.status.Planned? {
          var changed := Update(id, RecoveryRequired, record.result, None);
          recovered := recovered + [changed.value];
        }
        assert recovered == more;
        todo, done := todo - {id}, done + {id};
      }
      assert done == before.Keys;
      CollectedAll(before, recovered);
    }

    method RecordEffects(id: nat, entries: seq<EffectEntry>)
      modifies this`effects
      ensures effects == old(effects) + EffectRows(id, entries)
    {
      for i := 0 to |entries|
        invariant effects == old(effects) + EffectRows(id, entries)[..i]
      {
        effects := effects + [EffectRow(id, i, entries[i])];
      }
    }
  }
}
