/**
 The write-ahead outbox of the vendor relay: memory, the snapshot on disk, and the points
 between them at which the process may die.
 */
module RelayOutbox {
  import opened Options
  import opened Timing
  import opened Uuids
  import opened VendorReports

  datatype DeliveryState = Pending | Acknowledged | Unknown | Escalated

  datatype Delivery = Delivery(
    deliveryId: string,
    package: string,
    report: Option<Report>,
    created: int,
    due: int,
    attempts: nat,
    state: DeliveryState,
    transportAttempted: bool
  )

  type Outbox = seq<Delivery>

  /** What one snapshot stores. */
  datatype Snapshot = Snapshot(deliveries: Outbox, overflow: nat)

  /** `_validate_delivery`. */
  predicate ValidDelivery(d: Delivery) {
    && AllowedPackage(d.package)
    && ParseUuid(d.deliveryId).Uuid?
    && (if d.state.Pending? then d.report.Some? && Storable(d.report.value, d.package, d.deliveryId)
         else d.report.None?)
  }

  /** A snapshot that the constructor accepts. */
  predicate Loadable(s: Snapshot) {
    |s.deliveries| <= 80 && forall i :: 0 <= i < |s.deliveries| ==> ValidDelivery(s.deliveries[i])
  }

  predicate Unacknowledged(d: Delivery) {
    !d.state.Acknowledged?
  }

  function Filter(f: Delivery -> bool, ds: Outbox): (r: Outbox)
    ensures |r| <= |ds|
    ensures forall d :: d in r <==> d in ds && f(d)
  {
    if ds == [] then []
    else
      var rest := Filter(f, ds[1..]);
      assert ds == [ds[0]] + ds[1..];
      if f(ds[0]) then [ds[0]] + rest else rest
  }

  function LastOf(ds: Outbox, n: nat): Outbox {
    if |ds| <= n then ds else ds[|ds| - n..]
  }

  function RecentReceipts(ds: Outbox, at: int): Outbox {
    LastOf(Filter((d: Delivery) => d.state.Acknowledged? && d.created >= at - 86400 * SECOND, ds), 16)
  }

  /** `_compact_receipts`: every open obligation, then at most sixteen receipts of the last day. */
  function Compacted(ds: Outbox, at: int): Outbox {
    Filter(Unacknowledged, ds) + RecentReceipts(ds, at)
  }

  /** Expiry never calls an attempted delivery clearly unsent. */
  function Expire(d: Delivery, at: int): Delivery {
    if d.state.Pending? && d.created < at - 3600 * SECOND then
      d.(state := if d.transportAttempted then Unknown else Escalated, report := None)
    else d
  }

  function ExpireAll(ds: Outbox, at: int): (r: Outbox)
    ensures |r| == |ds|
    ensures forall i :: 0 <= i < |ds| ==> r[i] == Expire(ds[i], at)
  {
    seq(|ds|, i requires 0 <= i < |ds| => Expire(ds[i], at))
  }

  predicate DueNow(d: Delivery, at: int) {
    d.state.Pending? && d.due <= at
  }

  /** The first delivery that is pending and due. */
  function FirstDue(ds: Outbox, at: int): (i: Option<nat>)
    ensures i.Some? ==> i.value < |ds| && DueNow(ds[i.value], at) && forall j :: 0 <= j < i.value ==> !DueNow(ds[j], at)
    ensures i.None? ==> forall j :: 0 <= j < |ds| ==> !DueNow(ds[j], at)
  {
    if ds == [] then None
    else if DueNow(ds[0], at) then Some(0)
    else
      var i := FirstDue(ds[1..], at);
      if i.Some? then Some(i.value + 1) else None
  }

  function Acknowledge(d: Delivery): Delivery {
    d.(state := Acknowledged, report := None)
  }

  /** Another recorded attempt, and the time before which there is no next one. */
  function Postpone(d: Delivery, at: int): Delivery {
    d.(attempts := d.attempts + 1, due := at + Backoff(d.attempts + 1, 300, 9) * SECOND)
  }

  function NewDelivery(id: string, package: string, report: Report, at: int): Delivery {
    Delivery(id, package, Some(report), at, at, 0, Pending, false)
  }

  // ----- the receiver's answer -----

  datatype Receipt = Receipt(
    status: string,
    deliveryId: string,
    eventIdIsText: bool,
    positionIsInt: bool,
    attention: string
  )

  /**
   How the POST ended: with a receipt, with an error that `drain` handles, or with one that it
   does not, such as a broken status line or an answer that is no JSON object.
   */
  datatype Answer = Reply(receipt: Receipt) | Caught | Escaped

  predicate ValidReceipt(answer: Answer, id: string) {
    && answer.Reply?
    && answer.receipt.status == "RECORDED"
    && answer.receipt.deliveryId == id
    && answer.receipt.eventIdIsText
    && answer.receipt.positionIsInt
    && answer.receipt.attention in {"QUEUED", "NO_NEW_REQUEST", "NOT_ELIGIBLE"}
  }

  datatype Post = Post(deliveryId: string, report: Option<Report>, answer: Answer)

  // ----- one step at a time -----

  /**
   Where the process is. `Draining`: about to read the clock; `Chosen`: swept and persisted;
   `Armed`: the attempt is marked on disk; `Answered`: the receiver has been called.
   */
  datatype Phase =
    | Idle
    | Draining
    | Chosen(row: nat, at: int)
    | Armed(row: nat, at: int)
    | Answered(row: nat, at: int, accepted: bool)

  /**
   `returning` is the id that the running `receive` will return. The last four fields record
   what happened: every POST with its answer, the ids acknowledged with a valid receipt, the ids `receive`
   returned, and for every id in use the report it was filed with.
   */
  datatype World = World(
    memory: Snapshot,
    disk: Snapshot,
    phase: Phase,
    returning: Option<string>,
    posts: seq<Post>,
    acknowledged: set<string>,
    returned: set<string>,
    issued: map<string, Option<Report>>
  )

  /**
   How writing a snapshot ends: it is in place and synced; an exception left the old one in
   place; or the new one was renamed into place and syncing the directory raised.
   */
  datatype Write = Synced | Lost | Unsynced

  /** What is on disk after `memory` was written over `disk`. */
  function Stored(disk: Snapshot, memory: Snapshot, write: Write): Snapshot {
    if write.Lost? then disk else memory
  }

  /** Unless everything went well, an exception ends the call. */
  function Persist(w: World, write: Write, next: Phase): World {
    var v := w.(disk := Stored(w.disk, w.memory, write));
    if write.Synced? then v.(phase := next) else Abort(v)
  }

  function Abort(w: World): World {
    w.(phase := Idle, returning := None)
  }

  /** The call ran to its end and a `receive` returns its id, unless the status file failed. */
  function Finish(w: World, reported: bool): World {
    if !reported then Abort(w)
    else
      w.(phase := Idle, returning := None,
         returned := if w.returning.Some? then w.returned + {w.returning.value} else w.returned)
  }

  /** `receive` up to the call of `drain`, for a matched report with a fresh id. */
  function Arrive(w: World, id: string, package: string, report: Report, at: int, write: Write): World {
    var compacted := w.memory.(deliveries := Compacted(w.memory.deliveries, at));
    if |Filter(Unacknowledged, compacted.deliveries)| >= 64 then
      var full := compacted.(overflow := compacted.overflow + 1);
      Abort(w.(memory := full, disk := Stored(w.disk, full, write)))
    else
      var kept := compacted.(deliveries := compacted.deliveries + [NewDelivery(id, package, report, at)]);
      Persist(w.(memory := kept, issued := w.issued[id := Some(report)], returning := Some(id)), write, Draining)
  }

  function Sweep(w: World, at: int, write: Write, reported: bool): World {
    var swept := ExpireAll(w.memory.deliveries, at);
    var row := FirstDue(swept, at);
    var next := if row.Some? then Chosen(row.value, at) else Draining;
    var v := Persist(w.(memory := w.memory.(deliveries := swept)), write, next);
    if write.Synced? && row.None? then Finish(v, reported) else v
  }

  /** The token file is read, then the attempt is marked and persisted before anything is sent. */
  function Arm(w: World, tokenRead: bool, write: Write): World
    requires w.phase.Chosen? && w.phase.row < |w.memory.deliveries|
  {
    if !tokenRead then Abort(w)
    else
      var ds := w.memory.deliveries;
      var marked := ds[w.phase.row := ds[w.phase.row].(transportAttempted := true)];
      Persist(w.(memory := w.memory.(deliveries := marked)), write, Armed(w.phase.row, w.phase.at))
  }

  /** The POST. It may have had its effect even when no answer came back. */
  function Send(w: World, answer: Answer): World
    requires w.phase.Armed? && w.phase.row < |w.memory.deliveries|
  {
    var d := w.memory.deliveries[w.phase.row];
    var ok := ValidReceipt(answer, d.deliveryId);
    var sent := w.(posts := w.posts + [Post(d.deliveryId, d.report, answer)],
                   acknowledged := if ok then w.acknowledged + {d.deliveryId} else w.acknowledged);
    if answer.Escaped? then Abort(sent) else sent.(phase := Answered(w.phase.row, w.phase.at, ok))
  }

  /** The outbox after an acknowledgement. */
  function Plain(w: World): Snapshot
    requires w.phase.Answered? && w.phase.row < |w.memory.deliveries|
  {
    var ds, k := w.memory.deliveries, w.phase.row;
    w.memory.(deliveries := Compacted(ds[k := Acknowledge(ds[k])], w.phase.at))
  }

  /** The outbox after an acknowledgement whose bookkeeping failed: the attempt is counted too. */
  function Counted(w: World): Snapshot
    requires w.phase.Answered? && w.phase.row < |w.memory.deliveries|
  {
    var ds, k := w.memory.deliveries, w.phase.row;
    w.memory.(deliveries := Compacted(ds[k := Postpone(Acknowledge(ds[k]), w.phase.at)], w.phase.at))
  }

  /** The outbox after a failed attempt. */
  function Postponed(w: World): Snapshot
    requires w.phase.Answered? && w.phase.row < |w.memory.deliveries|
  {
    var ds, k := w.memory.deliveries, w.phase.row;
    w.memory.(deliveries := ds[k := Postpone(ds[k], w.phase.at)])
  }

  /** The rest of a failed attempt, with `memory` to be written over `disk`. */
  function Fail(w: World, memory: Snapshot, disk: Snapshot, write: Write, reported: bool): World {
    var v := w.(memory := memory, disk := Stored(disk, memory, write));
    if write.Synced? then Finish(v, reported) else Abort(v)
  }

  /**
   After the answer. An error while an acknowledgement is written or reported is caught with
   the transport errors: the row stays acknowledged and its attempt is counted once more.
   */
  function Settle(w: World, write: Write, reported: bool, again: Write, reportedAgain: bool): World
    requires w.phase.Answered? && w.phase.row < |w.memory.deliveries|
  {
    if !w.phase.accepted then Fail(w, Postponed(w), w.disk, write, reported)
    else if write.Synced? && reported then Finish(w.(memory := Plain(w), disk := Plain(w)), true)
    else Fail(w, Counted(w), Stored(w.disk, Plain(w), write), again, reportedAgain)
  }

  /** The process dies and a new one loads the snapshot. */
  function Crash(w: World): World {
    w.(memory := w.disk, phase := Idle, returning := None)
  }

  /** The answers of the environment to one `drain` call. */
  datatype Weather = Weather(
    at: int,
    sweepWrite: Write,
    tokenRead: bool,
    armWrite: Write,
    answer: Answer,
    settleWrite: Write,
    reported: bool,
    settleWriteAgain: Write,
    reportedAgain: bool
  )

  /** A whole `drain` without a crash. */
  function Drained(w: World, e: Weather): World
    requires w.phase.Draining?
  {
    var swept := Sweep(w, e.at, e.sweepWrite, e.reported);
    if !swept.phase.Chosen? then swept else Delivered(swept, e)
  }

  function Delivered(w: World, e: Weather): World
    requires w.phase.Chosen? && w.phase.row < |w.memory.deliveries|
  {
    var armed := Arm(w, e.tokenRead, e.armWrite);
    if !armed.phase.Armed? then armed
    else
      var sent := Send(armed, e.answer);
      if !sent.phase.Answered? then sent
      else Settle(sent, e.settleWrite, e.reported, e.settleWriteAgain, e.reportedAgain)
  }

  /** A whole `receive` of a matched report without a crash. */
  function Received(
    w: World, id: string, package: string, report: Report, at: int, write: Write, e: Weather
  ): World {
    var arrived := Arrive(w, id, package, report, at, write);
    if arrived.phase.Draining? then Drained(arrived, e) else arrived
  }

  /** The reports the deliveries of a loaded snapshot still carry. */
  ghost function FiledIn(ds: Outbox): (m: map<string, Option<Report>>)
    ensures forall d :: d in ds ==> d.deliveryId in m
  {
    if ds == [] then map[] else FiledIn(ds[1..])[ds[0].deliveryId := ds[0].report]
  }

  ghost function AcknowledgedIn(ds: Outbox): set<string> {
    set d | d in ds && d.state.Acknowledged? :: d.deliveryId
  }

  /** What a snapshot must be to load: at most 80 deliveries, each with a report exactly while it is pending. */
  lemma LoadsExactly(s: Snapshot)
    ensures Loadable(s) <==>
      && |s.deliveries| <= 80
      && forall i :: 0 <= i < |s.deliveries| ==>
           var d := s.deliveries[i];
           && (d.package == "com.tplink.iot" || d.package == "net.ajcloud.wansviewplus")
           && ParseUuid(d.deliveryId) != Malformed
           && (match d.report
               case Some(report) => d.state == Pending && Storable(report, d.package, d.deliveryId)
               case None => d.state != Pending)
  {
    hide Storable, ParseUuid;
  }
}
