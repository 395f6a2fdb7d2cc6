/** Every run of the relay process over its disk, with a crash possible between any two steps. */
module RelayRuns {
  import opened Options
  import opened Timing
  import opened Uuids
  import opened VendorReports
  import opened RelayOutbox

  datatype Event =
    | Arriving(id: string, package: string, report: Report, arrivedAt: int, arrival: Write)
    | Tick
    | Sweeping(at: int, write: Write, reported: bool)
    | Arming(tokenRead: bool, mark: Write)
    | Sending(answer: Answer)
    | Settling(settle: Write, settleReported: bool, again: Write, againReported: bool)
    | Crashing

  /** A report arrives with a fresh UUID and in the form that matching gives it. */
  predicate Enabled(w: World, e: Event) {
    match e
    case Arriving(id, package, report, _, _) =>
      w.phase.Idle? && id !in w.issued && Canonical(id) && AllowedPackage(package) && Storable(report, package, id)
    case Tick => w.phase.Idle?
    case Sweeping(_, _, _) => w.phase.Draining?
    case Arming(_, _) => w.phase.Chosen? && w.phase.row < |w.memory.deliveries|
    case Sending(_) => w.phase.Armed? && w.phase.row < |w.memory.deliveries|
    case Settling(_, _, _, _) => w.phase.Answered? && w.phase.row < |w.memory.deliveries|
    case Crashing => true
  }

  function Apply(w: World, e: Event): World
    requires Enabled(w, e)
  {
    match e
    case Arriving(id, package, report, at, write) => Arrive(w, id, package, report, at, write)
    case Tick => w.(phase := Draining)
    case Sweeping(at, write, reported) => Sweep(w, at, write, reported)
    case Arming(tokenRead, write) => Arm(w, tokenRead, write)
    case Sending(answer) => Send(w, answer)
    case Settling(write, reported, again, againReported) => Settle(w, write, reported, again, againReported)
    case Crashing => Crash(w)
  }

  ghost function Boot(disk: Snapshot): World {
    World(disk, disk, Idle, None, [], AcknowledgedIn(disk.deliveries), {}, FiledIn(disk.deliveries))
  }

  /** Events that are not enabled do nothing. */
  function Step(w: World, e: Event): World {
    if Enabled(w, e) then Apply(w, e) else w
  }

  ghost function Run(disk: Snapshot, events: seq<Event>): World {
    if events == [] then Boot(disk) else Step(Run(disk, events[..|events| - 1]), events[|events| - 1])
  }

  /** What `drain` does without a crash is one pass through these steps. */
  lemma DrainIsFourSteps(w: World, e: Weather)
    requires w.phase.Draining?
    ensures Drained(w, e) ==
      Step(Step(Step(Step(w,
        Sweeping(e.at, e.sweepWrite, e.reported)),
        Arming(e.tokenRead, e.armWrite)),
        Sending(e.answer)),
        Settling(e.settleWrite, e.reported, e.settleWriteAgain, e.reportedAgain))
  {
    hide Settle, ExpireAll, FirstDue, ValidReceipt, Arrive, Crash, Storable, Canonical, AllowedPackage;
  }

  // ----- outbox operations, one delivery at a time -----

  ghost predicate Every(ds: Outbox, p: Delivery -> bool) {
    forall i :: 0 <= i < |ds| ==> p(ds[i])
  }

  lemma EveryCompacted(ds: Outbox, at: int, p: Delivery -> bool)
    requires Every(ds, p)
    ensures Every(Compacted(ds, at), p)
  {
    CompactedFromOutbox(ds, at);
    forall i | 0 <= i < |Compacted(ds, at)| ensures p(Compacted(ds, at)[i]) {
      assert Compacted(ds, at)[i] in ds;
    }
  }

  lemma CompactedFromOutbox(ds: Outbox, at: int)
    ensures forall d :: d in Compacted(ds, at) ==> d in ds
    ensures forall d :: d in ds && Unacknowledged(d) ==> d in Compacted(ds, at)
  {
  }

  lemma {:induction false} CompactedIsNoLonger(ds: Outbox, at: int)
    ensures |Compacted(ds, at)| <= |ds|
    ensures |Compacted(ds, at)| <= |Filter(Unacknowledged, ds)| + 16
  {
    var recent := (d: Delivery) => d.state.Acknowledged? && d.created >= at - 86400 * SECOND;
    FiltersSplit(ds, Unacknowledged, recent);
  }

  /**
   What compaction leaves of the receipts: at most sixteen, none older than a day, and all that are
   not when there are fewer.
   */
  lemma CompactsExactly(ds: Outbox, at: int)
    ensures var kept := Compacted(ds, at)[|Filter(Unacknowledged, ds)|..];
      && |Compacted(ds, at)| >= |Filter(Unacknowledged, ds)|
      && |kept| <= 16
      && (forall d :: d in kept ==> d in ds && d.state.Acknowledged? && at - d.created <= 86400 * SECOND)
      && (|kept| < 16 ==>
            forall d :: d in ds && d.state.Acknowledged? && at - d.created <= 86400 * SECOND ==> d in kept)
      && (|kept| == 16 ==> kept == RecentReceipts(ds, at))
  {
    var kept := Compacted(ds, at)[|Filter(Unacknowledged, ds)|..];
    assert kept == RecentReceipts(ds, at);
  }

  lemma {:induction false} FiltersSplit(ds: Outbox, f: Delivery -> bool, g: Delivery -> bool)
    requires forall d :: !(f(d) && g(d))
    ensures |Filter(f, ds)| + |Filter(g, ds)| <= |ds|
  {
    if ds != [] { FiltersSplit(ds[1..], f, g); }
  }

  // ----- snapshots always load -----

  ghost predicate Shape(w: World) {
    && Loadable(w.memory) && Loadable(w.disk)
    && (w.phase.Chosen? || w.phase.Armed? || w.phase.Answered? ==>
          w.phase.row < |w.memory.deliveries| && w.memory.deliveries[w.phase.row].state.Pending?)
  }

  lemma StepKeepsShape(w: World, e: Event)
    requires Shape(w) && Enabled(w, e)
    ensures Shape(Apply(w, e))
  {
    match e
    case Arriving(_, _, _, _, _) => ArriveKeepsShape(w, e);
    case Sweeping(_, _, _) => SweepKeepsShape(w, e);
    case Arming(_, _) => ArmKeepsShape(w, e);
    case Sending(_) =>
    case Settling(_, _, _, _) => SettleKeepsShape(w, e);
    case Tick =>
    case Crashing =>
  }

  lemma ArriveKeepsShape(w: World, e: Event)
    requires Shape(w) && e.Arriving? && Enabled(w, e)
    ensures Shape(Apply(w, e))
  {
    hide Compacted, Filter, Storable, ValidDelivery, Apply, Enabled;
    var ds, at := w.memory.deliveries, e.arrivedAt;
    EveryCompacted(ds, at, ValidDelivery);
    ArriveEnds(w, e);
    NewIsValid(w, e);
  }

  /** What an arrival can leave behind. */
  lemma ArriveEnds(w: World, e: Event)
    requires e.Arriving? && Enabled(w, e)
    ensures var v := Apply(w, e);
      var kept := Compacted(w.memory.deliveries, e.arrivedAt);
      && (v.memory.deliveries == kept ||
          (v.memory.deliveries == kept + [NewDelivery(e.id, e.package, e.report, e.arrivedAt)] && |kept| < 80))
      && |kept| <= |w.memory.deliveries|
      && v.disk in {w.disk, v.memory} && (v.phase.Idle? || v.phase.Draining?)
  {
    hide Compacted, Storable;
    var ds, at := w.memory.deliveries, e.arrivedAt;
    CompactedIsNoLonger(ds, at);
    CompactedFilterIsSame(ds, at);
  }

  lemma NewIsValid(w: World, e: Event)
    requires e.Arriving? && Enabled(w, e)
    ensures ValidDelivery(NewDelivery(e.id, e.package, e.report, e.arrivedAt))
  {
    hide Storable;
  }

  lemma SweepKeepsShape(w: World, e: Event)
    requires Shape(w) && e.Sweeping? && Enabled(w, e)
    ensures Shape(Apply(w, e))
  {
    hide Storable, ExpireAll;
    var swept := ExpireAll(w.memory.deliveries, e.at);
    assert forall i :: 0 <= i < |swept| ==> ValidDelivery(swept[i]);
  }

  lemma ArmKeepsShape(w: World, e: Event)
    requires Shape(w) && e.Arming? && Enabled(w, e)
    ensures Shape(Apply(w, e))
  {
    hide Storable;
  }

  lemma SettleKeepsShape(w: World, e: Event)
    requires Shape(w) && e.Settling? && Enabled(w, e)
    ensures Shape(Apply(w, e))
  {
    hide Settle, Plain, Counted, Postponed;
    SettleEnds(w, e);
    SettledLoads(w);
  }

  /** Each outbox that the last step can leave behind is loadable. */
  lemma SettledLoads(w: World)
    requires Shape(w) && w.phase.Answered?
    ensures Loadable(Plain(w)) && Loadable(Counted(w)) && Loadable(Postponed(w))
  {
    hide Compacted, Backoff, Storable;
    var ds, k, at := w.memory.deliveries, w.phase.row, w.phase.at;
    var acked, counted := ds[k := Acknowledge(ds[k])], ds[k := Postpone(Acknowledge(ds[k]), at)];
    EveryCompacted(acked, at, ValidDelivery);
    EveryCompacted(counted, at, ValidDelivery);
    CompactedIsNoLonger(acked, at);
    CompactedIsNoLonger(counted, at);
  }

  lemma CompactedFilterIsSame(ds: Outbox, at: int)
    ensures Filter(Unacknowledged, Compacted(ds, at)) == Filter(Unacknowledged, ds)
  {
    var open, receipts := Filter(Unacknowledged, ds), RecentReceipts(ds, at);
    FilterConcat(Unacknowledged, open, receipts);
    FilterAll(Unacknowledged, open);
    FilterNone(Unacknowledged, receipts);
  }

  lemma {:induction false} FilterConcat(f: Delivery -> bool, a: Outbox, b: Outbox)
    ensures Filter(f, a + b) == Filter(f, a) + Filter(f, b)
  {
    if a == [] {
      assert a + b == b;
    } else {
      assert (a + b)[1..] == a[1..] + b;
      FilterConcat(f, a[1..], b);
    }
  }

  lemma {:induction false} FilterAll(f: Delivery -> bool, ds: Outbox)
    requires forall d :: d in ds ==> f(d)
    ensures Filter(f, ds) == ds
  {
    if ds != [] { FilterAll(f, ds[1..]); }
  }

  lemma {:induction false} FilterNone(f: Delivery -> bool, ds: Outbox)
    requires forall d :: d in ds ==> !f(d)
    ensures Filter(f, ds) == []
  {
    if ds != [] { FilterNone(f, ds[1..]); }
  }

  /**
   An arriving report is taken exactly while fewer than 64 obligations are open. A full outbox
   counts the refusal; whether taken or refused, no open obligation is displaced.
   */
  lemma FullOutboxRefusesExactly(w: World, id: string, package: string, report: Report, at: int, write: Write)
    requires w.phase.Idle?
    ensures var open := Filter(Unacknowledged, w.memory.deliveries);
      var v := Arrive(w, id, package, report, at, write);
      var taken := if |open| < 64 then [NewDelivery(id, package, report, at)] else [];
      && (v.phase.Draining? <==> |open| < 64 && write.Synced?)
      && v.memory.overflow == w.memory.overflow + (if |open| < 64 then 0 else 1)
      && Filter(Unacknowledged, v.memory.deliveries) == open + taken
      && v.disk == (if write.Lost? then w.disk else v.memory)
  {
    var kept := Compacted(w.memory.deliveries, at);
    CompactedFilterIsSame(w.memory.deliveries, at);
    FilterConcat(Unacknowledged, kept, [NewDelivery(id, package, report, at)]);
    FilterAll(Unacknowledged, [NewDelivery(id, package, report, at)]);
  }

  /** From any loadable snapshot, every snapshot ever written is loadable again. */
  lemma {:induction false} AlwaysLoadable(disk: Snapshot, events: seq<Event>)
    requires Loadable(disk)
    ensures Shape(Run(disk, events))
    ensures Loadable(Run(disk, events).disk) && |Run(disk, events).memory.deliveries| <= 80
  {
    if events != [] {
      var n := |events| - 1;
      AlwaysLoadable(disk, events[..n]);
      if Enabled(Run(disk, events[..n]), events[n]) { StepKeepsShape(Run(disk, events[..n]), events[n]); }
    }
  }

  // ----- nothing promised is lost -----

  ghost predicate Has(s: Snapshot, id: string) {
    exists i :: 0 <= i < |s.deliveries| && s.deliveries[i].deliveryId == id
  }

  predicate ReceiptBacked(d: Delivery, acknowledged: set<string>) {
    d.state.Acknowledged? ==> d.deliveryId in acknowledged
  }

  ghost predicate AllBacked(s: Snapshot, acknowledged: set<string>) {
    forall i :: 0 <= i < |s.deliveries| ==> ReceiptBacked(s.deliveries[i], acknowledged)
  }

  ghost predicate Safe(w: World, id: string) {
    id in w.acknowledged || (Has(w.memory, id) && Has(w.disk, id))
  }

  ghost predicate Kept(w: World) {
    && Shape(w)
    && AllBacked(w.memory, w.acknowledged) && AllBacked(w.disk, w.acknowledged)
    && (w.phase.Answered? && w.phase.accepted ==> w.memory.deliveries[w.phase.row].deliveryId in w.acknowledged)
    && (forall id :: id in w.returned ==> Safe(w, id))
    && (w.returning.Some? ==> !w.phase.Idle? && Safe(w, w.returning.value))
  }

  /** An id leaves the outbox only by compaction of its acknowledged entry. */
  lemma CompactionKeepsOpen(ds: Outbox, at: int, acknowledged: set<string>, id: string, overflow: nat)
    requires AllBacked(Snapshot(ds, overflow), acknowledged)
    requires Has(Snapshot(ds, overflow), id) && id !in acknowledged
    ensures Has(Snapshot(Compacted(ds, at), overflow), id)
  {
    var i :| 0 <= i < |ds| && ds[i].deliveryId == id;
    assert ds[i] in Compacted(ds, at);
    var j :| 0 <= j < |Compacted(ds, at)| && Compacted(ds, at)[j] == ds[i];
  }

  lemma StepKeepsKept(w: World, e: Event)
    requires Kept(w) && Enabled(w, e)
    ensures Kept(Apply(w, e))
  {
    hide Arrive, Sweep, Arm, Settle, ValidDelivery;
    StepKeepsShape(w, e);
    match e
    case Arriving(_, _, _, _, _) => ArriveKeepsKept(w, e);
    case Sweeping(_, _, _) => SweepKeepsKept(w, e);
    case Arming(_, _) => ArmKeepsKept(w, e);
    case Settling(_, _, _, _) => SettleKeepsKept(w, e);
    case Tick =>
    case Sending(_) =>
    case Crashing =>
  }

  lemma ArriveKeepsKept(w: World, e: Event)
    requires Kept(w) && e.Arriving? && Enabled(w, e) && Shape(Apply(w, e))
    ensures Kept(Apply(w, e))
  {
    hide Compacted, Filter, Shape, Storable, Canonical;
    var ds, at := w.memory.deliveries, e.arrivedAt;
    var v := Apply(w, e);
    EveryCompacted(ds, at, (d: Delivery) => ReceiptBacked(d, w.acknowledged));
    forall id | id in w.returned && id !in w.acknowledged
      ensures Has(v.memory, id)
    {
      assert Safe(w, id);
      CompactionKeepsOpen(ds, at, w.acknowledged, id, w.memory.overflow);
      var i :| 0 <= i < |Compacted(ds, at)| && Compacted(ds, at)[i].deliveryId == id;
      assert v.memory.deliveries[i].deliveryId == id;
    }
    assert v.returning.Some? ==> v.memory.deliveries[|v.memory.deliveries| - 1].deliveryId == e.id;
  }

  /** Enough for a step to keep every promise: open ids stay in both copies. */
  lemma KeptAcross(w: World, v: World)
    requires Kept(w) && Shape(v) && v.acknowledged == w.acknowledged
    requires AllBacked(v.memory, v.acknowledged) && AllBacked(v.disk, v.acknowledged)
    requires !v.phase.Answered?
    requires forall id :: Safe(w, id) ==> Safe(v, id)
    requires v.returning.Some? ==> v.returning == w.returning && !v.phase.Idle?
    requires v.returned == w.returned || (w.returning.Some? && v.returned == w.returned + {w.returning.value})
    ensures Kept(v)
  {
  }

  /** Entries changed one by one, under the same ids. */
  ghost predicate SameIds(s: Snapshot, t: Snapshot) {
    && |s.deliveries| == |t.deliveries|
    && forall i :: 0 <= i < |s.deliveries| ==> t.deliveries[i].deliveryId == s.deliveries[i].deliveryId
  }

  lemma SameIdsStaySafe(w: World, v: World)
    requires SameIds(w.memory, v.memory) && v.acknowledged == w.acknowledged
    requires v.disk == w.disk || v.disk == v.memory
    ensures forall id :: Safe(w, id) ==> Safe(v, id)
  {
  }

  lemma SweepKeepsKept(w: World, e: Event)
    requires Kept(w) && e.Sweeping? && Enabled(w, e) && Shape(Apply(w, e))
    ensures Kept(Apply(w, e))
  {
    hide Shape, Safe, Has, ExpireAll, FirstDue, Enabled;
    var v := Apply(w, e);
    assert v.memory.deliveries == ExpireAll(w.memory.deliveries, e.at);
    assert SameIds(w.memory, v.memory) && AllBacked(v.memory, v.acknowledged);
    SameIdsStaySafe(w, v);
    KeptAcross(w, v);
  }

  lemma ArmKeepsKept(w: World, e: Event)
    requires Kept(w) && e.Arming? && Enabled(w, e) && Shape(Apply(w, e))
    ensures Kept(Apply(w, e))
  {
    hide Shape, Safe, Has;
    var v := Apply(w, e);
    assert SameIds(w.memory, v.memory) && AllBacked(v.memory, v.acknowledged);
    SameIdsStaySafe(w, v);
    KeptAcross(w, v);
  }

  lemma SettleKeepsKept(w: World, e: Event)
    requires Kept(w) && e.Settling? && Enabled(w, e) && Shape(Apply(w, e))
    ensures Kept(Apply(w, e))
  {
    hide Settle, Plain, Counted, Postponed, Shape, AllBacked;
    SettleEnds(w, e);
    if !w.phase.accepted {
      PostponedStaysBacked(w);
      SameIdsStaySafe(w, Apply(w, e));
      KeptAcross(w, Apply(w, e));
    } else {
      AcknowledgedStaysSafe(w);
      EitherCopyIsSafe(w, Apply(w, e), Plain(w), Counted(w));
    }
  }

  lemma PostponedStaysBacked(w: World)
    requires Kept(w) && w.phase.Answered?
    ensures AllBacked(Postponed(w), w.acknowledged) && SameIds(w.memory, Postponed(w))
  {
    hide Backoff;
  }

  lemma AcknowledgedStaysSafe(w: World)
    requires Kept(w) && w.phase.Answered? && w.phase.accepted
    ensures AllBacked(Plain(w), w.acknowledged) && AllBacked(Counted(w), w.acknowledged)
    ensures forall id :: id !in w.acknowledged && Has(w.memory, id) ==> Has(Plain(w), id) && Has(Counted(w), id)
  {
    hide Backoff, Compacted;
    var ds, k, at := w.memory.deliveries, w.phase.row, w.phase.at;
    CompactedRowsStaySafe(w, ds[k := Acknowledge(ds[k])]);
    CompactedRowsStaySafe(w, ds[k := Postpone(Acknowledge(ds[k]), at)]);
  }

  /** How the last step of `drain` can end. */
  lemma SettleEnds(w: World, e: Event)
    requires e.Settling? && Enabled(w, e)
    ensures var v := Apply(w, e);
      && v.phase.Idle? && v.returning.None? && v.acknowledged == w.acknowledged
      && v.posts == w.posts && v.issued == w.issued
      && (v.returned == w.returned || (w.returning.Some? && v.returned == w.returned + {w.returning.value}))
      && (!w.phase.accepted ==> v.memory == Postponed(w) && v.disk in {w.disk, Postponed(w)})
      && (w.phase.accepted ==> v.memory in {Plain(w), Counted(w)} && v.disk in {w.disk, Plain(w), Counted(w)})
  {
    hide Plain, Counted, Postponed;
  }

  lemma EitherCopyIsSafe(w: World, v: World, a: Snapshot, b: Snapshot)
    requires Kept(w) && Shape(v) && v.acknowledged == w.acknowledged && v.phase.Idle? && v.returning.None?
    requires v.memory in {a, b} && v.disk in {w.disk, a, b}
    requires AllBacked(a, w.acknowledged) && AllBacked(b, w.acknowledged)
    requires forall id :: id !in w.acknowledged && Has(w.memory, id) ==> Has(a, id) && Has(b, id)
    requires v.returned == w.returned || (w.returning.Some? && v.returned == w.returned + {w.returning.value})
    ensures Kept(v)
  {
  }

  lemma CompactedRowsStaySafe(w: World, changed: Outbox)
    requires Kept(w) && w.phase.Answered? && w.phase.accepted
    requires SameIds(w.memory, w.memory.(deliveries := changed))
    requires AllBacked(w.memory.(deliveries := changed), w.acknowledged)
    ensures AllBacked(w.memory.(deliveries := Compacted(changed, w.phase.at)), w.acknowledged)
    ensures forall id :: id !in w.acknowledged && Has(w.memory, id) ==>
      Has(w.memory.(deliveries := Compacted(changed, w.phase.at)), id)
  {
    EveryCompacted(changed, w.phase.at, (d: Delivery) => ReceiptBacked(d, w.acknowledged));
    forall id | id !in w.acknowledged && Has(w.memory, id)
      ensures Has(w.memory.(deliveries := Compacted(changed, w.phase.at)), id)
    {
      var i :| 0 <= i < |w.memory.deliveries| && w.memory.deliveries[i].deliveryId == id;
      assert changed[i].deliveryId == id;
      CompactionKeepsOpen(changed, w.phase.at, w.acknowledged, id, w.memory.overflow);
    }
  }

  lemma {:induction false} AlwaysKept(disk: Snapshot, events: seq<Event>)
    requires Loadable(disk)
    ensures Kept(Run(disk, events))
  {
    if events != [] {
      var n := |events| - 1;
      AlwaysKept(disk, events[..n]);
      if Enabled(Run(disk, events[..n]), events[n]) { StepKeepsKept(Run(disk, events[..n]), events[n]); }
    } else {
      forall i | 0 <= i < |disk.deliveries| ensures ReceiptBacked(disk.deliveries[i], AcknowledgedIn(disk.deliveries)) {
        assert disk.deliveries[i] in disk.deliveries;
      }
    }
  }

  // ----- what acknowledges a delivery -----

  /** The receiver answered a POST of this delivery with a durable receipt that names it. */
  ghost predicate ReceiptCame(posts: seq<Post>, id: string) {
    exists i :: 0 <= i < |posts| && posts[i].deliveryId == id && Receipted(posts[i].answer, id)
  }

  ghost predicate Receipted(answer: Answer, id: string) {
    match answer
    case Reply(Receipt(status, named, eventIdIsText, positionIsInt, attention)) =>
      && status == "RECORDED" && named == id && eventIdIsText && positionIsInt
      && (attention == "QUEUED" || attention == "NO_NEW_REQUEST" || attention == "NOT_ELIGIBLE")
    case _ => false
  }

  /** The ids taken for acknowledged are those of the first snapshot and those with a receipt. */
  ghost predicate AcknowledgedByReceipt(disk: Snapshot, w: World) {
    && (forall id :: id in w.acknowledged <==> id in AcknowledgedIn(disk.deliveries) || ReceiptCame(w.posts, id))
    && (forall id :: id in FiledIn(disk.deliveries) ==> id in w.issued)
    && (forall id :: id in w.returned ==> id !in FiledIn(disk.deliveries))
    && (w.returning.Some? ==> w.returning.value !in FiledIn(disk.deliveries))
  }

  lemma OneMorePost(posts: seq<Post>, p: Post, id: string)
    ensures ReceiptCame(posts + [p], id) <==>
      ReceiptCame(posts, id) || (p.deliveryId == id && Receipted(p.answer, id))
  {
    hide Receipted;
    var more := posts + [p];
    assert more[|posts|] == p;
    if ReceiptCame(posts, id) {
      var i :| 0 <= i < |posts| && posts[i].deliveryId == id && Receipted(posts[i].answer, id);
      assert more[i] == posts[i];
    }
  }

  lemma SendKeepsReceipts(disk: Snapshot, w: World, answer: Answer)
    requires AcknowledgedByReceipt(disk, w) && w.phase.Armed? && w.phase.row < |w.memory.deliveries|
    ensures AcknowledgedByReceipt(disk, Send(w, answer))
  {
    hide ReceiptCame;
    var d := w.memory.deliveries[w.phase.row];
    assert ValidReceipt(answer, d.deliveryId) <==> Receipted(answer, d.deliveryId);
    forall id ensures ReceiptCame(Send(w, answer).posts, id) <==>
      ReceiptCame(w.posts, id) || (id == d.deliveryId && Receipted(answer, id))
    {
      OneMorePost(w.posts, Post(d.deliveryId, d.report, answer), id);
    }
  }

  lemma StepKeepsReceipts(disk: Snapshot, w: World, e: Event)
    requires AcknowledgedByReceipt(disk, w) && Enabled(w, e)
    ensures AcknowledgedByReceipt(disk, Apply(w, e))
  {
    hide ReceiptCame, Compacted, ExpireAll, FirstDue, Send, Plain, Counted, Postponed, AcknowledgedIn, FiledIn;
    match e
    case Sending(answer) => SendKeepsReceipts(disk, w, answer);
    case Settling(_, _, _, _) => SettleEnds(w, e);
    case _ =>
  }

  lemma {:induction false} AlwaysByReceipt(disk: Snapshot, events: seq<Event>)
    ensures AcknowledgedByReceipt(disk, Run(disk, events))
  {
    hide Apply, AcknowledgedIn, FiledIn;
    if events != [] {
      var n := |events| - 1;
      AlwaysByReceipt(disk, events[..n]);
      if Enabled(Run(disk, events[..n]), events[n]) { StepKeepsReceipts(disk, Run(disk, events[..n]), events[n]); }
    }
  }

  lemma AcknowledgedWasFiled(ds: Outbox, id: string)
    requires id in AcknowledgedIn(ds)
    ensures id in FiledIn(ds)
  {
  }

  /**
   Whatever crashes, a delivery whose `receive` returned its id is still in the outbox, in memory
   and on disk, or a POST of it was answered with a receipt that named it.
   */
  lemma NothingReturnedIsLost(disk: Snapshot, events: seq<Event>, id: string)
    requires Loadable(disk) && id in Run(disk, events).returned
    ensures
      || ReceiptCame(Run(disk, events).posts, id)
      || (Has(Run(disk, events).memory, id) && Has(Run(disk, events).disk, id))
  {
    hide Run, ReceiptCame, Has, Shape, AllBacked, AcknowledgedIn, FiledIn;
    AlwaysKept(disk, events);
    AlwaysByReceipt(disk, events);
    assert Safe(Run(disk, events), id);
    if id in AcknowledgedIn(disk.deliveries) { AcknowledgedWasFiled(disk.deliveries, id); }
  }
}
