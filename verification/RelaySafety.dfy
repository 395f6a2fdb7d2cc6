/** What the outbox may say about a delivery, over every run and every crash. */
module RelaySafety {
  import opened Options
  import opened Timing
  import opened Uuids
  import opened VendorReports
  import opened RelayOutbox
  import opened RelayRuns

  ghost predicate Posted(posts: seq<Post>, id: string) {
    exists i :: 0 <= i < |posts| && posts[i].deliveryId == id
  }

  ghost predicate DistinctIds(ds: Outbox) {
    forall i, j :: 0 <= i < j < |ds| ==> ds[i].deliveryId != ds[j].deliveryId
  }

  /**
   A delivery that was ever posted is marked as attempted and never called clearly unsent; a
   pending one still carries the report it was filed with.
   */
  ghost predicate Truthful(d: Delivery, w: World) {
    && d.deliveryId in w.issued
    && (d.state.Pending? ==> d.report == w.issued[d.deliveryId])
    && (Posted(w.posts, d.deliveryId) ==> d.transportAttempted && !d.state.Escalated?)
  }

  ghost predicate AllTruthful(s: Snapshot, w: World) {
    DistinctIds(s.deliveries) && forall i :: 0 <= i < |s.deliveries| ==> Truthful(s.deliveries[i], w)
  }

  ghost predicate FiledPost(p: Post, w: World) {
    p.deliveryId in w.issued && p.report == w.issued[p.deliveryId] && p.report.Some?
  }

  ghost predicate Honest(w: World) {
    && Shape(w)
    && AllTruthful(w.memory, w) && AllTruthful(w.disk, w)
    && (forall i :: 0 <= i < |w.posts| ==> FiledPost(w.posts[i], w))
    && (w.phase.Armed? || w.phase.Answered? ==>
          w.disk == w.memory && w.memory.deliveries[w.phase.row].transportAttempted)
  }

  lemma {:induction false} FilterKeepsDistinct(f: Delivery -> bool, ds: Outbox)
    requires DistinctIds(ds)
    ensures DistinctIds(Filter(f, ds))
  {
    if ds != [] {
      FilterKeepsDistinct(f, ds[1..]);
      var rest := Filter(f, ds[1..]);
      forall j | 0 <= j < |rest| ensures rest[j].deliveryId != ds[0].deliveryId {
        assert rest[j] in ds[1..];
      }
    }
  }

  lemma CompactedKeepsDistinct(ds: Outbox, at: int)
    requires DistinctIds(ds)
    ensures DistinctIds(Compacted(ds, at))
  {
    var open, receipts := Filter(Unacknowledged, ds), RecentReceipts(ds, at);
    var recent := (d: Delivery) => d.state.Acknowledged? && d.created >= at - 86400 * SECOND;
    FilterKeepsDistinct(Unacknowledged, ds);
    FilterKeepsDistinct(recent, ds);
    forall i, j | 0 <= i < |open| && 0 <= j < |receipts| ensures open[i].deliveryId != receipts[j].deliveryId {
      assert open[i] in open && receipts[j] in Filter(recent, ds);
      var a :| 0 <= a < |ds| && ds[a] == open[i];
      var b :| 0 <= b < |ds| && ds[b] == receipts[j];
    }
  }

  lemma CompactedStaysTruthful(ds: Outbox, at: int, overflow: nat, w: World)
    requires AllTruthful(Snapshot(ds, overflow), w)
    ensures AllTruthful(Snapshot(Compacted(ds, at), overflow), w)
  {
    CompactedKeepsDistinct(ds, at);
    EveryCompacted(ds, at, (d: Delivery) => Truthful(d, w));
  }

  lemma StepKeepsHonest(w: World, e: Event)
    requires Honest(w) && Enabled(w, e)
    ensures Honest(Apply(w, e))
  {
    StepKeepsShape(w, e);
    match e
    case Arriving(_, _, _, _, _) => ArriveKeepsHonest(w, e);
    case Sweeping(_, _, _) => SweepKeepsHonest(w, e);
    case Arming(_, _) => ArmKeepsHonest(w, e);
    case Sending(_) => SendKeepsHonest(w, e);
    case Settling(_, _, _, _) => SettleKeepsHonest(w, e);
    case Tick =>
    case Crashing =>
  }

  lemma ArriveKeepsHonest(w: World, e: Event)
    requires Honest(w) && e.Arriving? && Enabled(w, e) && Shape(Apply(w, e))
    ensures Honest(Apply(w, e))
  {
    hide Shape, Compacted, Filter, DistinctIds, Truthful, Storable;
    var v := Apply(w, e);
    CompactedStaysTruthful(w.memory.deliveries, e.arrivedAt, w.memory.overflow, w);
    var compacted := Compacted(w.memory.deliveries, e.arrivedAt);
    if v.issued == w.issued {
      SameHistory(w, v, Snapshot(compacted, w.memory.overflow));
      SameHistory(w, v, w.disk);
    } else {
      AppendedIsTruthful(w, v, compacted, NewDelivery(e.id, e.package, e.report, e.arrivedAt));
      OldStaysTruthful(w, v, w.disk);
    }
    forall i | 0 <= i < |v.posts| ensures FiledPost(v.posts[i], v) { assert FiledPost(w.posts[i], w); }
  }

  lemma OldStaysTruthful(w: World, v: World, s: Snapshot)
    requires AllTruthful(s, w) && v.posts == w.posts
    requires forall id :: id in w.issued ==> id in v.issued && v.issued[id] == w.issued[id]
    ensures AllTruthful(s, v)
  {
  }

  lemma AppendedIsTruthful(w: World, v: World, ds: Outbox, d: Delivery)
    requires AllTruthful(Snapshot(ds, 0), w) && v.posts == w.posts
    requires forall i :: 0 <= i < |w.posts| ==> FiledPost(w.posts[i], w)
    requires d.deliveryId !in w.issued && v.issued == w.issued[d.deliveryId := d.report]
    ensures AllTruthful(Snapshot(ds + [d], 0), v)
  {
  }

  lemma ExpiredStaysTruthful(s: Snapshot, w: World, at: int)
    requires AllTruthful(s, w)
    ensures AllTruthful(s.(deliveries := ExpireAll(s.deliveries, at)), w)
  {
  }

  lemma SweepKeepsHonest(w: World, e: Event)
    requires Honest(w) && e.Sweeping? && Enabled(w, e) && Shape(Apply(w, e))
    ensures Honest(Apply(w, e))
  {
    hide Shape, ExpireAll, FirstDue, AllTruthful;
    var v := Apply(w, e);
    ExpiredStaysTruthful(w.memory, w, e.at);
    SameHistory(w, v, w.memory.(deliveries := ExpireAll(w.memory.deliveries, e.at)));
    SameHistory(w, v, w.disk);
    forall i | 0 <= i < |v.posts| ensures FiledPost(v.posts[i], v) { assert FiledPost(w.posts[i], w); }
  }

  lemma ArmKeepsHonest(w: World, e: Event)
    requires Honest(w) && e.Arming? && Enabled(w, e) && Shape(Apply(w, e))
    ensures Honest(Apply(w, e))
  {
    hide Shape, Posted;
    var v := Apply(w, e);
    SameHistory(w, v, w.disk);
    forall i | 0 <= i < |w.memory.deliveries| ensures Truthful(v.memory.deliveries[i], v) {
      assert Truthful(w.memory.deliveries[i], w);
    }
    assert AllTruthful(v.memory, v);
    forall i | 0 <= i < |v.posts| ensures FiledPost(v.posts[i], v) { assert FiledPost(w.posts[i], w); }
  }

  lemma SendKeepsHonest(w: World, e: Event)
    requires Honest(w) && e.Sending? && Enabled(w, e) && Shape(Apply(w, e))
    ensures Honest(Apply(w, e))
  {
    hide ValidReceipt;
    var v, sent := Apply(w, e), w.memory.deliveries[w.phase.row].deliveryId;
    assert forall id :: Posted(v.posts, id) ==> Posted(w.posts, id) || id == sent;
    MarkedRowStaysTruthful(w, v, w.memory, w.phase.row, sent);
    forall i | 0 <= i < |w.posts| ensures FiledPost(v.posts[i], v) { assert FiledPost(w.posts[i], w); }
  }

  /** One more post of a row that is marked as attempted. */
  lemma MarkedRowStaysTruthful(w: World, v: World, s: Snapshot, k: nat, sent: string)
    requires AllTruthful(s, w) && v.issued == w.issued
    requires forall id :: Posted(v.posts, id) ==> Posted(w.posts, id) || id == sent
    requires k < |s.deliveries| && s.deliveries[k].deliveryId == sent
    requires s.deliveries[k].transportAttempted && s.deliveries[k].state.Pending?
    ensures AllTruthful(s, v)
  {
    hide Posted;
  }

  lemma SettleKeepsHonest(w: World, e: Event)
    requires Honest(w) && e.Settling? && Enabled(w, e) && Shape(Apply(w, e))
    ensures Honest(Apply(w, e))
  {
    hide Settle, Plain, Counted, Postponed, Shape, AllTruthful;
    var v := Apply(w, e);
    SettleEnds(w, e);
    SettledStaysTruthful(w);
    SameHistory(w, v, v.memory);
    SameHistory(w, v, v.disk);
    forall i | 0 <= i < |v.posts| ensures FiledPost(v.posts[i], v) { assert FiledPost(w.posts[i], w); }
  }

  lemma SettledStaysTruthful(w: World)
    requires Honest(w) && w.phase.Answered?
    ensures AllTruthful(Plain(w), w) && AllTruthful(Counted(w), w) && AllTruthful(Postponed(w), w)
  {
    hide Compacted, Backoff;
    var ds, k, at := w.memory.deliveries, w.phase.row, w.phase.at;
    assert Truthful(ds[k], w);
    RowStaysTruthful(w, Acknowledge(ds[k]));
    RowStaysTruthful(w, Postpone(Acknowledge(ds[k]), at));
    RowStaysTruthful(w, Postpone(ds[k], at));
    CompactedStaysTruthful(ds[k := Acknowledge(ds[k])], at, w.memory.overflow, w);
    CompactedStaysTruthful(ds[k := Postpone(Acknowledge(ds[k]), at)], at, w.memory.overflow, w);
  }

  lemma RowStaysTruthful(w: World, d: Delivery)
    requires Honest(w) && w.phase.Answered?
    requires d.deliveryId == w.memory.deliveries[w.phase.row].deliveryId && Truthful(d, w)
    ensures AllTruthful(w.memory.(deliveries := w.memory.deliveries[w.phase.row := d]), w)
  {
  }

  lemma SameHistory(w: World, v: World, s: Snapshot)
    requires AllTruthful(s, w) && v.posts == w.posts && v.issued == w.issued
    ensures AllTruthful(s, v)
  {
  }

  lemma {:induction false} FiledInMatches(ds: Outbox, i: nat)
    requires DistinctIds(ds) && i < |ds|
    ensures ds[i].deliveryId in FiledIn(ds) && FiledIn(ds)[ds[i].deliveryId] == ds[i].report
  {
    if i > 0 { FiledInMatches(ds[1..], i - 1); }
  }

  lemma {:induction false} AlwaysHonest(disk: Snapshot, events: seq<Event>)
    requires Loadable(disk) && DistinctIds(disk.deliveries)
    ensures Honest(Run(disk, events))
  {
    if events == [] {
      forall i | 0 <= i < |disk.deliveries| ensures Truthful(disk.deliveries[i], Boot(disk)) {
        FiledInMatches(disk.deliveries, i);
      }
    } else {
      var n := |events| - 1;
      AlwaysHonest(disk, events[..n]);
      if Enabled(Run(disk, events[..n]), events[n]) { StepKeepsHonest(Run(disk, events[..n]), events[n]); }
    }
  }

  /**
   Write-ahead safety: a delivery that was ever posted is marked on disk, and neither memory nor
   disk ever calls it clearly unsent. Its expiry makes it UNKNOWN.
   */
  lemma PostedIsNeverEscalated(disk: Snapshot, events: seq<Event>, s: Snapshot, i: nat)
    requires Loadable(disk) && DistinctIds(disk.deliveries)
    requires s in {Run(disk, events).memory, Run(disk, events).disk} && i < |s.deliveries|
    requires Posted(Run(disk, events).posts, s.deliveries[i].deliveryId)
    ensures s.deliveries[i].transportAttempted && !s.deliveries[i].state.Escalated?
    ensures forall at :: !Expire(s.deliveries[i], at).state.Escalated?
  {
    AlwaysHonest(disk, events);
    assert Truthful(s.deliveries[i], Run(disk, events));
  }

  /**
   Sweeping relabels exactly what is pending for more than an hour: what was never attempted is
   escalated, what may have been sent becomes unknown, and nothing pending is left that old.
   */
  lemma SweepRelabelsExactly(w: World, at: int, write: Write, reported: bool, i: nat)
    requires i < |w.memory.deliveries|
    ensures var d := w.memory.deliveries[i];
      var after := Sweep(w, at, write, reported).memory.deliveries;
      var expired := d.state.Pending? && at - d.created > 3600 * SECOND;
      && |after| == |w.memory.deliveries|
      && after[i].(state := d.state, report := d.report) == d
      && (!expired ==> after[i] == d)
      && (expired ==> after[i].state == (if d.transportAttempted then Unknown else Escalated) && after[i].report.None?)
  {
  }

  /** Every resend of a delivery, across failures and crashes, carries the same report. */
  lemma ResendsAreIdentical(disk: Snapshot, events: seq<Event>, i: nat, j: nat)
    requires Loadable(disk) && DistinctIds(disk.deliveries)
    requires i < |Run(disk, events).posts| && j < |Run(disk, events).posts|
    requires Run(disk, events).posts[i].deliveryId == Run(disk, events).posts[j].deliveryId
    ensures Run(disk, events).posts[i].report == Run(disk, events).posts[j].report
    ensures Run(disk, events).posts[i].report.Some?
  {
    AlwaysHonest(disk, events);
    assert FiledPost(Run(disk, events).posts[i], Run(disk, events))
      && FiledPost(Run(disk, events).posts[j], Run(disk, events));
  }

  // ----- what an answer does -----

  /**
   What becomes of a delivery once its POST was answered: with a durable receipt that names it, it is
   acknowledged and its report dropped; with anything else it stays pending, one more attempt is
   counted, and the next one waits. An error that is not handled leaves everything as it was.
   */
  lemma AnswerDecidesExactly(w: World, answer: Answer, e: Event)
    requires w.phase.Armed? && w.phase.row < |w.memory.deliveries| && DistinctIds(w.memory.deliveries)
    requires w.memory.deliveries[w.phase.row].state.Pending? && e.Settling?
    ensures var (d, sent) := (w.memory.deliveries[w.phase.row], Send(w, answer));
      && sent.memory == w.memory && (sent.phase.Answered? <==> !answer.Escaped?)
      && (!answer.Escaped? ==>
            var after := Apply(sent, e).memory.deliveries;
            && (Receipted(answer, d.deliveryId) ==>
                  forall x :: x in after && x.deliveryId == d.deliveryId ==> x.state.Acknowledged? && x.report.None?)
            && (!Receipted(answer, d.deliveryId) ==>
                  && |after| == |w.memory.deliveries|
                  && after[w.phase.row] == d.(attempts := d.attempts + 1, due := after[w.phase.row].due)
                  && w.phase.at + 2 * SECOND <= after[w.phase.row].due <= w.phase.at + 300 * SECOND
                  && forall i :: 0 <= i < |after| && i != w.phase.row ==> after[i] == w.memory.deliveries[i]))
  {
    hide Settle, Plain, Counted, Postponed;
    var sent := Send(w, answer);
    if sent.phase.Answered? {
      SettleEnds(sent, e);
      SettledRow(sent);
    }
  }

  lemma SettledRow(w: World)
    requires w.phase.Answered? && w.phase.row < |w.memory.deliveries| && DistinctIds(w.memory.deliveries)
    requires w.memory.deliveries[w.phase.row].state.Pending?
    ensures var d := w.memory.deliveries[w.phase.row];
      && (forall x :: x in Plain(w).deliveries + Counted(w).deliveries && x.deliveryId == d.deliveryId ==>
            x.state.Acknowledged? && x.report.None?)
      && var after := Postponed(w).deliveries;
      && |after| == |w.memory.deliveries|
      && after[w.phase.row] == d.(attempts := d.attempts + 1, due := after[w.phase.row].due)
      && w.phase.at + 2 * SECOND <= after[w.phase.row].due <= w.phase.at + 300 * SECOND
      && forall i :: 0 <= i < |after| && i != w.phase.row ==> after[i] == w.memory.deliveries[i]
  {
    hide Compacted, Backoff;
    var ds, k, at := w.memory.deliveries, w.phase.row, w.phase.at;
    BackoffIsBounded(ds[k].attempts + 1, 300, 9);
    CompactedFromOutbox(ds[k := Acknowledge(ds[k])], at);
    CompactedFromOutbox(ds[k := Postpone(Acknowledge(ds[k]), at)], at);
  }

  // ----- number of recorded attempts -----

  /** Whoever waited through `attempts` delays is due no earlier than their sum allows. */
  ghost predicate Paced(d: Delivery) {
    d.attempts <= 19 && (d.state.Pending? ==> d.due >= d.created + Waited(d.attempts, 300, 9) * SECOND)
  }

  ghost predicate PacedWorld(w: World) {
    && Shape(w)
    && Every(w.memory.deliveries, Paced) && Every(w.disk.deliveries, Paced)
    && (w.phase.Chosen? || w.phase.Armed? || w.phase.Answered? ==>
          var d := w.memory.deliveries[w.phase.row];
          d.due <= w.phase.at <= d.created + 3600 * SECOND)
  }

  /** A delivery that is due and not expired has been tried at most 18 times before. */
  lemma PostponedIsPaced(d: Delivery, at: int)
    requires Paced(d) && d.state.Pending? && d.due <= at <= d.created + 3600 * SECOND
    ensures d.attempts <= 18 && Paced(Postpone(d, at)) && Paced(Postpone(Acknowledge(d), at))
  {
    RelayTriesBounded(d.attempts);
  }

  lemma StepKeepsPace(w: World, e: Event)
    requires PacedWorld(w) && Enabled(w, e)
    ensures PacedWorld(Apply(w, e))
  {
    hide Shape, Settle, Sweep, Arrive, Arm, Paced;
    StepKeepsShape(w, e);
    match e
    case Arriving(_, _, _, _, _) => ArriveKeepsPace(w, e);
    case Sweeping(_, _, _) => SweepKeepsPace(w, e);
    case Arming(_, _) => ArmKeepsPace(w, e);
    case Sending(_) =>
    case Settling(_, _, _, _) => SettleKeepsPace(w, e);
    case Tick =>
    case Crashing =>
  }

  lemma ArriveKeepsPace(w: World, e: Event)
    requires PacedWorld(w) && e.Arriving? && Enabled(w, e) && Shape(Apply(w, e))
    ensures PacedWorld(Apply(w, e))
  {
    hide Arrive, Compacted, Shape;
    ArriveEnds(w, e);
    EveryCompacted(w.memory.deliveries, e.arrivedAt, Paced);
  }

  lemma ArmKeepsPace(w: World, e: Event)
    requires PacedWorld(w) && e.Arming? && Enabled(w, e) && Shape(Apply(w, e))
    ensures PacedWorld(Apply(w, e))
  {
    hide Loadable;
    var ds, k := w.memory.deliveries, w.phase.row;
    assert Paced(ds[k]) && Paced(ds[k].(transportAttempted := true));
  }

  lemma SweepKeepsPace(w: World, e: Event)
    requires PacedWorld(w) && e.Sweeping? && Enabled(w, e) && Shape(Apply(w, e))
    ensures PacedWorld(Apply(w, e))
  {
    hide Loadable, FirstDue, ExpireAll;
    forall i | 0 <= i < |w.memory.deliveries| ensures Paced(ExpireAll(w.memory.deliveries, e.at)[i]) {
      assert Paced(w.memory.deliveries[i]);
    }
  }

  lemma SettleKeepsPace(w: World, e: Event)
    requires PacedWorld(w) && e.Settling? && Enabled(w, e) && Shape(Apply(w, e))
    ensures PacedWorld(Apply(w, e))
  {
    hide Settle, Plain, Counted, Postponed, Shape;
    SettleEnds(w, e);
    SettledStaysPaced(w);
  }

  lemma SettledStaysPaced(w: World)
    requires PacedWorld(w) && w.phase.Answered?
    ensures Every(Plain(w).deliveries, Paced)
    ensures Every(Counted(w).deliveries, Paced)
    ensures Every(Postponed(w).deliveries, Paced)
  {
    hide Compacted, Backoff, Loadable;
    var ds, k, at := w.memory.deliveries, w.phase.row, w.phase.at;
    assert Paced(ds[k]);
    PostponedIsPaced(ds[k], at);
    var acked, counted := ds[k := Acknowledge(ds[k])], ds[k := Postpone(Acknowledge(ds[k]), at)];
    assert Every(acked, Paced) && Every(counted, Paced);
    EveryCompacted(acked, at, Paced);
    EveryCompacted(counted, at, Paced);
  }

  /**
   No delivery ever records more than 19 attempts, whatever the clock does and however often a
   crash forgets one.
   */
  lemma {:induction false} AtMostNineteenAttempts(disk: Snapshot, events: seq<Event>)
    requires Loadable(disk) && Every(disk.deliveries, Paced)
    ensures PacedWorld(Run(disk, events))
    ensures forall i :: 0 <= i < |Run(disk, events).memory.deliveries| ==>
      Run(disk, events).memory.deliveries[i].attempts <= 19
    ensures forall i :: 0 <= i < |Run(disk, events).disk.deliveries| ==>
      Run(disk, events).disk.deliveries[i].attempts <= 19
  {
    if events != [] {
      var n := |events| - 1;
      AtMostNineteenAttempts(disk, events[..n]);
      if Enabled(Run(disk, events[..n]), events[n]) { StepKeepsPace(Run(disk, events[..n]), events[n]); }
    }
    var w := Run(disk, events);
    forall i | 0 <= i < |w.memory.deliveries| ensures w.memory.deliveries[i].attempts <= 19 {
      assert Paced(w.memory.deliveries[i]);
    }
    forall i | 0 <= i < |w.disk.deliveries| ensures w.disk.deliveries[i].attempts <= 19 {
      assert Paced(w.disk.deliveries[i]);
    }
  }

  // ----- nineteen attempts can happen -----

  /** The only delivery, after `n` failed attempts that each came as soon as it was due. */
  function Tried(id: string, report: Report, n: nat): Delivery {
    Delivery(id, report.package, Some(report), 0, Waited(n, 300, 9) * SECOND, n, Pending, n > 0)
  }

  function Attempt(n: nat): seq<Event> {
    [Tick, Sweeping(Waited(n, 300, 9) * SECOND, Synced, true), Arming(true, Synced), Sending(Caught),
     Settling(Synced, true, Synced, true)]
  }

  function Attempts(id: string, report: Report, n: nat): seq<Event> {
    if n == 0 then [Arriving(id, report.package, report, 0, Synced)]
    else Attempts(id, report, n - 1) + Attempt(n - 1)
  }

  lemma RunOneMore(disk: Snapshot, events: seq<Event>, e: Event)
    ensures Run(disk, events + [e]) == Step(Run(disk, events), e)
  {
    assert (events + [e])[..|events + [e]| - 1] == events;
  }

  lemma {:induction false} RunOn(disk: Snapshot, events: seq<Event>, more: seq<Event>)
    ensures Run(disk, events + more) == StepAll(Run(disk, events), more)
    decreases |more|
  {
    if more == [] {
      assert events + more == events;
    } else {
      RunOneMore(disk, events, more[0]);
      RunOn(disk, events + [more[0]], more[1..]);
      assert events + more == events + [more[0]] + more[1..];
    }
  }

  function StepAll(w: World, more: seq<Event>): World
    decreases |more|
  {
    if more == [] then w else StepAll(Step(w, more[0]), more[1..])
  }

  /** The outbox holds one delivery, on disk as in memory. */
  function With(w: World, d: Delivery, phase: Phase): World {
    w.(memory := Snapshot([d], 0), disk := Snapshot([d], 0), phase := phase)
  }

  lemma SweepChoosesTheOnly(w: World, id: string, report: Report, n: nat)
    requires n <= 18 && w.phase.Draining? && w.memory == Snapshot([Tried(id, report, n)], 0)
    ensures var at := Waited(n, 300, 9) * SECOND;
      Step(w, Sweeping(at, Synced, true)) == With(w, Tried(id, report, n), Chosen(0, at))
  {
    hide Backoff;
    var d, at := Tried(id, report, n), Waited(n, 300, 9) * SECOND;
    RelayTriesBounded(n);
    assert ExpireAll([d], at) == [d];
  }

  lemma ArmSendFail(w: World, d: Delivery, at: int)
    requires w.phase == Chosen(0, at) && w.memory.deliveries == [d]
    ensures var v := Step(Step(w, Arming(true, Synced)), Sending(Caught));
      v.phase == Answered(0, at, false) && v.memory == w.memory.(deliveries := [d.(transportAttempted := true)])
  {
    assert [d][0 := d.(transportAttempted := true)] == [d.(transportAttempted := true)];
  }

  lemma SettleFails(w: World, id: string, report: Report, n: nat)
    requires w.phase == Answered(0, Waited(n, 300, 9) * SECOND, false)
    requires w.memory == Snapshot([Tried(id, report, n).(transportAttempted := true)], 0)
    ensures var v := Step(w, Settling(Synced, true, Synced, true));
      v.memory == v.disk == Snapshot([Tried(id, report, n + 1)], 0) && v.phase.Idle?
  {
    hide Backoff;
    var marked := Tried(id, report, n).(transportAttempted := true);
    assert Postpone(marked, w.phase.at) == Tried(id, report, n + 1);
    assert Postponed(w).deliveries == [Tried(id, report, n + 1)];
  }

  /** One failed attempt in a row of them. */
  lemma AttemptFails(w: World, id: string, report: Report, n: nat)
    requires n <= 18
    requires w.memory == Snapshot([Tried(id, report, n)], 0)
    requires if n == 0 then w.phase.Draining? else w.phase.Idle?
    ensures var v := StepAll(w, Attempt(n));
      v.memory == v.disk == Snapshot([Tried(id, report, n + 1)], 0) && v.phase.Idle?
  {
    hide Arm, Send, Settle, Sweep, Tried, Waited, Backoff;
    var a := Attempt(n);
    var w1 := Step(w, a[0]);
    assert w1.phase.Draining? && w1.memory == w.memory;
    SweepChoosesTheOnly(w1, id, report, n);
    var w2 := Step(w1, a[1]);
    ArmSendFail(w2, Tried(id, report, n), w2.phase.at);
    var w4 := Step(Step(w2, a[2]), a[3]);
    SettleFails(w4, id, report, n);
    FiveSteps(w, a);
  }

  lemma FiveSteps(w: World, a: seq<Event>)
    requires |a| == 5
    ensures StepAll(w, a) == Step(Step(Step(Step(Step(w, a[0]), a[1]), a[2]), a[3]), a[4])
  {
    hide Step;
    var v := Step(Step(w, a[0]), a[1]);
    assert a[1..][1..] == a[2..] && StepAll(w, a) == StepAll(v, a[2..]);
    var u := Step(Step(v, a[2]), a[3]);
    assert a[2..][1..][1..] == a[4..] && StepAll(v, a[2..]) == StepAll(u, a[4..]);
    assert a[4..][1..] == [] && StepAll(u, a[4..]) == StepAll(Step(u, a[4]), []);
  }

  lemma FirstArrives(id: string, report: Report)
    requires Canonical(id) && AllowedPackage(report.package) && Storable(report, report.package, id)
    ensures var w := Run(Snapshot([], 0), Attempts(id, report, 0));
      && w.memory == Snapshot([Tried(id, report, 0)], 0) && w.phase.Draining?
      && w.returning == Some(id) && w.posts == []
  {
    hide Canonical, Storable, AllowedPackage, Arrive;
    var empty, e := Snapshot([], 0), Arriving(id, report.package, report, 0, Synced);
    EmptyRun(empty);
    RunOneMore(empty, [], e);
    assert [] + [e] == Attempts(id, report, 0);
    ArrivesInEmpty(Boot(empty), id, report);
  }

  lemma EmptyRun(disk: Snapshot)
    ensures Run(disk, []) == Boot(disk)
  {
  }

  lemma ArrivesInEmpty(w: World, id: string, report: Report)
    requires w.memory == Snapshot([], 0)
    ensures var v := Arrive(w, id, report.package, report, 0, Synced);
      && v.memory == Snapshot([Tried(id, report, 0)], 0) && v.phase.Draining?
      && v.returning == Some(id) && v.posts == w.posts
  {
    hide RecentReceipts, LastOf;
    NothingToCompact(0);
    assert [] + [NewDelivery(id, report.package, report, 0)] == [Tried(id, report, 0)];
  }

  lemma NothingToCompact(at: int)
    ensures Compacted([], at) == [] && Filter(Unacknowledged, []) == []
  {
  }

  lemma {:induction false} AttemptsFail(id: string, report: Report, n: nat)
    requires n <= 19 && Canonical(id) && AllowedPackage(report.package) && Storable(report, report.package, id)
    ensures var w := Run(Snapshot([], 0), Attempts(id, report, n));
      && w.memory == Snapshot([Tried(id, report, n)], 0)
      && (if n == 0 then w.phase.Draining? else w.phase.Idle? && w.disk == w.memory)
  {
    hide Run, StepAll, Step, Attempt, Tried, Canonical, Storable, AllowedPackage;
    var empty := Snapshot([], 0);
    if n == 0 {
      FirstArrives(id, report);
    } else {
      AttemptsFail(id, report, n - 1);
      RunOn(empty, Attempts(id, report, n - 1), Attempt(n - 1));
      AttemptFails(Run(empty, Attempts(id, report, n - 1)), id, report, n - 1);
    }
  }

  /** The bound is reached: any storable report can be tried 19 times in one run. */
  lemma NineteenAttemptsCanHappen(id: string, report: Report)
    requires Canonical(id) && AllowedPackage(report.package) && Storable(report, report.package, id)
    ensures var w := Run(Snapshot([], 0), Attempts(id, report, 19));
      |w.disk.deliveries| == 1 && w.disk == w.memory && w.disk.deliveries[0].attempts == 19
  {
    AttemptsFail(id, report, 19);
  }

  // ----- an acknowledgement can happen -----

  function Acknowledging(id: string, report: Report): seq<Event> {
    [Arriving(id, report.package, report, 0, Synced), Sweeping(0, Synced, true), Arming(true, Synced),
     Sending(Reply(Receipt("RECORDED", id, true, true, "QUEUED"))), Settling(Synced, true, Synced, true)]
  }

  lemma FirstIsSent(w: World, id: string, report: Report)
    requires w.phase.Draining? && w.memory == Snapshot([Tried(id, report, 0)], 0)
    ensures var marked := Tried(id, report, 0).(transportAttempted := true);
      var receipt := Receipt("RECORDED", id, true, true, "QUEUED");
      var v := Step(Step(Step(w, Sweeping(0, Synced, true)), Arming(true, Synced)), Sending(Reply(receipt)));
      && v.phase == Answered(0, 0, true) && v.memory == Snapshot([marked], 0)
      && v.posts == w.posts + [Post(id, Some(report), Reply(receipt))] && v.returning == w.returning
  {
    hide Backoff;
    SweepChoosesTheOnly(w, id, report, 0);
    var d := Tried(id, report, 0);
    assert [d][0 := d.(transportAttempted := true)] == [d.(transportAttempted := true)];
  }

  /** Any storable report can be taken, sent and acknowledged in one call. */
  lemma DeliveryCanBeAcknowledged(id: string, report: Report)
    requires Canonical(id) && AllowedPackage(report.package) && Storable(report, report.package, id)
    ensures var w := Run(Snapshot([], 0), Acknowledging(id, report));
      && |w.disk.deliveries| == 1 && w.disk == w.memory && w.phase.Idle?
      && w.disk.deliveries[0].deliveryId == id && w.disk.deliveries[0].state.Acknowledged?
      && w.disk.deliveries[0].report.None?
      && id in w.returned && ReceiptCame(w.posts, id)
  {
    hide Canonical, Storable, AllowedPackage, Run, Sweep, Arm, Send, Settle, Arrive;
    var empty, a := Snapshot([], 0), Acknowledging(id, report);
    FirstArrives(id, report);
    assert a[..1] == Attempts(id, report, 0) && a[..1] + a[1..] == a;
    var w := Run(empty, a[..1]);
    RunOn(empty, a[..1], a[1..]);
    FirstIsSent(w, id, report);
    var v := Step(Step(Step(w, a[1]), a[2]), a[3]);
    FourSteps(w, a[1..]);
    OnlyIsAcknowledged(v, id, report);
  }

  lemma FourSteps(w: World, a: seq<Event>)
    requires |a| == 4
    ensures StepAll(w, a) == Step(Step(Step(Step(w, a[0]), a[1]), a[2]), a[3])
  {
    hide Step;
    var v := Step(Step(w, a[0]), a[1]);
    assert a[1..][1..] == a[2..] && StepAll(w, a) == StepAll(v, a[2..]);
    assert a[2..][1..] == a[3..] && StepAll(v, a[2..]) == StepAll(Step(v, a[2]), a[3..]);
    assert a[3..][1..] == [] && StepAll(Step(v, a[2]), a[3..]) == StepAll(Step(Step(v, a[2]), a[3]), []);
  }

  lemma OnlyIsAcknowledged(w: World, id: string, report: Report)
    requires w.phase == Answered(0, 0, true) && w.returning == Some(id)
    requires w.memory == Snapshot([Tried(id, report, 0).(transportAttempted := true)], 0)
    requires |w.posts| == 1 && w.posts[0].deliveryId == id && Receipted(w.posts[0].answer, id)
    ensures var v := Step(w, Settling(Synced, true, Synced, true));
      && v.memory == v.disk && |v.disk.deliveries| == 1 && v.phase.Idle? && id in v.returned
      && v.disk.deliveries[0].deliveryId == id && v.disk.deliveries[0].state.Acknowledged?
      && v.disk.deliveries[0].report.None? && ReceiptCame(v.posts, id)
  {
    hide Receipted;
    var d := w.memory.deliveries[0];
    var acked := Acknowledge(d);
    assert [d][0 := acked] == [acked];
    var recent := (x: Delivery) => x.state.Acknowledged? && x.created >= 0 - 86400 * SECOND;
    assert Filter(Unacknowledged, [acked]) == [] && Filter(recent, [acked]) == [acked];
    assert Compacted([acked], 0) == [acked];
  }
}
