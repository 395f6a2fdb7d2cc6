/** The relay object between its calls: every state it reaches is that of a run over its disk. */
module RelayService {
  import opened Options
  import opened Uuids
  import opened VendorReports
  import opened RelayOutbox
  import opened RelayRuns
  import opened RelaySafety

  class Relay {
    const rules: seq<Rule>
    var outbox: Outbox
    var overflowCount: nat
    var disk: Snapshot
    var nextId: nat
    var notifications: set<nat>
    ghost const initial: Snapshot
    ghost var events: seq<Event>
    ghost var world: World

    /** The fields are those of the run, wherever in a call. */
    ghost predicate Consistent()
      reads this
    {
      && (forall r :: r in rules ==> ValidRule(r))
      && Loadable(initial)
      && world == Run(initial, events)
      && world.memory == Snapshot(outbox, overflowCount)
      && world.disk == disk
    }

    ghost predicate Valid()
      reads this
    {
      Consistent() && world.phase.Idle? && forall n :: n in notifications ==> n < nextId
    }

    constructor (rules: seq<Rule>, disk: Snapshot)
      requires Loadable(disk) && forall r :: r in rules ==> ValidRule(r)
      ensures Valid()
      ensures this.rules == rules && this.disk == disk && initial == disk && events == [] && notifications == {}
    {
      this.rules := rules;
      this.disk := disk;
      outbox, overflowCount := disk.deliveries, disk.overflow;
      nextId, notifications := 1, {};
      initial, events, world := disk, [], Boot(disk);
    }

    /** Without a snapshot the outbox starts empty; one that fails its checks is refused. */
    static method Load(rules: seq<Rule>, snapshot: Option<Snapshot>) returns (relay: Relay?)
      requires forall r :: r in rules ==> ValidRule(r)
      ensures relay == null <==> snapshot.Some? && !Loadable(snapshot.value)
      ensures relay != null ==> fresh(relay) && relay.Valid() && relay.events == [] && relay.rules == rules
      ensures relay != null ==> relay.initial == if snapshot.Some? then snapshot.value else Snapshot([], 0)
    {
      if snapshot.None? {
        relay := new Relay(rules, Snapshot([], 0));
        return;
      }
      var ds := snapshot.value.deliveries;
      if |ds| > 80 {
        return null;
      }
      var i := 0;
      while i < |ds|
        invariant 0 <= i <= |ds| && forall j :: 0 <= j < i ==> ValidDelivery(ds[j])
      {
        if !ValidDelivery(ds[i]) {
          return null;
        }
        i := i + 1;
      }
      relay := new Relay(rules, snapshot.value);
    }

    /** A new process over the disk of one that died: its history goes on. */
    constructor Restart(dead: Relay)
      requires dead.Valid()
      ensures Valid() && rules == dead.rules && initial == dead.initial
      ensures events == dead.events + [Crashing] && world == Crash(dead.world)
      ensures nextId == 1 && notifications == {}
    {
      rules := dead.rules;
      disk := dead.disk;
      outbox, overflowCount := dead.disk.deliveries, dead.disk.overflow;
      nextId, notifications := 1, {};
      initial, events, world := dead.initial, dead.events + [Crashing], Crash(dead.world);
      CrashExtends(dead.initial, dead.events, dead.world);
      new;
      hide Run, Step, Crash, Loadable, ValidRule;
    }

    /** The event joins the history of the object. */
    ghost method Record(e: Event)
      requires world == Run(initial, events)
      modifies this`events, this`world
      ensures world == Step(old(world), e) && world == Run(initial, events) && events == old(events) + [e]
    {
      RunOneMore(initial, events, e);
      events := events + [e];
      world := Step(world, e);
    }

    method Persist(write: Write)
      modifies this`disk
      ensures disk == Stored(old(disk), Snapshot(outbox, overflowCount), write)
    {
      if !write.Lost? {
        disk := Snapshot(outbox, overflowCount);
      }
    }

    method CompactReceipts(at: int)
      modifies this`outbox
      ensures outbox == Compacted(old(outbox), at)
    {
      var receipts := RecentReceipts(outbox, at);
      outbox := Filter(Unacknowledged, outbox) + receipts;
    }

    method ExpireOld(at: int)
      modifies this`outbox
      ensures outbox == ExpireAll(old(outbox), at)
    {
      var i := 0;
      while i < |outbox|
        invariant 0 <= i <= |outbox| == |old(outbox)|
        invariant forall j :: 0 <= j < i ==> outbox[j] == Expire(old(outbox)[j], at)
        invariant forall j :: i <= j < |outbox| ==> outbox[j] == old(outbox)[j]
      {
        outbox := outbox[i := Expire(outbox[i], at)];
        i := i + 1;
      }
    }

    /** One delivery attempt at most. */
    method Drain(e: Weather) returns (raised: bool)
      requires Consistent() && world.phase.Draining?
      modifies this`outbox, this`disk, this`events, this`world
      ensures Consistent() && world.phase.Idle? && world == Drained(old(world), e)
      ensures world.returned == old(world.returned + if raised then {} else Promised(world))
    {
      hide ExpireAll, Delivered, Arrive, Arm, Send, Settle, Crash, Storable, Loadable, Run, ValidRule;
      ExpireOld(e.at);
      var row := FirstDue(outbox, e.at);
      Persist(e.sweepWrite);
      Record(Sweeping(e.at, e.sweepWrite, e.reported));
      if !e.sweepWrite.Synced? {
        return true;
      }
      if row.None? {
        return !e.reported;
      }
      raised := Deliver(row.value, e);
    }

    /** Marks the attempt on disk, posts, and records the answer. */
    method Deliver(k: nat, e: Weather) returns (raised: bool)
      requires Consistent() && k < |outbox| && world.phase == Chosen(k, e.at)
      modifies this`outbox, this`disk, this`events, this`world
      ensures Consistent() && world.phase.Idle? && world == Delivered(old(world), e)
      ensures world.returned == old(world.returned + if raised then {} else Promised(world))
    {
      hide ValidReceipt, Settle, Arrive, Sweep, Crash, Storable, Loadable, Run, ValidRule;
      if !e.tokenRead {
        Record(Arming(e.tokenRead, e.armWrite));
        return true;
      }
      outbox := outbox[k := outbox[k].(transportAttempted := true)];
      Persist(e.armWrite);
      Record(Arming(e.tokenRead, e.armWrite));
      if !e.armWrite.Synced? {
        return true;
      }
      var ok := ValidReceipt(e.answer, outbox[k].deliveryId);
      Record(Sending(e.answer));
      if e.answer.Escaped? {
        return true;
      }
      raised := SettleUp(k, ok, e);
    }

    /** The answered POST, with the handler that also catches errors of the bookkeeping. */
    method SettleUp(k: nat, ok: bool, e: Weather) returns (raised: bool)
      requires Consistent() && k < |outbox| && world.phase == Answered(k, e.at, ok)
      modifies this`outbox, this`disk, this`events, this`world
      ensures Consistent() && world.phase.Idle?
      ensures world == Settle(old(world), e.settleWrite, e.reported, e.settleWriteAgain, e.reportedAgain)
      ensures world.returned == old(world.returned + if raised then {} else Promised(world))
    {
      hide Postpone, Acknowledge, Filter, RecentReceipts, Arrive, Sweep, Arm, Send, Crash, Storable, Loadable;
      hide Run, ValidRule;
      var before := outbox;
      var write, reported := e.settleWrite, e.reported;
      if ok {
        outbox := outbox[k := Acknowledge(outbox[k])];
        CompactReceipts(e.at);
        Persist(e.settleWrite);
        write, reported := e.settleWriteAgain, e.reportedAgain;
      }
      if ok && e.settleWrite.Synced? && e.reported {
        raised := false;
      } else {
        outbox := before[k := Postpone(if ok then Acknowledge(before[k]) else before[k], e.at)];
        if ok {
          CompactReceipts(e.at);
        }
        Persist(write);
        raised := !(write.Synced? && reported);
      }
      Record(Settling(e.settleWrite, e.reported, e.settleWriteAgain, e.reportedAgain));
    }

    /**
     `newId` is the fresh UUID. Nothing is acknowledged to the caller before it is on disk, and a
     full outbox is reported instead of displacing an obligation.
     */
    method Receive(
      package: string, summary: string, body: string, fold: string -> string, newId: string,
      receivedAt: string, at: int, write: Write, e: Weather
    ) returns (id: Option<string>, raised: bool)
      requires Valid()
      requires Canonical(newId) && newId !in world.issued && |receivedAt| <= 40
      modifies this`outbox, this`overflowCount, this`disk, this`events, this`world
      ensures Valid()
      ensures var report := MatchReport(package, summary, body, rules, fold, newId, receivedAt);
        world == if report.None? then old(world)
                 else Received(old(world), newId, package, report.value, at, write, e)
      ensures id.Some? ==> id == Some(newId) && !raised && newId in world.returned
      ensures id.Some? ==>
        ReceiptCame(world.posts, newId) || (InOutbox(outbox, newId) && InOutbox(disk.deliveries, newId))
    {
      hide ValidRule, Drained, Kept, AllowedPackage, ReceiptCame;
      if !AllowedPackage(package) {
        assert MatchReport(package, summary, body, rules, fold, newId, receivedAt).None?;
        return None, false;
      }
      var report := Match(package, summary, body, rules, fold, newId, receivedAt);
      if report.None? {
        return None, !e.reported;
      }
      MatchedReportIsStorable(package, summary, body, rules, fold, newId, receivedAt);
      var kept := Enqueue(newId, package, report.value, at, write);
      if !kept {
        return None, true;
      }
      raised := Drain(e);
      id := if raised then None else Some(newId);
      if id.Some? {
        NothingReturnedIsLost(initial, events, newId);
      }
    }

    method Enqueue(id: string, package: string, report: Report, at: int, write: Write) returns (kept: bool)
      requires Consistent() && Enabled(world, Arriving(id, package, report, at, write))
      modifies this`outbox, this`overflowCount, this`disk, this`events, this`world
      ensures Consistent() && world == Arrive(old(world), id, package, report, at, write)
      ensures kept == world.phase.Draining? && (kept ==> world.returning == Some(id))
      ensures !kept ==> world.phase.Idle?
    {
      hide Compacted, Storable, Sweep, Arm, Send, Settle, Crash, Loadable, Run, ValidRule, Canonical, AllowedPackage;
      CompactReceipts(at);
      if |Filter(Unacknowledged, outbox)| >= 64 {
        overflowCount := overflowCount + 1;
        Persist(write);
        kept := false;
      } else {
        outbox := outbox + [NewDelivery(id, package, report, at)];
        Persist(write);
        kept := write.Synced?;
      }
      Record(Arriving(id, package, report, at, write));
    }

    /** Every callback gets an id larger than any handed out before, unless it replaces one. */
    method Notify(
      package: string, replacesId: nat, summary: string, body: string, fold: string -> string, newId: string,
      receivedAt: string, at: int, write: Write, e: Weather
    ) returns (number: Option<nat>)
      requires Valid()
      requires Canonical(newId) && newId !in world.issued && |receivedAt| <= 40
      modifies this
      ensures Valid()
      ensures var report := MatchReport(package, summary, body, rules, fold, newId, receivedAt);
        world == if report.None? then old(world)
                 else Received(old(world), newId, package, report.value, at, write, e)
      ensures number.None? ==> notifications == old(notifications) && nextId == old(nextId)
      ensures number.Some? ==>
        && notifications == old(notifications) + {number.value}
        && (replacesId == 0 ==> number.value !in old(notifications))
        && (replacesId != 0 ==> number.value == replacesId)
    {
      hide MatchReport, Received, ValidRule, Loadable, Run, Canonical, InOutbox;
      var id, raised := Receive(package, summary, body, fold, newId, receivedAt, at, write, e);
      if raised {
        return None;
      }
      var n := if replacesId != 0 then replacesId else nextId;
      nextId := if nextId > n + 1 then nextId else n + 1;
      notifications := notifications + {n};
      return Some(n);
    }
  }

  lemma CrashExtends(disk: Snapshot, events: seq<Event>, w: World)
    requires w == Run(disk, events)
    ensures Run(disk, events + [Crashing]) == Crash(w)
    ensures Crash(w).memory == w.disk == Crash(w).disk && Crash(w).phase.Idle?
  {
    hide Run;
    RunOneMore(disk, events, Crashing);
  }

  /** The id that a running `receive` will return. */
  function Promised(w: World): set<string> {
    if w.returning.Some? then {w.returning.value} else {}
  }

  ghost predicate InOutbox(ds: Outbox, id: string) {
    exists i :: 0 <= i < |ds| && ds[i].deliveryId == id
  }

  /**
   What the runs keep, the object keeps, over all its calls and restarts: its snapshot loads,
   no returned id is lost, no delivery is tried more than 19 times, and what was posted is never
   called clearly unsent.
   */
  lemma ObjectKeepsItsPromises(r: Relay, id: string)
    requires r.Valid() && DistinctIds(r.initial.deliveries) && Every(r.initial.deliveries, Paced)
    ensures Loadable(r.disk) && |r.outbox| <= 80
    ensures id in r.world.returned && !ReceiptCame(r.world.posts, id) ==>
      InOutbox(r.outbox, id) && InOutbox(r.disk.deliveries, id)
    ensures forall d :: d in r.outbox + r.disk.deliveries ==>
      d.attempts <= 19 && (Posted(r.world.posts, d.deliveryId) ==> d.transportAttempted && !d.state.Escalated?)
  {
    hide Kept, Shape, Posted, Loadable;
    AlwaysLoadable(r.initial, r.events);
    if id in r.world.returned { NothingReturnedIsLost(r.initial, r.events, id); }
    AtMostNineteenAttempts(r.initial, r.events);
    forall d | d in r.outbox + r.disk.deliveries
      ensures d.attempts <= 19
      ensures Posted(r.world.posts, d.deliveryId) ==> d.transportAttempted && !d.state.Escalated?
    {
      var s := if d in r.outbox then r.world.memory else r.disk;
      var i :| 0 <= i < |s.deliveries| && s.deliveries[i] == d;
      if Posted(r.world.posts, d.deliveryId) { PostedIsNeverEscalated(r.initial, r.events, s, i); }
    }
  }
}
