/**
 Every interleaving of executions, approvals, recoveries and crashes over one durable store and
 one table of scope locks. Executions of different keys interleave freely; executions of one key
 do not overlap.
 */
module ActionRuns {
  import opened Options
  import opened Ordering
  import opened Statuses
  import opened ActionRequests
  import opened Truths
  import opened ActionStores
  import opened ApprovalStores
  import opened Coordination
  import ResourceLocks

  /**
   Where an execution stands with its scope locks, which it takes one by one: the first `taken`
   keys are held; `GivingBack` after a key that was taken already.
   */
  datatype Lock = Taking(taken: nat) | GivingBack(left: nat) | Granted | Barred

  /**
   A running call; `resumed` is the approval call an execution was handed over from. An execution
   that has written its outcome, or raised, still gives back its locks before it returns.
   */
  datatype Thread =
    | Running(r: Request, e: Answers, pc: Pc, resumed: Option<ApproveCall>, lock: Lock)
    | Leaving(keys: seq<string>, held: nat, resumed: Option<ApproveCall>, answers: Answers,
      outcome: Option<ActionStatus>)
    | Resuming(call: ApproveCall, answers: Answers, apc: ApprovePc)

  /** The keys `execute` locks, in the order it locks them. */
  function ScopeKeys(r: Request): seq<string> {
    ResourceLocks.LockKeys(SortedSet(if r.lockScopes != [] then r.lockScopes else r.resourceIds))
  }

  function FirstKeys(keys: seq<string>, n: nat): seq<string> {
    if n <= |keys| then keys[..n] else keys
  }

  /** The keys a thread holds. */
  function Held(t: Thread): seq<string> {
    match t
    case Running(r, _, _, _, Taking(n)) => FirstKeys(ScopeKeys(r), n)
    case Running(r, _, _, _, GivingBack(n)) => FirstKeys(ScopeKeys(r), n)
    case Running(r, _, _, _, Granted) => ScopeKeys(r)
    case Leaving(keys, held, _, _, _) => FirstKeys(keys, held)
    case _ => []
  }

  /** One successful decision, as an observer notes it. */
  datatype DecisionNote = DecisionNote(approvalId: nat, household: string, principal: string, choice: Choice, at: int)

  /**
   `kept`: a store for approvals is configured. `ids` is the key each action id was first used
   with, `mixed` the ids that some request without plain observed verification used, `wrote` the
   request that last wrote an outcome under an id. `elsewhere` are the keys that other users of
   the lock table hold.
   */
  datatype World = World(
    kept: bool,
    shared: Shared,
    threads: map<nat, Thread>,
    elsewhere: set<string>,
    ids: map<nat, string>,
    mixed: set<nat>,
    wrote: map<nat, Request>,
    notes: seq<DecisionNote>
  )

  datatype Event =
    | StartExecute(tid: nat, r: Request, e: Answers)
    | StartApprove(tid: nat, call: ApproveCall, e: Answers)
    | Advance(tid: nat)
    | Abandon(tid: nat)
    | Recover
    | Elsewhere(keys: set<string>)

  predicate Active(t: Thread) {
    t.Running? && !t.pc.Claiming?
  }

  /** Between its claim and its plan an execution takes its locks. */
  predicate Locking(t: Thread) {
    t.Running? && t.pc.Planning? && (t.lock.Taking? || t.lock.GivingBack?)
  }

  /** A step that touches nothing but locks. */
  predicate Quiet(t: Thread) {
    Locking(t) || t.Leaving?
  }

  predicate Taken(w: World, key: string) {
    key in w.elsewhere || exists u :: u in w.threads && key in Held(w.threads[u])
  }

  /** No other execution of the same key is past its claim. */
  predicate Alone(w: World, tid: nat, key: string) {
    forall u :: u in w.threads && u != tid && Active(w.threads[u]) ==> w.threads[u].r.key != key
  }

  /** Action ids are fresh or belong to the same key; approval ids are fresh; locks are held once. */
  predicate Enabled(w: World, ev: Event) {
    match ev
    case StartExecute(tid, r, _) => tid !in w.threads && (r.actionId in w.ids ==> w.ids[r.actionId] == r.key)
    case StartApprove(tid, _, _) => tid !in w.threads && w.kept
    case Advance(tid) =>
      && tid in w.threads
      && var t := w.threads[tid];
      && (t.Running? && t.pc.Claiming? ==> Alone(w, tid, t.r.key))
      && (t.Running? && t.pc.Asking? ==> t.e.approvalId !in w.shared.approvals.records)
    case Abandon(tid) => tid in w.threads
    case Recover => true
    case Elsewhere(keys) => forall u, key :: u in w.threads && key in Held(w.threads[u]) ==> key !in keys
  }

  /** A consequential power request judged by observation alone. */
  predicate Plain(r: Request) {
    r.spec.Some? && r.spec.value.PowerSpec? && !r.tool.readOnly && !r.hasVerifier
  }

  function Mixed(mixed: set<nat>, r: Request): set<nat> {
    if Plain(r) then mixed else mixed + {r.actionId}
  }

  function ResumedId(t: Thread): Option<nat>
    requires t.Running?
  {
    if t.resumed.Some? then Some(t.resumed.value.approvalId) else None
  }

  function Started(r: Request, e: Answers, resumed: Option<ApproveCall>): Thread {
    Running(r, e, Pc.Claiming, resumed, Taking(0))
  }

  /** The execution is over; what it holds is given back next. */
  function Left(t: Thread, outcome: Option<ActionStatus>): Thread
    requires t.Running?
  {
    Leaving(Held(t), |Held(t)|, t.resumed, t.e, outcome)
  }

  function AdvanceRunning(w: World, tid: nat): World
    requires WellKeyed(w.shared.store) && tid in w.threads && w.threads[tid].Running?
  {
    var t := w.threads[tid];
    var (shared, next) := Execute1(w.shared, t.r, t.e, ResumedId(t), w.kept, t.pc);
    var moved :=
      match next
      case Continue(pc) => t.(pc := pc)
      case Returned(record, _, _) => Left(t, Some(record.status))
      case Raised => Left(t, None);
    w.(shared := shared,
       threads := w.threads[tid := moved],
       wrote := if t.pc.Writing? then w.wrote[t.r.actionId := t.r] else w.wrote)
  }

  function AdvanceResuming(w: World, tid: nat): World
    requires tid in w.threads && w.threads[tid].Resuming?
  {
    var t := w.threads[tid];
    var (shared, next) := Approve1(w.shared, t.call, t.apc);
    var note := DecisionNote(t.call.approvalId, t.call.household, t.call.principal, t.call.choice, t.call.at);
    var v := w.(shared := shared, notes := if t.apc.Settling? && next.Proceed? then w.notes + [note] else w.notes);
    match next
    case Proceed(pc) => v.(threads := w.threads[tid := t.(apc := pc)])
    case HandOver(r) => v.(threads := w.threads[tid := Started(r, t.answers, Some(t.call))], mixed := Mixed(w.mixed, r))
    case Ended => v.(threads := w.threads - {tid})
  }

  /** One `acquire` or one `release`. A key that is taken, even by the attempt itself, bars it. */
  function LockStep(w: World, t: Thread): Thread
    requires Locking(t)
  {
    match t.lock
    case Taking(n) =>
      if n >= |ScopeKeys(t.r)| then t.(lock := Granted, e := t.e.(acquired := true))
      else if Taken(w, ScopeKeys(t.r)[n]) then t.(lock := GivingBack(n))
      else t.(lock := Taking(n + 1))
    case GivingBack(n) =>
      if n > 0 then t.(lock := GivingBack(n - 1)) else t.(lock := Barred, e := t.e.(acquired := false))
  }

  function AdvanceQuietly(w: World, tid: nat): World
    requires tid in w.threads && Quiet(w.threads[tid])
  {
    var t := w.threads[tid];
    if Locking(t) then w.(threads := w.threads[tid := LockStep(w, t)])
    else if t.held > 0 then w.(threads := w.threads[tid := t.(held := t.held - 1)])
    else if t.resumed.Some? && t.outcome.Some? then
      w.(threads := w.threads[tid := Resuming(t.resumed.value, t.answers, Closing(Approved, t.outcome.value))])
    else w.(threads := w.threads - {tid})
  }

  function Apply(w: World, ev: Event): World
    requires WellKeyed(w.shared.store) && Enabled(w, ev)
  {
    match ev
    case StartExecute(tid, r, e) =>
      w.(threads := w.threads[tid := Started(r, e, None)], ids := w.ids[r.actionId := r.key],
        mixed := Mixed(w.mixed, r))
    case StartApprove(tid, c, e) => w.(threads := w.threads[tid := Resuming(c, e, Looking)])
    case Advance(tid) =>
      if Quiet(w.threads[tid]) then AdvanceQuietly(w, tid)
      else if w.threads[tid].Running? then AdvanceRunning(w, tid)
      else AdvanceResuming(w, tid)
    case Abandon(tid) => w.(threads := w.threads - {tid})
    case Recover => w.(shared := w.shared.(store := Recovered(w.shared.store)))
    case Elsewhere(keys) => w.(elsewhere := keys)
  }

  function Boot(kept: bool): World {
    World(kept, Shared(Store(map[], map[]), Approvals(map[], map[]), []), map[], {}, map[], {}, map[], [])
  }

  /** Events that are not enabled do not happen. A crash abandons every thread. */
  ghost function Run(kept: bool, events: seq<Event>): (w: World)
    ensures Inv(w)
  {
    if events == [] then Boot(kept)
    else
      var w := Run(kept, events[..|events| - 1]);
      var ev := events[|events| - 1];
      if Enabled(w, ev) then ApplyKeepsInv(w, ev); Apply(w, ev) else w
  }

  ghost predicate Inv(w: World) {
    Keyed(w) && OneDispatch(w)
  }

  lemma ApplyKeepsInv(w: World, ev: Event)
    requires Inv(w) && Enabled(w, ev)
    ensures Inv(Apply(w, ev))
  {
    ApplyKeepsKeyed(w, ev);
    ApplyKeepsOneDispatch(w, ev);
  }

  // ----- keys and ids -----

  ghost predicate Names(w: World, id: nat, key: string) {
    id in w.ids && w.ids[id] == key
  }

  ghost predicate ThreadNamed(w: World, t: Thread) {
    match t
    case Running(r, _, _, _, _) => Names(w, r.actionId, r.key)
    case Leaving(_, _, _, _, _) => true
    case Resuming(_, _, apc) => apc.Acting? ==> Names(w, apc.pending.actionId, apc.pending.key)
  }

  /** An execution past its claim works for the record of its key, which has its digest. */
  ghost predicate Bound(store: Store, t: Thread) {
    Active(t) ==>
      && t.r.key in store.byKey && store.byKey[t.r.key] in store.records
      && store.records[store.byKey[t.r.key]].digest == RequestDigest(t.r)
  }

  ghost predicate ApprovalNamed(w: World, a: nat)
    requires a in w.shared.approvals.records
  {
    w.shared.approvals.records[a].approvalId == a
    && Names(w, w.shared.approvals.records[a].actionId, w.shared.approvals.records[a].key)
  }

  ghost predicate Apart(threads: map<nat, Thread>) {
    forall t, u :: t in threads && u in threads && t != u && Active(threads[t]) && Active(threads[u]) ==>
      threads[t].r.key != threads[u].r.key
  }

  ghost predicate Keyed(w: World) {
    && WellKeyed(w.shared.store)
    && (forall id :: id in w.shared.store.records ==> Names(w, id, w.shared.store.records[id].key))
    && (forall a :: a in w.shared.approvals.records ==> ApprovalNamed(w, a))
    && (forall t :: t in w.threads ==> ThreadNamed(w, w.threads[t]) && Bound(w.shared.store, w.threads[t]))
    && Apart(w.threads)
  }

  /** Records come and change, but keep their key, their digest and their place. */
  ghost predicate Grows(s: Store, t: Store) {
    && WellKeyed(t)
    && (forall k :: k in s.byKey ==> k in t.byKey && t.byKey[k] == s.byKey[k])
    && (forall id :: id in s.records ==>
          id in t.records && t.records[id].key == s.records[id].key && t.records[id].digest == s.records[id].digest)
  }

  lemma UpdateGrows(s: Store, id: nat, status: ActionStatus, result: Option<ActionResult>, truth: Option<Truth>)
    requires WellKeyed(s) && id in s.records
    ensures Grows(s, Updated(s, id, status, result, truth))
      && Updated(s, id, status, result, truth).records.Keys == s.records.Keys
  {
  }

  lemma ClaimGrows(s: Store, r: Request)
    requires WellKeyed(s) && (r.actionId in s.records ==> s.records[r.actionId].key == r.key)
    ensures Grows(s, Claimed(s, r).0)
    ensures forall id :: id in Claimed(s, r).0.records ==>
      id in s.records || (id == r.actionId && Claimed(s, r).0.records[id].key == r.key)
  {
    hide RequestDigest;
  }

  lemma RecoveryGrows(s: Store)
    requires WellKeyed(s)
    ensures Grows(s, Recovered(s))
  {
  }

  lemma ExecutionGrows(s: Shared, r: Request, e: Answers, approval: Option<nat>, kept: bool, pc: Pc)
    requires WellKeyed(s.store) && (r.actionId in s.store.records ==> s.store.records[r.actionId].key == r.key)
    ensures var t := Execute1(s, r, e, approval, kept, pc).0;
      && Grows(s.store, t.store)
      && (forall id :: id in t.store.records ==>
           id in s.store.records || (id == r.actionId && t.store.records[id].key == r.key))
  {
    hide PlanFor, Conclude, RequestDigest, ApprovalFor, Claimed, Updated, Grows;
    SameStoreGrows(s.store);
    ClaimGrows(s.store, r);
    if r.actionId in s.store.records {
      match pc
      case Writing(ending) => UpdateGrows(s.store, r.actionId, ending.status, ending.result, ending.truth);
      case Committing(truth, effects) => UpdateGrows(s.store, r.actionId, Executing, Some(Intended(effects)),
        Some(truth));
      case _ =>
    }
  }

  lemma SameStoreGrows(s: Store)
    requires WellKeyed(s)
    ensures Grows(s, s)
  {
  }

  lemma ResumptionGrows(s: Shared, c: ApproveCall, pc: ApprovePc)
    requires WellKeyed(s.store)
    ensures var t := Approve1(s, c, pc).0;
      Grows(s.store, t.store) && t.store.records.Keys == s.store.records.Keys && t.trace == s.trace
  {
    hide Rebuild, Updated, Grows, SameDescriptor, ClaimedApproval, Completed;
    SameStoreGrows(s.store);
    if pc.Acting? && pc.pending.actionId in s.store.records {
      UpdateGrows(s.store, pc.pending.actionId, PolicyDenied, None, None);
    }
  }

  /** Enough for a step to keep the keys: the store grows and only one thread moves. */
  lemma KeyedAcross(w: World, v: World, moved: nat)
    requires Keyed(w) && Grows(w.shared.store, v.shared.store)
    requires forall id :: id in w.ids ==> id in v.ids && v.ids[id] == w.ids[id]
    requires forall id :: id in v.shared.store.records ==>
      id in w.shared.store.records || Names(v, id, v.shared.store.records[id].key)
    requires forall a :: a in v.shared.approvals.records ==> ApprovalNamed(v, a)
    requires forall u :: u in v.threads && u != moved ==> u in w.threads && v.threads[u] == w.threads[u]
    requires moved in v.threads ==> ThreadNamed(v, v.threads[moved]) && Bound(v.shared.store, v.threads[moved])
    requires moved in v.threads && Active(v.threads[moved]) ==> Alone(w, moved, v.threads[moved].r.key)
    ensures Keyed(v)
  {
    hide WellKeyed, RequestDigest;
    forall u | u in v.threads ensures ThreadNamed(v, v.threads[u]) && Bound(v.shared.store, v.threads[u]) {
      if u != moved { assert ThreadNamed(w, w.threads[u]) && Bound(w.shared.store, w.threads[u]); }
    }
  }

  /** The thread that moved still works for the record of its key. */
  lemma RunningStaysBound(w: World, tid: nat)
    requires Keyed(w) && Enabled(w, Advance(tid)) && w.threads[tid].Running?
    requires Grows(w.shared.store, AdvanceRunning(w, tid).shared.store)
    ensures var v := AdvanceRunning(w, tid);
      tid in v.threads ==> ThreadNamed(v, v.threads[tid]) && Bound(v.shared.store, v.threads[tid])
  {
    hide PlanFor, Conclude, ApprovalFor, ScopeKeys;
  }

  /** An execution changes no approval; it may add one that carries its id and key. */
  lemma ExecutionApprovals(s: Shared, r: Request, e: Answers, approval: Option<nat>, kept: bool, pc: Pc)
    requires WellKeyed(s.store)
    ensures var t := Execute1(s, r, e, approval, kept, pc).0.approvals.records;
      forall a :: a in t ==>
        || (a in s.approvals.records && t[a] == s.approvals.records[a])
        || (t[a].approvalId == a && t[a].actionId == r.actionId && t[a].key == r.key)
  {
    hide PlanFor, Conclude, RequestDigest, Claimed, Updated;
  }

  lemma RunningKeepsApprovalsNamed(w: World, tid: nat)
    requires Keyed(w) && Enabled(w, Advance(tid)) && w.threads[tid].Running?
    ensures var v := AdvanceRunning(w, tid);
      && v.ids == w.ids
      && forall a :: a in v.shared.approvals.records ==> ApprovalNamed(v, a)
  {
    hide Execute1, RequestDigest;
    var t := w.threads[tid];
    var v := AdvanceRunning(w, tid);
    assert ThreadNamed(w, t);
    ExecutionApprovals(w.shared, t.r, t.e, ResumedId(t), w.kept, t.pc);
    forall a | a in v.shared.approvals.records ensures ApprovalNamed(v, a) {
      if a in w.shared.approvals.records { assert ApprovalNamed(w, a); }
    }
  }

  lemma RunningMovesOneThread(w: World, tid: nat)
    requires Keyed(w) && Enabled(w, Advance(tid)) && w.threads[tid].Running?
    ensures var v := AdvanceRunning(w, tid);
      && (forall u :: u in v.threads && u != tid ==> u in w.threads && v.threads[u] == w.threads[u])
      && (tid in v.threads && Active(v.threads[tid]) ==>
            v.threads[tid].r == w.threads[tid].r && Alone(w, tid, v.threads[tid].r.key))
  {
  }

  lemma RunningKeepsKeyed(w: World, tid: nat)
    requires Keyed(w) && Enabled(w, Advance(tid)) && w.threads[tid].Running?
    ensures Keyed(AdvanceRunning(w, tid))
  {
    hide PlanFor, Conclude, RequestDigest, Claimed, Updated;
    var t := w.threads[tid];
    assert ThreadNamed(w, t);
    ExecutionGrows(w.shared, t.r, t.e, ResumedId(t), w.kept, t.pc);
    RunningStaysBound(w, tid);
    RunningKeepsApprovalsNamed(w, tid);
    RunningMovesOneThread(w, tid);
    KeyedAcross(w, AdvanceRunning(w, tid), tid);
  }

  lemma ApprovalStaysNamed(w: World, c: ApproveCall, pc: ApprovePc, v: World)
    requires Keyed(w) && v.ids == w.ids && v.shared.approvals == Approve1(w.shared, c, pc).0.approvals
    ensures forall a :: a in v.shared.approvals.records ==> ApprovalNamed(v, a)
  {
  }

  /** A rebuilt request keeps the id and the key of its approval. */
  lemma RebuildNames(
    a: Approval, tool: Tool, household: string, identity: Option<string>, hasRefresher: bool, hasVerifier: bool
  )
    ensures Rebuild(a, tool, household, identity, hasRefresher, hasVerifier).Some? ==>
      var r := Rebuild(a, tool, household, identity, hasRefresher, hasVerifier).value;
      r.actionId == a.actionId && r.key == a.key && r.household == a.household
  {
  }

  /** A call acts on its own approval and hands over a request with the names of that approval. */
  lemma CallNames(s: Shared, c: ApproveCall, pc: ApprovePc)
    ensures var next := Approve1(s, c, pc).1;
      && (next.Proceed? && next.pc.Acting? ==>
            && c.approvalId in s.approvals.records
            && next.pc.pending.actionId == s.approvals.records[c.approvalId].actionId
            && next.pc.pending.key == s.approvals.records[c.approvalId].key)
      && (next.HandOver? ==>
            pc.Acting? && next.request.actionId == pc.pending.actionId && next.request.key == pc.pending.key)
  {
    hide Rebuild, Updated, Completed;
    if pc.Acting? && c.tool.Some? {
      RebuildNames(pc.pending, c.tool.value, c.identityHousehold, c.identity, c.hasRefresher, c.hasVerifier);
    }
  }

  lemma ResumingStaysNamed(w: World, tid: nat)
    requires Keyed(w) && Enabled(w, Advance(tid)) && w.threads[tid].Resuming?
    ensures var v := AdvanceResuming(w, tid);
      tid in v.threads ==> ThreadNamed(v, v.threads[tid]) && !Active(v.threads[tid])
  {
    hide Approve1, Bound, WellKeyed, Apart, Held;
    var t := w.threads[tid];
    assert ThreadNamed(w, t);
    if t.call.approvalId in w.shared.approvals.records { assert ApprovalNamed(w, t.call.approvalId); }
    CallNames(w.shared, t.call, t.apc);
  }

  lemma ResumingKeepsKeyed(w: World, tid: nat)
    requires Keyed(w) && Enabled(w, Advance(tid)) && w.threads[tid].Resuming?
    ensures Keyed(AdvanceResuming(w, tid))
  {
    hide AdvanceResuming, Approve1, ThreadNamed, ApprovalNamed, Grows, Apart;
    var t := w.threads[tid];
    var v := AdvanceResuming(w, tid);
    ResumptionGrows(w.shared, t.call, t.apc);
    ResumingMovesOneThread(w, tid);
    ApprovalStaysNamed(w, t.call, t.apc, v);
    ResumingStaysNamed(w, tid);
    forall id | id in v.shared.store.records ensures id in w.shared.store.records {
      assert id in v.shared.store.records.Keys;
    }
    KeyedAcross(w, v, tid);
  }

  lemma ResumingMovesOneThread(w: World, tid: nat)
    requires tid in w.threads && w.threads[tid].Resuming?
    ensures var v := AdvanceResuming(w, tid);
      && v.ids == w.ids && v.kept == w.kept
      && v.shared == Approve1(w.shared, w.threads[tid].call, w.threads[tid].apc).0
      && forall u :: u in v.threads && u != tid ==> u in w.threads && v.threads[u] == w.threads[u]
  {
    hide Rebuild, Approve1;
  }

  /** What taking and giving back locks leaves alone, and where it leads. */
  lemma QuietSteps(w: World, tid: nat)
    requires tid in w.threads && Quiet(w.threads[tid])
    ensures var v := AdvanceQuietly(w, tid);
      var t := w.threads[tid];
      && v == w.(threads := v.threads)
      && (forall u :: u in v.threads && u != tid ==> u in w.threads && v.threads[u] == w.threads[u])
      && (tid in v.threads ==>
            if t.Running? then SameWork(t, v.threads[tid])
            else StillLeaving(t, v.threads[tid]) || ClosesFor(t, v.threads[tid]))
  {
    hide LockStep, Held, ScopeKeys;
    if Locking(w.threads[tid]) { LockStepKeepsWork(w, w.threads[tid]); }
  }

  lemma LockStepKeepsWork(w: World, t: Thread)
    requires Locking(t)
    ensures SameWork(t, LockStep(w, t))
  {
    hide Taken, ScopeKeys;
  }

  predicate StillLeaving(t: Thread, u: Thread) {
    t.Leaving? && u.Leaving? && u == t.(held := u.held) && u.held < t.held
  }

  /** The same execution at the same point; only the lock and its answer may differ. */
  predicate SameWork(t: Thread, u: Thread) {
    && t.Running? && u.Running?
    && u.r == t.r && u.pc == t.pc && u.resumed == t.resumed && u.e == t.e.(acquired := u.e.acquired)
  }

  predicate ClosesFor(t: Thread, u: Thread) {
    && t.Leaving? && t.resumed.Some?
    && u.Resuming? && u.call == t.resumed.value && u.apc.Closing? && u.apc.status.Approved?
  }

  lemma QuietKeepsKeyed(w: World, tid: nat)
    requires Keyed(w) && tid in w.threads && Quiet(w.threads[tid])
    ensures Keyed(AdvanceQuietly(w, tid))
  {
    hide AdvanceQuietly, RequestDigest;
    QuietSteps(w, tid);
    var v := AdvanceQuietly(w, tid);
    SameStoreGrows(w.shared.store);
    forall a | a in v.shared.approvals.records ensures ApprovalNamed(v, a) { assert ApprovalNamed(w, a); }
    assert ThreadNamed(w, w.threads[tid]) && Bound(w.shared.store, w.threads[tid]);
    assert Active(w.threads[tid]) ==> Alone(w, tid, w.threads[tid].r.key) by { assert Apart(w.threads); }
    KeyedAcross(w, v, tid);
  }

  lemma ApplyKeepsKeyed(w: World, ev: Event)
    requires Keyed(w) && Enabled(w, ev)
    ensures Keyed(Apply(w, ev))
  {
    hide AdvanceRunning, AdvanceResuming, AdvanceQuietly, RequestDigest, Held, Apart, Grows;
    if !ev.Advance? { OtherEventsKeepKeyed(w, ev); }
    else if Quiet(w.threads[ev.tid]) { QuietKeepsKeyed(w, ev.tid); }
    else if w.threads[ev.tid].Running? { RunningKeepsKeyed(w, ev.tid); }
    else { ResumingKeepsKeyed(w, ev.tid); }
  }

  lemma OtherEventsKeepKeyed(w: World, ev: Event)
    requires Keyed(w) && Enabled(w, ev) && !ev.Advance?
    ensures Keyed(Apply(w, ev))
  {
    hide AdvanceRunning, AdvanceResuming, AdvanceQuietly, WellKeyed, RequestDigest, Held, Mixed;
    var v := Apply(w, ev);
    SameStoreGrows(w.shared.store);
    forall a | a in v.shared.approvals.records ensures ApprovalNamed(v, a) { assert ApprovalNamed(w, a); }
    match ev
    case StartExecute(tid, r, e) => StartKeepsKeyed(w, v, tid, r, e);
    case StartApprove(tid, _, _) => KeyedAcross(w, v, tid);
    case Abandon(tid) => KeyedAcross(w, v, tid);
    case Elsewhere(_) => SameThreadsKeyed(w, v);
    case Recover =>
      RecoveryGrows(w.shared.store);
      RecoveredThreadsKeyed(w, v);
  }

  lemma StartKeepsKeyed(w: World, v: World, tid: nat, r: Request, e: Answers)
    requires Keyed(w) && tid !in w.threads && (r.actionId in w.ids ==> w.ids[r.actionId] == r.key)
    requires v == w.(threads := w.threads[tid := Started(r, e, None)], ids := w.ids[r.actionId := r.key],
      mixed := v.mixed)
    ensures Keyed(v)
  {
    hide WellKeyed, RequestDigest, Apart, Held;
    SameStoreGrows(w.shared.store);
    forall a | a in v.shared.approvals.records ensures ApprovalNamed(v, a) { assert ApprovalNamed(w, a); }
    KeyedAcross(w, v, tid);
  }

  lemma SameThreadsKeyed(w: World, v: World)
    requires Keyed(w) && v == w.(elsewhere := v.elsewhere)
    ensures Keyed(v)
  {
    hide WellKeyed, RequestDigest;
    forall a | a in v.shared.approvals.records ensures ApprovalNamed(v, a) { assert ApprovalNamed(w, a); }
    forall u | u in v.threads ensures ThreadNamed(v, v.threads[u]) { assert ThreadNamed(w, w.threads[u]); }
  }

  lemma RecoveredThreadsKeyed(w: World, v: World)
    requires Keyed(w) && v == w.(shared := w.shared.(store := Recovered(w.shared.store))) && WellKeyed(v.shared.store)
    requires forall a :: a in v.shared.approvals.records ==> ApprovalNamed(v, a)
    ensures Keyed(v)
  {
    hide WellKeyed, RequestDigest, Held;
    forall u | u in v.threads ensures ThreadNamed(v, v.threads[u]) && Bound(v.shared.store, v.threads[u]) {
      assert ThreadNamed(w, w.threads[u]) && Bound(w.shared.store, w.threads[u]);
    }
  }

  // ----- dispatches -----

  ghost function Accepted(trace: seq<Dispatch>, key: string): nat {
    if trace == [] then 0
    else
      var last := trace[|trace| - 1];
      Accepted(trace[..|trace| - 1], key) + if last.accepted && last.key == key then 1 else 0
  }

  /** The record of the key can never be taken up by another execution. */
  ghost predicate Settled(s: Store, key: string) {
    key in s.byKey && s.byKey[key] in s.records && !Resumable(s.records[s.byKey[key]].status)
  }

  ghost predicate KeyOnce(s: Shared, key: string) {
    Accepted(s.trace, key) <= 1 && (Accepted(s.trace, key) == 1 ==> Settled(s.store, key))
  }

  ghost predicate ThreadOnce(s: Shared, t: Thread) {
    Active(t) ==>
      match t.pc
      case Writing(ending) => Accepted(s.trace, t.r.key) == 1 ==> !Resumable(ending.status)
      case Dispatching(_, _) => Accepted(s.trace, t.r.key) == 0 && Settled(s.store, t.r.key)
      case _ => Accepted(s.trace, t.r.key) == 0
  }

  ghost predicate OneDispatch(w: World) {
    && (forall key :: KeyOnce(w.shared, key))
    && (forall t :: t in w.threads ==> ThreadOnce(w.shared, w.threads[t]))
  }

  lemma AcceptedOneMore(trace: seq<Dispatch>, d: Dispatch, key: string)
    ensures Accepted(trace + [d], key) == Accepted(trace, key) + if d.accepted && d.key == key then 1 else 0
  {
  }

  /** Another key: nothing is dispatched for it and its record stays settled. */
  lemma OtherKeyUntouched(s: Shared, r: Request, e: Answers, approval: Option<nat>, kept: bool, pc: Pc, key: string)
    requires WellKeyed(s.store) && (r.actionId in s.store.records ==> s.store.records[r.actionId].key == r.key)
    requires key != r.key
    ensures var t := Execute1(s, r, e, approval, kept, pc).0;
      && Accepted(t.trace, key) == Accepted(s.trace, key)
      && (Settled(s.store, key) ==> Settled(t.store, key))
  {
  }

  /** Its own key: what the execution knows of it, before and after the step. */
  lemma OwnKeyStep(s: Shared, t: Thread, kept: bool)
    requires WellKeyed(s.store) && t.Running? && ThreadOnce(s, t) && KeyOnce(s, t.r.key) && Bound(s.store, t)
    requires t.r.actionId in s.store.records ==> s.store.records[t.r.actionId].key == t.r.key
    ensures var (after, next) := Execute1(s, t.r, t.e, ResumedId(t), kept, t.pc);
      && KeyOnce(after, t.r.key)
      && (next.Continue? ==> ThreadOnce(after, t.(pc := next.pc)))
  {
    hide PlanFor, Conclude, RequestDigest, ApprovalFor, Accepted;
    if t.pc.Dispatching? {
      AcceptedOneMore(s.trace, DispatchOf(t.r, t.e, ResumedId(t)), t.r.key);
      AcceptedEndsSettled(t.r, t.e, t.pc.committed, t.pc.expected);
    }
  }

  /** What one step of an execution does to the dispatch count and to settled keys. */
  lemma ExecutionStep(w: World, tid: nat, key: string)
    requires Keyed(w) && OneDispatch(w) && Enabled(w, Advance(tid)) && w.threads[tid].Running?
    ensures var t := w.threads[tid];
      var s := Execute1(w.shared, t.r, t.e, ResumedId(t), w.kept, t.pc).0;
      && KeyOnce(s, key)
      && (key != t.r.key ==> Accepted(s.trace, key) == Accepted(w.shared.trace, key))
      && (key != t.r.key && Settled(w.shared.store, key) ==> Settled(s.store, key))
  {
    hide Execute1, Accepted, RequestDigest;
    var t := w.threads[tid];
    assert ThreadNamed(w, t) && Bound(w.shared.store, t) && ThreadOnce(w.shared, t);
    assert KeyOnce(w.shared, key) && KeyOnce(w.shared, t.r.key);
    OwnRecordNamed(w, t);
    if key == t.r.key {
      OwnKeyStep(w.shared, t, w.kept);
    } else {
      OtherKeyUntouched(w.shared, t.r, t.e, ResumedId(t), w.kept, t.pc, key);
    }
  }

  lemma OwnRecordNamed(w: World, t: Thread)
    requires Keyed(w) && t.Running? && ThreadNamed(w, t)
    ensures t.r.actionId in w.shared.store.records ==> w.shared.store.records[t.r.actionId].key == t.r.key
  {
  }

  lemma ExecutionStepOwnThread(w: World, tid: nat)
    requires Keyed(w) && OneDispatch(w) && Enabled(w, Advance(tid)) && w.threads[tid].Running?
    ensures tid in AdvanceRunning(w, tid).threads ==>
      ThreadOnce(AdvanceRunning(w, tid).shared, AdvanceRunning(w, tid).threads[tid])
  {
    hide Execute1, RequestDigest, Settled, Accepted;
    var t := w.threads[tid];
    assert ThreadNamed(w, t) && Bound(w.shared.store, t) && ThreadOnce(w.shared, t);
    assert KeyOnce(w.shared, t.r.key);
    OwnRecordNamed(w, t);
    OwnKeyStep(w.shared, t, w.kept);
  }

  /** What is written after an accepted call can never be taken up again. */
  lemma AcceptedEndsSettled(r: Request, e: Answers, before: Truth, effects: seq<Effect>)
    ensures !Refused(e.Gateway()) ==> !Resumable(Conclude(r, e, before, effects).status)
  {
  }

  lemma OtherThreadOnce(w: World, tid: nat, u: nat)
    requires Keyed(w) && OneDispatch(w) && Enabled(w, Advance(tid)) && w.threads[tid].Running?
    requires u in w.threads && u != tid
    ensures ThreadOnce(AdvanceRunning(w, tid).shared, w.threads[u])
  {
    hide Execute1, KeyOnce, RequestDigest, Held, WellKeyed;
    assert ThreadOnce(w.shared, w.threads[u]);
    if Active(w.threads[u]) {
      ExecutionStep(w, tid, w.threads[u].r.key);
      assert Apart(w.threads);
    }
  }

  lemma RunningKeepsOneDispatch(w: World, tid: nat)
    requires Keyed(w) && OneDispatch(w) && Enabled(w, Advance(tid)) && w.threads[tid].Running?
    ensures OneDispatch(AdvanceRunning(w, tid))
  {
    hide Execute1, KeyOnce, RequestDigest, Held, ScopeKeys;
    var v := AdvanceRunning(w, tid);
    forall key ensures KeyOnce(v.shared, key) { ExecutionStep(w, tid, key); }
    ExecutionStepOwnThread(w, tid);
    forall u | u in v.threads ensures ThreadOnce(v.shared, v.threads[u]) {
      if u != tid { OtherThreadOnce(w, tid, u); }
    }
  }

  /** Denials and recoveries only move records to states that are never taken up. */
  lemma SettlingKeepsOneDispatch(w: World, v: World)
    requires Keyed(w) && OneDispatch(w) && v.shared.trace == w.shared.trace
    requires forall key :: Settled(w.shared.store, key) ==> Settled(v.shared.store, key)
    requires forall u :: u in v.threads && Active(v.threads[u]) ==>
      u in w.threads && (v.threads[u] == w.threads[u] || SameWork(w.threads[u], v.threads[u]))
    ensures OneDispatch(v)
  {
    forall key ensures KeyOnce(v.shared, key) { assert KeyOnce(w.shared, key); }
    forall u | u in v.threads ensures ThreadOnce(v.shared, v.threads[u]) {
      if Active(v.threads[u]) { assert ThreadOnce(w.shared, w.threads[u]); }
    }
  }

  lemma UpdateKeepsSettled(
    s: Store, id: nat, status: ActionStatus, result: Option<ActionResult>, truth: Option<Truth>, key: string
  )
    requires WellKeyed(s) && id in s.records && !Resumable(status) && Settled(s, key)
    ensures Settled(Updated(s, id, status, result, truth), key)
  {
  }

  lemma ResumingKeepsOneDispatch(w: World, tid: nat)
    requires Keyed(w) && OneDispatch(w) && Enabled(w, Advance(tid)) && w.threads[tid].Resuming?
    ensures OneDispatch(AdvanceResuming(w, tid))
  {
    hide AdvanceResuming, Approve1, Settled, KeyOnce, ThreadOnce, Keyed;
    var v := AdvanceResuming(w, tid);
    var t := w.threads[tid];
    KeyedStore(w);
    ResumingMovesOneThread(w, tid);
    ResumingStaysNamed(w, tid);
    forall key | Settled(w.shared.store, key) ensures Settled(v.shared.store, key) {
      ResumptionKeepsSettled(w.shared, t.call, t.apc, key);
    }
    ResumptionGrows(w.shared, t.call, t.apc);
    SettlingKeepsOneDispatch(w, v);
  }

  lemma KeyedStore(w: World)
    requires Keyed(w)
    ensures WellKeyed(w.shared.store)
  {
  }

  lemma ResumptionKeepsSettled(s: Shared, c: ApproveCall, pc: ApprovePc, key: string)
    requires WellKeyed(s.store) && Settled(s.store, key)
    ensures Settled(Approve1(s, c, pc).0.store, key)
  {
    hide Rebuild, Updated, ClaimedApproval, Completed, Settled, SameDescriptor;
    if pc.Acting? && pc.pending.actionId in s.store.records {
      UpdateKeepsSettled(s.store, pc.pending.actionId, PolicyDenied, None, None, key);
    }
  }

  lemma QuietKeepsOneDispatch(w: World, tid: nat)
    requires Keyed(w) && OneDispatch(w) && tid in w.threads && Quiet(w.threads[tid])
    ensures OneDispatch(AdvanceQuietly(w, tid))
  {
    hide AdvanceQuietly, KeyOnce, ThreadOnce;
    QuietSteps(w, tid);
    SettlingKeepsOneDispatch(w, AdvanceQuietly(w, tid));
  }

  lemma ApplyKeepsOneDispatch(w: World, ev: Event)
    requires Keyed(w) && OneDispatch(w) && Enabled(w, ev)
    ensures OneDispatch(Apply(w, ev))
  {
    hide AdvanceQuietly, AdvanceRunning, AdvanceResuming, KeyOnce, ThreadOnce;
    if ev.Advance? {
      if Quiet(w.threads[ev.tid]) { QuietKeepsOneDispatch(w, ev.tid); }
      else if w.threads[ev.tid].Running? { RunningKeepsOneDispatch(w, ev.tid); }
      else { ResumingKeepsOneDispatch(w, ev.tid); }
    } else {
      SettlingKeepsOneDispatch(w, Apply(w, ev));
    }
  }
}
