/** What one step of an execution leaves alone. */
module ActionLocality {
  import opened Options
  import opened Statuses
  import opened ActionRequests
  import opened ActionStores
  import opened ApprovalStores
  import opened Coordination

  /**
   Every other record is untouched, no other key is new, what was dispatched stays dispatched, and
   whatever else was carries the request.
   */
  ghost predicate Local(s: Shared, t: Shared, r: Request) {
    && (forall i :: i in s.store.records && i != r.actionId ==>
         i in t.store.records && t.store.records[i] == s.store.records[i])
    && (forall k :: k in s.store.byKey ==> k in t.store.byKey && t.store.byKey[k] == s.store.byKey[k])
    && (forall k :: k in t.store.byKey ==> k in s.store.byKey || k == r.key)
    && |s.trace| <= |t.trace| && t.trace[..|s.trace|] == s.trace
    && (forall i :: |s.trace| <= i < |t.trace| ==> Carries(t.trace[i], r))
  }

  /** The call of the gateway was made for the request: under its key, to its tool, with its arguments. */
  ghost predicate Carries(d: Dispatch, r: Request) {
    d.key == r.key && d.actionId == r.actionId && d.toolId == r.tool.toolId && d.arguments == r.arguments
  }

  /** The same of the store alone. */
  ghost predicate LocalWrite(s: Store, t: Store, id: nat, key: string) {
    && (forall i :: i in s.records && i != id ==> i in t.records && t.records[i] == s.records[i])
    && (forall k :: k in s.byKey ==> k in t.byKey && t.byKey[k] == s.byKey[k])
    && (forall k :: k in t.byKey ==> k in s.byKey || k == key)
  }

  lemma ClaimIsLocal(s: Store, r: Request)
    requires WellKeyed(s)
    ensures LocalWrite(s, Claimed(s, r).0, r.actionId, r.key)
  {
    hide RequestDigest;
  }

  lemma UpdateIsLocal(s: Store, id: nat, key: string, ending: Ending)
    requires id in s.records
    ensures LocalWrite(s, Updated(s, id, ending.status, ending.result, ending.truth), id, key)
  {
  }

  lemma StepWritesLocally(s: Shared, r: Request, e: Answers, approval: Option<nat>, kept: bool, pc: Pc)
    requires WellKeyed(s.store)
    ensures LocalWrite(s.store, Execute1(s, r, e, approval, kept, pc).0.store, r.actionId, r.key)
  {
    hide PlanFor, Created, Conclude, Claimed, Updated, Refused, WellKeyed;
    match pc
    case Claiming =>
      hide LocalWrite;
      ClaimIsLocal(s.store, r);
    case Writing(ending) =>
      if r.actionId in s.store.records { UpdateIsLocal(s.store, r.actionId, r.key, ending); }
    case Committing(truth, effects) =>
      if r.actionId in s.store.records {
        UpdateIsLocal(s.store, r.actionId, r.key, Ending(Executing, Some(truth), Some(Intended(effects))));
      }
    case _ =>
  }

  lemma StepTracesLocally(s: Shared, r: Request, e: Answers, approval: Option<nat>, kept: bool, pc: Pc)
    requires WellKeyed(s.store)
    ensures var t := Execute1(s, r, e, approval, kept, pc).0;
      || t.trace == s.trace
      || t.trace == s.trace + [DispatchOf(r, e, approval)]
  {
    hide PlanFor, Created, Conclude, Claimed, Updated, Refused;
  }

  lemma StepIsLocal(s: Shared, r: Request, e: Answers, approval: Option<nat>, kept: bool, pc: Pc)
    requires WellKeyed(s.store)
    ensures var t := Execute1(s, r, e, approval, kept, pc).0;
      Local(s, t, r) && |t.trace| <= |s.trace| + 1
  {
    hide Execute1, WellKeyed;
    StepWritesLocally(s, r, e, approval, kept, pc);
    StepTracesLocally(s, r, e, approval, kept, pc);
  }
}
