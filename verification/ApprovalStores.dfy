/** Durable continuations of actions that need a confirmation. */
module ApprovalStores {
  import opened Options
  import opened Statuses
  import opened Ordering
  import opened ActionRequests

  datatype ApprovalStatus = Pending | Approved | Rejected | Expired | Failed

  datatype Choice = Approve | Reject

  datatype Approval = Approval(
    approvalId: nat,
    challengeId: nat,
    actionId: nat,
    household: string,
    principal: string,
    toolId: string,
    toolVersion: string,
    arguments: Arguments,
    resourceIds: seq<string>,
    preconditions: seq<Precondition>,
    lockScopes: seq<string>,
    key: string,
    safetyProfile: Option<string>,
    issuedAt: int,
    expiresAt: int,
    status: ApprovalStatus,
    decision: Option<Choice>,
    outcome: Option<ActionStatus>
  )

  /** The store keeps the request it was created from beside each approval. */
  datatype Approvals = Approvals(records: map<nat, Approval>, requests: map<nat, Request>)

  /** The continuation of a request whose principal is known. */
  function ApprovalFor(r: Request, id: nat, challengeId: nat, issuedAt: int, expiresAt: int): Approval
    requires r.principal.Some?
  {
    Approval(id, challengeId, r.actionId, r.household, r.principal.value, r.tool.toolId, r.tool.version,
             JsonArguments(r.arguments), r.resourceIds, r.preconditions, r.lockScopes, r.key,
             if r.spec.Some? then Some(ProfileId(r.spec.value)) else None,
             issuedAt, expiresAt, Pending, None, None)
  }

  function Created(s: Approvals, r: Request, id: nat, challengeId: nat, issuedAt: int, expiresAt: int): Approvals
    requires r.principal.Some?
  {
    Approvals(s.records[id := ApprovalFor(r, id, challengeId, issuedAt, expiresAt)], s.requests[id := r])
  }

  predicate Claimable(a: Approval, household: string, principal: string, at: int) {
    a.household == household && a.principal == principal && a.status.Pending? && a.expiresAt > at
  }

  function Decide(a: Approval, choice: Choice): Approval {
    a.(status := if choice.Approve? then Approved else Rejected, decision := Some(choice))
  }

  /**
   Any caller's claim expires a pending approval whose time has come; only the named
   principal's claim decides one.
   */
  function ClaimedApproval(
    s: Approvals, id: nat, household: string, principal: string, choice: Choice, at: int
  ): (Approvals, Option<Approval>) {
    if id !in s.records then (s, None)
    else
      var a := s.records[id];
      if !Claimable(a, household, principal, at) then
        if a.expiresAt <= at && a.status.Pending? then (s.(records := s.records[id := a.(status := Expired)]), None)
        else (s, None)
      else (s.(records := s.records[id := Decide(a, choice)]), Some(Decide(a, choice)))
  }

  /**
   A claim succeeds exactly for the named principal of a pending approval strictly before expiry;
   a failed claim expires a pending approval whose time has come, and changes nothing else.
   */
  lemma ClaimsExactly(s: Approvals, id: nat, household: string, principal: string, choice: Choice, at: int)
    requires id in s.records
    ensures var (t, claimed) := ClaimedApproval(s, id, household, principal, choice, at);
      var a := s.records[id];
      && (claimed.Some? <==>
           a.status.Pending? && at < a.expiresAt && a.household == household && a.principal == principal)
      && (claimed.Some? ==>
            && t.records[id] == claimed.value
            && claimed.value.decision == Some(choice)
            && claimed.value.status == (if choice.Approve? then Approved else Rejected))
      && (claimed.None? ==>
            t.records[id] == if a.status.Pending? && a.expiresAt <= at then a.(status := Expired) else a)
      && (forall other :: other in s.records && other != id ==>
           other in t.records && t.records[other] == s.records[other])
      && t.requests == s.requests
  {
  }

  function Completed(s: Approvals, id: nat, status: ApprovalStatus, outcome: ActionStatus): Approvals {
    if id !in s.records then s
    else s.(records := s.records[id := s.records[id].(status := status, outcome := Some(outcome))])
  }

  class InMemoryPendingApprovalStore {
    var records: map<nat, Approval>
    var requests: map<nat, Request>

    constructor ()
      ensures State() == Approvals(map[], map[])
    {
      records, requests := map[], map[];
    }

    function State(): Approvals
      reads this
    {
      Approvals(records, requests)
    }

    method Create(r: Request, id: nat, challengeId: nat, issuedAt: int, expiresAt: int) returns (a: Approval)
      requires r.principal.Some?
      modifies this
      ensures State() == Created(old(State()), r, id, challengeId, issuedAt, expiresAt)
      ensures a == records[id]
    {
      a := ApprovalFor(r, id, challengeId, issuedAt, expiresAt);
      records := records[id := a];
      requests := requests[id := r];
    }

    method Get(id: nat) returns (a: Option<Approval>)
      ensures a == if id in records then Some(records[id]) else None
    {
      return if id in records then Some(records[id]) else None;
    }

    method Claim(id: nat, household: string, principal: string, choice: Choice, at: int) returns (a: Option<Approval>)
      modifies this`records
      ensures (State(), a) == ClaimedApproval(old(State()), id, household, principal, choice, at)
    {
      if id !in records {
        return None;
      }
      var current := records[id];
      if !Claimable(current, household, principal, at) {
        if current.expiresAt <= at && current.status.Pending? {
          records := records[id := current.(status := Expired)];
        }
        return None;
      }
      var updated := Decide(current, choice);
      records := records[id := updated];
      return Some(updated);
    }

    method Complete(id: nat, status: ApprovalStatus, outcome: ActionStatus)
      modifies this`records
      ensures State() == Completed(old(State()), id, status, outcome)
    {
      if id in records {
        records := records[id := records[id].(status := status, outcome := Some(outcome))];
      }
    }
  }

  // ----- resuming -----

  /**
   The request rebuilt from a stored approval. The caller supplies the tool, and may have to
   supply a refresher, a verifier and an identity.
   */
  function Rebuild(
    a: Approval, tool: Tool, identityHousehold: string, identity: Option<string>, hasRefresher: bool, hasVerifier: bool
  ): Option<Request> {
    CreateRequest(tool, a.arguments,
      Given(a.actionId, a.key, a.household, identityHousehold, identity, a.resourceIds, a.preconditions,
            hasRefresher, hasVerifier, Some(a.challengeId), a.lockScopes))
  }

  /** A stored approval is rebuilt to its request, but for what the caller supplies and JSON makes of the arguments. */
  lemma RebuiltRequest(
    tool: Tool, args: Arguments, g: Given, id: nat, challengeId: nat, issuedAt: int, expiresAt: int,
    identity: Option<string>, hasRefresher: bool, hasVerifier: bool
  )
    requires CreateRequest(tool, args, g).Some? && CreateRequest(tool, args, g).value.principal.Some?
    ensures var r := CreateRequest(tool, args, g).value;
      var a := ApprovalFor(r, id, challengeId, issuedAt, expiresAt);
      Rebuild(a, tool, a.household, identity, hasRefresher, hasVerifier) ==
        Some(r.(arguments := JsonArguments(args), principal := identity, hasRefresher := hasRefresher,
                hasVerifier := hasVerifier, challenge := Some(challengeId)))
  {
    hide ResourceValues, Scopes, ResolveSafetySpec, JsonArguments, SortedSet;
    var r := CreateRequest(tool, args, g).value;
    StoredArgumentsNameTheSameResources(args);
    if r.spec.Some? { StoredArgumentsNameTheSameScopes(r.spec.value, args); }
    var named := if g.resourceIds != [] then g.resourceIds else ResourceValues(args).value;
    EmptySortedSet(named);
    SortedSetKeepsAscending(r.resourceIds);
  }

  /**
   A request survives its approval: rebuilt with the same tool it has the same digest, the same
   locks and the same resources, so its claim is a duplicate and never a conflict.
   */
  lemma ApprovalKeepsIdentity(
    tool: Tool, args: Arguments, g: Given, id: nat, challengeId: nat, issuedAt: int, expiresAt: int,
    identity: Option<string>, hasRefresher: bool, hasVerifier: bool
  )
    requires CreateRequest(tool, args, g).Some? && CreateRequest(tool, args, g).value.principal.Some?
    ensures var r := CreateRequest(tool, args, g).value;
      var a := ApprovalFor(r, id, challengeId, issuedAt, expiresAt);
      var again := Rebuild(a, tool, a.household, identity, hasRefresher, hasVerifier);
      && again.Some?
      && RequestDigest(again.value) == RequestDigest(r)
      && again.value.actionId == r.actionId && again.value.key == r.key
      && again.value.lockScopes == r.lockScopes && again.value.spec == r.spec
  {
    hide CreateRequest, JsonArguments, Rebuild;
    RebuiltRequest(tool, args, g, id, challengeId, issuedAt, expiresAt, identity, hasRefresher, hasVerifier);
    JsonArgumentsAreStable(CreateRequest(tool, args, g).value.arguments);
    ArgumentsAreKept(tool, args, g);
  }

  lemma ArgumentsAreKept(tool: Tool, args: Arguments, g: Given)
    requires CreateRequest(tool, args, g).Some?
    ensures CreateRequest(tool, args, g).value.arguments == args
  {
  }

  lemma EmptySortedSet(xs: seq<string>)
    ensures SortedSet(xs) == [] <==> xs == []
  {
  }

  /** What is kept while an approval waits: for whom, until when, and all that its action needs. */
  lemma ContinuationKeeps(r: Request, id: nat, challengeId: nat, issuedAt: int, expiresAt: int)
    requires r.principal.Some?
    ensures var a := ApprovalFor(r, id, challengeId, issuedAt, expiresAt);
      && a.approvalId == id && a.challengeId == challengeId && a.issuedAt == issuedAt && a.expiresAt == expiresAt
      && Some(a.principal) == r.principal && a.household == r.household
      && a.actionId == r.actionId && a.key == r.key && a.toolId == r.tool.toolId && a.toolVersion == r.tool.version
      && a.arguments == JsonArguments(r.arguments) && a.resourceIds == r.resourceIds
      && a.preconditions == r.preconditions && a.lockScopes == r.lockScopes
      && a.status.Pending? && a.decision == None && a.outcome == None
      && (a.safetyProfile == None <==> r.spec == None)
      && (r.spec == Some(NotificationSpec) ==> a.safetyProfile == Some("notifications.send"))
      && (r.spec.Some? && r.spec.value.PowerSpec? ==> a.safetyProfile == Some(r.spec.value.profile))
  {
  }
}
