/** Power requests that name a common resource exclude each other while they hold their locks. */
module PowerExclusion {
  import opened Options
  import opened Ordering
  import opened ActionRequests
  import opened ApprovalStores
  import ActionExclusion
  import ActionRuns
  import LockRuns
  import ResourceLocks

  /**
   Built by `ActionRequest.create` for a power tool, with no lock scopes of the caller's own. A
   request rebuilt from its approval is given its scopes, and is such a request all the same.
   */
  ghost predicate PowerRequest(r: Request, tool: Tool, args: Arguments, g: Given) {
    && ResolveSafetySpec(tool).Some? && ResolveSafetySpec(tool).value.PowerSpec?
    && g.lockScopes == []
    && CreateRequest(tool, args, g) == Some(r)
  }

  ghost predicate NamesResource(args: Arguments, id: string) {
    ResourceValues(args).Some? && id in ResourceValues(args).value
  }

  lemma ScopesAreCanonical(spec: SafetySpec, args: Arguments)
    requires Scopes(spec, args).Some?
    ensures ResourceLocks.Canonical(Scopes(spec, args).value)
  {
  }

  /** The keys a request locks are its scopes; they ascend and cover every resource it names. */
  lemma PowerRequestLocksItsResources(r: Request, tool: Tool, args: Arguments, g: Given, id: string)
    requires PowerRequest(r, tool, args, g) && NamesResource(args, id)
    ensures var keys := ResourceLocks.LockKeys(SortedSet(r.lockScopes));
      && keys == r.lockScopes && Ascending(keys) && "resource:" + id in keys
  {
    ScopeNamesResource(args, id);
    ScopesAreCanonical(ResolveSafetySpec(tool).value, args);
    ResourceLocks.CanonicalKeysAscend(r.lockScopes);
    SortedSetKeepsAscending(r.lockScopes);
  }

  /**
   In any interleaving of lock attempts, two power requests whose arguments share a resource are
   never both between acquire and release, whatever tools they call.
   */
  lemma PowerRequestsExclude(requests: seq<Request>, schedule: LockRuns.Schedule, i: nat, j: nat, id: string,
                             toolI: Tool, argsI: Arguments, givenI: Given, toolJ: Tool, argsJ: Arguments, givenJ: Given)
    requires i < |requests| && j < |requests| && i != j
    requires forall k :: 0 <= k < |requests| ==> ResourceLocks.Canonical(requests[k].lockScopes)
    requires PowerRequest(requests[i], toolI, argsI, givenI) && NamesResource(argsI, id)
    requires PowerRequest(requests[j], toolJ, argsJ, givenJ) && NamesResource(argsJ, id)
    ensures var attempts := LockRuns.Run(Keys(requests), schedule).attempts;
      !(attempts[i].phase.Entered? && attempts[j].phase.Entered?)
  {
    hide Scopes, ResourceValues;
    PowerRequestLocksItsResources(requests[i], toolI, argsI, givenI, id);
    PowerRequestLocksItsResources(requests[j], toolJ, argsJ, givenJ, id);
    LockRuns.SharedScopeExcludes(Keys(requests), schedule, i, j, "resource:" + id);
  }

  lemma RebuiltIsPowerRequest(
    r: Request, tool: Tool, args: Arguments, g: Given, id: nat, challengeId: nat, issuedAt: int, expiresAt: int,
    identity: Option<string>, hasRefresher: bool, hasVerifier: bool
  )
    returns (h: Given)
    requires PowerRequest(r, tool, args, g) && r.principal.Some?
    ensures var a := ApprovalFor(r, id, challengeId, issuedAt, expiresAt);
      var again := Rebuild(a, tool, a.household, identity, hasRefresher, hasVerifier);
      again.Some? && PowerRequest(again.value, tool, JsonArguments(args), h)
    ensures forall resource :: NamesResource(args, resource) <==> NamesResource(JsonArguments(args), resource)
  {
    hide Scopes, ResourceValues, ResolveSafetySpec;
    var a := ApprovalFor(r, id, challengeId, issuedAt, expiresAt);
    ApprovalKeepsIdentity(tool, args, g, id, challengeId, issuedAt, expiresAt, identity, hasRefresher, hasVerifier);
    StoredArgumentsNameTheSameScopes(r.spec.value, args);
    StoredArgumentsNameTheSameResources(args);
    h := Given(a.actionId, a.key, a.household, a.household, identity, a.resourceIds, a.preconditions,
               hasRefresher, hasVerifier, Some(a.challengeId), []);
    var again := Rebuild(a, tool, a.household, identity, hasRefresher, hasVerifier).value;
    assert again.resourceIds == r.resourceIds by { assert RequestDigest(again) == RequestDigest(r); }
    assert CreateRequest(tool, JsonArguments(args), h).value.lockScopes == again.lockScopes;
  }

  /**
   In every run of the whole system, two power executions whose arguments share a resource, each
   original or resumed, are never both inside their locked sections.
   */
  lemma PowerExecutionsExclude(
    kept: bool, events: seq<ActionRuns.Event>, t: nat, u: nat, id: string, toolT: Tool, argsT: Arguments, givenT: Given,
    toolU: Tool, argsU: Arguments, givenU: Given
  )
    requires var ts := ActionRuns.Run(kept, events).threads;
      && t in ts && u in ts && t != u && ts[t].Running? && ts[u].Running?
      && PowerRequest(ts[t].r, toolT, argsT, givenT) && NamesResource(argsT, id)
      && PowerRequest(ts[u].r, toolU, argsU, givenU) && NamesResource(argsU, id)
    ensures var ts := ActionRuns.Run(kept, events).threads;
      !(ActionExclusion.Inside(ts[t]) && ActionExclusion.Inside(ts[u]))
  {
    hide ActionRuns.Run, PowerRequest, NamesResource;
    var ts := ActionRuns.Run(kept, events).threads;
    PowerRequestLocksItsResources(ts[t].r, toolT, argsT, givenT, id);
    PowerRequestLocksItsResources(ts[u].r, toolU, argsU, givenU, id);
    if ActionExclusion.Inside(ts[t]) {
      ActionExclusion.SharedScopeExcludesExecutions(kept, events, t, u, "resource:" + id);
    }
  }

  /** What each request locks, in the order it locks it. */
  ghost function Keys(requests: seq<Request>): (r: seq<seq<string>>)
    requires forall k :: 0 <= k < |requests| ==> ResourceLocks.Canonical(requests[k].lockScopes)
    ensures |r| == |requests|
    ensures forall k :: 0 <= k < |requests| ==> r[k] == ResourceLocks.LockKeys(SortedSet(requests[k].lockScopes))
    ensures forall keys :: keys in r ==> Ascending(keys)
  {
    var r := seq(|requests|,
      k requires 0 <= k < |requests| => ResourceLocks.LockKeys(SortedSet(requests[k].lockScopes)));
    assert forall k :: 0 <= k < |requests| ==> Ascending(r[k]) by {
      forall k | 0 <= k < |requests| ensures Ascending(r[k]) {
        ResourceLocks.CanonicalKeysAscend(requests[k].lockScopes);
      }
    }
    r
  }
}
