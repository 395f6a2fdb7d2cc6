# A model of the household control plane

The control plane carries out household actions, speaks announcements and forwards notifications. What
its parts have in common is one promise: *an effect that may have started is never silently repeated,
and nothing promised is silently lost.* This project models the parts that make that promise and proves
it over every run.

**The action coordinator** (`action.py`). `ActionRequests` is what a caller asks for and its digest;
`Truths` is observed state, preconditions and evidence; `ActionStores` and `ApprovalStores` are the
idempotency records and the continuations that wait for a confirmation, each as a specification function
and as a class updated in place. `Coordination` splits `execute` and `approve_pending` at every write that
another party can see. `ActionRuns` lets any number of such calls interleave over one durable store and one
table of scope locks, each `acquire` and `release` a step of its own, with crashes and `recover_incomplete`
between any two steps; policy, refreshers, verifiers and the gateway answer whatever they like.
`ActionSafety`, `ActionAuthority`, `ActionExclusion`, `ActionOrigins`, `ActionSoundness`, `ApprovalFailures`
and `ApprovalWitness` say what every such run keeps, and `Conclusions` what is recorded after a call, kind by
kind. `UninterruptedCalls` is what a call computes when nothing interrupts it, and `Coordinator` is the class
itself: its methods are proved to be such runs of the machine, and to give back every lock. `Replays`, `Automations` and `EventRouter` are about a client that replays events
through it. Executions of different keys interleave freely; executions of one key do not overlap, because
the claim is read before the lock is taken (`Overlaps` shows what happens otherwise).

**The scope locks** (`action.py`). `ResourceLocks` has the in-memory lock and the session-level advisory
lock as classes. `LockRuns` interleaves attempts on the in-memory lock one `acquire` or `release` at a time,
`HashedLocks` interleaves sessions under an arbitrary hash of the scopes, and `PowerExclusion` connects both
the attempts and the executions to the requests.

**Two playback ledgers** (`alert_delivery.py`, `approval_results.py`). `SpeechLedger` and `ReplyLedger`
were written independently of each other in the source; `PlaybackLedger` is the abstract ledger that both
are proved to refine (`SpeechRuns`, `ReplyRuns`). Each store method is one row-locked transaction and so
one step. Runs allow any polls and receipts from anyone in any order.

**The vendor relay** (`waydroid_vendor_relay.py`). `VendorReports` turns notification text into reports,
`RelayOutbox` is the write-ahead outbox one step at a time, and `RelayRuns` and `RelaySafety` run those steps
over a disk with failed writes, writes that raise after they took effect, and crashes anywhere. `RelayService`
is the class, whose every state is that of such a run. `Normalizer` is the receiver
(`android_notifications.py`), and `EndToEnd` joins the two.

`Ordering`, `Timing`, `Texts`, `Uuids`, `Statuses` and `Options` hold shared vocabulary.

## What the code does that one might not expect

Each of these is proved, not repaired.

- A scope lock sorts raw strings before it prefixes them, so a request that names both a bare id and its
  prefixed form refuses itself; it does so for no other reason (`ResourceLocks.SelfBlockingExactly`).
- The advisory lock orders scopes, not the hashed keys it locks. Two requests can both be refused if and only
  if they lock two keys in opposite orders (`HashedLocks.BothAbortExactly`). Ascending scopes under a hash that
  separates them never do (`HashedLocks.OpposedOnlyByCollision`); with a collision they can
  (`HashedLocks.CollidingScopesCanAllAbort`). For any number of sessions it is enough that some order of the
  keys is followed by every request (`HashedLocks.SomeSessionSucceedsInOrder`), as it is when nothing collides
  (`HashedLocks.SomeSessionSucceeds`).
- Two executions of one request that both claim before either goes on both dispatch, one after the other and
  each under its lock (`Overlaps.OverlappingClaimsDispatchTwice`, `Overlaps.NotificationCanBeSentTwice`).
- A request whose `capability_id` is no UUID can be accepted, and then raises when its intent is read, after its
  record was written as `PLANNED` (`Replays.UnreadableCapabilityRaises`). `Replays.RaisesExactly` says when an
  execution raises.
- A stored argument that is no JSON value is resumed as its text. `Decimal("0")` asks to switch off; resumed
  under the same digest it asks to switch on (`ActionOrigins.ResumedDecimalAsksTheOpposite`). A resumed action
  asks for the same state if and only if the value has the truth of its text
  (`ActionOrigins.ResumedAsksTheSameExactly`).
- An approved action that was dispatched can still end with its approval `FAILED` and its record
  `POLICY_DENIED`: a recovery call that may not carry it out, because it brings another tool or comes
  unprepared for the child of a scene, overwrites both (`ApprovalWitness.DispatchedThenFailed`). A recovery does
  so exactly when it may not (`ApprovalFailures.RecoveryFailsExactly`), and an approval fails in no other way
  (`ApprovalFailures.FailedOnlyByMismatch`).
- A replayed request under a fresh action id whose record waits for a confirmation raises, because the
  store has no record of the new id (`Replays.ReplayChangesNothing`). Every automation of a switch can get there
  (`EventRouter.WaitingReplayRaises`), and it then keeps every automation listed after it from being reached by
  that event (`EventRouter.AutomationEventRouter.Handle`).
- A follow-up whose text never became available is due after ten minutes and expires after more than ten; it can be
  claimed at exactly ten minutes, and at no other time (`SpeechRuns.ClaimedWithoutContent`).
- A follow-up whose receipt is lost ends `ESCALATED`, not `UNKNOWN` (`SpeechRuns.LostReceiptCloses`).
- A reply already `DELIVERED` is relabelled `UNKNOWN` by a receipt that arrives after its source changed,
  and by nothing else (`ReplyRuns.DeliveredIsRelabelledExactly`); `ReplyRuns.DeliveredCanBecomeUnknown` is such
  a run.
- A reply's verdict is stored once, even when it says that the action still waits for a confirmation
  (`ReplyRuns.VerdictIsFinal`).
- The relay counts an attempt for an acknowledged delivery when writing the acknowledgement fails, and its
  bound on attempts holds whatever the clock does (`RelaySafety.AtMostNineteenAttempts`); the bound is reached
  (`RelaySafety.NineteenAttemptsCanHappen`).
- Of what the relay matches, the receiver rejects exactly the lock reports whose profile text holds a
  control character (`EndToEnd.MatchedReportIsAccepted`); such text gets through matching
  (`EndToEnd.ControlCharacterIsRefused`).

## Model

| member | source | states |
|---|---|---|
| ActionSafety.AtMostOneAcceptedDispatch | src/anima_ha/action.py:1488-1728 | over every run of executions, approvals, recoveries and crashes a key has at most one call of the gateway that was not refused, and after one its record can never be taken up again |
| ActionRuns.Run | src/anima_ha/action.py:1488-1977 | every reachable world keeps the inductive core: one record per key, ids that belong to their keys, no two active executions of one key, and at most one accepted dispatch per key |
| ActionSafety.HappensExactly | src/anima_ha/action.py:1488-1510 | which steps a run can take: all, but for fresh numbers, one key per action id, and executions of one key that do not overlap |
| ActionRuns.OwnKeyStep | src/anima_ha/action.py:1639-1728 | one step of an execution keeps the count of accepted dispatches of its key at most one, and knows it to be zero until it dispatches |
| ActionRuns.OtherKeyUntouched | src/anima_ha/action.py:1488-1825 | a step for one key neither dispatches for another key nor reopens its record |
| ActionRuns.AcceptedEndsSettled | src/anima_ha/action.py:1692-1825 | whatever is recorded after an accepted call, it is neither PLANNED nor REQUIRE_CONFIRMATION |
| Overlaps.OverlappingClaimsDispatchTwice | src/anima_ha/action.py:1488-1510 | of any two executions of one new request that both claim first and may both dispatch, each does, although they take their turn under the lock |
| Overlaps.NotificationCanBeSentTwice | src/anima_ha/action.py:1488-1510 | a concrete notification that is accepted twice under one key |
| ActionSafety.NothingInFlightAfterRecovery | src/anima_ha/action.py:618-640 | after a recovery in any run no record is PLANNED or EXECUTING |
| ActionStores.RecoveryLeavesNothingInFlight | src/anima_ha/action.py:618-640 | EXECUTING becomes UNKNOWN_RESULT, PLANNED becomes RECOVERY_REQUIRED, everything else is untouched, and recovering twice is recovering once |
| ActionStores.ClaimSeparatesDigests | src/anima_ha/action.py:561-574 | the second claim of a key changes nothing; it is a duplicate if and only if the digests agree and a conflict if and only if they differ |
| ActionStores.RecordsTell | src/anima_ha/action.py:561-601 | a new claim plans the action of its request, and an update changes status, result and truth alone |
| ActionStores.InMemoryActionStore.Claim | src/anima_ha/action.py:561-574 | the dictionaries updated in place are those of the claim specification |
| ActionStores.InMemoryActionStore.Update | src/anima_ha/action.py:576-601 | overwrites status, result and truth of a known id, keeps the old truth when none is given, and writes nothing for an unknown id |
| ActionStores.InMemoryActionStore.RecoverIncomplete | src/anima_ha/action.py:618-640 | recovers the whole store and returns exactly the records that were in flight, recovered |
| ActionStores.InMemoryActionStore.RecordEffects | src/anima_ha/action.py:642-647 | appends one numbered row per piece of evidence, in order, and changes no earlier row |
| ActionStores.ListedExactly | src/anima_ha/action.py:642-647 | an outcome lists its evidence, the connector's evidence what the connector listed, and nothing else lists effects |
| ActionAuthority.DispatchesExactly | src/anima_ha/action.py:1504-1638 | an execution goes on to the connector if and only if it holds its locks, has the state it needs, meets every mandatory and requested precondition, names its capability, if any, by a UUID, is allowed by policy, and the requested state is not already there |
| ActionAuthority.StopsExactly | src/anima_ha/action.py:1504-1638 | every reason not to dispatch is recorded under its own status, and that status is recorded only for that reason; only an intent that cannot be read, exactly when the execution comes to read it, ends without one; an approval is asked for exactly when policy wants a confirmation, approvals are kept and the envelope can be kept |
| ActionAuthority.DispatchIsAuthorized | src/anima_ha/action.py:1504-1685 | over every run, each dispatch was made by an execution whose attempt on its locks was granted in the table of the run and for which all of that held |
| ActionExclusion.AlwaysExclusive | src/anima_ha/action.py:1238-1253 | over every run of the whole system no lock is held by two executions, and an execution holds all its locks from the grant until it starts to give them back |
| ActionExclusion.SharedScopeExcludesExecutions | src/anima_ha/action.py:1502-1510 | of two executions that share a scope at most one is inside its `with` block, and the other does not even hold that lock |
| ActionExclusion.DispatchHoldsItsLocks | src/anima_ha/action.py:1639-1691 | at every dispatch the execution holds all its locks, and no other execution between its EXECUTING mark and its terminal write names one of them |
| ActionAuthority.MandatoryMeansKnown | src/anima_ha/action.py:348-354 | the mandatory preconditions of a power action hold if and only if every observed key is KNOWN |
| Truths.AllMatchExactly | src/anima_ha/action.py:121-134 | the preconditions hold if and only if each key was observed with the expected state and version, where one is given, and with the expected value, where there is one, truth values counting as 0 and 1 |
| Truths.DesiredExactly | src/anima_ha/action.py:356-366 | on is asked for exactly by a value that counts as true, off by one that counts as false, and nothing without the argument |
| Truths.EffectsExactly | src/anima_ha/action.py:356-366 | a power call is expected to bring every key that was read to the state asked for, once each and in order, and nothing when it asks for none; a notification is expected to be accepted |
| ActionRequests.FalsyExactly | src/anima_ha/action.py:361 | the values that count as false |
| ActionSoundness.SuccessWasObserved | src/anima_ha/action.py:1614-1638 | over every run, a SUCCEEDED power record was written for a request with its digest, has a non-empty set of expected effects, and its stored truth shows every expected key KNOWN with the value that request asked for; the stored arguments ask for that value if and only if they were stored with the truth of their text |
| ActionSoundness.PartialIsMixed | src/anima_ha/action.py:1776-1789 | a PARTIAL power record shows the requested value for some expected keys and not for others |
| ActionSoundness.FailureWasObserved | src/anima_ha/action.py:1790-1798 | a VERIFICATION_FAILED power record shows the requested value nowhere and some expected key KNOWN to differ |
| ActionSoundness.ConclusionExactly | src/anima_ha/action.py:1692-1825 | after a call that reached the connector, SUCCEEDED, VERIFICATION_FAILED and FAILED are decided by the state read afterwards and by whether the call was conclusive, each with its exact condition; a raised call is never FAILED |
| Conclusions.RefusalsAreRecorded | src/anima_ha/action.py:1692-1710 | a call refused by policy is recorded under the status of the refusal, over the state read before |
| Conclusions.NotificationConcludesExactly | src/anima_ha/action.py:290-320 | a notification is recorded SUCCEEDED if and only if the provider accepted it and the state could be read again where there is a refresher; otherwise it is UNKNOWN_RESULT, or FAILED exactly when the call ended conclusively without success |
| Conclusions.QueryConcludesExactly | src/anima_ha/action.py:1711-1825 | a query without verification is SUCCEEDED exactly on a conclusive success, with what the connector reported, UNKNOWN_RESULT on an inconclusive call and FAILED on a conclusive failure |
| Conclusions.VerifierConcludesExactly | src/anima_ha/action.py:1420-1436 | with a custom verifier its verdict decides, over its own evidence or, when it gives none, over what was observed |
| ActionSoundness.StoredArgumentsAskTheSameExactly | src/anima_ha/action.py:356-366 | the arguments stored as JSON ask for the same power state if and only if the value that says on or off has the truth of its text |
| Truths.ObservedMeans | src/anima_ha/action.py:1437-1486 | verification against observation is VERIFIED if and only if every expected key shows the requested state, and FAILED if and only if none does and some key is known to differ |
| Truths.VerifyObserved | src/anima_ha/action.py:1437-1486 | the loop over the expected effects computes the verdict and one piece of evidence per effect |
| ActionSafety.DecisionIsFinal | src/anima_ha/action.py:890-941 | between any two moments of a run an approval changes only in status, decision and outcome; a decision never changes, and the approval is never pending again |
| ActionSafety.NextIsLater | src/anima_ha/action.py:890-941 | in each step REJECTED and EXPIRED stay, and FAILED is reached only from APPROVED |
| ActionSafety.DecidedOnceByTheNamedPrincipal | src/anima_ha/action.py:890-931 | every decided approval was claimed exactly once, by its named household and principal, strictly before it expired, with the recorded choice |
| ActionSafety.DispatchedOnlyIfApproved | src/anima_ha/action.py:1916-1977 | no dispatch is attributable to an approval that is pending, rejected or expired |
| ApprovalFailures.FailedOnlyByMismatch | src/anima_ha/action.py:1894-1927 | an approval is FAILED, or a call is about to write so, only after some call for it that may not carry it out: another tool, or an unready child of a scene |
| ApprovalFailures.DispatchStaysApproved | src/anima_ha/action.py:1894-1976 | without such a call, whatever was dispatched for an approval is still APPROVED |
| ApprovalFailures.RecoveryFailsExactly | src/anima_ha/action.py:1856-1927 | recovering an approved action fails the approval if and only if the call may not carry it out: another tool, or an unready child of a scene; it then overwrites the record of the action and undoes no dispatch |
| ApprovalWitness.DispatchedThenFailed | src/anima_ha/action.py:1894-1927 | a concrete run in which an accepted dispatch ends with a FAILED approval and a POLICY_DENIED record |
| ApprovalStores.InMemoryPendingApprovalStore.Create | src/anima_ha/action.py:845-874 | stores the continuation of the request and the request beside it |
| ApprovalStores.InMemoryPendingApprovalStore.Claim | src/anima_ha/action.py:890-931 | decides only a pending approval, for its named principal, before expiry; any other claim can only expire it |
| ApprovalStores.ClaimsExactly | src/anima_ha/action.py:890-931 | a claim succeeds if and only if the approval is pending, the claimer is the named principal of its household, and it is before expiry; a failed one expires exactly what is due and changes nothing else |
| ApprovalStores.ContinuationKeeps | src/anima_ha/action.py:845-874 | a new continuation keeps for whom and until when it waits and everything its action needs, and is pending and undecided |
| UninterruptedCalls.CallDecidesExactly | src/anima_ha/action.py:1827-1970 | an approval call goes on to an execution if and only if it names an approval of its household and principal that is pending in time or, in recovery, approved, says APPROVE and brings the approved tool and what the child of a scene needs; any other call that takes an approval up denies the action, and one that takes none up writes no record |
| ApprovalStores.InMemoryPendingApprovalStore.Complete | src/anima_ha/action.py:933-941 | overwrites status and outcome of one approval and nothing else |
| ApprovalStores.RebuiltRequest | src/anima_ha/action.py:1942-1969 | the request rebuilt from a stored approval is the original one, but for the stored form of its arguments and what the caller supplies |
| ApprovalStores.ApprovalKeepsIdentity | src/anima_ha/action.py:1942-1969 | a request rebuilt from its stored approval and the same tool has the same digest, id, key, lock scopes and safety rules |
| ActionOrigins.AlwaysOrigins | src/anima_ha/action.py:845-874 | over every run each approval stays a copy of the request it was created from, whose digest the action store has for its key |
| ActionOrigins.ResumedClaimIsDuplicate | src/anima_ha/action.py:1942-1970 | whatever happened in between, the claim of a resumed approval is a duplicate of its own record and never a conflict |
| ActionOrigins.DispatchedAsClaimed | src/anima_ha/action.py:1661-1691 | over every run, each call of the gateway carries the tool and the arguments that its key was claimed for |
| ActionOrigins.ResumedAsksTheSameExactly | src/anima_ha/action.py:1942-1970 | a resumed action has the digest of the original one, and asks for the same power state if and only if the stored value has the truth of its text |
| ActionOrigins.ResumedDecimalAsksTheOpposite | src/anima_ha/action.py:356-366 | a concrete request to switch off that, stored and resumed under the same digest, asks to switch on |
| ActionRequests.JsonIsStable | src/anima_ha/action.py:808-822 | storing a stored argument value again changes nothing |
| ActionRequests.StoredArgumentsNameTheSameResources | src/anima_ha/action.py:217-223 | stored arguments name the same resources as the original ones |
| ActionRequests.StoredArgumentsNameTheSameScopes | src/anima_ha/action.py:335-346 | stored arguments resolve to the same lock scopes as the original ones |
| ActionRequests.StoredExactly | src/anima_ha/action.py:808-822 | storing makes text of ids and foreign objects and lists of tuples, item by item, and leaves every other value as it is |
| ActionRequests.DigestsAgreeExactly | src/anima_ha/action.py:248-263 | two requests have one digest if and only if they agree on household, tool, version, stored arguments, resources, preconditions, lock scopes and safety profile |
| ActionRequests.CreatesExactly | src/anima_ha/action.py:205-246 | when a request is refused, and that a created one keeps what it was given, has its resources ascending, and locks the scopes given, else those of its safety rules, else its resources |
| ActionRequests.ResourcesAreNamed | src/anima_ha/action.py:217-223 | the resources are exactly the UUIDs that the arguments name, and one that is no UUID refuses the request |
| ActionRequests.IntegersRead | src/anima_ha/action.py:217-223 | a number given for a resource is read as its sign and decimal digits |
| ActionRequests.DecimalReads | src/anima_ha/action.py:217-223 | these digits spell the number, without a leading zero |
| ActionRequests.SafetyRulesExactly | src/anima_ha/action.py:265-333 | which tools get the rules for power, for notifications, or none |
| ActionRequests.PowerScopesExactly | src/anima_ha/action.py:335-346 | the scopes are those of the named resources and, with a capability, that capability of the first of them; only a capability that is no UUID refuses them |
| Ordering.SortedSet | src/anima_ha/action.py:242 | the sorted tuple of a set is ascending and has exactly its elements |
| Coordinator.ActionExecutionCoordinator.Execute | src/anima_ha/action.py:1488-1825 | the whole new state of stores and trace after a call, whether it returns or raises, as an uninterrupted run of the machine; every lock is given back on every path |
| Coordinator.ActionExecutionCoordinator.ApprovePending | src/anima_ha/action.py:1827-1977 | the same for an approval call; a result it returns is the outcome it recorded for the approval, and a call that returns nothing neither wrote a record nor dispatched |
| Coordinator.ActionExecutionCoordinator.Decide | src/anima_ha/action.py:1504-1638 | the cascade of checks, read in the source's order and with the parse of the capability that can raise, is the plan that the machine follows |
| Coordinator.ActionExecutionCoordinator.Settle | src/anima_ha/action.py:1692-1825 | the cascade after the call is the conclusion that the machine records |
| Coordinator.ActionExecutionCoordinator.Failures | src/anima_ha/action.py:1548-1552 | the failed keys are exactly those of the preconditions the state does not meet |
| Coordinator.ActionExecutionCoordinator.Terminal | src/anima_ha/action.py:1365-1385 | writes the record, and one numbered effect row for each entry of the effects list of its result, also of a result that the connector reported |
| Coordinator.ActionExecutionCoordinator.UnderLock | src/anima_ha/action.py:1502-1510 | the lock is granted exactly when its keys are distinct and free, and on every path, the one that ends in an exception included, the table is as before afterwards |
| UninterruptedCalls.CarriedOut | src/anima_ha/action.py:1488-1825 | an execution that nothing interrupts reaches exactly the state of its steps, locking and unlocking included, taken one by one |
| UninterruptedCalls.ApprovedAlone | src/anima_ha/action.py:1827-1977 | so does an approval call, the execution it hands over to and the closing of the approval included |
| Coordinator.ActionExecutionCoordinator.RecoverIncomplete | src/anima_ha/action.py:618-640 | the recovery of the store is one more event in the run of the object |
| Coordinator.ServedAtMostOnce | src/anima_ha/action.py:1488-1977 | whatever calls and recoveries the coordinator object has served, no key had two accepted dispatches, and after one its record can never be taken up again |
| Replays.ReplayChangesNothing | src/anima_ha/action.py:1488-1500 | a known key under a fresh action id dispatches nothing and writes no record: it is a conflict, the recorded result, or an exception, each with its exact condition |
| Replays.ResultIsRecord | src/anima_ha/action.py:1488-1728 | what an execution under a fresh action id returns is what the store then has for its key |
| Replays.RaisesExactly | src/anima_ha/action.py:1488-1561 | an execution raises if and only if its key is new or its record waits under the same digest, and either that record is known under another action id, or the execution comes to read its intent and cannot; nothing is dispatched then, and no record is written but that of a new claim |
| Replays.UnreadableCapabilityRaises | src/anima_ha/action.py:1338-1344 | a request that was accepted, raises under a new key whatever the policy says, and leaves a PLANNED record |
| ActionRequests.ResolvedScopesReadTheIntent | src/anima_ha/action.py:335-346 | a power request for some resource, created without scopes of its own, can always read its intent |
| EventRouter.WaitingReplayRaises | src/anima_ha/automations.py:509-533 | for every automation of a switch: when its action waits for a confirmation, the same event replayed under a new action id raises |
| EventRouter.EditedReplayHasNoEffect | src/anima_ha/automations.py:476-550 | an event replayed after an edit has no second effect; it is a conflict if and only if the edit changed the resource or the state to set |
| EventRouter.EventActsOnce | src/anima_ha/automations.py:509-527 | each automation acts at most once on each event, and no dispatch counts for two pairs of them |
| EventRouter.RequestAsksAsConfigured | src/anima_ha/automations.py:509-526 | what a fired automation asks for: its one resource, on if it is to be on and off if off, as sent and as recorded, for its creator and without preconditions |
| EventRouter.FiredExactly | src/anima_ha/automations.py:476-489 | an event fires exactly the enabled automations of the household whose trigger resource it resolves to and whose trigger state its value says |
| EventRouter.AutomationEventRouter.Handle | src/anima_ha/automations.py:476-550 | fires exactly the enabled, matching automations in listed order, looking up the tool of each, reports for each what the store has, touches no older record, and records and dispatches only keys this event never used, each for the resource and the state its automation asks for; it raises if and only if some of them blocks: its tool is there and its record for this event waits under the digest it would have now; it raises at the first of these, with everything before it reported and nothing after it reached |
| EventRouter.AutomationEventRouter.Act | src/anima_ha/automations.py:488-533 | one firing reports the record of its own key, raises exactly when its record waits under the same digest, and leaves the ids drawn for the others unused |
| EventRouter.FiringNames | src/anima_ha/automations.py:484-489 | what fires is exactly what is listed, enabled and triggered |
| Automations.KeyNamesItsEvent | src/anima_ha/automations.py:510 | the idempotency key determines automation and event, whatever an event id contains |
| Automations.EditChangesDigestExactly | src/anima_ha/automations.py:509-526 | two versions of an automation have the same request digest for an event if and only if they control the same resource to the same state |
| Automations.StaleEditIsRefused | src/anima_ha/automations.py:266-295 | of two edits that expect one version only the first is applied; a refused edit changes nothing |
| Automations.EditAppliesExactly | src/anima_ha/automations.py:266-295 | when an edit is refused and why, and that an applied one changes exactly the edited fields and the version |
| Automations.InMemoryAutomationStore.List | src/anima_ha/automations.py:248-252 | exactly the household's automations, in strict order of name and id |
| Automations.InMemoryAutomationStore.Update | src/anima_ha/automations.py:266-295 | the in-place update is the specified edit, error by error |
| ResourceLocks.InMemoryResourceLock.Enter | src/anima_ha/action.py:1238-1248 | all or nothing: granted if and only if the keys are distinct and free, and a refusal leaves the table as it was |
| ResourceLocks.InMemoryResourceLock.Exit | src/anima_ha/action.py:1250-1253 | releases exactly what is held |
| ResourceLocks.EnterThenExit | src/anima_ha/action.py:1238-1253 | a whole block is entered exactly when its keys are distinct and free, and leaves the table as it was, entered or refused |
| ResourceLocks.SelfBlockingExactly | src/anima_ha/action.py:1233-1241 | a request blocks itself if and only if it names a bare id and that id's prefixed form |
| ResourceLocks.CanonicalKeysAscend | src/anima_ha/action.py:1233-1241 | for canonical scopes the lock keys are the scopes, ascending and distinct |
| ResourceLocks.ResourceLock.Enter | src/anima_ha/action.py:1184-1198 | granted if and only if no other session holds a key; a refusal restores every count, also when scopes share a key |
| ResourceLocks.SessionEnterThenExit | src/anima_ha/action.py:1184-1208 | a whole block leaves every count as it was, on success and on failure |
| ResourceLocks.UnlockBackUndoesLockAll | src/anima_ha/action.py:1193-1206 | as many unlocks as locks undo each other, even when two scopes hash to one key |
| ResourceLocks.LockAllCounts | src/anima_ha/action.py:1188-1190 | each key is counted once per occurrence and no other key is touched |
| LockRuns.NoTwoHolders | src/anima_ha/action.py:1238-1253 | at every moment of every interleaving each key has at most one holder |
| LockRuns.SharedScopeExcludes | src/anima_ha/action.py:1238-1253 | two attempts that name a common scope are never both inside |
| LockRuns.SomeAttemptSucceeds | src/anima_ha/action.py:1232-1253 | once every attempt has decided, a failure anywhere means a success somewhere |
| HashedLocks.SomeSessionSucceedsInOrder | src/anima_ha/action.py:1184-1198 | for any number of requests that follow one strict order of the keys, keys they hold already aside, in every interleaving: once every session has decided, a failure anywhere means a success somewhere |
| HashedLocks.SomeSessionSucceeds | src/anima_ha/action.py:1211-1229 | the same for ascending requests under every hash that separates the scopes named |
| HashedLocks.BothAbortExactly | src/anima_ha/action.py:1184-1198 | for any two lists of keys: some interleaving refuses both if and only if two keys are locked in opposite orders |
| HashedLocks.OpposedOnlyByCollision | src/anima_ha/action.py:1211-1229 | two ascending requests lock two keys in opposite orders only when the hash makes two of their scopes one key |
| HashedLocks.CollidingScopesCanAllAbort | src/anima_ha/action.py:1211-1229 | a hash, two ascending requests and an interleaving that refuses both |
| LockRuns.AloneEntersIffFree | src/anima_ha/action.py:1238-1248 | an attempt that runs alone enters if and only if its remaining keys are free |
| LockRuns.AloneGivesBack | src/anima_ha/action.py:1243-1253 | an attempt that was refused or has left gives back everything it holds and nothing else |
| PowerExclusion.PowerRequestLocksItsResources | src/anima_ha/action.py:335-346 | a power request built without scopes of its own locks every resource its arguments name, under canonical ascending keys |
| PowerExclusion.PowerRequestsExclude | src/anima_ha/action.py:335-346 | in every interleaving of lock attempts, two power requests whose arguments share a resource are never both between acquire and release |
| PowerExclusion.RebuiltIsPowerRequest | src/anima_ha/action.py:1942-1969 | a power request rebuilt from its approval is a power request again and names the same resources, although its lock scopes are then given |
| PowerExclusion.PowerExecutionsExclude | src/anima_ha/action.py:1502-1510 | in every run of the whole system two power executions whose arguments share a resource, original or resumed, are never both inside their locked sections |
| PlaybackLedger.HistoryKeepsAtMostOne | src/anima_ha/alert_delivery.py:370-468 | in every history recorded intents minus no-start proofs is 0 or 1, and 0 while the obligation is open to a claim |
| PlaybackLedger.ClosedIsAbsorbing | src/anima_ha/alert_delivery.py:265-266 | a closed obligation stays closed |
| PlaybackLedger.ReopenedOnlyByRefutation | src/anima_ha/alert_delivery.py:75-84 | an intent returns to pending only on explicit proof that nothing started |
| SpeechRuns.RunsAreLedgerHistories | src/anima_ha/alert_delivery.py:193-468 | every run of the speech ledger is, phase by phase, a history of the abstract ledger |
| ReplyRuns.RunsAreLedgerHistories | src/anima_ha/approval_results.py:232-424 | every run of the reply ledger is a history of the same abstract ledger |
| SpeechRuns.ObligationsBegin | src/anima_ha/alert_delivery.py:87-108 | an obligation is created exactly for a required autonomous announcement, and begins pending and unclaimed |
| SpeechRuns.ReachesExactly | src/anima_ha/alert_delivery.py:198-258 | a poll reaches exactly the rows of its household whose active phase is open, unleased, due and ready or ten minutes old |
| SpeechRuns.ClaimedWithoutContent | src/anima_ha/alert_delivery.py:234-299 | a follow-up without its text is claimed at no time but exactly ten minutes after the request |
| SpeechRuns.PollDecidesExactly | src/anima_ha/alert_delivery.py:258-368 | for the phase a poll reaches, exactly when it is claimed, escalated, cancelled, made unknown or postponed, with what is then stored, and that nothing else changes but an escalation of the follow-up |
| SpeechRuns.ReceiptDecidesExactly | src/anima_ha/alert_delivery.py:411-468 | exactly which receipts are accepted from which state and on which evidence, and where each leads: a possibly started playback reopens on nothing less than the whole no-start proof |
| SpeechRuns.RefusesExactly | src/anima_ha/alert_delivery.py:370-423 | why a receipt is refused, by the first thing that is wrong with it: evidence, outcome, phase, an undelivered announcement, or the binding |
| SpeechRuns.ClaimedOnlyIfUnheard | src/anima_ha/alert_delivery.py:265-349 | no announcement that may have been heard is claimed again |
| SpeechRuns.LostReceiptCloses | src/anima_ha/alert_delivery.py:276-284 | a lost receipt closes the phase: UNKNOWN with an escalated follow-up, or ESCALATED for the follow-up itself |
| SpeechRuns.LeaseIsNotStolen | src/anima_ha/alert_delivery.py:334-349 | a live lease is never taken over, and each claim is a new generation bound to its claimer |
| SpeechRuns.ReceiptIsFenced | src/anima_ha/alert_delivery.py:411-423 | an accepted receipt carries client, instance, credential generation and token of the latest claim of its phase, whose number is the generation, within the lease |
| SpeechRuns.FollowupNeverOvertakes | src/anima_ha/alert_delivery.py:133-172 | a follow-up under way implies a delivered announcement, an UNKNOWN announcement implies an escalated follow-up, and a follow-up is created at most once |
| SpeechRuns.ClosedCanonicalStays | src/anima_ha/alert_delivery.py:265-266 | the announcement, once closed, is never written again |
| SpeechRuns.ClaimsAreSpaced | src/anima_ha/alert_delivery.py:334-349 | consecutive claims are at least the backoff apart, by lease or by retry time |
| SpeechRuns.AtMostFourteenClaims | src/anima_ha/alert_delivery.py:285-299 | with a clock that does not run backwards each phase is claimed at most 14 times |
| SpeechRuns.FourteenClaimsCanHappen | src/anima_ha/alert_delivery.py:285-299 | the bound is reached |
| SpeechRuns.NextVisitsRowsAtMostOnce | src/anima_ha/alert_delivery.py:258-368 | one poll of a table is, row by row, one visit or none, and its answer names the row it claimed, with token, phase and generation, and says whether it predates the epoch or is delayed |
| SpeechLedger.RequiredDelivery.Next | src/anima_ha/alert_delivery.py:193-368 | the loop computes the specified rows and answer, and refuses an impossible epoch without a change |
| SpeechLedger.RequiredDelivery.Transition | src/anima_ha/alert_delivery.py:370-468 | a refused receipt changes nothing; an accepted one changes its own row alone and returns its state |
| SpeechLedger.RequiredDelivery.QueueFollowup | src/anima_ha/alert_delivery.py:133-172 | queues exactly when there is an obligation that is not closed without delivery, has no follow-up yet, may have one, and the response is not blank, not too long and not the announcement over again; then only the follow-up of that row is written, pending, unclaimed and without its text |
| SpeechLedger.RequiredDelivery.ReadyFollowup | src/anima_ha/alert_delivery.py:174-191 | succeeds exactly for a pending follow-up with this digest in this household; then only its readiness changes, and otherwise nothing |
| ReplyRuns.ClaimedOnlyIfUnheard | src/anima_ha/approval_results.py:281-360 | a claimed reply was never possibly heard, is authorized, at most five minutes old, and under no live claim |
| ReplyRuns.PollDecidesExactly | src/anima_ha/approval_results.py:281-360 | exactly when a polled reply is claimed, becomes unknown, is escalated or stays pending |
| ReplyRuns.ReceiptDecidesExactly | src/anima_ha/approval_results.py:281-424 | exactly which receipts are recorded from which stage, on which evidence and by whom, where each leads, and that the answer names the stage that is stored |
| ReplyRuns.ReceiptIsFenced | src/anima_ha/approval_results.py:361-424 | an accepted receipt comes from the latest claimer within its lease |
| ReplyRuns.ClaimedForItsClient | src/anima_ha/approval_results.py:232-360 | one call hands out a reply only to the client of the household it is for, to a current member who may hear it, and over an unchanged source |
| ReplyRuns.ClaimingStepIsPermitted | src/anima_ha/approval_results.py:301-360 | over every run a step claims only for the reply's own client, a current member who may hear it, and an unchanged source |
| ReplyRuns.VerdictIsFinal | src/anima_ha/approval_results.py:115-210 | a resolved approval's verdict is stored once and never changes |
| ReplyRuns.ResolvesExactly | src/anima_ha/approval_results.py:115-210 | a reply is stored if and only if none is, the request waits and the action is at rest; each result and each lifecycle is told for exactly the statuses it stands for |
| ReplyRuns.DeliveredIsRelabelledExactly | src/anima_ha/approval_results.py:281-300 | DELIVERED becomes UNKNOWN if and only if a receipt arrives after the stored source changed |
| ReplyRuns.DeliveredCanBecomeUnknown | src/anima_ha/approval_results.py:281-424 | a concrete run that reaches DELIVERED and one receipt later UNKNOWN |
| ReplyRuns.DeliveryVisitsRowsAtMostOnce | src/anima_ha/approval_results.py:281-424 | one call visits each row once or not at all, and a claim names the row it made and its generation |
| ReplyLedger.ApprovalResults.Resolve | src/anima_ha/approval_results.py:115-210 | changes the one associated row as specified, and nothing when the association is missing or ambiguous |
| ReplyLedger.ApprovalResults.Delivery | src/anima_ha/approval_results.py:232-424 | the loop over locked rows computes the specified rows and response |
| RelayRuns.AlwaysLoadable | scripts/waydroid_vendor_relay.py:282-374 | from any loadable snapshot every snapshot ever written is loadable again, and the outbox never exceeds 80 entries |
| RelayOutbox.LoadsExactly | scripts/waydroid_vendor_relay.py:327-359 | a snapshot loads if and only if it has at most 80 entries of allowed packages under UUIDs, each with a storable report exactly while it is pending |
| RelayRuns.FullOutboxRefusesExactly | scripts/waydroid_vendor_relay.py:480-507 | a report is taken if and only if fewer than 64 obligations are open and the write succeeds; a refusal is counted, no open obligation is ever displaced, and a write that raised after its rename is on disk |
| RelayRuns.CompactsExactly | scripts/waydroid_vendor_relay.py:524-534 | of the acknowledged entries at most sixteen are kept, none older than a day, and all that are not when there are fewer |
| RelayRuns.NothingReturnedIsLost | scripts/waydroid_vendor_relay.py:471-662 | over every run with failures and crashes, an id that receive returned is in the outbox, in memory and on disk, or a POST of it was answered with a durable receipt that names it |
| RelayRuns.DrainIsFourSteps | scripts/waydroid_vendor_relay.py:598-662 | a whole drain is one pass through sweep, arm, send and settle |
| RelaySafety.PostedIsNeverEscalated | scripts/waydroid_vendor_relay.py:598-661 | whatever was ever posted is marked as attempted, is not called clearly unsent in memory or on disk, and expires to UNKNOWN |
| RelaySafety.SweepRelabelsExactly | scripts/waydroid_vendor_relay.py:598-610 | expiry relabels exactly what is pending for over an hour: UNKNOWN if attempted, ESCALATED if not |
| RelaySafety.AnswerDecidesExactly | scripts/waydroid_vendor_relay.py:627-662 | after an answered POST the delivery is acknowledged if and only if the answer was a durable receipt that names it, part by part; otherwise it stays pending with one more attempt and a later due time, and nothing else changes |
| RelaySafety.DeliveryCanBeAcknowledged | scripts/waydroid_vendor_relay.py:471-662 | any storable report can be taken, sent and acknowledged in one call |
| RelaySafety.ResendsAreIdentical | scripts/waydroid_vendor_relay.py:613-626 | every resend of a delivery carries the report it was filed with |
| RelaySafety.AtMostNineteenAttempts | scripts/waydroid_vendor_relay.py:656-662 | no delivery records more than 19 attempts, whatever the clock does and however often a crash forgets one |
| RelaySafety.NineteenAttemptsCanHappen | scripts/waydroid_vendor_relay.py:656-662 | the bound is reached, by any storable report from an empty disk |
| Timing.RelayTriesBounded | scripts/waydroid_vendor_relay.py:656-659 | nineteen delays of the relay's backoff exceed one hour |
| RelayService.Relay.Load | scripts/waydroid_vendor_relay.py:327-359 | starts over the given snapshot if and only if it has at most 80 entries and each of them passes its checks; without a snapshot the outbox is empty |
| RelayService.Relay.Restart | scripts/waydroid_vendor_relay.py:282-374 | a new process over the disk of one that died goes on with the same history, from the snapshot alone and with new notification numbers |
| RelayService.Relay.Receive | scripts/waydroid_vendor_relay.py:471-508 | the object stays in a state of its run, which is that of arriving and draining; an id is returned only for a delivery that is on disk or was answered with a receipt |
| RelayService.Relay.Drain | scripts/waydroid_vendor_relay.py:598-662 | the in-place outbox and the snapshot change as the four steps of the run say, failure by failure |
| RelayService.Relay.Notify | scripts/waydroid_vendor_relay.py:510-517 | the outbox and the snapshot are those of the receive it makes; a new notification gets a number never in use, a replacement keeps its number |
| RelayService.ObjectKeepsItsPromises | scripts/waydroid_vendor_relay.py:282-662 | over all calls and restarts of the object: its snapshot loads, no returned id is lost, no delivery records more than 19 attempts, and nothing that was posted is called clearly unsent |
| VendorReports.Match | scripts/waydroid_vendor_relay.py:209-261 | the first matching rule decides, and unmatched text is discarded |
| VendorReports.MatchReportExactly | scripts/waydroid_vendor_relay.py:209-261 | a report is made for the first rule of the package one of whose alias terms and one of whose event terms occur in the text, says exactly what that rule and the call give it, and else there is none |
| VendorReports.ProfileExactly | scripts/waydroid_vendor_relay.py:243-249 | the profile is what follows the first place of the marker, single-spaced, without punctuation around it and at most 80 characters long |
| VendorReports.NoProfileExactly | scripts/waydroid_vendor_relay.py:243-249 | without the marker in the text there is no profile |
| VendorReports.StorableExactly | scripts/waydroid_vendor_relay.py:553-596 | a kept report has exactly the fields of its package, its own id, and small values |
| VendorReports.MatchedReportIsStorable | scripts/waydroid_vendor_relay.py:536-596 | whatever a loaded rule matches passes the checks made on a stored delivery |
| Normalizer.RetryIsDuplicate | src/anima_ha/android_notifications.py:198-204 | receipt time decides only freshness: a retry has the same disposition, event id and digest |
| Normalizer.DifferentIdsAreDistinct | src/anima_ha/android_notifications.py:198-204 | reports filed under different ids are never taken for one event |
| Normalizer.ChangedReportConflicts | src/anima_ha/android_notifications.py:198-204 | two accepted lock reports under one id that report different kinds are a conflict |
| Normalizer.ComparesExactly | src/anima_ha/android_notifications.py:198-204 | two deliveries are distinct, a duplicate or a conflict, exactly by their event ids and digests |
| Normalizer.SanitizeDecidesExactly | src/anima_ha/android_notifications.py:258-283 | which reports are refused for their package, their shape or their format |
| Normalizer.LockDecidesExactly | src/anima_ha/android_notifications.py:284-449 | exactly when a lock report is invalid, unmapped or accepted, and that the event then says what the report and the registration say |
| Normalizer.MotionDecidesExactly | src/anima_ha/android_notifications.py:284-449 | the same for a motion report, with the channels, summaries and kinds that are ignored |
| Texts.CollapseSeparates | src/anima_ha/android_notifications.py:107 | single-spacing a text is single-spacing its parts on either side of any whitespace and joining what is left with one space |
| Texts.StripExactly | scripts/waydroid_vendor_relay.py:248 | stripping takes characters of the set off both ends and nothing else |
| Texts.LabelsExactly | src/anima_ha/android_notifications.py:95-98 | a label is short, not empty, and of ASCII letters, digits, hyphens, dots and underscores only |
| Uuids.ParsesExactly | src/anima_ha/android_notifications.py:112-122 | which texts are UUIDs, and the one spelling each is read as |
| Uuids.DigitsExactly | src/anima_ha/android_notifications.py:112-122 | hyphens are dropped, A to F are lowered, and every other character is read as it is |
| EndToEnd.MatchedReportIsAccepted | src/anima_ha/android_notifications.py:235-449 | the normalizer accepts what the relay matches, except exactly a profile text with a control character |
| EndToEnd.ControlCharacterIsRefused | src/anima_ha/android_notifications.py:235-449 | a loaded rule and a notification text whose matched report the normalizer refuses |
| EndToEnd.ResendsAreDuplicates | scripts/waydroid_vendor_relay.py:598-662 | over every run of the relay two posts of one entry get one disposition, and are a duplicate for the receiver, whenever received |
| EndToEnd.RegistrationsCanServe | src/anima_ha/android_notifications.py:159-181 | for every rule set that can be loaded there is a valid registration for each package that knows its aliases |
| EndToEnd.PostsAreEventsOfTheirEntry | scripts/waydroid_vendor_relay.py:598-662 | over every run whose reports were matched in text with readable profiles, with any failures and crashes, and with one valid registration per package, the normalizer accepts every post, and two posts are one event for it if and only if they are of one entry |

## Left out

- Overlapping executions of one key: the claim is read before the lock, so at-most-once dispatch is stated for executions of one key that do not overlap; `Overlaps` shows that it fails for others.
- ActionSoundness.SuccessWasObserved: says nothing about records some of whose requests had a custom verifier, another safety rule or a read-only tool, because their success is not decided by observation.
- ActionSafety.AtMostOneAcceptedDispatch: counts the calls that were not refused by policy; a refused call sends nothing and may be followed by another.
- ActionOrigins.ResumedClaimIsDuplicate: for requests built by `ActionRequest.create` with the default safety rules, as the source rebuilds them; safety rules passed in by a caller are not part of this model.
- Scene children: the extra checks of `approve_pending` on the child of a saved scene are one flag of the call, which only such a child looks at; the scene refresher is the refresher of the call.
- Coordinator.ActionExecutionCoordinator.UnderLock: an exception inside the block is a returned value, because the language has none; the release after it is the same statement.
- Entries of a reported effects list that are not dictionaries: only dictionaries are listed.
- Policy engine, plugin gateway, refreshers and custom verifiers: they answer anything they like.
- Replays.RaisesExactly: speaks of calls in which the policy service, the issuer of confirmations, custom verifiers, stores and the journal answer; an exception out of one of them is an abandoned execution of a run.
- The Postgres action, approval and automation stores: only the in-memory stores are modelled; each transaction of the two playback ledgers is one step, and the row selection conditions that live in other tables are one flag of the row.
- Digests, tokens, fresh UUIDs and event ids: injective or fresh values.
- Detail texts, reason codes, time stamps and the audit journal of records: they decide nothing that is modelled.
- Nested numeric equality: Python's `==` is modelled on top-level numbers and truth values; inside containers values compare structurally.
- UUID spellings with braces, a `urn:` prefix, or digits beyond hexadecimal: not part of this model.
- Clocks are whole microseconds; rounding of floating-point time is not part of this model.
- Case folding and time stamp parsing are arbitrary functions.
- The type checks of `playback_evidence`: evidence is either valid or rejected.
- The 65536-byte cap, file permissions, capture files, contents and counters of the status file, and receipt contents of the relay: a write of the snapshot succeeds, leaves the old one, or raises with the new one in place.
- A power failure that undoes a rename which was never synced: a crash is the death of the process.
- The synthetic fixture format of the normalizer and payload projections: the relay never sends that format, and projections take no part in identifying an event.
- The ingress around the normalizer: authentication, rate limits, the ownership of the mapped resource and the journal.
- `associate` and `reconcile_request` of the approval results, the automation plugin and the notification supervisor: they depend on stores that are not modelled.
- Availability of a listed tool: an unavailable tool is a missing one.
- The guard around the in-process lock table: one `acquire` or `release` is one step.
