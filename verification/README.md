# GoBroom verification model

A Dafny model of the parts of GoBroom that decide what happens to a request: the dispatch and
replay kernel, the artifact spool and its per-response budget, the authorization setup
protocol with its callback registry, the compatibility planner, the render pipeline, the
extension dependency lock and the graph checks, the fallback strategies, coalesced session
updates, signature proofs, and the per-connection refresh lock.

`dafny verify dfyconfig.toml` checks the whole project.

## How it is modelled

- A mutex-protected object is a state datatype with one function per critical section, an
  `Action` datatype, and `Run`, which folds any sequence of critical sections. The invariant is
  proved for every step and the main results for every run. Beside it stands the class that
  updates its fields in place, each method proved to be the function of the same name:
  `ArtifactStore` and `ArtifactStoreClass`, `ResponseScope` and `ResponseScopeClass`,
  `AuthSessions` and `AuthSessionTable`, `RefreshLock` and `RefreshLockTable`.
- The kernel (`Dispatch`) and the render pipeline (`RenderPipeline`) are classes whose other
  parties are a parameter, `World` and `Env`: adapters, credentials, transforms, validators,
  renderers, gates, rankers, clocks and cancellation. A contract that holds in every world
  speaks about every run, and a run in one chosen world shows that something can happen
  (`WorstRuns`). The sockets of the callback registry (`Callbacks`) are unconstrained choices.
- `Snapshots` holds model nodes, route tables, the paths of the recursion and how often a
  candidate is listed below a node. `DispatchTrace` says what a run may send; a stretch of a run
  carries its log as a ghost result, and stretches compose.
- Loops that compute a value (`CompatibilityPlanner`, `DependencyLocker`, `GraphWalk`,
  `Signatures`, `StrategyScheduler`) are methods proved against functions or predicates about
  which the theorems are.
- `Sums`, `Sets`, `Names` and `KeyedLists` hold the shared facts about finite sums, cardinality,
  name order and sorted lists.

## What the proofs rest on

- Errors of other components do not wrap "no route" (`mayWrap` is false); `LeakedErrorSendsAgain`
  is a run without that assumption.
- Spool names, session IDs and lock objects are fresh when they are made. Artifact types have
  positive input bounds, which the catalog demands.
- Hashes are injective, a derived idempotency key determines the client key and the candidate, and
  a document is identified with its canonical JSON text, which holds no zero byte and determines
  what it encodes. Decoding and encoding a canonical JSON text gives it back.
- Reference keys tell the catalog's references apart (`KeysIdentify`); roots may be any references.
- Response transforms keep an event's kind, as their registry enforces.
- A decoder calls its emit function from one goroutine at a time.

## Where the code does not keep a wider reading of the promise

- Two keys of an accepted snapshot may carry one node ID, and when they lie on one path the
  recursion can meet its own stack: with built-in strategies some run does exactly when a path
  from the published node repeats an ID (`MeetsItsStackExactlyWhenAnIdRepeats`).
- The bound of two requests is per listing. On an accepted snapshot keyed by node ID, with built-in
  strategies, a candidate with refreshable credentials can get more than two requests on confirmed
  rejections exactly when the graph below the published node lists it more than once: `Execute`
  bounds every run by `MostRequests`, `RejectedEverywhere` reaches it, and
  `AtMostTwoExactlyWhenListedOnce` says when that is two. A node that plans one member counts
  its heaviest member only.
- The order of stages matters for loss values that change when decoded and encoded again;
  `ReorderingMattersExactlyByFirstRecords` is the exact condition. For the same reason the kernel's
  second composition may reject a plan the adapter supported, never the other way round: exactly
  when a declared value does not survive the round trip (`SecondCompositionNeverOverturns`,
  `NullValueIsRejectedTheSecondTime`).
- An accepted completion can be followed by an error event: exactly when the decoder captured an
  invalid session update, output had started and the context was not cancelled.
- A node without a proper strategy reference can share the strategy state of another node, exactly
  when its ID spells that node's ID and reference (`SharedExactly`). Accepted configurations have
  proper references, and then no two nodes share a state.
- A failed attestation whose proof cannot be computed leaves the call's issuer as it came; the
  request is flagged all the same. Clients cannot set an issuer.

## Model

| member | source | states |
|---|---|---|
| Dispatch.Execution.Execute | internal/kernel/kernel.go:140-203 | A whole run, in whatever world of adapters, credentials, gates and clocks: an operation that must not be repeated reaches the upstream at most once; with an idempotency key at most twice, the second the same action to the same candidate under the same key inside the retention window; on confirmed rejection every request but the last was rejected; no candidate gets more than two requests for each time the graph below the published node lists it, and exactly its allowance in a steady world; admissions are returned, every request is finalized once, and the two graph errors occur only on a defective snapshot |
| Dispatch.Execution.ExecuteNode | internal/kernel/kernel.go:303-330 | One node of the recursion leaves a good stretch of the run, restores the stack, terminates on every snapshot, sends nothing and answers "model cycle" when its own ID is already on the stack, and reports a cycle from below only if some path from the root repeats an ID |
| Dispatch.Execution.TryMembers | internal/kernel/kernel.go:330-334 | The planned members compose: a later member is tried only when nothing sent so far can have had an effect, and the loads of the members add up |
| Dispatch.Execution.TryMember | internal/kernel/kernel.go:334-350 | A nested model or a route member, with the same trace guarantee; an unknown model is reported only if a reference of the snapshot is unresolved |
| Dispatch.Execution.TryRoutes | internal/kernel/kernel.go:369-699 | The ranked candidates of a member in turn, each at most as often as the member resolves to it, until one ends the node |
| Dispatch.Execution.TryRouteMember | internal/kernel/kernel.go:351-369 | A route member offers what it resolves to, and a physical node with a disallowed source sends nothing |
| Dispatch.Execution.TryCandidate | internal/kernel/kernel.go:369-458 | One candidate from transforms to admission: nothing is sent unless it serves the operation, passes every check and is admitted |
| Dispatch.Execution.Admitted | internal/kernel/kernel.go:460-503 | Credential and scope failures give the admission back and send nothing |
| Dispatch.Execution.Attempt | internal/kernel/kernel.go:503-698 | The in-place retry loop sends at most two requests, holds one admission throughout, returns it once, and moves on only after a confirmed rejection |
| Dispatch.Execution.Round | internal/kernel/kernel.go:509-599 | One pass: at most one request, one finalized usage attempt for it, and a retry only from a first request that was confirmed rejected or is covered by the idempotency key |
| Dispatch.Execution.CheckDispatch | internal/kernel/kernel.go:542-563 | A keyed retry passes the last gate only with an unchanged method, URL and media type inside the retention window |
| Dispatch.Execution.HandleErrorStatus | internal/kernel/kernel.go:596-698 | An error answer is retried in place exactly on a first authentication failure whose credential came back changed or on an unknown effect to be retried later under a live key, and falls back exactly on a confirmed rejection that is not terminal |
| Dispatch.Execution.Render | internal/kernel/kernel.go:945-1012 | A rendered answer is never followed by another request; its attempt is finalized once, as ok only after a staged completion and a clean render |
| Dispatch.Execution.Conclude | internal/kernel/kernel.go:564-599 | After a request exactly one finalization is emitted, and the admission is returned unless the visit retries |
| WorstRuns.MeetsItsStackExactlyWhenAnIdRepeats | internal/kernel/kernel.go:303-308 | On a resolved snapshot with built-in strategies some run takes the cycle branch if and only if some path from its node goes through two nodes with one ID; `Execute` shows that no run takes it otherwise |
| WorstRuns.AcceptedTwinsMeetThemselves | internal/kernel/kernel.go:303-308 | A run on an accepted snapshot that ends in "model cycle" |
| Snapshots.MeetsExactlyWhenAnIdRepeats | internal/kernel/kernel.go:303-338 | Trying every member from a node comes to an open ID exactly when some path from there repeats an ID |
| Snapshots.KeyedByIdSuffices | internal/kernel/kernel.go:303-308 | Snapshots keyed by node ID meet that condition whenever their graph is acyclic |
| Snapshots.AcceptedGraphMayRepeatAnId | internal/kernel/kernel.go:303-308 | Acceptance alone does not: an accepted snapshot may carry one ID under two keys of one path |
| DispatchTrace.AppendGood | internal/kernel/kernel.go:330-350 | Good stretches of a run compose, which carries the safety claim through nodes, members and candidates |
| DispatchTrace.AtMostTwoPerVisit | internal/kernel/kernel.go:509-699 | No candidate visit sends three requests |
| Snapshots.ResolveRouteMember | internal/kernel/graph.go:108-136 | The loop with its seen set gives the known routes of a member, each named route once |
| Snapshots.OneMemberListsOnce | internal/kernel/graph.go:121-135 | De-duplication keeps a member from listing a candidate twice when routes are keyed by ID |
| Snapshots.TwoRequestsAListing | internal/kernel/kernel.go:369-699 | The allowance of a candidate is at most two requests a listing, for every replay safety |
| Snapshots.AtMostTwoExactlyWhenListedOnce | internal/kernel/kernel.go:330-369 | With refreshable credentials the allowance on rejection is two a listing, so at most two exactly when the candidate is listed at most once |
| WorstRuns.RejectedEverywhere | internal/kernel/kernel.go:637-698 | For every candidate of a resolved snapshot with built-in strategies whose paths repeat no node ID there is a run in which the candidate gets its whole allowance: the bound is exact there |
| WorstRuns.ListedTwiceGetsFour | internal/kernel/kernel.go:330-369 | A run in which a route that two members list gets four requests |
| DispatchTrace.UnsafeSendsAtMostOnce | internal/kernel/kernel.go:594-594 | Never-replay and before-dispatch operations send at most one request |
| DispatchTrace.KeyedSendsAtMostTwice | internal/kernel/kernel.go:580-587 | Keyed operations send at most two, linked by key, action and retention window |
| DispatchTrace.RejectionPrecedesEveryReplay | internal/kernel/kernel.go:685-698 | Every request that is followed by another was confirmed rejected |
| WorstRuns.LeakedErrorSendsAgain | internal/kernel/kernel.go:339-349 | A run in which an error that wraps "no route" sends a never-replay operation twice |
| DispatchTrace.AdmissionsAreReturnedOnce | internal/kernel/kernel.go:456-468 | Each admission is returned exactly once and no visit is admitted twice |
| Replay.DefaultClassificationConfirmsRejection | internal/kernel/kernel.go:1181-1198 | By default exactly the 4xx answers other than timeout and conflict permit a replay, and only for operations that allow it |
| Replay.RetentionWindowIsExact | internal/kernel/idempotency.go:18-34 | Saturating durations and the bounded retention never change the answer of the window test |
| Replay.KeyHeaderKeepsMediaType | internal/kernel/kernel.go:532-541 | Stamping a valid key header never disturbs the media type the retry is compared by |
| Usage.UsageSink.EmitUsage | internal/kernel/kernel.go:112-125 | Emitted equals queued plus dropped plus refused, in every state; refused exactly when closed, queued exactly when there is room |
| Usage.UsageSink.Close | internal/kernel/kernel.go:129-136 | Closing keeps what was queued |
| Usage.UsageAttempt.Observe | internal/kernel/usage_attempt.go:64-72 | Reports after completion or finalization change nothing |
| Usage.UsageAttempt.Complete | internal/kernel/usage_attempt.go:97-127 | The first completion decides and the usage source is asked at most once |
| Usage.UsageAttempt.Finish | internal/kernel/usage_attempt.go:151-192 | Finalizing emits exactly one event, however often it is called |
| GraphWalk.Walker.Validate | internal/kernel/graph.go:142-186 | The three-colour walk succeeds exactly when every reference resolves and no path returns to its start, for every order of the nodes |
| GraphWalk.Walker.Visit | internal/kernel/graph.go:144-178 | A visit finishes its node or is evidence of a broken reference or a cycle |
| GraphWalk.AcyclicPathsAreSimple | internal/kernel/graph.go:144-152 | On an acyclic graph no path repeats a node |
| ModelGraph.ValidateModelGraph | internal/kernel/graph.go:138-186 | A snapshot is accepted exactly when every member resolves and its model references are acyclic |
| ModelGraph.ValidateCombos | internal/controlplane/bundle.go:357-386 | Combos of a bundle are accepted exactly when every combo reference resolves and none leads back to its start |
| ModelGraph.ValidateDependencies | internal/extensions/catalog.go:1080-1114 | A catalog with registered references passes exactly when no chain of dependencies returns to its start |
| ModelGraph.AcceptedSnapshotsRunWithoutGraphErrors | internal/kernel/kernel.go:303-338 | On an accepted snapshot keyed by ID neither graph error of the recursion can occur, from whatever node it starts |
| ArtifactStore.EveryInterleavingIsSound | internal/artifacts/store.go:174-311 | In every interleaving the byte and reservation accounts balance, the capacity bound holds, lease counts equal open leases, and the directory is removed at most once |
| ArtifactStore.LeasedBodySurvives | internal/artifacts/store.go:316-358 | No critical section takes a body away from a lease that stays open |
| ArtifactStore.QuiescentStoreIsEmpty | internal/artifacts/store.go:428-453 | Once closed and quiescent with removals succeeding, nothing stays spooled and the directory was removed exactly once |
| ArtifactStore.RunKeepsInv | internal/artifacts/store.go:174-510 | The whole invariant is kept by any sequence of critical sections |
| ArtifactStoreClass.Store.BeginPut | internal/artifacts/store.go:174-195 | A put is counted in and its limit narrowed, or refused by a closed store |
| ArtifactStoreClass.Store.Reserve | internal/artifacts/store.go:266-286 | Reserves a chunk exactly when body limit, openness and capacity allow it |
| ArtifactStoreClass.Store.Wrote | internal/artifacts/store.go:286-301 | The unused part of a chunk goes back to the store |
| ArtifactStoreClass.Store.Seal | internal/artifacts/store.go:215-245 | The body becomes an entry, or is unlinked when the store closed meanwhile |
| ArtifactStoreClass.Store.FinishPut | internal/artifacts/store.go:247-256 | The last put of a closed, empty store removes the directory |
| ArtifactStoreClass.Store.Open | internal/artifacts/store.go:316-358 | Grants a lease or the first applicable refusal; an expired body is retired |
| ArtifactStoreClass.Store.Release | internal/artifacts/store.go:376-396 | Only the owner with the exact reference retires a body |
| ArtifactStoreClass.Store.Prune | internal/artifacts/store.go:399-415 | Retires exactly the expired entries and counts the deleted ones |
| ArtifactStoreClass.Store.Close | internal/artifacts/store.go:428-453 | Closes once and retires every entry |
| ArtifactStoreClass.Store.DropLease | internal/artifacts/store.go:479-510 | The last lease of a released body deletes it |
| ArtifactStoreClass.RetireOneMore | internal/artifacts/store.go:399-415 | Retiring entries one by one, in any order, is retiring them together |
| ResponseScope.BudgetsHold | internal/artifacts/response.go:152-219 | In every interleaving of puts, inline publications and close, used plus pending bytes stay within the response limit and each role within its port |
| ResponseScope.NothingLeaks | internal/artifacts/response.go:170-219 | Once close and all puts returned, every body ever spooled has been handed to the store for release |
| SpoolGrants.SealedBodyFitsItsGrant | internal/artifacts/store.go:183-301 | Whatever happens in the store meanwhile, the body a put seals is no longer than the positive limit it was begun with |
| SpoolGrants.StoreMeetsTheScope | internal/artifacts/response.go:170-186 | So a body the store seals for a put of the scope is within the grant the scope counted for it |
| ResponseScope.ReleasedForGood | internal/artifacts/response.go:177-253 | A body is handed to release at most once |
| ResponseScope.OnlyRecordedBodiesAreReadable | internal/artifacts/store.go:71-105 | The allowlist holds only recorded bodies and nothing after close |
| ResponseScope.AllowlistNeverRefusesAlone | internal/artifacts/response.go:208-216 | The fallback for a refusing allowlist is dead: it closes together with the scope |
| ResponseScopeClass.Scope.Begin | internal/artifacts/response.go:149-170 | A put is granted at most what was asked, what its type allows and what is left |
| ResponseScopeClass.Scope.Settle | internal/artifacts/response.go:172-186 | A body that arrives after close is uncounted and owed to the store |
| ResponseScopeClass.Scope.Record | internal/artifacts/response.go:200-218 | A validated body is published, or owed to the store when the scope closed |
| ResponseScopeClass.Scope.Inline | internal/artifacts/response.go:96-110 | An inline value is counted exactly when role and byte budgets allow it |
| ResponseScopeClass.Scope.Close | internal/artifacts/response.go:229-253 | The first close hands back every recorded body, later ones nothing |
| AuthSessions.EveryTableIsSound | internal/daemon/authorization_setup.go:55-93 | In every reachable table a connection names a session exactly when that session is active for it, no session has two calls in flight, and at most 64 sessions exist |
| AuthSessions.EveryChannelIsClosedOnce | internal/daemon/authorization_setup.go:349-383 | Each completion channel is closed at most once, and exactly once by the time its call returned |
| AuthSessions.WaitersFindALiveChannel | internal/daemon/authorization_setup.go:322-345 | Whoever must wait for a step finds the open channel of the running call |
| AuthSessions.CommittedAtMostOnce | internal/daemon/authorization_commit.go:33-74 | A session persists a credential at most once |
| AuthSessions.CommitIsTheLinearizationPoint | internal/daemon/authorization_commit.go:33-58 | A commit happens only for an awaiting, unexpired session of an open table whose call was not cancelled |
| AuthSessions.CancelAndCommitExclude | internal/daemon/authorization_setup.go:414-447 | After a cancellation no run ever commits that session |
| AuthSessions.OverForever | internal/daemon/authorization_lifecycle.go:60-89 | Terminal statuses and revisions stay until the session is forgotten, and nothing commits in them |
| AuthSessions.ShutdownIsFinal | internal/daemon/authorization_lifecycle.go:108-137 | After shutdown no session is opened and nothing commits |
| AuthSessions.RevisionCountsTransitions | internal/daemon/authorization_setup.go:222-312 | The revision grows by one exactly with each applied transition |
| AuthSessionTable.Table.Open | internal/daemon/authorization_setup.go:55-80 | Admits, resumes or refuses, and says why |
| AuthSessionTable.Table.Advance | internal/daemon/authorization_setup.go:137-169 | Admits one call for the current revision of an idle, awaiting session |
| AuthSessionTable.Table.Prepare | internal/daemon/authorization_resources.go:62-79 | Negotiation may shorten the deadline of a session in flight, never extend it |
| AuthSessionTable.Table.Apply | internal/daemon/authorization_setup.go:231-306 | Applies a transition exactly when session, deadline and callbacks allow it |
| AuthSessionTable.Table.Commit | internal/daemon/authorization_commit.go:33-74 | Checks and compare-and-swap are one step |
| AuthSessionTable.Table.Finish | internal/daemon/authorization_setup.go:414-447 | Ends an active session and wakes its waiters |
| AuthSessionTable.Table.Release | internal/daemon/authorization_setup.go:349-383 | Returning from a call leaves its channel closed exactly once |
| AuthSessionTable.Table.Discard | internal/daemon/authorization_setup.go:87-98 | Forgets a failed session whose ID was never delivered |
| AuthSessionTable.Table.Prune | internal/daemon/authorization_lifecycle.go:60-89 | Expires idle sessions past their deadline and names the callback owners to release |
| AuthSessionTable.Table.CancelAll | internal/daemon/authorization_lifecycle.go:108-137 | Closes every channel still held, each once, and empties the table |
| AuthSessionTable.PruneOneMore | internal/daemon/authorization_lifecycle.go:60-89 | The order of the walk over the table does not matter |
| Callbacks.Registry.Replace | internal/daemon/authorization_callback.go:81-193 | All or nothing: every loopback grant ends with a live listener, every listener is used, required grants are granted or by hand, other owners keep theirs, a failure changes nothing |
| Callbacks.Registry.Reserve | internal/daemon/authorization_resources.go:111-212 | All or nothing with rollback of opened sockets; unchanged requests keep their reservation |
| Callbacks.Registry.Prune | internal/daemon/authorization_callback.go:207-228 | Closes exactly the listeners no grant and no loopback reservation uses |
| Callbacks.Registry.Release | internal/daemon/authorization_callback.go:238-258 | Forgets one owner and keeps the registry live |
| Callbacks.Registry.Close | internal/daemon/authorization_callback.go:260-272 | Leaves no grant, reservation, listener or socket |
| Callbacks.Negotiate | internal/daemon/authorization_resources.go:44-107 | The driver is asked again at most eight times, and what passes needs no allocation |
| CompatibilityPlanner.ComposeCompatibilityPlan | internal/kernel/compatibility.go:267-402 | The loops over reports, facets, stages and losses compute the specified plan |
| Losses.MergeLossRecord | internal/kernel/compatibility.go:593-613 | Merges into the first record of an ID or reports the conflict |
| Losses.AppendUniqueNames | internal/kernel/compatibility.go:674-704 | The set-based and the scanning branch add the same names in the same order |
| Losses.MergeAllSucceedsExactly | internal/kernel/compatibility.go:593-613 | Merging a list succeeds exactly when each record encodes to what the first of its ID decodes to |
| Losses.AgreeingIsConsistent | internal/kernel/compatibility.go:615-652 | For values that survive the round trip, agreement suffices and order does not matter |
| Compatibility.DispositionIsTheWorst | internal/kernel/compatibility.go:347-358 | A stage that fails closed decides its facet, then any degraded one, then any translated one, in whatever order |
| CompatibilityVerdict.SupportedExactly | internal/kernel/compatibility.go:267-402 | Supported if and only if reports are well-formed, losses valid and consistent, degradations named or overruled, and each facet that is required or carries a loss is carried within the grants |
| CompatibilityVerdict.VerdictIsOrderFree | internal/kernel/compatibility.go:347-358 | For canonical loss values the verdict depends only on which mappings were reported |
| CompatibilityVerdict.ReorderingMattersExactlyByFirstRecords | internal/kernel/compatibility.go:593-613 | In general a reordering changes a supported verdict exactly when a facet gets a first record that a later one does not match |
| CompatibilityVerdict.RawValuesMakeOrderMatter | internal/kernel/compatibility.go:615-652 | Two stages that are supported in one order and rejected in the other |
| CompatibilityVerdict.VerdictIsMonotone | internal/kernel/compatibility.go:366-374 | More grants, fewer denials and a wider ceiling never lose support |
| CompatibilityVerdict.LossyExactlyWithLosses | internal/kernel/compatibility.go:360-395 | A supported plan is lossy if and only if some report declares a loss |
| CompatibilityVerdict.PlanAccountsForLosses | internal/kernel/compatibility.go:366-395 | Every declared loss stands in a supported plan, and every loss the plan lists is permitted |
| CompatibilityTwice.SecondCompositionIsIdempotent | internal/kernel/kernel.go:282-284 | Composing a plan again gives the same plan, or a rejection when a declared loss value no longer is valid after its round trip |
| CompatibilityTwice.SecondCompositionNeverOverturns | internal/kernel/kernel.go:282-284 | The second composition supports exactly what the first did and whose declared loss values survive a round trip |
| CompatibilityTwice.NullValueIsRejectedTheSecondTime | internal/kernel/compatibility.go:615-652 | A plan the first composition supports and the second rejects: a declared null is absent once decoded |
| CompatibilityTwice.EmptyPlanIsRefused | internal/kernel/compatibility.go:267-402 | A plan without mappings was refused, because required facets are never empty |
| CompatibilityAdapter.KernelNeverOverturnsTheAdapter | internal/kernel/pipeline.go:153-221 | For every renderer answer the kernel refuses what the adapter refused, and confirms the rest exactly when the loss values of the request and of a spelled-out renderer report survive a round trip |
| CompatibilityAdapter.SupportNeedsDecoderAndRenderer | internal/kernel/pipeline.go:153-221 | Support implies a registered, accepting renderer and a declaration of every required event by decoder and renderer |
| CompatibilityAdapter.DenialsOnThePathAlwaysWin | internal/kernel/compatibility.go:116-131 | Grants accumulate down the model path; a denial or ceiling is never granted back |
| RenderPipeline.Pipeline.RenderResponse | internal/kernel/pipeline.go:284-570 | The renderer sees decoder events in order, then at most the one completion, then at most one error; Finish runs once per begun session and exactly one of OnComplete and OnError fires; an error follows an accepted completion exactly when the decoder captured an invalid session update, output had started and the context was not cancelled; session updates are published losslessly after an accepted completion and otherwise not at all |
| RenderPipeline.CompletionThenError | internal/kernel/pipeline.go:528-554 | A run in which the renderer accepts the completion and then gets an error |
| RenderPipeline.Pipeline.Decode | internal/kernel/pipeline.go:505-514 | The decoder emits and captures in any order; unless cancelled, the collection fails exactly on an invalid update |
| RenderPipeline.Pipeline.DecodeAndComplete | internal/kernel/pipeline.go:505-530 | The completion is emitted only after the decoder succeeded, and success implies it was |
| RenderPipeline.Pipeline.Emit | internal/kernel/pipeline.go:462-504 | Events are delivered in decoder order until the first failure, which is latched; completions only wait |
| RenderPipeline.Pipeline.EmitOne | internal/kernel/pipeline.go:376-461 | After a failure nothing reaches the renderer |
| RenderPipeline.OneCompletionAtTheEnd | internal/kernel/pipeline.go:462-527 | A completion is the last event but for an error |
| RenderPipeline.DeliveredFitsTheLimit | internal/kernel/response_budget.go:22-51 | What decoder events come to, and what is shown after transforms, never exceeds the limit over a whole response |
| RenderPipeline.EventBudget.Consume | internal/kernel/response_budget.go:22-51 | Accepts exactly the well-described events that fit; the total is what the accepted events come to and never exceeds the limit |
| RenderPipeline.CommitWriter.Write | internal/kernel/response_commit.go:39-55 | Output stays within its limit and the first failure ends it |
| RenderPipeline.CommitWriter.WriteHeader | internal/kernel/response_commit.go:25-37 | At most one header is sent |
| RenderPipeline.CommitWriter.FlushError | internal/kernel/response_commit.go:68-79 | Flushing latches failures like a write |
| DependencyLocker.LockDependencies | internal/extensions/catalog.go:635-741 | Terminates on cyclic references; succeeds exactly when no root repeats and everything demanded is available, with exactly the reachable extensions, schemas and modules in key order |
| DependencyLocker.ValidateDependencyLock | internal/extensions/catalog.go:745-765 | Accepts a lock exactly when it is the lock of its own roots |
| DependencyLocker.ProducedLocksValidate | internal/extensions/catalog.go:745-765 | Every produced lock round-trips |
| DependencyLocker.OmittedOrAlteredPinsAreRejected | internal/extensions/catalog.go:745-765 | An accepted lock pins exactly the reachable extensions, schemas and modules, each once, with the versions and digests of the catalog |
| DependencyLock.LocksAreUnique | internal/extensions/catalog.go:727-741 | Roots in any order have at most one lock |
| DependencyLocker.OnlyRootsCanFail | internal/extensions/catalog.go:1009-1079 | In a catalog whose own references resolve only a root can fail |
| DependencyLocker.Locker.AddRef | internal/extensions/catalog.go:665-725 | Follows a reference until its closure is pinned or a demand of the roots cannot be met |
| DependencyLocker.Locker.AddSchema | internal/extensions/catalog.go:645-664 | The same for schemas |
| Strategies.WeightedIsFair | internal/kernel/strategy.go:86-113 | From any cursor, a window of total-weight plans puts each member first exactly as often as its weight, at least once |
| Strategies.RotatingIsFair | internal/kernel/strategy.go:40-47 | From any cursor, n plans of n members start with each once |
| Strategies.RoundRobinIsFair | internal/kernel/strategy.go:13-20 | The same for round robin |
| Strategies.StickyServesItsLimit | internal/kernel/strategy.go:60-75 | After alignment each starter serves exactly its limit of consecutive plans, in configured order |
| Strategies.StickyAligns | internal/kernel/strategy.go:60-75 | From any state alignment comes after what is left of the current turn |
| Strategies.FallbackPlansArePermutations | internal/kernel/strategy.go:122-127 | A fallback plan tries every configured member once, from its start |
| StrategyScheduler.WeightedIsFairInAnyInterleaving | internal/kernel/scheduler.go:68-113 | The weighted bound holds for a node whatever other nodes are planned in between |
| StrategyScheduler.RotatingIsFairInAnyInterleaving | internal/kernel/scheduler.go:68-113 | The rotating bound likewise |
| StrategyScheduler.StickyServesItsLimitInAnyInterleaving | internal/kernel/scheduler.go:68-113 | The sticky bound likewise: the plans of an aligned node start as its own turns say |
| StrategyScheduler.OtherNodesDoNotDisturb | internal/kernel/scheduler.go:96-113 | A node state is what its own plans made of it |
| StrategyScheduler.SharedExactly | internal/kernel/scheduler.go:115-120 | Two nodes share a strategy state if and only if they are one node with one strategy, or one has no proper strategy reference and its ID spells the ID and reference of the other |
| StrategyScheduler.AcceptedNodesNeverShare | internal/kernel/scheduler.go:115-120 | Nodes with proper strategy references never share a state, whatever their IDs hold |
| StrategyScheduler.ImproperReferenceMayShare | internal/kernel/scheduler.go:115-120 | A node without a proper strategy reference can share the state of another |
| StrategyScheduler.StrategyState.PlanWeighted | internal/kernel/strategy.go:86-113 | The in-place plan and cursor are the specified ones |
| StrategyScheduler.StrategyState.PlanSticky | internal/kernel/strategy.go:60-75 | The in-place plan, index and count are the specified ones |
| StrategyScheduler.StrategyState.PlanRotating | internal/kernel/strategy.go:40-47 | The in-place plan and cursor are the specified ones |
| StrategyScheduler.Scheduler.PlanNode | internal/kernel/scheduler.go:68-81 | Plans from the node own state and leaves every other state as it was |
| SessionUpdates.CoalescingIsLossless | internal/kernel/session_updates.go:61-78 | One or two valid publications leave any session state as applying each captured update in turn would |
| SessionUpdates.ApplyingInTurn | internal/kernel/kernel.go:954-963 | Updates in turn come to the merged rest after the last reset, merged into the old state without one |
| SessionUpdates.CollectedStaysValid | internal/kernel/session_store.go:108-124 | Merged valid updates stay valid, so none is discarded |
| SessionUpdates.Collector.Capture | internal/kernel/session_updates.go:38-59 | Takes valid updates while open; an invalid or cancelled one fails the collection |
| SessionUpdates.Collector.Finish | internal/kernel/session_updates.go:61-78 | Publishes nothing on failure or refusal, otherwise losslessly |
| RefreshLock.MutualExclusion | internal/daemon/daemon.go:858-883 | At most one thread holds a connection lock in every interleaving, cancelled acquires included |
| RefreshLock.OneLiveLock | internal/daemon/daemon.go:858-883 | Two live semaphores of one connection never coexist |
| RefreshLock.EntriesLiveExactlyWhileUsed | internal/daemon/daemon.go:858-883 | The entry exists exactly while some thread holds or waits, and users counts those threads |
| RefreshLockTable.LockTable.Enter | internal/daemon/daemon.go:859-869 | Looks up or makes the lock and counts the thread in |
| RefreshLockTable.LockTable.Drop | internal/daemon/daemon.go:870-877 | Counts the thread out and deletes the entry with the last one |
| Signatures.AttestedExactlyWhenRecorded | internal/kernel/signatures.go:150-202 | The issuer written to a signed call is the attested one if and only if the signature was recorded from that issuer for the same call after an equal conversation, or no proof can be computed and the call came with it; the request is flagged exactly when it was not recorded |
| Signatures.FreshCallsAreAttestedExactlyWhenRecorded | internal/kernel/signatures.go:150-202 | For calls that arrive without an issuer, the written issuer is the attested one exactly when the signature was recorded, and none otherwise |
| Signatures.DocumentsIdentifyMessages | internal/kernel/signatures.go:131-143 | Two messages are hashed alike exactly when body and calls agree but for signatures and issuers |
| Signatures.AttestationKeepsDigests | internal/kernel/signatures.go:150-202 | Writing issuers into a request changes none of its context digests |
| Signatures.DigestsIdentifyConversations | internal/kernel/signatures.go:117-148 | Two boundaries have one digest exactly when prompt, tools, tool choice and the erased messages before them are equal |
| Signatures.StreamsAreInjective | internal/kernel/signatures.go:127-146 | Zero-terminated documents can be read back from what is hashed |
| Signatures.ContextDigests | internal/kernel/signatures.go:117-148 | One pass over the erased messages gives the digest of every boundary, or fails when something cannot be encoded |
| Signatures.ProofLog.Append | internal/kernel/signatures.go:204-218 | Proofs stay duplicate-free, at most 256, and exactly the proofs of what was recorded |
| Signatures.AttestToolCallSignatures | internal/kernel/signatures.go:150-202 | Every call is attested against the saved proofs, and the request is flagged exactly when some signed call is not trusted |

## Left out

- Execution: integer widths are not modelled; byte totals, weights and revisions are unbounded.
- Dispatch: ranking, preferred connections, session affinity, eligibility and feature evaluation only choose and order the candidates a member resolves to; the world does so in any way.
- Dispatch: session restore and save, continuity invalidation and outcome observers are choices that may fail; their stores are not modelled.
- Dispatch: an extension's strategy plans any selection of its node's members, repeats included, so the bound of requests per candidate is about built-in strategies; members of other nodes are outside the model.
- UsageAttempt: merging and pricing of usage values are not modelled, only which reports are taken and what is emitted.
- Scheduler.OrderWithPreferred: not modelled; its weighted branch counts routes, not weights.
- ArtifactStore: the file system is a set of names; partial reads, digests and media types are not modelled.
- ResponseScope: artifact schema and policy checks are one choice that may fail.
- AuthSessions: poll and expiry timers are arbitrary actions at arbitrary times; provider drivers, private state and the activation of a committed credential are not modelled.
- Callbacks: URL, query and origin matching of an arriving callback, and the HTTP servers behind the listeners.
- Compatibility: reasons and other explanation text; which facets a request requires.
- RenderPipeline: event payloads beyond kind, size and error descriptor; usage merging; the rewriting of a provider error before it is reported.
- DependencyLock: schema compilation, option validation and the descriptor checks before the cycle check.
- Signatures: hashing, hexadecimal digests and JSON canonicalization themselves.
- HTTP, IPC, TUI, CLI, SQLite and configuration files.
