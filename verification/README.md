# The orchestration kernel, modelled and verified in Dafny

This project models the provider-independent kernel that plans, authorises, supervises and
accepts agent work: task graphs and their readiness, execution contracts and their permissions,
the supervised runtime adapter, assignment control and the integration gate, dispatch selection,
node leases, work insights, and browser session exchange. Code that computes is modelled by
functions; code that changes state is modelled by classes and loops, each proved against a
specification, and the promises about whole runs are proved about those specifications.

`dafny verify dfyconfig.toml` checks everything.

## How the model is laid out

| file | models |
|---|---|
| `Sorting.dfy`, `Text.dfy`, `Options.dfy`, `Project.dfy` | library sorts as "the sorted permutation", Go strings, optional values, project records |
| `TaskGraph.dfy`, `GraphBinding.dfy` | graph validation by repeated removal of ready nodes, what each refusal says of the graph, and what acceptance binds |
| `Readiness.dfy`, `ReadinessMeaning.dfy` | the reduction of history to readiness, and every state and reason stated from the histories alone |
| `Paths.dfy`, `PathComponents.dfy`, `Policy.dfy`, `Gates.dfy`, `GateDemands.dfy`, `Contracts.dfy` | path sets, containment by path components, seven policy layers, required gates, contract building and amendment chains |
| `Runtime.dfy`, `RuntimeOutcomes.dfy`, `Adapter.dfy` | the runtime adapter as steps over a world that can crash and reload, exactly when each step takes effect, and the object that takes them |
| `Control.dfy`, `ControlOutcomes.dfy` | fenced assignment control over its store, and exactly when each operation takes effect |
| `Integration.dfy`, `IntegrationHistory.dfy`, `IntegrationRuns.dfy` | the evaluate-and-decide protocol, the history it leaves, and its runs |
| `ComputeNode.dfy`, `Selection.dfy`, `Dispatch.dfy`, `SelectionMeaning.dfy` | node definitions and eligibility, reasons against candidates, the choice among them, and what the choice and the limits mean |
| `Leases.dfy`, `LeaseOutcomes.dfy`, `LeaseProviders.dfy`, `LeaseSimulation.dfy` | the lease protocol, what a lease is worth, the two providers, and why they answer alike |
| `Overlap.dfy`, `Insights.dfy`, `InsightCounts.dfy` | parallel overlap, the fold over history with its metrics, and what the figures count |
| `BrowserSessions.dfy`, `SessionOutcomes.dfy` | the two-section ticket exchange, and how long tickets and sessions are good for |

Conventions. Instants are integers. Hashes and derived identifiers are function parameters; a
lemma that needs them to tell inputs apart says so in its `requires`. A step that can fail for
reasons outside the model (a write, a commit, another service) takes a flag or an oracle saying
whether it did, and every combination is covered. A read followed later by a guarded write takes
the value read as an arbitrary parameter.

## Where the code differs from what one might expect

- The preview gate's name contains "review", so the code treats it as a human gate
  (`Integration.PreviewIsHuman`).
- The gate sends the decisions "approve" and "reject", which the concrete control service does
  not admit (`Integration.ControlAdmitsNeither`); the gate is therefore modelled against an
  abstract control with a parameter for what it admits.
- A contract may itself demand the reserved preview gate. Demanded above version 1 with the digest
  of a summary, it lets that summary be accepted although it was never offered
  (`IntegrationRuns.AcceptPinned`); `Integration.AcceptedWasOffered` shows that there is no other
  way. Demanded at version 1, nothing can be offered or decided: the decision and the human
  review are entered in one row with different evidence (`Integration.IntegrationGate.Decide`).
- A machine gate that has settled cannot go back to pending, so evaluating an attempt a second time
  fails it (`IntegrationRuns.EvaluateTwice`).
- An assignment cannot go from Planned to Canceled by `Transition`: the lease generation that the
  store checks is 0 there and the request must carry at least 1 (`Control.StepMoves`).
- Layer paths are checked after canonicalisation, so a malformed path is dropped, not refused,
  when it lies within a listed path that sorts before it (`Policy.MalformedPathCanPass`);
  `Policy.NormalLayersPass` says exactly which layers pass.
- A contract's last satisfied evidence per gate decides completion, so a matching one can be
  hidden by a later one (`Gates.MatchCanBeHidden`); `Gates.EvaluateCompletion` is exact.
- Overlap shorter than a millisecond per pair is lost (`Insights.FineOverlapIsLost`);
  `Overlap.ZeroMeansApart` and `Overlap.OverlapCountsPairs` say exactly what is lost and when.
- Verifying a node definition overwrites its schema and sorts its lists first, so a digest binds
  an inventory, not a listing (`ComputeNode.DigestBindsInventory`).

## Model

| member | source | states |
|---|---|---|
| TaskGraph.ValidateGraph | internal/orchestration/graph.go:100-202 | accepts exactly when identity, size, members, edges and digest check out and the dependencies have a topological order; reports a cycle exactly when one exists; otherwise reports the first defect met, in the order of the checks |
| TaskGraph.TraversalDecides | internal/orchestration/graph.go:175-201 | removing ready nodes visits every member exactly when an order exists, and exactly when there is no cycle |
| TaskGraph.CountVisited | internal/orchestration/graph.go:181-197 | the queue loop visits each member at most once, dependencies first, and visits all of them exactly when an order exists |
| TaskGraph.InitialReady | internal/orchestration/graph.go:175-181 | the first ready list is exactly the members without dependencies |
| TaskGraph.LowerDependents | internal/orchestration/graph.go:187-196 | one round lowers each dependent once and readies exactly those with nothing left to wait for |
| TaskGraph.NoEscapeHasCycle | internal/orchestration/graph.go:198-201 | members that all depend on one another's company contain an actual cycle |
| TaskGraph.CycleRefutesOrder | internal/orchestration/graph.go:139-202 | no topological order exists beside a cycle |
| TaskGraph.CheckMembers | internal/orchestration/graph.go:116-137 | collects the member set, or reports the first defective member |
| TaskGraph.BuildEdges | internal/orchestration/graph.go:139-166 | in-degrees and dependents describe the edges exactly, or the first defective edge is reported |
| TaskGraph.DependencySetDigest | internal/orchestration/graph.go:204-229 | digests the canonical encoding whatever order the map is listed in |
| TaskGraph.DigestBindsDependencies | internal/orchestration/graph.go:204-229 | two sets of definitions have one encoding exactly when they declare the same dependencies |
| GraphBinding.Validate | internal/orchestration/graph.go:100-202 | every error names an actual fault of the graph (a foreign or missing definition, a record ID or digest that is not the member's, a repeated member or edge, a missing dependency, a cycle, a wrong digest), and there is none exactly when the graph has no such fault |
| GraphBinding.AcceptedIsFaultless | internal/orchestration/graph.go:100-202 | an accepted graph has none of the faults any error names |
| GraphBinding.DefinitionsAreMembers | internal/orchestration/graph.go:100-137 | the definitions of an accepted graph are those of its members and no others |
| GraphBinding.RevisionBindsDefinitions | internal/orchestration/graph.go:116-137 | two accepted graphs with one task and revision define the same packages with the same record IDs, digests, projects, tasks and revisions |
| GraphBinding.RevisionBindsDependencies | internal/orchestration/graph.go:167-174 | and, while digests tell encodings apart, the same dependencies |
| GraphBinding.TamperedDefinitionIsRefused | internal/orchestration/graph.go:116-137 | changing any of those fields of one definition makes an accepted graph refused |
| GraphBinding.DefinitionsBindMembers | internal/orchestration/graph.go:100-137 | conversely the definitions fix the member list up to order, the task and the revision they are bound to |
| Readiness.CanonicalForgetsOrder | internal/orchestration/graph.go:235-245 | sorting the events forgets the order they were supplied in |
| Readiness.CanonicalIgnoresForeign | internal/orchestration/graph.go:251-264 | events of packages outside the graph change nothing |
| Readiness.ReplayIsPerPackage | internal/orchestration/graph.go:324-348 | a package's state depends only on its own events in order |
| Readiness.AcceptanceNeedsStandingApproval | internal/orchestration/graph.go:324-348 | an event makes a package Accepted exactly when it is an acceptance and the latest review of the current review period approved |
| Readiness.AcceptedIsFinal | internal/orchestration/graph.go:324-348 | Accepted is never left |
| Readiness.Sweep | internal/orchestration/graph.go:266-306 | on an acyclic graph the sweep always finishes, with a solution of the node equation |
| Readiness.SweepOnce | internal/orchestration/graph.go:275-306 | one pass resolves a node or shows that every node left waits for another |
| Readiness.SolutionUnique | internal/orchestration/graph.go:365-403 | the node equation has one solution on an acyclic graph |
| Readiness.ReadyMeans | internal/orchestration/graph.go:365-403 | Ready exactly when planned or ready with every direct dependency Accepted |
| Readiness.CountStates | internal/orchestration/graph.go:405-411 | the tallies say which states occur and which are shared by all |
| Readiness.SummarizeTask | internal/orchestration/graph.go:405-429 | a task's state follows from which node states occur |
| Readiness.ReplayEvents | internal/orchestration/graph.go:235-264 | the loop leaves the replayed ledger and the watermark text of the canonical events |
| Readiness.ReduceReadiness | internal/orchestration/graph.go:231-322 | refuses exactly the graphs validation refuses, never fails to resolve, and returns the snapshot whose nodes solve the node equation on the replayed events |
| Readiness.SnapshotDeterminate | internal/orchestration/graph.go:231-322 | one snapshot and watermark for every order of the events and whatever foreign events are mixed in |
| Readiness.ParallelReadyMeans | internal/orchestration/graph.go:308-322 | the parallel-ready list holds exactly the members whose own history is planned or ready and whose dependencies' histories are accepted |
| Readiness.ParallelReadyIndependent | internal/orchestration/graph.go:308-322 | no dependency joins two parallel-ready members |
| ReadinessMeaning.NodeMeans | internal/orchestration/graph.go:365-403 | a package that is neither planned nor ready shows its own state and reason; otherwise it is ready when all its dependencies are accepted, blocked when a chain of first pending dependencies ends in a failed, canceled or blocked one, and else waiting |
| ReadinessMeaning.SnapshotMeans | internal/orchestration/graph.go:231-322 | so does every node of a snapshot, in member order, from the events of each package alone |
| ReadinessMeaning.LedgerIsHistory | internal/orchestration/graph.go:251-264 | the state replayed for a package is that of its own history |
| ReadinessMeaning.TaskMeans | internal/orchestration/graph.go:405-429 | the state of a task, and its reason, from which node states occur and which all share |
| ReadinessMeaning.PackageMoves | internal/orchestration/graph.go:324-348 | a package moves exactly along the listed state changes, from the state each names; creation, acceptance and all else as stated |
| ReadinessMeaning.TimeOrder | internal/orchestration/graph.go:235-245 | events are replayed in the order of their times |
| ReadinessMeaning.InstantOrder | internal/orchestration/graph.go:350-363 | and at one instant creation comes before changes, changes before reviews, reviews before acceptance |
| ReadinessMeaning.WatermarkBinds | internal/orchestration/graph.go:246-264 | the watermark text fixes which records were replayed, in order |
| Paths.CanonicalPaths | internal/executioncontract/policy.go:201-217 | covers what the list covers, and keeps exactly the entries that lie within no other entry sorting before them |
| Paths.IntersectPaths | internal/executioncontract/policy.go:218-233 | covers exactly what both lists cover |
| Paths.RemoveFullyForbidden | internal/executioncontract/policy.go:234-249 | loses nothing that is not forbidden, and is empty exactly when nothing allowed remains |
| Paths.SortedUnique | internal/executioncontract/policy.go:176-200 | the same values, sorted, each once |
| Policy.HasIsMember | internal/executioncontract/policy.go:256-263 | binary search on a sorted list is membership |
| Policy.NormalizeRequest | internal/executioncontract/contract.go:318-326 | sorts and dedupes without changing what any layer grants or denies; the normalised layers are valid exactly when the layers as given pass, each path valid or within a listed one that sorts before it |
| Policy.NormalLayersPass | internal/executioncontract/policy.go:12-74 | that condition, for every notion of a valid path and every layer list |
| Policy.MalformedPathCanPass | internal/executioncontract/policy.go:201-217 | a malformed path passes under a listed parent, while an empty path beside "." does not |
| Policy.SameLayersSameMeaning | internal/executioncontract/contract.go:318-326 | normalising changes no path right |
| Policy.EffectiveBudget | internal/executioncontract/policy.go:101-125 | the largest budget under the request and every ceiling, refused exactly when a budget is invalid |
| Policy.CheckCapabilities | internal/executioncontract/policy.go:12-74 | passes exactly when every requested capability is known and granted by all layers |
| Policy.CheckSecrets | internal/executioncontract/policy.go:12-74 | passes exactly when every requested secret is named, allowed by all layers and covered by the secret capability |
| Policy.NarrowPaths | internal/executioncontract/policy.go:12-74 | folding intersection and pruning over the layers keeps exactly the paths all layers cover and none forbids |
| Policy.EvaluatePolicy | internal/executioncontract/policy.go:12-74 | succeeds exactly for valid layers, granted requests and valid budgets; reports escalation exactly when the request exceeds the layers; the permissions mean what the layers say |
| Policy.AuthorizePath | internal/executioncontract/policy.go:75-99 | decides authorisation from the stored permissions |
| Policy.AuthorizedMeans | internal/executioncontract/policy.go:12-99 | writing is authorised exactly when requested, the path is valid, under a scope-allowed entry, under a write path of every layer and under nothing forbidden; inspecting likewise |
| PathComponents.WithinMeans | internal/executioncontract/policy.go:250-255 | for all strings, a path lies within another exactly when that is "." or its components, split at "/", begin those of the path; what ends in "/" holds itself and what is properly below it |
| PathComponents.SplitJoin | internal/executioncontract/policy.go:250-255 | splitting a joined path gives the components of both parts |
| PathComponents.SplitThenJoin | internal/executioncontract/policy.go:250-255 | joining the components gives the path back, so they fix it |
| PathComponents.JoinSplit | internal/executioncontract/policy.go:250-255 | and splitting names that were joined gives the names back |
| PathComponents.AuthorizedByComponents | internal/executioncontract/policy.go:75-99 | authorisation to write or inspect stated over components: under an allowed entry, under a path of every layer, under nothing forbidden |
| PathComponents.SiblingIsRefused | internal/executioncontract/policy.go:75-99 | a path that only continues the last name of the one allowed entry is never authorised |
| Gates.AddGate | internal/executioncontract/policy.go:303-378 | a demand is refused exactly when it disagrees with an earlier one on version or digest |
| Gates.RequiredGates | internal/executioncontract/policy.go:303-378 | succeeds exactly for consistent demands; the sorted list answers every demand once and contains nothing else |
| Gates.EvaluateCompletion | internal/executioncontract/policy.go:283-302 | accepts exactly when the last satisfied evidence of every required gate matches it, and lists the missing ones |
| Gates.LaterEvidenceDecides | internal/executioncontract/policy.go:283-302 | whatever came before, satisfied evidence added last settles its gate by its own version and digest |
| Gates.MatchCanBeHidden | internal/executioncontract/policy.go:283-302 | exact evidence satisfies a gate alone and not when satisfied evidence of another version follows it |
| Gates.HumanReviewUnavoidable | internal/executioncontract/policy.go:283-378 | with review required, merge requested or elevated risk, completion implies human-review evidence |
| GateDemands.RequiredMeans | internal/executioncontract/policy.go:303-378 | a gate is required, at that version and digest, exactly when the work names it or a review, an elevated risk of that name or a capability calls for it |
| Contracts.Build | internal/executioncontract/contract.go:169-209 | builds exactly when the bindings hold, the request as given may be granted, the budget fits the window and the gates agree, and then authorises exactly what the request allows; says exactly when amendment, escalation and gate conflicts are reported |
| Contracts.SamePrivileges | internal/executioncontract/contract.go:318-326 | normalising changes nothing about whether a request may be granted |
| Contracts.ContractStore.Save | internal/storage/sqlite/execution_contract.go:12-46 | insert, replay or conflict, and never an overwrite |
| Contracts.ContractStore.Keep | internal/executioncontract/contract.go:234-255 | stores a built contract under its own version exactly when it names the digest of the version before it, for the same execution, and neither its key nor its execution is taken by another; leaves every row alone otherwise; says exactly when an amendment conflict is reported |
| Contracts.ContractStore.Create | internal/executioncontract/contract.go:224-255 | keeps the store chained and everything in it, and stores what it returns; a new version is stored exactly when it may be built, follows the version before and its execution has no other contract |
| Contracts.SaveKeepsChain | internal/storage/sqlite/execution_contract.go:12-46 | the chain survives even when the predecessor was read from an earlier state of the store |
| Contracts.ChainReachesFirst | internal/executioncontract/contract.go:328-339 | versions run from 1 without a gap, all of one execution |
| Contracts.NewestFixesChain | internal/executioncontract/contract.go:224-255 | the digest of the newest version fixes every earlier one |
| Contracts.OneContractPerExecution | internal/storage/migrations.go:507-522 | an execution has one contract ID |
| Runtime.RunKeeps | internal/codexruntime/adapter.go:177-524 | every interleaving of calls, persist failures, crashes and reloads keeps the session invariant: Running has a live handle, a live handle is Running or being canceled, unconsumed input was never launched |
| Runtime.LaunchedAtMostOnce | internal/codexruntime/adapter.go:217-281 | no session is ever launched twice, and the slots held are the launches not yet released, never above the limit |
| Runtime.CancelWins | internal/codexruntime/adapter.go:303-363 | once canceled, a session is Canceled or Closed for the rest of the process and yields no result |
| Runtime.CanceledForGood | internal/codexruntime/adapter.go:303-363 | an effective cancellation, persisted or not, stands for the rest of the process and nothing can be collected any more |
| Runtime.SequenceNeverFalls | internal/codexruntime/adapter.go:177-524 | over any stretch of one process a session's sequence never falls, and has risen if its status changed |
| Runtime.ClosedForever | internal/codexruntime/adapter.go:365-407 | a closed session is never touched again, by a finishing execution or a restart |
| Runtime.RecoveredNeverStarts | internal/codexruntime/adapter.go:704-738 | a session recovered from disk is never launched again |
| Runtime.ActionsReplay | internal/codexruntime/adapter.go:217-407 | a recorded action replays its first answer for the rest of the process |
| RuntimeOutcomes.LaunchedInWindow | internal/codexruntime/adapter.go:217-281 | in every run each launch is by a start at a time not before the opening and before the deadline of the window that session was prepared with |
| RuntimeOutcomes.RunAsRequested | internal/codexruntime/adapter.go:177-215 | in every run an unlaunched session still has the binding, input and window of a request that prepared it |
| RuntimeOutcomes.StartOutcome | internal/codexruntime/adapter.go:217-281 | a start under a new key launches exactly a prepared session with its input, inside its window, with a slot free and the write done; it is then seen Running, one sequence number on; otherwise nothing changes |
| RuntimeOutcomes.StartRefusal | internal/codexruntime/adapter.go:217-281 | which refusal means what |
| RuntimeOutcomes.PrepareOutcome | internal/codexruntime/adapter.go:177-215 | preparing a new session leaves it Prepared as requested, at sequence 1 and saved, or nothing |
| RuntimeOutcomes.PrepareAgain | internal/codexruntime/adapter.go:177-215 | a new key for a known session answers with it exactly when the binding is the same |
| RuntimeOutcomes.PrepareReplays | internal/codexruntime/adapter.go:177-215 | for the rest of the process a used key answers with its session, or with a conflict when the request differs |
| RuntimeOutcomes.CancelOutcome | internal/codexruntime/adapter.go:303-341 | a cancellation takes effect exactly on a running session, which is then seen Canceled |
| RuntimeOutcomes.FinishOutcome | internal/codexruntime/adapter.go:487-512 | a finishing execution that was not canceled leaves its status, code and progress, and its result is what is collected |
| RuntimeOutcomes.CollectOutcome | internal/codexruntime/adapter.go:343-363 | a result is collected exactly from a session that ended with one |
| RuntimeOutcomes.ResultStays | internal/codexruntime/adapter.go:343-363 | and stays collectable through everything in the process but closing that session |
| RuntimeOutcomes.ResultSurvives | internal/codexruntime/adapter.go:704-738 | a saved result is still collected after a restart |
| RuntimeOutcomes.CloseOutcome | internal/codexruntime/adapter.go:365-407 | a close takes effect exactly on a session that is over, not closed, and can be saved |
| RuntimeOutcomes.ReleaseOutcome | internal/codexruntime/adapter.go:409-486 | a slot is given back exactly by an execution that has finished |
| RuntimeOutcomes.ProgressOutcome | internal/codexruntime/adapter.go:514-524 | progress is noted exactly on a running session |
| RuntimeOutcomes.RestartOutcome | internal/codexruntime/adapter.go:704-738 | a restart keeps every saved session and binding; what was unfinished is Failed as uncertain, one sequence number on, and nothing else is altered |
| RuntimeAdapter.Adapter.Prepare | internal/codexruntime/adapter.go:177-215 | prepares, replays or conflicts, and leaves nothing behind when it cannot persist |
| RuntimeAdapter.Adapter.Start | internal/codexruntime/adapter.go:217-281 | takes the start step: a prepared session inside its window with a slot free is launched, and nothing changes when it cannot be persisted |
| RuntimeAdapter.Adapter.Cancel | internal/codexruntime/adapter.go:303-341 | cancels in memory whether or not it can persist |
| RuntimeAdapter.Adapter.Close | internal/codexruntime/adapter.go:365-407 | closes only what is finished, and only if persisted |
| RuntimeAdapter.Adapter.Finish | internal/codexruntime/adapter.go:487-512 | records the ending, except that a requested cancellation and a closed session stand |
| RuntimeAdapter.Adapter.UpdateProgress | internal/codexruntime/adapter.go:514-524 | touches only running sessions |
| RuntimeAdapter.Adapter.Reload | internal/codexruntime/adapter.go:704-738 | comes up exactly when every record can be read; unfinished sessions become Failed |
| RuntimeAdapter.Adapter.Serve | internal/codexruntime/adapter.go:177-524 | whatever is asked next, the adapter keeps its invariant and takes the step of the protocol |
| RuntimeAdapter.ExceedsTokenBudget | internal/codexruntime/adapter.go:832-841 | subtracting from a remainder decides whether the sum exceeds the limit |
| Control.RunKeeps | internal/orchestration/control.go:187-360 | every run of plan, claim, bind, transition, heartbeat, retry and reconcile keeps assignments, attempts and leases consistent, on arbitrarily stale reads |
| Control.AcceptedRoad | internal/orchestration/control.go:145-159 | an accepted attempt went through Leased and Preparing to Collecting, AwaitingGates, Accepted, in that order |
| Control.TrailIsShaped | internal/orchestration/control.go:145-159 | every trail the state table allows has that shape |
| Control.StepMoves | internal/storage/sqlite/orchestration_control.go:16-368 | a step moves an assignment along the table or not at all: Planned is left only by a claim, terminal states only by a retry that raises the number by one |
| Control.SupersededForever | internal/storage/sqlite/orchestration_control.go:252-291 | an attempt that a retry has replaced never changes again |
| Control.AcceptedForever | internal/orchestration/control.go:145-159 | an accepted assignment stays accepted on the same attempt |
| Control.NumbersCountRetries | internal/orchestration/control.go:309-360 | the attempt number rises by at most one per retry asked for |
| Control.LostLeaseIsPowerless | internal/storage/sqlite/orchestration_control.go:554-601 | after any run a bind, transition or heartbeat changes the store only for the current attempt, under an active unexpired lease and its fencing digest; once its lease has ended or a retry has replaced it, an attempt changes nothing any more, whatever ran in between |
| Control.OneAssignmentEach | internal/storage/sqlite/orchestration_control.go:16-70 | in every run two assignments never share a work package |
| Control.ControlService.Plan | internal/storage/sqlite/orchestration_control.go:16-70 | a written plan is of a new assignment, attempt and free work package, and leaves a first planned attempt without a lease; any other answer changes nothing |
| Control.ControlService.Claim | internal/storage/sqlite/orchestration_control.go:72-119 | a written claim found the attempt current and planned and leased it, active, at generation 1 until the given time; any other answer changes nothing |
| Control.ControlService.TransitionNow | internal/orchestration/control.go:259-292 | a written transition followed the table and moved assignment and attempt together |
| Control.ControlService.RetryNow | internal/orchestration/control.go:309-360 | a written retry left a retryable end for a new planned attempt numbered one higher |
| Control.ControlService.ReconcileAll | internal/storage/sqlite/orchestration_control.go:293-368 | afterwards no listed assignment's current attempt holds a lapsed active lease; each that did is Expired with its assignment and its lease; everything else is as before |
| Control.ReconcileMeans | internal/storage/sqlite/orchestration_control.go:293-368 | reconciling any list one by one is expiring exactly the lapsed leases on it at once |
| ControlOutcomes.TableIs | internal/orchestration/control.go:145-159 | the state table is the listed set of moves |
| ControlOutcomes.OperationsAreOnce | internal/storage/sqlite/orchestration_control.go:587-606 | an operation on record is never carried out again, after any run |
| ControlOutcomes.ReplayAnswers | internal/storage/sqlite/orchestration_control.go:587-606 | it is answered as present or as a conflict by whether its digest is the same |
| ControlOutcomes.PlanOutcome | internal/storage/sqlite/orchestration_control.go:16-70 | a new operation plans exactly a new assignment, attempt and free work package, as asked; and when it answers that it is present |
| ControlOutcomes.ClaimOutcome | internal/storage/sqlite/orchestration_control.go:72-119 | claims exactly a planned current attempt under an unused lease ID, and what the lease then says |
| ControlOutcomes.BindOutcome | internal/storage/sqlite/orchestration_control.go:121-164 | binds resources exactly for the leased current attempt that presents its live lease and fence, once |
| ControlOutcomes.TransitionOutcome | internal/orchestration/control.go:259-292 | moves exactly along a listed move under the live lease and fence, assignment and attempt together, and what becomes of the lease |
| ControlOutcomes.HeartbeatOutcome | internal/storage/sqlite/orchestration_control.go:220-250 | extends exactly the presented live lease, and nothing else |
| ControlOutcomes.HeartbeatHolds | internal/storage/sqlite/orchestration_control.go:220-250 | a lease so extended is not due before its new time |
| ControlOutcomes.RetryOutcome | internal/orchestration/control.go:309-360 | retries exactly a failed, canceled or expired current attempt under a new attempt and a new digest, numbered one higher |
| Integration.PreviewIsHuman | internal/integrationgate/helpers.go:295-295 | the preview gate counts as a human gate |
| Integration.ControlAdmitsNeither | internal/orchestration/control.go:534-541 | the concrete control admits neither decision the gate sends |
| Integration.GateByID | internal/integrationgate/helpers.go:279-286 | finds the lowest version on record, or there is none |
| Integration.AcceptedWasOffered | internal/integrationgate/gate.go:291-367 | every acceptance is on an attempt where every machine gate has a booked run of its authorised command at its exact version and digest that passed with exit code 0; and it is of a summary evaluated on that attempt, whose tests are all such runs, unless the contract itself demands the reserved gate above version 1 with that summary's digest |
| Integration.AcceptedWasTested | internal/integrationgate/gate.go:291-367 | every machine gate of an accepted attempt ran, passed and exited 0, by the authorised command planned for it |
| Integration.IntegrationGate.RecordGate | internal/storage/sqlite/orchestration_control.go:428-471 | a gate row is inserted, replayed, or moved once out of pending at the same digest |
| Integration.IntegrationGate.RunGate | internal/integrationgate/helpers.go:124-165 | succeeds exactly when the authorised command at the exact version and digest runs, passes and exits 0, its row is open and nothing fails; only then the result is booked as a pass |
| Integration.IntegrationGate.RunGates | internal/integrationgate/helpers.go:124-165 | success means every machine gate's row was open and its command ran cleanly in this call, leaves all those rows satisfied, and gives one exit-0 evidence and one test record each in order; nothing else is booked; with nothing failing such gates always succeed |
| Integration.IntegrationGate.RecordReviewGates | internal/integrationgate/helpers.go:217-227 | success gives every human gate the status at its own version and digest and happens, with nothing failing, exactly when every row can take it; settled rows never change |
| Integration.IntegrationGate.Fail | internal/integrationgate/helpers.go:204-210 | records what it can and fails the attempt when control allows it |
| Integration.IntegrationGate.Examine | internal/integrationgate/gate.go:228-252 | success means a clean result, gates booked from this call's clean runs with their evidence, and the full history, and is certain when result and gates are clean and nothing fails; otherwise, with nothing else failing, the attempt is Failed |
| Integration.IntegrationGate.Evaluate | internal/integrationgate/gate.go:189-289 | a summary is issued only for the current attempt and fence, a manifest and a preview that are clean, unmoved and without conflict, an approving reviewer where one is required, and machine gates all cleanly run by their authorised commands in this call; it carries exactly their exit-0 evidence and is then on record as pending; with nothing failing it is issued exactly then, provided the reviewer approves and the human and preview rows are open; an unclean result, a failed or settled gate or a disapproving review fails the attempt |
| Integration.IntegrationGate.Decide | internal/integrationgate/gate.go:291-367 | acceptance is issued only for the summary on record as pending, re-inspected unchanged, with every machine gate's clean authorised run booked on that attempt and an admitted approval; with nothing failing a decision is carried out exactly when summary, gates and rows allow it and nobody decided otherwise, and replayed exactly when it was carried out before; once carried out, the preview row and every human gate's row are satisfied by an approval and failed by a rejection, which fails the attempt; an unadmitted decision changes nothing |
| IntegrationHistory.StandardIsOrdered | internal/integrationgate/helpers.go:243-277 | operation offsets follow the order of the steps that matter |
| IntegrationHistory.OthersChangeNothing | internal/orchestration/graph.go:324-348 | tests, artifacts, executions and handoffs do not move a package |
| IntegrationHistory.BackboneRemains | internal/integrationgate/helpers.go:167-202 | what an evaluation and approval record, reduced to what matters, is the intended sequence |
| IntegrationHistory.ApprovedWorkIsAccepted | internal/integrationgate/gate.go:337-366 | a package created no later than the evidence, evaluated and approved, reduces to Accepted whatever order its history is supplied in and whatever else is mixed in |
| IntegrationRuns.EvaluateAndApprove | internal/integrationgate/gate.go:189-367 | one evaluation and one approval carried out on a gate leave it Accepted with a history that reduces to Accepted however it is supplied; on a new attempt, with nothing failing, that happens exactly when the result is evaluable, unmoved and free to be approved |
| IntegrationRuns.EvaluateTwice | internal/integrationgate/helpers.go:134-137 | once a summary was issued for a contract with a machine gate, evaluating the attempt again issues none, and with nothing failing fails the attempt |
| IntegrationRuns.AcceptPinned | internal/integrationgate/gate.go:285-366 | whatever else an attainable contract demands, if it pins a summary there is a run that accepts it with nothing ever offered |
| IntegrationRuns.AcceptPinnedAlone | internal/integrationgate/gate.go:285-366 | the contract demanding the reserved gate alone, at version 2, is such a contract for every summary |
| ComputeNode.Normalize | internal/computenode/node.go:249-287 | sort and drop adjacent duplicates gives the normal form |
| ComputeNode.BuiltVerifies | internal/computenode/node.go:136-163 | what is built verifies, and building it again changes nothing |
| ComputeNode.DigestBindsInventory | internal/computenode/node.go:136-163 | verified definitions share a digest exactly when they list the same inventory |
| ComputeNode.Complaints | internal/computenode/node.go:165-218 | there are no complaints exactly when the node is fit |
| ComputeNode.Evaluate | internal/computenode/node.go:165-218 | eligible exactly when fit; the reasons are the complaints, sorted, each once |
| Selection.PreferenceRank | internal/orchestration/selection.go:417-424 | the index of the first matching preference, or past the end |
| Selection.IdentityOrder | internal/orchestration/selection.go:426-443 | identities are totally ordered up to the six fields that tell candidates apart |
| Selection.PreferredOrder | internal/orchestration/selection.go:409-415 | so they are by preference and then identity; `SelectionMeaning.FirstAmong` says which way |
| Selection.NoneTwice | internal/orchestration/selection.go:216-238 | the seen-map loops find a repeated key exactly when there is one |
| Selection.AuthorityReasons | internal/orchestration/selection.go:242-260 | no reason exactly when task, node, work package and adaptation agree and are ready |
| Selection.TradeReasons | internal/orchestration/selection.go:278-305 | no reason exactly when trade and worker match the reference and the worker has every required tag |
| Selection.RuntimeReasons | internal/orchestration/selection.go:307-320 | no reason exactly when the runtime is bound and available and the node is fit for it |
| Selection.PermissionReasons | internal/orchestration/selection.go:322-333 | no reason exactly when every capability is allowed and offered |
| Selection.GateReasons | internal/orchestration/selection.go:335-345 | no reason exactly when every gate has evidence |
| Selection.BudgetReasons | internal/orchestration/selection.go:347-363 | no reason exactly when the request is within budget and a place is free |
| Selection.Reasons | internal/orchestration/selection.go:262-276 | no reason exactly when the candidate is eligible |
| Dispatch.Validate | internal/orchestration/selection.go:200-240 | accepts exactly the valid requests |
| Dispatch.Select | internal/orchestration/selection.go:146-198 | the winner is the strict minimum, by preference then identity, of the eligible candidates the operator asked for; blocked exactly when there is none; every candidate is explained, in identity order |
| Dispatch.OrderIsIrrelevant | internal/orchestration/selection.go:146-198 | permuting the candidates changes nothing in the answer |
| Dispatch.IneligibleAreIrrelevant | internal/orchestration/selection.go:146-198 | adding or removing ineligible candidates changes neither the winner nor whether the request is blocked |
| Dispatch.FirstIsBest | internal/orchestration/selection.go:375-382 | the first wanted one in the ranking is the best choice |
| SelectionMeaning.AnswerMeans | internal/orchestration/selection.go:146-198 | the answer selects, under its own names and versions, an eligible candidate that is the worker and node the operator asked for if they asked, and is blocked exactly when there is none |
| SelectionMeaning.SelectedIsFirst | internal/orchestration/selection.go:146-198 | whoever is selected matches a preference no later than any that another choice matches, and among those of the same place comes first by the six identity fields in order |
| Text.LessMeans | internal/orchestration/selection.go:426-443 | strings are ordered by their first difference, a prefix coming first |
| SelectionMeaning.FirstAmong | internal/orchestration/selection.go:409-443 | the ranking, stated from the preference list and the fields themselves |
| SelectionMeaning.WorkBindsViews | internal/orchestration/selection.go:242-260 | for an eligible candidate the work package and its digest fix the task and node views |
| SelectionMeaning.ViewsBindWork | internal/orchestration/selection.go:242-260 | and the node view fixes the work package and its digest |
| SelectionMeaning.RequestBindsTrade | internal/orchestration/selection.go:278-320 | all eligible candidates have the one trade asked for, active, with the runtime and node each is bound to |
| SelectionMeaning.BudgetLimit | internal/orchestration/selection.go:347-363 | moving one limit keeps a candidate eligible exactly down to what is asked for |
| SelectionMeaning.TimeLimit | internal/orchestration/selection.go:307-320 | so does moving the time, exactly from observation to expiry |
| SelectionMeaning.NodeLimit | internal/computenode/node.go:165-218 | so do leases and health, exactly below the maximum and healthy |
| SelectionMeaning.CapabilityLimit | internal/orchestration/selection.go:322-333 | so do the capabilities, exactly those allowed and offered, and writing or branching only on a node with write access |
| SelectionMeaning.GateLimit | internal/orchestration/selection.go:335-345 | so do the gates, exactly those with evidence at their own version and digest |
| SelectionMeaning.RiskLimit | internal/orchestration/selection.go:335-345 | so does the risk, exactly up to the maximum |
| SelectionMeaning.AuthorityCodes | internal/orchestration/selection.go:242-260 | what each reason against a request says of it |
| SelectionMeaning.TradeCodes | internal/orchestration/selection.go:278-305 | what each reason against a trade or worker says of it |
| SelectionMeaning.TagsAreMissing | internal/orchestration/selection.go:294-305 | a worker of the right trade is refused only for required tags it does not have, each named |
| SelectionMeaning.BudgetCodes | internal/orchestration/selection.go:347-363 | what each reason against a budget says of it |
| Dispatch.CollectBlockReasons | internal/orchestration/selection.go:384-397 | the reasons reported are the global ones, or all reasons sorted, each once, or that nobody is registered |
| Leases.RunSound | internal/desktop/local_node.go:99-183 | in every run under any clock a generation is renewed at most once, generations rise one at a time, and live leases were issued under their names |
| Leases.RunBounded | internal/desktop/local_node.go:99-125 | live leases never exceed the limit |
| Leases.RenewTakesEffect | internal/desktop/local_node.go:127-156 | a renewal under a new key is granted exactly to the owner at the current generation of a live lease, raises the generation by one and spends the old one; otherwise leases only expire |
| Leases.FencedForever | internal/desktop/local_node.go:127-174 | a spent generation never again renews or releases, at any later time |
| Leases.RetiredForever | internal/desktop/local_node.go:99-183 | a released or expired lease never comes back |
| Leases.GrantIsRepeatable | internal/desktop/local_node.go:99-156 | repeating a granted request at any later time returns the same lease and changes nothing |
| LeaseOutcomes.AcquireOutcome | internal/desktop/local_node.go:99-125 | a valid new key is granted exactly when there is room, for the time asked for, and nothing else changes |
| LeaseOutcomes.InvalidIsRefused | internal/desktop/local_node.go:99-103 | exactly which requests are invalid |
| LeaseOutcomes.LiveMeans | internal/desktop/local_node.go:176-183 | what is kept is exactly the leases that have not expired, unchanged |
| LeaseOutcomes.LeaseLasts | internal/desktop/local_node.go:99-183 | through every run that does not renew or release it a lease is held until it expires |
| LeaseOutcomes.LeaseRunsOut | internal/desktop/local_node.go:176-183 | and is gone at that time |
| LeaseOutcomes.ReleaseOutcome | internal/desktop/local_node.go:158-174 | a release takes effect exactly for the owner at the current generation of a live lease, which is then gone, and only it |
| LeaseOutcomes.ReleasedForGood | internal/desktop/local_node.go:158-174 | a released lease is in no later state |
| LeaseOutcomes.RenewKeepsIdentity | internal/desktop/local_node.go:127-156 | a renewal changes the generation and expiry of a lease and nothing else |
| Leases.LocalNames | internal/desktop/local_node.go:198-205 | the local provider gives different owners and keys different lease names |
| Leases.FakeNames | internal/computenode/fake.go:76-108 | so does the fake, although it runs owner and key together |
| Leases.FakeRoom | internal/computenode/node.go:165-218 | the fake has room exactly when its node is active, healthy, fresh and within capacity and a place is free |
| LeaseProviders.Expire | internal/desktop/local_node.go:176-183 | deletes exactly what is over, in whatever order it walks the map |
| LeaseProviders.LocalNodeProvider.AcquireLease | internal/desktop/local_node.go:99-125 | takes the acquire step of the protocol |
| LeaseProviders.LocalNodeProvider.RenewLease | internal/desktop/local_node.go:127-156 | takes the renew step |
| LeaseProviders.LocalNodeProvider.ReleaseLease | internal/desktop/local_node.go:158-174 | takes the release step |
| LeaseProviders.LocalNodeProvider.ActiveLeases | internal/desktop/local_node.go:79-97 | counts the leases still live |
| LeaseProviders.DeterministicFake.AcquireLease | internal/computenode/fake.go:76-108 | takes the acquire step, gated by eligibility |
| LeaseProviders.DeterministicFake.RenewLease | internal/computenode/fake.go:110-140 | takes the renew step |
| LeaseProviders.DeterministicFake.ReleaseLease | internal/computenode/fake.go:142-158 | takes the release step |
| LeaseSimulation.StepMatches | internal/computenode/fake.go:76-167 | in related states one call leads both providers to related states and the same answer, up to lease names |
| LeaseSimulation.AcquireAgreesExactlyWhenUp | internal/computenode/fake.go:76-108 | a new acquisition is answered alike exactly when the fake's node is up or the local provider is full too |
| LeaseSimulation.LocalFollowsFake | internal/computenode/fake.go:76-167 | from empty starts the local provider answers every sequence of calls valid for the fake as the fake does, up to lease names, while the node is up at acquisitions |
| LeaseSimulation.FakeFollowsLocal | internal/desktop/local_node.go:99-183 | and the fake answers the local provider's sequences as it does |
| Overlap.TotalOverlap | internal/insights/insights.go:415-441 | the nested loops compute the sum over pairs |
| Overlap.PairTotalPermutes | internal/insights/insights.go:415-441 | the sum does not depend on the order the executions are listed in |
| Overlap.SharedCountsPairs | internal/insights/insights.go:415-441 | the time shared by pairs is the number of pairs running together, summed over every instant |
| Overlap.OverlapCountsPairs | internal/insights/insights.go:415-441 | on any times the total falls short of that by less than a millisecond per pair, and by nothing exactly when every shared time is a whole number of milliseconds |
| Overlap.MillisecondsCountPairs | internal/insights/insights.go:415-441 | on whole milliseconds it is the number of pairs running together, summed over every millisecond |
| Overlap.ZeroMeansApart | internal/insights/insights.go:415-441 | it is zero exactly when no two executions share a millisecond |
| Overlap.ZeroMeansDisjoint | internal/insights/insights.go:415-441 | on whole milliseconds, exactly when no two ever run together |
| Insights.PackagesAreSeparate | internal/insights/insights.go:132-195 | a package's record depends only on the events that name it |
| Insights.GroupsCountSummaries | internal/insights/insights.go:360-379 | a telemetry group counts exactly the summaries with its versions |
| Insights.Total | internal/insights/insights.go:241-261 | ranging over a map in any order gives the same totals |
| Insights.CollectIntervals | internal/insights/insights.go:415-421 | collects exactly the timed executions, in any order |
| Insights.FineOverlapIsLost | internal/insights/insights.go:415-441 | two recorded executions can run together and the total be zero |
| Insights.Calculate | internal/insights/insights.go:107-352 | however the maps are ranged over, the counts, durations, rates and quality labels are those of the history |
| Insights.RatesAreFractions | internal/insights/insights.go:241-352 | a reported completion or first-pass rate lies between 0 and 1 |
| Insights.OrderIsIrrelevant | internal/insights/insights.go:107-352 | the order of the events does not reach the metrics |
| InsightCounts.EventFigures | internal/insights/insights.go:132-221 | each tally is the number of accepted events of its kind, and each producer count the number by that producer |
| InsightCounts.PackageFigures | internal/insights/insights.go:241-256 | each state count is the number of packages in that state, and first passes are the accepted ones without rework |
| InsightCounts.ExecutionFigures | internal/insights/insights.go:262-275 | completed executions are those that ended, untimed ones those of them that never started |
| InsightCounts.RetriesAndRework | internal/insights/insights.go:145-155 | retries are the moves from Failed to Ready, rework those from Review to InProgress |
| InsightCounts.StateIsLast | internal/insights/insights.go:141-173 | a package is in the state the last event that sets one put it in |
| InsightCounts.DatedByLast | internal/insights/insights.go:141-173 | creation and acceptance are dated by the last such event |
| InsightCounts.DatedByFirst | internal/insights/insights.go:156-195 | readiness, review, start and end by the first |
| InsightCounts.TimesTaken | internal/insights/insights.go:396-413 | the time queued, executing, in review and awaiting acceptance in whole milliseconds, counted exactly where both ends are known and in order |
| InsightCounts.ExecutionTime | internal/insights/insights.go:276-284 | the time of an execution in whole milliseconds, where it started and ended in that order |
| InsightCounts.TelemetryFigures | internal/insights/insights.go:360-394 | each outcome is counted once per accepted summary that reports it; a group is shown exactly with at least three accepted summaries, and says how many |
| InsightCounts.AggregateMeans | internal/insights/insights.go:464-473 | what is known and unknown add up, and the average is the mean cut off towards zero |
| InsightCounts.LatestIsGreatest | internal/insights/insights.go:342-347 | the figures are as recent as the latest accepted event |
| InsightCounts.RatesMean | internal/insights/insights.go:448-453 | what the completion and first-pass rates divide, and when they are unknown |
| InsightCounts.LabelsPromise | internal/insights/insights.go:474-482 | complete only on three accepted events with none pending; insufficient exactly on none |
| BrowserSessions.RunKeeps | internal/api/browser_session.go:79-227 | in every interleaving there are at most 16 tickets and 8 sessions, and every session ever opened was paid for by a ticket of its own that was issued, unexpired and is gone |
| BrowserSessions.SessionsWithinTickets | internal/api/browser_session.go:79-145 | there are never more sessions than tickets issued |
| BrowserSessions.GoneForever | internal/api/browser_session.go:79-145 | a ticket once issued and gone from the table never returns in any later run |
| BrowserSessions.UsedTicketIsRefused | internal/api/browser_session.go:103-145 | a ticket accepted once is refused at every later time, after any further steps, whether its exchange was finished, refused or abandoned |
| BrowserSessions.LiveSessionWasOpened | internal/api/browser_session.go:195-214 | a session answers only within eight hours of the exchange that opened it |
| SessionOutcomes.SessionAnswers | internal/api/browser_session.go:172-214 | after any run before its expiry a session is found, with the CSRF digest last set for it |
| SessionOutcomes.OpenOutcome | internal/api/browser_session.go:126-145 | an exchange opens a session for eight hours exactly when fewer than eight are running |
| SessionOutcomes.RotateOutcome | internal/api/browser_session.go:172-193 | a rotation takes effect exactly on a running session, whose new digest is then found; other sessions are found as before |
| SessionOutcomes.IssueOutcome | internal/api/browser_session.go:79-101 | a ticket is issued for two minutes exactly when fewer than sixteen are pending |
| SessionOutcomes.TicketStaysGood | internal/api/browser_session.go:103-124 | until it expires an unused ticket is redeemed, unless eight sessions are running |
| SessionOutcomes.StaleTicketIsRefused | internal/api/browser_session.go:103-124 | a ticket that is unknown or has expired is refused |
| BrowserSessions.PruneTickets | internal/api/browser_session.go:216-227 | deletes exactly the tickets that ran out |
| BrowserSessions.PruneSessions | internal/api/browser_session.go:216-227 | deletes exactly the sessions that ran out |
| BrowserSessions.BrowserSessionManager.IssueTicket | internal/api/browser_session.go:79-101 | takes the issue step |
| BrowserSessions.BrowserSessionManager.RedeemTicket | internal/api/browser_session.go:103-124 | takes the first section of an exchange |
| BrowserSessions.BrowserSessionManager.OpenSession | internal/api/browser_session.go:136-145 | takes the second section, on the clock reading of the first |
| BrowserSessions.BrowserSessionManager.FindSession | internal/api/browser_session.go:195-214 | finds a session only while it lasts |
| BrowserSessions.BrowserSessionManager.RotateCSRF | internal/api/browser_session.go:172-193 | changes the CSRF digest of a live session and nothing else |

## Left out

- Contracts.Build: the checks of `validateBindings` before and after the version check are one flag each, because they are independent format tests; the remaining refusals share one error.
- TaskGraph.DigestBindsDependencies: names hold neither separator byte, because the identifier pattern of project records admits neither.
- GraphBinding.RevisionBindsDependencies: names hold neither separator byte, for the same reason; digests tell encodings apart, because SHA-256 is a parameter.
- ReadinessMeaning.WatermarkBinds: record IDs and digests hold neither separator byte, for the same reason.
- Readiness.SnapshotDeterminate: a record ID stands for one event, because two different events under one ID sort in no fixed order.
- Integration.IntegrationGate.Evaluate: exactly when it succeeds is stated for contracts that demand each gate once, which `Gates.RequiredGates` shows of every built contract; when it is refused, how much history was recorded before the refusal is stated only for the failure records; two calls of evaluate and decide do not overlap; control calls from elsewhere may come between them and change the attempt, its state, lease, fence and resources, but not the gate rows or decisions.
- Insights.Calculate: rates are real numbers, not floating point, and JSON encoding is not modelled; accepted creation, change and acceptance events name a package, because the fold dereferences it.
- LeaseProviders.LocalNodeProvider.constructor: a concurrency outside 1 to 2 is a precondition, because construction is refused there.
- BrowserSessions.RunKeeps: random tokens never repeat, because a repeated token would overwrite its table entry.
- Audit rows, recovery dispositions and the text of reason codes in assignment control.
- `filepath.Clean`-based validation of paths, which is a parameter of the policy model.
- JSON encoding, SHA-256, regular expressions other than the identifier pattern, and redaction of text.
- Context cancellation, mutexes and goroutines as such: each critical section is one atomic step.
- HTTP handlers, the API client, command-line tools, the embedded interface, credential stores, pairing and transport security.
- The scheduler, work-history and result-intake services, workspaces, the context compiler, daemon start-up, settings and diagnostics.
