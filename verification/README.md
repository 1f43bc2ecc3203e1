# Relayvia runtime: a verified model

Relayvia executes workflow graphs durably. A WorkflowRun carries an immutable
graph snapshot; each node has a NodeRun, at most one ExecutionTask, and a
Scheduler, server Workers, pull-based Runners, a periodic recovery pass and
people acting through the API all change the same rows. This project models
that runtime as one transition system and proves what holds over every run of
it, whoever calls in whatever order and with whatever arguments.

## How the model is built

- `Basics`, `StateMachines`, `Graphs`, `RunRows`: values, the three transition
  tables, graphs and their walks, and the rows of one run (`RunStore` is the
  mutable database view of them).
- `Scheduling`, `SchedulerRules`, `QueueRules`, `LifecycleRules`: each
  transaction as a function from rows to rows. These functions are the
  specification; a call that raises is a `Reply` with the rows unchanged.
- `SchedulerService`, `ExecutionBackend`, `RunnerService`, `RunService`,
  `Recovery.RunExecutionRecovery`: the same transactions as methods that update
  a `RunStore` step by step, each proved to do exactly what its rule says.
- `Runtime`: an `Action` per transaction, `Step`, and `Execute(g, input, acts)`,
  the state after any sequence of actions on a run created from `g`.
- `Invariant` and the `...Safety` modules: the inductive invariant (`Inv`, with
  leases `Sane`) and the law every transaction obeys (`Lawful`).
- `History`, `Fencing`, `Lanes`, `Coupling`, `Progress`, `Wakeup`,
  `Idempotence`, `SkipExactness`, `Recovery`, `ParkedRows`: theorems over whole
  runs.
- `CallTable`: every call in a table of plain conditions and effects. `RowOrigins`,
  `Origins`: which action gave a row its result. `Timers`, `Backoff`: what the
  clock holds back, over every continuation. `Forms`: which answers a form takes.
- `TraceLedger`, `TraceMoves`, `RunTrace`: the event log equals what happened.
- `Limits`, `FailFast`, `FailFastExample`: what the runtime does not promise,
  with the exact conditions and runs that show it.
- `Dispatching`, `UnresolvedNodes`, `Stall`, `Revival`, `StalledForGood`,
  `StallExample`, `BranchExample`: which tasks the scheduler cannot create
  because references do not resolve, and when a run stalls on them, until an
  answer or for good.
- `SampleNodes`, `WorkerTurns`: nodes and Worker calls of the concrete runs.
- `GraphIndex` (module `GraphAnalysis`), `Topology`: the memoised graph
  analyses and the topology pass, and what a graph without issues guarantees.
- `ContextReferences`, `ContextResolver`, `TemplateSubstitution`,
  `ReferenceGrammar`, `ScannerGrammar`, `ReferenceValues`, `ContextSafety`,
  `StatusReferences`, `StatusMasked`: the template language, its resolver, what a
  reference means, and the link to the execution order and the run status.
- `EventStream`: the SSE tail of the event log, under any order of commits.

Several conditions are wrapped in a function that returns a `Verdict`, so that a
proof can carry them as one fact.

## Assumptions

- A committed transaction is one step. It reads its own writes, except that the
  session factory disables autoflush
  (backend/app/infrastructure/database/session.py:27): tasks added by
  `schedule_ready_nodes` are seen by the cancelling SELECT of the same reconcile
  only if something flushed them. The set `unflushed` names those that were not;
  it is arbitrary in every theorem.
- The clock is a natural number that never goes back; lease tokens are fresh.
  `resume_at` is a point on that clock.
- Rows are visited in graph order where a SELECT leaves the order open.
- Which task a claim picks (priority, age) is left open: any eligible task may
  be claimed. Rows skipped by a locking SELECT are an arbitrary set `locked`.
- Which nodes' config or input fails to resolve at scheduling time is the
  arbitrary pair of sets `Unresolved`; such tool and coding nodes stay PENDING.
  `Dispatching.Honest` ties the sets to what the resolver really answers on the
  current rows, and the verdict on a submitted form to the node's form schema
  (whether a value meets a schema is the parameter `Env.meets`); the stall
  theorems are about runs whose actions are honest.
- Event ids are distinct; nothing is assumed about their order.
- Clients follow the calls of the shipped Worker (`Runtime.Follows`): the Worker
  parks exactly the waiting node types, asks for a retry only within its own
  count of attempts, and nobody reconciles a run that was never started. A call
  outside these rules is a step without effect. Runners are unconstrained.
- `Publishable` (unique ids, existing endpoints, no cycle, exactly the input
  nodes without incoming edge, a successor for every parking node) is what the
  run theorems ask of the graph. `Topology.PublishedGraphsAreWellShaped` derives
  it from the validation that precedes every version.

## Where code and documentation differ

- docs/execution-queue-worker.md:266-267 says that fail-fast cancels all other
  non-terminal tasks and NodeRuns. The code leaves WAITING nodes WAITING, and
  tasks created by the same reconcile stay PENDING when they were not flushed.
  `FailFast.FailFastResidue` and `FailFast.FailFastNodes` give the exact
  conditions, `FailFastExample` a run for each.
- The attempt budget does not bound attempts: lease recovery never consults it
  (`Limits.AttemptsExceedAnyBound`). `Fencing.AttemptAccounting` is the exact
  ledger, `Fencing.BudgetExceeded` says when the budget is exceeded.
- A Runner heartbeat revives a lease that expired and was not recovered yet
  (`Limits.HeartbeatRevives`).
- docs/execution-queue-worker.md:335-338 says that a client resumes the event
  stream with the events it has not consumed, and that the stream ends with the
  run. Ids are handed out at insertion and
  `complete` locks only its task row
  (backend/app/infrastructure/execution_backend/mysql.py:179), so two completions
  of one run can commit in the other order, and a tail that polls in between
  skips the earlier id for good (`EventStream.CompletionLost`). A client gets
  every event if and only if none becomes visible when it is past its id
  (`EventStream.DeliversExactly`).
- `cycle_nodes` returns the nodes on a cycle and everything downstream of one.
- A reference with a line break inside its braces resolves when it is the whole
  text, but the scanner that validation uses rejects it
  (`ContextReferences.PureAccepted`, `ContextReferences.LineBreakInReference`).
- Interpolation replaces references one after the other, so a value that holds
  the text of a later reference is rewritten too
  (`TemplateSubstitution.BracesLeak`, `TemplateSubstitution.LeakExample`).
- `{{run.status}}` reads the live row, so an attempt after a pause can see other
  inputs than the one before (`StatusReferences.StatusMoves`). Inputs change
  exactly when a reference reads the status and the status changed
  (`StatusReferences.ResolutionFollowsStatus`), as long as the values that are
  interpolated hold no opening brace; without that condition a value can hide the
  status (`StatusMasked.StatusIsMasked`).
- A Codex agent whose task does not resolve falls back to the Worker lane
  instead of waiting (`Dispatching.UndispatchedWhen`).
- A Tool whose config does not resolve is looked at again later, but if what it
  refers to lies upstream nothing can change: it stays PENDING for good
  (`UnresolvedNodes.UnresolvedForGood`); it does so too when it refers to a
  skipped node, whatever else it refers to
  (`UnresolvedNodes.SkippedReferenceStrands`).
  The run then stays RUNNING without a live task. `Stall.StallsExactly` says when
  a reconcile leaves such a run, `Revival.RevivesExactly` when it can ever have a
  live task again, `StalledForGood.StalledForever` what it is without parked
  nodes: stuck until cancelled. `StallExample.ToolStallsForever` and
  `BranchExample.SkippedBranchStalls` are such runs.
  The context pass does not look at a Tool's config
  (backend/app/runtime/validation/rules/context.py:48-70), so nothing rejects it
  beforehand.

## Model

| member | source | states |
|---|---|---|
| RunRows.RunStore.constructor | backend/app/domain/runs/service.py:215-231 | a created run has one NodeRun per node: inputs COMPLETED with the run input, all others PENDING, no task, no event |
| Scheduling.SkipSetLeast | backend/app/runtime/scheduler/workflow_scheduler.py:71-97 | the pass-by-pass loop computes the least set of pending nodes closed under "every incoming edge is dead", whatever the node order |
| Scheduling.MarkingCloses | backend/app/runtime/scheduler/workflow_scheduler.py:71-97 | after marking no pending node is left with only dead inputs, and every mark is justified |
| Scheduling.BranchDecides | backend/app/runtime/scheduler/workflow_scheduler.py:57-68 | of a completed Condition whose output object names the branch "true" or "false" exactly the edges with that handle are active, for any other output all of them; of any other node all edges, unless it was skipped |
| SchedulerService.FindReadyNodes | backend/app/runtime/scheduler/workflow_scheduler.py:34-54 | returns, in graph order, exactly the PENDING nodes with an active input all of whose active inputs completed |
| SchedulerService.MarkUnreachable | backend/app/runtime/scheduler/workflow_scheduler.py:71-97 | the in-place loop terminates and skips exactly the least closure, changing nothing else |
| SchedulerService.ScheduleReadyNodes | backend/app/runtime/scheduler/workflow_scheduler.py:136-238 | in a RUNNING run: skip, log the skips, create one task per ready node without one whose dispatch resolves; otherwise nothing |
| SchedulerService.PromoteDueWaits | backend/app/runtime/scheduler/workflow_scheduler.py:303-342 | exactly the elapsed wait timers complete with their metadata as output, each with its two events |
| SchedulerService.CancelRunTasks | backend/app/runtime/scheduler/workflow_scheduler.py:344-373 | cancels every visible live task with its node, then every node still PENDING |
| SchedulerService.ReconcileRun | backend/app/runtime/scheduler/workflow_scheduler.py:240-279 | the whole reconcile transaction, including the rollback when the run transition is refused |
| ExecutionBackend.Claim | backend/app/infrastructure/execution_backend/mysql.py:50-143 | leases a PENDING, available Worker task of a RUNNING run and changes nothing else |
| ExecutionBackend.Start | backend/app/infrastructure/execution_backend/mysql.py:145-166 | the owner begins one attempt, or the task is released or cancelled when the run is not RUNNING |
| ExecutionBackend.ReleaseOrCancel | backend/app/infrastructure/execution_backend/mysql.py:359-378 | back to the queue of a paused or waiting run, cancelled otherwise |
| ExecutionBackend.Complete | backend/app/infrastructure/execution_backend/mysql.py:168-193 | task and node complete together, or nothing is written |
| ExecutionBackend.Fail | backend/app/infrastructure/execution_backend/mysql.py:195-217 | task and node fail together, or nothing is written |
| ExecutionBackend.WaitNode | backend/app/infrastructure/execution_backend/mysql.py:219-239 | the node parks and its task completes, or nothing is written |
| ExecutionBackend.ScheduleRetry | backend/app/infrastructure/execution_backend/mysql.py:241-258 | the task leaves its lease and waits for its retry time, the node is RETRYING |
| ExecutionBackend.RenewLease | backend/app/infrastructure/execution_backend/mysql.py:260-268 | only the owner of an unexpired lease extends it |
| ExecutionBackend.RecoverExpired | backend/app/infrastructure/execution_backend/mysql.py:284-305 | exactly the unlocked tasks with an expired lease return to the queue without lease columns |
| ExecutionBackend.PromoteDueRetries | backend/app/infrastructure/execution_backend/mysql.py:308-326 | exactly the unlocked due retries are requeued with their nodes, or nothing when one transition is refused |
| RunnerService.RunnerClaim | backend/app/domain/runners/service.py:183-263 | a matching Runner leases and starts a task in one transaction |
| RunnerService.TaskHeartbeat | backend/app/domain/runners/service.py:266-305 | the named holder of a RUNNING task extends its lease, any other task state answers with the cancel signal |
| RunnerService.RecordResult | backend/app/domain/runners/service.py:342-470 | the owner's result completes, retries or fails the task with its node and log lines, or nothing is written |
| RunnerService.RunnerSubmit | backend/app/domain/runners/service.py:324-475 | the result is recorded and, unless it is retried, the run is reconciled after the commit |
| RunService.StartRun | backend/app/domain/runs/service.py:414-426 | moves the run and schedules its first nodes, or is refused |
| RunService.PauseRun | backend/app/domain/runs/service.py:429-436 | moves the run to PAUSED and touches nothing else |
| RunService.ResumeRun | backend/app/domain/runs/service.py:439-450 | moves the run to RUNNING and reconciles it |
| RunService.CancelRun | backend/app/domain/runs/service.py:454-484 | cancels the run, every unfinished node and every live task |
| RunService.ApproveNodeRun | backend/app/domain/runs/service.py:554-568 | completes exactly an approval that is parked in an actionable run, then reconciles the run |
| RunService.RejectNodeRun | backend/app/domain/runs/service.py:571-587 | fails exactly such an approval if it may be rejected, then reconciles the run |
| RunService.SubmitNodeRun | backend/app/domain/runs/service.py:590-618 | completes exactly a parked human input with the submitted, valid data, then reconciles the run |
| Recovery.RunExecutionRecovery | backend/app/runtime/recovery/execution_recovery.py:17-40 | the pass performs recovery, promotion and, for an active run, reconciliation |
| CallTable.CallsAreTabled | backend/app/infrastructure/execution_backend/mysql.py:50-378 | in every reachable state every call but the scheduling ones is accepted if and only if a condition on status, lease, clock and arguments holds, and then changes exactly the stated columns and appends exactly the stated events |
| CallTable.ResultDecides | backend/app/domain/runners/service.py:342-470 | in every reachable state a Runner's result is accepted exactly from the holder of an unexpired lease of an executing task; then the task is COMPLETED if and only if the result is ok, RETRY_WAIT if and only if it is a retryable failure with an attempt left, FAILED otherwise, and the node alike |
| RuntimeSafety.StepSane | backend/app/runtime/state_machine/__init__.py:39-69 | every action of a Runner or API client with any arguments, and every action of a Worker that keeps to its protocol, keeps the invariant and obeys the row laws |
| RuntimeSafety.AlwaysSane | backend/app/domain/execution/state_machine.py:23-37 | the invariant holds after every sequence of actions on a published graph |
| Progress.NoDeadlock | backend/app/runtime/scheduler/workflow_scheduler.py:34-97 | at the skip fixed point of a live run without failures: all nodes are finished, or work is in flight, or a node is parked, or a node is ready |
| Progress.ParkedBlocksSuccessor | backend/app/runtime/scheduler/workflow_scheduler.py:112-127 | a parked node has a successor that is still PENDING, so a run with parked nodes is not complete |
| Wakeup.InFlightIsLive | backend/app/runtime/scheduler/workflow_scheduler.py:116-126 | nodes are in flight exactly when some task is live |
| Wakeup.NoLostWakeup | backend/app/runtime/scheduler/workflow_scheduler.py:240-279 | after reconciling any reachable RUNNING or WAITING run: RUNNING has a live task (or every ready node waits for inputs to resolve), WAITING has a parked and a PENDING node, nothing live, nothing ready, COMPLETED has every node COMPLETED or SKIPPED, FAILED has a failed node; the call never raises |
| Wakeup.CompletedMeansDone | backend/app/runtime/scheduler/workflow_scheduler.py:112-115 | every node of a COMPLETED run is COMPLETED or SKIPPED |
| Idempotence.ReconcileTwice | backend/app/runtime/scheduler/workflow_scheduler.py:240-279 | in any reachable state a second reconcile at the same clock changes no row and appends no event |
| FailFast.FailsWithItsNodes | backend/app/runtime/scheduler/workflow_scheduler.py:256-268 | a reconcile of a RUNNING or WAITING run fails it if and only if some node has failed |
| FailFast.FailFastResidue | backend/app/runtime/scheduler/workflow_scheduler.py:344-373 | a reconcile of a reachable run with a failed node fails the run, and leaves a live task if and only if one of the nodes ready on the current rows (due timers completed, cut-off nodes skipped) is queued unseen by the cancelling SELECT |
| FailFast.FailFastNodes | backend/app/runtime/scheduler/workflow_scheduler.py:344-373 | such a reconcile leaves a node unfinished if and only if it is WAITING and no due timer, or queued unseen |
| FailFastExample.FailedRunKeepsTask | backend/app/runtime/scheduler/workflow_scheduler.py:262-272 | a concrete run ends FAILED with a live task in its queue |
| FailFastExample.FailedRunKeepsParkedNode | backend/app/runtime/scheduler/workflow_scheduler.py:262-272 | a concrete run ends FAILED with its approval still WAITING |
| SkipExactness.SkipIsExact | backend/app/runtime/scheduler/workflow_scheduler.py:57-97 | after scheduling any reachable RUNNING run a node is SKIPPED if and only if every walk from an input to it crosses an edge of a completed Condition whose output names a branch other than the handle of the edge |
| SkipExactness.OtherBranchSkipped | backend/app/runtime/scheduler/workflow_scheduler.py:57-97 | after scheduling any reachable RUNNING run no node on the branch a Condition took is SKIPPED, and every node all of whose edges leave the Condition on the other branch is |
| History.LaterStates | backend/app/runtime/state_machine/__init__.py:72-77 | settled nodes, finished tasks, budgets and the log are kept by every later state |
| History.TerminalIsAbsorbing | backend/app/runtime/scheduler/workflow_scheduler.py:250-256 | once a run is terminal no action changes any row or appends any event |
| History.OutputIsFinal | backend/app/infrastructure/execution_backend/mysql.py:392-407 | a COMPLETED NodeRun and its output never change |
| History.EnteredInOrder | backend/app/runtime/scheduler/workflow_scheduler.py:46-68 | once a node has a task, in every later state an active edge from a completed source leads into it and every other incoming edge is dead or has a completed source |
| History.DeadForGood | backend/app/runtime/scheduler/workflow_scheduler.py:57-68 | an edge that is inactive stays inactive |
| History.SettledAncestors | backend/app/runtime/scheduler/workflow_scheduler.py:159-238 | when a node has a task, all its ancestors are COMPLETED or SKIPPED |
| History.PauseFreezes | backend/app/infrastructure/execution_backend/mysql.py:93-165 | over any stretch in which the run is not RUNNING no task is created and no attempt begins |
| Timers.TimerHolds | backend/app/runtime/scheduler/workflow_scheduler.py:303-321 | a wait of d seconds set at clock c: in every continuation the node is WAITING, CANCELLED, or COMPLETED with the record of that wait, and COMPLETED only from c + max(d, 1) on |
| Timers.TimerEnds | backend/app/runtime/scheduler/workflow_scheduler.py:303-342 | from then on every reconcile of a RUNNING or WAITING run leaves it COMPLETED with that record |
| Backoff.BackoffHolds | backend/app/infrastructure/execution_backend/mysql.py:241-258 | a retry granted at clock c with backoff b, by Worker or Runner: in every continuation the task is in RETRY_WAIT or CANCELLED and its attempt count unchanged while the clock is below c + b |
| Backoff.BackoffEnds | backend/app/infrastructure/execution_backend/mysql.py:308-326 | from c + b on every promotion that does not skip the row requeues the task and its node |
| Origins.OutputsHaveOrigins | backend/app/infrastructure/execution_backend/mysql.py:168-193 | the output of a COMPLETED node is the run input, the payload its leaseholder reported, an approval, submitted and valid data, or the record of a wait that was set and has passed |
| Origins.FailuresHaveOrigins | backend/app/infrastructure/execution_backend/mysql.py:195-217 | a FAILED node was reported failed by its leaseholder, by a Runner only when no retry was due, or is an approval that may be rejected and was |
| Origins.ParkingHasOrigin | backend/app/workers/workflow_worker.py:92-108 | what a WAITING node waits for was set by an accepted park of its leaseholder, from the node's kind, the duration and the clock |
| Forms.FormDecides | backend/app/domain/runs/service.py:590-607 | in every reachable state an answer is accepted if and only if the input node waits for one in an actionable run and the answer meets every schema its config asks for |
| Fencing.OneHolder | backend/app/infrastructure/execution_backend/mysql.py:341-352 | a task accepts one client and token at a time, the one it was granted to, and no token is accepted on two tasks |
| Fencing.OwnableNotRecoverable | backend/app/infrastructure/execution_backend/mysql.py:284-305 | a held task of a reachable state is ownable, by the client it was granted to alone, exactly before its lease expires, and recoverable exactly after |
| Fencing.StaleTokenStaysDead | backend/app/infrastructure/execution_backend/mysql.py:284-305 | a granted token that a task no longer carries is never accepted again, over every continuation |
| Fencing.UninterruptedLease | backend/app/domain/runners/service.py:288-303 | a token carried at two moments was carried at every moment between, so no other client held the task |
| Fencing.AtMostOneCommit | backend/app/infrastructure/execution_backend/mysql.py:168-238 | over any run at most one complete, fail or wait report is accepted per task, and the task entered COMPLETED or FAILED exactly if it is so now |
| Fencing.RetryDecisionsAgree | backend/app/workers/workflow_worker.py:202-210 | a retryable failure that a Runner reports and that is accepted puts the task into RETRY_WAIT if and only if the Worker's own count, attempts at claim time plus one, leaves a retry |
| Fencing.AttemptAccounting | backend/app/workers/workflow_worker.py:202-210 | attempts equal starts; granted retries are at most the budget minus one; attempts equal granted retries plus recoveries of running leases plus the attempt a cancellation cut short plus the one in progress or committed |
| Fencing.BudgetExceeded | backend/app/infrastructure/execution_backend/mysql.py:284-305 | attempts of any task exceed its budget if and only if more running leases were recovered than the budget leaves after the retries, the attempt a cancellation cut short and the current one |
| Lanes.LaneIsConfigured | backend/app/runtime/scheduler/workflow_scheduler.py:181-233 | in every reachable state each task has the attempt budget its node's settings ask for, clamped to 1..11, and the lane and Runner of its kind: Tools their Runner, Codex agents theirs or the Worker, all others the Worker |
| Lanes.OnlyItsRunner | backend/app/domain/runners/service.py:183-263 | every lease ever granted on a pinned Tool was granted to the Runner it is pinned to, and nobody else holds its task |
| Lanes.GrantsAreQualified | backend/app/domain/runners/service.py:183-200 | every lease ever granted on a task that asks for a capability was granted to a claim that named it |
| Coupling.AlwaysCoupled | backend/app/infrastructure/execution_backend/mysql.py:145-324 | in every reachable state each task status goes with its NodeRun statuses |
| Coupling.NoInvalidTransition | backend/app/runtime/state_machine/__init__.py:80-99 | no call ever raises an invalid NodeRun transition, no reconcile an invalid run transition |
| Coupling.StartedStaysRunning | backend/app/infrastructure/execution_backend/mysql.py:168-258 | while a client that started a task holds its lease, the task is RUNNING or finished, so its reports fit the task table |
| Recovery.AlwaysPunctual | backend/app/infrastructure/execution_backend/mysql.py:241-258 | only deferred retries have an availability time in the future |
| Recovery.RecoveryAttends | backend/app/runtime/recovery/execution_recovery.py:17-40 | after one pass over any reachable state every task whose row was not locked can be claimed now, is held under an unexpired lease, has its retry ahead, or is over |
| Recovery.RecoveryRevives | backend/app/runtime/recovery/execution_recovery.py:17-40 | after one pass with inputs resolvable and no row locked, a RUNNING run has such a live task; the pass never raises |
| TraceLedger.TraceIsExact | backend/app/infrastructure/execution_backend/mysql.py:329-338 | in every reachable state the log holds per node one NODE_STARTED per attempt, and one NODE_COMPLETED, NODE_FAILED, NODE_SKIPPED, NODE_CANCELLED if and only if the rows say so |
| TraceMoves.MovesAreLogged | backend/app/infrastructure/execution_backend/mysql.py:329-338 | over every run the log holds per node exactly one NODE_QUEUED per queueing, one NODE_RETRYING per granted retry, one NODE_WAITING per parking, one NODE_RESUMED per answer or elapsed timer |
| TraceMoves.LinesAreLogged | backend/app/domain/runners/service.py:383-404 | over every run the log holds exactly the output lines of the accepted results |
| RunTrace.RunIsLogged | backend/app/runtime/scheduler/workflow_scheduler.py:282-295 | the events of the run itself are, in order, its start, its cancellation, and one for every status a reconcile moved it to, and no other |
| Limits.AttemptsExceedAnyBound | backend/app/infrastructure/execution_backend/mysql.py:284-305 | any executing task can be started more often than any bound |
| Limits.HeartbeatRevives | backend/app/domain/runners/service.py:288-303 | in any reachable state a heartbeat followed by any result is accepted if and only if the task is executing in a live run and its lease names the sender, however long ago it expired |
| GraphAnalysis.GraphIndex.constructor | backend/app/runtime/validation/graph_index.py:26-35 | the adjacency lists are those of the graph and all memos are empty |
| GraphAnalysis.GraphIndex.AncestorsOf | backend/app/runtime/validation/graph_index.py:46-64 | exactly the other nodes with a walk to the node, memoised or not, on any graph |
| GraphAnalysis.GraphIndex.DescendantsOf | backend/app/runtime/validation/graph_index.py:66-83 | exactly the other nodes the node has a walk to, which are those it is an ancestor of |
| GraphAnalysis.GraphIndex.ReachableFrom | backend/app/runtime/validation/graph_index.py:85-96 | exactly the start nodes and what they reach |
| GraphAnalysis.GraphIndex.CycleNodes | backend/app/runtime/validation/graph_index.py:98-113 | Kahn's leftovers are exactly the nodes on a cycle or downstream of one, multi-edges included |
| GraphAnalysis.GraphIndex.HasCycle | backend/app/runtime/validation/graph_index.py:115-116 | true if and only if the graph has a directed cycle |
| Topology.ValidateTopology | backend/app/runtime/validation/rules/topology.py:18-122 | an issue is reported if and only if the graph has that flaw |
| Topology.NoIssuesMeansSound | backend/app/runtime/validation/rules/topology.py:18-122 | no issue if and only if one input reaches every node, inputs and outputs end the graph, there is no cycle, and every working node reaches an output |
| Topology.PublishedGraphsAreWellShaped | backend/app/domain/workflows/service.py:221-232 | the validation before a version is created guarantees what the run theorems assume |
| ContextReferences.ParseContextReferences | backend/app/domain/workflows/context_reference.py:44-65 | the scanning loop returns the references of all templates, or rejects malformed, open or unbalanced text |
| ScannerGrammar.ScannerExact | backend/app/domain/workflows/context_reference.py:44-65 | the scanner accepts a text with a list of references if and only if the text is made of these references, each well formed and on one line, with parts between them in which no template starts, and, outside the references, as many doubled opening as closing braces (none at all if there is no reference) |
| ContextReferences.PureAccepted | backend/app/domain/workflows/context_reference.py:28-65 | a text that is one reference is accepted by the scanner if and only if it holds no line break, and then yields just that reference |
| ContextReferences.LineBreakInReference | backend/app/domain/workflows/context_reference.py:10-15 | a concrete reference the resolver accepts and the scanner rejects |
| ReferenceGrammar.GrammarExact | backend/app/domain/workflows/context_reference.py:10-42 | which texts are a reference, with which scope and path: if and only if they are braces, white space, and a dotted scope and path of identifiers |
| ContextResolver.NavigatePath | backend/app/runtime/context/resolver.py:36-42 | the cursor walk finds the value at a path, or nothing when a step is missing or no object |
| ContextResolver.ResolveText | backend/app/runtime/context/resolver.py:68-78 | a pure reference keeps its native type, any other text is interpolated, and it fails when a reference does |
| ContextResolver.ValueResolves | backend/app/runtime/context/resolver.py:59-93 | any value resolves if and only if the resolver can read its references and each navigates to a value |
| ContextResolver.ResolveSucceeds | backend/app/domain/workflows/context_reference.py:68-80 | for every value the scanner accepts, resolution succeeds if and only if every extracted reference navigates to a value |
| ReferenceGrammar.ReferenceReads | backend/app/runtime/context/resolver.py:80-93 | a reference resolves to a value if and only if a chain of objects leads to it along the path from the root of the reference's own scope |
| ReferenceGrammar.TextReads | backend/app/runtime/context/resolver.py:68-74 | a text that denotes a scope and a path resolves to exactly the value there, with its native type |
| ReferenceGrammar.VariableReads | backend/app/runtime/context/resolver.py:84-85 | `{{workflow.variables.k}}` is the entry k of the variables |
| ReferenceValues.EmbeddedReads | backend/app/runtime/context/resolver.py:68-78 | a reference between other text resolves to that text with the printed value in its place, and fails when its scope holds nothing there |
| ReferenceValues.ResolveFills | backend/app/runtime/context/resolver.py:59-66 | a value resolves to another if and only if that has the same keys and items with every text in it resolved |
| ReferenceValues.RunReads | backend/app/runtime/scheduler/workflow_scheduler.py:480-488 | in every reachable state a reference resolves to a value if and only if the run's input, variables, own columns or the output of a COMPLETED node hold it at the path |
| TemplateSubstitution.InterpolationSubstitutes | backend/app/runtime/context/resolver.py:68-78 | when no value holds an opening brace, replacing references one after the other equals filling every template at its scanned position |
| TemplateSubstitution.BracesLeak | backend/app/runtime/context/resolver.py:68-78 | where the value of a reference is the text of the next one, resolving the text of both gives the second value twice, and substitution does not |
| TemplateSubstitution.LeakExample | backend/app/runtime/context/resolver.py:68-78 | a concrete run input and text for it |
| ContextSafety.IsParallelSibling | backend/app/runtime/validation/rules/context.py:245-260 | true if and only if a Parallel above the node leads to the target and not through one of its joins |
| ContextSafety.ValidateTarget | backend/app/runtime/validation/rules/context.py:127-194 | classifies every node reference: unknown, own, without output, sibling branch, not upstream, or accepted |
| ContextSafety.TargetClassified | backend/app/runtime/validation/rules/context.py:127-194 | on a published graph each class of issue if and only if its condition on nodes and walks holds |
| ContextSafety.UpstreamIsSettled | backend/app/runtime/validation/rules/context.py:171-194 | once a node is ready, the target of an accepted reference is COMPLETED with an output or SKIPPED without one, never still running |
| ContextSafety.ResolvabilityIsFinal | backend/app/workers/workflow_worker.py:57-69 | once a node is ready, a value whose node references go to ancestors resolves in every later state or in none |
| ContextSafety.ResolutionIsFinal | backend/app/workers/workflow_worker.py:57-69 | it resolves to the same there as long as the run status is the same or no reference reads it |
| StatusReferences.ResolutionFollowsStatus | backend/app/workers/workflow_worker.py:60-65 | a value that resolves, through values without opening braces, resolves to the same in a later state if and only if the run status is the same there or no reference reads it |
| StatusReferences.StatusMoves | backend/app/workers/workflow_worker.py:60-65 | in every RUNNING run a pause turns the resolved `{{run.status}}` from running to paused |
| StatusMasked.StatusIsMasked | backend/app/runtime/context/resolver.py:75-77 | a concrete text that reads the status and resolves to the same whether the run is RUNNING or PAUSED |
| Dispatching.UndispatchedWhen | backend/app/runtime/scheduler/workflow_scheduler.py:181-211 | which nodes the scheduler withholds, in terms of what their own config and input mapping resolve to on the current rows; a Codex agent goes to the Worker if and only if its task does not resolve |
| Dispatching.WithheldWhen | backend/app/runtime/scheduler/workflow_scheduler.py:490-530 | a Tool is withheld if and only if its resolved config gives no command that is not blank or its input does not resolve, a Codex agent if and only if its config gives a task and its input does not resolve, nothing else ever |
| UnresolvedNodes.UnresolvedForGood | backend/app/runtime/scheduler/workflow_scheduler.py:185-187 | a ready node whose references go to ancestors of any kind and whose config or input does not resolve has no task in any honest continuation and stays PENDING until the run is cancelled or fails |
| UnresolvedNodes.SkippedReferenceStrands | backend/app/runtime/scheduler/workflow_scheduler.py:507-516 | in any reachable state a ready Tool whose config refers to a skipped node, whatever else it refers to, has no task in any honest continuation |
| Stall.StallsExactly | backend/app/runtime/scheduler/workflow_scheduler.py:240-279 | a reconcile leaves a reachable run RUNNING without a live task if and only if nothing failed, nothing was live, and the ready nodes of the rows it schedules from, of which there are some, all fail to resolve |
| Revival.RevivesExactly | backend/app/runtime/scheduler/workflow_scheduler.py:240-279 | such a run has a live task in some honest continuation if and only if answers to its parked human nodes, which their form schemas take, and a clock reading make some node ready whose inputs resolve |
| StalledForGood.StalledForever | backend/app/runtime/recovery/execution_recovery.py:17-40 | without a parked node it never has a live task again, no row changes, and the run is RUNNING or PAUSED until it is cancelled |
| StallExample.ToolStallsForever | backend/app/runtime/scheduler/workflow_scheduler.py:185-187 | a concrete run that stalls at its first reconcile and for good |
| BranchExample.SkippedBranchStalls | backend/app/runtime/scheduler/workflow_scheduler.py:57-97 | a concrete honest run in which a Condition bypasses a node, the Tool below refers to its output, and the run stalls for good |
| ParkedRows.AlwaysFits | backend/app/workers/workflow_worker.py:92-108 | in every reachable state a WAITING node carries the parking of its kind |
| EventStream.Stream | backend/app/api/routes/trace.py:78-115 | a session sends, poll by poll, the next events after the last id it sent, stops at the first poll that finds a terminal run and nothing to send, and otherwise sent at least one event per poll of a terminal run |
| EventStream.LaterExact | backend/app/api/routes/trace.py:86-91 | the events after an id are exactly those with a greater id, once each, in increasing order |
| EventStream.ReceivedExactly | backend/app/api/routes/trace.py:66-115 | at every moment, over broken and resumed connections, a client received exactly the events visible to its last poll from its start id to its last id if and only if none became visible when it was past its id |
| EventStream.DeliversExactly | backend/app/api/routes/trace.py:108-112 | once a session stops by itself the client received every event after its start id, once each and in order, if and only if none became visible when it was past its id |
| EventStream.SessionsDeliverAll | backend/app/api/routes/trace.py:66-115 | the same for sessions that broke after any frame of any batch and were resumed after the last id received; no event is received twice |
| EventStream.InOrderIsTimely | backend/app/api/routes/trace.py:86-91 | when later polls only continue the log of earlier ones, no event becomes visible too late |
| EventStream.PollsOfRun | backend/app/api/routes/trace.py:82-96 | polls of a run at any moments, whatever ids its events got, show growing logs, the whole log once the status read before was terminal, and continue each other when ids follow the commits |
| EventStream.TailIsComplete | backend/app/api/routes/trace.py:72-115 | so a tail that stopped by itself has the whole log of the run after its start id if and only if no event became visible too late, and always when ids follow the commits |
| EventStream.CompletionLost | backend/app/infrastructure/execution_backend/mysql.py:178-193 | two completions that commit in the other order than their ids: the tail stops by itself without the first one |

## Left out

- Parallel and merge structure rules (`_validate_parallel_merge`, pairing): edge counts and a heuristic; nothing in the runtime theorems needs them.
- Identity, node, reference and schema validation passes, and output-field checks against JSON Schemas: thin or library-driven.
- `MySQLExecutionBackend.submit`, `cancel` and `claim(auto_start=True)`: no caller uses them.
- InnoDB locking, SKIP LOCKED, deadlock retry and stale identity maps: below the atomic step; skipped rows are the set `locked`.
- Several runs in one database: no transaction on one run reads rows of another, so the model follows a single run.
- The order in which claims pick tasks (priority, availability): any eligible task may be picked, which covers every order.
- Timestamps, `run.waiting_reason`, error payloads, artifacts, workspaces and input snapshots: columns no decision in the model reads.
- Condition evaluation: the selected branch is part of the reported output.
- The Runner a Tool is pinned to, a node's retry setting and its rejection flag are fields of the model's node beside its config, not read out of it.
- Retry backoff values: any natural number.
- Runner registration, authentication, enablement and presence: a claim takes the Runner's identity and capabilities as given.
- The Worker loop, lease-renewal loop, subprocesses, HTTP connectors, redaction, storage and the frontend: process plumbing, I/O or UI.
- Printing of numbers, lists and objects inside interpolated text is the parameter `show`.
- ContextReferences.Extract: gives the references of an object or list as a set, so their order is not modelled.
- EventStream.Stream: a run row deleted while streaming, keep-alive frames, the JSON text of a frame and the parsing of the start id are not modelled.
- RunRows.RunStore: the rows of a run are maps the methods reassign, so aliasing of ORM objects is not captured.
