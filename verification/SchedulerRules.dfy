/** The scheduler's transactions as functions from rows to rows. */
module SchedulerRules {
  import opened Basics
  import opened StateMachines
  import opened Graphs
  import opened RunRows
  import opened Scheduling

  /** How a service call ended. A call that raised leaves the rows as they were. */
  datatype Outcome =
    | Accepted        // committed
    | Refused         // declined by a guard
    | Released        // a claimed task was handed back or cancelled instead of started
    | Signalled       // a heartbeat answered with the cancel signal
    | InvalidRun      // raised INVALID_WORKFLOW_RUN_TRANSITION
    | InvalidNode     // raised INVALID_NODE_RUN_TRANSITION
    | InvalidTask     // raised INVALID_EXECUTION_TASK_TRANSITION

  datatype Reply = Reply(st: RunState, outcome: Outcome)

  // ----- schedule_ready_nodes -----

  function QueueableSet(g: Graph, nodes: map<NodeId, NodeRun>, tasks: map<NodeId, Task>, u: Unresolved): set<NodeId> {
    set n | n in ReadySet(g, nodes) && n !in tasks && !IsPostponed(g, u, n)
  }

  function MarkQueued(nodes: map<NodeId, NodeRun>, q: set<NodeId>): map<NodeId, NodeRun> {
    map n | n in nodes :: if n in q then nodes[n].(status := NodeQueued) else nodes[n]
  }

  function TaskFor(g: Graph, n: NodeId, u: Unresolved, now: nat): Task {
    match FindNode(g.nodes, n)
    case Some(node) => NewTask(node, u, now)
    case None => Task(TaskPending, None, None, None, now, 0, 1, None, None)
  }

  function AddTasks(g: Graph, tasks: map<NodeId, Task>, q: set<NodeId>, u: Unresolved, now: nat): map<NodeId, Task> {
    map n | n in tasks.Keys + q :: if n in tasks then tasks[n] else TaskFor(g, n, u, now)
  }

  /** Skip what is cut off, then create one task per ready node. */
  function AfterSchedule(st: RunState, u: Unresolved, now: nat): RunState {
    if st.run != RunRunning then st
    else
      var s := SkipSet(st.graph, st.nodes);
      var marked := MarkSkipped(st.nodes, s);
      var q := QueueableSet(st.graph, marked, st.tasks, u);
      st.(nodes := MarkQueued(marked, q),
          tasks := AddTasks(st.graph, st.tasks, q, u, now),
          events := st.events
            + NodeEvents(NodeSkippedEvent, Select(Order(st.graph), s))
            + NodeEvents(NodeQueuedEvent, Select(Order(st.graph), q)))
  }

  // ----- promote_due_waits -----

  predicate DueWait(row: NodeRun, now: nat) {
    && row.status == NodeWaiting
    && row.parking.Some?
    && row.parking.value.reason == "WAIT_TIMER"
    && "resume_at" in row.parking.value.metadata
    && row.parking.value.metadata["resume_at"].Num?
    && row.parking.value.metadata["resume_at"].n <= now
  }

  function DueWaits(nodes: map<NodeId, NodeRun>, now: nat): set<NodeId> {
    set n | n in nodes && DueWait(nodes[n], now)
  }

  function Elapsed(row: NodeRun): NodeRun
    requires row.parking.Some?
  {
    row.(status := NodeCompleted, output := Some(Obj(row.parking.value.metadata)))
  }

  function MarkElapsed(nodes: map<NodeId, NodeRun>, now: nat): map<NodeId, NodeRun> {
    map n | n in nodes :: if DueWait(nodes[n], now) then Elapsed(nodes[n]) else nodes[n]
  }

  function ResumeEvents(ids: seq<NodeId>): seq<Event> {
    if ids == [] then []
    else ResumeEvents(ids[..|ids| - 1]) +
         [NodeEvent(NodeResumed, ids[|ids| - 1]), NodeEvent(NodeCompletedEvent, ids[|ids| - 1])]
  }

  function AfterPromoteWaits(st: RunState, now: nat): RunState {
    st.(nodes := MarkElapsed(st.nodes, now),
        events := st.events + ResumeEvents(Select(Order(st.graph), DueWaits(st.nodes, now))))
  }

  // ----- cancel_run_tasks -----

  /** The live tasks the cancelling SELECT returns; `hidden` are rows added in
      the same transaction and not flushed yet. */
  function Cancellable(tasks: map<NodeId, Task>, hidden: set<NodeId>): set<NodeId> {
    set n | n in tasks && n !in hidden && LiveTask(tasks[n])
  }

  function MarkTasksCancelled(tasks: map<NodeId, Task>, c: set<NodeId>): map<NodeId, Task> {
    map n | n in tasks :: if n in c then tasks[n].(status := TaskCancelled) else tasks[n]
  }

  /** Cancelled with their task, or still PENDING without one. */
  function MarkNodesCancelled(nodes: map<NodeId, NodeRun>, c: set<NodeId>): map<NodeId, NodeRun> {
    map n | n in nodes ::
      if (n in c && !NodeTerminal(nodes[n].status)) || nodes[n].status == NodePending
      then nodes[n].(status := NodeCancelled) else nodes[n]
  }

  function AfterCancelTasks(st: RunState, hidden: set<NodeId>): RunState {
    var c := Cancellable(st.tasks, hidden);
    st.(nodes := MarkNodesCancelled(st.nodes, c),
        tasks := MarkTasksCancelled(st.tasks, c),
        events := st.events + NodeEvents(NodeCancelledEvent, Select(Order(st.graph), c)))
  }

  // ----- reconcile_run -----

  function RunEventsFor(s: RunStatus): seq<Event> {
    match s
    case RunWaiting => [RunEvent(WorkflowWaiting)]
    case RunRunning => [RunEvent(WorkflowResumed)]
    case RunCompleted => [RunEvent(WorkflowCompleted)]
    case RunFailed => [RunEvent(WorkflowFailed)]
    case RunCancelled => [RunEvent(WorkflowCancelled)]
    case _ => []
  }

  /** The rows after waits were promoted and ready nodes scheduled. */
  function Advanced(st: RunState, u: Unresolved, now: nat): RunState {
    AfterSchedule(AfterPromoteWaits(st, now), u, now)
  }

  /** Persist a changed status, with fail-fast cancellation on failure. */
  function AfterTransition(st: RunState, derived: RunStatus, hidden: set<NodeId>): RunState {
    var moved := st.(run := derived);
    var swept := if derived == RunFailed then AfterCancelTasks(moved, hidden) else moved;
    swept.(events := swept.events + RunEventsFor(derived))
  }

  /** The second half of a reconcile: derive the status from the advanced rows
      and persist it; `before` are the rows the transaction read first. */
  function Conclude(before: RunState, adv: RunState, u: Unresolved, unflushed: set<NodeId>, now: nat): Reply {
    var derived := DeriveRun(adv.graph, adv.nodes);
    if derived != before.run && !RunMay(before.run, derived) then Reply(before, InvalidRun)
    else
      var hidden := unflushed * (adv.tasks.Keys - before.tasks.Keys);
      var moved := if derived == before.run then adv else AfterTransition(adv, derived, hidden);
      Reply(if derived == RunRunning then AfterSchedule(moved, u, now) else moved, Accepted)
  }

  function AfterReconcile(st: RunState, u: Unresolved, unflushed: set<NodeId>, now: nat): Reply {
    match st.run
    case RunCancelled => Reply(AfterCancelTasks(st, {}), Accepted)
    case RunCompleted => Reply(st, Accepted)
    case RunFailed => Reply(st, Accepted)
    case RunPaused => Reply(st, Accepted)
    case _ => Conclude(st, Advanced(st, u, now), u, unflushed, now)
  }
}
