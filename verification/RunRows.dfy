/** The durable rows of one WorkflowRun: the run row, one NodeRun per graph
    node, at most one ExecutionTask per NodeRun, and the RunEvent log. */
module RunRows {
  import opened Basics
  import opened StateMachines
  import opened Graphs

  type Token = nat

  /** `waiting_reason` and `waiting_metadata_json` of a parked NodeRun. */
  datatype Parking = Parking(reason: string, metadata: map<string, Json>)

  datatype NodeRun = NodeRun(status: NodeStatus, output: Option<Json>, parking: Option<Parking>)

  datatype Task = Task(
    status: TaskStatus,
    lockedBy: Option<string>,
    token: Option<Token>,
    expires: Option<nat>,
    availableAt: nat,
    attempt: nat,
    maxAttempts: nat,
    capability: Option<string>,
    runner: Option<string>)

  datatype EventKind =
    | WorkflowStarted | WorkflowWaiting | WorkflowResumed | WorkflowCompleted | WorkflowFailed | WorkflowCancelled
    | NodeQueuedEvent | NodeStarted | NodeLog | NodeRetryingEvent | NodeWaitingEvent | NodeResumed
    | NodeCompletedEvent | NodeFailedEvent | NodeSkippedEvent | NodeCancelledEvent

  /** A RunEvent; a log lists them in commit order. */
  datatype Event = Event(kind: EventKind, node: Option<NodeId>)

  datatype RunState = RunState(
    graph: Graph,
    run: RunStatus,
    nodes: map<NodeId, NodeRun>,
    tasks: map<NodeId, Task>,
    events: seq<Event>)

  function RunEvent(kind: EventKind): Event {
    Event(kind, None)
  }

  function NodeEvent(kind: EventKind, n: NodeId): Event {
    Event(kind, Some(n))
  }

  function NodeEvents(kind: EventKind, ids: seq<NodeId>): seq<Event> {
    seq(|ids|, i requires 0 <= i < |ids| => NodeEvent(kind, ids[i]))
  }

  lemma NodeEventsSnoc(kind: EventKind, ids: seq<NodeId>, n: NodeId)
    ensures NodeEvents(kind, ids + [n]) == NodeEvents(kind, ids) + [NodeEvent(kind, n)]
  {
  }

  /** The lease columns cleared, as retry, release and recovery leave them. */
  function Unleased(t: Task): Task {
    t.(lockedBy := None, token := None, expires := None)
  }

  predicate LiveTask(t: Task) {
    !TaskTerminal(t.status)
  }

  predicate HasStatus(nodes: map<NodeId, NodeRun>, n: NodeId, s: NodeStatus) {
    n in nodes && nodes[n].status == s
  }

  /** `_create_node_runs`: input nodes start COMPLETED with the run input. */
  function InitialNode(node: Node, input: Json): NodeRun {
    if IsInput(node) then NodeRun(NodeCompleted, Some(input), None)
    else NodeRun(NodePending, None, None)
  }

  function InitialNodes(g: Graph, input: Json): map<NodeId, NodeRun> {
    map n | n in Ids(g) ::
      (match FindNode(g.nodes, n)
       case Some(node) => InitialNode(node, input)
       case None => NodeRun(NodePending, None, None))
  }

  function CreatedRun(g: Graph, input: Json): RunState {
    RunState(g, RunCreated, InitialNodes(g, input), map[], [])
  }

  lemma FreshId(g: Graph, i: nat)
    requires Contract(g) && i < |g.nodes|
    ensures forall k :: 0 <= k < i ==> g.nodes[k].id != g.nodes[i].id
  {
    forall k | 0 <= k < i
      ensures g.nodes[k].id != g.nodes[i].id
    {
      assert Order(g)[k] != Order(g)[i];
    }
  }

  lemma AllInitial(g: Graph, input: Json, nodes: map<NodeId, NodeRun>)
    requires Contract(g) && nodes.Keys == Ids(g)
    requires forall k :: 0 <= k < |g.nodes| ==> g.nodes[k].id in nodes && nodes[g.nodes[k].id] == InitialNode(g.nodes[k], input)
    ensures nodes == InitialNodes(g, input)
  {
    forall n | n in Ids(g)
      ensures nodes[n] == InitialNodes(g, input)[n]
    {
      var k :| 0 <= k < |g.nodes| && g.nodes[k].id == n;
      FindNodeUnique(g, g.nodes[k]);
    }
  }

  /** One run as a database holds it; the services below update it in place. */
  class RunStore {
    const graph: Graph
    var run: RunStatus
    var nodes: map<NodeId, NodeRun>
    var tasks: map<NodeId, Task>
    var events: seq<Event>

    function View(): RunState
      reads this
    {
      RunState(graph, run, nodes, tasks, events)
    }

    constructor (g: Graph, input: Json)
      requires Contract(g)
      ensures View() == CreatedRun(g, input)
    {
      graph := g;
      run := RunCreated;
      tasks := map[];
      events := [];
      new;
      nodes := map[];
      for i := 0 to |g.nodes|
        invariant graph == g && run == RunCreated && tasks == map[] && events == []
        invariant nodes.Keys == set k | 0 <= k < i :: g.nodes[k].id
        invariant forall k :: 0 <= k < i ==> g.nodes[k].id in nodes && nodes[g.nodes[k].id] == InitialNode(g.nodes[k], input)
      {
        FreshId(g, i);
        nodes := nodes[g.nodes[i].id := InitialNode(g.nodes[i], input)];
      }
      AllInitial(g, input, nodes);
    }

    /** Restore the rows read at the start of a transaction that raised. */
    method Rollback(before: RunState)
      requires before.graph == graph
      modifies this
      ensures View() == before
    {
      run, nodes, tasks, events := before.run, before.nodes, before.tasks, before.events;
    }
  }
}
