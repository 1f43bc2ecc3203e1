/** Progress on an acyclic graph: a live run without failures always has a node
    that is done, at work, parked or ready. */
module Progress {
  import opened Basics
  import opened StateMachines
  import opened Graphs
  import opened RunRows
  import opened Scheduling
  import opened Invariant

  predicate LiveRun(run: RunStatus) {
    !RunTerminal(run)
  }

  lemma LiveRow(st: RunState, n: NodeId)
    requires Inv(st) && LiveRun(st.run) && n in st.nodes
    ensures st.nodes[n].status != NodeCancelled
    ensures IsInputId(st.graph, n) ==> st.nodes[n].status == NodeCompleted
  {
    assert NodeOk(st, n);
  }

  ghost function Unfinished(nodes: map<NodeId, NodeRun>): set<NodeId> {
    set n | n in nodes && !NodeTerminal(nodes[n].status)
  }

  lemma FinishedSource(st: RunState, n: NodeId)
    requires Inv(st) && LiveRun(st.run) && n in Ids(st.graph) && !Exists(st.nodes, NodeFailed)
    requires n !in Unfinished(st.nodes) && !HasStatus(st.nodes, n, NodeSkipped)
    ensures HasStatus(st.nodes, n, NodeCompleted)
  {
    LiveRow(st, n);
  }

  lemma PendingHasIncoming(st: RunState, m: NodeId)
    requires Inv(st) && LiveRun(st.run) && Publishable(st.graph) && HasStatus(st.nodes, m, NodePending)
    ensures HasIncoming(st.graph, m)
  {
    LiveRow(st, m);
    assert m in Ids(st.graph);
  }

  /** A pending node none of whose predecessors is unfinished is ready. */
  lemma MinimalIsReady(st: RunState, m: NodeId)
    requires Inv(st) && LiveRun(st.run) && Publishable(st.graph)
    requires SkipClosed(st.graph, st.nodes) && !Exists(st.nodes, NodeFailed)
    requires HasStatus(st.nodes, m, NodePending)
    requires forall e :: e in st.graph.edges && e.target == m ==> e.source !in Unfinished(st.nodes)
    ensures Ready(st.graph, st.nodes, m)
  {
    PendingHasIncoming(st, m);
    assert !CutOff(st.graph, st.nodes, {}, m);
    forall e | e in st.graph.edges && e.target == m && EdgeActive(st.graph, st.nodes, e)
      ensures HasStatus(st.nodes, e.source, NodeCompleted)
    {
      FinishedSource(st, e.source);
    }
  }

  /** Deadlock freedom: at the skip fixed point of a live run without failures,
      everything is finished, or work is in flight, or a node is parked, or a
      node is ready. */
  lemma NoDeadlock(st: RunState)
    requires Inv(st) && LiveRun(st.run) && Publishable(st.graph)
    requires SkipClosed(st.graph, st.nodes) && !Exists(st.nodes, NodeFailed)
    ensures AllTerminal(st.nodes) || InFlight(st.nodes) || Exists(st.nodes, NodeWaiting) ||
            ReadySet(st.graph, st.nodes) != {}
  {
    if !AllTerminal(st.nodes) && !InFlight(st.nodes) && !Exists(st.nodes, NodeWaiting) {
      PublishedIsAcyclic(st.graph);
      var m := FirstPending(st.graph, st.nodes);
      MinimalIsReady(st, m);
    }
  }

  lemma PublishedIsAcyclic(g: Graph)
    requires Publishable(g)
    ensures Acyclic(g)
  {
  }

  /** Where nothing runs or waits, an unfinished node none of whose predecessors
      is unfinished is pending. */
  lemma FirstPending(g: Graph, nodes: map<NodeId, NodeRun>) returns (m: NodeId)
    requires Acyclic(g) && !AllTerminal(nodes) && !InFlight(nodes) && !Exists(nodes, NodeWaiting)
    ensures HasStatus(nodes, m, NodePending)
    ensures forall e :: e in g.edges && e.target == m ==> e.source !in Unfinished(nodes)
  {
    var x :| x in nodes && !NodeTerminal(nodes[x].status);
    assert x in Unfinished(nodes);
    m := MinimalNode(g, Unfinished(nodes));
  }

  lemma WaitingRow(input: bool, parked: bool, run: RunStatus, row: NodeRun, task: Option<Task>)
    requires Judge(input, parked, run, row, task) == Consistent && row.status.NodeWaiting?
    ensures parked
  {
  }

  /** A parked node's outgoing edges are active but their source is not done. */
  lemma ParkedEdge(st: RunState, e: Edge)
    requires Inv(st) && HasStatus(st.nodes, e.source, NodeWaiting)
    ensures IsParkedId(st.graph, e.source) && EdgeActive(st.graph, st.nodes, e)
  {
    var n := e.source;
    assert NodeOk(st, n);
    WaitingRow(IsInputId(st.graph, n), IsParkedId(st.graph, n), st.run, st.nodes[n], TaskOf(st, n));
  }

  lemma BlockedTarget(st: RunState, e: Edge)
    requires Inv(st) && e in st.graph.edges && HasStatus(st.nodes, e.source, NodeWaiting)
    ensures e.target !in st.tasks && !HasStatus(st.nodes, e.target, NodeSkipped)
  {
    ParkedEdge(st, e);
    assert !Admitted(st.graph, st.nodes, e.target);
    assert !Abandoned(st.graph, st.nodes, e.target);
  }

  lemma UnstartedRow(input: bool, parked: bool, run: RunStatus, row: NodeRun)
    requires Judge(input, parked, run, row, None) == Consistent && LiveRun(run)
    ensures input || row.status.NodeSkipped? || row.status.NodePending?
  {
  }

  /** The successor of a parked node is still pending. */
  lemma ParkedBlocksSuccessor(st: RunState, n: NodeId) returns (t: NodeId)
    requires Inv(st) && LiveRun(st.run) && Publishable(st.graph)
    requires HasStatus(st.nodes, n, NodeWaiting)
    ensures HasStatus(st.nodes, t, NodePending)
  {
    assert n in Ids(st.graph);
    assert IsParkedId(st.graph, n) by {
      ParkedEdge(st, Edge(n, n, None));
    }
    var e :| e in st.graph.edges && e.source == n;
    t := e.target;
    BlockedTarget(st, e);
    assert t in Ids(st.graph) && HasIncoming(st.graph, t);
    assert NodeOk(st, t);
    UnstartedRow(IsInputId(st.graph, t), IsParkedId(st.graph, t), st.run, st.nodes[t]);
  }
}
