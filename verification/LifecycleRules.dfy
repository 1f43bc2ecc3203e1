/** The control-plane actions on a run and on its parked nodes. */
module LifecycleRules {
  import opened Basics
  import opened StateMachines
  import opened Graphs
  import opened RunRows
  import opened SchedulerRules

  function MoveRun(st: RunState, target: RunStatus, log: seq<Event>): Reply {
    if !RunMay(st.run, target) then Reply(st, InvalidRun)
    else Reply(st.(run := target, events := st.events + log), Accepted)
  }

  /** First commit of `start_run`; scheduling follows in its own transaction. */
  function AfterStartRun(st: RunState): Reply {
    MoveRun(st, RunRunning, [RunEvent(WorkflowStarted)])
  }

  function AfterPauseRun(st: RunState): Reply {
    MoveRun(st, RunPaused, [])
  }

  /** First commit of `resume_run`; reconciliation follows in its own transaction. */
  function AfterResumeRun(st: RunState): Reply {
    MoveRun(st, RunRunning, [])
  }

  function CancelNodes(nodes: map<NodeId, NodeRun>): map<NodeId, NodeRun> {
    map n | n in nodes :: if NodeTerminal(nodes[n].status) then nodes[n] else nodes[n].(status := NodeCancelled)
  }

  function AfterCancelRun(st: RunState): Reply {
    if RunTerminal(st.run) then Reply(st, Refused)
    else
      var moved := MoveRun(st, RunCancelled, [RunEvent(WorkflowCancelled)]);
      if moved.outcome != Accepted then moved
      else Reply(AfterCancelTasks(moved.st.(nodes := CancelNodes(moved.st.nodes)), {}), Accepted)
  }

  /** The node is parked for the given human action and the run is actionable. */
  predicate Actionable(st: RunState, n: NodeId, subtype: string, reason: string) {
    && n in st.nodes
    && st.nodes[n].status == NodeWaiting
    && (st.run == RunRunning || st.run == RunWaiting)
    && st.nodes[n].parking.Some? && st.nodes[n].parking.value.reason == reason
    && var node := FindNode(st.graph.nodes, n);
       node.Some? && node.value.nodeType.Human? && node.value.subtype == subtype
  }

  function CompleteParked(st: RunState, n: NodeId, output: Json): Reply
    requires n in st.nodes
  {
    Reply(st.(nodes := st.nodes[n := st.nodes[n].(status := NodeCompleted, output := Some(output))],
              events := st.events + [NodeEvent(NodeResumed, n), NodeEvent(NodeCompletedEvent, n)]), Accepted)
  }

  function AfterApprove(st: RunState, n: NodeId): Reply {
    if !Actionable(st, n, "approval", "HUMAN_APPROVAL") then Reply(st, Refused)
    else CompleteParked(st, n, Obj(map["approved" := Bool(true)]))
  }

  /** `valid` is the verdict of the form schema on the submitted data. */
  function AfterSubmitInput(st: RunState, n: NodeId, input: map<string, Json>, valid: bool): Reply {
    if !Actionable(st, n, "input", "HUMAN_INPUT") || !valid then Reply(st, Refused)
    else CompleteParked(st, n, Obj(input))
  }

  function AfterReject(st: RunState, n: NodeId): Reply {
    if !Actionable(st, n, "approval", "HUMAN_APPROVAL") then Reply(st, Refused)
    else if !FindNode(st.graph.nodes, n).value.allowReject then Reply(st, Refused)
    else Reply(st.(nodes := st.nodes[n := st.nodes[n].(status := NodeFailed)],
                   events := st.events + [NodeEvent(NodeResumed, n), NodeEvent(NodeFailedEvent, n)]), Accepted)
  }
}
