/** Control-plane actions and parked nodes keep the invariant. */
module LifecycleSafety {
  import opened Basics
  import opened StateMachines
  import opened Graphs
  import opened RunRows
  import opened Scheduling
  import opened SchedulerRules
  import opened LifecycleRules
  import opened Invariant
  import opened QueueSafety

  // ----- start, pause, resume -----

  lemma RunMoveRow(input: bool, parked: bool, run: RunStatus, target: RunStatus, row: NodeRun, task: Option<Task>)
    requires Judge(input, parked, run, row, task) == Consistent
    requires RunMay(run, target) && Open(target)
    ensures Judge(input, parked, target, row, task) == Consistent
  {
  }

  lemma MovedRows(st: RunState, target: RunStatus, log: seq<Event>)
    requires Inv(st) && Open(target) && RunMay(st.run, target)
    ensures Inv(st.(run := target, events := st.events + log))
  {
    var next := st.(run := target, events := st.events + log);
    forall n | n in next.nodes
      ensures NodeOk(next, n)
    {
      assert NodeOk(st, n);
      RunMoveRow(IsInputId(st.graph, n), IsParkedId(st.graph, n), st.run, target, st.nodes[n], TaskOf(st, n));
    }
    OrderedStays(st, next);
  }

  lemma MoveRunSound(st: RunState, target: RunStatus, log: seq<Event>)
    requires Inv(st) && Open(target)
    ensures Sound(st, MoveRun(st, target, log), Plain)
  {
    if !RunMay(st.run, target) {
      NoChange(st, Reply(st, InvalidRun), Plain);
    } else {
      MovedRows(st, target, log);
      TasksUntouched(st, st.(run := target, events := st.events + log));
    }
  }

  // ----- parked nodes -----

  /** The row is unchanged, or a parked node got its result. */
  predicate SettledRow(a: NodeRun, b: NodeRun) {
    || b == a
    || (&& a.status.NodeWaiting?
        && (|| (b.status.NodeCompleted? && b.output.Some?)
            || (b.status.NodeFailed? && b.output == a.output)))
  }

  lemma ResultRow(input: bool, parked: bool, run: RunStatus, a: NodeRun, b: NodeRun, task: Option<Task>)
    requires Judge(input, parked, run, a, task) == Consistent && SettledRow(a, b)
    ensures Judge(input, parked, run, b, task) == Consistent
    ensures a != b ==> parked && !run.RunCompleted? && !run.RunCancelled? && !run.RunCreated?
  {
  }

  lemma ResultEdges(st: RunState, nodes: map<NodeId, NodeRun>)
    requires Inv(st) && nodes.Keys == st.nodes.Keys
    requires forall n :: n in nodes ==> SettledRow(st.nodes[n], nodes[n])
    ensures SameEdges(st.graph, st.nodes, nodes)
  {
    forall e | e in st.graph.edges
      ensures EdgeActive(st.graph, nodes, e) <==> EdgeActive(st.graph, st.nodes, e)
    {
      var n := e.source;
      if n in nodes && nodes[n] != st.nodes[n] {
        assert NodeOk(st, n);
        ResultRow(IsInputId(st.graph, n), IsParkedId(st.graph, n), st.run, st.nodes[n], nodes[n], TaskOf(st, n));
        ParkedIsNoCondition(st.graph, n);
      }
    }
  }

  lemma ResultRows(st: RunState, next: RunState)
    requires Inv(st) && next == st.(nodes := next.nodes, events := next.events)
    requires next.nodes.Keys == st.nodes.Keys
    requires forall n :: n in next.nodes ==> SettledRow(st.nodes[n], next.nodes[n])
    ensures RowsOk(next)
  {
    forall n | n in next.nodes
      ensures NodeOk(next, n)
    {
      assert NodeOk(st, n);
      ResultRow(IsInputId(st.graph, n), IsParkedId(st.graph, n), st.run, st.nodes[n], next.nodes[n], TaskOf(st, n));
    }
  }

  lemma ResultHealthy(st: RunState, next: RunState)
    requires Inv(st) && next == st.(nodes := next.nodes, events := next.events)
    requires next.nodes.Keys == st.nodes.Keys
    requires forall n :: n in next.nodes ==> SettledRow(st.nodes[n], next.nodes[n])
    ensures Inv(next)
  {
    ResultRows(st, next);
    OrderedStays(st, next);
    if st.run == RunWaiting {
      ResultEdges(st, next.nodes);
      ClosedStays(st.graph, st.nodes, next.nodes);
      var p :| p in st.nodes && st.nodes[p].status == NodePending;
      assert next.nodes[p].status == NodePending;
    }
  }

  /** Results for parked nodes are sound in a run that can act on them. */
  lemma ResultSound(st: RunState, next: RunState)
    requires Inv(st) && next == st.(nodes := next.nodes, events := next.events)
    requires next.nodes.Keys == st.nodes.Keys && st.events <= next.events && !RunTerminal(st.run)
    requires forall n :: n in next.nodes ==> SettledRow(st.nodes[n], next.nodes[n])
    ensures Inv(next) && Lawful(st, next, Plain)
  {
    ResultHealthy(st, next);
    TasksUntouched(st, next);
  }

  lemma ParkedResult(st: RunState, n: NodeId, row: NodeRun, log: seq<Event>)
    requires Inv(st) && n in st.nodes && SettledRow(st.nodes[n], row) && !RunTerminal(st.run)
    ensures Sound(st, Reply(st.(nodes := st.nodes[n := row], events := st.events + log), Accepted), Plain)
  {
    ResultSound(st, st.(nodes := st.nodes[n := row], events := st.events + log));
  }

  lemma ApproveSound(st: RunState, n: NodeId)
    requires Inv(st)
    ensures Sound(st, AfterApprove(st, n), Plain)
  {
    if !Actionable(st, n, "approval", "HUMAN_APPROVAL") {
      NoChange(st, Reply(st, Refused), Plain);
    } else {
      ParkedResult(st, n, st.nodes[n].(status := NodeCompleted, output := Some(Obj(map["approved" := Bool(true)]))),
                   [NodeEvent(NodeResumed, n), NodeEvent(NodeCompletedEvent, n)]);
    }
  }

  lemma SubmitInputSound(st: RunState, n: NodeId, input: map<string, Json>, valid: bool)
    requires Inv(st)
    ensures Sound(st, AfterSubmitInput(st, n, input, valid), Plain)
  {
    if !Actionable(st, n, "input", "HUMAN_INPUT") || !valid {
      NoChange(st, Reply(st, Refused), Plain);
    } else {
      ParkedResult(st, n, st.nodes[n].(status := NodeCompleted, output := Some(Obj(input))),
                   [NodeEvent(NodeResumed, n), NodeEvent(NodeCompletedEvent, n)]);
    }
  }

  lemma RejectSound(st: RunState, n: NodeId)
    requires Inv(st)
    ensures Sound(st, AfterReject(st, n), Plain)
  {
    if !Actionable(st, n, "approval", "HUMAN_APPROVAL") || !FindNode(st.graph.nodes, n).value.allowReject {
      NoChange(st, Reply(st, Refused), Plain);
    } else {
      ParkedResult(st, n, st.nodes[n].(status := NodeFailed),
                   [NodeEvent(NodeResumed, n), NodeEvent(NodeFailedEvent, n)]);
    }
  }

  lemma PromoteWaitsSound(st: RunState, now: nat)
    requires Inv(st) && !RunTerminal(st.run)
    ensures Inv(AfterPromoteWaits(st, now)) && Lawful(st, AfterPromoteWaits(st, now), Plain)
  {
    ResultSound(st, AfterPromoteWaits(st, now));
  }

  // ----- cancel -----

  function CancelledTask(t: Task): Task {
    if LiveTask(t) then t.(status := TaskCancelled) else t
  }

  function CancelledRow(row: NodeRun): NodeRun {
    if NodeTerminal(row.status) then row else row.(status := NodeCancelled)
  }

  lemma CancelPair(input: bool, parked: bool, run: RunStatus, row: NodeRun, task: Option<Task>)
    requires Judge(input, parked, run, row, task) == Consistent && !RunTerminal(run)
    ensures Judge(input, parked, RunCancelled, CancelledRow(row), if task.Some? then Some(CancelledTask(task.value)) else None) == Consistent
    ensures task.Some? ==> JudgeTask(run, task.value, CancelledTask(task.value), Plain) == Consistent
  {
  }

  /** The rows a cancelled run ends with. */
  lemma CancelledRows(st: RunState)
    requires RunMay(st.run, RunCancelled) && !RunTerminal(st.run)
    ensures AfterCancelRun(st).outcome.Accepted?
    ensures var next := AfterCancelRun(st).st;
            && next.graph == st.graph && next.run == RunCancelled && st.events <= next.events
            && next.nodes.Keys == st.nodes.Keys && next.tasks.Keys == st.tasks.Keys
            && (forall n :: n in st.nodes ==> next.nodes[n] == CancelledRow(st.nodes[n]))
            && (forall n :: n in st.tasks ==> next.tasks[n] == CancelledTask(st.tasks[n]))
  {
  }

  lemma CancelRunSound(st: RunState)
    requires Inv(st)
    ensures Sound(st, AfterCancelRun(st), Plain)
  {
    if RunTerminal(st.run) {
      NoChange(st, Reply(st, Refused), Plain);
    } else {
      CancelledRows(st);
      CancelledHealthy(st, AfterCancelRun(st).st);
      CancelledLawful(st, AfterCancelRun(st).st);
    }
  }

  ghost predicate IsCancelled(st: RunState, next: RunState) {
    && next.graph == st.graph && next.run == RunCancelled && st.events <= next.events
    && next.nodes.Keys == st.nodes.Keys && next.tasks.Keys == st.tasks.Keys
    && (forall n :: n in st.nodes ==> next.nodes[n] == CancelledRow(st.nodes[n]))
    && (forall n :: n in st.tasks ==> next.tasks[n] == CancelledTask(st.tasks[n]))
  }

  lemma CancelledHealthy(st: RunState, next: RunState)
    requires Inv(st) && !RunTerminal(st.run) && IsCancelled(st, next)
    ensures Inv(next)
  {
    forall n | n in next.nodes
      ensures NodeOk(next, n)
    {
      assert NodeOk(st, n);
      CancelPair(IsInputId(st.graph, n), IsParkedId(st.graph, n), st.run, st.nodes[n], TaskOf(st, n));
    }
    OrderedStays(st, next);
  }

  lemma CancelledLawful(st: RunState, next: RunState)
    requires Inv(st) && !RunTerminal(st.run) && IsCancelled(st, next)
    ensures Lawful(st, next, Plain)
  {
    forall n | n in st.tasks
      ensures JudgeTask(st.run, st.tasks[n], next.tasks[n], Plain) == Consistent
    {
      assert NodeOk(st, n);
      CancelPair(IsInputId(st.graph, n), IsParkedId(st.graph, n), st.run, st.nodes[n], TaskOf(st, n));
    }
  }
}
