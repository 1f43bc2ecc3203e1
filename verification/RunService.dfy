/** The run service: it updates the rows in place, each committed transaction
    exactly as its rule says. */
module RunService {
  import opened Basics
  import opened StateMachines
  import opened Graphs
  import opened RunRows
  import opened Scheduling
  import opened SchedulerRules
  import opened LifecycleRules
  import opened SchedulerService

  /** Move the run, then schedule the initial ready nodes in a second transaction. */
  method StartRun(db: RunStore, u: Unresolved, now: nat) returns (outcome: Outcome)
    requires Tables(db.View())
    modifies db
    ensures outcome == AfterStartRun(old(db.View())).outcome
    ensures db.View() == if outcome.Accepted? then AfterSchedule(AfterStartRun(old(db.View())).st, u, now) else old(db.View())
  {
    if !RunMay(db.run, RunRunning) {
      return InvalidRun;
    }
    db.run := RunRunning;
    db.events := db.events + [RunEvent(WorkflowStarted)];
    var _ := ScheduleReadyNodes(db, u, now);
    return Accepted;
  }

  method PauseRun(db: RunStore) returns (outcome: Outcome)
    modifies db
    ensures Reply(db.View(), outcome) == AfterPauseRun(old(db.View()))
  {
    if !RunMay(db.run, RunPaused) {
      return InvalidRun;
    }
    db.run := RunPaused;
    assert db.events + [] == db.events;
    return Accepted;
  }

  /** Move the run, then reconcile it in a second transaction. */
  method ResumeRun(db: RunStore, u: Unresolved, unflushed: set<NodeId>, now: nat) returns (outcome: Outcome)
    requires Tables(db.View())
    modifies db
    ensures var first := AfterResumeRun(old(db.View()));
            Reply(db.View(), outcome) == if first.outcome.Accepted? then AfterReconcile(first.st, u, unflushed, now) else first
  {
    if !RunMay(db.run, RunRunning) {
      return InvalidRun;
    }
    db.run := RunRunning;
    assert db.events + [] == db.events;
    outcome := SchedulerService.ReconcileRun(db, u, unflushed, now);
  }

  /** The rows after the listed nodes were cancelled unless they were done. */
  ghost function NodesCancelled(nodes: map<NodeId, NodeRun>, done: set<NodeId>): map<NodeId, NodeRun> {
    map n | n in nodes :: if n in done && !NodeTerminal(nodes[n].status) then nodes[n].(status := NodeCancelled) else nodes[n]
  }

  lemma CancelOneNode(nodes: map<NodeId, NodeRun>, done: set<NodeId>, n: NodeId)
    requires n in nodes && n !in done
    ensures var a, b := NodesCancelled(nodes, done), NodesCancelled(nodes, done + {n});
            && a[n] == nodes[n]
            && b == if NodeTerminal(nodes[n].status) then a else a[n := nodes[n].(status := NodeCancelled)]
  {
  }

  lemma NoneCancelled(nodes: map<NodeId, NodeRun>)
    ensures NodesCancelled(nodes, {}) == nodes
  {
  }

  lemma AllCancelled(nodes: map<NodeId, NodeRun>, done: set<NodeId>)
    requires nodes.Keys <= done
    ensures NodesCancelled(nodes, done) == CancelNodes(nodes)
  {
  }

  method CancelNodeRuns(db: RunStore)
    requires Contract(db.graph) && db.nodes.Keys == Ids(db.graph)
    modifies db
    ensures db.View() == old(db.View()).(nodes := CancelNodes(old(db.nodes)))
  {
    ghost var before := db.View();
    var order := Order(db.graph);
    OrderMembers(db.graph);
    NoneCancelled(before.nodes);
    for i := 0 to |order|
      invariant db.View() == before.(nodes := NodesCancelled(before.nodes, Below(order, i)))
    {
      var n := order[i];
      NextRow(order, i);
      BelowSnoc(order, i);
      CancelOneNode(before.nodes, Below(order, i), n);
      if !NodeTerminal(db.nodes[n].status) {
        db.nodes := db.nodes[n := db.nodes[n].(status := NodeCancelled)];
      }
    }
    AllCancelled(before.nodes, Below(order, |order|));
  }

  method CancelRun(db: RunStore) returns (outcome: Outcome)
    requires Tables(db.View())
    modifies db
    ensures Reply(db.View(), outcome) == AfterCancelRun(old(db.View()))
  {
    if RunTerminal(db.run) {
      return Refused;
    }
    if !RunMay(db.run, RunCancelled) {
      return InvalidRun;
    }
    db.run := RunCancelled;
    db.events := db.events + [RunEvent(WorkflowCancelled)];
    CancelNodeRuns(db);
    CancelRunTasks(db, {});
    return Accepted;
  }

  /** Complete a parked node on a human answer. */
  method FinishParked(db: RunStore, n: NodeId, output: Json)
    requires n in db.nodes
    modifies db
    ensures db.View() == CompleteParked(old(db.View()), n, output).st
  {
    db.nodes := db.nodes[n := db.nodes[n].(status := NodeCompleted, output := Some(output))];
    db.events := db.events + [NodeEvent(NodeResumed, n), NodeEvent(NodeCompletedEvent, n)];
  }

  /** What a human action and the reconcile after its commit leave. */
  function ThenReconciled(first: Reply, u: Unresolved, unflushed: set<NodeId>, now: nat): Reply {
    if first.outcome.Accepted? then AfterReconcile(first.st, u, unflushed, now) else first
  }

  method ApproveNodeRun(db: RunStore, n: NodeId, u: Unresolved, unflushed: set<NodeId>, now: nat) returns (outcome: Outcome)
    requires Tables(db.View())
    modifies db
    ensures Reply(db.View(), outcome) == ThenReconciled(AfterApprove(old(db.View()), n), u, unflushed, now)
  {
    if !Actionable(db.View(), n, "approval", "HUMAN_APPROVAL") {
      return Refused;
    }
    FinishParked(db, n, Obj(map["approved" := Bool(true)]));
    outcome := SchedulerService.ReconcileRun(db, u, unflushed, now);
  }

  method SubmitNodeRun(db: RunStore, n: NodeId, input: map<string, Json>, valid: bool, u: Unresolved, unflushed: set<NodeId>, now: nat)
    returns (outcome: Outcome)
    requires Tables(db.View())
    modifies db
    ensures Reply(db.View(), outcome) == ThenReconciled(AfterSubmitInput(old(db.View()), n, input, valid), u, unflushed, now)
  {
    if !Actionable(db.View(), n, "input", "HUMAN_INPUT") || !valid {
      return Refused;
    }
    FinishParked(db, n, Obj(input));
    outcome := SchedulerService.ReconcileRun(db, u, unflushed, now);
  }

  method RejectNodeRun(db: RunStore, n: NodeId, u: Unresolved, unflushed: set<NodeId>, now: nat) returns (outcome: Outcome)
    requires Tables(db.View())
    modifies db
    ensures Reply(db.View(), outcome) == ThenReconciled(AfterReject(old(db.View()), n), u, unflushed, now)
  {
    if !Actionable(db.View(), n, "approval", "HUMAN_APPROVAL") {
      return Refused;
    }
    if !FindNode(db.graph.nodes, n).value.allowReject {
      return Refused;
    }
    db.nodes := db.nodes[n := db.nodes[n].(status := NodeFailed)];
    db.events := db.events + [NodeEvent(NodeResumed, n), NodeEvent(NodeFailedEvent, n)];
    outcome := SchedulerService.ReconcileRun(db, u, unflushed, now);
  }
}
