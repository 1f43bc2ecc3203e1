/** One node's turn with the Worker: claimed, started and reported at once. */
module WorkerTurns {
  import opened Basics
  import opened StateMachines
  import opened Graphs
  import opened RunRows
  import opened Scheduling
  import opened SchedulerRules
  import opened QueueRules
  import opened Runtime
  import opened Limits

  lemma StartedRun(g: Graph, input: Json)
    ensures var s := Step(Created(g, input), StartRun);
            && s.st.graph == g && s.st.run == RunRunning && s.st.nodes == InitialNodes(g, input) && s.st.tasks == map[]
            && s.clock == 0 && s.grants == map[]
  {
  }

  /** The node waits in the Worker's queue of a RUNNING run. */
  predicate Waiting(s: System, n: NodeId) {
    && Claimable(s.st, n, s.clock) && s.st.tasks[n].capability.None?
    && s.st.nodes[n].status.NodeQueued?
  }

  /** What came of one attempt. */
  datatype Turn = Parks | Fails | Completes(output: Json)

  function TaskAfter(turn: Turn): TaskStatus {
    if turn.Fails? then TaskFailed else TaskCompleted
  }

  /** What the Worker reports. */
  function Report(n: NodeId, token: Token, turn: Turn): Action {
    match turn
    case Parks => Park(n, "w", token, 1)
    case Fails => Fail(n, "w", token)
    case Completes(output) => Complete(n, "w", token, output)
  }

  function ReportedRow(g: Graph, n: NodeId, row: NodeRun, turn: Turn, now: nat): NodeRun {
    match turn
    case Parks =>
      (match FindNode(g.nodes, n)
       case Some(node) => row.(status := NodeWaiting, parking := Some(ParkingFor(node, 1, now)))
       case None => row)
    case Fails => row.(status := NodeFailed)
    case Completes(output) => row.(status := NodeCompleted, output := Some(output))
  }

  lemma ReportShape(s: System, n: NodeId, token: Token, turn: Turn)
    requires OwnsTask(s.st, n, "w", token, s.clock) && s.st.tasks[n].status.TaskRunning? && s.st.nodes[n].status.NodeRunning?
    requires turn.Parks? ==> IsParkedId(s.st.graph, n)
    ensures var r := Step(s, Report(n, token, turn));
            && r.st.graph == s.st.graph && r.st.run == s.st.run && r.clock == s.clock && r.grants == s.grants
            && r.st.nodes == s.st.nodes[n := ReportedRow(s.st.graph, n, s.st.nodes[n], turn, s.clock)]
            && r.st.tasks == s.st.tasks[n := s.st.tasks[n].(status := TaskAfter(turn))]
  {
  }

  lemma StartedShape(s: System, n: NodeId, token: Token)
    requires OwnsTask(s.st, n, "w", token, s.clock) && s.st.run.RunRunning? && s.st.tasks[n].status.TaskClaimed?
    requires s.st.nodes[n].status.NodeQueued?
    ensures var r := Step(s, StartTask(n, "w", token));
            && r.st.graph == s.st.graph && r.st.run == s.st.run && r.clock == s.clock && r.grants == s.grants
            && r.st.nodes == s.st.nodes[n := s.st.nodes[n].(status := NodeRunning)]
            && r.st.tasks == s.st.tasks[n := Started(s.st.tasks[n])]
  {
  }

  lemma ClaimedShape(s: System, n: NodeId, token: Token)
    requires Waiting(s, n) && token !in s.grants
    ensures var r := Step(s, Claim(n, "w", token, 1));
            && r.st.graph == s.st.graph && r.st.run == s.st.run && r.clock == s.clock && r.grants.Keys == s.grants.Keys + {token}
            && r.st.nodes == s.st.nodes && r.st.tasks == s.st.tasks[n := Leased(s.st.tasks[n], "w", token, s.clock + 1)]
  {
    ClaimShape(s, n, "w", token, 1);
    assert s.st.nodes[n := s.st.nodes[n]] == s.st.nodes;
  }

  lemma ClaimAndStart(s: System, n: NodeId, token: Token)
    requires Waiting(s, n) && token !in s.grants
    ensures var r := Step(Step(s, Claim(n, "w", token, 1)), StartTask(n, "w", token));
            && r.st.graph == s.st.graph && r.st.run == s.st.run && r.clock == s.clock && r.grants.Keys == s.grants.Keys + {token}
            && r.st.nodes == s.st.nodes[n := s.st.nodes[n].(status := NodeRunning)]
            && r.st.tasks == s.st.tasks[n := Started(Leased(s.st.tasks[n], "w", token, s.clock + 1))]
  {
    ClaimedShape(s, n, token);
    StartedShape(Step(s, Claim(n, "w", token, 1)), n, token);
  }

  function Finished(s: System, n: NodeId, token: Token, turn: Turn): System {
    Step(Step(Step(s, Claim(n, "w", token, 1)), StartTask(n, "w", token)), Report(n, token, turn))
  }

  lemma FinishShape(s: System, n: NodeId, token: Token, turn: Turn)
    requires Waiting(s, n) && token !in s.grants && (turn.Parks? ==> IsParkedId(s.st.graph, n))
    ensures var r := Finished(s, n, token, turn);
            && r.st.graph == s.st.graph && r.st.run == s.st.run && r.clock == s.clock && r.grants.Keys == s.grants.Keys + {token}
            && r.st.nodes.Keys == s.st.nodes.Keys && r.st.tasks.Keys == s.st.tasks.Keys
            && (forall m :: m in s.st.nodes && m != n ==> r.st.nodes[m] == s.st.nodes[m])
            && (forall m :: m in s.st.tasks && m != n ==> r.st.tasks[m] == s.st.tasks[m])
            && r.st.nodes[n] == ReportedRow(s.st.graph, n, s.st.nodes[n].(status := NodeRunning), turn, s.clock)
            && r.st.tasks[n].status == TaskAfter(turn)
  {
    ClaimAndStart(s, n, token);
    ReportShape(Step(Step(s, Claim(n, "w", token, 1)), StartTask(n, "w", token)), n, token, turn);
  }

  /** What a Worker sends for one node. */
  function Work(n: NodeId, token: Token, turn: Turn): seq<Action> {
    [Claim(n, "w", token, 1), StartTask(n, "w", token), Report(n, token, turn)]
  }

  lemma WorkFinishes(s: System, n: NodeId, token: Token, turn: Turn)
    ensures RunFrom(s, Work(n, token, turn)) == Finished(s, n, token, turn)
  {
    var w := Work(n, token, turn);
    assert w[..2] == [w[0], w[1]];
    TwoSteps(s, w[0], w[1]);
  }

  lemma ScheduleStep(s: System, u: Unresolved)
    ensures Step(s, ScheduleReady(u)) == System(AfterSchedule(s.st, u, s.clock), s.clock, s.grants)
  {
  }
}
