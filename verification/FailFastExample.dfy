/** Runs in which fail-fast leaves work behind: a parked approval stays parked;
    and when it is approved before the failed sibling is reconciled, the task
    the reconcile creates is not flushed when the live tasks are cancelled. */
module FailFastExample {
  import opened Basics
  import opened StateMachines
  import opened Graphs
  import opened RunRows
  import opened Scheduling
  import opened SchedulerRules
  import opened LifecycleRules
  import opened Runtime
  import opened Invariant
  import opened Wakeup
  import opened FailFast
  import opened Limits
  import opened SampleNodes
  import opened WorkerTurns

  function I(): Node { InputNode("i") }
  function A(): Node { ApprovalNode("a", "Release") }
  function B(): Node { TransformNode("b") }
  function C(): Node { OutputNode("c") }
  function D(): Node { OutputNode("d") }

  /** The run was started without input fields. */
  function Input(): Json { Obj(map[]) }

  /** i leads to a and b, a leads to c, b leads to d. */
  function Sample(): Graph {
    Graph([I(), A(), B(), C(), D()],
          [Edge("i", "a", None), Edge("i", "b", None), Edge("a", "c", None), Edge("b", "d", None)])
  }

  function Rank(n: NodeId): nat {
    if n == "i" then 0 else if n == "c" || n == "d" then 2 else 1
  }

  lemma SampleContract()
    ensures Contract(Sample()) && Ids(Sample()) == {"i", "a", "b", "c", "d"}
  {
    var g := Sample();
    assert Order(g) == ["i", "a", "b", "c", "d"];
    assert g.nodes[0] == I() && g.nodes[1] == A() && g.nodes[2] == B() && g.nodes[3] == C() && g.nodes[4] == D();
  }

  lemma SampleFind(k: nat)
    requires k < |Sample().nodes|
    ensures FindNode(Sample().nodes, Sample().nodes[k].id) == Some(Sample().nodes[k])
  {
    SampleContract();
    assert Sample().nodes[k] in Sample().nodes;
    FindNodeUnique(Sample(), Sample().nodes[k]);
  }

  function NodeFor(n: NodeId): Node {
    match n
    case "i" => I()
    case "a" => A()
    case "b" => B()
    case "c" => C()
    case _ => D()
  }

  lemma SampleAt(k: nat, n: NodeId)
    requires n in {"i", "a", "b", "c", "d"}
    requires k == if n == "i" then 0 else if n == "a" then 1 else if n == "b" then 2 else if n == "c" then 3 else 4
    ensures k < |Sample().nodes| && Sample().nodes[k] == NodeFor(n) && NodeFor(n).id == n
  {
  }

  lemma SampleLookup(n: NodeId)
    requires n in Ids(Sample())
    ensures FindNode(Sample().nodes, n) == Some(NodeFor(n))
  {
    SampleContract();
    var k := if n == "i" then 0 else if n == "a" then 1 else if n == "b" then 2 else if n == "c" then 3 else 4;
    SampleAt(k, n);
    SampleFind(k);
  }

  lemma SampleIncoming(n: NodeId)
    ensures HasIncoming(Sample(), n) <==> n == "a" || n == "b" || n == "c" || n == "d"
  {
    var g := Sample();
    assert g.edges[0] in g.edges && g.edges[1] in g.edges && g.edges[2] in g.edges && g.edges[3] in g.edges;
    assert g.edges[0].target == "a" && g.edges[1].target == "b" && g.edges[2].target == "c" && g.edges[3].target == "d";
  }

  lemma SampleAcyclic()
    ensures Acyclic(Sample())
  {
    var g := Sample();
    RankedIsAcyclic(g, Rank);
  }

  lemma SampleRoles(n: NodeId)
    requires n in Ids(Sample())
    ensures IsInputId(Sample(), n) <==> !HasIncoming(Sample(), n)
    ensures (IsParkedId(Sample(), n) <==> n == "a") && !IsCondition(Sample(), n)
  {
    SampleLookup(n);
    SampleContract();
    SampleIncoming(n);
  }

  lemma SampleRolesAll(g: Graph)
    requires g == Sample()
    ensures forall n :: n in Ids(g) ==> (IsInputId(g, n) <==> !HasIncoming(g, n)) && (IsParkedId(g, n) ==> Leads(g, n))
  {
    assert g.edges[2] in g.edges && g.edges[2].source == "a";
    forall n | n in Ids(g)
      ensures (IsInputId(g, n) <==> !HasIncoming(g, n)) && (IsParkedId(g, n) ==> Leads(g, n))
    {
      SampleRoles(n);
    }
  }

  lemma SamplePublishable()
    ensures Publishable(Sample())
  {
    var g := Sample();
    SampleContract();
    SampleAcyclic();
    SampleRolesAll(g);
    ShapedGraph(g);
  }

  // ----- the run -----

  function Resolved(): Unresolved {
    Unresolved({}, {})
  }

  /** A RUNNING run of the sample at the start of time, c and d untouched. */
  predicate SampleRun(s: System) {
    && s.st.graph == Sample() && s.st.run == RunRunning && s.clock == 0 && s.st.nodes.Keys == {"i", "a", "b", "c", "d"}
    && HasStatus(s.st.nodes, "i", NodeCompleted)
    && HasStatus(s.st.nodes, "c", NodePending) && "c" !in s.st.tasks
    && HasStatus(s.st.nodes, "d", NodePending) && "d" !in s.st.tasks
  }

  predicate Begun(s: System) {
    && SampleRun(s) && s.st.tasks == map[] && s.grants == map[]
    && HasStatus(s.st.nodes, "a", NodePending) && HasStatus(s.st.nodes, "b", NodePending)
  }

  lemma InitialStatus(n: NodeId)
    requires n in Ids(Sample())
    ensures HasStatus(InitialNodes(Sample(), Input()), n, if n == "i" then NodeCompleted else NodePending)
  {
    SampleLookup(n);
  }

  lemma InitialRows(nodes: map<NodeId, NodeRun>)
    requires nodes == InitialNodes(Sample(), Input())
    ensures nodes.Keys == {"i", "a", "b", "c", "d"} && HasStatus(nodes, "i", NodeCompleted) && HasStatus(nodes, "a", NodePending)
    ensures HasStatus(nodes, "b", NodePending) && HasStatus(nodes, "c", NodePending) && HasStatus(nodes, "d", NodePending)
  {
    SampleContract();
    InitialStatus("i");
    InitialStatus("a");
    InitialStatus("b");
    InitialStatus("c");
    InitialStatus("d");
  }

  lemma StartBegins()
    ensures Begun(Step(Created(Sample(), Input()), StartRun))
  {
    StartedRun(Sample(), Input());
    InitialRows(Step(Created(Sample(), Input()), StartRun).st.nodes);
  }

  lemma SampleEdges(e: Edge)
    requires e in Sample().edges
    ensures e == Edge("i", "a", None) || e == Edge("i", "b", None) || e == Edge("a", "c", None) || e == Edge("b", "d", None)
  {
  }

  lemma SampleActive(nodes: map<NodeId, NodeRun>, e: Edge)
    requires e in Sample().edges && !HasStatus(nodes, e.source, NodeSkipped)
    ensures EdgeActive(Sample(), nodes, e)
  {
    SampleContract();
    SampleEdges(e);
    SampleRoles(e.source);
  }

  lemma SampleClosed(nodes: map<NodeId, NodeRun>)
    requires forall n :: n in nodes ==> nodes[n].status != NodeSkipped
    ensures SkipClosed(Sample(), nodes)
  {
    forall n | n in nodes && CutOff(Sample(), nodes, {}, n)
      ensures false
    {
      var e :| e in Sample().edges && e.target == n;
      SampleActive(nodes, e);
    }
  }

  lemma OneEdgeInto(e: Edge, f: Edge)
    requires e in Sample().edges && f in Sample().edges && f.target == e.target
    ensures f == e
  {
    SampleEdges(e);
    SampleEdges(f);
  }

  lemma SampleResolves(e: Edge)
    requires e in Sample().edges
    ensures !IsPostponed(Sample(), Resolved(), e.target)
  {
    SampleContract();
    SampleEdges(e);
    SampleLookup(e.target);
  }

  /** A node with one incoming edge is ready as soon as its source completed. */
  lemma SampleReady(nodes: map<NodeId, NodeRun>, e: Edge)
    requires e in Sample().edges && HasStatus(nodes, e.target, NodePending)
    ensures Ready(Sample(), nodes, e.target) <==> HasStatus(nodes, e.source, NodeCompleted)
  {
    forall f | f in Sample().edges && f.target == e.target
      ensures f == e
    {
      OneEdgeInto(e, f);
    }
    if HasStatus(nodes, e.source, NodeCompleted) || Ready(Sample(), nodes, e.target) {
      if !HasStatus(nodes, e.source, NodeSkipped) {
        SampleActive(nodes, e);
      }
    }
  }

  /** The target of an edge was queued if its source completed, and left alone otherwise. */
  predicate Scheduled(st: RunState, next: RunState, e: Edge, now: nat) {
    if HasStatus(st.nodes, e.source, NodeCompleted) then
      && e.target in next.tasks && HasStatus(next.nodes, e.target, NodeQueued)
      && next.tasks[e.target] == TaskFor(Sample(), e.target, Resolved(), now)
    else e.target !in next.tasks && HasStatus(next.nodes, e.target, NodePending)
  }

  predicate Unskipped(nodes: map<NodeId, NodeRun>) {
    forall n :: n in nodes ==> nodes[n].status != NodeSkipped && nodes[n].status != NodeWaiting
  }

  lemma FiveRows(nodes: map<NodeId, NodeRun>)
    requires nodes.Keys == {"i", "a", "b", "c", "d"}
    requires Ordinary(nodes["i"].status) && Ordinary(nodes["a"].status) && Ordinary(nodes["b"].status) && Ordinary(nodes["c"].status)
    requires Ordinary(nodes["d"].status)
    ensures Unskipped(nodes)
  {
    forall n | n in nodes
      ensures Ordinary(nodes[n].status)
    {
      assert n in {"i", "a", "b", "c", "d"};
    }
  }

  predicate Ordinary(status: NodeStatus) {
    status.NodePending? || status.NodeCompleted? || status.NodeFailed?
  }

  /** A RUNNING run of the sample in which nothing is skipped or parked. */
  function SampleRows(st: RunState): Verdict {
    if st.graph == Sample() && st.run.RunRunning? && Unskipped(st.nodes) then Consistent else Broken
  }

  /** What scheduling does in a run of the sample whose branches are all open. */
  lemma SampleSchedule(st: RunState, now: nat, e: Edge)
    requires SampleRows(st) == Consistent
    requires e in Sample().edges && HasStatus(st.nodes, e.target, NodePending) && e.target !in st.tasks
    ensures Scheduled(st, AfterSchedule(st, Resolved(), now), e, now)
  {
    SampleClosed(st.nodes);
    ClosedSchedule(st, Resolved(), now);
    SampleReady(st.nodes, e);
    SampleResolves(e);
  }

  lemma ScheduleKeepsRows(st: RunState, u: Unresolved, now: nat, n: NodeId)
    requires n in st.nodes && !st.nodes[n].status.NodePending?
    ensures var r := AfterSchedule(st, u, now);
            r.graph == st.graph && r.run == st.run && r.nodes.Keys == st.nodes.Keys && r.nodes[n] == st.nodes[n]
  {
    SkipSetLeast(st.graph, st.nodes);
  }

  lemma SampleTask(n: NodeId)
    requires n == "a" || n == "b"
    ensures var t := TaskFor(Sample(), n, Resolved(), 0);
            t.status.TaskPending? && t.availableAt == 0 && t.capability.None?
  {
    SampleContract();
    SampleLookup(n);
  }

  predicate Opened(s: System) {
    SampleRun(s) && s.grants == map[] && Waiting(s, "a") && Waiting(s, "b")
  }

  lemma OpenedRows(s: System, next: RunState)
    requires Begun(s)
    requires next.graph == Sample() && next.run == RunRunning && next.nodes.Keys == s.st.nodes.Keys && next.nodes["i"] == s.st.nodes["i"]
    requires Scheduled(s.st, next, Edge("i", "a", None), 0) && Scheduled(s.st, next, Edge("i", "b", None), 0)
    requires Scheduled(s.st, next, Edge("a", "c", None), 0) && Scheduled(s.st, next, Edge("b", "d", None), 0)
    ensures Opened(System(next, 0, map[]))
  {
    SampleTask("a");
    SampleTask("b");
  }

  lemma ScheduleOpens(s: System)
    requires Begun(s)
    ensures Opened(System(AfterSchedule(s.st, Resolved(), 0), 0, map[]))
  {
    var g := Sample();
    assert g.edges[0] == Edge("i", "a", None) && g.edges[1] == Edge("i", "b", None) && g.edges[2] == Edge("a", "c", None);
    assert g.edges[3] == Edge("b", "d", None);
    FiveRows(s.st.nodes);
    ScheduleKeepsRows(s.st, Resolved(), 0, "i");
    SampleSchedule(s.st, 0, g.edges[0]);
    SampleSchedule(s.st, 0, g.edges[1]);
    SampleSchedule(s.st, 0, g.edges[2]);
    SampleSchedule(s.st, 0, g.edges[3]);
    OpenedRows(s, AfterSchedule(s.st, Resolved(), 0));
  }

  /** The approval waits for its answer. */
  predicate AwaitsApproval(s: System) {
    && HasStatus(s.st.nodes, "a", NodeWaiting)
    && s.st.nodes["a"].parking.Some? && s.st.nodes["a"].parking.value.reason == "HUMAN_APPROVAL"
  }

  /** a parked and b still queued. */
  predicate Halfway(s: System) {
    SampleRun(s) && s.grants.Keys == {0} && Waiting(s, "b") && AwaitsApproval(s)
  }

  lemma ApprovalFound()
    ensures FindNode(Sample().nodes, "a") == Some(A()) && IsParkedId(Sample(), "a")
  {
    SampleContract();
    SampleLookup("a");
  }

  lemma ApprovalRow(row: NodeRun)
    requires FindNode(Sample().nodes, "a") == Some(A())
    ensures var r := ReportedRow(Sample(), "a", row, Parks, 0);
            r.status.NodeWaiting? && r.parking.Some? && r.parking.value.reason == "HUMAN_APPROVAL"
  {
  }

  lemma ApprovalParks(s: System)
    requires Opened(s)
    ensures Halfway(Finished(s, "a", 0, Parks))
  {
    ApprovalFound();
    FinishShape(s, "a", 0, Parks);
    ApprovalRow(s.st.nodes["a"].(status := NodeRunning));
  }

  /** a parked, b failed, nothing reconciled yet. */
  predicate Split(s: System) {
    SampleRun(s) && AwaitsApproval(s) && HasStatus(s.st.nodes, "b", NodeFailed)
  }

  lemma SecondFails(s: System)
    requires Halfway(s)
    ensures Split(Finished(s, "b", 1, Fails))
  {
    FinishShape(s, "b", 1, Fails);
  }

  function Acts(): seq<Action> {
    [StartRun, ScheduleReady(Resolved())] + Work("a", 0, Parks) + Work("b", 1, Fails)
  }

  lemma ActsSplit()
    ensures Split(Execute(Sample(), Input(), Acts()))
  {
    var s, u, first := Created(Sample(), Input()), Resolved(), [StartRun, ScheduleReady(Resolved())];
    var begun := Step(s, StartRun);
    var waiting := Step(begun, ScheduleReady(u));
    var halfway := Finished(waiting, "a", 0, Parks);
    StartBegins();
    ScheduleStep(begun, u);
    ScheduleOpens(begun);
    ApprovalParks(waiting);
    SecondFails(halfway);
    TwoSteps(s, StartRun, ScheduleReady(u));
    WorkFinishes(waiting, "a", 0, Parks);
    WorkFinishes(halfway, "b", 1, Fails);
    RunFromConcat(s, first, Work("a", 0, Parks));
    RunFromConcat(s, first + Work("a", 0, Parks), Work("b", 1, Fails));
  }

  // ----- a reconcile now: the approval stays parked -----

  /** The run ends FAILED with its approval still WAITING. */
  lemma FailedRunKeepsParkedNode(unflushed: set<NodeId>)
    ensures Publishable(Sample())
    ensures var s := Execute(Sample(), Input(), Acts());
            var r := AfterReconcile(s.st, Resolved(), unflushed, s.clock).st;
            r.run.RunFailed? && LeftUnfinished(r.nodes, "a")
  {
    SamplePublishable();
    SampleContract();
    ActsSplit();
    FailFastNodes(Sample(), Input(), Acts(), Resolved(), unflushed, "a");
    FailFastResidue(Sample(), Input(), Acts(), Resolved(), unflushed);
  }

  // ----- an approval first: the new task stays queued -----

  /** a approved, b failed, nothing reconciled yet. */
  predicate Ended(s: System) {
    SampleRun(s) && HasStatus(s.st.nodes, "a", NodeCompleted) && HasStatus(s.st.nodes, "b", NodeFailed)
  }

  lemma ApproveShape(s: System, n: NodeId)
    requires Actionable(s.st, n, "approval", "HUMAN_APPROVAL")
    ensures var r := Step(s, Approve(n));
            && r.st.graph == s.st.graph && r.st.run == s.st.run && r.clock == s.clock && r.st.tasks == s.st.tasks
            && r.st.nodes == s.st.nodes[n := s.st.nodes[n].(status := NodeCompleted, output := Some(Obj(map["approved" := Bool(true)])))]
  {
  }

  lemma ApprovalEnds(s: System)
    requires Split(s)
    ensures Ended(Step(s, Approve("a")))
  {
    ApprovalFound();
    ApproveShape(s, "a");
  }

  lemma ApprovedActsEnd()
    ensures Ended(Execute(Sample(), Input(), Acts() + [Approve("a")]))
  {
    ActsSplit();
    ApprovalEnds(Execute(Sample(), Input(), Acts()));
    RunFromConcat(Created(Sample(), Input()), Acts(), [Approve("a")]);
    OneStep(Execute(Sample(), Input(), Acts()), Approve("a"));
  }

  lemma NoTimers(st: RunState, now: nat)
    requires Unskipped(st.nodes)
    ensures TimersElapsed(st, now) == st.nodes
  {
  }

  lemma EndedQueues(s: System)
    requires Ended(s)
    ensures "c" in ToQueue(s.st, Resolved(), 0)
  {
    FiveRows(s.st.nodes);
    NoTimers(s.st, 0);
    SampleClosed(s.st.nodes);
    ClosedSkipsNothing(s.st);
    assert Sample().edges[2] == Edge("a", "c", None);
    SampleReady(s.st.nodes, Sample().edges[2]);
    SampleResolves(Sample().edges[2]);
  }

  /** The run ends FAILED with a live task in its queue. */
  lemma FailedRunKeepsTask()
    ensures Publishable(Sample())
    ensures var s := Execute(Sample(), Input(), Acts() + [Approve("a")]);
            var r := AfterReconcile(s.st, Resolved(), {"c"}, s.clock).st;
            r.run.RunFailed? && HasLiveTask(r)
  {
    SamplePublishable();
    ApprovedActsEnd();
    EndedQueues(Execute(Sample(), Input(), Acts() + [Approve("a")]));
    FailFastResidue(Sample(), Input(), Acts() + [Approve("a")], Resolved(), {"c"});
    assert "c" in {"c"} * ToQueue(Execute(Sample(), Input(), Acts() + [Approve("a")]).st, Resolved(), 0);
  }
}
