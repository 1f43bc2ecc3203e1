/** A run that stalls on a branch it did not take: a Tool below a Condition runs
    either way, but its command refers to the output of the other branch. */
module BranchExample {
  import opened Basics
  import opened StateMachines
  import opened Graphs
  import opened RunRows
  import opened Scheduling
  import opened SchedulerRules
  import opened Runtime
  import opened Invariant
  import opened RuntimeSafety
  import opened SchedulerSafety
  import opened Wakeup
  import opened ContextReferences
  import opened ContextResolver
  import opened TemplateSubstitution
  import opened Dispatching
  import opened Stall
  import opened Revival
  import opened StalledForGood
  import opened Limits
  import opened SampleNodes
  import opened WorkerTurns

  /** `{{nodes.<n>.output.<name>}}`. */
  function OutputReference(n: NodeId, name: string): Reference {
    Reference("{{nodes." + n + ".output." + name + "}}", NodeOutput(n), [name])
  }

  lemma OutputParts(n: NodeId, name: string)
    requires Without(n, '.') && Without(name, '.')
    ensures Split("nodes." + n + ".output." + name) == ["nodes", n, "output", name]
  {
    assert "nodes." + n + ".output." + name == "nodes" + "." + (n + "." + ("output" + "." + name));
    SplitDot("nodes", n + "." + ("output" + "." + name));
    SplitDot(n, "output" + "." + name);
    SplitDot("output", name);
    SplitWord(name);
  }

  lemma OutputScope(n: NodeId, name: string)
    requires Identifier(n) && Identifier(name)
    ensures var parts := ["nodes", n, "output", name];
            && ScopeOf(parts) == Some((NodeOutput(n), 3)) && parts[3..] == [name]
            && forall i :: 0 <= i < |parts| ==> Identifier(parts[i])
  {
    assert Identifier("nodes") && Identifier("output");
  }

  lemma OutputReferenceParses(n: NodeId, name: string)
    requires Identifier(n) && Identifier(name)
    ensures ParseReference(OutputReference(n, name).raw) == Some(OutputReference(n, name))
  {
    var raw, body, parts := OutputReference(n, name).raw, "nodes." + n + ".output." + name, ["nodes", n, "output", name];
    IdentifierCharacters(n);
    IdentifierCharacters(name);
    OutputParts(n, name);
    assert raw == "{{" + body + "}}" && body[|body| - 1] == name[|name| - 1];
    OutputScope(n, name);
    TightReference(raw, body, parts);
  }

  function I(): Node { InputNode("i") }
  function C(): Node { ConditionNode("c", "yes") }
  function B(): Node { TransformNode("b") }
  function T(): Node { ToolNode("t", OutputReference("b", "x").raw, "r") }
  function O(): Node { OutputNode("o") }

  /** The Condition c leads to the Tool t, or through b to t; t leads to o. */
  function Fork(): Graph {
    Graph([I(), C(), B(), T(), O()],
          [Edge("i", "c", None), Edge("c", "t", Some("true")), Edge("c", "b", Some("false")), Edge("b", "t", None), Edge("t", "o", None)])
  }

  // ----- the graph -----

  lemma ForkContract()
    ensures Contract(Fork()) && Ids(Fork()) == {"i", "c", "b", "t", "o"}
  {
    var g := Fork();
    assert Order(g) == ["i", "c", "b", "t", "o"];
    assert g.nodes[0] == I() && g.nodes[1] == C() && g.nodes[2] == B() && g.nodes[3] == T() && g.nodes[4] == O();
  }

  function NodeFor(n: NodeId): Node {
    match n
    case "i" => I()
    case "c" => C()
    case "b" => B()
    case "t" => T()
    case _ => O()
  }

  lemma ForkAt(k: nat, n: NodeId)
    requires n in {"i", "c", "b", "t", "o"}
    requires k == if n == "i" then 0 else if n == "c" then 1 else if n == "b" then 2 else if n == "t" then 3 else 4
    ensures k < |Fork().nodes| && Fork().nodes[k] == NodeFor(n) && NodeFor(n).id == n
  {
  }

  lemma ForkLookup(n: NodeId)
    requires n in Ids(Fork())
    ensures FindNode(Fork().nodes, n) == Some(NodeFor(n)) && NodeFor(n) in Fork().nodes
  {
    ForkContract();
    var k := if n == "i" then 0 else if n == "c" then 1 else if n == "b" then 2 else if n == "t" then 3 else 4;
    ForkAt(k, n);
    FindNodeUnique(Fork(), Fork().nodes[k]);
  }

  lemma ForkEdges(e: Edge)
    requires e in Fork().edges
    ensures || e == Edge("i", "c", None) || e == Edge("c", "t", Some("true")) || e == Edge("c", "b", Some("false"))
            || e == Edge("b", "t", None) || e == Edge("t", "o", None)
  {
  }

  lemma ForkHas(k: nat, e: Edge)
    requires k < 5 && e == Fork().edges[k]
    ensures e in Fork().edges
  {
  }

  function Rank(n: NodeId): nat {
    match n
    case "i" => 0
    case "c" => 1
    case "b" => 2
    case "t" => 3
    case _ => 4
  }

  lemma ForkAcyclic()
    ensures Acyclic(Fork())
  {
    forall e | e in Fork().edges
      ensures Rank(e.source) < Rank(e.target)
    {
      ForkEdges(e);
    }
    RankedIsAcyclic(Fork(), Rank);
  }

  lemma ForkIncoming(n: NodeId)
    ensures HasIncoming(Fork(), n) <==> n == "c" || n == "t" || n == "b" || n == "o"
  {
    var g := Fork();
    ForkHas(0, g.edges[0]);
    ForkHas(1, g.edges[1]);
    ForkHas(2, g.edges[2]);
    ForkHas(4, g.edges[4]);
  }

  lemma ForkRoles(n: NodeId)
    requires n in Ids(Fork())
    ensures (IsInputId(Fork(), n) <==> !HasIncoming(Fork(), n)) && !IsParkedId(Fork(), n) && (IsCondition(Fork(), n) <==> n == "c")
  {
    ForkLookup(n);
    ForkIncoming(n);
    RolesOf(n);
  }

  lemma RolesOf(n: NodeId)
    requires n in Ids(Fork())
    ensures (IsInput(NodeFor(n)) <==> n == "i") && !IsParked(NodeFor(n))
    ensures NodeFor(n).nodeType.Logic? <==> n == "c"
  {
    ForkContract();
  }

  lemma ForkPublishable()
    ensures Publishable(Fork())
  {
    ForkContract();
    ForkAcyclic();
    forall n | n in Ids(Fork())
      ensures (IsInputId(Fork(), n) <==> !HasIncoming(Fork(), n)) && !IsParkedId(Fork(), n)
    {
      ForkRoles(n);
    }
    ShapedGraph(Fork());
  }

  // ----- the run up to the Condition -----

  function Input(): Json { Obj(map[]) }

  predicate ForkRun(s: System) {
    s.st.graph == Fork() && s.st.run == RunRunning && s.clock == 0 && s.st.nodes.Keys == {"i", "c", "b", "t", "o"}
  }

  /** Nothing beyond the Condition was touched. */
  predicate Untouched(nodes: map<NodeId, NodeRun>) {
    && HasStatus(nodes, "i", NodeCompleted) && HasStatus(nodes, "b", NodePending) && nodes["b"].output.None?
    && HasStatus(nodes, "t", NodePending) && HasStatus(nodes, "o", NodePending)
  }

  predicate Begun(s: System) {
    ForkRun(s) && Untouched(s.st.nodes) && s.st.tasks == map[] && s.grants == map[] && HasStatus(s.st.nodes, "c", NodePending)
  }

  lemma InitialStatus(n: NodeId)
    requires n in Ids(Fork())
    ensures HasStatus(InitialNodes(Fork(), Input()), n, if n == "i" then NodeCompleted else NodePending)
    ensures n != "i" ==> InitialNodes(Fork(), Input())[n].output.None?
  {
    ForkLookup(n);
  }

  lemma InitialRows(nodes: map<NodeId, NodeRun>)
    requires nodes == InitialNodes(Fork(), Input())
    ensures nodes.Keys == {"i", "c", "b", "t", "o"} && Untouched(nodes) && HasStatus(nodes, "c", NodePending)
  {
    ForkContract();
    InitialStatus("i");
    InitialStatus("c");
    InitialStatus("b");
    InitialStatus("t");
    InitialStatus("o");
  }

  lemma StartBegins()
    ensures Begun(Step(Created(Fork(), Input()), StartRun))
  {
    StartedRun(Fork(), Input());
    InitialRows(Step(Created(Fork(), Input()), StartRun).st.nodes);
  }

  /** While the Condition is open, so is every edge. */
  lemma OpenEdge(nodes: map<NodeId, NodeRun>, e: Edge)
    requires e in Fork().edges && !HasStatus(nodes, e.source, NodeSkipped) && !HasStatus(nodes, "c", NodeCompleted)
    ensures EdgeActive(Fork(), nodes, e)
  {
    ForkContract();
    ForkEdges(e);
    ForkRoles(e.source);
  }

  lemma BegunClosed(nodes: map<NodeId, NodeRun>)
    requires !HasStatus(nodes, "c", NodeCompleted) && forall n :: n in nodes ==> nodes[n].status != NodeSkipped
    ensures SkipClosed(Fork(), nodes)
  {
    forall n | n in nodes && CutOff(Fork(), nodes, {}, n)
      ensures false
    {
      var e :| e in Fork().edges && e.target == n;
      OpenEdge(nodes, e);
    }
  }

  predicate Ordinary(status: NodeStatus) {
    status.NodePending? || status.NodeCompleted?
  }

  lemma FiveRows(nodes: map<NodeId, NodeRun>)
    requires nodes.Keys == {"i", "c", "b", "t", "o"} && Untouched(nodes) && Ordinary(nodes["c"].status)
    ensures forall n :: n in nodes ==> Ordinary(nodes[n].status)
  {
    forall n | n in nodes
      ensures Ordinary(nodes[n].status)
    {
      assert n in {"i", "c", "b", "t", "o"};
    }
  }

  /** Only the Condition is ready at first. */
  lemma FirstReady(nodes: map<NodeId, NodeRun>, n: NodeId)
    requires Untouched(nodes) && HasStatus(nodes, "c", NodePending) && n in {"i", "c", "b", "t", "o"}
    ensures Ready(Fork(), nodes, n) <==> n == "c"
  {
    var g := Fork();
    ForkHas(0, g.edges[0]);
    ForkHas(1, g.edges[1]);
    ForkHas(2, g.edges[2]);
    ForkHas(4, g.edges[4]);
    OpenEdge(nodes, g.edges[0]);
    OpenEdge(nodes, g.edges[1]);
    OpenEdge(nodes, g.edges[2]);
    OpenEdge(nodes, g.edges[4]);
    if n == "c" {
      forall e | e in g.edges && e.target == "c"
        ensures e.source == "i"
      {
        ForkEdges(e);
      }
    }
  }

  lemma ConditionGoesToWorker(u: Unresolved, now: nat)
    ensures !IsPostponed(Fork(), u, "c")
    ensures TaskFor(Fork(), "c", u, now) == Task(TaskPending, None, None, None, now, 0, 1, None, None)
  {
    ForkContract();
    ForkLookup("c");
  }

  lemma FirstReadySet(nodes: map<NodeId, NodeRun>)
    requires nodes.Keys == {"i", "c", "b", "t", "o"} && Untouched(nodes) && HasStatus(nodes, "c", NodePending)
    ensures ReadySet(Fork(), nodes) == {"c"}
  {
    forall n | n in nodes
      ensures n in ReadySet(Fork(), nodes) <==> n == "c"
    {
      FirstReady(nodes, n);
    }
  }

  lemma QueueReady(st: RunState, u: Unresolved, x: NodeId)
    requires ReadySet(st.graph, st.nodes) == {x} && x !in st.tasks && !IsPostponed(st.graph, u, x)
    ensures QueueSet(st, u) == {x}
  {
  }

  lemma QueueOne(st: RunState, u: Unresolved, now: nat, log: seq<Event>, x: NodeId)
    requires x in st.nodes && st.tasks == map[]
    ensures var next := Queued(st, {x}, u, now, log);
            && next.graph == st.graph && next.run == st.run && next.tasks == map[x := TaskFor(st.graph, x, u, now)]
            && next.nodes == st.nodes[x := st.nodes[x].(status := NodeQueued)]
  {
  }

  /** The Condition waits for the Worker. */
  predicate Asked(s: System) {
    && ForkRun(s) && Untouched(s.st.nodes) && s.st.tasks.Keys == {"c"} && s.grants == map[]
    && Waiting(s, "c")
  }

  lemma AskedRows(s: System, next: RunState, t: Task)
    requires Begun(s) && t == Task(TaskPending, None, None, None, 0, 0, 1, None, None)
    requires next.graph == Fork() && next.run == RunRunning && next.tasks == map["c" := t]
    requires next.nodes == s.st.nodes["c" := s.st.nodes["c"].(status := NodeQueued)]
    ensures Asked(System(next, 0, map[]))
  {
  }

  lemma BegunSchedule(st: RunState, u: Unresolved, x: NodeId)
    requires st.run.RunRunning? && SkipClosed(st.graph, st.nodes) && QueueSet(st, u) == {x} && x in st.nodes && st.tasks == map[]
    ensures var next := AfterSchedule(st, u, 0);
            && next.graph == st.graph && next.run == st.run && next.tasks == map[x := TaskFor(st.graph, x, u, 0)]
            && next.nodes == st.nodes[x := st.nodes[x].(status := NodeQueued)]
  {
    ClosedSchedule(st, u, 0);
    QueueOne(st, u, 0, AfterSchedule(st, u, 0).events, x);
  }

  lemma BegunQueues(st: RunState, u: Unresolved)
    requires st.graph == Fork() && st.run.RunRunning? && st.nodes.Keys == {"i", "c", "b", "t", "o"} && st.tasks == map[]
    requires Untouched(st.nodes) && HasStatus(st.nodes, "c", NodePending)
    ensures SkipClosed(Fork(), st.nodes) && QueueSet(st, u) == {"c"}
  {
    FiveRows(st.nodes);
    BegunClosed(st.nodes);
    ConditionGoesToWorker(u, 0);
    FirstReadySet(st.nodes);
    QueueReady(st, u, "c");
  }

  lemma ScheduleAsks(s: System, u: Unresolved)
    requires Begun(s)
    ensures Asked(Step(s, ScheduleReady(u)))
  {
    BegunQueues(s.st, u);
    BegunSchedule(s.st, u, "c");
    ConditionGoesToWorker(u, 0);
    ScheduleStep(s, u);
    AskedRows(s, AfterSchedule(s.st, u, 0), TaskFor(Fork(), "c", u, 0));
  }

  function Answer(): Json { Obj(map["selected_branch" := Str("true")]) }

  /** The Condition chose its `true` branch. */
  predicate Decided(s: System) {
    && ForkRun(s) && Untouched(s.st.nodes) && s.st.tasks.Keys == {"c"} && s.st.tasks["c"].status.TaskCompleted?
    && HasStatus(s.st.nodes, "c", NodeCompleted) && s.st.nodes["c"].output == Some(Answer())
  }

  lemma WorkerDecides(s: System)
    requires Asked(s)
    ensures Decided(Finished(s, "c", 0, Completes(Answer())))
  {
    FinishShape(s, "c", 0, Completes(Answer()));
  }

  /** Start, schedule, and let the Worker evaluate the Condition. */
  function Acts(env: Env): seq<Action> {
    [StartRun, ScheduleReady(FailuresIn(Fork(), Step(Created(Fork(), Input()), StartRun).st.nodes, env))]
      + Work("c", 0, Completes(Answer()))
  }

  lemma ActsDecide(env: Env)
    ensures Decided(Execute(Fork(), Input(), Acts(env)))
  {
    var s := Created(Fork(), Input());
    var begun := Step(s, StartRun);
    var u := FailuresIn(Fork(), begun.st.nodes, env);
    var asked := Step(begun, ScheduleReady(u));
    StartBegins();
    ScheduleAsks(begun, u);
    WorkerDecides(asked);
    TwoSteps(s, StartRun, ScheduleReady(u));
    WorkFinishes(asked, "c", 0, Completes(Answer()));
    RunFromConcat(s, [StartRun, ScheduleReady(u)], Work("c", 0, Completes(Answer())));
  }

  // ----- the branch not taken -----

  lemma ChosenEdge(nodes: map<NodeId, NodeRun>, e: Edge)
    requires e in Fork().edges && HasStatus(nodes, "c", NodeCompleted) && nodes["c"].output == Some(Answer())
    requires !HasStatus(nodes, e.source, NodeSkipped)
    ensures EdgeActive(Fork(), nodes, e) <==> e != Edge("c", "b", Some("false"))
  {
    ForkContract();
    ForkEdges(e);
    ForkRoles(e.source);
  }

  predicate Forked(nodes: map<NodeId, NodeRun>) {
    && nodes.Keys == {"i", "c", "b", "t", "o"} && Untouched(nodes)
    && HasStatus(nodes, "c", NodeCompleted) && nodes["c"].output == Some(Answer())
  }

  lemma OnlyInto(n: NodeId, e: Edge)
    requires e in Fork().edges && e.target == n
    ensures n == "b" ==> e == Edge("c", "b", Some("false"))
    ensures n == "t" ==> e == Edge("c", "t", Some("true")) || e == Edge("b", "t", None)
    ensures n == "o" ==> e == Edge("t", "o", None)
  {
    ForkEdges(e);
  }

  lemma OpenIsNotCutOff(g: Graph, nodes: map<NodeId, NodeRun>, s: set<NodeId>, e: Edge)
    requires e in g.edges && EdgeActive(g, nodes, e) && e.source !in s
    ensures !CutOff(g, nodes, s, e.target)
  {
  }

  lemma OthersOpen(nodes: map<NodeId, NodeRun>, n: NodeId)
    requires Forked(nodes) && n in nodes && n != "b"
    ensures !CutOff(Fork(), nodes, {"b"}, n)
  {
    var g := Fork();
    if n == "t" {
      ForkHas(1, g.edges[1]);
      ChosenEdge(nodes, g.edges[1]);
      OpenIsNotCutOff(g, nodes, {"b"}, g.edges[1]);
    } else if n == "o" {
      ForkHas(4, g.edges[4]);
      ChosenEdge(nodes, g.edges[4]);
      OpenIsNotCutOff(g, nodes, {"b"}, g.edges[4]);
    } else {
      assert n == "i" || n == "c";
    }
  }

  lemma BypassedIsCutOff(nodes: map<NodeId, NodeRun>, s: set<NodeId>)
    requires Forked(nodes)
    ensures CutOff(Fork(), nodes, s, "b")
  {
    ForkIncoming("b");
    forall e | e in Fork().edges && e.target == "b"
      ensures Dead(Fork(), nodes, s, e)
    {
      OnlyInto("b", e);
      ChosenEdge(nodes, e);
    }
  }

  /** Exactly the branch that was not taken is skipped. */
  lemma BypassedIsSkipped(nodes: map<NodeId, NodeRun>)
    requires Forked(nodes)
    ensures SkipSet(Fork(), nodes) == {"b"}
  {
    SkipSetLeast(Fork(), nodes);
    BypassedIsCutOff(nodes, SkipSet(Fork(), nodes));
    OnlyBypassed(nodes);
  }

  lemma OnlyBypassed(nodes: map<NodeId, NodeRun>)
    requires Forked(nodes)
    ensures ClosedUnder(Fork(), nodes, {"b"})
  {
    forall n | n in nodes && CutOff(Fork(), nodes, {"b"}, n)
      ensures n == "b"
    {
      if n != "b" {
        OthersOpen(nodes, n);
      }
    }
  }

  /** The Tool is ready: its one active input completed. */
  lemma ToolReady(nodes: map<NodeId, NodeRun>)
    requires Forked(nodes)
    ensures Ready(Fork(), MarkSkipped(nodes, {"b"}), "t")
  {
    var g, rows := Fork(), MarkSkipped(nodes, {"b"});
    ForkHas(1, g.edges[1]);
    ChosenEdge(rows, g.edges[1]);
    forall e | e in g.edges && e.target == "t" && EdgeActive(g, rows, e)
      ensures HasStatus(rows, e.source, NodeCompleted)
    {
      OnlyInto("t", e);
    }
  }

  lemma OutputNotReady(nodes: map<NodeId, NodeRun>)
    requires Forked(nodes)
    ensures !Ready(Fork(), MarkSkipped(nodes, {"b"}), "o")
  {
    var g, rows := Fork(), MarkSkipped(nodes, {"b"});
    ForkHas(4, g.edges[4]);
    ChosenEdge(rows, g.edges[4]);
  }

  lemma OnlyTool(nodes: map<NodeId, NodeRun>)
    requires Forked(nodes)
    ensures ReadySet(Fork(), MarkSkipped(nodes, {"b"})) == {"t"}
  {
    var rows := MarkSkipped(nodes, {"b"});
    ToolReady(nodes);
    OutputNotReady(nodes);
    forall n | n in rows
      ensures Ready(Fork(), rows, n) <==> n == "t"
    {
      if n != "t" && n != "o" {
        assert !HasStatus(rows, n, NodePending);
      }
    }
    OneReady(Fork(), rows, "t");
  }

  lemma OneReady(g: Graph, rows: map<NodeId, NodeRun>, x: NodeId)
    requires x in rows && forall n :: n in rows ==> (Ready(g, rows, n) <==> n == x)
    ensures ReadySet(g, rows) == {x}
  {
  }

  // ----- the stall -----

  lemma ToolUndispatched(nodes: map<NodeId, NodeRun>, env: Env)
    requires "b" in nodes && nodes["b"].output.None?
    ensures Undispatched(Fork(), nodes, env, "t")
  {
    var r := OutputReference("b", "x");
    ForkContract();
    ForkLookup("t");
    OutputReferenceParses("b", "x");
    assert ResolveReference(SchedulingContext(nodes, env), r).None?;
    CommandWithheld(Fork(), nodes, env, T(), r);
  }

  lemma OrdinaryRows(nodes: map<NodeId, NodeRun>)
    requires forall n :: n in nodes ==> Ordinary(nodes[n].status)
    ensures MarkElapsed(nodes, 0) == nodes && !Exists(nodes, NodeFailed) && !Exists(nodes, NodeWaiting)
  {
  }

  lemma SettledRows(s: System)
    requires Decided(s)
    ensures Forked(s.st.nodes) && MarkElapsed(s.st.nodes, 0) == s.st.nodes
    ensures RowsToSchedule(s.st, 0) == MarkSkipped(s.st.nodes, {"b"})
    ensures !Exists(s.st.nodes, NodeFailed) && !Exists(s.st.nodes, NodeWaiting) && !HasLiveTask(s.st)
  {
    FiveRows(s.st.nodes);
    OrdinaryRows(s.st.nodes);
    BypassedIsSkipped(s.st.nodes);
  }

  lemma ForkStalls(s: System, env: Env)
    requires Decided(s)
    ensures WillStall(s.st, FailuresIn(Fork(), MarkElapsed(s.st.nodes, 0), env), 0)
  {
    SettledRows(s);
    OnlyTool(s.st.nodes);
    ToolUndispatched(s.st.nodes, env);
  }

  lemma WorkIsHonest(s: System, n: NodeId, token: Token, turn: Turn, env: Env)
    ensures HonestFrom(s, Work(n, token, turn), env)
  {
    var w := Work(n, token, turn);
    HonestSingle(s, w[0], env);
    OneMore(s, [w[0]], Step(s, w[0]), w[1], env);
    assert [w[0]] + [w[1]] == [w[0], w[1]];
    OneMore(s, [w[0], w[1]], RunFrom(s, [w[0], w[1]]), w[2], env);
    assert [w[0], w[1]] + [w[2]] == w;
  }

  lemma ActsAreHonest(env: Env)
    ensures HonestFrom(Created(Fork(), Input()), Acts(env), env)
  {
    var s := Created(Fork(), Input());
    var schedule := ScheduleReady(FailuresIn(Fork(), Step(s, StartRun).st.nodes, env));
    StartBegins();
    HonestSingle(s, StartRun, env);
    HonestSingle(Step(s, StartRun), schedule, env);
    HonestConcat(s, [StartRun], [schedule], env);
    RunFromConcat(s, [StartRun], [schedule]);
    WorkIsHonest(RunFrom(s, [StartRun, schedule]), "c", 0, Completes(Answer()), env);
    HonestConcat(s, [StartRun, schedule], Work("c", 0, Completes(Answer())), env);
  }

  lemma ForkRows(nodes: map<NodeId, NodeRun>)
    requires Forked(nodes)
    ensures HasStatus(MarkSkipped(nodes, {"b"}), "b", NodeSkipped) && HasStatus(MarkSkipped(nodes, {"b"}), "t", NodePending)
  {
  }

  lemma ForkEnds(unflushed: set<NodeId>, env: Env)
    ensures var s := Stalled(Fork(), Input(), Acts(env), unflushed, env);
            && s.st.run.RunRunning? && !HasLiveTask(s.st) && !Exists(s.st.nodes, NodeWaiting)
            && s.st.nodes == MarkSkipped(Execute(Fork(), Input(), Acts(env)).st.nodes, {"b"})
  {
    var s := Execute(Fork(), Input(), Acts(env));
    var u := FailuresIn(Fork(), MarkElapsed(s.st.nodes, 0), env);
    ForkPublishable();
    ActsDecide(env);
    ForkStalls(s, env);
    SettledRows(s);
    AlwaysSane(Fork(), Input(), Acts(env));
    ReconcileReply(s, u, unflushed);
    StallLeaves(s.st, u, unflushed, 0);
    NoneWaiting(s.st.nodes, {"b"});
  }

  lemma NoneWaiting(nodes: map<NodeId, NodeRun>, skipped: set<NodeId>)
    requires !Exists(nodes, NodeWaiting)
    ensures !Exists(MarkSkipped(nodes, skipped), NodeWaiting)
  {
  }

  /** The Condition takes its `true` branch, b is skipped, and the Tool below,
      which reads the output of b, is ready and never gets a task: this honest run
      stays as it is until it is cancelled. */
  lemma SkippedBranchStalls(unflushed: set<NodeId>, more: seq<Action>, env: Env)
    requires HonestFrom(Stalled(Fork(), Input(), Acts(env), unflushed, env), more, env)
    ensures Publishable(Fork()) && HonestFrom(Created(Fork(), Input()), Acts(env), env)
    ensures var s := Stalled(Fork(), Input(), Acts(env), unflushed, env);
            && s.st.run.RunRunning? && !HasLiveTask(s.st)
            && HasStatus(s.st.nodes, "b", NodeSkipped) && HasStatus(s.st.nodes, "t", NodePending)
            && StillStuck(s.st, RunFrom(s, more).st) && !HasLiveTask(RunFrom(s, more).st)
  {
    ForkPublishable();
    ActsAreHonest(env);
    ActsDecide(env);
    ForkEnds(unflushed, env);
    ForkRows(Execute(Fork(), Input(), Acts(env)).st.nodes);
    StalledForever(Fork(), Input(), Acts(env), unflushed, more, env);
  }
}
