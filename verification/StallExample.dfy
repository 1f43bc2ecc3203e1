/** A run that stalls at once and for good: its only work is a Tool whose command
    refers to an input field the run was started without. */
module StallExample {
  import opened Basics
  import opened StateMachines
  import opened Graphs
  import opened RunRows
  import opened Scheduling
  import opened SchedulerRules
  import opened Runtime
  import opened Invariant
  import opened RuntimeSafety
  import opened Wakeup
  import opened ContextResolver
  import opened TemplateSubstitution
  import opened ContextSafety
  import opened Dispatching
  import opened Stall
  import opened StalledForGood
  import opened Limits
  import opened SampleNodes
  import opened WorkerTurns

  function I(): Node { InputNode("i") }
  function T(): Node { ToolNode("t", InputReference("x").raw, "r") }
  function O(): Node { OutputNode("o") }

  /** i leads to the Tool t, t leads to o. */
  function Line(): Graph {
    Graph([I(), T(), O()], [Edge("i", "t", None), Edge("t", "o", None)])
  }

  /** The run has no input field `x`. */
  function Facts(): RunFacts {
    RunFacts(Obj(map[]), Obj(map[]), "run", None)
  }

  // ----- the graph -----

  lemma LineContract()
    ensures Contract(Line()) && Ids(Line()) == {"i", "t", "o"}
  {
    var g := Line();
    assert Order(g) == ["i", "t", "o"];
    assert g.nodes[0] == I() && g.nodes[1] == T() && g.nodes[2] == O();
  }

  lemma LineNodes()
    ensures FindNode(Line().nodes, "i") == Some(I()) && FindNode(Line().nodes, "t") == Some(T()) && FindNode(Line().nodes, "o") == Some(O())
  {
    var g := Line();
    LineContract();
    assert g.nodes[0] == I() && g.nodes[1] == T() && g.nodes[2] == O();
    FindNodeUnique(g, I());
    FindNodeUnique(g, T());
    FindNodeUnique(g, O());
  }

  lemma LineEdges(e: Edge)
    ensures e in Line().edges <==> e == Edge("i", "t", None) || e == Edge("t", "o", None)
  {
    assert Line().edges[0] == Edge("i", "t", None) && Line().edges[1] == Edge("t", "o", None);
  }

  function Rank(n: NodeId): nat {
    if n == "i" then 0 else if n == "t" then 1 else 2
  }

  lemma LineAcyclic()
    ensures Acyclic(Line())
  {
    var g := Line();
    forall e | e in g.edges
      ensures Rank(e.source) < Rank(e.target)
    {
      LineEdges(e);
    }
    RankedIsAcyclic(g, Rank);
  }

  lemma LineRoles(n: NodeId)
    requires n in Ids(Line())
    ensures (IsInputId(Line(), n) <==> !HasIncoming(Line(), n)) && !IsParkedId(Line(), n) && !IsCondition(Line(), n)
  {
    LineContract();
    LineNodes();
    LineEdges(Edge("i", "t", None));
    LineEdges(Edge("t", "o", None));
    if n == "i" && HasIncoming(Line(), n) {
      var e :| e in Line().edges && e.target == n;
      LineEdges(e);
    }
  }

  lemma LinePublishable()
    ensures Publishable(Line())
  {
    LineContract();
    LineAcyclic();
    forall n | n in Ids(Line())
      ensures (IsInputId(Line(), n) <==> !HasIncoming(Line(), n)) && !IsParkedId(Line(), n)
    {
      LineRoles(n);
    }
    ShapedGraph(Line());
  }

  // ----- the Tool cannot be dispatched -----

  lemma ToolUndispatched(nodes: map<NodeId, NodeRun>, env: Env)
    requires env.facts == Facts()
    ensures Undispatched(Line(), nodes, env, "t")
  {
    var r := InputReference("x");
    LineContract();
    assert Line().nodes[1] == T();
    InputReferenceParses("x");
    assert ResolveReference(SchedulingContext(nodes, env), r).None?;
    CommandWithheld(Line(), nodes, env, T(), r);
  }

  // ----- the run -----

  /** Started, nothing scheduled yet. */
  predicate Begun(s: System) {
    && s.st.graph == Line() && s.st.run == RunRunning && s.st.tasks == map[] && s.clock == 0
    && s.st.nodes.Keys == {"i", "t", "o"}
    && HasStatus(s.st.nodes, "i", NodeCompleted) && HasStatus(s.st.nodes, "t", NodePending) && HasStatus(s.st.nodes, "o", NodePending)
  }

  lemma StartBegins()
    ensures Begun(Execute(Line(), Obj(map[]), [StartRun]))
  {
    LineContract();
    LineNodes();
    StartedRun(Line(), Obj(map[]));
    OneStep(Created(Line(), Obj(map[])), StartRun);
  }

  lemma LineActive(nodes: map<NodeId, NodeRun>, e: Edge)
    requires e in Line().edges && !HasStatus(nodes, e.source, NodeSkipped)
    ensures EdgeActive(Line(), nodes, e)
  {
    LineContract();
    LineEdges(e);
    LineRoles(e.source);
  }

  lemma BegunClosed(nodes: map<NodeId, NodeRun>)
    requires forall n :: n in nodes ==> nodes[n].status != NodeSkipped
    ensures SkipClosed(Line(), nodes)
  {
    forall n | n in nodes && CutOff(Line(), nodes, {}, n)
      ensures false
    {
      var e :| e in Line().edges && e.target == n;
      LineActive(nodes, e);
    }
  }

  /** Only the Tool is ready. */
  lemma BegunReady(s: System)
    requires Begun(s)
    ensures ReadySet(Line(), s.st.nodes) == {"t"}
  {
    var nodes := s.st.nodes;
    var first, second := Edge("i", "t", None), Edge("t", "o", None);
    LineEdges(first);
    LineEdges(second);
    LineActive(nodes, first);
    LineActive(nodes, second);
    forall e | e in Line().edges && e.target == "t"
      ensures e == first
    {
      LineEdges(e);
    }
    assert Ready(Line(), nodes, "t");
    assert !Ready(Line(), nodes, "o");
  }

  lemma ThreeRows(s: System)
    requires Begun(s)
    ensures forall n :: n in s.st.nodes ==> s.st.nodes[n].status.NodePending? || s.st.nodes[n].status.NodeCompleted?
  {
    forall n | n in s.st.nodes
      ensures s.st.nodes[n].status.NodePending? || s.st.nodes[n].status.NodeCompleted?
    {
      assert n in {"i", "t", "o"};
    }
  }

  lemma BegunRows(s: System)
    requires Begun(s)
    ensures MarkElapsed(s.st.nodes, 0) == s.st.nodes && RowsToSchedule(s.st, 0) == s.st.nodes
    ensures !Exists(s.st.nodes, NodeWaiting) && !Exists(s.st.nodes, NodeFailed)
  {
    ThreeRows(s);
    BegunClosed(s.st.nodes);
    ClosedRowsStay(Line(), s.st.nodes);
  }

  lemma BegunStalls(s: System, env: Env)
    requires Begun(s) && env.facts == Facts()
    ensures WillStall(s.st, FailuresIn(Line(), MarkElapsed(s.st.nodes, 0), env), 0)
  {
    BegunRows(s);
    BegunReady(s);
    ToolUndispatched(s.st.nodes, env);
  }

  /** Started with an empty input, this run is RUNNING without a live task after
      its first reconcile, and whatever is done it never has one: it stays as it
      is until it is cancelled. */
  lemma ToolStallsForever(unflushed: set<NodeId>, more: seq<Action>, env: Env)
    requires env.facts == Facts()
    requires HonestFrom(Stalled(Line(), Obj(map[]), [StartRun], unflushed, env), more, env)
    ensures Publishable(Line())
    ensures var s := Stalled(Line(), Obj(map[]), [StartRun], unflushed, env);
            && s.st.run.RunRunning? && !HasLiveTask(s.st)
            && StillStuck(s.st, RunFrom(s, more).st) && !HasLiveTask(RunFrom(s, more).st)
  {
    var s := Execute(Line(), Obj(map[]), [StartRun]);
    var u := FailuresIn(Line(), MarkElapsed(s.st.nodes, 0), env);
    LinePublishable();
    StartBegins();
    BegunStalls(s, env);
    BegunRows(s);
    AlwaysSane(Line(), Obj(map[]), [StartRun]);
    ReconcileReply(s, u, unflushed);
    StallsExactly(Line(), Obj(map[]), [StartRun], u, unflushed);
    StallForeseen(s.st, u, unflushed, 0);
    StalledForever(Line(), Obj(map[]), [StartRun], unflushed, more, env);
  }
}
