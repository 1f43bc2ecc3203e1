/** The topology pass of graph validation: which issues it reports, and what a
    graph without issues guarantees to the scheduler. */
module Topology {
  import opened Basics
  import opened Graphs
  import opened GraphAnalysis
  import opened Scheduling
  import opened Invariant

  datatype Issue =
    | MissingInput
    | MultipleInputs
    | InputHasIncoming(edge: Edge)
    | MissingOutput
    | OutputHasOutgoing(edge: Edge)
    | CycleFound(nodes: set<NodeId>)
    | Unreachable(node: NodeId)
    | DeadEnd(node: NodeId)

  predicate IsOutputId(g: Graph, n: NodeId) {
    var node := FindNode(g.nodes, n);
    node.Some? && IsOutput(node.value)
  }

  function Inputs(g: Graph): set<NodeId> {
    set n | n in Ids(g) && IsInputId(g, n)
  }

  function Outputs(g: Graph): set<NodeId> {
    set n | n in Ids(g) && IsOutputId(g, n)
  }

  /** Data nodes and branching nodes are never reported as dead ends. */
  predicate MayEnd(g: Graph, n: NodeId) {
    || IsInputId(g, n)
    || IsOutputId(g, n)
    || var node := FindNode(g.nodes, n);
       node.Some? && node.value.nodeType.Logic? && node.value.subtype in {"condition", "parallel", "merge"}
  }

  // ----- what each issue says about the graph -----

  ghost predicate SoleInput(g: Graph, x: NodeId) {
    Inputs(g) == {x}
  }

  ghost predicate ReachedBy(g: Graph, a: NodeId, b: NodeId) {
    a == b || Reaches(g, a, b)
  }

  ghost predicate ReachesOutput(g: Graph, n: NodeId) {
    exists o :: o in Outputs(g) && ReachedBy(g, n, o)
  }

  ghost predicate Flaw(g: Graph, issue: Issue) {
    match issue
    case MissingInput => Inputs(g) == {}
    case MultipleInputs => exists x, y :: x in Inputs(g) && y in Inputs(g) && x != y
    case InputHasIncoming(e) => e in g.edges && SoleInput(g, e.target)
    case MissingOutput => Outputs(g) == {}
    case OutputHasOutgoing(e) => e in g.edges && e.source in Outputs(g)
    case CycleFound(nodes) => !Acyclic(g) && CycleAnswer(g, nodes)
    case Unreachable(n) => Acyclic(g) && n in Ids(g) && exists x :: SoleInput(g, x) && !ReachedBy(g, x, n)
    case DeadEnd(n) =>
      && Acyclic(g) && Outputs(g) != {} && n in Ids(g)
      && (exists x :: SoleInput(g, x) && ReachedBy(g, x, n))
      && !ReachesOutput(g, n) && !MayEnd(g, n)
  }

  // ----- the pass -----

  /** The ids of the chosen nodes, in graph order. */
  lemma Listed(g: Graph, chosen: set<NodeId>)
    requires Contract(g) && chosen <= Ids(g)
    ensures Distinct(Select(Order(g), chosen))
    ensures forall n :: n in Select(Order(g), chosen) <==> n in chosen
  {
    OrderMembers(g);
    SelectedRows(Order(g), chosen);
  }

  method EntryIssues(index: GraphIndex, entry: seq<NodeId>) returns (issues: seq<Issue>)
    requires index.Valid() && Distinct(entry) && forall n :: n in entry <==> n in Inputs(index.graph)
    ensures forall i :: i in issues <==> (i.MissingInput? || i.MultipleInputs? || i.InputHasIncoming?) && Flaw(index.graph, i)
  {
    ghost var g := index.graph;
    issues := [];
    if |entry| == 0 {
      assert Inputs(g) == {};
      return [MissingInput];
    }
    assert entry[0] in entry;
    if |entry| > 1 {
      assert entry[1] in entry && entry[0] != entry[1];
      return [MultipleInputs];
    }
    assert Inputs(g) == {entry[0]};
    var edges := index.IncomingEdges(entry[0]);
    for k := 0 to |edges|
      invariant forall i :: i in issues <==> i.InputHasIncoming? && i.edge in edges[..k]
    {
      issues := issues + [InputHasIncoming(edges[k])];
    }
    assert edges[..|edges|] == edges;
  }

  method OutputIssues(index: GraphIndex, outputs: seq<NodeId>) returns (issues: seq<Issue>)
    requires index.Valid() && forall n :: n in outputs <==> n in Outputs(index.graph)
    ensures forall i :: i in issues <==> (i.MissingOutput? || i.OutputHasOutgoing?) && Flaw(index.graph, i)
  {
    ghost var g := index.graph;
    issues := [];
    if |outputs| == 0 {
      assert Outputs(g) == {};
      return [MissingOutput];
    }
    assert outputs[0] in outputs;
    for k := 0 to |outputs|
      invariant forall i :: i in issues <==> i.OutputHasOutgoing? && i.edge in g.edges && i.edge.source in outputs[..k]
    {
      var more := SourceIssues(index, outputs[k]);
      issues := issues + more;
    }
    assert outputs[..|outputs|] == outputs;
  }

  method SourceIssues(index: GraphIndex, n: NodeId) returns (issues: seq<Issue>)
    requires index.Valid()
    ensures forall i :: i in issues <==> i.OutputHasOutgoing? && i.edge in index.graph.edges && i.edge.source == n
  {
    issues := [];
    var edges := index.OutgoingEdges(n);
    for k := 0 to |edges|
      invariant forall i :: i in issues <==> i.OutputHasOutgoing? && i.edge in edges[..k]
    {
      issues := issues + [OutputHasOutgoing(edges[k])];
    }
    assert edges[..|edges|] == edges;
  }

  method UnreachableIssues(index: GraphIndex, entry: NodeId) returns (issues: seq<Issue>)
    requires index.Valid()
    ensures forall i :: i in issues <==> i.Unreachable? && i.node in Ids(index.graph) && !ReachedBy(index.graph, entry, i.node)
  {
    ghost var g := index.graph;
    var reachable := index.ReachableFrom([entry]);
    issues := [];
    var order := Order(index.graph);
    OrderMembers(index.graph);
    for k := 0 to |order|
      invariant forall i :: i in issues <==> i.Unreachable? && i.node in order[..k] && i.node !in reachable
    {
      if order[k] !in reachable {
        issues := issues + [Unreachable(order[k])];
      }
    }
    assert order[..|order|] == order;
    ReachedFromOne(g, entry);
  }

  lemma ReachedFromOne(g: Graph, x: NodeId)
    ensures forall n :: ReachedFrom(g, [x], n) <==> ReachedBy(g, x, n)
  {
    forall n | ReachedBy(g, x, n)
      ensures ReachedFrom(g, [x], n)
    {
      assert x in [x];
    }
  }

  ghost predicate LeadsTo(g: Graph, n: NodeId, targets: seq<NodeId>) {
    exists o :: o in targets && ReachedBy(g, n, o)
  }

  lemma LeadsToMore(g: Graph, n: NodeId, targets: seq<NodeId>, o: NodeId)
    ensures LeadsTo(g, n, targets + [o]) <==> LeadsTo(g, n, targets) || ReachedBy(g, n, o)
  {
    if ReachedBy(g, n, o) {
      assert o in targets + [o];
    }
    if x :| x in targets && ReachedBy(g, n, x) {
      assert x in targets + [o];
    }
  }

  /** Everything that leads to an output, and the outputs themselves. */
  method ReverseReachable(index: GraphIndex, outputs: seq<NodeId>) returns (r: set<NodeId>)
    requires index.Valid() && forall n :: n in outputs <==> n in Outputs(index.graph)
    modifies index
    ensures index.Valid()
    ensures forall n :: n in r <==> ReachesOutput(index.graph, n)
  {
    r := {};
    for k := 0 to |outputs|
      invariant index.Valid()
      invariant forall n :: n in r <==> LeadsTo(index.graph, n, outputs[..k])
    {
      var above := index.AncestorsOf(outputs[k]);
      assert outputs[..k + 1] == outputs[..k] + [outputs[k]];
      forall n
        ensures n in r + {outputs[k]} + above <==> LeadsTo(index.graph, n, outputs[..k + 1])
      {
        LeadsToMore(index.graph, n, outputs[..k], outputs[k]);
      }
      r := r + {outputs[k]} + above;
    }
    assert outputs[..|outputs|] == outputs;
  }

  method DeadEndIssues(index: GraphIndex, entry: NodeId, outputs: seq<NodeId>) returns (issues: seq<Issue>)
    requires index.Valid() && forall n :: n in outputs <==> n in Outputs(index.graph)
    modifies index
    ensures index.Valid()
    ensures forall i :: i in issues <==>
              && i.DeadEnd? && i.node in Ids(index.graph) && ReachedBy(index.graph, entry, i.node)
              && !ReachesOutput(index.graph, i.node) && !MayEnd(index.graph, i.node)
  {
    var reverse := ReverseReachable(index, outputs);
    var reachable := index.ReachableFrom([entry]);
    ReachedFromOne(index.graph, entry);
    issues := [];
    var order := Order(index.graph);
    OrderMembers(index.graph);
    for k := 0 to |order|
      invariant index.Valid()
      invariant forall i :: i in issues <==>
                  i.DeadEnd? && i.node in order[..k] && i.node in reachable && i.node !in reverse && !MayEnd(index.graph, i.node)
    {
      var n := order[k];
      if n !in reachable || n in reverse || MayEnd(index.graph, n) {
        continue;
      }
      issues := issues + [DeadEnd(n)];
    }
    assert order[..|order|] == order;
  }

  lemma SoleIsFirst(g: Graph, entry: seq<NodeId>)
    requires Distinct(entry) && forall n :: n in entry <==> n in Inputs(g)
    ensures |entry| == 1 ==> SoleInput(g, entry[0])
    ensures |entry| != 1 ==> forall x :: !SoleInput(g, x)
  {
    if |entry| > 1 {
      assert entry[0] in Inputs(g) && entry[1] in Inputs(g) && entry[0] != entry[1];
    }
  }

  lemma SoleUnique(g: Graph, x: NodeId)
    requires SoleInput(g, x)
    ensures forall y :: SoleInput(g, y) ==> y == x
  {
    forall y | SoleInput(g, y)
      ensures y == x
    {
      assert y in {x};
    }
  }

  method CycleIssues(index: GraphIndex) returns (cyclic: bool, issues: seq<Issue>)
    requires index.Valid()
    modifies index
    ensures index.Valid() && cyclic == !Acyclic(index.graph)
    ensures forall i :: i in issues <==> i.CycleFound? && Flaw(index.graph, i)
  {
    cyclic := index.HasCycle();
    issues := [];
    if cyclic {
      var nodes := index.CycleNodes();
      CycleAnswersAgree(index.graph, nodes);
      issues := [CycleFound(nodes)];
    }
  }

  /** Reachability is judged only on acyclic graphs with a single input. */
  method PathIssues(index: GraphIndex, entry: seq<NodeId>, outputs: seq<NodeId>) returns (issues: seq<Issue>)
    requires index.Valid() && Acyclic(index.graph)
    requires Distinct(entry) && forall n :: n in entry <==> n in Inputs(index.graph)
    requires forall n :: n in outputs <==> n in Outputs(index.graph)
    modifies index
    ensures index.Valid()
    ensures forall i :: i in issues <==> (i.Unreachable? || i.DeadEnd?) && Flaw(index.graph, i)
  {
    issues := [];
    SoleIsFirst(index.graph, entry);
    if |entry| == 1 {
      SoleUnique(index.graph, entry[0]);
      issues := UnreachableIssues(index, entry[0]);
      if outputs != [] {
        assert outputs[0] in outputs;
        var more := DeadEndIssues(index, entry[0], outputs);
        issues := issues + more;
      }
    }
  }

  /** validate_topology: exactly the flaws of the graph are reported. */
  method ValidateTopology(index: GraphIndex) returns (issues: seq<Issue>)
    requires index.Valid()
    modifies index
    ensures index.Valid()
    ensures forall i :: i in issues <==> Flaw(index.graph, i)
  {
    var g := index.graph;
    var entry, outputs := Select(Order(g), Inputs(g)), Select(Order(g), Outputs(g));
    Listed(g, Inputs(g));
    Listed(g, Outputs(g));
    issues := EntryIssues(index, entry);
    var more := OutputIssues(index, outputs);
    var cyclic, cycles := CycleIssues(index);
    issues := issues + more + cycles;
    if !cyclic {
      var paths := PathIssues(index, entry, outputs);
      issues := issues + paths;
    }
  }

  lemma CycleAnswersAgree(g: Graph, a: set<NodeId>)
    requires CycleAnswer(g, a)
    ensures forall b :: CycleAnswer(g, b) ==> b == a
  {
  }

  // ----- what publication guarantees -----

  /** One input that reaches every node and has no incoming edge, no cycle, an
      output, no edge out of an output, and no reachable working node that
      cannot reach an output. */
  ghost predicate SoundTopology(g: Graph) {
    && (exists x :: SoleInput(g, x) && (forall n :: n in Ids(g) ==> ReachedBy(g, x, n)))
    && (forall e :: e in g.edges ==> !IsInputId(g, e.target) && !IsOutputId(g, e.source))
    && Acyclic(g)
    && Outputs(g) != {}
    && (forall n :: n in Ids(g) && !MayEnd(g, n) ==> ReachesOutput(g, n))
  }

  lemma FlawlessEntry(g: Graph) returns (x: NodeId)
    requires forall i :: !Flaw(g, i)
    ensures SoleInput(g, x)
  {
    assert !Flaw(g, MissingInput) && !Flaw(g, MultipleInputs);
    x :| x in Inputs(g);
    assert forall y :: y in Inputs(g) ==> y == x;
  }

  lemma FlawlessAcyclic(g: Graph)
    requires Contract(g) && forall i :: !Flaw(g, i)
    ensures Acyclic(g)
  {
    var nodes := set n | n in Ids(g) && CycleTainted(g, n);
    assert CycleAnswer(g, nodes);
    assert !Flaw(g, CycleFound(nodes));
  }

  lemma InputIsListed(g: Graph, n: NodeId)
    requires IsInputId(g, n)
    ensures n in Inputs(g)
  {
    FindNodeIds(g, n);
  }

  lemma OutputIsListed(g: Graph, n: NodeId)
    requires IsOutputId(g, n)
    ensures n in Outputs(g)
  {
    FindNodeIds(g, n);
  }

  lemma FlawlessEdges(g: Graph, e: Edge)
    requires e in g.edges && forall i :: !Flaw(g, i)
    ensures !IsInputId(g, e.target) && !IsOutputId(g, e.source)
  {
    var x := FlawlessEntry(g);
    assert !Flaw(g, InputHasIncoming(e)) && !Flaw(g, OutputHasOutgoing(e));
    if IsInputId(g, e.target) {
      InputIsListed(g, e.target);
    }
    if IsOutputId(g, e.source) {
      OutputIsListed(g, e.source);
    }
  }

  lemma FlawlessIsSound(g: Graph)
    requires Contract(g) && forall i :: !Flaw(g, i)
    ensures SoundTopology(g)
  {
    FlawlessAcyclic(g);
    var x := FlawlessEntry(g);
    assert !Flaw(g, MissingOutput);
    forall n | n in Ids(g)
      ensures ReachedBy(g, x, n)
    {
      assert !Flaw(g, Unreachable(n));
    }
    forall e | e in g.edges
      ensures !IsInputId(g, e.target) && !IsOutputId(g, e.source)
    {
      FlawlessEdges(g, e);
    }
    forall n | n in Ids(g) && !MayEnd(g, n)
      ensures ReachesOutput(g, n)
    {
      assert !Flaw(g, DeadEnd(n));
    }
  }

  lemma SoundIsFlawless(g: Graph, i: Issue)
    requires SoundTopology(g)
    ensures !Flaw(g, i)
  {
    var x :| SoleInput(g, x) && (forall n :: n in Ids(g) ==> ReachedBy(g, x, n));
    SoleUnique(g, x);
    assert x in Inputs(g);
  }

  /** No issue is reported exactly when the topology is sound. */
  lemma NoIssuesMeansSound(g: Graph)
    requires Contract(g)
    ensures (forall i :: !Flaw(g, i)) <==> SoundTopology(g)
  {
    if forall i :: !Flaw(g, i) {
      FlawlessIsSound(g);
    }
    if SoundTopology(g) {
      forall i
        ensures !Flaw(g, i)
      {
        SoundIsFlawless(g, i);
      }
    }
  }

  lemma ReachedHasIncoming(g: Graph, a: NodeId, n: NodeId)
    requires Reaches(g, a, n)
    ensures HasIncoming(g, n)
  {
    var e := ReachesLast(g, a, n);
  }

  lemma ReachingHasOutgoing(g: Graph, n: NodeId)
    requires ReachesOutput(g, n) && !IsOutputId(g, n)
    ensures Leads(g, n)
  {
    var o :| o in Outputs(g) && ReachedBy(g, n, o);
    var e := ReachesFirst(g, n, o);
  }

  lemma SoundInputs(g: Graph, n: NodeId)
    requires SoundTopology(g) && n in Ids(g)
    ensures IsInputId(g, n) <==> !HasIncoming(g, n)
  {
    var x :| SoleInput(g, x) && (forall m :: m in Ids(g) ==> ReachedBy(g, x, m));
    if n != x {
      ReachedHasIncoming(g, x, n);
    } else {
      assert n in Inputs(g);
    }
  }

  lemma SoundParks(g: Graph, n: NodeId)
    requires SoundTopology(g) && n in Ids(g) && IsParkedId(g, n)
    ensures Leads(g, n)
  {
    assert !MayEnd(g, n);
    ReachingHasOutgoing(g, n);
  }

  lemma SoundNonempty(g: Graph)
    requires SoundTopology(g)
    ensures g.nodes != [] && Acyclic(g)
  {
    var o :| o in Outputs(g);
  }

  /** What the scheduler's theorems assume of a graph is what validation
      guarantees before a version is created. */
  lemma PublishedGraphsAreWellShaped(g: Graph)
    requires Contract(g) && SoundTopology(g)
    ensures Publishable(g)
  {
    forall n | n in Ids(g)
      ensures (IsInputId(g, n) <==> !HasIncoming(g, n)) && (IsParkedId(g, n) ==> Leads(g, n))
    {
      SoundInputs(g, n);
      if IsParkedId(g, n) {
        SoundParks(g, n);
      }
    }
    SoundNonempty(g);
    ShapedGraph(g);
  }
}
