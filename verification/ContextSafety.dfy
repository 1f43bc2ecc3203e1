/** Context references meet the scheduler: a reference that passed the upstream
    check finds its target settled, and what it resolves to never changes. */
module ContextSafety {
  import opened Basics
  import opened StateMachines
  import opened Graphs
  import opened GraphAnalysis
  import opened RunRows
  import opened Scheduling
  import opened Runtime
  import opened Invariant
  import opened RuntimeSafety
  import opened History
  import opened ContextReferences
  import opened ContextResolver

  // ----- the upstream check -----

  datatype TargetIssue =
    | UnknownNode | OwnOutput | NoOutput
    | ParallelSibling | NotUpstream

  predicate IsParallelId(g: Graph, n: NodeId) {
    var node := FindNode(g.nodes, n);
    node.Some? && node.value.nodeType.Logic? && node.value.subtype == "parallel"
  }

  predicate IsMergeId(g: Graph, n: NodeId) {
    var node := FindNode(g.nodes, n);
    node.Some? && node.value.nodeType.Logic? && node.value.subtype == "merge"
  }

  /** Agents, Services and Data Transforms have outputs others may refer to. */
  predicate IsProvider(node: Node) {
    node.nodeType.Agent? || node.nodeType.Service? || (node.nodeType.Data? && node.subtype == "transform")
  }

  /** The target is behind one of this Parallel's joins. */
  ghost predicate Rejoined(g: Graph, p: NodeId, t: NodeId) {
    exists m :: m in Descendants(g, p) && IsMergeId(g, m) && t in Descendants(g, m)
  }

  /** A Parallel above the node leads to the target, and not through a join. */
  ghost predicate OnSiblingBranch(g: Graph, n: NodeId, t: NodeId) {
    exists p :: p in Ancestors(g, n) && IsParallelId(g, p) && t in Descendants(g, p) && !Rejoined(g, p, t)
  }

  method IsRejoined(index: GraphIndex, p: NodeId, t: NodeId) returns (r: bool)
    requires index.Valid()
    modifies index
    ensures index.Valid() && r == Rejoined(index.graph, p, t)
  {
    var below := index.DescendantsOf(p);
    var rest := below;
    while rest != {}
      invariant index.Valid() && rest <= below
      invariant forall m :: m in below && m !in rest ==> !(IsMergeId(index.graph, m) && t in Descendants(index.graph, m))
      decreases |rest|
    {
      var m :| m in rest;
      rest := rest - {m};
      if IsMergeId(index.graph, m) {
        var behind := index.DescendantsOf(m);
        if t in behind {
          return true;
        }
      }
    }
    return false;
  }

  method IsParallelSibling(index: GraphIndex, n: NodeId, t: NodeId) returns (r: bool)
    requires index.Valid()
    modifies index
    ensures index.Valid() && r == OnSiblingBranch(index.graph, n, t)
  {
    var above := index.AncestorsOf(n);
    var rest := above;
    while rest != {}
      invariant index.Valid() && rest <= above
      invariant forall p :: p in above && p !in rest ==>
                  !(IsParallelId(index.graph, p) && t in Descendants(index.graph, p) && !Rejoined(index.graph, p, t))
      decreases |rest|
    {
      var p :| p in rest;
      rest := rest - {p};
      if IsParallelId(index.graph, p) {
        var below := index.DescendantsOf(p);
        if t in below {
          var rejoined := IsRejoined(index, p, t);
          if !rejoined {
            return true;
          }
        }
      }
    }
    return false;
  }

  /** What the check says about a reference from `n` to the output of `t`. */
  ghost function TargetVerdict(g: Graph, n: NodeId, t: NodeId): Option<TargetIssue> {
    var node := FindNode(g.nodes, t);
    if node.None? then Some(UnknownNode)
    else if t == n then Some(OwnOutput)
    else if !IsProvider(node.value) then Some(NoOutput)
    else if Acyclic(g) && !Reaches(g, t, n) then
      Some(if OnSiblingBranch(g, n, t) then ParallelSibling else NotUpstream)
    else None
  }

  method ValidateTarget(index: GraphIndex, n: NodeId, t: NodeId) returns (issue: Option<TargetIssue>)
    requires index.Valid()
    modifies index
    ensures index.Valid() && issue == TargetVerdict(index.graph, n, t)
  {
    var cyclic := index.HasCycle();
    var node := FindNode(index.graph.nodes, t);
    if node.None? {
      return Some(UnknownNode);
    }
    if t == n {
      return Some(OwnOutput);
    }
    if !IsProvider(node.value) {
      return Some(NoOutput);
    }
    if !cyclic {
      var above := index.AncestorsOf(n);
      if t !in above {
        var sibling := IsParallelSibling(index, n, t);
        return Some(if sibling then ParallelSibling else NotUpstream);
      }
    }
    return None;
  }

  /** On a published graph the check accepts exactly the outputs of upstream
      providers. */
  lemma AcceptedTargets(g: Graph, n: NodeId, t: NodeId)
    requires Publishable(g)
    ensures TargetVerdict(g, n, t).None? <==>
            t in Ancestors(g, n) && FindNode(g.nodes, t).Some? && IsProvider(FindNode(g.nodes, t).value)
  {
  }

  /** Somebody with an output others may refer to: an agent, a service or a
      transform. */
  predicate HasOutput(g: Graph, t: NodeId) {
    exists node :: node in g.nodes && node.id == t &&
      (node.nodeType.Agent? || node.nodeType.Service? || (node.nodeType.Data? && node.subtype == "transform"))
  }

  predicate IsLogic(g: Graph, n: NodeId, subtype: string) {
    exists node :: node in g.nodes && node.id == n && node.nodeType.Logic? && node.subtype == subtype
  }

  ghost predicate Way(g: Graph, a: NodeId, b: NodeId) {
    a != b && exists w :: w != [] && Walk(g, a, w, b)
  }

  /** A Parallel leads to both, and no Merge below it leads to the target. */
  ghost predicate Beside(g: Graph, n: NodeId, t: NodeId) {
    exists p :: Way(g, p, n) && IsLogic(g, p, "parallel") && Way(g, p, t)
                && forall m :: Way(g, p, m) && IsLogic(g, m, "merge") ==> !Way(g, m, t)
  }

  lemma ProviderFound(g: Graph, t: NodeId)
    requires Contract(g)
    ensures HasOutput(g, t) <==> FindNode(g.nodes, t).Some? && IsProvider(FindNode(g.nodes, t).value)
  {
    if HasOutput(g, t) {
      var node :| node in g.nodes && node.id == t &&
        (node.nodeType.Agent? || node.nodeType.Service? || (node.nodeType.Data? && node.subtype == "transform"));
      FindNodeUnique(g, node);
    }
  }

  lemma LogicFound(g: Graph, n: NodeId)
    requires Contract(g)
    ensures (IsLogic(g, n, "parallel") <==> IsParallelId(g, n)) && (IsLogic(g, n, "merge") <==> IsMergeId(g, n))
  {
    forall node | node in g.nodes && node.id == n
      ensures FindNode(g.nodes, n) == Some(node)
    {
      FindNodeUnique(g, node);
    }
  }

  lemma SiblingIsBeside(g: Graph, n: NodeId, t: NodeId)
    requires Contract(g)
    ensures OnSiblingBranch(g, n, t) <==> Beside(g, n, t)
  {
    forall m
      ensures (IsLogic(g, m, "parallel") <==> IsParallelId(g, m)) && (IsLogic(g, m, "merge") <==> IsMergeId(g, m))
    {
      LogicFound(g, m);
    }
    forall a, b
      ensures (Way(g, a, b) <==> b in Descendants(g, a)) && (Way(g, a, b) <==> a in Ancestors(g, b))
    {
      WayIsRelation(g, a, b);
    }
  }

  lemma WayIsRelation(g: Graph, a: NodeId, b: NodeId)
    requires Contract(g)
    ensures (Way(g, a, b) <==> b in Descendants(g, a)) && (Way(g, a, b) <==> a in Ancestors(g, b))
  {
  }

  /** What the check says on a published graph, in terms of nodes and walks. */
  lemma TargetClassified(g: Graph, n: NodeId, t: NodeId)
    requires Publishable(g)
    ensures var verdict := TargetVerdict(g, n, t);
            && (verdict == Some(UnknownNode) <==> t !in Ids(g))
            && (verdict == Some(OwnOutput) <==> t in Ids(g) && t == n)
            && (verdict == Some(NoOutput) <==> t in Ids(g) && t != n && !HasOutput(g, t))
            && (verdict == None <==> t != n && HasOutput(g, t) && Way(g, t, n))
            && (verdict == Some(ParallelSibling) <==> t != n && HasOutput(g, t) && !Way(g, t, n) && Beside(g, n, t))
            && (verdict == Some(NotUpstream) <==> t != n && HasOutput(g, t) && !Way(g, t, n) && !Beside(g, n, t))
  {
    FindNodeIds(g, t);
    ProviderFound(g, t);
    SiblingIsBeside(g, n, t);
    WayIsRelation(g, t, n);
  }

  // ----- what a run offers to references -----

  /** The outputs a resolver sees: a JSON null counts as no output. */
  function OutputsOf(nodes: map<NodeId, NodeRun>): map<NodeId, Json> {
    map n | n in nodes && nodes[n].output.Some? && nodes[n].output.value != Null :: nodes[n].output.value
  }

  /** The columns of the run row that never change. */
  datatype RunFacts = RunFacts(input: Json, variables: Json, id: string, createdAt: Option<string>)

  function StatusText(status: RunStatus): string {
    match status
    case RunCreated => "created"
    case RunRunning => "running"
    case RunWaiting => "waiting"
    case RunPaused => "paused"
    case RunCompleted => "completed"
    case RunFailed => "failed"
    case RunCancelled => "cancelled"
  }

  /** What `run` references read: the live status among it. */
  function RunScope(status: RunStatus, facts: RunFacts): Json {
    Obj(map["id" := Str(facts.id),
            "status" := Str(StatusText(status)),
            "created_at" := if facts.createdAt.Some? then Str(facts.createdAt.value) else Null])
  }

  function ContextAs(nodes: map<NodeId, NodeRun>, status: RunStatus, facts: RunFacts): Context {
    Context(facts.input, facts.variables, RunScope(status, facts), OutputsOf(nodes))
  }

  function ContextOf(st: RunState, facts: RunFacts): Context {
    ContextAs(st.nodes, st.run, facts)
  }

  lemma ReadySource(g: Graph, nodes: map<NodeId, NodeRun>, e: Edge)
    requires Ready(g, nodes, e.target) && e in g.edges
    ensures SettledNode(nodes, e.source)
  {
    if !EdgeActive(g, nodes, e) {
      DeadSource(g, nodes, e);
    }
  }

  /** A node that is ready or has a task may look upstream. */
  ghost predicate Entered(st: RunState, n: NodeId) {
    n in st.tasks || Ready(st.graph, st.nodes, n)
  }

  lemma EnteredSource(st: RunState, e: Edge)
    requires Inv(st) && Publishable(st.graph) && e in st.graph.edges && Entered(st, e.target)
    ensures SettledNode(st.nodes, e.source)
  {
    if e.target in st.tasks {
      SettledSources(st, e);
    } else {
      ReadySource(st.graph, st.nodes, e);
    }
  }

  lemma SettledUpstream(st: RunState, n: NodeId, a: NodeId)
    requires Inv(st) && Publishable(st.graph) && Entered(st, n) && a in Ancestors(st.graph, n)
    ensures SettledNode(st.nodes, a)
  {
    var e := ReachesLast(st.graph, a, n);
    EnteredSource(st, e);
    if e.source != a {
      var w :| w != [] && Walk(st.graph, a, w, e.source);
      SettledAlong(st, a, w, e.source);
    }
  }

  lemma SettledOutput(input: bool, parked: bool, run: RunStatus, row: NodeRun, task: Option<Task>)
    requires Judge(input, parked, run, row, task) == Consistent && Settled(row.status)
    ensures row.status.NodeSkipped? <==> row.output.None?
  {
  }

  /** A reference that passed the upstream check never fails because its target
      is still running: once the node is ready, the target is COMPLETED and the
      reference reads its output, or SKIPPED and there is nothing to read. */
  lemma UpstreamIsSettled(g: Graph, input: Json, acts: seq<Action>, n: NodeId, a: NodeId)
    requires Publishable(g) && Entered(Execute(g, input, acts).st, n) && TargetVerdict(g, n, a).None?
    ensures var nodes := Execute(g, input, acts).st.nodes;
            || (HasStatus(nodes, a, NodeSkipped) && nodes[a].output.None?)
            || (HasStatus(nodes, a, NodeCompleted) && nodes[a].output.Some?)
  {
    var st := Execute(g, input, acts).st;
    AlwaysSane(g, input, acts);
    AcceptedTargets(g, n, a);
    SettledUpstream(st, n, a);
    assert NodeOk(st, a);
    SettledOutput(IsInputId(g, a), IsParkedId(g, a), st.run, st.nodes[a], TaskOf(st, a));
  }

  // ----- resolution over the life of a run -----

  /** All node references go to ancestors, as those do that pass the upstream check. */
  ghost predicate UpstreamOnly(g: Graph, n: NodeId, refs: set<Reference>) {
    forall r :: r in refs && r.scope.NodeOutput? ==> r.scope.node in Ancestors(g, n)
  }

  /** `{{run.status}}`, however it is spaced. */
  predicate ReadsStatus(r: Reference) {
    r.scope.RunInfo? && r.path == ["status"]
  }

  predicate Legible(r: Reference) {
    r.path != []
  }

  lemma RunReference(status: RunStatus, other: RunStatus, facts: RunFacts, path: seq<string>)
    requires path != []
    ensures Navigate(RunScope(status, facts), path).Some? <==> Navigate(RunScope(other, facts), path).Some?
    ensures path != ["status"] ==> Navigate(RunScope(status, facts), path) == Navigate(RunScope(other, facts), path)
    ensures path == ["status"] ==> Navigate(RunScope(status, facts), path) == Some(Str(StatusText(status)))
  {
    if path[0] == "status" {
      if |path| == 1 {
        assert path == ["status"] && path[1..] == [];
      } else {
        assert Navigate(Str(StatusText(status)), path[1..]).None?;
        assert Navigate(Str(StatusText(other)), path[1..]).None?;
      }
    }
  }

  /** A node reference to a settled node reads the same output ever after. */
  lemma SettledReference(st: RunState, later: RunState, r: Reference, facts: RunFacts)
    requires Since(st, later) && Legible(r) && (r.scope.NodeOutput? ==> SettledNode(st.nodes, r.scope.node))
    ensures var c, d := ContextOf(st, facts), ContextOf(later, facts);
            && (ResolveReference(c, r).Some? <==> ResolveReference(d, r).Some?)
            && (st.run == later.run || !ReadsStatus(r) ==> ResolveReference(c, r) == ResolveReference(d, r))
  {
    if r.scope.RunInfo? {
      RunReference(st.run, later.run, facts, r.path);
    }
  }

  lemma ParsedPath(value: string)
    requires ParseReference(value).Some?
    ensures Legible(ParseReference(value).value) && ParseReference(value).value.raw == value
  {
  }

  lemma TextPaths(text: string, r: Reference)
    requires ConsultsText(text).Some? && r in ConsultsText(text).value
    ensures Legible(r) && ParseReference(r.raw) == Some(r)
  {
    if ParseReference(text).Some? {
      ParsedPath(text);
    } else {
      var templates := Templates(text);
      ParseAllEach(templates);
      var i :| 0 <= i < |templates| && Some(r) == ParseReference(templates[i]);
      ParsedPath(templates[i]);
    }
  }

  /** Every reference the resolver looks at was parsed from its own text. */
  lemma {:induction false} ConsultedPaths(v: Json, r: Reference)
    requires Consults(v).Some? && r in Consults(v).value
    ensures Legible(r) && ParseReference(r.raw) == Some(r)
  {
    match v
    case Str(s) => TextPaths(s, r);
    case Obj(fields) =>
      var k :| k in fields && r in Consults(fields[k]).value;
      ConsultedPaths(fields[k], r);
    case Arr(items) =>
      var i :| 0 <= i < |items| && r in Consults(items[i]).value;
      ConsultedPaths(items[i], r);
  }

  /** Once a node is entered, what its upstream references read is settled. */
  lemma EnteredReference(st: RunState, later: RunState, n: NodeId, v: Json, r: Reference, facts: RunFacts)
    requires Inv(st) && Publishable(st.graph) && Since(st, later) && Entered(st, n)
    requires Consults(v).Some? && UpstreamOnly(st.graph, n, Consults(v).value) && r in Consults(v).value
    ensures var c, d := ContextOf(st, facts), ContextOf(later, facts);
            && (ResolveReference(c, r).Some? <==> ResolveReference(d, r).Some?)
            && (st.run == later.run || !ReadsStatus(r) ==> ResolveReference(c, r) == ResolveReference(d, r))
  {
    ConsultedPaths(v, r);
    if r.scope.NodeOutput? {
      SettledUpstream(st, n, r.scope.node);
    }
    SettledReference(st, later, r, facts);
  }

  ghost predicate StatusFree(v: Json) {
    Consults(v).Some? ==> forall r :: r in Consults(v).value ==> !ReadsStatus(r)
  }

  lemma EnteredResolution(st: RunState, later: RunState, n: NodeId, v: Json, facts: RunFacts, show: Json -> string)
    requires Inv(st) && Publishable(st.graph) && Since(st, later) && Entered(st, n)
    requires Consults(v).Some? ==> UpstreamOnly(st.graph, n, Consults(v).value)
    ensures var c, d := ContextOf(st, facts), ContextOf(later, facts);
            && (Resolve(c, show, v).Some? <==> Resolve(d, show, v).Some?)
            && (st.run == later.run || StatusFree(v) ==> Resolve(c, show, v) == Resolve(d, show, v))
  {
    var c, d := ContextOf(st, facts), ContextOf(later, facts);
    if Consults(v).Some? {
      forall r | r in Consults(v).value
        ensures ResolveReference(c, r).Some? <==> ResolveReference(d, r).Some?
        ensures st.run == later.run || !ReadsStatus(r) ==> ResolveReference(c, r) == ResolveReference(d, r)
      {
        EnteredReference(st, later, n, v, r, facts);
      }
    }
    ValueResolves(c, show, v);
    ValueResolves(d, show, v);
    if st.run == later.run || StatusFree(v) {
      SameResolution(c, d, show, v);
    }
  }

  /** Whether a value resolves is final: once a node is ready, a value all of
      whose node references go to ancestors resolves in every later state of the
      run, or in none. */
  lemma ResolvabilityIsFinal(g: Graph, input: Json, acts: seq<Action>, more: seq<Action>, n: NodeId, v: Json,
                             facts: RunFacts, show: Json -> string)
    requires Publishable(g) && Entered(Execute(g, input, acts).st, n)
    requires Consults(v).Some? ==> UpstreamOnly(g, n, Consults(v).value)
    ensures Resolve(ContextOf(Execute(g, input, acts).st, facts), show, v).Some? <==>
            Resolve(ContextOf(Execute(g, input, acts + more).st, facts), show, v).Some?
  {
    AlwaysSane(g, input, acts);
    LaterStates(g, input, acts, more);
    EnteredResolution(Execute(g, input, acts).st, Execute(g, input, acts + more).st, n, v, facts, show);
  }

  /** What it resolves to is final as well, as long as the run status is the same
      or no reference reads it: every attempt then sees the same inputs. */
  lemma ResolutionIsFinal(g: Graph, input: Json, acts: seq<Action>, more: seq<Action>, n: NodeId, v: Json,
                          facts: RunFacts, show: Json -> string)
    requires Publishable(g) && Entered(Execute(g, input, acts).st, n)
    requires Consults(v).Some? ==> UpstreamOnly(g, n, Consults(v).value)
    requires Execute(g, input, acts).st.run == Execute(g, input, acts + more).st.run || StatusFree(v)
    ensures Resolve(ContextOf(Execute(g, input, acts).st, facts), show, v) ==
            Resolve(ContextOf(Execute(g, input, acts + more).st, facts), show, v)
  {
    AlwaysSane(g, input, acts);
    LaterStates(g, input, acts, more);
    EnteredResolution(Execute(g, input, acts).st, Execute(g, input, acts + more).st, n, v, facts, show);
  }
}
