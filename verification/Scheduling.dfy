/** What the scheduler decides: which edges are active, which nodes are ready,
    which are skipped, and what the node states say about the run. */
module Scheduling {
  import opened Basics
  import opened StateMachines
  import opened Graphs
  import opened RunRows

  /** The handle a completed Condition selected, when it is `true` or `false`. */
  function Selected(output: Option<Json>): Option<string> {
    match output
    case Some(Obj(fields)) =>
      if "selected_branch" in fields && fields["selected_branch"] in {Str("true"), Str("false")}
      then Some(fields["selected_branch"].s)
      else None
    case _ => None
  }

  predicate EdgeActive(g: Graph, nodes: map<NodeId, NodeRun>, e: Edge) {
    if HasStatus(nodes, e.source, NodeSkipped) then false
    else if !IsCondition(g, e.source) || !HasStatus(nodes, e.source, NodeCompleted) then true
    else
      var selected := Selected(nodes[e.source].output);
      selected.None? || e.handle == selected
  }

  /** The output says that a Condition took this branch. */
  predicate Took(row: NodeRun, branch: string) {
    row.output.Some? && row.output.value.Obj? && "selected_branch" in row.output.value.fields
    && row.output.value.fields["selected_branch"] == Str(branch)
  }

  /** The edge leaves a completed Condition that took one of its two branches,
      and not through the handle of that branch. */
  predicate CutEdge(g: Graph, nodes: map<NodeId, NodeRun>, e: Edge) {
    && IsCondition(g, e.source)
    && HasStatus(nodes, e.source, NodeCompleted)
    && ((Took(nodes[e.source], "true") && e.handle != Some("true")) ||
        (Took(nodes[e.source], "false") && e.handle != Some("false")))
  }

  /** Which edges are active: of a completed Condition whose output names one of
      its two branches exactly those with that handle, of any other node that was
      not skipped all of them. */
  lemma BranchDecides(g: Graph, nodes: map<NodeId, NodeRun>, node: Node, e: Edge)
    requires Contract(g) && node in g.nodes && node.id == e.source && e.source in nodes
    ensures var row := nodes[e.source];
            var decided := node.nodeType.Logic? && node.subtype == "condition" && row.status.NodeCompleted?;
            && (row.status.NodeSkipped? ==> !EdgeActive(g, nodes, e))
            && (decided && Took(row, "true") ==> (EdgeActive(g, nodes, e) <==> e.handle == Some("true")))
            && (decided && Took(row, "false") ==> (EdgeActive(g, nodes, e) <==> e.handle == Some("false")))
            && (!row.status.NodeSkipped? && !(decided && (Took(row, "true") || Took(row, "false"))) ==> EdgeActive(g, nodes, e))
  {
    FindNodeUnique(g, node);
  }

  predicate HasIncoming(g: Graph, n: NodeId) {
    exists e :: e in g.edges && e.target == n
  }

  // ----- readiness -----

  predicate HasActiveInput(g: Graph, nodes: map<NodeId, NodeRun>, n: NodeId) {
    exists e :: e in g.edges && e.target == n && EdgeActive(g, nodes, e)
  }

  predicate ActiveInputsCompleted(g: Graph, nodes: map<NodeId, NodeRun>, n: NodeId) {
    forall e :: e in g.edges && e.target == n && EdgeActive(g, nodes, e) ==>
      HasStatus(nodes, e.source, NodeCompleted)
  }

  predicate Ready(g: Graph, nodes: map<NodeId, NodeRun>, n: NodeId) {
    && HasStatus(nodes, n, NodePending)
    && HasActiveInput(g, nodes, n)
    && ActiveInputsCompleted(g, nodes, n)
  }

  function ReadySet(g: Graph, nodes: map<NodeId, NodeRun>): set<NodeId> {
    set n | n in nodes && Ready(g, nodes, n)
  }

  // ----- skipping -----

  /** The edge is inactive once the nodes of `s` are skipped as well. */
  predicate Dead(g: Graph, nodes: map<NodeId, NodeRun>, s: set<NodeId>, e: Edge) {
    e.source in s || !EdgeActive(g, nodes, e)
  }

  predicate CutOff(g: Graph, nodes: map<NodeId, NodeRun>, s: set<NodeId>, n: NodeId) {
    && HasStatus(nodes, n, NodePending)
    && HasIncoming(g, n)
    && forall e :: e in g.edges && e.target == n ==> Dead(g, nodes, s, e)
  }

  /** `t` contains every pending node all of whose inputs are dead given `t`. */
  ghost predicate ClosedUnder(g: Graph, nodes: map<NodeId, NodeRun>, t: set<NodeId>) {
    forall n :: n in nodes && CutOff(g, nodes, t, n) ==> n in t
  }

  function PendingSet(nodes: map<NodeId, NodeRun>): set<NodeId> {
    set n | n in nodes && nodes[n].status == NodePending
  }

  /** One pass of the loop, evaluated against the statuses at its start. */
  function SkipPass(g: Graph, nodes: map<NodeId, NodeRun>, s: set<NodeId>): set<NodeId> {
    s + set n | n in nodes && CutOff(g, nodes, s, n)
  }

  function SkipFrom(g: Graph, nodes: map<NodeId, NodeRun>, s: set<NodeId>): set<NodeId>
    requires s <= PendingSet(nodes)
    decreases PendingSet(nodes) - s
  {
    var t := SkipPass(g, nodes, s);
    if t == s then s else SkipFrom(g, nodes, t)
  }

  function SkipSet(g: Graph, nodes: map<NodeId, NodeRun>): set<NodeId> {
    SkipFrom(g, nodes, {})
  }

  /** The fixed point is the least closed set of pending nodes, whatever the
      order in which the nodes are visited. */
  lemma SkipSetLeast(g: Graph, nodes: map<NodeId, NodeRun>)
    ensures SkipSet(g, nodes) <= PendingSet(nodes)
    ensures ClosedUnder(g, nodes, SkipSet(g, nodes))
    ensures forall t :: ClosedUnder(g, nodes, t) ==> SkipSet(g, nodes) <= t
  {
    SkipFromClosed(g, nodes, {});
    forall t | ClosedUnder(g, nodes, t)
      ensures SkipSet(g, nodes) <= t
    {
      SkipFromLeast(g, nodes, {}, t);
    }
  }

  lemma {:induction false} SkipFromClosed(g: Graph, nodes: map<NodeId, NodeRun>, s: set<NodeId>)
    requires s <= PendingSet(nodes)
    ensures s <= SkipFrom(g, nodes, s) <= PendingSet(nodes)
    ensures ClosedUnder(g, nodes, SkipFrom(g, nodes, s))
    decreases PendingSet(nodes) - s
  {
    var t := SkipPass(g, nodes, s);
    if t == s {
      forall n | n in nodes && CutOff(g, nodes, s, n)
        ensures n in s
      {
        assert n in t;
      }
    } else {
      SkipFromClosed(g, nodes, t);
    }
  }

  lemma {:induction false} SkipFromLeast(g: Graph, nodes: map<NodeId, NodeRun>, s: set<NodeId>, t: set<NodeId>)
    requires s <= PendingSet(nodes) && s <= t && ClosedUnder(g, nodes, t)
    ensures SkipFrom(g, nodes, s) <= t
    decreases PendingSet(nodes) - s
  {
    var next := SkipPass(g, nodes, s);
    forall n | n in next
      ensures n in t
    {
      if n !in s {
        assert CutOff(g, nodes, t, n);
      }
    }
    if next != s {
      SkipFromLeast(g, nodes, next, t);
    }
  }

  /** Every skipped node is itself cut off by the skipped set. */
  lemma {:induction false} SkipFromSound(g: Graph, nodes: map<NodeId, NodeRun>, s: set<NodeId>)
    requires s <= PendingSet(nodes)
    requires forall n :: n in s ==> CutOff(g, nodes, s, n)
    ensures forall n :: n in SkipFrom(g, nodes, s) ==> CutOff(g, nodes, SkipFrom(g, nodes, s), n)
    decreases PendingSet(nodes) - s
  {
    var t := SkipPass(g, nodes, s);
    if t != s {
      forall n | n in t
        ensures CutOff(g, nodes, t, n)
      {
        assert CutOff(g, nodes, s, n);
      }
      SkipFromSound(g, nodes, t);
    }
  }

  function MarkSkipped(nodes: map<NodeId, NodeRun>, s: set<NodeId>): map<NodeId, NodeRun> {
    map n | n in nodes :: if n in s then nodes[n].(status := NodeSkipped) else nodes[n]
  }

  lemma MarkedEdge(g: Graph, nodes: map<NodeId, NodeRun>, s: set<NodeId>, e: Edge)
    requires s <= PendingSet(nodes)
    ensures EdgeActive(g, MarkSkipped(nodes, s), e) <==> !Dead(g, nodes, s, e)
  {
  }

  /** No pending node is left with only inactive inputs. */
  ghost predicate SkipClosed(g: Graph, nodes: map<NodeId, NodeRun>) {
    ClosedUnder(g, nodes, {})
  }

  /** The marked states are closed, and every mark is justified by them. */
  lemma MarkingCloses(g: Graph, nodes: map<NodeId, NodeRun>)
    ensures var marked := MarkSkipped(nodes, SkipSet(g, nodes));
            && SkipClosed(g, marked)
            && (forall n :: n in SkipSet(g, nodes) ==> HasIncoming(g, n) && !HasActiveInput(g, marked, n))
  {
    var s := SkipSet(g, nodes);
    var marked := MarkSkipped(nodes, s);
    SkipSetLeast(g, nodes);
    SkipFromSound(g, nodes, {});
    forall n | n in marked && CutOff(g, marked, {}, n)
      ensures false
    {
      forall e | e in g.edges && e.target == n
        ensures Dead(g, nodes, s, e)
      {
        assert Dead(g, marked, {}, e);
        MarkedEdge(g, nodes, s, e);
      }
      assert CutOff(g, nodes, s, n);
    }
    forall n | n in s
      ensures HasIncoming(g, n) && !HasActiveInput(g, marked, n)
    {
      assert CutOff(g, nodes, s, n);
      forall e | e in g.edges && e.target == n
        ensures !EdgeActive(g, marked, e)
      {
        MarkedEdge(g, nodes, s, e);
      }
    }
  }

  // ----- the run status -----

  predicate Exists(nodes: map<NodeId, NodeRun>, s: NodeStatus) {
    exists n :: n in nodes && nodes[n].status == s
  }

  predicate AllTerminal(nodes: map<NodeId, NodeRun>) {
    forall n :: n in nodes ==> NodeTerminal(nodes[n].status)
  }

  predicate InFlight(nodes: map<NodeId, NodeRun>) {
    Exists(nodes, NodeQueued) || Exists(nodes, NodeRunning) || Exists(nodes, NodeRetrying)
  }

  function DeriveRun(g: Graph, nodes: map<NodeId, NodeRun>): RunStatus {
    if Exists(nodes, NodeFailed) then RunFailed
    else if nodes != map[] && AllTerminal(nodes) then RunCompleted
    else if Exists(nodes, NodeWaiting) then
      if InFlight(nodes) then RunRunning
      else if ReadySet(g, nodes) != {} then RunRunning
      else RunWaiting
    else RunRunning
  }

  // ----- task settings -----

  function BoundedInt(raw: Option<int>, default: int, maximum: int): int {
    match raw
    case None => default
    case Some(v) => if v > maximum then (if maximum < 0 then 0 else maximum) else if v < 0 then 0 else v
  }

  /** Attempts granted to a node: one, plus the bounded number of retries. */
  function MaxAttempts(node: Node): (r: int)
    ensures 1 <= r <= 11
  {
    match node.retry
    case GraphRetry(raw) => BoundedInt(raw, 0, 10) + 1
    case ActionPolicy(raw) =>
      if node.nodeType.Service? && node.subtype == "http" then BoundedInt(raw, 0, 10) + 1 else 1
    case NoRetry => 1
  }

  /** Which nodes' config and input mapping fail to resolve at this moment. */
  datatype Unresolved = Unresolved(config: set<NodeId>, input: set<NodeId>)

  datatype Dispatch = Postponed | ToWorker | ToRunner(capability: string, runner: Option<string>)

  /** Tool and Codex work goes to a Runner once its inputs resolve; a Codex
      node whose task does not resolve falls back to the Worker lane. */
  function DispatchOf(node: Node, u: Unresolved): Dispatch {
    if node.nodeType.Tool? then
      if node.id in u.config || node.id in u.input then Postponed else ToRunner("shell", node.runner)
    else if node.nodeType.Agent? && node.codex && node.id !in u.config then
      if node.id in u.input then Postponed else ToRunner("codex", node.runner)
    else ToWorker
  }

  predicate IsPostponed(g: Graph, u: Unresolved, n: NodeId) {
    var node := FindNode(g.nodes, n);
    node.None? || DispatchOf(node.value, u).Postponed?
  }

  function NewTask(node: Node, u: Unresolved, now: nat): Task {
    var d := DispatchOf(node, u);
    Task(TaskPending, None, None, None, now, 0, MaxAttempts(node),
         if d.ToRunner? then Some(d.capability) else None,
         if d.ToRunner? then d.runner else None)
  }
}
