/** Skipping is exact: a node is skipped precisely when every way to it from an
    input node leaves a completed Condition through its unselected handle. */
module SkipExactness {
  import opened Basics
  import opened StateMachines
  import opened Graphs
  import opened GraphAnalysis
  import opened RunRows
  import opened Scheduling
  import opened SchedulerRules
  import opened Runtime
  import opened Invariant
  import opened SchedulerSafety
  import opened Progress
  import opened RuntimeSafety
  import opened History

  ghost predicate Crosses(g: Graph, nodes: map<NodeId, NodeRun>, w: seq<Edge>) {
    exists i :: 0 <= i < |w| && CutEdge(g, nodes, w[i])
  }

  /** Every walk from an input node to `n` crosses a cut edge. */
  ghost predicate CutFromInputs(g: Graph, nodes: map<NodeId, NodeRun>, n: NodeId) {
    forall r, w :: IsInputId(g, r) && Walk(g, r, w, n) ==> Crosses(g, nodes, w)
  }

  lemma CompletedInput(st: RunState, r: NodeId)
    requires Inv(st) && IsInputId(st.graph, r)
    ensures HasStatus(st.nodes, r, NodeCompleted)
  {
    FindNodeIds(st.graph, r);
    assert NodeOk(st, r);
  }

  lemma InactiveEdge(g: Graph, nodes: map<NodeId, NodeRun>, e: Edge)
    ensures EdgeActive(g, nodes, e) <==> !HasStatus(nodes, e.source, NodeSkipped) && !CutEdge(g, nodes, e)
  {
  }

  lemma CrossesLonger(g: Graph, nodes: map<NodeId, NodeRun>, w: seq<Edge>)
    requires w != [] && (CutEdge(g, nodes, w[|w| - 1]) || Crosses(g, nodes, w[..|w| - 1]))
    ensures Crosses(g, nodes, w)
  {
    if !CutEdge(g, nodes, w[|w| - 1]) {
      var init := w[..|w| - 1];
      var i :| 0 <= i < |init| && CutEdge(g, nodes, init[i]);
      assert w[i] == init[i];
    }
  }

  lemma SkippedEntry(st: RunState, e: Edge)
    requires Inv(st) && e in st.graph.edges && HasStatus(st.nodes, e.target, NodeSkipped)
    ensures CutEdge(st.graph, st.nodes, e) || HasStatus(st.nodes, e.source, NodeSkipped)
  {
    AbandonedNode(st, e.target);
    InactiveEdge(st.graph, st.nodes, e);
  }

  /** Soundness, in every reachable state. */
  lemma {:induction false} SkippedIsCut(st: RunState, r: NodeId, w: seq<Edge>, n: NodeId)
    requires Inv(st) && IsInputId(st.graph, r) && Walk(st.graph, r, w, n) && HasStatus(st.nodes, n, NodeSkipped)
    ensures Crosses(st.graph, st.nodes, w)
    decreases |w|
  {
    CompletedInput(st, r);
    WalkLast(st.graph, r, w, n);
    var e := w[|w| - 1];
    SkippedEntry(st, e);
    if !CutEdge(st.graph, st.nodes, e) {
      SkippedIsCut(st, r, w[..|w| - 1], e.source);
    }
    CrossesLonger(st.graph, st.nodes, w);
  }

  lemma StartedRow(input: bool, parked: bool, run: RunStatus, row: NodeRun, task: Option<Task>)
    requires Judge(input, parked, run, row, task) == Consistent && !RunTerminal(run)
    ensures input || row.status.NodeSkipped? || row.status.NodePending? || task.Some?
  {
  }

  /** A node that is not skipped is an input or has an active incoming edge. */
  lemma LiveEntry(st: RunState, n: NodeId) returns (e: Edge)
    requires Inv(st) && LiveRun(st.run) && Publishable(st.graph) && SkipClosed(st.graph, st.nodes)
    requires n in st.nodes && st.nodes[n].status != NodeSkipped && !IsInputId(st.graph, n)
    ensures e in st.graph.edges && e.target == n && EdgeActive(st.graph, st.nodes, e)
  {
    assert NodeOk(st, n);
    StartedRow(IsInputId(st.graph, n), IsParkedId(st.graph, n), st.run, st.nodes[n], TaskOf(st, n));
    if n in st.tasks {
      AdmittedNode(st, n);
      e :| e in st.graph.edges && e.target == n && EdgeActive(st.graph, st.nodes, e);
    } else {
      PendingHasActiveInput(st, n);
      e :| e in st.graph.edges && e.target == n && EdgeActive(st.graph, st.nodes, e);
    }
  }

  lemma PendingHasActiveInput(st: RunState, n: NodeId)
    requires Publishable(st.graph) && st.nodes.Keys == Ids(st.graph) && SkipClosed(st.graph, st.nodes)
    requires HasStatus(st.nodes, n, NodePending) && !IsInputId(st.graph, n)
    ensures HasActiveInput(st.graph, st.nodes, n)
  {
    assert HasIncoming(st.graph, n);
    assert !CutOff(st.graph, st.nodes, {}, n);
  }

  lemma FewerAncestors(g: Graph, e: Edge)
    requires Acyclic(g) && e in g.edges
    ensures Ancestors(g, e.source) < Ancestors(g, e.target)
  {
    EdgeReaches(g, e);
    assert e.source != e.target;
    forall a | a in Ancestors(g, e.source)
      ensures a in Ancestors(g, e.target)
    {
      ReachesTransitive(g, a, e.source, e.target);
    }
    assert e.source in Ancestors(g, e.target) && e.source !in Ancestors(g, e.source);
  }

  lemma PublishedAcyclic(g: Graph)
    requires Publishable(g)
    ensures Acyclic(g) && Contract(g)
  {
  }

  /** Completeness: a node that is not skipped is reached without crossing a cut. */
  lemma {:induction false} LiveWalk(st: RunState, n: NodeId) returns (r: NodeId, w: seq<Edge>)
    requires Inv(st) && LiveRun(st.run) && Publishable(st.graph) && SkipClosed(st.graph, st.nodes)
    requires n in st.nodes && st.nodes[n].status != NodeSkipped
    ensures IsInputId(st.graph, r) && Walk(st.graph, r, w, n) && !Crosses(st.graph, st.nodes, w)
    decreases Ancestors(st.graph, n)
  {
    if IsInputId(st.graph, n) {
      r, w := n, [];
    } else {
      var e := LiveEntry(st, n);
      PublishedAcyclic(st.graph);
      FewerAncestors(st.graph, e);
      InactiveEdge(st.graph, st.nodes, e);
      EndpointRow(st, e);
      var v;
      r, v := LiveWalk(st, e.source);
      w := v + [e];
      ExtendWalk(st.graph, r, v, e);
      NoNewCrossing(st.graph, st.nodes, v, e);
    }
  }

  lemma EndpointRow(st: RunState, e: Edge)
    requires Contract(st.graph) && Keyed(st) && e in st.graph.edges && !HasStatus(st.nodes, e.source, NodeSkipped)
    ensures e.source in st.nodes && st.nodes[e.source].status != NodeSkipped
  {
  }

  lemma ExtendWalk(g: Graph, r: NodeId, v: seq<Edge>, e: Edge)
    requires Walk(g, r, v, e.source) && e in g.edges
    ensures Walk(g, r, v + [e], e.target)
  {
    assert [e][1..] == [];
    assert Walk(g, e.source, [e], e.target);
    WalkConcat(g, r, v, e.source, [e], e.target);
  }

  lemma NoNewCrossing(g: Graph, nodes: map<NodeId, NodeRun>, v: seq<Edge>, e: Edge)
    requires !Crosses(g, nodes, v) && !CutEdge(g, nodes, e)
    ensures !Crosses(g, nodes, v + [e])
  {
    forall i | 0 <= i < |v + [e]|
      ensures !CutEdge(g, nodes, (v + [e])[i])
    {
      if i < |v| {
        assert (v + [e])[i] == v[i];
      }
    }
  }

  lemma SkippedExactlyWhenCut(st: RunState, n: NodeId)
    requires Inv(st) && LiveRun(st.run) && Publishable(st.graph) && SkipClosed(st.graph, st.nodes) && n in st.nodes
    ensures HasStatus(st.nodes, n, NodeSkipped) <==> CutFromInputs(st.graph, st.nodes, n)
  {
    if HasStatus(st.nodes, n, NodeSkipped) {
      forall r, w | IsInputId(st.graph, r) && Walk(st.graph, r, w, n)
        ensures Crosses(st.graph, st.nodes, w)
      {
        SkippedIsCut(st, r, w, n);
      }
    } else {
      var r, w := LiveWalk(st, n);
    }
  }

  lemma ScheduleIsExact(st: RunState, u: Unresolved, now: nat, n: NodeId)
    requires Inv(st) && st.run.RunRunning? && Publishable(st.graph) && n in Ids(st.graph)
    ensures var after := AfterSchedule(st, u, now).nodes;
            HasStatus(after, n, NodeSkipped) <==> CutFromInputs(st.graph, after, n)
  {
    ScheduleSound(st, u, now);
    ScheduleExhausts(st, u, now);
    ScheduledRun(st, u, now);
    SkippedExactlyWhenCut(AfterSchedule(st, u, now), n);
  }

  /** Skip exactness: after any scheduling pass over a reachable RUNNING run, a
      node is SKIPPED exactly when every walk from an input to it crosses the
      unselected handle of a completed Condition. */
  lemma SkipIsExact(g: Graph, input: Json, acts: seq<Action>, u: Unresolved, n: NodeId)
    requires Publishable(g) && Execute(g, input, acts).st.run.RunRunning? && n in Ids(g)
    ensures var s := Execute(g, input, acts);
            var after := AfterSchedule(s.st, u, s.clock).nodes;
            HasStatus(after, n, NodeSkipped) <==> CutFromInputs(g, after, n)
  {
    AlwaysSane(g, input, acts);
    ScheduleIsExact(Execute(g, input, acts).st, u, Execute(g, input, acts).clock, n);
  }

  lemma ScheduledRun(st: RunState, u: Unresolved, now: nat)
    requires Inv(st)
    ensures AfterSchedule(st, u, now).run == st.run && AfterSchedule(st, u, now).graph == st.graph
    ensures AfterSchedule(st, u, now).nodes.Keys == Ids(st.graph)
  {
    ScheduleSound(st, u, now);
  }

  // ----- the two branches of a Condition -----

  /** A sound RUNNING run at the skip fixed point. */
  ghost function ClosedRun(st: RunState): Verdict {
    if Inv(st) && st.run.RunRunning? && SkipClosed(st.graph, st.nodes) && Publishable(st.graph) then Consistent else Broken
  }

  lemma ScheduledClosed(st: RunState, u: Unresolved, now: nat)
    requires Inv(st) && st.run.RunRunning? && Publishable(st.graph)
    ensures var after := AfterSchedule(st, u, now);
            ClosedRun(after) == Consistent && after.graph == st.graph && after.nodes.Keys == Ids(st.graph)
  {
    ScheduleSound(st, u, now);
    ScheduleExhausts(st, u, now);
    ScheduledRun(st, u, now);
  }

  lemma SettledNotPending(st: RunState, n: NodeId)
    requires Inv(st) && LiveRun(st.run) && SkipClosed(st.graph, st.nodes) && n in st.nodes && HasIncoming(st.graph, n)
    requires forall e :: e in st.graph.edges && e.target == n ==> !EdgeActive(st.graph, st.nodes, e)
    requires Publishable(st.graph)
    ensures HasStatus(st.nodes, n, NodeSkipped)
  {
    if st.nodes[n].status != NodeSkipped {
      var f :| f in st.graph.edges && f.target == n;
      InputHasNoIncoming(st.graph, f);
      var e := LiveEntry(st, n);
    }
  }

  lemma EnteredNotSkipped(st: RunState, e: Edge)
    requires Inv(st) && e in st.graph.edges && EdgeActive(st.graph, st.nodes, e)
    ensures !HasStatus(st.nodes, e.target, NodeSkipped)
  {
    if HasStatus(st.nodes, e.target, NodeSkipped) {
      AbandonedNode(st, e.target);
    }
  }

  lemma BranchEdges(g: Graph, nodes: map<NodeId, NodeRun>, node: Node, branch: string, e: Edge)
    requires Contract(g) && node in g.nodes && node.nodeType.Logic? && node.subtype == "condition" && branch in {"true", "false"}
    requires HasStatus(nodes, node.id, NodeCompleted) && Took(nodes[node.id], branch) && e.source == node.id
    ensures EdgeActive(g, nodes, e) <==> e.handle == Some(branch)
  {
    BranchDecides(g, nodes, node, e);
  }

  /** A node that hangs on a branch that was taken. */
  ghost predicate OnBranch(g: Graph, node: Node, branch: string, n: NodeId) {
    exists e :: e in g.edges && e.source == node.id && e.target == n && e.handle == Some(branch)
  }

  /** A node that hangs on nothing but other branches. */
  ghost predicate OffBranch(g: Graph, node: Node, branch: string, n: NodeId) {
    HasIncoming(g, n) && forall e :: e in g.edges && e.target == n ==> e.source == node.id && e.handle != Some(branch)
  }

  lemma BranchRows(st: RunState, node: Node, branch: string, n: NodeId)
    requires ClosedRun(st) == Consistent && n in st.nodes
    requires node in st.graph.nodes && node.nodeType.Logic? && node.subtype == "condition" && branch in {"true", "false"}
    requires HasStatus(st.nodes, node.id, NodeCompleted) && Took(st.nodes[node.id], branch)
    ensures OnBranch(st.graph, node, branch, n) ==> !HasStatus(st.nodes, n, NodeSkipped)
    ensures OffBranch(st.graph, node, branch, n) ==> HasStatus(st.nodes, n, NodeSkipped)
  {
    PublishedAcyclic(st.graph);
    if OnBranch(st.graph, node, branch, n) {
      var e :| e in st.graph.edges && e.source == node.id && e.target == n && e.handle == Some(branch);
      BranchEdges(st.graph, st.nodes, node, branch, e);
      EnteredNotSkipped(st, e);
    }
    if OffBranch(st.graph, node, branch, n) {
      forall e | e in st.graph.edges && e.target == n
        ensures !EdgeActive(st.graph, st.nodes, e)
      {
        BranchEdges(st.graph, st.nodes, node, branch, e);
      }
      SettledNotPending(st, n);
    }
  }

  lemma ScheduledBranches(st: RunState, u: Unresolved, now: nat, node: Node, branch: string, n: NodeId)
    requires Inv(st) && st.run.RunRunning? && Publishable(st.graph) && n in Ids(st.graph)
    requires node in st.graph.nodes && node.nodeType.Logic? && node.subtype == "condition" && branch in {"true", "false"}
    requires HasStatus(AfterSchedule(st, u, now).nodes, node.id, NodeCompleted)
    requires Took(AfterSchedule(st, u, now).nodes[node.id], branch)
    ensures OnBranch(st.graph, node, branch, n) ==> !HasStatus(AfterSchedule(st, u, now).nodes, n, NodeSkipped)
    ensures OffBranch(st.graph, node, branch, n) ==> HasStatus(AfterSchedule(st, u, now).nodes, n, NodeSkipped)
  {
    ScheduledClosed(st, u, now);
    BranchRows(AfterSchedule(st, u, now), node, branch, n);
  }

  function RowsAfterSchedule(s: System, u: Unresolved): map<NodeId, NodeRun> {
    AfterSchedule(s.st, u, s.clock).nodes
  }

  /** After any scheduling pass over a reachable RUNNING run, a node that hangs
      on the branch a completed Condition took is not SKIPPED, and one all of
      whose incoming edges leave it on the other branch is. */
  lemma OtherBranchSkipped(g: Graph, input: Json, acts: seq<Action>, u: Unresolved, node: Node, branch: string, n: NodeId)
    requires Publishable(g) && Execute(g, input, acts).st.run.RunRunning? && n in Ids(g)
    requires node in g.nodes && node.nodeType.Logic? && node.subtype == "condition" && branch in {"true", "false"}
    requires HasStatus(RowsAfterSchedule(Execute(g, input, acts), u), node.id, NodeCompleted)
    requires Took(RowsAfterSchedule(Execute(g, input, acts), u)[node.id], branch)
    ensures OnBranch(g, node, branch, n) ==> !HasStatus(RowsAfterSchedule(Execute(g, input, acts), u), n, NodeSkipped)
    ensures OffBranch(g, node, branch, n) ==> HasStatus(RowsAfterSchedule(Execute(g, input, acts), u), n, NodeSkipped)
  {
    AlwaysSane(g, input, acts);
    ScheduledBranches(Execute(g, input, acts).st, u, Execute(g, input, acts).clock, node, branch, n);
  }
}
