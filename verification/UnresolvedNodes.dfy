/** A ready node whose inputs do not resolve is left without a task for good. */
module UnresolvedNodes {
  import opened Basics
  import opened StateMachines
  import opened Graphs
  import opened RunRows
  import opened Scheduling
  import opened SchedulerRules
  import opened Runtime
  import opened Invariant
  import opened SchedulerSafety
  import opened RuntimeSafety
  import opened History
  import opened Recovery
  import opened ContextReferences
  import opened ContextResolver
  import opened ContextSafety
  import opened Dispatching

  // ----- what the node refers to is settled -----

  /** All node references of the value go to ancestors, of whatever kind. */
  ghost predicate Upstream(g: Graph, n: NodeId, v: Json) {
    Consults(v).Some? ==> UpstreamOnly(g, n, Consults(v).value)
  }

  lemma FrozenReference(g: Graph, a: map<NodeId, NodeRun>, b: map<NodeId, NodeRun>, r: Reference, env: Env)
    requires Frozen(a, b) && (r.scope.NodeOutput? ==> SettledNode(a, r.scope.node))
    ensures ResolveReference(SchedulingContext(a, env), r) == ResolveReference(SchedulingContext(b, env), r)
  {
  }

  lemma FrozenResolution(st: RunState, rows: map<NodeId, NodeRun>, n: NodeId, v: Json, env: Env)
    requires Inv(st) && Publishable(st.graph) && Ready(st.graph, st.nodes, n)
    requires Frozen(st.nodes, rows) && Upstream(st.graph, n, v)
    ensures Resolve(SchedulingContext(st.nodes, env), env.show, v) == Resolve(SchedulingContext(rows, env), env.show, v)
  {
    if Consults(v).Some? {
      forall r | r in Consults(v).value
        ensures ResolveReference(SchedulingContext(st.nodes, env), r) == ResolveReference(SchedulingContext(rows, env), r)
      {
        if r.scope.NodeOutput? {
          SettledUpstream(st, n, r.scope.node);
        }
        FrozenReference(st.graph, st.nodes, rows, r, env);
      }
    }
    SameResolution(SchedulingContext(st.nodes, env), SchedulingContext(rows, env), env.show, v);
  }

  /** Once a node is ready, whether it can be dispatched is decided. */
  lemma DispatchIsDecided(st: RunState, rows: map<NodeId, NodeRun>, node: Node, env: Env)
    requires Inv(st) && Publishable(st.graph) && node in st.graph.nodes && Ready(st.graph, st.nodes, node.id)
    requires Frozen(st.nodes, rows) && Upstream(st.graph, node.id, node.config) && Upstream(st.graph, node.id, node.inputMapping)
    ensures Undispatched(st.graph, st.nodes, env, node.id) <==> Undispatched(st.graph, rows, env, node.id)
  {
    FrozenResolution(st, rows, node.id, node.config, env);
    FrozenResolution(st, rows, node.id, node.inputMapping, env);
    UndispatchedWhen(st.graph, st.nodes, env, node);
    UndispatchedWhen(st.graph, rows, env, node);
  }

  // ----- only dispatched nodes get tasks -----

  lemma ScheduledIsDispatched(st: RunState, u: Unresolved, now: nat, n: NodeId)
    requires n in AfterSchedule(st, u, now).tasks && n !in st.tasks
    ensures !IsPostponed(st.graph, u, n)
  {
  }

  lemma ReconciledIsDispatched(st: RunState, u: Unresolved, unflushed: set<NodeId>, now: nat, n: NodeId)
    requires n in AfterReconcile(st, u, unflushed, now).st.tasks && n !in st.tasks
    ensures !IsPostponed(st.graph, u, n)
  {
    var waits := AfterPromoteWaits(st, now);
    var adv := AfterSchedule(waits, u, now);
    assert waits.tasks == st.tasks;
    var derived, hidden := DeriveRun(adv.graph, adv.nodes), unflushed * (adv.tasks.Keys - st.tasks.Keys);
    TransitionTimes(adv, derived, hidden);
    var moved := if derived == st.run then adv else AfterTransition(adv, derived, hidden);
    if n in adv.tasks {
      ScheduledIsDispatched(waits, u, now, n);
    } else {
      ScheduledIsDispatched(moved, u, now, n);
    }
  }

  /** The rows the scheduler resolves against when the action runs. */
  function RowsSeen(s: System, a: Action): map<NodeId, NodeRun> {
    if a.ReconcileRun? then MarkElapsed(s.st.nodes, s.clock) else s.st.nodes
  }

  lemma NewTaskIsDispatched(s: System, a: Action, env: Env, n: NodeId)
    requires Honest(s, a, env) && n in Step(s, a).st.tasks && n !in s.st.tasks
    ensures !Undispatched(s.st.graph, RowsSeen(s, a), env, n)
  {
    match a
    case ScheduleReady(u) => ScheduledIsDispatched(s.st, u, s.clock, n);
    case ReconcileRun(u, unflushed) => ReconciledIsDispatched(s.st, u, unflushed, s.clock, n);
    case _ =>
      if a.Claim? || a.StartTask? || a.Complete? || a.Fail? || a.Park? || a.Retry? || a.Renew? {
        WorkerKeys(s, a);
      } else {
        OtherKeys(s, a);
      }
  }

  lemma SeenIsFrozen(s: System, a: Action)
    ensures Frozen(s.st.nodes, RowsSeen(s, a))
  {
  }

  // ----- a ready node without a task stays ready -----

  lemma IdleRow(input: bool, parked: bool, run: RunStatus, row: NodeRun)
    requires Judge(input, parked, run, row, None) == Consistent && !input
    ensures row.status.NodePending? || row.status.NodeSkipped? || (row.status.NodeCancelled? && RunTerminal(run))
  {
  }

  lemma ReadyFrozen(g: Graph, a: map<NodeId, NodeRun>, b: map<NodeId, NodeRun>, n: NodeId)
    requires Frozen(a, b) && Ready(g, a, n)
    ensures HasActiveInput(g, b, n) && ActiveInputsCompleted(g, b, n)
  {
    var e :| e in g.edges && e.target == n && EdgeActive(g, a, e);
    assert HasStatus(a, e.source, NodeCompleted) && EdgeActive(g, b, e);
    forall f | f in g.edges && f.target == n && EdgeActive(g, b, f)
      ensures HasStatus(b, f.source, NodeCompleted)
    {
      if !EdgeActive(g, a, f) {
        DeadStaysDead(g, a, b, f);
      }
    }
  }

  lemma ReadyIsNoInput(g: Graph, nodes: map<NodeId, NodeRun>, n: NodeId)
    requires Publishable(g) && Ready(g, nodes, n)
    ensures !IsInputId(g, n)
  {
    var e :| e in g.edges && e.target == n && EdgeActive(g, nodes, e);
    InputHasNoIncoming(g, e);
  }

  /** The node waits for a task it will not get: still ready, or cancelled with
      the run. */
  ghost predicate Passed(st: RunState, n: NodeId) {
    n !in st.tasks && (Ready(st.graph, st.nodes, n) || (HasStatus(st.nodes, n, NodeCancelled) && RunTerminal(st.run)))
  }

  lemma NotAbandoned(st: RunState, n: NodeId)
    requires Inv(st) && HasActiveInput(st.graph, st.nodes, n)
    ensures !HasStatus(st.nodes, n, NodeSkipped)
  {
    if HasStatus(st.nodes, n, NodeSkipped) {
      AbandonedNode(st, n);
    }
  }

  lemma ReadyStaysReady(st: RunState, next: RunState, n: NodeId)
    requires Publishable(st.graph) && Inv(next) && Since(st, next) && next.nodes.Keys == st.nodes.Keys
    requires Ready(st.graph, st.nodes, n) && n !in next.tasks
    ensures Passed(next, n)
  {
    ReadyFrozen(st.graph, st.nodes, next.nodes, n);
    ReadyIsNoInput(st.graph, st.nodes, n);
    NotAbandoned(next, n);
    assert NodeOk(next, n);
    IdleRow(IsInputId(next.graph, n), IsParkedId(next.graph, n), next.run, next.nodes[n]);
  }

  lemma NodeKeys(st: RunState)
    requires Inv(st)
    ensures st.nodes.Keys == Ids(st.graph)
  {
  }

  /** Passed over, and rightly so on the current rows. */
  ghost predicate PassedOver(st: RunState, node: Node, env: Env) {
    Passed(st, node.id) && Undispatched(st.graph, st.nodes, env, node.id)
  }

  /** What the node refers to lies upstream of it. */
  ghost predicate LooksUpstream(g: Graph, node: Node) {
    node in g.nodes && Upstream(g, node.id, node.config) && Upstream(g, node.id, node.inputMapping)
  }

  lemma NoTaskNow(s: System, a: Action, node: Node, env: Env)
    requires Sane(s) && Ready(s.st.graph, s.st.nodes, node.id) && node.id !in s.st.tasks && Honest(s, a, env)
    requires LooksUpstream(s.st.graph, node) && Undispatched(s.st.graph, s.st.nodes, env, node.id)
    ensures node.id !in Step(s, a).st.tasks
  {
    SeenIsFrozen(s, a);
    DispatchIsDecided(s.st, RowsSeen(s, a), node, env);
    if node.id in Step(s, a).st.tasks {
      NewTaskIsDispatched(s, a, env, node.id);
    }
  }

  lemma PassedOverStep(s: System, a: Action, node: Node, env: Env)
    requires Sane(s) && PassedOver(s.st, node, env) && Honest(s, a, env) && LooksUpstream(s.st.graph, node)
    ensures PassedOver(Step(s, a).st, node, env)
  {
    var next := Step(s, a).st;
    StepSane(s, a);
    LawfulSince(s.st, next, PermitOf(s, a));
    if !RunTerminal(s.st.run) {
      NoTaskNow(s, a, node, env);
      NodeKeys(s.st);
      NodeKeys(next);
      ReadyStaysReady(s.st, next, node.id);
      DispatchIsDecided(s.st, next.nodes, node, env);
    }
  }

  lemma {:induction false} PassedOverRun(s: System, more: seq<Action>, node: Node, env: Env)
    requires Sane(s) && PassedOver(s.st, node, env) && HonestFrom(s, more, env) && LooksUpstream(s.st.graph, node)
    ensures PassedOver(RunFrom(s, more).st, node, env)
    decreases |more|
  {
    if more != [] {
      var init := more[..|more| - 1];
      PassedOverRun(s, init, node, env);
      SaneRun(s, init);
      PassedOverStep(RunFrom(s, init), more[|more| - 1], node, env);
    }
  }

  /** Unresolved once, unresolved for good: a ready node whose references lie
      upstream and whose config or input does not resolve stays without a task in
      every continuation of the run, PENDING until the run itself is cancelled
      or fails. */
  lemma UnresolvedForGood(g: Graph, input: Json, acts: seq<Action>, more: seq<Action>, node: Node, env: Env)
    requires Publishable(g) && LooksUpstream(g, node) && Ready(g, Execute(g, input, acts).st.nodes, node.id)
    requires Undispatched(g, Execute(g, input, acts).st.nodes, env, node.id)
    requires HonestFrom(Execute(g, input, acts), more, env)
    ensures var later := Execute(g, input, acts + more).st;
            && node.id !in later.tasks
            && (HasStatus(later.nodes, node.id, NodePending) || HasStatus(later.nodes, node.id, NodeCancelled))
            && Undispatched(g, later.nodes, env, node.id)
  {
    AlwaysSane(g, input, acts);
    AlwaysSane(g, input, acts + more);
    PendingHasNoTask(Execute(g, input, acts).st, node.id);
    PassedOverRun(Execute(g, input, acts), more, node, env);
    ExecuteConcat(g, input, acts, more);
  }

  // ----- a reference to a skipped node -----

  /** The Tool's config refers to a node that was skipped. */
  ghost predicate Stranded(nodes: map<NodeId, NodeRun>, node: Node, r: Reference) {
    && node.nodeType.Tool? && Consults(node.config).Some? && r in Consults(node.config).value && r.scope.NodeOutput?
    && HasStatus(nodes, r.scope.node, NodeSkipped) && nodes[r.scope.node].output.None?
  }

  lemma StrandedIsWithheld(g: Graph, nodes: map<NodeId, NodeRun>, node: Node, r: Reference, env: Env)
    requires Contract(g) && node in g.nodes && Stranded(nodes, node, r)
    ensures Undispatched(g, nodes, env, node.id)
  {
    var c := SchedulingContext(nodes, env);
    assert ResolveReference(c, r).None?;
    ValueResolves(c, env.show, node.config);
    UndispatchedWhen(g, nodes, env, node);
  }

  lemma StrandedStays(a: map<NodeId, NodeRun>, b: map<NodeId, NodeRun>, node: Node, r: Reference)
    requires Stranded(a, node, r) && Frozen(a, b)
    ensures Stranded(b, node, r)
  {
  }

  lemma StrandedNoTask(s: System, a: Action, node: Node, r: Reference, env: Env)
    requires Contract(s.st.graph) && node in s.st.graph.nodes && Stranded(s.st.nodes, node, r)
    requires node.id !in s.st.tasks && Honest(s, a, env)
    ensures node.id !in Step(s, a).st.tasks
  {
    SeenIsFrozen(s, a);
    StrandedStays(s.st.nodes, RowsSeen(s, a), node, r);
    StrandedIsWithheld(s.st.graph, RowsSeen(s, a), node, r, env);
    if node.id in Step(s, a).st.tasks {
      NewTaskIsDispatched(s, a, env, node.id);
    }
  }

  ghost predicate PassedBy(st: RunState, node: Node, r: Reference) {
    node in st.graph.nodes && Stranded(st.nodes, node, r) && Passed(st, node.id)
  }

  lemma StrandedStep(s: System, a: Action, node: Node, r: Reference, env: Env)
    requires Sane(s) && PassedBy(s.st, node, r) && Honest(s, a, env)
    ensures PassedBy(Step(s, a).st, node, r)
  {
    var next := Step(s, a).st;
    StepSane(s, a);
    LawfulSince(s.st, next, PermitOf(s, a));
    if !RunTerminal(s.st.run) {
      StrandedNoTask(s, a, node, r, env);
      NodeKeys(s.st);
      NodeKeys(next);
      ReadyStaysReady(s.st, next, node.id);
      StrandedStays(s.st.nodes, next.nodes, node, r);
    }
  }

  lemma {:induction false} StrandedRun(s: System, more: seq<Action>, node: Node, r: Reference, env: Env)
    requires Sane(s) && PassedBy(s.st, node, r) && HonestFrom(s, more, env)
    ensures PassedBy(RunFrom(s, more).st, node, r)
    decreases |more|
  {
    if more != [] {
      var init := more[..|more| - 1];
      StrandedRun(s, init, node, r, env);
      SaneRun(s, init);
      StrandedStep(RunFrom(s, init), more[|more| - 1], node, r, env);
    }
  }

  lemma SkippedHasNoOutput(st: RunState, n: NodeId)
    requires Inv(st) && HasStatus(st.nodes, n, NodeSkipped)
    ensures st.nodes[n].output.None?
  {
    assert NodeOk(st, n);
    SettledOutput(IsInputId(st.graph, n), IsParkedId(st.graph, n), st.run, st.nodes[n], TaskOf(st, n));
  }

  /** The usual way to get there: a Tool is ready although a branch above it was
      not taken, and its config refers to a node of that branch, whatever else it
      refers to. Its task is never created. */
  lemma SkippedReferenceStrands(g: Graph, input: Json, acts: seq<Action>, more: seq<Action>, node: Node, r: Reference, env: Env)
    requires Publishable(g) && node in g.nodes && node.nodeType.Tool?
    requires Consults(node.config).Some? && r in Consults(node.config).value && r.scope.NodeOutput?
    requires Ready(g, Execute(g, input, acts).st.nodes, node.id)
    requires HasStatus(Execute(g, input, acts).st.nodes, r.scope.node, NodeSkipped)
    requires HonestFrom(Execute(g, input, acts), more, env)
    ensures var later := Execute(g, input, acts + more).st;
            && node.id !in later.tasks && Undispatched(g, later.nodes, env, node.id)
            && (HasStatus(later.nodes, node.id, NodePending) || HasStatus(later.nodes, node.id, NodeCancelled))
  {
    AlwaysSane(g, input, acts);
    SkippedHasNoOutput(Execute(g, input, acts).st, r.scope.node);
    PendingHasNoTask(Execute(g, input, acts).st, node.id);
    StrandedRun(Execute(g, input, acts), more, node, r, env);
    ExecuteConcat(g, input, acts, more);
    StrandedIsWithheld(g, Execute(g, input, acts + more).st.nodes, node, r, env);
  }
}
