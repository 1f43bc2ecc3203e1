/** What later states of a run owe to earlier ones, and what follows for
    execution order, terminal runs and pauses. */
module History {
  import opened Basics
  import opened StateMachines
  import opened Graphs
  import opened GraphAnalysis
  import opened RunRows
  import opened Scheduling
  import opened Runtime
  import opened Invariant
  import opened RuntimeSafety

  /** Facts every later state keeps. */
  ghost predicate Since(a: RunState, b: RunState) {
    && b.graph == a.graph
    && Frozen(a.nodes, b.nodes)
    && a.events <= b.events
    && a.tasks.Keys <= b.tasks.Keys
    && (forall n :: n in a.tasks ==> b.tasks[n].maxAttempts == a.tasks[n].maxAttempts && a.tasks[n].attempt <= b.tasks[n].attempt)
    && (forall n :: n in a.tasks && TaskTerminal(a.tasks[n].status) ==> b.tasks[n] == a.tasks[n])
    && (RunTerminal(a.run) ==> b == a)
  }

  lemma LawfulSince(st: RunState, next: RunState, permit: Permit)
    requires Lawful(st, next, permit)
    ensures Since(st, next)
  {
    forall n | n in st.tasks
      ensures next.tasks[n].maxAttempts == st.tasks[n].maxAttempts && st.tasks[n].attempt <= next.tasks[n].attempt
      ensures TaskTerminal(st.tasks[n].status) ==> next.tasks[n] == st.tasks[n]
    {
      assert JudgeTask(st.run, st.tasks[n], next.tasks[n], permit) == Consistent;
    }
  }

  lemma SinceTwice(a: RunState, b: RunState, c: RunState)
    requires Since(a, b) && Since(b, c)
    ensures Since(a, c)
  {
  }

  lemma ExecuteConcat(g: Graph, input: Json, acts: seq<Action>, more: seq<Action>)
    ensures Execute(g, input, acts + more) == RunFrom(Execute(g, input, acts), more)
  {
    RunFromConcat(Created(g, input), acts, more);
  }

  lemma ExecuteSplit(g: Graph, input: Json, acts: seq<Action>, a: Action, more: seq<Action>)
    ensures Execute(g, input, acts + [a] + more) == RunFrom(Step(Execute(g, input, acts), a), more)
  {
    assert (acts + [a])[..|acts + [a]| - 1] == acts;
    ExecuteConcat(g, input, acts + [a], more);
  }

  lemma {:induction false} SaneRun(s: System, more: seq<Action>)
    requires Sane(s)
    ensures Sane(RunFrom(s, more)) && Since(s.st, RunFrom(s, more).st) && Extends(s.grants, RunFrom(s, more).grants)
    decreases |more|
  {
    if more != [] {
      var init, last := more[..|more| - 1], more[|more| - 1];
      var mid := RunFrom(s, init);
      SaneRun(s, init);
      StepSane(mid, last);
      GrantsGrow(mid, last);
      LawfulSince(mid.st, Step(mid, last).st, PermitOf(mid, last));
      SinceTwice(s.st, mid.st, Step(mid, last).st);
    }
  }

  /** Everything a run did stays done, whatever happens next. */
  lemma LaterStates(g: Graph, input: Json, acts: seq<Action>, more: seq<Action>)
    requires Publishable(g)
    ensures Since(Execute(g, input, acts).st, Execute(g, input, acts + more).st)
    ensures Sane(Execute(g, input, acts)) && Sane(Execute(g, input, acts + more))
  {
    AlwaysSane(g, input, acts);
    SaneRun(Execute(g, input, acts), more);
    ExecuteConcat(g, input, acts, more);
  }

  // ----- terminal runs -----

  /** Terminal runs are absorbing: after the commit that makes a run terminal
      no row changes, no attempt starts and no event is appended, whoever keeps
      calling. */
  lemma TerminalIsAbsorbing(g: Graph, input: Json, acts: seq<Action>, more: seq<Action>)
    requires Publishable(g) && RunTerminal(Execute(g, input, acts).st.run)
    ensures Execute(g, input, acts + more).st == Execute(g, input, acts).st
  {
    LaterStates(g, input, acts, more);
  }

  /** A result is written once: a COMPLETED NodeRun and its output never change. */
  lemma OutputIsFinal(g: Graph, input: Json, acts: seq<Action>, more: seq<Action>, n: NodeId)
    requires Publishable(g) && HasStatus(Execute(g, input, acts).st.nodes, n, NodeCompleted)
    ensures var later := Execute(g, input, acts + more).st.nodes;
            n in later && later[n] == Execute(g, input, acts).st.nodes[n]
  {
    LaterStates(g, input, acts, more);
    assert Settled(Execute(g, input, acts).st.nodes[n].status);
  }

  // ----- execution order -----

  /** Once a node has a task, in this and every later state: an active edge
      from a completed source leads into it, and every other incoming edge is
      dead or has a completed source. */
  lemma EnteredInOrder(g: Graph, input: Json, acts: seq<Action>, more: seq<Action>, n: NodeId)
    requires Publishable(g) && n in Execute(g, input, acts).st.tasks
    ensures var later := Execute(g, input, acts + more).st;
            && n in later.tasks
            && (exists e :: e in g.edges && e.target == n && EdgeActive(g, later.nodes, e) && HasStatus(later.nodes, e.source, NodeCompleted))
            && (forall e :: e in g.edges && e.target == n ==>
                  !EdgeActive(g, later.nodes, e) || HasStatus(later.nodes, e.source, NodeCompleted))
  {
    LaterStates(g, input, acts, more);
    AlwaysSane(g, input, acts + more);
    var later := Execute(g, input, acts + more).st;
    AdmittedNode(later, n);
    var e :| e in g.edges && e.target == n && EdgeActive(g, later.nodes, e) && HasStatus(later.nodes, e.source, NodeCompleted);
  }

  lemma AdmittedNode(st: RunState, n: NodeId)
    requires Inv(st) && n in st.tasks
    ensures Admitted(st.graph, st.nodes, n)
  {
  }

  lemma AbandonedNode(st: RunState, n: NodeId)
    requires Inv(st) && HasStatus(st.nodes, n, NodeSkipped)
    ensures Abandoned(st.graph, st.nodes, n)
  {
  }

  /** A dead edge stays dead. */
  lemma DeadForGood(g: Graph, input: Json, acts: seq<Action>, more: seq<Action>, e: Edge)
    requires Publishable(g) && !EdgeActive(g, Execute(g, input, acts).st.nodes, e)
    ensures !EdgeActive(g, Execute(g, input, acts + more).st.nodes, e)
  {
    LaterStates(g, input, acts, more);
    DeadStaysDead(g, Execute(g, input, acts).st.nodes, Execute(g, input, acts + more).st.nodes, e);
  }

  ghost predicate SettledNode(nodes: map<NodeId, NodeRun>, n: NodeId) {
    n in nodes && Settled(nodes[n].status)
  }

  lemma DoneRow(input: bool, parked: bool, run: RunStatus, row: NodeRun, task: Option<Task>)
    requires Judge(input, parked, run, row, task) == Consistent && row.status.NodeCompleted?
    ensures input || task.Some?
  {
  }

  lemma DeadSource(g: Graph, nodes: map<NodeId, NodeRun>, e: Edge)
    requires !EdgeActive(g, nodes, e)
    ensures SettledNode(nodes, e.source)
  {
  }

  lemma AdmittedSource(st: RunState, e: Edge)
    requires Inv(st) && e in st.graph.edges && e.target in st.tasks
    ensures SettledNode(st.nodes, e.source)
  {
    AdmittedNode(st, e.target);
    if !EdgeActive(st.graph, st.nodes, e) {
      DeadSource(st.graph, st.nodes, e);
    }
  }

  lemma DoneHasTask(st: RunState, e: Edge)
    requires Inv(st) && Publishable(st.graph) && e in st.graph.edges && HasStatus(st.nodes, e.target, NodeCompleted)
    ensures e.target in st.tasks
  {
    var n := e.target;
    assert NodeOk(st, n);
    InputHasNoIncoming(st.graph, e);
    DoneRow(IsInputId(st.graph, n), IsParkedId(st.graph, n), st.run, st.nodes[n], TaskOf(st, n));
  }

  /** The sources of the edges into a settled node, or into a node with a task,
      are settled. */
  lemma SettledSources(st: RunState, e: Edge)
    requires Inv(st) && Publishable(st.graph) && e in st.graph.edges
    requires e.target in st.tasks || SettledNode(st.nodes, e.target)
    ensures SettledNode(st.nodes, e.source)
  {
    if HasStatus(st.nodes, e.target, NodeSkipped) {
      AbandonedNode(st, e.target);
      DeadSource(st.graph, st.nodes, e);
    } else {
      if e.target !in st.tasks {
        DoneHasTask(st, e);
      }
      AdmittedSource(st, e);
    }
  }

  lemma InputHasNoIncoming(g: Graph, e: Edge)
    requires Publishable(g) && e in g.edges
    ensures !IsInputId(g, e.target)
  {
    assert HasIncoming(g, e.target);
  }

  lemma {:induction false} SettledAlong(st: RunState, a: NodeId, w: seq<Edge>, n: NodeId)
    requires Inv(st) && Publishable(st.graph)
    requires w != [] && Walk(st.graph, a, w, n)
    requires n in st.tasks || SettledNode(st.nodes, n)
    ensures SettledNode(st.nodes, a)
    decreases |w|
  {
    WalkLast(st.graph, a, w, n);
    var e, init := w[|w| - 1], w[..|w| - 1];
    SettledSources(st, e);
    if init != [] {
      SettledAlong(st, a, init, e.source);
    }
  }

  /** When a node has a task, every ancestor is COMPLETED or SKIPPED for good. */
  lemma SettledAncestors(g: Graph, input: Json, acts: seq<Action>, n: NodeId, a: NodeId)
    requires Publishable(g) && n in Execute(g, input, acts).st.tasks && a in Ancestors(g, n)
    ensures SettledNode(Execute(g, input, acts).st.nodes, a)
  {
    AlwaysSane(g, input, acts);
    var w :| w != [] && Walk(g, a, w, n);
    SettledAlong(Execute(g, input, acts).st, a, w, n);
  }

  // ----- pause -----

  /** From `s` on, in every state while `more` is performed, the run is not RUNNING. */
  ghost predicate NeverRunning(s: System, more: seq<Action>) {
    && !RunFrom(s, more).st.run.RunRunning?
    && (more != [] ==> NeverRunning(s, more[..|more| - 1]))
  }

  ghost predicate NoNewAttempt(a: RunState, b: RunState) {
    b.tasks.Keys == a.tasks.Keys && forall n :: n in a.tasks ==> b.tasks[n].attempt == a.tasks[n].attempt
  }

  lemma QuietStep(st: RunState, next: RunState, permit: Permit)
    requires Lawful(st, next, permit) && !st.run.RunRunning? && !next.run.RunRunning?
    ensures NoNewAttempt(st, next)
  {
    forall n | n in st.tasks
      ensures next.tasks[n].attempt == st.tasks[n].attempt
    {
      assert JudgeTask(st.run, st.tasks[n], next.tasks[n], permit) == Consistent;
    }
  }

  lemma {:induction false} QuietRun(s: System, more: seq<Action>)
    requires Sane(s) && NeverRunning(s, more)
    ensures NoNewAttempt(s.st, RunFrom(s, more).st)
    decreases |more|
  {
    if more != [] {
      var init, last := more[..|more| - 1], more[|more| - 1];
      QuietRun(s, init);
      SaneRun(s, init);
      StepSane(RunFrom(s, init), last);
      assert !RunFrom(s, init).st.run.RunRunning?;
      QuietStep(RunFrom(s, init).st, RunFrom(s, more).st, PermitOf(RunFrom(s, init), last));
    }
  }

  /** Pause freeze: over any stretch in which the run is not RUNNING, no task
      is created and no attempt begins. */
  lemma PauseFreezes(g: Graph, input: Json, acts: seq<Action>, more: seq<Action>)
    requires Publishable(g) && NeverRunning(Execute(g, input, acts), more)
    ensures NoNewAttempt(Execute(g, input, acts).st, Execute(g, input, acts + more).st)
  {
    AlwaysSane(g, input, acts);
    QuietRun(Execute(g, input, acts), more);
    ExecuteConcat(g, input, acts, more);
  }
}
