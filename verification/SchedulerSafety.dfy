/** Skipping and scheduling keep the invariant, close the skip relation and
    leave no ready node behind that could be dispatched. */
module SchedulerSafety {
  import opened Basics
  import opened StateMachines
  import opened Graphs
  import opened RunRows
  import opened Scheduling
  import opened SchedulerRules
  import opened Invariant

  // ----- skipping -----

  lemma SkippedPair(input: bool, parked: bool, row: NodeRun, task: Option<Task>)
    requires Judge(input, parked, RunRunning, row, task) == Consistent && row.status.NodePending?
    ensures Judge(input, parked, RunRunning, row.(status := NodeSkipped), task) == Consistent
  {
  }

  function Marked(st: RunState): RunState {
    st.(nodes := MarkSkipped(st.nodes, SkipSet(st.graph, st.nodes)))
  }

  lemma MarkedRows(st: RunState)
    requires Inv(st) && st.run.RunRunning?
    ensures RowsOk(Marked(st)) && Keyed(Marked(st))
    ensures Frozen(st.nodes, Marked(st).nodes)
  {
    SkipSetLeast(st.graph, st.nodes);
    var next := Marked(st);
    forall n | n in next.nodes
      ensures NodeOk(next, n)
    {
      assert NodeOk(st, n);
      if n in SkipSet(st.graph, st.nodes) {
        assert n in PendingSet(st.nodes);
        SkippedPair(IsInputId(st.graph, n), IsParkedId(st.graph, n), st.nodes[n], TaskOf(st, n));
      }
    }
  }

  lemma SkipPhase(st: RunState)
    requires Inv(st) && st.run.RunRunning?
    ensures Inv(Marked(st)) && SkipClosed(st.graph, Marked(st).nodes)
    ensures Frozen(st.nodes, Marked(st).nodes)
  {
    MarkedRows(st);
    MarkingCloses(st.graph, st.nodes);
    OrderedStays(st, Marked(st));
  }

  // ----- queueing -----

  lemma QueuedPair(input: bool, parked: bool, row: NodeRun, t: Task)
    requires Judge(input, parked, RunRunning, row, None) == Consistent && row.status.NodePending?
    requires Untried(t) && t.status.TaskPending? && 1 <= t.maxAttempts <= 11
    ensures Judge(input, parked, RunRunning, row.(status := NodeQueued), Some(t)) == Consistent
  {
  }

  lemma NewTaskShape(g: Graph, n: NodeId, u: Unresolved, now: nat)
    ensures Untried(TaskFor(g, n, u, now)) && TaskFor(g, n, u, now).status.TaskPending?
    ensures 1 <= TaskFor(g, n, u, now).maxAttempts <= 11
  {
  }

  function Queued(st: RunState, q: set<NodeId>, u: Unresolved, now: nat, log: seq<Event>): RunState {
    st.(nodes := MarkQueued(st.nodes, q), tasks := AddTasks(st.graph, st.tasks, q, u, now), events := log)
  }

  /** The nodes chosen for queueing are ready and have no task yet. */
  ghost predicate Chosen(st: RunState, q: set<NodeId>) {
    forall n :: n in q ==> n in st.nodes && n !in st.tasks && Ready(st.graph, st.nodes, n)
  }

  lemma QueuedAt(st: RunState, q: set<NodeId>, u: Unresolved, now: nat, log: seq<Event>, n: NodeId)
    requires Chosen(st, q) && n in st.nodes
    ensures var next := Queued(st, q, u, now, log);
            && n in next.nodes
            && next.nodes[n] == (if n in q then st.nodes[n].(status := NodeQueued) else st.nodes[n])
            && TaskOf(next, n) == (if n in q then Some(TaskFor(st.graph, n, u, now)) else TaskOf(st, n))
  {
  }

  lemma QueuedRow(st: RunState, q: set<NodeId>, u: Unresolved, now: nat, log: seq<Event>, n: NodeId)
    requires Inv(st) && st.run.RunRunning? && Chosen(st, q) && n in st.nodes
    ensures NodeOk(Queued(st, q, u, now, log), n)
  {
    assert NodeOk(st, n);
    QueuedAt(st, q, u, now, log, n);
    if n in q {
      NewTaskShape(st.graph, n, u, now);
      QueuedPair(IsInputId(st.graph, n), IsParkedId(st.graph, n), st.nodes[n], TaskFor(st.graph, n, u, now));
    }
  }

  lemma QueuedRows(st: RunState, q: set<NodeId>, u: Unresolved, now: nat, log: seq<Event>)
    requires Inv(st) && st.run.RunRunning? && Chosen(st, q)
    ensures RowsOk(Queued(st, q, u, now, log)) && Keyed(Queued(st, q, u, now, log))
  {
    forall n | n in Queued(st, q, u, now, log).nodes
      ensures NodeOk(Queued(st, q, u, now, log), n)
    {
      QueuedRow(st, q, u, now, log, n);
    }
  }

  lemma QueuedEdges(st: RunState, q: set<NodeId>)
    requires Chosen(st, q)
    ensures SameEdges(st.graph, st.nodes, MarkQueued(st.nodes, q))
    ensures Frozen(st.nodes, MarkQueued(st.nodes, q))
  {
  }

  lemma QueuedOrder(st: RunState, q: set<NodeId>, u: Unresolved, now: nat, log: seq<Event>)
    requires Inv(st) && Chosen(st, q)
    ensures Ordered(Queued(st, q, u, now, log))
  {
    var next := Queued(st, q, u, now, log);
    QueuedEdges(st, q);
    forall n | n in next.tasks && n !in st.tasks
      ensures Admitted(st.graph, next.nodes, n)
    {
      assert Ready(st.graph, st.nodes, n);
      var e :| e in st.graph.edges && e.target == n && EdgeActive(st.graph, st.nodes, e);
      assert ActiveCompletedInput(st.graph, st.nodes, n);
      AdmittedStays(st.graph, st.nodes, next.nodes, n);
    }
    OrderedStays(st, next);
  }

  lemma QueuePhase(st: RunState, q: set<NodeId>, u: Unresolved, now: nat, log: seq<Event>)
    requires Inv(st) && st.run.RunRunning? && Chosen(st, q)
    ensures Inv(Queued(st, q, u, now, log))
  {
    QueuedRows(st, q, u, now, log);
    QueuedOrder(st, q, u, now, log);
  }

  // ----- schedule_ready_nodes -----

  function QueueSet(st: RunState, u: Unresolved): set<NodeId> {
    QueueableSet(st.graph, st.nodes, st.tasks, u)
  }

  lemma ScheduleShape(st: RunState, u: Unresolved, now: nat)
    requires st.run.RunRunning?
    ensures AfterSchedule(st, u, now) ==
            Queued(Marked(st), QueueSet(Marked(st), u), u, now, AfterSchedule(st, u, now).events)
    ensures st.events <= AfterSchedule(st, u, now).events
    ensures Chosen(Marked(st), QueueSet(Marked(st), u))
  {
  }

  /** Scheduling keeps the invariant and is lawful. */
  lemma ScheduleSound(st: RunState, u: Unresolved, now: nat)
    requires Inv(st)
    ensures Inv(AfterSchedule(st, u, now)) && Lawful(st, AfterSchedule(st, u, now), Plain)
  {
    if st.run.RunRunning? {
      SkipPhase(st);
      ScheduleShape(st, u, now);
      QueuePhase(Marked(st), QueueSet(Marked(st), u), u, now, AfterSchedule(st, u, now).events);
      ScheduleLawful(st, u, now);
    } else {
      Unchanged(st, Plain);
    }
  }

  lemma QueuedTasks(st: RunState, q: set<NodeId>, u: Unresolved, now: nat)
    ensures var tasks := AddTasks(st.graph, st.tasks, q, u, now);
            && (forall n :: n in st.tasks ==> n in tasks && JudgeTask(st.run, st.tasks[n], tasks[n], Plain) == Consistent)
            && (forall n :: n in tasks && n !in st.tasks ==> NewTaskLaw(tasks[n]))
  {
    var tasks := AddTasks(st.graph, st.tasks, q, u, now);
    forall n | n in st.tasks
      ensures n in tasks && JudgeTask(st.run, st.tasks[n], tasks[n], Plain) == Consistent
    {
      SameTask(st.run, st.tasks[n], Plain);
    }
    forall n | n in tasks && n !in st.tasks
      ensures NewTaskLaw(tasks[n])
    {
      NewTaskShape(st.graph, n, u, now);
    }
  }

  lemma FrozenTwice(a: map<NodeId, NodeRun>, b: map<NodeId, NodeRun>, c: map<NodeId, NodeRun>)
    requires Frozen(a, b) && Frozen(b, c)
    ensures Frozen(a, c)
  {
  }

  lemma GrowthLawful(st: RunState, nodes: map<NodeId, NodeRun>, q: set<NodeId>, u: Unresolved, now: nat, log: seq<Event>)
    requires st.run.RunRunning? && Frozen(st.nodes, nodes) && st.events <= log
    ensures Lawful(st, st.(nodes := nodes, tasks := AddTasks(st.graph, st.tasks, q, u, now), events := log), Plain)
  {
    QueuedTasks(st, q, u, now);
  }

  lemma ScheduleLawful(st: RunState, u: Unresolved, now: nat)
    requires Inv(st) && st.run.RunRunning?
    ensures Lawful(st, AfterSchedule(st, u, now), Plain)
  {
    var q := QueueSet(Marked(st), u);
    MarkedRows(st);
    ScheduleShape(st, u, now);
    QueuedEdges(Marked(st), q);
    FrozenTwice(st.nodes, Marked(st).nodes, MarkQueued(Marked(st).nodes, q));
    GrowthLawful(st, MarkQueued(Marked(st).nodes, q), q, u, now, AfterSchedule(st, u, now).events);
  }

  /** What is true right after a scheduling pass over a RUNNING run. */
  ghost predicate Exhausted(st: RunState, u: Unresolved) {
    && SkipClosed(st.graph, st.nodes)
    && forall n :: n in ReadySet(st.graph, st.nodes) ==> IsPostponed(st.graph, u, n)
  }

  lemma ReadyStays(st: RunState, q: set<NodeId>, n: NodeId)
    requires Chosen(st, q) && n in st.nodes && Ready(st.graph, MarkQueued(st.nodes, q), n)
    ensures n !in q && Ready(st.graph, st.nodes, n)
  {
    QueuedEdges(st, q);
  }

  lemma QueueCloses(st: RunState, q: set<NodeId>)
    requires Chosen(st, q) && SkipClosed(st.graph, st.nodes)
    ensures SkipClosed(st.graph, MarkQueued(st.nodes, q))
  {
    QueuedEdges(st, q);
    ClosedStays(st.graph, st.nodes, MarkQueued(st.nodes, q));
  }

  lemma QueueExhausts(st: RunState, u: Unresolved)
    requires Inv(st)
    ensures forall n :: n in ReadySet(st.graph, MarkQueued(st.nodes, QueueSet(st, u))) ==> IsPostponed(st.graph, u, n)
  {
    var q := QueueSet(st, u);
    forall n | n in ReadySet(st.graph, MarkQueued(st.nodes, q))
      ensures IsPostponed(st.graph, u, n)
    {
      ReadyStays(st, q, n);
      PendingHasNoTask(st, n);
    }
  }

  lemma ScheduleExhausts(st: RunState, u: Unresolved, now: nat)
    requires Inv(st) && st.run.RunRunning?
    ensures Exhausted(AfterSchedule(st, u, now), u)
  {
    SkipPhase(st);
    ScheduleShape(st, u, now);
    QueueCloses(Marked(st), QueueSet(Marked(st), u));
    QueueExhausts(Marked(st), u);
  }

  lemma PendingHasNoTask(st: RunState, n: NodeId)
    requires Inv(st) && HasStatus(st.nodes, n, NodePending)
    ensures n !in st.tasks
  {
    assert NodeOk(st, n);
  }
}
