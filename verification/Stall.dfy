/** Runs that stay RUNNING without a live task: exactly when a reconcile leaves
    one. */
module Stall {
  import opened Basics
  import opened StateMachines
  import opened Graphs
  import opened RunRows
  import opened Scheduling
  import opened SchedulerRules
  import opened Runtime
  import opened Invariant
  import opened SchedulerSafety
  import opened ReconcileSafety
  import opened RuntimeSafety
  import opened Wakeup
  import opened Idempotence
  import opened FailFast

  // ----- when a reconcile leaves a RUNNING run without a live task -----

  /** The rows a reconcile schedules from: due timers completed, cut-off nodes skipped. */
  function RowsToSchedule(st: RunState, now: nat): map<NodeId, NodeRun> {
    var rows := TimersElapsed(st, now);
    MarkSkipped(rows, SkipSet(st.graph, rows))
  }

  /** Nothing failed, nothing is live, some node is ready, and every ready node
      fails to resolve. */
  ghost predicate WillStall(st: RunState, u: Unresolved, now: nat) {
    var ready := ReadySet(st.graph, RowsToSchedule(st, now));
    && !Exists(st.nodes, NodeFailed) && !HasLiveTask(st)
    && ready != {} && forall n :: n in ready ==> IsPostponed(st.graph, u, n)
  }

  lemma ConcludedRun(st: RunState, adv: RunState, u: Unresolved, unflushed: set<NodeId>, now: nat)
    requires adv.run == st.run && (st.run.RunRunning? || st.run.RunWaiting?)
    requires Conclude(st, adv, u, unflushed, now).outcome.Accepted?
    ensures Conclude(st, adv, u, unflushed, now).st.run == DeriveRun(adv.graph, adv.nodes)
  {
  }

  /** What is known of a reconciled run that is RUNNING. */
  ghost predicate Reconciled(r: RunState, u: Unresolved, now: nat) {
    ReconciliationOf(r, u, now) == Consistent
  }

  ghost function ReconciliationOf(r: RunState, u: Unresolved, now: nat): Verdict {
    if && Inv(r) && r.run.RunRunning? && Exhausted(r, u) && Awake(r, u)
       && NothingElapsed(r.nodes, now) && !Exists(r.nodes, NodeFailed)
    then Consistent else Broken
  }

  lemma DerivedNotFailed(g: Graph, nodes: map<NodeId, NodeRun>)
    requires DeriveRun(g, nodes).RunRunning?
    ensures !Exists(nodes, NodeFailed)
  {
  }

  lemma RunningConcluded(st: RunState, adv: RunState, u: Unresolved, unflushed: set<NodeId>, now: nat)
    requires Prepared(st, adv, u) && (st.run.RunRunning? || st.run.RunWaiting?) && Publishable(st.graph)
    requires NothingElapsed(adv.nodes, now) && DeriveRun(adv.graph, adv.nodes).RunRunning?
    ensures Conclude(st, adv, u, unflushed, now) == Reply(AfterSchedule(Resumed(adv), u, now), Accepted)
    ensures Reconciled(AfterSchedule(Resumed(adv), u, now), u, now)
  {
    RunningPromise(st, adv, u, unflushed, now);
    PreparedBasics(st, adv, u);
    ResumedSound(adv);
    DerivedNotFailed(adv.graph, adv.nodes);
    ScheduleSound(Resumed(adv), u, now);
    ScheduleExhausts(Resumed(adv), u, now);
    ScheduledElapsed(Resumed(adv), u, now);
    NoFailureAppears(Resumed(adv), u, now);
    ScheduleRun(Resumed(adv), u, now);
  }

  lemma ConcludeRuns(st: RunState, adv: RunState, u: Unresolved, unflushed: set<NodeId>, now: nat)
    requires Prepared(st, adv, u) && (st.run.RunRunning? || st.run.RunWaiting?) && Publishable(st.graph)
    requires NothingElapsed(adv.nodes, now) && Conclude(st, adv, u, unflushed, now).st.run.RunRunning?
    ensures DeriveRun(adv.graph, adv.nodes).RunRunning?
    ensures Conclude(st, adv, u, unflushed, now) == Reply(AfterSchedule(Resumed(adv), u, now), Accepted)
    ensures Reconciled(AfterSchedule(Resumed(adv), u, now), u, now)
  {
    PreparedBasics(st, adv, u);
    ConcludeSound(st, adv, u, unflushed, now);
    ConcludedRun(st, adv, u, unflushed, now);
    RunningConcluded(st, adv, u, unflushed, now);
  }

  /** A reconcile that leaves the run RUNNING. */
  lemma ReconcileRuns(st: RunState, u: Unresolved, unflushed: set<NodeId>, now: nat)
    requires Inv(st) && Publishable(st.graph) && (st.run.RunRunning? || st.run.RunWaiting?)
    requires AfterReconcile(st, u, unflushed, now).st.run.RunRunning?
    ensures Prepared(st, Advanced(st, u, now), u)
    ensures AfterReconcile(st, u, unflushed, now).st == AfterSchedule(Resumed(Advanced(st, u, now)), u, now)
    ensures Reconciled(AfterReconcile(st, u, unflushed, now).st, u, now)
  {
    AdvancedSound(st, u, now);
    AdvancedElapsed(st, u, now);
    ConcludeRuns(st, Advanced(st, u, now), u, unflushed, now);
  }

  // ----- the rows a stalled reconcile leaves -----

  lemma QueuedIsLive(st: RunState, next: RunState, n: NodeId)
    requires TasksKept(st, next) && n in next.tasks && n !in st.tasks
    ensures HasLiveTask(next)
  {
  }

  lemma LiveKept(st: RunState, next: RunState)
    requires TasksKept(st, next) && HasLiveTask(st)
    ensures HasLiveTask(next)
  {
    var n :| n in st.tasks && LiveTask(st.tasks[n]);
    assert next.tasks[n] == st.tasks[n];
  }

  /** Without a live task afterwards there was none before and none was added. */
  lemma NothingAdded(st: RunState, next: RunState)
    requires TasksKept(st, next) && !HasLiveTask(next)
    ensures !HasLiveTask(st) && next.tasks == st.tasks
  {
    if HasLiveTask(st) {
      LiveKept(st, next);
    }
    forall n | n in next.tasks
      ensures n in st.tasks
    {
      if n !in st.tasks {
        QueuedIsLive(st, next, n);
      }
    }
    assert next.tasks.Keys == st.tasks.Keys;
  }

  /** Scheduling that adds no task only skips. */
  lemma OnlySkips(st: RunState, u: Unresolved, now: nat)
    requires st.run.RunRunning? && AfterSchedule(st, u, now).tasks == st.tasks
    ensures AfterSchedule(st, u, now).nodes == MarkSkipped(st.nodes, SkipSet(st.graph, st.nodes))
  {
    var marked := MarkSkipped(st.nodes, SkipSet(st.graph, st.nodes));
    var q := QueueableSet(st.graph, marked, st.tasks, u);
    assert AfterSchedule(st, u, now).tasks.Keys == st.tasks.Keys + q;
    assert q !! st.tasks.Keys;
    assert q == {};
    assert MarkQueued(marked, {}) == marked;
  }

  lemma ClosedRowsStay(g: Graph, nodes: map<NodeId, NodeRun>)
    requires SkipClosed(g, nodes)
    ensures MarkSkipped(nodes, SkipSet(g, nodes)) == nodes
  {
    SkipSetLeast(g, nodes);
    assert SkipSet(g, nodes) <= {};
  }

  /** If the first half added no task, its rows are the ones foreseen. */
  lemma AdvancedRows(st: RunState, u: Unresolved, now: nat)
    requires st.run.RunRunning? || SkipClosed(st.graph, TimersElapsed(st, now))
    requires Advanced(st, u, now).tasks == st.tasks
    ensures Advanced(st, u, now).nodes == RowsToSchedule(st, now)
  {
    var waits := AfterPromoteWaits(st, now);
    if st.run.RunRunning? {
      OnlySkips(waits, u, now);
    } else {
      ClosedRowsStay(st.graph, TimersElapsed(st, now));
    }
  }

  lemma WaitingRowsClosed(st: RunState, u: Unresolved, now: nat)
    requires Prepared(st, Advanced(st, u, now), u) && st.run.RunWaiting?
    ensures SkipClosed(st.graph, TimersElapsed(st, now)) && Advanced(st, u, now).nodes == TimersElapsed(st, now)
  {
    ClosedRows(st, Advanced(st, u, now), u);
    PreparedBasics(st, Advanced(st, u, now), u);
  }

  lemma PreparedTasks(st: RunState, adv: RunState, u: Unresolved)
    requires Prepared(st, adv, u)
    ensures TasksKept(st, adv)
  {
  }

  /** A reconcile that leaves a RUNNING run without a live task foresaw it. */
  lemma StallForeseen(st: RunState, u: Unresolved, unflushed: set<NodeId>, now: nat)
    requires Inv(st) && Publishable(st.graph) && (st.run.RunRunning? || st.run.RunWaiting?)
    requires AfterReconcile(st, u, unflushed, now).st.run.RunRunning? && !HasLiveTask(AfterReconcile(st, u, unflushed, now).st)
    ensures WillStall(st, u, now) && AfterReconcile(st, u, unflushed, now).st.nodes == RowsToSchedule(st, now)
  {
    var adv, r := Advanced(st, u, now), AfterReconcile(st, u, unflushed, now).st;
    ReconcileRuns(st, u, unflushed, now);
    PreparedTasks(st, adv, u);
    ScheduleKeeps(Resumed(adv), u, now);
    ResumedRows(adv);
    NothingAdded(Resumed(adv), r);
    NothingAdded(st, adv);
    if st.run.RunWaiting? {
      WaitingRowsClosed(st, u, now);
    }
    AdvancedRows(st, u, now);
    ClosedRows(st, adv, u);
    OnlySkips(Resumed(adv), u, now);
    ClosedRowsStay(adv.graph, adv.nodes);
    ReconciledFacts(r, u, now);
    StallReasons(st, r, u, unflushed, now);
  }

  lemma ResumedRows(adv: RunState)
    requires adv.run.RunRunning? || adv.run.RunWaiting?
    ensures Resumed(adv).nodes == adv.nodes && Resumed(adv).tasks == adv.tasks && Resumed(adv).graph == adv.graph
    ensures Resumed(adv).run.RunRunning?
  {
  }

  lemma ReconciledFacts(r: RunState, u: Unresolved, now: nat)
    requires Reconciled(r, u, now)
    ensures Awake(r, u) && !Exists(r.nodes, NodeFailed) && NothingElapsed(r.nodes, now) && Exhausted(r, u)
  {
  }

  lemma StallReasons(st: RunState, r: RunState, u: Unresolved, unflushed: set<NodeId>, now: nat)
    requires st.run.RunRunning? || st.run.RunWaiting?
    requires r == AfterReconcile(st, u, unflushed, now).st && r.run.RunRunning? && r.graph == st.graph
    requires !HasLiveTask(st) && !HasLiveTask(r) && Awake(r, u) && r.nodes == RowsToSchedule(st, now)
    ensures WillStall(st, u, now)
  {
    FailsWithItsNodes(st, u, unflushed, now);
  }

  lemma NoneQueued(st: RunState, u: Unresolved, now: nat)
    requires forall n :: n in ReadySet(st.graph, MarkSkipped(st.nodes, SkipSet(st.graph, st.nodes))) ==> IsPostponed(st.graph, u, n)
    ensures AfterSchedule(st, u, now).tasks == st.tasks
  {
    if st.run.RunRunning? {
      var marked := MarkSkipped(st.nodes, SkipSet(st.graph, st.nodes));
      assert QueueableSet(st.graph, marked, st.tasks, u) == {};
      QueueNothing(st, u, now);
    }
  }

  lemma DerivesRunning(g: Graph, nodes: map<NodeId, NodeRun>)
    requires !Exists(nodes, NodeFailed) && ReadySet(g, nodes) != {} && !InFlight(nodes)
    ensures DeriveRun(g, nodes).RunRunning?
  {
    var x :| x in ReadySet(g, nodes);
    assert x in nodes && !NodeTerminal(nodes[x].status);
  }

  lemma StalledTasks(st: RunState, u: Unresolved, now: nat)
    requires WillStall(st, u, now)
    ensures Advanced(st, u, now).tasks == st.tasks
  {
    NoneQueued(AfterPromoteWaits(st, now), u, now);
  }

  lemma StalledRows(st: RunState, u: Unresolved, now: nat)
    requires WillStall(st, u, now) && (st.run.RunRunning? || SkipClosed(st.graph, TimersElapsed(st, now)))
    ensures Advanced(st, u, now).tasks == st.tasks && Advanced(st, u, now).nodes == RowsToSchedule(st, now)
  {
    StalledTasks(st, u, now);
    AdvancedRows(st, u, now);
  }

  lemma RowsReady(st: RunState, u: Unresolved, now: nat)
    requires Inv(st) && (st.run.RunRunning? || st.run.RunWaiting?)
    ensures Prepared(st, Advanced(st, u, now), u)
    ensures st.run.RunRunning? || SkipClosed(st.graph, TimersElapsed(st, now))
  {
    AdvancedSound(st, u, now);
    if st.run.RunWaiting? {
      WaitingRowsClosed(st, u, now);
    }
  }

  lemma StalledDerives(st: RunState, adv: RunState, u: Unresolved, now: nat)
    requires Prepared(st, adv, u) && (st.run.RunRunning? || st.run.RunWaiting?)
    requires adv.tasks == st.tasks && !HasLiveTask(st) && !Exists(adv.nodes, NodeFailed)
    requires ReadySet(adv.graph, adv.nodes) != {} && forall n :: n in ReadySet(adv.graph, adv.nodes) ==> IsPostponed(adv.graph, u, n)
    ensures DeriveRun(adv.graph, adv.nodes).RunRunning? && Exhausted(Resumed(adv), u)
  {
    PreparedBasics(st, adv, u);
    ClosedRows(st, adv, u);
    InFlightIsLive(adv);
    DerivesRunning(adv.graph, adv.nodes);
    ResumedRows(adv);
  }

  /** And what was foreseen happens. */
  lemma StallHappens(st: RunState, u: Unresolved, unflushed: set<NodeId>, now: nat)
    requires Inv(st) && Publishable(st.graph) && (st.run.RunRunning? || st.run.RunWaiting?) && WillStall(st, u, now)
    ensures var r := AfterReconcile(st, u, unflushed, now).st;
            r.run.RunRunning? && !HasLiveTask(r)
  {
    var adv := Advanced(st, u, now);
    RowsReady(st, u, now);
    StalledRows(st, u, now);
    PreparedBasics(st, adv, u);
    AdvancedFailure(st, u, now);
    StalledDerives(st, adv, u, now);
    AdvancedElapsed(st, u, now);
    RunningConcluded(st, adv, u, unflushed, now);
    ResumedRows(adv);
    ScheduleIdle(Resumed(adv), u, now);
  }

  /** The rows it leaves then are the ones it scheduled from. */
  lemma StallLeaves(st: RunState, u: Unresolved, unflushed: set<NodeId>, now: nat)
    requires Inv(st) && Publishable(st.graph) && (st.run.RunRunning? || st.run.RunWaiting?) && WillStall(st, u, now)
    ensures var r := AfterReconcile(st, u, unflushed, now).st;
            r.run.RunRunning? && !HasLiveTask(r) && r.nodes == RowsToSchedule(st, now)
  {
    StallHappens(st, u, unflushed, now);
    StallForeseen(st, u, unflushed, now);
  }

  /** A reconcile leaves a reachable run RUNNING without a live task exactly when
      nothing failed, nothing was live, and the nodes that are ready on the rows
      it schedules from, of which there are some, all fail to resolve. */
  lemma StallsExactly(g: Graph, input: Json, acts: seq<Action>, u: Unresolved, unflushed: set<NodeId>)
    requires Publishable(g)
    requires Execute(g, input, acts).st.run.RunRunning? || Execute(g, input, acts).st.run.RunWaiting?
    ensures var s := Execute(g, input, acts);
            var r := AfterReconcile(s.st, u, unflushed, s.clock).st;
            r.run.RunRunning? && !HasLiveTask(r) <==> WillStall(s.st, u, s.clock)
  {
    var s := Execute(g, input, acts);
    AlwaysSane(g, input, acts);
    if WillStall(s.st, u, s.clock) {
      StallHappens(s.st, u, unflushed, s.clock);
    }
    var r := AfterReconcile(s.st, u, unflushed, s.clock).st;
    if r.run.RunRunning? && !HasLiveTask(r) {
      StallForeseen(s.st, u, unflushed, s.clock);
    }
  }
}
