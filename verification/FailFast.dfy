/** What a reconcile leaves behind when it fails the run. */
module FailFast {
  import opened Basics
  import opened StateMachines
  import opened Graphs
  import opened RunRows
  import opened Scheduling
  import opened SchedulerRules
  import opened Runtime
  import opened Invariant
  import opened Progress
  import opened ReconcileSafety
  import opened RuntimeSafety
  import opened Wakeup

  // ----- what the rows say before the call -----

  /** The rows with every due timer completed. */
  function TimersElapsed(st: RunState, now: nat): map<NodeId, NodeRun> {
    MarkElapsed(st.nodes, now)
  }

  /** The nodes for which the reconcile is going to create a task. */
  function ToQueue(st: RunState, u: Unresolved, now: nat): set<NodeId> {
    var rows := TimersElapsed(st, now);
    if st.run.RunRunning? then QueueableSet(st.graph, MarkSkipped(rows, SkipSet(st.graph, rows)), st.tasks, u) else {}
  }

  /** A parked node that no timer is about to release. */
  predicate StaysParked(st: RunState, n: NodeId, now: nat) {
    HasStatus(st.nodes, n, NodeWaiting) && !DueWait(st.nodes[n], now)
  }

  lemma QueuedAsForeseen(st: RunState, u: Unresolved, now: nat)
    ensures Advanced(st, u, now).tasks.Keys - st.tasks.Keys == ToQueue(st, u, now)
  {
    var waits := AfterPromoteWaits(st, now);
    assert waits.nodes == TimersElapsed(st, now) && waits.tasks == st.tasks;
  }

  lemma PromotedStatus(st: RunState, now: nat, n: NodeId)
    requires n in st.nodes
    ensures var row := AfterPromoteWaits(st, now).nodes[n];
            && (row.status.NodeWaiting? <==> StaysParked(st, n, now))
            && (row.status.NodeFailed? <==> st.nodes[n].status.NodeFailed?)
  {
  }

  lemma ScheduledStatus(st: RunState, u: Unresolved, now: nat, n: NodeId)
    requires n in st.nodes
    ensures var nodes := AfterSchedule(st, u, now).nodes;
            && n in nodes
            && (nodes[n].status.NodeWaiting? <==> st.nodes[n].status.NodeWaiting?)
            && (nodes[n].status.NodeFailed? <==> st.nodes[n].status.NodeFailed?)
  {
    if st.run.RunRunning? {
      SkipSetLeast(st.graph, st.nodes);
    }
  }

  /** Advancing a run neither parks nor fails a node. */
  lemma AdvancedStatus(st: RunState, u: Unresolved, now: nat, n: NodeId)
    requires n in st.nodes
    ensures var nodes := Advanced(st, u, now).nodes;
            && n in nodes
            && (nodes[n].status.NodeWaiting? <==> StaysParked(st, n, now))
            && (nodes[n].status.NodeFailed? <==> st.nodes[n].status.NodeFailed?)
  {
    PromotedStatus(st, now, n);
    ScheduledStatus(AfterPromoteWaits(st, now), u, now, n);
  }

  lemma AdvancedKeys(st: RunState, u: Unresolved, now: nat)
    ensures Advanced(st, u, now).nodes.Keys == st.nodes.Keys && Advanced(st, u, now).run == st.run
  {
  }

  lemma AdvancedFailure(st: RunState, u: Unresolved, now: nat)
    ensures Exists(Advanced(st, u, now).nodes, NodeFailed) <==> Exists(st.nodes, NodeFailed)
  {
    AdvancedKeys(st, u, now);
    forall n | n in st.nodes
      ensures Advanced(st, u, now).nodes[n].status.NodeFailed? <==> st.nodes[n].status.NodeFailed?
    {
      AdvancedStatus(st, u, now, n);
    }
  }

  lemma ConcludeFails(st: RunState, adv: RunState, u: Unresolved, unflushed: set<NodeId>, now: nat)
    requires adv.run == st.run && (st.run.RunRunning? || st.run.RunWaiting?)
    ensures Conclude(st, adv, u, unflushed, now).st.run.RunFailed? <==> Exists(adv.nodes, NodeFailed)
  {
    if Exists(adv.nodes, NodeFailed) {
      FailedShape(st, adv, u, unflushed, now);
    }
  }

  /** A reconcile fails the run exactly when some node has failed. */
  lemma FailsWithItsNodes(st: RunState, u: Unresolved, unflushed: set<NodeId>, now: nat)
    requires st.run.RunRunning? || st.run.RunWaiting?
    ensures AfterReconcile(st, u, unflushed, now).st.run.RunFailed? <==> Exists(st.nodes, NodeFailed)
  {
    AdvancedFailure(st, u, now);
    AdvancedKeys(st, u, now);
    ConcludeFails(st, Advanced(st, u, now), u, unflushed, now);
  }

  // ----- live tasks -----

  /** A task is live exactly when one was queued unseen. */
  ghost predicate Residue(before: RunState, adv: RunState, after: RunState, unflushed: set<NodeId>) {
    HasLiveTask(after) <==> unflushed * (adv.tasks.Keys - before.tasks.Keys) != {}
  }

  lemma FailedWasDerived(st: RunState, adv: RunState, u: Unresolved, unflushed: set<NodeId>, now: nat)
    requires adv.run == st.run && (st.run.RunRunning? || st.run.RunWaiting?)
    requires Conclude(st, adv, u, unflushed, now).st.run.RunFailed?
    ensures DeriveRun(adv.graph, adv.nodes) == RunFailed
  {
  }

  lemma SweptLive(st: RunState, next: RunState, hidden: set<NodeId>)
    requires IsSwept(st, next, hidden) && HiddenQueued(st, hidden)
    ensures HasLiveTask(next) <==> hidden != {}
  {
    if h :| h in hidden {
      assert LiveTask(next.tasks[h]);
    }
    if HasLiveTask(next) {
      var n :| n in next.tasks && LiveTask(next.tasks[n]);
      assert n in hidden;
    }
  }

  lemma ConcludeResidue(st: RunState, adv: RunState, u: Unresolved, unflushed: set<NodeId>, now: nat)
    requires Prepared(st, adv, u) && (st.run.RunRunning? || st.run.RunWaiting?)
    requires Conclude(st, adv, u, unflushed, now).st.run.RunFailed?
    ensures Residue(st, adv, Conclude(st, adv, u, unflushed, now).st, unflushed)
  {
    var hidden := unflushed * (adv.tasks.Keys - st.tasks.Keys);
    FailedWasDerived(st, adv, u, unflushed, now);
    FailedShape(st, adv, u, unflushed, now);
    NewTasksHidden(st, adv, unflushed);
    FailFastSweeps(adv, hidden);
    SweptLive(adv, AfterTransition(adv, RunFailed, hidden), hidden);
  }

  lemma ReconcileResidue(st: RunState, u: Unresolved, unflushed: set<NodeId>, now: nat)
    requires Inv(st) && (st.run.RunRunning? || st.run.RunWaiting?)
    requires AfterReconcile(st, u, unflushed, now).st.run.RunFailed?
    ensures Residue(st, Advanced(st, u, now), AfterReconcile(st, u, unflushed, now).st, unflushed)
  {
    AdvancedSound(st, u, now);
    ConcludeResidue(st, Advanced(st, u, now), u, unflushed, now);
  }

  /** Fail-fast is not complete: a reconcile of any reachable run with a failed
      node fails the run, and it leaves a live task exactly when one of the
      nodes it queues is not seen by the cancelling SELECT. */
  lemma FailFastResidue(g: Graph, input: Json, acts: seq<Action>, u: Unresolved, unflushed: set<NodeId>)
    requires Publishable(g)
    requires Execute(g, input, acts).st.run.RunRunning? || Execute(g, input, acts).st.run.RunWaiting?
    requires Exists(Execute(g, input, acts).st.nodes, NodeFailed)
    ensures var s := Execute(g, input, acts);
            var r := AfterReconcile(s.st, u, unflushed, s.clock).st;
            r.run.RunFailed? && (HasLiveTask(r) <==> unflushed * ToQueue(s.st, u, s.clock) != {})
  {
    var s := Execute(g, input, acts);
    AlwaysSane(g, input, acts);
    FailsWithItsNodes(s.st, u, unflushed, s.clock);
    ReconcileResidue(s.st, u, unflushed, s.clock);
    QueuedAsForeseen(s.st, u, s.clock);
  }

  // ----- unfinished nodes -----

  lemma SweptStatus(input: bool, parked: bool, run: RunStatus, row: NodeRun, task: Option<Task>, hidden: bool)
    requires Judge(input, parked, run, row, task) == Consistent && LiveRun(run)
    requires hidden ==> row.status.NodeQueued?
    ensures !NodeTerminal(SweptRow(row, task, hidden).status) <==> row.status.NodeWaiting? || hidden
  {
  }

  predicate LeftUnfinished(nodes: map<NodeId, NodeRun>, n: NodeId) {
    n in nodes && !NodeTerminal(nodes[n].status)
  }

  /** After `before` was advanced and its run failed, the node is unfinished
      exactly when it is parked or its new task was not seen. */
  predicate Leftover(before: RunState, adv: RunState, after: RunState, unflushed: set<NodeId>, n: NodeId) {
    LeftUnfinished(after.nodes, n) <==>
    HasStatus(adv.nodes, n, NodeWaiting) || n in unflushed * (adv.tasks.Keys - before.tasks.Keys)
  }

  lemma SweptLeftover(st: RunState, adv: RunState, next: RunState, unflushed: set<NodeId>, n: NodeId)
    requires Inv(adv) && LiveRun(adv.run) && n in adv.nodes
    requires IsSwept(adv, next, unflushed * (adv.tasks.Keys - st.tasks.Keys))
    requires HiddenQueued(adv, unflushed * (adv.tasks.Keys - st.tasks.Keys))
    ensures Leftover(st, adv, next, unflushed, n)
  {
    var hidden := unflushed * (adv.tasks.Keys - st.tasks.Keys);
    assert NodeOk(adv, n);
    SweptStatus(IsInputId(adv.graph, n), IsParkedId(adv.graph, n), adv.run, adv.nodes[n], TaskOf(adv, n), n in hidden);
  }

  lemma PreparedRow(st: RunState, adv: RunState, u: Unresolved, n: NodeId)
    requires Prepared(st, adv, u) && n in Ids(st.graph)
    ensures n in adv.nodes && Inv(adv)
  {
  }

  lemma ConcludeNodes(st: RunState, adv: RunState, u: Unresolved, unflushed: set<NodeId>, now: nat, n: NodeId)
    requires Prepared(st, adv, u) && (st.run.RunRunning? || st.run.RunWaiting?) && n in Ids(st.graph)
    requires Conclude(st, adv, u, unflushed, now).st.run.RunFailed?
    ensures Leftover(st, adv, Conclude(st, adv, u, unflushed, now).st, unflushed, n)
  {
    var hidden := unflushed * (adv.tasks.Keys - st.tasks.Keys);
    FailedWasDerived(st, adv, u, unflushed, now);
    FailedShape(st, adv, u, unflushed, now);
    NewTasksHidden(st, adv, unflushed);
    FailFastSweeps(adv, hidden);
    PreparedRow(st, adv, u, n);
    SweptLeftover(st, adv, AfterTransition(adv, RunFailed, hidden), unflushed, n);
  }

  lemma ReconcileNodes(st: RunState, u: Unresolved, unflushed: set<NodeId>, now: nat, n: NodeId)
    requires Inv(st) && (st.run.RunRunning? || st.run.RunWaiting?) && n in Ids(st.graph)
    requires AfterReconcile(st, u, unflushed, now).st.run.RunFailed?
    ensures Leftover(st, Advanced(st, u, now), AfterReconcile(st, u, unflushed, now).st, unflushed, n)
  {
    AdvancedSound(st, u, now);
    ConcludeNodes(st, Advanced(st, u, now), u, unflushed, now, n);
  }

  lemma RowExists(st: RunState, n: NodeId)
    requires Inv(st) && n in Ids(st.graph)
    ensures n in st.nodes
  {
  }

  /** A node of such a run is left unfinished exactly when it is parked and no
      timer releases it, or the reconcile queues it unseen. */
  lemma FailFastNodes(g: Graph, input: Json, acts: seq<Action>, u: Unresolved, unflushed: set<NodeId>, n: NodeId)
    requires Publishable(g) && n in Ids(g)
    requires Execute(g, input, acts).st.run.RunRunning? || Execute(g, input, acts).st.run.RunWaiting?
    requires Exists(Execute(g, input, acts).st.nodes, NodeFailed)
    ensures var s := Execute(g, input, acts);
            LeftUnfinished(AfterReconcile(s.st, u, unflushed, s.clock).st.nodes, n) <==>
            StaysParked(s.st, n, s.clock) || n in unflushed * ToQueue(s.st, u, s.clock)
  {
    var s := Execute(g, input, acts);
    AlwaysSane(g, input, acts);
    FailsWithItsNodes(s.st, u, unflushed, s.clock);
    ReconcileNodes(s.st, u, unflushed, s.clock, n);
    RowExists(s.st, n);
    AdvancedStatus(s.st, u, s.clock, n);
    QueuedAsForeseen(s.st, u, s.clock);
  }
}
