/** No lost wakeup: what each status a reconcile derives promises about the rows
    it leaves. */
module Wakeup {
  import opened Basics
  import opened StateMachines
  import opened Graphs
  import opened RunRows
  import opened Scheduling
  import opened SchedulerRules
  import opened Runtime
  import opened Invariant
  import opened LifecycleSafety
  import opened SchedulerSafety
  import opened Progress
  import opened ReconcileSafety
  import opened RuntimeSafety

  ghost predicate HasLiveTask(st: RunState) {
    exists n :: n in st.tasks && LiveTask(st.tasks[n])
  }

  // ----- closed states need no skipping -----

  lemma ClosedSkipsNothing(st: RunState)
    requires SkipClosed(st.graph, st.nodes)
    ensures SkipSet(st.graph, st.nodes) == {} && Marked(st) == st
  {
    SkipSetLeast(st.graph, st.nodes);
    assert SkipSet(st.graph, st.nodes) <= {};
    assert MarkSkipped(st.nodes, {}) == st.nodes;
  }

  lemma WorkingRow(input: bool, parked: bool, run: RunStatus, row: NodeRun, task: Option<Task>)
    requires Judge(input, parked, run, row, task) == Consistent
    ensures row.status.NodeQueued? || row.status.NodeRunning? || row.status.NodeRetrying? <==>
            task.Some? && LiveTask(task.value)
  {
  }

  /** Work is in flight exactly when some task is live. */
  lemma InFlightIsLive(st: RunState)
    requires Inv(st)
    ensures InFlight(st.nodes) <==> HasLiveTask(st)
  {
    forall n | n in st.nodes
      ensures st.nodes[n].status.NodeQueued? || st.nodes[n].status.NodeRunning? || st.nodes[n].status.NodeRetrying? <==>
              n in st.tasks && LiveTask(st.tasks[n])
    {
      assert NodeOk(st, n);
      WorkingRow(IsInputId(st.graph, n), IsParkedId(st.graph, n), st.run, st.nodes[n], TaskOf(st, n));
    }
    if HasLiveTask(st) {
      var n :| n in st.tasks && LiveTask(st.tasks[n]);
      assert n in st.nodes;
    }
  }

  /** A run derived RUNNING has a live task or a ready node. */
  lemma RunningHasWork(st: RunState)
    requires Inv(st) && LiveRun(st.run) && Publishable(st.graph) && SkipClosed(st.graph, st.nodes)
    requires DeriveRun(st.graph, st.nodes).RunRunning?
    ensures InFlight(st.nodes) || ReadySet(st.graph, st.nodes) != {}
  {
    NodesExist(st);
    NoDeadlock(st);
  }

  lemma NodesExist(st: RunState)
    requires Inv(st) && Publishable(st.graph)
    ensures st.nodes != map[]
  {
    assert st.graph.nodes[0].id in Ids(st.graph);
    assert st.graph.nodes[0].id in st.nodes;
  }

  /** A RUNNING run after scheduling: some task is live, or every ready node
      waits for its inputs to resolve. */
  ghost predicate Awake(st: RunState, u: Unresolved) {
    || HasLiveTask(st)
    || (ReadySet(st.graph, st.nodes) != {} && forall n :: n in ReadySet(st.graph, st.nodes) ==> IsPostponed(st.graph, u, n))
  }

  lemma ReadyKept(st: RunState, q: set<NodeId>, n: NodeId)
    requires Chosen(st, q) && n in ReadySet(st.graph, st.nodes) && n !in q
    ensures n in ReadySet(st.graph, MarkQueued(st.nodes, q))
  {
    QueuedEdges(st, q);
    var nodes := MarkQueued(st.nodes, q);
    var e :| e in st.graph.edges && e.target == n && EdgeActive(st.graph, st.nodes, e);
    assert HasActiveInput(st.graph, nodes, n);
    forall f | f in st.graph.edges && f.target == n && EdgeActive(st.graph, nodes, f)
      ensures HasStatus(nodes, f.source, NodeCompleted)
    {
      assert EdgeActive(st.graph, st.nodes, f);
    }
  }

  lemma ClosedSchedule(st: RunState, u: Unresolved, now: nat)
    requires st.run.RunRunning? && SkipClosed(st.graph, st.nodes)
    ensures AfterSchedule(st, u, now) == Queued(st, QueueSet(st, u), u, now, AfterSchedule(st, u, now).events)
    ensures Chosen(st, QueueSet(st, u))
  {
    ClosedSkipsNothing(st);
    ScheduleShape(st, u, now);
  }

  lemma LiveStaysLive(st: RunState, u: Unresolved, now: nat)
    requires HasLiveTask(st)
    ensures HasLiveTask(AfterSchedule(st, u, now))
  {
    ScheduleKeeps(st, u, now);
    var n :| n in st.tasks && LiveTask(st.tasks[n]);
    assert AfterSchedule(st, u, now).tasks[n] == st.tasks[n];
  }

  lemma ReadyGetsTask(st: RunState, u: Unresolved, now: nat, log: seq<Event>, x: NodeId)
    requires x in QueueSet(st, u)
    ensures HasLiveTask(Queued(st, QueueSet(st, u), u, now, log))
  {
    var next := Queued(st, QueueSet(st, u), u, now, log);
    NewTaskShape(st.graph, x, u, now);
    assert x in next.tasks && LiveTask(next.tasks[x]);
  }

  lemma ScheduledAwake(st: RunState, u: Unresolved, now: nat)
    requires Inv(st) && st.run.RunRunning? && SkipClosed(st.graph, st.nodes)
    requires HasLiveTask(st) || ReadySet(st.graph, st.nodes) != {}
    ensures Awake(AfterSchedule(st, u, now), u)
  {
    ScheduleExhausts(st, u, now);
    if HasLiveTask(st) {
      LiveStaysLive(st, u, now);
    } else {
      var x :| x in ReadySet(st.graph, st.nodes);
      ClosedSchedule(st, u, now);
      if x in QueueSet(st, u) {
        ReadyGetsTask(st, u, now, AfterSchedule(st, u, now).events, x);
      } else {
        ReadyKept(st, QueueSet(st, u), x);
      }
    }
  }

  // ----- no lost wakeup -----

  /** What the status of a reconciled run promises. */
  ghost predicate Promise(st: RunState, u: Unresolved) {
    match st.run
    case RunRunning => Awake(st, u)
    case RunWaiting =>
      && Exists(st.nodes, NodeWaiting) && Exists(st.nodes, NodePending)
      && !HasLiveTask(st) && ReadySet(st.graph, st.nodes) == {}
    case RunCompleted => forall n :: n in st.nodes ==> Settled(st.nodes[n].status)
    case RunFailed => Exists(st.nodes, NodeFailed)
    case _ => false
  }

  lemma CompletedRow(input: bool, parked: bool, row: NodeRun, task: Option<Task>)
    requires Judge(input, parked, RunCompleted, row, task) == Consistent
    ensures Settled(row.status)
  {
  }

  /** In a COMPLETED run every node is COMPLETED or SKIPPED. */
  lemma CompletedMeansDone(st: RunState)
    requires Inv(st) && st.run.RunCompleted?
    ensures forall n :: n in st.nodes ==> Settled(st.nodes[n].status)
  {
    forall n | n in st.nodes
      ensures Settled(st.nodes[n].status)
    {
      assert NodeOk(st, n);
      CompletedRow(IsInputId(st.graph, n), IsParkedId(st.graph, n), st.nodes[n], TaskOf(st, n));
    }
  }

  lemma RunningShape(st: RunState, adv: RunState, u: Unresolved, unflushed: set<NodeId>, now: nat)
    requires adv.run == st.run && (st.run.RunRunning? || st.run.RunWaiting?) && DeriveRun(adv.graph, adv.nodes).RunRunning?
    ensures Conclude(st, adv, u, unflushed, now) == Reply(AfterSchedule(Resumed(adv), u, now), Accepted)
  {
  }

  /** The advanced rows of a run that is RUNNING from here on. */
  function Resumed(adv: RunState): RunState {
    if adv.run.RunRunning? then adv else adv.(run := RunRunning, events := adv.events + RunEventsFor(RunRunning))
  }

  lemma ResumedSound(adv: RunState)
    requires Inv(adv) && (adv.run.RunRunning? || adv.run.RunWaiting?)
    ensures Inv(Resumed(adv)) && Resumed(adv).run.RunRunning?
    ensures Resumed(adv).graph == adv.graph && Resumed(adv).nodes == adv.nodes && Resumed(adv).tasks == adv.tasks
  {
    if adv.run.RunWaiting? {
      MovedRows(adv, RunRunning, RunEventsFor(RunRunning));
    }
  }

  lemma ClosedRows(st: RunState, adv: RunState, u: Unresolved)
    requires Prepared(st, adv, u) && (st.run.RunRunning? || st.run.RunWaiting?)
    ensures SkipClosed(adv.graph, adv.nodes)
  {
  }

  lemma RunningPromise(st: RunState, adv: RunState, u: Unresolved, unflushed: set<NodeId>, now: nat)
    requires Prepared(st, adv, u) && (st.run.RunRunning? || st.run.RunWaiting?) && Publishable(st.graph)
    requires DeriveRun(adv.graph, adv.nodes).RunRunning?
    ensures Conclude(st, adv, u, unflushed, now) == Reply(AfterSchedule(Resumed(adv), u, now), Accepted)
    ensures Awake(AfterSchedule(Resumed(adv), u, now), u)
  {
    ClosedRows(st, adv, u);
    RunningHasWork(adv);
    InFlightIsLive(adv);
    ResumedSound(adv);
    ScheduledAwake(Resumed(adv), u, now);
    RunningShape(st, adv, u, unflushed, now);
  }

  lemma WaitingFacts(g: Graph, nodes: map<NodeId, NodeRun>)
    requires DeriveRun(g, nodes).RunWaiting?
    ensures Exists(nodes, NodeWaiting) && !InFlight(nodes) && ReadySet(g, nodes) == {}
  {
  }

  lemma WaitingShape(st: RunState, adv: RunState, u: Unresolved, unflushed: set<NodeId>, now: nat)
    requires adv.run == st.run && (st.run.RunRunning? || st.run.RunWaiting?) && DeriveRun(adv.graph, adv.nodes).RunWaiting?
    ensures var r := Conclude(st, adv, u, unflushed, now);
            r.outcome.Accepted? && r.st == adv.(run := RunWaiting, events := r.st.events)
  {
  }

  lemma WaitingPromise(adv: RunState, u: Unresolved, log: seq<Event>)
    requires Inv(adv) && LiveRun(adv.run) && Publishable(adv.graph) && DeriveRun(adv.graph, adv.nodes).RunWaiting?
    ensures PromiseOf(adv.(run := RunWaiting, events := log), u) == Consistent
  {
    WaitingFacts(adv.graph, adv.nodes);
    WaitingHasPending(adv);
    InFlightIsLive(adv);
  }

  lemma SweptKeepsFailed(adv: RunState, hidden: set<NodeId>)
    requires Exists(adv.nodes, NodeFailed)
    ensures Exists(AfterTransition(adv, RunFailed, hidden).nodes, NodeFailed)
  {
    FailFastSweeps(adv, hidden);
    var f :| f in adv.nodes && adv.nodes[f].status == NodeFailed;
    assert AfterTransition(adv, RunFailed, hidden).nodes[f].status == NodeFailed;
  }

  ghost function PromiseOf(st: RunState, u: Unresolved): Verdict {
    if Promise(st, u) then Consistent else Broken
  }

  lemma FailedPromise(st: RunState, adv: RunState, u: Unresolved, unflushed: set<NodeId>, now: nat)
    requires adv.run == st.run && (st.run.RunRunning? || st.run.RunWaiting?) && DeriveRun(adv.graph, adv.nodes).RunFailed?
    ensures PromiseOf(Conclude(st, adv, u, unflushed, now).st, u) == Consistent
  {
    var hidden := unflushed * (adv.tasks.Keys - st.tasks.Keys);
    FailedShape(st, adv, u, unflushed, now);
    FailFastSweeps(adv, hidden);
    SweptKeepsFailed(adv, hidden);
  }

  lemma WaitingResult(adv: RunState, r: RunState, u: Unresolved)
    requires Inv(adv) && LiveRun(adv.run) && Publishable(adv.graph) && DeriveRun(adv.graph, adv.nodes).RunWaiting?
    requires r == adv.(run := RunWaiting, events := r.events)
    ensures PromiseOf(r, u) == Consistent
  {
    WaitingPromise(adv, u, r.events);
  }

  lemma WaitingConclusion(st: RunState, adv: RunState, u: Unresolved, unflushed: set<NodeId>, now: nat)
    requires Inv(adv) && adv.run == st.run && (st.run.RunRunning? || st.run.RunWaiting?) && Publishable(adv.graph)
    requires DeriveRun(adv.graph, adv.nodes).RunWaiting?
    ensures PromiseOf(Conclude(st, adv, u, unflushed, now).st, u) == Consistent
  {
    WaitingShape(st, adv, u, unflushed, now);
    WaitingResult(adv, Conclude(st, adv, u, unflushed, now).st, u);
  }

  lemma CompletedPromise(r: RunState, u: Unresolved)
    requires Inv(r) && r.run.RunCompleted?
    ensures PromiseOf(r, u) == Consistent
  {
    CompletedMeansDone(r);
  }

  lemma CompletedShape(st: RunState, adv: RunState, u: Unresolved, unflushed: set<NodeId>, now: nat)
    requires adv.run == st.run && (st.run.RunRunning? || st.run.RunWaiting?) && DeriveRun(adv.graph, adv.nodes).RunCompleted?
    requires Conclude(st, adv, u, unflushed, now).outcome.Accepted?
    ensures Conclude(st, adv, u, unflushed, now).st.run.RunCompleted?
  {
  }

  lemma CompletedConclusion(st: RunState, adv: RunState, u: Unresolved, unflushed: set<NodeId>, now: nat)
    requires Prepared(st, adv, u) && (st.run.RunRunning? || st.run.RunWaiting?) && Publishable(st.graph)
    requires adv.run == st.run && DeriveRun(adv.graph, adv.nodes).RunCompleted?
    ensures PromiseOf(Conclude(st, adv, u, unflushed, now).st, u) == Consistent
  {
    ConcludeSound(st, adv, u, unflushed, now);
    CompletedShape(st, adv, u, unflushed, now);
    CompletedPromise(Conclude(st, adv, u, unflushed, now).st, u);
  }

  lemma RunningConclusion(st: RunState, adv: RunState, u: Unresolved, unflushed: set<NodeId>, now: nat)
    requires Prepared(st, adv, u) && (st.run.RunRunning? || st.run.RunWaiting?) && Publishable(st.graph)
    requires DeriveRun(adv.graph, adv.nodes).RunRunning?
    ensures PromiseOf(Conclude(st, adv, u, unflushed, now).st, u) == Consistent
  {
    RunningPromise(st, adv, u, unflushed, now);
    ResumedSound(adv);
    ScheduleRun(Resumed(adv), u, now);
  }

  lemma ScheduleRun(st: RunState, u: Unresolved, now: nat)
    ensures AfterSchedule(st, u, now).run == st.run
  {
  }

  lemma PreparedBasics(st: RunState, adv: RunState, u: Unresolved)
    requires Prepared(st, adv, u)
    ensures Inv(adv) && adv.run == st.run && adv.graph == st.graph
  {
  }

  lemma ConcludePromise(st: RunState, adv: RunState, u: Unresolved, unflushed: set<NodeId>, now: nat)
    requires Prepared(st, adv, u) && (st.run.RunRunning? || st.run.RunWaiting?) && Publishable(st.graph)
    ensures PromiseOf(Conclude(st, adv, u, unflushed, now).st, u) == Consistent
  {
    PreparedBasics(st, adv, u);
    match DeriveRun(adv.graph, adv.nodes)
    case RunRunning => RunningConclusion(st, adv, u, unflushed, now);
    case RunWaiting => WaitingConclusion(st, adv, u, unflushed, now);
    case RunFailed => FailedPromise(st, adv, u, unflushed, now);
    case _ => CompletedConclusion(st, adv, u, unflushed, now);
  }

  /** No lost wakeup: after a reconcile of any reachable RUNNING or WAITING run,
      RUNNING means a task is live (or every ready node still waits for inputs
      to resolve), WAITING means a node is parked, nothing is live and nothing
      is ready, COMPLETED means every node is done, FAILED means one failed.
      The reconcile itself never raises. */
  lemma NoLostWakeup(g: Graph, input: Json, acts: seq<Action>, u: Unresolved, unflushed: set<NodeId>)
    requires Publishable(g)
    requires Execute(g, input, acts).st.run.RunRunning? || Execute(g, input, acts).st.run.RunWaiting?
    ensures var s := Execute(g, input, acts);
            var r := AfterReconcile(s.st, u, unflushed, s.clock);
            r.outcome.Accepted? && Promise(r.st, u)
  {
    AlwaysSane(g, input, acts);
    var s := Execute(g, input, acts);
    AdvancedSound(s.st, u, s.clock);
    ConcludeSound(s.st, Advanced(s.st, u, s.clock), u, unflushed, s.clock);
    ConcludePromise(s.st, Advanced(s.st, u, s.clock), u, unflushed, s.clock);
  }
}
