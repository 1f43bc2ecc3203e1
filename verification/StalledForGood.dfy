/** A stalled run without parked nodes is stuck until somebody cancels it. */
module StalledForGood {
  import opened Basics
  import opened StateMachines
  import opened Graphs
  import opened RunRows
  import opened Scheduling
  import opened SchedulerRules
  import opened LifecycleRules
  import opened Runtime
  import opened Invariant
  import opened SchedulerSafety
  import opened RuntimeSafety
  import opened History
  import opened Wakeup
  import opened Idempotence
  import opened FailFast
  import opened ContextSafety
  import opened Dispatching
  import opened Stall
  import opened Revival

  /** Nothing is live, parked or failed, and the ready nodes, of which there are
      some, all fail to resolve. */
  ghost predicate Stuck(st: RunState, env: Env) {
    && !HasLiveTask(st) && !Exists(st.nodes, NodeWaiting) && !Exists(st.nodes, NodeFailed)
    && ReadySet(st.graph, st.nodes) != {} && Exhausted(st, FailuresIn(st.graph, st.nodes, env))
  }

  /** The run as it was, at most paused, or cancelled. */
  ghost predicate StillStuck(st0: RunState, st: RunState) {
    && st.graph == st0.graph && st.tasks == st0.tasks
    && (((st.run.RunRunning? || st.run.RunPaused?) && st.nodes == st0.nodes) || st.run.RunCancelled?)
  }

  lemma NoTimersLeft(nodes: map<NodeId, NodeRun>, now: nat)
    requires !Exists(nodes, NodeWaiting)
    ensures NothingElapsed(nodes, now) && MarkElapsed(nodes, now) == nodes
  {
  }

  lemma StuckDerives(st: RunState, env: Env)
    requires Inv(st) && Stuck(st, env)
    ensures DeriveRun(st.graph, st.nodes).RunRunning?
  {
    InFlightIsLive(st);
    DerivesRunning(st.graph, st.nodes);
  }

  lemma StuckStable(st: RunState, unflushed: set<NodeId>, now: nat, env: Env)
    requires Inv(st) && Stuck(st, env) && st.run.RunRunning?
    ensures Stable(st, FailuresIn(st.graph, st.nodes, env), unflushed, now)
  {
    NoTimersLeft(st.nodes, now);
    StuckDerives(st, env);
    RunningAgain(st, FailuresIn(st.graph, st.nodes, env), unflushed, now);
  }

  lemma StableStep(s: System, u: Unresolved, unflushed: set<NodeId>)
    requires s.st.run.RunRunning? && Stable(s.st, u, unflushed, s.clock)
    ensures Step(s, ReconcileRun(u, unflushed)).st == s.st
  {
  }

  lemma StuckReconcile(s: System, a: Action, env: Env)
    requires Inv(s.st) && Stuck(s.st, env) && s.st.run.RunRunning? && a.ReconcileRun? && Honest(s, a, env)
    ensures Step(s, a).st == s.st
  {
    NoTimersLeft(s.st.nodes, s.clock);
    StuckStable(s.st, a.unflushed, s.clock, env);
    StableStep(s, a.unresolved, a.unflushed);
  }

  lemma StuckSchedule(s: System, a: Action, env: Env)
    requires Stuck(s.st, env) && a.ScheduleReady? && Honest(s, a, env)
    ensures Step(s, a).st == s.st
  {
    ScheduleIdle(s.st, a.unresolved, s.clock);
  }

  lemma StuckHuman(s: System, a: Action, env: Env)
    requires Stuck(s.st, env) && (a.Approve? || a.Reject? || a.SubmitInput?) && Honest(s, a, env)
    ensures Step(s, a).st.nodes == s.st.nodes && Step(s, a).st.tasks == s.st.tasks
    ensures Step(s, a).st.run == s.st.run && Step(s, a).st.graph == s.st.graph
  {
    HumanShape(s, a, env);
  }

  lemma CancelKeepsTasks(st: RunState)
    requires !HasLiveTask(st)
    ensures AfterCancelTasks(st, {}).tasks == st.tasks && AfterCancelTasks(st, {}).run == st.run
  {
    assert Cancellable(st.tasks, {}) == {};
    assert MarkTasksCancelled(st.tasks, {}) == st.tasks;
  }

  lemma StuckControl(s: System, a: Action)
    requires !HasLiveTask(s.st) && (s.st.run.RunRunning? || s.st.run.RunPaused?)
    requires a.Tick? || a.StartRun? || a.PauseRun? || a.ResumeRun? || a.CancelRun?
    ensures StillStuck(s.st, Step(s, a).st)
  {
    if a.CancelRun? {
      var moved := s.st.(run := RunCancelled, events := s.st.events + [RunEvent(WorkflowCancelled)]);
      CancelKeepsTasks(moved.(nodes := CancelNodes(moved.nodes)));
    }
  }

  lemma UnchangedIsStuck(st: RunState, next: RunState)
    requires (st.run.RunRunning? || st.run.RunPaused?) && next == st
    ensures StillStuck(st, next)
  {
  }

  lemma StuckScheduling(s: System, a: Action, env: Env)
    requires Inv(s.st) && Stuck(s.st, env) && (s.st.run.RunRunning? || s.st.run.RunPaused?)
    requires Honest(s, a, env) && (a.ReconcileRun? || a.ScheduleReady?)
    ensures Step(s, a).st == s.st
  {
    if a.ScheduleReady? {
      StuckSchedule(s, a, env);
    } else if s.st.run.RunRunning? {
      StuckReconcile(s, a, env);
    } else {
      PausedLull(s, a.unresolved, a.unflushed);
    }
  }

  lemma StuckQueue(s: System, a: Action)
    requires !HasLiveTask(s.st) && !a.ReconcileRun? && !a.ScheduleReady? && !a.Approve? && !a.Reject? && !a.SubmitInput?
    requires !a.Tick? && !a.StartRun? && !a.PauseRun? && !a.ResumeRun? && !a.CancelRun?
    ensures Step(s, a).st == s.st
  {
    if a.RunnerClaim? || a.Heartbeat? || a.SubmitResult? {
      RunnerIdle(s, a);
    } else if a.Recover? || a.PromoteRetries? {
      RepairIdle(s, a);
    } else {
      QueueIdle(s, a);
    }
  }

  lemma StuckStep(s: System, a: Action, env: Env)
    requires Inv(s.st) && Stuck(s.st, env) && (s.st.run.RunRunning? || s.st.run.RunPaused?) && Honest(s, a, env)
    ensures StillStuck(s.st, Step(s, a).st)
  {
    if a.ReconcileRun? || a.ScheduleReady? {
      StuckScheduling(s, a, env);
      UnchangedIsStuck(s.st, Step(s, a).st);
    } else if a.Approve? || a.Reject? || a.SubmitInput? {
      StuckHuman(s, a, env);
    } else if a.Tick? || a.StartRun? || a.PauseRun? || a.ResumeRun? || a.CancelRun? {
      StuckControl(s, a);
    } else {
      StuckQueue(s, a);
      UnchangedIsStuck(s.st, Step(s, a).st);
    }
  }

  lemma CancelledStays(s: System, a: Action)
    requires Sane(s) && s.st.run.RunCancelled?
    ensures Step(s, a).st == s.st
  {
    StepSane(s, a);
    LawfulSince(s.st, Step(s, a).st, PermitOf(s, a));
  }

  lemma SameRowsStuck(st: RunState, later: RunState, env: Env)
    requires Stuck(st, env) && later.graph == st.graph && later.nodes == st.nodes && later.tasks == st.tasks
    ensures Stuck(later, env)
  {
  }

  lemma {:induction false} StuckRun(s: System, more: seq<Action>, env: Env)
    requires Sane(s) && Stuck(s.st, env) && s.st.run.RunRunning? && HonestFrom(s, more, env)
    ensures StillStuck(s.st, RunFrom(s, more).st)
    decreases |more|
  {
    if more != [] {
      var init, last := more[..|more| - 1], more[|more| - 1];
      var mid := RunFrom(s, init);
      StuckRun(s, init, env);
      SaneRun(s, init);
      if mid.st.run.RunCancelled? {
        CancelledStays(mid, last);
      } else {
        SameRowsStuck(s.st, mid.st, env);
        StuckStep(mid, last, env);
      }
    }
  }

  // ----- the reconcile that leaves it -----

  lemma SkippedOutputs(nodes: map<NodeId, NodeRun>, s: set<NodeId>)
    ensures OutputsOf(MarkSkipped(nodes, s)) == OutputsOf(nodes)
  {
  }

  lemma StalledIsStuck(st: RunState, unflushed: set<NodeId>, now: nat, env: Env)
    requires Inv(st) && Publishable(st.graph) && (st.run.RunRunning? || st.run.RunWaiting?)
    requires var r := AfterReconcile(st, FailuresIn(st.graph, MarkElapsed(st.nodes, now), env), unflushed, now).st;
             r.run.RunRunning? && !HasLiveTask(r) && !Exists(r.nodes, NodeWaiting)
    ensures Stuck(AfterReconcile(st, FailuresIn(st.graph, MarkElapsed(st.nodes, now), env), unflushed, now).st, env)
  {
    var u := FailuresIn(st.graph, MarkElapsed(st.nodes, now), env);
    var r := AfterReconcile(st, u, unflushed, now).st;
    StallForeseen(st, u, unflushed, now);
    ReconcileRuns(st, u, unflushed, now);
    ReconciledFacts(r, u, now);
    ReconcileSameGraph(st, u, unflushed, now);
    SkippedOutputs(TimersElapsed(st, now), SkipSet(st.graph, TimersElapsed(st, now)));
    SameFailures(st.graph, r.nodes, MarkElapsed(st.nodes, now), env);
  }

  lemma ReconcileSameGraph(st: RunState, u: Unresolved, unflushed: set<NodeId>, now: nat)
    ensures AfterReconcile(st, u, unflushed, now).st.graph == st.graph
  {
  }

  /** A stall without parked nodes is final: if a reconcile whose report is true
      leaves a reachable run RUNNING with no live task and no parked node, then in
      every continuation no task is ever live, no row changes, and the run is
      RUNNING or PAUSED until it is cancelled. No recovery pass helps. */
  lemma StalledForever(g: Graph, input: Json, acts: seq<Action>, unflushed: set<NodeId>, more: seq<Action>, env: Env)
    requires Publishable(g)
    requires Execute(g, input, acts).st.run.RunRunning? || Execute(g, input, acts).st.run.RunWaiting?
    requires var s := Stalled(g, input, acts, unflushed, env);
             && s.st.run.RunRunning? && !HasLiveTask(s.st) && !Exists(s.st.nodes, NodeWaiting)
             && HonestFrom(s, more, env)
    ensures var s := Stalled(g, input, acts, unflushed, env);
            StillStuck(s.st, RunFrom(s, more).st) && !HasLiveTask(RunFrom(s, more).st)
  {
    var s := Execute(g, input, acts);
    var u := FailuresIn(s.st.graph, MarkElapsed(s.st.nodes, s.clock), env);
    AlwaysSane(g, input, acts);
    StepSane(s, ReconcileRun(u, unflushed));
    ReconcileReply(s, u, unflushed);
    StalledIsStuck(s.st, unflushed, s.clock, env);
    StuckRun(Stalled(g, input, acts, unflushed, env), more, env);
  }

  /** The state after an honest reconcile of a reachable run. */
  function Stalled(g: Graph, input: Json, acts: seq<Action>, unflushed: set<NodeId>, env: Env): System {
    var s := Execute(g, input, acts);
    Step(s, ReconcileRun(FailuresIn(s.st.graph, MarkElapsed(s.st.nodes, s.clock), env), unflushed))
  }

  lemma ReconcileReply(s: System, u: Unresolved, unflushed: set<NodeId>)
    requires !s.st.run.RunCreated?
    ensures Step(s, ReconcileRun(u, unflushed)).st == AfterReconcile(s.st, u, unflushed, s.clock).st
  {
  }
}
