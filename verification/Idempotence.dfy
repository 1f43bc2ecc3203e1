/** A second reconcile at the same clock changes nothing. */
module Idempotence {
  import opened Basics
  import opened StateMachines
  import opened Graphs
  import opened RunRows
  import opened Scheduling
  import opened SchedulerRules
  import opened Runtime
  import opened Invariant
  import opened SchedulerSafety
  import opened ReconcileSafety
  import opened RuntimeSafety
  import opened Wakeup

  ghost predicate NothingElapsed(nodes: map<NodeId, NodeRun>, now: nat) {
    forall n :: n in nodes ==> !DueWait(nodes[n], now)
  }

  lemma PromotedElapsed(st: RunState, now: nat)
    ensures NothingElapsed(AfterPromoteWaits(st, now).nodes, now)
  {
  }

  lemma ScheduledElapsed(st: RunState, u: Unresolved, now: nat)
    requires NothingElapsed(st.nodes, now)
    ensures NothingElapsed(AfterSchedule(st, u, now).nodes, now)
  {
    if st.run.RunRunning? {
      ScheduleShape(st, u, now);
    }
  }

  lemma PromoteIdle(st: RunState, now: nat)
    requires NothingElapsed(st.nodes, now)
    ensures AfterPromoteWaits(st, now) == st
  {
    var next := AfterPromoteWaits(st, now);
    assert next.nodes == st.nodes;
    assert DueWaits(st.nodes, now) == {};
    NothingSelected(Order(st.graph));
    assert next.events == st.events;
  }

  lemma QueueNothing(st: RunState, u: Unresolved, now: nat)
    ensures MarkQueued(st.nodes, {}) == st.nodes && AddTasks(st.graph, st.tasks, {}, u, now) == st.tasks
  {
  }

  lemma ExhaustedQueue(st: RunState, u: Unresolved)
    requires Exhausted(st, u)
    ensures QueueSet(st, u) == {}
  {
  }

  lemma ScheduleIdle(st: RunState, u: Unresolved, now: nat)
    requires st.run.RunRunning? ==> Exhausted(st, u)
    ensures AfterSchedule(st, u, now) == st
  {
    if st.run.RunRunning? {
      var next := AfterSchedule(st, u, now);
      ClosedSchedule(st, u, now);
      ClosedSkipsNothing(st);
      ExhaustedQueue(st, u);
      QueueNothing(st, u, now);
      NothingSelected(Order(st.graph));
      assert next.events == st.events;
    }
  }

  lemma AdvancedIdle(st: RunState, u: Unresolved, now: nat)
    requires NothingElapsed(st.nodes, now) && (st.run.RunRunning? ==> Exhausted(st, u))
    ensures Advanced(st, u, now) == st
  {
    PromoteIdle(st, now);
    ScheduleIdle(st, u, now);
  }

  lemma AdvancedElapsed(st: RunState, u: Unresolved, now: nat)
    ensures NothingElapsed(Advanced(st, u, now).nodes, now)
  {
    PromotedElapsed(st, now);
    ScheduledElapsed(AfterPromoteWaits(st, now), u, now);
  }

  // ----- a run that stays RUNNING -----

  lemma NoFailureAppears(st: RunState, u: Unresolved, now: nat)
    requires !Exists(st.nodes, NodeFailed)
    ensures !Exists(AfterSchedule(st, u, now).nodes, NodeFailed)
  {
    if st.run.RunRunning? {
      ScheduleShape(st, u, now);
    }
  }

  lemma AwakeDerivesRunning(st: RunState, u: Unresolved)
    requires Inv(st) && Awake(st, u) && !Exists(st.nodes, NodeFailed)
    ensures DeriveRun(st.graph, st.nodes).RunRunning?
  {
    InFlightIsLive(st);
    assert !AllTerminal(st.nodes) by {
      if !InFlight(st.nodes) {
        var x :| x in ReadySet(st.graph, st.nodes);
        assert !NodeTerminal(st.nodes[x].status);
      }
    }
  }

  /** Another reconcile changes nothing and appends nothing. */
  ghost predicate Stable(st: RunState, u: Unresolved, unflushed: set<NodeId>, now: nat) {
    AfterReconcile(st, u, unflushed, now) == Reply(st, Accepted)
  }

  lemma RunningAgain(st: RunState, u: Unresolved, unflushed: set<NodeId>, now: nat)
    requires st.run.RunRunning? && NothingElapsed(st.nodes, now) && Exhausted(st, u)
    requires DeriveRun(st.graph, st.nodes).RunRunning?
    ensures Stable(st, u, unflushed, now)
  {
    AdvancedIdle(st, u, now);
    ScheduleIdle(st, u, now);
  }

  lemma WaitingAgain(st: RunState, u: Unresolved, unflushed: set<NodeId>, now: nat)
    requires st.run.RunWaiting? && NothingElapsed(st.nodes, now) && DeriveRun(st.graph, st.nodes).RunWaiting?
    ensures Stable(st, u, unflushed, now)
  {
    AdvancedIdle(st, u, now);
  }

  lemma RunningIdempotent(st: RunState, adv: RunState, u: Unresolved, unflushed: set<NodeId>, now: nat)
    requires Prepared(st, adv, u) && (st.run.RunRunning? || st.run.RunWaiting?) && Publishable(st.graph)
    requires NothingElapsed(adv.nodes, now) && DeriveRun(adv.graph, adv.nodes).RunRunning?
    ensures Stable(Conclude(st, adv, u, unflushed, now).st, u, unflushed, now)
  {
    RunningPromise(st, adv, u, unflushed, now);
    ResumedSound(adv);
    RunningSettles(Resumed(adv), u, unflushed, now);
  }

  lemma RunningSettles(moved: RunState, u: Unresolved, unflushed: set<NodeId>, now: nat)
    requires Inv(moved) && moved.run.RunRunning? && NothingElapsed(moved.nodes, now)
    requires DeriveRun(moved.graph, moved.nodes).RunRunning? && Awake(AfterSchedule(moved, u, now), u)
    ensures Stable(AfterSchedule(moved, u, now), u, unflushed, now)
  {
    var next := AfterSchedule(moved, u, now);
    ScheduleSound(moved, u, now);
    ScheduleExhausts(moved, u, now);
    ScheduledElapsed(moved, u, now);
    NoFailureAppears(moved, u, now);
    AwakeDerivesRunning(next, u);
    RunningAgain(next, u, unflushed, now);
  }

  lemma WaitingIdempotent(st: RunState, adv: RunState, u: Unresolved, unflushed: set<NodeId>, now: nat)
    requires Prepared(st, adv, u) && (st.run.RunRunning? || st.run.RunWaiting?)
    requires NothingElapsed(adv.nodes, now) && DeriveRun(adv.graph, adv.nodes).RunWaiting?
    ensures Stable(Conclude(st, adv, u, unflushed, now).st, u, unflushed, now)
  {
    WaitingShape(st, adv, u, unflushed, now);
    WaitingAgain(Conclude(st, adv, u, unflushed, now).st, u, unflushed, now);
  }

  lemma StoppedIdempotent(st: RunState, u: Unresolved, unflushed: set<NodeId>, now: nat)
    requires Inv(st) && (RunTerminal(st.run) || st.run.RunPaused?)
    ensures Stable(st, u, unflushed, now)
  {
    if st.run.RunCancelled? {
      NothingLive(st);
      IdleSweep(st);
    }
  }

  lemma ConcludeStops(st: RunState, adv: RunState, u: Unresolved, unflushed: set<NodeId>, now: nat)
    requires adv.run == st.run && (st.run.RunRunning? || st.run.RunWaiting?)
    requires Conclude(st, adv, u, unflushed, now).outcome.Accepted?
    requires DeriveRun(adv.graph, adv.nodes).RunFailed? || DeriveRun(adv.graph, adv.nodes).RunCompleted?
    ensures RunTerminal(Conclude(st, adv, u, unflushed, now).st.run)
  {
  }

  lemma TerminalIdempotent(st: RunState, adv: RunState, u: Unresolved, unflushed: set<NodeId>, now: nat)
    requires Prepared(st, adv, u) && (st.run.RunRunning? || st.run.RunWaiting?) && Publishable(st.graph)
    requires DeriveRun(adv.graph, adv.nodes).RunFailed? || DeriveRun(adv.graph, adv.nodes).RunCompleted?
    ensures Stable(Conclude(st, adv, u, unflushed, now).st, u, unflushed, now)
  {
    ConcludeSound(st, adv, u, unflushed, now);
    ConcludeStops(st, adv, u, unflushed, now);
    StoppedIdempotent(Conclude(st, adv, u, unflushed, now).st, u, unflushed, now);
  }

  lemma ConcludeTwice(st: RunState, adv: RunState, u: Unresolved, unflushed: set<NodeId>, now: nat)
    requires Prepared(st, adv, u) && (st.run.RunRunning? || st.run.RunWaiting?) && Publishable(st.graph)
    requires NothingElapsed(adv.nodes, now)
    ensures Stable(Conclude(st, adv, u, unflushed, now).st, u, unflushed, now)
  {
    match DeriveRun(adv.graph, adv.nodes)
    case RunRunning => RunningIdempotent(st, adv, u, unflushed, now);
    case RunWaiting => WaitingIdempotent(st, adv, u, unflushed, now);
    case _ => TerminalIdempotent(st, adv, u, unflushed, now);
  }

  /** Reconcile is idempotent: in any reachable state, a second call with the
      same clock changes no run, node or task row and appends no event. */
  lemma ReconcileTwice(g: Graph, input: Json, acts: seq<Action>, u: Unresolved, unflushed: set<NodeId>)
    requires Publishable(g) && !Execute(g, input, acts).st.run.RunCreated?
    ensures var s := Execute(g, input, acts);
            var r := AfterReconcile(s.st, u, unflushed, s.clock);
            AfterReconcile(r.st, u, unflushed, s.clock) == Reply(r.st, Accepted)
  {
    AlwaysSane(g, input, acts);
    var st, now := Execute(g, input, acts).st, Execute(g, input, acts).clock;
    if st.run.RunRunning? || st.run.RunWaiting? {
      AdvancedSound(st, u, now);
      AdvancedElapsed(st, u, now);
      ConcludeTwice(st, Advanced(st, u, now), u, unflushed, now);
    } else {
      StoppedIdempotent(st, u, unflushed, now);
    }
  }
}
