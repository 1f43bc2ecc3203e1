/** The run's own events: the log tells every move of the run, in order, and no
    other. */
module RunTrace {
  import opened Basics
  import opened StateMachines
  import opened Graphs
  import opened RunRows
  import opened Scheduling
  import opened SchedulerRules
  import opened QueueRules
  import opened LifecycleRules
  import opened Runtime

  /** The events that belong to the run and not to one of its nodes. */
  function RunPart(events: seq<Event>): seq<Event> {
    if events == [] then []
    else RunPart(events[..|events| - 1]) + if events[|events| - 1].node.None? then [events[|events| - 1]] else []
  }

  /** What a reconcile logs when it moves the run to `target`. */
  function Reached(target: RunStatus): seq<Event> {
    match target
    case RunWaiting => [Event(WorkflowWaiting, None)]
    case RunRunning => [Event(WorkflowResumed, None)]
    case RunCompleted => [Event(WorkflowCompleted, None)]
    case RunFailed => [Event(WorkflowFailed, None)]
    case _ => []
  }

  /** What is logged for the run: that it was started or cancelled, and where a
      reconcile moved it. Pauses and resumptions by hand are not. */
  function Announces(s: System, a: Action): seq<Event> {
    var before, after := s.st.run, Step(s, a).st.run;
    if !ReplyTo(s, a).outcome.Accepted? then []
    else if a.StartRun? then [Event(WorkflowStarted, None)]
    else if a.CancelRun? then [Event(WorkflowCancelled, None)]
    else if !a.ReconcileRun? || after == before then []
    else Reached(after)
  }

  lemma {:induction false} RunPartConcat(a: seq<Event>, b: seq<Event>)
    ensures RunPart(a + b) == RunPart(a) + RunPart(b)
    decreases |b|
  {
    if b == [] {
      assert a + b == a;
    } else {
      var init := b[..|b| - 1];
      RunPartConcat(a, init);
      assert (a + b)[..|a + b| - 1] == a + init && (a + b)[|a + b| - 1] == b[|b| - 1];
    }
  }

  predicate OfNodes(log: seq<Event>) {
    forall i :: 0 <= i < |log| ==> log[i].node.Some?
  }

  lemma {:induction false} NodesHidden(log: seq<Event>)
    requires OfNodes(log)
    ensures RunPart(log) == []
    decreases |log|
  {
    if log != [] {
      NodesHidden(log[..|log| - 1]);
    }
  }

  lemma HiddenAfter(events: seq<Event>, log: seq<Event>)
    requires OfNodes(log)
    ensures RunPart(events + log) == RunPart(events)
  {
    RunPartConcat(events, log);
    NodesHidden(log);
  }

  lemma {:induction false} ResumesOfNodes(ids: seq<NodeId>)
    ensures OfNodes(ResumeEvents(ids))
    decreases |ids|
  {
    if ids != [] {
      ResumesOfNodes(ids[..|ids| - 1]);
    }
  }

  lemma OneShown(events: seq<Event>, e: Event)
    requires e.node.None?
    ensures RunPart(events + [e]) == RunPart(events) + [e]
  {
    assert (events + [e])[..|events + [e]| - 1] == events;
  }

  // ----- one transaction -----

  lemma ScheduleHidden(st: RunState, u: Unresolved, now: nat)
    ensures RunPart(AfterSchedule(st, u, now).events) == RunPart(st.events)
  {
    if st.run.RunRunning? {
      var s := SkipSet(st.graph, st.nodes);
      var q := QueueableSet(st.graph, MarkSkipped(st.nodes, s), st.tasks, u);
      HiddenAfter(st.events, NodeEvents(NodeSkippedEvent, Select(Order(st.graph), s)));
      HiddenAfter(st.events + NodeEvents(NodeSkippedEvent, Select(Order(st.graph), s)), NodeEvents(NodeQueuedEvent, Select(Order(st.graph), q)));
    }
  }

  lemma CancelHidden(st: RunState, hidden: set<NodeId>)
    ensures RunPart(AfterCancelTasks(st, hidden).events) == RunPart(st.events)
  {
    HiddenAfter(st.events, NodeEvents(NodeCancelledEvent, Select(Order(st.graph), Cancellable(st.tasks, hidden))));
  }

  lemma RingHidden(st: RunState, now: nat)
    ensures RunPart(AfterPromoteWaits(st, now).events) == RunPart(st.events)
  {
    ResumesOfNodes(Select(Order(st.graph), DueWaits(st.nodes, now)));
    HiddenAfter(st.events, ResumeEvents(Select(Order(st.graph), DueWaits(st.nodes, now))));
  }

  lemma TransitionShown(st: RunState, derived: RunStatus, hidden: set<NodeId>)
    requires derived.RunWaiting? || derived.RunRunning? || derived.RunCompleted? || derived.RunFailed?
    ensures RunPart(AfterTransition(st, derived, hidden).events) == RunPart(st.events) + Reached(derived)
  {
    var moved := st.(run := derived);
    CancelHidden(moved, hidden);
    var swept := if derived == RunFailed then AfterCancelTasks(moved, hidden) else moved;
    OneShown(swept.events, RunEventsFor(derived)[0]);
  }

  lemma DerivedKinds(g: Graph, nodes: map<NodeId, NodeRun>)
    ensures var d := DeriveRun(g, nodes);
            d.RunWaiting? || d.RunRunning? || d.RunCompleted? || d.RunFailed?
  {
  }

  lemma ScheduleRunKept(st: RunState, u: Unresolved, now: nat)
    ensures AfterSchedule(st, u, now).run == st.run
  {
  }

  lemma TransitionRun(st: RunState, derived: RunStatus, hidden: set<NodeId>)
    ensures AfterTransition(st, derived, hidden).run == derived
  {
  }

  lemma ConcludeStays(st: RunState, adv: RunState, u: Unresolved, unflushed: set<NodeId>, now: nat)
    requires adv.run == st.run && DeriveRun(adv.graph, adv.nodes) == st.run
    ensures var r := Conclude(st, adv, u, unflushed, now);
            r.outcome.Accepted? && r.st.run == st.run && RunPart(r.st.events) == RunPart(adv.events)
  {
    ScheduleHidden(adv, u, now);
    ScheduleRunKept(adv, u, now);
  }

  lemma ConcludeMoves(st: RunState, adv: RunState, u: Unresolved, unflushed: set<NodeId>, now: nat)
    requires DeriveRun(adv.graph, adv.nodes) != st.run && RunMay(st.run, DeriveRun(adv.graph, adv.nodes))
    ensures var r, derived := Conclude(st, adv, u, unflushed, now), DeriveRun(adv.graph, adv.nodes);
            r.outcome.Accepted? && r.st.run == derived && RunPart(r.st.events) == RunPart(adv.events) + Reached(derived)
  {
    var derived, hidden := DeriveRun(adv.graph, adv.nodes), unflushed * (adv.tasks.Keys - st.tasks.Keys);
    var moved := AfterTransition(adv, derived, hidden);
    DerivedKinds(adv.graph, adv.nodes);
    TransitionShown(adv, derived, hidden);
    TransitionRun(adv, derived, hidden);
    ScheduleHidden(moved, u, now);
    ScheduleRunKept(moved, u, now);
  }

  lemma ConcludeShown(st: RunState, adv: RunState, u: Unresolved, unflushed: set<NodeId>, now: nat)
    requires adv.run == st.run
    ensures var r := Conclude(st, adv, u, unflushed, now);
            r.outcome.Accepted? ==> RunPart(r.st.events) == RunPart(adv.events) + (if r.st.run == st.run then [] else Reached(r.st.run))
    ensures !Conclude(st, adv, u, unflushed, now).outcome.Accepted? ==> Conclude(st, adv, u, unflushed, now).st == st
  {
    var derived := DeriveRun(adv.graph, adv.nodes);
    if derived == st.run {
      ConcludeStays(st, adv, u, unflushed, now);
    } else if RunMay(st.run, derived) {
      ConcludeMoves(st, adv, u, unflushed, now);
    }
  }

  lemma ReconcileShown(st: RunState, u: Unresolved, unflushed: set<NodeId>, now: nat)
    ensures var r := AfterReconcile(st, u, unflushed, now);
            r.outcome.Accepted? ==> RunPart(r.st.events) == RunPart(st.events) + (if r.st.run == st.run then [] else Reached(r.st.run))
    ensures !AfterReconcile(st, u, unflushed, now).outcome.Accepted? ==> AfterReconcile(st, u, unflushed, now).st == st
  {
    CancelHidden(st, {});
    RingHidden(st, now);
    ScheduleHidden(AfterPromoteWaits(st, now), u, now);
    ScheduleRunKept(AfterPromoteWaits(st, now), u, now);
    ConcludeShown(st, Advanced(st, u, now), u, unflushed, now);
  }

  // ----- one action -----

  lemma ReconcileAnnounced(s: System, a: Action)
    requires a.ReconcileRun? && Follows(s, a)
    ensures RunPart(Step(s, a).st.events) == RunPart(s.st.events) + Announces(s, a)
  {
    ReconcileShown(s.st, a.unresolved, a.unflushed, s.clock);
  }

  lemma LeaseHidden(s: System, a: Action)
    requires a.Claim? || a.StartTask? || a.Renew? || a.RunnerClaim? || a.Heartbeat?
    ensures RunPart(Answer(s, a).st.events) == RunPart(s.st.events)
  {
    HiddenAfter(s.st.events, [NodeEvent(NodeStarted, a.node)]);
    HiddenAfter(s.st.events, []);
  }

  lemma CompletionHidden(s: System, a: Action)
    requires a.Complete?
    ensures RunPart(Answer(s, a).st.events) == RunPart(s.st.events)
  {
    HiddenAfter(s.st.events, [] + [NodeEvent(NodeCompletedEvent, a.node)]);
  }

  lemma FailureHidden(s: System, a: Action)
    requires a.Fail?
    ensures RunPart(Answer(s, a).st.events) == RunPart(s.st.events)
  {
    HiddenAfter(s.st.events, [] + [NodeEvent(NodeFailedEvent, a.node)]);
  }

  lemma RetryHidden(s: System, a: Action)
    requires a.Retry?
    ensures RunPart(Answer(s, a).st.events) == RunPart(s.st.events)
  {
    HiddenAfter(s.st.events, [] + [NodeEvent(NodeRetryingEvent, a.node)]);
  }

  lemma ParkHidden(s: System, a: Action)
    requires a.Park?
    ensures RunPart(Answer(s, a).st.events) == RunPart(s.st.events)
  {
    HiddenAfter(s.st.events, [NodeEvent(NodeWaitingEvent, a.node)]);
  }

  lemma ResultHidden(s: System, a: Action)
    requires a.SubmitResult?
    ensures RunPart(Answer(s, a).st.events) == RunPart(s.st.events)
  {
    var log := LogLines(a.node, a.result.logs);
    if a.result.ok {
      HiddenAfter(s.st.events, log + [NodeEvent(NodeCompletedEvent, a.node)]);
    } else {
      FailureResultHidden(s, a);
    }
  }

  lemma FailureResultHidden(s: System, a: Action)
    requires a.SubmitResult? && !a.result.ok
    ensures RunPart(Answer(s, a).st.events) == RunPart(s.st.events)
  {
    var log := LogLines(a.node, a.result.logs);
    HiddenAfter(s.st.events, log + [NodeEvent(NodeFailedEvent, a.node)]);
    HiddenAfter(s.st.events, log + [NodeEvent(NodeRetryingEvent, a.node)]);
  }

  lemma RepairHidden(s: System, a: Action)
    requires a.Recover? || a.PromoteRetries?
    ensures RunPart(Answer(s, a).st.events) == RunPart(s.st.events)
  {
    if a.PromoteRetries? {
      HiddenAfter(s.st.events, NodeEvents(NodeQueuedEvent, Select(Order(s.st.graph), DueRetries(s.st.tasks, a.locked, s.clock))));
    }
  }

  lemma HumanHidden(s: System, a: Action)
    requires a.Approve? || a.Reject? || a.SubmitInput?
    ensures RunPart(Answer(s, a).st.events) == RunPart(s.st.events)
  {
    HiddenAfter(s.st.events, [NodeEvent(NodeResumed, a.node), NodeEvent(NodeCompletedEvent, a.node)]);
    HiddenAfter(s.st.events, [NodeEvent(NodeResumed, a.node), NodeEvent(NodeFailedEvent, a.node)]);
  }

  lemma StartShown(s: System, a: Action)
    requires a.StartRun?
    ensures RunPart(Step(s, a).st.events) == RunPart(s.st.events) + Announces(s, a)
  {
    OneShown(s.st.events, Event(WorkflowStarted, None));
  }

  lemma MoveHidden(s: System, a: Action)
    requires a.Tick? || a.PauseRun? || a.ResumeRun?
    ensures RunPart(Step(s, a).st.events) == RunPart(s.st.events) + Announces(s, a)
  {
    HiddenAfter(s.st.events, []);
  }

  lemma CancelRunShown(st: RunState)
    ensures var r := AfterCancelRun(st);
            RunPart(r.st.events) == RunPart(st.events) + if r.outcome.Accepted? then [Event(WorkflowCancelled, None)] else []
  {
    if !RunTerminal(st.run) {
      var moved := st.(run := RunCancelled, events := st.events + [RunEvent(WorkflowCancelled)]);
      OneShown(st.events, Event(WorkflowCancelled, None));
      CancelHidden(moved.(nodes := CancelNodes(moved.nodes)), {});
    }
  }

  lemma CancelShown(s: System, a: Action)
    requires a.CancelRun?
    ensures RunPart(Step(s, a).st.events) == RunPart(s.st.events) + Announces(s, a)
  {
    CancelRunShown(s.st);
  }

  lemma StepAnnounced(s: System, a: Action)
    ensures RunPart(Step(s, a).st.events) == RunPart(s.st.events) + Announces(s, a)
  {
    if Follows(s, a) {
      if a.ReconcileRun? {
        ReconcileAnnounced(s, a);
      } else if a.ScheduleReady? {
        ScheduleHidden(s.st, a.unresolved, s.clock);
      } else if a.StartRun? {
        StartShown(s, a);
      } else if a.CancelRun? {
        CancelShown(s, a);
      } else if a.Tick? || a.PauseRun? || a.ResumeRun? {
        MoveHidden(s, a);
      } else if a.Approve? || a.Reject? || a.SubmitInput? {
        HumanHidden(s, a);
      } else if a.Recover? || a.PromoteRetries? {
        RepairHidden(s, a);
      } else if a.SubmitResult? {
        ResultHidden(s, a);
      } else if a.Complete? {
        CompletionHidden(s, a);
      } else if a.Fail? {
        FailureHidden(s, a);
      } else if a.Retry? {
        RetryHidden(s, a);
      } else if a.Park? {
        ParkHidden(s, a);
      } else {
        LeaseHidden(s, a);
      }
    }
  }

  /** What the actions announce, one after the other. */
  function Announced(g: Graph, input: Json, acts: seq<Action>): seq<Event> {
    if acts == [] then []
    else
      var init := acts[..|acts| - 1];
      Announced(g, input, init) + Announces(Execute(g, input, init), acts[|acts| - 1])
  }

  /** The run's part of the log is exactly the series of its moves: started,
      cancelled, or moved by a reconcile to another status. */
  lemma {:induction false} RunIsLogged(g: Graph, input: Json, acts: seq<Action>)
    ensures RunPart(Execute(g, input, acts).st.events) == Announced(g, input, acts)
    decreases |acts|
  {
    if acts != [] {
      var init := acts[..|acts| - 1];
      RunIsLogged(g, input, init);
      StepAnnounced(Execute(g, input, init), acts[|acts| - 1]);
    }
  }
}
