/** Wait timers: a wait of so many seconds ends no earlier, whatever happens in
    between, and with the first reconcile after that. */
module Timers {
  import opened Basics
  import opened StateMachines
  import opened Graphs
  import opened RunRows
  import opened Scheduling
  import opened SchedulerRules
  import opened Runtime
  import opened Invariant
  import opened RuntimeSafety
  import opened ReconcileSafety
  import opened History
  import opened Recovery
  import opened RowOrigins

  /** The node is a wait timer. */
  predicate IsWait(g: Graph, n: NodeId) {
    var node := FindNode(g.nodes, n);
    node.Some? && node.value.nodeType.Logic? && node.value.subtype == "wait"
  }

  /** The action is an accepted report that parks the timer `n` for this long. */
  predicate SetsTimer(s: System, a: Action, n: NodeId, duration: int) {
    a.Park? && a.node == n && a.duration == duration && IsWait(s.st.graph, n) && ReplyTo(s, a).outcome.Accepted?
  }

  /** The row of a timer that was set to `metadata` and is up at `at`: still
      waiting, cancelled with its run, or completed, at its time or later. */
  predicate Timing(row: NodeRun, at: nat, metadata: map<string, Json>, now: nat) {
    || (row.status.NodeWaiting? && row.parking == Some(Parking("WAIT_TIMER", metadata)))
    || row.status.NodeCancelled?
    || (row.status.NodeCompleted? && row.output == Some(Obj(metadata)) && at <= now)
  }

  predicate Set(metadata: map<string, Json>, at: nat) {
    "resume_at" in metadata && metadata["resume_at"] == Num(at)
  }

  // ----- one step -----

  lemma WaitingTask(input: bool, parked: bool, run: RunStatus, row: NodeRun, task: Option<Task>)
    requires Judge(input, parked, run, row, task) == Consistent && row.status.NodeWaiting?
    ensures task.Some? && task.value.status.TaskCompleted?
  {
  }

  lemma CompletedTaskRow(input: bool, parked: bool, run: RunStatus, row: NodeRun, task: Option<Task>)
    requires Judge(input, parked, run, row, task) == Consistent && task.Some? && task.value.status.TaskCompleted?
    ensures row.status.NodeWaiting? || row.status.NodeCompleted? || row.status.NodeFailed? || row.status.NodeCancelled?
  {
  }

  lemma CancelledRow(input: bool, parked: bool, run: RunStatus, row: NodeRun, task: Option<Task>)
    requires Judge(input, parked, run, row, task) == Consistent && row.status.NodeCancelled?
    ensures RunTerminal(run)
  {
  }

  /** The task of a WAITING node is over, and stays as it is. */
  lemma WaitingTaskStays(s: System, a: Action, n: NodeId)
    requires Sane(s) && HasStatus(s.st.nodes, n, NodeWaiting)
    ensures n in s.st.tasks && s.st.tasks[n].status.TaskCompleted?
    ensures n in Step(s, a).st.tasks && Step(s, a).st.tasks[n] == s.st.tasks[n]
  {
    assert NodeOk(s.st, n);
    WaitingTask(IsInputId(s.st.graph, n), IsParkedId(s.st.graph, n), s.st.run, s.st.nodes[n], TaskOf(s.st, n));
    StepSane(s, a);
    LawfulSince(s.st, Step(s, a).st, PermitOf(s, a));
  }

  /** A report about a task that is over changes nothing. */
  lemma LateReport(s: System, a: Action, n: NodeId)
    requires n in s.st.tasks && s.st.tasks[n].status.TaskCompleted?
    requires (a.Complete? || a.Fail? || a.Park? || a.SubmitResult?) && a.node == n
    ensures Step(s, a).st == s.st
  {
  }

  /** What becomes of a waiting timer in one step. */
  lemma WaitingMoves(s: System, a: Action, n: NodeId)
    requires Sane(s) && HasStatus(s.st.nodes, n, NodeWaiting) && IsWait(s.st.graph, n)
    ensures n in Step(s, a).st.nodes
    ensures var row, row' := s.st.nodes[n], Step(s, a).st.nodes[n];
            || row' == row || row'.status.NodeCancelled?
            || (row'.status.NodeCompleted? && TimerUp(row, s.clock) && row'.output == Some(Obj(row.parking.value.metadata)))
  {
    WaitingTaskStays(s, a, n);
    StepExplained(s, a, n);
    if (a.Complete? || a.Fail? || a.Park? || a.SubmitResult?) && a.node == n {
      LateReport(s, a, n);
    } else {
      StepSane(s, a);
      WaitingOrOver(Step(s, a).st, n);
      ExplainedWait(s, a, n, s.st.nodes[n], Step(s, a).st.nodes[n]);
    }
  }

  lemma ExplainedWait(s: System, a: Action, n: NodeId, row: NodeRun, row': NodeRun)
    requires n in s.st.nodes && s.st.nodes[n] == row && row.status.NodeWaiting? && IsWait(s.st.graph, n)
    requires Explained(s, a, n, row, row') && !((a.Complete? || a.Fail? || a.Park? || a.SubmitResult?) && a.node == n)
    requires row'.status.NodeWaiting? || row'.status.NodeCompleted? || row'.status.NodeFailed? || row'.status.NodeCancelled?
    ensures || row' == row || row'.status.NodeCancelled?
            || (row'.status.NodeCompleted? && TimerUp(row, s.clock) && row'.output == Some(Obj(row.parking.value.metadata)))
  {
  }

  lemma WaitingOrOver(st: RunState, n: NodeId)
    requires Inv(st) && n in st.nodes && n in st.tasks && st.tasks[n].status.TaskCompleted?
    ensures var status := st.nodes[n].status;
            status.NodeWaiting? || status.NodeCompleted? || status.NodeFailed? || status.NodeCancelled?
  {
    assert NodeOk(st, n);
    CompletedTaskRow(IsInputId(st.graph, n), IsParkedId(st.graph, n), st.run, st.nodes[n], TaskOf(st, n));
  }

  lemma CancelledStays(s: System, a: Action, n: NodeId)
    requires Sane(s) && HasStatus(s.st.nodes, n, NodeCancelled)
    ensures Step(s, a).st == s.st
  {
    assert NodeOk(s.st, n);
    CancelledRow(IsInputId(s.st.graph, n), IsParkedId(s.st.graph, n), s.st.run, s.st.nodes[n], TaskOf(s.st, n));
    StepSane(s, a);
    LawfulSince(s.st, Step(s, a).st, PermitOf(s, a));
  }

  lemma CompletedFrozen(s: System, a: Action, n: NodeId)
    requires Sane(s) && HasStatus(s.st.nodes, n, NodeCompleted)
    ensures n in Step(s, a).st.nodes && Step(s, a).st.nodes[n] == s.st.nodes[n]
  {
    StepSane(s, a);
    LawfulSince(s.st, Step(s, a).st, PermitOf(s, a));
    assert Settled(s.st.nodes[n].status);
  }

  lemma TimingStep(s: System, a: Action, n: NodeId, at: nat, metadata: map<string, Json>)
    requires Sane(s) && IsWait(s.st.graph, n) && Set(metadata, at)
    requires n in s.st.nodes && Timing(s.st.nodes[n], at, metadata, s.clock)
    ensures n in Step(s, a).st.nodes && Timing(Step(s, a).st.nodes[n], at, metadata, Step(s, a).clock)
  {
    ClockAdvances(s, a);
    if s.st.nodes[n].status.NodeWaiting? {
      WaitingMoves(s, a, n);
    } else if s.st.nodes[n].status.NodeCompleted? {
      CompletedFrozen(s, a, n);
    } else {
      CancelledStays(s, a, n);
    }
  }

  // ----- every continuation -----

  /** In this state the node is a timer set to `metadata` that is up at `at`. */
  function TimerIn(s: System, n: NodeId, at: nat, metadata: map<string, Json>): Verdict {
    if IsWait(s.st.graph, n) && Set(metadata, at) && n in s.st.nodes && Timing(s.st.nodes[n], at, metadata, s.clock)
    then Consistent else Broken
  }

  lemma TimerInStep(s: System, a: Action, n: NodeId, at: nat, metadata: map<string, Json>)
    requires Sane(s) && TimerIn(s, n, at, metadata) == Consistent
    ensures TimerIn(Step(s, a), n, at, metadata) == Consistent
  {
    TimingStep(s, a, n, at, metadata);
    GraphStays(s, a);
  }

  lemma GraphStays(s: System, a: Action)
    requires Sane(s)
    ensures Step(s, a).st.graph == s.st.graph
  {
    StepSane(s, a);
    LawfulSince(s.st, Step(s, a).st, PermitOf(s, a));
  }

  lemma {:induction false} TimerInRun(s: System, more: seq<Action>, n: NodeId, at: nat, metadata: map<string, Json>)
    requires Sane(s) && TimerIn(s, n, at, metadata) == Consistent
    ensures TimerIn(RunFrom(s, more), n, at, metadata) == Consistent
    decreases |more|
  {
    if more != [] {
      var init := more[..|more| - 1];
      TimerInRun(s, init, n, at, metadata);
      SaneRun(s, init);
      TimerInStep(RunFrom(s, init), more[|more| - 1], n, at, metadata);
    }
  }

  lemma ParkShape(s: System, a: Action, n: NodeId, duration: int)
    requires SetsTimer(s, a, n, duration)
    ensures var next := Step(s, a);
            && next.clock == s.clock && next.st.graph == s.st.graph && n in next.st.nodes
            && next.st.nodes[n].status.NodeWaiting?
            && next.st.nodes[n].parking == Some(Parking("WAIT_TIMER", TimerMetadata(s.clock, duration)))
  {
  }

  lemma MetadataSet(set_at: nat, duration: int)
    ensures Set(TimerMetadata(set_at, duration), set_at + AtLeastOne(duration))
  {
  }

  lemma TimerBegins(s: System, a: Action, n: NodeId, duration: int)
    requires SetsTimer(s, a, n, duration)
    ensures TimerIn(Step(s, a), n, s.clock + AtLeastOne(duration), TimerMetadata(s.clock, duration)) == Consistent
  {
    var metadata := TimerMetadata(s.clock, duration);
    ParkShape(s, a, n, duration);
    MetadataSet(s.clock, duration);
  }

  lemma TimerLater(s: System, a: Action, n: NodeId, at: nat, metadata: map<string, Json>, more: seq<Action>)
    requires Sane(s) && TimerIn(Step(s, a), n, at, metadata) == Consistent
    ensures Sane(RunFrom(Step(s, a), more)) && TimerIn(RunFrom(Step(s, a), more), n, at, metadata) == Consistent
  {
    StepSane(s, a);
    TimerInRun(Step(s, a), more, n, at, metadata);
    SaneRun(Step(s, a), more);
  }

  /** The state of a continuation of a run in which a timer was set. */
  lemma TimerState(g: Graph, input: Json, acts: seq<Action>, a: Action, n: NodeId, duration: int, more: seq<Action>)
    returns (s: System, later: System, at: nat, metadata: map<string, Json>)
    requires Publishable(g) && SetsTimer(Execute(g, input, acts), a, n, duration)
    ensures s == Execute(g, input, acts) && later == Execute(g, input, acts + [a] + more) && Sane(later)
    ensures at == s.clock + AtLeastOne(duration) && metadata == TimerMetadata(s.clock, duration)
    ensures TimerIn(later, n, at, metadata) == Consistent
  {
    s, later := Execute(g, input, acts), Execute(g, input, acts + [a] + more);
    at, metadata := s.clock + AtLeastOne(duration), TimerMetadata(s.clock, duration);
    AlwaysSane(g, input, acts);
    ExecuteSplit(g, input, acts, a, more);
    TimerBegins(s, a, n, duration);
    TimerLater(s, a, n, at, metadata, more);
  }

  /** Still waiting, cancelled, or completed at its time or later with its record. */
  predicate Timed(s: System, n: NodeId, set_at: nat, seconds: nat) {
    && n in s.st.nodes
    && var row := s.st.nodes[n];
       row.status.NodeWaiting? || row.status.NodeCancelled? ||
       (row.status.NodeCompleted? && set_at + seconds <= s.clock && Recorded(row, set_at, seconds))
  }

  predicate Recorded(row: NodeRun, set_at: nat, seconds: nat) {
    row.output == Some(Obj(map["resume_at" := Num(set_at + seconds), "duration_seconds" := Num(seconds)]))
  }

  lemma TimerSays(s: System, n: NodeId, at: nat, metadata: map<string, Json>, set_at: nat, duration: int)
    requires TimerIn(s, n, at, metadata) == Consistent
    requires at == set_at + AtLeastOne(duration) && metadata == TimerMetadata(set_at, duration)
    ensures Timed(s, n, set_at, if duration < 1 then 1 else duration)
  {
  }

  /** A wait of `duration` seconds, at least one, that a Worker sets: in every
      continuation of the run the node is still WAITING, cancelled, or COMPLETED
      with the record of that wait; and COMPLETED only once the time has passed. */
  lemma TimerHolds(g: Graph, input: Json, acts: seq<Action>, a: Action, n: NodeId, duration: int, more: seq<Action>)
    requires Publishable(g) && SetsTimer(Execute(g, input, acts), a, n, duration)
    ensures Timed(Execute(g, input, acts + [a] + more), n, Execute(g, input, acts).clock, if duration < 1 then 1 else duration)
  {
    var s, later, at, metadata := TimerState(g, input, acts, a, n, duration, more);
    TimerSays(later, n, at, metadata, s.clock, duration);
  }

  // ----- the reconcile that ends it -----

  lemma RowRings(st: RunState, now: nat, n: NodeId)
    requires n in st.nodes && TimerUp(st.nodes[n], now)
    ensures var row := AfterPromoteWaits(st, now).nodes;
            HasStatus(row, n, NodeCompleted) && row[n].output == Some(Obj(st.nodes[n].parking.value.metadata))
  {
    PromotionRings(st, now, n);
  }

  lemma ScheduleKeepsCompleted(st: RunState, u: Unresolved, now: nat, n: NodeId)
    requires HasStatus(st.nodes, n, NodeCompleted)
    ensures n in AfterSchedule(st, u, now).nodes && AfterSchedule(st, u, now).nodes[n] == st.nodes[n]
  {
    if st.run.RunRunning? {
      SkipSetLeast(st.graph, st.nodes);
    }
  }

  lemma TransitionKeepsCompleted(st: RunState, derived: RunStatus, hidden: set<NodeId>, n: NodeId)
    requires HasStatus(st.nodes, n, NodeCompleted)
    ensures n in AfterTransition(st, derived, hidden).nodes && AfterTransition(st, derived, hidden).nodes[n] == st.nodes[n]
  {
  }

  lemma ConcludeKeepsCompleted(st: RunState, adv: RunState, u: Unresolved, unflushed: set<NodeId>, now: nat, n: NodeId)
    requires HasStatus(adv.nodes, n, NodeCompleted) && Conclude(st, adv, u, unflushed, now).outcome.Accepted?
    ensures var r := Conclude(st, adv, u, unflushed, now).st;
            n in r.nodes && r.nodes[n] == adv.nodes[n]
  {
    var derived, hidden := DeriveRun(adv.graph, adv.nodes), unflushed * (adv.tasks.Keys - st.tasks.Keys);
    var moved := if derived == st.run then adv else AfterTransition(adv, derived, hidden);
    if derived != st.run {
      TransitionKeepsCompleted(adv, derived, hidden, n);
    }
    ScheduleKeepsCompleted(moved, u, now, n);
  }

  lemma ReconcileRings(st: RunState, u: Unresolved, unflushed: set<NodeId>, now: nat, n: NodeId)
    requires (st.run.RunRunning? || st.run.RunWaiting?) && n in st.nodes && TimerUp(st.nodes[n], now)
    requires AfterReconcile(st, u, unflushed, now).outcome.Accepted?
    ensures var r := AfterReconcile(st, u, unflushed, now).st.nodes;
            HasStatus(r, n, NodeCompleted) && r[n].output == Some(Obj(st.nodes[n].parking.value.metadata))
  {
    var waits := AfterPromoteWaits(st, now);
    RowRings(st, now, n);
    ScheduleKeepsCompleted(waits, u, now, n);
    ConcludeKeepsCompleted(st, Advanced(st, u, now), u, unflushed, now, n);
  }

  lemma ReconcileAccepted(st: RunState, u: Unresolved, unflushed: set<NodeId>, now: nat)
    requires Inv(st) && Publishable(st.graph) && (st.run.RunRunning? || st.run.RunWaiting?)
    ensures AfterReconcile(st, u, unflushed, now).outcome.Accepted?
  {
    AdvancedSound(st, u, now);
    ConcludeSound(st, Advanced(st, u, now), u, unflushed, now);
  }

  lemma ReconcileReplies(s: System, u: Unresolved, unflushed: set<NodeId>)
    requires !s.st.run.RunCreated?
    ensures Step(s, ReconcileRun(u, unflushed)).st == AfterReconcile(s.st, u, unflushed, s.clock).st
  {
  }

  lemma RingsNow(s: System, n: NodeId, at: nat, metadata: map<string, Json>, u: Unresolved, unflushed: set<NodeId>)
    requires Sane(s) && (s.st.run.RunRunning? || s.st.run.RunWaiting?) && Set(metadata, at) && at <= s.clock
    requires n in s.st.nodes && s.st.nodes[n].status.NodeWaiting? && s.st.nodes[n].parking == Some(Parking("WAIT_TIMER", metadata))
    ensures var next := Step(s, ReconcileRun(u, unflushed)).st.nodes;
            HasStatus(next, n, NodeCompleted) && next[n].output == Some(Obj(metadata))
  {
    ReconcileAccepted(s.st, u, unflushed, s.clock);
    ReconcileReplies(s, u, unflushed);
    ReconcileRings(s.st, u, unflushed, s.clock, n);
  }

  lemma EndsNow(s: System, n: NodeId, at: nat, metadata: map<string, Json>, u: Unresolved, unflushed: set<NodeId>)
    requires Sane(s) && (s.st.run.RunRunning? || s.st.run.RunWaiting?) && at <= s.clock
    requires TimerIn(s, n, at, metadata) == Consistent
    ensures var next := Step(s, ReconcileRun(u, unflushed)).st.nodes;
            HasStatus(next, n, NodeCompleted) && next[n].output == Some(Obj(metadata))
  {
    if s.st.nodes[n].status.NodeCompleted? {
      CompletedFrozen(s, ReconcileRun(u, unflushed), n);
    } else if s.st.nodes[n].status.NodeCancelled? {
      CancelledMeansOver(s.st, n);
    } else {
      RingsNow(s, n, at, metadata, u, unflushed);
    }
  }

  /** From then on every reconcile of a RUNNING or WAITING run completes the node,
      unless it is already COMPLETED, with the record of that wait. */
  lemma TimerEnds(g: Graph, input: Json, acts: seq<Action>, a: Action, n: NodeId, duration: int, more: seq<Action>,
                  u: Unresolved, unflushed: set<NodeId>)
    requires Publishable(g) && SetsTimer(Execute(g, input, acts), a, n, duration)
    requires var later := Execute(g, input, acts + [a] + more);
             && (later.st.run.RunRunning? || later.st.run.RunWaiting?)
             && Execute(g, input, acts).clock + (if duration < 1 then 1 else duration) <= later.clock
    ensures var next := Step(Execute(g, input, acts + [a] + more), ReconcileRun(u, unflushed)).st.nodes;
            HasStatus(next, n, NodeCompleted) && Recorded(next[n], Execute(g, input, acts).clock, if duration < 1 then 1 else duration)
  {
    var s, later, at, metadata := TimerState(g, input, acts, a, n, duration, more);
    EndsNow(later, n, at, metadata, u, unflushed);
    RecordIs(Step(later, ReconcileRun(u, unflushed)).st.nodes[n], s.clock, duration);
  }

  lemma RecordIs(row: NodeRun, set_at: nat, duration: int)
    requires row.output == Some(Obj(TimerMetadata(set_at, duration)))
    ensures Recorded(row, set_at, if duration < 1 then 1 else duration)
  {
  }

  lemma CancelledMeansOver(st: RunState, n: NodeId)
    requires Inv(st) && HasStatus(st.nodes, n, NodeCancelled)
    ensures RunTerminal(st.run)
  {
    assert NodeOk(st, n);
    CancelledRow(IsInputId(st.graph, n), IsParkedId(st.graph, n), st.run, st.nodes[n], TaskOf(st, n));
  }
}
