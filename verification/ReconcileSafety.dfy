/** `reconcile_run`: it never attempts an illegal transition, keeps the invariant
    and obeys the row laws. */
module ReconcileSafety {
  import opened Basics
  import opened StateMachines
  import opened Graphs
  import opened RunRows
  import opened Scheduling
  import opened SchedulerRules
  import opened Invariant
  import opened QueueSafety
  import opened LifecycleSafety
  import opened SchedulerSafety
  import opened Progress

  // ----- the first half: promote waits, schedule -----

  /** Existing tasks are unchanged; new ones are queued with their node. */
  ghost predicate TasksKept(st: RunState, next: RunState) {
    && st.tasks.Keys <= next.tasks.Keys
    && (forall n :: n in st.tasks ==> next.tasks[n] == st.tasks[n])
    && (forall n :: n in next.tasks && n !in st.tasks ==>
          Untried(next.tasks[n]) && next.tasks[n].status.TaskPending? && HasStatus(next.nodes, n, NodeQueued))
  }

  lemma ScheduleKeeps(st: RunState, u: Unresolved, now: nat)
    ensures TasksKept(st, AfterSchedule(st, u, now))
  {
    if st.run.RunRunning? {
      ScheduleShape(st, u, now);
      var q := QueueSet(Marked(st), u);
      var next := AfterSchedule(st, u, now);
      forall n | n in next.tasks && n !in st.tasks
        ensures Untried(next.tasks[n]) && next.tasks[n].status.TaskPending? && HasStatus(next.nodes, n, NodeQueued)
      {
        NewTaskShape(st.graph, n, u, now);
      }
    }
  }

  /** What the promoted and scheduled rows `adv` owe to the rows `st`. */
  ghost predicate Prepared(st: RunState, adv: RunState, u: Unresolved) {
    PreparationOf(st, adv, u) == Consistent
  }

  ghost function PreparationOf(st: RunState, adv: RunState, u: Unresolved): Verdict {
    if && Inv(adv) && adv.run == st.run && adv.graph == st.graph
       && Frozen(st.nodes, adv.nodes) && st.events <= adv.events
       && TasksKept(st, adv)
       && (adv.tasks.Keys != st.tasks.Keys ==> st.run.RunRunning?)
       && (st.run.RunRunning? ==> Exhausted(adv, u))
    then Consistent else Broken
  }

  /** What the promoted rows owe to the rows `st`. */
  ghost function PromotionOf(st: RunState, promoted: RunState): Verdict {
    if && Inv(promoted) && promoted.run == st.run && promoted.graph == st.graph && promoted.tasks == st.tasks
       && Frozen(st.nodes, promoted.nodes) && st.events <= promoted.events
    then Consistent else Broken
  }

  lemma PromotedKeeps(st: RunState, now: nat)
    requires Inv(st) && LiveRun(st.run)
    ensures PromotionOf(st, AfterPromoteWaits(st, now)) == Consistent
  {
    PromoteWaitsSound(st, now);
  }

  lemma ScheduledKeys(st: RunState, u: Unresolved, now: nat)
    ensures var adv := AfterSchedule(st, u, now);
            adv.run == st.run && adv.graph == st.graph && (adv.tasks.Keys != st.tasks.Keys ==> st.run.RunRunning?)
  {
  }

  lemma ScheduledKeeps(st: RunState, u: Unresolved, now: nat)
    requires Inv(st)
    ensures Prepared(st, AfterSchedule(st, u, now), u)
  {
    ScheduleSound(st, u, now);
    ScheduleKeeps(st, u, now);
    ScheduledKeys(st, u, now);
    if st.run.RunRunning? {
      ScheduleExhausts(st, u, now);
    }
  }

  /** What scheduling owes to the promoted rows it owes to the rows before. */
  lemma PreparedFrom(st: RunState, promoted: RunState, adv: RunState, u: Unresolved)
    requires PromotionOf(st, promoted) == Consistent && Prepared(promoted, adv, u)
    ensures Prepared(st, adv, u)
  {
    FrozenTwice(st.nodes, promoted.nodes, adv.nodes);
  }

  lemma PromotedInv(st: RunState, promoted: RunState)
    requires PromotionOf(st, promoted) == Consistent
    ensures Inv(promoted)
  {
  }

  lemma AdvancedSound(st: RunState, u: Unresolved, now: nat)
    requires Inv(st) && LiveRun(st.run)
    ensures Prepared(st, Advanced(st, u, now), u)
  {
    var promoted := AfterPromoteWaits(st, now);
    PromotedKeeps(st, now);
    PromotedInv(st, promoted);
    ScheduledKeeps(promoted, u, now);
    PreparedFrom(st, promoted, AfterSchedule(promoted, u, now), u);
  }

  // ----- the second half: move the run -----

  lemma WaitingPair(input: bool, parked: bool, row: NodeRun, task: Option<Task>)
    requires Judge(input, parked, RunRunning, row, task) == Consistent
    requires !row.status.NodeQueued? && !row.status.NodeRunning? && !row.status.NodeRetrying?
    ensures Judge(input, parked, RunWaiting, row, task) == Consistent
  {
  }

  lemma WaitingRows(st: RunState, log: seq<Event>)
    requires Inv(st) && st.run.RunRunning? && !InFlight(st.nodes)
    ensures RowsOk(st.(run := RunWaiting, events := log))
  {
    var next := st.(run := RunWaiting, events := log);
    forall n | n in next.nodes
      ensures NodeOk(next, n)
    {
      assert NodeOk(st, n);
      WaitingPair(IsInputId(st.graph, n), IsParkedId(st.graph, n), st.nodes[n], TaskOf(st, n));
    }
  }

  /** A run that waits for a parked node still has a node to run after it. */
  lemma WaitingHasPending(st: RunState)
    requires Inv(st) && LiveRun(st.run) && Publishable(st.graph) && Exists(st.nodes, NodeWaiting)
    ensures Exists(st.nodes, NodePending)
  {
    var w :| w in st.nodes && st.nodes[w].status == NodeWaiting;
    var t := ParkedBlocksSuccessor(st, w);
    assert st.nodes[t].status == NodePending;
  }

  lemma ToWaiting(st: RunState, log: seq<Event>)
    requires Inv(st) && st.run.RunRunning? && SkipClosed(st.graph, st.nodes)
    requires !InFlight(st.nodes) && Exists(st.nodes, NodePending)
    ensures Inv(st.(run := RunWaiting, events := log))
  {
    WaitingRows(st, log);
    OrderedStays(st, st.(run := RunWaiting, events := log));
  }

  lemma CompletedPair(input: bool, parked: bool, row: NodeRun, task: Option<Task>)
    requires Judge(input, parked, RunRunning, row, task) == Consistent
    requires NodeTerminal(row.status) && !row.status.NodeFailed?
    ensures Judge(input, parked, RunCompleted, row, task) == Consistent
  {
  }

  lemma ToCompleted(st: RunState, log: seq<Event>)
    requires Inv(st) && st.run.RunRunning? && AllTerminal(st.nodes) && !Exists(st.nodes, NodeFailed)
    ensures Inv(st.(run := RunCompleted, events := log))
  {
    var next := st.(run := RunCompleted, events := log);
    forall n | n in next.nodes
      ensures NodeOk(next, n)
    {
      assert NodeOk(st, n);
      CompletedPair(IsInputId(st.graph, n), IsParkedId(st.graph, n), st.nodes[n], TaskOf(st, n));
    }
  }

  // ----- fail-fast -----

  function SweptTask(t: Task, hidden: bool): Task {
    if LiveTask(t) && !hidden then t.(status := TaskCancelled) else t
  }

  function SweptRow(row: NodeRun, task: Option<Task>, hidden: bool): NodeRun {
    if (task.Some? && LiveTask(task.value) && !hidden && !NodeTerminal(row.status)) || row.status.NodePending?
    then row.(status := NodeCancelled) else row
  }

  lemma SweptPair(input: bool, parked: bool, run: RunStatus, row: NodeRun, task: Option<Task>, hidden: bool)
    requires Judge(input, parked, run, row, task) == Consistent && LiveRun(run) && !run.RunCreated?
    requires hidden ==> row.status.NodeQueued? && task.Some? && task.value.status.TaskPending?
    ensures Judge(input, parked, RunFailed, SweptRow(row, task, hidden),
                  if task.Some? then Some(SweptTask(task.value, hidden)) else None) == Consistent
    ensures task.Some? ==> JudgeTask(run, task.value, SweptTask(task.value, hidden), Plain) == Consistent
    ensures Settled(row.status) ==> SweptRow(row, task, hidden) == row
  {
  }

  /** What the fail-fast transition of a run leaves. */
  ghost predicate IsSwept(st: RunState, next: RunState, hidden: set<NodeId>) {
    && next.graph == st.graph && next.run == RunFailed && st.events <= next.events
    && next.nodes.Keys == st.nodes.Keys && next.tasks.Keys == st.tasks.Keys
    && (forall n :: n in st.nodes ==> next.nodes[n] == SweptRow(st.nodes[n], TaskOf(st, n), n in hidden))
    && (forall n :: n in st.tasks ==> next.tasks[n] == SweptTask(st.tasks[n], n in hidden))
  }

  lemma FailFastSweeps(st: RunState, hidden: set<NodeId>)
    ensures IsSwept(st, AfterTransition(st, RunFailed, hidden), hidden)
  {
  }

  ghost predicate HiddenQueued(st: RunState, hidden: set<NodeId>) {
    forall n :: n in hidden ==> n in st.tasks && st.tasks[n].status.TaskPending? && HasStatus(st.nodes, n, NodeQueued)
  }

  lemma SweptAt(st: RunState, next: RunState, hidden: set<NodeId>, n: NodeId)
    requires Inv(st) && LiveRun(st.run) && !st.run.RunCreated? && IsSwept(st, next, hidden) && HiddenQueued(st, hidden)
    requires n in st.nodes
    ensures NodeOk(next, n)
    ensures n in st.tasks ==> JudgeTask(st.run, st.tasks[n], next.tasks[n], Plain) == Consistent
    ensures Settled(st.nodes[n].status) ==> next.nodes[n] == st.nodes[n]
    ensures next.nodes[n].status.NodeSkipped? ==> next.nodes[n] == st.nodes[n]
  {
    assert NodeOk(st, n);
    SweptPair(IsInputId(st.graph, n), IsParkedId(st.graph, n), st.run, st.nodes[n], TaskOf(st, n), n in hidden);
  }

  lemma ToFailed(st: RunState, next: RunState, hidden: set<NodeId>)
    requires Inv(st) && LiveRun(st.run) && !st.run.RunCreated? && IsSwept(st, next, hidden) && HiddenQueued(st, hidden)
    ensures Inv(next) && Frozen(st.nodes, next.nodes)
  {
    forall n | n in st.nodes
      ensures NodeOk(next, n)
      ensures Settled(st.nodes[n].status) ==> next.nodes[n] == st.nodes[n]
      ensures next.nodes[n].status.NodeSkipped? ==> next.nodes[n] == st.nodes[n]
    {
      SweptAt(st, next, hidden, n);
    }
    OrderedStays(st, next);
  }

  // ----- the whole transaction -----

  lemma KeptLawful(st: RunState, next: RunState)
    requires next.graph == st.graph && Frozen(st.nodes, next.nodes) && st.events <= next.events
    requires TasksKept(st, next) && LiveRun(st.run)
    requires next.tasks.Keys != st.tasks.Keys ==> st.run.RunRunning? || next.run.RunRunning?
    ensures Lawful(st, next, Plain)
  {
    forall n | n in st.tasks
      ensures JudgeTask(st.run, st.tasks[n], next.tasks[n], Plain) == Consistent
    {
      SameTask(st.run, st.tasks[n], Plain);
    }
  }

  lemma KeptTwice(a: RunState, b: RunState, c: RunState)
    requires TasksKept(a, b) && TasksKept(b, c)
    requires forall n :: HasStatus(b.nodes, n, NodeQueued) ==> HasStatus(c.nodes, n, NodeQueued)
    ensures TasksKept(a, c)
  {
  }

  /** Scheduling leaves queued nodes queued. */
  lemma ScheduleKeepsQueued(st: RunState, u: Unresolved, now: nat, n: NodeId)
    requires HasStatus(st.nodes, n, NodeQueued)
    ensures HasStatus(AfterSchedule(st, u, now).nodes, n, NodeQueued)
  {
    if st.run.RunRunning? {
      SkipSetLeast(st.graph, st.nodes);
      ScheduleShape(st, u, now);
      assert Marked(st).nodes[n] == st.nodes[n];
    }
  }

  /** A run that stays or becomes RUNNING is scheduled once more. */
  lemma RunningSound(st: RunState, moved: RunState, u: Unresolved, now: nat)
    requires LiveRun(st.run) && moved.graph == st.graph && st.events <= moved.events
    requires Inv(moved) && moved.run.RunRunning? && Frozen(st.nodes, moved.nodes) && TasksKept(st, moved)
    ensures Inv(AfterSchedule(moved, u, now)) && Lawful(st, AfterSchedule(moved, u, now), Plain)
  {
    var next := AfterSchedule(moved, u, now);
    ScheduleSound(moved, u, now);
    ScheduleKeeps(moved, u, now);
    forall n | HasStatus(moved.nodes, n, NodeQueued)
      ensures HasStatus(next.nodes, n, NodeQueued)
    {
      ScheduleKeepsQueued(moved, u, now, n);
    }
    KeptTwice(st, moved, next);
    FrozenTwice(st.nodes, moved.nodes, next.nodes);
    KeptLawful(st, next);
  }

  lemma RunningCase(st: RunState, adv: RunState, u: Unresolved, unflushed: set<NodeId>, now: nat)
    requires Prepared(st, adv, u) && (st.run.RunRunning? || st.run.RunWaiting?)
    requires DeriveRun(adv.graph, adv.nodes) == RunRunning
    ensures Sound(st, Conclude(st, adv, u, unflushed, now), Plain)
    ensures Conclude(st, adv, u, unflushed, now).outcome.Accepted?
  {
    if st.run.RunRunning? {
      RunningSound(st, adv, u, now);
    } else {
      MovedRows(adv, RunRunning, RunEventsFor(RunRunning));
      RunningSound(st, adv.(run := RunRunning, events := adv.events + RunEventsFor(RunRunning)), u, now);
    }
  }

  // ----- fail-fast, as a step of reconcile -----

  lemma SweptNewTask(t: Task, hidden: bool)
    requires Untried(t) && t.status.TaskPending?
    ensures NewTaskLaw(SweptTask(t, hidden))
  {
  }

  lemma SweptTasks(st: RunState, adv: RunState, next: RunState, hidden: set<NodeId>, n: NodeId)
    requires Inv(adv) && LiveRun(adv.run) && !adv.run.RunCreated? && adv.run == st.run
    requires TasksKept(st, adv) && IsSwept(adv, next, hidden) && HiddenQueued(adv, hidden) && n in adv.tasks
    ensures n in st.tasks ==> JudgeTask(st.run, st.tasks[n], next.tasks[n], Plain) == Consistent
    ensures n !in st.tasks ==> NewTaskLaw(next.tasks[n])
  {
    if n in st.tasks {
      assert n in adv.nodes;
      SweptAt(adv, next, hidden, n);
    } else {
      SweptNewTask(adv.tasks[n], n in hidden);
    }
  }

  lemma FailedLawful(st: RunState, adv: RunState, next: RunState, hidden: set<NodeId>, u: Unresolved)
    requires Prepared(st, adv, u) && LiveRun(st.run) && !st.run.RunCreated?
    requires IsSwept(adv, next, hidden) && HiddenQueued(adv, hidden) && Frozen(adv.nodes, next.nodes)
    ensures Lawful(st, next, Plain)
  {
    FrozenTwice(st.nodes, adv.nodes, next.nodes);
    forall n | n in adv.tasks
      ensures n in st.tasks ==> JudgeTask(st.run, st.tasks[n], next.tasks[n], Plain) == Consistent
      ensures n !in st.tasks ==> NewTaskLaw(next.tasks[n])
    {
      SweptTasks(st, adv, next, hidden, n);
    }
  }

  lemma NewTasksHidden(st: RunState, adv: RunState, unflushed: set<NodeId>)
    requires TasksKept(st, adv)
    ensures HiddenQueued(adv, unflushed * (adv.tasks.Keys - st.tasks.Keys))
  {
  }

  /** Fail-fast of a prepared run, whatever part of its new work it sees. */
  lemma FailFastSound(st: RunState, adv: RunState, u: Unresolved, hidden: set<NodeId>)
    requires Prepared(st, adv, u) && (st.run.RunRunning? || st.run.RunWaiting?) && HiddenQueued(adv, hidden)
    ensures Inv(AfterTransition(adv, RunFailed, hidden)) && Lawful(st, AfterTransition(adv, RunFailed, hidden), Plain)
  {
    var next := AfterTransition(adv, RunFailed, hidden);
    FailFastSweeps(adv, hidden);
    ToFailed(adv, next, hidden);
    FailedLawful(st, adv, next, hidden, u);
  }

  lemma FailedShape(st: RunState, adv: RunState, u: Unresolved, unflushed: set<NodeId>, now: nat)
    requires (st.run.RunRunning? || st.run.RunWaiting?) && DeriveRun(adv.graph, adv.nodes) == RunFailed
    ensures Conclude(st, adv, u, unflushed, now) ==
            Reply(AfterTransition(adv, RunFailed, unflushed * (adv.tasks.Keys - st.tasks.Keys)), Accepted)
  {
  }

  lemma FailedCase(st: RunState, adv: RunState, u: Unresolved, unflushed: set<NodeId>, now: nat)
    requires Prepared(st, adv, u) && (st.run.RunRunning? || st.run.RunWaiting?)
    requires DeriveRun(adv.graph, adv.nodes) == RunFailed
    ensures Sound(st, Conclude(st, adv, u, unflushed, now), Plain)
    ensures Conclude(st, adv, u, unflushed, now).outcome.Accepted?
  {
    NewTasksHidden(st, adv, unflushed);
    FailedShape(st, adv, u, unflushed, now);
    FailFastSound(st, adv, u, unflushed * (adv.tasks.Keys - st.tasks.Keys));
  }

  // ----- waiting and completion -----

  lemma DerivedQuiet(g: Graph, nodes: map<NodeId, NodeRun>)
    ensures DeriveRun(g, nodes) == RunWaiting ==> Exists(nodes, NodeWaiting) && !InFlight(nodes)
    ensures DeriveRun(g, nodes) == RunCompleted ==> AllTerminal(nodes) && !Exists(nodes, NodeFailed)
  {
  }

  lemma WaitingSound(st: RunState, adv: RunState, u: Unresolved, log: seq<Event>)
    requires Prepared(st, adv, u) && st.run.RunRunning?
    requires Exists(adv.nodes, NodePending) && !InFlight(adv.nodes) && adv.events <= log
    ensures Inv(adv.(run := RunWaiting, events := log)) && Lawful(st, adv.(run := RunWaiting, events := log), Plain)
  {
    ToWaiting(adv, log);
    KeptLawful(st, adv.(run := RunWaiting, events := log));
  }

  lemma CompletedRunSound(st: RunState, adv: RunState, u: Unresolved, log: seq<Event>)
    requires Prepared(st, adv, u) && st.run.RunRunning?
    requires AllTerminal(adv.nodes) && !Exists(adv.nodes, NodeFailed) && adv.events <= log
    ensures Inv(adv.(run := RunCompleted, events := log)) && Lawful(st, adv.(run := RunCompleted, events := log), Plain)
  {
    ToCompleted(adv, log);
    KeptLawful(st, adv.(run := RunCompleted, events := log));
  }

  lemma QuietShape(st: RunState, adv: RunState, u: Unresolved, unflushed: set<NodeId>, now: nat, derived: RunStatus)
    requires st.run.RunRunning? && derived == DeriveRun(adv.graph, adv.nodes) && (derived.RunWaiting? || derived.RunCompleted?)
    ensures Conclude(st, adv, u, unflushed, now) ==
            Reply(adv.(run := derived, events := adv.events + RunEventsFor(derived)), Accepted)
  {
  }

  lemma WaitingCase(st: RunState, adv: RunState, u: Unresolved, unflushed: set<NodeId>, now: nat)
    requires Prepared(st, adv, u) && st.run.RunRunning? && Exists(adv.nodes, NodePending)
    requires DeriveRun(adv.graph, adv.nodes).RunWaiting?
    ensures Sound(st, Conclude(st, adv, u, unflushed, now), Plain)
    ensures Conclude(st, adv, u, unflushed, now).outcome.Accepted?
  {
    DerivedQuiet(adv.graph, adv.nodes);
    QuietShape(st, adv, u, unflushed, now, RunWaiting);
    WaitingSound(st, adv, u, adv.events + RunEventsFor(RunWaiting));
  }

  lemma CompletedCase(st: RunState, adv: RunState, u: Unresolved, unflushed: set<NodeId>, now: nat)
    requires Prepared(st, adv, u) && st.run.RunRunning?
    requires DeriveRun(adv.graph, adv.nodes).RunCompleted?
    ensures Sound(st, Conclude(st, adv, u, unflushed, now), Plain)
    ensures Conclude(st, adv, u, unflushed, now).outcome.Accepted?
  {
    DerivedQuiet(adv.graph, adv.nodes);
    QuietShape(st, adv, u, unflushed, now, RunCompleted);
    CompletedRunSound(st, adv, u, adv.events + RunEventsFor(RunCompleted));
  }

  lemma StillCase(st: RunState, adv: RunState, u: Unresolved, unflushed: set<NodeId>, now: nat)
    requires Prepared(st, adv, u) && st.run.RunWaiting? && DeriveRun(adv.graph, adv.nodes).RunWaiting?
    ensures Sound(st, Conclude(st, adv, u, unflushed, now), Plain)
    ensures Conclude(st, adv, u, unflushed, now).outcome.Accepted?
  {
    KeptLawful(st, adv);
  }

  /** The status derived for a WAITING run is one it may move to: by the
      invariant it still has a pending node, so it is never COMPLETED. */
  lemma WaitingMovesLegally(adv: RunState)
    requires Inv(adv) && adv.run.RunWaiting?
    ensures var derived := DeriveRun(adv.graph, adv.nodes);
            derived.RunRunning? || derived.RunWaiting? || derived.RunFailed?
  {
    var p :| p in adv.nodes && adv.nodes[p].status == NodePending;
    assert !NodeTerminal(adv.nodes[p].status);
  }

  lemma ConcludeSound(st: RunState, adv: RunState, u: Unresolved, unflushed: set<NodeId>, now: nat)
    requires Prepared(st, adv, u) && (st.run.RunRunning? || st.run.RunWaiting?) && Publishable(st.graph)
    ensures Sound(st, Conclude(st, adv, u, unflushed, now), Plain)
    ensures Conclude(st, adv, u, unflushed, now).outcome.Accepted?
  {
    var derived := DeriveRun(adv.graph, adv.nodes);
    if st.run.RunWaiting? {
      WaitingMovesLegally(adv);
    }
    if derived.RunFailed? {
      FailedCase(st, adv, u, unflushed, now);
    } else if derived.RunRunning? {
      RunningCase(st, adv, u, unflushed, now);
    } else if st.run.RunWaiting? {
      StillCase(st, adv, u, unflushed, now);
    } else if derived.RunWaiting? {
      WaitingHasPending(adv);
      WaitingCase(st, adv, u, unflushed, now);
    } else {
      CompletedCase(st, adv, u, unflushed, now);
    }
  }

  // ----- terminal and paused runs -----

  lemma CancelledRunRow(input: bool, parked: bool, row: NodeRun, task: Option<Task>)
    requires Judge(input, parked, RunCancelled, row, task) == Consistent
    ensures NodeTerminal(row.status) && (task.Some? ==> !LiveTask(task.value))
  {
  }

  lemma NothingLive(st: RunState)
    requires Inv(st) && st.run.RunCancelled?
    ensures Cancellable(st.tasks, {}) == {} && !Exists(st.nodes, NodePending)
  {
    forall n | n in st.nodes
      ensures NodeTerminal(st.nodes[n].status) && (n in st.tasks ==> !LiveTask(st.tasks[n]))
    {
      assert NodeOk(st, n);
      CancelledRunRow(IsInputId(st.graph, n), IsParkedId(st.graph, n), st.nodes[n], TaskOf(st, n));
    }
  }

  lemma IdleSweep(st: RunState)
    requires Cancellable(st.tasks, {}) == {} && !Exists(st.nodes, NodePending)
    ensures AfterCancelTasks(st, {}) == st
  {
    var next := AfterCancelTasks(st, {});
    NothingSelected(Order(st.graph));
    assert next.nodes == st.nodes;
    assert next.tasks == st.tasks;
    assert next.events == st.events;
  }

  /** Reconciliation is sound and never attempts an illegal run transition. */
  lemma ReconcileSound(st: RunState, u: Unresolved, unflushed: set<NodeId>, now: nat)
    requires Inv(st) && Publishable(st.graph) && !st.run.RunCreated?
    ensures Sound(st, AfterReconcile(st, u, unflushed, now), Plain)
    ensures AfterReconcile(st, u, unflushed, now).outcome.Accepted?
  {
    if st.run.RunRunning? || st.run.RunWaiting? {
      AdvancedSound(st, u, now);
      ConcludeSound(st, Advanced(st, u, now), u, unflushed, now);
    } else {
      if st.run.RunCancelled? {
        NothingLive(st);
        IdleSweep(st);
      }
      NoChange(st, Reply(st, Accepted), Plain);
    }
  }
}
