/** The rest of the trace: every queueing, deferral, parking and resumption of a
    node, every log line and every move of the run is in the log exactly once. */
module TraceMoves {
  import opened Basics
  import opened StateMachines
  import opened Graphs
  import opened RunRows
  import opened Scheduling
  import opened SchedulerRules
  import opened QueueRules
  import opened LifecycleRules
  import opened Runtime
  import opened Invariant
  import opened QueueSafety
  import opened RecoverySafety
  import opened RuntimeSafety
  import opened TraceLedger

  /** The kinds of events that tell of a move of a node or its task. */
  predicate IsMove(k: EventKind) {
    k.NodeQueuedEvent? || k.NodeRetryingEvent? || k.NodeWaitingEvent? || k.NodeResumed?
  }

  predicate InRetry(task: Option<Task>) {
    task.Some? && task.value.status.TaskRetryWait?
  }

  /** How many such moves lie between two looks at a node. */
  function Moved(row: NodeRun, task: Option<Task>, row': NodeRun, task': Option<Task>, k: EventKind): nat {
    match k
    case NodeQueuedEvent =>
      if (task.None? && task'.Some?) || (InRetry(task) && task'.Some? && task'.value.status.TaskPending?) then 1 else 0
    case NodeRetryingEvent => if !InRetry(task) && InRetry(task') then 1 else 0
    case NodeWaitingEvent => if !row.status.NodeWaiting? && row'.status.NodeWaiting? then 1 else 0
    case NodeResumed => if row.status.NodeWaiting? && (row'.status.NodeCompleted? || row'.status.NodeFailed?) then 1 else 0
    case _ => 0
  }

  function MovedIn(st: RunState, next: RunState, n: NodeId, k: EventKind): nat
    requires n in st.nodes && n in next.nodes
  {
    Moved(st.nodes[n], TaskOf(st, n), next.nodes[n], TaskOf(next, n), k)
  }

  /** The log grew by exactly the moves. */
  ghost predicate Told(st: RunState, next: RunState) {
    && next.nodes.Keys == st.nodes.Keys
    && forall n, k :: n in st.nodes && IsMove(k) ==> Tally(next.events, k, n) == Tally(st.events, k, n) + MovedIn(st, next, n, k)
  }

  lemma SameTold(st: RunState)
    ensures Told(st, st)
  {
  }

  // ----- one row -----

  /** The log holds one event of kind `kk` for `n`, or none, among the moves. */
  ghost predicate OneMove(log: seq<Event>, n: NodeId, kk: Option<EventKind>) {
    forall k, m :: IsMove(k) ==> Tally(log, k, m) == if kk == Some(k) && m == n then 1 else 0
  }

  /** The row and task made exactly the move of kind `kk`, or none. */
  ghost function Makes(row: NodeRun, t: Task, row': NodeRun, t': Task, kk: Option<EventKind>): Verdict {
    if forall k :: IsMove(k) ==> Moved(row, Some(t), row', Some(t'), k) == if kk == Some(k) then 1 else 0 then Consistent else Broken
  }

  function MoveOf(kk: EventKind): Option<EventKind> {
    if IsMove(kk) then Some(kk) else None
  }

  lemma LinesThenOne(lines: nat, kk: EventKind, n: NodeId)
    ensures OneMove(LogLines(n, lines) + [NodeEvent(kk, n)], n, MoveOf(kk))
  {
    var log := LogLines(n, lines);
    forall k, m | IsMove(k)
      ensures Tally(log + [NodeEvent(kk, n)], k, m) == if kk == k && m == n then 1 else 0
    {
      TallyConcat(log, [NodeEvent(kk, n)], k, m);
      assert NodeEvent(k, m) !in log;
    }
  }

  lemma JustOne(kk: EventKind, n: NodeId)
    ensures OneMove([NodeEvent(kk, n)], n, MoveOf(kk)) && OneMove([] + [NodeEvent(kk, n)], n, MoveOf(kk)) && OneMove([], n, None)
  {
    LinesThenOne(0, kk, n);
    assert LogLines(n, 0) + [NodeEvent(kk, n)] == [NodeEvent(kk, n)];
    assert [] + [NodeEvent(kk, n)] == [NodeEvent(kk, n)];
  }

  lemma PutTold(st: RunState, n: NodeId, row: NodeRun, t: Task, log: seq<Event>, kk: Option<EventKind>)
    requires n in st.nodes && n in st.tasks && OneMove(log, n, kk) && Makes(st.nodes[n], st.tasks[n], row, t, kk) == Consistent
    ensures Told(st, Put(st, n, row, t, log))
  {
    var next := Put(st, n, row, t, log);
    forall m, k | m in st.nodes && IsMove(k)
      ensures Tally(next.events, k, m) == Tally(st.events, k, m) + MovedIn(st, next, m, k)
    {
      TallyConcat(st.events, log, k, m);
      assert Tally(log, k, m) == if kk == Some(k) && m == n then 1 else 0;
    }
  }

  lemma CommitTold(st: RunState, n: NodeId, t: Task, row: Option<NodeRun>, log: seq<Event>, kk: Option<EventKind>)
    requires n in st.nodes && n in st.tasks && OneMove(log, n, kk)
    requires row.Some? ==> Makes(st.nodes[n], st.tasks[n], row.value, t, kk) == Consistent
    ensures Told(st, Commit(st, n, t, row, log).st)
  {
    if row.Some? {
      PutTold(st, n, row.value, t, log, kk);
    }
  }

  lemma LeaseMakes(row: NodeRun, t: Task, who: string, token: Token, until: nat)
    requires (row.status.NodeQueued? || row.status.NodeRunning?) && !t.status.TaskRetryWait?
    ensures Makes(row, t, row, Leased(t, who, token, until), None) == Consistent
    ensures Makes(row, t, row, Extended(t, until), None) == Consistent
    ensures Makes(row, t, row, Unleased(t).(status := TaskPending), None) == Consistent
    ensures var row' := MoveNode(row, NodeRunning, true);
            row'.Some? && Makes(row, t, row'.value, Started(t), None) == Consistent
            && Makes(row, t, row'.value, Started(Leased(t, who, token, until)), None) == Consistent
  {
  }

  lemma ReportMakes(row: NodeRun, t: Task, output: Json, anyTerminal: bool, at: nat, parking: Parking)
    requires row.status.NodeRunning? && t.status.TaskRunning?
    ensures var row' := CompletedRow(row, output);
            row'.Some? && Makes(row, t, row'.value, t.(status := TaskCompleted), None) == Consistent
    ensures var row' := FailedRow(row, anyTerminal);
            row'.Some? && Makes(row, t, row'.value, t.(status := TaskFailed), None) == Consistent
    ensures var row' := MoveNode(row, NodeRetrying, true);
            row'.Some? && Makes(row, t, row'.value, RetryLater(t, at), Some(NodeRetryingEvent)) == Consistent
    ensures var row' := ParkedRow(row, parking);
            row'.Some? && Makes(row, t, row'.value, t.(status := TaskCompleted), Some(NodeWaitingEvent)) == Consistent
  {
  }

  lemma ClaimTold(st: RunState, n: NodeId, worker: string, token: Token, lease: nat, now: nat)
    requires Inv(st)
    ensures Told(st, AfterClaim(st, n, worker, token, lease, now).st)
  {
    if Claimable(st, n, now) && st.tasks[n].capability.None? {
      QueuedRow(st, n);
      LeaseMakes(st.nodes[n], st.tasks[n], worker, token, now + lease);
      JustOne(NodeStarted, n);
      CommitTold(st, n, Leased(st.tasks[n], worker, token, now + lease), Some(st.nodes[n]), [], None);
    }
  }

  lemma RunnerClaimTold(st: RunState, n: NodeId, runner: string, capabilities: set<string>, token: Token, lease: nat, now: nat)
    requires Inv(st)
    ensures Told(st, AfterRunnerClaim(st, n, runner, capabilities, token, lease, now).st)
  {
    if Claimable(st, n, now) && RunnerMatches(st.tasks[n], runner, capabilities) {
      QueuedRow(st, n);
      LeaseMakes(st.nodes[n], st.tasks[n], runner, token, now + lease);
      JustOne(NodeStarted, n);
      CommitTold(st, n, Started(Leased(st.tasks[n], runner, token, now + lease)), MoveNode(st.nodes[n], NodeRunning, true),
                 [NodeEvent(NodeStarted, n)], None);
    }
  }

  lemma ExtendTold(st: RunState, n: NodeId, until: nat)
    requires HeldAt(st, n)
    ensures Told(st, Commit(st, n, Extended(st.tasks[n], until), Some(st.nodes[n]), []).st)
  {
    LeaseMakes(st.nodes[n], st.tasks[n], "", 0, until);
    JustOne(NodeStarted, n);
    CommitTold(st, n, Extended(st.tasks[n], until), Some(st.nodes[n]), [], None);
  }

  lemma NamedIsHeld(st: RunState, n: NodeId, who: string, token: Token)
    requires Inv(st) && Names(st, n, who, token) && st.tasks[n].status.TaskRunning?
    ensures HeldAt(st, n)
  {
    HeldRow(st, n);
  }

  lemma RenewTold(st: RunState, n: NodeId, who: string, token: Token, lease: nat, now: nat)
    requires Inv(st)
    ensures Told(st, AfterRenew(st, n, who, token, lease, now).st)
  {
    if OwnsTask(st, n, who, token, now) {
      OwnedIsHeld(st, n, who, token, now);
      ExtendTold(st, n, now + lease);
    }
  }

  lemma BeatTold(st: RunState, n: NodeId, who: string, token: Token, lease: nat, now: nat)
    requires Inv(st)
    ensures Told(st, AfterHeartbeat(st, n, who, token, lease, now).st)
  {
    if Names(st, n, who, token) && st.tasks[n].status.TaskRunning? {
      NamedIsHeld(st, n, who, token);
      ExtendTold(st, n, now + lease);
    }
  }

  lemma ReleaseTold(st: RunState, n: NodeId)
    requires Inv(st) && HeldAt(st, n) && st.run != RunRunning && !TaskTerminal(st.tasks[n].status) && st.tasks[n].token.Some?
    ensures Told(st, AfterRelease(st, n).st)
  {
    LeaseMakes(st.nodes[n], st.tasks[n], "", 0, 0);
    JustOne(NodeStarted, n);
    PutTold(st, n, st.nodes[n], Unleased(st.tasks[n]).(status := TaskPending), [], None);
    PausedRelease(st, n);
  }

  lemma StartedTold(st: RunState, n: NodeId)
    requires HeldAt(st, n)
    ensures Told(st, Commit(st, n, Started(st.tasks[n]), MoveNode(st.nodes[n], NodeRunning, true), [NodeEvent(NodeStarted, n)]).st)
  {
    LeaseMakes(st.nodes[n], st.tasks[n], "", 0, 0);
    JustOne(NodeStarted, n);
    CommitTold(st, n, Started(st.tasks[n]), MoveNode(st.nodes[n], NodeRunning, true), [NodeEvent(NodeStarted, n)], None);
  }

  lemma StartTold(st: RunState, n: NodeId, worker: string, token: Token, now: nat)
    requires Inv(st)
    ensures Told(st, AfterStart(st, n, worker, token, now).st)
  {
    if OwnsTask(st, n, worker, token, now) {
      OwnedIsHeld(st, n, worker, token, now);
      if st.run != RunRunning {
        ReleaseTold(st, n);
      } else {
        StartedTold(st, n);
      }
    }
  }

  // ----- reports -----

  lemma CompletedTold(st: RunState, n: NodeId, output: Json, lines: nat, log: seq<Event>)
    requires HeldAt(st, n) && log == LogLines(n, lines)
    ensures Told(st, CommitCompleted(st, n, output, log).st)
  {
    if TaskMay(st.tasks[n].status, TaskCompleted) {
      ReportMakes(st.nodes[n], st.tasks[n], output, true, 0, Parking("", map[]));
      LinesThenOne(lines, NodeCompletedEvent, n);
      CommitTold(st, n, st.tasks[n].(status := TaskCompleted), CompletedRow(st.nodes[n], output), log + [NodeEvent(NodeCompletedEvent, n)], None);
    }
  }

  lemma FailedTold(st: RunState, n: NodeId, anyTerminal: bool, lines: nat, log: seq<Event>)
    requires HeldAt(st, n) && log == LogLines(n, lines)
    ensures Told(st, CommitFailed(st, n, anyTerminal, log).st)
  {
    if TaskMay(st.tasks[n].status, TaskFailed) {
      ReportMakes(st.nodes[n], st.tasks[n], Null, anyTerminal, 0, Parking("", map[]));
      LinesThenOne(lines, NodeFailedEvent, n);
      CommitTold(st, n, st.tasks[n].(status := TaskFailed), FailedRow(st.nodes[n], anyTerminal), log + [NodeEvent(NodeFailedEvent, n)], None);
    }
  }

  lemma RetryTold(st: RunState, n: NodeId, backoff: nat, now: nat, lines: nat, log: seq<Event>)
    requires HeldAt(st, n) && log == LogLines(n, lines)
    ensures Told(st, CommitRetry(st, n, backoff, now, log).st)
  {
    if TaskMay(st.tasks[n].status, TaskRetryWait) {
      ReportMakes(st.nodes[n], st.tasks[n], Null, true, now + backoff, Parking("", map[]));
      LinesThenOne(lines, NodeRetryingEvent, n);
      CommitTold(st, n, RetryLater(st.tasks[n], now + backoff), MoveNode(st.nodes[n], NodeRetrying, true),
                 log + [NodeEvent(NodeRetryingEvent, n)], Some(NodeRetryingEvent));
    }
  }

  lemma ParkedTold(st: RunState, n: NodeId, worker: string, token: Token, parking: Parking, now: nat)
    requires Inv(st)
    ensures Told(st, AfterWait(st, n, worker, token, parking, now).st)
  {
    WaitCases(st, n, worker, token, parking, now);
    if AfterWait(st, n, worker, token, parking, now).st != st {
      OwnedIsHeld(st, n, worker, token, now);
      ReportMakes(st.nodes[n], st.tasks[n], Null, true, 0, parking);
      JustOne(NodeWaitingEvent, n);
      CommitTold(st, n, st.tasks[n].(status := TaskCompleted), ParkedRow(st.nodes[n], parking), [NodeEvent(NodeWaitingEvent, n)], Some(NodeWaitingEvent));
    }
  }

  lemma NoLines(n: NodeId)
    ensures LogLines(n, 0) == []
  {
  }

  lemma WorkerReportTold(s: System, a: Action)
    requires Inv(s.st) && (a.Complete? || a.Fail?)
    ensures Told(s.st, Answer(s, a).st)
  {
    if OwnsTask(s.st, a.node, a.who, a.token, s.clock) {
      OwnedIsHeld(s.st, a.node, a.who, a.token, s.clock);
      NoLines(a.node);
      match a
      case Complete(n, _, _, output) => CompletedTold(s.st, n, output, 0, []);
      case Fail(n, _, _) => FailedTold(s.st, n, true, 0, []);
    }
  }

  lemma WorkerRetryTold(s: System, a: Action)
    requires Inv(s.st) && a.Retry?
    ensures Told(s.st, Answer(s, a).st)
  {
    if OwnsTask(s.st, a.node, a.who, a.token, s.clock) {
      OwnedIsHeld(s.st, a.node, a.who, a.token, s.clock);
      NoLines(a.node);
      RetryTold(s.st, a.node, a.backoff, s.clock, 0, []);
    }
  }

  lemma SubmitTold(st: RunState, n: NodeId, runner: string, token: Token, result: RunnerResult, now: nat)
    requires Inv(st)
    ensures Told(st, AfterSubmit(st, n, runner, token, result, now).st)
  {
    if !RunTerminal(st.run) && OwnsTask(st, n, runner, token, now) {
      OwnedIsHeld(st, n, runner, token, now);
      var log := LogLines(n, result.logs);
      CompletedTold(st, n, result.output, result.logs, log);
      RetryTold(st, n, result.backoff, now, result.logs, log);
      FailedTold(st, n, false, result.logs, log);
    }
  }

  // ----- many rows -----

  lemma {:induction false} ResumesTally(ids: seq<NodeId>, k: EventKind, m: NodeId)
    requires IsMove(k)
    ensures Tally(ResumeEvents(ids), k, m) == if k.NodeResumed? then multiset(ids)[m] else 0
  {
    if ids != [] {
      var init, last := ids[..|ids| - 1], ids[|ids| - 1];
      SplitLast(ids);
      ResumesTally(init, k, m);
      TallyConcat(ResumeEvents(init), [NodeEvent(NodeResumed, last), NodeEvent(NodeCompletedEvent, last)], k, m);
    }
  }

  /** One look to the next in which no node is parked or resumed and no retry
      begins or ends. */
  predicate Calmly(row: NodeRun, task: Option<Task>, row': NodeRun, task': Option<Task>) {
    && (row'.status == row.status || (!row.status.NodeCompleted? && !row.status.NodeFailed? && Unmoved(row'.status)))
    && TaskCalm(task, task')
  }

  predicate Unmoved(status: NodeStatus) {
    !status.NodeWaiting? && !status.NodeCompleted? && !status.NodeFailed?
  }

  predicate TaskCalm(task: Option<Task>, task': Option<Task>) {
    && (task.Some? ==> task'.Some? && (task'.value.status == task.value.status || task'.value.status.TaskCancelled?))
    && (task.None? && task'.Some? ==> !task'.value.status.TaskRetryWait?)
  }

  /** The same, or a timer of the node ended. */
  predicate Early(row: NodeRun, task: Option<Task>, row': NodeRun, task': Option<Task>) {
    Calmly(row, task, row', task') || (TaskCalm(task, task') && row.status.NodeWaiting? && row'.status.NodeCompleted?)
  }

  lemma MovesAdd(row: NodeRun, task: Option<Task>, row1: NodeRun, task1: Option<Task>, row2: NodeRun, task2: Option<Task>, k: EventKind)
    requires IsMove(k) && Early(row, task, row1, task1) && Calmly(row1, task1, row2, task2)
    ensures Moved(row, task, row2, task2, k) == Moved(row, task, row1, task1, k) + Moved(row1, task1, row2, task2, k)
    ensures Early(row, task, row2, task2)
  {
  }

  ghost predicate Calm(a: RunState, b: RunState) {
    b.nodes.Keys == a.nodes.Keys &&
    forall n {:trigger Calmly(a.nodes[n], TaskOf(a, n), b.nodes[n], TaskOf(b, n))} :: n in a.nodes ==>
      Calmly(a.nodes[n], TaskOf(a, n), b.nodes[n], TaskOf(b, n))
  }

  ghost predicate AllEarly(a: RunState, b: RunState) {
    b.nodes.Keys == a.nodes.Keys &&
    forall n {:trigger Early(a.nodes[n], TaskOf(a, n), b.nodes[n], TaskOf(b, n))} :: n in a.nodes ==>
      Early(a.nodes[n], TaskOf(a, n), b.nodes[n], TaskOf(b, n))
  }

  lemma ToldTwice(a: RunState, b: RunState, c: RunState)
    requires Told(a, b) && Told(b, c) && AllEarly(a, b) && Calm(b, c)
    ensures Told(a, c) && AllEarly(a, c)
  {
    forall n, k | n in a.nodes && IsMove(k)
      ensures Tally(c.events, k, n) == Tally(a.events, k, n) + MovedIn(a, c, n, k)
    {
      assert Early(a.nodes[n], TaskOf(a, n), b.nodes[n], TaskOf(b, n)) && Calmly(b.nodes[n], TaskOf(b, n), c.nodes[n], TaskOf(c, n));
      MovesAdd(a.nodes[n], TaskOf(a, n), b.nodes[n], TaskOf(b, n), c.nodes[n], TaskOf(c, n), k);
      assert Tally(b.events, k, n) == Tally(a.events, k, n) + MovedIn(a, b, n, k);
    }
    forall n | n in a.nodes
      ensures Early(a.nodes[n], TaskOf(a, n), c.nodes[n], TaskOf(c, n))
    {
      assert Early(a.nodes[n], TaskOf(a, n), b.nodes[n], TaskOf(b, n)) && Calmly(b.nodes[n], TaskOf(b, n), c.nodes[n], TaskOf(c, n));
      MovesAdd(a.nodes[n], TaskOf(a, n), b.nodes[n], TaskOf(b, n), c.nodes[n], TaskOf(c, n), NodeResumed);
    }
  }

  lemma CalmIsEarly(a: RunState, b: RunState)
    requires Calm(a, b)
    ensures AllEarly(a, b)
  {
    forall n | n in a.nodes
      ensures Early(a.nodes[n], TaskOf(a, n), b.nodes[n], TaskOf(b, n))
    {
      assert Calmly(a.nodes[n], TaskOf(a, n), b.nodes[n], TaskOf(b, n));
    }
  }

  lemma SameCalm(st: RunState)
    ensures Calm(st, st)
  {
  }

  lemma ScheduleCalm(st: RunState, u: Unresolved, now: nat)
    ensures Calm(st, AfterSchedule(st, u, now))
  {
    var next := AfterSchedule(st, u, now);
    forall n | n in st.nodes
      ensures Calmly(st.nodes[n], TaskOf(st, n), next.nodes[n], TaskOf(next, n))
    {
      SkipSetLeast(st.graph, st.nodes);
      NewIsPending(st.graph, n, u, now);
    }
  }

  lemma NewIsPending(g: Graph, n: NodeId, u: Unresolved, now: nat)
    ensures TaskFor(g, n, u, now).status.TaskPending?
  {
  }

  lemma ScheduledMoves(st: RunState, s: set<NodeId>, q: set<NodeId>, u: Unresolved, now: nat, n: NodeId, k: EventKind)
    requires n in st.nodes && IsMove(k) && s <= PendingSet(st.nodes)
    requires q == QueueableSet(st.graph, MarkSkipped(st.nodes, s), st.tasks, u)
    ensures var row := MarkQueued(MarkSkipped(st.nodes, s), q)[n];
            var tasks := AddTasks(st.graph, st.tasks, q, u, now);
            Moved(st.nodes[n], TaskOf(st, n), row, if n in tasks then Some(tasks[n]) else None, k) ==
            if k.NodeQueuedEvent? && n in q then 1 else 0
  {
    NewIsPending(st.graph, n, u, now);
  }

  lemma ScheduleTells(st: RunState, u: Unresolved, now: nat, n: NodeId, k: EventKind)
    requires Tidy(st) && st.run.RunRunning? && n in st.nodes && IsMove(k)
    ensures var next := AfterSchedule(st, u, now);
            n in next.nodes && Tally(next.events, k, n) == Tally(st.events, k, n) + MovedIn(st, next, n, k)
  {
    var s := SkipSet(st.graph, st.nodes);
    var q := QueueableSet(st.graph, MarkSkipped(st.nodes, s), st.tasks, u);
    var skips, queues := NodeEvents(NodeSkippedEvent, Select(Order(st.graph), s)), NodeEvents(NodeQueuedEvent, Select(Order(st.graph), q));
    SkipSetLeast(st.graph, st.nodes);
    TallyConcat(st.events, skips, k, n);
    TallyConcat(st.events + skips, queues, k, n);
    ChosenTally(st.graph, s, NodeSkippedEvent, k, n);
    ChosenTally(st.graph, q, NodeQueuedEvent, k, n);
    ScheduledMoves(st, s, q, u, now, n, k);
  }

  lemma ScheduleTold(st: RunState, u: Unresolved, now: nat)
    requires Tidy(st)
    ensures Told(st, AfterSchedule(st, u, now)) && Tidy(AfterSchedule(st, u, now))
  {
    ScheduleTidy(st, u, now);
    if st.run.RunRunning? {
      forall n, k | n in st.nodes && IsMove(k)
        ensures Tally(AfterSchedule(st, u, now).events, k, n) == Tally(st.events, k, n) + MovedIn(st, AfterSchedule(st, u, now), n, k)
      {
        ScheduleTells(st, u, now, n, k);
      }
    } else {
      SameTold(st);
    }
  }

  lemma CancelCalm(st: RunState, hidden: set<NodeId>)
    ensures Calm(st, AfterCancelTasks(st, hidden))
  {
  }

  lemma CancelTells(st: RunState, hidden: set<NodeId>, n: NodeId, k: EventKind)
    requires Tidy(st) && n in st.nodes && IsMove(k)
    ensures var next := AfterCancelTasks(st, hidden);
            n in next.nodes && Tally(next.events, k, n) == Tally(st.events, k, n) + MovedIn(st, next, n, k)
  {
    var c := Cancellable(st.tasks, hidden);
    TallyConcat(st.events, NodeEvents(NodeCancelledEvent, Select(Order(st.graph), c)), k, n);
    ChosenTally(st.graph, c, NodeCancelledEvent, k, n);
  }

  lemma CancelTold(st: RunState, hidden: set<NodeId>)
    requires Tidy(st)
    ensures Told(st, AfterCancelTasks(st, hidden)) && Tidy(AfterCancelTasks(st, hidden))
  {
    forall n, k | n in st.nodes && IsMove(k)
      ensures Tally(AfterCancelTasks(st, hidden).events, k, n) == Tally(st.events, k, n) + MovedIn(st, AfterCancelTasks(st, hidden), n, k)
    {
      CancelTells(st, hidden, n, k);
    }
  }

  lemma PromoteLog(st: RunState, locked: set<NodeId>, now: nat, n: NodeId, k: EventKind)
    requires Tidy(st) && n in st.nodes && IsMove(k)
    ensures Tally(Requeued(st, locked, now).events, k, n) ==
            Tally(st.events, k, n) + if k.NodeQueuedEvent? && n in DueRetries(st.tasks, locked, now) then 1 else 0
  {
    var due := DueRetries(st.tasks, locked, now);
    TallyConcat(st.events, NodeEvents(NodeQueuedEvent, Select(Order(st.graph), due)), k, n);
    ChosenTally(st.graph, due, NodeQueuedEvent, k, n);
  }

  lemma PromoteMoved(st: RunState, locked: set<NodeId>, now: nat, n: NodeId, k: EventKind)
    requires Inv(st) && n in st.nodes && IsMove(k)
    ensures var next := Requeued(st, locked, now);
            n in next.nodes && MovedIn(st, next, n, k) == if k.NodeQueuedEvent? && n in DueRetries(st.tasks, locked, now) then 1 else 0
  {
    RequeuedAt(st, locked, now, n);
    if n in DueRetries(st.tasks, locked, now) {
      DueRow(st, locked, now, n);
    }
  }

  lemma PromoteTells(st: RunState, locked: set<NodeId>, now: nat, n: NodeId, k: EventKind)
    requires Tidy(st) && n in st.nodes && IsMove(k) && Inv(st)
    ensures var next := Requeued(st, locked, now);
            n in next.nodes && Tally(next.events, k, n) == Tally(st.events, k, n) + MovedIn(st, next, n, k)
  {
    PromoteLog(st, locked, now, n, k);
    PromoteMoved(st, locked, now, n, k);
  }

  lemma PromoteTold(st: RunState, locked: set<NodeId>, now: nat)
    requires Tidy(st) && Inv(st)
    ensures Told(st, AfterPromoteRetries(st, locked, now).st)
  {
    PromoteAccepted(st, locked, now);
    forall n, k | n in st.nodes && IsMove(k)
      ensures Tally(Requeued(st, locked, now).events, k, n) == Tally(st.events, k, n) + MovedIn(st, Requeued(st, locked, now), n, k)
    {
      PromoteTells(st, locked, now, n, k);
    }
  }

  lemma RecoverTold(st: RunState, locked: set<NodeId>, now: nat)
    ensures Told(st, AfterRecover(st, locked, now))
  {
  }

  lemma RingLog(st: RunState, now: nat, n: NodeId, k: EventKind)
    requires Tidy(st) && n in st.nodes && IsMove(k)
    ensures Tally(AfterPromoteWaits(st, now).events, k, n) ==
            Tally(st.events, k, n) + if k.NodeResumed? && DueWait(st.nodes[n], now) then 1 else 0
  {
    var due := DueWaits(st.nodes, now);
    TallyConcat(st.events, ResumeEvents(Select(Order(st.graph), due)), k, n);
    ResumesTally(Select(Order(st.graph), due), k, n);
    ChosenOnce(st.graph, due, n);
  }

  lemma RingMoved(st: RunState, now: nat, n: NodeId, k: EventKind)
    requires n in st.nodes && IsMove(k)
    ensures var next := AfterPromoteWaits(st, now);
            n in next.nodes && MovedIn(st, next, n, k) == if k.NodeResumed? && DueWait(st.nodes[n], now) then 1 else 0
  {
    ElapsedShape(st, now, n);
  }

  lemma RingTells(st: RunState, now: nat, n: NodeId, k: EventKind)
    requires Tidy(st) && n in st.nodes && IsMove(k)
    ensures var next := AfterPromoteWaits(st, now);
            n in next.nodes && Tally(next.events, k, n) == Tally(st.events, k, n) + MovedIn(st, next, n, k)
  {
    RingLog(st, now, n, k);
    RingMoved(st, now, n, k);
  }

  lemma RingTold(st: RunState, now: nat)
    requires Tidy(st)
    ensures Told(st, AfterPromoteWaits(st, now)) && Tidy(AfterPromoteWaits(st, now)) && AllEarly(st, AfterPromoteWaits(st, now))
  {
    forall n, k | n in st.nodes && IsMove(k)
      ensures Tally(AfterPromoteWaits(st, now).events, k, n) == Tally(st.events, k, n) + MovedIn(st, AfterPromoteWaits(st, now), n, k)
    {
      RingTells(st, now, n, k);
    }
  }

  // ----- runs -----

  lemma RunLogTold(st: RunState, target: RunStatus, log: seq<Event>)
    requires forall k, n :: IsMove(k) ==> Tally(log, k, n) == 0
    ensures Told(st, st.(run := target, events := st.events + log)) && Calm(st, st.(run := target, events := st.events + log))
  {
    var next := st.(run := target, events := st.events + log);
    forall n, k | n in st.nodes && IsMove(k)
      ensures Tally(next.events, k, n) == Tally(st.events, k, n) + MovedIn(st, next, n, k)
    {
      TallyConcat(st.events, log, k, n);
    }
  }

  lemma RunLogs(status: RunStatus)
    ensures forall k, n :: IsMove(k) ==> Tally(RunEventsFor(status), k, n) == 0
    ensures forall k, n :: IsMove(k) ==> Tally([RunEvent(WorkflowStarted)], k, n) == 0 && Tally([RunEvent(WorkflowCancelled)], k, n) == 0
    ensures forall k, n :: IsMove(k) ==> Tally([], k, n) == 0
  {
  }

  lemma TransitionTold(st: RunState, derived: RunStatus, hidden: set<NodeId>)
    requires Tidy(st)
    ensures Told(st, AfterTransition(st, derived, hidden)) && AllEarly(st, AfterTransition(st, derived, hidden))
    ensures Tidy(AfterTransition(st, derived, hidden))
  {
    var moved := st.(run := derived, events := st.events + []);
    assert moved == st.(run := derived);
    RunLogs(derived);
    RunLogTold(st, derived, []);
    CalmIsEarly(st, moved);
    var swept := if derived == RunFailed then AfterCancelTasks(moved, hidden) else moved;
    SameTold(moved);
    SameCalm(moved);
    CancelTold(moved, hidden);
    CancelCalm(moved, hidden);
    ToldTwice(st, moved, swept);
    RunLogTold(swept, swept.run, RunEventsFor(derived));
    ToldTwice(st, swept, AfterTransition(st, derived, hidden));
  }

  lemma TransitionCalm(st: RunState, derived: RunStatus, hidden: set<NodeId>)
    ensures Calm(st, AfterTransition(st, derived, hidden))
  {
  }

  lemma ConcludeTold(st: RunState, adv: RunState, u: Unresolved, unflushed: set<NodeId>, now: nat)
    requires Tidy(adv) && Told(st, adv) && AllEarly(st, adv)
    ensures Told(st, Conclude(st, adv, u, unflushed, now).st)
  {
    var derived, hidden := DeriveRun(adv.graph, adv.nodes), unflushed * (adv.tasks.Keys - st.tasks.Keys);
    var moved := if derived == st.run then adv else AfterTransition(adv, derived, hidden);
    SameTold(st);
    TransitionTold(adv, derived, hidden);
    TransitionCalm(adv, derived, hidden);
    ToldTwice(st, adv, AfterTransition(adv, derived, hidden));
    ScheduleTold(moved, u, now);
    ScheduleCalm(moved, u, now);
    ToldTwice(st, moved, AfterSchedule(moved, u, now));
  }

  lemma ReconcileTold(st: RunState, u: Unresolved, unflushed: set<NodeId>, now: nat)
    requires Tidy(st)
    ensures Told(st, AfterReconcile(st, u, unflushed, now).st)
  {
    var waits := AfterPromoteWaits(st, now);
    SameTold(st);
    CancelTold(st, {});
    RingTold(st, now);
    ScheduleTold(waits, u, now);
    ScheduleCalm(waits, u, now);
    ToldTwice(st, waits, Advanced(st, u, now));
    ConcludeTold(st, Advanced(st, u, now), u, unflushed, now);
  }

  lemma CancelRunTold(st: RunState)
    requires Tidy(st)
    ensures Told(st, AfterCancelRun(st).st)
  {
    SameTold(st);
    if !RunTerminal(st.run) && RunMay(st.run, RunCancelled) {
      var moved := st.(run := RunCancelled, events := st.events + [RunEvent(WorkflowCancelled)]);
      var idle := moved.(nodes := CancelNodes(moved.nodes));
      RunLogs(RunCancelled);
      RunLogTold(st, RunCancelled, [RunEvent(WorkflowCancelled)]);
      CalmIsEarly(st, moved);
      assert Told(moved, idle) && Calm(moved, idle);
      ToldTwice(st, moved, idle);
      CancelTold(idle, {});
      CancelCalm(idle, {});
      ToldTwice(st, idle, AfterCancelTasks(idle, {}));
    }
  }

  lemma AnsweredTold(st: RunState, n: NodeId, row: NodeRun, kk: EventKind)
    requires n in st.nodes && st.nodes[n].status.NodeWaiting?
    requires (kk.NodeCompletedEvent? && row.status.NodeCompleted?) || (kk.NodeFailedEvent? && row.status.NodeFailed?)
    ensures Told(st, st.(nodes := st.nodes[n := row], events := st.events + [NodeEvent(NodeResumed, n), NodeEvent(kk, n)]))
  {
    var log := [NodeEvent(NodeResumed, n), NodeEvent(kk, n)];
    var next := st.(nodes := st.nodes[n := row], events := st.events + log);
    forall m, k | m in st.nodes && IsMove(k)
      ensures Tally(next.events, k, m) == Tally(st.events, k, m) + MovedIn(st, next, m, k)
    {
      TallyConcat(st.events, log, k, m);
      AnswerTally(kk, n, k, m);
    }
  }

  lemma AnswerTally(kk: EventKind, n: NodeId, k: EventKind, m: NodeId)
    requires IsMove(k) && !IsMove(kk)
    ensures Tally([NodeEvent(NodeResumed, n), NodeEvent(kk, n)], k, m) == if k.NodeResumed? && m == n then 1 else 0
  {
  }

  lemma HumanTold(s: System, a: Action)
    requires a.Approve? || a.Reject? || a.SubmitInput?
    ensures Told(s.st, Answer(s, a).st)
  {
    var st, n := s.st, a.node;
    SameTold(st);
    if n in st.nodes && st.nodes[n].status.NodeWaiting? {
      var row := st.nodes[n];
      match a
      case Approve(_) => AnsweredTold(st, n, row.(status := NodeCompleted, output := Some(Obj(map["approved" := Bool(true)]))), NodeCompletedEvent);
      case SubmitInput(_, input, _) => AnsweredTold(st, n, row.(status := NodeCompleted, output := Some(Obj(input))), NodeCompletedEvent);
      case Reject(_) => AnsweredTold(st, n, row.(status := NodeFailed), NodeFailedEvent);
    }
  }

  lemma ControlTold(s: System, a: Action)
    requires Tidy(s.st) && (a.StartRun? || a.PauseRun? || a.ResumeRun? || a.CancelRun?)
    ensures Told(s.st, Answer(s, a).st)
  {
    SameTold(s.st);
    RunLogs(RunRunning);
    match a
    case StartRun => RunLogTold(s.st, RunRunning, [RunEvent(WorkflowStarted)]);
    case PauseRun => RunLogTold(s.st, RunPaused, []);
    case ResumeRun => RunLogTold(s.st, RunRunning, []);
    case CancelRun => CancelRunTold(s.st);
  }

  // ----- every action -----

  lemma LeaseTold(s: System, a: Action)
    requires Inv(s.st) && (a.Claim? || a.StartTask? || a.Renew? || a.RunnerClaim? || a.Heartbeat?)
    ensures Told(s.st, Answer(s, a).st)
  {
    match a
    case Claim(n, who, token, lease) => ClaimTold(s.st, n, who, token, lease, s.clock);
    case StartTask(n, who, token) => StartTold(s.st, n, who, token, s.clock);
    case Renew(n, who, token, lease) => RenewTold(s.st, n, who, token, lease, s.clock);
    case RunnerClaim(n, who, capabilities, token, lease) => RunnerClaimTold(s.st, n, who, capabilities, token, lease, s.clock);
    case Heartbeat(n, who, token, lease) => BeatTold(s.st, n, who, token, lease, s.clock);
  }

  lemma ParkTold(s: System, a: Action)
    requires Inv(s.st) && a.Park?
    ensures Told(s.st, Answer(s, a).st)
  {
    SameTold(s.st);
    if node :| FindNode(s.st.graph.nodes, a.node) == Some(node) {
      ParkedTold(s.st, a.node, a.who, a.token, ParkingFor(node, a.duration, s.clock), s.clock);
    }
  }

  lemma ReportTold(s: System, a: Action)
    requires Inv(s.st) && (a.Complete? || a.Fail? || a.Retry? || a.SubmitResult?)
    ensures Told(s.st, Answer(s, a).st)
  {
    match a
    case SubmitResult(n, who, token, result) => SubmitTold(s.st, n, who, token, result, s.clock);
    case Retry(_, _, _, _) => WorkerRetryTold(s, a);
    case _ => WorkerReportTold(s, a);
  }

  lemma RepairTold(s: System, a: Action)
    requires Inv(s.st) && Tidy(s.st) && (a.Recover? || a.PromoteRetries?)
    ensures Told(s.st, Answer(s, a).st)
  {
    match a
    case Recover(locked) => RecoverTold(s.st, locked, s.clock);
    case PromoteRetries(locked) => PromoteTold(s.st, locked, s.clock);
  }

  lemma AnswerTold(s: System, a: Action)
    requires Inv(s.st) && Tidy(s.st)
    ensures Told(s.st, Answer(s, a).st)
  {
    match a
    case Tick(_) => SameTold(s.st);
    case ScheduleReady(u) => ScheduleTold(s.st, u, s.clock);
    case ReconcileRun(u, unflushed) => ReconcileTold(s.st, u, unflushed, s.clock);
    case Approve(_) => HumanTold(s, a);
    case Reject(_) => HumanTold(s, a);
    case SubmitInput(_, _, _) => HumanTold(s, a);
    case StartRun => ControlTold(s, a);
    case PauseRun => ControlTold(s, a);
    case ResumeRun => ControlTold(s, a);
    case CancelRun => ControlTold(s, a);
    case Park(_, _, _, _) => ParkTold(s, a);
    case Recover(_) => RepairTold(s, a);
    case PromoteRetries(_) => RepairTold(s, a);
    case Complete(_, _, _, _) => ReportTold(s, a);
    case Fail(_, _, _) => ReportTold(s, a);
    case Retry(_, _, _, _) => ReportTold(s, a);
    case SubmitResult(_, _, _, _) => ReportTold(s, a);
    case _ => LeaseTold(s, a);
  }

  lemma StepTold(s: System, a: Action)
    requires Inv(s.st) && Tidy(s.st)
    ensures Told(s.st, Step(s, a).st)
  {
    if Follows(s, a) {
      AnswerTold(s, a);
    } else {
      SameTold(s.st);
    }
  }

  // ----- every run -----

  /** How often the node made the move while `acts` were performed. */
  function Moves(k: EventKind, g: Graph, input: Json, acts: seq<Action>, n: NodeId): nat {
    if acts == [] then 0
    else
      var st, next := Execute(g, input, acts[..|acts| - 1]).st, Execute(g, input, acts).st;
      Moves(k, g, input, acts[..|acts| - 1], n) + if n in st.nodes && n in next.nodes then MovedIn(st, next, n, k) else 0
  }

  lemma NoEarlyMoves(g: Graph, input: Json, n: NodeId, k: EventKind)
    ensures Tally(Execute(g, input, []).st.events, k, n) == 0
  {
  }

  /** The log holds one NODE_QUEUED per queueing of the node, one NODE_RETRYING
      per granted retry, one NODE_WAITING per parking and one NODE_RESUMED per
      answer or elapsed timer: exactly as many as there were. */
  lemma {:induction false} MovesAreLogged(g: Graph, input: Json, acts: seq<Action>, n: NodeId, k: EventKind)
    requires Publishable(g) && n in Ids(g) && IsMove(k)
    ensures Tally(Execute(g, input, acts).st.events, k, n) == Moves(k, g, input, acts, n)
    decreases |acts|
  {
    if acts == [] {
      NoEarlyMoves(g, input, n, k);
    } else {
      var init := acts[..|acts| - 1];
      var s := Execute(g, input, init);
      MovesAreLogged(g, input, init, n, k);
      AlwaysSane(g, input, init);
      SaneIsTidy(s.st);
      StepTold(s, acts[|acts| - 1]);
    }
  }

  // ----- log lines -----

  /** The lines an accepted result brings. */
  function LinesOf(s: System, a: Action, n: NodeId): nat {
    if a.SubmitResult? && a.node == n && ReplyTo(s, a).outcome.Accepted? then a.result.logs else 0
  }

  function LinesIn(st: RunState, n: NodeId): nat {
    Tally(st.events, NodeLog, n)
  }

  lemma LinesTally(n: NodeId, lines: nat, m: NodeId)
    ensures Tally(LogLines(n, lines), NodeLog, m) == if m == n then lines else 0
    decreases lines
  {
    if lines > 0 {
      LinesTally(n, lines - 1, m);
      assert LogLines(n, lines) == LogLines(n, lines - 1) + [NodeEvent(NodeLog, n)];
      TallyConcat(LogLines(n, lines - 1), [NodeEvent(NodeLog, n)], NodeLog, m);
    }
  }

  lemma OtherTally(kk: EventKind, ids: seq<NodeId>, m: NodeId)
    requires !kk.NodeLog?
    ensures Tally(NodeEvents(kk, ids), NodeLog, m) == 0
  {
    NodeEventsTally(kk, ids, NodeLog, m);
  }

  lemma {:induction false} ResumeHasNoLines(ids: seq<NodeId>, m: NodeId)
    ensures Tally(ResumeEvents(ids), NodeLog, m) == 0
    decreases |ids|
  {
    if ids != [] {
      var init, last := ids[..|ids| - 1], ids[|ids| - 1];
      ResumeHasNoLines(init, m);
      TallyConcat(ResumeEvents(init), [NodeEvent(NodeResumed, last), NodeEvent(NodeCompletedEvent, last)], NodeLog, m);
    }
  }

  lemma ScheduleLines(st: RunState, u: Unresolved, now: nat, m: NodeId)
    ensures LinesIn(AfterSchedule(st, u, now), m) == LinesIn(st, m)
  {
    if st.run.RunRunning? {
      var s := SkipSet(st.graph, st.nodes);
      var q := QueueableSet(st.graph, MarkSkipped(st.nodes, s), st.tasks, u);
      var skips, queues := NodeEvents(NodeSkippedEvent, Select(Order(st.graph), s)), NodeEvents(NodeQueuedEvent, Select(Order(st.graph), q));
      OtherTally(NodeSkippedEvent, Select(Order(st.graph), s), m);
      OtherTally(NodeQueuedEvent, Select(Order(st.graph), q), m);
      TallyConcat(st.events, skips, NodeLog, m);
      TallyConcat(st.events + skips, queues, NodeLog, m);
    }
  }

  lemma CancelLines(st: RunState, hidden: set<NodeId>, m: NodeId)
    ensures LinesIn(AfterCancelTasks(st, hidden), m) == LinesIn(st, m)
  {
    var c := Select(Order(st.graph), Cancellable(st.tasks, hidden));
    OtherTally(NodeCancelledEvent, c, m);
    TallyConcat(st.events, NodeEvents(NodeCancelledEvent, c), NodeLog, m);
  }

  lemma TransitionLines(st: RunState, derived: RunStatus, hidden: set<NodeId>, m: NodeId)
    ensures LinesIn(AfterTransition(st, derived, hidden), m) == LinesIn(st, m)
  {
    var moved := st.(run := derived);
    CancelLines(moved, hidden, m);
    var swept := if derived == RunFailed then AfterCancelTasks(moved, hidden) else moved;
    TallyConcat(swept.events, RunEventsFor(derived), NodeLog, m);
  }

  lemma AdvancedLines(st: RunState, u: Unresolved, now: nat, m: NodeId)
    ensures LinesIn(Advanced(st, u, now), m) == LinesIn(st, m)
  {
    ResumeHasNoLines(Select(Order(st.graph), DueWaits(st.nodes, now)), m);
    TallyConcat(st.events, ResumeEvents(Select(Order(st.graph), DueWaits(st.nodes, now))), NodeLog, m);
    ScheduleLines(AfterPromoteWaits(st, now), u, now, m);
  }

  lemma ConcludeLines(st: RunState, adv: RunState, u: Unresolved, unflushed: set<NodeId>, now: nat, m: NodeId)
    requires LinesIn(adv, m) == LinesIn(st, m)
    ensures LinesIn(Conclude(st, adv, u, unflushed, now).st, m) == LinesIn(st, m)
  {
    var derived, hidden := DeriveRun(adv.graph, adv.nodes), unflushed * (adv.tasks.Keys - st.tasks.Keys);
    var moved := if derived == st.run then adv else AfterTransition(adv, derived, hidden);
    TransitionLines(adv, derived, hidden, m);
    ScheduleLines(moved, u, now, m);
  }

  lemma ReconcileLines(st: RunState, u: Unresolved, unflushed: set<NodeId>, now: nat, m: NodeId)
    ensures LinesIn(AfterReconcile(st, u, unflushed, now).st, m) == LinesIn(st, m)
  {
    CancelLines(st, {}, m);
    AdvancedLines(st, u, now, m);
    ConcludeLines(st, Advanced(st, u, now), u, unflushed, now, m);
  }

  lemma QuietLines(s: System, a: Action, m: NodeId)
    requires a.Claim? || a.StartTask? || a.Renew? || a.RunnerClaim? || a.Heartbeat? || a.Recover?
    ensures LinesIn(Answer(s, a).st, m) == LinesIn(s.st, m)
  {
  }

  lemma ReportLines(s: System, a: Action, m: NodeId)
    requires a.Complete? || a.Fail? || a.Retry?
    ensures LinesIn(Answer(s, a).st, m) == LinesIn(s.st, m)
  {
  }

  lemma ParkLines(s: System, a: Action, m: NodeId)
    requires a.Park?
    ensures LinesIn(Answer(s, a).st, m) == LinesIn(s.st, m)
  {
  }

  lemma SubmitLines(s: System, a: Action, m: NodeId)
    requires a.SubmitResult?
    ensures LinesIn(Answer(s, a).st, m) == LinesIn(s.st, m) + LinesOf(s, a, m)
  {
    LinesTally(a.node, a.result.logs, m);
    if a.result.ok {
      CompletedLines(s, a, m);
    } else {
      FailureLines(s, a, m);
    }
  }

  lemma CompletedLines(s: System, a: Action, m: NodeId)
    requires a.SubmitResult? && a.result.ok && Tally(LogLines(a.node, a.result.logs), NodeLog, m) == if m == a.node then a.result.logs else 0
    ensures LinesIn(Answer(s, a).st, m) == LinesIn(s.st, m) + LinesOf(s, a, m)
  {
    LinesAndOne(s.st.events, LogLines(a.node, a.result.logs), NodeEvent(NodeCompletedEvent, a.node), m);
  }

  lemma FailureLines(s: System, a: Action, m: NodeId)
    requires a.SubmitResult? && !a.result.ok && Tally(LogLines(a.node, a.result.logs), NodeLog, m) == if m == a.node then a.result.logs else 0
    ensures LinesIn(Answer(s, a).st, m) == LinesIn(s.st, m) + LinesOf(s, a, m)
  {
    var log := LogLines(a.node, a.result.logs);
    LinesAndOne(s.st.events, log, NodeEvent(NodeRetryingEvent, a.node), m);
    LinesAndOne(s.st.events, log, NodeEvent(NodeFailedEvent, a.node), m);
  }

  lemma LinesAndOne(events: seq<Event>, log: seq<Event>, e: Event, m: NodeId)
    requires !e.kind.NodeLog?
    ensures Tally(events + (log + [e]), NodeLog, m) == Tally(events, NodeLog, m) + Tally(log, NodeLog, m)
  {
    TallyConcat(log, [e], NodeLog, m);
    TallyConcat(events, log + [e], NodeLog, m);
  }

  lemma ControlLines(s: System, a: Action, m: NodeId)
    requires a.Tick? || a.StartRun? || a.PauseRun? || a.ResumeRun?
    ensures LinesIn(Answer(s, a).st, m) == LinesIn(s.st, m)
  {
  }

  lemma ApprovalLines(s: System, a: Action, m: NodeId)
    requires a.Approve? || a.Reject?
    ensures LinesIn(Answer(s, a).st, m) == LinesIn(s.st, m)
  {
  }

  lemma InputLines(s: System, a: Action, m: NodeId)
    requires a.SubmitInput?
    ensures LinesIn(Answer(s, a).st, m) == LinesIn(s.st, m)
  {
  }

  lemma CancelRunLines(s: System, a: Action, m: NodeId)
    requires a.CancelRun?
    ensures LinesIn(Answer(s, a).st, m) == LinesIn(s.st, m)
  {
    if !RunTerminal(s.st.run) {
      var moved := s.st.(run := RunCancelled, events := s.st.events + [RunEvent(WorkflowCancelled)]);
      CancelLines(moved.(nodes := CancelNodes(moved.nodes)), {}, m);
    }
  }

  lemma PromoteLines(s: System, a: Action, m: NodeId)
    requires a.PromoteRetries?
    ensures LinesIn(Answer(s, a).st, m) == LinesIn(s.st, m)
  {
    var due := Select(Order(s.st.graph), DueRetries(s.st.tasks, a.locked, s.clock));
    OtherTally(NodeQueuedEvent, due, m);
    TallyConcat(s.st.events, NodeEvents(NodeQueuedEvent, due), NodeLog, m);
  }

  lemma StepLines(s: System, a: Action, m: NodeId)
    ensures LinesIn(Step(s, a).st, m) == LinesIn(s.st, m) + LinesOf(s, a, m)
  {
    if Follows(s, a) {
      match a
      case SubmitResult(_, _, _, _) => SubmitLines(s, a, m);
      case ScheduleReady(u) => ScheduleLines(s.st, u, s.clock, m);
      case ReconcileRun(u, unflushed) => ReconcileLines(s.st, u, unflushed, s.clock, m);
      case PromoteRetries(_) => PromoteLines(s, a, m);
      case Park(_, _, _, _) => ParkLines(s, a, m);
      case _ =>
        if a.Claim? || a.StartTask? || a.Renew? || a.RunnerClaim? || a.Heartbeat? || a.Recover? {
          QuietLines(s, a, m);
        } else if a.Complete? || a.Fail? || a.Retry? {
          ReportLines(s, a, m);
        } else if a.CancelRun? {
          CancelRunLines(s, a, m);
        } else if a.Approve? || a.Reject? {
          ApprovalLines(s, a, m);
        } else if a.SubmitInput? {
          InputLines(s, a, m);
        } else {
          ControlLines(s, a, m);
        }
    }
  }

  function LinesBrought(g: Graph, input: Json, acts: seq<Action>, n: NodeId): nat {
    if acts == [] then 0
    else
      var init := acts[..|acts| - 1];
      LinesBrought(g, input, init, n) + LinesOf(Execute(g, input, init), acts[|acts| - 1], n)
  }

  /** Every output line of an accepted result is logged once, and no other line. */
  lemma {:induction false} LinesAreLogged(g: Graph, input: Json, acts: seq<Action>, n: NodeId)
    ensures Tally(Execute(g, input, acts).st.events, NodeLog, n) == LinesBrought(g, input, acts, n)
    decreases |acts|
  {
    if acts == [] {
      NoEarlyMoves(g, input, n, NodeLog);
    } else {
      var init := acts[..|acts| - 1];
      LinesAreLogged(g, input, init, n);
      StepLines(Execute(g, input, init), acts[|acts| - 1], n);
    }
  }
}
