/** The run trace is an exact ledger: in every reachable state the number of
    events of each kind logged for a node is what its rows say it should be. */
module TraceLedger {
  import opened Basics
  import opened StateMachines
  import opened Graphs
  import opened RunRows
  import opened Scheduling
  import opened SchedulerRules
  import opened QueueRules
  import opened LifecycleRules
  import opened Runtime
  import opened Invariant
  import opened QueueSafety
  import opened RuntimeSafety

  function Tally(events: seq<Event>, k: EventKind, n: NodeId): nat {
    multiset(events)[NodeEvent(k, n)]
  }

  /** The kinds of events the rows account for. */
  predicate Counted(k: EventKind) {
    k.NodeStarted? || k.NodeCompletedEvent? || k.NodeFailedEvent? || k.NodeSkippedEvent? || k.NodeCancelledEvent?
  }

  /** How many events of a kind the rows of a node call for. */
  function Due(input: bool, row: NodeRun, task: Option<Task>, k: EventKind): nat {
    match k
    case NodeStarted => if task.Some? then task.value.attempt else 0
    case NodeCompletedEvent => if row.status.NodeCompleted? && !input then 1 else 0
    case NodeFailedEvent => if row.status.NodeFailed? then 1 else 0
    case NodeSkippedEvent => if row.status.NodeSkipped? then 1 else 0
    case NodeCancelledEvent => if task.Some? && task.value.status.TaskCancelled? then 1 else 0
    case _ => 0
  }

  /** Events logged minus events called for. */
  function Surplus(st: RunState, n: NodeId, k: EventKind): int
    requires n in st.nodes
  {
    Tally(st.events, k, n) - Due(IsInputId(st.graph, n), st.nodes[n], TaskOf(st, n), k)
  }

  /** A transaction logs exactly what its row changes call for. */
  ghost predicate Level(st: RunState, next: RunState) {
    && next.graph == st.graph && next.nodes.Keys == st.nodes.Keys
    && forall n, k :: n in st.nodes && Counted(k) ==> Surplus(next, n, k) == Surplus(st, n, k)
  }

  lemma LevelTwice(a: RunState, b: RunState, c: RunState)
    requires Level(a, b) && Level(b, c)
    ensures Level(a, c)
  {
    forall n, k | n in a.nodes && Counted(k)
      ensures Surplus(c, n, k) == Surplus(a, n, k)
    {
      assert Surplus(b, n, k) == Surplus(a, n, k);
    }
  }

  lemma TallyConcat(a: seq<Event>, b: seq<Event>, k: EventKind, n: NodeId)
    ensures Tally(a + b, k, n) == Tally(a, k, n) + Tally(b, k, n)
  {
  }

  // ----- transactions on one row -----

  /** The log holds one event of kind `kk` for `n`, or none, among the counted ones. */
  ghost predicate Entry(log: seq<Event>, n: NodeId, kk: Option<EventKind>) {
    forall k, m :: Counted(k) ==> Tally(log, k, m) == if kk == Some(k) && m == n then 1 else 0
  }

  /** The row change calls for exactly one more event of kind `kk`, or none. */
  ghost function Pays(row: NodeRun, t: Task, row': NodeRun, t': Task, kk: Option<EventKind>): Verdict {
    if forall k :: Counted(k) ==> Due(false, row', Some(t'), k) == Due(false, row, Some(t), k) + (if kk == Some(k) then 1 else 0)
    then Consistent else Broken
  }

  lemma PutLevel(st: RunState, n: NodeId, row: NodeRun, t: Task, log: seq<Event>, kk: Option<EventKind>)
    requires n in st.nodes && n in st.tasks && !IsInputId(st.graph, n)
    requires Entry(log, n, kk) && Pays(st.nodes[n], st.tasks[n], row, t, kk) == Consistent
    ensures Level(st, Put(st, n, row, t, log))
  {
    var next := Put(st, n, row, t, log);
    forall m, k | m in st.nodes && Counted(k)
      ensures Surplus(next, m, k) == Surplus(st, m, k)
    {
      TallyConcat(st.events, log, k, m);
      assert Tally(log, k, m) == if kk == Some(k) && m == n then 1 else 0;
    }
  }

  lemma NoEntry(n: NodeId)
    ensures Entry([], n, None)
  {
  }

  lemma OneEntry(lines: nat, kk: EventKind, n: NodeId)
    ensures Entry(LogLines(n, lines) + [NodeEvent(kk, n)], n, if Counted(kk) then Some(kk) else None)
  {
    var log := LogLines(n, lines);
    forall k, m | Counted(k)
      ensures Tally(log + [NodeEvent(kk, n)], k, m) == if kk == k && m == n then 1 else 0
    {
      TallyConcat(log, [NodeEvent(kk, n)], k, m);
      assert NodeEvent(k, m) !in log;
    }
  }

  lemma BareEntry(kk: EventKind, n: NodeId)
    ensures Entry([NodeEvent(kk, n)], n, if Counted(kk) then Some(kk) else None)
    ensures Entry([] + [NodeEvent(kk, n)], n, if Counted(kk) then Some(kk) else None)
  {
    OneEntry(0, kk, n);
    assert LogLines(n, 0) + [NodeEvent(kk, n)] == [NodeEvent(kk, n)];
    assert [] + [NodeEvent(kk, n)] == [NodeEvent(kk, n)];
  }

  lemma HeldPays(parked: bool, run: RunStatus, row: NodeRun, t: Task, until: nat)
    requires HeldPair(parked, run, row, t)
    ensures Pays(row, t, row, Extended(t, until), None) == Consistent
    ensures Pays(row, t, row, Unleased(t).(status := TaskPending), None) == Consistent
    ensures t.status.TaskClaimed? ==>
              var row' := MoveNode(row, NodeRunning, true);
              row'.Some? && Pays(row, t, row'.value, Started(t), Some(NodeStarted)) == Consistent
  {
  }

  lemma ReportPays(parked: bool, run: RunStatus, row: NodeRun, t: Task, output: Json, anyTerminal: bool, at: nat, parking: Parking)
    requires HeldPair(parked, run, row, t) && t.status.TaskRunning?
    ensures var row' := CompletedRow(row, output);
            row'.Some? && Pays(row, t, row'.value, t.(status := TaskCompleted), Some(NodeCompletedEvent)) == Consistent
    ensures var row' := FailedRow(row, anyTerminal);
            row'.Some? && Pays(row, t, row'.value, t.(status := TaskFailed), Some(NodeFailedEvent)) == Consistent
    ensures var row' := MoveNode(row, NodeRetrying, true);
            row'.Some? && Pays(row, t, row'.value, RetryLater(t, at), None) == Consistent
    ensures var row' := ParkedRow(row, parking);
            row'.Some? && Pays(row, t, row'.value, t.(status := TaskCompleted), None) == Consistent
  {
  }

  lemma QueuedPays(run: RunStatus, row: NodeRun, t: Task, who: string, token: Token, until: nat)
    requires QueuedPair(run, row, t)
    ensures Pays(row, t, row, Leased(t, who, token, until), None) == Consistent
    ensures var row' := MoveNode(row, NodeRunning, true);
            row'.Some? && Pays(row, t, row'.value, Started(Leased(t, who, token, until)), Some(NodeStarted)) == Consistent
  {
  }

  lemma CommitLevel(st: RunState, n: NodeId, t: Task, row: Option<NodeRun>, log: seq<Event>, kk: Option<EventKind>)
    requires n in st.nodes && n in st.tasks && !IsInputId(st.graph, n)
    requires Entry(log, n, kk) && row.Some? && Pays(st.nodes[n], st.tasks[n], row.value, t, kk) == Consistent
    ensures Level(st, Commit(st, n, t, row, log).st)
  {
    PutLevel(st, n, row.value, t, log, kk);
  }

  lemma ClaimLevel(st: RunState, n: NodeId, worker: string, token: Token, lease: nat, now: nat)
    requires Inv(st)
    ensures Level(st, AfterClaim(st, n, worker, token, lease, now).st)
  {
    if Claimable(st, n, now) && st.tasks[n].capability.None? {
      QueuedRow(st, n);
      QueuedPays(st.run, st.nodes[n], st.tasks[n], worker, token, now + lease);
      NoEntry(n);
      CommitLevel(st, n, Leased(st.tasks[n], worker, token, now + lease), Some(st.nodes[n]), [], None);
    }
  }

  lemma RunnerClaimLevel(st: RunState, n: NodeId, runner: string, capabilities: set<string>, token: Token, lease: nat, now: nat)
    requires Inv(st)
    ensures Level(st, AfterRunnerClaim(st, n, runner, capabilities, token, lease, now).st)
  {
    if Claimable(st, n, now) && RunnerMatches(st.tasks[n], runner, capabilities) {
      QueuedRow(st, n);
      QueuedPays(st.run, st.nodes[n], st.tasks[n], runner, token, now + lease);
      BareEntry(NodeStarted, n);
      CommitLevel(st, n, Started(Leased(st.tasks[n], runner, token, now + lease)),
                  MoveNode(st.nodes[n], NodeRunning, true), [NodeEvent(NodeStarted, n)], Some(NodeStarted));
    }
  }

  lemma RenewLevel(st: RunState, n: NodeId, until: nat)
    requires Inv(st) && n in st.tasks && !TaskTerminal(st.tasks[n].status) && st.tasks[n].token.Some?
    ensures n in st.nodes && Level(st, Commit(st, n, Extended(st.tasks[n], until), Some(st.nodes[n]), []).st)
  {
    HeldRow(st, n);
    HeldPays(IsParkedId(st.graph, n), st.run, st.nodes[n], st.tasks[n], until);
    NoEntry(n);
    CommitLevel(st, n, Extended(st.tasks[n], until), Some(st.nodes[n]), [], None);
  }

  lemma RenewalLevel(st: RunState, n: NodeId, who: string, token: Token, lease: nat, now: nat)
    requires Inv(st)
    ensures Level(st, AfterRenew(st, n, who, token, lease, now).st)
  {
    if OwnsTask(st, n, who, token, now) {
      RenewLevel(st, n, now + lease);
    }
  }

  lemma HeartbeatLevel(st: RunState, n: NodeId, who: string, token: Token, lease: nat, now: nat)
    requires Inv(st)
    ensures Level(st, AfterHeartbeat(st, n, who, token, lease, now).st)
  {
    if Names(st, n, who, token) && st.tasks[n].status == TaskRunning && !RunTerminal(st.run) {
      RenewLevel(st, n, now + lease);
    }
  }

  lemma ReleaseLevel(st: RunState, n: NodeId)
    requires Inv(st) && n in st.tasks && n in st.nodes && !TaskTerminal(st.tasks[n].status) && st.tasks[n].token.Some?
    requires st.run != RunRunning
    ensures Level(st, AfterRelease(st, n).st)
  {
    HeldRow(st, n);
    HeldPays(IsParkedId(st.graph, n), st.run, st.nodes[n], st.tasks[n], 0);
    NoEntry(n);
    PutLevel(st, n, st.nodes[n], Unleased(st.tasks[n]).(status := TaskPending), [], None);
    PausedRelease(st, n);
  }

  lemma StartLevel(st: RunState, n: NodeId, worker: string, token: Token, now: nat)
    requires Inv(st)
    ensures Level(st, AfterStart(st, n, worker, token, now).st)
  {
    if OwnsTask(st, n, worker, token, now) {
      if st.run != RunRunning {
        ReleaseLevel(st, n);
      } else if TaskMay(st.tasks[n].status, TaskRunning) {
        HeldRow(st, n);
        HeldPays(IsParkedId(st.graph, n), st.run, st.nodes[n], st.tasks[n], 0);
        BareEntry(NodeStarted, n);
        CommitLevel(st, n, Started(st.tasks[n]), MoveNode(st.nodes[n], NodeRunning, true), [NodeEvent(NodeStarted, n)], Some(NodeStarted));
      }
    }
  }

  predicate HeldAt(st: RunState, n: NodeId) {
    && n in st.tasks && n in st.nodes && !IsInputId(st.graph, n)
    && HeldPair(IsParkedId(st.graph, n), st.run, st.nodes[n], st.tasks[n])
  }

  lemma OwnedIsHeld(st: RunState, n: NodeId, who: string, token: Token, now: nat)
    requires Inv(st) && OwnsTask(st, n, who, token, now)
    ensures HeldAt(st, n)
  {
    HeldRow(st, n);
  }

  /** A report, with any number of log lines before it. */
  lemma CompletedLevel(st: RunState, n: NodeId, output: Json, log: seq<Event>)
    requires HeldAt(st, n)
    requires Entry(log + [NodeEvent(NodeCompletedEvent, n)], n, Some(NodeCompletedEvent))
    ensures Level(st, CommitCompleted(st, n, output, log).st)
  {
    if TaskMay(st.tasks[n].status, TaskCompleted) {
      ReportPays(IsParkedId(st.graph, n), st.run, st.nodes[n], st.tasks[n], output, true, 0, Parking("", map[]));
      CommitLevel(st, n, st.tasks[n].(status := TaskCompleted), CompletedRow(st.nodes[n], output),
                  log + [NodeEvent(NodeCompletedEvent, n)], Some(NodeCompletedEvent));
    }
  }

  lemma FailedLevel(st: RunState, n: NodeId, anyTerminal: bool, log: seq<Event>)
    requires HeldAt(st, n)
    requires Entry(log + [NodeEvent(NodeFailedEvent, n)], n, Some(NodeFailedEvent))
    ensures Level(st, CommitFailed(st, n, anyTerminal, log).st)
  {
    if TaskMay(st.tasks[n].status, TaskFailed) {
      ReportPays(IsParkedId(st.graph, n), st.run, st.nodes[n], st.tasks[n], Null, anyTerminal, 0, Parking("", map[]));
      CommitLevel(st, n, st.tasks[n].(status := TaskFailed), FailedRow(st.nodes[n], anyTerminal),
                  log + [NodeEvent(NodeFailedEvent, n)], Some(NodeFailedEvent));
    }
  }

  lemma RetryLevel(st: RunState, n: NodeId, backoff: nat, now: nat, log: seq<Event>)
    requires HeldAt(st, n)
    requires Entry(log + [NodeEvent(NodeRetryingEvent, n)], n, None)
    ensures Level(st, CommitRetry(st, n, backoff, now, log).st)
  {
    if TaskMay(st.tasks[n].status, TaskRetryWait) {
      ReportPays(IsParkedId(st.graph, n), st.run, st.nodes[n], st.tasks[n], Null, true, now + backoff, Parking("", map[]));
      CommitLevel(st, n, RetryLater(st.tasks[n], now + backoff), MoveNode(st.nodes[n], NodeRetrying, true),
                  log + [NodeEvent(NodeRetryingEvent, n)], None);
    }
  }

  lemma ParkedLevel(st: RunState, n: NodeId, parking: Parking)
    requires HeldAt(st, n) && st.tasks[n].status.TaskRunning?
    ensures Level(st, Commit(st, n, st.tasks[n].(status := TaskCompleted), ParkedRow(st.nodes[n], parking), [NodeEvent(NodeWaitingEvent, n)]).st)
  {
    ReportPays(IsParkedId(st.graph, n), st.run, st.nodes[n], st.tasks[n], Null, true, 0, parking);
    BareEntry(NodeWaitingEvent, n);
    CommitLevel(st, n, st.tasks[n].(status := TaskCompleted), ParkedRow(st.nodes[n], parking), [NodeEvent(NodeWaitingEvent, n)], None);
  }

  lemma WaitCases(st: RunState, n: NodeId, worker: string, token: Token, parking: Parking, now: nat)
    ensures var r := AfterWait(st, n, worker, token, parking, now);
            || r.st == st
            || (&& OwnsTask(st, n, worker, token, now) && st.tasks[n].status.TaskRunning?
                && r == Commit(st, n, st.tasks[n].(status := TaskCompleted), ParkedRow(st.nodes[n], parking), [NodeEvent(NodeWaitingEvent, n)]))
  {
  }

  lemma WaitLevel(st: RunState, n: NodeId, worker: string, token: Token, parking: Parking, now: nat)
    requires Inv(st)
    ensures Level(st, AfterWait(st, n, worker, token, parking, now).st)
  {
    WaitCases(st, n, worker, token, parking, now);
    if AfterWait(st, n, worker, token, parking, now).st != st {
      OwnedIsHeld(st, n, worker, token, now);
      ParkedLevel(st, n, parking);
    }
  }

  lemma CompleteLevel(st: RunState, n: NodeId, worker: string, token: Token, output: Json, now: nat)
    requires Inv(st)
    ensures Level(st, AfterComplete(st, n, worker, token, output, now).st)
  {
    if OwnsTask(st, n, worker, token, now) {
      OwnedIsHeld(st, n, worker, token, now);
      BareEntry(NodeCompletedEvent, n);
      CompletedLevel(st, n, output, []);
    }
  }

  lemma FailLevel(st: RunState, n: NodeId, worker: string, token: Token, now: nat)
    requires Inv(st)
    ensures Level(st, AfterFail(st, n, worker, token, now).st)
  {
    if OwnsTask(st, n, worker, token, now) {
      OwnedIsHeld(st, n, worker, token, now);
      BareEntry(NodeFailedEvent, n);
      FailedLevel(st, n, true, []);
    }
  }

  lemma DeferLevel(st: RunState, n: NodeId, worker: string, token: Token, backoff: nat, now: nat)
    requires Inv(st)
    ensures Level(st, AfterRetry(st, n, worker, token, backoff, now).st)
  {
    if OwnsTask(st, n, worker, token, now) {
      OwnedIsHeld(st, n, worker, token, now);
      BareEntry(NodeRetryingEvent, n);
      RetryLevel(st, n, backoff, now, []);
    }
  }

  lemma ResultLevel(st: RunState, n: NodeId, result: RunnerResult, now: nat)
    requires HeldAt(st, n)
    ensures var log := LogLines(n, result.logs);
            && Level(st, CommitCompleted(st, n, result.output, log).st)
            && Level(st, CommitRetry(st, n, result.backoff, now, log).st)
            && Level(st, CommitFailed(st, n, false, log).st)
  {
    var log := LogLines(n, result.logs);
    OneEntry(result.logs, NodeCompletedEvent, n);
    CompletedLevel(st, n, result.output, log);
    OneEntry(result.logs, NodeRetryingEvent, n);
    RetryLevel(st, n, result.backoff, now, log);
    OneEntry(result.logs, NodeFailedEvent, n);
    FailedLevel(st, n, false, log);
  }

  lemma SubmitLevel(st: RunState, n: NodeId, runner: string, token: Token, result: RunnerResult, now: nat)
    requires Inv(st)
    ensures Level(st, AfterSubmit(st, n, runner, token, result, now).st)
  {
    if !RunTerminal(st.run) && OwnsTask(st, n, runner, token, now) {
      OwnedIsHeld(st, n, runner, token, now);
      ResultLevel(st, n, result, now);
    }
  }

  // ----- transactions on many rows -----

  lemma {:induction false} NodeEventsTally(kk: EventKind, ids: seq<NodeId>, k: EventKind, m: NodeId)
    ensures Tally(NodeEvents(kk, ids), k, m) == if k == kk then multiset(ids)[m] else 0
  {
    if ids != [] {
      var init, last := ids[..|ids| - 1], ids[|ids| - 1];
      SplitLast(ids);
      NodeEventsTally(kk, init, k, m);
      NodeEventsSnoc(kk, init, last);
      TallyConcat(NodeEvents(kk, init), [NodeEvent(kk, last)], k, m);
    }
  }

  lemma {:induction false} ResumeTally(ids: seq<NodeId>, k: EventKind, m: NodeId)
    requires Counted(k)
    ensures Tally(ResumeEvents(ids), k, m) == if k.NodeCompletedEvent? then multiset(ids)[m] else 0
  {
    if ids != [] {
      var init, last := ids[..|ids| - 1], ids[|ids| - 1];
      SplitLast(ids);
      ResumeTally(init, k, m);
      TallyConcat(ResumeEvents(init), [NodeEvent(NodeResumed, last), NodeEvent(NodeCompletedEvent, last)], k, m);
    }
  }

  lemma ChosenOnce(g: Graph, chosen: set<NodeId>, m: NodeId)
    requires Contract(g) && m in Ids(g)
    ensures multiset(Select(Order(g), chosen))[m] == if m in chosen then 1 else 0
  {
    OrderMembers(g);
    SelectCounts(Order(g), chosen, m);
  }

  lemma ChosenTally(g: Graph, chosen: set<NodeId>, kk: EventKind, k: EventKind, m: NodeId)
    requires Contract(g) && m in Ids(g)
    ensures Tally(NodeEvents(kk, Select(Order(g), chosen)), k, m) == if k == kk && m in chosen then 1 else 0
  {
    NodeEventsTally(kk, Select(Order(g), chosen), k, m);
    ChosenOnce(g, chosen, m);
  }

  ghost predicate Tidy(st: RunState) {
    Contract(st.graph) && st.nodes.Keys == Ids(st.graph) && st.tasks.Keys <= st.nodes.Keys
  }

  lemma RecoverLevel(st: RunState, locked: set<NodeId>, now: nat)
    ensures Level(st, AfterRecover(st, locked, now))
  {
  }

  lemma PromoteLevel(st: RunState, locked: set<NodeId>, now: nat)
    requires Tidy(st)
    ensures Level(st, AfterPromoteRetries(st, locked, now).st)
  {
    var due := DueRetries(st.tasks, locked, now);
    var next := AfterPromoteRetries(st, locked, now).st;
    forall n, k | n in st.nodes && Counted(k)
      ensures Surplus(next, n, k) == Surplus(st, n, k)
    {
      var log := NodeEvents(NodeQueuedEvent, Select(Order(st.graph), due));
      TallyConcat(st.events, log, k, n);
      ChosenTally(st.graph, due, NodeQueuedEvent, k, n);
    }
  }

  lemma ScheduledSurplus(st: RunState, u: Unresolved, now: nat, n: NodeId, k: EventKind)
    requires Tidy(st) && st.run.RunRunning? && n in st.nodes && Counted(k)
    ensures n in AfterSchedule(st, u, now).nodes && Surplus(AfterSchedule(st, u, now), n, k) == Surplus(st, n, k)
  {
    var s := SkipSet(st.graph, st.nodes);
    var q := QueueableSet(st.graph, MarkSkipped(st.nodes, s), st.tasks, u);
    var skips, queues := NodeEvents(NodeSkippedEvent, Select(Order(st.graph), s)), NodeEvents(NodeQueuedEvent, Select(Order(st.graph), q));
    SkipSetLeast(st.graph, st.nodes);
    TallyConcat(st.events, skips, k, n);
    TallyConcat(st.events + skips, queues, k, n);
    ChosenTally(st.graph, s, NodeSkippedEvent, k, n);
    ChosenTally(st.graph, q, NodeQueuedEvent, k, n);
    ScheduledDue(st, s, q, u, now, n, k);
  }

  lemma ScheduleTidy(st: RunState, u: Unresolved, now: nat)
    requires Tidy(st)
    ensures Tidy(AfterSchedule(st, u, now)) && AfterSchedule(st, u, now).graph == st.graph
  {
  }

  lemma ScheduleLevel(st: RunState, u: Unresolved, now: nat)
    requires Tidy(st)
    ensures Level(st, AfterSchedule(st, u, now)) && Tidy(AfterSchedule(st, u, now))
  {
    ScheduleTidy(st, u, now);
    if st.run.RunRunning? {
      forall n, k | n in st.nodes && Counted(k)
        ensures Surplus(AfterSchedule(st, u, now), n, k) == Surplus(st, n, k)
      {
        ScheduledSurplus(st, u, now, n, k);
      }
    }
  }

  lemma ScheduledDue(st: RunState, s: set<NodeId>, q: set<NodeId>, u: Unresolved, now: nat, n: NodeId, k: EventKind)
    requires n in st.nodes && Counted(k) && s <= PendingSet(st.nodes)
    requires q == QueueableSet(st.graph, MarkSkipped(st.nodes, s), st.tasks, u)
    ensures var row := MarkQueued(MarkSkipped(st.nodes, s), q)[n];
            var tasks := AddTasks(st.graph, st.tasks, q, u, now);
            Due(IsInputId(st.graph, n), row, if n in tasks then Some(tasks[n]) else None, k) ==
            Due(IsInputId(st.graph, n), st.nodes[n], TaskOf(st, n), k) + (if k.NodeSkippedEvent? && n in s then 1 else 0)
  {
  }

  lemma CancelledSurplus(st: RunState, hidden: set<NodeId>, n: NodeId, k: EventKind)
    requires Tidy(st) && n in st.nodes && Counted(k)
    ensures n in AfterCancelTasks(st, hidden).nodes && Surplus(AfterCancelTasks(st, hidden), n, k) == Surplus(st, n, k)
  {
    var c := Cancellable(st.tasks, hidden);
    TallyConcat(st.events, NodeEvents(NodeCancelledEvent, Select(Order(st.graph), c)), k, n);
    ChosenTally(st.graph, c, NodeCancelledEvent, k, n);
  }

  lemma CancelTasksLevel(st: RunState, hidden: set<NodeId>)
    requires Tidy(st)
    ensures Level(st, AfterCancelTasks(st, hidden)) && Tidy(AfterCancelTasks(st, hidden))
  {
    forall n, k | n in st.nodes && Counted(k)
      ensures Surplus(AfterCancelTasks(st, hidden), n, k) == Surplus(st, n, k)
    {
      CancelledSurplus(st, hidden, n, k);
    }
  }

  lemma WaitingIsNoInput(input: bool, parked: bool, run: RunStatus, row: NodeRun, task: Option<Task>)
    requires Judge(input, parked, run, row, task) == Consistent && row.status.NodeWaiting?
    ensures !input
  {
  }

  ghost predicate InputsDoNotWait(st: RunState) {
    forall n :: n in st.nodes && st.nodes[n].status.NodeWaiting? ==> !IsInputId(st.graph, n)
  }

  lemma NoInputWaits(st: RunState)
    requires Inv(st)
    ensures InputsDoNotWait(st)
  {
    forall n | n in st.nodes && st.nodes[n].status.NodeWaiting?
      ensures !IsInputId(st.graph, n)
    {
      assert NodeOk(st, n);
      WaitingIsNoInput(IsInputId(st.graph, n), IsParkedId(st.graph, n), st.run, st.nodes[n], TaskOf(st, n));
    }
  }

  lemma ElapsedDue(input: bool, row: NodeRun, task: Option<Task>, now: nat, k: EventKind)
    requires Counted(k) && DueWait(row, now) && !input
    ensures Due(input, Elapsed(row), task, k) == Due(input, row, task, k) + (if k.NodeCompletedEvent? then 1 else 0)
  {
  }

  lemma ElapsedShape(st: RunState, now: nat, n: NodeId)
    requires n in st.nodes
    ensures var next, due := AfterPromoteWaits(st, now), DueWaits(st.nodes, now);
            && next.graph == st.graph && next.tasks == st.tasks && n in next.nodes
            && next.nodes[n] == (if n in due then Elapsed(st.nodes[n]) else st.nodes[n])
            && next.events == st.events + ResumeEvents(Select(Order(st.graph), due))
  {
  }

  lemma ElapsedSurplus(st: RunState, now: nat, n: NodeId, k: EventKind)
    requires Tidy(st) && n in st.nodes && Counted(k) && (st.nodes[n].status.NodeWaiting? ==> !IsInputId(st.graph, n))
    ensures n in AfterPromoteWaits(st, now).nodes && Surplus(AfterPromoteWaits(st, now), n, k) == Surplus(st, n, k)
  {
    var due := DueWaits(st.nodes, now);
    var log := ResumeEvents(Select(Order(st.graph), due));
    TallyConcat(st.events, log, k, n);
    ResumeTally(Select(Order(st.graph), due), k, n);
    ChosenOnce(st.graph, due, n);
    if n in due {
      ElapsedDue(IsInputId(st.graph, n), st.nodes[n], TaskOf(st, n), now, k);
    }
    ElapsedShape(st, now, n);
  }

  lemma PromoteWaitsLevel(st: RunState, now: nat)
    requires InputsDoNotWait(st) && Tidy(st)
    ensures Level(st, AfterPromoteWaits(st, now)) && Tidy(AfterPromoteWaits(st, now))
  {
    forall n, k | n in st.nodes && Counted(k)
      ensures Surplus(AfterPromoteWaits(st, now), n, k) == Surplus(st, n, k)
    {
      ElapsedSurplus(st, now, n, k);
    }
  }

  // ----- runs -----

  /** No event of a node is among them. */
  ghost predicate RunEventsOnly(log: seq<Event>) {
    forall k, n :: Counted(k) ==> Tally(log, k, n) == 0
  }

  lemma MovedLevel(st: RunState, target: RunStatus, log: seq<Event>)
    requires RunEventsOnly(log)
    ensures Level(st, st.(run := target, events := st.events + log))
  {
    var next := st.(run := target, events := st.events + log);
    forall n, k | n in st.nodes && Counted(k)
      ensures Surplus(next, n, k) == Surplus(st, n, k)
    {
      TallyConcat(st.events, log, k, n);
      assert Tally(log, k, n) == 0;
    }
  }

  lemma RunEventsAreRunEvents(status: RunStatus)
    ensures RunEventsOnly(RunEventsFor(status)) && RunEventsOnly([RunEvent(WorkflowStarted)])
    ensures RunEventsOnly([RunEvent(WorkflowCancelled)]) && RunEventsOnly([])
  {
  }

  lemma TransitionLevel(st: RunState, derived: RunStatus, hidden: set<NodeId>)
    requires Tidy(st)
    ensures Level(st, AfterTransition(st, derived, hidden)) && Tidy(AfterTransition(st, derived, hidden))
  {
    var moved := st.(run := derived);
    var swept := if derived == RunFailed then AfterCancelTasks(moved, hidden) else moved;
    assert Level(st, moved);
    CancelTasksLevel(moved, hidden);
    LevelTwice(st, moved, swept);
    RunEventsAreRunEvents(derived);
    MovedLevel(swept, swept.run, RunEventsFor(derived));
    LevelTwice(st, swept, AfterTransition(st, derived, hidden));
  }

  lemma ConcludeLevel(st: RunState, adv: RunState, u: Unresolved, unflushed: set<NodeId>, now: nat)
    requires Tidy(adv) && Level(st, adv)
    ensures Level(st, Conclude(st, adv, u, unflushed, now).st)
  {
    var derived, hidden := DeriveRun(adv.graph, adv.nodes), unflushed * (adv.tasks.Keys - st.tasks.Keys);
    var moved := if derived == st.run then adv else AfterTransition(adv, derived, hidden);
    TransitionLevel(adv, derived, hidden);
    LevelTwice(st, adv, AfterTransition(adv, derived, hidden));
    ScheduleLevel(moved, u, now);
    LevelTwice(st, moved, AfterSchedule(moved, u, now));
  }

  lemma ReconcileLevel(st: RunState, u: Unresolved, unflushed: set<NodeId>, now: nat)
    requires InputsDoNotWait(st) && Tidy(st)
    ensures Level(st, AfterReconcile(st, u, unflushed, now).st)
  {
    CancelTasksLevel(st, {});
    PromoteWaitsLevel(st, now);
    ScheduleLevel(AfterPromoteWaits(st, now), u, now);
    LevelTwice(st, AfterPromoteWaits(st, now), Advanced(st, u, now));
    ConcludeLevel(st, Advanced(st, u, now), u, unflushed, now);
  }

  lemma CancelRunLevel(st: RunState)
    requires Tidy(st)
    ensures Level(st, AfterCancelRun(st).st)
  {
    if RunMay(st.run, RunCancelled) {
      var moved := st.(run := RunCancelled, events := st.events + [RunEvent(WorkflowCancelled)]);
      var idle := moved.(nodes := CancelNodes(moved.nodes));
      RunEventsAreRunEvents(RunCancelled);
      MovedLevel(st, RunCancelled, [RunEvent(WorkflowCancelled)]);
      assert Level(moved, idle);
      LevelTwice(st, moved, idle);
      CancelTasksLevel(idle, {});
      LevelTwice(st, idle, AfterCancelTasks(idle, {}));
    }
  }

  lemma ResumedPair(kk: EventKind, n: NodeId, k: EventKind, m: NodeId)
    requires Counted(k)
    ensures Tally([NodeEvent(NodeResumed, n), NodeEvent(kk, n)], k, m) == if k == kk && m == n then 1 else 0
  {
  }

  lemma ParkedLevelOff(st: RunState, n: NodeId, row: NodeRun, kk: EventKind)
    requires n in st.nodes && st.nodes[n].status.NodeWaiting? && !IsInputId(st.graph, n)
    requires (kk.NodeCompletedEvent? && row.status.NodeCompleted?) || (kk.NodeFailedEvent? && row.status.NodeFailed?)
    ensures Level(st, st.(nodes := st.nodes[n := row], events := st.events + [NodeEvent(NodeResumed, n), NodeEvent(kk, n)]))
  {
    var log := [NodeEvent(NodeResumed, n), NodeEvent(kk, n)];
    var next := st.(nodes := st.nodes[n := row], events := st.events + log);
    forall m, k | m in st.nodes && Counted(k)
      ensures Surplus(next, m, k) == Surplus(st, m, k)
    {
      TallyConcat(st.events, log, k, m);
      ResumedPair(kk, n, k, m);
    }
  }

  lemma HumanLevel(st: RunState, n: NodeId, input: map<string, Json>, valid: bool)
    requires InputsDoNotWait(st)
    ensures Level(st, AfterApprove(st, n).st) && Level(st, AfterReject(st, n).st) && Level(st, AfterSubmitInput(st, n, input, valid).st)
  {
    if n in st.nodes && st.nodes[n].status.NodeWaiting? {
      var row := st.nodes[n];
      ParkedLevelOff(st, n, row.(status := NodeCompleted, output := Some(Obj(map["approved" := Bool(true)]))), NodeCompletedEvent);
      ParkedLevelOff(st, n, row.(status := NodeCompleted, output := Some(Obj(input))), NodeCompletedEvent);
      ParkedLevelOff(st, n, row.(status := NodeFailed), NodeFailedEvent);
    }
  }

  lemma ControlLevel(s: System, a: Action)
    requires Inv(s.st) && Tidy(s.st)
    requires a.StartRun? || a.PauseRun? || a.ResumeRun? || a.CancelRun? || a.Approve? || a.Reject? || a.SubmitInput?
    ensures Level(s.st, Answer(s, a).st)
  {
    RunEventsAreRunEvents(RunRunning);
    NoInputWaits(s.st);
    match a
    case StartRun => MovedLevel(s.st, RunRunning, [RunEvent(WorkflowStarted)]);
    case PauseRun => MovedLevel(s.st, RunPaused, []);
    case ResumeRun => MovedLevel(s.st, RunRunning, []);
    case CancelRun => CancelRunLevel(s.st);
    case Approve(n) => HumanLevel(s.st, n, map[], true);
    case Reject(n) => HumanLevel(s.st, n, map[], true);
    case SubmitInput(n, input, valid) => HumanLevel(s.st, n, input, valid);
  }

  lemma LeaseLevel(s: System, a: Action)
    requires Inv(s.st) && (a.Claim? || a.StartTask? || a.Renew?)
    ensures Level(s.st, Answer(s, a).st)
  {
    match a
    case Claim(n, who, token, lease) => ClaimLevel(s.st, n, who, token, lease, s.clock);
    case StartTask(n, who, token) => StartLevel(s.st, n, who, token, s.clock);
    case Renew(n, who, token, lease) => RenewalLevel(s.st, n, who, token, lease, s.clock);
  }

  lemma ParkLevel(s: System, a: Action)
    requires Inv(s.st) && a.Park?
    ensures Level(s.st, Answer(s, a).st)
  {
    if node :| FindNode(s.st.graph.nodes, a.node) == Some(node) {
      WaitLevel(s.st, a.node, a.who, a.token, ParkingFor(node, a.duration, s.clock), s.clock);
    }
  }

  lemma ReportLevel(s: System, a: Action)
    requires Inv(s.st) && (a.Complete? || a.Fail? || a.Park? || a.Retry?)
    ensures Level(s.st, Answer(s, a).st)
  {
    match a
    case Complete(n, who, token, output) => CompleteLevel(s.st, n, who, token, output, s.clock);
    case Fail(n, who, token) => FailLevel(s.st, n, who, token, s.clock);
    case Park(_, _, _, _) => ParkLevel(s, a);
    case Retry(n, who, token, backoff) => DeferLevel(s.st, n, who, token, backoff, s.clock);
  }

  lemma RunnerLevel(s: System, a: Action)
    requires Inv(s.st) && (a.RunnerClaim? || a.Heartbeat? || a.SubmitResult?)
    ensures Level(s.st, Answer(s, a).st)
  {
    match a
    case RunnerClaim(n, who, capabilities, token, lease) => RunnerClaimLevel(s.st, n, who, capabilities, token, lease, s.clock);
    case Heartbeat(n, who, token, lease) => HeartbeatLevel(s.st, n, who, token, lease, s.clock);
    case SubmitResult(n, who, token, result) => SubmitLevel(s.st, n, who, token, result, s.clock);
  }

  lemma RepairLevel(s: System, a: Action)
    requires Tidy(s.st) && (a.Recover? || a.PromoteRetries?)
    ensures Level(s.st, Answer(s, a).st)
  {
    match a
    case Recover(locked) => RecoverLevel(s.st, locked, s.clock);
    case PromoteRetries(locked) => PromoteLevel(s.st, locked, s.clock);
  }

  lemma AnswerLevel(s: System, a: Action)
    requires Inv(s.st) && Tidy(s.st)
    ensures Level(s.st, Answer(s, a).st)
  {
    match a
    case Tick(_) =>
    case ScheduleReady(u) => ScheduleLevel(s.st, u, s.clock);
    case ReconcileRun(u, unflushed) =>
      NoInputWaits(s.st);
      ReconcileLevel(s.st, u, unflushed, s.clock);
    case RunnerClaim(_, _, _, _, _) => RunnerLevel(s, a);
    case Heartbeat(_, _, _, _) => RunnerLevel(s, a);
    case SubmitResult(_, _, _, _) => RunnerLevel(s, a);
    case Recover(_) => RepairLevel(s, a);
    case PromoteRetries(_) => RepairLevel(s, a);
    case StartRun => ControlLevel(s, a);
    case PauseRun => ControlLevel(s, a);
    case ResumeRun => ControlLevel(s, a);
    case CancelRun => ControlLevel(s, a);
    case Approve(_) => ControlLevel(s, a);
    case Reject(_) => ControlLevel(s, a);
    case SubmitInput(_, _, _) => ControlLevel(s, a);
    case Claim(_, _, _, _) => LeaseLevel(s, a);
    case StartTask(_, _, _) => LeaseLevel(s, a);
    case Renew(_, _, _, _) => LeaseLevel(s, a);
    case _ => ReportLevel(s, a);
  }

  lemma StepLevel(s: System, a: Action)
    requires Inv(s.st) && Tidy(s.st)
    ensures Level(s.st, Step(s, a).st)
  {
    if Follows(s, a) {
      AnswerLevel(s, a);
    }
  }

  lemma SaneIsTidy(st: RunState)
    requires Inv(st) && Publishable(st.graph)
    ensures Tidy(st)
  {
  }

  lemma CreatedSurplus(g: Graph, input: Json, n: NodeId, k: EventKind)
    requires n in Ids(g) && Counted(k)
    ensures n in CreatedRun(g, input).nodes && Surplus(CreatedRun(g, input), n, k) == 0
  {
    FindNodeIds(g, n);
  }

  lemma {:induction false} NoSurplus(g: Graph, input: Json, acts: seq<Action>, n: NodeId, k: EventKind)
    requires Publishable(g) && n in Ids(g) && Counted(k)
    ensures n in Execute(g, input, acts).st.nodes && Surplus(Execute(g, input, acts).st, n, k) == 0
  {
    if acts == [] {
      CreatedSurplus(g, input, n, k);
    } else {
      var init := acts[..|acts| - 1];
      NoSurplus(g, input, init, n, k);
      AlwaysSane(g, input, init);
      SaneIsTidy(Execute(g, input, init).st);
      StepLevel(Execute(g, input, init), acts[|acts| - 1]);
    }
  }

  /** The log of a node says what its rows say. */
  predicate Exact(st: RunState, n: NodeId) {
    && n in st.nodes
    && Tally(st.events, NodeStarted, n) == (if n in st.tasks then st.tasks[n].attempt else 0)
    && Tally(st.events, NodeCompletedEvent, n) == (if st.nodes[n].status.NodeCompleted? && !IsInputId(st.graph, n) then 1 else 0)
    && Tally(st.events, NodeFailedEvent, n) == (if st.nodes[n].status.NodeFailed? then 1 else 0)
    && Tally(st.events, NodeSkippedEvent, n) == (if st.nodes[n].status.NodeSkipped? then 1 else 0)
    && Tally(st.events, NodeCancelledEvent, n) == (if n in st.tasks && st.tasks[n].status.TaskCancelled? then 1 else 0)
  }

  lemma SettledAccounts(st: RunState, n: NodeId)
    requires n in st.nodes && forall k :: Counted(k) ==> Surplus(st, n, k) == 0
    ensures Exact(st, n)
  {
    assert Surplus(st, n, NodeStarted) == 0 && Surplus(st, n, NodeCompletedEvent) == 0;
    assert Surplus(st, n, NodeFailedEvent) == 0 && Surplus(st, n, NodeSkippedEvent) == 0;
    assert Surplus(st, n, NodeCancelledEvent) == 0;
  }

  /** The trace is exact: in every reachable state the log holds, for each node,
      one NODE_STARTED per attempt, one NODE_COMPLETED if and only if the node
      completed by execution, one NODE_FAILED if and only if it failed, one
      NODE_SKIPPED if and only if it was skipped, and one NODE_CANCELLED if and
      only if its task was cancelled. */
  lemma TraceIsExact(g: Graph, input: Json, acts: seq<Action>, n: NodeId)
    requires Publishable(g) && n in Ids(g)
    ensures Exact(Execute(g, input, acts).st, n)
  {
    NoSurplus(g, input, acts, n, NodeStarted);
    var st := Execute(g, input, acts).st;
    forall k | Counted(k)
      ensures Surplus(st, n, k) == 0
    {
      NoSurplus(g, input, acts, n, k);
    }
    SettledAccounts(st, n);
  }
}
