/** The calls of Workers, Runners, people and the periodic repair in one table.
    On the rows of a reachable run no call meets an illegal transition, so each
    is accepted under a plain condition and writes plainly stated rows. */
module CallTable {
  import opened Basics
  import opened StateMachines
  import opened Graphs
  import opened RunRows
  import opened SchedulerRules
  import opened QueueRules
  import opened Runtime
  import opened Invariant
  import opened RecoverySafety
  import opened RuntimeSafety
  import opened Recovery
  import opened ParkedRows
  import opened RowOrigins

  // ----- when a call is accepted -----

  predicate TaskIs(s: System, n: NodeId, status: TaskStatus) {
    n in s.st.tasks && s.st.tasks[n].status == status
  }

  /** The client is named by the lease of a task that executes. */
  predicate Executes(s: System, n: NodeId, who: string, token: Token) {
    Leaseholder(s, n, who, token) && TaskIs(s, n, TaskRunning)
  }

  predicate Startable(run: RunStatus) {
    run.RunCreated? || run.RunWaiting? || run.RunPaused?
  }

  predicate Allowed(s: System, a: Action) {
    var st := s.st;
    match a
    case StartRun => Startable(st.run)
    case ResumeRun => Startable(st.run)
    case PauseRun => st.run.RunRunning? || st.run.RunWaiting?
    case CancelRun => !st.run.RunCompleted? && !st.run.RunFailed? && !st.run.RunCancelled?
    case Approve(n) => Answerable(s, n, "approval")
    case Reject(n) => Answerable(s, n, "approval") && FindNode(st.graph.nodes, n).value.allowReject
    case SubmitInput(n, _, valid) => Answerable(s, n, "input") && valid
    case Claim(n, _, token, _) =>
      token !in s.grants && st.run.RunRunning? && TaskIs(s, n, TaskPending) && st.tasks[n].capability.None?
    case RunnerClaim(n, who, capabilities, token, _) =>
      && token !in s.grants && st.run.RunRunning? && TaskIs(s, n, TaskPending)
      && st.tasks[n].capability.Some? && st.tasks[n].capability.value in capabilities
      && (st.tasks[n].runner.Some? ==> st.tasks[n].runner.value == who)
    case StartTask(n, who, token) => Leaseholder(s, n, who, token) && TaskIs(s, n, TaskClaimed) && st.run.RunRunning?
    case Complete(n, who, token, _) => Executes(s, n, who, token)
    case Fail(n, who, token) => Executes(s, n, who, token)
    case Park(n, who, token, _) => IsParkedId(st.graph, n) && Executes(s, n, who, token)
    case Retry(n, who, token, _) => Executes(s, n, who, token) && st.tasks[n].attempt < st.tasks[n].maxAttempts
    case SubmitResult(n, who, token, _) => Executes(s, n, who, token)
    case Renew(n, who, token, _) => Leaseholder(s, n, who, token) && (TaskIs(s, n, TaskClaimed) || TaskIs(s, n, TaskRunning))
    case Heartbeat(n, who, token, _) =>
      TaskIs(s, n, TaskRunning) && st.tasks[n].lockedBy == Some(who) && st.tasks[n].token == Some(token)
    case _ => true
  }

  // ----- what it writes -----

  function Write(st: RunState, n: NodeId, row: NodeRun, t: Task, log: seq<Event>): RunState {
    st.(nodes := st.nodes[n := row], tasks := st.tasks[n := t], events := st.events + log)
  }

  function Answering(st: RunState, n: NodeId, row: NodeRun, kind: EventKind): RunState {
    st.(nodes := st.nodes[n := row], events := st.events + [Event(NodeResumed, Some(n)), Event(kind, Some(n))])
  }

  function Lease(t: Task, status: TaskStatus, who: string, token: Token, until: nat): Task {
    t.(status := status, lockedBy := Some(who), token := Some(token), expires := Some(until))
  }

  function Deferred(t: Task, at: nat): Task {
    t.(status := TaskRetryWait, availableAt := at, lockedBy := None, token := None, expires := None)
  }

  /** The rows after an accepted call. */
  function Effect(s: System, a: Action): RunState
    requires Allowed(s, a) && s.st.tasks.Keys <= s.st.nodes.Keys
  {
    var st, now := s.st, s.clock;
    match a
    case StartRun => st.(run := RunRunning, events := st.events + [Event(WorkflowStarted, None)])
    case ResumeRun => st.(run := RunRunning)
    case PauseRun => st.(run := RunPaused)
    case Approve(n) =>
      Answering(st, n, st.nodes[n].(status := NodeCompleted, output := Some(Obj(map["approved" := Bool(true)]))), NodeCompletedEvent)
    case Reject(n) => Answering(st, n, st.nodes[n].(status := NodeFailed), NodeFailedEvent)
    case SubmitInput(n, data, _) => Answering(st, n, st.nodes[n].(status := NodeCompleted, output := Some(Obj(data))), NodeCompletedEvent)
    case Claim(n, who, token, lease) => Write(st, n, st.nodes[n], Lease(st.tasks[n], TaskClaimed, who, token, now + lease), [])
    case RunnerClaim(n, who, _, token, lease) =>
      Write(st, n, st.nodes[n].(status := NodeRunning),
            Lease(st.tasks[n], TaskRunning, who, token, now + lease).(attempt := st.tasks[n].attempt + 1), [Event(NodeStarted, Some(n))])
    case StartTask(n, _, _) =>
      Write(st, n, st.nodes[n].(status := NodeRunning), st.tasks[n].(status := TaskRunning, attempt := st.tasks[n].attempt + 1),
            [Event(NodeStarted, Some(n))])
    case Complete(n, _, _, output) => Completing(st, n, output, [])
    case Fail(n, _, _) => Failing(st, n, [])
    case Park(n, _, _, duration) =>
      Write(st, n, st.nodes[n].(status := NodeWaiting, parking := Some(WaitsFor(FindNode(st.graph.nodes, n).value, duration, now))),
            st.tasks[n].(status := TaskCompleted), [Event(NodeWaitingEvent, Some(n))])
    case Retry(n, _, _, backoff) => Deferring(st, n, now + backoff, [])
    case SubmitResult(n, _, _, r) =>
      var lines := seq(r.logs, _ => Event(NodeLog, Some(n)));
      if r.ok then Completing(st, n, r.output, lines)
      else if r.retryable && st.tasks[n].attempt < st.tasks[n].maxAttempts then Deferring(st, n, now + r.backoff, lines)
      else Failing(st, n, lines)
    case Renew(n, _, _, lease) => Write(st, n, st.nodes[n], st.tasks[n].(expires := Some(now + lease)), [])
    case Heartbeat(n, _, _, lease) => Write(st, n, st.nodes[n], st.tasks[n].(expires := Some(now + lease)), [])
    case Recover(locked) =>
      st.(tasks := map n | n in st.tasks ::
            if n !in locked && (TaskIs(s, n, TaskClaimed) || TaskIs(s, n, TaskRunning)) && st.tasks[n].expires.Some? && st.tasks[n].expires.value < now
            then st.tasks[n].(status := TaskPending, lockedBy := None, token := None, expires := None) else st.tasks[n])
    case PromoteRetries(locked) =>
      var due := set n | n in st.tasks && n !in locked && st.tasks[n].status.TaskRetryWait? && st.tasks[n].availableAt <= now;
      st.(tasks := map n | n in st.tasks :: if n in due then st.tasks[n].(status := TaskPending) else st.tasks[n],
          nodes := map n | n in st.nodes :: if n in due then st.nodes[n].(status := NodeQueued) else st.nodes[n],
          events := st.events + NodeEvents(NodeQueuedEvent, Select(Order(st.graph), due)))
    case CancelRun =>
      var live := set n | n in st.tasks && !TaskTerminal(st.tasks[n].status);
      st.(run := RunCancelled,
          tasks := map n | n in st.tasks :: if n in live then st.tasks[n].(status := TaskCancelled) else st.tasks[n],
          nodes := map n | n in st.nodes :: if NodeTerminal(st.nodes[n].status) then st.nodes[n] else st.nodes[n].(status := NodeCancelled),
          events := st.events + [Event(WorkflowCancelled, None)] + NodeEvents(NodeCancelledEvent, Select(Order(st.graph), live)))
    case _ => st
  }

  function Completing(st: RunState, n: NodeId, output: Json, lines: seq<Event>): RunState
    requires n in st.nodes && n in st.tasks
  {
    Write(st, n, st.nodes[n].(status := NodeCompleted, output := Some(output)), st.tasks[n].(status := TaskCompleted),
          lines + [Event(NodeCompletedEvent, Some(n))])
  }

  function Failing(st: RunState, n: NodeId, lines: seq<Event>): RunState
    requires n in st.nodes && n in st.tasks
  {
    Write(st, n, st.nodes[n].(status := NodeFailed), st.tasks[n].(status := TaskFailed), lines + [Event(NodeFailedEvent, Some(n))])
  }

  function Deferring(st: RunState, n: NodeId, at: nat, lines: seq<Event>): RunState
    requires n in st.nodes && n in st.tasks
  {
    Write(st, n, st.nodes[n].(status := NodeRetrying), Deferred(st.tasks[n], at), lines + [Event(NodeRetryingEvent, Some(n))])
  }

  /** A start in a paused run hands the task back instead. */
  predicate HandsBack(s: System, a: Action) {
    && a.StartTask? && Leaseholder(s, a.node, a.who, a.token)
    && (TaskIs(s, a.node, TaskClaimed) || TaskIs(s, a.node, TaskRunning)) && s.st.run.RunPaused?
  }

  /** A heartbeat for a task that no longer executes is told to stop. */
  predicate Stops(s: System, a: Action) {
    && a.Heartbeat? && a.node in s.st.tasks && !TaskIs(s, a.node, TaskRunning)
    && s.st.tasks[a.node].lockedBy == Some(a.who) && s.st.tasks[a.node].token == Some(a.token)
  }

  /** The call does what its line of the table says. */
  ghost predicate AsTabled(s: System, a: Action) {
    var outcome, next := ReplyTo(s, a).outcome, Step(s, a).st;
    && s.st.tasks.Keys <= s.st.nodes.Keys
    && (outcome.Accepted? <==> Allowed(s, a)) && (outcome.Released? <==> HandsBack(s, a)) && (outcome.Signalled? <==> Stops(s, a))
    && next == if Allowed(s, a) then Effect(s, a)
               else if HandsBack(s, a) then
                 s.st.(tasks := s.st.tasks[a.node := s.st.tasks[a.node].(status := TaskPending, lockedBy := None, token := None, expires := None)])
               else s.st
  }

  // ----- leases and rows -----

  /** The row and task of a lease, in any sane state. */
  predicate Beside(row: NodeRun, t: Task) {
    && (t.status.TaskRunning? ==> row.status.NodeRunning?)
    && (t.status.TaskClaimed? || t.status.TaskPending? ==> row.status.NodeRunning? || row.status.NodeQueued?)
    && (t.token.Some? && !TaskTerminal(t.status) ==> t.status.TaskClaimed? || t.status.TaskRunning?)
  }

  lemma BesideRow(input: bool, parked: bool, run: RunStatus, row: NodeRun, t: Task)
    requires Judge(input, parked, run, row, Some(t)) == Consistent && !RunTerminal(run)
    ensures Beside(row, t)
  {
  }

  lemma LeaseRow(input: bool, parked: bool, run: RunStatus, row: NodeRun, t: Task)
    requires Judge(input, parked, run, row, Some(t)) == Consistent && t.token.Some? && !TaskTerminal(t.status)
    ensures Beside(row, t) && Open(run)
  {
  }

  lemma BesideTask(st: RunState, n: NodeId)
    requires Inv(st) && n in st.tasks
    ensures n in st.nodes
    ensures !RunTerminal(st.run) ==> Beside(st.nodes[n], st.tasks[n])
    ensures st.tasks[n].token.Some? && !TaskTerminal(st.tasks[n].status) ==> Beside(st.nodes[n], st.tasks[n]) && Open(st.run)
  {
    assert n in st.nodes && NodeOk(st, n);
    var row, t := st.nodes[n], st.tasks[n];
    if !RunTerminal(st.run) {
      BesideRow(IsInputId(st.graph, n), IsParkedId(st.graph, n), st.run, row, t);
    }
    if t.token.Some? && !TaskTerminal(t.status) {
      LeaseRow(IsInputId(st.graph, n), IsParkedId(st.graph, n), st.run, row, t);
    }
  }

  // ----- the calls, one group after the other -----

  /** What the invariant says about the rows a call looks at. */
  function Ground(s: System, n: NodeId): Verdict {
    if && s.st.tasks.Keys <= s.st.nodes.Keys
       && (n in s.st.tasks && !RunTerminal(s.st.run) ==> Beside(s.st.nodes[n], s.st.tasks[n]))
       && (n in s.st.tasks && s.st.tasks[n].token.Some? && !TaskTerminal(s.st.tasks[n].status) ==>
             Beside(s.st.nodes[n], s.st.tasks[n]) && Open(s.st.run))
    then Consistent else Broken
  }

  lemma SaneGround(s: System, n: NodeId)
    requires Sane(s)
    ensures Ground(s, n) == Consistent
  {
    if n in s.st.tasks {
      BesideTask(s.st, n);
    }
  }

  lemma ClaimTabled(s: System, a: Action)
    requires (a.Claim? || a.RunnerClaim?) && Ground(s, a.node) == Consistent
    requires a.node in s.st.tasks ==> OnTime(s.st.tasks[a.node], s.clock)
    ensures AsTabled(s, a)
  {
  }

  lemma StartTabled(s: System, a: Action)
    requires a.StartTask? && Ground(s, a.node) == Consistent
    ensures AsTabled(s, a)
  {
  }

  lemma RenewTabled(s: System, a: Action)
    requires (a.Renew? || a.Heartbeat?) && Ground(s, a.node) == Consistent
    ensures AsTabled(s, a)
  {
  }

  lemma ReportTabled(s: System, a: Action)
    requires (a.Complete? || a.Fail?) && Ground(s, a.node) == Consistent
    ensures AsTabled(s, a)
  {
  }

  lemma ParkTabled(s: System, a: Action)
    requires a.Park? && Ground(s, a.node) == Consistent
    ensures AsTabled(s, a)
  {
  }

  lemma RetryTabled(s: System, a: Action)
    requires a.Retry? && Ground(s, a.node) == Consistent
    requires a.node in s.st.tasks ==> LeaseOk(s.grants, a.node, s.st.tasks[a.node])
    ensures AsTabled(s, a)
  {
  }

  lemma ResultTabled(s: System, a: Action)
    requires a.SubmitResult? && Ground(s, a.node) == Consistent
    ensures AsTabled(s, a)
  {
  }

  lemma HumanTabled(s: System, a: Action)
    requires (a.Approve? || a.Reject? || a.SubmitInput?) && Ground(s, a.node) == Consistent
    requires a.node in s.st.nodes ==> FitsRow(s.st.graph, a.node, s.st.nodes[a.node])
    ensures AsTabled(s, a)
  {
  }

  lemma RecoverTabled(s: System, a: Action)
    requires a.Recover? && s.st.tasks.Keys <= s.st.nodes.Keys
    ensures AsTabled(s, a)
  {
    assert Step(s, a).st.tasks == Effect(s, a).tasks;
  }

  lemma PromoteTabled(s: System, a: Action)
    requires a.PromoteRetries? && s.st.tasks.Keys <= s.st.nodes.Keys
    requires AfterPromoteRetries(s.st, a.locked, s.clock) == Reply(Requeued(s.st, a.locked, s.clock), Accepted)
    ensures AsTabled(s, a)
  {
    var due := set n | n in s.st.tasks && n !in a.locked && s.st.tasks[n].status.TaskRetryWait? && s.st.tasks[n].availableAt <= s.clock;
    assert due == DueRetries(s.st.tasks, a.locked, s.clock);
    assert Step(s, a).st.tasks == Effect(s, a).tasks && Step(s, a).st.nodes == Effect(s, a).nodes;
  }

  lemma CancelTabled(s: System, a: Action)
    requires a.CancelRun? && s.st.tasks.Keys <= s.st.nodes.Keys
    ensures AsTabled(s, a)
  {
    if !RunTerminal(s.st.run) {
      var live := set n | n in s.st.tasks && !TaskTerminal(s.st.tasks[n].status);
      assert live == Cancellable(s.st.tasks, {});
      assert Step(s, a).st.tasks == Effect(s, a).tasks && Step(s, a).st.nodes == Effect(s, a).nodes;
    }
  }

  lemma ControlTabled(s: System, a: Action)
    requires (a.Tick? || a.StartRun? || a.PauseRun? || a.ResumeRun?) && s.st.tasks.Keys <= s.st.nodes.Keys
    ensures AsTabled(s, a)
  {
    assert s.st.events + [] == s.st.events;
  }

  lemma QueueTabled(s: System, a: Action)
    requires Sane(s) && Punctual(s) && (a.Claim? || a.RunnerClaim? || a.StartTask? || a.Renew? || a.Heartbeat? || a.Retry?)
    ensures AsTabled(s, a)
  {
    SaneGround(s, a.node);
    if a.Claim? || a.RunnerClaim? {
      ClaimTabled(s, a);
    } else if a.StartTask? {
      StartTabled(s, a);
    } else if a.Retry? {
      RetryTabled(s, a);
    } else {
      RenewTabled(s, a);
    }
  }

  lemma OutcomeTabled(s: System, a: Action)
    requires Sane(s) && Fits(s.st)
    requires a.Complete? || a.Fail? || a.Park? || a.SubmitResult? || a.Approve? || a.Reject? || a.SubmitInput?
    ensures AsTabled(s, a)
  {
    SaneGround(s, a.node);
    if a.Complete? || a.Fail? {
      ReportTabled(s, a);
    } else if a.Park? {
      ParkTabled(s, a);
    } else if a.SubmitResult? {
      ResultTabled(s, a);
    } else {
      HumanTabled(s, a);
    }
  }

  lemma SaneKeys(s: System)
    requires Sane(s)
    ensures s.st.tasks.Keys <= s.st.nodes.Keys
  {
  }

  lemma RestTabled(s: System, a: Action)
    requires Sane(s) && (a.Recover? || a.PromoteRetries? || a.CancelRun? || a.Tick? || a.StartRun? || a.PauseRun? || a.ResumeRun?)
    ensures AsTabled(s, a)
  {
    SaneKeys(s);
    if a.Recover? {
      RecoverTabled(s, a);
    } else if a.PromoteRetries? {
      PromoteAccepted(s.st, a.locked, s.clock);
      PromoteTabled(s, a);
    } else if a.CancelRun? {
      CancelTabled(s, a);
    } else {
      ControlTabled(s, a);
    }
  }

  lemma Tabled(s: System, a: Action)
    requires Sane(s) && Punctual(s) && Fits(s.st) && !a.ScheduleReady? && !a.ReconcileRun?
    ensures AsTabled(s, a)
  {
    if a.Claim? || a.RunnerClaim? || a.StartTask? || a.Renew? || a.Heartbeat? || a.Retry? {
      QueueTabled(s, a);
    } else if a.Complete? || a.Fail? || a.Park? || a.SubmitResult? || a.Approve? || a.Reject? || a.SubmitInput? {
      OutcomeTabled(s, a);
    } else {
      RestTabled(s, a);
    }
  }

  /** In every reachable state every call is accepted exactly under the condition
      of its line, and then writes exactly what the line says: no row, task or
      event besides. */
  lemma CallsAreTabled(g: Graph, input: Json, acts: seq<Action>, a: Action)
    requires Publishable(g) && !a.ScheduleReady? && !a.ReconcileRun?
    ensures AsTabled(Execute(g, input, acts), a)
  {
    AlwaysSane(g, input, acts);
    AlwaysPunctual(g, input, acts);
    AlwaysFits(g, input, acts);
    Tabled(Execute(g, input, acts), a);
  }

  lemma ResultRows(s: System, n: NodeId, who: string, token: Token, result: RunnerResult)
    requires AsTabled(s, SubmitResult(n, who, token, result)) && Executes(s, n, who, token)
    ensures var t, next := s.st.tasks[n], Step(s, SubmitResult(n, who, token, result)).st;
            var again := result.retryable && t.attempt < t.maxAttempts;
            && ReplyTo(s, SubmitResult(n, who, token, result)).outcome.Accepted? && n in next.tasks && n in next.nodes
            && (next.tasks[n].status.TaskCompleted? <==> result.ok)
            && (next.tasks[n].status.TaskRetryWait? <==> !result.ok && again)
            && (next.tasks[n].status.TaskFailed? <==> !result.ok && !again)
            && (next.nodes[n].status.NodeCompleted? <==> result.ok)
            && (next.nodes[n].status.NodeRetrying? <==> !result.ok && again)
            && (next.nodes[n].status.NodeFailed? <==> !result.ok && !again)
            && (result.ok ==> next.nodes[n].output == Some(result.output))
  {
  }

  /** What a Runner's result decides: it is accepted exactly from the client that
      an unexpired lease of the executing task names; then the task is COMPLETED
      exactly when the result is ok, RETRY_WAIT exactly when it is a retryable
      failure and the budget leaves an attempt, and FAILED otherwise, with its
      node beside it. */
  lemma ResultDecides(g: Graph, input: Json, acts: seq<Action>, n: NodeId, who: string, token: Token, result: RunnerResult)
    requires Publishable(g)
    ensures var s, a := Execute(g, input, acts), SubmitResult(n, who, token, result);
            && (ReplyTo(s, a).outcome.Accepted? <==> Executes(s, n, who, token))
            && (Executes(s, n, who, token) ==>
                  var t, next := s.st.tasks[n], Step(s, a).st;
                  var again := result.retryable && t.attempt < t.maxAttempts;
                  && n in next.tasks && n in next.nodes
                  && (next.tasks[n].status.TaskCompleted? <==> result.ok)
                  && (next.tasks[n].status.TaskRetryWait? <==> !result.ok && again)
                  && (next.tasks[n].status.TaskFailed? <==> !result.ok && !again)
                  && (next.nodes[n].status.NodeCompleted? <==> result.ok)
                  && (next.nodes[n].status.NodeRetrying? <==> !result.ok && again)
                  && (next.nodes[n].status.NodeFailed? <==> !result.ok && !again)
                  && (result.ok ==> next.nodes[n].output == Some(result.output)))
  {
    var s := Execute(g, input, acts);
    CallsAreTabled(g, input, acts, SubmitResult(n, who, token, result));
    if Executes(s, n, who, token) {
      ResultRows(s, n, who, token, result);
    }
  }
}
