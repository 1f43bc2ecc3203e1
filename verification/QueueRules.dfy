/** The execution queue's transactions as functions from rows to rows: the
    Worker side (claim, start, report) and the Runner side (claim, heartbeat,
    submit) of the same tasks, and the periodic repairs. */
module QueueRules {
  import opened Basics
  import opened StateMachines
  import opened Graphs
  import opened RunRows
  import opened SchedulerRules

  /** The caller holds the current lease of a live task. */
  predicate Owns(t: Task, who: string, token: Token, now: nat) {
    && !TaskTerminal(t.status)
    && t.lockedBy == Some(who)
    && t.token == Some(token)
    && t.expires.Some?
    && t.expires.value > now
  }

  /** Every task row references an existing NodeRun row. */
  predicate OwnsTask(st: RunState, n: NodeId, who: string, token: Token, now: nat) {
    n in st.tasks && n in st.nodes && Owns(st.tasks[n], who, token, now)
  }

  /** Move a NodeRun through its table; `None` is a refused transition. */
  function MoveNode(row: NodeRun, target: NodeStatus, allowSame: bool): Option<NodeRun> {
    if allowSame && row.status == target then Some(row)
    else if NodeMay(row.status, target) then Some(row.(status := target))
    else None
  }

  /** Write one NodeRun and its task, and append to the log. */
  function Put(st: RunState, n: NodeId, row: NodeRun, t: Task, log: seq<Event>): RunState {
    st.(nodes := st.nodes[n := row], tasks := st.tasks[n := t], events := st.events + log)
  }

  function Commit(st: RunState, n: NodeId, t: Task, row: Option<NodeRun>, log: seq<Event>): Reply {
    match row
    case None => Reply(st, InvalidNode)
    case Some(r) => Reply(Put(st, n, r, t, log), Accepted)
  }

  // ----- Worker protocol -----

  predicate Claimable(st: RunState, n: NodeId, now: nat) {
    && st.run == RunRunning
    && n in st.tasks && n in st.nodes
    && st.tasks[n].status == TaskPending
    && st.tasks[n].availableAt <= now
  }

  function Leased(t: Task, who: string, token: Token, until: nat): Task {
    t.(status := TaskClaimed, lockedBy := Some(who), token := Some(token), expires := Some(until))
  }

  function AfterClaim(st: RunState, n: NodeId, worker: string, token: Token, lease: nat, now: nat): Reply {
    if !Claimable(st, n, now) || st.tasks[n].capability.Some? then Reply(st, Refused)
    else Commit(st, n, Leased(st.tasks[n], worker, token, now + lease), Some(st.nodes[n]), [])
  }

  /** A claimed task does not start in a run that is not RUNNING: it returns to
      the queue of a paused or waiting run and is cancelled otherwise. */
  function AfterRelease(st: RunState, n: NodeId): Reply
    requires n in st.tasks && n in st.nodes
  {
    var t, row := st.tasks[n], st.nodes[n];
    if st.run == RunPaused || st.run == RunWaiting then
      if !TaskMay(t.status, TaskPending) then Reply(st, InvalidTask)
      else Reply(Put(st, n, row, Unleased(t).(status := TaskPending), []), Released)
    else if !TaskMay(t.status, TaskCancelled) then Reply(st, InvalidTask)
    else
      var cancelled := if NodeTerminal(row.status) then Some(row) else MoveNode(row, NodeCancelled, false);
      match cancelled
      case None => Reply(st, InvalidNode)
      case Some(r) => Reply(Put(st, n, r, t.(status := TaskCancelled), []), Released)
  }

  function Started(t: Task): Task {
    t.(status := TaskRunning, attempt := t.attempt + 1)
  }

  function AfterStart(st: RunState, n: NodeId, worker: string, token: Token, now: nat): Reply {
    if !OwnsTask(st, n, worker, token, now) then Reply(st, Refused)
    else if st.run != RunRunning then AfterRelease(st, n)
    else if !TaskMay(st.tasks[n].status, TaskRunning) then Reply(st, InvalidTask)
    else Commit(st, n, Started(st.tasks[n]), MoveNode(st.nodes[n], NodeRunning, true), [NodeEvent(NodeStarted, n)])
  }

  /** The row of a node whose result is in. */
  function CompletedRow(row: NodeRun, output: Json): Option<NodeRun> {
    match MoveNode(row, NodeCompleted, false)
    case None => None
    case Some(r) => Some(r.(output := Some(output)))
  }

  /** Task and node complete together. */
  function CommitCompleted(st: RunState, n: NodeId, output: Json, log: seq<Event>): Reply
    requires n in st.tasks && n in st.nodes
  {
    if !TaskMay(st.tasks[n].status, TaskCompleted) then Reply(st, InvalidTask)
    else Commit(st, n, st.tasks[n].(status := TaskCompleted), CompletedRow(st.nodes[n], output),
                log + [NodeEvent(NodeCompletedEvent, n)])
  }

  /** The Worker's report leaves any terminal node alone, the Runner's only a failed one. */
  function FailedRow(row: NodeRun, anyTerminal: bool): Option<NodeRun> {
    if anyTerminal && NodeTerminal(row.status) then Some(row) else MoveNode(row, NodeFailed, !anyTerminal)
  }

  function CommitFailed(st: RunState, n: NodeId, anyTerminal: bool, log: seq<Event>): Reply
    requires n in st.tasks && n in st.nodes
  {
    if !TaskMay(st.tasks[n].status, TaskFailed) then Reply(st, InvalidTask)
    else Commit(st, n, st.tasks[n].(status := TaskFailed), FailedRow(st.nodes[n], anyTerminal),
                log + [NodeEvent(NodeFailedEvent, n)])
  }

  function RetryLater(t: Task, at: nat): Task {
    Unleased(t).(status := TaskRetryWait, availableAt := at)
  }

  function CommitRetry(st: RunState, n: NodeId, backoff: nat, now: nat, log: seq<Event>): Reply
    requires n in st.tasks && n in st.nodes
  {
    if !TaskMay(st.tasks[n].status, TaskRetryWait) then Reply(st, InvalidTask)
    else Commit(st, n, RetryLater(st.tasks[n], now + backoff), MoveNode(st.nodes[n], NodeRetrying, true),
                log + [NodeEvent(NodeRetryingEvent, n)])
  }

  function AfterComplete(st: RunState, n: NodeId, worker: string, token: Token, output: Json, now: nat): Reply {
    if !OwnsTask(st, n, worker, token, now) then Reply(st, Refused) else CommitCompleted(st, n, output, [])
  }

  function AfterFail(st: RunState, n: NodeId, worker: string, token: Token, now: nat): Reply {
    if !OwnsTask(st, n, worker, token, now) then Reply(st, Refused) else CommitFailed(st, n, true, [])
  }

  function AfterRetry(st: RunState, n: NodeId, worker: string, token: Token, backoff: nat, now: nat): Reply {
    if !OwnsTask(st, n, worker, token, now) then Reply(st, Refused) else CommitRetry(st, n, backoff, now, [])
  }

  function ParkedRow(row: NodeRun, parking: Parking): Option<NodeRun> {
    match MoveNode(row, NodeWaiting, false)
    case None => None
    case Some(r) => Some(r.(parking := Some(parking)))
  }

  /** Park the NodeRun; its task is complete, so no Worker blocks on it. */
  function AfterWait(st: RunState, n: NodeId, worker: string, token: Token, parking: Parking, now: nat): Reply {
    if !OwnsTask(st, n, worker, token, now) then Reply(st, Refused)
    else if !TaskMay(st.tasks[n].status, TaskCompleted) then Reply(st, InvalidTask)
    else Commit(st, n, st.tasks[n].(status := TaskCompleted), ParkedRow(st.nodes[n], parking),
                [NodeEvent(NodeWaitingEvent, n)])
  }

  function Extended(t: Task, until: nat): Task {
    t.(expires := Some(until))
  }

  function AfterRenew(st: RunState, n: NodeId, worker: string, token: Token, lease: nat, now: nat): Reply {
    if !OwnsTask(st, n, worker, token, now) then Reply(st, Refused)
    else Commit(st, n, Extended(st.tasks[n], now + lease), Some(st.nodes[n]), [])
  }

  // ----- Runner protocol -----

  predicate RunnerMatches(t: Task, runner: string, capabilities: set<string>) {
    && t.capability.Some? && t.capability.value in capabilities
    && (t.runner.None? || t.runner == Some(runner))
  }

  /** A Runner's claim starts the attempt in the same transaction. */
  function AfterRunnerClaim(st: RunState, n: NodeId, runner: string, capabilities: set<string>, token: Token,
                            lease: nat, now: nat): Reply {
    if !Claimable(st, n, now) || !RunnerMatches(st.tasks[n], runner, capabilities) then Reply(st, Refused)
    else
      Commit(st, n, Started(Leased(st.tasks[n], runner, token, now + lease)),
             MoveNode(st.nodes[n], NodeRunning, true), [NodeEvent(NodeStarted, n)])
  }

  /** The lease names this Runner and token; whether it expired is not asked. */
  predicate Names(st: RunState, n: NodeId, runner: string, token: Token) {
    && n in st.tasks && n in st.nodes
    && st.tasks[n].lockedBy == Some(runner) && st.tasks[n].token == Some(token)
  }

  /** Only the token is compared, so an expired lease nobody recovered yet is revived. */
  function AfterHeartbeat(st: RunState, n: NodeId, runner: string, token: Token, lease: nat, now: nat): Reply {
    if !Names(st, n, runner, token) then Reply(st, Refused)
    else if st.tasks[n].status != TaskRunning || RunTerminal(st.run) then Reply(st, Signalled)
    else Commit(st, n, Extended(st.tasks[n], now + lease), Some(st.nodes[n]), [])
  }

  datatype RunnerResult = RunnerResult(ok: bool, retryable: bool, output: Json, logs: nat, backoff: nat)

  function LogLines(n: NodeId, k: nat): seq<Event> {
    seq(k, _ => NodeEvent(NodeLog, n))
  }

  predicate RunnerRetries(t: Task, r: RunnerResult) {
    !r.ok && r.retryable && t.attempt < t.maxAttempts
  }

  function AfterSubmit(st: RunState, n: NodeId, runner: string, token: Token, r: RunnerResult, now: nat): Reply {
    if RunTerminal(st.run) || !OwnsTask(st, n, runner, token, now) then Reply(st, Refused)
    else if r.ok then CommitCompleted(st, n, r.output, LogLines(n, r.logs))
    else if RunnerRetries(st.tasks[n], r) then CommitRetry(st, n, r.backoff, now, LogLines(n, r.logs))
    else CommitFailed(st, n, false, LogLines(n, r.logs))
  }

  // ----- periodic repair -----

  predicate Expired(t: Task, now: nat) {
    (t.status == TaskClaimed || t.status == TaskRunning) && t.expires.Some? && t.expires.value < now
  }

  /** The rows the recovery SELECT returns; rows locked elsewhere are skipped. */
  function ExpiredRows(tasks: map<NodeId, Task>, locked: set<NodeId>, now: nat): set<NodeId> {
    set n | n in tasks && n !in locked && Expired(tasks[n], now)
  }

  function AfterRecover(st: RunState, locked: set<NodeId>, now: nat): RunState {
    st.(tasks := map n | n in st.tasks ::
          if n !in locked && Expired(st.tasks[n], now)
          then Unleased(st.tasks[n]).(status := TaskPending) else st.tasks[n])
  }

  predicate DueRetry(t: Task, now: nat) {
    t.status == TaskRetryWait && t.availableAt <= now
  }

  function DueRetries(tasks: map<NodeId, Task>, locked: set<NodeId>, now: nat): set<NodeId> {
    set n | n in tasks && n !in locked && DueRetry(tasks[n], now)
  }

  predicate CanRequeue(nodes: map<NodeId, NodeRun>, n: NodeId) {
    n !in nodes || nodes[n].status == NodeQueued || NodeMay(nodes[n].status, NodeQueued)
  }

  function AfterPromoteRetries(st: RunState, locked: set<NodeId>, now: nat): Reply {
    var due := DueRetries(st.tasks, locked, now);
    if exists n :: n in due && !CanRequeue(st.nodes, n) then Reply(st, InvalidNode)
    else
      Reply(st.(tasks := map n | n in st.tasks :: if n in due then st.tasks[n].(status := TaskPending) else st.tasks[n],
                nodes := MarkQueued(st.nodes, due),
                events := st.events + NodeEvents(NodeQueuedEvent, Select(Order(st.graph), due))),
            Accepted)
  }
}
