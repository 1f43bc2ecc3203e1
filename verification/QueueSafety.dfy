/** The execution queue keeps the invariant: every Worker, Runner and recovery
    transaction, in whatever order and with whatever arguments they arrive. */
module QueueSafety {
  import opened Basics
  import opened StateMachines
  import opened Graphs
  import opened RunRows
  import opened SchedulerRules
  import opened QueueRules
  import opened Invariant

  /** A transaction kept the invariant, obeyed the row laws and raised no
      invalid NodeRun transition. */
  ghost predicate Sound(st: RunState, r: Reply, permit: Permit) {
    SoundnessOf(st, r, permit) == Consistent
  }

  ghost function SoundnessOf(st: RunState, r: Reply, permit: Permit): Verdict {
    if Inv(r.st) && Lawful(st, r.st, permit) && !r.outcome.InvalidNode? then Consistent else Broken
  }

  lemma NoChange(st: RunState, r: Reply, permit: Permit)
    requires Inv(st) && r.st == st && !r.outcome.InvalidNode?
    ensures Sound(st, r, permit)
  {
    Unchanged(st, permit);
  }

  // ----- one row and its task -----

  /** A task somebody holds, and the node beside it. */
  predicate HeldPair(parked: bool, run: RunStatus, row: NodeRun, t: Task) {
    && Open(run) && Held(t) && 1 <= t.maxAttempts <= 11 && row.output.None?
    && (|| (t.status.TaskClaimed? && (row.status.NodeQueued? || row.status.NodeRunning?))
        || (t.status.TaskRunning? && row.status.NodeRunning?))
  }

  /** A queued task, and the node beside it. */
  predicate QueuedPair(run: RunStatus, row: NodeRun, t: Task) {
    && run.RunRunning? && Free(t) && 1 <= t.maxAttempts <= 11 && row.output.None?
    && t.status.TaskPending? && (row.status.NodeQueued? || row.status.NodeRunning?)
  }

  lemma RowOfHeld(input: bool, parked: bool, run: RunStatus, row: NodeRun, t: Task)
    requires Judge(input, parked, run, row, Some(t)) == Consistent
    requires !TaskTerminal(t.status) && t.token.Some?
    ensures !input && HeldPair(parked, run, row, t)
  {
  }

  lemma RowOfQueued(input: bool, parked: bool, run: RunStatus, row: NodeRun, t: Task)
    requires Judge(input, parked, run, row, Some(t)) == Consistent
    requires run.RunRunning? && t.status.TaskPending?
    ensures !input && QueuedPair(run, row, t)
  {
  }

  /** The new pair is consistent and the task changed lawfully. */
  function JudgePair(parked: bool, run: RunStatus, t: Task, row': NodeRun, t': Task, permit: Permit): Verdict {
    if && Judge(false, parked, run, row', Some(t')) == Consistent
       && JudgeTask(run, t, t', permit) == Consistent
       && !row'.status.NodeSkipped?
    then Consistent else Broken
  }

  predicate PairOk(parked: bool, run: RunStatus, row: NodeRun, t: Task, row': NodeRun, t': Task, permit: Permit) {
    !Settled(row.status) && JudgePair(parked, run, t, row', t', permit) == Consistent
  }

  lemma LeasePair(parked: bool, run: RunStatus, row: NodeRun, t: Task, who: string, token: Token, until: nat)
    requires QueuedPair(run, row, t)
    ensures PairOk(parked, run, row, t, row, Leased(t, who, token, until), Claiming(token))
    ensures var row' := MoveNode(row, NodeRunning, true);
            row'.Some? && PairOk(parked, run, row, t, row'.value, Started(Leased(t, who, token, until)), Claiming(token))
  {
  }

  lemma StartPair(parked: bool, run: RunStatus, row: NodeRun, t: Task)
    requires HeldPair(parked, run, row, t) && run.RunRunning? && t.status.TaskClaimed?
    ensures var row' := MoveNode(row, NodeRunning, true);
            row'.Some? && PairOk(parked, run, row, t, row'.value, Started(t), Plain)
  {
  }

  lemma ReleasePair(parked: bool, run: RunStatus, row: NodeRun, t: Task)
    requires HeldPair(parked, run, row, t)
    ensures PairOk(parked, run, row, t, row, Unleased(t).(status := TaskPending), Plain)
  {
  }

  lemma RenewPair(parked: bool, run: RunStatus, row: NodeRun, t: Task, until: nat)
    requires HeldPair(parked, run, row, t)
    ensures PairOk(parked, run, row, t, row, Extended(t, until), Plain)
  {
  }

  lemma ReportPair(parked: bool, run: RunStatus, row: NodeRun, t: Task, output: Json, anyTerminal: bool, at: nat, parking: Parking)
    requires HeldPair(parked, run, row, t) && t.status.TaskRunning?
    ensures var row' := CompletedRow(row, output);
            row'.Some? && PairOk(parked, run, row, t, row'.value, t.(status := TaskCompleted), Plain)
    ensures var row' := FailedRow(row, anyTerminal);
            row'.Some? && PairOk(parked, run, row, t, row'.value, t.(status := TaskFailed), Plain)
    ensures var row' := MoveNode(row, NodeRetrying, true);
            row'.Some? && PairOk(parked, run, row, t, row'.value, RetryLater(t, at), Retrying)
    ensures parked ==>
              var row' := ParkedRow(row, parking);
              row'.Some? && PairOk(parked, run, row, t, row'.value, t.(status := TaskCompleted), Plain)
  {
  }

  // ----- the transactions -----

  lemma HeldRow(st: RunState, n: NodeId)
    requires Inv(st) && n in st.tasks && !TaskTerminal(st.tasks[n].status) && st.tasks[n].token.Some?
    ensures n in st.nodes && !IsInputId(st.graph, n)
    ensures HeldPair(IsParkedId(st.graph, n), st.run, st.nodes[n], st.tasks[n])
  {
    assert NodeOk(st, n);
    RowOfHeld(IsInputId(st.graph, n), IsParkedId(st.graph, n), st.run, st.nodes[n], st.tasks[n]);
  }

  lemma QueuedRow(st: RunState, n: NodeId)
    requires Inv(st) && n in st.tasks && st.run.RunRunning? && st.tasks[n].status.TaskPending?
    ensures n in st.nodes && !IsInputId(st.graph, n)
    ensures QueuedPair(st.run, st.nodes[n], st.tasks[n])
  {
    assert NodeOk(st, n);
    RowOfQueued(IsInputId(st.graph, n), IsParkedId(st.graph, n), st.run, st.nodes[n], st.tasks[n]);
  }

  /** Committing an admissible pair is sound. */
  lemma CommitSound(st: RunState, n: NodeId, t: Task, row: Option<NodeRun>, log: seq<Event>, permit: Permit)
    requires Inv(st) && n in st.tasks && n in st.nodes && Open(st.run) && !IsInputId(st.graph, n)
    requires row.Some? && PairOk(IsParkedId(st.graph, n), st.run, st.nodes[n], st.tasks[n], row.value, t, permit)
    ensures Sound(st, Commit(st, n, t, row, log), permit)
    ensures Sound(st, Reply(Put(st, n, row.value, t, log), Released), permit)
  {
    PutSound(st, n, row.value, t, log, permit);
  }

  lemma ClaimSound(st: RunState, n: NodeId, worker: string, token: Token, lease: nat, now: nat)
    requires Inv(st)
    ensures Sound(st, AfterClaim(st, n, worker, token, lease, now), Claiming(token))
  {
    if !Claimable(st, n, now) || st.tasks[n].capability.Some? {
      NoChange(st, Reply(st, Refused), Claiming(token));
    } else {
      QueuedRow(st, n);
      LeasePair(IsParkedId(st.graph, n), st.run, st.nodes[n], st.tasks[n], worker, token, now + lease);
      CommitSound(st, n, Leased(st.tasks[n], worker, token, now + lease), Some(st.nodes[n]), [], Claiming(token));
    }
  }

  lemma RunnerClaimSound(st: RunState, n: NodeId, runner: string, capabilities: set<string>, token: Token, lease: nat, now: nat)
    requires Inv(st)
    ensures Sound(st, AfterRunnerClaim(st, n, runner, capabilities, token, lease, now), Claiming(token))
  {
    if !Claimable(st, n, now) || !RunnerMatches(st.tasks[n], runner, capabilities) {
      NoChange(st, Reply(st, Refused), Claiming(token));
    } else {
      QueuedRow(st, n);
      LeasePair(IsParkedId(st.graph, n), st.run, st.nodes[n], st.tasks[n], runner, token, now + lease);
      CommitSound(st, n, Started(Leased(st.tasks[n], runner, token, now + lease)),
                  MoveNode(st.nodes[n], NodeRunning, true), [NodeEvent(NodeStarted, n)], Claiming(token));
    }
  }

  lemma PausedRelease(st: RunState, n: NodeId)
    requires n in st.tasks && n in st.nodes && st.run.RunPaused?
    requires st.tasks[n].status.TaskClaimed? || st.tasks[n].status.TaskRunning?
    ensures AfterRelease(st, n) == Reply(Put(st, n, st.nodes[n], Unleased(st.tasks[n]).(status := TaskPending), []), Released)
  {
  }

  lemma ReleaseSound(st: RunState, n: NodeId)
    requires Inv(st) && n in st.tasks && n in st.nodes && !TaskTerminal(st.tasks[n].status) && st.tasks[n].token.Some?
    requires st.run != RunRunning
    ensures Sound(st, AfterRelease(st, n), Plain)
  {
    HeldRow(st, n);
    var t := Unleased(st.tasks[n]).(status := TaskPending);
    ReleasePair(IsParkedId(st.graph, n), st.run, st.nodes[n], st.tasks[n]);
    CommitSound(st, n, t, Some(st.nodes[n]), [], Plain);
    PausedRelease(st, n);
  }

  lemma StartSound(st: RunState, n: NodeId, worker: string, token: Token, now: nat)
    requires Inv(st)
    ensures Sound(st, AfterStart(st, n, worker, token, now), Plain)
  {
    if !OwnsTask(st, n, worker, token, now) {
      NoChange(st, Reply(st, Refused), Plain);
    } else if st.run != RunRunning {
      ReleaseSound(st, n);
    } else if !TaskMay(st.tasks[n].status, TaskRunning) {
      NoChange(st, Reply(st, InvalidTask), Plain);
    } else {
      HeldRow(st, n);
      StartPair(IsParkedId(st.graph, n), st.run, st.nodes[n], st.tasks[n]);
      CommitSound(st, n, Started(st.tasks[n]), MoveNode(st.nodes[n], NodeRunning, true), [NodeEvent(NodeStarted, n)], Plain);
    }
  }

  lemma RenewSound(st: RunState, n: NodeId, until: nat)
    requires Inv(st) && n in st.tasks && !TaskTerminal(st.tasks[n].status) && st.tasks[n].token.Some?
    ensures n in st.nodes
    ensures Sound(st, Commit(st, n, Extended(st.tasks[n], until), Some(st.nodes[n]), []), Plain)
  {
    HeldRow(st, n);
    RenewPair(IsParkedId(st.graph, n), st.run, st.nodes[n], st.tasks[n], until);
    CommitSound(st, n, Extended(st.tasks[n], until), Some(st.nodes[n]), [], Plain);
  }

  lemma RenewalSound(st: RunState, n: NodeId, who: string, token: Token, lease: nat, now: nat)
    requires Inv(st)
    ensures Sound(st, AfterRenew(st, n, who, token, lease, now), Plain)
  {
    RenewalReply(st, n, who, token, lease, now);
    ExtensionSound(st, AfterRenew(st, n, who, token, lease, now), n, now + lease);
  }

  /** The reply extends a held lease or leaves the rows alone. */
  predicate Extension(st: RunState, r: Reply, n: NodeId, until: nat) {
    || (r.st == st && !r.outcome.InvalidNode?)
    || (&& n in st.tasks && n in st.nodes && !TaskTerminal(st.tasks[n].status) && st.tasks[n].token.Some?
        && r == Commit(st, n, Extended(st.tasks[n], until), Some(st.nodes[n]), []))
  }

  lemma ExtensionSound(st: RunState, r: Reply, n: NodeId, until: nat)
    requires Inv(st) && Extension(st, r, n, until)
    ensures Sound(st, r, Plain)
  {
    if r.st == st && !r.outcome.InvalidNode? {
      NoChange(st, r, Plain);
    } else {
      RenewSound(st, n, until);
    }
  }

  lemma HeartbeatReply(st: RunState, n: NodeId, who: string, token: Token, lease: nat, now: nat)
    ensures Extension(st, AfterHeartbeat(st, n, who, token, lease, now), n, now + lease)
  {
  }

  lemma RenewalReply(st: RunState, n: NodeId, who: string, token: Token, lease: nat, now: nat)
    ensures Extension(st, AfterRenew(st, n, who, token, lease, now), n, now + lease)
  {
  }

  lemma HeartbeatSound(st: RunState, n: NodeId, who: string, token: Token, lease: nat, now: nat)
    requires Inv(st)
    ensures Sound(st, AfterHeartbeat(st, n, who, token, lease, now), Plain)
  {
    HeartbeatReply(st, n, who, token, lease, now);
    ExtensionSound(st, AfterHeartbeat(st, n, who, token, lease, now), n, now + lease);
  }

  lemma CompletedSound(st: RunState, n: NodeId, output: Json, log: seq<Event>)
    requires Inv(st) && n in st.tasks && n in st.nodes && !TaskTerminal(st.tasks[n].status) && st.tasks[n].token.Some?
    ensures Sound(st, CommitCompleted(st, n, output, log), Plain)
  {
    if !TaskMay(st.tasks[n].status, TaskCompleted) {
      NoChange(st, Reply(st, InvalidTask), Plain);
    } else {
      HeldRow(st, n);
      ReportPair(IsParkedId(st.graph, n), st.run, st.nodes[n], st.tasks[n], output, true, 0, Parking("", map[]));
      CommitSound(st, n, st.tasks[n].(status := TaskCompleted), CompletedRow(st.nodes[n], output),
                  log + [NodeEvent(NodeCompletedEvent, n)], Plain);
    }
  }

  lemma FailedSound(st: RunState, n: NodeId, anyTerminal: bool, log: seq<Event>)
    requires Inv(st) && n in st.tasks && n in st.nodes && !TaskTerminal(st.tasks[n].status) && st.tasks[n].token.Some?
    ensures Sound(st, CommitFailed(st, n, anyTerminal, log), Plain)
  {
    if !TaskMay(st.tasks[n].status, TaskFailed) {
      NoChange(st, Reply(st, InvalidTask), Plain);
    } else {
      HeldRow(st, n);
      ReportPair(IsParkedId(st.graph, n), st.run, st.nodes[n], st.tasks[n], Null, anyTerminal, 0, Parking("", map[]));
      CommitSound(st, n, st.tasks[n].(status := TaskFailed), FailedRow(st.nodes[n], anyTerminal),
                  log + [NodeEvent(NodeFailedEvent, n)], Plain);
    }
  }

  lemma RetrySound(st: RunState, n: NodeId, backoff: nat, now: nat, log: seq<Event>)
    requires Inv(st) && n in st.tasks && n in st.nodes && !TaskTerminal(st.tasks[n].status) && st.tasks[n].token.Some?
    ensures Sound(st, CommitRetry(st, n, backoff, now, log), Retrying)
  {
    if !TaskMay(st.tasks[n].status, TaskRetryWait) {
      NoChange(st, Reply(st, InvalidTask), Retrying);
    } else {
      HeldRow(st, n);
      ReportPair(IsParkedId(st.graph, n), st.run, st.nodes[n], st.tasks[n], Null, true, now + backoff, Parking("", map[]));
      CommitSound(st, n, RetryLater(st.tasks[n], now + backoff), MoveNode(st.nodes[n], NodeRetrying, true),
                  log + [NodeEvent(NodeRetryingEvent, n)], Retrying);
    }
  }

  lemma WaitSound(st: RunState, n: NodeId, worker: string, token: Token, parking: Parking, now: nat)
    requires Inv(st) && IsParkedId(st.graph, n)
    ensures Sound(st, AfterWait(st, n, worker, token, parking, now), Plain)
  {
    if !OwnsTask(st, n, worker, token, now) {
      NoChange(st, Reply(st, Refused), Plain);
    } else if !TaskMay(st.tasks[n].status, TaskCompleted) {
      NoChange(st, Reply(st, InvalidTask), Plain);
    } else {
      HeldRow(st, n);
      ReportPair(true, st.run, st.nodes[n], st.tasks[n], Null, true, 0, parking);
      CommitSound(st, n, st.tasks[n].(status := TaskCompleted), ParkedRow(st.nodes[n], parking),
                  [NodeEvent(NodeWaitingEvent, n)], Plain);
    }
  }

  lemma CompleteSound(st: RunState, n: NodeId, worker: string, token: Token, output: Json, now: nat)
    requires Inv(st)
    ensures Sound(st, AfterComplete(st, n, worker, token, output, now), Plain)
  {
    if OwnsTask(st, n, worker, token, now) {
      CompletedSound(st, n, output, []);
    } else {
      NoChange(st, Reply(st, Refused), Plain);
    }
  }

  lemma FailSound(st: RunState, n: NodeId, worker: string, token: Token, now: nat)
    requires Inv(st)
    ensures Sound(st, AfterFail(st, n, worker, token, now), Plain)
  {
    if OwnsTask(st, n, worker, token, now) {
      FailedSound(st, n, true, []);
    } else {
      NoChange(st, Reply(st, Refused), Plain);
    }
  }

  lemma DeferSound(st: RunState, n: NodeId, worker: string, token: Token, backoff: nat, now: nat)
    requires Inv(st)
    ensures Sound(st, AfterRetry(st, n, worker, token, backoff, now), Retrying)
  {
    if OwnsTask(st, n, worker, token, now) {
      RetrySound(st, n, backoff, now, []);
    } else {
      NoChange(st, Reply(st, Refused), Retrying);
    }
  }

  /** A Runner's report asks for a retry exactly when the budget leaves one. */
  function SubmitPermit(st: RunState, n: NodeId, result: RunnerResult): Permit {
    if n in st.tasks && RunnerRetries(st.tasks[n], result) then Retrying else Plain
  }

  lemma SubmitSound(st: RunState, n: NodeId, runner: string, token: Token, result: RunnerResult, now: nat)
    requires Inv(st)
    ensures Sound(st, AfterSubmit(st, n, runner, token, result, now), SubmitPermit(st, n, result))
  {
    if RunTerminal(st.run) || !OwnsTask(st, n, runner, token, now) {
      NoChange(st, Reply(st, Refused), SubmitPermit(st, n, result));
    } else {
      var log := LogLines(n, result.logs);
      CompletedSound(st, n, result.output, log);
      RetrySound(st, n, result.backoff, now, log);
      FailedSound(st, n, false, log);
    }
  }
}
