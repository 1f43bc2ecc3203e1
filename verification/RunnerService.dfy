/** The Runner side of the queue: claim-and-start, heartbeat and result. */
module RunnerService {
  import opened Basics
  import opened StateMachines
  import opened RunRows
  import opened SchedulerRules
  import opened QueueRules
  import opened Scheduling
  import opened SchedulerService

  method RunnerClaim(db: RunStore, n: NodeId, runner: string, capabilities: set<string>, token: Token, lease: nat, now: nat)
    returns (outcome: Outcome)
    modifies db
    ensures Reply(db.View(), outcome) == AfterRunnerClaim(old(db.View()), n, runner, capabilities, token, lease, now)
  {
    if db.run != RunRunning || n !in db.tasks || n !in db.nodes {
      return Refused;
    }
    var t := db.tasks[n];
    if t.status != TaskPending || t.availableAt > now || !RunnerMatches(t, runner, capabilities) {
      return Refused;
    }
    var before := db.View();
    t := t.(status := TaskClaimed, lockedBy := Some(runner), token := Some(token), expires := Some(now + lease));
    t := t.(status := TaskRunning);
    t := t.(attempt := t.attempt + 1);
    db.tasks := db.tasks[n := t];
    if db.nodes[n].status != NodeRunning {
      if !NodeMay(db.nodes[n].status, NodeRunning) {
        db.Rollback(before);
        return InvalidNode;
      }
      db.nodes := db.nodes[n := db.nodes[n].(status := NodeRunning)];
    }
    db.events := db.events + [NodeEvent(NodeStarted, n)];
    assert db.nodes == db.nodes[n := db.nodes[n]];
    return Accepted;
  }

  method TaskHeartbeat(db: RunStore, n: NodeId, runner: string, token: Token, lease: nat, now: nat) returns (outcome: Outcome)
    modifies db
    ensures Reply(db.View(), outcome) == AfterHeartbeat(old(db.View()), n, runner, token, lease, now)
  {
    if n !in db.tasks || n !in db.nodes || db.tasks[n].lockedBy != Some(runner) || db.tasks[n].token != Some(token) {
      return Refused;
    }
    if db.tasks[n].status != TaskRunning {
      return Signalled;
    }
    if RunTerminal(db.run) {
      return Signalled;
    }
    db.tasks := db.tasks[n := db.tasks[n].(expires := Some(now + lease))];
    assert db.nodes == db.nodes[n := db.nodes[n]];
    return Accepted;
  }

  /** Append the stdout and stderr events of a result. */
  method RecordLogs(db: RunStore, n: NodeId, logs: nat)
    modifies db
    ensures db.View() == old(db.View()).(events := old(db.events) + LogLines(n, logs))
  {
    ghost var before := db.View();
    for i := 0 to logs
      invariant db.View() == before.(events := before.events + LogLines(n, i))
    {
      assert LogLines(n, i + 1) == LogLines(n, i) + [NodeEvent(NodeLog, n)];
      db.events := db.events + [NodeEvent(NodeLog, n)];
    }
  }

  /** The transaction that records the result. */
  method RecordResult(db: RunStore, n: NodeId, runner: string, token: Token, result: RunnerResult, now: nat) returns (outcome: Outcome)
    modifies db
    ensures Reply(db.View(), outcome) == AfterSubmit(old(db.View()), n, runner, token, result, now)
  {
    if RunTerminal(db.run) || n !in db.tasks || n !in db.nodes || !Owns(db.tasks[n], runner, token, now) {
      return Refused;
    }
    var before := db.View();
    var t := db.tasks[n];
    var retry := !result.ok && result.retryable && t.attempt < t.maxAttempts;
    RecordLogs(db, n, result.logs);
    if result.ok {
      outcome := ReportCompleted(db, n, result.output);
    } else if retry {
      outcome := ReportRetry(db, n, result.backoff, now);
    } else {
      outcome := ReportFailed(db, n);
    }
    if outcome != Accepted {
      db.Rollback(before);
    }
    LogsFirst(before, n, result, now);
  }

  lemma LogsFirst(st: RunState, n: NodeId, result: RunnerResult, now: nat)
    requires n in st.tasks && n in st.nodes
    ensures var log := LogLines(n, result.logs);
            var noted := st.(events := st.events + log);
            && SameReport(CommitCompleted(noted, n, result.output, []), CommitCompleted(st, n, result.output, log))
            && SameReport(CommitRetry(noted, n, result.backoff, now, []), CommitRetry(st, n, result.backoff, now, log))
            && SameReport(CommitFailed(noted, n, false, []), CommitFailed(st, n, false, log))
  {
    var log := LogLines(n, result.logs);
    forall e: Event
      ensures (st.events + log) + ([] + [e]) == st.events + (log + [e])
    {
    }
  }

  /** Two reports agree on the outcome, and on the rows if they were accepted. */
  predicate SameReport(a: Reply, b: Reply) {
    a.outcome == b.outcome && (a.outcome == Accepted ==> a.st == b.st)
  }

  method ReportCompleted(db: RunStore, n: NodeId, output: Json) returns (outcome: Outcome)
    requires n in db.tasks && n in db.nodes
    modifies db
    ensures outcome == CommitCompleted(old(db.View()), n, output, []).outcome
    ensures outcome == Accepted ==> db.View() == CommitCompleted(old(db.View()), n, output, []).st
  {
    if !TaskMay(db.tasks[n].status, TaskCompleted) {
      return InvalidTask;
    }
    db.tasks := db.tasks[n := db.tasks[n].(status := TaskCompleted)];
    if !NodeMay(db.nodes[n].status, NodeCompleted) {
      return InvalidNode;
    }
    db.nodes := db.nodes[n := db.nodes[n].(status := NodeCompleted, output := Some(output))];
    db.events := db.events + [NodeEvent(NodeCompletedEvent, n)];
    assert [] + [NodeEvent(NodeCompletedEvent, n)] == [NodeEvent(NodeCompletedEvent, n)];
    return Accepted;
  }

  method ReportRetry(db: RunStore, n: NodeId, backoff: nat, now: nat) returns (outcome: Outcome)
    requires n in db.tasks && n in db.nodes
    modifies db
    ensures outcome == CommitRetry(old(db.View()), n, backoff, now, []).outcome
    ensures outcome == Accepted ==> db.View() == CommitRetry(old(db.View()), n, backoff, now, []).st
  {
    if !TaskMay(db.tasks[n].status, TaskRetryWait) {
      return InvalidTask;
    }
    var t := db.tasks[n].(status := TaskRetryWait, availableAt := now + backoff);
    db.tasks := db.tasks[n := t.(lockedBy := None, token := None, expires := None)];
    if db.nodes[n].status != NodeRetrying {
      if !NodeMay(db.nodes[n].status, NodeRetrying) {
        return InvalidNode;
      }
      db.nodes := db.nodes[n := db.nodes[n].(status := NodeRetrying)];
    }
    db.events := db.events + [NodeEvent(NodeRetryingEvent, n)];
    assert db.nodes == db.nodes[n := db.nodes[n]];
    assert [] + [NodeEvent(NodeRetryingEvent, n)] == [NodeEvent(NodeRetryingEvent, n)];
    return Accepted;
  }

  method ReportFailed(db: RunStore, n: NodeId) returns (outcome: Outcome)
    requires n in db.tasks && n in db.nodes
    modifies db
    ensures outcome == CommitFailed(old(db.View()), n, false, []).outcome
    ensures outcome == Accepted ==> db.View() == CommitFailed(old(db.View()), n, false, []).st
  {
    if !TaskMay(db.tasks[n].status, TaskFailed) {
      return InvalidTask;
    }
    db.tasks := db.tasks[n := db.tasks[n].(status := TaskFailed)];
    if db.nodes[n].status != NodeFailed {
      if !NodeMay(db.nodes[n].status, NodeFailed) {
        return InvalidNode;
      }
      db.nodes := db.nodes[n := db.nodes[n].(status := NodeFailed)];
    }
    db.events := db.events + [NodeEvent(NodeFailedEvent, n)];
    assert db.nodes == db.nodes[n := db.nodes[n]];
    assert [] + [NodeEvent(NodeFailedEvent, n)] == [NodeEvent(NodeFailedEvent, n)];
    return Accepted;
  }

  lemma SubmitKeepsTables(st: RunState, n: NodeId, runner: string, token: Token, result: RunnerResult, now: nat)
    requires Tables(st)
    ensures Tables(AfterSubmit(st, n, runner, token, result, now).st)
  {
  }

  predicate SentToRetry(st: RunState, n: NodeId) {
    n in st.tasks && st.tasks[n].status.TaskRetryWait?
  }

  lemma RetriedIsSent(st: RunState, n: NodeId, runner: string, token: Token, result: RunnerResult, now: nat)
    ensures var first := AfterSubmit(st, n, runner, token, result, now);
            first.outcome.Accepted? ==> (SentToRetry(first.st, n) <==> n in st.tasks && RunnerRetries(st.tasks[n], result))
  {
  }

  /** Record the result and, unless it is retried, reconcile the run in a second
      transaction. */
  method RunnerSubmit(db: RunStore, n: NodeId, runner: string, token: Token, result: RunnerResult,
                      u: Unresolved, unflushed: set<NodeId>, now: nat) returns (outcome: Outcome)
    requires Tables(db.View())
    modifies db
    ensures var first := AfterSubmit(old(db.View()), n, runner, token, result, now);
            Reply(db.View(), outcome) ==
            if first.outcome.Accepted? && !SentToRetry(first.st, n)
            then AfterReconcile(first.st, u, unflushed, now) else first
  {
    var retry := n in db.tasks && RunnerRetries(db.tasks[n], result);
    SubmitKeepsTables(db.View(), n, runner, token, result, now);
    RetriedIsSent(db.View(), n, runner, token, result, now);
    outcome := RecordResult(db, n, runner, token, result, now);
    if outcome.Accepted? && !retry {
      outcome := SchedulerService.ReconcileRun(db, u, unflushed, now);
    }
  }
}
