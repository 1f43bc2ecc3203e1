/** The MySQL execution backend: each method is one transaction that updates
    the rows in place, proved to do exactly what its rule says. */
module ExecutionBackend {
  import opened Basics
  import opened StateMachines
  import opened Graphs
  import opened RunRows
  import opened SchedulerRules
  import opened QueueRules

  method Claim(db: RunStore, n: NodeId, worker: string, token: Token, lease: nat, now: nat) returns (outcome: Outcome)
    modifies db
    ensures Reply(db.View(), outcome) == AfterClaim(old(db.View()), n, worker, token, lease, now)
  {
    if db.run != RunRunning || n !in db.tasks || n !in db.nodes {
      return Refused;
    }
    var t := db.tasks[n];
    if t.status != TaskPending || t.availableAt > now || t.capability.Some? {
      return Refused;
    }
    t := t.(status := TaskClaimed);
    t := t.(lockedBy := Some(worker), token := Some(token));
    t := t.(expires := Some(now + lease));
    db.tasks := db.tasks[n := t];
    assert db.nodes == db.nodes[n := db.nodes[n]];
    return Accepted;
  }

  /** Hand a claimed task back, or cancel it, instead of starting it. */
  method ReleaseOrCancel(db: RunStore, n: NodeId) returns (outcome: Outcome)
    requires n in db.tasks && n in db.nodes
    modifies db
    ensures Reply(db.View(), outcome) == AfterRelease(old(db.View()), n)
  {
    var t := db.tasks[n];
    assert db.nodes == db.nodes[n := db.nodes[n]];
    if db.run == RunPaused || db.run == RunWaiting {
      if !TaskMay(t.status, TaskPending) {
        return InvalidTask;
      }
      db.tasks := db.tasks[n := t.(status := TaskPending, lockedBy := None, token := None, expires := None)];
      return Released;
    }
    if !TaskMay(t.status, TaskCancelled) {
      return InvalidTask;
    }
    var before := db.View();
    db.tasks := db.tasks[n := t.(status := TaskCancelled)];
    if !NodeTerminal(db.nodes[n].status) {
      if !NodeMay(db.nodes[n].status, NodeCancelled) {
        db.Rollback(before);
        return InvalidNode;
      }
      db.nodes := db.nodes[n := db.nodes[n].(status := NodeCancelled)];
    }
    return Released;
  }

  method Start(db: RunStore, n: NodeId, worker: string, token: Token, now: nat) returns (outcome: Outcome)
    modifies db
    ensures Reply(db.View(), outcome) == AfterStart(old(db.View()), n, worker, token, now)
  {
    if n !in db.tasks || n !in db.nodes || !Owns(db.tasks[n], worker, token, now) {
      return Refused;
    }
    if db.run != RunRunning {
      outcome := ReleaseOrCancel(db, n);
      return;
    }
    var before := db.View();
    if !TaskMay(db.tasks[n].status, TaskRunning) {
      return InvalidTask;
    }
    db.tasks := db.tasks[n := db.tasks[n].(status := TaskRunning, attempt := db.tasks[n].attempt + 1)];
    if db.nodes[n].status != NodeRunning {
      if !NodeMay(db.nodes[n].status, NodeRunning) {
        db.Rollback(before);
        return InvalidNode;
      }
      db.nodes := db.nodes[n := db.nodes[n].(status := NodeRunning)];
    }
    db.events := db.events + [NodeEvent(NodeStarted, n)];
    assert db.nodes == db.nodes[n := db.nodes[n]];
    return Accepted;
  }

  method Complete(db: RunStore, n: NodeId, worker: string, token: Token, output: Json, now: nat) returns (outcome: Outcome)
    modifies db
    ensures Reply(db.View(), outcome) == AfterComplete(old(db.View()), n, worker, token, output, now)
  {
    if n !in db.tasks || n !in db.nodes || !Owns(db.tasks[n], worker, token, now) {
      return Refused;
    }
    if !TaskMay(db.tasks[n].status, TaskCompleted) {
      return InvalidTask;
    }
    var before := db.View();
    db.tasks := db.tasks[n := db.tasks[n].(status := TaskCompleted)];
    if !NodeMay(db.nodes[n].status, NodeCompleted) {
      db.Rollback(before);
      return InvalidNode;
    }
    db.nodes := db.nodes[n := db.nodes[n].(status := NodeCompleted, output := Some(output))];
    db.events := db.events + [NodeEvent(NodeCompletedEvent, n)];
    assert [] + [NodeEvent(NodeCompletedEvent, n)] == [NodeEvent(NodeCompletedEvent, n)];
    return Accepted;
  }

  method Fail(db: RunStore, n: NodeId, worker: string, token: Token, now: nat) returns (outcome: Outcome)
    modifies db
    ensures Reply(db.View(), outcome) == AfterFail(old(db.View()), n, worker, token, now)
  {
    if n !in db.tasks || n !in db.nodes || !Owns(db.tasks[n], worker, token, now) {
      return Refused;
    }
    if !TaskMay(db.tasks[n].status, TaskFailed) {
      return InvalidTask;
    }
    var before := db.View();
    db.tasks := db.tasks[n := db.tasks[n].(status := TaskFailed)];
    if !NodeTerminal(db.nodes[n].status) {
      if !NodeMay(db.nodes[n].status, NodeFailed) {
        db.Rollback(before);
        return InvalidNode;
      }
      db.nodes := db.nodes[n := db.nodes[n].(status := NodeFailed)];
    }
    db.events := db.events + [NodeEvent(NodeFailedEvent, n)];
    assert db.nodes == db.nodes[n := db.nodes[n]];
    assert [] + [NodeEvent(NodeFailedEvent, n)] == [NodeEvent(NodeFailedEvent, n)];
    return Accepted;
  }

  method WaitNode(db: RunStore, n: NodeId, worker: string, token: Token, parking: Parking, now: nat) returns (outcome: Outcome)
    modifies db
    ensures Reply(db.View(), outcome) == AfterWait(old(db.View()), n, worker, token, parking, now)
  {
    if n !in db.tasks || n !in db.nodes || !Owns(db.tasks[n], worker, token, now) {
      return Refused;
    }
    if !TaskMay(db.tasks[n].status, TaskCompleted) {
      return InvalidTask;
    }
    var before := db.View();
    db.tasks := db.tasks[n := db.tasks[n].(status := TaskCompleted)];
    if !NodeMay(db.nodes[n].status, NodeWaiting) {
      db.Rollback(before);
      return InvalidNode;
    }
    db.nodes := db.nodes[n := db.nodes[n].(status := NodeWaiting, parking := Some(parking))];
    db.events := db.events + [NodeEvent(NodeWaitingEvent, n)];
    return Accepted;
  }

  method ScheduleRetry(db: RunStore, n: NodeId, worker: string, token: Token, backoff: nat, now: nat) returns (outcome: Outcome)
    modifies db
    ensures Reply(db.View(), outcome) == AfterRetry(old(db.View()), n, worker, token, backoff, now)
  {
    if n !in db.tasks || n !in db.nodes || !Owns(db.tasks[n], worker, token, now) {
      return Refused;
    }
    if !TaskMay(db.tasks[n].status, TaskRetryWait) {
      return InvalidTask;
    }
    var before := db.View();
    var t := db.tasks[n].(status := TaskRetryWait, availableAt := now + backoff);
    t := t.(lockedBy := None, token := None, expires := None);
    db.tasks := db.tasks[n := t];
    if db.nodes[n].status != NodeRetrying {
      if !NodeMay(db.nodes[n].status, NodeRetrying) {
        db.Rollback(before);
        return InvalidNode;
      }
      db.nodes := db.nodes[n := db.nodes[n].(status := NodeRetrying)];
    }
    db.events := db.events + [NodeEvent(NodeRetryingEvent, n)];
    assert db.nodes == db.nodes[n := db.nodes[n]];
    assert [] + [NodeEvent(NodeRetryingEvent, n)] == [NodeEvent(NodeRetryingEvent, n)];
    return Accepted;
  }

  method RenewLease(db: RunStore, n: NodeId, worker: string, token: Token, lease: nat, now: nat) returns (outcome: Outcome)
    modifies db
    ensures Reply(db.View(), outcome) == AfterRenew(old(db.View()), n, worker, token, lease, now)
  {
    if n !in db.tasks || n !in db.nodes || !Owns(db.tasks[n], worker, token, now) {
      return Refused;
    }
    db.tasks := db.tasks[n := db.tasks[n].(expires := Some(now + lease))];
    assert db.nodes == db.nodes[n := db.nodes[n]];
    return Accepted;
  }

  // ----- periodic repair -----

  /** The rows of a task table after the listed ones were handed back. */
  function HandedBack(tasks: map<NodeId, Task>, rows: seq<NodeId>): map<NodeId, Task> {
    map n | n in tasks :: if n in rows then Unleased(tasks[n]).(status := TaskPending) else tasks[n]
  }

  lemma HandBackOne(tasks: map<NodeId, Task>, rows: seq<NodeId>, n: NodeId)
    requires n in tasks && n !in rows
    ensures HandedBack(tasks, rows + [n]) == HandedBack(tasks, rows)[n := Unleased(tasks[n]).(status := TaskPending)]
    ensures HandedBack(tasks, rows)[n] == tasks[n]
  {
  }

  lemma NoneHandedBack(tasks: map<NodeId, Task>)
    ensures HandedBack(tasks, []) == tasks
  {
  }

  lemma ExpiredHandedBack(st: RunState, locked: set<NodeId>, now: nat, rows: seq<NodeId>)
    requires forall n :: n in rows <==> n in ExpiredRows(st.tasks, locked, now)
    ensures HandedBack(st.tasks, rows) == AfterRecover(st, locked, now).tasks
  {
  }

  method RecoverExpired(db: RunStore, locked: set<NodeId>, now: nat) returns (count: nat)
    requires Contract(db.graph) && db.tasks.Keys <= Ids(db.graph)
    modifies db
    ensures db.View() == AfterRecover(old(db.View()), locked, now)
    ensures count == |Select(Order(db.graph), ExpiredRows(old(db.tasks), locked, now))|
  {
    ghost var before := db.tasks;
    var rows := Select(Order(db.graph), ExpiredRows(db.tasks, locked, now));
    OrderMembers(db.graph);
    SelectedRows(Order(db.graph), ExpiredRows(db.tasks, locked, now));
    count := 0;
    NoneHandedBack(before);
    assert rows[..0] == [];
    for i := 0 to |rows|
      invariant count == i
      invariant db.View() == old(db.View()).(tasks := HandedBack(before, rows[..i]))
    {
      var n := rows[i];
      assert n in rows;
      assert rows[..i + 1] == rows[..i] + [n];
      HandBackOne(before, rows[..i], n);
      var t := db.tasks[n].(status := TaskPending);
      t := t.(lockedBy := None, token := None, expires := None);
      db.tasks := db.tasks[n := t];
      count := count + 1;
    }
    assert rows[..|rows|] == rows;
    ExpiredHandedBack(old(db.View()), locked, now, rows);
  }

  function RequeuedTasks(tasks: map<NodeId, Task>, rows: seq<NodeId>): map<NodeId, Task> {
    map n | n in tasks :: if n in rows then tasks[n].(status := TaskPending) else tasks[n]
  }

  function RequeuedNodes(nodes: map<NodeId, NodeRun>, rows: seq<NodeId>): map<NodeId, NodeRun> {
    map n | n in nodes :: if n in rows then nodes[n].(status := NodeQueued) else nodes[n]
  }

  /** The rows after the listed retries were promoted. */
  function Promoted(st: RunState, rows: seq<NodeId>): RunState {
    st.(tasks := RequeuedTasks(st.tasks, rows), nodes := RequeuedNodes(st.nodes, rows),
        events := st.events + NodeEvents(NodeQueuedEvent, rows))
  }

  lemma PromoteOne(st: RunState, rows: seq<NodeId>, n: NodeId)
    requires n in st.tasks && n in st.nodes && n !in rows
    ensures Promoted(st, rows).tasks[n] == st.tasks[n] && Promoted(st, rows).nodes[n] == st.nodes[n]
    ensures Promoted(st, rows + [n]) ==
            Put(Promoted(st, rows), n, st.nodes[n].(status := NodeQueued), st.tasks[n].(status := TaskPending),
                [NodeEvent(NodeQueuedEvent, n)])
  {
    var a, b := Promoted(st, rows), Promoted(st, rows + [n]);
    assert b.tasks == a.tasks[n := st.tasks[n].(status := TaskPending)];
    assert b.nodes == a.nodes[n := st.nodes[n].(status := NodeQueued)];
    NodeEventsSnoc(NodeQueuedEvent, rows, n);
    assert b.events == a.events + [NodeEvent(NodeQueuedEvent, n)];
  }

  lemma PromoteAll(st: RunState, locked: set<NodeId>, now: nat, rows: seq<NodeId>)
    requires rows == Select(Order(st.graph), DueRetries(st.tasks, locked, now))
    requires forall n :: n in rows <==> n in DueRetries(st.tasks, locked, now)
    requires forall k :: 0 <= k < |rows| ==> CanRequeue(st.nodes, rows[k])
    ensures AfterPromoteRetries(st, locked, now) == Reply(Promoted(st, rows[..|rows|]), Accepted)
  {
    var due := DueRetries(st.tasks, locked, now);
    assert rows[..|rows|] == rows;
    assert RequeuedNodes(st.nodes, rows) == MarkQueued(st.nodes, due);
    assert RequeuedTasks(st.tasks, rows) ==
           map n | n in st.tasks :: if n in due then st.tasks[n].(status := TaskPending) else st.tasks[n];
  }

  /** Requeue one due retry and its node. */
  method RequeueRow(db: RunStore, n: NodeId) returns (ok: bool)
    requires n in db.tasks && n in db.nodes
    modifies db
    ensures ok == CanRequeue(old(db.nodes), n)
    ensures ok ==> db.View() == Put(old(db.View()), n, old(db.nodes[n]).(status := NodeQueued),
                                    old(db.tasks[n]).(status := TaskPending), [NodeEvent(NodeQueuedEvent, n)])
  {
    db.tasks := db.tasks[n := db.tasks[n].(status := TaskPending)];
    if db.nodes[n].status != NodeQueued && !NodeMay(db.nodes[n].status, NodeQueued) {
      return false;
    }
    db.nodes := db.nodes[n := db.nodes[n].(status := NodeQueued)];
    db.events := db.events + [NodeEvent(NodeQueuedEvent, n)];
    return true;
  }

  lemma PromotedNone(st: RunState)
    ensures Promoted(st, []) == st
  {
    assert RequeuedTasks(st.tasks, []) == st.tasks;
    assert RequeuedNodes(st.nodes, []) == st.nodes;
  }

  lemma PromotionRaises(st: RunState, locked: set<NodeId>, now: nat, n: NodeId)
    requires n in DueRetries(st.tasks, locked, now) && !CanRequeue(st.nodes, n)
    ensures AfterPromoteRetries(st, locked, now) == Reply(st, InvalidNode)
  {
  }

  /** The rows the promotion SELECT returns, each once. */
  ghost predicate DueList(st: RunState, locked: set<NodeId>, now: nat, rows: seq<NodeId>) {
    && rows == Select(Order(st.graph), DueRetries(st.tasks, locked, now))
    && Distinct(rows)
    && forall n :: n in rows <==> n in DueRetries(st.tasks, locked, now)
  }

  lemma DueListed(st: RunState, locked: set<NodeId>, now: nat)
    requires Contract(st.graph) && st.tasks.Keys <= Ids(st.graph)
    ensures DueList(st, locked, now, Select(Order(st.graph), DueRetries(st.tasks, locked, now)))
  {
    OrderMembers(st.graph);
    SelectedRows(Order(st.graph), DueRetries(st.tasks, locked, now));
  }

  lemma NextDue(st: RunState, locked: set<NodeId>, now: nat, rows: seq<NodeId>, i: nat)
    requires DueList(st, locked, now, rows) && i < |rows| && st.tasks.Keys <= st.nodes.Keys
    ensures var n, done := rows[i], Promoted(st, rows[..i]);
            && n in DueRetries(st.tasks, locked, now) && n in st.nodes
            && n in done.tasks && n in done.nodes && done.tasks[n] == st.tasks[n] && done.nodes[n] == st.nodes[n]
            && Promoted(st, rows[..i + 1]) ==
               Put(done, n, st.nodes[n].(status := NodeQueued), st.tasks[n].(status := TaskPending), [NodeEvent(NodeQueuedEvent, n)])
  {
    NextRow(rows, i);
    PromoteOne(st, rows[..i], rows[i]);
  }

  /** Requeue the rows in turn; a refused transition undoes the transaction. */
  method RequeueRows(db: RunStore, rows: seq<NodeId>, ghost locked: set<NodeId>, ghost now: nat) returns (ok: bool)
    requires DueList(db.View(), locked, now, rows) && db.tasks.Keys <= db.nodes.Keys
    modifies db
    ensures ok <==> forall k :: 0 <= k < |rows| ==> CanRequeue(old(db.nodes), rows[k])
    ensures db.View() == if ok then Promoted(old(db.View()), rows[..|rows|]) else old(db.View())
  {
    var before := db.View();
    PromotedNone(before);
    for i := 0 to |rows|
      invariant db.View() == Promoted(before, rows[..i])
      invariant forall k :: 0 <= k < i ==> CanRequeue(before.nodes, rows[k])
    {
      NextDue(before, locked, now, rows, i);
      ok := RequeueRow(db, rows[i]);
      if !ok {
        db.Rollback(before);
        return false;
      }
    }
    return true;
  }

  method PromoteDueRetries(db: RunStore, locked: set<NodeId>, now: nat) returns (outcome: Outcome)
    requires Contract(db.graph) && db.tasks.Keys <= Ids(db.graph) && db.nodes.Keys == Ids(db.graph)
    modifies db
    ensures Reply(db.View(), outcome) == AfterPromoteRetries(old(db.View()), locked, now)
  {
    ghost var before := db.View();
    var rows := Select(Order(db.graph), DueRetries(db.tasks, locked, now));
    DueListed(before, locked, now);
    var ok := RequeueRows(db, rows, locked, now);
    if ok {
      PromoteAll(before, locked, now, rows);
      return Accepted;
    }
    ghost var k :| 0 <= k < |rows| && !CanRequeue(before.nodes, rows[k]);
    PromotionRaises(before, locked, now, rows[k]);
    return InvalidNode;
  }
}
