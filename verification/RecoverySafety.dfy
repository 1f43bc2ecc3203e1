/** Lease recovery and retry promotion keep the invariant. */
module RecoverySafety {
  import opened Basics
  import opened StateMachines
  import opened Graphs
  import opened RunRows
  import opened SchedulerRules
  import opened QueueRules
  import opened Invariant
  import opened QueueSafety

  ghost predicate TasksObey(st: RunState, next: RunState, permit: Permit)
    requires next.tasks.Keys == st.tasks.Keys
  {
    forall n :: n in st.tasks ==> JudgeTask(st.run, st.tasks[n], next.tasks[n], permit) == Consistent
  }

  predicate ReworkedRow(a: NodeRun, b: NodeRun) {
    b == a || (!Settled(a.status) && b.status != NodeSkipped)
  }

  /** Only rows that are still unsettled changed, and none became skipped. */
  ghost predicate Reworked(a: map<NodeId, NodeRun>, b: map<NodeId, NodeRun>) {
    forall n :: n in a ==> n in b && ReworkedRow(a[n], b[n])
  }

  /** A transaction that rewrites several working rows of an open run. */
  lemma SweepSound(st: RunState, next: RunState, permit: Permit)
    requires Inv(st) && Open(st.run) && next.run == st.run && next.graph == st.graph
    requires next.nodes.Keys == st.nodes.Keys && next.tasks.Keys == st.tasks.Keys
    requires st.events <= next.events
    requires Reworked(st.nodes, next.nodes) && RowsOk(next)
    requires TasksObey(st, next, permit)
    ensures Inv(next) && Lawful(st, next, permit)
  {
    OrderedStays(st, next);
  }

  // ----- recovery -----

  lemma ExpiredPair(input: bool, parked: bool, run: RunStatus, row: NodeRun, t: Task, now: nat)
    requires Judge(input, parked, run, row, Some(t)) == Consistent && Expired(t, now)
    ensures Open(run)
    ensures Judge(input, parked, run, row, Some(Unleased(t).(status := TaskPending))) == Consistent
    ensures JudgeTask(run, t, Unleased(t).(status := TaskPending), Plain) == Consistent
  {
  }

  lemma NothingToRecover(st: RunState, locked: set<NodeId>, now: nat)
    requires forall n :: n in st.tasks ==> n in locked || !Expired(st.tasks[n], now)
    ensures AfterRecover(st, locked, now) == st
  {
    assert AfterRecover(st, locked, now).tasks == st.tasks;
  }

  lemma RecoveredRow(st: RunState, locked: set<NodeId>, now: nat, n: NodeId)
    requires Inv(st) && n in st.nodes
    ensures NodeOk(AfterRecover(st, locked, now), n)
    ensures n in st.tasks ==>
              JudgeTask(st.run, st.tasks[n], AfterRecover(st, locked, now).tasks[n], Plain) == Consistent
  {
    assert NodeOk(st, n);
    if n in st.tasks {
      SameTask(st.run, st.tasks[n], Plain);
      if Expired(st.tasks[n], now) {
        ExpiredPair(IsInputId(st.graph, n), IsParkedId(st.graph, n), st.run, st.nodes[n], st.tasks[n], now);
      }
    }
  }

  lemma RecoveredRows(st: RunState, locked: set<NodeId>, now: nat)
    requires Inv(st)
    ensures RowsOk(AfterRecover(st, locked, now)) && TasksObey(st, AfterRecover(st, locked, now), Plain)
  {
    forall n | n in st.nodes
      ensures NodeOk(AfterRecover(st, locked, now), n)
    {
      RecoveredRow(st, locked, now, n);
    }
    forall n | n in st.tasks
      ensures JudgeTask(st.run, st.tasks[n], AfterRecover(st, locked, now).tasks[n], Plain) == Consistent
    {
      assert n in st.nodes;
      RecoveredRow(st, locked, now, n);
    }
  }

  lemma RecoverOpen(st: RunState, locked: set<NodeId>, now: nat)
    requires Inv(st) && Open(st.run)
    ensures Sound(st, Reply(AfterRecover(st, locked, now), Accepted), Plain)
  {
    RecoveredRows(st, locked, now);
    SweepSound(st, AfterRecover(st, locked, now), Plain);
  }

  lemma RecoverSound(st: RunState, locked: set<NodeId>, now: nat)
    requires Inv(st)
    ensures Sound(st, Reply(AfterRecover(st, locked, now), Accepted), Plain)
  {
    if Open(st.run) {
      RecoverOpen(st, locked, now);
    } else {
      forall n | n in st.tasks
        ensures !Expired(st.tasks[n], now)
      {
        assert NodeOk(st, n);
        if Expired(st.tasks[n], now) {
          ExpiredPair(IsInputId(st.graph, n), IsParkedId(st.graph, n), st.run, st.nodes[n], st.tasks[n], now);
        }
      }
      NothingToRecover(st, locked, now);
      NoChange(st, Reply(st, Accepted), Plain);
    }
  }

  // ----- retry promotion -----

  lemma DuePair(input: bool, parked: bool, run: RunStatus, row: NodeRun, t: Task, now: nat)
    requires Judge(input, parked, run, row, Some(t)) == Consistent && DueRetry(t, now)
    ensures Open(run) && row.status.NodeRetrying?
    ensures Judge(input, parked, run, row.(status := NodeQueued), Some(t.(status := TaskPending))) == Consistent
    ensures JudgeTask(run, t, t.(status := TaskPending), Promoting(now)) == Consistent
    ensures ReworkedRow(row, row.(status := NodeQueued))
  {
  }

  lemma NothingDue(st: RunState, locked: set<NodeId>, now: nat)
    requires DueRetries(st.tasks, locked, now) == {}
    ensures AfterPromoteRetries(st, locked, now) == Reply(st, Accepted)
  {
    var r := AfterPromoteRetries(st, locked, now);
    assert r.st.tasks == st.tasks;
    assert r.st.nodes == st.nodes;
    NothingSelected(Order(st.graph));
    assert r.st.events == st.events;
  }

  lemma DueRow(st: RunState, locked: set<NodeId>, now: nat, n: NodeId)
    requires Inv(st) && n in DueRetries(st.tasks, locked, now)
    ensures n in st.nodes && Open(st.run) && st.nodes[n].status.NodeRetrying?
    ensures Judge(IsInputId(st.graph, n), IsParkedId(st.graph, n), st.run,
                  st.nodes[n].(status := NodeQueued), Some(st.tasks[n].(status := TaskPending))) == Consistent
    ensures JudgeTask(st.run, st.tasks[n], st.tasks[n].(status := TaskPending), Promoting(now)) == Consistent
    ensures ReworkedRow(st.nodes[n], st.nodes[n].(status := NodeQueued))
  {
    assert NodeOk(st, n);
    DuePair(IsInputId(st.graph, n), IsParkedId(st.graph, n), st.run, st.nodes[n], st.tasks[n], now);
  }

  function Requeued(st: RunState, locked: set<NodeId>, now: nat): RunState {
    var due := DueRetries(st.tasks, locked, now);
    st.(tasks := map n | n in st.tasks :: if n in due then st.tasks[n].(status := TaskPending) else st.tasks[n],
        nodes := MarkQueued(st.nodes, due),
        events := st.events + NodeEvents(NodeQueuedEvent, Select(Order(st.graph), due)))
  }

  lemma RequeuedAt(st: RunState, locked: set<NodeId>, now: nat, n: NodeId)
    requires n in st.nodes
    ensures var next, due := Requeued(st, locked, now), n in DueRetries(st.tasks, locked, now);
            && n in next.nodes
            && next.nodes[n] == (if due then st.nodes[n].(status := NodeQueued) else st.nodes[n])
            && TaskOf(next, n) == (if due then Some(st.tasks[n].(status := TaskPending)) else TaskOf(st, n))
  {
  }

  lemma RequeuedRow(st: RunState, locked: set<NodeId>, now: nat, n: NodeId)
    requires Inv(st) && n in st.nodes
    ensures NodeOk(Requeued(st, locked, now), n)
    ensures n in st.tasks ==>
              JudgeTask(st.run, st.tasks[n], Requeued(st, locked, now).tasks[n], Promoting(now)) == Consistent
    ensures ReworkedRow(st.nodes[n], Requeued(st, locked, now).nodes[n])
  {
    RequeuedAt(st, locked, now, n);
    if n in DueRetries(st.tasks, locked, now) {
      DueRow(st, locked, now, n);
    } else {
      assert NodeOk(st, n);
      if n in st.tasks {
        SameTask(st.run, st.tasks[n], Promoting(now));
      }
    }
  }

  lemma RequeuedRows(st: RunState, locked: set<NodeId>, now: nat)
    requires Inv(st)
    ensures RowsOk(Requeued(st, locked, now)) && TasksObey(st, Requeued(st, locked, now), Promoting(now))
  {
    forall n | n in st.nodes
      ensures NodeOk(Requeued(st, locked, now), n)
    {
      RequeuedRow(st, locked, now, n);
    }
    forall n | n in st.tasks
      ensures JudgeTask(st.run, st.tasks[n], Requeued(st, locked, now).tasks[n], Promoting(now)) == Consistent
    {
      assert n in st.nodes;
      RequeuedRow(st, locked, now, n);
    }
  }

  lemma RequeuedReworked(st: RunState, locked: set<NodeId>, now: nat)
    requires Inv(st)
    ensures Reworked(st.nodes, Requeued(st, locked, now).nodes)
  {
    var b := Requeued(st, locked, now).nodes;
    forall n | n in st.nodes
      ensures n in b && ReworkedRow(st.nodes[n], b[n])
    {
      RequeuedRow(st, locked, now, n);
    }
  }

  lemma PromoteOpen(st: RunState, locked: set<NodeId>, now: nat)
    requires Inv(st) && Open(st.run)
    ensures Inv(Requeued(st, locked, now)) && Lawful(st, Requeued(st, locked, now), Promoting(now))
  {
    RequeuedRows(st, locked, now);
    RequeuedReworked(st, locked, now);
    SweepSound(st, Requeued(st, locked, now), Promoting(now));
  }

  lemma PromoteAccepted(st: RunState, locked: set<NodeId>, now: nat)
    requires Inv(st)
    ensures AfterPromoteRetries(st, locked, now) == Reply(Requeued(st, locked, now), Accepted)
    ensures DueRetries(st.tasks, locked, now) != {} ==> Open(st.run)
  {
    var due := DueRetries(st.tasks, locked, now);
    forall n | n in due
      ensures CanRequeue(st.nodes, n) && Open(st.run)
    {
      DueRow(st, locked, now, n);
    }
  }

  lemma PromoteRetriesSound(st: RunState, locked: set<NodeId>, now: nat)
    requires Inv(st)
    ensures Sound(st, AfterPromoteRetries(st, locked, now), Promoting(now))
  {
    PromoteAccepted(st, locked, now);
    if Open(st.run) {
      PromoteOpen(st, locked, now);
    } else {
      NothingDue(st, locked, now);
      NoChange(st, Reply(st, Accepted), Promoting(now));
    }
  }
}
