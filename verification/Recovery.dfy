/** One pass of the periodic recovery revives every active run. */
module Recovery {
  import opened Basics
  import opened StateMachines
  import opened Graphs
  import opened RunRows
  import opened Scheduling
  import opened SchedulerRules
  import opened QueueRules
  import opened Runtime
  import opened Invariant
  import opened RecoverySafety
  import opened ReconcileSafety
  import opened RuntimeSafety
  import opened Wakeup
  import SchedulerService
  import ExecutionBackend

  // ----- tasks are due when they are not deferred -----

  predicate OnTime(t: Task, now: nat) {
    LiveTask(t) && !t.status.TaskRetryWait? ==> t.availableAt <= now
  }

  ghost predicate Punctual(s: System) {
    forall n :: n in s.st.tasks ==> OnTime(s.st.tasks[n], s.clock)
  }

  lemma OnTimeStays(run: RunStatus, t: Task, t': Task, permit: Permit, now: nat)
    requires JudgeTask(run, t, t', permit) == Consistent && OnTime(t, now)
    requires permit.Promoting? ==> permit.now == now
    ensures OnTime(t', now)
  {
  }

  lemma WorkerKeys(s: System, a: Action)
    requires a.Claim? || a.StartTask? || a.Complete? || a.Fail? || a.Park? || a.Retry? || a.Renew?
    ensures Answer(s, a).st.tasks.Keys == s.st.tasks.Keys
  {
  }

  lemma OtherKeys(s: System, a: Action)
    requires !a.ScheduleReady? && !a.ReconcileRun?
    requires !(a.Claim? || a.StartTask? || a.Complete? || a.Fail? || a.Park? || a.Retry? || a.Renew?)
    ensures Answer(s, a).st.tasks.Keys == s.st.tasks.Keys
  {
  }

  lemma ScheduledNow(st: RunState, u: Unresolved, now: nat, n: NodeId)
    requires n in AfterSchedule(st, u, now).tasks && n !in st.tasks
    ensures AfterSchedule(st, u, now).tasks[n].availableAt == now
  {
  }

  lemma TransitionTimes(st: RunState, derived: RunStatus, hidden: set<NodeId>)
    ensures var next := AfterTransition(st, derived, hidden).tasks;
            next.Keys == st.tasks.Keys && forall n :: n in next ==> next[n].availableAt == st.tasks[n].availableAt
  {
  }

  lemma ScheduleTimes(st: RunState, u: Unresolved, now: nat)
    ensures var next := AfterSchedule(st, u, now).tasks;
            st.tasks.Keys <= next.Keys && forall n :: n in st.tasks ==> next[n].availableAt == st.tasks[n].availableAt
  {
  }

  lemma ReconciledNow(st: RunState, u: Unresolved, unflushed: set<NodeId>, now: nat, n: NodeId)
    requires n in AfterReconcile(st, u, unflushed, now).st.tasks && n !in st.tasks
    ensures AfterReconcile(st, u, unflushed, now).st.tasks[n].availableAt == now
  {
    var waits := AfterPromoteWaits(st, now);
    assert waits.tasks == st.tasks;
    if n in Advanced(st, u, now).tasks {
      ScheduledNow(waits, u, now, n);
    }
    ConcludedNow(st, Advanced(st, u, now), u, unflushed, now, n);
  }

  lemma ConcludedNow(st: RunState, adv: RunState, u: Unresolved, unflushed: set<NodeId>, now: nat, n: NodeId)
    requires n !in st.tasks && n in Conclude(st, adv, u, unflushed, now).st.tasks
    requires n in adv.tasks ==> adv.tasks[n].availableAt == now
    ensures Conclude(st, adv, u, unflushed, now).st.tasks[n].availableAt == now
  {
    var derived, hidden := DeriveRun(adv.graph, adv.nodes), unflushed * (adv.tasks.Keys - st.tasks.Keys);
    TransitionTimes(adv, derived, hidden);
    var moved := if derived == st.run then adv else AfterTransition(adv, derived, hidden);
    ScheduleTimes(moved, u, now);
    if n !in adv.tasks {
      ScheduledNow(moved, u, now, n);
    }
  }

  /** A new task is available from the moment it is created. */
  lemma NewTasksNow(s: System, a: Action, n: NodeId)
    requires n in Step(s, a).st.tasks && n !in s.st.tasks
    ensures Step(s, a).st.tasks[n].availableAt == s.clock
  {
    match a
    case ScheduleReady(u) => ScheduledNow(s.st, u, s.clock, n);
    case ReconcileRun(u, unflushed) => ReconciledNow(s.st, u, unflushed, s.clock, n);
    case _ =>
      if a.Claim? || a.StartTask? || a.Complete? || a.Fail? || a.Park? || a.Retry? || a.Renew? {
        WorkerKeys(s, a);
      } else {
        OtherKeys(s, a);
      }
  }

  lemma ClockAdvances(s: System, a: Action)
    ensures s.clock <= Step(s, a).clock
  {
  }

  lemma OldTaskOnTime(s: System, a: Action, n: NodeId)
    requires Sane(s) && n in s.st.tasks && n in Step(s, a).st.tasks && OnTime(s.st.tasks[n], s.clock)
    ensures OnTime(Step(s, a).st.tasks[n], s.clock)
  {
    StepSane(s, a);
    LawfulTask(s.st, Step(s, a).st, PermitOf(s, a), n);
    PermitIsNow(s, a);
    OnTimeStays(s.st.run, s.st.tasks[n], Step(s, a).st.tasks[n], PermitOf(s, a), s.clock);
  }

  lemma PermitIsNow(s: System, a: Action)
    ensures PermitOf(s, a).Promoting? ==> PermitOf(s, a).now == s.clock
  {
  }

  lemma PunctualStep(s: System, a: Action)
    requires Sane(s) && Punctual(s)
    ensures Punctual(Step(s, a))
  {
    var next := Step(s, a);
    forall n | n in next.st.tasks
      ensures OnTime(next.st.tasks[n], next.clock)
    {
      if n in s.st.tasks {
        OldTaskOnTime(s, a, n);
      } else {
        NewTasksNow(s, a, n);
      }
      ClockAdvances(s, a);
    }
  }

  /** A task that is queued or held was available when it was queued: only
      deferred retries lie in the future. */
  lemma {:induction false} AlwaysPunctual(g: Graph, input: Json, acts: seq<Action>)
    requires Publishable(g)
    ensures Punctual(Execute(g, input, acts))
  {
    if acts != [] {
      var init := acts[..|acts| - 1];
      AlwaysPunctual(g, input, init);
      AlwaysSane(g, input, init);
      PunctualStep(Execute(g, input, init), acts[|acts| - 1]);
    }
  }

  // ----- the pass -----

  predicate Active(run: RunStatus) {
    run.RunRunning? || run.RunPaused? || run.RunWaiting?
  }

  /** Recover leases, promote retries, reconcile the run if it is active. Rows
      locked elsewhere are skipped: `held` by the first SELECT, `deferred` by the
      second. */
  function AfterRecovery(st: RunState, held: set<NodeId>, deferred: set<NodeId>, u: Unresolved, unflushed: set<NodeId>, now: nat): Reply {
    var promoted := AfterPromoteRetries(AfterRecover(st, held, now), deferred, now);
    if !promoted.outcome.Accepted? || !Active(promoted.st.run) then promoted
    else AfterReconcile(promoted.st, u, unflushed, now)
  }

  method RunExecutionRecovery(db: RunStore, held: set<NodeId>, deferred: set<NodeId>, u: Unresolved, unflushed: set<NodeId>, now: nat)
    returns (expired: nat, outcome: Outcome)
    requires SchedulerService.Tables(db.View())
    modifies db
    ensures Reply(db.View(), outcome) == AfterRecovery(old(db.View()), held, deferred, u, unflushed, now)
    ensures expired == |Select(Order(db.graph), ExpiredRows(old(db.tasks), held, now))|
  {
    expired := ExecutionBackend.RecoverExpired(db, held, now);
    outcome := ExecutionBackend.PromoteDueRetries(db, deferred, now);
    if outcome.Accepted? && Active(db.run) {
      outcome := SchedulerService.ReconcileRun(db, u, unflushed, now);
    }
  }

  /** Somebody will move the task on: it can be claimed now, its holder's lease
      has not run out, its retry lies ahead, or it is over. */
  predicate Attended(t: Task, now: nat) {
    match t.status
    case TaskPending => t.availableAt <= now
    case TaskClaimed => t.expires.Some? && t.expires.value >= now
    case TaskRunning => t.expires.Some? && t.expires.value >= now
    case TaskRetryWait => t.availableAt > now
    case _ => true
  }

  /** What the first two transactions do to one unlocked task. */
  function Repaired(t: Task, now: nat): Task {
    if Expired(t, now) then Unleased(t).(status := TaskPending)
    else if DueRetry(t, now) then t.(status := TaskPending)
    else t
  }

  lemma RepairedAttended(t: Task, now: nat)
    requires TaskShape(t) && OnTime(t, now)
    ensures Attended(Repaired(t, now), now)
  {
  }

  lemma RepairedAt(st: RunState, held: set<NodeId>, deferred: set<NodeId>, now: nat, n: NodeId)
    requires n in st.tasks && n !in held && n !in deferred
    ensures var next := Requeued(AfterRecover(st, held, now), deferred, now);
            n in next.tasks && next.tasks[n] == Repaired(st.tasks[n], now)
  {
  }

  lemma RepairedTask(st: RunState, held: set<NodeId>, deferred: set<NodeId>, now: nat, n: NodeId)
    requires Inv(st) && n in st.tasks && n !in held && n !in deferred && OnTime(st.tasks[n], now)
    ensures var next := Requeued(AfterRecover(st, held, now), deferred, now);
            n in next.tasks && Attended(next.tasks[n], now)
  {
    TaskShapeOf(st, n);
    RepairedAt(st, held, deferred, now, n);
    RepairedAttended(st.tasks[n], now);
  }

  /** Apart from tasks it creates or cancels, a reconcile leaves tasks alone. */
  lemma ReconcileTasks(st: RunState, u: Unresolved, unflushed: set<NodeId>, now: nat, n: NodeId)
    requires n in st.tasks
    ensures var next := AfterReconcile(st, u, unflushed, now).st.tasks;
            n in next && (next[n] == st.tasks[n] || next[n].status.TaskCancelled?)
  {
    var waits := AfterPromoteWaits(st, now);
    var adv := AfterSchedule(waits, u, now);
    assert n in adv.tasks && adv.tasks[n] == st.tasks[n];
    var derived, hidden := DeriveRun(adv.graph, adv.nodes), unflushed * (adv.tasks.Keys - st.tasks.Keys);
    var moved := if derived == st.run then adv else AfterTransition(adv, derived, hidden);
    assert n in moved.tasks && (moved.tasks[n] == st.tasks[n] || moved.tasks[n].status.TaskCancelled?);
    var last := AfterSchedule(moved, u, now);
    assert n in last.tasks && last.tasks[n] == moved.tasks[n];
  }

  lemma ReconciledNewTask(st: RunState, u: Unresolved, unflushed: set<NodeId>, now: nat, n: NodeId)
    requires Inv(st) && Publishable(st.graph) && !st.run.RunCreated?
    requires n in AfterReconcile(st, u, unflushed, now).st.tasks && n !in st.tasks
    ensures Attended(AfterReconcile(st, u, unflushed, now).st.tasks[n], now)
  {
    ReconciledNow(st, u, unflushed, now, n);
    ReconcileSound(st, u, unflushed, now);
    LawfulTask(st, AfterReconcile(st, u, unflushed, now).st, Plain, n);
  }

  lemma ReconciledTask(st: RunState, u: Unresolved, unflushed: set<NodeId>, now: nat, n: NodeId)
    requires Inv(st) && Publishable(st.graph) && !st.run.RunCreated?
    requires n in AfterReconcile(st, u, unflushed, now).st.tasks
    requires n in st.tasks ==> Attended(st.tasks[n], now)
    ensures Attended(AfterReconcile(st, u, unflushed, now).st.tasks[n], now)
  {
    if n in st.tasks {
      ReconcileTasks(st, u, unflushed, now, n);
    } else {
      ReconciledNewTask(st, u, unflushed, now, n);
    }
  }

  lemma RecoverStep(s: System, held: set<NodeId>)
    ensures Step(s, Recover(held)) == System(AfterRecover(s.st, held, s.clock), s.clock, s.grants)
  {
  }

  lemma PromoteStep(s: System, deferred: set<NodeId>)
    requires AfterPromoteRetries(s.st, deferred, s.clock) == Reply(Requeued(s.st, deferred, s.clock), Accepted)
    ensures Step(s, PromoteRetries(deferred)) == System(Requeued(s.st, deferred, s.clock), s.clock, s.grants)
  {
  }

  function Repair(s: System, held: set<NodeId>, deferred: set<NodeId>): System {
    Step(Step(s, Recover(held)), PromoteRetries(deferred))
  }

  lemma RepairSteps(s: System, held: set<NodeId>, deferred: set<NodeId>)
    requires Sane(s)
    ensures var r := Repair(s, held, deferred);
            && Sane(r) && r.clock == s.clock
            && r.st == Requeued(AfterRecover(s.st, held, s.clock), deferred, s.clock)
            && AfterPromoteRetries(AfterRecover(s.st, held, s.clock), deferred, s.clock) == Reply(r.st, Accepted)
  {
    RecoverStep(s, held);
    StepSane(s, Recover(held));
    var s' := Step(s, Recover(held));
    PromoteAccepted(s'.st, deferred, s.clock);
    PromoteStep(s', deferred);
    StepSane(s', PromoteRetries(deferred));
  }

  /** The first two transactions of the pass lead to a reachable state. */
  lemma RepairReachable(g: Graph, input: Json, acts: seq<Action>, held: set<NodeId>, deferred: set<NodeId>)
    ensures Execute(g, input, acts + [Recover(held), PromoteRetries(deferred)]) == Repair(Execute(g, input, acts), held, deferred)
  {
    var one := acts + [Recover(held)];
    var two := one + [PromoteRetries(deferred)];
    assert two == acts + [Recover(held), PromoteRetries(deferred)];
    assert one[..|one| - 1] == acts && two[..|two| - 1] == one;
    assert Execute(g, input, one) == Step(Execute(g, input, acts), Recover(held));
    assert Execute(g, input, two) == Step(Execute(g, input, one), PromoteRetries(deferred));
  }

  lemma NothingPostponed(g: Graph, n: NodeId)
    requires n in Ids(g)
    ensures !IsPostponed(g, Unresolved({}, {}), n)
  {
    FindNodeIds(g, n);
  }

  lemma AwakeIsLive(st: RunState)
    requires Inv(st) && Awake(st, Unresolved({}, {}))
    ensures HasLiveTask(st)
  {
    if !HasLiveTask(st) {
      var n :| n in ReadySet(st.graph, st.nodes);
      NothingPostponed(st.graph, n);
      assert false;
    }
  }

  lemma RecoveryShape(s: System, held: set<NodeId>, deferred: set<NodeId>, u: Unresolved, unflushed: set<NodeId>)
    requires Sane(s)
    ensures var r := Repair(s, held, deferred);
            AfterRecovery(s.st, held, deferred, u, unflushed, s.clock) ==
            if Active(r.st.run) then AfterReconcile(r.st, u, unflushed, s.clock) else Reply(r.st, Accepted)
  {
    RepairSteps(s, held, deferred);
  }

  lemma RepairAttends(s: System, held: set<NodeId>, deferred: set<NodeId>, n: NodeId)
    requires Sane(s) && Punctual(s) && n !in held && n !in deferred && n in Repair(s, held, deferred).st.tasks
    ensures Attended(Repair(s, held, deferred).st.tasks[n], s.clock)
  {
    RepairSteps(s, held, deferred);
    assert n in s.st.tasks;
    assert OnTime(s.st.tasks[n], s.clock);
    RepairedTask(s.st, held, deferred, s.clock, n);
  }

  /** After one recovery pass over any reachable state, every task whose row
      was not locked is attended to. */
  lemma RecoveryAttends(g: Graph, input: Json, acts: seq<Action>, held: set<NodeId>, deferred: set<NodeId>, u: Unresolved, unflushed: set<NodeId>, n: NodeId)
    requires Publishable(g) && n !in held && n !in deferred
    requires n in AfterRecovery(Execute(g, input, acts).st, held, deferred, u, unflushed, Execute(g, input, acts).clock).st.tasks
    ensures var s := Execute(g, input, acts);
            Attended(AfterRecovery(s.st, held, deferred, u, unflushed, s.clock).st.tasks[n], s.clock)
  {
    var s := Execute(g, input, acts);
    AlwaysSane(g, input, acts);
    AlwaysPunctual(g, input, acts);
    RecoveryShape(s, held, deferred, u, unflushed);
    RepairSteps(s, held, deferred);
    var r := Repair(s, held, deferred).st;
    if n in r.tasks {
      RepairAttends(s, held, deferred, n);
    }
    if Active(r.run) {
      ReconciledTask(r, u, unflushed, s.clock, n);
    }
  }

  /** No run is stuck: after one recovery pass with every input resolvable and
      no row locked, a run that is RUNNING has a task that can be claimed now,
      or is held under a lease that has not run out, or is to be retried later. */
  lemma RecoveryRevives(g: Graph, input: Json, acts: seq<Action>, unflushed: set<NodeId>)
    requires Publishable(g)
    ensures var s := Execute(g, input, acts);
            var r := AfterRecovery(s.st, {}, {}, Unresolved({}, {}), unflushed, s.clock);
            && r.outcome.Accepted?
            && (r.st.run.RunRunning? ==> exists n :: n in r.st.tasks && LiveTask(r.st.tasks[n]) && Attended(r.st.tasks[n], s.clock))
  {
    var s, u := Execute(g, input, acts), Unresolved({}, {});
    AlwaysSane(g, input, acts);
    RecoveryShape(s, {}, {}, u, unflushed);
    RepairSteps(s, {}, {});
    RepairReachable(g, input, acts, {}, {});
    var r := AfterRecovery(s.st, {}, {}, u, unflushed, s.clock);
    var mid := Repair(s, {}, {}).st;
    if mid.run.RunRunning? || mid.run.RunWaiting? {
      var acts' := acts + [Recover({}), PromoteRetries({})];
      NoLostWakeup(g, input, acts', u, unflushed);
      ReconcileSound(mid, u, unflushed, s.clock);
      if r.st.run.RunRunning? {
        AwakeIsLive(r.st);
        var n :| n in r.st.tasks && LiveTask(r.st.tasks[n]);
        RecoveryAttends(g, input, acts, {}, {}, u, unflushed, n);
      }
    }
  }
}
