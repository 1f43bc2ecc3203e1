/** The invariant holds in every reachable state of the runtime. */
module RuntimeSafety {
  import opened Basics
  import opened StateMachines
  import opened Graphs
  import opened RunRows
  import opened SchedulerRules
  import opened Runtime
  import opened Invariant
  import opened QueueSafety
  import opened RecoverySafety
  import opened LifecycleSafety
  import opened SchedulerSafety
  import opened ReconcileSafety

  /** What an action is permitted to do to a task. */
  function PermitOf(s: System, a: Action): Permit {
    match a
    case Claim(_, _, token, _) => Claiming(token)
    case RunnerClaim(_, _, _, token, _) => Claiming(token)
    case Retry(_, _, _, _) => Retrying
    case SubmitResult(n, _, _, result) => SubmitPermit(s.st, n, result)
    case PromoteRetries(_) => Promoting(s.clock)
    case _ => Plain
  }

  lemma ControlSound(s: System, a: Action)
    requires Inv(s.st)
    requires a.StartRun? || a.PauseRun? || a.ResumeRun? || a.CancelRun? || a.Approve? || a.Reject? || a.SubmitInput?
    ensures Sound(s.st, Answer(s, a), Plain)
  {
    match a
    case StartRun => MoveRunSound(s.st, RunRunning, [RunEvent(WorkflowStarted)]);
    case PauseRun => MoveRunSound(s.st, RunPaused, []);
    case ResumeRun => MoveRunSound(s.st, RunRunning, []);
    case CancelRun => CancelRunSound(s.st);
    case Approve(n) => ApproveSound(s.st, n);
    case Reject(n) => RejectSound(s.st, n);
    case SubmitInput(n, input, valid) => SubmitInputSound(s.st, n, input, valid);
  }

  lemma LeaseSound(s: System, a: Action)
    requires Inv(s.st) && (a.Claim? || a.StartTask? || a.Renew?)
    ensures Sound(s.st, Answer(s, a), PermitOf(s, a))
  {
    match a
    case Claim(n, who, token, lease) => ClaimSound(s.st, n, who, token, lease, s.clock);
    case StartTask(n, who, token) => StartSound(s.st, n, who, token, s.clock);
    case Renew(n, who, token, lease) => RenewalSound(s.st, n, who, token, lease, s.clock);
  }

  lemma ReportSound(s: System, a: Action)
    requires Inv(s.st) && (a.Complete? || a.Fail? || a.Retry?)
    ensures Sound(s.st, Answer(s, a), PermitOf(s, a))
  {
    match a
    case Complete(n, who, token, output) => CompleteSound(s.st, n, who, token, output, s.clock);
    case Fail(n, who, token) => FailSound(s.st, n, who, token, s.clock);
    case Retry(n, who, token, backoff) => DeferSound(s.st, n, who, token, backoff, s.clock);
  }

  lemma ParkSound(s: System, a: Action)
    requires Inv(s.st) && Follows(s, a) && a.Park?
    ensures Sound(s.st, Answer(s, a), PermitOf(s, a))
  {
    var node := FindNode(s.st.graph.nodes, a.node).value;
    WaitSound(s.st, a.node, a.who, a.token, ParkingFor(node, a.duration, s.clock), s.clock);
  }

  lemma RunnerSound(s: System, a: Action)
    requires Inv(s.st) && (a.RunnerClaim? || a.Heartbeat?)
    ensures Sound(s.st, Answer(s, a), PermitOf(s, a))
  {
    match a
    case RunnerClaim(n, who, capabilities, token, lease) =>
      RunnerClaimSound(s.st, n, who, capabilities, token, lease, s.clock);
    case Heartbeat(n, who, token, lease) => HeartbeatSound(s.st, n, who, token, lease, s.clock);
  }

  lemma ResultSound(s: System, a: Action)
    requires Inv(s.st) && a.SubmitResult?
    ensures Sound(s.st, Answer(s, a), PermitOf(s, a))
  {
    SubmitSound(s.st, a.node, a.who, a.token, a.result, s.clock);
  }

  lemma RepairSound(s: System, a: Action)
    requires Inv(s.st) && (a.Recover? || a.PromoteRetries?)
    ensures Sound(s.st, Answer(s, a), PermitOf(s, a))
  {
    match a
    case Recover(locked) => RecoverSound(s.st, locked, s.clock);
    case PromoteRetries(locked) => PromoteRetriesSound(s.st, locked, s.clock);
  }

  lemma AnswerSound(s: System, a: Action)
    requires Inv(s.st) && Follows(s, a) && Publishable(s.st.graph)
    ensures Sound(s.st, Answer(s, a), PermitOf(s, a))
  {
    match a
    case Tick(_) => NoChange(s.st, Reply(s.st, Accepted), Plain);
    case ScheduleReady(u) => ScheduleSound(s.st, u, s.clock);
    case ReconcileRun(u, unflushed) => ReconcileSound(s.st, u, unflushed, s.clock);
    case RunnerClaim(_, _, _, _, _) => RunnerSound(s, a);
    case Heartbeat(_, _, _, _) => RunnerSound(s, a);
    case SubmitResult(_, _, _, _) => ResultSound(s, a);
    case Recover(_) => RepairSound(s, a);
    case PromoteRetries(_) => RepairSound(s, a);
    case StartRun => ControlSound(s, a);
    case PauseRun => ControlSound(s, a);
    case ResumeRun => ControlSound(s, a);
    case CancelRun => ControlSound(s, a);
    case Approve(_) => ControlSound(s, a);
    case Reject(_) => ControlSound(s, a);
    case SubmitInput(_, _, _) => ControlSound(s, a);
    case Park(_, _, _, _) => ParkSound(s, a);
    case Claim(_, _, _, _) => LeaseSound(s, a);
    case StartTask(_, _, _) => LeaseSound(s, a);
    case Renew(_, _, _, _) => LeaseSound(s, a);
    case _ => ReportSound(s, a);
  }

  /** Every action, whoever sends it and with whatever arguments. */
  lemma ReplySound(s: System, a: Action)
    requires Inv(s.st) && Publishable(s.st.graph)
    ensures Sound(s.st, ReplyTo(s, a), PermitOf(s, a))
  {
    if Follows(s, a) {
      AnswerSound(s, a);
    } else {
      NoChange(s.st, Reply(s.st, Refused), PermitOf(s, a));
    }
  }

  // ----- leases and grants -----

  /** The lease on a task is the one its current grant describes. */
  predicate LeaseOk(grants: map<Token, Grant>, n: NodeId, t: Task) {
    t.token.Some? ==>
      && t.token.value in grants
      && grants[t.token.value].node == n
      && t.lockedBy == Some(grants[t.token.value].who)
      && (t.status.TaskClaimed? ==> t.attempt == grants[t.token.value].attempt)
      && (t.status.TaskRunning? ==> t.attempt == grants[t.token.value].attempt + 1)
  }

  ghost predicate Fenced(s: System) {
    forall n :: n in s.st.tasks ==> LeaseOk(s.grants, n, s.st.tasks[n])
  }

  lemma RowTaskShape(input: bool, parked: bool, run: RunStatus, row: NodeRun, t: Task)
    requires Judge(input, parked, run, row, Some(t)) == Consistent
    ensures TaskShape(t)
  {
  }

  lemma TaskShapeOf(st: RunState, n: NodeId)
    requires Inv(st) && n in st.tasks
    ensures TaskShape(st.tasks[n])
  {
    assert n in st.nodes && NodeOk(st, n);
    RowTaskShape(IsInputId(st.graph, n), IsParkedId(st.graph, n), st.run, st.nodes[n], st.tasks[n]);
  }

  /** A lawful change that introduces no token keeps the lease description. */
  lemma LeaseStays(run: RunStatus, t: Task, t': Task, permit: Permit, grants: map<Token, Grant>, grants': map<Token, Grant>, n: NodeId)
    requires JudgeTask(run, t, t', permit) == Consistent && !permit.Claiming? && TaskShape(t) && TaskShape(t')
    requires LeaseOk(grants, n, t)
    requires forall k :: k in grants ==> k in grants' && grants'[k] == grants[k]
    ensures LeaseOk(grants', n, t')
  {
  }

  ghost predicate Extends(a: map<Token, Grant>, b: map<Token, Grant>) {
    forall k :: k in a ==> k in b && b[k] == a[k]
  }

  lemma GrantsGrow(s: System, a: Action)
    ensures Extends(s.grants, Step(s, a).grants)
  {
  }

  lemma ClaimFences(s: System, n: NodeId, who: string, token: Token, lease: nat)
    requires Fenced(s) && token !in s.grants
    ensures Fenced(Step(s, Claim(n, who, token, lease)))
  {
  }

  lemma RunnerClaimFences(s: System, n: NodeId, who: string, capabilities: set<string>, token: Token, lease: nat)
    requires Fenced(s) && token !in s.grants
    ensures Fenced(Step(s, RunnerClaim(n, who, capabilities, token, lease)))
  {
  }

  lemma LawfulTask(st: RunState, next: RunState, permit: Permit, n: NodeId)
    requires Lawful(st, next, permit) && n in next.tasks
    ensures n in st.tasks ==> JudgeTask(st.run, st.tasks[n], next.tasks[n], permit) == Consistent
    ensures n !in st.tasks ==> NewTaskLaw(next.tasks[n])
  {
  }

  lemma OtherStepFences(s: System, a: Action)
    requires Inv(s.st) && Fenced(s) && Publishable(s.st.graph) && !a.Claim? && !a.RunnerClaim?
    ensures Fenced(Step(s, a))
  {
    ReplySound(s, a);
    GrantsGrow(s, a);
    ShapesOf(s.st);
    ShapesOf(Step(s, a).st);
    TasksFenced(s.st, Step(s, a).st, PermitOf(s, a), s.grants, Step(s, a).grants);
  }

  ghost predicate Shaped(st: RunState) {
    forall n :: n in st.tasks ==> TaskShape(st.tasks[n])
  }

  lemma ShapesOf(st: RunState)
    requires Inv(st)
    ensures Shaped(st)
  {
    forall n | n in st.tasks
      ensures TaskShape(st.tasks[n])
    {
      TaskShapeOf(st, n);
    }
  }

  lemma TasksFenced(st: RunState, next: RunState, permit: Permit, grants: map<Token, Grant>, grants': map<Token, Grant>)
    requires Lawful(st, next, permit) && !permit.Claiming? && Extends(grants, grants') && Shaped(st) && Shaped(next)
    requires forall n :: n in st.tasks ==> LeaseOk(grants, n, st.tasks[n])
    ensures forall n :: n in next.tasks ==> LeaseOk(grants', n, next.tasks[n])
  {
    forall n | n in next.tasks
      ensures LeaseOk(grants', n, next.tasks[n])
    {
      LawfulTask(st, next, permit, n);
      if n in st.tasks {
        LeaseStays(st.run, st.tasks[n], next.tasks[n], permit, grants, grants', n);
      }
    }
  }

  /** The invariant of the whole system. */
  ghost predicate Sane(s: System) {
    Inv(s.st) && Fenced(s) && Publishable(s.st.graph)
  }

  /** Every step keeps the invariant and changes the rows lawfully. */
  lemma StepSane(s: System, a: Action)
    requires Sane(s)
    ensures Sane(Step(s, a))
    ensures Lawful(s.st, Step(s, a).st, PermitOf(s, a))
  {
    ReplySound(s, a);
    SameGraph(s.st, ReplyTo(s, a).st, PermitOf(s, a));
    match a
    case Claim(n, who, token, lease) => StepFences(s, a);
    case RunnerClaim(n, who, capabilities, token, lease) => StepFences(s, a);
    case _ => OtherStepFences(s, a);
  }

  lemma SameGraph(st: RunState, next: RunState, permit: Permit)
    requires Lawful(st, next, permit)
    ensures next.graph == st.graph
  {
  }

  lemma StepFences(s: System, a: Action)
    requires Fenced(s) && (a.Claim? || a.RunnerClaim?)
    ensures Fenced(Step(s, a))
  {
    if a.Claim? && a.token !in s.grants {
      ClaimFences(s, a.node, a.who, a.token, a.lease);
    } else if a.RunnerClaim? && a.token !in s.grants {
      RunnerClaimFences(s, a.node, a.who, a.capabilities, a.token, a.lease);
    }
  }

  // ----- reachable states -----

  lemma InitialRow(g: Graph, input: Json, n: NodeId)
    requires n in Ids(g)
    ensures var st := CreatedRun(g, input);
            n in st.nodes && NodeOk(st, n) && (st.nodes[n].status.NodePending? || IsInputId(g, n))
  {
    FindNodeIds(g, n);
  }

  lemma CreatedHealthy(g: Graph, input: Json)
    ensures Inv(CreatedRun(g, input))
  {
    var st := CreatedRun(g, input);
    forall n | n in st.nodes
      ensures NodeOk(st, n) && st.nodes[n].status != NodeSkipped
    {
      InitialRow(g, input, n);
    }
  }

  /** The invariant holds after every sequence of actions on a published graph. */
  lemma {:induction false} AlwaysSane(g: Graph, input: Json, acts: seq<Action>)
    requires Publishable(g)
    ensures Sane(Execute(g, input, acts)) && Execute(g, input, acts).st.graph == g
  {
    if acts == [] {
      CreatedHealthy(g, input);
    } else {
      var init := acts[..|acts| - 1];
      AlwaysSane(g, input, init);
      StepSane(Execute(g, input, init), acts[|acts| - 1]);
      SameGraph(Execute(g, input, init).st, Execute(g, input, acts).st, PermitOf(Execute(g, input, init), acts[|acts| - 1]));
    }
  }
}
