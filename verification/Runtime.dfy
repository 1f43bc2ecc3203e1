/** The whole runtime of one run as a transition system. Every committed
    transaction is one step; clients, clocks and fresh lease tokens are inputs. */
module Runtime {
  import opened Basics
  import opened StateMachines
  import opened Graphs
  import opened RunRows
  import opened Scheduling
  import opened SchedulerRules
  import opened QueueRules
  import opened LifecycleRules

  datatype Action =
    | Tick(seconds: nat)
    // control plane
    | StartRun | PauseRun | ResumeRun | CancelRun
    | Approve(node: NodeId) | Reject(node: NodeId)
    | SubmitInput(node: NodeId, input: map<string, Json>, valid: bool)
    // scheduler
    | ScheduleReady(unresolved: Unresolved)
    | ReconcileRun(unresolved: Unresolved, unflushed: set<NodeId>)
    // Worker
    | Claim(node: NodeId, who: string, token: Token, lease: nat)
    | StartTask(node: NodeId, who: string, token: Token)
    | Complete(node: NodeId, who: string, token: Token, output: Json)
    | Fail(node: NodeId, who: string, token: Token)
    | Park(node: NodeId, who: string, token: Token, duration: int)
    | Retry(node: NodeId, who: string, token: Token, backoff: nat)
    | Renew(node: NodeId, who: string, token: Token, lease: nat)
    // Runner
    | RunnerClaim(node: NodeId, who: string, capabilities: set<string>, token: Token, lease: nat)
    | Heartbeat(node: NodeId, who: string, token: Token, lease: nat)
    | SubmitResult(node: NodeId, who: string, token: Token, result: RunnerResult)
    // recovery
    | Recover(locked: set<NodeId>)
    | PromoteRetries(locked: set<NodeId>)

  /** What a claim handed to its client: the ClaimedTask it works from. */
  datatype Grant = Grant(node: NodeId, who: string, attempt: nat)

  datatype System = System(st: RunState, clock: nat, grants: map<Token, Grant>)

  /** `_waiting_for`: how the Worker parks a node, and for how long. */
  function ParkingFor(node: Node, duration: int, now: nat): Parking {
    if node.nodeType.Human? && node.subtype == "approval" then
      Parking("HUMAN_APPROVAL", map["allow_reject" := Bool(node.allowReject)])
    else if node.nodeType.Human? then Parking("HUMAN_INPUT", map[])
    else
      var seconds := if duration < 1 then 1 else duration;
      Parking("WAIT_TIMER", map["resume_at" := Num(now + seconds), "duration_seconds" := Num(seconds)])
  }

  /** What the clients promise: tokens are fresh, the Worker parks exactly the
      waiting node types, asks for a retry only while its own count of attempts
      leaves one, and nobody reconciles a run that was never started. */
  predicate Follows(s: System, a: Action) {
    match a
    case Claim(_, _, token, _) => token !in s.grants
    case RunnerClaim(_, _, _, token, _) => token !in s.grants
    case Park(n, _, _, _) => IsParkedId(s.st.graph, n)
    case Retry(n, _, token, _) =>
      token in s.grants && n in s.st.tasks && s.grants[token].attempt + 1 < s.st.tasks[n].maxAttempts
    case ReconcileRun(_, _) => s.st.run != RunCreated
    case _ => true
  }

  /** The answer of the service that performs the action. */
  function Answer(s: System, a: Action): Reply {
    var st, now := s.st, s.clock;
    match a
    case Tick(_) => Reply(st, Accepted)
    case StartRun => AfterStartRun(st)
    case PauseRun => AfterPauseRun(st)
    case ResumeRun => AfterResumeRun(st)
    case CancelRun => AfterCancelRun(st)
    case Approve(n) => AfterApprove(st, n)
    case Reject(n) => AfterReject(st, n)
    case SubmitInput(n, input, valid) => AfterSubmitInput(st, n, input, valid)
    case ScheduleReady(u) => Reply(AfterSchedule(st, u, now), Accepted)
    case ReconcileRun(u, unflushed) => AfterReconcile(st, u, unflushed, now)
    case Claim(n, who, token, lease) => AfterClaim(st, n, who, token, lease, now)
    case StartTask(n, who, token) => AfterStart(st, n, who, token, now)
    case Complete(n, who, token, output) => AfterComplete(st, n, who, token, output, now)
    case Fail(n, who, token) => AfterFail(st, n, who, token, now)
    case Park(n, who, token, duration) =>
      (match FindNode(st.graph.nodes, n)
       case None => Reply(st, Refused)
       case Some(node) => AfterWait(st, n, who, token, ParkingFor(node, duration, now), now))
    case Retry(n, who, token, backoff) => AfterRetry(st, n, who, token, backoff, now)
    case Renew(n, who, token, lease) => AfterRenew(st, n, who, token, lease, now)
    case RunnerClaim(n, who, capabilities, token, lease) => AfterRunnerClaim(st, n, who, capabilities, token, lease, now)
    case Heartbeat(n, who, token, lease) => AfterHeartbeat(st, n, who, token, lease, now)
    case SubmitResult(n, who, token, result) => AfterSubmit(st, n, who, token, result, now)
    case Recover(locked) => Reply(AfterRecover(st, locked, now), Accepted)
    case PromoteRetries(locked) => AfterPromoteRetries(st, locked, now)
  }

  function ReplyTo(s: System, a: Action): Reply {
    if Follows(s, a) then Answer(s, a) else Reply(s.st, Refused)
  }

  /** The grant a successful claim adds. */
  function Granted(s: System, a: Action): map<Token, Grant> {
    if ReplyTo(s, a).outcome != Accepted then s.grants
    else
      match a
      case Claim(n, who, token, _) =>
        s.grants[token := Grant(n, who, if n in s.st.tasks then s.st.tasks[n].attempt else 0)]
      case RunnerClaim(n, who, _, token, _) =>
        s.grants[token := Grant(n, who, if n in s.st.tasks then s.st.tasks[n].attempt else 0)]
      case _ => s.grants
  }

  function Step(s: System, a: Action): System {
    System(ReplyTo(s, a).st, if a.Tick? then s.clock + a.seconds else s.clock, Granted(s, a))
  }

  function Created(g: Graph, input: Json): System {
    System(CreatedRun(g, input), 0, map[])
  }

  function RunFrom(s: System, acts: seq<Action>): System {
    if acts == [] then s else Step(RunFrom(s, acts[..|acts| - 1]), acts[|acts| - 1])
  }

  /** The state after a whole run of the system. */
  function Execute(g: Graph, input: Json, acts: seq<Action>): System {
    RunFrom(Created(g, input), acts)
  }

  lemma {:induction false} RunFromConcat(s: System, v: seq<Action>, w: seq<Action>)
    ensures RunFrom(s, v + w) == RunFrom(RunFrom(s, v), w)
    decreases |w|
  {
    if w == [] {
      assert v + w == v;
    } else {
      var init := w[..|w| - 1];
      assert (v + w)[..|v + w| - 1] == v + init;
      RunFromConcat(s, v, init);
    }
  }
}
