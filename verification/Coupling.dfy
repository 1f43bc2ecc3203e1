/** Task and node states move together, so no client can drive a NodeRun
    through an invalid transition. */
module Coupling {
  import opened Basics
  import opened StateMachines
  import opened Graphs
  import opened RunRows
  import opened Runtime
  import opened Invariant
  import opened RuntimeSafety
  import opened History
  import opened Fencing
  import ReconcileSafety

  /** Which NodeRun states an ExecutionTask state goes with. */
  predicate Coupled(t: TaskStatus, s: NodeStatus) {
    match t
    case TaskPending => s.NodeQueued? || s.NodeRunning?
    case TaskClaimed => s.NodeQueued? || s.NodeRunning?
    case TaskRunning => s.NodeRunning?
    case TaskRetryWait => s.NodeRetrying?
    case TaskCompleted => s.NodeCompleted? || s.NodeWaiting? || s.NodeFailed? || s.NodeCancelled?
    case TaskFailed => s.NodeFailed?
    case TaskCancelled => s.NodeCancelled?
  }

  lemma CoupledRow(input: bool, parked: bool, run: RunStatus, row: NodeRun, t: Task)
    requires Judge(input, parked, run, row, Some(t)) == Consistent
    ensures Coupled(t.status, row.status)
  {
  }

  /** In every reachable state every task is coupled with its node. */
  lemma AlwaysCoupled(g: Graph, input: Json, acts: seq<Action>, n: NodeId)
    requires Publishable(g) && n in Execute(g, input, acts).st.tasks
    ensures var st := Execute(g, input, acts).st;
            n in st.nodes && Coupled(st.tasks[n].status, st.nodes[n].status)
  {
    AlwaysSane(g, input, acts);
    var st := Execute(g, input, acts).st;
    assert n in st.nodes && NodeOk(st, n);
    CoupledRow(IsInputId(g, n), IsParkedId(g, n), st.run, st.nodes[n], st.tasks[n]);
  }

  /** No call, by any client and with any arguments, ever raises an invalid
      NodeRun transition, and no reconcile an invalid run transition. */
  lemma NoInvalidTransition(g: Graph, input: Json, acts: seq<Action>, a: Action)
    requires Publishable(g)
    ensures !ReplyTo(Execute(g, input, acts), a).outcome.InvalidNode?
    ensures a.ReconcileRun? ==> !ReplyTo(Execute(g, input, acts), a).outcome.InvalidRun?
  {
    AlwaysSane(g, input, acts);
    ReplySound(Execute(g, input, acts), a);
    if a.ReconcileRun? && Follows(Execute(g, input, acts), a) {
      ReconcileAccepted(Execute(g, input, acts), a);
    }
  }

  lemma ReconcileAccepted(s: System, a: Action)
    requires Sane(s) && a.ReconcileRun? && Follows(s, a)
    ensures Answer(s, a).outcome.Accepted?
  {
    ReconcileSafety.ReconcileSound(s.st, a.unresolved, a.unflushed, s.clock);
  }

  /** While a client that started a task still holds its lease, the task is
      RUNNING (or finished), so every report it sends fits the task table. */
  lemma StartedStaysRunning(g: Graph, input: Json, acts: seq<Action>, more: seq<Action>, n: NodeId, token: Token)
    requires Publishable(g)
    requires TokenOn(Execute(g, input, acts), n, token) && Execute(g, input, acts).st.tasks[n].status.TaskRunning?
    requires TokenOn(Execute(g, input, acts + more), n, token)
    ensures var t := Execute(g, input, acts + more).st.tasks[n];
            t.status.TaskRunning? || TaskTerminal(t.status)
  {
    LaterStates(g, input, acts, more);
    var s, later := Execute(g, input, acts), Execute(g, input, acts + more);
    SaneRun(s, more);
    ExecuteConcat(g, input, acts, more);
    TaskShapeOf(later.st, n);
    assert LeaseOk(s.grants, n, s.st.tasks[n]);
    assert LeaseOk(later.grants, n, later.st.tasks[n]);
  }
}
