/** The inductive invariant of the runtime rows, and what preserves it. */
module Invariant {
  import opened Basics
  import opened StateMachines
  import opened Graphs
  import opened RunRows
  import opened Scheduling
  import opened QueueRules

  /** A verdict instead of a predicate lets a proof carry a large condition as
      one fact. */
  datatype Verdict = Consistent | Broken

  /** Unique ids and existing endpoints, no cycle, exactly the input nodes
      without incoming edges, and a successor for every node that parks. */
  ghost predicate WellShaped(g: Graph) {
    && Contract(g)
    && g.nodes != []
    && Acyclic(g)
    && (forall n :: n in Ids(g) ==> (IsInputId(g, n) <==> !HasIncoming(g, n)))
    && (forall n :: n in Ids(g) && IsParkedId(g, n) ==> exists e :: e in g.edges && e.source == n)
  }

  ghost function ShapeOf(g: Graph): Verdict {
    if WellShaped(g) then Consistent else Broken
  }

  /** What the publication of a workflow version guarantees about its graph. */
  ghost predicate Publishable(g: Graph) {
    ShapeOf(g) == Consistent
  }

  predicate Leads(g: Graph, n: NodeId) {
    exists e :: e in g.edges && e.source == n
  }

  lemma ShapedGraph(g: Graph)
    requires Contract(g) && g.nodes != [] && Acyclic(g)
    requires forall n :: n in Ids(g) ==> (IsInputId(g, n) <==> !HasIncoming(g, n)) && (IsParkedId(g, n) ==> Leads(g, n))
    ensures Publishable(g)
  {
  }

  lemma ParkedIsNoCondition(g: Graph, n: NodeId)
    requires IsParkedId(g, n)
    ensures !IsCondition(g, n)
  {
  }

  // ----- one row -----

  predicate Held(t: Task) {
    t.lockedBy.Some? && t.token.Some? && t.expires.Some?
  }

  predicate Free(t: Task) {
    t.lockedBy.None? && t.token.None? && t.expires.None?
  }

  /** Lease columns are set exactly while a task is claimed or running, and the
      attempt budget is the one the scheduler grants. */
  predicate TaskShape(t: Task) {
    && 1 <= t.maxAttempts <= 11
    && match t.status
       case TaskPending => Free(t)
       case TaskRetryWait => Free(t)
       case TaskClaimed => Held(t)
       case TaskRunning => Held(t)
       case _ => true
  }

  predicate Has(task: Option<Task>, s: TaskStatus) {
    task.Some? && task.value.status == s && TaskShape(task.value)
  }

  /** The states in which work may be in flight. */
  predicate Open(run: RunStatus) {
    run.RunRunning? || run.RunPaused?
  }

  /** What may stand beside each NodeRun status: its task, its output and the
      run status. `input` and `parked` say what kind of node it is. */
  predicate RowOk(input: bool, parked: bool, run: RunStatus, row: NodeRun, task: Option<Task>) {
    match row.status
    case NodePending =>
      !input && row.output.None? && task.None? && !RunTerminal(run)
    case NodeQueued =>
      && !input && row.output.None? && (Has(task, TaskPending) || Has(task, TaskClaimed))
      // fail-fast leaves the queue rows it did not see
      && (Open(run) || (run.RunFailed? && Has(task, TaskPending)))
    case NodeRunning =>
      && !input && row.output.None? && Open(run)
      && (Has(task, TaskPending) || Has(task, TaskClaimed) || Has(task, TaskRunning))
    case NodeRetrying =>
      !input && row.output.None? && Open(run) && Has(task, TaskRetryWait)
    case NodeWaiting =>
      // fail-fast leaves parked nodes parked
      && !input && row.output.None? && parked && Has(task, TaskCompleted)
      && (Open(run) || run.RunWaiting? || run.RunFailed?)
    case NodeCompleted =>
      row.output.Some? && (if input then task.None? else Has(task, TaskCompleted) && !run.RunCreated?)
    case NodeFailed =>
      && !input && row.output.None? && (Has(task, TaskCompleted) || Has(task, TaskFailed))
      && !run.RunCreated? && !run.RunCompleted?
    case NodeSkipped =>
      !input && row.output.None? && task.None? && !run.RunCreated?
    case NodeCancelled =>
      && !input && row.output.None? && (task.None? || Has(task, TaskCompleted) || Has(task, TaskCancelled))
      && (run.RunFailed? || run.RunCancelled?)
  }

  function TaskOf(st: RunState, n: NodeId): Option<Task> {
    if n in st.tasks then Some(st.tasks[n]) else None
  }

  function Judge(input: bool, parked: bool, run: RunStatus, row: NodeRun, task: Option<Task>): Verdict {
    if RowOk(input, parked, run, row, task) then Consistent else Broken
  }

  predicate NodeOk(st: RunState, n: NodeId)
    requires n in st.nodes
  {
    Judge(IsInputId(st.graph, n), IsParkedId(st.graph, n), st.run, st.nodes[n], TaskOf(st, n)) == Consistent
  }

  ghost predicate RowsOk(st: RunState) {
    forall n {:trigger NodeOk(st, n)} :: n in st.nodes ==> NodeOk(st, n)
  }

  // ----- order of execution -----

  ghost predicate ActiveCompletedInput(g: Graph, nodes: map<NodeId, NodeRun>, n: NodeId) {
    exists e :: e in g.edges && e.target == n && EdgeActive(g, nodes, e) && HasStatus(nodes, e.source, NodeCompleted)
  }

  /** The node was entered properly: an active edge from a completed source,
      and every other input is dead or completed. */
  ghost predicate Admitted(g: Graph, nodes: map<NodeId, NodeRun>, n: NodeId) {
    ActiveCompletedInput(g, nodes, n) && ActiveInputsCompleted(g, nodes, n)
  }

  /** All inputs of the node are dead. */
  ghost predicate Abandoned(g: Graph, nodes: map<NodeId, NodeRun>, n: NodeId) {
    HasIncoming(g, n) && !HasActiveInput(g, nodes, n)
  }

  ghost predicate Ordered(st: RunState) {
    && (forall n {:trigger Admitted(st.graph, st.nodes, n)} :: n in st.tasks ==> Admitted(st.graph, st.nodes, n))
    && (forall n {:trigger Abandoned(st.graph, st.nodes, n)} :: HasStatus(st.nodes, n, NodeSkipped) ==> Abandoned(st.graph, st.nodes, n))
  }

  /** A WAITING run has settled its branches and still has a node to run. */
  ghost predicate WaitingOk(st: RunState) {
    st.run == RunWaiting ==> SkipClosed(st.graph, st.nodes) && Exists(st.nodes, NodePending)
  }

  ghost predicate Keyed(st: RunState) {
    st.nodes.Keys == Ids(st.graph) && st.tasks.Keys <= st.nodes.Keys
  }

  ghost predicate Healthy(st: RunState) {
    Keyed(st) && RowsOk(st) && Ordered(st) && WaitingOk(st)
  }

  ghost function Health(st: RunState): Verdict {
    if Healthy(st) then Consistent else Broken
  }

  /** The inductive invariant. */
  ghost predicate Inv(st: RunState) {
    Health(st) == Consistent
  }

  // ----- what a step must respect -----

  /** COMPLETED and SKIPPED rows are never written again. */
  ghost predicate Frozen(a: map<NodeId, NodeRun>, b: map<NodeId, NodeRun>) {
    forall n :: n in a && Settled(a[n].status) ==> n in b && b[n] == a[n]
  }

  lemma DeadStaysDead(g: Graph, a: map<NodeId, NodeRun>, b: map<NodeId, NodeRun>, e: Edge)
    requires Frozen(a, b) && !EdgeActive(g, a, e)
    ensures !EdgeActive(g, b, e)
  {
    assert e.source in a && Settled(a[e.source].status);
  }

  lemma AdmittedStays(g: Graph, a: map<NodeId, NodeRun>, b: map<NodeId, NodeRun>, n: NodeId)
    requires Frozen(a, b) && Admitted(g, a, n)
    ensures Admitted(g, b, n)
  {
    var e :| e in g.edges && e.target == n && EdgeActive(g, a, e) && HasStatus(a, e.source, NodeCompleted);
    assert Settled(a[e.source].status);
    assert EdgeActive(g, b, e) && HasStatus(b, e.source, NodeCompleted);
    forall f | f in g.edges && f.target == n && EdgeActive(g, b, f)
      ensures HasStatus(b, f.source, NodeCompleted)
    {
      if !EdgeActive(g, a, f) {
        DeadStaysDead(g, a, b, f);
        assert false;
      }
      assert Settled(a[f.source].status);
    }
  }

  lemma AbandonedStays(g: Graph, a: map<NodeId, NodeRun>, b: map<NodeId, NodeRun>, n: NodeId)
    requires Frozen(a, b) && Abandoned(g, a, n)
    ensures Abandoned(g, b, n)
  {
    forall e | e in g.edges && e.target == n
      ensures !EdgeActive(g, b, e)
    {
      DeadStaysDead(g, a, b, e);
    }
  }

  /** A step that freezes settled rows keeps the execution order, provided what
      it newly queued is admitted and what it newly skipped is abandoned. */
  lemma OrderedStays(st: RunState, next: RunState)
    requires Ordered(st) && next.graph == st.graph && Frozen(st.nodes, next.nodes)
    requires forall n :: n in next.tasks && n !in st.tasks ==> Admitted(st.graph, next.nodes, n)
    requires forall n :: (n in next.nodes && next.nodes[n].status == NodeSkipped && !HasStatus(st.nodes, n, NodeSkipped)) ==>
               Abandoned(st.graph, next.nodes, n)
    ensures Ordered(next)
  {
    forall n | n in next.tasks
      ensures Admitted(next.graph, next.nodes, n)
    {
      if n in st.tasks {
        AdmittedStays(st.graph, st.nodes, next.nodes, n);
      }
    }
    forall n | n in next.nodes && next.nodes[n].status == NodeSkipped
      ensures Abandoned(next.graph, next.nodes, n)
    {
      if HasStatus(st.nodes, n, NodeSkipped) {
        AbandonedStays(st.graph, st.nodes, next.nodes, n);
      }
    }
  }

  lemma SameRow(st: RunState, next: RunState, n: NodeId)
    requires n in st.nodes && NodeOk(st, n)
    requires next.graph == st.graph && next.run == st.run
    requires n in next.nodes && next.nodes[n] == st.nodes[n] && TaskOf(next, n) == TaskOf(st, n)
    ensures NodeOk(next, n)
  {
  }

  lemma RowsPut(st: RunState, n: NodeId, row: NodeRun, t: Task, log: seq<Event>)
    requires Keyed(st) && RowsOk(st) && n in st.nodes
    requires Judge(IsInputId(st.graph, n), IsParkedId(st.graph, n), st.run, row, Some(t)) == Consistent
    ensures Keyed(Put(st, n, row, t, log)) && RowsOk(Put(st, n, row, t, log))
  {
    var next := Put(st, n, row, t, log);
    forall m | m in next.nodes
      ensures NodeOk(next, m)
    {
      if m != n {
        SameRow(st, next, m);
      }
    }
  }

  /** Rewriting one working row and its task keeps the execution order. */
  lemma OrderedPut(st: RunState, n: NodeId, row: NodeRun, t: Task, log: seq<Event>)
    requires Ordered(st) && n in st.tasks && n in st.nodes
    requires !Settled(st.nodes[n].status) && row.status != NodeSkipped
    ensures Ordered(Put(st, n, row, t, log))
  {
    OrderedStays(st, Put(st, n, row, t, log));
  }

  // ----- what one transaction may do -----

  /** What a transaction is for: a claim introduces a lease token, a retry
      report may send a task to RETRY_WAIT, the promotion of due retries takes
      it from there, everything else does none of these. */
  datatype Permit = Plain | Claiming(token: Token) | Retrying | Promoting(now: nat)

  /** How one transaction may change a task that already exists. */
  predicate TaskLaw(run: RunStatus, t: Task, t': Task, permit: Permit) {
    && t'.maxAttempts == t.maxAttempts && t'.capability == t.capability && t'.runner == t.runner
    && (TaskTerminal(t.status) ==> t' == t)
    && (t'.status == t.status || TaskMay(t.status, t'.status) || (t.status.TaskPending? && t'.status.TaskRunning?))
    // an attempt is counted exactly when the task enters RUNNING, in a RUNNING run
    && (if t'.status.TaskRunning? && !t.status.TaskRunning?
        then t'.attempt == t.attempt + 1 && run.RunRunning?
        else t'.attempt == t.attempt)
    // a token is kept, cleared, or introduced on a task that had none
    && (|| (t'.token == t.token && t'.lockedBy == t.lockedBy)
        || t'.token.None?
        || (permit.Claiming? && t'.token == Some(permit.token) && t.status.TaskPending? && run.RunRunning?))
    && (t'.status.TaskRetryWait? && !t.status.TaskRetryWait? ==> permit.Retrying?)
    && (t.status.TaskRetryWait? && t'.status.TaskPending? ==> permit.Promoting? && t.availableAt <= permit.now)
    && (t'.availableAt == t.availableAt || (t'.status.TaskRetryWait? && !t.status.TaskRetryWait?))
    && (t'.status.TaskFailed? && !t.status.TaskFailed? ==> t.status.TaskRunning?)
  }

  function JudgeTask(run: RunStatus, t: Task, t': Task, permit: Permit): Verdict {
    if TaskLaw(run, t, t', permit) then Consistent else Broken
  }

  predicate Untried(t: Task) {
    Free(t) && t.attempt == 0
  }

  /** A new task is queued, unless the same transaction cancelled it again. */
  predicate NewTaskLaw(t: Task) {
    Untried(t) && (t.status.TaskPending? || t.status.TaskCancelled?)
  }

  /** How one transaction may change the rows of a run. */
  ghost predicate Obeys(st: RunState, next: RunState, permit: Permit) {
    && next.graph == st.graph
    && Frozen(st.nodes, next.nodes)
    && st.events <= next.events
    && st.tasks.Keys <= next.tasks.Keys
    && (forall n :: n in st.tasks ==> JudgeTask(st.run, st.tasks[n], next.tasks[n], permit) == Consistent)
    && (forall n :: n in next.tasks && n !in st.tasks ==> NewTaskLaw(next.tasks[n]))
    && (next.tasks.Keys != st.tasks.Keys ==> st.run.RunRunning? || next.run.RunRunning?)
    && (RunTerminal(st.run) ==> next == st)
  }

  ghost function LawOf(st: RunState, next: RunState, permit: Permit): Verdict {
    if Obeys(st, next, permit) then Consistent else Broken
  }

  ghost predicate Lawful(st: RunState, next: RunState, permit: Permit) {
    LawOf(st, next, permit) == Consistent
  }

  lemma SameTask(run: RunStatus, t: Task, permit: Permit)
    ensures JudgeTask(run, t, t, permit) == Consistent
  {
  }

  /** A transaction of a live run that writes no task is lawful when it leaves
      settled rows alone. */
  lemma TasksUntouched(st: RunState, next: RunState)
    requires next.graph == st.graph && next.tasks == st.tasks && st.events <= next.events
    requires Frozen(st.nodes, next.nodes) && !RunTerminal(st.run)
    ensures Lawful(st, next, Plain)
  {
    forall n | n in st.tasks
      ensures JudgeTask(st.run, st.tasks[n], next.tasks[n], Plain) == Consistent
    {
      SameTask(st.run, st.tasks[n], Plain);
    }
  }

  lemma Unchanged(st: RunState, permit: Permit)
    ensures Lawful(st, st, permit)
  {
  }

  lemma LawfulPut(st: RunState, n: NodeId, row: NodeRun, t: Task, log: seq<Event>, permit: Permit)
    requires n in st.tasks && n in st.nodes && !RunTerminal(st.run)
    requires !Settled(st.nodes[n].status)
    requires JudgeTask(st.run, st.tasks[n], t, permit) == Consistent
    ensures Lawful(st, Put(st, n, row, t, log), permit)
  {
    assert Obeys(st, st, permit);
  }

  /** Advancing one working row and its task is lawful and keeps the invariant. */
  lemma PutSound(st: RunState, n: NodeId, row: NodeRun, t: Task, log: seq<Event>, permit: Permit)
    requires Inv(st) && n in st.tasks && n in st.nodes && Open(st.run)
    requires !Settled(st.nodes[n].status) && row.status != NodeSkipped
    requires Judge(IsInputId(st.graph, n), IsParkedId(st.graph, n), st.run, row, Some(t)) == Consistent
    requires JudgeTask(st.run, st.tasks[n], t, permit) == Consistent
    ensures Inv(Put(st, n, row, t, log)) && Lawful(st, Put(st, n, row, t, log), permit)
  {
    RowsPut(st, n, row, t, log);
    OrderedPut(st, n, row, t, log);
    LawfulPut(st, n, row, t, log, permit);
  }

  // ----- stability of the branch structure -----

  /** No edge changes its activity: rows become COMPLETED only on nodes that
      are no Condition, and nothing becomes SKIPPED. */
  ghost predicate SameEdges(g: Graph, a: map<NodeId, NodeRun>, b: map<NodeId, NodeRun>) {
    forall e :: e in g.edges ==> (EdgeActive(g, b, e) <==> EdgeActive(g, a, e))
  }

  lemma ClosedStays(g: Graph, a: map<NodeId, NodeRun>, b: map<NodeId, NodeRun>)
    requires SkipClosed(g, a) && SameEdges(g, a, b) && a.Keys == b.Keys
    requires forall n :: n in b && b[n].status == NodePending ==> a[n].status == NodePending
    ensures SkipClosed(g, b)
  {
    forall n | n in b && CutOff(g, b, {}, n)
      ensures false
    {
      forall e | e in g.edges && e.target == n
        ensures Dead(g, a, {}, e)
      {
        assert Dead(g, b, {}, e);
      }
      assert CutOff(g, a, {}, n);
    }
  }
}
