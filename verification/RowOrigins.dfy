/** Where the results of nodes come from: which action completes, parks or fails
    a node, with what, told in terms of the action alone. */
module RowOrigins {
  import opened Basics
  import opened StateMachines
  import opened Graphs
  import opened RunRows
  import opened Scheduling
  import opened SchedulerRules
  import opened LifecycleRules
  import opened Runtime

  // ----- what an action may give -----

  /** What a node that waits is told to wait for. */
  function WaitsFor(node: Node, duration: int, now: nat): Parking {
    if node.nodeType.Human? && node.subtype == "approval" then Parking("HUMAN_APPROVAL", map["allow_reject" := Bool(node.allowReject)])
    else if node.nodeType.Human? then Parking("HUMAN_INPUT", map[])
    else Parking("WAIT_TIMER", TimerMetadata(now, duration))
  }

  function AtLeastOne(seconds: int): nat {
    if seconds < 1 then 1 else seconds
  }

  function TimerMetadata(now: nat, duration: int): map<string, Json> {
    map["resume_at" := Num(now + AtLeastOne(duration)), "duration_seconds" := Num(AtLeastOne(duration))]
  }

  /** The parked row is a timer that is up. */
  predicate TimerUp(row: NodeRun, now: nat) {
    && row.status.NodeWaiting? && row.parking.Some? && row.parking.value.reason == "WAIT_TIMER"
    && "resume_at" in row.parking.value.metadata && row.parking.value.metadata["resume_at"].Num?
    && row.parking.value.metadata["resume_at"].n <= now
  }

  /** The client is named by an unexpired lease of the task of `n`. */
  predicate Leaseholder(s: System, n: NodeId, who: string, token: Token) {
    && n in s.st.tasks && s.st.tasks[n].lockedBy == Some(who) && s.st.tasks[n].token == Some(token)
    && s.st.tasks[n].expires.Some? && s.clock < s.st.tasks[n].expires.value
  }

  /** A human node of this kind waits for its answer in a run that is not paused. */
  predicate Answerable(s: System, n: NodeId, subtype: string) {
    var node := FindNode(s.st.graph.nodes, n);
    && HasStatus(s.st.nodes, n, NodeWaiting) && (s.st.run.RunRunning? || s.st.run.RunWaiting?)
    && node.Some? && node.value.nodeType.Human? && node.value.subtype == subtype
  }

  /** The action completes `n` with this output. */
  predicate Gives(s: System, a: Action, n: NodeId, output: Json) {
    match a
    case Complete(m, who, token, o) => m == n && o == output && Leaseholder(s, n, who, token)
    case SubmitResult(m, who, token, r) => m == n && r.ok && r.output == output && Leaseholder(s, n, who, token)
    case Approve(m) => m == n && output == Obj(map["approved" := Bool(true)]) && Answerable(s, n, "approval")
    case SubmitInput(m, data, valid) => m == n && valid && output == Obj(data) && Answerable(s, n, "input")
    case ReconcileRun(_, _) => n in s.st.nodes && TimerUp(s.st.nodes[n], s.clock) && output == Obj(s.st.nodes[n].parking.value.metadata)
    case _ => false
  }

  /** The action parks `n` like this. */
  predicate Parks(s: System, a: Action, n: NodeId, parking: Parking) {
    match a
    case Park(m, who, token, duration) =>
      && m == n && Leaseholder(s, n, who, token) && FindNode(s.st.graph.nodes, n).Some?
      && parking == WaitsFor(FindNode(s.st.graph.nodes, n).value, duration, s.clock)
    case _ => false
  }

  /** The action fails `n`. */
  predicate Fails(s: System, a: Action, n: NodeId) {
    match a
    case Fail(m, who, token) => m == n && Leaseholder(s, n, who, token)
    case SubmitResult(m, who, token, r) =>
      m == n && Leaseholder(s, n, who, token) && !r.ok && !(r.retryable && s.st.tasks[n].attempt < s.st.tasks[n].maxAttempts)
    case Reject(m) => m == n && Answerable(s, n, "approval") && FindNode(s.st.graph.nodes, n).value.allowReject
    case _ => false
  }

  // ----- one row, before and after -----

  /** Nothing of this kind happened to the row. */
  predicate Quiet(a: NodeRun, b: NodeRun) {
    && (b.status.NodeCompleted? ==> b == a)
    && (b.status.NodeWaiting? ==> b == a)
    && (b.status.NodeFailed? ==> a.status.NodeFailed?)
  }

  /** What the action did to the row, if anything of these kinds. */
  predicate Explained(s: System, a: Action, n: NodeId, row: NodeRun, row': NodeRun) {
    && (row'.status.NodeCompleted? ==> row' == row || (row'.output.Some? && Gives(s, a, n, row'.output.value)))
    && (row'.status.NodeWaiting? ==> row' == row || (row'.parking.Some? && Parks(s, a, n, row'.parking.value)))
    && (row'.status.NodeFailed? ==> row.status.NodeFailed? || Fails(s, a, n))
  }

  ghost predicate AllQuiet(a: map<NodeId, NodeRun>, b: map<NodeId, NodeRun>) {
    b.Keys == a.Keys && forall n {:trigger Quiet(a[n], b[n])} :: n in a ==> Quiet(a[n], b[n])
  }

  lemma QuietTwice(a: map<NodeId, NodeRun>, b: map<NodeId, NodeRun>, c: map<NodeId, NodeRun>)
    requires AllQuiet(a, b) && AllQuiet(b, c)
    ensures AllQuiet(a, c)
  {
    forall n | n in a
      ensures Quiet(a[n], c[n])
    {
      assert Quiet(a[n], b[n]) && Quiet(b[n], c[n]);
    }
  }

  lemma QuietSame(a: map<NodeId, NodeRun>)
    ensures AllQuiet(a, a)
  {
  }

  // ----- scheduling -----

  lemma ScheduleQuiet(st: RunState, u: Unresolved, now: nat)
    ensures AllQuiet(st.nodes, AfterSchedule(st, u, now).nodes)
  {
  }

  lemma TransitionQuiet(st: RunState, derived: RunStatus, hidden: set<NodeId>)
    ensures AllQuiet(st.nodes, AfterTransition(st, derived, hidden).nodes)
  {
  }

  lemma ConcludeQuiet(st: RunState, adv: RunState, u: Unresolved, unflushed: set<NodeId>, now: nat)
    ensures var r := Conclude(st, adv, u, unflushed, now);
            r.outcome.Accepted? ==> AllQuiet(adv.nodes, r.st.nodes)
    ensures !Conclude(st, adv, u, unflushed, now).outcome.Accepted? ==> Conclude(st, adv, u, unflushed, now).st == st
  {
    var derived, hidden := DeriveRun(adv.graph, adv.nodes), unflushed * (adv.tasks.Keys - st.tasks.Keys);
    var moved := if derived == st.run then adv else AfterTransition(adv, derived, hidden);
    QuietSame(adv.nodes);
    TransitionQuiet(adv, derived, hidden);
    ScheduleQuiet(moved, u, now);
    QuietTwice(adv.nodes, moved.nodes, AfterSchedule(moved, u, now).nodes);
  }

  /** The rows after a reconcile promoted the timers. */
  predicate Rung(row: NodeRun, row': NodeRun, now: nat) {
    if TimerUp(row, now) then row' == row.(status := NodeCompleted, output := Some(Obj(row.parking.value.metadata))) else row' == row
  }

  lemma PromotionRings(st: RunState, now: nat, n: NodeId)
    requires n in st.nodes
    ensures n in AfterPromoteWaits(st, now).nodes && Rung(st.nodes[n], AfterPromoteWaits(st, now).nodes[n], now)
  {
  }

  /** A reconcile: timers that are up complete, and nothing else of these kinds. */
  predicate RungThenQuiet(row: NodeRun, row': NodeRun, now: nat) {
    && (row'.status.NodeCompleted? ==> row' == row || (TimerUp(row, now) && row'.output == Some(Obj(row.parking.value.metadata))))
    && (row'.status.NodeWaiting? ==> row' == row)
    && (row'.status.NodeFailed? ==> row.status.NodeFailed?)
  }

  lemma RungQuiet(row: NodeRun, mid: NodeRun, row': NodeRun, now: nat)
    requires Rung(row, mid, now) && Quiet(mid, row')
    ensures RungThenQuiet(row, row', now)
  {
  }

  lemma AdvancedRung(st: RunState, u: Unresolved, unflushed: set<NodeId>, now: nat, n: NodeId)
    requires n in st.nodes
    ensures var r := Conclude(st, Advanced(st, u, now), u, unflushed, now).st;
            n in r.nodes && RungThenQuiet(st.nodes[n], r.nodes[n], now)
  {
    var waits, adv := AfterPromoteWaits(st, now), Advanced(st, u, now);
    var r := Conclude(st, adv, u, unflushed, now);
    PromotionRings(st, now, n);
    ScheduleQuiet(waits, u, now);
    ConcludeQuiet(st, adv, u, unflushed, now);
    if r.outcome.Accepted? {
      QuietTwice(waits.nodes, adv.nodes, r.st.nodes);
      assert Quiet(waits.nodes[n], r.st.nodes[n]);
      RungQuiet(st.nodes[n], waits.nodes[n], r.st.nodes[n], now);
    }
  }

  lemma CancelledQuiet(st: RunState, hidden: set<NodeId>)
    ensures AllQuiet(st.nodes, AfterCancelTasks(st, hidden).nodes)
  {
  }

  lemma ReconcileRung(st: RunState, u: Unresolved, unflushed: set<NodeId>, now: nat, n: NodeId)
    requires n in st.nodes
    ensures var r := AfterReconcile(st, u, unflushed, now).st;
            n in r.nodes && RungThenQuiet(st.nodes[n], r.nodes[n], now)
  {
    match st.run
    case RunCancelled =>
      CancelledQuiet(st, {});
      assert Quiet(st.nodes[n], AfterCancelTasks(st, {}).nodes[n]);
    case RunCompleted =>
    case RunFailed =>
    case RunPaused =>
    case _ => AdvancedRung(st, u, unflushed, now, n);
  }

  lemma ReconcileExplained(s: System, a: Action, n: NodeId)
    requires n in s.st.nodes && a.ReconcileRun?
    ensures n in Step(s, a).st.nodes && Explained(s, a, n, s.st.nodes[n], Step(s, a).st.nodes[n])
  {
    ReconcileRung(s.st, a.unresolved, a.unflushed, s.clock, n);
  }

  lemma ScheduleExplained(s: System, a: Action, n: NodeId)
    requires n in s.st.nodes && a.ScheduleReady?
    ensures n in Step(s, a).st.nodes && Explained(s, a, n, s.st.nodes[n], Step(s, a).st.nodes[n])
  {
    ScheduleQuiet(s.st, a.unresolved, s.clock);
    assert Quiet(s.st.nodes[n], Step(s, a).st.nodes[n]);
  }

  // ----- everything else -----

  lemma CancelRunQuiet(st: RunState)
    ensures AllQuiet(st.nodes, AfterCancelRun(st).st.nodes)
  {
  }

  lemma ControlExplained(s: System, a: Action, n: NodeId)
    requires n in s.st.nodes && (a.Tick? || a.StartRun? || a.PauseRun? || a.ResumeRun? || a.CancelRun?)
    ensures n in Step(s, a).st.nodes && Explained(s, a, n, s.st.nodes[n], Step(s, a).st.nodes[n])
  {
    if a.CancelRun? {
      CancelRunQuiet(s.st);
      assert Quiet(s.st.nodes[n], Step(s, a).st.nodes[n]);
    }
  }

  lemma HumanExplained(s: System, a: Action, n: NodeId)
    requires n in s.st.nodes && (a.Approve? || a.Reject? || a.SubmitInput?)
    ensures n in Step(s, a).st.nodes && Explained(s, a, n, s.st.nodes[n], Step(s, a).st.nodes[n])
  {
  }

  lemma LeaseExplained(s: System, a: Action, n: NodeId)
    requires n in s.st.nodes && (a.Claim? || a.StartTask? || a.Renew? || a.RunnerClaim? || a.Heartbeat?)
    ensures n in Step(s, a).st.nodes && Explained(s, a, n, s.st.nodes[n], Step(s, a).st.nodes[n])
  {
  }

  lemma ReportExplained(s: System, a: Action, n: NodeId)
    requires n in s.st.nodes && (a.Complete? || a.Fail? || a.Retry?)
    ensures n in Step(s, a).st.nodes && Explained(s, a, n, s.st.nodes[n], Step(s, a).st.nodes[n])
  {
  }

  lemma ParkExplained(s: System, a: Action, n: NodeId)
    requires n in s.st.nodes && a.Park?
    ensures n in Step(s, a).st.nodes && Explained(s, a, n, s.st.nodes[n], Step(s, a).st.nodes[n])
  {
  }

  lemma ResultExplained(s: System, a: Action, n: NodeId)
    requires n in s.st.nodes && a.SubmitResult?
    ensures n in Step(s, a).st.nodes && Explained(s, a, n, s.st.nodes[n], Step(s, a).st.nodes[n])
  {
  }

  lemma RepairExplained(s: System, a: Action, n: NodeId)
    requires n in s.st.nodes && (a.Recover? || a.PromoteRetries?)
    ensures n in Step(s, a).st.nodes && Explained(s, a, n, s.st.nodes[n], Step(s, a).st.nodes[n])
  {
  }

  /** A node is completed, parked or failed by nothing but the actions above. */
  lemma StepExplained(s: System, a: Action, n: NodeId)
    requires n in s.st.nodes
    ensures n in Step(s, a).st.nodes && Explained(s, a, n, s.st.nodes[n], Step(s, a).st.nodes[n])
  {
    if a.ReconcileRun? {
      ReconcileExplained(s, a, n);
    } else if a.ScheduleReady? {
      ScheduleExplained(s, a, n);
    } else if a.Approve? || a.Reject? || a.SubmitInput? {
      HumanExplained(s, a, n);
    } else if a.Tick? || a.StartRun? || a.PauseRun? || a.ResumeRun? || a.CancelRun? {
      ControlExplained(s, a, n);
    } else if a.Park? {
      ParkExplained(s, a, n);
    } else if a.SubmitResult? {
      ResultExplained(s, a, n);
    } else if a.Recover? || a.PromoteRetries? {
      RepairExplained(s, a, n);
    } else if a.Complete? || a.Fail? || a.Retry? {
      ReportExplained(s, a, n);
    } else {
      LeaseExplained(s, a, n);
    }
  }
}
