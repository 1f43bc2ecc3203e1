/** Exactly when a stalled run can have a live task again: when the answers its
    parked nodes wait for make some node ready whose inputs resolve. */
module Revival {
  import opened Basics
  import opened StateMachines
  import opened Graphs
  import opened RunRows
  import opened Scheduling
  import opened SchedulerRules
  import opened QueueRules
  import opened LifecycleRules
  import opened Runtime
  import opened Invariant
  import opened SchedulerSafety
  import opened RecoverySafety
  import opened ReconcileSafety
  import opened RuntimeSafety
  import opened History
  import opened Wakeup
  import opened Idempotence
  import opened FailFast
  import opened ContextSafety
  import opened Dispatching
  import opened ParkedRows
  import opened Limits
  import opened Stall

  // ----- what may become of parked rows -----

  predicate IsHumanId(g: Graph, n: NodeId) {
    var node := FindNode(g.nodes, n);
    node.Some? && node.value.nodeType.Human?
  }

  /** The row of a human node after its answer; only an input takes data. */
  function AnsweredRow(g: Graph, n: NodeId, row: NodeRun, data: map<string, Json>): NodeRun {
    var node := FindNode(g.nodes, n);
    var output := if node.Some? && IsApproval(node.value) then Obj(map["approved" := Bool(true)]) else Obj(data);
    row.(status := NodeCompleted, output := Some(output))
  }

  /** Some answer the node takes: an approval, or data its form schema accepts. */
  ghost predicate IsAnswer(g: Graph, n: NodeId, row: NodeRun, row': NodeRun, env: Env) {
    && IsHumanId(g, n)
    && exists data :: (IsApproval(FindNode(g.nodes, n).value) || TakesAnswer(g, n, data, env)) && row' == AnsweredRow(g, n, row, data)
  }

  /** The row at a moment `mark`: elapsed timers completed, human nodes answered or not. */
  ghost predicate MayBecome(g: Graph, n: NodeId, row: NodeRun, row': NodeRun, mark: nat, env: Env) {
    if !row.status.NodeWaiting? then row' == row
    else if DueWait(row, mark) then row' == Elapsed(row)
    else row' == row || IsAnswer(g, n, row, row', env)
  }

  ghost predicate Answered(st: RunState, rows: map<NodeId, NodeRun>, mark: nat, env: Env) {
    rows.Keys == st.nodes.Keys &&
    forall n {:trigger MayBecome(st.graph, n, st.nodes[n], rows[n], mark, env)} :: n in st.nodes ==>
      MayBecome(st.graph, n, st.nodes[n], rows[n], mark, env)
  }

  /** Some answers make a node ready whose inputs resolve. */
  ghost predicate Unlocks(s: System, env: Env, rows: map<NodeId, NodeRun>, mark: nat, x: NodeId) {
    && s.clock <= mark && Answered(s.st, rows, mark, env)
    && x !in s.st.tasks && Ready(s.st.graph, rows, x) && !Undispatched(s.st.graph, rows, env, x)
  }

  ghost predicate Unlockable(s: System, env: Env) {
    exists rows, mark, x :: Unlocks(s, env, rows, mark, x)
  }

  ghost predicate MayRevive(s: System, env: Env) {
    exists more :: HonestFrom(s, more, env) && HasLiveTask(RunFrom(s, more).st)
  }

  /** A reconciled RUNNING run without a live task. */
  ghost predicate Quiet(s: System) {
    && Sane(s) && Fits(s.st) && s.st.run.RunRunning? && !HasLiveTask(s.st)
    && SkipClosed(s.st.graph, s.st.nodes) && !Exists(s.st.nodes, NodeFailed) && NothingElapsed(s.st.nodes, s.clock)
  }

  // ----- without an unlocking answer -----

  /** As `MayBecome`, or the answer was a rejection. */
  ghost predicate Drifts(g: Graph, n: NodeId, row: NodeRun, row': NodeRun, mark: nat, env: Env) {
    || MayBecome(g, n, row, row', mark, env)
    || (row.status.NodeWaiting? && IsHumanId(g, n) && row' == row.(status := NodeFailed))
  }

  ghost predicate Drifted(st: RunState, rows: map<NodeId, NodeRun>, mark: nat, env: Env) {
    rows.Keys == st.nodes.Keys &&
    forall n {:trigger Drifts(st.graph, n, st.nodes[n], rows[n], mark, env)} :: n in st.nodes ==>
      Drifts(st.graph, n, st.nodes[n], rows[n], mark, env)
  }

  /** No parked node is a Condition, and none that is human is a timer. */
  ghost predicate ParkedKinds(st: RunState) {
    forall n {:trigger st.nodes[n]} :: n in st.nodes && st.nodes[n].status.NodeWaiting? ==>
      && !IsCondition(st.graph, n) && st.nodes[n].output.None?
      && (IsHumanId(st.graph, n) ==> forall now: nat :: !DueWait(st.nodes[n], now))
  }

  lemma WaitingKind(input: bool, parked: bool, run: RunStatus, row: NodeRun, task: Option<Task>)
    requires Judge(input, parked, run, row, task) == Consistent && row.status.NodeWaiting?
    ensures parked && row.output.None?
  {
  }

  lemma KindsOfParked(st: RunState)
    requires Inv(st) && Fits(st)
    ensures ParkedKinds(st)
  {
    forall n | n in st.nodes && st.nodes[n].status.NodeWaiting?
      ensures !IsCondition(st.graph, n) && st.nodes[n].output.None?
      ensures IsHumanId(st.graph, n) ==> forall now: nat :: !DueWait(st.nodes[n], now)
    {
      assert NodeOk(st, n);
      WaitingKind(IsInputId(st.graph, n), IsParkedId(st.graph, n), st.run, st.nodes[n], TaskOf(st, n));
      ParkedIsNoCondition(st.graph, n);
      assert FitsRow(st.graph, n, st.nodes[n]);
    }
  }

  lemma DriftedEdges(st: RunState, rows: map<NodeId, NodeRun>, mark: nat, env: Env)
    requires ParkedKinds(st) && Drifted(st, rows, mark, env)
    ensures SameEdges(st.graph, st.nodes, rows)
    ensures forall n :: n in rows && rows[n].status == NodePending ==> st.nodes[n].status == NodePending
  {
    forall n | n in st.nodes
      ensures rows[n] == st.nodes[n] || (st.nodes[n].status.NodeWaiting? && (rows[n].status.NodeCompleted? || rows[n].status.NodeFailed?))
    {
      assert Drifts(st.graph, n, st.nodes[n], rows[n], mark, env);
    }
  }

  lemma DriftedClosed(st: RunState, rows: map<NodeId, NodeRun>, mark: nat, env: Env)
    requires ParkedKinds(st) && Drifted(st, rows, mark, env) && SkipClosed(st.graph, st.nodes)
    ensures SkipClosed(st.graph, rows)
  {
    DriftedEdges(st, rows, mark, env);
    ClosedStays(st.graph, st.nodes, rows);
  }

  /** The same rows with the rejections undone. */
  ghost function Unrejected(st: RunState, rows: map<NodeId, NodeRun>): map<NodeId, NodeRun>
    requires rows.Keys == st.nodes.Keys
  {
    map n | n in rows :: if rows[n].status.NodeFailed? && st.nodes[n].status.NodeWaiting? then st.nodes[n] else rows[n]
  }

  lemma UnrejectedRow(g: Graph, n: NodeId, row: NodeRun, row': NodeRun, mark: nat, env: Env)
    requires Drifts(g, n, row, row', mark, env) && row'.status.NodeFailed? && row.status.NodeWaiting?
    ensures row' == row.(status := NodeFailed) && IsHumanId(g, n)
  {
  }

  lemma UnrejectedAnswered(st: RunState, rows: map<NodeId, NodeRun>, mark: nat, env: Env)
    requires ParkedKinds(st) && Drifted(st, rows, mark, env)
    ensures Answered(st, Unrejected(st, rows), mark, env)
  {
    forall n | n in st.nodes
      ensures MayBecome(st.graph, n, st.nodes[n], Unrejected(st, rows)[n], mark, env)
    {
      assert Drifts(st.graph, n, st.nodes[n], rows[n], mark, env);
      if rows[n].status.NodeFailed? && st.nodes[n].status.NodeWaiting? {
        UnrejectedRow(st.graph, n, st.nodes[n], rows[n], mark, env);
        assert !DueWait(st.nodes[n], mark);
      }
    }
  }

  lemma UnrejectedLooks(st: RunState, rows: map<NodeId, NodeRun>, mark: nat, x: NodeId, env: Env)
    requires ParkedKinds(st) && Drifted(st, rows, mark, env) && Ready(st.graph, rows, x)
    ensures Ready(st.graph, Unrejected(st, rows), x) && OutputsOf(Unrejected(st, rows)) == OutputsOf(rows)
  {
    var back := Unrejected(st, rows);
    forall n | n in rows
      ensures back[n] == rows[n] || (rows[n].status.NodeFailed? && back[n].status.NodeWaiting? && back[n].output == rows[n].output)
    {
      assert Drifts(st.graph, n, st.nodes[n], rows[n], mark, env);
      if rows[n].status.NodeFailed? && st.nodes[n].status.NodeWaiting? {
        UnrejectedRow(st.graph, n, st.nodes[n], rows[n], mark, env);
      }
    }
    SameStanding(st.graph, rows, back, x);
  }

  /** Rows that differ only between FAILED and WAITING look alike to a node. */
  lemma SameStanding(g: Graph, a: map<NodeId, NodeRun>, b: map<NodeId, NodeRun>, x: NodeId)
    requires a.Keys == b.Keys && Ready(g, a, x)
    requires forall n :: n in a ==> b[n] == a[n] || (a[n].status.NodeFailed? && b[n].status.NodeWaiting? && b[n].output == a[n].output)
    ensures Ready(g, b, x) && OutputsOf(b) == OutputsOf(a)
  {
    forall e | e in g.edges
      ensures EdgeActive(g, b, e) <==> EdgeActive(g, a, e)
    {
    }
    var e :| e in g.edges && e.target == x && EdgeActive(g, a, e);
    assert EdgeActive(g, b, e);
  }

  /** No answer so far unlocked anything, so every ready node stays undispatched. */
  lemma NothingUnlocked(s: System, rows: map<NodeId, NodeRun>, mark: nat, env: Env, x: NodeId)
    requires ParkedKinds(s.st) && Drifted(s.st, rows, mark, env) && s.clock <= mark && !Unlockable(s, env)
    requires x !in s.st.tasks && Ready(s.st.graph, rows, x)
    ensures Undispatched(s.st.graph, rows, env, x)
  {
    var back := Unrejected(s.st, rows);
    UnrejectedAnswered(s.st, rows, mark, env);
    UnrejectedLooks(s.st, rows, mark, x, env);
    SameFailures(s.st.graph, back, rows, env);
    if !Undispatched(s.st.graph, back, env, x) {
      assert Unlocks(s, env, back, mark, x);
    }
  }

  // ----- steps of a lull -----

  /** Since `s0` nothing happened but answers, rejections and run control. */
  ghost predicate Lull(s0: System, s: System, mark: nat, env: Env) {
    && s.st.graph == s0.st.graph && !HasLiveTask(s.st) && s0.clock <= mark <= s.clock
    && (RunTerminal(s.st.run) ||
        (s.st.tasks == s0.st.tasks && Drifted(s0.st, s.st.nodes, mark, env) && !s.st.run.RunCreated?))
  }

  lemma QueueIdle(s: System, a: Action)
    requires !HasLiveTask(s.st)
    requires a.Claim? || a.StartTask? || a.Complete? || a.Fail? || a.Park? || a.Retry? || a.Renew?
    ensures Step(s, a).st == s.st && Step(s, a).clock == s.clock
  {
  }

  lemma RunnerIdle(s: System, a: Action)
    requires !HasLiveTask(s.st) && (a.RunnerClaim? || a.Heartbeat? || a.SubmitResult?)
    ensures Step(s, a).st == s.st && Step(s, a).clock == s.clock
  {
  }

  lemma RepairIdle(s: System, a: Action)
    requires !HasLiveTask(s.st) && (a.Recover? || a.PromoteRetries?)
    ensures Step(s, a).st == s.st && Step(s, a).clock == s.clock
  {
    match a
    case Recover(locked) => NothingToRecover(s.st, locked, s.clock);
    case PromoteRetries(locked) =>
      assert DueRetries(s.st.tasks, locked, s.clock) == {};
      NothingDue(s.st, locked, s.clock);
  }

  lemma CancelledIsIdle(st: RunState)
    requires !HasLiveTask(st)
    ensures !HasLiveTask(AfterCancelTasks(st, {})) && AfterCancelTasks(st, {}).graph == st.graph
  {
  }

  lemma ControlLull(s0: System, s: System, mark: nat, a: Action, env: Env)
    requires Lull(s0, s, mark, env) && !RunTerminal(s.st.run)
    requires a.Tick? || a.StartRun? || a.PauseRun? || a.ResumeRun? || a.CancelRun?
    ensures Lull(s0, Step(s, a), mark, env)
  {
    if a.CancelRun? {
      var moved := s.st.(run := RunCancelled, events := s.st.events + [RunEvent(WorkflowCancelled)]);
      CancelledIsIdle(moved.(nodes := CancelNodes(moved.nodes)));
    }
  }

  /** An accepted human action turns one parked row of a human node. */
  lemma HumanShape(s: System, a: Action, env: Env)
    requires (a.Approve? || a.Reject? || a.SubmitInput?) && Honest(s, a, env)
    ensures var next := Step(s, a);
            && next.clock == s.clock && next.st.graph == s.st.graph && next.st.tasks == s.st.tasks && next.st.run == s.st.run
            && (next.st.nodes == s.st.nodes ||
                (&& a.node in s.st.nodes && s.st.nodes[a.node].status.NodeWaiting? && IsHumanId(s.st.graph, a.node)
                 && (next.st.nodes == s.st.nodes[a.node := s.st.nodes[a.node].(status := NodeFailed)] ||
                     exists row :: IsAnswer(s.st.graph, a.node, s.st.nodes[a.node], row, env) && next.st.nodes == s.st.nodes[a.node := row])))
  {
    match a
    case Approve(n) =>
      if n in s.st.nodes && Step(s, a).st.nodes != s.st.nodes {
        var row := AnsweredRow(s.st.graph, n, s.st.nodes[n], map[]);
        assert IsAnswer(s.st.graph, n, s.st.nodes[n], row, env) && Step(s, a).st.nodes == s.st.nodes[n := row];
      }
    case SubmitInput(n, data, valid) =>
      if n in s.st.nodes && Step(s, a).st.nodes != s.st.nodes {
        var row := AnsweredRow(s.st.graph, n, s.st.nodes[n], data);
        assert IsAnswer(s.st.graph, n, s.st.nodes[n], row, env) && Step(s, a).st.nodes == s.st.nodes[n := row];
      }
    case Reject(n) =>
  }

  lemma TurnedRow(st: RunState, rows: map<NodeId, NodeRun>, mark: nat, n: NodeId, row: NodeRun, env: Env)
    requires ParkedKinds(st) && Drifted(st, rows, mark, env) && n in rows && rows[n].status.NodeWaiting? && IsHumanId(st.graph, n)
    requires row == rows[n].(status := NodeFailed) || IsAnswer(st.graph, n, rows[n], row, env)
    ensures Drifted(st, rows[n := row], mark, env)
  {
    var next := rows[n := row];
    assert Drifts(st.graph, n, st.nodes[n], rows[n], mark, env);
    assert rows[n] == st.nodes[n];
    forall m | m in st.nodes
      ensures Drifts(st.graph, m, st.nodes[m], next[m], mark, env)
    {
      assert Drifts(st.graph, m, st.nodes[m], rows[m], mark, env);
    }
  }

  lemma HumanLull(s0: System, s: System, mark: nat, a: Action, env: Env)
    requires ParkedKinds(s0.st) && Lull(s0, s, mark, env) && !RunTerminal(s.st.run)
    requires (a.Approve? || a.Reject? || a.SubmitInput?) && Honest(s, a, env)
    ensures Lull(s0, Step(s, a), mark, env)
  {
    var next := Step(s, a);
    HumanShape(s, a, env);
    if next.st.nodes != s.st.nodes {
      TurnedRow(s0.st, s.st.nodes, mark, a.node, next.st.nodes[a.node], env);
    }
  }

  lemma ExhaustedLull(s0: System, st: RunState, mark: nat, env: Env)
    requires ParkedKinds(s0.st) && SkipClosed(s0.st.graph, s0.st.nodes) && !Unlockable(s0, env)
    requires Inv(st) && st.graph == s0.st.graph && st.tasks == s0.st.tasks && s0.clock <= mark && Drifted(s0.st, st.nodes, mark, env)
    ensures Exhausted(st, FailuresIn(st.graph, st.nodes, env))
  {
    DriftedClosed(s0.st, st.nodes, mark, env);
    forall n | n in ReadySet(st.graph, st.nodes)
      ensures IsPostponed(st.graph, FailuresIn(st.graph, st.nodes, env), n)
    {
      PendingHasNoTask(st, n);
      NothingUnlocked(s0, st.nodes, mark, env, n);
    }
  }

  lemma ScheduleLull(s0: System, s: System, mark: nat, a: Action, env: Env)
    requires ParkedKinds(s0.st) && SkipClosed(s0.st.graph, s0.st.nodes) && !Unlockable(s0, env)
    requires Inv(s.st) && Lull(s0, s, mark, env) && !RunTerminal(s.st.run) && a.ScheduleReady? && Honest(s, a, env)
    ensures Lull(s0, Step(s, a), mark, env)
  {
    ExhaustedLull(s0, s.st, mark, env);
    ScheduleIdle(s.st, a.unresolved, s.clock);
  }

  lemma DueLater(row: NodeRun, mark: nat, now: nat)
    requires DueWait(row, mark) && mark <= now
    ensures DueWait(row, now) && !DueWait(Elapsed(row), now)
  {
  }

  lemma ElapsedDrift(st: RunState, rows: map<NodeId, NodeRun>, mark: nat, now: nat, n: NodeId, env: Env)
    requires ParkedKinds(st) && n in st.nodes && n in rows && mark <= now && Drifts(st.graph, n, st.nodes[n], rows[n], mark, env)
    ensures Drifts(st.graph, n, st.nodes[n], MarkElapsed(rows, now)[n], now, env)
  {
    if st.nodes[n].status.NodeWaiting? && DueWait(st.nodes[n], mark) {
      DueLater(st.nodes[n], mark, now);
    }
  }

  lemma ElapsedDrifted(st: RunState, rows: map<NodeId, NodeRun>, mark: nat, now: nat, env: Env)
    requires ParkedKinds(st) && Drifted(st, rows, mark, env) && mark <= now
    ensures Drifted(st, MarkElapsed(rows, now), now, env)
  {
    forall n | n in st.nodes
      ensures Drifts(st.graph, n, st.nodes[n], MarkElapsed(rows, now)[n], now, env)
    {
      assert Drifts(st.graph, n, st.nodes[n], rows[n], mark, env);
      ElapsedDrift(st, rows, mark, now, n, env);
    }
  }

  lemma TransitionLull(st: RunState, derived: RunStatus, hidden: set<NodeId>)
    requires !HasLiveTask(st)
    ensures var r := AfterTransition(st, derived, hidden);
            && !HasLiveTask(r) && r.graph == st.graph && r.run == derived
            && (derived != RunFailed ==> r.nodes == st.nodes && r.tasks == st.tasks)
  {
  }

  /** Concluding on rows on which nothing can be queued. */
  lemma ConcludeLull(st: RunState, adv: RunState, u: Unresolved, unflushed: set<NodeId>, now: nat)
    requires (st.run.RunRunning? || st.run.RunWaiting?) && adv.run == st.run && adv.graph == st.graph
    requires !HasLiveTask(st) && !HasLiveTask(adv) && Exhausted(adv, u)
    ensures var r := Conclude(st, adv, u, unflushed, now).st;
            && !HasLiveTask(r) && r.graph == st.graph && !r.run.RunCreated?
            && (r == st || RunTerminal(r.run) || (r.nodes == adv.nodes && r.tasks == adv.tasks))
  {
    var derived, hidden := DeriveRun(adv.graph, adv.nodes), unflushed * (adv.tasks.Keys - st.tasks.Keys);
    TransitionLull(adv, derived, hidden);
    var moved := if derived == st.run then adv else AfterTransition(adv, derived, hidden);
    if derived == RunRunning {
      ScheduleIdle(moved, u, now);
    }
  }

  lemma AdvanceLull(s0: System, s: System, mark: nat, env: Env)
    requires ParkedKinds(s0.st) && SkipClosed(s0.st.graph, s0.st.nodes) && !Unlockable(s0, env)
    requires Inv(s.st) && Lull(s0, s, mark, env) && (s.st.run.RunRunning? || s.st.run.RunWaiting?)
    ensures var waits := AfterPromoteWaits(s.st, s.clock);
            var u := FailuresIn(s.st.graph, MarkElapsed(s.st.nodes, s.clock), env);
            && Drifted(s0.st, waits.nodes, s.clock, env) && waits.tasks == s.st.tasks && waits.run == s.st.run && waits.graph == s.st.graph
            && Exhausted(waits, u) && Advanced(s.st, u, s.clock) == waits
  {
    var waits := AfterPromoteWaits(s.st, s.clock);
    var u := FailuresIn(s.st.graph, MarkElapsed(s.st.nodes, s.clock), env);
    ElapsedDrifted(s0.st, s.st.nodes, mark, s.clock, env);
    PromotedKeeps(s.st, s.clock);
    PromotedInv(s.st, waits);
    ExhaustedLull(s0, waits, s.clock, env);
    ScheduleIdle(waits, u, s.clock);
  }

  lemma PausedLull(s: System, u: Unresolved, unflushed: set<NodeId>)
    requires !(s.st.run.RunRunning? || s.st.run.RunWaiting?) && !RunTerminal(s.st.run) && !s.st.run.RunCreated?
    ensures Step(s, ReconcileRun(u, unflushed)).st == s.st && Step(s, ReconcileRun(u, unflushed)).clock == s.clock
  {
  }

  lemma ReconcileStep(s: System, u: Unresolved, unflushed: set<NodeId>)
    requires s.st.run.RunRunning? || s.st.run.RunWaiting?
    ensures var next := Step(s, ReconcileRun(u, unflushed));
            next.clock == s.clock && next.st == Conclude(s.st, Advanced(s.st, u, s.clock), u, unflushed, s.clock).st
  {
  }

  lemma ReconcileLull(s0: System, s: System, mark: nat, a: Action, env: Env) returns (mark': nat)
    requires ParkedKinds(s0.st) && SkipClosed(s0.st.graph, s0.st.nodes) && !Unlockable(s0, env)
    requires Inv(s.st) && Lull(s0, s, mark, env) && !RunTerminal(s.st.run) && a.ReconcileRun? && Honest(s, a, env)
    ensures Lull(s0, Step(s, a), mark', env)
  {
    mark' := mark;
    if s.st.run.RunRunning? || s.st.run.RunWaiting? {
      AdvanceLull(s0, s, mark, env);
      ReconcileStep(s, a.unresolved, a.unflushed);
      var waits := AfterPromoteWaits(s.st, s.clock);
      ConcludeLull(s.st, waits, a.unresolved, a.unflushed, s.clock);
      if Step(s, a).st != s.st {
        mark' := s.clock;
      }
    } else {
      PausedLull(s, a.unresolved, a.unflushed);
    }
  }

  lemma TerminalLull(s0: System, s: System, mark: nat, a: Action, env: Env)
    requires Sane(s) && Lull(s0, s, mark, env) && RunTerminal(s.st.run)
    ensures Lull(s0, Step(s, a), mark, env)
  {
    StepSane(s, a);
    LawfulSince(s.st, Step(s, a).st, PermitOf(s, a));
  }

  lemma LullStep(s0: System, s: System, mark: nat, a: Action, env: Env) returns (mark': nat)
    requires ParkedKinds(s0.st) && SkipClosed(s0.st.graph, s0.st.nodes) && !Unlockable(s0, env)
    requires Sane(s) && Lull(s0, s, mark, env) && Honest(s, a, env)
    ensures Lull(s0, Step(s, a), mark', env)
  {
    mark' := mark;
    if RunTerminal(s.st.run) {
      TerminalLull(s0, s, mark, a, env);
    } else if a.ReconcileRun? {
      mark' := ReconcileLull(s0, s, mark, a, env);
    } else if a.ScheduleReady? {
      ScheduleLull(s0, s, mark, a, env);
    } else if a.Approve? || a.Reject? || a.SubmitInput? {
      HumanLull(s0, s, mark, a, env);
    } else if a.Tick? || a.StartRun? || a.PauseRun? || a.ResumeRun? || a.CancelRun? {
      ControlLull(s0, s, mark, a, env);
    } else if a.RunnerClaim? || a.Heartbeat? || a.SubmitResult? {
      RunnerIdle(s, a);
    } else if a.Recover? || a.PromoteRetries? {
      RepairIdle(s, a);
    } else {
      QueueIdle(s, a);
    }
  }

  lemma {:induction false} LullRun(s0: System, more: seq<Action>, env: Env) returns (mark: nat)
    requires ParkedKinds(s0.st) && SkipClosed(s0.st.graph, s0.st.nodes) && !Unlockable(s0, env)
    requires Sane(s0) && !HasLiveTask(s0.st) && s0.st.run.RunRunning? && NothingElapsed(s0.st.nodes, s0.clock)
    requires HonestFrom(s0, more, env)
    ensures Lull(s0, RunFrom(s0, more), mark, env)
    decreases |more|
  {
    if more == [] {
      mark := s0.clock;
      StartOfLull(s0, env);
    } else {
      var init := more[..|more| - 1];
      var before := LullRun(s0, init, env);
      SaneRun(s0, init);
      mark := LullStep(s0, RunFrom(s0, init), before, more[|more| - 1], env);
    }
  }

  lemma StartOfLull(s0: System, env: Env)
    requires !HasLiveTask(s0.st) && s0.st.run.RunRunning? && NothingElapsed(s0.st.nodes, s0.clock)
    ensures Lull(s0, s0, s0.clock, env)
  {
    forall n | n in s0.st.nodes
      ensures Drifts(s0.st.graph, n, s0.st.nodes[n], s0.st.nodes[n], s0.clock, env)
    {
    }
  }

  lemma NoRevival(s0: System, env: Env)
    requires Quiet(s0) && !Unlockable(s0, env)
    ensures !MayRevive(s0, env)
  {
    KindsOfParked(s0.st);
    forall more | HonestFrom(s0, more, env)
      ensures !HasLiveTask(RunFrom(s0, more).st)
    {
      var mark := LullRun(s0, more, env);
    }
  }

  // ----- with an unlocking answer -----

  /** The rows with the answers of `done` given. */
  ghost function Partly(st: RunState, rows: map<NodeId, NodeRun>, done: set<NodeId>): map<NodeId, NodeRun>
    requires rows.Keys == st.nodes.Keys
  {
    map n | n in st.nodes :: if n in done then rows[n] else st.nodes[n]
  }

  /** The human nodes whose answer the rows hold. */
  ghost function AnswersIn(st: RunState, rows: map<NodeId, NodeRun>): set<NodeId>
    requires rows.Keys == st.nodes.Keys
  {
    set n | n in st.nodes && st.nodes[n].status.NodeWaiting? && IsHumanId(st.graph, n) && rows[n] != st.nodes[n]
  }

  lemma ApproveStep(s: System, n: NodeId)
    requires Actionable(s.st, n, "approval", "HUMAN_APPROVAL")
    ensures var r := Step(s, Approve(n));
            && r.clock == s.clock && r.st.graph == s.st.graph && r.st.run == s.st.run && r.st.tasks == s.st.tasks
            && r.st.nodes == s.st.nodes[n := s.st.nodes[n].(status := NodeCompleted, output := Some(Obj(map["approved" := Bool(true)])))]
  {
  }

  lemma SubmitStep(s: System, n: NodeId, data: map<string, Json>)
    requires Actionable(s.st, n, "input", "HUMAN_INPUT")
    ensures var r := Step(s, SubmitInput(n, data, true));
            && r.clock == s.clock && r.st.graph == s.st.graph && r.st.run == s.st.run && r.st.tasks == s.st.tasks
            && r.st.nodes == s.st.nodes[n := s.st.nodes[n].(status := NodeCompleted, output := Some(Obj(data)))]
  {
  }

  /** Any answer a parked human node may get can be given. */
  lemma GiveAnswer(s: System, n: NodeId, row: NodeRun, env: Env) returns (a: Action)
    requires s.st.run.RunRunning? && n in s.st.nodes && s.st.nodes[n].status.NodeWaiting? && FitsRow(s.st.graph, n, s.st.nodes[n])
    requires IsParkedId(s.st.graph, n) && IsAnswer(s.st.graph, n, s.st.nodes[n], row, env)
    ensures Honest(s, a, env)
    ensures var r := Step(s, a);
            && r.clock == s.clock && r.st.graph == s.st.graph && r.st.run == s.st.run && r.st.tasks == s.st.tasks
            && r.st.nodes == s.st.nodes[n := row]
  {
    var node := FindNode(s.st.graph.nodes, n).value;
    var data :| (IsApproval(node) || TakesAnswer(s.st.graph, n, data, env)) && row == AnsweredRow(s.st.graph, n, s.st.nodes[n], data);
    if IsApproval(node) {
      a := Approve(n);
      ApproveStep(s, n);
    } else {
      a := SubmitInput(n, data, true);
      SubmitStep(s, n, data);
    }
  }

  lemma HonestSingle(s: System, a: Action, env: Env)
    requires Honest(s, a, env)
    ensures HonestFrom(s, [a], env) && RunFrom(s, [a]) == Step(s, a)
  {
    OneStep(s, a);
    assert [a][..0] == [];
    assert HonestFrom(s, [], env) && RunFrom(s, []) == s;
  }

  lemma {:induction false} HonestConcat(s: System, v: seq<Action>, w: seq<Action>, env: Env)
    requires HonestFrom(s, v, env) && HonestFrom(RunFrom(s, v), w, env)
    ensures HonestFrom(s, v + w, env)
    decreases |w|
  {
    if w == [] {
      assert v + w == v;
    } else {
      var init := w[..|w| - 1];
      HonestConcat(s, v, init, env);
      RunFromConcat(s, v, init);
      assert (v + w)[..|v + w| - 1] == v + init && (v + w)[|v + w| - 1] == w[|w| - 1];
    }
  }

  /** The rows on the way from `s0` to the answers. */
  ghost predicate OnTheWay(s0: System, s: System, rows: map<NodeId, NodeRun>, done: set<NodeId>)
    requires rows.Keys == s0.st.nodes.Keys
  {
    && s.st.graph == s0.st.graph && s.st.run == s0.st.run && s.st.tasks == s0.st.tasks
    && s.st.nodes == Partly(s0.st, rows, done)
  }

  ghost predicate ParkedAreParked(st: RunState) {
    forall n {:trigger st.nodes[n]} :: n in st.nodes && st.nodes[n].status.NodeWaiting? ==>
      IsParkedId(st.graph, n) && FitsRow(st.graph, n, st.nodes[n])
  }

  lemma ParkedIds(st: RunState)
    requires Inv(st) && Fits(st)
    ensures ParkedAreParked(st)
  {
    forall n | n in st.nodes && st.nodes[n].status.NodeWaiting?
      ensures IsParkedId(st.graph, n) && FitsRow(st.graph, n, st.nodes[n])
    {
      assert NodeOk(st, n);
      WaitingKind(IsInputId(st.graph, n), IsParkedId(st.graph, n), st.run, st.nodes[n], TaskOf(st, n));
    }
  }

  lemma AnswerIsAnswer(st: RunState, rows: map<NodeId, NodeRun>, mark: nat, n: NodeId, env: Env)
    requires ParkedKinds(st) && Answered(st, rows, mark, env) && n in AnswersIn(st, rows)
    ensures IsAnswer(st.graph, n, st.nodes[n], rows[n], env)
  {
    assert MayBecome(st.graph, n, st.nodes[n], rows[n], mark, env);
    assert !DueWait(st.nodes[n], mark);
  }

  lemma PartlyOne(st: RunState, rows: map<NodeId, NodeRun>, done: set<NodeId>, n: NodeId)
    requires rows.Keys == st.nodes.Keys && n in st.nodes && n !in done
    ensures Partly(st, rows, done)[n] == st.nodes[n]
    ensures Partly(st, rows, done + {n}) == Partly(st, rows, done)[n := rows[n]]
  {
  }

  /** Give one answer after the other. */
  lemma {:induction false} GiveAll(s0: System, s: System, rows: map<NodeId, NodeRun>, mark: nat, done: set<NodeId>, env: Env)
    returns (acts: seq<Action>, r: System)
    requires ParkedKinds(s0.st) && ParkedAreParked(s0.st) && s0.st.run.RunRunning? && Answered(s0.st, rows, mark, env)
    requires done <= AnswersIn(s0.st, rows) && OnTheWay(s0, s, rows, done)
    ensures r == RunFrom(s, acts) && HonestFrom(s, acts, env) && r.clock == s.clock
    ensures OnTheWay(s0, r, rows, AnswersIn(s0.st, rows))
    decreases AnswersIn(s0.st, rows) - done
  {
    if done == AnswersIn(s0.st, rows) {
      acts, r := [], s;
    } else {
      var n :| n in AnswersIn(s0.st, rows) && n !in done;
      AnswerIsAnswer(s0.st, rows, mark, n, env);
      PartlyOne(s0.st, rows, done, n);
      var a := GiveAnswer(s, n, rows[n], env);
      var rest;
      rest, r := GiveAll(s0, Step(s, a), rows, mark, done + {n}, env);
      HonestSingle(s, a, env);
      HonestConcat(s, [a], rest, env);
      RunFromConcat(s, [a], rest);
      acts := [a] + rest;
    }
  }

  lemma ElapsedAnswers(st: RunState, rows: map<NodeId, NodeRun>, mark: nat, env: Env)
    requires ParkedKinds(st) && Answered(st, rows, mark, env)
    ensures MarkElapsed(Partly(st, rows, AnswersIn(st, rows)), mark) == rows
  {
    var part := Partly(st, rows, AnswersIn(st, rows));
    forall n | n in st.nodes
      ensures MarkElapsed(part, mark)[n] == rows[n]
    {
      assert MayBecome(st.graph, n, st.nodes[n], rows[n], mark, env);
    }
  }

  lemma AnsweredIsDrifted(st: RunState, rows: map<NodeId, NodeRun>, mark: nat, env: Env)
    requires Answered(st, rows, mark, env)
    ensures Drifted(st, rows, mark, env)
  {
    forall n | n in st.nodes
      ensures Drifts(st.graph, n, st.nodes[n], rows[n], mark, env)
    {
      assert MayBecome(st.graph, n, st.nodes[n], rows[n], mark, env);
    }
  }

  /** A ready, resolvable node of the rows a reconcile sees gets its task. */
  lemma ReconcileQueues(st: RunState, u: Unresolved, now: nat, x: NodeId)
    requires st.run.RunRunning? && SkipClosed(st.graph, TimersElapsed(st, now))
    requires x !in st.tasks && Ready(st.graph, TimersElapsed(st, now), x) && !IsPostponed(st.graph, u, x)
    ensures x in ToQueue(st, u, now)
  {
    ClosedRowsStay(st.graph, TimersElapsed(st, now));
  }

  lemma ConcludeKeepsTasks(st: RunState, adv: RunState, u: Unresolved, unflushed: set<NodeId>, now: nat, x: NodeId)
    requires adv.run == st.run && (st.run.RunRunning? || st.run.RunWaiting?) && Conclude(st, adv, u, unflushed, now).outcome.Accepted?
    requires !Exists(adv.nodes, NodeFailed) && x in adv.tasks
    ensures var r := Conclude(st, adv, u, unflushed, now).st;
            x in r.tasks && r.tasks[x] == adv.tasks[x]
  {
  }

  ghost function LifeOf(st: RunState): Verdict {
    if HasLiveTask(st) then Consistent else Broken
  }

  lemma NewIsLive(r: RunState, adv: RunState, x: NodeId)
    requires x in r.tasks && x in adv.tasks && r.tasks[x] == adv.tasks[x] && adv.tasks[x].status.TaskPending?
    ensures LifeOf(r) == Consistent
  {
  }

  lemma RunningAccepts(st: RunState, adv: RunState, u: Unresolved, unflushed: set<NodeId>, now: nat)
    requires st.run.RunRunning?
    ensures Conclude(st, adv, u, unflushed, now).outcome.Accepted?
  {
  }

  /** The first half of a reconcile queues what was foreseen and fails nothing. */
  lemma QueuedFirst(st: RunState, u: Unresolved, now: nat, x: NodeId)
    requires x in ToQueue(st, u, now) && !Exists(st.nodes, NodeFailed)
    ensures var adv := Advanced(st, u, now);
            adv.run == st.run && x in adv.tasks && adv.tasks[x].status.TaskPending? && !Exists(adv.nodes, NodeFailed)
  {
    QueuedAsForeseen(st, u, now);
    ScheduleKeeps(AfterPromoteWaits(st, now), u, now);
    AdvancedFailure(st, u, now);
    AdvancedKeys(st, u, now);
  }

  lemma QueuedLives(st: RunState, u: Unresolved, now: nat, x: NodeId)
    requires st.run.RunRunning? && x in ToQueue(st, u, now) && !Exists(st.nodes, NodeFailed)
    ensures LifeOf(Conclude(st, Advanced(st, u, now), u, {}, now).st) == Consistent
  {
    var adv := Advanced(st, u, now);
    QueuedFirst(st, u, now, x);
    RunningAccepts(st, adv, u, {}, now);
    ConcludeKeepsTasks(st, adv, u, {}, now, x);
    NewIsLive(Conclude(st, adv, u, {}, now).st, adv, x);
  }

  lemma TickStep(s: System, d: nat)
    ensures Step(s, Tick(d)) == System(s.st, s.clock + d, s.grants)
  {
  }

  lemma NoFailureOnTheWay(s0: System, s: System, rows: map<NodeId, NodeRun>, mark: nat, env: Env)
    requires ParkedKinds(s0.st) && Answered(s0.st, rows, mark, env) && OnTheWay(s0, s, rows, AnswersIn(s0.st, rows)) && !Exists(s0.st.nodes, NodeFailed)
    ensures !Exists(s.st.nodes, NodeFailed)
  {
    forall n | n in s.st.nodes
      ensures s.st.nodes[n].status != NodeFailed
    {
      if n in AnswersIn(s0.st, rows) {
        AnswerIsAnswer(s0.st, rows, mark, n, env);
      }
    }
  }

  lemma LastRows(s0: System, s: System, rows: map<NodeId, NodeRun>, mark: nat, x: NodeId, env: Env)
    requires ParkedKinds(s0.st) && SkipClosed(s0.st.graph, s0.st.nodes) && !Exists(s0.st.nodes, NodeFailed) && s0.st.run.RunRunning?
    requires Unlocks(s0, env, rows, mark, x) && s.clock == mark && OnTheWay(s0, s, rows, AnswersIn(s0.st, rows))
    ensures var u := FailuresIn(s.st.graph, rows, env);
            && Honest(s, ReconcileRun(u, {}), env) && s.st.run.RunRunning?
            && !Exists(s.st.nodes, NodeFailed) && x in ToQueue(s.st, u, s.clock)
  {
    ElapsedAnswers(s0.st, rows, mark, env);
    AnsweredIsDrifted(s0.st, rows, mark, env);
    DriftedClosed(s0.st, rows, mark, env);
    NoFailureOnTheWay(s0, s, rows, mark, env);
    ReconcileQueues(s.st, FailuresIn(s.st.graph, rows, env), mark, x);
  }

  lemma LiveAfterStep(s: System, u: Unresolved)
    requires s.st.run.RunRunning? && LifeOf(Conclude(s.st, Advanced(s.st, u, s.clock), u, {}, s.clock).st) == Consistent
    ensures LifeOf(Step(s, ReconcileRun(u, {})).st) == Consistent
  {
    ReconcileStep(s, u, {});
  }

  lemma LifeIsLive(st: RunState)
    requires LifeOf(st) == Consistent
    ensures HasLiveTask(st)
  {
  }

  /** Wait until `mark` and give the answers. */
  lemma WaitAndAnswer(s0: System, rows: map<NodeId, NodeRun>, mark: nat, env: Env) returns (acts: seq<Action>, r: System)
    requires ParkedKinds(s0.st) && ParkedAreParked(s0.st) && s0.st.run.RunRunning?
    requires s0.clock <= mark && Answered(s0.st, rows, mark, env)
    ensures r == RunFrom(s0, acts) && HonestFrom(s0, acts, env) && r.clock == mark
    ensures OnTheWay(s0, r, rows, AnswersIn(s0.st, rows))
  {
    var tick := Tick(mark - s0.clock);
    TickStep(s0, mark - s0.clock);
    HonestSingle(s0, tick, env);
    assert Partly(s0.st, rows, {}) == s0.st.nodes;
    var answers;
    answers, r := GiveAll(s0, Step(s0, tick), rows, mark, {}, env);
    HonestConcat(s0, [tick], answers, env);
    RunFromConcat(s0, [tick], answers);
    acts := [tick] + answers;
  }

  lemma OneMore(s0: System, acts: seq<Action>, r: System, last: Action, env: Env)
    requires r == RunFrom(s0, acts) && HonestFrom(s0, acts, env) && Honest(r, last, env)
    ensures HonestFrom(s0, acts + [last], env) && RunFrom(s0, acts + [last]) == Step(r, last)
  {
    HonestSingle(r, last, env);
    HonestConcat(s0, acts, [last], env);
    RunFromConcat(s0, acts, [last]);
  }

  lemma Revive(s0: System, rows: map<NodeId, NodeRun>, mark: nat, x: NodeId, env: Env) returns (more: seq<Action>)
    requires Quiet(s0) && Unlocks(s0, env, rows, mark, x)
    ensures HonestFrom(s0, more, env) && HasLiveTask(RunFrom(s0, more).st)
  {
    KindsOfParked(s0.st);
    ParkedIds(s0.st);
    var acts, r := WaitAndAnswer(s0, rows, mark, env);
    var u := FailuresIn(r.st.graph, rows, env);
    LastRows(s0, r, rows, mark, x, env);
    QueuedLives(r.st, u, r.clock, x);
    LiveAfterStep(r, u);
    LifeIsLive(Step(r, ReconcileRun(u, {})).st);
    OneMore(s0, acts, r, ReconcileRun(u, {}), env);
    more := acts + [ReconcileRun(u, {})];
  }

  lemma RevivesWhenUnlockable(s0: System, env: Env)
    requires Quiet(s0)
    ensures MayRevive(s0, env) <==> Unlockable(s0, env)
  {
    if Unlockable(s0, env) {
      var rows, mark, x :| Unlocks(s0, env, rows, mark, x);
      var more := Revive(s0, rows, mark, x, env);
    } else {
      NoRevival(s0, env);
    }
  }

  // ----- stalled runs -----

  /** The state after a reconcile of a reachable run, if that leaves it RUNNING
      without a live task, is quiet. */
  lemma StalledIsQuiet(s: System, u: Unresolved, unflushed: set<NodeId>)
    requires Sane(s) && Fits(s.st) && (s.st.run.RunRunning? || s.st.run.RunWaiting?)
    requires Step(s, ReconcileRun(u, unflushed)).st.run.RunRunning? && !HasLiveTask(Step(s, ReconcileRun(u, unflushed)).st)
    ensures Quiet(Step(s, ReconcileRun(u, unflushed)))
  {
    var a := ReconcileRun(u, unflushed);
    StepSane(s, a);
    FitsStep(s, a);
    ReconcileStep(s, u, unflushed);
    ReconcileRuns(s.st, u, unflushed, s.clock);
    ReconciledFacts(Step(s, a).st, u, s.clock);
  }

  /** Exactly when a stalled run can have a live task again: take any reachable
      run that a reconcile left RUNNING without a live task. Some continuation,
      whose scheduling reports what really fails to resolve, has a live task if
      and only if there are answers to parked human nodes, which their form schemas
      take, and a clock reading under which some node is ready and its inputs
      resolve. */
  lemma RevivesExactly(g: Graph, input: Json, acts: seq<Action>, u: Unresolved, unflushed: set<NodeId>, env: Env)
    requires Publishable(g)
    requires Execute(g, input, acts).st.run.RunRunning? || Execute(g, input, acts).st.run.RunWaiting?
    requires var s := Step(Execute(g, input, acts), ReconcileRun(u, unflushed));
             s.st.run.RunRunning? && !HasLiveTask(s.st)
    ensures var s := Step(Execute(g, input, acts), ReconcileRun(u, unflushed));
            MayRevive(s, env) <==> Unlockable(s, env)
  {
    AlwaysSane(g, input, acts);
    AlwaysFits(g, input, acts);
    StalledIsQuiet(Execute(g, input, acts), u, unflushed);
    RevivesWhenUnlockable(Step(Execute(g, input, acts), ReconcileRun(u, unflushed)), env);
  }
}
