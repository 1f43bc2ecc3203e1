/** Where a node's work is executed: the lane, the Runner it is pinned to and the
    attempt budget of its task are those of the node in the graph, for good. */
module Lanes {
  import opened Basics
  import opened StateMachines
  import opened Graphs
  import opened RunRows
  import opened Scheduling
  import opened SchedulerRules
  import opened Runtime
  import opened Invariant
  import opened RuntimeSafety
  import opened History
  import opened Recovery
  import opened Fencing

  /** The retries the settings ask for: the graph's own setting, and the policy of
      the action for HTTP services; a setting outside 0..10 counts as the nearest
      end. */
  predicate Budgets(node: Node, budget: nat) {
    var raw := match node.retry
               case GraphRetry(r) => r
               case ActionPolicy(r) => if node.nodeType.Service? && node.subtype == "http" then r else None
               case NoRetry => None;
    match raw
    case None => budget == 1
    case Some(r) => if r < 0 then budget == 1 else if r > 10 then budget == 11 else budget == r + 1
  }

  /** A Tool goes to the Runner it is pinned to; a Codex agent does, or falls
      back to the Worker; everything else is the Worker's. */
  predicate LaneOf(node: Node, t: Task) {
    && Budgets(node, t.maxAttempts)
    && if node.nodeType.Tool? then t.capability == Some("shell") && t.runner == node.runner
       else if node.nodeType.Agent? && node.codex && t.capability.Some?
       then t.capability == Some("codex") && t.runner == node.runner
       else t.capability.None? && t.runner.None?
  }

  predicate InLane(g: Graph, n: NodeId, t: Task) {
    var node := FindNode(g.nodes, n);
    node.Some? ==> LaneOf(node.value, t)
  }

  ghost predicate AllInLane(st: RunState) {
    forall n {:trigger InLane(st.graph, n, st.tasks[n])} :: n in st.tasks ==> InLane(st.graph, n, st.tasks[n])
  }

  lemma NewLane(node: Node, u: Unresolved, now: nat)
    requires !DispatchOf(node, u).Postponed?
    ensures LaneOf(node, NewTask(node, u, now))
  {
  }

  lemma TaskForInLane(g: Graph, n: NodeId, u: Unresolved, now: nat)
    requires !IsPostponed(g, u, n)
    ensures InLane(g, n, TaskFor(g, n, u, now))
  {
    var node := FindNode(g.nodes, n);
    if node.Some? {
      NewLane(node.value, u, now);
    }
  }

  // ----- new tasks -----

  lemma ScheduledTask(st: RunState, u: Unresolved, now: nat, n: NodeId)
    requires n in AfterSchedule(st, u, now).tasks && n !in st.tasks
    ensures AfterSchedule(st, u, now).tasks[n] == TaskFor(st.graph, n, u, now) && !IsPostponed(st.graph, u, n)
  {
  }

  lemma ScheduledInLane(st: RunState, u: Unresolved, now: nat, n: NodeId)
    requires n in AfterSchedule(st, u, now).tasks && n !in st.tasks
    ensures InLane(st.graph, n, AfterSchedule(st, u, now).tasks[n])
  {
    ScheduledTask(st, u, now, n);
    TaskForInLane(st.graph, n, u, now);
  }

  predicate SameLane(t: Task, t': Task) {
    t'.maxAttempts == t.maxAttempts && t'.capability == t.capability && t'.runner == t.runner
  }

  lemma ScheduleKeepsLane(st: RunState, u: Unresolved, now: nat, n: NodeId)
    requires n in st.tasks
    ensures n in AfterSchedule(st, u, now).tasks && AfterSchedule(st, u, now).tasks[n] == st.tasks[n]
  {
  }

  lemma TransitionKeepsLane(st: RunState, derived: RunStatus, hidden: set<NodeId>, n: NodeId)
    ensures var next := AfterTransition(st, derived, hidden);
            && next.graph == st.graph && next.tasks.Keys == st.tasks.Keys
            && (n in st.tasks ==> SameLane(st.tasks[n], next.tasks[n]))
  {
  }

  lemma ReconciledInLane(st: RunState, u: Unresolved, unflushed: set<NodeId>, now: nat, n: NodeId)
    requires n in AfterReconcile(st, u, unflushed, now).st.tasks && n !in st.tasks
    ensures InLane(st.graph, n, AfterReconcile(st, u, unflushed, now).st.tasks[n])
  {
    var waits := AfterPromoteWaits(st, now);
    assert waits.tasks == st.tasks && waits.graph == st.graph;
    if n in Advanced(st, u, now).tasks {
      ScheduledInLane(waits, u, now, n);
    }
    ConcludedInLane(st, Advanced(st, u, now), u, unflushed, now, n);
  }

  lemma ConcludedInLane(st: RunState, adv: RunState, u: Unresolved, unflushed: set<NodeId>, now: nat, n: NodeId)
    requires adv.graph == st.graph && n !in st.tasks && n in Conclude(st, adv, u, unflushed, now).st.tasks
    requires n in adv.tasks ==> InLane(st.graph, n, adv.tasks[n])
    ensures InLane(st.graph, n, Conclude(st, adv, u, unflushed, now).st.tasks[n])
  {
    var derived, hidden := DeriveRun(adv.graph, adv.nodes), unflushed * (adv.tasks.Keys - st.tasks.Keys);
    TransitionKeepsLane(adv, derived, hidden, n);
    var moved := if derived == st.run then adv else AfterTransition(adv, derived, hidden);
    if n in adv.tasks {
      ScheduleKeepsLane(moved, u, now, n);
    } else {
      ScheduledInLane(moved, u, now, n);
    }
  }

  lemma NewTaskInLane(s: System, a: Action, n: NodeId)
    requires n in Step(s, a).st.tasks && n !in s.st.tasks
    ensures InLane(s.st.graph, n, Step(s, a).st.tasks[n])
  {
    match a
    case ScheduleReady(u) => ScheduledInLane(s.st, u, s.clock, n);
    case ReconcileRun(u, unflushed) => ReconciledInLane(s.st, u, unflushed, s.clock, n);
    case _ =>
      if a.Claim? || a.StartTask? || a.Complete? || a.Fail? || a.Park? || a.Retry? || a.Renew? {
        WorkerKeys(s, a);
      } else {
        OtherKeys(s, a);
      }
  }

  lemma LawKeepsLane(run: RunStatus, t: Task, t': Task, permit: Permit)
    requires JudgeTask(run, t, t', permit) == Consistent
    ensures SameLane(t, t')
  {
  }

  lemma GraphKept(s: System, a: Action)
    requires Sane(s)
    ensures Step(s, a).st.graph == s.st.graph
  {
    StepSane(s, a);
    LawfulSince(s.st, Step(s, a).st, PermitOf(s, a));
  }

  lemma LaneStep(s: System, a: Action)
    requires Sane(s) && AllInLane(s.st)
    ensures AllInLane(Step(s, a).st)
  {
    GraphKept(s, a);
    forall n | n in Step(s, a).st.tasks
      ensures InLane(Step(s, a).st.graph, n, Step(s, a).st.tasks[n])
    {
      if n in s.st.tasks {
        StepTask(s, a, n);
        LawKeepsLane(s.st.run, s.st.tasks[n], Step(s, a).st.tasks[n], PermitOf(s, a));
        assert InLane(s.st.graph, n, s.st.tasks[n]);
      } else {
        NewTaskInLane(s, a, n);
      }
    }
  }

  // ----- who was ever granted the work -----

  predicate GrantFits(g: Graph, grant: Grant) {
    var node := FindNode(g.nodes, grant.node);
    node.Some? && node.value.nodeType.Tool? && node.value.runner.Some? ==> Some(grant.who) == node.value.runner
  }

  ghost predicate GrantsFit(s: System) {
    forall token {:trigger GrantFits(s.st.graph, s.grants[token])} :: token in s.grants ==> GrantFits(s.st.graph, s.grants[token])
  }

  lemma ClaimFits(s: System, a: Action)
    requires (a.Claim? || a.RunnerClaim?) && ReplyTo(s, a).outcome.Accepted?
    requires a.node in s.st.tasks ==> InLane(s.st.graph, a.node, s.st.tasks[a.node])
    ensures forall attempt: nat :: GrantFits(s.st.graph, Grant(a.node, a.who, attempt))
  {
  }

  lemma GrantStep(s: System, a: Action)
    requires Sane(s) && AllInLane(s.st) && GrantsFit(s)
    ensures GrantsFit(Step(s, a))
  {
    GraphKept(s, a);
    if (a.Claim? || a.RunnerClaim?) && ReplyTo(s, a).outcome.Accepted? {
      if a.node in s.st.tasks {
        assert InLane(s.st.graph, a.node, s.st.tasks[a.node]);
      }
      ClaimFits(s, a);
    }
    forall token | token in Step(s, a).grants
      ensures GrantFits(Step(s, a).st.graph, Step(s, a).grants[token])
    {
      if token in s.grants {
        assert GrantFits(s.st.graph, s.grants[token]);
      }
    }
  }

  lemma {:induction false} LaneRun(s: System, acts: seq<Action>)
    requires Sane(s) && AllInLane(s.st) && GrantsFit(s)
    ensures AllInLane(RunFrom(s, acts).st) && GrantsFit(RunFrom(s, acts))
    decreases |acts|
  {
    if acts != [] {
      var init := acts[..|acts| - 1];
      LaneRun(s, init);
      SaneRun(s, init);
      LaneStep(RunFrom(s, init), acts[|acts| - 1]);
      GrantStep(RunFrom(s, init), acts[|acts| - 1]);
    }
  }

  lemma AlwaysInLane(g: Graph, input: Json, acts: seq<Action>)
    requires Publishable(g)
    ensures AllInLane(Execute(g, input, acts).st) && GrantsFit(Execute(g, input, acts)) && Sane(Execute(g, input, acts))
    ensures Execute(g, input, acts).st.graph == g
  {
    AlwaysSane(g, input, []);
    AlwaysSane(g, input, acts);
    LaneRun(Created(g, input), acts);
  }

  /** In every reachable state every task has the budget, the lane and the Runner
      its node asks for. */
  lemma LaneIsConfigured(g: Graph, input: Json, acts: seq<Action>, node: Node)
    requires Publishable(g) && node in g.nodes && node.id in Execute(g, input, acts).st.tasks
    ensures LaneOf(node, Execute(g, input, acts).st.tasks[node.id])
  {
    AlwaysInLane(g, input, acts);
    FindNodeUnique(g, node);
    assert InLane(g, node.id, Execute(g, input, acts).st.tasks[node.id]);
  }

  /** Local work never leaves its machine: whatever claims are made, every lease
      ever granted on a pinned Tool was granted to the Runner it is pinned to, and
      no one else holds its task now. */
  lemma OnlyItsRunner(g: Graph, input: Json, acts: seq<Action>, node: Node, runner: string, token: Token)
    requires Publishable(g) && node in g.nodes && node.nodeType.Tool? && node.runner == Some(runner)
    requires token in Execute(g, input, acts).grants && Execute(g, input, acts).grants[token].node == node.id
    ensures Execute(g, input, acts).grants[token].who == runner
    ensures TokenOn(Execute(g, input, acts), node.id, token) ==> Execute(g, input, acts).st.tasks[node.id].lockedBy == Some(runner)
  {
    var s := Execute(g, input, acts);
    AlwaysInLane(g, input, acts);
    FindNodeUnique(g, node);
    assert GrantFits(g, s.grants[token]);
    if TokenOn(s, node.id, token) {
      assert LeaseOk(s.grants, node.id, s.st.tasks[node.id]);
    }
  }

  // ----- capabilities -----

  /** The `k`th action is the accepted claim that handed out `token`, by a Runner
      that named the capability. */
  predicate ClaimedWith(g: Graph, input: Json, acts: seq<Action>, k: nat, grant: Grant, token: Token, capability: string) {
    && k < |acts| && ReplyTo(Execute(g, input, acts[..k]), acts[k]).outcome.Accepted?
    && match acts[k]
       case RunnerClaim(n, who, capabilities, t, _) =>
         n == grant.node && who == grant.who && t == token && capability in capabilities
       case _ => false
  }

  lemma NewGrant(s: System, a: Action, token: Token)
    requires token !in s.grants && token in Step(s, a).grants
    ensures var n := Step(s, a).grants[token].node;
            && n in s.st.tasks && n in Step(s, a).st.tasks && SameLane(s.st.tasks[n], Step(s, a).st.tasks[n])
            && ReplyTo(s, a).outcome.Accepted?
            && (s.st.tasks[n].capability.None? ||
                (a.RunnerClaim? && a.node == n && a.who == Step(s, a).grants[token].who && a.token == token
                 && s.st.tasks[n].capability.value in a.capabilities))
  {
  }

  lemma OldGrant(s: System, a: Action, token: Token)
    requires Sane(s) && token in s.grants && s.grants[token].node in s.st.tasks
    ensures token in Step(s, a).grants && Step(s, a).grants[token] == s.grants[token]
    ensures var n := s.grants[token].node;
            n in Step(s, a).st.tasks && SameLane(s.st.tasks[n], Step(s, a).st.tasks[n])
  {
    var n := s.grants[token].node;
    StepTask(s, a, n);
    LawKeepsLane(s.st.run, s.st.tasks[n], Step(s, a).st.tasks[n], PermitOf(s, a));
    StepSane(s, a);
    GrantsGrow(s, a);
  }

  /** A grant is for a task that exists, and if that task asks for a capability it
      came from a claim that named it. */
  ghost predicate Qualified(g: Graph, input: Json, acts: seq<Action>, token: Token) {
    var s := Execute(g, input, acts);
    token in s.grants ==>
      && s.grants[token].node in s.st.tasks
      && forall c :: s.st.tasks[s.grants[token].node].capability == Some(c) ==>
           exists k: nat :: ClaimedWith(g, input, acts, k, s.grants[token], token, c)
  }

  lemma QualifiedLonger(g: Graph, input: Json, acts: seq<Action>, k: nat, grant: Grant, token: Token, c: string)
    requires acts != [] && ClaimedWith(g, input, acts[..|acts| - 1], k, grant, token, c)
    ensures ClaimedWith(g, input, acts, k, grant, token, c)
  {
    assert acts[..|acts| - 1][..k] == acts[..k];
  }

  lemma {:induction false} AlwaysQualified(g: Graph, input: Json, acts: seq<Action>, token: Token)
    requires Publishable(g)
    ensures Qualified(g, input, acts, token)
    decreases |acts|
  {
    if acts != [] {
      var init, last := acts[..|acts| - 1], acts[|acts| - 1];
      var s, next := Execute(g, input, init), Execute(g, input, acts);
      AlwaysQualified(g, input, init, token);
      AlwaysSane(g, input, init);
      if token in s.grants {
        OldGrant(s, last, token);
        forall c | next.st.tasks[next.grants[token].node].capability == Some(c)
          ensures exists k: nat :: ClaimedWith(g, input, acts, k, next.grants[token], token, c)
        {
          var k: nat :| ClaimedWith(g, input, init, k, s.grants[token], token, c);
          QualifiedLonger(g, input, acts, k, s.grants[token], token, c);
        }
      } else if token in next.grants {
        NewGrant(s, last, token);
        forall c | next.st.tasks[next.grants[token].node].capability == Some(c)
          ensures exists k: nat :: ClaimedWith(g, input, acts, k, next.grants[token], token, c)
        {
          assert ClaimedWith(g, input, acts, |acts| - 1, next.grants[token], token, c);
        }
      }
    }
  }

  /** Work that asks for a capability is only ever handed to a Runner that named
      it in its claim. */
  lemma GrantsAreQualified(g: Graph, input: Json, acts: seq<Action>, token: Token, capability: string)
    requires Publishable(g) && token in Execute(g, input, acts).grants
    ensures var s := Execute(g, input, acts);
            && s.grants[token].node in s.st.tasks
            && (s.st.tasks[s.grants[token].node].capability == Some(capability) ==>
                  exists k: nat :: ClaimedWith(g, input, acts, k, s.grants[token], token, capability))
  {
    AlwaysQualified(g, input, acts, token);
  }
}
