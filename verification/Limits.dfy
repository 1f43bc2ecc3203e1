/** What the runtime does not promise, each with runs that show it. */
module Limits {
  import opened Basics
  import opened StateMachines
  import opened Graphs
  import opened RunRows
  import opened QueueRules
  import opened Runtime
  import opened Invariant
  import opened RuntimeSafety
  import opened History
  import opened Recovery

  // ----- the attempt budget does not bound attempts -----

  /** The task is being executed in a RUNNING run. */
  ghost predicate Executing(s: System, n: NodeId) {
    && Sane(s) && Punctual(s) && s.st.run.RunRunning?
    && n in s.st.tasks && s.st.tasks[n].status.TaskRunning?
  }

  lemma NewToken(grants: map<Token, Grant>) returns (token: Token)
    ensures token !in grants
  {
    var bound := Bound(grants.Keys);
    token := bound;
  }

  ghost function Bound(tokens: set<Token>): (b: Token)
    ensures forall t :: t in tokens ==> t < b
    decreases tokens
  {
    if tokens == {} then 0
    else
      var t :| t in tokens;
      var rest := Bound(tokens - {t});
      assert tokens == (tokens - {t}) + {t};
      if t < rest then rest else t + 1
  }

  lemma OneStep(s: System, a: Action)
    ensures RunFrom(s, [a]) == Step(s, a)
  {
    assert [a][..0] == [];
    assert RunFrom(s, []) == s;
  }

  lemma TwoSteps(s: System, a: Action, b: Action)
    ensures RunFrom(s, [a, b]) == Step(Step(s, a), b)
  {
    assert [a, b][..1] == [a];
    OneStep(s, a);
  }

  lemma StepKeeps(s: System, a: Action)
    requires Sane(s) && Punctual(s)
    ensures Sane(Step(s, a)) && Punctual(Step(s, a))
  {
    StepSane(s, a);
    PunctualStep(s, a);
  }

  lemma RecoveredTask(s: System, n: NodeId)
    requires n in s.st.tasks && Expired(s.st.tasks[n], s.clock)
    ensures var r := Step(s, Recover({}));
            r.st.run == s.st.run && n in r.st.tasks && r.st.tasks[n] == Unleased(s.st.tasks[n]).(status := TaskPending)
  {
    RecoverStep(s, {});
  }

  lemma ExpiryStep(s: System, n: NodeId, seconds: nat)
    requires n in s.st.tasks && s.st.tasks[n].status.TaskRunning? && s.st.tasks[n].expires.Some? && s.st.tasks[n].expires.value < seconds
    ensures var r := Step(s, Tick(seconds));
            r.st == s.st && Expired(r.st.tasks[n], r.clock)
  {
  }

  lemma QueuedRow(input: bool, parked: bool, run: RunStatus, row: NodeRun, t: Task)
    requires Judge(input, parked, run, row, Some(t)) == Consistent && t.status.TaskPending?
    ensures row.status.NodeRunning? || row.status.NodeQueued?
  {
  }

  lemma QueuedNode(st: RunState, n: NodeId)
    requires Inv(st) && n in st.tasks && st.tasks[n].status.TaskPending?
    ensures n in st.nodes && (st.nodes[n].status.NodeRunning? || st.nodes[n].status.NodeQueued?)
  {
    assert n in st.nodes && NodeOk(st, n);
    QueuedRow(IsInputId(st.graph, n), IsParkedId(st.graph, n), st.run, st.nodes[n], st.tasks[n]);
  }

  /** The rows of a task that can be started at once. */
  predicate Offered(st: RunState, n: NodeId, now: nat) {
    Claimable(st, n, now) && (st.nodes[n].status.NodeRunning? || st.nodes[n].status.NodeQueued?)
  }

  /** The task is queued in a RUNNING run. */
  ghost predicate Startable(s: System, n: NodeId) {
    Sane(s) && Punctual(s) && Offered(s.st, n, s.clock)
  }

  lemma PendingOnTime(s: System, n: NodeId)
    requires Punctual(s) && n in s.st.tasks && s.st.tasks[n].status.TaskPending?
    ensures s.st.tasks[n].availableAt <= s.clock
  {
    assert OnTime(s.st.tasks[n], s.clock);
  }

  lemma QueuedIsOffered(st: RunState, n: NodeId, now: nat)
    requires Inv(st) && st.run.RunRunning? && n in st.tasks && st.tasks[n].status.TaskPending? && st.tasks[n].availableAt <= now
    ensures Offered(st, n, now)
  {
    QueuedNode(st, n);
  }

  lemma ExpireAndRecover(s: System, n: NodeId) returns (acts: seq<Action>, r: System)
    requires Executing(s, n)
    ensures r == RunFrom(s, acts)
    ensures Startable(r, n) && r.st.tasks[n].attempt == s.st.tasks[n].attempt
  {
    TaskShapeOf(s.st, n);
    var wait := Tick(s.st.tasks[n].expires.value + 1);
    ExpiryStep(s, n, wait.seconds);
    StepKeeps(s, wait);
    RecoveredTask(Step(s, wait), n);
    StepKeeps(Step(s, wait), Recover({}));
    TwoSteps(s, wait, Recover({}));
    acts, r := [wait, Recover({})], Step(Step(s, wait), Recover({}));
    PendingOnTime(r, n);
    QueuedIsOffered(r.st, n, r.clock);
  }

  lemma ClaimShape(s: System, n: NodeId, who: string, token: Token, lease: nat)
    requires token !in s.grants && Claimable(s.st, n, s.clock) && s.st.tasks[n].capability.None?
    ensures var r := Step(s, Claim(n, who, token, lease));
            r.st == Put(s.st, n, s.st.nodes[n], Leased(s.st.tasks[n], who, token, s.clock + lease), []) && r.clock == s.clock
  {
  }

  lemma StartShape(s: System, n: NodeId, who: string, token: Token)
    requires OwnsTask(s.st, n, who, token, s.clock) && s.st.run.RunRunning? && s.st.tasks[n].status.TaskClaimed?
    requires s.st.nodes[n].status.NodeRunning? || s.st.nodes[n].status.NodeQueued?
    ensures var r := Step(s, StartTask(n, who, token)).st;
            r.run == s.st.run && n in r.tasks && r.tasks[n] == Started(s.st.tasks[n])
  {
  }

  lemma RunnerClaimShape(s: System, n: NodeId, who: string, capabilities: set<string>, token: Token, lease: nat)
    requires token !in s.grants && Claimable(s.st, n, s.clock) && RunnerMatches(s.st.tasks[n], who, capabilities)
    requires s.st.nodes[n].status.NodeRunning? || s.st.nodes[n].status.NodeQueued?
    ensures var r := Step(s, RunnerClaim(n, who, capabilities, token, lease)).st;
            r.run == s.st.run && n in r.tasks && r.tasks[n] == Started(Leased(s.st.tasks[n], who, token, s.clock + lease))
  {
  }

  lemma WorkerStarts(s: System, n: NodeId, token: Token)
    requires Offered(s.st, n, s.clock) && token !in s.grants && s.st.tasks[n].capability.None?
    ensures var r := Step(Step(s, Claim(n, "worker", token, 1)), StartTask(n, "worker", token));
            r.st.run.RunRunning? && n in r.st.tasks && r.st.tasks[n].status.TaskRunning? && r.st.tasks[n].attempt == s.st.tasks[n].attempt + 1
  {
    ClaimShape(s, n, "worker", token, 1);
    StartShape(Step(s, Claim(n, "worker", token, 1)), n, "worker", token);
  }

  lemma WorkerAgain(s: System, n: NodeId, token: Token) returns (acts: seq<Action>, r: System)
    requires Startable(s, n) && token !in s.grants && s.st.tasks[n].capability.None?
    ensures r == RunFrom(s, acts)
    ensures Executing(r, n) && r.st.tasks[n].attempt == s.st.tasks[n].attempt + 1
  {
    var claim, start := Claim(n, "worker", token, 1), StartTask(n, "worker", token);
    WorkerStarts(s, n, token);
    StepKeeps(s, claim);
    StepKeeps(Step(s, claim), start);
    TwoSteps(s, claim, start);
    acts, r := [claim, start], Step(Step(s, claim), start);
  }

  lemma RunnerAgain(s: System, n: NodeId, token: Token) returns (acts: seq<Action>, r: System)
    requires Startable(s, n) && token !in s.grants && s.st.tasks[n].capability.Some?
    ensures r == RunFrom(s, acts)
    ensures Executing(r, n) && r.st.tasks[n].attempt == s.st.tasks[n].attempt + 1
  {
    var t := s.st.tasks[n];
    var who := if t.runner.Some? then t.runner.value else "runner";
    var claim := RunnerClaim(n, who, {t.capability.value}, token, 1);
    RunnerClaimShape(s, n, who, {t.capability.value}, token, 1);
    StepKeeps(s, claim);
    OneStep(s, claim);
    acts, r := [claim], Step(s, claim);
  }

  lemma OnceMore(s: System, n: NodeId) returns (acts: seq<Action>, r: System)
    requires Executing(s, n)
    ensures r == RunFrom(s, acts)
    ensures Executing(r, n) && r.st.tasks[n].attempt == s.st.tasks[n].attempt + 1
  {
    var first, mid := ExpireAndRecover(s, n);
    var token := NewToken(mid.grants);
    var second: seq<Action>;
    if mid.st.tasks[n].capability.None? {
      second, r := WorkerAgain(mid, n, token);
    } else {
      second, r := RunnerAgain(mid, n, token);
    }
    RunFromConcat(s, first, second);
    acts := first + second;
  }

  lemma {:induction false} MoreAttempts(s: System, n: NodeId, k: nat) returns (acts: seq<Action>, r: System)
    requires Executing(s, n)
    ensures r == RunFrom(s, acts)
    ensures Executing(r, n) && r.st.tasks[n].attempt == s.st.tasks[n].attempt + k
    decreases k
  {
    acts, r := [], s;
    if k > 0 {
      var once, mid := OnceMore(s, n);
      var rest;
      rest, r := MoreAttempts(mid, n, k - 1);
      RunFromConcat(s, once, rest);
      acts := once + rest;
    }
  }

  /** The attempt budget is no bound: a task that is being executed can be
      started any number of times more, because recovery of an expired lease
      does not consult the budget. */
  lemma AttemptsExceedAnyBound(g: Graph, input: Json, acts: seq<Action>, n: NodeId, bound: nat) returns (more: seq<Action>)
    requires Publishable(g) && Execute(g, input, acts).st.run.RunRunning?
    requires n in Execute(g, input, acts).st.tasks && Execute(g, input, acts).st.tasks[n].status.TaskRunning?
    ensures n in Execute(g, input, acts + more).st.tasks && Execute(g, input, acts + more).st.tasks[n].attempt > bound
  {
    AlwaysSane(g, input, acts);
    AlwaysPunctual(g, input, acts);
    var r;
    more, r := MoreAttempts(Execute(g, input, acts), n, bound + 1);
    ExecuteConcat(g, input, acts, more);
  }

  // ----- a heartbeat may revive an expired lease -----

  /** The lease of an executing task in a live run names this client. */
  predicate Beating(st: RunState, n: NodeId, who: string, token: Token) {
    Names(st, n, who, token) && st.tasks[n].status.TaskRunning? && !RunTerminal(st.run)
  }

  lemma HeartbeatShape(s: System, n: NodeId, who: string, token: Token, lease: nat)
    ensures var r := Step(s, Heartbeat(n, who, token, lease));
            && r.clock == s.clock
            && r.st == if Beating(s.st, n, who, token)
                       then Put(s.st, n, s.st.nodes[n], Extended(s.st.tasks[n], s.clock + lease), []) else s.st
  {
  }

  lemma LeasedRow(input: bool, parked: bool, run: RunStatus, row: NodeRun, t: Task)
    requires Judge(input, parked, run, row, Some(t)) == Consistent
    ensures t.status.TaskRunning? ==> row.status.NodeRunning?
    ensures t.token.Some? ==> !t.status.TaskRetryWait? && !t.status.TaskPending?
  {
  }

  lemma LeasedNode(st: RunState, n: NodeId)
    requires Inv(st) && n in st.nodes && n in st.tasks
    ensures st.tasks[n].status.TaskRunning? ==> st.nodes[n].status.NodeRunning?
    ensures st.tasks[n].token.Some? ==> !st.tasks[n].status.TaskRetryWait? && !st.tasks[n].status.TaskPending?
  {
    assert NodeOk(st, n);
    LeasedRow(IsInputId(st.graph, n), IsParkedId(st.graph, n), st.run, st.nodes[n], st.tasks[n]);
  }

  lemma OwnerIsHeard(st: RunState, n: NodeId, who: string, token: Token, result: RunnerResult, now: nat)
    requires Beating(st, n, who, token) && st.nodes[n].status.NodeRunning? && OwnsTask(st, n, who, token, now)
    ensures AfterSubmit(st, n, who, token, result, now).outcome.Accepted?
  {
  }

  lemma HeardIsBeating(st: RunState, n: NodeId, who: string, token: Token, result: RunnerResult, now: nat)
    requires n in st.nodes && n in st.tasks && st.tasks[n].token.Some? ==> !st.tasks[n].status.TaskRetryWait? && !st.tasks[n].status.TaskPending?
    requires AfterSubmit(st, n, who, token, result, now).outcome.Accepted?
    ensures Beating(st, n, who, token)
  {
  }

  /** A result is accepted exactly when the task is executing in a live run and
      the sender owns it. */
  lemma HeardExactly(st: RunState, n: NodeId, who: string, token: Token, result: RunnerResult, now: nat)
    requires Inv(st)
    ensures AfterSubmit(st, n, who, token, result, now).outcome.Accepted? <==>
            Beating(st, n, who, token) && OwnsTask(st, n, who, token, now)
  {
    if n in st.nodes && n in st.tasks {
      LeasedNode(st, n);
    }
    if Beating(st, n, who, token) && OwnsTask(st, n, who, token, now) {
      OwnerIsHeard(st, n, who, token, result, now);
    } else if AfterSubmit(st, n, who, token, result, now).outcome.Accepted? {
      HeardIsBeating(st, n, who, token, result, now);
    }
  }

  lemma BeatenOwns(s: System, n: NodeId, who: string, token: Token, lease: nat)
    requires lease > 0
    ensures var r := Step(s, Heartbeat(n, who, token, lease)).st;
            Beating(r, n, who, token) && OwnsTask(r, n, who, token, s.clock) <==> Beating(s.st, n, who, token)
  {
    HeartbeatShape(s, n, who, token, lease);
  }

  lemma SubmitReply(s: System, n: NodeId, who: string, token: Token, result: RunnerResult)
    ensures ReplyTo(s, SubmitResult(n, who, token, result)) == AfterSubmit(s.st, n, who, token, result, s.clock)
  {
  }

  /** An expired lease is no fence until somebody recovers it: in any reachable
      state, a heartbeat followed by a result, whatever it is, is accepted exactly
      when the task is executing in a live run and its lease names the sender,
      however long ago it expired. */
  lemma HeartbeatRevives(g: Graph, input: Json, acts: seq<Action>, n: NodeId, who: string, token: Token, lease: nat, result: RunnerResult)
    requires Publishable(g) && lease > 0
    ensures var s := Execute(g, input, acts);
            ReplyTo(Step(s, Heartbeat(n, who, token, lease)), SubmitResult(n, who, token, result)).outcome.Accepted?
            <==> Beating(s.st, n, who, token)
  {
    var s := Execute(g, input, acts);
    var beat := Step(s, Heartbeat(n, who, token, lease));
    AlwaysSane(g, input, acts);
    StepSane(s, Heartbeat(n, who, token, lease));
    HeartbeatShape(s, n, who, token, lease);
    BeatenOwns(s, n, who, token, lease);
    SubmitReply(beat, n, who, token, result);
    HeardExactly(beat.st, n, who, token, result, s.clock);
  }
}
