/** Lease fencing, at-most-once commit and attempt accounting over whole runs. */
module Fencing {
  import opened Basics
  import opened StateMachines
  import opened Graphs
  import opened RunRows
  import opened SchedulerRules
  import opened QueueRules
  import opened Runtime
  import opened Invariant
  import opened RuntimeSafety
  import opened History

  // ----- who may write -----

  /** A task accepts one holder at a time, that holder is the client the token
      was granted to, and no token is accepted on two tasks. */
  lemma OneHolder(g: Graph, input: Json, acts: seq<Action>, n: NodeId, who: string, token: Token,
                  n': NodeId, who': string, token': Token, now: nat)
    requires Publishable(g)
    requires OwnsTask(Execute(g, input, acts).st, n, who, token, now)
    requires OwnsTask(Execute(g, input, acts).st, n', who', token', now)
    ensures n == n' ==> who == who' && token == token'
    ensures token == token' ==> n == n' && who == who'
    ensures token in Execute(g, input, acts).grants
    ensures Execute(g, input, acts).grants[token].node == n && Execute(g, input, acts).grants[token].who == who
  {
    AlwaysSane(g, input, acts);
    var s := Execute(g, input, acts);
    assert LeaseOk(s.grants, n, s.st.tasks[n]);
    assert LeaseOk(s.grants, n', s.st.tasks[n']);
  }

  /** The task is ownable by its grantee exactly before its lease expires, and
      recoverable exactly after. */
  ghost predicate LeaseWindow(t: Task, grants: map<Token, Grant>, now: nat) {
    && Held(t) && t.token.value in grants
    && (forall who, token :: Owns(t, who, token, now) <==>
          now < t.expires.value && token == t.token.value && who == grants[t.token.value].who)
    && (Expired(t, now) <==> t.expires.value < now)
  }

  lemma HeldWindow(t: Task, grants: map<Token, Grant>, n: NodeId, now: nat)
    requires TaskShape(t) && LeaseOk(grants, n, t) && (t.status.TaskClaimed? || t.status.TaskRunning?)
    ensures LeaseWindow(t, grants, now)
  {
  }

  /** At any clock reading a held task of a reachable state is ownable by the
      client it was granted to exactly before its lease expires, and recoverable
      exactly after: never both, and neither only at the instant of expiry. */
  lemma OwnableNotRecoverable(g: Graph, input: Json, acts: seq<Action>, n: NodeId, now: nat)
    requires Publishable(g) && n in Execute(g, input, acts).st.tasks
    requires Execute(g, input, acts).st.tasks[n].status.TaskClaimed? || Execute(g, input, acts).st.tasks[n].status.TaskRunning?
    ensures LeaseWindow(Execute(g, input, acts).st.tasks[n], Execute(g, input, acts).grants, now)
  {
    AlwaysSane(g, input, acts);
    var s := Execute(g, input, acts);
    TaskShapeOf(s.st, n);
    assert LeaseOk(s.grants, n, s.st.tasks[n]);
    HeldWindow(s.st.tasks[n], s.grants, n, now);
  }

  ghost predicate TokenOn(s: System, n: NodeId, token: Token) {
    n in s.st.tasks && s.st.tasks[n].token == Some(token)
  }

  lemma TokenLaw(run: RunStatus, t: Task, t': Task, permit: Permit, token: Token)
    requires JudgeTask(run, t, t', permit) == Consistent && t.token != Some(token)
    requires permit != Claiming(token)
    ensures t'.token != Some(token)
  {
  }

  lemma SpentToken(s: System, a: Action)
    requires PermitOf(s, a).Claiming? && PermitOf(s, a).token in s.grants
    ensures Step(s, a).st == s.st
  {
  }

  lemma NotReissued(s: System, a: Action, n: NodeId, token: Token)
    requires Sane(s) && token in s.grants && !TokenOn(s, n, token)
    ensures !TokenOn(Step(s, a), n, token)
  {
    StepSane(s, a);
    var next := Step(s, a);
    if n in next.st.tasks {
      LawfulTask(s.st, next.st, PermitOf(s, a), n);
      if PermitOf(s, a) == Claiming(token) {
        SpentToken(s, a);
      } else if n in s.st.tasks {
        TokenLaw(s.st.run, s.st.tasks[n], next.st.tasks[n], PermitOf(s, a), token);
      }
    }
  }

  lemma {:induction false} StaleRun(s: System, more: seq<Action>, n: NodeId, token: Token)
    requires Sane(s) && token in s.grants && !TokenOn(s, n, token)
    ensures !TokenOn(RunFrom(s, more), n, token)
    decreases |more|
  {
    if more != [] {
      var init := more[..|more| - 1];
      StaleRun(s, init, n, token);
      SaneRun(s, init);
      NotReissued(RunFrom(s, init), more[|more| - 1], n, token);
    }
  }

  /** A token that was granted and is no longer on the task, because recovery,
      retry or release cleared it, is never accepted again: no write and no
      heartbeat with it succeeds in any later state. */
  lemma StaleTokenStaysDead(g: Graph, input: Json, acts: seq<Action>, more: seq<Action>, n: NodeId, token: Token,
                            who: string, now: nat, lease: nat)
    requires Publishable(g) && token in Execute(g, input, acts).grants && !TokenOn(Execute(g, input, acts), n, token)
    ensures var later := Execute(g, input, acts + more).st;
            && !OwnsTask(later, n, who, token, now)
            && AfterHeartbeat(later, n, who, token, lease, now) == Reply(later, Refused)
  {
    AlwaysSane(g, input, acts);
    StaleRun(Execute(g, input, acts), more, n, token);
    ExecuteConcat(g, input, acts, more);
  }

  /** Between two moments at which a token is on a task it never left it, so no
      other client claimed the task in between. */
  lemma UninterruptedLease(g: Graph, input: Json, acts: seq<Action>, mid: seq<Action>, more: seq<Action>, n: NodeId, token: Token)
    requires Publishable(g)
    requires TokenOn(Execute(g, input, acts), n, token)
    requires TokenOn(Execute(g, input, acts + mid + more), n, token)
    ensures TokenOn(Execute(g, input, acts + mid), n, token)
  {
    AlwaysSane(g, input, acts);
    AlwaysSane(g, input, acts + mid);
    SaneRun(Execute(g, input, acts), mid);
    ExecuteConcat(g, input, acts, mid);
    ExecuteConcat(g, input, acts + mid, more);
    GrantedToken(Execute(g, input, acts), n, token);
    if !TokenOn(Execute(g, input, acts + mid), n, token) {
      StaleRun(Execute(g, input, acts + mid), more, n, token);
    }
  }

  lemma GrantedToken(s: System, n: NodeId, token: Token)
    requires Sane(s) && TokenOn(s, n, token)
    ensures token in s.grants && s.grants[token].node == n
  {
    assert LeaseOk(s.grants, n, s.st.tasks[n]);
  }

  // ----- counting over a run -----

  /** The task of `n` before a step, if it exists. */
  function StatusIn(st: RunState, n: NodeId): Option<TaskStatus> {
    if n in st.tasks then Some(st.tasks[n].status) else None
  }

  datatype Milestone = Committed | Began | Deferred | Requeued | Interrupted

  /** The step from `a` to `b` is a milestone of the task of `n`. */
  predicate Hits(m: Milestone, a: Option<TaskStatus>, b: Option<TaskStatus>) {
    && b.Some? && a != b
    && match m
       case Committed => b.value.TaskCompleted? || b.value.TaskFailed?
       case Began => b.value.TaskRunning?
       case Deferred => b.value.TaskRetryWait?
       case Requeued => a == Some(TaskRunning) && b.value.TaskPending?
       case Interrupted => a == Some(TaskRunning) && b.value.TaskCancelled?
  }

  /** How often the task of `n` hit a milestone while `acts` were performed. */
  function Count(m: Milestone, s: System, acts: seq<Action>, n: NodeId): nat {
    if acts == [] then 0
    else
      var init := acts[..|acts| - 1];
      Count(m, s, init, n) +
      if Hits(m, StatusIn(RunFrom(s, init).st, n), StatusIn(RunFrom(s, acts).st, n)) then 1 else 0
  }

  lemma StepTask(s: System, a: Action, n: NodeId)
    requires Sane(s)
    ensures n in s.st.tasks ==> n in Step(s, a).st.tasks
    ensures n in s.st.tasks ==>
              JudgeTask(s.st.run, s.st.tasks[n], Step(s, a).st.tasks[n], PermitOf(s, a)) == Consistent
    ensures n !in s.st.tasks && n in Step(s, a).st.tasks ==> NewTaskLaw(Step(s, a).st.tasks[n])
  {
    StepSane(s, a);
    if n in s.st.tasks {
      KeepsTask(s.st, Step(s, a).st, PermitOf(s, a), n);
    }
    if n in Step(s, a).st.tasks {
      LawfulTask(s.st, Step(s, a).st, PermitOf(s, a), n);
    }
  }

  lemma KeepsTask(st: RunState, next: RunState, permit: Permit, n: NodeId)
    requires Lawful(st, next, permit) && n in st.tasks
    ensures n in next.tasks
  {
  }

  predicate Finished(t: Option<TaskStatus>) {
    t == Some(TaskCompleted) || t == Some(TaskFailed)
  }

  function Done(t: Option<TaskStatus>): nat {
    if Finished(t) then 1 else 0
  }

  lemma CommitLaw(run: RunStatus, t: Task, t': Task, permit: Permit)
    requires JudgeTask(run, t, t', permit) == Consistent
    ensures Done(Some(t'.status)) ==
            Done(Some(t.status)) + (if Hits(Committed, Some(t.status), Some(t'.status)) then 1 else 0)
  {
  }

  lemma CommitNew(t: Task)
    requires NewTaskLaw(t)
    ensures Done(Some(t.status)) == 0 && !Hits(Committed, None, Some(t.status))
  {
  }

  lemma {:induction false} CommitCount(s: System, acts: seq<Action>, n: NodeId)
    requires Sane(s) && n !in s.st.tasks
    ensures Count(Committed, s, acts, n) == Done(StatusIn(RunFrom(s, acts).st, n))
    decreases |acts|
  {
    if acts != [] {
      var init, last := acts[..|acts| - 1], acts[|acts| - 1];
      var mid := RunFrom(s, init);
      CommitCount(s, init, n);
      SaneRun(s, init);
      StepTask(mid, last, n);
      if n in mid.st.tasks {
        CommitLaw(mid.st.run, mid.st.tasks[n], Step(mid, last).st.tasks[n], PermitOf(mid, last));
      } else if n in Step(mid, last).st.tasks {
        CommitNew(Step(mid, last).st.tasks[n]);
      }
    }
  }

  /** The action is an accepted complete, fail or wait report for `n`. */
  predicate Reports(s: System, a: Action, n: NodeId) {
    && ReplyTo(s, a).outcome.Accepted?
    && match a
       case Complete(m, _, _, _) => m == n
       case Fail(m, _, _) => m == n
       case Park(m, _, _, _) => m == n
       case SubmitResult(m, _, _, _) => m == n && StatusIn(Step(s, a).st, n) != Some(TaskRetryWait)
       case _ => false
  }

  /** How many reports for `n` were accepted while `acts` were performed. */
  function AcceptedReports(s: System, acts: seq<Action>, n: NodeId): nat {
    if acts == [] then 0
    else
      var init := acts[..|acts| - 1];
      AcceptedReports(s, init, n) + if Reports(RunFrom(s, init), acts[|acts| - 1], n) then 1 else 0
  }

  lemma ReportCommits(s: System, a: Action, n: NodeId)
    requires Reports(s, a, n)
    ensures Hits(Committed, StatusIn(s.st, n), StatusIn(Step(s, a).st, n))
  {
  }

  lemma {:induction false} ReportsAreCommits(s: System, acts: seq<Action>, n: NodeId)
    ensures AcceptedReports(s, acts, n) <= Count(Committed, s, acts, n)
    decreases |acts|
  {
    if acts != [] {
      var init, last := acts[..|acts| - 1], acts[|acts| - 1];
      ReportsAreCommits(s, init, n);
      if Reports(RunFrom(s, init), last, n) {
        ReportCommits(RunFrom(s, init), last, n);
      }
    }
  }

  /** At-most-once commit: however often a task is executed, at most one
      complete, fail or wait report is accepted for it; the task enters a final
      state of its own at most once, and did so exactly when it is COMPLETED or
      FAILED. */
  lemma AtMostOneCommit(g: Graph, input: Json, acts: seq<Action>, n: NodeId)
    requires Publishable(g)
    ensures AcceptedReports(Created(g, input), acts, n) <= Count(Committed, Created(g, input), acts, n) <= 1
    ensures Count(Committed, Created(g, input), acts, n) == 1 <==>
            Finished(StatusIn(Execute(g, input, acts).st, n))
  {
    AlwaysSane(g, input, []);
    CommitCount(Created(g, input), acts, n);
    ReportsAreCommits(Created(g, input), acts, n);
  }

  // ----- attempts -----

  lemma StartLaw(run: RunStatus, t: Task, t': Task, permit: Permit)
    requires JudgeTask(run, t, t', permit) == Consistent
    ensures t'.attempt == t.attempt + (if Hits(Began, Some(t.status), Some(t'.status)) then 1 else 0)
  {
  }

  function AttemptIn(st: RunState, n: NodeId): nat {
    if n in st.tasks then st.tasks[n].attempt else 0
  }

  lemma {:induction false} StartCount(s: System, acts: seq<Action>, n: NodeId)
    requires Sane(s) && n !in s.st.tasks
    ensures AttemptIn(RunFrom(s, acts).st, n) == Count(Began, s, acts, n)
    decreases |acts|
  {
    if acts != [] {
      var init, last := acts[..|acts| - 1], acts[|acts| - 1];
      var mid := RunFrom(s, init);
      StartCount(s, init, n);
      SaneRun(s, init);
      StepTask(mid, last, n);
      if n in mid.st.tasks {
        StartLaw(mid.st.run, mid.st.tasks[n], Step(mid, last).st.tasks[n], PermitOf(mid, last));
      }
    }
  }

  /** Only the task an action names is sent to RETRY_WAIT. */
  lemma OthersUntouched(s: System, a: Action, n: NodeId)
    requires (a.Retry? || a.SubmitResult?) && a.node != n && n in s.st.tasks
    ensures n in Step(s, a).st.tasks && Step(s, a).st.tasks[n] == s.st.tasks[n]
  {
  }

  /** What a Runner's accepted report of a failure does to the task. */
  lemma FailureShape(s: System, n: NodeId, who: string, token: Token, result: RunnerResult)
    requires ReplyTo(s, SubmitResult(n, who, token, result)).outcome.Accepted? && !result.ok && result.retryable
    ensures var next := Step(s, SubmitResult(n, who, token, result)).st;
            && TokenOn(s, n, token) && n in next.tasks
            && (next.tasks[n].status.TaskRetryWait? <==> s.st.tasks[n].attempt < s.st.tasks[n].maxAttempts)
            && (s.st.tasks[n].status.TaskRunning? || s.st.tasks[n].status.TaskRetryWait?)
  {
  }

  /** Worker and Runner decide alike: a retryable failure that a Runner reports
      is retried in exactly the cases in which the Worker's own count (attempts
      at claim time plus one) leaves a retry. */
  lemma RetryDecisionsAgree(g: Graph, input: Json, acts: seq<Action>, n: NodeId, who: string, token: Token, result: RunnerResult)
    requires Publishable(g) && !result.ok && result.retryable
    requires ReplyTo(Execute(g, input, acts), SubmitResult(n, who, token, result)).outcome.Accepted?
    ensures var s, next := Execute(g, input, acts), Step(Execute(g, input, acts), SubmitResult(n, who, token, result)).st;
            && n in s.st.tasks && token in s.grants && n in next.tasks
            && (s.grants[token].attempt + 1 < s.st.tasks[n].maxAttempts <==> next.tasks[n].status.TaskRetryWait?)
  {
    var s := Execute(g, input, acts);
    AlwaysSane(g, input, acts);
    FailureShape(s, n, who, token, result);
    TaskShapeOf(s.st, n);
    assert LeaseOk(s.grants, n, s.st.tasks[n]);
  }

  lemma RetryNeedsLease(st: RunState, n: NodeId, who: string, token: Token, backoff: nat, now: nat)
    requires n in st.tasks
    requires Hits(Deferred, Some(st.tasks[n].status), StatusIn(AfterRetry(st, n, who, token, backoff, now).st, n))
    ensures st.tasks[n].token == Some(token) && st.tasks[n].status.TaskRunning?
  {
  }

  lemma WorkerRetryBudget(s: System, n: NodeId, who: string, token: Token, backoff: nat)
    requires Sane(s) && n in s.st.tasks && Follows(s, Retry(n, who, token, backoff))
    requires Hits(Deferred, Some(s.st.tasks[n].status), StatusIn(AfterRetry(s.st, n, who, token, backoff, s.clock).st, n))
    ensures s.st.tasks[n].attempt < s.st.tasks[n].maxAttempts
  {
    RetryNeedsLease(s.st, n, who, token, backoff, s.clock);
    assert LeaseOk(s.grants, n, s.st.tasks[n]);
  }

  /** A retry is granted only while the attempt budget leaves one. */
  lemma RetryWithinBudget(s: System, a: Action, n: NodeId)
    requires Sane(s) && n in s.st.tasks
    requires Hits(Deferred, Some(s.st.tasks[n].status), StatusIn(Step(s, a).st, n))
    ensures s.st.tasks[n].attempt < s.st.tasks[n].maxAttempts
  {
    StepTask(s, a, n);
    RetryPermit(s.st.run, s.st.tasks[n], Step(s, a).st.tasks[n], PermitOf(s, a));
    if a.node != n {
      OthersUntouched(s, a, n);
    } else if a.Retry? {
      WorkerRetryBudget(s, n, a.who, a.token, a.backoff);
    }
  }

  lemma RetryPermit(run: RunStatus, t: Task, t': Task, permit: Permit)
    requires JudgeTask(run, t, t', permit) == Consistent && Hits(Deferred, Some(t.status), Some(t'.status))
    ensures permit.Retrying? && t.status.TaskRunning?
  {
  }

  /** The attempt in progress, or the one that was committed. */
  function OpenAttempt(status: TaskStatus): nat {
    if status.TaskRunning? || status.TaskCompleted? || status.TaskFailed? then 1 else 0
  }

  /** How the attempts of a task ended that are not the current one. */
  datatype Ends = Ends(retries: nat, requeues: nat, interrupted: nat)

  function EndsOf(s: System, acts: seq<Action>, n: NodeId): Ends {
    Ends(Count(Deferred, s, acts, n), Count(Requeued, s, acts, n), Count(Interrupted, s, acts, n))
  }

  function Tally(e: Ends, a: Option<TaskStatus>, b: Option<TaskStatus>): Ends {
    Ends(e.retries + (if Hits(Deferred, a, b) then 1 else 0), e.requeues + (if Hits(Requeued, a, b) then 1 else 0),
         e.interrupted + (if Hits(Interrupted, a, b) then 1 else 0))
  }

  /** The ledger of one task: every attempt ended in a granted retry, was taken
      back from its lease, was cut short by a cancellation, or is the one in
      progress or committed. */
  predicate Balanced(t: Task, e: Ends) {
    && e.retries <= t.maxAttempts - 1
    && e.interrupted <= (if t.status.TaskCancelled? then 1 else 0)
    && t.attempt == e.retries + e.requeues + e.interrupted + OpenAttempt(t.status)
  }

  lemma BalancedStep(run: RunStatus, t: Task, t': Task, permit: Permit, e: Ends)
    requires JudgeTask(run, t, t', permit) == Consistent && Balanced(t, e)
    requires Hits(Deferred, Some(t.status), Some(t'.status)) ==> t.attempt < t.maxAttempts
    ensures Balanced(t', Tally(e, Some(t.status), Some(t'.status)))
  {
  }

  lemma BalancedNew(t: Task)
    requires NewTaskLaw(t) && 1 <= t.maxAttempts
    ensures Balanced(t, Tally(Ends(0, 0, 0), None, Some(t.status)))
  {
  }

  /** The ledger of the task of `n`, which is empty before there is one. */
  predicate LedgerOf(st: RunState, n: NodeId, e: Ends) {
    if n in st.tasks then Balanced(st.tasks[n], e) else e == Ends(0, 0, 0)
  }

  lemma LedgerStep(s: System, a: Action, n: NodeId, e: Ends)
    requires Sane(s) && LedgerOf(s.st, n, e)
    ensures LedgerOf(Step(s, a).st, n, Tally(e, StatusIn(s.st, n), StatusIn(Step(s, a).st, n)))
  {
    StepTask(s, a, n);
    if n in s.st.tasks {
      if Hits(Deferred, Some(s.st.tasks[n].status), StatusIn(Step(s, a).st, n)) {
        RetryWithinBudget(s, a, n);
      }
      BalancedStep(s.st.run, s.st.tasks[n], Step(s, a).st.tasks[n], PermitOf(s, a), e);
    } else if n in Step(s, a).st.tasks {
      StepSane(s, a);
      TaskShapeOf(Step(s, a).st, n);
      BalancedNew(Step(s, a).st.tasks[n]);
    }
  }

  lemma EndsSnoc(s: System, acts: seq<Action>, n: NodeId)
    requires acts != []
    ensures var init := acts[..|acts| - 1];
            EndsOf(s, acts, n) == Tally(EndsOf(s, init, n), StatusIn(RunFrom(s, init).st, n), StatusIn(RunFrom(s, acts).st, n))
  {
  }

  lemma {:induction false} LedgerBalanced(s: System, acts: seq<Action>, n: NodeId)
    requires Sane(s) && n !in s.st.tasks
    ensures LedgerOf(RunFrom(s, acts).st, n, EndsOf(s, acts, n))
    decreases |acts|
  {
    if acts != [] {
      var init := acts[..|acts| - 1];
      LedgerBalanced(s, init, n);
      SaneRun(s, init);
      LedgerStep(RunFrom(s, init), acts[|acts| - 1], n, EndsOf(s, init, n));
      EndsSnoc(s, acts, n);
    }
  }

  /** Attempt accounting over any run: the durable counter equals the attempts
      begun; at most `maxAttempts - 1` retries are granted, with a budget in
      1..11; and every attempt ended in a granted retry, a recovery of its lease
      or a cancellation, of which there is at most one, or is the one in progress
      or committed. */
  lemma AttemptAccounting(g: Graph, input: Json, acts: seq<Action>, n: NodeId)
    requires Publishable(g) && n in Execute(g, input, acts).st.tasks
    ensures var t := Execute(g, input, acts).st.tasks[n];
            && t.attempt == Count(Began, Created(g, input), acts, n)
            && 1 <= t.maxAttempts <= 11
            && Balanced(t, EndsOf(Created(g, input), acts, n))
  {
    AlwaysSane(g, input, []);
    AlwaysSane(g, input, acts);
    StartCount(Created(g, input), acts, n);
    LedgerBalanced(Created(g, input), acts, n);
    TaskShapeOf(Execute(g, input, acts).st, n);
  }

  /** Attempts exceed the budget exactly when more running leases were recovered
      than the budget leaves after the granted retries, the attempt a cancellation
      cut short, and the one in progress or committed. */
  lemma BudgetExceeded(g: Graph, input: Json, acts: seq<Action>, n: NodeId)
    requires Publishable(g) && n in Execute(g, input, acts).st.tasks
    ensures var t, e := Execute(g, input, acts).st.tasks[n], EndsOf(Created(g, input), acts, n);
            t.attempt > t.maxAttempts <==> e.requeues > t.maxAttempts - e.retries - e.interrupted - OpenAttempt(t.status)
  {
    AttemptAccounting(g, input, acts, n);
  }
}
