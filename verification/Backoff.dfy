/** A retry that was granted waits for its backoff, whatever happens in between,
    and is requeued by the first promotion after it. */
module Backoff {
  import opened Basics
  import opened StateMachines
  import opened Graphs
  import opened RunRows
  import opened Runtime
  import opened Invariant
  import opened RecoverySafety
  import opened RuntimeSafety
  import opened History
  import opened Recovery

  /** The action is an accepted request to retry `n` after `backoff` seconds, by
      a Worker, or by a Runner whose retryable failure the budget leaves a retry. */
  predicate Defers(s: System, a: Action, n: NodeId, backoff: nat) {
    && ReplyTo(s, a).outcome.Accepted?
    && match a
       case Retry(m, _, _, b) => m == n && b == backoff
       case SubmitResult(m, _, _, r) =>
         && m == n && !r.ok && r.retryable && r.backoff == backoff
         && n in s.st.tasks && s.st.tasks[n].attempt < s.st.tasks[n].maxAttempts
       case _ => false
  }

  /** Since it was deferred at its `attempt`th attempt, the task waits until `at`,
      or is queued again, or was cancelled; no attempt has begun. */
  predicate Waits(t: Task, attempt: nat, at: nat) {
    t.attempt == attempt ==>
      && !t.status.TaskRunning? && !t.status.TaskCompleted? && !t.status.TaskFailed?
      && (t.status.TaskRetryWait? ==> t.availableAt == at)
  }

  /** Before its time it is still waiting, or cancelled. */
  predicate HeldBack(t: Task, attempt: nat) {
    t.attempt == attempt && (t.status.TaskRetryWait? || t.status.TaskCancelled?)
  }

  lemma DeferShape(s: System, a: Action, n: NodeId, backoff: nat)
    requires Defers(s, a, n, backoff)
    ensures var next := Step(s, a);
            && n in s.st.tasks && n in next.st.tasks && next.clock == s.clock
            && next.st.tasks[n].status.TaskRetryWait? && next.st.tasks[n].availableAt == s.clock + backoff
            && next.st.tasks[n].attempt == s.st.tasks[n].attempt
  {
  }

  // ----- one step -----

  lemma WaitsLaw(run: RunStatus, t: Task, t': Task, permit: Permit, attempt: nat, at: nat)
    requires JudgeTask(run, t, t', permit) == Consistent && attempt <= t.attempt && Waits(t, attempt, at)
    ensures attempt <= t'.attempt && Waits(t', attempt, at)
  {
  }

  lemma HeldBackLaw(run: RunStatus, t: Task, t': Task, permit: Permit, attempt: nat, at: nat, now: nat)
    requires JudgeTask(run, t, t', permit) == Consistent && HeldBack(t, attempt) && Waits(t, attempt, at)
    requires now < at && (permit.Promoting? ==> permit.now == now)
    ensures HeldBack(t', attempt)
  {
  }

  lemma StepLaw(s: System, a: Action, n: NodeId)
    requires Sane(s) && n in s.st.tasks
    ensures n in Step(s, a).st.tasks
    ensures JudgeTask(s.st.run, s.st.tasks[n], Step(s, a).st.tasks[n], PermitOf(s, a)) == Consistent
  {
    StepSane(s, a);
    LawfulSince(s.st, Step(s, a).st, PermitOf(s, a));
    LawfulTask(s.st, Step(s, a).st, PermitOf(s, a), n);
  }

  // ----- every continuation -----

  lemma {:induction false} WaitsRun(s: System, more: seq<Action>, n: NodeId, attempt: nat, at: nat)
    requires Sane(s) && n in s.st.tasks && attempt <= s.st.tasks[n].attempt && Waits(s.st.tasks[n], attempt, at)
    ensures var later := RunFrom(s, more);
            n in later.st.tasks && attempt <= later.st.tasks[n].attempt && Waits(later.st.tasks[n], attempt, at)
    decreases |more|
  {
    if more != [] {
      var init := more[..|more| - 1];
      var mid := RunFrom(s, init);
      WaitsRun(s, init, n, attempt, at);
      SaneRun(s, init);
      StepLaw(mid, more[|more| - 1], n);
      WaitsLaw(mid.st.run, mid.st.tasks[n], RunFrom(s, more).st.tasks[n], PermitOf(mid, more[|more| - 1]), attempt, at);
    }
  }

  lemma {:induction false} HeldBackRun(s: System, more: seq<Action>, n: NodeId, attempt: nat, at: nat)
    requires Sane(s) && n in s.st.tasks && HeldBack(s.st.tasks[n], attempt) && Waits(s.st.tasks[n], attempt, at)
    requires RunFrom(s, more).clock < at
    ensures n in RunFrom(s, more).st.tasks && HeldBack(RunFrom(s, more).st.tasks[n], attempt)
    decreases |more|
  {
    if more != [] {
      var init, last := more[..|more| - 1], more[|more| - 1];
      var mid := RunFrom(s, init);
      ClockAdvances(mid, last);
      HeldBackRun(s, init, n, attempt, at);
      WaitsRun(s, init, n, attempt, at);
      SaneRun(s, init);
      StepLaw(mid, last, n);
      PermitIsNow(mid, last);
      HeldBackLaw(mid.st.run, mid.st.tasks[n], RunFrom(s, more).st.tasks[n], PermitOf(mid, last), attempt, at, mid.clock);
    }
  }

  lemma DeferredState(g: Graph, input: Json, acts: seq<Action>, a: Action, n: NodeId, backoff: nat, more: seq<Action>)
    requires Publishable(g) && Defers(Execute(g, input, acts), a, n, backoff)
    ensures var s, s1 := Execute(g, input, acts), Step(Execute(g, input, acts), a);
            && Sane(s1) && n in s.st.tasks && n in s1.st.tasks
            && Execute(g, input, acts + [a] + more) == RunFrom(s1, more)
            && HeldBack(s1.st.tasks[n], s.st.tasks[n].attempt)
            && Waits(s1.st.tasks[n], s.st.tasks[n].attempt, s.clock + backoff)
  {
    var s := Execute(g, input, acts);
    AlwaysSane(g, input, acts);
    StepSane(s, a);
    DeferShape(s, a, n, backoff);
    ExecuteSplit(g, input, acts, a, more);
  }

  /** Until the backoff has passed the task stays in RETRY_WAIT, unless it is
      cancelled, over every continuation of the run: it is not queued, and no new
      attempt begins. */
  lemma BackoffHolds(g: Graph, input: Json, acts: seq<Action>, a: Action, n: NodeId, backoff: nat, more: seq<Action>)
    requires Publishable(g) && Defers(Execute(g, input, acts), a, n, backoff)
    requires Execute(g, input, acts + [a] + more).clock < Execute(g, input, acts).clock + backoff
    ensures var s, later := Execute(g, input, acts), Execute(g, input, acts + [a] + more);
            && n in s.st.tasks && n in later.st.tasks
            && (later.st.tasks[n].status.TaskRetryWait? || later.st.tasks[n].status.TaskCancelled?)
            && later.st.tasks[n].attempt == s.st.tasks[n].attempt
  {
    var s := Execute(g, input, acts);
    DeferredState(g, input, acts, a, n, backoff, more);
    HeldBackRun(Step(s, a), more, n, s.st.tasks[n].attempt, s.clock + backoff);
  }

  lemma RequeueShape(s: System, locked: set<NodeId>, n: NodeId)
    requires Inv(s.st) && n in s.st.tasks && n in s.st.nodes && n !in locked
    requires s.st.tasks[n].status.TaskRetryWait? && s.st.tasks[n].availableAt <= s.clock
    ensures var next := Step(s, PromoteRetries(locked)).st;
            && ReplyTo(s, PromoteRetries(locked)).outcome.Accepted?
            && n in next.tasks && next.tasks[n].status.TaskPending? && HasStatus(next.nodes, n, NodeQueued)
  {
    PromoteAccepted(s.st, locked, s.clock);
    RequeuedAt(s.st, locked, s.clock, n);
  }

  /** Once it has passed, every promotion of due retries that does not skip the
      row requeues the task and its node. */
  lemma BackoffEnds(g: Graph, input: Json, acts: seq<Action>, a: Action, n: NodeId, backoff: nat, more: seq<Action>, locked: set<NodeId>)
    requires Publishable(g) && Defers(Execute(g, input, acts), a, n, backoff) && n !in locked
    requires Execute(g, input, acts).clock + backoff <= Execute(g, input, acts + [a] + more).clock
    requires var s, later := Execute(g, input, acts), Execute(g, input, acts + [a] + more);
             && n in s.st.tasks && n in later.st.tasks && later.st.tasks[n].status.TaskRetryWait?
             && later.st.tasks[n].attempt == s.st.tasks[n].attempt
    ensures var later := Execute(g, input, acts + [a] + more);
            var next := Step(later, PromoteRetries(locked)).st;
            && ReplyTo(later, PromoteRetries(locked)).outcome.Accepted?
            && n in next.tasks && next.tasks[n].status.TaskPending? && HasStatus(next.nodes, n, NodeQueued)
  {
    var s, later := Execute(g, input, acts), Execute(g, input, acts + [a] + more);
    DeferredState(g, input, acts, a, n, backoff, more);
    WaitsRun(Step(s, a), more, n, s.st.tasks[n].attempt, s.clock + backoff);
    AlwaysSane(g, input, acts + [a] + more);
    TaskShapeOf(later.st, n);
    TaskHasNode(later.st, n);
    RequeueShape(later, locked, n);
  }

  lemma TaskHasNode(st: RunState, n: NodeId)
    requires Inv(st) && n in st.tasks
    ensures n in st.nodes
  {
  }
}
