/** A WAITING node carries the parking that belongs to its kind, so the action
    that releases it is always available. */
module ParkedRows {
  import opened Basics
  import opened StateMachines
  import opened Graphs
  import opened RunRows
  import opened Scheduling
  import opened SchedulerRules
  import opened Runtime

  predicate IsApproval(node: Node) {
    node.nodeType.Human? && node.subtype == "approval"
  }

  /** The parking the Worker gives to a node of this kind. */
  predicate FitsNode(node: Node, p: Parking) {
    if IsApproval(node) then p.reason == "HUMAN_APPROVAL"
    else if node.nodeType.Human? then p.reason == "HUMAN_INPUT"
    else p.reason == "WAIT_TIMER" && "resume_at" in p.metadata && p.metadata["resume_at"].Num?
  }

  predicate FitsRow(g: Graph, n: NodeId, row: NodeRun) {
    row.status.NodeWaiting? ==>
      && row.parking.Some? && FindNode(g.nodes, n).Some? && FitsNode(FindNode(g.nodes, n).value, row.parking.value)
  }

  ghost predicate Fits(st: RunState) {
    forall n {:trigger FitsRow(st.graph, n, st.nodes[n])} :: n in st.nodes ==> FitsRow(st.graph, n, st.nodes[n])
  }

  predicate SameParking(st: RunState, next: RunState, n: NodeId)
    requires n in next.nodes
  {
    next.nodes[n].status.NodeWaiting? ==>
      n in st.nodes && st.nodes[n].status.NodeWaiting? && next.nodes[n].parking == st.nodes[n].parking
  }

  /** Nothing new is parked. */
  ghost predicate ParkingKept(st: RunState, next: RunState) {
    next.graph == st.graph && forall n {:trigger SameParking(st, next, n)} :: n in next.nodes ==> SameParking(st, next, n)
  }

  lemma FitsStays(st: RunState, next: RunState)
    requires Fits(st) && ParkingKept(st, next)
    ensures Fits(next)
  {
    forall n | n in next.nodes
      ensures FitsRow(next.graph, n, next.nodes[n])
    {
      assert SameParking(st, next, n);
      if next.nodes[n].status.NodeWaiting? {
        assert FitsRow(st.graph, n, st.nodes[n]);
      }
    }
  }

  lemma KeptTwice(a: RunState, b: RunState, c: RunState)
    requires ParkingKept(a, b) && ParkingKept(b, c)
    ensures ParkingKept(a, c)
  {
    forall n | n in c.nodes
      ensures SameParking(a, c, n)
    {
      assert SameParking(b, c, n);
      if n in b.nodes {
        assert SameParking(a, b, n);
      }
    }
  }

  lemma ScheduleKeepsParking(st: RunState, u: Unresolved, now: nat)
    ensures ParkingKept(st, AfterSchedule(st, u, now))
  {
  }

  lemma TransitionKeepsParking(st: RunState, derived: RunStatus, hidden: set<NodeId>)
    ensures ParkingKept(st, AfterTransition(st, derived, hidden))
  {
  }

  lemma ConcludeKeepsParking(st: RunState, adv: RunState, u: Unresolved, unflushed: set<NodeId>, now: nat)
    requires ParkingKept(st, adv)
    ensures ParkingKept(st, Conclude(st, adv, u, unflushed, now).st)
  {
    var derived, hidden := DeriveRun(adv.graph, adv.nodes), unflushed * (adv.tasks.Keys - st.tasks.Keys);
    TransitionKeepsParking(adv, derived, hidden);
    var moved := if derived == st.run then adv else AfterTransition(adv, derived, hidden);
    KeptTwice(st, adv, moved);
    ScheduleKeepsParking(moved, u, now);
    KeptTwice(st, moved, AfterSchedule(moved, u, now));
  }

  lemma ReconcileKeepsParking(st: RunState, u: Unresolved, unflushed: set<NodeId>, now: nat)
    ensures ParkingKept(st, AfterReconcile(st, u, unflushed, now).st)
  {
    var waits := AfterPromoteWaits(st, now);
    assert ParkingKept(st, waits);
    ScheduleKeepsParking(waits, u, now);
    KeptTwice(st, waits, Advanced(st, u, now));
    ConcludeKeepsParking(st, Advanced(st, u, now), u, unflushed, now);
  }

  lemma LeaseKeepsParking(s: System, a: Action)
    requires a.Claim? || a.StartTask? || a.Renew?
    ensures ParkingKept(s.st, Answer(s, a).st)
  {
  }

  lemma SubmitKeepsParking(s: System, a: Action)
    requires a.SubmitResult?
    ensures ParkingKept(s.st, Answer(s, a).st)
  {
  }

  lemma RunnerKeepsParking(s: System, a: Action)
    requires a.RunnerClaim? || a.Heartbeat?
    ensures ParkingKept(s.st, Answer(s, a).st)
  {
  }

  lemma ReportKeepsParking(s: System, a: Action)
    requires a.Complete? || a.Fail? || a.Retry?
    ensures ParkingKept(s.st, Answer(s, a).st)
  {
  }

  lemma ControlKeepsParking(s: System, a: Action)
    requires a.Tick? || a.StartRun? || a.PauseRun? || a.ResumeRun? || a.CancelRun? || a.Approve? || a.Reject? || a.SubmitInput?
    ensures ParkingKept(s.st, Answer(s, a).st)
  {
  }

  lemma RepairKeepsParking(s: System, a: Action)
    requires a.Recover? || a.PromoteRetries?
    ensures ParkingKept(s.st, Answer(s, a).st)
  {
  }

  lemma AnswerKeepsParking(s: System, a: Action)
    requires !a.Park?
    ensures ParkingKept(s.st, Answer(s, a).st)
  {
    match a
    case ScheduleReady(u) => ScheduleKeepsParking(s.st, u, s.clock);
    case ReconcileRun(u, unflushed) => ReconcileKeepsParking(s.st, u, unflushed, s.clock);
    case Recover(_) => RepairKeepsParking(s, a);
    case PromoteRetries(_) => RepairKeepsParking(s, a);
    case Claim(_, _, _, _) => LeaseKeepsParking(s, a);
    case StartTask(_, _, _) => LeaseKeepsParking(s, a);
    case Renew(_, _, _, _) => LeaseKeepsParking(s, a);
    case RunnerClaim(_, _, _, _, _) => RunnerKeepsParking(s, a);
    case Heartbeat(_, _, _, _) => RunnerKeepsParking(s, a);
    case Complete(_, _, _, _) => ReportKeepsParking(s, a);
    case Fail(_, _, _) => ReportKeepsParking(s, a);
    case Retry(_, _, _, _) => ReportKeepsParking(s, a);
    case SubmitResult(_, _, _, _) => SubmitKeepsParking(s, a);
    case _ => ControlKeepsParking(s, a);
  }

  lemma ParkFits(node: Node, duration: int, now: nat)
    requires IsParked(node)
    ensures FitsNode(node, ParkingFor(node, duration, now))
  {
  }

  lemma ParkShape(s: System, a: Action)
    requires a.Park? && Follows(s, a)
    ensures var next := Answer(s, a).st;
            && next.graph == s.st.graph
            && (forall n :: n in next.nodes ==> n in s.st.nodes && (next.nodes[n] == s.st.nodes[n] || n == a.node))
            && (a.node in next.nodes && next.nodes[a.node].status.NodeWaiting? ==>
                  || next.nodes[a.node] == s.st.nodes[a.node]
                  || next.nodes[a.node].parking == Some(ParkingFor(FindNode(s.st.graph.nodes, a.node).value, a.duration, s.clock)))
  {
  }

  lemma ParkKeepsFits(s: System, a: Action)
    requires Fits(s.st) && a.Park? && Follows(s, a)
    ensures Fits(Answer(s, a).st)
  {
    var next := Answer(s, a).st;
    ParkShape(s, a);
    ParkFits(FindNode(s.st.graph.nodes, a.node).value, a.duration, s.clock);
    forall n | n in next.nodes
      ensures FitsRow(next.graph, n, next.nodes[n])
    {
      assert FitsRow(s.st.graph, n, s.st.nodes[n]);
    }
  }

  lemma FitsStep(s: System, a: Action)
    requires Fits(s.st)
    ensures Fits(Step(s, a).st)
  {
    if Follows(s, a) {
      if a.Park? {
        ParkKeepsFits(s, a);
      } else {
        AnswerKeepsParking(s, a);
        FitsStays(s.st, Answer(s, a).st);
      }
    }
  }

  lemma {:induction false} FitsRun(s: System, acts: seq<Action>)
    requires Fits(s.st)
    ensures Fits(RunFrom(s, acts).st)
    decreases |acts|
  {
    if acts != [] {
      FitsRun(s, acts[..|acts| - 1]);
      FitsStep(RunFrom(s, acts[..|acts| - 1]), acts[|acts| - 1]);
    }
  }

  /** In every reachable state a parked node waits for what its kind waits for:
      an approval for an answer, an input for data, a wait for its time. */
  lemma AlwaysFits(g: Graph, input: Json, acts: seq<Action>)
    ensures Fits(Execute(g, input, acts).st)
  {
    FitsRun(Created(g, input), acts);
  }
}
