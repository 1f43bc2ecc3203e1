/** Every result of a run has an origin: an output was reported by the client
    that executed the node, given by a person, or left by a timer that ran its
    full time; a failure was reported, or is a rejection that was allowed. */
module Origins {
  import opened Basics
  import opened StateMachines
  import opened Graphs
  import opened RunRows
  import opened Runtime
  import opened Invariant
  import opened RuntimeSafety
  import opened History
  import opened RowOrigins

  /** The state before the `k`th action. */
  function Before(g: Graph, input: Json, acts: seq<Action>, k: nat): System
    requires k <= |acts|
  {
    Execute(g, input, acts[..k])
  }

  lemma BeforeLonger(g: Graph, input: Json, acts: seq<Action>, k: nat)
    requires acts != [] && k < |acts|
    ensures Before(g, input, acts[..|acts| - 1], k) == Before(g, input, acts, k)
  {
    assert acts[..|acts| - 1][..k] == acts[..k];
  }

  // ----- parked nodes -----

  /** The `k`th action parked `n` like this. */
  predicate ParkedBy(g: Graph, input: Json, acts: seq<Action>, k: nat, n: NodeId, parking: Parking) {
    k < |acts| && ReplyTo(Before(g, input, acts, k), acts[k]).outcome.Accepted? && Parks(Before(g, input, acts, k), acts[k], n, parking)
  }

  lemma ParkedEarlier(g: Graph, input: Json, acts: seq<Action>, k: nat, n: NodeId, parking: Parking)
    requires acts != [] && ParkedBy(g, input, acts[..|acts| - 1], k, n, parking)
    ensures ParkedBy(g, input, acts, k, n, parking)
  {
    BeforeLonger(g, input, acts, k);
  }

  lemma ParkingIsAccepted(s: System, a: Action)
    requires a.Park? && Step(s, a).st != s.st
    ensures ReplyTo(s, a).outcome.Accepted?
  {
  }

  lemma RowsKept(g: Graph, input: Json, acts: seq<Action>, n: NodeId)
    requires Publishable(g) && acts != [] && n in Execute(g, input, acts).st.nodes
    ensures n in Before(g, input, acts, |acts| - 1).st.nodes
    ensures Explained(Before(g, input, acts, |acts| - 1), acts[|acts| - 1], n,
                      Before(g, input, acts, |acts| - 1).st.nodes[n], Execute(g, input, acts).st.nodes[n])
  {
    var s := Before(g, input, acts, |acts| - 1);
    AlwaysSane(g, input, acts[..|acts| - 1]);
    AlwaysSane(g, input, acts);
    SameKeys(s.st, Execute(g, input, acts).st);
    StepExplained(s, acts[|acts| - 1], n);
  }

  lemma SameKeys(a: RunState, b: RunState)
    requires Inv(a) && Inv(b) && a.graph == b.graph
    ensures a.nodes.Keys == b.nodes.Keys
  {
  }

  lemma InitialRows(g: Graph, input: Json, n: NodeId)
    requires Publishable(g) && n in Execute(g, input, []).st.nodes
    ensures var row := Execute(g, input, []).st.nodes[n];
            && !row.status.NodeWaiting? && !row.status.NodeFailed?
            && (row.status.NodeCompleted? ==> IsInputId(g, n) && row.output == Some(input))
  {
    FindNodeIds(g, n);
  }

  /** What a WAITING node waits for was set by the Worker that parked it. */
  lemma {:induction false} ParkingHasOrigin(g: Graph, input: Json, acts: seq<Action>, n: NodeId) returns (k: nat)
    requires Publishable(g) && HasStatus(Execute(g, input, acts).st.nodes, n, NodeWaiting)
    ensures Execute(g, input, acts).st.nodes[n].parking.Some?
    ensures ParkedBy(g, input, acts, k, n, Execute(g, input, acts).st.nodes[n].parking.value)
    decreases |acts|
  {
    if acts == [] {
      InitialRows(g, input, n);
    } else {
      var last := |acts| - 1;
      var s := Before(g, input, acts, last);
      RowsKept(g, input, acts, n);
      if Execute(g, input, acts).st.nodes[n] == s.st.nodes[n] {
        k := ParkingHasOrigin(g, input, acts[..last], n);
        ParkedEarlier(g, input, acts, k, n, s.st.nodes[n].parking.value);
      } else {
        k := last;
        ParkingIsAccepted(s, acts[last]);
      }
    }
  }

  // ----- outputs -----

  /** A timer set by the `j`th action left this output, its time being up. */
  predicate TimerLeft(g: Graph, input: Json, acts: seq<Action>, j: nat, n: NodeId, now: nat, output: Json) {
    && j < |acts| && acts[j].Park? && acts[j].node == n && ReplyTo(Before(g, input, acts, j), acts[j]).outcome.Accepted?
    && var set_at := Before(g, input, acts, j).clock;
       output == Obj(TimerMetadata(set_at, acts[j].duration)) && set_at + AtLeastOne(acts[j].duration) <= now
  }

  /** The `k`th action completed `n` with this output. */
  ghost predicate GivenBy(g: Graph, input: Json, acts: seq<Action>, k: nat, n: NodeId, output: Json) {
    && k < |acts| && !HasStatus(Before(g, input, acts, k).st.nodes, n, NodeCompleted)
    && Gives(Before(g, input, acts, k), acts[k], n, output)
    && (acts[k].ReconcileRun? ==> exists j: nat :: j < k && TimerLeft(g, input, acts, j, n, Before(g, input, acts, k).clock, output))
  }

  lemma GivenEarlier(g: Graph, input: Json, acts: seq<Action>, k: nat, n: NodeId, output: Json)
    requires acts != [] && GivenBy(g, input, acts[..|acts| - 1], k, n, output)
    ensures GivenBy(g, input, acts, k, n, output)
  {
    var init := acts[..|acts| - 1];
    BeforeLonger(g, input, acts, k);
    if acts[k].ReconcileRun? {
      var j: nat :| j < k && TimerLeft(g, input, init, j, n, Before(g, input, init, k).clock, output);
      BeforeLonger(g, input, acts, j);
      assert TimerLeft(g, input, acts, j, n, Before(g, input, acts, k).clock, output);
    }
  }

  lemma TimerParking(node: Node, duration: int, set_at: nat, row: NodeRun, now: nat)
    requires TimerUp(row, now) && row.parking == Some(WaitsFor(node, duration, set_at))
    ensures row.parking.value.metadata == TimerMetadata(set_at, duration) && set_at + AtLeastOne(duration) <= now
  {
  }

  lemma NowGiven(g: Graph, input: Json, acts: seq<Action>, n: NodeId)
    requires Publishable(g) && acts != [] && HasStatus(Execute(g, input, acts).st.nodes, n, NodeCompleted)
    requires !HasStatus(Before(g, input, acts, |acts| - 1).st.nodes, n, NodeCompleted)
    ensures var row := Execute(g, input, acts).st.nodes[n];
            row.output.Some? && GivenBy(g, input, acts, |acts| - 1, n, row.output.value)
  {
    var last := |acts| - 1;
    var s, a := Before(g, input, acts, last), acts[last];
    RowsKept(g, input, acts, n);
    if a.ReconcileRun? {
      var j := ParkingHasOrigin(g, input, acts[..last], n);
      BeforeLonger(g, input, acts, j);
      var t := Before(g, input, acts, j);
      TimerParking(FindNode(t.st.graph.nodes, n).value, acts[j].duration, t.clock, s.st.nodes[n], s.clock);
      assert TimerLeft(g, input, acts, j, n, s.clock, Execute(g, input, acts).st.nodes[n].output.value);
    }
  }

  lemma CompletedStays(g: Graph, input: Json, acts: seq<Action>, n: NodeId)
    requires Publishable(g) && acts != [] && HasStatus(Before(g, input, acts, |acts| - 1).st.nodes, n, NodeCompleted)
    ensures n in Execute(g, input, acts).st.nodes
    ensures Execute(g, input, acts).st.nodes[n] == Before(g, input, acts, |acts| - 1).st.nodes[n]
  {
    var init, last := acts[..|acts| - 1], acts[|acts| - 1];
    assert acts == init + [last];
    OutputIsFinal(g, input, init, [last], n);
  }

  /** The output of a COMPLETED node is the run input, for an input node, or was
      given by one action when the node was not yet COMPLETED: the payload its
      executor reported, the approval, the data submitted and found valid, or, for
      a timer, the record of a wait that was set and whose whole time has passed. */
  lemma {:induction false} OutputsHaveOrigins(g: Graph, input: Json, acts: seq<Action>, n: NodeId)
    requires Publishable(g) && HasStatus(Execute(g, input, acts).st.nodes, n, NodeCompleted)
    ensures var output := Execute(g, input, acts).st.nodes[n].output;
            && output.Some?
            && ((IsInputId(g, n) && output == Some(input)) || exists k: nat :: GivenBy(g, input, acts, k, n, output.value))
    decreases |acts|
  {
    if acts == [] {
      InitialRows(g, input, n);
    } else {
      var last := |acts| - 1;
      if HasStatus(Before(g, input, acts, last).st.nodes, n, NodeCompleted) {
        CompletedStays(g, input, acts, n);
        OutputsHaveOrigins(g, input, acts[..last], n);
        var output := Execute(g, input, acts).st.nodes[n].output.value;
        if k: nat :| GivenBy(g, input, acts[..last], k, n, output) {
          GivenEarlier(g, input, acts, k, n, output);
        }
      } else {
        NowGiven(g, input, acts, n);
      }
    }
  }

  // ----- failures -----

  predicate FailedBy(g: Graph, input: Json, acts: seq<Action>, k: nat, n: NodeId) {
    k < |acts| && !HasStatus(Before(g, input, acts, k).st.nodes, n, NodeFailed) && Fails(Before(g, input, acts, k), acts[k], n)
  }

  /** A FAILED node was reported as failed, by a Runner only when its report was
      not retryable or the budget left no retry, or it is a parked approval that
      was rejected and may be. */
  lemma {:induction false} FailuresHaveOrigins(g: Graph, input: Json, acts: seq<Action>, n: NodeId) returns (k: nat)
    requires Publishable(g) && HasStatus(Execute(g, input, acts).st.nodes, n, NodeFailed)
    ensures FailedBy(g, input, acts, k, n)
    decreases |acts|
  {
    if acts == [] {
      InitialRows(g, input, n);
    } else {
      var last := |acts| - 1;
      RowsKept(g, input, acts, n);
      if HasStatus(Before(g, input, acts, last).st.nodes, n, NodeFailed) {
        k := FailuresHaveOrigins(g, input, acts[..last], n);
        BeforeLonger(g, input, acts, k);
      } else {
        k := last;
      }
    }
  }
}
