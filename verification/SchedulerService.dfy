/** The WorkflowScheduler: loops over rows, updating them in place. */
module SchedulerService {
  import opened Basics
  import opened StateMachines
  import opened Graphs
  import opened RunRows
  import opened Scheduling
  import opened SchedulerRules
  import opened QueueRules

  /** The PENDING nodes all of whose active inputs completed, in graph order. */
  method FindReadyNodes(g: Graph, nodes: map<NodeId, NodeRun>) returns (ready: seq<NodeId>)
    ensures ready == Select(Order(g), ReadySet(g, nodes))
  {
    ready := [];
    var order := Order(g);
    for i := 0 to |order|
      invariant ready == Select(order[..i], ReadySet(g, nodes))
    {
      var n := order[i];
      assert order[..i + 1] == order[..i] + [n];
      SelectSnoc(order[..i], n, ReadySet(g, nodes));
      if n !in nodes || nodes[n].status != NodePending {
        continue;
      }
      var some := exists e :: e in g.edges && e.target == n && EdgeActive(g, nodes, e);
      var all := forall e :: e in g.edges && e.target == n && EdgeActive(g, nodes, e) ==>
                   e.source in nodes && nodes[e.source].status == NodeCompleted;
      if some && all {
        ready := ready + [n];
      }
    }
    assert order[..|order|] == order;
  }

  // ----- mark_unreachable_condition_nodes -----

  /** The nodes one pass skips, judged by the statuses at its start. */
  function PassSet(g: Graph, nodes: map<NodeId, NodeRun>): set<NodeId> {
    set n | n in nodes && CutOff(g, nodes, {}, n)
  }

  lemma PassStep(g: Graph, nodes: map<NodeId, NodeRun>, s: set<NodeId>)
    requires s <= PendingSet(nodes)
    ensures var marked := MarkSkipped(nodes, s);
            && SkipPass(g, nodes, s) == s + PassSet(g, marked)
            && s !! PassSet(g, marked)
            && MarkSkipped(marked, PassSet(g, marked)) == MarkSkipped(nodes, s + PassSet(g, marked))
  {
    var marked := MarkSkipped(nodes, s);
    forall n | n in nodes && n !in s
      ensures CutOff(g, marked, {}, n) <==> CutOff(g, nodes, s, n)
    {
      forall e | e in g.edges
        ensures Dead(g, marked, {}, e) <==> Dead(g, nodes, s, e)
      {
        MarkedEdge(g, nodes, s, e);
      }
    }
    assert MarkSkipped(marked, PassSet(g, marked)) == MarkSkipped(nodes, s + PassSet(g, marked));
  }

  /** The rows after the listed nodes were skipped. */
  ghost function MarkListed(nodes: map<NodeId, NodeRun>, rows: seq<NodeId>): map<NodeId, NodeRun> {
    MarkSkipped(nodes, set n | n in rows)
  }

  lemma MarkOne(nodes: map<NodeId, NodeRun>, rows: seq<NodeId>, n: NodeId)
    requires n in nodes && n !in rows
    ensures MarkListed(nodes, rows + [n]) == MarkListed(nodes, rows)[n := nodes[n].(status := NodeSkipped)]
    ensures MarkListed(nodes, rows)[n] == nodes[n]
  {
  }

  lemma MarkNone(nodes: map<NodeId, NodeRun>)
    ensures MarkListed(nodes, []) == nodes
  {
  }

  /** Skip one node if the statuses at the start of the pass cut it off. */
  method SkipIfCutOff(db: RunStore, snapshot: map<NodeId, NodeRun>, n: NodeId) returns (hit: bool)
    requires n in db.nodes && n in snapshot && db.nodes[n] == snapshot[n]
    modifies db
    ensures hit <==> n in PassSet(db.graph, snapshot)
    ensures db.View() == if hit then old(db.View()).(nodes := old(db.nodes)[n := snapshot[n].(status := NodeSkipped)]) else old(db.View())
  {
    hit := db.nodes[n].status == NodePending && HasIncoming(db.graph, n) && !HasActiveInput(db.graph, snapshot, n);
    if hit {
      db.nodes := db.nodes[n := db.nodes[n].(status := NodeSkipped)];
    }
  }

  /** One pass over the nodes. */
  method SkipOnce(db: RunStore) returns (skipped: seq<NodeId>)
    requires Contract(db.graph) && db.nodes.Keys == Ids(db.graph)
    modifies db
    ensures db.View() == old(db.View()).(nodes := MarkSkipped(old(db.nodes), PassSet(db.graph, old(db.nodes))))
    ensures forall n :: n in skipped <==> n in PassSet(db.graph, old(db.nodes))
  {
    var snapshot, order := db.nodes, Order(db.graph);
    ghost var before, pass := db.View(), PassSet(db.graph, snapshot);
    skipped := [];
    OrderMembers(db.graph);
    MarkNone(snapshot);
    for i := 0 to |order|
      invariant skipped == Select(order[..i], pass)
      invariant db.View() == before.(nodes := MarkListed(snapshot, skipped))
    {
      var n := order[i];
      NextRow(order, i);
      SelectSnoc(order[..i], n, pass);
      SelectMembers(order[..i], pass);
      MarkOne(snapshot, skipped, n);
      var hit := SkipIfCutOff(db, snapshot, n);
      if hit {
        skipped := skipped + [n];
      }
    }
    assert order[..|order|] == order;
    SelectMembers(order, pass);
    assert (set n | n in skipped) == pass;
  }

  ghost function Below(order: seq<NodeId>, i: nat): set<NodeId>
    requires i <= |order|
  {
    set n | n in order[..i]
  }

  lemma BelowSnoc(order: seq<NodeId>, i: nat)
    requires i < |order| && Distinct(order)
    ensures Below(order, i + 1) == Below(order, i) + {order[i]} && order[i] !in Below(order, i)
  {
  }

  lemma NextPass(g: Graph, nodes: map<NodeId, NodeRun>, s: set<NodeId>)
    requires s <= PendingSet(nodes)
    ensures SkipPass(g, nodes, s) <= PendingSet(nodes)
    ensures SkipFrom(g, nodes, SkipPass(g, nodes, s)) == SkipFrom(g, nodes, s)
  {
  }

  lemma FixedPoint(g: Graph, nodes: map<NodeId, NodeRun>, s: set<NodeId>)
    requires s <= PendingSet(nodes) && SkipPass(g, nodes, s) == s
    ensures SkipFrom(g, nodes, s) == s
  {
  }

  lemma MarkNothing(nodes: map<NodeId, NodeRun>)
    ensures MarkSkipped(nodes, {}) == nodes
  {
  }

  lemma EmptyList(rows: seq<NodeId>)
    ensures rows == [] <==> forall n :: n !in rows
  {
    if rows != [] {
      assert rows[0] in rows;
    }
  }

  /** Repeat passes until one changes nothing: the least skip closure. */
  method MarkUnreachable(db: RunStore) returns (skipped: seq<NodeId>)
    requires Contract(db.graph) && db.nodes.Keys == Ids(db.graph)
    modifies db
    ensures db.View() == old(db.View()).(nodes := MarkSkipped(old(db.nodes), SkipSet(db.graph, old(db.nodes))))
    ensures forall n :: n in skipped <==> n in SkipSet(db.graph, old(db.nodes))
  {
    ghost var start, g, before, s: set<NodeId> := db.View(), db.graph, db.nodes, {};
    skipped := [];
    var changed := true;
    MarkNothing(before);
    while changed
      invariant s <= PendingSet(before)
      invariant db.View() == start.(nodes := MarkSkipped(before, s))
      invariant forall n :: n in skipped <==> n in s
      invariant SkipFrom(g, before, s) == SkipSet(g, before)
      invariant !changed ==> SkipPass(g, before, s) == s
      decreases PendingSet(before) - s, changed
    {
      PassStep(g, before, s);
      NextPass(g, before, s);
      var added := SkipOnce(db);
      skipped := skipped + added;
      changed := added != [];
      EmptyList(added);
      s := SkipPass(g, before, s);
    }
    FixedPoint(g, before, s);
  }

  // ----- schedule_ready_nodes -----

  predicate NewlySkipped(before: map<NodeId, NodeRun>, after: map<NodeId, NodeRun>, n: NodeId) {
    HasStatus(before, n, NodePending) && HasStatus(after, n, NodeSkipped)
  }

  /** One NODE_SKIPPED event per node that the marking moved. */
  method RecordSkips(db: RunStore, before: map<NodeId, NodeRun>, ghost s: set<NodeId>)
    requires forall n :: NewlySkipped(before, db.nodes, n) <==> n in s
    modifies db
    ensures db.View() == old(db.View()).(events := old(db.events) + NodeEvents(NodeSkippedEvent, Select(Order(db.graph), s)))
  {
    var order := Order(db.graph);
    for i := 0 to |order|
      invariant db.View() == old(db.View()).(events := old(db.events) + NodeEvents(NodeSkippedEvent, Select(order[..i], s)))
    {
      var n := order[i];
      assert order[..i + 1] == order[..i] + [n];
      SelectSnoc(order[..i], n, s);
      if NewlySkipped(before, db.nodes, n) {
        NodeEventsSnoc(NodeSkippedEvent, Select(order[..i], s), n);
        db.events := db.events + [NodeEvent(NodeSkippedEvent, n)];
      }
    }
    assert order[..|order|] == order;
  }

  /** The rows after a task was created for each listed node. */
  ghost function Submitted(st: RunState, rows: seq<NodeId>, u: Unresolved, now: nat): RunState {
    var q := set n | n in rows;
    st.(nodes := MarkQueued(st.nodes, q),
        tasks := AddTasks(st.graph, st.tasks, q, u, now),
        events := st.events + NodeEvents(NodeQueuedEvent, rows))
  }

  lemma SubmittedNone(st: RunState, u: Unresolved, now: nat)
    ensures Submitted(st, [], u, now) == st
  {
    assert MarkQueued(st.nodes, {}) == st.nodes;
    assert AddTasks(st.graph, st.tasks, {}, u, now) == st.tasks;
  }

  lemma SubmitOne(st: RunState, rows: seq<NodeId>, n: NodeId, u: Unresolved, now: nat)
    requires n in st.nodes && n !in st.tasks && n !in rows
    ensures Submitted(st, rows + [n], u, now) ==
            Put(Submitted(st, rows, u, now), n, st.nodes[n].(status := NodeQueued), TaskFor(st.graph, n, u, now),
                [NodeEvent(NodeQueuedEvent, n)])
    ensures n in Submitted(st, rows, u, now).nodes && Submitted(st, rows, u, now).nodes[n] == st.nodes[n]
    ensures n !in Submitted(st, rows, u, now).tasks
  {
    var a, b := Submitted(st, rows, u, now), Submitted(st, rows + [n], u, now);
    assert b.nodes == a.nodes[n := st.nodes[n].(status := NodeQueued)];
    assert b.tasks == a.tasks[n := TaskFor(st.graph, n, u, now)];
    NodeEventsSnoc(NodeQueuedEvent, rows, n);
    assert b.events == a.events + [NodeEvent(NodeQueuedEvent, n)];
  }

  /** Queue one node and add its task. */
  method SubmitNode(db: RunStore, node: Node, u: Unresolved, now: nat)
    requires node.id in db.nodes
    modifies db
    ensures db.View() == Put(old(db.View()), node.id, old(db.nodes[node.id]).(status := NodeQueued), NewTask(node, u, now),
                             [NodeEvent(NodeQueuedEvent, node.id)])
  {
    var capability, runner := None, None;
    var d := DispatchOf(node, u);
    if d.ToRunner? {
      capability, runner := Some(d.capability), d.runner;
    }
    db.nodes := db.nodes[node.id := db.nodes[node.id].(status := NodeQueued)];
    db.events := db.events + [NodeEvent(NodeQueuedEvent, node.id)];
    db.tasks := db.tasks[node.id := Task(TaskPending, None, None, None, now, 0, MaxAttempts(node), capability, runner)];
  }

  /** One task per ready node that has none yet and whose dispatch resolves. */
  method SubmitTasks(db: RunStore, ready: seq<NodeId>, u: Unresolved, now: nat, ghost q: set<NodeId>) returns (submitted: seq<NodeId>)
    requires Distinct(ready) && forall n :: n in ready ==> n in db.nodes
    requires forall n :: n in ready ==> (n in q <==> n !in db.tasks && !IsPostponed(db.graph, u, n))
    modifies db
    ensures submitted == Select(ready, q)
    ensures db.View() == Submitted(old(db.View()), submitted, u, now)
  {
    ghost var before := db.View();
    submitted := [];
    SubmittedNone(before, u, now);
    for i := 0 to |ready|
      invariant submitted == Select(ready[..i], q)
      invariant forall n :: n in submitted ==> n in ready[..i]
      invariant db.View() == Submitted(before, submitted, u, now)
    {
      var n := ready[i];
      NextRow(ready, i);
      SelectSnoc(ready[..i], n, q);
      var node := FindNode(db.graph.nodes, n);
      if node.None? || n in db.tasks || DispatchOf(node.value, u).Postponed? {
        continue;
      }
      SubmitOne(before, submitted, n, u, now);
      SubmitNode(db, node.value, u, now);
      submitted := submitted + [n];
    }
    assert ready[..|ready|] == ready;
  }

  /** The nodes that get a task, once the cut-off ones are marked. */
  function Fresh(st: RunState, u: Unresolved): set<NodeId> {
    QueueableSet(st.graph, MarkSkipped(st.nodes, SkipSet(st.graph, st.nodes)), st.tasks, u)
  }

  lemma SkippedExactly(g: Graph, nodes: map<NodeId, NodeRun>)
    ensures forall n :: NewlySkipped(nodes, MarkSkipped(nodes, SkipSet(g, nodes)), n) <==> n in SkipSet(g, nodes)
  {
    SkipSetLeast(g, nodes);
  }

  method ScheduleReadyNodes(db: RunStore, u: Unresolved, now: nat) returns (submitted: seq<NodeId>)
    requires Contract(db.graph) && db.nodes.Keys == Ids(db.graph)
    modifies db
    ensures db.View() == AfterSchedule(old(db.View()), u, now)
    ensures submitted == if old(db.run) == RunRunning then Select(Order(db.graph), Fresh(old(db.View()), u)) else []
  {
    if db.run != RunRunning {
      return [];
    }
    var before := db.nodes;
    ghost var s, q := SkipSet(db.graph, db.nodes), Fresh(db.View(), u);
    SkippedExactly(db.graph, db.nodes);
    var _ := MarkUnreachable(db);
    RecordSkips(db, before, s);
    var ready := FindReadyNodes(db.graph, db.nodes);
    ReadyRows(db.graph, db.nodes, db.tasks, u);
    submitted := SubmitTasks(db, ready, u, now, q);
  }

  /** The ready nodes as rows, and the ones among them that get a task. */
  lemma ReadyRows(g: Graph, nodes: map<NodeId, NodeRun>, tasks: map<NodeId, Task>, u: Unresolved)
    requires Contract(g) && nodes.Keys == Ids(g)
    ensures var ready, q := Select(Order(g), ReadySet(g, nodes)), QueueableSet(g, nodes, tasks, u);
            && Distinct(ready) && (forall n :: n in ready ==> n in nodes)
            && (forall n :: n in ready ==> (n in q <==> n !in tasks && !IsPostponed(g, u, n)))
            && Select(ready, q) == Select(Order(g), q) && (set n | n in Select(ready, q)) == q
  {
    var ready, q := Select(Order(g), ReadySet(g, nodes)), QueueableSet(g, nodes, tasks, u);
    OrderMembers(g);
    SelectedRows(Order(g), ReadySet(g, nodes));
    SelectNested(Order(g), ReadySet(g, nodes), q);
    SelectMembers(ready, q);
  }

  // ----- promote_due_waits -----

  /** The rows after the listed timers elapsed. */
  ghost function Woken(st: RunState, rows: seq<NodeId>): RunState {
    st.(nodes := map n | n in st.nodes :: if n in rows && st.nodes[n].parking.Some? then Elapsed(st.nodes[n]) else st.nodes[n],
        events := st.events + ResumeEvents(rows))
  }

  lemma WokenNone(st: RunState)
    ensures Woken(st, []) == st
  {
    assert Woken(st, []).nodes == st.nodes;
  }

  lemma ResumeSnoc(ids: seq<NodeId>, n: NodeId)
    ensures ResumeEvents(ids + [n]) == ResumeEvents(ids) + [NodeEvent(NodeResumed, n), NodeEvent(NodeCompletedEvent, n)]
  {
    assert (ids + [n])[..|ids + [n]| - 1] == ids;
  }

  lemma WokenOthers(st: RunState, rows: seq<NodeId>, n: NodeId)
    requires n in st.nodes && n !in rows
    ensures Woken(st, rows).nodes[n] == st.nodes[n]
  {
  }

  lemma WakeOne(st: RunState, rows: seq<NodeId>, n: NodeId)
    requires n in st.nodes && st.nodes[n].parking.Some? && n !in rows
    ensures Woken(st, rows + [n]) == CompletedTimer(Woken(st, rows), n, Elapsed(st.nodes[n]))
  {
    var a, b := Woken(st, rows), Woken(st, rows + [n]);
    assert b.nodes == a.nodes[n := Elapsed(st.nodes[n])];
    ResumeSnoc(rows, n);
    assert b.events == a.events + [NodeEvent(NodeResumed, n), NodeEvent(NodeCompletedEvent, n)];
  }

  lemma AllWoken(st: RunState, now: nat, rows: seq<NodeId>)
    requires rows == Select(Order(st.graph), DueWaits(st.nodes, now))
    requires forall n :: n in rows <==> n in DueWaits(st.nodes, now)
    ensures Woken(st, rows) == AfterPromoteWaits(st, now)
  {
    assert Woken(st, rows).nodes == MarkElapsed(st.nodes, now);
  }

  function CompletedTimer(st: RunState, n: NodeId, row: NodeRun): RunState {
    st.(nodes := st.nodes[n := row],
        events := st.events + [NodeEvent(NodeResumed, n), NodeEvent(NodeCompletedEvent, n)])
  }

  /** Complete one timer if it is due. */
  method PromoteWait(db: RunStore, n: NodeId, now: nat) returns (fired: bool)
    requires n in db.nodes
    modifies db
    ensures fired <==> DueWait(old(db.nodes[n]), now)
    ensures db.View() == if fired then CompletedTimer(old(db.View()), n, Elapsed(old(db.nodes[n]))) else old(db.View())
  {
    var row := db.nodes[n];
    if row.status != NodeWaiting || row.parking.None? || row.parking.value.reason != "WAIT_TIMER" {
      return false;
    }
    var metadata := row.parking.value.metadata;
    if "resume_at" !in metadata || !metadata["resume_at"].Num? || metadata["resume_at"].n > now {
      return false;
    }
    db.nodes := db.nodes[n := row.(status := NodeCompleted, output := Some(Obj(metadata)))];
    db.events := db.events + [NodeEvent(NodeResumed, n), NodeEvent(NodeCompletedEvent, n)];
    return true;
  }

  method PromoteDueWaits(db: RunStore, now: nat) returns (changed: bool)
    requires Contract(db.graph) && db.nodes.Keys == Ids(db.graph)
    modifies db
    ensures db.View() == AfterPromoteWaits(old(db.View()), now)
    ensures changed <==> DueWaits(old(db.nodes), now) != {}
  {
    ghost var before, due := db.View(), DueWaits(db.nodes, now);
    var order := Order(db.graph);
    OrderMembers(db.graph);
    ghost var rows := [];
    changed := false;
    WokenNone(before);
    for i := 0 to |order|
      invariant rows == Select(order[..i], due)
      invariant changed <==> rows != []
      invariant db.View() == Woken(before, rows)
    {
      var n := order[i];
      NextRow(order, i);
      SelectSnoc(order[..i], n, due);
      SelectMembers(order[..i], due);
      WokenOthers(before, rows, n);
      var fired := PromoteWait(db, n, now);
      if fired {
        WakeOne(before, rows, n);
        rows := rows + [n];
        changed := true;
      }
    }
    assert order[..|order|] == order;
    SelectMembers(order, due);
    AllWoken(before, now, rows);
    if changed {
      assert rows[0] in rows;
    }
  }

  // ----- cancel_run_tasks -----

  /** The rows after the listed live tasks were cancelled with their nodes. */
  ghost function Swept(st: RunState, rows: seq<NodeId>): RunState {
    st.(nodes := map n | n in st.nodes ::
                   if n in rows && !NodeTerminal(st.nodes[n].status) then st.nodes[n].(status := NodeCancelled) else st.nodes[n],
        tasks := map n | n in st.tasks :: if n in rows then st.tasks[n].(status := TaskCancelled) else st.tasks[n],
        events := st.events + NodeEvents(NodeCancelledEvent, rows))
  }

  function CancelledTask(st: RunState, n: NodeId): RunState
    requires n in st.nodes && n in st.tasks
  {
    Put(st, n, if NodeTerminal(st.nodes[n].status) then st.nodes[n] else st.nodes[n].(status := NodeCancelled),
        st.tasks[n].(status := TaskCancelled), [NodeEvent(NodeCancelledEvent, n)])
  }

  lemma SweptOthers(st: RunState, rows: seq<NodeId>, n: NodeId)
    requires n in st.nodes && n !in rows
    ensures Swept(st, rows).nodes[n] == st.nodes[n]
    ensures n in Swept(st, rows).tasks <==> n in st.tasks
    ensures n in st.tasks ==> Swept(st, rows).tasks[n] == st.tasks[n]
  {
  }

  lemma SweepOne(st: RunState, rows: seq<NodeId>, n: NodeId)
    requires n in st.nodes && n in st.tasks && n !in rows
    ensures Swept(st, rows + [n]) == CancelledTask(Swept(st, rows), n)
  {
    var a, b := Swept(st, rows), Swept(st, rows + [n]);
    assert b.nodes == CancelledTask(a, n).nodes;
    assert b.tasks == CancelledTask(a, n).tasks;
    NodeEventsSnoc(NodeCancelledEvent, rows, n);
    assert b.events == CancelledTask(a, n).events;
  }

  lemma SweptNone(st: RunState)
    ensures Swept(st, []) == st
  {
    assert Swept(st, []).nodes == st.nodes;
    assert Swept(st, []).tasks == st.tasks;
  }

  method CancelTask(db: RunStore, n: NodeId)
    requires n in db.nodes && n in db.tasks
    modifies db
    ensures db.View() == CancelledTask(old(db.View()), n)
  {
    db.tasks := db.tasks[n := db.tasks[n].(status := TaskCancelled)];
    if !NodeTerminal(db.nodes[n].status) {
      db.nodes := db.nodes[n := db.nodes[n].(status := NodeCancelled)];
    } else {
      assert db.nodes == db.nodes[n := db.nodes[n]];
    }
    db.events := db.events + [NodeEvent(NodeCancelledEvent, n)];
  }

  /** Cancel one visible live task; leave the others alone. */
  method CancelTaskIfLive(db: RunStore, n: NodeId, hidden: set<NodeId>) returns (hit: bool)
    requires n in db.nodes
    modifies db
    ensures hit <==> n in Cancellable(old(db.tasks), hidden)
    ensures db.View() == if hit then CancelledTask(old(db.View()), n) else old(db.View())
  {
    if n !in db.tasks || n in hidden || TaskTerminal(db.tasks[n].status) {
      return false;
    }
    CancelTask(db, n);
    return true;
  }

  method SweepTasks(db: RunStore, hidden: set<NodeId>)
    requires Contract(db.graph) && db.nodes.Keys == Ids(db.graph)
    modifies db
    ensures db.View() == Swept(old(db.View()), Select(Order(db.graph), Cancellable(old(db.tasks), hidden)))
  {
    ghost var before, c := db.View(), Cancellable(db.tasks, hidden);
    var order := Order(db.graph);
    OrderMembers(db.graph);
    ghost var rows := [];
    SweptNone(before);
    for i := 0 to |order|
      invariant rows == Select(order[..i], c)
      invariant db.View() == Swept(before, rows)
    {
      var n := order[i];
      NextRow(order, i);
      SelectSnoc(order[..i], n, c);
      SelectMembers(order[..i], c);
      SweptOthers(before, rows, n);
      var hit := CancelTaskIfLive(db, n, hidden);
      if hit {
        SweepOne(before, rows, n);
        rows := rows + [n];
      }
    }
    assert order[..|order|] == order;
  }

  ghost function PendingCancelled(nodes: map<NodeId, NodeRun>, done: set<NodeId>): map<NodeId, NodeRun> {
    map n | n in nodes :: if n in done && nodes[n].status == NodePending then nodes[n].(status := NodeCancelled) else nodes[n]
  }

  lemma PendingCancelledOne(nodes: map<NodeId, NodeRun>, done: set<NodeId>, n: NodeId)
    requires n in nodes && n !in done
    ensures var a, b := PendingCancelled(nodes, done), PendingCancelled(nodes, done + {n});
            && a[n] == nodes[n]
            && b == if nodes[n].status == NodePending then a[n := nodes[n].(status := NodeCancelled)] else a
  {
  }

  /** Nodes still PENDING never received a task. */
  method CancelPendingNodes(db: RunStore)
    requires Contract(db.graph) && db.nodes.Keys == Ids(db.graph)
    modifies db
    ensures db.View() == old(db.View()).(nodes := PendingCancelled(old(db.nodes), old(db.nodes.Keys)))
  {
    ghost var before := db.View();
    var order := Order(db.graph);
    OrderMembers(db.graph);
    assert PendingCancelled(before.nodes, {}) == before.nodes;
    for i := 0 to |order|
      invariant db.View() == before.(nodes := PendingCancelled(before.nodes, Below(order, i)))
    {
      var n := order[i];
      NextRow(order, i);
      BelowSnoc(order, i);
      PendingCancelledOne(before.nodes, Below(order, i), n);
      if db.nodes[n].status == NodePending {
        db.nodes := db.nodes[n := db.nodes[n].(status := NodeCancelled)];
      }
    }
    assert Below(order, |order|) == before.nodes.Keys;
  }

  lemma SweepIsCancel(st: RunState, hidden: set<NodeId>, rows: seq<NodeId>)
    requires rows == Select(Order(st.graph), Cancellable(st.tasks, hidden))
    requires forall n :: n in rows <==> n in Cancellable(st.tasks, hidden)
    ensures var swept := Swept(st, rows);
            swept.(nodes := PendingCancelled(swept.nodes, swept.nodes.Keys)) == AfterCancelTasks(st, hidden)
  {
    var c, swept := Cancellable(st.tasks, hidden), Swept(st, rows);
    assert swept.tasks == MarkTasksCancelled(st.tasks, c);
    assert PendingCancelled(swept.nodes, swept.nodes.Keys) == MarkNodesCancelled(st.nodes, c);
  }

  method CancelRunTasks(db: RunStore, hidden: set<NodeId>)
    requires Contract(db.graph) && db.nodes.Keys == Ids(db.graph) && db.tasks.Keys <= Ids(db.graph)
    modifies db
    ensures db.View() == AfterCancelTasks(old(db.View()), hidden)
  {
    ghost var before, rows := db.View(), Select(Order(db.graph), Cancellable(db.tasks, hidden));
    OrderMembers(db.graph);
    SelectMembers(Order(db.graph), Cancellable(db.tasks, hidden));
    SweepTasks(db, hidden);
    CancelPendingNodes(db);
    SweepIsCancel(before, hidden, rows);
  }

  // ----- reconcile_run -----

  ghost predicate Tables(st: RunState) {
    Contract(st.graph) && st.nodes.Keys == Ids(st.graph) && st.tasks.Keys <= Ids(st.graph)
  }

  lemma ScheduleKeepsTables(st: RunState, u: Unresolved, now: nat)
    requires Tables(st)
    ensures Tables(AfterSchedule(st, u, now))
  {
  }

  /** Persist a changed run status, cancelling the live work on failure. */
  method MoveRunTo(db: RunStore, derived: RunStatus, hidden: set<NodeId>)
    requires Tables(db.View())
    modifies db
    ensures db.View() == AfterTransition(old(db.View()), derived, hidden)
  {
    db.run := derived;
    if derived == RunFailed {
      CancelRunTasks(db, hidden);
    }
    db.events := db.events + RunEventsFor(derived);
  }

  lemma TransitionKeepsTables(st: RunState, derived: RunStatus, hidden: set<NodeId>)
    requires Tables(st)
    ensures Tables(AfterTransition(st, derived, hidden))
  {
  }

  /** From the advanced rows on: derive the status and persist it. */
  method ConcludeRun(db: RunStore, before: RunState, u: Unresolved, unflushed: set<NodeId>, now: nat) returns (outcome: Outcome)
    requires Tables(db.View()) && before.graph == db.graph
    modifies db
    ensures Reply(db.View(), outcome) == Conclude(before, old(db.View()), u, unflushed, now)
  {
    var derived := DeriveRun(db.graph, db.nodes);
    if derived != before.run {
      if !RunMay(before.run, derived) {
        db.Rollback(before);
        return InvalidRun;
      }
      TransitionKeepsTables(db.View(), derived, unflushed * (db.tasks.Keys - before.tasks.Keys));
      MoveRunTo(db, derived, unflushed * (db.tasks.Keys - before.tasks.Keys));
    }
    if derived == RunRunning {
      var _ := ScheduleReadyNodes(db, u, now);
    }
    return Accepted;
  }

  method ReconcileRun(db: RunStore, u: Unresolved, unflushed: set<NodeId>, now: nat) returns (outcome: Outcome)
    requires Tables(db.View())
    modifies db
    ensures Reply(db.View(), outcome) == AfterReconcile(old(db.View()), u, unflushed, now)
  {
    var before := db.View();
    if db.run == RunCancelled {
      CancelRunTasks(db, {});
      return Accepted;
    }
    if db.run == RunCompleted || db.run == RunFailed || db.run == RunPaused {
      return Accepted;
    }
    var _ := PromoteDueWaits(db, now);
    ScheduleKeepsTables(db.View(), u, now);
    var _ := ScheduleReadyNodes(db, u, now);
    outcome := ConcludeRun(db, before, u, unflushed, now);
  }
}
