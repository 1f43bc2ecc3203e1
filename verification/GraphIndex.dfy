/** Graph analyses: memoised ancestor and descendant sets, forward
    reachability and Kahn's cycle detection, each proved to compute the
    relation it is named after. */
module GraphAnalysis {
  import opened Basics
  import opened Graphs

  function EdgesInto(edges: seq<Edge>, n: NodeId): seq<Edge> {
    if edges == [] then []
    else EdgesInto(edges[..|edges| - 1], n) +
         (if edges[|edges| - 1].target == n then [edges[|edges| - 1]] else [])
  }

  function EdgesOutOf(edges: seq<Edge>, n: NodeId): seq<Edge> {
    if edges == [] then []
    else EdgesOutOf(edges[..|edges| - 1], n) +
         (if edges[|edges| - 1].source == n then [edges[|edges| - 1]] else [])
  }

  lemma {:induction false} EdgesIntoMembers(edges: seq<Edge>, n: NodeId)
    ensures forall e :: e in EdgesInto(edges, n) <==> e in edges && e.target == n
  {
    if edges != [] {
      EdgesIntoMembers(edges[..|edges| - 1], n);
      assert edges == edges[..|edges| - 1] + [edges[|edges| - 1]];
    }
  }

  lemma {:induction false} EdgesOutOfMembers(edges: seq<Edge>, n: NodeId)
    ensures forall e :: e in EdgesOutOf(edges, n) <==> e in edges && e.source == n
  {
    if edges != [] {
      EdgesOutOfMembers(edges[..|edges| - 1], n);
      assert edges == edges[..|edges| - 1] + [edges[|edges| - 1]];
    }
  }

  /** The other nodes from which `n` can be reached. */
  ghost function Ancestors(g: Graph, n: NodeId): (r: set<NodeId>)
    ensures forall a :: a in r <==> a != n && Reaches(g, a, n)
  {
    var r := set e | e in g.edges && e.source != n && Reaches(g, e.source, n) :: e.source;
    assert forall a :: a != n && Reaches(g, a, n) ==> a in r by {
      forall a | a != n && Reaches(g, a, n)
        ensures a in r
      {
        var e := ReachesFirst(g, a, n);
      }
    }
    r
  }

  /** The other nodes that can be reached from `n`. */
  ghost function Descendants(g: Graph, n: NodeId): (r: set<NodeId>)
    ensures forall d :: d in r <==> d != n && Reaches(g, n, d)
  {
    var r := set e | e in g.edges && e.target != n && Reaches(g, n, e.target) :: e.target;
    assert forall d :: d != n && Reaches(g, n, d) ==> d in r by {
      forall d | d != n && Reaches(g, n, d)
        ensures d in r
      {
        var e := ReachesLast(g, n, d);
      }
    }
    r
  }

  ghost predicate ReachedFrom(g: Graph, starts: seq<NodeId>, x: NodeId) {
    x in starts || exists s :: s in starts && Reaches(g, s, x)
  }

  /** On a cycle, or downstream of one. */
  ghost predicate CycleTainted(g: Graph, x: NodeId) {
    exists c :: Reaches(g, c, c) && (c == x || Reaches(g, c, x))
  }

  // ----- frontier arguments -----

  lemma BackwardClosed(g: Graph, n: NodeId, seen: set<NodeId>)
    requires forall e :: e in g.edges && (e.target == n || e.target in seen) ==>
               e.source == n || e.source in seen
    ensures forall a :: Reaches(g, a, n) ==> a == n || a in seen
  {
    forall a | Reaches(g, a, n)
      ensures a == n || a in seen
    {
      var w :| w != [] && Walk(g, a, w, n);
      PredecessorClosed(g, seen + {n}, a, w, n);
    }
  }

  lemma {:induction false} ForwardWalk(g: Graph, s: set<NodeId>, a: NodeId, w: seq<Edge>, b: NodeId)
    requires forall e :: e in g.edges && e.source in s ==> e.target in s
    requires Walk(g, a, w, b) && a in s
    ensures b in s
    decreases |w|
  {
    if w != [] {
      ForwardWalk(g, s, w[0].target, w[1..], b);
    }
  }

  lemma ForwardClosed(g: Graph, s: set<NodeId>, a: NodeId, b: NodeId)
    requires forall e :: e in g.edges && e.source in s ==> e.target in s
    requires a in s && Reaches(g, a, b)
    ensures b in s
  {
    var w :| w != [] && Walk(g, a, w, b);
    ForwardWalk(g, s, a, w, b);
  }

  lemma DescendantsClosed(g: Graph, n: NodeId, seen: set<NodeId>)
    requires forall e :: e in g.edges && (e.source == n || e.source in seen) ==>
               e.target == n || e.target in seen
    ensures forall d :: Reaches(g, n, d) ==> d == n || d in seen
  {
    forall d | Reaches(g, n, d)
      ensures d == n || d in seen
    {
      ForwardClosed(g, seen + {n}, n, d);
    }
  }

  lemma SourceMembers(edges: seq<Edge>, r: seq<NodeId>)
    requires |r| == |edges| && forall i :: 0 <= i < |edges| ==> r[i] == edges[i].source
    ensures forall x :: x in r <==> exists e :: e in edges && e.source == x
  {
  }

  lemma TargetMembers(edges: seq<Edge>, r: seq<NodeId>)
    requires |r| == |edges| && forall i :: 0 <= i < |edges| ==> r[i] == edges[i].target
    ensures forall x :: x in r <==> exists e :: e in edges && e.target == x
  {
  }

  lemma StepBack(g: Graph, e: Edge, n: NodeId)
    requires e in g.edges && (e.target == n || Reaches(g, e.target, n))
    ensures Reaches(g, e.source, n)
  {
    EdgeReaches(g, e);
    if e.target != n {
      ReachesTransitive(g, e.source, e.target, n);
    }
  }

  lemma StepForward(g: Graph, n: NodeId, e: Edge)
    requires e in g.edges && (e.source == n || Reaches(g, n, e.source))
    ensures Reaches(g, n, e.target)
  {
    EdgeReaches(g, e);
    if e.source != n {
      ReachesTransitive(g, n, e.source, e.target);
    }
  }

  ghost predicate HasEdge(g: Graph, a: NodeId, b: NodeId) {
    exists e :: e in g.edges && e.source == a && e.target == b
  }

  ghost predicate ListsInto(m: map<NodeId, seq<Edge>>, edges: seq<Edge>) {
    forall n :: n in m ==> m[n] == EdgesInto(edges, n)
  }

  ghost predicate ListsOutOf(m: map<NodeId, seq<Edge>>, edges: seq<Edge>) {
    forall n :: n in m ==> m[n] == EdgesOutOf(edges, n)
  }

  lemma NextEdge(g: Graph, i: nat)
    requires Contract(g) && i < |g.edges|
    ensures g.edges[i].source in Ids(g) && g.edges[i].target in Ids(g)
    ensures g.edges[..i + 1] == g.edges[..i] + [g.edges[i]]
  {
    assert g.edges[i] in g.edges;
  }

  lemma ListsStep(inc: map<NodeId, seq<Edge>>, out: map<NodeId, seq<Edge>>, edges: seq<Edge>, e: Edge)
    requires e.target in inc && e.source in out
    requires ListsInto(inc, edges) && ListsOutOf(out, edges)
    ensures ListsInto(inc[e.target := inc[e.target] + [e]], edges + [e])
    ensures ListsOutOf(out[e.source := out[e.source] + [e]], edges + [e])
  {
    assert (edges + [e])[..|edges|] == edges;
  }

  /** Push the neighbours that are neither visited nor the start node. */
  method PushUnseen(neighbours: seq<NodeId>, visited: set<NodeId>, stack: seq<NodeId>) returns (r: seq<NodeId>)
    ensures forall x :: x in r <==> x in stack || (x in neighbours && x !in visited)
  {
    r := stack;
    for i := 0 to |neighbours|
      invariant forall x :: x in r <==> x in stack || (x in neighbours[..i] && x !in visited)
    {
      assert neighbours[..i + 1] == neighbours[..i] + [neighbours[i]];
      if neighbours[i] !in visited {
        r := r + [neighbours[i]];
      }
    }
    assert neighbours[..|neighbours|] == neighbours;
  }

  /** State of the backward worklist for `n`: everything seen or stacked
      reaches `n`, and every edge out of the explored part is accounted for. */
  ghost predicate Backward(g: Graph, n: NodeId, seen: set<NodeId>, stack: seq<NodeId>) {
    && (forall x :: x in seen ==> x != n && Reaches(g, x, n))
    && (forall x :: x in stack ==> Reaches(g, x, n))
    && (forall e :: e in g.edges && (e.target == n || e.target in seen) ==>
          e.source == n || e.source in seen || e.source in stack)
  }

  ghost predicate Forward(g: Graph, n: NodeId, seen: set<NodeId>, stack: seq<NodeId>) {
    && (forall x :: x in seen ==> x != n && Reaches(g, n, x))
    && (forall x :: x in stack ==> Reaches(g, n, x))
    && (forall e :: e in g.edges && (e.source == n || e.source in seen) ==>
          e.target == n || e.target in seen || e.target in stack)
  }

  lemma BackwardStart(g: Graph, n: NodeId, stack: seq<NodeId>)
    requires forall x :: x in stack <==> HasEdge(g, x, n)
    ensures Backward(g, n, {}, stack)
  {
    forall x | x in stack
      ensures Reaches(g, x, n)
    {
      var e :| e in g.edges && e.target == n && e.source == x;
      EdgeReaches(g, e);
    }
    forall e | e in g.edges && e.target == n
      ensures e.source in stack
    {
      assert HasEdge(g, e.source, n);
    }
  }

  lemma BackwardVisit(g: Graph, n: NodeId, seen: set<NodeId>, stack: seq<NodeId>, top: NodeId, stack': seq<NodeId>)
    requires Backward(g, n, seen, stack + [top]) && top != n
    requires forall x :: x in stack' <==>
               x in stack || (HasEdge(g, x, top) && x !in seen + {top} + {n})
    ensures Backward(g, n, seen + {top}, stack')
  {
    forall x | x in stack'
      ensures Reaches(g, x, n)
    {
      if x in stack {
        assert x in stack + [top];
      } else {
        var e :| e in g.edges && e.target == top && e.source == x;
        assert top in stack + [top];
        StepBack(g, e, n);
      }
    }
    assert forall x :: x in stack + [top] <==> x in stack || x == top;
    forall e | e in g.edges && e.target == top
      ensures e.source == n || e.source in seen + {top} || e.source in stack'
    {
      assert HasEdge(g, e.source, top);
    }
  }

  lemma ForwardStart(g: Graph, n: NodeId, stack: seq<NodeId>)
    requires forall x :: x in stack <==> HasEdge(g, n, x)
    ensures Forward(g, n, {}, stack)
  {
    forall x | x in stack
      ensures Reaches(g, n, x)
    {
      var e :| e in g.edges && e.source == n && e.target == x;
      EdgeReaches(g, e);
    }
    forall e | e in g.edges && e.source == n
      ensures e.target in stack
    {
      assert HasEdge(g, n, e.target);
    }
  }

  lemma ForwardVisit(g: Graph, n: NodeId, seen: set<NodeId>, stack: seq<NodeId>, top: NodeId, stack': seq<NodeId>)
    requires Forward(g, n, seen, stack + [top]) && top != n
    requires forall x :: x in stack' <==>
               x in stack || (HasEdge(g, top, x) && x !in seen + {top} + {n})
    ensures Forward(g, n, seen + {top}, stack')
  {
    forall x | x in stack'
      ensures Reaches(g, n, x)
    {
      if x in stack {
        assert x in stack + [top];
      } else {
        var e :| e in g.edges && e.source == top && e.target == x;
        assert top in stack + [top];
        StepForward(g, n, e);
      }
    }
    assert forall x :: x in stack + [top] <==> x in stack || x == top;
    forall e | e in g.edges && e.source == top
      ensures e.target == n || e.target in seen + {top} || e.target in stack'
    {
      assert HasEdge(g, top, e.target);
    }
  }

  ghost predicate Spread(g: Graph, starts: seq<NodeId>, bound: set<NodeId>, seen: set<NodeId>, stack: seq<NodeId>) {
    && seen <= bound
    && (forall x :: x in stack ==> x in bound)
    && (forall e :: e in g.edges ==> e.target in bound)
    && (forall x :: x in seen || x in stack ==> ReachedFrom(g, starts, x))
    && (forall x :: x in starts ==> x in seen || x in stack)
    && (forall e :: e in g.edges && e.source in seen ==> e.target in seen || e.target in stack)
  }

  lemma ReachedStep(g: Graph, starts: seq<NodeId>, e: Edge)
    requires e in g.edges && ReachedFrom(g, starts, e.source)
    ensures ReachedFrom(g, starts, e.target)
  {
    if e.source in starts {
      StepForward(g, e.source, e);
    } else {
      var s :| s in starts && Reaches(g, s, e.source);
      StepForward(g, s, e);
    }
  }

  lemma SpreadVisit(g: Graph, starts: seq<NodeId>, bound: set<NodeId>, seen: set<NodeId>, stack: seq<NodeId>,
                    top: NodeId, stack': seq<NodeId>)
    requires Spread(g, starts, bound, seen, stack + [top])
    requires forall x :: x in stack' <==>
               x in stack || (HasEdge(g, top, x) && x !in seen + {top})
    ensures Spread(g, starts, bound, seen + {top}, stack')
  {
    assert forall x :: x in stack + [top] <==> x in stack || x == top;
    forall x | x in stack'
      ensures ReachedFrom(g, starts, x)
    {
      if x !in stack {
        var e :| e in g.edges && e.source == top && e.target == x;
        ReachedStep(g, starts, e);
      }
    }
    forall e | e in g.edges && e.source == top
      ensures e.target in seen + {top} || e.target in stack'
    {
      assert HasEdge(g, top, e.target);
    }
  }

  lemma SpreadDone(g: Graph, starts: seq<NodeId>, bound: set<NodeId>, seen: set<NodeId>)
    requires Spread(g, starts, bound, seen, [])
    ensures forall x :: x in seen <==> ReachedFrom(g, starts, x)
  {
    forall x | ReachedFrom(g, starts, x)
      ensures x in seen
    {
      if x !in starts {
        var s :| s in starts && Reaches(g, s, x);
        ForwardClosed(g, seen, s, x);
      }
    }
  }

  // ----- Kahn's algorithm -----

  /** Edges into `n` whose source is not yet done (parallel edges counted). */
  ghost function CountInto(edges: seq<Edge>, n: NodeId, done: set<NodeId>): nat {
    if edges == [] then 0
    else CountInto(edges[..|edges| - 1], n, done) +
         (if edges[|edges| - 1].target == n && edges[|edges| - 1].source !in done then 1 else 0)
  }

  ghost function CountTargets(edges: seq<Edge>, n: NodeId): nat {
    if edges == [] then 0
    else CountTargets(edges[..|edges| - 1], n) + (if edges[|edges| - 1].target == n then 1 else 0)
  }

  lemma {:induction false} CountTargetsConcat(v: seq<Edge>, w: seq<Edge>, n: NodeId)
    ensures CountTargets(v + w, n) == CountTargets(v, n) + CountTargets(w, n)
    decreases |w|
  {
    if w == [] {
      assert v + w == v;
    } else {
      assert (v + w)[..|v + w| - 1] == v + w[..|w| - 1];
      CountTargetsConcat(v, w[..|w| - 1], n);
    }
  }

  lemma {:induction false} CountIntoAll(edges: seq<Edge>, n: NodeId)
    ensures CountInto(edges, n, {}) == |EdgesInto(edges, n)|
  {
    if edges != [] {
      CountIntoAll(edges[..|edges| - 1], n);
    }
  }

  lemma {:induction false} CountIntoDone(edges: seq<Edge>, n: NodeId, done: set<NodeId>, c: NodeId)
    requires c !in done
    ensures CountInto(edges, n, done) ==
            CountInto(edges, n, done + {c}) + CountTargets(EdgesOutOf(edges, c), n)
  {
    if edges != [] {
      var init, last := edges[..|edges| - 1], edges[|edges| - 1];
      CountIntoDone(init, n, done, c);
      if last.source == c {
        var out := EdgesOutOf(init, c);
        assert (out + [last])[..|out|] == out;
      } else {
        assert EdgesOutOf(edges, c) == EdgesOutOf(init, c) + [];
        assert EdgesOutOf(init, c) + [] == EdgesOutOf(init, c);
      }
    }
  }

  lemma {:induction false} CountIntoZero(edges: seq<Edge>, n: NodeId, done: set<NodeId>)
    ensures CountInto(edges, n, done) == 0 <==> forall e :: e in edges && e.target == n ==> e.source in done
  {
    if edges != [] {
      CountIntoZero(edges[..|edges| - 1], n, done);
      assert edges == edges[..|edges| - 1] + [edges[|edges| - 1]];
    }
  }

  lemma NextTarget(out: seq<Edge>, k: nat)
    requires k < |out|
    ensures forall n :: CountTargets(out[..k + 1], n) == CountTargets(out[..k], n) + (if out[k].target == n then 1 else 0)
    ensures CountTargets(out[..k + 1], out[k].target) <= CountTargets(out, out[k].target)
  {
    assert out[..k + 1][..k] == out[..k];
    CountTargetsConcat(out[..k + 1], out[k + 1..], out[k].target);
    assert out[..k + 1] + out[k + 1..] == out;
  }

  /** Decrement the in-degree of every target, queueing what drops to zero. */
  method Relax(out: seq<Edge>, indegree: map<NodeId, int>, queue: seq<NodeId>)
    returns (indegree': map<NodeId, int>, queue': seq<NodeId>)
    requires forall e :: e in out ==> e.target in indegree
    requires forall n :: n in indegree ==> indegree[n] >= CountTargets(out, n)
    requires Distinct(queue) && forall x :: x in queue ==> x in indegree && indegree[x] == 0
    ensures indegree'.Keys == indegree.Keys
    ensures forall n :: n in indegree ==> indegree'[n] == indegree[n] - CountTargets(out, n)
    ensures Distinct(queue')
    ensures forall x :: x in queue' <==>
              x in queue || (x in indegree && indegree[x] > 0 && indegree'[x] == 0)
  {
    indegree', queue' := indegree, queue;
    for k := 0 to |out|
      invariant indegree'.Keys == indegree.Keys
      invariant forall n :: n in indegree ==> indegree'[n] == indegree[n] - CountTargets(out[..k], n)
      invariant Distinct(queue')
      invariant forall x :: x in queue' <==>
                  x in queue || (x in indegree && indegree[x] > 0 && indegree'[x] == 0)
    {
      var t := out[k].target;
      if t in indegree {
        NextTarget(out, k);
        indegree' := indegree'[t := indegree'[t] - 1];
        if indegree'[t] == 0 {
          queue' := queue' + [t];
        }
      }
    }
    assert out[..|out|] == out;
  }

  ghost function Members(s: seq<NodeId>): set<NodeId> {
    set x | x in s
  }

  /** Kahn's invariant: `order` lists the removed nodes, each after all its
      predecessors; in-degrees count the edges from nodes not yet removed. */
  ghost predicate Kahn(g: Graph, indegree: map<NodeId, int>, order: seq<NodeId>, queue: seq<NodeId>) {
    && indegree.Keys == Ids(g)
    && (forall n :: n in indegree ==> indegree[n] == CountInto(g.edges, n, Members(order)))
    && Distinct(queue)
    && (forall x :: x in queue ==> x !in order)
    && (forall x :: x in queue || x in order <==> x in indegree && indegree[x] == 0)
    && PredecessorsFirst(g, order)
  }

  ghost predicate PredecessorsFirst(g: Graph, order: seq<NodeId>) {
    forall i, e :: 0 <= i < |order| && e in g.edges && e.target == order[i] ==> e.source in order[..i]
  }

  lemma KahnStart(g: Graph, indegree: map<NodeId, int>, queue: seq<NodeId>)
    requires indegree.Keys == Ids(g)
    requires forall n :: n in indegree ==> indegree[n] == |EdgesInto(g.edges, n)|
    requires Distinct(queue)
    requires forall x :: x in queue <==> x in indegree && indegree[x] == 0
    ensures Kahn(g, indegree, [], queue)
  {
    assert Members([]) == {};
    forall n | n in indegree
      ensures indegree[n] == CountInto(g.edges, n, Members([]))
    {
      CountIntoAll(g.edges, n);
    }
  }

  lemma KahnRelaxable(g: Graph, indegree: map<NodeId, int>, order: seq<NodeId>, current: NodeId, rest: seq<NodeId>)
    requires Contract(g) && Kahn(g, indegree, order, [current] + rest)
    ensures current in Ids(g) && current !in order
    ensures Distinct(rest) && forall x :: x in rest ==> x in indegree && indegree[x] == 0
    ensures forall e :: e in EdgesOutOf(g.edges, current) ==> e.target in indegree
    ensures forall n :: n in indegree ==>
              indegree[n] == CountInto(g.edges, n, Members(order) + {current}) + CountTargets(EdgesOutOf(g.edges, current), n)
  {
    assert forall x :: x == current || x in rest ==> x in [current] + rest;
    RestDistinct(current, rest);
    EdgesOutOfMembers(g.edges, current);
    forall n | n in indegree
      ensures indegree[n] == CountInto(g.edges, n, Members(order) + {current}) + CountTargets(EdgesOutOf(g.edges, current), n)
    {
      CountIntoDone(g.edges, n, Members(order), current);
    }
  }

  lemma KahnVisit(g: Graph, indegree: map<NodeId, int>, order: seq<NodeId>, current: NodeId, rest: seq<NodeId>,
                  indegree': map<NodeId, int>, queue': seq<NodeId>)
    requires Contract(g) && Kahn(g, indegree, order, [current] + rest)
    requires indegree'.Keys == indegree.Keys
    requires forall n :: n in indegree ==>
               indegree'[n] == indegree[n] - CountTargets(EdgesOutOf(g.edges, current), n)
    requires Distinct(queue')
    requires forall x :: x in queue' <==>
               x in rest || (x in indegree && indegree[x] > 0 && indegree'[x] == 0)
    ensures Kahn(g, indegree', order + [current], queue')
    ensures Members(order + [current]) == Members(order) + {current}
  {
    var queue, order' := [current] + rest, order + [current];
    KahnRelaxable(g, indegree, order, current, rest);
    assert Members(order') == Members(order) + {current};
    assert forall x :: x in queue <==> x == current || x in rest;
    assert forall x :: x in order' <==> x in order || x == current;
    assert current in queue;
    CountIntoZero(g.edges, current, Members(order));
    forall x | x in queue'
      ensures x !in order'
    {
      if x in rest {
        RestDistinct(current, rest);
        assert x in queue;
      }
    }
    forall x | x in indegree && indegree'[x] == 0
      ensures x in queue' || x in order'
    {
      if indegree[x] == 0 {
        assert x in queue || x in order;
      }
    }
    forall x | x in queue' || x in order'
      ensures x in indegree && indegree'[x] == 0
    {
      if x in rest || x in order' {
        assert x in queue || x in order;
        assert CountTargets(EdgesOutOf(g.edges, current), x) == 0;
      }
    }
    PredecessorsFirstSnoc(g, order, current);
  }

  lemma PredecessorsFirstSnoc(g: Graph, order: seq<NodeId>, x: NodeId)
    requires PredecessorsFirst(g, order)
    requires forall e :: e in g.edges && e.target == x ==> e.source in order
    ensures PredecessorsFirst(g, order + [x])
  {
    var order' := order + [x];
    forall i, e | 0 <= i < |order'| && e in g.edges && e.target == order'[i]
      ensures e.source in order'[..i]
    {
      if i < |order| {
        assert order'[..i] == order[..i];
        assert e.source in order[..i];
      } else {
        assert order'[..i] == order;
      }
    }
  }

  lemma RestDistinct(x: NodeId, rest: seq<NodeId>)
    requires Distinct([x] + rest)
    ensures x !in rest && Distinct(rest)
  {
    var s := [x] + rest;
    assert forall i :: 0 <= i < |rest| ==> rest[i] == s[i + 1];
    assert s[0] == x;
  }

  /** Along a walk into a removed node every node was removed earlier. */
  lemma {:induction false} RemovedBefore(g: Graph, order: seq<NodeId>, a: NodeId, w: seq<Edge>, i: nat)
    requires PredecessorsFirst(g, order) && i < |order|
    requires w != [] && Walk(g, a, w, order[i])
    ensures a in order[..i]
    decreases |w|
  {
    WalkLast(g, a, w, order[i]);
    var e, init := w[|w| - 1], w[..|w| - 1];
    assert e.source in order[..i];
    var j :| 0 <= j < i && order[j] == e.source;
    if init != [] {
      RemovedBefore(g, order, a, init, j);
      assert forall x :: x in order[..j] ==> x in order[..i];
    }
  }

  /** The leftovers are exactly the nodes on or downstream of a cycle. */
  lemma KahnExact(g: Graph, indegree: map<NodeId, int>, order: seq<NodeId>)
    requires Contract(g) && Kahn(g, indegree, order, [])
    ensures forall x :: x in indegree && indegree[x] > 0 <==> x in Ids(g) && CycleTainted(g, x)
  {
    var left := set n | n in indegree && indegree[n] > 0;
    forall x | x in Ids(g) && CycleTainted(g, x)
      ensures indegree[x] > 0
    {
      if indegree[x] == 0 {
        assert x in order;
        NotTainted(g, order, x);
        assert false;
      }
    }
    forall x | x in left
      ensures HasPredecessor(g, left, x)
    {
      CountIntoZero(g.edges, x, Members(order));
      var e :| e in g.edges && e.target == x && e.source !in Members(order);
      assert e.source in left;
    }
    forall x | x in left
      ensures CycleTainted(g, x)
    {
      var c := PredecessorsGiveCycle(g, left, x);
    }
  }

  lemma NotTainted(g: Graph, order: seq<NodeId>, x: NodeId)
    requires PredecessorsFirst(g, order) && x in order
    ensures !CycleTainted(g, x)
  {
    forall c | Reaches(g, c, c)
      ensures c !in order
    {
      if c in order {
        FirstNotOnCycle(g, order, c);
      }
    }
    forall c | Reaches(g, c, x)
      ensures c in order
    {
      var w :| w != [] && Walk(g, c, w, x);
      var i :| 0 <= i < |order| && order[i] == x;
      RemovedBefore(g, order, c, w, i);
    }
  }

  lemma FirstNotOnCycle(g: Graph, order: seq<NodeId>, c: NodeId)
    requires PredecessorsFirst(g, order) && c in order
    ensures !Reaches(g, c, c)
  {
    if Reaches(g, c, c) {
      var w :| w != [] && Walk(g, c, w, c);
      var i :| 0 <= i < |order| && order[i] == c;
      DescendForever(g, order, c, w, i);
    }
  }

  lemma {:induction false} DescendForever(g: Graph, order: seq<NodeId>, c: NodeId, w: seq<Edge>, i: nat)
    requires PredecessorsFirst(g, order) && i < |order| && order[i] == c
    requires w != [] && Walk(g, c, w, c)
    ensures false
    decreases i
  {
    RemovedBefore(g, order, c, w, i);
    var j :| 0 <= j < i && order[j] == c;
    DescendForever(g, order, c, w, j);
  }

  ghost predicate AncestorAnswers(g: Graph, memo: map<NodeId, set<NodeId>>) {
    forall n :: n in memo ==> memo[n] == Ancestors(g, n)
  }

  ghost predicate DescendantAnswers(g: Graph, memo: map<NodeId, set<NodeId>>) {
    forall n :: n in memo ==> memo[n] == Descendants(g, n)
  }

  ghost predicate CycleAnswer(g: Graph, r: set<NodeId>) {
    forall x :: x in r <==> x in Ids(g) && CycleTainted(g, x)
  }

  class GraphIndex {
    const graph: Graph
    const incoming: map<NodeId, seq<Edge>>
    const outgoing: map<NodeId, seq<Edge>>
    var ancestorMemo: map<NodeId, set<NodeId>>
    var descendantMemo: map<NodeId, set<NodeId>>
    var cycleMemo: Option<set<NodeId>>

    /** The adjacency lists are those of the graph and every memoised answer is
        the answer a fresh computation would give. */
    ghost predicate Valid()
      reads this
    {
      && Contract(graph)
      && (forall n :: n in Ids(graph) ==> n in incoming && n in outgoing)
      && ListsInto(incoming, graph.edges)
      && ListsOutOf(outgoing, graph.edges)
      && AncestorAnswers(graph, ancestorMemo)
      && DescendantAnswers(graph, descendantMemo)
      && (cycleMemo.Some? ==> CycleAnswer(graph, cycleMemo.value))
    }

    static method Adjacency(g: Graph) returns (inc: map<NodeId, seq<Edge>>, out: map<NodeId, seq<Edge>>)
      requires Contract(g)
      ensures inc.Keys == out.Keys == Ids(g)
      ensures ListsInto(inc, g.edges) && ListsOutOf(out, g.edges)
    {
      inc := map n | n in Ids(g) :: [];
      out := map n | n in Ids(g) :: [];
      for i := 0 to |g.edges|
        invariant inc.Keys == out.Keys == Ids(g)
        invariant ListsInto(inc, g.edges[..i]) && ListsOutOf(out, g.edges[..i])
      {
        var e := g.edges[i];
        NextEdge(g, i);
        ListsStep(inc, out, g.edges[..i], e);
        inc := inc[e.target := inc[e.target] + [e]];
        out := out[e.source := out[e.source] + [e]];
      }
      assert g.edges[..|g.edges|] == g.edges;
    }

    constructor (g: Graph)
      requires Contract(g)
      ensures Valid() && graph == g
      ensures ancestorMemo == map[] && descendantMemo == map[] && cycleMemo == None
    {
      var inc, out := Adjacency(g);
      graph := g;
      incoming := inc;
      outgoing := out;
      ancestorMemo := map[];
      descendantMemo := map[];
      cycleMemo := None;
    }

    function IncomingEdges(n: NodeId): (r: seq<Edge>)
      reads this
      requires Valid()
      ensures forall e :: e in r <==> e in graph.edges && e.target == n
    {
      EdgesIntoMembers(graph.edges, n);
      if n in incoming then incoming[n] else []
    }

    function OutgoingEdges(n: NodeId): (r: seq<Edge>)
      reads this
      requires Valid()
      ensures forall e :: e in r <==> e in graph.edges && e.source == n
    {
      EdgesOutOfMembers(graph.edges, n);
      if n in outgoing then outgoing[n] else []
    }

    function Predecessors(n: NodeId): (r: seq<NodeId>)
      reads this
      requires Valid()
      ensures forall x :: x in r <==> HasEdge(graph, x, n)
    {
      var into := IncomingEdges(n);
      var r := seq(|into|, i requires 0 <= i < |into| => into[i].source);
      assert forall x :: x in r <==> exists e :: e in into && e.source == x by {
        SourceMembers(into, r);
      }
      r
    }

    function Successors(n: NodeId): (r: seq<NodeId>)
      reads this
      requires Valid()
      ensures forall x :: x in r <==> HasEdge(graph, n, x)
    {
      var out := OutgoingEdges(n);
      var r := seq(|out|, i requires 0 <= i < |out| => out[i].target);
      assert forall x :: x in r <==> exists e :: e in out && e.target == x by {
        TargetMembers(out, r);
      }
      r
    }

    method CollectAncestors(n: NodeId) returns (seen: set<NodeId>)
      requires Valid()
      ensures seen == Ancestors(graph, n)
    {
      seen := {};
      var stack := Predecessors(n);
      BackwardStart(graph, n, stack);
      while stack != []
        invariant Backward(graph, n, seen, stack)
        decreases Ancestors(graph, n) - seen, |stack|
      {
        var current, rest := stack[|stack| - 1], stack[..|stack| - 1];
        SplitLast(stack);
        if current == n || current in seen {
          stack := rest;
        } else {
          stack := PushUnseen(Predecessors(current), seen + {current} + {n}, rest);
          BackwardVisit(graph, n, seen, rest, current, stack);
          seen := seen + {current};
        }
      }
      BackwardClosed(graph, n, seen);
    }

    method AncestorsOf(n: NodeId) returns (result: set<NodeId>)
      requires Valid()
      modifies this`ancestorMemo
      ensures Valid()
      ensures result == Ancestors(graph, n)
    {
      if n in ancestorMemo {
        return ancestorMemo[n];
      }
      result := CollectAncestors(n);
      ancestorMemo := ancestorMemo[n := result];
    }

    method CollectDescendants(n: NodeId) returns (seen: set<NodeId>)
      requires Valid()
      ensures seen == Descendants(graph, n)
    {
      seen := {};
      var stack := Successors(n);
      ForwardStart(graph, n, stack);
      while stack != []
        invariant Forward(graph, n, seen, stack)
        decreases Descendants(graph, n) - seen, |stack|
      {
        var current, rest := stack[|stack| - 1], stack[..|stack| - 1];
        SplitLast(stack);
        if current == n || current in seen {
          stack := rest;
        } else {
          stack := PushUnseen(Successors(current), seen + {current} + {n}, rest);
          ForwardVisit(graph, n, seen, rest, current, stack);
          seen := seen + {current};
        }
      }
      DescendantsClosed(graph, n, seen);
    }

    method DescendantsOf(n: NodeId) returns (result: set<NodeId>)
      requires Valid()
      modifies this`descendantMemo
      ensures Valid()
      ensures result == Descendants(graph, n)
      ensures forall d :: d in result <==> n in Ancestors(graph, d)
    {
      if n in descendantMemo {
        return descendantMemo[n];
      }
      result := CollectDescendants(n);
      descendantMemo := descendantMemo[n := result];
    }

    method ReachableFrom(starts: seq<NodeId>) returns (seen: set<NodeId>)
      requires Valid()
      ensures forall x :: x in seen <==> ReachedFrom(graph, starts, x)
    {
      seen := {};
      var stack := starts;
      ghost var bound := (set x | x in starts) + (set e | e in graph.edges :: e.target);
      while stack != []
        invariant Spread(graph, starts, bound, seen, stack)
        decreases bound - seen, |stack|
      {
        var current, rest := stack[|stack| - 1], stack[..|stack| - 1];
        SplitLast(stack);
        if current in seen {
          stack := rest;
        } else {
          stack := PushUnseen(Successors(current), seen + {current}, rest);
          SpreadVisit(graph, starts, bound, seen, rest, current, stack);
          seen := seen + {current};
        }
      }
      SpreadDone(graph, starts, bound, seen);
    }

    /** The nodes without incoming edges, in graph order. */
    method EntryQueue(indegree: map<NodeId, int>) returns (queue: seq<NodeId>)
      requires Contract(graph) && indegree.Keys == Ids(graph)
      ensures Distinct(queue)
      ensures forall x :: x in queue <==> x in indegree && indegree[x] == 0
    {
      queue := [];
      var order := Order(graph);
      OrderMembers(graph);
      for i := 0 to |order|
        invariant forall x :: x in queue <==> x in order[..i] && x in indegree && indegree[x] == 0
        invariant Distinct(queue)
      {
        assert order[i] in order;
        assert order[..i + 1] == order[..i] + [order[i]];
        assert order[i] !in order[..i];
        if indegree[order[i]] == 0 {
          queue := queue + [order[i]];
        }
      }
      assert order[..|order|] == order;
    }

    method CollectCycleNodes() returns (result: set<NodeId>)
      requires Valid()
      ensures CycleAnswer(graph, result)
    {
      var indegree := map n | n in Ids(graph) :: |IncomingEdges(n)|;
      var queue := EntryQueue(indegree);
      ghost var order: seq<NodeId> := [];
      KahnStart(graph, indegree, queue);
      while queue != []
        invariant Kahn(graph, indegree, order, queue)
        decreases Ids(graph) - Members(order)
      {
        var current, rest := queue[0], queue[1..];
        SplitFirst(queue);
        ghost var before := indegree;
        KahnRelaxable(graph, indegree, order, current, rest);
        var out := OutgoingEdges(current);
        assert out == EdgesOutOf(graph.edges, current);
        indegree, queue := Relax(out, indegree, rest);
        KahnVisit(graph, before, order, current, rest, indegree, queue);
        order := order + [current];
      }
      result := set n | n in indegree && indegree[n] > 0;
      KahnExact(graph, indegree, order);
    }

    method CycleNodes() returns (result: set<NodeId>)
      requires Valid()
      modifies this`cycleMemo
      ensures Valid()
      ensures CycleAnswer(graph, result)
    {
      if cycleMemo.Some? {
        return cycleMemo.value;
      }
      result := CollectCycleNodes();
      cycleMemo := Some(result);
    }

    /** The graph is accepted as a DAG exactly when it has no directed cycle. */
    method HasCycle() returns (r: bool)
      requires Valid()
      modifies this`cycleMemo
      ensures Valid()
      ensures r <==> !Acyclic(graph)
    {
      var nodes := CycleNodes();
      r := nodes != {};
      if !Acyclic(graph) {
        var c :| Reaches(graph, c, c);
        ReachesInIds(graph, c, c);
        assert c in nodes;
      }
    }
  }
}
