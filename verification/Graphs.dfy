/** The immutable workflow graph of a Run and the theory of its walks. */
module Graphs {
  import opened Basics

  datatype NodeType = Agent | Service | Tool | Logic | Human | Data

  /** What the snapshot says about retries: an explicit graph override, the
      retry policy of a Service action, or neither. A raw value that is not an
      integer is `None`. */
  datatype RetrySetting = NoRetry | GraphRetry(raw: Option<int>) | ActionPolicy(raw: Option<int>)

  datatype Node = Node(
    id: NodeId,
    nodeType: NodeType,
    subtype: string,
    retry: RetrySetting,
    codex: bool,               // the Agent snapshot names the Codex connector
    runner: Option<string>,    // the Runner the local work is pinned to
    allowReject: bool,
    config: Json,              // the settings, with references unresolved
    inputMapping: Json)

  datatype Edge = Edge(source: NodeId, target: NodeId, handle: Option<string>)

  datatype Graph = Graph(nodes: seq<Node>, edges: seq<Edge>)

  function Order(g: Graph): (ids: seq<NodeId>)
    ensures |ids| == |g.nodes|
  {
    seq(|g.nodes|, i requires 0 <= i < |g.nodes| => g.nodes[i].id)
  }

  function Ids(g: Graph): set<NodeId> {
    set i | 0 <= i < |g.nodes| :: g.nodes[i].id
  }

  lemma OrderMembers(g: Graph)
    ensures forall n :: n in Order(g) <==> n in Ids(g)
  {
    forall n | n in Order(g)
      ensures n in Ids(g)
    {
      var i :| 0 <= i < |Order(g)| && Order(g)[i] == n;
      assert g.nodes[i].id == n;
    }
    forall n | n in Ids(g)
      ensures n in Order(g)
    {
      var i :| 0 <= i < |g.nodes| && g.nodes[i].id == n;
      assert Order(g)[i] == n;
    }
  }

  /** Look a node up by id; with duplicate ids the last one wins, as in a
      dictionary built in graph order. */
  function FindNode(nodes: seq<Node>, n: NodeId): (r: Option<Node>)
    ensures r.Some? ==> r.value in nodes && r.value.id == n
    ensures r.None? ==> forall m :: m in nodes ==> m.id != n
  {
    if nodes == [] then None
    else if nodes[|nodes| - 1].id == n then Some(nodes[|nodes| - 1])
    else FindNode(nodes[..|nodes| - 1], n)
  }

  predicate IsCondition(g: Graph, n: NodeId) {
    var node := FindNode(g.nodes, n);
    node.Some? && node.value.nodeType.Logic? && node.value.subtype == "condition"
  }

  predicate IsInput(node: Node) {
    node.nodeType.Data? && node.subtype == "input"
  }

  predicate IsOutput(node: Node) {
    node.nodeType.Data? && node.subtype == "output"
  }

  predicate IsInputId(g: Graph, n: NodeId) {
    var node := FindNode(g.nodes, n);
    node.Some? && IsInput(node.value)
  }

  /** Nodes the Worker parks instead of executing. */
  predicate IsParked(node: Node) {
    || (node.nodeType.Human? && (node.subtype == "approval" || node.subtype == "input"))
    || (node.nodeType.Logic? && node.subtype == "wait")
  }

  predicate IsParkedId(g: Graph, n: NodeId) {
    var node := FindNode(g.nodes, n);
    node.Some? && IsParked(node.value)
  }

  /** The contract every stored graph meets: unique node ids, existing endpoints. */
  ghost predicate Contract(g: Graph) {
    && Distinct(Order(g))
    && forall e :: e in g.edges ==> e.source in Ids(g) && e.target in Ids(g)
  }

  lemma FindNodeUnique(g: Graph, node: Node)
    requires Contract(g) && node in g.nodes
    ensures FindNode(g.nodes, node.id) == Some(node)
  {
    var found := FindNode(g.nodes, node.id);
    var i :| 0 <= i < |g.nodes| && g.nodes[i] == node;
    if found.Some? {
      var j :| 0 <= j < |g.nodes| && g.nodes[j] == found.value;
      assert Order(g)[i] == Order(g)[j];
      if i < j {
        assert false;
      } else if j < i {
        assert false;
      }
    }
  }

  lemma FindNodeIds(g: Graph, n: NodeId)
    ensures n in Ids(g) <==> FindNode(g.nodes, n).Some?
  {
    if n in Ids(g) {
      var i :| 0 <= i < |g.nodes| && g.nodes[i].id == n;
      assert g.nodes[i] in g.nodes;
    }
  }

  // ----- walks -----

  /** `w` is a walk along edges of `g` from `a` to `b`. */
  ghost predicate Walk(g: Graph, a: NodeId, w: seq<Edge>, b: NodeId)
    decreases |w|
  {
    if w == [] then a == b
    else w[0] in g.edges && w[0].source == a && Walk(g, w[0].target, w[1..], b)
  }

  ghost predicate Reaches(g: Graph, a: NodeId, b: NodeId) {
    exists w :: w != [] && Walk(g, a, w, b)
  }

  ghost predicate Acyclic(g: Graph) {
    forall n :: !Reaches(g, n, n)
  }

  lemma {:induction false} WalkConcat(g: Graph, a: NodeId, v: seq<Edge>, b: NodeId, w: seq<Edge>, c: NodeId)
    requires Walk(g, a, v, b) && Walk(g, b, w, c)
    ensures Walk(g, a, v + w, c)
    decreases |v|
  {
    if v == [] {
      assert v + w == w;
    } else {
      assert (v + w)[1..] == v[1..] + w;
      WalkConcat(g, v[0].target, v[1..], b, w, c);
    }
  }

  /** Every nonempty walk splits off its last edge. */
  lemma {:induction false} WalkLast(g: Graph, a: NodeId, w: seq<Edge>, b: NodeId)
    requires w != [] && Walk(g, a, w, b)
    ensures var e := w[|w| - 1];
            e in g.edges && e.target == b && Walk(g, a, w[..|w| - 1], e.source)
    decreases |w|
  {
    if |w| == 1 {
      assert w[1..] == [];
      assert w[..0] == [];
    } else {
      var rest := w[1..];
      WalkLast(g, w[0].target, rest, b);
      assert rest[|rest| - 1] == w[|w| - 1];
      assert w[..|w| - 1][1..] == rest[..|rest| - 1];
    }
  }

  lemma EdgeReaches(g: Graph, e: Edge)
    requires e in g.edges
    ensures Reaches(g, e.source, e.target)
  {
    var w := [e];
    assert w[1..] == [];
    assert Walk(g, e.source, w, e.target);
  }

  lemma ReachesTransitive(g: Graph, a: NodeId, b: NodeId, c: NodeId)
    requires Reaches(g, a, b) && Reaches(g, b, c)
    ensures Reaches(g, a, c)
  {
    var v :| v != [] && Walk(g, a, v, b);
    var w :| w != [] && Walk(g, b, w, c);
    WalkConcat(g, a, v, b, w, c);
    assert v + w != [];
  }

  /** What reaches `b` enters it through one of its incoming edges. */
  lemma ReachesLast(g: Graph, a: NodeId, b: NodeId) returns (e: Edge)
    requires Reaches(g, a, b)
    ensures e in g.edges && e.target == b
    ensures e.source == a || Reaches(g, a, e.source)
  {
    var w :| w != [] && Walk(g, a, w, b);
    WalkLast(g, a, w, b);
    e := w[|w| - 1];
    if w[..|w| - 1] == [] {
      assert e.source == a;
    }
  }

  lemma ReachesFirst(g: Graph, a: NodeId, b: NodeId) returns (e: Edge)
    requires Reaches(g, a, b)
    ensures e in g.edges && e.source == a
    ensures e.target == b || Reaches(g, e.target, b)
  {
    var w :| w != [] && Walk(g, a, w, b);
    e := w[0];
    assert Walk(g, e.target, w[1..], b);
    if w[1..] != [] {
      assert Reaches(g, e.target, b);
    }
  }

  lemma ReachesInIds(g: Graph, a: NodeId, b: NodeId)
    requires Contract(g) && Reaches(g, a, b)
    ensures a in Ids(g) && b in Ids(g)
  {
    var e := ReachesLast(g, a, b);
    var f := ReachesFirst(g, a, b);
  }

  // ----- cycles and minimal elements -----

  ghost predicate HasPredecessor(g: Graph, s: set<NodeId>, x: NodeId) {
    exists e :: e in g.edges && e.target == x && e.source in s
  }

  ghost predicate EveryHasPredecessor(g: Graph, s: set<NodeId>) {
    forall x {:trigger HasPredecessor(g, s, x)} :: x in s ==> HasPredecessor(g, s, x)
  }

  /** In a finite set in which every node has a predecessor, every node is
      reached from a node of the set that lies on a cycle. */
  lemma {:induction false} PredecessorsGiveCycle(g: Graph, s: set<NodeId>, x: NodeId) returns (c: NodeId)
    requires x in s && EveryHasPredecessor(g, s)
    ensures c in s && Reaches(g, c, c) && (c == x || Reaches(g, c, x))
    decreases s
  {
    if Reaches(g, x, x) {
      c := x;
    } else {
      var above := set y | y in s && Reaches(g, y, x);
      assert HasPredecessor(g, s, x);
      var e :| e in g.edges && e.target == x && e.source in s;
      EdgeReaches(g, e);
      forall y | y in above
        ensures HasPredecessor(g, above, y)
      {
        assert HasPredecessor(g, s, y);
        var f :| f in g.edges && f.target == y && f.source in s;
        EdgeReaches(g, f);
        ReachesTransitive(g, f.source, y, x);
        assert f.source in above;
      }
      c := PredecessorsGiveCycle(g, above, e.source);
    }
  }

  /** A nonempty finite set of nodes of an acyclic graph has a node none of
      whose predecessors lie in the set. */
  lemma MinimalNode(g: Graph, s: set<NodeId>) returns (m: NodeId)
    requires Acyclic(g) && s != {}
    ensures m in s
    ensures forall e :: e in g.edges && e.target == m ==> e.source !in s
  {
    var x :| x in s;
    if EveryHasPredecessor(g, s) {
      m := PredecessorsGiveCycle(g, s, x);
      assert false;
    } else {
      m :| m in s && !HasPredecessor(g, s, m);
    }
  }

  /** If all predecessors of members are members, whatever reaches a member is one. */
  lemma {:induction false} PredecessorClosed(g: Graph, s: set<NodeId>, a: NodeId, w: seq<Edge>, b: NodeId)
    requires forall e :: e in g.edges && e.target in s ==> e.source in s
    requires Walk(g, a, w, b) && b in s
    ensures a in s
    decreases |w|
  {
    if w != [] {
      WalkLast(g, a, w, b);
      var e := w[|w| - 1];
      PredecessorClosed(g, s, a, w[..|w| - 1], e.source);
    }
  }

  lemma {:induction false} RankRises(g: Graph, rank: NodeId -> nat, a: NodeId, w: seq<Edge>, b: NodeId)
    requires forall e :: e in g.edges ==> rank(e.source) < rank(e.target)
    requires Walk(g, a, w, b)
    ensures rank(a) + |w| <= rank(b)
    decreases |w|
  {
    if w != [] {
      RankRises(g, rank, w[0].target, w[1..], b);
    }
  }

  /** Edges that all lead to a higher rank form no cycle. */
  lemma RankedIsAcyclic(g: Graph, rank: NodeId -> nat)
    requires forall e :: e in g.edges ==> rank(e.source) < rank(e.target)
    ensures Acyclic(g)
  {
    forall n
      ensures !Reaches(g, n, n)
    {
      if Reaches(g, n, n) {
        var w :| w != [] && Walk(g, n, w, n);
        RankRises(g, rank, n, w, n);
      }
    }
  }
}
