/** What texts and configurations resolve to: references inside other text are
    printed in place, objects and lists keep their shape, and in a run each scope
    reads the column it names. */
module ReferenceValues {
  import opened Basics
  import opened StateMachines
  import opened Graphs
  import opened RunRows
  import opened Runtime
  import opened Invariant
  import opened RuntimeSafety
  import opened ContextReferences
  import opened ContextResolver
  import opened TemplateSubstitution
  import opened ContextSafety
  import opened ReferenceGrammar

  // ----- a reference inside other text -----

  lemma {:induction false} PlainPrefix(a: string, s: string)
    requires BraceFree(a)
    ensures Templates(a + s) == Templates(s)
    ensures CountPairs(a + s, '{') == CountPairs(s, '{') && CountPairs(a + s, '}') == CountPairs(s, '}')
    decreases |a|
  {
    if a == "" {
      assert a + s == s;
    } else {
      PlainPrefix(a[1..], s);
      assert (a + s)[1..] == a[1..] + s && (a + s)[0] == a[0];
      NoTemplateHere(a + s);
    }
  }

  lemma NoTemplateHere(s: string)
    requires s != "" && s[0] != '{'
    ensures Template(s).None?
  {
    if |s| >= 2 {
      assert s[..2][0] == s[0];
    }
  }

  lemma PlainText(b: string)
    requires BraceFree(b)
    ensures Templates(b) == [] && CountPairs(b, '{') == 0 && CountPairs(b, '}') == 0
  {
    PlainPrefix(b, "");
    assert b + "" == b;
  }

  lemma EmbeddedScanned(a: string, r: Reference, b: string)
    requires BraceFree(a) && BraceFree(b) && Hole(r.raw) && ParseReference(r.raw) == Some(r)
    ensures ParseReferences(a + r.raw + b) == Some([r])
  {
    var text, h := a + r.raw + b, r.raw;
    assert text == a + (h + b);
    PlainPrefix(a, h + b);
    PlainText(b);
    GluedTemplates(h, b);
    HoleCounts(h, b);
    ParseOne(h);
    EmbeddedOpens(a, h, b);
    assert [h] + [] == [h];
  }

  lemma EmbeddedOpens(a: string, h: string, b: string)
    requires Hole(h)
    ensures Occurs("{{", a + h + b)
  {
    assert h[..2][0] == h[0] && h[..2][1] == h[1];
    assert (a + h + b)[|a|] == h[0] && (a + h + b)[|a| + 1] == h[1];
  }

  lemma EmbeddedIsNotPure(a: string, h: string, b: string)
    requires BraceFree(a) && BraceFree(b) && (a != "" || b != "") && Hole(h)
    ensures ParseReference(a + h + b).None?
  {
    var text := a + h + b;
    if a != "" {
      assert text[..2][0] == a[0];
    } else {
      assert text[|text| - 2..][1] == b[|b| - 1];
    }
  }

  lemma EmbeddedReplaced(a: string, h: string, b: string, with: string)
    requires BraceFree(a) && BraceFree(b) && Hole(h)
    ensures ReplaceAll(a + h + b, h, with) == a + with + b
  {
    assert a + h + b == a + (h + b);
    PassOver(a, h + b, h, with);
    HoleReplaced(b, h, with);
    PassOver(b, "", h, with);
    assert b + "" == b;
  }

  lemma ReplaceOne(c: Context, show: Json -> string, text: string, r: Reference)
    ensures ReplaceEach(c, show, text, [r]) ==
            if ResolveReference(c, r).None? then None
            else Some(ReplaceAll(text, r.raw, Stringify(ResolveReference(c, r).value, show)))
  {
    assert [r][..0] == [];
    assert ReplaceEach(c, show, text, []) == Some(text);
  }

  /** How a value is printed into a text. */
  predicate Prints(v: Json, show: Json -> string, text: string) {
    match v
    case Null => text == ""
    case Bool(b) => if b then text == ['t', 'r', 'u', 'e'] else text == ['f', 'a', 'l', 's', 'e']
    case Str(s) => text == s
    case Num(_) => text == show(v)
    case Arr(_) => text == show(v)
    case Obj(_) => text == show(v)
  }

  lemma StringifyPrints(v: Json, show: Json -> string)
    ensures Prints(v, show, Stringify(v, show))
  {
    assert "true" == ['t', 'r', 'u', 'e'] && "false" == ['f', 'a', 'l', 's', 'e'];
  }

  lemma ReadsOne(c: Context, scope: Scope, path: seq<string>, v: Json, w: Json)
    requires ReadsFrom(c, scope, path, v) && ReadsFrom(c, scope, path, w)
    ensures v == w
  {
    var r := Reference("", scope, path);
    ReferenceReads(c, r, v);
    ReferenceReads(c, r, w);
  }

  /** A reference on one line between other text that has no braces: the whole
      resolves to that text with the printed value in its place, and fails when
      the scope holds nothing at the path. */
  lemma EmbeddedReads(c: Context, show: Json -> string, a: string, value: string, b: string, scope: Scope, path: seq<string>)
    requires Denotes(value, scope, path) && OneLine(value) && BraceFree(a) && BraceFree(b) && (a != "" || b != "")
    ensures forall v :: ReadsFrom(c, scope, path, v) ==>
              exists text :: Prints(v, show, text) && Resolve(c, show, Str(a + value + b)) == Some(Str(a + text + b))
    ensures (forall v :: !ReadsFrom(c, scope, path, v)) ==> Resolve(c, show, Str(a + value + b)).None?
  {
    var r := Reference(value, scope, path);
    DenotedParses(value, scope, path);
    ReferenceIsHole(value);
    EmbeddedScanned(a, r, b);
    EmbeddedOpens(a, value, b);
    EmbeddedIsNotPure(a, value, b);
    ReplaceOne(c, show, a + value + b, r);
    var found := ResolveReference(c, r);
    if found.Some? {
      ReferenceReads(c, r, found.value);
      EmbeddedReplaced(a, value, b, Stringify(found.value, show));
      StringifyPrints(found.value, show);
      forall v | ReadsFrom(c, scope, path, v)
        ensures exists text :: Prints(v, show, text) && Resolve(c, show, Str(a + value + b)) == Some(Str(a + text + b))
      {
        ReadsOne(c, scope, path, v, found.value);
        assert Prints(v, show, Stringify(v, show));
      }
    } else {
      forall v | ReadsFrom(c, scope, path, v)
        ensures false
      {
        ReferenceReads(c, r, v);
      }
    }
  }

  // ----- objects and lists -----

  /** The value with every text in it resolved: same keys, same length, and
      everything that is no text as it was. */
  ghost predicate Filled(c: Context, show: Json -> string, v: Json, w: Json)
    decreases v
  {
    match v
    case Str(s) => ResolveString(c, show, s) == Some(w)
    case Obj(fields) => w.Obj? && w.fields.Keys == fields.Keys && forall k :: k in fields ==> Filled(c, show, fields[k], w.fields[k])
    case Arr(items) => w.Arr? && |w.items| == |items| && forall i :: 0 <= i < |items| ==> Filled(c, show, items[i], w.items[i])
    case Null => w == Null
    case Bool(_) => w == v
    case Num(_) => w == v
  }

  lemma {:induction false} ResolvedIsFilled(c: Context, show: Json -> string, v: Json)
    requires Resolve(c, show, v).Some?
    ensures Filled(c, show, v, Resolve(c, show, v).value)
    decreases v
  {
    match v
    case Obj(fields) =>
      forall k | k in fields
        ensures Filled(c, show, fields[k], Resolve(c, show, v).value.fields[k])
      {
        ResolvedIsFilled(c, show, fields[k]);
      }
    case Arr(items) =>
      forall i | 0 <= i < |items|
        ensures Filled(c, show, items[i], Resolve(c, show, v).value.items[i])
      {
        ResolvedIsFilled(c, show, items[i]);
      }
    case _ =>
  }

  lemma {:induction false} FilledOnce(c: Context, show: Json -> string, v: Json, w: Json)
    requires Filled(c, show, v, w)
    ensures Resolve(c, show, v) == Some(w)
    decreases v
  {
    match v
    case Obj(fields) =>
      forall k | k in fields
        ensures Resolve(c, show, fields[k]) == Some(w.fields[k])
      {
        FilledOnce(c, show, fields[k], w.fields[k]);
      }
      FieldsResolve(c, show, fields, w.fields);
    case Arr(items) =>
      forall i | 0 <= i < |items|
        ensures Resolve(c, show, items[i]) == Some(w.items[i])
      {
        FilledOnce(c, show, items[i], w.items[i]);
      }
      ItemsResolve(c, show, items, w.items);
    case _ =>
  }

  lemma FieldsResolve(c: Context, show: Json -> string, fields: map<string, Json>, filled: map<string, Json>)
    requires filled.Keys == fields.Keys && forall k :: k in fields ==> Resolve(c, show, fields[k]) == Some(filled[k])
    ensures Resolve(c, show, Obj(fields)) == Some(Obj(filled))
  {
    var r := Resolve(c, show, Obj(fields));
    assert r.Some? && r.value.Obj?;
    assert r.value.fields == filled;
  }

  lemma ItemsResolve(c: Context, show: Json -> string, items: seq<Json>, filled: seq<Json>)
    requires |filled| == |items| && forall i :: 0 <= i < |items| ==> Resolve(c, show, items[i]) == Some(filled[i])
    ensures Resolve(c, show, Arr(items)) == Some(Arr(filled))
  {
    var r := Resolve(c, show, Arr(items));
    assert r.Some? && r.value.Arr?;
    assert r.value.items == filled;
  }

  /** Resolution fills every text of a value and keeps its shape. */
  lemma ResolveFills(c: Context, show: Json -> string, v: Json, w: Json)
    ensures Resolve(c, show, v) == Some(w) <==> Filled(c, show, v, w)
  {
    if Resolve(c, show, v).Some? {
      ResolvedIsFilled(c, show, v);
    }
    if Filled(c, show, v, w) {
      FilledOnce(c, show, v, w);
    }
  }

  // ----- references in a run -----

  /** What the scopes of a run hold: its input and variables, its own columns, and
      the outputs of its COMPLETED nodes. */
  ghost predicate Holds(st: RunState, facts: RunFacts, scope: Scope, path: seq<string>, v: Json) {
    match scope
    case WorkflowInput => LiesAt(facts.input, path, v)
    case WorkflowVariables => LiesAt(facts.variables, path, v)
    case RunInfo =>
      || (path == ["id"] && v == Str(facts.id))
      || (path == ["status"] && v == Str(Spelled(st.run)))
      || (path == ["created_at"] && v == if facts.createdAt.Some? then Str(facts.createdAt.value) else Null)
    case NodeOutput(n) =>
      HasStatus(st.nodes, n, NodeCompleted) && st.nodes[n].output.Some? && LiesAt(st.nodes[n].output.value, path, v)
  }

  function Spelled(status: RunStatus): string {
    match status
    case RunCreated => "created"
    case RunRunning => "running"
    case RunWaiting => "waiting"
    case RunPaused => "paused"
    case RunCompleted => "completed"
    case RunFailed => "failed"
    case RunCancelled => "cancelled"
  }

  lemma InfoHolds(status: RunStatus, facts: RunFacts, path: seq<string>, v: Json)
    requires path != []
    ensures Navigate(RunScope(status, facts), path) == Some(v) <==>
            || (path == ["id"] && v == Str(facts.id))
            || (path == ["status"] && v == Str(Spelled(status)))
            || (path == ["created_at"] && v == if facts.createdAt.Some? then Str(facts.createdAt.value) else Null)
  {
    var head, rest := path[0], path[1..];
    assert path == [head] + rest;
    if head in RunScope(status, facts).fields {
      LeafHolds(RunScope(status, facts).fields[head], rest, v);
    }
  }

  lemma LeafHolds(leaf: Json, rest: seq<string>, v: Json)
    requires !leaf.Obj?
    ensures Navigate(leaf, rest) == Some(v) <==> rest == [] && v == leaf
  {
  }

  lemma OutputRow(input: bool, parked: bool, run: RunStatus, row: NodeRun, task: Option<Task>)
    requires Judge(input, parked, run, row, task) == Consistent
    ensures row.output.Some? <==> row.status.NodeCompleted?
  {
  }

  lemma OutputHolds(st: RunState, n: NodeId, path: seq<string>, v: Json)
    requires Inv(st) && path != []
    ensures n in OutputsOf(st.nodes) && Navigate(OutputsOf(st.nodes)[n], path) == Some(v) <==>
            HasStatus(st.nodes, n, NodeCompleted) && st.nodes[n].output.Some? && Navigate(st.nodes[n].output.value, path) == Some(v)
  {
    if n in st.nodes {
      assert NodeOk(st, n);
      OutputRow(IsInputId(st.graph, n), IsParkedId(st.graph, n), st.run, st.nodes[n], TaskOf(st, n));
    }
  }

  lemma RunHolds(st: RunState, facts: RunFacts, scope: Scope, path: seq<string>, v: Json)
    requires Inv(st) && path != []
    ensures ResolveReference(ContextOf(st, facts), Reference("", scope, path)) == Some(v) <==> Holds(st, facts, scope, path, v)
  {
    match scope
    case WorkflowInput => NavigateFinds(facts.input, path, v);
    case WorkflowVariables => NavigateFinds(facts.variables, path, v);
    case RunInfo => InfoHolds(st.run, facts, path, v);
    case NodeOutput(n) =>
      OutputHolds(st, n, path, v);
      if n in st.nodes && st.nodes[n].output.Some? {
        NavigateFinds(st.nodes[n].output.value, path, v);
      }
  }

  /** In every reachable state a reference resolves to exactly what the columns of
      the run hold: the input, the variables, its id, status and creation time, and
      the outputs of its COMPLETED nodes. */
  lemma RunReads(g: Graph, input: Json, acts: seq<Action>, facts: RunFacts, show: Json -> string,
                 value: string, scope: Scope, path: seq<string>, v: Json)
    requires Publishable(g) && Denotes(value, scope, path)
    ensures Resolve(ContextOf(Execute(g, input, acts).st, facts), show, Str(value)) == Some(v) <==>
            Holds(Execute(g, input, acts).st, facts, scope, path, v)
  {
    var st := Execute(g, input, acts).st;
    AlwaysSane(g, input, acts);
    TextReads(ContextOf(st, facts), show, value, scope, path, v);
    ReferenceReads(ContextOf(st, facts), Reference("", scope, path), v);
    RunHolds(st, facts, scope, path, v);
  }
}
