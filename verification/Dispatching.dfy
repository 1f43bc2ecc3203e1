/** How the scheduler decides what fails to resolve: from the node's own config
    and input mapping and the outputs of the run. Runs whose scheduling actions
    carry exactly these failures are the runs of the shipped scheduler. */
module Dispatching {
  import opened Basics
  import opened StateMachines
  import opened Graphs
  import opened RunRows
  import opened Scheduling
  import opened SchedulerRules
  import opened Runtime
  import opened ContextReferences
  import opened ContextResolver
  import opened ContextSafety

  /** The constant columns of the run, the printing of values, and whether a
      value meets a JSON schema; an invalid schema is met by nothing. */
  datatype Env = Env(facts: RunFacts, show: Json -> string, meets: (Json, Json) -> bool)

  predicate NonBlank(text: string) {
    exists i :: 0 <= i < |text| && !Space(text[i])
  }

  /** The resolved config names something to execute. */
  predicate Usable(v: Json, key: string) {
    v.Obj? && key in v.fields && v.fields[key].Str? && NonBlank(v.fields[key].s)
  }

  /** A Tool needs a command, a coding agent a task. */
  predicate ConfigFails(c: Context, env: Env, node: Node) {
    var resolved := Resolve(c, env.show, node.config);
    resolved.None? || !Usable(resolved.value, if node.nodeType.Tool? then "command" else "task_template")
  }

  predicate InputFails(c: Context, env: Env, node: Node) {
    Resolve(c, env.show, node.inputMapping).None?
  }

  /** What references read while tasks are created; that happens in RUNNING runs only. */
  function SchedulingContext(nodes: map<NodeId, NodeRun>, env: Env): Context {
    ContextAs(nodes, RunRunning, env.facts)
  }

  predicate ConfigFailsAt(g: Graph, c: Context, env: Env, n: NodeId) {
    var node := FindNode(g.nodes, n);
    node.Some? && ConfigFails(c, env, node.value)
  }

  predicate InputFailsAt(g: Graph, c: Context, env: Env, n: NodeId) {
    var node := FindNode(g.nodes, n);
    node.Some? && InputFails(c, env, node.value)
  }

  /** The nodes whose config or input does not resolve against these rows. */
  function FailuresIn(g: Graph, nodes: map<NodeId, NodeRun>, env: Env): Unresolved {
    var c := SchedulingContext(nodes, env);
    Unresolved(set n | n in Ids(g) && ConfigFailsAt(g, c, env, n), set n | n in Ids(g) && InputFailsAt(g, c, env, n))
  }

  /** The scheduler would not create a task for the node on these rows. */
  predicate Undispatched(g: Graph, nodes: map<NodeId, NodeRun>, env: Env, n: NodeId) {
    IsPostponed(g, FailuresIn(g, nodes, env), n)
  }

  /** A form without a schema takes any answer. */
  predicate FormAccepts(config: Json, data: map<string, Json>, env: Env) {
    config.Obj? && "form_schema" in config.fields && config.fields["form_schema"].Obj? && config.fields["form_schema"].fields != map[]
    ==> env.meets(config.fields["form_schema"], Obj(data))
  }

  predicate TakesAnswer(g: Graph, n: NodeId, data: map<string, Json>, env: Env) {
    var node := FindNode(g.nodes, n);
    node.Some? && FormAccepts(node.value.config, data, env)
  }

  /** A scheduling action reports exactly what fails to resolve when it runs, and
      an answer is valid exactly when the node's form schema takes it. */
  predicate Honest(s: System, a: Action, env: Env) {
    match a
    case ScheduleReady(u) => u == FailuresIn(s.st.graph, s.st.nodes, env)
    case ReconcileRun(u, _) => u == FailuresIn(s.st.graph, MarkElapsed(s.st.nodes, s.clock), env)
    case SubmitInput(n, data, valid) => valid == TakesAnswer(s.st.graph, n, data, env)
    case _ => true
  }

  predicate HonestFrom(s: System, acts: seq<Action>, env: Env) {
    acts == [] ||
    (HonestFrom(s, acts[..|acts| - 1], env) && Honest(RunFrom(s, acts[..|acts| - 1]), acts[|acts| - 1], env))
  }

  /** Rows with the same outputs fail alike. */
  lemma SameFailures(g: Graph, a: map<NodeId, NodeRun>, b: map<NodeId, NodeRun>, env: Env)
    requires OutputsOf(a) == OutputsOf(b)
    ensures FailuresIn(g, a, env) == FailuresIn(g, b, env)
  {
  }

  /** A Tool is left without a task exactly when its config or its input fails
      to resolve; a coding agent exactly when its task resolves and its input
      does not; nothing else ever is. A coding agent whose task does not resolve
      is not withheld but falls back to the Worker, and only then does. */
  lemma UndispatchedWhen(g: Graph, nodes: map<NodeId, NodeRun>, env: Env, node: Node)
    requires Contract(g) && node in g.nodes
    ensures var c := SchedulingContext(nodes, env);
            Undispatched(g, nodes, env, node.id) <==>
            || (node.nodeType.Tool? && (ConfigFails(c, env, node) || InputFails(c, env, node)))
            || (node.nodeType.Agent? && node.codex && !ConfigFails(c, env, node) && InputFails(c, env, node))
    ensures node.nodeType.Agent? && node.codex ==>
              (DispatchOf(node, FailuresIn(g, nodes, env)).ToWorker? <==> ConfigFails(SchedulingContext(nodes, env), env, node))
  {
    FindNodeUnique(g, node);
    FindNodeIds(g, node.id);
  }

  /** The config is an object whose entry under `key` is a text that is not blank. */
  ghost predicate Gives(config: Option<Json>, key: string) {
    exists text: string, i: int ::
      && config.Some? && config.value.Obj? && key in config.value.fields && config.value.fields[key] == Str(text)
      && 0 <= i < |text| && !Space(text[i])
  }

  /** In terms of what config and input mapping resolve to: a Tool is withheld
      unless its config gives a command and its input resolves, a coding agent
      whose config gives a task is withheld until its input resolves, and one
      whose config gives none goes to the Worker. */
  lemma WithheldWhen(g: Graph, nodes: map<NodeId, NodeRun>, env: Env, node: Node)
    requires Contract(g) && node in g.nodes
    ensures var c := SchedulingContext(nodes, env);
            var config, input := Resolve(c, env.show, node.config), Resolve(c, env.show, node.inputMapping);
            var withheld := Undispatched(g, nodes, env, node.id);
            && (node.nodeType.Tool? ==> (withheld <==> !(Gives(config, "command") && input.Some?)))
            && (node.nodeType.Agent? && node.codex ==> (withheld <==> Gives(config, "task_template") && input.None?))
            && (node.nodeType.Agent? && node.codex ==>
                  (DispatchOf(node, FailuresIn(g, nodes, env)).ToWorker? <==> !Gives(config, "task_template")))
            && (!node.nodeType.Tool? && !(node.nodeType.Agent? && node.codex) ==> !withheld)
  {
    var c := SchedulingContext(nodes, env);
    UndispatchedWhen(g, nodes, env, node);
    UsableGives(Resolve(c, env.show, node.config), "command");
    UsableGives(Resolve(c, env.show, node.config), "task_template");
  }

  lemma UsableGives(config: Option<Json>, key: string)
    ensures Gives(config, key) <==> config.Some? && Usable(config.value, key)
  {
    if config.Some? && Usable(config.value, key) {
      var text := config.value.fields[key].s;
      var i :| 0 <= i < |text| && !Space(text[i]);
      assert config.value.fields[key] == Str(text);
    }
  }

  lemma FieldUnresolved(c: Context, show: Json -> string, fields: map<string, Json>, key: string)
    requires key in fields && Resolve(c, show, fields[key]).None?
    ensures Resolve(c, show, Obj(fields)).None?
  {
  }

  lemma ReferenceUnresolved(c: Context, show: Json -> string, r: Reference)
    requires ParseReference(r.raw) == Some(r) && ResolveReference(c, r).None?
    ensures Resolve(c, show, Str(r.raw)).None?
  {
    assert r.raw[..2] == "{{";
    assert r.raw[..2][0] == r.raw[0] && r.raw[..2][1] == r.raw[1];
    assert Occurs("{{", r.raw);
  }

  /** A Tool whose command is a reference to nothing is withheld. */
  lemma CommandWithheld(g: Graph, nodes: map<NodeId, NodeRun>, env: Env, node: Node, r: Reference)
    requires Contract(g) && node in g.nodes && node.nodeType.Tool?
    requires node.config.Obj? && "command" in node.config.fields && node.config.fields["command"] == Str(r.raw)
    requires ParseReference(r.raw) == Some(r) && ResolveReference(SchedulingContext(nodes, env), r).None?
    ensures Undispatched(g, nodes, env, node.id)
  {
    ReferenceUnresolved(SchedulingContext(nodes, env), env.show, r);
    FieldUnresolved(SchedulingContext(nodes, env), env.show, node.config.fields, "command");
    UndispatchedWhen(g, nodes, env, node);
  }
}
