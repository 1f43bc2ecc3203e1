/** Which answers a waiting form takes. */
module Forms {
  import opened Basics
  import opened Graphs
  import opened Runtime
  import opened Invariant
  import opened RuntimeSafety
  import opened Dispatching
  import opened RowOrigins
  import opened CallTable

  /** The config asks for answers of this schema. */
  predicate AsksFor(config: Json, schema: Json) {
    config.Obj? && "form_schema" in config.fields && config.fields["form_schema"] == schema && schema.Obj? && schema != Obj(map[])
  }

  /** In every reachable state an answer is accepted exactly when the input node
      waits for one in a run that goes on, and it meets the schema its config asks
      for, if any. */
  lemma FormDecides(g: Graph, input: Json, acts: seq<Action>, env: Env, node: Node, data: map<string, Json>, valid: bool)
    requires Publishable(g) && node in g.nodes
    requires Honest(Execute(g, input, acts), SubmitInput(node.id, data, valid), env)
    ensures var s := Execute(g, input, acts);
            ReplyTo(s, SubmitInput(node.id, data, valid)).outcome.Accepted? <==>
              Answerable(s, node.id, "input") && forall schema :: AsksFor(node.config, schema) ==> env.meets(schema, Obj(data))
  {
    var s, a := Execute(g, input, acts), SubmitInput(node.id, data, valid);
    CallsAreTabled(g, input, acts, a);
    AlwaysSane(g, input, acts);
    FindNodeUnique(g, node);
    FormAsks(node.config, data, env);
  }

  lemma FormAsks(config: Json, data: map<string, Json>, env: Env)
    ensures FormAccepts(config, data, env) <==> forall schema :: AsksFor(config, schema) ==> env.meets(schema, Obj(data))
  {
    if config.Obj? && "form_schema" in config.fields {
      var schema := config.fields["form_schema"];
      assert AsksFor(config, schema) <==> schema.Obj? && schema.fields != map[];
    }
  }
}
