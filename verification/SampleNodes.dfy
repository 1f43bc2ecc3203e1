/** Nodes of the concrete workflows, with the settings that the graph model and
    the validation before a version ask of their kind. */
module SampleNodes {
  import opened Basics
  import opened Graphs

  function InputNode(id: NodeId): Node {
    Node(id, Data, "input", NoRetry, false, None, true, Obj(map["schema" := Obj(map["type" := Str("object")])]), Obj(map[]))
  }

  function OutputNode(id: NodeId): Node {
    Node(id, Data, "output", NoRetry, false, None, true, Obj(map["output_mapping" := Obj(map[])]), Obj(map[]))
  }

  function TransformNode(id: NodeId): Node {
    Node(id, Data, "transform", NoRetry, false, None, true, Obj(map["mappings" := Obj(map[])]), Obj(map[]))
  }

  function ApprovalNode(id: NodeId, title: string): Node {
    Node(id, Human, "approval", NoRetry, false, None, true, Obj(map["title" := Str(title)]), Obj(map[]))
  }

  /** A Condition that asks whether a text is not empty. */
  function ConditionNode(id: NodeId, text: string): Node {
    Node(id, Logic, "condition", NoRetry, false, None, true,
         Obj(map["expression" := Obj(map["left" := Str(text), "operator" := Str("is_not_empty")])]), Obj(map[]))
  }

  /** A Tool pinned to a Runner. */
  function ToolNode(id: NodeId, command: string, runner: string): Node {
    Node(id, Tool, "shell", NoRetry, false, Some(runner), true,
         Obj(map["command" := Str(command), "runner_id" := Str(runner)]), Obj(map[]))
  }
}
