/** The grammar of references, and where each of them reads: the parser accepts
    exactly the texts of the grammar, and a reference resolves to exactly the
    value that lies at its path under the root of its own scope. */
module ReferenceGrammar {
  import opened Basics
  import opened ContextReferences
  import opened ContextResolver

  // ----- the grammar -----

  /** The parts with dots between them. */
  function Dotted(parts: seq<string>): string
    requires parts != []
  {
    if |parts| == 1 then parts[0] else parts[0] + "." + Dotted(parts[1..])
  }

  predicate Blank(s: string) {
    forall i :: 0 <= i < |s| ==> Space(s[i])
  }

  predicate Identifiers(parts: seq<string>) {
    forall i :: 0 <= i < |parts| ==> Identifier(parts[i])
  }

  /** The parts between doubled braces, with white space just inside them. */
  ghost predicate Braced(value: string, parts: seq<string>) {
    parts != [] && exists left, right :: Blank(left) && Blank(right) && value == "{{" + left + Dotted(parts) + right + "}}"
  }

  function Head(scope: Scope): seq<string> {
    match scope
    case WorkflowInput => ["workflow", "input"]
    case WorkflowVariables => ["workflow", "variables"]
    case RunInfo => ["run"]
    case NodeOutput(n) => ["nodes", n, "output"]
  }

  /** The text is a reference of this scope with this path. */
  ghost predicate Denotes(value: string, scope: Scope, path: seq<string>) {
    path != [] && Identifiers(Head(scope)) && Identifiers(path) && Braced(value, Head(scope) + path)
  }

  // ----- dots -----

  lemma {:induction false} SplitDotted(parts: seq<string>)
    requires parts != [] && Identifiers(parts)
    ensures Split(Dotted(parts)) == parts
    decreases |parts|
  {
    NoDot(parts[0]);
    if |parts| == 1 {
      SplitWord(parts[0]);
    } else {
      SplitDotted(parts[1..]);
      SplitDot(parts[0], Dotted(parts[1..]));
      assert parts == [parts[0]] + parts[1..];
    }
  }

  lemma NoDot(word: string)
    requires Identifier(word)
    ensures Without(word, '.') && !Space(word[0]) && !Space(word[|word| - 1])
  {
  }

  lemma {:induction false} DottedSplit(s: string)
    ensures Dotted(Split(s)) == s
    decreases |s|
  {
    if s != "" {
      var rest := Split(s[1..]);
      DottedSplit(s[1..]);
      if s[0] == '.' {
        DottedHead("", rest);
      } else {
        DottedGrows(s[0], rest);
      }
    }
  }

  lemma DottedHead(head: string, rest: seq<string>)
    requires rest != []
    ensures Dotted([head] + rest) == head + "." + Dotted(rest)
  {
    assert ([head] + rest)[1..] == rest;
  }

  lemma DottedGrows(c: char, parts: seq<string>)
    requires parts != []
    ensures Dotted([[c] + parts[0]] + parts[1..]) == [c] + Dotted(parts)
  {
    if |parts| > 1 {
      DottedHead([c] + parts[0], parts[1..]);
    }
  }

  lemma {:induction false} DottedEnds(parts: seq<string>)
    requires parts != [] && Identifiers(parts)
    ensures Dotted(parts) != "" && !Space(Dotted(parts)[0]) && !Space(Dotted(parts)[|Dotted(parts)| - 1])
    decreases |parts|
  {
    NoDot(parts[0]);
    if |parts| > 1 {
      DottedEnds(parts[1..]);
      var tail := Dotted(parts[1..]);
      assert Dotted(parts) == parts[0] + "." + tail;
      assert Dotted(parts)[|Dotted(parts)| - 1] == tail[|tail| - 1];
    }
  }

  // ----- white space -----

  lemma BlankCons(c: char, s: string)
    requires Space(c) && Blank(s)
    ensures Blank([c] + s)
  {
  }

  lemma {:induction false} LeftStripped(s: string) returns (left: string)
    ensures Blank(left) && s == left + StripLeft(s)
    decreases |s|
  {
    if s != "" && Space(s[0]) {
      var rest := LeftStripped(s[1..]);
      left := [s[0]] + rest;
      BlankCons(s[0], rest);
      assert s == [s[0]] + s[1..];
    } else {
      left := "";
    }
  }

  lemma {:induction false} RightStripped(s: string) returns (right: string)
    ensures Blank(right) && s == StripRight(s) + right
    decreases |s|
  {
    if s != "" && Space(s[|s| - 1]) {
      var rest := RightStripped(s[..|s| - 1]);
      right := rest + [s[|s| - 1]];
      assert s == s[..|s| - 1] + [s[|s| - 1]];
    } else {
      right := "";
    }
  }

  lemma {:induction false} StripsLeft(left: string, s: string)
    requires Blank(left) && (s == "" || !Space(s[0]))
    ensures StripLeft(left + s) == s
    decreases |left|
  {
    if left == "" {
      assert left + s == s;
    } else {
      StripsLeft(left[1..], s);
      assert (left + s)[1..] == left[1..] + s;
    }
  }

  lemma {:induction false} StripsRight(s: string, right: string)
    requires Blank(right) && (s == "" || !Space(s[|s| - 1]))
    ensures StripRight(s + right) == s
    decreases |right|
  {
    if right == "" {
      assert s + right == s;
    } else {
      var init := right[..|right| - 1];
      StripsRight(s, init);
      assert (s + right)[..|s + right| - 1] == s + init && (s + right)[|s + right| - 1] == right[|right| - 1];
    }
  }

  // ----- the parser accepts exactly the grammar -----

  /** What stands between the braces. */
  function Body(value: string): string
    requires |value| >= 4
  {
    StripRight(StripLeft(value[2..|value| - 2]))
  }

  predicate BracesAround(value: string) {
    |value| >= 4 && value[..2] == "{{" && value[|value| - 2..] == "}}"
  }

  lemma BodyBraced(value: string)
    requires BracesAround(value)
    ensures Braced(value, Split(Body(value)))
  {
    var inner, body := value[2..|value| - 2], Body(value);
    var left := LeftStripped(inner);
    var right := RightStripped(StripLeft(inner));
    Surrounded(value, left, body, right);
    DottedSplit(body);
    IsBraced(value, Split(body), left, right);
  }

  lemma Surrounded(value: string, left: string, body: string, right: string)
    requires BracesAround(value) && value[2..|value| - 2] == left + (body + right)
    ensures value == "{{" + left + body + right + "}}"
  {
    assert value == value[..2] + value[2..|value| - 2] + value[|value| - 2..];
    assert "{{" + (left + (body + right)) + "}}" == "{{" + left + body + right + "}}";
  }

  lemma IsBraced(value: string, parts: seq<string>, left: string, right: string)
    requires parts != [] && Blank(left) && Blank(right) && value == "{{" + left + Dotted(parts) + right + "}}"
    ensures Braced(value, parts)
  {
  }

  lemma BracedBody(value: string, parts: seq<string>)
    requires Braced(value, parts) && Identifiers(parts)
    ensures BracesAround(value) && Split(Body(value)) == parts
  {
    var left, right :| Blank(left) && Blank(right) && value == "{{" + left + Dotted(parts) + right + "}}";
    var body := Dotted(parts);
    DottedEnds(parts);
    assert value == "{{" + (left + (body + right)) + "}}";
    assert value[2..|value| - 2] == left + (body + right);
    StripsLeft(left, body + right);
    StripsRight(body, right);
    SplitDotted(parts);
  }

  lemma ScopeDenotes(parts: seq<string>)
    requires ScopeOf(parts).Some? && Identifiers(parts)
    ensures var (scope, k) := ScopeOf(parts).value;
            parts == Head(scope) + parts[k..] && parts[k..] != [] && Identifiers(Head(scope)) && Identifiers(parts[k..])
  {
  }

  lemma HeadScope(scope: Scope, path: seq<string>)
    requires path != []
    ensures ScopeOf(Head(scope) + path) == Some((scope, |Head(scope)|)) && (Head(scope) + path)[|Head(scope)|..] == path
  {
  }

  lemma ParsedDenotes(value: string)
    requires ParseReference(value).Some?
    ensures var r := ParseReference(value).value;
            r.raw == value && Denotes(value, r.scope, r.path)
  {
    var parts := Split(Body(value));
    BodyBraced(value);
    assert Identifiers(parts);
    ScopeDenotes(parts);
  }

  lemma DenotedParses(value: string, scope: Scope, path: seq<string>)
    requires Denotes(value, scope, path)
    ensures ParseReference(value) == Some(Reference(value, scope, path))
  {
    var parts := Head(scope) + path;
    BracedBody(value, parts);
    HeadScope(scope, path);
  }

  /** A text parses as a reference of a scope with a path exactly when it is the
      dotted text of that scope and path, between doubled braces with white space
      just inside them. */
  lemma GrammarExact(value: string, scope: Scope, path: seq<string>)
    ensures ParseReference(value) == Some(Reference(value, scope, path)) <==> Denotes(value, scope, path)
  {
    if ParseReference(value).Some? {
      ParsedDenotes(value);
    }
    if Denotes(value, scope, path) {
      DenotedParses(value, scope, path);
    }
  }

  // ----- where a reference reads -----

  /** The value is found by walking down objects along the path. */
  ghost predicate LiesAt(root: Json, path: seq<string>, v: Json) {
    exists xs: seq<Json> :: WalksDown(root, path, v, xs)
  }

  ghost predicate WalksDown(root: Json, path: seq<string>, v: Json, xs: seq<Json>) {
    && |xs| == |path| + 1 && xs[0] == root && xs[|path|] == v
    && forall i :: 0 <= i < |path| ==> xs[i].Obj? && path[i] in xs[i].fields && xs[i + 1] == xs[i].fields[path[i]]
  }

  lemma {:induction false} NavigatedLies(root: Json, path: seq<string>) returns (xs: seq<Json>)
    requires Navigate(root, path).Some?
    ensures WalksDown(root, path, Navigate(root, path).value, xs)
    decreases |path|
  {
    if path == [] {
      xs := [root];
    } else {
      var rest := NavigatedLies(root.fields[path[0]], path[1..]);
      xs := [root] + rest;
      forall i | 0 <= i < |path|
        ensures xs[i].Obj? && path[i] in xs[i].fields && xs[i + 1] == xs[i].fields[path[i]]
      {
        if i > 0 {
          assert xs[i] == rest[i - 1] && path[i] == path[1..][i - 1];
        }
      }
    }
  }

  lemma {:induction false} LyingNavigates(root: Json, path: seq<string>, v: Json, xs: seq<Json>)
    requires WalksDown(root, path, v, xs)
    ensures Navigate(root, path) == Some(v)
    decreases |path|
  {
    if path != [] {
      forall i | 0 <= i < |path[1..]|
        ensures xs[1..][i].Obj? && path[1..][i] in xs[1..][i].fields && xs[1..][i + 1] == xs[1..][i].fields[path[1..][i]]
      {
        assert xs[1..][i] == xs[i + 1] && path[1..][i] == path[i + 1];
      }
      LyingNavigates(root.fields[path[0]], path[1..], v, xs[1..]);
    }
  }

  lemma NavigateFinds(root: Json, path: seq<string>, v: Json)
    ensures Navigate(root, path) == Some(v) <==> LiesAt(root, path, v)
  {
    if Navigate(root, path).Some? {
      var xs := NavigatedLies(root, path);
    }
    if LiesAt(root, path, v) {
      var xs :| WalksDown(root, path, v, xs);
      LyingNavigates(root, path, v, xs);
    }
  }

  /** The root a scope reads from, if there is one. */
  ghost predicate RootOf(c: Context, scope: Scope, root: Json) {
    match scope
    case WorkflowInput => root == c.input
    case WorkflowVariables => root == c.variables
    case RunInfo => root == c.run
    case NodeOutput(n) => n in c.outputs && root == c.outputs[n]
  }

  ghost predicate ReadsFrom(c: Context, scope: Scope, path: seq<string>, v: Json) {
    exists root :: RootOf(c, scope, root) && LiesAt(root, path, v)
  }

  /** A reference resolves to a value exactly when the value lies at its path
      under the root of its own scope. */
  lemma ReferenceReads(c: Context, r: Reference, v: Json)
    ensures ResolveReference(c, r) == Some(v) <==> ReadsFrom(c, r.scope, r.path, v)
  {
    match r.scope
    case WorkflowInput =>
      NavigateFinds(c.input, r.path, v);
      assert RootOf(c, r.scope, c.input);
    case WorkflowVariables =>
      NavigateFinds(c.variables, r.path, v);
      assert RootOf(c, r.scope, c.variables);
    case RunInfo =>
      NavigateFinds(c.run, r.path, v);
      assert RootOf(c, r.scope, c.run);
    case NodeOutput(n) =>
      if n in c.outputs {
        NavigateFinds(c.outputs[n], r.path, v);
        assert RootOf(c, r.scope, c.outputs[n]);
      }
  }

  lemma DenotesOpens(value: string, scope: Scope, path: seq<string>)
    requires Denotes(value, scope, path)
    ensures Occurs("{{", value)
  {
    var left, right :| Blank(left) && Blank(right) && value == "{{" + left + Dotted(Head(scope) + path) + right + "}}";
    assert value[0] == '{' && value[1] == '{';
  }

  /** Text to value: a text of the grammar resolves to exactly the value that its
      own scope holds at its path. `{{workflow.variables.k}}` reads the variables,
      whatever the run input holds under `k`. */
  lemma TextReads(c: Context, show: Json -> string, value: string, scope: Scope, path: seq<string>, v: Json)
    requires Denotes(value, scope, path)
    ensures Resolve(c, show, Str(value)) == Some(v) <==> ReadsFrom(c, scope, path, v)
  {
    DenotesOpens(value, scope, path);
    DenotedParses(value, scope, path);
    ReferenceReads(c, Reference(value, scope, path), v);
  }

  // ----- references by name -----

  lemma {:induction false} DottedSnoc(parts: seq<string>, name: string)
    requires parts != []
    ensures Dotted(parts + [name]) == Dotted(parts) + "." + name
    decreases |parts|
  {
    if |parts| == 1 {
      assert parts + [name] == [parts[0]] + [name];
      DottedHead(parts[0], [name]);
    } else {
      DottedSnoc(parts[1..], name);
      assert parts + [name] == [parts[0]] + (parts[1..] + [name]);
      DottedHead(parts[0], parts[1..] + [name]);
    }
  }

  lemma NameDenotes(value: string, scope: Scope, name: string)
    requires Identifiers(Head(scope)) && Identifier(name) && value == "{{" + Dotted(Head(scope)) + "." + name + "}}"
    ensures Denotes(value, scope, [name])
  {
    DottedSnoc(Head(scope), name);
    assert value == "{{" + "" + Dotted(Head(scope) + [name]) + "" + "}}";
    assert Blank("");
  }

  lemma HeadText()
    ensures Dotted(Head(WorkflowInput)) == "workflow.input" && Dotted(Head(WorkflowVariables)) == "workflow.variables"
    ensures Dotted(Head(RunInfo)) == "run" && Identifiers(Head(WorkflowInput)) && Identifiers(Head(WorkflowVariables)) && Identifiers(Head(RunInfo))
  {
    DottedHead("workflow", ["input"]);
    DottedHead("workflow", ["variables"]);
    assert "workflow" + "." + "input" == "workflow.input" && "workflow" + "." + "variables" == "workflow.variables";
    assert Identifier("workflow") && Identifier("input") && Identifier("variables") && Identifier("run");
  }

  lemma VariableDenotes(value: string, name: string)
    requires Identifier(name) && value == "{{workflow.variables." + name + "}}"
    ensures Denotes(value, WorkflowVariables, [name])
  {
    HeadText();
    assert value == "{{" + "workflow.variables" + "." + name + "}}";
    NameDenotes(value, WorkflowVariables, name);
  }

  /** Variables are read from the variables, not from the run input. */
  lemma VariableReads(c: Context, show: Json -> string, name: string)
    requires Identifier(name) && c.variables.Obj? && name in c.variables.fields
    ensures ParseReference("{{workflow.variables." + name + "}}") ==
            Some(Reference("{{workflow.variables." + name + "}}", WorkflowVariables, [name]))
    ensures Resolve(c, show, Str("{{workflow.variables." + name + "}}")) == Some(c.variables.fields[name])
  {
    var value, v := "{{workflow.variables." + name + "}}", c.variables.fields[name];
    VariableDenotes(value, name);
    DenotedParses(value, WorkflowVariables, [name]);
    assert WalksDown(c.variables, [name], v, [c.variables, v]);
    assert RootOf(c, WorkflowVariables, c.variables);
    TextReads(c, show, value, WorkflowVariables, [name], v);
  }
}
