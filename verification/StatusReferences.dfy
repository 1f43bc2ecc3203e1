/** References to the live run status: exactly the values that hold one may
    resolve differently while a node is retried. */
module StatusReferences {
  import opened Basics
  import opened StateMachines
  import opened Graphs
  import opened RunRows
  import opened Runtime
  import opened Invariant
  import opened RuntimeSafety
  import opened History
  import opened ContextReferences
  import opened ContextResolver
  import opened TemplateSubstitution
  import opened ContextSafety

  lemma StatusTexts(s: RunStatus, t: RunStatus)
    ensures StatusText(s) == StatusText(t) ==> s == t
    ensures Without(StatusText(s), '{')
  {
    assert "created"[0] == 'c' && "running"[0] == 'r' && "waiting"[0] == 'w' && "paused"[0] == 'p';
    assert "completed"[1] == 'o' && "failed"[0] == 'f' && "cancelled"[1] == 'a' && "created"[1] == 'r';
  }

  // ----- two fillings of one text -----

  /** Two fillings that agree on every template but the marked ones, which they
      fill with `s` and with `t`. */
  ghost predicate Twins(f: string -> string, h: string -> string, marked: string -> bool, s: string, t: string) {
    forall raw :: if marked(raw) then f(raw) == s && h(raw) == t else f(raw) == h(raw)
  }

  function Marks(text: string, marked: string -> bool): nat {
    if text == "" then 0
    else
      match Template(text)
      case Some(k) => (if marked(text[..k]) then 1 else 0) + Marks(text[k..], marked)
      case None => Marks(text[1..], marked)
  }

  lemma {:induction false} MarksFound(text: string, marked: string -> bool, raw: string)
    requires raw in Templates(text) && marked(raw)
    ensures Marks(text, marked) > 0
  {
    if text != "" {
      match Template(text)
      case Some(k) =>
        assert Templates(text) == [text[..k]] + Templates(text[k..]);
        if raw != text[..k] {
          MarksFound(text[k..], marked, raw);
        }
      case None => MarksFound(text[1..], marked, raw);
    }
  }

  /** The shorter filling gives the shorter text. */
  lemma {:induction false} TwinLengths(text: string, f: string -> string, h: string -> string, marked: string -> bool, s: string, t: string)
    requires Twins(f, h, marked, s, t) && |s| < |t|
    ensures |Substitute(text, f)| <= |Substitute(text, h)|
    ensures Marks(text, marked) > 0 ==> |Substitute(text, f)| < |Substitute(text, h)|
  {
    if text != "" {
      match Template(text)
      case Some(k) =>
        TwinLengths(text[k..], f, h, marked, s, t);
        assert |f(text[..k])| <= |h(text[..k])|;
      case None =>
        TwinLengths(text[1..], f, h, marked, s, t);
    }
  }

  lemma SamePrefix(a: string, b: string, c: string, d: string)
    requires a + c == b + d && |a| == |b|
    ensures a == b && c == d
  {
    assert (a + c)[..|a|] == a && (b + d)[..|b|] == b;
    assert (a + c)[|a|..] == c && (b + d)[|b|..] == d;
  }

  lemma {:induction false} TwinPieces(text: string, f: string -> string, h: string -> string, marked: string -> bool, s: string, t: string)
    requires Twins(f, h, marked, s, t) && |s| == |t| && s != t && Substitute(text, f) == Substitute(text, h)
    ensures Marks(text, marked) == 0
  {
    if text != "" {
      match Template(text)
      case Some(k) =>
        var raw, rest := text[..k], text[k..];
        assert |f(raw)| == |h(raw)|;
        SamePrefix(f(raw), h(raw), Substitute(rest, f), Substitute(rest, h));
        TwinPieces(rest, f, h, marked, s, t);
      case None =>
        SamePrefix([text[0]], [text[0]], Substitute(text[1..], f), Substitute(text[1..], h));
        TwinPieces(text[1..], f, h, marked, s, t);
    }
  }

  /** Fillings that differ on a template of the text give different texts. */
  lemma TwinsDiffer(text: string, f: string -> string, h: string -> string, marked: string -> bool, s: string, t: string)
    requires Twins(f, h, marked, s, t) && s != t && Marks(text, marked) > 0
    ensures Substitute(text, f) != Substitute(text, h)
  {
    if |s| == |t| {
      if Substitute(text, f) == Substitute(text, h) {
        TwinPieces(text, f, h, marked, s, t);
      }
    } else if |s| < |t| {
      TwinLengths(text, f, h, marked, s, t);
    } else {
      TwinLengths(text, h, f, marked, t, s);
    }
  }

  // ----- the status in a value -----

  /** The context as it would be under another run status. */
  function Under(c: Context, status: RunStatus, facts: RunFacts): Context {
    c.(run := RunScope(status, facts))
  }

  predicate StatusRaw(raw: string) {
    ParseReference(raw).Some? && ReadsStatus(ParseReference(raw).value)
  }

  /** What a template stands for, with the status spelled out. */
  lemma StatusValue(c: Context, status: RunStatus, facts: RunFacts, show: Json -> string, raw: string)
    ensures StatusRaw(raw) ==> ValueText(Under(c, status, facts), show, raw) == StatusText(status)
  {
    if StatusRaw(raw) {
      ParsedPath(raw);
      RunReference(status, status, facts, ["status"]);
    }
  }

  lemma OtherReference(c: Context, a: RunStatus, b: RunStatus, facts: RunFacts, r: Reference)
    requires Legible(r) && !ReadsStatus(r)
    ensures ResolveReference(Under(c, a, facts), r) == ResolveReference(Under(c, b, facts), r)
  {
    if r.scope.RunInfo? {
      RunReference(a, b, facts, r.path);
    }
  }

  lemma OtherValue(c: Context, a: RunStatus, b: RunStatus, facts: RunFacts, show: Json -> string, raw: string)
    requires !StatusRaw(raw)
    ensures ValueText(Under(c, a, facts), show, raw) == ValueText(Under(c, b, facts), show, raw)
  {
    if ParseReference(raw).Some? {
      ParsedPath(raw);
      OtherReference(c, a, b, facts, ParseReference(raw).value);
    }
  }

  lemma StatusTwins(c: Context, a: RunStatus, b: RunStatus, facts: RunFacts, show: Json -> string)
    ensures Twins(ValueIn(Under(c, a, facts), show), ValueIn(Under(c, b, facts), show), StatusRaw, StatusText(a), StatusText(b))
  {
    var f, h := ValueIn(Under(c, a, facts), show), ValueIn(Under(c, b, facts), show);
    forall raw
      ensures if StatusRaw(raw) then f(raw) == StatusText(a) && h(raw) == StatusText(b) else f(raw) == h(raw)
    {
      StatusValue(c, a, facts, show, raw);
      StatusValue(c, b, facts, show, raw);
      if !StatusRaw(raw) {
        OtherValue(c, a, b, facts, show, raw);
      }
    }
  }

  /** The values of the references, the status aside, hold no opening brace. */
  ghost predicate Tame(c: Context, show: Json -> string, refs: set<Reference>) {
    forall r :: r in refs && !ReadsStatus(r) ==> Without(ValueText(c, show, r.raw), '{')
  }

  lemma ReplacesUnderBoth(c: Context, a: RunStatus, b: RunStatus, facts: RunFacts, show: Json -> string, text: string, refs: seq<Reference>)
    requires forall r :: r in refs ==> Legible(r)
    ensures ReplaceEach(Under(c, a, facts), show, text, refs).Some? <==> ReplaceEach(Under(c, b, facts), show, text, refs).Some?
  {
    ReplaceEachSucceeds(Under(c, a, facts), show, text, refs);
    ReplaceEachSucceeds(Under(c, b, facts), show, text, refs);
    forall i | 0 <= i < |refs|
      ensures ResolveReference(Under(c, a, facts), refs[i]).Some? <==> ResolveReference(Under(c, b, facts), refs[i]).Some?
    {
      assert refs[i] in refs;
      if refs[i].scope.RunInfo? {
        RunReference(a, b, facts, refs[i].path);
      }
    }
  }

  lemma TameValue(c: Context, a: RunStatus, b: RunStatus, facts: RunFacts, show: Json -> string, r: Reference)
    requires ParseReference(r.raw) == Some(r)
    requires !ReadsStatus(r) ==> Without(ValueText(Under(c, a, facts), show, r.raw), '{')
    ensures Without(ValueText(Under(c, b, facts), show, r.raw), '{')
  {
    if ReadsStatus(r) {
      StatusValue(c, b, facts, show, r.raw);
      StatusTexts(b, b);
    } else {
      OtherValue(c, a, b, facts, show, r.raw);
    }
  }

  /** An interpolated text that reads the status shows it. */
  lemma InterpolatedStatus(c: Context, a: RunStatus, b: RunStatus, facts: RunFacts, show: Json -> string, text: string, r: Reference)
    requires a != b && ParseReferences(text).Some? && ConsultsText(text) == ParseReferences(text)
    requires r in ParseReferences(text).value && ReadsStatus(r)
    requires Tame(Under(c, a, facts), show, set q | q in ParseReferences(text).value)
    requires ReplaceEach(Under(c, a, facts), show, text, ParseReferences(text).value).Some?
    ensures ReplaceEach(Under(c, b, facts), show, text, ParseReferences(text).value) !=
            ReplaceEach(Under(c, a, facts), show, text, ParseReferences(text).value)
  {
    var refs := ParseReferences(text).value;
    forall q | q in refs
      ensures Legible(q) && Without(ValueText(Under(c, a, facts), show, q.raw), '{') && Without(ValueText(Under(c, b, facts), show, q.raw), '{')
    {
      TextPaths(text, q);
      TameValue(c, a, a, facts, show, q);
      TameValue(c, a, b, facts, show, q);
    }
    ReplacesUnderBoth(c, a, b, facts, show, text, refs);
    InterpolationSubstitutes(Under(c, a, facts), show, text);
    InterpolationSubstitutes(Under(c, b, facts), show, text);
    StatusTwins(c, a, b, facts, show);
    StatusTexts(a, b);
    StatusMarked(text, r);
    TwinsDiffer(text, ValueIn(Under(c, a, facts), show), ValueIn(Under(c, b, facts), show), StatusRaw, StatusText(a), StatusText(b));
  }

  lemma StatusMarked(text: string, r: Reference)
    requires ParseReferences(text).Some? && r in ParseReferences(text).value && ReadsStatus(r)
    ensures Marks(text, StatusRaw) > 0
  {
    ReferencesAreTemplates(text);
    var refs, templates := ParseReferences(text).value, Templates(text);
    var i :| 0 <= i < |refs| && refs[i] == r;
    assert templates[i] in templates && StatusRaw(templates[i]);
    MarksFound(text, StatusRaw, templates[i]);
  }

  lemma StatusInText(c: Context, a: RunStatus, b: RunStatus, facts: RunFacts, show: Json -> string, text: string, r: Reference)
    requires a != b && ConsultsText(text).Some? && r in ConsultsText(text).value && ReadsStatus(r)
    requires Tame(Under(c, a, facts), show, set q | q in ConsultsText(text).value)
    requires ResolveString(Under(c, a, facts), show, text).Some?
    ensures ResolveString(Under(c, b, facts), show, text) != ResolveString(Under(c, a, facts), show, text)
  {
    if ParseReference(text).Some? {
      RunReference(a, b, facts, ["status"]);
      RunReference(b, a, facts, ["status"]);
      StatusTexts(a, b);
    } else {
      InterpolatedStatus(c, a, b, facts, show, text, r);
    }
  }

  /** A value that reads the status and resolves shows it. */
  lemma {:induction false} StatusInValue(c: Context, a: RunStatus, b: RunStatus, facts: RunFacts, show: Json -> string, v: Json, r: Reference)
    requires a != b && Consults(v).Some? && r in Consults(v).value && ReadsStatus(r)
    requires Tame(Under(c, a, facts), show, Consults(v).value) && Resolve(Under(c, a, facts), show, v).Some?
    ensures Resolve(Under(c, b, facts), show, v) != Resolve(Under(c, a, facts), show, v)
  {
    match v
    case Str(s) =>
      assert Consults(v).value == set q | q in ConsultsText(s).value;
      StatusInText(c, a, b, facts, show, s, r);
    case Obj(fields) =>
      var k :| k in fields && r in Consults(fields[k]).value;
      StatusInValue(c, a, b, facts, show, fields[k], r);
      DifferentField(Under(c, a, facts), Under(c, b, facts), show, fields, k);
    case Arr(items) =>
      var i :| 0 <= i < |items| && r in Consults(items[i]).value;
      StatusInValue(c, a, b, facts, show, items[i], r);
      DifferentItem(Under(c, a, facts), Under(c, b, facts), show, items, i);
  }

  lemma DifferentField(c: Context, d: Context, show: Json -> string, fields: map<string, Json>, k: string)
    requires k in fields && Resolve(c, show, fields[k]) != Resolve(d, show, fields[k]) && Resolve(c, show, Obj(fields)).Some?
    ensures Resolve(c, show, Obj(fields)) != Resolve(d, show, Obj(fields))
  {
    if Resolve(d, show, Obj(fields)).Some? {
      assert Resolve(c, show, Obj(fields)).value.fields[k] == Resolve(c, show, fields[k]).value;
      assert Resolve(d, show, Obj(fields)).value.fields[k] == Resolve(d, show, fields[k]).value;
    }
  }

  lemma DifferentItem(c: Context, d: Context, show: Json -> string, items: seq<Json>, i: nat)
    requires i < |items| && Resolve(c, show, items[i]) != Resolve(d, show, items[i]) && Resolve(c, show, Arr(items)).Some?
    ensures Resolve(c, show, Arr(items)) != Resolve(d, show, Arr(items))
  {
    if Resolve(d, show, Arr(items)).Some? {
      assert Resolve(c, show, Arr(items)).value.items[i] == Resolve(c, show, items[i]).value;
      assert Resolve(d, show, Arr(items)).value.items[i] == Resolve(d, show, items[i]).value;
    }
  }

  // ----- over the life of a run -----

  lemma LaterReference(st: RunState, later: RunState, n: NodeId, v: Json, r: Reference, facts: RunFacts)
    requires Inv(st) && Publishable(st.graph) && Since(st, later) && Entered(st, n)
    requires Consults(v).Some? && UpstreamOnly(st.graph, n, Consults(v).value) && r in Consults(v).value
    ensures ResolveReference(ContextOf(later, facts), r) == ResolveReference(Under(ContextOf(st, facts), later.run, facts), r)
  {
    if !r.scope.RunInfo? {
      EnteredReference(st, later, n, v, r, facts);
    }
  }

  lemma LaterContext(st: RunState, later: RunState, n: NodeId, v: Json, facts: RunFacts, show: Json -> string)
    requires Inv(st) && Publishable(st.graph) && Since(st, later) && Entered(st, n)
    requires Consults(v).Some? && UpstreamOnly(st.graph, n, Consults(v).value)
    ensures Resolve(ContextOf(later, facts), show, v) == Resolve(Under(ContextOf(st, facts), later.run, facts), show, v)
  {
    forall r | r in Consults(v).value
      ensures ResolveReference(ContextOf(later, facts), r) == ResolveReference(Under(ContextOf(st, facts), later.run, facts), r)
    {
      LaterReference(st, later, n, v, r, facts);
    }
    SameResolution(ContextOf(later, facts), Under(ContextOf(st, facts), later.run, facts), show, v);
  }

  lemma StatusDecides(st: RunState, later: RunState, n: NodeId, v: Json, facts: RunFacts, show: Json -> string)
    requires Inv(st) && Publishable(st.graph) && Since(st, later) && Entered(st, n)
    requires Consults(v).Some? && UpstreamOnly(st.graph, n, Consults(v).value)
    requires Tame(ContextOf(st, facts), show, Consults(v).value) && Resolve(ContextOf(st, facts), show, v).Some?
    ensures Resolve(ContextOf(st, facts), show, v) == Resolve(ContextOf(later, facts), show, v) <==>
            st.run == later.run || StatusFree(v)
  {
    EnteredResolution(st, later, n, v, facts, show);
    if st.run != later.run && !StatusFree(v) {
      var r :| r in Consults(v).value && ReadsStatus(r);
      var c := ContextOf(st, facts);
      assert Under(c, st.run, facts) == c;
      LaterContext(st, later, n, v, facts, show);
      StatusInValue(c, st.run, later.run, facts, show, v, r);
    }
  }

  /** What a value resolves to changes exactly with the run status: once a node
      is ready, a value that resolves (through values without opening braces)
      resolves to the same in a later state if and only if the run status is the
      same there or no reference reads it. */
  lemma ResolutionFollowsStatus(g: Graph, input: Json, acts: seq<Action>, more: seq<Action>, n: NodeId, v: Json,
                                facts: RunFacts, show: Json -> string)
    requires Publishable(g) && Entered(Execute(g, input, acts).st, n)
    requires Consults(v).Some? && UpstreamOnly(g, n, Consults(v).value)
    requires Tame(ContextOf(Execute(g, input, acts).st, facts), show, Consults(v).value)
    requires Resolve(ContextOf(Execute(g, input, acts).st, facts), show, v).Some?
    ensures var st, later := Execute(g, input, acts).st, Execute(g, input, acts + more).st;
            Resolve(ContextOf(st, facts), show, v) == Resolve(ContextOf(later, facts), show, v) <==>
            st.run == later.run || StatusFree(v)
  {
    AlwaysSane(g, input, acts);
    LaterStates(g, input, acts, more);
    StatusDecides(Execute(g, input, acts).st, Execute(g, input, acts + more).st, n, v, facts, show);
  }

  /** `{{run.<name>}}`. */
  function InfoReference(name: string): Reference {
    Reference("{{run." + name + "}}", RunInfo, [name])
  }

  lemma InfoParts(name: string)
    requires Without(name, '.')
    ensures Split("run." + name) == ["run", name]
  {
    assert "run." + name == "run" + "." + name;
    SplitDot("run", name);
    SplitWord(name);
  }

  lemma InfoReferenceParses(name: string)
    requires Identifier(name)
    ensures ParseReference(InfoReference(name).raw) == Some(InfoReference(name))
  {
    var raw, body, parts := InfoReference(name).raw, "run." + name, ["run", name];
    IdentifierCharacters(name);
    InfoParts(name);
    assert raw == "{{" + body + "}}" && body[|body| - 1] == name[|name| - 1];
    assert Identifier("run");
    TightReference(raw, body, parts);
    assert parts[1..] == [name];
  }

  lemma InfoReferenceWritten(name: string)
    requires Identifier(name)
    ensures Written(InfoReference(name)) && Occurs("{{", InfoReference(name).raw)
  {
    var raw := InfoReference(name).raw;
    InfoReferenceParses(name);
    IdentifierCharacters(name);
    OneLineConcat("{{run.", name);
    OneLineConcat("{{run." + name, "}}");
    ReferenceIsHole(raw);
    HoleOpens(raw, "");
    assert raw + "" == raw;
  }

  lemma PureText(c: Context, show: Json -> string, r: Reference)
    requires ParseReference(r.raw) == Some(r) && Occurs("{{", r.raw)
    ensures Resolve(c, show, Str(r.raw)) == ResolveReference(c, r)
  {
  }

  lemma StatusReads(c: Context, status: RunStatus, facts: RunFacts, show: Json -> string)
    requires c.run == RunScope(status, facts)
    ensures Resolve(c, show, Str(InfoReference("status").raw)) == Some(Str(StatusText(status)))
  {
    InfoReferenceWritten("status");
    PureText(c, show, InfoReference("status"));
    RunReference(status, status, facts, ["status"]);
  }

  /** Such a value exists in every run: wherever a reachable run is RUNNING, a
      pause turns what `{{run.status}}` resolves to from "running" to "paused". */
  lemma StatusMoves(g: Graph, input: Json, acts: seq<Action>, facts: RunFacts, show: Json -> string)
    requires Execute(g, input, acts).st.run.RunRunning?
    ensures var v := Str(InfoReference("status").raw);
            && Resolve(ContextOf(Execute(g, input, acts).st, facts), show, v) == Some(Str(StatusText(RunRunning)))
            && Resolve(ContextOf(Execute(g, input, acts + [PauseRun]).st, facts), show, v) == Some(Str(StatusText(RunPaused)))
  {
    StatusReads(ContextOf(Execute(g, input, acts).st, facts), RunRunning, facts, show);
    PausedNext(g, input, acts);
    StatusReads(ContextOf(Execute(g, input, acts + [PauseRun]).st, facts), RunPaused, facts, show);
  }

  lemma PausedNext(g: Graph, input: Json, acts: seq<Action>)
    requires Execute(g, input, acts).st.run.RunRunning?
    ensures Execute(g, input, acts + [PauseRun]).st.run.RunPaused?
  {
    assert (acts + [PauseRun])[..|acts|] == acts;
  }
}
