/** Resolving references against a run's context. */
module ContextResolver {
  import opened Basics
  import opened ContextReferences

  /** The values a reference may draw on; only nodes with an output appear in
      `outputs`. */
  datatype Context = Context(input: Json, variables: Json, run: Json, outputs: map<NodeId, Json>)

  function Navigate(data: Json, path: seq<string>): Option<Json>
    decreases |path|
  {
    if path == [] then Some(data)
    else if !data.Obj? || path[0] !in data.fields then None
    else Navigate(data.fields[path[0]], path[1..])
  }

  /** The walk with a moving cursor. */
  method NavigatePath(data: Json, path: seq<string>) returns (r: Option<Json>)
    ensures r == Navigate(data, path)
  {
    var current := data;
    for i := 0 to |path|
      invariant Navigate(data, path) == Navigate(current, path[i..])
    {
      assert path[i..][1..] == path[i + 1..];
      if !current.Obj? || path[i] !in current.fields {
        return None;
      }
      current := current.fields[path[i]];
    }
    return Some(current);
  }

  function ResolveReference(c: Context, r: Reference): Option<Json> {
    match r.scope
    case WorkflowInput => Navigate(c.input, r.path)
    case WorkflowVariables => Navigate(c.variables, r.path)
    case RunInfo => Navigate(c.run, r.path)
    case NodeOutput(n) => if n in c.outputs then Navigate(c.outputs[n], r.path) else None
  }

  /** `show` is how numbers, lists and objects are printed into a text. */
  function Stringify(v: Json, show: Json -> string): string {
    match v
    case Null => ""
    case Bool(b) => if b then "true" else "false"
    case Str(s) => s
    case _ => show(v)
  }

  predicate StartsWith(s: string, prefix: string) {
    |prefix| <= |s| && s[..|prefix|] == prefix
  }

  /** Replace every occurrence, leftmost first; `was` is never empty here. */
  function ReplaceAll(s: string, was: string, with: string): string {
    if s == "" || was == "" then s
    else if StartsWith(s, was) then with + ReplaceAll(s[|was|..], was, with)
    else [s[0]] + ReplaceAll(s[1..], was, with)
  }

  /** The references replaced one after the other, each throughout the text. */
  function ReplaceEach(c: Context, show: Json -> string, text: string, refs: seq<Reference>): Option<string> {
    if refs == [] then Some(text)
    else
      var last := refs[|refs| - 1];
      var init, value := ReplaceEach(c, show, text, refs[..|refs| - 1]), ResolveReference(c, last);
      if init.None? || value.None? then None
      else Some(ReplaceAll(init.value, last.raw, Stringify(value.value, show)))
  }

  /** A text that is one reference keeps the native type of its value; in any
      other text the values are interpolated as strings. */
  function ResolveString(c: Context, show: Json -> string, text: string): Option<Json> {
    if !Occurs("{{", text) then Some(Str(text))
    else
      match ParseReference(text)
      case Some(pure) => ResolveReference(c, pure)
      case None =>
        match ParseReferences(text)
        case None => None
        case Some(refs) =>
          match ReplaceEach(c, show, text, refs)
          case None => None
          case Some(s) => Some(Str(s))
  }

  function Resolve(c: Context, show: Json -> string, v: Json): Option<Json> {
    match v
    case Str(s) => ResolveString(c, show, s)
    case Obj(fields) =>
      if exists k :: k in fields && Resolve(c, show, fields[k]).None? then None
      else Some(Obj(map k | k in fields :: Resolve(c, show, fields[k]).value))
    case Arr(items) =>
      if exists i :: 0 <= i < |items| && Resolve(c, show, items[i]).None? then None
      else Some(Arr(seq(|items|, i requires 0 <= i < |items| => Resolve(c, show, items[i]).value)))
    case _ => Some(v)
  }

  /** The interpolation of a text succeeds exactly when every reference does. */
  lemma {:induction false} ReplaceEachSucceeds(c: Context, show: Json -> string, text: string, refs: seq<Reference>)
    ensures ReplaceEach(c, show, text, refs).Some? <==> EachResolves(c, refs)
  {
    if refs != [] {
      var init, last := refs[..|refs| - 1], refs[|refs| - 1];
      ReplaceEachSucceeds(c, show, text, init);
      AllOrLast(c, refs);
    }
  }

  ghost predicate EachResolves(c: Context, refs: seq<Reference>) {
    forall i :: 0 <= i < |refs| ==> ResolveReference(c, refs[i]).Some?
  }

  lemma AllOrLast(c: Context, refs: seq<Reference>)
    requires refs != []
    ensures EachResolves(c, refs) <==> EachResolves(c, refs[..|refs| - 1]) && ResolveReference(c, refs[|refs| - 1]).Some?
  {
    var init := refs[..|refs| - 1];
    assert forall i :: 0 <= i < |init| ==> init[i] == refs[i];
  }

  /** Rebinding the text once per reference. */
  method Interpolate(c: Context, show: Json -> string, text: string, refs: seq<Reference>) returns (r: Option<string>)
    ensures r == ReplaceEach(c, show, text, refs)
  {
    var resolved := text;
    ReplaceEachSucceeds(c, show, text, refs);
    for i := 0 to |refs|
      invariant ReplaceEach(c, show, text, refs[..i]) == Some(resolved)
    {
      assert refs[..i + 1][..i] == refs[..i];
      var value := ResolveReference(c, refs[i]);
      if value.None? {
        return None;
      }
      resolved := ReplaceAll(resolved, refs[i].raw, Stringify(value.value, show));
    }
    assert refs[..|refs|] == refs;
    return Some(resolved);
  }

  method ResolveText(c: Context, show: Json -> string, text: string) returns (r: Option<Json>)
    ensures r == ResolveString(c, show, text)
  {
    if !Occurs("{{", text) {
      return Some(Str(text));
    }
    var pure := ParseReference(text);
    if pure.Some? {
      return ResolveReference(c, pure.value);
    }
    var references := ParseContextReferences(text);
    if references.None? {
      return None;
    }
    var resolved := Interpolate(c, show, text, references.value);
    return if resolved.None? then None else Some(Str(resolved.value));
  }

  // ----- the references the resolver looks at -----

  /** The references of a text as the resolver reads it; `None` when it rejects
      the text whatever the context. */
  function ConsultsText(text: string): Option<seq<Reference>> {
    if !Occurs("{{", text) then Some([])
    else
      match ParseReference(text)
      case Some(pure) => Some([pure])
      case None => ParseReferences(text)
  }

  /** The references of a value as the resolver reads it. */
  function Consults(v: Json): Option<set<Reference>> {
    match v
    case Str(s) =>
      (match ConsultsText(s)
       case None => None
       case Some(refs) => Some(set r | r in refs))
    case Obj(fields) =>
      if exists k :: k in fields && Consults(fields[k]).None? then None
      else Some(set k, r | k in fields && r in Consults(fields[k]).value :: r)
    case Arr(items) =>
      if exists i :: 0 <= i < |items| && Consults(items[i]).None? then None
      else Some(set i, r | 0 <= i < |items| && r in Consults(items[i]).value :: r)
    case _ => Some({})
  }

  lemma NoOpeningNoReferences(text: string)
    requires !Occurs("{{", text) && ParseReferences(text).Some?
    ensures ParseReferences(text) == Some([])
  {
    NoPairNoTemplate(text);
    if Occurs("}}", text) {
      assert ParseAll([]) == Some([]);
    }
  }

  lemma OccursLater(pair: string, s: string)
    requires |pair| == 2 && s != "" && Occurs(pair, s[1..])
    ensures Occurs(pair, s)
  {
    var i :| 0 <= i <= |s[1..]| - 2 && s[1..][i] == pair[0] && s[1..][i + 1] == pair[1];
    assert s[i + 1] == pair[0] && s[i + 2] == pair[1];
  }

  lemma {:induction false} NoPairNoTemplate(s: string)
    requires !Occurs("{{", s)
    ensures Templates(s) == []
  {
    if s != "" {
      if |s| >= 2 {
        assert s[..2][0] == s[0] && s[..2][1] == s[1];
        assert Template(s).None?;
      }
      if Occurs("{{", s[1..]) {
        OccursLater("{{", s);
      }
      NoPairNoTemplate(s[1..]);
    }
  }

  lemma ScannerAgrees(text: string)
    requires ParseReferences(text).Some?
    ensures ConsultsText(text) == ParseReferences(text)
  {
    if !Occurs("{{", text) {
      NoOpeningNoReferences(text);
    } else if ParseReference(text).Some? {
      PureAccepted(text);
    }
  }

  /** On every value the scanner accepts, resolver and scanner see the same
      references. */
  lemma {:induction false} ExtractIsConsults(v: Json)
    requires Extract(v).Some?
    ensures Consults(v) == Extract(v)
  {
    match v
    case Str(s) => ScannerAgrees(s);
    case Obj(fields) =>
      forall k | k in fields
        ensures Extract(fields[k]).Some? && Consults(fields[k]) == Extract(fields[k])
      {
        ExtractIsConsults(fields[k]);
      }
      assert Consults(v).value == Extract(v).value;
    case Arr(items) =>
      forall i | 0 <= i < |items|
        ensures Extract(items[i]).Some? && Consults(items[i]) == Extract(items[i])
      {
        ExtractIsConsults(items[i]);
      }
      assert Consults(v).value == Extract(v).value;
    case _ =>
  }

  // ----- resolution succeeds exactly when every reference does -----

  ghost predicate AllResolve(c: Context, refs: set<Reference>) {
    forall r :: r in refs ==> ResolveReference(c, r).Some?
  }

  lemma TextResolves(c: Context, show: Json -> string, text: string)
    ensures ResolveString(c, show, text).Some? <==>
            ConsultsText(text).Some? && forall r :: r in ConsultsText(text).value ==> ResolveReference(c, r).Some?
  {
    if Occurs("{{", text) && ParseReference(text).None? && ParseReferences(text).Some? {
      ReplaceEachSucceeds(c, show, text, ParseReferences(text).value);
    }
  }

  /** A value resolves exactly when the resolver can read its references and
      each of them navigates to a value. */
  lemma {:induction false} ValueResolves(c: Context, show: Json -> string, v: Json)
    ensures Resolve(c, show, v).Some? <==> Consults(v).Some? && AllResolve(c, Consults(v).value)
  {
    match v
    case Str(s) => TextResolves(c, show, s);
    case Obj(fields) =>
      forall k | k in fields
        ensures Resolve(c, show, fields[k]).Some? <==> Consults(fields[k]).Some? && AllResolve(c, Consults(fields[k]).value)
      {
        ValueResolves(c, show, fields[k]);
      }
      if Consults(v).Some? && AllResolve(c, Consults(v).value) {
        forall k | k in fields
          ensures Resolve(c, show, fields[k]).Some?
        {
          assert AllResolve(c, Consults(fields[k]).value);
        }
      }
    case Arr(items) =>
      forall i | 0 <= i < |items|
        ensures Resolve(c, show, items[i]).Some? <==> Consults(items[i]).Some? && AllResolve(c, Consults(items[i]).value)
      {
        ValueResolves(c, show, items[i]);
      }
      if Consults(v).Some? && AllResolve(c, Consults(v).value) {
        forall i | 0 <= i < |items|
          ensures Resolve(c, show, items[i]).Some?
        {
          assert AllResolve(c, Consults(items[i]).value);
        }
      }
    case _ =>
  }

  /** For every value whose references the scanner accepts, resolution succeeds
      exactly when each of them navigates to a value. */
  lemma ResolveSucceeds(c: Context, show: Json -> string, v: Json)
    requires Extract(v).Some?
    ensures Resolve(c, show, v).Some? <==> AllResolve(c, Extract(v).value)
  {
    ExtractIsConsults(v);
    ValueResolves(c, show, v);
  }

  // ----- resolution depends on those references only -----

  ghost predicate SameView(c: Context, d: Context, refs: set<Reference>) {
    forall r :: r in refs ==> ResolveReference(c, r) == ResolveReference(d, r)
  }

  lemma {:induction false} SameReplacements(c: Context, d: Context, show: Json -> string, text: string, refs: seq<Reference>)
    requires forall i :: 0 <= i < |refs| ==> ResolveReference(c, refs[i]) == ResolveReference(d, refs[i])
    ensures ReplaceEach(c, show, text, refs) == ReplaceEach(d, show, text, refs)
  {
    if refs != [] {
      SameReplacements(c, d, show, text, refs[..|refs| - 1]);
    }
  }

  lemma SameText(c: Context, d: Context, show: Json -> string, text: string)
    requires ConsultsText(text).Some? ==>
               forall r :: r in ConsultsText(text).value ==> ResolveReference(c, r) == ResolveReference(d, r)
    ensures ResolveString(c, show, text) == ResolveString(d, show, text)
  {
    if Occurs("{{", text) && ParseReference(text).None? && ParseReferences(text).Some? {
      SameReplacements(c, d, show, text, ParseReferences(text).value);
    }
  }

  /** Two contexts that agree on the references of a value resolve it alike. */
  lemma {:induction false} SameResolution(c: Context, d: Context, show: Json -> string, v: Json)
    requires Consults(v).Some? ==> SameView(c, d, Consults(v).value)
    ensures Resolve(c, show, v) == Resolve(d, show, v)
  {
    if Consults(v).None? {
      ValueResolves(c, show, v);
      ValueResolves(d, show, v);
    } else {
      match v
      case Str(s) => SameText(c, d, show, s);
      case Obj(fields) =>
        forall k | k in fields
          ensures Resolve(c, show, fields[k]) == Resolve(d, show, fields[k])
        {
          assert SameView(c, d, Consults(fields[k]).value);
          SameResolution(c, d, show, fields[k]);
        }
        SameFields(c, d, show, fields);
      case Arr(items) =>
        forall i | 0 <= i < |items|
          ensures Resolve(c, show, items[i]) == Resolve(d, show, items[i])
        {
          assert SameView(c, d, Consults(items[i]).value);
          SameResolution(c, d, show, items[i]);
        }
        SameItems(c, d, show, items);
      case _ =>
    }
  }

  lemma SameFields(c: Context, d: Context, show: Json -> string, fields: map<string, Json>)
    requires forall k :: k in fields ==> Resolve(c, show, fields[k]) == Resolve(d, show, fields[k])
    ensures Resolve(c, show, Obj(fields)) == Resolve(d, show, Obj(fields))
  {
    if forall k :: k in fields ==> Resolve(c, show, fields[k]).Some? {
      var a := map k | k in fields :: Resolve(c, show, fields[k]).value;
      var b := map k | k in fields :: Resolve(d, show, fields[k]).value;
      assert a == b;
    }
  }

  lemma SameItems(c: Context, d: Context, show: Json -> string, items: seq<Json>)
    requires forall i :: 0 <= i < |items| ==> Resolve(c, show, items[i]) == Resolve(d, show, items[i])
    ensures Resolve(c, show, Arr(items)) == Resolve(d, show, Arr(items))
  {
    if forall i :: 0 <= i < |items| ==> Resolve(c, show, items[i]).Some? {
      var a := seq(|items|, i requires 0 <= i < |items| => Resolve(c, show, items[i]).value);
      var b := seq(|items|, i requires 0 <= i < |items| => Resolve(d, show, items[i]).value);
      assert a == b;
    }
  }
}
