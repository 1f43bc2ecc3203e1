/** The template language of node configurations: scanning `{{...}}`
    templates and parsing the references in them. */
module ContextReferences {
  import opened Basics

  datatype Scope = WorkflowInput | WorkflowVariables | RunInfo | NodeOutput(node: NodeId)

  /** A parsed reference; the dotted path is kept as its parts. */
  datatype Reference = Reference(raw: string, scope: Scope, path: seq<string>)

  // ----- characters -----

  predicate IdentifierChar(c: char) {
    'A' <= c <= 'Z' || 'a' <= c <= 'z' || '0' <= c <= '9' || c == '_' || c == '-'
  }

  predicate Identifier(s: string) {
    s != "" && forall i :: 0 <= i < |s| ==> IdentifierChar(s[i])
  }

  /** What `\s` matches in a text. */
  predicate Space(c: char) {
    || '\t' <= c <= '\r' || '\U{1c}' <= c <= ' ' || c == '\U{85}' || c == '\U{a0}' || c == '\U{1680}'
    || '\U{2000}' <= c <= '\U{200a}' || c == '\U{2028}' || c == '\U{2029}' || c == '\U{202f}'
    || c == '\U{205f}' || c == '\U{3000}'
  }

  predicate Brace(c: char) {
    c == '{' || c == '}'
  }

  predicate BraceFree(s: string) {
    forall i :: 0 <= i < |s| ==> !Brace(s[i])
  }

  predicate OneLine(s: string) {
    forall i :: 0 <= i < |s| ==> s[i] != '\n'
  }

  predicate Occurs(pair: string, s: string)
    requires |pair| == 2
  {
    exists i :: 0 <= i <= |s| - 2 && s[i] == pair[0] && s[i + 1] == pair[1]
  }

  // ----- one reference -----

  function StripLeft(s: string): string {
    if s != "" && Space(s[0]) then StripLeft(s[1..]) else s
  }

  function StripRight(s: string): string {
    if s != "" && Space(s[|s| - 1]) then StripRight(s[..|s| - 1]) else s
  }

  /** The parts between the dots; at least one. */
  function Split(s: string): (parts: seq<string>)
    ensures parts != []
  {
    if s == "" then [""]
    else
      var rest := Split(s[1..]);
      if s[0] == '.' then [""] + rest else [[s[0]] + rest[0]] + rest[1..]
  }

  /** The scopes and the length of their dotted prefix. */
  function ScopeOf(parts: seq<string>): (r: Option<(Scope, nat)>)
    ensures r.Some? ==> 0 < r.value.1 < |parts|
  {
    if |parts| >= 3 && parts[0] == "workflow" && parts[1] == "input" then Some((WorkflowInput, 2))
    else if |parts| >= 3 && parts[0] == "workflow" && parts[1] == "variables" then Some((WorkflowVariables, 2))
    else if |parts| >= 4 && parts[0] == "nodes" && parts[2] == "output" then Some((NodeOutput(parts[1]), 3))
    else if |parts| >= 2 && parts[0] == "run" then Some((RunInfo, 1))
    else None
  }

  /** `{{`, a scope, a dotted path, `}}`, with white space just inside the braces. */
  function ParseReference(value: string): Option<Reference> {
    if |value| < 4 || value[..2] != "{{" || value[|value| - 2..] != "}}" then None
    else
      var parts := Split(StripRight(StripLeft(value[2..|value| - 2])));
      if exists i :: 0 <= i < |parts| && !Identifier(parts[i]) then None
      else
        match ScopeOf(parts)
        case None => None
        case Some((scope, k)) => Some(Reference(value, scope, parts[k..]))
  }

  // ----- templates in a text -----

  /** Where the first `}}` on the current line starts. */
  function Close(s: string): Option<nat> {
    if |s| < 2 || s[0] == '\n' then None
    else if s[..2] == "}}" then Some(0)
    else
      match Close(s[1..])
      case None => None
      case Some(k) => Some(k + 1)
  }

  /** The length of the template at the start of the text, matched lazily. */
  function Template(s: string): (r: Option<nat>)
    ensures r.Some? ==> 4 <= r.value <= |s|
  {
    if |s| < 2 || s[..2] != "{{" then None
    else
      match Close(s[2..])
      case None => None
      case Some(k) => CloseFits(s[2..]); Some(k + 4)
  }

  lemma {:induction false} CloseFits(s: string)
    ensures Close(s).Some? ==> Close(s).value + 2 <= |s|
  {
    if |s| >= 2 && s[0] != '\n' && s[..2] != "}}" {
      CloseFits(s[1..]);
    }
  }

  /** The templates of a text, leftmost first, without overlaps. */
  function Templates(s: string): seq<string> {
    if s == "" then []
    else
      match Template(s)
      case Some(k) => [s[..k]] + Templates(s[k..])
      case None => Templates(s[1..])
  }

  /** Occurrences of a doubled character, counted without overlaps. */
  function CountPairs(s: string, c: char): nat {
    if |s| < 2 then 0
    else if s[0] == c && s[1] == c then 1 + CountPairs(s[2..], c)
    else CountPairs(s[1..], c)
  }

  function ParseAll(templates: seq<string>): Option<seq<Reference>> {
    if templates == [] then Some([])
    else
      var init, last := ParseAll(templates[..|templates| - 1]), ParseReference(templates[|templates| - 1]);
      if init.None? || last.None? then None else Some(init.value + [last.value])
  }

  /** All references of a text; `None` when a template is malformed, left open,
      or the delimiters are unbalanced. */
  function ParseReferences(s: string): Option<seq<Reference>> {
    if !Occurs("{{", s) && !Occurs("}}", s) then Some([])
    else
      var templates := Templates(s);
      if Occurs("{{", s) && templates == [] then None
      else
        var refs := ParseAll(templates);
        if refs.None? || CountPairs(s, '{') != CountPairs(s, '}') then None else refs
  }

  /** All references in a JSON value. */
  function Extract(v: Json): Option<set<Reference>> {
    match v
    case Str(s) =>
      (match ParseReferences(s)
       case None => None
       case Some(refs) => Some(set r | r in refs))
    case Obj(fields) =>
      if exists k :: k in fields && Extract(fields[k]).None? then None
      else Some(set k, r | k in fields && r in Extract(fields[k]).value :: r)
    case Arr(items) =>
      if exists i :: 0 <= i < |items| && Extract(items[i]).None? then None
      else Some(set i, r | 0 <= i < |items| && r in Extract(items[i]).value :: r)
    case _ => Some({})
  }

  // ----- what a template that parses looks like -----

  /** `{{`, no brace and no line break, `}}`. */
  predicate Hole(h: string) {
    && |h| >= 4 && h[..2] == "{{" && h[|h| - 2..] == "}}"
    && BraceFree(h[2..|h| - 2]) && OneLine(h[2..|h| - 2])
  }

  lemma {:induction false} SplitCharacters(s: string)
    requires forall i :: 0 <= i < |Split(s)| ==> Split(s)[i] == "" || Identifier(Split(s)[i])
    ensures BraceFree(s)
  {
    if s != "" {
      var rest := Split(s[1..]);
      forall i | 0 <= i < |rest|
        ensures rest[i] == "" || Identifier(rest[i])
      {
        if s[0] == '.' {
          assert Split(s)[i + 1] == rest[i];
        } else if i > 0 {
          assert Split(s)[i] == rest[i];
        } else {
          var first := Split(s)[0];
          assert first == [s[0]] + rest[0];
          assert forall j :: 0 <= j < |rest[0]| ==> rest[0][j] == first[j + 1];
        }
      }
      SplitCharacters(s[1..]);
      if s[0] != '.' {
        assert Identifier(Split(s)[0]) && Split(s)[0][0] == s[0];
      }
      assert forall i :: 0 < i < |s| ==> s[i] == s[1..][i - 1];
    }
  }

  lemma {:induction false} StrippedCharacters(s: string)
    ensures BraceFree(StripLeft(s)) ==> BraceFree(s)
    ensures BraceFree(StripRight(s)) ==> BraceFree(s)
    decreases |s|
  {
    if s != "" {
      StrippedCharacters(s[1..]);
      StrippedCharacters(s[..|s| - 1]);
      assert forall i :: 0 < i < |s| ==> s[i] == s[1..][i - 1];
    }
  }

  lemma ReferenceIsBraceFree(value: string)
    requires ParseReference(value).Some?
    ensures BraceFree(value[2..|value| - 2])
  {
    var inner := value[2..|value| - 2];
    var body := StripRight(StripLeft(inner));
    assert forall i :: 0 <= i < |Split(body)| ==> Identifier(Split(body)[i]);
    SplitCharacters(body);
    StrippedCharacters(StripLeft(inner));
    StrippedCharacters(inner);
  }

  lemma {:induction false} CloseLine(s: string)
    requires Close(s).Some?
    ensures Close(s).value + 2 <= |s| && OneLine(s[..Close(s).value])
    ensures s[Close(s).value..Close(s).value + 2] == "}}"
  {
    if s[..2] != "}}" {
      CloseLine(s[1..]);
      var k := Close(s[1..]).value;
      assert s[1..][..k] == s[1..k + 1];
      assert s[1..][k..k + 2] == s[k + 1..k + 3];
      assert s[..k + 1] == [s[0]] + s[1..k + 1];
    }
  }

  /** A matched template that parses is a hole. */
  lemma TemplateIsHole(s: string)
    requires Template(s).Some? && ParseReference(s[..Template(s).value]).Some?
    ensures Hole(s[..Template(s).value])
  {
    var k := Template(s).value;
    CloseLine(s[2..]);
    ReferenceIsBraceFree(s[..k]);
    assert s[..k][2..k - 2] == s[2..][..k - 4];
    assert s[..k][k - 2..] == s[2..][k - 4..k - 2];
  }

  // ----- a text that is one reference -----

  lemma {:induction false} CloseAfter(inner: string)
    requires BraceFree(inner)
    ensures Close(inner + "}}") == if OneLine(inner) then Some(|inner|) else None
  {
    var s := inner + "}}";
    if inner == "" {
      assert s == "}}";
    } else {
      CloseAfter(inner[1..]);
      assert s[1..] == inner[1..] + "}}";
      assert s[..2] != "}}" by {
        assert s[0] == inner[0] && !Brace(inner[0]);
      }
      assert forall i :: 0 < i < |inner| ==> inner[i] == inner[1..][i - 1];
    }
  }

  predicate Without(s: string, c: char) {
    forall i :: 0 <= i < |s| ==> s[i] != c
  }

  lemma {:induction false} NoOpening(s: string)
    requires Without(s, '{')
    ensures Templates(s) == [] && CountPairs(s, '{') == 0
  {
    if s != "" {
      assert Without(s[1..], '{');
      NoOpening(s[1..]);
      if |s| >= 2 {
        assert s[..2][0] == s[0];
      }
    }
  }

  lemma {:induction false} OneClosing(inner: string)
    requires BraceFree(inner)
    ensures CountPairs(inner + "}}", '}') == 1
  {
    var s := inner + "}}";
    if inner == "" {
      assert s == "}}" && CountPairs(s[2..], '}') == 0;
    } else {
      OneClosing(inner[1..]);
      assert s[0] == inner[0] && s[1..] == inner[1..] + "}}";
    }
  }

  lemma PureCounts(value: string, inner: string)
    requires value == "{{" + inner + "}}" && BraceFree(inner)
    ensures CountPairs(value, '{') == 1 && CountPairs(value, '}') == 1
  {
    var tail := inner + "}}";
    assert value[2..] == tail && value[1..] == "{" + tail && value[1..][1..] == tail;
    assert Without(tail, '{');
    NoOpening(tail);
    OneClosing(inner);
  }

  lemma OpenPure(value: string, inner: string)
    requires value == "{{" + inner + "}}" && BraceFree(inner) && !OneLine(inner)
    ensures Templates(value) == []
  {
    var tail := inner + "}}";
    CloseAfter(inner);
    assert value[2..] == tail;
    assert Template(value).None?;
    var second := value[1..];
    assert second[1] != '{';
    assert Template(second).None?;
    assert second[1..] == tail && Without(tail, '{');
    NoOpening(tail);
  }

  lemma ClosedPure(value: string, inner: string)
    requires value == "{{" + inner + "}}" && BraceFree(inner) && OneLine(inner)
    ensures Templates(value) == [value]
  {
    CloseAfter(inner);
    assert value[2..] == inner + "}}";
    assert Template(value) == Some(|value|);
    assert value[..|value|] == value && value[|value|..] == "";
  }

  /** A text that is one reference is accepted by the scanner exactly when the
      white space inside its braces holds no line break; the scanner then finds
      that reference and nothing else. */
  lemma PureAccepted(value: string)
    requires ParseReference(value).Some?
    ensures ParseReferences(value) == if OneLine(value) then Some([ParseReference(value).value]) else None
  {
    var inner := value[2..|value| - 2];
    ReferenceIsBraceFree(value);
    assert value == "{{" + inner + "}}";
    assert value[0] == "{{"[0] && value[1] == "{{"[1];
    assert Occurs("{{", value);
    assert OneLine(value) <==> OneLine(inner) by {
      assert forall i :: 0 <= i < |inner| ==> inner[i] == value[i + 2];
    }
    if OneLine(inner) {
      ClosedPure(value, inner);
      PureCounts(value, inner);
      ParseOne(value);
    } else {
      OpenPure(value, inner);
    }
  }

  lemma ParseOne(value: string)
    requires ParseReference(value).Some?
    ensures ParseAll([value]) == Some([ParseReference(value).value])
  {
    assert [value][..|[value]| - 1] == [];
    assert ParseAll([]) == Some([]);
    assert [] + [ParseReference(value).value] == [ParseReference(value).value];
  }

  /** Such a text exists: the resolver accepts it, the scanner rejects it. */
  lemma LineBreakInReference()
    ensures ParseReference("{{\nrun.x}}").Some? && ParseReferences("{{\nrun.x}}").None?
  {
    var value := "{{\nrun.x}}";
    var inner := value[2..|value| - 2];
    assert inner == "\nrun.x" && inner[1..] == "run.x";
    assert StripLeft(inner) == "run.x";
    assert "run.x" == "run" + "." + "x";
    SplitDot("run", "x");
    SplitWord("x");
    assert value[2] == '\n';
    PureAccepted(value);
  }

  // ----- references written without white space -----

  lemma {:induction false} SplitWord(w: string)
    requires Without(w, '.')
    ensures Split(w) == [w]
  {
    if w != "" {
      assert Without(w[1..], '.');
      SplitWord(w[1..]);
      assert [w[0]] + w[1..] == w;
    }
  }

  lemma {:induction false} SplitDot(w: string, rest: string)
    requires Without(w, '.')
    ensures Split(w + "." + rest) == [w] + Split(rest)
  {
    var s := w + "." + rest;
    if w == "" {
      assert s == "." + rest && s[1..] == rest;
    } else {
      assert Without(w[1..], '.');
      SplitDot(w[1..], rest);
      assert s[1..] == w[1..] + "." + rest && s[0] == w[0];
      assert [w[0]] + w[1..] == w;
    }
  }

  lemma NothingToStrip(s: string)
    requires s != "" && !Space(s[0]) && !Space(s[|s| - 1])
    ensures StripRight(StripLeft(s)) == s
  {
  }

  /** The reference whose braces enclose exactly the given dotted parts. */
  lemma TightReference(value: string, body: string, parts: seq<string>)
    requires value == "{{" + body + "}}" && Split(body) == parts
    requires body != "" && !Space(body[0]) && !Space(body[|body| - 1])
    requires forall i :: 0 <= i < |parts| ==> Identifier(parts[i])
    requires ScopeOf(parts).Some?
    ensures ParseReference(value) == Some(Reference(value, ScopeOf(parts).value.0, parts[ScopeOf(parts).value.1..]))
  {
    assert value[..2] == "{{" && value[|value| - 2..] == "}}";
    assert value[2..|value| - 2] == body;
    NothingToStrip(body);
  }

  // ----- the scanner as a loop -----

  lemma {:induction false} ParseAllEach(templates: seq<string>)
    ensures ParseAll(templates).Some? <==> forall i :: 0 <= i < |templates| ==> ParseReference(templates[i]).Some?
    ensures ParseAll(templates).Some? ==>
              && |ParseAll(templates).value| == |templates|
              && forall i :: 0 <= i < |templates| ==> Some(ParseAll(templates).value[i]) == ParseReference(templates[i])
  {
    if templates != [] {
      var init, last := templates[..|templates| - 1], templates[|templates| - 1];
      ParseAllEach(init);
      assert ParseAll(templates) == if ParseAll(init).None? || ParseReference(last).None? then None
                                    else Some(ParseAll(init).value + [ParseReference(last).value]);
      forall i | 0 <= i < |templates|
        ensures templates[i] == if i < |init| then init[i] else last
      {
      }
    }
  }

  /** A template that does not parse spoils the whole text. */
  lemma ParseAllNext(templates: seq<string>, i: nat)
    requires i < |templates| && ParseAll(templates[..i]).Some?
    ensures ParseReference(templates[i]).None? ==> ParseAll(templates).None?
    ensures ParseReference(templates[i]).Some? ==>
              ParseAll(templates[..i + 1]) == Some(ParseAll(templates[..i]).value + [ParseReference(templates[i]).value])
  {
    ParseAllEach(templates);
    assert templates[..i + 1][..i] == templates[..i];
  }

  method ParseContextReferences(value: string) returns (r: Option<seq<Reference>>)
    ensures r == ParseReferences(value)
  {
    if !Occurs("{{", value) && !Occurs("}}", value) {
      return Some([]);
    }
    var matches := Templates(value);
    if Occurs("{{", value) && matches == [] {
      return None;
    }
    var references := [];
    for i := 0 to |matches|
      invariant ParseAll(matches[..i]) == Some(references)
    {
      ParseAllNext(matches, i);
      match ParseReference(matches[i]) {
        case None => return None;
        case Some(reference) => references := references + [reference];
      }
    }
    assert matches[..|matches|] == matches;
    if CountPairs(value, '{') != CountPairs(value, '}') {
      return None;
    }
    return Some(references);
  }

  lemma ReferenceIsHole(value: string)
    requires ParseReference(value).Some? && OneLine(value)
    ensures Hole(value)
  {
    ReferenceIsBraceFree(value);
    var inner := value[2..|value| - 2];
    forall i | 0 <= i < |inner|
      ensures inner[i] != '\n'
    {
      assert inner[i] == value[i + 2];
    }
  }
}
