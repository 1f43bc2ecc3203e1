/** Replacing references one after the other, each throughout the text, equals
    filling all templates at once, provided no value brings in an opening brace. */
module TemplateSubstitution {
  import opened Basics
  import opened ContextReferences
  import opened ContextResolver

  /** The text with the templates listed in `done` filled at their positions. */
  function Fill(s: string, done: set<string>, value: string -> string): string {
    if s == "" then ""
    else
      match Template(s)
      case Some(k) => (if s[..k] in done then value(s[..k]) else s[..k]) + Fill(s[k..], done, value)
      case None => [s[0]] + Fill(s[1..], done, value)
  }

  /** Every template filled at its position: the intended meaning of a text. */
  function Substitute(s: string, value: string -> string): string {
    if s == "" then ""
    else
      match Template(s)
      case Some(k) => value(s[..k]) + Substitute(s[k..], value)
      case None => [s[0]] + Substitute(s[1..], value)
  }

  /** Every template of the text parses, so none holds a brace inside. */
  ghost predicate AllHoles(s: string) {
    forall t :: t in Templates(s) ==> Hole(t)
  }

  ghost predicate SafeValues(s: string, value: string -> string) {
    forall t :: t in Templates(s) ==> Without(value(t), '{')
  }

  lemma {:induction false} FillNone(s: string, value: string -> string)
    ensures Fill(s, {}, value) == s
  {
    if s != "" {
      match Template(s)
      case Some(k) =>
        FillNone(s[k..], value);
      case None =>
        FillNone(s[1..], value);
    }
  }

  lemma {:induction false} FillAll(s: string, done: set<string>, value: string -> string)
    requires forall t :: t in Templates(s) ==> t in done
    ensures Fill(s, done, value) == Substitute(s, value)
  {
    if s != "" {
      match Template(s)
      case Some(k) =>
        assert Templates(s) == [s[..k]] + Templates(s[k..]);
        FillAll(s[k..], done, value);
      case None =>
        FillAll(s[1..], done, value);
    }
  }

  // ----- where a template can occur -----

  lemma DifferentStart(s: string, p: string)
    requires s != "" && p != "" && s[0] != p[0]
    ensures !StartsWith(s, p)
  {
    if |p| <= |s| {
      assert s[..|p|][0] == s[0];
    }
  }

  lemma {:induction false} PassOver(v: string, rest: string, hole: string, with: string)
    requires Hole(hole) && Without(v, '{')
    ensures ReplaceAll(v + rest, hole, with) == v + ReplaceAll(rest, hole, with)
  {
    if v == "" {
      assert v + rest == rest;
    } else {
      var s := v + rest;
      assert s[0] == v[0] && hole[0] == '{';
      DifferentStart(s, hole);
      assert s[1..] == v[1..] + rest;
      PassOver(v[1..], rest, hole, with);
      assert [v[0]] + (v[1..] + ReplaceAll(rest, hole, with)) == v + ReplaceAll(rest, hole, with);
    }
  }

  lemma TemplateAtZero(s: string)
    requires |s| >= 2 && s[0] == '{' && s[1] == '{'
    ensures Template(s) == match Close(s[2..]) case None => None case Some(k) => Some(k + 4)
  {
    assert s[..2] == "{{";
  }

  /** A template on the same line closes whatever was opened before it. */
  lemma ClosesToo(s: string)
    requires Template(s).Some?
    ensures Close(s).Some?
  {
    var t := s[1..];
    assert s[..2] == "{{" && s[0] == '{' && s[1] == '{';
    assert t[0] == '{' && t[1..] == s[2..];
    assert Close(t[1..]).Some?;
    CloseStep(t);
    CloseStep(s);
  }

  lemma CloseStep(s: string)
    requires |s| >= 2 && s[0] != '\n' && Close(s[1..]).Some?
    ensures Close(s).Some?
  {
  }

  lemma FillHead(s: string, done: set<string>, value: string -> string)
    requires Template(s).None? && s != ""
    ensures Fill(s, done, value) == [s[0]] + Fill(s[1..], done, value)
    ensures Fill(s, done, value)[0] == s[0] && Fill(s, done, value)[1..] == Fill(s[1..], done, value)
  {
  }

  lemma NothingClosesHere(s: string, done: set<string>, value: string -> string)
    requires Close(s).None?
    ensures !StartsWith(Fill(s, done, value), "}}")
  {
    if s != "" {
      NoTemplateHere(s);
      FillHead(s, done, value);
      if |s| >= 2 && s[0] == '}' {
        assert s[1] != '}' by {
          assert s[..2] != "}}";
        }
        NoTemplateHere(s[1..]);
        FillHead(s[1..], done, value);
        assert Fill(s, done, value)[1] == s[1];
      }
    }
  }

  lemma NoTemplateHere(s: string)
    requires Close(s).None?
    ensures Template(s).None?
  {
    if Template(s).Some? {
      ClosesToo(s);
    }
  }

  lemma StartsTail(f: string, p: string)
    requires StartsWith(f, p) && p != ""
    ensures f != "" && f[0] == p[0] && StartsWith(f[1..], p[1..])
  {
    assert f[..|p|][0] == p[0];
    assert f[1..][..|p| - 1] == f[..|p|][1..];
  }

  /** Where nothing closes before the end of the line, the filled text cannot
      continue with a hole's inside and its closing braces. */
  lemma {:induction false} NothingCloses(s: string, done: set<string>, value: string -> string, inner: string)
    requires Close(s).None? && BraceFree(inner) && OneLine(inner)
    ensures !StartsWith(Fill(s, done, value), inner + "}}")
    decreases |inner|
  {
    if inner == "" {
      assert inner + "}}" == "}}";
      NothingClosesHere(s, done, value);
    } else if s != "" {
      var f, p := Fill(s, done, value), inner + "}}";
      NoTemplateHere(s);
      FillHead(s, done, value);
      assert p[1..] == inner[1..] + "}}" && p[0] == inner[0];
      if s[0] == inner[0] {
        if |s| >= 2 && Close(s[1..]).Some? {
          CloseStep(s);
        }
        NothingCloses(s[1..], done, value, inner[1..]);
      }
      if StartsWith(f, p) {
        StartsTail(f, p);
      }
    }
  }

  /** A hole is nowhere found in the filled text where the original text has no
      template. */
  lemma NoHoleHere(s: string, done: set<string>, value: string -> string, hole: string)
    requires s != "" && Template(s).None? && Hole(hole)
    ensures !StartsWith(Fill(s, done, value), hole)
  {
    var f := Fill(s, done, value);
    FillHead(s, done, value);
    if StartsWith(f, hole) {
      HoleInside(hole);
      StartsTail(f, hole);
      StartsTail(f[1..], hole[1..]);
      SecondBrace(s, done, value);
      NothingCloses(s[2..], done, value, hole[2..|hole| - 2]);
    }
  }

  lemma HoleInside(hole: string)
    requires Hole(hole)
    ensures hole[0] == '{' && hole[1..] != "" && hole[1..][0] == '{' && hole[1..][1..] == hole[2..|hole| - 2] + "}}"
  {
    assert hole[..2][0] == '{' && hole[..2][1] == '{';
    assert hole[2..] == hole[2..|hole| - 2] + hole[|hole| - 2..];
  }

  /** An opening brace that the filled text shows second was there before. */
  lemma SecondBrace(s: string, done: set<string>, value: string -> string)
    requires Template(s).None? && |s| >= 2 && s[0] == '{'
    requires Fill(s[1..], done, value) != "" && Fill(s[1..], done, value)[0] == '{'
    ensures Template(s[1..]).None? && s[1] == '{' && Close(s[2..]).None?
    ensures Fill(s[1..], done, value)[1..] == Fill(s[2..], done, value)
  {
    if Template(s[1..]).Some? {
      assert s[1..][..2] == "{{" && s[1] == '{' && s[2] == '{';
      TemplateAtZero(s);
      assert s[1..][2..] == s[3..];
      CloseStep(s[2..]);
    }
    FillHead(s[1..], done, value);
    TemplateAtZero(s);
    assert s[1..][1..] == s[2..];
  }

  // ----- one replacement -----

  /** Two holes of which one starts the other are the same. */
  lemma {:induction false} SameInside(a: string, b: string, rest: string)
    requires BraceFree(a) && BraceFree(b) && StartsWith(a + "}}" + rest, b + "}}")
    ensures a == b
  {
    var f, p := a + "}}" + rest, b + "}}";
    StartsTail(f, p);
    assert f[0] == if a == "" then '}' else a[0];
    assert p[0] == if b == "" then '}' else b[0];
    if a != "" && b != "" {
      assert f[1..] == a[1..] + "}}" + rest && p[1..] == b[1..] + "}}";
      SameInside(a[1..], b[1..], rest);
    }
  }

  lemma OtherHole(h: string, rest: string, hole: string)
    requires Hole(h) && Hole(hole) && h != hole
    ensures !StartsWith(h + rest, hole)
  {
    var a, b := h[2..|h| - 2], hole[2..|hole| - 2];
    assert h == "{{" + a + "}}" && hole == "{{" + b + "}}";
    if StartsWith(h + rest, hole) {
      StartsTail(h + rest, hole);
      StartsTail((h + rest)[1..], hole[1..]);
      assert (h + rest)[1..][1..] == a + "}}" + rest && hole[1..][1..] == b + "}}";
      SameInside(a, b, rest);
    }
  }

  lemma HoleShape(h: string)
    requires Hole(h)
    ensures h[0] == '{' && h[1] == '{' && Without(h[2..], '{')
  {
    assert h[..2][0] == '{' && h[..2][1] == '{';
    forall i | 2 <= i < |h|
      ensures h[i] != '{'
    {
      if i < |h| - 2 {
        assert h[i] == h[2..|h| - 2][i - 2];
      } else {
        assert h[i] == h[|h| - 2..][i - (|h| - 2)];
      }
    }
  }

  /** Nor does a hole start at the second brace of another. */
  lemma NotAtSecondBrace(s: string, hole: string)
    requires |s| >= 2 && s[1] != '{' && Hole(hole)
    ensures !StartsWith(s, hole)
  {
    HoleShape(hole);
    if |hole| <= |s| {
      assert s[..|hole|][1] == s[1];
    }
  }

  /** Replacing one hole leaves another hole as it is. */
  lemma OtherHoleStays(h: string, rest: string, hole: string, with: string)
    requires Hole(h) && Hole(hole) && h != hole
    ensures ReplaceAll(h + rest, hole, with) == h + ReplaceAll(rest, hole, with)
  {
    OtherHole(h, rest, hole);
    HoleShape(h);
    KeepHead(h + rest, hole, with);
    assert (h + rest)[1..] == h[1..] + rest;
    SecondBraceStays(h, rest, hole, with);
    HeadAndTail(h);
    Regroup(h[0], h[1..], ReplaceAll(rest, hole, with));
  }

  /** The same from the second brace of a hole on. */
  lemma SecondBraceStays(h: string, rest: string, hole: string, with: string)
    requires Hole(h) && Hole(hole)
    ensures ReplaceAll(h[1..] + rest, hole, with) == h[1..] + ReplaceAll(rest, hole, with)
  {
    var tail, s := h[2..], h[1..] + rest;
    HoleShape(h);
    assert s[1] == tail[0] && s[1..] == tail + rest;
    NotAtSecondBrace(s, hole);
    KeepHead(s, hole, with);
    PassOver(tail, rest, hole, with);
    assert h[1..] == [h[1]] + tail;
    Regroup(h[1], tail, ReplaceAll(rest, hole, with));
  }

  lemma KeepHead(s: string, hole: string, with: string)
    requires s != "" && hole != "" && !StartsWith(s, hole)
    ensures ReplaceAll(s, hole, with) == [s[0]] + ReplaceAll(s[1..], hole, with)
  {
  }

  lemma HeadAndTail(h: string)
    requires h != ""
    ensures h == [h[0]] + h[1..]
  {
  }

  lemma Regroup(head: char, a: string, b: string)
    ensures [head] + (a + b) == ([head] + a) + b
  {
  }

  lemma HoleReplaced(rest: string, hole: string, with: string)
    requires Hole(hole)
    ensures ReplaceAll(hole + rest, hole, with) == with + ReplaceAll(rest, hole, with)
  {
    assert (hole + rest)[..|hole|] == hole && (hole + rest)[|hole|..] == rest;
  }

  lemma TemplatesTail(s: string)
    requires s != "" && AllHoles(s)
    ensures var rest := if Template(s).Some? then s[Template(s).value..] else s[1..];
            AllHoles(rest) && forall t :: t in Templates(rest) ==> t in Templates(s)
    ensures Template(s).Some? ==> s[..Template(s).value] in Templates(s) && Hole(s[..Template(s).value])
  {
    if Template(s).Some? {
      assert Templates(s) == [s[..Template(s).value]] + Templates(s[Template(s).value..]);
      assert s[..Template(s).value] in Templates(s);
    }
  }

  /** Replacing a hole throughout a partly filled text fills exactly the
      templates that read like it. */
  lemma {:induction false} ReplaceFills(s: string, done: set<string>, value: string -> string, hole: string)
    requires AllHoles(s) && SafeValues(s, value) && Hole(hole)
    ensures ReplaceAll(Fill(s, done, value), hole, value(hole)) == Fill(s, done + {hole}, value)
  {
    if s != "" {
      TemplatesTail(s);
      match Template(s)
      case Some(k) =>
        var h, rest := s[..k], s[k..];
        ReplaceFills(rest, done, value, hole);
        FilledStep(h, Fill(rest, done, value), done, value, hole);
      case None =>
        ReplaceFills(s[1..], done, value, hole);
        NoHoleHere(s, done, value, hole);
        FillHead(s, done, value);
        FillHead(s, done + {hole}, value);
    }
  }

  lemma FilledStep(h: string, rest: string, done: set<string>, value: string -> string, hole: string)
    requires Hole(h) && Hole(hole) && Without(value(h), '{')
    ensures ReplaceAll((if h in done then value(h) else h) + rest, hole, value(hole)) ==
            (if h in done + {hole} then value(h) else h) + ReplaceAll(rest, hole, value(hole))
  {
    if h in done {
      PassOver(value(h), rest, hole, value(hole));
    } else if h == hole {
      HoleReplaced(rest, hole, value(hole));
    } else {
      OtherHoleStays(h, rest, hole, value(hole));
    }
  }

  // ----- a whole text -----

  /** What a template stands for in a context. */
  function ValueText(c: Context, show: Json -> string, raw: string): string {
    match ParseReference(raw)
    case None => ""
    case Some(r) =>
      match ResolveReference(c, r)
      case None => ""
      case Some(v) => Stringify(v, show)
  }

  function ValueIn(c: Context, show: Json -> string): string -> string {
    raw => ValueText(c, show, raw)
  }

  lemma {:induction false} ParsedTemplatesAreHoles(s: string)
    requires forall t :: t in Templates(s) ==> ParseReference(t).Some?
    ensures AllHoles(s)
  {
    if s != "" {
      match Template(s)
      case Some(k) =>
        assert Templates(s) == [s[..k]] + Templates(s[k..]);
        assert s[..k] in Templates(s);
        TemplateIsHole(s);
        ParsedTemplatesAreHoles(s[k..]);
      case None =>
        ParsedTemplatesAreHoles(s[1..]);
    }
  }

  /** The references of an accepted text are its templates, in order. */
  lemma ReferencesAreTemplates(text: string)
    requires ParseReferences(text).Some?
    ensures AllHoles(text)
    ensures var refs, templates := ParseReferences(text).value, Templates(text);
            && |refs| == |templates|
            && forall i :: 0 <= i < |refs| ==> ParseReference(templates[i]) == Some(refs[i]) && refs[i].raw == templates[i]
  {
    if !Occurs("{{", text) {
      NoOpeningNoReferences(text);
      NoPairNoTemplate(text);
    } else {
      ParseAllEach(Templates(text));
      ParsedTemplatesAreHoles(text);
    }
  }

  function Raws(refs: seq<Reference>): set<string> {
    set i | 0 <= i < |refs| :: refs[i].raw
  }

  ghost predicate Genuine(text: string, refs: seq<Reference>) {
    forall i :: 0 <= i < |refs| ==> refs[i].raw in Templates(text) && ParseReference(refs[i].raw) == Some(refs[i])
  }

  ghost predicate Reads(value: string -> string, c: Context, show: Json -> string, refs: seq<Reference>) {
    forall i :: 0 <= i < |refs| ==> value(refs[i].raw) == ValueText(c, show, refs[i].raw)
  }

  lemma ReplaceLast(c: Context, show: Json -> string, text: string, refs: seq<Reference>)
    requires refs != [] && ReplaceEach(c, show, text, refs).Some?
    ensures var init, last := refs[..|refs| - 1], refs[|refs| - 1];
            && ReplaceEach(c, show, text, init).Some? && ResolveReference(c, last).Some?
            && ReplaceEach(c, show, text, refs).value ==
               ReplaceAll(ReplaceEach(c, show, text, init).value, last.raw, Stringify(ResolveReference(c, last).value, show))
  {
  }

  lemma ValueOfReference(c: Context, show: Json -> string, r: Reference)
    requires ParseReference(r.raw) == Some(r) && ResolveReference(c, r).Some?
    ensures ValueText(c, show, r.raw) == Stringify(ResolveReference(c, r).value, show)
  {
  }

  lemma RawsLast(refs: seq<Reference>)
    requires refs != []
    ensures Raws(refs) == Raws(refs[..|refs| - 1]) + {refs[|refs| - 1].raw}
  {
  }

  lemma {:induction false} EachFills(c: Context, show: Json -> string, text: string, refs: seq<Reference>, value: string -> string)
    requires AllHoles(text) && SafeValues(text, value) && Genuine(text, refs) && Reads(value, c, show, refs)
    requires ReplaceEach(c, show, text, refs).Some?
    ensures ReplaceEach(c, show, text, refs).value == Fill(text, Raws(refs), value)
  {
    if refs == [] {
      assert Raws(refs) == {};
      FillNone(text, value);
    } else {
      var init, last := refs[..|refs| - 1], refs[|refs| - 1];
      ReplaceLast(c, show, text, refs);
      ValueOfReference(c, show, last);
      RawsLast(refs);
      EachFills(c, show, text, init, value);
      ReplaceFills(text, Raws(init), value, last.raw);
    }
  }

  /** Interpolation means substitution: when no value holds an opening brace, replacing
      the references one after the other gives the text with every template
      filled at its own position. */
  lemma InterpolationSubstitutes(c: Context, show: Json -> string, text: string)
    requires ParseReferences(text).Some? && ReplaceEach(c, show, text, ParseReferences(text).value).Some?
    requires forall r :: r in ParseReferences(text).value ==> Without(ValueText(c, show, r.raw), '{')
    ensures ReplaceEach(c, show, text, ParseReferences(text).value).value ==
            Substitute(text, ValueIn(c, show))
  {
    var refs, templates := ParseReferences(text).value, Templates(text);
    var value := ValueIn(c, show);
    ReferencesAreTemplates(text);
    forall t | t in templates
      ensures t in Raws(refs) && Without(value(t), '{')
    {
      var i :| 0 <= i < |templates| && templates[i] == t;
      assert refs[i].raw == t && refs[i] in refs;
    }
    EachFills(c, show, text, refs, value);
    FillAll(text, Raws(refs), value);
  }

  // ----- values with braces -----

  lemma {:induction false} CloseBefore(inner: string, rest: string)
    requires BraceFree(inner) && OneLine(inner)
    ensures Close(inner + "}}" + rest) == Some(|inner|)
  {
    var s := inner + "}}" + rest;
    if inner == "" {
      assert s[..2] == "}}";
    } else {
      CloseBefore(inner[1..], rest);
      assert s[1..] == inner[1..] + "}}" + rest && s[0] == inner[0];
      assert s[..2][0] == s[0];
    }
  }

  lemma HoleIsTemplate(h: string, rest: string)
    requires Hole(h)
    ensures Template(h + rest) == Some(|h|)
  {
    var s, inner := h + rest, h[2..|h| - 2];
    HoleShape(h);
    assert s[2..] == inner + "}}" + rest;
    CloseBefore(inner, rest);
    TemplateAtZero(s);
  }

  lemma SubstituteHole(h: string, rest: string, value: string -> string)
    requires Hole(h)
    ensures Substitute(h + rest, value) == value(h) + Substitute(rest, value)
  {
    HoleIsTemplate(h, rest);
    assert (h + rest)[..|h|] == h && (h + rest)[|h|..] == rest;
  }

  // ----- a text of two references -----

  lemma {:induction false} InsideCounts(inner: string, rest: string)
    requires BraceFree(inner)
    ensures CountPairs(inner + "}}" + rest, '{') == CountPairs(rest, '{')
    ensures CountPairs(inner + "}}" + rest, '}') == 1 + CountPairs(rest, '}')
  {
    var s := inner + "}}" + rest;
    if inner == "" {
      assert s[2..] == rest && s[1..][1..] == rest;
      assert s[0] == '}' && s[1] == '}';
    } else {
      InsideCounts(inner[1..], rest);
      assert s[1..] == inner[1..] + "}}" + rest && s[0] == inner[0];
    }
  }

  lemma HoleCounts(h: string, rest: string)
    requires Hole(h)
    ensures CountPairs(h + rest, '{') == 1 + CountPairs(rest, '{')
    ensures CountPairs(h + rest, '}') == 1 + CountPairs(rest, '}')
  {
    var s, inner := h + rest, h[2..|h| - 2];
    HoleShape(h);
    assert s[2..] == inner + "}}" + rest && s[1..][1..] == s[2..];
    assert s[0] == '{' && s[1] == '{';
    InsideCounts(inner, rest);
  }

  /** A text made of references only, each on one line. */
  function Glue(rs: seq<Reference>): string {
    if rs == [] then "" else rs[0].raw + Glue(rs[1..])
  }

  /** The reference, if its own text parses to it and is on one line. */
  ghost function Proper(r: Reference): Option<Reference> {
    if ParseReference(r.raw) == Some(r) && Hole(r.raw) then Some(r) else None
  }

  ghost predicate Written(r: Reference) {
    Proper(r).Some?
  }

  ghost predicate AllGenuine(rs: seq<Reference>) {
    forall i :: 0 <= i < |rs| ==> Written(rs[i])
  }

  function RawsOf(rs: seq<Reference>): seq<string> {
    seq(|rs|, i requires 0 <= i < |rs| => rs[i].raw)
  }

  lemma {:induction false} GlueTemplates(rs: seq<Reference>)
    requires AllGenuine(rs)
    ensures Templates(Glue(rs)) == RawsOf(rs)
    decreases |rs|
  {
    if rs != [] {
      GlueTemplates(rs[1..]);
      GluedTemplates(rs[0].raw, Glue(rs[1..]));
      RawsCons(rs);
    }
  }

  lemma RawsCons(rs: seq<Reference>)
    requires rs != []
    ensures RawsOf(rs) == [rs[0].raw] + RawsOf(rs[1..])
  {
  }

  lemma {:induction false} GlueCounts(rs: seq<Reference>)
    requires AllGenuine(rs)
    ensures CountPairs(Glue(rs), '{') == |rs| && CountPairs(Glue(rs), '}') == |rs|
    decreases |rs|
  {
    if rs != [] {
      GlueCounts(rs[1..]);
      HoleCounts(rs[0].raw, Glue(rs[1..]));
    }
  }

  lemma GluedTemplates(h: string, rest: string)
    requires Hole(h)
    ensures Templates(h + rest) == [h] + Templates(rest)
  {
    HoleIsTemplate(h, rest);
    assert (h + rest)[..|h|] == h && (h + rest)[|h|..] == rest;
  }

  lemma RawsSnoc(rs: seq<Reference>)
    requires rs != []
    ensures RawsOf(rs)[..|rs| - 1] == RawsOf(rs[..|rs| - 1]) && RawsOf(rs)[|rs| - 1] == rs[|rs| - 1].raw
    ensures rs[..|rs| - 1] + [rs[|rs| - 1]] == rs
  {
  }

  lemma ParseLast(raws: seq<string>, refs: seq<Reference>, last: Reference)
    requires raws != [] && ParseAll(raws[..|raws| - 1]) == Some(refs) && ParseReference(raws[|raws| - 1]) == Some(last)
    ensures ParseAll(raws) == Some(refs + [last])
  {
  }

  lemma {:induction false} ParseRaws(rs: seq<Reference>)
    requires AllGenuine(rs)
    ensures ParseAll(RawsOf(rs)) == Some(rs)
  {
    if rs != [] {
      var init, last := rs[..|rs| - 1], rs[|rs| - 1];
      assert Written(last);
      ParseRaws(init);
      RawsSnoc(rs);
      ParseLast(RawsOf(rs), init, last);
    }
  }

  lemma ScannedText(text: string, refs: seq<Reference>)
    requires Occurs("{{", text) && Templates(text) != [] && ParseAll(Templates(text)) == Some(refs)
    requires CountPairs(text, '{') == CountPairs(text, '}')
    ensures ParseReferences(text) == Some(refs)
  {
  }

  lemma HoleOpens(h: string, rest: string)
    requires Hole(h)
    ensures Occurs("{{", h + rest)
  {
    var s := h + rest;
    HoleShape(h);
    assert s[0] == "{{"[0] && s[1] == "{{"[1];
  }

  lemma TwoIsNotOne(a: string, rest: string)
    requires Hole(a) && |rest| >= 2
    ensures ParseReference(a + rest).None?
  {
    var text := a + rest;
    assert a[|a| - 2..][1] == '}';
    assert text[2..|text| - 2][|a| - 3] == '}';
    if ParseReference(text).Some? {
      ReferenceIsBraceFree(text);
    }
  }

  /** The text parses as these references and, if there are several, not as one. */
  lemma GlueScanned(rs: seq<Reference>)
    requires |rs| >= 2 && AllGenuine(rs)
    ensures ParseReferences(Glue(rs)) == Some(rs)
    ensures ParseReference(Glue(rs)).None? && Occurs("{{", Glue(rs))
  {
    var rest := Glue(rs[1..]);
    assert Written(rs[0]) && Written(rs[1]);
    HoleOpens(rs[0].raw, rest);
    assert rest == rs[1].raw + Glue(rs[1..][1..]);
    TwoIsNotOne(rs[0].raw, rest);
    GlueTemplates(rs);
    GlueCounts(rs);
    ParseRaws(rs);
    assert |Templates(Glue(rs))| == |rs|;
    ScannedText(Glue(rs), rs);
  }

  lemma LeakyReplacements(c: Context, show: Json -> string, a: Reference, b: Reference, x: string)
    requires Hole(a.raw) && Hole(b.raw) && a.raw != b.raw
    requires ResolveReference(c, a) == Some(Str(b.raw)) && ResolveReference(c, b) == Some(Str(x))
    ensures ReplaceEach(c, show, a.raw + b.raw, [a, b]) == Some(x + x)
  {
    var text := a.raw + b.raw;
    assert [a, b][..1] == [a] && [a][..0] == [];
    assert ReplaceEach(c, show, text, []) == Some(text);
    assert ReplaceEach(c, show, text, [a]) == Some(ReplaceAll(text, a.raw, b.raw));
    HoleReplaced(b.raw, a.raw, b.raw);
    OtherHoleStays(b.raw, "", a.raw, b.raw);
    assert b.raw + "" == b.raw;
    HoleReplaced(b.raw, b.raw, x);
    HoleReplaced("", b.raw, x);
    assert x + "" == x;
  }

  lemma InterpolatedText(c: Context, show: Json -> string, text: string, refs: seq<Reference>, s: string)
    requires Occurs("{{", text) && ParseReference(text).None? && ParseReferences(text) == Some(refs)
    requires ReplaceEach(c, show, text, refs) == Some(s)
    ensures ResolveString(c, show, text) == Some(Str(s))
  {
  }

  lemma SubstituteTwo(a: string, b: string, value: string -> string)
    requires Hole(a) && Hole(b)
    ensures Substitute(a + b, value) == value(a) + value(b)
  {
    SubstituteHole(a, b, value);
    SubstituteHole(b, "", value);
    assert b + "" == b && value(b) + "" == value(b);
  }

  lemma GlueTwo(a: Reference, b: Reference)
    ensures Glue([a, b]) == a.raw + b.raw
  {
    assert [a, b][1..] == [b] && [b][1..] == [];
    assert Glue([b]) == b.raw + Glue([]) && b.raw + "" == b.raw;
  }

  lemma LeakResolves(c: Context, show: Json -> string, a: Reference, b: Reference, x: string)
    requires Written(a) && Written(b) && a.raw != b.raw
    requires ResolveReference(c, a) == Some(Str(b.raw)) && ResolveReference(c, b) == Some(Str(x))
    ensures ResolveString(c, show, a.raw + b.raw) == Some(Str(x + x))
  {
    GlueScanned([a, b]);
    GlueTwo(a, b);
    LeakyReplacements(c, show, a, b, x);
    InterpolatedText(c, show, a.raw + b.raw, [a, b], x + x);
  }

  lemma LeakSubstituted(c: Context, show: Json -> string, a: Reference, b: Reference, x: string)
    requires Written(a) && Written(b)
    requires ResolveReference(c, a) == Some(Str(b.raw)) && ResolveReference(c, b) == Some(Str(x))
    ensures Substitute(a.raw + b.raw, ValueIn(c, show)) == b.raw + x
  {
    SubstituteTwo(a.raw, b.raw, ValueIn(c, show));
    ValueOfReference(c, show, a);
    ValueOfReference(c, show, b);
  }

  /** The condition on the values is needed: where the value of one reference
      is the text of the next, the resolver rewrites that value too, which no
      simultaneous substitution does. */
  lemma BracesLeak(c: Context, show: Json -> string, a: Reference, b: Reference, x: string)
    requires Written(a) && Written(b) && a.raw != b.raw
    requires ResolveReference(c, a) == Some(Str(b.raw)) && ResolveReference(c, b) == Some(Str(x))
    ensures ResolveString(c, show, a.raw + b.raw) == Some(Str(x + x))
    ensures Substitute(a.raw + b.raw, ValueIn(c, show)) == b.raw + x
  {
    LeakResolves(c, show, a, b, x);
    LeakSubstituted(c, show, a, b, x);
  }

  /** `{{workflow.input.<name>}}`. */
  function InputReference(name: string): Reference {
    Reference("{{workflow.input." + name + "}}", WorkflowInput, [name])
  }

  lemma IdentifierCharacters(name: string)
    requires Identifier(name)
    ensures Without(name, '.') && OneLine(name) && !Space(name[0]) && !Space(name[|name| - 1])
  {
  }

  lemma InputParts(name: string)
    requires Without(name, '.')
    ensures Split("workflow.input." + name) == ["workflow", "input", name]
  {
    assert "workflow.input." + name == "workflow" + "." + ("input" + "." + name);
    SplitDot("workflow", "input" + "." + name);
    SplitDot("input", name);
    SplitWord(name);
  }

  lemma OneLineConcat(a: string, b: string)
    requires OneLine(a) && OneLine(b)
    ensures OneLine(a + b)
  {
  }

  lemma InputReferenceParses(name: string)
    requires Identifier(name)
    ensures ParseReference(InputReference(name).raw) == Some(InputReference(name))
  {
    var raw, body, parts := InputReference(name).raw, "workflow.input." + name, ["workflow", "input", name];
    IdentifierCharacters(name);
    InputParts(name);
    assert raw == "{{" + body + "}}" && body[|body| - 1] == name[|name| - 1];
    assert Identifier("workflow") && Identifier("input");
    TightReference(raw, body, parts);
    assert parts[2..] == [name];
  }

  lemma InputReferenceIsHole(name: string)
    requires Identifier(name)
    ensures Hole(InputReference(name).raw)
  {
    IdentifierCharacters(name);
    InputReferenceParses(name);
    OneLineConcat("{{workflow.input.", name);
    OneLineConcat("{{workflow.input." + name, "}}");
    ReferenceIsHole(InputReference(name).raw);
  }

  /** The run input `{a: "{{workflow.input.b}}", b: "x"}` turns the text
      `{{workflow.input.a}}{{workflow.input.b}}` into `xx`, where filling the
      two templates at their positions gives `{{workflow.input.b}}x`. */
  lemma LeakExample(c: Context, show: Json -> string)
    requires c.input == Obj(map["a" := Str(InputReference("b").raw), "b" := Str("x")])
    ensures var text := InputReference("a").raw + InputReference("b").raw;
            && ResolveString(c, show, text) == Some(Str("x" + "x"))
            && Substitute(text, ValueIn(c, show)) == InputReference("b").raw + "x"
  {
    var a, b := InputReference("a"), InputReference("b");
    InputReferenceParses("a");
    InputReferenceParses("b");
    InputReferenceIsHole("a");
    InputReferenceIsHole("b");
    assert a.raw[17] == 'a' && b.raw[17] == 'b';
    assert ["a"][1..] == [] && ["b"][1..] == [];
    BracesLeak(c, show, a, b, "x");
  }
}
