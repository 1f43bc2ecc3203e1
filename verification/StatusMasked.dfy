/** Why `StatusReferences` asks for values without opening braces: a value that
    brings in braces can hide the status, so that a text that reads it resolves
    to the same whatever it is. */
module StatusMasked {
  import opened Basics
  import opened StateMachines
  import opened ContextReferences
  import opened ContextResolver
  import opened TemplateSubstitution
  import opened ContextSafety
  import opened StatusReferences

  // ----- replacing in texts made of references -----

  lemma {:induction false} GlueUntouched(rs: seq<Reference>, hole: string, with: string)
    requires AllGenuine(rs) && Hole(hole) && forall i :: 0 <= i < |rs| ==> rs[i].raw != hole
    ensures ReplaceAll(Glue(rs), hole, with) == Glue(rs)
  {
    if rs != [] {
      assert Written(rs[0]);
      OtherHoleStays(rs[0].raw, Glue(rs[1..]), hole, with);
      GlueUntouched(rs[1..], hole, with);
    }
  }

  lemma GlueFirst(rs: seq<Reference>, with: string)
    requires rs != [] && AllGenuine(rs) && forall i :: 1 <= i < |rs| ==> rs[i].raw != rs[0].raw
    ensures ReplaceAll(Glue(rs), rs[0].raw, with) == with + Glue(rs[1..])
  {
    assert Written(rs[0]);
    HoleReplaced(Glue(rs[1..]), rs[0].raw, with);
    GlueUntouched(rs[1..], rs[0].raw, with);
  }

  /** An opening pair that starts no occurrence of the hole is passed over. */
  lemma PassOpen(p: string, rest: string, hole: string, with: string, k: nat)
    requires |p| >= 3 && p[0] == '{' && p[1] == '{' && Without(p[2..], '{') && Hole(hole)
    requires 2 <= k < |p| && k < |hole| && p[k] != hole[k]
    ensures ReplaceAll(p + rest, hole, with) == p + ReplaceAll(rest, hole, with)
  {
    var s, tail := p + rest, p[2..];
    if |hole| <= |s| {
      assert s[..|hole|][k] == s[k] == p[k];
    }
    var s1 := s[1..];
    assert tail[0] == p[2] && s1[1] == p[2] && s1[1..] == tail + rest;
    NotAtSecondBrace(s1, hole);
    PassOver(tail, rest, hole, with);
    assert p == [p[0]] + ([p[1]] + tail);
    assert ReplaceAll(s1, hole, with) == [p[1]] + (tail + ReplaceAll(rest, hole, with));
  }

  // ----- the text -----

  const OPEN := "{{workflow.input."

  lemma InputWritten(name: string)
    requires Identifier(name)
    ensures Written(InputReference(name)) && InputReference(name).raw == OPEN + name + "}}" && |OPEN| == 17
  {
    InputReferenceParses(name);
    InputReferenceIsHole(name);
  }

  lemma InputsDiffer(a: string, b: string)
    requires a != b
    ensures InputReference(a).raw != InputReference(b).raw
  {
    var ra, rb := InputReference(a).raw, InputReference(b).raw;
    assert ra[17..|ra| - 2] == a && rb[17..|rb| - 2] == b;
  }

  /** The last two steps: two references to the same value, after one of them. */
  lemma LastTwo(own: string, r: string, p: string)
    requires Hole(r) && Hole(p) && r != p && (own == r || own == p)
    ensures ReplaceAll(ReplaceAll(own + (r + p), r, "q"), p, "q") == "q" + ("q" + "q")
  {
    assert p + "" == p && "q" + "" == "q";
    HoleReplaced(p, r, "q");
    OtherHoleStays(p, "", r, "q");
    HoleReplaced("", p, "q");
    PassOver("q", p, p, "q");
    if own == r {
      HoleReplaced(r + p, r, "q");
      PassOver("q", "q" + p, p, "q");
    } else {
      OtherHoleStays(p, r + p, r, "q");
      HoleReplaced("q" + p, p, "q");
    }
  }

  /** Five references whose first brings in an opening pair, whose second is
      followed by a third that closes it, and whose last two have the texts this
      can give. */
  ghost predicate Setting(rs: seq<Reference>, open: string, w: string, k: nat) {
    && |rs| == 5 && AllGenuine(rs)
    && (forall i, j :: 0 <= i < j < 5 ==> rs[i].raw != rs[j].raw)
    && |open| >= 3 && open[0] == '{' && open[1] == '{' && Without(open[2..], '{') && Without(w, '{')
    && |rs[1].raw| > 2 && rs[1].raw[2] != open[2]
    && 2 <= k < |open + w| && k < |rs[2].raw| && rs[2].raw[k] != (open + w)[k]
    && (open + w + "}}" == rs[3].raw || open + w + "}}" == rs[4].raw)
  }

  lemma RestGenuine(rs: seq<Reference>, i: nat)
    requires AllGenuine(rs) && i < |rs|
    ensures AllGenuine(rs[i..]) && Written(rs[i]) && rs[i..][0] == rs[i]
  {
  }

  lemma RestDiffers(rs: seq<Reference>, i: nat)
    requires i < |rs| && forall a, b :: 0 <= a < b < |rs| ==> rs[a].raw != rs[b].raw
    ensures rs[i..][1..] == rs[i + 1..] && forall j :: 1 <= j < |rs[i..]| ==> rs[i..][j].raw != rs[i..][0].raw
  {
  }

  /** Replacing the next reference leaves what precedes it and the others. */
  lemma NextStep(p: string, rs: seq<Reference>, i: nat, with: string, k: nat)
    requires AllGenuine(rs) && i < |rs| && forall a, b :: 0 <= a < b < |rs| ==> rs[a].raw != rs[b].raw
    requires |p| >= 3 && p[0] == '{' && p[1] == '{' && Without(p[2..], '{')
    requires 2 <= k < |p| && k < |rs[i].raw| && p[k] != rs[i].raw[k]
    ensures ReplaceAll(p + Glue(rs[i..]), rs[i].raw, with) == p + with + Glue(rs[i + 1..])
  {
    RestGenuine(rs, i);
    RestDiffers(rs, i);
    PassOpen(p, Glue(rs[i..]), rs[i].raw, with, k);
    GlueFirst(rs[i..], with);
    assert p + (with + Glue(rs[i + 1..])) == p + with + Glue(rs[i + 1..]);
  }

  lemma FirstStep(rs: seq<Reference>, open: string, w: string, k: nat)
    requires Setting(rs, open, w, k)
    ensures ReplaceAll(Glue(rs), rs[0].raw, open) == open + Glue(rs[1..])
  {
    GlueFirst(rs, open);
  }

  lemma SecondStep(rs: seq<Reference>, open: string, w: string, k: nat)
    requires Setting(rs, open, w, k)
    ensures ReplaceAll(open + Glue(rs[1..]), rs[1].raw, w) == open + w + Glue(rs[2..])
  {
    NextStep(open, rs, 1, w, 2);
  }

  lemma ThirdStep(rs: seq<Reference>, open: string, w: string, k: nat)
    requires Setting(rs, open, w, k)
    ensures ReplaceAll(open + w + Glue(rs[2..]), rs[2].raw, "}}") == open + w + "}}" + Glue(rs[3..])
  {
    assert (open + w)[2..] == open[2..] + w;
    NextStep(open + w, rs, 2, "}}", k);
  }

  lemma LastSteps(rs: seq<Reference>, open: string, w: string, k: nat)
    requires Setting(rs, open, w, k)
    ensures ReplaceAll(ReplaceAll(open + w + "}}" + Glue(rs[3..]), rs[3].raw, "q"), rs[4].raw, "q") == "q" + ("q" + "q")
  {
    assert Written(rs[3]) && Written(rs[4]);
    assert rs[3..] == [rs[3], rs[4]];
    GlueTwo(rs[3], rs[4]);
    LastTwo(open + w + "}}", rs[3].raw, rs[4].raw);
  }

  lemma ReplaceNext(c: Context, show: Json -> string, text: string, rs: seq<Reference>, k: nat, was: string, v: string)
    requires k < |rs| && ReplaceEach(c, show, text, rs[..k]) == Some(was) && ResolveReference(c, rs[k]) == Some(Str(v))
    ensures ReplaceEach(c, show, text, rs[..k + 1]) == Some(ReplaceAll(was, rs[k].raw, v))
  {
    assert rs[..k + 1][..k] == rs[..k];
  }

  ghost predicate Values(c: Context, rs: seq<Reference>, open: string, w: string)
    requires |rs| == 5
  {
    && ResolveReference(c, rs[0]) == Some(Str(open)) && ResolveReference(c, rs[1]) == Some(Str(w))
    && ResolveReference(c, rs[2]) == Some(Str("}}"))
    && ResolveReference(c, rs[3]) == Some(Str("q")) && ResolveReference(c, rs[4]) == Some(Str("q"))
  }

  lemma AfterOne(c: Context, show: Json -> string, rs: seq<Reference>, open: string, w: string, k: nat)
    requires Setting(rs, open, w, k) && ResolveReference(c, rs[0]) == Some(Str(open))
    ensures ReplaceEach(c, show, Glue(rs), rs[..1]) == Some(open + Glue(rs[1..]))
  {
    assert rs[..0] == [];
    FirstStep(rs, open, w, k);
    ReplaceNext(c, show, Glue(rs), rs, 0, Glue(rs), open);
  }

  lemma AfterTwo(c: Context, show: Json -> string, rs: seq<Reference>, open: string, w: string, k: nat)
    requires Setting(rs, open, w, k) && ResolveReference(c, rs[1]) == Some(Str(w))
    requires ReplaceEach(c, show, Glue(rs), rs[..1]) == Some(open + Glue(rs[1..]))
    ensures ReplaceEach(c, show, Glue(rs), rs[..2]) == Some(open + w + Glue(rs[2..]))
  {
    SecondStep(rs, open, w, k);
    ReplaceNext(c, show, Glue(rs), rs, 1, open + Glue(rs[1..]), w);
  }

  lemma AfterThree(c: Context, show: Json -> string, rs: seq<Reference>, open: string, w: string, k: nat)
    requires Setting(rs, open, w, k) && ResolveReference(c, rs[2]) == Some(Str("}}"))
    requires ReplaceEach(c, show, Glue(rs), rs[..2]) == Some(open + w + Glue(rs[2..]))
    ensures ReplaceEach(c, show, Glue(rs), rs[..3]) == Some(open + w + "}}" + Glue(rs[3..]))
  {
    ThirdStep(rs, open, w, k);
    ReplaceNext(c, show, Glue(rs), rs, 2, open + w + Glue(rs[2..]), "}}");
  }

  lemma ReplaceLastTwo(c: Context, show: Json -> string, text: string, rs: seq<Reference>, third: string)
    requires |rs| == 5 && ReplaceEach(c, show, text, rs[..3]) == Some(third)
    requires ResolveReference(c, rs[3]) == Some(Str("q")) && ResolveReference(c, rs[4]) == Some(Str("q"))
    ensures ReplaceEach(c, show, text, rs) == Some(ReplaceAll(ReplaceAll(third, rs[3].raw, "q"), rs[4].raw, "q"))
  {
    ReplaceNext(c, show, text, rs, 3, third, "q");
    ReplaceNext(c, show, text, rs, 4, ReplaceAll(third, rs[3].raw, "q"), "q");
    assert rs[..5] == rs;
  }

  lemma AfterFive(c: Context, show: Json -> string, rs: seq<Reference>, open: string, w: string, k: nat)
    requires Setting(rs, open, w, k)
    requires ResolveReference(c, rs[3]) == Some(Str("q")) && ResolveReference(c, rs[4]) == Some(Str("q"))
    requires ReplaceEach(c, show, Glue(rs), rs[..3]) == Some(open + w + "}}" + Glue(rs[3..]))
    ensures ReplaceEach(c, show, Glue(rs), rs) == Some("q" + ("q" + "q"))
  {
    ReplaceLastTwo(c, show, Glue(rs), rs, open + w + "}}" + Glue(rs[3..]));
    LastSteps(rs, open, w, k);
  }

  lemma MaskedReplacements(c: Context, show: Json -> string, rs: seq<Reference>, open: string, w: string, k: nat)
    requires Setting(rs, open, w, k) && Values(c, rs, open, w)
    ensures ReplaceEach(c, show, Glue(rs), rs) == Some("q" + ("q" + "q"))
  {
    AfterOne(c, show, rs, open, w, k);
    AfterTwo(c, show, rs, open, w, k);
    AfterThree(c, show, rs, open, w, k);
    AfterFive(c, show, rs, open, w, k);
  }

  /** Such a text resolves to the same whatever `w` its second reference gave. */
  lemma MaskedText(c: Context, show: Json -> string, rs: seq<Reference>, open: string, w: string, k: nat)
    requires Setting(rs, open, w, k) && Values(c, rs, open, w)
    ensures ConsultsText(Glue(rs)) == Some(rs)
    ensures ResolveString(c, show, Glue(rs)) == Some(Str("q" + ("q" + "q")))
  {
    GlueScanned(rs);
    MaskedReplacements(c, show, rs, open, w, k);
    InterpolatedText(c, show, Glue(rs), rs, "q" + ("q" + "q"));
  }

  // ----- the example -----

  /** The references of the text, in order. */
  function Five(): seq<Reference> {
    [InputReference("x"), InfoReference("status"), InputReference("y"), InputReference("running"), InputReference("paused")]
  }

  /** The run input of the example. */
  function MaskingInput(): Json {
    Obj(map["x" := Str(OPEN), "y" := Str("}}"), "running" := Str("q"), "paused" := Str("q")])
  }

  lemma InputValue(c: Context, fields: map<string, Json>, name: string)
    requires c.input == Obj(fields) && name in fields
    ensures ResolveReference(c, InputReference(name)) == Some(fields[name])
  {
    assert [name][1..] == [];
    assert Navigate(fields[name], []) == Some(fields[name]);
  }

  lemma StatusReferenceValue(c: Context, status: RunStatus, facts: RunFacts)
    requires c.run == RunScope(status, facts)
    ensures ResolveReference(c, InfoReference("status")) == Some(Str(StatusText(status)))
  {
    RunReference(status, status, facts, ["status"]);
  }

  lemma FiveValues(c: Context, status: RunStatus, facts: RunFacts)
    requires c.input == MaskingInput() && c.run == RunScope(status, facts)
    ensures Values(c, Five(), OPEN, StatusText(status))
  {
    var fields := MaskingInput().fields;
    InputValue(c, fields, "x");
    InputValue(c, fields, "y");
    InputValue(c, fields, "running");
    InputValue(c, fields, "paused");
    StatusReferenceValue(c, status, facts);
  }

  lemma FiveGenuine(a: Reference, b: Reference, c: Reference, d: Reference, e: Reference)
    requires Written(a) && Written(b) && Written(c) && Written(d) && Written(e)
    ensures AllGenuine([a, b, c, d, e])
  {
  }

  lemma NamedGenuine(x: string, s: string, y: string, r: string, p: string)
    requires Identifier(x) && Identifier(s) && Identifier(y) && Identifier(r) && Identifier(p)
    ensures AllGenuine([InputReference(x), InfoReference(s), InputReference(y), InputReference(r), InputReference(p)])
  {
    InputWritten(x);
    InputWritten(y);
    InputWritten(r);
    InputWritten(p);
    InfoReferenceWritten(s);
    FiveGenuine(InputReference(x), InfoReference(s), InputReference(y), InputReference(r), InputReference(p));
  }

  lemma FiveWritten()
    ensures AllGenuine(Five())
  {
    NamedGenuine("x", "status", "y", "running", "paused");
  }

  lemma FiveDiffer()
    ensures var rs := Five();
            forall i, j :: 0 <= i < j < 5 ==> rs[i].raw != rs[j].raw
  {
    InputsDiffer("x", "y");
    InputsDiffer("x", "running");
    InputsDiffer("x", "paused");
    InputsDiffer("y", "running");
    InputsDiffer("y", "paused");
    InputsDiffer("running", "paused");
    assert InfoReference("status").raw[2] == 'r' && InputReference("x").raw[2] == 'w' && InputReference("y").raw[2] == 'w';
    assert InputReference("running").raw[2] == 'w' && InputReference("paused").raw[2] == 'w';
  }

  lemma OwnReference(status: RunStatus)
    requires status.RunRunning? || status.RunPaused?
    ensures var raw := OPEN + StatusText(status) + "}}";
            raw == Five()[3].raw || raw == Five()[4].raw
  {
  }

  lemma FiveCharacters(status: RunStatus)
    requires status.RunRunning? || status.RunPaused?
    ensures |OPEN| == 17 && OPEN[0] == '{' && OPEN[1] == '{' && Without(OPEN[2..], '{')
    ensures |Five()[1].raw| > 2 && Five()[1].raw[2] != OPEN[2]
    ensures 17 < |OPEN + StatusText(status)| && 17 < |Five()[2].raw| && Five()[2].raw[17] != (OPEN + StatusText(status))[17]
  {
    assert InfoReference("status").raw[2] == 'r' && InputReference("y").raw[17] == 'y';
    assert (OPEN + StatusText(status))[17] == StatusText(status)[0];
  }

  lemma FiveSetting(status: RunStatus)
    requires status.RunRunning? || status.RunPaused?
    ensures Setting(Five(), OPEN, StatusText(status), 17)
  {
    FiveWritten();
    FiveDiffer();
    StatusTexts(status, status);
    FiveCharacters(status);
    OwnReference(status);
  }

  /** On this run input the text reads the run status, and resolves to `qqq`
      whether the run is RUNNING or PAUSED. */
  lemma StatusIsMasked(c: Context, status: RunStatus, facts: RunFacts, show: Json -> string)
    requires status.RunRunning? || status.RunPaused?
    requires c.input == MaskingInput() && c.run == RunScope(status, facts)
    ensures ConsultsText(Glue(Five())) == Some(Five()) && ReadsStatus(Five()[1])
    ensures ResolveString(c, show, Glue(Five())) == Some(Str("q" + ("q" + "q")))
  {
    FiveSetting(status);
    FiveValues(c, status, facts);
    MaskedText(c, show, Five(), OPEN, StatusText(status), 17);
  }
}
