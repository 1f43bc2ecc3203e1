/** Exactly which texts the scanner accepts, and with which references. */
module ScannerGrammar {
  import opened Basics
  import opened ContextReferences
  import opened TemplateSubstitution
  import opened ReferenceGrammar

  /** A template starts here: it closes again on the same line. */
  ghost predicate Opens(s: string) {
    |s| >= 2 && s[0] == '{' && s[1] == '{' && exists k :: ClosesAt(s[2..], k)
  }

  predicate ClosesAt(s: string, k: int) {
    0 <= k <= |s| - 2 && s[k] == '}' && s[k + 1] == '}' && OneLine(s[..k])
  }

  /** No template starts among the first `n` characters. */
  ghost predicate Inert(s: string, n: nat)
    requires n <= |s|
  {
    forall j :: 0 <= j < n ==> !Opens(s[j..])
  }

  /** The text of the reference is one, and on one line. */
  ghost predicate Genuine(r: Reference) {
    Denotes(r.raw, r.scope, r.path) && OneLine(r.raw)
  }

  /** The text is these parts with these references between them, and no other
      template. */
  ghost predicate Pieces(s: string, parts: seq<string>, refs: seq<Reference>)
    decreases |refs|
  {
    && |parts| == |refs| + 1
    && parts[0] <= s && Inert(s, |parts[0]|)
    && if refs == [] then s == parts[0]
       else
         var rest := s[|parts[0]|..];
         refs[0].raw <= rest && Genuine(refs[0]) && Pieces(rest[|refs[0].raw|..], parts[1..], refs[1..])
  }

  /** Doubled characters in the parts. */
  function Pairs(parts: seq<string>, c: char): nat {
    if parts == [] then 0 else CountPairs(parts[0], c) + Pairs(parts[1..], c)
  }

  // ----- where templates start -----

  lemma {:induction false} ClosedSomewhere(s: string, k: int)
    requires ClosesAt(s, k)
    ensures Close(s).Some?
  {
    if s[..2] != "}}" {
      assert k > 0 && s[..k][0] == s[0];
      assert s[..k][1..] == s[1..][..k - 1];
      ClosedSomewhere(s[1..], k - 1);
    }
  }

  lemma OpensIsTemplate(s: string)
    ensures Template(s).Some? <==> Opens(s)
  {
    if |s| >= 2 && s[0] == '{' && s[1] == '{' {
      assert s[..2] == "{{";
      if Close(s[2..]).Some? {
        CloseLine(s[2..]);
        var k := Close(s[2..]).value;
        assert s[2..][k..k + 2][0] == s[2..][k] && s[2..][k..k + 2][1] == s[2..][k + 1];
        assert ClosesAt(s[2..], k);
      }
      if k :| ClosesAt(s[2..], k) {
        ClosedSomewhere(s[2..], k);
      }
    } else if |s| >= 2 {
      assert s[..2][0] == s[0] && s[..2][1] == s[1];
    }
  }

  lemma {:induction false} PassInert(s: string, n: nat)
    requires n <= |s| && Inert(s, n)
    ensures Templates(s) == Templates(s[n..])
    decreases n
  {
    if n > 0 {
      OpensIsTemplate(s);
      assert s[0..] == s && !Opens(s[0..]);
      forall j | 0 <= j < n - 1
        ensures !Opens(s[1..][j..])
      {
        assert s[1..][j..] == s[j + 1..];
      }
      PassInert(s[1..], n - 1);
      assert s[1..][n - 1..] == s[n..];
    } else {
      assert s[0..] == s;
    }
  }

  // ----- counting pairs -----

  lemma {:induction false} CountsJoin(a: string, b: string, c: char)
    requires a == "" || b == "" || a[|a| - 1] != c || b[0] != c
    ensures CountPairs(a + b, c) == CountPairs(a, c) + CountPairs(b, c)
    decreases |a|
  {
    if a == "" {
      assert a + b == b;
    } else if b == "" {
      assert a + b == a;
    } else if |a| == 1 {
      assert (a + b)[1..] == b;
    } else if a[0] == c && a[1] == c {
      assert (a + b)[2..] == a[2..] + b;
      CountsJoin(a[2..], b, c);
    } else {
      assert (a + b)[1..] == a[1..] + b;
      CountsJoin(a[1..], b, c);
    }
  }

  lemma {:induction false} CountsOccur(s: string, c: char)
    ensures CountPairs(s, c) == 0 <==> !Occurs([c, c], s)
    decreases |s|
  {
    if |s| >= 2 {
      if s[0] == c && s[1] == c {
        assert Occurs([c, c], s);
      } else {
        CountsOccur(s[1..], c);
        assert Occurs([c, c], s) <==> Occurs([c, c], s[1..]) by {
          if i :| 0 <= i <= |s| - 2 && s[i] == c && s[i + 1] == c {
            assert s[1..][i - 1] == c && s[1..][i - 1 + 1] == c;
          }
        }
      }
    }
  }

  lemma GenuineHole(r: Reference)
    requires Genuine(r)
    ensures Hole(r.raw) && ParseReference(r.raw) == Some(r)
  {
    DenotedParses(r.raw, r.scope, r.path);
    ReferenceIsHole(r.raw);
  }

  /** A brace before a reference would open a template there. */
  lemma NoBraceBefore(p: string, h: string, rest: string)
    requires Hole(h) && Inert(p + h + rest, |p|)
    ensures p == "" || p[|p| - 1] != '{'
  {
    if p != "" && p[|p| - 1] == '{' {
      var j := |p| - 1;
      var s, inner := p + h + rest, h[2..|h| - 2];
      var t := s[j..];
      assert h[..2][0] == h[0] && h[..2][1] == h[1] && h[|h| - 2..][0] == h[|h| - 2] && h[|h| - 2..][1] == h[|h| - 1];
      assert t == "{" + h + rest;
      assert t[2..][..|h| - 3] == "{" + inner;
      assert ClosesAt(t[2..], |h| - 3);
      assert Opens(t);
    }
  }

  lemma PieceCounts(p: string, h: string, rest: string)
    requires Hole(h) && Inert(p + h + rest, |p|)
    ensures CountPairs(p + h + rest, '{') == CountPairs(p, '{') + 1 + CountPairs(rest, '{')
    ensures CountPairs(p + h + rest, '}') == CountPairs(p, '}') + 1 + CountPairs(rest, '}')
  {
    NoBraceBefore(p, h, rest);
    assert h[..2][0] == h[0];
    assert p + h + rest == p + (h + rest);
    CountsJoin(p, h + rest, '{');
    CountsJoin(p, h + rest, '}');
    HoleCounts(h, rest);
  }

  // ----- from pieces to the scanner and back -----

  lemma {:induction false} PiecesTemplates(s: string, parts: seq<string>, refs: seq<Reference>)
    requires Pieces(s, parts, refs)
    ensures |Templates(s)| == |refs| && forall i :: 0 <= i < |refs| ==> ParseReference(Templates(s)[i]) == Some(refs[i])
    decreases |refs|
  {
    PassInert(s, |parts[0]|);
    if refs != [] {
      var h := refs[0].raw;
      var rest := s[|parts[0]|..][|h|..];
      assert s[|parts[0]|..] == h + rest;
      GenuineHole(refs[0]);
      PiecesTemplates(rest, parts[1..], refs[1..]);
      GluedTemplates(h, rest);
    }
  }

  lemma {:induction false} PiecesCounts(s: string, parts: seq<string>, refs: seq<Reference>)
    requires Pieces(s, parts, refs)
    ensures CountPairs(s, '{') == Pairs(parts, '{') + |refs| && CountPairs(s, '}') == Pairs(parts, '}') + |refs|
    decreases |refs|
  {
    if refs == [] {
      assert parts[1..] == [];
    } else {
      var p, h := parts[0], refs[0].raw;
      var rest := s[|p|..][|h|..];
      assert s == p + h + rest;
      GenuineHole(refs[0]);
      PiecesCounts(rest, parts[1..], refs[1..]);
      PieceCounts(p, h, rest);
    }
  }

  /** The part before the first template. */
  lemma {:induction false} FirstTemplate(s: string) returns (n: nat)
    ensures n <= |s| && Inert(s, n)
    ensures n < |s| ==> Template(s[n..]).Some?
    decreases |s|
  {
    OpensIsTemplate(s);
    assert s[0..] == s;
    if s == "" || Template(s).Some? {
      n := 0;
    } else {
      var m := FirstTemplate(s[1..]);
      n := m + 1;
      assert s[1..][m..] == s[n..];
      forall j | 0 <= j < n
        ensures !Opens(s[j..])
      {
        if j > 0 {
          assert s[1..][j - 1..] == s[j..];
        }
      }
    }
  }

  lemma {:induction false} ScannedPieces(s: string, refs: seq<Reference>) returns (parts: seq<string>)
    requires |Templates(s)| == |refs| && forall i :: 0 <= i < |refs| ==> ParseReference(Templates(s)[i]) == Some(refs[i])
    ensures Pieces(s, parts, refs)
    decreases |refs|
  {
    var n := FirstTemplate(s);
    PassInert(s, n);
    var t := s[n..];
    if n == |s| {
      assert s[..n] == s;
      parts := [s];
    } else {
      var k := Template(t).value;
      var h, rest := t[..k], t[k..];
      assert Templates(t) == [h] + Templates(rest);
      assert forall i :: 0 <= i < |refs| - 1 ==> Templates(rest)[i] == Templates(s)[i + 1];
      assert Templates(s)[0] == h;
      TemplateIsHole(t);
      ParsedDenotes(h);
      HoleLine(h);
      var others := ScannedPieces(rest, refs[1..]);
      parts := [s[..n]] + others;
      assert parts[1..] == others && t[|h|..] == rest;
    }
  }

  lemma HoleLine(h: string)
    requires Hole(h)
    ensures OneLine(h)
  {
    forall i | 0 <= i < |h|
      ensures h[i] != '\n'
    {
      if i < 2 {
        assert h[i] == h[..2][i];
      } else if i < |h| - 2 {
        assert h[i] == h[2..|h| - 2][i - 2];
      } else {
        assert h[i] == h[|h| - 2..][i - (|h| - 2)];
      }
    }
  }

  /** The pieces of a text in which the scanner is content: without a reference no
      doubled brace at all, and otherwise as many opening as closing ones outside
      of the references. */
  ghost predicate Balanced(s: string, parts: seq<string>, refs: seq<Reference>) {
    if refs == [] then !Occurs("{{", s) && !Occurs("}}", s) else Pairs(parts, '{') == Pairs(parts, '}')
  }

  lemma AllParsed(s: string, refs: seq<Reference>)
    ensures ParseAll(Templates(s)) == Some(refs) <==>
            |Templates(s)| == |refs| && forall i :: 0 <= i < |refs| ==> ParseReference(Templates(s)[i]) == Some(refs[i])
  {
    ParseAllEach(Templates(s));
    if ParseAll(Templates(s)).Some? && |Templates(s)| == |refs| &&
       forall i :: 0 <= i < |refs| ==> ParseReference(Templates(s)[i]) == Some(refs[i]) {
      assert ParseAll(Templates(s)).value == refs;
    }
  }

  lemma AcceptedPieces(s: string, refs: seq<Reference>) returns (parts: seq<string>)
    requires ParseReferences(s) == Some(refs)
    ensures Pieces(s, parts, refs) && Balanced(s, parts, refs)
  {
    CountsOccur(s, '{');
    CountsOccur(s, '}');
    assert ['{', '{'] == "{{" && ['}', '}'] == "}}";
    if !Occurs("{{", s) && !Occurs("}}", s) {
      parts := [s];
      forall j | 0 <= j < |s|
        ensures !Opens(s[j..])
      {
      }
    } else {
      AllParsed(s, refs);
      parts := ScannedPieces(s, refs);
      PiecesCounts(s, parts, refs);
    }
  }

  lemma PiecesAccepted(s: string, parts: seq<string>, refs: seq<Reference>)
    requires Pieces(s, parts, refs) && Balanced(s, parts, refs)
    ensures ParseReferences(s) == Some(refs)
  {
    PiecesTemplates(s, parts, refs);
    PiecesCounts(s, parts, refs);
    AllParsed(s, refs);
  }

  /** The scanner accepts a text with these references exactly when the text is
      made of these references, in this order and each on one line, and of parts in
      which no template starts, and its doubled braces balance. */
  lemma ScannerExact(s: string, refs: seq<Reference>)
    ensures ParseReferences(s) == Some(refs) <==> exists parts :: Pieces(s, parts, refs) && Balanced(s, parts, refs)
  {
    if ParseReferences(s) == Some(refs) {
      var parts := AcceptedPieces(s, refs);
    }
    if parts :| Pieces(s, parts, refs) && Balanced(s, parts, refs) {
      PiecesAccepted(s, parts, refs);
    }
  }
}
