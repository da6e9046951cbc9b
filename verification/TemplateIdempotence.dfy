/** Feeding a generated file back as a template, with the same store, reproduces it. */
module TemplateIdempotence {
  import opened Options
  import opened Text
  import opened Template
  import opened TemplateProofs

  // --- lines of a text -------------------------------------------------------------------------

  function Unlines(lines: seq<string>): string {
    if lines == [] then "" else lines[0] + "\n" + Unlines(lines[1..])
  }

  predicate HasCRLF(text: string) { exists i :: 0 <= i < |text| - 1 && text[i] == '\r' && text[i + 1] == '\n' }

  predicate OneLine(s: string) { forall i :: 0 <= i < |s| ==> s[i] != '\n' }

  predicate Terminated(text: string) { text == "" || text[|text| - 1] == '\n' }

  lemma FirstLine(p: string, q: string)
    requires OneLine(p)
    ensures Lines(p + "\n" + q) == [DropCR(p)] + Lines(q)
  {
    var text := p + "\n" + q;
    assert text[|p|..][0] == '\n';
    var k := IndexOf(text, "\n");
    assert "\n" <= text[|p|..];
    if k.Some? {
      assert text[k.value..k.value + 1] == "\n";
      assert text[k.value] == '\n';
      assert k.value >= |p|;
    }
    assert text[..|p|] == p && text[|p| + 1..] == q;
  }

  /** Every text is one line, or a line and the rest. */
  lemma SplitFirst(text: string) returns (p: string, q: string)
    requires !OneLine(text)
    ensures OneLine(p) && text == p + "\n" + q
  {
    match IndexOf(text, "\n")
    case None =>
      forall i | 0 <= i < |text| ensures text[i] != '\n' {
        assert !("\n" <= text[i..]);
        assert text[i..][0] == text[i];
      }
      p, q := "", "";
    case Some(k) =>
      p, q := text[..k], text[k + 1..];
      assert text[k..k + 1] == "\n";
      forall i | 0 <= i < k ensures p[i] != '\n' {
        assert !("\n" <= text[i..]);
        assert text[i..][0] == p[i];
      }
  }

  lemma RegroupLines(p: string, q: string, rest: string)
    ensures (p + "\n" + q) + "\n" + rest == p + "\n" + (q + "\n" + rest)
    ensures (p + "\n" + q) + "\n" == p + "\n" + (q + "\n")
  {}

  lemma {:induction false} LinesAfterTerminator(x: string, rest: string)
    ensures Lines(x + "\n" + rest) == Lines(x + "\n") + Lines(rest)
    decreases |x|
  {
    if OneLine(x) {
      FirstLine(x, rest);
      FirstLine(x, "");
      assert x + "\n" + "" == x + "\n";
    } else {
      var p, q := SplitFirst(x);
      LinesAfterTerminator(q, rest);
      RegroupLines(p, q, rest);
      FirstLine(p, q + "\n" + rest);
      FirstLine(p, q + "\n");
      LineListRegroup(DropCR(p), Lines(q + "\n"), Lines(rest));
    }
  }

  lemma LineListRegroup(x: string, a: seq<string>, b: seq<string>)
    ensures [x] + (a + b) == [x] + a + b
  {}

  lemma CRLFInParts(p: string, q: string)
    requires OneLine(p)
    ensures HasCRLF(p + "\n" + q) <==> DropCR(p) != p || HasCRLF(q)
  {
    var text := p + "\n" + q;
    if DropCR(p) != p { assert text[|p| - 1] == '\r' && text[|p| - 1 + 1] == '\n'; }
    if HasCRLF(q) {
      var i :| 0 <= i < |q| - 1 && q[i] == '\r' && q[i + 1] == '\n';
      assert text[|p| + 1 + i] == '\r' && text[|p| + 1 + i + 1] == '\n';
    }
    if HasCRLF(text) {
      var i :| 0 <= i < |text| - 1 && text[i] == '\r' && text[i + 1] == '\n';
      assert forall k :: 0 <= k < |p| ==> text[k] != '\n';
      assert i + 1 >= |p|;
      if i + 1 > |p| {
        assert i > |p|;
        assert q[i - |p| - 1] == '\r' && q[i - |p| - 1 + 1] == '\n';
      }
    }
  }

  /** Rewriting a text line by line changes it exactly if it contains CR LF. */
  lemma {:induction false} UnlinesOfLines(text: string)
    requires Terminated(text)
    ensures |Unlines(Lines(text))| <= |text|
    ensures Unlines(Lines(text)) == text <==> !HasCRLF(text)
    decreases |text|
  {
    if text != "" {
      var p, q := SplitFirst(text);
      assert Terminated(q) by { assert q != "" ==> q[|q| - 1] == text[|text| - 1]; }
      UnlinesOfLines(q);
      FirstLine(p, q);
      CRLFInParts(p, q);
      var u := Unlines(Lines(q));
      assert Unlines(Lines(text)) == DropCR(p) + "\n" + u;
      if DropCR(p) == p {
        assert (p + "\n" + u)[|p| + 1..] == u && (p + "\n" + q)[|p| + 1..] == q;
      }
    }
  }

  // --- cutting a clean line at a line break ----------------------------------------------------

  lemma SubstringHasNoMatch(s: string, lo: nat, hi: nat)
    requires lo <= hi <= |s| && !HasMatch(s)
    ensures !HasMatch(s[lo..hi])
  {
    if HasMatch(s[lo..hi]) {
      var i, j :| OpenAt(s[lo..hi], i) && CloseAt(s[lo..hi], j) && i + 3 <= j;
      assert OpenAt(s, lo + i) && CloseAt(s, lo + j);
    }
  }

  predicate OneLineBodies(line: Line) { forall b :: b in Bodies(line) ==> OneLine(b) }

  ghost predicate Within(part: Line, whole: Line) { forall b :: b in Bodies(part) ==> b in Bodies(whole) }

  lemma {:induction false} CutAtBreak(line: Line, p: string, q: string) returns (left: Line, right: Line)
    requires Clean(line) && OneLineBodies(line) && OneLine(p)
    requires Flatten(line) == p + "\n" + q
    ensures Clean(left) && Flatten(left) == p && Within(left, line)
    ensures Clean(right) && Flatten(right) == q && Within(right, line)
    decreases line, 1
  {
    match line
    case Tail(t) =>
      SubstringHasNoMatch(t, 0, |p|);
      SubstringHasNoMatch(t, |p| + 1, |t|);
      assert t[0..|p|] == p && t[|p| + 1..|t|] == q;
      left, right := Tail(p), Tail(q);
    case Hole(l, b, r) =>
      if |p| < |l| {
        left, right := CutInLiteral(l, b, r, p, q);
      } else {
        left, right := CutBehindHole(l, b, r, p, q);
      }
  }

  lemma CutInLiteral(l: string, b: string, r: Line, p: string, q: string) returns (left: Line, right: Line)
    requires Clean(Hole(l, b, r)) && Flatten(Hole(l, b, r)) == p + "\n" + q && |p| < |l|
    ensures Clean(left) && Flatten(left) == p && Within(left, Hole(l, b, r))
    ensures Clean(right) && Flatten(right) == q && Within(right, Hole(l, b, r))
  {
    var whole := l + Placeholder(b) + Flatten(r);
    assert l == whole[..|l|] && p == whole[..|p|] == l[..|p|];
    forall i ensures !OpenAt(p, i) { assert OpenAt(p, i) ==> OpenAt(l, i); }
    var l' := l[|p| + 1..];
    forall i ensures !OpenAt(l', i) { assert OpenAt(l', i) ==> OpenAt(l, i + |p| + 1); }
    assert q == whole[|p| + 1..] == l' + Placeholder(b) + Flatten(r);
    left, right := Tail(p), Hole(l', b, r);
  }

  lemma CutBehindHole(l: string, b: string, r: Line, p: string, q: string) returns (left: Line, right: Line)
    requires Clean(Hole(l, b, r)) && OneLineBodies(Hole(l, b, r)) && OneLine(p)
    requires Flatten(Hole(l, b, r)) == p + "\n" + q && |p| >= |l|
    ensures Clean(left) && Flatten(left) == p && Within(left, Hole(l, b, r))
    ensures Clean(right) && Flatten(right) == q && Within(right, Hole(l, b, r))
    decreases Hole(l, b, r), 0
  {
    var head := l + Placeholder(b);
    var whole := head + Flatten(r);
    assert b in Bodies(Hole(l, b, r)) && whole[|p|] == '\n';
    assert forall i :: |l| <= i < |head| ==> whole[i] == Placeholder(b)[i - |l|];
    assert |p| >= |head|;
    var p' := p[|head|..];
    assert p == whole[..|p|] && head == whole[..|head|] && p == head + p';
    assert Flatten(r) == whole[|head|..] == p' + "\n" + q;
    assert forall c :: c in Bodies(r) ==> c in Bodies(Hole(l, b, r));
    var lr, rr := CutAtBreak(r, p', q);
    left, right := Hole(l, b, lr), rr;
  }

  lemma {:induction false} CutLast(line: Line) returns (cut: Line)
    requires Clean(line) && Flatten(line) != "" && Flatten(line)[|Flatten(line)| - 1] != '}'
    ensures Clean(cut) && Flatten(cut) == Flatten(line)[..|Flatten(line)| - 1] && Within(cut, line)
  {
    match line
    case Tail(t) =>
      SubstringHasNoMatch(t, 0, |t| - 1);
      cut := Tail(t[0..|t| - 1]);
    case Hole(l, b, r) =>
      var head := l + Placeholder(b);
      assert head[|head| - 1] == '}' && Flatten(line) == head + Flatten(r);
      var c := CutLast(r);
      cut := Hole(l, b, c);
      assert head + Flatten(r)[..|Flatten(r)| - 1] == (head + Flatten(r))[..|head + Flatten(r)| - 1];
  }

  lemma {:induction false} FindsBodies(line: Line)
    requires Clean(line)
    ensures FindAll(Flatten(line)) == Bodies(line)
  {
    match line
    case Tail(t) => FindsNothing(t);
    case Hole(l, b, r) =>
      FindsBodies(r);
      Regroup(l, Placeholder(b), Flatten(r));
      InertBefore(l, Placeholder(b) + Flatten(r));
      SkipText(l, Placeholder(b) + Flatten(r));
      FindsHole(b, Flatten(r));
  }

  /** The lines of a written line contain none but its own placeholders. */
  lemma {:induction false} PlaceholdersOfPieces(line: Line)
    requires Clean(line) && OneLineBodies(line)
    ensures forall x, b :: x in Lines(Flatten(line) + "\n") && b in FindAll(x) ==> b in Bodies(line)
    decreases |Flatten(line)|
  {
    var s := Flatten(line);
    if OneLine(s) {
      FirstLine(s, "");
      assert s + "\n" + "" == s + "\n";
      PlaceholdersWithoutCR(line);
    } else {
      var p, q := SplitFirst(s);
      var left, right := CutAtBreak(line, p, q);
      assert s + "\n" == p + "\n" + (q + "\n");
      FirstLine(p, q + "\n");
      PlaceholdersWithoutCR(left);
      PlaceholdersOfPieces(right);
    }
  }

  lemma PlaceholdersWithoutCR(line: Line)
    requires Clean(line)
    ensures forall b :: b in FindAll(DropCR(Flatten(line))) ==> b in Bodies(line)
  {
    if DropCR(Flatten(line)) == Flatten(line) {
      FindsBodies(line);
    } else {
      var cut := CutLast(line);
      FindsBodies(cut);
    }
  }

  // --- a file in which every placeholder is kept -----------------------------------------------

  ghost predicate AllKept(lines: seq<string>, act: Resolver) {
    forall x, b :: x in lines && b in FindAll(x) ==> Safe(b, act) && act(b).Keep?
  }

  lemma FirstMatch(s: string, n: nat)
    requires MatchLength(s) == Some(n)
    ensures s == Placeholder(s[2..n + 2]) + s[n + 4..]
    ensures s[2..n + 2] in FindAll(s) && forall b :: b in FindAll(s[n + 4..]) ==> b in FindAll(s)
  {
    MatchLengthSpec(s);
  }

  lemma {:induction false} KeptLineUnchanged(s: string, act: Resolver)
    requires forall b :: b in FindAll(s) ==> act(b).Keep?
    ensures OnePass(s, act) == s
  {
    if s != "" {
      match MatchLength(s)
      case Some(n) =>
        FirstMatch(s, n);
        KeptLineUnchanged(s[n + 4..], act);
      case None =>
        KeptLineUnchanged(s[1..], act);
        assert s == [s[0]] + s[1..];
    }
  }

  lemma {:induction false} KeptFileUnchanged(lines: seq<string>, act: Resolver)
    requires AllKept(lines, act)
    ensures FileOutput(lines, act) == Unlines(lines)
  {
    if lines != [] {
      assert lines[0] in lines && forall x :: x in lines[1..] ==> x in lines;
      KeptLineUnchanged(lines[0], act);
      KeptFileUnchanged(lines[1..], act);
    }
  }

  /** What one tidy line writes holds kept placeholders only. */
  lemma WrittenLineAllKept(line: string, act: Resolver)
    requires OneLine(line) && SafeBodies(FindAll(line), act)
    ensures AllKept(Lines(LineOutput(line, act)), act)
  {
    if !DropsLine(line, act) {
      ParseFlattens(line);
      ParseIsClean(line);
      ParseBodiesAreOneLine(line);
      OnePassIsResolved(Parse(line), act);
      ResolvedIsClean(Parse(line), act);
      var resolved := Resolved(Parse(line), act);
      PlaceholdersOfPieces(resolved);
      forall x, b | x in Lines(LineOutput(line, act)) && b in FindAll(x) ensures Safe(b, act) && act(b).Keep? {
        assert b in Bodies(resolved) && b in FindAll(line) && !Drops(b, act);
      }
    }
  }

  lemma {:induction false} ParseBodiesAreOneLine(s: string)
    requires OneLine(s)
    ensures forall b :: b in FindAll(s) ==> OneLine(b)
  {
    if s != "" {
      MatchLengthSpec(s);
      match MatchLength(s)
      case Some(n) => ParseBodiesAreOneLine(s[n + 4..]);
      case None => ParseBodiesAreOneLine(s[1..]);
    }
  }

  lemma BreakInside(text: string, k: nat)
    requires k < |text| && text[k..k + 1] == "\n"
    ensures !OneLine(text)
  {
    assert text[k..k + 1][0] == text[k];
  }

  lemma {:induction false} ScannedLinesAreOneLine(text: string)
    ensures forall l :: l in Lines(text) ==> OneLine(l)
    decreases |text|
  {
    if text == "" {
    } else if OneLine(text) {
      if IndexOf(text, "\n").Some? { BreakInside(text, IndexOf(text, "\n").value); }
    } else {
      var p, q := SplitFirst(text);
      FirstLine(p, q);
      ScannedLinesAreOneLine(q);
    }
  }

  lemma {:induction false} FileAllKept(lines: seq<string>, act: Resolver)
    requires forall l :: l in lines ==> OneLine(l) && SafeBodies(FindAll(l), act)
    ensures AllKept(Lines(FileOutput(lines, act)), act) && Terminated(FileOutput(lines, act))
  {
    if lines != [] {
      assert lines[0] in lines && forall l :: l in lines[1..] ==> l in lines;
      WrittenLineAllKept(lines[0], act);
      FileAllKept(lines[1..], act);
      AllKeptConcat(lines[0], FileOutput(lines[1..], act), act);
    }
  }

  lemma AllKeptTogether(a: seq<string>, b: seq<string>, act: Resolver)
    requires AllKept(a, act) && AllKept(b, act)
    ensures AllKept(a + b, act)
  {
    forall x | x in a + b ensures forall c :: c in FindAll(x) ==> Safe(c, act) && act(c).Keep? {
      assert x in a || x in b;
    }
  }

  lemma AllKeptConcat(line: string, rest: string, act: Resolver)
    requires AllKept(Lines(LineOutput(line, act)), act) && AllKept(Lines(rest), act) && Terminated(rest)
    ensures AllKept(Lines(LineOutput(line, act) + rest), act) && Terminated(LineOutput(line, act) + rest)
  {
    if DropsLine(line, act) {
      assert "" + rest == rest;
    } else {
      LinesAfterTerminator(OnePass(line, act), rest);
      AllKeptTogether(Lines(LineOutput(line, act)), Lines(rest), act);
    }
  }

  lemma RunKept(lines: seq<string>, act: Resolver)
    requires AllKept(lines, act)
    ensures !RunLines(lines, FileState("", NO_COUNTS, false), act).crashed
    ensures RunLines(lines, FileState("", NO_COUNTS, false), act).output == Unlines(lines)
  {
    LinesAreOnePass(lines, FileState("", NO_COUNTS, false), act);
    KeptFileUnchanged(lines, act);
  }

  /** Main result: a second generation rewrites the file line by line and nothing else, so it
      reproduces the file exactly unless the file contains CR LF. */
  lemma GenerateTwice(template: string, store: Store)
    requires TidyTemplate(template, store)
    ensures var once := Generate(template, store).output;
            var twice := Generate(once, store);
            && !twice.crashed
            && twice.output == Unlines(Lines(once))
            && (twice.output == once <==> !HasCRLF(once))
  {
    var act, once := ResolverOf(store), Generate(template, store).output;
    GenerateIsOnePass(template, store);
    ScannedLinesAreOneLine(template);
    forall l, b | l in Lines(template) && b in FindAll(l) ensures Safe(b, act) { TidyIsSafe(b, store); }
    FileAllKept(Lines(template), act);
    RunKept(Lines(once), act);
    UnlinesOfLines(once);
  }

  lemma FindsNoPlaceholder(s: string)
    requires BraceFree(s)
    ensures FindAll(s) == []
  {
    BraceFreeIsInert(s);
    FindsNothing(s);
  }

  lemma PlainLineIsKept(line: string, store: Store)
    requires BraceFree(line) && OneLine(line)
    ensures TidyTemplate(line + "\n", store) && Generate(line + "\n", store).output == DropCR(line) + "\n"
  {
    assert line + "\n" == line + "\n" + "";
    FirstLine(line, "");
    assert Lines(line + "\n") == [DropCR(line)];
    FindsNoPlaceholder(DropCR(line));
    RunKept([DropCR(line)], ResolverOf(store));
    assert [DropCR(line)][1..] == [];
    assert Unlines([DropCR(line)]) == DropCR(line) + "\n" + "";
  }

  /** It happens: of two carriage returns before a line feed the first generation drops one and the
      second the other, with no placeholder and whatever the store. */
  lemma CarriageReturnsAreLost(store: Store)
    ensures TidyTemplate("a\r\r\n", store)
    ensures Generate("a\r\r\n", store).output == "a\r\n" && HasCRLF("a\r\n")
    ensures Generate("a\r\n", store).output == "a\n" != "a\r\n"
  {
    var two, one := "a\r\r", "a\r";
    assert two + "\n" == "a\r\r\n" && one + "\n" == "a\r\n";
    assert DropCR(two) == one && DropCR(one) == "a";
    PlainLineIsKept(two, store);
    PlainLineIsKept(one, store);
    var text := "a\r\n";
    assert text[1] == '\r' && text[2] == '\n';
  }
}
