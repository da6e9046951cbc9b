/** Replacing one placeholder after the other in a mutable line is one simultaneous substitution,
    and generating from a generated file changes nothing. */
module TemplateProofs {
  import opened Options
  import opened Text
  import opened Template

  // --- a line taken apart: literal text and holes ----------------------------------------------

  datatype Line = Tail(text: string) | Hole(lit: string, body: string, rest: Line)

  function Flatten(line: Line): string {
    match line
    case Tail(t) => t
    case Hole(l, b, r) => l + Placeholder(b) + Flatten(r)
  }

  function Bodies(line: Line): seq<string> {
    match line
    case Tail(_) => []
    case Hole(_, b, r) => [b] + Bodies(r)
  }

  predicate OpenAt(s: string, i: int) { 0 <= i && i + 2 <= |s| && s[i] == '{' && s[i + 1] == '{' }

  predicate CloseAt(s: string, i: int) { 0 <= i && i + 2 <= |s| && s[i] == '}' && s[i + 1] == '}' }

  ghost predicate HasMatch(s: string) { exists i, j :: OpenAt(s, i) && CloseAt(s, j) && i + 3 <= j }

  /** No "{{" starts in `t`, even when a '{' follows it. */
  ghost predicate Inert(t: string) {
    (forall i :: !OpenAt(t, i)) && (t != "" ==> t[|t| - 1] != '{')
  }

  /** Literal text opens nothing and the holes are exactly the matches. */
  ghost predicate Clean(line: Line) {
    match line
    case Tail(t) => !HasMatch(t)
    case Hole(l, b, r) => Inert(l) && BraceFree(b) && b != "" && Clean(r)
  }

  // --- how the three scans pass literal text and holes -----------------------------------------

  lemma FoundThere(s: string, i: nat)
    requires CloseAt(s, i)
    ensures IndexOf(s, "}}").Some? && IndexOf(s, "}}").value <= i
  {
    assert s[i..][0] == '}' && s[i..][1] == '}';
    assert "}}" <= s[i..];
  }

  lemma FoundIsClose(s: string)
    ensures IndexOf(s, "}}").Some? ==> CloseAt(s, IndexOf(s, "}}").value)
  {
    match IndexOf(s, "}}")
    case None =>
    case Some(k) => assert s[k..k + 2][0] == s[k] && s[k..k + 2][1] == s[k + 1];
  }

  lemma MatchLengthSpec(s: string)
    ensures MatchLength(s).Some? ==> OpenAt(s, 0) && CloseAt(s, MatchLength(s).value + 2)
    ensures MatchLength(s).Some? ==> forall j :: 3 <= j < MatchLength(s).value + 2 ==> !CloseAt(s, j)
    ensures MatchLength(s).None? && OpenAt(s, 0) ==> forall j :: 3 <= j ==> !CloseAt(s, j)
  {
    if |s| >= 3 {
      var k := IndexOf(s[3..], "}}");
      if k.Some? {
        FoundIsClose(s[3..]);
        assert s[3..][k.value] == s[k.value + 3] && s[3..][k.value + 1] == s[k.value + 4];
      }
      forall j | 3 <= j && CloseAt(s, j) ensures k.Some? && k.value + 3 <= j {
        FoundThere(s[3..], j - 3);
      }
      if OpenAt(s, 0) { assert "{{" <= s; }
    }
  }

  /** Scanning skips characters at which no placeholder opens. */
  lemma {:induction false} SkipText(t: string, rest: string)
    requires forall i :: 0 <= i < |t| ==> !OpenAt(t + rest, i)
    ensures FindAll(t + rest) == FindAll(rest)
  {
    if t == "" {
      assert t + rest == rest;
    } else {
      SkipOne(t, rest);
      SkipText(t[1..], rest);
    }
  }

  lemma SkipOne(t: string, rest: string)
    requires t != "" && forall i :: 0 <= i < |t| ==> !OpenAt(t + rest, i)
    ensures MatchLength(t + rest).None? && (t + rest)[1..] == t[1..] + rest
    ensures forall i :: 0 <= i < |t[1..]| ==> !OpenAt(t[1..] + rest, i)
  {
    var s := t + rest;
    assert s[1..] == t[1..] + rest;
    forall i | 0 <= i < |t[1..]| ensures !OpenAt(t[1..] + rest, i) {
      assert !OpenAt(s, i + 1);
    }
    MatchLengthSpec(s);
  }

  lemma {:induction false} SkipOnePass(t: string, rest: string, act: Resolver)
    requires forall i :: 0 <= i < |t| ==> !OpenAt(t + rest, i)
    ensures OnePass(t + rest, act) == t + OnePass(rest, act)
  {
    if t == "" {
      assert t + rest == rest;
    } else {
      SkipOne(t, rest);
      SkipOnePass(t[1..], rest, act);
      OnePassCopies(t + rest, act);
      Regroup([t[0]], t[1..], OnePass(rest, act));
      assert t == [t[0]] + t[1..];
    }
  }

  lemma OnePassCopies(s: string, act: Resolver)
    requires s != "" && MatchLength(s).None?
    ensures OnePass(s, act) == [s[0]] + OnePass(s[1..], act)
  {}

  lemma {:induction false} SkipReplace(t: string, rest: string, from: string, to: string)
    requires from != ""
    requires forall i :: 0 <= i < |t| ==> !(from <= (t + rest)[i..])
    ensures ReplaceAll(t + rest, from, to) == t + ReplaceAll(rest, from, to)
  {
    if t == "" {
      assert t + rest == rest;
    } else {
      var s := t + rest;
      assert s[1..] == t[1..] + rest;
      forall i | 0 <= i < |t[1..]| ensures !(from <= (t[1..] + rest)[i..]) {
        assert s[1..][i..] == s[i + 1..];
      }
      assert s[0..] == s;
      SkipReplace(t[1..], rest, from, to);
    }
  }

  lemma AtHole(b: string, rest: string)
    requires BraceFree(b) && b != ""
    ensures MatchLength(Placeholder(b) + rest) == Some(|b|)
    ensures (Placeholder(b) + rest)[2..|b| + 2] == b && (Placeholder(b) + rest)[|b| + 4..] == rest
  {
    var s := Placeholder(b) + rest;
    assert s[..2] == "{{" && s[2..|b| + 2] == b && s[|b| + 2..|b| + 4] == "}}";
    assert CloseAt(s, |b| + 2);
    assert OpenAt(s, 0);
    forall j | 3 <= j < |b| + 2 ensures !CloseAt(s, j) {
      assert s[j] == b[j - 2];
    }
    MatchLengthSpec(s);
  }

  lemma FindsHole(b: string, rest: string)
    requires BraceFree(b) && b != ""
    ensures FindAll(Placeholder(b) + rest) == [b] + FindAll(rest)
  {
    AtHole(b, rest);
  }

  lemma InertBefore(t: string, rest: string)
    requires Inert(t)
    ensures forall i :: 0 <= i < |t| ==> !OpenAt(t + rest, i)
  {
    forall i | 0 <= i < |t| ensures !OpenAt(t + rest, i) {
      if i + 1 < |t| { assert !OpenAt(t, i); }
    }
  }

  /** A string without a match has no placeholder, and only such a string. */
  lemma {:induction false} FindsNothing(s: string)
    ensures FindAll(s) == [] <==> !HasMatch(s)
  {
    MatchLengthSpec(s);
    if s == "" {
    } else if MatchLength(s).Some? {
      assert OpenAt(s, 0) && CloseAt(s, MatchLength(s).value + 2);
    } else {
      FindsNothing(s[1..]);
      forall i, j | OpenAt(s, i) && CloseAt(s, j) && i + 3 <= j ensures HasMatch(s[1..]) {
        assert i > 0;
        assert OpenAt(s[1..], i - 1) && CloseAt(s[1..], j - 1);
      }
      if HasMatch(s[1..]) {
        var i, j :| OpenAt(s[1..], i) && CloseAt(s[1..], j) && i + 3 <= j;
        assert OpenAt(s, i + 1) && CloseAt(s, j + 1);
      }
    }
  }

  // --- every tidy line comes apart cleanly -----------------------------------------------------

  function PushChar(c: char, line: Line): Line {
    match line
    case Tail(t) => Tail([c] + t)
    case Hole(l, b, r) => Hole([c] + l, b, r)
  }

  function Parse(s: string): Line {
    if s == "" then Tail("")
    else
      match MatchLength(s)
      case Some(n) => Hole("", s[2..n + 2], Parse(s[n + 4..]))
      case None => PushChar(s[0], Parse(s[1..]))
  }

  lemma PushCharFlattens(c: char, line: Line)
    ensures Flatten(PushChar(c, line)) == [c] + Flatten(line) && Bodies(PushChar(c, line)) == Bodies(line)
  {
    match line
    case Tail(_) =>
    case Hole(l, b, r) => assert [c] + (l + Placeholder(b) + Flatten(r)) == ([c] + l) + Placeholder(b) + Flatten(r);
  }

  lemma MatchSplits(s: string, n: nat)
    requires MatchLength(s) == Some(n)
    ensures s == "" + Placeholder(s[2..n + 2]) + s[n + 4..]
  {
    MatchLengthSpec(s);
  }

  lemma {:induction false} ParseFlattens(s: string)
    ensures Flatten(Parse(s)) == s && Bodies(Parse(s)) == FindAll(s)
  {
    if s != "" {
      match MatchLength(s)
      case Some(n) =>
        ParseFlattens(s[n + 4..]);
        ParsedHole(s, n);
      case None =>
        ParseFlattens(s[1..]);
        PushCharFlattens(s[0], Parse(s[1..]));
        assert s == [s[0]] + s[1..];
    }
  }

  lemma ParsedHole(s: string, n: nat)
    requires MatchLength(s) == Some(n)
    requires Flatten(Parse(s[n + 4..])) == s[n + 4..] && Bodies(Parse(s[n + 4..])) == FindAll(s[n + 4..])
    ensures Flatten(Parse(s)) == s && Bodies(Parse(s)) == FindAll(s)
  {
    MatchSplits(s, n);
  }

  lemma {:induction false} ParseIsClean(s: string)
    requires forall b :: b in FindAll(s) ==> BraceFree(b)
    ensures Clean(Parse(s))
  {
    if s == "" {
    } else {
      MatchLengthSpec(s);
      match MatchLength(s)
      case Some(n) =>
        assert FindAll(s) == [s[2..n + 2]] + FindAll(s[n + 4..]);
        assert s[2..n + 2] in FindAll(s);
        assert forall b :: b in FindAll(s[n + 4..]) ==> b in FindAll(s);
        ParseIsClean(s[n + 4..]);
      case None =>
        ParseIsClean(s[1..]);
        ParseFlattens(s[1..]);
        match Parse(s[1..])
        case Tail(t) =>
          assert t == s[1..] && [s[0]] + t == s;
          assert FindAll(t) == [];
          FindsNothing(s);
        case Hole(l, b, r) =>
          PushedLiteralIsInert(s, l, b, Flatten(r));
    }
  }

  lemma PushedLiteralIsInert(s: string, l: string, b: string, rest: string)
    requires s != "" && MatchLength(s).None?
    requires s[1..] == l + Placeholder(b) + rest && Inert(l)
    ensures Inert([s[0]] + l)
  {
    MatchLengthSpec(s);
    var close := 1 + |l| + 2 + |b|;
    assert s[close] == s[1..][close - 1] == '}' && s[close + 1] == s[1..][close] == '}';
    assert CloseAt(s, close);
    assert !OpenAt(s, 0);
    var t := [s[0]] + l;
    forall i ensures !OpenAt(t, i) {
      assert i == 0 && |t| >= 2 ==> s[1] == s[1..][0] == l[0];
      assert OpenAt(t, i) && i > 0 ==> OpenAt(l, i - 1);
    }
    assert l == "" ==> s[1] == s[1..][0] == '{';
  }

  // --- substituting one body -----------------------------------------------------------------

  function Prepend(t: string, line: Line): Line {
    match line
    case Tail(x) => Tail(t + x)
    case Hole(l, b, r) => Hole(t + l, b, r)
  }

  function Fill(line: Line, body: string, value: string): Line {
    match line
    case Tail(_) => line
    case Hole(l, b, r) => if b == body then Prepend(l + value, Fill(r, body, value)) else Hole(l, b, Fill(r, body, value))
  }

  lemma InertConcat(a: string, b: string)
    requires Inert(a) && Inert(b)
    ensures Inert(a + b)
  {
    forall i ensures !OpenAt(a + b, i) {
      assert OpenAt(a + b, i) && i + 1 < |a| ==> OpenAt(a, i);
      assert OpenAt(a + b, i) && i >= |a| ==> OpenAt(b, i - |a|);
    }
  }

  lemma BraceFreeIsInert(v: string)
    requires BraceFree(v)
    ensures Inert(v)
  {}

  lemma CannotOpenIsInert(v: string)
    requires CannotOpen(v)
    ensures Inert(v)
  {}

  lemma PrependKeepsClean(t: string, line: Line)
    requires Inert(t) && Clean(line)
    ensures Clean(Prepend(t, line)) && Flatten(Prepend(t, line)) == t + Flatten(line)
    ensures Bodies(Prepend(t, line)) == Bodies(line)
  {
    match line
    case Tail(x) =>
      forall i, j | OpenAt(t + x, i) && CloseAt(t + x, j) && i + 3 <= j ensures false {
        InertBefore(t, x);
        assert OpenAt(x, i - |t|) && CloseAt(x, j - |t|);
      }
    case Hole(l, b, r) =>
      InertConcat(t, l);
      assert t + (l + Placeholder(b) + Flatten(r)) == (t + l) + Placeholder(b) + Flatten(r);
  }

  lemma {:induction false} FillKeepsClean(line: Line, body: string, value: string)
    requires Clean(line) && Inert(value)
    ensures Clean(Fill(line, body, value))
    ensures forall b :: b in Bodies(Fill(line, body, value)) <==> b in Bodies(line) && b != body
  {
    match line
    case Tail(_) =>
    case Hole(l, b, r) =>
      FillKeepsClean(r, body, value);
      InertConcat(l, value);
      if b == body { PrependKeepsClean(l + value, Fill(r, body, value)); }
  }

  /** Two brace-free placeholders start alike only if they are the same. */
  lemma SamePlaceholder(a: string, b: string, rest: string)
    requires BraceFree(a) && BraceFree(b) && Placeholder(a) <= Placeholder(b) + rest
    ensures a == b
  {
    var s := Placeholder(b) + rest;
    forall k | 2 <= k < |a| + 2 ensures s[k] == a[k - 2] && s[k] != '}' {
      assert Placeholder(a)[k] == a[k - 2];
    }
    forall k | 2 <= k < |b| + 2 ensures s[k] == b[k - 2] && s[k] != '}' {}
    assert s[|a| + 2] == Placeholder(a)[|a| + 2] == '}' && s[|b| + 2] == '}';
    assert |a| == |b|;
    forall i | 0 <= i < |a| ensures a[i] == b[i] {
      assert s[i + 2] == a[i];
    }
  }

  lemma PlaceholderOpens(body: string, s: string, i: nat)
    requires i <= |s| && Placeholder(body) <= s[i..]
    ensures OpenAt(s, i) && CloseAt(s, i + |body| + 2)
  {
    var p, u := Placeholder(body), s[i..];
    assert u[0] == p[0] && u[1] == p[1] && u[|body| + 2] == p[|body| + 2] && u[|body| + 3] == p[|body| + 3];
  }

  lemma OtherPlaceholderSkipped(c: string, rest: string, body: string)
    requires BraceFree(c) && c != "" && BraceFree(body) && c != body
    ensures forall i :: 0 <= i < |Placeholder(c)| ==> !(Placeholder(body) <= (Placeholder(c) + rest)[i..])
  {
    var s := Placeholder(c) + rest;
    assert s[0..] == s;
    forall i | 0 <= i < |Placeholder(c)| ensures !(Placeholder(body) <= s[i..]) {
      if i == 0 {
        if Placeholder(body) <= s { SamePlaceholder(body, c, rest); }
      } else {
        assert s[1] == '{' && s[2] == c[0];
        assert 2 <= i < |c| + 2 ==> s[i] == c[i - 2];
        assert i >= |c| + 2 ==> s[i] == '}';
        assert !OpenAt(s, i);
        if Placeholder(body) <= s[i..] { PlaceholderOpens(body, s, i); }
      }
    }
  }

  lemma ReplaceInTail(t: string, body: string, value: string)
    requires !HasMatch(t) && body != ""
    ensures ReplaceAll(t, Placeholder(body), value) == t
  {
    assert t + "" == t;
    forall i | 0 <= i < |t| ensures !(Placeholder(body) <= (t + "")[i..]) {
      if Placeholder(body) <= t[i..] { PlaceholderOpens(body, t, i); }
    }
    SkipReplace(t, "", Placeholder(body), value);
  }

  lemma ReplaceBeforeHole(l: string, rest: string, body: string, value: string)
    requires Inert(l)
    ensures ReplaceAll(l + rest, Placeholder(body), value) == l + ReplaceAll(rest, Placeholder(body), value)
  {
    InertBefore(l, rest);
    forall i | 0 <= i < |l| ensures !(Placeholder(body) <= (l + rest)[i..]) {
      if Placeholder(body) <= (l + rest)[i..] { PlaceholderOpens(body, l + rest, i); }
    }
    SkipReplace(l, rest, Placeholder(body), value);
  }

  lemma ReplaceAtHole(b: string, rest: string, body: string, value: string)
    requires BraceFree(b) && b != "" && BraceFree(body)
    ensures ReplaceAll(Placeholder(b) + rest, Placeholder(body), value)
         == (if b == body then value else Placeholder(b)) + ReplaceAll(rest, Placeholder(body), value)
  {
    if b == body {
      assert (Placeholder(b) + rest)[|Placeholder(b)|..] == rest;
    } else {
      OtherPlaceholderSkipped(b, rest, body);
      SkipReplace(Placeholder(b), rest, Placeholder(body), value);
    }
  }

  /** strings.Replace on a clean line fills exactly the holes with that body. */
  lemma {:induction false} ReplaceIsFill(line: Line, body: string, value: string)
    requires Clean(line) && BraceFree(body) && body != "" && Inert(value)
    ensures ReplaceAll(Flatten(line), Placeholder(body), value) == Flatten(Fill(line, body, value))
  {
    match line
    case Tail(t) => ReplaceInTail(t, body, value);
    case Hole(l, b, r) =>
      ReplaceIsFill(r, body, value);
      var filled := Flatten(Fill(r, body, value));
      Regroup(l, Placeholder(b), Flatten(r));
      ReplaceBeforeHole(l, Placeholder(b) + Flatten(r), body, value);
      ReplaceAtHole(b, Flatten(r), body, value);
      if b == body {
        FillKeepsClean(r, body, value);
        InertConcat(l, value);
        PrependKeepsClean(l + value, Fill(r, body, value));
        Regroup(l, value, filled);
      } else {
        Regroup(l, Placeholder(b), filled);
      }
  }

  // --- resolving every hole --------------------------------------------------------------------

  function Resolved(line: Line, act: Resolver): Line {
    match line
    case Tail(_) => line
    case Hole(l, b, r) =>
      match act(b)
      case Substitute(value, _) => Prepend(l + value, Resolved(r, act))
      case _ => Hole(l, b, Resolved(r, act))
  }

  /** A placeholder that neither crashes the program nor opens another in the line. */
  ghost predicate Safe(body: string, act: Resolver) {
    && body != "" && BraceFree(body)
    && !act(body).Crash?
    && (act(body).Substitute? ==> Inert(act(body).text))
  }

  ghost predicate SafeBodies(bodies: seq<string>, act: Resolver) {
    forall b :: b in bodies ==> Safe(b, act)
  }

  lemma {:induction false} FieldsAreBraceFree(s: string)
    requires BraceFree(s)
    ensures forall w :: w in Fields(s) ==> BraceFree(w)
  {
    if s == "" {
    } else if IsSpace(s[0]) {
      FieldsAreBraceFree(s[1..]);
    } else {
      FieldsAreBraceFree(s[WordLength(s)..]);
    }
  }

  lemma {:induction false} JoinIsBraceFree(words: seq<string>)
    requires forall w :: w in words ==> BraceFree(w)
    ensures BraceFree(Join(words))
  {
    if |words| == 0 {
    } else {
      assert words[0] in words;
      JoinIsBraceFree(words[1..]);
    }
  }

  lemma TidyIsSafe(body: string, store: Store)
    requires TidyBody(body, store)
    ensures Safe(body, ResolverOf(store))
  {
    var fields := Fields(body);
    FieldsAreBraceFree(body);
    CannotOpenIsInert(Get(store, fields[0]));
    BraceFreeIsInert("");
    if |fields| > 1 {
      JoinIsBraceFree(fields[2..]);
      BraceFreeIsInert(Join(fields[2..]));
    }
  }

  lemma {:induction false} ResolvedIsClean(line: Line, act: Resolver)
    requires Clean(line) && SafeBodies(Bodies(line), act)
    ensures Clean(Resolved(line, act))
    ensures forall b :: b in Bodies(Resolved(line, act)) <==> b in Bodies(line) && !act(b).Substitute?
  {
    match line
    case Tail(_) =>
    case Hole(l, b, r) =>
      assert b in Bodies(line);
      ResolvedIsClean(r, act);
      if act(b).Substitute? {
        InertConcat(l, act(b).text);
        PrependKeepsClean(l + act(b).text, Resolved(r, act));
      }
  }

  lemma OnePassAtHole(b: string, rest: string, act: Resolver)
    requires BraceFree(b) && b != ""
    ensures OnePass(Placeholder(b) + rest, act)
         == (if act(b).Substitute? then act(b).text else Placeholder(b)) + OnePass(rest, act)
  {
    AtHole(b, rest);
  }

  /** The one-pass substitution of the documentation, on a line taken apart. */
  lemma {:induction false} OnePassIsResolved(line: Line, act: Resolver)
    requires Clean(line) && SafeBodies(Bodies(line), act)
    ensures OnePass(Flatten(line), act) == Flatten(Resolved(line, act))
  {
    match line
    case Tail(t) =>
      FindsNothing(t);
      NothingToSubstitute(t, act);
    case Hole(l, b, r) =>
      assert b in Bodies(line) && forall c :: c in Bodies(r) ==> c in Bodies(line);
      OnePassIsResolved(r, act);
      var tail := Flatten(Resolved(r, act));
      Regroup(l, Placeholder(b), Flatten(r));
      InertBefore(l, Placeholder(b) + Flatten(r));
      SkipOnePass(l, Placeholder(b) + Flatten(r), act);
      OnePassAtHole(b, Flatten(r), act);
      ResolvedIsClean(r, act);
      if act(b).Substitute? {
        InertConcat(l, act(b).text);
        PrependKeepsClean(l + act(b).text, Resolved(r, act));
        Regroup(l, act(b).text, tail);
      } else {
        Regroup(l, Placeholder(b), tail);
      }
  }

  lemma {:induction false} NothingToSubstitute(s: string, act: Resolver)
    requires FindAll(s) == []
    ensures OnePass(s, act) == s
  {
    if s != "" && MatchLength(s).None? {
      NothingToSubstitute(s[1..], act);
      assert s == [s[0]] + s[1..];
    }
  }

  lemma PrependTwice(a: string, b: string, line: Line)
    ensures Prepend(a, Prepend(b, line)) == Prepend(a + b, line)
  {
    match line
    case Tail(x) => assert a + (b + x) == a + b + x;
    case Hole(l, _, _) => assert a + (b + l) == a + b + l;
  }

  lemma {:induction false} ResolvedPrepend(t: string, line: Line, act: Resolver)
    ensures Resolved(Prepend(t, line), act) == Prepend(t, Resolved(line, act))
  {
    match line
    case Tail(_) =>
    case Hole(l, b, r) =>
      match act(b)
      case Substitute(value, _) =>
        assert (t + l) + value == t + (l + value);
        PrependTwice(t, l + value, Resolved(r, act));
      case _ =>
  }

  /** Filling one hole early does not change the complete resolution. */
  lemma {:induction false} ResolvedAfterFill(line: Line, body: string, act: Resolver)
    requires act(body).Substitute?
    ensures Resolved(Fill(line, body, act(body).text), act) == Resolved(line, act)
  {
    var value := act(body).text;
    match line
    case Tail(_) =>
    case Hole(l, b, r) =>
      ResolvedAfterFill(r, body, act);
      if b == body { ResolvedPrepend(l + value, Fill(r, body, value), act); }
  }

  lemma {:induction false} NothingLeftToResolve(line: Line, act: Resolver)
    requires forall b :: b in Bodies(line) ==> !act(b).Substitute?
    ensures Resolved(line, act) == line
  {
    match line
    case Tail(_) =>
    case Hole(l, b, r) =>
      assert b in Bodies(line);
      assert forall c :: c in Bodies(r) ==> c in Bodies(line);
      NothingLeftToResolve(r, act);
  }

  // --- the sequential loop ---------------------------------------------------------------------

  predicate HasOutputSpecifier(bodies: seq<string>, act: Resolver) {
    exists b :: b in bodies && act(b).OutputSpecifier?
  }

  /** The loop over the remaining placeholders resolves everything still unresolved. */
  lemma {:induction false} LoopResolves(bodies: seq<string>, line: Line, st: LineState, act: Resolver)
    requires Clean(line) && SafeBodies(Bodies(line), act) && SafeBodies(bodies, act)
    requires st.text == Flatten(line)
    requires !HasOutputSpecifier(bodies, act)
    requires forall b :: b in Bodies(line) && act(b).Substitute? ==> b in bodies
    ensures RunPlaceholders(bodies, st, act).text == Flatten(Resolved(line, act))
  {
    if bodies == [] {
      NothingLeftToResolve(line, act);
    } else {
      var b := bodies[0];
      assert b in bodies && forall c :: c in bodies[1..] ==> c in bodies;
      assert forall c :: c in bodies ==> c == b || c in bodies[1..];
      var next := NextState(st, b, act(b));
      if act(b).Substitute? {
        ReplaceIsFill(line, b, act(b).text);
        FillKeepsClean(line, b, act(b).text);
        ResolvedAfterFill(line, b, act);
        LoopResolves(bodies[1..], Fill(line, b, act(b).text), next, act);
      } else {
        LoopResolves(bodies[1..], line, next, act);
      }
    }
  }

  /** The line is written unless one of its placeholders, wherever it stands, drops it. */
  lemma {:induction false} WrittenUnlessDropped(bodies: seq<string>, st: LineState, act: Resolver)
    requires !st.crashed && forall b :: b in bodies ==> !act(b).Crash?
    ensures !RunPlaceholders(bodies, st, act).crashed
    ensures RunPlaceholders(bodies, st, act).printLine
        <==> st.printLine && !exists b :: b in bodies && Drops(b, act)
  {
    if bodies != [] {
      var b := bodies[0];
      assert b in bodies && forall c :: c in bodies <==> c == b || c in bodies[1..];
      assert act(b).OutputSpecifier? || act(b).DropLine? ==> Drops(b, act);
      if !act(b).OutputSpecifier? { WrittenUnlessDropped(bodies[1..], NextState(st, b, act(b)), act); }
    }
  }

  /** Main result: on a line with safe placeholders the mutating replace-all loop is the
      simultaneous substitution. */
  lemma LoopIsOnePass(line: string, counts: Counts, act: Resolver)
    requires SafeBodies(FindAll(line), act)
    ensures var r := RunLine(line, counts, act);
            && !r.crashed
            && (r.printLine <==> !DropsLine(line, act))
            && (r.printLine ==> r.text == OnePass(line, act))
  {
    var bodies := FindAll(line);
    var st := LineState(line, true, counts, false);
    WrittenUnlessDropped(bodies, st, act);
    if !DropsLine(line, act) {
      ParseFlattens(line);
      ParseIsClean(line);
      forall b | b in bodies ensures !act(b).OutputSpecifier? { assert !Drops(b, act); }
      LoopResolves(bodies, Parse(line), st, act);
      OnePassIsResolved(Parse(line), act);
    }
  }

  /** How one line changes the state of the file. */
  lemma LineIsOnePass(lines: seq<string>, st: FileState, act: Resolver) returns (next: FileState)
    requires lines != [] && !st.crashed && SafeBodies(FindAll(lines[0]), act)
    ensures RunLines(lines, st, act) == RunLines(lines[1..], next, act)
    ensures !next.crashed && next.output == st.output + LineOutput(lines[0], act)
  {
    LoopIsOnePass(lines[0], st.counts, act);
    var l := RunLine(lines[0], st.counts, act);
    next := Written(st, l);
    if l.printLine { Regroup(st.output, l.text, "\n"); }
  }

  lemma {:induction false} LinesAreOnePass(lines: seq<string>, st: FileState, act: Resolver)
    requires !st.crashed && forall l :: l in lines ==> SafeBodies(FindAll(l), act)
    ensures !RunLines(lines, st, act).crashed
    ensures RunLines(lines, st, act).output == st.output + FileOutput(lines, act)
  {
    if lines != [] {
      assert lines[0] in lines && forall l :: l in lines[1..] ==> l in lines;
      var next := LineIsOnePass(lines, st, act);
      LinesAreOnePass(lines[1..], next, act);
      Regroup(st.output, LineOutput(lines[0], act), FileOutput(lines[1..], act));
    }
  }

  /** The generated file is the concatenation of the one-pass results of the lines not dropped. */
  lemma GenerateIsOnePass(template: string, store: Store)
    requires TidyTemplate(template, store)
    ensures !Generate(template, store).crashed
    ensures Generate(template, store).output == FileOutput(Lines(template), ResolverOf(store))
  {
    forall l, b | l in Lines(template) && b in FindAll(l) ensures Safe(b, ResolverOf(store)) {
      TidyIsSafe(b, store);
    }
    LinesAreOnePass(Lines(template), FileState("", NO_COUNTS, false), ResolverOf(store));
  }
}
