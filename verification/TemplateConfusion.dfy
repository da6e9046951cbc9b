/** For which values in the store bbbconfgen does a simultaneous substitution on every line: the exact
    condition. */
module TemplateConfusion {
  import opened Options
  import opened Text
  import opened Template
  import opened TemplateProofs

  predicate Occurs(pattern: string, s: string) { exists i :: 0 <= i <= |s| && pattern <= s[i..] }

  /** The placeholder occurs in the value, or the value ends in a proper beginning of it. */
  predicate Confuses(v: string, b: string) {
    Occurs(Placeholder(b), v) || exists m :: 0 < m < |Placeholder(b)| && EndsInto(v, b, m)
  }

  predicate EndsInto(v: string, b: string, m: nat)
    requires m <= |Placeholder(b)|
  {
    m <= |v| && v[|v| - m..] == Placeholder(b)[..m]
  }

  /** The placeholder is replaced, by something else. */
  predicate Active(b: string, act: Resolver) {
    BraceFree(b) && b != "" && act(b).Substitute? && act(b).text != Placeholder(b)
  }

  ghost predicate Unconfusing(v: string, act: Resolver) { forall b :: Active(b, act) ==> !Confuses(v, b) }

  /** A key that can be asked for by its bare name. */
  predicate IsPlainKey(k: string) { BraceFree(k) && Fields(k) == [k] && ToLower(k) != "#output:" }

  /** Some value in the store can be mistaken, with or without what follows it, for a placeholder that
      is replaced. */
  ghost predicate Confusable(store: Store) {
    exists k, b :: IsPlainKey(k) && Active(b, ResolverOf(store)) && Confuses(Get(store, k), b)
  }

  // --- a line in pieces: template text, values put in, and placeholders left ---------------------------

  datatype Piece = Lit(text: string) | Val(text: string) | Gap(body: string)

  function ShowPiece(p: Piece): string {
    match p
    case Lit(text) => text
    case Val(text) => text
    case Gap(body) => Placeholder(body)
  }

  function Show(ps: seq<Piece>): string { if ps == [] then "" else ShowPiece(ps[0]) + Show(ps[1..]) }

  function PiecesOf(line: Line): seq<Piece> {
    match line
    case Tail(text) => [Lit(text)]
    case Hole(lit, body, rest) => [Lit(lit), Gap(body)] + PiecesOf(rest)
  }

  function FillGaps(ps: seq<Piece>, b: string, value: string): seq<Piece> {
    if ps == [] then []
    else [if ps[0] == Gap(b) then Val(value) else ps[0]] + FillGaps(ps[1..], b, value)
  }

  /** What a simultaneous substitution makes of the pieces. */
  function Substituted(ps: seq<Piece>, act: Resolver): string {
    if ps == [] then ""
    else
      (if ps[0].Gap? && act(ps[0].body).Substitute? then act(ps[0].body).text else ShowPiece(ps[0]))
      + Substituted(ps[1..], act)
  }

  /** Template text opens nothing, values are not confusing, placeholders are brace-free. */
  ghost predicate Fine(ps: seq<Piece>, act: Resolver) {
    ps == [] ||
      ((match ps[0]
        case Lit(text) => Inert(text) || (ps[1..] == [] && !HasMatch(text))
        case Val(text) => Unconfusing(text, act)
        case Gap(body) => BraceFree(body) && body != "")
       && Fine(ps[1..], act))
  }

  lemma TwoPieces(a: Piece, b: Piece, rest: seq<Piece>, act: Resolver)
    ensures Show([a, b] + rest) == ShowPiece(a) + (ShowPiece(b) + Show(rest))
    ensures Fine([a, b] + rest, act) <==> Fine([a] + ([b] + rest), act)
    ensures ([a, b] + rest)[1..] == [b] + rest && ([b] + rest)[1..] == rest
  {
    assert [a, b] + rest == [a] + ([b] + rest);
  }

  lemma {:induction false} PiecesShow(line: Line, act: Resolver)
    requires Clean(line)
    ensures Show(PiecesOf(line)) == Flatten(line) && Fine(PiecesOf(line), act)
  {
    match line
    case Tail(text) =>
      assert [Lit(text)][1..] == [];
      assert text + "" == text;
    case Hole(l, b, r) =>
      PiecesShow(r, act);
      TwoPieces(Lit(l), Gap(b), PiecesOf(r), act);
      Regroup(l, Placeholder(b), Flatten(r));
  }

  lemma {:induction false} GapsAreBodies(line: Line, b: string)
    ensures Gap(b) in PiecesOf(line) <==> b in Bodies(line)
  {
    match line
    case Tail(_) =>
    case Hole(_, _, r) => GapsAreBodies(r, b);
  }

  lemma {:induction false} OnePassIsSubstituted(line: Line, act: Resolver)
    requires Clean(line)
    ensures OnePass(Flatten(line), act) == Substituted(PiecesOf(line), act)
  {
    match line
    case Tail(t) =>
      assert [Lit(t)][1..] == [] && t + "" == t;
      FindsNothing(t);
      NothingToSubstitute(t, act);
    case Hole(l, b, r) =>
      OnePassIsSubstituted(r, act);
      TwoPieces(Lit(l), Gap(b), PiecesOf(r), act);
      Regroup(l, Placeholder(b), Flatten(r));
      InertBefore(l, Placeholder(b) + Flatten(r));
      SkipOnePass(l, Placeholder(b) + Flatten(r), act);
      OnePassAtHole(b, Flatten(r), act);
      var ps := PiecesOf(line);
      assert ps[0] == Lit(l) && ps[1..][0] == Gap(b);
      assert Substituted(ps, act) == l + Substituted(ps[1..], act);
  }

  // --- one replacement -----------------------------------------------------------------------------------

  lemma StartsInValue(v: string, rest: string, b: string, i: nat)
    requires i < |v| && Placeholder(b) <= (v + rest)[i..]
    ensures Confuses(v, b)
  {
    var p, m := Placeholder(b), |v| - i;
    assert (v + rest)[i..] == v[i..] + rest;
    if m >= |p| {
      assert p <= v[i..];
    } else {
      assert p[..m] == (v[i..] + rest)[..m] == v[i..];
      assert EndsInto(v, b, m);
    }
  }

  lemma ReplaceBehindValue(v: string, rest: string, b: string, w: string)
    requires !Confuses(v, b)
    ensures ReplaceAll(v + rest, Placeholder(b), w) == v + ReplaceAll(rest, Placeholder(b), w)
  {
    forall i | 0 <= i < |v| ensures !(Placeholder(b) <= (v + rest)[i..]) {
      if Placeholder(b) <= (v + rest)[i..] { StartsInValue(v, rest, b, i); }
    }
    SkipReplace(v, rest, Placeholder(b), w);
  }

  lemma ReplaceBehindPiece(p: Piece, rest: seq<Piece>, b: string, w: string, act: Resolver)
    requires Fine([p] + rest, act) && Active(b, act)
    ensures ReplaceAll(ShowPiece(p) + Show(rest), Placeholder(b), w)
         == (if p == Gap(b) then w else ShowPiece(p)) + ReplaceAll(Show(rest), Placeholder(b), w)
  {
    assert ([p] + rest)[1..] == rest;
    match p
    case Lit(text) =>
      if Inert(text) {
        ReplaceBeforeHole(text, Show(rest), b, w);
      } else {
        ReplaceInTail(text, b, w);
        assert text + "" == text;
      }
    case Val(text) => ReplaceBehindValue(text, Show(rest), b, w);
    case Gap(body) => ReplaceAtHole(body, Show(rest), b, w);
  }

  lemma {:induction false} ReplaceFillsGaps(ps: seq<Piece>, b: string, w: string, act: Resolver)
    requires Fine(ps, act) && Active(b, act)
    ensures ReplaceAll(Show(ps), Placeholder(b), w) == Show(FillGaps(ps, b, w))
  {
    if ps != [] {
      assert ps == [ps[0]] + ps[1..];
      ReplaceBehindPiece(ps[0], ps[1..], b, w, act);
      ReplaceFillsGaps(ps[1..], b, w, act);
      var filled := FillGaps(ps, b, w);
      assert filled[1..] == FillGaps(ps[1..], b, w);
    }
  }

  lemma {:induction false} FillingKeeps(ps: seq<Piece>, b: string, act: Resolver)
    requires Fine(ps, act) && Active(b, act) && Unconfusing(act(b).text, act)
    ensures Fine(FillGaps(ps, b, act(b).text), act)
    ensures Substituted(FillGaps(ps, b, act(b).text), act) == Substituted(ps, act)
    ensures forall c :: Gap(c) in FillGaps(ps, b, act(b).text) <==> Gap(c) in ps && c != b
  {
    if ps != [] {
      var filled := FillGaps(ps, b, act(b).text);
      FillingKeeps(ps[1..], b, act);
      assert filled[1..] == FillGaps(ps[1..], b, act(b).text);
      assert ps[1..] == [] ==> filled[1..] == [];
      assert ps == [ps[0]] + ps[1..];
      forall c ensures Gap(c) in filled <==> Gap(c) in ps && c != b {
        assert Gap(c) in filled <==> filled[0] == Gap(c) || Gap(c) in filled[1..];
      }
    }
  }

  lemma {:induction false} NoActiveGapLeft(ps: seq<Piece>, act: Resolver)
    requires Fine(ps, act) && forall b :: Gap(b) in ps ==> !Active(b, act)
    ensures Substituted(ps, act) == Show(ps)
  {
    if ps != [] {
      assert ps[0] in ps && forall p :: p in ps[1..] ==> p in ps;
      NoActiveGapLeft(ps[1..], act);
    }
  }

  lemma {:induction false} ReplaceBySame(s: string, p: string)
    requires p != ""
    ensures ReplaceAll(s, p, p) == s
  {
    if p <= s {
      ReplaceBySame(s[|p|..], p);
      assert s == p + s[|p|..];
    } else if s != "" {
      ReplaceBySame(s[1..], p);
      assert s == [s[0]] + s[1..];
    }
  }

  // --- the loop --------------------------------------------------------------------------------------------

  predicate Tidy(bodies: seq<string>, act: Resolver) {
    forall b :: b in bodies ==> BraceFree(b) && b != "" && !act(b).Crash? && !act(b).OutputSpecifier?
  }

  lemma {:induction false} LoopSubstitutes(bodies: seq<string>, ps: seq<Piece>, st: LineState, act: Resolver)
    requires Tidy(bodies, act) && Fine(ps, act) && st.text == Show(ps)
    requires forall b :: b in bodies && act(b).Substitute? ==> Unconfusing(act(b).text, act)
    requires forall b :: Gap(b) in ps && Active(b, act) ==> b in bodies
    ensures RunPlaceholders(bodies, st, act).text == Substituted(ps, act)
  {
    if bodies == [] {
      NoActiveGapLeft(ps, act);
    } else {
      var b := bodies[0];
      assert b in bodies && forall c :: c in bodies[1..] ==> c in bodies;
      assert forall c :: c in bodies ==> c == b || c in bodies[1..];
      var next := NextState(st, b, act(b));
      if Active(b, act) {
        ReplaceFillsGaps(ps, b, act(b).text, act);
        FillingKeeps(ps, b, act);
        LoopSubstitutes(bodies[1..], FillGaps(ps, b, act(b).text), next, act);
      } else {
        if act(b).Substitute? { ReplaceBySame(st.text, Placeholder(b)); }
        LoopSubstitutes(bodies[1..], ps, next, act);
      }
    }
  }

  /** The program's result for a line is the simultaneous substitution, unless the line is dropped. */
  predicate IsOnePass(line: string, counts: Counts, act: Resolver) {
    var r := RunLine(line, counts, act);
    !r.crashed && (r.printLine <==> !DropsLine(line, act)) && (r.printLine ==> r.text == OnePass(line, act))
  }

  lemma UnconfusingIsOnePass(line: string, counts: Counts, act: Resolver)
    requires forall b :: b in FindAll(line) ==> BraceFree(b) && !act(b).Crash?
    requires forall b :: b in FindAll(line) && act(b).Substitute? ==> Unconfusing(act(b).text, act)
    ensures IsOnePass(line, counts, act)
  {
    var bodies := FindAll(line);
    var st := LineState(line, true, counts, false);
    WrittenUnlessDropped(bodies, st, act);
    if !DropsLine(line, act) {
      ParseFlattens(line);
      ParseIsClean(line);
      PiecesShow(Parse(line), act);
      OnePassIsSubstituted(Parse(line), act);
      forall b ensures Gap(b) in PiecesOf(Parse(line)) ==> b in bodies { GapsAreBodies(Parse(line), b); }
      forall b | b in bodies ensures b != "" && !act(b).OutputSpecifier? {
        BodyIsNotEmpty(Parse(line), b);
        assert !Drops(b, act);
      }
      LoopSubstitutes(bodies, PiecesOf(Parse(line)), st, act);
    }
  }

  lemma {:induction false} BodyIsNotEmpty(line: Line, b: string)
    requires Clean(line) && b in Bodies(line)
    ensures b != ""
  {
    match line
    case Tail(_) =>
    case Hole(_, c, r) => if b != c { BodyIsNotEmpty(r, b); }
  }

  // --- values from a store ---------------------------------------------------------------------------------

  lemma BraceFreeIsUnconfusing(v: string, act: Resolver)
    requires BraceFree(v)
    ensures Unconfusing(v, act)
  {
    forall b | Active(b, act) ensures !Confuses(v, b) {
      var p := Placeholder(b);
      assert p[0] == '{';
      forall i | 0 <= i <= |v| ensures !(p <= v[i..]) { assert i < |v| ==> v[i..][0] == v[i]; }
      forall m | 0 < m < |p| ensures !EndsInto(v, b, m) {
        if m <= |v| { assert v[|v| - m..][0] == v[|v| - m] && p[..m][0] == p[0]; }
      }
    }
  }

  lemma {:induction false} FieldIsWord(s: string, w: string)
    requires w in Fields(s)
    ensures w != "" && forall i :: 0 <= i < |w| ==> !IsSpace(w[i])
  {
    if IsSpace(s[0]) {
      FieldIsWord(s[1..], w);
    } else if w != s[..WordLength(s)] {
      FieldIsWord(s[WordLength(s)..], w);
    }
  }

  lemma {:induction false} WordIsWhole(w: string)
    requires forall i :: 0 <= i < |w| ==> !IsSpace(w[i])
    ensures WordLength(w) == |w|
  {
    if w != "" { WordIsWhole(w[1..]); }
  }

  lemma FirstFieldIsPlain(body: string)
    requires BraceFree(body) && Fields(body) != [] && ToLower(Fields(body)[0]) != "#output:"
    ensures IsPlainKey(Fields(body)[0])
  {
    var k := Fields(body)[0];
    FieldsAreBraceFree(body);
    FieldIsWord(body, k);
    WordIsWhole(k);
    assert k[..|k|] == k && k[|k|..] == "";
  }

  /** Where the text of a substitution comes from. */
  lemma TextOfBody(body: string, store: Store)
    requires BraceFree(body) && Fields(body) != [] && ResolverOf(store)(body).Substitute?
    ensures var text := ResolverOf(store)(body).text;
            text == Get(store, Fields(body)[0]) || BraceFree(text)
  {
    var fields := Fields(body);
    FieldsAreBraceFree(body);
    if |fields| > 1 { JoinIsBraceFree(fields[2..]); }
  }

  lemma StoreIsUnconfusing(body: string, store: Store)
    requires BraceFree(body) && Fields(body) != [] && ResolverOf(store)(body).Substitute? && !Confusable(store)
    ensures Unconfusing(ResolverOf(store)(body).text, ResolverOf(store))
  {
    var act := ResolverOf(store);
    var text, k := act(body).text, Fields(body)[0];
    TextOfBody(body, store);
    if BraceFree(text) {
      BraceFreeIsUnconfusing(text, act);
    } else {
      FirstFieldIsPlain(body);
      forall b | Active(b, act) ensures !Confuses(text, b) { assert IsPlainKey(k) && text == Get(store, k); }
    }
  }

  // --- a line with two placeholders -----------------------------------------------------------------
  lemma RunTwo(a: string, b: string, st: LineState, act: Resolver)
    requires act(a).Substitute? && act(b).Substitute?
    ensures RunPlaceholders([a, b], st, act).text
         == ReplaceAll(ReplaceAll(st.text, Placeholder(a), act(a).text), Placeholder(b), act(b).text)
  {
    assert [a, b][1..] == [b] && [b][1..] == [];
    var next := NextState(st, a, act(a));
    assert RunPlaceholders([a, b], st, act) == RunPlaceholders([b], next, act);
    assert RunPlaceholders([b], next, act) == NextState(next, b, act(b));
  }

  // --- a replacement that finds something changes the text ---------------------------------------------

  /** How often ReplaceAll replaces. */
  function Replacements(s: string, from: string): nat
    requires from != ""
  {
    if from <= s then 1 + Replacements(s[|from|..], from)
    else if s == "" then 0
    else Replacements(s[1..], from)
  }

  lemma {:induction false} ReplacedLength(s: string, from: string, to: string)
    requires from != ""
    ensures |ReplaceAll(s, from, to)| - |s| == Replacements(s, from) * (|to| - |from|)
  {
    if from <= s {
      ReplacedLength(s[|from|..], from, to);
      var n := Replacements(s[|from|..], from);
      assert (1 + n) * (|to| - |from|) == n * (|to| - |from|) + (|to| - |from|);
    } else if s != "" {
      ReplacedLength(s[1..], from, to);
    }
  }

  lemma OccursLater(pattern: string, s: string)
    requires pattern != "" && Occurs(pattern, s) && !(pattern <= s)
    ensures s != "" && Occurs(pattern, s[1..])
  {
    var i :| 0 <= i <= |s| && pattern <= s[i..];
    assert i > 0 && s[i..] == s[1..][i - 1..];
  }

  lemma {:induction false} OccurrenceIsReplaced(s: string, from: string)
    requires from != "" && Occurs(from, s)
    ensures Replacements(s, from) > 0
  {
    if !(from <= s) {
      OccursLater(from, s);
      OccurrenceIsReplaced(s[1..], from);
    }
  }

  lemma {:induction false} SameLengthDiffers(s: string, from: string, to: string)
    requires from != "" && |from| == |to| && from != to && Occurs(from, s)
    ensures ReplaceAll(s, from, to) != s
  {
    if from <= s {
      var r := ReplaceAll(s, from, to);
      assert r[..|to|] == to && s[..|from|] == from;
    } else {
      OccursLater(from, s);
      SameLengthDiffers(s[1..], from, to);
      assert ReplaceAll(s, from, to)[1..] == ReplaceAll(s[1..], from, to);
    }
  }

  lemma NonZero(n: nat, d: int)
    requires n > 0 && d != 0
    ensures n * d != 0
  {}

  lemma ReplacingDiffers(s: string, from: string, to: string)
    requires from != "" && from != to && Occurs(from, s)
    ensures ReplaceAll(s, from, to) != s
  {
    if |from| == |to| {
      SameLengthDiffers(s, from, to);
    } else {
      ReplacedLength(s, from, to);
      OccurrenceIsReplaced(s, from);
      NonZero(Replacements(s, from), |to| - |from|);
    }
  }

  /** No end of a placeholder is its beginning. */
  lemma NoBorder(b: string, m: nat)
    requires BraceFree(b) && b != "" && 0 < m < |Placeholder(b)|
    ensures !(Placeholder(b)[m..] <= Placeholder(b))
  {
    var p := Placeholder(b);
    assert p[m..][0] == p[m];
    if m == 1 { assert p[m..][1] == p[2] == b[0]; }
  }

  lemma Overlap(v: string, p: string)
    requires |v| < |p| && p <= v + p
    ensures p[|v|..] <= p
  {
    var m := |v|;
    assert p == (v + p)[..|p|] == v + p[..|p| - m];
  }

  /** A placeholder that begins in `v`, before that placeholder, ends in it. */
  lemma NoStraddling(v: string, b: string)
    requires BraceFree(b) && b != "" && v != "" && Placeholder(b) <= v + Placeholder(b)
    ensures Placeholder(b) <= v
  {
    if |v| < |Placeholder(b)| {
      Overlap(v, Placeholder(b));
      NoBorder(b, |v|);
    }
  }

  lemma PrefixGrows(p: string, v: string, x: string)
    ensures p <= v ==> p <= v + x
  {}

  lemma {:induction false} ReplaceBeforePlaceholder(v: string, b: string, w: string)
    requires BraceFree(b) && b != ""
    ensures ReplaceAll(v + Placeholder(b), Placeholder(b), w) == ReplaceAll(v, Placeholder(b), w) + w
  {
    var p := Placeholder(b);
    if v == "" {
      assert v + p == p && p[|p|..] == "" && w + ReplaceAll("", p, w) == w;
    } else if p <= v + p {
      NoStraddling(v, b);
      assert (v + p)[|p|..] == v[|p|..] + p;
      ReplaceBeforePlaceholder(v[|p|..], b, w);
      Regroup(w, ReplaceAll(v[|p|..], p, w), w);
    } else {
      PrefixGrows(p, v, p);
      assert (v + p)[1..] == v[1..] + p;
      ReplaceBeforePlaceholder(v[1..], b, w);
      Regroup([v[0]], ReplaceAll(v[1..], p, w), w);
    }
  }

  // --- confusing values break some line ---------------------------------------------------------------------

  lemma PlainKeyIsReplaced(k: string, store: Store)
    requires IsPlainKey(k) && Get(store, k) != ""
    ensures ResolverOf(store)(k) == Substitute(Get(store, k), Replaced) && k != ""
  {}

  lemma OccursInFirst(pattern: string, a: string, b: string)
    requires Occurs(pattern, a)
    ensures Occurs(pattern, a + b)
  {
    var i :| 0 <= i <= |a| && pattern <= a[i..];
    assert (a + b)[i..] == a[i..] + b;
  }

  lemma SameBefore(a: string, b: string, c: string)
    requires a + c == b + c
    ensures a == b
  {
    assert |a| == |b|;
    assert a == (a + c)[..|a|] == (b + c)[..|b|] == b;
  }

  lemma DifferentBefore(a: string, b: string, c: string)
    requires a != b
    ensures a + c != b + c
  {
    if a + c == b + c { SameBefore(a, b, c); }
  }

  /** A line that asks for `k` and then for `b`, with a text between them that opens nothing. */
  function AskTwice(k: string, between: string, b: string): string { Placeholder(k) + (between + Placeholder(b)) }

  lemma Behind(between: string, b: string, act: Resolver)
    requires Inert(between) && BraceFree(b) && b != "" && act(b).Substitute?
    ensures FindAll(between + Placeholder(b)) == [b]
    ensures OnePass(between + Placeholder(b), act) == between + act(b).text
  {
    InertBefore(between, Placeholder(b));
    SkipText(between, Placeholder(b));
    FindsHole(b, "");
    SkipOnePass(between, Placeholder(b), act);
    OnePassAtHole(b, "", act);
    assert Placeholder(b) + "" == Placeholder(b) && act(b).text + "" == act(b).text;
  }

  lemma ReplaceFirst(k: string, between: string, b: string, v: string)
    requires BraceFree(k) && k != "" && Inert(between) && BraceFree(b) && b != ""
    ensures ReplaceAll(AskTwice(k, between, b), Placeholder(k), v) == v + (between + if b == k then v else Placeholder(b))
  {
    assert Placeholder(b) + "" == Placeholder(b) && v + "" == v;
    ReplaceAtHole(k, between + Placeholder(b), k, v);
    ReplaceBeforeHole(between, Placeholder(b), k, v);
    ReplaceAtHole(b, "", k, v);
  }

  /** The program's two steps on such a line, and the simultaneous substitution. */
  lemma AskTwiceRuns(k: string, between: string, b: string, counts: Counts, act: Resolver)
    requires BraceFree(k) && k != "" && Inert(between) && BraceFree(b) && b != ""
    requires act(k).Substitute? && act(b).Substitute?
    ensures var line := AskTwice(k, between, b);
            && FindAll(line) == [k, b]
            && OnePass(line, act) == act(k).text + (between + act(b).text)
            && RunLine(line, counts, act).text
               == ReplaceAll(act(k).text + (between + if b == k then act(k).text else Placeholder(b)), Placeholder(b),
                            act(b).text)
  {
    var rest := between + Placeholder(b);
    Behind(between, b, act);
    FindsHole(k, rest);
    OnePassAtHole(k, rest, act);
    ReplaceFirst(k, between, b, act(k).text);
    RunTwo(k, b, LineState(AskTwice(k, between, b), true, counts, false), act);
  }

  /** Where the value and the text behind it contain the second placeholder, the two differ. */
  lemma AskTwiceDiffers(k: string, between: string, b: string, counts: Counts, act: Resolver)
    requires BraceFree(k) && k != "" && Inert(between) && Active(b, act) && act(k).Substitute?
    requires Occurs(Placeholder(b), act(k).text + between)
    ensures RunLine(AskTwice(k, between, b), counts, act).text != OnePass(AskTwice(k, between, b), act)
  {
    var v, w, p := act(k).text, act(b).text, Placeholder(b);
    AskTwiceRuns(k, between, b, counts, act);
    Regroup(v, between, v);
    Regroup(v, between, w);
    Regroup(v, between, p);
    if b == k {
      OccursInFirst(p, v + between, v);
      ReplacingDiffers(v + between + v, p, w);
    } else {
      ReplaceBeforePlaceholder(v + between, b, w);
      ReplacingDiffers(v + between, p, w);
      DifferentBefore(ReplaceAll(v + between, p, w), v + between, w);
    }
  }

  lemma CompletionIsInert(b: string, m: nat)
    requires BraceFree(b) && b != "" && 0 < m < |Placeholder(b)|
    ensures Inert(Placeholder(b)[m..])
  {
    var p := Placeholder(b);
    assert forall i :: 2 <= i < |p| ==> p[i] != '{';
    assert forall i :: 0 <= i < |p| - m ==> p[m..][i] == p[m + i];
  }

  lemma CompletionOccurs(v: string, b: string, m: nat)
    requires 0 < m < |Placeholder(b)| && EndsInto(v, b, m)
    ensures Occurs(Placeholder(b), v + Placeholder(b)[m..])
  {
    var p, n := Placeholder(b), |v| - m;
    assert (v + p[m..])[n..] == v[n..] + p[m..] == p[..m] + p[m..] == p;
  }

  /** The line on which a confusing value shows. */
  lemma ConfusingValueBreaks(k: string, b: string, store: Store) returns (line: string)
    requires IsPlainKey(k) && Active(b, ResolverOf(store)) && Confuses(Get(store, k), b)
    ensures FindAll(line) == [k, b]
    ensures forall counts :: RunLine(line, counts, ResolverOf(store)).text != OnePass(line, ResolverOf(store))
  {
    var act, v, p := ResolverOf(store), Get(store, k), Placeholder(b);
    var between := "";
    NotEmpty(v, b);
    PlainKeyIsReplaced(k, store);
    if Occurs(p, v) {
      assert v + "" == v;
    } else {
      var m :| 0 < m < |p| && EndsInto(v, b, m);
      between := p[m..];
      CompletionIsInert(b, m);
      CompletionOccurs(v, b, m);
    }
    line := AskTwice(k, between, b);
    AskTwiceRuns(k, between, b, NO_COUNTS, act);
    forall counts ensures RunLine(line, counts, act).text != OnePass(line, act) {
      AskTwiceDiffers(k, between, b, counts, act);
    }
  }

  lemma NotEmpty(v: string, b: string)
    requires Confuses(v, b)
    ensures v != ""
  {
    if Occurs(Placeholder(b), v) { var i :| 0 <= i <= |v| && Placeholder(b) <= v[i..]; }
  }

  // --- the exact condition --------------------------------------------------------------------------------------

  /** Every placeholder of the line has a field, and no brace in it. */
  predicate TidyLine(line: string) { forall b :: b in FindAll(line) ==> BraceFree(b) && Fields(b) != [] }

  ghost predicate OnePassThroughout(store: Store) {
    forall line, counts :: TidyLine(line) ==> IsOnePass(line, counts, ResolverOf(store))
  }

  lemma ConfusingLineIsTidy(line: string, k: string, b: string, store: Store)
    requires FindAll(line) == [k, b] && IsPlainKey(k) && Get(store, k) != "" && Active(b, ResolverOf(store))
    ensures TidyLine(line) && !DropsLine(line, ResolverOf(store))
  {
    PlainKeyIsReplaced(k, store);
    assert Fields(b) != [];
  }

  /** Main result: with this store the program does a simultaneous substitution on every line of tidy
      placeholders, repeated and adjacent ones included, if and only if no value can be confused: none
      contains a placeholder that is replaced by something else, and none ends in the beginning of one. */
  lemma OnePassIff(store: Store)
    ensures OnePassThroughout(store) <==> !Confusable(store)
  {
    if Confusable(store) {
      var k, b :| IsPlainKey(k) && Active(b, ResolverOf(store)) && Confuses(Get(store, k), b);
      var line := ConfusingValueBreaks(k, b, store);
      NotEmpty(Get(store, k), b);
      ConfusingLineIsTidy(line, k, b, store);
      assert !IsOnePass(line, NO_COUNTS, ResolverOf(store));
    } else {
      forall line, counts | TidyLine(line) ensures IsOnePass(line, counts, ResolverOf(store)) {
        forall b | b in FindAll(line) && ResolverOf(store)(b).Substitute?
          ensures Unconfusing(ResolverOf(store)(b).text, ResolverOf(store))
        {
          StoreIsUnconfusing(b, store);
        }
        UnconfusingIsOnePass(line, counts, ResolverOf(store));
      }
    }
  }

  lemma OneWord(c: char)
    requires !IsSpace(c) && c != '{' && c != '}'
    ensures IsPlainKey([c])
  {
    assert [c][..1] == [c] && [c][1..] == "";
    assert WordLength([c]) == 1;
    assert ToLower([c]) != "#output:";
  }

  /** It happens: with "{{b}}" stored for a and "x" for b, some line is not substituted in one pass. */
  lemma ValueIsRescanned()
    ensures !OnePassThroughout(map["a" := "{{b}}", "b" := "x"])
  {
    var store := map["a" := "{{b}}", "b" := "x"];
    OneWord('a');
    OneWord('b');
    assert "a"[0] != "b"[0] && "x"[0] != '{';
    assert Get(store, "a") == "{{b}}" && Get(store, "b") == "x";
    PlainKeyIsReplaced("b", store);
    assert Placeholder("b") == "{{b}}" && Placeholder("b") <= Get(store, "a")[0..];
    assert Active("b", ResolverOf(store)) && Confuses(Get(store, "a"), "b");
    OnePassIff(store);
  }
}
