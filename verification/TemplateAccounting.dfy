/** What the counters of bbbconfgen count. */
module TemplateAccounting {
  import opened Options
  import opened Text
  import opened Template
  import opened TemplateProofs

  /** The placeholders the inner loop counts: those before the first "#output:". */
  function Visited(bodies: seq<string>, act: Resolver): seq<string> {
    if bodies == [] || act(bodies[0]).OutputSpecifier? then []
    else [bodies[0]] + Visited(bodies[1..], act)
  }

  function TallyOf(action: Action): Tally {
    match action
    case Substitute(_, tally) => tally
    case DropLine(tally) => tally
    case _ => Kept
  }

  /** How many of the placeholders are of the given kind. */
  function CountOf(bodies: seq<string>, tally: Tally, act: Resolver): nat {
    if bodies == [] then 0
    else (if TallyOf(act(bodies[0])) == tally then 1 else 0) + CountOf(bodies[1..], tally, act)
  }

  predicate NoCrash(bodies: seq<string>, act: Resolver) { forall b :: b in bodies ==> !act(b).Crash? }

  lemma BumpAddsOne(c: Counts, bumped: Tally, tally: Tally)
    ensures c.Bump(bumped).lines == c.lines && c.Bump(bumped).PlaceholderTotal() == c.PlaceholderTotal() + 1
    ensures c.Bump(bumped).Of(tally) == c.Of(tally) + if bumped == tally then 1 else 0
  {
    match bumped
    case Replaced =>
    case Kept =>
    case Removed =>
    case LineRemoved =>
    case CheckTrue =>
    case CheckFalse =>
    case Defaulted =>
  }

  lemma NextStateBumps(st: LineState, body: string, action: Action)
    requires !action.Crash? && !action.OutputSpecifier?
    ensures NextState(st, body, action).counts == st.counts.Bump(TallyOf(action))
  {}

  lemma CountOfVisited(bodies: seq<string>, act: Resolver, tally: Tally)
    requires bodies != [] && !act(bodies[0]).OutputSpecifier?
    ensures |Visited(bodies, act)| == 1 + |Visited(bodies[1..], act)|
    ensures CountOf(Visited(bodies, act), tally, act)
         == (if TallyOf(act(bodies[0])) == tally then 1 else 0) + CountOf(Visited(bodies[1..], act), tally, act)
  {
    assert ([bodies[0]] + Visited(bodies[1..], act))[1..] == Visited(bodies[1..], act);
  }

  /** Each visited placeholder adds one to the counter of its kind and to no other. */
  lemma {:induction false} LoopCounts(bodies: seq<string>, st: LineState, act: Resolver, tally: Tally)
    requires NoCrash(bodies, act)
    ensures var c := RunPlaceholders(bodies, st, act).counts;
            && c.lines == st.counts.lines
            && c.PlaceholderTotal() == st.counts.PlaceholderTotal() + |Visited(bodies, act)|
            && c.Of(tally) == st.counts.Of(tally) + CountOf(Visited(bodies, act), tally, act)
  {
    if bodies != [] && !act(bodies[0]).OutputSpecifier? {
      assert bodies[0] in bodies && forall x :: x in bodies[1..] ==> x in bodies;
      var next := NextState(st, bodies[0], act(bodies[0]));
      NextStateBumps(st, bodies[0], act(bodies[0]));
      BumpAddsOne(st.counts, TallyOf(act(bodies[0])), tally);
      CountOfVisited(bodies, act, tally);
      LoopCounts(bodies[1..], next, act, tally);
    }
  }

  function VisitedInAll(lines: seq<string>, act: Resolver): nat {
    if lines == [] then 0 else |Visited(FindAll(lines[0]), act)| + VisitedInAll(lines[1..], act)
  }

  function WrittenLines(lines: seq<string>, act: Resolver): nat {
    if lines == [] then 0 else (if DropsLine(lines[0], act) then 0 else 1) + WrittenLines(lines[1..], act)
  }

  lemma LineCounts(lines: seq<string>, st: FileState, act: Resolver) returns (next: FileState)
    requires lines != [] && !st.crashed && NoCrash(FindAll(lines[0]), act)
    ensures RunLines(lines, st, act) == RunLines(lines[1..], next, act) && !next.crashed
    ensures next.counts.lines == st.counts.lines + if DropsLine(lines[0], act) then 0 else 1
    ensures next.counts.PlaceholderTotal() == st.counts.PlaceholderTotal() + |Visited(FindAll(lines[0]), act)|
  {
    var start := LineState(lines[0], true, st.counts, false);
    WrittenUnlessDropped(FindAll(lines[0]), start, act);
    LoopCounts(FindAll(lines[0]), start, act, Kept);
    next := Written(st, RunLine(lines[0], st.counts, act));
  }

  lemma {:induction false} LinesCount(lines: seq<string>, st: FileState, act: Resolver)
    requires !st.crashed && forall l :: l in lines ==> NoCrash(FindAll(l), act)
    ensures var r := RunLines(lines, st, act);
            && !r.crashed
            && r.counts.lines == st.counts.lines + WrittenLines(lines, act)
            && r.counts.PlaceholderTotal() == st.counts.PlaceholderTotal() + VisitedInAll(lines, act)
  {
    if lines != [] {
      assert lines[0] in lines && forall l :: l in lines[1..] ==> l in lines;
      var next := LineCounts(lines, st, act);
      LinesCount(lines[1..], next, act);
    }
  }

  /** Over any file without blank placeholders the seven counters add up to the placeholders
      visited, and the line counter is the number of lines not dropped. */
  lemma FileAccounting(template: string, store: Store)
    requires forall l, b :: l in Lines(template) && b in FindAll(l) ==> Fields(b) != []
    ensures var r := Generate(template, store);
            && !r.crashed
            && r.counts.lines == WrittenLines(Lines(template), ResolverOf(store))
            && r.counts.PlaceholderTotal() == VisitedInAll(Lines(template), ResolverOf(store))
  {
    var act := ResolverOf(store);
    forall l | l in Lines(template) ensures NoCrash(FindAll(l), act) {}
    LinesCount(Lines(template), FileState("", NO_COUNTS, false), act);
  }

  // --- order does not matter -------------------------------------------------------------------

  lemma {:induction false} CountAround(a: seq<string>, x: string, b: seq<string>, tally: Tally, act: Resolver)
    ensures CountOf(a + [x] + b, tally, act) == CountOf([x] + (a + b), tally, act)
  {
    if a == [] {
      assert a + [x] + b == [x] + (a + b);
    } else {
      assert (a + [x] + b)[1..] == a[1..] + [x] + b;
      CountAround(a[1..], x, b, tally, act);
      assert ([x] + (a[1..] + b))[1..] == a[1..] + b && ([x] + (a + b))[1..] == a + b;
      assert (a + b)[1..] == a[1..] + b;
    }
  }

  lemma Extract(b: seq<string>, x: string) returns (left: seq<string>, right: seq<string>)
    requires x in b
    ensures b == left + [x] + right && multiset(left + right) == multiset(b) - multiset{x}
  {
    var k :| 0 <= k < |b| && b[k] == x;
    left, right := b[..k], b[k + 1..];
    assert b == left + [x] + right;
  }

  lemma {:induction false} CountPermute(a: seq<string>, b: seq<string>, tally: Tally, act: Resolver)
    requires multiset(a) == multiset(b)
    ensures CountOf(a, tally, act) == CountOf(b, tally, act)
  {
    if a == [] {
      assert |b| == |multiset(b)| == 0;
    } else {
      assert a[0] in multiset(b);
      var left, right := Extract(b, a[0]);
      assert a == [a[0]] + a[1..];
      CountPermute(a[1..], left + right, tally, act);
      CountAround(left, a[0], right, tally, act);
      assert ([a[0]] + (left + right))[1..] == left + right;
    }
  }

  lemma {:induction false} NoOutputVisitsAll(bodies: seq<string>, act: Resolver)
    requires forall b :: b in bodies ==> !act(b).OutputSpecifier?
    ensures Visited(bodies, act) == bodies
  {
    if bodies != [] {
      assert bodies[0] in bodies;
      NoOutputVisitsAll(bodies[1..], act);
    }
  }

  /** Whether a line is written does not depend on the order of its placeholders. */
  lemma WrittenInAnyOrder(a: seq<string>, b: seq<string>, st: LineState, act: Resolver)
    requires multiset(a) == multiset(b) && !st.crashed
    requires forall x :: x in a ==> !act(x).Crash?
    ensures RunPlaceholders(a, st, act).printLine == RunPlaceholders(b, st, act).printLine
  {
    SameBodies(a, b);
    WrittenUnlessDropped(a, st, act);
    WrittenUnlessDropped(b, st, act);
  }

  lemma SameBodies(a: seq<string>, b: seq<string>)
    requires multiset(a) == multiset(b)
    ensures forall x :: x in a <==> x in b
  {
    forall x ensures x in a <==> x in b { assert x in multiset(a) <==> x in multiset(b); }
  }

  /** Without an output specifier, neither do the counters. */
  lemma CountedInAnyOrder(a: seq<string>, b: seq<string>, st: LineState, act: Resolver)
    requires multiset(a) == multiset(b)
    requires forall x :: x in a ==> !act(x).Crash? && !act(x).OutputSpecifier?
    ensures RunPlaceholders(a, st, act).counts == RunPlaceholders(b, st, act).counts
  {
    SameBodies(a, b);
    var c, d := RunPlaceholders(a, st, act).counts, RunPlaceholders(b, st, act).counts;
    forall tally: Tally ensures c.Of(tally) == d.Of(tally) {
      LoopCounts(a, st, act, tally);
      LoopCounts(b, st, act, tally);
      NoOutputVisitsAll(a, act);
      NoOutputVisitsAll(b, act);
      CountPermute(a, b, tally, act);
    }
    LoopCounts(a, st, act, Kept);
    LoopCounts(b, st, act, Kept);
    SameCounts(c, d);
  }

  /** With one they do: a placeholder behind it is not counted, one before it is. */
  lemma OutputSpecifierHides(x: string, specifier: string, st: LineState, act: Resolver)
    requires act(specifier).OutputSpecifier? && !act(x).OutputSpecifier? && !act(x).Crash?
    ensures RunPlaceholders([x, specifier], st, act).counts.PlaceholderTotal() == st.counts.PlaceholderTotal() + 1
    ensures RunPlaceholders([specifier, x], st, act).counts == st.counts
  {
    assert [x, specifier][1..] == [specifier];
    LoopCounts([x, specifier], st, act, Kept);
    assert Visited([specifier], act) == [];
    assert |Visited([x, specifier], act)| == 1;
  }

  lemma SameCounts(c: Counts, d: Counts)
    requires c.lines == d.lines && forall tally: Tally :: c.Of(tally) == d.Of(tally)
    ensures c == d
  {
    assert c.Of(Replaced) == d.Of(Replaced) && c.Of(Kept) == d.Of(Kept) && c.Of(Removed) == d.Of(Removed);
    assert c.Of(LineRemoved) == d.Of(LineRemoved) && c.Of(CheckTrue) == d.Of(CheckTrue);
    assert c.Of(CheckFalse) == d.Of(CheckFalse) && c.Of(Defaulted) == d.Of(Defaulted);
  }
}
