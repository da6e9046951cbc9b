/** Reading a written file line by line: a value with a line feed in it can bring in further lines.
    How many lines begin with a given text, and exactly when that is what the template says. */
module ConfigLines {
  import opened Options
  import opened Text
  import opened ConfigTemplates
  import opened ConfigEngine
  import opened ConfigWording
  import T = Template
  import I = TemplateIdempotence

  // --- counting the lines of a written file by how they begin -------------------------------------

  function Count(lines: seq<string>, prefix: string): nat {
    if lines == [] then 0 else (if prefix <= lines[0] then 1 else 0) + Count(lines[1..], prefix)
  }

  /** The lines that whoever reads the file sees. */
  function LinesRead(written: seq<string>): seq<string> { Text.Lines(I.Unlines(written)) }

  function CountRead(written: seq<string>, prefix: string): nat { Count(LinesRead(written), prefix) }

  lemma {:induction false} CountTogether(a: seq<string>, b: seq<string>, prefix: string)
    ensures Count(a + b, prefix) == Count(a, prefix) + Count(b, prefix)
  {
    if a == [] {
      assert a + b == b;
    } else {
      assert (a + b)[0] == a[0] && (a + b)[1..] == a[1..] + b;
      CountTogether(a[1..], b, prefix);
    }
  }

  lemma CountOne(line: string, prefix: string)
    ensures Count([line], prefix) == if prefix <= line then 1 else 0
  {
    assert [line][1..] == [];
  }

  lemma FirstRead(line: string, rest: seq<string>)
    ensures LinesRead([line] + rest) == LinesRead([line]) + LinesRead(rest)
  {
    assert ([line] + rest)[1..] == rest && [line][1..] == [];
    assert I.Unlines([line] + rest) == line + "\n" + I.Unlines(rest);
    assert I.Unlines([line]) == line + "\n" + "";
    assert line + "\n" + "" == line + "\n";
    I.LinesAfterTerminator(line, I.Unlines(rest));
  }

  lemma NothingRead(prefix: string)
    ensures LinesRead([]) == [] && CountRead([], prefix) == 0
  {}

  lemma {:induction false} ReadTogether(a: seq<string>, b: seq<string>)
    ensures LinesRead(a + b) == LinesRead(a) + LinesRead(b)
  {
    if a == [] {
      assert a + b == b;
      NothingRead("");
    } else {
      assert a == [a[0]] + a[1..] && a + b == [a[0]] + (a[1..] + b);
      FirstRead(a[0], a[1..]);
      FirstRead(a[0], a[1..] + b);
      ReadTogether(a[1..], b);
      RegroupRead(LinesRead([a[0]]), LinesRead(a[1..]), LinesRead(b));
    }
  }

  lemma RegroupRead(a: seq<string>, b: seq<string>, c: seq<string>)
    ensures a + (b + c) == (a + b) + c
  {}

  /** A line without a line feed is read as itself, up to a carriage return at its end. */
  lemma OneLineRead(line: string, prefix: string)
    requires I.OneLine(line) && prefix != "" && prefix[|prefix| - 1] != '\r'
    ensures CountRead([line], prefix) == if prefix <= line then 1 else 0
  {
    assert [line][1..] == [] && I.Unlines([line]) == line + "\n" + "";
    I.FirstLine(line, "");
    assert [DropCR(line)] + Text.Lines("") == [DropCR(line)];
    CountOne(DropCR(line), prefix);
    if prefix <= line && DropCR(line) != line { assert line[..|prefix|] == prefix; }
    assert DropCR(line) <= line;
  }

  // --- line feeds in rendered lines -----------------------------------------------------------------

  /** A line feed in `s` is followed by the prefix. */
  predicate Carries(s: string, prefix: string) { exists i :: 0 <= i < |s| && s[i] == '\n' && prefix <= s[i + 1..] }

  /** What a line can begin with, up to a carriage return that readers drop. */
  predicate IsBeginning(p: string) { p != "" && I.OneLine(p) && p[|p| - 1] != '\r' }

  lemma CarriesBehind(a: string, b: string, prefix: string)
    requires I.OneLine(a)
    ensures Carries(a + "\n" + b, prefix) <==> prefix <= b || Carries(b, prefix)
  {
    var s := a + "\n" + b;
    assert s[|a|] == '\n' && s[|a| + 1..] == b;
    if Carries(b, prefix) {
      var i :| 0 <= i < |b| && b[i] == '\n' && prefix <= b[i + 1..];
      assert s[|a| + 1 + i] == '\n' && s[|a| + 1 + i + 1..] == b[i + 1..];
    }
    if Carries(s, prefix) {
      var i :| 0 <= i < |s| && s[i] == '\n' && prefix <= s[i + 1..];
      assert i < |a| ==> s[i] == a[i];
      if i > |a| { assert b[i - |a| - 1] == '\n' && b[i - |a| - 1 + 1..] == s[i + 1..]; }
    }
  }

  lemma PrefixChars(p: string, a: string, x: string)
    requires p <= a + x
    ensures forall k :: |a| <= k < |p| ==> k - |a| < |x| && p[k] == x[k - |a|]
    ensures |p| <= |a| ==> p <= a
  {
    assert forall k :: 0 <= k < |p| ==> p[k] == (a + x)[k];
  }

  lemma BeginsWithoutCR(a: string, p: string)
    requires IsBeginning(p)
    ensures p <= DropCR(a) <==> p <= a
  {
    assert DropCR(a) <= a;
    assert p <= a && |p| == |a| ==> p[|p| - 1] == a[|a| - 1];
    if p <= a { assert p == a[..|p|]; }
  }

  lemma ReachesBreak(p: string, a: string, b: string)
    requires p <= a + ("\n" + b) && |p| > |a|
    ensures !I.OneLine(p)
  {
    PrefixChars(p, a, "\n" + b);
    assert p[|a|] == '\n';
  }

  lemma BeginsFirstLine(a: string, b: string, p: string)
    requires I.OneLine(a) && IsBeginning(p)
    ensures p <= a + "\n" + b <==> p <= a
    ensures p <= DropCR(a) <==> p <= a
  {
    BeginsWithoutCR(a, p);
    assert a + "\n" + b == a + ("\n" + b);
    if p <= a + ("\n" + b) {
      PrefixChars(p, a, "\n" + b);
      if |p| > |a| { ReachesBreak(p, a, b); }
    }
    if p <= a { assert p == a[..|p|] == (a + "\n" + b)[..|p|]; }
  }

  lemma SplitRead(a: string, b: string)
    requires I.OneLine(a)
    ensures LinesRead([a + "\n" + b]) == [DropCR(a)] + LinesRead([b])
  {
    var s := a + "\n" + b;
    assert [s][1..] == [] && [b][1..] == [];
    assert I.Unlines([s]) == s + "\n" + "" == a + "\n" + (b + "\n" + "");
    assert I.Unlines([b]) == b + "\n" + "";
    I.FirstLine(a, b + "\n" + "");
  }

  lemma {:induction false} LineCounted(s: string, p: string)
    requires IsBeginning(p)
    ensures CountRead([s], p) >= if p <= s then 1 else 0
    ensures CountRead([s], p) == (if p <= s then 1 else 0) <==> !Carries(s, p)
    decreases |s|
  {
    if I.OneLine(s) {
      OneLineRead(s, p);
    } else {
      var a, b := I.SplitFirst(s);
      SplitRead(a, b);
      CountTogether([DropCR(a)], LinesRead([b]), p);
      CountOne(DropCR(a), p);
      BeginsFirstLine(a, b, p);
      CarriesBehind(a, b, p);
      LineCounted(b, p);
    }
  }

  /** Of the lines read, at least those begin with `p` that are rendered so, and no others exactly if no
      rendered line carries one. */
  lemma {:induction false} FileCounted(xs: seq<string>, p: string)
    requires IsBeginning(p)
    ensures CountRead(xs, p) >= Count(xs, p)
    ensures CountRead(xs, p) == Count(xs, p) <==> forall s :: s in xs ==> !Carries(s, p)
  {
    if xs == [] {
      NothingRead(p);
    } else {
      assert xs == [xs[0]] + xs[1..];
      assert forall s :: s in xs <==> s == xs[0] || s in xs[1..];
      FirstRead(xs[0], xs[1..]);
      CountTogether(LinesRead([xs[0]]), LinesRead(xs[1..]), p);
      LineCounted(xs[0], p);
      FileCounted(xs[1..], p);
    }
  }

  // --- the values behind them -----------------------------------------------------------------------

  lemma PlainIsOneLine(s: string)
    requires IsPlain(s)
    ensures I.OneLine(s)
  {}

  predicate AllSpaces(s: string) { forall i :: 0 <= i < |s| ==> s[i] == ' ' }

  predicate IsSwitchOption(words: seq<string>) { words == ["#rmLineTrue"] || words == ["#rmLineFalse"] }

  /** Behind the value of a line there are only blanks and switches. */
  predicate IsTail(line: Line) {
    match line
    case End(text) => AllSpaces(text)
    case Slot(text, _, words, rest) => AllSpaces(text) && IsSwitchOption(words) && IsTail(rest)
  }

  lemma SwitchLeavesNothing(key: Key, words: seq<string>, redis: Redis)
    requires IsSwitchOption(words) && !Ask(key, words, redis).DropLine?
    ensures Ask(key, words, redis).Substitute? && Ask(key, words, redis).text == ""
  {}

  lemma {:induction false} TailIsBlank(line: Line, redis: Redis)
    requires IsTail(line) && !Dropped(line, redis)
    ensures AllSpaces(Shown(line, redis))
  {
    match line
    case End(_) =>
    case Slot(text, key, words, rest) =>
      SwitchLeavesNothing(key, words, redis);
      TailIsBlank(rest, redis);
      assert Shown(line, redis) == text + "" + Shown(rest, redis);
  }

  predicate ShowsOneValue(line: Line) { WellFormed(line) && line.Slot? && IsTail(line.rest) }

  /** The line is written, and the value it shows carries a further one. */
  predicate Brings(line: Line, redis: Redis, prefix: string) {
    && line.Slot? && !Dropped(line, redis)
    && Ask(line.key, line.words, redis).Substitute?
    && Carries(Ask(line.key, line.words, redis).text, prefix)
  }

  predicate IsWordBeginning(p: string) { IsBeginning(p) && forall i :: 0 <= i < |p| ==> p[i] != ' ' }

  lemma CarriesOutward(a: string, m: string, c: string, p: string)
    requires Carries(m, p)
    ensures Carries(a + m + c, p)
  {
    var s := a + m + c;
    var i :| 0 <= i < |m| && m[i] == '\n' && p <= m[i + 1..];
    assert s[|a| + i] == '\n' && s[|a| + i + 1..] == m[i + 1..] + c;
  }

  lemma CarriesInward(a: string, m: string, c: string, p: string)
    requires I.OneLine(a) && AllSpaces(c) && IsWordBeginning(p) && Carries(a + m + c, p)
    ensures Carries(m, p)
  {
    var s := a + m + c;
    assert forall k :: 0 <= k < |a| ==> s[k] == a[k];
    assert forall k :: |a| <= k < |a| + |m| ==> s[k] == m[k - |a|];
    assert forall k :: |a| + |m| <= k < |s| ==> s[k] == c[k - |a| - |m|];
    var i :| 0 <= i < |s| && s[i] == '\n' && p <= s[i + 1..];
    var j := i - |a|;
    assert s[i + 1..] == m[j + 1..] + c && m[j] == '\n';
    FitsInFront(m[j + 1..], c, p);
  }

  lemma CarriesInMiddle(a: string, m: string, c: string, p: string)
    requires I.OneLine(a) && AllSpaces(c) && IsWordBeginning(p)
    ensures Carries(a + m + c, p) <==> Carries(m, p)
  {
    if Carries(m, p) { CarriesOutward(a, m, c, p); }
    if Carries(a + m + c, p) { CarriesInward(a, m, c, p); }
  }

  lemma FitsInFront(x: string, c: string, p: string)
    requires AllSpaces(c) && IsWordBeginning(p) && p <= x + c
    ensures p <= x
  {
    PrefixChars(p, x, c);
  }

  lemma PlaceholderIsOneLine(key: Key, words: seq<string>)
    requires IsKeyName(Name(key)) && AreWords(words)
    ensures I.OneLine(T.Placeholder(Body(key, words)))
  {
    var joined := Join([Name(key)] + words);
    JoinIsPlain([Name(key)] + words);
    PlainIsOneLine(joined);
    assert T.Placeholder(Body(key, words)) == "{{ " + joined + " }}";
  }

  lemma NothingCarried(s: string, p: string)
    requires I.OneLine(s)
    ensures !Carries(s, p)
  {}

  lemma LineCarries(line: Line, redis: Redis, p: string)
    requires ShowsOneValue(line) && !Dropped(line, redis) && IsWordBeginning(p)
    ensures Carries(Shown(line, redis), p) <==> Brings(line, redis, p)
  {
    var action := Ask(line.key, line.words, redis);
    PlainIsOneLine(line.text);
    TailIsBlank(line.rest, redis);
    var kept := T.Placeholder(Body(line.key, line.words));
    var middle := if action.Substitute? then action.text else kept;
    assert Shown(line, redis) == line.text + middle + Shown(line.rest, redis);
    CarriesInMiddle(line.text, middle, Shown(line.rest, redis), p);
    if !action.Substitute? {
      PlaceholderIsOneLine(line.key, line.words);
      NothingCarried(middle, p);
    }
  }

  lemma {:induction false} Rendered(template: seq<Line>, redis: Redis, s: string)
    ensures s in Render(template, redis) <==> exists l :: l in template && !Dropped(l, redis) && s == Shown(l, redis)
  {
    if template != [] {
      var first := if Dropped(template[0], redis) then [] else [Shown(template[0], redis)];
      assert forall l :: l in template <==> l == template[0] || l in template[1..];
      assert s in Render(template, redis) <==> s in first || s in Render(template[1..], redis);
      Rendered(template[1..], redis, s);
      assert template[0] in template;
    }
  }

  /** Exactly when the lines read are those that the template says: no written line shows a value with a
      line feed in it that is followed by the prefix. */
  lemma TemplateCounted(template: seq<Line>, redis: Redis, p: string)
    requires IsWordBeginning(p) && forall l :: l in template ==> ShowsOneValue(l)
    ensures CountRead(Render(template, redis), p) >= Count(Render(template, redis), p)
    ensures CountRead(Render(template, redis), p) == Count(Render(template, redis), p)
        <==> forall l :: l in template ==> !Brings(l, redis, p)
  {
    FileCounted(Render(template, redis), p);
    forall l | l in template && !Dropped(l, redis)
      ensures Shown(l, redis) in Render(template, redis) && (Carries(Shown(l, redis), p) <==> Brings(l, redis, p))
    {
      Rendered(template, redis, Shown(l, redis));
      LineCarries(l, redis, p);
    }
    forall s | s in Render(template, redis)
      ensures exists l :: l in template && !Dropped(l, redis) && s == Shown(l, redis)
    {
      Rendered(template, redis, s);
    }
  }

  /** A template that shows no value at all is read as it is rendered. */
  predicate ShowsNoValue(line: Line) { WellFormed(line) && line.Slot? && IsSwitchOption(line.words) && IsTail(line.rest) }

  lemma SwitchLineIsOneLine(line: Line, redis: Redis)
    requires ShowsNoValue(line) && !Dropped(line, redis)
    ensures I.OneLine(Shown(line, redis))
  {
    SwitchLeavesNothing(line.key, line.words, redis);
    TailIsBlank(line.rest, redis);
    PlainIsOneLine(line.text);
    assert Shown(line, redis) == line.text + "" + Shown(line.rest, redis);
  }

  lemma SwitchesCounted(template: seq<Line>, redis: Redis, p: string)
    requires IsBeginning(p) && forall l :: l in template ==> ShowsNoValue(l)
    ensures CountRead(Render(template, redis), p) == Count(Render(template, redis), p)
  {
    forall s | s in Render(template, redis) ensures !Carries(s, p) {
      Rendered(template, redis, s);
      var l :| l in template && !Dropped(l, redis) && s == Shown(l, redis);
      SwitchLineIsOneLine(l, redis);
      NothingCarried(s, p);
    }
    FileCounted(Render(template, redis), p);
  }

  // --- the lines of bitcoin.conf and of the firewall rules ----------------------------------------------

  lemma PlainSections(l: Line)
    requires l in BITCOIN_SERVER || l in BITCOIN_OPTIONS || l in BITCOIN_RPC
    ensures l.Slot? && IsTail(l.rest)
  {
    assert l.rest == End("");
  }

  lemma SwitchedSections(l: Line)
    requires l in LISTEN_ONION || l in ONLY_NET || l in PROXY || l in REINDEX
    ensures l.Slot? && IsTail(l.rest)
  {}

  lemma BitcoinShowsOneValue(l: Line)
    requires l in BITCOIN_CONF
    ensures ShowsOneValue(l)
  {
    TemplatesAreWellFormed(BitcoinConf);
    if l in BITCOIN_SERVER || l in BITCOIN_OPTIONS || l in BITCOIN_RPC { PlainSections(l); } else { SwitchedSections(l); }
  }

  lemma RulesShowNoValue(l: Line)
    requires l in IPTABLES_RULES
    ensures ShowsNoValue(l)
  {
    TemplatesAreWellFormed(IptablesRules);
  }

  /** Some line of bitcoin.conf is written and shows a value that carries a line beginning so. */
  predicate BringsLine(redis: Redis, prefix: string) { exists l :: l in BITCOIN_CONF && Brings(l, redis, prefix) }

  /** The lines of a generated file that begin with the prefix. */
  function CountInFile(file: File, redis: Redis, prefix: string): nat {
    CountRead(Render(TemplateOf(file), redis), prefix)
  }

  lemma BitcoinCounted(redis: Redis, p: string)
    requires IsWordBeginning(p)
    ensures CountInFile(BitcoinConf, redis, p) >= Count(Render(BITCOIN_CONF, redis), p)
    ensures CountInFile(BitcoinConf, redis, p) == Count(Render(BITCOIN_CONF, redis), p) <==> !BringsLine(redis, p)
  {
    forall l | l in BITCOIN_CONF ensures ShowsOneValue(l) { BitcoinShowsOneValue(l); }
    TemplateCounted(BITCOIN_CONF, redis, p);
  }

  lemma RulesCounted(redis: Redis, p: string)
    requires IsBeginning(p)
    ensures CountInFile(IptablesRules, redis, p) == Count(Render(IPTABLES_RULES, redis), p)
  {
    forall l | l in IPTABLES_RULES ensures ShowsNoValue(l) { RulesShowNoValue(l); }
    SwitchesCounted(IPTABLES_RULES, redis, p);
  }

  /** No value of these keys contains a line feed. */
  ghost predicate OneLineValues(redis: Redis, keys: set<Key>) { forall k :: k in keys ==> I.OneLine(Get(redis, k)) }

  lemma AnswerIsOneLine(key: Key, words: seq<string>, redis: Redis)
    requires AreWords(words) && I.OneLine(Get(redis, key))
    ensures Ask(key, words, redis).Substitute? ==> I.OneLine(Ask(key, words, redis).text)
  {
    if words != [] {
      JoinIsPlain(words[1..]);
      PlainIsOneLine(Join(words[1..]));
    }
  }

  /** Values without line feeds bring no line. */
  lemma OneLineValuesBringNone(redis: Redis, prefix: string)
    requires OneLineValues(redis, KeysRead(BitcoinConf))
    ensures !BringsLine(redis, prefix)
  {
    TemplatesAreCovered(BitcoinConf);
    forall l | l in BITCOIN_CONF ensures !Brings(l, redis, prefix) {
      BitcoinShowsOneValue(l);
      assert l.key in KeysOf(l);
      AnswerIsOneLine(l.key, l.words, redis);
    }
  }
}
