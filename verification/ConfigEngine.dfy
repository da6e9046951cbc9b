/** What the template engine makes of a template file, character by character, is what
    ConfigTemplates.Render says line by line, however the file spaces its placeholders and whatever
    comments, blank and fixed lines and output specifiers stand in between. */
module ConfigEngine {
  import opened Options
  import opened Text
  import opened C = ConfigTemplates
  import T = Template
  import P = TemplateProofs
  import I = TemplateIdempotence

  /** The characters from space to 'z' include no brace and no line break. */
  predicate IsPlain(s: string) { forall i :: 0 <= i < |s| ==> ' ' <= s[i] <= 'z' }

  predicate IsWord(w: string) { w != "" && forall i :: 0 <= i < |w| ==> '!' <= w[i] <= 'z' }

  predicate AreWords(words: seq<string>) { forall w :: w in words ==> IsWord(w) }

  predicate IsKeyName(name: string) { IsWord(name) && name[0] != '#' }

  predicate WellFormed(line: C.Line) {
    match line
    case End(text) => IsPlain(text)
    case Slot(text, key, words, rest) => IsPlain(text) && IsKeyName(Name(key)) && AreWords(words) && WellFormed(rest)
  }

  /** The store holds what the model's Redis holds, and no value can open a placeholder. */
  ghost predicate Agrees(store: T.Store, redis: Redis, keys: set<Key>) {
    forall k :: k in keys ==> T.Get(store, Name(k)) == Get(redis, k) && T.CannotOpen(Get(redis, k))
  }

  // --- the words of a placeholder --------------------------------------------------------------

  lemma FirstWord(w: string, rest: string)
    requires IsWord(w) && rest != "" && IsSpace(rest[0])
    ensures Fields(w + rest) == [w] + Fields(rest)
  {
    assert forall i :: 0 <= i < |w| ==> (w + rest)[i] == w[i];
    assert (w + rest)[|w|] == rest[0];
    assert WordLength(w + rest) == |w|;
    assert (w + rest)[..|w|] == w && (w + rest)[|w|..] == rest;
  }

  lemma {:induction false} WordsOfJoin(words: seq<string>)
    requires words != [] && AreWords(words)
    ensures Fields(Join(words) + " ") == words
  {
    assert words[0] in words;
    if |words| == 1 {
      FirstWord(words[0], " ");
      assert Fields(" ") == Fields("");
      assert words == [words[0]] + [];
    } else {
      assert words == [words[0]] + words[1..];
      var tail := Join(words[1..]) + " ";
      WordsOfJoin(words[1..]);
      FirstWord(words[0], " " + tail);
      assert (" " + tail)[1..] == tail;
      assert Join(words) + " " == words[0] + (" " + tail);
    }
  }

  lemma WordsOfBody(name: string, words: seq<string>)
    requires IsKeyName(name) && AreWords(words)
    ensures Fields(" " + Join([name] + words) + " ") == [name] + words
  {
    var all := [name] + words;
    WordsOfJoin(all);
    assert " " + Join(all) + " " == " " + (Join(all) + " ");
    assert (" " + (Join(all) + " "))[1..] == Join(all) + " ";
  }

  lemma {:induction false} JoinIsPlain(words: seq<string>)
    requires AreWords(words)
    ensures IsPlain(Join(words))
  {
    if words != [] {
      assert words[0] in words;
      JoinIsPlain(words[1..]);
    }
  }

  // --- how a file spells a line ----------------------------------------------------------------------

  predicate HasNoBreak(s: string) { forall i :: 0 <= i < |s| ==> s[i] != '\n' && s[i] != '\r' }

  predicate IsSpelling(body: string, words: seq<string>) { T.BraceFree(body) && HasNoBreak(body) && Fields(body) == words }

  /** `raw` asks for what the line asks for, with any spacing in its placeholders. */
  predicate Spells(raw: P.Line, line: C.Line) {
    match line
    case End(text) => raw == P.Tail(text)
    case Slot(text, key, words, rest) =>
      raw.Hole? && raw.lit == text && IsSpelling(raw.body, [Name(key)] + words) && Spells(raw.rest, rest)
  }

  /** What is shown: a placeholder that is kept stays as it is spelled. */
  function ShownAs(raw: P.Line, line: C.Line, redis: Redis): string
    requires Spells(raw, line)
  {
    match line
    case End(text) => text
    case Slot(text, key, words, rest) =>
      text
      + (match Ask(key, words, redis)
         case Substitute(value, _) => value
         case _ => T.Placeholder(raw.body))
      + ShownAs(raw.rest, rest, redis)
  }

  lemma SameDecision(body: string, name: string, words: seq<string>, store: T.Store)
    requires Fields(body) == [name] + words && IsKeyName(name)
    ensures var value := T.Get(store, name);
            T.ActionFor(body, store) == if words == [] then T.Decide("", [], value) else T.Decide(words[0], words[1..], value)
  {
    var all := [name] + words;
    assert ToLower(name) != "#output:";
    assert words != [] ==> all[1] == words[0] && all[2..] == words[1..];
  }

  /** The engine asks Redis what the line of the model asks. */
  lemma SameAction(body: string, key: Key, words: seq<string>, store: T.Store, redis: Redis)
    requires IsSpelling(body, [Name(key)] + words) && IsKeyName(Name(key)) && T.Get(store, Name(key)) == Get(redis, key)
    ensures T.ActionFor(body, store) == Ask(key, words, redis)
  {
    SameDecision(body, Name(key), words, store);
  }

  lemma SpelledIsSafe(body: string, name: string, words: seq<string>, store: T.Store)
    requires IsSpelling(body, [name] + words) && T.CannotOpen(T.Get(store, name))
    ensures P.Safe(body, T.ResolverOf(store))
  {
    P.TidyIsSafe(body, store);
  }

  // --- one line ------------------------------------------------------------------------------------

  lemma {:induction false} SpelledIsClean(raw: P.Line, line: C.Line, store: T.Store, redis: Redis)
    requires Spells(raw, line) && WellFormed(line) && Agrees(store, redis, KeysOf(line))
    ensures P.Clean(raw) && P.SafeBodies(P.Bodies(raw), T.ResolverOf(store))
  {
    match line
    case End(text) => P.BraceFreeIsInert(text);
    case Slot(text, key, words, rest) =>
      assert key in KeysOf(line) && KeysOf(rest) <= KeysOf(line);
      P.BraceFreeIsInert(text);
      SpelledIsSafe(raw.body, Name(key), words, store);
      SpelledIsClean(raw.rest, rest, store, redis);
  }

  lemma {:induction false} SameText(raw: P.Line, line: C.Line, store: T.Store, redis: Redis)
    requires Spells(raw, line) && WellFormed(line) && Agrees(store, redis, KeysOf(line))
    ensures P.Flatten(P.Resolved(raw, T.ResolverOf(store))) == ShownAs(raw, line, redis)
  {
    match line
    case End(text) =>
    case Slot(text, key, words, rest) =>
      assert key in KeysOf(line) && KeysOf(rest) <= KeysOf(line);
      SameAction(raw.body, key, words, store, redis);
      SpelledIsSafe(raw.body, Name(key), words, store);
      SameText(raw.rest, rest, store, redis);
      SpelledIsClean(raw.rest, rest, store, redis);
      var act := T.ResolverOf(store);
      P.ResolvedIsClean(raw.rest, act);
      if act(raw.body).Substitute? {
        P.BraceFreeIsInert(text);
        P.InertConcat(text, act(raw.body).text);
        P.PrependKeepsClean(text + act(raw.body).text, P.Resolved(raw.rest, act));
      }
  }

  lemma {:induction false} SameDrop(raw: P.Line, line: C.Line, store: T.Store, redis: Redis)
    requires Spells(raw, line) && WellFormed(line) && Agrees(store, redis, KeysOf(line))
    ensures Dropped(line, redis) <==> exists b :: b in P.Bodies(raw) && T.Drops(b, T.ResolverOf(store))
  {
    match line
    case End(text) =>
    case Slot(text, key, words, rest) =>
      assert key in KeysOf(line) && KeysOf(rest) <= KeysOf(line);
      SameAction(raw.body, key, words, store, redis);
      SameDrop(raw.rest, rest, store, redis);
      assert raw.body in P.Bodies(raw);
      assert T.Drops(raw.body, T.ResolverOf(store)) <==> Ask(key, words, redis).DropLine?;
  }

  lemma LineAgrees(raw: P.Line, line: C.Line, store: T.Store, redis: Redis)
    requires Spells(raw, line) && WellFormed(line) && Agrees(store, redis, KeysOf(line))
    ensures P.SafeBodies(T.FindAll(P.Flatten(raw)), T.ResolverOf(store))
    ensures T.LineOutput(P.Flatten(raw), T.ResolverOf(store))
         == if Dropped(line, redis) then "" else ShownAs(raw, line, redis) + "\n"
  {
    SpelledIsClean(raw, line, store, redis);
    I.FindsBodies(raw);
    SameDrop(raw, line, store, redis);
    P.OnePassIsResolved(raw, T.ResolverOf(store));
    SameText(raw, line, store, redis);
  }

  // --- the whole file ------------------------------------------------------------------------------

  /** A line of a template file: one without a placeholder, the one that names the output file, or one
      that asks for values. */
  datatype Item = Fixed(text: string) | OutputTo(body: string) | Asks(raw: P.Line, line: C.Line)

  predicate IsItem(item: Item) {
    match item
    case Fixed(text) => T.BraceFree(text) && HasNoBreak(text)
    case OutputTo(body) => T.BraceFree(body) && HasNoBreak(body) && Fields(body) != [] && ToLower(Fields(body)[0]) == "#output:"
    case Asks(raw, line) => Spells(raw, line)
  }

  predicate AreItems(items: seq<Item>) { forall i :: i in items ==> IsItem(i) }

  function ItemText(item: Item): string {
    match item
    case Fixed(text) => text
    case OutputTo(body) => T.Placeholder(body)
    case Asks(raw, _) => P.Flatten(raw)
  }

  function FileText(items: seq<Item>): string {
    if items == [] then "" else ItemText(items[0]) + "\n" + FileText(items[1..])
  }

  /** The lines that ask for values. */
  function Asked(items: seq<Item>): seq<C.Line> {
    if items == [] then []
    else (if items[0].Asks? then [items[0].line] else []) + Asked(items[1..])
  }

  function ItemWritten(item: Item, redis: Redis): seq<string>
    requires IsItem(item)
  {
    match item
    case Fixed(text) => [text]
    case OutputTo(_) => []
    case Asks(raw, line) => if Dropped(line, redis) then [] else [ShownAs(raw, line, redis)]
  }

  /** The lines of the generated file. */
  function Written(items: seq<Item>, redis: Redis): seq<string>
    requires AreItems(items)
  {
    if items == [] then [] else ItemWritten(items[0], redis) + Written(items[1..], redis)
  }

  lemma NoBreakJoined(a: string, b: string)
    requires HasNoBreak(a) && HasNoBreak(b)
    ensures HasNoBreak(a + b)
  {}

  lemma {:induction false} SpelledHasNoBreak(raw: P.Line, line: C.Line)
    requires Spells(raw, line) && WellFormed(line)
    ensures HasNoBreak(P.Flatten(raw))
  {
    match line
    case End(_) =>
    case Slot(text, key, words, rest) =>
      SpelledHasNoBreak(raw.rest, rest);
      assert HasNoBreak(T.Placeholder(raw.body));
      NoBreakJoined(text, T.Placeholder(raw.body));
      NoBreakJoined(text + T.Placeholder(raw.body), P.Flatten(raw.rest));
  }

  lemma ItemHasNoBreak(item: Item)
    requires IsItem(item) && (item.Asks? ==> WellFormed(item.line))
    ensures HasNoBreak(ItemText(item))
  {
    if item.Asks? { SpelledHasNoBreak(item.raw, item.line); }
  }

  lemma FixedIsCopied(text: string, act: T.Resolver)
    requires T.BraceFree(text)
    ensures T.FindAll(text) == [] && T.LineOutput(text, act) == text + "\n"
  {
    I.FindsNoPlaceholder(text);
    P.NothingToSubstitute(text, act);
  }

  lemma OutputIsDropped(body: string, store: T.Store)
    requires IsItem(OutputTo(body))
    ensures T.FindAll(T.Placeholder(body)) == [body] && P.Safe(body, T.ResolverOf(store))
    ensures T.LineOutput(T.Placeholder(body), T.ResolverOf(store)) == ""
  {
    assert T.Placeholder(body) + "" == T.Placeholder(body);
    P.FindsHole(body, "");
    assert T.Drops(body, T.ResolverOf(store));
  }

  lemma ItemAgrees(item: Item, store: T.Store, redis: Redis)
    requires IsItem(item) && (item.Asks? ==> WellFormed(item.line) && Agrees(store, redis, KeysOf(item.line)))
    ensures P.SafeBodies(T.FindAll(ItemText(item)), T.ResolverOf(store))
    ensures T.LineOutput(ItemText(item), T.ResolverOf(store)) == I.Unlines(ItemWritten(item, redis))
  {
    var written := ItemWritten(item, redis);
    assert written != [] ==> written[1..] == [] && written[0] + "\n" + "" == written[0] + "\n";
    match item
    case Fixed(text) => FixedIsCopied(text, T.ResolverOf(store));
    case OutputTo(body) => OutputIsDropped(body, store);
    case Asks(raw, line) => LineAgrees(raw, line, store, redis);
  }

  lemma FirstItem(items: seq<Item>)
    requires items != [] && IsItem(items[0]) && (items[0].Asks? ==> WellFormed(items[0].line))
    ensures Lines(FileText(items)) == [ItemText(items[0])] + Lines(FileText(items[1..]))
  {
    ItemHasNoBreak(items[0]);
    I.FirstLine(ItemText(items[0]), FileText(items[1..]));
  }

  predicate AllWellFormed(lines: seq<C.Line>) { forall l :: l in lines ==> WellFormed(l) }

  /** The first item is as the hypotheses about all of them say, and so are the others. */
  lemma ItemsApart(items: seq<Item>, keys: set<Key>)
    requires items != [] && AreItems(items) && AllWellFormed(Asked(items)) && Covered(Asked(items), keys)
    ensures IsItem(items[0]) && (items[0].Asks? ==> WellFormed(items[0].line) && KeysOf(items[0].line) <= keys)
    ensures AreItems(items[1..]) && AllWellFormed(Asked(items[1..])) && Covered(Asked(items[1..]), keys)
  {
    assert items[0] in items && forall i :: i in items[1..] ==> i in items;
    assert items[0].Asks? ==> items[0].line in Asked(items);
    assert forall l :: l in Asked(items[1..]) ==> l in Asked(items);
  }

  lemma {:induction false} UnlinesTogether(a: seq<string>, b: seq<string>)
    ensures I.Unlines(a + b) == I.Unlines(a) + I.Unlines(b)
  {
    if a == [] {
      assert a + b == b;
    } else {
      assert (a + b)[0] == a[0] && (a + b)[1..] == a[1..] + b;
      UnlinesTogether(a[1..], b);
    }
  }

  lemma {:induction false} FileAgrees(items: seq<Item>, keys: set<Key>, store: T.Store, redis: Redis)
    requires AreItems(items) && AllWellFormed(Asked(items)) && Covered(Asked(items), keys) && Agrees(store, redis, keys)
    ensures forall l :: l in Lines(FileText(items)) ==> P.SafeBodies(T.FindAll(l), T.ResolverOf(store))
    ensures T.FileOutput(Lines(FileText(items)), T.ResolverOf(store)) == I.Unlines(Written(items, redis))
  {
    if items != [] {
      ItemsApart(items, keys);
      FirstItem(items);
      ItemAgrees(items[0], store, redis);
      FileAgrees(items[1..], keys, store, redis);
      UnlinesTogether(ItemWritten(items[0], redis), Written(items[1..], redis));
    }
  }

  /** Main result: for every template file of such lines and every store whose values open no placeholder,
      the program copies the lines without a placeholder, leaves out the one that names the output file,
      and writes the others as the model shows them. */
  lemma GenerateIsWritten(items: seq<Item>, keys: set<Key>, store: T.Store, redis: Redis)
    requires AreItems(items) && AllWellFormed(Asked(items)) && Covered(Asked(items), keys) && Agrees(store, redis, keys)
    ensures !T.Generate(FileText(items), store).crashed
    ensures T.Generate(FileText(items), store).output == I.Unlines(Written(items, redis))
  {
    FileAgrees(items, keys, store, redis);
    P.LinesAreOnePass(Lines(FileText(items)), T.FileState("", T.NO_COUNTS, false), T.ResolverOf(store));
  }

  // --- the lines that ask for values, and nothing else -------------------------------------------------

  /** No placeholder of the line is left as it is. */
  predicate KeepsNone(line: C.Line, redis: Redis) {
    line.Slot? ==> !Ask(line.key, line.words, redis).Keep? && KeepsNone(line.rest, redis)
  }

  /** The line as the template file has it. */
  function Printed(line: C.Line): P.Line {
    match line
    case End(text) => P.Tail(text)
    case Slot(text, key, words, rest) => P.Hole(text, Body(key, words), Printed(rest))
  }

  function TemplateText(lines: seq<C.Line>): string {
    if lines == [] then "" else P.Flatten(Printed(lines[0])) + "\n" + TemplateText(lines[1..])
  }

  /** Each line is spelled as the model prints it, or none of its placeholders is left. */
  predicate ShowsAsPrinted(items: seq<Item>, redis: Redis) {
    forall i :: i in items && i.Asks? ==> i.raw == Printed(i.line) || KeepsNone(i.line, redis)
  }

  lemma {:induction false} ShownAsPrinted(raw: P.Line, line: C.Line, redis: Redis)
    requires Spells(raw, line) && !Dropped(line, redis) && (raw == Printed(line) || KeepsNone(line, redis))
    ensures ShownAs(raw, line, redis) == Shown(line, redis)
  {
    match line
    case End(_) =>
    case Slot(text, key, words, rest) =>
      ShownAsPrinted(raw.rest, rest, redis);
  }

  /** Of the lines written, those that come from lines that ask. */
  function AskedWritten(items: seq<Item>, redis: Redis): seq<string>
    requires AreItems(items)
  {
    if items == [] then []
    else (if items[0].Asks? then ItemWritten(items[0], redis) else []) + AskedWritten(items[1..], redis)
  }

  lemma {:induction false} AskedIsRender(items: seq<Item>, redis: Redis)
    requires AreItems(items) && ShowsAsPrinted(items, redis)
    ensures AskedWritten(items, redis) == Render(Asked(items), redis)
  {
    if items != [] {
      assert items[0] in items && forall i :: i in items[1..] ==> i in items;
      AskedIsRender(items[1..], redis);
      if items[0].Asks? {
        var all := Asked(items);
        assert all == [items[0].line] + Asked(items[1..]) && all[1..] == Asked(items[1..]);
        assert [] + Render(all[1..], redis) == Render(all[1..], redis);
        if !Dropped(items[0].line, redis) { ShownAsPrinted(items[0].raw, items[0].line, redis); }
      } else {
        assert Asked(items) == [] + Asked(items[1..]) == Asked(items[1..]);
      }
    }
  }

  lemma PlainIsSpelling(joined: string)
    requires IsPlain(joined)
    ensures T.BraceFree(" " + joined + " ") && HasNoBreak(" " + joined + " ")
  {}

  lemma BodyIsSpelling(name: string, words: seq<string>)
    requires IsKeyName(name) && AreWords(words)
    ensures IsSpelling(" " + Join([name] + words) + " ", [name] + words)
  {
    WordsOfBody(name, words);
    JoinIsPlain([name] + words);
    PlainIsSpelling(Join([name] + words));
  }

  lemma {:induction false} PrintedSpells(line: C.Line)
    requires WellFormed(line)
    ensures Spells(Printed(line), line)
  {
    match line
    case End(_) =>
    case Slot(text, key, words, rest) =>
      BodyIsSpelling(Name(key), words);
      PrintedSpells(rest);
  }

  function Plainly(lines: seq<C.Line>): seq<Item> {
    if lines == [] then [] else [Asks(Printed(lines[0]), lines[0])] + Plainly(lines[1..])
  }

  lemma {:induction false} PlainlyAreItems(lines: seq<C.Line>)
    requires AllWellFormed(lines)
    ensures AreItems(Plainly(lines))
    ensures forall i :: i in Plainly(lines) && i.Asks? ==> i.raw == Printed(i.line)
  {
    if lines != [] {
      assert lines[0] in lines && forall l :: l in lines[1..] ==> l in lines;
      PrintedSpells(lines[0]);
      PlainlyAreItems(lines[1..]);
    }
  }

  lemma {:induction false} PlainlyIsText(lines: seq<C.Line>)
    ensures Asked(Plainly(lines)) == lines && FileText(Plainly(lines)) == TemplateText(lines)
  {
    if lines != [] {
      PlainlyIsText(lines[1..]);
      assert Plainly(lines)[1..] == Plainly(lines[1..]) && lines == [lines[0]] + lines[1..];
    }
  }

  lemma {:induction false} PlainlyIsAsked(lines: seq<C.Line>, redis: Redis)
    requires AreItems(Plainly(lines))
    ensures Written(Plainly(lines), redis) == AskedWritten(Plainly(lines), redis)
  {
    if lines != [] {
      assert Plainly(lines)[1..] == Plainly(lines[1..]) && Plainly(lines)[0].Asks?;
      assert forall i :: i in Plainly(lines[1..]) ==> i in Plainly(lines);
      PlainlyIsAsked(lines[1..], redis);
    }
  }

  /** The same for a file of nothing but lines that ask, printed with single spaces: it is rendered line
      by line. */
  lemma GenerateIsRender(lines: seq<C.Line>, keys: set<Key>, store: T.Store, redis: Redis)
    requires AllWellFormed(lines) && Covered(lines, keys) && Agrees(store, redis, keys)
    ensures !T.Generate(TemplateText(lines), store).crashed
    ensures T.Generate(TemplateText(lines), store).output == I.Unlines(Render(lines, redis))
  {
    PlainlyAreItems(lines);
    PlainlyIsText(lines);
    PlainlyIsAsked(lines, redis);
    GenerateIsWritten(Plainly(lines), keys, store, redis);
    AskedIsRender(Plainly(lines), redis);
  }
}
