/** bbbconfgen: the template engine that generates every configuration file of the Base. */
module Template {
  import opened Options
  import opened Text

  type Store = map<string, string>

  /** redis.String(GET key) with the error ignored: a missing key reads as "". */
  function Get(store: Store, key: string): string {
    if key in store then store[key] else ""
  }

  // --- the placeholder pattern {{(.+?)}} -----------------------------------------------------

  /** Length of the body if the pattern matches at the start of `s`: at least one character,
      then as few as possible up to the first "}}". */
  function MatchLength(s: string): (r: Option<nat>)
    ensures r.Some? ==> 1 <= r.value && r.value + 4 <= |s|
  {
    if |s| < 3 || !("{{" <= s) then None
    else
      match IndexOf(s[3..], "}}")
      case None => None
      case Some(k) => Some(k + 1)
  }

  /** FindAllStringSubmatch: the bodies of all leftmost, non-overlapping matches. */
  function FindAll(s: string): seq<string> {
    if s == "" then []
    else
      match MatchLength(s)
      case Some(n) => [s[2..n + 2]] + FindAll(s[n + 4..])
      case None => FindAll(s[1..])
  }

  function Placeholder(body: string): string { "{{" + body + "}}" }

  // --- what one placeholder asks for ---------------------------------------------------------

  /** The seven placeholder counters of the program. */
  datatype Tally = Replaced | Kept | Removed | LineRemoved | CheckTrue | CheckFalse | Defaulted

  datatype Action =
    | Crash                                    // no field to index: the program panics
    | OutputSpecifier                          // "#output:" leaves the line's loop
    | Substitute(text: string, tally: Tally)   // replace the placeholder everywhere in the line
    | DropLine(tally: Tally)                   // do not write the line
    | Keep                                     // leave the placeholder as it is

  predicate IsFalse(value: string) {
    value == "0" || EqualFold(value, "false") || EqualFold(value, "no") || EqualFold(value, "n") || value == ""
  }

  predicate IsTrue(value: string) {
    value == "1" || EqualFold(value, "true") || EqualFold(value, "yes") || EqualFold(value, "y")
  }

  /** The decision for one option, its arguments and the value Redis returned for the key. */
  function Decide(option: string, arguments: seq<string>, value: string): Action {
    if option == "#check" || option == "#rmLineFalse" then
      if IsFalse(value) then DropLine(CheckFalse) else Substitute("", CheckTrue)
    else if option == "#rmLineTrue" then
      if IsTrue(value) then DropLine(CheckFalse) else Substitute("", CheckTrue)
    else if value != "" then Substitute(value, Replaced)
    else if ToLower(option) == "#rm" then Substitute("", Removed)
    else if ToLower(option) == "#rmline" then DropLine(LineRemoved)
    else if ToLower(option) == "#default:" then Substitute(Join(arguments), Defaulted)
    else Keep
  }

  function ActionFor(body: string, store: Store): Action {
    var fields := Fields(body);
    if fields == [] then Crash
    else if ToLower(fields[0]) == "#output:" then OutputSpecifier
    else if |fields| == 1 then Decide("", [], Get(store, fields[0]))
    else Decide(fields[1], fields[2..], Get(store, fields[0]))
  }

  /** What each placeholder body asks for under a fixed store. */
  type Resolver = string -> Action

  function ResolverOf(store: Store): Resolver { body => ActionFor(body, store) }

  // --- the program: replacing one placeholder after the other --------------------------------

  datatype Counts = Counts(lines: nat, replaced: nat, kept: nat, removed: nat, lineRemoved: nat,
                           checkTrue: nat, checkFalse: nat, defaulted: nat)
  {
    function Bump(tally: Tally): Counts {
      match tally
      case Replaced => this.(replaced := replaced + 1)
      case Kept => this.(kept := kept + 1)
      case Removed => this.(removed := removed + 1)
      case LineRemoved => this.(lineRemoved := lineRemoved + 1)
      case CheckTrue => this.(checkTrue := checkTrue + 1)
      case CheckFalse => this.(checkFalse := checkFalse + 1)
      case Defaulted => this.(defaulted := defaulted + 1)
    }

    /** The value of one placeholder counter. */
    function Of(tally: Tally): nat {
      match tally
      case Replaced => replaced
      case Kept => kept
      case Removed => removed
      case LineRemoved => lineRemoved
      case CheckTrue => checkTrue
      case CheckFalse => checkFalse
      case Defaulted => defaulted
    }

    function PlaceholderTotal(): nat {
      replaced + kept + removed + lineRemoved + checkTrue + checkFalse + defaulted
    }
  }

  const NO_COUNTS := Counts(0, 0, 0, 0, 0, 0, 0, 0)

  /** The variables of the inner loop. */
  datatype LineState = LineState(text: string, printLine: bool, counts: Counts, crashed: bool)

  /** The line after a placeholder that stays in the loop. */
  function NextState(st: LineState, body: string, action: Action): LineState {
    match action
    case Substitute(text, tally) =>
      st.(text := ReplaceAll(st.text, Placeholder(body), text), counts := st.counts.Bump(tally))
    case DropLine(tally) => st.(printLine := false, counts := st.counts.Bump(tally))
    case _ => st.(counts := st.counts.Bump(Kept))
  }

  /** The inner loop over the placeholders found at the start. */
  function RunPlaceholders(bodies: seq<string>, st: LineState, act: Resolver): LineState {
    if bodies == [] then st
    else
      var action := act(bodies[0]);
      if action.Crash? then st.(crashed := true)
      else if action.OutputSpecifier? then st.(printLine := false)
      else RunPlaceholders(bodies[1..], NextState(st, bodies[0], action), act)
  }

  function RunLine(line: string, counts: Counts, act: Resolver): LineState {
    RunPlaceholders(FindAll(line), LineState(line, true, counts, false), act)
  }

  datatype FileState = FileState(output: string, counts: Counts, crashed: bool)

  /** The file after one line. */
  function Written(st: FileState, line: LineState): FileState {
    if line.crashed then FileState(st.output, line.counts, true)
    else if line.printLine then
      FileState(st.output + line.text + "\n", line.counts.(lines := line.counts.lines + 1), false)
    else FileState(st.output, line.counts, false)
  }

  function RunLines(lines: seq<string>, st: FileState, act: Resolver): FileState {
    if lines == [] then st
    else
      var next := Written(st, RunLine(lines[0], st.counts, act));
      if next.crashed then next else RunLines(lines[1..], next, act)
  }

  function Generate(template: string, store: Store): FileState {
    RunLines(Lines(template), FileState("", NO_COUNTS, false), ResolverOf(store))
  }

  // --- what the documentation promises: one simultaneous substitution --------------------------

  /** Each match of the line replaced by its own resolution, in one pass over the line. */
  function OnePass(s: string, act: Resolver): string {
    if s == "" then ""
    else
      match MatchLength(s)
      case Some(n) =>
        (match act(s[2..n + 2])
         case Substitute(text, _) => text
         case _ => Placeholder(s[2..n + 2])) + OnePass(s[n + 4..], act)
      case None => [s[0]] + OnePass(s[1..], act)
  }

  predicate Drops(body: string, act: Resolver) {
    act(body).DropLine? || act(body).OutputSpecifier?
  }

  predicate DropsLine(line: string, act: Resolver) {
    exists b :: b in FindAll(line) && Drops(b, act)
  }

  /** The text a template line contributes to the file. */
  function LineOutput(line: string, act: Resolver): string {
    if DropsLine(line, act) then "" else OnePass(line, act) + "\n"
  }

  function FileOutput(lines: seq<string>, act: Resolver): string {
    if lines == [] then "" else LineOutput(lines[0], act) + FileOutput(lines[1..], act)
  }

  // --- the conditions under which the two agree ------------------------------------------------

  predicate BraceFree(s: string) { forall i :: 0 <= i < |s| ==> s[i] != '{' && s[i] != '}' }

  /** No "{{" begins in the value, whatever follows it. */
  predicate CannotOpen(value: string) {
    && (forall i :: 0 <= i < |value| - 1 ==> !(value[i] == '{' && value[i + 1] == '{'))
    && (value != "" ==> value[|value| - 1] != '{')
  }

  /** A placeholder with at least one field and no brace in it, whose key's value cannot open another. */
  predicate TidyBody(body: string, store: Store) {
    && BraceFree(body)
    && Fields(body) != []
    && CannotOpen(Get(store, Fields(body)[0]))
  }

  predicate TidyTemplate(template: string, store: Store) {
    forall l, b :: l in Lines(template) && b in FindAll(l) ==> TidyBody(b, store)
  }

  // --- the program as written ----------------------------------------------------------------

  /** The inner loop of parseTemplate over the placeholders of one line. */
  method ReplacePlaceholders(line: string, start: Counts, store: Store) returns (st: LineState)
    ensures st == RunLine(line, start, ResolverOf(store))
  {
    var outputLine, printLine, counts := line, true, start;
    var placeholders := FindAll(line);
    var i := 0;
    assert placeholders[0..] == placeholders;
    while i < |placeholders|
      invariant 0 <= i <= |placeholders|
      invariant RunPlaceholders(placeholders[i..], LineState(outputLine, printLine, counts, false), ResolverOf(store))
             == RunLine(line, start, ResolverOf(store))
    {
      assert placeholders[i..][0] == placeholders[i] && placeholders[i..][1..] == placeholders[i + 1..];
      ghost var action := ResolverOf(store)(placeholders[i]);
      ghost var before := LineState(outputLine, printLine, counts, false);
      var placeholder := Placeholder(placeholders[i]);
      var fields := Fields(placeholders[i]);
      if fields == [] {
        return LineState(outputLine, printLine, counts, true);
      }
      if ToLower(fields[0]) == "#output:" {
        return LineState(outputLine, false, counts, false);
      }
      var option, arguments := "", [];
      if |fields| > 1 { option, arguments := fields[1], fields[2..]; }
      var redisVal := Get(store, fields[0]);
      assert action == Decide(option, arguments, redisVal);
      if option == "#check" || option == "#rmLineFalse" {
        if IsFalse(redisVal) {
          printLine, counts := false, counts.Bump(CheckFalse);
        } else {
          outputLine, counts := ReplaceAll(outputLine, placeholder, ""), counts.Bump(CheckTrue);
        }
      } else if option == "#rmLineTrue" {
        if IsTrue(redisVal) {
          printLine, counts := false, counts.Bump(CheckFalse);
        } else {
          outputLine, counts := ReplaceAll(outputLine, placeholder, ""), counts.Bump(CheckTrue);
        }
      } else if redisVal != "" {
        outputLine, counts := ReplaceAll(outputLine, placeholder, redisVal), counts.Bump(Replaced);
      } else if ToLower(option) == "#rm" {
        outputLine, counts := ReplaceAll(outputLine, placeholder, ""), counts.Bump(Removed);
      } else if ToLower(option) == "#rmline" {
        printLine, counts := false, counts.Bump(LineRemoved);
      } else if ToLower(option) == "#default:" {
        outputLine, counts := ReplaceAll(outputLine, placeholder, Join(arguments)), counts.Bump(Defaulted);
      } else {
        counts := counts.Bump(Kept);
      }
      assert LineState(outputLine, printLine, counts, false) == NextState(before, placeholders[i], action);
      i := i + 1;
    }
    st := LineState(outputLine, printLine, counts, false);
  }

  /** parseTemplate: every line through the inner loop, written unless dropped. */
  method ParseTemplate(template: string, store: Store) returns (output: string, counts: Counts, crashed: bool)
    ensures FileState(output, counts, crashed) == Generate(template, store)
  {
    output, counts, crashed := "", NO_COUNTS, false;
    ghost var act := ResolverOf(store);
    var lines := Lines(template);
    assert lines[0..] == lines;
    for n := 0 to |lines|
      invariant !crashed
      invariant RunLines(lines[n..], FileState(output, counts, false), act) == Generate(template, store)
    {
      assert lines[n..][0] == lines[n] && lines[n..][1..] == lines[n + 1..];
      ghost var before := FileState(output, counts, false);
      var line := ReplacePlaceholders(lines[n], counts, store);
      counts := line.counts;
      if line.crashed {
        crashed := true;
        assert Written(before, line) == FileState(output, counts, true);
        return;
      }
      if line.printLine {
        output := output + line.text + "\n";
        counts := counts.(lines := counts.lines + 1);
      }
      assert Written(before, line) == FileState(output, counts, false);
    }
  }
}
