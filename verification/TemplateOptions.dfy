/** What the documentation of bbbconfgen says of each option, letter by letter: the file that one
    placeholder leaves behind, and the one counter that moves. */
module TemplateOptions {
  import opened Options
  import opened Text
  import opened Template
  import opened TemplateProofs
  import opened TemplateIdempotence

  // --- the words, letter by letter ---------------------------------------------------------------

  /** Missing, empty, 0, and false, no or n in any letter case; the long s (U+017F) folds like an s. */
  predicate ReadsFalse(v: string) {
    || v == "" || v == "0"
    || (|v| == 5 && (v[0] == 'f' || v[0] == 'F') && (v[1] == 'a' || v[1] == 'A') && (v[2] == 'l' || v[2] == 'L')
        && (v[3] == 's' || v[3] == 'S' || v[3] == '\U{017F}') && (v[4] == 'e' || v[4] == 'E'))
    || (|v| == 2 && (v[0] == 'n' || v[0] == 'N') && (v[1] == 'o' || v[1] == 'O'))
    || v == "n" || v == "N"
  }

  /** 1, and true, yes or y in any letter case. */
  predicate ReadsTrue(v: string) {
    || v == "1"
    || (|v| == 4 && (v[0] == 't' || v[0] == 'T') && (v[1] == 'r' || v[1] == 'R') && (v[2] == 'u' || v[2] == 'U')
        && (v[3] == 'e' || v[3] == 'E'))
    || (|v| == 3 && (v[0] == 'y' || v[0] == 'Y') && (v[1] == 'e' || v[1] == 'E')
        && (v[2] == 's' || v[2] == 'S' || v[2] == '\U{017F}'))
    || v == "y" || v == "Y"
  }

  predicate SaysRm(o: string) {
    |o| == 3 && o[0] == '#' && (o[1] == 'r' || o[1] == 'R') && (o[2] == 'm' || o[2] == 'M')
  }

  /** The dotted capital I (U+0130) has the lower case i. */
  predicate SaysRmLine(o: string) {
    |o| == 7 && SaysRm(o[..3]) && (o[3] == 'l' || o[3] == 'L') && (o[4] == 'i' || o[4] == 'I' || o[4] == '\U{0130}')
    && (o[5] == 'n' || o[5] == 'N') && (o[6] == 'e' || o[6] == 'E')
  }

  predicate SaysDefault(o: string) {
    |o| == 9 && o[0] == '#' && (o[1] == 'd' || o[1] == 'D') && (o[2] == 'e' || o[2] == 'E') && (o[3] == 'f' || o[3] == 'F')
    && (o[4] == 'a' || o[4] == 'A') && (o[5] == 'u' || o[5] == 'U') && (o[6] == 'l' || o[6] == 'L')
    && (o[7] == 't' || o[7] == 'T') && o[8] == ':'
  }

  predicate SaysOutput(o: string) {
    |o| == 8 && o[0] == '#' && (o[1] == 'o' || o[1] == 'O') && (o[2] == 'u' || o[2] == 'U') && (o[3] == 't' || o[3] == 'T')
    && (o[4] == 'p' || o[4] == 'P') && (o[5] == 'u' || o[5] == 'U') && (o[6] == 't' || o[6] == 'T') && o[7] == ':'
  }

  lemma Folded(c: char, l: char)
    requires 'a' <= l <= 'z' && l != 's' && l != 'k'
    ensures FoldChar(c) == l <==> c == l || c == (l as int - 32) as char
    ensures LowerChar(c) == l <==> c == l || c == (l as int - 32) as char || (l == 'i' && c == '\U{0130}')
  {}

  lemma FoldedS(c: char)
    ensures FoldChar(c) == 's' <==> c == 's' || c == 'S' || c == '\U{017F}'
  {}

  lemma FoldsToFalse(v: string)
    requires |v| == 5
    ensures EqualFold(v, "false") <==> ReadsFalse(v)
  {
    Folded(v[0], 'f'); Folded(v[1], 'a'); Folded(v[2], 'l'); FoldedS(v[3]); Folded(v[4], 'e');
  }

  lemma FoldsToNo(v: string)
    requires 1 <= |v| <= 2
    ensures EqualFold(v, "no") || EqualFold(v, "n") || v == "0" <==> ReadsFalse(v)
  {
    Folded(v[0], 'n');
    if |v| == 2 { Folded(v[1], 'o'); }
  }

  lemma FalseValues(v: string)
    ensures IsFalse(v) <==> ReadsFalse(v)
  {
    if |v| == 5 { FoldsToFalse(v); } else if 1 <= |v| <= 2 { FoldsToNo(v); }
  }

  lemma FoldsToTrue(v: string)
    requires |v| == 4
    ensures EqualFold(v, "true") <==> ReadsTrue(v)
  {
    Folded(v[0], 't'); Folded(v[1], 'r'); Folded(v[2], 'u'); Folded(v[3], 'e');
  }

  lemma FoldsToYes(v: string)
    requires |v| == 3
    ensures EqualFold(v, "yes") <==> ReadsTrue(v)
  {
    Folded(v[0], 'y'); Folded(v[1], 'e'); FoldedS(v[2]);
  }

  lemma TrueValues(v: string)
    ensures IsTrue(v) <==> ReadsTrue(v)
  {
    if |v| == 4 { FoldsToTrue(v); } else if |v| == 3 { FoldsToYes(v); } else if |v| == 1 { Folded(v[0], 'y'); }
  }

  lemma LowersToRm(o: string)
    ensures ToLower(o) == "#rm" <==> SaysRm(o)
  {
    if |o| == 3 { Folded(o[1], 'r'); Folded(o[2], 'm'); }
  }

  lemma LowersToRmLine(o: string)
    ensures ToLower(o) == "#rmline" <==> SaysRmLine(o)
  {
    if |o| == 7 {
      Folded(o[1], 'r'); Folded(o[2], 'm'); Folded(o[3], 'l'); Folded(o[4], 'i'); Folded(o[5], 'n'); Folded(o[6], 'e');
    }
  }

  lemma LowersToDefault(o: string)
    ensures ToLower(o) == "#default:" <==> SaysDefault(o)
  {
    if |o| == 9 {
      Folded(o[1], 'd'); Folded(o[2], 'e'); Folded(o[3], 'f'); Folded(o[4], 'a');
      Folded(o[5], 'u'); Folded(o[6], 'l'); Folded(o[7], 't');
    }
  }

  lemma LowersToOutput(o: string)
    ensures ToLower(o) == "#output:" <==> SaysOutput(o)
  {
    if |o| == 8 {
      Folded(o[1], 'o'); Folded(o[2], 'u'); Folded(o[3], 't'); Folded(o[4], 'p'); Folded(o[5], 'u'); Folded(o[6], 't');
    }
  }

  // --- a file of one line with one placeholder -----------------------------------------------------

  /** Text of one line without a brace. */
  predicate IsText(t: string) { BraceFree(t) && OneLine(t) }

  /** A word of a placeholder. */
  predicate IsWord(w: string) { w != "" && BraceFree(w) && forall i :: 0 <= i < |w| ==> !IsSpace(w[i]) }

  predicate IsKey(k: string) { IsWord(k) && !SaysOutput(k) }

  predicate EndsPlain(t: string) { t == "" || t[|t| - 1] != '\r' }

  function Around(before: string, body: string, behind: string): string { before + (Placeholder(body) + behind) }

  lemma OneLineOf(before: string, body: string, behind: string)
    requires IsText(before) && IsText(body) && IsText(behind) && EndsPlain(behind)
    ensures Lines(Around(before, body, behind)) == [Around(before, body, behind)]
  {
    var line := Around(before, body, behind);
    assert OneLine(Placeholder(body)) && OneLine(line);
    var last := if behind == "" then '}' else behind[|behind| - 1];
    assert line[|line| - 1] == last;
    BreakAt(line);
  }

  lemma BreakAt(s: string)
    ensures IndexOf(s, "\n").Some? ==> s[IndexOf(s, "\n").value] == '\n'
  {
    match IndexOf(s, "\n")
    case None =>
    case Some(k) => assert s[k..k + 1][0] == s[k];
  }

  lemma OnePlaceholder(before: string, body: string, behind: string)
    requires IsText(before) && IsText(body) && body != "" && IsText(behind)
    ensures FindAll(Around(before, body, behind)) == [body]
  {
    BraceFreeIsInert(before);
    InertBefore(before, Placeholder(body) + behind);
    SkipText(before, Placeholder(body) + behind);
    FindsHole(body, behind);
    FindsNoPlaceholder(behind);
  }

  lemma PlaceholderReplaced(before: string, body: string, behind: string, value: string)
    requires IsText(before) && IsText(body) && body != "" && IsText(behind)
    ensures ReplaceAll(Around(before, body, behind), Placeholder(body), value) == before + (value + behind)
  {
    BraceFreeIsInert(before);
    ReplaceBeforeHole(before, Placeholder(body) + behind, body, value);
    ReplaceAtHole(body, behind, body, value);
    FindsNoPlaceholder(behind);
    FindsNothing(behind);
    ReplaceInTail(behind, body, value);
  }

  /** The file that each decision leaves. */
  function FileOf(action: Action, before: string, body: string, behind: string): FileState {
    match action
    case Crash => FileState("", NO_COUNTS, true)
    case OutputSpecifier => FileState("", NO_COUNTS, false)
    case Substitute(value, tally) => FileState(before + (value + behind) + "\n", NO_COUNTS.Bump(tally).(lines := 1), false)
    case DropLine(tally) => FileState("", NO_COUNTS.Bump(tally), false)
    case Keep => FileState(Around(before, body, behind) + "\n", NO_COUNTS.Bump(Kept).(lines := 1), false)
  }

  lemma OneStep(line: string, body: string, act: Resolver)
    requires FindAll(line) == [body]
    ensures RunLine(line, NO_COUNTS, act)
         == var st := LineState(line, true, NO_COUNTS, false);
            if act(body).Crash? then st.(crashed := true)
            else if act(body).OutputSpecifier? then st.(printLine := false)
            else NextState(st, body, act(body))
  {
    var st := LineState(line, true, NO_COUNTS, false);
    assert [body][1..] == [];
    assert RunPlaceholders([], NextState(st, body, act(body)), act) == NextState(st, body, act(body));
  }

  /** The line as the inner loop leaves it, and the file that is then written. */
  lemma OneWritten(before: string, body: string, behind: string, act: Resolver)
    requires IsText(before) && IsText(body) && body != "" && IsText(behind)
    ensures Written(FileState("", NO_COUNTS, false), RunLine(Around(before, body, behind), NO_COUNTS, act))
         == FileOf(act(body), before, body, behind)
  {
    OnePlaceholder(before, body, behind);
    OneStep(Around(before, body, behind), body, act);
    match act(body)
    case Substitute(value, _) =>
      PlaceholderReplaced(before, body, behind, value);
      assert "" + (before + (value + behind)) + "\n" == before + (value + behind) + "\n";
    case _ => assert "" + Around(before, body, behind) + "\n" == Around(before, body, behind) + "\n";
  }

  lemma OnlyLine(line: string, st: FileState, act: Resolver)
    ensures RunLines([line], st, act) == Written(st, RunLine(line, st.counts, act))
  {
    assert [line][1..] == [];
    assert RunLines([], Written(st, RunLine(line, st.counts, act)), act) == Written(st, RunLine(line, st.counts, act));
  }

  lemma OneFile(before: string, body: string, behind: string, store: Store)
    requires IsText(before) && IsText(body) && body != "" && IsText(behind) && EndsPlain(behind)
    ensures Generate(Around(before, body, behind), store) == FileOf(ActionFor(body, store), before, body, behind)
  {
    OneLineOf(before, body, behind);
    OnlyLine(Around(before, body, behind), FileState("", NO_COUNTS, false), ResolverOf(store));
    OneWritten(before, body, behind, ResolverOf(store));
  }

  // --- the words of the placeholder ----------------------------------------------------------------

  lemma FirstField(w: string, rest: string)
    requires IsWord(w) && rest != "" && IsSpace(rest[0])
    ensures Fields(w + rest) == [w] + Fields(rest)
  {
    var s := w + rest;
    assert forall i :: 0 <= i < |w| ==> s[i] == w[i];
    assert s[|w|] == rest[0];
    assert WordLength(s) == |w|;
    assert s[..|w|] == w && s[|w|..] == rest;
  }

  lemma SpaceSkipped(rest: string)
    ensures Fields(" " + rest) == Fields(rest)
  {
    assert (" " + rest)[1..] == rest;
  }

  lemma WordIsText(w: string)
    requires IsWord(w)
    ensures IsText(w)
  {
    assert forall i :: 0 <= i < |w| && w[i] == '\n' ==> IsSpace(w[i]);
  }

  /** The words of a placeholder with a space before each and one at the end. */
  function Spaced(words: seq<string>): string { if words == [] then " " else " " + (words[0] + Spaced(words[1..])) }

  lemma {:induction false} SpacedWords(words: seq<string>)
    requires forall w :: w in words ==> IsWord(w)
    ensures Spaced(words) != "" && Spaced(words)[0] == ' '
    ensures IsText(Spaced(words)) && Fields(Spaced(words)) == words
  {
    if words == [] {
      SpaceSkipped("");
    } else {
      var w, rest := words[0], Spaced(words[1..]);
      assert w in words && words == [w] + words[1..];
      SpacedWords(words[1..]);
      WordIsText(w);
      FirstField(w, rest);
      SpaceSkipped(w + rest);
    }
  }

  lemma OneSpaced(a: string)
    ensures "{{ " + a + " }}" == Placeholder(Spaced([a]))
  {
    assert [a][1..] == [];
    assert Spaced([a]) == " " + (a + " ");
  }

  /** A placeholder with an option, as it is written. */
  function AskingWith(key: string, option: string): string { "{{ " + key + " " + option + " }}" }

  lemma TwoSpaced(a: string, b: string)
    ensures AskingWith(a, b) == Placeholder(Spaced([a, b]))
  {
    assert [a, b][1..] == [b] && [b][1..] == [];
    assert Spaced([b]) == " " + (b + " ");
    assert "{{ " + a + " " + b + " }}" == "{{" + (" " + (a + (" " + (b + " ")))) + "}}";
  }

  /** A placeholder with a default of two words, as it is written. */
  function AskingWithTwo(key: string, option: string, a: string, b: string): string {
    "{{ " + key + " " + option + " " + a + " " + b + " }}"
  }

  lemma FourSpaced(a: string, b: string, c: string, d: string)
    ensures AskingWithTwo(a, b, c, d) == Placeholder(Spaced([a, b, c, d]))
  {
    assert [a, b, c, d][1..] == [b, c, d] && [b, c, d][1..] == [c, d];
    var rest, body := Spaced([c, d]), Spaced([a, b, c, d]);
    assert Spaced([b, c, d]) == " " + (b + rest);
    TwoSpaced(c, d);
    assert Placeholder(rest) == "{{ " + c + " " + d + " }}" && Placeholder(rest)[2..] == rest + "}}";
    assert ("{{ " + c + " " + d + " }}")[2..] == " " + c + " " + d + " }}";
    assert Placeholder(body) == "{{ " + a + " " + b + (rest + "}}");
    assert "{{ " + a + " " + b + (" " + c + " " + d + " }}") == "{{ " + a + " " + b + " " + c + " " + d + " }}";
  }

  predicate IsSetting(before: string, key: string, behind: string) {
    IsText(before) && IsKey(key) && IsText(behind) && EndsPlain(behind)
  }

  predicate IsMissing(store: Store, key: string) { key !in store || store[key] == "" }

  lemma OneAsked(before: string, words: seq<string>, behind: string, store: Store)
    requires IsText(before) && words != [] && (forall w :: w in words ==> IsWord(w)) && IsText(behind) && EndsPlain(behind)
    ensures Generate(before + (Placeholder(Spaced(words)) + behind), store)
         == FileOf(if SaysOutput(words[0]) then OutputSpecifier
                   else Decide(if |words| == 1 then "" else words[1], if |words| == 1 then [] else words[2..],
                               Get(store, words[0])),
                   before, Spaced(words), behind)
  {
    SpacedWords(words);
    LowersToOutput(words[0]);
    OneFile(before, Spaced(words), behind, store);
  }

  lemma AskedWith(before: string, key: string, option: string, behind: string, store: Store)
    requires IsSetting(before, key, behind) && IsWord(option)
    ensures Generate(before + (AskingWith(key, option) + behind), store)
         == FileOf(Decide(option, [], Get(store, key)), before, Spaced([key, option]), behind)
  {
    TwoSpaced(key, option);
    OneAsked(before, [key, option], behind, store);
    assert [key, option][2..] == [];
  }

  lemma Shown(before: string, value: string, behind: string)
    ensures before + (value + behind) + "\n" == before + (value + (behind + "\n"))
    ensures before + ("" + behind) + "\n" == before + (behind + "\n")
  {}

  // --- what each option does -----------------------------------------------------------------------

  /** The options that are looked at whatever the value is. Their letter case matters. */
  predicate IsCondition(option: string) { option == "#check" || option == "#rmLineFalse" || option == "#rmLineTrue" }

  lemma ConditionIsWord(option: string)
    requires IsCondition(option)
    ensures IsWord(option)
  {
    assert forall i :: 0 <= i < |option| ==> '#' <= option[i] <= 'z';
  }

  lemma FalseIsDecided(option: string, value: string)
    requires option == "#check" || option == "#rmLineFalse"
    ensures Decide(option, [], value) == if ReadsFalse(value) then DropLine(CheckFalse) else Substitute("", CheckTrue)
  {
    FalseValues(value);
  }

  lemma TrueIsDecided(option: string, value: string)
    requires option == "#rmLineTrue"
    ensures Decide(option, [], value) == if ReadsTrue(value) then DropLine(CheckFalse) else Substitute("", CheckTrue)
  {
    TrueValues(value);
  }

  lemma FileOfChecked(before: string, body: string, behind: string)
    ensures FileOf(DropLine(CheckFalse), before, body, behind) == FileState("", Counts(0, 0, 0, 0, 0, 0, 1, 0), false)
    ensures FileOf(Substitute("", CheckTrue), before, body, behind)
         == FileState(before + (behind + "\n"), Counts(1, 0, 0, 0, 0, 1, 0, 0), false)
  {
    Shown(before, "", behind);
  }

  /** Main result: a line with #check or #rmLineFalse is left out exactly if the key is missing or its value
      is empty, 0, or false, no or n in any letter case; otherwise it is written without the placeholder. */
  lemma LineUnlessFalse(before: string, key: string, option: string, behind: string, store: Store)
    requires IsSetting(before, key, behind) && (option == "#check" || option == "#rmLineFalse")
    ensures Generate(before + (AskingWith(key, option) + behind), store)
         == if key !in store || ReadsFalse(store[key]) then FileState("", Counts(0, 0, 0, 0, 0, 0, 1, 0), false)
            else FileState(before + (behind + "\n"), Counts(1, 0, 0, 0, 0, 1, 0, 0), false)
  {
    ConditionIsWord(option);
    AskedWith(before, key, option, behind, store);
    FalseIsDecided(option, Get(store, key));
    FileOfChecked(before, Spaced([key, option]), behind);
  }

  /** Main result: a line with #rmLineTrue is left out exactly if the value is 1, or true, yes or y in any
      letter case. */
  lemma LineUnlessTrue(before: string, key: string, option: string, behind: string, store: Store)
    requires IsSetting(before, key, behind) && option == "#rmLineTrue"
    ensures Generate(before + (AskingWith(key, option) + behind), store)
         == if key in store && ReadsTrue(store[key]) then FileState("", Counts(0, 0, 0, 0, 0, 0, 1, 0), false)
            else FileState(before + (behind + "\n"), Counts(1, 0, 0, 0, 0, 1, 0, 0), false)
  {
    ConditionIsWord(option);
    AskedWith(before, key, option, behind, store);
    TrueIsDecided(option, Get(store, key));
    FileOfChecked(before, Spaced([key, option]), behind);
  }

  /** Main result: under every other option, known or not, the placeholder becomes the value if there is one. */
  lemma ValueIsShown(before: string, key: string, option: string, behind: string, store: Store)
    requires IsSetting(before, key, behind) && IsWord(option) && !IsCondition(option) && !IsMissing(store, key)
    ensures Generate(before + (AskingWith(key, option) + behind), store)
         == FileState(before + (store[key] + (behind + "\n")), Counts(1, 1, 0, 0, 0, 0, 0, 0), false)
  {
    AskedWith(before, key, option, behind, store);
    Shown(before, store[key], behind);
  }

  lemma MissingIsDecided(option: string)
    requires !IsCondition(option)
    ensures Decide(option, [], "")
         == if SaysRm(option) then Substitute("", Removed)
            else if SaysRmLine(option) then DropLine(LineRemoved)
            else if SaysDefault(option) then Substitute("", Defaulted)
            else Keep
  {
    LowersToRm(option);
    LowersToRmLine(option);
    LowersToDefault(option);
  }

  lemma OptionTaken(before: string, key: string, option: string, asked: string, behind: string, store: Store)
    requires IsSetting(before, key, behind) && IsWord(option) && !IsCondition(option) && IsMissing(store, key)
    requires asked == Placeholder(Spaced([key, option]))
    ensures Generate(before + (asked + behind), store) == FileOf(Decide(option, [], ""), before, Spaced([key, option]), behind)
  {
    OneAsked(before, [key, option], behind, store);
    assert [key, option][2..] == [];
  }

  /** Main result: without a value, and in any letter case, #rm leaves nothing in its place, #rmLine leaves the
      line out, #default: with no words behind it leaves nothing either, and any other option leaves the
      placeholder as it is. */
  lemma OptionIsTaken(before: string, key: string, option: string, behind: string, store: Store)
    requires IsSetting(before, key, behind) && IsWord(option) && !IsCondition(option) && IsMissing(store, key)
    ensures var line := before + (AskingWith(key, option) + behind);
            Generate(line, store) ==
            if SaysRm(option) then FileState(before + (behind + "\n"), Counts(1, 0, 0, 1, 0, 0, 0, 0), false)
            else if SaysRmLine(option) then FileState("", Counts(0, 0, 0, 0, 1, 0, 0, 0), false)
            else if SaysDefault(option) then FileState(before + (behind + "\n"), Counts(1, 0, 0, 0, 0, 0, 0, 1), false)
            else FileState(line + "\n", Counts(1, 0, 1, 0, 0, 0, 0, 0), false)
  {
    var asked := AskingWith(key, option);
    TwoSpaced(key, option);
    OptionTaken(before, key, option, asked, behind, store);
    MissingIsDecided(option);
    FileOfMissing(before, asked, Spaced([key, option]), behind);
  }

  lemma FileOfMissing(before: string, asked: string, body: string, behind: string)
    requires asked == Placeholder(body)
    ensures FileOf(Substitute("", Removed), before, body, behind)
         == FileState(before + (behind + "\n"), Counts(1, 0, 0, 1, 0, 0, 0, 0), false)
    ensures FileOf(DropLine(LineRemoved), before, body, behind) == FileState("", Counts(0, 0, 0, 0, 1, 0, 0, 0), false)
    ensures FileOf(Substitute("", Defaulted), before, body, behind)
         == FileState(before + (behind + "\n"), Counts(1, 0, 0, 0, 0, 0, 0, 1), false)
    ensures FileOf(Keep, before, body, behind)
         == FileState(before + (asked + behind) + "\n", Counts(1, 0, 1, 0, 0, 0, 0, 0), false)
  {
    Shown(before, "", behind);
  }

  lemma DefaultIsDecided(option: string, a: string, b: string, value: string)
    requires SaysDefault(option)
    ensures Decide(option, [a, b], value)
         == if value == "" then Substitute(a + " " + b, Defaulted) else Substitute(value, Replaced)
  {
    LowersToDefault(option);
    LowersToRm(option);
    LowersToRmLine(option);
    assert !IsCondition(option);
    assert !SaysRm(option) && !SaysRmLine(option);
    assert [a, b][1..] == [b] && Join([b]) == b;
    assert Join([a, b]) == a + " " + b;
  }

  lemma DefaultIsAsked(body: string, key: string, option: string, a: string, b: string, store: Store)
    requires Fields(body) == [key, option, a, b] && !SaysOutput(key) && SaysDefault(option)
    ensures ActionFor(body, store)
         == if IsMissing(store, key) then Substitute(a + " " + b, Defaulted) else Substitute(store[key], Replaced)
  {
    LowersToOutput(key);
    DefaultIsDecided(option, a, b, Get(store, key));
    assert [key, option, a, b][2..] == [a, b];
  }

  lemma FileOfDefault(before: string, body: string, behind: string, shown: string, tally: Tally)
    requires tally == Defaulted || tally == Replaced
    ensures FileOf(Substitute(shown, tally), before, body, behind)
         == FileState(before + (shown + (behind + "\n")),
                      if tally == Defaulted then Counts(1, 0, 0, 0, 0, 0, 0, 1) else Counts(1, 1, 0, 0, 0, 0, 0, 0), false)
  {
    Shown(before, shown, behind);
  }

  lemma FourAreText(key: string, option: string, a: string, b: string)
    requires IsWord(key) && IsWord(option) && IsWord(a) && IsWord(b)
    ensures var body := Spaced([key, option, a, b]); IsText(body) && body != "" && Fields(body) == [key, option, a, b]
  {
    SpacedWords([key, option, a, b]);
  }

  /** Main result: the words behind #default: stand in for a missing value, with one space between them. */
  lemma ValueOrDefault(before: string, key: string, option: string, a: string, b: string, behind: string, store: Store)
    requires IsSetting(before, key, behind) && IsWord(option) && SaysDefault(option) && IsWord(a) && IsWord(b)
    ensures Generate(before + (AskingWithTwo(key, option, a, b) + behind), store)
         == if IsMissing(store, key)
            then FileState(before + (a + " " + b + (behind + "\n")), Counts(1, 0, 0, 0, 0, 0, 0, 1), false)
            else FileState(before + (store[key] + (behind + "\n")), Counts(1, 1, 0, 0, 0, 0, 0, 0), false)
  {
    FourSpaced(key, option, a, b);
    FourAreText(key, option, a, b);
    DefaultFile(before, AskingWithTwo(key, option, a, b), Spaced([key, option, a, b]), key, option, a, b, behind, store);
  }

  lemma DefaultFile(before: string, asked: string, body: string, key: string, option: string, a: string, b: string,
                    behind: string, store: Store)
    requires IsSetting(before, key, behind) && SaysDefault(option) && asked == Placeholder(body)
    requires IsText(body) && body != "" && Fields(body) == [key, option, a, b]
    ensures Generate(before + (asked + behind), store)
         == if IsMissing(store, key)
            then FileState(before + (a + " " + b + (behind + "\n")), Counts(1, 0, 0, 0, 0, 0, 0, 1), false)
            else FileState(before + (store[key] + (behind + "\n")), Counts(1, 1, 0, 0, 0, 0, 0, 0), false)
  {
    OneFile(before, body, behind, store);
    DefaultIsAsked(body, key, option, a, b, store);
    if IsMissing(store, key) {
      FileOfDefault(before, body, behind, a + " " + b, Defaulted);
    } else {
      FileOfDefault(before, body, behind, store[key], Replaced);
    }
  }

  /** Main result: a placeholder of one word becomes the value, or stays. If the word is #output: in any
      letter case, the line is left out and nothing is counted. */
  lemma ValueOrKept(before: string, word: string, behind: string, store: Store)
    requires IsText(before) && IsWord(word) && IsText(behind) && EndsPlain(behind)
    ensures var line := before + ("{{ " + word + " }}" + behind);
            Generate(line, store) ==
            if SaysOutput(word) then FileState("", Counts(0, 0, 0, 0, 0, 0, 0, 0), false)
            else if IsMissing(store, word) then FileState(line + "\n", Counts(1, 0, 1, 0, 0, 0, 0, 0), false)
            else FileState(before + (store[word] + (behind + "\n")), Counts(1, 1, 0, 0, 0, 0, 0, 0), false)
  {
    OneSpaced(word);
    OneAsked(before, [word], behind, store);
    if !IsMissing(store, word) { Shown(before, store[word], behind); }
  }

  /** A placeholder without a word makes the program panic. */
  lemma BlankPanics(before: string, behind: string, store: Store)
    requires IsText(before) && IsText(behind) && EndsPlain(behind)
    ensures Generate(before + ("{{ }}" + behind), store) == FileState("", Counts(0, 0, 0, 0, 0, 0, 0, 0), true)
  {
    OneFile(before, " ", behind, store);
    SpaceSkipped("");
    assert "{{ }}" == Placeholder(" ");
  }

  /** The panic ends the program: what stands behind it in the template is neither read nor written. */
  lemma PanicEnds(before: string, behind: string, rest: string, store: Store)
    requires IsText(before) && IsText(behind) && EndsPlain(behind)
    ensures Generate(before + ("{{ }}" + behind) + "\n" + rest, store) == FileState("", Counts(0, 0, 0, 0, 0, 0, 0, 0), true)
  {
    var line, act := Around(before, " ", behind), ResolverOf(store);
    assert "{{ }}" == Placeholder(" ");
    assert OneLine(Placeholder(" ")) && OneLine(line);
    var last := if behind == "" then '}' else behind[|behind| - 1];
    assert line[|line| - 1] == last;
    FirstLine(line, rest);
    SpaceSkipped("");
    OneWritten(before, " ", behind, act);
    assert ([line] + Lines(rest))[1..] == Lines(rest);
  }

  /** The code points that separate the words of a placeholder: those with the Unicode property White_Space. */
  lemma WhiteSpace(c: char)
    ensures IsSpace(c)
        <==> var n := c as int;
             9 <= n <= 13 || n == 32 || n == 133 || n == 160 || n == 5760 || 8192 <= n <= 8202
             || n == 8232 || n == 8233 || n == 8239 || n == 8287 || n == 12288
  {}
}
