/** redis-pipe.sh: a file of Redis commands, one per line, turned into the Redis serialization
    protocol (sections "Arrays" and "Bulk strings" of its specification) for mass insertion. */
module RespPipe {
  import opened Options
  import opened Decimal
  import opened Text

  // --- what the shell makes of the text ----------------------------------------------------------

  /** The default field separators of the shell. */
  predicate IsBlank(c: char) { c == ' ' || c == '\t' || c == '\n' }

  function WordEnd(s: string): (n: nat)
    ensures n <= |s|
    ensures forall i :: 0 <= i < n ==> !IsBlank(s[i])
    ensures n < |s| ==> IsBlank(s[n])
  {
    if s == "" || IsBlank(s[0]) then 0 else 1 + WordEnd(s[1..])
  }

  /** Field splitting: the maximal runs of characters that are not blank. */
  function Words(s: string): seq<string> {
    if s == "" then []
    else if IsBlank(s[0]) then Words(s[1..])
    else [s[..WordEnd(s)]] + Words(s[WordEnd(s)..])
  }

  function TrimLeft(s: string): string { if s != "" && IsBlank(s[0]) then TrimLeft(s[1..]) else s }

  function TrimRight(s: string): string {
    if s != "" && IsBlank(s[|s| - 1]) then TrimRight(s[..|s| - 1]) else s
  }

  /** The commands of a text: the words of every line that ends in a line feed. */
  function Commands(text: string): seq<seq<string>> {
    match IndexOf(text, "\n")
    case None => []
    case Some(k) => [Words(text[..k])] + Commands(text[k + 1..])
  }

  // --- the protocol ------------------------------------------------------------------------------

  function Bulk(word: string): string { "$" + Digits(|word|) + "\r\n" + word + "\r\n" }

  function Bulks(words: seq<string>): string {
    if words == [] then "" else Bulk(words[0]) + Bulks(words[1..])
  }

  function Command(words: seq<string>): string { "*" + Digits(|words|) + "\r\n" + Bulks(words) }

  function Encoded(commands: seq<seq<string>>): string {
    if commands == [] then "" else Command(commands[0]) + Encoded(commands[1..])
  }

  /** Number of leading decimal digits. */
  function DigitRun(s: string): (n: nat)
    ensures n <= |s| && AllDigits(s[..n])
    ensures n < |s| ==> !IsDigit(s[n])
  {
    if s == "" || !IsDigit(s[0]) then 0 else 1 + DigitRun(s[1..])
  }

  datatype Read<T> = Read(value: T, rest: string)

  /** A type byte, a decimal number and CR LF. */
  function ReadNumber(tag: char, s: string): (r: Option<Read<nat>>)
    ensures r.Some? ==> |r.value.rest| < |s|
  {
    if s == "" || s[0] != tag then None
    else
      var n := DigitRun(s[1..]);
      if n == 0 || !("\r\n" <= s[n + 1..]) then None
      else Some(Read(Value(s[1..][..n]), s[n + 3..]))
  }

  /** `count` bulk strings. */
  function ReadBulks(count: nat, s: string): (r: Option<Read<seq<string>>>)
    ensures r.Some? ==> |r.value.rest| <= |s|
    decreases count
  {
    if count == 0 then Some(Read([], s))
    else
      match ReadNumber('$', s)
      case None => None
      case Some(Read(length, rest)) =>
        if |rest| < length + 2 || rest[length..length + 2] != "\r\n" then None
        else
          match ReadBulks(count - 1, rest[length + 2..])
          case None => None
          case Some(Read(words, rest')) => Some(Read([rest[..length]] + words, rest'))
  }

  /** A server reading the stream: arrays of bulk strings, one after the other. */
  function Decode(s: string): Option<seq<seq<string>>>
    decreases |s|
  {
    if s == "" then Some([])
    else
      match ReadNumber('*', s)
      case None => None
      case Some(Read(count, rest)) =>
        match ReadBulks(count, rest)
        case None => None
        case Some(Read(words, rest')) =>
          match Decode(rest')
          case None => None
          case Some(commands) => Some([words] + commands)
  }

  // --- the script ----------------------------------------------------------------------------------

  /** What the shell makes of an unquoted word: the names of the files it matches, if it is a pattern
      and matches any, and the word itself otherwise. */
  type Expansion = string -> seq<string>

  predicate IsGlob(w: string) { '*' in w || '?' in w || '[' in w }

  /** Only patterns are expanded, and none to nothing: one without a match is left as it is. */
  ghost predicate IsShell(expand: Expansion) { forall w :: expand(w) != [] && (!IsGlob(w) ==> expand(w) == [w]) }

  function Expanded(words: seq<string>, expand: Expansion): seq<string> {
    if words == [] then [] else expand(words[0]) + Expanded(words[1..], expand)
  }

  function AllExpanded(commands: seq<seq<string>>, expand: Expansion): seq<seq<string>> {
    if commands == [] then [] else [Expanded(commands[0], expand)] + AllExpanded(commands[1..], expand)
  }

  /** The commands that the script sends for a text. */
  function Sent(text: string, expand: Expansion): seq<seq<string>> { AllExpanded(Commands(text), expand) }

  /** Characters stand for bytes, in whatever encoding the text has; there is no zero byte. */
  predicate IsBytes(text: string) { forall i :: 0 <= i < |text| ==> '\U{0001}' <= text[i] <= '\U{00FF}' }

  lemma TrimmedLeft(s: string)
    ensures Words(TrimLeft(s)) == Words(s)
  {}

  lemma {:induction false} BlankAtEnd(s: string, c: char)
    requires IsBlank(c)
    ensures Words(s + [c]) == Words(s)
  {
    if s == "" {
      assert (s + [c])[1..] == "";
    } else if IsBlank(s[0]) {
      assert (s + [c])[1..] == s[1..] + [c];
      BlankAtEnd(s[1..], c);
    } else {
      var n := WordEnd(s);
      WordEndAppended(s, c);
      assert (s + [c])[..n] == s[..n] && (s + [c])[n..] == s[n..] + [c];
      BlankAtEnd(s[n..], c);
    }
  }

  lemma {:induction false} WordEndAppended(s: string, c: char)
    requires IsBlank(c)
    ensures WordEnd(s + [c]) == WordEnd(s)
  {
    if s != "" && !IsBlank(s[0]) {
      assert (s + [c])[1..] == s[1..] + [c];
      WordEndAppended(s[1..], c);
    }
  }

  lemma {:induction false} TrimmedRight(s: string)
    ensures Words(TrimRight(s)) == Words(s)
  {
    if s != "" && IsBlank(s[|s| - 1]) {
      assert s == s[..|s| - 1] + [s[|s| - 1]];
      BlankAtEnd(s[..|s| - 1], s[|s| - 1]);
      TrimmedRight(s[..|s| - 1]);
    }
  }

  lemma {:induction false} EncodedTogether(a: seq<seq<string>>, b: seq<seq<string>>)
    ensures Encoded(a + b) == Encoded(a) + Encoded(b)
  {
    if a == [] {
      assert a + b == b;
    } else {
      assert (a + b)[0] == a[0] && (a + b)[1..] == a[1..] + b;
      EncodedTogether(a[1..], b);
    }
  }

  lemma {:induction false} BulksTogether(a: seq<string>, b: seq<string>)
    ensures Bulks(a + b) == Bulks(a) + Bulks(b)
  {
    if a == [] {
      assert a + b == b;
    } else {
      assert (a + b)[0] == a[0] && (a + b)[1..] == a[1..] + b;
      BulksTogether(a[1..], b);
    }
  }

  lemma OneBulk(word: string)
    ensures Bulks([word]) == Bulk(word)
  {
    assert [word][1..] == [];
  }

  lemma {:induction false} ExpandedTogether(a: seq<string>, b: seq<string>, expand: Expansion)
    ensures Expanded(a + b, expand) == Expanded(a, expand) + Expanded(b, expand)
  {
    if a == [] {
      assert a + b == b;
    } else {
      assert (a + b)[0] == a[0] && (a + b)[1..] == a[1..] + b;
      ExpandedTogether(a[1..], b, expand);
      RegroupWords(expand(a[0]), Expanded(a[1..], expand), Expanded(b, expand));
    }
  }

  lemma RegroupWords(a: seq<string>, b: seq<string>, c: seq<string>)
    ensures a + (b + c) == (a + b) + c
  {}

  lemma {:induction false} AllExpandedTogether(a: seq<seq<string>>, b: seq<seq<string>>, expand: Expansion)
    ensures AllExpanded(a + b, expand) == AllExpanded(a, expand) + AllExpanded(b, expand)
  {
    if a == [] {
      assert a + b == b;
    } else {
      assert (a + b)[0] == a[0] && (a + b)[1..] == a[1..] + b;
      AllExpandedTogether(a[1..], b, expand);
    }
  }

  /** Field splitting and pathname expansion of an unquoted variable. */
  method Split(cmd: string, expand: Expansion) returns (words: seq<string>)
    ensures words == Expanded(Words(cmd), expand)
  {
    var fields := Words(cmd);
    words := [];
    for i := 0 to |fields|
      invariant words == Expanded(fields[..i], expand)
    {
      ExpandedTogether(fields[..i], [fields[i]], expand);
      assert fields[..i + 1] == fields[..i] + [fields[i]] && [fields[i]][1..] == [];
      assert expand(fields[i]) + [] == expand(fields[i]);
      words := words + expand(fields[i]);
    }
    assert fields[..|fields|] == fields;
  }

  /** The body of the loop: one command printed. */
  method PrintCommand(cmd: string, expand: Expansion) returns (printed: string)
    ensures printed == Command(Expanded(Words(cmd), expand))
  {
    var words := Split(cmd, expand);
    printed := "*" + Digits(|words|) + "\r\n";
    ghost var head := printed;
    for i := 0 to |words|
      invariant printed == head + Bulks(words[..i])
    {
      BulksTogether(words[..i], [words[i]]);
      OneBulk(words[i]);
      assert words[..i + 1] == words[..i] + [words[i]];
      printed := printed + ("$" + Digits(|words[i]|) + "\r\n" + words[i] + "\r\n");
    }
    assert words[..|words|] == words;
  }

  lemma OneMore(done: seq<seq<string>>, words: seq<string>, rest: seq<seq<string>>, expand: Expansion)
    ensures done + ([words] + rest) == (done + [words]) + rest
    ensures Encoded(AllExpanded(done + [words], expand))
         == Encoded(AllExpanded(done, expand)) + Command(Expanded(words, expand))
  {
    AllExpandedTogether(done, [words], expand);
    assert [words][1..] == [] && AllExpanded([words], expand) == [Expanded(words, expand)];
    EncodedTogether(AllExpanded(done, expand), [Expanded(words, expand)]);
    OneEncoded(Expanded(words, expand));
  }

  lemma OneEncoded(words: seq<string>)
    ensures Encoded([words]) == Command(words)
  {
    assert [words][1..] == [];
  }

  /** `read` strips blanks at both ends of a line. */
  method ReadLine(line: string) returns (cmd: string)
    ensures Words(cmd) == Words(line)
  {
    cmd := TrimRight(TrimLeft(line));
    TrimmedLeft(line);
    TrimmedRight(TrimLeft(line));
  }

  /** The script: lines are taken up to their line feed as long as there is one. A server that decodes
      the output gets the commands of the text, their words expanded. */
  method RedisPipe(text: string, expand: Expansion) returns (output: string)
    requires IsBytes(text)
    ensures output == Encoded(Sent(text, expand)) && Decode(output) == Some(Sent(text, expand))
  {
    output := "";
    var input := text;
    ghost var done: seq<seq<string>> := [];
    while IndexOf(input, "\n").Some?
      invariant Commands(text) == done + Commands(input)
      invariant output == Encoded(AllExpanded(done, expand))
      decreases |input|
    {
      var k := IndexOf(input, "\n").value;
      var cmd := ReadLine(input[..k]);
      var printed := PrintCommand(cmd, expand);
      OneMore(done, Words(input[..k]), Commands(input[k + 1..]), expand);
      output := output + printed;
      done := done + [Words(input[..k])];
      input := input[k + 1..];
    }
    assert done + [] == done;
    DecodesEncoded(Sent(text, expand));
  }

  // --- round trips -----------------------------------------------------------------------------------

  lemma {:induction false} DigitRunOf(d: string, rest: string)
    requires AllDigits(d) && rest != "" && !IsDigit(rest[0])
    ensures DigitRun(d + rest) == |d|
  {
    if d == "" {
      assert d + rest == rest;
    } else {
      assert (d + rest)[1..] == d[1..] + rest;
      DigitRunOf(d[1..], rest);
    }
  }

  lemma ReadsNumber(tag: char, n: nat, rest: string)
    ensures ReadNumber(tag, [tag] + Digits(n) + "\r\n" + rest) == Some(Read(n, rest))
  {
    var d := Digits(n);
    var s := [tag] + d + "\r\n" + rest;
    assert s[1..] == d + ("\r\n" + rest);
    DigitRunOf(d, "\r\n" + rest);
    assert s[1..][..|d|] == d;
    assert s[|d| + 1..] == "\r\n" + rest && s[|d| + 3..] == rest;
    ValueOfDigits(n);
  }

  lemma BulkInParts(word: string, more: string)
    ensures Bulk(word) + more == ['$'] + Digits(|word|) + "\r\n" + (word + "\r\n" + more)
  {
    var head := "$" + Digits(|word|) + "\r\n";
    Regroup(head + word, "\r\n", more);
    Regroup(head, word, "\r\n" + more);
    Regroup(word, "\r\n", more);
  }

  lemma ReadsContent(word: string, more: string)
    ensures var t := word + "\r\n" + more;
            |t| >= |word| + 2 && t[..|word|] == word && t[|word|..|word| + 2] == "\r\n" && t[|word| + 2..] == more
  {}

  lemma ReadsOneBulk(w: string, count: nat, more: string)
    ensures ReadBulks(count + 1, Bulk(w) + more)
         == match ReadBulks(count, more)
            case None => None
            case Some(Read(words, rest)) => Some(Read([w] + words, rest))
  {
    BulkInParts(w, more);
    ReadsNumber('$', |w|, w + "\r\n" + more);
    ReadsContent(w, more);
  }

  lemma {:induction false} ReadsBulks(words: seq<string>, rest: string)
    ensures ReadBulks(|words|, Bulks(words) + rest) == Some(Read(words, rest))
  {
    if words == [] {
      assert Bulks(words) + rest == rest;
    } else {
      var w, more := words[0], Bulks(words[1..]) + rest;
      Regroup(Bulk(w), Bulks(words[1..]), rest);
      ReadsOneBulk(w, |words| - 1, more);
      ReadsBulks(words[1..], rest);
      assert words == [w] + words[1..];
    }
  }

  /** Main result: the protocol stream decodes to exactly the commands, whatever their words are and
      however many there are; a command without words is an empty array. */
  lemma {:induction false} DecodesEncoded(commands: seq<seq<string>>)
    ensures Decode(Encoded(commands)) == Some(commands)
  {
    if commands != [] {
      var words, more := commands[0], Encoded(commands[1..]);
      var s := Encoded(commands);
      assert s == ['*'] + Digits(|words|) + "\r\n" + (Bulks(words) + more);
      ReadsNumber('*', |words|, Bulks(words) + more);
      ReadsBulks(words, more);
      DecodesEncoded(commands[1..]);
      assert commands == [words] + commands[1..];
    }
  }

  predicate IsWord(w: string) { w != "" && forall i :: 0 <= i < |w| ==> !IsBlank(w[i]) }

  predicate AreCommands(commands: seq<seq<string>>) { forall c, w :: c in commands && w in c ==> IsWord(w) }

  /** The text file: one command per line, its words separated by one space. */
  function Printed(commands: seq<seq<string>>): string {
    if commands == [] then "" else Join(commands[0]) + "\n" + Printed(commands[1..])
  }

  lemma FirstWordOf(w: string, rest: string)
    requires IsWord(w) && (rest == "" || IsBlank(rest[0]))
    ensures Words(w + rest) == [w] + Words(rest)
  {
    WordEndOf(w, rest);
    assert (w + rest)[..|w|] == w && (w + rest)[|w|..] == rest;
  }

  lemma {:induction false} WordEndOf(w: string, rest: string)
    requires (forall i :: 0 <= i < |w| ==> !IsBlank(w[i])) && (rest == "" || IsBlank(rest[0]))
    ensures WordEnd(w + rest) == |w|
  {
    if w == "" {
      assert w + rest == rest;
    } else {
      assert (w + rest)[1..] == w[1..] + rest;
      WordEndOf(w[1..], rest);
    }
  }

  lemma {:induction false} WordsOfJoined(words: seq<string>)
    requires forall w :: w in words ==> IsWord(w)
    ensures Words(Join(words)) == words
  {
    if words != [] {
      assert words[0] in words;
      if |words| == 1 {
        FirstWordOf(words[0], "");
        assert words[0] + "" == words[0];
      } else {
        var tail := Join(words[1..]);
        WordsOfJoined(words[1..]);
        FirstWordOf(words[0], " " + tail);
        assert (" " + tail)[1..] == tail;
        Regroup(words[0], " ", tail);
      }
    }
  }

  lemma {:induction false} JoinedHasNoBreak(words: seq<string>)
    requires forall w :: w in words ==> IsWord(w)
    ensures forall i :: 0 <= i < |Join(words)| ==> Join(words)[i] != '\n'
  {
    if words != [] {
      assert words[0] in words;
      JoinedHasNoBreak(words[1..]);
    }
  }

  lemma BreakFound(text: string)
    ensures IndexOf(text, "\n").Some? ==> text[IndexOf(text, "\n").value] == '\n'
  {
    match IndexOf(text, "\n")
    case None =>
    case Some(k) => assert text[k..k + 1] == "\n" && text[k..k + 1][0] == text[k];
  }

  lemma CommandsOfLine(line: string, rest: string)
    requires forall i :: 0 <= i < |line| ==> line[i] != '\n'
    ensures Commands(line + "\n" + rest) == [Words(line)] + Commands(rest)
  {
    var text := line + "\n" + rest;
    assert text[|line|..][0] == '\n';
    assert "\n" <= text[|line|..];
    BreakFound(text);
    assert text[..|line|] == line && text[|line| + 1..] == rest;
  }

  lemma CommandsTail(commands: seq<seq<string>>)
    requires commands != [] && AreCommands(commands)
    ensures AreCommands(commands[1..]) && commands == [commands[0]] + commands[1..]
    ensures forall w :: w in commands[0] ==> IsWord(w)
  {
    assert commands[0] in commands && forall c :: c in commands[1..] ==> c in commands;
  }

  lemma {:induction false} CommandsOfPrinted(commands: seq<seq<string>>)
    requires AreCommands(commands)
    ensures Commands(Printed(commands)) == commands
  {
    if commands != [] {
      CommandsTail(commands);
      WordsOfJoined(commands[0]);
      JoinedHasNoBreak(commands[0]);
      CommandsOfLine(Join(commands[0]), Printed(commands[1..]));
      CommandsOfPrinted(commands[1..]);
    }
  }

  /** Every word is expanded to itself. */
  predicate NothingExpanded(commands: seq<seq<string>>, expand: Expansion) {
    forall c, w :: c in commands && w in c ==> expand(w) == [w]
  }

  /** Expansion makes a command longer or leaves its number of words, and changes nothing only if it
      changes no word. */
  lemma {:induction false} ExpandedSame(words: seq<string>, expand: Expansion)
    requires IsShell(expand)
    ensures |Expanded(words, expand)| >= |words|
    ensures Expanded(words, expand) == words <==> forall w :: w in words ==> expand(w) == [w]
  {
    if words != [] {
      var w, rest := words[0], words[1..];
      assert words == [w] + rest && w in words && expand(w) != [];
      ExpandedSame(rest, expand);
      var now := expand(w) + Expanded(rest, expand);
      if now == words {
        assert |expand(w)| == 1 && now[0] == expand(w)[0] && now[1..] == Expanded(rest, expand);
        assert expand(w) == [w];
      }
    }
  }

  lemma {:induction false} AllExpandedSame(commands: seq<seq<string>>, expand: Expansion)
    requires IsShell(expand)
    ensures AllExpanded(commands, expand) == commands <==> NothingExpanded(commands, expand)
  {
    if commands != [] {
      var c, rest := commands[0], commands[1..];
      assert commands == [c] + rest && c in commands;
      assert forall d :: d in commands <==> d == c || d in rest;
      ExpandedSame(c, expand);
      AllExpandedSame(rest, expand);
      var now := AllExpanded(commands, expand);
      assert now[0] == Expanded(c, expand) && now[1..] == AllExpanded(rest, expand);
    }
  }

  /** Main result: run on a text file of commands, the script sends the server those commands if and only
      if the shell expands every word of theirs to that word alone; words without glob characters always
      are. */
  lemma PipeRoundTrip(commands: seq<seq<string>>, expand: Expansion)
    requires AreCommands(commands) && IsBytes(Printed(commands)) && IsShell(expand)
    ensures Decode(Encoded(Sent(Printed(commands), expand))) == Some(commands)
        <==> forall c, w :: c in commands && w in c ==> expand(w) == [w]
    ensures (forall c, w :: c in commands && w in c ==> !IsGlob(w))
        ==> Decode(Encoded(Sent(Printed(commands), expand))) == Some(commands)
  {
    CommandsOfPrinted(commands);
    DecodesEncoded(Sent(Printed(commands), expand));
    AllExpandedSame(commands, expand);
  }

  /** It happens: asking for all keys in a directory with two files asks for two keys. */
  lemma StarIsExpanded(expand: Expansion)
    requires expand("KEYS") == ["KEYS"] && expand("*") == ["a", "b"]
    ensures Decode(Encoded(AllExpanded([["KEYS", "*"]], expand))) == Some([["KEYS", "a", "b"]])
  {
    assert [["KEYS", "*"]][1..] == [] && ["KEYS", "*"][1..] == ["*"] && ["*"][1..] == [];
    assert Expanded(["*"], expand) == ["a", "b"] + [];
    assert Expanded(["KEYS", "*"], expand) == ["KEYS"] + ["a", "b"] == ["KEYS", "a", "b"];
    assert AllExpanded([["KEYS", "*"]], expand) == [["KEYS", "a", "b"]];
    DecodesEncoded([["KEYS", "a", "b"]]);
  }

  /** A last line without a line feed is lost, whatever it says, and changes nothing else. */
  lemma UnterminatedLineIsLost(commands: seq<seq<string>>, last: string, expand: Expansion)
    requires AreCommands(commands) && IsBytes(Printed(commands) + last) && forall i :: 0 <= i < |last| ==> last[i] != '\n'
    ensures Decode(Encoded(Sent(Printed(commands) + last, expand))) == Decode(Encoded(Sent(Printed(commands), expand)))
    ensures Sent(Printed(commands) + last, expand) == AllExpanded(commands, expand)
  {
    CommandsBeforeUnterminated(commands, last);
    CommandsOfPrinted(commands);
  }

  lemma NoCommand(last: string)
    requires forall i :: 0 <= i < |last| ==> last[i] != '\n'
    ensures Commands(last) == []
  {
    BreakFound(last);
  }

  lemma PrintedInParts(line: string, rest: string, last: string)
    ensures (line + "\n" + rest) + last == line + "\n" + (rest + last)
  {}

  lemma {:induction false} CommandsBeforeUnterminated(commands: seq<seq<string>>, last: string)
    requires AreCommands(commands) && forall i :: 0 <= i < |last| ==> last[i] != '\n'
    ensures Commands(Printed(commands) + last) == commands
  {
    if commands == [] {
      NoCommand(last);
      assert Printed(commands) + last == last;
    } else {
      CommandsTail(commands);
      WordsOfJoined(commands[0]);
      JoinedHasNoBreak(commands[0]);
      PrintedInParts(Join(commands[0]), Printed(commands[1..]), last);
      CommandsOfLine(Join(commands[0]), Printed(commands[1..]) + last);
      CommandsBeforeUnterminated(commands[1..], last);
    }
  }

  // --- the bytes and the words, literally --------------------------------------------------------------

  lemma OneDigit(n: nat)
    requires n < 10
    ensures Digits(n) == [('0' as int + n) as char]
  {}

  /** On the wire: an array of two bulk strings, and the empty array of a blank line. */
  lemma OnTheWire(a: string, b: string)
    ensures Encoded([[a, b]])
         == "*2\r\n" + (("$" + Digits(|a|) + "\r\n" + a + "\r\n") + ("$" + Digits(|b|) + "\r\n" + b + "\r\n"))
    ensures Encoded([[]]) == "*0\r\n"
  {
    OneDigit(2);
    OneDigit(0);
    OneEncoded([a, b]);
    OneEncoded([]);
    OneBulk(a);
    OneBulk(b);
    assert [a, b] == [a] + [b];
    BulksTogether([a], [b]);
    assert "*" + "2" + "\r\n" == "*2\r\n" && "*" + "0" + "\r\n" + "" == "*0\r\n";
  }

  /** A word of a line: no space, no tab. */
  predicate IsOneWord(w: string) { w != "" && forall i :: 0 <= i < |w| ==> w[i] != ' ' && w[i] != '\t' && w[i] != '\n' }

  /** Main result: the words of a line are what stands between spaces and tabs, however many there are. */
  lemma WordsAreSeparated(blank: char, w: string, rest: string)
    requires (blank == ' ' || blank == '\t') && IsOneWord(w)
    ensures Words("") == [] && Words([blank] + rest) == Words(rest)
    ensures Words(w + ([blank] + rest)) == [w] + Words(rest) && Words(w) == [w]
  {
    assert ([blank] + rest)[1..] == rest;
    FirstWordOf(w, [blank] + rest);
    FirstWordOf(w, "");
    assert w + "" == w;
  }
}
