/** parseBaseUpdateStdout: the progress lines that the installer prints while it downloads. */
module ProgressLine {
  import opened Options
  import opened Text
  import opened Decimal

  const DOTS: string := "................................"
  const SUFFIX: string := "KiB"

  /** strings.TrimSpace */
  function TrimSpace(s: string): string {
    if s != "" && IsSpace(s[0]) then TrimSpace(s[1..])
    else if s != "" && IsSpace(s[|s| - 1]) then TrimSpace(s[..|s| - 1])
    else s
  }

  /** strings.Split at every single space */
  function SplitSpaces(s: string): seq<string> {
    match IndexOf(s, " ")
    case None => [s]
    case Some(k) => [s[..k]] + SplitSpaces(s[k + 1..])
  }

  /** strings.Replace(s, "%", "", 1) */
  function DropPercent(s: string): string {
    match IndexOf(s, "%")
    case None => s
    case Some(k) => s[..k] + s[k + 1..]
  }

  predicate HasSuffix(s: string, suffix: string) { |s| >= |suffix| && s[|s| - |suffix|..] == suffix }

  datatype Progress = Progress(percentage: int, downloadedKiB: int)

  function ParseLine(line: string): Option<Progress> {
    if !(DOTS <= line) || !HasSuffix(line, SUFFIX) then None
    else
      var stripped := line[..|line| - |SUFFIX|];
      Numbers(TrimSpace(if DOTS <= stripped then stripped[|DOTS|..] else stripped))
  }

  /** The two numbers of a stripped line. */
  function Numbers(stripped: string): Option<Progress> {
    var parts := SplitSpaces(stripped);
    if |parts| != 2 then None
    else
      match Atoi(DropPercent(parts[0]))
      case None => None
      case Some(percentage) =>
        match Atoi(parts[1])
        case None => None
        case Some(downloadedKiB) => Some(Progress(percentage, downloadedKiB))
  }

  // --- the printed form --------------------------------------------------------------------------

  /** Dots, padding, the percentage, the amount. */
  function PrintedLine(padding: string, percentage: int, downloadedKiB: int): string {
    "................................" + padding + Itoa(percentage) + "% " + Itoa(downloadedKiB) + " KiB"
  }

  predicate AllSpace(s: string) { forall i :: 0 <= i < |s| ==> IsSpace(s[i]) }

  predicate InRange(n: int) { -9223372036854775808 <= n <= 9223372036854775807 }

  predicate IsNumeral(c: char) { IsDigit(c) || c == '-' }

  predicate Numeral(s: string) { s != "" && forall i :: 0 <= i < |s| ==> IsNumeral(s[i]) }

  lemma ItoaIsNumeral(n: int)
    ensures Numeral(Itoa(n))
  {}

  lemma {:induction false} TrimmedPadding(padding: string, s: string)
    requires AllSpace(padding) && s != "" && !IsSpace(s[0])
    ensures TrimSpace(padding + s) == TrimSpace(s)
  {
    if padding == "" {
      assert padding + s == s;
    } else {
      assert (padding + s)[1..] == padding[1..] + s;
      TrimmedPadding(padding[1..], s);
    }
  }

  lemma TrimmedEnd(s: string)
    requires s != "" && !IsSpace(s[0]) && !IsSpace(s[|s| - 1])
    ensures TrimSpace(s + " ") == s
  {
    var t := s + " ";
    assert t[0] == s[0] && t[|t| - 1] == ' ' && t[..|t| - 1] == s;
  }

  lemma NotIn(s: string, pattern: string, rest: string)
    requires |pattern| == 1 && forall i :: 0 <= i < |s| ==> s[i] != pattern[0]
    ensures IndexOf(s + pattern + rest, pattern) == Some(|s|)
    ensures IndexOf(s, pattern) == None
  {
    var t := s + pattern + rest;
    assert t[|s|..][0] == pattern[0];
    assert pattern <= t[|s|..];
    FoundAt(t, pattern);
    FoundAt(s, pattern);
    assert forall i :: 0 <= i < |s| ==> t[i] == s[i];
  }

  lemma FoundAt(s: string, pattern: string)
    requires |pattern| == 1
    ensures IndexOf(s, pattern).Some? ==> s[IndexOf(s, pattern).value] == pattern[0]
  {
    match IndexOf(s, pattern)
    case None =>
    case Some(k) => assert s[k..k + 1][0] == s[k];
  }

  lemma SplitInTwo(a: string, b: string)
    requires forall i :: 0 <= i < |a| ==> a[i] != ' '
    requires forall i :: 0 <= i < |b| ==> b[i] != ' '
    ensures SplitSpaces(a + " " + b) == [a, b]
  {
    NotIn(a, " ", b);
    NotIn(b, " ", "");
    var s := a + " " + b;
    assert s[..|a|] == a && s[|a| + 1..] == b;
  }

  lemma PercentDropped(a: string)
    requires Numeral(a)
    ensures DropPercent(a + "%") == a
  {
    NotIn(a, "%", "");
    var s := a + "%";
    assert s == a + "%" + "";
    assert s[..|a|] == a && s[|a| + 1..] == "";
  }

  lemma TooSmall(n: int)
    requires n < MIN_INT
    ensures Atoi(Itoa(n)) == None
  {
    ValueOfDigits(-n);
    assert Itoa(n)[1..] == Digits(-n);
  }

  lemma TooBig(n: int)
    requires n > MAX_INT
    ensures Atoi(Itoa(n)) == None
  {
    ValueOfDigits(n);
    assert IsDigit(Itoa(n)[0]);
  }

  lemma OutOfRange(n: int)
    ensures Atoi(Itoa(n)) == if InRange(n) then Some(n) else None
  {
    if InRange(n) { AtoiOfItoa(n); } else if n < 0 { TooSmall(n); } else { TooBig(n); }
  }

  /** What is left of a printed line once dots and unit are stripped. */
  lemma Stripped(padding: string, p: string, k: string)
    requires AllSpace(padding) && Numeral(p) && Numeral(k)
    ensures TrimSpace(padding + p + "% " + k + " ") == p + "%" + " " + k
  {
    var s := p + "%" + " " + k;
    assert s[0] == p[0] && s[|s| - 1] == k[|k| - 1] && IsNumeral(s[0]) && IsNumeral(s[|s| - 1]);
    assert padding + p + "% " + k + " " == padding + (s + " ");
    TrimmedPadding(padding, s + " ");
    TrimmedEnd(s);
  }

  lemma LineInParts(padding: string, p: string, k: string)
    ensures var line := DOTS + padding + p + "% " + k + " KiB";
            && DOTS <= line && HasSuffix(line, SUFFIX)
            && line[..|line| - 3] == DOTS + (padding + p + "% " + k + " ")
  {
    var middle := padding + p + "% " + k + " ";
    var line := DOTS + padding + p + "% " + k + " KiB";
    assert line == DOTS + (middle + "KiB");
    assert line[|line| - 3..] == "KiB" && line[..|line| - 3] == DOTS + middle;
  }

  lemma ReadsNumbers(percentage: int, downloadedKiB: int)
    ensures Numbers(Itoa(percentage) + "%" + " " + Itoa(downloadedKiB))
         == if InRange(percentage) && InRange(downloadedKiB) then Some(Progress(percentage, downloadedKiB)) else None
  {
    ItoaIsNumeral(percentage);
    ItoaIsNumeral(downloadedKiB);
    SplitInTwo(Itoa(percentage) + "%", Itoa(downloadedKiB));
    PercentDropped(Itoa(percentage));
    OutOfRange(percentage);
    OutOfRange(downloadedKiB);
  }

  lemma StripsPrinted(padding: string, p: string, k: string)
    requires AllSpace(padding) && Numeral(p) && Numeral(k)
    ensures ParseLine(DOTS + padding + p + "% " + k + " KiB") == Numbers(p + "%" + " " + k)
  {
    LineInParts(padding, p, k);
    Stripped(padding, p, k);
    var middle := padding + p + "% " + k + " ";
    assert DOTS <= DOTS + middle && (DOTS + middle)[|DOTS|..] == middle;
  }

  /** Main result: a printed line is read back as the numbers printed, whatever the padding, and is
      not taken for progress if one of them exceeds 64 bits. */
  lemma ParsesPrinted(padding: string, percentage: int, downloadedKiB: int)
    requires AllSpace(padding)
    ensures ParseLine(PrintedLine(padding, percentage, downloadedKiB))
         == if InRange(percentage) && InRange(downloadedKiB) then Some(Progress(percentage, downloadedKiB)) else None
  {
    ItoaIsNumeral(percentage);
    ItoaIsNumeral(downloadedKiB);
    StripsPrinted(padding, Itoa(percentage), Itoa(downloadedKiB));
    ReadsNumbers(percentage, downloadedKiB);
  }

  /** A line is progress only between exactly these dots and this unit, and with two words in between. */
  lemma OthersAreNotProgress(line: string)
    ensures ParseLine(line).Some? ==> "................................" <= line && |line| >= 35 && line[|line| - 3..] == "KiB"
    ensures ParseLine(line).Some? ==> |SplitSpaces(TrimSpace(line[32..|line| - 3]))| == 2
  {
    if DOTS <= line && HasSuffix(line, SUFFIX) {
      assert line[31] == '.' && line[|line| - 3..][0] == 'K';
      var stripped := line[..|line| - 3];
      assert |line| >= 35 && DOTS <= stripped && stripped[32..] == line[32..|line| - 3];
    }
  }
}
