/** The string operations the Base's programs use: Go's `strings` package and `bufio.Scanner`,
    restricted to what the modelled code calls. A `char` is one code point. */
module Text {

  import opened Options

  // --- white space and words -----------------------------------------------------------------

  /** Go's unicode.IsSpace. */
  predicate IsSpace(c: char) {
    || '\U{0009}' <= c <= '\U{000D}' || c == ' '
    || c == '\U{0085}' || c == '\U{00A0}' || c == '\U{1680}'
    || '\U{2000}' <= c <= '\U{200A}'
    || c == '\U{2028}' || c == '\U{2029}' || c == '\U{202F}' || c == '\U{205F}' || c == '\U{3000}'
  }

  /** Number of leading non-space characters. */
  function WordLength(s: string): (n: nat)
    ensures n <= |s|
    ensures forall i :: 0 <= i < n ==> !IsSpace(s[i])
    ensures n < |s| ==> IsSpace(s[n])
  {
    if s == "" || IsSpace(s[0]) then 0 else 1 + WordLength(s[1..])
  }

  /** strings.Fields: the maximal runs of non-space characters. */
  function Fields(s: string): seq<string> {
    if s == "" then []
    else if IsSpace(s[0]) then Fields(s[1..])
    else
      var n := WordLength(s);
      [s[..n]] + Fields(s[n..])
  }

  /** strings.Join with a single space. */
  function Join(words: seq<string>): string {
    if words == [] then ""
    else if |words| == 1 then words[0]
    else words[0] + " " + Join(words[1..])
  }

  // --- letter case ---------------------------------------------------------------------------

  /** unicode.ToLower as far as a comparison with an ASCII word can see it: besides A-Z only
      U+0130 and U+212A have an ASCII lower case. */
  function LowerChar(c: char): char {
    if 'A' <= c <= 'Z' then (c as int + 32) as char
    else if c == '\U{0130}' then 'i'
    else if c == '\U{212A}' then 'k'
    else c
  }

  function ToLower(s: string): (r: string)
    ensures |r| == |s| && forall i :: 0 <= i < |s| ==> r[i] == LowerChar(s[i])
  {
    if s == "" then "" else [LowerChar(s[0])] + ToLower(s[1..])
  }

  /** The ASCII representative of a character's simple folding orbit, if it has one. */
  function FoldChar(c: char): char {
    if 'A' <= c <= 'Z' then (c as int + 32) as char
    else if c == '\U{017F}' then 's'
    else if c == '\U{212A}' then 'k'
    else c
  }

  /** strings.EqualFold against a lower-case ASCII word. */
  predicate EqualFold(s: string, lower: string) {
    |s| == |lower| && forall i :: 0 <= i < |s| ==> FoldChar(s[i]) == lower[i]
  }

  // --- searching and replacing ---------------------------------------------------------------

  /** strings.Index for a non-empty pattern. */
  function IndexOf(s: string, pattern: string): (r: Option<nat>)
    requires pattern != ""
    ensures r.Some? ==> r.value + |pattern| <= |s| && s[r.value..r.value + |pattern|] == pattern
    ensures r.Some? ==> forall i :: 0 <= i < r.value ==> !(pattern <= s[i..])
    ensures r.None? ==> forall i :: 0 <= i <= |s| ==> !(pattern <= s[i..])
  {
    if pattern <= s then Some(0)
    else if s == "" then None
    else
      var rest := IndexOf(s[1..], pattern);
      assert forall i :: 1 <= i <= |s| ==> s[i..] == s[1..][i - 1..];
      match rest
      case None => None
      case Some(k) => Some(k + 1)
  }

  /** strings.Replace(s, old, new, -1) for a non-empty `old`: leftmost, non-overlapping. */
  function ReplaceAll(s: string, from: string, to: string): string
    requires from != ""
  {
    if from <= s then to + ReplaceAll(s[|from|..], from, to)
    else if s == "" then ""
    else [s[0]] + ReplaceAll(s[1..], from, to)
  }

  // --- lines ---------------------------------------------------------------------------------

  function DropCR(line: string): string {
    if line != "" && line[|line| - 1] == '\r' then line[..|line| - 1] else line
  }

  /** The lines bufio.ScanLines delivers: terminators removed, one trailing CR dropped, an
      unterminated non-empty last line included. */
  function Lines(text: string): seq<string> {
    if text == "" then []
    else
      match IndexOf(text, "\n")
      case None => [DropCR(text)]
      case Some(k) => [DropCR(text[..k])] + Lines(text[k + 1..])
  }

  lemma Regroup(a: string, b: string, c: string)
    ensures a + (b + c) == (a + b) + c
  {}
}
