/** String operations of the workflow checker (scripts/verify_ci_cross_build_policy.py). */
module PolicyText {
  import opened Prelude

  /** What Python's `strip` and the pattern `\s` take for whitespace. */
  predicate IsSpace(c: char) {
    var n := c as int;
    || 9 <= n <= 13 || 28 <= n <= 32 || n == 0x85 || n == 0xA0 || n == 0x1680
    || 0x2000 <= n <= 0x200A || n == 0x2028 || n == 0x2029 || n == 0x202F || n == 0x205F || n == 0x3000
  }

  predicate IsQuote(c: char) {
    c == '"' || c == '\''
  }

  predicate IsKeyChar(c: char) {
    'A' <= c <= 'Z' || 'a' <= c <= 'z' || '0' <= c <= '9' || c == '_' || c == '.' || c == '-'
  }

  function LStrip(s: string): (r: string)
    ensures r != "" ==> !IsSpace(r[0])
    decreases |s|
  {
    if s != "" && IsSpace(s[0]) then LStrip(s[1..]) else s
  }

  function RStrip(s: string): (r: string)
    ensures r <= s && (r != "" ==> !IsSpace(r[|r|-1]))
    decreases |s|
  {
    if s != "" && IsSpace(s[|s|-1]) then RStrip(s[..|s|-1]) else s
  }

  function Strip(s: string): (r: string)
    ensures r != "" ==> !IsSpace(r[0]) && !IsSpace(r[|r|-1])
  {
    RStrip(LStrip(s))
  }

  /** `lstrip(" ")`: spaces only, not tabs. */
  function DropSpaces(s: string): (r: string)
    ensures |r| <= |s|
    decreases |s|
  {
    if s != "" && s[0] == ' ' then DropSpaces(s[1..]) else s
  }

  function Indent(line: string): nat {
    |line| - |DropSpaces(line)|
  }

  predicate IsBlank(line: string) {
    Strip(line) == ""
  }

  predicate IsContent(line: string) {
    !IsBlank(line) && Strip(line)[0] != '#'
  }

  /** The first place of `c`, or the length when there is none. */
  function Find(s: string, c: char): (k: nat)
    ensures k <= |s| && (k < |s| ==> s[k] == c) && c !in s[..k]
    decreases |s|
  {
    if s == "" || s[0] == c then 0 else
      assert s[..1 + Find(s[1..], c)] == [s[0]] + s[1..][..Find(s[1..], c)];
      1 + Find(s[1..], c)
  }

  predicate CommentStarts(s: string) {
    s != "" && IsSpace(s[0]) && LStrip(s) != "" && LStrip(s)[0] == '#'
  }

  /** The value before the first `#` that whitespace precedes. */
  function CutComment(s: string): string
    decreases |s|
  {
    if s == "" || CommentStarts(s) then "" else [s[0]] + CutComment(s[1..])
  }

  /** `_scalar`: a quoted prefix between its quotes, else the value without a
      trailing comment. */
  function ScalarOf(value: string): string {
    var v := Strip(value);
    if |v| >= 2 && IsQuote(v[0]) && Find(v[1..], v[0]) < |v| - 1 then v[1..1 + Find(v[1..], v[0])]
    else
      var w := Strip(CutComment(v));
      if |w| >= 2 && w[0] == w[|w|-1] && IsQuote(w[0]) then w[1..|w|-1] else w
  }

  function Split(s: string, c: char): seq<string>
    decreases |s|
  {
    var k := Find(s, c);
    if k == |s| then [s] else [s[..k]] + Split(s[k + 1..], c)
  }

  function Scalars(items: seq<string>): (r: seq<string>)
    ensures |r| == |items|
    decreases |items|
  {
    if items == [] then [] else [ScalarOf(items[0])] + Scalars(items[1..])
  }

  /** `_flow_sequence`: whatever stands first and last is taken for the brackets. */
  function FlowSequence(value: string): seq<string> {
    var v := Strip(value);
    var inner := if |v| < 2 then "" else Strip(v[1..|v|-1]);
    if inner == "" then [] else Scalars(Split(inner, ','))
  }

  function KeyRun(s: string): (k: nat)
    ensures k <= |s| && (forall i :: 0 <= i < k ==> IsKeyChar(s[i])) && (k < |s| ==> !IsKeyChar(s[k]))
    decreases |s|
  {
    if s == "" || !IsKeyChar(s[0]) then 0 else 1 + KeyRun(s[1..])
  }

  /** The length of the key a field begins with, quotes included; 0 when there is none. */
  function KeyLength(text: string): (k: nat)
    ensures k <= |text|
  {
    if text != "" && IsQuote(text[0]) then
      var k := Find(text[1..], text[0]);
      if 0 < k < |text| - 1 then k + 2 else 0
    else KeyRun(text)
  }

  /** A field: a key, a colon, and either nothing or whitespace and a value. */
  datatype Field = Field(key: string, raw: string)

  function FieldOf(text: string): Option<Field> {
    var k := KeyLength(text);
    if 0 < k < |text| && text[k] == ':' && (k + 1 == |text| || IsSpace(text[k + 1])) then
      Some(Field(ScalarOf(text[..k]), Strip(text[k + 1..])))
    else None
  }

  function Join(lines: seq<string>): string
    decreases |lines|
  {
    if lines == [] then "" else if |lines| == 1 then lines[0] else lines[0] + "\n" + Join(lines[1..])
  }

  // ------------------------------------------------------------------- lines

  /** What `splitlines` takes for the end of a line. */
  predicate IsBreak(c: char) {
    var n := c as int;
    10 <= n <= 13 || 28 <= n <= 30 || n == 0x85 || n == 0x2028 || n == 0x2029
  }

  predicate OneLine(s: string) {
    forall i :: 0 <= i < |s| ==> !IsBreak(s[i])
  }

  function LineLength(s: string): (k: nat)
    ensures k <= |s| && OneLine(s[..k]) && (k < |s| ==> IsBreak(s[k]))
    decreases |s|
  {
    if s == "" || IsBreak(s[0]) then 0 else
      assert s[..1 + LineLength(s[1..])] == [s[0]] + s[1..][..LineLength(s[1..])];
      1 + LineLength(s[1..])
  }

  function SplitLines(text: string): seq<string>
    decreases |text|
  {
    var k := LineLength(text);
    if text == "" then []
    else if k == |text| then [text]
    else if text[k] == '\r' && k + 1 < |text| && text[k + 1] == '\n' then [text[..k]] + SplitLines(text[k + 2..])
    else [text[..k]] + SplitLines(text[k + 1..])
  }

  /** A line end before the text `rest`: a return and a newline together are one. */
  predicate LineEnd(e: string, rest: string) {
    e == "\r\n" || (|e| == 1 && IsBreak(e[0]) && !(e == "\r" && "\n" <= rest))
  }

  /** Lines, each with its own end. */
  function Ended(lines: seq<string>, ends: seq<string>): string
    requires |ends| == |lines|
    decreases |lines|
  {
    if lines == [] then "" else lines[0] + ends[0] + Ended(lines[1..], ends[1..])
  }

  /** Lines, each with its newline. */
  function TextOf(lines: seq<string>): string
    decreases |lines|
  {
    if lines == [] then "" else lines[0] + "\n" + TextOf(lines[1..])
  }

  lemma NoLines()
    ensures SplitLines("") == []
  {
  }

  lemma SplitFirst(line: string, end: string, rest: string)
    requires OneLine(line) && LineEnd(end, rest)
    ensures SplitLines(line + end + rest) == [line] + SplitLines(rest)
  {
    var text := line + end + rest;
    assert text[..|line|] == line && text[|line| + |end|..] == rest;
    assert text[|line|] == end[0];
    LineLengthIs(text, |line|);
    if end == "\r\n" { assert text[|line| + 1] == '\n'; }
    if end == "\r" && rest != "" { assert text[|line| + 1] == rest[0]; }
  }

  /** The last line needs no end. */
  lemma SplitLast(line: string)
    requires OneLine(line) && line != ""
    ensures SplitLines(line) == [line]
  {
    assert LineLength(line) == |line|;
  }

  /** Lines with any ends split into themselves, and so do lines behind which one more
      stands without an end. */
  lemma {:induction false} SplitInvertsEnded(lines: seq<string>, ends: seq<string>, last: string)
    requires |ends| == |lines| && OneLine(last)
    requires forall i :: 0 <= i < |lines| ==>
               OneLine(lines[i]) && LineEnd(ends[i], Ended(lines[i + 1..], ends[i + 1..]) + last)
    ensures SplitLines(Ended(lines, ends) + last) == lines + if last == "" then [] else [last]
    decreases |lines|
  {
    hide OneLine, SplitLines, LineEnd;
    if lines == [] {
      NoLines();
      assert Ended(lines, ends) + last == last;
      if last != "" { SplitLast(last); }
    } else {
      var rest := Ended(lines[1..], ends[1..]) + last;
      assert Ended(lines, ends) + last == lines[0] + ends[0] + rest;
      assert lines[0 + 1..] == lines[1..] && ends[0 + 1..] == ends[1..];
      SplitFirst(lines[0], ends[0], rest);
      forall i | 0 <= i < |lines[1..]|
        ensures OneLine(lines[1..][i])
                && LineEnd(ends[1..][i], Ended(lines[1..][i + 1..], ends[1..][i + 1..]) + last)
      {
        assert lines[1..][i] == lines[i + 1] && ends[1..][i] == ends[i + 1];
        assert lines[1..][i + 1..] == lines[(i + 1) + 1..] && ends[1..][i + 1..] == ends[(i + 1) + 1..];
      }
      SplitInvertsEnded(lines[1..], ends[1..], last);
      assert lines == [lines[0]] + lines[1..];
    }
  }

  lemma {:induction false} SplitInvertsText(lines: seq<string>)
    requires forall i :: 0 <= i < |lines| ==> OneLine(lines[i])
    ensures SplitLines(TextOf(lines)) == lines
    decreases |lines|
  {
    hide OneLine, SplitLines, LineEnd;
    if lines == [] {
      NoLines();
    } else {
      var line, rest := lines[0], TextOf(lines[1..]);
      SplitInvertsText(lines[1..]);
      NewlineEnds(rest);
      SplitFirst(line, "\n", rest);
      assert lines == [line] + lines[1..];
    }
  }

  lemma NewlineEnds(rest: string)
    ensures LineEnd("\n", rest)
  {
  }

  lemma LineLengthIs(s: string, k: nat)
    requires k < |s| && IsBreak(s[k]) && OneLine(s[..k])
    ensures LineLength(s) == k
  {
    forall i | 0 <= i < k ensures !IsBreak(s[i]) { assert s[..k][i] == s[i]; }
    forall i | 0 <= i < LineLength(s) ensures !IsBreak(s[i]) { assert s[..LineLength(s)][i] == s[i]; }
  }
}
