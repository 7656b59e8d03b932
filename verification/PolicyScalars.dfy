/** What the reader of one line makes of it, told by places in the text: which quotes
    close, where a remark begins, where a key ends. */
module PolicyScalars {
  import opened Prelude
  import opened PolicyText

  predicate AllSpace(s: string) {
    forall i :: 0 <= i < |s| ==> IsSpace(s[i])
  }

  /** No whitespace outside. */
  predicate Trim(s: string) {
    s != "" ==> !IsSpace(s[0]) && !IsSpace(s[|s|-1])
  }

  /** The quote that opens the text closes at `e`. */
  predicate ClosesAt(v: string, e: nat) {
    1 <= e < |v| && IsQuote(v[0]) && v[e] == v[0] && v[0] !in v[1..e]
  }

  /** From `k` on there is only whitespace up to a hash. */
  predicate RemarkAt(v: string, k: nat) {
    exists j :: k < j < |v| && v[j] == '#' && AllSpace(v[k..j])
  }

  predicate NoRemarkBefore(v: string, k: nat) {
    forall i :: 0 <= i < k ==> !RemarkAt(v, i)
  }

  /** Whitespace, a hash and any text. */
  predicate IsRemark(t: string) {
    RemarkAt(t, 0)
  }

  // --------------------------------------------------------------- characters

  /** The whitespace of `str.isspace`, character by character. */
  lemma SpaceIff(c: char)
    ensures IsSpace(c) <==>
            || c in "\t\n\U{0B}\U{0C}\r\U{1C}\U{1D}\U{1E}\U{1F} \U{85}\U{A0}\U{1680}"
            || c in "\U{2000}\U{2001}\U{2002}\U{2003}\U{2004}\U{2005}\U{2006}\U{2007}\U{2008}\U{2009}\U{200A}"
            || c in "\U{2028}\U{2029}\U{202F}\U{205F}\U{3000}"
  {
    var low := "\t\n\U{0B}\U{0C}\r\U{1C}\U{1D}\U{1E}\U{1F} \U{85}\U{A0}\U{1680}";
    var mid := "\U{2000}\U{2001}\U{2002}\U{2003}\U{2004}\U{2005}\U{2006}\U{2007}\U{2008}\U{2009}\U{200A}";
    var high := "\U{2028}\U{2029}\U{202F}\U{205F}\U{3000}";
    var n := c as int;
    if 9 <= n <= 13 { assert low[n - 9] == c; }
    if 28 <= n <= 32 { assert low[n - 23] == c; }
    if n in {0x85, 0xA0, 0x1680} { assert low[10] == c || low[11] == c || low[12] == c; }
    if 0x2000 <= n <= 0x200A { assert mid[n - 0x2000] == c; }
    if n in {0x2028, 0x2029, 0x202F, 0x205F, 0x3000} {
      assert high[0] == c || high[1] == c || high[2] == c || high[3] == c || high[4] == c;
    }
  }

  /** The line ends of `str.splitlines`, character by character. */
  lemma BreakIff(c: char)
    ensures IsBreak(c) <==> c in "\n\U{0B}\U{0C}\r\U{1C}\U{1D}\U{1E}\U{85}\U{2028}\U{2029}"
  {
    var breaks := "\n\U{0B}\U{0C}\r\U{1C}\U{1D}\U{1E}\U{85}\U{2028}\U{2029}";
    var n := c as int;
    if 10 <= n <= 13 { assert breaks[n - 10] == c; }
    if 28 <= n <= 30 { assert breaks[n - 24] == c; }
    if n in {0x85, 0x2028, 0x2029} { assert breaks[7] == c || breaks[8] == c || breaks[9] == c; }
  }

  lemma UpperIff(c: char)
    ensures c in "ABCDEFGHIJKLMNOPQRSTUVWXYZ" <==> 'A' <= c <= 'Z'
  {
    var letters := "ABCDEFGHIJKLMNOPQRSTUVWXYZ";
    if 'A' <= c <= 'Z' { assert letters[c as int - 'A' as int] == c; }
  }

  lemma LowerIff(c: char)
    ensures c in "abcdefghijklmnopqrstuvwxyz" <==> 'a' <= c <= 'z'
  {
    var letters := "abcdefghijklmnopqrstuvwxyz";
    if 'a' <= c <= 'z' { assert letters[c as int - 'a' as int] == c; }
  }

  lemma OtherIff(c: char)
    ensures c in "0123456789_.-" <==> '0' <= c <= '9' || c in {'_', '.', '-'}
  {
    var others := "0123456789_.-";
    if '0' <= c <= '9' { assert others[c as int - '0' as int] == c; }
    if c in {'_', '.', '-'} { assert others[10] == c || others[11] == c || others[12] == c; }
  }

  /** What a bare key is made of, character by character. */
  lemma KeyCharIff(c: char)
    ensures IsKeyChar(c) <==>
            c in "ABCDEFGHIJKLMNOPQRSTUVWXYZ" || c in "abcdefghijklmnopqrstuvwxyz" || c in "0123456789_.-"
  {
    UpperIff(c);
    LowerIff(c);
    OtherIff(c);
  }

  // ---------------------------------------------------------------- stripping

  lemma StripNothing(s: string)
    requires Trim(s)
    ensures Strip(s) == s
  {
  }

  lemma {:induction false} LStripIs(a: string, s: string)
    requires AllSpace(a) && (s != "" ==> !IsSpace(s[0]))
    ensures LStrip(a + s) == s
    decreases |a|
  {
    hide IsSpace;
    if a == "" {
      assert a + s == s;
    } else {
      assert (a + s)[1..] == a[1..] + s;
      LStripIs(a[1..], s);
    }
  }

  lemma {:induction false} RStripIs(s: string, b: string)
    requires AllSpace(b) && (s != "" ==> !IsSpace(s[|s|-1]))
    ensures RStrip(s + b) == s
    decreases |b|
  {
    hide IsSpace;
    if b == "" {
      assert s + b == s;
    } else {
      assert (s + b)[..|s + b| - 1] == s + b[..|b|-1];
      RStripIs(s, b[..|b|-1]);
    }
  }

  /** Stripping takes the whitespace at both ends and nothing else. */
  lemma StripIs(a: string, s: string, b: string)
    requires AllSpace(a) && AllSpace(b) && Trim(s)
    ensures Strip(a + s + b) == s
  {
    hide IsSpace, LStrip, RStrip;
    if s == "" {
      LStripIs(a + b, "");
      assert a + s + b == (a + b) + "";
      RStripIs("", "");
    } else {
      LStripIs(a, s + b);
      assert a + s + b == a + (s + b);
      RStripIs(s, b);
    }
  }

  // ------------------------------------------------------------------ remarks

  lemma RemarkFrom(v: string, k: nat)
    requires k < |v|
    ensures RemarkAt(v, k) <==> RemarkAt(v[k..], 0)
  {
    hide AllSpace;
    if RemarkAt(v, k) {
      var j :| k < j < |v| && v[j] == '#' && AllSpace(v[k..j]);
      assert v[k..][0..j - k] == v[k..j] && v[k..][j - k] == '#';
    }
    if RemarkAt(v[k..], 0) {
      var j :| 0 < j < |v[k..]| && v[k..][j] == '#' && AllSpace(v[k..][0..j]);
      assert v[k..][0..j] == v[k..k + j] && v[k + j] == '#';
    }
  }

  lemma HashIsText()
    ensures !IsSpace('#')
  {
  }

  lemma CommentStartsIff(s: string)
    ensures CommentStarts(s) <==> RemarkAt(s, 0)
  {
    hide IsSpace;
    HashIsText();
    LStripTakes(s);
    var a := s[..|s| - |LStrip(s)|];
    if CommentStarts(s) {
      assert |a| > 0;
      assert s[|a|] == '#' && s[0..|a|] == a;
    }
    if RemarkAt(s, 0) {
      var j :| 0 < j < |s| && s[j] == '#' && AllSpace(s[0..j]);
      LStripIs(s[0..j], s[j..]);
      assert s[0..j] + s[j..] == s && s[0..j][0] == s[0];
    }
  }

  lemma {:induction false} LStripTakes(s: string)
    ensures var n := |s| - |LStrip(s)|;
            n >= 0 && s[n..] == LStrip(s) && AllSpace(s[..n]) && (s != "" && !IsSpace(s[0]) ==> n == 0)
    decreases |s|
  {
    hide IsSpace;
    if s != "" && IsSpace(s[0]) {
      LStripTakes(s[1..]);
      var n := |s[1..]| - |LStrip(s[1..])|;
      assert s[..n + 1] == [s[0]] + s[1..][..n];
    }
  }

  /** Cutting a comment stops at the first remark. */
  lemma {:induction false} CutIs(v: string, k: nat)
    requires k <= |v| && NoRemarkBefore(v, k) && (k == |v| || RemarkAt(v, k))
    ensures CutComment(v) == v[..k]
    decreases |v|
  {
    hide RemarkAt, CommentStarts;
    if v != "" {
      CommentStartsIff(v);
      if k > 0 {
        var rest := v[1..];
        forall i | 0 <= i < k - 1 ensures !RemarkAt(rest, i) {
          assert !RemarkAt(v, i + 1);
          Shifts(v, i);
        }
        if k < |v| { Shifts(v, k - 1); }
        CutIs(rest, k - 1);
        assert [v[0]] + rest[..k - 1] == v[..k];
      }
    } else {
      NothingStarts();
    }
  }

  lemma NothingStarts()
    ensures !CommentStarts("")
  {
  }

  lemma Shifts(v: string, i: nat)
    requires i + 1 < |v|
    ensures RemarkAt(v[1..], i) <==> RemarkAt(v, i + 1)
  {
    hide RemarkAt;
    RemarkFrom(v, i + 1);
    RemarkFrom(v[1..], i);
    assert v[1..][i..] == v[i + 1..];
  }

  lemma {:induction false} FirstRemark(v: string, from: nat) returns (k: nat)
    requires from <= |v| && NoRemarkBefore(v, from)
    ensures k <= |v| && NoRemarkBefore(v, k) && (k == |v| || RemarkAt(v, k))
    decreases |v| - from
  {
    hide RemarkAt;
    k := from;
    if from < |v| && !RemarkAt(v, from) { k := FirstRemark(v, from + 1); }
  }

  lemma RemarkGrows(v: string, k: nat)
    requires 0 < k < |v| && IsSpace(v[k - 1]) && RemarkAt(v, k)
    ensures RemarkAt(v, k - 1)
  {
    hide IsSpace;
    var j :| k < j < |v| && v[j] == '#' && AllSpace(v[k..j]);
    assert v[k - 1..j] == [v[k - 1]] + v[k..j];
  }

  /** What stands before the first remark has no whitespace at its end. */
  lemma BeforeRemark(v: string, k: nat)
    requires k <= |v| && NoRemarkBefore(v, k) && (k == |v| || RemarkAt(v, k)) && Trim(v)
    ensures Trim(v[..k])
  {
    hide IsSpace, RemarkAt;
    if 0 < k < |v| && IsSpace(v[k - 1]) { RemarkGrows(v, k); }
  }

  // ------------------------------------------------------------------ scalars

  lemma FindIs(s: string, c: char, k: nat)
    requires k < |s| && s[k] == c && c !in s[..k]
    ensures Find(s, c) == k
  {
    var j := Find(s, c);
    forall i | 0 <= i < k ensures s[i] != c { assert s[..k][i] == s[i]; }
    forall i | 0 <= i < j ensures s[i] != c { assert s[..j][i] == s[i]; }
  }

  /** A scalar whose opening quote closes is what stands between the two, whatever
      follows. */
  lemma QuotedScalar(value: string, e: nat)
    requires ClosesAt(Strip(value), e)
    ensures ScalarOf(value) == Strip(value)[1..e]
  {
    hide Strip, IsQuote, CutComment;
    var v := Strip(value);
    assert v[1..][..e - 1] == v[1..e];
    FindIs(v[1..], v[0], e - 1);
  }

  lemma FoundCloses(v: string)
    requires |v| >= 2 && IsQuote(v[0]) && Find(v[1..], v[0]) < |v| - 1
    ensures ClosesAt(v, 1 + Find(v[1..], v[0]))
  {
    hide IsQuote;
    var j := Find(v[1..], v[0]);
    assert v[1..][..j] == v[1..j + 1];
  }

  lemma NotFound(v: string, i: nat)
    requires |v| >= 2 && Find(v[1..], v[0]) == |v| - 1 && 1 <= i < |v|
    ensures v[i] != v[0]
  {
    assert v[1..][..|v| - 1] == v[1..];
    assert v[1..][i - 1] == v[i];
  }

  /** Any other scalar is the text up to its first remark. */
  lemma BareScalar(value: string) returns (k: nat)
    requires forall e :: 0 <= e < |Strip(value)| ==> !ClosesAt(Strip(value), e)
    ensures var v := Strip(value);
            k <= |v| && NoRemarkBefore(v, k) && (k == |v| || RemarkAt(v, k)) && ScalarOf(value) == v[..k]
  {
    hide Strip, IsQuote, CutComment, IsSpace, RemarkAt, ClosesAt;
    var v := Strip(value);
    StripEnds(value);
    NoRemarkAtNothing(v);
    k := FirstRemark(v, 0);
    CutIs(v, k);
    BeforeRemark(v, k);
    StripNothing(v[..k]);
    if |v| >= 2 && IsQuote(v[0]) {
      if Find(v[1..], v[0]) < |v| - 1 { FoundCloses(v); }
      if k >= 2 { NotFound(v, k - 1); }
    }
  }

  lemma StripEnds(value: string)
    ensures Trim(Strip(value))
  {
  }

  lemma NoRemarkAtNothing(v: string)
    ensures NoRemarkBefore(v, 0)
  {
  }

  lemma {:induction false} RStripTakes(s: string)
    ensures AllSpace(s[|RStrip(s)|..]) && RStrip(s) == s[..|RStrip(s)|]
    decreases |s|
  {
    hide IsSpace;
    if s != "" && IsSpace(s[|s|-1]) {
      RStripTakes(s[..|s|-1]);
      var n := |RStrip(s)|;
      assert s[n..] == s[..|s|-1][n..] + [s[|s|-1]];
    }
  }

  lemma {:induction false} RStripKeeps(s: string, i: nat)
    requires i < |s| && !IsSpace(s[i])
    ensures |RStrip(s)| > i
    decreases |s|
  {
    hide IsSpace;
    if IsSpace(s[|s|-1]) { RStripKeeps(s[..|s|-1], i); }
  }

  /** A remark keeps its hash when the text is stripped. */
  lemma RemarkStrips(s: string, remark: string) returns (r: string)
    requires s != "" && Trim(s) && (remark == "" || IsRemark(remark))
    ensures Strip(s + remark) == s + r && r <= remark
    ensures if remark == "" then r == "" else IsRemark(r)
  {
    hide IsSpace, LStrip, RStrip;
    var text := s + remark;
    LStripIs("", text);
    assert "" + text == text;
    RStripTakes(text);
    var n := |RStrip(text)|;
    r := "";
    if remark == "" {
      StripNothing(s);
      assert text == s == s + r;
    } else {
      HashIsText();
      var j :| 0 < j < |remark| && remark[j] == '#' && AllSpace(remark[0..j]);
      assert text[|s| + j] == '#';
      RStripKeeps(text, |s| + j);
      r := remark[..n - |s|];
      assert text[..n] == s + r;
      assert r[j] == '#' && r[0..j] == remark[0..j];
    }
  }

  lemma SpaceAmong(v: string, i: nat, j: nat, m: nat)
    requires i <= m < j <= |v| && AllSpace(v[i..j])
    ensures IsSpace(v[m])
  {
    assert v[i..j][m - i] == v[m];
  }

  lemma RemarkOfFront(s: string, r: string, i: nat)
    requires i < |s| && !IsSpace(s[|s|-1]) && RemarkAt(s + r, i)
    ensures RemarkAt(s, i)
  {
    hide IsSpace;
    var v := s + r;
    var j :| i < j < |v| && v[j] == '#' && AllSpace(v[i..j]);
    if j >= |s| { SpaceAmong(v, i, j, |s| - 1); }
    assert v[i..j] == s[i..j];
  }

  lemma RemarkBehind(s: string, r: string)
    requires IsRemark(r)
    ensures RemarkAt(s + r, |s|)
  {
    assert (s + r)[|s|..] == r;
    RemarkFrom(s + r, |s|);
  }

  lemma NoRemarkInside(s: string, r: string)
    requires s != "" && !IsSpace(s[|s|-1]) && NoRemarkBefore(s, |s|)
    ensures NoRemarkBefore(s + r, |s|) && (IsRemark(r) ==> RemarkAt(s + r, |s|))
  {
    hide IsSpace, RemarkAt;
    var v := s + r;
    forall i | 0 <= i < |s| ensures !RemarkAt(v, i) {
      if RemarkAt(v, i) { RemarkOfFront(s, r, i); }
    }
    if IsRemark(r) { RemarkBehind(s, r); }
  }

  /** Text that opens with no quote and holds no remark is read as it stands; a remark
      behind it is not read. A hash with no whitespace before it begins no remark. */
  lemma ScalarBeforeRemark(s: string, remark: string)
    requires s != "" && Trim(s) && !IsQuote(s[0]) && NoRemarkBefore(s, |s|)
    requires remark == "" || IsRemark(remark)
    ensures ScalarOf(s + remark) == s
  {
    hide Strip, IsSpace, IsQuote, RemarkAt;
    var r := RemarkStrips(s, remark);
    var v := s + r;
    forall e | 0 <= e < |v| ensures !ClosesAt(v, e) { assert v[0] == s[0]; }
    var k := BareScalar(s + remark);
    NoRemarkInside(s, r);
    if remark == "" { assert v == s && v[..|s|] == s; }
    assert v[..|s|] == s;
  }

  /** Whitespace, a hash and any text: the remark of the lemma above, part by part. */
  lemma RemarkIs(w: string, t: string)
    requires w != "" && AllSpace(w)
    ensures IsRemark(w + "#" + t)
  {
    var r := w + "#" + t;
    assert r[|w|] == '#' && r[0..|w|] == w;
  }

  /** Behind the closing quote anything may stand. */
  lemma QuotedBeforeRemark(q: char, s: string, t: string)
    requires IsQuote(q) && q !in s
    ensures ScalarOf([q] + s + [q] + t) == s
  {
    hide IsSpace, LStrip, RStrip;
    var text := [q] + s + [q] + t;
    assert !IsSpace(q) by { QuoteIsText(q); }
    LStripIs("", text);
    assert "" + text == text;
    RStripTakes(text);
    var n := |RStrip(text)|;
    assert text[|s| + 1] == q;
    RStripKeeps(text, |s| + 1);
    assert text[..n][1..|s| + 1] == s;
    QuotedScalar(text, |s| + 1);
  }

  lemma QuoteIsText(q: char)
    requires IsQuote(q)
    ensures !IsSpace(q)
  {
  }

  // ------------------------------------------------------------------- fields

  /** A key up to `k`: key characters, or at least one character between quotes. */
  predicate KeyUpTo(text: string, k: nat) {
    && 0 < k <= |text|
    && if IsQuote(text[0]) then k >= 3 && ClosesAt(text, k - 1)
       else forall i :: 0 <= i < k ==> IsKeyChar(text[i])
  }

  /** The colon of a field stands at `k`: behind a key, and at the end or before
      whitespace. */
  predicate ColonAt(text: string, k: nat) {
    && k < |text| && text[k] == ':' && KeyUpTo(text, k)
    && (k + 1 == |text| || IsSpace(text[k + 1]))
  }

  lemma KeyCharsAreText(k: string, i: nat)
    requires i < |k| && IsKeyChar(k[i])
    ensures !IsSpace(k[i]) && !IsQuote(k[i]) && k[i] != '#' && k[i] != ':'
  {
  }

  lemma KeyLengthIff(text: string, k: nat)
    requires k < |text| && text[k] == ':'
    ensures 0 < k && KeyLength(text) == k <==> KeyUpTo(text, k)
  {
    hide IsKeyChar, IsQuote;
    ColonIsNoKey();
    if IsQuote(text[0]) {
      ColonIsNoQuote(text[0]);
      var e := Find(text[1..], text[0]);
      assert text[1..][..e] == text[1..1 + e];
      if KeyUpTo(text, k) {
        assert text[1..][..k - 2] == text[1..k - 1];
        FindIs(text[1..], text[0], k - 2);
      }
    }
  }

  lemma ColonIsNoKey()
    ensures !IsKeyChar(':')
  {
  }

  lemma ColonIsNoQuote(q: char)
    requires IsQuote(q)
    ensures q != ':'
  {
  }

  lemma BareKeyReads(k: string)
    requires k != "" && forall i :: 0 <= i < |k| ==> IsKeyChar(k[i])
    ensures ScalarOf(k) == k
  {
    hide IsKeyChar, IsSpace, IsQuote, ScalarOf;
    KeyCharsAreText(k, 0);
    KeyCharsAreText(k, |k| - 1);
    forall i | 0 <= i < |k| ensures !RemarkAt(k, i) {
      KeyCharsAreText(k, i);
      if RemarkAt(k, i) {
        var j :| i < j < |k| && k[j] == '#' && AllSpace(k[i..j]);
        KeyCharsAreText(k, j);
      }
    }
    ScalarBeforeRemark(k, "");
    assert k + "" == k;
  }

  lemma QuotedKeyReads(text: string, k: nat)
    requires k >= 3 && ClosesAt(text, k - 1)
    ensures ScalarOf(text[..k]) == text[1..k - 1]
  {
    hide ScalarOf, IsQuote;
    var q, s := text[0], text[1..k - 1];
    QuotedBeforeRemark(q, s, "");
    assert [q] + s + [q] + "" == text[..k];
  }

  /** A line is a field exactly when its key ends at a colon; the key is read without
      its quotes, and the rest of the line, stripped, is the value. */
  lemma FieldIff(text: string)
    ensures FieldOf(text).Some? <==> exists k :: 0 <= k < |text| && ColonAt(text, k)
    ensures forall k :: 0 <= k < |text| && ColonAt(text, k) ==>
              FieldOf(text) == Some(Field(if IsQuote(text[0]) then text[1..k - 1] else text[..k], Strip(text[k + 1..])))
  {
    hide IsKeyChar, IsSpace, IsQuote, ScalarOf, KeyLength, Strip, ClosesAt;
    var n := KeyLength(text);
    if n < |text| && text[n] == ':' { KeyLengthIff(text, n); }
    if FieldOf(text).Some? { assert ColonAt(text, n); }
    forall k | 0 <= k < |text| && ColonAt(text, k)
      ensures FieldOf(text) ==
              Some(Field(if IsQuote(text[0]) then text[1..k - 1] else text[..k], Strip(text[k + 1..])))
    {
      KeyLengthIff(text, k);
      if IsQuote(text[0]) {
        QuotedKeyReads(text, k);
      } else {
        forall i | 0 <= i < k ensures IsKeyChar(text[..k][i]) { assert IsKeyChar(text[i]); }
        BareKeyReads(text[..k]);
      }
    }
  }
}
