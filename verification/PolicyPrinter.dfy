/** A printer for workflow trees, with remarks behind the scalars and block scalars in
    any style and at any depth, and its inverse, the parser. */
module PolicyPrinter {
  import opened Prelude
  import opened PolicyText
  import opened PolicyGrammar
  import opened PolicyConservation
  import opened PolicyScalars

  // ------------------------------------------------------------------ spelling

  predicate PlainKey(k: string) {
    k != "" && forall i :: 0 <= i < |k| ==> IsKeyChar(k[i])
  }

  /** A scalar the parser reads back from its bare text. */
  predicate PlainScalar(s: string) {
    && s != "" && !IsSpace(s[0]) && !IsSpace(s[|s|-1]) && !IsQuote(s[0]) && s[0] != '['
    && NoRemarkBefore(s, |s|) && !IsOpener(s)
  }

  /** Between double quotes, or single ones if it holds a double quote itself. */
  function Quoted(s: string): string {
    var q := if '"' in s then '\'' else '"';
    [q] + s + [q]
  }

  predicate Quotable(s: string) {
    '"' !in s || '\'' !in s
  }

  function KeySpelling(k: string): string {
    if PlainKey(k) then k else Quoted(k)
  }

  function ScalarSpelling(s: string): string {
    if PlainScalar(s) then s else Quoted(s)
  }

  /** A one-line scalar, bare or between quotes: only text that holds both kinds of
      quote and cannot stand bare has no spelling. */
  predicate Spelled(s: string) {
    OneLine(s) && (PlainScalar(s) || Quotable(s))
  }

  /** The text of a block scalar without its last newline. */
  function Body(s: string): string {
    if s != "" && s[|s|-1] == '\n' then s[..|s|-1] else s
  }

  /** Text a block scalar can hold: several lines, or one with its newline, the first
      not indented, none of them only spaces, the last ending in something. */
  predicate Literal(s: string) {
    var lines := Split(Body(s), '\n');
    && '\n' in s && Body(s) != "" && !IsSpace(Body(s)[|Body(s)|-1])
    && !IsBlank(lines[0]) && Indent(lines[0]) == 0
    && forall i :: 0 <= i < |lines| ==> OneLine(lines[i]) && (lines[i] == "" || !IsBlank(lines[i]))
  }

  /** Scalars beside their key, between brackets: only they may hold a colon. */
  predicate InFlow(items: seq<Node>) {
    && (forall i :: 0 <= i < |items| ==> items[i].Scalar? && Spelled(items[i].text) && ',' !in items[i].text)
    && (items == [] || exists i :: 0 <= i < |items| && items[i].Scalar? && ':' in items[i].text)
  }

  /** The trees the printer takes as field values: any nesting of non-empty mappings
      with distinct keys, of sequences, of nulls and of scalars on one line or many. */
  predicate Printable(v: Node)
    decreases v, 0
  {
    match v
    case Null => true
    case Scalar(s) => Spelled(s) || Literal(s)
    case Sequence(items) => InFlow(items) || forall i :: 0 <= i < |items| ==> PrintableItem(items[i])
    case Mapping(entries) =>
      entries != [] && KeysDistinct(entries) && forall i :: 0 <= i < |entries| ==> PrintableEntry(entries[i])
  }

  predicate PrintableEntry(e: Entry)
    decreases e, 0
  {
    OneLine(e.key) && (PlainKey(e.key) || (e.key != "" && Quotable(e.key))) && Printable(e.value)
  }

  /** A dash line with a colon is taken for a mapping, and a dash line within a dash
      line for text. */
  predicate PrintableItem(v: Node)
    decreases v, 1
  {
    (v.Scalar? && ':' !in v.text && Spelled(v.text)) || (v.Mapping? && Printable(v))
  }

  // ------------------------------------------------------------------- layout

  /** Nothing, or what may stand behind a scalar on its line. */
  type Remark = t: string | t == "" || (IsRemark(t) && OneLine(t)) witness ""

  /** The choices of a printer, by the line they are made on: the remark behind the
      scalar, whether a block scalar is folded, and its columns beyond the first one that
      would do. */
  datatype Layout = Layout(remarks: map<nat, Remark>, folded: set<nat>, further: map<nat, nat>)

  function RemarkOn(l: Layout, k: nat): Remark {
    if k in l.remarks then l.remarks[k] else ""
  }

  /** An item with a colon anywhere on its line is taken for a mapping. */
  function ItemRemarkOn(l: Layout, k: nat): Remark {
    if ':' in RemarkOn(l, k) then "" else RemarkOn(l, k)
  }

  function ColumnsIn(l: Layout, k: nat): nat {
    1 + if k in l.further then l.further[k] else 1
  }

  // ------------------------------------------------------------------ printing

  function Spaces(n: nat): (s: string)
    ensures |s| == n
  {
    if n == 0 then "" else " " + Spaces(n - 1)
  }

  function FieldText(key: string, raw: string): string {
    KeySpelling(key) + ":" + if raw == "" then "" else " " + raw
  }

  function Commas(items: seq<Node>): string
    requires forall i :: 0 <= i < |items| ==> items[i].Scalar?
    decreases |items|
  {
    if items == [] then ""
    else if |items| == 1 then ScalarSpelling(items[0].text)
    else ScalarSpelling(items[0].text) + ", " + Commas(items[1..])
  }

  /** What stands beside the key, on line `k`. */
  function Beside(v: Node, l: Layout, k: nat): string {
    match v
    case Scalar(s) =>
      if !Literal(s) then ScalarSpelling(s) + RemarkOn(l, k)
      else (if k in l.folded then ">" else "|") + if Body(s) == s then "-" else ""
    case Sequence(items) => if InFlow(items) then "[" + Commas(items) + "]" else ""
    case _ => ""
  }

  function Indented(lines: Lines, n: nat): Lines
    decreases |lines|
  {
    if lines == [] then []
    else [if lines[0] == "" then "" else Spaces(n) + lines[0]] + Indented(lines[1..], n)
  }

  /** What stands below the key at column `n` on line `k`. */
  function Below(v: Node, n: nat, l: Layout, k: nat): Lines
    decreases v, 0
  {
    match v
    case Scalar(s) => if Literal(s) then Indented(Split(Body(s), '\n'), n + ColumnsIn(l, k)) else []
    case Sequence(items) => if InFlow(items) then [] else PrintItems(items, n + 2, l, k + 1)
    case Mapping(entries) => PrintFields(entries, n + 2, l, k + 1)
    case Null => []
  }

  /** The line behind a value whose key stands on line `k`. */
  function LineAfter(v: Node, n: nat, l: Layout, k: nat): nat
    decreases v, 1
  {
    k + 1 + |Below(v, n, l, k)|
  }

  function EntryText(e: Entry, l: Layout, k: nat): string {
    FieldText(e.key, Beside(e.value, l, k))
  }

  function PrintFields(entries: seq<Entry>, n: nat, l: Layout, k: nat): Lines
    decreases entries
  {
    if entries == [] then []
    else
      [Spaces(n) + EntryText(entries[0], l, k)] + Below(entries[0].value, n, l, k)
      + PrintFields(entries[1..], n, l, LineAfter(entries[0].value, n, l, k))
  }

  function ItemSpelling(s: string, l: Layout, k: nat): string {
    ScalarSpelling(s) + ItemRemarkOn(l, k)
  }

  function PrintItem(v: Node, n: nat, l: Layout, k: nat): Lines
    decreases v
  {
    match v
    case Scalar(s) => [Spaces(n) + ("- " + ItemSpelling(s, l, k))]
    case Mapping(entries) =>
      if entries == [] then []
      else
        [Spaces(n) + ("- " + EntryText(entries[0], l, k))] + Below(entries[0].value, n + 2, l, k)
        + PrintFields(entries[1..], n + 2, l, LineAfter(entries[0].value, n + 2, l, k))
    case _ => []
  }

  function PrintItems(items: seq<Node>, n: nat, l: Layout, k: nat): Lines
    decreases items
  {
    if items == [] then []
    else
      PrintItem(items[0], n, l, k) + PrintItems(items[1..], n, l, k + |PrintItem(items[0], n, l, k)|)
  }

  // ------------------------------------------------------------- reading lines

  lemma {:induction false} RStripKeepsFirst(s: string)
    requires s != "" && !IsSpace(s[0])
    ensures RStrip(s) != "" && RStrip(s)[0] == s[0]
    decreases |s|
  {
    if IsSpace(s[|s|-1]) { RStripKeepsFirst(s[..|s|-1]); }
  }

  lemma {:induction false} LineOf(n: nat, text: string)
    requires text != "" && !IsSpace(text[0]) && text[0] != '#'
    ensures DropSpaces(Spaces(n) + text) == text && Indent(Spaces(n) + text) == n
    ensures LStrip(Spaces(n) + text) == text && IsContent(Spaces(n) + text)
    decreases n
  {
    var line := Spaces(n) + text;
    if n == 0 {
      assert line == text;
    } else {
      LineOf(n - 1, text);
      assert line[1..] == Spaces(n - 1) + text;
    }
    RStripKeepsFirst(text);
  }

  lemma QuotedReads(s: string, remark: string)
    requires Quotable(s)
    ensures ScalarOf(Quoted(s) + remark) == s
  {
    hide ScalarOf;
    var q := if '"' in s then '\'' else '"';
    QuotedBeforeRemark(q, s, remark);
  }

  /** A spelled scalar reads back, with or without a remark behind it, and is taken for
      nothing else. */
  lemma ScalarSpellingReads(s: string, remark: Remark)
    requires PlainScalar(s) || Quotable(s)
    ensures ScalarOf(ScalarSpelling(s) + remark) == s
    ensures var raw := Strip(ScalarSpelling(s) + remark);
            ScalarOf(raw) == s && raw != "" && !("[" <= raw) && !IsOpener(raw)
  {
    hide ScalarOf, IsSpace, NoRemarkBefore, Strip;
    var t := ScalarSpelling(s);
    SpellingEnds(s);
    if PlainScalar(s) { ScalarBeforeRemark(s, remark); } else { QuotedReads(s, remark); }
    var r := RemarkStrips(t, remark);
    ScalarOfStrip(t + remark);
    if r != "" { RemarkLength(r); }
  }

  lemma RemarkLength(r: string)
    requires IsRemark(r)
    ensures |r| >= 2
  {
  }

  lemma ScalarOfStrip(value: string)
    ensures ScalarOf(Strip(value)) == ScalarOf(value)
  {
    hide Strip, CutComment, Find, IsQuote;
    StripEnds(value);
    StripNothing(Strip(value));
  }

  lemma StripAfterSpace(raw: string)
    ensures Strip(" " + raw) == Strip(raw)
  {
    assert (" " + raw)[1..] == raw;
  }

  lemma FieldTextReads(k: string, raw: string)
    requires PlainKey(k) || (k != "" && Quotable(k))
    ensures FieldOf(FieldText(k, raw)) == Some(Field(k, Strip(raw)))
  {
    hide Strip, IsQuote, IsKeyChar;
    var key := KeySpelling(k);
    var after := if raw == "" then "" else " " + raw;
    var text := FieldText(k, raw);
    assert text == key + (":" + after);
    assert text[..|key|] == key && text[|key| + 1..] == after;
    KeySpellingIsKey(k, ":" + after);
    SpaceIsSpace();
    FieldIff(text);
    assert ColonAt(text, |key|);
    if raw != "" { StripAfterSpace(raw); }
  }

  lemma KeySpellingIsKey(k: string, tail: string)
    requires PlainKey(k) || (k != "" && Quotable(k))
    ensures var key := KeySpelling(k); var text := key + tail;
            KeyUpTo(text, |key|) && k == if IsQuote(text[0]) then text[1..|key| - 1] else text[..|key|]
  {
    hide IsKeyChar, IsQuote;
    var key := KeySpelling(k);
    var text := key + tail;
    if PlainKey(k) {
      forall i | 0 <= i < |k| ensures IsKeyChar(text[i]) { assert text[i] == k[i]; }
      KeyCharsAreText(k, 0);
      assert text[..|k|] == k;
    } else {
      QuotesAreQuotes();
      assert text[1..|k| + 1] == k && text[|k| + 1] == text[0];
    }
  }

  lemma QuotesAreQuotes()
    ensures IsQuote('"') && IsQuote('\'')
  {
  }

  lemma KeySpellingStart(k: string)
    requires PlainKey(k) || (k != "" && Quotable(k))
    ensures var key := KeySpelling(k);
            key != "" && !IsSpace(key[0]) && key[0] != '#' && (|key| > 1 && key[0] == '-' ==> key[1] != ' ')
  {
    if PlainKey(k) {
      assert IsKeyChar(k[0]);
      if |k| > 1 { assert IsKeyChar(k[1]); }
    }
  }

  lemma FieldTextStart(k: string, raw: string)
    requires PlainKey(k) || (k != "" && Quotable(k))
    ensures var text := FieldText(k, raw);
            text != "" && !IsSpace(text[0]) && text[0] != '#' && !("- " <= text) && ':' in text
  {
    hide KeySpelling;
    KeySpellingStart(k);
    var text, key := FieldText(k, raw), KeySpelling(k);
    assert text[|key|] == ':';
    assert |text| >= 2 && (text[0] == '-' ==> text[1] != ' ');
  }

  // ------------------------------------------------------ the parser inverts it

  /** What may follow a printed value at indentation `n`: nothing, or content further out. */
  predicate Ends(s: Lines, n: nat) {
    s == [] || (IsContent(s[0]) && Indent(s[0]) < n)
  }

  lemma SkipNothing(s: Lines)
    requires s == [] || IsContent(s[0])
    ensures Skip(s) == s
  {
  }

  lemma FieldLine(e: Entry, n: nat, l: Layout, k: nat)
    requires PrintableEntry(e)
    ensures var line := Spaces(n) + EntryText(e, l, k);
            IsContent(line) && Indent(line) == n && DropSpaces(line) == EntryText(e, l, k) && !IsItem(line)
  {
    hide FieldText, IsContent, Indent, DropSpaces, Beside;
    FieldTextStart(e.key, Beside(e.value, l, k));
    LineOf(n, EntryText(e, l, k));
  }

  lemma ItemLine(text: string, n: nat)
    ensures var line := Spaces(n) + ("- " + text);
            IsContent(line) && Indent(line) == n && IsItem(line) && ItemText(line) == text
  {
    hide IsContent, Indent, DropSpaces;
    LineOf(n, "- " + text);
    assert ("- " + text)[2..] == text;
  }

  /** A printed list of fields, then `rest`, begins with a line at `n` that is no item. */
  lemma FieldsHead(entries: seq<Entry>, n: nat, l: Layout, k: nat, rest: Lines)
    requires entries != [] && PrintableEntry(entries[0])
    ensures var s := PrintFields(entries, n, l, k) + rest;
            && s == [Spaces(n) + EntryText(entries[0], l, k)]
               + (Below(entries[0].value, n, l, k)
                  + (PrintFields(entries[1..], n, l, LineAfter(entries[0].value, n, l, k)) + rest))
            && s != [] && IsContent(s[0]) && Indent(s[0]) == n && !IsItem(s[0])
            && DropSpaces(s[0]) == EntryText(entries[0], l, k)
  {
    hide EntryText, IsContent, Indent, IsItem, DropSpaces, LineAfter;
    FieldLine(entries[0], n, l, k);
  }

  lemma ItemsHead(items: seq<Node>, n: nat, l: Layout, k: nat, rest: Lines)
    requires items != [] && PrintableItem(items[0])
    ensures var s := PrintItems(items, n, l, k) + rest;
            && s == PrintItem(items[0], n, l, k)
                    + (PrintItems(items[1..], n, l, k + |PrintItem(items[0], n, l, k)|) + rest)
            && s != [] && IsContent(s[0]) && Indent(s[0]) == n && IsItem(s[0])
            && PrintItem(items[0], n, l, k) != [] && s[0] == PrintItem(items[0], n, l, k)[0]
  {
    hide EntryText, IsContent, Indent, IsItem, ItemSpelling;
    match items[0]
    case Scalar(s) => ItemLine(ItemSpelling(s, l, k), n);
    case Mapping(entries) => ItemLine(EntryText(entries[0], l, k), n);
    case _ =>
  }

  lemma ItemIsPrinted(v: Node, n: nat, l: Layout, k: nat, rest: Lines)
    requires PrintableItem(v)
    ensures v.Scalar? ==>
              PrintItem(v, n, l, k) + rest == [Spaces(n) + ("- " + ItemSpelling(v.text, l, k))] + rest
    ensures v.Mapping? ==>
              v.entries != [] &&
              PrintItem(v, n, l, k) + rest ==
              [Spaces(n) + ("- " + EntryText(v.entries[0], l, k))]
              + (Below(v.entries[0].value, n + 2, l, k)
                 + (PrintFields(v.entries[1..], n + 2, l, LineAfter(v.entries[0].value, n + 2, l, k)) + rest))
  {
    hide EntryText, ItemSpelling, Below, PrintFields, LineAfter;
  }

  lemma FieldsThenEnd(entries: seq<Entry>, n: nat, l: Layout, k: nat, rest: Lines)
    requires (forall i :: 0 <= i < |entries| ==> PrintableEntry(entries[i])) && Ends(rest, n + 1)
    ensures Ends(PrintFields(entries, n, l, k) + rest, n + 1)
  {
    hide IsContent, Indent, EntryText;
    if entries == [] {
      assert PrintFields(entries, n, l, k) + rest == rest;
    } else {
      FieldsHead(entries, n, l, k, rest);
    }
  }

  lemma ItemsThenEnd(items: seq<Node>, n: nat, l: Layout, k: nat, rest: Lines)
    requires (forall i :: 0 <= i < |items| ==> PrintableItem(items[i])) && Ends(rest, n + 1)
    ensures Ends(PrintItems(items, n, l, k) + rest, n + 1)
  {
    hide IsContent, Indent, PrintItem;
    if items == [] {
      assert PrintItems(items, n, l, k) + rest == rest;
    } else {
      ItemsHead(items, n, l, k, rest);
    }
  }

  lemma EndsFurther(s: Lines, n: nat, m: nat)
    requires Ends(s, n) && n <= m
    ensures Ends(s, m)
  {
  }

  lemma {:induction false} FieldReparses(e: Entry, n: nat, l: Layout, k: nat, rest: Lines)
    requires PrintableEntry(e) && Ends(rest, n + 1)
    ensures FieldValue(EntryText(e, l, k), Below(e.value, n, l, k) + rest, n) == Ok(Parsed(e, rest))
    decreases e.value
  {
    hide FieldText, FieldOf, Items, Fields, Strip, ScalarOf, FlowSequence, IsContent, Indent, ScalarSpelling,
      PlainScalar, PlainKey, Quotable, KeysDistinct, IsItem, Spelled, Literal, InFlow, Commas, BlockScalar,
      Split, IsOpener, Body, Beside, ColumnsIn, PrintableItem, LineAfter;
    var v := e.value;
    BesideReads(v, l, k);
    FieldTextReads(e.key, Beside(v, l, k));
    EndsFurther(rest, n + 1, n + 2);
    match v
    case Null =>
      assert Below(v, n, l, k) + rest == rest;
      SkipNothing(rest);
    case Scalar(s) =>
      if Literal(s) {
        LiteralReparses(s, n, l, k, rest);
      } else {
        assert Below(v, n, l, k) + rest == rest;
      }
    case Sequence(items) =>
      if InFlow(items) {
        assert Below(v, n, l, k) + rest == rest;
        FlowReparses(items);
      } else {
        NotInFlow(items);
        ItemsHead(items, n + 2, l, k + 1, rest);
        SkipNothing(PrintItems(items, n + 2, l, k + 1) + rest);
        ItemsReparse(items, [], n + 2, l, k + 1, rest);
        assert [] + items == items;
      }
    case Mapping(entries) =>
      FieldsHead(entries, n + 2, l, k + 1, rest);
      SkipNothing(PrintFields(entries, n + 2, l, k + 1) + rest);
      assert [] + entries == entries;
      FieldsReparse(entries, [], n + 2, l, k + 1, rest);
  }

  lemma NotInFlow(items: seq<Node>)
    ensures !InFlow(items) ==> items != []
    ensures InFlow([])
  {
  }

  /** What stands beside a key, stripped, tells what follows: nothing beside it, a block
      scalar, a flow sequence, or a scalar. */
  lemma BesideReads(v: Node, l: Layout, k: nat)
    requires Printable(v)
    ensures var raw := Strip(Beside(v, l, k));
            match v
            case Null => raw == "" && !IsOpener("")
            case Scalar(s) =>
              if Literal(s) then IsOpener(raw) && raw == Beside(v, l, k)
              else Spelled(s) && !IsOpener(raw) && !("[" <= raw) && raw != "" && ScalarOf(raw) == s
            case Sequence(items) =>
              if InFlow(items) then raw == "[" + Commas(items) + "]" && !IsOpener(raw)
              else raw == "" && !IsOpener("")
            case Mapping(_) => raw == "" && !IsOpener("")
  {
    hide ScalarSpelling, PlainScalar, Quotable, Literal, InFlow, Commas, Body, Split, ScalarOf;
    if v.Scalar? && !Literal(v.text) { ScalarSpellingReads(v.text, RemarkOn(l, k)); }
    else { StripNothing(Beside(v, l, k)); }
  }

  // ----------------------------------------------------------- flow sequences

  lemma ScalarAfterSpace(s: string)
    ensures ScalarOf(" " + s) == ScalarOf(s)
  {
    hide Strip, CutComment, Find;
    StripAfterSpace(s);
  }

  lemma SpellingHasNoComma(s: string)
    requires ',' !in s
    ensures ',' !in ScalarSpelling(s)
  {
  }

  lemma NoSplit(s: string, c: char)
    requires c !in s
    ensures Split(s, c) == [s]
  {
  }

  lemma SplitFirst(a: string, c: char, b: string)
    requires c !in a
    ensures Split(a + [c] + b, c) == [a] + Split(b, c)
  {
    var s := a + [c] + b;
    assert s[..|a|] == a && s[|a| + 1..] == b;
    FindIs(s, c, |a|);
  }

  lemma LeavesOfFirst(piece: string, rest: seq<string>)
    ensures Leaves(Scalars([piece] + rest)) == [Scalar(ScalarOf(piece))] + Leaves(Scalars(rest))
  {
    hide ScalarOf;
    assert ([piece] + rest)[1..] == rest;
    assert ([ScalarOf(piece)] + Scalars(rest))[1..] == Scalars(rest);
  }

  lemma {:induction false} CommasSplit(items: seq<Node>, space: string)
    requires items != [] && (space == "" || space == " ")
    requires forall i :: 0 <= i < |items| ==> items[i].Scalar? && Spelled(items[i].text) && ',' !in items[i].text
    ensures Leaves(Scalars(Split(space + Commas(items), ','))) == items
    decreases |items|
  {
    hide ScalarSpelling, Spelled, Split, ScalarOf, Leaves, Scalars;
    var s := items[0].text;
    var spelling := ScalarSpelling(s);
    SpellingHasNoComma(s);
    SpelledReads(s);
    ScalarAfterSpace(spelling);
    assert "" + spelling == spelling;
    assert items == [items[0]] + items[1..];
    if |items| == 1 {
      NoSplit(space + spelling, ',');
      LeavesOfFirst(space + spelling, []);
      NoLeaves();
      assert [space + spelling] + [] == [space + spelling];
    } else {
      var tail := " " + Commas(items[1..]);
      CommasSplit(items[1..], " ");
      assert space + Commas(items) == (space + spelling) + [','] + tail;
      SplitFirst(space + spelling, ',', tail);
      LeavesOfFirst(space + spelling, Split(tail, ','));
    }
  }

  lemma NoLeaves()
    ensures Leaves(Scalars([])) == []
  {
  }

  lemma SpelledReads(s: string)
    requires Spelled(s)
    ensures ScalarOf(ScalarSpelling(s)) == s
  {
    hide ScalarSpelling, PlainScalar, Quotable, ScalarOf;
    ScalarSpellingReads(s, "");
    assert ScalarSpelling(s) + "" == ScalarSpelling(s);
  }

  lemma SpellingEnds(s: string)
    requires PlainScalar(s) || Quotable(s)
    ensures var t := ScalarSpelling(s);
            t != "" && Trim(t) && !("[" <= t) && !IsOpener(t)
  {
  }

  lemma {:induction false} CommasEnd(items: seq<Node>)
    requires items != [] && forall i :: 0 <= i < |items| ==> items[i].Scalar? && Spelled(items[i].text)
    ensures var t := Commas(items); t != "" && !IsSpace(t[0]) && !IsSpace(t[|t|-1])
    decreases |items|
  {
    hide ScalarSpelling, PlainScalar, Quotable, IsSpace, OneLine;
    SpellingEnds(items[0].text);
    if |items| > 1 { CommasEnd(items[1..]); }
  }

  lemma FlowReparses(items: seq<Node>)
    requires InFlow(items)
    ensures Leaves(FlowSequence("[" + Commas(items) + "]")) == items
  {
    hide ScalarSpelling, Spelled, Split, ScalarOf, Strip;
    var text := "[" + Commas(items) + "]";
    StripNothing(text);
    assert text[1..|text|-1] == Commas(items);
    StripNothing("");
    if items != [] {
      CommasEnd(items);
      StripNothing(Commas(items));
      CommasSplit(items, "");
      assert "" + Commas(items) == Commas(items);
    }
  }

  // ------------------------------------------------------------ block scalars

  lemma {:induction false} JoinInvertsSplit(s: string)
    ensures Join(Split(s, '\n')) == s && Split(s, '\n') != []
    decreases |s|
  {
    var k := Find(s, '\n');
    if k < |s| {
      JoinInvertsSplit(s[k + 1..]);
      var rest := Split(s[k + 1..], '\n');
      assert ([s[..k]] + rest)[1..] == rest;
      assert s == s[..k] + "\n" + s[k + 1..];
    }
  }

  lemma SpaceIsSpace()
    ensures IsSpace(' ')
  {
  }

  lemma {:induction false} SpacesThen(n: nat, line: string)
    ensures Indent(Spaces(n) + line) == n + Indent(line) && LStrip(Spaces(n) + line) == LStrip(line)
    ensures (Spaces(n) + line)[n..] == line
    decreases n
  {
    hide IsSpace;
    SpaceIsSpace();
    if n == 0 {
      assert Spaces(0) + line == line;
    } else {
      SpacesThen(n - 1, line);
      assert (Spaces(n) + line)[1..] == Spaces(n - 1) + line;
    }
  }

  /** One more line of a block scalar, read at its column. */
  lemma IndentedStep(line: string, n: nat, c: nat, column: Option<nat>, s: Lines)
    requires line == "" || !IsBlank(line)
    requires column == Some(c) || (line != "" && Indent(line) == 0 && column == None)
    requires c > n
    ensures var p := ScalarLines(s, n, Some(c));
            ScalarLines([if line == "" then "" else Spaces(c) + line] + s, n, column) ==
                Parsed([line] + p.value, p.rest)
  {
    hide Indent, Strip, LStrip;
    var t := [if line == "" then "" else Spaces(c) + line] + s;
    assert t[1..] == s;
    SpacesThen(c, line);
    BlankText();
    if line != "" { BlankBehindSpaces(c, line); }
  }

  lemma {:induction false} IndentedReads(lines: Lines, n: nat, c: nat, column: Option<nat>, rest: Lines)
    requires forall i :: 0 <= i < |lines| ==> lines[i] == "" || !IsBlank(lines[i])
    requires column == Some(c) || (lines != [] && lines[0] != "" && Indent(lines[0]) == 0 && column == None)
    requires c > n && Ends(rest, n + 1)
    ensures ScalarLines(Indented(lines, c) + rest, n, column) == Parsed(lines, rest)
    decreases |lines|
  {
    hide Indent, IsBlank, ScalarLines;
    var s := Indented(lines, c) + rest;
    if lines == [] {
      assert s == rest;
      RestEndsScalar(rest, n, column);
    } else {
      var line := lines[0];
      IndentedReads(lines[1..], n, c, Some(c), rest);
      IndentedStep(line, n, c, column, Indented(lines[1..], c) + rest);
      assert s == [if line == "" then "" else Spaces(c) + line] + (Indented(lines[1..], c) + rest);
      assert [line] + lines[1..] == lines;
    }
  }

  lemma RestEndsScalar(rest: Lines, n: nat, column: Option<nat>)
    requires Ends(rest, n + 1)
    ensures ScalarLines(rest, n, column) == Parsed([], rest)
  {
    if rest != [] { ContentHasText(rest[0]); }
  }

  lemma ContentHasText(line: string)
    requires IsContent(line)
    ensures !IsBlank(line)
  {
  }

  lemma BlankText()
    ensures IsBlank("")
  {
    StripNothing("");
  }

  lemma BlankBehindSpaces(n: nat, line: string)
    ensures IsBlank(Spaces(n) + line) == IsBlank(line)
  {
    SpacesThen(n, line);
  }

  /** Text of many lines, indented below its key, reads back exactly. */
  lemma LiteralReparses(s: string, n: nat, l: Layout, k: nat, rest: Lines)
    requires Literal(s) && Ends(rest, n + 1)
    ensures BlockScalar(Below(Scalar(s), n, l, k) + rest, n, Beside(Scalar(s), l, k)) == Parsed(s, rest)
  {
    hide Indent, Split, Join, ScalarLines, IsBlank, IsContent;
    var body := Body(s);
    var lines := Split(body, '\n');
    JoinInvertsSplit(body);
    BlankText();
    IndentedReads(lines, n, n + ColumnsIn(l, k), None, rest);
    assert RStrip(body) == body;
    if body != s { assert s == body + "\n"; }
  }

  lemma {:induction false} FieldsReparse(entries: seq<Entry>, done: seq<Entry>, n: nat, l: Layout, k: nat, rest: Lines)
    requires (forall i :: 0 <= i < |entries| ==> PrintableEntry(entries[i])) && KeysDistinct(done + entries)
             && Ends(rest, n)
    ensures Fields(PrintFields(entries, n, l, k) + rest, n, done) == Ok(Parsed(Mapping(done + entries), rest))
    decreases entries
  {
    hide Fields, FieldValue, EntryText, PrintableEntry, IsContent, Indent, IsItem, PrintFields, Below;
    var s := PrintFields(entries, n, l, k) + rest;
    FieldsUnfold(s, n, done);
    if entries == [] {
      NoFields(n, l, k);
      assert s == rest && done + entries == done;
      SkipNothing(rest);
    } else {
      var e, after := entries[0], LineAfter(entries[0].value, n, l, k);
      var more := PrintFields(entries[1..], n, l, after) + rest;
      FieldsHead(entries, n, l, k, rest);
      SkipNothing(s);
      EndsFurther(rest, n, n + 1);
      FieldsThenEnd(entries[1..], n, l, after, rest);
      FieldReparses(e, n, l, k, more);
      assert s[1..] == Below(e.value, n, l, k) + more;
      NewKey(done, entries);
      assert (done + [e]) + entries[1..] == done + entries;
      FieldsReparse(entries[1..], done + [e], n, l, after, rest);
    }
  }

  lemma NoFields(n: nat, l: Layout, k: nat)
    ensures PrintFields([], n, l, k) == [] && PrintItems([], n, l, k) == []
  {
  }

  lemma NewKey(done: seq<Entry>, entries: seq<Entry>)
    requires entries != [] && KeysDistinct(done + entries)
    ensures !HasKey(done, entries[0].key)
  {
    forall i | 0 <= i < |done| ensures done[i].key != entries[0].key {
      assert (done + entries)[i] == done[i] && (done + entries)[|done|] == entries[0];
    }
  }

  lemma {:induction false} ItemsReparse(items: seq<Node>, done: seq<Node>, n: nat, l: Layout, k: nat, rest: Lines)
    requires (forall i :: 0 <= i < |items| ==> PrintableItem(items[i])) && Ends(rest, n)
    ensures Items(PrintItems(items, n, l, k) + rest, n, done) == Ok(Parsed(Sequence(done + items), rest))
    decreases items
  {
    hide Items, FieldsFrom, EntryText, PrintItem, PrintableItem, IsContent, Indent, IsItem, PrintItems, ScalarOf,
      ItemText;
    var s := PrintItems(items, n, l, k) + rest;
    ItemsUnfold(s, n, done);
    if items == [] {
      NoFields(n, l, k);
      assert s == rest && done + items == done;
      SkipNothing(rest);
    } else {
      var v, after := items[0], k + |PrintItem(items[0], n, l, k)|;
      var more := PrintItems(items[1..], n, l, after) + rest;
      ItemsHead(items, n, l, k, rest);
      SkipNothing(s);
      EndsFurther(rest, n, n + 1);
      ItemsThenEnd(items[1..], n, l, after, rest);
      ItemReparses(v, n, l, k, more);
      ItemsReparse(items[1..], done + [v], n, l, after, rest);
      assert (done + [v]) + items[1..] == done + items;
    }
  }

  /** One printed item: a bare scalar, or a mapping that begins behind the dash. */
  lemma {:induction false} ItemReparses(v: Node, n: nat, l: Layout, k: nat, more: Lines)
    requires PrintableItem(v) && Ends(more, n + 1)
    ensures var s := PrintItem(v, n, l, k) + more;
            && s != [] && IsItem(s[0])
            && (':' !in ItemText(s[0]) ==> s[1..] == more && v == Scalar(ScalarOf(ItemText(s[0]))))
            && (':' in ItemText(s[0]) ==> FieldsFrom(ItemText(s[0]), s[1..], n + 2) == Ok(Parsed(v, more)))
    decreases v
  {
    hide EntryText, PrintItem, IsContent, Indent, IsItem, PrintFields, Below, ScalarOf, ItemText, ItemSpelling,
      LineAfter, Fields, FieldValue, Spelled, Literal, InFlow;
    var s := PrintItem(v, n, l, k) + more;
    ItemIsPrinted(v, n, l, k, more);
    if v.Scalar? {
      ItemLine(ItemSpelling(v.text, l, k), n);
      ItemSpellingReads(v.text, l, k);
      assert s[1..] == more;
    } else {
      var entries := v.entries;
      var e, after := entries[0], LineAfter(entries[0].value, n + 2, l, k);
      var tail := PrintFields(entries[1..], n + 2, l, after) + more;
      ItemLine(EntryText(e, l, k), n);
      EntryTextHasColon(e, l, k);
      EndsFurther(more, n + 1, n + 2);
      EndsFurther(more, n + 1, n + 3);
      FieldsThenEnd(entries[1..], n + 2, l, after, more);
      FieldReparses(e, n + 2, l, k, tail);
      assert s[1..] == Below(e.value, n + 2, l, k) + tail;
      assert [e] + entries[1..] == entries;
      FieldsReparse(entries[1..], [e], n + 2, l, after, more);
    }
  }

  lemma ItemSpellingReads(s: string, l: Layout, k: nat)
    requires Spelled(s) && ':' !in s
    ensures ':' !in ItemSpelling(s, l, k) && ScalarOf(ItemSpelling(s, l, k)) == s
  {
    hide ScalarSpelling, PlainScalar, Quotable, ScalarOf, OneLine;
    SpellingHasNoColon(s);
    ScalarSpellingReads(s, ItemRemarkOn(l, k));
  }

  lemma SpellingHasNoColon(s: string)
    requires ':' !in s
    ensures ':' !in ScalarSpelling(s)
  {
  }

  lemma EntryTextHasColon(e: Entry, l: Layout, k: nat)
    requires PrintableEntry(e)
    ensures ':' in EntryText(e, l, k)
  {
    hide FieldText;
    FieldTextStart(e.key, Beside(e.value, l, k));
  }

  // ------------------------------------------------------------------- lines

  predicate AllOneLine(lines: Lines) {
    forall i :: 0 <= i < |lines| ==> OneLine(lines[i])
  }

  lemma OneLineJoins(a: string, b: string)
    requires OneLine(a) && OneLine(b)
    ensures OneLine(a + b)
  {
  }

  lemma {:induction false} SpacesOneLine(n: nat)
    ensures OneLine(Spaces(n))
    decreases n
  {
    if n > 0 { SpacesOneLine(n - 1); }
  }

  lemma SpellingsOneLine(s: string)
    requires OneLine(s)
    ensures OneLine(ScalarSpelling(s)) && OneLine(KeySpelling(s))
  {
    hide PlainScalar, PlainKey;
  }

  lemma {:induction false} CommasOneLine(items: seq<Node>)
    requires forall i :: 0 <= i < |items| ==> items[i].Scalar? && Spelled(items[i].text)
    ensures OneLine(Commas(items))
    decreases |items|
  {
    hide ScalarSpelling, PlainScalar, Quotable, IsBreak;
    AsciiOneLine();
    if items != [] {
      SpellingsOneLine(items[0].text);
      if |items| > 1 { CommasOneLine(items[1..]); }
    }
  }

  lemma BesideOneLine(v: Node, l: Layout, k: nat)
    requires Printable(v)
    ensures OneLine(Beside(v, l, k))
  {
    hide ScalarSpelling, PlainScalar, Quotable, IsBreak, Literal, Commas;
    AsciiOneLine();
    match v
    case Scalar(s) =>
      if !Literal(s) {
        SpellingsOneLine(s);
        OneLineJoins(ScalarSpelling(s), RemarkOn(l, k));
      } else {
        OneLineJoins(if k in l.folded then ">" else "|", if Body(s) == s then "-" else "");
      }
    case Sequence(items) => if InFlow(items) { CommasOneLine(items); }
    case _ =>
  }

  lemma EntryTextOneLine(e: Entry, l: Layout, k: nat)
    requires PrintableEntry(e)
    ensures OneLine(EntryText(e, l, k))
  {
    hide Beside, KeySpelling, PlainKey, Quotable, IsBreak, Printable;
    SpellingsOneLine(e.key);
    BesideOneLine(e.value, l, k);
    AsciiOneLine();
  }

  lemma AsciiOneLine()
    ensures OneLine("") && OneLine(" ") && OneLine(":") && OneLine("[") && OneLine("]") && OneLine(", ")
            && OneLine("- ")
    ensures OneLine("|") && OneLine(">") && OneLine("-")
  {
  }

  lemma LineOneLine(n: nat, mark: string, text: string)
    requires OneLine(text) && (mark == "" || mark == "- ")
    ensures OneLine(Spaces(n) + (mark + text)) && OneLine(Spaces(n) + text)
  {
    SpacesOneLine(n);
    AsciiOneLine();
    OneLineJoins(mark, text);
    OneLineJoins(Spaces(n), mark + text);
    OneLineJoins(Spaces(n), text);
  }

  lemma {:induction false} FieldsOneLine(entries: seq<Entry>, n: nat, l: Layout, k: nat)
    requires forall i :: 0 <= i < |entries| ==> PrintableEntry(entries[i])
    ensures AllOneLine(PrintFields(entries, n, l, k))
    decreases entries
  {
    hide EntryText, OneLine, PlainKey, Quotable;
    if entries != [] {
      var e := entries[0];
      EntryTextOneLine(e, l, k);
      LineOneLine(n, "", EntryText(e, l, k));
      BelowOneLine(e.value, n, l, k);
      FieldsOneLine(entries[1..], n, l, LineAfter(e.value, n, l, k));
    }
  }

  lemma {:induction false} BelowOneLine(v: Node, n: nat, l: Layout, k: nat)
    requires Printable(v)
    ensures AllOneLine(Below(v, n, l, k))
    decreases v
  {
    hide OneLine, AllOneLine, PrintItems, PrintFields, Split, Body, IsBlank, Indent;
    match v
    case Scalar(s) =>
      if Literal(s) { IndentedOneLine(Split(Body(s), '\n'), n + ColumnsIn(l, k)); } else { NoLinesOneLine(); }
    case Sequence(items) => if InFlow(items) { NoLinesOneLine(); } else { ItemsOneLine(items, n + 2, l, k + 1); }
    case Mapping(entries) => FieldsOneLine(entries, n + 2, l, k + 1);
    case Null => NoLinesOneLine();
  }

  lemma {:induction false} IndentedOneLine(lines: Lines, n: nat)
    requires forall i :: 0 <= i < |lines| ==> OneLine(lines[i])
    ensures AllOneLine(Indented(lines, n))
    decreases |lines|
  {
    hide OneLine;
    if lines != [] {
      AsciiOneLine();
      LineOneLine(n, "", lines[0]);
      IndentedOneLine(lines[1..], n);
    }
  }

  lemma NoLinesOneLine()
    ensures AllOneLine([])
  {
  }

  lemma {:induction false} ItemsOneLine(items: seq<Node>, n: nat, l: Layout, k: nat)
    requires forall i :: 0 <= i < |items| ==> PrintableItem(items[i])
    ensures AllOneLine(PrintItems(items, n, l, k))
    decreases items
  {
    hide OneLine, PrintItem;
    if items != [] {
      ItemOneLine(items[0], n, l, k);
      ItemsOneLine(items[1..], n, l, k + |PrintItem(items[0], n, l, k)|);
    }
  }

  lemma {:induction false} ItemOneLine(v: Node, n: nat, l: Layout, k: nat)
    requires PrintableItem(v)
    ensures AllOneLine(PrintItem(v, n, l, k))
    decreases v
  {
    hide OneLine, EntryText, ScalarSpelling, PlainScalar, Quotable, PrintFields, Below, Literal, InFlow;
    if v.Scalar? {
      SpellingsOneLine(v.text);
      OneLineJoins(ScalarSpelling(v.text), ItemRemarkOn(l, k));
      LineOneLine(n, "- ", ItemSpelling(v.text, l, k));
    } else {
      var e := v.entries[0];
      EntryTextOneLine(e, l, k);
      LineOneLine(n, "- ", EntryText(e, l, k));
      BelowOneLine(e.value, n + 2, l, k);
      FieldsOneLine(v.entries[1..], n + 2, l, LineAfter(e.value, n + 2, l, k));
    }
  }

  /** A mapping as the text of a workflow, laid out as `l` says. */
  function Print(v: Node, l: Layout): string
    requires v.Mapping?
  {
    TextOf(PrintFields(v.entries, 0, l, 0))
  }

  lemma LinesReparse(v: Node, l: Layout)
    requires v.Mapping? && Printable(v)
    ensures Document(PrintFields(v.entries, 0, l, 0)) == Ok(v)
  {
    hide Fields, Items, PrintFields, PrintableEntry, IsContent, Indent, IsItem, KeysDistinct, EntryText;
    var lines := PrintFields(v.entries, 0, l, 0);
    assert lines + [] == lines && [] + v.entries == v.entries;
    FieldsHead(v.entries, 0, l, 0, []);
    SkipNothing(lines);
    FieldsReparse(v.entries, [], 0, l, 0, []);
  }

  /** Printing a mapping in any layout and parsing the text gives the mapping back. */
  lemma ParseInvertsPrint(v: Node, l: Layout)
    requires v.Mapping? && Printable(v)
    ensures Workflow(Print(v, l)) == Ok(v)
  {
    hide Document, PrintFields, PrintableEntry;
    FieldsOneLine(v.entries, 0, l, 0);
    SplitInvertsText(PrintFields(v.entries, 0, l, 0));
    LinesReparse(v, l);
  }

  /** Beside a key that has no scalar on its line a remark is no remark: it is the value. */
  lemma RemarkBesideKeyIsValue(k: string, t: string, s: Lines, n: nat)
    requires PlainKey(k) || (k != "" && Quotable(k))
    ensures var r := FieldValue(FieldText(k, "#" + t), s, n);
            && r.Ok? && r.value.rest == s && r.value.value.key == k
            && r.value.value.value.Scalar? && "#" <= r.value.value.value.text
  {
    hide FieldText, KeySpelling, PlainKey, Quotable, Strip, ScalarOf, Block, BlockScalar, FlowSequence;
    FieldTextReads(k, "#" + t);
    HashStays(t);
  }

  lemma HashStays(t: string)
    ensures var raw := Strip("#" + t);
            "#" <= raw && !("[" <= raw) && !IsOpener(raw) && "#" <= ScalarOf(raw)
  {
    hide IsSpace, ScalarOf, LStrip, RStrip, RemarkAt;
    var raw := "#" + t;
    HashIsText();
    LStripIs("", raw);
    assert "" + raw == raw;
    RStripTakes(raw);
    RStripKeeps(raw, 0);
    var v := Strip(raw);
    assert v[0] == '#';
    ScalarOfStrip(raw);
    var m := BareScalar(raw);
    NoRemarkAtHash(v);
  }

  /** Behind the mark of a block scalar a remark makes the mark the value: no block follows. */
  lemma RemarkBehindOpenerEndsIt(k: string, opener: string, remark: Remark, s: Lines, n: nat)
    requires (PlainKey(k) || (k != "" && Quotable(k))) && IsOpener(opener) && remark != ""
    ensures FieldValue(FieldText(k, opener + remark), s, n) == Ok(Parsed(Entry(k, Scalar(opener)), s))
  {
    hide FieldText, KeySpelling, PlainKey, Quotable, Strip, ScalarOf, Block, BlockScalar, FlowSequence, IsRemark;
    FieldTextReads(k, opener + remark);
    OpenerIsPlain(opener);
    ScalarBeforeRemark(opener, remark);
    ScalarOfStrip(opener + remark);
    var r := RemarkStrips(opener, remark);
    RemarkLength(r);
  }

  lemma OpenerIsPlain(opener: string)
    requires IsOpener(opener)
    ensures opener != "" && Trim(opener) && !IsQuote(opener[0]) && NoRemarkBefore(opener, |opener|)
    ensures !("[" <= opener)
  {
    forall i | 0 <= i < |opener| ensures !RemarkAt(opener, i) {
      forall j | i < j < |opener| ensures opener[j] != '#' { }
    }
  }

  lemma NoRemarkAtHash(v: string)
    requires v != "" && v[0] == '#'
    ensures !RemarkAt(v, 0)
  {
    hide IsSpace;
    HashIsText();
    if RemarkAt(v, 0) {
      var j :| 0 < j < |v| && v[j] == '#' && AllSpace(v[0..j]);
      SpaceAmong(v, 0, j, 0);
    }
  }
}
