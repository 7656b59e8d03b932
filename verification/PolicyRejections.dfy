/** What a rejected workflow is told: every error names a line that is there and is true
    of it. */
module PolicyRejections {
  import opened Prelude
  import opened PolicyText
  import opened PolicyGrammar

  /** The text a field would be read from, and its column. */
  function FieldPart(line: string): string {
    if IsItem(line) then ItemText(line) else DropSpaces(line)
  }

  function FieldColumn(line: string): nat {
    Indent(line) + if IsItem(line) then 2 else 0
  }

  predicate Names(line: string, key: string, c: nat) {
    && IsContent(line) && FieldColumn(line) == c
    && FieldOf(FieldPart(line)).Some? && FieldOf(FieldPart(line)).value.key == key
  }

  predicate NamedIn(s: Lines, key: string, c: nat) {
    exists i :: 0 <= i < |s| && Names(s[i], key, c)
  }

  /** Two lines hold fields of this key at the same column. */
  ghost predicate NamedTwice(s: Lines, key: string) {
    exists i, j, c :: 0 <= i < j < |s| && Names(s[i], key, c) && Names(s[j], key, c)
  }

  predicate NoField(line: string, text: string) {
    IsContent(line) && FieldPart(line) == text && FieldOf(text) == None
  }

  /** The errors that come from within a document. */
  ghost predicate ToldWithin(s: Lines, e: PolicyError) {
    match e
    case DuplicateKey(key) => NamedTwice(s, key)
    case UnexpectedIndentation(line) => line in s && IsContent(line) && Indent(line) > 0
    case UnparsedField(text) => exists i :: 0 <= i < |s| && NoField(s[i], text)
    case _ => false
  }

  ghost predicate Told(s: Lines, e: PolicyError) {
    if e.UnparsedLine? then e.line in s && IsContent(e.line)
    else if e.NotAMapping? then Skip(s) == [] || IsItem(Skip(s)[0])
    else ToldWithin(s, e)
  }

  predicate Behind(r: Lines, s: Lines) {
    |r| <= |s| && r == s[|s| - |r|..]
  }

  ghost predicate Sound<T>(r: Outcome<T>, before: Lines, s: Lines) {
    match r
    case Err(e) => ToldWithin(before + s, e)
    case Ok(p) => Behind(p.rest, s)
  }

  lemma NamedAt(s: Lines, i: nat, j: nat, key: string, c: nat)
    requires i < j < |s| && Names(s[i], key, c) && Names(s[j], key, c)
    ensures NamedTwice(s, key)
  {
  }

  lemma ToldOfMore(a: Lines, s: Lines, e: PolicyError)
    requires ToldWithin(s, e)
    ensures ToldWithin(a + s, e)
  {
    hide Names, NoField, IsContent, Indent;
    var t := a + s;
    match e
    case DuplicateKey(key) =>
      var i, j, c :| 0 <= i < j < |s| && Names(s[i], key, c) && Names(s[j], key, c);
      assert t[|a| + i] == s[i] && t[|a| + j] == s[j];
      NamedAt(t, |a| + i, |a| + j, key, c);
    case UnparsedField(text) =>
      var i :| 0 <= i < |s| && NoField(s[i], text);
      assert t[|a| + i] == s[i];
    case _ =>
  }

  lemma ToldOfSuffix(r: Lines, s: Lines, e: PolicyError)
    requires Behind(r, s) && ToldWithin(r, e)
    ensures ToldWithin(s, e)
  {
    hide ToldWithin;
    ToldOfMore(s[..|s| - |r|], r, e);
    assert s[..|s| - |r|] + r == s;
  }

  lemma BehindBoth(q: Lines, r: Lines, s: Lines)
    requires Behind(q, r) && Behind(r, s)
    ensures Behind(q, s)
  {
  }

  lemma {:induction false} SkipIsBehind(s: Lines)
    ensures Behind(Skip(s), s)
    decreases |s|
  {
    hide IsContent;
    if s != [] && !IsContent(s[0]) {
      SkipIsBehind(s[1..]);
      BehindBoth(Skip(s[1..]), s[1..], s);
    }
  }

  lemma {:induction false} ScalarLinesAreBehind(s: Lines, indent: nat, column: Option<nat>)
    ensures Behind(ScalarLines(s, indent, column).rest, s)
    decreases |s|
  {
    hide IsBlank, Indent;
    if s != [] && !EndsScalar(s[0], indent, column) {
      var c := if IsBlank(s[0]) then column else Some(ContentIndent(s[0], column));
      ScalarLinesAreBehind(s[1..], indent, c);
      BehindBoth(ScalarLines(s[1..], indent, c).rest, s[1..], s);
    }
  }

  lemma {:induction false} BlockTells(s: Lines, indent: nat)
    ensures Sound(Block(s, indent), [], s)
    decreases |s|, 2
  {
    hide Items, Fields, Skip, ToldWithin, Behind;
    var t := Skip(s);
    SkipIsBehind(s);
    assert [] + t == t && [] + s == s;
    if t == [] || Indent(t[0]) < indent {
    } else {
      if IsItem(t[0]) { ItemsTell(t, indent, []); } else { FieldsTell([], t, indent, []); }
      Passes(Block(s, indent), t, s);
    }
  }

  /** What is sound of the lines left is sound of all of them. */
  lemma Passes<T>(r: Outcome<T>, t: Lines, s: Lines)
    requires Behind(t, s) && Sound(r, [], t)
    ensures Sound(r, [], s)
  {
    hide ToldWithin, Behind;
    assert [] + t == t && [] + s == s;
    match r
    case Err(e) => ToldOfSuffix(t, s, e);
    case Ok(p) => BehindBoth(p.rest, t, s);
  }

  lemma TailIsBehind(t: Lines)
    requires t != []
    ensures Behind(t[1..], t)
  {
  }

  lemma {:induction false} ItemsTell(s: Lines, indent: nat, items: seq<Node>)
    ensures Sound(Items(s, indent, items), [], s)
    decreases |s|, 1
  {
    hide Items, FieldsFrom, Skip, IsItem, ItemText, Indent, ToldWithin, Behind, IsContent, FieldPart, FieldColumn;
    var t := Skip(s);
    SkipIsBehind(s);
    ItemsUnfold(s, indent, items);
    if t == [] || Indent(t[0]) != indent || !IsItem(t[0]) {
    } else {
      TailIsBehind(t);
      if ':' in ItemText(t[0]) {
        ItemPart(t[0]);
        FieldsFromTell(t[0], ItemText(t[0]), t[1..], indent + 2);
        var r := FieldsFrom(ItemText(t[0]), t[1..], indent + 2);
        assert [t[0]] + t[1..] == t;
        if r.Ok? {
          BehindBoth(r.value.rest, t[1..], t);
          ItemsTell(r.value.rest, indent, items + [r.value.value]);
          Passes(Items(s, indent, items), r.value.rest, t);
        } else {
          assert [] + t == t;
        }
      } else {
        var v := Scalar(ScalarOf(ItemText(t[0])));
        ItemsTell(t[1..], indent, items + [v]);
        Passes(Items(s, indent, items), t[1..], t);
      }
      Passes(Items(s, indent, items), t, s);
    }
  }

  lemma ItemPart(line: string)
    requires IsItem(line)
    ensures FieldPart(line) == ItemText(line) && FieldColumn(line) == Indent(line) + 2
  {
  }

  lemma FieldLinePart(line: string)
    requires !IsItem(line)
    ensures FieldPart(line) == DropSpaces(line) && FieldColumn(line) == Indent(line)
  {
  }

  predicate NamedBefore(before: Lines, entries: seq<Entry>, c: nat) {
    forall i :: 0 <= i < |entries| ==> NamedIn(before, entries[i].key, c)
  }

  /** The fields of a mapping at its column, given the lines its first ones came from. */
  lemma {:induction false} FieldsTell(before: Lines, s: Lines, indent: nat, entries: seq<Entry>)
    requires NamedBefore(before, entries, indent)
    ensures Sound(Fields(s, indent, entries), before, s)
    decreases |s|, 1
  {
    hide Fields, FieldValue, Skip, IsItem, Indent, ToldWithin, Behind, IsContent, FieldPart, FieldColumn, HasKey,
      NamedBefore;
    var t := Skip(s);
    SkipIsBehind(s);
    FieldsUnfold(s, indent, entries);
    if t == [] || Indent(t[0]) < indent || (Indent(t[0]) == indent && IsItem(t[0])) {
    } else if Indent(t[0]) > indent {
      TooFarIn(before, t, s, indent);
    } else {
      FieldLinePart(t[0]);
      TailIsBehind(t);
      FieldTells(t[0], DropSpaces(t[0]), t[1..], indent);
      assert [t[0]] + t[1..] == t;
      var r := FieldValue(DropSpaces(t[0]), t[1..], indent);
      if r.Err? {
        ToldOfSuffix(t, s, r.error);
        ToldOfMore(before, s, r.error);
      } else {
        var e, rest := r.value.value, r.value.rest;
        if HasKey(entries, e.key) {
          TwiceNamed(before, t, s, entries, e.key, indent);
        } else {
          BehindBoth(rest, t[1..], t);
          BehindBoth(rest, t, s);
          var seen := before + s[..|s| - |rest|];
          MoreNamed(before, t, s, rest, entries, e, indent);
          FieldsTell(seen, rest, indent, entries + [e]);
          RestOf(before, rest, s);
          if Fields(s, indent, entries).Ok? { BehindBoth(Fields(s, indent, entries).value.rest, rest, s); }
        }
      }
    }
  }

  lemma RestOf(before: Lines, rest: Lines, s: Lines)
    requires Behind(rest, s)
    ensures before + s[..|s| - |rest|] + rest == before + s
  {
  }

  lemma TooFarIn(before: Lines, t: Lines, s: Lines, indent: nat)
    requires t != [] && Behind(t, s) && IsContent(t[0]) && Indent(t[0]) > indent
    ensures ToldWithin(before + s, UnexpectedIndentation(t[0]))
  {
    hide IsContent, Indent;
    assert (before + s)[|before| + |s| - |t|] == t[0];
  }

  lemma TwiceNamed(before: Lines, t: Lines, s: Lines, entries: seq<Entry>, key: string, c: nat)
    requires NamedBefore(before, entries, c) && HasKey(entries, key)
    requires t != [] && Behind(t, s) && Names(t[0], key, c)
    ensures ToldWithin(before + s, DuplicateKey(key))
  {
    hide Names;
    var all := before + s;
    var k :| 0 <= k < |entries| && entries[k].key == key;
    assert NamedIn(before, entries[k].key, c);
    var i :| 0 <= i < |before| && Names(before[i], key, c);
    var j := |before| + |s| - |t|;
    assert all[i] == before[i] && all[j] == t[0];
    NamedAt(all, i, j, key, c);
  }

  lemma MoreNamed(before: Lines, t: Lines, s: Lines, rest: Lines, entries: seq<Entry>, e: Entry, c: nat)
    requires NamedBefore(before, entries, c) && t != [] && Behind(t, s) && Names(t[0], e.key, c)
    requires Behind(rest, t[1..]) && Behind(rest, s)
    ensures NamedBefore(before + s[..|s| - |rest|], entries + [e], c)
  {
    hide Names;
    var seen := before + s[..|s| - |rest|];
    forall k | 0 <= k < |entries + [e]| ensures NamedIn(seen, (entries + [e])[k].key, c) {
      if k < |entries| {
        assert NamedIn(before, entries[k].key, c);
        var i :| 0 <= i < |before| && Names(before[i], entries[k].key, c);
        assert seen[i] == before[i];
      } else {
        assert seen[|before| + |s| - |t|] == t[0];
      }
    }
  }

  /** A mapping whose first field stands on `line`, behind a dash. */
  lemma {:induction false} FieldsFromTell(line: string, first: string, s: Lines, indent: nat)
    requires IsContent(line) && FieldPart(line) == first && FieldColumn(line) == indent
    ensures Sound(FieldsFrom(first, s, indent), [line], s)
    decreases |s|, 4
  {
    hide FieldValue, Fields, IsContent, FieldPart, FieldColumn, ToldWithin, Behind;
    FieldTells(line, first, s, indent);
    var r := FieldValue(first, s, indent);
    if r.Ok? {
      var e, rest := r.value.value, r.value.rest;
      var before := [line] + s[..|s| - |rest|];
      assert before[0] == line;
      NamedFirst(before, e, indent);
      FieldsTell(before, rest, indent, [e]);
      RestOf([line], rest, s);
      if FieldsFrom(first, s, indent).Ok? { BehindBoth(FieldsFrom(first, s, indent).value.rest, rest, s); }
    }
  }

  lemma NamedFirst(before: Lines, e: Entry, c: nat)
    requires before != [] && Names(before[0], e.key, c)
    ensures NamedBefore(before, [e], c)
  {
  }

  lemma {:induction false} FieldTells(line: string, text: string, s: Lines, indent: nat)
    requires IsContent(line) && FieldPart(line) == text && FieldColumn(line) == indent
    ensures Sound(FieldValue(text, s, indent), [line], s)
    ensures FieldValue(text, s, indent).Ok? ==> Names(line, FieldValue(text, s, indent).value.value.key, indent)
    decreases |s|, 3
  {
    hide Block, BlockScalar, FieldOf, FlowSequence, ScalarOf, IsContent, FieldPart, FieldColumn, ToldWithin, IsOpener;
    if FieldOf(text) == None {
      NoFieldTold(line, s, text);
    } else {
      var raw := FieldOf(text).value.raw;
      BlockScalarIsBehind(s, indent, raw);
      BlockTells(s, indent + 2);
      assert [] + s == s;
      if Block(s, indent + 2).Err? { ToldOfMore([line], s, Block(s, indent + 2).error); }
    }
  }

  lemma BlockScalarIsBehind(s: Lines, indent: nat, style: string)
    ensures Behind(BlockScalar(s, indent, style).rest, s)
  {
    hide ScalarLines, ScalarText, Behind;
    ScalarLinesAreBehind(s, indent, None);
  }

  lemma NoFieldTold(line: string, s: Lines, text: string)
    requires NoField(line, text)
    ensures ToldWithin([line] + s, UnparsedField(text))
  {
    hide NoField;
    assert ([line] + s)[0] == line;
  }

  /** Whatever the error, it is true of the document: the key stands twice at one column;
      the line is there and indented; the text is that of a line and no field; the line is
      there; or the document has no content, or begins with an item. */
  lemma RejectionIsTrue(lines: Lines)
    requires Document(lines).Err?
    ensures Told(lines, Document(lines).error)
  {
    hide Block, Skip, ToldWithin, IsContent, Items, Fields;
    BlockTells(lines, 0);
    assert [] + lines == lines;
    var r := Block(lines, 0);
    if r.Ok? {
      var left := Skip(r.value.rest);
      SkipIsBehind(r.value.rest);
      BehindBoth(left, r.value.rest, lines);
      if left != [] { assert lines[|lines| - |left|] == left[0]; }
      BlockKind(lines);
    } else {
      ToldIsWithin(lines, r.error);
    }
  }

  lemma ToldIsWithin(s: Lines, e: PolicyError)
    requires ToldWithin(s, e)
    ensures Told(s, e)
  {
  }

  lemma {:induction false} ItemsMakeASequence(s: Lines, indent: nat, items: seq<Node>)
    ensures Items(s, indent, items).Ok? ==> Items(s, indent, items).value.value.Sequence?
    decreases |s|
  {
    hide Items, FieldsFrom, Skip, IsItem, ItemText, Indent;
    var t := Skip(s);
    ItemsUnfold(s, indent, items);
    if t != [] && Indent(t[0]) == indent && IsItem(t[0]) {
      var r := FieldsFrom(ItemText(t[0]), t[1..], indent + 2);
      if ':' !in ItemText(t[0]) {
        ItemsMakeASequence(t[1..], indent, items + [Scalar(ScalarOf(ItemText(t[0])))]);
      } else if r.Ok? {
        ItemsMakeASequence(r.value.rest, indent, items + [r.value.value]);
      }
    }
  }

  lemma {:induction false} FieldsMakeAMapping(s: Lines, indent: nat, entries: seq<Entry>)
    ensures Fields(s, indent, entries).Ok? ==> Fields(s, indent, entries).value.value.Mapping?
    decreases |s|
  {
    hide Fields, FieldValue, Skip, IsItem, Indent, HasKey;
    var t := Skip(s);
    FieldsUnfold(s, indent, entries);
    if t != [] && Indent(t[0]) == indent && !IsItem(t[0]) {
      var r := FieldValue(DropSpaces(t[0]), t[1..], indent);
      if r.Ok? { FieldsMakeAMapping(r.value.rest, indent, entries + [r.value.value]); }
    }
  }

  lemma BlockKind(lines: Lines)
    requires Block(lines, 0).Ok?
    ensures Block(lines, 0).value.value.Mapping? <==> Skip(lines) != [] && !IsItem(Skip(lines)[0])
  {
    hide Items, Fields, Skip, IsItem;
    var t := Skip(lines);
    ItemsMakeASequence(t, 0, []);
    FieldsMakeAMapping(t, 0, []);
  }
}
