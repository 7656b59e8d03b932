/** Blank and comment lines outside block scalars change nothing that the workflow
    parser answers, errors included. */
module PolicyNoise {
  import opened Prelude
  import opened PolicyText
  import opened PolicyGrammar

  // -------------------------------------------------------------- compaction

  /** The indentation that a field's block scalar must exceed, if it opens one. */
  function OpensAt(text: string, indent: nat): Option<nat> {
    if FieldOf(text).Some? && IsOpener(FieldOf(text).value.raw) then Some(indent) else None
  }

  function Opens(line: string): Option<nat> {
    if !IsItem(line) then OpensAt(DropSpaces(line), Indent(line))
    else if ':' in ItemText(line) then OpensAt(ItemText(line), Indent(line) + 2)
    else None
  }

  function TrimBlank(s: Lines): (r: Lines)
    ensures r <= s
    decreases |s|
  {
    if s != [] && IsBlank(s[|s|-1]) then TrimBlank(s[..|s|-1]) else s
  }

  /** The lines a block scalar takes when read at `column`. */
  function Taken(s: Lines, indent: nat, column: Option<nat>): (r: Lines)
    ensures r <= s
  {
    s[..|s| - |ScalarLines(s, indent, column).rest|]
  }

  /** The lines of a block scalar, and those behind it. */
  function Inside(s: Lines, indent: nat): (r: Lines)
    ensures r <= s
  {
    Taken(s, indent, None)
  }

  function Behind(s: Lines, indent: nat): (r: Lines)
    ensures |r| <= |s|
  {
    ScalarLines(s, indent, None).rest
  }

  /** The lines without blank and comment lines, except those within the text of a
      block scalar. */
  function Compact(s: Lines): Lines
    decreases |s|, 0
  {
    if s == [] then []
    else if !IsContent(s[0]) then Compact(s[1..])
    else [s[0]] + CompactAfter(Opens(s[0]), s[1..])
  }

  function CompactAfter(opens: Option<nat>, s: Lines): Lines
    decreases |s|, 1
  {
    match opens
    case None => Compact(s)
    case Some(indent) => TrimBlank(Inside(s, indent)) + Compact(Behind(s, indent))
  }

  predicate HeadWithin(s: Lines, indent: nat) {
    s == [] || (IsContent(s[0]) && Indent(s[0]) <= indent)
  }

  /** Every block scalar would end where it does even without the comments behind it. */
  predicate Settled(s: Lines)
    decreases |s|, 0
  {
    if s == [] then true
    else if !IsContent(s[0]) then Settled(s[1..])
    else SettledAfter(Opens(s[0]), s[1..])
  }

  predicate SettledAfter(opens: Option<nat>, s: Lines)
    decreases |s|, 1
  {
    match opens
    case None => Settled(s)
    case Some(indent) => HeadWithin(Skip(Behind(s, indent)), indent) && Settled(Behind(s, indent))
  }

  lemma {:induction false} CompactSkips(s: Lines)
    ensures Compact(Skip(s)) == Compact(s) && Settled(Skip(s)) == Settled(s)
    decreases |s|
  {
    hide CompactAfter, SettledAfter, IsContent, Opens;
    if s != [] && !IsContent(s[0]) { CompactSkips(s[1..]); }
  }

  /** Compacted lines begin with the first content line, ready to be read. */
  lemma CompactHead(s: Lines)
    ensures Skip(Compact(s)) == Compact(s)
    ensures Skip(s) == [] ==> Compact(s) == []
    ensures var t := Skip(s);
            t != [] ==>
              && Compact(s) == [t[0]] + CompactAfter(Opens(t[0]), t[1..])
              && Settled(s) == SettledAfter(Opens(t[0]), t[1..])
  {
    hide CompactAfter, SettledAfter, IsContent, Opens;
    CompactSkips(s);
  }

  // ------------------------------------------------------------ block scalars

  /** All of `x` belongs to the block scalar. */
  predicate Swallowed(x: Lines, indent: nat, column: Option<nat>) {
    ScalarLines(x, indent, column).rest == []
  }

  lemma {:induction false} SwallowThen(x: Lines, indent: nat, column: Option<nat>, v: Lines)
    requires Swallowed(x, indent, column) && HeadWithin(v, indent)
    ensures ScalarLines(x + v, indent, column) == Parsed(ScalarLines(x, indent, column).value, v)
    decreases |x|
  {
    hide IsBlank, Indent;
    if x == [] {
      assert x + v == v;
      ContentIsNotBlank(v);
    } else {
      assert (x + v)[1..] == x[1..] + v;
      SwallowThen(x[1..], indent, if IsBlank(x[0]) then column else Some(ContentIndent(x[0], column)), v);
    }
  }

  lemma ContentIsNotBlank(v: Lines)
    ensures v != [] && IsContent(v[0]) ==> !IsBlank(v[0])
  {
  }

  lemma NoLinesNoText(indent: nat, column: Option<nat>)
    ensures ScalarLines([], indent, column) == Parsed([], [])
  {
  }

  lemma ScalarUnfold(s: Lines, indent: nat, column: Option<nat>)
    ensures var p := ScalarLines(s, indent, column);
            if s == [] || EndsScalar(s[0], indent, column) then p == Parsed([], s)
            else if IsBlank(s[0]) then
              var q := ScalarLines(s[1..], indent, column);
              p == Parsed([""] + q.value, q.rest)
            else
              var c := ContentIndent(s[0], column);
              var q := ScalarLines(s[1..], indent, Some(c));
              p == Parsed([s[0][c..]] + q.value, q.rest)
  {
  }

  /** What the next line of a block scalar is read at, and as. */
  function NextColumn(line: string, column: Option<nat>): Option<nat> {
    if IsBlank(line) then column else Some(ContentIndent(line, column))
  }

  lemma TakenStep(s: Lines, indent: nat, column: Option<nat>)
    requires s != [] && !EndsScalar(s[0], indent, column)
    ensures Taken(s, indent, column) == [s[0]] + Taken(s[1..], indent, NextColumn(s[0], column))
    ensures ScalarLines(s, indent, column).rest == ScalarLines(s[1..], indent, NextColumn(s[0], column)).rest
  {
    hide IsBlank, Indent, ScalarLines;
    ScalarUnfold(s, indent, column);
    var n := |s| - |ScalarLines(s, indent, column).rest|;
    assert s == [s[0]] + s[1..];
    assert s[..n] == [s[0]] + s[1..][..n-1];
  }

  lemma SwallowCons(h: string, x: Lines, y: Lines, indent: nat, column: Option<nat>)
    requires !EndsScalar(h, indent, column)
    requires Swallowed(x, indent, NextColumn(h, column))
    requires ScalarLines(x, indent, NextColumn(h, column)).value == ScalarLines(y, indent, NextColumn(h, column)).value
    ensures Swallowed([h] + x, indent, column)
    ensures ScalarLines([h] + x, indent, column).value == ScalarLines([h] + y, indent, column).value
  {
    hide IsBlank, Indent, ScalarLines;
    assert ([h] + x)[1..] == x && ([h] + y)[1..] == y;
    ScalarUnfold([h] + x, indent, column);
    ScalarUnfold([h] + y, indent, column);
  }

  lemma {:induction false} InsideIsSwallowed(s: Lines, indent: nat, column: Option<nat>)
    ensures var p := ScalarLines(s, indent, column);
            var x := Taken(s, indent, column);
            Swallowed(x, indent, column) && ScalarLines(x, indent, column).value == p.value && s == x + p.rest
    decreases |s|
  {
    hide IsBlank, Indent, ScalarLines, EndsScalar, NextColumn, Swallowed, Taken;
    if s == [] || EndsScalar(s[0], indent, column) {
      NothingTaken(s, indent, column);
    } else {
      InsideIsSwallowed(s[1..], indent, NextColumn(s[0], column));
      TakenStep(s, indent, column);
      SwallowCons(s[0], Taken(s[1..], indent, NextColumn(s[0], column)), s[1..], indent, column);
      assert s == [s[0]] + s[1..];
    }
  }

  lemma NothingTaken(s: Lines, indent: nat, column: Option<nat>)
    requires s == [] || EndsScalar(s[0], indent, column)
    ensures Taken(s, indent, column) == [] && ScalarLines(s, indent, column) == Parsed([], s)
            && Swallowed([], indent, column)
    ensures ScalarLines([], indent, column).value == []
  {
    NoLinesNoText(indent, column);
  }

  lemma {:induction false} BlankTail(y: Lines, blank: string, indent: nat, column: Option<nat>)
    requires Swallowed(y + [blank], indent, column) && IsBlank(blank)
    ensures Swallowed(y, indent, column)
    ensures ScalarLines(y + [blank], indent, column).value == ScalarLines(y, indent, column).value + [""]
    decreases |y|
  {
    hide IsBlank, Indent;
    if y != [] {
      assert (y + [blank])[1..] == y[1..] + [blank];
      BlankTail(y[1..], blank, indent, if IsBlank(y[0]) then column else Some(ContentIndent(y[0], column)));
    }
  }

  lemma {:induction false} JoinBlank(body: seq<string>)
    ensures RStrip(Join(body + [""])) == RStrip(Join(body))
    decreases |body|
  {
    JoinAppend(body);
    if body != [] {
      var text := Join(body) + "\n";
      assert text[..|text|-1] == Join(body) && IsSpace(text[|text|-1]);
    }
  }

  lemma {:induction false} JoinAppend(body: seq<string>)
    ensures Join(body + [""]) == if body == [] then "" else Join(body) + "\n"
    decreases |body|
  {
    if body == [] {
      assert body + [""] == [""];
    } else {
      assert (body + [""])[1..] == body[1..] + [""];
      JoinAppend(body[1..]);
    }
  }

  /** Trailing blank lines never show in the text of a block scalar. */
  lemma {:induction false} TrimmedReadsSame(x: Lines, indent: nat, style: string)
    requires Swallowed(x, indent, None)
    ensures Swallowed(TrimBlank(x), indent, None)
    ensures ScalarText(ScalarLines(TrimBlank(x), indent, None).value, style) ==
            ScalarText(ScalarLines(x, indent, None).value, style)
    decreases |x|
  {
    hide ScalarLines, Join, RStrip, IsBlank;
    if x != [] && IsBlank(x[|x|-1]) {
      var y := x[..|x|-1];
      assert x == y + [x[|x|-1]];
      BlankTail(y, x[|x|-1], indent, None);
      JoinBlank(ScalarLines(y, indent, None).value);
      TrimmedReadsSame(y, indent, style);
    }
  }

  lemma BlockScalarCompacts(s: Lines, indent: nat, style: string)
    requires SettledAfter(Some(indent), s)
    ensures BlockScalar(CompactAfter(Some(indent), s), indent, style) ==
            Parsed(BlockScalar(s, indent, style).value, Compact(Behind(s, indent)))
  {
    hide ScalarLines, ScalarText, Compact, TrimBlank, IsContent, Indent, Settled;
    var v := Compact(Behind(s, indent));
    InsideIsSwallowed(s, indent, None);
    TrimmedReadsSame(Inside(s, indent), indent, style);
    CompactHead(Behind(s, indent));
    SwallowThen(TrimBlank(Inside(s, indent)), indent, None, v);
  }

  // -------------------------------------------------------------- simulation

  function Shrunk<T>(r: Outcome<T>): Outcome<T> {
    match r
    case Err(e) => Err(e)
    case Ok(p) => Ok(Parsed(p.value, Compact(p.rest)))
  }

  predicate RestSettled<T>(r: Outcome<T>) {
    r.Ok? ==> Settled(r.value.rest)
  }

  lemma {:induction false} BlockShrinks(s: Lines, indent: nat)
    requires Settled(s)
    ensures Block(Compact(s), indent) == Shrunk(Block(s, indent)) && RestSettled(Block(s, indent))
    decreases |s|, 2
  {
    hide Items, Fields, Compact, CompactAfter, Settled, Skip, IsItem, Indent, Opens;
    var t := Skip(s);
    CompactHead(s);
    CompactSkips(s);
    if t == [] || Indent(t[0]) < indent {
    } else if IsItem(t[0]) {
      ItemsShrink(t, indent, []);
    } else {
      FieldsShrink(t, indent, []);
    }
  }

  lemma {:induction false} ItemsShrink(s: Lines, indent: nat, items: seq<Node>)
    requires Settled(s)
    ensures Items(Compact(s), indent, items) == Shrunk(Items(s, indent, items)) && RestSettled(Items(s, indent, items))
    decreases |s|, 1
  {
    hide Items, FieldsFrom, Compact, CompactAfter, Settled, SettledAfter, Skip, IsItem, Indent, OpensAt, ScalarOf,
      ItemText;
    var t, c := Skip(s), Compact(s);
    CompactHead(s);
    CompactSkips(s);
    ItemsUnfold(s, indent, items);
    ItemsUnfold(c, indent, items);
    if t == [] || Indent(t[0]) != indent || !IsItem(t[0]) {
    } else {
      var text := ItemText(t[0]);
      assert c[0] == t[0] && c[1..] == CompactAfter(Opens(t[0]), t[1..]);
      if ':' in text {
        FieldsFromShrink(text, t[1..], indent + 2);
        var r := FieldsFrom(text, t[1..], indent + 2);
        if r.Ok? { ItemsShrink(r.value.rest, indent, items + [r.value.value]); }
      } else {
        NothingOpens(t[1..]);
        ItemsShrink(t[1..], indent, items + [Scalar(ScalarOf(text))]);
      }
    }
  }

  lemma NothingOpens(s: Lines)
    ensures CompactAfter(None, s) == Compact(s) && SettledAfter(None, s) == Settled(s)
  {
  }

  lemma {:induction false} FieldsShrink(s: Lines, indent: nat, entries: seq<Entry>)
    requires Settled(s)
    ensures Fields(Compact(s), indent, entries) == Shrunk(Fields(s, indent, entries))
            && RestSettled(Fields(s, indent, entries))
    decreases |s|, 1
  {
    hide Fields, FieldValue, Compact, CompactAfter, Settled, SettledAfter, Skip, IsItem, Indent, OpensAt, HasKey;
    var t, c := Skip(s), Compact(s);
    CompactHead(s);
    CompactSkips(s);
    FieldsUnfold(s, indent, entries);
    FieldsUnfold(c, indent, entries);
    if t != [] && Indent(t[0]) == indent && !IsItem(t[0]) {
      var text := DropSpaces(t[0]);
      assert c[0] == t[0] && c[1..] == CompactAfter(Opens(t[0]), t[1..]);
      FieldShrinks(text, t[1..], indent);
      var r := FieldValue(text, t[1..], indent);
      if r.Ok? && !HasKey(entries, r.value.value.key) { FieldsShrink(r.value.rest, indent, entries + [r.value.value]); }
    }
  }

  lemma {:induction false} FieldsFromShrink(first: string, s: Lines, indent: nat)
    requires SettledAfter(OpensAt(first, indent), s)
    ensures var c := CompactAfter(OpensAt(first, indent), s);
            && FieldsFrom(first, c, indent) == Shrunk(FieldsFrom(first, s, indent))
            && RestSettled(FieldsFrom(first, s, indent))
    decreases |s|, 4
  {
    hide FieldValue, Fields, Compact, CompactAfter, Settled, SettledAfter, OpensAt;
    FieldShrinks(first, s, indent);
    var r := FieldValue(first, s, indent);
    if r.Ok? { FieldsShrink(r.value.rest, indent, [r.value.value]); }
  }

  lemma {:induction false} FieldShrinks(text: string, s: Lines, indent: nat)
    requires SettledAfter(OpensAt(text, indent), s)
    ensures var c := CompactAfter(OpensAt(text, indent), s);
            && FieldValue(text, c, indent) == Shrunk(FieldValue(text, s, indent))
            && RestSettled(FieldValue(text, s, indent))
    decreases |s|, 3
  {
    hide Block, BlockScalar, Compact, CompactAfter, Settled, FieldOf, FlowSequence, ScalarOf, IsOpener, HeadWithin,
      Inside;
    if FieldOf(text).Some? {
      var raw := FieldOf(text).value.raw;
      if IsOpener(raw) {
        BlockScalarCompacts(s, indent, raw);
        BehindIsRest(s, indent, raw);
      } else {
        NothingOpens(s);
        if !("[" <= raw) && raw == "" { BlockShrinks(s, indent + 2); }
      }
    }
  }

  lemma BehindIsRest(s: Lines, indent: nat, style: string)
    ensures BlockScalar(s, indent, style).rest == Behind(s, indent)
  {
  }

  /** Whatever the parser answers, tree or error, it answers without the noise. */
  lemma NoiseChangesNothing(lines: Lines)
    requires Settled(lines)
    ensures Document(Compact(lines)) == Document(lines)
  {
    hide Block, Compact, CompactAfter, Settled, Skip, Opens;
    BlockShrinks(lines, 0);
    if Block(lines, 0).Ok? { CompactHead(Block(lines, 0).value.rest); }
  }

  // ------------------------------------------- accepted documents are settled

  lemma {:induction false} BlockSettles(s: Lines, indent: nat)
    requires Block(s, indent).Ok? && Settled(Block(s, indent).value.rest)
    ensures Settled(s)
    decreases |s|, 2
  {
    hide Items, Fields, Settled, Skip, IsItem, Indent;
    var t := Skip(s);
    CompactSkips(s);
    if t == [] || Indent(t[0]) < indent {
    } else if IsItem(t[0]) {
      ItemsSettle(t, indent, []);
    } else {
      FieldsSettle(t, indent, []);
    }
  }

  lemma {:induction false} ItemsSettle(s: Lines, indent: nat, items: seq<Node>)
    requires Items(s, indent, items).Ok? && Settled(Items(s, indent, items).value.rest)
    ensures Settled(s)
    decreases |s|, 1
  {
    hide Items, FieldsFrom, Compact, CompactAfter, Settled, SettledAfter, Skip, IsItem, Indent, OpensAt, ScalarOf,
      ItemText;
    var t := Skip(s);
    CompactHead(s);
    CompactSkips(s);
    ItemsUnfold(s, indent, items);
    if t == [] || Indent(t[0]) != indent || !IsItem(t[0]) {
    } else {
      var text := ItemText(t[0]);
      if ':' in text {
        var p := FieldsFrom(text, t[1..], indent + 2).value;
        ItemsSettle(p.rest, indent, items + [p.value]);
        FieldsFromSettle(text, t[1..], indent + 2);
      } else {
        NothingOpens(t[1..]);
        ItemsSettle(t[1..], indent, items + [Scalar(ScalarOf(text))]);
      }
    }
  }

  /** Behind a field no line may be indented further than the field. */
  lemma {:induction false} FieldsSettle(s: Lines, indent: nat, entries: seq<Entry>)
    requires Fields(s, indent, entries).Ok? && Settled(Fields(s, indent, entries).value.rest)
    ensures Settled(s) && HeadWithin(Skip(s), indent)
    decreases |s|, 1
  {
    hide Fields, FieldValue, Compact, CompactAfter, Settled, SettledAfter, IsItem, Indent, OpensAt, HasKey, IsContent;
    var t := Skip(s);
    CompactHead(s);
    CompactSkips(s);
    FieldsUnfold(s, indent, entries);
    if t != [] && Indent(t[0]) == indent && !IsItem(t[0]) {
      var text := DropSpaces(t[0]);
      var p := FieldValue(text, t[1..], indent).value;
      FieldsSettle(p.rest, indent, entries + [p.value]);
      FieldSettles(text, t[1..], indent);
    }
  }

  lemma {:induction false} FieldsFromSettle(first: string, s: Lines, indent: nat)
    requires FieldsFrom(first, s, indent).Ok? && Settled(FieldsFrom(first, s, indent).value.rest)
    ensures SettledAfter(OpensAt(first, indent), s)
    decreases |s|, 4
  {
    hide FieldValue, Fields, Settled, SettledAfter, OpensAt, HeadWithin, Skip;
    var p := FieldValue(first, s, indent).value;
    FieldsSettle(p.rest, indent, [p.value]);
    FieldSettles(first, s, indent);
  }

  lemma {:induction false} FieldSettles(text: string, s: Lines, indent: nat)
    requires FieldValue(text, s, indent).Ok?
    requires var rest := FieldValue(text, s, indent).value.rest; Settled(rest) && HeadWithin(Skip(rest), indent)
    ensures SettledAfter(OpensAt(text, indent), s)
    decreases |s|, 3
  {
    hide Block, BlockScalar, Settled, FieldOf, FlowSequence, ScalarOf, IsOpener, HeadWithin, Skip;
    var raw := FieldOf(text).value.raw;
    if IsOpener(raw) {
      BehindIsRest(s, indent, raw);
    } else if !("[" <= raw) && raw == "" {
      BlockSettles(s, indent + 2);
    }
  }

  /** Every accepted document is settled, so its comments and blank lines never matter. */
  lemma AcceptedIsSettled(lines: Lines)
    requires Document(lines).Ok?
    ensures Settled(lines) && Document(Compact(lines)) == Document(lines)
  {
    hide Block, Compact, Settled, Skip;
    var rest := Block(lines, 0).value.rest;
    CompactSkips(rest);
    NothingIsSettled();
    BlockSettles(lines, 0);
    NoiseChangesNothing(lines);
  }

  /** A comment can only matter in a document that is rejected. */
  lemma UnsettledIsRejected(lines: Lines)
    requires !Settled(lines)
    ensures Document(lines).Err?
  {
    hide Document, Settled, Compact;
    if Document(lines).Ok? { AcceptedIsSettled(lines); }
  }

  /** What is accepted without its noise is the same document with it, accepted and with
      the same tree, if and only if it is settled. */
  lemma ReadsSameIffSettled(lines: Lines)
    requires Document(Compact(lines)).Ok?
    ensures Document(lines) == Document(Compact(lines)) <==> Settled(lines)
  {
    hide Document, Settled, Compact;
    if Settled(lines) { NoiseChangesNothing(lines); } else { UnsettledIsRejected(lines); }
  }

  /** For every document: with its noise it is accepted exactly when it is settled and
      accepted without. */
  lemma AcceptedIffSettledAndClean(lines: Lines)
    ensures Document(lines).Ok? <==> Settled(lines) && Document(Compact(lines)).Ok?
    ensures Document(lines).Ok? ==> Document(lines) == Document(Compact(lines))
  {
    hide Document, Settled, Compact;
    if Settled(lines) { NoiseChangesNothing(lines); } else { UnsettledIsRejected(lines); }
  }

  lemma NothingIsSettled()
    ensures Settled([])
  {
  }

  // ----------------------------------------------------------- one line more

  /** Read line by line from `s`, block scalars at a time, the lines `b` are reached. */
  predicate Reaches(s: Lines, b: Lines)
    decreases |s|
  {
    s == b || (s != [] &&
               if IsContent(s[0]) && Opens(s[0]).Some? then Reaches(Behind(s[1..], Opens(s[0]).value), b)
               else Reaches(s[1..], b))
  }

  lemma {:induction false} ReachesShorter(s: Lines, b: Lines)
    requires Reaches(s, b)
    ensures |b| <= |s| && s[|s| - |b|..] == b
    decreases |s|
  {
    hide IsContent, Opens, Behind;
    if s != b {
      if IsContent(s[0]) && Opens(s[0]).Some? {
        var r := Behind(s[1..], Opens(s[0]).value);
        ReachesShorter(r, b);
        BehindIsSuffix(s[1..], Opens(s[0]).value);
      } else {
        ReachesShorter(s[1..], b);
      }
    }
  }

  lemma BehindIsSuffix(s: Lines, indent: nat)
    ensures s == Inside(s, indent) + Behind(s, indent)
  {
    InsideIsSwallowed(s, indent, None);
  }

  /** `x` may be put before `b`: it is blank, or a comment that no block scalar takes. */
  predicate Insertable(a: Lines, x: string, b: Lines) {
    && !IsContent(x) && Reaches(a + b, b)
    && (IsBlank(x) || Reaches(a + ([x] + b), [x] + b))
  }

  /** The block scalar that ends within `a`, or at `b`, takes no more and no less with `x` there. */
  lemma {:induction false} ScalarWithLine(a: Lines, x: string, b: Lines, indent: nat, column: Option<nat>)
    requires !IsContent(x)
    requires var r := ScalarLines(a + b, indent, column).rest; |b| <= |r|
    requires IsBlank(x) || |b| + 1 <= |ScalarLines(a + ([x] + b), indent, column).rest|
    ensures var r, q := ScalarLines(a + b, indent, column).rest, ScalarLines(a + ([x] + b), indent, column).rest;
            var n := |a| - (|r| - |b|);
            && 0 <= n <= |a|
            && (n < |a| ==> |q| == |r| + 1)
            && (n == |a| ==> if IsBlank(x) then |q| == |b| else |q| == |b| + 1)
    decreases |a|
  {
    hide IsBlank, Indent, IsContent;
    var s, t := a + b, a + ([x] + b);
    if a == [] {
      assert s == b && t == [x] + b && t[1..] == b;
    } else {
      assert s[1..] == a[1..] + b && t[1..] == a[1..] + ([x] + b);
      if !EndsScalar(a[0], indent, column) {
        ScalarWithLine(a[1..], x, b, indent, if IsBlank(a[0]) then column else Some(ContentIndent(a[0], column)));
      }
    }
  }

  lemma SplitWithin(a: Lines, b: Lines, front: Lines, back: Lines)
    requires a + b == front + back && |b| <= |back|
    ensures |front| <= |a| && front == a[..|front|] && back == a[|front|..] + b
  {
    var n := |front|;
    assert front == (a + b)[..n] && back == (a + b)[n..];
  }

  /** `t` is `s` with `x` put in before its last lines, `b`, outside block scalars. */
  predicate Apart(s: Lines, t: Lines, x: string, b: Lines) {
    && |b| <= |s| && s[|s| - |b|..] == b
    && var a := s[..|s| - |b|]; t == a + ([x] + b) && Insertable(a, x, b)
  }

  /** What is left of the two documents: the same, or still the line apart. */
  predicate Near(s: Lines, t: Lines, x: string, b: Lines) {
    s == t || Apart(s, t, x, b)
  }

  /** The same behind a line that may have opened a block scalar. */
  predicate NearAfter(opens: Option<nat>, s: Lines, t: Lines, x: string, b: Lines) {
    match opens
    case None => Near(s, t, x, b)
    case Some(indent) =>
      s == t
      || (&& |b| <= |s| && s[|s| - |b|..] == b && t == s[..|s| - |b|] + ([x] + b)
          && !IsContent(x) && Reaches(Behind(s, indent), b)
          && (IsBlank(x) || Reaches(Behind(t, indent), [x] + b)))
  }

  predicate SameAnswer<T(==)>(r: Outcome<T>, q: Outcome<T>, x: string, b: Lines) {
    match r
    case Err(e) => q == Err(e)
    case Ok(p) => q.Ok? && q.value.value == p.value && Near(p.rest, q.value.rest, x, b)
  }

  lemma ApartParts(a: Lines, x: string, b: Lines)
    requires Insertable(a, x, b)
    ensures Apart(a + b, a + ([x] + b), x, b)
  {
    hide Insertable;
    assert (a + b)[|a|..] == b && (a + b)[..|a|] == a;
  }

  /** Skipping to the next content line: both documents have it or neither does. */
  lemma {:induction false} SkipNear(s: Lines, t: Lines, x: string, b: Lines)
    requires Near(s, t, x, b)
    ensures Near(Skip(s), Skip(t), x, b)
    ensures Skip(s) == [] <==> Skip(t) == []
    ensures Skip(s) != [] ==> Skip(s)[0] == Skip(t)[0] && NearAfter(Opens(Skip(s)[0]), Skip(s)[1..], Skip(t)[1..], x, b)
    decreases |s|
  {
    hide IsContent, Opens, Behind, IsBlank;
    if s != t {
      var a := s[..|s| - |b|];
      assert s == a + b;
      if a == [] {
        assert s == b && t == [x] + b && t[1..] == b;
        assert Skip(t) == Skip(s);
        if Skip(s) != [] { NearItself(Opens(Skip(s)[0]), Skip(s)[1..], x, b); }
      } else {
        assert s[1..] == a[1..] + b && t[1..] == a[1..] + ([x] + b) && t[0] == s[0];
        ReachesBehindHead(a, x, b);
        if IsContent(s[0]) {
          InsertedTail(a, x, b);
        } else {
          ApartParts(a[1..], x, b);
          SkipNear(s[1..], t[1..], x, b);
        }
      }
    } else if Skip(s) != [] {
      NearItself(Opens(Skip(s)[0]), Skip(s)[1..], x, b);
    }
  }

  lemma NearItself(opens: Option<nat>, s: Lines, x: string, b: Lines)
    ensures NearAfter(opens, s, s, x, b)
  {
  }

  /** Reaching `b` from a head line means reaching it from what that line leaves. */
  lemma ReachesBehindHead(a: Lines, x: string, b: Lines)
    requires a != [] && Insertable(a, x, b)
    ensures var s, t := a[1..] + b, a[1..] + ([x] + b);
            if IsContent(a[0]) && Opens(a[0]).Some? then
              Reaches(Behind(s, Opens(a[0]).value), b)
              && (IsBlank(x) || Reaches(Behind(t, Opens(a[0]).value), [x] + b))
            else Insertable(a[1..], x, b)
  {
    hide IsContent, Opens, Behind, IsBlank;
    assert (a + b)[1..] == a[1..] + b && (a + ([x] + b))[1..] == a[1..] + ([x] + b);
    assert |a + b| > |b| && |a + ([x] + b)| > |[x] + b|;
  }

  lemma InsertedTail(a: Lines, x: string, b: Lines)
    requires a != [] && IsContent(a[0]) && Insertable(a, x, b)
    ensures NearAfter(Opens(a[0]), a[1..] + b, a[1..] + ([x] + b), x, b)
  {
    hide IsContent, Opens, Behind, IsBlank, Reaches;
    ReachesBehindHead(a, x, b);
    var s := a[1..] + b;
    assert s[|s| - |b|..] == b && s[..|s| - |b|] == a[1..];
    if Opens(a[0]).None? { ApartParts(a[1..], x, b); }
  }

  /** A block scalar has the same text and leaves off at the same line. */
  lemma BlockScalarNear(s: Lines, t: Lines, indent: nat, style: string, x: string, b: Lines)
    requires NearAfter(Some(indent), s, t, x, b)
    ensures BlockScalar(s, indent, style).value == BlockScalar(t, indent, style).value
    ensures Near(BlockScalar(s, indent, style).rest, BlockScalar(t, indent, style).rest, x, b)
  {
    hide IsContent, Opens, IsBlank, Indent, Reaches, Inside, ScalarLines, ScalarText;
    if s != t {
      var a := s[..|s| - |b|];
      assert s == a + b;
      var r, q := Behind(s, indent), Behind(t, indent);
      BehindIsRest(s, indent, style);
      BehindIsRest(t, indent, style);
      ReachesShorter(r, b);
      if !IsBlank(x) { ReachesShorter(q, [x] + b); }
      ScalarWithLine(a, x, b, indent, None);
      BehindIsSuffix(s, indent);
      BehindIsSuffix(t, indent);
      SplitWithin(a, b, Inside(s, indent), r);
      var n := |Inside(s, indent)|;
      if n < |a| {
        SplitWithin(a, [x] + b, Inside(t, indent), q);
        TextOfInside(s, t, indent, style);
        ApartParts(a[n..], x, b);
      } else if IsBlank(x) {
        assert a + ([x] + b) == (a + [x]) + b;
        SplitWithin(a + [x], b, Inside(t, indent), q);
        assert r == b && q == b && Inside(s, indent) == a && Inside(t, indent) == a + [x];
        TextOfBlankInside(s, t, indent, style, x);
      } else {
        SplitWithin(a, [x] + b, Inside(t, indent), q);
        assert r == b && q == [x] + b && Inside(s, indent) == a == Inside(t, indent);
        TextOfInside(s, t, indent, style);
        InsertableFirst(x, b);
        ApartParts([], x, b);
        assert [] + b == b && [] + ([x] + b) == [x] + b;
      }
    }
  }

  lemma InsertableFirst(x: string, b: Lines)
    requires !IsContent(x)
    ensures Insertable([], x, b)
  {
    hide IsContent;
    assert [] + b == b && [] + ([x] + b) == [x] + b;
  }

  /** The text depends on the lines inside alone. */
  lemma TextOfInside(s: Lines, t: Lines, indent: nat, style: string)
    requires Inside(s, indent) == Inside(t, indent)
    ensures BlockScalar(s, indent, style).value == BlockScalar(t, indent, style).value
  {
    hide ScalarLines, ScalarText;
    InsideIsSwallowed(s, indent, None);
    InsideIsSwallowed(t, indent, None);
  }

  lemma TextOfBlankInside(s: Lines, t: Lines, indent: nat, style: string, x: string)
    requires IsBlank(x) && Inside(t, indent) == Inside(s, indent) + [x]
    ensures BlockScalar(s, indent, style).value == BlockScalar(t, indent, style).value
  {
    hide ScalarLines, Join, RStrip, IsBlank;
    InsideIsSwallowed(s, indent, None);
    InsideIsSwallowed(t, indent, None);
    BlankTail(Inside(s, indent), x, indent, None);
    JoinBlank(ScalarLines(Inside(s, indent), indent, None).value);
  }

  lemma {:induction false} BlockNear(s: Lines, t: Lines, indent: nat, x: string, b: Lines)
    requires Near(s, t, x, b)
    ensures SameAnswer(Block(s, indent), Block(t, indent), x, b)
    decreases |s|, 2
  {
    hide Items, Fields, Near, NearAfter, Skip, IsItem, Indent, Opens;
    SkipNear(s, t, x, b);
    var s', t' := Skip(s), Skip(t);
    if s' == [] || Indent(s'[0]) < indent {
    } else if IsItem(s'[0]) {
      ItemsNear(s', t', indent, [], x, b);
    } else {
      FieldsNear(s', t', indent, [], x, b);
    }
  }

  lemma {:induction false} ItemsNear(s: Lines, t: Lines, indent: nat, items: seq<Node>, x: string, b: Lines)
    requires Near(s, t, x, b)
    ensures SameAnswer(Items(s, indent, items), Items(t, indent, items), x, b)
    decreases |s|, 1
  {
    hide Items, FieldsFrom, Near, NearAfter, Skip, IsItem, Indent, OpensAt, ScalarOf, ItemText;
    SkipNear(s, t, x, b);
    var s', t' := Skip(s), Skip(t);
    ItemsUnfold(s, indent, items);
    ItemsUnfold(t, indent, items);
    if s' == [] || Indent(s'[0]) != indent || !IsItem(s'[0]) {
    } else {
      var text := ItemText(s'[0]);
      if ':' in text {
        FieldsFromNear(text, s'[1..], t'[1..], indent + 2, x, b);
        var r, q := FieldsFrom(text, s'[1..], indent + 2), FieldsFrom(text, t'[1..], indent + 2);
        if r.Ok? { ItemsNear(r.value.rest, q.value.rest, indent, items + [r.value.value], x, b); }
      } else {
        NearNothing(s'[1..], t'[1..], x, b);
        ItemsNear(s'[1..], t'[1..], indent, items + [Scalar(ScalarOf(text))], x, b);
      }
    }
  }

  lemma NearNothing(s: Lines, t: Lines, x: string, b: Lines)
    ensures NearAfter(None, s, t, x, b) == Near(s, t, x, b)
  {
  }

  lemma {:induction false} FieldsNear(s: Lines, t: Lines, indent: nat, entries: seq<Entry>, x: string, b: Lines)
    requires Near(s, t, x, b)
    ensures SameAnswer(Fields(s, indent, entries), Fields(t, indent, entries), x, b)
    decreases |s|, 1
  {
    hide Fields, FieldValue, Near, NearAfter, Skip, IsItem, Indent, OpensAt, HasKey;
    SkipNear(s, t, x, b);
    var s', t' := Skip(s), Skip(t);
    FieldsUnfold(s, indent, entries);
    FieldsUnfold(t, indent, entries);
    if s' != [] && Indent(s'[0]) == indent && !IsItem(s'[0]) {
      var text := DropSpaces(s'[0]);
      FieldNear(text, s'[1..], t'[1..], indent, x, b);
      var r, q := FieldValue(text, s'[1..], indent), FieldValue(text, t'[1..], indent);
      if r.Ok? && !HasKey(entries, r.value.value.key) {
        FieldsNear(r.value.rest, q.value.rest, indent, entries + [r.value.value], x, b);
      }
    }
  }

  lemma {:induction false} FieldsFromNear(first: string, s: Lines, t: Lines, indent: nat, x: string, b: Lines)
    requires NearAfter(OpensAt(first, indent), s, t, x, b)
    ensures SameAnswer(FieldsFrom(first, s, indent), FieldsFrom(first, t, indent), x, b)
    decreases |s|, 4
  {
    hide FieldValue, Fields, Near, NearAfter, OpensAt;
    FieldNear(first, s, t, indent, x, b);
    var r, q := FieldValue(first, s, indent), FieldValue(first, t, indent);
    if r.Ok? { FieldsNear(r.value.rest, q.value.rest, indent, [r.value.value], x, b); }
  }

  lemma {:induction false} FieldNear(text: string, s: Lines, t: Lines, indent: nat, x: string, b: Lines)
    requires NearAfter(OpensAt(text, indent), s, t, x, b)
    ensures SameAnswer(FieldValue(text, s, indent), FieldValue(text, t, indent), x, b)
    decreases |s|, 3
  {
    hide Block, BlockScalar, Near, NearAfter, FieldOf, FlowSequence, ScalarOf, IsOpener;
    if FieldOf(text).Some? {
      var raw := FieldOf(text).value.raw;
      if IsOpener(raw) {
        BlockScalarNear(s, t, indent, raw, x, b);
      } else {
        NearNothing(s, t, x, b);
        if !("[" <= raw) && raw == "" { BlockNear(s, t, indent + 2, x, b); }
      }
    }
  }

  /** Inserting a blank line anywhere outside the text of a block scalar, or a comment
      where no block scalar takes it, changes neither the tree nor the error, in any
      document at all. */
  lemma InsertionChangesNothing(a: Lines, x: string, b: Lines)
    requires Insertable(a, x, b)
    ensures Document(a + ([x] + b)) == Document(a + b)
  {
    hide Insertable, Block, Near, Skip;
    ApartParts(a, x, b);
    NearWhenApart(a + b, a + ([x] + b), x, b);
    BlockNear(a + b, a + ([x] + b), 0, x, b);
    var r, q := Block(a + b, 0), Block(a + ([x] + b), 0);
    if r.Ok? { SkipNear(r.value.rest, q.value.rest, x, b); }
  }

  lemma NearWhenApart(s: Lines, t: Lines, x: string, b: Lines)
    requires Apart(s, t, x, b)
    ensures Near(s, t, x, b)
  {
  }

  // ------------------------------------------------- a comment that does matter

  const OPENER: string := "a: |"
  const FIRST: string := "    t"
  const REMARK: string := "  # c"
  const SECOND: string := "    u"

  lemma OpenerKey()
    ensures KeyLength(OPENER) == 1 && ScalarOf("a") == "a"
  {
    assert IsKeyChar('a') && !IsKeyChar(':');
    assert KeyRun(OPENER) == 1;
    assert "a"[1..] == "" && CutComment("") == "" && CutComment("a") == "a";
  }

  lemma OpenerValue()
    ensures Strip(" |") == "|"
  {
    assert " |"[1..] == "|" && LStrip(" |") == "|";
  }

  lemma OpenerField()
    ensures FieldOf(OPENER) == Some(Field("a", "|"))
  {
    hide KeyLength, ScalarOf, Strip;
    OpenerKey();
    OpenerValue();
    assert OPENER[..1] == "a" && OPENER[2..] == " |";
  }

  lemma OpenerReads()
    ensures FieldOf(OPENER) == Some(Field("a", "|"))
    ensures DropSpaces(OPENER) == OPENER && Indent(OPENER) == 0 && IsContent(OPENER) && !IsItem(OPENER)
  {
    hide FieldOf;
    OpenerField();
  }

  lemma TextReads()
    ensures Indent(FIRST) == 4 && Indent(SECOND) == 4 && IsContent(SECOND) && !IsBlank(FIRST)
    ensures Indent(REMARK) == 2 && !IsContent(REMARK) && !IsBlank(REMARK)
  {
    assert FIRST[1..] == "   t" && "   t"[1..] == "  t" && "  t"[1..] == " t" && " t"[1..] == "t";
    assert SECOND[1..] == "   u" && "   u"[1..] == "  u" && "  u"[1..] == " u" && " u"[1..] == "u";
    assert REMARK[1..] == " # c" && " # c"[1..] == "# c";
    assert LStrip("t") == "t" && LStrip(" t") == "t" && LStrip("  t") == "t" && LStrip("   t") == "t";
  }

  /** A document that is one field with a block scalar, and whatever follows it. */
  lemma OneField(o: string, s: Lines, key: string)
    requires IsContent(o) && Indent(o) == 0 && !IsItem(o) && FieldOf(DropSpaces(o)) == Some(Field(key, "|"))
    ensures Opens(o) == Some(0)
    ensures var p := BlockScalar(s, 0, "|");
            var r := Fields(p.rest, 0, [Entry(key, Scalar(p.value))]);
            Block([o] + s, 0) == r
  {
    hide FieldOf, BlockScalar, Fields, Indent, IsContent, IsItem, DropSpaces, HasKey;
    var lines := [o] + s;
    assert lines[1..] == s && Skip(lines) == lines;
    FieldsUnfold(lines, 0, []);
    FirstKey(key);
    assert [] + [Entry(key, Scalar(BlockScalar(s, 0, "|").value))] ==
           [Entry(key, Scalar(BlockScalar(s, 0, "|").value))];
  }

  lemma FirstKey(key: string)
    ensures !HasKey([], key)
  {
  }

  lemma RemarkEndsScalar(f: string, c: string, g: string)
    requires !IsBlank(f) && !IsBlank(c) && 0 < Indent(f) && Indent(c) < Indent(f)
    ensures ScalarLines([f, c, g], 0, None).rest == [c, g]
  {
    hide IsBlank, Indent, ScalarLines;
    assert [f, c, g][1..] == [c, g];
    ScalarUnfold([f, c, g], 0, None);
    ScalarUnfold([c, g], 0, Some(Indent(f)));
  }

  lemma WithoutRemark(f: string, g: string)
    requires !IsBlank(f) && !IsBlank(g) && 0 < Indent(f) == Indent(g)
    ensures ScalarLines([f, g], 0, None).rest == []
  {
    hide IsBlank, Indent, ScalarLines;
    assert [f, g][1..] == [g] && [g][1..] == [];
    ScalarUnfold([f, g], 0, None);
    ScalarUnfold([g], 0, Some(Indent(f)));
    ScalarUnfold([], 0, Some(Indent(f)));
  }

  /** Any comment less indented than the text of a block scalar ends it: the text
      behind it is then indented too far, and without the comment it is text. */
  lemma RemarkMatters(o: string, f: string, c: string, g: string, key: string)
    requires IsContent(o) && Indent(o) == 0 && !IsItem(o) && FieldOf(DropSpaces(o)) == Some(Field(key, "|"))
    requires !IsBlank(f) && IsContent(g) && !IsBlank(c) && !IsContent(c)
    requires Indent(c) < Indent(f) == Indent(g)
    ensures Document([o, f, c, g]) == Err(UnexpectedIndentation(g)) && Document([o, f, g]).Ok?
    ensures !Settled([o, f, c, g])
  {
    hide FieldOf, Indent, IsContent, IsBlank, IsItem, DropSpaces, ScalarLines, ScalarText, Block, Fields, Settled;
    ContentIsNotBlank([g]);
    RemarkEndsScalar(f, c, g);
    WithoutRemark(f, g);
    assert [o, f, c, g] == [o] + [f, c, g] && [o, f, g] == [o] + [f, g];
    OneField(o, [f, c, g], key);
    OneField(o, [f, g], key);
    assert [c, g][1..] == [g] && Skip([c, g]) == Skip([g]) == [g];
    FieldsUnfold([c, g], 0, [Entry(key, Scalar(BlockScalar([f, c, g], 0, "|").value))]);
    FieldsUnfold([], 0, [Entry(key, Scalar(BlockScalar([f, g], 0, "|").value))]);
    RemarkUnsettles(o, f, c, g);
  }

  lemma RemarkUnsettles(o: string, f: string, c: string, g: string)
    requires IsContent(o) && Opens(o) == Some(0) && ScalarLines([f, c, g], 0, None).rest == [c, g]
    requires !IsContent(c) && IsContent(g) && Indent(g) > 0
    ensures !Settled([o, f, c, g])
  {
    hide Indent, IsContent, ScalarLines, Opens;
    assert [o, f, c, g][1..] == [f, c, g] && [c, g][1..] == [g];
    assert Skip([c, g]) == Skip([g]) == [g];
  }

  /** Such a document. */
  lemma CommentCanMatter()
    ensures Document([OPENER, FIRST, REMARK, SECOND]) == Err(UnexpectedIndentation(SECOND))
    ensures Document([OPENER, FIRST, SECOND]).Ok?
  {
    hide Document, Indent, IsContent, IsBlank, IsItem, FieldOf, DropSpaces, Settled;
    OpenerReads();
    TextReads();
    RemarkMatters(OPENER, FIRST, REMARK, SECOND, "a");
  }
}
