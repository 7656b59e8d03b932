/** What the workflow parser makes of a list of lines, as functions of the lines that
    are left (scripts/verify_ci_cross_build_policy.py). */
module PolicyGrammar {
  import opened Prelude
  import opened PolicyText

  type Lines = seq<string>

  datatype Node =
    | Null
    | Scalar(text: string)
    | Sequence(items: seq<Node>)
    | Mapping(entries: seq<Entry>)

  /** A mapping keeps its entries in the order they were added. */
  datatype Entry = Entry(key: string, value: Node)

  datatype PolicyError =
    | DuplicateKey(key: string)
    | UnexpectedIndentation(line: string)
    | UnparsedField(text: string)
    | UnparsedLine(line: string)
    | NotAMapping

  /** A value and the lines behind it. */
  datatype Parsed<T> = Parsed(value: T, rest: Lines)

  type Outcome<T> = Result<Parsed<T>, PolicyError>

  function Skip(s: Lines): (r: Lines)
    ensures |r| <= |s|
    ensures r != [] ==> IsContent(r[0])
    decreases |s|
  {
    if s == [] || IsContent(s[0]) then s else Skip(s[1..])
  }

  predicate IsItem(line: string) {
    "- " <= DropSpaces(line)
  }

  function ItemText(line: string): string
    requires IsItem(line)
  {
    DropSpaces(line)[2..]
  }

  predicate HasKey(entries: seq<Entry>, key: string) {
    exists i :: 0 <= i < |entries| && entries[i].key == key
  }

  // ----------------------------------------------------------- block scalars

  predicate IsOpener(raw: string) {
    raw == "|" || raw == "|-" || raw == ">" || raw == ">-"
  }

  /** Where a block scalar stands: before its first text line, or at its indentation. */
  function ContentIndent(line: string, column: Option<nat>): nat {
    if column.Some? then column.value else Indent(line)
  }

  predicate EndsScalar(line: string, indent: nat, column: Option<nat>) {
    !IsBlank(line) && (Indent(line) <= indent || Indent(line) < ContentIndent(line, column))
  }

  function ScalarLines(s: Lines, indent: nat, column: Option<nat>): (p: Parsed<seq<string>>)
    ensures |p.rest| <= |s|
    decreases |s|
  {
    if s == [] || EndsScalar(s[0], indent, column) then Parsed([], s)
    else if IsBlank(s[0]) then
      var p := ScalarLines(s[1..], indent, column);
      Parsed([""] + p.value, p.rest)
    else
      var c := ContentIndent(s[0], column);
      var p := ScalarLines(s[1..], indent, Some(c));
      Parsed([s[0][c..]] + p.value, p.rest)
  }

  function ScalarText(body: seq<string>, style: string): string {
    var text := RStrip(Join(body));
    if style != "" && style[|style|-1] == '-' then text else text + "\n"
  }

  function BlockScalar(s: Lines, indent: nat, style: string): Parsed<string> {
    var p := ScalarLines(s, indent, None);
    Parsed(ScalarText(p.value, style), p.rest)
  }

  // ------------------------------------------------------------------ values

  function Leaves(texts: seq<string>): (r: seq<Node>)
    ensures |r| == |texts|
    decreases |texts|
  {
    if texts == [] then [] else [Scalar(texts[0])] + Leaves(texts[1..])
  }

  function Block(s: Lines, indent: nat): (r: Outcome<Node>)
    ensures r.Ok? ==> |r.value.rest| <= |s|
    decreases |s|, 2
  {
    var t := Skip(s);
    if t == [] || Indent(t[0]) < indent then Ok(Parsed(Null, t))
    else if IsItem(t[0]) then Items(t, indent, [])
    else Fields(t, indent, [])
  }

  function Items(s: Lines, indent: nat, items: seq<Node>): (r: Outcome<Node>)
    ensures r.Ok? ==> |r.value.rest| <= |s|
    decreases |s|, 1
  {
    var t := Skip(s);
    if t == [] || Indent(t[0]) != indent || !IsItem(t[0]) then Ok(Parsed(Sequence(items), t))
    else if ':' in ItemText(t[0]) then
      match FieldsFrom(ItemText(t[0]), t[1..], indent + 2)
      case Err(e) => Err(e)
      case Ok(p) => Items(p.rest, indent, items + [p.value])
    else Items(t[1..], indent, items + [Scalar(ScalarOf(ItemText(t[0])))])
  }

  function Fields(s: Lines, indent: nat, entries: seq<Entry>): (r: Outcome<Node>)
    ensures r.Ok? ==> |r.value.rest| <= |s|
    decreases |s|, 1
  {
    var t := Skip(s);
    if t == [] || Indent(t[0]) < indent then Ok(Parsed(Mapping(entries), t))
    else if Indent(t[0]) > indent then Err(UnexpectedIndentation(t[0]))
    else if IsItem(t[0]) then Ok(Parsed(Mapping(entries), t))
    else
      match FieldValue(DropSpaces(t[0]), t[1..], indent)
      case Err(e) => Err(e)
      case Ok(p) =>
        if HasKey(entries, p.value.key) then Err(DuplicateKey(p.value.key))
        else Fields(p.rest, indent, entries + [p.value])
  }

  /** A mapping whose first field stands behind a dash. */
  function FieldsFrom(first: string, s: Lines, indent: nat): (r: Outcome<Node>)
    ensures r.Ok? ==> |r.value.rest| <= |s|
    decreases |s|, 4
  {
    match FieldValue(first, s, indent)
    case Err(e) => Err(e)
    case Ok(p) => Fields(p.rest, indent, [p.value])
  }

  function FieldValue(text: string, s: Lines, indent: nat): (r: Outcome<Entry>)
    ensures r.Ok? ==> |r.value.rest| <= |s|
    decreases |s|, 3
  {
    match FieldOf(text)
    case None => Err(UnparsedField(text))
    case Some(Field(key, raw)) =>
      if IsOpener(raw) then
        var p := BlockScalar(s, indent, raw);
        Ok(Parsed(Entry(key, Scalar(p.value)), p.rest))
      else if "[" <= raw then Ok(Parsed(Entry(key, Sequence(Leaves(FlowSequence(raw)))), s))
      else if raw != "" then Ok(Parsed(Entry(key, Scalar(ScalarOf(raw))), s))
      else
        match Block(s, indent + 2)
        case Err(e) => Err(e)
        case Ok(p) => Ok(Parsed(Entry(key, p.value), p.rest))
  }

  lemma SkipTwice(s: Lines)
    ensures Skip(Skip(s)) == Skip(s)
  {
  }

  lemma ItemsUnfold(s: Lines, indent: nat, items: seq<Node>)
    ensures var t := Skip(s);
            var more := t != [] && Indent(t[0]) == indent && IsItem(t[0]);
            && (!more ==> Items(s, indent, items) == Ok(Parsed(Sequence(items), t)))
            && (more && ':' !in ItemText(t[0]) ==>
                  Items(s, indent, items) == Items(t[1..], indent, items + [Scalar(ScalarOf(ItemText(t[0])))]))
            && (more && ':' in ItemText(t[0]) ==>
                  var r := FieldsFrom(ItemText(t[0]), t[1..], indent + 2);
                  Items(s, indent, items) ==
                  if r.Err? then Err(r.error) else Items(r.value.rest, indent, items + [r.value.value]))
  {
    hide Skip, IsItem, ItemText, FieldsFrom;
  }

  lemma FieldsUnfold(s: Lines, indent: nat, entries: seq<Entry>)
    ensures var t := Skip(s);
            && (t == [] || Indent(t[0]) < indent || (Indent(t[0]) == indent && IsItem(t[0])) ==>
                  Fields(s, indent, entries) == Ok(Parsed(Mapping(entries), t)))
            && (t != [] && Indent(t[0]) > indent ==> Fields(s, indent, entries) == Err(UnexpectedIndentation(t[0])))
            && (t != [] && Indent(t[0]) == indent && !IsItem(t[0]) ==>
                  var r := FieldValue(DropSpaces(t[0]), t[1..], indent);
                  Fields(s, indent, entries) ==
                  if r.Err? then Err(r.error)
                  else if HasKey(entries, r.value.value.key) then Err(DuplicateKey(r.value.value.key))
                  else Fields(r.value.rest, indent, entries + [r.value.value]))
  {
    hide Skip, IsItem, FieldValue, HasKey;
  }

  function Document(lines: Lines): Result<Node, PolicyError> {
    match Block(lines, 0)
    case Err(e) => Err(e)
    case Ok(p) =>
      var left := Skip(p.rest);
      if left != [] then Err(UnparsedLine(left[0]))
      else if !p.value.Mapping? then Err(NotAMapping)
      else Ok(p.value)
  }

  function Workflow(text: string): Result<Node, PolicyError> {
    Document(SplitLines(text))
  }
}
