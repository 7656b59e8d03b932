/** The workflow parser as written: methods that recurse on an index into the lines
    and loop over it (scripts/verify_ci_cross_build_policy.py). */
module PolicyParser {
  import opened Prelude
  import opened PolicyText
  import opened PolicyGrammar

  /** The answer of a method that stopped at `next`, as a function result. */
  function At<T>(lines: Lines, answer: Result<T, PolicyError>, next: nat): Outcome<T>
    requires next <= |lines|
  {
    match answer
    case Err(e) => Err(e)
    case Ok(v) => Ok(Parsed(v, lines[next..]))
  }

  lemma BodyGrows(s: Lines, indent: nat, column: Option<nat>, body: seq<string>)
    requires s != []
    ensures var p := ScalarLines(s, indent, column);
            && (EndsScalar(s[0], indent, column) ==> p == Parsed([], s))
            && (IsBlank(s[0]) ==>
                  var q := ScalarLines(s[1..], indent, column);
                  body + p.value == (body + [""]) + q.value && p.rest == q.rest)
            && (!IsBlank(s[0]) && !EndsScalar(s[0], indent, column) ==>
                  var c := ContentIndent(s[0], column);
                  var q := ScalarLines(s[1..], indent, Some(c));
                  body + p.value == (body + [s[0][c..]]) + q.value && p.rest == q.rest)
  {
    hide IsBlank, Indent;
    var c := ContentIndent(s[0], column);
    assert forall a: seq<string>, x, b :: a + ([x] + b) == (a + [x]) + b;
  }

  lemma ScalarAtEnd(s: Lines, indent: nat, column: Option<nat>)
    ensures s == [] || EndsScalar(s[0], indent, column) ==> ScalarLines(s, indent, column) == Parsed([], s)
  {
  }

  class Parser {
    const lines: Lines

    constructor (text: string)
      ensures lines == SplitLines(text)
    {
      lines := SplitLines(text);
    }

    method Parse() returns (answer: Result<Node, PolicyError>)
      ensures answer == Document(lines)
    {
      hide PolicyGrammar.Block, Skip;
      var value, index := Block(0, 0);
      assert lines[0..] == lines;
      if value.Err? { return value; }
      index := NextContent(index);
      if index != |lines| { return Err(UnparsedLine(lines[index])); }
      if !value.value.Mapping? { return Err(NotAMapping); }
      answer := value;
    }

    method NextContent(start: nat) returns (index: nat)
      requires start <= |lines|
      ensures start <= index <= |lines| && lines[index..] == Skip(lines[start..])
    {
      index := start;
      while index < |lines| && !IsContent(lines[index])
        invariant start <= index <= |lines| && Skip(lines[index..]) == Skip(lines[start..])
      {
        assert lines[index..][1..] == lines[index + 1..];
        index := index + 1;
      }
    }

    method Block(start: nat, indent: nat) returns (answer: Result<Node, PolicyError>, next: nat)
      requires start <= |lines|
      ensures start <= next <= |lines|
      ensures At(lines, answer, next) == PolicyGrammar.Block(lines[start..], indent)
      decreases |lines| - start, 2
    {
      hide Items, Fields, Skip;
      next := NextContent(start);
      if next >= |lines| || Indent(lines[next]) < indent { return Ok(Null), next; }
      if IsItem(lines[next]) {
        answer, next := SequenceAt(next, indent);
      } else {
        answer, next := MappingFrom(None, next, indent);
      }
    }

    method SequenceAt(start: nat, indent: nat) returns (answer: Result<Node, PolicyError>, index: nat)
      requires start <= |lines|
      ensures start <= index <= |lines|
      ensures At(lines, answer, index) == Items(lines[start..], indent, [])
      decreases |lines| - start, 1
    {
      hide Items, FieldsFrom, Skip, IsItem;
      var items: seq<Node> := [];
      index := start;
      while true
        invariant start <= index <= |lines|
        invariant Items(lines[index..], indent, items) == Items(lines[start..], indent, [])
        decreases |lines| - index
      {
        ghost var left := lines[index..];
        ItemsUnfold(left, indent, items);
        index := NextContent(index);
        if index >= |lines| { break; }
        var line := lines[index];
        if Indent(line) != indent || !IsItem(line) { break; }
        assert Skip(left)[1..] == lines[index + 1..];
        var rest := ItemText(line);
        if ':' in rest {
          var entry;
          entry, index := MappingFrom(Some(rest), index + 1, indent + 2);
          if entry.Err? { return entry, index; }
          items := items + [entry.value];
        } else {
          items := items + [Scalar(ScalarOf(rest))];
          index := index + 1;
        }
      }
      answer := Ok(Sequence(items));
    }

    method MappingFrom(first: Option<string>, start: nat, indent: nat)
      returns (answer: Result<Node, PolicyError>, index: nat)
      requires start <= |lines|
      ensures start <= index <= |lines|
      ensures At(lines, answer, index) ==
              match first case None => Fields(lines[start..], indent, [])
                          case Some(text) => FieldsFrom(text, lines[start..], indent)
      decreases |lines| - start, if first.None? then 1 else 4
    {
      hide FieldValue, Skip;
      var entries: seq<Entry> := [];
      index := start;
      if first.Some? {
        var entry;
        entry, index := EntryAt(first.value, index, indent);
        if entry.Err? { return Err(entry.error), index; }
        entries := [entry.value];
      }
      ghost var whole := if first.None? then Fields(lines[start..], indent, [])
                         else FieldsFrom(first.value, lines[start..], indent);
      while true
        invariant start <= index <= |lines| && Fields(lines[index..], indent, entries) == whole
        decreases |lines| - index
      {
        ghost var left := lines[index..];
        index := NextContent(index);
        if index >= |lines| { break; }
        var line := lines[index];
        if Indent(line) < indent { break; }
        if Indent(line) > indent { return Err(UnexpectedIndentation(line)), index; }
        if IsItem(line) { break; }
        assert Skip(left)[1..] == lines[index + 1..];
        var entry;
        entry, index := EntryAt(DropSpaces(line), index + 1, indent);
        if entry.Err? { return Err(entry.error), index; }
        if HasKey(entries, entry.value.key) { return Err(DuplicateKey(entry.value.key)), index; }
        entries := entries + [entry.value];
      }
      answer := Ok(Mapping(entries));
    }

    method EntryAt(text: string, start: nat, indent: nat) returns (answer: Result<Entry, PolicyError>, index: nat)
      requires start <= |lines|
      ensures start <= index <= |lines|
      ensures At(lines, answer, index) == FieldValue(text, lines[start..], indent)
      decreases |lines| - start, 3
    {
      hide PolicyGrammar.Block, PolicyGrammar.BlockScalar;
      var f := FieldOf(text);
      index := start;
      if f.None? { return Err(UnparsedField(text)), index; }
      var key, raw := f.value.key, f.value.raw;
      if IsOpener(raw) {
        var body;
        body, index := BlockScalar(index, indent, raw);
        return Ok(Entry(key, Scalar(body))), index;
      }
      if "[" <= raw { return Ok(Entry(key, Sequence(Leaves(FlowSequence(raw))))), index; }
      if raw != "" { return Ok(Entry(key, Scalar(ScalarOf(raw)))), index; }
      var value;
      value, index := Block(index, indent + 2);
      if value.Err? { return Err(value.error), index; }
      answer := Ok(Entry(key, value.value));
    }

    method BlockScalar(start: nat, indent: nat, style: string) returns (text: string, index: nat)
      requires start <= |lines|
      ensures start <= index <= |lines|
      ensures Parsed(text, lines[index..]) == PolicyGrammar.BlockScalar(lines[start..], indent, style)
    {
      hide ScalarLines, ScalarText;
      var body: seq<string> := [];
      var column: Option<nat> := None;
      index := start;
      ghost var whole := ScalarLines(lines[start..], indent, None);
      assert [] + whole.value == whole.value;
      while index < |lines|
        invariant start <= index <= |lines|
        invariant body + ScalarLines(lines[index..], indent, column).value == whole.value
        invariant ScalarLines(lines[index..], indent, column).rest == whole.rest
        decreases |lines| - index
      {
        var line := lines[index];
        BodyGrows(lines[index..], indent, column, body);
        assert lines[index..][1..] == lines[index + 1..];
        if IsBlank(line) {
          body := body + [""];
          index := index + 1;
          continue;
        }
        if Indent(line) <= indent { break; }
        if column.None? { column := Some(Indent(line)); }
        if Indent(line) < column.value { break; }
        body := body + [line[column.value..]];
        index := index + 1;
      }
      ScalarAtEnd(lines[index..], indent, column);
      assert body + [] == body;
      text := ScalarText(body, style);
    }
  }
}
