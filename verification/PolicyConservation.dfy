/** An accepted workflow is accounted for line by line: the keys, items and scalars of
    the tree, read in order, are those of the lines, read in order, and stand at the
    columns the nesting of the tree asks for. */
module PolicyConservation {
  import opened PolicyText
  import opened PolicyGrammar

  datatype Event = Key(name: string, column: nat) | Item(column: nat) | Leaf(text: string, column: nat)

  /** A tree in document order, from column `c`: what belongs to a key or an item stands
      two columns further in. */
  function Events(v: Node, c: nat): seq<Event>
    decreases v
  {
    match v
    case Null => []
    case Scalar(text) => [Leaf(text, c)]
    case Sequence(items) => ItemEvents(items, c)
    case Mapping(entries) => EntryEvents(entries, c)
  }

  function ItemEvents(items: seq<Node>, c: nat): seq<Event>
    decreases items
  {
    var n := |items| - 1;
    if items == [] then [] else ItemEvents(items[..n], c) + [Item(c)] + Events(items[n], c + 2)
  }

  function EntryEvents(entries: seq<Entry>, c: nat): seq<Event>
    decreases entries
  {
    var n := |entries| - 1;
    if entries == [] then []
    else EntryEvents(entries[..n], c) + [Key(entries[n].key, c)] + Events(entries[n].value, c + 2)
  }

  /** What a value on the line of its key says. */
  function InlineEvents(raw: string, c: nat): seq<Event> {
    if "[" <= raw then ItemEvents(Leaves(FlowSequence(raw)), c)
    else if raw != "" then [Leaf(ScalarOf(raw), c)]
    else []
  }

  /** The lines one by one, each at its own column, with no idea of nesting: blank and
      comment lines say nothing, a dash line an item, one without a colon its scalar,
      every other line its key and the value beside it, a block scalar all the lines of
      its text. */
  function Scan(s: Lines): seq<Event>
    decreases |s|, 0
  {
    var t := Skip(s);
    if t == [] then []
    else if !IsItem(t[0]) then ScanField(DropSpaces(t[0]), Indent(t[0]), t[1..])
    else if ':' in ItemText(t[0]) then [Item(Indent(t[0]))] + ScanField(ItemText(t[0]), Indent(t[0]) + 2, t[1..])
    else [Item(Indent(t[0])), Leaf(ScalarOf(ItemText(t[0])), Indent(t[0]) + 2)] + Scan(t[1..])
  }

  function ScanField(text: string, indent: nat, s: Lines): seq<Event>
    decreases |s|, 1
  {
    match FieldOf(text)
    case None => Scan(s)
    case Some(Field(key, raw)) =>
      if IsOpener(raw) then
        var p := BlockScalar(s, indent, raw);
        [Key(key, indent), Leaf(p.value, indent + 2)] + Scan(p.rest)
      else [Key(key, indent)] + InlineEvents(raw, indent + 2) + Scan(s)
  }

  lemma ScanSkips(s: Lines)
    ensures Scan(Skip(s)) == Scan(s)
    ensures Skip(s) == [] ==> Scan(s) == []
  {
    hide Skip, ScanField, IsItem, ItemText, Indent;
    SkipTwice(s);
  }

  lemma ScanItem(s: Lines)
    requires Skip(s) != [] && IsItem(Skip(s)[0])
    ensures var t := Skip(s);
            Scan(s) ==
            if ':' in ItemText(t[0]) then [Item(Indent(t[0]))] + ScanField(ItemText(t[0]), Indent(t[0]) + 2, t[1..])
            else [Item(Indent(t[0])), Leaf(ScalarOf(ItemText(t[0])), Indent(t[0]) + 2)] + Scan(t[1..])
  {
    hide Skip, ScanField, IsItem, ItemText, Indent;
  }

  lemma ScanOther(s: Lines)
    requires Skip(s) != [] && !IsItem(Skip(s)[0])
    ensures var t := Skip(s); Scan(s) == ScanField(DropSpaces(t[0]), Indent(t[0]), t[1..])
  {
    hide Skip, ScanField, IsItem, ItemText, Indent;
  }

  lemma AppendItem(items: seq<Node>, v: Node, c: nat)
    ensures ItemEvents(items + [v], c) == ItemEvents(items, c) + [Item(c)] + Events(v, c + 2)
  {
    assert (items + [v])[..|items|] == items;
  }

  lemma AppendEntry(entries: seq<Entry>, e: Entry, c: nat)
    ensures EntryEvents(entries + [e], c) == EntryEvents(entries, c) + [Key(e.key, c)] + Events(e.value, c + 2)
  {
    assert (entries + [e])[..|entries|] == entries;
  }

  lemma {:induction false} BlockKeepsEvents(s: Lines, indent: nat)
    requires Block(s, indent).Ok?
    ensures var p := Block(s, indent).value; Scan(s) == Events(p.value, indent) + Scan(p.rest)
    decreases |s|, 2
  {
    hide Items, Fields, Skip, Scan;
    var t := Skip(s);
    ScanSkips(s);
    if t == [] || Indent(t[0]) < indent {
    } else if IsItem(t[0]) {
      ItemsKeepEvents(t, indent, []);
    } else {
      FieldsKeepEvents(t, indent, []);
    }
  }

  lemma {:induction false} ItemsKeepEvents(s: Lines, indent: nat, items: seq<Node>)
    requires Items(s, indent, items).Ok?
    ensures var p := Items(s, indent, items).value;
            ItemEvents(items, indent) + Scan(s) == Events(p.value, indent) + Scan(p.rest)
    decreases |s|, 1
  {
    hide Items, Scan, FieldsFrom, Skip, ScanField, IsItem, ItemText, Indent;
    var t := Skip(s);
    ScanSkips(s);
    ItemsUnfold(s, indent, items);
    if t != [] && IsItem(t[0]) { ScanItem(s); }
    if t == [] || Indent(t[0]) != indent || !IsItem(t[0]) {
    } else if ':' in ItemText(t[0]) {
      FieldsFromKeepEvents(ItemText(t[0]), t[1..], indent + 2);
      var p := FieldsFrom(ItemText(t[0]), t[1..], indent + 2).value;
      AppendItem(items, p.value, indent);
      ItemsKeepEvents(p.rest, indent, items + [p.value]);
    } else {
      var v := Scalar(ScalarOf(ItemText(t[0])));
      AppendItem(items, v, indent);
      ItemsKeepEvents(t[1..], indent, items + [v]);
    }
  }

  lemma {:induction false} FieldsKeepEvents(s: Lines, indent: nat, entries: seq<Entry>)
    requires Fields(s, indent, entries).Ok?
    ensures var p := Fields(s, indent, entries).value;
            EntryEvents(entries, indent) + Scan(s) == Events(p.value, indent) + Scan(p.rest)
    decreases |s|, 1
  {
    hide Fields, Scan, FieldValue, Skip, ScanField, IsItem, Indent;
    var t := Skip(s);
    ScanSkips(s);
    FieldsUnfold(s, indent, entries);
    if t != [] && !IsItem(t[0]) { ScanOther(s); }
    if t == [] || Indent(t[0]) < indent || IsItem(t[0]) {
    } else {
      FieldKeepsEvents(DropSpaces(t[0]), t[1..], indent);
      var p := FieldValue(DropSpaces(t[0]), t[1..], indent).value;
      AppendEntry(entries, p.value, indent);
      FieldsKeepEvents(p.rest, indent, entries + [p.value]);
    }
  }

  lemma {:induction false} FieldsFromKeepEvents(first: string, s: Lines, indent: nat)
    requires FieldsFrom(first, s, indent).Ok?
    ensures var p := FieldsFrom(first, s, indent).value;
            ScanField(first, indent, s) == Events(p.value, indent) + Scan(p.rest)
    decreases |s|, 4
  {
    hide FieldValue, Fields, ScanField, Scan;
    FieldKeepsEvents(first, s, indent);
    var p := FieldValue(first, s, indent).value;
    AppendEntry([], p.value, indent);
    assert [] + [p.value] == [p.value];
    FieldsKeepEvents(p.rest, indent, [p.value]);
  }

  lemma {:induction false} FieldKeepsEvents(text: string, s: Lines, indent: nat)
    requires FieldValue(text, s, indent).Ok?
    ensures var p := FieldValue(text, s, indent).value;
            ScanField(text, indent, s) ==
            [Key(p.value.key, indent)] + Events(p.value.value, indent + 2) + Scan(p.rest)
    decreases |s|, 3
  {
    hide Block, BlockScalar, Scan, FieldOf, FlowSequence, ScalarOf, IsOpener, ItemEvents, EntryEvents, Leaves;
    var raw := FieldOf(text).value.raw;
    if !IsOpener(raw) && !("[" <= raw) && raw == "" { BlockKeepsEvents(s, indent + 2); }
  }

  /** Every accepted workflow: no line is dropped, repeated, reordered or invented. */
  lemma AcceptedIsAccountedFor(lines: Lines)
    requires Document(lines).Ok?
    ensures Events(Document(lines).value, 0) == Scan(lines)
  {
    hide Block, Skip;
    BlockKeepsEvents(lines, 0);
    var rest := Block(lines, 0).value.rest;
    ScanSkips(rest);
  }

  // -------------------------------------------------------------- unique keys

  predicate KeysDistinct(entries: seq<Entry>) {
    forall i, j :: 0 <= i < j < |entries| ==> entries[i].key != entries[j].key
  }

  /** No mapping anywhere in the tree has the same key twice. */
  predicate Unambiguous(v: Node)
    decreases v
  {
    match v
    case Null => true
    case Scalar(_) => true
    case Sequence(items) => forall i :: 0 <= i < |items| ==> Unambiguous(items[i])
    case Mapping(entries) => KeysDistinct(entries) && forall i :: 0 <= i < |entries| ==> Unambiguous(entries[i].value)
  }

  lemma {:induction false} LeavesUnambiguous(texts: seq<string>)
    ensures Unambiguous(Sequence(Leaves(texts)))
    decreases |texts|
  {
    if texts != [] {
      LeavesUnambiguous(texts[1..]);
      var items, rest := Leaves(texts), Leaves(texts[1..]);
      forall i | 0 <= i < |items| ensures Unambiguous(items[i]) {
        if i > 0 { assert items[i] == rest[i-1]; }
      }
    }
  }

  lemma {:induction false} BlockUnambiguous(s: Lines, indent: nat)
    requires Block(s, indent).Ok?
    ensures Unambiguous(Block(s, indent).value.value)
    decreases |s|, 2
  {
    hide Items, Fields, Skip;
    var t := Skip(s);
    if t == [] || Indent(t[0]) < indent {
    } else if IsItem(t[0]) {
      ItemsUnambiguous(t, indent, []);
    } else {
      FieldsUnambiguous(t, indent, []);
    }
  }

  lemma {:induction false} ItemsUnambiguous(s: Lines, indent: nat, items: seq<Node>)
    requires Items(s, indent, items).Ok? && Unambiguous(Sequence(items))
    ensures Unambiguous(Items(s, indent, items).value.value)
    decreases |s|, 1
  {
    hide Items, FieldsFrom, Skip, IsItem, ItemText;
    var t := Skip(s);
    ItemsUnfold(s, indent, items);
    if t == [] || Indent(t[0]) != indent || !IsItem(t[0]) {
    } else if ':' in ItemText(t[0]) {
      FieldsFromUnambiguous(ItemText(t[0]), t[1..], indent + 2);
      var p := FieldsFrom(ItemText(t[0]), t[1..], indent + 2).value;
      ItemsUnambiguous(p.rest, indent, items + [p.value]);
    } else {
      ItemsUnambiguous(t[1..], indent, items + [Scalar(ScalarOf(ItemText(t[0])))]);
    }
  }

  lemma {:induction false} FieldsUnambiguous(s: Lines, indent: nat, entries: seq<Entry>)
    requires Fields(s, indent, entries).Ok? && Unambiguous(Mapping(entries))
    ensures Unambiguous(Fields(s, indent, entries).value.value)
    decreases |s|, 1
  {
    hide Fields, FieldValue, Skip, IsItem, Indent;
    var t := Skip(s);
    FieldsUnfold(s, indent, entries);
    if t == [] || Indent(t[0]) < indent || IsItem(t[0]) {
    } else {
      FieldUnambiguous(DropSpaces(t[0]), t[1..], indent);
      var p := FieldValue(DropSpaces(t[0]), t[1..], indent).value;
      assert forall i :: 0 <= i < |entries| ==> entries[i].key != p.value.key;
      FieldsUnambiguous(p.rest, indent, entries + [p.value]);
    }
  }

  lemma {:induction false} FieldsFromUnambiguous(first: string, s: Lines, indent: nat)
    requires FieldsFrom(first, s, indent).Ok?
    ensures Unambiguous(FieldsFrom(first, s, indent).value.value)
    decreases |s|, 4
  {
    hide FieldValue, Fields;
    FieldUnambiguous(first, s, indent);
    var p := FieldValue(first, s, indent).value;
    FieldsUnambiguous(p.rest, indent, [p.value]);
  }

  lemma {:induction false} FieldUnambiguous(text: string, s: Lines, indent: nat)
    requires FieldValue(text, s, indent).Ok?
    ensures Unambiguous(FieldValue(text, s, indent).value.value.value)
    decreases |s|, 3
  {
    hide Block, BlockScalar, FieldOf, FlowSequence;
    var raw := FieldOf(text).value.raw;
    if IsOpener(raw) {
    } else if "[" <= raw {
      LeavesUnambiguous(FlowSequence(raw));
    } else if raw == "" {
      BlockUnambiguous(s, indent + 2);
    }
  }

  /** Duplicate keys never get through, at any depth. */
  lemma AcceptedIsUnambiguous(lines: Lines)
    requires Document(lines).Ok?
    ensures Document(lines).value.Mapping? && Unambiguous(Document(lines).value)
  {
    hide Block;
    BlockUnambiguous(lines, 0);
  }
}
