/** The text of the authorization document loses nothing: different documents have
    different texts (crates/sigil-host/src/authorization.rs:133-189, 1053-1070). */
module AuthorizationReading {
  import opened Prelude
  import opened Invitation
  import opened Authorization
  import opened AuthorizationText

  // ------------------------------------------------------------------ numbers

  predicate IsDigit(c: char) {
    '0' <= c <= '9'
  }

  predicate Digits(s: string) {
    forall i :: 0 <= i < |s| ==> IsDigit(s[i])
  }

  /** The number a text of digits stands for. */
  function Value(s: string): nat
    requires Digits(s)
    decreases |s|
  {
    if s == "" then 0 else Value(s[..|s|-1]) * 10 + (s[|s|-1] as int - '0' as int)
  }

  lemma {:induction false} DecimalReads(n: nat)
    ensures Decimal(n) != "" && Digits(Decimal(n)) && Value(Decimal(n)) == n
    decreases n
  {
    var s := Decimal(n);
    if n >= 10 {
      DecimalReads(n / 10);
      assert s[..|s|-1] == Decimal(n / 10);
    } else {
      assert s[..0] == "";
    }
  }

  lemma {:induction false} HexReads(a: Bytes, b: Bytes)
    requires Hex(a) == Hex(b)
    ensures a == b
    decreases |a|
  {
    if a != [] && b != [] {
      assert Hex(a)[2..] == Hex(a[1..]) && Hex(b)[2..] == Hex(b[1..]);
      HexReads(a[1..], b[1..]);
      DigitsDiffer(a[0] / 16, b[0] / 16);
      DigitsDiffer(a[0] % 16, b[0] % 16);
      assert Hex(a)[0] == Hex(b)[0] && Hex(a)[1] == Hex(b)[1];
      assert a == [a[0]] + a[1..] && b == [b[0]] + b[1..];
    }
  }

  lemma DigitsDiffer(m: nat, n: nat)
    requires m < 16 && n < 16
    ensures HexDigit(m) == HexDigit(n) ==> m == n
  {
    HexValueIs(m);
    HexValueIs(n);
  }

  function HexValue(c: char): int {
    if c <= '9' then c as int - '0' as int else c as int - 'a' as int + 10
  }

  lemma HexValueIs(n: nat)
    requires n < 16
    ensures HexValue(HexDigit(n)) == n
  {
    var digits := "0123456789abcdef";
    assert digits[0] == '0' && digits[1] == '1' && digits[2] == '2' && digits[3] == '3' && digits[4] == '4';
    assert digits[5] == '5' && digits[6] == '6' && digits[7] == '7' && digits[8] == '8' && digits[9] == '9';
    assert digits[10] == 'a' && digits[11] == 'b' && digits[12] == 'c' && digits[13] == 'd' && digits[14] == 'e';
    assert digits[15] == 'f';
  }

  // --------------------------------------------------------------------- JSON

  predicate NoQuote(s: string) {
    '"' !in s
  }

  /** JSON whose texts need no escapes. */
  predicate Plain(j: Json)
    decreases j
  {
    match j
    case Text(text) => NoQuote(text)
    case List(items) => forall i :: 0 <= i < |items| ==> Plain(items[i])
    case Record(fields) => forall i :: 0 <= i < |fields| ==> NoQuote(fields[i].key) && Plain(fields[i].value)
    case _ => true
  }

  /** What may stand behind a value. */
  predicate Stops(x: string) {
    x == "" || !IsDigit(x[0])
  }

  lemma Cancel(p: string, u: string, v: string)
    requires p + u == p + v
    ensures u == v
  {
    assert (p + u)[|p|..] == u && (p + v)[|p|..] == v;
  }

  lemma BehindShorter(a: string, b: string, x: string, y: string)
    requires a + x == b + y && |a| < |b|
    ensures x != "" && x[0] == b[|a|]
  {
    assert (a + x)[|a|] == (b + y)[|a|];
  }

  lemma SameLength(a: string, b: string, x: string, y: string)
    requires a + x == b + y && |a| == |b|
    ensures a == b && x == y
  {
    assert (a + x)[..|a|] == a && (b + y)[..|b|] == b && (a + x)[|a|..] == x && (b + y)[|b|..] == y;
  }

  lemma SameDigits(a: string, b: string, x: string, y: string)
    requires Digits(a) && Digits(b) && Stops(x) && Stops(y) && a + x == b + y && |a| <= |b|
    ensures a == b && x == y
  {
    if |a| < |b| { BehindShorter(a, b, x, y); } else { SameLength(a, b, x, y); }
  }

  lemma SameNumber(m: nat, n: nat, x: string, y: string)
    requires Stops(x) && Stops(y) && Decimal(m) + x == Decimal(n) + y
    ensures m == n && x == y
  {
    hide Decimal, Value;
    DecimalReads(m);
    DecimalReads(n);
    if |Decimal(m)| <= |Decimal(n)| { SameDigits(Decimal(m), Decimal(n), x, y); }
    else { SameDigits(Decimal(n), Decimal(m), y, x); }
  }

  lemma QuoteInside(s: string, t: string, x: string, y: string)
    requires Quoted(s) + x == Quoted(t) + y && |s| < |t|
    ensures t[|s|] == '"'
  {
    assert (Quoted(s) + x)[|s| + 1] == (Quoted(t) + y)[|s| + 1];
  }

  lemma SameText(s: string, t: string, x: string, y: string)
    requires NoQuote(s) && NoQuote(t) && Quoted(s) + x == Quoted(t) + y
    ensures s == t && x == y
  {
    if |s| < |t| { QuoteInside(s, t, x, y); }
    else if |t| < |s| { QuoteInside(t, s, y, x); }
    else {
      SameLength(Quoted(s), Quoted(t), x, y);
      assert Quoted(s)[1..|s| + 1] == s && Quoted(t)[1..|t| + 1] == t;
    }
  }

  /** The first character tells what kind of value it is. */
  lemma FirstOf(j: Json, depth: nat)
    ensures var p := Pretty(j, depth);
            p != "" && match j
                       case Null => p[0] == 'n'
                       case Number(_) => IsDigit(p[0])
                       case Text(_) => p[0] == '"'
                       case List(_) => p[0] == '['
                       case Record(_) => p[0] == '{'
  {
    match j
    case Number(n) => DecimalReads(n);
    case _ =>
  }

  function ItemsTail(items: seq<Json>, depth: nat): string
    requires items != []
  {
    if |items| == 1 then "" else "," + PrettyItems(items[1..], depth)
  }

  function FieldsTail(fields: seq<Field>, depth: nat): string
    requires fields != []
  {
    if |fields| == 1 then "" else "," + PrettyFields(fields[1..], depth)
  }

  /** A value is read in one way only. */
  lemma {:induction false} PrettyIsUnique(a: Json, b: Json, depth: nat, x: string, y: string)
    requires Plain(a) && Plain(b) && Stops(x) && Stops(y)
    requires Pretty(a, depth) + x == Pretty(b, depth) + y
    ensures a == b && x == y
    decreases a, 1
  {
    hide Pretty, PrettyItems, PrettyFields, Decimal;
    FirstOf(a, depth);
    FirstOf(b, depth);
    assert (Pretty(a, depth) + x)[0] == Pretty(a, depth)[0] && (Pretty(b, depth) + y)[0] == Pretty(b, depth)[0];
    PrettyUnfolds(a, depth);
    PrettyUnfolds(b, depth);
    match a
    case Null => Cancel("null", x, y);
    case Number(n) => SameNumber(n, b.n, x, y);
    case Text(s) => SameText(s, b.text, x, y);
    case List(items) => ListIsUnique(items, b.items, depth, x, y);
    case Record(fields) => RecordIsUnique(fields, b.fields, depth, x, y);
  }

  lemma PrettyUnfolds(j: Json, depth: nat)
    ensures match j
            case Null => Pretty(j, depth) == "null"
            case Number(n) => Pretty(j, depth) == Decimal(n)
            case Text(s) => Pretty(j, depth) == Quoted(s)
            case List(items) =>
              Pretty(j, depth) ==
              if items == [] then "[]" else "[" + PrettyItems(items, depth + 1) + NewLine(depth) + "]"
            case Record(fields) =>
              Pretty(j, depth) ==
              if fields == [] then "{}" else "{" + PrettyFields(fields, depth + 1) + NewLine(depth) + "}"
  {
  }

  /** A list opens with a bracket, and then with a line unless it is empty. */
  lemma ListOpens(items: seq<Json>, depth: nat, x: string)
    ensures var p := Pretty(List(items), depth) + x;
            if items == [] then p == "[]" + x && p[1] == ']'
            else p == "[" + (PrettyItems(items, depth + 1) + (NewLine(depth) + ("]" + x))) && p[1] == '\n'
    ensures "\n" <= NewLine(depth) + ("]" + x)
  {
    hide Pretty, PrettyItems;
    PrettyUnfolds(List(items), depth);
    if items != [] { ItemsBegin(items, depth + 1); }
  }

  lemma {:induction false} ListIsUnique(a: seq<Json>, b: seq<Json>, depth: nat, x: string, y: string)
    requires (forall i :: 0 <= i < |a| ==> Plain(a[i])) && (forall i :: 0 <= i < |b| ==> Plain(b[i]))
    requires Pretty(List(a), depth) + x == Pretty(List(b), depth) + y
    ensures a == b && x == y
    decreases a, 1
  {
    hide Pretty, PrettyItems, Plain, NewLine;
    ListOpens(a, depth, x);
    ListOpens(b, depth, y);
    if a == [] {
      Cancel("[]", x, y);
    } else {
      var u, v := NewLine(depth) + ("]" + x), NewLine(depth) + ("]" + y);
      Cancel("[", PrettyItems(a, depth + 1) + u, PrettyItems(b, depth + 1) + v);
      ItemsAreUnique(a, b, depth + 1, u, v);
      Cancel(NewLine(depth), "]" + x, "]" + y);
      Cancel("]", x, y);
    }
  }

  lemma ItemsBegin(items: seq<Json>, depth: nat)
    requires items != []
    ensures PrettyItems(items, depth) == NewLine(depth) + Pretty(items[0], depth) + ItemsTail(items, depth)
    ensures PrettyItems(items, depth)[0] == '\n'
  {
  }

  lemma {:induction false} ItemsAreUnique(a: seq<Json>, b: seq<Json>, depth: nat, x: string, y: string)
    requires a != [] && b != []
    requires (forall i :: 0 <= i < |a| ==> Plain(a[i])) && (forall i :: 0 <= i < |b| ==> Plain(b[i]))
    requires "\n" <= x && "\n" <= y && PrettyItems(a, depth) + x == PrettyItems(b, depth) + y
    ensures a == b && x == y
    decreases a, 0
  {
    hide Pretty, PrettyItems, Plain, NewLine;
    ItemsBegin(a, depth);
    ItemsBegin(b, depth);
    var p, s, t := NewLine(depth), ItemsTail(a, depth), ItemsTail(b, depth);
    assert PrettyItems(a, depth) + x == p + (Pretty(a[0], depth) + (s + x));
    assert PrettyItems(b, depth) + y == p + (Pretty(b[0], depth) + (t + y));
    Cancel(p, Pretty(a[0], depth) + (s + x), Pretty(b[0], depth) + (t + y));
    assert (s + x)[0] == if |a| == 1 then '\n' else ',';
    assert (t + y)[0] == if |b| == 1 then '\n' else ',';
    PrettyIsUnique(a[0], b[0], depth, s + x, t + y);
    assert a == [a[0]] + a[1..] && b == [b[0]] + b[1..];
    if |a| > 1 {
      assert s + x == "," + (PrettyItems(a[1..], depth) + x) && t + y == "," + (PrettyItems(b[1..], depth) + y);
      Cancel(",", PrettyItems(a[1..], depth) + x, PrettyItems(b[1..], depth) + y);
      ItemsAreUnique(a[1..], b[1..], depth, x, y);
    } else {
      assert s + x == x && t + y == y;
    }
  }

  lemma RecordOpens(fields: seq<Field>, depth: nat, x: string)
    ensures var p := Pretty(Record(fields), depth) + x;
            if fields == [] then p == "{}" + x && p[1] == '}'
            else p == "{" + (PrettyFields(fields, depth + 1) + (NewLine(depth) + ("}" + x))) && p[1] == '\n'
    ensures "\n" <= NewLine(depth) + ("}" + x)
  {
    hide Pretty, PrettyFields, Quoted, FieldsTail;
    PrettyUnfolds(Record(fields), depth);
    if fields != [] { FieldsStart(fields, depth + 1); }
  }

  lemma {:induction false} RecordIsUnique(a: seq<Field>, b: seq<Field>, depth: nat, x: string, y: string)
    requires Plain(Record(a)) && Plain(Record(b))
    requires Pretty(Record(a), depth) + x == Pretty(Record(b), depth) + y
    ensures a == b && x == y
    decreases a, 1
  {
    hide Pretty, PrettyFields, Plain, NewLine;
    RecordOpens(a, depth, x);
    RecordOpens(b, depth, y);
    if a == [] {
      Cancel("{}", x, y);
    } else {
      var u, v := NewLine(depth) + ("}" + x), NewLine(depth) + ("}" + y);
      Cancel("{", PrettyFields(a, depth + 1) + u, PrettyFields(b, depth + 1) + v);
      FieldsAreUnique(a, b, depth + 1, u, v);
      Cancel(NewLine(depth), "}" + x, "}" + y);
      Cancel("}", x, y);
    }
  }

  lemma FieldsBegin(fields: seq<Field>, depth: nat)
    requires fields != []
    ensures PrettyFields(fields, depth) ==
            NewLine(depth) + Quoted(fields[0].key) + ": " + Pretty(fields[0].value, depth) + FieldsTail(fields, depth)
  {
  }

  lemma FieldsStart(fields: seq<Field>, depth: nat)
    requires fields != []
    ensures "\n" <= PrettyFields(fields, depth)
  {
    hide Pretty, Quoted;
  }

  lemma FirstField(fields: seq<Field>)
    requires fields != [] && Plain(Record(fields))
    ensures NoQuote(fields[0].key) && Plain(fields[0].value) && Plain(Record(fields[1..]))
  {
  }

  lemma FieldsBehind(fields: seq<Field>, depth: nat, x: string)
    requires fields != [] && "\n" <= x
    ensures PrettyFields(fields, depth) + x ==
            NewLine(depth) + (Quoted(fields[0].key)
                              + (": " + (Pretty(fields[0].value, depth) + (FieldsTail(fields, depth) + x))))
    ensures var s := FieldsTail(fields, depth) + x;
            if |fields| == 1 then s == x && s[0] == '\n'
            else s == "," + (PrettyFields(fields[1..], depth) + x) && s[0] == ','
  {
    hide Pretty, PrettyFields, NewLine, Quoted;
    FieldsBegin(fields, depth);
    var p, k, v, s := NewLine(depth), Quoted(fields[0].key), Pretty(fields[0].value, depth), FieldsTail(fields, depth);
    Regroup(p + k + ": " + v, s, x);
    Regroup(p + k + ": ", v, s + x);
    Regroup(p + k, ": ", v + (s + x));
    Regroup(p, k, ": " + (v + (s + x)));
    if |fields| > 1 { Regroup(",", PrettyFields(fields[1..], depth), x); }
  }

  lemma Regroup(a: string, b: string, c: string)
    ensures a + b + c == a + (b + c)
  {
  }

  lemma {:induction false} FieldsAreUnique(a: seq<Field>, b: seq<Field>, depth: nat, x: string, y: string)
    requires a != [] && b != [] && Plain(Record(a)) && Plain(Record(b))
    requires "\n" <= x && "\n" <= y && PrettyFields(a, depth) + x == PrettyFields(b, depth) + y
    ensures a == b && x == y
    decreases a, 0
  {
    hide Pretty, PrettyFields, Plain, NewLine, Quoted, NoQuote, FieldsTail;
    FieldsBehind(a, depth, x);
    FieldsBehind(b, depth, y);
    FirstField(a);
    FirstField(b);
    var s, t := FieldsTail(a, depth) + x, FieldsTail(b, depth) + y;
    var u, v := Pretty(a[0].value, depth) + s, Pretty(b[0].value, depth) + t;
    Cancel(NewLine(depth), Quoted(a[0].key) + (": " + u), Quoted(b[0].key) + (": " + v));
    SameText(a[0].key, b[0].key, ": " + u, ": " + v);
    Cancel(": ", u, v);
    PrettyIsUnique(a[0].value, b[0].value, depth, s, t);
    assert a == [a[0]] + a[1..] && b == [b[0]] + b[1..];
    if |a| > 1 {
      Cancel(",", PrettyFields(a[1..], depth) + x, PrettyFields(b[1..], depth) + y);
      FieldsAreUnique(a[1..], b[1..], depth, x, y);
    }
  }

  // ------------------------------------------------------------- the document

  lemma {:induction false} HexHasNoQuote(bytes: Bytes)
    ensures NoQuote(Hex(bytes))
    decreases |bytes|
  {
    if bytes != [] {
      HexHasNoQuote(bytes[1..]);
      DigitIsNoQuote(bytes[0] / 16);
      DigitIsNoQuote(bytes[0] % 16);
    }
  }

  lemma DigitIsNoQuote(n: nat)
    requires n < 16
    ensures HexDigit(n) != '"'
  {
    HexValueIs(n);
  }

  lemma HandleHasNoQuote(h: string)
    requires ValidHandle(h)
    ensures NoQuote(h)
  {
    forall i | 0 <= i < |h| ensures h[i] != '"' {
      if i < |HANDLE_PREFIX| { assert h[i] == HANDLE_PREFIX[i]; }
    }
  }

  lemma EnrollmentReads(e: Enrollment, f: Enrollment)
    requires EnrollmentJson(e) == EnrollmentJson(f)
    ensures e == f
  {
    hide Hex;
    var a, b := EnrollmentJson(e).fields, EnrollmentJson(f).fields;
    assert a[0] == b[0] && a[1] == b[1] && a[2] == b[2] && a[3] == b[3] && a[4] == b[4];
    HexReads(e.peer, f.peer);
  }

  /** A record of two fields and more is plain when the first and the others are. */
  lemma PlainCons(f: Field, rest: seq<Field>)
    requires NoQuote(f.key) && Plain(f.value) && Plain(Record(rest))
    ensures Plain(Record([f] + rest))
  {
    hide NoQuote;
  }

  lemma NoFieldsArePlain()
    ensures Plain(Record([]))
  {
  }

  lemma PlainAtoms(n: nat, text: string)
    ensures Plain(Number(n)) && Plain(Null) && (NoQuote(text) ==> Plain(Text(text)))
  {
  }

  lemma EnrollmentIsPlain(e: Enrollment)
    requires ValidHandle(e.handle)
    ensures Plain(EnrollmentJson(e))
  {
    hide Hex, ValidHandle, NoQuote, Plain;
    HexHasNoQuote(e.peer);
    HandleHasNoQuote(e.handle);
    PlainAtoms(e.grants, Hex(e.peer));
    PlainAtoms(e.enrolledAt, e.handle);
    PlainAtoms(e.revision, "");
    EntryKeysHaveNoQuote();
    var fs := EnrollmentJson(e).fields;
    NoFieldsArePlain();
    PlainCons(fs[4], []);
    PlainCons(fs[3], [fs[4]] + []);
    PlainCons(fs[2], [fs[3]] + ([fs[4]] + []));
    PlainCons(fs[1], [fs[2]] + ([fs[3]] + ([fs[4]] + [])));
    PlainCons(fs[0], [fs[1]] + ([fs[2]] + ([fs[3]] + ([fs[4]] + []))));
    assert fs == [fs[0]] + ([fs[1]] + ([fs[2]] + ([fs[3]] + ([fs[4]] + []))));
  }

  lemma EntryKeysHaveNoQuote()
    ensures NoQuote("peer_node_id") && NoQuote("handle") && NoQuote("grants") && NoQuote("enrolled_at_unix")
    ensures NoQuote("authorization_revision")
  {
  }

  lemma AuditKeysHaveNoQuote()
    ensures NoQuote("revision") && NoQuote("occurred_at_unix") && NoQuote("action") && NoQuote("handle")
    ensures NoQuote("previous_grants") && NoQuote("current_grants")
  {
  }

  lemma ConsumedReads(c: Consumed, d: Consumed)
    requires ConsumedJson(c) == ConsumedJson(d)
    ensures c == d
  {
    var a, b := ConsumedJson(c).fields, ConsumedJson(d).fields;
    assert a[0].value.items == b[0].value.items && a[1] == b[1];
    forall i | 0 <= i < 32 ensures c.nonce[i] == d.nonce[i] {
      assert a[0].value.items[i] == b[0].value.items[i];
    }
  }

  lemma ConsumedIsPlain(c: Consumed)
    ensures Plain(ConsumedJson(c))
  {
  }

  lemma ActionsDiffer(a: Action, b: Action)
    ensures ActionName(a) == ActionName(b) ==> a == b
    ensures NoQuote(ActionName(a))
  {
    assert "enrolled"[0] == 'e' && "grants_replaced"[0] == 'g' && "revoked"[2] == 'v' && "reset_all"[2] == 's';
    assert "migrated_v1"[0] == 'm' && "revoked"[0] == 'r' && "reset_all"[0] == 'r';
  }

  lemma AuditReads(x: AuditEntry, y: AuditEntry)
    requires AuditJson(x) == AuditJson(y)
    ensures x == y
  {
    hide ActionName;
    ActionsDiffer(x.action, y.action);
    var a, b := AuditJson(x).fields, AuditJson(y).fields;
    assert a[0] == b[0] && a[1] == b[1] && a[2] == b[2] && a[3] == b[3] && a[4] == b[4] && a[5] == b[5];
    GrantsRead(x.previous, y.previous);
    GrantsRead(x.current, y.current);
  }

  lemma GrantsRead(g: Option<Grants>, h: Option<Grants>)
    ensures GrantsJson(g) == GrantsJson(h) ==> g == h
    ensures Plain(GrantsJson(g))
  {
  }

  lemma AuditEntryIsPlain(x: AuditEntry)
    requires ValidHandle(x.handle)
    ensures Plain(AuditJson(x))
  {
    hide ValidHandle, NoQuote, Plain, ActionName, GrantsJson;
    HandleHasNoQuote(x.handle);
    ActionsDiffer(x.action, x.action);
    PlainAtoms(x.revision, x.handle);
    PlainAtoms(x.at, ActionName(x.action));
    GrantsRead(x.previous, x.previous);
    GrantsRead(x.current, x.current);
    AuditKeysHaveNoQuote();
    var fs := AuditJson(x).fields;
    NoFieldsArePlain();
    PlainCons(fs[5], []);
    PlainCons(fs[4], [fs[5]] + []);
    PlainCons(fs[3], [fs[4]] + ([fs[5]] + []));
    PlainCons(fs[2], [fs[3]] + ([fs[4]] + ([fs[5]] + [])));
    PlainCons(fs[1], [fs[2]] + ([fs[3]] + ([fs[4]] + ([fs[5]] + []))));
    PlainCons(fs[0], [fs[1]] + ([fs[2]] + ([fs[3]] + ([fs[4]] + ([fs[5]] + [])))));
    assert fs == [fs[0]] + ([fs[1]] + ([fs[2]] + ([fs[3]] + ([fs[4]] + ([fs[5]] + [])))));
  }

  lemma EnrollmentsArePlain(s: State)
    requires Valid(s, s.host)
    ensures forall i :: 0 <= i < |s.enrollments| ==> Plain(EnrollmentJson(s.enrollments[i]))
  {
    hide Plain, ValidHandle, EnrollmentJson, ValidAudit, ValidLedger, Ordered, DistinctPeers, DistinctHandles;
    forall i | 0 <= i < |s.enrollments| ensures Plain(EnrollmentJson(s.enrollments[i])) {
      assert ValidEnrollment(s.enrollments[i], s.revision);
      EnrollmentIsPlain(s.enrollments[i]);
    }
  }

  lemma AuditIsPlain(s: State)
    requires Valid(s, s.host)
    ensures forall i :: 0 <= i < |s.audit| ==> Plain(AuditJson(s.audit[i]))
  {
    hide Plain, ValidHandle, AuditJson, ValidEnrollment, ValidLedger, Ordered, DistinctPeers, DistinctHandles;
    forall i | 0 <= i < |s.audit| ensures Plain(AuditJson(s.audit[i])) {
      assert ValidAudit(s.audit[i], s.revision);
      AuditEntryIsPlain(s.audit[i]);
    }
  }

  lemma StateIsPlain(s: State)
    requires Valid(s, s.host)
    ensures Plain(StateJson(s))
  {
    EnrollmentsArePlain(s);
    AuditIsPlain(s);
    hide Valid, EnrollmentJson, ConsumedJson, AuditJson, Hex, NoQuote;
    HexHasNoQuote(s.host);
    forall i | 0 <= i < |s.consumed| ensures Plain(ConsumedJson(s.consumed[i])) {
      ConsumedIsPlain(s.consumed[i]);
    }
    KeysHaveNoQuote();
  }

  lemma KeysHaveNoQuote()
    ensures NoQuote("version") && NoQuote("host_node_id") && NoQuote("enrollment_epoch")
    ensures NoQuote("committed_revision") && NoQuote("enrollments") && NoQuote("consumed_invitations")
    ensures NoQuote("security_audit")
  {
  }

  lemma StateReads(s: State, t: State)
    requires StateJson(s) == StateJson(t)
    ensures s == t
  {
    hide EnrollmentJson, ConsumedJson, AuditJson, Hex;
    var a, b := StateJson(s).fields, StateJson(t).fields;
    assert a[0] == b[0] && a[1] == b[1] && a[2] == b[2] && a[3] == b[3];
    assert a[4].value.items == b[4].value.items && a[5].value.items == b[5].value.items;
    assert a[6].value.items == b[6].value.items;
    HexReads(s.host, t.host);
    assert |s.enrollments| == |t.enrollments| && |s.consumed| == |t.consumed| && |s.audit| == |t.audit|;
    forall i | 0 <= i < |s.enrollments| ensures s.enrollments[i] == t.enrollments[i] {
      assert a[4].value.items[i] == b[4].value.items[i];
      EnrollmentReads(s.enrollments[i], t.enrollments[i]);
    }
    forall i | 0 <= i < |s.consumed| ensures s.consumed[i] == t.consumed[i] {
      assert a[5].value.items[i] == b[5].value.items[i];
      ConsumedReads(s.consumed[i], t.consumed[i]);
    }
    forall i | 0 <= i < |s.audit| ensures s.audit[i] == t.audit[i] {
      assert a[6].value.items[i] == b[6].value.items[i];
      AuditReads(s.audit[i], t.audit[i]);
    }
  }

  /** The text of a valid state tells the whole state: no two are written alike, not even
      as the beginnings of longer texts. */
  lemma TextTellsTheState(s: State, t: State)
    requires Valid(s, s.host) && Valid(t, t.host)
    ensures StateText(s) <= StateText(t) <==> s == t
  {
    hide Valid, StateJson, Pretty;
    if StateText(s) <= StateText(t) {
      var rest := StateText(t)[|StateText(s)|..];
      StateIsPlain(s);
      StateIsPlain(t);
      assert StateText(s) + rest == StateText(t) + "";
      RecordsStop(s, t, rest);
      StateReads(s, t);
    }
  }

  /** A record ends with its brace, whatever follows. */
  lemma RecordsStop(s: State, t: State, rest: string)
    requires Plain(StateJson(s)) && Plain(StateJson(t)) && StateText(s) + rest == StateText(t) + ""
    ensures StateJson(s) == StateJson(t) && rest == ""
  {
    hide Pretty, Plain;
    StateIsARecord(s);
    StateIsARecord(t);
    RecordIsUnique(StateJson(s).fields, StateJson(t).fields, 0, rest, "");
  }

  lemma StateIsARecord(s: State)
    ensures StateJson(s).Record?
  {
  }
}
