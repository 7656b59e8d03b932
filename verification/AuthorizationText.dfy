/** The text of the authorization document as it is written, and its size
    (crates/sigil-host/src/authorization.rs:133-189, 1053-1070): indented JSON, two
    spaces a level. Identifiers are 64 hexadecimal digits. */
module AuthorizationText {
  import opened Prelude
  import opened Invitation
  import opened Authorization

  const MAX_STATE_FILE_LEN: nat := 64 * 1024

  datatype Json = Null | Number(n: nat) | Text(text: string) | List(items: seq<Json>) | Record(fields: seq<Field>)

  datatype Field = Field(key: string, value: Json)

  // -------------------------------------------------------------- rendering

  function Decimal(n: nat): string {
    if n < 10 then [(n + '0' as int) as char] else Decimal(n / 10) + [(n % 10 + '0' as int) as char]
  }

  function Quoted(s: string): string {
    "\"" + s + "\""
  }

  function Indentation(depth: nat): string {
    if depth == 0 then "" else "  " + Indentation(depth - 1)
  }

  function NewLine(depth: nat): string {
    "\n" + Indentation(depth)
  }

  function Pretty(j: Json, depth: nat): string
    decreases j
  {
    match j
    case Null => "null"
    case Number(n) => Decimal(n)
    case Text(text) => Quoted(text)
    case List(items) => if items == [] then "[]" else "[" + PrettyItems(items, depth + 1) + NewLine(depth) + "]"
    case Record(fields) => if fields == [] then "{}" else "{" + PrettyFields(fields, depth + 1) + NewLine(depth) + "}"
  }

  function PrettyItems(items: seq<Json>, depth: nat): string
    requires items != []
    decreases items
  {
    NewLine(depth) + Pretty(items[0], depth) + if |items| == 1 then "" else "," + PrettyItems(items[1..], depth)
  }

  function PrettyFields(fields: seq<Field>, depth: nat): string
    requires fields != []
    decreases fields
  {
    NewLine(depth) + Quoted(fields[0].key) + ": " + Pretty(fields[0].value, depth)
    + if |fields| == 1 then "" else "," + PrettyFields(fields[1..], depth)
  }

  // ----------------------------------------------------------- the document

  function HexDigit(n: nat): char
    requires n < 16
  {
    "0123456789abcdef"[n]
  }

  function Hex(bytes: Bytes): (s: string)
    ensures |s| == 2 * |bytes|
  {
    if bytes == [] then "" else [HexDigit(bytes[0] / 16), HexDigit(bytes[0] % 16)] + Hex(bytes[1..])
  }

  function EnrollmentJson(e: Enrollment): Json {
    Record([Field("peer_node_id", Text(Hex(e.peer))), Field("handle", Text(e.handle)),
            Field("grants", Number(e.grants)), Field("enrolled_at_unix", Number(e.enrolledAt)),
            Field("authorization_revision", Number(e.revision))])
  }

  function ConsumedJson(c: Consumed): Json {
    Record([Field("nonce", List(seq(|c.nonce|, i requires 0 <= i < |c.nonce| => Number(c.nonce[i])))),
            Field("expires_at_unix", Number(c.expiresAt))])
  }

  function ActionName(a: Action): string {
    match a
    case Enrolled => "enrolled"
    case GrantsReplaced => "grants_replaced"
    case Revoked => "revoked"
    case ResetAll => "reset_all"
    case MigratedV1 => "migrated_v1"
  }

  function GrantsJson(g: Option<Grants>): Json {
    match g
    case None => Null
    case Some(bits) => Number(bits)
  }

  function AuditJson(a: AuditEntry): Json {
    Record([Field("revision", Number(a.revision)), Field("occurred_at_unix", Number(a.at)),
            Field("action", Text(ActionName(a.action))), Field("handle", Text(a.handle)),
            Field("previous_grants", GrantsJson(a.previous)), Field("current_grants", GrantsJson(a.current))])
  }

  function StateJson(s: State): Json {
    Record([Field("version", Number(s.version)), Field("host_node_id", Text(Hex(s.host))),
            Field("enrollment_epoch", Number(s.epoch)), Field("committed_revision", Number(s.revision)),
            Field("enrollments", List(seq(|s.enrollments|, i requires 0 <= i < |s.enrollments| =>
                                            EnrollmentJson(s.enrollments[i])))),
            Field("consumed_invitations", List(seq(|s.consumed|, i requires 0 <= i < |s.consumed| =>
                                                     ConsumedJson(s.consumed[i])))),
            Field("security_audit", List(seq(|s.audit|, i requires 0 <= i < |s.audit| => AuditJson(s.audit[i]))))])
  }

  /** `serde_json::to_vec_pretty` of a state. */
  function StateText(s: State): string {
    Pretty(StateJson(s), 0)
  }

  // -------------------------------------------------------------------- size

  function Ten(k: nat): nat {
    if k == 0 then 1 else 10 * Ten(k - 1)
  }

  lemma {:induction false} DecimalLength(n: nat, k: nat)
    requires 0 < k && n < Ten(k)
    ensures |Decimal(n)| <= k
    decreases k
  {
    if n >= 10 {
      assert Ten(1) == 10;
      DecimalLength(n / 10, k - 1);
    }
  }

  lemma NumberLength(n: u64)
    ensures |Decimal(n)| <= 20
  {
    assert Ten(1) == 10 && Ten(2) == 100 && Ten(3) == 1_000 && Ten(4) == 10_000;
    assert Ten(5) == 100_000 && Ten(6) == 1_000_000 && Ten(7) == 10_000_000 && Ten(8) == 100_000_000;
    assert Ten(9) == 1_000_000_000 && Ten(10) == 10_000_000_000 && Ten(11) == 100_000_000_000;
    assert Ten(12) == 1_000_000_000_000 && Ten(13) == 10_000_000_000_000 && Ten(14) == 100_000_000_000_000;
    assert Ten(15) == 1_000_000_000_000_000 && Ten(16) == 10_000_000_000_000_000;
    assert Ten(17) == 100_000_000_000_000_000 && Ten(18) == 1_000_000_000_000_000_000;
    assert Ten(19) == 10_000_000_000_000_000_000 && Ten(20) == 100_000_000_000_000_000_000;
    DecimalLength(n, 20);
  }

  lemma {:induction false} IndentationLength(depth: nat)
    ensures |Indentation(depth)| == 2 * depth
  {
    if depth > 0 { IndentationLength(depth - 1); }
  }

  lemma {:induction false} ItemsLength(items: seq<Json>, depth: nat, each: nat)
    requires items != [] && forall i :: 0 <= i < |items| ==> |Pretty(items[i], depth)| <= each
    ensures |PrettyItems(items, depth)| <= |items| * (each + 2 * depth + 2)
    decreases |items|
  {
    hide Pretty;
    IndentationLength(depth);
    var size := each + 2 * depth + 2;
    assert |items| * size == size + (|items| - 1) * size;
    if |items| > 1 { ItemsLength(items[1..], depth, each); }
  }

  lemma ListLength(items: seq<Json>, depth: nat, each: nat)
    requires forall i :: 0 <= i < |items| ==> |Pretty(items[i], depth + 1)| <= each
    ensures |Pretty(List(items), depth)| <= |items| * (each + 2 * depth + 4) + 2 * depth + 3
  {
    IndentationLength(depth);
    if items != [] { ItemsLength(items, depth + 1, each); }
  }

  /** A first field of at most `value` characters before others of at most `others`. */
  lemma FieldLength(f: Field, rest: seq<Field>, depth: nat, value: nat, others: nat)
    requires |Pretty(f.value, depth)| <= value
    requires rest != [] ==> |PrettyFields(rest, depth)| <= others
    ensures |PrettyFields([f] + rest, depth)| <= 2 * depth + |f.key| + value + 5 + if rest == [] then 0 else 1 + others
  {
    hide Pretty;
    IndentationLength(depth);
    assert ([f] + rest)[1..] == rest;
  }

  lemma RecordLength(fields: seq<Field>, depth: nat, size: nat)
    requires fields != [] && |PrettyFields(fields, depth + 1)| <= size
    ensures |Pretty(Record(fields), depth)| <= size + 2 * depth + 3
  {
    IndentationLength(depth);
  }

  lemma EnrollmentLength(e: Enrollment)
    requires ValidHandle(e.handle) && ValidGrants(e.grants)
    ensures |Pretty(EnrollmentJson(e), 2)| <= 260
  {
    hide Pretty, PrettyFields, Decimal, Hex, ValidHandle;
    var f1, f2 := Field("peer_node_id", Text(Hex(e.peer))), Field("handle", Text(e.handle));
    var f3, f4 := Field("grants", Number(e.grants)), Field("enrolled_at_unix", Number(e.enrolledAt));
    var f5 := Field("authorization_revision", Number(e.revision));
    Atoms(Hex(e.peer), e.grants, 3);
    Atoms(e.handle, e.enrolledAt, 3);
    Atoms("", e.revision, 3);
    HandleLength(e.handle);
    SmallNumber(e.grants, 3);
    FieldLength(f5, [], 3, 20, 0);
    FieldLength(f4, [f5] + [], 3, 20, 53);
    FieldLength(f3, [f4] + ([f5] + []), 3, 1, 101);
    FieldLength(f2, [f3] + ([f4] + ([f5] + [])), 3, 25, 120);
    FieldLength(f1, [f2] + ([f3] + ([f4] + ([f5] + []))), 3, 66, 163);
    assert [f1, f2, f3, f4, f5] == [f1] + ([f2] + ([f3] + ([f4] + ([f5] + []))));
    RecordLength([f1, f2, f3, f4, f5], 2, 253);
  }

  lemma Atoms(text: string, n: u64, depth: nat)
    ensures |Pretty(Text(text), depth)| == |text| + 2
    ensures |Pretty(Number(n), depth)| <= 20
    ensures |Pretty(Null, depth)| == 4
  {
    NumberLength(n);
  }

  lemma SmallNumber(g: Grants, depth: nat)
    requires ValidGrants(g)
    ensures |Pretty(Number(g), depth)| == 1
  {
  }

  lemma HandleLength(h: string)
    requires ValidHandle(h)
    ensures |h| == 23
  {
  }

  lemma ByteLength(b: byte, depth: nat)
    ensures |Pretty(Number(b), depth)| <= 3
  {
    assert Ten(3) == 1000;
    DecimalLength(b, 3);
  }

  lemma ConsumedLength(c: Consumed)
    ensures |Pretty(ConsumedJson(c), 2)| <= 500
  {
    hide Pretty, PrettyFields, Decimal;
    var items := seq(|c.nonce|, i requires 0 <= i < |c.nonce| => Number(c.nonce[i]));
    forall i | 0 <= i < |items| ensures |Pretty(items[i], 4)| <= 3 { ByteLength(c.nonce[i], 4); }
    ListLength(items, 3, 3);
    Atoms("", c.expiresAt, 3);
    var f1, f2 := Field("nonce", List(items)), Field("expires_at_unix", Number(c.expiresAt));
    FieldLength(f2, [], 3, 20, 0);
    FieldLength(f1, [f2] + [], 3, 425, 46);
    assert [f1, f2] == [f1] + ([f2] + []);
    RecordLength([f1, f2], 2, 488);
  }

  lemma AuditLength(a: AuditEntry, revision: u64)
    requires ValidAudit(a, revision)
    ensures |Pretty(AuditJson(a), 2)| <= 240
  {
    hide Pretty, PrettyFields, Decimal, ValidHandle;
    var f1, f2 := Field("revision", Number(a.revision)), Field("occurred_at_unix", Number(a.at));
    var f3, f4 := Field("action", Text(ActionName(a.action))), Field("handle", Text(a.handle));
    var f5, f6 := Field("previous_grants", GrantsJson(a.previous)), Field("current_grants", GrantsJson(a.current));
    Atoms(a.handle, a.revision, 3);
    Atoms(ActionName(a.action), a.at, 3);
    HandleLength(a.handle);
    GrantsLength(a.previous, 3);
    GrantsLength(a.current, 3);
    FieldLength(f6, [], 3, 4, 0);
    FieldLength(f5, [f6] + [], 3, 4, 29);
    FieldLength(f4, [f5] + ([f6] + []), 3, 25, 60);
    FieldLength(f3, [f4] + ([f5] + ([f6] + [])), 3, 17, 103);
    FieldLength(f2, [f3] + ([f4] + ([f5] + ([f6] + []))), 3, 20, 138);
    FieldLength(f1, [f2] + ([f3] + ([f4] + ([f5] + ([f6] + [])))), 3, 20, 186);
    assert [f1, f2, f3, f4, f5, f6] == [f1] + ([f2] + ([f3] + ([f4] + ([f5] + ([f6] + [])))));
    RecordLength([f1, f2, f3, f4, f5, f6], 2, 226);
  }

  lemma GrantsLength(g: Option<Grants>, depth: nat)
    requires g.Some? ==> ValidGrants(g.value)
    ensures |Pretty(GrantsJson(g), depth)| <= 4
  {
  }

  /** Every state that passes validation fits its file, with the newline written after
      it: the bound on the text never refuses a write, nor a later opening. */
  lemma ValidStateFits(s: State, host: Key)
    requires Valid(s, host)
    ensures |StateText(s)| + 1 <= MAX_STATE_FILE_LEN
  {
    hide Pretty, PrettyFields, Decimal, Hex, ValidHandle, EnrollmentJson, ConsumedJson, AuditJson, DistinctPeers,
      DistinctHandles, Ordered, ValidLedger;
    var es := seq(|s.enrollments|, i requires 0 <= i < |s.enrollments| => EnrollmentJson(s.enrollments[i]));
    var cs := seq(|s.consumed|, i requires 0 <= i < |s.consumed| => ConsumedJson(s.consumed[i]));
    var audit := seq(|s.audit|, i requires 0 <= i < |s.audit| => AuditJson(s.audit[i]));
    forall i | 0 <= i < |es| ensures |Pretty(es[i], 2)| <= 260 { EnrollmentLength(s.enrollments[i]); }
    forall i | 0 <= i < |cs| ensures |Pretty(cs[i], 2)| <= 500 { ConsumedLength(s.consumed[i]); }
    forall i | 0 <= i < |audit| ensures |Pretty(audit[i], 2)| <= 240 { AuditLength(s.audit[i], s.revision); }
    ListLength(es, 1, 260);
    ListLength(cs, 1, 500);
    ListLength(audit, 1, 240);
    Atoms(Hex(s.host), s.epoch, 1);
    Atoms("", s.revision, 1);
    Atoms("", STATE_VERSION, 1);
    StateLength(s, es, cs, audit);
  }

  lemma StateLength(s: State, es: seq<Json>, cs: seq<Json>, audit: seq<Json>)
    requires |Pretty(Number(s.version), 1)| <= 20 && |Pretty(Text(Hex(s.host)), 1)| <= 66
    requires |Pretty(Number(s.epoch), 1)| <= 20 && |Pretty(Number(s.revision), 1)| <= 20
    requires |Pretty(List(es), 1)| <= 8_600 && |Pretty(List(cs), 1)| <= 32_400 && |Pretty(List(audit), 1)| <= 15_800
    requires StateJson(s) == Record([
               Field("version", Number(s.version)), Field("host_node_id", Text(Hex(s.host))),
               Field("enrollment_epoch", Number(s.epoch)), Field("committed_revision", Number(s.revision)),
               Field("enrollments", List(es)), Field("consumed_invitations", List(cs)),
               Field("security_audit", List(audit))])
    ensures |StateText(s)| < 60_000
  {
    hide Pretty, PrettyFields, Decimal, Hex, StateJson;
    var f1, f2 := Field("version", Number(s.version)), Field("host_node_id", Text(Hex(s.host)));
    var f3, f4 := Field("enrollment_epoch", Number(s.epoch)), Field("committed_revision", Number(s.revision));
    var f5, f6 := Field("enrollments", List(es)), Field("consumed_invitations", List(cs));
    var f7 := Field("security_audit", List(audit));
    FieldLength(f7, [], 1, 15_800, 0);
    FieldLength(f6, [f7] + [], 1, 32_400, 16_000);
    FieldLength(f5, [f6] + ([f7] + []), 1, 8_600, 49_000);
    FieldLength(f4, [f5] + ([f6] + ([f7] + [])), 1, 20, 58_000);
    FieldLength(f3, [f4] + ([f5] + ([f6] + ([f7] + []))), 1, 20, 58_200);
    FieldLength(f2, [f3] + ([f4] + ([f5] + ([f6] + ([f7] + [])))), 1, 66, 58_400);
    FieldLength(f1, [f2] + ([f3] + ([f4] + ([f5] + ([f6] + ([f7] + []))))), 1, 20, 58_600);
    var fs := [f1, f2, f3, f4, f5, f6, f7];
    assert fs == [f1] + ([f2] + ([f3] + ([f4] + ([f5] + ([f6] + ([f7] + []))))));
    RecordLength(fs, 0, 58_800);
  }
}
