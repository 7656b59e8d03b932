/** Signed enrolment invitations (crates/sigil-protocol/src/invitation.rs). */
module Invitation {
  import opened Prelude
  import BigEndian
  import Buffers

  const MAGIC: Bytes := [83, 71, 73, 86]
  const PROTOCOL_VERSION: u16 := 1
  const CLAIMS_LEN: nat := 127
  const SIGNATURE_LEN: nat := 64
  const INVITATION_LEN: nat := CLAIMS_LEN + SIGNATURE_LEN
  const SIGNATURE_DOMAIN: string := "goq.sh/sigil-invitation/v1\0"
  const TOKEN_PREFIX: string := "goq-invite-v1."
  const MAX_TOKEN_LEN: nat := 384
  const MAX_TTL_SECS: nat := 15 * 60
  const CLOCK_SKEW_SECS: nat := 60

  type Key = k: Bytes | |k| == 32 witness seq(32, _ => 0)

  predicate IsZero(nonce: Key) {
    forall i :: 0 <= i < |nonce| ==> nonce[i] == 0
  }

  /** Permission bits: view 1, pointer and keyboard 2, gamepad 4. */
  type Grants = byte

  const ALL_GRANTS: Grants := 7

  predicate ValidGrants(g: Grants) {
    0 < g <= ALL_GRANTS
  }

  predicate GrantsView(g: Grants) {
    g % 2 == 1
  }

  datatype Claims = Claims(
    host: Key,
    peer: Key,
    issuedAt: u64,
    expiresAt: u64,
    epoch: u64,
    nonce: Key,
    grants: Grants)

  datatype SignedInvitation = SignedInvitation(claims: Claims, signature: Bytes)

  datatype ProtocolError =
    | BadGrants
    | BadLifetime
    | ZeroEpoch
    | ZeroNonceError
    | BadHostKey
    | BadPeerKey
    | WrongSigningKey
    | BadSignature
    | NonCanonical
    | BadPrefix
    | BadBase64
    | BadLength
    | BadMagic
    | BadVersion

  /** Ed25519 and base64url, taken as functions: which keys are points, the public
      key of a secret, the signature a secret makes, the signatures a public key
      accepts (there may be others), and the text form of bytes with its inverse. */
  datatype Primitives = Primitives(
    keyOk: Key -> bool,
    publicKey: Key -> Key,
    sign: (Key, Bytes) -> Bytes,
    accepts: (Key, Bytes, Bytes) -> bool,
    text: Bytes -> string,
    untext: string -> Option<Bytes>)

  predicate Clean(s: string) {
    '=' !in s && ' ' !in s && '\t' !in s && '\n' !in s && '\r' !in s && 12 as char !in s
  }

  /** RFC 8032 section 5.1 and RFC 4648 section 5, as far as they are used. */
  ghost predicate Lawful(p: Primitives) {
    && (forall secret, m ::
          |p.sign(secret, m)| == SIGNATURE_LEN && p.accepts(p.publicKey(secret), m, p.sign(secret, m)))
    && (forall b :: p.untext(p.text(b)) == Some(b) && Clean(p.text(b)) && |p.text(b)| == (|b| * 4 + 2) / 3)
  }

  function ValidateClaims(p: Primitives, c: Claims): Result<(), ProtocolError> {
    if !ValidGrants(c.grants) then Err(BadGrants)
    else if c.issuedAt >= c.expiresAt || c.expiresAt - c.issuedAt > MAX_TTL_SECS then Err(BadLifetime)
    else if c.epoch == 0 then Err(ZeroEpoch)
    else if IsZero(c.nonce) then Err(ZeroNonceError)
    else if !p.keyOk(c.host) then Err(BadHostKey)
    else if !p.keyOk(c.peer) then Err(BadPeerKey)
    else Ok(())
  }

  /** The fields of encoded claims, in order. */
  function Fields(c: Claims): (fs: seq<Bytes>)
    ensures |fs| == 9
  {
    [MAGIC, BigEndian.Write(2, PROTOCOL_VERSION), c.host, c.peer, BigEndian.Write(8, c.issuedAt),
     BigEndian.Write(8, c.expiresAt), BigEndian.Write(8, c.epoch), c.nonce, [c.grants]]
  }

  function Flatten(fs: seq<Bytes>): Bytes
    decreases |fs|
  {
    if fs == [] then [] else fs[0] + Flatten(fs[1..])
  }

  /** Where the `k`th field starts. */
  function Offset(fs: seq<Bytes>, k: nat): nat
    requires k <= |fs|
    decreases k
  {
    if k == 0 then 0 else Offset(fs, k - 1) + |fs[k-1]|
  }

  function EncodeClaims(c: Claims): Bytes {
    Flatten(Fields(c))
  }

  function Ascii(s: string): Bytes {
    seq(|s|, i requires 0 <= i < |s| => s[i] as int % 256)
  }

  function SigningMessage(c: Claims): Bytes {
    Ascii(SIGNATURE_DOMAIN) + EncodeClaims(c)
  }

  function Issue(p: Primitives, c: Claims, secret: Key): Result<SignedInvitation, ProtocolError> {
    match ValidateClaims(p, c)
    case Err(e) => Err(e)
    case Ok(_) =>
      if p.publicKey(secret) != c.host then Err(WrongSigningKey)
      else Ok(SignedInvitation(c, p.sign(secret, SigningMessage(c))))
  }

  function Verify(p: Primitives, i: SignedInvitation): Result<(), ProtocolError> {
    match ValidateClaims(p, i.claims)
    case Err(e) => Err(e)
    case Ok(_) => if p.accepts(i.claims.host, SigningMessage(i.claims), i.signature) then Ok(()) else Err(BadSignature)
  }

  function Encode(p: Primitives, i: SignedInvitation): string {
    TOKEN_PREFIX + p.text(EncodeClaims(i.claims) + i.signature)
  }

  /** The claims at their fixed offsets, before any check of them. */
  function ReadClaims(b: Bytes): Claims
    requires |b| == INVITATION_LEN
  {
    BigEndian.WriteRead(b[70..78]);
    BigEndian.WriteRead(b[78..86]);
    BigEndian.WriteRead(b[86..94]);
    BigEndian.Widths();
    Claims(b[6..38], b[38..70], BigEndian.Read(b[70..78]), BigEndian.Read(b[78..86]), BigEndian.Read(b[86..94]),
           b[94..126], b[126])
  }

  function DecodeBytes(p: Primitives, b: Bytes): Result<SignedInvitation, ProtocolError> {
    if |b| != INVITATION_LEN then Err(BadLength)
    else if b[0..4] != MAGIC then Err(BadMagic)
    else if BigEndian.Read(b[4..6]) != PROTOCOL_VERSION then Err(BadVersion)
    else
      match ValidateClaims(p, ReadClaims(b))
      case Err(e) => Err(e)
      case Ok(_) =>
        var i := SignedInvitation(ReadClaims(b), b[CLAIMS_LEN..]);
        match Verify(p, i)
        case Err(e) => Err(e)
        case Ok(_) => Ok(i)
  }

  function Decode(p: Primitives, token: string): Result<SignedInvitation, ProtocolError> {
    if |token| > MAX_TOKEN_LEN || !Clean(token) then Err(NonCanonical)
    else if !(TOKEN_PREFIX <= token) then Err(BadPrefix)
    else
      match p.untext(token[|TOKEN_PREFIX|..])
      case None => Err(BadBase64)
      case Some(b) =>
        match DecodeBytes(p, b)
        case Err(e) => Err(e)
        case Ok(i) => if Encode(p, i) != token then Err(NonCanonical) else Ok(i)
  }

  // ------------------------------------------------------------- round trips

  lemma {:induction false} OffsetOfTail(fs: seq<Bytes>, k: nat)
    requires 0 < k <= |fs|
    ensures Offset(fs, k) == |fs[0]| + Offset(fs[1..], k - 1)
  {
    if k > 1 { OffsetOfTail(fs, k - 1); }
  }

  lemma {:induction false} FieldAt(fs: seq<Bytes>, k: nat)
    requires k < |fs|
    ensures Offset(fs, k + 1) == Offset(fs, k) + |fs[k]| <= |Flatten(fs)|
    ensures Flatten(fs)[Offset(fs, k)..Offset(fs, k + 1)] == fs[k]
    decreases k
  {
    if k > 0 {
      FieldAt(fs[1..], k - 1);
      OffsetOfTail(fs, k);
      OffsetOfTail(fs, k + 1);
    }
  }

  lemma {:induction false} FlattenLength(fs: seq<Bytes>)
    ensures |Flatten(fs)| == Offset(fs, |fs|)
    decreases |fs|
  {
    if fs != [] {
      FlattenLength(fs[1..]);
      OffsetOfTail(fs, |fs|);
    }
  }

  lemma ClaimsOffsets(c: Claims)
    ensures var fs := Fields(c);
            && Offset(fs, 0) == 0 && Offset(fs, 1) == 4 && Offset(fs, 2) == 6 && Offset(fs, 3) == 38
            && Offset(fs, 4) == 70
            && Offset(fs, 5) == 78 && Offset(fs, 6) == 86 && Offset(fs, 7) == 94 && Offset(fs, 8) == 126
            && Offset(fs, 9) == 127
    ensures |EncodeClaims(c)| == CLAIMS_LEN
  {
    var fs := Fields(c);
    assert Offset(fs, 1) == 4;
    assert Offset(fs, 2) == 6;
    assert Offset(fs, 3) == 38;
    assert Offset(fs, 4) == 70;
    assert Offset(fs, 5) == 78;
    assert Offset(fs, 6) == 86;
    assert Offset(fs, 7) == 94;
    assert Offset(fs, 8) == 126;
    FlattenLength(fs);
  }

  lemma EncodedFields(c: Claims, rest: Bytes)
    ensures |EncodeClaims(c)| == CLAIMS_LEN
    ensures var b := EncodeClaims(c) + rest;
            && b[0..4] == MAGIC && b[4..6] == BigEndian.Write(2, PROTOCOL_VERSION)
            && b[6..38] == c.host && b[38..70] == c.peer
            && b[70..78] == BigEndian.Write(8, c.issuedAt) && b[78..86] == BigEndian.Write(8, c.expiresAt)
            && b[86..94] == BigEndian.Write(8, c.epoch) && b[94..126] == c.nonce && b[126..127] == [c.grants]
            && b[CLAIMS_LEN..] == rest
  {
    ClaimsOffsets(c);
    hide Offset, Flatten, EncodeClaims;
    var fs, e := Fields(c), EncodeClaims(c);
    EncodeIsFlat(c);
    FieldAt(fs, 0); FieldAt(fs, 1); FieldAt(fs, 2); FieldAt(fs, 3); FieldAt(fs, 4);
    FieldAt(fs, 5); FieldAt(fs, 6); FieldAt(fs, 7); FieldAt(fs, 8);
    forall lo, hi | 0 <= lo <= hi <= 127 ensures (e + rest)[lo..hi] == e[lo..hi] {
    }
  }

  lemma EncodeIsFlat(c: Claims)
    ensures EncodeClaims(c) == Flatten(Fields(c))
  {
  }

  /** Two encodings that agree field by field agree. */
  lemma SameFields(e: Bytes, b: Bytes)
    requires |e| == |b| == INVITATION_LEN
    requires e[0..4] == b[0..4] && e[4..6] == b[4..6] && e[6..38] == b[6..38] && e[38..70] == b[38..70]
    requires e[70..78] == b[70..78] && e[78..86] == b[78..86] && e[86..94] == b[86..94] && e[94..126] == b[94..126]
    requires e[126..127] == b[126..127] && e[127..] == b[127..]
    ensures e == b
  {
    forall i | 0 <= i < INVITATION_LEN ensures e[i] == b[i] {
      if i < 4 { assert e[0..4][i] == b[0..4][i]; }
      else if i < 6 { assert e[4..6][i-4] == b[4..6][i-4]; }
      else if i < 38 { assert e[6..38][i-6] == b[6..38][i-6]; }
      else if i < 70 { assert e[38..70][i-38] == b[38..70][i-38]; }
      else if i < 78 { assert e[70..78][i-70] == b[70..78][i-70]; }
      else if i < 86 { assert e[78..86][i-78] == b[78..86][i-78]; }
      else if i < 94 { assert e[86..94][i-86] == b[86..94][i-86]; }
      else if i < 126 { assert e[94..126][i-94] == b[94..126][i-94]; }
      else if i < 127 { assert e[126..127][i-126] == b[126..127][i-126]; }
      else { assert e[127..][i-127] == b[127..][i-127]; }
    }
  }

  /** Reading the claims back from their encoding gives the claims. */
  lemma ClaimsRoundTrip(c: Claims, signature: Bytes)
    requires |signature| == SIGNATURE_LEN
    ensures |EncodeClaims(c) + signature| == INVITATION_LEN
    ensures ReadClaims(EncodeClaims(c) + signature) == c
    ensures BigEndian.Read((EncodeClaims(c) + signature)[4..6]) == PROTOCOL_VERSION
  {
    hide EncodeClaims, BigEndian.Write, BigEndian.Read;
    EncodedFields(c, signature);
    BigEndian.Widths();
    BigEndian.ReadWrite(8, c.issuedAt);
    BigEndian.ReadWrite(8, c.expiresAt);
    BigEndian.ReadWrite(8, c.epoch);
    BigEndian.ReadWrite(2, PROTOCOL_VERSION);
    assert (EncodeClaims(c) + signature)[126..127][0] == c.grants;
  }

  /** Conversely, bytes with the right header are the encoding of the claims read
      from them, so the claims layer never makes a token non-canonical. */
  lemma BytesRoundTrip(b: Bytes)
    requires |b| == INVITATION_LEN && b[0..4] == MAGIC && BigEndian.Read(b[4..6]) == PROTOCOL_VERSION
    ensures EncodeClaims(ReadClaims(b)) + b[CLAIMS_LEN..] == b
  {
    hide EncodeClaims, BigEndian.Write, BigEndian.Read;
    var c := ReadClaims(b);
    BigEndian.WriteRead(b[4..6]);
    BigEndian.WriteRead(b[70..78]);
    BigEndian.WriteRead(b[78..86]);
    BigEndian.WriteRead(b[86..94]);
    EncodedFields(c, b[CLAIMS_LEN..]);
    SameFields(EncodeClaims(c) + b[CLAIMS_LEN..], b);
  }

  /** Whatever is issued decodes to itself. */
  lemma IssuedDecodes(p: Primitives, c: Claims, secret: Key)
    requires Lawful(p) && Issue(p, c, secret).Ok?
    ensures var i := Issue(p, c, secret).value;
            i.claims == c && Decode(p, Encode(p, i)) == Ok(i)
  {
    hide EncodeClaims, ReadClaims, BigEndian.Write, BigEndian.Read, BigEndian.Pow256;
    var i := Issue(p, c, secret).value;
    var b := EncodeClaims(c) + i.signature;
    EncodedFields(c, i.signature);
    ClaimsRoundTrip(c, i.signature);
    assert DecodeBytes(p, b) == Ok(i);
    TokenDecodes(p, i, b);
  }

  // --------------------------------------------------------- what is signed

  /** The signed message: twenty-seven bytes of domain, ended by a zero byte, then the
      claims as an invitation carries them. */
  lemma SigningMessageParts(c: Claims, signature: Bytes)
    requires |signature| == SIGNATURE_LEN
    ensures var m := SigningMessage(c);
            && |m| == 27 + 127
            && m[..27] == [103, 111, 113, 46, 115, 104, 47, 115, 105, 103, 105, 108, 45, 105, 110, 118, 105, 116, 97,
                           116, 105, 111, 110, 47, 118, 49, 0]
            && m[27..] + signature == EncodeClaims(c) + signature
            && ReadClaims(m[27..] + signature) == c
  {
    DomainText();
    hide EncodeClaims, ReadClaims, Ascii;
    ClaimsRoundTrip(c, signature);
  }

  lemma DomainText()
    ensures Ascii(SIGNATURE_DOMAIN) == [103, 111, 113, 46, 115, 104, 47, 115, 105, 103, 105, 108, 45, 105, 110, 118,
                                        105, 116, 97, 116, 105, 111, 110, 47, 118, 49, 0]
  {
  }

  /** Different claims are signed as different messages. */
  lemma SigningMessageIsInjective(c: Claims, d: Claims)
    ensures SigningMessage(c) == SigningMessage(d) <==> c == d
  {
    hide ReadClaims, SigningMessage;
    var signature: Bytes := seq(SIGNATURE_LEN, _ => 0);
    SigningMessageParts(c, signature);
    SigningMessageParts(d, signature);
  }

  /** A signature that its host's key accepts for one message vouches for those claims
      alone: with any claim of that host altered the invitation is refused, and so is
      its token. */
  lemma AlteredClaimsAreRefused(p: Primitives, i: SignedInvitation, altered: Claims)
    requires Verify(p, i).Ok? && altered != i.claims && altered.host == i.claims.host
    requires forall m :: p.accepts(i.claims.host, m, i.signature) ==> m == SigningMessage(i.claims)
    ensures Verify(p, SignedInvitation(altered, i.signature)).Err?
    ensures forall token :: Decode(p, token) != Ok(SignedInvitation(altered, i.signature))
  {
    hide SigningMessage, Decode;
    SigningMessageIsInjective(altered, i.claims);
    forall token ensures Decode(p, token) != Ok(SignedInvitation(altered, i.signature)) {
      if Decode(p, token).Ok? { DecodedIsVerified(p, token); }
    }
  }

  lemma TokenDecodes(p: Primitives, i: SignedInvitation, b: Bytes)
    requires Lawful(p) && b == EncodeClaims(i.claims) + i.signature && |b| == INVITATION_LEN
    requires DecodeBytes(p, b) == Ok(i)
    ensures Decode(p, Encode(p, i)) == Ok(i)
  {
    hide EncodeClaims, DecodeBytes;
    var token := Encode(p, i);
    assert |p.text(b)| == 255;
    assert token[|TOKEN_PREFIX|..] == p.text(b);
    assert Clean(token);
  }

  /** What is accepted is canonical and genuine: it re-encodes to itself, its claims
      pass every check, and its host's key accepts its signature. Two accepted tokens
      are one exactly when claims and signature are; a host can sign claims twice. */
  lemma AcceptedIsCanonical(p: Primitives, token: string, other: string)
    requires Decode(p, token).Ok?
    ensures var i := Decode(p, token).value;
            && Encode(p, i) == token
            && ValidateClaims(p, i.claims).Ok?
            && p.accepts(i.claims.host, SigningMessage(i.claims), i.signature)
    ensures Decode(p, other) == Decode(p, token) <==> other == token
  {
    hide EncodeClaims, DecodeBytes, Clean;
    DecodedIsVerified(p, token);
    if Decode(p, other).Ok? { DecodedIsVerified(p, other); }
  }

  lemma DecodedIsVerified(p: Primitives, token: string)
    requires Decode(p, token).Ok?
    ensures var i := Decode(p, token).value;
            Encode(p, i) == token && Verify(p, i).Ok?
  {
    hide EncodeClaims, ReadClaims;
  }

  // ------------------------------------------------------- the buffer itself

  /** Write field `k` of `c` at its fixed offset, after the fields before it. */
  method PutField(buffer: array<byte>, c: Claims, k: nat, at: nat, field: Bytes)
    requires k < 9 && field == Fields(c)[k] && at == Offset(Fields(c), k)
    requires buffer.Length == CLAIMS_LEN && at + |field| <= CLAIMS_LEN
    requires buffer[..at] == Flatten(Fields(c)[..k])
    modifies buffer
    ensures buffer[..at + |field|] == Flatten(Fields(c)[..k+1])
  {
    Buffers.CopyInto(buffer, at, field);
    FlattenSnoc(Fields(c)[..k], field);
    assert Fields(c)[..k] + [field] == Fields(c)[..k+1];
  }

  /** `encode` as written: a zeroed buffer filled field by field at fixed offsets. */
  method FillClaims(c: Claims) returns (buffer: array<byte>)
    ensures fresh(buffer) && buffer[..] == EncodeClaims(c)
  {
    ClaimsOffsets(c);
    hide Flatten, Offset;
    buffer := new byte[CLAIMS_LEN](_ => 0);
    FlattenNothing(Fields(c));
    PutField(buffer, c, 0, 0, MAGIC);
    PutField(buffer, c, 1, 4, BigEndian.Write(2, PROTOCOL_VERSION));
    PutField(buffer, c, 2, 6, c.host);
    PutField(buffer, c, 3, 38, c.peer);
    PutField(buffer, c, 4, 70, BigEndian.Write(8, c.issuedAt));
    PutField(buffer, c, 5, 78, BigEndian.Write(8, c.expiresAt));
    PutField(buffer, c, 6, 86, BigEndian.Write(8, c.epoch));
    PutField(buffer, c, 7, 94, c.nonce);
    PutField(buffer, c, 8, 126, [c.grants]);
    assert Fields(c)[..9] == Fields(c);
    assert buffer[..127] == buffer[..];
  }

  lemma FlattenNothing(fs: seq<Bytes>)
    ensures Flatten(fs[..0]) == []
  {
  }

  lemma {:induction false} FlattenSnoc(fs: seq<Bytes>, f: Bytes)
    ensures Flatten(fs + [f]) == Flatten(fs) + f
    decreases |fs|
  {
    if fs != [] {
      FlattenSnoc(fs[1..], f);
      assert (fs + [f])[1..] == fs[1..] + [f];
    }
  }
}
