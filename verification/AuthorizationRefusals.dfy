/** Why a token or an authorization call is refused: the first objection of all, in the
    order they are raised (crates/sigil-protocol/src/invitation.rs and
    crates/sigil-host/src/authorization.rs). */
module AuthorizationRefusals {
  import opened Prelude
  import opened Invitation
  import opened Authorization
  import opened AuthorizationLaws
  import opened AuthorizationOpening
  import BigEndian

  /** What is wrong with claims, if anything. */
  function ClaimsFlaw(p: Primitives, c: Claims): Option<ProtocolError> {
    if c.grants == 0 || c.grants > 7 then Some(BadGrants)
    else if !(c.issuedAt < c.expiresAt <= c.issuedAt + 900) then Some(BadLifetime)
    else if c.epoch == 0 then Some(ZeroEpoch)
    else if !NotZero(c.nonce) then Some(ZeroNonceError)
    else if !p.keyOk(c.host) then Some(BadHostKey)
    else if !p.keyOk(c.peer) then Some(BadPeerKey)
    else None
  }

  lemma ClaimsAreRefusedFor(p: Primitives, c: Claims)
    ensures ValidateClaims(p, c) == match ClaimsFlaw(p, c)
                                    case None => Ok(())
                                    case Some(flaw) => Err(flaw)
  {
    assert NotZero(c.nonce) == !IsZero(c.nonce);
  }

  /** Sound claims can be signed by exactly the key of the host they name. */
  lemma SigningIsRefusedFor(p: Primitives, c: Claims, secret: Key)
    ensures Issue(p, c, secret) ==
            if ClaimsFlaw(p, c).Some? then Err(ClaimsFlaw(p, c).value)
            else if p.publicKey(secret) == c.host then Ok(SignedInvitation(c, p.sign(secret, SigningMessage(c))))
            else Err(WrongSigningKey)
  {
    hide ClaimsFlaw, ValidateClaims, SigningMessage;
    ClaimsAreRefusedFor(p, c);
  }

  /** What is wrong with the 191 bytes of an invitation: the letters SGIV, the version,
      the claims, and only then the signature. */
  function BytesFlaw(p: Primitives, b: Bytes): Option<ProtocolError> {
    if |b| != 191 then Some(BadLength)
    else if b[..4] != [83, 71, 73, 86] then Some(BadMagic)
    else if b[4..6] != [0, 1] then Some(BadVersion)
    else
      var c := ReadClaims(b);
      if ClaimsFlaw(p, c).Some? then ClaimsFlaw(p, c)
      else if !p.accepts(c.host, SigningMessage(c), b[127..]) then Some(BadSignature)
      else None
  }

  lemma VersionBytes(b: Bytes)
    requires |b| == 2
    ensures BigEndian.Read(b) == 1 <==> b == [0, 1]
  {
    assert b[..1] == [b[0]] && b[..1][..0] == [];
    assert BigEndian.Read(b[..1]) == b[0];
  }

  lemma BytesAreRefusedFor(p: Primitives, b: Bytes)
    ensures match BytesFlaw(p, b)
            case None => DecodeBytes(p, b) == Ok(SignedInvitation(ReadClaims(b), b[127..]))
            case Some(flaw) => DecodeBytes(p, b) == Err(flaw)
  {
    hide BigEndian.Read, ReadClaims, ClaimsFlaw, ValidateClaims, SigningMessage;
    if |b| == 191 {
      VersionBytes(b[4..6]);
      ClaimsAreRefusedFor(p, ReadClaims(b));
    }
  }

  /** What is wrong with a token. */
  function TokenFlaw(p: Primitives, token: string): Option<ProtocolError> {
    if |token| > 384 || exists c <- token :: c in "= \t\n\r\U{0C}" then Some(NonCanonical)
    else if |token| < 14 || token[..14] != "goq-invite-v1." then Some(BadPrefix)
    else if p.untext(token[14..]).None? then Some(BadBase64)
    else BytesFlaw(p, p.untext(token[14..]).value)
  }

  lemma CleanIff(s: string)
    ensures Clean(s) <==> !exists c <- s :: c in "= \t\n\r\U{0C}"
  {
    assert "= \t\n\r\U{0C}"[0] == '=' && "= \t\n\r\U{0C}"[1] == ' ' && "= \t\n\r\U{0C}"[2] == '\t';
    assert "= \t\n\r\U{0C}"[3] == '\n' && "= \t\n\r\U{0C}"[4] == '\r' && "= \t\n\r\U{0C}"[5] == 12 as char;
  }

  /** A token is refused for its first flaw; one without any is refused only when it is
      another spelling of the bytes it stands for. */
  lemma TokensAreRefusedFor(p: Primitives, token: string)
    ensures match TokenFlaw(p, token)
            case Some(flaw) => Decode(p, token) == Err(flaw)
            case None =>
              var b := p.untext(token[14..]).value;
              Decode(p, token) == if token == "goq-invite-v1." + p.text(b)
                                  then Ok(SignedInvitation(ReadClaims(b), b[127..])) else Err(NonCanonical)
  {
    hide Clean, EncodeClaims, ReadClaims, BytesFlaw, DecodeBytes;
    CleanIff(token);
    assert TOKEN_PREFIX <= token <==> |token| >= 14 && token[..14] == "goq-invite-v1.";
    if TOKEN_PREFIX <= token && p.untext(token[14..]).Some? {
      var b := p.untext(token[14..]).value;
      BytesAreRefusedFor(p, b);
      if BytesFlaw(p, b).None? { FlawlessBytes(p, b); }
    }
  }

  lemma FlawlessBytes(p: Primitives, b: Bytes)
    requires BytesFlaw(p, b).None?
    ensures |b| == 191 && EncodeClaims(ReadClaims(b)) + b[127..] == b
  {
    hide EncodeClaims, ReadClaims, BigEndian.Read, SigningMessage, ClaimsFlaw;
    VersionBytes(b[4..6]);
    assert b[0..4] == b[..4];
    BytesRoundTrip(b);
  }

  /** Every call is refused for its first objection. */
  lemma RedemptionIsRefusedFor(p: Primitives, host: Key, s: State, remote: Key, token: string, now: u64,
                               draws: seq<string>)
    ensures var r := Perform(p, host, s, Admit(remote, Some(token), now, draws));
            r.Err? ==>
              r.error ==
              if !Valid(s, host) then InvalidState
              else if exists e <- s.enrollments :: e.peer == remote then PeerAlreadyEnrolled
              else if |s.enrollments| >= 32 then EnrollmentFull
              else if Decode(p, token).Err? then BadToken(Decode(p, token).error)
              else
                var c := Decode(p, token).value.claims;
                if c.host != host then OtherHost
                else if c.peer != remote then OtherPeer
                else if c.epoch != s.epoch then StaleEpoch
                else if c.issuedAt > now + 60 then IssuedInFuture
                else if now > c.expiresAt then TokenExpired
                else if c.grants % 2 == 0 then TokenWithoutView
                else if exists x <- s.consumed :: Kept(x, now) && x.nonce == c.nonce then AlreadyConsumed
                else if |Prune(s.consumed, now)| >= 64 then LedgerFull
                else if s.revision == U64_MAX then RevisionExhausted
                else NoUniqueHandle
  {
    hide Valid, Decode, Prune, PushAudit, UnusedHandle;
    PruneMembers(s.consumed, now);
    assert HasPeer(s.enrollments, remote) <==> exists e <- s.enrollments :: e.peer == remote;
    if Decode(p, token).Ok? {
      var c := Decode(p, token).value.claims;
      assert HasNonce(Prune(s.consumed, now), c.nonce) <==> exists x <- Prune(s.consumed, now) :: x.nonce == c.nonce;
    }
  }

  lemma ReconnectIsRefusedFor(p: Primitives, host: Key, s: State, remote: Key, now: u64, draws: seq<string>)
    ensures var r := Perform(p, host, s, Admit(remote, None, now, draws));
            && (r.Ok? <==> Valid(s, host) && exists e <- s.enrollments :: e.peer == remote)
            && (r.Err? ==> r.error == if Valid(s, host) then PeerNotEnrolled else InvalidState)
  {
    hide Valid, Prune;
  }

  lemma ResetIsRefusedFor(p: Primitives, host: Key, s: State, now: u64)
    ensures var r := Perform(p, host, s, RevokeAll(now));
            r.Err? ==>
              r.error ==
              if !Valid(s, host) then InvalidState
              else if s.epoch == U64_MAX then EpochExhausted
              else RevisionExhausted
  {
    hide Valid, Prune, PushAll;
  }

  lemma ReplacementIsRefusedFor(p: Primitives, host: Key, s: State, handle: string, grants: Option<Grants>, now: u64)
    ensures var r := Perform(p, host, s, ReplaceGrants(handle, grants, now));
            r.Err? ==>
              r.error ==
              if !IsHandle(handle) then InvalidHandle
              else if grants.Some? && !(1 <= grants.value <= 7) then InvalidGrants
              else if grants.Some? && grants.value % 2 == 0 then GrantsWithoutView
              else if !Valid(s, host) then InvalidState
              else if forall e <- s.enrollments :: e.handle != handle then UnknownHandle
              else if exists e <- s.enrollments :: e.handle == handle && grants == Some(e.grants) then SameGrants
              else RevisionExhausted
  {
    hide Prune, PushAudit, ValidHandle, IsHandle, ValidEnrollment, ValidAudit, ValidLedger, Ordered, RemoveAt;
    HandleIff(handle);
  }

  lemma IssueIsRefusedFor(p: Primitives, host: Key, s: State, peer: Key, grants: Grants, ttl: nat, now: u64, nonce: Key)
    ensures var r := IssueClaims(p, host, s, peer, grants, ttl, now, nonce);
            r.Err? ==>
              r.error ==
              if !(1 <= grants <= 7) then InvalidGrants
              else if grants % 2 == 0 then GrantsWithoutView
              else if !(1 <= ttl <= 900) then BadTtl
              else if |s.enrollments| >= 32 then EnrollmentFull
              else if exists e <- s.enrollments :: e.peer == peer then PeerAlreadyEnrolled
              else if now + ttl > U64_MAX then BadTtl
              else if s.epoch == 0 then BadToken(ZeroEpoch)
              else if !NotZero(nonce) then BadToken(ZeroNonceError)
              else if !p.keyOk(host) then BadToken(BadHostKey)
              else BadToken(BadPeerKey)
  {
    hide ValidateClaims, NotZero;
    if now + ttl <= U64_MAX { ClaimsAreRefusedFor(p, Claims(host, peer, now, now + ttl, s.epoch, nonce, grants)); }
  }
}
