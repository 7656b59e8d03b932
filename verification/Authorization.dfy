/** The authorization state and what each operation makes of it
    (crates/sigil-host/src/authorization.rs). */
module Authorization {
  import opened Prelude
  import opened Invitation

  const STATE_VERSION: nat := 2
  const LEGACY_STATE_VERSION: nat := 1
  const MAX_CONSUMED: nat := 64
  const MAX_ENROLLED: nat := 32
  const MAX_AUDIT: nat := 64
  const HANDLE_PREFIX: string := "viewer-"
  const HANDLE_DIGITS: nat := 16
  const HANDLE_ATTEMPTS: nat := 16

  datatype Enrollment = Enrollment(peer: Key, handle: string, grants: Grants, enrolledAt: u64, revision: u64)

  datatype Consumed = Consumed(nonce: Key, expiresAt: u64)

  datatype Action = Enrolled | GrantsReplaced | Revoked | ResetAll | MigratedV1

  datatype AuditEntry = AuditEntry(
    revision: u64, at: u64, action: Action, handle: string, previous: Option<Grants>, current: Option<Grants>)

  datatype State = State(
    version: nat,
    host: Key,
    epoch: u64,
    revision: u64,
    enrollments: seq<Enrollment>,
    consumed: seq<Consumed>,
    audit: seq<AuditEntry>)

  datatype Refusal =
    | InvalidState
    | InvalidHandle
    | InvalidGrants
    | GrantsWithoutView
    | PeerNotEnrolled
    | PeerAlreadyEnrolled
    | EnrollmentFull
    | BadToken(error: ProtocolError)
    | OtherHost
    | OtherPeer
    | StaleEpoch
    | IssuedInFuture
    | TokenExpired
    | TokenWithoutView
    | AlreadyConsumed
    | LedgerFull
    | RevisionExhausted
    | EpochExhausted
    | NoUniqueHandle
    | UnknownHandle
    | SameGrants
    | BadTtl
    | WriteFailed

  // --------------------------------------------------------------- validity

  predicate ValidHandle(h: string) {
    && |h| == |HANDLE_PREFIX| + HANDLE_DIGITS
    && HANDLE_PREFIX <= h
    && forall i :: |HANDLE_PREFIX| <= i < |h| ==> '0' <= h[i] <= '9' || 'a' <= h[i] <= 'f'
  }

  predicate ValidEnrollment(e: Enrollment, revision: u64) {
    ValidHandle(e.handle) && ValidGrants(e.grants) && GrantsView(e.grants) && 0 < e.revision <= revision
  }

  predicate ValidAudit(a: AuditEntry, revision: u64) {
    && 0 < a.revision <= revision && ValidHandle(a.handle)
    && (a.previous.Some? ==> ValidGrants(a.previous.value)) && (a.current.Some? ==> ValidGrants(a.current.value))
  }

  predicate DistinctPeers(es: seq<Enrollment>) {
    forall i, j :: 0 <= i < j < |es| ==> es[i].peer != es[j].peer
  }

  predicate DistinctHandles(es: seq<Enrollment>) {
    forall i, j :: 0 <= i < j < |es| ==> es[i].handle != es[j].handle
  }

  predicate ValidLedger(cs: seq<Consumed>) {
    && (forall i :: 0 <= i < |cs| ==> !IsZero(cs[i].nonce))
    && (forall i, j :: 0 <= i < j < |cs| ==> cs[i].nonce != cs[j].nonce)
  }

  predicate Ordered(audit: seq<AuditEntry>) {
    forall i, j :: 0 <= i < j < |audit| ==> audit[i].revision <= audit[j].revision
  }

  /** What `validate` accepts. */
  predicate Valid(s: State, host: Key) {
    && s.version == STATE_VERSION && s.host == host && s.epoch != 0 && s.revision != 0
    && |s.enrollments| <= MAX_ENROLLED && |s.consumed| <= MAX_CONSUMED && |s.audit| <= MAX_AUDIT
    && DistinctPeers(s.enrollments) && DistinctHandles(s.enrollments)
    && (forall i :: 0 <= i < |s.enrollments| ==> ValidEnrollment(s.enrollments[i], s.revision))
    && ValidLedger(s.consumed)
    && (forall i :: 0 <= i < |s.audit| ==> ValidAudit(s.audit[i], s.revision))
    && Ordered(s.audit)
  }

  function Empty(host: Key): State {
    State(STATE_VERSION, host, 1, 1, [], [], [])
  }

  // --------------------------------------------------------------- pieces

  /** Pruning keeps an entry until the clock passes its expiry by more than the skew. */
  predicate Kept(c: Consumed, now: u64) {
    SaturatingAdd(c.expiresAt, CLOCK_SKEW_SECS) >= now
  }

  function Prune(cs: seq<Consumed>, now: u64): seq<Consumed>
    decreases |cs|
  {
    if cs == [] then []
    else
      var rest := Prune(cs[..|cs|-1], now);
      if Kept(cs[|cs|-1], now) then rest + [cs[|cs|-1]] else rest
  }

  function PushAudit(audit: seq<AuditEntry>, e: AuditEntry): seq<AuditEntry> {
    if |audit| == MAX_AUDIT then audit[1..] + [e] else audit + [e]
  }

  function NextRevision(s: State): Option<u64> {
    if s.revision == U64_MAX then None else Some(s.revision + 1)
  }

  predicate HasPeer(es: seq<Enrollment>, peer: Key) {
    exists i :: 0 <= i < |es| && es[i].peer == peer
  }

  predicate HasHandle(es: seq<Enrollment>, handle: string) {
    exists i :: 0 <= i < |es| && es[i].handle == handle
  }

  predicate HasNonce(cs: seq<Consumed>, nonce: Key) {
    exists i :: 0 <= i < |cs| && cs[i].nonce == nonce
  }

  /** The first position with this peer, or the length. */
  function PeerIndex(es: seq<Enrollment>, peer: Key, from: nat := 0): (i: nat)
    requires from <= |es|
    ensures from <= i <= |es|
    ensures i < |es| ==> es[i].peer == peer
    ensures forall j :: from <= j < i ==> es[j].peer != peer
    decreases |es| - from
  {
    if from == |es| || es[from].peer == peer then from else PeerIndex(es, peer, from + 1)
  }

  /** The first position with this handle, or the length. */
  function HandleIndex(es: seq<Enrollment>, handle: string, from: nat := 0): (i: nat)
    requires from <= |es|
    ensures from <= i <= |es|
    ensures i < |es| ==> es[i].handle == handle
    ensures forall j :: from <= j < i ==> es[j].handle != handle
    decreases |es| - from
  {
    if from == |es| || es[from].handle == handle then from else HandleIndex(es, handle, from + 1)
  }

  function RemoveAt(es: seq<Enrollment>, i: nat): seq<Enrollment>
    requires i < |es|
  {
    es[..i] + es[i+1..]
  }

  /** The first drawn handle nobody uses. `draws` are the random handles the
      allocator would draw, of which it looks at no more than sixteen. */
  function UnusedHandle(draws: seq<string>, es: seq<Enrollment>, attempts: nat): Option<string>
    decreases attempts
  {
    if attempts == 0 || draws == [] then None
    else if !HasHandle(es, draws[0]) then Some(draws[0])
    else UnusedHandle(draws[1..], es, attempts - 1)
  }

  // --------------------------------------------------------------- operations

  datatype Viewer = Viewer(handle: string, grants: Grants, authorizationRevision: u64, committedRevision: u64)

  /** The outcome of working on a copy: the candidate state, whether it must be
      written, the audit entries it adds, the invitation it spends and the answer. */
  datatype Outcome = Outcome(
    candidate: State, changed: bool, entries: seq<AuditEntry>, spent: Option<Claims>, viewer: Option<Viewer>)

  datatype Op =
    | Admit(remote: Key, token: Option<string>, now: u64, draws: seq<string>)
    | RevokeAll(now: u64)
    | RevokeViewer(handle: string, now: u64)
    | ReplaceGrants(handle: string, grants: Option<Grants>, now: u64)

  function CheckClaims(s: State, host: Key, remote: Key, c: Claims, now: u64): Result<(), Refusal> {
    if c.host != host then Err(OtherHost)
    else if c.peer != remote then Err(OtherPeer)
    else if c.epoch != s.epoch then Err(StaleEpoch)
    else if c.issuedAt > SaturatingAdd(now, CLOCK_SKEW_SECS) then Err(IssuedInFuture)
    else if now > c.expiresAt then Err(TokenExpired)
    else if !GrantsView(c.grants) then Err(TokenWithoutView)
    else if HasNonce(s.consumed, c.nonce) then Err(AlreadyConsumed)
    else if |s.consumed| >= MAX_CONSUMED then Err(LedgerFull)
    else Ok(())
  }

  /** The state after `c` enrols `remote` under `handle` at `revision`. */
  function Enroll(s: State, remote: Key, c: Claims, now: u64, handle: string, revision: u64): State {
    s.(enrollments := s.enrollments + [Enrollment(remote, handle, c.grants, now, revision)],
       consumed := s.consumed + [Consumed(c.nonce, c.expiresAt)],
       revision := revision,
       audit := PushAudit(s.audit, AuditEntry(revision, now, Enrolled, handle, None, Some(c.grants))))
  }

  function Redeem(p: Primitives, host: Key, s: State, remote: Key, token: string, now: u64, draws: seq<string>)
    : Result<Outcome, Refusal>
  {
    if HasPeer(s.enrollments, remote) then Err(PeerAlreadyEnrolled)
    else if |s.enrollments| >= MAX_ENROLLED then Err(EnrollmentFull)
    else
      match Decode(p, token)
      case Err(e) => Err(BadToken(e))
      case Ok(i) =>
        match CheckClaims(s, host, remote, i.claims, now)
        case Err(e) => Err(e)
        case Ok(_) =>
          if NextRevision(s).None? then Err(RevisionExhausted)
          else if UnusedHandle(draws, s.enrollments, HANDLE_ATTEMPTS).None? then Err(NoUniqueHandle)
          else
            var revision := NextRevision(s).value;
            var handle := UnusedHandle(draws, s.enrollments, HANDLE_ATTEMPTS).value;
            Ok(Outcome(Enroll(s, remote, i.claims, now, handle, revision), true,
                       [AuditEntry(revision, now, Enrolled, handle, None, Some(i.claims.grants))],
                       Some(i.claims), Some(Viewer(handle, i.claims.grants, revision, revision))))
  }

  function ResetEntry(e: Enrollment, revision: u64, now: u64): AuditEntry {
    AuditEntry(revision, now, ResetAll, e.handle, Some(e.grants), None)
  }

  function ResetEntries(es: seq<Enrollment>, revision: u64, now: u64): (entries: seq<AuditEntry>)
    ensures |entries| == |es|
    ensures forall i :: 0 <= i < |es| ==> entries[i] == ResetEntry(es[i], revision, now)
    decreases |es|
  {
    if es == [] then [] else ResetEntries(es[..|es|-1], revision, now) + [ResetEntry(es[|es|-1], revision, now)]
  }

  function PushAll(audit: seq<AuditEntry>, entries: seq<AuditEntry>): seq<AuditEntry>
    decreases |entries|
  {
    if entries == [] then audit else PushAudit(PushAll(audit, entries[..|entries|-1]), entries[|entries|-1])
  }

  function Reset(s: State, now: u64): Result<Outcome, Refusal> {
    if s.epoch == U64_MAX then Err(EpochExhausted)
    else if NextRevision(s).None? then Err(RevisionExhausted)
    else
      var revision := NextRevision(s).value;
      var entries := ResetEntries(s.enrollments, revision, now);
      Ok(Outcome(s.(enrollments := [], epoch := s.epoch + 1, consumed := Prune(s.consumed, now), revision := revision,
                    audit := PushAll(s.audit, entries)),
                 true, entries, None, None))
  }

  /** Revoke the viewer at `i`, or give it other grants. */
  function Change(s: State, i: nat, grants: Option<Grants>, now: u64): Result<Outcome, Refusal>
    requires i < |s.enrollments|
  {
    var previous := s.enrollments[i];
    if NextRevision(s).None? then Err(RevisionExhausted)
    else
      var revision := NextRevision(s).value;
      var entry := AuditEntry(revision, now, if grants.Some? then GrantsReplaced else Revoked, previous.handle,
                              Some(previous.grants), grants);
      Ok(Outcome(s.(enrollments :=
                      if grants.Some? then s.enrollments[i := previous.(grants := grants.value, revision := revision)]
                                   else RemoveAt(s.enrollments, i),
                    revision := revision, consumed := Prune(s.consumed, now), audit := PushAudit(s.audit, entry)),
                 true, [entry], None, None))
  }

  function Perform(p: Primitives, host: Key, s: State, op: Op): Result<Outcome, Refusal> {
    match op
    case Admit(remote, token, now, draws) =>
      if !Valid(s, host) then Err(InvalidState)
      else
        var pruned := s.(consumed := Prune(s.consumed, now));
        if token.Some? then Redeem(p, host, pruned, remote, token.value, now, draws)
        else
          var i := PeerIndex(s.enrollments, remote);
          if i == |s.enrollments| then Err(PeerNotEnrolled)
          else
            var e := s.enrollments[i];
            Ok(Outcome(pruned, |pruned.consumed| != |s.consumed|, [], None,
                       Some(Viewer(e.handle, e.grants, e.revision, s.revision))))
    case RevokeAll(now) => if !Valid(s, host) then Err(InvalidState) else Reset(s, now)
    case RevokeViewer(handle, now) =>
      if !ValidHandle(handle) then Err(InvalidHandle)
      else if !Valid(s, host) then Err(InvalidState)
      else if HandleIndex(s.enrollments, handle) == |s.enrollments| then Err(UnknownHandle)
      else Change(s, HandleIndex(s.enrollments, handle), None, now)
    case ReplaceGrants(handle, grants, now) =>
      if !ValidHandle(handle) then Err(InvalidHandle)
      else if grants.Some? && !ValidGrants(grants.value) then Err(InvalidGrants)
      else if grants.Some? && !GrantsView(grants.value) then Err(GrantsWithoutView)
      else if !Valid(s, host) then Err(InvalidState)
      else
        var i := HandleIndex(s.enrollments, handle);
        if i == |s.enrollments| then Err(UnknownHandle)
        else if grants == Some(s.enrollments[i].grants) then Err(SameGrants)
        else Change(s, i, grants, now)
  }

  // ------------------------------------------------------- migration from v1

  datatype LegacyEnrollment = LegacyEnrollment(peer: Key, grants: Grants, enrolledAt: u64)

  datatype Legacy = Legacy(version: nat, host: Key, epoch: u64, enrollment: Option<LegacyEnrollment>,
                           consumed: seq<Consumed>)

  /** The state a v1 document becomes. `handle` is the handle drawn for its peer. */
  function FromLegacy(l: Legacy, host: Key, handle: string): Result<State, Refusal> {
    if || l.version != LEGACY_STATE_VERSION || l.host != host
       || l.epoch == 0 || |l.consumed| > MAX_CONSUMED
    then Err(InvalidState)
    else
      var s := Empty(host).(epoch := l.epoch, consumed := l.consumed);
      match l.enrollment
      case None => if Valid(s, host) then Ok(s) else Err(InvalidState)
      case Some(e) =>
        if !ValidGrants(e.grants) || !GrantsView(e.grants) then Err(InvalidGrants)
        else
          var m := s.(enrollments := [Enrollment(e.peer, handle, e.grants, e.enrolledAt, 1)],
                      audit := PushAudit(s.audit, MigrationEntry(e, handle)));
          if Valid(m, host) then Ok(m) else Err(InvalidState)
  }

  function MigrationEntry(e: LegacyEnrollment, handle: string): AuditEntry {
    AuditEntry(1, e.enrolledAt, MigratedV1, handle, Some(e.grants), Some(e.grants))
  }

  /** The history a v1 document starts with. */
  function LegacyHistory(l: Legacy, handle: string): seq<AuditEntry> {
    match l.enrollment
    case None => []
    case Some(e) => [MigrationEntry(e, handle)]
  }

  // --------------------------------------------------------------- issuing

  /** Claims for a new invitation, from one read of the state. */
  function IssueClaims(p: Primitives, host: Key, s: State, peer: Key, grants: Grants, ttl: nat, now: u64, nonce: Key)
    : Result<Claims, Refusal>
  {
    if !ValidGrants(grants) then Err(InvalidGrants)
    else if !GrantsView(grants) then Err(GrantsWithoutView)
    else if !(1 <= ttl <= MAX_TTL_SECS) then Err(BadTtl)
    else if |s.enrollments| >= MAX_ENROLLED then Err(EnrollmentFull)
    else if HasPeer(s.enrollments, peer) then Err(PeerAlreadyEnrolled)
    else if now + ttl > U64_MAX then Err(BadTtl)
    else
      var c := Claims(host, peer, now, now + ttl, s.epoch, nonce, grants);
      match ValidateClaims(p, c)
      case Err(e) => Err(BadToken(e))
      case Ok(_) => Ok(c)
  }
}
