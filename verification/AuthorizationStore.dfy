/** The authorization store as it runs: every operation clones the state, works on
    the clone, writes it durably and only then publishes it in memory
    (crates/sigil-host/src/authorization.rs). */
module AuthorizationStore {
  import opened Prelude
  import opened Invitation
  import opened Authorization
  import opened AuthorizationLaws
  import opened AuthorizationText

  /** How a durable write or removal ends: not at all, done (renamed into place, or
      unlinked) but reported as failed because the directory could not be synced, or
      reported as done. */
  datatype WriteFate = Failed | Renamed | Written

  /** The state in memory, the state on disk and the answer. */
  datatype Settled = Settled(state: State, durable: Option<State>, answer: Result<Option<Viewer>, Refusal>)

  /** What an operation leaves behind when its write ends as `fate`. */
  function Settle(p: Primitives, host: Key, s: State, durable: Option<State>, op: Op, fate: WriteFate): Settled {
    match Perform(p, host, s, op)
    case Err(e) => Settled(s, durable, Err(e))
    case Ok(o) =>
      if !o.changed then Settled(s, durable, Ok(o.viewer))
      else
        match fate
        case Failed => Settled(s, durable, Err(WriteFailed))
        case Renamed => Settled(s, Some(o.candidate), Err(WriteFailed))
        case Written => Settled(o.candidate, Some(o.candidate), Ok(o.viewer))
  }

  datatype Opened = Opened(state: Option<State>, durable: Option<State>, legacy: Option<Legacy>)

  /** Opening: the v2 document if there is one, else the v1 document, converted,
      written as v2 and removed, else an empty state. `handle` is the handle drawn
      for a migrated peer; `removal` how the removal of the v1 document ends. */
  function OpenStore(host: Key, durable: Option<State>, legacy: Option<Legacy>, handle: string, fate: WriteFate,
                     removal: WriteFate)
    : Opened
  {
    if durable.Some? then
      Opened(if Valid(durable.value, host) then durable else None, durable, legacy)
    else if legacy.None? then Opened(Some(Empty(host)), None, None)
    else
      match FromLegacy(legacy.value, host, handle)
      case Err(_) => Opened(None, None, legacy)
      case Ok(s) =>
        match fate
        case Failed => Opened(None, None, legacy)
        case Renamed => Opened(None, Some(s), legacy)
        case Written =>
          match removal
          case Failed => Opened(None, Some(s), legacy)
          case Renamed => Opened(None, Some(s), None)
          case Written => Opened(Some(s), Some(s), None)
  }

  method ValidateState(s: State, host: Key) returns (ok: bool)
    ensures ok == Valid(s, host)
  {
    if s.version != STATE_VERSION || s.host != host || s.epoch == 0 || s.revision == 0
       || |s.enrollments| > MAX_ENROLLED || |s.consumed| > MAX_CONSUMED || |s.audit| > MAX_AUDIT {
      return false;
    }
    ok := ValidateEnrollments(s.enrollments, s.revision);
    if !ok { return; }
    ok := ValidateLedger(s.consumed);
    if !ok { return; }
    ok := ValidateAudit(s.audit, s.revision);
  }

  method ValidateEnrollments(es: seq<Enrollment>, revision: u64) returns (ok: bool)
    ensures ok == (&& DistinctPeers(es) && DistinctHandles(es)
                   && forall i :: 0 <= i < |es| ==> ValidEnrollment(es[i], revision))
  {
    var peers: set<Key>, handles: set<string> := {}, {};
    for n := 0 to |es|
      invariant DistinctPeers(es[..n]) && DistinctHandles(es[..n])
      invariant forall i :: 0 <= i < n ==> ValidEnrollment(es[i], revision)
      invariant peers == (set i | 0 <= i < n :: es[i].peer)
      invariant handles == (set i | 0 <= i < n :: es[i].handle)
    {
      var e := es[n];
      if e.peer in peers {
        assert !DistinctPeers(es);
        return false;
      }
      peers := peers + {e.peer};
      if !ValidHandle(e.handle) { assert !ValidEnrollment(es[n], revision); return false; }
      if e.handle in handles {
        assert !DistinctHandles(es);
        return false;
      }
      handles := handles + {e.handle};
      if !ValidGrants(e.grants) || !GrantsView(e.grants) { assert !ValidEnrollment(es[n], revision); return false; }
      if e.revision == 0 || e.revision > revision { assert !ValidEnrollment(es[n], revision); return false; }
    }
    assert es[..|es|] == es;
    return true;
  }

  method ValidateLedger(cs: seq<Consumed>) returns (ok: bool)
    ensures ok == ValidLedger(cs)
  {
    for n := 0 to |cs|
      invariant ValidLedger(cs[..n])
    {
      if IsZero(cs[n].nonce) { return false; }
      for k := 0 to n
        invariant forall i :: 0 <= i < k ==> cs[i].nonce != cs[n].nonce
      {
        if cs[k].nonce == cs[n].nonce { return false; }
      }
    }
    assert cs[..|cs|] == cs;
    return true;
  }

  method ValidateAudit(audit: seq<AuditEntry>, revision: u64) returns (ok: bool)
    ensures ok == (Ordered(audit) && forall i :: 0 <= i < |audit| ==> ValidAudit(audit[i], revision))
  {
    var last := 0;
    for n := 0 to |audit|
      invariant forall i :: 0 <= i < n ==> ValidAudit(audit[i], revision)
      invariant forall i, j :: 0 <= i < j < n ==> audit[i].revision <= audit[j].revision
      invariant last == if n == 0 then 0 else audit[n-1].revision
    {
      var a := audit[n];
      if a.revision == 0 || a.revision > revision { assert !ValidAudit(audit[n], revision); return false; }
      if a.revision < last { assert audit[n-1].revision > audit[n].revision; return false; }
      if !ValidHandle(a.handle) { assert !ValidAudit(audit[n], revision); return false; }
      if a.previous.Some? && !ValidGrants(a.previous.value) { assert !ValidAudit(audit[n], revision); return false; }
      if a.current.Some? && !ValidGrants(a.current.value) { assert !ValidAudit(audit[n], revision); return false; }
      last := a.revision;
    }
    return true;
  }

  /** Up to sixteen draws, the first that nobody uses. */
  method RandomHandle(draws: seq<string>, es: seq<Enrollment>) returns (handle: Option<string>)
    ensures handle == UnusedHandle(draws, es, HANDLE_ATTEMPTS)
  {
    var n := 0;
    while n < HANDLE_ATTEMPTS && n < |draws|
      invariant 0 <= n <= HANDLE_ATTEMPTS && n <= |draws|
      invariant UnusedHandle(draws, es, HANDLE_ATTEMPTS) == UnusedHandle(draws[n..], es, HANDLE_ATTEMPTS - n)
    {
      if !HasHandle(es, draws[n]) { return Some(draws[n]); }
      assert draws[n..][1..] == draws[n+1..];
      n := n + 1;
    }
    return None;
  }

  lemma PushNone(audit: seq<AuditEntry>, entries: seq<AuditEntry>)
    ensures PushAll(audit, entries[..0]) == audit
  {
  }

  lemma PushNext(audit: seq<AuditEntry>, entries: seq<AuditEntry>, n: nat)
    requires n < |entries|
    ensures PushAll(audit, entries[..n+1]) == PushAudit(PushAll(audit, entries[..n]), entries[n])
  {
    assert entries[..n+1][..n] == entries[..n];
  }

  class Store {
    const host: Key
    const p: Primitives
    var state: State
    var durable: Option<State>
    var legacy: Option<Legacy>

    constructor (p: Primitives, host: Key, durable: Option<State>, legacy: Option<Legacy>)
      ensures this.p == p && this.host == host && this.durable == durable && this.legacy == legacy
    {
      this.p, this.host, this.durable, this.legacy := p, host, durable, legacy;
      state := Empty(host);
    }

    /** `write_state`: validate, bound the text, then replace the document atomically. */
    method WriteState(candidate: State, fate: WriteFate) returns (ok: bool)
      modifies this`durable
      ensures ok == (Valid(candidate, host) && fate.Written?)
      ensures durable == if Valid(candidate, host) && !fate.Failed? then Some(candidate) else old(durable)
    {
      var valid := ValidateState(candidate, host);
      if valid { ValidStateFits(candidate, host); }
      if !valid || |StateText(candidate)| > MAX_STATE_FILE_LEN { return false; }
      if fate.Failed? { return false; }
      durable := Some(candidate);
      return fate.Written?;
    }

    method Open(handle: string, fate: WriteFate, removal: WriteFate) returns (ok: bool)
      modifies this
      ensures var r := OpenStore(host, old(durable), old(legacy), handle, fate, removal);
              && ok == r.state.Some? && durable == r.durable && legacy == r.legacy
              && state == (if ok then r.state.value else old(state))
    {
      var loaded, migrated := Empty(host), false;
      if durable.Some? {
        loaded := durable.value;
      } else if legacy.Some? {
        var converted := FromLegacy(legacy.value, host, handle);
        if converted.Err? { return false; }
        loaded, migrated := converted.value, true;
      }
      var valid := ValidateState(loaded, host);
      if !valid { return false; }
      if migrated {
        var written := WriteState(loaded, fate);
        if !written { return false; }
        if removal.Failed? { return false; }
        legacy := None;
        if removal.Renamed? { return false; }
      }
      state := loaded;
      return true;
    }

    method AuthorizeOrRedeem(remote: Key, token: Option<string>, now: u64, draws: seq<string>, fate: WriteFate)
      returns (answer: Result<Option<Viewer>, Refusal>)
      requires ValidDraws(Admit(remote, token, now, draws))
      modifies this`state, this`durable
      ensures Settled(state, durable, answer) ==
              Settle(p, host, old(state), old(durable), Admit(remote, token, now, draws), fate)
    {
      hide Valid, CheckClaims, Decode, Prune, PushAudit;
      ghost var op := Admit(remote, token, now, draws);
      var valid := ValidateState(state, host);
      if !valid { return Err(InvalidState); }
      var candidate := state.(consumed := Prune(state.consumed, now));
      var changed := |candidate.consumed| != |state.consumed|;
      var viewer;
      if token.None? {
        var i := PeerIndex(candidate.enrollments, remote);
        if i == |candidate.enrollments| { return Err(PeerNotEnrolled); }
        var e := candidate.enrollments[i];
        viewer := Viewer(e.handle, e.grants, e.revision, candidate.revision);
      } else {
        if HasPeer(candidate.enrollments, remote) { return Err(PeerAlreadyEnrolled); }
        if |candidate.enrollments| >= MAX_ENROLLED { return Err(EnrollmentFull); }
        var invitation := Decode(p, token.value);
        if invitation.Err? { return Err(BadToken(invitation.error)); }
        var claims := invitation.value.claims;
        var checked := CheckClaims(candidate, host, remote, claims, now);
        if checked.Err? { return Err(checked.error); }
        var next := NextRevision(candidate);
        if next.None? { return Err(RevisionExhausted); }
        var revision := next.value;
        var drawn := RandomHandle(draws, candidate.enrollments);
        if drawn.None? { return Err(NoUniqueHandle); }
        var handle := drawn.value;
        candidate := candidate.(enrollments :=
                                  candidate.enrollments + [Enrollment(remote, handle, claims.grants, now, revision)]);
        candidate := candidate.(consumed := candidate.consumed + [Consumed(claims.nonce, claims.expiresAt)]);
        candidate := candidate.(revision := revision);
        candidate := candidate.(audit := PushAudit(candidate.audit,
          AuditEntry(revision, now, Enrolled, handle, None, Some(claims.grants))));
        changed := true;
        viewer := Viewer(handle, claims.grants, revision, revision);
      }
      assert Perform(p, host, old(state), op).Ok? && Perform(p, host, old(state), op).value.candidate == candidate;
      PerformKeepsValid(p, host, state, op);
      if changed {
        var written := WriteState(candidate, fate);
        if !written { return Err(WriteFailed); }
        state := candidate;
      }
      return Ok(Some(viewer));
    }

    method RevokeWithOutcome(now: u64, fate: WriteFate) returns (answer: Result<Option<Viewer>, Refusal>)
      modifies this`state, this`durable
      ensures Settled(state, durable, answer) == Settle(p, host, old(state), old(durable), RevokeAll(now), fate)
    {
      hide Valid, Prune, PushAudit, PushAll, ResetEntry;
      var valid := ValidateState(state, host);
      if !valid { return Err(InvalidState); }
      var candidate := state;
      var removed := candidate.enrollments;
      candidate := candidate.(enrollments := []);
      if candidate.epoch == U64_MAX { return Err(EpochExhausted); }
      candidate := candidate.(epoch := candidate.epoch + 1, consumed := Prune(candidate.consumed, now));
      var next := NextRevision(candidate);
      if next.None? { return Err(RevisionExhausted); }
      candidate := candidate.(revision := next.value);
      ghost var entries := ResetEntries(removed, next.value, now);
      ghost var before := candidate;
      PushNone(before.audit, entries);
      for n := 0 to |removed|
        invariant state == old(state) && durable == old(durable)
        invariant candidate == before.(audit := PushAll(before.audit, entries[..n]))
      {
        PushNext(before.audit, entries, n);
        candidate := candidate.(audit := PushAudit(candidate.audit, ResetEntry(removed[n], candidate.revision, now)));
      }
      assert entries[..|removed|] == entries;
      assert Reset(state, now) == Ok(Outcome(candidate, true, entries, None, None));
      assert Perform(p, host, state, RevokeAll(now)) == Reset(state, now);
      PerformKeepsValid(p, host, state, RevokeAll(now));
      var written := WriteState(candidate, fate);
      if !written { return Err(WriteFailed); }
      state := candidate;
      return Ok(None);
    }

    method RevokeViewer(handle: string, now: u64, fate: WriteFate) returns (answer: Result<Option<Viewer>, Refusal>)
      modifies this`state, this`durable
      ensures Settled(state, durable, answer) ==
              Settle(p, host, old(state), old(durable), Op.RevokeViewer(handle, now), fate)
    {
      hide Valid, Prune, PushAudit, ValidHandle;
      if !ValidHandle(handle) { return Err(InvalidHandle); }
      var valid := ValidateState(state, host);
      if !valid { return Err(InvalidState); }
      var candidate := state;
      var index := HandleIndex(candidate.enrollments, handle);
      if index == |candidate.enrollments| { return Err(UnknownHandle); }
      var removed := candidate.enrollments[index];
      candidate := candidate.(enrollments := RemoveAt(candidate.enrollments, index));
      var next := NextRevision(candidate);
      if next.None? { return Err(RevisionExhausted); }
      candidate := candidate.(revision := next.value);
      candidate := candidate.(consumed := Prune(candidate.consumed, now));
      candidate := candidate.(audit := PushAudit(candidate.audit,
        AuditEntry(next.value, now, Revoked, removed.handle, Some(removed.grants), None)));
      PerformKeepsValid(p, host, state, Op.RevokeViewer(handle, now));
      var written := WriteState(candidate, fate);
      if !written { return Err(WriteFailed); }
      state := candidate;
      return Ok(None);
    }

    method ReplaceViewerGrants(handle: string, grants: Option<Grants>, now: u64, fate: WriteFate)
      returns (answer: Result<Option<Viewer>, Refusal>)
      modifies this`state, this`durable
      ensures Settled(state, durable, answer) ==
              Settle(p, host, old(state), old(durable), ReplaceGrants(handle, grants, now), fate)
    {
      hide Valid, Prune, PushAudit, ValidHandle, ValidGrants, GrantsView;
      if !ValidHandle(handle) { return Err(InvalidHandle); }
      if grants.Some? {
        if !ValidGrants(grants.value) { return Err(InvalidGrants); }
        if !GrantsView(grants.value) { return Err(GrantsWithoutView); }
      }
      var valid := ValidateState(state, host);
      if !valid { return Err(InvalidState); }
      var candidate := state;
      var index := HandleIndex(candidate.enrollments, handle);
      if index == |candidate.enrollments| { return Err(UnknownHandle); }
      var previous := candidate.enrollments[index];
      if grants == Some(previous.grants) { return Err(SameGrants); }
      var next := NextRevision(candidate);
      if next.None? { return Err(RevisionExhausted); }
      if grants.Some? {
        var updated := previous.(grants := grants.value, revision := next.value);
        candidate := candidate.(enrollments := candidate.enrollments[index := updated]);
      } else {
        candidate := candidate.(enrollments := RemoveAt(candidate.enrollments, index));
      }
      candidate := candidate.(revision := next.value);
      candidate := candidate.(consumed := Prune(candidate.consumed, now));
      candidate := candidate.(audit := PushAudit(candidate.audit,
        AuditEntry(next.value, now, if grants.Some? then GrantsReplaced else Revoked, previous.handle,
                   Some(previous.grants), grants)));
      PerformKeepsValid(p, host, state, ReplaceGrants(handle, grants, now));
      var written := WriteState(candidate, fate);
      if !written { return Err(WriteFailed); }
      state := candidate;
      return Ok(None);
    }
  }
}
