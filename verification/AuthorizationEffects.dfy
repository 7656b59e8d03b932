/** Exactly when each authorization operation succeeds and exactly what it changes
    (crates/sigil-host/src/authorization.rs). */
module AuthorizationEffects {
  import opened Prelude
  import opened Invitation
  import opened Authorization
  import opened AuthorizationLaws

  /** Revoking succeeds exactly for a handle somebody has; afterwards the viewers are
      the others, each as it was, and the one revoked cannot come back without a token. */
  lemma RevokeViewerIff(p: Primitives, host: Key, s: State, handle: string, now: u64)
    ensures var r := Perform(p, host, s, RevokeViewer(handle, now));
            && (r.Ok? <==>
                  && Valid(s, host) && ValidHandle(handle) && HasHandle(s.enrollments, handle)
                  && s.revision < U64_MAX)
            && (r.Ok? ==>
                  var c := r.value.candidate;
                  && (forall e :: e in c.enrollments <==> e in s.enrollments && e.handle != handle)
                  && c.epoch == s.epoch && c.revision == s.revision + 1
                  && (forall e <- s.enrollments :: e.handle == handle ==> !HasPeer(c.enrollments, e.peer))
                  && (forall e <- s.enrollments :: e.handle == handle ==>
                        r.value.entries ==
                        [AuditEntry(s.revision + 1, now, Revoked, handle, Some(e.grants), None)])
                  && (forall x :: x in c.consumed <==> x in s.consumed && Kept(x, now))
                  && r.value.changed && r.value.viewer == None && r.value.spent == None)
  {
    hide Prune, PushAudit, ValidHandle, ValidEnrollment, ValidAudit, ValidLedger, Ordered, RemoveAt;
    if Valid(s, host) && HasHandle(s.enrollments, handle) {
      var es, i := s.enrollments, HandleIndex(s.enrollments, handle);
      HandlesRemove(es, i);
      RemovedPeer(es, i);
      PruneMembers(s.consumed, now);
    }
  }

  lemma RemovedPeer(es: seq<Enrollment>, i: nat)
    requires i < |es| && DistinctPeers(es) && DistinctHandles(es)
    ensures !HasPeer(RemoveAt(es, i), es[i].peer)
    ensures forall e <- es :: e.handle == es[i].handle ==> e == es[i]
    ensures forall e <- es :: e.handle != es[i].handle ==> e in RemoveAt(es, i)
  {
    var rest := RemoveAt(es, i);
    forall e <- es | e.handle != es[i].handle ensures e in rest {
      var k :| 0 <= k < |es| && es[k] == e;
      assert rest[if k < i then k else k - 1] == e;
    }
    forall k | 0 <= k < |rest| ensures rest[k].peer != es[i].peer {
      assert rest[k] == es[if k < i then k else k + 1];
    }
  }

  /** Replacing grants succeeds exactly for a handle somebody has and grants that
      let it view and differ from its own; afterwards that one viewer has them,
      under the newest revision of all, and nobody else is touched. */
  lemma ReplaceGrantsIff(p: Primitives, host: Key, s: State, handle: string, grants: Grants, now: u64)
    ensures var r := Perform(p, host, s, ReplaceGrants(handle, Some(grants), now));
            var i := HandleIndex(s.enrollments, handle);
            && (r.Ok? <==>
                  && Valid(s, host) && ValidHandle(handle) && ValidGrants(grants) && GrantsView(grants)
                  && i < |s.enrollments| && s.enrollments[i].grants != grants && s.revision < U64_MAX)
            && (r.Ok? ==>
                  var c := r.value.candidate;
                  && |c.enrollments| == |s.enrollments| && c.epoch == s.epoch && c.revision == s.revision + 1
                  && c.enrollments[i] == Enrollment(s.enrollments[i].peer, handle, grants,
                                                    s.enrollments[i].enrolledAt, c.revision)
                  && r.value.entries == [AuditEntry(s.revision + 1, now, GrantsReplaced, handle,
                                                    Some(s.enrollments[i].grants), Some(grants))]
                  && (forall x :: x in c.consumed <==> x in s.consumed && Kept(x, now))
                  && r.value.changed && r.value.viewer == None && r.value.spent == None
                  && (forall k :: 0 <= k < |s.enrollments| && k != i ==>
                        c.enrollments[k] == s.enrollments[k] && c.enrollments[k].revision < c.enrollments[i].revision))
  {
    hide Prune, PushAudit, ValidHandle, ValidGrants, GrantsView, ValidAudit, ValidLedger, Ordered, DistinctPeers,
      DistinctHandles, Kept;
    PruneMembers(s.consumed, now);
  }

  /** Withdrawing all grants is revoking, in every respect. */
  lemma WithdrawingIsRevoking(p: Primitives, host: Key, s: State, handle: string, now: u64)
    ensures Perform(p, host, s, ReplaceGrants(handle, None, now)) == Perform(p, host, s, RevokeViewer(handle, now))
  {
    hide Valid, ValidHandle, Change;
  }

  /** A reset succeeds while epoch and revision can still grow, and leaves no viewer. */
  lemma RevokeAllIff(p: Primitives, host: Key, s: State, now: u64)
    ensures var r := Perform(p, host, s, RevokeAll(now));
            && (r.Ok? <==> Valid(s, host) && s.epoch < U64_MAX && s.revision < U64_MAX)
            && (r.Ok? ==>
                  var c := r.value.candidate;
                  && c.enrollments == [] && c.epoch == s.epoch + 1 && c.revision == s.revision + 1
                  && (forall x :: x in c.consumed <==> x in s.consumed && Kept(x, now))
                  && r.value.changed && r.value.viewer == None && r.value.spent == None
                  && |r.value.entries| == |s.enrollments|
                  && forall k :: 0 <= k < |s.enrollments| ==>
                       r.value.entries[k] == AuditEntry(s.revision + 1, now, ResetAll, s.enrollments[k].handle,
                                                        Some(s.enrollments[k].grants), None))
  {
    hide Valid, PushAll, Kept;
    PruneMembers(s.consumed, now);
  }

  /** What a redemption leaves and answers: one viewer more, the ledger without what has
      lapsed and with this nonce, one audit entry, and an answer that names the handle,
      the grants and the new revision twice. */
  lemma RedemptionLeaves(p: Primitives, host: Key, s: State, op: Op)
    requires op.Admit? && op.token.Some? && Perform(p, host, s, op).Ok?
    ensures Decode(p, op.token.value).Ok? && UnusedHandle(op.draws, s.enrollments, 16).Some?
    ensures var o, claims := Perform(p, host, s, op).value, Decode(p, op.token.value).value.claims;
            var handle := UnusedHandle(op.draws, s.enrollments, 16).value;
            && s.revision < U64_MAX && o.changed && o.spent == Some(claims)
            && o.viewer == Some(Viewer(handle, claims.grants, s.revision + 1, s.revision + 1))
            && o.entries == [AuditEntry(s.revision + 1, op.now, Enrolled, handle, None, Some(claims.grants))]
            && o.candidate.enrollments ==
                 s.enrollments + [Enrollment(op.remote, handle, claims.grants, op.now, s.revision + 1)]
            && o.candidate.consumed == Prune(s.consumed, op.now) + [Consumed(claims.nonce, claims.expiresAt)]
            && o.candidate.epoch == s.epoch && o.candidate.revision == s.revision + 1
  {
    hide Valid, Decode, CheckClaims, Prune, PushAudit, UnusedHandle, HasPeer;
  }

  /** A reconnect changes nothing but what has lapsed, and logs nothing. */
  lemma ReconnectLeaves(p: Primitives, host: Key, s: State, op: Op)
    requires op.Admit? && op.token.None? && Perform(p, host, s, op).Ok?
    ensures var o := Perform(p, host, s, op).value;
            && o.candidate == s.(consumed := Prune(s.consumed, op.now)) && o.entries == [] && o.spent == None
            && (o.changed <==> o.candidate != s)
  {
    hide Valid, Prune;
    PruneMembers(s.consumed, op.now);
  }

  /** The handle given is the first drawn that nobody has, of at most sixteen. */
  lemma {:induction false} UnusedHandleIsFirst(draws: seq<string>, es: seq<Enrollment>, attempts: nat)
    ensures UnusedHandle(draws, es, attempts).Some? <==>
              exists k :: 0 <= k < Min(attempts, |draws|) && !HasHandle(es, draws[k])
    ensures UnusedHandle(draws, es, attempts).Some? ==>
              exists k :: 0 <= k < Min(attempts, |draws|) && UnusedHandle(draws, es, attempts).value == draws[k]
                          && !HasHandle(es, draws[k]) && forall j :: 0 <= j < k ==> HasHandle(es, draws[j])
    decreases attempts
  {
    hide HasHandle;
    if attempts > 0 && draws != [] && HasHandle(es, draws[0]) {
      UnusedHandleIsFirst(draws[1..], es, attempts - 1);
      if UnusedHandle(draws, es, attempts).Some? {
        var k :| 0 <= k < Min(attempts - 1, |draws| - 1)
                 && UnusedHandle(draws[1..], es, attempts - 1).value == draws[1..][k]
                 && !HasHandle(es, draws[1..][k]) && forall j :: 0 <= j < k ==> HasHandle(es, draws[1..][j]);
        assert draws[k + 1] == draws[1..][k];
        forall j | 0 <= j < k + 1 ensures HasHandle(es, draws[j]) {
          if j > 0 { assert draws[j] == draws[1..][j - 1]; }
        }
      } else {
        forall k | 0 <= k < Min(attempts, |draws|) ensures HasHandle(es, draws[k]) {
          if k > 0 { assert draws[k] == draws[1..][k - 1]; }
        }
      }
    }
  }

  /** An invitation can be made out exactly for grants that let view, a life of one
      second to fifteen minutes, a peer not yet enrolled while there is room, and keys,
      epoch and nonce that are proper; it then says what was asked. */
  lemma IssuesIff(p: Primitives, host: Key, s: State, peer: Key, grants: Grants, ttl: nat, now: u64, nonce: Key)
    ensures var r := IssueClaims(p, host, s, peer, grants, ttl, now, nonce);
            && (r.Ok? <==>
                  && grants in {1, 3, 5, 7} && 1 <= ttl <= 900 && now + ttl <= U64_MAX
                  && |s.enrollments| < 32 && (forall e <- s.enrollments :: e.peer != peer)
                  && s.epoch > 0 && (exists i :: 0 <= i < 32 && nonce[i] != 0) && p.keyOk(host) && p.keyOk(peer))
            && (r.Ok? ==> r.value == Claims(host, peer, now, now + ttl, s.epoch, nonce, grants))
  {
    assert HasPeer(s.enrollments, peer) <==> exists e <- s.enrollments :: e.peer == peer;
  }

  /** Whoever redeems holds a token that this host signed for exactly that peer, in
      the present epoch, inside its window, and that the ledger does not know. */
  lemma RedeemedIsEntitled(p: Primitives, host: Key, s: State, op: Op)
    requires Perform(p, host, s, op).Ok? && Perform(p, host, s, op).value.spent.Some?
    ensures var c := Perform(p, host, s, op).value.spent.value;
            && op.Admit? && op.token.Some? && Decode(p, op.token.value).Ok?
            && Decode(p, op.token.value).value.claims == c
            && p.accepts(host, SigningMessage(c), Decode(p, op.token.value).value.signature)
            && c.host == host && c.peer == op.remote && c.epoch == s.epoch && GrantsView(c.grants)
            && c.issuedAt <= op.now + CLOCK_SKEW_SECS && op.now <= c.expiresAt <= c.issuedAt + MAX_TTL_SECS
            && !HasPeer(s.enrollments, op.remote)
            && !HasNonce(Prune(s.consumed, op.now), c.nonce)
  {
    hide Valid, Decode, Prune, PushAudit, HasPeer, HasNonce, SigningMessage, GrantsView, UnusedHandle;
    DecodedIsVerified(p, op.token.value);
    VerifiedMeans(p, Decode(p, op.token.value).value);
  }

  lemma VerifiedMeans(p: Primitives, i: SignedInvitation)
    requires Verify(p, i).Ok?
    ensures p.accepts(i.claims.host, SigningMessage(i.claims), i.signature)
    ensures i.claims.expiresAt <= i.claims.issuedAt + MAX_TTL_SECS
  {
  }

  /** The epoch never falls. */
  lemma EpochNeverFalls(p: Primitives, host: Key, s: State, op: Op)
    requires Perform(p, host, s, op).Ok?
    ensures Perform(p, host, s, op).value.candidate.epoch >= s.epoch
  {
    hide Valid, Decode, CheckClaims, Prune, PushAudit, PushAll, UnusedHandle;
  }
}
