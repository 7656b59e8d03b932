/** What every authorization operation keeps: validity, the audit log as the source
    of the enrolment map, and the replay ledger's memory of spent invitations. */
module AuthorizationLaws {
  import opened Prelude
  import opened Invitation
  import opened Authorization

  // ---------------------------------------------------------------- pruning

  lemma {:induction false} PruneMembers(cs: seq<Consumed>, now: u64)
    ensures forall c :: c in Prune(cs, now) <==> c in cs && Kept(c, now)
    ensures |Prune(cs, now)| <= |cs|
    ensures |Prune(cs, now)| == |cs| <==> Prune(cs, now) == cs
    decreases |cs|
  {
    if cs != [] {
      PruneMembers(cs[..|cs|-1], now);
      assert cs == cs[..|cs|-1] + [cs[|cs|-1]];
    }
  }

  lemma {:induction false} PruneKeepsLedger(cs: seq<Consumed>, now: u64)
    requires ValidLedger(cs)
    ensures ValidLedger(Prune(cs, now)) && |Prune(cs, now)| <= |cs|
    decreases |cs|
  {
    PruneMembers(cs, now);
    if cs != [] {
      var front := cs[..|cs|-1];
      PruneKeepsLedger(front, now);
      PruneMembers(front, now);
      forall i | 0 <= i < |Prune(front, now)| ensures Prune(front, now)[i].nonce != cs[|cs|-1].nonce {
        assert Prune(front, now)[i] in front;
      }
    }
  }

  // ----------------------------------------------------------- audit as source

  /** The enrolment map a history of audit entries describes. */
  function Fold(h: seq<AuditEntry>): map<string, Grants>
    decreases |h|
  {
    if h == [] then map[]
    else
      var m, e := Fold(h[..|h|-1]), h[|h|-1];
      if e.current.Some? then m[e.handle := e.current.value] else m - {e.handle}
  }

  /** The last entry about `handle`. */
  function LastOf(h: seq<AuditEntry>, handle: string): Option<AuditEntry>
    decreases |h|
  {
    if h == [] then None
    else if h[|h|-1].handle == handle then Some(h[|h|-1])
    else LastOf(h[..|h|-1], handle)
  }

  /** The last sixty-four entries. */
  function Ring(h: seq<AuditEntry>): seq<AuditEntry> {
    if |h| <= MAX_AUDIT then h else h[|h|-MAX_AUDIT..]
  }

  function Handles(es: seq<Enrollment>): set<string> {
    set e | e in es :: e.handle
  }

  predicate EnrollmentSourced(e: Enrollment, h: seq<AuditEntry>) {
    && e.handle in Fold(h) && Fold(h)[e.handle] == e.grants
    && LastOf(h, e.handle).Some?
    && LastOf(h, e.handle).value.revision == e.revision && LastOf(h, e.handle).value.current == Some(e.grants)
  }

  predicate DistinctRevisions(es: seq<Enrollment>) {
    forall i, j :: 0 <= i < j < |es| ==> es[i].revision != es[j].revision
  }

  /** Folding the whole history by handle gives exactly the current handle-to-grants
      map; every enrolment is as its last entry left it; no two share a revision; the
      stored audit is the end of the history. */
  ghost predicate Sourced(s: State, h: seq<AuditEntry>) {
    && Fold(h).Keys == Handles(s.enrollments)
    && (forall i :: 0 <= i < |s.enrollments| ==> EnrollmentSourced(s.enrollments[i], h))
    && DistinctRevisions(s.enrollments)
    && s.audit == Ring(h)
    && (forall e <- h :: e.revision <= s.revision)
  }

  lemma FoldSnoc(h: seq<AuditEntry>, e: AuditEntry)
    ensures Fold(h + [e]) == if e.current.Some? then Fold(h)[e.handle := e.current.value] else Fold(h) - {e.handle}
    ensures forall k :: LastOf(h + [e], k) == if k == e.handle then Some(e) else LastOf(h, k)
    ensures PushAudit(Ring(h), e) == Ring(h + [e])
  {
    assert (h + [e])[..|h|] == h;
    RingSnoc(h, e);
  }

  lemma RingSnoc(h: seq<AuditEntry>, e: AuditEntry)
    ensures PushAudit(Ring(h), e) == Ring(h + [e])
  {
    if |h| >= MAX_AUDIT {
      assert Ring(h)[1..] == h[|h| + 1 - MAX_AUDIT..];
      assert (h + [e])[|h| + 1 - MAX_AUDIT..] == h[|h| + 1 - MAX_AUDIT..] + [e];
    }
  }

  lemma SourcedOther(n: Enrollment, h: seq<AuditEntry>, e: AuditEntry)
    requires EnrollmentSourced(n, h) && n.handle != e.handle
    ensures EnrollmentSourced(n, h + [e])
  {
    FoldSnoc(h, e);
  }

  lemma SourcedOthers(es: seq<Enrollment>, h: seq<AuditEntry>, e: AuditEntry)
    requires forall i :: 0 <= i < |es| ==> EnrollmentSourced(es[i], h) && es[i].handle != e.handle
    ensures forall i :: 0 <= i < |es| ==> EnrollmentSourced(es[i], h + [e])
  {
    hide EnrollmentSourced;
    forall i | 0 <= i < |es| ensures EnrollmentSourced(es[i], h + [e]) {
      SourcedOther(es[i], h, e);
    }
  }

  lemma HandlesSnoc(es: seq<Enrollment>, e: Enrollment)
    ensures Handles(es + [e]) == Handles(es) + {e.handle}
  {
    assert forall x :: x in es + [e] <==> x in es || x == e;
  }

  lemma RemoveAtKeeps(es: seq<Enrollment>, i: nat, k: nat)
    requires i < |es| && k < |es| && k != i
    ensures es[k] in RemoveAt(es, i)
  {
    assert RemoveAt(es, i)[if k < i then k else k - 1] == es[k];
  }

  lemma RemoveAtDrops(es: seq<Enrollment>, i: nat, e: Enrollment)
    requires i < |es| && DistinctHandles(es) && e in RemoveAt(es, i)
    ensures e in es && e.handle != es[i].handle
  {
    var rest := RemoveAt(es, i);
    var k :| 0 <= k < |rest| && rest[k] == e;
    assert e == es[if k < i then k else k + 1];
  }

  lemma HandlesRemove(es: seq<Enrollment>, i: nat)
    requires i < |es| && DistinctHandles(es)
    ensures Handles(RemoveAt(es, i)) == Handles(es) - {es[i].handle}
    ensures forall e :: e in RemoveAt(es, i) ==> e in es && e.handle != es[i].handle
  {
    hide RemoveAt, DistinctHandles;
    forall e | e in RemoveAt(es, i) ensures e in es && e.handle != es[i].handle {
      RemoveAtDrops(es, i, e);
    }
    forall e | e in es && e.handle != es[i].handle ensures e in RemoveAt(es, i) {
      var k :| 0 <= k < |es| && es[k] == e;
      RemoveAtKeeps(es, i, k);
    }
  }

  lemma HandlesUpdate(es: seq<Enrollment>, i: nat, e: Enrollment)
    requires i < |es| && e.handle == es[i].handle
    ensures Handles(es[i := e]) == Handles(es)
  {
    forall h | h in Handles(es) ensures h in Handles(es[i := e]) {
      var k :| 0 <= k < |es| && es[k].handle == h;
      assert es[i := e][k].handle == h;
    }
    forall h | h in Handles(es[i := e]) ensures h in Handles(es) {
      var k :| 0 <= k < |es| && es[i := e][k].handle == h;
      assert es[k].handle == h;
    }
  }

  lemma {:induction false} UnusedHandleIsUnused(draws: seq<string>, es: seq<Enrollment>, attempts: nat)
    ensures var r := UnusedHandle(draws, es, attempts); r.Some? ==> r.value in draws && !HasHandle(es, r.value)
    decreases attempts
  {
    if attempts > 0 && draws != [] && HasHandle(es, draws[0]) {
      UnusedHandleIsUnused(draws[1..], es, attempts - 1);
    }
  }

  /** An enrolment is sourced by the entry just logged about it. */
  lemma LoggedIsSourced(h: seq<AuditEntry>, e: AuditEntry, n: Enrollment)
    requires e.handle == n.handle && e.revision == n.revision && e.current == Some(n.grants)
    ensures EnrollmentSourced(n, h + [e])
  {
    hide Fold, LastOf;
    FoldSnoc(h, e);
  }

  lemma NewestIsDistinct(es: seq<Enrollment>, n: Enrollment)
    requires DistinctRevisions(es) && forall i :: 0 <= i < |es| ==> es[i].revision < n.revision
    ensures DistinctRevisions(es + [n])
  {
  }

  lemma EnrollKeepsSourced(s: State, h: seq<AuditEntry>, remote: Key, c: Claims, now: u64, handle: string)
    requires Sourced(s, h) && s.revision < U64_MAX && !HasHandle(s.enrollments, handle)
    requires forall i :: 0 <= i < |s.enrollments| ==> s.enrollments[i].revision <= s.revision
    ensures Sourced(Enroll(s, remote, c, now, handle, s.revision + 1),
                    h + [AuditEntry(s.revision + 1, now, Enrolled, handle, None, Some(c.grants))])
  {
    hide EnrollmentSourced, DistinctRevisions, Fold, LastOf, Ring, PushAudit, Handles;
    var e := AuditEntry(s.revision + 1, now, Enrolled, handle, None, Some(c.grants));
    var n := Enrollment(remote, handle, c.grants, now, s.revision + 1);
    FoldSnoc(h, e);
    SourcedOthers(s.enrollments, h, e);
    LoggedIsSourced(h, e, n);
    NewestIsDistinct(s.enrollments, n);
    HandlesSnoc(s.enrollments, n);
  }

  lemma RemovalKeepsOthers(es: seq<Enrollment>, h: seq<AuditEntry>, i: nat, e: AuditEntry)
    requires i < |es| && DistinctHandles(es) && DistinctRevisions(es) && e.handle == es[i].handle
    requires forall k :: 0 <= k < |es| ==> EnrollmentSourced(es[k], h)
    ensures var rest := RemoveAt(es, i);
            DistinctRevisions(rest) && forall k :: 0 <= k < |rest| ==> EnrollmentSourced(rest[k], h + [e])
  {
    hide EnrollmentSourced;
    var rest := RemoveAt(es, i);
    forall k | 0 <= k < |rest| ensures rest[k] == es[if k < i then k else k + 1] {
    }
    forall k | 0 <= k < |rest| ensures EnrollmentSourced(rest[k], h) && rest[k].handle != e.handle {
    }
    SourcedOthers(rest, h, e);
  }

  lemma RevokeKeepsSourced(s: State, h: seq<AuditEntry>, i: nat, now: u64)
    requires Sourced(s, h) && DistinctHandles(s.enrollments) && i < |s.enrollments| && Change(s, i, None, now).Ok?
    ensures var o := Change(s, i, None, now).value; Sourced(o.candidate, h + o.entries)
  {
    hide EnrollmentSourced, DistinctRevisions, DistinctHandles, Fold, LastOf, Ring, PushAudit, Prune, Handles, RemoveAt;
    var o := Change(s, i, None, now).value;
    HandlesRemove(s.enrollments, i);
    RemovalKeepsOthers(s.enrollments, h, i, o.entries[0]);
    FoldSnoc(h, o.entries[0]);
  }

  lemma ReplacementKeepsOthers(es: seq<Enrollment>, h: seq<AuditEntry>, i: nat, n: Enrollment, e: AuditEntry)
    requires i < |es| && DistinctHandles(es) && DistinctRevisions(es) && e.handle == es[i].handle == n.handle
    requires forall k :: 0 <= k < |es| ==> EnrollmentSourced(es[k], h) && es[k].revision < n.revision
    requires EnrollmentSourced(n, h + [e])
    ensures var changed := es[i := n];
            DistinctRevisions(changed) && forall k :: 0 <= k < |changed| ==> EnrollmentSourced(changed[k], h + [e])
  {
    hide EnrollmentSourced;
    var changed := es[i := n];
    forall k | 0 <= k < |changed| ensures EnrollmentSourced(changed[k], h + [e]) {
      if k != i { SourcedOther(es[k], h, e); }
    }
  }

  lemma ReplaceKeepsSourced(s: State, h: seq<AuditEntry>, i: nat, grants: Grants, now: u64)
    requires Sourced(s, h) && DistinctHandles(s.enrollments) && i < |s.enrollments|
             && Change(s, i, Some(grants), now).Ok?
    requires forall k :: 0 <= k < |s.enrollments| ==> s.enrollments[k].revision <= s.revision
    ensures var o := Change(s, i, Some(grants), now).value; Sourced(o.candidate, h + o.entries)
  {
    hide EnrollmentSourced, DistinctRevisions, DistinctHandles, Fold, LastOf, Ring, PushAudit, Prune, Handles;
    var o := Change(s, i, Some(grants), now).value;
    var es, e := s.enrollments, o.entries[0];
    var n := es[i].(grants := grants, revision := s.revision + 1);
    FoldSnoc(h, e);
    HandlesUpdate(es, i, n);
    LoggedIsSourced(h, e, n);
    ReplacementKeepsOthers(es, h, i, n, e);
    HandleIsThere(es, i);
  }

  lemma HandleIsThere(es: seq<Enrollment>, i: nat)
    requires i < |es|
    ensures es[i].handle in Handles(es)
  {
    assert es[i] in es;
  }

  lemma ResetSnoc(es: seq<Enrollment>, revision: u64, now: u64, h: seq<AuditEntry>)
    requires es != []
    ensures var front, last := es[..|es|-1], es[|es|-1];
            && es == front + [last]
            && ResetEntries(es, revision, now) == ResetEntries(front, revision, now) + [ResetEntry(last, revision, now)]
            && h + ResetEntries(es, revision, now) ==
               (h + ResetEntries(front, revision, now)) + [ResetEntry(last, revision, now)]
  {
  }

  lemma {:induction false} ResetFolds(es: seq<Enrollment>, revision: u64, now: u64, h: seq<AuditEntry>)
    ensures Fold(h + ResetEntries(es, revision, now)) == Fold(h) - Handles(es)
    ensures PushAll(Ring(h), ResetEntries(es, revision, now)) == Ring(h + ResetEntries(es, revision, now))
    decreases |es|
  {
    hide Fold, Ring, PushAudit, Handles, LastOf;
    if es == [] {
      assert h + ResetEntries(es, revision, now) == h;
      NoHandles();
    } else {
      var front, last := es[..|es|-1], es[|es|-1];
      var before := ResetEntries(front, revision, now);
      ResetFolds(front, revision, now, h);
      ResetSnoc(es, revision, now, h);
      FoldSnoc(h + before, ResetEntry(last, revision, now));
      HandlesSnoc(front, last);
      assert ResetEntries(es, revision, now)[..|es|-1] == before;
    }
  }

  lemma NoHandles()
    ensures Handles([]) == {}
  {
  }

  lemma ResetKeepsSourced(s: State, h: seq<AuditEntry>, now: u64)
    requires Sourced(s, h) && Reset(s, now).Ok?
    ensures var o := Reset(s, now).value; Sourced(o.candidate, h + o.entries)
  {
    hide EnrollmentSourced, Fold, LastOf, Ring, PushAudit, PushAll, Prune, Handles;
    ResetFolds(s.enrollments, s.revision + 1, now, h);
    NoHandles();
  }

  lemma PruningKeepsSourced(s: State, h: seq<AuditEntry>, now: u64)
    requires Sourced(s, h)
    ensures Sourced(s.(consumed := Prune(s.consumed, now)), h)
  {
  }

  /** Every operation extends the history by the entries it logs and stays sourced. */
  lemma PerformKeepsSourced(p: Primitives, host: Key, s: State, op: Op, h: seq<AuditEntry>)
    requires Sourced(s, h) && Perform(p, host, s, op).Ok?
    ensures var o := Perform(p, host, s, op).value; Sourced(o.candidate, h + o.entries)
  {
    hide Sourced, Prune, PushAudit, Ring, Fold, Change, Reset, CheckClaims, Decode;
    var o := Perform(p, host, s, op).value;
    match op
    case Admit(remote, token, now, draws) =>
      var pruned := s.(consumed := Prune(s.consumed, now));
      if token.Some? {
        var c := o.spent.value;
        PruningKeepsSourced(s, h, now);
        UnusedHandleIsUnused(draws, s.enrollments, HANDLE_ATTEMPTS);
        EnrollKeepsSourced(pruned, h, remote, c, now, UnusedHandle(draws, s.enrollments, HANDLE_ATTEMPTS).value);
      } else {
        PruningKeepsSourced(s, h, now);
        assert h + [] == h;
      }
    case RevokeAll(now) => ResetKeepsSourced(s, h, now);
    case RevokeViewer(handle, now) => RevokeKeepsSourced(s, h, HandleIndex(s.enrollments, handle), now);
    case ReplaceGrants(handle, grants, now) =>
      var i := HandleIndex(s.enrollments, handle);
      if grants.Some? { ReplaceKeepsSourced(s, h, i, grants.value, now); } else { RevokeKeepsSourced(s, h, i, now); }
  }

  // --------------------------------------------------------------- validity

  predicate AuditHolds(audit: seq<AuditEntry>, revision: u64) {
    |audit| <= MAX_AUDIT && Ordered(audit) && forall i :: 0 <= i < |audit| ==> ValidAudit(audit[i], revision)
  }

  lemma PushKeepsAudit(audit: seq<AuditEntry>, e: AuditEntry, before: u64)
    requires AuditHolds(audit, before) && before <= e.revision && ValidAudit(e, e.revision)
    ensures AuditHolds(PushAudit(audit, e), e.revision)
  {
    hide ValidHandle, ValidGrants;
  }

  lemma {:induction false} PushAllKeepsAudit(audit: seq<AuditEntry>, entries: seq<AuditEntry>, before: u64,
                                             revision: u64)
    requires AuditHolds(audit, before) && before <= revision
    requires forall i :: 0 <= i < |entries| ==> entries[i].revision == revision && ValidAudit(entries[i], revision)
    ensures AuditHolds(PushAll(audit, entries), revision)
    decreases |entries|
  {
    if entries != [] {
      var front := entries[..|entries|-1];
      PushAllKeepsAudit(audit, front, before, revision);
      hide AuditHolds, ValidAudit;
      PushKeepsAudit(PushAll(audit, front), entries[|entries|-1], revision);
    }
  }

  lemma EnrollKeepsValid(p: Primitives, host: Key, s: State, remote: Key, c: Claims, now: u64, handle: string)
    requires Valid(s, host) && s.revision < U64_MAX && |s.enrollments| < MAX_ENROLLED && !HasPeer(s.enrollments, remote)
    requires ValidHandle(handle) && !HasHandle(s.enrollments, handle)
    requires ValidateClaims(p, c).Ok? && CheckClaims(s, host, remote, c, now).Ok?
    ensures Valid(Enroll(s, remote, c, now, handle, s.revision + 1), host)
  {
    hide ValidHandle, ValidGrants, GrantsView, PushAudit;
    PushKeepsAudit(s.audit, AuditEntry(s.revision + 1, now, Enrolled, handle, None, Some(c.grants)), s.revision);
  }

  lemma RemovalKeepsValid(es: seq<Enrollment>, i: nat, revision: u64)
    requires i < |es| && DistinctPeers(es) && DistinctHandles(es) && revision < U64_MAX
    requires forall k :: 0 <= k < |es| ==> ValidEnrollment(es[k], revision)
    ensures var rest := RemoveAt(es, i);
            && DistinctPeers(rest) && DistinctHandles(rest)
            && forall k :: 0 <= k < |rest| ==> ValidEnrollment(rest[k], revision + 1)
  {
    hide ValidHandle, ValidGrants, GrantsView;
    var rest := RemoveAt(es, i);
    assert forall k :: 0 <= k < |rest| ==> rest[k] == es[if k < i then k else k + 1];
  }

  lemma ReplacementKeepsValid(es: seq<Enrollment>, i: nat, grants: Grants, revision: u64)
    requires i < |es| && DistinctPeers(es) && DistinctHandles(es) && revision < U64_MAX
    requires forall k :: 0 <= k < |es| ==> ValidEnrollment(es[k], revision)
    requires ValidGrants(grants) && GrantsView(grants)
    ensures var changed := es[i := es[i].(grants := grants, revision := revision + 1)];
            DistinctPeers(changed) && DistinctHandles(changed)
            && forall k :: 0 <= k < |changed| ==> ValidEnrollment(changed[k], revision + 1)
  {
    hide ValidHandle, ValidGrants, GrantsView;
  }

  lemma ChangeKeepsValid(host: Key, s: State, i: nat, grants: Option<Grants>, now: u64)
    requires Valid(s, host) && i < |s.enrollments| && Change(s, i, grants, now).Ok?
    requires grants.Some? ==> ValidGrants(grants.value) && GrantsView(grants.value)
    ensures Valid(Change(s, i, grants, now).value.candidate, host)
  {
    hide ValidHandle, ValidGrants, GrantsView, PushAudit, Prune, DistinctPeers, DistinctHandles, ValidLedger;
    var o := Change(s, i, grants, now).value;
    PruneKeepsLedger(s.consumed, now);
    PushKeepsAudit(s.audit, o.entries[0], s.revision);
    if grants.None? {
      RemovalKeepsValid(s.enrollments, i, s.revision);
    } else {
      ReplacementKeepsValid(s.enrollments, i, grants.value, s.revision);
    }
  }

  lemma ResetKeepsValid(host: Key, s: State, now: u64)
    requires Valid(s, host) && Reset(s, now).Ok?
    ensures Valid(Reset(s, now).value.candidate, host)
  {
    hide ValidHandle, ValidGrants, GrantsView, PushAll, Prune;
    PruneKeepsLedger(s.consumed, now);
    PushAllKeepsAudit(s.audit, ResetEntries(s.enrollments, s.revision + 1, now), s.revision, s.revision + 1);
  }

  predicate ValidDraws(op: Op) {
    op.Admit? ==> forall d <- op.draws :: ValidHandle(d)
  }

  /** Whatever an operation would write passes the writer's own validation. */
  lemma PerformKeepsValid(p: Primitives, host: Key, s: State, op: Op)
    requires Perform(p, host, s, op).Ok? && ValidDraws(op)
    ensures Valid(s, host) && Valid(Perform(p, host, s, op).value.candidate, host)
  {
    hide ValidHandle, ValidGrants, GrantsView, Prune, Change, Reset, CheckClaims, Decode, Enroll, Fold, PushAudit;
    match op
    case Admit(remote, token, now, draws) =>
      PruneKeepsLedger(s.consumed, now);
      if token.Some? {
        UnusedHandleIsUnused(draws, s.enrollments, HANDLE_ATTEMPTS);
        DecodedIsVerified(p, token.value);
        VerifiedClaimsAreValid(p, Decode(p, token.value).value);
        EnrollKeepsValid(p, host, s.(consumed := Prune(s.consumed, now)), remote, Decode(p, token.value).value.claims,
                         now, UnusedHandle(draws, s.enrollments, HANDLE_ATTEMPTS).value);
      }
    case RevokeAll(now) => ResetKeepsValid(host, s, now);
    case RevokeViewer(handle, now) => ChangeKeepsValid(host, s, HandleIndex(s.enrollments, handle), None, now);
    case ReplaceGrants(handle, grants, now) =>
      ChangeKeepsValid(host, s, HandleIndex(s.enrollments, handle), grants, now);
  }

  lemma VerifiedClaimsAreValid(p: Primitives, i: SignedInvitation)
    requires Verify(p, i).Ok?
    ensures ValidateClaims(p, i.claims).Ok?
  {
  }

  // ------------------------------------------------------------------ replay

  /** The ledger remembers `c`, or the clock has once read so far past its expiry
      that no tolerated reading can come back to it. */
  predicate Spent(s: State, high: nat, c: Claims) {
    Consumed(c.nonce, c.expiresAt) in s.consumed || c.expiresAt + CLOCK_SKEW_SECS < high
  }

  lemma PruneKeepsSpent(cs: seq<Consumed>, now: u64, c: Claims)
    requires Consumed(c.nonce, c.expiresAt) in cs
    ensures Consumed(c.nonce, c.expiresAt) in Prune(cs, now) || c.expiresAt + CLOCK_SKEW_SECS < now
  {
    PruneMembers(cs, now);
  }

  /** No operation forgets a spent invitation too early, and redeeming spends. */
  lemma PerformKeepsSpent(p: Primitives, host: Key, s: State, op: Op, high: nat, c: Claims)
    requires Perform(p, host, s, op).Ok?
    requires Spent(s, high, c) || Perform(p, host, s, op).value.spent == Some(c)
    ensures Spent(Perform(p, host, s, op).value.candidate, Max(high, op.now), c)
  {
    hide Valid, CheckClaims, Decode, Prune, PushAudit, PushAll;
    if Consumed(c.nonce, c.expiresAt) in s.consumed {
      PruneKeepsSpent(s.consumed, op.now, c);
    }
  }

  /** A spent invitation is not redeemed again by any reading of the clock at most
      sixty seconds below an earlier one. */
  lemma SpentIsRefused(p: Primitives, host: Key, s: State, op: Op, high: nat, c: Claims)
    requires Spent(s, high, c) && op.now + CLOCK_SKEW_SECS >= high
    ensures Perform(p, host, s, op).Ok? ==> Perform(p, host, s, op).value.spent != Some(c)
  {
    hide Valid, Decode, Prune, PushAudit, PushAll;
    if Consumed(c.nonce, c.expiresAt) in s.consumed {
      PruneMembers(s.consumed, op.now);
      if Consumed(c.nonce, c.expiresAt) in Prune(s.consumed, op.now) {
        var k :| 0 <= k < |Prune(s.consumed, op.now)| && Prune(s.consumed, op.now)[k] == Consumed(c.nonce, c.expiresAt);
        assert HasNonce(Prune(s.consumed, op.now), c.nonce);
      }
    }
  }

  lemma PruneOne(cs: seq<Consumed>, now: u64)
    ensures Prune([], now) == []
    ensures |cs| == 1 && !Kept(cs[0], now) ==> Prune(cs, now) == []
  {
  }

  /** Sixty seconds is the most that can be allowed: a token redeemed at its expiry
      and revoked sixty-one seconds later is admitted again should the clock then
      fall back to the expiry. */
  lemma LargerRegressionReplays(p: Primitives, host: Key, s: State, remote: Key, token: string, draws: seq<string>,
                                now: u64)
    returns (first: Outcome, revoked: Outcome, again: Outcome)
    requires ValidDraws(Admit(remote, Some(token), now, draws))
    requires Perform(p, host, s, Admit(remote, Some(token), now, draws)).Ok?
    requires s.enrollments == [] && s.consumed == []
    requires now == Decode(p, token).value.claims.expiresAt && now + CLOCK_SKEW_SECS < U64_MAX
             && s.revision + 3 <= U64_MAX
    ensures Perform(p, host, s, Admit(remote, Some(token), now, draws)) == Ok(first) && first.viewer.Some?
    ensures Perform(p, host, first.candidate, RevokeViewer(first.viewer.value.handle, now + CLOCK_SKEW_SECS + 1)) ==
            Ok(revoked)
    ensures Perform(p, host, revoked.candidate, Admit(remote, Some(token), now, draws)) == Ok(again)
    ensures again.spent == first.spent && again.spent.Some?
  {
    hide Valid, Decode, PushAudit, ValidHandle;
    var admit := Admit(remote, Some(token), now, draws);
    first := Perform(p, host, s, admit).value;
    PerformKeepsValid(p, host, s, admit);
    UnusedHandleIsUnused(draws, s.enrollments, HANDLE_ATTEMPTS);
    var revoke := RevokeViewer(first.viewer.value.handle, now + CLOCK_SKEW_SECS + 1);
    assert HandleIndex(first.candidate.enrollments, first.viewer.value.handle) == 0;
    revoked := Perform(p, host, first.candidate, revoke).value;
    PerformKeepsValid(p, host, first.candidate, revoke);
    assert Prune([], now) == [] && first.candidate.consumed == [Consumed(first.spent.value.nonce, now)] by {
      PruneOne(first.candidate.consumed, now);
    }
    PruneOne(first.candidate.consumed, revoke.now);
    assert revoked.candidate.enrollments == [] && revoked.candidate.consumed == [];
    again := Perform(p, host, revoked.candidate, admit).value;
  }

  // ------------------------------------------------------------ completeness

  /** Exactly when a freshly issued, encoded token admits its peer: the time is from
      sixty seconds before issue through expiry, the epoch has not moved, the nonce
      is not remembered, there is room, and a handle and a revision can be had. */
  lemma IssuedTokenAdmitsIff(p: Primitives, host: Key, issued: State, peer: Key, grants: Grants, ttl: nat,
                             issuedAt: u64, nonce: Key, secret: Key, s: State, now: u64, draws: seq<string>)
    requires Lawful(p) && p.publicKey(secret) == host
    requires IssueClaims(p, host, issued, peer, grants, ttl, issuedAt, nonce).Ok?
    requires Valid(s, host)
    ensures var c := IssueClaims(p, host, issued, peer, grants, ttl, issuedAt, nonce).value;
            var ledger := Prune(s.consumed, now);
            && Issue(p, c, secret).Ok?
            && var token := Encode(p, Issue(p, c, secret).value);
               var r := Perform(p, host, s, Admit(peer, Some(token), now, draws));
            && (r.Ok? <==>
                  && issuedAt - CLOCK_SKEW_SECS <= now <= issuedAt + ttl
                  && s.epoch == issued.epoch
                  && !HasNonce(ledger, nonce) && |ledger| < MAX_CONSUMED
                  && !HasPeer(s.enrollments, peer) && |s.enrollments| < MAX_ENROLLED
                  && s.revision < U64_MAX && UnusedHandle(draws, s.enrollments, HANDLE_ATTEMPTS).Some?)
            && (r.Ok? ==>
                  && r.value.spent == Some(c)
                  && r.value.viewer.Some? && r.value.viewer.value.grants == grants
                  && exists i :: 0 <= i < |r.value.candidate.enrollments|
                       && r.value.candidate.enrollments[i] ==
                            Enrollment(peer, r.value.viewer.value.handle, grants, now, s.revision + 1))
  {
    hide Valid, Decode, Encode, Prune, PushAudit, Lawful;
    var c := IssueClaims(p, host, issued, peer, grants, ttl, issuedAt, nonce).value;
    assert Issue(p, c, secret).Ok?;
    IssuedDecodes(p, c, secret);
    var token := Encode(p, Issue(p, c, secret).value);
    var r := Perform(p, host, s, Admit(peer, Some(token), now, draws));
    if r.Ok? {
      assert r.value.candidate.enrollments[|s.enrollments|] ==
             Enrollment(peer, r.value.viewer.value.handle, grants, now, s.revision + 1);
    }
  }

  /** An enrolled peer reconnects without a ticket under its handle and grants. */
  lemma EnrolledReconnects(p: Primitives, host: Key, s: State, i: nat, now: u64, draws: seq<string>)
    requires Valid(s, host) && i < |s.enrollments|
    ensures var r := Perform(p, host, s, Admit(s.enrollments[i].peer, None, now, draws));
            && r.Ok?
            && r.value.viewer ==
               Some(Viewer(s.enrollments[i].handle, s.enrollments[i].grants, s.enrollments[i].revision, s.revision))
  {
    hide ValidHandle, ValidGrants, Prune;
    assert PeerIndex(s.enrollments, s.enrollments[i].peer) == i;
  }

  predicate Touches(op: Op, handle: string) {
    op.RevokeAll? || ((op.RevokeViewer? || op.ReplaceGrants?) && op.handle == handle)
  }

  /** Until somebody revokes or changes that very viewer, its enrolment stays as it is. */
  lemma UntouchedStaysEnrolled(p: Primitives, host: Key, s: State, op: Op, e: Enrollment)
    requires Perform(p, host, s, op).Ok? && e in s.enrollments && !Touches(op, e.handle)
    ensures e in Perform(p, host, s, op).value.candidate.enrollments
  {
    hide Valid, Decode, Prune, PushAudit, CheckClaims, RemoveAt, ValidHandle, ValidGrants, UnusedHandle;
    var k :| 0 <= k < |s.enrollments| && s.enrollments[k] == e;
    var es := Perform(p, host, s, op).value.candidate.enrollments;
    match op
    case Admit(_, _, _, _) => assert es[k] == e;
    case RevokeViewer(handle, _) => RemoveAtKeeps(s.enrollments, HandleIndex(s.enrollments, handle), k);
    case ReplaceGrants(handle, grants, _) =>
      if grants.Some? {
        assert es[k] == e;
      } else {
        RemoveAtKeeps(s.enrollments, HandleIndex(s.enrollments, handle), k);
      }
  }
}
