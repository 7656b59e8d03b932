/** When the authorization store opens, and with what in memory
    (crates/sigil-host/src/authorization.rs:228-365, 417-439, 983-1029). */
module AuthorizationOpening {
  import opened Prelude
  import opened Invitation
  import opened Authorization
  import opened AuthorizationStore

  predicate IsHandle(h: string) {
    && |h| == 23 && h[..7] == "viewer-"
    && forall i :: 7 <= i < 23 ==> h[i] in "0123456789abcdef"
  }

  predicate NotZero(nonce: Key) {
    exists i :: 0 <= i < 32 && nonce[i] != 0
  }

  lemma HandleIff(h: string)
    ensures ValidHandle(h) <==> IsHandle(h)
  {
    if |h| == 23 {
      assert HANDLE_PREFIX <= h <==> h[..7] == "viewer-";
      forall i | 7 <= i < 23
        ensures h[i] in "0123456789abcdef" <==> '0' <= h[i] <= '9' || 'a' <= h[i] <= 'f'
      {
        HexDigitIff(h[i]);
      }
    }
  }

  lemma HexDigitIff(c: char)
    ensures c in "0123456789abcdef" <==> '0' <= c <= '9' || 'a' <= c <= 'f'
  {
    var digits := "0123456789abcdef";
    if '0' <= c <= '9' { assert digits[c as int - '0' as int] == c; }
    if 'a' <= c <= 'f' { assert digits[c as int - 'a' as int + 10] == c; }
  }

  /** Opening a stored document succeeds exactly when every part of it is in order, and
      then memory is that document; either way both documents stay as they are. */
  lemma StoredOpensIff(host: Key, s: State, legacy: Option<Legacy>, handle: string, fate: WriteFate, removal: WriteFate)
    ensures var r := OpenStore(host, Some(s), legacy, handle, fate, removal);
            && r.durable == Some(s) && r.legacy == legacy
            && (r.state == Some(s) || r.state == None)
            && (r.state == Some(s) <==>
                  && s.version == 2 && s.host == host && s.epoch > 0 && s.revision > 0
                  && |s.enrollments| <= 32 && |s.consumed| <= 64 && |s.audit| <= 64
                  && (forall i, j :: 0 <= i < j < |s.enrollments| ==>
                        s.enrollments[i].peer != s.enrollments[j].peer
                        && s.enrollments[i].handle != s.enrollments[j].handle)
                  && (forall e <- s.enrollments ::
                        IsHandle(e.handle) && e.grants in {1, 3, 5, 7} && 0 < e.revision <= s.revision)
                  && (forall c <- s.consumed :: NotZero(c.nonce))
                  && (forall i, j :: 0 <= i < j < |s.consumed| ==> s.consumed[i].nonce != s.consumed[j].nonce)
                  && (forall a <- s.audit ::
                        && IsHandle(a.handle) && 0 < a.revision <= s.revision
                        && (a.previous.Some? ==> 1 <= a.previous.value <= 7)
                        && (a.current.Some? ==> 1 <= a.current.value <= 7))
                  && (forall i, j :: 0 <= i < j < |s.audit| ==> s.audit[i].revision <= s.audit[j].revision))
  {
    hide ValidHandle, IsHandle;
    forall h ensures ValidHandle(h) == IsHandle(h) { HandleIff(h); }
    forall c: Key ensures NotZero(c) == !IsZero(c) { }
    EnrollmentsIff(s.enrollments, s.revision);
    AuditsIff(s.audit, s.revision);
    assert (forall c <- s.consumed :: NotZero(c.nonce)) <==>
           forall i :: 0 <= i < |s.consumed| ==> !IsZero(s.consumed[i].nonce);
  }

  lemma EnrollmentsIff(es: seq<Enrollment>, revision: u64)
    ensures (forall i :: 0 <= i < |es| ==> ValidEnrollment(es[i], revision)) <==>
            forall e <- es :: IsHandle(e.handle) && e.grants in {1, 3, 5, 7} && 0 < e.revision <= revision
  {
    hide ValidHandle, IsHandle;
    forall e <- es
      ensures ValidEnrollment(e, revision) <==>
              IsHandle(e.handle) && e.grants in {1, 3, 5, 7} && 0 < e.revision <= revision
    {
      HandleIff(e.handle);
    }
  }

  lemma AuditsIff(audit: seq<AuditEntry>, revision: u64)
    ensures (forall i :: 0 <= i < |audit| ==> ValidAudit(audit[i], revision)) <==>
            forall a <- audit ::
              && IsHandle(a.handle) && 0 < a.revision <= revision
              && (a.previous.Some? ==> 1 <= a.previous.value <= 7)
              && (a.current.Some? ==> 1 <= a.current.value <= 7)
  {
    hide ValidHandle, IsHandle;
    forall a <- audit ensures ValidHandle(a.handle) == IsHandle(a.handle) { HandleIff(a.handle); }
  }

  /** A version 1 document that can be carried over. */
  predicate Convertible(l: Legacy, host: Key) {
    && l.version == 1 && l.host == host && l.epoch > 0 && |l.consumed| <= 64
    && (forall c <- l.consumed :: NotZero(c.nonce))
    && (forall i, j :: 0 <= i < j < |l.consumed| ==> l.consumed[i].nonce != l.consumed[j].nonce)
    && (l.enrollment.Some? ==> l.enrollment.value.grants in {1, 3, 5, 7})
  }

  lemma ConvertsIff(l: Legacy, host: Key, handle: string)
    requires ValidHandle(handle)
    ensures FromLegacy(l, host, handle).Ok? <==> Convertible(l, host)
  {
    hide ValidHandle;
    forall c: Key ensures NotZero(c) == !IsZero(c) { }
    assert (forall c <- l.consumed :: NotZero(c.nonce)) <==>
           forall i :: 0 <= i < |l.consumed| ==> !IsZero(l.consumed[i].nonce);
  }

  /** Opening without a stored document: with nothing at all it starts an empty epoch
      1; with a version 1 document it succeeds exactly when that can be carried over
      and both its writing and the removal of the old one are reported done. */
  lemma FirstOpensIff(host: Key, legacy: Option<Legacy>, handle: string, fate: WriteFate, removal: WriteFate)
    requires ValidHandle(handle)
    ensures var r := OpenStore(host, None, legacy, handle, fate, removal);
            && (legacy.None? ==> r == Opened(Some(State(2, host, 1, 1, [], [], [])), None, None))
            && (legacy.Some? ==>
                  && (r.state.Some? <==> Convertible(legacy.value, host) && fate.Written? && removal.Written?)
                  && (r.state.Some? ==> r.durable == r.state)
                  && (r.durable.Some? <==> Convertible(legacy.value, host) && !fate.Failed?)
                  && (r.durable.Some? ==> r.durable.value == Carried(legacy.value, host, handle))
                  && (r.legacy == None <==> Convertible(legacy.value, host) && fate.Written? && !removal.Failed?)
                  && (r.legacy == None || r.legacy == legacy))
  {
    hide Valid, ValidHandle;
    if legacy.Some? {
      ConvertsIff(legacy.value, host, handle);
      if Convertible(legacy.value, host) { ConvertsTo(legacy.value, host, handle); }
    }
  }

  /** What a version 1 document becomes: its epoch, ledger and viewer, at revision 1,
      with one audit entry that gives the viewer its grants. */
  function Carried(l: Legacy, host: Key, handle: string): State {
    match l.enrollment
    case None => State(2, host, l.epoch, 1, [], l.consumed, [])
    case Some(e) =>
      State(2, host, l.epoch, 1, [Enrollment(e.peer, handle, e.grants, e.enrolledAt, 1)], l.consumed,
            [AuditEntry(1, e.enrolledAt, MigratedV1, handle, Some(e.grants), Some(e.grants))])
  }

  lemma ConvertsTo(l: Legacy, host: Key, handle: string)
    requires FromLegacy(l, host, handle).Ok?
    ensures FromLegacy(l, host, handle).value == Carried(l, host, handle)
  {
    hide Valid;
    assert [] + [AuditEntry(1, 0, MigratedV1, handle, None, None)] ==
           [AuditEntry(1, 0, MigratedV1, handle, None, None)];
  }
}
