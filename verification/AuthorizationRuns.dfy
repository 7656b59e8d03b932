/** Whole runs of the authorization store: calls whose writes may fail or half fail,
    crashes and reopenings, with a clock that never falls more than sixty seconds
    below a reading it gave before. */
module AuthorizationRuns {
  import opened Prelude
  import opened Invitation
  import opened Authorization
  import opened AuthorizationLaws
  import opened AuthorizationEffects
  import opened AuthorizationStore

  /** A state with the full history of the audit entries that led to it. */
  datatype Version = Version(state: State, history: seq<AuditEntry>)

  /** Memory is empty between a crash and the next opening. `high` is the greatest
      clock reading so far, `redeemed` every invitation whose redemption was
      reported as successful, in order. */
  datatype World = World(
    memory: Option<Version>, durable: Option<Version>, legacy: Option<Legacy>, high: nat, redeemed: seq<Claims>)

  datatype Event =
    | Call(op: Op, fate: WriteFate)
    | Crash
    | OpenAgain(handle: string, fate: WriteFate, removal: WriteFate)

  datatype Site = Site(p: Primitives, host: Key)

  predicate Enabled(w: World, e: Event) {
    match e
    case Call(op, _) => w.memory.Some? && ValidDraws(op) && op.now + CLOCK_SKEW_SECS >= w.high
    case Crash => w.memory.Some?
    case OpenAgain(handle, _, _) => w.memory.None? && ValidHandle(handle)
  }

  function StateOf(v: Option<Version>): Option<State> {
    if v.Some? then Some(v.value.state) else None
  }

  function Apply(site: Site, w: World, e: Event): World
    requires Enabled(w, e)
  {
    match e
    case Crash => w.(memory := None)
    case Call(op, fate) =>
      var clocked := w.(high := Max(w.high, op.now));
      (match Perform(site.p, site.host, w.memory.value.state, op)
       case Err(_) => clocked
       case Ok(o) =>
         if !o.changed || fate.Failed? then clocked
         else
           var next := Some(Version(o.candidate, w.memory.value.history + o.entries));
           if fate.Renamed? then clocked.(durable := next)
           else clocked.(durable := next, memory := next,
                         redeemed := if o.spent.Some? then w.redeemed + [o.spent.value] else w.redeemed))
    case OpenAgain(handle, fate, removal) =>
      var r := OpenStore(site.host, StateOf(w.durable), w.legacy, handle, fate, removal);
      var history := if w.durable.Some? then w.durable.value.history
                     else if w.legacy.Some? then LegacyHistory(w.legacy.value, handle) else [];
      w.(memory := if r.state.Some? then Some(Version(r.state.value, history)) else None,
         durable := if r.durable.Some? then Some(Version(r.durable.value, history)) else None,
         legacy := r.legacy)
  }

  /** The run's calls are the store's: same memory, same disk. */
  lemma CallsAreTheStores(site: Site, w: World, op: Op, fate: WriteFate)
    requires Enabled(w, Call(op, fate))
    ensures var r := Settle(site.p, site.host, w.memory.value.state, StateOf(w.durable), op, fate);
            var w' := Apply(site, w, Call(op, fate));
            w'.memory.Some? && w'.memory.value.state == r.state && StateOf(w'.durable) == r.durable
  {
    hide Perform;
  }

  ghost predicate VersionHolds(site: Site, v: Version) {
    Valid(v.state, site.host) && Sourced(v.state, v.history)
  }

  ghost predicate Initial(site: Site, w: World) {
    w.memory.None? && w.redeemed == [] && (w.durable.Some? ==> VersionHolds(site, w.durable.value))
  }

  predicate Remembers(w: World, c: Claims) {
    && (w.memory.Some? ==> Spent(w.memory.value.state, w.high, c))
    && w.durable.Some? && Spent(w.durable.value.state, w.high, c)
  }

  ghost predicate Inv(site: Site, w: World) {
    && (w.memory.Some? ==> VersionHolds(site, w.memory.value))
    && (w.durable.Some? ==> VersionHolds(site, w.durable.value))
    && (forall c <- w.redeemed :: Remembers(w, c))
    && (forall i, j :: 0 <= i < j < |w.redeemed| ==> w.redeemed[i] != w.redeemed[j])
  }

  lemma EmptyHolds(site: Site)
    ensures VersionHolds(site, Version(Empty(site.host), []))
  {
  }

  lemma MigratedHolds(site: Site, l: Legacy, handle: string)
    requires FromLegacy(l, site.host, handle).Ok?
    ensures VersionHolds(site, Version(FromLegacy(l, site.host, handle).value, LegacyHistory(l, handle)))
  {
    hide Valid;
    var s, h := FromLegacy(l, site.host, handle).value, LegacyHistory(l, handle);
    if l.enrollment.Some? {
      assert h == [] + [MigrationEntry(l.enrollment.value, handle)];
      FoldSnoc([], MigrationEntry(l.enrollment.value, handle));
      HandlesSnoc([], s.enrollments[0]);
      assert [] + [s.enrollments[0]] == s.enrollments;
    }
  }

  lemma OpenKeepsInv(site: Site, w: World, e: Event)
    requires Inv(site, w) && Enabled(w, e) && e.OpenAgain?
    ensures Inv(site, Apply(site, w, e))
  {
    hide VersionHolds, Valid, FromLegacy, Spent;
    EmptyHolds(site);
    if w.durable.None? && w.legacy.Some? && FromLegacy(w.legacy.value, site.host, e.handle).Ok? {
      MigratedHolds(site, w.legacy.value, e.handle);
    }
  }

  lemma HighKeepsSpent(s: State, high: nat, later: nat, c: Claims)
    requires Spent(s, high, c) && high <= later
    ensures Spent(s, later, c)
  {
  }

  /** What a call remembers of an invitation, old or just redeemed. */
  lemma CallRemembers(site: Site, w: World, op: Op, fate: WriteFate, c: Claims)
    requires Inv(site, w) && Enabled(w, Call(op, fate)) && c in Apply(site, w, Call(op, fate)).redeemed
    ensures Remembers(Apply(site, w, Call(op, fate)), c)
  {
    hide Perform, Spent, VersionHolds;
    var w' := Apply(site, w, Call(op, fate));
    if c in w.redeemed {
      assert Remembers(w, c);
      HighKeepsSpent(w.memory.value.state, w.high, w'.high, c);
      HighKeepsSpent(w.durable.value.state, w.high, w'.high, c);
    }
    if Perform(site.p, site.host, w.memory.value.state, op).Ok? {
      PerformKeepsSpent(site.p, site.host, w.memory.value.state, op, w.high, c);
    }
  }

  lemma CallKeepsInv(site: Site, w: World, op: Op, fate: WriteFate)
    requires Inv(site, w) && Enabled(w, Call(op, fate))
    ensures Inv(site, Apply(site, w, Call(op, fate)))
  {
    hide Perform, Spent, Valid, Sourced, Remembers;
    var w' := Apply(site, w, Call(op, fate));
    var s := w.memory.value.state;
    forall c <- w'.redeemed ensures Remembers(w', c) {
      CallRemembers(site, w, op, fate, c);
    }
    if Perform(site.p, site.host, s, op).Ok? {
      PerformKeepsValid(site.p, site.host, s, op);
      PerformKeepsSourced(site.p, site.host, s, op, w.memory.value.history);
      forall c <- w.redeemed ensures Perform(site.p, site.host, s, op).value.spent != Some(c) {
        RememberedIsSpent(w, c);
        SpentIsRefused(site.p, site.host, s, op, w.high, c);
      }
    }
  }

  lemma RememberedIsSpent(w: World, c: Claims)
    requires Remembers(w, c) && w.memory.Some?
    ensures Spent(w.memory.value.state, w.high, c)
  {
  }

  lemma StepKeepsInv(site: Site, w: World, e: Event)
    requires Inv(site, w) && Enabled(w, e)
    ensures Inv(site, Apply(site, w, e))
  {
    match e
    case Call(op, fate) => CallKeepsInv(site, w, op, fate);
    case Crash =>
    case OpenAgain(_, _, _) => OpenKeepsInv(site, w, e);
  }

  ghost predicate Run(site: Site, ws: seq<World>, es: seq<Event>) {
    && |ws| == |es| + 1
    && Initial(site, ws[0])
    && forall i :: 0 <= i < |es| ==> Enabled(ws[i], es[i]) && ws[i+1] == Apply(site, ws[i], es[i])
  }

  lemma {:induction false} RunKeepsInv(site: Site, ws: seq<World>, es: seq<Event>, i: nat)
    requires Run(site, ws, es) && i < |ws|
    ensures Inv(site, ws[i])
  {
    if i > 0 {
      RunKeepsInv(site, ws, es, i - 1);
      hide Inv, Apply, Enabled;
      StepKeepsInv(site, ws[i-1], es[i-1]);
    }
  }

  // ------------------------------------------------------------------ results

  /** Over any run no invitation is reported redeemed twice. */
  lemma RedeemedAtMostOnce(site: Site, ws: seq<World>, es: seq<Event>, n: nat, i: nat, j: nat)
    requires Run(site, ws, es) && n < |ws| && i < j < |ws[n].redeemed|
    ensures ws[n].redeemed[i] != ws[n].redeemed[j]
  {
    RunKeepsInv(site, ws, es, n);
  }

  /** At every instant the states in memory and on disk pass validation, and each is
      what folding its full audit history gives. */
  lemma AuditIsTheSource(site: Site, ws: seq<World>, es: seq<Event>, n: nat, v: Version)
    requires Run(site, ws, es) && n < |ws| && (ws[n].memory == Some(v) || ws[n].durable == Some(v))
    ensures Valid(v.state, site.host)
    ensures Fold(v.history).Keys == Handles(v.state.enrollments)
    ensures forall i :: 0 <= i < |v.state.enrollments| ==> EnrollmentSourced(v.state.enrollments[i], v.history)
    ensures DistinctRevisions(v.state.enrollments) && v.state.audit == Ring(v.history)
  {
    hide Valid;
    RunKeepsInv(site, ws, es, n);
  }

  /** What a call answers. */
  function Answered(site: Site, w: World, op: Op, fate: WriteFate): Result<Option<Viewer>, Refusal>
    requires w.memory.Some?
  {
    Settle(site.p, site.host, w.memory.value.state, StateOf(w.durable), op, fate).answer
  }

  /** Whether a call reported success. */
  predicate Succeeds(site: Site, w: World, op: Op, fate: WriteFate)
    requires w.memory.Some?
  {
    Answered(site, w, op, fate).Ok?
  }

  /** After a call that reports success, memory and disk agree exactly when it had
      something to write or they agreed before. They can only have parted through a
      write that was renamed into place and yet reported as failed. */
  lemma SuccessAgreesIff(site: Site, w: World, op: Op, fate: WriteFate)
    requires Enabled(w, Call(op, fate)) && Succeeds(site, w, op, fate)
    ensures var w' := Apply(site, w, Call(op, fate));
            w'.memory == w'.durable <==>
              Perform(site.p, site.host, w.memory.value.state, op).value.changed || w.memory == w.durable
  {
    hide Perform;
  }

  /** A renamed write that is reported as failed does part them. */
  lemma RenamedWriteParts(site: Site, w: World, op: Op)
    requires Enabled(w, Call(op, Renamed))
    requires Perform(site.p, site.host, w.memory.value.state, op).Ok?
             && Perform(site.p, site.host, w.memory.value.state, op).value.changed
    ensures var w' := Apply(site, w, Call(op, Renamed)); w'.memory == w.memory && w'.memory != w'.durable
  {
    hide Valid, Decode, CheckClaims, PushAudit, PushAll;
    var s := w.memory.value.state;
    if op.Admit? { PruneMembers(s.consumed, op.now); }
  }

  /** So success alone does not leave them equal. A run: a version 1 document with one
      viewer is migrated, a reset is renamed into place but reported as failed, and
      the viewer then reconnects without a ticket: a success with nothing to write,
      while the disk holds no viewer at all. */
  lemma SuccessCanDiffer(site: Site, peer: Key, handle: string) returns (ws: seq<World>, es: seq<Event>)
    requires ValidHandle(handle)
    ensures Run(site, ws, es) && |ws| == 4 && |es| == 3
    ensures es[2] == Call(Admit(peer, None, 0, []), Written) && ws[2].memory.Some?
            && Succeeds(site, ws[2], es[2].op, Written)
    ensures ws[3].memory.Some? && ws[3].durable.Some? && ws[3].memory != ws[3].durable
    ensures ws[3].durable.value.state.enrollments == [] && ws[3].memory.value.state.enrollments != []
  {
    hide Apply, Enabled, Succeeds, Valid, ValidHandle, VersionHolds;
    var l := Legacy(LEGACY_STATE_VERSION, site.host, 1, Some(LegacyEnrollment(peer, 1, 0)), []);
    var w0 := World(None, None, Some(l), 0, []);
    var w1 := MigratedWorld(site, w0, l, peer, handle);
    var w2 := HalfReset(site, w1);
    var w3 := BackAgain(site, w2, peer);
    ws := [w0, w1, w2, w3];
    es := [OpenAgain(handle, Written, Written), Call(RevokeAll(0), Renamed), Call(Admit(peer, None, 0, []), Written)];
  }

  lemma MigratedWorld(site: Site, w: World, l: Legacy, peer: Key, handle: string) returns (w': World)
    requires ValidHandle(handle) && w == World(None, None, Some(l), 0, [])
    requires l == Legacy(LEGACY_STATE_VERSION, site.host, 1, Some(LegacyEnrollment(peer, 1, 0)), [])
    ensures Enabled(w, OpenAgain(handle, Written, Written)) && w' == Apply(site, w, OpenAgain(handle, Written, Written))
    ensures w'.memory.Some? && w'.durable == w'.memory && w'.high == 0
    ensures var s := w'.memory.value.state;
            && Valid(s, site.host) && s.enrollments == [Enrollment(peer, handle, 1, 0, 1)] && s.consumed == []
            && s.epoch == 1 && s.revision == 1
  {
    hide ValidHandle, FromLegacy, Valid;
    MigratedOne(site.host, peer, handle);
    w' := Apply(site, w, OpenAgain(handle, Written, Written));
  }

  lemma HalfReset(site: Site, w: World) returns (w': World)
    requires w.memory.Some? && w.high == 0 && Valid(w.memory.value.state, site.host)
    requires w.memory.value.state.epoch == 1 && w.memory.value.state.revision == 1
    ensures Enabled(w, Call(RevokeAll(0), Renamed)) && w' == Apply(site, w, Call(RevokeAll(0), Renamed))
    ensures w'.memory == w.memory && w'.high == 0 && w'.durable.Some? && w'.durable.value.state.enrollments == []
  {
    hide Valid, Perform;
    RevokeAllIff(site.p, site.host, w.memory.value.state, 0);
    ResetChanges(site, w.memory.value.state);
    w' := Apply(site, w, Call(RevokeAll(0), Renamed));
  }

  lemma ResetChanges(site: Site, s: State)
    ensures Perform(site.p, site.host, s, RevokeAll(0)).Ok? ==>
              Perform(site.p, site.host, s, RevokeAll(0)).value.changed
  {
    hide Valid, Prune, PushAll, ResetEntries;
  }

  lemma BackAgain(site: Site, w: World, peer: Key) returns (w': World)
    requires w.memory.Some? && w.high == 0 && Valid(w.memory.value.state, site.host)
    requires w.memory.value.state.consumed == []
    requires |w.memory.value.state.enrollments| == 1 && w.memory.value.state.enrollments[0].peer == peer
    ensures var op := Admit(peer, None, 0, []);
            && Enabled(w, Call(op, Written)) && w' == Apply(site, w, Call(op, Written))
            && Succeeds(site, w, op, Written)
            && w'.memory == w.memory && w'.durable == w.durable
  {
    hide Valid, Perform;
    EnrolledReconnects(site.p, site.host, w.memory.value.state, 0, 0, []);
    NothingPruned(site, w.memory.value.state, peer);
    w' := Apply(site, w, Call(Admit(peer, None, 0, []), Written));
  }

  lemma MigratedOne(host: Key, peer: Key, handle: string)
    requires ValidHandle(handle)
    ensures var l := Legacy(LEGACY_STATE_VERSION, host, 1, Some(LegacyEnrollment(peer, 1, 0)), []);
            var r := FromLegacy(l, host, handle);
            && r.Ok? && Valid(r.value, host) && r.value.enrollments == [Enrollment(peer, handle, 1, 0, 1)]
            && r.value.consumed == [] && r.value.epoch == 1 && r.value.revision == 1
  {
    hide ValidHandle;
  }

  lemma NothingPruned(site: Site, s: State, peer: Key)
    requires s.consumed == [] && Perform(site.p, site.host, s, Admit(peer, None, 0, [])).Ok?
    ensures !Perform(site.p, site.host, s, Admit(peer, None, 0, [])).value.changed
  {
    hide Valid;
  }

  /** Reopening after a crash always finds memory and disk agreeing. */
  lemma OpeningAgrees(site: Site, w: World, e: Event)
    requires Enabled(w, e) && e.OpenAgain?
    ensures var w' := Apply(site, w, e);
            w'.memory.Some? && w'.durable.Some? ==> w'.memory == w'.durable
    ensures w.durable.Some? ==> Apply(site, w, e).durable == w.durable
  {
    hide FromLegacy, Valid;
  }

  /** In every run an opening with a document on disk succeeds and restores exactly that
      version, and so does the one after any crash. */
  lemma OpeningRestores(site: Site, ws: seq<World>, es: seq<Event>, i: nat)
    requires Run(site, ws, es) && i < |es| && es[i].OpenAgain? && ws[i].durable.Some?
    ensures |ws| == |es| + 1
    ensures ws[i+1].memory == ws[i+1].durable == ws[i].durable
    ensures i > 0 && es[i-1].Crash? ==> ws[i+1].memory == ws[i-1].durable
  {
    hide Valid, FromLegacy, Sourced;
    RunKeepsInv(site, ws, es, i);
  }

  /** At every instant of every run at which the store is open, whoever an invitation can be
      made out to can join with it there and then, while the ledger has room and knows no
      such nonce: the redemption is reported, and the peer enrolled in memory and on disk. */
  lemma InvitedCanJoin(site: Site, ws: seq<World>, es: seq<Event>, peer: Key, grants: Grants, ttl: nat, now: u64,
                       nonce: Key, secret: Key, handle: string) returns (join: Event)
    requires Run(site, ws, es) && |ws| == |es| + 1 && ws[|es|].memory.Some?
    requires Lawful(site.p) && site.p.publicKey(secret) == site.host && ValidHandle(handle)
    requires var w, s := ws[|es|], ws[|es|].memory.value.state;
             && IssueClaims(site.p, site.host, s, peer, grants, ttl, now, nonce).Ok? && now + 60 >= w.high
             && !HasNonce(s.consumed, nonce) && |s.consumed| < 64
             && !HasHandle(s.enrollments, handle) && s.revision < U64_MAX
    ensures var w := ws[|es|];
            var c := IssueClaims(site.p, site.host, w.memory.value.state, peer, grants, ttl, now, nonce).value;
            && Enabled(w, join)
            && var w' := Apply(site, w, join);
            && w'.redeemed == w.redeemed + [c] && w'.memory.Some? && w'.durable == w'.memory
            && exists e <- w'.memory.value.state.enrollments ::
                 e.peer == peer && e.handle == handle && e.grants == grants
  {
    hide Valid, Encode, Decode, Perform, IssueClaims, Issue, ValidHandle, Lawful, Inv, HasHandle, HasNonce, Prune;
    var w := ws[|es|];
    var s := w.memory.value.state;
    RunKeepsInv(site, ws, es, |es|);
    MemoryIsValid(site, w);
    var c := IssueClaims(site.p, site.host, s, peer, grants, ttl, now, nonce).value;
    IssuesIff(site.p, site.host, s, peer, grants, ttl, now, nonce);
    assert !HasPeer(s.enrollments, peer);
    FreshNonceStays(s.consumed, now, nonce);
    OneDraw(handle, s.enrollments);
    IssuedTokenAdmitsIff(site.p, site.host, s, peer, grants, ttl, now, nonce, secret, s, now, [handle]);
    var op := Admit(peer, Some(Encode(site.p, Issue(site.p, c, secret).value)), now, [handle]);
    join := Call(op, Written);
    RedemptionLeaves(site.p, site.host, s, op);
    var o := Perform(site.p, site.host, s, op).value;
    assert o.candidate.enrollments[|s.enrollments|] in o.candidate.enrollments;
  }

  lemma MemoryIsValid(site: Site, w: World)
    requires Inv(site, w) && w.memory.Some?
    ensures Valid(w.memory.value.state, site.host)
  {
  }

  lemma FreshNonceStays(cs: seq<Consumed>, now: u64, nonce: Key)
    requires !HasNonce(cs, nonce)
    ensures !HasNonce(Prune(cs, now), nonce) && |Prune(cs, now)| <= |cs|
  {
    PruneMembers(cs, now);
    var kept := Prune(cs, now);
    forall i | 0 <= i < |kept| ensures kept[i].nonce != nonce {
      assert kept[i] in kept;
    }
  }

  lemma OneDraw(handle: string, es: seq<Enrollment>)
    requires !HasHandle(es, handle)
    ensures UnusedHandle([handle], es, 16) == Some(handle)
  {
    hide HasHandle;
  }

  // ------------------------------------------------------------------- resets

  /** Memory and disk are both in epoch `epoch` or later. */
  predicate PastEpoch(w: World, epoch: nat) {
    && (w.memory.Some? ==> w.memory.value.state.epoch >= epoch)
    && w.durable.Some? && w.durable.value.state.epoch >= epoch
  }

  lemma StepKeepsPast(site: Site, w: World, e: Event, epoch: nat)
    requires Enabled(w, e) && PastEpoch(w, epoch)
    ensures PastEpoch(Apply(site, w, e), epoch)
  {
    hide Perform, FromLegacy, Valid;
    if e.Call? && Perform(site.p, site.host, w.memory.value.state, e.op).Ok? {
      EpochNeverFalls(site.p, site.host, w.memory.value.state, e.op);
    }
  }

  lemma {:induction false} RunKeepsPast(site: Site, ws: seq<World>, es: seq<Event>, i: nat, j: nat, epoch: nat)
    requires Run(site, ws, es) && i <= j < |ws| && PastEpoch(ws[i], epoch)
    ensures PastEpoch(ws[j], epoch)
    decreases j
  {
    hide PastEpoch, Apply, Enabled;
    if i < j {
      RunKeepsPast(site, ws, es, i, j - 1, epoch);
      StepKeepsPast(site, ws[j-1], es[j-1], epoch);
    }
  }

  /** After a reset that reports success no invitation of the old epoch is ever
      redeemed, whatever fails or crashes later; only what was issued since can be. */
  lemma ResetIsForGood(site: Site, ws: seq<World>, es: seq<Event>, i: nat, j: nat)
    requires Run(site, ws, es) && i < j < |es|
    requires es[i].Call? && es[i].op.RevokeAll? && ws[i].memory.Some? && Succeeds(site, ws[i], es[i].op, es[i].fate)
    ensures |ws| == |es| + 1
    ensures ws[i+1].memory.Some? && ws[i+1].memory.value.state.enrollments == []
    ensures forall c :: ws[j+1].redeemed == ws[j].redeemed + [c] ==> c.epoch > ws[i].memory.value.state.epoch
  {
    RevokeAllIff(site.p, site.host, ws[i].memory.value.state, es[i].op.now);
    hide Valid, Perform;
    var epoch := ws[i].memory.value.state.epoch + 1;
    assert PastEpoch(ws[i+1], epoch);
    RunKeepsPast(site, ws, es, i + 1, j, epoch);
    forall c | ws[j+1].redeemed == ws[j].redeemed + [c] ensures c.epoch >= epoch {
      RedeemedNow(site, ws[j], es[j], c);
    }
  }

  lemma RedeemedNow(site: Site, w: World, e: Event, c: Claims)
    requires Enabled(w, e) && Apply(site, w, e).redeemed == w.redeemed + [c]
    ensures w.memory.Some? && c.epoch == w.memory.value.state.epoch
  {
    hide Perform, Valid, FromLegacy;
    assert |w.redeemed + [c]| == |w.redeemed| + 1 && (w.redeemed + [c])[|w.redeemed|] == c;
    var o := Perform(site.p, site.host, w.memory.value.state, e.op).value;
    assert (w.redeemed + [o.spent.value])[|w.redeemed|] == o.spent.value;
    RedeemedIsEntitled(site.p, site.host, w.memory.value.state, e.op);
  }

  // -------------------------------------------------------------- enrolments

  /** Memory and disk both hold this very enrolment. */
  predicate EnrolledIn(w: World, e: Enrollment) {
    && (w.memory.Some? ==> e in w.memory.value.state.enrollments)
    && w.durable.Some? && e in w.durable.value.state.enrollments
  }

  lemma StepKeepsEnrolled(site: Site, w: World, ev: Event, e: Enrollment)
    requires Enabled(w, ev) && EnrolledIn(w, e) && (ev.Call? ==> !Touches(ev.op, e.handle))
    ensures EnrolledIn(Apply(site, w, ev), e)
  {
    hide Perform, FromLegacy, Valid, Touches;
    if ev.Call? && Perform(site.p, site.host, w.memory.value.state, ev.op).Ok? {
      UntouchedStaysEnrolled(site.p, site.host, w.memory.value.state, ev.op, e);
    }
  }

  lemma {:induction false} RunKeepsEnrolled(site: Site, ws: seq<World>, es: seq<Event>, i: nat, j: nat, e: Enrollment)
    requires Run(site, ws, es) && i <= j < |ws| && EnrolledIn(ws[i], e)
    requires forall k :: i <= k < j ==> es[k].Call? ==> !Touches(es[k].op, e.handle)
    ensures EnrolledIn(ws[j], e)
    decreases j
  {
    hide EnrolledIn, Apply, Enabled, Touches;
    if i < j {
      RunKeepsEnrolled(site, ws, es, i, j - 1, e);
      StepKeepsEnrolled(site, ws[j-1], es[j-1], e);
    }
  }

  /** From a successful redemption until somebody revokes or changes that viewer or
      resets all, whatever else is called, fails or crashes, the peer reconnects
      without a ticket under the same handle and grants, unless expired nonces have
      to be pruned and that very write fails. */
  lemma ReconnectsUntilChanged(site: Site, ws: seq<World>, es: seq<Event>, i: nat, j: nat, now: u64, draws: seq<string>,
                               fate: WriteFate)
    requires Run(site, ws, es) && i < j < |ws| && ws[j].memory.Some? && i < |es| && ws[i].memory.Some?
    requires es[i].Call? && es[i].op.Admit? && es[i].op.token.Some? && Succeeds(site, ws[i], es[i].op, es[i].fate)
    requires var first := Answered(site, ws[i], es[i].op, es[i].fate).value;
             first.Some? && forall k :: i < k < j ==> es[k].Call? ==> !Touches(es[k].op, first.value.handle)
    ensures var first := Answered(site, ws[i], es[i].op, es[i].fate).value.value;
            var consumed := ws[j].memory.value.state.consumed;
            var again := Answered(site, ws[j], Admit(es[i].op.remote, None, now, draws), fate);
            if fate.Written? || Prune(consumed, now) == consumed then
              && again.Ok? && again.value.Some?
              && again.value.value.handle == first.handle && again.value.value.grants == first.grants
            else again == Err(WriteFailed)
  {
    hide Valid, Touches, Inv;
    var s, op := ws[i].memory.value.state, es[i].op;
    var e := RedemptionEnrols(site, s, op);
    assert EnrolledIn(ws[i+1], e);
    RunKeepsEnrolled(site, ws, es, i + 1, j, e);
    RunKeepsInv(site, ws, es, j);
    ReconnectsIn(site, ws[j], e, now, draws, fate);
  }

  lemma RedemptionEnrols(site: Site, s: State, op: Op) returns (e: Enrollment)
    requires op.Admit? && op.token.Some? && Perform(site.p, site.host, s, op).Ok?
    ensures var o := Perform(site.p, site.host, s, op).value;
            && o.changed && o.viewer.Some? && e in o.candidate.enrollments
            && e.peer == op.remote && e.handle == o.viewer.value.handle && e.grants == o.viewer.value.grants
  {
    hide Valid, Decode, CheckClaims, Prune, PushAudit, UnusedHandle;
    var es := Perform(site.p, site.host, s, op).value.candidate.enrollments;
    e := es[|es| - 1];
  }

  lemma ReconnectsIn(site: Site, w: World, e: Enrollment, now: u64, draws: seq<string>, fate: WriteFate)
    requires Inv(site, w) && w.memory.Some? && EnrolledIn(w, e)
    ensures var consumed := w.memory.value.state.consumed;
            var again := Answered(site, w, Admit(e.peer, None, now, draws), fate);
            if fate.Written? || Prune(consumed, now) == consumed then
              && again.Ok? && again.value.Some?
              && again.value.value.handle == e.handle && again.value.value.grants == e.grants
            else again == Err(WriteFailed)
  {
    hide Perform, Valid, Sourced, Remembers, Prune;
    var es := w.memory.value.state.enrollments;
    var k :| 0 <= k < |es| && es[k] == e;
    EnrolledReconnects(site.p, site.host, w.memory.value.state, k, now, draws);
    ReconnectWrites(site, w.memory.value.state, e.peer, now, draws);
  }

  lemma ReconnectWrites(site: Site, s: State, peer: Key, now: u64, draws: seq<string>)
    requires Perform(site.p, site.host, s, Admit(peer, None, now, draws)).Ok?
    ensures Perform(site.p, site.host, s, Admit(peer, None, now, draws)).value.changed <==>
              Prune(s.consumed, now) != s.consumed
  {
    hide Valid, Prune;
    PruneMembers(s.consumed, now);
  }

  // ---------------------------------------------------------------- migration

  /** What a v1 document promises its successor. */
  predicate Carries(l: Legacy, s: State) {
    && s.epoch == l.epoch && s.consumed == l.consumed && s.revision == 1
    && (match l.enrollment
        case None => s.enrollments == []
        case Some(e) => |s.enrollments| == 1 && s.enrollments[0].peer == e.peer && s.enrollments[0].grants == e.grants
                        && s.enrollments[0].enrolledAt == e.enrolledAt)
  }

  /** Not yet migrated, or migrated with everything. */
  predicate Migrating(l: Legacy, w: World) {
    || (w.durable.None? && w.memory.None? && w.legacy == Some(l))
    || (w.durable.Some? && Carries(l, w.durable.value.state) && (w.memory.Some? ==> w.memory == w.durable))
  }

  lemma MigrationStep(site: Site, w: World, e: Event, l: Legacy)
    requires Migrating(l, w) && Enabled(w, e) && (e.Crash? || e.OpenAgain?)
    ensures Migrating(l, Apply(site, w, e))
  {
    hide Valid, Carries, FromLegacy;
    if e.OpenAgain? && FromLegacy(l, site.host, e.handle).Ok? { ConversionCarries(site.host, l, e.handle); }
  }

  /** However often opening is cut short or crashes during migration, the v1 document
      is untouched until a v2 document that carries all of it is on disk; whatever
      is opened is that document. */
  lemma {:induction false} MigrationLosesNothing(site: Site, ws: seq<World>, es: seq<Event>, i: nat, j: nat, l: Legacy)
    requires Run(site, ws, es) && i <= j < |ws|
    requires ws[i].durable.None? && ws[i].memory.None? && ws[i].legacy == Some(l)
    requires forall k :: i <= k < j ==> es[k].Crash? || es[k].OpenAgain?
    ensures Migrating(l, ws[j])
    decreases j
  {
    if i < j {
      hide Migrating, Enabled, Apply;
      MigrationLosesNothing(site, ws, es, i, j - 1, l);
      MigrationStep(site, ws[j-1], es[j-1], l);
    }
  }

  lemma ConversionCarries(host: Key, l: Legacy, handle: string)
    requires FromLegacy(l, host, handle).Ok?
    ensures Carries(l, FromLegacy(l, host, handle).value)
  {
    hide Valid;
  }

  /** Once a v2 document exists it stays, and a v1 document beside it is never read. */
  lemma {:induction false} V2IsForGood(site: Site, ws: seq<World>, es: seq<Event>, i: nat, j: nat)
    requires Run(site, ws, es) && i <= j < |ws| && ws[i].durable.Some?
    ensures ws[j].durable.Some?
    ensures j < |es| && es[j].OpenAgain? ==>
              forall l: Option<Legacy> ::
                var other := Apply(site, ws[j].(legacy := l), es[j]);
                other.memory == ws[j+1].memory && other.durable == ws[j+1].durable && other.legacy == l
    decreases j
  {
    hide Valid, FromLegacy, Perform;
    if i < j {
      V2IsForGood(site, ws, es, i, j - 1);
    }
  }
}
