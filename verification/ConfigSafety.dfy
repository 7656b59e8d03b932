/** Each management call, cut short anywhere, keeps the crash invariant; recovery
    converges whatever crashes interrupt it; an outside edit fails closed. */
module ConfigSafety {
  import opened Prelude
  import opened ConfigFiles
  import opened ConfigPlans
  import opened ConfigLedger
  import opened RuntimeStatus

  lemma InstallIsSafe(site: Site, l: Ledger, d: Disk, candidate: Bytes, j: Journal)
    requires Consistent(site, l, d) && d.journal.NoJournal?
    requires Names(site, d.live) && Names(site, candidate) && candidate != d.live
    requires site.home(candidate) == site.home(d.live)
    requires j.state.Prepared? && j.base == Sha256(d.live) && j.candidate == Sha256(candidate)
    requires ValidateJournal(site, j).Ok? && j.transaction !in l.transactions
    ensures SafeFrom(site, l, d, InstallOps(d.live, candidate, j))
  {
    hide Consistent;
    var pending := j.(state := PendingValidation);
    var d1 := Do(d, WriteBase(d.live));
    var d2 := Do(d1, WriteCandidate(candidate));
    KeepingIsSafe(site, l, d, d.live);
    KeepingIsSafe(site, l, d1, candidate);
    PreparingIsSafe(site, l, d2, j);
    InstallTailIsSafe(site, Note(l, d2, WriteJournal(j)), Do(d2, WriteJournal(j)), j);
    var tail := [ReplaceLive(candidate), WriteJournal(pending)];
    SafeCons(site, l, d2, WriteJournal(j), tail);
    SafeCons(site, l, d1, WriteCandidate(candidate), [WriteJournal(j)] + tail);
    SafeCons(site, l, d, WriteBase(d.live), [WriteCandidate(candidate)] + ([WriteJournal(j)] + tail));
    assert InstallOps(d.live, candidate, j) ==
           [WriteBase(d.live)] + ([WriteCandidate(candidate)] + ([WriteJournal(j)] + tail));
  }

  lemma InstallTailIsSafe(site: Site, l: Ledger, d: Disk, j: Journal)
    requires Consistent(site, l, d) && d.journal == Stored(j) && j.state.Prepared?
    ensures SafeFrom(site, l, d, [ReplaceLive(j.candidate.preimage), WriteJournal(j.(state := PendingValidation))])
  {
    hide Consistent;
    var replace, pending := ReplaceLive(j.candidate.preimage), WriteJournal(j.(state := PendingValidation));
    InstallingIsSafe(site, l, d, j);
    PendingIsSafe(site, l, Do(d, replace), j);
    SafeCons(site, l, Do(d, replace), pending, []);
    SafeCons(site, l, d, replace, [pending] + []);
    assert [replace, pending] == [replace] + ([pending] + []);
  }

  lemma SetIsSafe(site: Site, l: Ledger, d: Disk, r: SetRequest, latest: Result<Option<string>, ()>)
    requires Consistent(site, l, d) && (Loads(site, d.live) ==> Names(site, d.live))
    requires ValidId(r.transaction) && r.transaction !in l.transactions
    requires latest.Ok? && latest.value.Some? ==> ValidId(latest.value.value)
    ensures SafeFrom(site, l, d, SetPlan(site, d, r, latest).ops)
  {
    hide Consistent, Recover, SafeFrom, DoAll, NoteAll;
    SafeNil(site, l, d);
    var l1, d1 := SafeAfterRecovery(site, l, d);
    SafeNil(site, l1, d1);
    var rest := SetRest(site, d, r, latest);
    if Loads(site, d.live) {
      if rest.ops != [] {
        var candidate := BuildCandidate(site, r.edit, d1.live).value;
        InstallIsSafe(site, l1, d1, candidate, PreparedJournal(site, d1.live, candidate, r, latest.value));
      }
      assert SafeFrom(site, l1, d1, rest.ops);
    }
  }

  lemma CommittingIsSafe(site: Site, l: Ledger, d: Disk, j: Journal)
    requires Consistent(site, l, d) && d.journal == Stored(j) && j.state.PendingValidation?
    ensures SafeFrom(site, l, d, [WriteJournal(j.(state := Committing))] + CLEANUP)
  {
    hide Consistent;
    var w := WriteJournal(j.(state := Committing));
    DecidingIsSafe(site, l, d, j, Committing);
    CleanupIsSafe(site, Note(l, d, w), Do(d, w));
    SafeCons(site, l, d, w, CLEANUP);
  }

  lemma CommitIsSafe(site: Site, l: Ledger, d: Disk, r: CommitRequest, status: StatusFile)
    requires Consistent(site, l, d)
    ensures SafeFrom(site, l, d, CommitPlan(site, d, r, status).ops)
  {
    hide Consistent, Recover, ValidCandidateRuntime, SafeFrom, DoAll, NoteAll;
    SafeNil(site, l, d);
    var l1, d1 := SafeAfterRecovery(site, l, d);
    SafeNil(site, l1, d1);
    var rest := CommitRest(site, d, r, status);
    if rest.ops != [] {
      CommittingIsSafe(site, l1, d1, Recover(site, d).result.value.journal.value);
    }
    assert SafeFrom(site, l1, d1, rest.ops);
  }

  lemma RestoreIsSafe(site: Site, l: Ledger, d: Disk, j: Journal)
    requires Consistent(site, l, d) && d.journal == Stored(j) && j.state.PendingValidation?
    ensures SafeFrom(site, l, d, RestorePlan(site, d, j.(state := RollingBack)).ops)
    ensures RestorePlan(site, d, j.(state := RollingBack)) == Plan(
              [WriteJournal(j.(state := RollingBack)), ReplaceLive(j.base.preimage)] + CLEANUP,
              Ok(RollbackAnswer(j.transaction, j.base)))
  {
    hide Consistent, SafeFrom, DoAll, NoteAll;
    var w := WriteJournal(j.(state := RollingBack));
    var base := j.base.preimage;
    DecidingIsSafe(site, l, d, j, RollingBack);
    var l1, d1 := Note(l, d, w), Do(d, w);
    RestoringIsSafe(site, l1, d1, w.journal);
    CleanupIsSafe(site, l1, Do(d1, ReplaceLive(base)));
    SafeCons(site, l1, d1, ReplaceLive(base), CLEANUP);
    SafeCons(site, l, d, w, [ReplaceLive(base)] + CLEANUP);
    assert [w, ReplaceLive(base)] + CLEANUP == [w] + ([ReplaceLive(base)] + CLEANUP);
  }

  lemma RollbackIsSafe(site: Site, l: Ledger, d: Disk, transaction: string)
    requires Consistent(site, l, d)
    ensures SafeFrom(site, l, d, RollbackPlan(site, d, transaction).ops)
  {
    hide Consistent, Recover, RestorePlan, SafeFrom, DoAll, NoteAll;
    SafeNil(site, l, d);
    var l1, d1 := SafeAfterRecovery(site, l, d);
    SafeNil(site, l1, d1);
    var rest := RollbackRest(site, d, transaction);
    if rest.ops != [] {
      RestoreIsSafe(site, l1, d1, Recover(site, d).result.value.journal.value);
    }
    assert SafeFrom(site, l1, d1, rest.ops);
  }

  lemma ServiceIsSafe(site: Site, l: Ledger, d: Disk)
    requires Consistent(site, l, d)
    ensures SafeFrom(site, l, d, ServicePlan(site, d).ops)
  {
    hide Consistent, Recover;
    RecoveryIsSafe(site, l, d);
    var ops := Recover(site, d).ops;
    assert ops + [] == ops;
    assert SafeFrom(site, l, d, []);
  }

  // ---------------------------------------------------------------- recovery

  /** How many durable steps recovery still has to make a difference with. */
  function Work(d: Disk): nat {
    var kept := (if d.base.Some? then 1 else 0) + (if d.candidate.Some? then 1 else 0);
    match d.journal
    case NoJournal => kept
    case Unreadable => 0
    case Stored(j) =>
      match j.state
      case Prepared => 1 + (if Sha256(d.live) == j.base then 1 else 0)
      case PendingValidation => 0
      case Committing => kept + 1
      case RollingBack => kept + 1 + (if Sha256(d.live) == j.candidate then 1 else 0)
  }

  /** The state recovery is heading for, read off the history alone. */
  function Target(l: Ledger, d: Disk): Disk {
    match d.journal
    case NoJournal => Disk(d.live, None, None, NoJournal)
    case Unreadable => d
    case Stored(j) =>
      if j.transaction !in l.transactions then d
      else
        var r := l.transactions[j.transaction];
        match j.state
        case Prepared => d.(live := r.candidate, journal := Stored(j.(state := PendingValidation)))
        case PendingValidation => d
        case Committing => Disk(r.candidate, None, None, NoJournal)
        case RollingBack => Disk(r.base, None, None, NoJournal)
  }

  /** Taking `ops` never moves the target, comes one step closer with every step
      that changes a file, loses nothing with the others, and ends on the target. */
  ghost predicate Converges(l: Ledger, d: Disk, ops: seq<FileOp>, target: Disk)
    decreases |ops|
  {
    && Target(l, d) == target
    && if ops == [] then d == target && Work(d) == 0
       else
         var next := Do(d, ops[0]);
         && Work(next) == (if next == d then Work(d) else Work(d) - 1)
         && Converges(l, next, ops[1..], target)
  }

  lemma ConvergesCons(l: Ledger, d: Disk, op: FileOp, rest: seq<FileOp>, target: Disk)
    requires Target(l, d) == target
    requires Work(Do(d, op)) == (if Do(d, op) == d then Work(d) else Work(d) - 1)
    requires Converges(l, Do(d, op), rest, target)
    ensures Converges(l, d, [op] + rest, target)
  {
    assert ([op] + rest)[1..] == rest;
  }

  lemma CleanupConverges(l: Ledger, d: Disk)
    requires d.journal.Stored? && (d.journal.journal.state.Committing? || d.journal.journal.state.RollingBack?)
    requires Target(l, d) == Disk(d.live, None, None, NoJournal)
    requires d.journal.journal.base != d.journal.journal.candidate
    requires d.journal.journal.state.RollingBack? ==> Sha256(d.live) == d.journal.journal.base
    ensures Converges(l, d, CLEANUP, Target(l, d))
  {
    var t := Target(l, d);
    var d1 := Do(d, RemoveBase);
    var d2 := Do(d1, RemoveCandidate);
    assert Converges(l, Do(d2, RemoveJournal), [], t);
    ConvergesCons(l, d2, RemoveJournal, [], t);
    ConvergesCons(l, d1, RemoveCandidate, [RemoveJournal] + [], t);
    ConvergesCons(l, d, RemoveBase, [RemoveCandidate] + ([RemoveJournal] + []), t);
    assert CLEANUP == [RemoveBase] + ([RemoveCandidate] + ([RemoveJournal] + []));
  }

  lemma RecoveryConverges(site: Site, l: Ledger, d: Disk)
    requires Consistent(site, l, d)
    ensures Recover(site, d).result.Ok?
    ensures Converges(l, d, Recover(site, d).ops, Target(l, d))
  {
    if d.journal.Stored? { StoredJournalIsValid(site, l, d, d.journal.journal); }
    var t := Target(l, d);
    match d.journal
    case NoJournal =>
      var d1 := Do(d, RemoveBase);
      ConvergesCons(l, d1, RemoveCandidate, [], t);
      ConvergesCons(l, d, RemoveBase, [RemoveCandidate] + [], t);
      assert [RemoveBase, RemoveCandidate] == [RemoveBase] + ([RemoveCandidate] + []);
    case Stored(j) =>
      var r := l.transactions[j.transaction];
      match j.state {
        case Prepared =>
          var pending := WriteJournal(j.(state := PendingValidation));
          var d1 := d.(live := r.candidate);
          ConvergesCons(l, d1, pending, [], t);
          assert [pending] + [] == [pending];
          if d.live == r.base {
            ConvergesCons(l, d, ReplaceLive(r.candidate), [pending], t);
            assert [ReplaceLive(r.candidate)] + [pending] == [ReplaceLive(r.candidate), pending];
          } else {
            assert d1 == d;
          }
        case PendingValidation =>
        case Committing => CleanupConverges(l, d);
        case RollingBack =>
          var d1 := d.(live := r.base);
          CleanupConverges(l, d1);
          if d.live == r.candidate {
            ConvergesCons(l, d, ReplaceLive(r.base), CLEANUP, t);
          } else {
            assert d1 == d;
          }
      }
  }

  lemma {:induction false} ConvergesFromEveryPrefix(l: Ledger, d: Disk, ops: seq<FileOp>, target: Disk, k: nat)
    requires Converges(l, d, ops, target) && k <= |ops|
    ensures Converges(l, DoAll(d, ops[..k]), ops[k..], target)
    ensures Work(DoAll(d, ops[..k])) <= Work(d)
    ensures DoAll(d, ops) == target
    decreases |ops|
  {
    if ops == [] {
    } else if k == 0 {
      assert ops[0..] == ops && ops[..0] == [];
      ConvergesFromEveryPrefix(l, Do(d, ops[0]), ops[1..], target, 0);
    } else {
      ConvergesFromEveryPrefix(l, Do(d, ops[0]), ops[1..], target, k - 1);
      assert ops[..k][0] == ops[0] && ops[..k][1..] == ops[1..][..k-1];
      assert ops[k..] == ops[1..][k-1..];
    }
  }

  /** The disk after recovery attempts that die after `fuels[0]`, `fuels[1]`, ... steps. */
  function Attempts(site: Site, d: Disk, fuels: seq<nat>): Disk
    decreases |fuels|
  {
    if fuels == [] then d else Attempts(site, DoAll(d, Cut(Recover(site, d).ops, fuels[0])), fuels[1..])
  }

  lemma AttemptKeepsTarget(site: Site, l: Ledger, d: Disk, fuel: nat) returns (l': Ledger, d': Disk)
    requires Consistent(site, l, d)
    ensures d' == DoAll(d, Cut(Recover(site, d).ops, fuel))
    ensures Consistent(site, l', d') && l'.transactions == l.transactions
    ensures Target(l', d') == Target(l, d) && Work(d') <= Work(d)
  {
    hide Consistent, Recover, Work, DoAll, NoteAll, SafeFrom;
    var ops := Recover(site, d).ops;
    var k := if fuel < |ops| then fuel else |ops|;
    RecoveryIsSafe(site, l, d);
    RecoveryConverges(site, l, d);
    ConvergesFromEveryPrefix(l, d, ops, Target(l, d), k);
    SafeMeansEveryPrefix(site, l, d, ops, k);
    assert ops[..|ops|] == ops;
    l', d' := NoteAll(l, d, ops[..k]), DoAll(d, ops[..k]);
    SafeMeansNow(site, l', d', ops[k..]);
    RecoveryDecidesNothing(site, l, d, k);
  }

  /** Recovery converges: after any number of attempts cut short anywhere, one
      that is not succeeds and ends exactly where an undisturbed recovery would
      have, and a further one changes no file. */
  lemma {:induction false} RecoveryIsCrashProof(site: Site, l: Ledger, d: Disk, fuels: seq<nat>)
    requires Consistent(site, l, d)
    ensures var e := Attempts(site, d, fuels);
            var settled := DoAll(d, Recover(site, d).ops);
            && Recover(site, e).result.Ok?
            && DoAll(e, Recover(site, e).ops) == settled
            && Work(settled) == 0 <= Work(e) <= Work(d)
            && Recover(site, settled).result.Ok?
            && DoAll(settled, Recover(site, settled).ops) == settled
    decreases |fuels|
  {
    RecoveryConverges(site, l, d);
    ConvergesFromEveryPrefix(l, d, Recover(site, d).ops, Target(l, d), |Recover(site, d).ops|);
    if fuels == [] {
      var ops := Recover(site, d).ops;
      var l', settled := AttemptKeepsTarget(site, l, d, |ops|);
      assert Cut(ops, |ops|) == ops;
      assert ops[|ops|..] == [];
      RecoveryConverges(site, l', settled);
      ConvergesFromEveryPrefix(l', settled, Recover(site, settled).ops, Target(l', settled), 0);
    } else {
      var l', d' := AttemptKeepsTarget(site, l, d, fuels[0]);
      RecoveryConverges(site, l', d');
      ConvergesFromEveryPrefix(l', d', Recover(site, d').ops, Target(l', d'), 0);
      RecoveryIsCrashProof(site, l', d', fuels[1..]);
    }
  }

  // ---------------------------------------------------------- outside edits

  /** For calls that work in this directory: when the live document is neither the
      journal's base nor its candidate, each fails, and none of them takes a single
      durable step. (Which directory a call works in is decided by the live document.) */
  lemma ForeignLiveFailsClosed(site: Site, d: Disk, install: SetRequest, latest: Result<Option<string>, ()>,
                               commit: CommitRequest, status: StatusFile, transaction: string)
    requires d.journal.Stored?
    requires Sha256(d.live) != d.journal.journal.base && Sha256(d.live) != d.journal.journal.candidate
    ensures Recover(site, d).ops == [] && Recover(site, d).result.Err?
    ensures SetPlan(site, d, install, latest).ops == [] && SetPlan(site, d, install, latest).result.Err?
    ensures CommitPlan(site, d, commit, status).ops == [] && CommitPlan(site, d, commit, status).result.Err?
    ensures RollbackPlan(site, d, transaction).ops == [] && RollbackPlan(site, d, transaction).result.Err?
    ensures ServicePlan(site, d).ops == [] && ServicePlan(site, d).result.Err?
  {
  }

  /** Exactly which live documents recovery accepts in place of the one it left:
      a prepared install tolerates either, a pending or committing transaction only
      the candidate, a rollback the base, or the candidate while the base copy is kept. */
  predicate Tolerated(d: Disk, j: Journal, live: Bytes) {
    match j.state
    case Prepared => Sha256(live) == j.base || Sha256(live) == j.candidate
    case PendingValidation => Sha256(live) == j.candidate
    case Committing => Sha256(live) == j.candidate
    case RollingBack =>
      || Sha256(live) == j.base
      || (Sha256(live) == j.candidate && d.base.Some? && Sha256(d.base.value) == j.base)
  }

  lemma OutsideEditToleratedIff(site: Site, l: Ledger, d: Disk, live: Bytes)
    requires Consistent(site, l, d) && d.journal.Stored?
    ensures var p := Recover(site, d.(live := live));
            && (p.result.Ok? <==> Tolerated(d, d.journal.journal, live))
            && (p.result.Err? ==> p.ops == [])
  {
    var j := d.journal.journal;
    var r := l.transactions[j.transaction];
    if j.state.RollingBack? && d.base.Some? && Sha256(d.base.value) == j.base {
      assert d.base.value == r.base;
    }
  }
}
