/** What must hold of the files between any two durable steps, told against a
    history of every transaction begun, decided and finished. */
module ConfigLedger {
  import opened Prelude
  import opened ConfigFiles
  import opened ConfigPlans

  datatype Fate = Commit | Rollback

  datatype TxRecord = TxRecord(base: Bytes, candidate: Bytes, directory: Option<string>, baseline: Option<string>)

  /** History, never read by the program. A transaction begins when its prepared
      journal is written, is decided when a committing or rolling-back journal is
      written, and finishes, with the live bytes of that moment, when its journal
      is removed. */
  datatype Ledger = Ledger(
    transactions: map<string, TxRecord>,
    fates: map<string, Fate>,
    finished: map<string, Bytes>)

  /** The history after `op` is taken on `d`. */
  function Note(l: Ledger, d: Disk, op: FileOp): Ledger {
    match op
    case WriteJournal(j) =>
      (match j.state
       case Prepared =>
         l.(transactions := l.transactions[j.transaction :=
              TxRecord(d.live, j.candidate.preimage, j.runtimeDirectory, j.baseline)])
       case PendingValidation => l
       case Committing => l.(fates := l.fates[j.transaction := Commit])
       case RollingBack => l.(fates := l.fates[j.transaction := Rollback]))
    case RemoveJournal =>
      if d.journal.Stored? then l.(finished := l.finished[d.journal.journal.transaction := d.live]) else l
    case _ => l
  }

  function NoteAll(l: Ledger, d: Disk, ops: seq<FileOp>): Ledger
    decreases |ops|
  {
    if ops == [] then l else NoteAll(Note(l, d, ops[0]), Do(d, ops[0]), ops[1..])
  }

  /** The bytes a decided transaction must leave in the live file. */
  function Settled(r: TxRecord, fate: Fate): Bytes {
    if fate.Commit? then r.candidate else r.base
  }

  predicate Open(d: Disk, transaction: string) {
    d.journal.Stored? && d.journal.journal.transaction == transaction
  }

  ghost predicate LedgerHolds(site: Site, l: Ledger, d: Disk) {
    && l.finished.Keys <= l.fates.Keys <= l.transactions.Keys
    && (forall t <- l.transactions ::
          var r := l.transactions[t];
          && Names(site, r.base) && Names(site, r.candidate)
          && r.base != r.candidate && site.home(r.base) == site.home(r.candidate))
    && (forall t <- l.finished :: l.finished[t] == Settled(l.transactions[t], l.fates[t]))
    && (forall t <- l.transactions :: t in l.finished <==> !Open(d, t))
  }

  predicate StateHolds(l: Ledger, d: Disk, j: Journal, r: TxRecord) {
    match j.state
    case Prepared =>
      j.transaction !in l.fates && d.base == Some(r.base) && d.candidate == Some(r.candidate)
      && (d.live == r.base || d.live == r.candidate)
    case PendingValidation =>
      j.transaction !in l.fates && d.base == Some(r.base) && d.candidate == Some(r.candidate)
      && d.live == r.candidate
    case Committing =>
      j.transaction in l.fates && l.fates[j.transaction] == Commit && d.live == r.candidate
    case RollingBack =>
      j.transaction in l.fates && l.fates[j.transaction] == Rollback
      && (d.live == r.base || (d.live == r.candidate && d.base == Some(r.base)))
  }

  predicate JournalHolds(site: Site, l: Ledger, d: Disk, j: Journal) {
    && ValidateJournal(site, j).Ok?
    && j.transaction in l.transactions
    && var r := l.transactions[j.transaction];
    && j.base == Sha256(r.base) && j.candidate == Sha256(r.candidate)
    && j.baseline == r.baseline && j.runtimeDirectory == r.directory
    && StateHolds(l, d, j, r)
  }

  /** The crash invariant: true between any two durable steps. */
  ghost predicate Consistent(site: Site, l: Ledger, d: Disk) {
    && LedgerHolds(site, l, d)
    && !d.journal.Unreadable?
    && (d.journal.Stored? ==> JournalHolds(site, l, d, d.journal.journal))
  }

  /** History only grows: nothing begun, decided or finished is ever rewritten. */
  ghost predicate Grows(l: Ledger, l': Ledger) {
    && (forall t <- l.transactions :: t in l'.transactions && l'.transactions[t] == l.transactions[t])
    && (forall t <- l.fates :: t in l'.fates && l'.fates[t] == l.fates[t])
    && (forall t <- l.finished :: t in l'.finished && l'.finished[t] == l.finished[t])
  }

  /** `op` extends history, prepares no transaction twice, and replaces the live file
      only under a journal. */
  ghost predicate Lawful(l: Ledger, d: Disk, op: FileOp) {
    && Grows(l, Note(l, d, op))
    && (op.WriteJournal? && op.journal.state.Prepared? ==> op.journal.transaction !in l.transactions)
    && (op.ReplaceLive? ==> d.journal.Stored?)
  }

  /** However few of `ops` are taken, the files stay consistent and history grows. */
  ghost predicate SafeFrom(site: Site, l: Ledger, d: Disk, ops: seq<FileOp>)
    decreases |ops|
  {
    && Consistent(site, l, d)
    && (ops != [] ==>
          Lawful(l, d, ops[0]) && SafeFrom(site, Note(l, d, ops[0]), Do(d, ops[0]), ops[1..]))
  }

  lemma SafeMeansNow(site: Site, l: Ledger, d: Disk, ops: seq<FileOp>)
    requires SafeFrom(site, l, d, ops)
    ensures Consistent(site, l, d)
    ensures ops != [] ==> Lawful(l, d, ops[0]) && Consistent(site, Note(l, d, ops[0]), Do(d, ops[0]))
  {
    hide Consistent, Lawful;
  }

  lemma {:induction false} NoteAllConcat(l: Ledger, d: Disk, a: seq<FileOp>, b: seq<FileOp>)
    ensures NoteAll(l, d, a + b) == NoteAll(NoteAll(l, d, a), DoAll(d, a), b)
    decreases |a|
  {
    if a == [] {
      assert a + b == b;
    } else {
      assert (a + b)[0] == a[0] && (a + b)[1..] == a[1..] + b;
      NoteAllConcat(Note(l, d, a[0]), Do(d, a[0]), a[1..], b);
    }
  }

  lemma {:induction false} SafeConcat(site: Site, l: Ledger, d: Disk, a: seq<FileOp>, b: seq<FileOp>)
    requires SafeFrom(site, l, d, a)
    requires SafeFrom(site, NoteAll(l, d, a), DoAll(d, a), b)
    ensures SafeFrom(site, l, d, a + b)
    decreases |a|
  {
    hide Consistent;
    if a == [] {
      assert a + b == b;
    } else {
      assert (a + b)[0] == a[0] && (a + b)[1..] == a[1..] + b;
      SafeConcat(site, Note(l, d, a[0]), Do(d, a[0]), a[1..], b);
    }
  }

  /** Safety is exactly consistency after every prefix. */
  lemma {:induction false} SafeMeansEveryPrefix(site: Site, l: Ledger, d: Disk, ops: seq<FileOp>, k: nat)
    requires SafeFrom(site, l, d, ops) && k <= |ops|
    ensures SafeFrom(site, NoteAll(l, d, ops[..k]), DoAll(d, ops[..k]), ops[k..])
    decreases |ops|
  {
    hide Consistent;
    if k == 0 {
      assert ops[..0] == [] && ops[0..] == ops;
    } else {
      SafeMeansEveryPrefix(site, Note(l, d, ops[0]), Do(d, ops[0]), ops[1..], k - 1);
      assert ops[..k] == [ops[0]] + ops[1..][..k-1];
      assert ops[..k][0] == ops[0] && ops[..k][1..] == ops[1..][..k-1];
      assert ops[k..] == ops[1..][k-1..];
    }
  }

  // ----------------------------------------------- single steps, one by one

  /** The stored base is no longer needed. */
  predicate BaseSpare(d: Disk) {
    match d.journal
    case NoJournal => true
    case Unreadable => false
    case Stored(j) => j.state.Committing? || (j.state.RollingBack? && Sha256(d.live) == j.base)
  }

  lemma RemovesAreSafe(site: Site, l: Ledger, d: Disk)
    requires Consistent(site, l, d) && BaseSpare(d)
    ensures Consistent(site, l, Do(d, RemoveBase)) && BaseSpare(Do(d, RemoveBase))
    ensures Consistent(site, l, Do(d, RemoveCandidate)) && BaseSpare(Do(d, RemoveCandidate))
  {
  }

  lemma FinishIsSafe(site: Site, l: Ledger, d: Disk)
    requires Consistent(site, l, d) && BaseSpare(d) && d.journal.Stored?
    ensures Consistent(site, Note(l, d, RemoveJournal), Do(d, RemoveJournal))
    ensures Grows(l, Note(l, d, RemoveJournal))
  {
  }

  lemma KeepingIsSafe(site: Site, l: Ledger, d: Disk, bytes: Bytes)
    requires Consistent(site, l, d) && d.journal.NoJournal?
    ensures Consistent(site, l, Do(d, WriteBase(bytes))) && Consistent(site, l, Do(d, WriteCandidate(bytes)))
  {
  }

  lemma PreparingIsSafe(site: Site, l: Ledger, d: Disk, j: Journal)
    requires Consistent(site, l, d) && d.journal.NoJournal?
    requires Names(site, d.live) && d.base == Some(d.live)
    requires d.candidate.Some? && Names(site, d.candidate.value) && d.candidate.value != d.live
    requires site.home(d.candidate.value) == site.home(d.live)
    requires j.state.Prepared? && j.base == Sha256(d.live) && j.candidate == Sha256(d.candidate.value)
    requires ValidateJournal(site, j).Ok? && j.transaction !in l.transactions
    ensures Consistent(site, Note(l, d, WriteJournal(j)), Do(d, WriteJournal(j)))
    ensures Grows(l, Note(l, d, WriteJournal(j)))
  {
  }

  lemma InstallingIsSafe(site: Site, l: Ledger, d: Disk, j: Journal)
    requires Consistent(site, l, d) && d.journal == Stored(j) && j.state.Prepared?
    ensures Loads(site, j.candidate.preimage) && d.base == Some(j.base.preimage)
            && d.candidate == Some(j.candidate.preimage)
    ensures d.live == j.base.preimage || d.live == j.candidate.preimage
    ensures Consistent(site, l, Do(d, ReplaceLive(j.candidate.preimage)))
  {
  }

  lemma PendingIsSafe(site: Site, l: Ledger, d: Disk, j: Journal)
    requires Consistent(site, l, d) && d.journal == Stored(j) && j.state.Prepared? && Sha256(d.live) == j.candidate
    ensures Consistent(site, l, Do(d, WriteJournal(j.(state := PendingValidation))))
  {
  }

  lemma DecidingIsSafe(site: Site, l: Ledger, d: Disk, j: Journal, decided: TransactionState)
    requires Consistent(site, l, d) && d.journal == Stored(j) && j.state.PendingValidation?
    requires decided.Committing? || decided.RollingBack?
    ensures var w := WriteJournal(j.(state := decided));
            && Consistent(site, Note(l, d, w), Do(d, w)) && Grows(l, Note(l, d, w))
            && BaseSpare(Do(d, w)) == decided.Committing?
    ensures d.base == Some(j.base.preimage) && Loads(site, j.base.preimage) && d.live == j.candidate.preimage
  {
    DecidingKeepsLedger(site, l, d, j, decided);
    hide LedgerHolds;
    BaseLoads(site, l, d, j);
  }

  lemma DecidingKeepsLedger(site: Site, l: Ledger, d: Disk, j: Journal, decided: TransactionState)
    requires LedgerHolds(site, l, d) && d.journal == Stored(j) && j.transaction in l.transactions
    requires j.transaction !in l.fates && (decided.Committing? || decided.RollingBack?)
    ensures var w := WriteJournal(j.(state := decided)); LedgerHolds(site, Note(l, d, w), Do(d, w))
  {
    hide Names;
  }

  lemma BaseLoads(site: Site, l: Ledger, d: Disk, j: Journal)
    requires LedgerHolds(site, l, d) && JournalHolds(site, l, d, j)
    ensures Loads(site, j.base.preimage)
  {
  }

  lemma RestoringIsSafe(site: Site, l: Ledger, d: Disk, j: Journal)
    requires Consistent(site, l, d) && d.journal == Stored(j) && j.state.RollingBack?
    ensures Loads(site, j.base.preimage) && j.base != j.candidate
    ensures d.live == j.base.preimage || (d.live == j.candidate.preimage && d.base == Some(j.base.preimage))
    ensures Consistent(site, l, Do(d, ReplaceLive(j.base.preimage))) && BaseSpare(Do(d, ReplaceLive(j.base.preimage)))
  {
  }

  // ------------------------------------------------------ sequences of steps

  lemma SafeCons(site: Site, l: Ledger, d: Disk, op: FileOp, rest: seq<FileOp>)
    requires Consistent(site, l, d) && Lawful(l, d, op)
    requires SafeFrom(site, Note(l, d, op), Do(d, op), rest)
    ensures SafeFrom(site, l, d, [op] + rest)
    ensures DoAll(d, [op] + rest) == DoAll(Do(d, op), rest)
    ensures NoteAll(l, d, [op] + rest) == NoteAll(Note(l, d, op), Do(d, op), rest)
  {
    hide Consistent;
    assert ([op] + rest)[1..] == rest;
  }

  lemma SafeNil(site: Site, l: Ledger, d: Disk)
    requires Consistent(site, l, d)
    ensures SafeFrom(site, l, d, [])
  {
  }

  /** Removing the journal of a decided, settled transaction finishes it. */
  lemma CleanupIsSafe(site: Site, l: Ledger, d: Disk)
    requires Consistent(site, l, d) && BaseSpare(d) && d.journal.Stored?
    ensures SafeFrom(site, l, d, CLEANUP)
    ensures DoAll(d, CLEANUP) == Disk(d.live, None, None, NoJournal)
    ensures NoteAll(l, d, CLEANUP) == l.(finished := l.finished[d.journal.journal.transaction := d.live])
  {
    hide Consistent;
    var d1 := Do(d, RemoveBase);
    var d2 := Do(d1, RemoveCandidate);
    RemovesAreSafe(site, l, d);
    RemovesAreSafe(site, l, d1);
    FinishIsSafe(site, l, d2);
    SafeCons(site, l, d2, RemoveJournal, []);
    SafeCons(site, l, d1, RemoveCandidate, [RemoveJournal] + []);
    SafeCons(site, l, d, RemoveBase, [RemoveCandidate] + ([RemoveJournal] + []));
    assert CLEANUP == [RemoveBase] + ([RemoveCandidate] + ([RemoveJournal] + []));
  }

  /** What recovery leaves when it succeeds. */
  predicate SettledAfterRecovery(d: Disk, r: Recovery) {
    match r.journal
    case None => d.journal.NoJournal? && d.base.None? && d.candidate.None?
    case Some(j) => d.journal == Stored(j) && j.state.PendingValidation?
  }

  lemma IdleRecoveryIsSafe(site: Site, l: Ledger, d: Disk)
    requires Consistent(site, l, d) && d.journal.NoJournal?
    ensures SafeFrom(site, l, d, Recover(site, d).ops)
    ensures DoAll(d, Recover(site, d).ops) == Disk(d.live, None, None, NoJournal)
  {
    hide Consistent;
    var d1 := Do(d, RemoveBase);
    RemovesAreSafe(site, l, d);
    RemovesAreSafe(site, l, d1);
    SafeCons(site, l, d1, RemoveCandidate, []);
    SafeCons(site, l, d, RemoveBase, [RemoveCandidate] + []);
    assert Recover(site, d).ops == [RemoveBase] + ([RemoveCandidate] + []);
  }

  lemma PreparedRecoveryIsSafe(site: Site, l: Ledger, d: Disk, j: Journal)
    requires Consistent(site, l, d) && d.journal == Stored(j) && j.state.Prepared?
    ensures Recover(site, d).result == Ok(Recovery(Some(j.(state := PendingValidation)), None))
    ensures SafeFrom(site, l, d, Recover(site, d).ops)
    ensures DoAll(d, Recover(site, d).ops) ==
            d.(live := j.candidate.preimage, journal := Stored(j.(state := PendingValidation)))
  {
    hide Consistent;
    StoredJournalIsValid(site, l, d, j);
    var candidate := j.candidate.preimage;
    var pending := j.(state := PendingValidation);
    var d1 := d.(live := candidate);
    InstallingIsSafe(site, l, d, j);
    PendingIsSafe(site, l, d1, j);
    SafeCons(site, l, d1, WriteJournal(pending), []);
    assert [WriteJournal(pending)] + [] == [WriteJournal(pending)];
    if Sha256(d.live) == j.base {
      SafeCons(site, l, d, ReplaceLive(candidate), [WriteJournal(pending)]);
      assert Recover(site, d).ops == [ReplaceLive(candidate)] + [WriteJournal(pending)];
    } else {
      assert d1 == d;
    }
  }

  lemma StoredJournalIsValid(site: Site, l: Ledger, d: Disk, j: Journal)
    requires Consistent(site, l, d) && d.journal == Stored(j)
    ensures ValidateJournal(site, j).Ok? && j.base != j.candidate
    ensures Loads(site, j.base.preimage) && Loads(site, j.candidate.preimage)
    ensures j.transaction in l.transactions
    ensures j.base == Sha256(l.transactions[j.transaction].base)
            && j.candidate == Sha256(l.transactions[j.transaction].candidate)
    ensures j.state.PendingValidation? || j.state.Committing? ==> d.live == j.candidate.preimage
    ensures j.state.PendingValidation? ==>
              ReadArtifact(d.base, j.base).Ok? && ReadArtifact(d.candidate, j.candidate).Ok?
  {
  }

  lemma RollingBackRecoveryIsSafe(site: Site, l: Ledger, d: Disk, j: Journal)
    requires Consistent(site, l, d) && d.journal == Stored(j) && j.state.RollingBack?
    ensures Recover(site, d).result == Ok(Recovery(None, Some(RolledBackNow(j))))
    ensures SafeFrom(site, l, d, Recover(site, d).ops)
    ensures DoAll(d, Recover(site, d).ops) == Disk(j.base.preimage, None, None, NoJournal)
    ensures NoteAll(l, d, Recover(site, d).ops) == l.(finished := l.finished[j.transaction := j.base.preimage])
  {
    hide Consistent, SafeFrom, DoAll, NoteAll, BaseSpare;
    StoredJournalIsValid(site, l, d, j);
    var base := j.base.preimage;
    var d1 := d.(live := base);
    RestoringIsSafe(site, l, d, j);
    CleanupIsSafe(site, l, d1);
    if Sha256(d.live) == j.candidate {
      SafeCons(site, l, d, ReplaceLive(base), CLEANUP);
    } else {
      assert d1 == d;
    }
  }

  /** From every consistent state recovery succeeds, every prefix of it is safe,
      and it settles the files. */
  lemma RecoveryIsSafe(site: Site, l: Ledger, d: Disk)
    requires Consistent(site, l, d)
    ensures var p := Recover(site, d);
            && p.result.Ok?
            && SafeFrom(site, l, d, p.ops)
            && SettledAfterRecovery(DoAll(d, p.ops), p.result.value)
  {
    assert !d.journal.Unreadable?;
    if d.journal.Stored? { StoredJournalIsValid(site, l, d, d.journal.journal); }
    hide Consistent;
    match d.journal
    case NoJournal => IdleRecoveryIsSafe(site, l, d);
    case Stored(j) =>
      match j.state {
        case Prepared => PreparedRecoveryIsSafe(site, l, d, j);
        case PendingValidation => assert SafeFrom(site, l, d, []);
        case Committing => CleanupIsSafe(site, l, d);
        case RollingBack => RollingBackRecoveryIsSafe(site, l, d, j);
      }
  }

  /** A call that recovers first is safe when its second part is safe where
      recovery ends. */
  lemma SafeAfterRecovery(site: Site, l: Ledger, d: Disk) returns (l1: Ledger, d1: Disk)
    requires Consistent(site, l, d)
    ensures d1 == DoAll(d, Recover(site, d).ops)
    ensures l1 == NoteAll(l, d, Recover(site, d).ops)
    ensures Consistent(site, l1, d1)
    ensures Recover(site, d).result.Ok? && SettledAfterRecovery(d1, Recover(site, d).result.value)
    ensures forall rest :: SafeFrom(site, l1, d1, rest) ==> SafeFrom(site, l, d, Recover(site, d).ops + rest)
    ensures l1.transactions == l.transactions && l1.fates == l.fates
  {
    hide Consistent;
    var ops := Recover(site, d).ops;
    l1, d1 := NoteAll(l, d, ops), DoAll(d, ops);
    RecoveryIsSafe(site, l, d);
    SafeMeansEveryPrefix(site, l, d, ops, |ops|);
    assert ops[..|ops|] == ops;
    forall rest | SafeFrom(site, l1, d1, rest) ensures SafeFrom(site, l, d, ops + rest) {
      SafeConcat(site, l, d, ops, rest);
    }
    RecoveryDecidesNothing(site, l, d, |ops|);
  }

  lemma RecoveryDecidesNothing(site: Site, l: Ledger, d: Disk, k: nat)
    requires k <= |Recover(site, d).ops|
    ensures var l' := NoteAll(l, d, Recover(site, d).ops[..k]);
            l'.transactions == l.transactions && l'.fates == l.fates
  {
    PendingWritesDecideNothing(l, d, Recover(site, d).ops[..k]);
  }

  lemma {:induction false} PendingWritesDecideNothing(l: Ledger, d: Disk, ops: seq<FileOp>)
    requires forall op <- ops :: op.WriteJournal? ==> op.journal.state.PendingValidation?
    ensures NoteAll(l, d, ops).transactions == l.transactions && NoteAll(l, d, ops).fates == l.fates
    decreases |ops|
  {
    if ops != [] {
      PendingWritesDecideNothing(Note(l, d, ops[0]), Do(d, ops[0]), ops[1..]);
    }
  }
}
