/** Exactly when each management call succeeds on consistent files, told by the
    history, and exactly what it then leaves. */
module ConfigAnswers {
  import opened Prelude
  import opened ConfigFiles
  import opened ConfigPlans
  import opened ConfigLedger
  import opened ConfigSafety
  import opened RuntimeStatus

  /** The transaction is open and no decision has been made. */
  predicate Undecided(d: Disk, transaction: string) {
    Open(d, transaction) && (d.journal.journal.state.Prepared? || d.journal.journal.state.PendingValidation?)
  }

  predicate Deciding(d: Disk, transaction: string, decided: TransactionState) {
    Open(d, transaction) && d.journal.journal.state == decided
  }

  function Cleared(live: Bytes): Disk {
    Disk(live, None, None, NoJournal)
  }

  /** The whole of recovery on consistent files: where it ends and what it says. */
  lemma RecoveryMeans(site: Site, l: Ledger, d: Disk)
    requires Consistent(site, l, d)
    ensures DoAll(d, Recover(site, d).ops) == Target(l, d)
    ensures Recover(site, d).result ==
            Ok(match d.journal {
                 case Stored(j) =>
                   if j.state.Committing? then Recovery(None, Some(CommittedNow(j)))
                   else if j.state.RollingBack? then Recovery(None, Some(RolledBackNow(j)))
                   else Recovery(Some(j.(state := PendingValidation)), None)
                 case _ => Recovery(None, None)
               })
  {
    RecoveryConverges(site, l, d);
    ConvergesFromEveryPrefix(l, d, Recover(site, d).ops, Target(l, d), 0);
    if d.journal.Stored? { StoredJournalIsValid(site, l, d, d.journal.journal); }
  }

  lemma LiveLoads(site: Site, l: Ledger, d: Disk)
    requires Consistent(site, l, d) && d.journal.Stored?
    ensures Loads(site, d.live) && Loads(site, Target(l, d).live)
    ensures var r := l.transactions[d.journal.journal.transaction];
            Target(l, d).live == if d.journal.journal.state.RollingBack? then r.base else r.candidate
  {
  }

  /** Recovery, then `rest`. */
  lemma DoAllAfterRecovery(site: Site, l: Ledger, d: Disk, rest: seq<FileOp>)
    requires Consistent(site, l, d)
    ensures DoAll(d, Recover(site, d).ops + rest) == DoAll(Target(l, d), rest)
  {
    hide Consistent, Recover, Target;
    RecoveryMeans(site, l, d);
    DoAllConcat(d, Recover(site, d).ops, rest);
  }

  /** Service start succeeds unless an idle live document does not load, and hands
      over exactly the document that recovery heads for. */
  lemma ServiceSucceedsIff(site: Site, l: Ledger, d: Disk)
    requires Consistent(site, l, d)
    ensures var p := ServicePlan(site, d);
            && (p.result.Ok? <==> d.journal.Stored? || Loads(site, d.live))
            && (p.result.Ok? ==> p.result.value == Target(l, d).live && DoAll(d, p.ops) == Target(l, d))
  {
    hide Recover;
    RecoveryMeans(site, l, d);
    DoAllAfterRecovery(site, l, d, []);
    if d.journal.Stored? { LiveLoads(site, l, d); }
  }

  /** Rollback succeeds exactly for the open transaction, unless it is already
      committing, and leaves the bytes from before its `set` and nothing else. */
  lemma RollbackSucceedsIff(site: Site, l: Ledger, d: Disk, transaction: string)
    requires Consistent(site, l, d)
    ensures var p := RollbackPlan(site, d, transaction);
            && (p.result.Ok? <==> Undecided(d, transaction) || Deciding(d, transaction, RollingBack))
            && (p.result.Ok? ==>
                  && transaction in l.transactions
                  && p.result == Ok(RollbackAnswer(transaction, Sha256(l.transactions[transaction].base)))
                  && DoAll(d, p.ops) == Cleared(l.transactions[transaction].base))
  {
    hide Recover, DoAll;
    RecoveryMeans(site, l, d);
    if d.journal.Stored? {
      var j := d.journal.journal;
      LiveLoads(site, l, d);
      StoredJournalIsValid(site, l, d, j);
      var rest := RollbackRest(site, d, transaction);
      DoAllAfterRecovery(site, l, d, rest.ops);
      if !j.state.Committing? && !j.state.RollingBack? {
        SettledArtifacts(site, l, d);
        RestoreLeaves(site, Target(l, d), j.(state := RollingBack));
      }
      NothingDone(Target(l, d));
    }
  }

  /** Where an undecided transaction settles, both copies are there. */
  lemma SettledArtifacts(site: Site, l: Ledger, d: Disk)
    requires Consistent(site, l, d) && d.journal.Stored?
    requires d.journal.journal.state.Prepared? || d.journal.journal.state.PendingValidation?
    ensures var j, t := d.journal.journal, Target(l, d);
            && t.base == Some(j.base.preimage) && t.candidate == Some(j.candidate.preimage)
            && t.live == j.candidate.preimage
            && ReadArtifact(t.base, j.base) == Ok(j.base.preimage) && Loads(site, j.base.preimage)
  {
  }

  lemma NothingDone(d: Disk)
    ensures DoAll(d, []) == d
  {
  }

  lemma RestoreLeaves(site: Site, d: Disk, j: Journal)
    requires ReadArtifact(d.base, j.base) == Ok(j.base.preimage) && Loads(site, j.base.preimage)
    ensures RestorePlan(site, d, j).result == Ok(RollbackAnswer(j.transaction, j.base))
    ensures DoAll(d, RestorePlan(site, d, j).ops) == Cleared(j.base.preimage)
  {
    var d1 := Do(Do(d, WriteJournal(j)), ReplaceLive(j.base.preimage));
    DoAllConcat(d, [WriteJournal(j), ReplaceLive(j.base.preimage)], CLEANUP);
    assert [WriteJournal(j), ReplaceLive(j.base.preimage)][1..] == [ReplaceLive(j.base.preimage)];
    CleanupLeaves(d1);
  }

  lemma CleanupLeaves(d: Disk)
    ensures DoAll(d, CLEANUP) == Cleared(d.live)
  {
    assert CLEANUP[1..] == [RemoveCandidate, RemoveJournal];
    assert CLEANUP[1..][1..] == [RemoveJournal];
  }

  /** Commit succeeds exactly for the open transaction in the directory bound at
      `set`, when it is already committing or, while undecided, an instance other
      than the recorded baseline is proved healthy on the candidate; it leaves the
      candidate and nothing else. */
  lemma CommitSucceedsIff(site: Site, l: Ledger, d: Disk, r: CommitRequest, status: StatusFile)
    requires Consistent(site, l, d)
    ensures var p := CommitPlan(site, d, r, status);
            && (p.result.Ok? <==>
                  && ValidId(r.instance) && Open(d, r.transaction)
                  && d.journal.journal.runtimeDirectory == Some(r.directory)
                  && (|| Deciding(d, r.transaction, Committing)
                      || (&& Undecided(d, r.transaction) && d.journal.journal.baseline != Some(r.instance)
                          && ValidCandidateRuntime(status, r.host, d.journal.journal.candidate, r.instance, r.now))))
            && (p.result.Ok? ==>
                  && r.transaction in l.transactions
                  && p.result == Ok(CommitAnswer(r.transaction, Sha256(l.transactions[r.transaction].candidate)))
                  && DoAll(d, p.ops) == Cleared(l.transactions[r.transaction].candidate))
  {
    hide Recover, DoAll, ValidCandidateRuntime;
    RecoveryMeans(site, l, d);
    if d.journal.Stored? {
      var j := d.journal.journal;
      LiveLoads(site, l, d);
      StoredJournalIsValid(site, l, d, j);
      var rest := CommitRest(site, d, r, status);
      DoAllAfterRecovery(site, l, d, rest.ops);
      if !j.state.Committing? && !j.state.RollingBack? { CommittingLeaves(Target(l, d), j); }
      NothingDone(Target(l, d));
    }
  }

  lemma CommittingLeaves(d: Disk, j: Journal)
    ensures DoAll(d, [WriteJournal(j.(state := Committing))] + CLEANUP) == Cleared(d.live)
  {
    CleanupLeaves(Do(d, WriteJournal(j.(state := Committing))));
  }

  /** Set succeeds exactly when no transaction is left undecided, the settled live
      document is the one expected, and its edit loads; if the edit changes
      anything, the base, the candidate and a pending journal that binds the
      directory and the baseline are left beside the new live document. */
  lemma SetSucceedsIff(site: Site, l: Ledger, d: Disk, r: SetRequest, latest: Result<Option<string>, ()>)
    requires Consistent(site, l, d)
    ensures var p := SetPlan(site, d, r, latest);
            var live := Target(l, d).live;
            var candidate := BuildCandidate(site, r.edit, live);
            && (p.result.Ok? <==>
                  && (d.journal.Stored? ==> !Undecided(d, d.journal.journal.transaction))
                  && Loads(site, live) && r.expected == Sha256(live) && candidate.Some?
                  && (candidate.value == live || latest.Ok?))
            && (p.result.Ok? && candidate.value == live ==> DoAll(d, p.ops) == Cleared(live))
            && (p.result.Ok? && candidate.value != live ==>
                  && p.result.value == SetAnswer(Some(r.transaction), Sha256(live), Sha256(candidate.value), true)
                  && DoAll(d, p.ops) == Disk(candidate.value, Some(live), Some(candidate.value),
                       Stored(Journal(JOURNAL_VERSION, r.transaction, PendingValidation, site.path, Sha256(live),
                                      Sha256(candidate.value), latest.value, Some(r.directory)))))
  {
    hide Recover, DoAll, BuildCandidate;
    RecoveryMeans(site, l, d);
    if d.journal.Stored? { LiveLoads(site, l, d); }
    var live, rest := Target(l, d).live, SetRest(site, d, r, latest);
    DoAllAfterRecovery(site, l, d, rest.ops);
    NothingDone(Target(l, d));
    if rest.ops != [] {
      var candidate := BuildCandidate(site, r.edit, live).value;
      InstallLeaves(Target(l, d), candidate, PreparedJournal(site, live, candidate, r, latest.value));
    }
  }

  lemma DoOne(d: Disk, op: FileOp)
    ensures DoAll(d, [op]) == Do(d, op)
  {
  }

  lemma InstallLeaves(d: Disk, candidate: Bytes, j: Journal)
    ensures DoAll(d, InstallOps(d.live, candidate, j)) ==
            Disk(candidate, Some(d.live), Some(candidate), Stored(j.(state := PendingValidation)))
  {
    var ops := InstallOps(d.live, candidate, j);
    assert ops[1..][1..] == ops[2..] && ops[2..][1..] == ops[3..] && ops[3..][1..] == ops[4..] && ops[4..][1..] == [];
    var d1 := Do(d, ops[0]);
    var d2 := Do(d1, ops[1]);
    var d3 := Do(d2, ops[2]);
    assert DoAll(d, ops) == DoAll(d1, ops[1..]);
    assert DoAll(d1, ops[1..]) == DoAll(d2, ops[2..]);
    assert DoAll(d2, ops[2..]) == DoAll(d3, ops[3..]);
    assert DoAll(d3, ops[3..]) == DoAll(Do(d3, ops[3]), ops[4..]);
    DoOne(Do(d3, ops[3]), ops[4]);
    assert ops[4..] == [ops[4]];
  }

  /** A `set` that changed anything and its rollback leave the very text from before. */
  lemma RollbackUndoesSet(site: Site, l: Ledger, d: Disk, r: SetRequest, latest: Result<Option<string>, ()>)
    requires Consistent(site, l, d) && ValidId(r.transaction) && r.transaction !in l.transactions
    requires Loads(site, d.live) ==> Names(site, d.live)
    requires latest.Ok? && latest.value.Some? ==> ValidId(latest.value.value)
    ensures var live := Target(l, d).live;
            var p := SetPlan(site, d, r, latest);
            var after := DoAll(d, p.ops);
            p.result.Ok? && after.live != live ==>
              var back := RollbackPlan(site, after, r.transaction);
              back.result.Ok? && DoAll(after, back.ops) == Cleared(live)
  {
    hide SetPlan, DoAll, NoteAll, RollbackPlan, Target, LedgerHolds;
    var p := SetPlan(site, d, r, latest);
    var l1, after := NoteAll(l, d, p.ops), DoAll(d, p.ops);
    SetIsSafe(site, l, d, r, latest);
    SafeMeansEveryPrefix(site, l, d, p.ops, |p.ops|);
    assert p.ops[..|p.ops|] == p.ops;
    SafeMeansNow(site, l1, after, []);
    if p.result.Ok? && after.live != Target(l, d).live {
      SetSucceedsIff(site, l, d, r, latest);
      RollbackSucceedsIff(site, l1, after, r.transaction);
    }
  }
}
