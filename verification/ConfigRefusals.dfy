/** Why a management call fails: the exact code of every refusal, told by the files
    (crates/sigil-host/src/config_management.rs:265-588). */
module ConfigRefusals {
  import opened Prelude
  import opened ConfigFiles
  import opened ConfigPlans
  import opened ConfigLedger
  import opened ConfigSafety
  import opened ConfigEdits
  import opened ConfigAnswers
  import opened RuntimeStatus

  /** What every call makes of a journal it does not understand, whatever else is on disk:
      it takes no step and names the first thing wrong. */
  lemma ForeignJournalRefusal(site: Site, d: Disk, j: Journal)
    requires d.journal == Stored(j)
    ensures var sound := && j.version == 1 && IsId(j.transaction) && j.configPath == site.path
                         && j.base != j.candidate && (j.baseline.Some? ==> IsId(j.baseline.value));
            && (ValidateJournal(site, j).Ok? <==> sound)
            && (!sound ==>
                  Recover(site, d) == Plan([], Err(
                    if j.version != 1 then UnsupportedSchema
                    else if !IsId(j.transaction) then UnsafeStorage
                    else if j.configPath != site.path then TransactionConflict
                    else UnsafeStorage)))
  {
    hide ValidId, IsId;
    IdIff(j.transaction);
    if j.baseline.Some? { IdIff(j.baseline.value); }
  }

  lemma UnreadableJournalRefusal(site: Site, d: Disk)
    requires d.journal.Unreadable?
    ensures Recover(site, d) == Plan([], Err(UnsafeStorage))
  {
  }

  /** A stored copy is taken exactly when it is there, has a size a document can have
      and is the one the journal names. */
  lemma ArtifactReadsIff(file: Option<Bytes>, expected: ConfigRevision)
    ensures ReadArtifact(file, expected).Ok? <==>
              file.Some? && 0 < |file.value| <= 65_536 && Sha256(file.value) == expected
    ensures ReadArtifact(file, expected).Ok? ==> ReadArtifact(file, expected).value == file.value
    ensures ReadArtifact(file, expected) == Err(UnsafeStorage) <==>
              file.Some? && !(0 < |file.value| <= 65_536)
    ensures ReadArtifact(file, expected).Err? ==>
              ReadArtifact(file, expected).error in {UnsafeStorage, TransactionConflict}
  {
  }

  /** A stored copy that reads but does not load is put back all the same, and then the
      recovery fails. */
  lemma UnloadableCopyRefusal(site: Site, d: Disk, j: Journal)
    requires d.journal == Stored(j) && ValidateJournal(site, j).Ok? && ReadArtifact(d.base, j.base).Ok?
    ensures j.state.Prepared? && ReadArtifact(d.candidate, j.candidate).Ok? && Sha256(d.live) == j.base
            && !Loads(site, d.candidate.value) ==>
              Recover(site, d) == Plan([ReplaceLive(d.candidate.value)], Err(UnsafeStorage))
    ensures j.state.RollingBack? && Sha256(d.live) == j.candidate && !Loads(site, d.base.value) ==>
              Recover(site, d) == Plan([ReplaceLive(d.base.value)], Err(UnsafeStorage))
  {
    hide Loads, ValidateJournal;
  }

  /** The same for a rollback of a pending transaction; and a recovery that ends on a
      document naming other paths than the one the call loaded first is done all the same,
      but then `set` and service start go no further. */
  lemma StrayCopyRefusals(site: Site, d: Disk, j: Journal)
    requires d.journal == Stored(j) && ValidateJournal(site, j).Ok? && Loads(site, d.live)
    requires ReadArtifact(d.base, j.base).Ok? && ReadArtifact(d.candidate, j.candidate).Ok?
    ensures j.state.PendingValidation? && Sha256(d.live) == j.candidate && !Loads(site, d.base.value) ==>
              RollbackPlan(site, d, j.transaction) ==
              Plan([WriteJournal(j.(state := RollingBack)), ReplaceLive(d.base.value)], Err(UnsafeStorage))
    ensures j.state.Prepared? && Sha256(d.live) == j.base && Loads(site, d.candidate.value)
            && site.home(d.candidate.value) != site.home(d.live) ==>
              ServicePlan(site, d) ==
              Plan([ReplaceLive(d.candidate.value), WriteJournal(j.(state := PendingValidation))],
                   Err(TransactionConflict))
    ensures j.state.RollingBack? && Sha256(d.live) == j.candidate && Loads(site, d.base.value)
            && site.home(d.base.value) != site.home(d.live) ==>
              && ServicePlan(site, d) == Plan([ReplaceLive(d.base.value)] + CLEANUP, Err(TransactionConflict))
              && forall r: SetRequest, latest ::
                   SetPlan(site, d, r, latest) == Plan([ReplaceLive(d.base.value)] + CLEANUP, Err(TransactionConflict))
  {
    hide Loads, DoAll;
    if j.state.PendingValidation? {
      NothingDone(d);
      assert [] + RestorePlan(site, d, j.(state := RollingBack)).ops ==
             RestorePlan(site, d, j.(state := RollingBack)).ops;
    } else if j.state.Prepared? {
      var ops := [ReplaceLive(d.candidate.value), WriteJournal(j.(state := PendingValidation))];
      DoOne(Do(d, ops[0]), ops[1]);
      DoAllConcat(d, [ops[0]], [ops[1]]);
      DoOne(d, ops[0]);
      assert [ops[0]] + [ops[1]] == ops && ops + [] == ops;
    } else if j.state.RollingBack? {
      var ops := [ReplaceLive(d.base.value)] + CLEANUP;
      DoAllConcat(d, [ReplaceLive(d.base.value)], CLEANUP);
      DoOne(d, ReplaceLive(d.base.value));
      CleanupLeaves(d.(live := d.base.value));
      assert ops + [] == ops;
    }
  }

  /** A recovery that cannot accept an edited live document reports a conflict, unless
      it would have had to restore from a copy of no size a document can have. */
  lemma RecoveryRefusal(site: Site, l: Ledger, d: Disk)
    requires Sound(site, l, d) && !Accepted(d)
    ensures Recover(site, d).result ==
            Err(if && d.journal.journal.state.RollingBack? && Sha256(d.live) == d.journal.journal.candidate
                   && d.base.Some? && !(0 < |d.base.value| <= 65_536)
                then UnsafeStorage else TransactionConflict)
  {
    SoundMeans(site, l, d);
    var live: Bytes :| Consistent(site, l, d.(live := live));
    CopiesAreThere(site, l, d.(live := live));
    hide LedgerHolds, Sound;
  }

  lemma CopiesAreThere(site: Site, l: Ledger, d: Disk)
    requires Consistent(site, l, d) && d.journal.Stored?
    ensures var j := d.journal.journal;
            j.state.Prepared? || j.state.PendingValidation? ==>
              ReadArtifact(d.base, j.base).Ok? && ReadArtifact(d.candidate, j.candidate).Ok?
  {
  }

  /** Every refusal of `set` on files that recovery accepts, and nothing else fails it. */
  lemma SetRefusals(site: Site, l: Ledger, d: Disk, r: SetRequest, latest: Result<Option<string>, ()>)
    requires Consistent(site, l, d)
    ensures var result, live := SetPlan(site, d, r, latest).result, Target(l, d).live;
            var candidate := BuildCandidate(site, r.edit, live);
            var open := d.journal.Stored? && Undecided(d, d.journal.journal.transaction);
            && (result == Err(TransactionPending) <==> open)
            && (result == Err(RevisionConflict) <==> !open && Loads(site, d.live) && r.expected != Sha256(live))
            && (result == Err(ValidationFailed) <==>
                  !open && Loads(site, d.live) && r.expected == Sha256(live) && candidate.None?)
            && (result == Err(UnsafeStorage) <==>
                  || !Loads(site, d.live)
                  || (&& !open && r.expected == Sha256(live) && candidate.Some? && candidate.value != live
                      && latest.Err?))
            && (result.Err? ==>
                  result.error in {TransactionPending, RevisionConflict, ValidationFailed, UnsafeStorage})
  {
    hide Recover, BuildCandidate;
    RecoveryMeans(site, l, d);
    if d.journal.Stored? {
      LiveLoads(site, l, d);
      SameHome(site, l, d);
    }
  }

  /** Recovery puts back or installs only documents that name the same paths. */
  lemma SameHome(site: Site, l: Ledger, d: Disk)
    requires Consistent(site, l, d) && d.journal.Stored?
    ensures site.home(Target(l, d).live) == site.home(d.live)
  {
  }

  lemma CommitRefusals(site: Site, l: Ledger, d: Disk, r: CommitRequest, status: StatusFile)
    requires Consistent(site, l, d)
    ensures var result := CommitPlan(site, d, r, status).result;
            var asked, here := IsId(r.transaction) && IsId(r.instance), Open(d, r.transaction);
            && (result == Err(InvalidRequest) <==> !asked)
            && (result == Err(UnsafeStorage) <==> asked && !Loads(site, d.live))
            && (result == Err(TransactionNotFound) <==>
                  && asked && Loads(site, d.live)
                  && (|| d.journal.NoJournal?
                      || (&& Deciding(d, r.transaction, RollingBack)
                          && d.journal.journal.runtimeDirectory == Some(r.directory))))
            && (result == Err(TransactionConflict) <==> asked && d.journal.Stored? && !here)
            && (result == Err(HealthNotProven) <==>
                  && asked && here
                  && (|| d.journal.journal.runtimeDirectory != Some(r.directory)
                      || (&& Undecided(d, r.transaction)
                          && (|| d.journal.journal.baseline == Some(r.instance)
                              || !ValidCandidateRuntime(status, r.host, d.journal.journal.candidate, r.instance,
                                                        r.now)))))
            && (result.Err? ==>
                  result.error in {InvalidRequest, UnsafeStorage, TransactionNotFound, TransactionConflict,
                                   HealthNotProven})
  {
    hide Recover, ValidCandidateRuntime, ValidId, IsId;
    IdIff(r.transaction);
    IdIff(r.instance);
    RecoveryMeans(site, l, d);
    if d.journal.Stored? {
      LiveLoads(site, l, d);
      StoredJournalIsValid(site, l, d, d.journal.journal);
      NothingDone(d);
    }
  }

  lemma RollbackRefusals(site: Site, l: Ledger, d: Disk, transaction: string)
    requires Consistent(site, l, d)
    ensures var result := RollbackPlan(site, d, transaction).result;
            && (result == Err(InvalidRequest) <==> !IsId(transaction))
            && (result == Err(UnsafeStorage) <==> IsId(transaction) && !Loads(site, d.live))
            && (result == Err(TransactionNotFound) <==>
                  && IsId(transaction) && Loads(site, d.live)
                  && (d.journal.NoJournal? || d.journal.journal.state.Committing?))
            && (result == Err(TransactionConflict) <==>
                  && IsId(transaction) && d.journal.Stored? && !d.journal.journal.state.Committing?
                  && !Open(d, transaction))
            && (result.Err? ==>
                  result.error in {InvalidRequest, UnsafeStorage, TransactionNotFound, TransactionConflict})
  {
    hide Recover, ValidId, IsId;
    IdIff(transaction);
    RecoveryMeans(site, l, d);
    if d.journal.Stored? {
      LiveLoads(site, l, d);
      StoredJournalIsValid(site, l, d, d.journal.journal);
      if !d.journal.journal.state.Committing? && !d.journal.journal.state.RollingBack? {
        SettledArtifacts(site, l, d);
      }
    }
  }

  /** Service start fails only on an idle live document that does not load. */
  lemma ServiceRefusals(site: Site, l: Ledger, d: Disk)
    requires Consistent(site, l, d) && ServicePlan(site, d).result.Err?
    ensures ServicePlan(site, d).result == Err(UnsafeStorage)
  {
    hide Recover;
    ServiceSucceedsIff(site, l, d);
  }
}
