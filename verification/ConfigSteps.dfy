/** Every event keeps the invariant of runs. */
module ConfigSteps {
  import opened Prelude
  import opened ConfigFiles
  import opened ConfigPlans
  import opened ConfigLedger
  import opened ConfigSafety
  import opened ConfigEdits
  import opened RuntimeStatus
  import opened ConfigRuns
  import opened ConfigTheorems

  // ------------------------------------------------------- begin: facts on plans

  lemma RecoverWrites(site: Site, d: Disk)
    ensures forall op <- Recover(site, d).ops | op.WriteJournal? :: op.journal.state.PendingValidation?
    ensures Recover(site, d).result.Ok? && Recover(site, d).result.value.journal.Some? ==>
              d.journal.Stored?
              && Recover(site, d).result.value.journal.value == d.journal.journal.(state := PendingValidation)
  {
  }

  /** A `set` prepares at most its own transaction, bound to its directory and to
      the instance last seen there; it decides nothing. */
  lemma SetWrites(site: Site, d: Disk, r: SetRequest, latest: Result<Option<string>, ()>)
    ensures forall op <- SetPlan(site, d, r, latest).ops | op.WriteJournal? ::
              && (op.journal.state.PendingValidation? || op.journal.state.Prepared?)
              && (op.journal.state.Prepared? ==>
                    op.journal.runtimeDirectory == Some(r.directory) && latest == Ok(op.journal.baseline))
  {
    hide Recover;
    RecoverWrites(site, d);
  }

  /** A `commit` decides only the open transaction, in the directory it was bound
      to, and only on a fresh clean stop of a new instance on its candidate. */
  lemma CommitWrites(site: Site, d: Disk, r: CommitRequest, status: StatusFile)
    ensures forall op <- CommitPlan(site, d, r, status).ops | op.WriteJournal? ::
              && (op.journal.state.PendingValidation? || op.journal.state.Committing?)
              && (op.journal.state.Committing? ==>
                    && d.journal.Stored?
                    && op.journal == d.journal.journal.(state := Committing)
                    && op.journal.runtimeDirectory == Some(r.directory)
                    && op.journal.baseline != Some(r.instance)
                    && ValidCandidateRuntime(status, r.host, op.journal.candidate, r.instance, r.now))
  {
    hide Recover, ValidCandidateRuntime, ValidateJournal;
    RecoverWrites(site, d);
  }

  lemma RollbackWrites(site: Site, d: Disk, transaction: string)
    ensures forall op <- RollbackPlan(site, d, transaction).ops | op.WriteJournal? ::
              op.journal.state.PendingValidation? || op.journal.state.RollingBack?
  {
    hide Recover, ReadArtifact;
    RecoverWrites(site, d);
  }

  lemma ServiceWrites(site: Site, d: Disk)
    ensures forall op <- ServicePlan(site, d).ops | op.WriteJournal? :: op.journal.state.PendingValidation?
  {
    hide Recover;
    RecoverWrites(site, d);
  }

  // ------------------------------------------------- begin: facts on reports

  /** What recovery itself completes is finished and settled. */
  lemma RecoveryCompletes(site: Site, l: Ledger, d: Disk)
    requires Consistent(site, l, d)
    ensures var p := Recover(site, d);
            && p.result.Ok?
            && match p.result.value.completion {
                 case None => true
                 case Some(CommittedNow(j)) =>
                   ReportHolds(NoteAll(l, d, p.ops), DoAll(d, p.ops),
                               CommitDone(Ok(CommitAnswer(j.transaction, j.candidate))))
                 case Some(RolledBackNow(j)) =>
                   ReportHolds(NoteAll(l, d, p.ops), DoAll(d, p.ops),
                               RollbackDone(Ok(RollbackAnswer(j.transaction, j.base))))
               }
  {
    RecoveryIsSafe(site, l, d);
    if d.journal.Stored? {
      var j := d.journal.journal;
      StoredJournalIsValid(site, l, d, j);
      if j.state.Committing? {
        CleanupIsSafe(site, l, d);
      } else if j.state.RollingBack? {
        RollingBackRecoveryIsSafe(site, l, d, j);
      }
    }
  }

  lemma InstallEnds(l: Ledger, d: Disk, candidate: Bytes, j: Journal)
    requires j.state.Prepared?
    ensures var ops := InstallOps(d.live, candidate, j);
            && DoAll(d, ops) == Disk(candidate, Some(d.live), Some(candidate), Stored(j.(state := PendingValidation)))
            && NoteAll(l, d, ops) == l.(transactions := l.transactions[j.transaction :=
                 TxRecord(d.live, j.candidate.preimage, j.runtimeDirectory, j.baseline)])
  {
    var pending := WriteJournal(j.(state := PendingValidation));
    var o3 := [ReplaceLive(candidate), pending];
    var o2 := [WriteJournal(j), ReplaceLive(candidate), pending];
    var o1 := [WriteCandidate(candidate), WriteJournal(j), ReplaceLive(candidate), pending];
    assert InstallOps(d.live, candidate, j)[1..] == o1 && o1[1..] == o2 && o2[1..] == o3 && o3[1..] == [pending]
           && [pending][1..] == [];
    var d1 := Do(d, WriteBase(d.live));
    var d2 := Do(d1, WriteCandidate(candidate));
    var d3, l3 := Do(d2, WriteJournal(j)), Note(l, d2, WriteJournal(j));
    var d4 := Do(d3, ReplaceLive(candidate));
    assert DoAll(d4, [pending]) == Do(d4, pending) && NoteAll(l3, d4, [pending]) == l3;
    assert DoAll(d3, o3) == Do(d4, pending) && NoteAll(l3, d3, o3) == l3;
    assert DoAll(d2, o2) == Do(d4, pending) && NoteAll(l, d2, o2) == l3;
  }

  lemma SetReportHolds(site: Site, l: Ledger, d: Disk, r: SetRequest, latest: Result<Option<string>, ()>)
    requires Consistent(site, l, d)
    ensures var p := SetPlan(site, d, r, latest);
            ReportHolds(NoteAll(l, d, p.ops), DoAll(d, p.ops), SetDone(p.result))
  {
    hide Consistent, Recover, DoAll, NoteAll, SafeFrom;
    if SetPlan(site, d, r, latest).result.Ok? {
      var ops, rest := Recover(site, d).ops, SetRest(site, d, r, latest);
      var l1, d1 := SafeAfterRecovery(site, l, d);
      NoteAllConcat(l, d, ops, rest.ops);
      DoAllConcat(d, ops, rest.ops);
      if rest.ops == [] {
        NothingNoted(l1, d1);
      } else {
        var candidate := BuildCandidate(site, r.edit, d1.live).value;
        InstallEnds(l1, d1, candidate, PreparedJournal(site, d1.live, candidate, r, latest.value));
      }
    }
  }

  lemma NothingNoted(l: Ledger, d: Disk)
    ensures DoAll(d, []) == d && NoteAll(l, d, []) == l
  {
  }

  lemma CommittingEnds(site: Site, l: Ledger, d: Disk, j: Journal)
    requires Consistent(site, l, d) && d.journal == Stored(j) && j.state.PendingValidation?
    ensures var ops := [WriteJournal(j.(state := Committing))] + CLEANUP;
            ReportHolds(NoteAll(l, d, ops), DoAll(d, ops), CommitDone(Ok(CommitAnswer(j.transaction, j.candidate))))
  {
    hide Consistent;
    var w := WriteJournal(j.(state := Committing));
    DecidingIsSafe(site, l, d, j, Committing);
    CleanupIsSafe(site, Note(l, d, w), Do(d, w));
    SafeCons(site, l, d, w, CLEANUP);
  }

  lemma CommitReportHolds(site: Site, l: Ledger, d: Disk, r: CommitRequest, status: StatusFile)
    requires Consistent(site, l, d)
    ensures var p := CommitPlan(site, d, r, status);
            ReportHolds(NoteAll(l, d, p.ops), DoAll(d, p.ops), CommitDone(p.result))
  {
    hide Consistent, Recover, ValidCandidateRuntime, DoAll, NoteAll, SafeFrom;
    if CommitPlan(site, d, r, status).result.Ok? {
      var l1, d1 := SafeAfterRecovery(site, l, d);
      RecoveryCompletes(site, l, d);
      var rest := CommitRest(site, d, r, status);
      NoteAllConcat(l, d, Recover(site, d).ops, rest.ops);
      DoAllConcat(d, Recover(site, d).ops, rest.ops);
      if rest.ops == [] {
        NothingNoted(l1, d1);
      } else {
        CommittingEnds(site, l1, d1, Recover(site, d).result.value.journal.value);
      }
    }
  }

  lemma RestoreEnds(site: Site, l: Ledger, d: Disk, j: Journal)
    requires Consistent(site, l, d) && d.journal == Stored(j) && j.state.PendingValidation?
    ensures var p := RestorePlan(site, d, j.(state := RollingBack));
            ReportHolds(NoteAll(l, d, p.ops), DoAll(d, p.ops), RollbackDone(p.result))
  {
    hide Consistent, DoAll, NoteAll, SafeFrom, RestorePlan;
    var w := WriteJournal(j.(state := RollingBack));
    var base := j.base.preimage;
    RestoreIsSafe(site, l, d, j);
    DecidingIsSafe(site, l, d, j, RollingBack);
    var l1, d1 := Note(l, d, w), Do(d, w);
    RestoringIsSafe(site, l1, d1, w.journal);
    CleanupIsSafe(site, l1, Do(d1, ReplaceLive(base)));
    SafeCons(site, l1, d1, ReplaceLive(base), CLEANUP);
    SafeCons(site, l, d, w, [ReplaceLive(base)] + CLEANUP);
    assert [w, ReplaceLive(base)] + CLEANUP == [w] + ([ReplaceLive(base)] + CLEANUP);
  }

  lemma RollbackReportHolds(site: Site, l: Ledger, d: Disk, transaction: string)
    requires Consistent(site, l, d)
    ensures var p := RollbackPlan(site, d, transaction);
            ReportHolds(NoteAll(l, d, p.ops), DoAll(d, p.ops), RollbackDone(p.result))
  {
    hide Consistent, Recover;
    if RollbackPlan(site, d, transaction).result.Ok? {
      var l1, d1 := SafeAfterRecovery(site, l, d);
      RecoveryCompletes(site, l, d);
      var rest := RollbackRest(site, d, transaction);
      NoteAllConcat(l, d, Recover(site, d).ops, rest.ops);
      DoAllConcat(d, Recover(site, d).ops, rest.ops);
      if rest.ops != [] {
        RestoreEnds(site, l1, d1, Recover(site, d).result.value.journal.value);
      }
    }
  }

  lemma ServiceReportHolds(site: Site, l: Ledger, d: Disk)
    requires Consistent(site, l, d)
    ensures var p := ServicePlan(site, d);
            ReportHolds(NoteAll(l, d, p.ops), DoAll(d, p.ops), ServiceReady(p.result))
  {
    hide Consistent, Recover;
    var l1, d1 := SafeAfterRecovery(site, l, d);
    assert Recover(site, d).ops + [] == Recover(site, d).ops;
  }

  // ------------------------------- begin: on files that may have been edited

  lemma RefusalHolds(l: Ledger, d: Disk, report: Report)
    requires match report
             case SetDone(r) => r.Err?
             case CommitDone(r) => r.Err?
             case RollbackDone(r) => r.Err?
             case ServiceReady(r) => r.Err?
    ensures ReportHolds(l, d, report)
  {
  }

  lemma SetBegins(site: Site, l: Ledger, d: Disk, r: SetRequest, latest: Result<Option<string>, ()>)
    requires Sound(site, l, d) && Names(site, d.live)
    requires ValidId(r.transaction) && r.transaction !in l.transactions
    requires latest.Ok? && latest.value.Some? ==> ValidId(latest.value.value)
    ensures var p := SetPlan(site, d, r, latest);
            && (p.ops != [] ==> SafeFrom(site, l, d, p.ops))
            && ReportHolds(NoteAll(l, d, p.ops), DoAll(d, p.ops), SetDone(p.result))
  {
    hide Consistent, Sound, Accepted, SafeFrom, ReportHolds, SetPlan, NoteAll, DoAll, Recover;
    AcceptedIsConsistent(site, l, d);
    if Accepted(d) {
      SetIsSafe(site, l, d, r, latest);
      SetReportHolds(site, l, d, r, latest);
    } else {
      RecoversIffAccepted(site, l, d);
      RefusedRecoveryRefusesSet(site, d, r, latest);
      RefusalHolds(NoteAll(l, d, []), DoAll(d, []), SetDone(SetPlan(site, d, r, latest).result));
    }
  }

  lemma CommitBegins(site: Site, l: Ledger, d: Disk, r: CommitRequest, status: StatusFile)
    requires Sound(site, l, d)
    ensures var p := CommitPlan(site, d, r, status);
            && (p.ops != [] ==> SafeFrom(site, l, d, p.ops))
            && ReportHolds(NoteAll(l, d, p.ops), DoAll(d, p.ops), CommitDone(p.result))
  {
    hide Consistent, Sound, Accepted, SafeFrom, ReportHolds, CommitPlan, NoteAll, DoAll, Recover;
    AcceptedIsConsistent(site, l, d);
    if Accepted(d) {
      CommitIsSafe(site, l, d, r, status);
      CommitReportHolds(site, l, d, r, status);
    } else {
      RecoversIffAccepted(site, l, d);
      RefusedRecoveryRefusesCommit(site, d, r, status);
      RefusalHolds(NoteAll(l, d, []), DoAll(d, []), CommitDone(CommitPlan(site, d, r, status).result));
    }
  }

  lemma RollbackBegins(site: Site, l: Ledger, d: Disk, transaction: string)
    requires Sound(site, l, d)
    ensures var p := RollbackPlan(site, d, transaction);
            && (p.ops != [] ==> SafeFrom(site, l, d, p.ops))
            && ReportHolds(NoteAll(l, d, p.ops), DoAll(d, p.ops), RollbackDone(p.result))
  {
    hide Consistent, Sound, Accepted, SafeFrom, ReportHolds, RollbackPlan, NoteAll, DoAll, Recover;
    AcceptedIsConsistent(site, l, d);
    if Accepted(d) {
      RollbackIsSafe(site, l, d, transaction);
      RollbackReportHolds(site, l, d, transaction);
    } else {
      RecoversIffAccepted(site, l, d);
      RefusedRecoveryRefusesRollback(site, d, transaction);
      RefusalHolds(NoteAll(l, d, []), DoAll(d, []), RollbackDone(RollbackPlan(site, d, transaction).result));
    }
  }

  lemma ServiceBegins(site: Site, l: Ledger, d: Disk)
    requires Sound(site, l, d)
    ensures var p := ServicePlan(site, d);
            && (p.ops != [] ==> SafeFrom(site, l, d, p.ops))
            && ReportHolds(NoteAll(l, d, p.ops), DoAll(d, p.ops), ServiceReady(p.result))
  {
    hide Consistent, Sound, Accepted, SafeFrom, ReportHolds, ServicePlan, NoteAll, DoAll, Recover;
    AcceptedIsConsistent(site, l, d);
    if Accepted(d) {
      ServiceIsSafe(site, l, d);
      ServiceReportHolds(site, l, d);
    } else {
      RecoversIffAccepted(site, l, d);
      RefusedRecoveryRefusesService(site, d);
      RefusalHolds(NoteAll(l, d, []), DoAll(d, []), ServiceReady(ServicePlan(site, d).result));
    }
  }

  // ------------------------------------------------------------------ begin

  ghost predicate MayWrite(w: World, directory: Option<string>, ops: seq<FileOp>) {
    forall op <- ops | op.WriteJournal? ::
      && (op.journal.state.Committing? ==> Proven(w, op.journal.transaction))
      && (op.journal.state.Prepared? ==>
            op.journal.runtimeDirectory.Some? && directory == op.journal.runtimeDirectory
            && (IsCleanStop(StatusAt(w, op.journal.runtimeDirectory.value)) ==>
                  op.journal.baseline == Some(StatusAt(w, op.journal.runtimeDirectory.value).status.instance)))
  }

  lemma ProvenKept(w: World, w': World)
    requires w.ledger.transactions == w'.ledger.transactions && w.begunAt == w'.begunAt
    requires forall i <- w.daemons | w.daemons[i].stopped :: i in w'.daemons && w'.daemons[i] == w.daemons[i]
    ensures forall t | Proven(w, t) :: Proven(w', t)
    ensures CommitsProven(w) && w'.ledger.fates == w.ledger.fates ==> CommitsProven(w')
  {
    forall t | Proven(w, t) ensures Proven(w', t) {
      var i :| ProvenBy(w, t, i);
      assert ProvenBy(w', t, i);
    }
  }

  /** Events that touch only processes leave what history says alone. */
  lemma SameHistory(w: World, w': World)
    requires ClocksHold(w) && StopsHold(w) && CommitsProven(w)
    requires w'.disk == w.disk && w'.ledger == w.ledger && w'.begunAt == w.begunAt && w'.statuses == w.statuses
    requires w'.daemons == w.daemons && w'.tick >= w.tick
    ensures ClocksHold(w') && StopsHold(w') && CommitsProven(w')
    ensures forall t | Proven(w, t) :: Proven(w', t)
  {
    ProvenKept(w, w');
  }

  /** One process enters or changes, against every part of the invariant in turn. */
  ghost predicate Joins(w: World, p: nat, proc: Process, w': World) {
    && w'.processes == w.processes[p := proc]
    && w'.disk == w.disk && w'.ledger == w.ledger && w'.begunAt == w.begunAt
    && w'.reports == w.reports && w'.tick == w.tick + 1
  }

  lemma JoinKeepsExclusive(w: World, p: nat, proc: Process, w': World)
    requires Exclusive(w) && Joins(w, p, proc, w')
    requires forall q <- w.processes | q != p ::
               && !(proc.lifecycle && w.processes[q].lifecycle)
               && !(proc.config && w.processes[q].config)
               && (proc.directory.None? || w.processes[q].directory != proc.directory)
    ensures Exclusive(w')
  {
  }

  lemma JoinKeepsFiles(sys: System, w: World, p: nat, proc: Process, w': World)
    requires FilesHold(sys, w) && Joins(w, p, proc, w')
    requires proc.role.Calling? ==> proc.lifecycle
    requires proc.role.Serving? ==> proc.todo == []
    requires proc.todo != [] ==> SafeFrom(sys.site, w.ledger, w.disk, proc.todo)
    ensures FilesHold(sys, w')
  {
    hide Sound, SafeFrom;
  }

  lemma JoinKeepsReports(w: World, p: nat, proc: Process, w': World)
    requires ReportsHold(w) && Joins(w, p, proc, w')
    requires proc.role.Calling? ==>
               ReportHolds(NoteAll(w.ledger, w.disk, proc.todo), DoAll(w.disk, proc.todo), proc.role.report)
    ensures ReportsHold(w')
  {
    hide NoteAll, DoAll, ReportHolds, ReportKept;
  }

  lemma JoinKeepsPending(w: World, p: nat, proc: Process, w': World)
    requires PendingWrites(w) && Joins(w, p, proc, w') && w'.statuses == w.statuses
    requires forall t | Proven(w, t) :: Proven(w', t)
    requires MayWrite(w, proc.directory, proc.todo)
    ensures PendingWrites(w')
  {
    hide Proven;
  }

  lemma BeginKeepsInv(sys: System, w: World, p: nat, directory: Option<string>, ops: seq<FileOp>, report: Report,
                      w': World)
    requires Inv(sys, w) && LocksFree(w, p, directory)
    requires ops != [] ==> SafeFrom(sys.site, w.ledger, w.disk, ops)
    requires MayWrite(w, directory, ops)
    requires ReportHolds(NoteAll(w.ledger, w.disk, ops), DoAll(w.disk, ops), report)
    requires w' == w.(tick := w.tick + 1, processes := w.processes[p := Caller(directory, ops, report)])
    ensures Inv(sys, w')
  {
    var proc := Caller(directory, ops, report);
    hide Consistent, SafeFrom, NoteAll, DoAll, ReportHolds, MayWrite, Exclusive, FilesHold, ReportsHold, PendingWrites,
      CommitsProven, StopsHold, ClocksHold, Proven;
    SameHistory(w, w');
    JoinKeepsExclusive(w, p, proc, w');
    JoinKeepsFiles(sys, w, p, proc, w');
    JoinKeepsReports(w, p, proc, w');
    JoinKeepsPending(w, p, proc, w');
  }

  lemma BeginSetKeepsInv(sys: System, w: World, p: nat, r: SetRequest)
    requires Inv(sys, w) && Enabled(sys, w, BeginSet(p, r))
    ensures Inv(sys, Apply(sys, w, BeginSet(p, r)))
  {
    hide Consistent, SafeFrom, NoteAll, DoAll, ReportHolds, SetPlan, CommitPlan, RollbackPlan, ServicePlan;
    var latest := LatestRuntimeInstance(StatusAt(w, r.directory), HostHere(sys, w.disk.live));
    var plan := SetPlan(sys.site, w.disk, r, latest);
    SetBegins(sys.site, w.ledger, w.disk, r, latest);
    SetWrites(sys.site, w.disk, r, latest);
    BeginKeepsInv(sys, w, p, Some(r.directory), plan.ops, SetDone(plan.result), Apply(sys, w, BeginSet(p, r)));
  }

  /** Evidence that `commit` accepts is evidence of a daemon started after `set`. */
  lemma EvidenceProves(sys: System, w: World, r: CommitRequest)
    requires Inv(sys, w) && w.disk.journal.Stored?
    requires w.disk.journal.journal.runtimeDirectory == Some(r.directory)
    requires w.disk.journal.journal.baseline != Some(r.instance)
    requires ValidCandidateRuntime(StatusAt(w, r.directory), r.host, w.disk.journal.journal.candidate, r.instance,
                                   r.now)
    ensures Proven(w, w.disk.journal.journal.transaction)
  {
    var j := w.disk.journal.journal;
    SoundMeans(sys.site, w.ledger, w.disk);
    EvidenceIsAFreshCleanStop(StatusAt(w, r.directory), r.host, j.candidate, r.instance, r.now);
    assert ProvenBy(w, j.transaction, r.instance);
  }

  lemma BeginCommitKeepsInv(sys: System, w: World, p: nat, r: CommitRequest)
    requires Inv(sys, w) && Enabled(sys, w, BeginCommit(p, r))
    ensures Inv(sys, Apply(sys, w, BeginCommit(p, r)))
  {
    hide Consistent, SafeFrom, NoteAll, DoAll, ReportHolds, SetPlan, CommitPlan, RollbackPlan, ServicePlan;
    var status := StatusAt(w, r.directory);
    var plan := CommitPlan(sys.site, w.disk, r, status);
    CommitBegins(sys.site, w.ledger, w.disk, r, status);
    CommitWrites(sys.site, w.disk, r, status);
    forall op <- plan.ops | op.WriteJournal? && op.journal.state.Committing? ensures Proven(w, op.journal.transaction) {
      EvidenceProves(sys, w, r);
    }
    BeginKeepsInv(sys, w, p, Some(r.directory), plan.ops, CommitDone(plan.result), Apply(sys, w, BeginCommit(p, r)));
  }

  lemma BeginRollbackKeepsInv(sys: System, w: World, p: nat, transaction: string, directory: Option<string>)
    requires Inv(sys, w) && Enabled(sys, w, BeginRollback(p, transaction, directory))
    ensures Inv(sys, Apply(sys, w, BeginRollback(p, transaction, directory)))
  {
    hide Consistent, SafeFrom, NoteAll, DoAll, ReportHolds, SetPlan, CommitPlan, RollbackPlan, ServicePlan;
    var plan := RollbackPlan(sys.site, w.disk, transaction);
    RollbackBegins(sys.site, w.ledger, w.disk, transaction);
    RollbackWrites(sys.site, w.disk, transaction);
    BeginKeepsInv(sys, w, p, directory, plan.ops, RollbackDone(plan.result),
                  Apply(sys, w, BeginRollback(p, transaction, directory)));
  }

  lemma BeginServiceKeepsInv(sys: System, w: World, p: nat, runtime: string)
    requires Inv(sys, w) && Enabled(sys, w, BeginService(p, runtime))
    ensures Inv(sys, Apply(sys, w, BeginService(p, runtime)))
  {
    hide Consistent, SafeFrom, NoteAll, DoAll, ReportHolds, SetPlan, CommitPlan, RollbackPlan, ServicePlan;
    var plan := ServicePlan(sys.site, w.disk);
    ServiceBegins(sys.site, w.ledger, w.disk);
    ServiceWrites(sys.site, w.disk);
    BeginKeepsInv(sys, w, p, Some(runtime), plan.ops, ServiceReady(plan.result),
                  Apply(sys, w, BeginService(p, runtime)));
  }

  // ------------------------------------------------------------ durable steps

  lemma TakeKeepsFiles(sys: System, w: World, p: nat)
    requires Inv(sys, w) && Enabled(sys, w, Take(p))
    ensures var w' := Apply(sys, w, Take(p));
            Exclusive(w') && FilesHold(sys, w') && Grows(w.ledger, w'.ledger)
  {
    hide Consistent, Sound, Note, Do;
    var w' := Apply(sys, w, Take(p));
    OnlyCaller(sys, w, p);
    assert SafeFrom(sys.site, w'.ledger, w'.disk, w'.processes[p].todo);
    ConsistentIsSound(sys.site, w'.ledger, w'.disk);
  }

  /** A prepared journal is only ever written for a transaction not begun before. */
  lemma TakeBeginsOnlyNew(sys: System, w: World, p: nat)
    requires Inv(sys, w) && Enabled(sys, w, Take(p))
    ensures Lawful(w.ledger, w.disk, w.processes[p].todo[0])
    ensures w.processes[p].lifecycle
  {
    hide Consistent;
  }

  lemma TakeKeepsProven(sys: System, w: World, p: nat)
    requires Inv(sys, w) && Enabled(sys, w, Take(p))
    ensures forall t | Proven(w, t) :: Proven(Apply(sys, w, Take(p)), t)
  {
    hide Inv, Do, Note;
    var w' := Apply(sys, w, Take(p));
    TakeBeginsOnlyNew(sys, w, p);
    forall t | Proven(w, t) ensures Proven(w', t) {
      var i :| ProvenBy(w, t, i);
      assert ProvenBy(w', t, i);
    }
  }

  lemma TakeKeepsClocks(sys: System, w: World, p: nat)
    requires Inv(sys, w) && Enabled(sys, w, Take(p))
    ensures var w' := Apply(sys, w, Take(p));
            ClocksHold(w') && DaemonsHold(w') && StopsHold(w')
  {
    hide FilesHold, ReportsHold, PendingWrites, NewerThanOpen, CommitsProven, Exclusive;
  }

  lemma TakeKeepsCommits(sys: System, w: World, p: nat)
    requires Inv(sys, w) && Enabled(sys, w, Take(p))
    ensures var w' := Apply(sys, w, Take(p));
            CommitsProven(w') && PendingWrites(w')
  {
    hide Inv, Proven, FilesHold, ReportsHold, NewerThanOpen, Exclusive, DaemonsHold, StopsHold, ClocksHold, DoAll,
      NoteAll;
    var w' := Apply(sys, w, Take(p));
    TakeKeepsProven(sys, w, p);
    InvParts(sys, w);
    assert w.processes[p].todo[0] in w.processes[p].todo;
    assert forall o <- w'.processes[p].todo :: o in w.processes[p].todo;
  }

  lemma TakeKeepsOpen(sys: System, w: World, p: nat)
    requires Inv(sys, w) && Enabled(sys, w, Take(p))
    ensures NewerThanOpen(Apply(sys, w, Take(p)))
  {
    hide Inv, NewerThanOpen;
    var op := w.processes[p].todo[0];
    if op.WriteJournal? && op.journal.state.Prepared? {
      InvParts(sys, w);
      CallersAreNotServing(sys, w, p);
      TakeOpens(sys, w, p);
    } else {
      TakeContinuesJournal(sys, w, p);
      InvParts(sys, w);
      TakeStaysOpen(sys, w, p);
    }
  }

  lemma TakeStaysOpen(sys: System, w: World, p: nat)
    requires NewerThanOpen(w) && Enabled(sys, w, Take(p))
    requires var op := w.processes[p].todo[0];
             op.WriteJournal? ==>
               && !op.journal.state.Prepared? && w.disk.journal.Stored?
               && op.journal.transaction == w.disk.journal.journal.transaction
               && op.journal.baseline == w.disk.journal.journal.baseline
               && op.journal.runtimeDirectory == w.disk.journal.journal.runtimeDirectory
    ensures NewerThanOpen(Apply(sys, w, Take(p)))
  {
  }

  lemma InvParts(sys: System, w: World)
    requires Inv(sys, w)
    ensures Exclusive(w) && FilesHold(sys, w) && ClocksHold(w) && DaemonsHold(w) && StopsHold(w)
    ensures NewerThanOpen(w) && CommitsProven(w) && PendingWrites(w) && ReportsHold(w)
  {
    hide Exclusive, FilesHold, ClocksHold, DaemonsHold, StopsHold, NewerThanOpen, CommitsProven, PendingWrites,
      ReportsHold;
  }

  lemma CallersAreNotServing(sys: System, w: World, p: nat)
    requires FilesHold(sys, w) && p in w.processes && w.processes[p].todo != []
    ensures w.processes[p].role.Calling? && w.processes[p].lifecycle
    ensures SafeFrom(sys.site, w.ledger, w.disk, w.processes[p].todo) && Consistent(sys.site, w.ledger, w.disk)
  {
    hide Consistent, SafeFrom, Sound;
    SafeMeansNow(sys.site, w.ledger, w.disk, w.processes[p].todo);
  }

  lemma TakeOpens(sys: System, w: World, p: nat)
    requires Exclusive(w) && PendingWrites(w) && Enabled(sys, w, Take(p)) && w.processes[p].role.Calling?
    requires w.processes[p].todo[0].WriteJournal? && w.processes[p].todo[0].journal.state.Prepared?
    ensures NewerThanOpen(Apply(sys, w, Take(p)))
  {
    hide Proven;
    var j := w.processes[p].todo[0].journal;
    assert w.processes[p].todo[0] in w.processes[p].todo;
    NobodyElseServes(w, p, j.runtimeDirectory.value);
    hide Exclusive;
  }

  lemma NobodyElseServes(w: World, p: nat, directory: string)
    requires Exclusive(w) && p in w.processes && w.processes[p].directory == Some(directory)
             && w.processes[p].role.Calling?
    ensures forall q <- w.processes | w.processes[q].role.Serving? :: w.processes[q].directory != Some(directory)
  {
  }

  /** A journal write that does not prepare a transaction continues the open one. */
  lemma TakeContinuesJournal(sys: System, w: World, p: nat)
    requires Inv(sys, w) && Enabled(sys, w, Take(p))
    ensures var op := w.processes[p].todo[0];
            op.WriteJournal? && !op.journal.state.Prepared? ==>
              && w.disk.journal.Stored?
              && op.journal.transaction == w.disk.journal.journal.transaction
              && op.journal.baseline == w.disk.journal.journal.baseline
              && op.journal.runtimeDirectory == w.disk.journal.journal.runtimeDirectory
  {
    hide Inv, Consistent, Sound, SafeFrom, Lawful;
    var op := w.processes[p].todo[0];
    InvParts(sys, w);
    CallersAreNotServing(sys, w, p);
    SafeMeansNow(sys.site, w.ledger, w.disk, w.processes[p].todo);
    if op.WriteJournal? && !op.journal.state.Prepared? {
      ContinuesJournal(sys.site, w.ledger, w.disk, op);
    }
  }

  lemma ContinuesJournal(site: Site, l: Ledger, d: Disk, op: FileOp)
    requires Consistent(site, l, d) && Consistent(site, Note(l, d, op), Do(d, op)) && Lawful(l, d, op)
    requires op.WriteJournal? && !op.journal.state.Prepared?
    ensures d.journal.Stored? && op.journal.transaction == d.journal.journal.transaction
    ensures op.journal.baseline == d.journal.journal.baseline
    ensures op.journal.runtimeDirectory == d.journal.journal.runtimeDirectory
  {
    hide Names, Loads, ValidateJournal;
  }

  lemma TakeKeepsReports(sys: System, w: World, p: nat)
    requires ReportsHold(w) && Enabled(sys, w, Take(p)) && Grows(w.ledger, Apply(sys, w, Take(p)).ledger)
    requires forall q <- w.processes | w.processes[q].role.Calling? && q != p ::
               w.processes[q].todo == [] && !w.processes[q].lifecycle
    requires forall q <- w.processes | w.processes[q].role.Calling? :: w.processes[q].lifecycle
    ensures ReportsHold(Apply(sys, w, Take(p)))
  {
    var w' := Apply(sys, w, Take(p));
    forall i | 0 <= i < |w'.reports| ensures ReportKept(w'.ledger, w'.reports[i]) {
      KeptReportsStay(w.ledger, w'.ledger, w.reports[i]);
    }
    hide ReportHolds, ReportKept;
  }

  lemma KeptReportsStay(l: Ledger, l': Ledger, report: Report)
    requires Grows(l, l') && ReportKept(l, report)
    ensures ReportKept(l', report)
  {
  }

  lemma OnlyCaller(sys: System, w: World, p: nat)
    requires Exclusive(w) && FilesHold(sys, w) && p in w.processes && w.processes[p].todo != []
    ensures forall q <- w.processes | w.processes[q].role.Calling? && q != p ::
              w.processes[q].todo == [] && !w.processes[q].lifecycle
    ensures forall q <- w.processes | w.processes[q].role.Calling? :: w.processes[q].lifecycle
  {
    hide Consistent, SafeFrom;
  }

  lemma TakeKeepsInv(sys: System, w: World, p: nat)
    requires Inv(sys, w) && Enabled(sys, w, Take(p))
    ensures Inv(sys, Apply(sys, w, Take(p)))
  {
    TakeKeepsFiles(sys, w, p);
    TakeKeepsClocks(sys, w, p);
    TakeKeepsCommits(sys, w, p);
    TakeKeepsOpen(sys, w, p);
    hide Exclusive, FilesHold, ClocksHold, DaemonsHold, StopsHold, NewerThanOpen, CommitsProven, PendingWrites,
      ReportsHold, Grows;
    OnlyCaller(sys, w, p);
    TakeKeepsReports(sys, w, p);
  }

  // ----------------------------------------------------- processes that leave

  /** The world without one process, and with what it reported. */
  predicate Leaves(w: World, p: nat, reports: seq<Report>, w': World) {
    p in w.processes && w' == w.(tick := w.tick + 1, processes := w.processes - {p}, reports := w.reports + reports)
  }

  lemma LeavingKeepsFiles(sys: System, w: World, p: nat, reports: seq<Report>, w': World)
    requires FilesHold(sys, w) && Exclusive(w) && Leaves(w, p, reports, w')
    ensures FilesHold(sys, w') && Exclusive(w')
  {
    hide Consistent, SafeFrom;
  }

  lemma LeavingKeepsReports(w: World, p: nat, reports: seq<Report>, w': World)
    requires ReportsHold(w) && Leaves(w, p, reports, w')
    requires forall i :: 0 <= i < |reports| ==> ReportKept(w.ledger, reports[i])
    ensures ReportsHold(w')
  {
    hide NoteAll, DoAll, ReportHolds, ReportKept;
  }

  lemma LeavingKeepsDaemons(w: World, p: nat, reports: seq<Report>, w': World)
    requires DaemonsHold(w) && NewerThanOpen(w) && Leaves(w, p, reports, w')
    ensures DaemonsHold(w') && NewerThanOpen(w')
  {
  }

  lemma LeavingKeepsPending(w: World, p: nat, reports: seq<Report>, w': World)
    requires PendingWrites(w) && Leaves(w, p, reports, w')
    requires forall t | Proven(w, t) :: Proven(w', t)
    ensures PendingWrites(w')
  {
    hide Proven;
  }

  /** A process dies, or answers and ends; its locks go with it. */
  lemma LeavingKeepsInv(sys: System, w: World, p: nat, reports: seq<Report>)
    requires Inv(sys, w) && p in w.processes
    requires forall i :: 0 <= i < |reports| ==> ReportKept(w.ledger, reports[i])
    ensures Inv(sys, w.(tick := w.tick + 1, processes := w.processes - {p}, reports := w.reports + reports))
  {
    hide Exclusive, FilesHold, ReportsHold, ReportKept, PendingWrites, CommitsProven, StopsHold, ClocksHold,
      NewerThanOpen, DaemonsHold, Proven;
    var w' := w.(tick := w.tick + 1, processes := w.processes - {p}, reports := w.reports + reports);
    SameHistory(w, w');
    LeavingKeepsFiles(sys, w, p, reports, w');
    LeavingKeepsReports(w, p, reports, w');
    LeavingKeepsDaemons(w, p, reports, w');
    LeavingKeepsPending(w, p, reports, w');
  }

  lemma CrashKeepsInv(sys: System, w: World, p: nat)
    requires Inv(sys, w) && Enabled(sys, w, Crash(p))
    ensures Inv(sys, Apply(sys, w, Crash(p)))
  {
    hide Inv;
    LeavingKeepsInv(sys, w, p, []);
    assert w.reports + [] == w.reports;
  }

  lemma ReturnKeepsInv(sys: System, w: World, p: nat)
    requires Inv(sys, w) && Enabled(sys, w, Return(p))
    ensures Inv(sys, Apply(sys, w, Return(p)))
  {
    hide Inv, ReportsHold;
    InvParts(sys, w);
    DoneReportIsKept(w, p);
    LeavingKeepsInv(sys, w, p, [w.processes[p].role.report]);
  }

  lemma DoneReportIsKept(w: World, p: nat)
    requires ReportsHold(w) && p in w.processes && w.processes[p].role.Calling? && w.processes[p].todo == []
    ensures ReportKept(w.ledger, w.processes[p].role.report)
  {
  }

  // ------------------------------------------------------------------ daemons

  lemma MarkKeepsInv(sys: System, w: World, p: nat, role: Role)
    requires Inv(sys, w) && IsServing(w, p)
    requires role.Serving? && role.instance == w.processes[p].role.instance
             && role.revision == w.processes[p].role.revision
    ensures Inv(sys, SetRole(w.(tick := w.tick + 1), p, role))
  {
    var w' := SetRole(w.(tick := w.tick + 1), p, role);
    var proc := w.processes[p].(role := role);
    hide Consistent, SafeFrom, Exclusive, FilesHold, ReportsHold, PendingWrites, CommitsProven, StopsHold, ClocksHold,
      Proven, NewerThanOpen, DaemonsHold;
    ServingIsIdle(sys, w, p);
    MarkKeepsDaemons(w, p, role);
    assert Joins(w, p, proc, w');
    SameHistory(w, w');
    ExclusiveOthers(w, p);
    JoinKeepsExclusive(w, p, proc, w');
    JoinKeepsFiles(sys, w, p, proc, w');
    JoinKeepsReports(w, p, proc, w');
    JoinKeepsPending(w, p, proc, w');
  }

  lemma ServingIsIdle(sys: System, w: World, p: nat)
    requires FilesHold(sys, w) && IsServing(w, p)
    ensures w.processes[p].todo == []
  {
    hide Sound, SafeFrom;
  }

  lemma MarkKeepsDaemons(w: World, p: nat, role: Role)
    requires DaemonsHold(w) && NewerThanOpen(w) && IsServing(w, p)
    requires role.Serving? && role.instance == w.processes[p].role.instance
             && role.revision == w.processes[p].role.revision
    ensures var w' := SetRole(w.(tick := w.tick + 1), p, role);
            DaemonsHold(w') && NewerThanOpen(w')
  {
  }

  lemma ExclusiveOthers(w: World, p: nat)
    requires Exclusive(w) && p in w.processes
    ensures forall q <- w.processes | q != p ::
               && !(w.processes[p].lifecycle && w.processes[q].lifecycle)
               && !(w.processes[p].config && w.processes[q].config)
               && (w.processes[p].directory.None? || w.processes[q].directory != w.processes[p].directory)
  {
  }

  /** What an event that publishes a status or starts a daemon must respect. */
  ghost predicate PublishesLawfully(w: World, directory: string, file: StatusFile, w': World) {
    && w'.disk == w.disk && w'.ledger == w.ledger && w'.begunAt == w.begunAt && w'.reports == w.reports
    && w'.tick == w.tick + 1
    && w'.statuses == w.statuses[directory := file]
    && (forall i <- w.daemons | w.daemons[i].stopped :: i in w'.daemons && w'.daemons[i] == w.daemons[i])
    && (forall i <- w.daemons :: i in w'.daemons && w'.daemons[i].startedAt == w.daemons[i].startedAt)
    && (IsCleanStop(file) ==>
          var s := file.status;
          s.instance in w'.daemons
          && w'.daemons[s.instance] == DaemonRecord(directory, s.revision, w'.daemons[s.instance].startedAt,
                                                    s.reachedReady, s.lastError.Some?, true))
  }

  lemma PublishingKeepsHistory(w: World, directory: string, file: StatusFile, w': World)
    requires StopsHold(w) && CommitsProven(w) && ClocksHold(w) && PublishesLawfully(w, directory, file, w')
    requires forall i <- w'.daemons :: w'.daemons[i].startedAt <= w'.tick
    ensures StopsHold(w') && CommitsProven(w') && ClocksHold(w')
    ensures forall t | Proven(w, t) :: Proven(w', t)
  {
    ProvenKept(w, w');
    hide Proven;
  }

  /** A status published where nobody is preparing a transaction cannot upset the
      baseline of one. */
  lemma PublishingKeepsPending(w: World, directory: string, file: StatusFile, w': World)
    requires PendingWrites(w) && PublishesLawfully(w, directory, file, w')
    requires w'.processes.Keys <= w.processes.Keys
    requires forall q <- w'.processes :: w'.processes[q].todo == [] || w'.processes[q] == w.processes[q]
    requires IsCleanStop(file) ==>
               forall q <- w.processes | w.processes[q].todo != [] :: w.processes[q].directory != Some(directory)
    requires forall t | Proven(w, t) :: Proven(w', t)
    ensures PendingWrites(w')
  {
    hide Proven;
  }

  lemma RecordedServingIsKnown(w: World, p: nat)
    requires DaemonsHold(w) && IsServing(w, p)
    ensures w.processes[p].role.instance in w.daemons
    ensures w.processes[p].directory == Some(w.daemons[w.processes[p].role.instance].directory)
    ensures w.daemons[w.processes[p].role.instance].revision == w.processes[p].role.revision
  {
  }

  /** Events that touch only status files leave processes and files alone. */
  lemma StatusOnly(sys: System, w: World, w': World)
    requires Exclusive(w) && FilesHold(sys, w) && DaemonsHold(w) && ReportsHold(w)
    requires w'.disk == w.disk && w'.ledger == w.ledger && w'.processes == w.processes
    requires w'.daemons == w.daemons && w'.reports == w.reports
    ensures Exclusive(w') && FilesHold(sys, w') && DaemonsHold(w') && ReportsHold(w')
  {
    hide Consistent, SafeFrom, NoteAll, DoAll, ReportHolds, ReportKept;
  }

  /** A status that is no clean stop, or none at all, is never evidence. */
  lemma ShadowingKeepsOpen(w: World, w': World)
    requires NewerThanOpen(w)
    requires w'.disk == w.disk && w'.begunAt == w.begunAt && w'.processes == w.processes && w'.daemons == w.daemons
    requires forall d :: IsCleanStop(StatusAt(w', d)) ==> StatusAt(w', d) == StatusAt(w, d)
    ensures NewerThanOpen(w')
  {
  }

  lemma PublishKeepsInv(sys: System, w: World, p: nat, at: u64)
    requires Inv(sys, w) && Enabled(sys, w, Publish(p, at))
    ensures Inv(sys, Apply(sys, w, Publish(p, at)))
  {
    var w' := Apply(sys, w, Publish(p, at));
    var d := w.processes[p].directory.value;
    hide Exclusive, FilesHold, DaemonsHold, ReportsHold, NewerThanOpen, Proven, PendingWrites, CommitsProven, StopsHold;
    assert !IsCleanStop(w'.statuses[d]);
    StatusOnly(sys, w, w');
    ShadowingKeepsOpen(w, w');
    PublishingKeepsHistory(w, d, w'.statuses[d], w');
    PublishingKeepsPending(w, d, w'.statuses[d], w');
  }

  lemma StrayKeepsInv(sys: System, w: World, runtime: string, file: StatusFile)
    requires Inv(sys, w) && Enabled(sys, w, StrayStatus(runtime, file))
    ensures Inv(sys, Apply(sys, w, StrayStatus(runtime, file)))
  {
    var w' := Apply(sys, w, StrayStatus(runtime, file));
    hide Exclusive, FilesHold, DaemonsHold, ReportsHold, NewerThanOpen, Proven, PendingWrites, CommitsProven, StopsHold;
    StatusOnly(sys, w, w');
    ShadowingKeepsOpen(w, w');
    PublishingKeepsHistory(w, runtime, file, w');
    PublishingKeepsPending(w, runtime, file, w');
  }

  lemma WipeKeepsEvidence(sys: System, w: World, runtime: string)
    requires StopsHold(w) && PendingWrites(w) && CommitsProven(w) && ClocksHold(w)
    ensures var w' := Apply(sys, w, WipeStatus(runtime));
            StopsHold(w') && PendingWrites(w') && CommitsProven(w') && ClocksHold(w')
  {
    ProvenKept(w, Apply(sys, w, WipeStatus(runtime)));
    hide Proven;
  }

  lemma WipeKeepsInv(sys: System, w: World, runtime: string)
    requires Inv(sys, w)
    ensures Inv(sys, Apply(sys, w, WipeStatus(runtime)))
  {
    var w' := Apply(sys, w, WipeStatus(runtime));
    hide Exclusive, FilesHold, DaemonsHold, ReportsHold, NewerThanOpen, PendingWrites, CommitsProven, StopsHold,
      ClocksHold;
    StatusOnly(sys, w, w');
    ShadowingKeepsOpen(w, w');
    WipeKeepsEvidence(sys, w, runtime);
  }

  /** A clean stop is written by a daemon newer than any open transaction. */
  lemma FinishKeepsOpen(sys: System, w: World, p: nat, at: u64)
    requires NewerThanOpen(w) && DaemonsHold(w) && Enabled(sys, w, FinishClean(p, at))
    ensures NewerThanOpen(Apply(sys, w, FinishClean(p, at)))
    ensures DaemonsHold(Apply(sys, w, FinishClean(p, at)))
  {
  }

  lemma FinishLeaves(sys: System, w: World, p: nat, at: u64)
    requires Exclusive(w) && FilesHold(sys, w) && ReportsHold(w) && Enabled(sys, w, FinishClean(p, at))
    ensures var w' := Apply(sys, w, FinishClean(p, at));
            Exclusive(w') && FilesHold(sys, w') && ReportsHold(w')
    ensures forall q <- w.processes | w.processes[q].todo != [] :: w.processes[q].directory != w.processes[p].directory
  {
    hide Consistent, SafeFrom, NoteAll, DoAll, ReportHolds, ReportKept;
  }

  lemma FinishKeepsInv(sys: System, w: World, p: nat, at: u64)
    requires Inv(sys, w) && Enabled(sys, w, FinishClean(p, at))
    ensures Inv(sys, Apply(sys, w, FinishClean(p, at)))
  {
    var w' := Apply(sys, w, FinishClean(p, at));
    var d := w.processes[p].directory.value;
    var file := w'.statuses[d];
    RecordedServingIsKnown(w, p);
    FinishKeepsOpen(sys, w, p, at);
    FinishLeaves(sys, w, p, at);
    assert PublishesLawfully(w, d, file, w');
    hide Exclusive, FilesHold, DaemonsHold, ReportsHold, NewerThanOpen, Proven, PendingWrites, CommitsProven, StopsHold,
      PublishesLawfully;
    PublishingKeepsHistory(w, d, file, w');
    PublishingKeepsPending(w, d, file, w');
  }

  lemma StartKeepsInv(sys: System, w: World, p: nat, proc: Process, at: u64)
    requires Inv(sys, w)
    requires proc.role.Serving? && proc.directory.Some? && proc.todo == [] && !proc.role.state.Stopped?
    requires FreshInstance(w, proc.role.instance)
    requires forall q <- w.processes | q != p ::
               && !(proc.lifecycle && w.processes[q].lifecycle)
               && !(proc.config && w.processes[q].config)
               && w.processes[q].directory != proc.directory
    ensures Inv(sys, StartServing(w.(tick := w.tick + 1), p, proc, at))
  {
    var w' := StartServing(w.(tick := w.tick + 1), p, proc, at);
    var d := proc.directory.value;
    StartIsLawful(sys, w, p, proc, at);
    StartKeepsOpen(sys, w, p, proc, at);
    hide Exclusive, FilesHold, DaemonsHold, ReportsHold, NewerThanOpen, Proven, PendingWrites, CommitsProven, StopsHold,
      PublishesLawfully, SafeFrom;
    PublishingKeepsHistory(w, d, w'.statuses[d], w');
    JoinKeepsExclusive(w, p, proc, w');
    JoinKeepsFiles(sys, w, p, proc, w');
    JoinKeepsReports(w, p, proc, w');
    StartKeepsPending(sys, w, p, proc, at);
  }

  lemma FilesAreSound(sys: System, w: World)
    requires FilesHold(sys, w)
    ensures Sound(sys.site, w.ledger, w.disk)
  {
    hide Sound, SafeFrom;
  }

  /** A daemon that starts is newer than any transaction already open. */
  lemma StartKeepsOpen(sys: System, w: World, p: nat, proc: Process, at: u64)
    requires NewerThanOpen(w) && DaemonsHold(w) && ClocksHold(w)
    requires proc.role.Serving? && proc.directory.Some? && !proc.role.state.Stopped?
    requires FreshInstance(w, proc.role.instance)
    ensures var w' := StartServing(w.(tick := w.tick + 1), p, proc, at);
            NewerThanOpen(w') && DaemonsHold(w')
  {
  }

  lemma StartIsLawful(sys: System, w: World, p: nat, proc: Process, at: u64)
    requires DaemonsHold(w) && StopsHold(w)
    requires proc.role.Serving? && proc.directory.Some? && !proc.role.state.Stopped?
    requires FreshInstance(w, proc.role.instance)
    ensures var w' := StartServing(w.(tick := w.tick + 1), p, proc, at);
            PublishesLawfully(w, proc.directory.value, w'.statuses[proc.directory.value], w')
  {
  }

  lemma StartKeepsPending(sys: System, w: World, p: nat, proc: Process, at: u64)
    requires PendingWrites(w)
    requires proc.role.Serving? && proc.directory.Some? && proc.todo == [] && !proc.role.state.Stopped?
    requires forall t | Proven(w, t) :: Proven(StartServing(w.(tick := w.tick + 1), p, proc, at), t)
    ensures PendingWrites(StartServing(w.(tick := w.tick + 1), p, proc, at))
  {
    hide Proven;
  }

  lemma BootKeepsInv(sys: System, w: World, p: nat, instance: string, at: u64)
    requires Inv(sys, w) && Enabled(sys, w, Boot(p, instance, at))
    ensures Inv(sys, Apply(sys, w, Boot(p, instance, at)))
  {
    hide Inv;
    InvParts(sys, w);
    hide Exclusive, FilesHold, ClocksHold, DaemonsHold, StopsHold, NewerThanOpen, CommitsProven, PendingWrites,
      ReportsHold;
    ExclusiveOthers(w, p);
    CallersHoldLifecycle(sys, w, p);
    StartKeepsInv(sys, w, p, Daemon(sys, w.processes[p], instance), at);
  }

  lemma CallersHoldLifecycle(sys: System, w: World, p: nat)
    requires FilesHold(sys, w) && p in w.processes && w.processes[p].role.Calling?
    ensures w.processes[p].lifecycle
  {
    hide Consistent, SafeFrom;
  }

  lemma ForeignBootKeepsInv(sys: System, w: World, p: nat, runtime: string, instance: string, host: string,
                            revision: Option<ConfigRevision>, at: u64)
    requires Inv(sys, w) && Enabled(sys, w, ForeignBoot(p, runtime, instance, host, revision, at))
    ensures Inv(sys, Apply(sys, w, ForeignBoot(p, runtime, instance, host, revision, at)))
  {
    hide Inv;
    StartKeepsInv(sys, w, p, Process(false, false, Some(runtime), [],
                                     Serving(instance, host, revision, Starting, false, None)), at);
  }

  lemma EditKeepsFiles(sys: System, w: World, bytes: Bytes)
    requires FilesHold(sys, w) && ReportsHold(w) && Enabled(sys, w, OutsideEdit(bytes))
    ensures var w' := Apply(sys, w, OutsideEdit(bytes));
            FilesHold(sys, w') && ReportsHold(w')
  {
    hide Sound, SafeFrom, NoteAll, DoAll, ReportHolds, ReportKept;
    EditKeepsSound(sys.site, w.ledger, w.disk, bytes);
  }

  lemma EditKeepsInv(sys: System, w: World, bytes: Bytes)
    requires Inv(sys, w) && Enabled(sys, w, OutsideEdit(bytes))
    ensures Inv(sys, Apply(sys, w, OutsideEdit(bytes)))
  {
    hide FilesHold, ReportsHold, Proven, CommitsProven, PendingWrites, NewerThanOpen, Exclusive, DaemonsHold;
    var w' := Apply(sys, w, OutsideEdit(bytes));
    ProvenKept(w, w');
    EditKeepsFiles(sys, w, bytes);
    EditKeepsProcesses(sys, w, bytes);
  }

  lemma EditKeepsProcesses(sys: System, w: World, bytes: Bytes)
    requires Exclusive(w) && DaemonsHold(w) && NewerThanOpen(w) && PendingWrites(w)
             && Enabled(sys, w, OutsideEdit(bytes))
    requires forall t | Proven(w, t) :: Proven(Apply(sys, w, OutsideEdit(bytes)), t)
    ensures var w' := Apply(sys, w, OutsideEdit(bytes));
            Exclusive(w') && DaemonsHold(w') && NewerThanOpen(w') && PendingWrites(w')
  {
    hide Proven;
  }

  lemma ElsewhereKeepsInv(sys: System, w: World)
    requires Inv(sys, w)
    ensures Inv(sys, Apply(sys, w, Elsewhere))
  {
    var w' := Apply(sys, w, Elsewhere);
    hide Exclusive, FilesHold, DaemonsHold, ReportsHold, NewerThanOpen, Proven, PendingWrites, CommitsProven, StopsHold,
      ClocksHold;
    StatusOnly(sys, w, w');
    ShadowingKeepsOpen(w, w');
    SameHistory(w, w');
    NothingWritten(w, w');
  }

  lemma NothingWritten(w: World, w': World)
    requires PendingWrites(w) && w'.processes == w.processes && w'.statuses == w.statuses
    requires forall t | Proven(w, t) :: Proven(w', t)
    ensures PendingWrites(w')
  {
    hide Proven;
  }

  // ----------------------------------------------------------------- all events

  lemma StepKeepsInv(sys: System, w: World, e: Event)
    requires Inv(sys, w) && Enabled(sys, w, e)
    ensures Inv(sys, Apply(sys, w, e))
  {
    hide Inv;
    match e
    case BeginSet(p, r) => BeginSetKeepsInv(sys, w, p, r);
    case BeginCommit(p, r) => BeginCommitKeepsInv(sys, w, p, r);
    case BeginRollback(p, t, d) => BeginRollbackKeepsInv(sys, w, p, t, d);
    case BeginService(p, d) => BeginServiceKeepsInv(sys, w, p, d);
    case Take(p) => TakeKeepsInv(sys, w, p);
    case Return(p) => ReturnKeepsInv(sys, w, p);
    case Boot(p, i, at) => BootKeepsInv(sys, w, p, i, at);
    case ForeignBoot(p, d, i, h, r, at) => ForeignBootKeepsInv(sys, w, p, d, i, h, r, at);
    case MarkReady(p) => MarkKeepsInv(sys, w, p, w.processes[p].role.(ready := true, state := Ready));
    case MarkStopping(p) => MarkKeepsInv(sys, w, p, w.processes[p].role.(state := Stopping));
    case MarkDegraded(p, at) => MarkKeepsInv(sys, w, p, w.processes[p].role.(state := Degraded, error := Some(at)));
    case Publish(p, at) => PublishKeepsInv(sys, w, p, at);
    case FinishClean(p, at) => FinishKeepsInv(sys, w, p, at);
    case Crash(p) => CrashKeepsInv(sys, w, p);
    case StrayStatus(d, file) => StrayKeepsInv(sys, w, d, file);
    case WipeStatus(d) => WipeKeepsInv(sys, w, d);
    case OutsideEdit(bytes) => EditKeepsInv(sys, w, bytes);
    case Elsewhere => ElsewhereKeepsInv(sys, w);
  }

  lemma {:induction false} RunKeepsInv(sys: System, ws: seq<World>, es: seq<Event>, i: nat)
    requires Run(sys, ws, es) && i < |ws|
    ensures Inv(sys, ws[i])
  {
    if i == 0 {
      assert Consistent(sys.site, ws[0].ledger, ws[0].disk);
    } else {
      RunKeepsInv(sys, ws, es, i - 1);
      StepKeepsInv(sys, ws[i-1], es[i-1]);
    }
  }

  lemma RunSnoc(sys: System, ws: seq<World>, fs: seq<Event>, f: Event)
    requires Run(sys, ws, fs) && Enabled(sys, ws[|fs|], f)
    ensures Run(sys, ws + [Apply(sys, ws[|fs|], f)], fs + [f])
  {
    hide Initial, Enabled, Apply;
    var ws', fs' := ws + [Apply(sys, ws[|fs|], f)], fs + [f];
    forall i | 0 <= i < |fs'| ensures Enabled(sys, ws'[i], fs'[i]) && ws'[i+1] == Apply(sys, ws'[i], fs'[i]) {
      assert ws'[i] == ws[i];
      if i < |fs| { assert fs'[i] == fs[i] && ws'[i+1] == ws[i+1]; }
    }
    assert ws'[0] == ws[0];
  }
}
