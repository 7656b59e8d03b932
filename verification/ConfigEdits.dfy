/** Files whose live document somebody else may have edited: everything but it still
    fits the history, and every call either refuses without a step or finds the live
    document consistent again. */
module ConfigEdits {
  import opened Prelude
  import opened ConfigFiles
  import opened ConfigPlans
  import opened ConfigLedger
  import opened ConfigSafety
  import opened RuntimeStatus

  /** Some live document would make the files consistent. */
  ghost predicate Sound(site: Site, l: Ledger, d: Disk) {
    exists live: Bytes :: Consistent(site, l, d.(live := live))
  }

  /** The live document is one that recovery accepts. */
  predicate Accepted(d: Disk) {
    d.journal.Stored? ==> Tolerated(d, d.journal.journal, d.live)
  }

  lemma ConsistentIsSound(site: Site, l: Ledger, d: Disk)
    requires Consistent(site, l, d)
    ensures Sound(site, l, d)
  {
    assert d.(live := d.live) == d;
  }

  lemma EditKeepsSound(site: Site, l: Ledger, d: Disk, bytes: Bytes)
    requires Sound(site, l, d)
    ensures Sound(site, l, d.(live := bytes))
  {
    hide Consistent;
    var live: Bytes :| Consistent(site, l, d.(live := live));
    assert d.(live := bytes).(live := live) == d.(live := live);
  }

  /** What an edit of the live document cannot touch. */
  lemma SoundMeans(site: Site, l: Ledger, d: Disk)
    requires Sound(site, l, d)
    ensures LedgerHolds(site, l, d) && !d.journal.Unreadable?
    ensures d.journal.Stored? ==>
              var j := d.journal.journal;
              && ValidateJournal(site, j).Ok? && j.transaction in l.transactions
              && j.base == Sha256(l.transactions[j.transaction].base)
              && j.candidate == Sha256(l.transactions[j.transaction].candidate)
              && j.baseline == l.transactions[j.transaction].baseline
              && j.runtimeDirectory == l.transactions[j.transaction].directory
              && (j.transaction in l.fates <==> j.state.Committing? || j.state.RollingBack?)
              && (j.state.Committing? ==> l.fates[j.transaction] == Commit)
              && (j.state.RollingBack? ==> l.fates[j.transaction] == Rollback)
  {
    var live: Bytes :| Consistent(site, l, d.(live := live));
    assert forall t :: Open(d.(live := live), t) == Open(d, t);
  }

  /** A live document that recovery accepts is consistent with history again. */
  lemma AcceptedIsConsistent(site: Site, l: Ledger, d: Disk)
    requires Sound(site, l, d)
    ensures Consistent(site, l, d) <==> Accepted(d)
  {
    SoundMeans(site, l, d);
    var live: Bytes :| Consistent(site, l, d.(live := live));
    hide LedgerHolds;
  }

  lemma TolerationIgnoresLive(d: Disk, live: Bytes)
    requires d.journal.Stored?
    ensures Tolerated(d.(live := live), d.journal.journal, d.live) == Tolerated(d, d.journal.journal, d.live)
  {
  }

  /** Recovery of edited files succeeds exactly for an accepted live document. */
  lemma RecoversIffAccepted(site: Site, l: Ledger, d: Disk)
    requires Sound(site, l, d)
    ensures Recover(site, d).result.Ok? <==> Accepted(d)
    ensures Recover(site, d).result.Err? ==> Recover(site, d).ops == []
  {
    hide Consistent, Recover, Tolerated;
    AcceptedIsConsistent(site, l, d);
    if Accepted(d) {
      RecoveryIsSafe(site, l, d);
    } else {
      var live: Bytes :| Consistent(site, l, d.(live := live));
      OutsideEditToleratedIff(site, l, d.(live := live), d.live);
      assert d.(live := live).(live := d.live) == d;
      TolerationIgnoresLive(d, live);
    }
  }

  predicate Refuses<T>(p: Plan<T>) {
    p.ops == [] && p.result.Err?
  }

  lemma RefusedRecoveryRefusesSet(site: Site, d: Disk, r: SetRequest, latest: Result<Option<string>, ()>)
    requires Refuses(Recover(site, d))
    ensures Refuses(SetPlan(site, d, r, latest))
  {
    hide Recover;
  }

  lemma RefusedRecoveryRefusesCommit(site: Site, d: Disk, r: CommitRequest, status: StatusFile)
    requires Refuses(Recover(site, d))
    ensures Refuses(CommitPlan(site, d, r, status))
  {
    hide Recover;
  }

  lemma RefusedRecoveryRefusesRollback(site: Site, d: Disk, transaction: string)
    requires Refuses(Recover(site, d))
    ensures Refuses(RollbackPlan(site, d, transaction))
  {
    hide Recover;
  }

  lemma RefusedRecoveryRefusesService(site: Site, d: Disk)
    requires Refuses(Recover(site, d))
    ensures Refuses(ServicePlan(site, d))
  {
    hide Recover;
  }

  /** A live document that recovery does not accept makes every call fail without a
      single durable step. */
  lemma UnacceptedIsRefused(site: Site, l: Ledger, d: Disk, install: SetRequest, latest: Result<Option<string>, ()>,
                            commit: CommitRequest, status: StatusFile, transaction: string)
    requires Sound(site, l, d) && !Accepted(d)
    ensures Refuses(Recover(site, d)) && Refuses(SetPlan(site, d, install, latest))
    ensures Refuses(CommitPlan(site, d, commit, status))
    ensures Refuses(RollbackPlan(site, d, transaction)) && Refuses(ServicePlan(site, d))
  {
    hide Recover, Sound, Accepted, SetPlan, CommitPlan, RollbackPlan, ServicePlan;
    RecoversIffAccepted(site, l, d);
    RefusedRecoveryRefusesSet(site, d, install, latest);
    RefusedRecoveryRefusesCommit(site, d, commit, status);
    RefusedRecoveryRefusesRollback(site, d, transaction);
    RefusedRecoveryRefusesService(site, d);
  }
}
