/** The invariant of every run and what it means for operators. */
module ConfigTheorems {
  import opened Prelude
  import opened ConfigFiles
  import opened ConfigLedger
  import opened ConfigEdits
  import opened ConfigRuns

  // --------------------------------------------------------------- invariant

  /** No lock has two holders. */
  ghost predicate Exclusive(w: World) {
    forall p, q | p in w.processes && q in w.processes && p != q ::
      && !(w.processes[p].lifecycle && w.processes[q].lifecycle)
      && !(w.processes[p].config && w.processes[q].config)
      && (w.processes[p].directory.None? || w.processes[p].directory != w.processes[q].directory)
  }

  /** The files are sound; only a holder of the lifecycle lock has durable steps
      left, and then they are consistent and survive its death before any of them. */
  ghost predicate FilesHold(sys: System, w: World) {
    && Sound(sys.site, w.ledger, w.disk)
    && forall p <- w.processes ::
         && (w.processes[p].role.Calling? ==> w.processes[p].lifecycle)
         && (w.processes[p].role.Serving? ==> w.processes[p].todo == [])
         && (w.processes[p].todo != [] ==> SafeFrom(sys.site, w.ledger, w.disk, w.processes[p].todo))
  }

  ghost predicate ClocksHold(w: World) {
    && w.begunAt.Keys == w.ledger.transactions.Keys
    && (forall t <- w.begunAt :: w.begunAt[t] < w.tick)
    && (forall i <- w.daemons :: w.daemons[i].startedAt <= w.tick)
  }

  /** A serving daemon is known to history under an instance of its own. */
  ghost predicate DaemonsHold(w: World) {
    && (forall p <- w.processes | w.processes[p].role.Serving? ::
          var r := w.processes[p].role;
          && ValidId(r.instance) && r.instance in w.daemons
          && w.processes[p].directory == Some(w.daemons[r.instance].directory)
          && w.daemons[r.instance].revision == r.revision
          && !w.daemons[r.instance].stopped)
    && (forall p, q | p in w.processes && q in w.processes && p != q
                      && w.processes[p].role.Serving? && w.processes[q].role.Serving? ::
          w.processes[p].role.instance != w.processes[q].role.instance)
  }

  /** A published clean stop is the one history recorded. */
  ghost predicate StopsHold(w: World) {
    forall d <- w.statuses | IsCleanStop(w.statuses[d]) ::
      var s := w.statuses[d].status;
      s.instance in w.daemons
      && w.daemons[s.instance] == DaemonRecord(d, s.revision, w.daemons[s.instance].startedAt,
                                               s.reachedReady, s.lastError.Some?, true)
  }

  /** Some daemon started after transaction `t` was set, in the directory bound
      then, loaded exactly its candidate, reached ready and stopped without error. */
  predicate ProvenBy(w: World, t: string, instance: string)
    requires t in w.ledger.transactions && t in w.begunAt
  {
    && instance in w.daemons
    && var r := w.daemons[instance];
    && Some(r.directory) == w.ledger.transactions[t].directory
    && r.revision == Some(Sha256(w.ledger.transactions[t].candidate))
    && r.startedAt > w.begunAt[t]
    && r.ready && !r.failed && r.stopped
  }

  ghost predicate Proven(w: World, t: string) {
    t in w.ledger.transactions && t in w.begunAt && exists i :: ProvenBy(w, t, i)
  }

  /** The status and daemons of an open transaction's directory are newer than it,
      save for the recorded baseline. */
  ghost predicate NewerThanOpen(w: World) {
    w.disk.journal.Stored? && w.disk.journal.journal.runtimeDirectory.Some? ==>
      var j := w.disk.journal.journal;
      var d := j.runtimeDirectory.value;
      j.transaction in w.begunAt
      && (forall p <- w.processes | w.processes[p].role.Serving? && w.processes[p].directory == Some(d) ::
            w.processes[p].role.instance in w.daemons
            && w.daemons[w.processes[p].role.instance].startedAt > w.begunAt[j.transaction])
      && (IsCleanStop(StatusAt(w, d)) && j.baseline != Some(StatusAt(w, d).status.instance) ==>
            StatusAt(w, d).status.instance in w.daemons
            && w.daemons[StatusAt(w, d).status.instance].startedAt > w.begunAt[j.transaction])
  }

  ghost predicate CommitsProven(w: World) {
    forall t <- w.ledger.fates | w.ledger.fates[t] == Commit :: Proven(w, t)
  }

  /** What a process may still write into the journal. */
  ghost predicate PendingWrites(w: World) {
    forall p <- w.processes, op <- w.processes[p].todo | op.WriteJournal? ::
      && (op.journal.state.Committing? ==> Proven(w, op.journal.transaction))
      && (op.journal.state.Prepared? ==>
            op.journal.runtimeDirectory.Some? && w.processes[p].directory == op.journal.runtimeDirectory
            && (IsCleanStop(StatusAt(w, op.journal.runtimeDirectory.value)) ==>
                  op.journal.baseline == Some(StatusAt(w, op.journal.runtimeDirectory.value).status.instance)))
  }

  /** What a report says of the files and history it leaves behind. */
  predicate ReportHolds(l: Ledger, d: Disk, report: Report) {
    match report
    case CommitDone(Ok(a)) =>
      a.transaction in l.fates && l.fates[a.transaction] == Commit
      && a.transaction in l.finished && Sha256(l.finished[a.transaction]) == a.revision
      && d.live == l.finished[a.transaction] && d.journal.NoJournal?
    case RollbackDone(Ok(a)) =>
      a.transaction in l.fates && l.fates[a.transaction] == Rollback
      && a.transaction in l.finished && Sha256(l.finished[a.transaction]) == a.restored
      && d.live == l.finished[a.transaction] && d.journal.NoJournal?
    case SetDone(Ok(a)) =>
      if a.transaction.Some? then
        Open(d, a.transaction.value) && d.journal.journal.state.PendingValidation?
        && a.transaction.value in l.transactions
        && Sha256(l.transactions[a.transaction.value].base) == a.base && Sha256(d.live) == a.candidate
      else d.journal.NoJournal? && Sha256(d.live) == a.base
    case ServiceReady(Ok(bytes)) =>
      d.live == bytes && (d.journal.NoJournal? || (d.journal.Stored? && d.journal.journal.state.PendingValidation?))
    case _ => true
  }

  ghost predicate ReportsHold(w: World) {
    && (forall p <- w.processes | w.processes[p].role.Calling? && !Waiting(w.processes[p]) ::
          ReportHolds(NoteAll(w.ledger, w.disk, w.processes[p].todo), DoAll(w.disk, w.processes[p].todo),
                      w.processes[p].role.report))
    && (forall i :: 0 <= i < |w.reports| ==> ReportKept(w.ledger, w.reports[i]))
  }

  /** The part of a delivered report that stays true for ever. */
  predicate ReportKept(l: Ledger, report: Report) {
    match report
    case CommitDone(Ok(a)) =>
      a.transaction in l.fates && l.fates[a.transaction] == Commit
      && a.transaction in l.finished && Sha256(l.finished[a.transaction]) == a.revision
    case RollbackDone(Ok(a)) =>
      a.transaction in l.fates && l.fates[a.transaction] == Rollback
      && a.transaction in l.finished && Sha256(l.finished[a.transaction]) == a.restored
    case _ => true
  }

  ghost predicate Inv(sys: System, w: World) {
    && Exclusive(w)
    && FilesHold(sys, w)
    && ClocksHold(w)
    && DaemonsHold(w)
    && StopsHold(w)
    && NewerThanOpen(w)
    && CommitsProven(w)
    && PendingWrites(w)
    && ReportsHold(w)
  }
}
