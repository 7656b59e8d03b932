/** What each management call does to the four files: the ordered durable steps
    and the answer it gives when none of them is cut short. */
module ConfigPlans {
  import opened Prelude
  import opened ConfigFiles
  import opened RuntimeStatus

  datatype Plan<T> = Plan(ops: seq<FileOp>, result: Result<T, ErrorCode>)

  datatype Completion = CommittedNow(journal: Journal) | RolledBackNow(journal: Journal)

  datatype Recovery = Recovery(journal: Option<Journal>, completion: Option<Completion>)

  /** `recover`, entered with the live document loaded. */
  function Recover(site: Site, d: Disk): Plan<Recovery> {
    match d.journal
    case NoJournal => Plan([RemoveBase, RemoveCandidate], Ok(Recovery(None, None)))
    case Unreadable => Plan([], Err(UnsafeStorage))
    case Stored(j) =>
      match ValidateJournal(site, j)
      case Err(e) => Plan([], Err(e))
      case Ok(_) =>
        match j.state
        case Prepared => RecoverPrepared(site, d, j)
        case PendingValidation => RecoverPending(d, j)
        case Committing =>
          if Sha256(d.live) != j.candidate then Plan([], Err(TransactionConflict))
          else Plan(CLEANUP, Ok(Recovery(None, Some(CommittedNow(j)))))
        case RollingBack => RecoverRollingBack(site, d, j)
  }

  function RecoverPrepared(site: Site, d: Disk, j: Journal): Plan<Recovery> {
    match ReadArtifact(d.base, j.base)
    case Err(e) => Plan([], Err(e))
    case Ok(_) =>
      match ReadArtifact(d.candidate, j.candidate)
      case Err(e) => Plan([], Err(e))
      case Ok(candidate) =>
        var pending := j.(state := PendingValidation);
        if Sha256(d.live) == j.base then
          if !Loads(site, candidate) then Plan([ReplaceLive(candidate)], Err(UnsafeStorage))
          else Plan([ReplaceLive(candidate), WriteJournal(pending)], Ok(Recovery(Some(pending), None)))
        else if Sha256(d.live) != j.candidate then Plan([], Err(TransactionConflict))
        else Plan([WriteJournal(pending)], Ok(Recovery(Some(pending), None)))
  }

  function RecoverPending(d: Disk, j: Journal): Plan<Recovery> {
    match ReadArtifact(d.base, j.base)
    case Err(e) => Plan([], Err(e))
    case Ok(_) =>
      match ReadArtifact(d.candidate, j.candidate)
      case Err(e) => Plan([], Err(e))
      case Ok(_) =>
        if Sha256(d.live) != j.candidate then Plan([], Err(TransactionConflict))
        else Plan([], Ok(Recovery(Some(j), None)))
  }

  function RecoverRollingBack(site: Site, d: Disk, j: Journal): Plan<Recovery> {
    var done := Ok(Recovery(None, Some(RolledBackNow(j))));
    if Sha256(d.live) == j.candidate then
      match ReadArtifact(d.base, j.base)
      case Err(e) => Plan([], Err(e))
      case Ok(base) =>
        if !Loads(site, base) then Plan([ReplaceLive(base)], Err(UnsafeStorage))
        else Plan([ReplaceLive(base)] + CLEANUP, done)
    else if Sha256(d.live) != j.base then Plan([], Err(TransactionConflict))
    else Plan(CLEANUP, done)
  }

  datatype SetAnswer = SetAnswer(transaction: Option<string>, base: ConfigRevision, candidate: ConfigRevision,
                                 changed: bool)

  /** A `set` request. `edit` stands for the TOML edit of the live document (None
      when it cannot be made), `transaction` for the random identifier drawn. */
  datatype SetRequest = SetRequest(
    expected: ConfigRevision,
    edit: Bytes -> Option<Bytes>,
    transaction: string,
    directory: string)

  /** `build_candidate`: the edited document counts only if it loads again and names
      the same paths. */
  function BuildCandidate(site: Site, edit: Bytes -> Option<Bytes>, bytes: Bytes): Option<Bytes> {
    match edit(bytes)
    case None => None
    case Some(candidate) =>
      if Loads(site, candidate) && site.home(candidate) == site.home(bytes) then Some(candidate) else None
  }

  function PreparedJournal(site: Site, live: Bytes, candidate: Bytes, r: SetRequest,
                           baseline: Option<string>): Journal {
    Journal(JOURNAL_VERSION, r.transaction, Prepared, site.path, Sha256(live), Sha256(candidate), baseline,
            Some(r.directory))
  }

  function InstallOps(live: Bytes, candidate: Bytes, j: Journal): seq<FileOp> {
    [WriteBase(live), WriteCandidate(candidate), WriteJournal(j), ReplaceLive(candidate),
     WriteJournal(j.(state := PendingValidation))]
  }

  /** A call that first takes `ops` and then follows `p`. */
  function Prepend<T>(ops: seq<FileOp>, p: Plan<T>): Plan<T> {
    Plan(ops + p.ops, p.result)
  }

  /** `set`; `latest` is what the runtime directory's status says of the last daemon. */
  function SetPlan(site: Site, d: Disk, r: SetRequest, latest: Result<Option<string>, ()>): Plan<SetAnswer> {
    if !Loads(site, d.live) then Plan([], Err(UnsafeStorage))
    else Prepend(Recover(site, d).ops, SetRest(site, d, r, latest))
  }

  function SetRest(site: Site, d: Disk, r: SetRequest, latest: Result<Option<string>, ()>): Plan<SetAnswer> {
    match Recover(site, d)
    case Plan(_, Err(e)) => Plan([], Err(e))
    case Plan(ops, Ok(recovered)) => SetRecovered(site, d.live, DoAll(d, ops).live, recovered, r, latest)
  }

  /** The part of `set` after recovery, with the live document reloaded; `bootstrap`
      is the document the call loaded first. */
  function SetRecovered(site: Site, bootstrap: Bytes, live: Bytes, recovered: Recovery, r: SetRequest,
                        latest: Result<Option<string>, ()>): Plan<SetAnswer> {
    if recovered.journal.Some? then Plan([], Err(TransactionPending))
    else if !Loads(site, live) then Plan([], Err(UnsafeStorage))
    else if site.home(live) != site.home(bootstrap) then Plan([], Err(TransactionConflict))
    else if Sha256(live) != r.expected then Plan([], Err(RevisionConflict))
    else
      match BuildCandidate(site, r.edit, live)
      case None => Plan([], Err(ValidationFailed))
      case Some(candidate) =>
        if candidate == live then Plan([], Ok(SetAnswer(None, Sha256(live), Sha256(candidate), false)))
        else
          match latest
          case Err(_) => Plan([], Err(UnsafeStorage))
          case Ok(baseline) =>
            Plan(InstallOps(live, candidate, PreparedJournal(site, live, candidate, r, baseline)),
                 Ok(SetAnswer(Some(r.transaction), Sha256(live), Sha256(candidate), true)))
  }

  datatype CommitRequest = CommitRequest(transaction: string, instance: string, directory: string, host: string,
                                         now: u64)

  datatype CommitAnswer = CommitAnswer(transaction: string, revision: ConfigRevision)

  function CommitPlan(site: Site, d: Disk, r: CommitRequest, status: StatusFile): Plan<CommitAnswer> {
    if !ValidId(r.transaction) || !ValidId(r.instance) then Plan([], Err(InvalidRequest))
    else if !Loads(site, d.live) then Plan([], Err(UnsafeStorage))
    else
      match d.journal
      case NoJournal => Plan([], Err(TransactionNotFound))
      case Unreadable => Plan([], Err(UnsafeStorage))
      case Stored(observed) =>
        match ValidateJournal(site, observed)
        case Err(e) => Plan([], Err(e))
        case Ok(_) =>
          if observed.transaction != r.transaction then Plan([], Err(TransactionConflict))
          else if observed.runtimeDirectory != Some(r.directory) then Plan([], Err(HealthNotProven))
          else Prepend(Recover(site, d).ops, CommitRest(site, d, r, status))
  }

  function CommitRest(site: Site, d: Disk, r: CommitRequest, status: StatusFile): Plan<CommitAnswer> {
    match Recover(site, d)
    case Plan(_, Err(e)) => Plan([], Err(e))
    case Plan(ops, Ok(recovered)) => CommitRecovered(DoAll(d, ops).live, recovered, r, status)
  }

  /** The part of `commit` after recovery. */
  function CommitRecovered(live: Bytes, recovered: Recovery, r: CommitRequest, status: StatusFile): Plan<CommitAnswer> {
    match recovered
    case Recovery(_, Some(CommittedNow(j))) =>
      if j.transaction != r.transaction then Plan([], Err(TransactionConflict))
      else Plan([], Ok(CommitAnswer(j.transaction, j.candidate)))
    case Recovery(None, _) => Plan([], Err(TransactionNotFound))
    case Recovery(Some(j), _) =>
      if j.transaction != r.transaction then Plan([], Err(TransactionConflict))
      else if !j.state.PendingValidation? || Sha256(live) != j.candidate then Plan([], Err(TransactionConflict))
      else if j.baseline == Some(r.instance) then Plan([], Err(HealthNotProven))
      else if !ValidCandidateRuntime(status, r.host, j.candidate, r.instance, r.now) then Plan([], Err(HealthNotProven))
      else Plan([WriteJournal(j.(state := Committing))] + CLEANUP, Ok(CommitAnswer(j.transaction, j.candidate)))
  }

  datatype RollbackAnswer = RollbackAnswer(transaction: string, restored: ConfigRevision)

  function RollbackPlan(site: Site, d: Disk, transaction: string): Plan<RollbackAnswer> {
    if !ValidId(transaction) then Plan([], Err(InvalidRequest))
    else if !Loads(site, d.live) then Plan([], Err(UnsafeStorage))
    else Prepend(Recover(site, d).ops, RollbackRest(site, d, transaction))
  }

  function RollbackRest(site: Site, d: Disk, transaction: string): Plan<RollbackAnswer> {
    match Recover(site, d)
    case Plan(_, Err(e)) => Plan([], Err(e))
    case Plan(ops, Ok(recovered)) => RollbackRecovered(site, DoAll(d, ops), recovered, transaction)
  }

  /** The part of `rollback` after recovery. */
  function RollbackRecovered(site: Site, d: Disk, recovered: Recovery, transaction: string): Plan<RollbackAnswer> {
    match recovered
    case Recovery(_, Some(RolledBackNow(j))) =>
      if j.transaction != transaction then Plan([], Err(TransactionConflict))
      else Plan([], Ok(RollbackAnswer(j.transaction, j.base)))
    case Recovery(None, _) => Plan([], Err(TransactionNotFound))
    case Recovery(Some(j), _) =>
      if j.transaction != transaction then Plan([], Err(TransactionConflict))
      else if !j.state.PendingValidation? || Sha256(d.live) != j.candidate then Plan([], Err(TransactionConflict))
      else RestorePlan(site, d, j.(state := RollingBack))
  }

  /** Mark the journal rolling back, put the base document back and clean up. */
  function RestorePlan(site: Site, d: Disk, j: Journal): Plan<RollbackAnswer> {
    match ReadArtifact(d.base, j.base)
    case Err(e) => Plan([WriteJournal(j)], Err(e))
    case Ok(base) =>
      if !Loads(site, base) then Plan([WriteJournal(j), ReplaceLive(base)], Err(UnsafeStorage))
      else Plan([WriteJournal(j), ReplaceLive(base)] + CLEANUP, Ok(RollbackAnswer(j.transaction, j.base)))
  }

  /** `prepare_service`: recovery, then the definitive load the daemon runs with. */
  function ServicePlan(site: Site, d: Disk): Plan<Bytes> {
    if !Loads(site, d.live) then Plan([], Err(UnsafeStorage))
    else Prepend(Recover(site, d).ops, ServiceRest(site, d))
  }

  function ServiceRest(site: Site, d: Disk): Plan<Bytes> {
    match Recover(site, d)
    case Plan(_, Err(e)) => Plan([], Err(e))
    case Plan(ops, Ok(_)) =>
      var live := DoAll(d, ops).live;
      if !Loads(site, live) then Plan([], Err(UnsafeStorage))
      else if site.home(live) != site.home(d.live) then Plan([], Err(TransactionConflict))
      else Plan([], Ok(live))
  }
}
