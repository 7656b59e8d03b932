/** The daemon status document and the evidence check a commit makes on it
    (crates/sigil-host/src/appliance.rs). */
module RuntimeStatus {
  import opened Prelude
  import opened ConfigFiles

  const STALE_AFTER_MS: nat := 10_000
  const CLOCK_SKEW_TOLERANCE_MS: nat := 5_000

  datatype DaemonState = Starting | Ready | Stopping | Degraded | Stopped | Offline | Unknown

  /** The fields of a persisted status that management reads. `lastError` is the
      time of the reported error. */
  datatype PersistedStatus = PersistedStatus(
    instance: string,
    host: string,
    revision: Option<ConfigRevision>,
    reachedReady: bool,
    updatedAt: u64,
    daemon: DaemonState,
    lastError: Option<u64>)

  datatype StatusFile = NoStatus | BadStatus | Written(status: PersistedStatus)

  datatype Freshness = Fresh | Absent | Stale

  datatype ObservedStatus = ObservedStatus(
    freshness: Freshness,
    daemon: DaemonState,
    instance: Option<string>,
    revision: Option<ConfigRevision>,
    reachedReady: bool,
    lastError: Option<u64>)

  function StaleStatus(p: PersistedStatus): ObservedStatus {
    ObservedStatus(Stale, if p.daemon.Stopped? then Stopped else Unknown, None, None, false, p.lastError)
  }

  function ReadRuntimeStatus(file: StatusFile, host: string, now: u64): Result<ObservedStatus, ()> {
    match file
    case NoStatus => Ok(ObservedStatus(Absent, Offline, None, None, false, None))
    case BadStatus => Err(())
    case Written(p) =>
      if p.host != host || !ValidId(p.instance) then Err(())
      else if p.lastError.Some? && p.lastError.value > p.updatedAt then Err(())
      else if now < p.updatedAt && p.updatedAt - now > CLOCK_SKEW_TOLERANCE_MS then Ok(StaleStatus(p))
      else if now - p.updatedAt > STALE_AFTER_MS then Ok(StaleStatus(p))
      else if p.daemon.Offline? || p.daemon.Unknown? then Err(())
      else Ok(ObservedStatus(Fresh, p.daemon, Some(p.instance), p.revision, p.reachedReady, p.lastError))
  }

  /** The instance a `set` records as its baseline. Freshness plays no part. */
  function LatestRuntimeInstance(file: StatusFile, host: string): Result<Option<string>, ()> {
    match file
    case NoStatus => Ok(None)
    case BadStatus => Err(())
    case Written(p) => if p.host != host || !ValidId(p.instance) then Err(()) else Ok(Some(p.instance))
  }

  /** A status file that a `set` can take its baseline from: none at all, or one of this
      host under a proper instance. */
  predicate Readable(file: StatusFile, host: string) {
    file.NoStatus? || (file.Written? && file.status.host == host && IsId(file.status.instance))
  }

  predicate IsId(id: string) {
    |id| == 32 && forall i :: 0 <= i < 32 ==> id[i] in "0123456789abcdef"
  }

  lemma IdIff(id: string)
    ensures ValidId(id) <==> IsId(id)
  {
    var digits := "0123456789abcdef";
    forall i | 0 <= i < |id|
      ensures id[i] in digits <==> '0' <= id[i] <= '9' || 'a' <= id[i] <= 'f'
    {
      if '0' <= id[i] <= '9' { assert digits[id[i] as int - '0' as int] == id[i]; }
      if 'a' <= id[i] <= 'f' { assert digits[id[i] as int - 'a' as int + 10] == id[i]; }
    }
  }

  /** The baseline is the instance in the file, whatever else the file says and however
      old it is; there is none exactly when there is no file, and reading fails exactly
      for a file that is not a status, or is another host's, or names no instance. */
  lemma LatestReadsIff(file: StatusFile, host: string)
    ensures LatestRuntimeInstance(file, host).Ok? <==> Readable(file, host)
    ensures LatestRuntimeInstance(file, host) == Ok(None) <==> file.NoStatus?
    ensures Readable(file, host) && file.Written? ==>
              LatestRuntimeInstance(file, host) == Ok(Some(file.status.instance))
  {
    if file.Written? { IdIff(file.status.instance); }
  }

  /** What a reader makes of the status file. Without a file the daemon is offline. A
      document is refused when it is another host's, names no instance or an error of the
      future, or claims within the window a state that no daemon writes; beyond the window
      it tells only whether the daemon had stopped, and its last error. */
  lemma ObservationIs(file: StatusFile, host: string, now: u64)
    ensures ReadRuntimeStatus(file, host, now) ==
            if file.NoStatus? then Ok(ObservedStatus(Absent, Offline, None, None, false, None))
            else if file.BadStatus? then Err(())
            else
              var p := file.status;
              var within := p.updatedAt - 5_000 <= now <= p.updatedAt + 10_000;
              if || p.host != host || !IsId(p.instance) || (p.lastError.Some? && p.lastError.value > p.updatedAt)
                 || (within && p.daemon in {Offline, Unknown})
              then Err(())
              else if within then
                Ok(ObservedStatus(Fresh, p.daemon, Some(p.instance), p.revision, p.reachedReady, p.lastError))
              else
                Ok(ObservedStatus(Stale, if p.daemon == Stopped then Stopped else Unknown, None, None, false,
                                  p.lastError))
  {
    if file.Written? { IdIff(file.status.instance); }
  }

  predicate ValidCandidateRuntime(file: StatusFile, host: string, revision: ConfigRevision, instance: string,
                                  now: u64) {
    match ReadRuntimeStatus(file, host, now)
    case Err(_) => false
    case Ok(s) =>
      && s.freshness.Fresh?
      && s.daemon.Stopped?
      && s.instance == Some(instance)
      && s.revision == Some(revision)
      && s.reachedReady
      && s.lastError.None?
  }

  /** Evidence is accepted exactly when the document itself is a clean, error-free
      stop of the named instance on the candidate, at most ten seconds old and at
      most five seconds ahead of the reader's clock. */
  lemma EvidenceIsAFreshCleanStop(file: StatusFile, host: string, revision: ConfigRevision, instance: string, now: u64)
    ensures ValidCandidateRuntime(file, host, revision, instance, now)
       <==> exists updatedAt: u64 ::
              && file == Written(PersistedStatus(instance, host, Some(revision), true, updatedAt, Stopped, None))
              && ValidId(instance)
              && updatedAt - 5_000 <= now <= updatedAt + 10_000
  {
    if ValidCandidateRuntime(file, host, revision, instance, now) {
      assert file == Written(PersistedStatus(instance, host, Some(revision), true, file.status.updatedAt, Stopped,
                                             None));
    }
  }
}
