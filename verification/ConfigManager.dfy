/** The management calls as the program performs them: reading fields, deciding,
    and taking one durable step at a time, any of which may be the last before
    the process dies. */
module ConfigManager {
  import opened Prelude
  import opened ConfigFiles
  import opened ConfigPlans
  import opened RuntimeStatus

  /** A call either answers, or its process dies (or a durable step fails, which
      ends the call at the same point) before it can. */
  datatype Call<+T> = Died | Returned(result: Result<T, ErrorCode>)

  /** The answer of a call that plans `p` and can take `fuel` durable steps. */
  function Answer<T>(p: Plan<T>, fuel: nat): Call<T> {
    if fuel < |p.ops| then Died else Returned(p.result)
  }

  /** Running out of steps during the first part of a call ends the whole call there. */
  lemma CutShort<T>(ops: seq<FileOp>, rest: Plan<T>, fuel: nat)
    ensures Cut(Prepend(ops, rest).ops, fuel) ==
            if fuel < |ops| then Cut(ops, fuel) else ops + Cut(rest.ops, fuel - |ops|)
    ensures Answer(Prepend(ops, rest), fuel) == if fuel < |ops| then Died else Answer(rest, fuel - |ops|)
  {
    CutConcat(ops, rest.ops, fuel);
  }

  lemma CutConcat(a: seq<FileOp>, b: seq<FileOp>, fuel: nat)
    ensures Cut(a + b, fuel) == if fuel < |a| then Cut(a, fuel) else a + Cut(b, fuel - |a|)
  {
  }

  class ConfigStore {
    const site: Site
    var live: Bytes
    var base: Option<Bytes>
    var candidate: Option<Bytes>
    var journal: JournalFile
    /** Durable steps the process can still take. */
    var fuel: nat
    ghost var start: Disk
    ghost var done: seq<FileOp>

    ghost function Contents(): Disk
      reads this
    {
      Disk(live, base, candidate, journal)
    }

    ghost predicate Valid()
      reads this
    {
      Contents() == DoAll(start, done)
    }

    constructor (site: Site, d: Disk, fuel: nat)
      ensures Valid() && Contents() == d && this.site == site && this.fuel == fuel && done == []
    {
      this.site := site;
      live, base, candidate, journal := d.live, d.base, d.candidate, d.journal;
      this.fuel := fuel;
      start := d;
      done := [];
    }

    /** This call took the steps of `ops` that its fuel allowed, and no others. */
    twostate predicate Took(ops: seq<FileOp>)
      reads this
    {
      && Valid()
      && start == old(start)
      && done == old(done) + Cut(ops, old(fuel))
      && fuel == old(fuel) - |Cut(ops, old(fuel))|
    }

    twostate lemma TookMeans(ops: seq<FileOp>)
      requires old(Valid()) && Took(ops)
      ensures Contents() == DoAll(old(Contents()), Cut(ops, old(fuel)))
    {
      DoAllConcat(start, old(done), Cut(ops, old(fuel)));
    }

    /** One atomic replace or remove (secure_state.rs). */
    method Step(op: FileOp) returns (alive: bool)
      requires Valid()
      modifies this
      ensures Valid() && start == old(start)
      ensures alive == (old(fuel) > 0)
      ensures !alive ==> fuel == 0 && done == old(done) && Contents() == old(Contents())
      ensures alive ==> fuel == old(fuel) - 1 && done == old(done) + [op] && Contents() == Do(old(Contents()), op)
    {
      if fuel == 0 { return false; }
      match op {
        case ReplaceLive(bytes) => live := bytes;
        case WriteBase(bytes) => base := Some(bytes);
        case WriteCandidate(bytes) => candidate := Some(bytes);
        case WriteJournal(j) => journal := Stored(j);
        case RemoveBase => base := None;
        case RemoveCandidate => candidate := None;
        case RemoveJournal => journal := NoJournal;
      }
      fuel := fuel - 1;
      DoAllConcat(start, done, [op]);
      done := done + [op];
      return true;
    }

    method CleanupTransaction() returns (alive: bool)
      requires Valid()
      modifies this
      ensures Took(CLEANUP)
      ensures alive == (|CLEANUP| <= old(fuel))
      ensures live == old(live)
    {
      alive := Step(RemoveBase);
      if !alive { return; }
      alive := Step(RemoveCandidate);
      if !alive { return; }
      alive := Step(RemoveJournal);
    }

    /** Recovery of a prepared journal: finish the install. */
    method FinishPrepared(loaded: Bytes, prepared: Journal) returns (call: Call<Recovery>, reloaded: Bytes)
      requires Valid() && loaded == live
      modifies this
      ensures Took(RecoverPrepared(site, old(Contents()), prepared).ops)
      ensures call == Answer(RecoverPrepared(site, old(Contents()), prepared), old(fuel))
      ensures call.Returned? && call.result.Ok? ==> reloaded == live
    {
      reloaded := loaded;
      var alive;
      var kept := ReadArtifact(base, prepared.base);
      if kept.Err? { return Returned(Err(kept.error)), reloaded; }
      var next := ReadArtifact(candidate, prepared.candidate);
      if next.Err? { return Returned(Err(next.error)), reloaded; }
      if Sha256(reloaded) == prepared.base {
        alive := Step(ReplaceLive(next.value));
        if !alive { return Died, reloaded; }
        if !Loads(site, live) { return Returned(Err(UnsafeStorage)), reloaded; }
        reloaded := live;
      }
      if Sha256(reloaded) != prepared.candidate { return Returned(Err(TransactionConflict)), reloaded; }
      var pending := prepared.(state := PendingValidation);
      alive := Step(WriteJournal(pending));
      if !alive { return Died, reloaded; }
      return Returned(Ok(Recovery(Some(pending), None))), reloaded;
    }

    /** Recovery of a rolling-back journal: restore the base unless it is back already. */
    method FinishRollingBack(loaded: Bytes, j: Journal) returns (call: Call<Recovery>, reloaded: Bytes)
      requires Valid() && loaded == live
      modifies this
      ensures Took(RecoverRollingBack(site, old(Contents()), j).ops)
      ensures call == Answer(RecoverRollingBack(site, old(Contents()), j), old(fuel))
      ensures call.Returned? && call.result.Ok? ==> reloaded == live
    {
      reloaded := loaded;
      var alive;
      if Sha256(reloaded) == j.candidate {
        var kept := ReadArtifact(base, j.base);
        if kept.Err? { return Returned(Err(kept.error)), reloaded; }
        CutConcat([ReplaceLive(kept.value)], CLEANUP, fuel);
        alive := Step(ReplaceLive(kept.value));
        if !alive { return Died, reloaded; }
        if !Loads(site, live) { return Returned(Err(UnsafeStorage)), reloaded; }
        reloaded := live;
      }
      if Sha256(reloaded) != j.base { return Returned(Err(TransactionConflict)), reloaded; }
      alive := CleanupTransaction();
      if !alive { return Died, reloaded; }
      return Returned(Ok(Recovery(None, Some(RolledBackNow(j))))), reloaded;
    }

    /** `recover`. `loaded` is the live document, returned reloaded when recovery replaced it. */
    method RecoverTransaction(loaded: Bytes) returns (call: Call<Recovery>, reloaded: Bytes)
      requires Valid() && loaded == live
      modifies this
      ensures Took(Recover(site, old(Contents())).ops)
      ensures call == Answer(Recover(site, old(Contents())), old(fuel))
      ensures call.Returned? && call.result.Ok? ==> reloaded == live
    {
      reloaded := loaded;
      var alive;
      match journal {
        case NoJournal =>
          alive := Step(RemoveBase);
          if !alive { return Died, reloaded; }
          alive := Step(RemoveCandidate);
          if !alive { return Died, reloaded; }
          return Returned(Ok(Recovery(None, None))), reloaded;
        case Unreadable =>
          return Returned(Err(UnsafeStorage)), reloaded;
        case Stored(stored) =>
          var j := stored;
          var valid := ValidateJournal(site, j);
          if valid.Err? { return Returned(Err(valid.error)), reloaded; }
          match j.state {
            case Prepared =>
              call, reloaded := FinishPrepared(loaded, j);
            case PendingValidation =>
              var kept := ReadArtifact(base, j.base);
              if kept.Err? { return Returned(Err(kept.error)), reloaded; }
              var next := ReadArtifact(candidate, j.candidate);
              if next.Err? { return Returned(Err(next.error)), reloaded; }
              if Sha256(reloaded) != j.candidate { return Returned(Err(TransactionConflict)), reloaded; }
              return Returned(Ok(Recovery(Some(j), None))), reloaded;
            case Committing =>
              if Sha256(reloaded) != j.candidate { return Returned(Err(TransactionConflict)), reloaded; }
              alive := CleanupTransaction();
              if !alive { return Died, reloaded; }
              return Returned(Ok(Recovery(None, Some(CommittedNow(j))))), reloaded;
            case RollingBack =>
              call, reloaded := FinishRollingBack(loaded, j);
          }
      }
    }

    /** `set`, under both locks. `latest` is the status read of the runtime directory. */
    method SetConfig(r: SetRequest, latest: Result<Option<string>, ()>) returns (call: Call<SetAnswer>)
      requires Valid()
      modifies this
      ensures Took(SetPlan(site, old(Contents()), r, latest).ops)
      ensures call == Answer(SetPlan(site, old(Contents()), r, latest), old(fuel))
      ensures Contents() == DoAll(old(Contents()), Cut(SetPlan(site, old(Contents()), r, latest).ops, old(fuel)))
    {
      hide Recover, SetRecovered, DoAll;
      ghost var entry := Contents();
      if !Loads(site, live) {
        TookMeans([]);
        return Returned(Err(UnsafeStorage));
      }
      var bootstrap := live;
      var recovered, loaded := RecoverTransaction(live);
      TookMeans(Recover(site, entry).ops);
      CutShort(Recover(site, entry).ops, SetRest(site, entry, r, latest), old(fuel));
      assert Recover(site, entry).ops + [] == Recover(site, entry).ops;
      if recovered.Died? { return Died; }
      if recovered.result.Err? { return Returned(Err(recovered.result.error)); }
      call := SetAfterRecovery(bootstrap, recovered.result.value, r, latest);
      TookMeans(SetPlan(site, entry, r, latest).ops);
    }

    method SetAfterRecovery(bootstrap: Bytes, recovered: Recovery, r: SetRequest, latest: Result<Option<string>, ()>)
        returns (call: Call<SetAnswer>)
      requires Valid()
      modifies this
      ensures Took(SetRecovered(site, bootstrap, old(live), recovered, r, latest).ops)
      ensures call == Answer(SetRecovered(site, bootstrap, old(live), recovered, r, latest), old(fuel))
    {
      if recovered.journal.Some? { return Returned(Err(TransactionPending)); }
      var loaded := live;
      if !Loads(site, loaded) { return Returned(Err(UnsafeStorage)); }
      if site.home(loaded) != site.home(bootstrap) { return Returned(Err(TransactionConflict)); }
      if Sha256(loaded) != r.expected { return Returned(Err(RevisionConflict)); }
      var built := BuildCandidate(site, r.edit, loaded);
      if built.None? { return Returned(Err(ValidationFailed)); }
      if built.value == loaded {
        return Returned(Ok(SetAnswer(None, Sha256(loaded), Sha256(built.value), false)));
      }
      if latest.Err? { return Returned(Err(UnsafeStorage)); }
      var alive := Install(loaded, built.value, PreparedJournal(site, loaded, built.value, r, latest.value));
      if !alive { return Died; }
      return Returned(Ok(SetAnswer(Some(r.transaction), Sha256(loaded), Sha256(built.value), true)));
    }

    method Install(loaded: Bytes, built: Bytes, prepared: Journal) returns (alive: bool)
      requires Valid()
      modifies this
      ensures Took(InstallOps(loaded, built, prepared))
      ensures alive == (|InstallOps(loaded, built, prepared)| <= old(fuel))
    {
      hide DoAll, Do;
      alive := Step(WriteBase(loaded));
      if !alive { return; }
      alive := Step(WriteCandidate(built));
      if !alive { return; }
      alive := Step(WriteJournal(prepared));
      if !alive { return; }
      alive := Step(ReplaceLive(built));
      if !alive { return; }
      alive := Step(WriteJournal(prepared.(state := PendingValidation)));
    }

    /** `commit`, under both locks. `status` is the status file of the runtime directory. */
    method CommitTransaction(r: CommitRequest, status: StatusFile) returns (call: Call<CommitAnswer>)
      requires Valid()
      modifies this
      ensures Took(CommitPlan(site, old(Contents()), r, status).ops)
      ensures call == Answer(CommitPlan(site, old(Contents()), r, status), old(fuel))
      ensures Contents() == DoAll(old(Contents()), Cut(CommitPlan(site, old(Contents()), r, status).ops, old(fuel)))
    {
      hide Recover, CommitRecovered;
      ghost var entry := Contents();
      if !ValidId(r.transaction) || !ValidId(r.instance) { return Returned(Err(InvalidRequest)); }
      if !Loads(site, live) { return Returned(Err(UnsafeStorage)); }
      match journal {
        case NoJournal => return Returned(Err(TransactionNotFound));
        case Unreadable => return Returned(Err(UnsafeStorage));
        case Stored(observed) =>
          var valid := ValidateJournal(site, observed);
          if valid.Err? { return Returned(Err(valid.error)); }
          if observed.transaction != r.transaction { return Returned(Err(TransactionConflict)); }
          if observed.runtimeDirectory != Some(r.directory) { return Returned(Err(HealthNotProven)); }
      }
      var recovered, loaded := RecoverTransaction(live);
      TookMeans(Recover(site, entry).ops);
      CutShort(Recover(site, entry).ops, CommitRest(site, entry, r, status), old(fuel));
      assert Recover(site, entry).ops + [] == Recover(site, entry).ops;
      if recovered.Died? { return Died; }
      if recovered.result.Err? { return Returned(Err(recovered.result.error)); }
      call := CommitAfterRecovery(loaded, recovered.result.value, r, status);
      TookMeans(CommitPlan(site, entry, r, status).ops);
    }

    method CommitAfterRecovery(loaded: Bytes, recovered: Recovery, r: CommitRequest, status: StatusFile)
        returns (call: Call<CommitAnswer>)
      requires Valid()
      modifies this
      ensures Took(CommitRecovered(loaded, recovered, r, status).ops)
      ensures call == Answer(CommitRecovered(loaded, recovered, r, status), old(fuel))
    {
      match recovered.completion {
        case Some(CommittedNow(j)) =>
          if j.transaction != r.transaction { return Returned(Err(TransactionConflict)); }
          return Returned(Ok(CommitAnswer(j.transaction, j.candidate)));
        case _ =>
      }
      if recovered.journal.None? { return Returned(Err(TransactionNotFound)); }
      var j := recovered.journal.value;
      if j.transaction != r.transaction { return Returned(Err(TransactionConflict)); }
      if !j.state.PendingValidation? || Sha256(loaded) != j.candidate { return Returned(Err(TransactionConflict)); }
      if j.baseline == Some(r.instance) { return Returned(Err(HealthNotProven)); }
      if !ValidCandidateRuntime(status, r.host, j.candidate, r.instance, r.now) {
        return Returned(Err(HealthNotProven));
      }
      j := j.(state := Committing);
      CutConcat([WriteJournal(j)], CLEANUP, fuel);
      var alive := Step(WriteJournal(j));
      if alive { alive := CleanupTransaction(); }
      if !alive { return Died; }
      return Returned(Ok(CommitAnswer(j.transaction, j.candidate)));
    }

    /** `rollback`, under both locks. */
    method RollbackTransaction(transaction: string) returns (call: Call<RollbackAnswer>)
      requires Valid()
      modifies this
      ensures Took(RollbackPlan(site, old(Contents()), transaction).ops)
      ensures call == Answer(RollbackPlan(site, old(Contents()), transaction), old(fuel))
      ensures Contents() == DoAll(old(Contents()), Cut(RollbackPlan(site, old(Contents()), transaction).ops, old(fuel)))
    {
      hide Recover, RollbackRecovered, ValidId, Do;
      ghost var entry := Contents();
      if !ValidId(transaction) { return Returned(Err(InvalidRequest)); }
      if !Loads(site, live) { return Returned(Err(UnsafeStorage)); }
      var recovered, loaded := RecoverTransaction(live);
      TookMeans(Recover(site, entry).ops);
      CutShort(Recover(site, entry).ops, RollbackRest(site, entry, transaction), old(fuel));
      assert Recover(site, entry).ops + [] == Recover(site, entry).ops;
      if recovered.Died? { return Died; }
      if recovered.result.Err? { return Returned(Err(recovered.result.error)); }
      call := RollbackAfterRecovery(loaded, recovered.result.value, transaction);
      TookMeans(RollbackPlan(site, entry, transaction).ops);
    }

    method RollbackAfterRecovery(loaded: Bytes, recovered: Recovery, transaction: string)
        returns (call: Call<RollbackAnswer>)
      requires Valid() && loaded == live
      modifies this
      ensures Took(RollbackRecovered(site, old(Contents()), recovered, transaction).ops)
      ensures call == Answer(RollbackRecovered(site, old(Contents()), recovered, transaction), old(fuel))
    {
      match recovered.completion {
        case Some(RolledBackNow(j)) =>
          if j.transaction != transaction { return Returned(Err(TransactionConflict)); }
          return Returned(Ok(RollbackAnswer(j.transaction, j.base)));
        case _ =>
      }
      if recovered.journal.None? { return Returned(Err(TransactionNotFound)); }
      var j := recovered.journal.value;
      if j.transaction != transaction { return Returned(Err(TransactionConflict)); }
      if !j.state.PendingValidation? || Sha256(loaded) != j.candidate { return Returned(Err(TransactionConflict)); }
      call := Restore(j.(state := RollingBack));
    }

    /** The tail of `rollback`, once the transaction may be rolled back. */
    method Restore(j: Journal) returns (call: Call<RollbackAnswer>)
      requires Valid()
      modifies this
      ensures Took(RestorePlan(site, old(Contents()), j).ops)
      ensures call == Answer(RestorePlan(site, old(Contents()), j), old(fuel))
    {
      var alive := Step(WriteJournal(j));
      if !alive { return Died; }
      var kept := ReadArtifact(base, j.base);
      if kept.Err? { return Returned(Err(kept.error)); }
      CutConcat([WriteJournal(j), ReplaceLive(kept.value)], CLEANUP, old(fuel));
      alive := Step(ReplaceLive(kept.value));
      if !alive { return Died; }
      if !Loads(site, live) { return Returned(Err(UnsafeStorage)); }
      if Sha256(live) != j.base { return Returned(Err(TransactionConflict)); }
      alive := CleanupTransaction();
      if !alive { return Died; }
      return Returned(Ok(RollbackAnswer(j.transaction, j.base)));
    }

    /** `prepare_service`: recover, then load what the daemon will run with. */
    method PrepareService() returns (call: Call<Bytes>)
      requires Valid()
      modifies this
      ensures Took(ServicePlan(site, old(Contents())).ops)
      ensures call == Answer(ServicePlan(site, old(Contents())), old(fuel))
      ensures Contents() == DoAll(old(Contents()), Cut(ServicePlan(site, old(Contents())).ops, old(fuel)))
    {
      hide Recover;
      ghost var entry := Contents();
      if !Loads(site, live) { return Returned(Err(UnsafeStorage)); }
      var bootstrap := live;
      var recovered, loaded := RecoverTransaction(live);
      TookMeans(Recover(site, entry).ops);
      CutShort(Recover(site, entry).ops, ServiceRest(site, entry), old(fuel));
      assert Recover(site, entry).ops + [] == Recover(site, entry).ops;
      if recovered.Died? { return Died; }
      if recovered.result.Err? { return Returned(Err(recovered.result.error)); }
      TookMeans(ServicePlan(site, entry).ops);
      loaded := live;
      if !Loads(site, loaded) { return Returned(Err(UnsafeStorage)); }
      if site.home(loaded) != site.home(bootstrap) { return Returned(Err(TransactionConflict)); }
      return Returned(Ok(loaded));
    }
  }
}
