/** What every run of the configuration transaction guarantees. */
module ConfigOutcomes {
  import opened Prelude
  import opened ConfigFiles
  import opened ConfigPlans
  import opened ConfigLedger
  import opened ConfigSafety
  import opened ConfigEdits
  import opened ConfigAnswers
  import opened RuntimeStatus
  import opened ConfigRuns
  import opened ConfigTheorems
  import opened ConfigSteps

  // ---------------------------------------------------------- crash invariant

  predicate Intact(file: Option<Bytes>, revision: ConfigRevision) {
    file.Some? && Sha256(file.value) == revision
  }

  /** What the files alone show at any instant: the live document is never a third one. */
  predicate FilesAgree(d: Disk) {
    match d.journal
    case NoJournal => true
    case Unreadable => false
    case Stored(j) =>
      match j.state
      case Prepared =>
        Intact(d.base, j.base) && Intact(d.candidate, j.candidate)
        && (Sha256(d.live) == j.base || Sha256(d.live) == j.candidate)
      case PendingValidation =>
        Intact(d.base, j.base) && Intact(d.candidate, j.candidate) && Sha256(d.live) == j.candidate
      case Committing => Sha256(d.live) == j.candidate
      case RollingBack => (Sha256(d.live) == j.candidate && Intact(d.base, j.base)) || Sha256(d.live) == j.base
  }

  /** Nobody else edited the live file while a transaction was open, up to `i`. */
  ghost predicate Undisturbed(ws: seq<World>, es: seq<Event>, i: nat)
    requires i < |ws| == |es| + 1
  {
    forall k :: 0 <= k < i && es[k].OutsideEdit? ==> ws[k].disk.journal.NoJournal?
  }

  lemma StepStaysConsistent(sys: System, w: World, e: Event)
    requires Inv(sys, w) && Enabled(sys, w, e) && Inv(sys, Apply(sys, w, e)) && Consistent(sys.site, w.ledger, w.disk)
    requires e.OutsideEdit? ==> w.disk.journal.NoJournal?
    ensures var w' := Apply(sys, w, e); Consistent(sys.site, w'.ledger, w'.disk)
  {
    hide Inv, Enabled, Apply, Consistent, Sound;
    InvParts(sys, w);
    InvParts(sys, Apply(sys, w, e));
    hide FilesHold, Exclusive, ClocksHold, DaemonsHold, StopsHold, NewerThanOpen, CommitsProven, PendingWrites,
      ReportsHold;
    OnlyStepsChangeHistory(sys, w, e);
    if e.Take? {
      CallersAreNotServing(sys, w, e.p);
    } else if e.OutsideEdit? {
      var w' := Apply(sys, w, e);
      EditIsOfLive(sys, w, e);
      FilesAreSound(sys, w');
      AcceptedIsConsistent(sys.site, w'.ledger, w'.disk);
    }
  }

  lemma EditIsOfLive(sys: System, w: World, e: Event)
    requires Enabled(sys, w, e) && e.OutsideEdit?
    ensures Apply(sys, w, e).disk == w.disk.(live := e.bytes)
  {
  }

  lemma {:induction false} UndisturbedIsConsistent(sys: System, ws: seq<World>, es: seq<Event>, i: nat)
    requires Run(sys, ws, es) && i < |ws| == |es| + 1 && Undisturbed(ws, es, i)
    ensures Consistent(sys.site, ws[i].ledger, ws[i].disk)
    decreases i
  {
    if i > 0 {
      UndisturbedIsConsistent(sys, ws, es, i - 1);
      hide Run, Inv, Enabled, Apply, Consistent;
      RunStep(sys, ws, es, i - 1);
      StepStaysConsistent(sys, ws[i-1], es[i-1]);
    }
  }

  /** While nobody else edits the live file of an open transaction, the files agree
      with their journal at every instant, recovery would succeed, and so would it
      after any number of crashes inside itself. */
  lemma CrashInvariant(sys: System, ws: seq<World>, es: seq<Event>, i: nat, fuels: seq<nat>)
    requires Run(sys, ws, es) && i < |ws| == |es| + 1 && Undisturbed(ws, es, i)
    ensures FilesAgree(ws[i].disk)
    ensures var d := ws[i].disk;
            var e := Attempts(sys.site, d, fuels);
            Recover(sys.site, e).result.Ok? && DoAll(e, Recover(sys.site, e).ops) == DoAll(d, Recover(sys.site, d).ops)
  {
    UndisturbedIsConsistent(sys, ws, es, i);
    RecoveryIsCrashProof(sys.site, ws[i].ledger, ws[i].disk, fuels);
  }

  /** Whatever edits anybody makes between calls, at every instant some live document
      would make the files agree, and while a transaction is open it names this
      directory; a recovery that works here refuses without a step exactly the live
      documents it cannot accept, and with any other the files agree and recovery is
      crash-proof. */
  lemma EditedFilesStayRecoverable(sys: System, ws: seq<World>, es: seq<Event>, i: nat, fuels: seq<nat>)
      returns (live: Bytes)
    requires Run(sys, ws, es) && i < |ws|
    ensures FilesAgree(ws[i].disk.(live := live))
    ensures ws[i].disk.journal.Stored? ==> Names(sys.site, live)
    ensures Recover(sys.site, ws[i].disk.(live := live)).result.Ok?
    ensures var d := ws[i].disk;
            && (Recover(sys.site, d).result.Ok? <==> Accepted(d))
            && (!Accepted(d) ==> Recover(sys.site, d).ops == [])
            && (Accepted(d) ==>
                  && FilesAgree(d)
                  && var e := Attempts(sys.site, d, fuels);
                     && Recover(sys.site, e).result.Ok?
                     && DoAll(e, Recover(sys.site, e).ops) == DoAll(d, Recover(sys.site, d).ops))
  {
    RunKeepsInv(sys, ws, es, i);
    var l, d := ws[i].ledger, ws[i].disk;
    FilesAreSound(sys, ws[i]);
    live :| Consistent(sys.site, l, d.(live := live));
    OpenIsNamed(sys.site, l, d.(live := live));
    hide Run, Inv, Sound, Accepted, Recover, Attempts, DoAll;
    RecoversIffAccepted(sys.site, l, d);
    AcceptedIsConsistent(sys.site, l, d);
    ConsistentAgrees(sys.site, l, d.(live := live));
    RecoveryIsSafe(sys.site, l, d.(live := live));
    if Accepted(d) {
      ConsistentAgrees(sys.site, l, d);
      RecoveryIsCrashProof(sys.site, l, d, fuels);
    }
  }

  lemma OpenIsNamed(site: Site, l: Ledger, d: Disk)
    requires Consistent(site, l, d)
    ensures d.journal.Stored? ==> Names(site, d.live)
  {
  }

  lemma ConsistentAgrees(site: Site, l: Ledger, d: Disk)
    requires Consistent(site, l, d)
    ensures FilesAgree(d)
  {
  }

  /** In a run too: a call that begins here, on a live document that names this directory
      but that recovery cannot accept, has no step to take and an error to report. */
  lemma EditFailsClosed(sys: System, ws: seq<World>, es: seq<Event>, i: nat)
    requires Run(sys, ws, es) && i < |es| && |ws| == |es| + 1 && !Accepted(ws[i].disk)
    requires es[i].BeginSet? || es[i].BeginCommit? || es[i].BeginRollback? || es[i].BeginService?
    ensures es[i].p in ws[i+1].processes && ws[i+1].processes[es[i].p].todo == []
    ensures ws[i+1].processes[es[i].p].role.Calling?
    ensures match ws[i+1].processes[es[i].p].role.report
            case SetDone(r) => r.Err?
            case CommitDone(r) => r.Err?
            case RollbackDone(r) => r.Err?
            case ServiceReady(r) => r.Err?
    ensures ws[i+1].disk == ws[i].disk && ws[i+1].ledger == ws[i].ledger
  {
    RunKeepsInv(sys, ws, es, i);
    hide Inv, Sound, Accepted, Recover, SetPlan, CommitPlan, RollbackPlan, ServicePlan;
    var d := ws[i].disk;
    InvParts(sys, ws[i]);
    FilesAreSound(sys, ws[i]);
    RecoversIffAccepted(sys.site, ws[i].ledger, d);
    match es[i]
    case BeginSet(_, r) =>
      RefusedRecoveryRefusesSet(sys.site, d, r,
                                LatestRuntimeInstance(StatusAt(ws[i], r.directory), HostHere(sys, d.live)));
    case BeginCommit(_, r) => RefusedRecoveryRefusesCommit(sys.site, d, r, StatusAt(ws[i], r.directory));
    case BeginRollback(_, t, _) => RefusedRecoveryRefusesRollback(sys.site, d, t);
    case BeginService(_, _) => RefusedRecoveryRefusesService(sys.site, d);
  }

  /** When a `set` that begins in a run succeeds, told by the files: the live document is
      one that recovery accepts, nothing is undecided, the settled revision is the
      expected one, the edit loads and keeps the paths, and, if it changes anything, the
      status file is absent or a readable one of this host. The baseline in the journal
      is then the instance in that file. */
  lemma SetInRunSucceedsIff(sys: System, ws: seq<World>, es: seq<Event>, i: nat)
    requires Run(sys, ws, es) && i < |es| && |ws| == |es| + 1 && es[i].BeginSet?
    ensures es[i].p in ws[i+1].processes && ws[i+1].processes[es[i].p].role.Calling?
            && ws[i+1].processes[es[i].p].role.report.SetDone?
    ensures var r, d, proc := es[i].install, ws[i].disk, ws[i+1].processes[es[i].p];
            var live, file := Target(ws[i].ledger, d).live, StatusAt(ws[i], r.directory);
            var candidate := BuildCandidate(sys.site, r.edit, live);
            var after := DoAll(d, proc.todo);
            && (proc.role.report.installed.Ok? <==>
                  && Accepted(d) && (d.journal.Stored? ==> !Undecided(d, d.journal.journal.transaction))
                  && Loads(sys.site, live) && r.expected == Sha256(live) && candidate.Some?
                  && (candidate.value == live || Readable(file, HostHere(sys, d.live))))
            && (proc.role.report.installed.Ok? && candidate.value != live ==>
                  && after.live == candidate.value && after.journal.Stored?
                  && after.journal.journal.baseline ==
                       if file.NoStatus? then None else Some(file.status.instance))
  {
    RunKeepsInv(sys, ws, es, i);
    InvParts(sys, ws[i]);
    FilesAreSound(sys, ws[i]);
    hide Inv, Sound, Accepted, Recover, SetPlan, Target, DoAll, BuildCandidate, Readable, LatestRuntimeInstance;
    var r, l, d := es[i].install, ws[i].ledger, ws[i].disk;
    var file, host := StatusAt(ws[i], r.directory), HostHere(sys, d.live);
    LatestReadsIff(file, host);
    AcceptedIsConsistent(sys.site, l, d);
    if Accepted(d) {
      SetSucceedsIff(sys.site, l, d, r, LatestRuntimeInstance(file, host));
    } else {
      RecoversIffAccepted(sys.site, l, d);
      RefusedRecoveryRefusesSet(sys.site, d, r, LatestRuntimeInstance(file, host));
    }
    ReadableIsWritten(file, host);
  }

  lemma ReadableIsWritten(file: StatusFile, host: string)
    ensures Readable(file, host) && !file.NoStatus? ==> file.Written?
  {
  }

  /** No two live processes share the lifecycle lock, the transaction lock or the
      lock of a runtime directory, and only one has durable steps left. */
  lemma LocksExclude(sys: System, ws: seq<World>, es: seq<Event>, i: nat, p: nat, q: nat)
    requires Run(sys, ws, es) && i < |ws|
    requires p in ws[i].processes && q in ws[i].processes && p != q
    ensures !(ws[i].processes[p].lifecycle && ws[i].processes[q].lifecycle)
    ensures !(ws[i].processes[p].config && ws[i].processes[q].config)
    ensures ws[i].processes[p].directory.None? || ws[i].processes[p].directory != ws[i].processes[q].directory
    ensures ws[i].processes[p].todo != [] ==> !ws[i].processes[q].lifecycle && ws[i].processes[q].todo == []
  {
    RunKeepsInv(sys, ws, es, i);
  }

  /** A call begins here only on a live document that names this directory, as a process
      of its own, while nobody holds one of its locks. */
  lemma CallsBeginAlone(sys: System, ws: seq<World>, es: seq<Event>, i: nat)
    requires Run(sys, ws, es) && i < |es|
    requires IsBegin(es[i])
    ensures |ws| == |es| + 1
    ensures var w, w', p := ws[i], ws[i+1], es[i].p;
            && Names(sys.site, w.disk.live) && p !in w.processes && w'.processes.Keys == w.processes.Keys + {p}
            && (es[i].BeginCommit? ==> es[i].commit.host == sys.hostOf(sys.site.home(w.disk.live).identity))
            && (forall q <- w.processes ::
                  && !w.processes[q].lifecycle && !w.processes[q].config
                  && (w'.processes[p].directory.Some? ==> w.processes[q].directory != w'.processes[p].directory))
            && w'.processes[p].lifecycle && w'.processes[p].config && w'.processes[p].role.Calling?
  {
    hide SetPlan, CommitPlan, RollbackPlan, ServicePlan, Names, LatestRuntimeInstance;
  }

  predicate IsBegin(e: Event) {
    e.BeginSet? || e.BeginCommit? || e.BeginRollback? || e.BeginService?
  }

  lemma BeginLocks(sys: System, w: World, e: Event)
    requires Enabled(sys, w, e) && IsBegin(e)
    ensures var w' := Apply(sys, w, e);
            && e.p !in w.processes && e.p in w'.processes && w'.processes == w.processes[e.p := w'.processes[e.p]]
            && w'.processes[e.p].lifecycle && w'.processes[e.p].config && w'.processes[e.p].role.Calling?
  {
    hide SetPlan, CommitPlan, RollbackPlan, ServicePlan, Names, LatestRuntimeInstance;
  }

  lemma StepLocks(sys: System, w: World, e: Event, p: nat)
    requires Enabled(sys, w, e) && !IsBegin(e) && p in Apply(sys, w, e).processes
    requires p in w.processes && w.processes[p].role.Calling? ==> w.processes[p].lifecycle
    ensures p in w.processes || (e.ForeignBoot? && e.p == p && Apply(sys, w, e).processes[p].role.Serving?)
    ensures p in w.processes ==>
              var before, after := w.processes[p], Apply(sys, w, e).processes[p];
              && after.lifecycle == before.lifecycle && after.directory == before.directory
              && (after.role.Calling? ==> before.role.Calling?)
              && after.config == (before.config && !(e.Boot? && e.p == p))
              && (e.Boot? && e.p == p ==> before.role.Calling? && after.role.Serving?)
  {
  }

  /** Whoever is in a call holds both locks of the directory. */
  lemma {:induction false} CallersHoldLocks(sys: System, ws: seq<World>, es: seq<Event>, i: nat, p: nat)
    requires Run(sys, ws, es) && i < |ws| && p in ws[i].processes
    ensures ws[i].processes[p].role.Calling? ==> ws[i].processes[p].lifecycle && ws[i].processes[p].config
    decreases i
  {
    hide Enabled, Apply;
    if i > 0 {
      var w, e := ws[i-1], es[i-1];
      if p in w.processes { CallersHoldLocks(sys, ws, es, i - 1, p); }
      if IsBegin(e) { BeginLocks(sys, w, e); } else { StepLocks(sys, w, e, p); }
    }
  }

  /** Locks are kept until the process is gone, but for the transaction lock, which a
      service start gives back when its daemon boots. */
  lemma LocksAreKept(sys: System, ws: seq<World>, es: seq<Event>, i: nat, p: nat)
    requires Run(sys, ws, es) && i < |es| && i + 1 < |ws| && p in ws[i].processes && p in ws[i+1].processes
    ensures var before, after := ws[i].processes[p], ws[i+1].processes[p];
            && after.lifecycle == before.lifecycle && after.directory == before.directory
            && after.config == (before.config && !(es[i].Boot? && es[i].p == p))
            && (es[i].Boot? && es[i].p == p ==> after.lifecycle && before.config)
  {
    hide Enabled, Apply;
    CallersHoldLocks(sys, ws, es, i, p);
    if IsBegin(es[i]) { BeginLocks(sys, ws[i], es[i]); } else { StepLocks(sys, ws[i], es[i], p); }
  }

  predicate BlankBeforeStop(r: DaemonRecord) {
    r.stopped || (!r.ready && !r.failed)
  }

  lemma StepRecords(sys: System, w: World, e: Event, instance: string)
    requires Enabled(sys, w, e) && instance in Apply(sys, w, e).daemons
    requires instance in w.daemons ==> BlankBeforeStop(w.daemons[instance])
    ensures BlankBeforeStop(Apply(sys, w, e).daemons[instance])
  {
    hide SetPlan, CommitPlan, RollbackPlan, ServicePlan, Names, LatestRuntimeInstance, Do, Note, LocksFree, IsCleanStop,
      ValidId;
  }

  /** A daemon's record says nothing of ready or error before its clean stop. */
  lemma {:induction false} RecordsAreBlankBeforeStop(sys: System, ws: seq<World>, es: seq<Event>, i: nat,
                                                     instance: string)
    requires Run(sys, ws, es) && i < |ws| && instance in ws[i].daemons
    ensures BlankBeforeStop(ws[i].daemons[instance])
    decreases i
  {
    hide Enabled, Apply, BlankBeforeStop;
    if i > 0 {
      if instance in ws[i-1].daemons { RecordsAreBlankBeforeStop(sys, ws, es, i - 1, instance); }
      StepRecords(sys, ws[i-1], es[i-1], instance);
    }
  }

  /** While a daemon of this configuration serves, the copies and the journal are
      frozen, and only somebody else's edit changes the live file. */
  lemma ServingFreezesFiles(sys: System, ws: seq<World>, es: seq<Event>, i: nat, p: nat)
    requires Run(sys, ws, es) && i < |es|
    requires IsServing(ws[i], p) && ws[i].processes[p].lifecycle
    ensures ws[i+1].disk == ws[i].disk || (es[i].OutsideEdit? && ws[i+1].disk == ws[i].disk.(live := es[i].bytes))
  {
    hide Run, Inv, Apply, Enabled;
    RunStep(sys, ws, es, i);
    OnlyStepsChangeHistory(sys, ws[i], es[i]);
    if es[i].Take? {
      if es[i].p == p {
        RunKeepsInv(sys, ws, es, i);
        ServingHasNoSteps(sys, ws[i], p);
      } else {
        LocksExclude(sys, ws, es, i, es[i].p, p);
      }
    } else if es[i].OutsideEdit? {
      EditIsOfLive(sys, ws[i], es[i]);
    }
  }

  lemma ServingHasNoSteps(sys: System, w: World, p: nat)
    requires Inv(sys, w) && IsServing(w, p)
    ensures w.processes[p].todo == []
  {
    hide Consistent, SafeFrom;
  }

  // ---------------------------------------------------------- unique outcomes

  /** Nothing history holds at `w` is different at `w'`. */
  ghost predicate Remembers(w: World, w': World) {
    && Grows(w.ledger, w'.ledger)
    && forall t <- w.begunAt :: t in w'.begunAt && w'.begunAt[t] == w.begunAt[t]
  }

  lemma EventRemembers(sys: System, w: World, e: Event)
    requires Inv(sys, w) && Enabled(sys, w, e)
    ensures Remembers(w, Apply(sys, w, e))
  {
    hide Inv, Exclusive, FilesHold, DaemonsHold, StopsHold, NewerThanOpen, CommitsProven, PendingWrites, ReportsHold;
    if e.Take? {
      TakeBeginsOnlyNew(sys, w, e.p);
      InvParts(sys, w);
    }
  }

  lemma RunStep(sys: System, ws: seq<World>, es: seq<Event>, i: nat)
    requires Run(sys, ws, es) && i < |es|
    ensures |ws| == |es| + 1
    ensures Inv(sys, ws[i]) && Inv(sys, ws[i+1])
    ensures Enabled(sys, ws[i], es[i]) && ws[i+1] == Apply(sys, ws[i], es[i])
    ensures ws[i].tick == i && ws[i+1].tick == i + 1
  {
    hide Inv, Apply, Enabled, Initial;
    RunKeepsInv(sys, ws, es, i);
    RunKeepsInv(sys, ws, es, i + 1);
    TickIsIndex(sys, ws, es, i);
    TickIsIndex(sys, ws, es, i + 1);
  }

  lemma StepRemembers(sys: System, ws: seq<World>, es: seq<Event>, i: nat)
    requires Run(sys, ws, es) && i < |es|
    ensures |ws| == |es| + 1 && Remembers(ws[i], ws[i+1])
  {
    hide Run, Inv, Apply, Enabled, Initial, Remembers;
    RunStep(sys, ws, es, i);
    EventRemembers(sys, ws[i], es[i]);
  }

  lemma {:induction false} HistoryGrows(sys: System, ws: seq<World>, es: seq<Event>, i: nat, j: nat)
    requires Run(sys, ws, es) && i <= j < |ws|
    ensures Remembers(ws[i], ws[j])
    decreases j
  {
    hide Run, Remembers;
    if i < j {
      RunLength(sys, ws, es);
      HistoryGrows(sys, ws, es, i, j - 1);
      StepRemembers(sys, ws, es, j - 1);
      RemembersIsTransitive(ws[i], ws[j-1], ws[j]);
    } else {
      RemembersItself(ws[i]);
    }
  }

  lemma RemembersIsTransitive(a: World, b: World, c: World)
    requires Remembers(a, b) && Remembers(b, c)
    ensures Remembers(a, c)
  {
  }

  lemma RemembersItself(w: World)
    ensures Remembers(w, w)
  {
  }

  lemma RunLength(sys: System, ws: seq<World>, es: seq<Event>)
    requires Run(sys, ws, es)
    ensures |ws| == |es| + 1
    ensures ws[0].ledger == Ledger(map[], map[], map[]) && ws[0].daemons == map[]
    ensures ws[0].processes == map[]
  {
    hide Apply, Enabled;
  }

  lemma {:induction false} TickIsIndex(sys: System, ws: seq<World>, es: seq<Event>, i: nat)
    requires Run(sys, ws, es) && i < |ws|
    ensures ws[i].tick == i
  {
    hide Enabled, Apply;
    if i > 0 {
      TickIsIndex(sys, ws, es, i - 1);
      EventTicks(sys, ws[i-1], es[i-1]);
    }
  }

  lemma EventTicks(sys: System, w: World, e: Event)
    requires Enabled(sys, w, e)
    ensures Apply(sys, w, e).tick == w.tick + 1
  {
  }

  /** The step of a run that wrote `t`'s prepared journal. */
  predicate Begins(w: World, e: Event, t: string) {
    && e.Take? && e.p in w.processes && w.processes[e.p].todo != []
    && var op := w.processes[e.p].todo[0];
    op.WriteJournal? && op.journal.state.Prepared? && op.journal.transaction == t
  }

  lemma BeginningIsRecorded(sys: System, w: World, e: Event, t: string)
    requires Inv(sys, w) && Enabled(sys, w, e) && Inv(sys, Apply(sys, w, e))
    requires t !in w.ledger.transactions && t in Apply(sys, w, e).ledger.transactions
    ensures var w' := Apply(sys, w, e);
            && Begins(w, e, t)
            && t in w'.begunAt && w'.begunAt[t] == w.tick
            && w'.ledger.transactions[t].base == w.disk.live
            && w.disk.candidate == Some(w'.ledger.transactions[t].candidate)
            && w.disk.base == Some(w.disk.live)
  {
    hide Inv, Enabled, Apply, Consistent, Note, Do, SafeFrom, Lawful, FilesHold, ClocksHold, DaemonsHold, StopsHold,
      NewerThanOpen, CommitsProven, PendingWrites, ReportsHold, Exclusive;
    var w' := Apply(sys, w, e);
    OnlyStepsChangeHistory(sys, w, e);
    InvParts(sys, w);
    CallersAreNotServing(sys, w, e.p);
    SafeMeansNow(sys.site, w.ledger, w.disk, w.processes[e.p].todo);
    PreparedNote(sys.site, w.ledger, w.disk, w.processes[e.p].todo[0], t);
  }

  lemma PreparedNote(site: Site, l: Ledger, d: Disk, op: FileOp, t: string)
    requires Consistent(site, Note(l, d, op), Do(d, op))
    requires t !in l.transactions && t in Note(l, d, op).transactions
    ensures op.WriteJournal? && op.journal.state.Prepared? && op.journal.transaction == t
    ensures var r := Note(l, d, op).transactions[t];
            r.base == d.live && d.candidate == Some(r.candidate) && d.base == Some(d.live)
  {
  }

  /** Only a durable step changes history, and only such a step or an outside edit a file. */
  lemma OnlyStepsChangeHistory(sys: System, w: World, e: Event)
    requires Enabled(sys, w, e)
    ensures var w' := Apply(sys, w, e);
            if e.Take? then
              && e.p in w.processes && w.processes[e.p].todo != []
              && var op := w.processes[e.p].todo[0];
              && w'.disk == Do(w.disk, op) && w'.ledger == Note(w.ledger, w.disk, op)
              && w'.begunAt == (if op.WriteJournal? && op.journal.state.Prepared?
                                then w.begunAt[op.journal.transaction := w.tick] else w.begunAt)
            else
              w'.ledger == w.ledger && w'.begunAt == w.begunAt && (e.OutsideEdit? || w'.disk == w.disk)
  {
  }

  /** A transaction's record was taken at one step of the run: its base is the live
      document of that instant. */
  lemma {:induction false} RecordIsTheInstantOfSet(sys: System, ws: seq<World>, es: seq<Event>, i: nat, t: string)
    requires Run(sys, ws, es) && i < |ws| && t in ws[i].ledger.transactions
    ensures |ws| == |es| + 1 && t in ws[i].begunAt
    ensures var a := ws[i].begunAt[t];
            && a < i && Begins(ws[a], es[a], t)
            && ws[i].ledger.transactions[t].base == ws[a].disk.live
            && ws[a].disk.candidate == Some(ws[i].ledger.transactions[t].candidate)
            && ws[a].disk.base == Some(ws[a].disk.live)
  {
    hide Run, Inv, Apply, Enabled;
    RunLength(sys, ws, es);
    RunStep(sys, ws, es, i - 1);
    if t in ws[i-1].ledger.transactions {
      RecordIsTheInstantOfSet(sys, ws, es, i - 1, t);
      HistoryGrows(sys, ws, es, i - 1, i);
    } else {
      BeginningIsRecorded(sys, ws[i-1], es[i-1], t);
    }
  }

  lemma FilesAreSoundInRun(sys: System, w: World)
    requires Inv(sys, w)
    ensures LedgerHolds(sys.site, w.ledger, w.disk) && !w.disk.journal.Unreadable?
    ensures w.disk.journal.Stored? ==>
              var j := w.disk.journal.journal;
              && (j.transaction in w.ledger.fates <==> j.state.Committing? || j.state.RollingBack?)
              && (j.state.Committing? ==> w.ledger.fates[j.transaction] == Commit)
              && (j.state.RollingBack? ==> w.ledger.fates[j.transaction] == Rollback)
  {
    hide Sound, Inv;
    InvParts(sys, w);
    FilesAreSound(sys, w);
    SoundMeans(sys.site, w.ledger, w.disk);
  }

  /** Whatever calls and crashes follow, a decided transaction keeps its decision,
      and once finished it left exactly the bytes that preceded `set`, or exactly
      the candidate bytes. */
  lemma OutcomeIsUniqueAndExact(sys: System, ws: seq<World>, es: seq<Event>, i: nat, j: nat, t: string)
    requires Run(sys, ws, es) && i <= j < |ws| && t in ws[i].ledger.fates
    ensures t in ws[j].ledger.fates && ws[j].ledger.fates[t] == ws[i].ledger.fates[t]
    ensures var d := ws[j].disk;
            Open(d, t) ==>
              d.journal.journal.state == (if ws[i].ledger.fates[t].Commit? then Committing else RollingBack)
    ensures t in ws[j].ledger.finished ==>
              t in ws[i].begunAt && ws[i].begunAt[t] < i && t in ws[i].ledger.transactions
              && ws[j].ledger.finished[t] ==
                   (if ws[i].ledger.fates[t].Commit? then ws[i].ledger.transactions[t].candidate
                    else ws[ws[i].begunAt[t]].disk.live)
    ensures t in ws[j].ledger.finished <==> !Open(ws[j].disk, t)
  {
    hide Run, Inv, Sound;
    HistoryGrows(sys, ws, es, i, j);
    RunKeepsInv(sys, ws, es, i);
    RunKeepsInv(sys, ws, es, j);
    FilesAreSoundInRun(sys, ws[i]);
    FilesAreSoundInRun(sys, ws[j]);
    RecordIsTheInstantOfSet(sys, ws, es, i, t);
  }

  /** A rollback that reports success has just left the live file as it was when
      its `set` prepared; a commit, as its candidate; and no run reports both. */
  lemma ReportedOutcomeIsReal(sys: System, ws: seq<World>, es: seq<Event>, i: nat)
    requires Run(sys, ws, es) && i < |es| && es[i].Return?
    ensures match ws[i].processes[es[i].p].role.report {
              case RollbackDone(Ok(a)) =>
                && a.transaction in ws[i].begunAt && ws[i].begunAt[a.transaction] < i
                && ws[i].disk.live == ws[ws[i].begunAt[a.transaction]].disk.live == a.restored.preimage
                && ws[i].disk.journal.NoJournal?
              case CommitDone(Ok(a)) =>
                && a.transaction in ws[i].ledger.transactions
                && ws[i].disk.live == ws[i].ledger.transactions[a.transaction].candidate == a.revision.preimage
                && ws[i].disk.journal.NoJournal?
              case _ => true
            }
  {
    RunKeepsInv(sys, ws, es, i);
    match ws[i].processes[es[i].p].role.report
    case RollbackDone(Ok(a)) => RecordIsTheInstantOfSet(sys, ws, es, i, a.transaction);
    case _ =>
  }

  lemma NeverReportedBothWays(sys: System, ws: seq<World>, es: seq<Event>, i: nat, c: CommitAnswer, r: RollbackAnswer)
    requires Run(sys, ws, es) && i < |ws|
    requires CommitDone(Ok(c)) in ws[i].reports && RollbackDone(Ok(r)) in ws[i].reports
    ensures c.transaction != r.transaction
  {
    RunKeepsInv(sys, ws, es, i);
    var a :| 0 <= a < |ws[i].reports| && ws[i].reports[a] == CommitDone(Ok(c));
    var b :| 0 <= b < |ws[i].reports| && ws[i].reports[b] == RollbackDone(Ok(r));
    assert ReportKept(ws[i].ledger, ws[i].reports[a]) && ReportKept(ws[i].ledger, ws[i].reports[b]);
  }

  // --------------------------------------------------------- proof of health

  /** Event `e` puts `instance` into service in `directory`. */
  predicate Boots(w: World, e: Event, instance: string, directory: string, revision: Option<ConfigRevision>) {
    match e
    case Boot(p, i, _) =>
      && i == instance && p in w.processes && w.processes[p].directory == Some(directory)
      && Waiting(w.processes[p]) && w.processes[p].role.report.loaded.Ok?
      && revision == Some(Sha256(w.processes[p].role.report.loaded.value))
    case ForeignBoot(_, d, i, _, r, _) => i == instance && d == directory && r == revision
    case _ => false
  }

  predicate ServesAs(w: World, p: nat, instance: string) {
    p in w.processes && w.processes[p].role.Serving? && w.processes[p].role.instance == instance
  }

  lemma BootIsRecorded(sys: System, w: World, e: Event, instance: string)
    requires Inv(sys, w) && Enabled(sys, w, e) && instance in Apply(sys, w, e).daemons
    ensures var r := Apply(sys, w, e).daemons[instance];
            if instance in w.daemons then
              r.startedAt == w.daemons[instance].startedAt && r.directory == w.daemons[instance].directory
              && r.revision == w.daemons[instance].revision
            else r.startedAt == w.tick + 1 && Boots(w, e, instance, r.directory, r.revision)
  {
    hide Inv, Exclusive, FilesHold, ReportsHold, ClocksHold, DaemonsHold, StopsHold, NewerThanOpen, CommitsProven,
      PendingWrites, Do, Note;
  }

  /** A daemon about to boot has its document from the live file, as of the last
      durable step of its service start, or of its beginning if there was none. */
  predicate HasLoaded(w: World, p: nat) {
    p in w.processes && Waiting(w.processes[p]) && w.processes[p].role.report.loaded.Ok?
  }

  lemma LoadsOrHasLoaded(sys: System, w: World, e: Event, p: nat)
    requires Inv(sys, w) && Enabled(sys, w, e) && HasLoaded(Apply(sys, w, e), p)
    ensures var w' := Apply(sys, w, e);
            || (p in w.processes && w.processes[p] == w'.processes[p])
            || (&& w'.disk.live == w'.processes[p].role.report.loaded.value
                && ((e.BeginService? && e.p == p) || e == Take(p)))
  {
    InvParts(sys, w);
    hide Inv, Exclusive, FilesHold, ClocksHold, DaemonsHold, StopsHold, NewerThanOpen, CommitsProven, PendingWrites,
      ServicePlan, Do, Note, DoAll, NoteAll, ReportHolds;
    if e.BeginService? && e.p == p {
      BeginsLoaded(sys, w, p, e.runtime);
    } else if e == Take(p) {
      TakesLoaded(w, p);
    } else {
      OnlyCallsLoad(sys, w, e, p);
    }
  }

  lemma OnlyCallsLoad(sys: System, w: World, e: Event, p: nat)
    requires Enabled(sys, w, e) && HasLoaded(Apply(sys, w, e), p)
    requires !(e.BeginService? && e.p == p) && e != Take(p)
    ensures p in w.processes && w.processes[p] == Apply(sys, w, e).processes[p]
  {
    hide SetPlan, CommitPlan, RollbackPlan, ServicePlan, Do, Note;
  }

  lemma BeginsLoaded(sys: System, w: World, p: nat, runtime: string)
    requires Inv(sys, w) && ServicePlan(sys.site, w.disk).ops == [] && ServicePlan(sys.site, w.disk).result.Ok?
    ensures ServicePlan(sys.site, w.disk).result.value == w.disk.live
  {
    hide Inv, ServicePlan, FilesHold;
    InvParts(sys, w);
    FilesAreSound(sys, w);
    ServiceBegins(sys.site, w.ledger, w.disk);
    NothingNoted(w.ledger, w.disk);
  }

  lemma TakesLoaded(w: World, p: nat)
    requires ReportsHold(w) && p in w.processes && |w.processes[p].todo| == 1
    requires w.processes[p].role.Calling? && w.processes[p].role.report.ServiceReady?
    requires w.processes[p].role.report.loaded.Ok?
    ensures Do(w.disk, w.processes[p].todo[0]).live == w.processes[p].role.report.loaded.value
  {
    var todo := w.processes[p].todo;
    hide NoteAll, Do;
    assert todo[1..] == [];
    assert DoAll(w.disk, todo) == DoAll(Do(w.disk, todo[0]), []);
  }

  /** The configuration a daemon boots with was live when its service start ended,
      under a lifecycle lock held ever since. */
  lemma {:induction false} LoadedWasLive(sys: System, ws: seq<World>, es: seq<Event>, b: nat, p: nat) returns (k: nat)
    requires Run(sys, ws, es) && b < |ws| && HasLoaded(ws[b], p)
    ensures |ws| == |es| + 1 && 0 < k <= b
    ensures ws[k].disk.live == ws[b].processes[p].role.report.loaded.value
    ensures (es[k-1].BeginService? && es[k-1].p == p) || es[k-1] == Take(p)
    ensures forall j :: k <= j <= b ==> p in ws[j].processes && ws[j].processes[p] == ws[b].processes[p]
    ensures ws[b].processes[p].lifecycle
    decreases b
  {
    hide Run, Inv, Apply, Enabled;
    RunLength(sys, ws, es);
    RunStep(sys, ws, es, b - 1);
    LoadsOrHasLoaded(sys, ws[b-1], es[b-1], p);
    WaitingHoldsLifecycle(sys, ws[b], p);
    if p in ws[b-1].processes && ws[b-1].processes[p] == ws[b].processes[p] {
      k := LoadedWasLive(sys, ws, es, b - 1, p);
    } else {
      k := b;
    }
  }

  lemma WaitingHoldsLifecycle(sys: System, w: World, p: nat)
    requires Inv(sys, w) && HasLoaded(w, p)
    ensures w.processes[p].lifecycle
  {
    hide Inv;
    InvParts(sys, w);
    CallersHoldLifecycle(sys, w, p);
  }

  lemma {:induction false} RecordedDaemonBooted(sys: System, ws: seq<World>, es: seq<Event>, i: nat, instance: string)
    requires Run(sys, ws, es) && i < |ws| && instance in ws[i].daemons
    ensures var r := ws[i].daemons[instance];
            && 0 < r.startedAt <= i && |ws| == |es| + 1
            && Boots(ws[r.startedAt-1], es[r.startedAt-1], instance, r.directory, r.revision)
  {
    hide Run, Inv, Apply, Enabled;
    RunLength(sys, ws, es);
    RunStep(sys, ws, es, i - 1);
    BootIsRecorded(sys, ws[i-1], es[i-1], instance);
    if instance in ws[i-1].daemons {
      RecordedDaemonBooted(sys, ws, es, i - 1, instance);
    }
  }

  lemma ReadyIsMarked(sys: System, w: World, e: Event, p: nat)
    requires Enabled(sys, w, e) && IsServing(Apply(sys, w, e), p) && Apply(sys, w, e).processes[p].role.ready
    ensures if e == MarkReady(p) then ServesAs(w, p, Apply(sys, w, e).processes[p].role.instance)
            else IsServing(w, p) && w.processes[p].role.ready
                 && w.processes[p].role.instance == Apply(sys, w, e).processes[p].role.instance
  {
  }

  /** A daemon that serves as ready was marked ready at some earlier step. */
  lemma {:induction false} ReadyWasMarked(sys: System, ws: seq<World>, es: seq<Event>, i: nat, p: nat) returns (m: nat)
    requires Run(sys, ws, es) && i < |ws| && IsServing(ws[i], p) && ws[i].processes[p].role.ready
    ensures |ws| == |es| + 1
    ensures m < i && es[m].MarkReady? && ServesAs(ws[m], es[m].p, ws[i].processes[p].role.instance)
  {
    hide Run, Inv, Apply, Enabled;
    RunLength(sys, ws, es);
    RunStep(sys, ws, es, i - 1);
    ReadyIsMarked(sys, ws[i-1], es[i-1], p);
    if es[i-1] == MarkReady(p) {
      m := i - 1;
    } else {
      m := ReadyWasMarked(sys, ws, es, i - 1, p);
    }
  }

  lemma StopIsRecorded(sys: System, w: World, e: Event, instance: string)
    requires Inv(sys, w) && Enabled(sys, w, e)
    requires instance in Apply(sys, w, e).daemons && Apply(sys, w, e).daemons[instance].stopped
    ensures var r := Apply(sys, w, e).daemons[instance];
            if instance in w.daemons && w.daemons[instance].stopped then r == w.daemons[instance]
            else
              && e.FinishClean? && ServesAs(w, e.p, instance)
              && w.processes[e.p].role.ready == r.ready && w.processes[e.p].role.error.Some? == r.failed
              && r.startedAt <= w.tick
  {
    InvParts(sys, w);
    hide Inv, Exclusive, FilesHold, StopsHold, NewerThanOpen, CommitsProven, PendingWrites, ReportsHold;
    if !e.FinishClean? { OnlyFinishStops(sys, w, e, instance); }
  }

  lemma OnlyFinishStops(sys: System, w: World, e: Event, instance: string)
    requires Enabled(sys, w, e) && !e.FinishClean?
    requires instance in Apply(sys, w, e).daemons && Apply(sys, w, e).daemons[instance].stopped
    ensures instance in w.daemons && w.daemons[instance] == Apply(sys, w, e).daemons[instance]
  {
  }

  /** A recorded clean stop was published at some step, by a process serving as
      that instance, with the readiness and error it then had. */
  lemma {:induction false} RecordedStopHappened(sys: System, ws: seq<World>, es: seq<Event>, i: nat, instance: string)
      returns (c: nat)
    requires Run(sys, ws, es) && i < |ws| && instance in ws[i].daemons && ws[i].daemons[instance].stopped
    ensures |ws| == |es| + 1
    ensures c < i && es[c].FinishClean? && ServesAs(ws[c], es[c].p, instance)
    ensures Enabled(sys, ws[c], es[c])
    ensures ws[c].processes[es[c].p].role.ready == ws[i].daemons[instance].ready
    ensures ws[c].processes[es[c].p].role.error.Some? == ws[i].daemons[instance].failed
    ensures ws[i].daemons[instance].startedAt <= c
    decreases i
  {
    hide Run, Inv, Apply, Enabled;
    RunLength(sys, ws, es);
    RunStep(sys, ws, es, i - 1);
    StopIsRecorded(sys, ws[i-1], es[i-1], instance);
    if instance in ws[i-1].daemons && ws[i-1].daemons[instance].stopped {
      c := RecordedStopHappened(sys, ws, es, i - 1, instance);
    } else {
      c := i - 1;
    }
  }

  /** The events that prove a committed candidate healthy: `t` was prepared at `a`;
      at `b` a daemon booted with exactly the candidate, in the directory bound to
      `t`, and if it is of this configuration, the candidate was the live document
      when it loaded it, after `a`; at `m` it was marked ready; at `c` it published a clean stop, ready and
      free of errors. */
  predicate HealthTrace(ws: seq<World>, es: seq<Event>, i: nat, t: string, instance: string, a: nat, b: nat, m: nat,
                        c: nat)
    requires i < |ws| == |es| + 1 && t in ws[i].ledger.transactions
  {
    && a < b < c < i && m < c
    && Begins(ws[a], es[a], t)
    && ws[i].ledger.transactions[t].directory.Some?
    && Boots(ws[b], es[b], instance, ws[i].ledger.transactions[t].directory.value,
             Some(Sha256(ws[i].ledger.transactions[t].candidate)))
    && (es[b].Boot? ==> exists k :: a < k <= b && ws[k].disk.live == ws[i].ledger.transactions[t].candidate)
    && es[m].MarkReady? && ServesAs(ws[m], es[m].p, instance)
    && es[c].FinishClean? && ServesAs(ws[c], es[c].p, instance)
    && ws[c].processes[es[c].p].role.ready && ws[c].processes[es[c].p].role.error.None?
  }

  /** Whenever a transaction is committing, or was ever decided or reported
      committed, such a daemon has run. */
  lemma CommitProvesHealth(sys: System, ws: seq<World>, es: seq<Event>, i: nat, t: string)
    returns (instance: string, a: nat, b: nat, m: nat, c: nat)
    requires Run(sys, ws, es) && i < |ws|
    requires || (Open(ws[i].disk, t) && ws[i].disk.journal.journal.state.Committing?)
             || (t in ws[i].ledger.fates && ws[i].ledger.fates[t].Commit?)
             || (exists answer: CommitAnswer :: CommitDone(Ok(answer)) in ws[i].reports && answer.transaction == t)
    ensures t in ws[i].ledger.transactions && HealthTrace(ws, es, i, t, instance, a, b, m, c)
  {
    hide Run, Inv, Apply, Enabled, Boots, Begins;
    RunLength(sys, ws, es);
    RunKeepsInv(sys, ws, es, i);
    CommitIsDecided(sys, ws[i], t);
    ProvenWhenCommitted(sys, ws[i], t);
    instance :| ProvenBy(ws[i], t, instance);
    RecordIsTheInstantOfSet(sys, ws, es, i, t);
    RecordedDaemonBooted(sys, ws, es, i, instance);
    a, b := ws[i].begunAt[t], ws[i].daemons[instance].startedAt - 1;
    c := RecordedStopHappened(sys, ws, es, i, instance);
    FinishingServes(sys, ws[c], es[c]);
    m := ReadyWasMarked(sys, ws, es, c, es[c].p);
    assert ServesAs(ws[c], es[c].p, instance);
    BootIsNotThatStep(ws, es, a, t, b, instance, ws[i].daemons[instance]);
    if es[b].Boot? { LoadedAfterSet(sys, ws, es, a, b, t, instance, ws[i].daemons[instance]); }
  }

  lemma LoadedAfterSet(sys: System, ws: seq<World>, es: seq<Event>, a: nat, b: nat, t: string, instance: string,
                       r: DaemonRecord)
    requires Run(sys, ws, es) && a < b < |es| && |ws| == |es| + 1 && Begins(ws[a], es[a], t)
    requires es[b].Boot? && Boots(ws[b], es[b], instance, r.directory, r.revision)
    ensures exists k :: a < k <= b && Some(Sha256(ws[k].disk.live)) == r.revision
  {
    hide Run;
    var p := es[b].p;
    var k := LoadedWasLive(sys, ws, es, b, p);
    if k <= a {
      assert Waiting(ws[a].processes[p]);
      LocksExclude(sys, ws, es, a, es[a].p, p);
    }
    assert Some(Sha256(ws[k].disk.live)) == r.revision;
  }

  lemma FinishingServes(sys: System, w: World, e: Event)
    requires Enabled(sys, w, e) && e.FinishClean?
    ensures IsServing(w, e.p)
  {
  }

  lemma ProvenWhenCommitted(sys: System, w: World, t: string)
    requires Inv(sys, w) && t in w.ledger.fates && w.ledger.fates[t].Commit?
    ensures Proven(w, t)
  {
    InvParts(sys, w);
    hide Inv, Proven;
  }

  lemma CommitIsDecided(sys: System, w: World, t: string)
    requires Inv(sys, w)
    requires || (Open(w.disk, t) && w.disk.journal.journal.state.Committing?)
             || (t in w.ledger.fates && w.ledger.fates[t].Commit?)
             || (exists answer: CommitAnswer :: CommitDone(Ok(answer)) in w.reports && answer.transaction == t)
    ensures t in w.ledger.fates && w.ledger.fates[t].Commit?
  {
    InvParts(sys, w);
    hide Inv;
    if exists answer: CommitAnswer :: CommitDone(Ok(answer)) in w.reports && answer.transaction == t {
      var answer: CommitAnswer :| CommitDone(Ok(answer)) in w.reports && answer.transaction == t;
      var k :| 0 <= k < |w.reports| && w.reports[k] == CommitDone(Ok(answer));
      assert ReportKept(w.ledger, w.reports[k]);
    }
  }

  lemma BootIsNotThatStep(ws: seq<World>, es: seq<Event>, a: nat, t: string, b: nat, instance: string, r: DaemonRecord)
    requires |ws| == |es| + 1 && a < |es| && b < |es|
    requires Begins(ws[a], es[a], t) && Boots(ws[b], es[b], instance, r.directory, r.revision)
    ensures a != b
  {
  }
}
