/** What can happen: runs go on to the end. Every call under way can finish as planned,
    and every acceptable change can be installed, proved by a daemon and committed, or
    rolled back (crates/sigil-host/src/config_management.rs:265-660). */
module ConfigProgress {
  import opened Prelude
  import opened ConfigFiles
  import opened ConfigPlans
  import opened ConfigLedger
  import opened ConfigEdits
  import opened ConfigAnswers
  import opened RuntimeStatus
  import opened ConfigRuns
  import opened ConfigSteps

  /** A run and how it goes on. */
  ghost predicate GoesOn(sys: System, ws: seq<World>, es: seq<Event>, ws': seq<World>, es': seq<Event>) {
    Run(sys, ws', es') && ws <= ws' && es <= es'
  }

  lemma OneMore(sys: System, ws: seq<World>, es: seq<Event>, e: Event) returns (ws': seq<World>, es': seq<Event>)
    requires Run(sys, ws, es) && Enabled(sys, ws[|es|], e)
    ensures |ws| == |es| + 1 && GoesOn(sys, ws, es, ws', es')
    ensures es' == es + [e] && ws'[|es'|] == Apply(sys, ws[|es|], e)
  {
    hide Run, Enabled, Apply;
    RunLength(sys, ws, es);
    RunSnoc(sys, ws, es, e);
    ws', es' := ws + [Apply(sys, ws[|es|], e)], es + [e];
  }

  lemma RunLength(sys: System, ws: seq<World>, es: seq<Event>)
    requires Run(sys, ws, es)
    ensures |ws| == |es| + 1
  {
  }

  lemma AndOn(sys: System, ws: seq<World>, es: seq<Event>, ws1: seq<World>, es1: seq<Event>, ws2: seq<World>,
              es2: seq<Event>)
    requires GoesOn(sys, ws, es, ws1, es1) && GoesOn(sys, ws1, es1, ws2, es2)
    ensures GoesOn(sys, ws, es, ws2, es2)
  {
    hide Run;
  }

  lemma TakeIs(sys: System, w: World, p: nat)
    requires p in w.processes && w.processes[p].todo != []
    ensures Enabled(sys, w, Take(p))
    ensures var w', op := Apply(sys, w, Take(p)), w.processes[p].todo[0];
            && w'.disk == Do(w.disk, op) && w'.ledger == Note(w.ledger, w.disk, op)
            && w'.processes == w.processes[p := w.processes[p].(todo := w.processes[p].todo[1..])]
            && w'.statuses == w.statuses && w'.daemons == w.daemons && w'.reports == w.reports
  {
    hide Do, Note;
  }

  lemma ReturnIs(sys: System, w: World, p: nat)
    requires p in w.processes && w.processes[p].role.Calling? && w.processes[p].todo == []
    ensures Enabled(sys, w, Return(p))
    ensures var w' := Apply(sys, w, Return(p));
            && w'.disk == w.disk && w'.ledger == w.ledger && w'.processes == w.processes - {p}
            && w'.statuses == w.statuses && w'.daemons == w.daemons
            && w'.reports == w.reports + [w.processes[p].role.report]
  {
  }

  lemma StepsUnfold(l: Ledger, d: Disk, ops: seq<FileOp>)
    ensures if ops == [] then DoAll(d, ops) == d && NoteAll(l, d, ops) == l
            else DoAll(d, ops) == DoAll(Do(d, ops[0]), ops[1..])
                 && NoteAll(l, d, ops) == NoteAll(Note(l, d, ops[0]), Do(d, ops[0]), ops[1..])
  {
    hide Do, Note;
  }

  /** Any call under way can take all the steps it has left and report as planned. */
  lemma {:induction false} CallCanFinish(sys: System, ws: seq<World>, es: seq<Event>, p: nat)
    returns (ws': seq<World>, es': seq<Event>)
    requires Run(sys, ws, es) && |ws| == |es| + 1
    requires p in ws[|es|].processes && ws[|es|].processes[p].role.Calling?
    ensures GoesOn(sys, ws, es, ws', es') && |ws'| == |es'| + 1
    ensures var w, w' := ws[|es|], ws'[|es'|];
            && w'.disk == DoAll(w.disk, w.processes[p].todo)
            && w'.ledger == NoteAll(w.ledger, w.disk, w.processes[p].todo)
            && w'.processes == w.processes - {p} && w'.reports == w.reports + [w.processes[p].role.report]
            && w'.statuses == w.statuses && w'.daemons == w.daemons
    decreases |ws[|es|].processes[p].todo|
  {
    hide Run, Enabled, Apply, DoAll, NoteAll;
    var w := ws[|es|];
    var ops := w.processes[p].todo;
    StepsUnfold(w.ledger, w.disk, ops);
    if ops == [] {
      ReturnIs(sys, w, p);
      ws', es' := OneMore(sys, ws, es, Return(p));
      RunLength(sys, ws', es');
    } else {
      TakeIs(sys, w, p);
      var ws1, es1 := OneMore(sys, ws, es, Take(p));
      RunLength(sys, ws1, es1);
      var w1 := ws1[|es1|];
      assert w1.processes - {p} == w.processes - {p};
      ws', es' := CallCanFinish(sys, ws1, es1, p);
      AndOn(sys, ws, es, ws1, es1, ws', es');
    }
  }

  predicate Quiet(w: World) {
    w.processes == map[]
  }

  /** What a call does that begins while nothing runs and goes through. */
  lemma CallGoesThrough(sys: System, ws: seq<World>, es: seq<Event>, e: Event, p: nat, ops: seq<FileOp>,
                        report: Report) returns (ws': seq<World>, es': seq<Event>)
    requires Run(sys, ws, es) && |ws| == |es| + 1 && Quiet(ws[|es|]) && Enabled(sys, ws[|es|], e)
    requires var w, w' := ws[|es|], Apply(sys, ws[|es|], e);
             && w'.disk == w.disk && w'.ledger == w.ledger && w'.statuses == w.statuses && w'.daemons == w.daemons
             && w'.reports == w.reports && w'.processes.Keys == {p}
             && w'.processes[p].todo == ops && w'.processes[p].role == Calling(report)
    ensures GoesOn(sys, ws, es, ws', es') && |ws'| == |es'| + 1
    ensures var w, w' := ws[|es|], ws'[|es'|];
            && Quiet(w') && w'.disk == DoAll(w.disk, ops) && w'.ledger == NoteAll(w.ledger, w.disk, ops)
            && w'.reports == w.reports + [report] && w'.statuses == w.statuses && w'.daemons == w.daemons
  {
    hide Run, Enabled, Apply, DoAll, NoteAll;
    var ws1, es1 := OneMore(sys, ws, es, e);
    RunLength(sys, ws1, es1);
    ws', es' := CallCanFinish(sys, ws1, es1, p);
    AndOn(sys, ws, es, ws1, es1, ws', es');
    assert ws1[|es1|].processes - {p} == map[];
  }

  lemma IdleIsConsistent(sys: System, ws: seq<World>, es: seq<Event>)
    requires Run(sys, ws, es) && |ws| == |es| + 1
    ensures Sound(sys.site, ws[|es|].ledger, ws[|es|].disk)
    ensures Accepted(ws[|es|].disk) ==> Consistent(sys.site, ws[|es|].ledger, ws[|es|].disk)
  {
    hide Run, Sound, Consistent, Accepted;
    RunKeepsInv(sys, ws, es, |es|);
    AcceptedIsConsistent(sys.site, ws[|es|].ledger, ws[|es|].disk);
  }

  lemma SetBegins(sys: System, w: World, r: SetRequest)
    requires Quiet(w) && Names(sys.site, w.disk.live) && ValidId(r.transaction)
    requires r.transaction !in w.ledger.transactions
    ensures Enabled(sys, w, BeginSet(0, r))
    ensures var plan := SetPlan(sys.site, w.disk, r,
                                LatestRuntimeInstance(StatusAt(w, r.directory), HostHere(sys, w.disk.live)));
            var w' := Apply(sys, w, BeginSet(0, r));
            && w'.disk == w.disk && w'.ledger == w.ledger && w'.statuses == w.statuses && w'.daemons == w.daemons
            && w'.reports == w.reports && w'.processes.Keys == {0}
            && w'.processes[0].todo == plan.ops && w'.processes[0].role == Calling(SetDone(plan.result))
  {
    hide SetPlan, LatestRuntimeInstance;
  }

  /** What an acceptable change asks for: no transaction open, the revision that is live,
      an edit that loads, names the same paths and changes something, and a status file
      that a baseline can be taken from. */
  predicate Acceptable(sys: System, w: World, r: SetRequest) {
    && Names(sys.site, w.disk.live) && w.disk.journal.NoJournal?
    && ValidId(r.transaction) && r.transaction !in w.ledger.transactions
    && r.expected == Sha256(w.disk.live)
    && BuildCandidate(sys.site, r.edit, w.disk.live).Some?
    && BuildCandidate(sys.site, r.edit, w.disk.live).value != w.disk.live
    && Readable(StatusAt(w, r.directory), HostHere(sys, w.disk.live))
  }

  /** The instance named in the status file that `set` looks at. */
  function BaselineFor(w: World, directory: string): Option<string> {
    match StatusAt(w, directory)
    case Written(s) => Some(s.instance)
    case _ => None
  }

  /** Every acceptable change can be installed. */
  lemma ChangeCanBeInstalled(sys: System, ws: seq<World>, es: seq<Event>, r: SetRequest)
    returns (ws': seq<World>, es': seq<Event>)
    requires Run(sys, ws, es) && |ws| == |es| + 1 && Quiet(ws[|es|]) && Acceptable(sys, ws[|es|], r)
    ensures GoesOn(sys, ws, es, ws', es') && |ws'| == |es'| + 1
    ensures var w, w' := ws[|es|], ws'[|es'|];
            var live, candidate := w.disk.live, BuildCandidate(sys.site, r.edit, w.disk.live).value;
            && Quiet(w') && w'.statuses == w.statuses && w'.daemons == w.daemons
            && w'.disk == Disk(candidate, Some(live), Some(candidate),
                               Stored(Journal(1, r.transaction, PendingValidation, sys.site.path, Sha256(live),
                                              Sha256(candidate), BaselineFor(w, r.directory), Some(r.directory))))
            && w'.reports == w.reports +
                 [SetDone(Ok(SetAnswer(Some(r.transaction), Sha256(live), Sha256(candidate), true)))]
  {
    hide Run, Enabled, Apply, DoAll, NoteAll, SetPlan, Consistent, Sound, BuildCandidate, LatestRuntimeInstance,
      Readable;
    var w := ws[|es|];
    var latest := LatestRuntimeInstance(StatusAt(w, r.directory), HostHere(sys, w.disk.live));
    LatestReadsIff(StatusAt(w, r.directory), HostHere(sys, w.disk.live));
    ReadableTells(StatusAt(w, r.directory), HostHere(sys, w.disk.live));
    IdleIsConsistent(sys, ws, es);
    SetSucceedsIff(sys.site, w.ledger, w.disk, r, latest);
    SetBegins(sys, w, r);
    var plan := SetPlan(sys.site, w.disk, r, latest);
    ws', es' := CallGoesThrough(sys, ws, es, BeginSet(0, r), 0, plan.ops, SetDone(plan.result));
  }

  lemma ReadableTells(file: StatusFile, host: string)
    requires Readable(file, host)
    ensures file.NoStatus? || file.Written?
  {
  }

  // ---------------------------------------------------------- proof and commit

  lemma ServiceBegins(sys: System, w: World, directory: string)
    requires Quiet(w) && Names(sys.site, w.disk.live)
    ensures Enabled(sys, w, BeginService(0, directory))
    ensures var plan := ServicePlan(sys.site, w.disk);
            Apply(sys, w, BeginService(0, directory)) ==
            w.(tick := w.tick + 1,
               processes := map[0 := Process(true, true, Some(directory), plan.ops,
                                             Calling(ServiceReady(plan.result)))])
  {
    hide ServicePlan;
  }

  lemma DaemonServes(sys: System, w: World, directory: string, instance: string, at: u64, loaded: Bytes)
    requires w.processes == map[0 := Process(true, true, Some(directory), [], Calling(ServiceReady(Ok(loaded))))]
    requires FreshInstance(w, instance)
    ensures Enabled(sys, w, Boot(0, instance, at))
    ensures var w' := Apply(sys, w, Boot(0, instance, at));
            && w'.disk == w.disk && w'.ledger == w.ledger && w'.reports == w.reports
            && w'.processes ==
                 map[0 := Process(true, false, Some(directory), [],
                                  Serving(instance, HostHere(sys, loaded), Some(Sha256(loaded)), Starting, false,
                                          None))]
            && Enabled(sys, w', MarkReady(0))
  {
  }

  lemma DaemonStops(sys: System, w: World, directory: string, r: Role, at: u64)
    requires r.Serving? && w.processes == map[0 := Process(true, false, Some(directory), [], r)]
    ensures Enabled(sys, w, MarkReady(0)) && Enabled(sys, w, FinishClean(0, at))
    ensures Apply(sys, w, MarkReady(0)) ==
            w.(tick := w.tick + 1,
               processes := map[0 := Process(true, false, Some(directory), [], r.(ready := true, state := Ready))])
    ensures var w' := Apply(sys, w, FinishClean(0, at));
            && w'.disk == w.disk && w'.ledger == w.ledger && w'.reports == w.reports && Quiet(w')
            && StatusAt(w', directory) ==
                 Written(PersistedStatus(r.instance, r.host, r.revision, r.ready, at, Stopped, r.error))
  {
  }

  /** A pending transaction, with the daemon's document live. */
  predicate Pending(sys: System, w: World, j: Journal) {
    && w.disk.journal == Stored(j) && j.state.PendingValidation? && Sha256(w.disk.live) == j.candidate
    && Names(sys.site, w.disk.live) && w.disk.base.Some? && w.disk.candidate.Some?
    && Sha256(w.disk.base.value) == j.base && Sha256(w.disk.candidate.value) == j.candidate
  }

  lemma PendingIsAccepted(sys: System, w: World, j: Journal)
    requires Pending(sys, w, j) && Sound(sys.site, w.ledger, w.disk)
    ensures Accepted(w.disk)
  {
    var live: Bytes :| Consistent(sys.site, w.ledger, w.disk.(live := live));
    hide LedgerHolds;
  }

  lemma PendingServiceIsPlain(sys: System, w: World, j: Journal)
    requires Pending(sys, w, j) && Consistent(sys.site, w.ledger, w.disk)
    ensures ServicePlan(sys.site, w.disk) == Plan([], Ok(w.disk.live))
  {
    hide LedgerHolds;
    StoredJournalIsValid(sys.site, w.ledger, w.disk, j);
  }

  /** While a change waits for its proof a daemon can start on it, become ready and stop
      cleanly, and its status says so. */
  lemma DaemonCanProve(sys: System, ws: seq<World>, es: seq<Event>, j: Journal, directory: string, instance: string,
                       at: u64) returns (ws': seq<World>, es': seq<Event>)
    requires Run(sys, ws, es) && |ws| == |es| + 1 && Quiet(ws[|es|]) && Pending(sys, ws[|es|], j)
    requires FreshInstance(ws[|es|], instance)
    ensures GoesOn(sys, ws, es, ws', es') && |ws'| == |es'| + 1
    ensures var w, w' := ws[|es|], ws'[|es'|];
            && Quiet(w') && w'.disk == w.disk && w'.ledger == w.ledger && w'.reports == w.reports
            && StatusAt(w', directory) ==
                 Written(PersistedStatus(instance, HostHere(sys, w.disk.live), Some(j.candidate), true, at, Stopped,
                                         None))
  {
    hide Run, Enabled, Apply, Consistent, Sound, Accepted, ServicePlan, Names, HostHere, StatusAt;
    var w := ws[|es|];
    var live := w.disk.live;
    IdleIsConsistent(sys, ws, es);
    PendingIsAccepted(sys, w, j);
    PendingServiceIsPlain(sys, w, j);
    ServiceBegins(sys, w, directory);
    var ws1, es1 := OneMore(sys, ws, es, BeginService(0, directory));
    RunLength(sys, ws1, es1);
    var w1 := ws1[|es1|];
    DaemonServes(sys, w1, directory, instance, at, live);
    var ws2, es2 := OneMore(sys, ws1, es1, Boot(0, instance, at));
    RunLength(sys, ws2, es2);
    var r := Serving(instance, HostHere(sys, live), Some(Sha256(live)), Starting, false, None);
    DaemonStops(sys, ws2[|es2|], directory, r, at);
    var ws3, es3 := OneMore(sys, ws2, es2, MarkReady(0));
    RunLength(sys, ws3, es3);
    DaemonStops(sys, ws3[|es3|], directory, r.(ready := true, state := Ready), at);
    ws', es' := OneMore(sys, ws3, es3, FinishClean(0, at));
    RunLength(sys, ws', es');
    AndOn(sys, ws, es, ws1, es1, ws2, es2);
    AndOn(sys, ws, es, ws2, es2, ws3, es3);
    AndOn(sys, ws, es, ws3, es3, ws', es');
  }

  lemma CommitBegins(sys: System, w: World, r: CommitRequest)
    requires Quiet(w) && Names(sys.site, w.disk.live) && r.host == HostHere(sys, w.disk.live)
    ensures Enabled(sys, w, BeginCommit(0, r))
    ensures var plan := CommitPlan(sys.site, w.disk, r, StatusAt(w, r.directory));
            var w' := Apply(sys, w, BeginCommit(0, r));
            && w'.disk == w.disk && w'.ledger == w.ledger && w'.statuses == w.statuses && w'.daemons == w.daemons
            && w'.reports == w.reports && w'.processes.Keys == {0}
            && w'.processes[0].todo == plan.ops && w'.processes[0].role == Calling(CommitDone(plan.result))
  {
    hide CommitPlan;
  }

  lemma RollbackBegins(sys: System, w: World, transaction: string, directory: Option<string>)
    requires Quiet(w) && Names(sys.site, w.disk.live)
    ensures Enabled(sys, w, BeginRollback(0, transaction, directory))
    ensures var plan := RollbackPlan(sys.site, w.disk, transaction);
            var w' := Apply(sys, w, BeginRollback(0, transaction, directory));
            && w'.disk == w.disk && w'.ledger == w.ledger && w'.statuses == w.statuses && w'.daemons == w.daemons
            && w'.reports == w.reports && w'.processes.Keys == {0}
            && w'.processes[0].todo == plan.ops && w'.processes[0].role == Calling(RollbackDone(plan.result))
  {
    hide RollbackPlan;
  }

  /** From every instant of every run at which nothing runs and no transaction is open,
      every acceptable change can be installed, proved by a daemon with any new instance,
      and committed in time: then exactly its candidate is left and both successes were
      reported. */
  lemma ChangeCanBeCommitted(sys: System, ws: seq<World>, es: seq<Event>, r: SetRequest, instance: string, at: u64,
                             now: u64) returns (ws': seq<World>, es': seq<Event>)
    requires Run(sys, ws, es) && |ws| == |es| + 1 && Quiet(ws[|es|]) && Acceptable(sys, ws[|es|], r)
    requires FreshInstance(ws[|es|], instance) && BaselineFor(ws[|es|], r.directory) != Some(instance)
    requires at - 5_000 <= now <= at + 10_000
    ensures GoesOn(sys, ws, es, ws', es') && |ws'| == |es'| + 1
    ensures var w, w' := ws[|es|], ws'[|es'|];
            var live, candidate := w.disk.live, BuildCandidate(sys.site, r.edit, w.disk.live).value;
            && Quiet(w') && w'.disk == Disk(candidate, None, None, NoJournal)
            && w'.reports == w.reports +
                 [SetDone(Ok(SetAnswer(Some(r.transaction), Sha256(live), Sha256(candidate), true))),
                  CommitDone(Ok(CommitAnswer(r.transaction, Sha256(candidate))))]
  {
    hide Run, Enabled, Apply, Consistent, Sound, Accepted, CommitPlan, DoAll, NoteAll, HostHere, StatusAt, ValidId,
      ValidCandidateRuntime, BuildCandidate, Readable, BaselineFor;
    var w := ws[|es|];
    var candidate := BuildCandidate(sys.site, r.edit, w.disk.live).value;
    var ws1, es1 := ChangeCanBeInstalled(sys, ws, es, r);
    CandidateNames(sys.site, r.edit, w.disk.live);
    var j := ws1[|es1|].disk.journal.journal;
    var ws2, es2 := DaemonCanProve(sys, ws1, es1, j, r.directory, instance, at);
    var w2 := ws2[|es2|];
    var commit := CommitRequest(r.transaction, instance, r.directory, HostHere(sys, candidate), now);
    CommitBegins(sys, w2, commit);
    IdleIsConsistent(sys, ws2, es2);
    PendingIsAccepted(sys, w2, j);
    StoredJournalIsValid(sys.site, w2.ledger, w2.disk, j);
    ProofIsAccepted(StatusAt(w2, r.directory), HostHere(sys, candidate), j.candidate, instance, at, now);
    CommitSucceedsIff(sys.site, w2.ledger, w2.disk, commit, StatusAt(w2, r.directory));
    var plan := CommitPlan(sys.site, w2.disk, commit, StatusAt(w2, r.directory));
    ws', es' := CallGoesThrough(sys, ws2, es2, BeginCommit(0, commit), 0, plan.ops, CommitDone(plan.result));
    AndOn(sys, ws, es, ws1, es1, ws2, es2);
    AndOn(sys, ws, es, ws2, es2, ws', es');
  }

  lemma CandidateNames(site: Site, edit: Bytes -> Option<Bytes>, live: Bytes)
    requires Names(site, live) && BuildCandidate(site, edit, live).Some?
    ensures Names(site, BuildCandidate(site, edit, live).value)
  {
  }

  lemma ProofIsAccepted(file: StatusFile, host: string, revision: ConfigRevision, instance: string, at: u64, now: u64)
    requires file == Written(PersistedStatus(instance, host, Some(revision), true, at, Stopped, None))
    requires ValidId(instance) && at - 5_000 <= now <= at + 10_000
    ensures ValidCandidateRuntime(file, host, revision, instance, now)
  {
    hide ValidId;
    EvidenceIsAFreshCleanStop(file, host, revision, instance, now);
  }

  /** And every acceptable change can be installed and taken back: then exactly the text
      from before is left. */
  lemma ChangeCanBeTakenBack(sys: System, ws: seq<World>, es: seq<Event>, r: SetRequest)
    returns (ws': seq<World>, es': seq<Event>)
    requires Run(sys, ws, es) && |ws| == |es| + 1 && Quiet(ws[|es|]) && Acceptable(sys, ws[|es|], r)
    ensures GoesOn(sys, ws, es, ws', es') && |ws'| == |es'| + 1
    ensures var w, w' := ws[|es|], ws'[|es'|];
            var live, candidate := w.disk.live, BuildCandidate(sys.site, r.edit, w.disk.live).value;
            && Quiet(w') && w'.disk == Disk(live, None, None, NoJournal)
            && w'.reports == w.reports +
                 [SetDone(Ok(SetAnswer(Some(r.transaction), Sha256(live), Sha256(candidate), true))),
                  RollbackDone(Ok(RollbackAnswer(r.transaction, Sha256(live))))]
  {
    hide Run, Enabled, Apply, Consistent, Sound, Accepted, RollbackPlan, DoAll, NoteAll, HostHere, StatusAt, ValidId,
      BuildCandidate, Readable, BaselineFor;
    var w := ws[|es|];
    var ws1, es1 := ChangeCanBeInstalled(sys, ws, es, r);
    CandidateNames(sys.site, r.edit, w.disk.live);
    var w1 := ws1[|es1|];
    var j := w1.disk.journal.journal;
    RollbackBegins(sys, w1, r.transaction, Some(r.directory));
    IdleIsConsistent(sys, ws1, es1);
    PendingIsAccepted(sys, w1, j);
    StoredJournalIsValid(sys.site, w1.ledger, w1.disk, j);
    RollbackSucceedsIff(sys.site, w1.ledger, w1.disk, r.transaction);
    var plan := RollbackPlan(sys.site, w1.disk, r.transaction);
    ws', es' := CallGoesThrough(sys, ws1, es1, BeginRollback(0, r.transaction, Some(r.directory)), 0, plan.ops,
                                RollbackDone(plan.result));
    AndOn(sys, ws, es, ws1, es1, ws', es');
  }
}
