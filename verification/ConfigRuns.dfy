/** Whole runs: management calls, daemons and crashes interleaved one durable step
    at a time over one configuration file and any number of runtime directories, as
    they are seen from one state directory. */
module ConfigRuns {
  import opened Prelude
  import opened ConfigFiles
  import opened ConfigPlans
  import opened ConfigLedger
  import opened RuntimeStatus

  /** `hostOf` gives the public identity held in each identity file. */
  datatype System = System(site: Site, hostOf: string -> string)

  /** What a process will report once its durable steps are done. */
  datatype Report =
    | SetDone(installed: Result<SetAnswer, ErrorCode>)
    | CommitDone(committed: Result<CommitAnswer, ErrorCode>)
    | RollbackDone(rolledBack: Result<RollbackAnswer, ErrorCode>)
    | ServiceReady(loaded: Result<Bytes, ErrorCode>)

  datatype Role =
    | Calling(report: Report)
    | Serving(instance: string, host: string, revision: Option<ConfigRevision>, state: DaemonState, ready: bool,
              error: Option<u64>)

  /** A live process, the locks it holds and the durable steps left of its call.
      `lifecycle` is the state directory's lock, `config` the transaction lock and
      `directory` the runtime directory whose global lock it holds. */
  datatype Process = Process(lifecycle: bool, config: bool, directory: Option<string>, todo: seq<FileOp>, role: Role)

  /** History of one daemon instance: where and when it started, what it had
      loaded, and how it was when it last published a clean stop. */
  datatype DaemonRecord = DaemonRecord(
    directory: string, revision: Option<ConfigRevision>, startedAt: nat, ready: bool, failed: bool, stopped: bool)

  datatype World = World(
    disk: Disk,
    ledger: Ledger,
    begunAt: map<string, nat>,
    statuses: map<string, StatusFile>,
    processes: map<nat, Process>,
    daemons: map<string, DaemonRecord>,
    reports: seq<Report>,
    tick: nat)

  datatype Event =
    | BeginSet(p: nat, install: SetRequest)
    | BeginCommit(p: nat, commit: CommitRequest)
    | BeginRollback(p: nat, transaction: string, directory: Option<string>)
    | BeginService(p: nat, runtime: string)
    | Take(p: nat)
    | Return(p: nat)
    | Boot(p: nat, instance: string, at: u64)
    | ForeignBoot(p: nat, runtime: string, instance: string, host: string, revision: Option<ConfigRevision>, at: u64)
    | MarkReady(p: nat)
    | MarkStopping(p: nat)
    | MarkDegraded(p: nat, at: u64)
    | Publish(p: nat, at: u64)
    | FinishClean(p: nat, at: u64)
    | Crash(p: nat)
    | StrayStatus(runtime: string, file: StatusFile)
    | WipeStatus(runtime: string)
    | OutsideEdit(bytes: Bytes)
    | Elsewhere

  /** Service start has returned and its daemon has not published yet. */
  predicate Waiting(proc: Process) {
    proc.role.Calling? && proc.todo == [] && proc.role.report.ServiceReady?
  }

  /** The public identity of the host that the live document configures. */
  function HostHere(sys: System, bytes: Bytes): string {
    sys.hostOf(sys.site.home(bytes).identity)
  }

  function StatusAt(w: World, directory: string): StatusFile {
    if directory in w.statuses then w.statuses[directory] else NoStatus
  }

  // ------------------------------------------------------------------ guards

  predicate LocksFree(w: World, p: nat, directory: Option<string>) {
    && p !in w.processes
    && forall q <- w.processes ::
         !w.processes[q].lifecycle && !w.processes[q].config
         && (directory.Some? ==> w.processes[q].directory != directory)
  }

  predicate IsServing(w: World, p: nat) {
    p in w.processes && w.processes[p].role.Serving? && w.processes[p].directory.Some?
  }

  predicate FreshInstance(w: World, instance: string) {
    ValidId(instance) && instance !in w.daemons
  }

  predicate IsCleanStop(file: StatusFile) {
    file.Written? && file.status.daemon.Stopped?
  }

  /** A call works in the state directory that the live document names: in this one,
      or elsewhere. */
  predicate Enabled(sys: System, w: World, e: Event) {
    match e
    case BeginSet(p, r) =>
      && Names(sys.site, w.disk.live) && LocksFree(w, p, Some(r.directory))
      && ValidId(r.transaction) && r.transaction !in w.ledger.transactions
    case BeginCommit(p, r) =>
      Names(sys.site, w.disk.live) && LocksFree(w, p, Some(r.directory)) && r.host == HostHere(sys, w.disk.live)
    case BeginRollback(p, _, directory) => Names(sys.site, w.disk.live) && LocksFree(w, p, directory)
    case BeginService(p, runtime) => Names(sys.site, w.disk.live) && LocksFree(w, p, Some(runtime))
    case Take(p) => p in w.processes && w.processes[p].todo != []
    case Return(p) => p in w.processes && w.processes[p].role.Calling? && w.processes[p].todo == []
    case Boot(p, instance, _) =>
      p in w.processes && w.processes[p].role.Calling? && w.processes[p].todo == []
      && w.processes[p].role.report.ServiceReady? && w.processes[p].role.report.loaded.Ok?
      && w.processes[p].directory.Some? && FreshInstance(w, instance)
    case ForeignBoot(p, runtime, instance, _, _, _) =>
      && p !in w.processes && FreshInstance(w, instance)
      && forall q <- w.processes :: w.processes[q].directory != Some(runtime)
    case MarkReady(p) => IsServing(w, p)
    case MarkStopping(p) => IsServing(w, p)
    case MarkDegraded(p, _) => IsServing(w, p)
    case Publish(p, _) => IsServing(w, p)
    case FinishClean(p, _) => IsServing(w, p)
    case Crash(p) => p in w.processes
    case StrayStatus(_, file) => !IsCleanStop(file)
    case WipeStatus(_) => true
    // Anybody may edit the live file at any time, but not in the middle of a call. A
    // call that works in another state directory is such an edit, or no concern here.
    case OutsideEdit(_) => forall q <- w.processes :: w.processes[q].role.Serving? || Waiting(w.processes[q])
    case Elsewhere => true
  }

  // ------------------------------------------------------------------- steps

  function Snapshot(r: Role, state: DaemonState, at: u64): StatusFile
    requires r.Serving?
  {
    Written(PersistedStatus(r.instance, r.host, r.revision, r.ready, at, state, r.error))
  }

  function Caller(directory: Option<string>, ops: seq<FileOp>, report: Report): Process {
    Process(true, true, directory, ops, Calling(report))
  }

  function Apply(sys: System, w: World, e: Event): World
    requires Enabled(sys, w, e)
  {
    var t := w.(tick := w.tick + 1);
    match e
    case BeginSet(p, r) =>
      var plan := SetPlan(sys.site, w.disk, r,
                          LatestRuntimeInstance(StatusAt(w, r.directory), HostHere(sys, w.disk.live)));
      t.(processes := w.processes[p := Caller(Some(r.directory), plan.ops, SetDone(plan.result))])
    case BeginCommit(p, r) =>
      var plan := CommitPlan(sys.site, w.disk, r, StatusAt(w, r.directory));
      t.(processes := w.processes[p := Caller(Some(r.directory), plan.ops, CommitDone(plan.result))])
    case BeginRollback(p, transaction, directory) =>
      var plan := RollbackPlan(sys.site, w.disk, transaction);
      t.(processes := w.processes[p := Caller(directory, plan.ops, RollbackDone(plan.result))])
    case BeginService(p, runtime) =>
      var plan := ServicePlan(sys.site, w.disk);
      t.(processes := w.processes[p := Caller(Some(runtime), plan.ops, ServiceReady(plan.result))])
    case Take(p) =>
      var op := w.processes[p].todo[0];
      t.(disk := Do(w.disk, op),
         ledger := Note(w.ledger, w.disk, op),
         begunAt := if op.WriteJournal? && op.journal.state.Prepared?
                    then w.begunAt[op.journal.transaction := w.tick] else w.begunAt,
         processes := w.processes[p := w.processes[p].(todo := w.processes[p].todo[1..])])
    case Return(p) =>
      t.(processes := w.processes - {p}, reports := w.reports + [w.processes[p].role.report])
    case Boot(p, instance, at) =>
      StartServing(t, p, Daemon(sys, w.processes[p], instance), at)
    case ForeignBoot(p, runtime, instance, host, revision, at) =>
      StartServing(t, p, Process(false, false, Some(runtime), [],
                                 Serving(instance, host, revision, Starting, false, None)), at)
    case MarkReady(p) => SetRole(t, p, w.processes[p].role.(ready := true, state := Ready))
    case MarkStopping(p) => SetRole(t, p, w.processes[p].role.(state := Stopping))
    case MarkDegraded(p, at) => SetRole(t, p, w.processes[p].role.(state := Degraded, error := Some(at)))
    case Publish(p, at) =>
      var r := w.processes[p].role;
      t.(statuses := w.statuses[w.processes[p].directory.value :=
                                Snapshot(r, if r.state.Stopped? then Starting else r.state, at)])
    case FinishClean(p, at) =>
      var r := w.processes[p].role;
      t.(statuses := w.statuses[w.processes[p].directory.value := Snapshot(r, Stopped, at)],
         daemons := if r.instance in w.daemons
                    then w.daemons[r.instance :=
                                   w.daemons[r.instance].(ready := r.ready, failed := r.error.Some?, stopped := true)]
                    else w.daemons,
         processes := w.processes - {p})
    case Crash(p) => t.(processes := w.processes - {p})
    case StrayStatus(runtime, file) => t.(statuses := w.statuses[runtime := file])
    case WipeStatus(runtime) => t.(statuses := w.statuses - {runtime})
    case OutsideEdit(bytes) => t.(disk := w.disk.(live := bytes))
    case Elsewhere => t
  }

  function SetRole(w: World, p: nat, role: Role): World
    requires p in w.processes
  {
    w.(processes := w.processes[p := w.processes[p].(role := role)])
  }

  /** The daemon that a successful service start becomes; the transaction lock is
      given back, the lifecycle lock is kept. */
  function Daemon(sys: System, proc: Process, instance: string): Process
    requires proc.role.Calling? && proc.role.report.ServiceReady? && proc.role.report.loaded.Ok?
  {
    var loaded := proc.role.report.loaded.value;
    Process(true, false, proc.directory, [],
            Serving(instance, HostHere(sys, loaded), Some(Sha256(loaded)), Starting, false, None))
  }

  /** A daemon enters service: it draws its instance and publishes its first status. */
  function StartServing(w: World, p: nat, proc: Process, at: u64): World
    requires proc.role.Serving? && proc.directory.Some?
  {
    w.(processes := w.processes[p := proc],
       daemons := w.daemons[proc.role.instance :=
         DaemonRecord(proc.directory.value, proc.role.revision, w.tick, false, false, false)],
       statuses := w.statuses[proc.directory.value := Snapshot(proc.role, proc.role.state, at)])
  }

  ghost predicate Initial(sys: System, w: World) {
    && w.disk.journal.NoJournal? && w.tick == 0
    && w.ledger == Ledger(map[], map[], map[])
    && w.begunAt == map[] && w.processes == map[] && w.daemons == map[] && w.reports == []
    && forall d <- w.statuses :: !IsCleanStop(w.statuses[d])
  }

  /** A finite run: worlds `ws` joined by events `es`. */
  ghost predicate Run(sys: System, ws: seq<World>, es: seq<Event>) {
    && |ws| == |es| + 1
    && Initial(sys, ws[0])
    && forall i :: 0 <= i < |es| ==> Enabled(sys, ws[i], es[i]) && ws[i+1] == Apply(sys, ws[i], es[i])
  }
}
