/** Whole runs over any number of state directories: calls go where the live document
    sends them. Seen from any one directory such a run is a run of ConfigRuns, in
    which calls on other directories are edits of the live file or nothing at all. */
module ConfigRealms {
  import opened Prelude
  import opened ConfigFiles
  import opened ConfigPlans
  import opened ConfigLedger
  import opened ConfigEdits
  import opened ConfigDirectories
  import opened RuntimeStatus
  import opened ConfigRuns
  import opened ConfigTheorems
  import opened ConfigSteps
  import opened ConfigOutcomes

  datatype Realms = Realms(program: Program, hostOf: string -> string)

  /** A live process and the state directory it works for, if any. */
  datatype Worker = Worker(home: Option<string>, process: Process)

  /** What the program and its files hold at one instant. `used` is every transaction
      and instance identifier recorded so far. */
  datatype Realm = Realm(
    storage: Storage,
    statuses: map<string, StatusFile>,
    workers: map<nat, Worker>,
    used: set<string>)

  function SystemAt(g: Realms, directory: string): System {
    System(SiteAt(g.program, directory), g.hostOf)
  }

  function Here(g: Realms, r: Realm): string {
    Where(g.program, r.storage)
  }

  function Status(r: Realm, runtime: string): StatusFile {
    if runtime in r.statuses then r.statuses[runtime] else NoStatus
  }

  // ------------------------------------------------------------------ guards

  /** The locks of the directory the live document names, and of the runtime directory. */
  predicate Lockable(g: Realms, r: Realm, p: nat, runtime: Option<string>) {
    && Loads(SiteAt(g.program, Here(g, r)), r.storage.live)
    && p !in r.workers
    && forall q <- r.workers ::
         && (r.workers[q].home == Some(Here(g, r)) ==>
               !r.workers[q].process.lifecycle && !r.workers[q].process.config)
         && (runtime.Some? ==> r.workers[q].process.directory != runtime)
  }

  predicate Serves(r: Realm, p: nat) {
    p in r.workers && r.workers[p].process.role.Serving? && r.workers[p].process.directory.Some?
  }

  predicate Unused(r: Realm, id: string) {
    ValidId(id) && id !in r.used
  }

  predicate Allowed(g: Realms, r: Realm, e: Event) {
    match e
    case BeginSet(p, install) => Lockable(g, r, p, Some(install.directory)) && Unused(r, install.transaction)
    case BeginCommit(p, commit) =>
      && Lockable(g, r, p, Some(commit.directory)) && Here(g, r) in r.storage.shelves
      && commit.host == HostHere(SystemAt(g, Here(g, r)), r.storage.live)
    case BeginRollback(p, _, directory) => Lockable(g, r, p, directory) && Here(g, r) in r.storage.shelves
    case BeginService(p, runtime) => Lockable(g, r, p, Some(runtime))
    case Take(p) => p in r.workers && r.workers[p].home.Some? && r.workers[p].process.todo != []
    case Return(p) => p in r.workers && r.workers[p].process.role.Calling? && r.workers[p].process.todo == []
    case Boot(p, instance, _) =>
      && p in r.workers && Waiting(r.workers[p].process) && r.workers[p].process.role.report.loaded.Ok?
      && r.workers[p].process.directory.Some? && Unused(r, instance)
    case ForeignBoot(p, runtime, instance, _, _, _) =>
      && p !in r.workers && Unused(r, instance)
      && forall q <- r.workers :: r.workers[q].process.directory != Some(runtime)
    case MarkReady(p) => Serves(r, p)
    case MarkStopping(p) => Serves(r, p)
    case MarkDegraded(p, _) => Serves(r, p)
    case Publish(p, _) => Serves(r, p)
    case FinishClean(p, _) => Serves(r, p)
    case Crash(p) => p in r.workers
    case StrayStatus(_, file) => !IsCleanStop(file)
    case WipeStatus(_) => true
    case OutsideEdit(_) => forall q <- r.workers :: !Engaged(r.workers[q].process)
    case Elsewhere => true
  }

  /** In the middle of a call. */
  predicate Engaged(proc: Process) {
    proc.role.Calling? && !Waiting(proc)
  }

  // ------------------------------------------------------------------- steps

  /** A call enters the directory that the live document names, made if missing. */
  function Enter(g: Realms, r: Realm, p: nat, proc: Process): Realm {
    r.(storage := Put(r.storage, Here(g, r), View(r.storage, Here(g, r))),
       workers := r.workers[p := Worker(Some(Here(g, r)), proc)])
  }

  function Change(r: Realm, p: nat, proc: Process): Realm
    requires p in r.workers
  {
    r.(workers := r.workers[p := r.workers[p].(process := proc)])
  }

  function Recorded(used: set<string>, op: FileOp): set<string> {
    if op.WriteJournal? && op.journal.state.Prepared? then used + {op.journal.transaction} else used
  }

  function Next(g: Realms, r: Realm, e: Event): Realm
    requires Allowed(g, r, e)
  {
    match e
    case BeginSet(p, install) =>
      var host := HostHere(SystemAt(g, Here(g, r)), r.storage.live);
      var plan := SetCall(g.program, r.storage, install, LatestRuntimeInstance(Status(r, install.directory), host));
      Enter(g, r, p, Caller(Some(install.directory), plan.ops, SetDone(plan.result)))
    case BeginCommit(p, commit) =>
      var plan := CommitCall(g.program, r.storage, commit, Status(r, commit.directory));
      Enter(g, r, p, Caller(Some(commit.directory), plan.ops, CommitDone(plan.result)))
    case BeginRollback(p, transaction, directory) =>
      var plan := RollbackCall(g.program, r.storage, transaction);
      Enter(g, r, p, Caller(directory, plan.ops, RollbackDone(plan.result)))
    case BeginService(p, runtime) =>
      var plan := ServiceCall(g.program, r.storage);
      Enter(g, r, p, Caller(Some(runtime), plan.ops, ServiceReady(plan.result)))
    case Take(p) =>
      var proc := r.workers[p].process;
      Change(r.(storage := DoIn(r.storage, r.workers[p].home.value, proc.todo[0]),
                used := Recorded(r.used, proc.todo[0])), p, proc.(todo := proc.todo[1..]))
    case Return(p) => r.(workers := r.workers - {p})
    case Boot(p, instance, at) =>
      var proc := Daemon(SystemAt(g, Here(g, r)), r.workers[p].process, instance);
      Change(Announce(r, instance, proc.directory.value, Snapshot(proc.role, Starting, at)), p, proc)
    case ForeignBoot(p, runtime, instance, host, revision, at) =>
      var proc := Process(false, false, Some(runtime), [], Serving(instance, host, revision, Starting, false, None));
      var r1 := Announce(r, instance, runtime, Snapshot(proc.role, Starting, at));
      r1.(workers := r.workers[p := Worker(None, proc)])
    case MarkReady(p) => ChangeRole(r, p, r.workers[p].process.role.(ready := true, state := Ready))
    case MarkStopping(p) => ChangeRole(r, p, r.workers[p].process.role.(state := Stopping))
    case MarkDegraded(p, at) => ChangeRole(r, p, r.workers[p].process.role.(state := Degraded, error := Some(at)))
    case Publish(p, at) =>
      var role := r.workers[p].process.role;
      r.(statuses := r.statuses[r.workers[p].process.directory.value :=
                                Snapshot(role, if role.state.Stopped? then Starting else role.state, at)])
    case FinishClean(p, at) =>
      var proc := r.workers[p].process;
      r.(statuses := r.statuses[proc.directory.value := Snapshot(proc.role, Stopped, at)],
         workers := r.workers - {p})
    case Crash(p) => r.(workers := r.workers - {p})
    case StrayStatus(runtime, file) => r.(statuses := r.statuses[runtime := file])
    case WipeStatus(runtime) => r.(statuses := r.statuses - {runtime})
    case OutsideEdit(bytes) => r.(storage := r.storage.(live := bytes))
    case Elsewhere => r
  }

  /** A daemon's first status, under an instance now used. */
  function Announce(r: Realm, instance: string, runtime: string, file: StatusFile): Realm {
    r.(statuses := r.statuses[runtime := file], used := r.used + {instance})
  }

  function ChangeRole(r: Realm, p: nat, role: Role): Realm
    requires p in r.workers
  {
    Change(r, p, r.workers[p].process.(role := role))
  }

  ghost predicate Opening(r: Realm) {
    && (forall a <- r.storage.shelves :: r.storage.shelves[a].journal.NoJournal?)
    && r.workers == map[] && r.used == {}
    && forall d <- r.statuses :: !IsCleanStop(r.statuses[d])
  }

  ghost predicate Reign(g: Realms, rs: seq<Realm>, es: seq<Event>) {
    && |rs| == |es| + 1
    && Opening(rs[0])
    && forall i :: 0 <= i < |es| ==> Allowed(g, rs[i], es[i]) && rs[i+1] == Next(g, rs[i], es[i])
  }

  // --------------------------------------------------- seen from one directory

  /** A daemon is seen from everywhere, but its lifecycle lock only in its own directory;
      a call only in the directory it works in. */
  predicate Visible(w: Worker, directory: string) {
    w.home == Some(directory) || w.process.role.Serving?
  }

  function Appearance(w: Worker, directory: string): Process {
    if w.home == Some(directory) then w.process else w.process.(lifecycle := false, config := false)
  }

  function ProcessesAt(r: Realm, directory: string): map<nat, Process> {
    map p | p in r.workers && Visible(r.workers[p], directory) :: Appearance(r.workers[p], directory)
  }

  /** The world of ConfigRuns that shows `r` as it is seen from `directory`. */
  ghost predicate Sees(r: Realm, directory: string, w: World) {
    && w.disk == View(r.storage, directory)
    && w.statuses == r.statuses
    && w.processes == ProcessesAt(r, directory)
    && w.daemons.Keys <= r.used
    && w.ledger.transactions.Keys <= r.used
  }

  /** What an event is for `directory`. */
  function Translate(g: Realms, r: Realm, e: Event, directory: string): Event
    requires Allowed(g, r, e)
  {
    match e
    case BeginSet(_, _) => if Here(g, r) == directory then e else Elsewhere
    case BeginCommit(_, _) => if Here(g, r) == directory then e else Elsewhere
    case BeginRollback(_, _, _) => if Here(g, r) == directory then e else Elsewhere
    case BeginService(_, _) => if Here(g, r) == directory then e else Elsewhere
    case Take(p) =>
      if r.workers[p].home == Some(directory) then e
      else if r.workers[p].process.todo[0].ReplaceLive? then OutsideEdit(r.workers[p].process.todo[0].bytes)
      else Elsewhere
    case Return(p) => if r.workers[p].home == Some(directory) then e else Elsewhere
    case Boot(p, instance, at) =>
      if r.workers[p].home == Some(directory) then e
      else
        var proc := Daemon(SystemAt(g, directory), r.workers[p].process, instance);
        ForeignBoot(p, proc.directory.value, instance, proc.role.host, proc.role.revision, at)
    case Crash(p) => if Visible(r.workers[p], directory) then e else Elsewhere
    case _ => e
  }

  // --------------------------------------------------------------- invariant

  /** A daemon has no steps left; whoever is in the middle of a call works in the
      directory that the live document names. */
  predicate Fits(w: Worker, here: string) {
    && (w.process.role.Calling? ==> w.home.Some?)
    && (w.process.role.Serving? ==> w.process.todo == [])
    && (Engaged(w.process) ==> w.home == Some(here))
  }

  /** No runtime directory has two holders, and every worker fits. */
  ghost predicate Orderly(g: Realms, r: Realm) {
    && (forall p, q | p in r.workers && q in r.workers && p != q ::
          r.workers[p].process.directory.None? || r.workers[p].process.directory != r.workers[q].process.directory)
    && (forall p <- r.workers :: Fits(r.workers[p], Here(g, r)))
  }

  // -------------------------------------------------------------- simulation

  lemma SeenProcess(r: Realm, directory: string, w: World, p: nat)
    requires Sees(r, directory, w)
    ensures p in w.processes <==> p in r.workers && Visible(r.workers[p], directory)
    ensures p in w.processes ==> w.processes[p] == Appearance(r.workers[p], directory)
  {
  }

  lemma WorkerSet(r: Realm, r': Realm, directory: string, p: nat, worker: Worker)
    requires r'.workers == r.workers[p := worker]
    ensures ProcessesAt(r', directory) ==
            if Visible(worker, directory) then ProcessesAt(r, directory)[p := Appearance(worker, directory)]
            else ProcessesAt(r, directory) - {p}
  {
  }

  lemma WorkerGone(r: Realm, r': Realm, directory: string, p: nat)
    requires r'.workers == r.workers - {p}
    ensures ProcessesAt(r', directory) == ProcessesAt(r, directory) - {p}
  {
  }

  lemma Hidden(r: Realm, directory: string, p: nat)
    requires p in r.workers ==> !Visible(r.workers[p], directory)
    ensures ProcessesAt(r, directory) - {p} == ProcessesAt(r, directory)
  {
  }

  lemma Shown(r: Realm, directory: string, p: nat)
    requires p in r.workers && Visible(r.workers[p], directory)
    ensures p in ProcessesAt(r, directory) && ProcessesAt(r, directory)[p] == Appearance(r.workers[p], directory)
  {
  }

  lemma NobodyNew(r: Realm, directory: string, p: nat)
    requires p !in r.workers
    ensures p !in ProcessesAt(r, directory) && ProcessesAt(r, directory) - {p} == ProcessesAt(r, directory)
  {
  }

  /** A runtime directory that no worker but `p` holds, no process seen but `p` holds. */
  lemma RuntimeFree(r: Realm, directory: string, p: nat, runtime: string)
    requires forall q <- r.workers | q != p :: r.workers[q].process.directory != Some(runtime)
    ensures forall q <- ProcessesAt(r, directory) | q != p ::
              ProcessesAt(r, directory)[q].directory != Some(runtime)
  {
  }

  lemma LocksSeenFree(g: Realms, r: Realm, p: nat, runtime: Option<string>, w: World)
    requires Lockable(g, r, p, runtime) && Sees(r, Here(g, r), w)
    ensures LocksFree(w, p, runtime) && Names(SiteAt(g.program, Here(g, r)), w.disk.live)
  {
  }

  lemma EnterKeepsViews(s: Storage, home: string, directory: string)
    ensures View(Put(s, home, View(s, home)), directory) == View(s, directory)
  {
  }

  lemma StepViews(s: Storage, home: string, op: FileOp, directory: string)
    ensures View(DoIn(s, home, op), directory) ==
            if home == directory then Do(View(s, directory), op)
            else if op.ReplaceLive? then View(s, directory).(live := op.bytes)
            else View(s, directory)
  {
  }

  predicate IsCall(e: Event) {
    e.BeginSet? || e.BeginCommit? || e.BeginRollback? || e.BeginService?
  }

  /** A call that begins is seen in its directory as it is, and elsewhere not at all. */
  lemma BeginSees(g: Realms, r: Realm, e: Event, directory: string, w: World)
    requires Allowed(g, r, e) && Sees(r, directory, w) && IsCall(e)
    ensures var f, sys := Translate(g, r, e, directory), SystemAt(g, directory);
            Enabled(sys, w, f) && Sees(Next(g, r, e), directory, Apply(sys, w, f))
  {
    hide SetPlan, CommitPlan, RollbackPlan, ServicePlan, ValidId, ProcessesAt, LocksFree, Lockable, View, Put, Loads,
      HostHere;
    var r' := Next(g, r, e);
    EnterKeepsViews(r.storage, Here(g, r), directory);
    WorkerSet(r, r', directory, e.p, r'.workers[e.p]);
    if Here(g, r) == directory {
      BeginSeenHere(g, r, e, w);
    } else {
      NotThere(g, r, e);
      NobodyNew(r, directory, e.p);
    }
  }

  lemma NotThere(g: Realms, r: Realm, e: Event)
    requires Allowed(g, r, e) && IsCall(e)
    ensures e.p !in r.workers
  {
  }

  lemma BeginSeenHere(g: Realms, r: Realm, e: Event, w: World)
    requires Allowed(g, r, e) && IsCall(e) && Sees(r, Here(g, r), w)
    ensures Enabled(SystemAt(g, Here(g, r)), w, e)
    ensures var w' := Apply(SystemAt(g, Here(g, r)), w, e);
            w'.processes == w.processes[e.p := Next(g, r, e).workers[e.p].process]
  {
    hide SetPlan, CommitPlan, RollbackPlan, ServicePlan, ValidId, ProcessesAt, LocksFree, Lockable, Put, Loads;
    match e
    case BeginSet(p, install) => LocksSeenFree(g, r, p, Some(install.directory), w);
    case BeginCommit(p, commit) => LocksSeenFree(g, r, p, Some(commit.directory), w);
    case BeginRollback(p, _, runtime) => LocksSeenFree(g, r, p, runtime, w);
    case BeginService(p, runtime) => LocksSeenFree(g, r, p, Some(runtime), w);
  }

  /** A step in another directory is an edit of the live file, or unseen. */
  lemma TakeSees(g: Realms, r: Realm, p: nat, directory: string, w: World)
    requires Orderly(g, r) && Allowed(g, r, Take(p)) && Sees(r, directory, w)
    ensures var f, sys := Translate(g, r, Take(p), directory), SystemAt(g, directory);
            Enabled(sys, w, f) && Sees(Next(g, r, Take(p)), directory, Apply(sys, w, f))
  {
    hide ProcessesAt, View, Do, Orderly;
    var r', op := Next(g, r, Take(p)), r.workers[p].process.todo[0];
    StepViews(r.storage, r.workers[p].home.value, op, directory);
    WorkerSet(r, r', directory, p, r'.workers[p]);
    TakerCalls(g, r, p);
    if r.workers[p].home == Some(directory) {
      Shown(r, directory, p);
    } else {
      Hidden(r, directory, p);
      OthersWait(g, r, p, directory);
    }
  }

  lemma TakerCalls(g: Realms, r: Realm, p: nat)
    requires Orderly(g, r) && p in r.workers && r.workers[p].process.todo != []
    ensures r.workers[p].process.role.Calling? && Engaged(r.workers[p].process)
    ensures r.workers[p].home == Some(Here(g, r))
  {
  }

  /** While a call in one directory has steps left, nobody is in the middle of a call
      in another. */
  lemma OthersWait(g: Realms, r: Realm, p: nat, directory: string)
    requires Orderly(g, r) && p in r.workers && Engaged(r.workers[p].process) && r.workers[p].home != Some(directory)
    ensures forall q <- ProcessesAt(r, directory) ::
              ProcessesAt(r, directory)[q].role.Serving? || Waiting(ProcessesAt(r, directory)[q])
  {
  }

  lemma BootSees(g: Realms, r: Realm, p: nat, instance: string, at: u64, directory: string, w: World)
    requires Orderly(g, r) && Allowed(g, r, Boot(p, instance, at)) && Sees(r, directory, w)
    ensures var f, sys := Translate(g, r, Boot(p, instance, at), directory), SystemAt(g, directory);
            Enabled(sys, w, f) && Sees(Next(g, r, Boot(p, instance, at)), directory, Apply(sys, w, f))
  {
    hide ProcessesAt, View, Orderly, ValidId;
    var r' := Next(g, r, Boot(p, instance, at));
    WorkerSet(r, r', directory, p, r'.workers[p]);
    if r.workers[p].home == Some(directory) {
      Shown(r, directory, p);
    } else {
      Hidden(r, directory, p);
      RuntimeIsItsOwn(g, r, p);
      RuntimeFree(r, directory, p, r.workers[p].process.directory.value);
    }
  }

  lemma RuntimeIsItsOwn(g: Realms, r: Realm, p: nat)
    requires Orderly(g, r) && p in r.workers && r.workers[p].process.directory.Some?
    ensures forall q <- r.workers | q != p :: r.workers[q].process.directory != r.workers[p].process.directory
  {
  }

  lemma ForeignBootSees(g: Realms, r: Realm, e: Event, directory: string, w: World)
    requires Allowed(g, r, e) && Sees(r, directory, w) && e.ForeignBoot?
    ensures Enabled(SystemAt(g, directory), w, e)
    ensures Sees(Next(g, r, e), directory, Apply(SystemAt(g, directory), w, e))
  {
    hide ProcessesAt, View, ValidId;
    var r' := Next(g, r, e);
    WorkerSet(r, r', directory, e.p, r'.workers[e.p]);
    NobodyNew(r, directory, e.p);
    RuntimeFree(r, directory, e.p, e.runtime);
  }

  lemma MarkSees(g: Realms, r: Realm, e: Event, directory: string, w: World)
    requires Allowed(g, r, e) && Sees(r, directory, w) && (e.MarkReady? || e.MarkStopping? || e.MarkDegraded?)
    ensures Enabled(SystemAt(g, directory), w, e)
    ensures Sees(Next(g, r, e), directory, Apply(SystemAt(g, directory), w, e))
  {
    hide ProcessesAt, View;
    var r' := Next(g, r, e);
    WorkerSet(r, r', directory, e.p, r'.workers[e.p]);
    Shown(r, directory, e.p);
  }

  lemma PublishSees(g: Realms, r: Realm, e: Event, directory: string, w: World)
    requires Allowed(g, r, e) && Sees(r, directory, w) && (e.Publish? || e.FinishClean?)
    ensures Enabled(SystemAt(g, directory), w, e)
    ensures Sees(Next(g, r, e), directory, Apply(SystemAt(g, directory), w, e))
  {
    hide ProcessesAt, View;
    var r' := Next(g, r, e);
    Shown(r, directory, e.p);
    if e.FinishClean? { WorkerGone(r, r', directory, e.p); } else { SameWorkers(r, r', directory); }
  }

  lemma LeaveSees(g: Realms, r: Realm, e: Event, directory: string, w: World)
    requires Allowed(g, r, e) && Sees(r, directory, w) && (e.Return? || e.Crash?)
    ensures var f, sys := Translate(g, r, e, directory), SystemAt(g, directory);
            Enabled(sys, w, f) && Sees(Next(g, r, e), directory, Apply(sys, w, f))
  {
    hide ProcessesAt, View;
    WorkerGone(r, Next(g, r, e), directory, e.p);
    if Visible(r.workers[e.p], directory) { Shown(r, directory, e.p); } else { Hidden(r, directory, e.p); }
  }

  lemma SameWorkers(r: Realm, r': Realm, directory: string)
    requires r'.workers == r.workers
    ensures ProcessesAt(r', directory) == ProcessesAt(r, directory)
  {
  }

  lemma NobodyEngaged(r: Realm, directory: string)
    requires forall q <- r.workers :: !Engaged(r.workers[q].process)
    ensures forall q <- ProcessesAt(r, directory) ::
              ProcessesAt(r, directory)[q].role.Serving? || Waiting(ProcessesAt(r, directory)[q])
  {
  }

  lemma OutsideSees(g: Realms, r: Realm, e: Event, directory: string, w: World)
    requires Allowed(g, r, e) && Sees(r, directory, w)
    requires e.StrayStatus? || e.WipeStatus? || e.OutsideEdit? || e.Elsewhere?
    ensures Enabled(SystemAt(g, directory), w, e)
    ensures Sees(Next(g, r, e), directory, Apply(SystemAt(g, directory), w, e))
  {
    hide ProcessesAt;
    SameWorkers(r, Next(g, r, e), directory);
    if e.OutsideEdit? { NobodyEngaged(r, directory); }
  }

  /** One event of the whole, one event of each directory. */
  lemma EventSees(g: Realms, r: Realm, e: Event, directory: string, w: World)
    requires Orderly(g, r) && Allowed(g, r, e) && Sees(r, directory, w)
    ensures var f, sys := Translate(g, r, e, directory), SystemAt(g, directory);
            Enabled(sys, w, f) && Sees(Next(g, r, e), directory, Apply(sys, w, f))
  {
    hide Allowed, Sees, Enabled, Apply, Next, Orderly;
    match e
    case BeginSet(_, _) => BeginSees(g, r, e, directory, w);
    case BeginCommit(_, _) => BeginSees(g, r, e, directory, w);
    case BeginRollback(_, _, _) => BeginSees(g, r, e, directory, w);
    case BeginService(_, _) => BeginSees(g, r, e, directory, w);
    case Take(p) => TakeSees(g, r, p, directory, w);
    case Return(_) => LeaveSees(g, r, e, directory, w);
    case Boot(p, instance, at) => BootSees(g, r, p, instance, at, directory, w);
    case ForeignBoot(_, _, _, _, _, _) => ForeignBootSees(g, r, e, directory, w);
    case MarkReady(_) => MarkSees(g, r, e, directory, w);
    case MarkStopping(_) => MarkSees(g, r, e, directory, w);
    case MarkDegraded(_, _) => MarkSees(g, r, e, directory, w);
    case Publish(_, _) => PublishSees(g, r, e, directory, w);
    case FinishClean(_, _) => PublishSees(g, r, e, directory, w);
    case Crash(_) => LeaveSees(g, r, e, directory, w);
    case StrayStatus(_, _) => OutsideSees(g, r, e, directory, w);
    case WipeStatus(_) => OutsideSees(g, r, e, directory, w);
    case OutsideEdit(_) => OutsideSees(g, r, e, directory, w);
    case Elsewhere => OutsideSees(g, r, e, directory, w);
  }

  // ------------------------------------------------------------------- order

  /** A call replaces the live file only by documents that name its own directory. */
  lemma TakeStaysHome(sys: System, w: World, p: nat)
    requires Inv(sys, w) && Enabled(sys, w, Take(p)) && w.processes[p].todo[0].ReplaceLive?
    ensures Names(sys.site, w.processes[p].todo[0].bytes)
  {
    hide Inv, Consistent, SafeFrom;
    InvParts(sys, w);
    CallersAreNotServing(sys, w, p);
    SafeMeansNow(sys.site, w.ledger, w.disk, w.processes[p].todo);
    ReplacedIsNamed(sys.site, w.ledger, w.disk, w.processes[p].todo[0]);
  }

  lemma ReplacedIsNamed(site: Site, l: Ledger, d: Disk, op: FileOp)
    requires op.ReplaceLive? && Lawful(l, d, op) && Consistent(site, Note(l, d, op), Do(d, op))
    ensures Names(site, op.bytes)
  {
  }

  lemma WorkerKeepsOrder(g: Realms, r: Realm, r': Realm, p: nat, worker: Worker)
    requires Orderly(g, r) && r'.workers == r.workers[p := worker] && Fits(worker, Here(g, r'))
    requires Here(g, r') == Here(g, r)
    requires worker.process.directory.Some? ==>
               forall q <- r.workers | q != p :: r.workers[q].process.directory != worker.process.directory
    ensures Orderly(g, r')
  {
    hide Fits;
  }

  lemma FewerKeepOrder(g: Realms, r: Realm, r': Realm, gone: set<nat>)
    requires Orderly(g, r) && r'.workers == r.workers - gone
    requires Here(g, r') == Here(g, r) || forall q <- r.workers :: !Engaged(r.workers[q].process)
    ensures Orderly(g, r')
  {
  }

  lemma CallKeepsOrder(g: Realms, r: Realm, e: Event)
    requires Orderly(g, r) && Allowed(g, r, e) && IsCall(e)
    ensures Orderly(g, Next(g, r, e))
  {
    hide Orderly, SetPlan, CommitPlan, RollbackPlan, ServicePlan, ValidId, Loads, HostHere;
    var r' := Next(g, r, e);
    WorkerKeepsOrder(g, r, r', e.p, r'.workers[e.p]);
  }

  lemma TakeKeepsOrder(g: Realms, r: Realm, p: nat, w: World)
    requires Orderly(g, r) && Allowed(g, r, Take(p))
    requires Sees(r, r.workers[p].home.value, w) && Inv(SystemAt(g, r.workers[p].home.value), w)
    ensures Orderly(g, Next(g, r, Take(p)))
  {
    hide Orderly, Inv, View, ProcessesAt, Do;
    var r', home, op := Next(g, r, Take(p)), r.workers[p].home.value, r.workers[p].process.todo[0];
    TakerCalls(g, r, p);
    TakeSees(g, r, p, home, w);
    Shown(r, home, p);
    LiveAfter(r.storage, home, op);
    if op.ReplaceLive? { TakeStaysHome(SystemAt(g, home), w, p); }
    if r.workers[p].process.directory.Some? { RuntimeIsItsOwn(g, r, p); }
    WorkerKeepsOrder(g, r, r', p, r'.workers[p]);
  }

  lemma LiveAfter(s: Storage, home: string, op: FileOp)
    ensures DoIn(s, home, op).live == if op.ReplaceLive? then op.bytes else s.live
  {
  }

  lemma ServeKeepsOrder(g: Realms, r: Realm, e: Event)
    requires Orderly(g, r) && Allowed(g, r, e)
    requires e.Boot? || e.ForeignBoot? || e.MarkReady? || e.MarkStopping? || e.MarkDegraded?
    ensures Orderly(g, Next(g, r, e))
  {
    hide Orderly, ValidId, HostHere;
    var r' := Next(g, r, e);
    if !e.ForeignBoot? { WorkerFits(g, r, e.p); }
    if !e.ForeignBoot? && r.workers[e.p].process.directory.Some? { RuntimeIsItsOwn(g, r, e.p); }
    WorkerKeepsOrder(g, r, r', e.p, r'.workers[e.p]);
  }

  lemma WorkerFits(g: Realms, r: Realm, p: nat)
    requires Orderly(g, r) && p in r.workers
    ensures Fits(r.workers[p], Here(g, r))
  {
  }

  lemma RestKeepsOrder(g: Realms, r: Realm, e: Event)
    requires Orderly(g, r) && Allowed(g, r, e)
    requires e.Return? || e.Publish? || e.FinishClean? || e.Crash? || e.StrayStatus? || e.WipeStatus? || e.OutsideEdit?
             || e.Elsewhere?
    ensures Orderly(g, Next(g, r, e))
  {
    hide Orderly;
    FewerKeepOrder(g, r, Next(g, r, e), if e.Return? || e.FinishClean? || e.Crash? then {e.p} else {});
  }

  // -------------------------------------------------------------------- runs

  /** The worlds in which one directory's history is told. */
  ghost predicate Tells(g: Realms, rs: seq<Realm>, es: seq<Event>, n: nat, directory: string, ws: seq<World>,
                        fs: seq<Event>)
    requires n < |rs| == |es| + 1
  {
    && |fs| == n && |ws| == n + 1
    && Run(SystemAt(g, directory), ws, fs)
    && (forall i :: 0 <= i <= n ==> Sees(rs[i], directory, ws[i]))
    && (forall i :: 0 <= i < n ==> Allowed(g, rs[i], es[i]) && fs[i] == Translate(g, rs[i], es[i], directory))
  }

  lemma OpeningSees(g: Realms, r: Realm, directory: string) returns (w: World)
    requires Opening(r)
    ensures Initial(SystemAt(g, directory), w) && Sees(r, directory, w) && Orderly(g, r)
  {
    w := World(View(r.storage, directory), Ledger(map[], map[], map[]), map[], r.statuses, map[], map[], [], 0);
    assert ProcessesAt(r, directory) == map[];
  }

  lemma ReignStep(g: Realms, rs: seq<Realm>, es: seq<Event>, i: nat)
    requires Reign(g, rs, es)
    ensures |rs| == |es| + 1 && Opening(rs[0])
    ensures i < |es| ==> Allowed(g, rs[i], es[i]) && rs[i+1] == Next(g, rs[i], es[i])
  {
    hide Opening, Allowed, Next;
  }

  /** Seen from any directory, a run over all of them is a run of the single-directory
      system: every theorem on those runs holds of each directory here. */
  lemma {:induction false} EveryDirectoryTells(g: Realms, rs: seq<Realm>, es: seq<Event>, n: nat, directory: string)
    returns (ws: seq<World>, fs: seq<Event>)
    requires Reign(g, rs, es) && n < |rs|
    ensures |rs| == |es| + 1 && Tells(g, rs, es, n, directory, ws, fs)
    decreases n, 0
  {
    hide Reign, Opening, Run, Sees, Allowed, Next, Translate, Enabled, Apply, Orderly, Initial;
    ReignStep(g, rs, es, if n == 0 then 0 else n - 1);
    if n == 0 {
      var w := OpeningSees(g, rs[0], directory);
      ws, fs := [w], [];
      RunOfOne(SystemAt(g, directory), w);
    } else {
      ws, fs := EveryDirectoryTells(g, rs, es, n - 1, directory);
      KeepsOrder(g, rs, es, n - 1);
      EventSees(g, rs[n-1], es[n-1], directory, ws[n-1]);
      var f := Translate(g, rs[n-1], es[n-1], directory);
      RunSnoc(SystemAt(g, directory), ws, fs, f);
      ws, fs := ws + [Apply(SystemAt(g, directory), ws[n-1], f)], fs + [f];
    }
  }

  lemma RunOfOne(sys: System, w: World)
    requires Initial(sys, w)
    ensures Run(sys, [w], [])
  {
  }

  /** At every instant every call under way works in the directory the live document
      then names. */
  lemma {:induction false} KeepsOrder(g: Realms, rs: seq<Realm>, es: seq<Event>, n: nat)
    requires Reign(g, rs, es) && n < |rs|
    ensures Orderly(g, rs[n])
    decreases n, 1
  {
    hide Reign, Opening, Run, Sees, Allowed, Next, Enabled, Apply, Orderly, Initial, Inv;
    ReignStep(g, rs, es, if n == 0 then 0 else n - 1);
    if n == 0 {
      var w := OpeningSees(g, rs[0], "");
    } else {
      KeepsOrder(g, rs, es, n - 1);
      var r, e := rs[n-1], es[n-1];
      if e.Take? {
        TakerHasHome(g, r, e.p);
        var home := r.workers[e.p].home.value;
        var ws, fs := EveryDirectoryTells(g, rs, es, n - 1, home);
        RunKeepsInv(SystemAt(g, home), ws, fs, n - 1);
        TakeKeepsOrder(g, r, e.p, ws[n-1]);
      } else if IsCall(e) {
        CallKeepsOrder(g, r, e);
      } else if e.Boot? || e.ForeignBoot? || e.MarkReady? || e.MarkStopping? || e.MarkDegraded? {
        ServeKeepsOrder(g, r, e);
      } else {
        RestKeepsOrder(g, r, e);
      }
    }
  }

  lemma TakerHasHome(g: Realms, r: Realm, p: nat)
    requires Allowed(g, r, Take(p))
    ensures p in r.workers && r.workers[p].home.Some?
  {
  }

  // --------------------------------------------------------------- theorems

  /** At any instant at most one process, over all state directories, is in the middle
      of a call. */
  lemma OneCallAtATime(g: Realms, rs: seq<Realm>, es: seq<Event>, n: nat, p: nat, q: nat)
    requires Reign(g, rs, es) && n < |rs| && p in rs[n].workers && q in rs[n].workers && p != q
    ensures !(Engaged(rs[n].workers[p].process) && Engaged(rs[n].workers[q].process))
  {
    hide Reign, Run, Orderly, Inv;
    KeepsOrder(g, rs, es, n);
    WorkerFits(g, rs[n], p);
    WorkerFits(g, rs[n], q);
    if Engaged(rs[n].workers[p].process) && Engaged(rs[n].workers[q].process) {
      hide FilesHold;
      var home := Here(g, rs[n]);
      var ws, fs := EveryDirectoryTells(g, rs, es, n, home);
      SeenProcess(rs[n], home, ws[n], p);
      SeenProcess(rs[n], home, ws[n], q);
      RunKeepsInv(SystemAt(g, home), ws, fs, n);
      InvParts(SystemAt(g, home), ws[n]);
    }
  }

  /** A directory's transaction files change only by a step of a call that works there,
      while the live document names it. */
  lemma OnlyTheNamedShelfChanges(g: Realms, rs: seq<Realm>, es: seq<Event>, i: nat, directory: string)
    requires Reign(g, rs, es) && i < |es|
    ensures |rs| == |es| + 1
    ensures ShelfAt(rs[i+1].storage, directory) == ShelfAt(rs[i].storage, directory)
            || (&& Here(g, rs[i]) == directory && es[i].Take?
                && es[i].p in rs[i].workers && rs[i].workers[es[i].p].home == Some(directory))
  {
    hide Reign, Opening, Orderly, SetPlan, CommitPlan, RollbackPlan, ServicePlan, ValidId, Loads, HostHere, Do;
    ReignStep(g, rs, es, i);
    KeepsOrder(g, rs, es, i);
    if es[i].Take? { TakerCalls(g, rs[i], es[i].p); }
  }

  /** While a daemon serves a directory nothing on its shelf changes; the live file may
      still be replaced, by an edit or by a call that works elsewhere. */
  lemma ServingFreezesItsShelf(g: Realms, rs: seq<Realm>, es: seq<Event>, i: nat, p: nat)
    requires Reign(g, rs, es) && i < |es| && |rs| == |es| + 1
    requires Serves(rs[i], p) && rs[i].workers[p].home.Some? && rs[i].workers[p].process.lifecycle
    ensures var home := rs[i].workers[p].home.value;
            ShelfAt(rs[i+1].storage, home) == ShelfAt(rs[i].storage, home)
  {
    hide Reign, Run, Orderly, Inv;
    var home := rs[i].workers[p].home.value;
    OnlyTheNamedShelfChanges(g, rs, es, i, home);
    if ShelfAt(rs[i+1].storage, home) != ShelfAt(rs[i].storage, home) {
      var taker := es[i].p;
      var ws, fs := EveryDirectoryTells(g, rs, es, i, home);
      ReignStep(g, rs, es, i);
      KeepsOrder(g, rs, es, i);
      TakerHasSteps(g, rs[i], taker);
      WorkerFits(g, rs[i], p);
      SeenProcess(rs[i], home, ws[i], p);
      SeenProcess(rs[i], home, ws[i], taker);
      LocksExclude(SystemAt(g, home), ws, fs, i, taker, p);
    }
  }

  lemma TakerHasSteps(g: Realms, r: Realm, p: nat)
    requires Allowed(g, r, Take(p))
    ensures p in r.workers && r.workers[p].process.todo != []
  {
  }

  /** At every instant of every run the next call is refused without a step exactly
      when the directory that the live document names cannot accept it. */
  lemma RefusedExactlyWhenUnaccepted(g: Realms, rs: seq<Realm>, es: seq<Event>, n: nat)
    requires Reign(g, rs, es) && n < |rs| && Loads(SiteAt(g.program, Here(g, rs[n])), rs[n].storage.live)
    ensures Kept(g.program, rs[n].storage)
    ensures AllRefuse(g.program, rs[n].storage) <==> !Accepted(View(rs[n].storage, Here(g, rs[n])))
    ensures Refuses(ServiceCall(g.program, rs[n].storage)) <==> !Accepted(View(rs[n].storage, Here(g, rs[n])))
  {
    hide Reign, Run, Orderly, Inv, Sound, Accepted, AllRefuse, Loads;
    forall directory ensures KeptAt(g.program, rs[n].storage, directory) {
      var ws, fs := EveryDirectoryTells(g, rs, es, n, directory);
      RunKeepsInv(SystemAt(g, directory), ws, fs, n);
      InvParts(SystemAt(g, directory), ws[n]);
      FilesAreSound(SystemAt(g, directory), ws[n]);
      assert Sound(SiteAt(g.program, directory), ws[n].ledger, View(rs[n].storage, directory));
    }
    RefusesIffUnaccepted(g.program, rs[n].storage);
  }
}
