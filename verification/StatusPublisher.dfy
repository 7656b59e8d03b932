/** The status publisher as an interleaving of its heartbeat task and the
    foreground calls, one atomic access at a time (crates/sigil-host/src/appliance.rs). */
module StatusPublisher {
  import opened Prelude
  import opened RuntimeStatus

  datatype Snapshot = Snapshot(daemon: DaemonState, ready: bool, error: Option<nat>)

  /** How far a writer holding the write lock has read the shared state. `at` is
      the place in the history of stored states of the value it read. */
  datatype Reading =
    | Nothing
    | GotDaemon(daemon: DaemonState, at: nat)
    | GotReady(daemon: DaemonState, at: nat, ready: bool)
    | GotAll(daemon: DaemonState, at: nat, ready: bool, error: Option<nat>)

  datatype Heartbeat = Asleep | Queued | Beating(reading: Reading) | Dead

  datatype Foreground =
    | Idle
    | ReadyFlagged
    | DegradedStored
    | WantsLock
    | Marking(reading: Reading)
    | WantsFinish
    | Finishing(reading: Reading)
    | Finished(published: bool)
    | Dropped

  /** Shared atomics, the two tasks, and the history: every state ever stored, every
      snapshot ever written and, for each, the place of its state in that history. */
  datatype Publisher = Publisher(
    daemon: DaemonState,
    ready: bool,
    error: Option<nat>,
    heart: Heartbeat,
    fore: Foreground,
    stored: seq<DaemonState>,
    persisted: seq<Snapshot>,
    places: seq<nat>)

  datatype Event =
    | Tick
    | HeartLock
    | HeartRead
    | HeartWrite(ok: bool)
    | HeartLost
    | ReadyFlag
    | ReadyState
    | StoppingState
    | DegradedState
    | DegradedError(at: Option<nat>)
    | ForeLock
    | ForeRead
    | ForeWrite(ok: bool)
    | FinishBegin
    | FinishLock
    | FinishStore
    | FinishRead
    | FinishWrite(ok: bool)
    | Drop

  function Start(): Publisher {
    Publisher(Starting, false, None, Asleep, Idle, [Starting], [Snapshot(Starting, false, None)], [0])
  }

  predicate LockFree(s: Publisher) {
    !s.heart.Beating? && !s.fore.Marking? && !s.fore.Finishing?
  }

  predicate Enabled(s: Publisher, e: Event) {
    match e
    case Tick => s.heart.Asleep?
    case HeartLock => s.heart.Queued? && LockFree(s)
    case HeartRead => s.heart.Beating? && !s.heart.reading.GotAll?
    case HeartWrite(_) => s.heart.Beating? && s.heart.reading.GotAll?
    case HeartLost => s.heart.Beating? && s.heart.reading.GotAll?
    case ReadyFlag => s.fore.Idle?
    case ReadyState => s.fore.ReadyFlagged?
    case StoppingState => s.fore.Idle?
    case DegradedState => s.fore.Idle?
    case DegradedError(_) => s.fore.DegradedStored?
    case ForeLock => s.fore.WantsLock? && LockFree(s)
    case ForeRead => s.fore.Marking? && !s.fore.reading.GotAll?
    case ForeWrite(_) => s.fore.Marking? && s.fore.reading.GotAll?
    case FinishBegin => s.fore.Idle?
    case FinishLock => s.fore.WantsFinish? && LockFree(s)
    case FinishStore => s.fore.Finishing? && s.fore.reading.Nothing?
    case FinishRead => s.fore.Finishing? && (s.fore.reading.GotDaemon? || s.fore.reading.GotReady?)
    case FinishWrite(_) => s.fore.Finishing? && s.fore.reading.GotAll?
    case Drop => s.fore.Idle?
  }

  /** The next of the three reads every snapshot makes, in the program's order. */
  function Read(s: Publisher, r: Reading): Reading
    requires s.stored != []
  {
    match r
    case Nothing => GotDaemon(s.daemon, |s.stored| - 1)
    case GotDaemon(d, at) => GotReady(d, at, s.ready)
    case GotReady(d, at, ready) => GotAll(d, at, ready, s.error)
    case GotAll(_, _, _, _) => r
  }

  function Store(s: Publisher, d: DaemonState): Publisher {
    s.(daemon := d, stored := s.stored + [d])
  }

  function Persist(s: Publisher, r: Reading): Publisher
    requires r.GotAll?
  {
    s.(persisted := s.persisted + [Snapshot(r.daemon, r.ready, r.error)], places := s.places + [r.at])
  }

  /** A task that is aborted while its blocking write is on its way still writes,
      and only then ends. */
  function AfterBeat(s: Publisher): Heartbeat {
    if s.fore.Dropped? then Dead else Asleep
  }

  function Apply(s: Publisher, e: Event): Publisher
    requires Enabled(s, e) && s.stored != []
  {
    match e
    case Tick => s.(heart := Queued)
    case HeartLock => s.(heart := Beating(Nothing))
    case HeartRead => s.(heart := Beating(Read(s, s.heart.reading)))
    case HeartWrite(ok) => (if ok then Persist(s, s.heart.reading) else s).(heart := AfterBeat(s))
    case HeartLost => s.(heart := Dead)
    case ReadyFlag => s.(ready := true, fore := ReadyFlagged)
    case ReadyState => Store(s, Ready).(fore := WantsLock)
    case StoppingState => Store(s, Stopping).(fore := WantsLock)
    case DegradedState => Store(s, Degraded).(fore := DegradedStored)
    case DegradedError(at) => if at.None? then s.(fore := Idle) else s.(error := at, fore := WantsLock)
    case ForeLock => s.(fore := Marking(Nothing))
    case ForeRead => s.(fore := Marking(Read(s, s.fore.reading)))
    case ForeWrite(ok) => (if ok then Persist(s, s.fore.reading) else s).(fore := Idle)
    case FinishBegin => s.(fore := WantsFinish)
    case FinishLock => s.(fore := Finishing(Nothing), heart := Dead)
    case FinishStore => Store(s, Stopped).(fore := Finishing(GotDaemon(Stopped, |s.stored|)))
    case FinishRead => s.(fore := Finishing(Read(s, s.fore.reading)))
    case FinishWrite(ok) => (if ok then Persist(s, s.fore.reading) else s).(fore := Finished(ok))
    case Drop => s.(fore := Dropped, heart := if s.heart.Beating? then s.heart else Dead)
  }

  // --------------------------------------------------------------- invariant

  /** Snapshots are in-order samples of the stored states, and a ready one says so. */
  ghost predicate PersistedHolds(s: Publisher) {
    && |s.places| == |s.persisted|
    && (forall k :: 0 <= k < |s.places| ==>
          s.places[k] < |s.stored| && s.persisted[k].daemon == s.stored[s.places[k]])
    && (forall j, k :: 0 <= j <= k < |s.places| ==> s.places[j] <= s.places[k])
    && (forall k :: 0 <= k < |s.persisted| ==> SnapshotHolds(s.persisted[k]))
  }

  predicate SnapshotHolds(p: Snapshot) {
    (p.daemon.Ready? ==> p.ready)
  }

  ghost predicate ReadingHolds(s: Publisher, r: Reading) {
    && (!r.Nothing? ==>
          && r.at < |s.stored| && r.daemon == s.stored[r.at]
          && (forall k :: 0 <= k < |s.places| ==> s.places[k] <= r.at))
    && (r.GotReady? || r.GotAll? ==> (r.daemon.Ready? ==> r.ready) && (r.ready ==> s.ready))
    && (r.GotAll? ==> (r.error.Some? ==> s.error.Some?))
  }

  predicate Holds(s: Publisher, d: DaemonState) {
    d in s.stored
  }

  /** What the foreground's position says of everything stored so far. */
  predicate ForegroundHolds(s: Publisher) {
    && (s.ready ==> s.fore.ReadyFlagged? || Holds(s, Ready))
    && (s.fore.ReadyFlagged? ==> s.ready)
    && (Holds(s, Ready) ==> s.ready)
    && (s.error.Some? || s.fore.DegradedStored? ==> Holds(s, Degraded))
    && (s.fore.Finishing? || s.fore.Finished? ==> s.heart.Dead?)
    && (Holds(s, Stopped) <==> (s.fore.Finishing? && !s.fore.reading.Nothing?) || s.fore.Finished?)
    && (s.fore.Marking? && !s.fore.reading.Nothing? ==> s.fore.reading.at == |s.stored| - 1)
    && (s.fore.Marking? && s.fore.reading.GotAll? ==> s.fore.reading.error == s.error)
    && (s.fore.WantsLock? || s.fore.Marking? ==> (s.daemon.Degraded? ==> s.error.Some?))
    && (s.fore.Finishing? && !s.fore.reading.Nothing? ==>
          s.fore.reading.at == |s.stored| - 1 && s.fore.reading.daemon.Stopped?
          && (s.fore.reading.GotReady? || s.fore.reading.GotAll? ==> s.fore.reading.ready == s.ready)
          && (s.fore.reading.GotAll? ==> s.fore.reading.error == s.error))
    && (s.fore.Dropped? && !s.heart.Beating? ==> s.heart.Dead?)
  }

  /** A clean stop is the last snapshot and tells the whole story. */
  ghost predicate StopHolds(s: Publisher) {
    && (forall k :: 0 <= k < |s.persisted| && s.persisted[k].daemon.Stopped? ==>
          s.fore == Finished(true) && k == |s.persisted| - 1
          && s.persisted[k].ready == s.ready && s.persisted[k].error == s.error)
    && (s.fore == Finished(true) ==> s.persisted != [] && s.persisted[|s.persisted|-1].daemon.Stopped?)
  }

  ghost predicate Inv(s: Publisher) {
    && s.stored != [] && s.daemon == s.stored[|s.stored|-1]
    && !(s.heart.Beating? && (s.fore.Marking? || s.fore.Finishing?))
    && PersistedHolds(s)
    && (s.heart.Beating? ==> ReadingHolds(s, s.heart.reading))
    && (s.fore.Marking? || s.fore.Finishing? ==> ReadingHolds(s, s.fore.reading))
    && ForegroundHolds(s)
    && StopHolds(s)
  }

  lemma StartHolds()
    ensures Inv(Start())
  {
  }

  lemma StoreKeeps(s: Publisher, d: DaemonState)
    requires PersistedHolds(s) && s.stored != []
    ensures PersistedHolds(Store(s, d))
    ensures forall r | ReadingHolds(s, r) :: ReadingHolds(Store(s, d), r)
    ensures forall x :: Holds(Store(s, d), x) <==> x == d || Holds(s, x)
  {
    assert forall k :: 0 <= k < |s.stored| ==> Store(s, d).stored[k] == s.stored[k];
  }

  lemma ReadKeeps(s: Publisher, r: Reading)
    requires PersistedHolds(s) && s.stored != [] && s.daemon == s.stored[|s.stored|-1]
    requires ReadingHolds(s, r) && (Holds(s, Ready) ==> s.ready)
    ensures ReadingHolds(s, Read(s, r))
  {
  }

  lemma PersistKeeps(s: Publisher, r: Reading)
    requires PersistedHolds(s) && ReadingHolds(s, r) && r.GotAll?
    ensures PersistedHolds(Persist(s, r))
  {
  }

  lemma StepKeepsInv(s: Publisher, e: Event)
    requires Inv(s) && Enabled(s, e)
    ensures Inv(Apply(s, e))
  {
    hide Inv, Apply;
    match e {
      case HeartRead => HeartReadKeepsInv(s);
      case HeartWrite(ok) => BeatKeepsInv(s, ok);
      case ReadyState => StoreKeepsInv(s, e);
      case StoppingState => StoreKeepsInv(s, e);
      case DegradedState => StoreKeepsInv(s, e);
      case ForeRead => ForeReadKeepsInv(s, e);
      case FinishRead => ForeReadKeepsInv(s, e);
      case ForeWrite(ok) => MarkKeepsInv(s, ok);
      case FinishStore => FinishStoreKeepsInv(s);
      case FinishWrite(ok) => FinishWriteKeepsInv(s, ok);
      case Tick => HeartKeepsInv(s, e);
      case HeartLock => HeartKeepsInv(s, e);
      case HeartLost => HeartKeepsInv(s, e);
      case ReadyFlag => ForeKeepsInv(s, e);
      case DegradedError(_) => ForeKeepsInv(s, e);
      case ForeLock => ForeKeepsInv(s, e);
      case _ => EndKeepsInv(s, e);
    }
  }

  lemma HeartReadKeepsInv(s: Publisher)
    requires Inv(s) && Enabled(s, HeartRead)
    ensures Inv(Apply(s, HeartRead))
  {
    ReadKeeps(s, s.heart.reading);
  }

  lemma ForeReadKeepsInv(s: Publisher, e: Event)
    requires Inv(s) && Enabled(s, e) && (e.ForeRead? || e.FinishRead?)
    ensures Inv(Apply(s, e))
  {
    ReadKeeps(s, s.fore.reading);
  }

  lemma StoreKeepsInv(s: Publisher, e: Event)
    requires Inv(s) && Enabled(s, e) && (e.ReadyState? || e.StoppingState? || e.DegradedState?)
    ensures Inv(Apply(s, e))
  {
    StoreKeeps(s, if e.ReadyState? then Ready else if e.StoppingState? then Stopping else Degraded);
  }

  lemma FinishWriteKeepsInv(s: Publisher, ok: bool)
    requires Inv(s) && Enabled(s, FinishWrite(ok))
    ensures Inv(Apply(s, FinishWrite(ok)))
  {
    if ok { PersistKeeps(s, s.fore.reading); }
  }

  lemma BeatKeepsInv(s: Publisher, ok: bool)
    requires Inv(s) && Enabled(s, HeartWrite(ok))
    ensures Inv(Apply(s, HeartWrite(ok)))
  {
    if ok { PersistKeeps(s, s.heart.reading); }
  }

  lemma MarkKeepsInv(s: Publisher, ok: bool)
    requires Inv(s) && Enabled(s, ForeWrite(ok))
    ensures Inv(Apply(s, ForeWrite(ok)))
  {
    if ok { PersistKeeps(s, s.fore.reading); }
  }

  lemma FinishStoreKeepsInv(s: Publisher)
    requires Inv(s) && Enabled(s, FinishStore)
    ensures Inv(Apply(s, FinishStore))
  {
    StoreKeeps(s, Stopped);
  }

  lemma HeartKeepsInv(s: Publisher, e: Event)
    requires Inv(s) && Enabled(s, e) && (e.Tick? || e.HeartLock? || e.HeartLost?)
    ensures Inv(Apply(s, e))
  {
  }

  lemma ForeKeepsInv(s: Publisher, e: Event)
    requires Inv(s) && Enabled(s, e) && (e.ReadyFlag? || e.DegradedError? || e.ForeLock?)
    ensures Inv(Apply(s, e))
  {
  }

  lemma EndKeepsInv(s: Publisher, e: Event)
    requires Inv(s) && Enabled(s, e) && (e.FinishBegin? || e.FinishLock? || e.Drop?)
    ensures Inv(Apply(s, e))
  {
  }

  // -------------------------------------------------------------------- runs

  ghost predicate Run(ss: seq<Publisher>, es: seq<Event>) {
    && |ss| == |es| + 1
    && ss[0] == Start()
    && forall i :: 0 <= i < |es| ==> ss[i].stored != [] && Enabled(ss[i], es[i]) && ss[i+1] == Apply(ss[i], es[i])
  }

  lemma {:induction false} RunKeepsInv(ss: seq<Publisher>, es: seq<Event>, i: nat)
    requires Run(ss, es) && i < |ss|
    ensures Inv(ss[i])
  {
    if i == 0 {
      StartHolds();
    } else {
      RunKeepsInv(ss, es, i - 1);
      hide Inv, Apply, Enabled;
      StepKeepsInv(ss[i-1], es[i-1]);
    }
  }

  /** No stale overwrite: the snapshots on disk are samples of the stored states, in
      order, repeats allowed; a ready snapshot carries the ready flag. */
  lemma PersistedInOrder(ss: seq<Publisher>, es: seq<Event>, i: nat, j: nat, k: nat)
    requires Run(ss, es) && i < |ss| && j <= k < |ss[i].persisted|
    ensures |ss[i].places| == |ss[i].persisted|
    ensures ss[i].places[j] <= ss[i].places[k] < |ss[i].stored|
    ensures ss[i].persisted[j].daemon == ss[i].stored[ss[i].places[j]]
    ensures ss[i].persisted[k].daemon == ss[i].stored[ss[i].places[k]]
    ensures ss[i].persisted[k].daemon.Ready? ==> ss[i].persisted[k].ready
  {
    RunKeepsInv(ss, es, i);
  }

  /** A mark that reports success has put on disk exactly the state it stored. */
  lemma MarkPublishesItsOwnState(ss: seq<Publisher>, es: seq<Event>, i: nat)
    requires Run(ss, es) && i < |es| && es[i] == ForeWrite(true)
    ensures ss[i+1].persisted[..|ss[i].persisted|] == ss[i].persisted
    ensures |ss[i+1].persisted| == |ss[i].persisted| + 1
    ensures ss[i].stored != [] && ss[i+1].persisted[|ss[i].persisted|].daemon == ss[i].stored[|ss[i].stored|-1]
  {
    RunKeepsInv(ss, es, i);
  }

  /** Once a clean stop is on disk the run is over: neither task can take another
      step, let alone write. The stop tells whether the daemon was ever marked
      ready and whether an error was recorded. */
  lemma CleanStopIsFinal(ss: seq<Publisher>, es: seq<Event>, i: nat, k: nat)
    requires Run(ss, es) && i < |ss|
    requires k < |ss[i].persisted| && ss[i].persisted[k].daemon.Stopped?
    ensures i == |es| && k == |ss[i].persisted| - 1
    ensures forall e :: !Enabled(ss[i], e)
    ensures ss[i].persisted[k].ready <==> Ready in ss[i].stored
    ensures ss[i].persisted[k].error == ss[i].error
    ensures ss[i].persisted[k].error.Some? ==> Degraded in ss[i].stored
  {
    assert i < |es| ==> Enabled(ss[i], es[i]);
    StopIsTerminal(ss, es, i, k);
  }

  lemma StopIsTerminal(ss: seq<Publisher>, es: seq<Event>, i: nat, k: nat)
    requires Run(ss, es) && i < |ss|
    requires k < |ss[i].persisted| && ss[i].persisted[k].daemon.Stopped?
    ensures k == |ss[i].persisted| - 1
    ensures forall e :: !Enabled(ss[i], e)
    ensures ss[i].persisted[k].ready <==> Ready in ss[i].stored
    ensures ss[i].persisted[k].error == ss[i].error
    ensures ss[i].persisted[k].error.Some? ==> Degraded in ss[i].stored
  {
    RunKeepsInv(ss, es, i);
  }

  // ------------------------------------------------------------------ errors

  /** A `mark_degraded` that could read the clock has recorded its error. */
  predicate RecordsError(e: Event) {
    e.DegradedError? && e.at.Some?
  }

  /** An error was recorded before step `n`. */
  predicate ErrorBefore(es: seq<Event>, n: nat)
    requires n <= |es|
  {
    exists m :: 0 <= m < n && RecordsError(es[m])
  }

  lemma ErrorStays(s: Publisher, e: Event)
    requires Enabled(s, e) && s.stored != []
    ensures Apply(s, e).error.Some? <==> s.error.Some? || RecordsError(e)
  {
  }

  lemma {:induction false} ErrorIffRecorded(ss: seq<Publisher>, es: seq<Event>, n: nat)
    requires Run(ss, es) && n <= |es|
    ensures ss[n].error.Some? <==> ErrorBefore(es, n)
    decreases n
  {
    hide Enabled, Apply, RecordsError;
    if n > 0 {
      ErrorIffRecorded(ss, es, n - 1);
      ErrorStays(ss[n-1], es[n-1]);
      if ErrorBefore(es, n - 1) {
        var m :| 0 <= m < n - 1 && RecordsError(es[m]);
      }
      assert RecordsError(es[n-1]) ==> ErrorBefore(es, n);
    }
  }

  predicate IsWrite(e: Event) {
    e == HeartWrite(true) || e == ForeWrite(true) || e == FinishWrite(true)
  }

  /** `read` is a load by the writer of `write`. */
  predicate ReadsFor(read: Event, write: Event) {
    || (write.HeartWrite? && read.HeartRead?)
    || (write.ForeWrite? && read.ForeRead?)
    || (write.FinishWrite? && read.FinishRead?)
  }

  /** Where the writer of step `e` stands before it writes. */
  function Writer(s: Publisher, e: Event): Reading
    requires Enabled(s, e) && IsWrite(e)
  {
    if e.HeartWrite? then s.heart.reading else s.fore.reading
  }

  /** The third and last read of a beat is still the one it holds. */
  lemma {:induction false} BeatReadsAt(ss: seq<Publisher>, es: seq<Event>, i: nat) returns (r: nat)
    requires Run(ss, es) && i < |ss| && ss[i].heart.Beating? && ss[i].heart.reading.GotAll?
    ensures r < i && es[r].HeartRead? && ss[i].heart.reading.error == ss[r].error
    ensures forall k :: r < k <= i ==> ss[k].heart == ss[i].heart
    ensures forall k :: r < k < i ==> !es[k].HeartRead?
    decreases i
  {
    if ss[i-1].heart == ss[i].heart {
      r := BeatReadsAt(ss, es, i - 1);
    } else {
      r := i - 1;
    }
  }

  /** A foreground call comes to hold a full reading only by its read of the error. */
  lemma LastReadIsOwn(s: Publisher, e: Event)
    requires s.stored != [] && Enabled(s, e)
    ensures var fore := Apply(s, e).fore;
            (fore.Marking? || fore.Finishing?) && fore.reading.GotAll? && s.fore != fore ==>
              (if fore.Marking? then e.ForeRead? else e.FinishRead?) && fore.reading.error == s.error
    ensures (s.fore.Marking? || s.fore.Finishing?) && s.fore.reading.GotAll? ==> !e.ForeRead? && !e.FinishRead?
  {
  }

  lemma {:induction false} ForegroundReadsAt(ss: seq<Publisher>, es: seq<Event>, i: nat) returns (r: nat)
    requires Run(ss, es) && i < |ss| && (ss[i].fore.Marking? || ss[i].fore.Finishing?) && ss[i].fore.reading.GotAll?
    ensures r < i && (if ss[i].fore.Marking? then es[r].ForeRead? else es[r].FinishRead?)
    ensures ss[i].fore.reading.error == ss[r].error
    ensures forall k :: r < k <= i ==> ss[k].fore == ss[i].fore
    ensures forall k :: r < k < i ==> !es[k].ForeRead? && !es[k].FinishRead?
    decreases i
  {
    hide Enabled, Apply;
    LastReadIsOwn(ss[i-1], es[i-1]);
    if ss[i-1].fore == ss[i].fore {
      r := ForegroundReadsAt(ss, es, i - 1);
    } else {
      r := i - 1;
    }
  }

  /** The read of the error behind the snapshot written at step `i`. */
  lemma WriteReadsAt(ss: seq<Publisher>, es: seq<Event>, i: nat) returns (r: nat)
    requires Run(ss, es) && i < |es| && IsWrite(es[i])
    ensures Enabled(ss[i], es[i]) && Writer(ss[i], es[i]).GotAll?
    ensures r < i && ReadsFor(es[r], es[i]) && forall k :: r < k < i ==> !ReadsFor(es[k], es[i])
    ensures Writer(ss[i], es[i]).error == ss[r].error
    ensures es[i].HeartWrite? ==> forall k :: r < k <= i ==> ss[k].heart.Beating?
    ensures !es[i].HeartWrite? ==> forall k :: r < k <= i ==> ss[k].fore == ss[i].fore
  {
    if es[i].HeartWrite? {
      r := BeatReadsAt(ss, es, i);
    } else {
      r := ForegroundReadsAt(ss, es, i);
    }
  }

  /** Exactly which snapshots carry an error, degraded or not, from a beat or from a
      call: those whose writer read last after some `mark_degraded` recorded one. */
  lemma SnapshotHasErrorIff(ss: seq<Publisher>, es: seq<Event>, i: nat) returns (r: nat)
    requires Run(ss, es) && i < |es| && IsWrite(es[i])
    ensures r < i && ReadsFor(es[r], es[i]) && forall k :: r < k < i ==> !ReadsFor(es[k], es[i])
    ensures |ss[i+1].persisted| == |ss[i].persisted| + 1
    ensures ss[i+1].persisted[|ss[i].persisted|].error.Some? <==> ErrorBefore(es, r)
  {
    r := WriteReadsAt(ss, es, i);
    ErrorIffRecorded(ss, es, r);
  }

  /** Once a `mark_degraded` has recorded its error and returned success, every later
      snapshot carries one. */
  lemma DegradedReturnedThenError(ss: seq<Publisher>, es: seq<Event>, b: nat, i: nat, j: nat)
    requires Run(ss, es) && b < i <= j < |es| && RecordsError(es[b]) && es[i] == ForeWrite(true) && IsWrite(es[j])
    ensures |ss[j+1].persisted| == |ss[j].persisted| + 1 && ss[j+1].persisted[|ss[j].persisted|].error.Some?
  {
    var r := WriteReadsAt(ss, es, j);
    ErrorIffRecorded(ss, es, r);
    RunKeepsInv(ss, es, i);
    assert ss[b].fore.DegradedStored? && ss[i].fore.Marking? && ss[i+1].fore.Idle?;
    assert b < r by {
      if es[j].HeartWrite? {
        assert i <= r;
      } else if i < j {
        assert i + 1 <= r;
      }
    }
  }

  // ----------------------------------------------------- what snapshots tell

  /** The state stored last by the first `n` steps: a mark's own, or the final stop. */
  function StateBy(es: seq<Event>, n: nat): DaemonState
    requires n <= |es|
    decreases n
  {
    if n == 0 then Starting
    else
      match es[n-1]
      case ReadyState => Ready
      case StoppingState => Stopping
      case DegradedState => Degraded
      case FinishStore => Stopped
      case _ => StateBy(es, n - 1)
  }

  /** Whether the first `n` steps began a `mark_ready`. */
  function ReadyBy(es: seq<Event>, n: nat): bool
    requires n <= |es|
    decreases n
  {
    n > 0 && (es[n-1].ReadyFlag? || ReadyBy(es, n - 1))
  }

  /** The error recorded last by the first `n` steps; a later one replaces it. */
  function ErrorBy(es: seq<Event>, n: nat): Option<nat>
    requires n <= |es|
    decreases n
  {
    if n == 0 then None
    else if RecordsError(es[n-1]) then es[n-1].at
    else ErrorBy(es, n - 1)
  }

  lemma {:induction false} HistoryTells(ss: seq<Publisher>, es: seq<Event>, n: nat)
    requires Run(ss, es) && n <= |es|
    ensures ss[n].daemon == StateBy(es, n) && ss[n].ready == ReadyBy(es, n) && ss[n].error == ErrorBy(es, n)
    decreases n
  {
    if n > 0 {
      HistoryTells(ss, es, n - 1);
      hide Run, Enabled;
      StepTells(ss, es, n - 1);
    }
  }

  lemma StepTells(ss: seq<Publisher>, es: seq<Event>, n: nat)
    requires Run(ss, es) && n < |es|
    ensures ss[n+1].daemon == (match es[n]
                               case ReadyState => Ready
                               case StoppingState => Stopping
                               case DegradedState => Degraded
                               case FinishStore => Stopped
                               case _ => ss[n].daemon)
    ensures ss[n+1].ready == (es[n].ReadyFlag? || ss[n].ready)
    ensures ss[n+1].error == if RecordsError(es[n]) then es[n].at else ss[n].error
  {
  }

  /** What a writer has read so far, and when: the state at `a`, the ready flag at `b`,
      the error at `c`, each as the history then was. */
  predicate ReadAt(es: seq<Event>, r: Reading, a: nat, b: nat, c: nat) {
    && (!r.Nothing? ==> a < |es| && r.daemon == StateBy(es, a + 1))
    && (r.GotReady? || r.GotAll? ==> a < b < |es| && r.ready == ReadyBy(es, b))
    && (r.GotAll? ==> b < c < |es| && r.error == ErrorBy(es, c))
  }

  lemma ReadTells(ss: seq<Publisher>, es: seq<Event>, n: nat, r: Reading, a: nat, b: nat, c: nat)
    returns (a': nat, b': nat, c': nat)
    requires Run(ss, es) && n < |es| && ss[n].stored != [] && (es[n].HeartRead? || es[n].ForeRead? || es[n].FinishRead?)
    requires ReadAt(es, r, a, b, c)
    requires (!r.Nothing? ==> a < n) && (r.GotReady? || r.GotAll? ==> b < n) && (r.GotAll? ==> c < n)
    ensures ReadAt(es, Read(ss[n], r), a', b', c')
    ensures var q := Read(ss[n], r);
            (!q.Nothing? ==> a' <= n) && (q.GotReady? || q.GotAll? ==> b' <= n) && (q.GotAll? ==> c' <= n)
  {
    hide Run;
    HistoryTells(ss, es, n);
    a', b', c' := a, b, c;
    match r
    case Nothing => a' := n;
    case GotDaemon(_, _) => b' := n;
    case GotReady(_, _, _) => c' := n;
    case GotAll(_, _, _, _) =>
  }

  /** The reads behind what the beat holds at `n`. */
  lemma {:induction false} BeatHasRead(ss: seq<Publisher>, es: seq<Event>, n: nat) returns (a: nat, b: nat, c: nat)
    requires Run(ss, es) && n <= |es| && ss[n].heart.Beating?
    ensures ReadAt(es, ss[n].heart.reading, a, b, c)
    ensures var r := ss[n].heart.reading;
            (!r.Nothing? ==> a < n) && (r.GotReady? || r.GotAll? ==> b < n) && (r.GotAll? ==> c < n)
    decreases n
  {
    a, b, c := 0, 0, 0;
    if n > 0 {
      HeartMoves(ss, es, n - 1);
      hide Run, Enabled, Apply;
      if es[n-1].HeartRead? {
        a, b, c := BeatHasRead(ss, es, n - 1);
        a, b, c := ReadTells(ss, es, n - 1, ss[n-1].heart.reading, a, b, c);
      } else if !es[n-1].HeartLock? {
        a, b, c := BeatHasRead(ss, es, n - 1);
      }
    }
  }

  lemma HeartMoves(ss: seq<Publisher>, es: seq<Event>, n: nat)
    requires Run(ss, es) && n < |es| && ss[n+1].heart.Beating?
    ensures ss[n].stored != []
    ensures if es[n].HeartLock? then ss[n+1].heart.reading == Nothing
            else ss[n].heart.Beating? && ss[n+1].heart.reading ==
                   if es[n].HeartRead? then Read(ss[n], ss[n].heart.reading) else ss[n].heart.reading
  {
  }

  predicate Working(fore: Foreground) {
    fore.Marking? || fore.Finishing?
  }

  lemma {:induction false} CallHasRead(ss: seq<Publisher>, es: seq<Event>, n: nat) returns (a: nat, b: nat, c: nat)
    requires Run(ss, es) && n <= |es| && Working(ss[n].fore)
    ensures ReadAt(es, ss[n].fore.reading, a, b, c)
    ensures var r := ss[n].fore.reading;
            (!r.Nothing? ==> a < n) && (r.GotReady? || r.GotAll? ==> b < n) && (r.GotAll? ==> c < n)
    decreases n
  {
    a, b, c := 0, 0, 0;
    if n > 0 {
      CallMoves(ss, es, n - 1);
      hide Run, Enabled, Apply;
      if es[n-1].ForeRead? || es[n-1].FinishRead? {
        a, b, c := CallHasRead(ss, es, n - 1);
        a, b, c := ReadTells(ss, es, n - 1, ss[n-1].fore.reading, a, b, c);
      } else if es[n-1].FinishStore? {
        a := n - 1;
      } else if !es[n-1].ForeLock? && !es[n-1].FinishLock? {
        a, b, c := CallHasRead(ss, es, n - 1);
      }
    }
  }

  lemma CallMoves(ss: seq<Publisher>, es: seq<Event>, n: nat)
    requires Run(ss, es) && n < |es| && Working(ss[n+1].fore)
    ensures ss[n].stored != []
    ensures if es[n].ForeLock? || es[n].FinishLock? then ss[n+1].fore.reading == Nothing
            else if es[n].FinishStore? then
              ss[n+1].fore.reading.GotDaemon? && ss[n+1].fore.reading.daemon == Stopped
            else Working(ss[n].fore) && ss[n+1].fore.reading ==
                   if es[n].ForeRead? || es[n].FinishRead? then Read(ss[n], ss[n].fore.reading) else ss[n].fore.reading
  {
  }

  /** Every snapshot on disk, told by the steps alone: the state stored last as of one
      instant, whether ready had been marked as of a later one, and the error recorded
      last as of a third. */
  lemma SnapshotIsExact(ss: seq<Publisher>, es: seq<Event>, i: nat) returns (a: nat, b: nat, c: nat)
    requires Run(ss, es) && i < |es| && IsWrite(es[i])
    ensures a < b < c < i
    ensures |ss[i+1].persisted| == |ss[i].persisted| + 1
    ensures ss[i+1].persisted[|ss[i].persisted|] ==
            Snapshot(StateBy(es, a + 1), ReadyBy(es, b), ErrorBy(es, c))
  {
    if es[i].HeartWrite? {
      a, b, c := BeatHasRead(ss, es, i);
    } else {
      a, b, c := CallHasRead(ss, es, i);
    }
  }

  /** What is on disk before any step is a start that is not ready and has no error, and
      it stays the first of all snapshots; no other is written without a write step. */
  lemma {:induction false} FirstSnapshotIsTheStart(ss: seq<Publisher>, es: seq<Event>, n: nat)
    requires Run(ss, es) && n <= |es|
    ensures ss[n].persisted != [] && ss[n].persisted[0] == Snapshot(Starting, false, None)
    ensures n < |es| && !IsWrite(es[n]) ==> ss[n+1].persisted == ss[n].persisted
    decreases n
  {
    if n > 0 { FirstSnapshotIsTheStart(ss, es, n - 1); }
  }

  /** The lock is never held twice, and is handed on only by its holder: a beat that has
      begun ends by its own write, or dies in it, whatever calls wait; and a call writes
      before it ends. */
  lemma LockIsKept(ss: seq<Publisher>, es: seq<Event>, n: nat)
    requires Run(ss, es) && n < |es|
    ensures !(ss[n].heart.Beating? && Working(ss[n].fore))
    ensures ss[n].heart.Beating? && !ss[n+1].heart.Beating? ==> es[n].HeartWrite? || es[n].HeartLost?
    ensures Working(ss[n].fore) && !Working(ss[n+1].fore) ==> es[n].ForeWrite? || es[n].FinishWrite?
    ensures es[n].HeartWrite? || es[n].HeartLost? ==> ss[n].heart.Beating? && ss[n].heart.reading.GotAll?
  {
    RunKeepsInv(ss, es, n);
  }

  /** A mark that reports success shows the state of the call that made it, with the
      ready flag and the error as they stand; a finish shows the stop. */
  lemma MarkShowsItsState(ss: seq<Publisher>, es: seq<Event>, i: nat)
    requires Run(ss, es) && i < |es| && (es[i] == ForeWrite(true) || es[i] == FinishWrite(true))
    ensures |ss[i+1].persisted| == |ss[i].persisted| + 1
    ensures var shown := ss[i+1].persisted[|ss[i].persisted|];
            && shown.daemon == StateBy(es, i) && shown.error == ErrorBy(es, i)
            && (es[i] == FinishWrite(true) ==> shown == Snapshot(Stopped, ReadyBy(es, i), ErrorBy(es, i)))
  {
    RunKeepsInv(ss, es, i);
    HistoryTells(ss, es, i);
  }

  lemma RunSnoc(ss: seq<Publisher>, es: seq<Event>, e: Event)
    requires Run(ss, es) && ss[|es|].stored != [] && Enabled(ss[|es|], e)
    ensures |ss| == |es| + 1 && Run(ss + [Apply(ss[|es|], e)], es + [e])
  {
    hide Enabled, Apply;
    var ss', es' := ss + [Apply(ss[|es|], e)], es + [e];
    forall i | 0 <= i < |es'|
      ensures ss'[i].stored != [] && Enabled(ss'[i], es'[i]) && ss'[i+1] == Apply(ss'[i], es'[i])
    {
      assert ss'[i] == ss[i];
      if i < |es| { assert es'[i] == es[i] && ss'[i+1] == ss[i+1]; }
    }
  }

  lemma RunLength(ss: seq<Publisher>, es: seq<Event>)
    requires Run(ss, es)
    ensures |ss| == |es| + 1
  {
  }

  const BEAT: seq<Event> := [Tick, HeartLock, HeartRead, HeartRead, HeartRead, HeartWrite(true)]

  /** A heartbeat that nothing interrupts may follow whenever the lock is free, and
      shows the state as it is. */
  lemma BeatShows(ss: seq<Publisher>, es: seq<Event>) returns (ss': seq<Publisher>)
    requires Run(ss, es)
    requires var s := ss[|es|]; s.stored != [] && s.heart.Asleep? && LockFree(s)
    ensures Run(ss', es + BEAT) && |ss'| == |es| + 7
    ensures var s, last := ss[|es|], ss'[|es| + 6];
            && last.persisted == s.persisted + [Snapshot(s.daemon, s.ready, s.error)] && last.fore == s.fore
  {
    hide Run;
    RunLength(ss, es);
    var s := ss[|es|];
    var s1 := s.(heart := Queued);
    var s2 := s.(heart := Beating(Nothing));
    var s3 := s.(heart := Beating(GotDaemon(s.daemon, |s.stored| - 1)));
    var s4 := s.(heart := Beating(GotReady(s.daemon, |s.stored| - 1, s.ready)));
    var s5 := s.(heart := Beating(GotAll(s.daemon, |s.stored| - 1, s.ready, s.error)));
    var t1, e1 := ss + [s1], es + [Tick];
    var t2, e2 := t1 + [s2], e1 + [HeartLock];
    var t3, e3 := t2 + [s3], e2 + [HeartRead];
    var t4, e4 := t3 + [s4], e3 + [HeartRead];
    var t5, e5 := t4 + [s5], e4 + [HeartRead];
    RunSnoc(ss, es, Tick);
    RunSnoc(t1, e1, HeartLock);
    RunSnoc(t2, e2, HeartRead);
    RunSnoc(t3, e3, HeartRead);
    RunSnoc(t4, e4, HeartRead);
    RunSnoc(t5, e5, HeartWrite(true));
    ss' := t5 + [Apply(s5, HeartWrite(true))];
    assert es + BEAT == es + [Tick] + [HeartLock] + [HeartRead] + [HeartRead] + [HeartRead] + [HeartWrite(true)];
  }

  /** A degraded snapshot without an error, first way: a beat falls between the two
      stores of `mark_degraded`. */
  lemma DegradedMayPrecedeItsError() returns (ss: seq<Publisher>, es: seq<Event>)
    ensures Run(ss, es) && |es| > 0 && ss[|es|].fore.DegradedStored? && ss[|es|].persisted != []
    ensures ss[|es|].persisted[|ss[|es|].persisted| - 1] == Snapshot(Degraded, false, None)
  {
    RunSnoc([Start()], [], DegradedState);
    es := [] + [DegradedState];
    ss := BeatShows([Start()] + [Apply(Start(), DegradedState)], es);
    es := es + BEAT;
  }

  /** Second way: the clock cannot be read, so `mark_degraded` fails between its two
      stores and no error is ever recorded; any later beat shows it. */
  lemma FailedClockLosesItsError() returns (ss: seq<Publisher>, es: seq<Event>)
    ensures Run(ss, es) && |es| > 0 && ss[|es|].fore.Idle? && !ErrorBefore(es, |es|) && ss[|es|].persisted != []
    ensures ss[|es|].persisted[|ss[|es|].persisted| - 1] == Snapshot(Degraded, false, None)
  {
    var s1 := Apply(Start(), DegradedState);
    RunSnoc([Start()], [], DegradedState);
    RunSnoc([Start()] + [s1], [] + [DegradedState], DegradedError(None));
    es := [] + [DegradedState] + [DegradedError(None)];
    ss := BeatShows([Start()] + [s1] + [Apply(s1, DegradedError(None))], es);
    es := es + BEAT;
  }

  /** Only a beat can miss it: what the degrading call itself writes has the error. */
  lemma DegradingCallWritesItsError(ss: seq<Publisher>, es: seq<Event>, i: nat)
    requires Run(ss, es) && i < |es| && es[i] == ForeWrite(true)
    ensures ss[i+1].persisted != []
    ensures var last := ss[i+1].persisted[|ss[i+1].persisted|-1];
            last.daemon.Degraded? ==> last.error.Some?
  {
    RunKeepsInv(ss, es, i);
  }
}
