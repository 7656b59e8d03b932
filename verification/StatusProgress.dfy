/** What can happen to the status publisher: whatever the two tasks are in the middle of,
    every mark and the clean finish can go through and be seen on disk
    (crates/sigil-host/src/appliance.rs:352-515). */
module StatusProgress {
  import opened Prelude
  import opened RuntimeStatus
  import opened StatusPublisher

  /** A run and how it goes on. */
  ghost predicate GoesOn(ss: seq<Publisher>, es: seq<Event>, ss': seq<Publisher>, es': seq<Event>) {
    Run(ss', es') && ss <= ss' && es <= es' && |ss'| == |es'| + 1
  }

  lemma OneMore(ss: seq<Publisher>, es: seq<Event>, e: Event) returns (ss': seq<Publisher>, es': seq<Event>)
    requires Run(ss, es) && |ss| == |es| + 1 && ss[|es|].stored != [] && Enabled(ss[|es|], e)
    ensures GoesOn(ss, es, ss', es') && ss'[|es'|] == Apply(ss[|es|], e)
  {
    hide Run, Enabled, Apply;
    RunSnoc(ss, es, e);
    ss', es' := ss + [Apply(ss[|es|], e)], es + [e];
  }

  lemma AndOn(ss: seq<Publisher>, es: seq<Event>, ss1: seq<Publisher>, es1: seq<Event>, ss2: seq<Publisher>,
              es2: seq<Event>)
    requires GoesOn(ss, es, ss1, es1) && GoesOn(ss1, es1, ss2, es2)
    ensures GoesOn(ss, es, ss2, es2)
  {
    hide Run;
  }

  /** A beat in the middle of its snapshot can give the lock back. */
  lemma {:induction false} BeatCanEnd(ss: seq<Publisher>, es: seq<Event>, left: nat)
    returns (ss': seq<Publisher>, es': seq<Event>)
    requires Run(ss, es) && |ss| == |es| + 1 && ss[|es|].stored != [] && ss[|es|].heart.Beating?
    requires left == match ss[|es|].heart.reading
                     case Nothing => 3
                     case GotDaemon(_, _) => 2
                     case GotReady(_, _, _) => 1
                     case GotAll(_, _, _, _) => 0
    ensures GoesOn(ss, es, ss', es') && !ss'[|es'|].heart.Beating?
    ensures ss'[|es'|] == ss[|es|].(heart := ss'[|es'|].heart)
    decreases left
  {
    hide Run;
    if left == 0 {
      ss', es' := OneMore(ss, es, HeartWrite(false));
    } else {
      var ss1, es1 := OneMore(ss, es, HeartRead);
      ss', es' := BeatCanEnd(ss1, es1, left - 1);
      AndOn(ss, es, ss1, es1, ss', es');
    }
  }

  lemma LockCanBeFree(ss: seq<Publisher>, es: seq<Event>) returns (ss': seq<Publisher>, es': seq<Event>)
    requires Run(ss, es) && |ss| == |es| + 1 && ss[|es|].stored != []
    ensures GoesOn(ss, es, ss', es') && !ss'[|es'|].heart.Beating?
    ensures ss'[|es'|] == ss[|es|].(heart := ss'[|es'|].heart)
  {
    hide Run;
    ss', es' := ss, es;
    if ss[|es|].heart.Beating? {
      var left := match ss[|es|].heart.reading
                  case Nothing => 3
                  case GotDaemon(_, _) => 2
                  case GotReady(_, _, _) => 1
                  case GotAll(_, _, _, _) => 0;
      ss', es' := BeatCanEnd(ss, es, left);
    }
  }

  /** A call that wants the lock can get it and show the state as it is. */
  lemma CallCanShow(ss: seq<Publisher>, es: seq<Event>) returns (ss': seq<Publisher>, es': seq<Event>)
    requires Run(ss, es) && |ss| == |es| + 1 && ss[|es|].stored != [] && ss[|es|].fore.WantsLock?
    requires !ss[|es|].heart.Beating?
    ensures GoesOn(ss, es, ss', es')
    ensures var s, s' := ss[|es|], ss'[|es'|];
            && s'.fore.Idle? && s'.persisted == s.persisted + [Snapshot(s.daemon, s.ready, s.error)]
            && s'.daemon == s.daemon && s'.ready == s.ready && s'.error == s.error
  {
    hide Run;
    var ss1, es1 := OneMore(ss, es, ForeLock);
    var ss2, es2 := OneMore(ss1, es1, ForeRead);
    var ss3, es3 := OneMore(ss2, es2, ForeRead);
    var ss4, es4 := OneMore(ss3, es3, ForeRead);
    ss', es' := OneMore(ss4, es4, ForeWrite(true));
    AndOn(ss, es, ss1, es1, ss2, es2);
    AndOn(ss, es, ss2, es2, ss3, es3);
    AndOn(ss, es, ss3, es3, ss4, es4);
    AndOn(ss, es, ss4, es4, ss', es');
  }

  datatype Mark = ToReady | ToStopping | ToDegraded(at: nat)

  /** What a mark must show, `ready` and `error` being as they were. */
  function Shown(m: Mark, ready: bool, error: Option<nat>): Snapshot {
    match m
    case ToReady => Snapshot(Ready, true, error)
    case ToStopping => Snapshot(Stopping, ready, error)
    case ToDegraded(at) => Snapshot(Degraded, ready, Some(at))
  }

  lemma MarkCanBeMade(ss: seq<Publisher>, es: seq<Event>, m: Mark) returns (ss': seq<Publisher>, es': seq<Event>)
    requires Run(ss, es) && |ss| == |es| + 1 && ss[|es|].stored != [] && ss[|es|].fore.Idle?
    requires !ss[|es|].heart.Beating?
    ensures GoesOn(ss, es, ss', es')
    ensures var s, s' := ss[|es|], ss'[|es'|];
            && s'.stored != [] && s'.fore.WantsLock? && !s'.heart.Beating? && s'.persisted == s.persisted
            && Snapshot(s'.daemon, s'.ready, s'.error) == Shown(m, s.ready, s.error)
  {
    hide Run;
    match m
    case ToReady =>
      var ss1, es1 := OneMore(ss, es, ReadyFlag);
      ss', es' := OneMore(ss1, es1, ReadyState);
      AndOn(ss, es, ss1, es1, ss', es');
    case ToStopping =>
      ss', es' := OneMore(ss, es, StoppingState);
    case ToDegraded(at) =>
      var ss1, es1 := OneMore(ss, es, DegradedState);
      ss', es' := OneMore(ss1, es1, DegradedError(Some(at)));
      AndOn(ss, es, ss1, es1, ss', es');
  }

  /** At every instant of every run at which no call is under way, every mark can be made
      and shown as the next snapshot on disk, and another one can follow. */
  lemma MarkCanBeShown(ss: seq<Publisher>, es: seq<Event>, m: Mark) returns (ss': seq<Publisher>, es': seq<Event>)
    requires Run(ss, es) && |ss| == |es| + 1 && ss[|es|].fore.Idle?
    ensures GoesOn(ss, es, ss', es')
    ensures var s, s' := ss[|es|], ss'[|es'|];
            s'.fore.Idle? && s'.persisted == s.persisted + [Shown(m, s.ready, s.error)]
  {
    hide Run, Inv, Shown;
    RunKeepsInv(ss, es, |es|);
    SomethingStored(ss[|es|]);
    var ss1, es1 := LockCanBeFree(ss, es);
    var ss2, es2 := MarkCanBeMade(ss1, es1, m);
    ss', es' := CallCanShow(ss2, es2);
    AndOn(ss, es, ss1, es1, ss2, es2);
    AndOn(ss, es, ss2, es2, ss', es');
  }

  lemma SomethingStored(s: Publisher)
    requires Inv(s)
    ensures s.stored != []
  {
  }

  lemma FinishCanTakeTheLock(ss: seq<Publisher>, es: seq<Event>) returns (ss': seq<Publisher>, es': seq<Event>)
    requires Run(ss, es) && |ss| == |es| + 1 && ss[|es|].stored != [] && ss[|es|].fore.Idle?
    requires !ss[|es|].heart.Beating?
    ensures GoesOn(ss, es, ss', es')
    ensures var s, s' := ss[|es|], ss'[|es'|];
            && s'.fore.Finishing? && s'.fore.reading.GotDaemon? && s'.fore.reading.daemon == Stopped
            && s'.stored != [] && s'.persisted == s.persisted && s'.ready == s.ready && s'.error == s.error
  {
    hide Run;
    var ss1, es1 := OneMore(ss, es, FinishBegin);
    var ss2, es2 := OneMore(ss1, es1, FinishLock);
    ss', es' := OneMore(ss2, es2, FinishStore);
    AndOn(ss, es, ss1, es1, ss2, es2);
    AndOn(ss, es, ss2, es2, ss', es');
  }

  lemma FinishCanWrite(ss: seq<Publisher>, es: seq<Event>) returns (ss': seq<Publisher>, es': seq<Event>)
    requires Run(ss, es) && |ss| == |es| + 1 && ss[|es|].stored != [] && ss[|es|].fore.Finishing?
    requires ss[|es|].fore.reading.GotDaemon? && ss[|es|].fore.reading.daemon == Stopped
    ensures GoesOn(ss, es, ss', es')
    ensures var s, s' := ss[|es|], ss'[|es'|];
            s'.fore == Finished(true) && s'.persisted == s.persisted + [Snapshot(Stopped, s.ready, s.error)]
  {
    hide Run;
    var ss1, es1 := OneMore(ss, es, FinishRead);
    var ss2, es2 := OneMore(ss1, es1, FinishRead);
    ss', es' := OneMore(ss2, es2, FinishWrite(true));
    AndOn(ss, es, ss1, es1, ss2, es2);
    AndOn(ss, es, ss2, es2, ss', es');
  }

  /** And the clean finish can go through: the last snapshot is then a stop with the ready
      flag and the error as they were. */
  lemma StopCanBeShown(ss: seq<Publisher>, es: seq<Event>) returns (ss': seq<Publisher>, es': seq<Event>)
    requires Run(ss, es) && |ss| == |es| + 1 && ss[|es|].fore.Idle?
    ensures GoesOn(ss, es, ss', es')
    ensures var s, s' := ss[|es|], ss'[|es'|];
            s'.fore == Finished(true) && s'.persisted == s.persisted + [Snapshot(Stopped, s.ready, s.error)]
  {
    hide Run, Inv;
    RunKeepsInv(ss, es, |es|);
    SomethingStored(ss[|es|]);
    var ss1, es1 := LockCanBeFree(ss, es);
    var ss2, es2 := FinishCanTakeTheLock(ss1, es1);
    ss', es' := FinishCanWrite(ss2, es2);
    AndOn(ss, es, ss1, es1, ss2, es2);
    AndOn(ss, es, ss2, es2, ss', es');
  }
}
