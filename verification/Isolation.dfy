// Where a run that was not cancelled loses links: behind a host's own failed wait for a
// token, and nowhere else.
module Isolation {
  import opened Model
  import opened Pipeline
  import opened Stages
  import opened Jobs
  import opened Records
  import opened Fanout
  import opened Outcomes
  import opened Gauging
  import opened Safety
  import opened Progress
  import opened Termination
  import opened Runs
  import opened Guarantees

  // ---------------------------------------------------------------- what is lost, and where

  // A job is lost exactly when its host's pacer dropped it.
  ghost predicate LostHere(c: Config, g: StageMap, pacers: map<Host, Pacer>) {
    && (forall h, job :: h in pacers && job in pacers[h].lost ==> Carried(c, g, job, Lost) && job.host == h)
    && (forall h :: h in pacers ==> |pacers[h].lost| <= 1)
    && (forall o :: o in g && g[o] == Lost && IsNet(c, o) ==> HostOf(c, o) in pacers && JobOf(c, o) in pacers[HostOf(c, o)].lost)
  }

  ghost predicate Located(c: Config, s: State) {
    !s.cancelled ==> LostHere(c, s.stage, s.mid.pacers)
  }

  // No step but a pacer's own failure changes what a pacer has lost.
  ghost predicate SameLosses(pacers: map<Host, Pacer>, pacers': map<Host, Pacer>) {
    && (forall h :: h in pacers ==> h in pacers' && pacers'[h].lost == pacers[h].lost)
    && (forall h :: h in pacers' && h !in pacers ==> pacers'[h].lost == [])
  }

  ghost predicate NoNewLoss(g: StageMap, g': StageMap) {
    forall o :: o in g' && g'[o] == Lost ==> o in g && g[o] == Lost
  }

  predicate Loses(st: Step) {
    st.AcquireFail? || st.PaceAbort? || st.WorkAbort?
  }

  lemma DispatchLosses(m: Mid, h: Host)
    requires DispatchEnabled(m, h)
    ensures SameLosses(m.pacers, MidNext(m, h).pacers)
  {
  }

  lemma PacerLosses(p: Pacer, cancelled: bool)
    ensures PacerNext(p, cancelled).lost == p.lost && Woken(p).lost == p.lost
  {
  }

  lemma QuietLosses(c: Config, s: State, st: Step)
    requires Enabled(c, s, st) && !Loses(st)
    ensures SameLosses(s.mid.pacers, Apply(c, s, st).mid.pacers)
  {
    hide MidNext, PacerNext, Woken, WorkFront, WorkSeen, WorkResults, WorkStage, WorkServed, ExecGauges, ExecNext,
         FrontNext, BackNext, DispatchEnabled, PaceStage, DispatchStage, PaceCrashes;
    match st
    case Dispatch(h) => DispatchLosses(s.mid, h);
    case Pace(h) => PacerLosses(s.mid.pacers[h], s.cancelled);
    case CtxBroadcast(h) => PacerLosses(s.mid.pacers[h], s.cancelled);
    case _ =>
  }

  lemma QuietStages(c: Config, s: State, st: Step)
    requires Enabled(c, s, st) && !Loses(st)
    ensures NoNewLoss(s.stage, Apply(c, s, st).stage)
  {
    match st
    case Work(i, now) => hide WorkFront, WorkSeen, WorkResults, WorkServed;
    case Dispatch(h) => hide MidNext;
    case Pace(h) => hide PacerNext;
    case Execute(o, res, now) => hide ExecGauges, ExecNext;
    case _ =>
  }

  lemma LostHereKept(c: Config, g: StageMap, g': StageMap, pacers: map<Host, Pacer>, pacers': map<Host, Pacer>)
    requires LostHere(c, g, pacers) && SameLosses(pacers, pacers')
    requires LossFinal(g, g') && NoNewLoss(g, g')
    ensures LostHere(c, g', pacers')
  {
  }

  // A pacer that gives up drops the job in its hand, its first.
  lemma DropLocated(c: Config, s: State, h: Host)
    requires LostHere(c, s.stage, s.mid.pacers) && AtPacers(c, s.stage, s.mid.pacers)
    requires h in s.mid.pacers && (s.mid.pacers[h].pc.Acquiring? || s.mid.pacers[h].pc.Releasing?)
    requires s.mid.pacers[h].lost == []
    ensures LostHere(c, Abandon(s, h).stage, Abandon(s, h).mid.pacers)
  {
    assert AtPacer(c, s.stage, h, s.mid.pacers[h]);
    hide Lists, AtPacers, AtPacer;
    DropHere(c, s.stage, s.mid.pacers, h, s.mid.pacers[h].pc.job, Dropped(s.mid.pacers[h]));
  }

  lemma DropHere(c: Config, g: StageMap, pacers: map<Host, Pacer>, h: Host, job: Job, p': Pacer)
    requires LostHere(c, g, pacers) && h in pacers && pacers[h].lost == [] && p'.lost == [job]
    requires Carried(c, g, job, Pacing) && job.host == h
    ensures LostHere(c, g[job.sample := Lost], pacers[h := p'])
  {
  }

  lemma LocatedStep(c: Config, s: State, st: Step)
    requires Inv(c, s) && Enabled(c, s, st) && Located(c, s)
    ensures Located(c, Apply(c, s, st))
  {
    hide LostHere, SameLosses, NoNewLoss, LossFinal, Flow, Recorded, Conserved, Gauged, Sourced, AtWorkers, AtPacers, AtExecs,
         AtDisp, AtPoolLoop, Lists, DoFront, DoWork, DoDispatch, DoPace, DoBack, DoExecute, Abandon;
    if !Loses(st) {
      QuietLosses(c, s, st);
      QuietStages(c, s, st);
      StepLossFinal(c, s, st);
      CancelLasts(c, s, st);
      if !Apply(c, s, st).cancelled {
        LostHereKept(c, s.stage, Apply(c, s, st).stage, s.mid.pacers, Apply(c, s, st).mid.pacers);
      }
    } else if st.AcquireFail? {
      AcquireFailLocated(c, s, st.host);
    } else {
      AbortsCancelled(c, s, st);
    }
  }

  lemma CancelLasts(c: Config, s: State, st: Step)
    requires Enabled(c, s, st)
    ensures s.cancelled ==> Apply(c, s, st).cancelled
  {
    hide MidNext, PacerNext, Woken, WorkFront, WorkSeen, WorkResults, WorkStage, WorkServed, ExecGauges, ExecNext,
         FrontNext, BackNext, DispatchEnabled, PaceStage, DispatchStage, PaceCrashes;
  }

  lemma AbortsCancelled(c: Config, s: State, st: Step)
    requires Enabled(c, s, st) && (st.PaceAbort? || st.WorkAbort?)
    ensures Apply(c, s, st).cancelled
  {
  }

  lemma AcquireFailLocated(c: Config, s: State, h: Host)
    requires Inv(c, s) && Enabled(c, s, AcquireFail(h)) && Located(c, s)
    ensures Located(c, Apply(c, s, AcquireFail(h)))
  {
    hide LostHere, Recorded, Conserved, Gauged, Sourced, AtWorkers, AtPacers, AtExecs, AtDisp, AtPoolLoop, Lists;
    DroppedFlow(c, s, h);
    if !s.cancelled { DropLocated(c, s, h); }
  }

  lemma {:induction false} RunLocated(c: Config, s: State, steps: seq<Step>, s': State)
    requires Inv(c, s) && Located(c, s) && Run(c, s, steps, s')
    ensures Located(c, s')
    decreases |steps|
  {
    hide Inv, Located, Enabled, Apply;
    if steps != [] {
      InvStep(c, s, steps[0]);
      LocatedStep(c, s, steps[0]);
      RunLocated(c, Apply(c, s, steps[0]), steps[1..], s');
    }
  }

  lemma ReachableLocated(c: Config, s: State)
    requires Reachable(c, s)
    ensures Located(c, s)
  {
    hide Inv;
    var steps :| Run(c, Init(c), steps, s);
    InitInv(c);
    RunLocated(c, Init(c), steps, s);
  }

  // ---------------------------------------------------------------- whose wait failed

  lemma LossNeedsFailure(c: Config, s: State, st: Step, h: Host)
    requires Enabled(c, s, st) && st != AcquireFail(h)
    requires h in s.mid.pacers ==> s.mid.pacers[h].lost == []
    ensures Apply(c, s, st).cancelled || (h in Apply(c, s, st).mid.pacers ==> Apply(c, s, st).mid.pacers[h].lost == [])
  {
    hide SameLosses, Enabled, Apply;
    if !Loses(st) {
      hide Enabled;
      QuietLosses(c, s, st);
      NewPacersLostNothing(s.mid.pacers, Apply(c, s, st).mid.pacers, h);
    } else if st.AcquireFail? {
      OtherPacer(c, s, st.host, h);
    } else {
      AbortsCancelled(c, s, st);
    }
  }

  lemma NewPacersLostNothing(pacers: map<Host, Pacer>, pacers': map<Host, Pacer>, h: Host)
    requires SameLosses(pacers, pacers') && (h in pacers ==> pacers[h].lost == [])
    ensures h in pacers' ==> pacers'[h].lost == []
  {
  }

  lemma OtherPacer(c: Config, s: State, k: Host, h: Host)
    requires Enabled(c, s, AcquireFail(k)) && h != k
    ensures h in Apply(c, s, AcquireFail(k)).mid.pacers ==>
              h in s.mid.pacers && Apply(c, s, AcquireFail(k)).mid.pacers[h] == s.mid.pacers[h]
  {
  }

  lemma {:induction false} OwnWaitsFail(c: Config, s: State, steps: seq<Step>, s': State, h: Host)
    requires Run(c, s, steps, s') && !s'.cancelled && AcquireFail(h) !in steps
    requires h in s.mid.pacers ==> s.mid.pacers[h].lost == []
    ensures h in s'.mid.pacers ==> s'.mid.pacers[h].lost == []
    decreases |steps|
  {
    hide Enabled, Apply;
    if steps != [] {
      LossNeedsFailure(c, s, steps[0], h);
      if Apply(c, s, steps[0]).cancelled { StaysCancelled(c, Apply(c, s, steps[0]), steps[1..], s'); }
      OwnWaitsFail(c, Apply(c, s, steps[0]), steps[1..], s', h);
    }
  }

  lemma {:induction false} StaysCancelled(c: Config, s: State, steps: seq<Step>, s': State)
    requires Run(c, s, steps, s') && s.cancelled
    ensures s'.cancelled
    decreases |steps|
  {
    hide Enabled, Apply;
    if steps != [] {
      CancelLasts(c, s, steps[0]);
      StaysCancelled(c, Apply(c, s, steps[0]), steps[1..], s');
    }
  }

  // ---------------------------------------------------------------- the theorems

  // The occurrence whose check a link waited for.
  function OriginOf(c: Config, s: State, o: Occ): Occ
    requires IsNet(c, o) && KeyOf(c, o) in s.seen
  {
    s.seen[KeyOf(c, o)].origin
  }

  // The job made for an occurrence was dropped by its host's pacer or left in its queue.
  ghost predicate LeftBehind(c: Config, s: State, j: Occ) {
    && j in s.stage && IsNet(c, j)
    && HostOf(c, j) in s.mid.pacers
    && JobOf(c, j) in s.mid.pacers[HostOf(c, j)].lost + s.mid.pacers[HostOf(c, j)].q
  }

  // What a pacer's queue and losses say about a job's stage, both ways.
  lemma BehindStage(c: Config, g: StageMap, pacers: map<Host, Pacer>, h: Host, j: Occ)
    requires LostHere(c, g, pacers) && AtPacers(c, g, pacers) && j in g && IsNet(c, j) && HostOf(c, j) == h
    ensures h in pacers && JobOf(c, j) in pacers[h].lost + pacers[h].q <==> g[j] == Lost || g[j] == Queued
  {
    if h in pacers {
      assert AtPacer(c, g, h, pacers[h]);
      assert JobOf(c, j) in pacers[h].lost + pacers[h].q <==> JobOf(c, j) in pacers[h].lost || JobOf(c, j) in pacers[h].q;
    }
  }

  lemma LeftBehindStage(c: Config, s: State, j: Occ)
    requires Inv(c, s) && Final(s) && !s.cancelled && Located(c, s) && j in s.stage
    ensures LeftBehind(c, s, j) <==> s.stage[j] != Finis
  {
    hide Recorded, Gauged, Sourced, Conserved, AtWorkers, AtExecs, AtDisp, AtPoolLoop, AtPacers, LostHere, Flow, Lists;
    FinalStage(c, s, j);
    BehindStage(c, s.stage, s.mid.pacers, HostOf(c, j), j);
  }

  lemma FinalDone(c: Config, s: State, o: Occ)
    requires Inv(c, s) && Final(s) && !s.cancelled && IsNet(c, o)
    ensures KeyOf(c, o) in s.seen
    ensures Times(s.results, o) == if s.seen[KeyOf(c, o)].done then 1 else 0
    ensures OriginOf(c, s, o) in s.stage ==> (s.seen[KeyOf(c, o)].done <==> s.stage[OriginOf(c, s, o)].Fanned? || s.stage[OriginOf(c, s, o)] == Finis)
    ensures OriginOf(c, s, o) !in s.stage ==> s.seen[KeyOf(c, o)].done
  {
    hide Flow, Tracked, Reported, Gauged, Sourced, Conserved, Held, Times, Reached;
    FinalReached(c, s, o);
    FinalCopies(c, s, o);
    DoneHoldsNothing(c, s, o);
    if Times(s.results, o) > 0 { TimesFound(c, s, o); }
    HeldKnown(c, s, o);
    var j := OriginOf(c, s, o);
    assert RecordSound(c, s.stage, KeyOf(c, o), s.seen[KeyOf(c, o)]);
    if j in s.stage { assert Owned(c, s.seen, s.stage, j); }
  }

  lemma HeldKnown(c: Config, s: State, o: Occ)
    requires IsNet(c, o)
    ensures Held(c, s.seen, o) > 0 ==> KeyOf(c, o) in s.seen
  {
  }

  // In a finished run that was not cancelled, a network link is unreported exactly when the
  // job of its URL was dropped by its host's pacer, or was still queued there when the pacer
  // gave up.
  lemma UnreportedIffLeftBehind(c: Config, s: State, o: Occ)
    requires Reachable(c, s) && Final(s) && !s.cancelled && IsNet(c, o)
    ensures KeyOf(c, o) in s.seen
    ensures Times(s.results, o) == 0 <==> LeftBehind(c, s, OriginOf(c, s, o))
  {
    hide Reachable, Inv, Located, LeftBehind, Times;
    ReachableInv(c, s);
    ReachableLocated(c, s);
    FinalDone(c, s, o);
    var j := OriginOf(c, s, o);
    if j in s.stage {
      LeftBehindStage(c, s, j);
      FinalStageOf(c, s, j);
    } else {
      NotLeft(c, s, j);
    }
  }

  lemma FinalStageOf(c: Config, s: State, j: Occ)
    requires Inv(c, s) && Final(s) && j in s.stage
    ensures s.stage[j] != Fanned
  {
    FinalStage(c, s, j);
  }

  lemma NotLeft(c: Config, s: State, j: Occ)
    requires j !in s.stage
    ensures !LeftBehind(c, s, j)
  {
  }

  // Hosts do not affect each other: in a finished run that was not cancelled, a host whose
  // own waits never failed has released every job it accepted, and every link whose URL it
  // serves is reported, whatever became of the others.
  lemma HostsAreIsolated(c: Config, steps: seq<Step>, s: State, h: Host)
    requires Run(c, Init(c), steps, s) && Final(s) && !s.cancelled && AcquireFail(h) !in steps
    ensures h in s.mid.pacers ==> s.mid.pacers[h].released == s.mid.pacers[h].accepted
    ensures forall o :: IsNet(c, o) && KeyOf(c, o) in s.seen && IsNet(c, OriginOf(c, s, o)) && HostOf(c, OriginOf(c, s, o)) == h
                        ==> Times(s.results, o) == 1
  {
    hide Run, Inv, Times, LeftBehind;
    assert Reachable(c, s);
    ReachableInv(c, s);
    OwnWaitsFail(c, Init(c), steps, s, h);
    if h in s.mid.pacers { NothingLeft(c, s, h); }
    forall o | IsNet(c, o) && KeyOf(c, o) in s.seen && IsNet(c, OriginOf(c, s, o)) && HostOf(c, OriginOf(c, s, o)) == h
      ensures Times(s.results, o) == 1
    {
      UnreportedIffLeftBehind(c, s, o);
      AtMostOnce(c, s, o);
      NotBehind(c, s, OriginOf(c, s, o));
    }
  }

  lemma NotBehind(c: Config, s: State, j: Occ)
    requires IsNet(c, j)
    requires HostOf(c, j) in s.mid.pacers ==> s.mid.pacers[HostOf(c, j)].lost == [] && s.mid.pacers[HostOf(c, j)].q == []
    ensures !LeftBehind(c, s, j)
  {
  }

  lemma NothingLeft(c: Config, s: State, h: Host)
    requires Inv(c, s) && Final(s) && !s.cancelled && h in s.mid.pacers && s.mid.pacers[h].lost == []
    ensures s.mid.pacers[h].q == [] && s.mid.pacers[h].released == s.mid.pacers[h].accepted
  {
    hide Tracked, Recorded, Conserved, Gauged, Sourced;
    assert Awake(h, s.mid.pacers[h], s.mid.disp, s.cancelled) && Conserves(s.mid.pacers[h], Clean(s));
  }

  // A host whose wait failed lost the job it was waiting for and those queued behind it, and
  // had released the ones before.
  lemma FailedWaitLosesTheRest(c: Config, s: State, h: Host)
    requires Reachable(c, s) && Final(s) && !s.cancelled && h in s.mid.pacers && s.mid.pacers[h].lost != []
    ensures |s.mid.pacers[h].lost| == 1
    ensures s.mid.pacers[h].accepted == s.mid.pacers[h].released + s.mid.pacers[h].lost + s.mid.pacers[h].q
    ensures forall job :: job in s.mid.pacers[h].lost + s.mid.pacers[h].q ==>
              IsNet(c, job.sample) && job == JobOf(c, job.sample) && job.host == h && Times(s.results, job.sample) == 0
  {
    hide Reachable, Times, Tracked, Recorded, Conserved, Gauged, Sourced;
    ReachableInv(c, s);
    ReachableLocated(c, s);
    assert Conserves(s.mid.pacers[h], Clean(s)) && Awake(h, s.mid.pacers[h], s.mid.disp, s.cancelled);
    forall job | job in s.mid.pacers[h].lost + s.mid.pacers[h].q
      ensures IsNet(c, job.sample) && job == JobOf(c, job.sample) && job.host == h && Times(s.results, job.sample) == 0
    {
      BehindUnreported(c, s, h, job);
    }
  }

  lemma BehindUnreported(c: Config, s: State, h: Host, job: Job)
    requires Reachable(c, s) && Final(s) && !s.cancelled && h in s.mid.pacers
    requires job in s.mid.pacers[h].lost + s.mid.pacers[h].q
    ensures IsNet(c, job.sample) && job == JobOf(c, job.sample) && job.host == h && Times(s.results, job.sample) == 0
  {
    hide Reachable, Times, Flow, Recorded, Gauged, Sourced, Conserved, AtWorkers, AtExecs, AtDisp, AtPoolLoop, AtPacers, LostHere;
    ReachableInv(c, s);
    ReachableLocated(c, s);
    BehindCarried(c, s.stage, s.mid.pacers, h, job);
    OwnOrigin(c, s, job.sample);
    UnreportedIffLeftBehind(c, s, job.sample);
  }

  lemma BehindCarried(c: Config, g: StageMap, pacers: map<Host, Pacer>, h: Host, job: Job)
    requires LostHere(c, g, pacers) && AtPacers(c, g, pacers) && h in pacers && job in pacers[h].lost + pacers[h].q
    ensures job.sample in g && IsNet(c, job.sample) && job == JobOf(c, job.sample) && job.host == h
  {
    assert AtPacer(c, g, h, pacers[h]);
  }

  lemma OwnOrigin(c: Config, s: State, o: Occ)
    requires Recorded(c, s.seen, s.stage) && o in s.stage
    ensures IsNet(c, o) && KeyOf(c, o) in s.seen && OriginOf(c, s, o) == o
  {
    assert Owned(c, s.seen, s.stage, o);
  }
}
