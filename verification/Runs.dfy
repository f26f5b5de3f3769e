// Whole runs: every reachable state has the invariant, and a job once lost stays lost.
module Runs {
  import opened Model
  import opened ResultCache
  import opened Dedup
  import opened Pipeline
  import opened Stages
  import opened Jobs
  import opened Records
  import opened Fanout
  import opened Outcomes
  import opened Gauging
  import opened Safety
  import opened Termination

  // A failed token wait leaves a job that no executor will ever see.
  ghost predicate LossNoted(s: State) {
    s.acquireErrs > 0 ==> exists o :: o in s.stage && s.stage[o] == Lost
  }

  // A lost job stays lost.
  ghost predicate LossFinal(g: StageMap, g': StageMap) {
    forall o :: o in g && g[o] == Lost ==> o in g' && g'[o] == Lost
  }

  lemma WorkLoss(c: Config, s: State, i: nat, now: int)
    requires Inv(c, s) && WorkEnabled(c, s, i)
    ensures LossFinal(s.stage, WorkStage(c, s, i, now))
  {
    hide Recorded, AtPacers, AtDisp, AtPoolLoop, Lists, Conserved, AtWorkers, WorkSeen, WorkFront;
    WorkRecords(c, s, i, now);
    WorkWorkers(c, s, i, now);
  }

  lemma ExecuteLoss(c: Config, s: State, o: Occ, res: Result, now: int)
    requires Inv(c, s) && ExecEnabled(c, s, o, res)
    ensures LossFinal(s.stage, DoExecute(c, s, o, res, now).stage)
  {
    hide Recorded, AtPacers, AtDisp, AtPoolLoop, Lists, Conserved, AtWorkers, AtExecs;
    ExecsNext(c, s.stage, s.back.execs, s.seen, o, res);
  }

  lemma ShufflesLoss(g: StageMap, g': StageMap)
    requires Shuffles(g, g')
    ensures LossFinal(g, g')
  {
    if g' != g {
      var o, y :| Shuffle(g, g', o, y);
    }
  }

  lemma StepLossFinal(c: Config, s: State, st: Step)
    requires Inv(c, s) && Enabled(c, s, st)
    ensures LossFinal(s.stage, Apply(c, s, st).stage)
    ensures st.AcquireFail? ==> exists o :: o in Apply(c, s, st).stage && Apply(c, s, st).stage[o] == Lost
  {
    hide Recorded, AtPacers, AtDisp, AtPoolLoop, Lists, Conserved, AtWorkers, AtExecs, LossFinal, Shuffles,
         DoWork, DoDispatch, DoPace, DoBack, DoExecute, Flow;
    match st {
      case Work(i, now) => WorkStep(c, s, i, now);
      case WorkAbort(i) => AbortLocated(c, s, i);
      case Dispatch(h) => DispatchLocated(c, s, h);
      case Pace(h) => PaceLocated(c, s, h);
      case AcquireFail(h) =>
        AbandonLocated(c, s, h);
        assert Apply(c, s, st).stage[s.mid.pacers[h].pc.job.sample] == Lost;
      case PaceAbort(h) => AbandonLocated(c, s, h);
      case BackStep(op) => BackLocated(c, s, op);
      case Execute(o, res, now) => ExecuteLoss(c, s, o, res, now);
      case _ => SameLoss(c, s, st);
    }
    if Shuffles(s.stage, Apply(c, s, st).stage) {
      ShufflesLoss(s.stage, Apply(c, s, st).stage);
    }
  }

  lemma WorkStep(c: Config, s: State, i: nat, now: int)
    requires Inv(c, s) && WorkEnabled(c, s, i)
    ensures LossFinal(s.stage, DoWork(c, s, i, now).stage)
  {
    WorkLoss(c, s, i, now);
    hide LossFinal;
  }

  lemma SameLoss(c: Config, s: State, st: Step)
    requires Enabled(c, s, st) && (st.Cancel? || st.FrontStep? || st.CtxBroadcast?)
    ensures LossFinal(s.stage, Apply(c, s, st).stage)
  {
  }

  lemma LossStep(c: Config, s: State, st: Step)
    requires Inv(c, s) && Enabled(c, s, st) && LossNoted(s)
    ensures LossNoted(Apply(c, s, st))
  {
    hide Inv;
    StepLossFinal(c, s, st);
    if !st.AcquireFail? && s.acquireErrs > 0 {
      var o :| o in s.stage && s.stage[o] == Lost;
      assert o in Apply(c, s, st).stage && Apply(c, s, st).stage[o] == Lost;
    }
  }

  ghost predicate Reachable(c: Config, s: State) {
    exists steps :: Run(c, Init(c), steps, s)
  }

  lemma {:induction false} RunKeeps(c: Config, s: State, steps: seq<Step>, s': State)
    requires Inv(c, s) && LossNoted(s) && Run(c, s, steps, s')
    ensures Inv(c, s') && LossNoted(s')
    decreases |steps|
  {
    hide Inv, LossNoted, Enabled, Apply;
    if steps != [] {
      InvStep(c, s, steps[0]);
      LossStep(c, s, steps[0]);
      RunKeeps(c, Apply(c, s, steps[0]), steps[1..], s');
    }
  }

  lemma ReachableInv(c: Config, s: State)
    requires Reachable(c, s)
    ensures Inv(c, s) && LossNoted(s)
  {
    var steps :| Run(c, Init(c), steps, s);
    InitInv(c);
    RunKeeps(c, Init(c), steps, s);
  }
}
