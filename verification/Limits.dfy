// What bounds a run's appetite: no more goroutines and no longer queues than configured.
module Limits {
  import opened Model
  import opened Pipeline
  import opened Stages
  import opened Jobs
  import opened Records
  import opened Fanout
  import opened Outcomes
  import opened Gauging
  import opened Safety
  import opened Termination
  import opened Runs

  ghost predicate Within(c: Config, s: State) {
    && |s.front.workers| <= c.parseLimit
    && |s.back.execs| <= c.execLimit
    && |s.front.filesCh.buf| <= c.filesCap
    && |s.mid.jobsCh.buf| <= c.jobsCap
    && |s.back.readyCh.buf| <= c.readyCap
  }

  lemma FrontWithin(c: Config, cancelled: bool, f: Front, op: FrontOp)
    requires Sources(c, f) && FrontCloses(c, f, cancelled) && FrontEnabled(c, cancelled, f, op)
    requires |f.workers| <= c.parseLimit && |f.filesCh.buf| <= c.filesCap
    ensures |FrontNext(c, cancelled, f, op).workers| <= c.parseLimit
    ensures |FrontNext(c, cancelled, f, op).filesCh.buf| <= c.filesCap
  {
  }

  lemma BackWithin(c: Config, b: Back, op: BackOp)
    requires BackEnabled(c, b, op) && |b.execs| <= c.execLimit && |b.readyCh.buf| <= c.readyCap
    ensures |BackNext(c, b, op).execs| <= c.execLimit && |BackNext(c, b, op).readyCh.buf| <= c.readyCap
  {
  }

  lemma WorkersWithin(c: Config, s: State, i: nat, now: int)
    requires WorkEnabled(c, s, i)
    ensures |WorkFront(c, s, i, now).workers| <= |s.front.workers| && WorkFront(c, s, i, now).filesCh == s.front.filesCh
  {
    hide WorkerNext;
  }

  // How a step changes what is bounded; only the crawl and pool loops start anything.
  lemma StepWithin(c: Config, s: State, st: Step)
    requires Flow(c, s) && Enabled(c, s, st) && Within(c, s)
    ensures Within(c, Apply(c, s, st))
  {
    hide Sources, FrontCloses, Pacers, FrontNext, FrontEnabled, BackNext, BackEnabled, MidNext, PacerNext, Woken,
         WorkFront, WorkSeen, WorkResults, WorkStage, WorkServed, ExecNext, ExecGauges, PaceStage, DispatchStage, PaceCrashes;
    match st
    case FrontStep(op) => FrontWithin(c, s.cancelled, s.front, op);
    case Work(i, now) =>
      WorkersWithin(c, s, i, now);
      SendersOpen(c, s, i);
    case Dispatch(h) => MidWithin(s.mid, h);
    case Pace(h) => if s.mid.pacers[h].pc.Releasing? { ReleasersOpen(c, s, h); }
    case BackStep(op) => BackWithin(c, s.back, op);
    case _ =>
  }

  lemma SendersOpen(c: Config, s: State, i: nat)
    requires Flow(c, s) && i in s.front.workers
    ensures !s.mid.jobsCh.closed
  {
    hide Sources, Pacers, BackCloses;
  }

  lemma ReleasersOpen(c: Config, s: State, h: Host)
    requires Flow(c, s) && h in s.mid.pacers && s.mid.pacers[h].pc.Releasing?
    ensures !s.back.readyCh.closed
  {
    hide Sources, Pacers, FrontCloses;
  }

  lemma MidWithin(m: Mid, h: Host)
    requires DispatchEnabled(m, h)
    ensures |MidNext(m, h).jobsCh.buf| <= |m.jobsCh.buf|
  {
  }

  lemma {:induction false} RunWithin(c: Config, s: State, steps: seq<Step>, s': State)
    requires Inv(c, s) && Within(c, s) && Run(c, s, steps, s')
    ensures Within(c, s')
    decreases |steps|
  {
    hide Flow, Tracked, Recorded, Conserved, Gauged, Sourced, Enabled, Apply, Within;
    if steps != [] {
      StepWithin(c, s, steps[0]);
      InvStep(c, s, steps[0]);
      RunWithin(c, Apply(c, s, steps[0]), steps[1..], s');
    }
  }

  // In every reachable state of every interleaving: at most the configured number of files
  // are being parsed and of URLs being checked, and no channel holds more than its capacity.
  lemma LimitsHold(c: Config, s: State)
    requires Reachable(c, s)
    ensures |s.front.workers| <= c.parseLimit
    ensures |s.back.execs| <= c.execLimit
    ensures |s.front.filesCh.buf| <= c.filesCap && |s.mid.jobsCh.buf| <= c.jobsCap && |s.back.readyCh.buf| <= c.readyCap
  {
    hide Inv;
    var steps :| Run(c, Init(c), steps, s);
    InitInv(c);
    RunWithin(c, Init(c), steps, s);
  }
}
