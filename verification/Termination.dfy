// Termination: a lexicographic pair drops on every step, the caller's cancellation and
// every failure included, so no run is infinite.
//
// The first component charges every source, link, job, pacer and executor for the steps it
// can still take up to the end of its check; the second counts the results executors have
// still to emit, which only complete can add to.
module Termination {
  import opened Model
  import opened Pipeline
  import opened Stages
  import opened Jobs
  import opened Records
  import opened Fanout
  import opened Safety
  import opened Progress

  // ---------------------------------------------------------------- sums over maps

  ghost function Sum<K(!new), V(!new)>(m: map<K, V>, f: (K, V) -> nat): nat {
    if m == map[] then 0
    else
      var k :| k in m;
      f(k, m[k]) + Sum(m - {k}, f)
  }

  lemma {:induction false} SumRemove<K(!new), V(!new)>(m: map<K, V>, f: (K, V) -> nat, k: K)
    requires k in m
    ensures Sum(m, f) == f(k, m[k]) + Sum(m - {k}, f)
    decreases m
  {
    var j :| j in m && Sum(m, f) == f(j, m[j]) + Sum(m - {j}, f);
    if j != k {
      SumRemove(m - {j}, f, k);
      SumRemove(m - {k}, f, j);
      assert m - {j} - {k} == m - {k} - {j};
    }
  }

  lemma SumSet<K(!new), V(!new)>(m: map<K, V>, f: (K, V) -> nat, k: K, v: V)
    ensures Sum(m[k := v], f) == f(k, v) + Sum(m - {k}, f)
    ensures k !in m ==> Sum(m[k := v], f) == f(k, v) + Sum(m, f)
    ensures k in m ==> Sum(m[k := v], f) + f(k, m[k]) == f(k, v) + Sum(m, f)
  {
    SumRemove(m[k := v], f, k);
    assert m[k := v] - {k} == m - {k};
    if k in m {
      SumRemove(m, f, k);
    } else {
      assert m - {k} == m;
    }
  }

  // ---------------------------------------------------------------- the measure

  function LinksOf(c: Config, i: nat): nat {
    if i < |c.sources| then |c.sources[i]| else 0
  }

  function Unsent(c: Config, i: nat): nat
    decreases |c.sources| - i
  {
    if i < |c.sources| then 4 + 40 * LinksOf(c, i) + Unsent(c, i + 1) else 0
  }

  function Waiting(c: Config, buf: seq<nat>): nat {
    if buf == [] then 0 else 3 + 40 * LinksOf(c, buf[0]) + Waiting(c, buf[1..])
  }

  lemma WaitingPush(c: Config, buf: seq<nat>, i: nat)
    ensures Waiting(c, buf + [i]) == Waiting(c, buf) + 3 + 40 * LinksOf(c, i)
  {
    if buf != [] {
      assert (buf + [i])[1..] == buf[1..] + [i];
    }
  }

  function CrawlCost(pc: CrawlPc): nat {
    match pc
    case Crawling => 3
    case Closing(_) => 2
    case Returning(_) => 1
    case Returned => 0
  }

  function ParserCost(c: Config, pc: LoopPc<nat>): nat {
    match pc
    case Ranging => 2
    case Holding(i) => 4 + 40 * LinksOf(c, i)
    case Draining => 1
    case Finished => 0
  }

  function WorkerCost(c: Config, i: nat, w: Worker): nat {
    var left := if w.pos < LinksOf(c, i) then LinksOf(c, i) - w.pos else 0;
    match w.pc
    case AtLink => 1 + 40 * left
    case InGap => 1 + 40 * left - (if left > 0 then 1 else 0)
    case Emitting(_) => 1 + 40 * left - (if left > 0 then 2 else 0)
    case Counting(_) => 1 + 40 * left - (if left > 0 then 3 else 0)
    case Offering(_) => 1 + 40 * left - (if left > 0 then 4 else 0)
  }

  function WorkerWeight(c: Config): (nat, Worker) -> nat {
    (i, w) => WorkerCost(c, i, w)
  }

  ghost function FrontCost(c: Config, f: Front): nat {
    CrawlCost(f.crawl) + Unsent(c, f.sent) + Waiting(c, f.filesCh.buf) + ParserCost(c, f.parser) +
    Sum(f.workers, WorkerWeight(c))
  }

  function PacerCost(p: Pacer): nat {
    13 * |p.q| + (if p.done then 0 else 6) + (if p.ctxFired then 0 else 4) +
    match p.pc
    case Starting => 5
    case WantLock => 4
    case Locked => 3
    case Guarded => 2
    case Entering => 2
    case Waiting => 1
    case Acquiring(_) => 14
    case Releasing(_) => 13
    case Exited => 0
  }

  function PacerWeight(): (Host, Pacer) -> nat {
    (h, p) => PacerCost(p)
  }

  function DispCost(d: DispPc, hosts: set<Host>): nat {
    match d
    case Reading => 3
    case Routing(job) => 21 + if job.host in hosts then 0 else 16
    case Signalling(_) => 7
    case ClosingPacers(_) => 2
    case Broadcasting(_, _) => 7
    case AwaitingPacers => 1
    case Retired => 0
  }

  ghost function MidCost(m: Mid): nat {
    35 * |m.jobsCh.buf| + DispCost(m.disp, m.pacers.Keys) + Sum(m.pacers, PacerWeight())
  }

  function ExecCost(e: Exec): nat {
    match e.pc
    case Begun => 6
    case Checking => 5
    case Checked(_) => 4
    case Storing(_) => 3
    case Completing(_) => 2
    case Located(_) => 1
    case Fanning(_, _, _) => 0
  }

  function ExecWeight(): (Occ, Exec) -> nat {
    (o, e) => ExecCost(e)
  }

  function PoolCost(pc: LoopPc<Job>): nat {
    match pc
    case Ranging => 2
    case Holding(_) => 9
    case Draining => 1
    case Finished => 0
  }

  ghost function BackCost(b: Back): nat {
    8 * |b.readyCh.buf| + PoolCost(b.pool) + Sum(b.execs, ExecWeight())
  }

  function FanCost(e: Exec): nat {
    if e.pc.Fanning? then |e.pc.rest| + 1 else 0
  }

  function FanWeight(): (Occ, Exec) -> nat {
    (o, e) => FanCost(e)
  }

  ghost function Work1(c: Config, s: State): nat {
    (if s.cancelled then 0 else 1) + FrontCost(c, s.front) + MidCost(s.mid) + BackCost(s.back)
  }

  ghost function Work2(s: State): nat {
    Sum(s.back.execs, FanWeight())
  }

  ghost predicate Less(c: Config, s': State, s: State) {
    Work1(c, s') < Work1(c, s) || (Work1(c, s') == Work1(c, s) && Work2(s') < Work2(s))
  }

  // ---------------------------------------------------------------- every step drops it

  lemma FrontDrops(c: Config, cancelled: bool, f: Front, op: FrontOp)
    requires FrontEnabled(c, cancelled, f, op) && (op.ParseSpawn? ==> f.parser.item !in f.workers)
    ensures FrontCost(c, FrontNext(c, cancelled, f, op)) < FrontCost(c, f)
  {
    if op.ParseSpawn? {
      SpawnDrops(c, f);
    } else {
      hide Sum, WorkerCost, LinksOf;
      if op.CrawlSend? { WaitingPush(c, f.filesCh.buf, f.sent); }
    }
  }

  lemma SpawnDrops(c: Config, f: Front)
    requires f.parser.Holding? && f.parser.item !in f.workers
    ensures FrontCost(c, f.(parser := Ranging, workers := f.workers[f.parser.item := Worker(0, AtLink)])) < FrontCost(c, f)
  {
    hide Sum, Unsent, LinksOf;
    SumSet(f.workers, WorkerWeight(c), f.parser.item, Worker(0, AtLink));
  }

  lemma WorkerDrops(c: Config, s: State, i: nat, now: int)
    requires WorkEnabled(c, s, i) && !AtEnd(c, i, s.front.workers[i])
    ensures WorkerCost(c, i, WorkerNext(c, s, i, now)) + (if s.front.workers[i].pc.Offering? then 35 else 0)
            < WorkerCost(c, i, s.front.workers[i])
  {
  }

  lemma WorkDrops(c: Config, s: State, i: nat, now: int)
    requires WorkEnabled(c, s, i)
    ensures Less(c, DoWork(c, s, i, now), s)
  {
    var w := s.front.workers[i];
    if AtEnd(c, i, w) {
      SumRemove(s.front.workers, WorkerWeight(c), i);
    } else {
      WorkerDrops(c, s, i, now);
      SumSet(s.front.workers, WorkerWeight(c), i, WorkerNext(c, s, i, now));
    }
    hide WorkerCost, WorkerNext, WorkSeen, WorkStage, WorkResults, Sum;
  }

  lemma AbortDrops(c: Config, s: State, i: nat)
    requires Enabled(c, s, WorkAbort(i)) && WorkerSound(c, i, s.front.workers[i])
    ensures Less(c, Apply(c, s, WorkAbort(i)), s)
  {
    SumSet(s.front.workers, WorkerWeight(c), i, Worker(s.front.workers[i].pos + 1, AtLink));
    hide Sum;
  }

  lemma MidDrops(m: Mid, h: Host)
    requires DispatchEnabled(m, h) && (m.disp.ClosingPacers? && m.disp.rest != {} ==> !m.pacers[h].done)
    ensures MidCost(MidNext(m, h)) < MidCost(m)
  {
    hide Sum;
    match m.disp
    case Reading =>
    case Routing(job) =>
      SumSet(m.pacers, PacerWeight(), job.host,
             if job.host in m.pacers then Enqueued(m.pacers[job.host], job) else NewPacer());
      assert MidNext(m, h).pacers.Keys == m.pacers.Keys + {job.host};
    case Signalling(host) => SumSet(m.pacers, PacerWeight(), host, Woken(m.pacers[host]));
    case ClosingPacers(rest) =>
      if rest != {} { SumSet(m.pacers, PacerWeight(), h, m.pacers[h].(done := true)); }
    case Broadcasting(host, rest) => SumSet(m.pacers, PacerWeight(), host, Woken(m.pacers[host]));
    case AwaitingPacers =>
  }

  // Replacing one pacer by a cheaper one, for steps that take at most extra elsewhere.
  lemma PacerDrops(m: Mid, h: Host, p: Pacer, extra: nat)
    requires h in m.pacers && PacerCost(p) + extra < PacerCost(m.pacers[h])
    ensures MidCost(m.(pacers := m.pacers[h := p])) + extra < MidCost(m)
  {
    SumSet(m.pacers, PacerWeight(), h, p);
    assert m.pacers[h := p].Keys == m.pacers.Keys;
  }

  lemma PaceDrops(c: Config, s: State, h: Host)
    requires PaceEnabled(c, s, h) && (s.mid.pacers[h].pc.Guarded? ==> s.cancelled || s.mid.pacers[h].q != [] || s.mid.pacers[h].done)
    ensures Less(c, DoPace(c, s, h), s)
  {
    hide MidCost, FrontCost, Sum;
    var p := s.mid.pacers[h];
    PacerDrops(s.mid, h, PacerNext(p, s.cancelled), if p.pc.Releasing? then 8 else 0);
  }

  lemma BackDrops(c: Config, s: State, op: BackOp)
    requires BackEnabled(c, s.back, op) && (op.PoolSpawn? ==> s.back.pool.item.sample !in s.back.execs)
    ensures Less(c, DoBack(c, s, op), s)
  {
    hide MidCost, FrontCost, Sum;
    if op.PoolSpawn? {
      SumSet(s.back.execs, ExecWeight(), s.back.pool.item.sample, Exec(s.back.pool.item, Begun));
    }
  }

  lemma ExecuteDrops(c: Config, s: State, o: Occ, res: Result, now: int)
    requires ExecEnabled(c, s, o, res)
    ensures Less(c, DoExecute(c, s, o, res, now), s)
  {
    hide MidCost, FrontCost, Sum;
    var e := s.back.execs[o];
    if ExecEnds(e) {
      SumRemove(s.back.execs, ExecWeight(), o);
      SumRemove(s.back.execs, FanWeight(), o);
    } else {
      SumSet(s.back.execs, ExecWeight(), o, ExecNext(e, s.seen, res));
      SumSet(s.back.execs, FanWeight(), o, ExecNext(e, s.seen, res));
    }
  }

  lemma DispatchDrops(c: Config, s: State, h: Host)
    requires DispatchEnabled(s.mid, h) && Pacers(s.mid, s.cancelled, Clean(s))
    ensures Less(c, DoDispatch(s, h), s)
  {
    assert s.mid.disp.ClosingPacers? && s.mid.disp.rest != {} ==> !s.mid.pacers[h].done by {
      if s.mid.disp.ClosingPacers? && s.mid.disp.rest != {} {
        assert Awake(h, s.mid.pacers[h], s.mid.disp, s.cancelled);
      }
    }
    MidDrops(s.mid, h);
    hide MidCost, FrontCost, Sum, Pacers;
  }

  lemma FrontStepDrops(c: Config, s: State, op: FrontOp)
    requires FrontEnabled(c, s.cancelled, s.front, op) && Sources(c, s.front)
    ensures Less(c, DoFront(c, s, op), s)
  {
    hide FrontCost, BackCost, Sum, FrontNext;
    SpawnsFresh(c, s, op);
    hide Sources;
    FrontDrops(c, s.cancelled, s.front, op);
  }

  lemma SpawnsFresh(c: Config, s: State, op: FrontOp)
    requires FrontEnabled(c, s.cancelled, s.front, op) && Sources(c, s.front)
    ensures op.ParseSpawn? ==> s.front.parser.item !in s.front.workers
  {
  }

  lemma PacerStepDrops(c: Config, s: State, st: Step)
    requires Enabled(c, s, st) && (st.AcquireFail? || st.PaceAbort? || st.CtxBroadcast?)
    ensures Less(c, Apply(c, s, st), s)
  {
    hide MidCost, FrontCost, BackCost, Sum;
    var p := s.mid.pacers[st.host];
    PacerDrops(s.mid, st.host, if st.CtxBroadcast? then Woken(p).(ctxFired := true) else Dropped(p), 0);
  }

  lemma CancelDrops(c: Config, s: State)
    requires !s.cancelled
    ensures Less(c, s.(cancelled := true), s)
  {
    hide MidCost, FrontCost, BackCost, Sum;
  }

  lemma StepDrops(c: Config, s: State, st: Step)
    requires Inv(c, s) && Enabled(c, s, st)
    ensures Less(c, Apply(c, s, st), s)
  {
    hide Less, Sum, Recorded, AtWorkers, AtPacers, AtDisp, Lists, Conserved, FrontEnabled, WorkEnabled, DispatchEnabled,
         BackEnabled, ExecEnabled, DoFront, DoWork, DoDispatch, DoPace, DoBack, DoExecute;
    match st
    case Cancel => CancelDrops(c, s);
    case FrontStep(op) => FrontStepDrops(c, s, op);
    case Work(i, now) => WorkDrops(c, s, i, now);
    case WorkAbort(i) => AbortDrops(c, s, i);
    case Dispatch(h) => DispatchDrops(c, s, h);
    case Pace(h) =>
      PacerNextSound(h, s.mid.pacers[h], s.mid.disp, s.cancelled, Clean(s));
      PaceDrops(c, s, h);
    case AcquireFail(_) => PacerStepDrops(c, s, st);
    case PaceAbort(_) => PacerStepDrops(c, s, st);
    case CtxBroadcast(_) => PacerStepDrops(c, s, st);
    case BackStep(op) =>
      BackFresh(c, s, op);
      BackDrops(c, s, op);
    case Execute(o, res, now) => ExecuteDrops(c, s, o, res, now);
  }

  lemma BackFresh(c: Config, s: State, op: BackOp)
    requires Inv(c, s) && BackEnabled(c, s.back, op)
    ensures op.PoolSpawn? ==> s.back.pool.item.sample !in s.back.execs
  {
    if op.PoolSpawn? { SpawnLocated(c, s.stage, s.back); }
  }

  // ---------------------------------------------------------------- consequences

  lemma Descend(c: Config, run: nat -> State, i: nat)
    requires Inv(c, run(i)) && forall j: nat :: i <= j ==> Next(c, run(j), run(j + 1))
    ensures false
    decreases Work1(c, run(i)), Work2(run(i))
  {
    assert Next(c, run(i), run(i + 1));
    var st :| Enabled(c, run(i), st) && run(i + 1) == Apply(c, run(i), st);
    InvStep(c, run(i), st);
    StepDrops(c, run(i), st);
    Descend(c, run, i + 1);
  }

  // No run is infinite: every sequence of states from the start stops being a run.
  lemma EveryRunStops(c: Config, run: nat -> State)
    requires run(0) == Init(c)
    ensures exists i: nat :: !Next(c, run(i), run(i + 1))
  {
    if forall i: nat :: Next(c, run(i), run(i + 1)) {
      InitInv(c);
      Descend(c, run, 0);
    }
  }

  ghost predicate Run(c: Config, s: State, steps: seq<Step>, s': State)
    decreases |steps|
  {
    if steps == [] then s' == s
    else Enabled(c, s, steps[0]) && Run(c, Apply(c, s, steps[0]), steps[1..], s')
  }

  // Left alone, from any point of any run, the pipeline finishes without an error path.
  lemma Finishes(c: Config, s: State) returns (steps: seq<Step>, end: State)
    requires c.WF() && Inv(c, s)
    ensures Run(c, s, steps, end) && Final(end)
    ensures forall st :: st in steps ==> Ordinary(st)
    decreases Work1(c, s), Work2(s)
  {
    if Final(s) {
      steps, end := [], s;
    } else {
      var st := DeadlockFree(c, s);
      InvStep(c, s, st);
      StepDrops(c, s, st);
      var rest;
      rest, end := Finishes(c, Apply(c, s, st));
      steps := [st] + rest;
      assert steps[1..] == rest;
    }
  }
}
