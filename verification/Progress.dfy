// Deadlock freedom: in every reachable state that is not final some goroutine can take an
// ordinary step, without help from the environment and without an error path. It holds
// for every capacity and limit of at least one, cancelled or not.
module Progress {
  import opened Model
  import opened Pipeline
  import opened Stages
  import opened Jobs
  import opened Records
  import opened Fanout
  import opened Safety

  // Not the caller cancelling, not a failure, and not a send giving up.
  predicate Ordinary(st: Step) {
    match st
    case Cancel => false
    case FrontStep(op) => !op.CrawlFail? && !op.CrawlAbort?
    case WorkAbort(_) => false
    case AcquireFail(_) => false
    case PaceAbort(_) => false
    case CtxBroadcast(_) => false
    case _ => true
  }

  // A running executor is never stuck.
  lemma ExecProgress(c: Config, s: State) returns (st: Step)
    requires Recorded(c, s.seen, s.stage) && AtExecs(c, s.stage, s.back.execs) && Fans(c, s.seen, s.back.execs)
    requires s.back.execs != map[]
    ensures Enabled(c, s, st) && Ordinary(st)
  {
    hide Recorded, AtExecs;
    var o :| o in s.back.execs;
    OwnsExec(c, s, o);
    assert FanSound(c, s.seen, o, s.back.execs[o]);
    if s.back.execs[o].pc.Fanning? && s.back.execs[o].pc.rest != [] {
      assert s.back.execs[o].pc.rest[0] in s.back.execs[o].pc.rest;
    }
    st := Execute(o, Blank(TargetOf(c, o)), s.clock);
  }

  lemma PoolProgress(c: Config, s: State) returns (st: Step)
    requires c.WF() && Inv(c, s) && s.back.execs == map[] && !s.back.pool.Finished?
    requires !(s.back.pool.Ranging? && s.back.readyCh.buf == [] && !s.back.readyCh.closed)
    ensures Enabled(c, s, st) && Ordinary(st)
  {
    match s.back.pool
    case Ranging => st := BackStep(if s.back.readyCh.buf != [] then PoolRecv else PoolDrained);
    case Holding(_) => st := BackStep(PoolSpawn);
    case Draining => st := BackStep(PoolDone);
  }

  // The dispatcher waits for nobody but a pacer that is in its lock section.
  lemma DispatchProgress(c: Config, s: State) returns (st: Step)
    requires Pacers(s.mid, s.cancelled, Clean(s)) && !s.mid.disp.Retired?
    requires forall h :: h in s.mid.pacers ==> s.mid.pacers[h].pc.Waiting? || s.mid.pacers[h].pc.Exited?
    requires !(s.mid.disp.Reading? && s.mid.jobsCh.buf == [] && !s.mid.jobsCh.closed)
    ensures Enabled(c, s, st) && Ordinary(st)
  {
    match s.mid.disp
    case ClosingPacers(rest) =>
      if rest == {} {
        st := Dispatch("");
      } else {
        var h :| h in rest;
        st := Dispatch(h);
      }
    case AwaitingPacers =>
      // A sleeping pacer that has been told to stop would be owed a wakeup.
      forall h | h in s.mid.pacers
        ensures s.mid.pacers[h].pc.Exited?
      {
        assert Awake(h, s.mid.pacers[h], s.mid.disp, s.cancelled);
      }
      st := Dispatch("");
    case _ => st := Dispatch("");
  }

  lemma ParseProgress(c: Config, s: State) returns (st: Step)
    requires c.WF() && Inv(c, s) && !s.front.parser.Finished?
    requires s.mid.jobsCh.buf == []
    requires s.front.workers != map[] || !(s.front.parser.Ranging? && s.front.filesCh.buf == [] && !s.front.filesCh.closed)
    ensures Enabled(c, s, st) && Ordinary(st)
  {
    if s.front.workers != map[] {
      var i :| i in s.front.workers;
      assert WorkerSound(c, i, s.front.workers[i]);
      st := Work(i, s.clock);
    } else {
      match s.front.parser
      case Ranging => st := FrontStep(if s.front.filesCh.buf != [] then ParseRecv else ParseDrained);
      case Holding(_) => st := FrontStep(ParseSpawn);
      case Draining => st := FrontStep(ParseClose);
    }
  }

  lemma CrawlProgress(c: Config, s: State) returns (st: Step)
    requires c.WF() && Inv(c, s) && !s.front.crawl.Returned?
    requires s.front.filesCh.buf == [] || !s.front.crawl.Crawling?
    ensures Enabled(c, s, st) && Ordinary(st)
  {
    assert Sources(c, s.front);
    match s.front.crawl
    case Crawling => st := FrontStep(if s.front.sent < |c.sources| then CrawlSend else CrawlEnd);
    case Closing(_) => st := FrontStep(CrawlClose);
    case Returning(_) => st := FrontStep(CrawlReturn);
  }

  // Work from the back: whatever blocks a stage is a full or open channel, and the stage
  // behind that channel can move.
  lemma DeadlockFree(c: Config, s: State) returns (st: Step)
    requires c.WF() && Inv(c, s) && !Final(s)
    ensures Enabled(c, s, st) && Ordinary(st)
  {
    hide Enabled, Recorded, AtWorkers, AtPacers, AtExecs, AtDisp, AtPoolLoop, Lists, Sources, Pacers, WorkerSound;
    if s.back.execs != map[] {
      st := ExecProgress(c, s);
    } else if !s.back.pool.Finished? && (s.back.readyCh.buf != [] || s.back.readyCh.closed || !s.back.pool.Ranging?) {
      st := PoolProgress(c, s);
    } else if h :| h in s.mid.pacers && !s.mid.pacers[h].pc.Waiting? && !s.mid.pacers[h].pc.Exited? {
      st := PaceProgress(c, s, h);
    } else if !s.mid.disp.Retired? && (s.mid.jobsCh.buf != [] || s.mid.jobsCh.closed || !s.mid.disp.Reading?) {
      st := DispatchProgress(c, s);
    } else if !s.front.parser.Finished? &&
              (s.front.workers != map[] || s.front.filesCh.buf != [] || s.front.filesCh.closed || !s.front.parser.Ranging?) {
      st := ParseProgress(c, s);
    } else {
      st := CrawlProgress(c, s);
    }
  }

  lemma PaceProgress(c: Config, s: State, h: Host) returns (st: Step)
    requires c.WF() && Inv(c, s) && h in s.mid.pacers && !s.mid.pacers[h].pc.Waiting? && !s.mid.pacers[h].pc.Exited?
    requires s.back.readyCh.buf == []
    ensures Enabled(c, s, st) && Ordinary(st)
  {
    st := Pace(h);
  }
}
