// The invariant of the whole pipeline: what holds in every state any interleaving reaches,
// cancelled or not, with or without failing token waits.
module Safety {
  import opened Model
  import opened Dedup
  import opened Pipeline
  import opened Stages
  import opened Jobs
  import opened Records
  import opened Fanout
  import opened Outcomes
  import opened Gauging

  ghost predicate Inv(c: Config, s: State) {
    && !s.crashed
    && Flow(c, s)
    && Tracked(c, s)
    && Recorded(c, s.seen, s.stage)
    && GapsKnown(c, s.seen, s.front.workers)
    && WorkersTell(c, s.seen, s.front.workers)
    && OriginsReached(s.seen, s.front)
    && Conserved(c, s)
    && Fans(c, s.seen, s.back.execs)
    && Reported(c, s.seen, s.results)
    && ExecsTell(c, s.back.execs)
    && Sourced(c, s.seen, s.stage, s.store)
    && Gauged(c, s)
  }

  lemma InitInv(c: Config)
    ensures Inv(c, Init(c))
  {
    InitFlow(c);
    InitTracked(c);
    InitConserved(c);
    InitGauged(c);
  }

  lemma KeysAreKnown(c: Config, s: State)
    requires Recorded(c, s.seen, s.stage) && AtExecs(c, s.stage, s.back.execs)
    requires GapsKnown(c, s.seen, s.front.workers)
    ensures KeysKnown(c, s)
  {
    forall o | o in s.back.execs
      ensures s.back.execs[o].job.key in s.seen
    {
      OwnsExec(c, s, o);
    }
  }

  // What depends only on the front half, the records and what has been emitted.
  ghost predicate Settled1(c: Config, s: State) {
    && GapsKnown(c, s.seen, s.front.workers)
    && WorkersTell(c, s.seen, s.front.workers)
    && OriginsReached(s.seen, s.front)
    && Conserved(c, s)
  }

  // A worker starts on a source no other worker has had.
  lemma FrontReach(c: Config, cancelled: bool, f: Front, op: FrontOp, o: Occ)
    requires Sources(c, f) && FrontEnabled(c, cancelled, f, op)
    ensures Carrying(FrontNext(c, cancelled, f, op), o) == Carrying(f, o)
    ensures Reached(FrontNext(c, cancelled, f, op), o) == Reached(f, o)
  {
  }

  // A worker that has only just started tells and counts nothing.
  lemma StartsQuiet(c: Config, seen: Seen, g: StageMap, workers: map<nat, Worker>, i: nat, counted: set<Occ>)
    requires GapsKnown(c, seen, workers) && WorkersTell(c, seen, workers) && CountsJobs(g, workers, counted) && i !in workers
    ensures var after := workers[i := Worker(0, AtLink)];
            GapsKnown(c, seen, after) && WorkersTell(c, seen, after) && CountsJobs(g, after, counted)
  {
    hide Told;
  }

  lemma SpawnsNew(c: Config, cancelled: bool, f: Front, op: FrontOp)
    requires Sources(c, f) && FrontEnabled(c, cancelled, f, op)
    ensures if op.ParseSpawn?
            then f.parser.Holding? && f.parser.item !in f.workers && FrontNext(c, cancelled, f, op).workers == f.workers[f.parser.item := Worker(0, AtLink)]
            else FrontNext(c, cancelled, f, op).workers == f.workers
  {
  }

  lemma FrontWorkers(c: Config, s: State, op: FrontOp)
    requires Sources(c, s.front) && FrontEnabled(c, s.cancelled, s.front, op)
    requires GapsKnown(c, s.seen, s.front.workers) && WorkersTell(c, s.seen, s.front.workers)
    requires CountsJobs(s.stage, s.front.workers, s.gauges.counted)
    ensures op.ParseSpawn? ==> s.front.parser.item !in s.front.workers
    ensures var workers := DoFront(c, s, op).front.workers;
            && GapsKnown(c, s.seen, workers)
            && WorkersTell(c, s.seen, workers)
            && CountsJobs(s.stage, workers, s.gauges.counted)
  {
    hide GapsKnown, WorkersTell, CountsJobs, FrontNext, FrontEnabled, Sources;
    SpawnsNew(c, s.cancelled, s.front, op);
    if op.ParseSpawn? { StartsQuiet(c, s.seen, s.stage, s.front.workers, s.front.parser.item, s.gauges.counted); }
  }

  lemma FrontKept(c: Config, s: State, op: FrontOp)
    requires Sources(c, s.front) && FrontEnabled(c, s.cancelled, s.front, op)
    requires Settled1(c, s) && CountsJobs(s.stage, s.front.workers, s.gauges.counted)
    ensures op.ParseSpawn? ==> s.front.parser.item !in s.front.workers
    ensures Settled1(c, DoFront(c, s, op))
    ensures CountsJobs(s.stage, DoFront(c, s, op).front.workers, s.gauges.counted)
  {
    hide Told, Held, InFanout, Times, Sources, FrontNext, GapsKnown, WorkersTell, CountsJobs, Carrying, Reached;
    FrontWorkers(c, s, op);
    forall o
      ensures Carrying(DoFront(c, s, op).front, o) == Carrying(s.front, o)
      ensures Reached(DoFront(c, s, op).front, o) == Reached(s.front, o)
    {
      FrontReach(c, s.cancelled, s.front, op, o);
    }
  }

  // The worker has moved past the link whose send gave up.
  function Skipped(f: Front, i: nat): Front
    requires i in f.workers
  {
    f.(workers := f.workers[i := Worker(f.workers[i].pos + 1, AtLink)])
  }

  lemma SkipReach(f: Front, i: nat, o: Occ)
    requires i in f.workers && f.workers[i].pc.Offering? && i !in f.parsed
    ensures Carrying(Skipped(f, i), o) == Carrying(f, o)
    ensures Reached(Skipped(f, i), o) == Reached(f, o)
  {
  }

  lemma SkipWorkers(c: Config, seen: Seen, g: StageMap, f: Front, i: nat, counted: set<Occ>)
    requires i in f.workers && f.workers[i].pc.Offering? && Occ(i, f.workers[i].pos) in g
    requires GapsKnown(c, seen, f.workers) && WorkersTell(c, seen, f.workers) && CountsJobs(g, f.workers, counted)
    ensures GapsKnown(c, seen, Skipped(f, i).workers) && WorkersTell(c, seen, Skipped(f, i).workers)
    ensures CountsJobs(g[Occ(i, f.workers[i].pos) := Lost], Skipped(f, i).workers, counted)
  {
    hide Told;
  }

  lemma SkipConserved(c: Config, s: State, s': State, i: nat)
    requires i in s.front.workers && s.front.workers[i].pc.Offering? && i !in s.front.parsed
    requires s'.front == Skipped(s.front, i) && s'.seen == s.seen && s'.back == s.back && s'.results == s.results
    requires Conserved(c, s) && OriginsReached(s.seen, s.front)
    ensures Conserved(c, s') && OriginsReached(s'.seen, s'.front)
  {
    hide Skipped, Carrying, Reached, Held, InFanout, Times;
    forall o
      ensures Carrying(s'.front, o) == Carrying(s.front, o) && Reached(s'.front, o) == Reached(s.front, o)
    {
      SkipReach(s.front, i, o);
    }
  }

  // A step that only moves a job from one queue to the next.
  lemma ShufflesKept(c: Config, s: State, g': StageMap)
    requires Recorded(c, s.seen, s.stage) && Sourced(c, s.seen, s.stage, s.store) && Gauged(c, s)
    requires Shuffles(s.stage, g')
    ensures Recorded(c, s.seen, g') && Sourced(c, s.seen, g', s.store)
    ensures CountsJobs(g', s.front.workers, s.gauges.counted) && CompletesJobs(g', s.back.execs, s.gauges.completed)
  {
    hide Recorded, Sourced, Gauged;
    ShufflesRecords(c, s.seen, s.stage, g');
    ShuffleGauged(c, s, g');
    if g' != s.stage {
      var o, y :| Shuffle(s.stage, g', o, y);
      SourcedMove(c, s.seen, s.stage, s.store, o, y);
    }
  }

  lemma FrontInv(c: Config, s: State, op: FrontOp)
    requires Inv(c, s) && FrontEnabled(c, s.cancelled, s.front, op)
    ensures Inv(c, DoFront(c, s, op))
  {
    FrontOpFlow(c, s, op);
    FrontKept(c, s, op);
    hide Flow, Sources, Recorded, GapsKnown, WorkersTell, OriginsReached, Conserved, Fans, Reported, ExecsTell, Sourced,
         Tallied, CountsJobs, CompletesJobs, ActiveUrls, FrontNext;
    FrontLocated(c, s, op);
  }

  lemma WorkConserved(c: Config, s: State, i: nat, now: int)
    requires Recorded(c, s.seen, s.stage) && AtExecs(c, s.stage, s.back.execs)
    requires GapsKnown(c, s.seen, s.front.workers) && Conserved(c, s)
    requires WorkEnabled(c, s, i) && i !in s.front.parsed
    ensures Conserved(c, DoWork(c, s, i, now))
  {
    hide Recorded, AtExecs, GapsKnown, Copies, Reached, WorkFront;
    forall o | Valid(c, o)
      ensures Copies(c, DoWork(c, s, i, now), o) == if Reached(WorkFront(c, s, i, now), o) then 1 else 0
    {
      WorkCopies(c, s, i, now, o);
    }
  }

  lemma WorkInv(c: Config, s: State, i: nat, now: int)
    requires Inv(c, s) && Enabled(c, s, Work(i, now))
    ensures Inv(c, DoWork(c, s, i, now))
  {
    assert i !in s.front.parsed by {
      assert Sources(c, s.front);
    }
    KeysAreKnown(c, s);
    FlowStep(c, s, Work(i, now));
    hide Flow, Recorded, GapsKnown, WorkersTell, OriginsReached, Fans, Reported, ExecsTell, Sourced,
         Tallied, CountsJobs, CompletesJobs, ActiveUrls,
         AtWorkers, AtPacers, AtExecs, AtDisp, AtPoolLoop, Lists, Conserved, KeysKnown, Extends,
         WorkSeen, WorkFront, WorkStage, WorkResults;
    WorkRecords(c, s, i, now);
    WorkLocated(c, s, i, now);
    WorkGaps(c, s, i, now);
    WorkersTellWork(c, s, i, now);
    WorkOrigins(c, s, i, now);
    WorkConserved(c, s, i, now);
    FansKept(c, s.seen, WorkSeen(c, s, i, now), s.back.execs);
    WorkReported(c, s, i, now);
    WorkSourced(c, s, i, now);
    WorkGauged(c, s, i, now);
  }

  // What the step does, column by column.
  lemma AbortColumns(c: Config, s: State, i: nat)
    requires Enabled(c, s, WorkAbort(i))
    ensures i in s.front.workers && s.front.workers[i].pc.Offering?
    ensures var s' := Apply(c, s, WorkAbort(i));
            && s'.front == Skipped(s.front, i)
            && s'.stage == s.stage[Occ(i, s.front.workers[i].pos) := Lost]
            && s'.seen == s.seen && s'.store == s.store && s'.results == s.results && s'.gauges == s.gauges
            && s'.back == s.back && s'.crashed == s.crashed
  {
  }

  // A step that changes only the front half and moves one job.
  lemma SkipInv(c: Config, s: State, s': State, i: nat)
    requires Inv(c, s) && Flow(c, s') && Tracked(c, s') && Shuffles(s.stage, s'.stage)
    requires i in s.front.workers && s.front.workers[i].pc.Offering? && i !in s.front.parsed
    requires Occ(i, s.front.workers[i].pos) in s.stage
    requires s'.front == Skipped(s.front, i) && s'.stage == s.stage[Occ(i, s.front.workers[i].pos) := Lost]
    requires s'.seen == s.seen && s'.store == s.store && s'.results == s.results && s'.gauges == s.gauges
    requires s'.back == s.back && s'.crashed == s.crashed
    ensures Inv(c, s')
  {
    hide Flow, Tracked, Recorded, GapsKnown, WorkersTell, OriginsReached, Conserved, Fans, Reported, ExecsTell, Sourced,
         Tallied, CountsJobs, CompletesJobs, ActiveUrls, Shuffles, Skipped;
    SkipWorkers(c, s.seen, s.stage, s.front, i, s.gauges.counted);
    SkipConserved(c, s, s', i);
    ShufflesKept(c, s, s'.stage);
  }

  // The source of a running worker has not been parsed, and its job is in the map.
  lemma OfferedJob(c: Config, s: State, i: nat)
    requires Flow(c, s) && Tracked(c, s) && i in s.front.workers && s.front.workers[i].pc.Offering?
    ensures i !in s.front.parsed && Occ(i, s.front.workers[i].pos) in s.stage
  {
    hide MidCloses, BackCloses, Pacers, FrontCloses, AtPacers, AtExecs, AtDisp, AtPoolLoop, Lists;
    assert InHand(s.front.workers[i]);
  }

  lemma AbortInv(c: Config, s: State, i: nat)
    requires Inv(c, s) && Enabled(c, s, WorkAbort(i))
    ensures Inv(c, Apply(c, s, WorkAbort(i)))
  {
    hide Apply, Enabled, Flow, Tracked, Recorded, GapsKnown, WorkersTell, OriginsReached, Conserved, Fans, Reported,
         ExecsTell, Sourced, Gauged, Shuffles, Skipped;
    AbortColumns(c, s, i);
    AbortFlow(c, s, i);
    AbortLocated(c, s, i);
    OfferedJob(c, s, i);
    SkipInv(c, s, Apply(c, s, WorkAbort(i)), i);
  }

  // Steps of the middle and of the pool loop leave the records and the results alone.
  lemma QuietInv(c: Config, s: State, s': State)
    requires Inv(c, s) && Flow(c, s') && Tracked(c, s') && s'.crashed == s.crashed && Shuffles(s.stage, s'.stage)
    requires s'.front == s.front && s'.seen == s.seen && s'.store == s.store
    requires s'.results == s.results && s'.gauges == s.gauges && s'.back.execs == s.back.execs
    ensures Inv(c, s')
  {
    hide Flow, Recorded, GapsKnown, WorkersTell, OriginsReached, Fans, Reported, ExecsTell, Sourced,
         Tallied, CountsJobs, CompletesJobs, ActiveUrls, Tracked, Carrying, Held, InFanout, Times, Reached;
    ShufflesKept(c, s, s'.stage);
  }

  lemma MiddleQuiet(c: Config, s: State, st: Step)
    requires Enabled(c, s, st) && (st.Dispatch? || st.Pace? || st.CtxBroadcast?)
    ensures var s' := Apply(c, s, st);
            && s'.front == s.front && s'.seen == s.seen && s'.store == s.store
            && s'.results == s.results && s'.gauges == s.gauges && s'.back.execs == s.back.execs
            && (st.CtxBroadcast? ==> s'.stage == s.stage)
  {
  }

  lemma MiddleInv(c: Config, s: State, st: Step)
    requires Inv(c, s) && Enabled(c, s, st)
    requires st.Dispatch? || st.Pace? || st.CtxBroadcast?
    ensures Inv(c, Apply(c, s, st))
  {
    hide Flow, Recorded, GapsKnown, WorkersTell, OriginsReached, Fans, Reported, ExecsTell, Sourced,
         Tallied, CountsJobs, CompletesJobs, ActiveUrls, AtWorkers, AtPacers, AtExecs, AtDisp, AtPoolLoop, Lists,
         Conserved, KeysKnown, DispatchEnabled, PaceEnabled, DoDispatch, DoPace;
    KeysAreKnown(c, s);
    FlowStep(c, s, st);
    MiddleQuiet(c, s, st);
    match st {
      case Dispatch(h) => DispatchLocated(c, s, h);
      case Pace(h) => PaceLocated(c, s, h);
      case CtxBroadcast(h) => BroadcastLocated(c, s, h);
    }
    hide Tracked;
    QuietInv(c, s, Apply(c, s, st));
  }

  lemma AbandonColumns(c: Config, s: State, st: Step)
    requires Enabled(c, s, st) && (st.AcquireFail? || st.PaceAbort?)
    ensures var s' := Apply(c, s, st);
            && s'.front == s.front && s'.seen == s.seen && s'.store == s.store && s'.results == s.results
            && s'.gauges == s.gauges && s'.back == s.back && s'.crashed == s.crashed && !Clean(s')
            && s'.mid == Abandon(s, st.host).mid && s'.stage == Abandon(s, st.host).stage
  {
  }

  lemma AbandonInv(c: Config, s: State, st: Step)
    requires Inv(c, s) && Enabled(c, s, st)
    requires st.AcquireFail? || st.PaceAbort?
    ensures Inv(c, Apply(c, s, st))
  {
    AbandonColumns(c, s, st);
    hide KeysKnown, AtWorkers, AtPacers, AtExecs, AtDisp, AtPoolLoop, Lists, Apply, Abandon;
    KeysAreKnown(c, s);
    FlowStep(c, s, st);
    AbandonLocated(c, s, st.host);
    hide Flow, Recorded, GapsKnown, WorkersTell, OriginsReached, Fans, Reported, ExecsTell, Sourced,
         Tallied, CountsJobs, CompletesJobs, ActiveUrls, Placed, Conserved, Enabled;
    QuietInv(c, s, Apply(c, s, st));
  }

  lemma SpawnConserved(c: Config, s: State, o: Occ, job: Job)
    requires Conserved(c, s) && o !in s.back.execs
    ensures Conserved(c, s.(back := s.back.(execs := s.back.execs[o := Exec(job, Begun)])))
  {
    hide Carrying, Held, InFanout, Times, Reached;
    forall p
      ensures InFanout(c, s.seen, s.back.execs[o := Exec(job, Begun)], p) == InFanout(c, s.seen, s.back.execs, p)
    {
      SpawnCopies(c, s.seen, s.back.execs, o, job, p);
    }
  }

  lemma SpawnInv(c: Config, s: State)
    requires Inv(c, s) && BackEnabled(c, s.back, PoolSpawn)
    ensures Inv(c, DoBack(c, s, PoolSpawn))
  {
    hide Flow, Recorded, GapsKnown, WorkersTell, OriginsReached, Fans, Reported, ExecsTell, Sourced,
         Tallied, CountsJobs, CompletesJobs, ActiveUrls,
         AtWorkers, AtPacers, AtExecs, AtDisp, AtPoolLoop, Lists, Carrying, Held, InFanout, Times, Reached;
    var o, job := s.back.pool.item.sample, s.back.pool.item;
    BackOpFlow(c, s, PoolSpawn);
    BackLocated(c, s, PoolSpawn);
    SpawnLocated(c, s.stage, s.back);
    SpawnOthers(c, s, o, job);
    ShufflesKept(c, s, DoBack(c, s, PoolSpawn).stage);
    SpawnGauged(c, DoBack(c, s, PoolSpawn).stage, s.back.execs, o, job, s.gauges);
    SpawnConserved(c, s, o, job);
  }

  lemma SpawnOthers(c: Config, s: State, o: Occ, job: Job)
    requires Fans(c, s.seen, s.back.execs) && ExecsTell(c, s.back.execs)
    ensures Fans(c, s.seen, s.back.execs[o := Exec(job, Begun)])
    ensures ExecsTell(c, s.back.execs[o := Exec(job, Begun)])
  {
  }

  lemma BackInv(c: Config, s: State, op: BackOp)
    requires Inv(c, s) && BackEnabled(c, s.back, op)
    ensures Inv(c, DoBack(c, s, op))
  {
    hide Inv, BackEnabled, DoBack;
    if op.PoolSpawn? { SpawnInv(c, s); } else { BackQuietInv(c, s, op); }
  }

  lemma PoolQuiet(c: Config, s: State, op: BackOp)
    requires BackEnabled(c, s.back, op) && !op.PoolSpawn?
    ensures var s' := DoBack(c, s, op);
            && s'.front == s.front && s'.seen == s.seen && s'.store == s.store
            && s'.results == s.results && s'.gauges == s.gauges && s'.back.execs == s.back.execs
  {
  }

  lemma BackQuietInv(c: Config, s: State, op: BackOp)
    requires Inv(c, s) && BackEnabled(c, s.back, op) && !op.PoolSpawn?
    ensures Inv(c, DoBack(c, s, op))
  {
    hide Flow, Recorded, GapsKnown, WorkersTell, OriginsReached, Fans, Reported, ExecsTell, Sourced,
         Tallied, CountsJobs, CompletesJobs, ActiveUrls, Tracked, Conserved, KeysKnown, DoBack, BackEnabled;
    BackOpFlow(c, s, op);
    BackLocated(c, s, op);
    PoolQuiet(c, s, op);
    QuietInv(c, s, DoBack(c, s, op));
  }

  lemma ExecQuiet(c: Config, s: State, o: Occ, res: Result, now: int)
    requires Fans(c, s.seen, s.back.execs) && ExecsTell(c, s.back.execs) && ExecEnabled(c, s, o, res)
    ensures DoExecute(c, s, o, res, now).front == s.front
    ensures FanSound(c, s.seen, o, s.back.execs[o]) && ExecTells(c, o, s.back.execs[o])
  {
  }

  lemma ExecuteConserved(c: Config, s: State, o: Occ, res: Result, now: int)
    requires Recorded(c, s.seen, s.stage) && AtExecs(c, s.stage, s.back.execs) && Fans(c, s.seen, s.back.execs)
    requires ExecEnabled(c, s, o, res) && Conserved(c, s)
    ensures Conserved(c, DoExecute(c, s, o, res, now))
  {
    hide Recorded, AtExecs, Fans, Copies, Reached;
    forall p
      ensures Copies(c, DoExecute(c, s, o, res, now), p) == Copies(c, s, p)
    {
      ExecuteCopies(c, s, o, res, now, p);
    }
  }

  lemma ExecuteInv(c: Config, s: State, o: Occ, res: Result, now: int)
    requires Inv(c, s) && Enabled(c, s, Execute(o, res, now))
    ensures Inv(c, DoExecute(c, s, o, res, now))
  {
    hide Flow, Recorded, GapsKnown, WorkersTell, OriginsReached, Fans, Reported, ExecsTell, Sourced,
         Tallied, CountsJobs, CompletesJobs, ActiveUrls, AtWorkers, AtPacers, AtExecs, AtDisp, AtPoolLoop, Lists,
         Conserved, KeysKnown, Extends, FanSound, ExecTells, DoExecute;
    var s' := DoExecute(c, s, o, res, now);
    KeysAreKnown(c, s);
    FlowStep(c, s, Execute(o, res, now));
    ExecQuiet(c, s, o, res, now);
    ExecuteRecords(c, s, o, res, now);
    ExecuteLocated(c, s, o, res, now);
    GapsExtend(c, s.seen, s'.seen, s.front);
    WorkersTellKept(c, s.seen, s'.seen, s.front.workers);
    ExecuteConserved(c, s, o, res, now);
    ExecuteFans(c, s, o, res, now);
    ExecuteReported(c, s, o, res, now);
    ExecuteExecsTell(c, s, o, res, now);
    ExecuteSourced(c, s, o, res, now);
    ExecuteGauged(c, s, o, res, now);
    SettleOrigins(c, s, o, res, now);
  }

  lemma GapsExtend(c: Config, seen: Seen, seen': Seen, f: Front)
    requires GapsKnown(c, seen, f.workers) && Extends(seen, seen')
    ensures GapsKnown(c, seen', f.workers)
  {
  }

  lemma SettleOrigins(c: Config, s: State, o: Occ, res: Result, now: int)
    requires OriginsReached(s.seen, s.front) && ExecEnabled(c, s, o, res)
    ensures OriginsReached(DoExecute(c, s, o, res, now).seen, s.front)
  {
    hide Reached;
  }

  lemma CancelInv(c: Config, s: State)
    requires Inv(c, s)
    ensures Inv(c, s.(cancelled := true))
  {
    PacersCancelled(s.mid, s.cancelled, Clean(s));
    hide Sources, Placed, Recorded, GapsKnown, WorkersTell, OriginsReached, Fans, Reported, ExecsTell, Sourced,
         Tallied, CountsJobs, CompletesJobs, ActiveUrls, Carrying, Held, InFanout, Times, Reached;
  }

  lemma InvStep(c: Config, s: State, st: Step)
    requires Inv(c, s) && Enabled(c, s, st)
    ensures Inv(c, Apply(c, s, st))
  {
    hide Inv;
    match st
    case Cancel => CancelInv(c, s);
    case FrontStep(op) => FrontInv(c, s, op);
    case Work(i, now) => WorkInv(c, s, i, now);
    case WorkAbort(i) => AbortInv(c, s, i);
    case Dispatch(_) => MiddleInv(c, s, st);
    case Pace(_) => MiddleInv(c, s, st);
    case AcquireFail(_) => AbandonInv(c, s, st);
    case PaceAbort(_) => AbandonInv(c, s, st);
    case CtxBroadcast(_) => MiddleInv(c, s, st);
    case BackStep(op) => BackInv(c, s, op);
    case Execute(o, res, now) => ExecuteInv(c, s, o, res, now);
  }
}
