// Where every job is. One job is created per URL that is not in the cache; stage says
// where it has got to, and each container holds exactly the jobs staged there.
module Jobs {
  import opened Model
  import opened Pipeline

  type StageMap = map<Occ, Stage>

  ghost predicate Carried(c: Config, g: StageMap, job: Job, x: Stage) {
    && IsNet(c, job.sample)
    && job == JobOf(c, job.sample)
    && job.sample in g
    && g[job.sample] == x
  }

  // The queue holds the jobs staged at x (for one host, if one is given), each once.
  ghost predicate Lists(c: Config, g: StageMap, buf: seq<Job>, x: Stage, host: Option<Host>) {
    && (forall k :: 0 <= k < |buf| ==> Carried(c, g, buf[k], x) && (host.Some? ==> buf[k].host == host.value))
    && (forall k, l :: 0 <= k < l < |buf| ==> buf[k] != buf[l])
    && (forall o :: o in g && g[o] == x && IsNet(c, o) && (host.Some? ==> HostOf(c, o) == host.value) ==>
                      JobOf(c, o) in buf)
  }

  predicate InHand(w: Worker) {
    w.pc.Counting? || w.pc.Offering?
  }

  ghost predicate AtWorkers(c: Config, g: StageMap, workers: map<nat, Worker>) {
    && (forall i :: i in workers && InHand(workers[i]) ==>
                      Carried(c, g, workers[i].pc.job, AtWorker) && workers[i].pc.job.sample == Occ(i, workers[i].pos))
    && (forall o :: o in g && g[o] == AtWorker ==>
                      o.src in workers && workers[o.src].pos == o.pos && InHand(workers[o.src]))
  }

  ghost predicate AtDisp(c: Config, g: StageMap, d: DispPc) {
    && (d.Routing? ==> Carried(c, g, d.job, AtDispatcher))
    && (forall o :: o in g && g[o] == AtDispatcher ==> d.Routing? && d.job.sample == o)
  }

  ghost predicate AtPacer(c: Config, g: StageMap, h: Host, p: Pacer) {
    && Lists(c, g, p.q, Queued, Some(h))
    && (p.pc.Acquiring? || p.pc.Releasing? ==> Carried(c, g, p.pc.job, Pacing) && p.pc.job.host == h)
    && (forall o :: o in g && g[o] == Pacing && IsNet(c, o) && HostOf(c, o) == h ==>
                      (p.pc.Acquiring? || p.pc.Releasing?) && p.pc.job.sample == o)
  }

  ghost predicate AtPacers(c: Config, g: StageMap, pacers: map<Host, Pacer>) {
    && (forall h :: h in pacers ==> AtPacer(c, g, h, pacers[h]))
    && (forall o :: o in g && IsNet(c, o) && (g[o] == Queued || g[o] == Pacing) ==> HostOf(c, o) in pacers)
  }

  ghost predicate AtPoolLoop(c: Config, g: StageMap, pool: LoopPc<Job>) {
    && (pool.Holding? ==> Carried(c, g, pool.item, AtPool))
    && (forall o :: o in g && g[o] == AtPool ==> pool.Holding? && pool.item.sample == o)
  }

  function StageOf(e: Exec): Stage {
    if e.pc.Fanning? then Fanned else Running
  }

  ghost predicate AtExecs(c: Config, g: StageMap, execs: map<Occ, Exec>) {
    && (forall o :: o in execs ==> execs[o].job.sample == o && Carried(c, g, execs[o].job, StageOf(execs[o])))
    && (forall o :: o in g && (g[o] == Running || g[o] == Fanned) ==> o in execs)
  }

  ghost predicate Placed(c: Config, g: StageMap, f: Front, m: Mid, b: Back) {
    && (forall o :: o in g ==> IsNet(c, o))
    && AtWorkers(c, g, f.workers)
    && Lists(c, g, m.jobsCh.buf, InJobs, None)
    && AtDisp(c, g, m.disp)
    && AtPacers(c, g, m.pacers)
    && Lists(c, g, b.readyCh.buf, InReady, None)
    && AtPoolLoop(c, g, b.pool)
    && AtExecs(c, g, b.execs)
  }

  ghost predicate Tracked(c: Config, s: State) {
    && Placed(c, s.stage, s.front, s.mid, s.back)
    && (forall o :: o in s.stage && s.stage[o] == Lost ==> !Clean(s))
  }

  // At most one job moved, and it was neither created nor completed by the move.
  ghost predicate Shuffles(g: StageMap, g': StageMap) {
    || g' == g
    || exists o, y :: Shuffle(g, g', o, y)
  }

  ghost predicate Shuffle(g: StageMap, g': StageMap, o: Occ, y: Stage) {
    && o in g
    && g' == g[o := y]
    && !g[o].Fanned? && !g[o].Finis? && !g[o].Lost? && !y.Fanned? && !y.Finis?
  }

  // ---------------------------------------------------------------- moving one job

  lemma ListsPush(c: Config, g: StageMap, buf: seq<Job>, x: Stage, host: Option<Host>, job: Job)
    requires Lists(c, g, buf, x, host)
    requires IsNet(c, job.sample) && job == JobOf(c, job.sample) && (host.Some? ==> job.host == host.value)
    requires job.sample in g ==> g[job.sample] != x
    ensures Lists(c, g[job.sample := x], buf + [job], x, host)
  {
  }

  lemma ListsPop(c: Config, g: StageMap, buf: seq<Job>, x: Stage, host: Option<Host>, y: Stage)
    requires Lists(c, g, buf, x, host) && buf != [] && x != y
    ensures Carried(c, g, buf[0], x)
    ensures Lists(c, g[buf[0].sample := y], buf[1..], x, host)
  {
  }

  lemma ListsKept(c: Config, g: StageMap, buf: seq<Job>, x: Stage, host: Option<Host>, o: Occ, y: Stage)
    requires Lists(c, g, buf, x, host) && y != x
    requires o in g && IsNet(c, o) ==> g[o] != x || (host.Some? && HostOf(c, o) != host.value)
    ensures Lists(c, g[o := y], buf, x, host)
  {
  }

  // Everything outside the two places a job moves between is as it was.
  ghost predicate Leaves(g: StageMap, o: Occ, y: Stage, tags: set<Stage>) {
    y !in tags && (o in g ==> g[o] !in tags)
  }

  lemma PacersKept(c: Config, g: StageMap, pacers: map<Host, Pacer>, o: Occ, y: Stage)
    requires AtPacers(c, g, pacers) && Leaves(g, o, y, {Queued, Pacing})
    ensures AtPacers(c, g[o := y], pacers)
  {
    forall h | h in pacers
      ensures AtPacer(c, g[o := y], h, pacers[h])
    {
      ListsKept(c, g, pacers[h].q, Queued, Some(h), o, y);
    }
  }

  lemma WorkersKept(c: Config, g: StageMap, workers: map<nat, Worker>, o: Occ, y: Stage)
    requires AtWorkers(c, g, workers) && Leaves(g, o, y, {AtWorker})
    ensures AtWorkers(c, g[o := y], workers)
  {
  }

  lemma ExecsKept(c: Config, g: StageMap, execs: map<Occ, Exec>, o: Occ, y: Stage)
    requires AtExecs(c, g, execs) && Leaves(g, o, y, {Running, Fanned})
    ensures AtExecs(c, g[o := y], execs)
  {
  }

  lemma DispKept(c: Config, g: StageMap, d: DispPc, o: Occ, y: Stage)
    requires AtDisp(c, g, d) && Leaves(g, o, y, {AtDispatcher})
    ensures AtDisp(c, g[o := y], d)
  {
  }

  lemma PoolKept(c: Config, g: StageMap, pool: LoopPc<Job>, o: Occ, y: Stage)
    requires AtPoolLoop(c, g, pool) && Leaves(g, o, y, {AtPool})
    ensures AtPoolLoop(c, g[o := y], pool)
  {
  }

  lemma PlacedMove(c: Config, g: StageMap, f: Front, m: Mid, b: Back, o: Occ, y: Stage)
    requires Placed(c, g, f, m, b) && IsNet(c, o)
    ensures forall p :: p in g[o := y] ==> IsNet(c, p)
    ensures Leaves(g, o, y, {AtWorker}) ==> AtWorkers(c, g[o := y], f.workers)
    ensures Leaves(g, o, y, {InJobs}) ==> Lists(c, g[o := y], m.jobsCh.buf, InJobs, None)
    ensures Leaves(g, o, y, {AtDispatcher}) ==> AtDisp(c, g[o := y], m.disp)
    ensures Leaves(g, o, y, {Queued, Pacing}) ==> AtPacers(c, g[o := y], m.pacers)
    ensures Leaves(g, o, y, {InReady}) ==> Lists(c, g[o := y], b.readyCh.buf, InReady, None)
    ensures Leaves(g, o, y, {AtPool}) ==> AtPoolLoop(c, g[o := y], b.pool)
    ensures Leaves(g, o, y, {Running, Fanned}) ==> AtExecs(c, g[o := y], b.execs)
  {
    hide Lists, AtWorkers, AtPacers, AtExecs, AtDisp, AtPoolLoop;
    if Leaves(g, o, y, {AtWorker}) { WorkersKept(c, g, f.workers, o, y); }
    if Leaves(g, o, y, {InJobs}) { ListsKept(c, g, m.jobsCh.buf, InJobs, None, o, y); }
    if Leaves(g, o, y, {AtDispatcher}) { DispKept(c, g, m.disp, o, y); }
    if Leaves(g, o, y, {Queued, Pacing}) { PacersKept(c, g, m.pacers, o, y); }
    if Leaves(g, o, y, {InReady}) { ListsKept(c, g, b.readyCh.buf, InReady, None, o, y); }
    if Leaves(g, o, y, {AtPool}) { PoolKept(c, g, b.pool, o, y); }
    if Leaves(g, o, y, {Running, Fanned}) { ExecsKept(c, g, b.execs, o, y); }
  }

  // ---------------------------------------------------------------- steps

  // A state in which one job has moved on, as far as Tracked can tell.
  ghost predicate Columns(s: State, s': State, g: StageMap, f: Front, m: Mid, b: Back) {
    s'.stage == g && s'.front == f && s'.mid == m && s'.back == b && Clean(s') == Clean(s)
  }

  lemma InitTracked(c: Config)
    ensures Tracked(c, Init(c))
  {
  }

  lemma WorkWorkers(c: Config, s: State, i: nat, now: int)
    requires AtWorkers(c, s.stage, s.front.workers) && WorkEnabled(c, s, i)
    ensures AtWorkers(c, WorkStage(c, s, i, now), WorkFront(c, s, i, now).workers)
    ensures InHand(s.front.workers[i]) ==>
              Carried(c, s.stage, s.front.workers[i].pc.job, AtWorker) &&
              s.front.workers[i].pc.job.sample == Occ(i, s.front.workers[i].pos)
  {
    var w := s.front.workers[i];
    if !AtEnd(c, i, w) {
      WorkHand(c, s, i, now);
    }
  }

  // A worker's hand fills at a miss, empties at the send and is otherwise unchanged.
  lemma WorkHand(c: Config, s: State, i: nat, now: int)
    requires WorkEnabled(c, s, i) && !AtEnd(c, i, s.front.workers[i])
    ensures var w := s.front.workers[i];
            var w' := WorkerNext(c, s, i, now);
            var o := Occ(i, w.pos);
            if AtLookup(c, i, w) && Find(c, s.seen, s.store, o, now).Miss? then
              w' == Worker(w.pos, Counting(JobOf(c, o))) && WorkStage(c, s, i, now) == s.stage[o := AtWorker]
            else if w.pc.Offering? then !InHand(w') && WorkStage(c, s, i, now) == s.stage[o := InJobs]
            else WorkStage(c, s, i, now) == s.stage && InHand(w') == InHand(w) && (InHand(w) ==> w'.pos == w.pos && w'.pc.job == w.pc.job)
  {
  }

  lemma WorkMoves(c: Config, s: State, s': State, i: nat, now: int)
    requires Tracked(c, s) && WorkEnabled(c, s, i)
    requires AtLookup(c, i, s.front.workers[i]) && Find(c, s.seen, s.store, Occ(i, s.front.workers[i].pos), now).Miss?
             ==> Occ(i, s.front.workers[i].pos) !in s.stage
    requires var w := s.front.workers[i];
             Columns(s, s', WorkStage(c, s, i, now), WorkFront(c, s, i, now),
                   if w.pc.Offering? then s.mid.(jobsCh := Pushed(s.mid.jobsCh, w.pc.job)) else s.mid, s.back)
    ensures Tracked(c, s')
  {
    hide Lists, AtPacers, AtExecs, AtDisp, AtPoolLoop, AtWorkers, WorkFront, Find;
    var w := s.front.workers[i];
    var o := Occ(i, w.pos);
    WorkWorkers(c, s, i, now);
    if w.pc.Offering? {
      PlacedMove(c, s.stage, s.front, s.mid, s.back, o, InJobs);
      ListsPush(c, s.stage, s.mid.jobsCh.buf, InJobs, None, w.pc.job);
    } else if WorkStage(c, s, i, now) != s.stage {
      PlacedMove(c, s.stage, s.front, s.mid, s.back, o, AtWorker);
    }
  }

  // A worker's step may create a job (for an occurrence that has none) or hand one over.
  lemma WorkLocated(c: Config, s: State, i: nat, now: int)
    requires Tracked(c, s) && Enabled(c, s, Work(i, now))
    requires AtLookup(c, i, s.front.workers[i]) && Find(c, s.seen, s.store, Occ(i, s.front.workers[i].pos), now).Miss?
             ==> Occ(i, s.front.workers[i].pos) !in s.stage
    ensures Tracked(c, DoWork(c, s, i, now))
  {
    hide Tracked, WorkFront, WorkStage, WorkSeen, WorkServed, WorkResults;
    WorkMoves(c, s, DoWork(c, s, i, now), i, now);
  }

  lemma AbortWorkers(c: Config, g: StageMap, workers: map<nat, Worker>, i: nat)
    requires AtWorkers(c, g, workers) && i in workers && workers[i].pc.Offering?
    ensures var o := Occ(i, workers[i].pos);
            && Carried(c, g, JobOf(c, o), AtWorker)
            && AtWorkers(c, g[o := Lost], workers[i := Worker(workers[i].pos + 1, AtLink)])
  {
  }

  lemma AbortLocated(c: Config, s: State, i: nat)
    requires Tracked(c, s) && Enabled(c, s, WorkAbort(i))
    ensures Tracked(c, Apply(c, s, WorkAbort(i)))
    ensures Shuffles(s.stage, Apply(c, s, WorkAbort(i)).stage)
  {
    hide Lists, AtWorkers, AtPacers, AtExecs, AtDisp, AtPoolLoop;
    var o := Occ(i, s.front.workers[i].pos);
    AbortWorkers(c, s.stage, s.front.workers, i);
    PlacedMove(c, s.stage, s.front, s.mid, s.back, o, Lost);
    assert Shuffle(s.stage, Apply(c, s, WorkAbort(i)).stage, o, Lost);
  }

  lemma FrontLocated(c: Config, s: State, op: FrontOp)
    requires Tracked(c, s) && FrontEnabled(c, s.cancelled, s.front, op)
    requires op.ParseSpawn? ==> s.front.parser.item !in s.front.workers
    ensures Tracked(c, DoFront(c, s, op))
  {
    hide Lists, AtPacers, AtExecs, AtDisp, AtPoolLoop;
  }

  lemma RouteLocated(c: Config, g: StageMap, job: Job, d: DispPc)
    requires IsNet(c, job.sample) && job == JobOf(c, job.sample) && AtDisp(c, g, d) && !d.Routing?
    ensures AtDisp(c, g[job.sample := AtDispatcher], Routing(job))
  {
  }

  lemma RoutedLocated(c: Config, g: StageMap, d: DispPc, d': DispPc)
    requires AtDisp(c, g, d) && !d'.Routing?
    ensures d.Routing? ==> Carried(c, g, d.job, AtDispatcher) && AtDisp(c, g[d.job.sample := Queued], d')
    ensures !d.Routing? ==> AtDisp(c, g, d')
  {
  }

  // A pacer that keeps its queue and its hand may change in any other way.
  lemma PacerSame(c: Config, g: StageMap, pacers: map<Host, Pacer>, h: Host, p: Pacer)
    requires AtPacers(c, g, pacers)
    requires if h in pacers then p.q == pacers[h].q && Hand(p.pc) == Hand(pacers[h].pc) else p == NewPacer()
    ensures AtPacers(c, g, pacers[h := p])
  {
    assert h in pacers ==> Hand(p.pc) == Hand(pacers[h].pc);
  }

  // The dispatcher changes at most one pacer, and only in its flags or its sleep.
  lemma DispatchPacers(c: Config, g: StageMap, m: Mid, h: Host)
    requires AtPacers(c, g, m.pacers) && DispatchEnabled(m, h)
    requires m.disp.Routing? ==> m.disp.job.host !in m.pacers
    ensures AtPacers(c, g, MidNext(m, h).pacers)
  {
    hide AtPacers;
    match m.disp
    case Reading =>
    case Routing(job) => PacerSame(c, g, m.pacers, job.host, NewPacer());
    case Signalling(host) => PacerSame(c, g, m.pacers, host, Woken(m.pacers[host]));
    case ClosingPacers(rest) => if rest != {} { PacerSame(c, g, m.pacers, h, m.pacers[h].(done := true)); }
    case Broadcasting(host, rest) => PacerSame(c, g, m.pacers, host, Woken(m.pacers[host]));
    case AwaitingPacers =>
  }

  lemma RouteMoves(c: Config, s: State, s': State)
    requires Tracked(c, s) && s.mid.disp.Reading? && s.mid.jobsCh.buf != []
    requires var job := s.mid.jobsCh.buf[0];
             Columns(s, s', s.stage[job.sample := AtDispatcher], s.front,
                   s.mid.(disp := Routing(job), jobsCh := Popped(s.mid.jobsCh)), s.back)
    ensures Tracked(c, s') && Shuffles(s.stage, s'.stage)
  {
    hide Lists, AtWorkers, AtPacers, AtExecs, AtDisp, AtPoolLoop;
    var job := s.mid.jobsCh.buf[0];
    ListsPop(c, s.stage, s.mid.jobsCh.buf, InJobs, None, AtDispatcher);
    PlacedMove(c, s.stage, s.front, s.mid, s.back, job.sample, AtDispatcher);
    RouteLocated(c, s.stage, job, s.mid.disp);
    assert Shuffle(s.stage, s'.stage, job.sample, AtDispatcher);
  }

  lemma QueueMoves(c: Config, s: State, s': State)
    requires Tracked(c, s) && s.mid.disp.Routing? && s.mid.disp.job.host in s.mid.pacers
    requires var job := s.mid.disp.job;
             Columns(s, s', s.stage[job.sample := Queued], s.front,
                   s.mid.(disp := Signalling(job.host),
                   pacers := s.mid.pacers[job.host := Enqueued(s.mid.pacers[job.host], job)]), s.back)
    ensures Tracked(c, s') && Shuffles(s.stage, s'.stage)
  {
    hide Lists, AtWorkers, AtPacers, AtExecs, AtDisp, AtPoolLoop;
    var job := s.mid.disp.job;
    RoutedLocated(c, s.stage, s.mid.disp, Signalling(job.host));
    PlacedMove(c, s.stage, s.front, s.mid, s.back, job.sample, Queued);
    QueueLocated(c, s.stage, s.mid.pacers, job);
    assert Shuffle(s.stage, s'.stage, job.sample, Queued);
  }

  lemma DispatchIdles(c: Config, s: State, h: Host)
    requires Tracked(c, s) && DispatchEnabled(s.mid, h)
    requires !(s.mid.disp.Reading? && s.mid.jobsCh.buf != []) && !(s.mid.disp.Routing? && s.mid.disp.job.host in s.mid.pacers)
    ensures Tracked(c, DoDispatch(s, h)) && DoDispatch(s, h).stage == s.stage
  {
    hide Lists, AtWorkers, AtPacers, AtExecs, AtDisp, AtPoolLoop;
    DispatchPacers(c, s.stage, s.mid, h);
    if !s.mid.disp.Routing? {
      RoutedLocated(c, s.stage, s.mid.disp, MidNext(s.mid, h).disp);
    }
  }

  lemma DispatchColumns(s: State, h: Host)
    requires DispatchEnabled(s.mid, h)
    ensures s.mid.disp.Reading? && s.mid.jobsCh.buf != [] ==>
              var job := s.mid.jobsCh.buf[0];
              Columns(s, DoDispatch(s, h), s.stage[job.sample := AtDispatcher], s.front,
                    s.mid.(disp := Routing(job), jobsCh := Popped(s.mid.jobsCh)), s.back)
    ensures s.mid.disp.Routing? && s.mid.disp.job.host in s.mid.pacers ==>
              var job := s.mid.disp.job;
              Columns(s, DoDispatch(s, h), s.stage[job.sample := Queued], s.front,
                    s.mid.(disp := Signalling(job.host),
                    pacers := s.mid.pacers[job.host := Enqueued(s.mid.pacers[job.host], job)]), s.back)
  {
  }

  lemma DispatchLocated(c: Config, s: State, h: Host)
    requires Tracked(c, s) && DispatchEnabled(s.mid, h)
    ensures Tracked(c, DoDispatch(s, h))
    ensures Shuffles(s.stage, DoDispatch(s, h).stage)
  {
    hide Tracked, DispatchEnabled, DoDispatch, Columns;
    DispatchColumns(s, h);
    if s.mid.disp.Reading? && s.mid.jobsCh.buf != [] {
      RouteMoves(c, s, DoDispatch(s, h));
    } else if s.mid.disp.Routing? && s.mid.disp.job.host in s.mid.pacers {
      QueueMoves(c, s, DoDispatch(s, h));
    } else {
      DispatchIdles(c, s, h);
    }
  }

  lemma QueueLocated(c: Config, g: StageMap, pacers: map<Host, Pacer>, job: Job)
    requires AtPacers(c, g, pacers) && job.host in pacers && Carried(c, g, job, AtDispatcher)
    ensures AtPacers(c, g[job.sample := Queued], pacers[job.host := Enqueued(pacers[job.host], job)])
  {
    var g', after := g[job.sample := Queued], pacers[job.host := Enqueued(pacers[job.host], job)];
    forall h | h in after
      ensures AtPacer(c, g', h, after[h])
    {
      if h == job.host {
        ListsPush(c, g, pacers[h].q, Queued, Some(h), job);
      } else {
        ListsOther(c, g, pacers[h].q, h, job.sample, Queued);
      }
    }
  }

  // Queueing for one host leaves another host's queue alone.
  lemma ListsOther(c: Config, g: StageMap, buf: seq<Job>, h: Host, o: Occ, y: Stage)
    requires Lists(c, g, buf, Queued, Some(h)) && IsNet(c, o) && HostOf(c, o) != h
    ensures Lists(c, g[o := y], buf, Queued, Some(h))
  {
  }

  lemma TakeLocated(c: Config, g: StageMap, pacers: map<Host, Pacer>, h: Host)
    requires AtPacers(c, g, pacers) && h in pacers && pacers[h].pc.Guarded? && pacers[h].q != []
    ensures Carried(c, g, pacers[h].q[0], Queued)
    ensures AtPacers(c, g[pacers[h].q[0].sample := Pacing], pacers[h := PacerNext(pacers[h], false)])
  {
    var o := pacers[h].q[0].sample;
    var g', after := g[o := Pacing], pacers[h := PacerNext(pacers[h], false)];
    forall k | k in after
      ensures AtPacer(c, g', k, after[k])
    {
      if k == h {
        ListsPop(c, g, pacers[h].q, Queued, Some(h), Pacing);
      } else {
        ListsOther(c, g, pacers[k].q, k, o, Pacing);
      }
    }
  }

  // The job in a pacer's hand goes to x, which is not a place pacers hold.
  lemma HandLocated(c: Config, g: StageMap, pacers: map<Host, Pacer>, h: Host, p: Pacer, x: Stage)
    requires AtPacers(c, g, pacers) && h in pacers && (pacers[h].pc.Acquiring? || pacers[h].pc.Releasing?)
    requires p.q == pacers[h].q && !p.pc.Acquiring? && !p.pc.Releasing?
    requires x != Queued && x != Pacing
    ensures Carried(c, g, pacers[h].pc.job, Pacing)
    ensures AtPacers(c, g[pacers[h].pc.job.sample := x], pacers[h := p])
  {
    var o := pacers[h].pc.job.sample;
    var g', after := g[o := x], pacers[h := p];
    forall k | k in after
      ensures AtPacer(c, g', k, after[k])
    {
      if k == h {
        ListsKept(c, g, pacers[h].q, Queued, Some(h), o, x);
      } else {
        ListsOther(c, g, pacers[k].q, k, o, x);
      }
    }
  }

  lemma TakeMoves(c: Config, s: State, s': State, h: Host)
    requires Tracked(c, s) && h in s.mid.pacers && s.mid.pacers[h].pc.Guarded? && s.mid.pacers[h].q != []
    requires var p := s.mid.pacers[h];
             Columns(s, s', s.stage[p.q[0].sample := Pacing], s.front, s.mid.(pacers := s.mid.pacers[h := PacerNext(p, false)]), s.back)
    ensures Tracked(c, s') && Shuffles(s.stage, s'.stage)
  {
    hide AtWorkers, AtExecs, AtDisp, AtPoolLoop, AtPacers, Lists, PacerNext;
    TakeLocated(c, s.stage, s.mid.pacers, h);
    PlacedMove(c, s.stage, s.front, s.mid, s.back, s.mid.pacers[h].q[0].sample, Pacing);
    assert Shuffle(s.stage, s'.stage, s.mid.pacers[h].q[0].sample, Pacing);
  }

  lemma ReleaseMoves(c: Config, s: State, s': State, h: Host, p': Pacer)
    requires Tracked(c, s) && h in s.mid.pacers && s.mid.pacers[h].pc.Releasing?
    requires p'.q == s.mid.pacers[h].q && Hand(p'.pc) == []
    requires var job := s.mid.pacers[h].pc.job;
             Columns(s, s', s.stage[job.sample := InReady], s.front, s.mid.(pacers := s.mid.pacers[h := p']),
                   s.back.(readyCh := Pushed(s.back.readyCh, job)))
    ensures Tracked(c, s') && Shuffles(s.stage, s'.stage)
  {
    hide AtWorkers, AtExecs, AtDisp, AtPoolLoop, AtPacers, Lists;
    var job := s.mid.pacers[h].pc.job;
    HandLocated(c, s.stage, s.mid.pacers, h, p', InReady);
    PlacedMove(c, s.stage, s.front, s.mid, s.back, job.sample, InReady);
    ListsPush(c, s.stage, s.back.readyCh.buf, InReady, None, job);
    assert Shuffle(s.stage, s'.stage, job.sample, InReady);
  }

  lemma PaceIdles(c: Config, s: State, s': State, h: Host, p': Pacer)
    requires Tracked(c, s) && h in s.mid.pacers && p'.q == s.mid.pacers[h].q && Hand(p'.pc) == Hand(s.mid.pacers[h].pc)
    requires Columns(s, s', s.stage, s.front, s.mid.(pacers := s.mid.pacers[h := p']), s.back)
    ensures Tracked(c, s')
  {
    hide AtWorkers, AtExecs, AtDisp, AtPoolLoop, AtPacers, Lists, Hand;
    PacerSame(c, s.stage, s.mid.pacers, h, p');
  }

  predicate Takes(s: State, p: Pacer) {
    p.pc.Guarded? && !s.cancelled && p.q != []
  }

  lemma PaceColumns(c: Config, s: State, h: Host)
    requires PaceEnabled(c, s, h)
    ensures var p, p', s' := s.mid.pacers[h], PacerNext(s.mid.pacers[h], s.cancelled), DoPace(c, s, h);
            var m := s.mid.(pacers := s.mid.pacers[h := p']);
            if Takes(s, p) then p' == PacerNext(p, false) && Columns(s, s', s.stage[p.q[0].sample := Pacing], s.front, m, s.back)
            else if p.pc.Releasing? then
              && p'.q == p.q && Hand(p'.pc) == []
              && Columns(s, s', s.stage[p.pc.job.sample := InReady], s.front, m, s.back.(readyCh := Pushed(s.back.readyCh, p.pc.job)))
            else p'.q == p.q && Hand(p'.pc) == Hand(p.pc) && Columns(s, s', s.stage, s.front, m, s.back)
  {
  }

  lemma PaceLocated(c: Config, s: State, h: Host)
    requires Tracked(c, s) && PaceEnabled(c, s, h)
    ensures Tracked(c, DoPace(c, s, h))
    ensures Shuffles(s.stage, DoPace(c, s, h).stage)
  {
    hide Tracked, DoPace, PacerNext;
    PaceColumns(c, s, h);
    var p, p' := s.mid.pacers[h], PacerNext(s.mid.pacers[h], s.cancelled);
    if Takes(s, p) {
      TakeMoves(c, s, DoPace(c, s, h), h);
    } else if p.pc.Releasing? {
      ReleaseMoves(c, s, DoPace(c, s, h), h, p');
    } else {
      PaceIdles(c, s, DoPace(c, s, h), h, p');
    }
  }

  lemma AbandonLocated(c: Config, s: State, h: Host)
    requires Tracked(c, s) && h in s.mid.pacers && (s.mid.pacers[h].pc.Acquiring? || s.mid.pacers[h].pc.Releasing?)
    ensures Placed(c, Abandon(s, h).stage, s.front, Abandon(s, h).mid, s.back)
    ensures Shuffles(s.stage, Abandon(s, h).stage)
  {
    hide Lists, AtWorkers, AtExecs, AtDisp, AtPoolLoop, AtPacers;
    HandLocated(c, s.stage, s.mid.pacers, h, Dropped(s.mid.pacers[h]), Lost);
    PlacedMove(c, s.stage, s.front, s.mid, s.back, s.mid.pacers[h].pc.job.sample, Lost);
    assert Shuffle(s.stage, Abandon(s, h).stage, s.mid.pacers[h].pc.job.sample, Lost);
  }

  lemma BroadcastLocated(c: Config, s: State, h: Host)
    requires Tracked(c, s) && Enabled(c, s, CtxBroadcast(h))
    ensures Tracked(c, Apply(c, s, CtxBroadcast(h)))
  {
    hide Lists, AtWorkers, AtExecs, AtDisp, AtPoolLoop, AtPacers;
    PacerSame(c, s.stage, s.mid.pacers, h, Woken(s.mid.pacers[h]).(ctxFired := true));
  }

  lemma RecvLocated(c: Config, g: StageMap, job: Job, pool: LoopPc<Job>)
    requires IsNet(c, job.sample) && job == JobOf(c, job.sample) && AtPoolLoop(c, g, pool) && !pool.Holding?
    ensures AtPoolLoop(c, g[job.sample := AtPool], Holding(job))
  {
  }

  lemma SpawnLocated(c: Config, g: StageMap, b: Back)
    requires AtExecs(c, g, b.execs) && AtPoolLoop(c, g, b.pool) && BackEnabled(c, b, PoolSpawn)
    ensures b.pool.item.sample !in b.execs && Carried(c, g, b.pool.item, AtPool)
    ensures AtExecs(c, g[b.pool.item.sample := Running], BackNext(c, b, PoolSpawn).execs)
    ensures AtPoolLoop(c, g[b.pool.item.sample := Running], Ranging)
  {
    SpawnExecs(c, g, b.execs, b.pool.item);
    hide AtExecs;
  }

  lemma SpawnExecs(c: Config, g: StageMap, execs: map<Occ, Exec>, job: Job)
    requires AtExecs(c, g, execs) && Carried(c, g, job, AtPool)
    ensures job.sample !in execs && AtExecs(c, g[job.sample := Running], execs[job.sample := Exec(job, Begun)])
  {
  }

  lemma IdleLocated(c: Config, g: StageMap, pool: LoopPc<Job>, pool': LoopPc<Job>)
    requires AtPoolLoop(c, g, pool) && !pool.Holding? && !pool'.Holding?
    ensures AtPoolLoop(c, g, pool')
  {
  }

  lemma RecvMoves(c: Config, s: State, s': State)
    requires Tracked(c, s) && s.back.pool.Ranging? && s.back.readyCh.buf != []
    requires var job := s.back.readyCh.buf[0];
             Columns(s, s', s.stage[job.sample := AtPool], s.front, s.mid, s.back.(pool := Holding(job), readyCh := Popped(s.back.readyCh)))
    ensures Tracked(c, s') && Shuffles(s.stage, s'.stage)
  {
    hide Lists, AtWorkers, AtPacers, AtDisp, AtExecs, AtPoolLoop;
    var job := s.back.readyCh.buf[0];
    ListsPop(c, s.stage, s.back.readyCh.buf, InReady, None, AtPool);
    PlacedMove(c, s.stage, s.front, s.mid, s.back, job.sample, AtPool);
    RecvLocated(c, s.stage, job, s.back.pool);
    assert Shuffle(s.stage, s'.stage, job.sample, AtPool);
  }

  lemma SpawnMoves(c: Config, s: State, s': State)
    requires Tracked(c, s) && BackEnabled(c, s.back, PoolSpawn)
    requires Columns(s, s', s.stage[s.back.pool.item.sample := Running], s.front, s.mid, BackNext(c, s.back, PoolSpawn))
    ensures Tracked(c, s') && Shuffles(s.stage, s'.stage)
  {
    hide Lists, AtWorkers, AtPacers, AtDisp, AtExecs, AtPoolLoop;
    SpawnLocated(c, s.stage, s.back);
    PlacedMove(c, s.stage, s.front, s.mid, s.back, s.back.pool.item.sample, Running);
    assert Shuffle(s.stage, s'.stage, s.back.pool.item.sample, Running);
  }

  lemma PoolIdles(c: Config, s: State, s': State, pool': LoopPc<Job>)
    requires Tracked(c, s) && !s.back.pool.Holding? && !pool'.Holding?
    requires Columns(s, s', s.stage, s.front, s.mid, s.back.(pool := pool'))
    ensures Tracked(c, s')
  {
    hide Lists, AtWorkers, AtPacers, AtDisp, AtExecs, AtPoolLoop;
    IdleLocated(c, s.stage, s.back.pool, pool');
  }

  lemma BackLocated(c: Config, s: State, op: BackOp)
    requires Tracked(c, s) && BackEnabled(c, s.back, op)
    ensures Tracked(c, DoBack(c, s, op))
    ensures Shuffles(s.stage, DoBack(c, s, op).stage)
  {
    hide Tracked;
    match op
    case PoolRecv => RecvMoves(c, s, DoBack(c, s, op));
    case PoolSpawn => SpawnMoves(c, s, DoBack(c, s, op));
    case PoolDrained => PoolIdles(c, s, DoBack(c, s, op), Draining);
    case PoolDone => PoolIdles(c, s, DoBack(c, s, op), Finished);
  }

  lemma ExecsNext(c: Config, g: StageMap, execs: map<Occ, Exec>, seen: Seen, o: Occ, res: Result)
    requires AtExecs(c, g, execs) && o in execs
    ensures Carried(c, g, execs[o].job, StageOf(execs[o])) && execs[o].job.sample == o
    ensures var e := execs[o];
            if ExecEnds(e) then AtExecs(c, g[o := Finis], execs - {o})
            else if e.pc.Located? then AtExecs(c, g[o := Fanned], execs[o := ExecNext(e, seen, res)])
            else AtExecs(c, g, execs[o := ExecNext(e, seen, res)])
  {
  }

  lemma ExecuteLocated(c: Config, s: State, o: Occ, res: Result, now: int)
    requires Tracked(c, s) && ExecEnabled(c, s, o, res)
    ensures Tracked(c, DoExecute(c, s, o, res, now))
  {
    hide Lists, AtWorkers, AtPacers, AtDisp, AtPoolLoop, AtExecs;
    var e := s.back.execs[o];
    ExecsNext(c, s.stage, s.back.execs, s.seen, o, res);
    if e.pc.Located? {
      PlacedMove(c, s.stage, s.front, s.mid, s.back, o, Fanned);
    } else if ExecEnds(e) {
      PlacedMove(c, s.stage, s.front, s.mid, s.back, o, Finis);
    }
  }
}
