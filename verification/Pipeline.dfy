// The streaming check pipeline as a state machine. A step is one critical section, one
// channel operation or one call into the environment (a check, a wait for a token), so
// every interleaving the goroutines can produce is a sequence of these steps.
//
// An occurrence is named by the source it is in and its position there, which is what
// tells two textually identical links apart. Goroutines are named by what they work on:
// a parse worker by its source, an executor by the occurrence that created its job.
//
// Fields that only record history (parsed, stage, accepted, released, lost, counted,
// completed, origin, served) are never read by a guard or by the next value of another
// field. The clock is the last reading any goroutine took; readings never go back.
module Pipeline {
  import opened Model
  import opened ResultCache
  import opened Dedup
  import Report

  type Key = string
  type Host = string

  // A link that is settled on the spot (ignored, file, anchor, mailto, unreadable
  // source) or one that needs the network.
  datatype Link =
    | Settled(target: Target, state: LinkState, statusCode: int, detail: string)
    | Net(target: Target)

  function Verdict(l: Link): Result
    requires l.Settled?
  {
    Blank(l.target).(state := l.state, statusCode := l.statusCode, detail := l.detail)
  }

  datatype Config = Config(
    sources: seq<seq<Link>>,
    norm: string -> Key,
    hostOf: string -> Host,
    filesCap: nat,
    jobsCap: nat,
    readyCap: nat,
    parseLimit: nat,
    execLimit: nat,
    store: Store,
    start: int)
  {
    predicate WF() {
      filesCap > 0 && jobsCap > 0 && readyCap > 0 && parseLimit > 0 && execLimit > 0
    }
  }

  // The capacities and limits a run really uses.
  function Configure(sources: seq<seq<Link>>, norm: string -> Key, hostOf: string -> Host,
                     parseWorkers: int, urlWorkers: int, store: Store, start: int): (c: Config)
    ensures c.WF()
  {
    Config(sources, norm, hostOf, 64, 256, 2 * Max(1, urlWorkers), Max(1, parseWorkers), Max(1, urlWorkers), store, start)
  }

  datatype Occ = Occ(src: nat, pos: nat)

  datatype Job = Job(key: Key, host: Host, sample: Occ)

  predicate Valid(c: Config, o: Occ) {
    o.src < |c.sources| && o.pos < |c.sources[o.src]|
  }

  predicate IsNet(c: Config, o: Occ) {
    Valid(c, o) && c.sources[o.src][o.pos].Net?
  }

  function TargetOf(c: Config, o: Occ): Target
    requires IsNet(c, o)
  {
    c.sources[o.src][o.pos].target
  }

  function KeyOf(c: Config, o: Occ): Key
    requires IsNet(c, o)
  {
    c.norm(TargetOf(c, o).url)
  }

  function HostOf(c: Config, o: Occ): Host
    requires IsNet(c, o)
  {
    c.hostOf(TargetOf(c, o).url)
  }

  function JobOf(c: Config, o: Occ): Job
    requires IsNet(c, o)
  {
    Job(KeyOf(c, o), HostOf(c, o), o)
  }

  // ---------------------------------------------------------------- state

  datatype Chan<T> = Chan(buf: seq<T>, closed: bool)

  datatype CrawlPc = Crawling | Closing(failed: bool) | Returning(failed: bool) | Returned

  // A loop that ranges over a channel and starts a goroutine per item under a limit.
  datatype LoopPc<T> = Ranging | Holding(item: T) | Draining | Finished

  datatype WorkerPc =
    | AtLink
    | InGap                    // add has released d.mu and not yet taken st.mu
    | Emitting(res: Result)
    | Counting(job: Job)       // about to call NetEnqueue
    | Offering(job: Job)       // about to send on jobsCh

  datatype Worker = Worker(pos: nat, pc: WorkerPc)

  datatype DispPc =
    | Reading
    | Routing(job: Job)
    | Signalling(host: Host)
    | ClosingPacers(rest: set<Host>)
    | Broadcasting(host: Host, rest: set<Host>)
    | AwaitingPacers
    | Retired

  datatype PacerPc =
    | Starting                 // the go statement has run, run has not begun
    | WantLock
    | Locked                   // holds mu, about to test the loop guard
    | Guarded                  // holds mu, the loop guard was false
    | Entering                 // holds mu, about to call cond.Wait
    | Waiting                  // in the notify list, mu released
    | Acquiring(job: Job)
    | Releasing(job: Job)      // about to send on readyCh
    | Exited

  datatype Pacer = Pacer(
    q: seq<Job>,
    done: bool,
    pc: PacerPc,
    ctxFired: bool,            // the context's own Broadcast has happened
    accepted: seq<Job>,
    released: seq<Job>,
    lost: seq<Job>)

  datatype ExecPc =
    | Begun
    | Checking
    | Checked(res: Result)
    | Storing(res: Result)
    | Completing(res: Result)
    | Located(res: Result)     // complete has found the url state and released d.mu
    | Fanning(res: Result, rest: seq<Occ>, first: bool)

  datatype Exec = Exec(job: Job, pc: ExecPc)

  datatype Emission = Emission(occ: Occ, res: Result)

  datatype Gauges = Gauges(
    enqueued: int,
    netDone: int,
    active: set<string>,
    inflight: map<Host, int>,
    counted: set<Occ>,
    completed: set<Occ>)

  // Where the job created for an occurrence is.
  datatype Stage =
    | AtWorker | InJobs | AtDispatcher | Queued | Pacing | InReady | AtPool
    | Running | Fanned | Finis | Lost

  // Crawling and parsing.
  datatype Front = Front(
    crawl: CrawlPc,
    sent: nat,
    filesCh: Chan<nat>,
    parser: LoopPc<nat>,
    workers: map<nat, Worker>,
    parsed: set<nat>)

  // Dispatching and pacing.
  datatype Mid = Mid(jobsCh: Chan<Job>, disp: DispPc, pacers: map<Host, Pacer>)

  // Executing.
  datatype Back = Back(readyCh: Chan<Job>, pool: LoopPc<Job>, execs: map<Occ, Exec>)

  type Seen = map<Key, UrlState<Occ>>

  datatype State = State(
    cancelled: bool,
    acquireErrs: nat,
    crashed: bool,
    front: Front,
    mid: Mid,
    back: Back,
    seen: Seen,
    store: Store,
    results: seq<Emission>,
    gauges: Gauges,
    stage: map<Occ, Stage>,
    clock: int,
    served: map<Key, int>)          // when each key was served from the store

  function Init(c: Config): State {
    State(false, 0, false,
          Front(Crawling, 0, Chan([], false), Ranging, map[], {}),
          Mid(Chan([], false), Reading, map[]),
          Back(Chan([], false), Ranging, map[]),
          map[], c.store, [], Gauges(0, 0, {}, map[], {}, {}), map[], c.start, map[])
  }

  predicate Final(s: State) {
    s.front.crawl.Returned? && s.front.parser.Finished? && s.mid.disp.Retired? && s.back.pool.Finished?
  }

  // Nothing went wrong: the context is live and every Acquire succeeded.
  predicate Clean(s: State) {
    !s.cancelled && s.acquireErrs == 0
  }

  // ---------------------------------------------------------------- steps

  datatype FrontOp =
    | CrawlSend
    | CrawlEnd
    | CrawlFail                                    // an unreadable root, at any point
    | CrawlAbort                                   // its send saw the context end
    | CrawlClose
    | CrawlReturn
    | ParseRecv
    | ParseSpawn
    | ParseDrained
    | ParseClose

  datatype BackOp = PoolRecv | PoolSpawn | PoolDrained | PoolDone

  datatype Step =
    | Cancel                                       // the caller's context ends
    | FrontStep(front: FrontOp)
    | Work(src: nat, now: int)                     // the worker's next operation
    | WorkAbort(src: nat)                          // its send saw the context end
    | Dispatch(host: Host)                         // host picks the next pacer to close
    | Pace(host: Host)                             // the pacer's next operation
    | AcquireFail(host: Host)
    | PaceAbort(host: Host)
    | CtxBroadcast(host: Host)
    | BackStep(back: BackOp)
    | Execute(occ: Occ, res: Result, now: int)     // res is what a check returns

  // A send on a closed channel and a second close both panic.
  function Closed<T>(ch: Chan<T>): Chan<T> {
    ch.(closed := true)
  }

  function Pushed<T>(ch: Chan<T>, x: T): Chan<T> {
    ch.(buf := ch.buf + [x])
  }

  function Popped<T>(ch: Chan<T>): Chan<T>
    requires ch.buf != []
  {
    ch.(buf := ch.buf[1..])
  }

  // A send proceeds when there is room; on a closed channel it proceeds and panics.
  predicate CanSend<T>(ch: Chan<T>, cap: nat) {
    ch.closed || |ch.buf| < cap
  }

  predicate LockHeld(p: Pacer) {
    p.pc.Locked? || p.pc.Guarded? || p.pc.Entering?
  }

  predicate WorkEnabled(c: Config, s: State, i: nat) {
    && i in s.front.workers
    && i < |c.sources|
    && s.front.workers[i].pos <= |c.sources[i]|
    && (!s.front.workers[i].pc.AtLink? ==> IsNet(c, Occ(i, s.front.workers[i].pos)))
    && (s.front.workers[i].pc.Offering? ==> CanSend(s.mid.jobsCh, c.jobsCap))
  }

  predicate DispatchEnabled(m: Mid, h: Host) {
    match m.disp
    case Reading => m.jobsCh.buf != [] || m.jobsCh.closed
    case Routing(job) => job.host in m.pacers ==> !LockHeld(m.pacers[job.host])
    case Signalling(host) => host in m.pacers
    case ClosingPacers(rest) => rest == {} || (h in rest && h in m.pacers && !LockHeld(m.pacers[h]))
    case Broadcasting(host, rest) => host in m.pacers
    case AwaitingPacers => forall k :: k in m.pacers ==> m.pacers[k].pc.Exited?
    case Retired => false
  }

  predicate PaceEnabled(c: Config, s: State, h: Host) {
    && h in s.mid.pacers
    && !s.mid.pacers[h].pc.Waiting?
    && !s.mid.pacers[h].pc.Exited?
    && (s.mid.pacers[h].pc.Releasing? ==> CanSend(s.back.readyCh, c.readyCap))
  }

  // What a check returns is up to the network, but it is always about the sample link.
  predicate CheckReturns(c: Config, o: Occ, res: Result) {
    IsNet(c, o) && res.target == TargetOf(c, o) && !res.fromCache && !res.reused
  }

  predicate ExecEnabled(c: Config, s: State, o: Occ, res: Result) {
    && o in s.back.execs
    && IsNet(c, o)
    && (s.back.execs[o].pc.Checking? ==> CheckReturns(c, o, res))
    && (s.back.execs[o].pc.Fanning? && s.back.execs[o].pc.rest != [] ==> IsNet(c, s.back.execs[o].pc.rest[0]))
  }

  predicate FrontEnabled(c: Config, cancelled: bool, f: Front, op: FrontOp) {
    match op
    case CrawlSend => f.crawl.Crawling? && f.sent < |c.sources| && CanSend(f.filesCh, c.filesCap)
    case CrawlEnd => f.crawl.Crawling? && f.sent == |c.sources|
    case CrawlFail => f.crawl.Crawling?
    case CrawlAbort => f.crawl.Crawling? && f.sent < |c.sources| && cancelled
    case CrawlClose => f.crawl.Closing?
    case CrawlReturn => f.crawl.Returning?
    case ParseRecv => f.parser.Ranging? && f.filesCh.buf != []
    case ParseSpawn => f.parser.Holding? && |f.workers| < c.parseLimit
    case ParseDrained => f.parser.Ranging? && f.filesCh.buf == [] && f.filesCh.closed
    case ParseClose => f.parser.Draining? && f.workers == map[]
  }

  predicate BackEnabled(c: Config, b: Back, op: BackOp) {
    match op
    case PoolRecv => b.pool.Ranging? && b.readyCh.buf != []
    case PoolSpawn => b.pool.Holding? && |b.execs| < c.execLimit
    case PoolDrained => b.pool.Ranging? && b.readyCh.buf == [] && b.readyCh.closed
    case PoolDone => b.pool.Draining? && b.execs == map[]
  }

  predicate Enabled(c: Config, s: State, st: Step) {
    match st
    case Cancel => !s.cancelled
    case FrontStep(op) => FrontEnabled(c, s.cancelled, s.front, op)
    case Work(i, now) => WorkEnabled(c, s, i) && s.clock <= now
    case WorkAbort(i) => i in s.front.workers && s.front.workers[i].pc.Offering? && s.cancelled
    case Dispatch(h) => DispatchEnabled(s.mid, h)
    case Pace(h) => PaceEnabled(c, s, h)
    case AcquireFail(h) => h in s.mid.pacers && s.mid.pacers[h].pc.Acquiring?
    case PaceAbort(h) => h in s.mid.pacers && s.mid.pacers[h].pc.Releasing? && s.cancelled
    case CtxBroadcast(h) =>
      && s.cancelled
      && h in s.mid.pacers
      && !s.mid.pacers[h].pc.Starting?
      && !s.mid.pacers[h].pc.Exited?
      && !s.mid.pacers[h].ctxFired
    case BackStep(op) => BackEnabled(c, s.back, op)
    case Execute(o, res, now) => ExecEnabled(c, s, o, res) && s.clock <= now
  }

  function Apply(c: Config, s: State, st: Step): State
    requires Enabled(c, s, st)
  {
    match st
    case Cancel => s.(cancelled := true)
    case FrontStep(op) => DoFront(c, s, op)
    case Work(i, now) => DoWork(c, s, i, now)
    case WorkAbort(i) =>
      var w := s.front.workers[i];
      s.(front := s.front.(workers := s.front.workers[i := Worker(w.pos + 1, AtLink)]),
         stage := s.stage[Occ(i, w.pos) := Lost])
    case Dispatch(h) => DoDispatch(s, h)
    case Pace(h) => DoPace(c, s, h)
    case AcquireFail(h) => Abandon(s, h).(acquireErrs := s.acquireErrs + 1)
    case PaceAbort(h) => Abandon(s, h)
    case CtxBroadcast(h) =>
      s.(mid := s.mid.(pacers := s.mid.pacers[h := Woken(s.mid.pacers[h]).(ctxFired := true)]))
    case BackStep(op) => DoBack(c, s, op)
    case Execute(o, res, now) => DoExecute(c, s, o, res, now)
  }

  ghost predicate Next(c: Config, s: State, s': State) {
    exists st :: Enabled(c, s, st) && s' == Apply(c, s, st)
  }

  // ---------------------------------------------------------------- crawl and parse loops

  function FrontNext(c: Config, cancelled: bool, f: Front, op: FrontOp): Front
    requires FrontEnabled(c, cancelled, f, op)
  {
    match op
    case CrawlSend => f.(filesCh := Pushed(f.filesCh, f.sent), sent := f.sent + 1)
    case CrawlEnd => f.(crawl := Closing(false))
    case CrawlFail => f.(crawl := Closing(true))
    case CrawlAbort => f.(crawl := Closing(true))
    case CrawlClose => f.(filesCh := Closed(f.filesCh), crawl := Returning(f.crawl.failed))
    case CrawlReturn => f.(crawl := Returned)
    case ParseRecv => f.(parser := Holding(f.filesCh.buf[0]), filesCh := Popped(f.filesCh))
    case ParseSpawn => f.(parser := Ranging, workers := f.workers[f.parser.item := Worker(0, AtLink)])
    case ParseDrained => f.(parser := Draining)
    case ParseClose => f.(parser := Finished)
  }

  // A stage that returns an error makes the group cancel the shared context.
  function DoFront(c: Config, s: State, op: FrontOp): State
    requires FrontEnabled(c, s.cancelled, s.front, op)
  {
    s.(front := FrontNext(c, s.cancelled, s.front, op),
       mid := if op.ParseClose? then s.mid.(jobsCh := Closed(s.mid.jobsCh)) else s.mid,
       cancelled := s.cancelled || (op.CrawlReturn? && s.front.crawl.failed),
       crashed :=
         || s.crashed
         || ((op.CrawlSend? || op.CrawlClose?) && s.front.filesCh.closed)
         || (op.ParseClose? && s.mid.jobsCh.closed))
  }

  // ---------------------------------------------------------------- parse workers

  // What add finds under d.mu.
  datatype Found = Known | Hit(entry: Entry) | Miss

  function Find(c: Config, seen: Seen, store: Store, o: Occ, now: int): Found
    requires IsNet(c, o)
  {
    if KeyOf(c, o) in seen then Known
    else
      match Lookup(store, KeyOf(c, o), now)
      case Some(e) => Hit(e)
      case None => Miss
  }

  function FromEntry(c: Config, o: Occ, e: Entry): Result
    requires IsNet(c, o)
  {
    ResultFromCache(TargetOf(c, o), HostOf(c, o), e)
  }

  predicate AtEnd(c: Config, i: nat, w: Worker)
    requires i < |c.sources|
  {
    w.pc.AtLink? && w.pos == |c.sources[i]|
  }

  predicate AtSettled(c: Config, i: nat, w: Worker)
    requires i < |c.sources| && w.pos <= |c.sources[i]|
  {
    w.pc.AtLink? && w.pos < |c.sources[i]| && c.sources[i][w.pos].Settled?
  }

  // The worker is about to enter the part of add under d.mu.
  predicate AtLookup(c: Config, i: nat, w: Worker)
    requires i < |c.sources| && w.pos <= |c.sources[i]|
  {
    w.pc.AtLink? && w.pos < |c.sources[i]| && c.sources[i][w.pos].Net?
  }

  function WorkerNext(c: Config, s: State, i: nat, now: int): Worker
    requires WorkEnabled(c, s, i) && !AtEnd(c, i, s.front.workers[i])
  {
    var w := s.front.workers[i];
    var o := Occ(i, w.pos);
    var next := Worker(w.pos + 1, AtLink);
    match w.pc
    case AtLink =>
      if AtSettled(c, i, w) then next
      else
        (match Find(c, s.seen, s.store, o, now)
         case Known => w.(pc := InGap)
         case Hit(e) => w.(pc := Emitting(ResultFor(TargetOf(c, o), FromEntry(c, o, e), false)))
         case Miss => w.(pc := Counting(JobOf(c, o))))
    case InGap =>
      if KeyOf(c, o) in s.seen && s.seen[KeyOf(c, o)].done
      then w.(pc := Emitting(ResultFor(TargetOf(c, o), s.seen[KeyOf(c, o)].result, true)))
      else next
    case Emitting(_) => next
    case Counting(job) => w.(pc := Offering(job))
    case Offering(_) => next
  }

  function WorkFront(c: Config, s: State, i: nat, now: int): Front
    requires WorkEnabled(c, s, i)
  {
    if AtEnd(c, i, s.front.workers[i])
    then s.front.(workers := s.front.workers - {i}, parsed := s.front.parsed + {i})
    else s.front.(workers := s.front.workers[i := WorkerNext(c, s, i, now)])
  }

  function WorkSeen(c: Config, s: State, i: nat, now: int): Seen
    requires WorkEnabled(c, s, i)
  {
    var w := s.front.workers[i];
    var o := Occ(i, w.pos);
    if AtLookup(c, i, w) then
      match Find(c, s.seen, s.store, o, now)
      case Known => s.seen
      case Hit(e) => Register(s.seen, KeyOf(c, o), o, Some(FromEntry(c, o, e)), Blank(TargetOf(c, o)))
      case Miss => Register(s.seen, KeyOf(c, o), o, None, Blank(TargetOf(c, o)))
    else if w.pc.InGap? && KeyOf(c, o) in s.seen then Join(s.seen, KeyOf(c, o), o)
    else s.seen
  }

  function WorkResults(c: Config, s: State, i: nat): seq<Emission>
    requires WorkEnabled(c, s, i)
  {
    var w := s.front.workers[i];
    var o := Occ(i, w.pos);
    if AtSettled(c, i, w) then s.results + [Emission(o, Verdict(c.sources[i][w.pos]))]
    else if w.pc.Emitting? then s.results + [Emission(o, w.pc.res)]
    else s.results
  }

  function WorkStage(c: Config, s: State, i: nat, now: int): map<Occ, Stage>
    requires WorkEnabled(c, s, i)
  {
    var w := s.front.workers[i];
    var o := Occ(i, w.pos);
    if AtLookup(c, i, w) && Find(c, s.seen, s.store, o, now).Miss? then s.stage[o := AtWorker]
    else if w.pc.Offering? then s.stage[o := InJobs]
    else s.stage
  }

  function WorkServed(c: Config, s: State, i: nat, now: int): map<Key, int>
    requires WorkEnabled(c, s, i)
  {
    var o := Occ(i, s.front.workers[i].pos);
    if AtLookup(c, i, s.front.workers[i]) && Find(c, s.seen, s.store, o, now).Hit?
    then s.served[KeyOf(c, o) := now]
    else s.served
  }

  function DoWork(c: Config, s: State, i: nat, now: int): State
    requires WorkEnabled(c, s, i)
  {
    var w := s.front.workers[i];
    s.(front := WorkFront(c, s, i, now),
       mid := if w.pc.Offering? then s.mid.(jobsCh := Pushed(s.mid.jobsCh, w.pc.job)) else s.mid,
       seen := WorkSeen(c, s, i, now),
       results := WorkResults(c, s, i),
       gauges := if w.pc.Counting? then NetEnqueue(s.gauges, w.pc.job) else s.gauges,
       stage := WorkStage(c, s, i, now),
       clock := now,
       served := WorkServed(c, s, i, now),
       crashed :=
         || s.crashed
         || (w.pc.Offering? && s.mid.jobsCh.closed)
         || (w.pc.InGap? && KeyOf(c, Occ(i, w.pos)) !in s.seen))
  }

  // ---------------------------------------------------------------- dispatcher

  function NewPacer(): Pacer {
    Pacer([], false, Starting, false, [], [], [])
  }

  function Woken(p: Pacer): Pacer {
    if p.pc.Waiting? then p.(pc := WantLock) else p
  }

  function Enqueued(p: Pacer, job: Job): Pacer {
    p.(q := p.q + [job], accepted := p.accepted + [job])
  }

  function MidNext(m: Mid, h: Host): Mid
    requires DispatchEnabled(m, h)
  {
    match m.disp
    case Reading =>
      if m.jobsCh.buf != [] then m.(disp := Routing(m.jobsCh.buf[0]), jobsCh := Popped(m.jobsCh))
      else m.(disp := ClosingPacers(m.pacers.Keys))
    case Routing(job) =>
      if job.host !in m.pacers then m.(pacers := m.pacers[job.host := NewPacer()])
      else
        m.(disp := Signalling(job.host),
           pacers := m.pacers[job.host := Enqueued(m.pacers[job.host], job)])
    case Signalling(host) => m.(disp := Reading, pacers := m.pacers[host := Woken(m.pacers[host])])
    case ClosingPacers(rest) =>
      if rest == {} then m.(disp := AwaitingPacers)
      else m.(disp := Broadcasting(h, rest - {h}), pacers := m.pacers[h := m.pacers[h].(done := true)])
    case Broadcasting(host, rest) =>
      m.(disp := ClosingPacers(rest), pacers := m.pacers[host := Woken(m.pacers[host])])
    case AwaitingPacers => m.(disp := Retired)
  }

  function DispatchStage(s: State): map<Occ, Stage> {
    var d := s.mid.disp;
    if d.Reading? && s.mid.jobsCh.buf != [] then s.stage[s.mid.jobsCh.buf[0].sample := AtDispatcher]
    else if d.Routing? && d.job.host in s.mid.pacers then s.stage[d.job.sample := Queued]
    else s.stage
  }

  function DoDispatch(s: State, h: Host): State
    requires DispatchEnabled(s.mid, h)
  {
    s.(mid := MidNext(s.mid, h),
       back := if s.mid.disp.AwaitingPacers? then s.back.(readyCh := Closed(s.back.readyCh)) else s.back,
       stage := DispatchStage(s),
       crashed := s.crashed || (s.mid.disp.AwaitingPacers? && s.back.readyCh.closed))
  }

  // ---------------------------------------------------------------- pacers

  function PacerNext(p: Pacer, cancelled: bool): Pacer {
    match p.pc
    case Starting => p.(pc := WantLock)
    case WantLock => p.(pc := Locked)
    case Locked => p.(pc := if p.q == [] && !p.done && !cancelled then Entering else Guarded)
    case Entering => p.(pc := Waiting)
    case Guarded =>
      if cancelled || p.q == [] then p.(pc := Exited) else p.(q := p.q[1..], pc := Acquiring(p.q[0]))
    case Acquiring(job) => p.(pc := Releasing(job))
    case Releasing(job) => p.(pc := WantLock, released := p.released + [job])
    case Waiting => p
    case Exited => p
  }

  function Hand(pc: PacerPc): seq<Job> {
    if pc.Acquiring? || pc.Releasing? then [pc.job] else []
  }

  // Taking the head of an empty queue would panic.
  predicate PaceCrashes(p: Pacer, cancelled: bool, ready: Chan<Job>) {
    || (p.pc.Guarded? && !cancelled && p.q == [] && !p.done)
    || (p.pc.Releasing? && ready.closed)
  }

  function PaceStage(s: State, p: Pacer): map<Occ, Stage> {
    if p.pc.Guarded? && !s.cancelled && p.q != [] then s.stage[p.q[0].sample := Pacing]
    else if p.pc.Releasing? then s.stage[p.pc.job.sample := InReady]
    else s.stage
  }

  function DoPace(c: Config, s: State, h: Host): State
    requires PaceEnabled(c, s, h)
  {
    var p := s.mid.pacers[h];
    s.(mid := s.mid.(pacers := s.mid.pacers[h := PacerNext(p, s.cancelled)]),
       back := if p.pc.Releasing? then s.back.(readyCh := Pushed(s.back.readyCh, p.pc.job)) else s.back,
       stage := PaceStage(s, p),
       crashed := s.crashed || PaceCrashes(p, s.cancelled, s.back.readyCh))
  }

  // The pacer returns with a job in its hand.
  function Dropped(p: Pacer): Pacer
    requires p.pc.Acquiring? || p.pc.Releasing?
  {
    p.(pc := Exited, lost := [p.pc.job])
  }

  function Abandon(s: State, h: Host): State
    requires h in s.mid.pacers && (s.mid.pacers[h].pc.Acquiring? || s.mid.pacers[h].pc.Releasing?)
  {
    s.(mid := s.mid.(pacers := s.mid.pacers[h := Dropped(s.mid.pacers[h])]),
       stage := s.stage[s.mid.pacers[h].pc.job.sample := Lost])
  }

  // ---------------------------------------------------------------- executors

  function BackNext(c: Config, b: Back, op: BackOp): Back
    requires BackEnabled(c, b, op)
  {
    match op
    case PoolRecv => b.(pool := Holding(b.readyCh.buf[0]), readyCh := Popped(b.readyCh))
    case PoolSpawn => b.(pool := Ranging, execs := b.execs[b.pool.item.sample := Exec(b.pool.item, Begun)])
    case PoolDrained => b.(pool := Draining)
    case PoolDone => b.(pool := Finished)
  }

  function DoBack(c: Config, s: State, op: BackOp): State
    requires BackEnabled(c, s.back, op)
  {
    s.(back := BackNext(c, s.back, op),
       stage :=
         if op.PoolRecv? then s.stage[s.back.readyCh.buf[0].sample := AtPool]
         else if op.PoolSpawn? then s.stage[s.back.pool.item.sample := Running]
         else s.stage)
  }

  function NetEnqueue(g: Gauges, job: Job): Gauges {
    g.(enqueued := g.enqueued + 1,
       inflight := Report.Raised(g.inflight, job.host),
       counted := g.counted + {job.sample})
  }

  function NetComplete(g: Gauges, url: string, job: Job): Gauges {
    g.(netDone := g.netDone + 1,
       active := g.active - {url},
       inflight := Report.Lowered(g.inflight, job.host),
       completed := g.completed + {job.sample})
  }

  function ExecGauges(c: Config, g: Gauges, o: Occ, e: Exec): Gauges
    requires IsNet(c, o)
  {
    if e.pc.Begun? then g.(active := g.active + {TargetOf(c, o).url})
    else if e.pc.Checked? then NetComplete(g, TargetOf(c, o).url, e.job)
    else g
  }

  function ExecNext(e: Exec, seen: Seen, res: Result): Exec {
    match e.pc
    case Begun => e.(pc := Checking)
    case Checking => e.(pc := Checked(res))
    case Checked(r) => e.(pc := Storing(r))
    case Storing(r) => e.(pc := Completing(r))
    case Completing(r) => e.(pc := Located(r))
    case Located(r) => e.(pc := Fanning(r, if e.job.key in seen then seen[e.job.key].occs else [], true))
    case Fanning(r, rest, first) => if rest == [] then e else e.(pc := Fanning(r, rest[1..], false))
  }

  predicate ExecEnds(e: Exec) {
    e.pc.Fanning? && e.pc.rest == []
  }

  predicate ExecEmits(e: Exec) {
    e.pc.Fanning? && e.pc.rest != []
  }

  function ExecEmission(c: Config, e: Exec): Emission
    requires ExecEmits(e) && IsNet(c, e.pc.rest[0])
  {
    Emission(e.pc.rest[0], ResultFor(TargetOf(c, e.pc.rest[0]), e.pc.res, !e.pc.first))
  }

  function DoExecute(c: Config, s: State, o: Occ, res: Result, now: int): State
    requires ExecEnabled(c, s, o, res)
  {
    var e := s.back.execs[o];
    s.(back :=
         if ExecEnds(e) then s.back.(execs := s.back.execs - {o})
         else s.back.(execs := s.back.execs[o := ExecNext(e, s.seen, res)]),
       gauges := ExecGauges(c, s.gauges, o, e),
       store := if e.pc.Storing? then Record(s.store, e.job.key, e.pc.res, now) else s.store,
       seen := if e.pc.Located? && e.job.key in s.seen then Settle(s.seen, e.job.key, e.pc.res) else s.seen,
       results := if ExecEmits(e) then s.results + [ExecEmission(c, e)] else s.results,
       stage :=
         if e.pc.Located? then s.stage[o := Fanned]
         else if ExecEnds(e) then s.stage[o := Finis]
         else s.stage,
       clock := now,
       crashed := s.crashed || ((e.pc.Completing? || e.pc.Located?) && e.job.key !in s.seen))
  }
}
