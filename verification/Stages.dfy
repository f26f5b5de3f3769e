// The order in which the stages run down: which source is where, who may still send on a
// channel, when each channel is closed, and what a pacer owes and is owed.
module Stages {
  import opened Model
  import opened Pipeline

  // Sources taken off filesCh.
  function Taken(f: Front): int {
    f.sent - |f.filesCh.buf|
  }

  // Sources leave the crawler in order; those past the channel have a worker, had one, or
  // are in the parse loop's hand.
  ghost predicate Sources(c: Config, f: Front) {
    && |f.filesCh.buf| <= f.sent <= |c.sources|
    && (forall k :: 0 <= k < |f.filesCh.buf| ==> f.filesCh.buf[k] == Taken(f) + k)
    && (f.parser.Holding? ==> f.parser.item == Taken(f) - 1)
    && (forall i: nat :: i in f.workers || i in f.parsed <==>
                           i < Taken(f) && !(f.parser.Holding? && f.parser.item == i))
    && (forall i :: i in f.workers ==> i !in f.parsed)
    && (forall i :: i in f.workers ==> WorkerSound(c, i, f.workers[i]))
  }

  ghost predicate WorkerSound(c: Config, i: nat, w: Worker) {
    i < |c.sources| && w.pos <= |c.sources[i]| && (w.pc.AtLink? || IsNet(c, Occ(i, w.pos)))
  }

  ghost predicate FrontCloses(c: Config, f: Front, cancelled: bool) {
    && (f.filesCh.closed <==> f.crawl.Returning? || f.crawl.Returned?)
    && ((f.crawl.Closing? || f.crawl.Returning?) && !f.crawl.failed ==> f.sent == |c.sources|)
    && (f.crawl.Returned? && !cancelled ==> f.sent == |c.sources|)
    && (f.parser.Draining? || f.parser.Finished? ==> f.filesCh.closed && f.filesCh.buf == [])
    && (f.parser.Finished? ==> f.workers == map[])
  }

  predicate PastReading(d: DispPc) {
    d.ClosingPacers? || d.Broadcasting? || d.AwaitingPacers? || d.Retired?
  }

  ghost predicate MidCloses(parsing: bool, m: Mid) {
    && (m.jobsCh.closed <==> !parsing)
    && (PastReading(m.disp) ==> m.jobsCh.closed && m.jobsCh.buf == [])
    && (m.disp.Retired? ==> forall h :: h in m.pacers ==> m.pacers[h].pc.Exited?)
  }

  ghost predicate BackCloses(pacing: bool, b: Back) {
    && (b.readyCh.closed <==> !pacing)
    && (b.pool.Draining? || b.pool.Finished? ==> b.readyCh.closed && b.readyCh.buf == [])
    && (b.pool.Finished? ==> b.execs == map[])
  }

  // The dispatcher is past its unlock and has still to wake this pacer.
  predicate Owes(d: DispPc, h: Host) {
    (d.Signalling? || d.Broadcasting?) && d.host == h
  }

  predicate ToldToStop(d: DispPc, h: Host) {
    match d
    case ClosingPacers(rest) => h !in rest
    case Broadcasting(_, rest) => h !in rest
    case AwaitingPacers => true
    case Retired => true
    case _ => false
  }

  // Locks, wakeups and the end of the run, for one pacer.
  ghost predicate Awake(h: Host, p: Pacer, d: DispPc, cancelled: bool) {
    && (p.pc.Entering? ==> p.q == [] && !p.done)
    && (p.pc.Guarded? ==> p.q != [] || p.done || cancelled)
    // No lost wakeup: a sleeping pacer with something to do is owed a signal.
    && (p.pc.Waiting? && (p.q != [] || p.done) ==> Owes(d, h))
    && (p.done <==> ToldToStop(d, h))
    // A pacer that leaves without losing a job has been told to stop and has none left.
    && (p.pc.Exited? && p.lost == [] && !cancelled ==> p.q == [] && p.done)
  }

  // Every job a pacer was given is accounted for, in order.
  ghost predicate Conserves(p: Pacer, clean: bool) {
    && p.accepted == p.released + p.lost + Hand(p.pc) + p.q
    && (p.lost != [] ==> !clean && p.pc.Exited?)
    && (p.pc.Exited? && clean ==> p.q == [] && p.done)
  }

  ghost predicate DispatcherSound(m: Mid) {
    && (m.disp.Signalling? || m.disp.Broadcasting? ==> m.disp.host in m.pacers)
    && (m.disp.ClosingPacers? || m.disp.Broadcasting? ==> m.disp.rest <= m.pacers.Keys)
    && (m.disp.Broadcasting? ==> m.disp.host !in m.disp.rest)
  }

  ghost predicate Pacers(m: Mid, cancelled: bool, clean: bool) {
    && DispatcherSound(m)
    && (forall h :: h in m.pacers ==> Awake(h, m.pacers[h], m.disp, cancelled) && Conserves(m.pacers[h], clean))
  }

  ghost predicate Flow(c: Config, s: State) {
    && Sources(c, s.front)
    && FrontCloses(c, s.front, s.cancelled)
    && MidCloses(!s.front.parser.Finished?, s.mid)
    && BackCloses(!s.mid.disp.Retired?, s.back)
    && Pacers(s.mid, s.cancelled, Clean(s))
  }

  // add and complete only go back to a key that is in the map.
  ghost predicate KeysKnown(c: Config, s: State) {
    && (forall i :: i in s.front.workers && s.front.workers[i].pc.InGap? ==>
                      IsNet(c, Occ(i, s.front.workers[i].pos)) && KeyOf(c, Occ(i, s.front.workers[i].pos)) in s.seen)
    && (forall o :: o in s.back.execs ==> s.back.execs[o].job.key in s.seen)
  }

  lemma InitFlow(c: Config)
    ensures Flow(c, Init(c))
  {
  }

  lemma SourcesNext(c: Config, cancelled: bool, f: Front, op: FrontOp)
    requires Sources(c, f) && FrontEnabled(c, cancelled, f, op)
    ensures Sources(c, FrontNext(c, cancelled, f, op))
  {
  }

  lemma FrontCloseNext(c: Config, cancelled: bool, f: Front, op: FrontOp)
    requires Sources(c, f) && FrontCloses(c, f, cancelled) && FrontEnabled(c, cancelled, f, op)
    ensures FrontCloses(c, FrontNext(c, cancelled, f, op), cancelled || (op.CrawlReturn? && f.crawl.failed))
    ensures (op.CrawlSend? || op.CrawlClose?) ==> !f.filesCh.closed
  {
  }

  // Cancelling only weakens what is asked of a pacer.
  lemma PacersCancelled(m: Mid, cancelled: bool, clean: bool)
    requires Pacers(m, cancelled, clean)
    ensures Pacers(m, true, false)
  {
  }

  lemma FrontOpFlow(c: Config, s: State, op: FrontOp)
    requires Flow(c, s) && FrontEnabled(c, s.cancelled, s.front, op)
    ensures Flow(c, DoFront(c, s, op)) && DoFront(c, s, op).crashed == s.crashed
  {
    hide Sources, FrontCloses, Pacers, FrontNext, FrontEnabled;
    SourcesNext(c, s.cancelled, s.front, op);
    FrontCloseNext(c, s.cancelled, s.front, op);
    ParserNext(c, s.cancelled, s.front, op);
    PacersCancelled(s.mid, s.cancelled, Clean(s));
    PacersSame(s.mid, DoFront(c, s, op).mid, s.cancelled, Clean(s));
    PacersSame(s.mid, DoFront(c, s, op).mid, true, false);
  }

  lemma ParserNext(c: Config, cancelled: bool, f: Front, op: FrontOp)
    requires FrontEnabled(c, cancelled, f, op)
    ensures FrontNext(c, cancelled, f, op).parser.Finished? <==> op.ParseClose? || f.parser.Finished?
    ensures op.ParseClose? ==> !f.parser.Finished?
  {
  }

  // The pacers do not look at jobsCh.
  lemma PacersSame(m: Mid, m': Mid, cancelled: bool, clean: bool)
    requires m'.disp == m.disp && m'.pacers == m.pacers
    ensures Pacers(m, cancelled, clean) ==> Pacers(m', cancelled, clean)
  {
    hide Awake, Conserves;
  }

  lemma WorkerNextSound(c: Config, s: State, i: nat, now: int)
    requires WorkEnabled(c, s, i) && !AtEnd(c, i, s.front.workers[i])
    ensures WorkerSound(c, i, WorkerNext(c, s, i, now))
  {
  }

  lemma WorkSources(c: Config, s: State, i: nat, now: int)
    requires Sources(c, s.front) && WorkEnabled(c, s, i)
    ensures Sources(c, WorkFront(c, s, i, now))
  {
    if !AtEnd(c, i, s.front.workers[i]) {
      WorkerNextSound(c, s, i, now);
    }
  }

  lemma WorkFlow(c: Config, s: State, i: nat, now: int)
    requires Flow(c, s) && WorkEnabled(c, s, i)
    ensures Flow(c, DoWork(c, s, i, now))
    ensures s.front.workers[i].pc.Offering? ==> !s.mid.jobsCh.closed
  {
    WorkSources(c, s, i, now);
  }

  lemma PacerNextSound(h: Host, p: Pacer, d: DispPc, cancelled: bool, clean: bool)
    requires Awake(h, p, d, cancelled) && Conserves(p, clean) && (clean ==> !cancelled)
    requires !p.pc.Waiting? && !p.pc.Exited?
    ensures Awake(h, PacerNext(p, cancelled), d, cancelled) && Conserves(PacerNext(p, cancelled), clean)
    ensures p.pc.Guarded? ==> cancelled || p.q != [] || p.done
  {
  }

  lemma PaceFlow(c: Config, s: State, h: Host)
    requires Flow(c, s) && PaceEnabled(c, s, h)
    ensures Flow(c, DoPace(c, s, h)) && DoPace(c, s, h).crashed == s.crashed
  {
    PacerNextSound(h, s.mid.pacers[h], s.mid.disp, s.cancelled, Clean(s));
  }

  lemma MidNextPacer(m: Mid, h: Host, k: Host, cancelled: bool, clean: bool)
    requires DispatcherSound(m) && DispatchEnabled(m, h) && k in MidNext(m, h).pacers
    requires k in m.pacers ==> Awake(k, m.pacers[k], m.disp, cancelled) && Conserves(m.pacers[k], clean)
    ensures Awake(k, MidNext(m, h).pacers[k], MidNext(m, h).disp, cancelled)
    ensures Conserves(MidNext(m, h).pacers[k], clean)
  {
    MidNextAwake(m, h, k, cancelled);
    MidNextConserves(m, h, k, clean);
    hide Awake, Conserves, MidNext;
  }

  lemma MidNextAwake(m: Mid, h: Host, k: Host, cancelled: bool)
    requires DispatcherSound(m) && DispatchEnabled(m, h) && k in MidNext(m, h).pacers
    requires k in m.pacers ==> Awake(k, m.pacers[k], m.disp, cancelled)
    ensures Awake(k, MidNext(m, h).pacers[k], MidNext(m, h).disp, cancelled)
  {
  }

  lemma MidNextConserves(m: Mid, h: Host, k: Host, clean: bool)
    requires DispatcherSound(m) && DispatchEnabled(m, h) && k in MidNext(m, h).pacers
    requires k in m.pacers ==> Conserves(m.pacers[k], clean)
    requires k in m.pacers && m.pacers[k].pc.Exited? && clean ==> !(m.disp.Routing? && m.disp.job.host == k)
    ensures Conserves(MidNext(m, h).pacers[k], clean)
  {
  }

  lemma MidNextPacers(m: Mid, h: Host, cancelled: bool, clean: bool)
    requires Pacers(m, cancelled, clean) && DispatchEnabled(m, h)
    ensures Pacers(MidNext(m, h), cancelled, clean)
  {
    forall k | k in MidNext(m, h).pacers
      ensures Awake(k, MidNext(m, h).pacers[k], MidNext(m, h).disp, cancelled)
      ensures Conserves(MidNext(m, h).pacers[k], clean)
    {
      MidNextPacer(m, h, k, cancelled, clean);
    }
  }

  lemma DispatchFlow(c: Config, s: State, h: Host)
    requires Flow(c, s) && DispatchEnabled(s.mid, h)
    ensures Flow(c, DoDispatch(s, h)) && DoDispatch(s, h).crashed == s.crashed
  {
    MidNextPacers(s.mid, h, s.cancelled, Clean(s));
  }

  lemma BackOpFlow(c: Config, s: State, op: BackOp)
    requires Flow(c, s) && BackEnabled(c, s.back, op)
    ensures Flow(c, DoBack(c, s, op)) && DoBack(c, s, op).crashed == s.crashed
  {
  }

  lemma ExecuteFlow(c: Config, s: State, o: Occ, res: Result, now: int)
    requires Flow(c, s) && ExecEnabled(c, s, o, res)
    ensures Flow(c, DoExecute(c, s, o, res, now))
  {
  }

  lemma DroppedFlow(c: Config, s: State, h: Host)
    requires Flow(c, s) && h in s.mid.pacers && Hand(s.mid.pacers[h].pc) != []
    ensures s.mid.pacers[h].lost == []
    ensures Pacers(Abandon(s, h).mid, s.cancelled, false)
    ensures MidCloses(!s.front.parser.Finished?, Abandon(s, h).mid)
  {
  }

  lemma BroadcastFlow(c: Config, s: State, h: Host)
    requires Flow(c, s) && Enabled(c, s, CtxBroadcast(h))
    ensures Flow(c, Apply(c, s, CtxBroadcast(h)))
  {
  }

  lemma AbortFlow(c: Config, s: State, i: nat)
    requires Flow(c, s) && Enabled(c, s, WorkAbort(i))
    ensures Flow(c, Apply(c, s, WorkAbort(i)))
  {
    hide MidCloses, BackCloses, Pacers;
    assert WorkerSound(c, i, s.front.workers[i]);
  }

  // No goroutine ever sends on a closed channel, closes one twice, or looks up a key that
  // is not there, and the rest of Flow is kept, whatever the step.
  lemma FlowStep(c: Config, s: State, st: Step)
    requires Flow(c, s) && KeysKnown(c, s) && Enabled(c, s, st)
    ensures Flow(c, Apply(c, s, st)) && Apply(c, s, st).crashed == s.crashed
  {
    match st
    case Cancel => PacersCancelled(s.mid, s.cancelled, Clean(s));
    case FrontStep(op) => FrontOpFlow(c, s, op);
    case Work(i, now) => WorkFlow(c, s, i, now);
    case WorkAbort(i) => AbortFlow(c, s, i);
    case Dispatch(h) => DispatchFlow(c, s, h);
    case Pace(h) => PaceFlow(c, s, h);
    case AcquireFail(h) => DroppedFlow(c, s, h);
    case PaceAbort(h) => DroppedFlow(c, s, h);
    case CtxBroadcast(h) => BroadcastFlow(c, s, h);
    case BackStep(op) => BackOpFlow(c, s, op);
    case Execute(o, res, now) => ExecuteFlow(c, s, o, res, now);
  }
}
