// The progress gauges: what they count, in terms of which jobs have been announced and
// which checks have returned.
module Gauging {
  import opened Model
  import opened Dedup
  import opened Pipeline
  import opened Jobs
  import opened Records
  import opened Fanout
  import Report

  // Jobs of one host that have been announced and whose check has not returned.
  ghost function Pending(c: Config, g: Gauges, h: Host): set<Occ> {
    set o | o in g.counted && o !in g.completed && IsNet(c, o) && HostOf(c, o) == h
  }

  ghost predicate Tallied(c: Config, g: Gauges) {
    && g.completed <= g.counted
    && (forall o :: o in g.counted ==> IsNet(c, o))
    && g.enqueued == |g.counted|
    && g.netDone == |g.completed|
    && (forall h :: Report.CountAt(g.inflight, h) == |Pending(c, g, h)|)
    && (forall h :: h in g.inflight <==> Pending(c, g, h) != {})
  }

  lemma PendingAdded(c: Config, g: Gauges, g': Gauges, o: Occ, h: Host)
    requires IsNet(c, o) && o !in g.counted && o !in g.completed
    requires g'.counted == g.counted + {o} && g'.completed == g.completed
    ensures o !in Pending(c, g, h)
    ensures Pending(c, g', h) == if h == HostOf(c, o) then Pending(c, g, h) + {o} else Pending(c, g, h)
  {
  }

  lemma PendingRemoved(c: Config, g: Gauges, g': Gauges, o: Occ, h: Host)
    requires IsNet(c, o) && o in g.counted && o !in g.completed
    requires g'.counted == g.counted && g'.completed == g.completed + {o}
    ensures o in Pending(c, g, HostOf(c, o))
    ensures Pending(c, g', h) == if h == HostOf(c, o) then Pending(c, g, h) - {o} else Pending(c, g, h)
  {
  }

  lemma EnqueueTallied(c: Config, g: Gauges, o: Occ)
    requires Tallied(c, g) && IsNet(c, o) && o !in g.counted
    ensures Tallied(c, NetEnqueue(g, JobOf(c, o)))
  {
    hide Pending;
    var g' := NetEnqueue(g, JobOf(c, o));
    forall h
      ensures Report.CountAt(g'.inflight, h) == |Pending(c, g', h)|
      ensures h in g'.inflight <==> Pending(c, g', h) != {}
    {
      PendingAdded(c, g, g', o, h);
    }
  }

  lemma CompleteTallied(c: Config, g: Gauges, o: Occ, url: string)
    requires Tallied(c, g) && o in g.counted && o !in g.completed
    ensures IsNet(c, o) && Tallied(c, NetComplete(g, url, JobOf(c, o)))
  {
    hide Pending;
    var g' := NetComplete(g, url, JobOf(c, o));
    forall h
      ensures Report.CountAt(g'.inflight, h) == |Pending(c, g', h)|
      ensures h in g'.inflight <==> Pending(c, g', h) != {}
    {
      PendingRemoved(c, g, g', o, h);
    }
  }

  predicate Uncounted(workers: map<nat, Worker>, o: Occ) {
    o.src in workers && workers[o.src].pos == o.pos && workers[o.src].pc.Counting?
  }

  predicate Returned(g: StageMap, execs: map<Occ, Exec>, o: Occ)
    requires o in g
  {
    || g[o].Fanned? || g[o].Finis?
    || (o in execs && (execs[o].pc.Storing? || execs[o].pc.Completing? || execs[o].pc.Located?))
  }

  predicate BeingChecked(execs: map<Occ, Exec>, o: Occ) {
    o in execs && (execs[o].pc.Checking? || execs[o].pc.Checked?)
  }

  ghost predicate CountsJobs(g: StageMap, workers: map<nat, Worker>, counted: set<Occ>) {
    forall o :: o in counted <==> o in g && !Uncounted(workers, o)
  }

  ghost predicate CompletesJobs(g: StageMap, execs: map<Occ, Exec>, completed: set<Occ>) {
    forall o :: o in completed <==> o in g && Returned(g, execs, o)
  }

  ghost predicate ActiveUrls(c: Config, execs: map<Occ, Exec>, active: set<string>) {
    forall u :: u in active <==> exists o :: BeingChecked(execs, o) && IsNet(c, o) && TargetOf(c, o).url == u
  }

  ghost predicate Gauged(c: Config, s: State) {
    && Tallied(c, s.gauges)
    && CountsJobs(s.stage, s.front.workers, s.gauges.counted)
    && CompletesJobs(s.stage, s.back.execs, s.gauges.completed)
    && ActiveUrls(c, s.back.execs, s.gauges.active)
  }

  lemma InitGauged(c: Config)
    ensures Gauged(c, Init(c))
  {
    assert forall h :: Pending(c, Init(c).gauges, h) == {};
  }

  // One record per key and one job per record: two executors never check the same URL.
  lemma OneCheckPerUrl(c: Config, s: State, o: Occ, p: Occ)
    requires Recorded(c, s.seen, s.stage) && AtExecs(c, s.stage, s.back.execs)
    requires o in s.back.execs && p in s.back.execs && IsNet(c, o) && IsNet(c, p)
    requires KeyOf(c, o) == KeyOf(c, p)
    ensures o == p
  {
    assert Owned(c, s.seen, s.stage, o) && Owned(c, s.seen, s.stage, p);
  }

  lemma WorkCounts(c: Config, s: State, i: nat, now: int)
    requires CountsJobs(s.stage, s.front.workers, s.gauges.counted) && AtWorkers(c, s.stage, s.front.workers)
    requires WorkEnabled(c, s, i)
    requires AtLookup(c, i, s.front.workers[i]) && Find(c, s.seen, s.store, Occ(i, s.front.workers[i].pos), now).Miss?
             ==> Occ(i, s.front.workers[i].pos) !in s.stage
    ensures CountsJobs(WorkStage(c, s, i, now), WorkFront(c, s, i, now).workers, DoWork(c, s, i, now).gauges.counted)
    ensures s.front.workers[i].pc.Counting? ==>
              s.front.workers[i].pc.job == JobOf(c, Occ(i, s.front.workers[i].pos)) &&
              Occ(i, s.front.workers[i].pos) !in s.gauges.counted
  {
    WorkWorkers(c, s, i, now);
    if !AtEnd(c, i, s.front.workers[i]) {
      WorkHand(c, s, i, now);
    }
    hide AtWorkers, WorkerNext, WorkStage;
  }

  lemma WorkGauged(c: Config, s: State, i: nat, now: int)
    requires Gauged(c, s) && AtWorkers(c, s.stage, s.front.workers) && AtExecs(c, s.stage, s.back.execs)
    requires WorkEnabled(c, s, i)
    requires AtLookup(c, i, s.front.workers[i]) && Find(c, s.seen, s.store, Occ(i, s.front.workers[i].pos), now).Miss?
             ==> Occ(i, s.front.workers[i].pos) !in s.stage
    ensures Gauged(c, DoWork(c, s, i, now))
  {
    hide AtWorkers, Tallied, CountsJobs, ActiveUrls, AtExecs, CompletesJobs;
    WorkCounts(c, s, i, now);
    if s.front.workers[i].pc.Counting? {
      EnqueueTallied(c, s.gauges, Occ(i, s.front.workers[i].pos));
    }
    WorkCompletes(c, s, i, now);
  }

  lemma WorkCompletes(c: Config, s: State, i: nat, now: int)
    requires CompletesJobs(s.stage, s.back.execs, s.gauges.completed)
    requires AtWorkers(c, s.stage, s.front.workers) && AtExecs(c, s.stage, s.back.execs) && WorkEnabled(c, s, i)
    requires AtLookup(c, i, s.front.workers[i]) && Find(c, s.seen, s.store, Occ(i, s.front.workers[i].pos), now).Miss?
             ==> Occ(i, s.front.workers[i].pos) !in s.stage
    ensures CompletesJobs(WorkStage(c, s, i, now), s.back.execs, s.gauges.completed)
  {
    hide AtWorkers, AtExecs, CompletesJobs, WorkFront, Find;
    WorkWorkers(c, s, i, now);
    var w := s.front.workers[i];
    var o := Occ(i, w.pos);
    if AtLookup(c, i, w) && Find(c, s.seen, s.store, o, now).Miss? {
      StageCompletes(c, s.stage, s.back.execs, s.gauges.completed, o, AtWorker);
    } else if w.pc.Offering? {
      StageCompletes(c, s.stage, s.back.execs, s.gauges.completed, o, InJobs);
    }
  }

  // A stage no executor has to do with.
  lemma StageCompletes(c: Config, g: StageMap, execs: map<Occ, Exec>, completed: set<Occ>, o: Occ, y: Stage)
    requires CompletesJobs(g, execs, completed) && AtExecs(c, g, execs) && (y.AtWorker? || y.InJobs?)
    requires o in g ==> g[o].AtWorker?
    ensures CompletesJobs(g[o := y], execs, completed)
  {
    assert o in execs ==> Carried(c, g, execs[o].job, StageOf(execs[o]));
  }

  // Moving a job between queues touches no gauge.
  lemma ShuffleGauged(c: Config, s: State, g': StageMap)
    requires Gauged(c, s) && Shuffles(s.stage, g')
    ensures CountsJobs(g', s.front.workers, s.gauges.counted)
    ensures CompletesJobs(g', s.back.execs, s.gauges.completed)
  {
    hide Tallied, ActiveUrls;
    if g' != s.stage {
      var o, y :| Shuffle(s.stage, g', o, y);
    }
  }

  lemma SpawnGauged(c: Config, g: StageMap, execs: map<Occ, Exec>, o: Occ, job: Job, gauges: Gauges)
    requires o !in execs
    requires CompletesJobs(g, execs, gauges.completed) && ActiveUrls(c, execs, gauges.active)
    ensures CompletesJobs(g, execs[o := Exec(job, Begun)], gauges.completed)
    ensures ActiveUrls(c, execs[o := Exec(job, Begun)], gauges.active)
  {
    var execs' := execs[o := Exec(job, Begun)];
    assert forall p :: BeingChecked(execs', p) == BeingChecked(execs, p);
  }

  lemma ExecuteCounts(c: Config, s: State, o: Occ, res: Result, now: int)
    requires AtExecs(c, s.stage, s.back.execs) && ExecEnabled(c, s, o, res)
    requires CountsJobs(s.stage, s.front.workers, s.gauges.counted)
    ensures CountsJobs(DoExecute(c, s, o, res, now).stage, s.front.workers, s.gauges.counted)
  {
    ExecsNext(c, s.stage, s.back.execs, s.seen, o, res);
    hide AtExecs;
  }

  // An executor's step only bears on its own job.
  lemma CompletesUpdate(g: StageMap, execs: map<Occ, Exec>, o: Occ, y: Stage, e: Exec, completed: set<Occ>)
    requires CompletesJobs(g, execs, completed) && o in g && o in execs
    ensures Returned(g[o := y], execs[o := e], o) == (o in completed) ==>
              CompletesJobs(g[o := y], execs[o := e], completed)
    ensures Returned(g[o := y], execs[o := e], o) ==> CompletesJobs(g[o := y], execs[o := e], completed + {o})
  {
    assert forall p :: p != o && p in g ==> Returned(g[o := y], execs[o := e], p) == Returned(g, execs, p);
  }

  lemma CompletesEnd(g: StageMap, execs: map<Occ, Exec>, o: Occ, completed: set<Occ>)
    requires CompletesJobs(g, execs, completed) && o in g && g[o].Fanned?
    ensures CompletesJobs(g[o := Finis], execs - {o}, completed)
  {
    assert forall p :: p != o && p in g ==> Returned(g[o := Finis], execs - {o}, p) == Returned(g, execs, p);
  }

  lemma CompletesMember(g: StageMap, execs: map<Occ, Exec>, o: Occ, completed: set<Occ>)
    requires CompletesJobs(g, execs, completed) && o in g
    ensures o in completed <==> Returned(g, execs, o)
  {
  }

  lemma ExecuteCompletes(c: Config, s: State, o: Occ, res: Result, now: int)
    requires AtExecs(c, s.stage, s.back.execs) && ExecEnabled(c, s, o, res)
    requires CompletesJobs(s.stage, s.back.execs, s.gauges.completed)
    ensures var s' := DoExecute(c, s, o, res, now);
            CompletesJobs(s'.stage, s'.back.execs, s'.gauges.completed)
    ensures s.back.execs[o].pc.Checked? ==> o !in s.gauges.completed
  {
    hide AtExecs, CompletesJobs;
    ExecsNext(c, s.stage, s.back.execs, s.seen, o, res);
    CompletesMember(s.stage, s.back.execs, o, s.gauges.completed);
    var e := s.back.execs[o];
    if ExecEnds(e) {
      CompletesEnd(s.stage, s.back.execs, o, s.gauges.completed);
    } else {
      var y := if e.pc.Located? then Fanned else s.stage[o];
      assert s.stage[o := s.stage[o]] == s.stage;
      CompletesUpdate(s.stage, s.back.execs, o, y, ExecNext(e, s.seen, res), s.gauges.completed);
    }
  }

  lemma ActiveUpdate(c: Config, execs: map<Occ, Exec>, execs': map<Occ, Exec>, o: Occ, active: set<string>)
    requires ActiveUrls(c, execs, active) && IsNet(c, o)
    requires forall p :: p != o ==> BeingChecked(execs', p) == BeingChecked(execs, p)
    requires forall p :: p != o && BeingChecked(execs, p) && IsNet(c, p) ==> TargetOf(c, p).url != TargetOf(c, o).url
    ensures BeingChecked(execs', o) ==> ActiveUrls(c, execs', active + {TargetOf(c, o).url})
    ensures !BeingChecked(execs', o) ==> ActiveUrls(c, execs', active - {TargetOf(c, o).url})
  {
    var url := TargetOf(c, o).url;
    forall u | u in active && u != url
      ensures exists p :: BeingChecked(execs', p) && IsNet(c, p) && TargetOf(c, p).url == u
    {
      var p :| BeingChecked(execs, p) && IsNet(c, p) && TargetOf(c, p).url == u;
      assert BeingChecked(execs', p);
    }
    forall p | BeingChecked(execs', p) && IsNet(c, p) && p != o
      ensures TargetOf(c, p).url in active - {url}
    {
      assert BeingChecked(execs, p);
    }
  }

  lemma OthersElsewhere(c: Config, s: State, o: Occ)
    requires Recorded(c, s.seen, s.stage) && AtExecs(c, s.stage, s.back.execs) && o in s.back.execs
    ensures IsNet(c, o)
    ensures forall p :: p != o && BeingChecked(s.back.execs, p) && IsNet(c, p) ==> TargetOf(c, p).url != TargetOf(c, o).url
  {
    forall p | p != o && BeingChecked(s.back.execs, p) && IsNet(c, p)
      ensures TargetOf(c, p).url != TargetOf(c, o).url
    {
      if TargetOf(c, p).url == TargetOf(c, o).url {
        OneCheckPerUrl(c, s, o, p);
      }
    }
  }

  lemma ExecuteActive(c: Config, s: State, o: Occ, res: Result, now: int)
    requires Recorded(c, s.seen, s.stage) && AtExecs(c, s.stage, s.back.execs) && ExecEnabled(c, s, o, res)
    requires ActiveUrls(c, s.back.execs, s.gauges.active)
    ensures ActiveUrls(c, DoExecute(c, s, o, res, now).back.execs, DoExecute(c, s, o, res, now).gauges.active)
  {
    hide Recorded, AtExecs, ActiveUrls;
    OthersElsewhere(c, s, o);
    var url := TargetOf(c, o).url;
    ActiveUpdate(c, s.back.execs, DoExecute(c, s, o, res, now).back.execs, o, s.gauges.active);
    ActiveMember(c, s.back.execs, o, s.gauges.active);
    assert url in s.gauges.active ==> s.gauges.active + {url} == s.gauges.active;
    assert url !in s.gauges.active ==> s.gauges.active - {url} == s.gauges.active;
  }

  lemma ActiveMember(c: Config, execs: map<Occ, Exec>, o: Occ, active: set<string>)
    requires ActiveUrls(c, execs, active) && IsNet(c, o)
    requires forall p :: p != o && BeingChecked(execs, p) && IsNet(c, p) ==> TargetOf(c, p).url != TargetOf(c, o).url
    ensures TargetOf(c, o).url in active <==> BeingChecked(execs, o)
  {
  }

  lemma ExecuteGauged(c: Config, s: State, o: Occ, res: Result, now: int)
    requires Gauged(c, s) && Recorded(c, s.seen, s.stage) && AtExecs(c, s.stage, s.back.execs)
    requires AtWorkers(c, s.stage, s.front.workers) && ExecEnabled(c, s, o, res)
    ensures Gauged(c, DoExecute(c, s, o, res, now))
  {
    hide AtExecs, Tallied, CountsJobs, CompletesJobs, ActiveUrls, Recorded, AtWorkers;
    ExecuteCounts(c, s, o, res, now);
    ExecuteCompletes(c, s, o, res, now);
    ExecuteActive(c, s, o, res, now);
    var e := s.back.execs[o];
    if e.pc.Checked? {
      ExecIsCounted(c, s, o);
      OwnsExec(c, s, o);
      CompleteTallied(c, s.gauges, o, TargetOf(c, o).url);
    } else if e.pc.Begun? {
      ActiveTallied(c, s.gauges, TargetOf(c, o).url);
    }
  }

  lemma ActiveTallied(c: Config, g: Gauges, url: string)
    requires Tallied(c, g)
    ensures Tallied(c, g.(active := g.active + {url}))
  {
    assert forall h :: Pending(c, g.(active := g.active + {url}), h) == Pending(c, g, h);
  }

  lemma ExecIsCounted(c: Config, s: State, o: Occ)
    requires CountsJobs(s.stage, s.front.workers, s.gauges.counted)
    requires AtExecs(c, s.stage, s.back.execs) && AtWorkers(c, s.stage, s.front.workers) && o in s.back.execs
    ensures o in s.gauges.counted
  {
  }
}
