// A run that loses a link in silence: the context stays live to the end, so Run returns no
// error, but one wait for a token failed and the link behind it is never reported.
module Witness {
  import opened Model
  import opened ResultCache
  import opened Dedup
  import opened Pipeline
  import opened Stages
  import opened Jobs
  import opened Records
  import opened Fanout
  import opened Safety
  import opened Progress
  import opened Termination
  import opened Runs
  import opened Guarantees

  const Server: Host := "example.com"
  const Url0: string := "https://example.com/a"
  const Url1: string := "https://example.com/b"
  const Occ0: Occ := Occ(0, 0)
  const Occ1: Occ := Occ(0, 1)

  function LinkTo(url: string): Target {
    Target(url, url, KindHTTP, "a.md", 1, "")
  }

  // One source with two links to one server, and no cache.
  function Links(url1: string): Config {
    Configure([[Net(LinkTo(Url0)), Net(LinkTo(url1))]], u => u, u => Server, 1, 1, Store(map[], 0, false, ""), 0)
  }

  lemma {:induction false} RunConcat(c: Config, s: State, a: seq<Step>, m: State, b: seq<Step>, e: State)
    requires Run(c, s, a, m) && Run(c, m, b, e)
    ensures Run(c, s, a + b, e)
    decreases |a|
  {
    hide Enabled, Apply;
    if a == [] {
      assert a + b == b;
    } else {
      RunConcat(c, Apply(c, s, a[0]), a[1..], m, b, e);
      assert (a + b)[0] == a[0] && (a + b)[1..] == a[1..] + b;
    }
  }

  // Nothing has ended the context or is about to.
  ghost predicate Unfailed(s: State) {
    !s.cancelled && !(s.front.crawl.Closing? && s.front.crawl.failed) && !(s.front.crawl.Returning? && s.front.crawl.failed)
  }

  // Ordinary steps neither cancel such a run, nor forget or add a failed wait, nor take a
  // result back.
  lemma OrdinaryStep(c: Config, s: State, st: Step)
    requires Enabled(c, s, st) && Ordinary(st) && Unfailed(s)
    ensures Unfailed(Apply(c, s, st)) && Apply(c, s, st).acquireErrs == s.acquireErrs
    ensures s.results <= Apply(c, s, st).results
  {
    hide MidNext, PacerNext, BackNext, WorkerNext, WorkSeen, WorkStage, WorkServed, ExecNext, ExecGauges;
  }

  lemma {:induction false} OrdinaryRun(c: Config, s: State, steps: seq<Step>, e: State)
    requires Run(c, s, steps, e) && Unfailed(s) && forall st :: st in steps ==> Ordinary(st)
    ensures Unfailed(e) && e.acquireErrs == s.acquireErrs && s.results <= e.results
    decreases |steps|
  {
    hide Enabled, Apply, Unfailed;
    if steps != [] {
      OrdinaryStep(c, s, steps[0]);
      OrdinaryRun(c, Apply(c, s, steps[0]), steps[1..], e);
    }
  }

  // Left alone, such a run finishes uncancelled, keeping the results it has.
  lemma FinishesUnfailed(c: Config, s: State) returns (steps: seq<Step>, end: State)
    requires c.WF() && Reachable(c, s) && Unfailed(s)
    ensures Run(c, s, steps, end) && Reachable(c, end) && Final(end) && !end.cancelled
    ensures end.acquireErrs == s.acquireErrs && s.results <= end.results
  {
    hide Inv, Enabled, Apply;
    var begun :| Run(c, Init(c), begun, s);
    ReachableInv(c, s);
    steps, end := Finishes(c, s);
    OrdinaryRun(c, s, steps, end);
    RunConcat(c, Init(c), begun, s, steps, end);
  }

  lemma {:induction false} LossesLast(c: Config, s: State, steps: seq<Step>, e: State, o: Occ)
    requires Inv(c, s) && Run(c, s, steps, e) && o in s.stage && s.stage[o] == Lost
    ensures o in e.stage && e.stage[o] == Lost
    decreases |steps|
  {
    hide Inv, Enabled, Apply;
    if steps != [] {
      InvStep(c, s, steps[0]);
      StepLossFinal(c, s, steps[0]);
      LossesLast(c, Apply(c, s, steps[0]), steps[1..], e, o);
    }
  }

  // From any reachable state where a pacer is waiting for a token in a run that has gone
  // well so far, one failed wait is enough: the run can finish without an error and
  // without ever reporting the link whose job the pacer had in its hand.
  lemma SilentLoss(c: Config, s: State, h: Host) returns (end: State)
    requires c.WF() && Reachable(c, s) && h in s.mid.pacers && s.mid.pacers[h].pc.Acquiring?
    requires Unfailed(s)
    ensures Reachable(c, end) && Final(end) && !end.cancelled
    ensures var o := s.mid.pacers[h].pc.job.sample;
            Valid(c, o) && Times(end.results, o) == 0
  {
    hide Inv, Enabled, Apply, Times, Reachable, Unfailed;
    var o := s.mid.pacers[h].pc.job.sample;
    AcquireFailApplies(c, s, h);
    var lost := Take(c, s, AcquireFail(h));
    var rest;
    rest, end := FinishesUnfailed(c, lost);
    ReachableInv(c, lost);
    ReachableInv(c, end);
    LossesLast(c, lost, rest, end, o);
    LostUnreported(c, end, o);
  }

  lemma AcquireFailApplies(c: Config, s: State, h: Host)
    requires h in s.mid.pacers && s.mid.pacers[h].pc.Acquiring? && Unfailed(s)
    ensures Enabled(c, s, AcquireFail(h)) && Unfailed(Apply(c, s, AcquireFail(h)))
    ensures var o := s.mid.pacers[h].pc.job.sample;
            o in Apply(c, s, AcquireFail(h)).stage && Apply(c, s, AcquireFail(h)).stage[o] == Lost
  {
  }

  lemma Take(c: Config, s: State, st: Step) returns (s': State)
    requires Reachable(c, s) && Enabled(c, s, st)
    ensures Reachable(c, s') && s' == Apply(c, s, st)
  {
    hide Enabled, Apply;
    s' := Apply(c, s, st);
    var begun :| Run(c, Init(c), begun, s);
    assert Run(c, s, [st], s') by { assert [st][1..] == []; }
    RunConcat(c, Init(c), begun, s, [st], s');
  }

  lemma TakePace(c: Config, s: State, h: Host) returns (s': State)
    requires Reachable(c, s) && PaceEnabled(c, s, h)
    ensures Reachable(c, s') && s'.front == s.front && s'.cancelled == s.cancelled && s'.acquireErrs == s.acquireErrs
    ensures s'.mid == s.mid.(pacers := s.mid.pacers[h := PacerNext(s.mid.pacers[h], s.cancelled)])
    ensures s'.back == if s.mid.pacers[h].pc.Releasing? then s.back.(readyCh := Pushed(s.back.readyCh, s.mid.pacers[h].pc.job)) else s.back
    ensures s'.seen == s.seen && s'.results == s.results && s'.clock == s.clock
  {
    hide Reachable, PacerNext;
    s' := Take(c, s, Pace(h));
  }

  lemma TakeDispatch(c: Config, s: State, h: Host) returns (s': State)
    requires Reachable(c, s) && DispatchEnabled(s.mid, h) && !s.mid.disp.AwaitingPacers?
    ensures Reachable(c, s') && s'.front == s.front && s'.cancelled == s.cancelled && s'.acquireErrs == s.acquireErrs
    ensures s'.mid == MidNext(s.mid, h) && s'.back == s.back
    ensures s'.seen == s.seen && s'.results == s.results && s'.clock == s.clock
  {
    hide Reachable, MidNext;
    s' := Take(c, s, Dispatch(h));
  }

  lemma TakeWork(c: Config, s: State, i: nat, now: int) returns (s': State)
    requires Reachable(c, s) && WorkEnabled(c, s, i) && s.clock <= now
    ensures Reachable(c, s') && s'.front == WorkFront(c, s, i, now) && s'.cancelled == s.cancelled && s'.acquireErrs == s.acquireErrs
    ensures s'.mid == if s.front.workers[i].pc.Offering? then s.mid.(jobsCh := Pushed(s.mid.jobsCh, s.front.workers[i].pc.job)) else s.mid
    ensures s'.seen == WorkSeen(c, s, i, now) && s'.results == WorkResults(c, s, i) && s'.clock == now && s'.back == s.back && s'.store == s.store
  {
    hide Reachable, WorkFront, WorkSeen, WorkResults, WorkStage, WorkServed;
    s' := Take(c, s, Work(i, now));
  }

  const Job0: Job := Job(Url0, Server, Occ0)
  const Job1: Job := Job(Url1, Server, Occ1)

  function TwoLinks(): Config {
    Links(Url1)
  }

  // Nothing has failed and the crawler has not finished.
  predicate Crawls(s: State) {
    !s.cancelled && s.acquireErrs == 0 && s.front.crawl.Crawling?
  }

  // A worker has started on the source.
  lemma SourceRead(url1: string) returns (s: State)
    ensures Reachable(Links(url1), s) && Crawls(s) && s.clock == 0 && s.results == []
    ensures s.front.workers == map[0 := Worker(0, AtLink)] && s.seen == map[] && s.store == Links(url1).store
    ensures s.mid == Mid(Chan([], false), Reading, map[]) && s.back == Back(Chan([], false), Ranging, map[])
  {
    var c := Links(url1);
    assert Run(c, Init(c), [], Init(c));
    hide Reachable;
    s := Take(c, Init(c), FrontStep(CrawlSend));
    s := Take(c, s, FrontStep(ParseRecv));
    s := Take(c, s, FrontStep(ParseSpawn));
  }

  function JobAt(url1: string, pos: nat): Job {
    if pos == 0 then Job0 else Job(url1, Server, Occ1)
  }

  // The worker finds the URL at its link new and announces the check.
  lemma LinkFound(url1: string, s: State, pos: nat) returns (s': State)
    requires Reachable(Links(url1), s) && Crawls(s) && s.clock == 0 && s.store == Links(url1).store
    requires pos < 2 && JobAt(url1, pos).key !in s.seen && s.front.workers == map[0 := Worker(pos, AtLink)]
    ensures Reachable(Links(url1), s') && Crawls(s') && s'.clock == 0 && s'.store == s.store && s'.results == s.results
    ensures s'.front.workers == map[0 := Worker(pos, Offering(JobAt(url1, pos)))]
    ensures var job := JobAt(url1, pos);
            s'.seen == Register(s.seen, job.key, Occ(0, pos), None, Blank(LinkTo(job.key)))
    ensures s'.mid == s.mid && s'.back == s.back
  {
    var c := Links(url1);
    hide Reachable;
    assert JobOf(c, Occ(0, pos)) == JobAt(url1, pos);
    s' := TakeWork(c, s, 0, 0);
    assert s'.front.workers == map[0 := Worker(pos, Counting(JobAt(url1, pos)))];
    s' := TakeWork(c, s', 0, 0);
  }

  // It sends its job.
  lemma LinkSent(url1: string, s: State, pos: nat) returns (s': State)
    requires Reachable(Links(url1), s) && Crawls(s) && s.clock == 0 && s.store == Links(url1).store
    requires pos < 2 && s.front.workers == map[0 := Worker(pos, Offering(JobAt(url1, pos)))]
    requires !s.mid.jobsCh.closed && |s.mid.jobsCh.buf| < Links(url1).jobsCap
    ensures Reachable(Links(url1), s') && Crawls(s') && s'.clock == 0 && s'.store == s.store && s'.results == s.results
    ensures s'.front.workers == map[0 := Worker(pos + 1, AtLink)] && s'.seen == s.seen
    ensures s'.mid == s.mid.(jobsCh := Pushed(s.mid.jobsCh, JobAt(url1, pos))) && s'.back == s.back
  {
    hide Reachable;
    s' := TakeWork(Links(url1), s, 0, 0);
  }

  lemma BothSent() returns (s: State)
    ensures Reachable(TwoLinks(), s) && Crawls(s)
    ensures s.mid == Mid(Chan([Job0, Job1], false), Reading, map[]) && s.back.readyCh == Chan([], false)
  {
    hide Reachable;
    s := SourceRead(Url1);
    s := LinkFound(Url1, s, 0);
    s := LinkSent(Url1, s, 0);
    s := LinkFound(Url1, s, 1);
    s := LinkSent(Url1, s, 1);
  }

  // The dispatcher makes the server's pacer and queues both jobs there.
  lemma BothQueued() returns (s: State)
    ensures Reachable(TwoLinks(), s) && Crawls(s) && s.back.readyCh == Chan([], false)
    ensures s.mid.pacers.Keys == {Server} && s.mid.pacers[Server].q == [Job0, Job1]
    ensures s.mid.pacers[Server].pc == Starting && s.mid.pacers[Server].released == []
  {
    var c := TwoLinks();
    hide Reachable;
    s := BothSent();
    s := TakeDispatch(c, s, Server);
    s := TakeDispatch(c, s, Server);
    s := TakeDispatch(c, s, Server);
    assert s.mid.pacers[Server].q == [Job0] && s.mid.disp == Signalling(Server);
    s := TakeDispatch(c, s, Server);
    s := TakeDispatch(c, s, Server);
    s := TakeDispatch(c, s, Server);
  }

  // The pacer takes its next job and waits for a token.
  lemma JobTaken(c: Config, s: State, job: Job, rest: seq<Job>) returns (s': State)
    requires Reachable(c, s) && Crawls(s) && Server in s.mid.pacers
    requires s.mid.pacers[Server].pc == WantLock && s.mid.pacers[Server].q == [job] + rest
    ensures Reachable(c, s') && Crawls(s') && s'.back == s.back && Server in s'.mid.pacers
    ensures s'.mid.pacers[Server] == s.mid.pacers[Server].(q := rest, pc := Acquiring(job))
    ensures s'.front == s.front && s'.seen == s.seen && s'.results == s.results && s'.clock == s.clock
  {
    hide Reachable;
    s' := TakePace(c, s, Server);
    s' := TakePace(c, s', Server);
    s' := TakePace(c, s', Server);
  }

  // The first token is there and the first job is released.
  lemma FirstReleased() returns (s: State)
    ensures Reachable(TwoLinks(), s) && Crawls(s) && Server in s.mid.pacers
    ensures s.mid.pacers[Server].pc == WantLock && s.mid.pacers[Server].q == [Job1]
    ensures s.mid.pacers[Server].released == [Job0]
  {
    var c := TwoLinks();
    hide Reachable;
    s := BothQueued();
    s := TakePace(c, s, Server);
    s := JobTaken(TwoLinks(), s, Job0, [Job1]);
    s := TakePace(c, s, Server);
    s := TakePace(c, s, Server);
  }

  // The pacer holds the second job and waits for the next token.
  lemma SecondWaits() returns (s: State)
    ensures Reachable(TwoLinks(), s) && Crawls(s) && Server in s.mid.pacers
    ensures s.mid.pacers[Server].pc == Acquiring(Job1) && s.mid.pacers[Server].released == [Job0]
  {
    hide Reachable;
    s := FirstReleased();
    s := JobTaken(TwoLinks(), s, Job1, []);
  }

  // Reporting every link is not something a run without error promises: the first wait
  // succeeds, as it does on a full bucket, the second fails, and the second link is never
  // reported.
  lemma LinkCanVanish() returns (end: State)
    ensures Reachable(TwoLinks(), end) && Final(end) && !end.cancelled
    ensures Valid(TwoLinks(), Occ1) && Times(end.results, Occ1) == 0
  {
    hide Reachable, Times;
    var s := SecondWaits();
    end := SilentLoss(TwoLinks(), s, Server);
  }
}
