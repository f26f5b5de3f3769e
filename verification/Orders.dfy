// Two runs over one source in which a URL occurs twice on one line. They are the same up to
// the moment the check's outcome is on record; then either the executor that is fanning it
// out or the worker at the second occurrence is the first to reach the collector. Both runs
// finish clean, and their reports list the two results in different orders.
module Orders {
  import opened Model
  import opened ResultCache
  import opened Dedup
  import opened Pipeline
  import opened Stages
  import opened Jobs
  import opened Records
  import opened Fanout
  import opened Outcomes
  import opened Gauging
  import opened Safety
  import opened Progress
  import opened Termination
  import opened Runs
  import opened Guarantees
  import opened Witness
  import Report

  const Ok: Result := Blank(LinkTo(Url0)).(statusCode := 200)
  const First: Emission := Emission(Occ0, ResultFor(LinkTo(Url0), Ok, false))
  const Second: Emission := Emission(Occ1, ResultFor(LinkTo(Url0), Ok, true))

  function TwoCopies(): Config {
    Links(Url0)
  }

  // The worker is at the second occurrence, which has yet to be looked up.
  predicate AtSecond(s: State) {
    Crawls(s) && s.clock == 0 && s.results == [] && s.front.workers == map[0 := Worker(1, AtLink)] && Url0 in s.seen
  }

  lemma TakeBack(c: Config, s: State, op: BackOp) returns (s': State)
    requires Reachable(c, s) && BackEnabled(c, s.back, op)
    ensures Reachable(c, s') && s'.front == s.front && s'.cancelled == s.cancelled && s'.acquireErrs == s.acquireErrs
    ensures s'.back == BackNext(c, s.back, op) && s'.mid == s.mid
    ensures s'.seen == s.seen && s'.results == s.results && s'.clock == s.clock
  {
    hide Reachable, BackNext;
    s' := Take(c, s, BackStep(op));
  }

  lemma TakeExec(c: Config, s: State, o: Occ, res: Result) returns (s': State)
    requires Reachable(c, s) && ExecEnabled(c, s, o, res) && !ExecEnds(s.back.execs[o])
    ensures Reachable(c, s') && s'.front == s.front && s'.cancelled == s.cancelled && s'.acquireErrs == s.acquireErrs
    ensures s'.back == s.back.(execs := s.back.execs[o := ExecNext(s.back.execs[o], s.seen, res)]) && s'.mid == s.mid
    ensures var e := s.back.execs[o];
            && s'.seen == (if e.pc.Located? && e.job.key in s.seen then Settle(s.seen, e.job.key, e.pc.res) else s.seen)
            && s'.results == (if ExecEmits(e) then s.results + [ExecEmission(c, e)] else s.results)
    ensures s'.clock == s.clock
  {
    hide Reachable, ExecNext, ExecGauges;
    s' := Take(c, s, Execute(o, res, s.clock));
  }

  // ---------------------------------------------------------------- up to the check

  lemma JobQueued() returns (s: State)
    ensures Reachable(TwoCopies(), s) && AtSecond(s) && s.seen[Url0] == UrlState(false, Blank(LinkTo(Url0)), [Occ0], Occ0)
    ensures s.back == Back(Chan([], false), Ranging, map[])
    ensures Server in s.mid.pacers && s.mid.pacers[Server] == NewPacer().(q := [Job0], accepted := [Job0])
  {
    var c := TwoCopies();
    hide Reachable;
    s := SourceRead(Url0);
    s := LinkFound(Url0, s, 0);
    s := LinkSent(Url0, s, 0);
    s := TakeDispatch(c, s, Server);
    s := TakeDispatch(c, s, Server);
    s := TakeDispatch(c, s, Server);
  }

  lemma JobReleased() returns (s: State)
    ensures Reachable(TwoCopies(), s) && AtSecond(s) && s.seen[Url0] == UrlState(false, Blank(LinkTo(Url0)), [Occ0], Occ0)
    ensures s.back == Back(Chan([Job0], false), Ranging, map[])
  {
    var c := TwoCopies();
    hide Reachable;
    s := JobQueued();
    s := TakePace(c, s, Server);
    s := JobTaken(c, s, Job0, []);
    s := TakePace(c, s, Server);
    s := TakePace(c, s, Server);
  }

  lemma JobStarted() returns (s: State)
    ensures Reachable(TwoCopies(), s) && AtSecond(s) && s.seen[Url0] == UrlState(false, Blank(LinkTo(Url0)), [Occ0], Occ0)
    ensures s.back.execs == map[Occ0 := Exec(Job0, Begun)]
  {
    var c := TwoCopies();
    hide Reachable;
    s := JobReleased();
    s := TakeBack(c, s, PoolRecv);
    s := TakeBack(c, s, PoolSpawn);
  }

  lemma ExecStep(s: State, pc: ExecPc) returns (s': State)
    requires Reachable(TwoCopies(), s) && AtSecond(s) && s.back.execs == map[Occ0 := Exec(Job0, pc)]
    requires pc.Begun? || pc.Checking? || (pc.Checked? && pc.res == Ok) || pc.Storing? || pc.Completing?
    ensures Reachable(TwoCopies(), s') && AtSecond(s') && s'.seen == s.seen
    ensures s'.back.execs == map[Occ0 := ExecNext(Exec(Job0, pc), s.seen, Ok)]
  {
    hide Reachable;
    s' := TakeExec(TwoCopies(), s, Occ0, Ok);
  }

  // The check has returned, is stored, and its record is about to be settled.
  lemma CheckReturned() returns (s: State)
    ensures Reachable(TwoCopies(), s) && AtSecond(s) && s.seen[Url0] == UrlState(false, Blank(LinkTo(Url0)), [Occ0], Occ0)
    ensures s.back.execs == map[Occ0 := Exec(Job0, Located(Ok))]
  {
    hide Reachable;
    s := JobStarted();
    s := ExecStep(s, Begun);
    s := ExecStep(s, Checking);
    s := ExecStep(s, Checked(Ok));
    s := ExecStep(s, Storing(Ok));
    s := ExecStep(s, Completing(Ok));
  }

  // The record is settled and the executor has its one occurrence in hand.
  lemma CheckSettled() returns (s: State)
    ensures Reachable(TwoCopies(), s) && AtSecond(s) && s.seen[Url0] == UrlState(true, Ok, [], Occ0)
    ensures s.back.execs == map[Occ0 := Exec(Job0, Fanning(Ok, [Occ0], true))]
  {
    hide Reachable;
    s := CheckReturned();
    s := TakeExec(TwoCopies(), s, Occ0, Ok);
  }

  // ---------------------------------------------------------------- the two ways on

  lemma ExecutorFirst(s: State) returns (s': State)
    requires Reachable(TwoCopies(), s) && AtSecond(s)
    requires s.back.execs == map[Occ0 := Exec(Job0, Fanning(Ok, [Occ0], true))]
    ensures Reachable(TwoCopies(), s') && Crawls(s') && s'.results == [First]
  {
    hide Reachable;
    s' := TakeExec(TwoCopies(), s, Occ0, Ok);
  }

  lemma WorkerFirst(s: State) returns (s': State)
    requires Reachable(TwoCopies(), s) && AtSecond(s) && s.seen[Url0] == UrlState(true, Ok, [], Occ0)
    ensures Reachable(TwoCopies(), s') && Crawls(s') && s'.results == [Second]
  {
    var c := TwoCopies();
    hide Reachable;
    s' := TakeWork(c, s, 0, 0);
    assert s'.front.workers == map[0 := Worker(1, InGap)];
    s' := TakeWork(c, s', 0, 0);
    assert s'.front.workers == map[0 := Worker(1, Emitting(Second.res))];
    s' := TakeWork(c, s', 0, 0);
  }

  lemma CleanEnd(s: State) returns (end: State)
    requires Reachable(TwoCopies(), s) && Crawls(s)
    ensures Reachable(TwoCopies(), end) && Final(end) && Clean(end) && s.results <= end.results
  {
    hide Reachable, Run, Final;
    var rest;
    rest, end := FinishesUnfailed(TwoCopies(), s);
  }

  // ---------------------------------------------------------------- the reports

  predicate OneKey(rs: seq<Result>, k: Report.SortKey) {
    forall i :: 0 <= i < |rs| ==> Report.KeyOf(rs[i]) == k
  }

  lemma {:induction false} OneKeyKeepsOrder(rs: seq<Result>, k: Report.SortKey)
    requires OneKey(rs, k)
    ensures Report.SortResults(rs) == rs
  {
    if rs != [] {
      OneKeyKeepsOrder(rs[1..], k);
      Report.KeyTotal(k, k);
      assert rs == [rs[0]] + rs[1..];
    }
  }

  lemma {:induction false} AllResults(es: seq<Emission>, i: nat)
    requires i < |es|
    ensures |ResultsOf(es)| == |es| && ResultsOf(es)[i] == es[i].res
  {
    var n := |es| - 1;
    if i < n { AllResults(es[..n], i); } else if n > 0 { AllResults(es[..n], 0); }
  }

  lemma SamePlace(s: State, i: nat)
    requires Reachable(TwoCopies(), s) && i < |s.results|
    ensures Report.KeyOf(s.results[i].res) == Report.SortKey("a.md", 1, Url0)
  {
    hide Reachable, Flow, Tracked, Recorded, Gauged, Sourced, Conserved;
    ReachableInv(TwoCopies(), s);
    assert EmissionSound(TwoCopies(), s.seen, s.results[i]);
  }

  // With one sort key for all, the report is the buffer.
  lemma ReportIsBuffer(s: State)
    requires Reachable(TwoCopies(), s)
    ensures Report.SortResults(ResultsOf(s.results)) == ResultsOf(s.results)
    ensures s.results != [] ==> ResultsOf(s.results) != [] && ResultsOf(s.results)[0] == s.results[0].res
  {
    hide Reachable, ResultsOf, Report.KeyOf;
    var rs, k := ResultsOf(s.results), Report.SortKey("a.md", 1, Url0);
    ResultsLength(s.results);
    forall i | 0 <= i < |rs|
      ensures Report.KeyOf(rs[i]) == k
    {
      AllResults(s.results, i);
      SamePlace(s, i);
    }
    OneKeyKeepsOrder(rs, k);
    if s.results != [] { AllResults(s.results, 0); }
  }

  lemma ResultsLength(es: seq<Emission>)
    ensures |ResultsOf(es)| == |es|
  {
    if es != [] { ResultsLength(es[..|es| - 1]); }
  }

  // Two runs of one configuration, alike up to the end of the only check, both clean, that
  // print their two lines in different orders.
  lemma OrderOfArrivalShows() returns (s: State, t: State)
    ensures Reachable(TwoCopies(), s) && Final(s) && Clean(s)
    ensures Reachable(TwoCopies(), t) && Final(t) && Clean(t)
    ensures Report.SortResults(ResultsOf(s.results)) != Report.SortResults(ResultsOf(t.results))
  {
    hide Reachable, Final, Clean, ResultsOf, Report.SortResults;
    var settled := CheckSettled();
    s := ExecutorFirst(settled);
    s := CleanEnd(s);
    t := WorkerFirst(settled);
    t := CleanEnd(t);
    ReportIsBuffer(s);
    ReportIsBuffer(t);
    assert s.results[0] == First && t.results[0] == Second;
  }
}
