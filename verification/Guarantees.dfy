// What the pipeline promises of every run, over all interleavings, capacities and limits.
module Guarantees {
  import opened Model
  import opened ResultCache
  import opened Pipeline
  import opened Stages
  import opened Jobs
  import opened Records
  import opened Fanout
  import opened Outcomes
  import opened Gauging
  import opened Safety
  import opened Termination
  import opened Runs
  import opened Freshness
  import Report

  // ---------------------------------------------------------------- closing down

  // No goroutine panics: no send on a closed channel, no second close, no missing record.
  // Each channel is closed only once its senders are gone.
  lemma CloseDiscipline(c: Config, s: State)
    requires Reachable(c, s)
    ensures !s.crashed
    ensures s.front.filesCh.closed ==> s.front.crawl.Returning? || s.front.crawl.Returned?
    ensures s.mid.jobsCh.closed ==> s.front.workers == map[] && s.front.filesCh.closed && s.front.filesCh.buf == []
    ensures s.back.readyCh.closed ==>
              s.mid.jobsCh.closed && s.mid.jobsCh.buf == [] && forall h :: h in s.mid.pacers ==> s.mid.pacers[h].pc.Exited?
    ensures Final(s) ==>
              && s.front.filesCh == Chan([], true)
              && s.mid.jobsCh == Chan([], true)
              && s.back.readyCh == Chan([], true)
              && s.front.workers == map[]
              && s.back.execs == map[]
  {
    hide Reachable, Recorded, Placed, Conserved, Gauged, Sourced;
    ReachableInv(c, s);
  }

  // A pacer releases its jobs in the order it accepted them, and all of them when nothing
  // fails.
  lemma PacersFifo(c: Config, s: State, h: Host)
    requires Reachable(c, s) && h in s.mid.pacers
    ensures s.mid.pacers[h].released <= s.mid.pacers[h].accepted
    ensures Clean(s) && s.mid.pacers[h].pc.Exited? ==> s.mid.pacers[h].released == s.mid.pacers[h].accepted
  {
    hide Reachable, Tracked, Recorded, Conserved, Gauged, Sourced;
    ReachableInv(c, s);
    assert Conserves(s.mid.pacers[h], Clean(s));
  }

  // A pacer asleep with a job queued, or told to stop, is about to be woken.
  lemma NoLostWakeup(c: Config, s: State, h: Host)
    requires Reachable(c, s) && h in s.mid.pacers && s.mid.pacers[h].pc.Waiting?
    requires s.mid.pacers[h].q != [] || s.mid.pacers[h].done
    ensures s.mid.disp == Signalling(h) || (s.mid.disp.Broadcasting? && s.mid.disp.host == h)
  {
    hide Reachable, Tracked, Recorded, Conserved, Gauged, Sourced;
    ReachableInv(c, s);
    assert Awake(h, s.mid.pacers[h], s.mid.disp, s.cancelled);
  }

  // ---------------------------------------------------------------- exactly once

  // In every state, in every interleaving, a link a worker has reached is in exactly one
  // place, once: with its worker between the two halves of add or about to be emitted, held
  // in its URL's record, in an executor's hands, or in the results.
  lemma OneCopy(c: Config, s: State, o: Occ)
    requires Reachable(c, s) && Valid(c, o)
    ensures Carrying(s.front, o) + Held(c, s.seen, o) + InFanout(c, s.seen, s.back.execs, o) + Times(s.results, o)
            == if Reached(s.front, o) then 1 else 0
  {
    hide Reachable, Flow, Tracked, Recorded, Gauged, Sourced, Times;
    ReachableInv(c, s);
  }

  // So no link is ever reported twice, cancelled run or not.
  lemma AtMostOnce(c: Config, s: State, o: Occ)
    requires Reachable(c, s) && Valid(c, o)
    ensures Times(s.results, o) <= 1
  {
    hide Reachable, Flow, Tracked, Recorded, Gauged, Sourced, Times;
    ReachableInv(c, s);
  }

  lemma FinalCopies(c: Config, s: State, o: Occ)
    requires Inv(c, s) && Final(s) && Valid(c, o)
    ensures Held(c, s.seen, o) + Times(s.results, o) == if Reached(s.front, o) then 1 else 0
  {
    hide Tracked, Recorded, Gauged, Sourced, Held, Times, Reached;
  }

  lemma FinalReached(c: Config, s: State, o: Occ)
    requires Inv(c, s) && Final(s) && !s.cancelled && Valid(c, o)
    ensures Reached(s.front, o)
  {
    hide Tracked, Recorded, Gauged, Sourced, Conserved;
    assert Taken(s.front) == |c.sources|;
    assert o.src in s.front.workers || o.src in s.front.parsed;
  }

  // With every channel drained and every goroutine gone, a job is with a pacer or done for.
  lemma NowhereElse(c: Config, g: StageMap, f: Front, m: Mid, b: Back, o: Occ)
    requires Placed(c, g, f, m, b) && o in g && f.workers == map[] && m.jobsCh.buf == [] && m.disp.Retired?
    requires b.readyCh.buf == [] && b.pool.Finished? && b.execs == map[]
    ensures IsNet(c, o) && g[o] in {Queued, Pacing, Finis, Lost}
  {
    hide AtPacers;
  }

  lemma OnlyQueued(c: Config, g: StageMap, pacers: map<Host, Pacer>, o: Occ)
    requires AtPacers(c, g, pacers) && o in g && IsNet(c, o) && forall h :: h in pacers ==> pacers[h].pc.Exited?
    ensures g[o] != Pacing
    ensures g[o] == Queued ==> HostOf(c, o) in pacers && pacers[HostOf(c, o)].q != []
  {
    var h := HostOf(c, o);
    assert h in pacers ==> AtPacer(c, g, h, pacers[h]);
    hide AtPacers;
  }

  lemma ExitedDry(m: Mid, cancelled: bool, clean: bool, h: Host)
    requires Pacers(m, cancelled, clean) && h in m.pacers && m.pacers[h].pc.Exited? && clean
    ensures m.pacers[h].q == []
  {
    assert Conserves(m.pacers[h], clean);
  }

  // In a final state a job is finished, lost, or still in the queue of a pacer that left.
  lemma FinalStage(c: Config, s: State, o: Occ)
    requires Inv(c, s) && Final(s) && o in s.stage
    ensures s.stage[o] in {Finis, Lost, Queued}
    ensures Clean(s) ==> s.stage[o] == Finis
  {
    hide Recorded, Gauged, Sourced, Conserved, Sources, Pacers, AtWorkers, AtPacers, AtExecs, AtDisp, AtPoolLoop, Lists;
    NowhereElse(c, s.stage, s.front, s.mid, s.back, o);
    OnlyQueued(c, s.stage, s.mid.pacers, o);
    if Clean(s) && s.stage[o] == Queued { ExitedDry(s.mid, s.cancelled, Clean(s), HostOf(c, o)); }
  }

  lemma TimesMember(rs: seq<Emission>, o: Occ) returns (j: nat)
    requires Times(rs, o) > 0
    ensures j < |rs| && rs[j].occ == o
  {
    j := |rs| - 1;
    if rs[j].occ != o {
      j := TimesMember(rs[..j], o);
    }
  }

  // Two results for one occurrence count twice.
  lemma {:induction false} TimesTwice(rs: seq<Emission>, i: nat, j: nat)
    requires i <= j < |rs| && rs[i].occ == rs[j].occ
    ensures Times(rs, rs[j].occ) >= if i < j then 2 else 1
  {
    var n := |rs| - 1;
    if j < n {
      TimesTwice(rs[..n], i, j);
    } else if i < j {
      TimesTwice(rs[..n], i, i);
    }
  }

  lemma TimesFound(c: Config, s: State, o: Occ)
    requires Reported(c, s.seen, s.results) && IsNet(c, o) && Times(s.results, o) > 0
    ensures KeyOf(c, o) in s.seen && s.seen[KeyOf(c, o)].done
  {
    var j := TimesMember(s.results, o);
    assert EmissionSound(c, s.seen, s.results[j]);
  }

  lemma DoneHoldsNothing(c: Config, s: State, o: Occ)
    requires Recorded(c, s.seen, s.stage) && IsNet(c, o)
    ensures KeyOf(c, o) !in s.seen || s.seen[KeyOf(c, o)].done ==> Held(c, s.seen, o) == 0
  {
    if KeyOf(c, o) in s.seen {
      assert RecordSound(c, s.stage, KeyOf(c, o), s.seen[KeyOf(c, o)]);
    }
  }

  // A link has its result exactly when it was reached and the check of its URL was
  // completed (or answered by the cache).
  lemma ResultIffChecked(c: Config, s: State, o: Occ)
    requires Reachable(c, s) && Final(s) && IsNet(c, o)
    ensures Times(s.results, o) == 1 <==>
            Reached(s.front, o) && KeyOf(c, o) in s.seen && s.seen[KeyOf(c, o)].done
  {
    hide Reachable, Flow, Tracked, Recorded, Reported, Gauged, Sourced, Conserved, Held, Times, Reached;
    ReachableInv(c, s);
    FinalCopies(c, s, o);
    DoneHoldsNothing(c, s, o);
    if Times(s.results, o) > 0 {
      TimesFound(c, s, o);
    }
  }

  // Every record of a clean final state is done.
  lemma CleanAllDone(c: Config, s: State, k: Key)
    requires Inv(c, s) && Final(s) && Clean(s) && k in s.seen
    ensures s.seen[k].done
  {
    hide Flow, Gauged, Sourced, Conserved, Placed;
    assert RecordSound(c, s.stage, k, s.seen[k]);
    assert s.seen[k].origin in s.stage ==> Owned(c, s.seen, s.stage, s.seen[k].origin);
    if s.seen[k].origin in s.stage {
      FinalStage(c, s, s.seen[k].origin);
    }
  }

  lemma CleanRunComplete(c: Config, s: State, o: Occ)
    requires Inv(c, s) && Final(s) && Clean(s) && Valid(c, o)
    ensures Times(s.results, o) == 1
  {
    hide Flow, Tracked, Recorded, Reported, Gauged, Sourced, Conserved, Times, Reached;
    FinalReached(c, s, o);
    FinalCopies(c, s, o);
    if IsNet(c, o) && KeyOf(c, o) in s.seen {
      CleanAllDone(c, s, KeyOf(c, o));
      DoneHoldsNothing(c, s, o);
    }
  }

  // The link whose job was dropped is never reported.
  lemma LostUnreported(c: Config, s: State, o: Occ)
    requires Inv(c, s) && Final(s) && o in s.stage && s.stage[o] == Lost
    ensures IsNet(c, o) && Times(s.results, o) == 0
  {
    hide Flow, Gauged, Sourced, Conserved, Placed;
    assert Owned(c, s.seen, s.stage, o);
    if Times(s.results, o) > 0 {
      TimesFound(c, s, o);
    }
  }

  // A run whose context stays live reports every link of every source exactly once if and
  // only if no wait for a token failed. (The run returns no error either way.)
  lemma CompleteIffNoFailedAcquire(c: Config, s: State)
    requires Reachable(c, s) && Final(s) && !s.cancelled
    ensures (forall o :: Valid(c, o) ==> Times(s.results, o) == 1) <==> s.acquireErrs == 0
  {
    hide Reachable, Inv, Times;
    ReachableInv(c, s);
    if s.acquireErrs == 0 {
      forall o | Valid(c, o)
        ensures Times(s.results, o) == 1
      {
        CleanRunComplete(c, s, o);
      }
    } else {
      var o :| o in s.stage && s.stage[o] == Lost;
      LostUnreported(c, s, o);
    }
  }

  // ---------------------------------------------------------------- what results say

  // What a reported network link says, field by field: its own target; the state, status,
  // host, detail and cache mark of its URL's record; reused unless it is the record's
  // origin; and none of the check's own counters.
  lemma ReportsTheRecord(c: Config, s: State, i: nat)
    requires Reachable(c, s) && i < |s.results| && IsNet(c, s.results[i].occ)
    ensures var o := s.results[i].occ;
            && KeyOf(c, o) in s.seen
            && var u := s.seen[KeyOf(c, o)];
               && u.done
               && s.results[i].res == Result(TargetOf(c, o), u.result.state, u.result.statusCode, u.result.host, 0, false, 0,
                                             u.result.fromCache, o != u.origin, u.result.detail, None)
  {
    hide Reachable, Flow, Tracked, Recorded, Gauged, Sourced, Conserved;
    ReachableInv(c, s);
    assert EmissionSound(c, s.seen, s.results[i]);
  }

  // What any other link says: exactly what settled it.
  lemma ReportsTheVerdict(c: Config, s: State, i: nat)
    requires Reachable(c, s) && i < |s.results| && !IsNet(c, s.results[i].occ)
    ensures var o := s.results[i].occ;
            && Valid(c, o) && c.sources[o.src][o.pos].Settled?
            && var l := c.sources[o.src][o.pos];
               s.results[i].res == Result(l.target, l.state, l.statusCode, "", 0, false, 0, false, false, l.detail, None)
  {
    hide Reachable, Flow, Tracked, Recorded, Gauged, Sourced, Conserved;
    ReachableInv(c, s);
    assert EmissionSound(c, s.seen, s.results[i]);
  }

  // All results for one key share their outcome, and at most one of them is not marked
  // reused.
  lemma SharedOutcome(c: Config, s: State, i: nat, j: nat)
    requires Reachable(c, s) && i < |s.results| && j < |s.results|
    requires IsNet(c, s.results[i].occ) && IsNet(c, s.results[j].occ)
    requires KeyOf(c, s.results[i].occ) == KeyOf(c, s.results[j].occ)
    ensures var a, b := s.results[i].res, s.results[j].res;
            && a.state == b.state && a.statusCode == b.statusCode && a.host == b.host
            && a.detail == b.detail && a.fromCache == b.fromCache
            && (!a.reused && !b.reused ==> s.results[i].occ == s.results[j].occ)
  {
    hide Reachable, Flow, Tracked, Recorded, Gauged, Sourced, Conserved;
    ReachableInv(c, s);
    assert EmissionSound(c, s.seen, s.results[i]) && EmissionSound(c, s.seen, s.results[j]);
  }

  // In a finished clean run exactly one is: each record's origin is reported once, without
  // the mark, and every other occurrence of its URL with it.
  lemma OneFreshResult(c: Config, s: State, k: Key) returns (i: nat)
    requires Reachable(c, s) && Final(s) && Clean(s) && k in s.seen
    ensures i < |s.results| && s.results[i].occ == s.seen[k].origin && !s.results[i].res.reused
    ensures IsNet(c, s.results[i].occ) && KeyOf(c, s.results[i].occ) == k
    ensures forall j :: 0 <= j < |s.results| && IsNet(c, s.results[j].occ) && KeyOf(c, s.results[j].occ) == k && !s.results[j].res.reused
                        ==> j == i
  {
    hide Reachable, Flow, Tracked, Gauged, Sourced, Conserved, Times;
    ReachableInv(c, s);
    assert RecordSound(c, s.stage, k, s.seen[k]);
    CleanRunComplete(c, s, s.seen[k].origin);
    i := TimesMember(s.results, s.seen[k].origin);
    assert EmissionSound(c, s.seen, s.results[i]);
    forall j | 0 <= j < |s.results| && IsNet(c, s.results[j].occ) && KeyOf(c, s.results[j].occ) == k && !s.results[j].res.reused
      ensures j == i
    {
      assert EmissionSound(c, s.seen, s.results[j]);
      TimesTwice(s.results, Min(i, j), Max(i, j));
    }
  }

  // A result marked FromCache repeats an entry the store was loaded with, never one this
  // run put there, and that entry was younger than the time to live when it was served, at a
  // reading of the clock during this run.
  lemma CacheProvenance(c: Config, s: State, i: nat)
    requires Reachable(c, s) && i < |s.results| && s.results[i].res.fromCache
    ensures IsNet(c, s.results[i].occ)
    ensures var k, r := KeyOf(c, s.results[i].occ), s.results[i].res;
            && c.store.enabled
            && k in c.store.entries
            && r.state == c.store.entries[k].state
            && r.statusCode == c.store.entries[k].statusCode
            && k in s.seen
            && s.seen[k].origin !in s.stage
            && IsNet(c, s.seen[k].origin)
            && r.host == HostOf(c, s.seen[k].origin)
            && k in s.served
            && c.start <= s.served[k] <= s.clock
            && s.served[k] - c.store.entries[k].checkedAt < c.store.ttl
  {
    hide Reachable, Flow, Tracked, Recorded, Gauged, Conserved;
    ReachableInv(c, s);
    ReachableTimely(c, s);
    assert EmissionSound(c, s.seen, s.results[i]);
    var k := KeyOf(c, s.results[i].occ);
    assert Provenant(c, s.stage, k, s.seen[k]);
  }

  // ---------------------------------------------------------------- accounting

  ghost function AllOf(c: Config): set<Occ> {
    set i, j | 0 <= i < |c.sources| && 0 <= j < |c.sources[i]| :: Occ(i, j)
  }

  ghost function NetOf(c: Config): set<Occ> {
    set o | o in AllOf(c) && IsNet(c, o)
  }

  function ResultsOf(es: seq<Emission>): seq<Result> {
    if es == [] then [] else ResultsOf(es[..|es| - 1]) + [es[|es| - 1].res]
  }

  function CountIn(es: seq<Emission>, t: set<Occ>): nat {
    if es == [] then 0 else CountIn(es[..|es| - 1], t) + if es[|es| - 1].occ in t then 1 else 0
  }

  // Emissions that hit each member of a set once are as many as the set.
  lemma {:induction false} CountInOnce(es: seq<Emission>, t: set<Occ>)
    requires forall o :: o in t ==> Times(es, o) == 1
    ensures CountIn(es, t) == |t|
  {
    if es == [] {
      assert forall o :: o in t ==> Times(es, o) == 0;
      assert t == {};
    } else {
      var n := |es| - 1;
      var x := es[n].occ;
      forall o | o in t - {x}
        ensures Times(es[..n], o) == 1
      {
        assert Times(es, o) == 1;
      }
      CountInOnce(es[..n], t - {x});
      assert x in t ==> Times(es, x) == 1;
      CountInApart(es[..n], t, x);
    }
  }

  lemma {:induction false} CountInApart(es: seq<Emission>, t: set<Occ>, x: Occ)
    ensures CountIn(es, t) == CountIn(es, t - {x}) + if x in t then Times(es, x) else 0
  {
    if es != [] {
      CountInApart(es[..|es| - 1], t, x);
    }
  }

  // A result is fresh, reused or from the cache according to its occurrence's part in the
  // record.
  ghost predicate Classified(c: Config, g: StageMap, e: Emission) {
    && Valid(c, e.occ)
    && (e.occ in g ==> IsNet(c, e.occ))
    && ((Report.IsCached(e.res) || Report.IsReused(e.res)) <==> IsNet(c, e.occ) && e.occ !in g)
  }

  lemma Classify(c: Config, s: State, e: Emission)
    requires Inv(c, s) && EmissionSound(c, s.seen, e)
    ensures Classified(c, s.stage, e)
  {
    hide Flow, Placed, Gauged, Conserved, Reported;
    if IsNet(c, e.occ) {
      var k := KeyOf(c, e.occ);
      assert Provenant(c, s.stage, k, s.seen[k]) && RecordSound(c, s.stage, k, s.seen[k]);
      if e.occ in s.stage {
        assert Owned(c, s.seen, s.stage, e.occ);
      }
    }
    if e.occ in s.stage {
      assert Owned(c, s.seen, s.stage, e.occ);
    }
  }

  // How one result is counted.
  lemma OneClassified(c: Config, g: StageMap, e: Emission)
    requires Classified(c, g, e)
    ensures e.occ in AllOf(c)
    ensures (if Report.IsCached(e.res) then 1 else 0) + (if Report.IsReused(e.res) then 1 else 0) + (if e.occ in g then 1 else 0)
            == if e.occ in NetOf(c) then 1 else 0
  {
  }

  lemma {:induction false} CountClassified(c: Config, g: StageMap, es: seq<Emission>)
    requires forall e :: e in es ==> Classified(c, g, e)
    ensures |ResultsOf(es)| == |es| == CountIn(es, AllOf(c))
    ensures Report.Count(ResultsOf(es), Report.IsCached) + Report.Count(ResultsOf(es), Report.IsReused)
            + CountIn(es, g.Keys) == CountIn(es, NetOf(c))
  {
    hide Classified, AllOf, NetOf, Report.IsCached, Report.IsReused;
    if es == [] {
      NoneCounted();
    } else {
      var n := |es| - 1;
      assert es[n] in es && forall e :: e in es[..n] ==> e in es;
      CountClassified(c, g, es[..n]);
      hide Report.Count;
      Report.CountSnoc(ResultsOf(es[..n]), es[n].res, Report.IsCached);
      Report.CountSnoc(ResultsOf(es[..n]), es[n].res, Report.IsReused);
      OneClassified(c, g, es[n]);
    }
  }

  lemma NoneCounted()
    ensures Report.Count([], Report.IsCached) == 0 && Report.Count([], Report.IsReused) == 0
  {
  }

  // At the end of a clean run each link has one line in the report; the network links are
  // the cached ones, the reused ones and the checks performed, and no gauge is left over.
  lemma Accounting(c: Config, s: State, sum: Report.Summary, errorFails: bool)
    requires Reachable(c, s) && Final(s) && Clean(s)
    requires Report.Summarizes(sum, ResultsOf(s.results), errorFails)
    ensures sum.total == |AllOf(c)|
    ensures sum.cached + sum.reused + s.gauges.netDone == |NetOf(c)|
    ensures s.gauges.enqueued == s.gauges.netDone && s.gauges.inflight == map[] && s.gauges.active == {}
  {
    hide Reachable, Inv, Times, CountIn, Report.Count, Clean;
    ReachableInv(c, s);
    FinalGauges(c, s);
    FinalCounts(c, s);
  }

  lemma FinalCounts(c: Config, s: State)
    requires Inv(c, s) && Final(s) && Clean(s)
    ensures |ResultsOf(s.results)| == |AllOf(c)|
    ensures Report.Count(ResultsOf(s.results), Report.IsCached) + Report.Count(ResultsOf(s.results), Report.IsReused)
            + |s.stage.Keys| == |NetOf(c)|
  {
    assert Reported(c, s.seen, s.results);
    assert forall o :: o in s.stage ==> IsNet(c, o);
    hide Inv, Times, CountIn, Report.Count, EmissionSound, Classified;
    forall e | e in s.results
      ensures Classified(c, s.stage, e)
    {
      Classify(c, s, e);
    }
    forall o | Valid(c, o)
      ensures Times(s.results, o) == 1
    {
      CleanRunComplete(c, s, o);
    }
    CountInOnce(s.results, AllOf(c));
    CountInOnce(s.results, NetOf(c));
    CountInOnce(s.results, s.stage.Keys);
    CountClassified(c, s.stage, s.results);
  }

  lemma AllFinished(c: Config, g: StageMap, workers: map<nat, Worker>, execs: map<Occ, Exec>, gauges: Gauges)
    requires Tallied(c, gauges) && CountsJobs(g, workers, gauges.counted) && CompletesJobs(g, execs, gauges.completed)
    requires ActiveUrls(c, execs, gauges.active)
    requires workers == map[] && execs == map[] && forall o :: o in g ==> g[o] == Finis
    ensures gauges.netDone == |g.Keys| && gauges.enqueued == |g.Keys| && gauges.inflight == map[] && gauges.active == {}
  {
    assert gauges.completed == g.Keys && gauges.counted == g.Keys;
    assert forall h :: Pending(c, gauges, h) == {};
  }

  lemma FinalGauges(c: Config, s: State)
    requires Inv(c, s) && Final(s) && Clean(s)
    ensures s.gauges.netDone == |s.stage.Keys| && s.gauges.enqueued == |s.stage.Keys|
    ensures s.gauges.inflight == map[] && s.gauges.active == {}
  {
    hide Recorded, Conserved, Sourced, Tallied, CountsJobs, CompletesJobs, ActiveUrls, Placed, Reported;
    forall o | o in s.stage
      ensures s.stage[o] == Finis
    {
      FinalStage(c, s, o);
    }
    AllFinished(c, s.stage, s.front.workers, s.back.execs, s.gauges);
  }

  predicate SameUrl(c: Config, o: Occ, p: Occ) {
    IsNet(c, o) && IsNet(c, p) && TargetOf(c, o).url == TargetOf(c, p).url
  }

  // In every state a host's gauge is the number of its announced jobs whose check has not
  // returned, the host is listed only while that is positive, and the active URLs are
  // those of running checks, of which there is never more than one per URL.
  lemma GaugesMeanWhatTheySay(c: Config, s: State, h: Host)
    requires Reachable(c, s)
    ensures Report.CountAt(s.gauges.inflight, h) == |Pending(c, s.gauges, h)|
    ensures h in s.gauges.inflight <==> Report.CountAt(s.gauges.inflight, h) > 0
    ensures s.gauges.netDone <= s.gauges.enqueued
    ensures forall u :: u in s.gauges.active <==> exists o :: BeingChecked(s.back.execs, o) && IsNet(c, o) && TargetOf(c, o).url == u
    ensures forall o, p :: BeingChecked(s.back.execs, o) && BeingChecked(s.back.execs, p) && SameUrl(c, o, p) ==> o == p
  {
    hide Reachable, Flow, Conserved, Sourced, Recorded, AtExecs, AtWorkers, AtPacers;
    ReachableInv(c, s);
    Subset(s.gauges.completed, s.gauges.counted);
    forall o, p | BeingChecked(s.back.execs, o) && BeingChecked(s.back.execs, p) && SameUrl(c, o, p)
      ensures o == p
    {
      OneCheckPerUrl(c, s, o, p);
    }
  }

  lemma Subset(a: set<Occ>, b: set<Occ>)
    requires a <= b
    ensures |a| <= |b|
  {
    assert b == a + (b - a);
  }

  // ---------------------------------------------------------------- the gauges' sum

  function HostCount(): (Host, int) -> nat {
    (h, n) => if n < 0 then 0 else n
  }

  ghost function OfHost(c: Config, t: set<Occ>, h: Host): set<Occ> {
    set o | o in t && IsNet(c, o) && HostOf(c, o) == h
  }

  // Counting jobs host by host counts them all.
  lemma {:induction false} CountByHost(c: Config, t: set<Occ>, m: map<Host, int>)
    requires forall o :: o in t ==> IsNet(c, o)
    requires forall h :: h in m <==> OfHost(c, t, h) != {}
    requires forall h :: h in m ==> m[h] == |OfHost(c, t, h)|
    ensures Sum(m, HostCount()) == |t|
    decreases m
  {
    if m == map[] {
      forall o
        ensures o !in t
      {
        assert o in t ==> o in OfHost(c, t, HostOf(c, o));
      }
      assert t == {};
    } else {
      var h :| h in m;
      var rest := t - OfHost(c, t, h);
      forall k
        ensures OfHost(c, rest, k) == if k == h then {} else OfHost(c, t, k)
      {
      }
      SumRemove(m, HostCount(), h);
      CountByHost(c, rest, m - {h});
      assert |rest| == |t| - |OfHost(c, t, h)|;
    }
  }

  lemma TalliedAddsUp(c: Config, g: Gauges)
    requires Tallied(c, g)
    ensures Sum(g.inflight, HostCount()) == g.enqueued - g.netDone
  {
    hide Sum;
    var t := g.counted - g.completed;
    forall h
      ensures OfHost(c, t, h) == Pending(c, g, h)
    {
    }
    forall h | h in g.inflight
      ensures g.inflight[h] == |OfHost(c, t, h)|
    {
      assert Report.CountAt(g.inflight, h) == |Pending(c, g, h)|;
    }
    CountByHost(c, t, g.inflight);
    assert g.counted == t + g.completed;
  }

  // The per-host backlog the heartbeat shows adds up to the checks not yet returned.
  lemma BacklogAddsUp(c: Config, s: State)
    requires Reachable(c, s)
    ensures Sum(s.gauges.inflight, HostCount()) == s.gauges.enqueued - s.gauges.netDone
  {
    hide Sum, Tallied, Reachable, Flow, Tracked, Recorded, Conserved, Sourced;
    ReachableInv(c, s);
    TalliedAddsUp(c, s.gauges);
  }
}
