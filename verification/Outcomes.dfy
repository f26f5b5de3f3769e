// What every emitted result says: it is the canonical result of its URL, marked reused for
// every occurrence but the first, and one marked FromCache comes from the store as loaded.
module Outcomes {
  import opened Model
  import opened ResultCache
  import opened Dedup
  import opened Pipeline
  import opened Jobs
  import opened Records
  import opened Fanout

  ghost predicate Told(c: Config, seen: Seen, o: Occ, res: Result) {
    && IsNet(c, o)
    && KeyOf(c, o) in seen
    && seen[KeyOf(c, o)].done
    && res == ResultFor(TargetOf(c, o), seen[KeyOf(c, o)].result, o != seen[KeyOf(c, o)].origin)
  }

  ghost predicate EmissionSound(c: Config, seen: Seen, e: Emission) {
    && Valid(c, e.occ)
    && if IsNet(c, e.occ) then Told(c, seen, e.occ, e.res) else e.res == Verdict(c.sources[e.occ.src][e.occ.pos])
  }

  ghost predicate Reported(c: Config, seen: Seen, results: seq<Emission>) {
    forall j :: 0 <= j < |results| ==> EmissionSound(c, seen, results[j])
  }

  ghost predicate WorkerTells(c: Config, seen: Seen, i: nat, w: Worker) {
    var o := Occ(i, w.pos);
    && (w.pc.Emitting? ==> Told(c, seen, o, w.pc.res))
    && (w.pc.InGap? ==> IsNet(c, o) && KeyOf(c, o) in seen && seen[KeyOf(c, o)].origin != o)
  }

  ghost predicate WorkersTell(c: Config, seen: Seen, workers: map<nat, Worker>) {
    forall i :: i in workers ==> WorkerTells(c, seen, i, workers[i])
  }

  ghost predicate OriginsReached(seen: Seen, f: Front) {
    forall k :: k in seen ==> Reached(f, seen[k].origin)
  }

  ghost predicate ExecTells(c: Config, o: Occ, e: Exec) {
    e.pc.Checked? || e.pc.Storing? || e.pc.Completing? || e.pc.Located? ==> CheckReturns(c, o, e.pc.res)
  }

  ghost predicate ExecsTell(c: Config, execs: map<Occ, Exec>) {
    forall o :: o in execs ==> ExecTells(c, o, execs[o])
  }

  ghost predicate Provenant(c: Config, g: StageMap, k: Key, u: UrlState<Occ>) {
    if u.origin in g then u.done ==> !u.result.fromCache
    else
      && u.done
      && c.store.enabled
      && k in c.store.entries
      && IsNet(c, u.origin)
      && u.result == FromEntry(c, u.origin, c.store.entries[k])
  }

  // A key that has not been seen still has the entry it was loaded with.
  ghost predicate Untouched(c: Config, seen: Seen, store: Store) {
    && store.enabled == c.store.enabled
    && (forall k :: k !in seen ==>
                      (k in store.entries <==> k in c.store.entries) &&
                      (k in store.entries ==> store.entries[k] == c.store.entries[k]))
  }

  ghost predicate Sourced(c: Config, seen: Seen, g: StageMap, store: Store) {
    && (forall k :: k in seen ==> Provenant(c, g, k, seen[k]))
    && Untouched(c, seen, store)
  }

  // ---------------------------------------------------------------- growth of the records

  lemma ReportedKept(c: Config, seen: Seen, seen': Seen, results: seq<Emission>)
    requires Reported(c, seen, results) && Extends(seen, seen')
    ensures Reported(c, seen', results)
  {
  }

  lemma FansKept(c: Config, seen: Seen, seen': Seen, execs: map<Occ, Exec>)
    requires Fans(c, seen, execs) && Extends(seen, seen')
    ensures Fans(c, seen', execs)
  {
  }

  lemma WorkersTellKept(c: Config, seen: Seen, seen': Seen, workers: map<nat, Worker>)
    requires WorkersTell(c, seen, workers) && Extends(seen, seen')
    ensures WorkersTell(c, seen', workers)
  {
  }

  // ---------------------------------------------------------------- parse workers

  lemma WorkTells(c: Config, s: State, i: nat, now: int)
    requires WorkEnabled(c, s, i) && !AtEnd(c, i, s.front.workers[i])
    requires WorkerTells(c, s.seen, i, s.front.workers[i]) && OriginsReached(s.seen, s.front) && i !in s.front.parsed
    requires Extends(s.seen, WorkSeen(c, s, i, now))
    ensures WorkerTells(c, WorkSeen(c, s, i, now), i, WorkerNext(c, s, i, now))
  {
  }

  lemma WorkersTellWork(c: Config, s: State, i: nat, now: int)
    requires WorkEnabled(c, s, i) && WorkersTell(c, s.seen, s.front.workers)
    requires OriginsReached(s.seen, s.front) && i !in s.front.parsed
    requires Extends(s.seen, WorkSeen(c, s, i, now))
    ensures WorkersTell(c, WorkSeen(c, s, i, now), WorkFront(c, s, i, now).workers)
  {
    WorkersTellKept(c, s.seen, WorkSeen(c, s, i, now), s.front.workers);
    if !AtEnd(c, i, s.front.workers[i]) {
      WorkTells(c, s, i, now);
    }
    hide Extends, WorkerTells, OriginsReached, WorkSeen, WorkerNext;
  }

  lemma WorkReported(c: Config, s: State, i: nat, now: int)
    requires WorkEnabled(c, s, i) && WorkersTell(c, s.seen, s.front.workers) && Reported(c, s.seen, s.results)
    requires Extends(s.seen, WorkSeen(c, s, i, now))
    ensures Reported(c, WorkSeen(c, s, i, now), WorkResults(c, s, i))
  {
    ReportedKept(c, s.seen, WorkSeen(c, s, i, now), s.results);
    var w := s.front.workers[i];
    assert WorkerTells(c, s.seen, i, w);
    if Emits1(c, s, i) {
      assert EmissionSound(c, WorkSeen(c, s, i, now), WorkResults(c, s, i)[|s.results|]);
    }
  }

  lemma ReachedGrows(c: Config, s: State, i: nat, now: int, o: Occ)
    requires GapsKnown(c, s.seen, s.front.workers) && WorkEnabled(c, s, i) && i !in s.front.parsed
    requires Valid(c, o) && Reached(s.front, o)
    ensures Reached(WorkFront(c, s, i, now), o)
  {
    if o == Occ(i, s.front.workers[i].pos) {
      FrontSelf(c, s, i, now);
    } else {
      FrontOther(c, s, i, now, o);
    }
  }

  lemma WorkOrigins(c: Config, s: State, i: nat, now: int)
    requires Recorded(c, s.seen, s.stage) && GapsKnown(c, s.seen, s.front.workers)
    requires WorkEnabled(c, s, i) && i !in s.front.parsed && OriginsReached(s.seen, s.front)
    ensures OriginsReached(WorkSeen(c, s, i, now), WorkFront(c, s, i, now))
  {
    var seen' := WorkSeen(c, s, i, now);
    forall k | k in seen'
      ensures Reached(WorkFront(c, s, i, now), seen'[k].origin)
    {
      if k in s.seen {
        assert RecordSound(c, s.stage, k, s.seen[k]);
        ReachedGrows(c, s, i, now, s.seen[k].origin);
      } else {
        FrontSelf(c, s, i, now);
      }
    }
  }

  lemma NewOrigin(c: Config, seen: Seen, g: StageMap, p: Occ)
    requires Recorded(c, seen, g) && IsNet(c, p) && KeyOf(c, p) !in seen
    ensures p !in g && forall k :: k in seen ==> seen[k].origin != p
  {
  }

  lemma SourcedMiss(c: Config, seen: Seen, g: StageMap, store: Store, p: Occ)
    requires Recorded(c, seen, g) && Sourced(c, seen, g, store) && IsNet(c, p) && KeyOf(c, p) !in seen
    ensures Sourced(c, Register(seen, KeyOf(c, p), p, None, Blank(TargetOf(c, p))), g[p := AtWorker], store)
  {
    NewOrigin(c, seen, g, p);
    hide Recorded, KeyOf, IsNet, Provenant;
    ProvenantApart(c, seen, g, p);
    FreshProvenant(c, g[p := AtWorker], KeyOf(c, p), UrlState(false, Blank(TargetOf(c, p)), [p], p));
  }

  lemma UntouchedGrows(c: Config, seen: Seen, seen': Seen, store: Store)
    requires Untouched(c, seen, store) && forall k :: k in seen ==> k in seen'
    ensures Untouched(c, seen', store)
  {
  }

  // A job for an occurrence that created no record yet.
  lemma ProvenantApart(c: Config, seen: Seen, g: StageMap, p: Occ)
    requires forall k :: k in seen ==> Provenant(c, g, k, seen[k]) && seen[k].origin != p
    ensures forall k :: k in seen ==> Provenant(c, g[p := AtWorker], k, seen[k])
  {
  }

  lemma FreshProvenant(c: Config, g: StageMap, k: Key, u: UrlState<Occ>)
    requires u.origin in g && !u.done
    ensures Provenant(c, g, k, u)
  {
  }

  lemma HitProvenant(c: Config, g: StageMap, store: Store, seen: Seen, p: Occ, now: int, e: Entry)
    requires Untouched(c, seen, store) && IsNet(c, p) && KeyOf(c, p) !in seen && p !in g
    requires Lookup(store, KeyOf(c, p), now) == Some(e)
    ensures Provenant(c, g, KeyOf(c, p), UrlState(true, FromEntry(c, p, e), [], p))
  {
  }

  lemma SourcedHit(c: Config, seen: Seen, g: StageMap, store: Store, p: Occ, now: int, e: Entry)
    requires Recorded(c, seen, g) && Sourced(c, seen, g, store) && IsNet(c, p) && KeyOf(c, p) !in seen
    requires Lookup(store, KeyOf(c, p), now) == Some(e)
    ensures Sourced(c, Register(seen, KeyOf(c, p), p, Some(FromEntry(c, p, e)), Blank(TargetOf(c, p))), g, store)
  {
    NewOrigin(c, seen, g, p);
    HitProvenant(c, g, store, seen, p, now, e);
    hide Recorded, KeyOf, IsNet, Provenant, Lookup, FromEntry, Untouched;
    UntouchedGrows(c, seen, Register(seen, KeyOf(c, p), p, Some(FromEntry(c, p, e)), Blank(TargetOf(c, p))), store);
  }

  lemma SourcedJoin(c: Config, seen: Seen, g: StageMap, store: Store, p: Occ)
    requires Sourced(c, seen, g, store) && IsNet(c, p) && KeyOf(c, p) in seen
    ensures Sourced(c, Join(seen, KeyOf(c, p), p), g, store)
  {
  }

  lemma SourcedMove(c: Config, seen: Seen, g: StageMap, store: Store, o: Occ, y: Stage)
    requires Sourced(c, seen, g, store) && o in g
    ensures Sourced(c, seen, g[o := y], store)
  {
  }

  lemma WorkSourced(c: Config, s: State, i: nat, now: int)
    requires Recorded(c, s.seen, s.stage) && AtWorkers(c, s.stage, s.front.workers)
    requires WorkEnabled(c, s, i) && Sourced(c, s.seen, s.stage, s.store)
    ensures Sourced(c, WorkSeen(c, s, i, now), WorkStage(c, s, i, now), s.store)
  {
    hide Recorded, AtWorkers, Extends, Sourced, Register, Join;
    WorkWorkers(c, s, i, now);
    var w := s.front.workers[i];
    var p := Occ(i, w.pos);
    if AtLookup(c, i, w) && KeyOf(c, p) !in s.seen {
      match Find(c, s.seen, s.store, p, now)
      case Hit(e) => SourcedHit(c, s.seen, s.stage, s.store, p, now, e);
      case Miss => SourcedMiss(c, s.seen, s.stage, s.store, p);
    } else if w.pc.InGap? && KeyOf(c, p) in s.seen {
      SourcedJoin(c, s.seen, s.stage, s.store, p);
    } else if w.pc.Offering? {
      SourcedMove(c, s.seen, s.stage, s.store, p, InJobs);
    }
  }

  // ---------------------------------------------------------------- executors

  lemma ExecNextTells(c: Config, s: State, o: Occ, res: Result)
    requires ExecEnabled(c, s, o, res) && ExecTells(c, o, s.back.execs[o])
    ensures ExecTells(c, o, ExecNext(s.back.execs[o], s.seen, res))
  {
  }

  lemma ExecuteExecsTell(c: Config, s: State, o: Occ, res: Result, now: int)
    requires ExecEnabled(c, s, o, res) && ExecsTell(c, s.back.execs)
    ensures ExecsTell(c, DoExecute(c, s, o, res, now).back.execs)
  {
    ExecNextTells(c, s, o, res);
    hide ExecTells, ExecNext;
  }

  // The list handed over starts with the occurrence whose check this was, and has it once.
  lemma FirstOnce(occs: seq<Occ>, o: Occ)
    requires occs != [] && occs[0] == o && multiset(occs)[o] <= 1
    ensures o !in occs[1..]
  {
    assert occs == [o] + occs[1..];
    assert multiset(occs)[o] == 1 + multiset(occs[1..])[o];
  }

  lemma ExecFanSound(c: Config, s: State, o: Occ, res: Result, now: int)
    requires Recorded(c, s.seen, s.stage) && AtExecs(c, s.stage, s.back.execs)
    requires ExecEnabled(c, s, o, res) && FanSound(c, s.seen, o, s.back.execs[o])
    requires Conserved(c, s)
    ensures FanSound(c, DoExecute(c, s, o, res, now).seen, o, ExecNext(s.back.execs[o], s.seen, res))
  {
    hide AtExecs, Conserved;
    OwnsExec(c, s, o);
    var e := s.back.execs[o];
    if e.pc.Located? {
      var u := s.seen[KeyOf(c, o)];
      assert RecordSound(c, s.stage, KeyOf(c, o), u);
      hide Recorded, DoExecute, ExecGauges;
      HeldOnce(c, s, o);
      FirstOnce(u.occs, o);
      ExecuteSeen(c, s, o, res, now);
    } else {
      hide Recorded, DoExecute, ExecGauges;
      ExecuteSeen(c, s, o, res, now);
    }
  }

  lemma ExecuteSeen(c: Config, s: State, o: Occ, res: Result, now: int)
    requires ExecEnabled(c, s, o, res)
    ensures var e := s.back.execs[o];
            DoExecute(c, s, o, res, now).seen == if e.pc.Located? && e.job.key in s.seen then Settle(s.seen, e.job.key, e.pc.res) else s.seen
  {
    hide ExecNext, ExecGauges;
  }

  lemma HeldOnce(c: Config, s: State, o: Occ)
    requires Conserved(c, s) && IsNet(c, o)
    ensures Held(c, s.seen, o) <= 1
  {
  }

  lemma FansUpdate(c: Config, seen: Seen, execs: map<Occ, Exec>, o: Occ, e: Exec)
    requires Fans(c, seen, execs)
    ensures FanSound(c, seen, o, e) ==> Fans(c, seen, execs[o := e])
    ensures Fans(c, seen, execs - {o})
  {
  }

  lemma ExecuteFans(c: Config, s: State, o: Occ, res: Result, now: int)
    requires Recorded(c, s.seen, s.stage) && AtExecs(c, s.stage, s.back.execs) && Conserved(c, s)
    requires ExecEnabled(c, s, o, res) && Fans(c, s.seen, s.back.execs)
    ensures Fans(c, DoExecute(c, s, o, res, now).seen, DoExecute(c, s, o, res, now).back.execs)
  {
    assert FanSound(c, s.seen, o, s.back.execs[o]);
    hide Recorded, AtExecs, Conserved, FanSound, ExecNext, Extends, Fans;
    var seen' := DoExecute(c, s, o, res, now).seen;
    ExecFanSound(c, s, o, res, now);
    ExecuteRecords(c, s, o, res, now);
    FansKept(c, s.seen, seen', s.back.execs);
    FansUpdate(c, seen', s.back.execs, o, ExecNext(s.back.execs[o], s.seen, res));
  }

  lemma ExecEmissionSound(c: Config, s: State, o: Occ)
    requires Recorded(c, s.seen, s.stage) && AtExecs(c, s.stage, s.back.execs)
    requires o in s.back.execs && ExecEmits(s.back.execs[o]) && FanSound(c, s.seen, o, s.back.execs[o])
    ensures IsNet(c, s.back.execs[o].pc.rest[0])
    ensures EmissionSound(c, s.seen, ExecEmission(c, s.back.execs[o]))
  {
    OwnsExec(c, s, o);
    hide Recorded, AtExecs;
    assert s.back.execs[o].pc.rest[0] in s.back.execs[o].pc.rest;
  }

  lemma ReportedSnoc(c: Config, seen: Seen, results: seq<Emission>, e: Emission)
    requires Reported(c, seen, results) && EmissionSound(c, seen, e)
    ensures Reported(c, seen, results + [e])
  {
  }

  lemma ExecuteReported(c: Config, s: State, o: Occ, res: Result, now: int)
    requires Recorded(c, s.seen, s.stage) && AtExecs(c, s.stage, s.back.execs)
    requires ExecEnabled(c, s, o, res) && FanSound(c, s.seen, o, s.back.execs[o])
    requires Reported(c, s.seen, s.results)
    ensures Reported(c, DoExecute(c, s, o, res, now).seen, DoExecute(c, s, o, res, now).results)
  {
    hide Recorded, AtExecs, Extends, FanSound, Reported, EmissionSound;
    var e := s.back.execs[o];
    ExecuteRecords(c, s, o, res, now);
    ReportedKept(c, s.seen, DoExecute(c, s, o, res, now).seen, s.results);
    if ExecEmits(e) {
      ExecEmissionSound(c, s, o);
      ReportedSnoc(c, s.seen, s.results, ExecEmission(c, e));
    }
  }

  lemma SourcedSettle(c: Config, seen: Seen, g: StageMap, store: Store, o: Occ, r: Result)
    requires Recorded(c, seen, g) && Sourced(c, seen, g, store) && o in g && g[o].Running? && !r.fromCache
    ensures IsNet(c, o) && KeyOf(c, o) in seen
    ensures Sourced(c, Settle(seen, KeyOf(c, o), r), g[o := Fanned], store)
  {
    RecordedSettle(c, seen, g, o, r);
    SourcedMove(c, seen, g, store, o, Fanned);
    assert seen[KeyOf(c, o)].origin == o;
    hide Recorded, KeyOf, IsNet, Provenant;
    CheckedProvenant(c, g[o := Fanned], KeyOf(c, o), seen[KeyOf(c, o)].(done := true, result := r, occs := []));
  }

  lemma CheckedProvenant(c: Config, g: StageMap, k: Key, u: UrlState<Occ>)
    requires u.origin in g && !u.result.fromCache
    ensures Provenant(c, g, k, u)
  {
  }

  lemma SourcedPut(c: Config, seen: Seen, g: StageMap, store: Store, key: Key, r: Result, now: int)
    requires Sourced(c, seen, g, store) && key in seen
    ensures Sourced(c, seen, g, Record(store, key, r, now))
  {
  }

  lemma ExecuteSourced(c: Config, s: State, o: Occ, res: Result, now: int)
    requires Recorded(c, s.seen, s.stage) && AtExecs(c, s.stage, s.back.execs)
    requires ExecEnabled(c, s, o, res) && ExecTells(c, o, s.back.execs[o])
    requires Sourced(c, s.seen, s.stage, s.store)
    ensures Sourced(c, DoExecute(c, s, o, res, now).seen, DoExecute(c, s, o, res, now).stage, DoExecute(c, s, o, res, now).store)
  {
    OwnsExec(c, s, o);
    ExecsNext(c, s.stage, s.back.execs, s.seen, o, res);
    hide Recorded, AtExecs, Sourced, Settle, Record;
    var e := s.back.execs[o];
    if e.pc.Located? {
      SourcedSettle(c, s.seen, s.stage, s.store, o, e.pc.res);
    } else if e.pc.Storing? {
      SourcedPut(c, s.seen, s.stage, s.store, e.job.key, e.pc.res, now);
    } else if ExecEnds(e) {
      SourcedMove(c, s.seen, s.stage, s.store, o, Finis);
    }
  }
}
