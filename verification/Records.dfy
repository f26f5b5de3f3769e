// What the per-URL records say: which occurrence created each, whose check settles it, and
// that a settled record never changes again.
module Records {
  import opened Model
  import opened ResultCache
  import opened Dedup
  import opened Pipeline
  import opened Jobs

  ghost predicate RecordSound(c: Config, g: StageMap, k: Key, u: UrlState<Occ>) {
    && IsNet(c, u.origin)
    && KeyOf(c, u.origin) == k
    && (u.done ==> u.occs == [])
    && (!u.done ==> u.origin in g && u.occs != [] && u.occs[0] == u.origin)
    && (forall p :: p in u.occs ==> IsNet(c, p) && KeyOf(c, p) == k)
  }

  // A job belongs to the record its occurrence created, which is done once the job has
  // been completed.
  ghost predicate Owned(c: Config, seen: Seen, g: StageMap, o: Occ)
    requires o in g
  {
    && IsNet(c, o)
    && KeyOf(c, o) in seen
    && seen[KeyOf(c, o)].origin == o
    && (seen[KeyOf(c, o)].done <==> g[o].Fanned? || g[o].Finis?)
  }

  ghost predicate Recorded(c: Config, seen: Seen, g: StageMap) {
    && (forall k :: k in seen ==> RecordSound(c, g, k, seen[k]))
    && (forall o :: o in g ==> Owned(c, seen, g, o))
  }

  ghost predicate GapsKnown(c: Config, seen: Seen, workers: map<nat, Worker>) {
    forall i :: i in workers && (workers[i].pc.InGap? || workers[i].pc.Emitting?) ==>
                  IsNet(c, Occ(i, workers[i].pos)) && KeyOf(c, Occ(i, workers[i].pos)) in seen
  }

  // Records are never dropped, keep their origin, and once done are final.
  ghost predicate Extends(seen: Seen, seen': Seen) {
    forall k :: k in seen ==>
                  && k in seen'
                  && seen'[k].origin == seen[k].origin
                  && (seen[k].done ==> seen'[k] == seen[k])
  }

  // A stage change that neither creates nor completes a job.
  lemma RecordedMove(c: Config, seen: Seen, g: StageMap, o: Occ, y: Stage)
    requires Recorded(c, seen, g) && o in g
    requires (y.Fanned? || y.Finis?) == (g[o].Fanned? || g[o].Finis?)
    ensures Recorded(c, seen, g[o := y])
  {
  }

  lemma RecordedMiss(c: Config, seen: Seen, g: StageMap, o: Occ)
    requires Recorded(c, seen, g) && IsNet(c, o) && KeyOf(c, o) !in seen
    ensures o !in g
    ensures var seen' := Register(seen, KeyOf(c, o), o, None, Blank(TargetOf(c, o)));
            Recorded(c, seen', g[o := AtWorker]) && Extends(seen, seen')
  {
    assert o in g ==> Owned(c, seen, g, o);
    hide IsNet, KeyOf, RecordSound;
    var g' := g[o := AtWorker];
    forall k | k in seen
      ensures RecordSound(c, g', k, seen[k])
    {
      JobsAdded(c, g, g', k, seen[k]);
    }
    NewRecord(c, g', o);
  }

  lemma JobsAdded(c: Config, g: StageMap, g': StageMap, k: Key, u: UrlState<Occ>)
    requires RecordSound(c, g, k, u) && forall o :: o in g ==> o in g'
    ensures RecordSound(c, g', k, u)
  {
  }

  lemma NewRecord(c: Config, g: StageMap, o: Occ)
    requires IsNet(c, o) && o in g
    ensures RecordSound(c, g, KeyOf(c, o), UrlState(false, Blank(TargetOf(c, o)), [o], o))
  {
  }

  lemma RecordedHit(c: Config, seen: Seen, g: StageMap, o: Occ, r: Result)
    requires Recorded(c, seen, g) && IsNet(c, o) && KeyOf(c, o) !in seen
    ensures o !in g
    ensures var seen' := Register(seen, KeyOf(c, o), o, Some(r), Blank(TargetOf(c, o)));
            Recorded(c, seen', g) && Extends(seen, seen')
  {
    assert o in g ==> Owned(c, seen, g, o);
    hide IsNet, KeyOf, RecordSound;
    ServedRecord(c, g, o, r);
  }

  lemma ServedRecord(c: Config, g: StageMap, o: Occ, r: Result)
    requires IsNet(c, o)
    ensures RecordSound(c, g, KeyOf(c, o), UrlState(true, r, [], o))
  {
  }

  lemma RecordedReplace(c: Config, seen: Seen, g: StageMap, k: Key, u: UrlState<Occ>)
    requires Recorded(c, seen, g) && k in seen
    requires RecordSound(c, g, k, u) && u.origin == seen[k].origin && u.done == seen[k].done
    ensures Recorded(c, seen[k := u], g)
  {
  }

  lemma RecordedJoin(c: Config, seen: Seen, g: StageMap, o: Occ)
    requires Recorded(c, seen, g) && IsNet(c, o) && KeyOf(c, o) in seen
    ensures Recorded(c, Join(seen, KeyOf(c, o), o), g) && Extends(seen, Join(seen, KeyOf(c, o), o))
  {
    var k := KeyOf(c, o);
    var u := seen[k].(occs := seen[k].occs + [o]);
    if !seen[k].done {
      assert RecordSound(c, g, k, seen[k]);
      RecordedReplace(c, seen, g, k, u);
      hide Recorded;
    }
  }

  lemma RecordedSettle(c: Config, seen: Seen, g: StageMap, o: Occ, r: Result)
    requires Recorded(c, seen, g) && o in g && g[o].Running?
    ensures IsNet(c, o) && KeyOf(c, o) in seen && !seen[KeyOf(c, o)].done
    ensures Recorded(c, Settle(seen, KeyOf(c, o), r), g[o := Fanned]) && Extends(seen, Settle(seen, KeyOf(c, o), r))
  {
    assert Owned(c, seen, g, o);
    var g' := g[o := Fanned];
    hide RecordSound;
    forall k | k in seen
      ensures RecordSound(c, g', k, seen[k])
    {
      JobsAdded(c, g, g', k, seen[k]);
    }
    SettledRecord(c, g', KeyOf(c, o), seen[KeyOf(c, o)], r);
    hide KeyOf;
  }

  lemma SettledRecord(c: Config, g: StageMap, k: Key, u: UrlState<Occ>, r: Result)
    requires RecordSound(c, g, k, u)
    ensures RecordSound(c, g, k, u.(done := true, result := r, occs := []))
  {
  }

  lemma WorkRecords(c: Config, s: State, i: nat, now: int)
    requires Recorded(c, s.seen, s.stage) && AtWorkers(c, s.stage, s.front.workers) && WorkEnabled(c, s, i)
    ensures Recorded(c, WorkSeen(c, s, i, now), WorkStage(c, s, i, now))
    ensures Extends(s.seen, WorkSeen(c, s, i, now))
    ensures AtLookup(c, i, s.front.workers[i]) && Find(c, s.seen, s.store, Occ(i, s.front.workers[i].pos), now).Miss?
            ==> Occ(i, s.front.workers[i].pos) !in s.stage
  {
    hide Recorded, AtWorkers, Extends;
    var w := s.front.workers[i];
    var o := Occ(i, w.pos);
    ExtendsSelf(s.seen);
    if AtLookup(c, i, w) {
      match Find(c, s.seen, s.store, o, now)
      case Known =>
      case Hit(e) => RecordedHit(c, s.seen, s.stage, o, FromEntry(c, o, e));
      case Miss => RecordedMiss(c, s.seen, s.stage, o);
    } else if w.pc.InGap? && KeyOf(c, o) in s.seen {
      RecordedJoin(c, s.seen, s.stage, o);
    } else if w.pc.Offering? {
      WorkWorkers(c, s, i, now);
      RecordedMove(c, s.seen, s.stage, o, InJobs);
    }
  }

  lemma ExtendsSelf(seen: Seen)
    ensures Extends(seen, seen)
  {
  }

  lemma WorkGaps(c: Config, s: State, i: nat, now: int)
    requires GapsKnown(c, s.seen, s.front.workers) && WorkEnabled(c, s, i)
    requires Extends(s.seen, WorkSeen(c, s, i, now))
    ensures GapsKnown(c, WorkSeen(c, s, i, now), WorkFront(c, s, i, now).workers)
  {
    var w := s.front.workers[i];
    if !AtEnd(c, i, w) {
      var w' := WorkerNext(c, s, i, now);
      assert w'.pc.InGap? || w'.pc.Emitting? ==>
          w'.pos == w.pos && IsNet(c, Occ(i, w.pos)) && KeyOf(c, Occ(i, w.pos)) in WorkSeen(c, s, i, now);
    }
  }

  lemma ExecuteRecords(c: Config, s: State, o: Occ, res: Result, now: int)
    requires Recorded(c, s.seen, s.stage) && AtExecs(c, s.stage, s.back.execs) && ExecEnabled(c, s, o, res)
    ensures var s' := DoExecute(c, s, o, res, now);
            Recorded(c, s'.seen, s'.stage) && Extends(s.seen, s'.seen)
  {
    hide Recorded, AtExecs, Extends;
    var e := s.back.execs[o];
    ExtendsSelf(s.seen);
    ExecsNext(c, s.stage, s.back.execs, s.seen, o, res);
    if e.pc.Located? {
      RecordedSettle(c, s.seen, s.stage, o, e.pc.res);
    } else if ExecEnds(e) {
      RecordedMove(c, s.seen, s.stage, o, Finis);
    }
  }

  lemma ShufflesRecords(c: Config, seen: Seen, g: StageMap, g': StageMap)
    requires Recorded(c, seen, g) && Shuffles(g, g')
    ensures Recorded(c, seen, g')
  {
    hide Recorded;
    if g' != g {
      var o, y :| Shuffle(g, g', o, y);
      RecordedMove(c, seen, g, o, y);
    }
  }
}
