// Conservation of occurrences: every occurrence a worker has reached is in exactly one
// place: between the two lock sections of add, held in its URL's record, in the hands of
// the executor that is fanning the result out, or emitted.
module Fanout {
  import opened Model
  import opened ResultCache
  import opened Dedup
  import opened Pipeline
  import opened Jobs
  import opened Records

  function Times(rs: seq<Emission>, o: Occ): nat {
    if rs == [] then 0 else Times(rs[..|rs| - 1], o) + if rs[|rs| - 1].occ == o then 1 else 0
  }

  lemma TimesSnoc(rs: seq<Emission>, e: Emission, o: Occ)
    ensures Times(rs + [e], o) == Times(rs, o) + if e.occ == o then 1 else 0
  {
    assert (rs + [e])[..|rs|] == rs;
  }

  // A worker has started on the link.
  predicate Reached(f: Front, o: Occ) {
    || o.src in f.parsed
    || (o.src in f.workers && (f.workers[o.src].pos > o.pos || (f.workers[o.src].pos == o.pos && !f.workers[o.src].pc.AtLink?)))
  }

  // In the hands of its worker, neither recorded nor emitted.
  function Carrying(f: Front, o: Occ): nat {
    if o.src in f.workers && f.workers[o.src].pos == o.pos && (f.workers[o.src].pc.InGap? || f.workers[o.src].pc.Emitting?)
    then 1 else 0
  }

  function Held(c: Config, seen: Seen, o: Occ): nat {
    if IsNet(c, o) && KeyOf(c, o) in seen then multiset(seen[KeyOf(c, o)].occs)[o] else 0
  }

  function InFanout(c: Config, seen: Seen, execs: map<Occ, Exec>, o: Occ): nat {
    if IsNet(c, o) && KeyOf(c, o) in seen && seen[KeyOf(c, o)].origin in execs &&
       execs[seen[KeyOf(c, o)].origin].pc.Fanning?
    then multiset(execs[seen[KeyOf(c, o)].origin].pc.rest)[o] else 0
  }

  function Copies(c: Config, s: State, o: Occ): nat {
    Carrying(s.front, o) + Held(c, s.seen, o) + InFanout(c, s.seen, s.back.execs, o) + Times(s.results, o)
  }

  ghost predicate Conserved(c: Config, s: State) {
    forall o :: Valid(c, o) ==> Copies(c, s, o) == if Reached(s.front, o) then 1 else 0
  }

  // The list an executor is working through is the record's own.
  ghost predicate FanSound(c: Config, seen: Seen, o: Occ, e: Exec) {
    e.pc.Fanning? ==>
      && e.job.key in seen
      && seen[e.job.key].done
      && seen[e.job.key].result == e.pc.res
      && (forall p :: p in e.pc.rest ==> IsNet(c, p) && KeyOf(c, p) == e.job.key)
      && (if e.pc.first then e.pc.rest != [] && e.pc.rest[0] == o && o !in e.pc.rest[1..] else o !in e.pc.rest)
  }

  ghost predicate Fans(c: Config, seen: Seen, execs: map<Occ, Exec>) {
    forall o :: o in execs ==> FanSound(c, seen, o, execs[o])
  }

  lemma InitConserved(c: Config)
    ensures Conserved(c, Init(c))
  {
  }

  // ---------------------------------------------------------------- parse workers

  predicate Records1(c: Config, s: State, i: nat, now: int)
    requires WorkEnabled(c, s, i)
  {
    var w := s.front.workers[i];
    var p := Occ(i, w.pos);
    || (AtLookup(c, i, w) && Find(c, s.seen, s.store, p, now).Miss?)
    || (w.pc.InGap? && KeyOf(c, p) in s.seen && !s.seen[KeyOf(c, p)].done)
  }

  predicate Emits1(c: Config, s: State, i: nat)
    requires WorkEnabled(c, s, i)
  {
    AtSettled(c, i, s.front.workers[i]) || s.front.workers[i].pc.Emitting?
  }

  // The step only concerns the occurrence the worker is at.
  lemma FrontOther(c: Config, s: State, i: nat, now: int, o: Occ)
    requires WorkEnabled(c, s, i) && i !in s.front.parsed && Valid(c, o) && o != Occ(i, s.front.workers[i].pos)
    ensures Carrying(WorkFront(c, s, i, now), o) == Carrying(s.front, o)
    ensures Reached(WorkFront(c, s, i, now), o) == Reached(s.front, o)
  {
  }

  lemma FrontSelf(c: Config, s: State, i: nat, now: int)
    requires GapsKnown(c, s.seen, s.front.workers)
    requires WorkEnabled(c, s, i) && i !in s.front.parsed && !AtEnd(c, i, s.front.workers[i])
    ensures var w := s.front.workers[i];
            var p := Occ(i, w.pos);
            && Reached(WorkFront(c, s, i, now), p)
            && (Reached(s.front, p) <==> !w.pc.AtLink?)
            && (w.pc.AtLink? ==> Carrying(s.front, p) == 0)
            && Carrying(WorkFront(c, s, i, now), p)
               == Carrying(s.front, p) + (if w.pc.AtLink? then 1 else 0)
                  - (if Records1(c, s, i, now) then 1 else 0) - (if Emits1(c, s, i) then 1 else 0)
  {
  }

  lemma ResultsWork(c: Config, s: State, i: nat, o: Occ)
    requires WorkEnabled(c, s, i)
    ensures Times(WorkResults(c, s, i), o)
            == Times(s.results, o) + if o == Occ(i, s.front.workers[i].pos) && Emits1(c, s, i) then 1 else 0
  {
    var w := s.front.workers[i];
    var p := Occ(i, w.pos);
    if AtSettled(c, i, w) {
      TimesSnoc(s.results, Emission(p, Verdict(c.sources[i][w.pos])), o);
    } else if w.pc.Emitting? {
      TimesSnoc(s.results, Emission(p, w.pc.res), o);
    }
  }

  lemma NoExecYet(c: Config, s: State, p: Occ)
    requires Recorded(c, s.seen, s.stage) && AtExecs(c, s.stage, s.back.execs)
    requires IsNet(c, p) && KeyOf(c, p) !in s.seen
    ensures p !in s.stage && p !in s.back.execs
  {
  }

  // A new record holds its first occurrence, or, on a hit, leaves it with the worker.
  lemma RegisterCounts(c: Config, seen: Seen, execs: map<Occ, Exec>, p: Occ, hit: Option<Result>, o: Occ)
    requires IsNet(c, p) && KeyOf(c, p) !in seen && p !in execs
    ensures var seen' := Register(seen, KeyOf(c, p), p, hit, Blank(TargetOf(c, p)));
            && Held(c, seen', o) == Held(c, seen, o) + (if o == p && hit.None? then 1 else 0)
            && InFanout(c, seen', execs, o) == InFanout(c, seen, execs, o)
  {
  }

  // A later occurrence joins the record while it is open.
  lemma JoinCounts(c: Config, seen: Seen, execs: map<Occ, Exec>, p: Occ, o: Occ)
    requires IsNet(c, p) && KeyOf(c, p) in seen
    ensures var seen' := Join(seen, KeyOf(c, p), p);
            && Held(c, seen', o) == Held(c, seen, o) + (if o == p && !seen[KeyOf(c, p)].done then 1 else 0)
            && InFanout(c, seen', execs, o) == InFanout(c, seen, execs, o)
  {
  }

  lemma SeenWork(c: Config, s: State, i: nat, now: int, o: Occ)
    requires Recorded(c, s.seen, s.stage) && AtExecs(c, s.stage, s.back.execs) && WorkEnabled(c, s, i)
    ensures Held(c, WorkSeen(c, s, i, now), o)
            == Held(c, s.seen, o) + if o == Occ(i, s.front.workers[i].pos) && Records1(c, s, i, now) then 1 else 0
    ensures InFanout(c, WorkSeen(c, s, i, now), s.back.execs, o) == InFanout(c, s.seen, s.back.execs, o)
  {
    hide Recorded, AtExecs, Held, InFanout, Register, Join;
    var w := s.front.workers[i];
    var p := Occ(i, w.pos);
    if AtLookup(c, i, w) && KeyOf(c, p) !in s.seen {
      NoExecYet(c, s, p);
      match Find(c, s.seen, s.store, p, now)
      case Hit(e) => RegisterCounts(c, s.seen, s.back.execs, p, Some(FromEntry(c, p, e)), o);
      case Miss => RegisterCounts(c, s.seen, s.back.execs, p, None, o);
    } else if w.pc.InGap? && KeyOf(c, p) in s.seen {
      JoinCounts(c, s.seen, s.back.execs, p, o);
    }
  }

  lemma WorkCopies(c: Config, s: State, i: nat, now: int, o: Occ)
    requires Recorded(c, s.seen, s.stage) && AtExecs(c, s.stage, s.back.execs)
    requires GapsKnown(c, s.seen, s.front.workers)
    requires WorkEnabled(c, s, i) && i !in s.front.parsed && Valid(c, o)
    requires Copies(c, s, o) == if Reached(s.front, o) then 1 else 0
    ensures Copies(c, DoWork(c, s, i, now), o) == if Reached(WorkFront(c, s, i, now), o) then 1 else 0
  {
    SeenWork(c, s, i, now, o);
    ResultsWork(c, s, i, o);
    if o == Occ(i, s.front.workers[i].pos) {
      FrontSelf(c, s, i, now);
    } else {
      FrontOther(c, s, i, now, o);
    }
    hide Recorded, AtExecs, GapsKnown, WorkSeen, WorkResults, WorkFront, WorkStage, Carrying, Held, InFanout, Times, Reached;
  }

  // ---------------------------------------------------------------- executors

  // complete hands the record's occurrences to the executor.
  lemma SettleCopies(c: Config, seen: Seen, execs: map<Occ, Exec>, o: Occ, r: Result, res: Result, p: Occ)
    requires o in execs && execs[o].pc == ExecPc.Located(r) && IsNet(c, o) && execs[o].job.key == KeyOf(c, o)
    requires KeyOf(c, o) in seen && seen[KeyOf(c, o)].origin == o
    requires forall k :: k in seen ==> IsNet(c, seen[k].origin) && KeyOf(c, seen[k].origin) == k
    ensures var seen', execs' := Settle(seen, KeyOf(c, o), r), execs[o := ExecNext(execs[o], seen, res)];
            Held(c, seen', p) + InFanout(c, seen', execs', p) == Held(c, seen, p) + InFanout(c, seen, execs, p)
  {
  }

  lemma FanCopies(c: Config, seen: Seen, execs: map<Occ, Exec>, o: Occ, res: Result, p: Occ)
    requires o in execs && ExecEmits(execs[o]) && FanSound(c, seen, o, execs[o])
    requires execs[o].job.key in seen && seen[execs[o].job.key].origin == o
    requires forall k :: k in seen ==> IsNet(c, seen[k].origin) && KeyOf(c, seen[k].origin) == k
    ensures InFanout(c, seen, execs, p)
            == InFanout(c, seen, execs[o := ExecNext(execs[o], seen, res)], p) + if p == execs[o].pc.rest[0] then 1 else 0
  {
    var rest := execs[o].pc.rest;
    assert rest == [rest[0]] + rest[1..];
  }

  // The steps before complete, and the end of the fan-out, hold nothing.
  lemma QuietCopies(c: Config, seen: Seen, execs: map<Occ, Exec>, o: Occ, res: Result, p: Occ)
    requires o in execs && !execs[o].pc.Located? && !ExecEmits(execs[o])
    ensures ExecEnds(execs[o]) ==> InFanout(c, seen, execs - {o}, p) == InFanout(c, seen, execs, p)
    ensures !ExecEnds(execs[o]) ==>
              InFanout(c, seen, execs[o := ExecNext(execs[o], seen, res)], p) == InFanout(c, seen, execs, p)
  {
  }

  lemma ExecuteCopies(c: Config, s: State, o: Occ, res: Result, now: int, p: Occ)
    requires Recorded(c, s.seen, s.stage) && AtExecs(c, s.stage, s.back.execs) && Fans(c, s.seen, s.back.execs)
    requires ExecEnabled(c, s, o, res)
    ensures Copies(c, DoExecute(c, s, o, res, now), p) == Copies(c, s, p)
  {
    hide Recorded, AtExecs, Carrying, Held, InFanout, Times, Settle, ExecNext;
    var e := s.back.execs[o];
    OwnsExec(c, s, o);
    if e.pc.Located? {
      SettleCopies(c, s.seen, s.back.execs, o, e.pc.res, res, p);
    } else if ExecEmits(e) {
      FanCopies(c, s.seen, s.back.execs, o, res, p);
      TimesSnoc(s.results, ExecEmission(c, e), p);
    } else {
      QuietCopies(c, s.seen, s.back.execs, o, res, p);
    }
  }

  lemma OwnsExec(c: Config, s: State, o: Occ)
    requires Recorded(c, s.seen, s.stage) && AtExecs(c, s.stage, s.back.execs) && o in s.back.execs
    ensures IsNet(c, o) && s.back.execs[o].job == JobOf(c, o) && KeyOf(c, o) in s.seen
    ensures s.seen[KeyOf(c, o)].origin == o
    ensures s.seen[KeyOf(c, o)].done <==> s.back.execs[o].pc.Fanning?
    ensures forall k :: k in s.seen ==> IsNet(c, s.seen[k].origin) && KeyOf(c, s.seen[k].origin) == k
  {
  }

  lemma SpawnCopies(c: Config, seen: Seen, execs: map<Occ, Exec>, o: Occ, job: Job, p: Occ)
    requires o !in execs
    ensures InFanout(c, seen, execs[o := Exec(job, Begun)], p) == InFanout(c, seen, execs, p)
  {
  }
}
