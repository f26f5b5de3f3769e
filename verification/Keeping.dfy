// What a run leaves in the cache: every check worth keeping is in the store by the time its
// URL's record is complete, and stays there.
module Keeping {
  import opened Model
  import opened ResultCache
  import opened Dedup
  import opened Pipeline
  import opened Stages
  import opened Jobs
  import opened Records
  import opened Fanout
  import opened Outcomes
  import opened Gauging
  import opened Safety
  import opened Termination
  import opened Runs
  import CacheRuns

  // The store has this outcome for the key, made during this run.
  ghost predicate Holds(c: Config, store: Store, clock: int, k: Key, r: Result) {
    store.enabled && CacheRuns.Lasting(r) ==>
      && k in store.entries
      && store.entries[k].state == r.state
      && store.entries[k].statusCode == r.statusCode
      && c.start <= store.entries[k].checkedAt <= clock
  }

  ghost predicate ExecHolds(c: Config, store: Store, clock: int, e: Exec) {
    e.pc.Completing? || e.pc.Located? ==> Holds(c, store, clock, e.job.key, e.pc.res)
  }

  ghost predicate RecordHolds(c: Config, store: Store, clock: int, k: Key, u: UrlState<Occ>) {
    u.done && !u.result.fromCache ==> Holds(c, store, clock, k, u.result)
  }

  ghost predicate AllHeld(c: Config, s: State) {
    && c.start <= s.clock
    && (forall o :: o in s.back.execs ==> ExecHolds(c, s.store, s.clock, s.back.execs[o]))
    && (forall k :: k in s.seen ==> RecordHolds(c, s.store, s.clock, k, s.seen[k]))
  }

  lemma HeldLater(c: Config, s: State, now: int)
    requires AllHeld(c, s) && s.clock <= now
    ensures forall o :: o in s.back.execs ==> ExecHolds(c, s.store, now, s.back.execs[o])
    ensures forall k :: k in s.seen ==> RecordHolds(c, s.store, now, k, s.seen[k])
  {
  }

  lemma PutHolds(c: Config, store: Store, k: Key, r: Result, now: int)
    requires c.start <= now
    ensures Holds(c, Record(store, k, r, now), now, k, r)
    ensures forall j, q :: j != k && Holds(c, store, now, j, q) ==> Holds(c, Record(store, k, r, now), now, j, q)
  {
  }

  // One job per key: an executor's key is nobody else's.
  lemma OwnKey(c: Config, s: State, o: Occ)
    requires Recorded(c, s.seen, s.stage) && AtExecs(c, s.stage, s.back.execs) && o in s.back.execs
    ensures s.back.execs[o].job.key in s.seen && s.seen[s.back.execs[o].job.key].origin == o && o in s.stage
    ensures s.seen[s.back.execs[o].job.key].done <==> s.stage[o].Fanned? || s.stage[o].Finis?
    ensures s.stage[o] == StageOf(s.back.execs[o])
    ensures forall p :: p in s.back.execs && p != o ==> s.back.execs[p].job.key != s.back.execs[o].job.key
  {
    OwnsExec(c, s, o);
    assert Owned(c, s.seen, s.stage, o);
    forall p | p in s.back.execs && p != o
      ensures s.back.execs[p].job.key != s.back.execs[o].job.key
    {
      OwnsExec(c, s, p);
      assert Owned(c, s.seen, s.stage, p);
    }
  }

  lemma WorkHeld(c: Config, s: State, i: nat, now: int)
    requires AllHeld(c, s) && WorkEnabled(c, s, i) && s.clock <= now
    ensures AllHeld(c, DoWork(c, s, i, now))
  {
    hide WorkFront, WorkResults, WorkServed, WorkStage, WorkSeen, Holds;
    HeldLater(c, s, now);
    WorkSeenKeeps(c, s, i, now);
  }

  // Only new records are done that were not before, and those were served from the store.
  lemma WorkSeenKeeps(c: Config, s: State, i: nat, now: int)
    requires WorkEnabled(c, s, i)
    ensures forall k :: k in WorkSeen(c, s, i, now) && WorkSeen(c, s, i, now)[k].done ==>
      if k in s.seen then WorkSeen(c, s, i, now)[k] == s.seen[k] else WorkSeen(c, s, i, now)[k].result.fromCache
  {
  }

  lemma ExecuteHeld(c: Config, s: State, o: Occ, res: Result, now: int)
    requires AllHeld(c, s) && Recorded(c, s.seen, s.stage) && AtExecs(c, s.stage, s.back.execs)
    requires ExecEnabled(c, s, o, res) && s.clock <= now
    ensures AllHeld(c, DoExecute(c, s, o, res, now))
  {
    hide Recorded, AtExecs, Holds, ExecGauges, Record;
    HeldLater(c, s, now);
    OwnKey(c, s, o);
    var e := s.back.execs[o];
    if e.pc.Storing? { PutHolds(c, s.store, e.job.key, e.pc.res, now); }
  }

  lemma QuietHeld(c: Config, s: State, st: Step)
    requires AllHeld(c, s) && Enabled(c, s, st) && !st.Work? && !st.Execute?
    ensures AllHeld(c, Apply(c, s, st))
  {
    hide MidNext, PacerNext, Woken, FrontNext, Holds, PaceCrashes, DispatchStage, PaceStage;
  }

  lemma StepHeld(c: Config, s: State, st: Step)
    requires Inv(c, s) && AllHeld(c, s) && Enabled(c, s, st)
    ensures AllHeld(c, Apply(c, s, st))
  {
    hide Flow, Recorded, AtWorkers, AtExecs, AtPacers, AtDisp, AtPoolLoop, Lists, Conserved, Gauged, Sourced, AllHeld,
         WorkEnabled, ExecEnabled, DoWork, DoExecute;
    match st
    case Work(i, now) => WorkHeld(c, s, i, now);
    case Execute(o, res, now) => ExecuteHeld(c, s, o, res, now);
    case _ => QuietHeld(c, s, st);
  }

  lemma {:induction false} RunHeld(c: Config, s: State, steps: seq<Step>, s': State)
    requires Inv(c, s) && AllHeld(c, s) && Run(c, s, steps, s')
    ensures AllHeld(c, s')
    decreases |steps|
  {
    hide Inv, AllHeld, Enabled, Apply;
    if steps != [] {
      StepHeld(c, s, steps[0]);
      InvStep(c, s, steps[0]);
      RunHeld(c, Apply(c, s, steps[0]), steps[1..], s');
    }
  }

  // In every reachable state: once the check of a URL is on record, alive with any status or
  // dead with a 4xx other than 408, 425 and 429, an enabled cache holds it, with its state,
  // its code and a time of this run.
  lemma ChecksAreKept(c: Config, s: State, k: Key)
    requires Reachable(c, s) && s.store.enabled && k in s.seen && s.seen[k].done && !s.seen[k].result.fromCache
    requires var r := s.seen[k].result;
             r.err == None && (r.state == StateAlive ||
             (r.state == StateDead && 400 <= r.statusCode <= 499 && r.statusCode != 408 && r.statusCode != 425 && r.statusCode != 429))
    ensures k in s.store.entries
    ensures s.store.entries[k].state == s.seen[k].result.state && s.store.entries[k].statusCode == s.seen[k].result.statusCode
    ensures c.start <= s.store.entries[k].checkedAt <= s.clock
  {
    hide Inv;
    var steps :| Run(c, Init(c), steps, s);
    InitInv(c);
    RunHeld(c, Init(c), steps, s);
    assert RecordHolds(c, s.store, s.clock, k, s.seen[k]);
  }
}
