// When cached results were served: each at a reading of the clock during this run at which
// its entry was younger than the time to live.
module Freshness {
  import opened Model
  import opened ResultCache
  import opened Dedup
  import opened Pipeline
  import opened Jobs
  import opened Records
  import opened Fanout
  import opened Outcomes
  import opened Gauging
  import opened Stages
  import opened Safety
  import opened Termination
  import opened Runs

  ghost predicate Young(c: Config, k: Key, at: int) {
    c.store.enabled && k in c.store.entries && at - c.store.entries[k].checkedAt < c.store.ttl
  }

  ghost predicate Served(c: Config, served: map<Key, int>, clock: int) {
    c.start <= clock && forall k :: k in served ==> c.start <= served[k] <= clock && Young(c, k, served[k])
  }

  // A record no job was made for was served.
  ghost predicate Jobless(seen: Seen, g: StageMap, served: map<Key, int>) {
    forall k :: k in seen && seen[k].origin !in g ==> k in served
  }

  ghost predicate Timely(c: Config, s: State) {
    && s.store.ttl == c.store.ttl
    && Served(c, s.served, s.clock)
    && Jobless(s.seen, s.stage, s.served)
  }

  lemma ServedLater(c: Config, served: map<Key, int>, clock: int, now: int)
    requires Served(c, served, clock) && clock <= now
    ensures Served(c, served, now)
  {
  }

  lemma ServedMore(c: Config, served: map<Key, int>, clock: int, k: Key, now: int)
    requires Served(c, served, clock) && clock <= now && Young(c, k, now)
    ensures Served(c, served[k := now], now)
  {
  }

  // Jobs are never forgotten.
  lemma StageGrows(c: Config, s: State, st: Step)
    requires Enabled(c, s, st)
    ensures forall o :: o in s.stage ==> o in Apply(c, s, st).stage
  {
    hide MidNext, PacerNext, Woken, WorkFront, WorkSeen, WorkResults, WorkServed, ExecGauges, ExecNext, FrontNext, BackNext;
  }

  lemma JoblessKept(seen: Seen, seen': Seen, g: StageMap, g': StageMap, served: map<Key, int>, served': map<Key, int>)
    requires Jobless(seen, g, served) && Extends(seen, seen') && seen'.Keys == seen.Keys
    requires (forall o :: o in g ==> o in g') && forall k :: k in served ==> k in served'
    ensures Jobless(seen', g', served')
  {
  }

  lemma LookupYoung(c: Config, s: State, k: Key, now: int)
    requires Untouched(c, s.seen, s.store) && s.store.ttl == c.store.ttl && k !in s.seen
    ensures Lookup(s.store, k, now).Some? ==> Young(c, k, now)
  {
  }

  // The worker's step under the map's lock.
  lemma LookupTimely(c: Config, s: State, i: nat, now: int)
    requires Timely(c, s) && Untouched(c, s.seen, s.store) && WorkEnabled(c, s, i) && s.clock <= now
    requires AtLookup(c, i, s.front.workers[i]) && KeyOf(c, Occ(i, s.front.workers[i].pos)) !in s.seen
    ensures Served(c, WorkServed(c, s, i, now), now)
    ensures Jobless(WorkSeen(c, s, i, now), WorkStage(c, s, i, now), WorkServed(c, s, i, now))
  {
    hide Served, Young;
    var k := KeyOf(c, Occ(i, s.front.workers[i].pos));
    LookupYoung(c, s, k, now);
    ServedLater(c, s.served, s.clock, now);
    if Lookup(s.store, k, now).Some? { ServedMore(c, s.served, s.clock, k, now); }
  }

  lemma WorkKeys(c: Config, s: State, i: nat, now: int)
    requires WorkEnabled(c, s, i)
    requires !AtLookup(c, i, s.front.workers[i]) || KeyOf(c, Occ(i, s.front.workers[i].pos)) in s.seen
    ensures WorkSeen(c, s, i, now).Keys == s.seen.Keys && WorkServed(c, s, i, now) == s.served
  {
  }

  lemma WorkTimely(c: Config, s: State, i: nat, now: int)
    requires Timely(c, s) && Inv(c, s) && Enabled(c, s, Work(i, now))
    ensures Timely(c, DoWork(c, s, i, now))
  {
    hide Flow, Conserved, Gauged, Served, Jobless, Recorded, AtWorkers, Extends, Young, WorkFront, WorkSeen, WorkStage,
         WorkServed, WorkResults, Find;
    StageGrows(c, s, Work(i, now));
    if AtLookup(c, i, s.front.workers[i]) && KeyOf(c, Occ(i, s.front.workers[i].pos)) !in s.seen {
      LookupTimely(c, s, i, now);
    } else {
      WorkRecords(c, s, i, now);
      WorkKeys(c, s, i, now);
      ServedLater(c, s.served, s.clock, now);
      JoblessKept(s.seen, WorkSeen(c, s, i, now), s.stage, WorkStage(c, s, i, now), s.served, s.served);
    }
  }

  lemma ExecuteColumns(c: Config, s: State, o: Occ, res: Result, now: int)
    requires ExecEnabled(c, s, o, res)
    ensures var s' := DoExecute(c, s, o, res, now);
            s'.seen.Keys == s.seen.Keys && s'.store.ttl == s.store.ttl && s'.clock == now && s'.served == s.served
  {
    hide ExecNext, ExecGauges;
  }

  lemma ExecuteTimely(c: Config, s: State, o: Occ, res: Result, now: int)
    requires Timely(c, s) && Inv(c, s) && Enabled(c, s, Execute(o, res, now))
    ensures Timely(c, DoExecute(c, s, o, res, now))
  {
    hide Flow, Conserved, Gauged, Served, Jobless, Recorded, AtExecs, Extends, Young, DoExecute, Sourced;
    ExecuteColumns(c, s, o, res, now);
    StageGrows(c, s, Execute(o, res, now));
    ExecuteRecords(c, s, o, res, now);
    ServedLater(c, s.served, s.clock, now);
    var s' := DoExecute(c, s, o, res, now);
    JoblessKept(s.seen, s'.seen, s.stage, s'.stage, s.served, s.served);
  }

  lemma QuietColumns(c: Config, s: State, st: Step)
    requires Enabled(c, s, st) && !st.Work? && !st.Execute?
    ensures var s' := Apply(c, s, st);
            s'.store == s.store && s'.served == s.served && s'.clock == s.clock && s'.seen == s.seen
  {
    hide MidNext, PacerNext, Woken, FrontNext, BackNext, DispatchStage, PaceStage, PaceCrashes;
  }

  lemma TimelyStep(c: Config, s: State, st: Step)
    requires Timely(c, s) && Inv(c, s) && Enabled(c, s, st)
    ensures Timely(c, Apply(c, s, st))
  {
    hide Inv, Served, Jobless, Extends, DoWork, DoExecute;
    match st
    case Work(i, now) => WorkTimely(c, s, i, now);
    case Execute(o, res, now) => ExecuteTimely(c, s, o, res, now);
    case _ =>
      hide Apply, Enabled;
      QuietColumns(c, s, st);
      StageGrows(c, s, st);
      ExtendsSelf(s.seen);
      JoblessKept(s.seen, s.seen, s.stage, Apply(c, s, st).stage, s.served, s.served);
  }

  lemma {:induction false} RunTimely(c: Config, s: State, steps: seq<Step>, s': State)
    requires Timely(c, s) && Inv(c, s) && Run(c, s, steps, s')
    ensures Timely(c, s')
    decreases |steps|
  {
    hide Inv, Timely, Enabled, Apply;
    if steps != [] {
      TimelyStep(c, s, steps[0]);
      InvStep(c, s, steps[0]);
      RunTimely(c, Apply(c, s, steps[0]), steps[1..], s');
    }
  }

  lemma ReachableTimely(c: Config, s: State)
    requires Reachable(c, s)
    ensures Timely(c, s)
  {
    hide Inv;
    var steps :| Run(c, Init(c), steps, s);
    InitInv(c);
    RunTimely(c, Init(c), steps, s);
  }
}
