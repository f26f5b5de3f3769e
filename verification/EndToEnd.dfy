// The pipeline, the checker and the cache together: in a run whose checks are the checker's
// own, under one policy, every result reported and every entry kept obeys that policy,
// whichever way it came: a fresh check, a shared one, or a file an earlier run saved.
module EndToEnd {
  import opened Model
  import opened ResultCache
  import opened Dedup
  import opened Pipeline
  import opened Fanout
  import opened Outcomes
  import opened Gauging
  import opened Jobs
  import opened Records
  import opened Stages
  import opened Safety
  import opened Termination
  import opened Runs
  import CacheRuns
  import Guarantees
  import Retry
  import RetryLaws

  function PolicyOf(cfg: Retry.Config, rest: string): CacheRuns.Policy {
    CacheRuns.Policy(cfg.alive, rest)
  }

  // What an executor's check brings in is what the checker makes of some outcomes. The
  // checker reads its own host off the URL, port included.
  ghost predicate Genuine(c: Config, cfg: Retry.Config, s: State, st: Step) {
    st.Execute? && st.occ in s.back.execs && s.back.execs[st.occ].pc.Checking? && IsNet(c, st.occ) ==>
      exists authority, env :: st.res == Retry.Check(cfg, TargetOf(c, st.occ), authority, env).result
  }

  ghost predicate CheckedRun(c: Config, cfg: Retry.Config, s: State, steps: seq<Step>, s': State)
    decreases |steps|
  {
    if steps == [] then s' == s
    else Enabled(c, s, steps[0]) && Genuine(c, cfg, s, steps[0]) && CheckedRun(c, cfg, Apply(c, s, steps[0]), steps[1..], s')
  }

  // What a policy allows a check, an entry and a reported link to say.
  predicate Obeys(p: CacheRuns.Policy, state: LinkState, code: int) {
    match state
    case StateAlive => code in p.alive
    case StateDead => code == 0 || code !in p.alive
    case _ => false
  }

  ghost predicate StoreObeys(p: CacheRuns.Policy, st: Store) {
    forall k :: k in st.entries ==> Obeys(p, st.entries[k].state, st.entries[k].statusCode)
  }

  predicate ResultObeys(p: CacheRuns.Policy, r: Result) {
    if r.err.Some? then r.state.StateError? else Obeys(p, r.state, r.statusCode)
  }

  predicate ExecObeys(p: CacheRuns.Policy, e: Exec) {
    e.pc.Checked? || e.pc.Storing? || e.pc.Completing? || e.pc.Located? ==> ResultObeys(p, e.pc.res)
  }

  // A record's outcome may be an error only when its check was interrupted.
  predicate RecordObeys(p: CacheRuns.Policy, u: UrlState<Occ>) {
    u.done ==> ResultObeys(p, u.result)
  }

  ghost predicate AllObey(p: CacheRuns.Policy, s: State) {
    && StoreObeys(p, s.store)
    && (forall o :: o in s.back.execs ==> ExecObeys(p, s.back.execs[o]))
    && (forall k :: k in s.seen ==> RecordObeys(p, s.seen[k]))
  }

  // ---------------------------------------------------------------- every step

  lemma CheckObeys(cfg: Retry.Config, rest: string, t: Target, host: string, env: Retry.Env)
    ensures ResultObeys(PolicyOf(cfg, rest), Retry.Check(cfg, t, host, env).result)
  {
    hide Retry.Check;
    RetryLaws.CheckRespectsPolicy(cfg, rest, t, host, env);
  }

  lemma WorkObeys(c: Config, p: CacheRuns.Policy, s: State, i: nat, now: int)
    requires WorkEnabled(c, s, i) && AllObey(p, s)
    ensures AllObey(p, DoWork(c, s, i, now))
  {
    hide WorkFront, WorkResults, WorkStage;
  }

  lemma SettleObeys(p: CacheRuns.Policy, seen: Seen, key: Key, res: Result)
    requires key in seen && ResultObeys(p, res) && forall k :: k in seen ==> RecordObeys(p, seen[k])
    ensures Settle(seen, key, res).Keys == seen.Keys
    ensures forall k :: k in seen ==> RecordObeys(p, Settle(seen, key, res)[k])
  {
  }

  lemma RecordedObeys(p: CacheRuns.Policy, st: Store, key: Key, res: Result, now: int)
    requires StoreObeys(p, st) && ResultObeys(p, res)
    ensures StoreObeys(p, Record(st, key, res, now))
  {
  }

  lemma ExecuteObeys(c: Config, cfg: Retry.Config, rest: string, s: State, o: Occ, res: Result, now: int)
    requires ExecEnabled(c, s, o, res) && AllObey(PolicyOf(cfg, rest), s) && Genuine(c, cfg, s, Execute(o, res, now))
    ensures AllObey(PolicyOf(cfg, rest), DoExecute(c, s, o, res, now))
  {
    hide Retry.Check, ResultObeys, DoExecute, ExecNext, StoreObeys, RecordObeys, Settle, Record;
    var p, e := PolicyOf(cfg, rest), s.back.execs[o];
    if e.pc.Checking? {
      var authority, env :| res == Retry.Check(cfg, TargetOf(c, o), authority, env).result;
      CheckObeys(cfg, rest, TargetOf(c, o), authority, env);
    }
    ExecNextObeys(p, e, s.seen, res);
    ExecuteColumns(c, s, o, res, now);
    if e.pc.Storing? { RecordedObeys(p, s.store, e.job.key, e.pc.res, now); }
    if e.pc.Located? && e.job.key in s.seen { SettleObeys(p, s.seen, e.job.key, e.pc.res); }
  }

  lemma ExecNextObeys(p: CacheRuns.Policy, e: Exec, seen: Seen, res: Result)
    requires ExecObeys(p, e) && (e.pc.Checking? ==> ResultObeys(p, res))
    ensures ExecObeys(p, ExecNext(e, seen, res))
  {
  }

  lemma ExecuteColumns(c: Config, s: State, o: Occ, res: Result, now: int)
    requires ExecEnabled(c, s, o, res)
    ensures var s', e := DoExecute(c, s, o, res, now), s.back.execs[o];
            && s'.back.execs == (if ExecEnds(e) then s.back.execs - {o} else s.back.execs[o := ExecNext(e, s.seen, res)])
            && s'.store == (if e.pc.Storing? then Record(s.store, e.job.key, e.pc.res, now) else s.store)
            && s'.seen == (if e.pc.Located? && e.job.key in s.seen then Settle(s.seen, e.job.key, e.pc.res) else s.seen)
  {
    hide ExecNext, ExecGauges, Record, Settle;
  }

  lemma StepObeys(c: Config, cfg: Retry.Config, rest: string, s: State, st: Step)
    requires Enabled(c, s, st) && AllObey(PolicyOf(cfg, rest), s) && Genuine(c, cfg, s, st)
    ensures AllObey(PolicyOf(cfg, rest), Apply(c, s, st))
  {
    hide Genuine, ExecObeys, RecordObeys, StoreObeys, WorkEnabled, ExecEnabled;
    match st
    case Work(i, now) => WorkObeys(c, PolicyOf(cfg, rest), s, i, now);
    case Execute(o, res, now) => ExecuteObeys(c, cfg, rest, s, o, res, now);
    case BackStep(op) => BackObeys(c, PolicyOf(cfg, rest), s, op);
    case _ =>
  }

  lemma BackObeys(c: Config, p: CacheRuns.Policy, s: State, op: BackOp)
    requires BackEnabled(c, s.back, op) && AllObey(p, s)
    ensures AllObey(p, DoBack(c, s, op))
  {
    hide RecordObeys, StoreObeys;
  }

  lemma {:induction false} RunObeys(c: Config, cfg: Retry.Config, rest: string, s: State, steps: seq<Step>, s': State)
    requires CheckedRun(c, cfg, s, steps, s') && AllObey(PolicyOf(cfg, rest), s)
    ensures AllObey(PolicyOf(cfg, rest), s') && Run(c, s, steps, s')
    decreases |steps|
  {
    hide AllObey, Enabled, Apply, Genuine;
    if steps != [] {
      StepObeys(c, cfg, rest, s, steps[0]);
      RunObeys(c, cfg, rest, Apply(c, s, steps[0]), steps[1..], s');
    }
  }

  // ---------------------------------------------------------------- the theorems

  // What any number of earlier runs left in the file obeys the policy of the run that loads
  // it.
  lemma LoadedStoreObeys(digest: CacheRuns.Policy -> string, w: CacheRuns.World)
    requires CacheRuns.Injective(digest) && CacheRuns.Reachable(digest, w) && w.run.Some?
    ensures StoreObeys(w.run.value.policy, w.run.value.store)
  {
    CacheRuns.ReachableSound(digest, w);
    var live := w.run.value;
    forall k | k in live.store.entries
      ensures Obeys(live.policy, live.store.entries[k].state, live.store.entries[k].statusCode)
    {
      CacheRuns.LastCheckMember(live.visible, k);
      assert CacheRuns.LastCheck(live.visible, k).Some?;
    }
  }

  // In any state of a run that started from such a store, every result reported for a
  // network link obeys the policy: alive only with a status the policy calls alive, dead
  // only with none or another. Only a link whose check was interrupted is an error.
  lemma ReportObeysPolicy(c: Config, cfg: Retry.Config, rest: string, steps: seq<Step>, s: State, i: nat)
    requires CheckedRun(c, cfg, Init(c), steps, s) && StoreObeys(PolicyOf(cfg, rest), c.store)
    requires i < |s.results| && IsNet(c, s.results[i].occ)
    ensures
      var r := s.results[i].res;
      || (r.state == StateAlive && r.statusCode in cfg.alive)
      || (r.state == StateDead && (r.statusCode == 0 || r.statusCode !in cfg.alive))
      || (r.state == StateError && !r.fromCache)
    ensures StoreObeys(PolicyOf(cfg, rest), s.store)
  {
    hide Inv, CheckedRun, Apply, Enabled, Init, StoreObeys;
    InitObeys(c, PolicyOf(cfg, rest));
    RunObeys(c, cfg, rest, Init(c), steps, s);
    ReachableReported(c, steps, s, i);
    assert EmissionSound(c, s.seen, s.results[i]);
    assert RecordObeys(PolicyOf(cfg, rest), s.seen[KeyOf(c, s.results[i].occ)]);
    if s.results[i].res.fromCache { CachedIsNoError(c, PolicyOf(cfg, rest), steps, s, i); }
  }

  lemma InitObeys(c: Config, p: CacheRuns.Policy)
    requires StoreObeys(p, c.store)
    ensures AllObey(p, Init(c))
  {
  }

  lemma ReachableReported(c: Config, steps: seq<Step>, s: State, i: nat)
    requires Run(c, Init(c), steps, s) && i < |s.results|
    ensures EmissionSound(c, s.seen, s.results[i])
  {
    hide Run, Flow, Tracked, Recorded, Conserved, Gauged, Sourced;
    assert Reachable(c, s);
    ReachableInv(c, s);
  }

  lemma CachedIsNoError(c: Config, p: CacheRuns.Policy, steps: seq<Step>, s: State, i: nat)
    requires Run(c, Init(c), steps, s) && i < |s.results| && s.results[i].res.fromCache && StoreObeys(p, c.store)
    ensures Obeys(p, s.results[i].res.state, s.results[i].res.statusCode)
  {
    hide Run, Inv, Obeys;
    assert Reachable(c, s);
    Guarantees.CacheProvenance(c, s, i);
  }

  // ---------------------------------------------------------------- what was checked

  // A check of the link at o returned this.
  ghost predicate Returned(c: Config, cfg: Retry.Config, o: Occ, res: Result) {
    IsNet(c, o) && exists authority, env :: res == Retry.Check(cfg, TargetOf(c, o), authority, env).result
  }

  ghost predicate ExecReturned(c: Config, cfg: Retry.Config, o: Occ, e: Exec) {
    e.pc.Checked? || e.pc.Storing? || e.pc.Completing? || e.pc.Located? ==> Returned(c, cfg, o, e.pc.res)
  }

  ghost predicate RecordReturned(c: Config, cfg: Retry.Config, u: UrlState<Occ>) {
    u.done && !u.result.fromCache ==> Returned(c, cfg, u.origin, u.result)
  }

  ghost predicate AllReturned(c: Config, cfg: Retry.Config, s: State) {
    && (forall o :: o in s.back.execs ==> ExecReturned(c, cfg, o, s.back.execs[o]))
    && (forall k :: k in s.seen ==> RecordReturned(c, cfg, s.seen[k]))
  }

  lemma HitIsCached(c: Config, o: Occ, e: Entry)
    requires IsNet(c, o)
    ensures FromEntry(c, o, e).fromCache
  {
  }

  lemma WorkReturned(c: Config, cfg: Retry.Config, s: State, i: nat, now: int)
    requires WorkEnabled(c, s, i) && AllReturned(c, cfg, s)
    ensures AllReturned(c, cfg, DoWork(c, s, i, now))
  {
    hide WorkFront, WorkResults, WorkStage, WorkServed, Returned;
  }

  lemma ExecNextReturned(c: Config, cfg: Retry.Config, s: State, o: Occ, res: Result, now: int)
    requires ExecEnabled(c, s, o, res) && ExecReturned(c, cfg, o, s.back.execs[o]) && Genuine(c, cfg, s, Execute(o, res, now))
    ensures ExecReturned(c, cfg, o, ExecNext(s.back.execs[o], s.seen, res))
  {
    hide Retry.Check;
  }

  lemma ExecuteReturned(c: Config, cfg: Retry.Config, s: State, o: Occ, res: Result, now: int)
    requires Inv(c, s) && ExecEnabled(c, s, o, res) && AllReturned(c, cfg, s) && Genuine(c, cfg, s, Execute(o, res, now))
    ensures AllReturned(c, cfg, DoExecute(c, s, o, res, now))
  {
    hide Flow, Conserved, Gauged, Sourced, DoExecute, ExecNext, Recorded, AtExecs, Genuine, Returned;
    OriginExecutes(c, s, o);
    ExecNextReturned(c, cfg, s, o, res, now);
    ExecuteColumns(c, s, o, res, now);
  }

  lemma OriginExecutes(c: Config, s: State, o: Occ)
    requires Recorded(c, s.seen, s.stage) && AtExecs(c, s.stage, s.back.execs) && o in s.back.execs
    ensures s.back.execs[o].job.key in s.seen && s.seen[s.back.execs[o].job.key].origin == o
  {
    OwnsExec(c, s, o);
    assert Owned(c, s.seen, s.stage, o);
  }

  lemma StepReturned(c: Config, cfg: Retry.Config, s: State, st: Step)
    requires Inv(c, s) && Enabled(c, s, st) && AllReturned(c, cfg, s) && Genuine(c, cfg, s, st)
    ensures AllReturned(c, cfg, Apply(c, s, st))
  {
    hide Inv, Genuine, RecordReturned, Returned, WorkEnabled, ExecEnabled;
    match st
    case Work(i, now) => WorkReturned(c, cfg, s, i, now);
    case Execute(o, res, now) => ExecuteReturned(c, cfg, s, o, res, now);
    case _ =>
  }

  lemma {:induction false} RunReturned(c: Config, cfg: Retry.Config, s: State, steps: seq<Step>, s': State)
    requires Inv(c, s) && CheckedRun(c, cfg, s, steps, s') && AllReturned(c, cfg, s)
    ensures AllReturned(c, cfg, s') && Run(c, s, steps, s')
    decreases |steps|
  {
    hide Inv, AllReturned, Enabled, Apply, Genuine;
    if steps != [] {
      StepReturned(c, cfg, s, steps[0]);
      InvStep(c, s, steps[0]);
      RunReturned(c, cfg, Apply(c, s, steps[0]), steps[1..], s');
    }
  }

  // What a check that was not stopped says of its link.
  ghost predicate Says(cfg: Retry.Config, env: Retry.Env, k: Retry.Checked, r: Result)
    requires k.attempts >= 1
  {
    var last := env.ev(k.attempts - 1);
    if last.cancelled || RetryLaws.CutShort(k) || (!last.out.Response? && RetryLaws.Late(k, env)) then
      r.state == StateError && r.statusCode == 0
    else if last.out.Response? then
      r.statusCode == last.out.code && r.state == if last.out.code in cfg.alive then StateAlive else StateDead
    else
      r.state == StateDead && r.statusCode == 0
  }

  // From the wire to the report: a network link whose result was not cached is reported with
  // the outcome of one check of its URL. When a request could be made, that check's last
  // attempt is what the report says: a status in the policy is reported alive with that
  // status, any other dead with it, no answer dead with none, and only a stopped check as an
  // error.
  lemma ReportSaysTheLastAttempt(c: Config, cfg: Retry.Config, steps: seq<Step>, s: State, i: nat)
    requires CheckedRun(c, cfg, Init(c), steps, s)
    requires i < |s.results| && IsNet(c, s.results[i].occ) && !s.results[i].res.fromCache
    ensures KeyOf(c, s.results[i].occ) in s.seen
    ensures var r, o := s.results[i].res, s.seen[KeyOf(c, s.results[i].occ)].origin;
            && r.target == TargetOf(c, s.results[i].occ)
            && IsNet(c, o) && KeyOf(c, o) == KeyOf(c, s.results[i].occ)
            && exists authority, env ::
                 var k := Retry.Check(cfg, TargetOf(c, o), authority, env);
                 && r.state == k.result.state && r.statusCode == k.result.statusCode
                 && r.detail == k.result.detail && r.host == k.result.host == authority
                 && (!env.badUrl ==> k.attempts >= 1 && Says(cfg, env, k, r))
  {
    hide Inv, CheckedRun, Apply, Enabled, Init, Retry.Check, Run, Says;
    StartsReturned(c, cfg);
    InitInv(c);
    RunReturned(c, cfg, Init(c), steps, s);
    assert Reachable(c, s);
    Guarantees.ReportsTheRecord(c, s, i);
    var k := KeyOf(c, s.results[i].occ);
    RecordOfOrigin(c, s, k);
    assert RecordReturned(c, cfg, s.seen[k]);
    var o := s.seen[k].origin;
    var authority, env :| s.seen[k].result == Retry.Check(cfg, TargetOf(c, o), authority, env).result;
    CheckSays(cfg, TargetOf(c, o), authority, env, s.results[i].res);
  }

  lemma StartsReturned(c: Config, cfg: Retry.Config)
    ensures AllReturned(c, cfg, Init(c))
  {
  }

  lemma RecordOfOrigin(c: Config, s: State, k: Key)
    requires Reachable(c, s) && k in s.seen
    ensures IsNet(c, s.seen[k].origin) && KeyOf(c, s.seen[k].origin) == k
  {
    hide Reachable, Flow, Tracked, Conserved, Gauged, Sourced, Reported;
    ReachableInv(c, s);
    assert RecordSound(c, s.stage, k, s.seen[k]);
  }

  lemma CheckSays(cfg: Retry.Config, t: Target, authority: string, env: Retry.Env, r: Result)
    requires var k := Retry.Check(cfg, t, authority, env).result; r.state == k.state && r.statusCode == k.statusCode
    ensures var k := Retry.Check(cfg, t, authority, env);
            && k.result.host == authority
            && (!env.badUrl ==> k.attempts >= 1 && Says(cfg, env, k, r))
  {
    hide Retry.Check, CacheRuns.RealCheck;
    RetryLaws.CheckRespectsPolicy(cfg, "", t, authority, env);
    if !env.badUrl { RetryLaws.LastAttemptDecides(cfg, t, authority, env); }
  }

  // ---------------------------------------------------------------- runs of the cache

  // The run loaded its store from the file as some earlier runs left it.
  ghost predicate StartsFrom(digest: CacheRuns.Policy -> string, w: CacheRuns.World, c: Config) {
    && CacheRuns.Injective(digest) && CacheRuns.Reachable(digest, w)
    && w.run.Some? && w.run.value.store == c.store && w.clock == c.start
  }

  lemma {:induction false} HappensLater(digest: CacheRuns.Policy -> string, w: CacheRuns.World,
                                        a: seq<CacheRuns.Event>, m: CacheRuns.World, b: seq<CacheRuns.Event>, e: CacheRuns.World)
    requires CacheRuns.Happens(digest, w, a, m) && CacheRuns.Happens(digest, m, b, e)
    ensures CacheRuns.Happens(digest, w, a + b, e)
    decreases |a|
  {
    hide CacheRuns.Step, CacheRuns.Allowed;
    if a == [] {
      assert a + b == b;
    } else {
      HappensLater(digest, CacheRuns.Step(digest, w, a[0]), a[1..], m, b, e);
      assert (a + b)[0] == a[0] && (a + b)[1..] == a[1..] + b;
    }
  }

  lemma ReachableLater(digest: CacheRuns.Policy -> string, w: CacheRuns.World, events: seq<CacheRuns.Event>, w': CacheRuns.World)
    requires CacheRuns.Reachable(digest, w) && CacheRuns.Happens(digest, w, events, w')
    ensures CacheRuns.Reachable(digest, w')
  {
    hide CacheRuns.Happens;
    var w0, before :| CacheRuns.Fresh(w0) && CacheRuns.Happens(digest, w0, before, w);
    HappensLater(digest, w0, before, w, events, w');
  }

  // A result marked FromCache repeats a real check of its URL by some earlier run under the
  // same policy, made less than the time to live before it was served.
  lemma CachedIsRecentCheck(digest: CacheRuns.Policy -> string, w: CacheRuns.World, c: Config, s: State, i: nat)
    requires StartsFrom(digest, w, c) && Reachable(c, s) && i < |s.results| && s.results[i].res.fromCache
    ensures IsNet(c, s.results[i].occ) && KeyOf(c, s.results[i].occ) in s.served
    ensures var k, r := KeyOf(c, s.results[i].occ), s.results[i].res;
            exists check ::
              && check in w.log
              && check.key == k
              && check.policy == w.run.value.policy
              && CacheRuns.Lasting(check.result)
              && r.state == check.result.state && r.statusCode == check.result.statusCode
              && 0 <= s.served[k] - check.at < c.store.ttl
  {
    hide Reachable, CacheRuns.Reachable;
    Guarantees.CacheProvenance(c, s, i);
    var k := KeyOf(c, s.results[i].occ);
    CacheRuns.ReachableSound(digest, w);
    CacheRuns.LastCheckMember(w.run.value.visible, k);
    var check := CacheRuns.LastCheck(w.run.value.visible, k).value;
    assert check in w.log;
  }

  // What a step of the pipeline is to the cache: time passing, and sometimes a Put.
  function CacheEvents(s: State, st: Step): seq<CacheRuns.Event> {
    match st
    case Work(_, now) => if s.clock <= now then [CacheRuns.Tick(now - s.clock)] else []
    case Execute(o, _, now) =>
      if s.clock <= now && o in s.back.execs then
        [CacheRuns.Tick(now - s.clock)] +
        (if s.back.execs[o].pc.Storing? then [CacheRuns.Put(s.back.execs[o].job.key, s.back.execs[o].pc.res)] else [])
      else []
    case _ => []
  }

  ghost predicate Mirrors(w: CacheRuns.World, p: CacheRuns.Policy, s: State) {
    w.run.Some? && w.run.value.policy == p && w.run.value.store == s.store && w.clock == s.clock
  }

  lemma TicksAndPuts(digest: CacheRuns.Policy -> string, w: CacheRuns.World, elapsed: nat, put: Option<(string, Result)>)
      returns (w': CacheRuns.World)
    requires w.run.Some? && (put.Some? ==> CacheRuns.RealCheck(w.run.value.policy, put.value.1))
    ensures CacheRuns.Happens(digest, w, [CacheRuns.Tick(elapsed)] + (if put.Some? then [CacheRuns.Put(put.value.0, put.value.1)] else []), w')
    ensures w'.run.Some? && w'.run.value.policy == w.run.value.policy && w'.clock == w.clock + elapsed
    ensures w'.run.value.store ==
            if put.Some? then Record(w.run.value.store, put.value.0, put.value.1, w.clock + elapsed) else w.run.value.store
  {
    var w1 := CacheRuns.Step(digest, w, CacheRuns.Tick(elapsed));
    if put.Some? {
      w' := CacheRuns.Step(digest, w1, CacheRuns.Put(put.value.0, put.value.1));
      assert CacheRuns.Happens(digest, w1, [CacheRuns.Put(put.value.0, put.value.1)], w');
      assert ([CacheRuns.Tick(elapsed)] + [CacheRuns.Put(put.value.0, put.value.1)])[1..] == [CacheRuns.Put(put.value.0, put.value.1)];
    } else {
      w' := w1;
      assert ([CacheRuns.Tick(elapsed)] + [])[1..] == [];
    }
  }

  lemma ObeyingIsReal(p: CacheRuns.Policy, r: Result)
    requires ResultObeys(p, r)
    ensures CacheRuns.RealCheck(p, r)
  {
  }

  lemma StoreColumns(c: Config, s: State, st: Step)
    requires Enabled(c, s, st)
    ensures var s' := Apply(c, s, st);
            match st
            case Work(_, now) => s'.store == s.store && s'.clock == now
            case Execute(o, _, now) =>
              && o in s.back.execs && s'.clock == now
              && s'.store == if s.back.execs[o].pc.Storing?
                             then Record(s.store, s.back.execs[o].job.key, s.back.execs[o].pc.res, now) else s.store
            case _ => s'.store == s.store && s'.clock == s.clock
  {
    hide MidNext, PacerNext, Woken, FrontNext, BackNext, DispatchStage, PaceStage, PaceCrashes, WorkFront, WorkSeen,
         WorkResults, WorkStage, WorkServed, ExecNext, ExecGauges, Record;
  }

  lemma StepMirrors(digest: CacheRuns.Policy -> string, w: CacheRuns.World, c: Config, p: CacheRuns.Policy, s: State, st: Step)
      returns (w': CacheRuns.World)
    requires Enabled(c, s, st) && AllObey(p, s) && Mirrors(w, p, s)
    ensures CacheRuns.Happens(digest, w, CacheEvents(s, st), w') && Mirrors(w', p, Apply(c, s, st))
  {
    hide Apply, ResultObeys, CacheRuns.Happens, CacheRuns.RealCheck, StoreObeys, RecordObeys, Record, WorkEnabled, ExecEnabled;
    StoreColumns(c, s, st);
    match st
    case Work(_, now) => w' := TicksAndPuts(digest, w, now - s.clock, None);
      assert [CacheRuns.Tick(now - s.clock)] + [] == [CacheRuns.Tick(now - s.clock)];
    case Execute(o, _, now) =>
      var e := s.back.execs[o];
      if e.pc.Storing? {
        ObeyingIsReal(p, e.pc.res);
        w' := TicksAndPuts(digest, w, now - s.clock, Some((e.job.key, e.pc.res)));
      } else {
        w' := TicksAndPuts(digest, w, now - s.clock, None);
      }
    case _ =>
      w' := w;
      NothingHappens(digest, w);
  }

  lemma NothingHappens(digest: CacheRuns.Policy -> string, w: CacheRuns.World)
    ensures CacheRuns.Happens(digest, w, [], w)
  {
  }

  lemma {:induction false} StepsMirror(digest: CacheRuns.Policy -> string, w: CacheRuns.World, c: Config, cfg: Retry.Config,
                                       rest: string, s: State, steps: seq<Step>, s': State)
      returns (events: seq<CacheRuns.Event>, w': CacheRuns.World)
    requires CheckedRun(c, cfg, s, steps, s') && AllObey(PolicyOf(cfg, rest), s) && Mirrors(w, PolicyOf(cfg, rest), s)
    ensures CacheRuns.Happens(digest, w, events, w') && Mirrors(w', PolicyOf(cfg, rest), s')
    decreases |steps|
  {
    hide AllObey, Enabled, Apply, Genuine, Mirrors, CacheRuns.Happens;
    if steps == [] {
      NothingHappens(digest, w);
      events, w' := [], w;
    } else {
      StepObeys(c, cfg, rest, s, steps[0]);
      var m := StepMirrors(digest, w, c, PolicyOf(cfg, rest), s, steps[0]);
      var more;
      more, w' := StepsMirror(digest, m, c, cfg, rest, Apply(c, s, steps[0]), steps[1..], s');
      HappensLater(digest, w, CacheEvents(s, steps[0]), m, more, w');
      events := CacheEvents(s, steps[0]) + more;
    }
  }

  // A run of the pipeline is a run of the cache: whatever its goroutines interleave, the
  // store it ends with is one that ticks of the clock and puts of real checks produce. So
  // what holds over any sequence of cache runs holds over any sequence of pipeline runs.
  lemma PipelineRunIsCacheRun(digest: CacheRuns.Policy -> string, w: CacheRuns.World, c: Config, cfg: Retry.Config,
                              rest: string, steps: seq<Step>, s: State) returns (w': CacheRuns.World)
    requires StartsFrom(digest, w, c) && w.run.value.policy == PolicyOf(cfg, rest)
    requires CheckedRun(c, cfg, Init(c), steps, s)
    ensures CacheRuns.Reachable(digest, w') && Mirrors(w', PolicyOf(cfg, rest), s)
  {
    hide CheckedRun, CacheRuns.Reachable, CacheRuns.Happens, StoreObeys;
    LoadedStoreObeys(digest, w);
    InitObeys(c, PolicyOf(cfg, rest));
    var events;
    events, w' := StepsMirror(digest, w, c, cfg, rest, Init(c), steps, s);
    ReachableLater(digest, w, events, w');
  }
}
