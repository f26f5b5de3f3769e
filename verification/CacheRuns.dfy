// Any number of runs sharing one cache file, each with its own policy, time to live and
// switch. The file may be removed, damaged or replaced by one of another schema between
// any two operations; saving may fail; a run may end without saving.
module CacheRuns {
  import opened Model
  import opened ResultCache

  // The request policy a cached result is valid for: which codes count as alive, and
  // everything else the fingerprint digests.
  datatype Policy = Policy(alive: set<int>, rest: string)

  datatype Check = Check(key: string, policy: Policy, result: Result, at: int)

  datatype Live = Live(policy: Policy, store: Store, visible: seq<Check>)

  // log, visible and diskLog are history: every check ever made, those the running store
  // stands for, and those the file stands for.
  datatype World = World(
    clock: int,
    disk: Option<File>,
    diskLog: seq<Check>,
    run: Option<Live>,
    log: seq<Check>)

  datatype Event =
    | Tick(elapsed: nat)
    | Start(policy: Policy, ttl: int, enabled: bool)
    | Put(key: string, result: Result)
    | Save
    | End
    | Damage(junk: Option<File>)

  // What a check can report under a policy: see RetryLaws.CheckRespectsPolicy.
  predicate RealCheck(p: Policy, r: Result) {
    r.err.None? ==> (r.state.StateAlive? && r.statusCode in p.alive) || (r.state.StateDead? && (r.statusCode == 0 || r.statusCode !in p.alive))
  }

  predicate Allowed(w: World, e: Event) {
    match e
    case Tick(_) => true
    case Start(_, _, _) => w.run.None?
    case Put(_, r) => w.run.Some? && RealCheck(w.run.value.policy, r)
    case Save => w.run.Some?
    case End => w.run.Some?
    case Damage(junk) => junk.Some? ==> junk.value.schema != SchemaVersion
  }

  function Step(digest: Policy -> string, w: World, e: Event): World
    requires Allowed(w, e)
  {
    match e
    case Tick(elapsed) => w.(clock := w.clock + elapsed)
    case Start(p, ttl, enabled) =>
      var st := Load(w.disk, ttl, enabled, digest(p));
      w.(run := Some(Live(p, st, if Usable(w.disk, enabled, digest(p)) then w.diskLog else [])))
    case Put(key, r) =>
      var check := Check(key, w.run.value.policy, r, w.clock);
      var live := w.run.value;
      w.(log := w.log + [check],
         run := Some(live.(store := Record(live.store, key, r, w.clock),
                           visible := if live.store.enabled then live.visible + [check] else live.visible)))
    case Save =>
      var live := w.run.value;
      w.(disk := Saved(live.store, w.disk), diskLog := if live.store.enabled then live.visible else w.diskLog)
    case End => w.(run := None)
    case Damage(junk) => w.(disk := junk, diskLog := [])
  }

  ghost predicate Happens(digest: Policy -> string, w: World, events: seq<Event>, w': World)
    decreases |events|
  {
    if events == [] then w' == w
    else Allowed(w, events[0]) && Happens(digest, Step(digest, w, events[0]), events[1..], w')
  }

  // Starts with no usable file and nothing running.
  ghost predicate Fresh(w: World) {
    w.run.None? && w.log == [] && w.diskLog == [] && (w.disk.Some? ==> w.disk.value.schema != SchemaVersion)
  }

  // ---------------------------------------------------------------- the reference

  // A check worth remembering: it was not interrupted, and it found the link alive or dead
  // for a reason of the client's own making.
  predicate Lasting(r: Result) {
    && r.err == None
    && (r.state == StateAlive ||
        (r.state == StateDead && 400 <= r.statusCode <= 499 && r.statusCode != 408 && r.statusCode != 425 && r.statusCode != 429))
  }

  // The last such check of a key.
  function LastCheck(log: seq<Check>, key: string): Option<Check> {
    if log == [] then None
    else
      var c := log[|log| - 1];
      if c.key == key && Lasting(c.result) then Some(c) else LastCheck(log[..|log| - 1], key)
  }

  // What a cache should answer: the last lasting check it knows of, if recent.
  function Answer(log: seq<Check>, key: string, now: int, ttl: int): Option<Entry> {
    match LastCheck(log, key)
    case Some(c) => if now - c.at < ttl then Some(Entry(c.result.statusCode, c.result.state, c.at)) else None
    case None => None
  }

  // ---------------------------------------------------------------- the invariant

  ghost predicate Represents(entries: map<string, Entry>, log: seq<Check>) {
    forall key ::
      match LastCheck(log, key)
      case Some(c) => key in entries && entries[key] == Entry(c.result.statusCode, c.result.state, c.at)
      case None => key !in entries
  }

  ghost predicate Genuine(log: seq<Check>, all: seq<Check>, policy: Policy, clock: int) {
    forall c :: c in log ==> c in all && c.policy == policy && RealCheck(policy, c.result) && c.at <= clock
  }

  ghost predicate DiskSound(digest: Policy -> string, w: World) {
    w.disk.Some? && w.disk.value.schema == SchemaVersion ==>
      && Represents(w.disk.value.entries, w.diskLog)
      && exists p :: digest(p) == w.disk.value.fingerprint && Genuine(w.diskLog, w.log, p, w.clock)
  }

  ghost predicate RunSound(digest: Policy -> string, w: World) {
    w.run.Some? ==>
      && w.run.value.store.fingerprint == digest(w.run.value.policy)
      && Represents(w.run.value.store.entries, w.run.value.visible)
      && Genuine(w.run.value.visible, w.log, w.run.value.policy, w.clock)
  }

  ghost predicate Sound(digest: Policy -> string, w: World) {
    DiskSound(digest, w) && RunSound(digest, w)
  }

  // Different policies have different fingerprints.
  ghost predicate Injective(digest: Policy -> string) {
    forall p, q :: digest(p) == digest(q) ==> p == q
  }

  lemma RepresentsPut(entries: map<string, Entry>, log: seq<Check>, c: Check)
    requires Represents(entries, log)
    ensures Represents(if Definitive(c.result) then entries[c.key := EntryFor(c.result, c.at)] else entries, log + [c])
  {
    assert Definitive(c.result) <==> Lasting(c.result);
    assert (log + [c])[..|log|] == log;
  }

  lemma {:induction false} LastCheckMember(log: seq<Check>, key: string)
    ensures LastCheck(log, key).Some? ==>
              LastCheck(log, key).value in log && LastCheck(log, key).value.key == key && Lasting(LastCheck(log, key).value.result)
  {
    if log != [] {
      LastCheckMember(log[..|log| - 1], key);
    }
  }

  lemma StepSound(digest: Policy -> string, w: World, e: Event)
    requires Injective(digest) && Sound(digest, w) && Allowed(w, e)
    ensures Sound(digest, Step(digest, w, e))
  {
    hide Represents, LastCheck;
    var w' := Step(digest, w, e);
    NoneRepresented();
    match e
    case Tick(elapsed) =>
    case Start(p, ttl, enabled) =>
    case Put(key, r) =>
      var live := w.run.value;
      var c := Check(key, live.policy, r, w.clock);
      RepresentsPut(live.store.entries, live.visible, c);
    case Save =>
    case End =>
    case Damage(junk) =>
  }

  lemma NoneRepresented()
    ensures Represents(map[], [])
  {
  }

  lemma {:induction false} HappensSound(digest: Policy -> string, w: World, events: seq<Event>, w': World)
    requires Injective(digest) && Sound(digest, w) && Happens(digest, w, events, w')
    ensures Sound(digest, w')
    decreases |events|
  {
    if events != [] {
      StepSound(digest, w, events[0]);
      HappensSound(digest, Step(digest, w, events[0]), events[1..], w');
    }
  }

  ghost predicate Reachable(digest: Policy -> string, w: World) {
    exists w0, events :: Fresh(w0) && Happens(digest, w0, events, w)
  }

  lemma ReachableSound(digest: Policy -> string, w: World)
    requires Injective(digest) && Reachable(digest, w)
    ensures Sound(digest, w)
  {
    var w0, events :| Fresh(w0) && Happens(digest, w0, events, w);
    HappensSound(digest, w0, events, w);
  }

  // ---------------------------------------------------------------- what a hit means

  // The store answers like the list of checks it stands for: both ways, for every key.
  lemma GetAgrees(digest: Policy -> string, w: World, key: string)
    requires Injective(digest) && Reachable(digest, w) && w.run.Some?
    ensures var live := w.run.value;
            Lookup(live.store, key, w.clock)
            == if live.store.enabled then Answer(live.visible, key, w.clock, live.store.ttl) else None
  {
    ReachableSound(digest, w);
  }

  // A hit repeats a real check of that key, made under the running policy less than the
  // time to live ago, at the time the entry says; and its outcome is one that policy and
  // the definitive rule allow.
  lemma HitIsRecentCheck(digest: Policy -> string, w: World, key: string, e: Entry)
    requires Injective(digest) && Reachable(digest, w) && w.run.Some?
    requires Lookup(w.run.value.store, key, w.clock) == Some(e)
    ensures exists check ::
              && check in w.log
              && check.key == key
              && check.policy == w.run.value.policy
              && e.state == check.result.state && e.statusCode == check.result.statusCode && e.checkedAt == check.at
              && 0 <= w.clock - check.at < w.run.value.store.ttl
    ensures e.state.StateAlive? ==> e.statusCode in w.run.value.policy.alive
    ensures !e.state.StateAlive? ==> e.state.StateDead? && 400 <= e.statusCode < 500 && e.statusCode !in {408, 425, 429}
    ensures e.state.StateDead? ==> e.statusCode !in w.run.value.policy.alive
  {
    GetAgrees(digest, w, key);
    ReachableSound(digest, w);
    LastCheckMember(w.run.value.visible, key);
    var check := LastCheck(w.run.value.visible, key).value;
    assert check in w.log;
  }

  // A run that saves hands everything it stands for to the next run under the same policy,
  // however long after and whatever that run's time to live.
  lemma SavedThenServed(digest: Policy -> string, w: World, gap: nat, ttl: int, key: string)
    requires Injective(digest) && Reachable(digest, w) && w.run.Some? && w.run.value.store.enabled
    ensures var events := [Save, End, Tick(gap), Start(w.run.value.policy, ttl, true)];
            exists w' ::
              && Happens(digest, w, events, w')
              && w'.run.Some?
              && w'.clock == w.clock + gap
              && Lookup(w'.run.value.store, key, w'.clock) == Answer(w.run.value.visible, key, w'.clock, ttl)
  {
    ReachableSound(digest, w);
    var p := w.run.value.policy;
    var w1 := Step(digest, w, Save);
    var w2 := Step(digest, w1, End);
    var w3 := Step(digest, w2, Tick(gap));
    var w4 := Step(digest, w3, Start(p, ttl, true));
    assert Happens(digest, w3, [Start(p, ttl, true)], w4);
    assert Happens(digest, w2, [Tick(gap), Start(p, ttl, true)], w4);
    assert Happens(digest, w1, [End, Tick(gap), Start(p, ttl, true)], w4);
    assert Happens(digest, w, [Save, End, Tick(gap), Start(p, ttl, true)], w4);
  }

  // A run under another policy starts cold.
  lemma OtherPolicyStartsCold(digest: Policy -> string, w: World, p: Policy, ttl: int, key: string)
    requires Injective(digest) && Reachable(digest, w) && w.run.Some? && w.run.value.store.enabled && p != w.run.value.policy
    ensures var w' := Step(digest, Step(digest, Step(digest, w, Save), End), Start(p, ttl, true));
            Lookup(w'.run.value.store, key, w'.clock) == None
  {
    ReachableSound(digest, w);
    assert digest(p) != digest(w.run.value.policy);
  }

  // The codes that are kept go beyond bad request, not found and gone: a 403 is served back.
  lemma ForbiddenIsKept(st: Store, key: string, r: Result, now: int)
    requires st.enabled && st.ttl > 0 && r.err.None? && r.state.StateDead? && r.statusCode == 403
    ensures Lookup(Record(st, key, r, now), key, now) == Some(Entry(403, StateDead, now))
  {
  }

  // A lasting check is served back for as long as the time to live, by its own run and by
  // the next under the same policy, with its state, its code and its time.
  lemma LastingIsServed(digest: Policy -> string, w: World, key: string, r: Result, gap: nat, ttl: int)
    requires Injective(digest) && Reachable(digest, w) && w.run.Some? && w.run.value.store.enabled
    requires RealCheck(w.run.value.policy, r) && r.err == None
    requires r.state == StateAlive ||
             (r.state == StateDead && 400 <= r.statusCode <= 499 && r.statusCode != 408 && r.statusCode != 425 && r.statusCode != 429)
    ensures var w1 := Step(digest, Step(digest, w, Put(key, r)), Tick(gap));
            Lookup(w1.run.value.store, key, w1.clock)
            == if gap < w.run.value.store.ttl then Some(Entry(r.statusCode, r.state, w.clock)) else None
    ensures var put := Step(digest, w, Put(key, r));
            var w2 := Step(digest, Step(digest, Step(digest, Step(digest, put, Save), End), Tick(gap)), Start(w.run.value.policy, ttl, true));
            Lookup(w2.run.value.store, key, w2.clock) == if gap < ttl then Some(Entry(r.statusCode, r.state, w.clock)) else None
  {
    ReachableSound(digest, w);
  }

  // Any other check leaves what the store answers as it was, for every URL.
  lemma PassingIsNotKept(digest: Policy -> string, w: World, key: string, r: Result, other: string, now: int)
    requires w.run.Some? && RealCheck(w.run.value.policy, r)
    requires r.err.Some? || (r.state != StateAlive && r.state != StateDead) ||
             (r.state == StateDead && (r.statusCode < 400 || r.statusCode > 499 || r.statusCode in {408, 425, 429}))
    ensures Lookup(Step(digest, w, Put(key, r)).run.value.store, other, now) == Lookup(w.run.value.store, other, now)
  {
  }
}
