// What a parse worker does with one network link and what an executor does with one job,
// as straight-line code over the shared objects. Each call here is one or more steps of the
// pipeline's state machine; other goroutines may run between any two of them there.
module Execution {
  import opened Model
  import opened Dedup
  import ResultCache
  import Checker
  import RateLimit
  import Report
  import Retry

  // What the worker is told about a link before it acts: whether an ignore pattern matches
  // it, the verdict of the local check of its kind, whether external links are checked at
  // all, its key and host, and whether a send on the job channel gets through.
  datatype Facts = Facts(ignored: bool, local: Result, external: bool, key: string, host: string, delivered: bool)

  class Worker {
    const http: Checker.HTTPChecker
    const coll: Report.Collector
    const dedup: SeenMap
    var jobsCh: seq<CheckJob>

    constructor (http: Checker.HTTPChecker, coll: Report.Collector, dedup: SeenMap)
      ensures this.http == http && this.coll == coll && this.dedup == dedup && jobsCh == []
    {
      this.http, this.coll, this.dedup, jobsCh := http, coll, dedup, [];
    }

    ghost predicate Valid()
      reads coll, dedup
    {
      coll.Valid() && dedup.Valid()
    }

    // A link that needs no network is reported at once and leaves the seen-map alone: as
    // ignored, as its local check says, or as ignored because external links are not
    // checked. Otherwise it is settled from its URL's record, left waiting there, or becomes
    // a job that is announced and then sent, unless the context ends first.
    method HandleTarget(t: Target, f: Facts, now: int)
      requires Valid()
      modifies this`jobsCh, coll, dedup`seen, if f.key in dedup.seen then {dedup.seen[f.key]} else {}
      ensures Valid()
      ensures f.ignored ==>
        coll.results == old(coll.results) + [Result(t, StateIgnored, 0, "", 0, false, 0, false, false, "", None)]
      ensures !f.ignored && t.kind != KindHTTP ==> coll.results == old(coll.results) + [f.local]
      ensures !f.ignored && t.kind == KindHTTP && !f.external ==>
        coll.results == old(coll.results)
                        + [Result(t, StateIgnored, 0, "", 0, false, 0, false, false, "external checks disabled", None)]
      ensures f.ignored || t.kind != KindHTTP || !f.external ==>
        && dedup.View() == old(dedup.View())
        && jobsCh == old(jobsCh) && coll.enqueued == old(coll.enqueued) && coll.hostInflight == old(coll.hostInflight)
      ensures !f.ignored && t.kind == KindHTTP && f.external ==>
        && f.key in dedup.View()
        && var u, known := dedup.View()[f.key], f.key in old(dedup.seen);
           && (u.done ==>
                 coll.results == old(coll.results)
                                 + [Result(t, u.result.state, u.result.statusCode, u.result.host, 0, false, 0,
                                           u.result.fromCache, known, u.result.detail, None)])
           && (!u.done ==> coll.results == old(coll.results) && t in u.occs)
           && var made := !known && !u.done;
              && jobsCh == old(jobsCh) + (if made && f.delivered then [CheckJob(f.key, f.host, t)] else [])
              && coll.enqueued == old(coll.enqueued) + (if made then 1 else 0)
              && coll.hostInflight == if made then Report.Raised(old(coll.hostInflight), f.host) else old(coll.hostInflight)
    {
      hide ResultCache.Lookup, Register, Join, Report.Count, SeenMap.View, SeenMap.Valid;
      if f.ignored {
        coll.Add(Blank(t).(state := StateIgnored));
        return;
      }
      match t.kind
      case KindHTTP =>
        if !f.external {
          coll.Add(Blank(t).(state := StateIgnored, detail := "external checks disabled"));
          return;
        }
        var job, emit := dedup.Add(f.key, t, f.host, now);
        Announce(job, emit);
        if job.Some? && f.delivered { jobsCh := jobsCh + [job.value]; }
      case _ => coll.Add(f.local);
    }

    method Announce(job: Option<CheckJob>, emit: seq<Result>)
      requires coll.Valid() && |emit| <= 1
      modifies coll`results, coll`dead, coll`checked, coll`enqueued, coll`hostInflight
      ensures coll.Valid() && coll.results == old(coll.results) + emit
      ensures coll.enqueued == old(coll.enqueued) + if job.Some? then 1 else 0
      ensures coll.hostInflight == if job.Some? then Report.Raised(old(coll.hostInflight), job.value.host) else old(coll.hostInflight)
    {
      if |emit| == 1 { coll.Add(emit[0]); }
      if job.Some? { coll.NetEnqueue(job.value.host); }
    }

    // Check, account for it, feed the limiter, store it, and only then complete the record
    // and report every occurrence it held, each with the check's outcome and its own link,
    // the first as the real check and the others as reusing it. The host the result carries
    // is the URL's host with its port; the gauges and the limiter go by the job's host,
    // without it.
    method Execute(job: CheckJob, authority: string, hs: RateLimit.HostState, env: Retry.Env, now: nat) returns (ghost res: Result)
      requires Valid() && job.key in dedup.seen
      modifies coll, hs, dedup.cache, dedup.seen[job.key]
      ensures Valid()
      ensures res == Retry.Check(http.cfg, job.sample, authority, env).result
      ensures
        var before, waiting := old(coll.results), old(dedup.View())[job.key].occs;
        && |coll.results| == |before| + |waiting|
        && (forall i :: 0 <= i < |before| ==> coll.results[i] == before[i])
        && (forall i :: 0 <= i < |waiting| ==>
              coll.results[|before| + i] == Result(waiting[i], res.state, res.statusCode, res.host, 0, false, 0,
                                                   res.fromCache, i > 0, res.detail, None))
      ensures dedup.View() == Settle(old(dedup.View()), job.key, res)
      ensures dedup.seen[job.key].done && dedup.seen[job.key].result == res && dedup.seen[job.key].occs == []
      ensures dedup.cache.View() == ResultCache.Record(old(dedup.cache.View()), job.key, res, now)
      ensures hs.View() == Told(old(hs.View()), res, now)
      ensures hs.requests == old(hs.requests) + 1 && hs.n429 == old(hs.n429) + if res.saw429 then 1 else 0
      ensures res.saw429 && res.retryAfter > 0 ==>
                hs.notBefore >= now + if res.retryAfter < 300_000_000_000 then res.retryAfter else 300_000_000_000
      ensures !res.saw429 && res.state == StateAlive ==> hs.consecutive == if old(hs.consecutive) >= 4 then 0 else old(hs.consecutive) + 1
      ensures !res.saw429 && res.state != StateAlive ==> hs.consecutive == old(hs.consecutive) && hs.limiter == old(hs.limiter)
      ensures coll.netDone == old(coll.netDone) + 1 && coll.enqueued == old(coll.enqueued)
      ensures coll.active == old(coll.active) - {job.sample.url}
      ensures coll.hostInflight == Report.Lowered(old(coll.hostInflight), job.host)
    {
      hide Retry.Check, ResultCache.Record, RateLimit.Apply, Settle, Report.Count, Report.Lowered, Told,
           SeenMap.View, SeenMap.Valid, ResultCache.Cache.View, RateLimit.HostState.View;
      var r := Perform(job, authority, env, now);
      res := r;
      TellLimiter(hs, r, now);
      dedup.cache.Put(job.key, r, now);
      var occs := dedup.Complete(job.key, r);
      FanOut(occs, r);
    }

    // The limiter after one check: a request, and a penalty for a 429, or else a success for
    // a live link.
    static function Told(h: RateLimit.Host, res: Result, now: nat): RateLimit.Host {
      var recorded := RateLimit.Apply(h, RateLimit.Op.Record(now, res.retries));
      if res.saw429 then RateLimit.Apply(recorded, RateLimit.Penalize(now, res.retryAfter))
      else if res.state.StateAlive? then RateLimit.Apply(recorded, RateLimit.Success)
      else recorded
    }

    // The check itself, shown as active while it runs.
    method Perform(job: CheckJob, authority: string, env: Retry.Env, now: nat) returns (r: Result)
      modifies coll`netDone, coll`active, coll`hostInflight
      ensures r == Retry.Check(http.cfg, job.sample, authority, env).result
      ensures coll.netDone == old(coll.netDone) + 1
      ensures coll.active == old(coll.active) - {job.sample.url}
      ensures coll.hostInflight == Report.Lowered(old(coll.hostInflight), job.host)
    {
      hide Retry.Check;
      coll.NetStart(job.sample.url, now);
      var checked := http.Check(job.sample, authority, env);
      coll.NetComplete(job.sample.url, job.host);
      r := checked.result;
    }

    method FanOut(occs: seq<Target>, r: Result)
      requires coll.Valid()
      modifies coll`results, coll`dead, coll`checked
      ensures coll.Valid() && |coll.results| == |old(coll.results)| + |occs|
      ensures forall i :: 0 <= i < |old(coll.results)| ==> coll.results[i] == old(coll.results)[i]
      ensures forall i :: 0 <= i < |occs| ==>
                coll.results[|old(coll.results)| + i] == Result(occs[i], r.state, r.statusCode, r.host, 0, false, 0,
                                                                r.fromCache, i > 0, r.detail, None)
    {
      hide Report.Count, Report.Collector.Valid;
      ghost var before := coll.results;
      for i := 0 to |occs|
        invariant coll.Valid() && |coll.results| == |before| + i
        invariant forall k :: 0 <= k < |before| ==> coll.results[k] == before[k]
        invariant forall k :: 0 <= k < i ==>
          coll.results[|before| + k] == Result(occs[k], r.state, r.statusCode, r.host, 0, false, 0, r.fromCache, k > 0, r.detail, None)
      {
        coll.Add(ResultFor(occs[i], r, i > 0));
      }
    }

    // The limiter's part.
    method TellLimiter(hs: RateLimit.HostState, r: Result, now: nat)
      modifies hs
      ensures hs.View() == Told(old(hs.View()), r, now)
      ensures hs.requests == old(hs.requests) + 1 && hs.n429 == old(hs.n429) + if r.saw429 then 1 else 0
      ensures r.saw429 && r.retryAfter > 0 ==>
                hs.notBefore >= now + if r.retryAfter < 300_000_000_000 then r.retryAfter else 300_000_000_000
      ensures !r.saw429 && r.state == StateAlive ==> hs.consecutive == if old(hs.consecutive) >= 4 then 0 else old(hs.consecutive) + 1
      ensures !r.saw429 && r.state != StateAlive ==> hs.consecutive == old(hs.consecutive) && hs.limiter == old(hs.limiter)
    {
      hide RateLimit.Apply;
      hs.Record(now, r.retries);
      if r.saw429 {
        hs.Penalize429(now, r.retryAfter);
      } else if r.state.StateAlive? {
        hs.OnSuccess();
      }
    }
  }
}
