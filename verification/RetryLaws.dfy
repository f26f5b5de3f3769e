// What holds of every check, whatever each attempt meets: the three retry budgets, what is
// waited and for how long, how attempts are counted, and which attempt decides the verdict.
module RetryLaws {
  import opened Model
  import opened Retry
  import CacheRuns

  // ---------------------------------------------------------------- measures

  datatype Cause = Throttle | Timeout | Connection

  predicate CausedBy(w: Wait, c: Cause) {
    match c
    case Throttle => w.out.Response?
    case Timeout => w.out.TimedOut?
    case Connection => w.out.ConnFailed?
  }

  // How many waits a cause is responsible for.
  function Count(ws: seq<Wait>, c: Cause): nat {
    if ws == [] then 0 else (if CausedBy(ws[0], c) then 1 else 0) + Count(ws[1..], c)
  }

  function Total(ws: seq<Wait>): int {
    if ws == [] then 0 else ws[0].nanos + Total(ws[1..])
  }

  // The last Retry-After that was honoured, d when none was.
  function Honoured(ws: seq<Wait>, d: int): int {
    if ws == [] then d
    else Honoured(ws[1..], if ws[0].out.Response? && Asked(ws[0].out.header).Some? then Asked(ws[0].out.header).value else d)
  }

  // The delay a Retry-After header asks for.
  function Asked(h: Header): Option<int> {
    match h
    case NoHeader => None
    case Seconds(n) => if n < 0 then None else Some(Wrap64(n * 1_000_000_000))
    case Date(left) => Some(if left < 0 then 0 else left)
    case Unparsable => None
  }

  // The retries a cause is allowed in one check.
  function Budget(cfg: Config, c: Cause): nat {
    if c.Connection? then Max(0, cfg.connectRetries) else cfg.maxRetries
  }

  function Spent(r: Counters, c: Cause): nat {
    match c
    case Throttle => r.rateLimitRetries
    case Timeout => r.timeoutRetries
    case Connection => r.transportFailures
  }

  lemma {:induction false} CountJoin(a: seq<Wait>, b: seq<Wait>, c: Cause)
    ensures Count(a + b, c) == Count(a, c) + Count(b, c)
  {
    if a == [] {
      assert a + b == b;
    } else {
      assert (a + b)[1..] == a[1..] + b;
      CountJoin(a[1..], b, c);
    }
  }

  lemma {:induction false} HonouredJoin(a: seq<Wait>, b: seq<Wait>, d: int)
    ensures Honoured(a + b, d) == Honoured(b, Honoured(a, d))
  {
    if a == [] {
      assert a + b == b;
    } else {
      assert (a + b)[1..] == a[1..] + b;
      HonouredJoin(a[1..], b, if a[0].out.Response? && Asked(a[0].out.header).Some? then Asked(a[0].out.header).value else d);
    }
  }

  // Every wait has exactly one cause.
  lemma {:induction false} CountsAddUp(ws: seq<Wait>)
    requires forall w :: w in ws ==> !w.out.RedirectLoop?
    ensures |ws| == Count(ws, Throttle) + Count(ws, Timeout) + Count(ws, Connection)
  {
    if ws != [] { CountsAddUp(ws[1..]); }
  }

  // ---------------------------------------------------------------- one wait

  // The longest and the shortest wait the configuration allows after a response.
  function Longest(cfg: Config): int {
    if cfg.backoffMax <= 0 then 120_000_000_000 else cfg.backoffMax
  }

  function Shortest(cfg: Config): int {
    var lo := if cfg.fallbackDelay <= 0 then 1_000_000_000 else cfg.fallbackDelay;
    if lo > Longest(cfg) then Longest(cfg) else lo
  }

  function Clamp(d: int, hi: int): int {
    if d < 0 then 0 else if d > hi then hi else d
  }

  // What a wait may be: only a throttled response, a timeout or a connection failure is
  // waited for. Without a response the wait depends on the attempt alone; with one, on its
  // Retry-After, and only without a usable one on chance.
  predicate Measured(cfg: Config, w: Wait) {
    match w.out
    case RedirectLoop => false
    case TimedOut => w.nanos == Quick(w.attempt)
    case ConnFailed => w.nanos == Quick(w.attempt)
    case Response(code, header) =>
      && (code == 429 || code == 503)
      && match header
         case Seconds(n) =>
           if n < 0 then Shortest(cfg) <= w.nanos <= Ceiling(Shortest(cfg), Longest(cfg), w.attempt)
           else (cfg.backoffMax > 0 ==> Wrap64(n * 1_000_000_000) <= cfg.backoffMax) && w.nanos == Clamp(Wrap64(n * 1_000_000_000), Longest(cfg))
         case Date(left) => (cfg.backoffMax > 0 ==> left <= cfg.backoffMax) && w.nanos == Clamp(left, Longest(cfg))
         case NoHeader => Shortest(cfg) <= w.nanos <= Ceiling(Shortest(cfg), Longest(cfg), w.attempt)
         case Unparsable => Shortest(cfg) <= w.nanos <= Ceiling(Shortest(cfg), Longest(cfg), w.attempt)
  }

  // Half a second, one, two, then three.
  function Quick(attempt: nat): int {
    if attempt == 0 then 500_000_000 else if attempt == 1 then 1_000_000_000 else if attempt == 2 then 2_000_000_000 else 3_000_000_000
  }

  lemma ConnectIsQuick(attempt: nat)
    ensures ConnectBackoff(attempt) == Quick(attempt)
  {
    assert Pow2(0) == 1 && Pow2(1) == 2 && Pow2(2) == 4 && Pow2(3) == 8;
  }

  // The ceiling of the random wait: the shortest one doubled with every attempt, up to the
  // longest.
  function Ceiling(lo: int, hi: int, attempt: nat): int {
    if attempt == 0 then (if lo < hi then lo else hi)
    else if 2 * Ceiling(lo, hi, attempt - 1) < hi then 2 * Ceiling(lo, hi, attempt - 1) else hi
  }

  lemma {:induction false} CeilingIsBase(lo: int, hi: int, attempt: nat)
    requires 0 < lo <= hi
    ensures Ceiling(lo, hi, attempt) == Min(Pow2(attempt) * lo, hi)
    ensures lo <= Ceiling(lo, hi, attempt) <= hi
  {
    if attempt > 0 {
      CeilingIsBase(lo, hi, attempt - 1);
      assert Pow2(attempt) * lo == 2 * (Pow2(attempt - 1) * lo);
    }
  }

  // Full jitter: every wait between the shortest and the ceiling can come out, and no other;
  // which one is decided by the draw, one draw for each nanosecond above the shortest.
  lemma JitterIsFull(cfg: Config, attempt: nat, nanos: int)
    ensures (exists draw: nat :: ExpJitterBackoff(cfg.WaitMin(), cfg.WaitMax(), attempt, draw) == nanos)
            <==> Shortest(cfg) <= nanos <= Ceiling(Shortest(cfg), Longest(cfg), attempt)
    ensures forall draw: nat :: Shortest(cfg) < draw <= Ceiling(Shortest(cfg), Longest(cfg), attempt)
              ==> ExpJitterBackoff(cfg.WaitMin(), cfg.WaitMax(), attempt, draw) == draw
  {
    var lo, hi := Shortest(cfg), Longest(cfg);
    CeilingIsBase(lo, hi, attempt);
    forall draw: nat
      ensures ExpJitterBackoff(cfg.WaitMin(), cfg.WaitMax(), attempt, draw) == Max(draw % (Ceiling(lo, hi, attempt) + 1), lo)
    {
      JitterIs(cfg.WaitMin(), cfg.WaitMax(), attempt, draw);
    }
    if lo <= nanos <= Ceiling(lo, hi, attempt) {
      DrawBelow(nanos, Ceiling(lo, hi, attempt));
      assert ExpJitterBackoff(cfg.WaitMin(), cfg.WaitMax(), attempt, nanos) == nanos;
    }
    forall draw: nat | lo < draw <= Ceiling(lo, hi, attempt)
      ensures ExpJitterBackoff(cfg.WaitMin(), cfg.WaitMax(), attempt, draw) == draw
    {
      DrawBelow(draw, Ceiling(lo, hi, attempt));
    }
  }

  lemma DrawBelow(draw: nat, top: int)
    requires draw <= top
    ensures draw % (top + 1) == draw
  {
  }

  lemma JitterIs(lo: int, hi: int, attempt: nat, draw: nat)
    requires lo > 0 && hi > 0
    ensures
      var lo' := if lo > hi then hi else lo;
      var top := Ceiling(lo', hi, attempt);
      top >= 0 && ExpJitterBackoff(lo, hi, attempt, draw) == Max(draw % (top + 1), lo')
  {
    CeilingIsBase(if lo > hi then hi else lo, hi, attempt);
  }

  // A wait that checkRetry let through is measured.
  lemma RetryIsMeasured(cfg: Config, r: Counters, e: Event, i: nat)
    requires Judge(cfg, r, e).1
    ensures Measured(cfg, Wait(e.out, i, ComputeBackoff(cfg, Judge(cfg, r, e).0, i, e.out, e.draw).1))
  {
    ConnectIsQuick(i);
    CeilingIsBase(Shortest(cfg), Longest(cfg), i);
    JitterIs(cfg.WaitMin(), cfg.WaitMax(), i, e.draw);
  }

  // When an attempt is retried, in full: the context is alive, and it timed out or failed to
  // connect with budget left, or it was answered 503, or 429 where those are retried, with
  // budget left and no Retry-After beyond the limit. Each of the three draws on its own
  // budget, and a Retry-After beyond the limit draws on none.
  lemma RetryDecision(cfg: Config, r: Counters, e: Event)
    ensures Judge(cfg, r, e).1 <==>
      && !e.cancelled
      && match e.out
         case RedirectLoop => false
         case TimedOut => r.timeoutRetries < cfg.maxRetries
         case ConnFailed => r.transportFailures < cfg.connectRetries
         case Response(code, header) =>
           && (code == 503 || (code == 429 && cfg.retryOn429))
           && !AsksTooMuch(cfg, header)
           && r.rateLimitRetries < cfg.maxRetries
    ensures Judge(cfg, r, e).0 ==
      if e.cancelled then r
      else
        match e.out
        case RedirectLoop => r
        case TimedOut => r.(timeoutRetries := r.timeoutRetries + 1)
        case ConnFailed => r.(transportFailures := r.transportFailures + 1)
        case Response(code, header) =>
          var draws := (code == 503 || (code == 429 && cfg.retryOn429)) && !AsksTooMuch(cfg, header);
          r.(saw429 := r.saw429 || code == 429, rateLimitRetries := r.rateLimitRetries + if draws then 1 else 0)
  {
  }

  // The server asks for more than the configured limit.
  predicate AsksTooMuch(cfg: Config, header: Header) {
    && cfg.backoffMax > 0
    && ((header.Seconds? && header.n >= 0 && Wrap64(header.n * 1_000_000_000) > cfg.backoffMax) ||
        (header.Date? && header.left > cfg.backoffMax))
  }

  // ---------------------------------------------------------------- one request

  function One(w: Wait, c: Cause): nat {
    if CausedBy(w, c) then 1 else 0
  }

  lemma CountFirst(w: Wait, rest: seq<Wait>, c: Cause)
    ensures Count([w] + rest, c) == One(w, c) + Count(rest, c)
  {
    assert ([w] + rest)[1..] == rest;
  }

  // A retry spends one unit of its own cause, and stays within that cause's budget;
  // nothing else gives a unit back.
  lemma RetrySpends(cfg: Config, r: Counters, e: Event, i: nat, nanos: int, c: Cause)
    ensures
      var w := Wait(e.out, i, nanos);
      var (r1, retry) := Judge(cfg, Hooked(r, i), e);
      && Spent(r1, c) >= Spent(r, c)
      && (retry ==>
            && Spent(r1, c) == Spent(r, c) + One(w, c)
            && (CausedBy(w, c) ==> Spent(r1, c) <= Budget(cfg, c))
            && Spent(ComputeBackoff(cfg, r1, i, e.out, e.draw).0, c) == Spent(r1, c))
  {
  }

  lemma {:induction false} DriveBudget(cfg: Config, r: Counters, ev: nat -> Event, n: nat, i: nat, c: Cause)
    requires i <= cfg.RetryMax()
    ensures
      var t := Drive(cfg, r, ev, n, i);
      && Spent(t.state, c) >= Spent(r, c) + Count(t.waits, c)
      && (Count(t.waits, c) > 0 ==> Spent(r, c) + Count(t.waits, c) <= Budget(cfg, c))
    decreases cfg.RetryMax() - i
  {
    hide Judge, ComputeBackoff, Hooked, Spent, Budget, Count, CausedBy;
    var e := ev(n);
    var (r1, retry) := Judge(cfg, Hooked(r, i), e);
    var (r2, nanos) := ComputeBackoff(cfg, r1, i, e.out, e.draw);
    var w := Wait(e.out, i, nanos);
    RetrySpends(cfg, r, e, i, nanos, c);
    CountNone(c);
    CountFirst(w, [], c);
    assert [w] + [] == [w];
    if !e.cancelled && retry && i != cfg.RetryMax() && !e.interrupted {
      DriveBudget(cfg, r2, ev, n + 1, i + 1, c);
      CountFirst(w, Drive(cfg, r2, ev, n + 1, i + 1).waits, c);
    }
  }

  lemma CountNone(c: Cause)
    ensures Count([], c) == 0
  {
  }

  // The attempts of a request: one more than its waits, unless the last wait was cut
  // short; counted by the hook except the first; each wait measured.
  ghost predicate Paced(cfg: Config, t: Trip, ev: nat -> Event, n: nat, i: nat) {
    && 1 <= t.attempts <= 1 + |t.waits|
    && |t.waits| <= t.attempts
    && i + |t.waits| <= cfg.RetryMax()
    && (!t.ending.Ended? ==> t.attempts == 1 + |t.waits|)
    && forall w :: w in t.waits ==> Measured(cfg, w)
  }

  lemma {:induction false} DrivePaced(cfg: Config, r: Counters, ev: nat -> Event, n: nat, i: nat)
    requires i <= cfg.RetryMax()
    ensures Paced(cfg, Drive(cfg, r, ev, n, i), ev, n, i)
    decreases cfg.RetryMax() - i
  {
    hide Measured, ComputeBackoff;
    var e := ev(n);
    var (r1, retry) := Judge(cfg, Hooked(r, i), e);
    if !e.cancelled && retry && i != cfg.RetryMax() {
      RetryIsMeasured(cfg, Hooked(r, i), e, i);
      if !e.interrupted {
        DrivePaced(cfg, ComputeBackoff(cfg, r1, i, e.out, e.draw).0, ev, n + 1, i + 1);
      }
    }
  }

  // Some attempt in ev[n..m] was answered 429 while the context was alive.
  ghost predicate Throttled429(ev: nat -> Event, n: nat, m: nat) {
    exists k: nat :: n <= k < m && !ev(k).cancelled && ev(k).out.Response? && ev(k).out.code == 429
  }

  ghost predicate Noted(r: Counters, t: Trip, ev: nat -> Event, n: nat, i: nat) {
    && t.state.retries + (if i == 0 then 1 else 0) == r.retries + t.attempts
    && (t.state.saw429 <==> r.saw429 || Throttled429(ev, n, n + t.attempts))
    && t.state.retryAfter == Honoured(t.waits, r.retryAfter)
  }

  // What one attempt notes down.
  lemma StepNotes(cfg: Config, r: Counters, ev: nat -> Event, n: nat, i: nat)
    ensures
      var e := ev(n);
      var (r1, retry) := Judge(cfg, Hooked(r, i), e);
      var (r2, nanos) := ComputeBackoff(cfg, r1, i, e.out, e.draw);
      && r1.retries + (if i == 0 then 1 else 0) == r.retries + 1
      && (r1.saw429 <==> r.saw429 || Throttled429(ev, n, n + 1))
      && r1.retryAfter == r.retryAfter
      && (retry ==>
            && r2.retries == r1.retries && r2.saw429 == r1.saw429
            && r2.retryAfter == Honoured([Wait(e.out, i, nanos)], r.retryAfter))
  {
    var e := ev(n);
    var here := !e.cancelled && e.out.Response? && e.out.code == 429;
    var (r1, retry) := Judge(cfg, Hooked(r, i), e);
    assert here ==> Throttled429(ev, n, n + 1);
    if retry {
      var (r2, nanos) := ComputeBackoff(cfg, r1, i, e.out, e.draw);
      assert [Wait(e.out, i, nanos)][1..] == [];
    }
  }

  lemma {:induction false} DriveNotes(cfg: Config, r: Counters, ev: nat -> Event, n: nat, i: nat)
    requires i <= cfg.RetryMax()
    ensures Noted(r, Drive(cfg, r, ev, n, i), ev, n, i)
    decreases cfg.RetryMax() - i
  {
    hide Judge, ComputeBackoff, Hooked, Throttled429;
    var e := ev(n);
    var (r1, retry) := Judge(cfg, Hooked(r, i), e);
    StepNotes(cfg, r, ev, n, i);
    if !e.cancelled && retry && i != cfg.RetryMax() && !e.interrupted {
      var (r2, nanos) := ComputeBackoff(cfg, r1, i, e.out, e.draw);
      DriveNotes(cfg, r2, ev, n + 1, i + 1);
      var rest := Drive(cfg, r2, ev, n + 1, i + 1);
      HonouredJoin([Wait(e.out, i, nanos)], rest.waits, r.retryAfter);
      Throttled429Splits(ev, n, n + 1 + rest.attempts);
    }
  }

  lemma Throttled429Splits(ev: nat -> Event, n: nat, m: nat)
    requires n < m
    ensures Throttled429(ev, n, m) <==> Throttled429(ev, n, n + 1) || Throttled429(ev, n + 1, m)
  {
  }

  // A request that was not cut short ends as its last attempt did, and only with an outcome
  // that is not retried or whose budget is spent.
  lemma {:induction false} DriveEnds(cfg: Config, r: Counters, ev: nat -> Event, n: nat, i: nat)
    requires i <= cfg.RetryMax()
    ensures
      var t := Drive(cfg, r, ev, n, i);
      && t.attempts >= 1
      && (!t.ending.Ended? ==>
            && t.ending == EndingOf(ev(n + t.attempts - 1).out)
            && !ev(n + t.attempts - 1).cancelled)
      && (t.ending.Ended? ==> ev(n + t.attempts - 1).cancelled || ev(n + t.attempts - 1).interrupted)
      && forall k :: n <= k < n + t.attempts - 1 ==> !ev(k).cancelled && !ev(k).interrupted
    decreases cfg.RetryMax() - i
  {
    hide ComputeBackoff;
    var e := ev(n);
    var (r1, retry) := Judge(cfg, Hooked(r, i), e);
    if !e.cancelled && retry && i != cfg.RetryMax() && !e.interrupted {
      var r2 := ComputeBackoff(cfg, r1, i, e.out, e.draw).0;
      DriveEnds(cfg, r2, ev, n + 1, i + 1);
    }
  }

  // ---------------------------------------------------------------- one check

  // The two requests of a check: GET, when there is one, starts from the counters HEAD left.
  function HeadTrip(cfg: Config, env: Env): Trip {
    Send(cfg, Zero, env, 0)
  }

  function GetTrip(cfg: Config, env: Env): Trip {
    Send(cfg, HeadTrip(cfg, env).state, env, HeadTrip(cfg, env).attempts)
  }

  lemma SendBudget(cfg: Config, r: Counters, env: Env, n: nat, c: Cause)
    ensures
      var t := Send(cfg, r, env, n);
      && Spent(t.state, c) >= Spent(r, c) + Count(t.waits, c)
      && (Count(t.waits, c) > 0 ==> Spent(r, c) + Count(t.waits, c) <= Budget(cfg, c))
  {
    hide Drive, Spent, Budget;
    if !env.badUrl { DriveBudget(cfg, r, env.ev, n, 0, c); }
  }

  // The three budgets are shared by HEAD and GET: retries caused by 429 and 503 together,
  // by timeouts, and by connection failures each stay within their own limit over the
  // whole check.
  lemma RetryBudgets(cfg: Config, t: Target, host: string, env: Env, c: Cause)
    ensures Count(Check(cfg, t, host, env).waits, c) <= Budget(cfg, c)
  {
    hide Drive, Send, Count, Budget, Verdict;
    var head := HeadTrip(cfg, env);
    SendBudget(cfg, Zero, env, 0, c);
    if !HeadDecides(cfg, env, head) {
      SendBudget(cfg, head.state, env, head.attempts, c);
      CountJoin(head.waits, GetTrip(cfg, env).waits, c);
    }
  }

  lemma SendPaced(cfg: Config, r: Counters, env: Env, n: nat)
    ensures
      var t := Send(cfg, r, env, n);
      && |t.waits| <= cfg.RetryMax()
      && |t.waits| <= t.attempts <= 1 + |t.waits|
      && (!t.ending.Ended? && !env.badUrl ==> t.attempts == 1 + |t.waits|)
      && forall w :: w in t.waits ==> Measured(cfg, w)
  {
    hide Drive, Measured;
    if !env.badUrl { DrivePaced(cfg, r, env.ev, n, 0); }
  }

  lemma WaitsMeasured(cfg: Config, t: Target, host: string, env: Env)
    ensures
      var k := Check(cfg, t, host, env);
      && (forall w :: w in k.waits ==> Measured(cfg, w))
      && k.requests <= 2
      && |k.waits| <= k.requests * cfg.RetryMax()
      && |k.waits| <= k.attempts <= k.requests + |k.waits|
  {
    hide Drive, Send, Measured, Verdict, HeadDecides;
    SendPaced(cfg, Zero, env, 0);
    SendPaced(cfg, HeadTrip(cfg, env).state, env, HeadTrip(cfg, env).attempts);
  }

  // The requests a check puts on the wire: at most one per method plus the retries, which
  // both the per-request loop and the shared budgets bound.
  lemma AttemptsBounded(cfg: Config, t: Target, host: string, env: Env)
    ensures var k, budgets := Check(cfg, t, host, env), 2 * cfg.maxRetries + if cfg.connectRetries > 0 then cfg.connectRetries else 0;
            && k.attempts <= 2 + budgets
            && k.attempts <= 2 + 2 * (if cfg.maxRetries < cfg.connectRetries then cfg.connectRetries else cfg.maxRetries)
  {
    hide Check, Measured, Count;
    var k := Check(cfg, t, host, env);
    WaitsMeasured(cfg, t, host, env);
    CausesAddUp(cfg, k.waits);
    RetryBudgets(cfg, t, host, env, Throttle);
    RetryBudgets(cfg, t, host, env, Timeout);
    RetryBudgets(cfg, t, host, env, Connection);
  }

  lemma CausesAddUp(cfg: Config, ws: seq<Wait>)
    requires forall w :: w in ws ==> Measured(cfg, w)
    ensures |ws| == Count(ws, Throttle) + Count(ws, Timeout) + Count(ws, Connection)
  {
    CountsAddUp(ws);
  }

  lemma WaitBounded(cfg: Config, w: Wait)
    requires Measured(cfg, w)
    ensures 0 <= w.nanos <= if w.out.Response? then Longest(cfg) else 3_000_000_000
    ensures !w.out.RedirectLoop?
  {
    CeilingIsBase(Shortest(cfg), Longest(cfg), w.attempt);
  }

  lemma {:induction false} TotalBounded(cfg: Config, ws: seq<Wait>)
    requires forall w :: w in ws ==> Measured(cfg, w)
    ensures 0 <= Total(ws) <= Count(ws, Throttle) * Longest(cfg) + (Count(ws, Timeout) + Count(ws, Connection)) * 3_000_000_000
  {
    hide Measured, Longest;
    if ws != [] {
      TotalBounded(cfg, ws[1..]);
      assert ws[0] in ws;
      WaitBounded(cfg, ws[0]);
      var n, hi := Count(ws[1..], Throttle), Longest(cfg);
      assert (n + 1) * hi == n * hi + hi;
    }
  }

  // The time one check can spend waiting between attempts.
  lemma WaitingBounded(cfg: Config, t: Target, host: string, env: Env)
    ensures 0 <= Total(Check(cfg, t, host, env).waits) <=
            cfg.maxRetries * Longest(cfg) + (cfg.maxRetries + if cfg.connectRetries > 0 then cfg.connectRetries else 0) * 3_000_000_000
  {
    hide Check, Measured, Count, Total;
    var ws := Check(cfg, t, host, env).waits;
    WaitsMeasured(cfg, t, host, env);
    TotalBounded(cfg, ws);
    RetryBudgets(cfg, t, host, env, Throttle);
    RetryBudgets(cfg, t, host, env, Timeout);
    RetryBudgets(cfg, t, host, env, Connection);
    TimesMonotone(Count(ws, Throttle), cfg.maxRetries, Longest(cfg));
  }

  lemma TimesMonotone(a: nat, b: nat, k: nat)
    requires a <= b
    ensures a * k <= b * k
  {
  }

  // ---------------------------------------------------------------- budgets used up

  // An outcome that is retried for as long as its budget lasts.
  predicate Retryable(cfg: Config, e: Event, c: Cause) {
    && !e.cancelled && !e.interrupted
    && match e.out
       case RedirectLoop => false
       case TimedOut => c == Timeout
       case ConnFailed => c == Connection
       case Response(code, header) =>
         c == Throttle && (code == 503 || (code == 429 && cfg.retryOn429)) && !RetryAfterTooLong(cfg, header)
  }

  lemma JudgeRetryable(cfg: Config, r: Counters, e: Event, c: Cause, i: nat)
    requires Retryable(cfg, e, c)
    ensures
      var (r1, retry) := Judge(cfg, Hooked(r, i), e);
      && (retry <==> Spent(r, c) < Budget(cfg, c))
      && Spent(r1, c) == Spent(r, c) + 1
      && Spent(ComputeBackoff(cfg, r1, i, e.out, e.draw).0, c) == Spent(r1, c)
  {
  }

  lemma {:induction false} SteadyDrive(cfg: Config, r: Counters, ev: nat -> Event, n: nat, i: nat, e: Event, c: Cause)
    requires i <= cfg.RetryMax() && Retryable(cfg, e, c) && forall k :: ev(k) == e
    ensures
      var t := Drive(cfg, r, ev, n, i);
      && |t.waits| == Min(Max(0, Budget(cfg, c) - Spent(r, c)), cfg.RetryMax() - i)
      && t.attempts == 1 + |t.waits|
      && Spent(t.state, c) == Spent(r, c) + t.attempts
      && t.ending == EndingOf(e.out)
    decreases cfg.RetryMax() - i
  {
    hide Judge, ComputeBackoff, Hooked, Spent, Budget;
    JudgeRetryable(cfg, r, e, c, i);
    var (r1, retry) := Judge(cfg, Hooked(r, i), e);
    assert ev(n) == e && !e.cancelled && !e.interrupted;
    if retry && i != cfg.RetryMax() {
      SteadyDrive(cfg, ComputeBackoff(cfg, r1, i, e.out, e.draw).0, ev, n + 1, i + 1, e, c);
    }
  }

  // The budgets are not merely upper bounds: a host that keeps failing in one way uses its
  // budget up exactly. Throttling and timeouts end the check with HEAD; refused connections
  // leave GET its one attempt.
  lemma BudgetUsedUp(cfg: Config, t: Target, host: string, ev: nat -> Event, e: Event, c: Cause)
    requires Retryable(cfg, e, c) && forall k :: ev(k) == e
    ensures
      var k := Check(cfg, t, host, Env(false, ev, false, false));
      && k.requests == (if c.Connection? then 2 else 1)
      && k.attempts == Budget(cfg, c) + k.requests
  {
    hide Drive;
    var env := Env(false, ev, false, false);
    var head := HeadTrip(cfg, env);
    SteadyDrive(cfg, Zero, ev, 0, 0, e, c);
    if c.Connection? {
      SteadyDrive(cfg, head.state, ev, head.attempts, 0, e, c);
    }
  }

  // ---------------------------------------------------------------- Retry-After

  // The largest number of seconds whose nanoseconds fit 64 bits.
  const SecondsCap: int := 9223372036

  lemma WrapExact(n: int)
    requires 0 <= n < 0x8000_0000_0000_0000
    ensures Wrap64(n * Second) == n * Second <==> n <= SecondsCap
    ensures Wrap64(n * Second) < 0x8000_0000_0000_0000
  {
  }

  // With a limit configured, a throttled attempt that asks for n seconds and is retried
  // waits n seconds exactly when n seconds fit 64 bits, and then n seconds are within the
  // limit: the cap never shortens an honoured Retry-After.
  lemma RetryAfterHonoured(cfg: Config, t: Target, host: string, env: Env, w: Wait)
    requires w in Check(cfg, t, host, env).waits && w.out.Response? && w.out.header.Seconds?
    requires 0 <= w.out.header.n < 0x8000_0000_0000_0000
    requires 0 < cfg.backoffMax < 0x8000_0000_0000_0000
    ensures w.nanos == w.out.header.n * 1_000_000_000 <==> w.out.header.n <= 9223372036
    ensures w.out.header.n <= 9223372036 ==> w.out.header.n * 1_000_000_000 <= cfg.backoffMax
  {
    hide Check, Wrap64;
    WaitsMeasured(cfg, t, host, env);
    WrapExact(w.out.header.n);
  }

  // Without a limit the wait is still capped, at two minutes.
  lemma RetryAfterUncapped(cfg: Config, t: Target, host: string, env: Env, w: Wait)
    requires w in Check(cfg, t, host, env).waits && w.out.Response? && w.out.header.Seconds?
    requires 0 <= w.out.header.n <= SecondsCap && cfg.backoffMax <= 0
    ensures w.nanos == if w.out.header.n <= 120 then w.out.header.n * 1_000_000_000 else 120_000_000_000
  {
    hide Check, Wrap64;
    WaitsMeasured(cfg, t, host, env);
    WrapExact(w.out.header.n);
  }

  lemma {:induction false} SteadyWaits(cfg: Config, r: Counters, ev: nat -> Event, n: nat, i: nat, e: Event)
    requires i <= cfg.RetryMax() && forall k :: ev(k) == e
    ensures forall w :: w in Drive(cfg, r, ev, n, i).waits ==> w.out == e.out
    decreases cfg.RetryMax() - i
  {
    hide Judge, ComputeBackoff, Hooked;
    var (r1, retry) := Judge(cfg, Hooked(r, i), e);
    assert ev(n) == e;
    if !e.cancelled && retry && i != cfg.RetryMax() && !e.interrupted {
      SteadyWaits(cfg, ComputeBackoff(cfg, r1, i, e.out, e.draw).0, ev, n + 1, i + 1, e);
    }
  }

  lemma {:induction false} NoneTotal(ws: seq<Wait>)
    requires forall w :: w in ws ==> w.nanos == 0
    ensures Total(ws) == 0
  {
    if ws != [] { NoneTotal(ws[1..]); }
  }

  // A server that asks for one second more than that gets every retry the budget holds
  // without any pause, whatever limit is configured.
  lemma HugeRetryAfterIsNoWait(cfg: Config, t: Target, host: string, ev: nat -> Event, e: Event)
    requires e == Event(Response(503, Seconds(SecondsCap + 1)), false, false, e.draw) && forall k :: ev(k) == e
    ensures
      var k := Check(cfg, t, host, Env(false, ev, false, false));
      k.attempts == cfg.maxRetries + 1 && Total(k.waits) == 0
  {
    hide Drive, Measured, Total;
    var env := Env(false, ev, false, false);
    assert Wrap64((SecondsCap + 1) * 1_000_000_000) == -9223372036709551616;
    assert ParseRetryAfter(e.out.header) == Some(-9223372036709551616);
    BudgetUsedUp(cfg, t, host, ev, e, Throttle);
    SteadyWaits(cfg, Zero, ev, 0, 0, e);
    WaitsMeasured(cfg, t, host, env);
    var ws := Check(cfg, t, host, env).waits;
    forall w | w in ws
      ensures w.nanos == 0
    {
      MeasuredNegative(cfg, w);
    }
    NoneTotal(ws);
  }

  lemma MeasuredNegative(cfg: Config, w: Wait)
    requires Measured(cfg, w) && w.out.Response?
    ensures w.out.header.Seconds? && w.out.header.n >= 0 && Wrap64(w.out.header.n * 1_000_000_000) <= 0 ==> w.nanos == 0
  {
  }

  // ---------------------------------------------------------------- the verdict

  lemma SendNotes(cfg: Config, r: Counters, env: Env, n: nat)
    requires !env.badUrl
    ensures Noted(r, Send(cfg, r, env, n), env.ev, n, 0)
  {
    hide Drive, Noted;
    DriveNotes(cfg, r, env.ev, n, 0);
  }

  lemma SendEnds(cfg: Config, r: Counters, env: Env, n: nat)
    requires !env.badUrl
    ensures
      var t := Send(cfg, r, env, n);
      && t.attempts >= 1
      && (!t.ending.Ended? ==>
            && t.ending == EndingOf(env.ev(n + t.attempts - 1).out)
            && !env.ev(n + t.attempts - 1).cancelled)
  {
    hide Drive;
    DriveEnds(cfg, r, env.ev, n, 0);
  }

  // What a check reports about its own attempts: the retries are the attempts that were not
  // the first of their request, a 429 is reported exactly when one was received, and the
  // Retry-After that feeds the host's cooldown is the last one honoured. An interrupted
  // check reports none of this.
  lemma CountersReported(cfg: Config, t: Target, host: string, env: Env)
    ensures
      var k := Check(cfg, t, host, env);
      && (k.result.err.None? && !env.badUrl ==>
            && k.result.retries == k.attempts - k.requests
            && (k.result.saw429 <==> Throttled429(env.ev, 0, k.attempts))
            && k.result.retryAfter == Honoured(k.waits, 0))
      && (k.result.err.Some? || env.badUrl ==> k.result.retries == 0 && !k.result.saw429 && k.result.retryAfter == 0)
  {
    hide Drive, Send, Throttled429, Honoured;
    var head := HeadTrip(cfg, env);
    var get := GetTrip(cfg, env);
    if env.badUrl {
      BadUrl(cfg, Zero, env, 0);
      BadUrl(cfg, head.state, env, head.attempts);
    } else {
      SendNotes(cfg, Zero, env, 0);
      Throttled429None(env.ev, 0);
      if !HeadDecides(cfg, env, head) {
        SendNotes(cfg, head.state, env, head.attempts);
        Throttled429Joins(env.ev, 0, head.attempts, head.attempts + get.attempts);
        HonouredJoin(head.waits, get.waits, 0);
      }
    }
  }

  // So a Retry-After that was honoured is forgotten when the context ends during the next
  // attempt: what the check reports to its host's limiter mentions neither.
  lemma InterruptedForgets(cfg: Config, t: Target, host: string, env: Env)
    requires cfg.maxRetries >= 1 && cfg.retryOn429 && cfg.backoffMax >= 5 * Second && !env.badUrl
    requires env.ev(0) == Event(Response(429, Seconds(5)), false, false, 0) && env.ev(1).cancelled
    ensures
      var k := Check(cfg, t, host, env);
      && k.waits == [Wait(Response(429, Seconds(5)), 0, 5 * Second)]
      && HeadTrip(cfg, env).state.retryAfter == 5 * Second
      && k.result.err.Some? && k.result.retryAfter == 0 && !k.result.saw429
  {
    var e := env.ev(0);
    assert Wrap64(5 * Second) == 5 * Second;
    var r1 := Judge(cfg, Hooked(Zero, 0), e).0;
    var r2 := ComputeBackoff(cfg, r1, 0, e.out, e.draw).0;
    assert Drive(cfg, r2, env.ev, 1, 1) == Trip(Hooked(r2, 1), 1, [], Ended);
    assert Drive(cfg, Zero, env.ev, 0, 0).ending == Ended;
  }

  lemma BadUrl(cfg: Config, r: Counters, env: Env, n: nat)
    requires env.badUrl
    ensures Send(cfg, r, env, n) == Trip(r, 0, [], Failed(false))
  {
  }

  lemma Throttled429None(ev: nat -> Event, n: nat)
    ensures !Throttled429(ev, n, n)
  {
  }

  lemma Throttled429Joins(ev: nat -> Event, n: nat, m: nat, p: nat)
    requires n <= m <= p
    ensures Throttled429(ev, n, p) <==> Throttled429(ev, n, m) || Throttled429(ev, m, p)
  {
  }

  // How a request was stopped: its last attempt found the context ended, or was followed by
  // a wait that was cut short.
  lemma {:induction false} DriveStops(cfg: Config, r: Counters, ev: nat -> Event, n: nat, i: nat)
    requires i <= cfg.RetryMax()
    ensures
      var t := Drive(cfg, r, ev, n, i);
      && t.attempts >= 1
      && (t.ending.Ended? <==> ev(n + t.attempts - 1).cancelled || t.attempts == |t.waits|)
      && (t.attempts == |t.waits| ==> ev(n + t.attempts - 1).interrupted && !ev(n + t.attempts - 1).cancelled)
    decreases cfg.RetryMax() - i
  {
    hide ComputeBackoff;
    var e := ev(n);
    var (r1, retry) := Judge(cfg, Hooked(r, i), e);
    assert e.cancelled ==> !retry;
    if !e.cancelled && retry && i != cfg.RetryMax() && !e.interrupted {
      DriveStops(cfg, ComputeBackoff(cfg, r1, i, e.out, e.draw).0, ev, n + 1, i + 1);
    }
  }

  // Some wait of the check was cut short: there is one more of them than a check with that
  // many requests and attempts has.
  predicate CutShort(k: Checked) {
    k.attempts < k.requests + |k.waits|
  }

  // Whether the context had ended when the check looked after its last request failed.
  predicate Late(k: Checked, env: Env) {
    if k.requests == 1 then env.lateHead else env.lateGet
  }

  lemma SendStops(cfg: Config, r: Counters, env: Env, n: nat)
    requires !env.badUrl
    ensures
      var t := Send(cfg, r, env, n);
      var last := env.ev(n + t.attempts - 1);
      && t.attempts >= 1
      && |t.waits| <= t.attempts <= 1 + |t.waits|
      && (t.ending.Ended? <==> last.cancelled || t.attempts == |t.waits|)
      && (t.attempts == |t.waits| ==> last.interrupted)
      && (!t.ending.Ended? ==> t.ending == EndingOf(last.out) && !last.cancelled)
  {
    hide Drive, Measured;
    DriveStops(cfg, r, env.ev, n, 0);
    DriveEnds(cfg, r, env.ev, n, 0);
    DrivePaced(cfg, r, env.ev, n, 0);
  }

  // A check is an error exactly when it was stopped: its last attempt found the context
  // ended, the wait after it was cut short, or it failed and the context had ended when the
  // check looked. Otherwise the last attempt alone decides: an answer's status is the
  // result's, alive exactly when the policy lists it; without an answer, be it a timeout, a
  // refusal or a redirect loop, the link is dead with code 0 and no error.
  lemma LastAttemptDecides(cfg: Config, t: Target, host: string, env: Env)
    requires !env.badUrl
    ensures
      var k := Check(cfg, t, host, env);
      var last := env.ev(k.attempts - 1);
      && k.attempts >= 1
      && (CutShort(k) ==> last.interrupted)
      && if last.cancelled || CutShort(k) || (!last.out.Response? && Late(k, env)) then
           k.result.err.Some? && k.result.state == StateError && k.result.statusCode == 0
         else if last.out.Response? then
           && k.result.err == None
           && k.result.statusCode == last.out.code
           && k.result.state == if last.out.code in cfg.alive then StateAlive else StateDead
         else
           k.result.err == None && k.result.statusCode == 0 && k.result.state == StateDead
  {
    hide Drive, Send;
    var head := HeadTrip(cfg, env);
    SendStops(cfg, Zero, env, 0);
    if !HeadDecides(cfg, env, head) {
      SendStops(cfg, head.state, env, head.attempts);
    }
  }

  // In a context that stays alive no check is an error.
  lemma LiveCheckIsNoError(cfg: Config, t: Target, host: string, env: Env)
    requires !env.lateHead && !env.lateGet && forall k :: !env.ev(k).cancelled && !env.ev(k).interrupted
    ensures
      var r := Check(cfg, t, host, env).result;
      r.err == None && (r.state == StateAlive || r.state == StateDead)
  {
    hide Check;
    if env.badUrl { BadUrlDecides(cfg, t, host, env); } else { LastAttemptDecides(cfg, t, host, env); }
  }

  // A URL no request can be made for is dead with code 0, unless the context had ended when
  // either of the two failures was looked at.
  lemma BadUrlDecides(cfg: Config, t: Target, host: string, env: Env)
    requires env.badUrl
    ensures
      var k := Check(cfg, t, host, env);
      && k.attempts == 0
      && (k.result.err.Some? <==> env.lateHead || env.lateGet)
      && k.result.statusCode == 0
      && k.result.state == if env.lateHead || env.lateGet then StateError else StateDead
  {
    BadUrl(cfg, Zero, env, 0);
  }

  // The GET is sent exactly when the context is alive and HEAD's last attempt settled
  // nothing: it was answered with a status that is neither 2xx, nor alive, nor a throttled
  // one, or it failed other than by timing out.
  lemma GetWhenHeadUndecided(cfg: Config, t: Target, host: string, env: Env)
    requires !env.badUrl
    ensures
      var head := HeadTrip(cfg, env);
      var last := env.ev(head.attempts - 1);
      Check(cfg, t, host, env).requests == 2 <==>
        && !head.ending.Ended?
        && (match last.out
            case Response(code, _) => !(200 <= code < 300) && code !in cfg.alive && code != 429 && code != 503
            case TimedOut => false
            case ConnFailed => !env.lateHead
            case RedirectLoop => !env.lateHead)
  {
    hide Drive, Send;
    SendEnds(cfg, Zero, env, 0);
  }

  // What the cache may rely on: an uninterrupted check reports alive only with a status the
  // policy calls alive, and dead only with none or one it does not. The result is about the
  // target that was asked for and was not read from anywhere else.
  lemma CheckRespectsPolicy(cfg: Config, rest: string, t: Target, host: string, env: Env)
    ensures CacheRuns.RealCheck(CacheRuns.Policy(cfg.alive, rest), Check(cfg, t, host, env).result)
    ensures
      var r := Check(cfg, t, host, env).result;
      && r.target == t && r.host == host && !r.fromCache && !r.reused
      && (r.err.Some? <==> r.state == StateError)
  {
    hide Drive, Send;
  }
}
