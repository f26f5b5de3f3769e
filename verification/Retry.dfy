// One link check: a HEAD that may fall back to a GET, each a loop of attempts whose retry
// budgets live in a state shared by both. The client library's loop (attempt, ask
// checkRetry, give up at RetryMax, back off, wait) is written out as Drive.
//
// Everything the network and the clock decide is an Event: one per attempt, in the order
// the attempts are made.
module Retry {
  import opened Model

  // What the Retry-After header holds once trimmed: Seconds is what the 64-bit integer
  // parser returns, Date the time left until an HTTP date.
  datatype Header = NoHeader | Seconds(n: int) | Date(left: int) | Unparsable

  datatype Outcome = Response(code: int, header: Header) | TimedOut | ConnFailed | RedirectLoop

  // cancelled: the context had ended when checkRetry ran; interrupted: it ended during the
  // wait; draw: the random source.
  datatype Event = Event(out: Outcome, cancelled: bool, interrupted: bool, draw: nat)

  datatype Config = Config(
    maxRetries: nat,
    connectRetries: int,
    retryOn429: bool,
    fallbackDelay: int,
    backoffMax: int,
    alive: set<int>)
  {
    function RetryMax(): nat {
      if maxRetries < connectRetries then connectRetries else maxRetries
    }

    function WaitMin(): (d: int)
      ensures d > 0
    {
      OrDefault(fallbackDelay, Second)
    }

    function WaitMax(): (d: int)
      ensures d > 0
    {
      OrDefault(backoffMax, 2 * Minute)
    }
  }

  function OrDefault(d: int, def: int): int {
    if d <= 0 then def else d
  }

  datatype Counters = Counters(
    retries: nat,
    saw429: bool,
    retryAfter: int,
    transportFailures: nat,
    rateLimitRetries: nat,
    timeoutRetries: nat)

  const Zero: Counters := Counters(0, false, 0, 0, 0, 0)

  // ---------------------------------------------------------------- Retry-After

  // A 64-bit product wraps around.
  function Wrap64(x: int): int {
    (x + 0x8000_0000_0000_0000) % 0x1_0000_0000_0000_0000 - 0x8000_0000_0000_0000
  }

  function ParseRetryAfter(h: Header): Option<int> {
    match h
    case NoHeader => None
    case Seconds(n) => if n < 0 then None else Some(Wrap64(n * Second))
    case Date(left) => Some(Max(left, 0))
    case Unparsable => None
  }

  predicate RateLimited(code: int) {
    code == 429 || code == 503
  }

  predicate RetryAfterTooLong(cfg: Config, h: Header) {
    match ParseRetryAfter(h)
    case Some(d) => cfg.backoffMax > 0 && d > cfg.backoffMax
    case None => false
  }

  // ---------------------------------------------------------------- checkRetry

  // The counters afterwards, and whether to retry.
  function Judge(cfg: Config, r: Counters, e: Event): (Counters, bool) {
    if e.cancelled then (r, false)
    else
      match e.out
      case RedirectLoop => (r, false)
      case TimedOut =>
        var r' := r.(timeoutRetries := r.timeoutRetries + 1);
        (r', r'.timeoutRetries <= cfg.maxRetries)
      case ConnFailed =>
        var r' := r.(transportFailures := r.transportFailures + 1);
        (r', r'.transportFailures <= cfg.connectRetries)
      case Response(code, header) =>
        var r1 := if code == 429 then r.(saw429 := true) else r;
        if !RateLimited(code) || (code == 429 && !cfg.retryOn429) || RetryAfterTooLong(cfg, header) then (r1, false)
        else
          var r2 := r1.(rateLimitRetries := r1.rateLimitRetries + 1);
          (r2, r2.rateLimitRetries <= cfg.maxRetries)
  }

  // ---------------------------------------------------------------- backoff

  function Pow2(n: nat): (p: nat)
    ensures p > 0
  {
    if n == 0 then 1 else 2 * Pow2(n - 1)
  }

  // Half a second, one, two, then three.
  function ConnectBackoff(attempt: nat): int {
    Min(500_000_000 * Pow2(if attempt < 3 then attempt else 3), 3 * Second)
  }

  // lo * 2^attempt capped at hi, with full jitter, floored at lo.
  function ExpJitterBackoff(lo: int, hi: int, attempt: nat, draw: nat): int {
    var lo1 := if lo <= 0 then 1_000_000 else lo;
    var lo2 := if hi > 0 && lo1 > hi then hi else lo1;
    var hi2 := Max(hi, lo2);
    var base := Min(Pow2(attempt) * lo2, hi2);
    Max(draw % (base + 1), lo2)
  }

  function ComputeBackoff(cfg: Config, r: Counters, attempt: nat, out: Outcome, draw: nat): (Counters, int) {
    if !out.Response? then (r, ConnectBackoff(attempt))
    else if RateLimited(out.code) && ParseRetryAfter(out.header).Some? then
      var d := ParseRetryAfter(out.header).value;
      (r.(retryAfter := d), Min(Max(d, 0), cfg.WaitMax()))
    else (r, ExpJitterBackoff(cfg.WaitMin(), cfg.WaitMax(), attempt, draw))
  }

  // ---------------------------------------------------------------- one request

  datatype Wait = Wait(out: Outcome, attempt: nat, nanos: int)

  // How a request ends: with a status, with a transport error, or with the context.
  datatype Ending = Answered(code: int) | Failed(timeout: bool) | Ended

  datatype Trip = Trip(state: Counters, attempts: nat, waits: seq<Wait>, ending: Ending)

  function EndingOf(out: Outcome): Ending {
    match out
    case Response(code, _) => Answered(code)
    case TimedOut => Failed(true)
    case ConnFailed => Failed(false)
    case RedirectLoop => Failed(false)
  }

  // Attempt number i of a request, and whatever follows it; n attempts were made before.
  function Drive(cfg: Config, r: Counters, ev: nat -> Event, n: nat, i: nat): Trip
    requires i <= cfg.RetryMax()
    decreases cfg.RetryMax() - i
  {
    var e := ev(n);
    var (r1, retry) := Judge(cfg, Hooked(r, i), e);
    if e.cancelled then Trip(r1, 1, [], Ended)
    else if !retry || i == cfg.RetryMax() then Trip(r1, 1, [], EndingOf(e.out))
    else
      var (r2, nanos) := ComputeBackoff(cfg, r1, i, e.out, e.draw);
      var w := Wait(e.out, i, nanos);
      if e.interrupted then Trip(r2, 1, [w], Ended)
      else
        var rest := Drive(cfg, r2, ev, n + 1, i + 1);
        Trip(rest.state, 1 + rest.attempts, [w] + rest.waits, rest.ending)
  }

  // The request hook counts every attempt but the first.
  function Hooked(r: Counters, i: nat): Counters {
    if i == 0 then r else r.(retries := r.retries + 1)
  }

  // ---------------------------------------------------------------- one check

  // badUrl: the request cannot even be built; lateHead, lateGet: the context ended after
  // the request had failed and before Check asked.
  datatype Env = Env(badUrl: bool, ev: nat -> Event, lateHead: bool, lateGet: bool)

  datatype Checked = Checked(result: Result, requests: nat, attempts: nat, waits: seq<Wait>)

  function Send(cfg: Config, r: Counters, env: Env, n: nat): Trip {
    if env.badUrl then Trip(r, 0, [], Failed(false)) else Drive(cfg, r, env.ev, n, 0)
  }

  predicate ShortCircuit(cfg: Config, code: int) {
    200 <= code < 300 || code in cfg.alive
  }

  function WithCounters(res: Result, r: Counters): Result {
    res.(retries := r.retries, saw429 := r.saw429, retryAfter := r.retryAfter)
  }

  function Classify(cfg: Config, res: Result, code: int, r: Counters): Result {
    WithCounters(res.(statusCode := code, state := if code in cfg.alive then StateAlive else StateDead), r)
  }

  function Unreachable(res: Result, r: Counters): Result {
    WithCounters(res.(state := StateDead, statusCode := 0, detail := "request failed"), r)
  }

  function Interrupted(res: Result): Result {
    res.(state := StateError, err := Some("context ended"))
  }

  // The HEAD settles the check without a GET.
  predicate HeadDecides(cfg: Config, env: Env, head: Trip) {
    match head.ending
    case Answered(code) => ShortCircuit(cfg, code) || RateLimited(code)
    case Failed(timeout) => env.lateHead || timeout
    case Ended => true
  }

  function Verdict(cfg: Config, res: Result, trip: Trip, late: bool): Result {
    match trip.ending
    case Answered(code) => Classify(cfg, res, code, trip.state)
    case Failed(_) => if late then Interrupted(res) else Unreachable(res, trip.state)
    case Ended => Interrupted(res)
  }

  function Check(cfg: Config, t: Target, host: string, env: Env): Checked {
    var res := Blank(t).(host := host);
    var head := Send(cfg, Zero, env, 0);
    if HeadDecides(cfg, env, head) then Checked(Verdict(cfg, res, head, env.lateHead), 1, head.attempts, head.waits)
    else
      var get := Send(cfg, head.state, env, head.attempts);
      Checked(Verdict(cfg, res, get, env.lateGet), 2, head.attempts + get.attempts, head.waits + get.waits)
  }
}
