// The checker as it runs: the counters are an object shared by both requests of a check and
// mutated by the hooks, the client's retry loop is a loop. Every method computes what the
// functions of module Retry say.
module Checker {
  import opened Model
  import opened Retry

  class RetryState {
    var retries: nat
    var saw429: bool
    var retryAfter: int
    var transportFailures: nat
    var rateLimitRetries: nat
    var timeoutRetries: nat

    constructor ()
      ensures View() == Zero
    {
      retries := 0;
      saw429 := false;
      retryAfter := 0;
      transportFailures := 0;
      rateLimitRetries := 0;
      timeoutRetries := 0;
    }

    function View(): Counters
      reads this
    {
      Counters(retries, saw429, retryAfter, transportFailures, rateLimitRetries, timeoutRetries)
    }
  }

  class HTTPChecker {
    const cfg: Config

    constructor (cfg: Config)
      ensures this.cfg == cfg
    {
      this.cfg := cfg;
    }

    method RequestLogHook(st: RetryState, attempt: nat)
      modifies st
      ensures st.View() == Hooked(old(st.View()), attempt)
    {
      if attempt == 0 { return; }
      st.retries := st.retries + 1;
    }

    method RateLimitRetry(st: RetryState, header: Header) returns (retry: bool)
      modifies st`rateLimitRetries
      ensures retry == (!RetryAfterTooLong(cfg, header) && old(st.rateLimitRetries) < cfg.maxRetries)
      ensures st.rateLimitRetries == old(st.rateLimitRetries) + if RetryAfterTooLong(cfg, header) then 0 else 1
    {
      if RetryAfterTooLong(cfg, header) { return false; }
      st.rateLimitRetries := st.rateLimitRetries + 1;
      return st.rateLimitRetries <= cfg.maxRetries;
    }

    method CheckRetry(st: RetryState, e: Event) returns (retry: bool)
      modifies st
      ensures (st.View(), retry) == Judge(cfg, old(st.View()), e)
    {
      if e.cancelled { return false; }
      match e.out
      case RedirectLoop => return false;
      case TimedOut =>
        st.timeoutRetries := st.timeoutRetries + 1;
        return st.timeoutRetries <= cfg.maxRetries;
      case ConnFailed =>
        st.transportFailures := st.transportFailures + 1;
        return st.transportFailures <= cfg.connectRetries;
      case Response(code, header) =>
        if code == 429 {
          st.saw429 := true;
          if !cfg.retryOn429 { return false; }
          retry := RateLimitRetry(st, header);
        } else if code == 503 {
          retry := RateLimitRetry(st, header);
        } else {
          retry := false;
        }
    }

    method Backoff(st: RetryState, attempt: nat, out: Outcome, draw: nat) returns (nanos: int)
      modifies st`retryAfter
      ensures (st.View(), nanos) == ComputeBackoff(cfg, old(st.View()), attempt, out, draw)
    {
      if !out.Response? { return ConnectBackoff(attempt); }
      if RateLimited(out.code) {
        var asked := ParseRetryAfter(out.header);
        if asked.Some? {
          st.retryAfter := asked.value;
          nanos := asked.value;
          if nanos < 0 { nanos := 0; }
          if nanos > cfg.WaitMax() { nanos := cfg.WaitMax(); }
          return;
        }
      }
      nanos := ExpJitterBackoff(cfg.WaitMin(), cfg.WaitMax(), attempt, draw);
    }

    // One request. The loop, its attempt limit and its two exits are the client library's.
    method Do(st: RetryState, ev: nat -> Event, n: nat) returns (attempts: nat, waits: seq<Wait>, ending: Ending)
      modifies st
      ensures Trip(st.View(), attempts, waits, ending) == Drive(cfg, old(st.View()), ev, n, 0)
    {
      hide Judge, ComputeBackoff, Hooked;
      ghost var whole := Drive(cfg, st.View(), ev, n, 0);
      attempts, waits := 0, [];
      while true
        invariant attempts <= cfg.RetryMax()
        invariant Resumes(whole, attempts, waits, Drive(cfg, st.View(), ev, n + attempts, attempts))
        decreases cfg.RetryMax() - attempts
      {
        var i := attempts;
        var e := ev(n + i);
        ghost var rest := Drive(cfg, st.View(), ev, n + i, i);
        RequestLogHook(st, i);
        attempts := i + 1;
        var retry := CheckRetry(st, e);
        if e.cancelled { return attempts, waits, Ended; }
        if !retry || i == cfg.RetryMax() { return attempts, waits, EndingOf(e.out); }
        var nanos := Backoff(st, i, e.out, e.draw);
        ghost var before := waits;
        waits := waits + [Wait(e.out, i, nanos)];
        if e.interrupted { return attempts, waits, Ended; }
        ghost var next := Drive(cfg, st.View(), ev, n + attempts, attempts);
        assert before + ([Wait(e.out, i, nanos)] + next.waits) == waits + next.waits;
      }
    }

    // A trip that made some attempts and waits already, and goes on as rest.
    static ghost predicate Resumes(whole: Trip, attempts: nat, waits: seq<Wait>, rest: Trip) {
      whole == Trip(rest.state, attempts + rest.attempts, waits + rest.waits, rest.ending)
    }

    method Request(st: RetryState, env: Env, n: nat) returns (attempts: nat, waits: seq<Wait>, ending: Ending)
      modifies st
      ensures Trip(st.View(), attempts, waits, ending) == Send(cfg, old(st.View()), env, n)
    {
      if env.badUrl { return 0, [], Failed(false); }
      attempts, waits, ending := Do(st, env.ev, n);
    }

    method Check(t: Target, host: string, env: Env) returns (k: Checked)
      ensures k == Retry.Check(cfg, t, host, env)
    {
      hide Drive, Send;
      var res := Blank(t).(host := host);
      var st := new RetryState();
      var attempts, waits, ending := Request(st, env, 0);
      match ending {
        case Answered(code) =>
          if ShortCircuit(cfg, code) {
            return Checked(Classify(cfg, res, code, st.View()), 1, attempts, waits);
          }
          if code == 429 || code == 503 {
            return Checked(Classify(cfg, res, code, st.View()), 1, attempts, waits);
          }
        case Ended =>
          return Checked(Interrupted(res), 1, attempts, waits);
        case Failed(timeout) =>
          if env.lateHead {
            return Checked(Interrupted(res), 1, attempts, waits);
          }
          if timeout {
            return Checked(Unreachable(res, st.View()), 1, attempts, waits);
          }
      }
      var more, moreWaits, final := Request(st, env, attempts);
      var total, all := attempts + more, waits + moreWaits;
      match final {
        case Ended =>
          return Checked(Interrupted(res), 2, total, all);
        case Failed(_) =>
          if env.lateGet {
            return Checked(Interrupted(res), 2, total, all);
          }
          return Checked(Unreachable(res, st.View()), 2, total, all);
        case Answered(code) =>
          return Checked(Classify(cfg, res, code, st.View()), 2, total, all);
      }
    }
  }
}
