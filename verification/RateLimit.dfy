// Per-host pacing: an AIMD controller of the rate fed to a token bucket, and a cooldown
// deadline that Retry-After headers push forward. Rates are real numbers; instants and
// durations count nanoseconds, and the zero instant is before every other.
//
// The token bucket itself is not modelled: its Wait returns or fails, and its limit is the
// number this module computes.
module RateLimit {
  import opened Model

  const AbsMinRPS: real := 0.01
  const PenaltyFloorRPS: real := 0.2
  const MaxCooldown: int := 5 * Minute
  const SuccessesPerRecovery: nat := 5

  function MinReal(a: real, b: real): real {
    if b < a then b else a
  }

  function MaxReal(a: real, b: real): real {
    if a < b then b else a
  }

  // ---------------------------------------------------------------- the controller

  // One host's state: config is the ceiling, limit what the bucket is told.
  datatype Host = Host(
    config: real,
    burst: int,
    limit: real,
    notBefore: nat,
    consecutive: nat,
    requests: nat,
    retries: nat,
    n429: nat,
    first: Option<nat>,
    last: Option<nat>)

  // The calls that change it. now is the clock each call reads, which it does before it
  // takes the lock: successive calls need not carry successive instants.
  datatype Op =
    | Penalize(now: nat, retryAfter: int)
    | Arm(now: nat, retryAfter: int)
    | Success
    | Record(now: nat, tries: int)

  function New(rps: real, burst: int): Host {
    var c := if rps <= 0.0 then AbsMinRPS else rps;
    Host(c, if burst < 1 then 1 else burst, c, 0, 0, 0, 0, 0, None, None)
  }

  function Floor(config: real): real {
    MaxReal(config / 8.0, PenaltyFloorRPS)
  }

  function Clamped(d: int): int {
    Min(Max(d, 0), MaxCooldown)
  }

  // The instant before which an arming forbids requests; zero when it forbids nothing.
  function Deadline(op: Op): nat {
    match op
    case Penalize(now, d) => now + Clamped(d)
    case Arm(now, d) => if d <= 0 then 0 else now + Clamped(d)
    case Success => 0
    case Record(_, _) => 0
  }

  function Cut(limit: real, config: real): real {
    MinReal(MaxReal(limit / 2.0, Floor(config)), config)
  }

  function Raise(limit: real, config: real): real {
    if limit >= config then limit else MinReal(limit + config / 8.0, config)
  }

  function Apply(h: Host, op: Op): Host {
    match op
    case Penalize(_, _) =>
      h.(n429 := h.n429 + 1, limit := Cut(h.limit, h.config), notBefore := Max(h.notBefore, Deadline(op)), consecutive := 0)
    case Arm(_, _) =>
      h.(notBefore := Max(h.notBefore, Deadline(op)))
    case Success =>
      if h.consecutive + 1 < SuccessesPerRecovery then h.(consecutive := h.consecutive + 1)
      else h.(consecutive := 0, limit := Raise(h.limit, h.config))
    case Record(now, tries) =>
      h.(
      requests := h.requests + 1,
      retries := h.retries + Max(tries, 0),
      first := if h.first.None? then Some(now) else h.first,
      last := Some(now))
  }

  function After(h: Host, ops: seq<Op>): Host
    decreases |ops|
  {
    if ops == [] then h else After(Apply(h, ops[0]), ops[1..])
  }

  // ---------------------------------------------------------------- the band

  // The lowest rate penalties can reach: a floor above a tiny ceiling does not raise it.
  function Lowest(config: real): real {
    MinReal(Floor(config), config)
  }

  ghost predicate InBand(h: Host) {
    && h.config > 0.0
    && Lowest(h.config) <= h.limit <= h.config
    && h.consecutive < SuccessesPerRecovery
  }

  lemma ApplyInBand(h: Host, op: Op)
    requires InBand(h)
    ensures InBand(Apply(h, op)) && Apply(h, op).config == h.config
    ensures op.Penalize? ==> h.limit / 2.0 <= Apply(h, op).limit <= h.limit && Apply(h, op).consecutive == 0
    ensures op.Success? ==> Apply(h, op).limit >= h.limit
    ensures !op.Penalize? && !op.Success? ==> Apply(h, op).limit == h.limit && Apply(h, op).consecutive == h.consecutive
  {
  }

  lemma {:induction false} AfterInBand(h: Host, ops: seq<Op>)
    requires InBand(h)
    ensures InBand(After(h, ops)) && After(h, ops).config == h.config
    decreases |ops|
  {
    hide Apply, InBand;
    if ops != [] {
      ApplyInBand(h, ops[0]);
      AfterInBand(Apply(h, ops[0]), ops[1..]);
    }
  }

  // Whatever calls a host receives, its rate stays between the floor and its ceiling, and
  // fewer than five successes are pending.
  lemma RateStaysInBand(rps: real, burst: int, ops: seq<Op>)
    ensures
      var h := After(New(rps, burst), ops);
      && InBand(h)
      && h.config == (if rps > 0.0 then rps else 0.01)
      && h.burst == (if burst < 1 then 1 else burst)
      && h.limit <= h.config
      && (h.limit >= h.config || (h.limit >= h.config / 8.0 && h.limit >= 0.2))
      && h.consecutive <= 4
  {
    AfterInBand(New(rps, burst), ops);
    AfterBurst(New(rps, burst), ops);
  }

  lemma {:induction false} AfterBurst(h: Host, ops: seq<Op>)
    ensures After(h, ops).burst == h.burst
    decreases |ops|
  {
    if ops != [] { AfterBurst(Apply(h, ops[0]), ops[1..]); }
  }

  // ---------------------------------------------------------------- decrease

  function Halved(x: real, k: nat): real {
    if k == 0 then x else Halved(x, k - 1) / 2.0
  }

  function Penalties(ops: seq<Op>): nat {
    if ops == [] then 0 else (if ops[0].Penalize? then 1 else 0) + Penalties(ops[1..])
  }

  function Successes(ops: seq<Op>): nat {
    if ops == [] then 0 else (if ops[0].Success? then 1 else 0) + Successes(ops[1..])
  }

  // The rate k penalties leave behind, in one step.
  function Penalized(limit: real, config: real, k: nat): real {
    if k == 0 then limit else MinReal(MaxReal(Halved(limit, k), Floor(config)), config)
  }

  lemma {:induction false} HalvedShift(x: real, k: nat)
    requires x > 0.0
    ensures Halved(x / 2.0, k) == Halved(x, k) / 2.0
    ensures 0.0 < Halved(x, k) <= x
  {
    if k > 0 { HalvedShift(x, k - 1); }
  }

  // A floor or ceiling already applied makes no difference to the next halvings.
  lemma {:induction false} CutAbsorbed(limit: real, config: real, k: nat)
    requires config > 0.0 && Lowest(config) <= limit <= config
    ensures Penalized(Cut(limit, config), config, k) == Penalized(limit, config, k + 1)
  {
    var cut := Cut(limit, config);
    HalvedShift(limit, k);
    if k == 0 {
    } else if limit / 2.0 >= Floor(config) {
      assert cut == limit / 2.0;
    } else {
      HalvedShift(limit / 2.0, k);
      HalvedShift(cut, k);
    }
  }

  // Penalties with no success between them compound to one formula, whatever else happens.
  lemma {:induction false} PenaltiesCompound(h: Host, ops: seq<Op>)
    requires InBand(h) && Successes(ops) == 0
    ensures After(h, ops).limit == Penalized(h.limit, h.config, Penalties(ops))
    decreases |ops|
  {
    if ops != [] {
      var h1 := Apply(h, ops[0]);
      ApplyInBand(h, ops[0]);
      PenaltiesCompound(h1, ops[1..]);
      if ops[0].Penalize? {
        CutAbsorbed(h.limit, h.config, Penalties(ops[1..]));
      }
    }
  }

  lemma {:induction false} HalvedShrinks(x: real, k: nat, m: nat)
    requires x > 0.0 && k <= m
    ensures Halved(x, m) <= Halved(x, k)
  {
    if k < m {
      HalvedShrinks(x, k, m - 1);
      HalvedShift(x, m - 1);
    }
  }

  // Three penalties with no success between them reach the floor, from any state.
  lemma ThreePenaltiesReachFloor(h: Host, ops: seq<Op>)
    requires InBand(h) && Successes(ops) == 0 && Penalties(ops) >= 3
    ensures After(h, ops).limit ==
            if h.config <= 0.2 then h.config else if h.config / 8.0 <= 0.2 then 0.2 else h.config / 8.0
  {
    PenaltiesCompound(h, ops);
    HalvedShrinks(h.limit, 3, Penalties(ops));
    assert Halved(h.limit, 3) == h.limit / 8.0 by {
      assert Halved(h.limit, 1) == h.limit / 2.0;
      assert Halved(h.limit, 2) == h.limit / 4.0;
    }
  }

  // Two do not, for a host at a ceiling above 0.8 requests a second.
  lemma TwoPenaltiesDoNot(h: Host, ops: seq<Op>)
    requires InBand(h) && Successes(ops) == 0 && Penalties(ops) == 2 && h.limit == h.config > 0.8
    ensures After(h, ops).limit == h.config / 4.0 > 0.2
    ensures After(h, ops).limit > h.config / 8.0
  {
    PenaltiesCompound(h, ops);
    assert Halved(h.limit, 1) == h.limit / 2.0;
  }

  // ---------------------------------------------------------------- increase

  // The rate after k raises, in one step.
  function Raised(limit: real, config: real, k: nat): real {
    if limit >= config then limit else MinReal(limit + k as real * (config / 8.0), config)
  }

  lemma RaiseAbsorbed(limit: real, config: real, k: nat)
    requires 0.0 < config && limit <= config
    ensures Raised(Raise(limit, config), config, k) == Raised(limit, config, k + 1)
  {
    var step := config / 8.0;
    assert (k + 1) as real * step == k as real * step + step;
    assert k as real * step >= 0.0;
  }

  lemma RaisedNone(limit: real, config: real)
    requires limit <= config
    ensures Raised(limit, config, 0) == limit
  {
    assert 0 as real * (config / 8.0) == 0.0;
  }

  // Successes with no penalty between them: every fifth one raises the rate by an eighth of
  // the ceiling, counting those already pending.
  lemma {:induction false} SuccessesAccrue(h: Host, ops: seq<Op>)
    requires InBand(h) && Penalties(ops) == 0
    ensures
      var n := h.consecutive + Successes(ops);
      && After(h, ops).limit == Raised(h.limit, h.config, n / 5)
      && After(h, ops).consecutive == n % 5
    decreases |ops|
  {
    hide Raised, Raise;
    if ops == [] {
      RaisedNone(h.limit, h.config);
    } else {
      var h1 := Apply(h, ops[0]);
      ApplyInBand(h, ops[0]);
      SuccessesAccrue(h1, ops[1..]);
      if ops[0].Success? && h.consecutive + 1 == 5 {
        RaiseAbsorbed(h.limit, h.config, Successes(ops[1..]) / 5);
      }
    }
  }

  // Thirty-five successes with no penalty between them restore the ceiling, from any state.
  lemma ThirtyFiveSuccessesRecover(h: Host, ops: seq<Op>)
    requires InBand(h) && Penalties(ops) == 0 && Successes(ops) >= 35
    ensures After(h, ops).limit == h.config
  {
    hide After, Successes, Penalties, Raised;
    SuccessesAccrue(h, ops);
    SevenRaises(h.limit, h.config, (h.consecutive + Successes(ops)) / 5);
  }

  lemma SevenRaises(limit: real, config: real, k: nat)
    requires 0.0 < config && config / 8.0 <= limit <= config && k >= 7
    ensures Raised(limit, config, k) == config
  {
    var step := config / 8.0;
    TimesMonotone(7, k, step);
    assert 7 as real * step == 7.0 * step;
  }

  lemma TimesMonotone(a: nat, b: nat, x: real)
    requires a <= b && x >= 0.0
    ensures a as real * x <= b as real * x
  {
    assert (b - a) as real * x >= 0.0;
  }

  // Thirty-four do not, for a host just penalised to an eighth of its ceiling.
  lemma ThirtyFourDoNot(h: Host, ops: seq<Op>)
    requires InBand(h) && Penalties(ops) == 0 && Successes(ops) == 34
    requires h.config >= 1.6 && h.limit == Lowest(h.config) && h.consecutive == 0
    ensures After(h, ops).limit == h.config * 7.0 / 8.0
  {
    hide After, Successes, Penalties;
    SuccessesAccrue(h, ops);
    assert Lowest(h.config) == h.config / 8.0;
    assert 34 / 5 == 6;
    assert 6 as real * (h.config / 8.0) == 6.0 * (h.config / 8.0);
  }

  // ---------------------------------------------------------------- cooldown

  // The latest instant any of the calls forbids requests until.
  function LatestDeadline(ops: seq<Op>): nat {
    if ops == [] then 0 else Max(Deadline(ops[0]), LatestDeadline(ops[1..]))
  }

  lemma {:induction false} NotBeforeIsLatest(h: Host, ops: seq<Op>)
    ensures After(h, ops).notBefore == Max(h.notBefore, LatestDeadline(ops))
    decreases |ops|
  {
    if ops != [] { NotBeforeIsLatest(Apply(h, ops[0]), ops[1..]); }
  }

  // A call asks for requests to wait until t: an arming or a penalty with a positive delay,
  // of which at most five minutes count, or a penalty with none.
  predicate Asks(op: Op, t: int) {
    match op
    case Penalize(now, d) => t == if d <= 0 then now else if d >= 300_000_000_000 then now + 300_000_000_000 else now + d
    case Arm(now, d) => d > 0 && t == if d >= 300_000_000_000 then now + 300_000_000_000 else now + d
    case Success => false
    case Record(_, _) => false
  }

  lemma AskedDeadline(op: Op)
    ensures forall t :: Asks(op, t) ==> Deadline(op) == t
    ensures Deadline(op) > 0 ==> Asks(op, Deadline(op))
  {
  }

  // The deadline is the latest any call has asked for, so it only moves forward: it is no
  // earlier than what each of them asked for, and it is what it was or what one of them
  // asked for.
  lemma CooldownIsLatest(h: Host, ops: seq<Op>)
    ensures After(h, ops).notBefore >= h.notBefore
    ensures forall op, t :: op in ops && Asks(op, t) ==> After(h, ops).notBefore >= t
    ensures After(h, ops).notBefore == h.notBefore || exists op :: op in ops && Asks(op, After(h, ops).notBefore)
  {
    hide Deadline, Apply, LatestDeadline, Asks;
    NotBeforeIsLatest(h, ops);
    LatestIsGreatest(ops);
    forall op
      ensures forall t :: Asks(op, t) ==> Deadline(op) == t
      ensures Deadline(op) > 0 ==> Asks(op, Deadline(op))
    {
      AskedDeadline(op);
    }
  }

  lemma {:induction false} LatestIsGreatest(ops: seq<Op>)
    ensures forall op :: op in ops ==> Deadline(op) <= LatestDeadline(ops)
    ensures LatestDeadline(ops) == 0 || exists op :: op in ops && Deadline(op) == LatestDeadline(ops)
  {
    if ops != [] {
      LatestIsGreatest(ops[1..]);
      assert ops[0] in ops;
      assert forall op :: op in ops[1..] ==> op in ops;
    }
  }

  // The order in which calls take the lock makes no difference to the deadline: a later
  // penalty never shortens a cooldown armed before it, nor the other way round.
  lemma CooldownIgnoresOrder(h: Host, a: seq<Op>, b: seq<Op>)
    requires forall op :: op in a <==> op in b
    ensures After(h, a).notBefore == After(h, b).notBefore
  {
    hide Deadline, Apply, LatestDeadline;
    NotBeforeIsLatest(h, a);
    NotBeforeIsLatest(h, b);
    LatestIsGreatest(a);
    LatestIsGreatest(b);
  }

  // No header wedges a host: the deadline is at most five minutes after the latest call.
  lemma {:induction false} CooldownCapped(h: Host, ops: seq<Op>, now: nat)
    requires h.notBefore <= now + MaxCooldown
    requires forall op :: op in ops && (op.Penalize? || op.Arm?) ==> op.now <= now
    ensures h.notBefore <= After(h, ops).notBefore <= now + 300_000_000_000
    decreases |ops|
  {
    if ops != [] {
      assert ops[0] in ops;
      CooldownCapped(Apply(h, ops[0]), ops[1..], now);
    }
  }

  // ---------------------------------------------------------------- Acquire

  // One sleep of a pacer: the calls other threads made meanwhile, the instant it woke up,
  // or the end of its context.
  datatype Nap = Nap(ops: seq<Op>, wakes: nat, cancelled: bool)

  datatype Acquired = Granted(at: nat) | Refused | Sleeping

  datatype Turn = Turn(host: Host, out: Acquired, sleeps: nat)

  // What follows the token: read the deadline, sleep it out, read it again. A pacer that
  // has used up naps is still asleep.
  function AwaitCooldown(h: Host, now: nat, naps: seq<Nap>): Turn
    decreases |naps|
  {
    if h.notBefore <= now then Turn(h, Granted(now), 0)
    else if naps == [] then Turn(h, Sleeping, 0)
    else
      var h' := After(h, naps[0].ops);
      if naps[0].cancelled then Turn(h', Refused, 1)
      else
        var rest := AwaitCooldown(h', naps[0].wakes, naps[1..]);
        rest.(sleeps := 1 + rest.sleeps)
  }

  // All the calls that arrived during the first n sleeps.
  function Meanwhile(naps: seq<Nap>, n: nat): seq<Op>
    requires n <= |naps|
  {
    if n == 0 then [] else naps[0].ops + Meanwhile(naps[1..], n - 1)
  }

  lemma {:induction false} AfterJoin(h: Host, a: seq<Op>, b: seq<Op>)
    ensures After(h, a + b) == After(After(h, a), b)
    decreases |a|
  {
    if a == [] {
      assert a + b == b;
    } else {
      assert (a + b)[1..] == a[1..] + b;
      AfterJoin(Apply(h, a[0]), a[1..], b);
    }
  }

  lemma {:induction false} TurnSound(h: Host, now: nat, naps: seq<Nap>)
    ensures
      var t := AwaitCooldown(h, now, naps);
      && t.sleeps <= |naps|
      && t.host == After(h, Meanwhile(naps, t.sleeps))
      && (t.out.Granted? ==> t.host.notBefore <= t.out.at)
      && (t.out.Refused? ==> t.sleeps > 0 && naps[t.sleeps - 1].cancelled)
    decreases |naps|
  {
    if h.notBefore > now && naps != [] {
      var h' := After(h, naps[0].ops);
      if naps[0].cancelled {
        assert Meanwhile(naps[1..], 0) == [];
        assert naps[0].ops + [] == naps[0].ops;
      } else {
        TurnSound(h', naps[0].wakes, naps[1..]);
        AfterJoin(h, naps[0].ops, Meanwhile(naps[1..], AwaitCooldown(h', naps[0].wakes, naps[1..]).sleeps));
      }
    }
  }

  // A pacer is let through only at an instant no arming forbids: neither one made before it
  // asked, nor one that arrived in any of its sleeps.
  lemma GrantedAfterEveryDeadline(h: Host, before: seq<Op>, now: nat, naps: seq<Nap>, op: Op, t: int)
    requires
      var turn := AwaitCooldown(After(h, before), now, naps);
      turn.out.Granted? && (op in before || (turn.sleeps <= |naps| && op in Meanwhile(naps, turn.sleeps)))
    requires op.Penalize? || op.Arm?
    requires op.retryAfter > 0 && t == op.now + (if op.retryAfter < 300_000_000_000 then op.retryAfter else 300_000_000_000)
    ensures t <= AwaitCooldown(After(h, before), now, naps).out.at
  {
    hide Deadline, Apply, After, AwaitCooldown;
    var turn := AwaitCooldown(After(h, before), now, naps);
    assert Asks(op, t);
    TurnSound(After(h, before), now, naps);
    CooldownIsLatest(h, before);
    CooldownIsLatest(After(h, before), Meanwhile(naps, turn.sleeps));
  }

  // A timer never fires early.
  ghost predicate Honest(h: Host, naps: seq<Nap>)
    decreases |naps|
  {
    naps != [] ==> naps[0].wakes >= h.notBefore && Honest(After(h, naps[0].ops), naps[1..])
  }

  // How many sleeps saw the deadline pushed beyond their own end.
  function Extensions(h: Host, naps: seq<Nap>): nat
    decreases |naps|
  {
    if naps == [] then 0
    else
      var h' := After(h, naps[0].ops);
      (if h'.notBefore > h.notBefore then 1 else 0) + Extensions(h', naps[1..])
  }

  // A pacer sleeps at most once more than the deadline was extended under it, so only new
  // armings can keep it waiting.
  lemma {:induction false} SleepsBoundedByExtensions(h: Host, now: nat, naps: seq<Nap>)
    requires Honest(h, naps)
    ensures AwaitCooldown(h, now, naps).sleeps <= 1 + Extensions(h, naps)
    ensures |naps| > Extensions(h, naps) ==> !AwaitCooldown(h, now, naps).out.Sleeping?
    decreases |naps|
  {
    hide Apply, After;
    if naps != [] && h.notBefore > now && !naps[0].cancelled {
      var h' := After(h, naps[0].ops);
      NotBeforeIsLatest(h, naps[0].ops);
      if h'.notBefore > h.notBefore {
        SleepsBoundedByExtensions(h', naps[0].wakes, naps[1..]);
      }
    }
  }

  // ---------------------------------------------------------------- the object

  // The limiter field stands for the limit last given to the token bucket.
  class HostState {
    const configRPS: real
    const burst: int
    var limiter: real
    var requests: nat
    var retries: nat
    var n429: nat
    var notBefore: nat
    var consecutive: nat
    var first: Option<nat>
    var last: Option<nat>

    function View(): Host
      reads this
    {
      Host(configRPS, burst, limiter, notBefore, consecutive, requests, retries, n429, first, last)
    }

    constructor (rps: real, burst: int)
      ensures View() == New(rps, burst) && InBand(View())
      ensures configRPS == limiter == (if rps > 0.0 then rps else 0.01) && this.burst == (if burst < 1 then 1 else burst)
    {
      var c := rps;
      if rps <= 0.0 { c := AbsMinRPS; }
      configRPS := c;
      this.burst := if burst < 1 then 1 else burst;
      limiter := c;
      requests, retries, n429, notBefore, consecutive := 0, 0, 0, 0, 0;
      first, last := None, None;
    }

    function PenaltyFloor(): (f: real)
      ensures f == Floor(configRPS)
    {
      var f := configRPS / 8.0;
      if f > PenaltyFloorRPS then f else PenaltyFloorRPS
    }

    method Record(now: nat, tries: int)
      modifies this
      ensures View() == Apply(old(View()), Op.Record(now, tries))
      ensures requests == old(requests) + 1 && retries == old(retries) + if tries > 0 then tries else 0
      ensures first == (if old(first) == None then Some(now) else old(first)) && last == Some(now)
      ensures limiter == old(limiter) && notBefore == old(notBefore) && consecutive == old(consecutive) && n429 == old(n429)
    {
      requests := requests + 1;
      if tries > 0 { retries := retries + tries; }
      if first.None? { first := Some(now); }
      last := Some(now);
    }

    method ArmCooldown(now: nat, retryAfter: int)
      modifies this`notBefore
      ensures View() == Apply(old(View()), Arm(now, retryAfter))
      ensures notBefore >= old(notBefore)
      ensures retryAfter > 0 ==> notBefore >= now + if retryAfter < 300_000_000_000 then retryAfter else 300_000_000_000
      ensures notBefore == old(notBefore) ||
              (retryAfter > 0 && notBefore == now + if retryAfter < 300_000_000_000 then retryAfter else 300_000_000_000)
    {
      if retryAfter <= 0 { return; }
      var wait := retryAfter;
      if wait > MaxCooldown { wait := MaxCooldown; }
      var nb := now + wait;
      if nb > notBefore { notBefore := nb; }
    }

    method Penalize429(now: nat, retryAfter: int)
      modifies this
      ensures View() == Apply(old(View()), Penalize(now, retryAfter))
      ensures n429 == old(n429) + 1 && consecutive == 0
      ensures requests == old(requests) && retries == old(retries) && first == old(first) && last == old(last)
      ensures
        var until := now + if retryAfter <= 0 then 0 else if retryAfter < 300_000_000_000 then retryAfter else 300_000_000_000;
        notBefore == if old(notBefore) < until then until else old(notBefore)
      ensures
        var halved := old(limiter) / 2.0;
        var floor := if configRPS > 1.6 then configRPS / 8.0 else 0.2;
        limiter == if configRPS <= halved || configRPS <= floor then configRPS else if halved < floor then floor else halved
    {
      n429 := n429 + 1;
      var wait := retryAfter;
      if wait < 0 { wait := 0; }
      if wait > MaxCooldown { wait := MaxCooldown; }
      var nb := now + wait;
      var next := limiter / 2.0;
      if next < PenaltyFloor() { next := PenaltyFloor(); }
      if next > configRPS { next := configRPS; }
      limiter := next;
      if nb > notBefore { notBefore := nb; }
      consecutive := 0;
    }

    method OnSuccess()
      modifies this
      ensures View() == Apply(old(View()), Success)
      ensures consecutive == if old(consecutive) >= 4 then 0 else old(consecutive) + 1
      ensures n429 == old(n429) && notBefore == old(notBefore) && requests == old(requests) && retries == old(retries)
      ensures
        var raised := old(limiter) + configRPS / 8.0;
        limiter == if old(consecutive) < 4 || old(limiter) >= configRPS then old(limiter)
                   else if raised > configRPS then configRPS else raised
    {
      consecutive := consecutive + 1;
      if consecutive < SuccessesPerRecovery { return; }
      consecutive := 0;
      if limiter >= configRPS { return; }
      var next := limiter + configRPS / 8.0;
      if next > configRPS { next := configRPS; }
      limiter := next;
    }

    // The calls other threads make while the pacer sleeps.
    method Meet(ops: seq<Op>)
      modifies this
      ensures View() == After(old(View()), ops)
    {
      for k := 0 to |ops|
        invariant After(View(), ops[k..]) == After(old(View()), ops)
      {
        assert ops[k..][1..] == ops[k + 1..];
        match ops[k]
        case Penalize(now, d) => Penalize429(now, d);
        case Arm(now, d) => ArmCooldown(now, d);
        case Success => OnSuccess();
        case Record(now, tries) => Record(now, tries);
      }
    }

    // bucket says whether the token bucket granted a token; now is the clock at the first
    // read of the deadline.
    method Acquire(bucket: bool, now: nat, naps: seq<Nap>) returns (out: Acquired, ghost sleeps: nat)
      modifies this
      ensures !bucket ==> out == Refused && View() == old(View())
      ensures bucket ==> Turn(View(), out, sleeps) == AwaitCooldown(old(View()), now, naps)
      ensures sleeps <= |naps|
      ensures out.Granted? ==> bucket && notBefore <= out.at && out.at == if sleeps == 0 then now else naps[sleeps - 1].wakes
    {
      hide After, Apply;
      sleeps := 0;
      if !bucket { return Refused, 0; }
      var clock := now;
      var k := 0;
      while true
        invariant k <= |naps| && sleeps == k && clock == if k == 0 then now else naps[k - 1].wakes
        invariant
          var rest := AwaitCooldown(View(), clock, naps[k..]);
          AwaitCooldown(old(View()), now, naps) == rest.(sleeps := k + rest.sleeps)
        decreases |naps| - k
      {
        if notBefore <= clock { return Granted(clock), k; }
        if k == |naps| { return Sleeping, k; }
        assert naps[k..][1..] == naps[k + 1..];
        Meet(naps[k].ops);
        sleeps := k + 1;
        if naps[k].cancelled { return Refused, k + 1; }
        clock := naps[k].wakes;
        k := k + 1;
      }
    }
  }
}
