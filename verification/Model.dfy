// The leaf data types shared by every other module: link targets, check results and the
// two projections of a canonical result onto one occurrence of a link.
module Model {
  datatype Option<+T> = None | Some(value: T)

  datatype Kind = KindHTTP | KindFileRel | KindHashLocal | KindMailto

  datatype LinkState = StateAlive | StateDead | StateIgnored | StateError

  datatype Target = Target(
    raw: string,
    url: string,
    kind: Kind,
    sourceFile: string,
    line: int,
    fragment: string)

  // Durations and times are integers counting nanoseconds.
  datatype Result = Result(
    target: Target,
    state: LinkState,
    statusCode: int,
    host: string,
    retries: int,
    saw429: bool,
    retryAfter: int,
    fromCache: bool,
    reused: bool,
    detail: string,
    err: Option<string>)

  const Second: int := 1_000_000_000
  const Minute: int := 60 * Second

  // The value a freshly declared result has: every field at its zero value.
  function Blank(t: Target): Result {
    Result(t, StateAlive, 0, "", 0, false, 0, false, false, "", None)
  }

  // Projects a canonical result onto one occurrence: the target is the occurrence's own,
  // the outcome is shared, and the per-check counters are not carried over.
  function ResultFor(occ: Target, base: Result, reused: bool): Result {
    Blank(occ).(
    state := base.state,
    statusCode := base.statusCode,
    host := base.host,
    fromCache := base.fromCache,
    reused := reused,
    detail := base.detail)
  }

  function Max(a: int, b: int): int {
    if a < b then b else a
  }

  function Min(a: int, b: int): int {
    if b < a then b else a
  }
}
