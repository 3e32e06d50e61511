/**
 The account rate limiter: token bucket, minute and day counters, paced gap, concurrency and a
 circuit breaker. Tokens are counted in sixty-thousandths of a call, so that one millisecond refills
 exactly `rate` of them and one call costs 60000.
 */
module LimiterSpec {
  import opened Prelude

  const DAY_MS: int := 86_400_000
  const MINUTE_MS: int := 60_000
  const CALL: int := 60_000
  const LONG_AGO: int := -0x2000_0000_0000_0000
  const I64_MAX: int := 0x7FFF_FFFF_FFFF_FFFF

  datatype Config = Config(
    rpm: nat, rpd: nat, minGap: nat, jitter: nat, concurrency: nat,
    threshold: nat, maxOpens: nat, backoffBase: nat, backoffMax: nat)

  datatype State = State(
    tokens: int, lastRefill: int, lastGrant: int,
    minuteStart: int, minuteCount: nat, dayStart: int, dayCount: nat,
    inFlight: nat, grants: nat,
    fails: nat, opens: nat, openUntil: int, halted: Option<nat>)

  datatype Grant = Allow | Wait(ms: int) | Halt(opens: nat)

  function AtLeastOne(n: nat): (r: int)
    ensures r >= 1
  {
    if n == 0 then 1 else n
  }

  /** Tokens refilled per millisecond. */
  function Rate(c: Config): (r: int)
    ensures r >= 1
  {
    AtLeastOne(c.rpm)
  }

  function New(c: Config): State {
    State(CALL * Rate(c), 0, LONG_AGO, 0, 0, 0, 0, 0, 0, 0, 0, 0, None)
  }

  /** The pacing gap of the next grant: the minimum plus a jitter that the grant counter determines. */
  function Gap(c: Config, grants: nat): (g: int)
    ensures c.minGap <= g <= c.minGap + c.jitter
  {
    if c.jitter == 0 then c.minGap
    else
      var product := (grants * 2_654_435_761) % 0x1_0000_0000_0000_0000;
      var mixed := ((product as bv64) ^ 0x9E37_79B9) as int;
      var signed := if mixed > I64_MAX then mixed - 0x1_0000_0000_0000_0000 else mixed;
      c.minGap + signed % (c.jitter + 1)
  }

  function Refill(c: Config, s: State, now: int): State {
    var a := if s.lastRefill == 0 then s.(lastRefill := now, dayStart := now, minuteStart := now) else s;
    var b := a.(tokens := Min(a.tokens + Max(now - a.lastRefill, 0) * Rate(c), CALL * Rate(c)), lastRefill := now);
    if now - b.dayStart >= DAY_MS then b.(dayStart := now, dayCount := 0) else b
  }

  function RollMinute(s: State, now: int): State {
    if now - s.minuteStart >= MINUTE_MS then s.(minuteStart := now, minuteCount := 0) else s
  }

  predicate DaySpent(c: Config, s: State) {
    c.rpd > 0 && s.dayCount >= c.rpd
  }

  predicate MinuteSpent(c: Config, s: State) {
    c.rpm > 0 && s.minuteCount >= c.rpm
  }

  predicate Busy(c: Config, s: State) {
    s.inFlight >= AtLeastOne(c.concurrency)
  }

  function CeilDiv(n: int, d: int): int
    requires d > 0
  {
    (n + d - 1) / d
  }

  function Spend(s: State, now: int): State {
    s.(tokens := s.tokens - CALL, lastGrant := now, dayCount := s.dayCount + 1,
       minuteCount := s.minuteCount + 1, inFlight := s.inFlight + 1, grants := s.grants + 1)
  }

  function Acquire(c: Config, s: State, now: int): (State, Grant) {
    if s.halted.Some? then (s, Halt(s.halted.value))
    else if now < s.openUntil then (s, Wait(s.openUntil - now))
    else
      var a := Refill(c, s, now);
      if DaySpent(c, a) then (a, Wait(Max(a.dayStart + DAY_MS - now, 1)))
      else
        var b := RollMinute(a, now);
        if MinuteSpent(c, b) then (b, Wait(Max(b.minuteStart + MINUTE_MS - now, 1)))
        else if Busy(c, b) then (b, Wait(Max(c.minGap, 1)))
        else if now - b.lastGrant < Gap(c, b.grants) then (b, Wait(Gap(c, b.grants) - (now - b.lastGrant)))
        else if b.tokens < CALL then (b, Wait(Max(CeilDiv(CALL - b.tokens, Rate(c)), 1)))
        else (Spend(b, now), Allow)
  }

  function Release(s: State): State {
    if s.inFlight == 0 then s else s.(inFlight := s.inFlight - 1)
  }

  function Pow2(n: nat): (r: int)
    ensures r >= 1
  {
    if n == 0 then 1 else 2 * Pow2(n - 1)
  }

  /** The wait after the breaker's `opens`-th opening, with the saturating i64 multiplication. */
  function Backoff(c: Config, opens: nat): int {
    if opens == 0 then 0
    else Min(Min(c.backoffBase * Pow2(Min(opens - 1, 20)), I64_MAX), c.backoffMax)
  }

  function Record(c: Config, s: State, now: int, limited: bool): State {
    if !limited then s.(fails := 0)
    else if s.fails + 1 < AtLeastOne(c.threshold) then s.(fails := s.fails + 1)
    else
      var opens := s.opens + 1;
      s.(fails := 0, opens := opens, openUntil := now + Backoff(c, opens),
         halted := if opens >= AtLeastOne(c.maxOpens) then Some(opens) else s.halted)
  }

  function RecordSuccess(s: State): State {
    s.(fails := 0)
  }

  // ---------------------------------------------------------------- runs

  datatype Op =
    | TryAcquire(at: int)
    | Finish
    | Report(at: int, limited: bool)
    | Succeed

  function Step(c: Config, s: State, op: Op): State {
    match op
    case TryAcquire(at) => Acquire(c, s, at).0
    case Finish => Release(s)
    case Report(at, limited) => Record(c, s, at, limited)
    case Succeed => RecordSuccess(s)
  }

  predicate Granted(c: Config, s: State, op: Op) {
    op.TryAcquire? && Acquire(c, s, op.at).1.Allow?
  }

  function TimeOf(op: Op, t: int): int {
    if op.TryAcquire? || op.Report? then op.at else t
  }

  /** What reads the clock reads a positive time, no earlier than `t`. */
  predicate Timely(op: Op, t: int) {
    op.TryAcquire? || op.Report? ==> 0 < op.at && t <= op.at
  }

  /** A run on a positive clock that never goes back. */
  predicate Clocked(t: int, run: seq<Op>)
    decreases |run|
  {
    run == [] || (Timely(run[0], t) && Clocked(TimeOf(run[0], t), run[1..]))
  }

  function After(c: Config, s: State, run: seq<Op>): State
    decreases |run|
  {
    if run == [] then s else After(c, Step(c, s, run[0]), run[1..])
  }

  /** The times at which the run's attempts were granted, in order. */
  function Grants(c: Config, s: State, run: seq<Op>): seq<int>
    decreases |run|
  {
    if run == [] then []
    else (if Granted(c, s, run[0]) then [run[0].at] else []) + Grants(c, Step(c, s, run[0]), run[1..])
  }

  /** What holds at time `t` in every reachable state. */
  ghost predicate Inv(c: Config, s: State, t: int) {
    && 0 <= t && 0 <= s.lastRefill <= t
    && s.tokens <= CALL * Rate(c)
    && s.dayStart <= t && s.minuteStart <= t && s.lastGrant <= t
    && (c.rpd > 0 ==> s.dayCount <= c.rpd)
    && (s.lastRefill == 0 ==> s.dayCount == 0 && s.minuteCount == 0 && s.tokens == CALL * Rate(c))
    && s.inFlight <= AtLeastOne(c.concurrency)
    && s.openUntil <= t + Backoff(c, s.opens)
    && s.fails < AtLeastOne(c.threshold)
    && (s.halted.Some? <==> s.opens >= AtLeastOne(c.maxOpens))
  }

  lemma NewInv(c: Config)
    ensures Inv(c, New(c), 0)
  {}

  lemma {:induction false} Pow2Monotone(a: nat, b: nat)
    requires a <= b
    ensures Pow2(a) <= Pow2(b)
    decreases b
  {
    if a < b { Pow2Monotone(a, b - 1); }
  }

  /** The backoff grows with every opening and stays under its maximum, saturation included. */
  lemma BackoffGrows(c: Config, n: nat)
    ensures 0 <= Backoff(c, n) <= Backoff(c, n + 1) <= c.backoffMax
  {
    if n > 0 {
      Pow2Monotone(Min(n - 1, 20), Min(n, 20));
      Product(c.backoffBase, Pow2(Min(n - 1, 20)), Pow2(Min(n, 20)));
    }
  }

  lemma Product(k: nat, a: int, b: int)
    requires 0 <= a <= b
    ensures 0 <= k * a <= k * b
  {}

  lemma RefillKeepsInv(c: Config, s: State, t: int, now: int)
    requires Inv(c, s, t) && t <= now && 0 < now
    ensures Inv(c, Refill(c, s, now), now) && Refill(c, s, now).lastRefill == now
  {}

  lemma AcquireKeepsInv(c: Config, s: State, t: int, now: int)
    requires Inv(c, s, t) && t <= now && 0 < now
    ensures Inv(c, Acquire(c, s, now).0, now)
  {
    RefillKeepsInv(c, s, t, now);
    var a := Refill(c, s, now);
    var b := RollMinute(a, now);
    assert Inv(c, b, now);
    var k := Backoff(c, s.opens);
    assert Backoff(c, b.opens) == k;
  }

  lemma RecordKeepsInv(c: Config, s: State, t: int, now: int, limited: bool)
    requires Inv(c, s, t) && t <= now
    ensures Inv(c, Record(c, s, now, limited), now)
    ensures Record(c, s, now, limited).openUntil >= s.openUntil
  {
    BackoffGrows(c, s.opens);
  }

  lemma StepKeepsInv(c: Config, s: State, t: int, op: Op)
    requires Inv(c, s, t) && Timely(op, t)
    ensures Inv(c, Step(c, s, op), TimeOf(op, t))
  {
    match op
    case TryAcquire(at) => AcquireKeepsInv(c, s, t, at);
    case Report(at, limited) => RecordKeepsInv(c, s, t, at, limited);
    case _ =>
  }

  lemma {:induction false} RunKeepsInv(c: Config, s: State, t: int, run: seq<Op>) returns (end: int)
    requires Inv(c, s, t) && Clocked(t, run)
    ensures t <= end && Inv(c, After(c, s, run), end)
    decreases |run|
  {
    end := t;
    if run != [] {
      StepKeepsInv(c, s, t, run[0]);
      end := RunKeepsInv(c, Step(c, s, run[0]), TimeOf(run[0], t), run[1..]);
    }
  }

  /** Never more calls in flight than the configured concurrency (one, when it is zero). */
  lemma ConcurrencyHolds(c: Config, run: seq<Op>)
    requires Clocked(0, run)
    ensures After(c, New(c), run).inFlight <= AtLeastOne(c.concurrency)
  {
    var end := RunKeepsInv(c, New(c), 0, run);
  }
}
