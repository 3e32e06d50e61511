/**
 How long the breaker blocks, how many calls are in flight, and who is never made to wait.
 */
module LimiterPace {
  import opened Prelude
  import opened LimiterSpec
  import opened LimiterRuns

  // ---------------------------------------------------------------- the back-off

  /** The first back-off is the base, each further one up to the twenty-first twice the one before, all of
      them cut to 64 bits and to the maximum; after that they stay. */
  lemma BackoffDoubles(c: Config, n: nat)
    requires n >= 1
    ensures Backoff(c, 1) == Min(Min(c.backoffBase, 0x7FFF_FFFF_FFFF_FFFF), c.backoffMax)
    ensures n <= 20 ==> Backoff(c, n + 1) == Min(Min(2 * Backoff(c, n), 0x7FFF_FFFF_FFFF_FFFF), c.backoffMax)
    ensures n > 20 ==> Backoff(c, n + 1) == Backoff(c, n)
  {
    assert Pow2(0) == 1;
    if n <= 20 {
      assert Pow2(n) == 2 * Pow2(n - 1);
      assert c.backoffBase * Pow2(n) == 2 * (c.backoffBase * Pow2(n - 1)) by { Twofold(c.backoffBase, Pow2(n - 1)); }
      Product(c.backoffBase, 0, Pow2(n - 1));
    }
  }

  lemma Twofold(a: int, b: int)
    ensures a * (2 * b) == 2 * (a * b)
  {}

  function Doubled(n: nat, times: nat): nat {
    if times == 0 then n else 2 * Doubled(n, times - 1)
  }

  lemma {:induction false} DoubledIsProduct(n: nat, times: nat)
    ensures Doubled(n, times) == n * Pow2(times)
  {
    if times > 0 {
      DoubledIsProduct(n, times - 1);
      Twofold(n, Pow2(times - 1));
    }
  }

  /** What the source promises for the opening that follows `opens` earlier ones. */
  function Block(c: Config, opens: nat): int {
    Min(Min(Doubled(c.backoffBase, Min(opens, 20)), 0x7FFF_FFFF_FFFF_FFFF), c.backoffMax)
  }

  /** A rate-limited result that completes a streak opens the breaker for the base doubled once for each
      earlier opening, up to twenty times: an attempt is told to wait until then, and until then nothing
      that happens lets one through. */
  lemma OpenBlocks(c: Config, s: State, t: int, now: int, run: seq<Op>)
    requires Inv(c, s, t) && t <= now && 0 < now && s.fails + 1 >= AtLeastOne(c.threshold)
    requires Before(run, now + Block(c, s.opens)) && Clocked(now, run)
    ensures Grants(c, Record(c, s, now, true), run) == []
    ensures var u := Record(c, s, now, true);
      forall at :: now <= at < now + Block(c, s.opens) ==>
        Acquire(c, u, at).1 == if u.halted.Some? then Halt(u.halted.value) else Wait(now + Block(c, s.opens) - at)
  {
    hide Inv, Grants, Pow2, Doubled;
    var u := Record(c, s, now, true);
    DoubledIsProduct(c.backoffBase, Min(s.opens, 20));
    assert Backoff(c, s.opens + 1) == Block(c, s.opens) == u.openUntil - now;
    RecordKeepsInv(c, s, t, now, true);
    if Block(c, s.opens) > 0 {
      assert BlockedUntil(c, u, now + Block(c, s.opens));
      BlockedRun(c, u, now, run, now + Block(c, s.opens));
    } else {
      NobodyAsks(c, u, now, run);
    }
  }

  lemma {:induction false} NobodyAsks(c: Config, s: State, t: int, run: seq<Op>)
    requires Before(run, t) && Clocked(t, run)
    ensures Grants(c, s, run) == []
    decreases |run|
  {
    hide Step;
    if run != [] { NobodyAsks(c, Step(c, s, run[0]), t, run[1..]); }
  }

  // ---------------------------------------------------------------- calls in flight

  function Finishes(run: seq<Op>): nat
    decreases |run|
  {
    if run == [] then 0 else (if run[0].Finish? then 1 else 0) + Finishes(run[1..])
  }

  /** At every point of the run, no more calls were given back than granted. */
  predicate Paired(c: Config, s: State, run: seq<Op>)
    decreases |run|
  {
    run == [] || ((run[0].Finish? ==> s.inFlight > 0) && Paired(c, Step(c, s, run[0]), run[1..]))
  }

  /** Then what is in flight is exactly what was granted and not given back. */
  lemma {:induction false} InFlightCounts(c: Config, s: State, run: seq<Op>)
    requires Paired(c, s, run)
    ensures After(c, s, run).inFlight + Finishes(run) == s.inFlight + |Grants(c, s, run)|
    decreases |run|
  {
    hide Step, Granted;
    if run != [] {
      StepInFlight(c, s, run[0]);
      InFlightCounts(c, Step(c, s, run[0]), run[1..]);
    }
  }

  lemma StepInFlight(c: Config, s: State, op: Op)
    ensures Step(c, s, op).inFlight == s.inFlight + (if Granted(c, s, op) then 1 else 0) - (if op.Finish? && s.inFlight > 0 then 1 else 0)
    ensures Granted(c, s, op) ==> op.TryAcquire?
  {
    hide Gap, Rate, CeilDiv, Backoff;
  }

  // ---------------------------------------------------------------- what an attempt needs

  /** After the first attempt, one is granted exactly when the limiter is neither halted nor in its back-off,
      the counts of a day and of a minute that are not over yet are below their caps, a slot is free, the
      pacing gap since the last grant has passed, and the bucket, refilled by the rate for each millisecond
      and never beyond a minute's worth, holds a whole call. */
  lemma GrantedIff(c: Config, s: State, t: int, now: int)
    requires Inv(c, s, t) && 0 < s.lastRefill && t <= now
    ensures var rate := if c.rpm == 0 then 1 else c.rpm;
      Acquire(c, s, now).1.Allow? <==>
        && s.halted.None? && s.openUntil <= now
        && (c.rpd == 0 || now - s.dayStart >= 86_400_000 || s.dayCount < c.rpd)
        && (c.rpm == 0 || now - s.minuteStart >= 60_000 || s.minuteCount < c.rpm)
        && s.inFlight < (if c.concurrency == 0 then 1 else c.concurrency)
        && s.lastGrant + Gap(c, s.grants) <= now
        && 60_000 <= Min(s.tokens + (now - s.lastRefill) * rate, 60_000 * rate)
  {
    hide Gap, CeilDiv;
  }

  /** With every slot taken, and the day and the minute not spent, the wait is the pacing gap, or a
      millisecond when there is none. */
  lemma BusyWaits(c: Config, s: State, t: int, now: int)
    requires Inv(c, s, t) && 0 < s.lastRefill && t <= now && s.halted.None? && s.openUntil <= now
    requires c.rpd == 0 || now - s.dayStart >= 86_400_000 || s.dayCount < c.rpd
    requires c.rpm == 0 || now - s.minuteStart >= 60_000 || s.minuteCount < c.rpm
    requires s.inFlight >= if c.concurrency == 0 then 1 else c.concurrency
    ensures Acquire(c, s, now).1 == Wait(if c.minGap == 0 then 1 else c.minGap)
  {
    hide Gap, CeilDiv;
  }

  /** The opening that makes up the number allowed halts the limiter for good, and its number is what every
      attempt is told from then on. */
  lemma HaltsWithTheCount(c: Config, s: State, now: int, later: int)
    requires s.fails + 1 >= AtLeastOne(c.threshold) && s.halted.None?
    ensures var u := Record(c, s, now, true); var allowed := if c.maxOpens == 0 then 1 else c.maxOpens;
      if s.opens + 1 >= allowed then u.halted == Some(s.opens + 1) && Acquire(c, u, later) == (u, Halt(s.opens + 1))
      else u.halted.None?
  {
    hide Backoff;
  }

  /** The jitter is not idle: of up to a second on top of five, the first gap has 986 milliseconds. */
  lemma FirstGapIsJittered(c: Config)
    requires c.minGap == 5000 && c.jitter == 1000
    ensures Gap(c, 0) == 5986
  {
    FirstMix();
    assert (0 * 2_654_435_761) % 0x1_0000_0000_0000_0000 == 0;
  }

  lemma FirstMix()
    ensures ((0 as bv64) ^ 0x9E37_79B9) as int == 2_654_435_769
  {
    assert (0 as bv64) ^ 0x9E37_79B9 == 0x9E37_79B9;
  }

  // ---------------------------------------------------------------- a caller that keeps the pace

  /** Each call is given back before the next is tried. */
  function OneByOne(times: seq<int>): seq<Op>
    decreases |times|
  {
    if times == [] then [] else [TryAcquire(times[0]), Finish] + OneByOne(times[1..])
  }

  predicate Spaced(times: seq<int>, apart: nat) {
    forall i :: 0 < i < |times| ==> times[i - 1] + apart <= times[i]
  }

  /** The distance covers the pacing gap with its jitter, and what one call costs at this rate. */
  predicate Covers(c: Config, apart: nat) {
    c.minGap + c.jitter <= apart <= -LONG_AGO && 60000 <= apart * (if c.rpm == 0 then 1 else c.rpm)
  }

  /** Nobody is waiting for anything: what holds between two calls of such a caller. */
  predicate AtPace(c: Config, s: State, apart: nat) {
    && s.halted.None? && s.openUntil <= 0 && s.inFlight == 0 && s.lastRefill >= 0
    && if s.lastRefill == 0 then s.tokens == CALL * Rate(c) && s.minuteCount == 0 && s.lastGrant == LONG_AGO
       else s.lastGrant == s.lastRefill && 0 <= s.tokens && s.minuteCount * apart <= s.lastGrant - s.minuteStart + apart
  }

  lemma OneGrant(c: Config, s: State, apart: nat, at: int)
    requires c.rpd == 0 && Covers(c, apart) && AtPace(c, s, apart)
    requires 0 < at && s.lastGrant + apart <= at
    ensures Acquire(c, s, at).1 == Allow
    ensures var u := Release(Acquire(c, s, at).0); AtPace(c, u, apart) && u.lastGrant == at && u.lastRefill == at
  {
    hide Gap, CeilDiv;
    var a := Refill(c, s, at);
    var b := RollMinute(a, at);
    assert a.lastRefill == at && a.lastGrant == s.lastGrant && a.inFlight == 0;
    EnoughTokens(c, s, apart, at);
    MinuteHasRoom(c, s, apart, at);
    assert Gap(c, b.grants) <= apart;
  }

  lemma EnoughTokens(c: Config, s: State, apart: nat, at: int)
    requires Covers(c, apart) && AtPace(c, s, apart) && 0 < at && s.lastGrant + apart <= at
    ensures Refill(c, s, at).tokens >= CALL
  {
    assert CALL * Rate(c) >= CALL;
    if s.lastRefill > 0 { MulMonotone(Rate(c), apart, at - s.lastRefill); }
  }

  lemma MinuteHasRoom(c: Config, s: State, apart: nat, at: int)
    requires Covers(c, apart) && AtPace(c, s, apart) && 0 < at && s.lastGrant + apart <= at
    ensures var b := RollMinute(Refill(c, s, at), at);
      !MinuteSpent(c, b) && (b.minuteCount + 1) * apart <= at - b.minuteStart + apart
  {
    var b := RollMinute(Refill(c, s, at), at);
    assert (b.minuteCount + 1) * apart == b.minuteCount * apart + apart;
    if b.minuteCount > 0 && MinuteSpent(c, b) {
      assert b.minuteCount * apart <= at - b.minuteStart < 60000;
      MulMonotone(apart, c.rpm, b.minuteCount);
    }
  }

  /** A caller that spaces its calls like that, and gives each back before the next, is never refused: with
      no daily cap, every attempt of it is granted. */
  lemma {:induction false} PacedCallsPass(c: Config, s: State, apart: nat, times: seq<int>)
    requires c.rpd == 0 && Covers(c, apart) && AtPace(c, s, apart) && Spaced(times, apart)
    requires times != [] ==> 0 < times[0] && s.lastGrant + apart <= times[0]
    ensures Grants(c, s, OneByOne(times)) == times
    decreases |times|
  {
    hide AtPace, Covers, Acquire, Release, Grants;
    if times == [] {
      assert Grants(c, s, []) == [] by { NothingGranted(c, s); }
    } else {
      OneGrant(c, s, apart, times[0]);
      assert Spaced(times[1..], apart) by { assert forall i :: 0 < i < |times[1..]| ==> times[1..][i] == times[i + 1]; }
      PacedCallsPass(c, Release(Acquire(c, s, times[0]).0), apart, times[1..]);
      OneCall(c, s, times[0], OneByOne(times[1..]));
      assert times == [times[0]] + times[1..];
    }
  }

  lemma NothingGranted(c: Config, s: State)
    ensures Grants(c, s, []) == []
  {}

  lemma OneCall(c: Config, s: State, at: int, rest: seq<Op>)
    requires Acquire(c, s, at).1 == Allow
    ensures Grants(c, s, [TryAcquire(at), Finish] + rest) == [at] + Grants(c, Release(Acquire(c, s, at).0), rest)
  {
    hide Acquire, Release;
    var run := [TryAcquire(at), Finish] + rest;
    assert run[1..] == [Finish] + rest && ([Finish] + rest)[1..] == rest;
    var u := Acquire(c, s, at).0;
    assert Step(c, s, run[0]) == u;
    assert Grants(c, u, [Finish] + rest) == [] + Grants(c, Release(u), rest);
  }

  /** From a new limiter on, in particular. */
  lemma NewLimiterLetsPacedCallsPass(c: Config, apart: nat, times: seq<int>)
    requires c.rpd == 0 && Covers(c, apart) && Spaced(times, apart) && (times != [] ==> 0 < times[0])
    ensures Grants(c, New(c), OneByOne(times)) == times
  {
    PacedCallsPass(c, New(c), apart, times);
  }
}
