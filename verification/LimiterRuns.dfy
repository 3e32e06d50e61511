/** What the limiter guarantees over whole runs: rates, hints that are tight and make progress, and
    a breaker that is a function of the history it was told. */
module LimiterRuns {
  import opened Prelude
  import opened LimiterSpec

  // ---------------------------------------------------------------- arithmetic

  lemma Distribute(r: int, a: int, b: int)
    ensures r * (a + b) == r * a + r * b
  {}

  lemma MulMonotone(r: int, a: int, b: int)
    requires 0 <= r && a <= b
    ensures r * a <= r * b
  {}

  // ---------------------------------------------------------------- rates

  lemma {:induction false} GrantsNotBefore(c: Config, s: State, t: int, run: seq<Op>, k: nat)
    requires Clocked(t, run) && k < |Grants(c, s, run)|
    ensures t <= TimeOf(run[0], t) <= Grants(c, s, run)[k]
    decreases |run|
  {
    var s' := Step(c, s, run[0]);
    var first := Granted(c, s, run[0]);
    if !(first && k == 0) {
      GrantsNotBefore(c, s', TimeOf(run[0], t), run[1..], if first then k - 1 else k);
    }
  }

  /** The moment from which a state's bucket refills. */
  function Base(s: State, t: int): int {
    if s.lastRefill == 0 then t else s.lastRefill
  }

  lemma PayStep(r: int, tokens: int, tokens': int, from: int, to: int, last: int, cost: int, n: int)
    requires tokens' <= tokens + r * (to - from) - cost && n <= tokens' + r * (last - to)
    ensures n + cost <= tokens + r * (last - from)
  {
    Distribute(r, to - from, last - to);
  }

  /** The tokens of a state pay for everything granted later, together with what time refills. */
  lemma {:induction false} TokensPay(c: Config, s: State, t: int, run: seq<Op>, k: nat)
    requires Inv(c, s, t) && Clocked(t, run) && k < |Grants(c, s, run)|
    ensures CALL * (k + 1) <= s.tokens + Rate(c) * (Grants(c, s, run)[k] - Base(s, t))
    decreases |run|
  {
    hide Acquire, Record, Refill;
    var op := run[0];
    var s', t' := Step(c, s, op), TimeOf(op, t);
    StepKeepsInv(c, s, t, op);
    StepPays(c, s, t, op);
    var last, rest := Grants(c, s, run)[k], Grants(c, s', run[1..]);
    if Granted(c, s, op) {
      if k > 0 {
        assert last == rest[k - 1];
        TokensPay(c, s', t', run[1..], k - 1);
        PayStep(Rate(c), s.tokens, s'.tokens, Base(s, t), Base(s', t'), last, CALL, CALL * k);
      }
    } else {
      assert last == rest[k];
      TokensPay(c, s', t', run[1..], k);
      PayStep(Rate(c), s.tokens, s'.tokens, Base(s, t), Base(s', t'), last, 0, CALL * (k + 1));
    }
  }

  lemma RollKeepsBucket(s: State, now: int)
    ensures var b := RollMinute(s, now); b.tokens == s.tokens && b.lastRefill == s.lastRefill
  {}

  /** One step loses no more tokens than its grant costs, less what it refilled. */
  lemma StepPays(c: Config, s: State, t: int, op: Op)
    requires Inv(c, s, t) && Timely(op, t)
    ensures var s' := Step(c, s, op); var from, to := Base(s, t), Base(s', TimeOf(op, t));
      && from <= to
      && s'.tokens <= s.tokens + Rate(c) * (to - from) - (if Granted(c, s, op) then CALL else 0)
      && (Granted(c, s, op) ==> to == op.at && CALL <= s.tokens + Rate(c) * (to - from))
  {
    hide Gap, CeilDiv, Rate, RollMinute;
    var from := Base(s, t);
    if op.TryAcquire? {
      var a := Refill(c, s, op.at);
      MulMonotone(Rate(c), 0, op.at - from);
      assert a.tokens <= s.tokens + Rate(c) * (op.at - from);
      RollKeepsBucket(a, op.at);
    } else {
      MulMonotone(Rate(c), 0, Base(s, TimeOf(op, t)) - from);
    }
  }

  /** What an attempt does to the pacing: granted only once the gap has passed, and paid for. */
  lemma AttemptPaces(c: Config, s: State, t: int, now: int)
    requires Inv(c, s, t) && t <= now && 0 < now
    ensures var (s', g) := Acquire(c, s, now);
      && s'.lastGrant == (if g == Allow then now else s.lastGrant)
      && (g == Allow ==> s.lastGrant + c.minGap <= now && s'.lastRefill == now && s'.tokens <= CALL * Rate(c) - CALL)
  {
    hide CeilDiv, Refill, RollMinute, Inv, Rate;
    RefillPaces(c, s, now);
    RollPaces(Refill(c, s, now), now);
  }

  lemma RefillPaces(c: Config, s: State, now: int)
    ensures var b := Refill(c, s, now);
      b.lastGrant == s.lastGrant && b.lastRefill == now && b.tokens <= CALL * Rate(c) && b.grants == s.grants
  {}

  lemma RollPaces(b: State, now: int)
    ensures var r := RollMinute(b, now);
      r.lastGrant == b.lastGrant && r.lastRefill == b.lastRefill && r.tokens == b.tokens && r.grants == b.grants
  {}

  /** What one step does to the pacing and to the day's counter. */
  lemma StepPaces(c: Config, s: State, t: int, op: Op)
    requires Inv(c, s, t) && Timely(op, t)
    ensures var s' := Step(c, s, op);
      && s'.lastGrant == (if Granted(c, s, op) then op.at else s.lastGrant)
      && (Granted(c, s, op) ==>
            s.lastGrant + c.minGap <= op.at && s'.lastRefill == op.at && s'.tokens <= CALL * Rate(c) - CALL)
  {
    hide Acquire, Inv, Backoff, Rate;
    if op.TryAcquire? { AttemptPaces(c, s, t, op.at); }
  }

  /** The day's counter counts the step's grant, from zero when the step turns the day. */
  lemma StepCountsDay(c: Config, s: State, t: int, op: Op)
    requires c.rpd > 0 && Inv(c, s, t) && Timely(op, t)
    ensures var s' := Step(c, s, op); var one := if Granted(c, s, op) then 1 else 0;
      if s'.dayStart == s.dayStart then
        s'.dayCount == s.dayCount + one && s'.dayCount <= c.rpd && (s.lastRefill > 0 ==> s'.lastRefill > 0)
      else
        s'.dayStart == TimeOf(op, t) && s'.dayCount == one && s'.lastRefill > 0
        && (s.lastRefill > 0 ==> s.dayStart + DAY_MS <= TimeOf(op, t))
  {
    hide CeilDiv, Gap;
  }

  /** Over any interval holding the grants `i..j`, their number is at most the bucket plus the refill. */
  lemma {:induction false} RateOverAnyInterval(c: Config, s: State, t: int, run: seq<Op>, i: nat, j: nat, t1: int, t2: int)
    requires Inv(c, s, t) && Clocked(t, run)
    requires i <= j < |Grants(c, s, run)| && t1 <= Grants(c, s, run)[i] && Grants(c, s, run)[j] <= t2
    ensures CALL * (j - i + 1) <= Rate(c) * (60_000 + (t2 - t1))
    decreases |run|
  {
    hide Acquire, Record, Refill;
    var s' := Step(c, s, run[0]);
    var t' := TimeOf(run[0], t);
    StepKeepsInv(c, s, t, run[0]);
    StepPaces(c, s, t, run[0]);
    var g, rest := Grants(c, s, run), Grants(c, s', run[1..]);
    if Granted(c, s, run[0]) {
      if i == 0 {
        assert s'.tokens <= CALL * Rate(c) - CALL && s'.lastRefill == run[0].at;
        var last := g[j];
        if j > 0 {
          assert last == rest[j - 1];
          TokensPay(c, s', t', run[1..], j - 1);
          assert Base(s', t') == run[0].at;
          MulMonotone(Rate(c), last - run[0].at, t2 - t1);
        } else {
          MulMonotone(Rate(c), 0, t2 - t1);
        }
        Distribute(Rate(c), 60_000, t2 - t1);
      } else {
        assert g[i] == rest[i - 1] && g[j] == rest[j - 1];
        RateOverAnyInterval(c, s', t', run[1..], i - 1, j - 1, t1, t2);
      }
    } else {
      assert g == rest;
      RateOverAnyInterval(c, s', t', run[1..], i, j, t1, t2);
    }
  }

  lemma {:induction false} GapsPace(c: Config, s: State, t: int, run: seq<Op>, k: nat)
    requires Inv(c, s, t) && Clocked(t, run) && k < |Grants(c, s, run)|
    ensures s.lastGrant + (k + 1) * c.minGap <= Grants(c, s, run)[k]
    decreases |run|
  {
    hide Acquire, Record, Refill;
    var s' := Step(c, s, run[0]);
    StepKeepsInv(c, s, t, run[0]);
    StepPaces(c, s, t, run[0]);
    var g := Grants(c, s, run);
    if Granted(c, s, run[0]) {
      if k > 0 {
        assert g[k] == Grants(c, s', run[1..])[k - 1];
        GapsPace(c, s', TimeOf(run[0], t), run[1..], k - 1);
        Distribute(c.minGap, k, 1);
      } else {
        assert g[0] == run[0].at;
      }
    } else {
      assert s'.lastGrant == s.lastGrant;
      GapsPace(c, s', TimeOf(run[0], t), run[1..], k);
    }
  }

  /** The grants of any interval are spread by at least the minimum gap. */
  lemma {:induction false} GapOverAnyInterval(c: Config, s: State, t: int, run: seq<Op>, i: nat, j: nat, t1: int, t2: int)
    requires Inv(c, s, t) && Clocked(t, run)
    requires i <= j < |Grants(c, s, run)| && t1 <= Grants(c, s, run)[i] && Grants(c, s, run)[j] <= t2
    ensures (j - i) * c.minGap <= t2 - t1
    decreases |run|
  {
    hide Acquire, Record, Refill;
    var s' := Step(c, s, run[0]);
    var t' := TimeOf(run[0], t);
    StepKeepsInv(c, s, t, run[0]);
    StepPaces(c, s, t, run[0]);
    var g, rest := Grants(c, s, run), Grants(c, s', run[1..]);
    if Granted(c, s, run[0]) {
      if i == 0 {
        if j > 0 {
          assert g[j] == rest[j - 1] && s'.lastGrant == g[0];
          GapsPace(c, s', t', run[1..], j - 1);
        }
      } else {
        assert g[i] == rest[i - 1] && g[j] == rest[j - 1];
        GapOverAnyInterval(c, s', t', run[1..], i - 1, j - 1, t1, t2);
      }
    } else {
      assert g == rest;
      GapOverAnyInterval(c, s', t', run[1..], i, j, t1, t2);
    }
  }

  /** Once the day's quota is used up, the next grant is a new day's. */
  lemma {:induction false} DayQuota(c: Config, s: State, t: int, run: seq<Op>, k: nat)
    requires c.rpd > 0 && Inv(c, s, t) && Clocked(t, run) && k < |Grants(c, s, run)|
    requires s.lastRefill > 0 && k >= c.rpd - s.dayCount
    ensures Grants(c, s, run)[k] >= s.dayStart + DAY_MS
    decreases |run|
  {
    hide Acquire, Record, Refill;
    var s' := Step(c, s, run[0]);
    var t' := TimeOf(run[0], t);
    StepKeepsInv(c, s, t, run[0]);
    StepCountsDay(c, s, t, run[0]);
    var g := Grants(c, s, run);
    if s'.dayStart != s.dayStart {
      GrantsNotBefore(c, s, t, run, k);
    } else {
      var k' := if Granted(c, s, run[0]) then k - 1 else k;
      assert g[k] == Grants(c, s', run[1..])[k'];
      DayQuota(c, s', t', run[1..], k');
    }
  }

  /** From any moment, two days' quotas less what today used last at least a day. */
  lemma {:induction false} TwoDayQuota(c: Config, s: State, t: int, run: seq<Op>, k: nat)
    requires c.rpd > 0 && Inv(c, s, t) && Clocked(t, run) && k < |Grants(c, s, run)|
    requires k >= 2 * c.rpd - s.dayCount
    ensures Grants(c, s, run)[k] >= t + DAY_MS
    decreases |run|
  {
    hide Acquire, Record, Refill;
    var s' := Step(c, s, run[0]);
    var t' := TimeOf(run[0], t);
    StepKeepsInv(c, s, t, run[0]);
    StepCountsDay(c, s, t, run[0]);
    var g := Grants(c, s, run);
    var first := Granted(c, s, run[0]);
    var k' := if first then k - 1 else k;
    assert g[k] == Grants(c, s', run[1..])[k'];
    if s'.dayStart != s.dayStart {
      DayQuota(c, s', t', run[1..], k');
    } else {
      TwoDayQuota(c, s', t', run[1..], k');
    }
  }

  /** Any interval shorter than a day holds at most twice the daily cap. */
  lemma {:induction false} DayCapOverAnyInterval(c: Config, s: State, t: int, run: seq<Op>, i: nat, j: nat)
    requires c.rpd > 0 && Inv(c, s, t) && Clocked(t, run)
    requires i <= j < |Grants(c, s, run)| && Grants(c, s, run)[j] - Grants(c, s, run)[i] < 86_400_000
    ensures j - i + 1 <= 2 * c.rpd
    decreases |run|
  {
    hide Acquire, Record, Refill;
    var s' := Step(c, s, run[0]);
    var t' := TimeOf(run[0], t);
    StepKeepsInv(c, s, t, run[0]);
    StepCountsDay(c, s, t, run[0]);
    var g, rest := Grants(c, s, run), Grants(c, s', run[1..]);
    if Granted(c, s, run[0]) {
      if i == 0 {
        if j >= 2 * c.rpd {
          assert g[j] == rest[j - 1] && s'.dayCount >= 1 && t' == g[0];
          TwoDayQuota(c, s', t', run[1..], j - 1);
        }
      } else {
        assert g[i] == rest[i - 1] && g[j] == rest[j - 1];
        DayCapOverAnyInterval(c, s', t', run[1..], i - 1, j - 1);
      }
    } else {
      assert g == rest;
      DayCapOverAnyInterval(c, s', t', run[1..], i, j);
    }
  }

  /** So a new limiter keeps to all three, from its first attempt on. */
  lemma NewLimiterKeepsItsBounds(c: Config, run: seq<Op>, i: nat, j: nat, t1: int, t2: int)
    requires Clocked(0, run) && i <= j < |Grants(c, New(c), run)|
    requires t1 <= Grants(c, New(c), run)[i] && Grants(c, New(c), run)[j] <= t2
    ensures CALL * (j - i + 1) <= Rate(c) * (60_000 + (t2 - t1))
    ensures (j - i) * c.minGap <= t2 - t1
    ensures c.rpd > 0 && Grants(c, New(c), run)[j] - Grants(c, New(c), run)[i] < 86_400_000 ==> j - i + 1 <= 2 * c.rpd
  {
    NewInv(c);
    RateOverAnyInterval(c, New(c), 0, run, i, j, t1, t2);
    GapOverAnyInterval(c, New(c), 0, run, i, j, t1, t2);
    if c.rpd > 0 && Grants(c, New(c), run)[j] - Grants(c, New(c), run)[i] < DAY_MS {
      DayCapOverAnyInterval(c, New(c), 0, run, i, j);
    }
  }

  // ---------------------------------------------------------------- tight hints

  /** Some stage other than concurrency refuses every attempt before `until`. */
  ghost predicate BlockedUntil(c: Config, s: State, until: int) {
    || s.halted.Some?
    || s.openUntil >= until
    || s.lastGrant + Gap(c, s.grants) >= until
    || (s.lastRefill > 0
        && (|| (DaySpent(c, s) && s.dayStart + DAY_MS >= until)
            || (MinuteSpent(c, s) && s.minuteStart + MINUTE_MS >= until)
            || s.tokens + Rate(c) * (until - 1 - s.lastRefill) < CALL))
  }

  lemma RefillKeepsBlocked(c: Config, s: State, t: int, now: int, until: int)
    requires Inv(c, s, t) && t <= now && 0 < now < until && BlockedUntil(c, s, until)
    ensures BlockedUntil(c, RollMinute(Refill(c, s, now), now), until) && BlockedUntil(c, Refill(c, s, now), until)
  {
    hide Gap, Rate;
    var a := Refill(c, s, now);
    if s.lastRefill > 0 && s.tokens + Rate(c) * (until - 1 - s.lastRefill) < CALL {
      Distribute(Rate(c), now - s.lastRefill, until - 1 - now);
      assert a.tokens <= s.tokens + Rate(c) * (now - s.lastRefill);
      assert a.tokens + Rate(c) * (until - 1 - now) < CALL;
    }
  }

  lemma BlockedAttempt(c: Config, s: State, t: int, now: int, until: int)
    requires Inv(c, s, t) && t <= now && 0 < now < until && BlockedUntil(c, s, until)
    ensures !Acquire(c, s, now).1.Allow? && BlockedUntil(c, Acquire(c, s, now).0, until)
  {
    hide Gap, Rate, CeilDiv;
    RefillKeepsBlocked(c, s, t, now, until);
    MulMonotone(Rate(c), 0, until - 1 - now);
    var a := Refill(c, s, now);
    var b := RollMinute(a, now);
    assert a.lastRefill == now == b.lastRefill;
  }

  lemma BlockedRefuses(c: Config, s: State, t: int, op: Op, until: int)
    requires Inv(c, s, t) && Timely(op, t) && TimeOf(op, t) < until && BlockedUntil(c, s, until)
    ensures !Granted(c, s, op) && BlockedUntil(c, Step(c, s, op), until)
  {
    hide Acquire, Gap, Rate;
    match op
    case TryAcquire(now) =>
      BlockedAttempt(c, s, t, now, until);
    case Report(now, limited) =>
      RecordKeepsInv(c, s, t, now, limited);
    case _ =>
  }

  predicate Before(run: seq<Op>, until: int) {
    forall i :: 0 <= i < |run| ==> (run[i].TryAcquire? || run[i].Report? ==> run[i].at < until)
  }

  lemma {:induction false} BlockedRun(c: Config, s: State, t: int, run: seq<Op>, until: int)
    requires Inv(c, s, t) && Clocked(t, run) && Before(run, until) && t < until && BlockedUntil(c, s, until)
    ensures Grants(c, s, run) == []
    decreases |run|
  {
    hide Acquire, Record, Inv, BlockedUntil;
    if run != [] {
      BlockedRefuses(c, s, t, run[0], until);
      StepKeepsInv(c, s, t, run[0]);
      BlockedRun(c, Step(c, s, run[0]), TimeOf(run[0], t), run[1..], until);
    }
  }

  lemma WaitBlocks(c: Config, s: State, t: int, now: int)
    requires Inv(c, s, t) && t <= now && 0 < now && !Busy(c, s) && Acquire(c, s, now).1.Wait?
    ensures var (s', g) := Acquire(c, s, now); g.ms >= 1 && BlockedUntil(c, s', now + g.ms)
  {
    hide Gap, Rate, CeilDiv;
    var b := RollMinute(Refill(c, s, now), now);
    var (s', g) := Acquire(c, s, now);
    if s' == b && b.tokens < CALL { CeilTight(CALL - b.tokens, Rate(c)); }
  }

  lemma CeilTight(n: int, d: int)
    requires n > 0 && d > 0
    ensures CeilDiv(n, d) >= 1 && d * (CeilDiv(n, d) - 1) < n <= d * CeilDiv(n, d)
  {}

  /** A hint is tight: told to wait with a free slot, nothing the caller or the breaker does in the
      meantime lets an attempt through before the hinted time. */
  lemma HintsAreTight(c: Config, s: State, t: int, now: int, run: seq<Op>)
    requires Inv(c, s, t) && t <= now && 0 < now && !Busy(c, s) && Acquire(c, s, now).1.Wait?
    requires Clocked(now, run) && Before(run, now + Acquire(c, s, now).1.ms)
    ensures Grants(c, Acquire(c, s, now).0, run) == []
  {
    hide Inv, BlockedUntil, Acquire;
    WaitBlocks(c, s, t, now);
    AcquireKeepsInv(c, s, t, now);
    BlockedRun(c, Acquire(c, s, now).0, now, run, now + Acquire(c, s, now).1.ms);
  }

  /** With every slot taken the hint is only a polling interval: a call that finishes lets the very
      next attempt through, long before the hinted time. */
  lemma BusyHintIsNotTight()
    ensures var c := Config(6, 0, 5000, 0, 2, 3, 5, 2000, 300_000);
      var full := After(c, New(c), [TryAcquire(1), TryAcquire(5001)]);
      && Acquire(c, full, 10_001).1 == Wait(5000)
      && Acquire(c, Release(full), 10_001).1 == Allow
  {
    var c := Config(6, 0, 5000, 0, 2, 3, 5, 2000, 300_000);
    var s0 := New(c);
    var s1 := Step(c, s0, TryAcquire(1));
    var s2 := Step(c, s1, TryAcquire(5001));
    var run := [TryAcquire(1), TryAcquire(5001)];
    assert run[1..] == [TryAcquire(5001)] && run[1..][1..] == [];
    assert After(c, s0, run) == s2;
  }

  // ---------------------------------------------------------------- progress

  /** The stage an attempt stops at: breaker, day, minute, gap, bucket, or 5 when it is granted. */
  function Stage(c: Config, s: State, now: int): nat {
    if now < s.openUntil then 0
    else
      var a := Refill(c, s, now);
      if DaySpent(c, a) then 1
      else
        var b := RollMinute(a, now);
        if MinuteSpent(c, b) then 2
        else if now - b.lastGrant < Gap(c, b.grants) then 3
        else if b.tokens < CALL then 4
        else 5
  }

  lemma StageIsVerdict(c: Config, s: State, t: int, now: int)
    requires Inv(c, s, t) && t <= now && 0 < now && !Busy(c, s) && s.halted.None?
    ensures Acquire(c, s, now).1 == Allow <==> Stage(c, s, now) == 5
    ensures Acquire(c, s, now).1.Allow? || Acquire(c, s, now).1.Wait?
    ensures Stage(c, s, now) <= 5
  {
    hide CeilDiv, Gap;
  }

  lemma BreakerWaitPasses(c: Config, s: State, t: int, now: int)
    requires Inv(c, s, t) && t <= now && 0 < now && s.halted.None? && Stage(c, s, now) == 0
    ensures var (s', g) := Acquire(c, s, now); g.Wait? && g.ms >= 1 && Stage(c, s', now + g.ms) > 0
  {}

  lemma DayWaitPasses(c: Config, s: State, t: int, now: int)
    requires Inv(c, s, t) && t <= now && 0 < now && s.halted.None? && Stage(c, s, now) == 1
    ensures var (s', g) := Acquire(c, s, now); g.Wait? && g.ms >= 1 && Stage(c, s', now + g.ms) > 1
  {
    var a := Refill(c, s, now);
    var later := a.dayStart + DAY_MS;
    assert Acquire(c, s, now) == (a, Wait(later - now));
    assert Refill(c, a, later).dayCount == 0;
  }

  lemma MinuteWaitPasses(c: Config, s: State, t: int, now: int)
    requires Inv(c, s, t) && t <= now && 0 < now && s.halted.None? && Stage(c, s, now) == 2
    ensures var (s', g) := Acquire(c, s, now); g.Wait? && g.ms >= 1 && Stage(c, s', now + g.ms) > 2
  {
    var b := RollMinute(Refill(c, s, now), now);
    var later := b.minuteStart + MINUTE_MS;
    assert Acquire(c, s, now) == (b, Wait(later - now));
    DayStaysOpen(c, b, now, later);
    assert RollMinute(Refill(c, b, later), later).minuteCount == 0;
  }

  lemma DayStaysOpen(c: Config, b: State, now: int, later: int)
    requires 0 < now <= later && b.lastRefill == now && !DaySpent(c, b)
    ensures var r := Refill(c, b, later);
      !DaySpent(c, r) && r.minuteStart == b.minuteStart && r.minuteCount == b.minuteCount
      && r.lastGrant == b.lastGrant && r.grants == b.grants && r.lastRefill == later
      && r.tokens == Min(b.tokens + (later - now) * Rate(c), CALL * Rate(c))
      && r.openUntil == b.openUntil
  {}

  lemma MinuteStaysOpen(c: Config, b: State, later: int)
    requires !MinuteSpent(c, b)
    ensures var r := RollMinute(b, later);
      !MinuteSpent(c, r) && r.lastGrant == b.lastGrant && r.grants == b.grants && r.tokens == b.tokens
  {}

  /** An attempt stopped at the gap or the bucket has passed the day and the minute. */
  lemma PacedShape(c: Config, s: State, t: int, now: int)
    requires Inv(c, s, t) && t <= now && 0 < now && !Busy(c, s) && s.halted.None? && 3 <= Stage(c, s, now) <= 4
    ensures var b := RollMinute(Refill(c, s, now), now); var gap := Gap(c, b.grants) - (now - b.lastGrant);
      && b.lastRefill == now && !DaySpent(c, b) && !MinuteSpent(c, b) && b.openUntil <= now
      && Acquire(c, s, now) == (b, Wait(if gap > 0 then gap else Max(CeilDiv(CALL - b.tokens, Rate(c)), 1)))
      && (gap <= 0 ==> b.tokens < CALL)
      && Stage(c, s, now) == if gap > 0 then 3 else 4
  {
    hide CeilDiv, Gap, Rate;
  }

  lemma PacedWaitPasses(c: Config, s: State, t: int, now: int)
    requires Inv(c, s, t) && t <= now && 0 < now && !Busy(c, s) && s.halted.None? && 3 <= Stage(c, s, now) <= 4
    ensures var (s', g) := Acquire(c, s, now);
      g.Wait? && g.ms >= 1 && Stage(c, s', now + g.ms) > Stage(c, s, now)
  {
    hide Acquire, Refill, RollMinute, CeilDiv, Gap, Rate, Inv;
    var b := RollMinute(Refill(c, s, now), now);
    var gap := Gap(c, b.grants) - (now - b.lastGrant);
    PacedShape(c, s, t, now);
    var later := now + Acquire(c, s, now).1.ms;
    if gap <= 0 { CeilTight(CALL - b.tokens, Rate(c)); }
    DayStaysOpen(c, b, now, later);
    var r := Refill(c, b, later);
    MinuteStaysOpen(c, r, later);
    if gap <= 0 {
      MulMonotone(CALL, 1, Rate(c));
      assert CALL <= r.tokens;
    }
  }

  /** Retried exactly at the hinted time, an attempt stops at a strictly later stage. */
  lemma HintPassesStage(c: Config, s: State, t: int, now: int)
    requires Inv(c, s, t) && t <= now && 0 < now && !Busy(c, s) && s.halted.None?
    requires Stage(c, s, now) < 5
    ensures var (s', g) := Acquire(c, s, now);
      g.Wait? && g.ms >= 1 && Stage(c, s', now + g.ms) > Stage(c, s, now)
  {
    hide Acquire, Stage, Inv;
    if Stage(c, s, now) == 0 { BreakerWaitPasses(c, s, t, now); }
    else if Stage(c, s, now) == 1 { DayWaitPasses(c, s, t, now); }
    else if Stage(c, s, now) == 2 { MinuteWaitPasses(c, s, t, now); }
    else { StageIsVerdict(c, s, t, now); PacedWaitPasses(c, s, t, now); }
  }

  lemma WaitingKeepsSlots(c: Config, s: State, now: int)
    requires Acquire(c, s, now).1.Wait?
    ensures Acquire(c, s, now).0.inFlight == s.inFlight && Acquire(c, s, now).0.halted == s.halted
  {}

  /** The verdict after at most `waits` waits, each retried exactly when hinted. */
  function Retry(c: Config, s: State, now: int, waits: nat): Grant
    decreases waits
  {
    var (s', g) := Acquire(c, s, now);
    if g.Wait? && waits > 0 then Retry(c, s', now + g.ms, waits - 1) else g
  }

  lemma {:induction false} RetriesSucceed(c: Config, s: State, t: int, now: int, waits: nat)
    requires Inv(c, s, t) && t <= now && 0 < now && !Busy(c, s) && s.halted.None?
    requires Stage(c, s, now) + waits >= 5
    ensures Retry(c, s, now, waits) == Allow
    decreases waits
  {
    hide Acquire, Stage, Inv;
    var (s', g) := Acquire(c, s, now);
    StageIsVerdict(c, s, t, now);
    if Stage(c, s, now) < 5 {
      HintPassesStage(c, s, t, now);
      AcquireKeepsInv(c, s, t, now);
      WaitingKeepsSlots(c, s, now);
      assert waits > 0;
      RetriesSucceed(c, s', now, now + g.ms, waits - 1);
      assert Retry(c, s, now, waits) == Retry(c, s', now + g.ms, waits - 1);
    }
  }

  /** An idle caller that waits exactly as told is granted after at most five waits. */
  lemma FiveWaitsSuffice(c: Config, s: State, t: int, now: int)
    requires Inv(c, s, t) && t <= now && 0 < now && !Busy(c, s) && s.halted.None?
    ensures Retry(c, s, now, 5) == Allow
  {
    RetriesSucceed(c, s, t, now, 5);
  }

  // ---------------------------------------------------------------- the breaker

  /** What the breaker was told, in order: true for a rate-limited call, false for anything that
      clears the streak. */
  function History(run: seq<Op>): seq<bool>
    decreases |run|
  {
    if run == [] then []
    else
      var last := run[|run| - 1];
      History(run[..|run| - 1]) + (if last.Report? then [last.limited] else if last.Succeed? then [false] else [])
  }

  /** The lengths of the history's maximal rate-limited streaks, the current one last. */
  function Streaks(h: seq<bool>): (q: seq<nat>)
    ensures q != []
    decreases |h|
  {
    if h == [] then [0]
    else
      var q := Streaks(h[..|h| - 1]);
      if h[|h| - 1] then q[..|q| - 1] + [q[|q| - 1] + 1] else q + [0]
  }

  /** How often streaks of these lengths fill the threshold. */
  function Fillings(q: seq<nat>, threshold: int): int
    requires threshold > 0
    decreases |q|
  {
    if q == [] then 0 else Fillings(q[..|q| - 1], threshold) + q[|q| - 1] / threshold
  }

  lemma {:induction false} AfterSplit(c: Config, s: State, a: seq<Op>, b: seq<Op>)
    ensures After(c, s, a + b) == After(c, After(c, s, a), b)
    decreases |a|
  {
    if a == [] {
      assert a + b == b;
    } else {
      assert (a + b)[1..] == a[1..] + b;
      AfterSplit(c, Step(c, s, a[0]), a[1..], b);
    }
  }

  lemma AfterLast(c: Config, s: State, run: seq<Op>)
    requires run != []
    ensures After(c, s, run) == Step(c, After(c, s, run[..|run| - 1]), run[|run| - 1])
  {
    var front, last := run[..|run| - 1], [run[|run| - 1]];
    assert run == front + last;
    AfterSplit(c, s, front, last);
    assert last[1..] == [];
  }

  lemma OneMore(n: nat, d: int)
    requires d > 0
    ensures (n + 1) / d == n / d + (if n % d == d - 1 then 1 else 0)
    ensures (n + 1) % d == if n % d == d - 1 then 0 else n % d + 1
  {
    var q, r := n / d, n % d;
    assert n == d * q + r;
    if r == d - 1 {
      assert n + 1 == d * (q + 1);
      Quotient(n + 1, d, q + 1, 0);
    } else {
      Quotient(n + 1, d, q, r + 1);
    }
  }

  lemma StrictMultiples(d: int, a: int, b: int)
    requires d > 0
    ensures a < b ==> d * a + d <= d * b
  {
    if a < b {
      Distribute(d, a, b - a);
      MulMonotone(d, 1, b - a);
    }
  }

  lemma Quotient(n: int, d: int, q: int, r: int)
    requires d > 0 && 0 <= r < d && n == d * q + r
    ensures n / d == q && n % d == r
  {
    StrictMultiples(d, n / d, q);
    StrictMultiples(d, q, n / d);
  }

  /** The breaker's counters are those of the streaks `q`. */
  predicate Counted(c: Config, s: State, q: seq<nat>) {
    && q != []
    && s.opens == Fillings(q, AtLeastOne(c.threshold))
    && s.fails == q[|q| - 1] % AtLeastOne(c.threshold)
    && (s.halted.Some? <==> s.opens >= AtLeastOne(c.maxOpens))
  }

  lemma RecordCounts(c: Config, s: State, q: seq<nat>, now: int)
    requires Counted(c, s, q)
    ensures Counted(c, Record(c, s, now, true), q[..|q| - 1] + [q[|q| - 1] + 1])
    ensures Counted(c, Record(c, s, now, false), q + [0]) && Counted(c, RecordSuccess(s), q + [0])
  {
    var th := AtLeastOne(c.threshold);
    var more, cleared := q[..|q| - 1] + [q[|q| - 1] + 1], q + [0];
    OneMore(q[|q| - 1], th);
    Quotient(0, th, 0, 0);
    assert more[..|more| - 1] == q[..|q| - 1] && cleared[..|cleared| - 1] == q;
  }

  lemma OthersCount(c: Config, s: State, q: seq<nat>, op: Op)
    requires Counted(c, s, q) && (op.TryAcquire? || op.Finish?)
    ensures Counted(c, Step(c, s, op), q)
  {
    hide Acquire;
    if op.TryAcquire? { AttemptKeepsBreaker(c, s, op.at); }
  }

  /** The breaker is a function of what it was told: it has opened once for every threshold filled
      within a maximal rate-limited streak, and it is halted exactly when that reaches the maximum. */
  lemma {:induction false} BreakerCountsStreaks(c: Config, run: seq<Op>)
    ensures Counted(c, After(c, New(c), run), Streaks(History(run)))
    decreases |run|
  {
    hide Acquire, Record;
    if run == [] {
      assert Streaks(History(run)) == [0] && [0][..0] == [];
      assert Fillings([0][..0], AtLeastOne(c.threshold)) == 0;
      Quotient(0, AtLeastOne(c.threshold), 0, 0);
    } else {
      var front, last := run[..|run| - 1], run[|run| - 1];
      BreakerCountsStreaks(c, front);
      AfterLast(c, New(c), run);
      var s, h := After(c, New(c), front), History(front);
      if last.TryAcquire? || last.Finish? {
        assert History(run) == h;
        OthersCount(c, s, Streaks(h), last);
      } else {
        var told := last.Report? && last.limited;
        assert History(run) == h + [told] && (h + [told])[..|h|] == h;
        RecordCounts(c, s, Streaks(h), if last.Report? then last.at else 0);
      }
    }
  }

  lemma AttemptKeepsBreaker(c: Config, s: State, now: int)
    ensures var s' := Acquire(c, s, now).0;
      s'.openUntil == s.openUntil && s'.opens == s.opens && s'.fails == s.fails && s'.halted == s.halted
    ensures s.halted.Some? ==> Acquire(c, s, now).1.Halt?
  {
    hide Gap, CeilDiv, Rate;
  }

  /** Halting is for good, and the breaker's deadline never moves back. */
  lemma {:induction false} BreakerNeverRelents(c: Config, s: State, t: int, run: seq<Op>)
    requires Inv(c, s, t) && Clocked(t, run)
    ensures After(c, s, run).openUntil >= s.openUntil && After(c, s, run).opens >= s.opens
    ensures s.halted.Some? ==> After(c, s, run).halted.Some? && Grants(c, s, run) == []
    decreases |run|
  {
    hide Acquire, Backoff;
    if run != [] {
      StepKeepsInv(c, s, t, run[0]);
      if run[0].TryAcquire? { AttemptKeepsBreaker(c, s, run[0].at); }
      if run[0].Report? { RecordKeepsInv(c, s, t, run[0].at, run[0].limited); }
      BreakerNeverRelents(c, Step(c, s, run[0]), TimeOf(run[0], t), run[1..]);
    }
  }
}
