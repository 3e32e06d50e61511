/** The limiter object, each method proved to be the corresponding step of `LimiterSpec`. */
module Limiter {
  import opened Prelude
  import opened LimiterSpec

  datatype FailureOutcome = FailureOutcome(tripped: bool, halted: bool)

  class Limiter {
    const config: Config
    var tokens: int
    var lastRefill: int
    var lastGrant: int
    var minuteStart: int
    var minuteCount: nat
    var dayStart: int
    var dayCount: nat
    var inFlight: nat
    var grants: nat
    var consecutiveFails: nat
    var opens: nat
    var openUntil: int
    var halted: Option<nat>

    function Now(): State
      reads this
    {
      State(tokens, lastRefill, lastGrant, minuteStart, minuteCount, dayStart, dayCount,
            inFlight, grants, consecutiveFails, opens, openUntil, halted)
    }

    constructor (c: Config)
      ensures config == c && Now() == New(c)
    {
      config := c;
      tokens := CALL * AtLeastOne(c.rpm);
      lastRefill, lastGrant := 0, LONG_AGO;
      minuteStart, minuteCount, dayStart, dayCount := 0, 0, 0, 0;
      inFlight, grants := 0, 0;
      consecutiveFails, opens, openUntil, halted := 0, 0, 0, None;
    }

    /** The refill and the turn of the day at the head of every attempt. */
    method FillBucket(now: int)
      modifies this
      ensures Now() == Refill(config, old(Now()), now)
    {
      if lastRefill == 0 {
        lastRefill := now;
        dayStart := now;
        minuteStart := now;
      }
      var rate := AtLeastOne(config.rpm);
      tokens := Min(tokens + Max(now - lastRefill, 0) * rate, CALL * rate);
      lastRefill := now;
      if now - dayStart >= DAY_MS {
        dayStart := now;
        dayCount := 0;
      }
    }

    method TurnMinute(now: int)
      modifies this`minuteStart, this`minuteCount
      ensures Now() == RollMinute(old(Now()), now)
    {
      if now - minuteStart >= MINUTE_MS {
        minuteStart := now;
        minuteCount := 0;
      }
    }

    method TryAcquire(now: int) returns (g: Grant)
      modifies this
      ensures (Now(), g) == Acquire(config, old(Now()), now)
    {
      hide Refill, Gap, CeilDiv, Max, RollMinute, AtLeastOne;
      if halted.Some? { return Halt(halted.value); }
      if now < openUntil { return Wait(openUntil - now); }
      FillBucket(now);
      if config.rpd > 0 && dayCount >= config.rpd {
        return Wait(Max(dayStart + DAY_MS - now, 1));
      }
      TurnMinute(now);
      if config.rpm > 0 && minuteCount >= config.rpm {
        return Wait(Max(minuteStart + MINUTE_MS - now, 1));
      }
      if inFlight >= AtLeastOne(config.concurrency) {
        return Wait(Max(config.minGap, 1));
      }
      var since := now - lastGrant;
      var gap := Gap(config, grants);
      if since < gap { return Wait(gap - since); }
      if tokens < CALL {
        var need := CALL - tokens;
        return Wait(Max(CeilDiv(need, AtLeastOne(config.rpm)), 1));
      }
      tokens := tokens - CALL;
      lastGrant := now;
      dayCount := dayCount + 1;
      minuteCount := minuteCount + 1;
      inFlight := inFlight + 1;
      grants := grants + 1;
      return Allow;
    }

    method ReleaseCall()
      modifies this
      ensures Now() == Release(old(Now()))
    {
      inFlight := if inFlight == 0 then 0 else inFlight - 1;
    }

    method RecordResult(now: int, limited: bool) returns (o: FailureOutcome)
      modifies this
      ensures Now() == Record(config, old(Now()), now, limited)
      ensures o.tripped <==> opens == old(opens) + 1
      ensures o.halted <==> o.tripped && opens >= AtLeastOne(config.maxOpens)
    {
      hide Pow2;
      if !limited {
        consecutiveFails := 0;
        return FailureOutcome(false, false);
      }
      consecutiveFails := consecutiveFails + 1;
      if consecutiveFails < AtLeastOne(config.threshold) { return FailureOutcome(false, false); }
      consecutiveFails := 0;
      opens := opens + 1;
      var shift := Min(opens - 1, 20);
      var backoff := Min(Min(config.backoffBase * Pow2(shift), I64_MAX), config.backoffMax);
      openUntil := now + backoff;
      var halt := opens >= AtLeastOne(config.maxOpens);
      if halt { halted := Some(opens); }
      return FailureOutcome(true, halt);
    }

    method RecordOk()
      modifies this
      ensures Now() == RecordSuccess(old(Now()))
    {
      consecutiveFails := 0;
    }
  }
}
