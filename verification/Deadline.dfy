/** 32-bit millisecond ticks that wrap, and deadlines on them. */
module Deadline {
  import opened Base

  type Tick = Word

  datatype Deadline = Deadline(at: Tick, armed: bool)

  predicate ValidInterval(i: Tick) { i < TWO31 }

  function After(now: Tick, interval: Tick): Deadline {
    Deadline((now + interval) % TWO32, ValidInterval(interval))
  }

  predicate Expired(d: Deadline, now: Tick) {
    d.armed && (now - d.at) % TWO32 < TWO31
  }

  function Elapsed(since: Tick, now: Tick): Tick { (now - since) % TWO32 }

  /** `(int32_t)(now - when) >= 0`. */
  predicate Due(now: Tick, when: Tick) { (now - when) % TWO32 < TWO31 }

  /** The tick a clock that never wraps would show as `t`. */
  function Tick32(t: nat): Tick { t % TWO32 }

  /** In unwrapped time, as long as the clock is read within 2^31 ms of either side. */
  lemma DueIsLater(now: nat, when: nat)
    requires now < when + TWO31 && when <= now + TWO31
    ensures Due(Tick32(now), Tick32(when)) <==> now >= when
  {
    WrapDifference(now, when);
  }

  lemma WrapDifference(a: nat, b: nat)
    ensures (Tick32(a) - Tick32(b)) % TWO32 == (a - b) % TWO32
  {
    var q, r := a / TWO32, b / TWO32;
    assert a == TWO32 * q + Tick32(a) && b == TWO32 * r + Tick32(b);
    assert a - b == TWO32 * (q - r) + (Tick32(a) - Tick32(b));
    ModShift(Tick32(a) - Tick32(b), q - r);
  }

  lemma ModShift(x: int, k: int)
    ensures (TWO32 * k + x) % TWO32 == x % TWO32
  {
    var m := TWO32 * k + x;
    assert m / TWO32 - k == x / TWO32 by {
      assert TWO32 * k + x == TWO32 * (m / TWO32) + m % TWO32;
      assert x == TWO32 * (m / TWO32 - k) + m % TWO32;
    }
  }

  /** A deadline has expired exactly when its moment has passed. */
  lemma ExpiredIsPassed(start: nat, interval: Tick, now: nat)
    requires ValidInterval(interval)
    requires now < start + interval + TWO31 && start <= now
    ensures Expired(After(Tick32(start), interval), Tick32(now)) <==> now >= start + interval
  {
    WrapSum(start, interval);
    DueIsLater(now, start + interval);
  }

  lemma WrapSum(t: nat, i: nat)
    ensures (Tick32(t) + i) % TWO32 == Tick32(t + i)
  {
    var q := t / TWO32;
    assert t + i == TWO32 * q + (Tick32(t) + i);
    ModShift(Tick32(t) + i, q);
  }

  /** The condition is needed: 2^31 ms after it passed, a deadline reads as pending again. */
  lemma ExpiryIsForgotten(start: nat, interval: Tick)
    requires ValidInterval(interval)
    ensures !Expired(After(Tick32(start), interval), Tick32(start + interval + TWO31))
  {
    var at := start + interval;
    WrapSum(start, interval);
    WrapDifference(at + TWO31, at);
  }
}
