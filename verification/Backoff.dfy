/** src/backoff.rs: the exponential redial delay. Durations are milliseconds. */
module Backoff {
  import opened Types

  function Pow2(k: nat): nat {
    if k == 0 then 1 else 2 * Pow2(k - 1)
  }

  /** The retry schedule as the design states it: the n-th consecutive failure (n >= 1)
      waits `min` doubled n-1 times, at most twenty times, held between `min` and `max`. */
  function Schedule(min: nat, max: nat, failures: nat): nat
    requires failures > 0
  {
    Max(Min(min * Pow2(Min(failures - 1, 20)), max), min)
  }

  lemma {:induction false} Pow2Monotone(a: nat, b: nat)
    requires a <= b
    ensures 1 <= Pow2(a) <= Pow2(b)
  {
    if b > 0 {
      if a == b { Pow2Monotone(a - 1, b - 1); } else { Pow2Monotone(a, b - 1); }
    }
  }

  lemma MulMonotone(m: nat, a: nat, b: nat)
    requires 1 <= a <= b
    ensures m <= m * a <= m * b
  {
    assert m * b == m * a + m * (b - a);
    assert m * a == m + m * (a - 1);
  }

  /** More failures never wait less. */
  lemma ScheduleMonotone(min: nat, max: nat, a: nat, b: nat)
    requires 0 < a <= b
    ensures min <= Schedule(min, max, a) <= Schedule(min, max, b)
    ensures Schedule(min, max, b) <= Max(min, max)
  {
    var x, y := Min(a - 1, 20), Min(b - 1, 20);
    Pow2Monotone(x, y);
    MulMonotone(min, Pow2(x), Pow2(y));
  }

  /** From 1 s up to 300 s, the cap is reached with the tenth failure. */
  lemma ScheduleOfTheService(failures: nat)
    requires failures > 0
    ensures failures <= 9 ==> Schedule(1000, 300_000, failures) == 1000 * Pow2(failures - 1)
    ensures failures >= 10 ==> Schedule(1000, 300_000, failures) == 300_000
  {
    assert Pow2(8) == 256 && Pow2(9) == 512 by {
      assert Pow2(2) == 4 && Pow2(4) == 16 && Pow2(6) == 64;
    }
    if failures <= 9 {
      Pow2Monotone(failures - 1, 8);
    } else {
      Pow2Monotone(9, Min(failures - 1, 20));
    }
  }

  class Backoff {
    const min: nat
    const max: nat
    var attempt: nat

    constructor (min: nat, max: nat)
      ensures this.min == min && this.max == max && attempt == 0
    {
      this.min, this.max, attempt := min, max, 0;
    }

    /** The clamp hides the source's saturating multiplication: anything that would
        saturate is above `max` anyway. */
    method NextDelay() returns (d: nat)
      requires attempt <= U32_MAX
      modifies this`attempt
      ensures attempt == Bump32(old(attempt))
      ensures d == Schedule(min, max, attempt)
    {
      var shift := Min(attempt, 20);
      d := min * Pow2(shift);
      attempt := Bump32(attempt);
      d := Max(Min(d, max), min);
    }

    method Reset()
      modifies this`attempt
      ensures attempt == 0
    {
      attempt := 0;
    }
  }
}
