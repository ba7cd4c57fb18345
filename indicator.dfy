/** The two event indicators of the waterfall view ("DTD" for a detected
    frame, "DCD" for a decoded one). Each is one brightness scalar: a trigger
    sets it to 1.0 and every animation tick divides it by 1.1, never letting
    it fall below the floor 0.2. */
module Indicator {

  /** Value a trigger pulse sets a brightness to. */
  const FULL: real := 1.0
  /** Per-tick divisor of a brightness. */
  const DECAY: real := 1.1
  /** Lowest brightness a tick can produce. */
  const FLOOR: real := 0.2

  /** Qt's qMax: the second argument when the first is smaller, else the first. */
  function Max(a: real, b: real): (r: real)
    ensures r >= a && r >= b
    ensures r == a || r == b
  {
    if a < b then b else a
  }

  /** One animation tick applied to one brightness. */
  function Decay(b: real): (r: real)
    ensures r >= FLOOR
    ensures r >= b / DECAY
    ensures r == FLOOR || r == b / DECAY
  {
    Max(b / DECAY, FLOOR)
  }

  /** The brightness after n ticks with no retrigger in between. */
  function Ticks(b: real, n: nat): real
  {
    if n == 0 then b else Decay(Ticks(b, n - 1))
  }

  /** x raised to the n-th power; at least 1 for a base of at least 1. */
  function Pow(x: real, n: nat): (r: real)
    requires x >= 1.0
    ensures r >= 1.0
  {
    if n == 0 then 1.0 else x * Pow(x, n - 1)
  }

  /** A brightness that is already at or above the floor never grows. */
  lemma DecayNeverIncreases(b: real)
    requires b >= FLOOR
    ensures FLOOR <= Decay(b) <= b
  {
  }

  /** A brightness in the unit interval stays there, and ends at or above the floor. */
  lemma DecayKeepsUnitRange(b: real)
    requires 0.0 <= b <= FULL
    ensures FLOOR <= Decay(b) <= FULL
  {
  }

  /** The constructor starts both brightnesses at 0.0; the first tick lifts them to the floor. */
  lemma FirstTickFromRest()
    ensures Decay(0.0) == FLOOR
  {
  }

  /** A tick right after a trigger already dims the indicator to 1/1.1. */
  lemma TickAfterTrigger()
    ensures Decay(FULL) == FULL / DECAY
    ensures Decay(FULL) < FULL
  {
  }

  lemma {:induction false} PowGrows(m: nat, n: nat)
    requires m <= n
    ensures Pow(DECAY, m) <= Pow(DECAY, n)
  {
    if m < n {
      PowGrows(m, n - 1);
    }
  }

  /** Closed form of the decay: from full brightness, n ticks give max(1/1.1^n, 0.2). */
  lemma {:induction false} TicksFromFull(n: nat)
    ensures Ticks(FULL, n) == Max(FULL / Pow(DECAY, n), FLOOR)
  {
    if n == 0 {
      assert Pow(DECAY, 0) == 1.0;
    } else {
      TicksFromFull(n - 1);
      var p := Pow(DECAY, n - 1);
      var x := FULL / p;
      assert Pow(DECAY, n) == DECAY * p;
      assert x / DECAY == FULL / (DECAY * p);
      if x < FLOOR {
        assert Ticks(FULL, n - 1) == FLOOR;
        assert FLOOR / DECAY < FLOOR;
        assert Ticks(FULL, n) == FLOOR;
      } else {
        assert Ticks(FULL, n - 1) == x;
      }
    }
  }

  lemma {:induction false} PowAdd(m: nat, n: nat)
    ensures Pow(DECAY, m + n) == Pow(DECAY, m) * Pow(DECAY, n)
  {
    if m > 0 {
      PowAdd(m - 1, n);
    }
  }

  /** 1.1^16 is below 5 and 1.1^17 above it. */
  lemma PowOfDecay()
    ensures Pow(DECAY, 16) < 5.0 < Pow(DECAY, 17)
  {
    assert Pow(DECAY, 2) == 1.21 by {
      assert Pow(DECAY, 1) == 1.1;
    }
    PowAdd(2, 2);
    PowAdd(4, 4);
    PowAdd(8, 8);
    assert Pow(DECAY, 16) == 45949729863572161.0 / 10000000000000000.0;
  }

  lemma PowBelowFive(n: nat)
    requires n <= 16
    ensures Pow(DECAY, n) < 5.0
  {
    PowOfDecay();
    PowGrows(n, 16);
  }

  /** For the first sixteen ticks after a trigger the indicator is still above the floor. */
  lemma AboveFloorForSixteenTicks(n: nat)
    requires n <= 16
    ensures Ticks(FULL, n) > FLOOR
  {
    TicksFromFull(n);
    PowBelowFive(n);
    var p := Pow(DECAY, n);
    assert FULL / p > FLOOR by {
      assert (FULL / p) * p == FULL;
    }
  }

  /** From the seventeenth tick on the indicator sits exactly at the floor. */
  lemma SettledFromSeventeenTicks(n: nat)
    requires n >= 17
    ensures Ticks(FULL, n) == FLOOR
  {
    TicksFromFull(n);
    PowOfDecay();
    PowGrows(17, n);
  }

  /** Without retrigger, a brightness in [0.2, 1.0] stays in that range and never increases. */
  lemma {:induction false} TicksSettle(b: real, n: nat)
    requires FLOOR <= b <= FULL
    ensures FLOOR <= Ticks(b, n + 1) <= Ticks(b, n) <= FULL
  {
    if n == 0 {
      DecayNeverIncreases(b);
    } else {
      TicksSettle(b, n - 1);
      DecayNeverIncreases(Ticks(b, n));
    }
  }
}
