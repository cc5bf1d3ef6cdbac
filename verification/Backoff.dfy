/** The retry delay of internal/worker/retry.go, in nanoseconds. */
module Backoff {

  const SECOND: int := 1_000_000_000
  const BASE: int := 2 * SECOND
  const CAP: int := 60 * SECOND
  const MAX_INT64: int := 0x7fff_ffff_ffff_ffff

  function Pow2(n: nat): nat { if n == 0 then 1 else 2 * Pow2(n - 1) }

  function Min(a: int, b: int): int { if a < b then a else b }

  // The exponent of the documented curve, and the one the code uses.
  function Shift(attempt: int): nat { if attempt < 1 then 0 else attempt - 1 }

  function ClampedShift(attempt: int): nat { Min(Shift(attempt), 5) }

  // The documented curve: base * 2^(attempt-1), capped, for every 1-based attempt.
  function Ceiling(attempt: int): int {
    Min(CAP, BASE * Pow2(Shift(attempt)))
  }

  // The delay drawn for a given random number.
  function Delay(attempt: int, draw: nat): int {
    var half := Ceiling(attempt) / 2;
    half + draw % (half + 1)
  }

  lemma {:induction false} Pow2Monotone(a: nat, b: nat)
    requires a <= b
    ensures Pow2(a) <= Pow2(b)
    decreases b - a
  {
    if a == b {
    } else {
      Pow2Monotone(a, b - 1);
    }
  }

  lemma Pow2Of5()
    ensures Pow2(0) == 1 && Pow2(4) == 16 && Pow2(5) == 32
  {
    assert Pow2(1) == 2 && Pow2(2) == 4 && Pow2(3) == 8;
  }

  // Clamping the shift at 5 loses nothing: from the sixth attempt on the cap decides.
  lemma ClampedShiftKeepsCeiling(attempt: int)
    ensures Ceiling(attempt) == Min(CAP, BASE * Pow2(ClampedShift(attempt)))
  {
    Pow2Of5();
    if attempt > 6 {
      Pow2Monotone(5, attempt - 1);
    }
  }

  lemma CeilingMonotone(a: int, b: int)
    requires a <= b
    ensures BASE <= Ceiling(a) <= Ceiling(b) <= CAP
  {
    Pow2Monotone(0, Shift(a));
    Pow2Monotone(Shift(a), Shift(b));
  }

  // Equal jitter: every delay lies between half the ceiling and the ceiling, and
  // the lower end of the window never shrinks as attempts grow.
  lemma DelayWindow(attempt: int, draw: nat)
    ensures BASE / 2 <= Ceiling(attempt) / 2 <= Delay(attempt, draw) <= Ceiling(attempt) <= CAP
    ensures Ceiling(attempt) / 2 <= Ceiling(attempt + 1) / 2
  {
    CeilingMonotone(attempt, attempt + 1);
  }

  lemma CeilingEven(attempt: int)
    ensures Ceiling(attempt) == 2 * (Ceiling(attempt) / 2)
  {
    var p := Pow2(Shift(attempt));
    assert BASE * p == 2 * (SECOND * p);
  }

  // Exactly the delays of the window are drawn.
  lemma WindowIsTight(attempt: int, delay: int)
    ensures (exists draw: nat :: Delay(attempt, draw) == delay) <==> Ceiling(attempt) / 2 <= delay <= Ceiling(attempt)
  {
    CeilingMonotone(attempt, attempt);
    CeilingEven(attempt);
    var half := Ceiling(attempt) / 2;
    if half <= delay <= Ceiling(attempt) {
      SmallRemainder(delay - half, half + 1);
      assert Delay(attempt, delay - half) == delay;
    }
    forall draw: nat
      ensures half <= Delay(attempt, draw) <= Ceiling(attempt)
    {
      DelayWindow(attempt, draw);
    }
  }

  lemma SmallRemainder(n: nat, m: nat)
    requires n < m
    ensures n % m == n
  {
  }

  /** The curve in seconds: two for the first attempt and for anything before it,
      then doubling up to sixty. */
  lemma CurveDoubles(attempt: int)
    ensures attempt <= 1 ==> Ceiling(attempt) == 2_000_000_000
    ensures attempt >= 1 ==>
              Ceiling(attempt + 1) == if Ceiling(attempt) > 30_000_000_000 then 60_000_000_000 else 2 * Ceiling(attempt)
  {
    if attempt >= 1 {
      assert Pow2(attempt) == 2 * Pow2(attempt - 1);
    }
  }

  lemma Pow2Add(a: nat, b: nat)
    ensures Pow2(a + b) == Pow2(a) * Pow2(b)
  {
    if b == 0 {
    } else {
      Pow2Add(a, b - 1);
    }
  }

  lemma Pow2Of32()
    ensures Pow2(32) == 0x1_0000_0000 && Pow2(33) == 0x2_0000_0000
  {
    Pow2Of5();
    Pow2Add(4, 4);
    Pow2Add(8, 8);
    Pow2Add(16, 16);
    Pow2Add(32, 1);
  }

  /** Why the shift is clamped: the shifted value always fits in an int64, and
      without the clamp it would exactly up to the 33rd attempt. */
  lemma ShiftFitsExactly(attempt: int)
    ensures BASE * Pow2(ClampedShift(attempt)) <= MAX_INT64
    ensures BASE * Pow2(Shift(attempt)) <= MAX_INT64 <==> attempt <= 33
  {
    Pow2Of5();
    Pow2Of32();
    Pow2Monotone(ClampedShift(attempt), 5);
    if attempt <= 33 {
      Pow2Monotone(Shift(attempt), 32);
    } else {
      Pow2Monotone(33, Shift(attempt));
    }
  }

  /** backoff: clamps in steps as the code does; `draw` stands for the random
      source, of which rand.Int64N keeps the remainder. The shifted value and the
      bound passed to the random source fit in an int64. */
  method Backoff(attempt: int, draw: nat) returns (delay: int)
    ensures delay == Delay(attempt, draw)
    ensures Ceiling(attempt) / 2 <= delay <= Ceiling(attempt)
    ensures 0 <= BASE * Pow2(ClampedShift(attempt)) <= MAX_INT64 && 0 < Ceiling(attempt) / 2 + 1 <= MAX_INT64
  {
    var n := attempt;
    if n < 1 {
      n := 1;
    }
    var shift := n - 1;
    if shift > 5 {
      shift := 5;
    }
    ClampedShiftKeepsCeiling(attempt);
    ShiftFitsExactly(attempt);
    assert shift == ClampedShift(attempt);
    var exp := BASE * Pow2(shift);
    if exp > CAP {
      exp := CAP;
    }
    var half := exp / 2;
    delay := half + draw % (half + 1);
    DelayWindow(attempt, draw);
  }
}
