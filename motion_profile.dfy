/**
 * Motion profile estimator: from a commanded speed, the time a motor needs to
 * travel its full range, and from that the position step applied per read.
 */
module MotionProfile {

  /** Below this speed the motor does not move. */
  const MinRpm: int := 30
  /** Above this speed the linear estimate is replaced by a constant. */
  const MaxRpm: int := 130
  /** Full-range time used for every speed above MaxRpm. */
  const ClampedMoveTime: int := 1000
  /** Full-range time at MinRpm, the slowest moving speed. */
  const SlowestMoveTime: int := 22000
  /** Full-range time at MaxRpm, the end of the linear part. */
  const LinearEndMoveTime: int := 2000

  /** `_sim_fd` value of a context with no transport handle. */
  const ClosedFd: int := -1
  /** Milliseconds of processing overhead added to the tick delay. */
  const TickOverhead: int := 10
  /** (1 << 10) * 100: one full range (100 percent) in raw units. */
  const FullRange: int := 102400

  const Int32Min: int := -0x8000_0000
  const Int32Max: int := 0x7fff_ffff
  /** Bounds on the tick delay under which FullRange * (delay + TickOverhead) fits in a C int. */
  const MinDelay: int := -20981
  const MaxDelay: int := 20961

  predicate DelayFits(delay: int) {
    MinDelay <= delay <= MaxDelay
  }

  function Abs(x: int): (a: nat) {
    if x < 0 then -x else x
  }

  /**
   * `sae_estimate_move_time`: estimated full-range travel time in ms,
   * 0 meaning "does not move".
   */
  function MoveTime(rpm: int): (t: int)
    ensures t == 0 <==> rpm < MinRpm
    ensures rpm >= MinRpm ==> ClampedMoveTime <= t <= SlowestMoveTime
  {
    if rpm < MinRpm then 0
    else if rpm > MaxRpm then ClampedMoveTime
    else 8000 + 200 * (100 - rpm)
  }

  /** On the linear part the estimate falls strictly as the speed rises. */
  lemma MoveTimeStrictlyDecreasing(a: int, b: int)
    requires MinRpm <= a < b <= MaxRpm
    ensures MoveTime(b) < MoveTime(a)
  {
  }

  /** Over all moving speeds the estimate never rises with the speed. */
  lemma MoveTimeNonIncreasing(a: int, b: int)
    requires MinRpm <= a <= b
    ensures MoveTime(b) <= MoveTime(a)
  {
  }

  /** The linear part runs from 22000 ms down to 2000 ms; faster speeds are clamped to 1000 ms. */
  lemma MoveTimeEndpoints(rpm: int)
    ensures MoveTime(MinRpm) == SlowestMoveTime
    ensures MoveTime(MaxRpm) == LinearEndMoveTime
    ensures rpm > MaxRpm ==> MoveTime(rpm) == ClampedMoveTime
  {
  }

  /** C division of int by a positive int: the quotient is truncated toward zero. */
  function TruncDiv(a: int, b: int): (q: int)
    requires b > 0
    ensures a >= 0 ==> q >= 0
    ensures a <= 0 ==> q <= 0
    ensures Abs(q) * b <= Abs(a) < Abs(q) * b + b
  {
    if a >= 0 then DivBounds(a, b); a / b else DivBounds(-a, b); -((-a) / b)
  }

  /** Euclidean division of a non-negative dividend, stated linearly in the quotient. */
  lemma DivBounds(n: int, b: int)
    requires n >= 0 && b > 0
    ensures n / b >= 0
    ensures (n / b) * b <= n < (n / b) * b + b
  {
    assert n == (n / b) * b + n % b;
  }

  /** The numerator of the step computation does not overflow a C int. */
  lemma NumeratorFits(delay: int)
    requires DelayFits(delay)
    ensures Int32Min <= FullRange * (delay + TickOverhead) <= Int32Max
  {
  }

  /**
   * `sae_pos_increment`, `sae_tilt_increment`, `sae_height_increment`: the raw
   * position step per read for a motor commanded at `rpm`. It is 0 for a closed
   * or inactive context and for a speed that does not move; otherwise it is
   * FullRange * (delay + 10) / MoveTime(rpm) with C's truncating division.
   */
  function Increment(fd: int, active: bool, delay: int, rpm: int): (step: int)
    requires DelayFits(delay)
    ensures fd == ClosedFd || !active || rpm < MinRpm ==> step == 0
    ensures delay >= -TickOverhead ==> step >= 0
    ensures delay <= -TickOverhead ==> step <= 0
    ensures fd != ClosedFd && active && rpm >= MinRpm ==>
              Abs(step) * MoveTime(rpm) <= Abs(FullRange * (delay + TickOverhead))
                                         < Abs(step) * MoveTime(rpm) + MoveTime(rpm)
  {
    if fd == ClosedFd then 0
    else if !active then 0
    else
      var moveTime := MoveTime(rpm);
      if moveTime == 0 then 0
      else TruncDiv(FullRange * (delay + TickOverhead), moveTime)
  }

  /**
   * A step never covers more than (delay + 10) / 10 percent, since the
   * full-range time is at least 1000 ms.
   */
  lemma IncrementAtMost(fd: int, active: bool, delay: int, rpm: int)
    requires DelayFits(delay)
    ensures Abs(Increment(fd, active, delay, rpm)) * ClampedMoveTime <= Abs(FullRange * (delay + TickOverhead))
  {
    var step := Increment(fd, active, delay, rpm);
    if fd != ClosedFd && active && rpm >= MinRpm {
      MulMonotone(ClampedMoveTime, MoveTime(rpm), Abs(step));
    }
  }

  /**
   * With the default 10 ms tick, a moving speed gives a step of 2048000 /
   * MoveTime(rpm), between 93 and 2048 raw units (about 0.09 to 2 percent).
   */
  lemma DefaultDelayStep(fd: int, rpm: int)
    requires fd != ClosedFd && rpm >= MinRpm
    ensures var step := Increment(fd, true, 10, rpm);
            step == 2048000 / MoveTime(rpm) && 93 <= step <= 2048
  {
    var t := MoveTime(rpm);
    assert Increment(fd, true, 10, rpm) == 2048000 / t;
    QuotientBounds(2048000, t, 93, 2048);
  }

  /** Bounds on a quotient: lo <= a / b <= hi when lo * b <= a < (hi + 1) * b. */
  lemma QuotientBounds(a: int, b: int, lo: int, hi: int)
    requires a >= 0 && b > 0
    requires lo * b <= a < (hi + 1) * b
    ensures lo <= a / b <= hi
  {
    var q := a / b;
    assert q * b <= a < q * b + b;
    MulStrict(lo, q + 1, b);
    MulStrict(q, hi + 1, b);
  }

  /** Multiplying by a positive number keeps strict order, in both directions. */
  lemma MulStrict(x: int, y: int, b: int)
    requires b > 0
    ensures x < y <==> x * b < y * b
  {
    assert y * b - x * b == (y - x) * b;
  }

  /** Multiplying by a non-negative number keeps order. */
  lemma MulMonotone(x: int, y: int, b: int)
    requires x <= y && b >= 0
    ensures x * b <= y * b
  {
    assert y * b - x * b == (y - x) * b;
  }
}
