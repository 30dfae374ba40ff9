/**
 * The state machine of one seat motor (fore/aft, tilt or height): a command
 * sets its direction and step, and each scheduled read advances it by one
 * tick with end-of-travel and threshold stops.
 */
module MotorState {
  import opened Wrappers
  import opened PositionCodec

  /** Commanded direction of motion. */
  datatype Direction = Off | Inc | Dec

  /**
   * The numeric values a motor's direction enumeration has on the bus
   * (MotorPosDirection_*, MotorTiltDirection_*, MotorHeightDirection_*).
   * Their values are not fixed here; they are distinct 2-bit codes.
   */
  datatype DirCodes = DirCodes(off: int, inc: int, dec: int) {

    predicate Valid() {
      && 0 <= off < 4 && 0 <= inc < 4 && 0 <= dec < 4
      && off != inc && off != dec && inc != dec
    }

    /** The code that stands for direction d. */
    function Code(d: Direction): int {
      match d
      case Off => off
      case Inc => inc
      case Dec => dec
    }

    /** The direction a code stands for, if any. */
    function Lookup(c: int): (d: Option<Direction>)
      ensures d.Some? ==> Code(d.value) == c
      ensures d.None? ==> c != off && c != inc && c != dec
    {
      if c == off then Some(Off)
      else if c == inc then Some(Inc)
      else if c == dec then Some(Dec)
      else None
    }
  }

  /** Distinct codes decode back to the direction they encode. */
  lemma LookupCode(codes: DirCodes, d: Direction)
    requires codes.Valid()
    ensures codes.Lookup(codes.Code(d)) == Some(d)
  {
  }

  /**
   * One motor's fields in the simulation context: raw position (None is the
   * uncalibrated SAE_POS_INVALID), learning state, direction, last speed, raw
   * step per tick, time motion started (None when not moving) and the two
   * threshold-stop latches.
   */
  datatype Motor = Motor(
    position: Option<int>,
    learning: int,
    dir: Direction,
    rpm: int,
    step: int,
    moveStart: Option<int>,
    hiLatch: bool,
    loLatch: bool)

  /** Percent an uncalibrated motor is set to on its first tick. */
  const CalibrationPercent: int := 42
  /** An INC tick ending at or above this percent stops once. */
  const HiThreshold: int := 85
  /** A DEC tick ending at or below this percent stops once. */
  const LoThreshold: int := 14
  /** Upper end of travel, in percent. */
  const TopPercent: int := 100
  /** Lower end of travel, in percent. */
  const BottomPercent: int := 0

  /** No motion, no speed, no step, no start time. */
  predicate Stopped(m: Motor) {
    m.dir == Off && m.rpm == 0 && m.step == 0 && m.moveStart.None?
  }

  /** A motor as `sae_init` leaves it. */
  function Idle(position: Option<int>, learning: int): (m: Motor)
    ensures m.position == position && m.learning == learning
    ensures Stopped(m) && !m.hiLatch && !m.loLatch
  {
    Motor(position, learning, Off, 0, 0, None, false, false)
  }

  /** A motor whose position is unknown or within [0, 100] percent. */
  predicate InRange(m: Motor) {
    m.position.Some? ==> BottomPercent <= Percent(m.position.value) <= TopPercent
  }

  /** The step points the way the motor moves. */
  predicate WellSigned(m: Motor) {
    && (m.dir == Inc ==> m.step >= 0)
    && (m.dir == Dec ==> m.step <= 0)
  }

  // ---------------------------------------------------------------- tick

  /** The raw position a tick starts from: an uncalibrated motor is set to 42 percent. */
  function StartPosition(m: Motor): (p: int)
    ensures m.position.Some? ==> p == m.position.value
    ensures m.position.None? ==> Percent(p) == CalibrationPercent && p % PosScale == 0
  {
    RoundTrip(CalibrationPercent);
    if m.position.None? then Raw(CalibrationPercent) else m.position.value
  }

  /**
   * First half of a tick: calibrate, then (with thresholds enabled) release
   * the low latch above 14 percent and the high latch below 85 percent.
   */
  function Prepare(m: Motor, thresholds: bool): (r: Motor)
    ensures r.position == Some(StartPosition(m))
    ensures thresholds ==> (r.loLatch <==> m.loLatch && Percent(StartPosition(m)) <= LoThreshold)
    ensures thresholds ==> (r.hiLatch <==> m.hiLatch && Percent(StartPosition(m)) >= HiThreshold)
    ensures !thresholds ==> r.loLatch == m.loLatch && r.hiLatch == m.hiLatch
    ensures r == m.(position := r.position, loLatch := r.loLatch, hiLatch := r.hiLatch)
  {
    var p := StartPosition(m);
    m.(position := Some(p),
       loLatch := m.loLatch && !(thresholds && Percent(p) > LoThreshold),
       hiLatch := m.hiLatch && !(thresholds && Percent(p) < HiThreshold))
  }

  /**
   * Second half of a tick: apply the step unless it would leave [0, 100]
   * percent (that stops the motor instead), then stop once at the threshold
   * the motor is moving toward if its latch is not set.
   */
  function Move(m: Motor, thresholds: bool): (r: Motor)
    requires m.position.Some?
    ensures r.position.Some?
    ensures r == m.(position := r.position, dir := r.dir, hiLatch := r.hiLatch, loLatch := r.loLatch)
    ensures m.dir == Off ==> r == m
    ensures r.dir == Off || r.dir == m.dir
    ensures r.position == m.position || r.position == Some(m.position.value + m.step)
    // a motor that keeps moving has taken its full step
    ensures r.dir != Off ==> r.position == Some(m.position.value + m.step)
    // INC keeps moving exactly when the step stays within 100 % and no armed high threshold is reached
    ensures m.dir == Inc ==>
              (r.dir == Inc <==> Percent(m.position.value + m.step) <= TopPercent
                                 && !(thresholds && !m.hiLatch && Percent(m.position.value + m.step) >= HiThreshold))
    ensures m.dir == Dec ==>
              (r.dir == Dec <==> Percent(m.position.value + m.step) >= BottomPercent
                                 && !(thresholds && !m.loLatch && Percent(m.position.value + m.step) <= LoThreshold))
    // a latch is never cleared here, and is set only by the stop it records
    ensures m.hiLatch ==> r.hiLatch
    ensures m.loLatch ==> r.loLatch
    ensures r.hiLatch && !m.hiLatch ==> thresholds && m.dir == Inc && r.dir == Off && Percent(r.position.value) >= HiThreshold
    ensures r.loLatch && !m.loLatch ==> thresholds && m.dir == Dec && r.dir == Off && Percent(r.position.value) <= LoThreshold
  {
    var p := m.position.value;
    var next := p + m.step;
    match m.dir
    case Off => m
    case Inc =>
      var overshoot := Percent(next) > TopPercent;
      var q := if overshoot then p else next;
      var stop := thresholds && !m.hiLatch && Percent(q) >= HiThreshold;
      m.(position := Some(q), dir := if overshoot || stop then Off else Inc, hiLatch := m.hiLatch || stop)
    case Dec =>
      var overshoot := Percent(next) < BottomPercent;
      var q := if overshoot then p else next;
      var stop := thresholds && !m.loLatch && Percent(q) <= LoThreshold;
      m.(position := Some(q), dir := if overshoot || stop then Off else Dec, loLatch := m.loLatch || stop)
  }

  /** One tick of a motor, as `sae_read_cb` runs it for each motor of the current phase. */
  function Tick(m: Motor, thresholds: bool): (r: Motor)
    ensures r.position.Some?
    ensures r.learning == m.learning && r.rpm == m.rpm && r.step == m.step && r.moveStart == m.moveStart
    ensures r.dir == Off || r.dir == m.dir
    ensures !thresholds ==> r.hiLatch == m.hiLatch && r.loLatch == m.loLatch
  {
    Move(Prepare(m, thresholds), thresholds)
  }

  /** The tick written as the engine performs it, one field update at a time. */
  method AdvanceMotor(m: Motor, thresholds: bool) returns (r: Motor)
    ensures r == Tick(m, thresholds)
  {
    r := CalibrateAndUnlatch(m, thresholds);
    r := StepMotor(r, thresholds);
  }

  /** Calibration and latch release, as the first statements of a tick. */
  method CalibrateAndUnlatch(m: Motor, thresholds: bool) returns (r: Motor)
    ensures r == Prepare(m, thresholds)
  {
    r := m;
    if r.position.None? {
      r := r.(position := Some(Raw(CalibrationPercent)));
    }
    if thresholds {
      if r.loLatch && Percent(r.position.value) > LoThreshold {
        r := r.(loLatch := false);
      }
      if r.hiLatch && Percent(r.position.value) < HiThreshold {
        r := r.(hiLatch := false);
      }
    }
  }

  /** The move with its end-of-travel and threshold stops, as the rest of a tick. */
  method StepMotor(m: Motor, thresholds: bool) returns (r: Motor)
    requires m.position.Some?
    ensures r == Move(m, thresholds)
  {
    r := m;
    var pos := m.position.value;
    var next := pos + r.step;
    if r.dir == Inc {
      if Percent(next) <= TopPercent {
        pos := next;
      } else {
        r := r.(dir := Off);
      }
      if thresholds && Percent(pos) >= HiThreshold && !r.hiLatch {
        r := r.(dir := Off, hiLatch := true);
      }
    } else if r.dir == Dec {
      if Percent(next) >= BottomPercent {
        pos := next;
      } else {
        r := r.(dir := Off);
      }
      if thresholds && Percent(pos) <= LoThreshold && !r.loLatch {
        r := r.(dir := Off, loLatch := true);
      }
    }
    r := r.(position := Some(pos));
  }

  /** An OFF motor keeps its (calibrated) position. */
  lemma TickOff(m: Motor, thresholds: bool)
    requires m.dir == Off
    ensures Tick(m, thresholds) == Prepare(m, thresholds)
    ensures Tick(m, thresholds).position == Some(StartPosition(m))
    ensures Tick(m, thresholds).dir == Off
  {
  }

  /**
   * An INC tick takes the step exactly when the result stays at or below
   * 100 percent; otherwise the motor stops where it is. It stays INC unless
   * it overshoots or reaches an armed high threshold.
   */
  lemma TickInc(m: Motor, thresholds: bool)
    requires m.dir == Inc
    ensures var p := StartPosition(m); var r := Tick(m, thresholds);
            && (Percent(p + m.step) <= TopPercent ==> r.position == Some(p + m.step))
            && (Percent(p + m.step) > TopPercent ==> r.position == Some(p) && r.dir == Off)
            && r.dir == (if Percent(p + m.step) > TopPercent
                            || (thresholds && !Prepare(m, thresholds).hiLatch && Percent(r.position.value) >= HiThreshold)
                         then Off else Inc)
            && r.loLatch == Prepare(m, thresholds).loLatch
  {
  }

  /**
   * A DEC tick takes the step exactly when the result stays at or above
   * 0 percent; otherwise the motor stops where it is. It stays DEC unless
   * it overshoots or reaches an armed low threshold.
   */
  lemma TickDec(m: Motor, thresholds: bool)
    requires m.dir == Dec
    ensures var p := StartPosition(m); var r := Tick(m, thresholds);
            && (Percent(p + m.step) >= BottomPercent ==> r.position == Some(p + m.step))
            && (Percent(p + m.step) < BottomPercent ==> r.position == Some(p) && r.dir == Off)
            && r.dir == (if Percent(p + m.step) < BottomPercent
                            || (thresholds && !Prepare(m, thresholds).loLatch && Percent(r.position.value) <= LoThreshold)
                         then Off else Dec)
            && r.hiLatch == Prepare(m, thresholds).hiLatch
  {
  }

  /**
   * The high threshold stop: an INC tick whose end position is at or above
   * 85 percent stops the motor and sets the high latch, unless the latch is
   * still set from before; a set latch stays set. An armed tick that takes
   * its step and ends below 85 percent keeps moving.
   */
  lemma TickHighThreshold(m: Motor)
    requires m.dir == Inc
    ensures var r := Tick(m, true); var armed := !Prepare(m, true).hiLatch;
            && (armed && Percent(r.position.value) >= HiThreshold ==> r.dir == Off && r.hiLatch)
            && (armed && Percent(StartPosition(m) + m.step) <= TopPercent && Percent(r.position.value) < HiThreshold
                ==> r.dir == Inc && !r.hiLatch)
            && (r.hiLatch <==> !armed || Percent(r.position.value) >= HiThreshold)
  {
  }

  /** The low threshold stop, symmetric to the high one for DEC ticks. */
  lemma TickLowThreshold(m: Motor)
    requires m.dir == Dec
    ensures var r := Tick(m, true); var armed := !Prepare(m, true).loLatch;
            && (armed && Percent(r.position.value) <= LoThreshold ==> r.dir == Off && r.loLatch)
            && (armed && Percent(StartPosition(m) + m.step) >= BottomPercent && Percent(r.position.value) > LoThreshold
                ==> r.dir == Dec && !r.loLatch)
            && (r.loLatch <==> !armed || Percent(r.position.value) <= LoThreshold)
  {
  }

  /**
   * The latch does not block motion: an INC motor whose high latch is set
   * while it is in the band keeps moving up to the end of travel (its low
   * latch is released, being above 14 percent).
   */
  lemma HighLatchDoesNotBlock(m: Motor)
    requires m.dir == Inc && m.hiLatch && m.position.Some?
    requires Percent(m.position.value) >= HiThreshold
    requires Percent(m.position.value + m.step) <= TopPercent
    ensures Tick(m, true) == m.(position := Some(m.position.value + m.step), loLatch := false)
  {
    assert Prepare(m, true) == m.(loLatch := false);
  }

  /** Symmetric statement for the low latch and DEC motion (the high latch is released). */
  lemma LowLatchDoesNotBlock(m: Motor)
    requires m.dir == Dec && m.loLatch && m.position.Some?
    requires Percent(m.position.value) <= LoThreshold
    requires Percent(m.position.value + m.step) >= BottomPercent
    ensures Tick(m, true) == m.(position := Some(m.position.value + m.step), hiLatch := false)
  {
    assert Prepare(m, true) == m.(hiLatch := false);
  }

  /** A tick of a well-signed motor in range leaves it in range, calibrated and well-signed. */
  lemma TickPreservesRange(m: Motor, thresholds: bool)
    requires InRange(m) && WellSigned(m)
    ensures InRange(Tick(m, thresholds)) && WellSigned(Tick(m, thresholds))
  {
    var p := StartPosition(m);
    PercentWithin(p, BottomPercent, TopPercent);
    PercentWithin(p + m.step, BottomPercent, TopPercent);
  }

  /** INC motion never lowers the position and DEC motion never raises it. */
  lemma TickMonotone(m: Motor, thresholds: bool)
    requires WellSigned(m)
    ensures m.dir == Inc ==> Tick(m, thresholds).position.value >= StartPosition(m)
    ensures m.dir == Dec ==> Tick(m, thresholds).position.value <= StartPosition(m)
  {
  }

  /** n consecutive ticks of one motor. */
  function Ticks(m: Motor, n: nat, thresholds: bool): (r: Motor)
    ensures n > 0 ==> r.position.Some?
    ensures r.learning == m.learning && r.rpm == m.rpm && r.step == m.step && r.moveStart == m.moveStart
    ensures m.dir == Off ==> r.dir == Off
    decreases n
  {
    if n == 0 then m else Ticks(Tick(m, thresholds), n - 1, thresholds)
  }

  /** However many ticks a well-signed motor in range receives, it stays in [0, 100] percent. */
  lemma {:induction false} TicksPreserveRange(m: Motor, n: nat, thresholds: bool)
    requires InRange(m) && WellSigned(m)
    ensures InRange(Ticks(m, n, thresholds)) && WellSigned(Ticks(m, n, thresholds))
    decreases n
  {
    if n > 0 {
      TickPreservesRange(m, thresholds);
      TicksPreserveRange(Tick(m, thresholds), n - 1, thresholds);
    }
  }

  /** A stopped motor stays stopped at its calibrated position under any number of ticks. */
  lemma {:induction false} TicksWhileOff(m: Motor, n: nat, thresholds: bool)
    requires m.dir == Off && m.position.Some?
    ensures Ticks(m, n, thresholds).dir == Off
    ensures Ticks(m, n, thresholds).position == m.position
    decreases n
  {
    if n > 0 {
      TickOff(m, thresholds);
      TicksWhileOff(Tick(m, thresholds), n - 1, thresholds);
    }
  }

  // ------------------------------------------------------------- command

  /**
   * One decoded command slot applied to a motor (`sae_write_cb`): the speed is
   * always stored; OFF stops the motor and clears speed, step and start time;
   * INC or DEC with a non-zero speed starts motion with +step or -step from
   * `now`; any other combination changes nothing else.
   */
  function ApplyCommand(m: Motor, codes: DirCodes, code: int, rpm: int, step: int, now: int): (r: Motor)
    ensures r.position == m.position && r.learning == m.learning
    ensures r.hiLatch == m.hiLatch && r.loLatch == m.loLatch
  {
    match codes.Lookup(code)
    case None => m.(rpm := rpm)
    case Some(d) =>
      if d == Off then m.(dir := Off, rpm := 0, step := 0, moveStart := None)
      else if rpm > 0 then m.(dir := d, rpm := rpm, step := if d == Inc then step else -step, moveStart := Some(now))
      else m.(rpm := rpm)
  }

  /** The command written as the engine performs it: store the speed, then test OFF, INC, DEC in turn. */
  method CommandMotor(m: Motor, codes: DirCodes, code: int, rpm: int, step: int, now: int) returns (r: Motor)
    ensures r == ApplyCommand(m, codes, code, rpm, step, now)
  {
    r := m.(rpm := rpm);
    if code == codes.off {
      r := r.(dir := Off, rpm := 0, moveStart := None, step := 0);
    } else if code == codes.inc && rpm > 0 {
      r := r.(dir := Inc, step := step, moveStart := Some(now));
    } else if code == codes.dec && rpm > 0 {
      r := r.(dir := Dec, step := -step, moveStart := Some(now));
    }
  }

  /** OFF stops the motor whatever its state, and sending it again changes nothing. */
  lemma CommandOff(m: Motor, codes: DirCodes, rpm: int, step: int, now: int,
                   rpm': int, step': int, now': int)
    ensures var r := ApplyCommand(m, codes, codes.off, rpm, step, now);
            && Stopped(r)
            && ApplyCommand(r, codes, codes.off, rpm', step', now') == r
  {
  }

  /** INC and DEC with a non-zero speed start motion with the signed step, stamped `now`. */
  lemma CommandStart(m: Motor, codes: DirCodes, d: Direction, rpm: int, step: int, now: int)
    requires codes.Valid() && d != Off && rpm > 0
    ensures var r := ApplyCommand(m, codes, codes.Code(d), rpm, step, now);
            && r.dir == d && r.rpm == rpm && r.moveStart == Some(now)
            && r.step == (if d == Inc then step else -step)
  {
  }

  /** A code that is neither OFF nor an accepted INC/DEC only overwrites the speed. */
  lemma CommandIgnored(m: Motor, codes: DirCodes, code: int, rpm: int, step: int, now: int)
    requires code != codes.off
    requires rpm <= 0 || (code != codes.inc && code != codes.dec)
    ensures ApplyCommand(m, codes, code, rpm, step, now) == m.(rpm := rpm)
  {
  }

  /** With a non-negative step, any command leaves a well-signed motor well-signed. */
  lemma CommandPreservesWellSigned(m: Motor, codes: DirCodes, code: int, rpm: int, step: int, now: int)
    requires WellSigned(m) && step >= 0
    ensures WellSigned(ApplyCommand(m, codes, code, rpm, step, now))
    ensures InRange(m) ==> InRange(ApplyCommand(m, codes, code, rpm, step, now))
  {
  }
}
