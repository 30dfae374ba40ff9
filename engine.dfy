/**
 * The simulated seat-adjuster ECU: one context holding the three motors and
 * the simulation settings, with the read callback (advance one motor group,
 * report it) and the write callback (decode a command frame).
 */
module SeatAdjusterEngine {
  import opened Wrappers
  import opened PositionCodec
  import opened MotionProfile
  import opened MotorState
  import opened CanFrames

  /** errno values the callbacks set. */
  datatype Errno = Einval | Eagain

  /** Return value of a callback: a byte count, or -1 with errno. */
  datatype IoResult = Done(n: int) | Failed(errno: Errno)

  /** `_sim_ecux`: 1 reports the height motor, 2 the fore/aft and tilt motors. */
  datatype Phase = HeightPhase | PosTiltPhase {
    function Next(): (n: Phase)
      ensures n != this
    {
      match this
      case HeightPhase => PosTiltPhase
      case PosTiltPhase => HeightPhase
    }
  }

  /** Two reads bring the schedule back to where it started. */
  lemma PhaseAlternates(p: Phase)
    ensures p.Next() != p && p.Next().Next() == p
  {
  }

  /**
   * The integer values of the header's enumerations: direction codes of the
   * three motors and the MotorLRN_OK learning state.
   */
  datatype Enums = Enums(posDir: DirCodes, tiltDir: DirCodes, heightDir: DirCodes, learnedOk: int) {
    predicate Valid() {
      posDir.Valid() && tiltDir.Valid() && heightDir.Valid()
    }
  }

  /**
   * Configuration overrides present at initialisation, already converted to
   * integers: SAE_DELAY, SAE_POS, SAE_LRN and SAE_STOP.
   */
  datatype Config = Config(delay: Option<int>, position: Option<int>, learning: Option<int>, stop: Option<int>) {
    /** The delay fits the step computation, and an initial percent shifted by 10 bits fits a C int. */
    predicate Valid() {
      && (delay.Some? ==> DelayFits(delay.value))
      && (position.Some? ==> -0x20_0000 <= position.value < 0x20_0000)
    }
  }

  /** `_sim_delay` unless overridden, in ms. */
  const DefaultDelay: int := 10

  /** SAE_POS of -1 or 255 leaves a motor uncalibrated; any other value is a starting percent. */
  function InitialPosition(override: Option<int>): (pos: Option<int>)
    ensures override.None? ==> pos.None?
    ensures override.Some? ==> (pos.None? <==> override.value == -1 || override.value == 255)
    ensures pos.Some? ==> Percent(pos.value) == override.value && pos.value % PosScale == 0
  {
    match override
    case None => None
    case Some(p) =>
      RoundTrip(p);
      if p == -1 || p == 255 then None else Some(Raw(p))
  }

  /** `sae_context_t` with its behaviour. */
  class SimContext {
    const enums: Enums
    /** Fore/aft motor (motor 1, `_sim_motor_pos_*`). */
    var foreAft: Motor
    /** Tilt motor (motor 2, `_sim_motor_tilt_*`). */
    var tilt: Motor
    /** Height motor (motor 3, `_sim_motor_height_*`). */
    var height: Motor
    var delay: int
    var thresholdEnabled: bool
    var active: bool
    var fd: int
    var phase: Phase

    ghost predicate Valid()
      reads this
    {
      enums.Valid() && DelayFits(delay)
    }

    /** Every motor is within [0, 100] percent (or uncalibrated) and its step points its way. */
    ghost predicate Safe()
      reads this
    {
      && InRange(foreAft) && WellSigned(foreAft)
      && InRange(tilt) && WellSigned(tilt)
      && InRange(height) && WellSigned(height)
    }

    /** `sae_init`: defaults, then the configuration overrides. */
    constructor (config: Config, enums: Enums)
      requires config.Valid() && enums.Valid()
      ensures Valid() && this.enums == enums
      ensures fd == ClosedFd && !active && phase == HeightPhase
      ensures delay == config.delay.GetOr(DefaultDelay)
      ensures thresholdEnabled == (config.stop.None? || config.stop.value != 0)
      ensures var lrn := config.learning.GetOr(enums.learnedOk);
              var start := InitialPosition(config.position);
              foreAft == Idle(start, lrn) && tilt == Idle(start, lrn) && height == Idle(start, lrn)
      ensures (config.position.Some? ==> config.position.value in {-1, 255} ||
                                         BottomPercent <= config.position.value <= TopPercent) ==> Safe()
    {
      this.enums := enums;
      fd := ClosedFd;
      active := false;
      foreAft := Idle(None, enums.learnedOk);
      tilt := Idle(None, enums.learnedOk);
      height := Idle(None, enums.learnedOk);
      delay := DefaultDelay;
      thresholdEnabled := true;
      phase := HeightPhase;
      new;
      if config.delay.Some? {
        delay := config.delay.value;
      }
      if config.position.Some? {
        var start := InitialPosition(config.position);
        foreAft := foreAft.(position := start);
        tilt := tilt.(position := start);
        height := height.(position := start);
      }
      if config.learning.Some? {
        foreAft := foreAft.(learning := config.learning.value);
        tilt := tilt.(learning := config.learning.value);
        height := height.(learning := config.learning.value);
      }
      if config.stop.Some? {
        thresholdEnabled := config.stop.value != 0;
      }
    }

    /** `sae_start`: bind the transport handle and activate. */
    method Start(handle: int)
      requires Valid()
      modifies this
      ensures Valid()
      ensures fd == handle && active
      ensures foreAft == old(foreAft) && tilt == old(tilt) && height == old(height)
      ensures delay == old(delay) && thresholdEnabled == old(thresholdEnabled) && phase == old(phase)
    {
      fd := handle;
      active := true;
    }

    /** `sae_close`: release the handle and deactivate. */
    method Close()
      requires Valid()
      modifies this
      ensures Valid()
      ensures fd == ClosedFd && !active
      ensures foreAft == old(foreAft) && tilt == old(tilt) && height == old(height)
      ensures delay == old(delay) && thresholdEnabled == old(thresholdEnabled) && phase == old(phase)
    {
      fd := ClosedFd;
      active := false;
    }

    /**
     * `sae_read_cb`: fails with EINVAL on a closed context or a buffer that is
     * not one frame, and with EAGAIN when inactive, changing nothing. Otherwise
     * it ticks the motors of the current phase, returns their status frame in
     * place of `buf` and moves to the other phase.
     */
    method Read(buf: Frame, len: int) returns (r: IoResult, out: Frame)
      requires Valid()
      modifies this
      ensures Valid()
      ensures delay == old(delay) && thresholdEnabled == old(thresholdEnabled)
      ensures active == old(active) && fd == old(fd)
      ensures old(Safe()) ==> Safe()
      ensures fd == ClosedFd || len != FrameSize ==>
                r == Failed(Einval) && out == buf && unchanged(this)
      ensures fd != ClosedFd && len == FrameSize && !active ==>
                r == Failed(Eagain) && out == buf && unchanged(this)
      ensures fd != ClosedFd && len == FrameSize && active ==>
                && r == Done(FrameSize)
                && phase == old(phase).Next()
                && (old(phase) == HeightPhase ==>
                      && height == Tick(old(height), thresholdEnabled)
                      && foreAft == old(foreAft) && tilt == old(tilt)
                      && out == HeightStatusFrame(height, enums.heightDir))
                && (old(phase) == PosTiltPhase ==>
                      && foreAft == Tick(old(foreAft), thresholdEnabled)
                      && tilt == Tick(old(tilt), thresholdEnabled)
                      && height == old(height)
                      && out == PosTiltStatusFrame(foreAft, tilt, enums.posDir, enums.tiltDir))
    {
      if fd == ClosedFd || len != FrameSize {
        return Failed(Einval), buf;
      }
      if !active {
        return Failed(Eagain), buf;
      }
      match phase {
        case HeightPhase =>
          if Safe() { TickPreservesRange(height, thresholdEnabled); }
          height := AdvanceMotor(height, thresholdEnabled);
          out := HeightStatusFrame(height, enums.heightDir);
          phase := PosTiltPhase;
        case PosTiltPhase =>
          if Safe() { TickPreservesRange(foreAft, thresholdEnabled); }
          if Safe() { TickPreservesRange(tilt, thresholdEnabled); }
          foreAft := AdvanceMotor(foreAft, thresholdEnabled);
          tilt := AdvanceMotor(tilt, thresholdEnabled);
          out := PosTiltStatusFrame(foreAft, tilt, enums.posDir, enums.tiltDir);
          phase := HeightPhase;
      }
      r := Done(FrameSize);
    }

    /**
     * `sae_write_cb`: fails with EINVAL on a closed context or a buffer that is
     * not one frame, changing nothing. Otherwise a 0x707 frame commands the
     * fore/aft motor from slot 0 and the tilt motor from slot 2, a 0x705 frame
     * commands the height motor from slot 0, every other slot and frame id is
     * ignored, and the frame length is returned. `now` is the clock reading
     * stamped on a motor that starts moving.
     */
    method Write(buf: Frame, len: int, now: int) returns (r: IoResult)
      requires Valid()
      modifies this
      ensures Valid()
      ensures delay == old(delay) && thresholdEnabled == old(thresholdEnabled)
      ensures active == old(active) && fd == old(fd) && phase == old(phase)
      ensures old(Safe()) && delay >= -TickOverhead ==> Safe()
      ensures fd == ClosedFd || len != FrameSize ==> r == Failed(Einval) && unchanged(this)
      ensures fd != ClosedFd && len == FrameSize ==>
                && r == Done(len)
                && (buf.id == PosTiltCommandId ==>
                      && foreAft == ApplyCommand(old(foreAft), enums.posDir, SlotDirection(buf, 0), SlotSpeed(buf, 0),
                                                 Increment(fd, active, delay, SlotSpeed(buf, 0)), now)
                      && tilt == ApplyCommand(old(tilt), enums.tiltDir, SlotDirection(buf, 2), SlotSpeed(buf, 2),
                                              Increment(fd, active, delay, SlotSpeed(buf, 2)), now)
                      && height == old(height))
                && (buf.id == HeightCommandId ==>
                      && height == ApplyCommand(old(height), enums.heightDir, SlotDirection(buf, 0), SlotSpeed(buf, 0),
                                                Increment(fd, active, delay, SlotSpeed(buf, 0)), now)
                      && foreAft == old(foreAft) && tilt == old(tilt))
                && (buf.id != PosTiltCommandId && buf.id != HeightCommandId ==>
                      foreAft == old(foreAft) && tilt == old(tilt) && height == old(height))
    {
      if fd == ClosedFd || len != FrameSize {
        return Failed(Einval);
      }
      if buf.id == PosTiltCommandId {
        var rpm1 := SlotSpeed(buf, 0);
        var step1 := Increment(fd, active, delay, rpm1);
        if Safe() && delay >= -TickOverhead {
          CommandPreservesWellSigned(foreAft, enums.posDir, SlotDirection(buf, 0), rpm1, step1, now);
        }
        foreAft := CommandMotor(foreAft, enums.posDir, SlotDirection(buf, 0), rpm1, step1, now);
        var rpm3 := SlotSpeed(buf, 2);
        var step3 := Increment(fd, active, delay, rpm3);
        if Safe() && delay >= -TickOverhead {
          CommandPreservesWellSigned(tilt, enums.tiltDir, SlotDirection(buf, 2), rpm3, step3, now);
        }
        tilt := CommandMotor(tilt, enums.tiltDir, SlotDirection(buf, 2), rpm3, step3, now);
      }
      if buf.id == HeightCommandId {
        var rpm1 := SlotSpeed(buf, 0);
        var step1 := Increment(fd, active, delay, rpm1);
        if Safe() && delay >= -TickOverhead {
          CommandPreservesWellSigned(height, enums.heightDir, SlotDirection(buf, 0), rpm1, step1, now);
        }
        height := CommandMotor(height, enums.heightDir, SlotDirection(buf, 0), rpm1, step1, now);
      }
      r := Done(len);
    }
  }
}
