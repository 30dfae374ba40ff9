# Seat adjuster ECU simulation engine, modelled in Dafny

This project models the CAN simulation engine of the seat service's test
harness (`seatadjuster_engine.c`). The engine stands in for a seat-adjustment
ECU that drives three motors: fore/aft ("pos"), tilt and height. A mocked CAN
socket calls two callbacks:

- the **write callback** decodes a command frame (0x707 for fore/aft and tilt,
  0x705 for height) into a direction and a speed per motor;
- the **read callback** advances one motor group per call by one tick. Height
  comes first, then fore/aft together with tilt, alternating. It then encodes
  that group's state into a status frame (0x712 or 0x714).

A motor's position is a percentage in fixed point with 10 fractional bits. Each
tick adds a step computed from the speed and the tick delay. A tick stops the
motor at the end of travel (0 % / 100 %). With thresholds enabled, it also stops
it once at 85 % (moving up) or 14 % (moving down); a latch keeps that stop from
firing again until the motor leaves the band.

Modules, leaf first:

- `Wrappers` (`wrappers.dfy`): `Option`.
- `PositionCodec` (`position_codec.dfy`): `Raw` and `Percent`, the shift by 10 bits.
- `MotionProfile` (`motion_profile.dfy`): the full-range time estimate, C's
  truncating division, and the per-tick step.
- `MotorState` (`motor_state.dfy`): one generic motor record for all three
  motors. It has the tick (`Tick`, specified as `Prepare` then `Move`) and the
  command (`ApplyCommand`). The methods `AdvanceMotor` and `CommandMotor` do the
  same step by step, as the C code does, and are proved equal to those functions.
- `CanFrames` (`can_frames.dfy`): frame layout, command slot decoding, status
  frame encoding, and what a receiver decodes from a status frame.
- `SeatAdjusterEngine` (`engine.dfy`): the class `SimContext`, i.e.
  `sae_context_t`. Its constructor is `sae_init`, and `Start`, `Close`, `Read`
  and `Write` are `sae_start`, `sae_close`, `sae_read_cb` and `sae_write_cb`.

These values come from a header that is not part of this model:

- the direction enumerations and `MotorLRN_OK`;
- `SAE_POS_INVALID`.

The model keeps them abstract and assumes the following:

- Each motor's OFF/INC/DEC codes are distinct values in 0..3 (`DirCodes.Valid`).
- `RecMotorTiltDirection_INC` and `RecMotorTiltDirection_DEC`, which the tilt
  branch of the write callback stores, equal `MotorTiltDirection_INC` and
  `MotorTiltDirection_DEC`.
- The uncalibrated position `SAE_POS_INVALID` is `None`. This assumes no raw
  position the engine computes ever equals that sentinel.
- `sizeof(struct can_frame)` is 16, as on Linux. Both callbacks accept only
  that length.

Some behaviours of the code are easy to misread, so they are noted here. The
model keeps each of them as the code has it:

- Both callbacks require the buffer length to be the C struct size (16), not
  the payload size (8).
- Speeds above 130 get a full-range time of 1000 ms
  (`seatadjuster_engine.c:232-234`). The comment on that line says 130 rpm
  takes 2000 ms, and the formula does give 2000 ms at 130, so the clamp is
  lower than the value at 130. Also, the estimate is not monotone over
  [0, 130]: it is 0 below 30 and 22000 at 30.
- A set threshold latch does not block motion. It only prevents the automatic
  stop from firing again (`HighLatchDoesNotBlock`).
- The write callback does not check the active flag. An inactive context with
  an open handle still accepts commands, with a step of 0.
- An end-of-travel or threshold stop sets only the direction to OFF. Speed,
  step and start time stay as they were. Only an OFF command clears them.
- Calibration to 42 % happens whenever a motor is ticked while uncalibrated.
  A read on an inactive context fails before any tick.

## Model

| member | source | states |
|---|---|---|
| `PositionCodec.Raw` | seat_service/src/lib/seat_adjuster/seat_controller/tests/cansim/seatadjuster_engine.c:99-101 | percent << 10 has no fractional part and is negative exactly when the percent is |
| `PositionCodec.Percent` | seat_service/src/lib/seat_adjuster/seat_controller/tests/cansim/seatadjuster_engine.c:109-111 | the arithmetic shift is floor division: p*1024 <= raw < p*1024 + 1024 |
| `PositionCodec.RoundTrip` | seat_service/src/lib/seat_adjuster/seat_controller/tests/cansim/seatadjuster_engine.c:99-111 | Percent(Raw(p)) == p for every integer p |
| `PositionCodec.PercentNegative` | seat_service/src/lib/seat_adjuster/seat_controller/tests/cansim/seatadjuster_engine.c:109-111 | a raw position gives a negative percent exactly when it is negative, which the DEC end-of-travel check relies on |
| `PositionCodec.PercentMonotone` | seat_service/src/lib/seat_adjuster/seat_controller/tests/cansim/seatadjuster_engine.c:109-111 | the percent never falls as the raw position rises |
| `PositionCodec.PercentWithin` | seat_service/src/lib/seat_adjuster/seat_controller/tests/cansim/seatadjuster_engine.c:109-111 | lo <= Percent(raw) <= hi exactly when Raw(lo) <= raw < Raw(hi+1) |
| `MotionProfile.MoveTime` | seat_service/src/lib/seat_adjuster/seat_controller/tests/cansim/seatadjuster_engine.c:228-238 | the estimate is 0 exactly for speeds below 30, and within [1000, 22000] ms for every speed of at least 30 |
| `MotionProfile.MoveTimeStrictlyDecreasing` | seat_service/src/lib/seat_adjuster/seat_controller/tests/cansim/seatadjuster_engine.c:228-238 | strictly decreasing on [30, 130] |
| `MotionProfile.MoveTimeNonIncreasing` | seat_service/src/lib/seat_adjuster/seat_controller/tests/cansim/seatadjuster_engine.c:228-238 | never increasing over all speeds of at least 30 |
| `MotionProfile.MoveTimeEndpoints` | seat_service/src/lib/seat_adjuster/seat_controller/tests/cansim/seatadjuster_engine.c:228-238 | 22000 ms at 30, 2000 ms at 130, 1000 ms for every speed above 130 |
| `MotionProfile.TruncDiv` | seat_service/src/lib/seat_adjuster/seat_controller/tests/cansim/seatadjuster_engine.c:254-257 | C division by a positive divisor: quotient has the dividend's sign and \|q\|*b <= \|a\| < \|q\|*b + b |
| `MotionProfile.NumeratorFits` | seat_service/src/lib/seat_adjuster/seat_controller/tests/cansim/seatadjuster_engine.c:254-257 | under the delay bound, 1024*100*(delay+10) fits in a 32-bit int |
| `MotionProfile.Increment` | seat_service/src/lib/seat_adjuster/seat_controller/tests/cansim/seatadjuster_engine.c:240-298 | step is 0 for a closed or inactive context and for speeds below 30; it has the sign of delay+10; otherwise it is 102400*(delay+10) / MoveTime(rpm) truncated toward zero |
| `MotionProfile.IncrementAtMost` | seat_service/src/lib/seat_adjuster/seat_controller/tests/cansim/seatadjuster_engine.c:240-258 | a step never exceeds 102400*\|delay+10\|/1000 raw units |
| `MotionProfile.DefaultDelayStep` | seat_service/src/lib/seat_adjuster/seat_controller/tests/cansim/seatadjuster_engine.c:146 | with the default 10 ms delay, every moving speed gives a step of 2048000/MoveTime(rpm), between 93 and 2048 |
| `MotorState.LookupCode` | seat_service/src/lib/seat_adjuster/seat_controller/tests/cansim/seatadjuster_engine.c:602-629 | distinct direction codes decode back to the direction they encode |
| `MotorState.Idle` | seat_service/src/lib/seat_adjuster/seat_controller/tests/cansim/seatadjuster_engine.c:131-166 | an initialised motor is stopped (OFF, rpm 0, step 0, no start time) with both latches clear |
| `MotorState.StartPosition` | seat_service/src/lib/seat_adjuster/seat_controller/tests/cansim/seatadjuster_engine.c:324-327 | a calibrated motor starts from its position; an uncalibrated one from a raw position of exactly 42 % |
| `MotorState.Prepare` | seat_service/src/lib/seat_adjuster/seat_controller/tests/cansim/seatadjuster_engine.c:324-340 | an invalid position becomes Raw(42); with thresholds, the lo latch survives iff percent <= 14 and the hi latch iff percent >= 85; without thresholds no latch changes; nothing else changes |
| `MotorState.Move` | seat_service/src/lib/seat_adjuster/seat_controller/tests/cansim/seatadjuster_engine.c:342-373 | OFF changes nothing; only position, direction and latches change; a motor still moving has taken its full step; INC (DEC) keeps moving iff the step stays within 100 % (0 %) and no armed 85 % (14 %) threshold is reached; a latch is only ever set, and only by the stop it records |
| `MotorState.Tick` | seat_service/src/lib/seat_adjuster/seat_controller/tests/cansim/seatadjuster_engine.c:321-373 | after a tick the motor is calibrated; learning, speed, step and start time are unchanged; a tick never starts motion; without thresholds no latch changes |
| `MotorState.AdvanceMotor` | seat_service/src/lib/seat_adjuster/seat_controller/tests/cansim/seatadjuster_engine.c:321-373 | the statement-by-statement tick equals Tick |
| `MotorState.CalibrateAndUnlatch` | seat_service/src/lib/seat_adjuster/seat_controller/tests/cansim/seatadjuster_engine.c:324-340 | the calibration and latch-release statements equal Prepare |
| `MotorState.StepMotor` | seat_service/src/lib/seat_adjuster/seat_controller/tests/cansim/seatadjuster_engine.c:342-373 | the move statements equal Move |
| `MotorState.TickOff` | seat_service/src/lib/seat_adjuster/seat_controller/tests/cansim/seatadjuster_engine.c:342-373 | an OFF tick only calibrates and releases latches (it equals Prepare), so it leaves the calibrated position and the direction unchanged |
| `MotorState.TickInc` | seat_service/src/lib/seat_adjuster/seat_controller/tests/cansim/seatadjuster_engine.c:348-354 | an INC tick stores pos+step iff its percent <= 100, otherwise stops in place; it ends OFF exactly when it overshoots or reaches an armed 85 % threshold, and INC otherwise; the lo latch is only released |
| `MotorState.TickDec` | seat_service/src/lib/seat_adjuster/seat_controller/tests/cansim/seatadjuster_engine.c:361-366 | a DEC tick stores pos+step iff its percent >= 0, otherwise stops in place; it ends OFF exactly when it overshoots or reaches an armed 14 % threshold, and DEC otherwise; the hi latch is only released |
| `MotorState.TickHighThreshold` | seat_service/src/lib/seat_adjuster/seat_controller/tests/cansim/seatadjuster_engine.c:355-360 | with the hi latch clear, an INC tick ending at >= 85 % stops and sets the latch, and one that takes its step and ends below 85 % keeps INC with the latch clear; the latch is set after the tick iff it was still set or the end percent is >= 85 |
| `MotorState.TickLowThreshold` | seat_service/src/lib/seat_adjuster/seat_controller/tests/cansim/seatadjuster_engine.c:367-372 | with the lo latch clear, a DEC tick ending at <= 14 % stops and sets the latch, and one that takes its step and ends above 14 % keeps DEC with the latch clear; the latch is set after iff it was still set or the end percent is <= 14 |
| `MotorState.HighLatchDoesNotBlock` | seat_service/src/lib/seat_adjuster/seat_controller/tests/cansim/seatadjuster_engine.c:336-360 | while the hi latch is set in the band, INC motion continues to the end of travel without a second stop |
| `MotorState.LowLatchDoesNotBlock` | seat_service/src/lib/seat_adjuster/seat_controller/tests/cansim/seatadjuster_engine.c:332-372 | while the lo latch is set in the band, DEC motion continues without a second stop |
| `MotorState.TickPreservesRange` | seat_service/src/lib/seat_adjuster/seat_controller/tests/cansim/seatadjuster_engine.c:324-373 | a well-signed motor within [0, 100] % stays within [0, 100] % and well-signed after a tick |
| `MotorState.TickMonotone` | seat_service/src/lib/seat_adjuster/seat_controller/tests/cansim/seatadjuster_engine.c:342-373 | INC ticks never lower and DEC ticks never raise a well-signed motor's position |
| `MotorState.Ticks` | seat_service/src/lib/seat_adjuster/seat_controller/tests/cansim/seatadjuster_engine.c:321-373 | after one or more ticks the motor is calibrated; learning, speed, step and start time never change; a stopped motor stays stopped |
| `MotorState.TicksPreserveRange` | seat_service/src/lib/seat_adjuster/seat_controller/tests/cansim/seatadjuster_engine.c:321-556 | any number of ticks keeps a well-signed motor within [0, 100] % |
| `MotorState.TicksWhileOff` | seat_service/src/lib/seat_adjuster/seat_controller/tests/cansim/seatadjuster_engine.c:342-373 | a stopped calibrated motor stays stopped at its position under any number of ticks |
| `MotorState.ApplyCommand` | seat_service/src/lib/seat_adjuster/seat_controller/tests/cansim/seatadjuster_engine.c:600-631 | a command never changes position, learning state or latches |
| `MotorState.CommandMotor` | seat_service/src/lib/seat_adjuster/seat_controller/tests/cansim/seatadjuster_engine.c:600-631 | the store-speed-then-test-OFF/INC/DEC statements equal ApplyCommand |
| `MotorState.CommandOff` | seat_service/src/lib/seat_adjuster/seat_controller/tests/cansim/seatadjuster_engine.c:602-607 | OFF sets direction OFF, rpm 0, step 0, no start time, and repeating it changes nothing |
| `MotorState.CommandStart` | seat_service/src/lib/seat_adjuster/seat_controller/tests/cansim/seatadjuster_engine.c:608-628 | INC/DEC with a non-zero speed sets that direction, the speed, +step or -step, and start time now |
| `MotorState.CommandIgnored` | seat_service/src/lib/seat_adjuster/seat_controller/tests/cansim/seatadjuster_engine.c:629-631 | any other code/speed combination only overwrites the speed |
| `MotorState.CommandPreservesWellSigned` | seat_service/src/lib/seat_adjuster/seat_controller/tests/cansim/seatadjuster_engine.c:600-631 | with a non-negative step, a command keeps the motor well-signed and in range |
| `CanFrames.ToByte` | seat_service/src/lib/seat_adjuster/seat_controller/tests/cansim/seatadjuster_engine.c:386 | storing an int in a data byte keeps it modulo 256, unchanged for 0..255 |
| `CanFrames.SlotDirection` | seat_service/src/lib/seat_adjuster/seat_controller/tests/cansim/seatadjuster_engine.c:587-590 | a slot's direction code is a 2-bit value |
| `CanFrames.CommandSlotsOfPacked` | seat_service/src/lib/seat_adjuster/seat_controller/tests/cansim/seatadjuster_engine.c:587-595 | decoding slot k of a frame whose byte 0 packs four 2-bit codes yields the k-th code, and its speed is byte k+1 |
| `CanFrames.DirLearnByte` | seat_service/src/lib/seat_adjuster/seat_controller/tests/cansim/seatadjuster_engine.c:383-384 | bits 0-1 carry the direction code mod 4 and bits 2-3 the learning state mod 4 |
| `CanFrames.StatusByte` | seat_service/src/lib/seat_adjuster/seat_controller/tests/cansim/seatadjuster_engine.c:383-384 | bits 0-1 carry the motor's direction code mod 4 and bits 2-3 its learning state mod 4 |
| `CanFrames.PercentByte` | seat_service/src/lib/seat_adjuster/seat_controller/tests/cansim/seatadjuster_engine.c:375-386 | the byte is the percent modulo 256, the percent itself for a motor in range |
| `CanFrames.HeightStatusFrame` | seat_service/src/lib/seat_adjuster/seat_controller/tests/cansim/seatadjuster_engine.c:375-386 | id 0x712, dlc 8; byte 0 is the motor's direction/learning byte and byte 2 its percent byte (modulo 256, for any position); all other bytes are zero |
| `CanFrames.PosTiltStatusFrame` | seat_service/src/lib/seat_adjuster/seat_controller/tests/cansim/seatadjuster_engine.c:514-532 | id 0x714, dlc 8; bytes 0 and 1 are the fore/aft and tilt direction/learning bytes, bytes 2 and 4 their percent bytes (modulo 256, for any position); all other bytes are zero |
| `CanFrames.HeightStatusDecodes` | seat_service/src/lib/seat_adjuster/seat_controller/tests/cansim/seatadjuster_engine.c:375-386 | a receiver recovers the height motor's direction, learning state mod 4 and, in range, its percent |
| `CanFrames.PosTiltStatusDecodes` | seat_service/src/lib/seat_adjuster/seat_controller/tests/cansim/seatadjuster_engine.c:514-532 | a receiver recovers direction, learning state and percent of both the fore/aft and the tilt motor |
| `CanFrames.CalibrationReported` | seat_service/src/lib/seat_adjuster/seat_controller/tests/cansim/seatadjuster_engine.c:324-386 | an uncalibrated, stopped motor's first status frame reports 42 |
| `SeatAdjusterEngine.Phase.Next` | seat_service/src/lib/seat_adjuster/seat_controller/tests/cansim/seatadjuster_engine.c:403 | the next phase differs from the current one |
| `SeatAdjusterEngine.PhaseAlternates` | seat_service/src/lib/seat_adjuster/seat_controller/tests/cansim/seatadjuster_engine.c:403-553 | the phase always changes, and two successful reads restore it |
| `SeatAdjusterEngine.InitialPosition` | seat_service/src/lib/seat_adjuster/seat_controller/tests/cansim/seatadjuster_engine.c:180-191 | an override of -1 or 255 leaves motors uncalibrated; any other override starts them at exactly that percent with no fractional part, i.e. at Raw(percent) |
| `SeatAdjusterEngine.SimContext.constructor` | seat_service/src/lib/seat_adjuster/seat_controller/tests/cansim/seatadjuster_engine.c:124-200 | closed, inactive, height phase first, delay 10 and thresholds on unless overridden, three idle motors at the override position and learning state |
| `SeatAdjusterEngine.SimContext.Start` | seat_service/src/lib/seat_adjuster/seat_controller/tests/cansim/seatadjuster_engine.c:213-218 | sets the handle and the active flag, nothing else |
| `SeatAdjusterEngine.SimContext.Close` | seat_service/src/lib/seat_adjuster/seat_controller/tests/cansim/seatadjuster_engine.c:220-226 | closes the handle and clears the active flag, nothing else |
| `SeatAdjusterEngine.SimContext.Read` | seat_service/src/lib/seat_adjuster/seat_controller/tests/cansim/seatadjuster_engine.c:301-560 | EINVAL (closed or wrong length) and EAGAIN (inactive) change nothing; otherwise the current phase's motors are ticked, their status frame is returned, 16 is returned and the phase flips; a safe context stays safe |
| `SeatAdjusterEngine.SimContext.Write` | seat_service/src/lib/seat_adjuster/seat_controller/tests/cansim/seatadjuster_engine.c:563-715 | EINVAL changes nothing; 0x707 commands fore/aft from slot 0 and tilt from slot 2, 0x705 height from slot 0, everything else is ignored; the length is returned; with delay >= -10 a safe context stays safe |

## Left out

- Environment-variable reading (`getenv`, `atoi`) in `sae_init`. The overrides are given to the constructor as `Config` integers.
- The debug, verbose and all-motors flags, every log line, hex dump and enum-to-string helper, `sae_pos_fp` (floating point, logging only), and the `_oldpos` fields. They only suppress duplicate log lines and do not affect behaviour.
- `usleep` latency and the clock `get_ts`. The clock reading is the `now` parameter of `Write`.
- errno as a global. Results are the `IoResult` datatype.
- The null checks on the context and the buffer pointers, because a Dafny object and a frame value cannot be null.
- The layout of `struct can_frame` beyond id, dlc and the 8 data bytes.
- The unreachable `return 0` for a phase other than 1 or 2, because the phase is a two-valued datatype.
- Concurrency: calls on one context are assumed serialized, and the missing wait in `sae_close` is not modelled.
- C `int` overflow. The delay is bounded so the step numerator fits in 32 bits, and an initial percent override is bounded so that shifting it by 10 bits fits. The addition `pos + inc` is unbounded in the model.
- The `*_INV` direction codes. The engine never stores them, and a command with that code falls into the ignored case.
