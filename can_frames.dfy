/**
 * The CAN frames the engine exchanges: command frames it decodes on write
 * and status frames it encodes on read.
 */
module CanFrames {
  import opened Wrappers
  import opened PositionCodec
  import opened MotorState

  type byte = x: int | 0 <= x < 256

  /** The eight data bytes of a classic CAN frame. */
  type Payload = s: seq<byte> | |s| == 8 witness [0, 0, 0, 0, 0, 0, 0, 0]

  /** The fields of `struct can_frame` the engine reads or writes. */
  datatype Frame = Frame(id: int, dlc: int, data: Payload)

  /** sizeof(struct can_frame) on Linux: 4-byte id, dlc, 3 reserved bytes, 8 data bytes. */
  const FrameSize: int := 16

  /** Command frame for the fore/aft and tilt motors (CAN_SECU2_CMD_1). */
  const PosTiltCommandId: int := 0x707
  /** Command frame for the height motor (CAN_SECU1_CMD_1). */
  const HeightCommandId: int := 0x705
  /** Status frame of the height motor (CAN_SECU1_STAT). */
  const HeightStatusId: int := 0x712
  /** Status frame of the fore/aft and tilt motors (CAN_SECU2_STAT). */
  const PosTiltStatusId: int := 0x714

  /** Assignment of an int to an unsigned char: the value modulo 256. */
  function ToByte(x: int): (b: byte)
    ensures 0 <= x < 256 ==> b == x
    ensures (x - b) % 256 == 0
  {
    x % 256
  }

  // ------------------------------------------------------ command frames

  /** Weight of command slot k (0..3) in byte 0: slot k occupies bits 2k and 2k+1. */
  function SlotWeight(slot: nat): (w: int)
    requires slot < 4
  {
    if slot == 0 then 1 else if slot == 1 then 4 else if slot == 2 then 16 else 64
  }

  /** `(data[0] >> 2k) & 3`: the 2-bit direction code of command slot k. */
  function SlotDirection(f: Frame, slot: nat): (c: int)
    requires slot < 4
    ensures 0 <= c < 4
  {
    f.data[0] / SlotWeight(slot) % 4
  }

  /** `data[k + 1]`: the speed byte of command slot k. */
  function SlotSpeed(f: Frame, slot: nat): (rpm: byte)
    requires slot < 4
  {
    f.data[slot + 1]
  }

  /** Byte 0 of a command frame carrying the four 2-bit codes c0..c3. */
  function PackDirections(c0: int, c1: int, c2: int, c3: int): (b: byte)
    requires 0 <= c0 < 4 && 0 <= c1 < 4 && 0 <= c2 < 4 && 0 <= c3 < 4
  {
    c0 + 4 * c1 + 16 * c2 + 64 * c3
  }

  /**
   * Decoding a command frame whose byte 0 packs four direction codes and
   * whose bytes 1-4 carry four speeds gives back each slot's code and speed.
   */
  lemma CommandSlotsOfPacked(c0: int, c1: int, c2: int, c3: int, rest: seq<byte>, id: int, dlc: int)
    requires 0 <= c0 < 4 && 0 <= c1 < 4 && 0 <= c2 < 4 && 0 <= c3 < 4
    requires |rest| == 7
    ensures var f := Frame(id, dlc, [PackDirections(c0, c1, c2, c3)] + rest);
            && SlotDirection(f, 0) == c0 && SlotDirection(f, 1) == c1
            && SlotDirection(f, 2) == c2 && SlotDirection(f, 3) == c3
            && forall k :: 0 <= k < 4 ==> SlotSpeed(f, k) == rest[k]
  {
    var b := c0 + 4 * c1 + 16 * c2 + 64 * c3;
    assert b / 4 == c1 + 4 * c2 + 16 * c3;
    assert b / 16 == c2 + 4 * c3;
    assert b / 64 == c3;
  }

  // ------------------------------------------------------- status frames

  /** `(dir & 3) | ((lrn & 3) << 2)`: direction code in bits 0-1, learning state in bits 2-3. */
  function DirLearnByte(dirCode: int, learning: int): (b: byte)
    ensures b % 4 == dirCode % 4 && b / 4 == learning % 4
  {
    dirCode % 4 + 4 * (learning % 4)
  }

  /** The direction/learning byte of a motor. */
  function StatusByte(m: Motor, codes: DirCodes): (b: byte)
    ensures b % 4 == codes.Code(m.dir) % 4 && b / 4 == m.learning % 4
  {
    DirLearnByte(codes.Code(m.dir), m.learning)
  }

  /** The percent byte of a calibrated motor, fractional part dropped. */
  function PercentByte(m: Motor): (b: byte)
    requires m.position.Some?
    ensures InRange(m) ==> b == Percent(m.position.value)
    ensures (Percent(m.position.value) - b) % 256 == 0
  {
    ToByte(Percent(m.position.value))
  }

  /** The 0x712 frame reporting the height motor. */
  function HeightStatusFrame(height: Motor, codes: DirCodes): (f: Frame)
    requires height.position.Some?
    ensures f.id == HeightStatusId && f.dlc == 8
    ensures f.data[0] == StatusByte(height, codes) && f.data[2] == PercentByte(height)
    ensures forall i | 0 <= i < 8 && i != 0 && i != 2 :: f.data[i] == 0
  {
    Frame(HeightStatusId, 8, [StatusByte(height, codes), 0, PercentByte(height), 0, 0, 0, 0, 0])
  }

  /** The 0x714 frame reporting the fore/aft and tilt motors. */
  function PosTiltStatusFrame(foreAft: Motor, tilt: Motor, posCodes: DirCodes, tiltCodes: DirCodes): (f: Frame)
    requires foreAft.position.Some? && tilt.position.Some?
    ensures f.id == PosTiltStatusId && f.dlc == 8
    ensures f.data[0] == StatusByte(foreAft, posCodes) && f.data[1] == StatusByte(tilt, tiltCodes)
    ensures f.data[2] == PercentByte(foreAft) && f.data[4] == PercentByte(tilt)
    ensures forall i | 0 <= i < 8 && i != 0 && i != 1 && i != 2 && i != 4 :: f.data[i] == 0
  {
    Frame(PosTiltStatusId, 8,
          [StatusByte(foreAft, posCodes), StatusByte(tilt, tiltCodes), PercentByte(foreAft), 0,
           PercentByte(tilt), 0, 0, 0])
  }

  /** What a receiver reads back from a direction/learning byte. */
  function DecodeStatusByte(b: byte, codes: DirCodes): (d: (Option<Direction>, int)) {
    (codes.Lookup(b % 4), b / 4)
  }

  /**
   * A receiver of the height status frame recovers the motor's direction,
   * its learning state modulo 4 and, for a motor in range, its percent.
   */
  lemma HeightStatusDecodes(height: Motor, codes: DirCodes)
    requires codes.Valid() && height.position.Some? && InRange(height)
    ensures var f := HeightStatusFrame(height, codes);
            && DecodeStatusByte(f.data[0], codes) == (Some(height.dir), height.learning % 4)
            && f.data[2] == Percent(height.position.value)
  {
    LookupCode(codes, height.dir);
  }

  /** The same for both motors of the fore/aft and tilt status frame. */
  lemma PosTiltStatusDecodes(foreAft: Motor, tilt: Motor, posCodes: DirCodes, tiltCodes: DirCodes)
    requires posCodes.Valid() && tiltCodes.Valid()
    requires foreAft.position.Some? && tilt.position.Some? && InRange(foreAft) && InRange(tilt)
    ensures var f := PosTiltStatusFrame(foreAft, tilt, posCodes, tiltCodes);
            && DecodeStatusByte(f.data[0], posCodes) == (Some(foreAft.dir), foreAft.learning % 4)
            && DecodeStatusByte(f.data[1], tiltCodes) == (Some(tilt.dir), tilt.learning % 4)
            && f.data[2] == Percent(foreAft.position.value)
            && f.data[4] == Percent(tilt.position.value)
  {
    LookupCode(posCodes, foreAft.dir);
    LookupCode(tiltCodes, tilt.dir);
  }

  /** A motor first ticked while uncalibrated and stopped reports 42 percent. */
  lemma CalibrationReported(height: Motor, codes: DirCodes, thresholds: bool)
    requires height.position.None? && height.dir == Off
    ensures HeightStatusFrame(Tick(height, thresholds), codes).data[2] == CalibrationPercent
  {
    TickOff(height, thresholds);
    RoundTrip(CalibrationPercent);
  }
}
