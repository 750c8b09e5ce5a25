/**
 * Angle to MIDI Control Change mapping of the Python host (src/serial_reader.py),
 * and the MIDI output port as a log of the messages sent through it.
 */
module Midi {
  import opened Numeric

  /** Controller numbers of the three orientation channels. */
  const PitchCc: int := 16
  const RollCc: int := 17
  const YawCc: int := 18

  /** Degrees from centre covered by the inner segment of the curve. */
  const MidRange: real := 30.0
  /** Share of the half-range the inner segment is stretched onto. */
  const MidRangeProportion: real := 0.8

  /** Status byte of a Control Change message on MIDI channel 1. */
  const ControlChangeStatus: int := 0xB0
  /** Largest CC value: data bytes are 7 bits wide. */
  const MaxCcValue: int := 127

  function Abs(x: real): real {
    if x < 0.0 then -x else x
  }

  /** Inner segment: [-MidRange, MidRange] onto [-MidRangeProportion, MidRangeProportion]. */
  function Inner(angle: real): real {
    (angle / MidRange) * MidRangeProportion
  }

  /** Outer segment: the rest of [MidRange, 180] onto [MidRangeProportion, 1], mirrored below zero. */
  function Outer(angle: real): real {
    var sign := if angle > 0.0 then 1.0 else -1.0;
    var remaining := Abs(angle) - MidRange;
    sign * (MidRangeProportion + (remaining / (180.0 - MidRange)) * (1.0 - MidRangeProportion))
  }

  /**
   * The piecewise-linear curve from degrees to [-1, 1], before scaling.
   * It keeps the sign of the angle and stays within the inner share while
   * the angle is within MidRange.
   */
  function Curve(angle: real): (m: real)
    ensures 0.0 < angle ==> 0.0 < m
    ensures angle < 0.0 ==> m < 0.0
    ensures angle == 0.0 ==> m == 0.0
    ensures Abs(angle) <= MidRange ==> Abs(m) <= MidRangeProportion
    ensures Abs(angle) <= 180.0 ==> Abs(m) <= 1.0
  {
    if Abs(angle) <= MidRange then Inner(angle) else Outer(angle)
  }

  /** The unclamped, unscaled argument of `int()` in the source. */
  function Scaled(angle: real): real {
    63.5 + Curve(angle) * 63.5
  }

  /**
   * The CC value for an angle in degrees: scaled by 63.5 around 63.5,
   * truncated toward zero by `int()` and clamped into [0, 127].
   */
  function MidiValue(angle: real): (v: int)
    ensures 0 <= v <= MaxCcValue
  {
    Clamp(Trunc(Scaled(angle)), 0, MaxCcValue)
  }

  /** The 3-byte Control Change message on channel 1. */
  function ControlChange(ccNumber: int, value: int): seq<int> {
    [ControlChangeStatus, ccNumber, value]
  }

  /** A well-formed Control Change message: status 0xB0 and two 7-bit data bytes. */
  predicate IsControlChange(msg: seq<int>) {
    |msg| == 3 && msg[0] == ControlChangeStatus
    && 0 <= msg[1] <= MaxCcValue && 0 <= msg[2] <= MaxCcValue
  }

  // ---------------------------------------------------------------------------
  // Properties of the mapping

  /** After the clamp, truncation toward zero and floor give the same value. */
  lemma MidiValueIsClampedFloor(angle: real)
    ensures MidiValue(angle) == Clamp(Scaled(angle).Floor, 0, MaxCcValue)
  {
    TruncVersusFloor(Scaled(angle));
  }

  /** The centre maps to 63, as the source's comment says. */
  lemma MidiValueAtCentre()
    ensures MidiValue(0.0) == 63
  {
    assert Scaled(0.0) == 63.5;
  }

  /** 90 degrees maps to 119, not to the top of the range. */
  lemma MidiValueAtNinety()
    ensures MidiValue(90.0) == 119 && MidiValue(-90.0) == 7
  {
    assert Curve(90.0) == 0.88;
    assert Scaled(90.0) == 119.38;
    assert Curve(-90.0) == -0.88;
    assert Scaled(-90.0) == 7.62;
  }

  /** Both segments give the inner share exactly at the seam, on both sides. */
  lemma SegmentsMeetAtSeam()
    ensures Inner(MidRange) == Outer(MidRange) == MidRangeProportion
    ensures Inner(-MidRange) == Outer(-MidRange) == -MidRangeProportion
  {
  }

  /** The curve is odd: mirrored angles give mirrored values. */
  lemma CurveIsOdd(angle: real)
    ensures Curve(-angle) == -Curve(angle)
  {
  }

  /**
   * The curve is Lipschitz with constant 0.8/30 (the slope of the inner
   * segment), so it is continuous everywhere, in particular at the seam.
   */
  lemma CurveLipschitz(a: real, b: real)
    ensures Abs(Curve(a) - Curve(b)) <= (MidRangeProportion / MidRange) * Abs(a - b)
  {
  }

  /** The curve is non-decreasing. */
  lemma CurveMonotone(a: real, b: real)
    requires a <= b
    ensures Curve(a) <= Curve(b)
  {
  }

  /** The CC value is non-decreasing in the angle. */
  lemma MidiValueMonotone(a: real, b: real)
    requires a <= b
    ensures MidiValue(a) <= MidiValue(b)
  {
    CurveMonotone(a, b);
    MidiValueIsClampedFloor(a);
    MidiValueIsClampedFloor(b);
    assert Scaled(a).Floor <= Scaled(b).Floor;
    ClampMonotone(Scaled(a).Floor, Scaled(b).Floor, 0, MaxCcValue);
  }

  /** Moving the angle by at most half a degree moves the CC value by at most one. */
  lemma MidiValueSmallStep(a: real, b: real)
    requires Abs(a - b) <= 0.5
    ensures -1 <= MidiValue(a) - MidiValue(b) <= 1
  {
    CurveLipschitz(a, b);
    MidiValueIsClampedFloor(a);
    MidiValueIsClampedFloor(b);
    var x, y := Scaled(a), Scaled(b);
    assert Abs(x - y) < 1.0;
    assert -1 <= x.Floor - y.Floor <= 1;
  }

  /** 180 degrees reaches 127 and -180 reaches 0; anything beyond saturates. */
  lemma MidiValueSaturates(angle: real)
    ensures 180.0 <= angle ==> MidiValue(angle) == MaxCcValue
    ensures angle <= -180.0 ==> MidiValue(angle) == 0
  {
    if 180.0 <= angle {
      assert Curve(angle) >= 1.0;
      assert Scaled(angle) >= 127.0;
    } else if angle <= -180.0 {
      assert Curve(angle) <= -1.0;
      assert Scaled(angle) <= 0.0;
    }
  }

  /**
   * Mirrored angles give values symmetric about 63.5 up to rounding: the two
   * values add up to 126 or 127 (exactly 127 when the scaled value is whole).
   */
  lemma MidiValueNearlySymmetric(angle: real)
    ensures 126 <= MidiValue(angle) + MidiValue(-angle) <= 127
  {
    CurveIsOdd(angle);
    MidiValueIsClampedFloor(angle);
    MidiValueIsClampedFloor(-angle);
    var x := Scaled(angle);
    assert Scaled(-angle) == 127.0 - x;
    var f, g := x.Floor, (127.0 - x).Floor;
    assert f as real <= x < f as real + 1.0;
    assert g as real <= 127.0 - x < g as real + 1.0;
    assert 126 <= f + g <= 127;
  }

  /** Mapping any angle onto a valid controller number yields a well-formed message. */
  lemma ControlChangeWellFormed(ccNumber: int, angle: real)
    requires 0 <= ccNumber <= MaxCcValue
    ensures IsControlChange(ControlChange(ccNumber, MidiValue(angle)))
  {
  }

  /** A MIDI output port, seen as the sequence of messages sent through it. */
  class MidiController {
    var sent: seq<seq<int>>

    constructor ()
      ensures sent == []
    {
      sent := [];
    }

    /** Maps `value` (degrees) and sends one Control Change for controller `ccNumber`. */
    method SendControllerChange(ccNumber: int, value: real)
      modifies this
      ensures sent == old(sent) + [ControlChange(ccNumber, MidiValue(value))]
    {
      var midiValue := MidiValue(value);
      sent := sent + [[ControlChangeStatus, ccNumber, midiValue]];
    }
  }
}
