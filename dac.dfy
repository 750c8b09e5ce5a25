/**
 * Pure parts of the ESP32 receiver (src/slave.cpp): scaling an angle to the
 * 12-bit range of the MCP4728 DAC, the DAC channel numbering, and the
 * clamp-and-default rules of the channel configuration endpoints.
 */
module Dac {
  import opened Wrappers
  import opened Numeric

  /** Largest 12-bit DAC code. */
  const DacMax: int := 4095
  /** Input ranges: yaw and roll span ±180 degrees, pitch ±90. */
  const YawRollLimit: real := 180.0
  const PitchLimit: real := 90.0

  /**
   * C++ conversion of a float to `uint16_t`: truncation toward zero when the
   * truncated value fits in 16 bits; None where the conversion is undefined
   * behaviour (including the infinities and NaN of a division by zero).
   */
  function CastToU16(v: real): (r: Option<int>)
    ensures r.Some? <==> 0 <= Trunc(v) < 0x1_0000
    ensures r.Some? ==> r.value == Trunc(v)
  {
    if -1.0 < v < 65536.0 then Some(Trunc(v)) else None
  }

  /** `mapFloat(x, in_min, in_max)`: linear scaling of [in_min, in_max] onto [0, 4095]. */
  function MapFloat(x: real, inMin: real, inMax: real): Option<int>
  {
    if inMax == inMin then None
    else CastToU16(((x - inMin) * DacMax as real) / (inMax - inMin))
  }

  /** Dividing by a positive number keeps order. */
  lemma DivideKeepsOrder(a: real, b: real, d: real)
    requires 0.0 < d && a <= b
    ensures a / d <= b / d
  {
    var q := (b - a) / d;
    assert q * d == b - a;
    assert b / d - a / d == q;
  }

  /** Multiplying by d and then dividing by d gives the number back. */
  lemma MultiplyThenDivide(c: real, d: real)
    requires d != 0.0
    ensures (c * d) / d == c
  {
    var v := (c * d) / d;
    assert v * d == c * d;
    assert (v - c) * d == 0.0;
  }

  /** The scaled value before the cast, as a fraction of the full scale. */
  lemma ScaledFraction(x: real, inMin: real, inMax: real)
    requires inMin < inMax && inMin <= x <= inMax
    ensures 0.0 <= ((x - inMin) * DacMax as real) / (inMax - inMin) <= DacMax as real
  {
    var d := inMax - inMin;
    var a := (x - inMin) * DacMax as real;
    DivideKeepsOrder(0.0, a, d);
    assert a <= d * DacMax as real;
    DivideKeepsOrder(a, d * DacMax as real, d);
    MultiplyThenDivide(DacMax as real, d);
    assert d * DacMax as real == DacMax as real * d;
  }

  /** Inside its input range mapFloat is defined, lands in [0, 4095] and hits both ends. */
  lemma MapFloatInRange(x: real, inMin: real, inMax: real)
    requires inMin < inMax && inMin <= x <= inMax
    ensures MapFloat(x, inMin, inMax).Some?
    ensures 0 <= MapFloat(x, inMin, inMax).value <= DacMax
    ensures x == inMin ==> MapFloat(x, inMin, inMax) == Some(0)
    ensures x == inMax ==> MapFloat(x, inMin, inMax) == Some(DacMax)
  {
    ScaledFraction(x, inMin, inMax);
    var d := inMax - inMin;
    if x == inMin {
      assert (x - inMin) * DacMax as real == 0.0;
      assert 0.0 / d == 0.0;
      assert Trunc(0.0) == 0;
    }
    if x == inMax {
      assert (x - inMin) * DacMax as real == DacMax as real * d;
      MultiplyThenDivide(DacMax as real, d);
    }
  }

  /** Inside its input range mapFloat is non-decreasing. */
  lemma MapFloatMonotone(a: real, b: real, inMin: real, inMax: real)
    requires inMin < inMax && inMin <= a <= b <= inMax
    ensures MapFloat(a, inMin, inMax).Some? && MapFloat(b, inMin, inMax).Some?
    ensures MapFloat(a, inMin, inMax).value <= MapFloat(b, inMin, inMax).value
  {
    MapFloatInRange(a, inMin, inMax);
    MapFloatInRange(b, inMin, inMax);
    DivideKeepsOrder((a - inMin) * DacMax as real, (b - inMin) * DacMax as real, inMax - inMin);
  }

  /**
   * Outside its input range the cast is still defined as long as the scaled
   * value fits in 16 bits, and then the code leaves [0, 4095]: 200 degrees
   * on the yaw scale gives 4322. The cast is undefined only for much larger
   * angles, or for angles at or below in_min minus 1/4095 of the span.
   */
  lemma MapFloatBeyondRange()
    ensures MapFloat(200.0, -YawRollLimit, YawRollLimit) == Some(4322)
    ensures MapFloat(-181.0, -YawRollLimit, YawRollLimit) == None
  {
  }

  /** The centre of each axis maps to mid-scale 2047. */
  lemma MapFloatCentre()
    ensures MapFloat(0.0, -YawRollLimit, YawRollLimit) == Some(2047)
    ensures MapFloat(0.0, -PitchLimit, PitchLimit) == Some(2047)
  {
  }

  // ---------------------------------------------------------------------------
  // DAC channels

  /** The four outputs of the MCP4728. */
  datatype Channel = ChannelA | ChannelB | ChannelC | ChannelD

  /** `numToChannel`: 0..3 name A..D; every other number falls back to A. */
  function NumToChannel(n: int): Channel
  {
    if n == 1 then ChannelB
    else if n == 2 then ChannelC
    else if n == 3 then ChannelD
    else ChannelA
  }

  /** `channelToNum`. */
  function ChannelToNum(c: Channel): (n: int)
    ensures 0 <= n <= 3
  {
    match c
    case ChannelA => 0
    case ChannelB => 1
    case ChannelC => 2
    case ChannelD => 3
  }

  /** The two conversions are inverse on 0..3, and out-of-range numbers give A. */
  lemma ChannelNumbering(n: int, c: Channel)
    ensures NumToChannel(ChannelToNum(c)) == c
    ensures 0 <= n <= 3 ==> ChannelToNum(NumToChannel(n)) == n
    ensures (n < 0 || 3 < n) ==> NumToChannel(n) == ChannelA
  {
  }

  /**
   * One channel of a POST /config body: `data[key] | channelToNum(current)`
   * then `constrain(…, 0, 3)`. `field` is None when the member is missing or
   * not an integer.
   */
  function ConfiguredChannel(field: Option<int>, current: Channel): Channel
  {
    NumToChannel(Clamp(field.GetOr(ChannelToNum(current)), 0, 3))
  }

  /** A missing member keeps the channel; a supplied number is clamped to 0..3. */
  lemma ConfiguredChannelRules(field: Option<int>, current: Channel)
    ensures field.None? ==> ConfiguredChannel(field, current) == current
    ensures field.Some? ==> ChannelToNum(ConfiguredChannel(field, current)) == Clamp(field.value, 0, 3)
  {
    ChannelNumbering(Clamp(field.GetOr(ChannelToNum(current)), 0, 3), current);
  }

  /** The channel `/test-channel` pulses for a parameter value n. */
  function TestedChannel(n: int): Channel
  {
    NumToChannel(Clamp(n, 0, 3))
  }

  /** Numbers below 0 test channel A and numbers above 3 test channel D. */
  lemma TestedChannelClamps(n: int)
    ensures n <= 0 ==> TestedChannel(n) == ChannelA
    ensures 3 <= n ==> TestedChannel(n) == ChannelD
    ensures 0 <= n <= 3 ==> ChannelToNum(TestedChannel(n)) == n
  {
  }
}
