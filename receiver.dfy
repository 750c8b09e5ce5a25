/**
 * The message handling of the ESP32 receiver (src/slave.cpp): a rate-gated
 * WebSocket handler feeding three two-slot ring buffers that share one
 * index, the DAC writes it makes, and the HTTP handlers that reassign or
 * pulse DAC channels.
 *
 * The functions describe each handler on an abstract state; the class
 * Esp32Receiver holds the globals (the buffers as arrays) and its methods
 * are proved against those functions.
 */
module Receiver {
  import opened Wrappers
  import opened Numeric
  import opened Dac

  /** Slots per ring buffer. */
  const BufferSize: int := 2
  /** Minimum spacing of processed messages, in milliseconds (50 Hz). */
  const UpdateInterval: int := 20
  /** `unsigned long` is 32 bits wide on the ESP32, so `millis()` wraps here. */
  const TimeModulus: int := 0x1_0000_0000

  type Millis = n: int | 0 <= n < 0x1_0000_0000

  /** `currentTime - lastUpdateTime` in unsigned 32-bit arithmetic. */
  function Elapsed(now: Millis, last: Millis): (d: int)
    ensures 0 <= d < TimeModulus
  {
    (now - last) % TimeModulus
  }

  /** The gate measures true elapsed time even across a wrap of the clock. */
  lemma ElapsedWrapSafe(last: Millis, d: int)
    requires 0 <= d < TimeModulus
    ensures Elapsed((last + d) % TimeModulus, last) == d
  {
    var now := (last + d) % TimeModulus;
    if last + d < TimeModulus {
      assert now == last + d;
    } else {
      assert now == last + d - TimeModulus;
      assert now - last == d - TimeModulus;
    }
  }

  /** `(bufferIndex + 1) % BUFFER_SIZE`. */
  function NextIndex(i: int): (j: int)
    requires 0 <= i < BufferSize
    ensures 0 <= j < BufferSize && j != i
  {
    (i + 1) % BufferSize
  }

  /** The parsed JSON document; a member is None when missing or not a number. */
  datatype JsonDoc = JsonDoc(yaw: Option<real>, pitch: Option<real>, roll: Option<real>)

  /** `float v = doc[key]`: a missing or non-numeric member reads as 0. */
  function Member(field: Option<real>): real {
    field.GetOr(0.0)
  }

  /** One `mcp.setChannelValue(channel, code)`; None where mapFloat's cast is undefined. */
  datatype DacWrite = DacWrite(channel: Channel, code: Option<int>)

  /** The receiver's globals. */
  datatype Rx = Rx(
    yawBuffer: seq<real>, pitchBuffer: seq<real>, rollBuffer: seq<real>, bufferIndex: int,
    currentYaw: real, currentPitch: real, currentRoll: real, lastUpdateTime: Millis,
    yawChannel: Channel, pitchChannel: Channel, rollChannel: Channel, dac: seq<DacWrite>)

  predicate WellFormed(s: Rx) {
    |s.yawBuffer| == BufferSize && |s.pitchBuffer| == BufferSize && |s.rollBuffer| == BufferSize
    && 0 <= s.bufferIndex < BufferSize
  }

  /** The mean of all slots, unfilled (zero) slots included. */
  function Average(buffer: seq<real>): real {
    Sum(buffer) / BufferSize as real
  }

  /** The three DAC writes for the current values under the current channel mapping. */
  function DacOutputs(s: Rx): seq<DacWrite> {
    [DacWrite(s.yawChannel, MapFloat(s.currentYaw, -YawRollLimit, YawRollLimit)),
     DacWrite(s.pitchChannel, MapFloat(s.currentPitch, -PitchLimit, PitchLimit)),
     DacWrite(s.rollChannel, MapFloat(s.currentRoll, -YawRollLimit, YawRollLimit))]
  }

  /** A parsed message: advance the shared index, overwrite that slot, average, drive the DAC. */
  function Accept(s: Rx, doc: JsonDoc): Rx
    requires WellFormed(s)
  {
    var i := NextIndex(s.bufferIndex);
    var yaw := s.yawBuffer[i := Member(doc.yaw)];
    var pitch := s.pitchBuffer[i := Member(doc.pitch)];
    var roll := s.rollBuffer[i := Member(doc.roll)];
    var t := s.(yawBuffer := yaw, pitchBuffer := pitch, rollBuffer := roll, bufferIndex := i,
                currentYaw := Average(yaw), currentPitch := Average(pitch), currentRoll := Average(roll));
    t.(dac := s.dac + DacOutputs(t))
  }

  /** The WStype_TEXT case of `webSocketEvent`; `payload` is None when deserialisation fails. */
  function TextStep(s: Rx, now: Millis, payload: Option<JsonDoc>): Rx
    requires WellFormed(s)
  {
    if Elapsed(now, s.lastUpdateTime) < UpdateInterval then s
    else
      match payload
      case None => s.(lastUpdateTime := now)
      case Some(doc) => Accept(s.(lastUpdateTime := now), doc)
  }

  const Zeros: seq<real> := [0.0, 0.0]

  /** The WStype_CONNECTED case: every slot of the three buffers becomes 0. */
  function ConnectStep(s: Rx): Rx {
    s.(yawBuffer := Zeros, pitchBuffer := Zeros, rollBuffer := Zeros)
  }

  datatype Event = Disconnected | Connected | Text(now: Millis, payload: Option<JsonDoc>) | OtherEvent

  /** `webSocketEvent`. */
  function EventStep(s: Rx, e: Event): Rx
    requires WellFormed(s)
  {
    match e
    case Connected => ConnectStep(s)
    case Text(now, payload) => TextStep(s, now, payload)
    case _ => s
  }

  /** A POST /config body; a member is None when missing or not an integer. */
  datatype ConfigBody = ConfigBody(yaw: Option<int>, pitch: Option<int>, roll: Option<int>)

  /** POST /config; `body` is None when the request is not a JSON object. */
  function ConfigStep(s: Rx, body: Option<ConfigBody>): Rx {
    match body
    case None => s
    case Some(b) => s.(yawChannel := ConfiguredChannel(b.yaw, s.yawChannel),
                       pitchChannel := ConfiguredChannel(b.pitch, s.pitchChannel),
                       rollChannel := ConfiguredChannel(b.roll, s.rollChannel))
  }

  /** GET /config: the channel number of each axis. */
  function ConfigReport(yaw: Channel, pitch: Channel, roll: Channel): ConfigBody {
    ConfigBody(Some(ChannelToNum(yaw)), Some(ChannelToNum(pitch)), Some(ChannelToNum(roll)))
  }

  /** The DAC writes that end `setup`: every channel at 0. */
  const SetupWrites: seq<DacWrite> :=
    [DacWrite(ChannelA, Some(0)), DacWrite(ChannelB, Some(0)), DacWrite(ChannelC, Some(0)), DacWrite(ChannelD, Some(0))]

  /** POST /test-channel; `param` is the `channel` parameter read as an integer, None when absent. */
  function TestChannelStep(s: Rx, param: Option<int>): Rx {
    match param
    case None => s
    case Some(n) => s.(dac := s.dac + [DacWrite(TestedChannel(n), Some(DacMax))] + DacOutputs(s))
  }

  // ---------------------------------------------------------------------------
  // Properties of the handlers

  /** A message inside the interval is dropped with no change at all. */
  lemma RateGateDropsMessage(s: Rx, now: Millis, payload: Option<JsonDoc>)
    requires WellFormed(s) && Elapsed(now, s.lastUpdateTime) < UpdateInterval
    ensures TextStep(s, now, payload) == s
  {
  }

  /** A message that fails to parse advances only the timer. */
  lemma BadMessageOnlyAdvancesTimer(s: Rx, now: Millis)
    requires WellFormed(s) && Elapsed(now, s.lastUpdateTime) >= UpdateInterval
    ensures TextStep(s, now, None) == s.(lastUpdateTime := now)
  {
  }

  /**
   * An accepted message advances the shared index by one slot and writes
   * that same slot in all three buffers, leaving the other slot alone; the
   * current values are the averages over all slots.
   */
  lemma AcceptWritesOneSlot(s: Rx, doc: JsonDoc)
    requires WellFormed(s)
    ensures var t := Accept(s, doc); var i := t.bufferIndex;
      && WellFormed(t) && i == (s.bufferIndex + 1) % BufferSize
      && t.yawBuffer[i] == Member(doc.yaw) && t.pitchBuffer[i] == Member(doc.pitch)
      && t.rollBuffer[i] == Member(doc.roll)
      && t.yawBuffer[s.bufferIndex] == s.yawBuffer[s.bufferIndex]
      && t.pitchBuffer[s.bufferIndex] == s.pitchBuffer[s.bufferIndex]
      && t.rollBuffer[s.bufferIndex] == s.rollBuffer[s.bufferIndex]
      && t.currentYaw == (t.yawBuffer[0] + t.yawBuffer[1]) / 2.0
      && t.currentPitch == (t.pitchBuffer[0] + t.pitchBuffer[1]) / 2.0
      && t.currentRoll == (t.rollBuffer[0] + t.rollBuffer[1]) / 2.0
  {
    var t := Accept(s, doc);
    SumOfTwo(t.yawBuffer);
    SumOfTwo(t.pitchBuffer);
    SumOfTwo(t.rollBuffer);
  }

  lemma SumOfTwo(b: seq<real>)
    requires |b| == 2
    ensures Sum(b) == b[0] + b[1]
  {
    assert b[..1][..0] == [];
    assert Sum(b[..1]) == b[0];
    assert b[..2] == b;
  }

  /** Every handler keeps the buffers at BUFFER_SIZE slots and the index in range. */
  lemma EventKeepsWellFormed(s: Rx, e: Event)
    requires WellFormed(s)
    ensures WellFormed(EventStep(s, e))
  {
  }

  /**
   * Two accepted messages in a row fill both slots: each current value is
   * then the mean of those two messages, whatever the buffers held before.
   */
  lemma TwoMessagesReplaceHistory(s: Rx, d1: JsonDoc, d2: JsonDoc)
    requires WellFormed(s)
    ensures var t := Accept(Accept(s, d1), d2);
      && t.currentYaw == (Member(d1.yaw) + Member(d2.yaw)) / 2.0
      && t.currentPitch == (Member(d1.pitch) + Member(d2.pitch)) / 2.0
      && t.currentRoll == (Member(d1.roll) + Member(d2.roll)) / 2.0
  {
    var t1 := Accept(s, d1);
    AcceptWritesOneSlot(s, d1);
    AcceptWritesOneSlot(t1, d2);
  }

  /** Zeroed slots count: the first message after a (re)connect is halved. */
  lemma FirstMessageAfterConnectIsHalved(s: Rx, doc: JsonDoc)
    requires WellFormed(s)
    ensures var t := Accept(ConnectStep(s), doc);
      && t.currentYaw == Member(doc.yaw) / 2.0
      && t.currentPitch == Member(doc.pitch) / 2.0
      && t.currentRoll == Member(doc.roll) / 2.0
  {
    AcceptWritesOneSlot(ConnectStep(s), doc);
  }

  /** Connecting clears the buffers and keeps the index and the current values. */
  lemma ConnectClearsOnlyBuffers(s: Rx)
    requires WellFormed(s)
    ensures var t := ConnectStep(s);
      && WellFormed(t) && t.bufferIndex == s.bufferIndex
      && t.currentYaw == s.currentYaw && t.currentPitch == s.currentPitch && t.currentRoll == s.currentRoll
      && forall i :: 0 <= i < BufferSize ==> t.yawBuffer[i] == 0.0 && t.pitchBuffer[i] == 0.0 && t.rollBuffer[i] == 0.0
  {
  }

  /** Axis values inside their ranges give defined DAC codes in [0, 4095]. */
  predicate InAxisRanges(yaw: real, pitch: real, roll: real) {
    -YawRollLimit <= yaw <= YawRollLimit && -PitchLimit <= pitch <= PitchLimit
    && -YawRollLimit <= roll <= YawRollLimit
  }

  /** Buffers and a message inside the axis ranges keep the three DAC codes defined and in [0, 4095]. */
  lemma AcceptDrivesDacInRange(s: Rx, doc: JsonDoc)
    requires WellFormed(s)
    requires AllWithin(s.yawBuffer, -YawRollLimit, YawRollLimit)
    requires AllWithin(s.pitchBuffer, -PitchLimit, PitchLimit)
    requires AllWithin(s.rollBuffer, -YawRollLimit, YawRollLimit)
    requires InAxisRanges(Member(doc.yaw), Member(doc.pitch), Member(doc.roll))
    ensures var t := Accept(s, doc);
      && |t.dac| == |s.dac| + 3 && t.dac[..|s.dac|] == s.dac
      && forall k :: |s.dac| <= k < |t.dac| ==> t.dac[k].code.Some? && 0 <= t.dac[k].code.value <= DacMax
  {
    var t := Accept(s, doc);
    AcceptWritesOneSlot(s, doc);
    assert t.dac[..|s.dac|] == s.dac;
    MapFloatInRange(t.currentYaw, -YawRollLimit, YawRollLimit);
    MapFloatInRange(t.currentPitch, -PitchLimit, PitchLimit);
    MapFloatInRange(t.currentRoll, -YawRollLimit, YawRollLimit);
  }

  /** A configuration change only reassigns channels; missing members keep theirs. */
  lemma ConfigChangesOnlyChannels(s: Rx, body: ConfigBody)
    ensures var t := ConfigStep(s, Some(body));
      && t == s.(yawChannel := t.yawChannel, pitchChannel := t.pitchChannel, rollChannel := t.rollChannel)
      && (body.yaw.None? ==> t.yawChannel == s.yawChannel)
      && (body.pitch.None? ==> t.pitchChannel == s.pitchChannel)
      && (body.roll.None? ==> t.rollChannel == s.rollChannel)
      && (body.yaw.Some? ==> ChannelToNum(t.yawChannel) == Clamp(body.yaw.value, 0, 3))
      && (body.pitch.Some? ==> ChannelToNum(t.pitchChannel) == Clamp(body.pitch.value, 0, 3))
      && (body.roll.Some? ==> ChannelToNum(t.rollChannel) == Clamp(body.roll.value, 0, 3))
  {
    ConfiguredChannelRules(body.yaw, s.yawChannel);
    ConfiguredChannelRules(body.pitch, s.pitchChannel);
    ConfiguredChannelRules(body.roll, s.rollChannel);
  }

  /** Posting back what GET /config reports changes nothing. */
  lemma ConfigReportRoundTrip(s: Rx)
    ensures ConfigStep(s, Some(ConfigReport(s.yawChannel, s.pitchChannel, s.rollChannel))) == s
  {
    ChannelNumbering(0, s.yawChannel);
    ChannelNumbering(0, s.pitchChannel);
    ChannelNumbering(0, s.rollChannel);
  }

  /** Duplicate assignments are accepted: all three axes may share channel A. */
  lemma DuplicateChannelsAccepted(s: Rx)
    ensures var t := ConfigStep(s, Some(ConfigBody(Some(0), Some(0), Some(0))));
      t.yawChannel == ChannelA && t.pitchChannel == ChannelA && t.rollChannel == ChannelA
  {
  }

  /**
   * /test-channel without the parameter changes nothing. With it, only the
   * DAC log changes: the earlier writes are kept, the tested channel gets
   * 4095, and then the three axes get their current codes back.
   */
  lemma TestChannelEffect(s: Rx, param: Option<int>)
    ensures param.None? ==> TestChannelStep(s, param) == s
    ensures param.Some? ==> var t := TestChannelStep(s, param);
      && t == s.(dac := t.dac)
      && |t.dac| == |s.dac| + 4 && t.dac[..|s.dac|] == s.dac
      && t.dac[|s.dac|] == DacWrite(TestedChannel(param.value), Some(DacMax))
      && t.dac[|s.dac| + 1..] == DacOutputs(s)
  {
    if param.Some? {
      var t := TestChannelStep(s, param);
      assert t.dac[..|s.dac|] == s.dac;
      assert t.dac[|s.dac| + 1..] == DacOutputs(s);
    }
  }

  /**
   * The restore writes only the three assigned channels, so testing a
   * channel no axis uses (D with the default mapping) leaves it at 4095.
   */
  lemma TestingUnassignedChannelLeavesItHigh(s: Rx, n: int)
    requires TestedChannel(n) != s.yawChannel && TestedChannel(n) != s.pitchChannel
    requires TestedChannel(n) != s.rollChannel
    ensures var t := TestChannelStep(s, Some(n));
      && t.dac[|s.dac|] == DacWrite(TestedChannel(n), Some(DacMax))
      && forall k :: |s.dac| < k < |t.dac| ==> t.dac[k].channel != TestedChannel(n)
  {
    TestChannelEffect(s, Some(n));
  }

  // ---------------------------------------------------------------------------
  // The globals as an object

  class Esp32Receiver {
    const yawBuffer: array<real>
    const pitchBuffer: array<real>
    const rollBuffer: array<real>
    var bufferIndex: int
    var currentYaw: real
    var currentPitch: real
    var currentRoll: real
    var lastUpdateTime: Millis
    var yawChannel: Channel
    var pitchChannel: Channel
    var rollChannel: Channel
    /** Every value written to the DAC, oldest first. */
    var dac: seq<DacWrite>

    ghost predicate Valid()
      reads this
    {
      && yawBuffer.Length == BufferSize && pitchBuffer.Length == BufferSize && rollBuffer.Length == BufferSize
      && yawBuffer != pitchBuffer && yawBuffer != rollBuffer && pitchBuffer != rollBuffer
      && 0 <= bufferIndex < BufferSize
    }

    ghost function State(): Rx
      reads this, yawBuffer, pitchBuffer, rollBuffer
    {
      Rx(yawBuffer[..], pitchBuffer[..], rollBuffer[..], bufferIndex,
         currentYaw, currentPitch, currentRoll, lastUpdateTime,
         yawChannel, pitchChannel, rollChannel, dac)
    }

    /**
     * The globals' initial values (zero buffers and values, yaw on A, pitch
     * on B, roll on C) and the end of `setup`, which writes 0 to all four
     * DAC channels.
     */
    constructor ()
      ensures Valid() && WellFormed(State())
      ensures fresh(yawBuffer) && fresh(pitchBuffer) && fresh(rollBuffer)
      ensures State() == Rx(Zeros, Zeros, Zeros, 0, 0.0, 0.0, 0.0, 0, ChannelA, ChannelB, ChannelC, SetupWrites)
    {
      yawBuffer := new real[BufferSize](_ => 0.0);
      pitchBuffer := new real[BufferSize](_ => 0.0);
      rollBuffer := new real[BufferSize](_ => 0.0);
      bufferIndex := 0;
      currentYaw, currentPitch, currentRoll := 0.0, 0.0, 0.0;
      lastUpdateTime := 0;
      yawChannel, pitchChannel, rollChannel := ChannelA, ChannelB, ChannelC;
      dac := [];
      dac := dac + [DacWrite(ChannelA, Some(0))];
      dac := dac + [DacWrite(ChannelB, Some(0))];
      dac := dac + [DacWrite(ChannelC, Some(0))];
      dac := dac + [DacWrite(ChannelD, Some(0))];
      new;
      assert yawBuffer[..] == Zeros && pitchBuffer[..] == Zeros && rollBuffer[..] == Zeros;
    }

    /** `smoothValue`: store `newValue` at `bufferIndex`, return the mean of all slots. */
    method SmoothValue(buffer: array<real>, newValue: real) returns (avg: real)
      requires buffer.Length == BufferSize && 0 <= bufferIndex < BufferSize
      modifies buffer
      ensures buffer[..] == old(buffer[..])[bufferIndex := newValue]
      ensures avg == Average(buffer[..])
    {
      buffer[bufferIndex] := newValue;
      var sum := 0.0;
      for i := 0 to BufferSize
        invariant sum == Sum(buffer[..i])
      {
        assert buffer[..i + 1][..i] == buffer[..i];
        sum := sum + buffer[i];
      }
      assert buffer[..BufferSize] == buffer[..];
      avg := sum / BufferSize as real;
    }

    /** The WStype_CONNECTED case: zero every slot of the three buffers. */
    method ClearBuffers()
      requires Valid()
      modifies yawBuffer, pitchBuffer, rollBuffer
      ensures State() == ConnectStep(old(State()))
    {
      for i := 0 to BufferSize
        invariant forall k :: 0 <= k < i ==> yawBuffer[k] == 0.0 && pitchBuffer[k] == 0.0 && rollBuffer[k] == 0.0
        invariant forall k :: i <= k < BufferSize ==>
          (yawBuffer[k] == old(yawBuffer[k]) && pitchBuffer[k] == old(pitchBuffer[k])
           && rollBuffer[k] == old(rollBuffer[k]))
      {
        yawBuffer[i] := 0.0;
        pitchBuffer[i] := 0.0;
        rollBuffer[i] := 0.0;
      }
      assert yawBuffer[..] == Zeros && pitchBuffer[..] == Zeros && rollBuffer[..] == Zeros;
    }

    /** The part of the WStype_TEXT case after a successful parse. */
    method AcceptMessage(doc: JsonDoc)
      requires Valid()
      modifies this, yawBuffer, pitchBuffer, rollBuffer
      ensures Valid()
      ensures State() == Accept(old(State()), doc)
    {
      ghost var t := Accept(State(), doc);
      var rawYaw, rawPitch, rawRoll := Member(doc.yaw), Member(doc.pitch), Member(doc.roll);
      bufferIndex := (bufferIndex + 1) % BufferSize;
      currentYaw := SmoothValue(yawBuffer, rawYaw);
      currentPitch := SmoothValue(pitchBuffer, rawPitch);
      currentRoll := SmoothValue(rollBuffer, rawRoll);
      assert yawBuffer[..] == t.yawBuffer && pitchBuffer[..] == t.pitchBuffer && rollBuffer[..] == t.rollBuffer;
      assert currentYaw == t.currentYaw && currentPitch == t.currentPitch && currentRoll == t.currentRoll;
      var yawValue := MapFloat(currentYaw, -YawRollLimit, YawRollLimit);
      var pitchValue := MapFloat(currentPitch, -PitchLimit, PitchLimit);
      var rollValue := MapFloat(currentRoll, -YawRollLimit, YawRollLimit);
      ghost var dac0 := dac;
      dac := dac + [DacWrite(yawChannel, yawValue)];
      dac := dac + [DacWrite(pitchChannel, pitchValue)];
      dac := dac + [DacWrite(rollChannel, rollValue)];
      assert dac == dac0 + DacOutputs(t);
    }

    /** The WStype_TEXT case of `webSocketEvent`, for a message arriving at `now`. */
    method HandleText(now: Millis, payload: Option<JsonDoc>)
      requires Valid()
      modifies this, yawBuffer, pitchBuffer, rollBuffer
      ensures Valid()
      ensures State() == TextStep(old(State()), now, payload)
    {
      if (now - lastUpdateTime) % TimeModulus < UpdateInterval {
        return;
      }
      lastUpdateTime := now;
      if payload.None? {
        return;
      }
      AcceptMessage(payload.value);
    }

    /** `webSocketEvent`. */
    method WebSocketEvent(e: Event)
      requires Valid()
      modifies this, yawBuffer, pitchBuffer, rollBuffer
      ensures Valid()
      ensures State() == EventStep(old(State()), e)
    {
      match e {
        case Disconnected =>
        case Connected => ClearBuffers();
        case Text(now, payload) => HandleText(now, payload);
        case OtherEvent =>
      }
    }

    /** POST /config; answers 200 for a JSON object and 400 otherwise. */
    method UpdateConfig(body: Option<ConfigBody>) returns (status: int)
      modifies this
      ensures status == (if body.Some? then 200 else 400)
      ensures State() == ConfigStep(old(State()), body)
      ensures unchanged(yawBuffer) && unchanged(pitchBuffer) && unchanged(rollBuffer)
    {
      if body.Some? {
        var b := body.value;
        var yawVal := Clamp(b.yaw.GetOr(ChannelToNum(yawChannel)), 0, 3);
        var pitchVal := Clamp(b.pitch.GetOr(ChannelToNum(pitchChannel)), 0, 3);
        var rollVal := Clamp(b.roll.GetOr(ChannelToNum(rollChannel)), 0, 3);
        yawChannel := NumToChannel(yawVal);
        pitchChannel := NumToChannel(pitchVal);
        rollChannel := NumToChannel(rollVal);
        status := 200;
      } else {
        status := 400;
      }
    }

    /** GET /config. */
    function ReportConfig(): (r: ConfigBody)
      reads this
      ensures r.yaw.Some? && r.pitch.Some? && r.roll.Some?
      ensures 0 <= r.yaw.value <= 3 && 0 <= r.pitch.value <= 3 && 0 <= r.roll.value <= 3
      ensures ConfiguredChannel(r.yaw, yawChannel) == yawChannel
      ensures ConfiguredChannel(r.pitch, pitchChannel) == pitchChannel
      ensures ConfiguredChannel(r.roll, rollChannel) == rollChannel
      ensures NumToChannel(r.yaw.value) == yawChannel && NumToChannel(r.pitch.value) == pitchChannel
      ensures NumToChannel(r.roll.value) == rollChannel
    {
      ChannelNumbering(0, yawChannel);
      ChannelNumbering(0, pitchChannel);
      ChannelNumbering(0, rollChannel);
      ConfigReport(yawChannel, pitchChannel, rollChannel)
    }

    /** POST /test-channel; answers 200 when the parameter is present and 400 otherwise. */
    method TestChannel(param: Option<int>) returns (status: int)
      modifies this
      ensures status == (if param.Some? then 200 else 400)
      ensures State() == TestChannelStep(old(State()), param)
      ensures unchanged(yawBuffer) && unchanged(pitchBuffer) && unchanged(rollBuffer)
    {
      if param.Some? {
        var channel := Clamp(param.value, 0, 3);
        var testChannel := NumToChannel(channel);
        var yawVal := MapFloat(currentYaw, -YawRollLimit, YawRollLimit);
        var pitchVal := MapFloat(currentPitch, -PitchLimit, PitchLimit);
        var rollVal := MapFloat(currentRoll, -YawRollLimit, YawRollLimit);
        dac := dac + [DacWrite(testChannel, Some(DacMax))];
        dac := dac + [DacWrite(yawChannel, yawVal)];
        dac := dac + [DacWrite(pitchChannel, pitchVal)];
        dac := dac + [DacWrite(rollChannel, rollVal)];
        status := 200;
      } else {
        status := 400;
      }
    }
  }
}
