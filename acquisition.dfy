/**
 * The acquisition step of the Python host: one line from the serial port is
 * rate-gated (GUI loop only), parsed into yaw, pitch and roll, roll and yaw
 * are smoothed, pitch is passed through, and the three channels are sent as
 * Control Change messages in the order pitch, roll, yaw.
 *
 * The pure functions describe one step on an abstract state; the classes
 * SensorGui (`SensorGUI.read_data_loop`) and ConsoleReader (the loop of
 * `read_serial_data`) carry out the same step on objects and are proved
 * against those functions.
 */
module Acquisition {
  import opened Wrappers
  import opened Numeric
  import opened Midi
  import opened Smoothing
  import opened SampleParser

  /** Minimum time between processed lines, in seconds (50 Hz). */
  const TargetInterval: real := 0.02

  /** The smoothing windows and the messages sent so far. */
  datatype Pipeline = Pipeline(rollWindow: seq<real>, yawWindow: seq<real>, sent: seq<seq<int>>)

  /** The GUI loop's state: the pipeline, the rate gate and the displayed angles. */
  datatype GuiState = GuiState(pipeline: Pipeline, lastProcessTime: real, pitch: real, roll: real, yaw: real)

  /** The values handed to the display for one accepted sample. */
  datatype Readout = Readout(pitch: real, roll: real, yaw: real, ccPitch: int, ccRoll: int, ccYaw: int)

  const EmptyPipeline: Pipeline := Pipeline([], [], [])

  /** Smooth roll and yaw of a parsed sample, then send pitch, roll and yaw. */
  function Process(p: Pipeline, sample: Sample): (q: Pipeline)
    ensures |q.rollWindow| > 0 && |q.yawWindow| > 0
  {
    var rollWindow := Slide(p.rollWindow, sample.roll, DefaultWindowSize);
    var yawWindow := Slide(p.yawWindow, sample.yaw, DefaultWindowSize);
    SlideShape(p.rollWindow, sample.roll, DefaultWindowSize);
    SlideShape(p.yawWindow, sample.yaw, DefaultWindowSize);
    Pipeline(rollWindow, yawWindow, p.sent + [
      ControlChange(PitchCc, MidiValue(sample.pitch)),
      ControlChange(RollCc, MidiValue(Mean(rollWindow))),
      ControlChange(YawCc, MidiValue(Mean(yawWindow)))])
  }

  /** The GUI state after a parsed sample: pitch as read, roll and yaw smoothed. */
  function Accept(s: GuiState, sample: Sample): GuiState
  {
    var q := Process(s.pipeline, sample);
    GuiState(q, s.lastProcessTime, sample.pitch, Mean(q.rollWindow), Mean(q.yawWindow))
  }

  /** The display values for the angles of a state. */
  function ReadoutOf(t: GuiState): Readout
  {
    Readout(t.pitch, t.roll, t.yaw, MidiValue(t.pitch), MidiValue(t.roll), MidiValue(t.yaw))
  }

  /** One iteration of `read_data_loop` for a line read at time `now`. */
  function GuiStep(s: GuiState, line: string, now: real): GuiState
  {
    if now - s.lastProcessTime < TargetInterval then s
    else
      match ParseLine(line)
      case None => s.(lastProcessTime := now)
      case Some(sample) => Accept(s.(lastProcessTime := now), sample)
  }

  /** What that iteration hands to the display, if anything. */
  function GuiReadout(s: GuiState, line: string, now: real): Option<Readout>
  {
    if now - s.lastProcessTime < TargetInterval then None
    else
      match ParseLine(line)
      case None => None
      case Some(sample) => Some(ReadoutOf(GuiStep(s, line, now)))
  }

  /** One iteration of the console loop of `read_serial_data` (no rate gate). */
  function ConsoleStep(p: Pipeline, line: string): Pipeline
  {
    match ParseLine(line)
    case None => p
    case Some(sample) => Process(p, sample)
  }

  // ---------------------------------------------------------------------------
  // Properties of one step

  /** A line read too early is dropped before parsing and changes nothing. */
  lemma RateGateDropsEarlyLine(s: GuiState, line: string, now: real)
    requires now - s.lastProcessTime < TargetInterval
    ensures GuiStep(s, line, now) == s && GuiReadout(s, line, now) == None
  {
  }

  /**
   * A line past the gate takes the slot even when it is malformed: the time
   * is recorded, and nothing else changes.
   */
  lemma MalformedLineOnlyTakesSlot(s: GuiState, line: string, now: real)
    requires now - s.lastProcessTime >= TargetInterval
    requires ParseLine(line) == None
    ensures GuiStep(s, line, now) == s.(lastProcessTime := now)
    ensures GuiReadout(s, line, now) == None
  {
  }

  /** The console loop swallows a malformed line without any change. */
  lemma ConsoleSkipsMalformedLine(p: Pipeline, line: string)
    requires ParseLine(line) == None
    ensures ConsoleStep(p, line) == p
  {
  }

  /**
   * A processed sample slides the new roll and yaw into their windows and
   * appends exactly three well-formed messages, for controllers 16, 17 and
   * 18 in that order: the pitch message carries the raw pitch, whatever the
   * windows held, and the roll and yaw messages the means of the updated
   * windows.
   */
  lemma ProcessSendsPitchRollYaw(p: Pipeline, sample: Sample)
    ensures var q := Process(p, sample);
      && q.rollWindow == Slide(p.rollWindow, sample.roll, DefaultWindowSize)
      && q.yawWindow == Slide(p.yawWindow, sample.yaw, DefaultWindowSize)
      && |q.sent| == |p.sent| + 3 && q.sent[..|p.sent|] == p.sent
      && q.sent[|p.sent|] == ControlChange(PitchCc, MidiValue(sample.pitch))
      && q.sent[|p.sent| + 1] == ControlChange(RollCc, MidiValue(Mean(q.rollWindow)))
      && q.sent[|p.sent| + 2] == ControlChange(YawCc, MidiValue(Mean(q.yawWindow)))
      && forall i :: |p.sent| <= i < |q.sent| ==> IsControlChange(q.sent[i])
  {
    var q := Process(p, sample);
    assert q.sent[..|p.sent|] == p.sent;
    ControlChangeWellFormed(PitchCc, sample.pitch);
    ControlChangeWellFormed(RollCc, Mean(q.rollWindow));
    ControlChangeWellFormed(YawCc, Mean(q.yawWindow));
  }

  /**
   * Pitch is never smoothed: the displayed pitch is the parsed one, while
   * the displayed roll and yaw are the means of their updated windows.
   */
  lemma PitchPassesThrough(s: GuiState, line: string, now: real)
    requires now - s.lastProcessTime >= TargetInterval
    requires ParseLine(line).Some?
    ensures GuiStep(s, line, now).pitch == ParseLine(line).value.pitch
    ensures GuiStep(s, line, now).pipeline.rollWindow
      == Slide(s.pipeline.rollWindow, ParseLine(line).value.roll, DefaultWindowSize)
    ensures GuiStep(s, line, now).pipeline.yawWindow
      == Slide(s.pipeline.yawWindow, ParseLine(line).value.yaw, DefaultWindowSize)
    ensures var t := GuiStep(s, line, now);
      t.roll == Mean(t.pipeline.rollWindow) && t.yaw == Mean(t.pipeline.yawWindow)
  {
  }

  /** Windows that respect the window size keep respecting it. */
  lemma StepKeepsWindowsBounded(s: GuiState, line: string, now: real)
    requires |s.pipeline.rollWindow| <= DefaultWindowSize && |s.pipeline.yawWindow| <= DefaultWindowSize
    ensures |GuiStep(s, line, now).pipeline.rollWindow| <= DefaultWindowSize
    ensures |GuiStep(s, line, now).pipeline.yawWindow| <= DefaultWindowSize
  {
    match ParseLine(line)
    case None =>
    case Some(sample) =>
      SlideBounded(s.pipeline.rollWindow, sample.roll, DefaultWindowSize);
      SlideBounded(s.pipeline.yawWindow, sample.yaw, DefaultWindowSize);
  }

  /**
   * The line "5,90,0" with empty windows: smoothed roll 0, smoothed yaw 5,
   * pitch 90 passed through, and pitch 90 sent as CC value 119.
   */
  lemma FirstSampleExample(now: real, last: real)
    requires now - last >= TargetInterval
    ensures GuiReadout(GuiState(EmptyPipeline, last, 0.0, 0.0, 0.0), "5,90,0", now)
      == Some(Readout(90.0, 0.0, 5.0, 119, 63, 71))
  {
    ParseExampleLine();
    var s := GuiState(EmptyPipeline, now, 0.0, 0.0, 0.0);
    FirstAcceptExample(s);
  }

  lemma ParseExampleLine()
    ensures ParseLine("5,90,0") == Some(Sample(5.0, 90.0, 0.0))
  {
    assert FormatInt(5) == "5" && FormatInt(0) == "0";
    assert FormatInt(90) == "90" by {
      assert NatDigits(9) == "9";
    }
    assert Join(["5", "90", "0"]) == "5,90,0" by {
      assert Join(["90", "0"]) == "90,0";
    }
    ParseFormattedLine(5, 90, 0);
  }

  lemma FirstAcceptExample(s: GuiState)
    requires s.pipeline == EmptyPipeline
    ensures ReadoutOf(Accept(s, Sample(5.0, 90.0, 0.0))) == Readout(90.0, 0.0, 5.0, 119, 63, 71)
  {
    var q := Process(s.pipeline, Sample(5.0, 90.0, 0.0));
    assert q.rollWindow == [0.0] && q.yawWindow == [5.0];
    MeanSingleton(0.0);
    MeanSingleton(5.0);
    MidiValueAtNinety();
    MidiValueAtCentre();
    assert MidiValue(5.0) == 71 by {
      assert Curve(5.0) == 0.8 / 6.0;
      assert 71.0 <= Scaled(5.0) < 72.0;
    }
  }

  // ---------------------------------------------------------------------------
  // Many steps of the console loop

  /** The samples of the lines that parse, in arrival order. */
  function AcceptedSamples(lines: seq<string>): seq<Sample>
  {
    if lines == [] then []
    else
      var earlier := AcceptedSamples(lines[..|lines| - 1]);
      match ParseLine(lines[|lines| - 1])
      case None => earlier
      case Some(sample) => earlier + [sample]
  }

  function Rolls(samples: seq<Sample>): (r: seq<real>)
    ensures |r| == |samples|
    ensures forall i :: 0 <= i < |samples| ==> r[i] == samples[i].roll
  {
    if samples == [] then [] else Rolls(samples[..|samples| - 1]) + [samples[|samples| - 1].roll]
  }

  function Yaws(samples: seq<Sample>): (r: seq<real>)
    ensures |r| == |samples|
    ensures forall i :: 0 <= i < |samples| ==> r[i] == samples[i].yaw
  {
    if samples == [] then [] else Yaws(samples[..|samples| - 1]) + [samples[|samples| - 1].yaw]
  }

  /** The console loop fed `lines` in order, from empty windows. */
  function ConsoleRun(p: Pipeline, lines: seq<string>): Pipeline
  {
    if lines == [] then p else ConsoleStep(ConsoleRun(p, lines[..|lines| - 1]), lines[|lines| - 1])
  }

  /**
   * After any run of lines, each window is what feeding the accepted samples'
   * values alone would give: malformed lines leave no trace, and by
   * FeedKeepsLatest each window is the last (up to three) accepted values.
   */
  lemma {:induction false} ConsoleRunWindows(lines: seq<string>)
    ensures ConsoleRun(EmptyPipeline, lines).rollWindow == Feed(Rolls(AcceptedSamples(lines)), DefaultWindowSize)
    ensures ConsoleRun(EmptyPipeline, lines).yawWindow == Feed(Yaws(AcceptedSamples(lines)), DefaultWindowSize)
  {
    if lines != [] {
      var earlier := lines[..|lines| - 1];
      ConsoleRunWindows(earlier);
      var samples := AcceptedSamples(earlier);
      match ParseLine(lines[|lines| - 1])
      case None =>
      case Some(sample) =>
        var more := samples + [sample];
        assert more[..|more| - 1] == samples;
        assert Rolls(more)[..|more| - 1] == Rolls(samples);
        assert Yaws(more)[..|more| - 1] == Yaws(samples);
    }
  }

  // ---------------------------------------------------------------------------
  // The objects

  /** `SensorGUI` reduced to the state its read loop touches. */
  class SensorGui {
    var midi: MidiController
    var rollBuffer: SmoothingWindow
    var yawBuffer: SmoothingWindow
    var lastProcessTime: real
    var pitch: real
    var roll: real
    var yaw: real

    /** The two windows are separate lists. */
    ghost predicate Valid()
      reads this
    {
      rollBuffer != yawBuffer
    }

    ghost function State(): GuiState
      reads this, midi, rollBuffer, yawBuffer
    {
      GuiState(Pipeline(rollBuffer.values, yawBuffer.values, midi.sent), lastProcessTime, pitch, roll, yaw)
    }

    constructor (midi: MidiController)
      ensures Valid() && this.midi == midi
      ensures fresh(rollBuffer) && fresh(yawBuffer)
      ensures rollBuffer.values == [] && yawBuffer.values == []
      ensures pitch == 0.0 && roll == 0.0 && yaw == 0.0
    {
      this.midi := midi;
      rollBuffer := new SmoothingWindow();
      yawBuffer := new SmoothingWindow();
      pitch, roll, yaw := 0.0, 0.0, 0.0;
    }

    /** Start of `read_data_loop`: fresh empty windows, and the gate opened at `now`. */
    method BeginReading(now: real)
      modifies this
      ensures Valid() && fresh(rollBuffer) && fresh(yawBuffer)
      ensures rollBuffer.values == [] && yawBuffer.values == []
      ensures lastProcessTime == now && midi == old(midi)
      ensures pitch == old(pitch) && roll == old(roll) && yaw == old(yaw)
    {
      rollBuffer := new SmoothingWindow();
      yawBuffer := new SmoothingWindow();
      lastProcessTime := now;
    }

    /**
     * `calculate_midi_cc`: the source repeats the mapping of
     * `send_controller_change` here, then sends through the controller.
     * The value returned is the value the sent message carries.
     */
    method CalculateMidiCc(ccNumber: int, value: real) returns (midiValue: int)
      modifies midi
      ensures midiValue == MidiValue(value)
      ensures midi.sent == old(midi.sent) + [ControlChange(ccNumber, midiValue)]
    {
      var mapped: real;
      if Abs(value) <= MidRange {
        mapped := (value / MidRange) * MidRangeProportion;
        assert mapped == Inner(value);
      } else {
        var sign := if value > 0.0 then 1.0 else -1.0;
        var remaining := Abs(value) - MidRange;
        mapped := sign * (MidRangeProportion + (remaining / (180.0 - MidRange)) * (1.0 - MidRangeProportion));
        assert mapped == Outer(value);
      }
      assert 63.5 + mapped * 63.5 == Scaled(value);
      midiValue := Clamp(Trunc(63.5 + mapped * 63.5), 0, MaxCcValue);
      midi.SendControllerChange(ccNumber, value);
    }

    /** The part of an iteration after a successful parse. */
    method AcceptSample(sample: Sample) returns (readout: Readout)
      requires Valid()
      modifies this, midi, rollBuffer, yawBuffer
      ensures Valid() && midi == old(midi)
      ensures rollBuffer == old(rollBuffer) && yawBuffer == old(yawBuffer)
      ensures State() == Accept(old(State()), sample)
      ensures readout == ReadoutOf(State())
    {
      ghost var q := Process(old(State()).pipeline, sample);
      var smoothedRoll := rollBuffer.Smooth(sample.roll, DefaultWindowSize);
      var smoothedYaw := yawBuffer.Smooth(sample.yaw, DefaultWindowSize);
      assert rollBuffer.values == q.rollWindow && yawBuffer.values == q.yawWindow;
      pitch, roll, yaw := sample.pitch, smoothedRoll, smoothedYaw;
      ghost var sent0 := midi.sent;
      var ccPitch := CalculateMidiCc(PitchCc, sample.pitch);
      var ccRoll := CalculateMidiCc(RollCc, smoothedRoll);
      var ccYaw := CalculateMidiCc(YawCc, smoothedYaw);
      assert midi.sent == sent0 + [ControlChange(PitchCc, ccPitch), ControlChange(RollCc, ccRoll), ControlChange(YawCc, ccYaw)];
      assert smoothedRoll == Mean(q.rollWindow) && smoothedYaw == Mean(q.yawWindow);
      assert midi.sent == q.sent;
      readout := Readout(sample.pitch, smoothedRoll, smoothedYaw, ccPitch, ccRoll, ccYaw);
    }

    /** One iteration of `read_data_loop` for a line read at time `now`. */
    method ProcessLine(line: string, now: real) returns (readout: Option<Readout>)
      requires Valid()
      modifies this, midi, rollBuffer, yawBuffer
      ensures Valid() && midi == old(midi)
      ensures rollBuffer == old(rollBuffer) && yawBuffer == old(yawBuffer)
      ensures State() == GuiStep(old(State()), line, now)
      ensures readout == GuiReadout(old(State()), line, now)
    {
      if now - lastProcessTime < TargetInterval {
        return None;
      }
      lastProcessTime := now;
      var parsed := ParseLine(line);
      if parsed.None? {
        return None;
      }
      var shown := AcceptSample(parsed.value);
      readout := Some(shown);
    }
  }

  /** The console variant: windows and controller owned by `read_serial_data`. */
  class ConsoleReader {
    const midi: MidiController
    const rollBuffer: SmoothingWindow
    const yawBuffer: SmoothingWindow

    ghost predicate Valid()
      reads this
    {
      rollBuffer != yawBuffer
    }

    ghost function State(): Pipeline
      reads this, midi, rollBuffer, yawBuffer
    {
      Pipeline(rollBuffer.values, yawBuffer.values, midi.sent)
    }

    constructor (midi: MidiController)
      ensures Valid() && this.midi == midi
      ensures fresh(rollBuffer) && fresh(yawBuffer)
      ensures rollBuffer.values == [] && yawBuffer.values == []
    {
      this.midi := midi;
      rollBuffer := new SmoothingWindow();
      yawBuffer := new SmoothingWindow();
    }

    /** One iteration of the console loop. */
    method ProcessLine(line: string)
      requires Valid()
      modifies midi, rollBuffer, yawBuffer
      ensures State() == ConsoleStep(old(State()), line)
    {
      var parsed := ParseLine(line);
      if parsed.Some? {
        var sample := parsed.value;
        ghost var q := Process(State(), sample);
        var smoothedRoll := rollBuffer.Smooth(sample.roll, DefaultWindowSize);
        var smoothedYaw := yawBuffer.Smooth(sample.yaw, DefaultWindowSize);
        assert rollBuffer.values == q.rollWindow && yawBuffer.values == q.yawWindow;
        midi.SendControllerChange(PitchCc, sample.pitch);
        midi.SendControllerChange(RollCc, smoothedRoll);
        midi.SendControllerChange(YawCc, smoothedYaw);
        assert midi.sent == q.sent;
      }
    }
  }
}
