# 6DOF orientation to MIDI and DAC: a Dafny model

The system turns the yaw, pitch and roll of an orientation sensor into two
kinds of output.

- **The Python host** (`src/serial_reader.py`) reads `yaw,pitch,roll` lines
  from a serial port. In the GUI loop it processes at most one line per 20 ms.
  It smooths roll and yaw over a three-sample moving window and passes pitch
  through. It maps each angle with a piecewise-linear curve onto a 7-bit MIDI
  value. It sends the three values as Control Change messages `[0xB0, cc,
  value]`: pitch on controller 16, roll on 17, yaw on 18. This is the Control
  Change message on channel 1 of the MIDI 1.0 Detailed Specification. The host
  also rotates a preview point by the three angles.
- **The ESP32 receiver** (`src/slave.cpp`) takes JSON messages over a
  WebSocket, at most one per 20 ms of its wrapping 32-bit millisecond clock.
  It averages each axis over a two-slot ring buffer; the three buffers share
  one index. It scales the averages linearly onto the 12-bit codes of an
  MCP4728 DAC and writes them to the channels the user assigned. HTTP handlers
  reassign the channels (`POST /config`), report them (`GET /config`) and
  pulse one channel at full scale (`POST /test-channel`).

The files:

- `common.dfy`: the Option type, truncation toward zero, clamping, sums and
  means.
- `midi.dfy`: the angle-to-CC mapping and the MIDI output as a log of sent
  messages.
- `smoothing.dfy`: `smooth_value` on a list the method mutates.
- `sample_parser.dfy`: `line.split(',')` and a decimal `float()`.
- `rotation.dfy`: `_rotate_point`.
- `acquisition.dfy`: one iteration of the GUI read loop and of the console
  loop. Each is written as a step function, and the classes `SensorGui` and
  `ConsoleReader` are proved to carry out that step.
- `dac.dfy`: `mapFloat` and the channel numbering and clamping rules.
- `receiver.dfy`: the receiver's globals as the class `Esp32Receiver`, with
  array buffers, proved against step functions on a value state `Rx`.

Two facts of the code are worth stating because they are easy to misread:

- An angle of 90 degrees maps to CC value 119, not to the top of the range.
  Only 180 degrees and beyond reach 127.
- Every call of `smooth_value`, in the GUI loop and in the console loop,
  uses the default window of 3.

## Model

| member | source | states |
|---|---|---|
| Numeric.Trunc | src/serial_reader.py:201 | `int()` on a real truncates toward zero: the result is the integer part, below or above the argument according to its sign |
| Numeric.TruncVersusFloor | src/serial_reader.py:201 | truncation and floor agree on non-negative arguments; below zero truncation lies between the floor and 0 |
| Numeric.Clamp | src/serial_reader.py:201 | `min(hi, max(lo, v))` lies in [lo, hi], is v inside the range, and is the nearer end outside it |
| Numeric.Mean | src/serial_reader.py:213 | `np.mean` of a non-empty list, defined as its sum divided by its length; its bounds are in Numeric.MeanWithin |
| Numeric.MeanWithin | src/serial_reader.py:213 | the mean of values drawn from [lo, hi] lies in [lo, hi] |
| Midi.Curve | src/serial_reader.py:191-198 | the curve keeps the sign of the angle, stays within ±0.8 inside ±30 degrees and within ±1 inside ±180 degrees |
| Midi.MidiValue | src/serial_reader.py:200-201 | every real angle, any magnitude, gives a CC value in [0, 127] |
| Midi.MidiValueIsClampedFloor | src/serial_reader.py:201 | after the clamp, truncation by `int()` and floor give the same value |
| Midi.MidiValueAtCentre | src/serial_reader.py:200-201 | angle 0 maps to 63 |
| Midi.MidiValueAtNinety | src/serial_reader.py:191-201 | 90 degrees maps to 119 and -90 degrees to 7 |
| Midi.SegmentsMeetAtSeam | src/serial_reader.py:191-198 | both segments give ±0.8 at ±30 degrees, so the curve is continuous at the seam |
| Midi.CurveIsOdd | src/serial_reader.py:191-198 | the curve is symmetric about 0: a negated angle gives the negated value |
| Midi.CurveLipschitz | src/serial_reader.py:191-198 | the curve never changes faster than 0.8/30 per degree |
| Midi.CurveMonotone | src/serial_reader.py:191-198 | the curve is non-decreasing in the angle across both segments and the seam |
| Midi.MidiValueMonotone | src/serial_reader.py:191-201 | the CC value is non-decreasing in the angle |
| Midi.MidiValueSmallStep | src/serial_reader.py:191-201 | angles at most half a degree apart give CC values at most one apart |
| Midi.MidiValueSaturates | src/serial_reader.py:191-201 | angles of 180 and beyond give 127, and angles of -180 and below give 0 |
| Midi.MidiValueNearlySymmetric | src/serial_reader.py:191-201 | the values for an angle and its negation always add up to 126 or 127 |
| Midi.ControlChangeWellFormed | src/serial_reader.py:203-204 | the message sent is a 3-byte Control Change on channel 1 with two 7-bit data bytes |
| Midi.MidiController.constructor | src/serial_reader.py:59-75 | a new controller has sent no messages yet; port selection and opening are not modelled |
| Midi.MidiController.SendControllerChange | src/serial_reader.py:189-204 | one call appends exactly one message `[0xB0, cc, value]`, carrying the mapped value, and nothing else |
| Smoothing.Slide | src/serial_reader.py:209-212 | `smooth_value`'s update of the list, defined as appending the new value and dropping the oldest one while the list is longer than the window size; its properties are in Smoothing.SlideShape, Smoothing.SlideBounded and Smoothing.FeedKeepsLatest |
| Smoothing.SlideShape | src/serial_reader.py:209-212 | the new value is appended; exactly the oldest value is removed, and only when the length exceeds the window size |
| Smoothing.SlideBounded | src/serial_reader.py:209-212 | a window no longer than the window size stays no longer |
| Smoothing.FeedKeepsLatest | src/serial_reader.py:209-212 | after any inputs the window holds the last min(n, size) of them, in arrival order |
| Smoothing.SmoothedOutputsExample | src/serial_reader.py:209-213 | feeding 10, 20, 30, 40 with size 3 returns 10, 15, 20, 30 |
| Smoothing.SlideWithin | src/serial_reader.py:209-213 | samples from [lo, hi] keep the window and its mean inside [lo, hi] |
| Smoothing.SmoothingWindow.Smooth | src/serial_reader.py:209-213 | the list is updated in place by that slide, and the result is the mean of the updated list |
| SampleParser.Split | src/serial_reader.py:539 | `split(',')` yields at least one field, no field contains a comma, and joining the fields with commas gives the line back |
| SampleParser.SplitJoin | src/serial_reader.py:539 | splitting comma-free fields joined by commas gives those fields back |
| SampleParser.ParseNumber | src/serial_reader.py:539 | `float()` on one field, defined as optional surrounding whitespace around a signed decimal with an optional exponent, or None; its round trip with integers is in SampleParser.ParseFormatInt |
| SampleParser.ParseLine | src/serial_reader.py:539 | `map(float, line.split(','))` unpacked into yaw, pitch, roll, defined as None when the unpacking or a `float()` fails; its properties are in SampleParser.ParseLineAccepts, SampleParser.ParseFormattedLine and SampleParser.WrongFieldCountRejected |
| SampleParser.ParseLineAccepts | src/serial_reader.py:539 | a line is accepted if and only if it splits into exactly three fields that all parse, read as yaw, pitch, roll in that order |
| SampleParser.ParseFormatInt | src/serial_reader.py:539 | `float()` reads the decimal notation of every integer back as that integer |
| SampleParser.ParseFormattedLine | src/serial_reader.py:539 | the line `yaw,pitch,roll` written with integers parses back to exactly those three angles |
| SampleParser.WrongFieldCountRejected | src/serial_reader.py:539 | a line with any number of fields other than three is rejected |
| SampleParser.ParseLineExampleAccepted | src/serial_reader.py:539 | "1.0,2.0,3.0" reads as yaw 1, pitch 2, roll 3 |
| SampleParser.ParseLineExamplesRejected | src/serial_reader.py:539 | "1.0,2.0" and "a,b,c" are rejected |
| Rotation.RotatePoint | src/serial_reader.py:700-714 | `_rotate_point`, defined as the yaw, pitch and roll plane rotations applied in that order; its properties are in Rotation.OriginFixed through Rotation.RotationKeepsLength |
| Rotation.OriginFixed | src/serial_reader.py:700-714 | the origin maps to the origin for any angles |
| Rotation.ZeroAnglesIdentity | src/serial_reader.py:700-714 | all-zero angles leave every point unchanged |
| Rotation.XIndependentOfRoll | src/serial_reader.py:700-714 | the returned x is the pitched x, so it does not depend on roll |
| Rotation.YawQuarterTurnOnXAxis | src/serial_reader.py:702-704 | a quarter turn of yaw alone takes the X axis onto the Y axis |
| Rotation.YawBeforePitch | src/serial_reader.py:702-708 | the stages run yaw before pitch: a quarter turn of both takes the X axis onto Y |
| Rotation.PlaneRotationKeepsLength | src/serial_reader.py:702-704 | one stage keeps the squared length of the two coordinates it turns |
| Rotation.RotationKeepsLength | src/serial_reader.py:700-714 | when each (sin, cos) pair lies on the unit circle, the staged rotation keeps the distance from the origin |
| Acquisition.Process | src/serial_reader.py:541-553 | after a sample both smoothing windows are non-empty |
| Acquisition.Accept | src/serial_reader.py:541-548 | the GUI state after a parsed sample, defined as Process on the pipeline with pitch as read and roll and yaw as the window means; its properties are in Acquisition.PitchPassesThrough |
| Acquisition.GuiStep | src/serial_reader.py:525-560 | one iteration of `read_data_loop`, defined as: no change inside 0.02 s, only the time recorded for a malformed line, Accept otherwise; its properties are in Acquisition.RateGateDropsEarlyLine, Acquisition.MalformedLineOnlyTakesSlot, Acquisition.PitchPassesThrough and Acquisition.StepKeepsWindowsBounded |
| Acquisition.GuiReadout | src/serial_reader.py:525-560 | what that iteration displays, defined as the readout of the new state when the line is used and None otherwise; its properties are in Acquisition.RateGateDropsEarlyLine, Acquisition.MalformedLineOnlyTakesSlot and Acquisition.FirstSampleExample |
| Acquisition.ConsoleStep | src/serial_reader.py:791-807 | one iteration of the console loop, defined as Process for a parsed line and no change otherwise; its properties are in Acquisition.ConsoleSkipsMalformedLine and Acquisition.ConsoleRunWindows |
| Acquisition.RateGateDropsEarlyLine | src/serial_reader.py:530-533 | a line read less than 0.02 s after the last processed one is dropped before parsing, with no change and no display update |
| Acquisition.MalformedLineOnlyTakesSlot | src/serial_reader.py:535-560 | a line that passes the gate but fails to parse records the time and changes nothing else |
| Acquisition.ConsoleSkipsMalformedLine | src/serial_reader.py:791-807 | in the console loop a malformed line leaves the windows and the sent messages unchanged |
| Acquisition.ProcessSendsPitchRollYaw | src/serial_reader.py:550-553 | a sample slides roll and yaw into their windows and appends exactly three well-formed messages, for controllers 16, 17, 18 in that order: pitch sent unsmoothed, roll and yaw as the means of their updated windows |
| Acquisition.PitchPassesThrough | src/serial_reader.py:541-548 | the displayed pitch is the parsed pitch, while the parsed roll and yaw slide into their windows and the displayed roll and yaw are the means of those windows |
| Acquisition.StepKeepsWindowsBounded | src/serial_reader.py:541-543 | windows of at most three values stay that way after any step |
| Acquisition.FirstSampleExample | src/serial_reader.py:530-557 | "5,90,0" with empty windows displays pitch 90, roll 0, yaw 5 and the CC values 119, 63, 71 |
| Acquisition.ConsoleRunWindows | src/serial_reader.py:788-807 | after any run of lines each window is what the accepted samples alone would produce; malformed lines leave no trace |
| Acquisition.SensorGui.constructor | src/serial_reader.py:216-245 | the GUI starts with two fresh, empty windows and pitch, roll and yaw at 0, as `__init__` sets its data fields |
| Acquisition.SensorGui.BeginReading | src/serial_reader.py:517-523 | the read loop starts with two fresh, empty windows and the gate timed from now |
| Acquisition.SensorGui.CalculateMidiCc | src/serial_reader.py:570-587 | the value returned equals the value in the one message it sends through the controller |
| Acquisition.SensorGui.AcceptSample | src/serial_reader.py:539-557 | smoothing, sending and display values for one parsed sample follow the step function |
| Acquisition.SensorGui.ProcessLine | src/serial_reader.py:525-560 | one loop iteration changes the state as the gated step function does and returns the display values when the line is used |
| Acquisition.ConsoleReader.constructor | src/serial_reader.py:781-783 | the console loop starts with two fresh, empty windows, so the loop can run on them |
| Acquisition.ConsoleReader.ProcessLine | src/serial_reader.py:788-807 | one console iteration changes windows and sent messages as the ungated step function does |
| Dac.CastToU16 | src/slave.cpp:45 | the cast to `uint16_t` is defined exactly when the value truncated toward zero fits in 0..65535, and then it is that truncated value |
| Dac.MapFloat | src/slave.cpp:44-46 | `mapFloat` onto 0..4095, defined as the linear interpolation cast by CastToU16, and None for an empty input range; its properties are in Dac.MapFloatInRange, Dac.MapFloatMonotone, Dac.MapFloatBeyondRange and Dac.MapFloatCentre |
| Dac.MapFloatInRange | src/slave.cpp:44-46 | inside its input range `mapFloat` is defined and lies in [0, 4095], with the lower end giving 0 and the upper end 4095 |
| Dac.MapFloatMonotone | src/slave.cpp:44-46 | inside its input range `mapFloat` is non-decreasing |
| Dac.MapFloatBeyondRange | src/slave.cpp:44-46 | outside its input range the code can still be defined and exceed 4095 (200 degrees of yaw gives 4322), while -181 degrees is undefined |
| Dac.MapFloatCentre | src/slave.cpp:108-110 | 0 degrees on each axis maps to the mid-scale code 2047 |
| Dac.ChannelToNum | src/slave.cpp:646-654 | channel numbers lie in 0..3 |
| Dac.NumToChannel | src/slave.cpp:635-643 | `numToChannel`, defined as 0..3 to A..D and channel A for any other number; its properties are in Dac.ChannelNumbering |
| Dac.ChannelNumbering | src/slave.cpp:635-654 | `numToChannel` and `channelToNum` are inverses on 0..3, and any other number falls back to channel A |
| Dac.ConfiguredChannel | src/slave.cpp:741-748 | the channel one member of a `POST /config` body selects, defined as the current channel when the member is missing and the clamped number otherwise; its properties are in Dac.ConfiguredChannelRules |
| Dac.TestedChannel | src/slave.cpp:704-710 | the channel `POST /test-channel` pulses, defined by clamping the parameter to 0..3; its properties are in Dac.TestedChannelClamps |
| Dac.ConfiguredChannelRules | src/slave.cpp:741-753 | a missing member keeps the current channel, and a supplied number is clamped to 0..3 |
| Dac.TestedChannelClamps | src/slave.cpp:704-710 | the test channel is the parameter clamped to 0..3 |
| Receiver.Elapsed | src/slave.cpp:78-79 | the unsigned difference of two clock readings lies in [0, 2^32) |
| Receiver.ElapsedWrapSafe | src/slave.cpp:78-81 | the gate measures the true elapsed time even when the clock wraps between messages |
| Receiver.NextIndex | src/slave.cpp:100 | the next index stays in [0, BUFFER_SIZE) and moves off the current slot |
| Receiver.Accept | src/slave.cpp:94-115 | an accepted message, defined as writing the slot after the index in all three buffers, setting the current values to the buffer means and logging their three DAC codes; its properties are in Receiver.AcceptWritesOneSlot and Receiver.AcceptDrivesDacInRange |
| Receiver.TextStep | src/slave.cpp:76-118 | the text-message handler, defined as the 20 ms gate, then only the timer for an unparsable message, then Accept; its properties are in Receiver.RateGateDropsMessage and Receiver.BadMessageOnlyAdvancesTimer |
| Receiver.ConnectStep | src/slave.cpp:67-75 | a connect, defined as zeroing every slot of the three buffers; its properties are in Receiver.ConnectClearsOnlyBuffers and Receiver.FirstMessageAfterConnectIsHalved |
| Receiver.EventStep | src/slave.cpp:62-120 | `onWebSocketEvent`, defined as ConnectStep for a connect, TextStep for a text frame and no change otherwise; its properties are in Receiver.EventKeepsWellFormed and Receiver.TwoMessagesReplaceHistory |
| Receiver.RateGateDropsMessage | src/slave.cpp:77-81 | a message less than 20 ms after the last processed one leaves the whole state unchanged |
| Receiver.BadMessageOnlyAdvancesTimer | src/slave.cpp:82-92 | a message that fails to parse advances only the timer, not the buffers, index or current values |
| Receiver.AcceptWritesOneSlot | src/slave.cpp:99-105 | an accepted message advances the index by one, writes that slot in all three buffers, keeps the other slot, and sets each current value to the mean of both slots |
| Receiver.EventKeepsWellFormed | src/slave.cpp:62-120 | every event keeps the buffers at two slots and the index in range |
| Receiver.TwoMessagesReplaceHistory | src/slave.cpp:49-60 | after two accepted messages each current value is the mean of those two messages, whatever came before |
| Receiver.FirstMessageAfterConnectIsHalved | src/slave.cpp:67-105 | the zeroed slots count, so the first message after a connect yields half of each value |
| Receiver.ConnectClearsOnlyBuffers | src/slave.cpp:67-75 | a connect zeroes every slot and keeps the index and the current values |
| Receiver.AcceptDrivesDacInRange | src/slave.cpp:107-115 | with buffered and new values inside ±180 / ±90 / ±180, the three DAC writes are defined codes in [0, 4095], appended after the earlier writes |
| Receiver.ConfigStep | src/slave.cpp:735-763 | `POST /config`, defined as ConfiguredChannel on each axis for a JSON object and no change otherwise; its properties are in Receiver.ConfigChangesOnlyChannels and Receiver.DuplicateChannelsAccepted |
| Receiver.ConfigReport | src/slave.cpp:695-700 | the body `GET /config` answers, defined as the three channel numbers; its round trip is in Receiver.ConfigReportRoundTrip |
| Receiver.TestChannelStep | src/slave.cpp:703-732 | `POST /test-channel`, defined as logging 4095 to the tested channel and then the codes of the three current values; its properties are in Receiver.TestChannelEffect and Receiver.TestingUnassignedChannelLeavesItHigh |
| Receiver.ConfigChangesOnlyChannels | src/slave.cpp:735-763 | a configuration change alters only the channel mapping; each missing member keeps its channel, and each supplied member of yaw, pitch and roll is clamped to 0..3 |
| Receiver.ConfigReportRoundTrip | src/slave.cpp:695-700 | posting back the mapping that GET /config reports changes nothing |
| Receiver.DuplicateChannelsAccepted | src/slave.cpp:746-753 | assigning the same channel to all three axes is accepted |
| Receiver.TestChannelEffect | src/slave.cpp:703-732 | without the parameter nothing changes; with it only the DAC log changes: the earlier writes are kept, the tested channel gets 4095, then the three axes get the codes of their current values |
| Receiver.TestingUnassignedChannelLeavesItHigh | src/slave.cpp:718-724 | a tested channel that no axis is assigned to is not written again after the pulse, so it stays at 4095 |
| Receiver.Esp32Receiver.constructor | src/slave.cpp:21-777 | the globals (lines 21-41) start at zero with yaw on A, pitch on B and roll on C, in three fresh buffers the handlers can then update; `setup` ends by writing 0 to all four DAC channels (lines 774-777) |
| Receiver.Esp32Receiver.SmoothValue | src/slave.cpp:49-60 | only slot `bufferIndex` of the given array is written, and the result is the sum of all slots divided by BUFFER_SIZE |
| Receiver.Esp32Receiver.ClearBuffers | src/slave.cpp:67-75 | the clearing loop leaves every slot of the three arrays at 0 and nothing else changed |
| Receiver.Esp32Receiver.AcceptMessage | src/slave.cpp:94-115 | the arrays, index, current values and DAC writes change as the accept function says |
| Receiver.Esp32Receiver.HandleText | src/slave.cpp:76-118 | the text handler changes the globals as the gated step function does |
| Receiver.Esp32Receiver.WebSocketEvent | src/slave.cpp:62-120 | each event changes the globals as the event step function does and keeps them well formed |
| Receiver.Esp32Receiver.UpdateConfig | src/slave.cpp:735-763 | a JSON object answers 200 and updates the mapping as the configuration function says; anything else answers 400 and changes nothing |
| Receiver.Esp32Receiver.ReportConfig | src/slave.cpp:695-700 | each reported number lies in 0..3 and names the current channel of its axis, so posting the report back keeps every channel |
| Receiver.Esp32Receiver.TestChannel | src/slave.cpp:703-732 | the parameter present answers 200 and logs the pulse and the restore; absent, it answers 400 and changes nothing |

## Left out

- The Tk interface, colour schemes, canvas drawing, playback and argument
  parsing are not modelled. They hold no logic of the pipeline.
- MIDI port selection and the configuration file are not modelled. They are
  interactive prompts and file I/O.
- Serial port handling is not modelled: opening, listing, retrying, `in_waiting`, `time.sleep`
  and the error path that ends the loop (src/serial_reader.py:562-568).
  Lines enter the model already decoded.
- Threading and `root.after` are not modelled. The display update is
  represented by the readout that `ProcessLine` returns.
- The clock is not modelled: `time.time()` and `millis()` become parameters of the step functions.
- Floating point is not modelled. Python floats, `np.mean` and the ESP32's
  32-bit floats are all real numbers here, so rounding is not captured.
- SampleParser.ParseNumber reads decimal and exponent notation with an optional
  sign, surrounded by the ASCII characters Python counts as whitespace. It
  does not read `inf`, `nan`, digit-group underscores, non-ASCII digits or
  non-ASCII whitespace, which Python's `float()` also accepts. A line with
  `inf` or `nan` fields is rejected here as a malformed line, and the model's
  numbers are always finite, so the failures such values cause are not
  captured. The three lines below describe them.
- A NaN field is accepted by `float()` and slides into its window, where it
  stays for the next two samples; `self.pitch`, `self.roll` and `self.yaw`
  take the new values. The first angle that is NaN then makes `int()` raise
  `ValueError` (src/serial_reader.py:201 and 582), before that angle's
  message is sent. The error is caught as a parse error
  (src/serial_reader.py:559-560 and 806-807), so zero, one or two of the three
  messages go out and the display is not updated. The model sends all three
  or none.
- An infinite field, whether written `inf` or as a literal too large for a
  double such as `1e309`, makes `int()` raise `OverflowError`, which is not a
  `ValueError`. In the GUI loop it is caught by the outer handler, which
  reports the error and ends the read loop (src/serial_reader.py:565-568);
  in the console loop it escapes `read_serial_data`. The model reads `1e309`
  as a finite real and sends CC 127 (or 0 when negative).
- A mean of finite values near the largest double can overflow to
  infinity in `np.mean`, with the same consequence; the model's mean is
  exact.
- The `strip()` of the whole line is not modelled separately. `float()`
  ignores the same whitespace around the first and last fields.
- Rotation.RotatePoint takes the sine and cosine of each angle as a pair.
  Computing them from radians is not modelled. The length-preserving
  property assumes each pair lies on the unit circle.
- Smoothing.SmoothingWindow.Smooth requires a window size above 0. With size 0 the list
  empties and `np.mean` yields NaN, but every caller passes the default 3.
- The receiver's JSON deserialiser is not modelled: its result is a
  document with optional members, or a failure. The model reads a missing
  member as 0; how ArduinoJson converts a string or boolean member to
  `float` is not modelled, and such members are treated like missing ones.
  `String.toInt` of the `channel` parameter is folded into the integer the
  model receives.
- The console loop's `print` of each sample and of each parse error
  (src/serial_reader.py:799 and 807) is not modelled; it is console output.
- WiFi, WebSocket and HTTP plumbing are not modelled, nor Serial printing,
  the LED pin, the HTML page with `GET /` and `GET /values`, or the 500 ms
  `delay` of the channel test. The DAC is a log of the writes made to it.
- Each HTTP handler and each WebSocket event is modelled as one atomic step.
  The handlers run on the web server's task while `loop()` runs the
  WebSocket handler, so they can interleave. During the 500 ms pulse of
  `/test-channel`, messages may write newer codes that the restore then
  overwrites with the stale values read before the pulse. That
  interleaving is not captured.
- `mapFloat` is not restricted to its input range. Outside it, the cast
  to `uint16_t` is undefined behaviour only when the truncated value falls
  outside 0..65535; the model gives None there. Other out-of-range inputs
  give defined codes outside [0, 4095], which the DAC library receives
  as they are.
- src/master.cpp is entirely commented out and src/main.cpp is a hardware
  ramp demo. Neither is part of this model.
