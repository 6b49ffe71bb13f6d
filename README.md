# DMX512 follow-spot tracker — Dafny model

The tracker (`dmx512-tracker.py`) watches two lanes with range finders and
steers a moving head (a Eurolite LED TMH-46 in its 18-channel mode) towards
the target it picks, by sending a DMX512 frame about fifty times a second.
This project models its integer core:

- `Detection` (`detection_lane.dfy`): a lane's state machine. The class
  `DetectionLane` has the source's fields `shift`, `maxDist`, `event` and
  `speed`; its `ValueCallback` takes one already-parsed distance sample and is
  proved to follow the pure transition `Observe`. `Replay` folds `Observe`
  over a sample history; the lemmas say what a lane looks like after any
  history.
- `ColourWheel` (`colour_wheel.dfy`): `hue2rgb` as `Hue2Rgb`, with its ramp,
  plateau and floor, and the three phase-shifted channels `Rgb`.
- `DmxFrame` (`dmx_frame.dfy`): the 21-slot default frame and `Encode`, the
  value of a frame after `setFrame`.
- `PanTilt` (`pan_tilt_head.dfy`): the class `PanTiltHead`, whose `SetFrame`
  updates an `array<int>` in place and whose `PointTo` wraps the pan, encodes
  the frame and records it as sent. The floating-point bearing is a function
  parameter of type `Geometry`.
- `Tracker` (`tracker.dfy`): the main loop's lane choice as the pure
  `Arbitrate`, and one pass of the loop as the method `ControlStep`.

`shift`, `maxDist`, `height` and `distance` are `const` fields: the source
assigns them only in the constructors, so Dafny itself guarantees that no
operation changes them. The frame array is a `const` reference whose contents
change, as the source's list is mutated in place and never rebound.

Python's `(v >> 8) & 255` and `v & 255` are Dafny's `(v / 256) % 256` and
`v % 256` for every integer, negative ones included. `int(254 * 6 * h / 255)`
is `1524 * h / 255` for the non-negative `h` it is applied to.

## Behaviour worth noting

- A rejected sample clears `event` but keeps `speed` as it was
  (`dmx512-tracker.py:21-23`, `Detection.Observe`). The stale speed is never
  used for a lane without a target.
- A target that has just appeared has speed 99999 (`dmx512-tracker.py:25`). It
  beats a followed target in the other lane whenever that lane's |speed| is
  below 99999. Every consistent lane with a range under 100049 mm meets that
  bound (`Tracker.FreshTargetWins`). When the newcomer is in lane 1, it also
  wins a tie at 99999.
- Pan and tilt are truncated with `int()` (`dmx512-tracker.py:77-78`), not
  rounded. That step belongs to the floating-point geometry, which is a
  parameter here.

## Model

| member | source | states |
|---|---|---|
| `Detection.Observe` | dmx512-tracker.py:19-28 | a sample yields a target exactly when it lies in [50, maxDist], and then the target is that sample; a rejected sample keeps the speed; a consistent state stays consistent |
| `Detection.DetectionLane.constructor` | dmx512-tracker.py:10-15 | a new lane has the given shift and range, no target and speed 0, and is consistent |
| `Detection.DetectionLane.ValueCallback` | dmx512-tracker.py:19-28 | the callback moves the lane's state exactly as `Observe` does and keeps it consistent |
| `Detection.InitialConsistent` | dmx512-tracker.py:14-15 | the constructed state meets the lane invariant for every range |
| `Detection.ReplayConsistent` | dmx512-tracker.py:21-28 | after any sequence of samples the target is absent or in [50, maxDist], and the speed is 99999 or at most maxDist - 50 in size |
| `Detection.ReplayEvent` | dmx512-tracker.py:21-28 | after a history the target is its last sample if that was in range, and absent otherwise |
| `Detection.ReplaySpeed` | dmx512-tracker.py:21-28 | the speed equals one read off the history alone: 0 before any accepted sample, else the difference of the last two samples when both were accepted, else 99999 |
| `Detection.SpeedOfTwoSamples` | dmx512-tracker.py:26-28 | two accepted samples in a row leave their difference as the speed, whatever came before |
| `Detection.SpeedAfterAbsence` | dmx512-tracker.py:24-25 | a sample accepted while no target was present becomes the target with speed 99999 |
| `ColourWheel.Ramp` | dmx512-tracker.py:49 | the ramp over hues 0..42 stays within 1..252 |
| `ColourWheel.Hue2Rgb` | dmx512-tracker.py:43-49 | every intensity lies in 1..255 |
| `ColourWheel.RampEnds` | dmx512-tracker.py:49 | the ramp gives 1 at hue 0 and 252 at hue 42 |
| `ColourWheel.RampIncreasing` | dmx512-tracker.py:49 | the ramp rises strictly, by at least 5 per hue step |
| `ColourWheel.Hue2RgbPeriodic` | dmx512-tracker.py:44 | the intensity depends only on the hue modulo 256 |
| `ColourWheel.Hue2RgbFloorAndPlateau` | dmx512-tracker.py:44-47 | reduced hues 170..255 give 1 and reduced hues 43..127 give 255 |
| `ColourWheel.Hue2RgbRamps` | dmx512-tracker.py:46-49 | reduced hues 0..42 follow the ramp, and 128..169 follow it at 170 minus the hue |
| `ColourWheel.Hue2RgbMirror` | dmx512-tracker.py:44-49 | every channel is symmetric about hue 85: for every integer x, hue x and hue 170 - x give the same intensity, so the falling edge mirrors the rising one |
| `ColourWheel.SomeChannelAtFloor` | dmx512-tracker.py:64-66 | for every hue one of R, G, B is at the floor value 1 |
| `ColourWheel.SomeChannelFull` | dmx512-tracker.py:64-66 | for every hue except 128 modulo 256 one of R, G, B is 255; at 128 the colour is (1, 252, 252) |
| `ColourWheel.Rgb` | dmx512-tracker.py:64-66 | R, G and B are the channel intensities at hue + 85, hue and hue + 170, each in 1..255; `SomeChannelAtFloor`, `SomeChannelFull` and `TrackingHue` prove its colour properties |
| `ColourWheel.TrackingHue` | dmx512-tracker.py:64-66 | hue 270 gives R, G, B = 255, 84, 1 |
| `DmxFrame.SplitJoin` | dmx512-tracker.py:52-55 | the high and low bytes are bytes, and together they give the value modulo 65536 |
| `DmxFrame.ColourSlots` | dmx512-tracker.py:56-69 | the six colour slots are six bytes |
| `DmxFrame.Encode` | dmx512-tracker.py:51-69 | the frame keeps its length; only slots 1-4 and 8-13 change; written slots are bytes; slots 1-2 and 3-4 read back as pan and tilt modulo 65536; slots 8-13 are the colour slots of the hue |
| `DmxFrame.EncodeRoundTrip` | dmx512-tracker.py:52-55 | a pan and tilt in 0..65535 are read back exactly from their byte pairs |
| `DmxFrame.EncodeOverwrites` | dmx512-tracker.py:51-69 | encoding twice gives the same frame as the second encoding alone: the frame carries no state from one cycle to the next |
| `DmxFrame.EncodeBlackout` | dmx512-tracker.py:56-62 | without a hue slots 8-13 are all 0 |
| `DmxFrame.EncodeTrackingHue` | dmx512-tracker.py:63-69 | with hue 270 slots 8-13 are 255, 84, 1, 64, 0, 0 |
| `DmxFrame.EncodeDefaultFrame` | dmx512-tracker.py:41 | encoding into the default frame keeps 21 slots and the mode values of slots 0, 5-7 and 14-20 |
| `PanTilt.WrapPan` | dmx512-tracker.py:79 | every pan below 21800 moves forward by exactly 43600 and any other stays; the bearing modulo a full turn is unchanged; a pan of at least -21800 ends at 21800 or more |
| `PanTilt.WrappedPanFits` | dmx512-tracker.py:77-79 | a raw pan within one turn (0..43600) wraps into 21800..65535 and so fits two bytes |
| `PanTilt.Pointed` | dmx512-tracker.py:71-80 | the frame `pointTo` leaves, built on the helper `RawPose` (pan and tilt (0, 0) without a lane, else the geometry at the lane's shift, the head's distance minus the target's distance, and the head's height): it keeps its length and every slot outside 1-4 and 8-13; slots 1-2 read back as the wrapped raw pan and slots 3-4 as the raw tilt, modulo 65536; slots 8-13 are the colour slots of the hue; `ParkedFrame` and `PointedExact` prove the parked and in-range cases |
| `PanTilt.ParkedFrame` | dmx512-tracker.py:72-73 | with no lane the frame gets pan bytes 170, 80, tilt bytes 0, 0 and the colour off |
| `PanTilt.PointedExact` | dmx512-tracker.py:71-80 | when the geometry gives a pan within one turn and a 16-bit tilt, the frame carries the wrapped pan and the tilt exactly |
| `PanTilt.PanTiltHead.constructor` | dmx512-tracker.py:31-41 | a new head holds its height and distance, a fresh 21-slot array equal to the default frame, and nothing sent yet |
| `PanTilt.PanTiltHead.SetFrame` | dmx512-tracker.py:51-69 | the array afterwards equals `Encode` of its old contents |
| `PanTilt.PanTiltHead.PointTo` | dmx512-tracker.py:71-82 | the frame becomes the encoding of the wrapped bearing of the lane's target (or of pan 0, tilt 0 without a lane) with the hue, and that frame is appended to the frames sent |
| `Tracker.Arbitrate` | dmx512-tracker.py:119-128 | no lane exactly when neither lane has a target; the hue is 270 exactly when a lane is chosen; a chosen lane has a target; lane 1 is chosen over a present lane 2 only at equal or greater absolute speed, lane 2 over a present lane 1 only at strictly greater |
| `Tracker.ArbitrateUnique` | dmx512-tracker.py:119-128 | the rule in `Arbitrate`'s contract fixes the decision: any decision meeting it is `Arbitrate`'s |
| `Tracker.FreshTargetWins` | dmx512-tracker.py:25 | a target that just appeared (speed 99999) beats a followed target in a lane whose range is under 100049, from either lane |
| `Tracker.ControlStep` | dmx512-tracker.py:119-128 | one loop pass leaves the frame pointed at the target `Arbitrate` chooses, with its hue, and sends it |
| `Tracker.IdleCycleParks` | dmx512-tracker.py:119-121 | with both lanes empty the arbiter chooses no lane and no hue, and the cycle parks the head at pan 43600, tilt 0, colour off |
| `Tracker.TrackingCycleColour` | dmx512-tracker.py:122-128 | with any target present the frame shows R, G, B = 255, 84, 1 and slot 11 at 64 |

## Left out

- The Yoctopuce API: hub registration, log function, sensor and serial-port
  lookup and the `isOnline` checks (`dmx512-tracker.py:85-111`), and the
  serial-port configuration (`dmx512-tracker.py:33-36`). These are calls into a
  library whose behaviour is not visible here.
- The sensor handle and `registerValueCallback` (`dmx512-tracker.py:11`, `:17`),
  and the callback's `fct` argument: the model calls `ValueCallback` directly.
- Parsing the sample text with `int(value)` (`dmx512-tracker.py:20`): the
  sample arrives as an integer.
- The floating-point bearing in `pointTo` (`dmx512-tracker.py:75-78`: square
  root, `atan2`, `asin`, truncation): a `Geometry` function parameter stands
  for it.
- `sendBreak` and `writeArray` (`dmx512-tracker.py:81-82`): the serial output
  is recorded only as the ghost list `sent` of frames written.
- The endless loop's sleep and the status line (`dmx512-tracker.py:115-117`,
  `:129-131`): timing and terminal output. `ControlStep` is one pass of the
  loop without them.
- Sensor callbacks arriving asynchronously, between or during loop passes
  (`dmx512-tracker.py:17`): the model reads both lanes at one instant.
