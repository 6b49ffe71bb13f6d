/**
 * The control loop's choice of which lane's target the head follows, and one
 * cycle of the loop: choose, point, send.
 */
module Tracker {
  import opened Wrappers
  import opened Detection
  import opened PanTilt
  import DmxFrame

  /** Hue used whenever a target is followed. */
  const TrackingHue := 270

  datatype LaneId = Lane1 | Lane2

  /** The lane to follow, if any, and the hue to show. */
  datatype Decision = Decision(lane: Option<LaneId>, hue: Option<int>)

  /**
   * Follow the only lane with a target; with targets in both lanes, follow the
   * faster one, lane 1 on a tie; with none, follow nothing and turn the colour off.
   */
  function Arbitrate(lane1: LaneState, lane2: LaneState): (d: Decision)
    ensures d.lane.None? <==> lane1.event.None? && lane2.event.None?
    ensures d.hue == if d.lane.Some? then Some(TrackingHue) else None
    ensures d.lane == Some(Lane1) ==> lane1.event.Some?
    ensures d.lane == Some(Lane2) ==> lane2.event.Some?
    ensures d.lane == Some(Lane1) && lane2.event.Some? ==> Abs(lane1.speed) >= Abs(lane2.speed)
    ensures d.lane == Some(Lane2) && lane1.event.Some? ==> Abs(lane2.speed) > Abs(lane1.speed)
  {
    if lane2.event.None? then
      if lane1.event.None? then Decision(None, None)
      else Decision(Some(Lane1), Some(TrackingHue))
    else if lane1.event.None? || Abs(lane1.speed) < Abs(lane2.speed) then
      Decision(Some(Lane2), Some(TrackingHue))
    else
      Decision(Some(Lane1), Some(TrackingHue))
  }

  /** The rule above admits exactly one decision for each pair of lanes. */
  lemma ArbitrateUnique(lane1: LaneState, lane2: LaneState, d: Decision)
    requires d.lane.None? <==> lane1.event.None? && lane2.event.None?
    requires d.hue == if d.lane.Some? then Some(TrackingHue) else None
    requires d.lane == Some(Lane1) ==> lane1.event.Some?
    requires d.lane == Some(Lane2) ==> lane2.event.Some?
    requires d.lane == Some(Lane1) && lane2.event.Some? ==> Abs(lane1.speed) >= Abs(lane2.speed)
    requires d.lane == Some(Lane2) && lane1.event.Some? ==> Abs(lane2.speed) > Abs(lane1.speed)
    ensures d == Arbitrate(lane1, lane2)
  {
    var e := Arbitrate(lane1, lane2);
    match d.lane
    case None =>
    case Some(Lane1) =>
      assert e.lane == Some(Lane1);
    case Some(Lane2) =>
      assert e.lane == Some(Lane2);
  }

  /**
   * A target that has just appeared (speed FreshSpeed) wins over a target
   * already followed in the other lane, when that lane's range is under
   * FreshSpeed + MinDist millimetres; against another fresh target, lane 1 wins.
   */
  lemma FreshTargetWins(s: LaneState, maxDist: int, newcomer: LaneState)
    requires Consistent(s, maxDist) && maxDist < FreshSpeed + MinDist
    requires s.event.Some? && s.speed != FreshSpeed
    requires newcomer.event.Some? && newcomer.speed == FreshSpeed
    ensures Arbitrate(s, newcomer).lane == Some(Lane2)
    ensures Arbitrate(newcomer, s).lane == Some(Lane1)
  {
  }

  /** The shift and current target of the chosen lane, for the head. */
  function Target(d: Decision, lane1: DetectionLane, lane2: DetectionLane): (r: Option<(int, int)>)
    reads lane1, lane2
    requires d.lane == Some(Lane1) ==> lane1.event.Some?
    requires d.lane == Some(Lane2) ==> lane2.event.Some?
  {
    match d.lane
    case None => None
    case Some(Lane1) => Some((lane1.shift, lane1.event.value))
    case Some(Lane2) => Some((lane2.shift, lane2.event.value))
  }

  /** One pass of the main loop: choose a lane from the two lanes' state and point the head. */
  method ControlStep(lane1: DetectionLane, lane2: DetectionLane, head: PanTiltHead, geometry: Geometry)
    requires head.Valid()
    modifies head, head.dmxFrame
    ensures head.Valid()
    ensures var d := Arbitrate(lane1.State(), lane2.State());
            head.dmxFrame[..] == Pointed(old(head.dmxFrame[..]), geometry, head.height, head.distance,
                                         Target(d, lane1, lane2), d.hue)
    ensures head.sent == old(head.sent) + [head.dmxFrame[..]]
  {
    if lane2.event.None? {
      if lane1.event.None? {
        head.PointTo(null, None, geometry);
      } else {
        head.PointTo(lane1, Some(TrackingHue), geometry);
      }
    } else {
      if lane1.event.None? || Abs(lane1.speed) < Abs(lane2.speed) {
        head.PointTo(lane2, Some(TrackingHue), geometry);
      } else {
        head.PointTo(lane1, Some(TrackingHue), geometry);
      }
    }
  }

  /**
   * A cycle with both lanes empty parks the head at pan 43600, tilt 0, with
   * the colour off, whatever the geometry.
   */
  lemma IdleCycleParks(lane1: LaneState, lane2: LaneState, frame: seq<int>, geometry: Geometry,
                       height: int, distance: int)
    requires lane1.event.None? && lane2.event.None?
    requires |frame| >= 14
    ensures Arbitrate(lane1, lane2) == Decision(None, None)
    ensures var r := Pointed(frame, geometry, height, distance, None, Arbitrate(lane1, lane2).hue);
            r[1..5] == [170, 80, 0, 0] && r[8..14] == [0, 0, 0, 0, 0, 0]
  {
    ParkedFrame(frame, geometry, height, distance);
  }

  /**
   * Whenever a target is followed, the frame shows R, G, B = 255, 84, 1 with
   * slot 11 at 64.
   */
  lemma TrackingCycleColour(lane1: LaneState, lane2: LaneState, frame: seq<int>, geometry: Geometry,
                            height: int, distance: int, target: Option<(int, int)>)
    requires lane1.event.Some? || lane2.event.Some?
    requires |frame| >= 14
    ensures Pointed(frame, geometry, height, distance, target, Arbitrate(lane1, lane2).hue)[8..14]
            == [255, 84, 1, 64, 0, 0]
  {
    var (pan, tilt) := RawPose(geometry, height, distance, target);
    DmxFrame.EncodeTrackingHue(frame, WrapPan(pan), tilt);
  }
}
