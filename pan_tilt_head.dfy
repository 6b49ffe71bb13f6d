/**
 * The moving head: its position relative to the lanes, the DMX frame it
 * keeps, and the step that points it at a lane's target.
 */
module PanTilt {
  import opened Wrappers
  import opened DmxFrame
  import Detection

  /** Pan units per half turn; a full turn is twice this. */
  const HalfTurn := 21800

  /**
   * The floating-point bearing of the source (square root, atan2, asin and
   * truncation), taken as given: from a lane's shift, the signed distance from
   * the head's foot to the target and the head's height, the raw pan and tilt.
   */
  type Geometry = (int, int, int) -> (int, int)

  /**
   * Moves a pan below one half turn forward by a full turn, so the head turns
   * the forward way round; the bearing it stands for does not change.
   */
  function WrapPan(pan: int): (r: int)
    ensures r == pan || r == pan + 2 * HalfTurn
    ensures r % (2 * HalfTurn) == pan % (2 * HalfTurn)
    ensures pan >= HalfTurn ==> r == pan
    ensures pan < HalfTurn ==> r == pan + 2 * HalfTurn
    ensures pan >= -HalfTurn ==> r >= HalfTurn
  {
    if pan < HalfTurn then pan + 2 * HalfTurn else pan
  }

  /** The pan of a raw bearing in 0..43600 (a full turn) after wrapping fits in 16 bits. */
  lemma WrappedPanFits(pan: int)
    requires 0 <= pan <= 2 * HalfTurn
    ensures HalfTurn <= WrapPan(pan) < 65536
  {
  }

  /** Raw pan and tilt before wrapping: (0, 0) without a target. */
  function RawPose(geometry: Geometry, height: int, distance: int, target: Option<(int, int)>): (r: (int, int))
  {
    match target
    case None => (0, 0)
    case Some((shift, event)) => geometry(shift, distance - event, height)
  }

  /** The frame after pointing at `target` (a lane's shift and distance) with `hue`. */
  function Pointed(frame: seq<int>, geometry: Geometry, height: int, distance: int,
                   target: Option<(int, int)>, hue: Option<int>): (r: seq<int>)
    requires |frame| >= 14
    ensures |r| == |frame|
    ensures forall i :: 0 <= i < |r| && !Written(i) ==> r[i] == frame[i]
    ensures Channel16(r, 1) == WrapPan(RawPose(geometry, height, distance, target).0) % 65536
    ensures Channel16(r, 3) == RawPose(geometry, height, distance, target).1 % 65536
    ensures r[8..14] == ColourSlots(hue)
  {
    var (pan, tilt) := RawPose(geometry, height, distance, target);
    Encode(frame, WrapPan(pan), tilt, hue)
  }

  /** With no target the head parks at pan 43600 (bytes 170, 80) and tilt 0, lights out. */
  lemma ParkedFrame(frame: seq<int>, geometry: Geometry, height: int, distance: int)
    requires |frame| >= 14
    ensures var r := Pointed(frame, geometry, height, distance, None, None);
            r[1..5] == [170, 80, 0, 0] && r[8..14] == [0, 0, 0, 0, 0, 0]
  {
    var r := Pointed(frame, geometry, height, distance, None, None);
    SplitJoin(43600);
    assert r[1] == HighByte(43600) && r[2] == LowByte(43600);
  }

  /**
   * When the geometry yields a pan within one turn and a tilt within 16 bits,
   * the frame carries the wrapped pan and the tilt exactly.
   */
  lemma PointedExact(frame: seq<int>, geometry: Geometry, height: int, distance: int,
                     target: Option<(int, int)>, hue: Option<int>)
    requires |frame| >= 14
    requires var (pan, tilt) := RawPose(geometry, height, distance, target);
             0 <= pan <= 2 * HalfTurn && 0 <= tilt < 65536
    ensures var (pan, tilt) := RawPose(geometry, height, distance, target);
            var r := Pointed(frame, geometry, height, distance, target, hue);
            HalfTurn <= Channel16(r, 1) && Channel16(r, 1) == WrapPan(pan) && Channel16(r, 3) == tilt
  {
    var (pan, tilt) := RawPose(geometry, height, distance, target);
    WrappedPanFits(pan);
    EncodeRoundTrip(frame, WrapPan(pan), tilt, hue);
  }

  class PanTiltHead {
    /** Height of the head above the lanes, in millimetres. */
    const height: int
    /** Distance from the sensors to the head's foot along the lanes, in millimetres. */
    const distance: int
    /** The DMX frame, updated in place every cycle. */
    const dmxFrame: array<int>
    /** The frames written to the DMX port so far, each after a break. */
    ghost var sent: seq<seq<int>>

    ghost predicate Valid()
      reads this
    {
      dmxFrame.Length == FrameLength
    }

    constructor (height: int, distance: int)
      ensures this.height == height && this.distance == distance
      ensures Valid() && fresh(dmxFrame)
      ensures dmxFrame[..] == DefaultFrame && sent == []
    {
      this.height := height;
      this.distance := distance;
      dmxFrame := new int[FrameLength](i requires 0 <= i < FrameLength => DefaultFrame[i]);
      sent := [];
      new;
      assert dmxFrame[..] == DefaultFrame;
    }

    /** Writes pan, tilt and colour into `frame` in place. */
    method SetFrame(frame: array<int>, pan: int, tilt: int, hue: Option<int>)
      requires frame.Length >= 14
      modifies frame
      ensures frame[..] == Encode(old(frame[..]), pan, tilt, hue)
    {
      frame[1] := (pan / 256) % 256;
      frame[2] := pan % 256;
      frame[3] := (tilt / 256) % 256;
      frame[4] := tilt % 256;
      if hue.None? {
        frame[8] := 0;
        frame[9] := 0;
        frame[10] := 0;
        frame[11] := 0;
        frame[12] := 0;
        frame[13] := 0;
      } else {
        frame[8] := ColourWheel.Hue2Rgb(hue.value + 85);
        frame[9] := ColourWheel.Hue2Rgb(hue.value);
        frame[10] := ColourWheel.Hue2Rgb(hue.value + 170);
        frame[11] := 64;
        frame[12] := 0;
        frame[13] := 0;
      }
    }

    /**
     * Points the head at `lane`'s target (or parks it when `lane` is null),
     * sets the colour and sends the frame.
     */
    method PointTo(lane: Detection.DetectionLane?, hue: Option<int>, geometry: Geometry)
      requires Valid()
      requires lane != null ==> lane.event.Some?
      modifies this, dmxFrame
      ensures Valid()
      ensures var target := if lane == null then None else Some((lane.shift, lane.event.value));
              dmxFrame[..] == Pointed(old(dmxFrame[..]), geometry, height, distance, target, hue)
      ensures sent == old(sent) + [dmxFrame[..]]
    {
      var pan, tilt := 0, 0;
      if lane != null {
        var dist := distance - lane.event.value;
        var pose := geometry(lane.shift, dist, height);
        pan, tilt := pose.0, pose.1;
      }
      if pan < HalfTurn {
        pan := pan + 2 * HalfTurn;
      }
      SetFrame(dmxFrame, pan, tilt, hue);
      sent := sent + [dmxFrame[..]];
    }
  }
}
