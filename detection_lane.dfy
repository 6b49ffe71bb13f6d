/**
 * One detection lane: a range finder looking along a lane, turned into a
 * two-sample motion state (the last accepted distance and the change since the
 * accepted distance before it).
 */
module Detection {
  import opened Wrappers

  /** Distances below this many millimetres are too close to be a target. */
  const MinDist := 50

  /** Speed given to a target on the first accepted sample after an absence. */
  const FreshSpeed := 99999

  /** What the control loop reads of a lane: `event` is the target's distance, if any. */
  datatype LaneState = LaneState(event: Option<int>, speed: int)

  /** A lane as constructed: no target, speed 0. */
  const Initial := LaneState(None, 0)

  function Abs(x: int): (r: int)
    ensures r >= 0 && (r == x || r == -x)
  {
    if x < 0 then -x else x
  }

  predicate InRange(maxDist: int, sample: int) {
    MinDist <= sample <= maxDist
  }

  /** The largest change between two accepted samples of a lane with this range. */
  function SpeedBound(maxDist: int): (r: nat) {
    if maxDist >= MinDist then maxDist - MinDist else 0
  }

  /** What every reachable lane state satisfies. */
  predicate Consistent(s: LaneState, maxDist: int) {
    (s.event.None? || InRange(maxDist, s.event.value)) &&
    (s.speed == FreshSpeed || Abs(s.speed) <= SpeedBound(maxDist))
  }

  /**
   * The state after one sample: a sample out of range clears the target and
   * keeps the old speed; one in range becomes the target, with speed the change
   * from the previous target, or FreshSpeed when there was none.
   */
  function Observe(s: LaneState, maxDist: int, sample: int): (r: LaneState)
    ensures r.event.Some? <==> InRange(maxDist, sample)
    ensures r.event.Some? ==> r.event.value == sample
    ensures !InRange(maxDist, sample) ==> r.speed == s.speed
    ensures Consistent(s, maxDist) ==> Consistent(r, maxDist)
  {
    if sample < MinDist || sample > maxDist then
      LaneState(None, s.speed)
    else if s.event.None? then
      LaneState(Some(sample), FreshSpeed)
    else
      LaneState(Some(sample), sample - s.event.value)
  }

  /** The state after the samples `xs`, delivered in order, starting from `s`. */
  function Replay(s: LaneState, maxDist: int, xs: seq<int>): (r: LaneState)
  {
    if xs == [] then s else Observe(Replay(s, maxDist, xs[..|xs| - 1]), maxDist, xs[|xs| - 1])
  }

  /** Consistency holds after any sequence of samples. */
  lemma {:induction false} ReplayConsistent(s: LaneState, maxDist: int, xs: seq<int>)
    requires Consistent(s, maxDist)
    ensures Consistent(Replay(s, maxDist, xs), maxDist)
  {
    if xs != [] {
      ReplayConsistent(s, maxDist, xs[..|xs| - 1]);
    }
  }

  /** A constructed lane is consistent, whatever its range. */
  lemma InitialConsistent(maxDist: int)
    ensures Consistent(Initial, maxDist)
  {
  }

  /**
   * The speed of a lane read off its sample history alone: 0 before any sample
   * was accepted; otherwise, at the last accepted sample, the change from the
   * sample just before it when that one was accepted too, else FreshSpeed.
   */
  function ExpectedSpeed(maxDist: int, xs: seq<int>): (r: int)
  {
    if xs == [] then 0
    else if !InRange(maxDist, xs[|xs| - 1]) then ExpectedSpeed(maxDist, xs[..|xs| - 1])
    else if |xs| >= 2 && InRange(maxDist, xs[|xs| - 2]) then xs[|xs| - 1] - xs[|xs| - 2]
    else FreshSpeed
  }

  /** The target of a lane is its last sample when that was in range, and none otherwise. */
  lemma ReplayEvent(maxDist: int, xs: seq<int>)
    ensures Replay(Initial, maxDist, xs).event ==
      if xs != [] && InRange(maxDist, xs[|xs| - 1]) then Some(xs[|xs| - 1]) else None
  {
  }

  /** The state machine's speed agrees with the history-based definition. */
  lemma {:induction false} ReplaySpeed(maxDist: int, xs: seq<int>)
    ensures Replay(Initial, maxDist, xs).speed == ExpectedSpeed(maxDist, xs)
  {
    if xs != [] {
      var prefix := xs[..|xs| - 1];
      ReplaySpeed(maxDist, prefix);
      ReplayEvent(maxDist, prefix);
      if |xs| >= 2 {
        assert prefix[|prefix| - 1] == xs[|xs| - 2];
      }
    }
  }

  /** Two accepted samples in a row leave their difference as the speed. */
  lemma SpeedOfTwoSamples(maxDist: int, xs: seq<int>, d1: int, d2: int)
    requires InRange(maxDist, d1) && InRange(maxDist, d2)
    ensures Replay(Initial, maxDist, xs + [d1, d2]).speed == d2 - d1
  {
    var ys := xs + [d1, d2];
    ReplaySpeed(maxDist, ys);
    assert ys[|ys| - 1] == d2 && ys[|ys| - 2] == d1;
  }

  /** A sample accepted right after an absence (or first of all) gives FreshSpeed. */
  lemma SpeedAfterAbsence(maxDist: int, xs: seq<int>, d: int)
    requires InRange(maxDist, d)
    requires Replay(Initial, maxDist, xs).event.None?
    ensures Replay(Initial, maxDist, xs + [d]) == LaneState(Some(d), FreshSpeed)
  {
    assert (xs + [d])[..|xs + [d]| - 1] == xs;
  }

  /**
   * A lane in the source: its geometry is fixed at construction, and the
   * sensor's value callback updates `event` and `speed`.
   */
  class DetectionLane {
    /** Lateral offset of the lane from the head's axis, in millimetres. */
    const shift: int
    /** Longest distance accepted as a target, in millimetres. */
    const maxDist: int
    var event: Option<int>
    var speed: int

    function State(): (r: LaneState)
      reads this
    {
      LaneState(event, speed)
    }

    ghost predicate Valid()
      reads this
    {
      Consistent(State(), maxDist)
    }

    constructor (shift: int, maxDist: int)
      ensures this.shift == shift && this.maxDist == maxDist
      ensures State() == Initial
      ensures Valid()
    {
      this.shift := shift;
      this.maxDist := maxDist;
      event := None;
      speed := 0;
    }

    /** Takes one (already parsed) distance sample from the range finder. */
    method ValueCallback(newDist: int)
      requires Valid()
      modifies this
      ensures Valid()
      ensures State() == Observe(old(State()), maxDist, newDist)
    {
      if newDist < MinDist || newDist > maxDist {
        event := None;
        return;
      }
      if event.None? {
        speed := FreshSpeed;
      } else {
        speed := newDist - event.value;
      }
      event := Some(newDist);
    }
  }
}
