/**
 * The DMX512 frame that drives a Eurolite LED TMH-46 moving head in its
 * 18-channel mode: 21 slots, pan and tilt as big-endian byte pairs at slots
 * 1-4, and colour at slots 8-13.
 */
module DmxFrame {
  import opened Wrappers
  import ColourWheel

  const FrameLength := 21

  /** The frame the head starts with; slots outside 1-4 and 8-13 keep these mode values. */
  const DefaultFrame: seq<int> := [0, 1, 1, 2, 2, 0, 255, 5, 6, 7, 8, 9, 0, 0, 0, 0, 0, 0, 0, 0, 0]

  /** Slots the encoder writes. */
  predicate Written(i: int) {
    1 <= i <= 4 || 8 <= i <= 13
  }

  predicate IsByte(v: int) {
    0 <= v <= 255
  }

  /** `(v >> 8) & 255`; Python's shift and mask agree with floor division and modulo. */
  function HighByte(v: int): (r: int) {
    (v / 256) % 256
  }

  /** `v & 255`. */
  function LowByte(v: int): (r: int) {
    v % 256
  }

  /** The 16-bit value a big-endian byte pair at `at` and `at + 1` stands for. */
  function Channel16(frame: seq<int>, at: nat): (r: int)
    requires at + 1 < |frame|
  {
    frame[at] * 256 + frame[at + 1]
  }

  /** The byte pair of `v` is `v` modulo 65536: exact for 0 <= v < 65536, truncated otherwise. */
  lemma SplitJoin(v: int)
    ensures IsByte(HighByte(v)) && IsByte(LowByte(v))
    ensures HighByte(v) * 256 + LowByte(v) == v % 65536
  {
    var q := v / 256;
    assert v == 256 * q + v % 256;
    assert q == 256 * (q / 256) + q % 256;
    assert v == 65536 * (q / 256) + (256 * (q % 256) + v % 256);
  }

  /** Slots 8-13: blackout, or R, G, B, the fixed 64, and two zeros. */
  function ColourSlots(hue: Option<int>): (r: seq<int>)
    ensures |r| == 6
    ensures forall i :: 0 <= i < 6 ==> IsByte(r[i])
  {
    match hue
    case None => [0, 0, 0, 0, 0, 0]
    case Some(h) =>
      var rgb := ColourWheel.Rgb(h);
      [rgb.0, rgb.1, rgb.2, 64, 0, 0]
  }

  /** The frame after `setFrame(frame, pan, tilt, hue)`. */
  function Encode(frame: seq<int>, pan: int, tilt: int, hue: Option<int>): (r: seq<int>)
    requires |frame| >= 14
    ensures |r| == |frame|
    ensures forall i :: 0 <= i < |r| && !Written(i) ==> r[i] == frame[i]
    ensures forall i :: 0 <= i < |r| && Written(i) ==> IsByte(r[i])
    ensures Channel16(r, 1) == pan % 65536 && Channel16(r, 3) == tilt % 65536
    ensures r[8..14] == ColourSlots(hue)
  {
    SplitJoin(pan);
    SplitJoin(tilt);
    var c := ColourSlots(hue);
    frame[1 := HighByte(pan)][2 := LowByte(pan)][3 := HighByte(tilt)][4 := LowByte(tilt)]
         [8 := c[0]][9 := c[1]][10 := c[2]][11 := c[3]][12 := c[4]][13 := c[5]]
  }

  /** Pan and tilt that fit in 16 bits are read back exactly from their slots. */
  lemma EncodeRoundTrip(frame: seq<int>, pan: int, tilt: int, hue: Option<int>)
    requires |frame| >= 14
    requires 0 <= pan < 65536 && 0 <= tilt < 65536
    ensures var r := Encode(frame, pan, tilt, hue);
            Channel16(r, 1) == pan && Channel16(r, 3) == tilt
  {
  }

  /** A later encoding overwrites everything an earlier one wrote: the frame keeps no history. */
  lemma EncodeOverwrites(frame: seq<int>, pan: int, tilt: int, hue: Option<int>,
                         pan': int, tilt': int, hue': Option<int>)
    requires |frame| >= 14
    ensures Encode(Encode(frame, pan, tilt, hue), pan', tilt', hue') == Encode(frame, pan', tilt', hue')
  {
    var a := Encode(Encode(frame, pan, tilt, hue), pan', tilt', hue');
    var b := Encode(frame, pan', tilt', hue');
    forall i | 0 <= i < |a|
      ensures a[i] == b[i]
    {
      if 8 <= i <= 13 {
        assert a[i] == a[8..14][i - 8] && b[i] == b[8..14][i - 8];
      } else if 1 <= i <= 4 {
        SplitJoin(pan');
        SplitJoin(tilt');
      }
    }
  }

  /** Without a hue, slots 8-13 are all zero (blackout). */
  lemma EncodeBlackout(frame: seq<int>, pan: int, tilt: int)
    requires |frame| >= 14
    ensures forall i :: 8 <= i <= 13 ==> Encode(frame, pan, tilt, None)[i] == 0
  {
    var r := Encode(frame, pan, tilt, None);
    forall i | 8 <= i <= 13
      ensures r[i] == 0
    {
      assert r[i] == r[8..14][i - 8];
    }
  }

  /** With hue 270, slots 8-13 read 255, 84, 1, 64, 0, 0. */
  lemma EncodeTrackingHue(frame: seq<int>, pan: int, tilt: int)
    requires |frame| >= 14
    ensures Encode(frame, pan, tilt, Some(270))[8..14] == [255, 84, 1, 64, 0, 0]
  {
    ColourWheel.TrackingHue();
  }

  /** Encoding the default frame keeps its length and its mode slots. */
  lemma EncodeDefaultFrame(pan: int, tilt: int, hue: Option<int>)
    ensures var r := Encode(DefaultFrame, pan, tilt, hue);
            |r| == FrameLength && r[0] == 0 && r[5..8] == [0, 255, 5] && r[14..] == [0, 0, 0, 0, 0, 0, 0]
  {
    var r := Encode(DefaultFrame, pan, tilt, hue);
    assert r[5..8] == DefaultFrame[5..8] by {
      assert !Written(5) && !Written(6) && !Written(7);
    }
    assert r[14..] == DefaultFrame[14..] by {
      forall i | 14 <= i < FrameLength
        ensures r[i] == DefaultFrame[i]
      {
        assert !Written(i);
      }
    }
  }
}
