/**
 * The head's colour wheel: a hue in 0..255 (taken modulo 256) mapped to one
 * RGB channel intensity. Three copies 85 hues apart give R, G and B.
 */
module ColourWheel {

  /**
   * The rising edge of a channel over hues 0..42: `int(254 * 6 * h / 255) + 1`.
   * For non-negative `h` the truncated float quotient is the integer quotient.
   */
  function Ramp(h: int): (r: int)
    requires 0 <= h <= 42
    ensures 1 <= r <= 252
  {
    1524 * h / 255 + 1
  }

  /** Channel intensity for hue `h`: a ramp up, a plateau at 255, a ramp down, a floor at 1. */
  function Hue2Rgb(h: int): (r: int)
    ensures 1 <= r <= 255
  {
    var h := h % 256;
    if h >= 170 then 1
    else if h > 42 then
      if h <= 127 then 255 else Ramp(170 - h)
    else Ramp(h)
  }

  /** The ramp starts at 1 and ends at 252, three short of the plateau. */
  lemma RampEnds()
    ensures Ramp(0) == 1 && Ramp(42) == 252
  {
  }

  /** The ramp is strictly increasing, by at least 5 per hue step. */
  lemma RampIncreasing(a: int, b: int)
    requires 0 <= a < b <= 42
    ensures Ramp(a) + 5 * (b - a) <= Ramp(b)
  {
    var qa, qb := 1524 * a / 255, 1524 * b / 255;
    assert 1524 * a < 255 * (qa + 1);
    assert 255 * qb <= 1524 * b;
    assert 1524 * (b - a) >= 1524;
    assert 255 * (qb - qa) > 1524 * (b - a) - 255;
    assert 255 * (qb - qa) > 1269 * (b - a) by {
      assert 1524 * (b - a) - 255 >= 1269 * (b - a) + 255 * ((b - a) - 1);
    }
  }

  /** Only the hue modulo 256 matters. */
  lemma Hue2RgbPeriodic(h: int, k: int)
    ensures Hue2Rgb(h + 256 * k) == Hue2Rgb(h)
  {
    assert (h + 256 * k) % 256 == h % 256 by {
      var q := h / 256;
      assert h + 256 * k == 256 * (q + k) + h % 256;
    }
  }

  /** Reduced hues 170..255 give the floor value 1; reduced hues 43..127 give 255. */
  lemma Hue2RgbFloorAndPlateau(h: int)
    ensures 170 <= h % 256 ==> Hue2Rgb(h) == 1
    ensures 43 <= h % 256 <= 127 ==> Hue2Rgb(h) == 255
  {
  }

  /** Reduced hues 0..42 follow the ramp, and 128..169 follow it backwards from 170. */
  lemma Hue2RgbRamps(h: int)
    ensures h % 256 <= 42 ==> Hue2Rgb(h) == Ramp(h % 256)
    ensures 128 <= h % 256 <= 169 ==> Hue2Rgb(h) == Ramp(170 - h % 256)
  {
  }

  /**
   * Every channel is symmetric about hue 85: hue x and hue 170 - x give the
   * same intensity, so the falling edge mirrors the rising one.
   */
  lemma Hue2RgbMirror(x: int)
    ensures Hue2Rgb(x) == Hue2Rgb(170 - x)
  {
    var q, y := x / 256, x % 256;
    assert 170 - x == 256 * (-q) + (170 - y);
    if y <= 170 {
      assert (170 - x) % 256 == 170 - y;
    } else {
      assert 170 - x == 256 * (-q - 1) + (426 - y);
      assert (170 - x) % 256 == 426 - y;
    }
  }

  /** Red, green and blue of a hue, as the head drives them. */
  function Rgb(hue: int): (r: (int, int, int))
    ensures 1 <= r.0 <= 255 && 1 <= r.1 <= 255 && 1 <= r.2 <= 255
  {
    (Hue2Rgb(hue + 85), Hue2Rgb(hue), Hue2Rgb(hue + 170))
  }

  /** Reduces a shifted hue explicitly, for the lemmas below. */
  lemma ShiftedHue(hue: int, d: int)
    requires 0 <= d < 256
    ensures var x := hue % 256;
            (hue + d) % 256 == if x + d < 256 then x + d else x + d - 256
  {
    var x := hue % 256;
    var q := hue / 256;
    assert hue + d == 256 * q + (x + d);
    if x + d >= 256 {
      assert hue + d == 256 * (q + 1) + (x + d - 256);
    }
  }

  /** Every hue is fully saturated: one of the three channels sits at the floor value 1. */
  lemma SomeChannelAtFloor(hue: int)
    ensures Rgb(hue).0 == 1 || Rgb(hue).1 == 1 || Rgb(hue).2 == 1
  {
    ShiftedHue(hue, 85);
    ShiftedHue(hue, 170);
  }

  /**
   * Every hue but one (128 modulo 256) drives a channel at full 255; at 128 the
   * two lit channels stop at the ramp's top, 252.
   */
  lemma SomeChannelFull(hue: int)
    ensures hue % 256 != 128 ==> Rgb(hue).0 == 255 || Rgb(hue).1 == 255 || Rgb(hue).2 == 255
    ensures hue % 256 == 128 ==> Rgb(hue) == (1, 252, 252)
  {
    ShiftedHue(hue, 85);
    ShiftedHue(hue, 170);
  }

  /** The hue the tracker uses, 270, is orange: R, G, B = 255, 84, 1. */
  lemma TrackingHue()
    ensures Rgb(270) == (255, 84, 1)
  {
  }
}
