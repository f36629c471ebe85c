/**
 * Python's `colorsys.rgb_to_hls` and `colorsys.hls_to_rgb`, which the
 * colour-theory code calls, stated over exact reals. All three components of
 * each side are fractions in [0,1].
 */
module Colorsys {
  import opened Color

  datatype Hls = Hls(h: real, l: real, s: real)
  datatype RgbFraction = RgbFraction(r: real, g: real, b: real)

  predicate Unit(x: real) { 0.0 <= x <= 1.0 }

  function RMax(x: real, y: real): real { if x >= y then x else y }
  function RMin(x: real, y: real): real { if x <= y then x else y }

  /** Python's `x % 1.0`: the fractional part, which a positive divisor keeps in [0,1). */
  function Frac(x: real): (f: real)
    ensures 0.0 <= f < 1.0
  {
    x - x.Floor as real
  }

  lemma QuotientAtMostOne(a: real, d: real)
    requires 0.0 <= a <= d && d > 0.0
    ensures 0.0 <= a / d <= 1.0
  {
    var q := a / d;
    assert q * d == a;
    if q > 1.0 {
      assert false;
    }
    if q < 0.0 {
      assert false;
    }
  }

  lemma PositiveQuotient(a: real, d: real)
    requires a > 0.0 && d > 0.0
    ensures a / d > 0.0
  {
    var q := a / d;
    assert q * d == a;
    if q <= 0.0 {
      MulNonneg(-q, d);
      assert false;
    }
  }

  /**
   * The saturation of `rgb_to_hls` for a non-grey colour: the spread of the
   * extreme channels over their sum when the lightness is at most one half,
   * over its complement to 2 otherwise.
   */
  function Saturation(maxc: real, minc: real): (s: real)
    requires 0.0 <= minc < maxc <= 1.0
    ensures 0.0 < s <= 1.0
  {
    if (maxc + minc) / 2.0 <= 0.5 then
      QuotientAtMostOne(maxc - minc, maxc + minc);
      PositiveQuotient(maxc - minc, maxc + minc);
      (maxc - minc) / (maxc + minc)
    else
      QuotientAtMostOne(maxc - minc, 2.0 - maxc - minc);
      PositiveQuotient(maxc - minc, 2.0 - maxc - minc);
      (maxc - minc) / (2.0 - maxc - minc)
  }

  /**
   * `colorsys.rgb_to_hls(r, g, b)`: lightness is the mean of the extreme
   * channels; greys have hue and saturation 0; otherwise the hue is the
   * position on the six-sector wheel, wrapped into [0,1) by `% 1.0`.
   */
  function RgbToHls(r: real, g: real, b: real): (res: Hls)
    requires Unit(r) && Unit(g) && Unit(b)
    ensures 0.0 <= res.h < 1.0 && Unit(res.l) && Unit(res.s)
    ensures r == g == b ==> res == Hls(0.0, r, 0.0)
    ensures res.l == (RMax(RMax(r, g), b) + RMin(RMin(r, g), b)) / 2.0
  {
    var maxc := RMax(RMax(r, g), b);
    var minc := RMin(RMin(r, g), b);
    var sumc := maxc + minc;
    var rangec := maxc - minc;
    var l := sumc / 2.0;
    if minc == maxc then
      Hls(0.0, l, 0.0)
    else
      var s := Saturation(maxc, minc);
      var rc := (maxc - r) / rangec;
      var gc := (maxc - g) / rangec;
      var bc := (maxc - b) / rangec;
      var h :=
        if r == maxc then bc - gc
        else if g == maxc then 2.0 + rc - bc
        else 4.0 + gc - rc;
      Hls(Frac(h / 6.0), l, s)
  }

  /** The point a fraction `t` of the way from `m1` to `m2`. */
  function Lerp(m1: real, m2: real, t: real): real
  {
    m1 + (m2 - m1) * t
  }

  lemma LerpBetween(m1: real, m2: real, t: real)
    requires m1 <= m2 && Unit(t)
    ensures m1 <= Lerp(m1, m2, t) <= m2
  {
    MulNonneg(m2 - m1, t);
    MulNonneg(m2 - m1, 1.0 - t);
    assert (m2 - m1) * (1.0 - t) == (m2 - m1) - (m2 - m1) * t;
  }

  /**
   * colorsys's helper `_v(m1, m2, hue)`: on the hue's fractional part it
   * rises linearly from `m1` to `m2` over the first sixth, holds `m2` up to
   * one half, falls back to `m1` by two thirds and holds `m1` after that.
   */
  function Sector(m1: real, m2: real, hue: real): real
  {
    var h := Frac(hue);
    if h < 1.0 / 6.0 then Lerp(m1, m2, h * 6.0)
    else if h < 0.5 then m2
    else if h < 2.0 / 3.0 then Lerp(m1, m2, (2.0 / 3.0 - h) * 6.0)
    else m1
  }

  /** The sector value always lies between its two bounds. */
  lemma SectorBetween(m1: real, m2: real, hue: real)
    requires m1 <= m2
    ensures m1 <= Sector(m1, m2, hue) <= m2
  {
    var h := Frac(hue);
    if h < 1.0 / 6.0 {
      LerpBetween(m1, m2, h * 6.0);
    } else if h < 0.5 {
    } else if h < 2.0 / 3.0 {
      LerpBetween(m1, m2, (2.0 / 3.0 - h) * 6.0);
    }
  }

  /** The two bounds `hls_to_rgb` interpolates between. */
  function Bounds(l: real, s: real): (real, real)
  {
    var m2 := if l <= 0.5 then l * (1.0 + s) else l + s - l * s;
    (2.0 * l - m2, m2)
  }

  /** For a lightness and a saturation in [0,1] both bounds are fractions around the lightness. */
  lemma BoundsAreFractions(l: real, s: real)
    requires Unit(l) && Unit(s)
    ensures var m := Bounds(l, s); 0.0 <= m.0 <= l <= m.1 <= 1.0
  {
    MulNonneg(l, s);
    MulNonneg(l, 1.0 - s);
    MulNonneg(1.0 - l, s);
    MulNonneg(1.0 - l, 1.0 - s);
    assert l * (1.0 - s) == l - l * s;
    assert (1.0 - l) * s == s - l * s;
    assert (1.0 - l) * (1.0 - s) == 1.0 - l - s + l * s;
  }

  /**
   * `colorsys.hls_to_rgb(h, l, s)`: grey when the saturation is 0, otherwise
   * the three channels read the sector function a third of a turn apart.
   * Every channel is a fraction in [0,1].
   */
  function HlsToRgb(h: real, l: real, s: real): (res: RgbFraction)
    requires Unit(l) && Unit(s)
    ensures Unit(res.r) && Unit(res.g) && Unit(res.b)
    ensures s == 0.0 ==> res == RgbFraction(l, l, l)
  {
    if s == 0.0 then
      RgbFraction(l, l, l)
    else
      var m := Bounds(l, s);
      BoundsAreFractions(l, s);
      SectorBetween(m.0, m.1, h + 1.0 / 3.0);
      SectorBetween(m.0, m.1, h);
      SectorBetween(m.0, m.1, h - 1.0 / 3.0);
      RgbFraction(Sector(m.0, m.1, h + 1.0 / 3.0), Sector(m.0, m.1, h), Sector(m.0, m.1, h - 1.0 / 3.0))
  }
}
