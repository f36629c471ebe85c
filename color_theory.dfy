/**
 * Colour-space conversions, Goethe's colour psychology, Itten's harmonies,
 * the colour-blindness simulators and the combined analysis record
 * (`color_theory.py`). Channel fractions are exact reals; Python's `int()`
 * is `Trunc`.
 */
module ColorTheory {
  import opened Color
  import Colorsys

  datatype Hsl = Hsl(h: int, s: int, l: int)
  datatype Cmyk = Cmyk(c: int, m: int, y: int, k: int)
  datatype Lab = Lab(l: int, a: int, b: int)

  /** A channel as the fraction `channel / 255.0`. */
  function Fraction(channel: int): real { channel as real / 255.0 }

  /** Fractions keep the order of the channels, so their extremes are the fractions of the extremes. */
  lemma FractionExtremes(c: Rgb)
    ensures Colorsys.RMax(Colorsys.RMax(Fraction(c.r), Fraction(c.g)), Fraction(c.b)) == Fraction(MaxChannel(c))
    ensures Colorsys.RMin(Colorsys.RMin(Fraction(c.r), Fraction(c.g)), Fraction(c.b)) == Fraction(MinChannel(c))
  {
  }

  // ---------------------------------------------------------------- HSL

  /**
   * `rgb_to_hsl`: hue in whole degrees, saturation and lightness in whole
   * percent, each truncated.
   */
  function RgbToHsl(c: Rgb): (hsl: Hsl)
    requires Valid(c)
    ensures 0 <= hsl.h < 360 && 0 <= hsl.s <= 100 && 0 <= hsl.l <= 100
    ensures c.r == c.g == c.b ==> hsl.h == 0 && hsl.s == 0
  {
    var hls := Colorsys.RgbToHls(Fraction(c.r), Fraction(c.g), Fraction(c.b));
    Hsl(Trunc(hls.h * 360.0), Trunc(hls.s * 100.0), Trunc(hls.l * 100.0))
  }

  /** The lightness percentage is the truncated mean of the extreme channels, scaled to 100. */
  lemma {:induction false} HslLightness(c: Rgb)
    requires Valid(c)
    ensures RgbToHsl(c).l == 100 * (MaxChannel(c) + MinChannel(c)) / 510
  {
    FractionExtremes(c);
    var hls := Colorsys.RgbToHls(Fraction(c.r), Fraction(c.g), Fraction(c.b));
    var z := hls.l * 100.0;
    assert z * 510.0 == (100 * (MaxChannel(c) + MinChannel(c))) as real;
    FloorFromProduct(z, 510, 100 * (MaxChannel(c) + MinChannel(c)));
  }

  // ---------------------------------------------------------------- CMYK

  /** `k = 1 - max(r, g, b)` on the channel fractions. */
  function CmykKey(c: Rgb): real
  {
    1.0 - Colorsys.RMax(Colorsys.RMax(Fraction(c.r), Fraction(c.g)), Fraction(c.b))
  }

  /** `(1 - x - k) / (1 - k) if (1 - k) != 0 else 0`. */
  function CmykComponent(x: real, k: real): real
  {
    if 1.0 - k != 0.0 then (1.0 - x - k) / (1.0 - k) else 0.0
  }

  /** For a colour that is not black the guard `(1 - k) != 0` always holds: `1 - k` is the largest fraction. */
  lemma CmykGuardHolds(c: Rgb)
    requires Valid(c) && c != Rgb(0, 0, 0)
    ensures 1.0 - CmykKey(c) == Fraction(MaxChannel(c)) > 0.0
  {
    FractionExtremes(c);
  }

  /** The percentage of one of c, m, y, scaled by the largest channel, is a whole number. */
  lemma CmykPercent(c: Rgb, x: int)
    requires Valid(c) && c != Rgb(0, 0, 0) && 0 <= x <= MaxChannel(c)
    ensures var z := CmykComponent(Fraction(x), CmykKey(c)) * 100.0;
      z >= 0.0 && z * (MaxChannel(c) as real) == (100 * (MaxChannel(c) - x)) as real
  {
    var mx := MaxChannel(c);
    CmykGuardHolds(c);
    var k := CmykKey(c);
    var f := 1.0 - k;
    var num := 1.0 - Fraction(x) - k;
    assert f == Fraction(mx) && num == Fraction(mx) - Fraction(x);
    FractionScale(mx);
    FractionScale(x);
    ScaledQuotient(num, f, mx as real, (mx - x) as real);
  }

  /** One of c, m, y for a channel `x` of a colour that is not black, in integer terms. */
  lemma {:induction false} CmykComponentIntegerForm(c: Rgb, x: int)
    requires Valid(c) && c != Rgb(0, 0, 0) && 0 <= x <= MaxChannel(c)
    ensures MaxChannel(c) > 0
    ensures Trunc(CmykComponent(Fraction(x), CmykKey(c)) * 100.0)
            == 100 * (MaxChannel(c) - x) / MaxChannel(c)
  {
    CmykPercent(c, x);
    FloorFromProduct(CmykComponent(Fraction(x), CmykKey(c)) * 100.0, MaxChannel(c), 100 * (MaxChannel(c) - x));
  }

  lemma FractionScale(x: int)
    ensures Fraction(x) * 255.0 == x as real
  {
  }

  /** With `f = m/255` and `num = d/255`, the percentage `100 num/f` times `m` is `100 d`. */
  lemma ScaledQuotient(num: real, f: real, m: real, d: real)
    requires f > 0.0 && f * 255.0 == m && num * 255.0 == d
    ensures (num / f) * 100.0 * m == 100.0 * d
    ensures num >= 0.0 ==> (num / f) * 100.0 >= 0.0
  {
    var q := num / f;
    assert q * f == num;
    if num >= 0.0 && q < 0.0 {
      MulNonneg(-q, f);
      assert false;
    }
    calc {
      q * 100.0 * m;
      q * 100.0 * (f * 255.0);
      100.0 * 255.0 * (q * f);
      100.0 * d;
    }
  }

  lemma ZeroQuotient(m: int)
    requires m > 0
    ensures 0 / m == 0
  {
  }

  lemma PercentQuotient(a: int, m: int)
    requires m > 0 && 0 <= a <= 100 * m
    ensures 0 <= a / m <= 100
  {
  }

  /**
   * `rgb_to_cmyk`: black is `(0, 0, 0, 100)`; otherwise, with `M` the
   * largest channel, `k = 100(255 - M)/255` and each of c, m, y is
   * `100(M - x)/M` for its channel `x`, all truncated, all in [0,100].
   */
  function RgbToCmyk(c: Rgb): (res: Cmyk)
    requires Valid(c)
    ensures c == Rgb(0, 0, 0) ==> res == Cmyk(0, 0, 0, 100)
    ensures c != Rgb(0, 0, 0) ==>
      var mx := MaxChannel(c);
      && mx > 0
      && res.c == 100 * (mx - c.r) / mx
      && res.m == 100 * (mx - c.g) / mx
      && res.y == 100 * (mx - c.b) / mx
      && res.k == 100 * (255 - mx) / 255
    ensures 0 <= res.c <= 100 && 0 <= res.m <= 100 && 0 <= res.y <= 100 && 0 <= res.k <= 100
  {
    if c.r == 0 && c.g == 0 && c.b == 0 then Cmyk(0, 0, 0, 100)
    else
      var mx := MaxChannel(c);
      var k := CmykKey(c);
      CmykComponentIntegerForm(c, c.r);
      CmykComponentIntegerForm(c, c.g);
      CmykComponentIntegerForm(c, c.b);
      CmykGuardHolds(c);
      assert (k * 100.0) * 255.0 == (100 * (255 - mx)) as real;
      FloorFromProduct(k * 100.0, 255, 100 * (255 - mx));
      PercentQuotient(100 * (mx - c.r), mx);
      PercentQuotient(100 * (mx - c.g), mx);
      PercentQuotient(100 * (mx - c.b), mx);
      Cmyk(Trunc(CmykComponent(Fraction(c.r), k) * 100.0),
           Trunc(CmykComponent(Fraction(c.g), k) * 100.0),
           Trunc(CmykComponent(Fraction(c.b), k) * 100.0),
           Trunc(k * 100.0))
  }

  /** The channel that reaches the maximum has no ink of its own colour, and white needs no ink at all. */
  lemma CmykExtremes(c: Rgb)
    requires Valid(c) && c != Rgb(0, 0, 0)
    ensures c.r == MaxChannel(c) ==> RgbToCmyk(c).c == 0
    ensures c.g == MaxChannel(c) ==> RgbToCmyk(c).m == 0
    ensures c.b == MaxChannel(c) ==> RgbToCmyk(c).y == 0
    ensures c == Rgb(255, 255, 255) ==> RgbToCmyk(c) == Cmyk(0, 0, 0, 0)
  {
    ZeroQuotient(MaxChannel(c));
  }

  // ---------------------------------------------------------------- LAB

  /** Python's `max(lo, min(hi, v))`. */
  function Clamp(v: int, lo: int, hi: int): int
  {
    Max(lo, Min(hi, v))
  }

  /**
   * `rgb_to_lab`: the simplified XYZ matrix, then the LAB formulas with
   * `cbrt` standing for `v ** (1/3)`, each result truncated and clamped to
   * L in [0,100] and a, b in [-128,127].
   */
  function RgbToLab(c: Rgb, cbrt: real -> real): (lab: Lab)
    ensures 0 <= lab.l <= 100 && -128 <= lab.a <= 127 && -128 <= lab.b <= 127
  {
    var r, g, b := Fraction(c.r), Fraction(c.g), Fraction(c.b);
    var x := r * 0.4124 + g * 0.3576 + b * 0.1805;
    var y := r * 0.2126 + g * 0.7152 + b * 0.0722;
    var z := r * 0.0193 + g * 0.1192 + b * 0.9505;
    var l := if y > 0.008856 then Trunc(116.0 * cbrt(y) - 16.0) else Trunc(903.3 * y);
    var a := Trunc(500.0 * (cbrt(x) - cbrt(y)));
    var bLab := Trunc(200.0 * (cbrt(y) - cbrt(z)));
    Lab(Clamp(l, 0, 100), Clamp(a, -128, 127), Clamp(bLab, -128, 127))
  }

  /** Black lies below the linear threshold and has lightness 0 whatever the cube root. */
  lemma LabOfBlack(cbrt: real -> real)
    ensures RgbToLab(Rgb(0, 0, 0), cbrt).l == 0
  {
  }

  // ---------------------------------------------------------------- Goethe

  /** The three texts of a colour-psychology entry. */
  datatype Tone = Tone(emotion: string, character: string, effect: string)

  /** The six keys of `COLOR_EMOTIONS`; `Key()` is the dictionary's string key. */
  datatype Bucket = Red | Orange | Yellow | Green | Blue | Violet
  {
    function Key(): string
    {
      match this
      case Red => "red"
      case Orange => "orange"
      case Yellow => "yellow"
      case Green => "green"
      case Blue => "blue"
      case Violet => "violet"
    }
  }

  /** `COLOR_EMOTIONS` as the class declares it. */
  function InitialTone(b: Bucket): Tone
  {
    match b
    case Red => Tone("Kraft, Leidenschaft, Energie", "Aktiv, Anregend", "Stimulierend")
    case Orange => Tone("Freude, Wärme, Optimismus", "Lebhaft, Gesellig", "Belebend")
    case Yellow => Tone("Heiterkeit, Verstand, Erleuchtung", "Heiter, Warm", "Erhebend")
    case Blue => Tone("Ruhe, Tiefe, Melancholie", "Passiv, Beruhigend", "Besänftigend")
    case Violet => Tone("Mystik, Spiritualität, Würde", "Unruhig, Sehnsüchtig", "Nachdenklich")
    case Green => Tone("Zufriedenheit, Ruhe, Natur", "Neutral, Ausgleichend", "Beruhigend")
  }

  /** The default of the `.get` lookup. */
  const NeutralTone: Tone := Tone("Neutral", "Ausgeglichen", "Harmonisch")

  /** The hue range each bucket covers, in whole degrees. */
  predicate InBucket(b: Bucket, h: int)
  {
    match b
    case Red => h < 15 || h >= 345
    case Orange => 15 <= h < 45
    case Yellow => 45 <= h < 75
    case Green => 75 <= h < 150
    case Blue => 150 <= h < 250
    case Violet => 250 <= h < 345
  }

  /** The dominant colour category of a hue: the first matching branch of the cascade. */
  function HueBucket(h: int): (b: Bucket)
    ensures InBucket(b, h)
  {
    if h < 15 || h >= 345 then Red
    else if h < 45 then Orange
    else if h < 75 then Yellow
    else if h < 150 then Green
    else if h < 250 then Blue
    else Violet
  }

  /**
   * The six buckets partition the hue circle: every hue lies in exactly
   * one bucket, the one the cascade picks. So the `.get` default is never
   * needed while the table holds all six keys.
   */
  lemma BucketsPartition(h: int)
    ensures forall b: Bucket :: InBucket(b, h) <==> b == HueBucket(h)
  {
  }

  /** The qualifiers appended for low saturation and extreme lightness. */
  function Qualify(base: Tone, hsl: Hsl): (t: Tone)
    ensures t.emotion == base.emotion
    ensures |base.character| <= |t.character| && t.character[..|base.character|] == base.character
    ensures |base.effect| <= |t.effect| && t.effect[..|base.effect|] == base.effect
    ensures hsl.s < 30 <==> t.character != base.character
    ensures hsl.s < 30 ==> t.character[|base.character|..] == ", Gedämpft"
    ensures 20 <= hsl.l <= 80 <==> t.effect == base.effect
    ensures hsl.l > 80 ==> t.effect[|base.effect|..] == ", Sanft"
    ensures hsl.l < 20 ==> t.effect[|base.effect|..] == ", Intensiv"
  {
    Tone(base.emotion,
         base.character + (if hsl.s < 30 then ", Gedämpft" else ""),
         base.effect + (if hsl.l > 80 then ", Sanft" else if hsl.l < 20 then ", Intensiv" else ""))
  }

  /** One mutable entry of the table (a Python `dict` with three keys). */
  class Entry {
    var emotion: string
    var character: string
    var effect: string

    constructor (t: Tone)
      ensures Text() == t
    {
      emotion, character, effect := t.emotion, t.character, t.effect;
    }

    function Text(): Tone
      reads this
    {
      Tone(emotion, character, effect)
    }
  }

  /**
   * `GoetheFarbenlehre` with its class-level table `COLOR_EMOTIONS`. The
   * map itself never changes, but the entries it holds are objects that
   * `AnalyzeColorPsychology` returns and updates in place.
   */
  class GoetheFarbenlehre {
    const emotions: map<Bucket, Entry>

    /** All six buckets are keys, and no two buckets share an entry object. */
    ghost predicate Valid()
      reads this
    {
      && (forall b: Bucket :: b in emotions)
      && (forall b1: Bucket, b2: Bucket | b1 != b2 :: emotions[b1] != emotions[b2])
    }

    constructor ()
      ensures Valid()
      ensures forall b | b in emotions :: emotions[b].Text() == InitialTone(b)
      ensures forall b | b in emotions :: fresh(emotions[b])
    {
      var red := new Entry(InitialTone(Red));
      var orange := new Entry(InitialTone(Orange));
      var yellow := new Entry(InitialTone(Yellow));
      var blue := new Entry(InitialTone(Blue));
      var violet := new Entry(InitialTone(Violet));
      var green := new Entry(InitialTone(Green));
      var table := map[Red := red, Orange := orange, Yellow := yellow,
                       Blue := blue, Violet := violet, Green := green];
      forall b: Bucket
        ensures b in table && table[b].Text() == InitialTone(b) && fresh(table[b])
      {
        match b
        case Red => case Orange => case Yellow => case Green => case Blue => case Violet =>
      }
      emotions := table;
    }

    /**
     * `analyze_color_psychology`: looks up the bucket of the colour's hue
     * (a fresh neutral entry when the bucket is missing), appends the
     * saturation and lightness qualifiers to that entry IN PLACE and
     * returns it. Every other entry keeps its texts.
     */
    method AnalyzeColorPsychology(rgb: Rgb) returns (analysis: Entry)
      requires Color.Valid(rgb)
      modifies emotions.Values
      ensures var hsl := RgbToHsl(rgb);
        var name := HueBucket(hsl.h);
        && (name in emotions ==> analysis == emotions[name] && analysis.Text() == Qualify(old(emotions[name].Text()), hsl))
        && (name !in emotions ==> fresh(analysis) && analysis.Text() == Qualify(NeutralTone, hsl))
      ensures forall e | e in emotions.Values && e != analysis :: e.Text() == old(e.Text())
      ensures Valid() ==> forall b | b != HueBucket(RgbToHsl(rgb).h) :: emotions[b].Text() == old(emotions[b].Text())
    {
      var hsl := RgbToHsl(rgb);
      var name := HueBucket(hsl.h);
      if name in emotions {
        analysis := emotions[name];
      } else {
        analysis := new Entry(NeutralTone);
      }
      if hsl.s < 30 {
        analysis.character := analysis.character + ", Gedämpft";
      }
      if hsl.l > 80 {
        analysis.effect := analysis.effect + ", Sanft";
      } else if hsl.l < 20 {
        analysis.effect := analysis.effect + ", Intensiv";
      }
    }
  }

  /**
   * Two analyses of the same muted colour return the same table entry, and
   * the second finds the qualifier of the first already appended: the
   * table's texts grow with every call.
   */
  method RepeatedAnalysis(g: GoetheFarbenlehre, rgb: Rgb) returns (first: Entry, second: Entry)
    requires g.Valid() && Valid(rgb)
    modifies g.emotions.Values
    ensures first == second
    ensures var hsl := RgbToHsl(rgb);
      hsl.s < 30 ==>
        second.character == old(g.emotions[HueBucket(hsl.h)].character) + ", Gedämpft" + ", Gedämpft"
  {
    first := g.AnalyzeColorPsychology(rgb);
    second := g.AnalyzeColorPsychology(rgb);
  }

  // ---------------------------------------------------------------- Itten

  /** `(h + offset) % 360`: Python's `%` with a positive divisor is never negative. */
  function RotateHue(h: int, offset: int): (r: int)
    ensures 0 <= r < 360
  {
    (h + offset) % 360
  }

  lemma ModShift(x: int, q: int)
    ensures (x - 360 * q) % 360 == x % 360
  {
    var d := (x - 360 * q) / 360;
    var r := (x - 360 * q) % 360;
    assert x == 360 * (d + q) + r && 0 <= r < 360;
  }

  /** Rotating twice is rotating by the sum of the offsets. */
  lemma {:induction false} RotationsCompose(h: int, a: int, b: int)
    ensures RotateHue(RotateHue(h, a), b) == RotateHue(h, a + b)
  {
    var q := (h + a) / 360;
    assert RotateHue(h, a) + b == (h + a + b) - 360 * q;
    ModShift(h + a + b, q);
  }

  /**
   * On the wheel, the complement of the complement is the hue itself, three
   * triadic steps come back to the start, and the two analogous offsets
   * undo each other.
   */
  lemma {:induction false} WheelCycles(h: int)
    requires 0 <= h < 360
    ensures RotateHue(RotateHue(h, 180), 180) == h
    ensures RotateHue(RotateHue(RotateHue(h, 120), 120), 120) == h
    ensures RotateHue(RotateHue(h, -30), 30) == h
    ensures RotateHue(h, 240) == RotateHue(RotateHue(h, 120), 120)
  {
    RotationsCompose(h, 180, 180);
    RotationsCompose(h, 120, 120);
    RotationsCompose(h, 240, 120);
    RotationsCompose(h, -30, 30);
  }

  /**
   * The colour with the given hue and the saturation and lightness of
   * `hsl`: `hls_to_rgb(hue/360, l/100, s/100)`, each channel scaled by 255
   * and truncated.
   */
  function Harmony(hsl: Hsl, hue: int): (c: Rgb)
    requires 0 <= hsl.s <= 100 && 0 <= hsl.l <= 100
    ensures Valid(c)
  {
    var f := Colorsys.HlsToRgb(hue as real / 360.0, hsl.l as real / 100.0, hsl.s as real / 100.0);
    Rgb(Trunc(f.r * 255.0), Trunc(f.g * 255.0), Trunc(f.b * 255.0))
  }

  /** An unsaturated colour has only grey harmonies, of the truncated lightness. */
  lemma {:induction false} GreyHarmony(hsl: Hsl, hue: int)
    requires 0 <= hsl.l <= 100 && hsl.s == 0
    ensures Harmony(hsl, hue) == Rgb(255 * hsl.l / 100, 255 * hsl.l / 100, 255 * hsl.l / 100)
  {
    var l := hsl.l as real / 100.0;
    assert (l * 255.0) * 100.0 == (255 * hsl.l) as real;
    FloorFromProduct(l * 255.0, 100, 255 * hsl.l);
  }

  /** `get_complementary_color`: the colour opposite on the wheel, same saturation and lightness. */
  function ComplementaryColor(c: Rgb): (res: Rgb)
    requires Valid(c)
    ensures Valid(res)
    ensures var hsl := RgbToHsl(c); res == Harmony(hsl, RotateHue(hsl.h, 180))
  {
    var hsl := RgbToHsl(c);
    Harmony(hsl, RotateHue(hsl.h, 180))
  }

  /** The harmonies at the given hue offsets, in order. */
  function Rotations(c: Rgb, offsets: seq<int>): (cs: seq<Rgb>)
    requires Valid(c)
    ensures |cs| == |offsets|
    ensures forall i | 0 <= i < |cs| :: Valid(cs[i])
  {
    var hsl := RgbToHsl(c);
    seq(|offsets|, i requires 0 <= i < |offsets| => Harmony(hsl, RotateHue(hsl.h, offsets[i])))
  }

  /** Every harmony of a grey is the same grey: without saturation the hue offset is lost. */
  lemma {:induction false} GreyRotations(c: Rgb, offsets: seq<int>)
    requires Valid(c) && c.r == c.g == c.b
    ensures forall i | 0 <= i < |offsets| ::
      var v := 255 * RgbToHsl(c).l / 100; Rotations(c, offsets)[i] == Rgb(v, v, v)
  {
    var hsl := RgbToHsl(c);
    forall i | 0 <= i < |offsets|
      ensures Rotations(c, offsets)[i] == Rgb(255 * hsl.l / 100, 255 * hsl.l / 100, 255 * hsl.l / 100)
    {
      GreyHarmony(hsl, RotateHue(hsl.h, offsets[i]));
    }
  }

  /** The loop shared by `get_triadic_colors` and `get_analogous_colors`: append one harmony per offset. */
  method RotatedColors(c: Rgb, offsets: seq<int>) returns (colors: seq<Rgb>)
    requires Valid(c)
    ensures colors == Rotations(c, offsets)
  {
    var hsl := RgbToHsl(c);
    colors := [];
    for i := 0 to |offsets|
      invariant |colors| == i
      invariant forall j | 0 <= j < i :: colors[j] == Rotations(c, offsets)[j]
    {
      var newH := RotateHue(hsl.h, offsets[i]);
      colors := colors + [Harmony(hsl, newH)];
    }
  }

  /** `get_triadic_colors`: the harmonies a third and two thirds of the way round. */
  method TriadicColors(c: Rgb) returns (triadic: seq<Rgb>)
    requires Valid(c)
    ensures triadic == Rotations(c, [120, 240])
  {
    triadic := RotatedColors(c, [120, 240]);
  }

  /** `get_analogous_colors`: the harmonies 30 degrees either side. */
  method AnalogousColors(c: Rgb) returns (analogous: seq<Rgb>)
    requires Valid(c)
    ensures analogous == Rotations(c, [-30, 30])
  {
    analogous := RotatedColors(c, [-30, 30]);
  }

  // ---------------------------------------------------------------- Colour blindness

  /** `int(p * x + q * y)`. */
  function Blend(p: real, x: int, q: real, y: int): int
  {
    Trunc(p * x as real + q * y as real)
  }

  /** A blend whose non-negative weights sum to one lies between its two channels. */
  lemma {:induction false} BlendBetween(p: real, x: int, q: real, y: int)
    requires 0.0 <= p && 0.0 <= q && p + q == 1.0 && 0 <= x && 0 <= y
    ensures Min(x, y) <= Blend(p, x, q, y) <= Max(x, y)
  {
    var lo, hi := Min(x, y) as real, Max(x, y) as real;
    MulNonneg(p, x as real - lo);
    MulNonneg(q, y as real - lo);
    MulNonneg(p, hi - x as real);
    MulNonneg(q, hi - y as real);
    assert p * (x as real - lo) + q * (y as real - lo) == p * x as real + q * y as real - lo;
    assert p * (hi - x as real) + q * (hi - y as real) == hi - (p * x as real + q * y as real);
  }

  /** What the simulators promise over exact reals: each channel is a blend of two input channels, so it stays in range and greys are unchanged. */
  ghost predicate Simulates(c: Rgb, res: Rgb)
  {
    && Valid(res)
    && (c.r == c.g == c.b ==> res == c)
  }

  /** `simulate_protanopia`: red and green are merged; blue borrows from green. */
  function SimulateProtanopia(c: Rgb): (res: Rgb)
    requires Valid(c)
    ensures Min(c.r, c.g) <= res.r <= Max(c.r, c.g) && Min(c.r, c.g) <= res.g <= Max(c.r, c.g)
    ensures Min(c.g, c.b) <= res.b <= Max(c.g, c.b)
    ensures Simulates(c, res)
  {
    BlendBetween(0.567, c.r, 0.433, c.g);
    BlendBetween(0.558, c.r, 0.442, c.g);
    BlendBetween(0.242, c.g, 0.758, c.b);
    Rgb(Min(255, Blend(0.567, c.r, 0.433, c.g)),
        Min(255, Blend(0.558, c.r, 0.442, c.g)),
        Min(255, Blend(0.242, c.g, 0.758, c.b)))
  }

  /** `simulate_deuteranopia`: red and green are merged with other weights; blue borrows from green. */
  function SimulateDeuteranopia(c: Rgb): (res: Rgb)
    requires Valid(c)
    ensures Min(c.r, c.g) <= res.r <= Max(c.r, c.g) && Min(c.r, c.g) <= res.g <= Max(c.r, c.g)
    ensures Min(c.g, c.b) <= res.b <= Max(c.g, c.b)
    ensures Simulates(c, res)
  {
    BlendBetween(0.625, c.r, 0.375, c.g);
    BlendBetween(0.7, c.r, 0.3, c.g);
    BlendBetween(0.3, c.g, 0.7, c.b);
    Rgb(Min(255, Blend(0.625, c.r, 0.375, c.g)),
        Min(255, Blend(0.7, c.r, 0.3, c.g)),
        Min(255, Blend(0.3, c.g, 0.7, c.b)))
  }

  /** `simulate_tritanopia`: red borrows a little green; green and blue are merged. */
  function SimulateTritanopia(c: Rgb): (res: Rgb)
    requires Valid(c)
    ensures Min(c.r, c.g) <= res.r <= Max(c.r, c.g)
    ensures Min(c.g, c.b) <= res.g <= Max(c.g, c.b) && Min(c.g, c.b) <= res.b <= Max(c.g, c.b)
    ensures Simulates(c, res)
  {
    BlendBetween(0.95, c.r, 0.05, c.g);
    BlendBetween(0.433, c.g, 0.567, c.b);
    BlendBetween(0.475, c.g, 0.525, c.b);
    Rgb(Min(255, Blend(0.95, c.r, 0.05, c.g)),
        Min(255, Blend(0.433, c.g, 0.567, c.b)),
        Min(255, Blend(0.475, c.g, 0.525, c.b)))
  }

  // ---------------------------------------------------------------- Combined analysis

  /** The `basic` part of the analysis: hex code and the four conversions as text. */
  datatype Basic = Basic(hex: string, rgb: string, hsl: string, cmyk: string, lab: string)

  datatype Itten = Itten(complementary: Rgb, triadic: seq<Rgb>, analogous: seq<Rgb>)

  /** The nested dictionary `get_comprehensive_color_analysis` returns; `goethe` is the table entry itself. */
  datatype ColorAnalysis = ColorAnalysis(basic: Basic, goethe: Entry, itten: Itten)

  /**
   * The `basic` texts: the upper-case `#RRGGBB` code, which reads back to
   * the colour, and `RGB(r, g, b)`, `HSL(h, s, l)`, `CMYK(c, m, y, k)`,
   * `LAB(l, a, b)` built from the conversions.
   */
  function BasicRecord(c: Rgb, cbrt: real -> real): (b: Basic)
    requires Valid(c)
    ensures |b.hex| == 7 && b.hex[0] == '#' && forall i | 1 <= i < 7 :: IsUpperHexDigit(b.hex[i])
    ensures ParseHex(b.hex) == Some(c)
    ensures b.hsl == "HSL" + TupleText([RgbToHsl(c).h, RgbToHsl(c).s, RgbToHsl(c).l])
  {
    ToUpperOfHex(c);
    UpperHexRoundTrip(c);
    var hsl := RgbToHsl(c);
    var cmyk := RgbToCmyk(c);
    var lab := RgbToLab(c, cbrt);
    Basic(ToUpper(HexString(c)),
          "RGB" + TupleText([c.r, c.g, c.b]),
          "HSL" + TupleText([hsl.h, hsl.s, hsl.l]),
          "CMYK" + TupleText([cmyk.c, cmyk.m, cmyk.y, cmyk.k]),
          "LAB" + TupleText([lab.l, lab.a, lab.b]))
  }

  /**
   * `get_comprehensive_color_analysis`: the basic texts, the Goethe entry
   * (updated in place, as `AnalyzeColorPsychology` does) and the three Itten
   * harmonies.
   */
  method ComprehensiveColorAnalysis(goethe: GoetheFarbenlehre, c: Rgb, cbrt: real -> real)
    returns (analysis: ColorAnalysis)
    requires goethe.Valid() && Valid(c)
    modifies goethe.emotions.Values
    ensures analysis.basic == BasicRecord(c, cbrt)
    ensures var hsl := RgbToHsl(c);
      && analysis.goethe == goethe.emotions[HueBucket(hsl.h)]
      && analysis.goethe.Text() == Qualify(old(goethe.emotions[HueBucket(hsl.h)].Text()), hsl)
    ensures analysis.itten == Itten(ComplementaryColor(c), Rotations(c, [120, 240]), Rotations(c, [-30, 30]))
    ensures forall b | b != HueBucket(RgbToHsl(c).h) :: goethe.emotions[b].Text() == old(goethe.emotions[b].Text())
  {
    var entry := goethe.AnalyzeColorPsychology(c);
    var triadic := TriadicColors(c);
    var analogous := AnalogousColors(c);
    analysis := ColorAnalysis(BasicRecord(c, cbrt), entry, Itten(ComplementaryColor(c), triadic, analogous));
  }
}
