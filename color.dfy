/**
 * Values shared by every part of the colour pipeline: the RGB triple, the
 * distance used by both nearest-swatch searches, the first-wins nearest
 * search itself, and the text forms of numbers and colours that the
 * records carry (Python's `'{:02x}'` and `str(int)`).
 */
module Color {

  /** An RGB triple. The pipeline's colours have integer channels in [0,255]. */
  datatype Rgb = Rgb(r: int, g: int, b: int)

  datatype Option<T> = None | Some(value: T)

  predicate Valid(c: Rgb) {
    0 <= c.r <= 255 && 0 <= c.g <= 255 && 0 <= c.b <= 255
  }

  function Max(x: int, y: int): int { if x >= y then x else y }
  function Min(x: int, y: int): int { if x <= y then x else y }

  /** Python's `max(r, g, b)`. */
  function MaxChannel(c: Rgb): (m: int)
    ensures m >= c.r && m >= c.g && m >= c.b
    ensures m == c.r || m == c.g || m == c.b
  {
    Max(Max(c.r, c.g), c.b)
  }

  /** Python's `min(r, g, b)`. */
  function MinChannel(c: Rgb): (m: int)
    ensures m <= c.r && m <= c.g && m <= c.b
    ensures m == c.r || m == c.g || m == c.b
  {
    Min(Min(c.r, c.g), c.b)
  }

  /** Python's `int(x)` on a float: truncation toward zero. */
  function Trunc(x: real): (n: int)
    ensures x >= 0.0 ==> n == x.Floor
    ensures x < 0.0 ==> n == -((-x).Floor)
    ensures x >= 0.0 ==> n as real <= x < n as real + 1.0
    ensures x < 0.0 ==> n as real - 1.0 < x <= n as real
  {
    if x >= 0.0 then x.Floor else -((-x).Floor)
  }

  lemma MulNonneg(a: real, b: real)
    requires 0.0 <= a && 0.0 <= b
    ensures 0.0 <= a * b
  {
  }

  /**
   * A real `z` with `z * m == n` truncates to the integer quotient `n / m`:
   * the bridge from the source's float formulas to integer arithmetic.
   */
  lemma FloorFromProduct(z: real, m: int, n: int)
    requires m > 0 && z * (m as real) == n as real
    ensures z.Floor == n / m
  {
    var q, rem := n / m, n % m;
    assert n == q * m + rem && 0 <= rem < m;
    var t := z - q as real;
    assert (q * m) as real == (q as real) * (m as real);
    assert t * (m as real) == rem as real;
    if t < 0.0 {
      assert false;
    }
    if t >= 1.0 {
      assert false;
    }
  }

  function Square(x: int): (s: int)
    ensures s >= 0
    ensures s == 0 <==> x == 0
  {
    if x == 0 then 0
    else
      assert x > 0 || -x > 0;
      if x > 0 then x * x else (-x) * (-x)
  }

  /**
   * The squared Euclidean distance between two triples. Both nearest searches
   * take its square root; the root is monotone, so every comparison they make
   * comes out the same on the squared value.
   */
  function SqDist(c1: Rgb, c2: Rgb): (d: int)
    ensures d >= 0
    ensures d == 0 <==> c1 == c2
  {
    Square(c1.r - c2.r) + Square(c1.g - c2.g) + Square(c1.b - c2.b)
  }

  lemma SqDistSymmetric(c1: Rgb, c2: Rgb)
    ensures SqDist(c1, c2) == SqDist(c2, c1)
  {
    assert Square(c1.r - c2.r) == Square(c2.r - c1.r);
    assert Square(c1.g - c2.g) == Square(c2.g - c1.g);
    assert Square(c1.b - c2.b) == Square(c2.b - c1.b);
  }

  /**
   * `i` is the answer of a scan that keeps the first minimum: no entry is
   * closer to `target` than `keys[i]`, and every entry before `i` is strictly
   * farther away.
   */
  ghost predicate IsFirstNearest(target: Rgb, keys: seq<Rgb>, i: int) {
    && 0 <= i < |keys|
    && (forall j | 0 <= j < |keys| :: SqDist(target, keys[i]) <= SqDist(target, keys[j]))
    && (forall j | 0 <= j < i :: SqDist(target, keys[j]) > SqDist(target, keys[i]))
  }

  /** The scan from `k` on, having found `best` as the first nearest of `keys[..k]`. */
  function NearestFrom(target: Rgb, keys: seq<Rgb>, best: nat, k: nat): (i: nat)
    requires best < k <= |keys|
    requires IsFirstNearest(target, keys[..k], best)
    ensures IsFirstNearest(target, keys, i)
    decreases |keys| - k
  {
    if k == |keys| then
      assert keys[..k] == keys;
      best
    else if SqDist(target, keys[k]) < SqDist(target, keys[best]) then
      NearestFrom(target, keys, k, k + 1)
    else
      NearestFrom(target, keys, best, k + 1)
  }

  /**
   * The shared nearest-neighbour primitive: Python's `min(keys, key=dist)`,
   * which replaces its candidate only on a strictly smaller key and so
   * returns the first minimum in table order. Total on a non-empty table.
   */
  function Nearest(target: Rgb, keys: seq<Rgb>): (i: nat)
    requires |keys| > 0
    ensures IsFirstNearest(target, keys, i)
  {
    NearestFrom(target, keys, 0, 1)
  }

  /** The first-wins answer is unique: any scan with that contract agrees with `Nearest`. */
  lemma FirstNearestUnique(target: Rgb, keys: seq<Rgb>, i: int, j: int)
    requires IsFirstNearest(target, keys, i) && IsFirstNearest(target, keys, j)
    ensures i == j
  {
    assert SqDist(target, keys[i]) <= SqDist(target, keys[j]);
    assert SqDist(target, keys[j]) <= SqDist(target, keys[i]);
  }

  /**
   * A target that is itself a table key, and is not repeated earlier in the
   * table, is matched to that very entry.
   */
  lemma NearestOfKey(keys: seq<Rgb>, i: nat)
    requires i < |keys|
    requires forall j | 0 <= j < i :: keys[j] != keys[i]
    ensures Nearest(keys[i], keys) == i
  {
    var n := Nearest(keys[i], keys);
    assert SqDist(keys[i], keys[n]) <= SqDist(keys[i], keys[i]) == 0;
    assert keys[n] == keys[i];
  }

  // ---------------------------------------------------------------------
  // Text forms

  const LowerHexDigits: string := "0123456789abcdef"
  const UpperHexDigits: string := "0123456789ABCDEF"

  /**
   * `'#{:02x}{:02x}{:02x}'.format(r, g, b)`: each channel of a valid triple
   * as two lower-case hex digits, high digit first.
   */
  function HexString(c: Rgb): (s: string)
    requires Valid(c)
    ensures |s| == 7 && s[0] == '#'
  {
    ['#', LowerHexDigits[c.r / 16], LowerHexDigits[c.r % 16],
          LowerHexDigits[c.g / 16], LowerHexDigits[c.g % 16],
          LowerHexDigits[c.b / 16], LowerHexDigits[c.b % 16]]
  }

  /** Python's `str.upper()` restricted to the characters that occur here: a-z become A-Z. */
  function UpperChar(ch: char): char {
    if 'a' <= ch <= 'z' then (ch as int - 'a' as int + 'A' as int) as char else ch
  }

  function ToUpper(s: string): (u: string)
    ensures |u| == |s|
    ensures forall i | 0 <= i < |s| :: u[i] == UpperChar(s[i])
  {
    if s == [] then [] else [UpperChar(s[0])] + ToUpper(s[1..])
  }

  predicate IsUpperHexDigit(ch: char) { '0' <= ch <= '9' || 'A' <= ch <= 'F' }

  /** The value of a hex digit of either case, or -1. */
  function HexValue(ch: char): (v: int)
    ensures -1 <= v < 16
  {
    if '0' <= ch <= '9' then ch as int - '0' as int
    else if 'a' <= ch <= 'f' then ch as int - 'a' as int + 10
    else if 'A' <= ch <= 'F' then ch as int - 'A' as int + 10
    else -1
  }

  /** Reads `#RRGGBB` (either case) back into a triple. */
  function ParseHex(s: string): (c: Option<Rgb>)
    ensures c.Some? ==> Valid(c.value)
  {
    if |s| != 7 || s[0] != '#' then None
    else if HexValue(s[1]) < 0 || HexValue(s[2]) < 0 || HexValue(s[3]) < 0
         || HexValue(s[4]) < 0 || HexValue(s[5]) < 0 || HexValue(s[6]) < 0 then None
    else Some(Rgb(16 * HexValue(s[1]) + HexValue(s[2]),
                  16 * HexValue(s[3]) + HexValue(s[4]),
                  16 * HexValue(s[5]) + HexValue(s[6])))
  }

  lemma HexDigitValue(d: int)
    requires 0 <= d < 16
    ensures HexValue(LowerHexDigits[d]) == d
    ensures UpperChar(LowerHexDigits[d]) == UpperHexDigits[d]
    ensures HexValue(UpperHexDigits[d]) == d
    ensures IsUpperHexDigit(UpperHexDigits[d])
  {
  }

  /** Both digits of a byte, in either case, read back to the byte. */
  lemma ByteDigits(n: int)
    requires 0 <= n <= 255
    ensures 16 * HexValue(LowerHexDigits[n / 16]) + HexValue(LowerHexDigits[n % 16]) == n
    ensures 16 * HexValue(UpperHexDigits[n / 16]) + HexValue(UpperHexDigits[n % 16]) == n
  {
    var hi, lo := n / 16, n % 16;
    HexDigitValue(hi);
    HexDigitValue(lo);
    assert n == 16 * hi + lo;
  }

  /** The six digits of a `#` string, when all are hex digits, read as three bytes. */
  lemma ParseHexDigits(s: string)
    requires |s| == 7 && s[0] == '#'
    requires forall i | 1 <= i < 7 :: HexValue(s[i]) >= 0
    ensures ParseHex(s) == Some(Rgb(16 * HexValue(s[1]) + HexValue(s[2]),
                                    16 * HexValue(s[3]) + HexValue(s[4]),
                                    16 * HexValue(s[5]) + HexValue(s[6])))
  {
  }

  /** The lower-case hex string of the frequency extractor decodes back to its triple. */
  lemma {:induction false} HexRoundTrip(c: Rgb)
    requires Valid(c)
    ensures ParseHex(HexString(c)) == Some(c)
  {
    var s := HexString(c);
    HexDigitValue(c.r / 16);
    HexDigitValue(c.r % 16);
    HexDigitValue(c.g / 16);
    HexDigitValue(c.g % 16);
    HexDigitValue(c.b / 16);
    HexDigitValue(c.b % 16);
    assert HexValue(s[1]) == c.r / 16 && HexValue(s[2]) == c.r % 16;
    assert HexValue(s[3]) == c.g / 16 && HexValue(s[4]) == c.g % 16;
    assert HexValue(s[5]) == c.b / 16 && HexValue(s[6]) == c.b % 16;
    ParseHexDigits(s);
  }

  /** The upper-case counterpart of `HexString`. */
  function UpperHexString(c: Rgb): (s: string)
    requires Valid(c)
    ensures |s| == 7 && s[0] == '#'
    ensures forall i | 1 <= i < 7 :: IsUpperHexDigit(s[i])
  {
    ['#', UpperHexDigits[c.r / 16], UpperHexDigits[c.r % 16],
          UpperHexDigits[c.g / 16], UpperHexDigits[c.g % 16],
          UpperHexDigits[c.b / 16], UpperHexDigits[c.b % 16]]
  }

  /**
   * `'#{:02x}{:02x}{:02x}'.upper()` is the upper-case form: upper-casing the
   * formatted string only changes the letters among its digits.
   */
  lemma ToUpperOfHex(c: Rgb)
    requires Valid(c)
    ensures ToUpper(HexString(c)) == UpperHexString(c)
  {
    var s, u, w := HexString(c), ToUpper(HexString(c)), UpperHexString(c);
    HexDigitValue(c.r / 16);
    HexDigitValue(c.r % 16);
    HexDigitValue(c.g / 16);
    HexDigitValue(c.g % 16);
    HexDigitValue(c.b / 16);
    HexDigitValue(c.b % 16);
    assert u[1] == UpperChar(s[1]) == w[1] && u[2] == UpperChar(s[2]) == w[2];
    assert u[3] == UpperChar(s[3]) == w[3] && u[4] == UpperChar(s[4]) == w[4];
    assert u[5] == UpperChar(s[5]) == w[5] && u[6] == UpperChar(s[6]) == w[6];
    assert u[0] == UpperChar('#') == w[0];
  }

  /**
   * The upper-case form is the hash and six upper-case hex digits, which
   * decode back to the triple.
   */
  lemma {:induction false} UpperHexRoundTrip(c: Rgb)
    requires Valid(c)
    ensures var u := UpperHexString(c);
      && |u| == 7 && u[0] == '#'
      && (forall i | 1 <= i < 7 :: IsUpperHexDigit(u[i]))
      && ParseHex(u) == Some(c)
  {
    var u := UpperHexString(c);
    HexDigitValue(c.r / 16);
    HexDigitValue(c.r % 16);
    HexDigitValue(c.g / 16);
    HexDigitValue(c.g % 16);
    HexDigitValue(c.b / 16);
    HexDigitValue(c.b % 16);
    assert HexValue(u[1]) == c.r / 16 && HexValue(u[2]) == c.r % 16;
    assert HexValue(u[3]) == c.g / 16 && HexValue(u[4]) == c.g % 16;
    assert HexValue(u[5]) == c.b / 16 && HexValue(u[6]) == c.b % 16;
    ParseHexDigits(u);
  }

  /** Python's `str(n)` for a natural number. */
  function NatText(n: nat): (s: string)
    ensures |s| > 0
    ensures forall i | 0 <= i < |s| :: '0' <= s[i] <= '9'
  {
    if n < 10 then ["0123456789"[n]]
    else NatText(n / 10) + ["0123456789"[n % 10]]
  }

  /** Python's `str(n)` for any integer: a minus sign, then the digits of `|n|`. */
  function IntText(n: int): (s: string)
    ensures |s| > 0
  {
    if n < 0 then "-" + NatText(-n) else NatText(n)
  }

  function DigitsValue(s: string): int
  {
    if s == [] then 0 else 10 * DigitsValue(s[..|s| - 1]) + (s[|s| - 1] as int - '0' as int)
  }

  /** Reads back what `IntText` writes. */
  function ParseInt(s: string): int
  {
    if |s| > 0 && s[0] == '-' then -DigitsValue(s[1..]) else DigitsValue(s)
  }

  lemma {:induction false} NatTextRoundTrip(n: nat)
    ensures DigitsValue(NatText(n)) == n
  {
    if n >= 10 {
      NatTextRoundTrip(n / 10);
      var s := NatText(n);
      assert s[..|s| - 1] == NatText(n / 10);
    }
  }

  /** Text that starts with a digit is read as unsigned. */
  lemma ParseUnsigned(digits: string)
    requires |digits| > 0 && '0' <= digits[0] <= '9'
    ensures ParseInt(digits) == DigitsValue(digits)
  {
  }

  /** A minus sign before the digits negates their value. */
  lemma ParseNegative(digits: string)
    ensures ParseInt("-" + digits) == -DigitsValue(digits)
  {
    assert ("-" + digits)[1..] == digits;
  }

  /** A minus sign and the digits of `m` read back as `-m`. */
  lemma NegativeTextRoundTrip(m: nat)
    ensures ParseInt("-" + NatText(m)) == -(m as int)
  {
    ParseNegative(NatText(m));
    NatTextRoundTrip(m);
  }

  /** The decimal text of an integer reads back to the same integer. */
  lemma {:induction false} IntTextRoundTrip(n: int)
    ensures ParseInt(IntText(n)) == n
  {
    if n < 0 {
      NegativeTextRoundTrip(-n);
    } else {
      ParseUnsigned(NatText(n));
      NatTextRoundTrip(n);
    }
  }

  function JoinInts(xs: seq<int>): string
  {
    if xs == [] then ""
    else if |xs| == 1 then IntText(xs[0])
    else IntText(xs[0]) + ", " + JoinInts(xs[1..])
  }

  /** Python's `str(t)` for a tuple of integers, e.g. `(0, 100, 50)`. */
  function TupleText(xs: seq<int>): (s: string)
    ensures |s| >= 2 && s[0] == '(' && s[|s| - 1] == ')'
  {
    "(" + JoinInts(xs) + ")"
  }
}
