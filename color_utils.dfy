/**
 * The frequency mode of `extract_dominant_colors` (`color_utils.py`): count
 * the pixel colours with a `Counter`, take the `num_colors` most common and
 * emit three index-aligned lists — lower-case hex text, the colour, and the
 * nearest Pantone name. The pixels are the decoded, resized image, given as
 * a sequence.
 */
module ColorUtils {
  import opened Color
  import Pantone

  // ---------------------------------------------------------------- Counter

  /** A `Counter`: its keys in insertion order and the count of each. */
  datatype Counter = Counter(order: seq<Rgb>, counts: map<Rgb, nat>)

  /** Counting one more element: a new key is appended with count 1, a known one is incremented. */
  function Add(ctr: Counter, px: Rgb): Counter
  {
    if px in ctr.counts then Counter(ctr.order, ctr.counts[px := ctr.counts[px] + 1])
    else Counter(ctr.order + [px], ctr.counts[px := 1])
  }

  /** `Counter(pixels)`: the pixels counted one after the other. Its keys are exactly the listed ones. */
  function Tally(pixels: seq<Rgb>): (ctr: Counter)
    ensures forall c :: c in ctr.counts <==> c in ctr.order
  {
    if pixels == [] then Counter([], map[])
    else Add(Tally(pixels[..|pixels| - 1]), pixels[|pixels| - 1])
  }

  /** The position of the first occurrence of `c`. */
  function FirstIndex(pixels: seq<Rgb>, c: Rgb): (i: nat)
    requires c in pixels
    ensures i < |pixels| && pixels[i] == c
    ensures forall j | 0 <= j < i :: pixels[j] != c
  {
    if pixels[0] == c then 0 else 1 + FirstIndex(pixels[1..], c)
  }

  lemma FirstIndexOfPrefix(q: seq<Rgb>, x: Rgb, c: Rgb)
    requires c in q
    ensures FirstIndex(q + [x], c) == FirstIndex(q, c)
  {
    var i1, i2 := FirstIndex(q + [x], c), FirstIndex(q, c);
    assert (q + [x])[i2] == c;
    if i1 < i2 {
      assert false;
    }
  }

  lemma FirstIndexOfNew(q: seq<Rgb>, x: Rgb)
    requires x !in q
    ensures FirstIndex(q + [x], x) == |q|
  {
    var i := FirstIndex(q + [x], x);
    if i < |q| {
      assert false;
    }
  }

  /**
   * The counter counts every pixel colour exactly as often as it occurs, and
   * holds no other key.
   */
  lemma {:induction false} TallyCounts(pixels: seq<Rgb>)
    ensures forall c :: c in Tally(pixels).counts <==> c in pixels
    ensures forall c | c in Tally(pixels).counts :: Tally(pixels).counts[c] == multiset(pixels)[c]
  {
    if pixels != [] {
      var q, x := pixels[..|pixels| - 1], pixels[|pixels| - 1];
      assert pixels == q + [x];
      TallyCounts(q);
      assert multiset(pixels) == multiset(q) + multiset{x};
    }
  }

  /**
   * The counter lists each pixel colour once, in order of first occurrence
   * (a dictionary keeps insertion order).
   */
  lemma {:induction false} TallyOrder(pixels: seq<Rgb>)
    ensures var order := Tally(pixels).order;
      && (forall c :: c in order <==> c in pixels)
      && (forall i, j | 0 <= i < j < |order| :: FirstIndex(pixels, order[i]) < FirstIndex(pixels, order[j]))
  {
    if pixels != [] {
      var q, x := pixels[..|pixels| - 1], pixels[|pixels| - 1];
      assert pixels == q + [x];
      TallyOrder(q);
      TallyCounts(q);
      var prev := Tally(q).order;
      forall c | c in q
        ensures FirstIndex(pixels, c) == FirstIndex(q, c)
      {
        FirstIndexOfPrefix(q, x, c);
      }
      if x !in q {
        FirstIndexOfNew(q, x);
        assert Tally(pixels).order == prev + [x];
      }
    }
  }

  /** Listed in first-seen order, the keys are pairwise distinct. */
  lemma OrderDistinct(pixels: seq<Rgb>)
    ensures var order := Tally(pixels).order;
      forall i, j | 0 <= i < j < |order| :: order[i] != order[j]
  {
    TallyOrder(pixels);
  }

  // ---------------------------------------------------------------- most_common

  /** A `(colour, count)` item of the counter. */
  type Item = (Rgb, nat)

  /** The counter's items in insertion order. */
  function Items(ctr: Counter): (items: seq<Item>)
    requires forall c :: c in ctr.counts <==> c in ctr.order
    ensures |items| == |ctr.order|
    ensures forall i | 0 <= i < |items| :: items[i] == (ctr.order[i], ctr.counts[ctr.order[i]])
  {
    seq(|ctr.order|, i requires 0 <= i < |ctr.order| => (ctr.order[i], ctr.counts[ctr.order[i]]))
  }

  predicate NonIncreasing(s: seq<Item>)
  {
    forall i, j | 0 <= i < j < |s| :: s[i].1 >= s[j].1
  }

  /** Inserts `x` before the first item whose count is not larger, so `x` stays ahead of its ties. */
  function InsertByCount(x: Item, s: seq<Item>): (r: seq<Item>)
    ensures multiset(r) == multiset(s) + multiset{x}
  {
    if s == [] || x.1 >= s[0].1 then [x] + s
    else
      assert s == [s[0]] + s[1..];
      [s[0]] + InsertByCount(x, s[1..])
  }

  lemma {:induction false} InsertKeepsNonIncreasing(x: Item, s: seq<Item>)
    requires NonIncreasing(s)
    ensures NonIncreasing(InsertByCount(x, s))
  {
    if s != [] && x.1 < s[0].1 {
      var rest := InsertByCount(x, s[1..]);
      InsertKeepsNonIncreasing(x, s[1..]);
      assert s == [s[0]] + s[1..];
      forall i | 0 <= i < |rest|
        ensures s[0].1 >= rest[i].1
      {
        assert rest[i] in multiset(rest);
      }
    }
  }

  /** `sorted(items, key=count, reverse=True)`, which is stable. */
  function SortByCount(s: seq<Item>): (r: seq<Item>)
    ensures multiset(r) == multiset(s)
    ensures NonIncreasing(r)
  {
    if s == [] then []
    else
      assert s == [s[0]] + s[1..];
      InsertKeepsNonIncreasing(s[0], SortByCount(s[1..]));
      InsertByCount(s[0], SortByCount(s[1..]))
  }

  /** Items of equal count appear in increasing `rank`. */
  predicate TiesRanked(s: seq<Item>, rank: Rgb -> int)
  {
    forall i, j | 0 <= i < j < |s| && s[i].1 == s[j].1 :: rank(s[i].0) < rank(s[j].0)
  }

  lemma ConsTiesRanked(a: Item, t: seq<Item>, rank: Rgb -> int)
    requires TiesRanked(t, rank)
    requires forall y | y in t && y.1 == a.1 :: rank(a.0) < rank(y.0)
    ensures TiesRanked([a] + t, rank)
  {
    var r := [a] + t;
    forall i, j | 0 <= i < j < |r| && r[i].1 == r[j].1
      ensures rank(r[i].0) < rank(r[j].0)
    {
      assert r[j] == t[j - 1];
      if i > 0 {
        assert r[i] == t[i - 1];
      }
    }
  }

  lemma TailTiesRanked(s: seq<Item>, rank: Rgb -> int)
    requires s != [] && TiesRanked(s, rank)
    ensures TiesRanked(s[1..], rank)
    ensures forall y | y in s[1..] && y.1 == s[0].1 :: rank(s[0].0) < rank(y.0)
  {
    var t := s[1..];
    forall i, j | 0 <= i < j < |t| && t[i].1 == t[j].1
      ensures rank(t[i].0) < rank(t[j].0)
    {
      assert t[i] == s[i + 1] && t[j] == s[j + 1];
    }
    forall y | y in t && y.1 == s[0].1
      ensures rank(s[0].0) < rank(y.0)
    {
      var k :| 0 <= k < |t| && t[k] == y;
      assert s[k + 1] == y;
    }
  }

  lemma {:induction false} InsertKeepsRank(x: Item, s: seq<Item>, rank: Rgb -> int)
    requires TiesRanked(s, rank)
    requires forall y | y in s :: rank(x.0) < rank(y.0)
    ensures TiesRanked(InsertByCount(x, s), rank)
  {
    if s == [] || x.1 >= s[0].1 {
      ConsTiesRanked(x, s, rank);
    } else {
      TailTiesRanked(s, rank);
      InsertKeepsRank(x, s[1..], rank);
      var rest := InsertByCount(x, s[1..]);
      forall y | y in rest && y.1 == s[0].1
        ensures rank(s[0].0) < rank(y.0)
      {
        assert y in multiset(rest);
      }
      ConsTiesRanked(s[0], rest, rank);
    }
  }

  /**
   * Stability: when the items come in increasing `rank`, items of equal
   * count keep that order after sorting.
   */
  lemma {:induction false} SortKeepsRank(s: seq<Item>, rank: Rgb -> int)
    requires forall i, j | 0 <= i < j < |s| :: rank(s[i].0) < rank(s[j].0)
    ensures TiesRanked(SortByCount(s), rank)
  {
    if s != [] {
      SortKeepsRank(s[1..], rank);
      var sorted := SortByCount(s[1..]);
      forall y | y in sorted
        ensures rank(s[0].0) < rank(y.0)
      {
        assert y in multiset(s[1..]);
        var k :| 0 <= k < |s[1..]| && s[1..][k] == y;
        assert s[k + 1] == y;
      }
      InsertKeepsRank(s[0], sorted, rank);
    }
  }

  /** `heapq.nlargest(n, ...)` cut: no item when `n <= 0`, otherwise the first `n`. */
  function Take(s: seq<Item>, n: int): (r: seq<Item>)
    ensures |r| <= |s| && r == s[..|r|]
    ensures |r| == if n <= 0 then 0 else Min(n, |s|)
  {
    if n <= 0 then [] else if |s| <= n then s else s[..n]
  }

  /** Sorting keeps the length, and a prefix of the sorted items holds only items of the input. */
  lemma TakeSortedMembers(s: seq<Item>, n: int)
    ensures |SortByCount(s)| == |s|
    ensures forall x | x in Take(SortByCount(s), n) :: x in s
  {
    var sorted := SortByCount(s);
    assert |multiset(sorted)| == |multiset(s)|;
    forall x | x in Take(sorted, n)
      ensures x in s
    {
      assert x in sorted;
      assert x in multiset(sorted);
    }
  }

  /** `Counter.most_common(n)`: the `n` items of highest count, ties in insertion order. */
  function MostCommon(ctr: Counter, n: int): (r: seq<Item>)
    requires forall c :: c in ctr.counts <==> c in ctr.order
    ensures |r| == if n <= 0 then 0 else Min(n, |ctr.order|)
    ensures NonIncreasing(r)
    ensures forall x | x in r :: x in Items(ctr)
  {
    TakeSortedMembers(Items(ctr), n);
    Take(SortByCount(Items(ctr)), n)
  }

  // ---------------------------------------------------------------- Frequency mode

  /** All items of `Counter(pixels)`, most common first. */
  function Ranking(pixels: seq<Rgb>): seq<Item>
  {
    var ctr := Tally(pixels);
    SortByCount(Items(ctr))
  }

  /** The colours of a list of items. */
  function Colors(s: seq<Item>): (colors: seq<Rgb>)
    ensures |colors| == |s| && forall i | 0 <= i < |s| :: colors[i] == s[i].0
  {
    seq(|s|, i requires 0 <= i < |s| => s[i].0)
  }

  /** The `colors` of the frequency branch: the colours of `Counter(pixels).most_common(num_colors)`. */
  function DominantColors(pixels: seq<Rgb>, numColors: int): (colors: seq<Rgb>)
    ensures |colors| == if numColors <= 0 then 0 else Min(numColors, |Tally(pixels).order|)
  {
    Colors(MostCommon(Tally(pixels), numColors))
  }

  /** Every item carries a pixel colour and its number of occurrences. */
  predicate Counted(pixels: seq<Rgb>, r: seq<Item>)
  {
    forall k | 0 <= k < |r| :: r[k].0 in pixels && r[k].1 == multiset(pixels)[r[k].0]
  }

  /** Every pixel colour has an item. */
  predicate Covers(pixels: seq<Rgb>, r: seq<Item>)
  {
    forall c | c in pixels :: exists k | 0 <= k < |r| :: r[k].0 == c
  }

  /** Items of equal count come in order of their colour's first occurrence. */
  predicate TiesFirstSeen(pixels: seq<Rgb>, r: seq<Item>)
  {
    forall i, j | 0 <= i < j < |r| && r[i].0 in pixels && r[j].0 in pixels && r[i].1 == r[j].1 ::
      FirstIndex(pixels, r[i].0) < FirstIndex(pixels, r[j].0)
  }

  predicate DistinctColors(r: seq<Item>)
  {
    forall i, j | 0 <= i < j < |r| :: r[i].0 != r[j].0
  }

  /** The ranking holds one item per pixel colour, carrying its number of occurrences. */
  lemma RankingItems(pixels: seq<Rgb>)
    ensures Counted(pixels, Ranking(pixels)) && Covers(pixels, Ranking(pixels))
  {
    TallyCounts(pixels);
    TallyOrder(pixels);
    var order := Tally(pixels).order;
    var items := Items(Tally(pixels));
    var r := Ranking(pixels);
    forall k | 0 <= k < |r|
      ensures r[k].0 in pixels && r[k].1 == multiset(pixels)[r[k].0]
    {
      assert r[k] in multiset(items);
      var m :| 0 <= m < |items| && items[m] == r[k];
    }
    forall c | c in pixels
      ensures exists k | 0 <= k < |r| :: r[k].0 == c
    {
      var m :| 0 <= m < |order| && order[m] == c;
      assert items[m] in multiset(r);
      var k :| 0 <= k < |r| && r[k] == items[m];
    }
  }

  /** In the ranking, items of equal count keep first-seen order, and no colour is listed twice. */
  lemma RankingTies(pixels: seq<Rgb>)
    ensures TiesFirstSeen(pixels, Ranking(pixels)) && DistinctColors(Ranking(pixels))
  {
    TallyOrder(pixels);
    RankingItems(pixels);
    var items := Items(Tally(pixels));
    var r := Ranking(pixels);
    var rank := (c: Rgb) => if c in pixels then FirstIndex(pixels, c) else 0;
    forall i, j | 0 <= i < j < |items|
      ensures rank(items[i].0) < rank(items[j].0)
    {
    }
    SortKeepsRank(items, rank);
    forall i, j | 0 <= i < j < |r|
      ensures r[i].0 != r[j].0
    {
      if r[i].0 == r[j].0 {
        assert false;
      }
    }
  }

  /** The dominant colours are the colours of the ranking's first `num_colors` items. */
  lemma DominantPrefix(pixels: seq<Rgb>, numColors: int)
    ensures var colors := DominantColors(pixels, numColors);
      var r := Ranking(pixels);
      && |colors| == (if numColors <= 0 then 0 else Min(numColors, |r|))
      && forall i | 0 <= i < |colors| :: colors[i] == r[i].0
  {
  }

  /**
   * The frequency branch returns at most `num_colors` colours (none when it
   * is not positive), and fewer only when every pixel colour is returned.
   */
  lemma DominantColorsCount(pixels: seq<Rgb>, numColors: int)
    ensures var colors := DominantColors(pixels, numColors);
      && |colors| <= (if numColors <= 0 then 0 else numColors)
      && (numColors > 0 && |colors| < numColors ==> forall c | c in pixels :: c in colors)
  {
    DominantPrefix(pixels, numColors);
    RankingItems(pixels);
    var colors := DominantColors(pixels, numColors);
    var r := Ranking(pixels);
    if numColors > 0 && |colors| < numColors {
      forall c | c in pixels
        ensures c in colors
      {
        var k :| 0 <= k < |r| && r[k].0 == c;
        assert colors[k] == c;
      }
    }
  }

  /** The dominant colours are pairwise distinct and all occur among the pixels. */
  lemma DominantColorsOccur(pixels: seq<Rgb>, numColors: int)
    ensures var colors := DominantColors(pixels, numColors);
      && (forall i, j | 0 <= i < j < |colors| :: colors[i] != colors[j])
      && (forall i | 0 <= i < |colors| :: colors[i] in pixels)
  {
    DominantPrefix(pixels, numColors);
    RankingItems(pixels);
    RankingTies(pixels);
  }

  /**
   * The dominant colours come in non-increasing number of occurrences, and
   * colours that occur equally often come in order of first occurrence.
   */
  lemma DominantColorsOrder(pixels: seq<Rgb>, numColors: int)
    ensures var colors := DominantColors(pixels, numColors);
      && (forall i | 0 <= i < |colors| :: colors[i] in pixels)
      && (forall i, j | 0 <= i < j < |colors| :: multiset(pixels)[colors[i]] >= multiset(pixels)[colors[j]])
      && (forall i, j | 0 <= i < j < |colors| && multiset(pixels)[colors[i]] == multiset(pixels)[colors[j]] ::
            FirstIndex(pixels, colors[i]) < FirstIndex(pixels, colors[j]))
  {
    DominantPrefix(pixels, numColors);
    RankingItems(pixels);
    RankingTies(pixels);
  }

  /** No pixel colour left out occurs more often than any colour returned. */
  lemma DominantColorsAreTop(pixels: seq<Rgb>, numColors: int)
    ensures var colors := DominantColors(pixels, numColors);
      forall c, i | c in pixels && c !in colors && 0 <= i < |colors| ::
        multiset(pixels)[c] <= multiset(pixels)[colors[i]]
  {
    DominantPrefix(pixels, numColors);
    RankingItems(pixels);
    var colors := DominantColors(pixels, numColors);
    var r := Ranking(pixels);
    forall c, i | c in pixels && c !in colors && 0 <= i < |colors|
      ensures multiset(pixels)[c] <= multiset(pixels)[colors[i]]
    {
      var k :| 0 <= k < |r| && r[k].0 == c;
      if k < |colors| {
        assert false;
      }
      assert r[i].1 >= r[k].1;
    }
  }

  /** '#' followed by six lower-case hex digits. */
  predicate IsLowerHex(s: string)
  {
    |s| == 7 && s[0] == '#' && forall k | 1 <= k < 7 :: s[k] in LowerHexDigits
  }

  /** A hex entry is '#' and six lower-case digits that parse back to its colour. */
  lemma HexEntry(c: Rgb)
    requires Valid(c)
    ensures IsLowerHex(HexString(c))
    ensures ParseHex(HexString(c)) == Some(c)
  {
    HexRoundTrip(c);
    ByteDigits(c.r);
    ByteDigits(c.g);
    ByteDigits(c.b);
  }

  /** The three lists `extract_dominant_colors` returns. */
  datatype Extraction = Extraction(hexColors: seq<string>, rgbColors: seq<Rgb>, pantoneNames: seq<string>)

  /** `'#{:02x}{:02x}{:02x}'.format(*color)` for each colour: lower-case hex text that parses back to it. */
  function HexColors(colors: seq<Rgb>): (hex: seq<string>)
    requires forall i | 0 <= i < |colors| :: Valid(colors[i])
    ensures |hex| == |colors|
    ensures forall i | 0 <= i < |colors| :: IsLowerHex(hex[i]) && ParseHex(hex[i]) == Some(colors[i])
  {
    var hex := seq(|colors|, i requires 0 <= i < |colors| => HexString(colors[i]));
    forall i | 0 <= i < |colors|
      ensures IsLowerHex(hex[i]) && ParseHex(hex[i]) == Some(colors[i])
    {
      HexEntry(colors[i]);
    }
    hex
  }

  /** `rgb_to_pantone_name` for each colour. */
  function PantoneNames(colors: seq<Rgb>): (names: seq<string>)
    ensures |names| == |colors|
    ensures forall i | 0 <= i < |colors| :: names[i] == Pantone.NearestName(colors[i])
  {
    seq(|colors|, i requires 0 <= i < |colors| => Pantone.NearestName(colors[i]))
  }

  /**
   * `extract_dominant_colors(..., cluster=False)`: for each dominant colour,
   * its lower-case hex text, the colour itself and its Pantone name. The
   * three lists are index-aligned; each hex entry is '#' and six lower-case
   * digits that parse back to the colour beside it, which is a pixel colour;
   * each name is the one the Pantone lookup gives that colour.
   */
  function ExtractDominantColors(pixels: seq<Rgb>, numColors: int): (e: Extraction)
    requires forall i | 0 <= i < |pixels| :: Valid(pixels[i])
    ensures e.rgbColors == DominantColors(pixels, numColors)
    ensures |e.hexColors| == |e.rgbColors| == |e.pantoneNames|
    ensures forall i | 0 <= i < |e.rgbColors| :: e.rgbColors[i] in pixels
    ensures forall i | 0 <= i < |e.hexColors| :: IsLowerHex(e.hexColors[i]) && ParseHex(e.hexColors[i]) == Some(e.rgbColors[i])
    ensures forall i | 0 <= i < |e.pantoneNames| :: e.pantoneNames[i] == Pantone.NearestName(e.rgbColors[i])
  {
    var colors := DominantColors(pixels, numColors);
    DominantColorsOccur(pixels, numColors);
    assert forall i | 0 <= i < |colors| :: Valid(colors[i]);
    Extraction(HexColors(colors), colors, PantoneNames(colors))
  }
}
