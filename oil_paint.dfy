/**
 * The oil-paint database and the pigment matcher (`oil_paint_data.py`):
 * the closest single paint, mixtures from the recipe book that come close
 * enough, curated painting tips, and the rule-based property analysis.
 * Distances are squared Euclidean distances; `sqrt` is monotone, so the
 * comparisons of the source keep their outcome.
 */
module OilPaint {
  import opened Color

  datatype Opacity = Transparent | SemiOpaque | Opaque
  datatype DryingTime = Fast | Medium | Slow
  datatype PriceCategory = Student | Artist | Professional

  /** The `OilPaint` record. */
  datatype Paint = Paint(
    name: string,
    pigment: string,
    rgb: Rgb,
    opacity: Opacity,
    dryingTime: DryingTime,
    lightfastness: int,
    priceCategory: PriceCategory,
    brand: string,
    series: int,
    mixingRatio: Option<string>)

  /** A `MIXING_RECIPES` entry: pigment names with their parts. */
  datatype Recipe = Recipe(components: seq<string>, ratios: seq<real>, description: string)

  /** A paint dictionary as its items: (key colour, record) pairs in iteration order. */
  type PaintTable = seq<(Rgb, Paint)>

  // The paint names, shared by the paint table, the recipes and the tips.
  const Titanweiss: string := "Titanweiß"
  const Zinkweiss: string := "Zinkweiß"
  const Elfenbeinschwarz: string := "Elfenbeinschwarz"
  const Paynesgrau: string := "Paynesgrau"
  const KadmiumrotDunkel: string := "Kadmiumrot dunkel"
  const KadmiumrotHell: string := "Kadmiumrot hell"
  const Englischrot: string := "Englischrot"
  const Zinnoberrot: string := "Zinnoberrot"
  const Alizarinkarmin: string := "Alizarinkarmin"
  const KadmiumgelbHell: string := "Kadmiumgelb hell"
  const KadmiumgelbMittel: string := "Kadmiumgelb mittel"
  const Neapelgelb: string := "Neapelgelb"
  const Hansagelb: string := "Hansagelb"
  const Ockergelb: string := "Ockergelb"
  const Preussischblau: string := "Preußischblau"
  const Ultramarienblau: string := "Ultramarienblau"
  const Coelinblau: string := "Coelinblau"
  const Phthaloblau: string := "Phthaloblau"
  const Viridian: string := "Viridian"
  const Phthalogruen: string := "Phthalogrün"
  const Chromoxidgruen: string := "Chromoxidgrün"
  const UmbraGebrannt: string := "Umbra gebrannt"
  const UmbraNatur: string := "Umbra natur"
  const SiennaGebrannt: string := "Sienna gebrannt"
  const SiennaNatur: string := "Sienna natur"
  const Vandyckbraun: string := "Vandyckbraun"
  const Ultramarinviolett: string := "Ultramarinviolett"
  const Dioxazinlila: string := "Dioxazinlila"

  /** `BASIC_OIL_PAINTS` as (key, record) items in declaration order. */
  const BasicOilPaints: seq<(Rgb, Paint)> := [
    (Rgb(255, 255, 255),
     Paint(Titanweiss, "PW6", Rgb(255, 255, 255), Opaque, Medium, 4, Artist, "Schmincke", 1, None)),
    (Rgb(252, 252, 250),
     Paint(Zinkweiss, "PW4", Rgb(252, 252, 250), SemiOpaque, Slow, 4, Artist, "Schmincke", 1, None)),
    (Rgb(0, 0, 0),
     Paint(Elfenbeinschwarz, "PBk9", Rgb(0, 0, 0), Opaque, Slow, 4, Artist, "Schmincke", 1, None)),
    (Rgb(25, 25, 28),
     Paint(Paynesgrau, "PB15+PBk6", Rgb(25, 25, 28), Transparent, Medium, 4, Artist, "Schmincke", 2, None)),
    (Rgb(227, 18, 48),
     Paint(KadmiumrotDunkel, "PR108", Rgb(227, 18, 48), Opaque, Medium, 4, Professional, "Schmincke", 3, None)),
    (Rgb(238, 49, 36),
     Paint(KadmiumrotHell, "PR108", Rgb(238, 49, 36), Opaque, Medium, 4, Professional, "Schmincke", 3, None)),
    (Rgb(169, 17, 1),
     Paint(Englischrot, "PR101", Rgb(169, 17, 1), Opaque, Fast, 4, Artist, "Schmincke", 1, None)),
    (Rgb(221, 65, 36),
     Paint(Zinnoberrot, "PR108", Rgb(221, 65, 36), Opaque, Medium, 3, Artist, "Schmincke", 2, None)),
    (Rgb(178, 34, 52),
     Paint(Alizarinkarmin, "PR83", Rgb(178, 34, 52), Transparent, Slow, 3, Artist, "Schmincke", 2, None)),
    (Rgb(255, 237, 0),
     Paint(KadmiumgelbHell, "PY35", Rgb(255, 237, 0), Opaque, Medium, 4, Professional, "Schmincke", 3, None)),
    (Rgb(255, 205, 0),
     Paint(KadmiumgelbMittel, "PY35", Rgb(255, 205, 0), Opaque, Medium, 4, Professional, "Schmincke", 3, None)),
    (Rgb(227, 168, 87),
     Paint(Neapelgelb, "PW4+PY42", Rgb(227, 168, 87), Opaque, Medium, 4, Artist, "Schmincke", 2, None)),
    (Rgb(252, 232, 131),
     Paint(Hansagelb, "PY3", Rgb(252, 232, 131), Transparent, Fast, 3, Artist, "Schmincke", 1, None)),
    (Rgb(184, 134, 11),
     Paint(Ockergelb, "PY43", Rgb(184, 134, 11), Opaque, Fast, 4, Artist, "Schmincke", 1, None)),
    (Rgb(0, 49, 83),
     Paint(Preussischblau, "PB27", Rgb(0, 49, 83), Transparent, Fast, 4, Artist, "Schmincke", 1, None)),
    (Rgb(0, 56, 168),
     Paint(Ultramarienblau, "PB29", Rgb(0, 56, 168), Transparent, Slow, 4, Artist, "Schmincke", 1, None)),
    (Rgb(91, 143, 175),
     Paint(Coelinblau, "PB35", Rgb(91, 143, 175), SemiOpaque, Medium, 4, Artist, "Schmincke", 2, None)),
    (Rgb(41, 171, 226),
     Paint(Phthaloblau, "PB15", Rgb(41, 171, 226), Transparent, Medium, 4, Artist, "Schmincke", 2, None)),
    (Rgb(18, 53, 36),
     Paint(Viridian, "PG18", Rgb(18, 53, 36), Transparent, Slow, 4, Artist, "Schmincke", 2, None)),
    (Rgb(0, 158, 73),
     Paint(Phthalogruen, "PG7", Rgb(0, 158, 73), Transparent, Medium, 4, Artist, "Schmincke", 2, None)),
    (Rgb(115, 147, 77),
     Paint(Chromoxidgruen, "PG17", Rgb(115, 147, 77), Opaque, Fast, 4, Artist, "Schmincke", 1, None)),
    (Rgb(121, 85, 72),
     Paint(UmbraGebrannt, "PBr7", Rgb(121, 85, 72), Transparent, Fast, 4, Artist, "Schmincke", 1, None)),
    (Rgb(115, 74, 18),
     Paint(UmbraNatur, "PBr7", Rgb(115, 74, 18), Transparent, Fast, 4, Artist, "Schmincke", 1, None)),
    (Rgb(138, 54, 15),
     Paint(SiennaGebrannt, "PBr7", Rgb(138, 54, 15), Transparent, Fast, 4, Artist, "Schmincke", 1, None)),
    (Rgb(160, 82, 45),
     Paint(SiennaNatur, "PBr7", Rgb(160, 82, 45), Transparent, Fast, 4, Artist, "Schmincke", 1, None)),
    (Rgb(92, 51, 23),
     Paint(Vandyckbraun, "PBr8", Rgb(92, 51, 23), Transparent, Fast, 4, Artist, "Schmincke", 1, None)),
    (Rgb(128, 100, 162),
     Paint(Ultramarinviolett, "PV15", Rgb(128, 100, 162), Transparent, Slow, 4, Artist, "Schmincke", 2, None)),
    (Rgb(146, 39, 143),
     Paint(Dioxazinlila, "PV23", Rgb(146, 39, 143), Transparent, Medium, 4, Artist, "Schmincke", 2, None))
  ]

  /** `MIXING_RECIPES` as (name, recipe) items in declaration order. */
  const MixingRecipes: seq<(string, Recipe)> := [
    ("Neutralgrau", Recipe([Titanweiss, Elfenbeinschwarz], [3.0, 1.0], "Klassisches neutrales Grau")),
    ("Warmgrau", Recipe([Titanweiss, UmbraGebrannt, Elfenbeinschwarz], [4.0, 1.0, 1.0], "Warmes Grau für Schatten")),
    ("Kaltgrau", Recipe([Titanweiss, Preussischblau, Elfenbeinschwarz], [4.0, 1.0, 1.0], "Kühles Grau für Licht")),
    ("Helle Haut", Recipe([Titanweiss, KadmiumgelbHell, KadmiumrotHell, UmbraGebrannt], [8.0, 1.0, 1.0, 0.5], "Grundton für helle Hauttöne")),
    ("Mittlere Haut", Recipe([Titanweiss, Neapelgelb, Zinnoberrot, UmbraNatur], [4.0, 2.0, 1.0, 1.0], "Grundton für mittlere Hauttöne")),
    ("Dunkle Haut", Recipe([UmbraGebrannt, Zinnoberrot, Neapelgelb, Titanweiss], [3.0, 2.0, 1.0, 1.0], "Grundton für dunkle Hauttöne")),
    ("Laubgrün", Recipe([KadmiumgelbMittel, Preussischblau, Titanweiss], [2.0, 1.0, 1.0], "Natürliches Blattgrün")),
    ("Waldgrün", Recipe([Viridian, UmbraGebrannt, KadmiumgelbHell], [3.0, 1.0, 0.5], "Dunkles Waldgrün")),
    ("Himmelblau", Recipe([Ultramarienblau, Titanweiss, KadmiumgelbHell], [1.0, 4.0, 0.25], "Warmes Himmelblau")),
    ("Wasserblau", Recipe([Phthaloblau, Viridian, Titanweiss], [2.0, 1.0, 3.0], "Natürliches Wasserblau"))
  ]

  /** `SPECIFIC_PAINTING_TIPS` as (paint name, tips) items in declaration order. */
  const CuratedTips: seq<(string, seq<string>)> := [
    (Titanweiss, ["Kühlstes Weiß - ideal für moderne Malerei",
       "Sehr deckend - nur wenig verwenden",
       "Neigt zum 'Kreideeffekt' - mit Ölmedium verbessern"]),
    (Zinkweiss, ["Transparenter als Titanweiß - perfekt für Fleischtöne",
       "Trocknet sehr langsam - Geduld erforderlich",
       "Spröde wenn dick aufgetragen - dünn arbeiten"]),
    (Elfenbeinschwarz, ["Wärmstes Schwarz mit bläulichem Unterton",
       "Sehr langsame Trocknung - als Untermalung verwenden",
       "Mischt schöne warme Grautöne mit Weiß"]),
    (Paynesgrau, ["Fertige Mischung - Zeit sparen beim Mischen",
       "Kühle Alternative zu reinem Schwarz",
       "Perfekt für Schatten in Landschaften"]),
    (KadmiumrotDunkel, ["Intensivstes Rot - sehr sparsam verwenden",
       "Giftig - Hände waschen nach Gebrauch",
       "Nicht mit Ultramarin mischen - wird schmutzig"]),
    (KadmiumrotHell, ["Ideal für Grundton von Fleischfarben",
       "Mit Gelb mischt perfekte Orangetöne",
       "Teuerste Farbe - nur wenn nötig verwenden"]),
    (Englischrot, ["Günstige Alternative zu Kadmiumrot",
       "Sehr lichtstabil - für dauerhafte Werke",
       "Erdpigment - mischt gut mit allen Farben"]),
    (Zinnoberrot, ["Traditionelles Rot der Alten Meister",
       "Tendiert zum Nachdunkeln mit der Zeit",
       "Sehr deckend - ideal für Grundierungen"]),
    (Alizarinkarmin, ["Transparentes Rot für Lasuren",
       "Mischt schöne Violett- und Rosatöne",
       "Früher lichtunbeständig - moderne Version ist besser"]),
    (KadmiumgelbHell, ["Leuchtendste Gelbfärbung verfügbar",
       "Perfekt für Sonneneffekte und Highlights",
       "Sehr teuer - für Studien Hansagelb verwenden"]),
    (KadmiumgelbMittel, ["Standardgelb für die meisten Zwecke",
       "Mischt saubere Grün- und Orangetöne",
       "Hohe Farbkraft - wenig verwenden"]),
    (Neapelgelb, ["Historische Farbe - warmste Gelbmischung",
       "Bereits mit Weiß gemischt - sehr deckend",
       "Ideal für Fleischtöne und warme Lichter"]),
    (Hansagelb, ["Moderne Alternative zu Kadmiumgelb",
       "Transparenter und günstiger",
       "Perfekt für Lasuren und Untermalungen"]),
    (Ockergelb, ["Günstigstes Gelb - Grundausstattung",
       "Erdpigment - sehr beständig und sicher",
       "Perfekt für Untermalungen und warme Schatten"]),
    (Preussischblau, ["Stärkstes Blau - extrem sparsam verwenden",
       "Macht aus jedem Grün ein sattes Waldgrün",
       "Reagiert mit Alkali - nur ölbasierte Medien"]),
    (Ultramarienblau, ["Klassisches Himmelblau der Renaissance",
       "Sehr rein - mischt saubere Violett-Töne",
       "Empfindlich gegen Säuren - vorsichtig handhaben"]),
    (Coelinblau, ["Perfekt für Himmel und Atmosphäre",
       "Weniger intensiv als andere Blautöne",
       "Gute Zwischenfarbe zwischen Grün und Blau"]),
    (Phthaloblau, ["Sehr intensive Färbekraft",
       "Tendiert zu 'künstlichem' Aussehen - sparsam verwenden",
       "Perfekt für moderne, kraftvolle Kompositionen"]),
    (Viridian, ["Transparentes Grün für Landschaften",
       "Sehr langsame Trocknung - Geduld erforderlich",
       "Mischt mit Gelb natürliche Grüntöne"]),
    (Phthalogruen, ["Intensivstes Grün - tropfenweise verwenden",
       "Überwältigt schnell andere Farben",
       "Ideal für moderne Kompositionen"]),
    (Chromoxidgruen, ["Sehr deckend und beständig",
       "Erdiger, natürlicher Grünton",
       "Perfekt für Landschaftsuntermalungen"]),
    (UmbraGebrannt, ["Universelles Braun für alle Zwecke",
       "Sehr schnelle Trocknung - als Siccativ nutzen",
       "Mischt mit Weiß perfekte warme Grautöne"]),
    (UmbraNatur, ["Kälteres Braun mit Grünstich",
       "Ideal für Schatten in der Landschaft",
       "Günstige Grundausstattung"]),
    (SiennaGebrannt, ["Warmes Rotbraun für Herbststimmungen",
       "Transparente Erdfarbe - gut für Lasuren",
       "Klassische Farbe für Untermalungen"]),
    (SiennaNatur, ["Orangebraun für warme Landschaftstöne",
       "Sehr beständiges Erdpigment",
       "Mischt schöne Orangetöne mit Gelb"]),
    (Vandyckbraun, ["Dunkelstes Braun - Alternative zu Schwarz",
       "Sehr transparent - ideal für dunkle Lasuren",
       "Traditionelle Farbe für Porträtschatten"]),
    (Ultramarinviolett, ["Transparentes Violett für Schatten",
       "Mischt mit Rot schöne Purpurtöne",
       "Empfindlich - nur für Innenräume geeignet"]),
    (Dioxazinlila, ["Intensivstes Violett verfügbar",
       "Sehr rein - keine Tendenz zu Grau oder Braun",
       "Sparsam verwenden - überwältigt schnell"])
  ]

  function Keys(paints: PaintTable): (ks: seq<Rgb>)
    ensures |ks| == |paints|
    ensures forall i | 0 <= i < |paints| :: ks[i] == paints[i].0
  {
    seq(|paints|, i requires 0 <= i < |paints| => paints[i].0)
  }

  /** Each dictionary key is the colour its record carries, and the table holds 28 valid colours. */
  lemma KeysAreRecordedColours()
    ensures |BasicOilPaints| == 28
    ensures forall i | 0 <= i < |BasicOilPaints| ::
      BasicOilPaints[i].0 == BasicOilPaints[i].1.rgb && Valid(BasicOilPaints[i].0)
  {
  }

  // ---------------------------------------------------------------- Closest paint

  /**
   * The first loop of `rgb_to_oil_paint_match`: scan the items, replacing
   * the candidate only on a strictly smaller distance. The result is the
   * first nearest paint, and its distance is the minimum.
   */
  method ClosestPaint(rgb: Rgb, paints: PaintTable) returns (closest: Paint, minDistance: int)
    requires |paints| > 0
    ensures var i := Nearest(rgb, Keys(paints));
      && closest == paints[i].1
      && minDistance == SqDist(rgb, paints[i].0)
  {
    var keys := Keys(paints);
    var closestPaint: Option<Paint> := None;
    var minDist: Option<int> := None;
    ghost var at: nat := 0;
    for k := 0 to |paints|
      invariant closestPaint.None? <==> k == 0
      invariant minDist.None? <==> k == 0
      invariant k > 0 ==>
        && IsFirstNearest(rgb, keys[..k], at)
        && closestPaint == Some(paints[at].1)
        && minDist == Some(SqDist(rgb, keys[at]))
    {
      var distance := SqDist(rgb, paints[k].0);
      if minDist.None? || distance < minDist.value {
        minDist := Some(distance);
        closestPaint := Some(paints[k].1);
        at := k;
      }
    }
    assert keys[..|paints|] == keys;
    FirstNearestUnique(rgb, keys, at, Nearest(rgb, keys));
    closest, minDistance := closestPaint.value, minDist.value;
  }

  // ---------------------------------------------------------------- Mixing

  /** The first item from index `from` on whose paint is called `name`, as the inner `for ... break` finds it. */
  function FindPaint(paints: PaintTable, name: string, from: nat): (i: Option<nat>)
    requires from <= |paints|
    ensures i.Some? ==> from <= i.value < |paints| && paints[i.value].1.name == name
    ensures i.Some? ==> forall j | from <= j < i.value :: paints[j].1.name != name
    ensures i.None? ==> forall j | from <= j < |paints| :: paints[j].1.name != name
    decreases |paints| - from
  {
    if from == |paints| then None
    else if paints[from].1.name == name then Some(from)
    else FindPaint(paints, name, from + 1)
  }

  /** Running channel sums `mixed_r`, `mixed_g`, `mixed_b`. */
  datatype Sums = Sums(r: real, g: real, b: real)

  /** Python's `sum` of the first `n` ratios, left to right. */
  function Prefix(xs: seq<real>, n: nat): real
    requires n <= |xs|
  {
    if n == 0 then 0.0 else Prefix(xs, n - 1) + xs[n - 1]
  }

  function Total(xs: seq<real>): real { Prefix(xs, |xs|) }

  /** `zip` stops at the shorter of the two lists. */
  function Zipped(recipe: Recipe): nat
  {
    Min(|recipe.components|, |recipe.ratios|)
  }

  /** What one component adds: its key colour times `ratio / total`, or nothing when no paint has that name. */
  function Contribution(paints: PaintTable, name: string, ratio: real, total: real): Sums
    requires total != 0.0
  {
    match FindPaint(paints, name, 0)
    case None => Sums(0.0, 0.0, 0.0)
    case Some(i) =>
      var weight := ratio / total;
      Sums(paints[i].0.r as real * weight, paints[i].0.g as real * weight, paints[i].0.b as real * weight)
  }

  /** The sums after the first `n` (component, ratio) pairs. */
  function MixSums(paints: PaintTable, recipe: Recipe, total: real, n: nat): Sums
    requires total != 0.0 && n <= Zipped(recipe)
  {
    if n == 0 then Sums(0.0, 0.0, 0.0)
    else
      var s := MixSums(paints, recipe, total, n - 1);
      var c := Contribution(paints, recipe.components[n - 1], recipe.ratios[n - 1], total);
      Sums(s.r + c.r, s.g + c.g, s.b + c.b)
  }

  /** The theoretical mixed colour: the ratio-weighted average of the components, each channel truncated. */
  function MixedColor(paints: PaintTable, recipe: Recipe): (mixed: Rgb)
    requires Total(recipe.ratios) != 0.0
    ensures Averaging(paints, recipe) ==> Valid(mixed)
  {
    MixSumsInRange(paints, recipe);
    var s := MixSums(paints, recipe, Total(recipe.ratios), Zipped(recipe));
    Rgb(Trunc(s.r), Trunc(s.g), Trunc(s.b))
  }

  /**
   * The mixing loop: for each (component, ratio) pair, find the first paint
   * of that name, add its weighted key colour and stop searching.
   */
  method MixRecipe(paints: PaintTable, recipe: Recipe) returns (mixed: Rgb)
    requires Total(recipe.ratios) != 0.0
    ensures mixed == MixedColor(paints, recipe)
  {
    var totalRatio := Total(recipe.ratios);
    var mixedR, mixedG, mixedB := 0.0, 0.0, 0.0;
    for i := 0 to Zipped(recipe)
      invariant Sums(mixedR, mixedG, mixedB) == MixSums(paints, recipe, totalRatio, i)
    {
      var component, ratio := recipe.components[i], recipe.ratios[i];
      var j := 0;
      while j < |paints|
        invariant 0 <= j <= |paints|
        invariant FindPaint(paints, component, 0) == FindPaint(paints, component, j)
        invariant Sums(mixedR, mixedG, mixedB) == MixSums(paints, recipe, totalRatio, i)
      {
        if paints[j].1.name == component {
          var weight := ratio / totalRatio;
          mixedR := mixedR + paints[j].0.r as real * weight;
          mixedG := mixedG + paints[j].0.g as real * weight;
          mixedB := mixedB + paints[j].0.b as real * weight;
          break;
        }
        j := j + 1;
      }
    }
    mixed := Rgb(Trunc(mixedR), Trunc(mixedG), Trunc(mixedB));
  }

  /** `x` is a channel sum of at most 255 times the parts `p` over the total: `0 <= x` and `x * total <= 255 p`. */
  predicate AtMostWhite(x: real, total: real, p: real)
  {
    0.0 <= x && x * total <= 255.0 * p
  }

  /** A contribution adds between nothing and its full weight of white. */
  lemma ContributionBounded(paints: PaintTable, name: string, ratio: real, total: real)
    requires total > 0.0 && ratio >= 0.0
    requires forall i | 0 <= i < |paints| :: Valid(paints[i].0)
    ensures var c := Contribution(paints, name, ratio, total);
      && AtMostWhite(c.r, total, ratio)
      && AtMostWhite(c.g, total, ratio)
      && AtMostWhite(c.b, total, ratio)
  {
    match FindPaint(paints, name, 0)
    case None =>
      MulNonneg(255.0, ratio);
    case Some(i) =>
      WeightedKeyBounded(paints[i].0, ratio, total);
  }

  /** A key colour weighted by `ratio / total` adds at most its weight of white on each channel. */
  lemma WeightedKeyBounded(key: Rgb, ratio: real, total: real)
    requires total > 0.0 && ratio >= 0.0 && Valid(key)
    ensures var w := ratio / total;
      && AtMostWhite(key.r as real * w, total, ratio)
      && AtMostWhite(key.g as real * w, total, ratio)
      && AtMostWhite(key.b as real * w, total, ratio)
  {
    var w := ratio / total;
    WeightOfRatio(ratio, total);
    ChannelWeight(key.r, w, total, ratio);
    ChannelWeight(key.g, w, total, ratio);
    ChannelWeight(key.b, w, total, ratio);
  }

  /** The weight `ratio / total` of a part is non-negative and scales back to the part. */
  lemma WeightOfRatio(ratio: real, total: real)
    requires total > 0.0 && ratio >= 0.0
    ensures ratio / total >= 0.0 && (ratio / total) * total == ratio
  {
    var w := ratio / total;
    assert w * total == ratio;
    if w < 0.0 {
      MulNonneg(-w, total);
      assert false;
    }
  }

  lemma ChannelWeight(k: int, w: real, total: real, ratio: real)
    requires 0 <= k <= 255 && w >= 0.0 && w * total == ratio && ratio >= 0.0
    ensures AtMostWhite(k as real * w, total, ratio)
  {
    MulNonneg(k as real, w);
    MulNonneg(255.0 - k as real, ratio);
    assert (k as real * w) * total == k as real * (w * total);
  }

  /** After `n` pairs each channel sum lies between 0 and 255 times the ratios used so far, over the total. */
  lemma {:induction false} MixSumsBounded(paints: PaintTable, recipe: Recipe, total: real, n: nat)
    requires total > 0.0 && n <= Zipped(recipe)
    requires forall i | 0 <= i < |recipe.ratios| :: recipe.ratios[i] >= 0.0
    requires forall i | 0 <= i < |paints| :: Valid(paints[i].0)
    ensures var s := MixSums(paints, recipe, total, n);
      && AtMostWhite(s.r, total, Prefix(recipe.ratios, n))
      && AtMostWhite(s.g, total, Prefix(recipe.ratios, n))
      && AtMostWhite(s.b, total, Prefix(recipe.ratios, n))
  {
    if n > 0 {
      MixSumsBounded(paints, recipe, total, n - 1);
      var s := MixSums(paints, recipe, total, n - 1);
      var c := Contribution(paints, recipe.components[n - 1], recipe.ratios[n - 1], total);
      ContributionBounded(paints, recipe.components[n - 1], recipe.ratios[n - 1], total);
      var p := Prefix(recipe.ratios, n - 1);
      StepBound(s.r, c.r, total, p, recipe.ratios[n - 1]);
      StepBound(s.g, c.g, total, p, recipe.ratios[n - 1]);
      StepBound(s.b, c.b, total, p, recipe.ratios[n - 1]);
    }
  }

  lemma StepBound(x: real, y: real, total: real, p: real, ratio: real)
    requires AtMostWhite(x, total, p) && AtMostWhite(y, total, ratio)
    ensures AtMostWhite(x + y, total, p + ratio)
  {
    assert (x + y) * total == x * total + y * total;
  }

  /** With non-negative ratios a prefix sum never exceeds the whole sum. */
  lemma {:induction false} PrefixAtMostTotal(xs: seq<real>, n: nat)
    requires n <= |xs|
    requires forall i | 0 <= i < |xs| :: xs[i] >= 0.0
    ensures Prefix(xs, n) <= Total(xs)
    decreases |xs| - n
  {
    if n < |xs| {
      PrefixAtMostTotal(xs, n + 1);
    }
  }

  lemma ScaledBound(x: real, total: real, p: real)
    requires total > 0.0 && p <= total && AtMostWhite(x, total, p)
    ensures 0.0 <= x <= 255.0
  {
    if x > 255.0 {
      assert false;
    }
  }

  /** Non-negative ratios with a positive total over a table of valid key colours. */
  predicate Averaging(paints: PaintTable, recipe: Recipe)
  {
    && Total(recipe.ratios) > 0.0
    && (forall i | 0 <= i < |recipe.ratios| :: recipe.ratios[i] >= 0.0)
    && (forall i | 0 <= i < |paints| :: Valid(paints[i].0))
  }

  /**
   * Such a mixture is a weighted average of valid colours, so each channel
   * sum lies in [0,255] before truncation.
   */
  lemma MixSumsInRange(paints: PaintTable, recipe: Recipe)
    requires Total(recipe.ratios) != 0.0
    ensures var s := MixSums(paints, recipe, Total(recipe.ratios), Zipped(recipe));
      Averaging(paints, recipe) ==> 0.0 <= s.r <= 255.0 && 0.0 <= s.g <= 255.0 && 0.0 <= s.b <= 255.0
  {
    if Averaging(paints, recipe) {
      var total := Total(recipe.ratios);
      MixSumsBounded(paints, recipe, total, Zipped(recipe));
      PrefixAtMostTotal(recipe.ratios, Zipped(recipe));
      var s := MixSums(paints, recipe, total, Zipped(recipe));
      var p := Prefix(recipe.ratios, Zipped(recipe));
      ScaledBound(s.r, total, p);
      ScaledBound(s.g, total, p);
      ScaledBound(s.b, total, p);
    }
  }

  /** The recipe book mixes only recipes with two or more parts, all positive, so every mixture is a valid colour. */
  predicate WellFormedRecipe(recipe: Recipe)
  {
    && |recipe.components| >= 2
    && |recipe.components| == |recipe.ratios|
    && (forall i | 0 <= i < |recipe.ratios| :: recipe.ratios[i] > 0.0)
  }

  /** Positive parts sum to a positive total, so the weights `ratio / total` are defined. */
  lemma {:induction false} PositiveTotal(xs: seq<real>, n: nat)
    requires 0 < n <= |xs|
    requires forall i | 0 <= i < |xs| :: xs[i] > 0.0
    ensures Prefix(xs, n) > 0.0
  {
    if n > 1 {
      PositiveTotal(xs, n - 1);
    }
  }

  lemma RecipeBookWellFormed()
    ensures |MixingRecipes| == 10
    ensures forall k | 0 <= k < |MixingRecipes| :: WellFormedRecipe(MixingRecipes[k].1)
  {
    forall k | 0 <= k < |MixingRecipes|
      ensures WellFormedRecipe(MixingRecipes[k].1)
    {
      if k == 0 {
        assert WellFormedRecipe(MixingRecipes[0].1);
      }
      else if k == 1 {
        assert WellFormedRecipe(MixingRecipes[1].1);
      }
      else if k == 2 {
        assert WellFormedRecipe(MixingRecipes[2].1);
      }
      else if k == 3 {
        assert WellFormedRecipe(MixingRecipes[3].1);
      }
      else if k == 4 {
        assert WellFormedRecipe(MixingRecipes[4].1);
      }
      else if k == 5 {
        assert WellFormedRecipe(MixingRecipes[5].1);
      }
      else if k == 6 {
        assert WellFormedRecipe(MixingRecipes[6].1);
      }
      else if k == 7 {
        assert WellFormedRecipe(MixingRecipes[7].1);
      }
      else if k == 8 {
        assert WellFormedRecipe(MixingRecipes[8].1);
      }
      else if k == 9 {
        assert WellFormedRecipe(MixingRecipes[9].1);
      }
    }
  }

  /** The grey recipes name only paints of the table. */
  lemma GreyRecipesListed()
    ensures forall k, i | 0 <= k < 3 && 0 <= i < |MixingRecipes[k].1.components| ::
      FindPaint(BasicOilPaints, MixingRecipes[k].1.components[i], 0).Some?
  {
    assert MixingRecipes[0].1.components[0] == BasicOilPaints[0].1.name;
    assert MixingRecipes[0].1.components[1] == BasicOilPaints[2].1.name;
    assert MixingRecipes[1].1.components[0] == BasicOilPaints[0].1.name;
    assert MixingRecipes[1].1.components[1] == BasicOilPaints[21].1.name;
    assert MixingRecipes[1].1.components[2] == BasicOilPaints[2].1.name;
    assert MixingRecipes[2].1.components[0] == BasicOilPaints[0].1.name;
    assert MixingRecipes[2].1.components[1] == BasicOilPaints[14].1.name;
    assert MixingRecipes[2].1.components[2] == BasicOilPaints[2].1.name;
  }

  /** The skin-tone recipes name only paints of the table. */
  lemma SkinRecipesListed()
    ensures forall k, i | 3 <= k < 6 && 0 <= i < |MixingRecipes[k].1.components| ::
      FindPaint(BasicOilPaints, MixingRecipes[k].1.components[i], 0).Some?
  {
    assert MixingRecipes[3].1.components[0] == BasicOilPaints[0].1.name;
    assert MixingRecipes[3].1.components[1] == BasicOilPaints[9].1.name;
    assert MixingRecipes[3].1.components[2] == BasicOilPaints[5].1.name;
    assert MixingRecipes[3].1.components[3] == BasicOilPaints[21].1.name;
    assert MixingRecipes[4].1.components[0] == BasicOilPaints[0].1.name;
    assert MixingRecipes[4].1.components[1] == BasicOilPaints[11].1.name;
    assert MixingRecipes[4].1.components[2] == BasicOilPaints[7].1.name;
    assert MixingRecipes[4].1.components[3] == BasicOilPaints[22].1.name;
    assert MixingRecipes[5].1.components[0] == BasicOilPaints[21].1.name;
    assert MixingRecipes[5].1.components[1] == BasicOilPaints[7].1.name;
    assert MixingRecipes[5].1.components[2] == BasicOilPaints[11].1.name;
    assert MixingRecipes[5].1.components[3] == BasicOilPaints[0].1.name;
  }

  /** The green and blue recipes name only paints of the table. */
  lemma NatureRecipesListed()
    ensures forall k, i | 6 <= k < 10 && 0 <= i < |MixingRecipes[k].1.components| ::
      FindPaint(BasicOilPaints, MixingRecipes[k].1.components[i], 0).Some?
  {
    assert MixingRecipes[6].1.components[0] == BasicOilPaints[10].1.name;
    assert MixingRecipes[6].1.components[1] == BasicOilPaints[14].1.name;
    assert MixingRecipes[6].1.components[2] == BasicOilPaints[0].1.name;
    assert MixingRecipes[7].1.components[0] == BasicOilPaints[18].1.name;
    assert MixingRecipes[7].1.components[1] == BasicOilPaints[21].1.name;
    assert MixingRecipes[7].1.components[2] == BasicOilPaints[9].1.name;
    assert MixingRecipes[8].1.components[0] == BasicOilPaints[15].1.name;
    assert MixingRecipes[8].1.components[1] == BasicOilPaints[0].1.name;
    assert MixingRecipes[8].1.components[2] == BasicOilPaints[9].1.name;
    assert MixingRecipes[9].1.components[0] == BasicOilPaints[17].1.name;
    assert MixingRecipes[9].1.components[1] == BasicOilPaints[18].1.name;
    assert MixingRecipes[9].1.components[2] == BasicOilPaints[0].1.name;
  }

  /** Every component of every recipe names a paint of the table, so no recipe falls back to black. */
  lemma RecipeComponentsExist()
    ensures forall k, i | 0 <= k < |MixingRecipes| && 0 <= i < |MixingRecipes[k].1.components| ::
      FindPaint(BasicOilPaints, MixingRecipes[k].1.components[i], 0).Some?
  {
    GreyRecipesListed();
    SkinRecipesListed();
    NatureRecipesListed();
  }





  // ---------------------------------------------------------------- Suggested mixtures

  /** One entry of `suggested_mixtures`; `distance` is the squared distance to the target. */
  datatype Mixture = Mixture(name: string, recipe: Recipe, distance: int, resultingColor: Rgb)

  /**
   * `mixture_distance < min_distance * 1.2` with both distances squared:
   * `dm < 1.44 dp`, that is `25 dm < 36 dp`. Strict, as written.
   */
  predicate Admits(mixtureDistance: int, minDistance: int)
  {
    25 * mixtureDistance < 36 * minDistance
  }

  /** Every recipe that is mixed at all (two or more components) has a non-zero total. */
  predicate Mixable(recipes: seq<(string, Recipe)>)
  {
    forall k | 0 <= k < |recipes| :: |recipes[k].1.components| >= 2 ==> Total(recipes[k].1.ratios) != 0.0
  }

  /** The mixtures the recipe loop appends, over the first `n` recipes, in recipe order. */
  function Admitted(rgb: Rgb, paints: PaintTable, recipes: seq<(string, Recipe)>, minDistance: int, n: nat): (admitted: seq<Mixture>)
    requires n <= |recipes| && Mixable(recipes)
    ensures |admitted| <= n
  {
    if n == 0 then []
    else
      var prev := Admitted(rgb, paints, recipes, minDistance, n - 1);
      var name, recipe := recipes[n - 1].0, recipes[n - 1].1;
      if |recipe.components| >= 2 then
        var mixed := MixedColor(paints, recipe);
        var d := SqDist(rgb, mixed);
        if Admits(d, minDistance) then prev + [Mixture(name, recipe, d, mixed)] else prev
      else prev
  }

  /**
   * Soundness of admission: every admitted mixture comes from a recipe of two
   * or more components, carries that recipe's mixed colour and its distance,
   * and passes the tolerance test.
   */
  lemma {:induction false} AdmittedSound(rgb: Rgb, paints: PaintTable, recipes: seq<(string, Recipe)>, minDistance: int, n: nat)
    requires n <= |recipes| && Mixable(recipes)
    ensures forall x | x in Admitted(rgb, paints, recipes, minDistance, n) ::
      && (exists k | 0 <= k < n :: recipes[k] == (x.name, x.recipe) && |x.recipe.components| >= 2)
      && Total(x.recipe.ratios) != 0.0
      && x.resultingColor == MixedColor(paints, x.recipe)
      && x.distance == SqDist(rgb, x.resultingColor)
      && Admits(x.distance, minDistance)
  {
    if n > 0 {
      AdmittedSound(rgb, paints, recipes, minDistance, n - 1);
    }
  }

  /** Completeness of admission: every mixable recipe that passes the tolerance test is admitted. */
  lemma {:induction false} AdmittedComplete(rgb: Rgb, paints: PaintTable, recipes: seq<(string, Recipe)>, minDistance: int, n: nat)
    requires n <= |recipes| && Mixable(recipes)
    ensures forall k | 0 <= k < n && |recipes[k].1.components| >= 2 &&
        Admits(SqDist(rgb, MixedColor(paints, recipes[k].1)), minDistance) ::
      exists x | x in Admitted(rgb, paints, recipes, minDistance, n) :: x.name == recipes[k].0 && x.recipe == recipes[k].1
  {
    if n > 0 {
      AdmittedComplete(rgb, paints, recipes, minDistance, n - 1);
      var prev := Admitted(rgb, paints, recipes, minDistance, n - 1);
      assert forall x | x in prev :: x in Admitted(rgb, paints, recipes, minDistance, n);
    }
  }

  /** When the closest paint matches exactly, nothing is strictly closer than 1.2 times zero: no mixture is admitted. */
  lemma {:induction false} ExactMatchAdmitsNone(rgb: Rgb, paints: PaintTable, recipes: seq<(string, Recipe)>, n: nat)
    requires n <= |recipes| && Mixable(recipes)
    ensures Admitted(rgb, paints, recipes, 0, n) == []
  {
    if n > 0 {
      ExactMatchAdmitsNone(rgb, paints, recipes, n - 1);
    }
  }

  predicate SortedByDistance(s: seq<Mixture>)
  {
    forall i, j | 0 <= i < j < |s| :: s[i].distance <= s[j].distance
  }

  /** Inserts `x` before the first entry that is not closer, so `x` stays ahead of its ties. */
  function InsertByDistance(x: Mixture, s: seq<Mixture>): (r: seq<Mixture>)
    ensures multiset(r) == multiset(s) + multiset{x}
  {
    if s == [] || x.distance <= s[0].distance then [x] + s
    else
      assert s == [s[0]] + s[1..];
      [s[0]] + InsertByDistance(x, s[1..])
  }

  lemma {:induction false} InsertKeepsSorted(x: Mixture, s: seq<Mixture>)
    requires SortedByDistance(s)
    ensures SortedByDistance(InsertByDistance(x, s))
  {
    if s != [] && x.distance > s[0].distance {
      var rest := InsertByDistance(x, s[1..]);
      InsertKeepsSorted(x, s[1..]);
      assert s == [s[0]] + s[1..];
      forall i | 0 <= i < |rest|
        ensures s[0].distance <= rest[i].distance
      {
        assert rest[i] in multiset(rest);
      }
    }
  }

  /** `list.sort(key=distance)`: Python's sort is stable. */
  function SortByDistance(s: seq<Mixture>): (r: seq<Mixture>)
    ensures multiset(r) == multiset(s)
    ensures SortedByDistance(r)
  {
    if s == [] then []
    else
      assert s == [s[0]] + s[1..];
      InsertKeepsSorted(s[0], SortByDistance(s[1..]));
      InsertByDistance(s[0], SortByDistance(s[1..]))
  }

  /** The entries at distance `d`, in order. */
  function AtDistance(s: seq<Mixture>, d: int): seq<Mixture>
  {
    if s == [] then [] else (if s[0].distance == d then [s[0]] else []) + AtDistance(s[1..], d)
  }

  lemma {:induction false} InsertKeepsTies(x: Mixture, s: seq<Mixture>, d: int)
    ensures AtDistance(InsertByDistance(x, s), d) == (if x.distance == d then [x] else []) + AtDistance(s, d)
  {
    if s == [] || x.distance <= s[0].distance {
      assert ([x] + s)[1..] == s;
    } else {
      InsertKeepsTies(x, s[1..], d);
      assert ([s[0]] + InsertByDistance(x, s[1..]))[1..] == InsertByDistance(x, s[1..]);
    }
  }

  /** Stability: the entries at any one distance keep their original order. */
  lemma {:induction false} SortIsStable(s: seq<Mixture>, d: int)
    ensures AtDistance(SortByDistance(s), d) == AtDistance(s, d)
  {
    if s != [] {
      SortIsStable(s[1..], d);
      InsertKeepsTies(s[0], SortByDistance(s[1..]), d);
    }
  }

  /** `[:3]`. */
  function Take(s: seq<Mixture>, n: nat): (r: seq<Mixture>)
    ensures |r| == Min(|s|, n) && r == s[..|r|]
  {
    if |s| <= n then s else s[..n]
  }

  /** `suggested_mixtures` as returned: the admitted mixtures sorted by distance, cut to three. */
  function Suggested(rgb: Rgb, paints: PaintTable, recipes: seq<(string, Recipe)>, minDistance: int): (r: seq<Mixture>)
    requires Mixable(recipes)
    ensures |r| <= 3 && SortedByDistance(r)
  {
    Take(SortByDistance(Admitted(rgb, paints, recipes, minDistance, |recipes|)), 3)
  }

  /**
   * At most three suggestions, in non-decreasing distance, all drawn from
   * the admitted mixtures; every admitted mixture left out is at least as
   * far as every one kept.
   */
  lemma SuggestedTopThree(rgb: Rgb, paints: PaintTable, recipes: seq<(string, Recipe)>, minDistance: int)
    requires Mixable(recipes)
    ensures var admitted := Admitted(rgb, paints, recipes, minDistance, |recipes|);
      var sorted := SortByDistance(admitted);
      var r := Suggested(rgb, paints, recipes, minDistance);
      && |r| <= 3
      && SortedByDistance(r)
      && multiset(r) <= multiset(admitted)
      && (forall x, y | x in r && y in sorted[|r|..] :: x.distance <= y.distance)
  {
    var admitted := Admitted(rgb, paints, recipes, minDistance, |recipes|);
    var sorted := SortByDistance(admitted);
    var r := Suggested(rgb, paints, recipes, minDistance);
    assert sorted == r + sorted[|r|..];
    assert multiset(sorted) == multiset(r) + multiset(sorted[|r|..]);
  }

  // ---------------------------------------------------------------- Painting tips

  const TransparentTip: string := "Transparente Farbe - ideal für Lasurtechniken"
  const OpaqueTip: string := "Deckende Farbe - sparsam verwenden"
  const ProfessionalTip: string := "Professionelle Qualität - höchste Pigmentkonzentration"
  const DefaultTip: string := "Hochwertige Künstlerfarbe für professionelle Anwendungen"

  /** The curated tips of the first entry named `name`, from index `from` on. */
  function CuratedFor(curated: seq<(string, seq<string>)>, name: string, from: nat): (tips: Option<seq<string>>)
    requires from <= |curated|
    ensures tips.Some? <==> exists j | from <= j < |curated| :: curated[j].0 == name
    ensures tips.Some? ==> exists j | from <= j < |curated| :: curated[j] == (name, tips.value)
    decreases |curated| - from
  {
    if from == |curated| then None
    else if curated[from].0 == name then Some(curated[from].1)
    else CuratedFor(curated, name, from + 1)
  }

  /**
   * The tips `get_painting_tips` gives: the curated list unchanged when the
   * name is known. Otherwise the fallback list is never empty: it holds the
   * opacity tip exactly for transparent and opaque paints, the tier tip
   * exactly for professional paints, and the generic tip exactly when
   * neither applies.
   */
  function Tips(curated: seq<(string, seq<string>)>, paint: Paint): (tips: seq<string>)
    ensures CuratedFor(curated, paint.name, 0).Some? ==> tips == CuratedFor(curated, paint.name, 0).value
    ensures CuratedFor(curated, paint.name, 0).None? ==>
      && 1 <= |tips| <= 2
      && (TransparentTip in tips <==> paint.opacity == Transparent)
      && (OpaqueTip in tips <==> paint.opacity == Opaque)
      && (ProfessionalTip in tips <==> paint.priceCategory == Professional)
      && (DefaultTip in tips <==> paint.opacity == SemiOpaque && paint.priceCategory != Professional)
  {
    match CuratedFor(curated, paint.name, 0)
    case Some(tips) => tips
    case None =>
      var byOpacity := if paint.opacity == Transparent then [TransparentTip]
        else if paint.opacity == Opaque then [OpaqueTip] else [];
      var byPrice := if paint.priceCategory == Professional then [ProfessionalTip] else [];
      assert DefaultTip != TransparentTip && DefaultTip != OpaqueTip && DefaultTip != ProfessionalTip;
      if byOpacity + byPrice == [] then
        assert paint.opacity == SemiOpaque;
        assert DefaultTip in [DefaultTip];
        [DefaultTip]
      else byOpacity + byPrice
  }

  /**
   * `get_painting_tips`: the curated list when the paint's name has one;
   * otherwise one opacity tip, one tier tip, or the generic tip when neither
   * applies. The colour argument is not used.
   */
  method PaintingTips(curated: seq<(string, seq<string>)>, rgb: Rgb, paint: Paint) returns (tips: seq<string>)
    ensures tips == Tips(curated, paint)
  {
    var known := CuratedFor(curated, paint.name, 0);
    if known.Some? {
      return known.value;
    }
    tips := [];
    if paint.opacity == Transparent {
      tips := tips + [TransparentTip];
    } else if paint.opacity == Opaque {
      tips := tips + [OpaqueTip];
    }
    if paint.priceCategory == Professional {
      tips := tips + [ProfessionalTip];
    }
    if tips == [] {
      tips := [DefaultTip];
    }
  }

  /** The tips table lists exactly the paints of the table, by name and in the same order. */
  lemma CuratedNamesMatchPaints()
    ensures |CuratedTips| == |BasicOilPaints|
    ensures forall i | 0 <= i < |BasicOilPaints| :: CuratedTips[i].0 == BasicOilPaints[i].1.name
  {
  }

  /** Every paint of `paints` has an entry in `curated`. */
  predicate AllCurated(paints: PaintTable, curated: seq<(string, seq<string>)>)
  {
    forall j | 0 <= j < |paints| :: CuratedFor(curated, paints[j].1.name, 0).Some?
  }

  /** Every paint of the table has a curated entry, so the matcher never falls back. */
  lemma EveryPaintIsCurated()
    ensures AllCurated(BasicOilPaints, CuratedTips)
  {
    CuratedNamesMatchPaints();
    forall i | 0 <= i < |BasicOilPaints|
      ensures CuratedFor(CuratedTips, BasicOilPaints[i].1.name, 0).Some?
    {
      assert CuratedTips[i].0 == BasicOilPaints[i].1.name;
    }
  }

  // ---------------------------------------------------------------- Property analysis

  /** The temperature categories, with the key the dictionary stores. */
  datatype Temperature = Warm | Cool | NeutralTemperature
  {
    function Key(): string
    {
      match this
      case Warm => "warm"
      case Cool => "cool"
      case NeutralTemperature => "neutral"
    }
  }

  /** The three-step levels used for intensity ("high"/"medium"/"low") and brightness ("light"/"medium"/"dark"). */
  datatype Grade = Upper | Middle | Lower

  function IntensityKey(g: Grade): string
  {
    match g
    case Upper => "high"
    case Middle => "medium"
    case Lower => "low"
  }

  function BrightnessKey(g: Grade): string
  {
    match g
    case Upper => "light"
    case Middle => "medium"
    case Lower => "dark"
  }

  datatype TemperatureBand = TemperatureBand(category: Temperature, description: string)
  datatype Level = Level(level: Grade, value: int, description: string)

  /** The `get_mixing_behavior` dictionary. */
  datatype Behavior = Behavior(
    dominantPrimary: string,
    mixingWarnings: seq<string>,
    complementarySuggestions: seq<string>,
    harmonySuggestions: seq<string>)

  /** The `analyze_oil_paint_properties` dictionary. */
  datatype Properties = Properties(
    temperature: TemperatureBand,
    intensity: Level,
    brightness: Level,
    mixingBehavior: Behavior,
    applicationSuggestions: seq<string>)

  /** Colour temperature from the red–blue balance, with a margin of 30. */
  function TemperatureOf(c: Rgb): TemperatureBand
  {
    if c.r > c.b + 30 then TemperatureBand(Warm, "Warme Farbe - vorwärtsdrängend")
    else if c.b > c.r + 30 then TemperatureBand(Cool, "Kühle Farbe - zurückweichend")
    else TemperatureBand(NeutralTemperature, "Neutrale Temperatur - ausgewogen")
  }

  /** Intensity: the spread between the extreme channels, banded above 200 and above 100. */
  function IntensityOf(c: Rgb): Level
  {
    var intensity := MaxChannel(c) - MinChannel(c);
    if intensity > 200 then Level(Upper, intensity, "Sehr intensive Farbe - sparsam dosieren")
    else if intensity > 100 then Level(Middle, intensity, "Mittlere Intensität - vielseitig einsetzbar")
    else Level(Lower, intensity, "Gedeckte Farbe - gut für Schatten und Grundtöne")
  }

  /** The channel mean, a float in the source. */
  function Mean(c: Rgb): real
  {
    (c.r + c.g + c.b) as real / 3.0
  }

  /** Brightness: the channel mean banded above 200 and above 100; the value is the mean truncated. */
  function BrightnessOf(c: Rgb): Level
  {
    var brightness := Mean(c);
    if brightness > 200.0 then Level(Upper, Trunc(brightness), "Helle Farbe - für Highlights und Lichteffekte")
    else if brightness > 100.0 then Level(Middle, Trunc(brightness), "Mittlere Helligkeit - für Mitteltöne")
    else Level(Lower, Trunc(brightness), "Dunkle Farbe - für Schatten und Konturen")
  }

  /** A comparison of the mean against a whole number is a comparison of the channel sum against three times it. */
  lemma MeanComparison(c: Rgb, n: int)
    ensures Mean(c) > n as real <==> c.r + c.g + c.b > 3 * n
    ensures Mean(c) < n as real <==> c.r + c.g + c.b < 3 * n
  {
  }

  /** The truncated mean is the channel sum divided by three, rounded down. */
  lemma {:induction false} MeanValue(c: Rgb)
    requires Valid(c)
    ensures Trunc(Mean(c)) == (c.r + c.g + c.b) / 3
  {
    var sum := c.r + c.g + c.b;
    assert Mean(c) * 3.0 == sum as real;
    FloorFromProduct(Mean(c), 3, sum);
  }

  /** Temperature is warm exactly when `r > b + 30`, cool exactly when `b > r + 30`, neutral otherwise. */
  lemma TemperatureBands(c: Rgb)
    ensures TemperatureOf(c).category == Warm <==> c.r > c.b + 30
    ensures TemperatureOf(c).category == Cool <==> c.b > c.r + 30
    ensures TemperatureOf(c).category == NeutralTemperature <==> -30 <= c.r - c.b <= 30
  {
  }

  /** Intensity is `max - min`, in [0,255], graded high above 200, medium above 100, low otherwise. */
  lemma IntensityBands(c: Rgb)
    requires Valid(c)
    ensures IntensityOf(c).value == MaxChannel(c) - MinChannel(c) && 0 <= IntensityOf(c).value <= 255
    ensures IntensityOf(c).level == Upper <==> IntensityOf(c).value > 200
    ensures IntensityOf(c).level == Middle <==> 100 < IntensityOf(c).value <= 200
    ensures IntensityOf(c).level == Lower <==> IntensityOf(c).value <= 100
  {
  }

  /**
   * The brightness value is `(r + g + b) / 3` rounded down, in [0,255]; its
   * level is decided on the exact mean, so a channel sum of 601 is "light"
   * although its value is 200.
   */
  lemma {:induction false} BrightnessBands(c: Rgb)
    requires Valid(c)
    ensures BrightnessOf(c).value == (c.r + c.g + c.b) / 3 && 0 <= BrightnessOf(c).value <= 255
    ensures BrightnessOf(c).level == Upper <==> c.r + c.g + c.b > 600
    ensures BrightnessOf(c).level == Middle <==> 300 < c.r + c.g + c.b <= 600
    ensures BrightnessOf(c).level == Lower <==> c.r + c.g + c.b <= 300
  {
    MeanValue(c);
    MeanComparison(c, 200);
    MeanComparison(c, 100);
  }

  /** Which primary `get_mixing_behavior` reports, in its order of priority. */
  datatype Primary = WarmRed | CoolBlue | BrightYellow | NoPrimary

  predicate IsWarm(c: Rgb) { c.r > Max(c.g, c.b) }
  predicate IsCool(c: Rgb) { c.b > Max(c.r, c.g) }
  /** `g > b and (r + g) > b * 1.5`. */
  predicate HasYellow(c: Rgb) { c.g > c.b && (c.r + c.g) as real > c.b as real * 1.5 }

  function DominantPrimary(c: Rgb): Primary
  {
    if IsWarm(c) then WarmRed
    else if IsCool(c) then CoolBlue
    else if HasYellow(c) then BrightYellow
    else NoPrimary
  }

  /** The behaviour dictionary for a classification; harmony suggestions are never filled. */
  function BehaviorOf(p: Primary): Behavior
  {
    match p
    case WarmRed => Behavior("Rot (warm)", ["Kann andere Farben schnell überwältigen"], ["Mit Grüntönen für Neutralisation"], [])
    case CoolBlue => Behavior("Blau (kühl)", ["Tendiert zu Schlammigkeit mit Erdfarben"], ["Mit Orangetönen für Lebendigkeit"], [])
    case BrightYellow => Behavior("Gelb (hell)", ["Verliert schnell an Leuchtkraft"], ["Mit Violetttönen für Kontrast"], [])
    case NoPrimary => Behavior("", [], [], [])
  }

  function MixingBehavior(c: Rgb): (b: Behavior)
    ensures |b.mixingWarnings| <= 1 && |b.complementarySuggestions| == |b.mixingWarnings|
    ensures b.harmonySuggestions == []
    ensures b.dominantPrimary == "" <==> b.mixingWarnings == []
    ensures b.dominantPrimary == "" <==> !IsWarm(c) && !IsCool(c) && !HasYellow(c)
  {
    BehaviorOf(DominantPrimary(c))
  }

  /**
   * `get_mixing_behavior`: start from the empty dictionary and, for the
   * first test that holds (warm, cool, yellow), set the primary and append
   * one warning and one complementary suggestion.
   */
  method GetMixingBehavior(c: Rgb) returns (behavior: Behavior)
    ensures behavior == MixingBehavior(c)
    ensures |behavior.mixingWarnings| <= 1 && |behavior.complementarySuggestions| == |behavior.mixingWarnings|
    ensures behavior.harmonySuggestions == []
    ensures behavior.dominantPrimary == "" <==> behavior.mixingWarnings == []
  {
    var isWarm := c.r > Max(c.g, c.b);
    var isCool := c.b > Max(c.r, c.g);
    var hasYellow := c.g > c.b && (c.r + c.g) as real > c.b as real * 1.5;
    behavior := Behavior("", [], [], []);
    if isWarm {
      behavior := behavior.(dominantPrimary := "Rot (warm)");
      behavior := behavior.(mixingWarnings := behavior.mixingWarnings + ["Kann andere Farben schnell überwältigen"]);
      behavior := behavior.(complementarySuggestions := behavior.complementarySuggestions + ["Mit Grüntönen für Neutralisation"]);
    } else if isCool {
      behavior := behavior.(dominantPrimary := "Blau (kühl)");
      behavior := behavior.(mixingWarnings := behavior.mixingWarnings + ["Tendiert zu Schlammigkeit mit Erdfarben"]);
      behavior := behavior.(complementarySuggestions := behavior.complementarySuggestions + ["Mit Orangetönen für Lebendigkeit"]);
    } else if hasYellow {
      behavior := behavior.(dominantPrimary := "Gelb (hell)");
      behavior := behavior.(mixingWarnings := behavior.mixingWarnings + ["Verliert schnell an Leuchtkraft"]);
      behavior := behavior.(complementarySuggestions := behavior.complementarySuggestions + ["Mit Violetttönen für Kontrast"]);
    }
  }

  /**
   * The priority order only matters between warm and yellow: a colour is
   * never both warm and cool, nor both cool and yellow, but can be warm and
   * yellow at once, and then warm wins. The yellow test is `2(r + g) > 3b`.
   */
  lemma PrimaryOverlaps(c: Rgb)
    ensures !(IsWarm(c) && IsCool(c)) && !(IsCool(c) && HasYellow(c))
    ensures HasYellow(c) <==> c.g > c.b && 2 * (c.r + c.g) > 3 * c.b
    ensures IsWarm(c) && HasYellow(c) ==> DominantPrimary(c) == WarmRed
    ensures IsWarm(Rgb(200, 100, 0)) && HasYellow(Rgb(200, 100, 0))
  {
  }

  // ---------------------------------------------------------------- Application suggestions

  /** The six groups of suggestions, in the order the source may extend the list with them. */
  datatype Group = Bright | Dark | Saturated | Reds | Greens | Blues

  function Uses(g: Group): seq<string>
  {
    match g
    case Bright => ["Himmel und Wolken", "Highlights auf Haut", "Reflektionen auf Wasser", "Lichteffekte"]
    case Dark => ["Tiefe Schatten", "Nachtstimmungen", "Konturen und Details", "Untermalung"]
    case Saturated => ["Blumenmalerei", "Stillleben-Akzente", "Expressionistische Werke", "Moderne Kompositionen"]
    case Reds => ["Hauttöne", "Sonnenuntergänge", "Blüten"]
    case Greens => ["Landschaft", "Laub", "Natürliche Szenen"]
    case Blues => ["Himmel", "Wasser", "Kühle Schatten"]
  }

  /** The groups the colour selects, in extension order: by mean, by saturation, by hue. */
  function Groups(c: Rgb): seq<Group>
  {
    var brightness := Mean(c);
    var saturation := MaxChannel(c) - MinChannel(c);
    (if brightness > 200.0 then [Bright] else if brightness < 80.0 then [Dark] else [])
    + (if saturation > 150 then [Saturated] else [])
    + (if c.r > c.g + c.b then [Reds] else if c.g > c.r + c.b then [Greens]
       else if c.b > c.r + c.g then [Blues] else [])
  }

  /** The concatenation of the uses of a list of groups. */
  function Concat(gs: seq<Group>): seq<string>
  {
    if gs == [] then [] else Uses(gs[0]) + Concat(gs[1..])
  }

  lemma {:induction false} ConcatMembership(gs: seq<Group>, t: string)
    ensures t in Concat(gs) <==> exists g | g in gs :: t in Uses(g)
  {
    if gs != [] {
      ConcatMembership(gs[1..], t);
      assert forall g | g in gs :: g == gs[0] || g in gs[1..];
    }
  }

  /** No suggestion belongs to two groups, and no group repeats a suggestion. */
  lemma UsesDisjoint(g: Group, h: Group, t: string)
    requires t in Uses(g) && t in Uses(h)
    ensures g == h
  {
  }

  predicate NoDuplicates(s: seq<string>)
  {
    forall i, j | 0 <= i < j < |s| :: s[i] != s[j]
  }

  /** Keeps the first occurrence of each string: one of the orders `list(set(...))` may produce. */
  function Dedup(s: seq<string>): (d: seq<string>)
    ensures NoDuplicates(d)
    ensures forall t :: t in d <==> t in s
  {
    if s == [] then []
    else
      var prefix := Dedup(s[..|s| - 1]);
      assert forall t :: t in s <==> t in s[..|s| - 1] || t == s[|s| - 1];
      if s[|s| - 1] in prefix then prefix else prefix + [s[|s| - 1]]
  }

  function ApplicationSuggestions(c: Rgb): (suggestions: seq<string>)
    ensures NoDuplicates(suggestions)
    ensures forall t :: t in suggestions <==> t in Concat(Groups(c))
  {
    Dedup(Concat(Groups(c)))
  }

  /** Removes repeated strings, keeping each first occurrence in place. */
  method RemoveDuplicates(s: seq<string>) returns (d: seq<string>)
    ensures d == Dedup(s)
  {
    d := [];
    for i := 0 to |s|
      invariant d == Dedup(s[..i])
    {
      assert s[..i + 1][..i] == s[..i];
      if s[i] !in d {
        d := d + [s[i]];
      }
    }
    assert s[..|s|] == s;
  }

  /** Extends an empty list with the uses of each group in turn. */
  method Extend(chosen: seq<Group>) returns (collected: seq<string>)
    ensures collected == Concat(chosen)
  {
    collected := [];
    for i := 0 to |chosen|
      invariant collected == Concat(chosen[..i])
    {
      ConcatAppend(chosen[..i], chosen[i]);
      assert chosen[..i + 1] == chosen[..i] + [chosen[i]];
      collected := collected + Uses(chosen[i]);
    }
    assert chosen[..|chosen|] == chosen;
  }

  /**
   * `get_application_suggestions`: extend the list with the brightness,
   * saturation and hue groups, then drop duplicates.
   */
  method GetApplicationSuggestions(c: Rgb) returns (suggestions: seq<string>)
    ensures suggestions == ApplicationSuggestions(c)
  {
    var chosen: seq<Group> := [];
    var brightness := Mean(c);
    var saturation := MaxChannel(c) - MinChannel(c);
    if brightness > 200.0 {
      chosen := chosen + [Bright];
    } else if brightness < 80.0 {
      chosen := chosen + [Dark];
    }
    if saturation > 150 {
      chosen := chosen + [Saturated];
    }
    if c.r > c.g + c.b {
      chosen := chosen + [Reds];
    } else if c.g > c.r + c.b {
      chosen := chosen + [Greens];
    } else if c.b > c.r + c.g {
      chosen := chosen + [Blues];
    }
    assert chosen == Groups(c);
    var collected := Extend(chosen);
    suggestions := RemoveDuplicates(collected);
  }

  lemma {:induction false} ConcatAppend(gs: seq<Group>, g: Group)
    ensures Concat(gs + [g]) == Concat(gs) + Uses(g)
  {
    if gs == [] {
      assert [g][1..] == [];
    } else {
      assert (gs + [g])[1..] == gs[1..] + [g];
      ConcatAppend(gs[1..], g);
    }
  }

  /** The condition under which `get_application_suggestions` selects a group, over the channel sum. */
  predicate Selects(c: Rgb, g: Group)
  {
    match g
    case Bright => c.r + c.g + c.b > 600
    case Dark => c.r + c.g + c.b < 240
    case Saturated => MaxChannel(c) - MinChannel(c) > 150
    case Reds => c.r > c.g + c.b
    case Greens => c.g > c.r + c.b
    case Blues => c.b > c.r + c.g
  }

  /** A group is selected exactly when its condition holds; for valid colours at most one hue group is. */
  lemma SelectedGroups(c: Rgb, g: Group)
    requires Valid(c)
    ensures g in Groups(c) <==> Selects(c, g)
  {
    MeanComparison(c, 200);
    MeanComparison(c, 80);
  }

  /**
   * The suggestions hold no duplicates, and a suggestion appears exactly
   * when the group it belongs to is selected: the bright uses when
   * `r + g + b > 600`, the dark ones when `r + g + b < 240`, the saturated
   * ones when `max - min > 150`, and the red, green and blue ones when that
   * channel exceeds the sum of the other two.
   */
  lemma {:induction false} SuggestionGroups(c: Rgb, g: Group, t: string)
    requires Valid(c) && t in Uses(g)
    ensures NoDuplicates(ApplicationSuggestions(c))
    ensures t in ApplicationSuggestions(c) <==> Selects(c, g)
  {
    ConcatMembership(Groups(c), t);
    SelectedGroups(c, g);
    forall h | h in Groups(c) && t in Uses(h)
      ensures h == g
    {
      UsesDisjoint(g, h, t);
    }
  }

  /** For a valid colour at most one channel exceeds the sum of the other two, so at most one hue group is chosen. */
  lemma HueGroupsExclusive(c: Rgb)
    requires Valid(c)
    ensures !(Selects(c, Reds) && Selects(c, Greens))
    ensures !(Selects(c, Reds) && Selects(c, Blues))
    ensures !(Selects(c, Greens) && Selects(c, Blues))
  {
  }

  /**
   * `analyze_oil_paint_properties`: the three bands plus the mixing
   * behaviour and the application suggestions of the colour.
   */
  function AnalyzeOilPaintProperties(c: Rgb): (p: Properties)
    ensures p.temperature.category == Warm <==> c.r > c.b + 30
    ensures p.temperature.category == Cool <==> c.b > c.r + 30
  {
    Properties(TemperatureOf(c), IntensityOf(c), BrightnessOf(c), MixingBehavior(c), ApplicationSuggestions(c))
  }

  /**
   * The property record in integer terms: temperature is warm exactly when
   * `r > b + 30` and cool exactly when `b > r + 30`; intensity is
   * `max - min`, high above 200 and low up to 100; brightness is the
   * channel sum over three rounded down, light exactly when the sum exceeds
   * 600 and dark exactly when it is at most 300.
   */
  lemma PropertyBands(c: Rgb)
    requires Valid(c)
    ensures var p := AnalyzeOilPaintProperties(c);
      && (p.temperature.category == Warm <==> c.r > c.b + 30)
      && (p.temperature.category == Cool <==> c.b > c.r + 30)
      && p.intensity.value == MaxChannel(c) - MinChannel(c)
      && (p.intensity.level == Upper <==> p.intensity.value > 200)
      && (p.intensity.level == Lower <==> p.intensity.value <= 100)
      && p.brightness.value == (c.r + c.g + c.b) / 3
      && (p.brightness.level == Upper <==> c.r + c.g + c.b > 600)
      && (p.brightness.level == Lower <==> c.r + c.g + c.b <= 300)
  {
    TemperatureBands(c);
    IntensityBands(c);
    BrightnessBands(c);
  }

  // ---------------------------------------------------------------- The matcher

  /** The dictionary `rgb_to_oil_paint_match` returns; `distance` is squared. */
  datatype OilPaintMatch = OilPaintMatch(
    closestPurePaint: Paint,
    distance: int,
    suggestedMixtures: seq<Mixture>,
    paintingTips: seq<string>,
    colorProperties: Properties)

  /** The recipe book satisfies the precondition of the suggestion loop. */
  lemma RecipeBookMixable()
    ensures Mixable(MixingRecipes)
  {
    RecipeBookWellFormed();
    forall k | 0 <= k < |MixingRecipes|
      ensures Total(MixingRecipes[k].1.ratios) > 0.0
    {
      PositiveTotal(MixingRecipes[k].1.ratios, |MixingRecipes[k].1.ratios|);
    }
  }

  /**
   * The recipe loop of `rgb_to_oil_paint_match`: mix every recipe of two or
   * more components and append it when it passes the tolerance test.
   */
  method SuggestMixtures(rgb: Rgb, paints: PaintTable, recipes: seq<(string, Recipe)>, minDistance: int)
    returns (suggested: seq<Mixture>)
    requires Mixable(recipes)
    ensures suggested == Admitted(rgb, paints, recipes, minDistance, |recipes|)
  {
    suggested := [];
    for k := 0 to |recipes|
      invariant suggested == Admitted(rgb, paints, recipes, minDistance, k)
    {
      var name, recipe := recipes[k].0, recipes[k].1;
      if |recipe.components| >= 2 {
        var mixed := MixRecipe(paints, recipe);
        var mixtureDistance := SqDist(rgb, mixed);
        if Admits(mixtureDistance, minDistance) {
          suggested := suggested + [Mixture(name, recipe, mixtureDistance, mixed)];
        }
      }
    }
  }

  /** The returned suggestions: at most three, closest first, and none at all on an exact match. */
  lemma SuggestedShape(rgb: Rgb, paints: PaintTable, recipes: seq<(string, Recipe)>, minDistance: int)
    requires Mixable(recipes)
    ensures var r := Suggested(rgb, paints, recipes, minDistance);
      && |r| <= 3 && SortedByDistance(r)
      && (minDistance == 0 ==> r == [])
  {
    if minDistance == 0 {
      ExactMatchAdmitsNone(rgb, paints, recipes, |recipes|);
    }
  }

  /**
   * `rgb_to_oil_paint_match` over a paint table, a recipe book and a tips
   * table: the first nearest paint and its (minimal) distance, the admitted
   * mixtures sorted by distance and cut to three — none at all on an exact
   * match — the tips for the paint found, taken from the curated table
   * whenever it covers every paint, and the colour's properties.
   */
  method MatchOilPaint(rgb: Rgb, paints: PaintTable, recipes: seq<(string, Recipe)>, curated: seq<(string, seq<string>)>)
    returns (m: OilPaintMatch)
    requires |paints| > 0 && Mixable(recipes)
    ensures var i := Nearest(rgb, Keys(paints));
      && m.closestPurePaint == paints[i].1
      && m.distance == SqDist(rgb, paints[i].0)
      && (forall j | 0 <= j < |paints| :: m.distance <= SqDist(rgb, paints[j].0))
    ensures m.suggestedMixtures == Suggested(rgb, paints, recipes, m.distance)
    ensures |m.suggestedMixtures| <= 3 && SortedByDistance(m.suggestedMixtures)
    ensures m.distance == 0 ==> m.suggestedMixtures == []
    ensures m.paintingTips == Tips(curated, m.closestPurePaint)
    ensures AllCurated(paints, curated) ==> CuratedFor(curated, m.closestPurePaint.name, 0) == Some(m.paintingTips)
    ensures m.colorProperties == AnalyzeOilPaintProperties(rgb)
  {
    var closest, minDistance := ClosestPaint(rgb, paints);
    var suggested := SuggestMixtures(rgb, paints, recipes, minDistance);
    suggested := SortByDistance(suggested);
    var tips := PaintingTips(curated, rgb, closest);
    m := OilPaintMatch(closest, minDistance, Take(suggested, 3), tips, AnalyzeOilPaintProperties(rgb));
    SuggestedShape(rgb, paints, recipes, minDistance);
    assert forall j | 0 <= j < |paints| :: Keys(paints)[j] == paints[j].0;
  }

  /**
   * The matcher on the built-in tables. Every paint of the table has
   * curated tips, so the tips always come from the curated table.
   */
  method RgbToOilPaintMatch(rgb: Rgb) returns (m: OilPaintMatch)
    ensures var i := Nearest(rgb, Keys(BasicOilPaints));
      && m.closestPurePaint == BasicOilPaints[i].1
      && m.distance == SqDist(rgb, BasicOilPaints[i].0)
    ensures m.suggestedMixtures == Suggested(rgb, BasicOilPaints, MixingRecipes, m.distance)
    ensures |m.suggestedMixtures| <= 3
    ensures m.distance == 0 ==> m.suggestedMixtures == []
    ensures CuratedFor(CuratedTips, m.closestPurePaint.name, 0) == Some(m.paintingTips)
    ensures m.colorProperties == AnalyzeOilPaintProperties(rgb)
  {
    RecipeBookMixable();
    EveryPaintIsCurated();
    m := MatchOilPaint(rgb, BasicOilPaints, MixingRecipes, CuratedTips);
  }
}
