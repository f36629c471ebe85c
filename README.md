# FARBDIEB colour analysis core, modelled in Dafny

FARBDIEB takes the dominant colours of a picture and describes each of them for
painters. It gives:

- the nearest Pantone swatch;
- the HSL, CMYK and LAB values;
- a Goethe colour-psychology reading and Itten harmonies;
- colour-blindness simulations;
- the closest artists' oil paint, with suggested mixing recipes, painting tips
  and painterly properties (temperature, intensity, brightness, mixing
  behaviour, subjects).

This project models that core and proves what each operation promises. It is
organised by source file:

| Dafny file | module | models |
|---|---|---|
| `color.dfy` | `Color` | RGB triples, squared distance, the first-wins nearest-key scan both lookups share, `#rrggbb` and decimal text with their parsers |
| `colorsys.dfy` | `Colorsys` | Python's `colorsys.rgb_to_hls` / `hls_to_rgb`, over exact reals |
| `pantone.dfy` | `Pantone` | `pantone_colors` and `rgb_to_pantone_name` |
| `color_theory.dfy` | `ColorTheory` | `rgb_to_hsl`, `rgb_to_cmyk`, the clamp of `rgb_to_lab`, `GoetheFarbenlehre`, `IttenFarbkreis`, `ColorBlindnessSimulator` and `get_comprehensive_color_analysis` |
| `oil_paint.dfy` | `OilPaint` | `BASIC_OIL_PAINTS`, `MIXING_RECIPES`, `SPECIFIC_PAINTING_TIPS`, `rgb_to_oil_paint_match`, `get_painting_tips`, `analyze_oil_paint_properties`, `get_mixing_behavior` and `get_application_suggestions` |
| `color_utils.dfy` | `ColorUtils` | the frequency mode of `extract_dominant_colors` (`Counter`, `most_common`, and the three output lists) |

The model keeps the source's form.

**Pure code becomes functions and lemmas.** This covers:

- the conversions;
- the lookups;
- the property bands;
- `most_common`, modelled as a fold into a counter, then a stable sort and a prefix.

**Step-by-step code becomes methods with loops, proved against those
functions.** Each method below has an `ensures` that ties its result to the
matching function:

- the argmin over the paints;
- the mixing accumulators;
- the recipe loop;
- the triadic and analogous loops;
- the list-building of tips, mixing behaviour and suggestions.

**The Goethe table is a class.** Its entries are objects that
`AnalyzeColorPsychology` hands out and updates in place. As in the source,
qualifiers pile up across calls (`RepeatedAnalysis`).

**Distances are squared.** `sqrt` is monotone, so the argmins are unchanged.
The 20 % tolerance `sqrt(dm) < 1.2 * sqrt(dp)` becomes `25 * dm < 36 * dp`.

**Python's `int()` on floats is `Trunc`.** It rounds toward zero, so it differs
from the floor for negative LAB values.

**Python's `% 1.0` and `% 360` are Dafny's `%` and `Frac`.** These agree because
the divisor is positive.

**In two places the model follows behaviour of the code that may be
surprising:**

- A mixture is admitted only when it is *strictly* closer than 1.2 times the
  closest single paint (`<` in `oil_paint_data.py:259`), not when it is at most
  that distance.
- The application suggestions are deduplicated with `list(set(...))`. Their
  order depends on string hashing, so the model keeps the first occurrence
  of each suggestion. The contracts state only membership and the absence
  of duplicates, which hold for every order.

## Model

| member | source | states |
|---|---|---|
| Color.SqDist | pantone_data.py:18-19 | The squared distance is never negative and is zero exactly when the two triples are equal |
| Color.SqDistSymmetric | oil_paint_data.py:221-223 | The distance from c1 to c2 equals the distance from c2 to c1 |
| Color.Nearest | pantone_data.py:21 | `min(keys, key=distance)` over a non-empty key list: the index returned is at minimal distance from the target, and every earlier key is strictly farther (first minimum wins) |
| Color.FirstNearestUnique | pantone_data.py:21 | At most one index is the first nearest key, so the scan's answer is determined |
| Color.NearestOfKey | pantone_data.py:21 | A colour that is itself a key (and not repeated earlier) is mapped to its own position |
| Color.Trunc | color_theory.py:8 | `int(x)` rounds toward zero: the floor for non-negative x, minus the floor of -x otherwise; for x >= 0 it lies in (x-1, x], for x < 0 in [x, x+1) |
| Color.HexString | color_utils.py:21 | `'#{:02x}{:02x}{:02x}'` is seven characters starting with '#'; that the digits are lower-case and read back to the colour is `HexEntry` and `HexRoundTrip` |
| Color.UpperHexString | color_theory.py:171 | The upper-case text is seven characters: '#' and six digits from 0-9A-F |
| Color.HexRoundTrip | color_utils.py:21 | Parsing `'#{:02x}{:02x}{:02x}'` of a valid colour gives back the colour |
| Color.ToUpperOfHex | color_theory.py:171 | `.upper()` of the lower-case hex text is the text written with upper-case digits |
| Color.UpperHexRoundTrip | color_theory.py:171 | The upper-case hex text is '#' plus six digits from 0-9A-F, and it parses back to the colour |
| Color.NatTextRoundTrip | color_theory.py:172-175 | The decimal text of a natural number reads back to the number |
| Color.IntTextRoundTrip | color_theory.py:172-175 | `str(n)` of any integer, with a minus sign for negatives, reads back to n |
| Color.TupleText | color_theory.py:173-175 | `str` of an integer tuple is bracketed by '(' and ')' |
| Colorsys.RgbToHls | color_theory.py:7 | `colorsys.rgb_to_hls` of fractions: hue in [0,1), lightness and saturation in [0,1]; greys have hue 0 and saturation 0 with lightness equal to the channel; the lightness is the mean of the extreme channels |
| Colorsys.Saturation | color_theory.py:7 | The saturation of a non-grey colour lies in (0,1] on both sides of lightness one half |
| Colorsys.HlsToRgb | color_theory.py:100 | `colorsys.hls_to_rgb` maps a lightness and a saturation in [0,1] to channels in [0,1]; saturation 0 gives the grey of the lightness |
| Colorsys.SectorBetween | color_theory.py:100 | The sector helper `_v` of colorsys never leaves the interval between its two bounds |
| Colorsys.BoundsAreFractions | color_theory.py:100 | The two bounds `hls_to_rgb` interpolates lie in [0,1] on either side of the lightness |
| Pantone.Keys | pantone_data.py:2-15 | The key list holds the 12 swatch colours in declaration order |
| Pantone.NearestIndex | pantone_data.py:21 | The chosen swatch is the first at minimal distance from the colour |
| Pantone.NearestName | pantone_data.py:17-22 | The lookup is total and always answers one of the table's names |
| Pantone.KeysDistinct | pantone_data.py:2-15 | No two swatches share a colour, so the dictionary keys are all present |
| Pantone.NearestNameMinimal | pantone_data.py:17-22 | The answered name belongs to a swatch at minimal distance, and every earlier swatch is strictly farther |
| Pantone.NearestNameOfKey | pantone_data.py:21-22 | Each swatch colour is named by its own entry |
| Pantone.WhiteAndBlack | pantone_data.py:12-13 | (255,255,255) is named "White" and (0,0,0) "Black" |
| ColorTheory.RgbToHsl | color_theory.py:5-8 | h lies in [0,360) and s, l in [0,100]; greys have h = 0 and s = 0 |
| ColorTheory.HslLightness | color_theory.py:7-8 | The lightness is the integer part of 100 times the mean of the extreme channels over 255 |
| ColorTheory.CmykGuardHolds | color_theory.py:16-19 | For a non-black colour 1 - k is the largest channel fraction and positive, so the `(1-k) != 0` guards never take their else branch |
| ColorTheory.CmykPercent | color_theory.py:17-21 | Each scaled component is non-negative and equals 100 (max - x) / max exactly |
| ColorTheory.CmykComponentIntegerForm | color_theory.py:17-21 | `int(c*100)` equals the integer quotient 100 (max - x) div max |
| ColorTheory.RgbToCmyk | color_theory.py:10-21 | Black gives exactly (0,0,0,100); otherwise c, m, y are 100 (max - channel) div max and k is 100 (255 - max) div 255; all four lie in [0,100] |
| ColorTheory.CmykExtremes | color_theory.py:15-21 | The slot of a maximal channel is 0, and white gives (0,0,0,0) |
| ColorTheory.RgbToLab | color_theory.py:23-38 | Whatever the cube root, the output lies in [0,100] x [-128,127] x [-128,127] |
| ColorTheory.LabOfBlack | color_theory.py:30-38 | Black has lightness 0 for any cube root |
| ColorTheory.HueBucket | color_theory.py:61-73 | The chosen bucket's hue range contains the hue |
| ColorTheory.BucketsPartition | color_theory.py:61-77 | Every hue lies in exactly one of the six ranges, the one the cascade picks, so the `.get` default is never needed |
| ColorTheory.GoetheFarbenlehre.constructor | color_theory.py:43-53 | The table holds all six buckets, each a fresh entry with its initial emotion, character and effect, and no two buckets share an entry object |
| ColorTheory.Qualify | color_theory.py:80-85 | The emotion is kept, and the character and effect are only extended: the character gains ", Gedämpft" exactly when s < 30; the effect gains ", Sanft" when l > 80, ", Intensiv" when l < 20, and is unchanged exactly when 20 <= l <= 80 |
| ColorTheory.GoetheFarbenlehre.AnalyzeColorPsychology | color_theory.py:56-87 | The returned entry is the table's own entry for the hue's bucket, or a fresh neutral entry outside the table, and its texts become the qualified texts; every other entry object keeps its texts, and so does every other bucket of a valid table |
| ColorTheory.RepeatedAnalysis | color_theory.py:75-87 | Two analyses of the same muted colour return the same shared entry, and its character then carries the qualifier twice |
| ColorTheory.RotateHue | color_theory.py:99 | `(h + offset) % 360` always lies in [0,360), also for negative offsets |
| ColorTheory.RotationsCompose | color_theory.py:112 | Rotating by a and then by b is rotating by a + b |
| ColorTheory.WheelCycles | color_theory.py:99 | Two complements restore the hue; three triadic steps restore it; -30 then +30 restores it; +240 is two steps of +120 |
| ColorTheory.Harmony | color_theory.py:100-102 | A colour rebuilt from a hue, a saturation and a lightness in range has channels in [0,255] |
| ColorTheory.GreyHarmony | color_theory.py:100-102 | With saturation 0 every rotated colour is the grey 255 l div 100 |
| ColorTheory.ComplementaryColor | color_theory.py:93-102 | The complement is a valid colour, rebuilt from the hue turned by 180 degrees with the same saturation and lightness; what that means is proved by `WheelCycles` (two complements restore the hue), `Harmony` (channels in range) and `GreyHarmony` (a grey is its own complement) |
| ColorTheory.Rotations | color_theory.py:110-116 | One valid colour per offset, in offset order |
| ColorTheory.GreyRotations | color_theory.py:110-116 | A grey's rotations are all the same grey |
| ColorTheory.RotatedColors | color_theory.py:110-116 | The append loop builds exactly the list of rotations |
| ColorTheory.TriadicColors | color_theory.py:105-116 | Exactly the two colours for +120 then +240 |
| ColorTheory.AnalogousColors | color_theory.py:119-130 | Exactly the two colours for -30 then +30 |
| ColorTheory.BlendBetween | color_theory.py:140-143 | A blend with non-negative weights summing to one lies between the two channels it blends |
| ColorTheory.SimulateProtanopia | color_theory.py:136-143 | Red and green land between the input's red and green, blue between its green and blue; output channels stay in [0,255] and greys are unchanged |
| ColorTheory.SimulateDeuteranopia | color_theory.py:146-153 | Red and green land between the input's red and green, blue between its green and blue; output channels stay in [0,255] and greys are unchanged |
| ColorTheory.SimulateTritanopia | color_theory.py:156-163 | Red lands between the input's red and green, green and blue between its green and blue; output channels stay in [0,255] and greys are unchanged |
| ColorTheory.BasicRecord | color_theory.py:170-176 | The hex field is '#' and six upper-case digits that parse back to the colour; the HSL field spells the HSL tuple |
| ColorTheory.ComprehensiveColorAnalysis | color_theory.py:165-185 | The record has the basic fields, the table's own updated Goethe entry for the colour, and the complement with the triadic and analogous lists, and nothing else; every other bucket of the table keeps its texts |
| OilPaint.Keys | oil_paint_data.py:229 | The paint keys in dictionary order |
| OilPaint.KeysAreRecordedColours | oil_paint_data.py:25-153 | The 28 paints' keys are valid colours, each equal to the RGB its record carries |
| OilPaint.ClosestPaint | oil_paint_data.py:226-233 | The strict-`<` scan returns the first paint at minimal distance and that distance |
| OilPaint.FindPaint | oil_paint_data.py:248-254 | The name search stops at the first paint carrying the name, or reports that none does |
| OilPaint.MixRecipe | oil_paint_data.py:241-256 | The accumulator loop computes the truncated ratio-weighted average of the components' key colours |
| OilPaint.ContributionBounded | oil_paint_data.py:248-253 | One component adds at most 255 times its ratio over the total to each channel, and nothing negative |
| OilPaint.MixSumsBounded | oil_paint_data.py:244-253 | After n components each running sum lies between 0 and 255 times the ratios so far over the total |
| OilPaint.PrefixAtMostTotal | oil_paint_data.py:243 | With non-negative ratios a partial sum never exceeds `sum(ratios)` |
| OilPaint.MixSumsInRange | oil_paint_data.py:243-253 | With a positive total, non-negative ratios and valid key colours, each channel sum lies in [0,255] before truncation |
| OilPaint.MixedColor | oil_paint_data.py:241-256 | With a positive total, non-negative ratios and valid key colours, the truncated weighted average is a valid colour |
| OilPaint.PositiveTotal | oil_paint_data.py:243 | Positive ratios have a positive sum |
| OilPaint.RecipeBookWellFormed | oil_paint_data.py:156-214 | All 10 recipes have as many ratios as components, at least two components, and positive ratios |
| OilPaint.GreyRecipesListed | oil_paint_data.py:157-173 | The grey recipes name only paints of the table |
| OilPaint.SkinRecipesListed | oil_paint_data.py:174-190 | The skin-tone recipes name only paints of the table |
| OilPaint.NatureRecipesListed | oil_paint_data.py:191-213 | The green and blue recipes name only paints of the table |
| OilPaint.RecipeComponentsExist | oil_paint_data.py:156-214 | Every component of every recipe is found in the paint table, so no recipe silently loses a component |
| OilPaint.RecipeBookMixable | oil_paint_data.py:241-243 | Every recipe with two or more components has a non-zero ratio total, so no division by zero occurs |
| OilPaint.SuggestMixtures | oil_paint_data.py:236-265 | The recipe loop appends, in recipe order, exactly the admitted mixtures |
| OilPaint.Admitted | oil_paint_data.py:239-265 | The loop over the first n recipes admits at most one mixture per recipe |
| OilPaint.AdmittedSound | oil_paint_data.py:239-265 | Every admitted mixture comes from a recipe of two or more components, carries that recipe's mixed colour and distance, and passes the strict 1.2 tolerance |
| OilPaint.AdmittedComplete | oil_paint_data.py:239-265 | Every recipe of two or more components that passes the tolerance is admitted |
| OilPaint.ExactMatchAdmitsNone | oil_paint_data.py:259 | When the closest paint matches exactly, no mixture is admitted |
| OilPaint.InsertByDistance | oil_paint_data.py:268 | Inserting keeps every element: the result is the old list plus the new mixture, as a multiset |
| OilPaint.InsertKeepsSorted | oil_paint_data.py:268 | Inserting into a list sorted by distance keeps it sorted |
| OilPaint.SortByDistance | oil_paint_data.py:268 | `sort(key=distance)` gives a permutation sorted by ascending distance |
| OilPaint.InsertKeepsTies | oil_paint_data.py:268 | Inserting places the new mixture ahead of the mixtures at its own distance and leaves the others' relative order alone |
| OilPaint.SortIsStable | oil_paint_data.py:268 | Mixtures at equal distance keep their recipe order after sorting |
| OilPaint.Take | oil_paint_data.py:273 | `[:3]` is the prefix of length min(3, length) |
| OilPaint.Suggested | oil_paint_data.py:268-273 | At most three suggestions, in non-decreasing distance |
| OilPaint.SuggestedTopThree | oil_paint_data.py:268-273 | The suggestions are at most three, sorted, drawn from the admitted mixtures, and no admitted mixture left out is closer than one kept |
| OilPaint.SuggestedShape | oil_paint_data.py:259-273 | At most three suggestions, sorted by distance; none on an exact match |
| OilPaint.CuratedFor | oil_paint_data.py:424-425 | The curated lookup answers exactly when the name is listed, with that name's tips |
| OilPaint.PaintingTips | oil_paint_data.py:422-437 | The tip list is the curated one for a listed name, else the opacity and price-tier list, else the default tip |
| OilPaint.Tips | oil_paint_data.py:422-437 | A listed name gets its curated list unchanged; otherwise the list has one or two tips: the transparent tip iff transparent, the opaque tip iff opaque, the professional tip iff professional, the default tip iff neither applies |
| OilPaint.CuratedNamesMatchPaints | oil_paint_data.py:279-420 | The tips table lists the 28 paints' names in table order |
| OilPaint.EveryPaintIsCurated | oil_paint_data.py:279-425 | Every paint of the table has curated tips, so the matcher never reaches the fallback |
| OilPaint.MeanComparison | oil_paint_data.py:467-476 | Comparing `(r+g+b)/3` with an integer is comparing r+g+b with three times it |
| OilPaint.MeanValue | oil_paint_data.py:490 | `int(brightness)` is (r+g+b) div 3 |
| OilPaint.TemperatureBands | oil_paint_data.py:444-452 | Warm iff r > b + 30, cool iff b > r + 30, neutral otherwise |
| OilPaint.IntensityBands | oil_paint_data.py:455-464 | The intensity is max - min in [0,255]; high iff above 200, medium iff in (100,200], low iff at most 100 |
| OilPaint.BrightnessBands | oil_paint_data.py:467-476 | The value is (r+g+b) div 3 in [0,255]; light iff r+g+b > 600, medium iff in (300,600], dark iff at most 300 |
| OilPaint.AnalyzeOilPaintProperties | oil_paint_data.py:439-452 | The record's temperature is warm iff r > b + 30 and cool iff b > r + 30; the other fields carry the contracts of `IntensityOf`'s and `BrightnessOf`'s bands (`PropertyBands`), of `MixingBehavior` and of `ApplicationSuggestions` |
| OilPaint.PropertyBands | oil_paint_data.py:439-495 | The properties record carries those temperature, intensity and brightness bands and values |
| OilPaint.MixingBehavior | oil_paint_data.py:497-526 | Each list has at most one entry, harmony suggestions stay empty, and the dominant primary is "" exactly when no warning is given, which is exactly when the colour is neither warm, cool nor yellowish |
| OilPaint.GetMixingBehavior | oil_paint_data.py:497-526 | At most one classification, warm before cool before yellow; each list gets at most one entry, harmony suggestions stay empty, and the dominant primary is "" exactly when no warning is given |
| OilPaint.PrimaryOverlaps | oil_paint_data.py:502-525 | Warm and cool exclude each other, as do cool and yellow; yellow is g > b and 2(r+g) > 3b; a warm yellowish colour is classified warm |
| OilPaint.ConcatMembership | oil_paint_data.py:537-566 | A suggestion is in the extended list iff one of the chosen groups holds it |
| OilPaint.UsesDisjoint | oil_paint_data.py:537-566 | No suggestion belongs to two groups |
| OilPaint.Dedup | oil_paint_data.py:568 | `list(set(...))` holds no duplicates and exactly the elements of its input |
| OilPaint.RemoveDuplicates | oil_paint_data.py:568 | The deduplication loop computes that list |
| OilPaint.Extend | oil_paint_data.py:537-566 | The `extend` calls build the concatenation of the chosen groups' suggestions |
| OilPaint.ConcatAppend | oil_paint_data.py:537-566 | Extending by one more group appends its suggestions |
| OilPaint.ApplicationSuggestions | oil_paint_data.py:528-568 | The suggestions hold no duplicates and exactly the suggestions of the selected groups |
| OilPaint.GetApplicationSuggestions | oil_paint_data.py:528-568 | The method returns the deduplicated suggestions of the selected groups |
| OilPaint.SelectedGroups | oil_paint_data.py:534-566 | Bright iff r+g+b > 600, dark iff r+g+b < 240, saturated iff max - min > 150, red iff r > g + b, green iff g > r + b, blue iff b > r + g |
| OilPaint.SuggestionGroups | oil_paint_data.py:528-568 | No duplicates, and a suggestion appears exactly when its group's condition holds |
| OilPaint.HueGroupsExclusive | oil_paint_data.py:561-566 | At most one of the red, green and blue conditions holds |
| OilPaint.MatchOilPaint | oil_paint_data.py:216-276 | The closest paint is the first at minimal distance and the distance is that minimum; the suggestions are the top three admitted mixtures, sorted, and none on an exact match; the tips are the paint's curated tips when the table is fully curated; the properties are those of the colour |
| OilPaint.RgbToOilPaintMatch | oil_paint_data.py:216-276 | For the real tables: the first nearest paint and its distance, at most three suggestions (none on an exact match), the paint's curated tips, and the colour's properties |
| ColorUtils.Tally | color_utils.py:18 | The counter's keys are exactly its listed keys |
| ColorUtils.FirstIndex | color_utils.py:18 | The first position at which a colour occurs among the pixels |
| ColorUtils.TallyCounts | color_utils.py:18 | `Counter(pixels)` counts exactly the pixel colours, each with its number of occurrences |
| ColorUtils.TallyOrder | color_utils.py:18 | The counter's keys are the pixel colours, in first-seen order |
| ColorUtils.OrderDistinct | color_utils.py:18 | The counter lists each colour once |
| ColorUtils.Items | color_utils.py:19 | The counter's items, in key order, each with its count |
| ColorUtils.InsertKeepsNonIncreasing | color_utils.py:19 | Inserting into a list of non-increasing counts keeps it non-increasing |
| ColorUtils.SortByCount | color_utils.py:19 | Sorting by count gives a permutation of non-increasing counts |
| ColorUtils.SortKeepsRank | color_utils.py:19 | Items with equal counts keep their original order after sorting |
| ColorUtils.Take | color_utils.py:19 | `[:n]` is a prefix of length 0 for n <= 0, else min(n, length) |
| ColorUtils.MostCommon | color_utils.py:19 | `most_common(n)` gives min(n, distinct colours) items, none for n <= 0, in non-increasing count, each an item of the counter |
| ColorUtils.RankingItems | color_utils.py:18-19 | The ranking lists every pixel colour with its count, and only pixel colours |
| ColorUtils.RankingTies | color_utils.py:19 | The ranking lists each colour once, and equal counts appear in first-seen order |
| ColorUtils.DominantPrefix | color_utils.py:19 | The dominant colours are the first min(n, distinct) colours of the ranking, none when n <= 0 |
| ColorUtils.DominantColors | color_utils.py:18-19 | There are min(n, number of distinct pixel colours) colours, none for n <= 0 |
| ColorUtils.DominantColorsCount | color_utils.py:19 | At most `num_colors` colours; fewer only when every pixel colour is included |
| ColorUtils.DominantColorsOccur | color_utils.py:18-19 | The colours are pairwise distinct and each occurs among the pixels |
| ColorUtils.DominantColorsOrder | color_utils.py:18-19 | Counts are non-increasing along the list, and equal counts keep first-seen order |
| ColorUtils.DominantColorsAreTop | color_utils.py:19 | No colour left out occurs more often than any colour kept |
| ColorUtils.HexEntry | color_utils.py:21 | The hex text is '#' and six lower-case digits that parse back to the colour |
| ColorUtils.HexColors | color_utils.py:21 | One lower-case hex text per colour, each parsing back to its colour |
| ColorUtils.PantoneNames | color_utils.py:22 | One Pantone name per colour, the lookup's answer for it |
| ColorUtils.ExtractDominantColors | color_utils.py:17-25 | The RGB list is the dominant colours; the three lists are index-aligned; each hex entry is lower-case and parses to the RGB beside it; each name is the Pantone lookup of that colour |

## Left out

- Image loading and resizing with PIL, and the k-means branch (`cluster=True`, scikit-learn): these are foreign libraries. The decoded pixels are a parameter, assumed to be valid 0-255 triples.
- gui.py and `get_alternative_brands`: the GUI is I/O, and the brands function is a constant table with no logic.
- Square roots in both distance functions: squared distances are compared instead. Since `sqrt` is monotone, the argmins and the tolerance test are unchanged. The reported `distance` of a match is the squared distance.
- Binary floating point: every real is exact. Where Python's doubles round, the model and the source can differ by one unit after `int()` (for example a grey through a simulator, or CMYK components).
- The cube roots of `rgb_to_lab` are a function parameter. Only the output clamp, and black's lightness, are proved.
- ColorTheory.GoetheFarbenlehre: `COLOR_EMOTIONS` is a class attribute shared by all callers. The model keeps it as the field of one instance that callers pass around.
- OilPaint.MixedColor: the source divides by `sum(ratios)` and raises `ZeroDivisionError` when it is zero. The model requires a non-zero total, which `RecipeBookMixable` proves for every recipe of the book.
- OilPaint.Dedup: the order `list(set(...))` produces depends on string hashing. The model keeps first occurrences, and only membership and the absence of duplicates are stated.
- OilPaint.RgbToOilPaintMatch: restates only part of what `MatchOilPaint` proves about the real tables (minimality and sortedness are stated on `MatchOilPaint`), to keep the proof small.
- ColorUtils.PantoneNames: in the frequency branch the colours are NumPy arrays of 8-bit unsigned pixel values. Under NumPy 2's promotion rules, `(a - b) ** 2` in the Pantone distance is then computed modulo 256, while the model uses exact integers. The source can then name a different colour: for (144,144,144) every channel term for Black wraps to 0, so the source answers "Black" where the model answers "Pantone Cool Gray 8 C". The model states the evidently intended exact distance.
- Color.TupleText: only the brackets are stated. The round trip of each number is `IntTextRoundTrip`.
- The aggregate record's `rgb`, `cmyk` and `lab` strings: these are f-strings built like the HSL string, and only the HSL string is stated.
