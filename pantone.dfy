/**
 * The Pantone reference palette and the nearest-swatch lookup
 * (`pantone_data.py`). The palette is a fixed table of twelve swatches in
 * declaration order; the lookup is a first-wins scan over it.
 */
module Pantone {
  import opened Color

  datatype Swatch = Swatch(rgb: Rgb, name: string)

  /** `pantone_colors`, in declaration order. */
  const Swatches: seq<Swatch> := [
    Swatch(Rgb(186, 12, 47), "Pantone 186 C"),
    Swatch(Rgb(0, 56, 168), "Pantone Reflex Blue C"),
    Swatch(Rgb(255, 209, 0), "Pantone Yellow C"),
    Swatch(Rgb(0, 158, 73), "Pantone Green C"),
    Swatch(Rgb(255, 103, 31), "Pantone 165 C"),
    Swatch(Rgb(140, 198, 63), "Pantone 368 C"),
    Swatch(Rgb(0, 133, 202), "Pantone 300 C"),
    Swatch(Rgb(237, 41, 57), "Pantone Warm Red C"),
    Swatch(Rgb(46, 49, 146), "Pantone 072 C"),
    Swatch(Rgb(255, 255, 255), "White"),
    Swatch(Rgb(0, 0, 0), "Black"),
    Swatch(Rgb(128, 128, 128), "Pantone Cool Gray 8 C")
  ]

  /** The dictionary's keys, in iteration (= declaration) order. */
  function Keys(): (ks: seq<Rgb>)
    ensures |ks| == |Swatches|
    ensures forall i | 0 <= i < |ks| :: ks[i] == Swatches[i].rgb
  {
    seq(|Swatches|, i requires 0 <= i < |Swatches| => Swatches[i].rgb)
  }

  /** The index of the swatch `rgb_to_pantone_name` picks. */
  function NearestIndex(rgb: Rgb): (i: nat)
    ensures IsFirstNearest(rgb, Keys(), i)
  {
    Nearest(rgb, Keys())
  }

  /**
   * `rgb_to_pantone_name`: the name of the first swatch at minimal distance.
   * The table is never empty, so the lookup always yields one of its names.
   */
  function NearestName(rgb: Rgb): (name: string)
    ensures exists i | 0 <= i < |Swatches| :: name == Swatches[i].name
  {
    Swatches[NearestIndex(rgb)].name
  }

  /** The keys of the table are pairwise different (a dictionary keeps one entry per key). */
  lemma KeysDistinct()
    ensures forall i, j | 0 <= i < j < |Swatches| :: Swatches[i].rgb != Swatches[j].rgb
  {
  }

  /**
   * The lookup is total and minimal: its name belongs to a swatch no farther
   * from `rgb` than any other, and every swatch declared before it is
   * strictly farther away.
   */
  lemma NearestNameMinimal(rgb: Rgb)
    ensures exists i | 0 <= i < |Swatches| ::
      && NearestName(rgb) == Swatches[i].name
      && (forall j | 0 <= j < |Swatches| :: SqDist(rgb, Swatches[i].rgb) <= SqDist(rgb, Swatches[j].rgb))
      && (forall j | 0 <= j < i :: SqDist(rgb, Swatches[j].rgb) > SqDist(rgb, Swatches[i].rgb))
  {
    var i := NearestIndex(rgb);
    assert forall j | 0 <= j < |Swatches| :: Keys()[j] == Swatches[j].rgb;
  }

  /** A colour that is one of the table's keys is named by its own entry. */
  lemma {:induction false} NearestNameOfKey(i: nat)
    requires i < |Swatches|
    ensures NearestName(Swatches[i].rgb) == Swatches[i].name
  {
    KeysDistinct();
    NearestOfKey(Keys(), i);
  }

  lemma WhiteAndBlack()
    ensures NearestName(Rgb(255, 255, 255)) == "White"
    ensures NearestName(Rgb(0, 0, 0)) == "Black"
  {
    NearestNameOfKey(9);
    NearestNameOfKey(10);
  }
}
