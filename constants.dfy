/**
 * The configuration shared by the grid generator and the classifier: the
 * ordered reference palette and the shapes of the coordinate tables.
 */
module Constants {
  import opened Base
  import opened Dicts

  /** The reference palette: label to reference colour, in definition order. */
  type Palette = Dict<RGB>

  /**
   * The calibrated coordinate tables: x positions per tube count, the base y
   * of each row, and the vertical slot spacing per slot count.
   */
  datatype Tables = Tables(
    xCoord: map<int, seq<int>>,
    yCoord: seq<int>,
    yCoordDelta: map<int, int>)

  /** Every channel is an 8-bit value. */
  predicate InByteRange(c: RGB)
  {
    0 <= c.R <= 255 && 0 <= c.G <= 255 && 0 <= c.B <= 255
  }

  /** The reference palette, in the order the classifier tries it. */
  const NAME_RGB: Palette := [
    ("Red", RGB(216, 82, 81)),
    ("Light Green", RGB(73, 208, 103)),
    ("Light Blue", RGB(0, 184, 238)),
    ("Brown", RGB(157, 113, 86)),
    ("Orange", RGB(249, 122, 19)),
    ("Pink", RGB(242, 135, 239)),
    ("Beige", RGB(249, 181, 82)),
    ("Purple", RGB(156, 87, 193)),
    ("Yellow", RGB(255, 244, 92)),
    ("Empty", RGB(228, 218, 209))
  ]

  /** The palette has ten labels in a fixed order. */
  lemma NameRgbLabels()
    ensures |NAME_RGB| == 10
    ensures Keys(NAME_RGB) == ["Red", "Light Green", "Light Blue", "Brown", "Orange",
                               "Pink", "Beige", "Purple", "Yellow", "Empty"]
  {
  }

  /** No label of the palette occurs twice. */
  lemma NameRgbDistinct()
    ensures DistinctKeys(NAME_RGB)
  {
  }

  /** Every reference colour of the palette has 8-bit channels. */
  lemma NameRgbInByteRange()
    ensures forall i :: 0 <= i < |NAME_RGB| ==> InByteRange(NAME_RGB[i].1)
  {
  }

  /** The first and the last entries of the palette. */
  lemma NameRgbEnds()
    ensures "Red" in Keys(NAME_RGB) && Lookup(NAME_RGB, "Red") == RGB(216, 82, 81)
    ensures "Empty" in Keys(NAME_RGB) && Lookup(NAME_RGB, "Empty") == RGB(228, 218, 209)
  {
    NameRgbDistinct();
    LookupEntry(NAME_RGB, 0);
    LookupEntry(NAME_RGB, 9);
  }
}
