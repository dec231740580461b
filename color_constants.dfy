/**
 * The table of palette colours built from the reference palette, and the
 * named colours taken from it.
 */
module ColorConstants {
  import opened Base
  import opened Dicts
  import opened Constants
  import opened ColorModel

  /** A palette entry turned into a label and the colour built from its reference. */
  function GetNameColorTuple(entry: (string, RGB), interval: int): (t: (string, ColorState))
    ensures t.0 == entry.0 && t.1.rgb == entry.1
    ensures t.1.name == GetColorName(NAME_RGB, interval, entry.1)
  {
    (entry.0, MakeColor(entry.1, interval))
  }

  /** `COLORS`: one entry per palette label, in palette order. */
  function Colors(interval: int): (cs: Dict<ColorState>)
    ensures |cs| == |NAME_RGB|
    ensures forall i :: 0 <= i < |cs| ==>
      cs[i].0 == NAME_RGB[i].0 && cs[i].1.rgb == NAME_RGB[i].1 && Classified(cs[i].1, interval)
  {
    seq(|NAME_RGB|, i requires 0 <= i < |NAME_RGB| => GetNameColorTuple(NAME_RGB[i], interval))
  }

  /** `COLORS` has the palette's keys in the palette's order, and no key twice. */
  lemma ColorsKeys(interval: int)
    ensures Keys(Colors(interval)) == Keys(NAME_RGB)
    ensures DistinctKeys(Colors(interval))
  {
    NameRgbDistinct();
    SameKeys(NAME_RGB, Colors(interval));
  }

  /**
   * The colour stored under a label holds that label's reference and is named
   * by classifying that reference.
   */
  lemma ColorsLookup(interval: int, n: string)
    requires n in Keys(NAME_RGB)
    ensures n in Keys(Colors(interval))
    ensures Lookup(Colors(interval), n).rgb == Lookup(NAME_RGB, n)
    ensures Lookup(Colors(interval), n).name == GetColorName(NAME_RGB, interval, Lookup(NAME_RGB, n))
  {
    ColorsKeys(interval);
    NameRgbDistinct();
    var i := IndexOf(NAME_RGB, n);
    LookupEntry(NAME_RGB, i);
    LookupEntry(Colors(interval), i);
  }

  /** Entry `i` differs from every earlier entry by at least `d` on some channel. */
  predicate SeparatedFrom(p: Palette, i: int, d: int)
    requires 0 <= i < |p|
  {
    forall j :: 0 <= j < i ==> ChannelDistance(p[i].1, p[j].1) >= d
  }

  /** Every two palette references differ by at least `d` on some channel. */
  predicate Separated(p: Palette, d: int)
  {
    forall i :: 0 <= i < |p| ==> SeparatedFrom(p, i, d)
  }

  /**
   * When palette boxes are narrower than the separation of the references,
   * every reference is classified under its own label.
   */
  lemma SeparatedReferenceKeepsLabel(p: Palette, d: int, interval: int, i: int)
    requires Separated(p, d) && 0 <= interval < d && 0 <= i < |p|
    ensures GetColorName(p, interval, p[i].1) == p[i].0
  {
    assert SeparatedFrom(p, i, d);
    FirstMatchWins(p, interval, p[i].1, i);
  }

  /** Palette entry `i` is at least 59 away from every earlier entry. */
  lemma NameRgbEntrySeparated(i: int)
    requires 0 <= i < |NAME_RGB|
    ensures SeparatedFrom(NAME_RGB, i, 59)
  {
  }

  /** The palette references are at least 59 apart on some channel (Red and Brown are exactly 59 apart). */
  lemma NameRgbSeparated()
    ensures Separated(NAME_RGB, 59)
    ensures ChannelDistance(NAME_RGB[3].1, NAME_RGB[0].1) == 59
  {
    forall i | 0 <= i < |NAME_RGB|
      ensures SeparatedFrom(NAME_RGB, i, 59)
    {
      NameRgbEntrySeparated(i);
    }
  }

  /** With a tolerance from 0 to 58 every `COLORS` entry is named by its own label. */
  lemma ColorsNamedByOwnLabel(interval: int, n: string)
    requires 0 <= interval < 59 && n in Keys(NAME_RGB)
    ensures n in Keys(Colors(interval)) && Lookup(Colors(interval), n).name == n
  {
    ColorsLookup(interval, n);
    NameRgbSeparated();
    var i := IndexOf(NAME_RGB, n);
    SeparatedReferenceKeepsLabel(NAME_RGB, 59, interval, i);
  }

  /** At a tolerance of 59 the Brown reference falls in Red's box, which comes first. */
  lemma BrownNamedRedAtTolerance59()
    ensures "Brown" in Keys(Colors(59)) && Lookup(Colors(59), "Brown").name == "Red"
  {
  }

  /**
   * The colour that `COLORS` holds under the label of palette entry `i`: the
   * colour built from that entry's reference, named by its own label when the
   * tolerance is from 0 to 58.
   */
  lemma ColorsEntry(interval: int, i: int)
    requires 0 <= i < |NAME_RGB|
    ensures NAME_RGB[i].0 in Keys(Colors(interval))
    ensures Lookup(Colors(interval), NAME_RGB[i].0) == MakeColor(NAME_RGB[i].1, interval)
    ensures 0 <= interval < 59 ==> Lookup(Colors(interval), NAME_RGB[i].0).name == NAME_RGB[i].0
  {
    ColorsKeys(interval);
    LookupEntry(Colors(interval), i);
    if 0 <= interval < 59 {
      NameRgbSeparated();
      SeparatedReferenceKeepsLabel(NAME_RGB, 59, interval, i);
    }
  }

  /** `COLORS["Red"]`. */
  function Red(interval: int): (c: ColorState)
    ensures c.rgb == RGB(216, 82, 81)
    ensures c.name == GetColorName(NAME_RGB, interval, RGB(216, 82, 81))
    ensures 0 <= interval < 59 ==> c.name == "Red"
  {
    ColorsEntry(interval, 0);
    Lookup(Colors(interval), "Red")
  }

  /** `COLORS["Light Green"]`. */
  function LightGreen(interval: int): (c: ColorState)
    ensures c.rgb == RGB(73, 208, 103)
    ensures c.name == GetColorName(NAME_RGB, interval, RGB(73, 208, 103))
    ensures 0 <= interval < 59 ==> c.name == "Light Green"
  {
    ColorsEntry(interval, 1);
    Lookup(Colors(interval), "Light Green")
  }

  /** `COLORS["Light Blue"]`. */
  function LightBlue(interval: int): (c: ColorState)
    ensures c.rgb == RGB(0, 184, 238)
    ensures c.name == GetColorName(NAME_RGB, interval, RGB(0, 184, 238))
    ensures 0 <= interval < 59 ==> c.name == "Light Blue"
  {
    ColorsEntry(interval, 2);
    Lookup(Colors(interval), "Light Blue")
  }

  /** `COLORS["Brown"]`. */
  function Brown(interval: int): (c: ColorState)
    ensures c.rgb == RGB(157, 113, 86)
    ensures c.name == GetColorName(NAME_RGB, interval, RGB(157, 113, 86))
    ensures 0 <= interval < 59 ==> c.name == "Brown"
  {
    ColorsEntry(interval, 3);
    Lookup(Colors(interval), "Brown")
  }

  /** `COLORS["Orange"]`. */
  function Orange(interval: int): (c: ColorState)
    ensures c.rgb == RGB(249, 122, 19)
    ensures c.name == GetColorName(NAME_RGB, interval, RGB(249, 122, 19))
    ensures 0 <= interval < 59 ==> c.name == "Orange"
  {
    ColorsEntry(interval, 4);
    Lookup(Colors(interval), "Orange")
  }

  /** `COLORS["Pink"]`. */
  function Pink(interval: int): (c: ColorState)
    ensures c.rgb == RGB(242, 135, 239)
    ensures c.name == GetColorName(NAME_RGB, interval, RGB(242, 135, 239))
    ensures 0 <= interval < 59 ==> c.name == "Pink"
  {
    ColorsEntry(interval, 5);
    Lookup(Colors(interval), "Pink")
  }

  /** `COLORS["Beige"]`. */
  function Beige(interval: int): (c: ColorState)
    ensures c.rgb == RGB(249, 181, 82)
    ensures c.name == GetColorName(NAME_RGB, interval, RGB(249, 181, 82))
    ensures 0 <= interval < 59 ==> c.name == "Beige"
  {
    ColorsEntry(interval, 6);
    Lookup(Colors(interval), "Beige")
  }

  /** `COLORS["Purple"]`. */
  function Purple(interval: int): (c: ColorState)
    ensures c.rgb == RGB(156, 87, 193)
    ensures c.name == GetColorName(NAME_RGB, interval, RGB(156, 87, 193))
    ensures 0 <= interval < 59 ==> c.name == "Purple"
  {
    ColorsEntry(interval, 7);
    Lookup(Colors(interval), "Purple")
  }

  /** `COLORS["Yellow"]`. */
  function Yellow(interval: int): (c: ColorState)
    ensures c.rgb == RGB(255, 244, 92)
    ensures c.name == GetColorName(NAME_RGB, interval, RGB(255, 244, 92))
    ensures 0 <= interval < 59 ==> c.name == "Yellow"
  {
    ColorsEntry(interval, 8);
    Lookup(Colors(interval), "Yellow")
  }

  /** `COLORS["Empty"]`. */
  function Empty(interval: int): (c: ColorState)
    ensures c.rgb == RGB(228, 218, 209)
    ensures c.name == GetColorName(NAME_RGB, interval, RGB(228, 218, 209))
    ensures 0 <= interval < 59 ==> c.name == "Empty"
  {
    ColorsEntry(interval, 9);
    Lookup(Colors(interval), "Empty")
  }
}
