/**
 * Colour classification: a first-match search over the ordered palette with
 * an inclusive per-channel tolerance box, and the `Color` object that keeps
 * its label in step with its channels.
 */
module ColorModel {
  import opened Base
  import opened Dicts
  import opened Constants

  /** Python's `v in range(lo, hi)`: the end is exclusive. */
  predicate InRange(v: int, lo: int, hi: int)
  {
    lo <= v < hi
  }

  function Abs(n: int): nat
  {
    if n < 0 then -n else n
  }

  /** The largest per-channel difference between two colours. */
  function ChannelDistance(a: RGB, b: RGB): (d: nat)
    ensures d >= Abs(a.R - b.R) && d >= Abs(a.G - b.G) && d >= Abs(a.B - b.B)
    ensures d == Abs(a.R - b.R) || d == Abs(a.G - b.G) || d == Abs(a.B - b.B)
  {
    var dr, dg, db := Abs(a.R - b.R), Abs(a.G - b.G), Abs(a.B - b.B);
    if dr >= dg && dr >= db then dr else if dg >= db then dg else db
  }

  /**
   * One channel lies in `range(ref - interval, ref + interval + 1)`: it is at
   * most `interval` away from the reference, bounds included.
   */
  predicate ChannelMatches(v: int, ref: int, interval: int): (b: bool)
    ensures b <==> Abs(v - ref) <= interval
  {
    InRange(v, ref - interval, ref + interval + 1)
  }

  /**
   * All three channels of the sample lie in the box around the reference:
   * the largest channel difference is at most `interval`.
   */
  predicate Matches(sample: RGB, ref: RGB, interval: int): (b: bool)
    ensures b <==> ChannelDistance(sample, ref) <= interval
  {
    ChannelMatches(sample.R, ref.R, interval)
    && ChannelMatches(sample.G, ref.G, interval)
    && ChannelMatches(sample.B, ref.B, interval)
  }

  /**
   * A channel difference of exactly `interval` is inside the box; one of
   * `interval + 1` is outside, on either side.
   */
  lemma BoxIsInclusive(ref: int, interval: int)
    requires interval >= 0
    ensures ChannelMatches(ref + interval, ref, interval)
    ensures ChannelMatches(ref - interval, ref, interval)
    ensures !ChannelMatches(ref + interval + 1, ref, interval)
    ensures !ChannelMatches(ref - interval - 1, ref, interval)
  {
  }

  /** Entry `i` is the first palette entry whose box holds the sample. */
  predicate IsFirstMatch(p: Palette, interval: int, sample: RGB, i: int)
  {
    0 <= i < |p|
    && Matches(sample, p[i].1, interval)
    && forall j :: 0 <= j < i ==> !Matches(sample, p[j].1, interval)
  }

  /** No palette entry's box holds the sample. */
  predicate NoMatch(p: Palette, interval: int, sample: RGB)
  {
    forall i :: 0 <= i < |p| ==> !Matches(sample, p[i].1, interval)
  }

  /**
   * The label of the first palette entry, in palette order, whose box holds
   * the sample, or `""` when there is none.
   */
  function GetColorName(p: Palette, interval: int, sample: RGB): (name: string)
    ensures NoMatch(p, interval, sample) ==> name == ""
  {
    if p == [] then ""
    else if Matches(sample, p[0].1, interval) then p[0].0
    else GetColorName(p[1..], interval, sample)
  }

  /** Any non-empty label returned is a key of the palette. */
  lemma {:induction false} NameIsKeyOrEmpty(p: Palette, interval: int, sample: RGB)
    ensures GetColorName(p, interval, sample) == "" || GetColorName(p, interval, sample) in Keys(p)
    decreases |p|
  {
    if p != [] && !Matches(sample, p[0].1, interval) {
      NameIsKeyOrEmpty(p[1..], interval, sample);
      assert Keys(p) == [p[0].0] + Keys(p[1..]);
    }
  }

  /** The label returned is the first matching entry's, whatever later entries hold. */
  lemma {:induction false} FirstMatchWins(p: Palette, interval: int, sample: RGB, i: int)
    requires IsFirstMatch(p, interval, sample, i)
    ensures GetColorName(p, interval, sample) == p[i].0
    decreases i
  {
    if i > 0 {
      assert !Matches(sample, p[0].1, interval);
      assert IsFirstMatch(p[1..], interval, sample, i - 1) by {
        forall j | 0 <= j < i - 1
          ensures !Matches(sample, p[1..][j].1, interval)
        {
          assert p[1..][j] == p[j + 1];
        }
      }
      FirstMatchWins(p[1..], interval, sample, i - 1);
    }
  }

  /**
   * When some entry `i` holds the sample, the result is the label of the first
   * matching entry, which is `i` or one before it: an earlier overlapping box
   * takes precedence.
   */
  lemma {:induction false} EarlierMatchWins(p: Palette, interval: int, sample: RGB, i: int)
    requires 0 <= i < |p| && Matches(sample, p[i].1, interval)
    ensures exists k :: 0 <= k <= i && IsFirstMatch(p, interval, sample, k)
                        && GetColorName(p, interval, sample) == p[k].0
    decreases i
  {
    if Matches(sample, p[0].1, interval) {
      assert IsFirstMatch(p, interval, sample, 0);
      FirstMatchWins(p, interval, sample, 0);
    } else {
      assert p[1..][i - 1] == p[i];
      EarlierMatchWins(p[1..], interval, sample, i - 1);
      var k :| 0 <= k <= i - 1 && IsFirstMatch(p[1..], interval, sample, k)
               && GetColorName(p[1..], interval, sample) == p[1..][k].0;
      assert IsFirstMatch(p, interval, sample, k + 1) by {
        forall j | 1 <= j < k + 1
          ensures !Matches(sample, p[j].1, interval)
        {
          assert p[1..][j - 1] == p[j];
        }
      }
    }
  }

  /**
   * With labels that are never empty, the result is `""` exactly when no
   * palette entry holds the sample.
   */
  lemma EmptyNameIffNoMatch(p: Palette, interval: int, sample: RGB)
    requires forall i :: 0 <= i < |p| ==> p[i].0 != ""
    ensures GetColorName(p, interval, sample) == "" <==> NoMatch(p, interval, sample)
  {
  }

  /**
   * With a non-negative tolerance, a sample equal to a palette reference gets
   * that entry's label or the label of an earlier entry whose box covers it.
   */
  lemma ReferenceIsClassified(p: Palette, interval: int, i: int)
    requires interval >= 0 && 0 <= i < |p|
    ensures exists k :: 0 <= k <= i && IsFirstMatch(p, interval, p[i].1, k)
                        && GetColorName(p, interval, p[i].1) == p[k].0
  {
    assert Matches(p[i].1, p[i].1, interval);
    EarlierMatchWins(p, interval, p[i].1, i);
  }

  /** What a `Color` holds: its label and its channels. */
  datatype ColorState = ColorState(name: string, rgb: RGB)

  /** The label of `c` is the classification of its channels at tolerance `interval`. */
  predicate Classified(c: ColorState, interval: int)
  {
    c.name == GetColorName(NAME_RGB, interval, c.rgb)
  }

  /** The state of a `Color` freshly built from `rgb`: those channels, labelled by classifying them. */
  function MakeColor(rgb: RGB, interval: int): (c: ColorState)
    ensures c.rgb == rgb && Classified(c, interval)
  {
    ColorState(GetColorName(NAME_RGB, interval, rgb), rgb)
  }

  /**
   * A colour sample whose label is recomputed whenever a channel changes.
   * `interval` is the classification tolerance from the configuration.
   */
  class Color {
    var name: string
    var rgb: RGB
    const interval: int

    /**
     * The label classifies the current channels: the object holds what a
     * `Color` freshly built from those channels would hold.
     */
    predicate Valid()
      reads this
      ensures Valid() <==> Value() == MakeColor(rgb, interval)
    {
      Classified(Value(), interval)
    }

    /** The label and the channels. */
    function Value(): ColorState
      reads this
    {
      ColorState(name, rgb)
    }

    constructor (R: int, G: int, B: int, interval: int)
      ensures this.interval == interval && rgb == RGB(R, G, B)
      ensures Valid() && Value() == MakeColor(RGB(R, G, B), interval)
    {
      this.interval := interval;
      rgb := RGB(R, G, B);
      name := GetColorName(NAME_RGB, interval, RGB(R, G, B));
    }

    function R(): (v: int)
      reads this
      ensures v == rgb.R
    {
      rgb.R
    }

    method SetR(value: int)
      modifies this
      ensures rgb == old(rgb).(R := value)
      ensures R() == value && G() == old(G()) && B() == old(B())
      ensures Valid()
    {
      rgb := rgb.(R := value);
      name := GetColorName(NAME_RGB, interval, rgb);
    }

    function G(): (v: int)
      reads this
      ensures v == rgb.G
    {
      rgb.G
    }

    method SetG(value: int)
      modifies this
      ensures rgb == old(rgb).(G := value)
      ensures G() == value && R() == old(R()) && B() == old(B())
      ensures Valid()
    {
      rgb := rgb.(G := value);
      name := GetColorName(NAME_RGB, interval, rgb);
    }

    function B(): (v: int)
      reads this
      ensures v == rgb.B
    {
      rgb.B
    }

    method SetB(value: int)
      modifies this
      ensures rgb == old(rgb).(B := value)
      ensures B() == value && R() == old(R()) && G() == old(G())
      ensures Valid()
    {
      rgb := rgb.(B := value);
      name := GetColorName(NAME_RGB, interval, rgb);
    }
  }
}
