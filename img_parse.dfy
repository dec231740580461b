/**
 * The coordinate grid of a screenshot layout, and the sampling of a colour
 * at every point of that grid.
 */
module ImgParse {
  import opened Wrappers
  import opened Base
  import opened Dicts
  import opened Constants
  import opened ColorModel

  /** A pixel as the image decoder stores it: blue, green, red. */
  type Bgr = (int, int, int)

  /** A decoded image: rows of pixels, indexed `img[y][x]`. */
  type Image = seq<seq<Bgr>>

  /** The layout of a screenshot: the tube count of each row and the slots per tube. */
  datatype ImgConfig = ImgConfig(tubeCount: Option<(int, int)>, numColors: int)

  /** The error raised for a layout without tube counts or without slots. */
  datatype LayoutError = MissingLayout(tubeCount: Option<(int, int)>, numColors: int)

  /** Python truthiness of both layout fields: a pair is truthy, as is any non-zero count. */
  predicate IsComplete(cfg: ImgConfig)
  {
    cfg.tubeCount.Some? && cfg.numColors != 0
  }

  /**
   * Every table lookup that building row `r` performs succeeds: the x list of
   * `count` always, and the row's base y and the spacing of `n` slots as soon
   * as one point is produced.
   */
  predicate RowLookupsDefined(t: Tables, r: nat, count: int, n: int)
  {
    count in t.xCoord
    && (|t.xCoord[count]| > 0 && n > 0 ==> r < |t.yCoord| && n in t.yCoordDelta)
  }

  /** Every table lookup that building the grid of `cfg` performs succeeds. */
  predicate LookupsDefined(cfg: ImgConfig, t: Tables)
  {
    IsComplete(cfg) ==>
      RowLookupsDefined(t, 0, cfg.tubeCount.value.0, cfg.numColors)
      && RowLookupsDefined(t, 1, cfg.tubeCount.value.1, cfg.numColors)
  }

  /**
   * Row `r` of the grid: one tube per x position listed for `count`, each with
   * `n` points stacked from the row's base y at the spacing for `n` slots.
   */
  function TubeRowOf(t: Tables, r: nat, count: int, n: int): (row: TubeRow)
    requires RowLookupsDefined(t, r, count, n)
    ensures |row| == |t.xCoord[count]|
    ensures forall k :: 0 <= k < |row| ==> |row[k]| == if n < 0 then 0 else n
    ensures forall k, i :: 0 <= k < |row| && 0 <= i < |row[k]| ==>
      r < |t.yCoord| && n in t.yCoordDelta
      && row[k][i] == Point(t.xCoord[count][k], t.yCoord[r] + i * t.yCoordDelta[n])
  {
    var xs := t.xCoord[count];
    if n <= 0 then seq(|xs|, k => [])
    else seq(|xs|, k requires 0 <= k < |xs| =>
                     seq(n, i => Point(xs[k], t.yCoord[r] + i * t.yCoordDelta[n])))
  }

  /**
   * The coordinate grid of a layout, or the error for an incomplete one: the
   * grid is built exactly when both layout fields are truthy, its rows are the
   * rows for the two tube counts, and the error carries the layout fields.
   */
  function GetColorMap(cfg: ImgConfig, t: Tables): (res: Result<ColorPointMatrix, LayoutError>)
    requires LookupsDefined(cfg, t)
    ensures res.Failure? <==> cfg.tubeCount.None? || cfg.numColors == 0
    ensures res.Failure? ==> res.error == MissingLayout(cfg.tubeCount, cfg.numColors)
    ensures res.Success? ==>
      res.value.row0 == TubeRowOf(t, 0, cfg.tubeCount.value.0, cfg.numColors)
      && res.value.row1 == TubeRowOf(t, 1, cfg.tubeCount.value.1, cfg.numColors)
  {
    if IsComplete(cfg) then
      var n := cfg.numColors;
      Success(ColorPointMatrix(
        TubeRowOf(t, 0, cfg.tubeCount.value.0, n),
        TubeRowOf(t, 1, cfg.tubeCount.value.1, n)))
    else
      Failure(MissingLayout(cfg.tubeCount, cfg.numColors))
  }

  /** The tube count of row `r` in a complete layout. */
  function RowCount(cfg: ImgConfig, r: nat): int
    requires cfg.tubeCount.Some? && r < 2
  {
    if r == 0 then cfg.tubeCount.value.0 else cfg.tubeCount.value.1
  }

  /**
   * A built grid has two rows; row `r` has one tube per x position listed for
   * its tube count, and every tube has `numColors` points (none when the count
   * is negative).
   */
  lemma GridShape(cfg: ImgConfig, t: Tables)
    requires LookupsDefined(cfg, t) && GetColorMap(cfg, t).Success?
    ensures |GetColorMap(cfg, t).value.Rows()| == 2
    ensures forall r :: 0 <= r < 2 ==>
      |GetColorMap(cfg, t).value.Rows()[r]| == |t.xCoord[RowCount(cfg, r)]|
    ensures forall r, k :: 0 <= r < 2 && 0 <= k < |GetColorMap(cfg, t).value.Rows()[r]| ==>
      |GetColorMap(cfg, t).value.Rows()[r][k]| == if cfg.numColors < 0 then 0 else cfg.numColors
  {
  }

  /**
   * Point `i` of tube `k` in row `r` lies at the tube's listed x position and
   * at `i` slot spacings below the row's base y.
   */
  lemma GridCoordinates(cfg: ImgConfig, t: Tables, r: nat, k: nat, i: nat)
    requires LookupsDefined(cfg, t) && GetColorMap(cfg, t).Success?
    requires r < 2 && k < |GetColorMap(cfg, t).value.Rows()[r]|
    requires i < |GetColorMap(cfg, t).value.Rows()[r][k]|
    ensures k < |t.xCoord[RowCount(cfg, r)]| && r < |t.yCoord| && cfg.numColors in t.yCoordDelta
    ensures GetColorMap(cfg, t).value.Rows()[r][k][i] ==
      Point(t.xCoord[RowCount(cfg, r)][k], t.yCoord[r] + i * t.yCoordDelta[cfg.numColors])
  {
  }

  /** Consecutive points of a tube share their x and differ in y by exactly the slot spacing. */
  lemma GridSlotSpacing(cfg: ImgConfig, t: Tables, r: nat, k: nat, i: nat)
    requires LookupsDefined(cfg, t) && GetColorMap(cfg, t).Success?
    requires r < 2 && k < |GetColorMap(cfg, t).value.Rows()[r]|
    requires i + 1 < |GetColorMap(cfg, t).value.Rows()[r][k]|
    ensures cfg.numColors in t.yCoordDelta
    ensures GetColorMap(cfg, t).value.Rows()[r][k][i + 1].x == GetColorMap(cfg, t).value.Rows()[r][k][i].x
    ensures GetColorMap(cfg, t).value.Rows()[r][k][i + 1].y ==
      GetColorMap(cfg, t).value.Rows()[r][k][i].y + t.yCoordDelta[cfg.numColors]
  {
  }

  /**
   * The layout of six and five tubes with four slots gives six and five tubes
   * of four points each, when the tables list six and five x positions.
   */
  lemma SixFiveFourLayout(t: Tables)
    requires LookupsDefined(ImgConfig(Some((6, 5)), 4), t)
    requires |t.xCoord[6]| == 6 && |t.xCoord[5]| == 5
    ensures GetColorMap(ImgConfig(Some((6, 5)), 4), t).Success?
    ensures |GetColorMap(ImgConfig(Some((6, 5)), 4), t).value.row0| == 6
    ensures |GetColorMap(ImgConfig(Some((6, 5)), 4), t).value.row1| == 5
    ensures forall k :: 0 <= k < 6 ==> |GetColorMap(ImgConfig(Some((6, 5)), 4), t).value.row0[k]| == 4
    ensures forall k :: 0 <= k < 5 ==> |GetColorMap(ImgConfig(Some((6, 5)), 4), t).value.row1[k]| == 4
  {
  }

  /**
   * A zero inside a present pair is not caught: the layout of zero and five
   * tubes passes the check and gives a row with the tubes listed for zero.
   */
  lemma ZeroTubeCountPassesCheck(t: Tables)
    requires LookupsDefined(ImgConfig(Some((0, 5)), 4), t)
    ensures GetColorMap(ImgConfig(Some((0, 5)), 4), t).Success?
    ensures |GetColorMap(ImgConfig(Some((0, 5)), 4), t).value.row0| == |t.xCoord[0]|
  {
  }

  /** Python's indexing accepts `-n <= i < n`; a negative index counts from the end. */
  predicate PyIndexable(n: int, i: int)
  {
    -n <= i < n
  }

  function PyIndex(n: int, i: int): (k: nat)
    requires PyIndexable(n, i)
    ensures k < n
    ensures 0 <= i ==> k == i
    ensures i < 0 ==> k == n + i
  {
    if i < 0 then n + i else i
  }

  /** `img[p.y][p.x]` exists. */
  predicate PointInImage(img: Image, p: Point)
  {
    PyIndexable(|img|, p.y) && PyIndexable(|img[PyIndex(|img|, p.y)]|, p.x)
  }

  /** `img[p.y][p.x]`, where a negative coordinate counts from the end of its axis. */
  function PixelAt(img: Image, p: Point): (px: Bgr)
    requires PointInImage(img, p)
    ensures 0 <= p.y && 0 <= p.x ==> px == img[p.y][p.x]
    ensures p.y < 0 && 0 <= p.x ==> px == img[|img| + p.y][p.x]
    ensures 0 <= p.y && p.x < 0 ==> px == img[p.y][|img[p.y]| + p.x]
    ensures p.y < 0 && p.x < 0 ==> px == img[|img| + p.y][|img[|img| + p.y]| + p.x]
  {
    var row := img[PyIndex(|img|, p.y)];
    row[PyIndex(|row|, p.x)]
  }

  /** Reorders a decoder pixel into a colour: the last channel is red, the first blue. */
  function BgrToRgb(px: Bgr): (c: RGB)
    ensures c.R == px.2 && c.G == px.1 && c.B == px.0
  {
    RGB(px.2, px.1, px.0)
  }

  /** The colour sampled at `p`: the pixel's channels in red, green, blue order, classified. */
  method GetPointColor(p: Point, img: Image, interval: int) returns (c: Color)
    requires PointInImage(img, p)
    ensures c.rgb.R == PixelAt(img, p).2 && c.rgb.G == PixelAt(img, p).1 && c.rgb.B == PixelAt(img, p).0
    ensures c.interval == interval && c.Valid()
    ensures fresh(c)
  {
    var px := PixelAt(img, p);
    c := new Color(px.2, px.1, px.0, interval);
  }

  /** Every point of the grid lies inside the image. */
  predicate GridInImage(grid: seq<TubeRow>, img: Image)
  {
    forall r, k, i :: 0 <= r < |grid| && 0 <= k < |grid[r]| && 0 <= i < |grid[r][k]| ==>
      PointInImage(img, grid[r][k][i])
  }

  /** `m` has as many rows, tubes per row and entries per tube as `grid`. */
  predicate SameShape<A, B>(m: seq<seq<seq<A>>>, grid: seq<seq<seq<B>>>)
  {
    |m| == |grid|
    && (forall r :: 0 <= r < |m| ==> |m[r]| == |grid[r]|)
    && (forall r, k :: 0 <= r < |m| && 0 <= k < |m[r]| ==> |m[r][k]| == |grid[r][k]|)
  }

  /** `c` is the colour sampled at `p`. */
  predicate SampledAt(c: Color, img: Image, p: Point, interval: int)
    reads c
  {
    PointInImage(img, p) && c.rgb == BgrToRgb(PixelAt(img, p))
    && c.interval == interval && c.Valid()
  }

  /** No colour object appears twice in `ts`. */
  predicate TubeDistinct(ts: seq<Color>)
  {
    forall i, j :: 0 <= i < j < |ts| ==> ts[i] != ts[j]
  }

  /** No colour object appears twice in the tubes of `rs`, within a tube or across tubes. */
  predicate RowDistinct(rs: seq<seq<Color>>)
  {
    (forall k :: 0 <= k < |rs| ==> TubeDistinct(rs[k]))
    && forall k, k2, i, i2 :: 0 <= k < k2 < |rs| && 0 <= i < |rs[k]| && 0 <= i2 < |rs[k2]| ==>
      rs[k][i] != rs[k2][i2]
  }

  /** No colour object appears twice in the matrix `m`. */
  predicate MatrixDistinct(m: seq<seq<seq<Color>>>)
  {
    (forall r :: 0 <= r < |m| ==> RowDistinct(m[r]))
    && forall r, r2, k, k2, i, i2 ::
      0 <= r < r2 < |m| && 0 <= k < |m[r]| && 0 <= k2 < |m[r2]| && 0 <= i < |m[r][k]| && 0 <= i2 < |m[r2][k2]| ==>
      m[r][k][i] != m[r2][k2][i2]
  }

  /** The colours of one tube, sampled point by point in slot order. */
  method SampleTube(tube: TubePoints, img: Image, interval: int) returns (tubeColors: seq<Color>)
    requires forall i :: 0 <= i < |tube| ==> PointInImage(img, tube[i])
    ensures |tubeColors| == |tube|
    ensures forall i :: 0 <= i < |tube| ==> SampledAt(tubeColors[i], img, tube[i], interval)
    ensures forall i :: 0 <= i < |tube| ==> fresh(tubeColors[i])
    ensures TubeDistinct(tubeColors)
  {
    tubeColors := [];
    for i := 0 to |tube|
      invariant |tubeColors| == i
      invariant forall j :: 0 <= j < i ==> SampledAt(tubeColors[j], img, tube[j], interval)
      invariant forall j :: 0 <= j < i ==> fresh(tubeColors[j])
      invariant TubeDistinct(tubeColors)
    {
      ghost var before := tubeColors;
      var color := GetPointColor(tube[i], img, interval);
      tubeColors := tubeColors + [color];
      forall j | 0 <= j <= i
        ensures SampledAt(tubeColors[j], img, tube[j], interval)
      {
        if j < i {
          assert tubeColors[j] == before[j];
        }
      }
    }
  }

  /** The colours of one row, sampled tube by tube in order. */
  method SampleRow(row: TubeRow, img: Image, interval: int) returns (rowTubes: seq<seq<Color>>)
    requires forall k, i :: 0 <= k < |row| && 0 <= i < |row[k]| ==> PointInImage(img, row[k][i])
    ensures |rowTubes| == |row|
    ensures forall k :: 0 <= k < |row| ==> |rowTubes[k]| == |row[k]|
    ensures forall k, i :: 0 <= k < |row| && 0 <= i < |row[k]| ==>
      SampledAt(rowTubes[k][i], img, row[k][i], interval)
    ensures forall k, i :: 0 <= k < |row| && 0 <= i < |row[k]| ==> fresh(rowTubes[k][i])
    ensures RowDistinct(rowTubes)
  {
    rowTubes := [];
    for k := 0 to |row|
      invariant |rowTubes| == k
      invariant forall kk :: 0 <= kk < k ==> |rowTubes[kk]| == |row[kk]|
      invariant forall kk, i :: 0 <= kk < k && 0 <= i < |row[kk]| ==>
        SampledAt(rowTubes[kk][i], img, row[kk][i], interval)
      invariant forall kk, i :: 0 <= kk < k && 0 <= i < |row[kk]| ==> fresh(rowTubes[kk][i])
      invariant RowDistinct(rowTubes)
    {
      ghost var before := rowTubes;
      var tubeColors := SampleTube(row[k], img, interval);
      rowTubes := rowTubes + [tubeColors];
      forall kk, i | 0 <= kk <= k && 0 <= i < |row[kk]|
        ensures SampledAt(rowTubes[kk][i], img, row[kk][i], interval)
      {
        if kk < k {
          assert rowTubes[kk] == before[kk];
        }
      }
    }
  }

  /**
   * The colour matrix of a grid: the same shape, with entry `[r][k][i]` the
   * colour sampled at point `[r][k][i]`, built row by row.
   */
  method GetColorMatrix(grid: ColorPointMatrix, img: Image, interval: int)
    returns (m: seq<seq<seq<Color>>>)
    requires GridInImage(grid.Rows(), img)
    ensures SameShape(m, grid.Rows())
    ensures forall r, k, i :: 0 <= r < |m| && 0 <= k < |m[r]| && 0 <= i < |m[r][k]| ==>
      SampledAt(m[r][k][i], img, grid.Rows()[r][k][i], interval)
    ensures forall r, k, i :: 0 <= r < |m| && 0 <= k < |m[r]| && 0 <= i < |m[r][k]| ==> fresh(m[r][k][i])
    ensures MatrixDistinct(m)
  {
    var rows := grid.Rows();
    m := [];
    for r := 0 to |rows|
      invariant |m| == r
      invariant forall rr :: 0 <= rr < r ==> |m[rr]| == |rows[rr]|
      invariant forall rr, k :: 0 <= rr < r && 0 <= k < |rows[rr]| ==> |m[rr][k]| == |rows[rr][k]|
      invariant forall rr, k, i :: 0 <= rr < r && 0 <= k < |rows[rr]| && 0 <= i < |rows[rr][k]| ==>
        SampledAt(m[rr][k][i], img, rows[rr][k][i], interval)
      invariant forall rr, k, i :: 0 <= rr < r && 0 <= k < |m[rr]| && 0 <= i < |m[rr][k]| ==> fresh(m[rr][k][i])
      invariant MatrixDistinct(m)
    {
      ghost var before := m;
      var rowTubes := SampleRow(rows[r], img, interval);
      m := m + [rowTubes];
      forall rr, k, i | 0 <= rr <= r && 0 <= k < |rows[rr]| && 0 <= i < |rows[rr][k]|
        ensures SampledAt(m[rr][k][i], img, rows[rr][k][i], interval)
      {
        if rr < r {
          assert m[rr] == before[rr];
        }
      }
    }
  }

  /**
   * The layout of six and five tubes with four slots, sampled from an image
   * whose every pixel is the Red reference: two rows of six and five tubes,
   * four colours per tube, every one of them labelled "Red".
   */
  method ParseUniformRedScreen(t: Tables, img: Image, interval: int)
    returns (m: seq<seq<seq<Color>>>)
    requires LookupsDefined(ImgConfig(Some((6, 5)), 4), t)
    requires |t.xCoord[6]| == 6 && |t.xCoord[5]| == 5
    requires GridInImage(GetColorMap(ImgConfig(Some((6, 5)), 4), t).value.Rows(), img)
    requires forall y, x :: 0 <= y < |img| && 0 <= x < |img[y]| ==> img[y][x] == (81, 82, 216)
    requires interval >= 0
    ensures |m| == 2 && |m[0]| == 6 && |m[1]| == 5
    ensures forall r, k :: 0 <= r < 2 && 0 <= k < |m[r]| ==> |m[r][k]| == 4
    ensures forall r, k, i :: 0 <= r < 2 && 0 <= k < |m[r]| && 0 <= i < |m[r][k]| ==>
      m[r][k][i].rgb == RGB(216, 82, 81) && m[r][k][i].name == "Red"
  {
    var cfg := ImgConfig(Some((6, 5)), 4);
    var grid := GetColorMap(cfg, t);
    SixFiveFourLayout(t);
    m := GetColorMatrix(grid.value, img, interval);
    var red := RGB(216, 82, 81);
    assert IsFirstMatch(NAME_RGB, interval, red, 0);
    FirstMatchWins(NAME_RGB, interval, red, 0);
    forall r, k, i | 0 <= r < 2 && 0 <= k < |m[r]| && 0 <= i < |m[r][k]|
      ensures m[r][k][i].rgb == red && m[r][k][i].name == "Red"
    {
      var p := grid.value.Rows()[r][k][i];
      assert SampledAt(m[r][k][i], img, p, interval);
      assert PixelAt(img, p) == (81, 82, 216);
    }
  }
}
