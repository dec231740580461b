/** The record and container types shared by the grid generator and the classifier. */
module Base {

  /** A colour: exactly three integer channels. */
  datatype RGB = RGB(R: int, G: int, B: int)

  /** A pixel coordinate. */
  datatype Point = Point(x: int, y: int)

  /** The points of one tube, one per colour slot. */
  type TubePoints = seq<Point>

  /** The tubes of one on-screen row. */
  type TubeRow = seq<TubePoints>

  /**
   * The coordinate grid: exactly two rows of tubes, addressed as
   * `[row][tube][slot]`.
   */
  datatype ColorPointMatrix = ColorPointMatrix(row0: TubeRow, row1: TubeRow)
  {
    /** The rows in iteration order, as a Python tuple yields them. */
    function Rows(): (rows: seq<TubeRow>)
      ensures |rows| == 2 && rows[0] == row0 && rows[1] == row1
    {
      [row0, row1]
    }

    /** The number of indices that address one point: row, tube, slot. */
    static function NDim(): (n: nat)
      ensures n == 3
    {
      3
    }
  }
}
