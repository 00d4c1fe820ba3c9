/** Grid geometry from CF dimension coordinates, over exact reals: the cell
    size, the outer corners of the grid (half a cell beyond the outermost
    cell centres) and the north-up affine transform from (column, row) image
    coordinates to world coordinates, in the `affine.Affine(a, b, c, d, e, f)`
    layout: x = a*col + b*row + c, y = d*col + e*row + f. */
module Geometry {

  datatype Affine = Affine(a: real, b: real, c: real, d: real, e: real, f: real)

  datatype Point = Point(x: real, y: real)

  /** The world point of image point (col, row). */
  function Apply(t: Affine, col: real, row: real): Point {
    Point(t.a * col + t.b * row + t.c, t.d * col + t.e * row + t.f)
  }

  datatype Corners = Corners(xMin: real, xMax: real, yMin: real, yMax: real)

  /** Both coordinate arrays have the two entries the cell size is read from. */
  predicate Gridded(x: seq<real>, y: seq<real>) {
    |x| >= 2 && |y| >= 2
  }

  /** (cell width, cell height): the step between the first two coordinates
      on each axis. The height is negative when y decreases down the rows. */
  function CellSize(x: seq<real>, y: seq<real>): (real, real)
    requires Gridded(x, y)
  {
    (x[1] - x[0], y[1] - y[0])
  }

  /** The outer edges of the grid: the outermost coordinates, moved out by
      half a cell. `yMax` is the edge beside the first row. */
  function CornerPoints(x: seq<real>, y: seq<real>): (c: Corners)
    requires Gridded(x, y)
    ensures c.xMax - c.xMin == (x[|x| - 1] - x[0]) + CellSize(x, y).0
    ensures c.yMax - c.yMin == (y[0] - y[|y| - 1]) - CellSize(x, y).1
  {
    var (w, h) := CellSize(x, y);
    Corners(x[0] - w / 2.0, x[|x| - 1] + w / 2.0, y[|y| - 1] + h / 2.0, y[0] - h / 2.0)
  }

  /** `Affine(w, 0, x_min, 0, h, y_max)`: no rotation or shear, origin at the
      outer corner beside the first row and first column. */
  function GridTransform(x: seq<real>, y: seq<real>): (t: Affine)
    requires Gridded(x, y)
    ensures t.b == 0.0 && t.d == 0.0
    ensures (t.a, t.e) == CellSize(x, y)
    ensures Apply(t, 0.0, 0.0).x == CornerPoints(x, y).xMin
    ensures Apply(t, 0.0, 0.0).y == CornerPoints(x, y).yMax
  {
    var (w, h) := CellSize(x, y);
    var c := CornerPoints(x, y);
    Affine(w, 0.0, c.xMin, 0.0, h, c.yMax)
  }

  /** The centre of pixel (col, row) lands on the first coordinate plus
      `col` cell widths and `row` cell heights. */
  lemma PixelCentre(x: seq<real>, y: seq<real>, col: int, row: int)
    requires Gridded(x, y)
    ensures Apply(GridTransform(x, y), col as real + 0.5, row as real + 0.5).x == x[0] + col as real * CellSize(x, y).0
    ensures Apply(GridTransform(x, y), col as real + 0.5, row as real + 0.5).y == y[0] + row as real * CellSize(x, y).1
  {
    var (w, h) := CellSize(x, y);
    var t := GridTransform(x, y);
    var cr, rr := col as real + 0.5, row as real + 0.5;
    assert t.b * rr == 0.0 && t.d * cr == 0.0;
    assert t.a * cr + t.c == x[0] + col as real * w;
    assert t.e * rr + t.f == y[0] + row as real * h;
  }

  /** Coordinates that step by the same amount everywhere. */
  predicate EvenlySpaced(x: seq<real>) {
    |x| >= 2 && forall i :: 0 <= i < |x| ==> x[i] == x[0] + i as real * (x[1] - x[0])
  }

  /** On evenly spaced coordinates every pixel centre is mapped to its own
      coordinate pair. */
  lemma CentresAreCoordinates(x: seq<real>, y: seq<real>, col: nat, row: nat)
    requires EvenlySpaced(x) && EvenlySpaced(y)
    requires col < |x| && row < |y|
    ensures Apply(GridTransform(x, y), col as real + 0.5, row as real + 0.5) == Point(x[col], y[row])
  {
    PixelCentre(x, y, col, row);
  }

  /** On evenly spaced coordinates the corner points span exactly the number
      of cells on each axis, and the far corner is the image of the far
      corner (|x|, |y|) of the pixel grid. */
  lemma ExtentIsWholeCells(x: seq<real>, y: seq<real>)
    requires EvenlySpaced(x) && EvenlySpaced(y)
    ensures CornerPoints(x, y).xMax - CornerPoints(x, y).xMin == |x| as real * CellSize(x, y).0
    ensures CornerPoints(x, y).yMin - CornerPoints(x, y).yMax == |y| as real * CellSize(x, y).1
    ensures Apply(GridTransform(x, y), |x| as real, |y| as real).x == CornerPoints(x, y).xMax
    ensures Apply(GridTransform(x, y), |x| as real, |y| as real).y == CornerPoints(x, y).yMin
  {
    var (w, h) := CellSize(x, y);
    var n, m := |x|, |y|;
    assert x[n - 1] == x[0] + (n - 1) as real * w;
    assert y[m - 1] == y[0] + (m - 1) as real * h;
    var t := GridTransform(x, y);
    var c := CornerPoints(x, y);
    assert t.b * m as real == 0.0 && t.d * n as real == 0.0;
    assert t.a * n as real + t.c == c.xMax;
    assert t.e * m as real + t.f == c.yMin;
  }
}
