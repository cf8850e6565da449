// Grid snapping of a cursor position (useCanvasInteraction.js).
module CanvasInteraction {
  import opened Common

  /** A position whose coordinates may be `NaN` (`None`). */
  datatype Position = Position(x: Num, y: Num)

  /** `Math.round(v / gridSize) * gridSize` for a non-zero grid size. */
  function Snapped(v: real, gridSize: real): real
    requires gridSize != 0.0
  {
    Round(v / gridSize) as real * gridSize
  }

  /** The snapped coordinate; a zero grid size divides by zero, and the
      product of the infinite or `NaN` quotient with 0 is `NaN`. */
  function SnapCoord(v: real, gridSize: real): (r: Num)
    ensures r.None? <==> gridSize == 0.0
  {
    if gridSize == 0.0 then None else Some(Snapped(v, gridSize))
  }

  /** `snapToGridPoint(x, y, gridSize, snapToGrid)`: the position itself when
      snapping is off, otherwise each axis snapped on its own. */
  function SnapToGridPoint(x: real, y: real, gridSize: real, snapToGrid: bool): (r: Position)
    ensures !snapToGrid ==> r == Position(Some(x), Some(y))
    ensures snapToGrid ==> r.x == SnapCoord(x, gridSize) && r.y == SnapCoord(y, gridSize)
  {
    if !snapToGrid then Position(Some(x), Some(y))
    else Position(SnapCoord(x, gridSize), SnapCoord(y, gridSize))
  }

  /** A snapped coordinate is a whole number of grid cells. */
  lemma SnapIsMultiple(v: real, gridSize: real)
    requires gridSize != 0.0
    ensures (Snapped(v, gridSize) / gridSize).Floor as real == Snapped(v, gridSize) / gridSize
  {
    var k := Round(v / gridSize);
    assert Snapped(v, gridSize) / gridSize == k as real;
  }

  /** The snapped coordinate minus the input, as a fraction `d` of a cell. */
  lemma SnapOffset(v: real, gridSize: real) returns (d: real)
    requires gridSize != 0.0
    ensures -0.5 < d <= 0.5 && Snapped(v, gridSize) - v == d * gridSize
  {
    var q := v / gridSize;
    var k := Round(q) as real;
    d := k - q;
    assert q * gridSize == v;
    assert d * gridSize == k * gridSize - q * gridSize;
  }

  /** A snapped coordinate is within half a cell of the input. `Math.round`
      rounds halves upward, so with a positive grid size a value exactly
      between two grid lines goes to the upper one. */
  lemma {:induction false} SnapWithinHalf(v: real, gridSize: real)
    requires gridSize != 0.0
    ensures gridSize > 0.0 ==> -gridSize / 2.0 < Snapped(v, gridSize) - v <= gridSize / 2.0
    ensures gridSize < 0.0 ==> gridSize / 2.0 <= Snapped(v, gridSize) - v < -gridSize / 2.0
    ensures Abs(Snapped(v, gridSize) - v) <= Abs(gridSize) / 2.0
  {
    var d := SnapOffset(v, gridSize);
    if gridSize > 0.0 { ScalePositive(d, gridSize); } else { ScaleNegative(d, gridSize); }
  }

  lemma ScalePositive(d: real, g: real)
    requires -0.5 < d <= 0.5 && g > 0.0
    ensures -g / 2.0 < d * g <= g / 2.0
  {
    assert (d + 0.5) * g > 0.0;
    assert (d + 0.5) * g == d * g + g / 2.0;
    assert (0.5 - d) * g >= 0.0;
    assert (0.5 - d) * g == g / 2.0 - d * g;
  }

  lemma ScaleNegative(d: real, g: real)
    requires -0.5 < d <= 0.5 && g < 0.0
    ensures g / 2.0 <= d * g < -g / 2.0
  {
    assert (d + 0.5) * -g > 0.0;
    assert (d + 0.5) * -g == -(d * g) - g / 2.0;
    assert (0.5 - d) * -g >= 0.0;
    assert (0.5 - d) * -g == d * g - g / 2.0;
  }

  /** No grid line is closer to the input than the snapped coordinate. */
  lemma {:induction false} SnapIsNearest(v: real, gridSize: real, m: int)
    requires gridSize != 0.0
    ensures Abs(Snapped(v, gridSize) - v) <= Abs(m as real * gridSize - v)
  {
    var q := v / gridSize;
    var k := Round(q);
    assert q * gridSize == v;
    var dk := k as real - q;
    var dm := m as real - q;
    assert Snapped(v, gridSize) - v == dk * gridSize;
    assert m as real * gridSize - v == dm * gridSize;
    assert Abs(dk) <= Abs(dm) by {
      if m > k { assert m as real >= k as real + 1.0; }
      else if m < k { assert m as real <= k as real - 1.0; }
    }
    AbsProduct(dk, gridSize);
    AbsProduct(dm, gridSize);
    MonotoneScale(Abs(dk), Abs(dm), Abs(gridSize));
  }

  lemma AbsProduct(a: real, b: real)
    ensures Abs(a * b) == Abs(a) * Abs(b)
  {
    if a < 0.0 && b < 0.0 { assert a * b == (-a) * (-b); }
    else if a < 0.0 { assert Abs(a * b) == (-a) * b; }
    else if b < 0.0 { assert Abs(a * b) == a * (-b); }
  }

  lemma MonotoneScale(a: real, b: real, c: real)
    requires 0.0 <= a <= b && 0.0 <= c
    ensures a * c <= b * c
  {
    assert (b - a) * c >= 0.0;
  }
}
