/**
 * Arrow sizing and geometry for the wind field: whether a cell's vector is
 * drawn, how long its shaft is, how thick its line is, and where the shaft
 * and the two strokes of the head end. `Math.cos`/`Math.sin` of an angle in
 * degrees are supplied as a `heading` function that gives a unit vector.
 */
module Arrows {
  import opened Wrappers
  import opened Maths
  import opened Grid
  import opened WindField

  const ARROW_HEAD_SIZE: real := 6.0
  /** The shaft of a full-speed arrow: 0.4 of a cell. */
  const ARROW_BASE_LENGTH: real := GRID_CELL_SIZE as real * 0.4
  /** Vectors at or below this speed are not drawn at all. */
  const MIN_DRAWN_SPEED: real := 0.01
  /** The head's strokes leave the tip at 30 degrees (pi / 6) either side of the shaft. */
  const HEAD_SPREAD_DEGREES: real := 30.0

  /** `(Math.cos(angle), Math.sin(angle))` for an angle given in degrees. */
  datatype Heading = Heading(cos: real, sin: real)

  ghost predicate UnitHeadings(heading: real -> Heading) {
    forall degrees :: heading(degrees).cos * heading(degrees).cos + heading(degrees).sin * heading(degrees).sin == 1.0
  }

  datatype Arrow = Arrow(tail: Point, tip: Point, headA: Point, headB: Point, lineWidth: real)

  /** `arrowBaseLength * (magnitude / MAX_WIND_SPEED)`. */
  function ArrowLength(magnitude: real): (length: real)
    ensures magnitude == MAX_WIND_SPEED ==> length == 0.4 * GRID_CELL_SIZE as real
    ensures 0.0 <= magnitude <= MAX_WIND_SPEED ==> 0.0 <= length <= ARROW_BASE_LENGTH
    ensures 1.0 <= length <==> 2.0 <= magnitude
  {
    ARROW_BASE_LENGTH * (magnitude / MAX_WIND_SPEED)
  }

  /** `Math.max(1, Math.min(3, magnitude / MAX_WIND_SPEED * 3))`: thicker for stronger wind. */
  function LineWidth(magnitude: real): (width: real)
    ensures 1.0 <= width <= 3.0
    ensures MAX_WIND_SPEED <= magnitude ==> width == 3.0
    ensures magnitude <= MAX_WIND_SPEED / 3.0 ==> width == 1.0
  {
    Max(1.0, Min(3.0, magnitude / MAX_WIND_SPEED * 3.0))
  }

  lemma LineWidthMonotone(m1: real, m2: real)
    requires m1 <= m2
    ensures LineWidth(m1) <= LineWidth(m2)
  {
  }

  /** The point `distance` along `h` from `p`. */
  function Offset(p: Point, distance: real, h: Heading): Point {
    Point(p.x + distance * h.cos, p.y + distance * h.sin)
  }

  function SquaredDistance(p: Point, q: Point): real {
    (q.x - p.x) * (q.x - p.x) + (q.y - p.y) * (q.y - p.y)
  }

  /**
   * The arrow `drawArrow` strokes from (x, y), or nothing when its length
   * would be under one pixel: the shaft runs `ArrowLength(magnitude)` along
   * the vector's angle, and each head stroke runs back from the tip at 30
   * degrees either side of it.
   */
  function DrawArrow(x: real, y: real, magnitude: real, angleDegrees: real, heading: real -> Heading): (arrow: Option<Arrow>)
    ensures arrow.Some? <==> 2.0 <= magnitude
    ensures arrow.Some? ==> arrow.value.tail == Point(x, y) && 1.0 <= arrow.value.lineWidth <= 3.0
  {
    var length := ArrowLength(magnitude);
    if length < 1.0 then
      None
    else
      var tip := Offset(Point(x, y), length, heading(angleDegrees));
      Some(Arrow(Point(x, y), tip,
                 Offset(tip, -ARROW_HEAD_SIZE, heading(angleDegrees - HEAD_SPREAD_DEGREES)),
                 Offset(tip, -ARROW_HEAD_SIZE, heading(angleDegrees + HEAD_SPREAD_DEGREES)),
                 LineWidth(magnitude)))
  }

  /** Moving `distance` along a unit heading covers exactly that distance. */
  lemma OffsetDistance(p: Point, distance: real, h: Heading)
    requires h.cos * h.cos + h.sin * h.sin == 1.0
    ensures SquaredDistance(p, Offset(p, distance, h)) == distance * distance
  {
    var q := Offset(p, distance, h);
    assert q.x - p.x == distance * h.cos;
    assert q.y - p.y == distance * h.sin;
    calc {
      SquaredDistance(p, q);
      (distance * h.cos) * (distance * h.cos) + (distance * h.sin) * (distance * h.sin);
      distance * distance * (h.cos * h.cos + h.sin * h.sin);
    }
  }

  /**
   * With unit headings the shaft is exactly `ArrowLength(magnitude)` long
   * and both head strokes are `ARROW_HEAD_SIZE` long.
   */
  lemma ArrowProportions(x: real, y: real, magnitude: real, angleDegrees: real, heading: real -> Heading)
    requires UnitHeadings(heading)
    requires DrawArrow(x, y, magnitude, angleDegrees, heading).Some?
    ensures var a := DrawArrow(x, y, magnitude, angleDegrees, heading).value;
      SquaredDistance(a.tail, a.tip) == ArrowLength(magnitude) * ArrowLength(magnitude) &&
      SquaredDistance(a.tip, a.headA) == ARROW_HEAD_SIZE * ARROW_HEAD_SIZE &&
      SquaredDistance(a.tip, a.headB) == ARROW_HEAD_SIZE * ARROW_HEAD_SIZE
  {
    var a := DrawArrow(x, y, magnitude, angleDegrees, heading).value;
    OffsetDistance(Point(x, y), ArrowLength(magnitude), heading(angleDegrees));
    OffsetDistance(a.tip, -ARROW_HEAD_SIZE, heading(angleDegrees - HEAD_SPREAD_DEGREES));
    OffsetDistance(a.tip, -ARROW_HEAD_SIZE, heading(angleDegrees + HEAD_SPREAD_DEGREES));
  }

  /**
   * The arrow of a grid cell, as `drawVectorField` draws it: only for a
   * present vector faster than 0.01, anchored at the cell's centre. Since
   * `drawArrow` also skips shafts under one pixel, an arrow appears exactly
   * for vectors of speed 2 or more; the 0.01 test never decides anything.
   */
  function CellArrow(cell: Cell, v: Option<Vector>, heading: real -> Heading): (arrow: Option<Arrow>)
    ensures arrow.Some? <==> v.Some? && 2.0 <= v.value.magnitude
    ensures arrow.Some? ==> arrow.value.tail == CellCenter(cell)
  {
    if v.Some? && v.value.magnitude > MIN_DRAWN_SPEED then
      var center := CellCenter(cell);
      DrawArrow(center.x, center.y, v.value.magnitude, v.value.angle, heading)
    else
      None
  }

  /** A unit heading's components lie in [-1, 1]. */
  lemma UnitComponents(h: Heading)
    requires h.cos * h.cos + h.sin * h.sin == 1.0
    ensures -1.0 <= h.cos <= 1.0 && -1.0 <= h.sin <= 1.0
  {
    SquareAtLeastOne(h.cos);
    SquareAtLeastOne(h.sin);
    assert 0.0 <= h.cos * h.cos && 0.0 <= h.sin * h.sin by {
      SquareNonNegative(h.cos);
      SquareNonNegative(h.sin);
    }
  }

  /** A value outside [-1, 1] squares to more than 1. */
  lemma SquareAtLeastOne(a: real)
    ensures (a < -1.0 || 1.0 < a) ==> 1.0 < a * a
  {
    if 1.0 < a {
      MulMonotone(a, 1.0, a);
    } else if a < -1.0 {
      MulMonotone(-a, 1.0, -a);
    }
  }

  /** A shaft no longer than `bound` along a unit heading moves each coordinate by at most `bound`. */
  lemma ShaftWithin(length: real, h: Heading, bound: real)
    requires 0.0 <= length <= bound
    requires h.cos * h.cos + h.sin * h.sin == 1.0
    ensures -bound <= length * h.cos <= bound && -bound <= length * h.sin <= bound
  {
    UnitComponents(h);
    MulMonotone(length, h.cos, 1.0);
    assert length * h.cos <= length;
    MulMonotone(length, -1.0, h.cos);
    MulMonotone(length, h.sin, 1.0);
    assert length * h.sin <= length;
    MulMonotone(length, -1.0, h.sin);
  }

  /**
   * The shaft fits in its cell: for a vector no faster than MAX_WIND_SPEED
   * the tip of the arrow lies inside the cell it was drawn for, so the
   * pixel lookup maps the tip back to that cell.
   */
  lemma ArrowTipInCell(cell: Cell, v: Option<Vector>, heading: real -> Heading)
    requires InGrid(cell.row, cell.col)
    requires UnitHeadings(heading)
    requires v.Some? && v.value.magnitude <= MAX_WIND_SPEED
    requires CellArrow(cell, v, heading).Some?
    ensures var tip := CellArrow(cell, v, heading).value.tip;
      CellAt(tip.x, tip.y) == Some(cell)
  {
    var center := CellCenter(cell);
    var length := ArrowLength(v.value.magnitude);
    var h := heading(v.value.angle);
    ShaftWithin(length, h, ARROW_BASE_LENGTH);
    var tip := CellArrow(cell, v, heading).value.tip;
    assert tip == Offset(center, length, h);
    CellAtInverse(cell, tip.x, tip.y);
  }
}
