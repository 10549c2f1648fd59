/**
 * The vector (wind) field generator: which scenario a draw selects, its
 * label, and the wind vector each scenario puts in each cell. The imperative
 * fill of the grid is `Simulation.App.GenerateVectorFieldData`; this module
 * gives the vector it must put in every cell, and the lemmas say what those
 * vectors are like.
 */
module WindField {
  import opened Maths
  import opened Grid

  const MAX_WIND_SPEED: real := 20.0

  /** Below this distance from the centre a cell is calm: its angle would be undefined. */
  const CALM_DISTANCE: real := 0.1

  /** The vortex turns about the point between the four middle cells. */
  const VORTEX_CENTER_ROW: real := GRID_ROWS as real / 2.0 - 0.5
  const VORTEX_CENTER_COL: real := GRID_COLS as real / 2.0 - 0.5
  /** The vortex's speed grows with the distance relative to half the grid's extent. */
  const VORTEX_MAX_DIST: real := Max(GRID_ROWS as real, GRID_COLS as real) / 2.0
  /** Converging and diverging flow fades out over the grid's extent. */
  const RADIAL_FALLOFF: real := Max(GRID_ROWS as real, GRID_COLS as real)

  /** Draws consumed by one vector generation. */
  const VECTOR_DRAWS: int := 4

  /** A wind vector: speed and direction in degrees, 0 pointing to the right. */
  datatype Vector = Vector(magnitude: real, angle: real)

  predicate WellFormed(v: Vector) {
    0.0 <= v.magnitude <= MAX_WIND_SPEED && 0.0 <= v.angle < 360.0
  }

  datatype VectorScenario =
    | UniformFlow(angle: real, magnitude: real)
    /**
     * `ccw` is the sense the program's label names ("CCW"): a +90 degree
     * turn measured in the canvas's y-down frame, which turns clockwise on
     * screen (see `LabelledCounterClockwiseTurnsClockwiseOnScreen`).
     */
    | Rotational(ccw: bool)
    | Radial(converging: bool, centerR: int, centerC: int)

  /** The parameters the generator can draw for each scenario. */
  predicate ValidVectorScenario(s: VectorScenario) {
    match s
    case UniformFlow(angle, magnitude) =>
      0.0 <= angle < 360.0 && 0.2 * MAX_WIND_SPEED <= magnitude < 0.7 * MAX_WIND_SPEED
    case Rotational(_) => true
    case Radial(_, centerR, centerC) => InGrid(centerR, centerC)
  }

  /**
   * The scenario selected by the draws: the first draw splits at 0.33 and
   * 0.66; uniform flow then draws its angle and its speed, the vortex its
   * sense of rotation, and radial flow its kind and its centre cell.
   */
  function ChooseVectorScenario(rnd: seq<real>): (s: VectorScenario)
    requires VECTOR_DRAWS <= |rnd| && AllDraws(rnd)
    ensures ValidVectorScenario(s)
    ensures s.UniformFlow? <==> rnd[0] < 0.33
    ensures s.Rotational? <==> 0.33 <= rnd[0] < 0.66
    ensures s.Radial? <==> 0.66 <= rnd[0]
    ensures s.Rotational? ==> (s.ccw <==> rnd[1] < 0.5)
    ensures s.Radial? ==> (s.converging <==> rnd[1] < 0.5)
  {
    if rnd[0] < 0.33 then
      UniformFlow(rnd[1] * 360.0, rnd[2] * MAX_WIND_SPEED * 0.5 + MAX_WIND_SPEED * 0.2)
    else if rnd[0] < 0.66 then
      Rotational(rnd[1] < 0.5)
    else
      Radial(rnd[1] < 0.5, (rnd[2] * GRID_ROWS as real).Floor, (rnd[3] * GRID_COLS as real).Floor)
  }

  function VectorLabel(s: VectorScenario): string {
    match s
    case UniformFlow(_, _) => "Uniform Wind Flow"
    case Rotational(ccw) => "Rotational Flow (" + (if ccw then "CCW" else "CW") + ")"
    case Radial(converging, _, _) => (if converging then "Converging" else "Diverging") + " Wind Flow"
  }

  /** Two scenarios show the same label exactly when they are the same kind with the same sense of flow. */
  lemma VectorLabelIdentifiesVariant(s: VectorScenario, t: VectorScenario)
    ensures VectorLabel(s) == VectorLabel(t) <==>
      (s.UniformFlow? && t.UniformFlow?) ||
      (s.Rotational? && t.Rotational? && s.ccw == t.ccw) ||
      (s.Radial? && t.Radial? && s.converging == t.converging)
  {
    var a, b := VectorLabel(s), VectorLabel(t);
    if a == b {
      assert |a| == |b|;
      assert a[0] == b[0];
    }
  }

  /**
   * The vortex's wrap: add 360 to a negative angle, then take 360 off one
   * that reached 360. The direction is unchanged modulo a full turn, and any
   * angle in [-360, 720) lands in [0, 360).
   */
  function WrapVortexAngle(a: real): (w: real)
    ensures w == a || w == a + 360.0 || w == a - 360.0
    ensures -360.0 <= a < 720.0 ==> 0.0 <= w < 360.0
  {
    var up := if a < 0.0 then a + 360.0 else a;
    if up >= 360.0 then up - 360.0 else up
  }

  /**
   * The radial flow's wrap only adds 360 to a negative angle: it is enough
   * for angles in [-360, 360), which covers every `atan2` result.
   */
  function WrapRadialAngle(a: real): (w: real)
    ensures w == a || w == a + 360.0
    ensures -360.0 <= a < 360.0 ==> 0.0 <= w < 360.0
  {
    if a < 0.0 then a + 360.0 else a
  }

  /** On every angle `atan2` can give, the one-sided wrap agrees with the two-sided one. */
  lemma RadialWrapAgreesWithVortexWrap(a: real)
    requires -180.0 <= a <= 180.0
    ensures WrapRadialAngle(a) == WrapVortexAngle(a)
  {
  }

  /** `Math.min(MAX_WIND_SPEED, (dist / maxDist) * MAX_WIND_SPEED * 0.8)`. */
  function VortexMagnitude(dist: real): (m: real)
    ensures m <= MAX_WIND_SPEED
    ensures 0.0 <= dist ==> 0.0 <= m
    ensures CALM_DISTANCE <= dist ==> 0.0 < m
  {
    Min(MAX_WIND_SPEED, (dist / VORTEX_MAX_DIST) * MAX_WIND_SPEED * 0.8)
  }

  /** The vortex blows faster further out. */
  lemma VortexMagnitudeMonotone(d1: real, d2: real)
    requires d1 <= d2
    ensures VortexMagnitude(d1) <= VortexMagnitude(d2)
  {
  }

  /** `Math.max(0, Math.min(MAX_WIND_SPEED, MAX_WIND_SPEED * (1 - dist / maxExtent) * 0.9))`. */
  function RadialMagnitude(dist: real): (m: real)
    ensures 0.0 <= m <= MAX_WIND_SPEED
    ensures RADIAL_FALLOFF <= dist ==> m == 0.0
    ensures 0.0 <= dist < RADIAL_FALLOFF ==> 0.0 < m <= 0.9 * MAX_WIND_SPEED
  {
    Max(0.0, Min(MAX_WIND_SPEED, MAX_WIND_SPEED * (1.0 - dist / RADIAL_FALLOFF) * 0.9))
  }

  /** Converging and diverging flow weakens further from the centre. */
  lemma RadialMagnitudeMonotone(d1: real, d2: real)
    requires d1 <= d2
    ensures RadialMagnitude(d1) >= RadialMagnitude(d2)
  {
  }

  /**
   * Squared distance of cell (r, c) from the vortex's centre. The centre
   * lies half a cell off every row and column, so no cell comes closer than
   * half a squared cell.
   */
  function VortexSquaredDistance(r: int, c: int): (k: real)
    ensures 0.5 <= k
  {
    var dy, dx := r as real - VORTEX_CENTER_ROW, c as real - VORTEX_CENTER_COL;
    HalfOffSquare(r);
    HalfOffSquare(c);
    dx * dx + dy * dy
  }

  /**
   * A cell of the vortex: calm at the centre; elsewhere the direction is
   * perpendicular to the line from the centre (turned by +90 degrees in
   * the canvas's y-down frame for the flow the program labels CCW, -90 for
   * the one it labels CW) and wrapped into [0, 360).
   */
  function VortexCell(ccw: bool, sqrt: real -> real, atan2Degrees: (real, real) -> real, r: int, c: int): (v: Vector)
    requires SqrtNonNegative(sqrt) && AtanDegreesInRange(atan2Degrees)
    ensures WellFormed(v)
  {
    var dy, dx := r as real - VORTEX_CENTER_ROW, c as real - VORTEX_CENTER_COL;
    var dist := sqrt(VortexSquaredDistance(r, c));
    if dist < CALM_DISTANCE then
      Vector(0.0, 0.0)
    else
      var direction := if ccw then 1.0 else -1.0;
      Vector(VortexMagnitude(dist), WrapVortexAngle(atan2Degrees(dy, dx) + 90.0 * direction))
  }

  /** Squared distance, in cells, of cell (r, c) from the centre of converging or diverging flow. */
  function RadialSquaredDistance(centerR: int, centerC: int, r: int, c: int): (k: int)
    ensures 0 <= k
    ensures k == 0 <==> r == centerR && c == centerC
  {
    var dy, dx := r - centerR, c - centerC;
    assert dy != 0 ==> dy * dy > 0;
    assert dx != 0 ==> dx * dx > 0;
    dx * dx + dy * dy
  }

  /**
   * A cell of converging or diverging flow: calm at the centre; elsewhere
   * pointing towards the centre (converging) or away from it (diverging),
   * negative angles lifted by 360, and weaker further out.
   */
  function RadialCell(converging: bool, centerR: int, centerC: int, sqrt: real -> real,
                      atan2Degrees: (real, real) -> real, r: int, c: int): (v: Vector)
    requires SqrtNonNegative(sqrt) && AtanDegreesInRange(atan2Degrees)
    ensures WellFormed(v)
  {
    var dy, dx := (r - centerR) as real, (c - centerC) as real;
    var dist := sqrt(RadialSquaredDistance(centerR, centerC, r, c) as real);
    if dist < CALM_DISTANCE then
      Vector(0.0, 0.0)
    else
      var angle := if converging then atan2Degrees(-dy, -dx) else atan2Degrees(dy, dx);
      Vector(RadialMagnitude(dist), WrapRadialAngle(angle))
  }

  /** The vector the scenario puts in cell (r, c): every cell gets one, in range. */
  function VectorCell(s: VectorScenario, sqrt: real -> real, atan2Degrees: (real, real) -> real, r: int, c: int): (v: Vector)
    requires ValidVectorScenario(s)
    requires SqrtNonNegative(sqrt) && AtanDegreesInRange(atan2Degrees)
    ensures WellFormed(v)
    ensures s.UniformFlow? ==> v == Vector(s.magnitude, s.angle)
  {
    match s
    case UniformFlow(angle, magnitude) => Vector(magnitude, angle)
    case Rotational(ccw) => VortexCell(ccw, sqrt, atan2Degrees, r, c)
    case Radial(converging, centerR, centerC) => RadialCell(converging, centerR, centerC, sqrt, atan2Degrees, r, c)
  }

  /**
   * No cell is within the calm distance of the vortex's
   * centre, which lies between cells: the centre guard never fires, and
   * every cell of the vortex blows.
   */
  lemma VortexNeverCalm(ccw: bool, sqrt: real -> real, atan2Degrees: (real, real) -> real, r: int, c: int)
    requires IsSqrt(sqrt) && AtanDegreesInRange(atan2Degrees)
    ensures CALM_DISTANCE <= sqrt(VortexSquaredDistance(r, c))
    ensures 0.0 < VortexCell(ccw, sqrt, atan2Degrees, r, c).magnitude
  {
    var k := VortexSquaredDistance(r, c);
    RootBelowTenth(sqrt(k), k);
  }

  /** An integer's offset from the vortex centre's coordinate is at least a half, so its square is at least a quarter. */
  lemma HalfOffSquare(i: int)
    ensures (i as real - VORTEX_CENTER_ROW) * (i as real - VORTEX_CENTER_ROW) >= 0.25
    ensures (i as real - VORTEX_CENTER_COL) * (i as real - VORTEX_CENTER_COL) >= 0.25
  {
    var d := i as real - VORTEX_CENTER_ROW;
    if d >= 0.0 {
      assert d >= 0.5;
      MulMonotone(d, 0.5, d);
      MulMonotone(0.5, 0.5, d);
    } else {
      assert -d >= 0.5;
      MulMonotone(-d, 0.5, -d);
      MulMonotone(0.5, 0.5, -d);
    }
  }

  /**
   * Converging or diverging flow is calm exactly at its centre cell: every
   * other cell is at least one cell away, beyond the calm distance.
   */
  lemma RadialCalmExactlyAtCentre(converging: bool, centerR: int, centerC: int, sqrt: real -> real,
                                  atan2Degrees: (real, real) -> real, r: int, c: int)
    requires IsSqrt(sqrt) && AtanDegreesInRange(atan2Degrees)
    ensures var k := RadialSquaredDistance(centerR, centerC, r, c);
      sqrt(k as real) < CALM_DISTANCE <==> r == centerR && c == centerC
    ensures r == centerR && c == centerC ==>
      RadialCell(converging, centerR, centerC, sqrt, atan2Degrees, r, c) == Vector(0.0, 0.0)
  {
    var k := RadialSquaredDistance(centerR, centerC, r, c);
    RootBelowTenth(sqrt(k as real), k as real);
  }

  /**
   * Angles are measured in the canvas's frame, where y grows downwards, so
   * an angle in (0, 180) points down the screen. In the vortex labelled
   * "CCW" the rightmost cell of row 9, the row just above the centre,
   * points down and the leftmost cell of that row points up: the flow turns
   * clockwise as drawn.
   */
  lemma LabelledCounterClockwiseTurnsClockwiseOnScreen(sqrt: real -> real, atan2Degrees: (real, real) -> real)
    requires IsSqrt(sqrt) && AtanDegreesInRange(atan2Degrees)
    requires -90.0 < atan2Degrees(-0.5, 9.5) < 0.0
    requires -180.0 < atan2Degrees(-0.5, -9.5) < -90.0
    ensures 0.0 < VortexCell(true, sqrt, atan2Degrees, 9, GRID_COLS - 1).angle < 90.0
    ensures 270.0 < VortexCell(true, sqrt, atan2Degrees, 9, 0).angle < 360.0
  {
    VortexNeverCalm(true, sqrt, atan2Degrees, 9, GRID_COLS - 1);
    VortexNeverCalm(true, sqrt, atan2Degrees, 9, 0);
  }
}
