/**
 * The scalar (temperature) field generator: which scenario a draw selects,
 * its label, and the temperature each scenario puts in each cell. The
 * imperative fill of the grid is `Simulation.App.GenerateScalarFieldData`;
 * this module gives the value it must put in every cell, and the lemmas say
 * what those values are like.
 */
module ScalarField {
  import opened Maths
  import opened Grid

  const MIN_TEMP: real := 0.0
  const MAX_TEMP: real := 40.0

  /** How much hotter (or colder) the central spot is than the background. */
  const SPOT_STRENGTH: real := (MAX_TEMP - MIN_TEMP) * 0.8
  /** The spot's centre cell: the floor of half the grid's extent. */
  const SPOT_CENTER_ROW: int := GRID_ROWS / 2
  const SPOT_CENTER_COL: int := GRID_COLS / 2
  /** Beyond this distance from the centre the spot has no influence. */
  const SPOT_RADIUS: real := Max(GRID_ROWS as real, GRID_COLS as real) / 3.0

  /** Draws consumed at most by one scalar generation: the choice and one per cell. */
  const SCALAR_DRAWS: int := 1 + GRID_ROWS * GRID_COLS

  datatype ScalarScenario =
    | RandomNoise
    | LinearGradient(horizontal: bool, startTemp: real, endTemp: real)
    | CentralSpot(hot: bool, baseTemp: real)

  /**
   * The scenario selected by the draws: the first draw splits at 0.33 and
   * 0.66; the gradient then draws its direction, its start and its end
   * temperature, the spot its kind and its background temperature.
   */
  function ChooseScalarScenario(rnd: seq<real>): (s: ScalarScenario)
    requires 4 <= |rnd| && AllDraws(rnd)
    ensures s.RandomNoise? <==> rnd[0] < 0.33
    ensures s.LinearGradient? <==> 0.33 <= rnd[0] < 0.66
    ensures s.CentralSpot? <==> 0.66 <= rnd[0]
    ensures s.LinearGradient? ==>
      (s.horizontal <==> rnd[1] < 0.5) &&
      MIN_TEMP <= s.startTemp < MIN_TEMP + MAX_TEMP / 2.0 &&
      s.startTemp <= s.endTemp < s.startTemp + MAX_TEMP / 2.0
    ensures s.CentralSpot? ==>
      (s.hot <==> rnd[1] < 0.5) &&
      MIN_TEMP <= s.baseTemp < MIN_TEMP + 0.3 * (MAX_TEMP - MIN_TEMP)
  {
    if rnd[0] < 0.33 then
      RandomNoise
    else if rnd[0] < 0.66 then
      var startTemp := MIN_TEMP + rnd[2] * (MAX_TEMP / 2.0);
      LinearGradient(rnd[1] < 0.5, startTemp, startTemp + rnd[3] * (MAX_TEMP / 2.0))
    else
      CentralSpot(rnd[1] < 0.5, MIN_TEMP + (MAX_TEMP - MIN_TEMP) * 0.3 * rnd[2])
  }

  function ScalarLabel(s: ScalarScenario): string {
    match s
    case RandomNoise => "Random Temperature Distribution"
    case LinearGradient(horizontal, _, _) =>
      "Linear Temperature Gradient (" + (if horizontal then "Horizontal" else "Vertical") + ")"
    case CentralSpot(hot, _) => "Central " + (if hot then "Hot" else "Cold") + " Spot"
  }

  /** Two scenarios show the same label exactly when they are the same kind with the same orientation or spot type. */
  lemma ScalarLabelIdentifiesVariant(s: ScalarScenario, t: ScalarScenario)
    ensures ScalarLabel(s) == ScalarLabel(t) <==>
      (s.RandomNoise? && t.RandomNoise?) ||
      (s.LinearGradient? && t.LinearGradient? && s.horizontal == t.horizontal) ||
      (s.CentralSpot? && t.CentralSpot? && s.hot == t.hot)
  {
    var a, b := ScalarLabel(s), ScalarLabel(t);
    if a == b {
      assert |a| == |b|;
      if s.LinearGradient? && t.LinearGradient? {
        assert a[29] == b[29];
      }
    }
  }

  /** Index in the draw stream of the noise draw for cell (r, c), in row-major order. */
  function NoiseDrawIndex(r: int, c: int): (i: int)
    requires InGrid(r, c)
    ensures 1 <= i < SCALAR_DRAWS
  {
    1 + r * GRID_COLS + c
  }

  /** Distinct cells draw distinct noise values. */
  lemma NoiseDrawsDistinct(r1: int, c1: int, r2: int, c2: int)
    requires InGrid(r1, c1) && InGrid(r2, c2)
    ensures NoiseDrawIndex(r1, c1) == NoiseDrawIndex(r2, c2) <==> r1 == r2 && c1 == c2
  {
  }

  /** `MIN_TEMP + Math.random() * (MAX_TEMP - MIN_TEMP)`: uniform noise over the range. */
  function NoiseTemperature(u: real): (t: real)
    requires IsDraw(u)
    ensures MIN_TEMP <= t < MAX_TEMP
  {
    MIN_TEMP + u * (MAX_TEMP - MIN_TEMP)
  }

  /** `Math.max(MIN_TEMP, Math.min(MAX_TEMP, v))`. */
  function Clamp(v: real): (t: real)
    ensures MIN_TEMP <= t <= MAX_TEMP
    ensures MIN_TEMP <= v <= MAX_TEMP ==> t == v
    ensures v < MIN_TEMP ==> t == MIN_TEMP
    ensures MAX_TEMP < v ==> t == MAX_TEMP
  {
    Max(MIN_TEMP, Min(MAX_TEMP, v))
  }

  lemma ClampMonotone(v: real, w: real)
    requires v <= w
    ensures Clamp(v) <= Clamp(w)
  {
  }

  /**
   * Normalised position along an axis of `extent` cells: the divisor is
   * `extent - 1`, or 1 when the extent is 1, so it is never zero.
   */
  function Progress(index: int, extent: int): (p: real)
    requires 1 <= extent && 0 <= index < extent
    ensures 0.0 <= p <= 1.0
    ensures index == 0 ==> p == 0.0
    ensures 1 < extent && index == extent - 1 ==> p == 1.0
  {
    var divisor := if extent > 1 then extent - 1 else 1;
    assert index <= divisor;
    index as real / divisor as real
  }

  lemma ProgressMonotone(i: int, j: int, extent: int)
    requires 1 <= extent && 0 <= i <= j < extent
    ensures Progress(i, extent) <= Progress(j, extent)
  {
    var divisor := (if extent > 1 then extent - 1 else 1) as real;
    assert Progress(j, extent) - Progress(i, extent) == (j - i) as real / divisor;
  }

  /** `startTemp + (endTemp - startTemp) * progress`, clamped into range. */
  function Interpolate(startTemp: real, endTemp: real, progress: real): (t: real)
    ensures MIN_TEMP <= t <= MAX_TEMP
  {
    Clamp(startTemp + (endTemp - startTemp) * progress)
  }

  /** Clamped linear interpolation from a lower to a higher temperature never decreases. */
  lemma InterpolateMonotone(startTemp: real, endTemp: real, p1: real, p2: real)
    requires startTemp <= endTemp && p1 <= p2
    ensures Interpolate(startTemp, endTemp, p1) <= Interpolate(startTemp, endTemp, p2)
  {
    MulMonotone(endTemp - startTemp, p1, p2);
    ClampMonotone(startTemp + (endTemp - startTemp) * p1, startTemp + (endTemp - startTemp) * p2);
  }

  /** A linear gradient along the rows (horizontal) or the columns (vertical), clamped into range. */
  function GradientTemperature(horizontal: bool, startTemp: real, endTemp: real, r: int, c: int): (t: real)
    requires InGrid(r, c)
    ensures MIN_TEMP <= t <= MAX_TEMP
  {
    var progress := if horizontal then Progress(c, GRID_COLS) else Progress(r, GRID_ROWS);
    Interpolate(startTemp, endTemp, progress)
  }

  /**
   * Along the gradient's axis: with `startTemp <= endTemp` the values never
   * decrease from one cell to the next.
   */
  lemma GradientAlongAxis(horizontal: bool, startTemp: real, endTemp: real, r1: int, c1: int, r2: int, c2: int)
    requires startTemp <= endTemp
    requires InGrid(r1, c1) && InGrid(r2, c2)
    requires if horizontal then c1 <= c2 else r1 <= r2
    ensures GradientTemperature(horizontal, startTemp, endTemp, r1, c1) <= GradientTemperature(horizontal, startTemp, endTemp, r2, c2)
  {
    if horizontal {
      ProgressMonotone(c1, c2, GRID_COLS);
      InterpolateMonotone(startTemp, endTemp, Progress(c1, GRID_COLS), Progress(c2, GRID_COLS));
    } else {
      ProgressMonotone(r1, r2, GRID_ROWS);
      InterpolateMonotone(startTemp, endTemp, Progress(r1, GRID_ROWS), Progress(r2, GRID_ROWS));
    }
  }

  /** Across the gradient's axis the value does not change. */
  lemma GradientAcrossAxis(horizontal: bool, startTemp: real, endTemp: real, r1: int, c1: int, r2: int, c2: int)
    requires InGrid(r1, c1) && InGrid(r2, c2)
    requires if horizontal then c1 == c2 else r1 == r2
    ensures GradientTemperature(horizontal, startTemp, endTemp, r1, c1) == GradientTemperature(horizontal, startTemp, endTemp, r2, c2)
  {
  }

  /**
   * For the gradients the generator draws, the clamp never bites: the
   * first cell along the axis holds `startTemp` and the last `endTemp`.
   */
  lemma GradientEndpoints(horizontal: bool, startTemp: real, endTemp: real, r: int, c: int)
    requires MIN_TEMP <= startTemp <= endTemp < MAX_TEMP
    requires InGrid(r, c)
    ensures horizontal ==> GradientTemperature(horizontal, startTemp, endTemp, r, 0) == startTemp
    ensures horizontal ==> GradientTemperature(horizontal, startTemp, endTemp, r, GRID_COLS - 1) == endTemp
    ensures !horizontal ==> GradientTemperature(horizontal, startTemp, endTemp, 0, c) == startTemp
    ensures !horizontal ==> GradientTemperature(horizontal, startTemp, endTemp, GRID_ROWS - 1, c) == endTemp
  {
  }

  /** `max(0, 1 - distance / maxInfluenceRadius)`: full at the centre, none beyond the radius. */
  function SpotInfluence(distance: real): (influence: real)
    ensures 0.0 <= influence
    ensures 0.0 <= distance ==> influence <= 1.0
    ensures distance == 0.0 ==> influence == 1.0
    ensures SPOT_RADIUS <= distance ==> influence == 0.0
  {
    Max(0.0, 1.0 - distance / SPOT_RADIUS)
  }

  /** Euclidean distance of cell (r, c) from the spot's centre cell. */
  function SpotDistance(sqrt: real -> real, r: int, c: int): real {
    var dr, dc := r - SPOT_CENTER_ROW, c - SPOT_CENTER_COL;
    sqrt((dr * dr + dc * dc) as real)
  }

  /** A hot spot adds the influence to the background; a cold one subtracts it from background plus strength. */
  function SpotTemperature(hot: bool, baseTemp: real, distance: real): (t: real)
    ensures MIN_TEMP <= t <= MAX_TEMP
  {
    var influence := SpotInfluence(distance);
    if hot then Clamp(baseTemp + influence * SPOT_STRENGTH)
    else Clamp((baseTemp + SPOT_STRENGTH) - influence * SPOT_STRENGTH)
  }

  /** A hot spot cools and a cold spot warms with the distance from the centre. */
  lemma SpotMonotone(hot: bool, baseTemp: real, d1: real, d2: real)
    requires 0.0 <= d1 <= d2
    ensures hot ==> SpotTemperature(hot, baseTemp, d1) >= SpotTemperature(hot, baseTemp, d2)
    ensures !hot ==> SpotTemperature(hot, baseTemp, d1) <= SpotTemperature(hot, baseTemp, d2)
  {
    assert SpotInfluence(d1) >= SpotInfluence(d2);
  }

  /**
   * For the background temperatures the generator draws, a cold spot's
   * centre holds exactly the background temperature and a hot spot's centre
   * is at least 32 degrees; beyond the radius a hot spot shows the
   * background and a cold one background plus strength, capped at MAX_TEMP.
   */
  lemma SpotCentreAndRim(hot: bool, baseTemp: real, distance: real)
    requires MIN_TEMP <= baseTemp < MIN_TEMP + 0.3 * (MAX_TEMP - MIN_TEMP)
    ensures !hot ==> SpotTemperature(hot, baseTemp, 0.0) == baseTemp
    ensures hot ==> SpotTemperature(hot, baseTemp, 0.0) >= MIN_TEMP + SPOT_STRENGTH
    ensures SPOT_RADIUS <= distance && hot ==> SpotTemperature(hot, baseTemp, distance) == baseTemp
    ensures SPOT_RADIUS <= distance && !hot ==> SpotTemperature(hot, baseTemp, distance) == Min(MAX_TEMP, baseTemp + SPOT_STRENGTH)
  {
  }

  /** The temperature the scenario puts in cell (r, c); `u` is that cell's noise draw. */
  function ScalarCell(s: ScalarScenario, u: real, sqrt: real -> real, r: int, c: int): (t: real)
    requires InGrid(r, c) && IsDraw(u)
    ensures MIN_TEMP <= t <= MAX_TEMP
  {
    match s
    case RandomNoise => NoiseTemperature(u)
    case LinearGradient(horizontal, startTemp, endTemp) => GradientTemperature(horizontal, startTemp, endTemp, r, c)
    case CentralSpot(hot, baseTemp) => SpotTemperature(hot, baseTemp, SpotDistance(sqrt, r, c))
  }
}
