/**
 * The application state and the operations that change it: the selected
 * field type, the current scalar and vector grids and the current scenario
 * label, the two generators that fill a fresh grid cell by cell, the
 * controller that regenerates for the selected field type, and the hover
 * lookup that reads a cell back for the tooltip.
 */
module Simulation {
  import opened Wrappers
  import opened Maths
  import opened Grid
  import opened ScalarField
  import opened WindField

  datatype FieldType = ScalarMode | VectorMode

  /** What the tooltip shows for a cell, before it is formatted as text. */
  datatype Reading = TemperatureReading(temperature: real) | WindReading(wind: Vector)

  /** A grid is either the empty initial one or a full GRID_ROWS x GRID_COLS one. */
  predicate Shaped(rows: int, cols: int) {
    (rows == 0 && cols == 0) || (rows == GRID_ROWS && cols == GRID_COLS)
  }

  /**
   * `scalar` is a full grid holding, in every cell, the temperature the
   * scenario chosen by `rnd` gives that cell.
   */
  ghost predicate HoldsScalarField(scalar: array2<real>, rnd: seq<real>, sqrt: real -> real)
    reads scalar
  {
    SCALAR_DRAWS <= |rnd| && AllDraws(rnd) &&
    scalar.Length0 == GRID_ROWS && scalar.Length1 == GRID_COLS &&
    forall r, c :: InGrid(r, c) ==>
      scalar[r, c] == ScalarCell(ChooseScalarScenario(rnd), rnd[NoiseDrawIndex(r, c)], sqrt, r, c)
  }

  /**
   * `vector` is a full grid holding, in every cell, the wind vector the
   * scenario chosen by `rnd` gives that cell.
   */
  ghost predicate HoldsVectorField(vector: array2<Option<Vector>>, rnd: seq<real>, sqrt: real -> real,
                                   atan2Degrees: (real, real) -> real)
    reads vector
  {
    VECTOR_DRAWS <= |rnd| && AllDraws(rnd) && SqrtNonNegative(sqrt) && AtanDegreesInRange(atan2Degrees) &&
    vector.Length0 == GRID_ROWS && vector.Length1 == GRID_COLS &&
    forall r, c :: InGrid(r, c) ==>
      vector[r, c] == Some(VectorCell(ChooseVectorScenario(rnd), sqrt, atan2Degrees, r, c))
  }

  class App {
    var currentFieldType: FieldType
    var scalarData: array2<real>
    var vectorData: array2<Option<Vector>>
    var currentScenarioName: string

    /**
     * Every temperature held lies in [MIN_TEMP, MAX_TEMP] and every wind
     * vector held has a speed in [0, MAX_WIND_SPEED] and an angle in [0, 360).
     */
    ghost predicate Valid()
      reads this, scalarData, vectorData
    {
      Shaped(scalarData.Length0, scalarData.Length1) &&
      Shaped(vectorData.Length0, vectorData.Length1) &&
      (forall r, c :: 0 <= r < scalarData.Length0 && 0 <= c < scalarData.Length1 ==>
         MIN_TEMP <= scalarData[r, c] <= MAX_TEMP) &&
      (forall r, c :: 0 <= r < vectorData.Length0 && 0 <= c < vectorData.Length1 && vectorData[r, c].Some? ==>
         WellFormed(vectorData[r, c].value))
    }

    /** The state before the page has generated anything: scalar mode, empty grids, no label. */
    constructor ()
      ensures Valid() && fresh(scalarData) && fresh(vectorData)
      ensures currentFieldType == ScalarMode && currentScenarioName == ""
      ensures scalarData.Length0 == 0 && vectorData.Length0 == 0
    {
      currentFieldType := ScalarMode;
      scalarData := new real[0, 0];
      vectorData := new Option<Vector>[0, 0];
      currentScenarioName := "";
    }

    /**
     * Replaces the scalar grid with a fresh GRID_ROWS x GRID_COLS grid filled
     * by the scenario the draws select, and sets the label. `rnd` holds the
     * successive values of `Math.random()`, `sqrt` is `Math.sqrt`.
     */
    method GenerateScalarFieldData(rnd: seq<real>, sqrt: real -> real)
      requires Valid()
      requires SCALAR_DRAWS <= |rnd| && AllDraws(rnd)
      modifies this
      ensures Valid()
      ensures fresh(scalarData) && HoldsScalarField(scalarData, rnd, sqrt)
      ensures currentScenarioName == ScalarLabel(ChooseScalarScenario(rnd))
      ensures vectorData == old(vectorData) && currentFieldType == old(currentFieldType)
    {
      var grid := new real[GRID_ROWS, GRID_COLS]((_, _) => 0.0);
      var scenario := ChooseScalarScenario(rnd);
      currentScenarioName := ScalarLabel(scenario);
      var r := 0;
      while r < GRID_ROWS
        invariant 0 <= r <= GRID_ROWS
        invariant forall i, j :: 0 <= i < r && 0 <= j < GRID_COLS ==>
          grid[i, j] == ScalarCell(scenario, rnd[NoiseDrawIndex(i, j)], sqrt, i, j)
        modifies grid
      {
        var c := 0;
        while c < GRID_COLS
          invariant 0 <= c <= GRID_COLS
          invariant forall i, j :: 0 <= i < r && 0 <= j < GRID_COLS ==>
            grid[i, j] == ScalarCell(scenario, rnd[NoiseDrawIndex(i, j)], sqrt, i, j)
          invariant forall j :: 0 <= j < c ==>
            grid[r, j] == ScalarCell(scenario, rnd[NoiseDrawIndex(r, j)], sqrt, r, j)
          modifies grid
        {
          var t := ComputeScalarCell(scenario, rnd[NoiseDrawIndex(r, c)], sqrt, r, c);
          grid[r, c] := t;
          c := c + 1;
        }
        r := r + 1;
      }
      scalarData := grid;
    }

    /**
     * One iteration of the scalar generator's inner loop: the value the
     * selected scenario writes into cell (r, c), clamped into range except
     * for noise, which is in range by construction.
     */
    static method ComputeScalarCell(scenario: ScalarScenario, u: real, sqrt: real -> real, r: int, c: int)
      returns (t: real)
      requires InGrid(r, c) && IsDraw(u)
      ensures t == ScalarCell(scenario, u, sqrt, r, c)
      ensures MIN_TEMP <= t <= MAX_TEMP
    {
      match scenario {
        case RandomNoise =>
          t := MIN_TEMP + u * (MAX_TEMP - MIN_TEMP);
          assert t == NoiseTemperature(u);
        case LinearGradient(horizontal, startTemp, endTemp) =>
          var progress;
          if horizontal {
            progress := c as real / (if GRID_COLS > 1 then GRID_COLS - 1 else 1) as real;
          } else {
            progress := r as real / (if GRID_ROWS > 1 then GRID_ROWS - 1 else 1) as real;
          }
          t := Interpolate(startTemp, endTemp, progress);
        case CentralSpot(hot, baseTemp) =>
          var distance := SpotDistance(sqrt, r, c);
          var influence := Max(0.0, 1.0 - distance / SPOT_RADIUS);
          if hot {
            t := baseTemp + influence * SPOT_STRENGTH;
          } else {
            t := (baseTemp + SPOT_STRENGTH) - influence * SPOT_STRENGTH;
          }
          t := Max(MIN_TEMP, Min(MAX_TEMP, t));
          assert influence == SpotInfluence(distance);
          assert t == SpotTemperature(hot, baseTemp, distance);
      }
    }

    /**
     * Replaces the vector grid with a fresh GRID_ROWS x GRID_COLS grid in
     * which every cell holds the vector the selected scenario gives it, and
     * sets the label. `atan2Degrees` is `Math.atan2` converted to degrees.
     */
    method GenerateVectorFieldData(rnd: seq<real>, sqrt: real -> real, atan2Degrees: (real, real) -> real)
      requires Valid()
      requires VECTOR_DRAWS <= |rnd| && AllDraws(rnd)
      requires SqrtNonNegative(sqrt) && AtanDegreesInRange(atan2Degrees)
      modifies this
      ensures Valid()
      ensures fresh(vectorData) && HoldsVectorField(vectorData, rnd, sqrt, atan2Degrees)
      ensures currentScenarioName == VectorLabel(ChooseVectorScenario(rnd))
      ensures scalarData == old(scalarData) && currentFieldType == old(currentFieldType)
    {
      var grid := new Option<Vector>[GRID_ROWS, GRID_COLS]((_, _) => None);
      var scenario := ChooseVectorScenario(rnd);
      currentScenarioName := VectorLabel(scenario);
      var r := 0;
      while r < GRID_ROWS
        invariant 0 <= r <= GRID_ROWS
        invariant forall i, j :: 0 <= i < r && 0 <= j < GRID_COLS ==>
          grid[i, j] == Some(VectorCell(scenario, sqrt, atan2Degrees, i, j))
        modifies grid
      {
        var c := 0;
        while c < GRID_COLS
          invariant 0 <= c <= GRID_COLS
          invariant forall i, j :: 0 <= i < r && 0 <= j < GRID_COLS ==>
            grid[i, j] == Some(VectorCell(scenario, sqrt, atan2Degrees, i, j))
          invariant forall j :: 0 <= j < c ==>
            grid[r, j] == Some(VectorCell(scenario, sqrt, atan2Degrees, r, j))
          modifies grid
        {
          var v := ComputeVectorCell(scenario, sqrt, atan2Degrees, r, c);
          grid[r, c] := Some(v);
          c := c + 1;
        }
        r := r + 1;
      }
      vectorData := grid;
    }

    /**
     * One iteration of the vector generator's inner loop, statement by
     * statement: the calm-centre guard and the in-place angle wraps.
     */
    static method ComputeVectorCell(scenario: VectorScenario, sqrt: real -> real, atan2Degrees: (real, real) -> real,
                                    r: int, c: int) returns (v: Vector)
      requires ValidVectorScenario(scenario)
      requires SqrtNonNegative(sqrt) && AtanDegreesInRange(atan2Degrees)
      ensures v == VectorCell(scenario, sqrt, atan2Degrees, r, c)
      ensures WellFormed(v)
    {
      match scenario {
        case UniformFlow(commonAngle, commonMagnitude) =>
          v := Vector(commonMagnitude, commonAngle);
        case Rotational(ccw) =>
          var direction := if ccw then 1.0 else -1.0;
          var dy, dx := r as real - VORTEX_CENTER_ROW, c as real - VORTEX_CENTER_COL;
          var dist := sqrt(VortexSquaredDistance(r, c));
          if dist < CALM_DISTANCE {
            v := Vector(0.0, 0.0);
          } else {
            var angle := atan2Degrees(dy, dx) + 90.0 * direction;
            if angle < 0.0 {
              angle := angle + 360.0;
            }
            if angle >= 360.0 {
              angle := angle - 360.0;
            }
            v := Vector(VortexMagnitude(dist), angle);
          }
        case Radial(converging, centerR, centerC) =>
          var dy, dx := (r - centerR) as real, (c - centerC) as real;
          var dist := sqrt(RadialSquaredDistance(centerR, centerC, r, c) as real);
          if dist < CALM_DISTANCE {
            v := Vector(0.0, 0.0);
          } else {
            var angle;
            if converging {
              angle := atan2Degrees(-dy, -dx);
            } else {
              angle := atan2Degrees(dy, dx);
            }
            if angle < 0.0 {
              angle := angle + 360.0;
            }
            v := Vector(RadialMagnitude(dist), angle);
          }
      }
    }

    /** Regenerates the grid of the selected field type (the redraw is not modelled). */
    method GenerateAndDrawNewScenario(rnd: seq<real>, sqrt: real -> real, atan2Degrees: (real, real) -> real)
      requires Valid()
      requires SCALAR_DRAWS <= |rnd| && AllDraws(rnd)
      requires SqrtNonNegative(sqrt) && AtanDegreesInRange(atan2Degrees)
      modifies this
      ensures Valid() && currentFieldType == old(currentFieldType)
      ensures currentFieldType == ScalarMode ==>
        fresh(scalarData) && HoldsScalarField(scalarData, rnd, sqrt) && vectorData == old(vectorData) &&
        currentScenarioName == ScalarLabel(ChooseScalarScenario(rnd))
      ensures currentFieldType == VectorMode ==>
        fresh(vectorData) && HoldsVectorField(vectorData, rnd, sqrt, atan2Degrees) && scalarData == old(scalarData) &&
        currentScenarioName == VectorLabel(ChooseVectorScenario(rnd))
    {
      if currentFieldType == ScalarMode {
        GenerateScalarFieldData(rnd, sqrt);
      } else {
        GenerateVectorFieldData(rnd, sqrt, atan2Degrees);
      }
    }

    /** Selecting a field type always regenerates for it; it never reinterprets the old grid. */
    method HandleFieldTypeChange(fieldType: FieldType, rnd: seq<real>, sqrt: real -> real,
                                 atan2Degrees: (real, real) -> real)
      requires Valid()
      requires SCALAR_DRAWS <= |rnd| && AllDraws(rnd)
      requires SqrtNonNegative(sqrt) && AtanDegreesInRange(atan2Degrees)
      modifies this
      ensures Valid() && currentFieldType == fieldType
      ensures fieldType == ScalarMode ==>
        fresh(scalarData) && HoldsScalarField(scalarData, rnd, sqrt) && vectorData == old(vectorData) &&
        currentScenarioName == ScalarLabel(ChooseScalarScenario(rnd))
      ensures fieldType == VectorMode ==>
        fresh(vectorData) && HoldsVectorField(vectorData, rnd, sqrt, atan2Degrees) && scalarData == old(scalarData) &&
        currentScenarioName == VectorLabel(ChooseVectorScenario(rnd))
    {
      currentFieldType := fieldType;
      GenerateAndDrawNewScenario(rnd, sqrt, atan2Degrees);
    }

    /**
     * The reading the tooltip shows for a pointer at canvas pixel (x, y):
     * nothing off the grid; in scalar mode the cell's temperature, in vector
     * mode the cell's vector when it has one. Every reading is in range, and
     * once a grid of the selected type exists, exactly the pixels of the
     * canvas have a reading.
     */
    method HandleCanvasMouseMove(x: real, y: real) returns (tooltip: Option<Reading>)
      requires Valid()
      ensures CellAt(x, y).None? ==> tooltip.None?
      ensures tooltip.Some? && tooltip.value.TemperatureReading? ==>
        MIN_TEMP <= tooltip.value.temperature <= MAX_TEMP
      ensures tooltip.Some? && tooltip.value.WindReading? ==> WellFormed(tooltip.value.wind)
      ensures currentFieldType == ScalarMode && scalarData.Length0 == GRID_ROWS ==>
        (tooltip.Some? <==> 0.0 <= x < CANVAS_WIDTH && 0.0 <= y < CANVAS_HEIGHT)
      ensures currentFieldType == ScalarMode && tooltip.Some? ==>
        tooltip.value.TemperatureReading? && CellAt(x, y).Some? &&
        var cell := CellAt(x, y).value;
        cell.row < scalarData.Length0 && cell.col < scalarData.Length1 &&
        tooltip.value.temperature == scalarData[cell.row, cell.col]
      ensures currentFieldType == VectorMode && tooltip.Some? ==>
        tooltip.value.WindReading? && CellAt(x, y).Some? &&
        var cell := CellAt(x, y).value;
        cell.row < vectorData.Length0 && cell.col < vectorData.Length1 &&
        vectorData[cell.row, cell.col] == Some(tooltip.value.wind)
      ensures currentFieldType == VectorMode && vectorData.Length0 == GRID_ROWS && CellAt(x, y).Some? &&
        vectorData[CellAt(x, y).value.row, CellAt(x, y).value.col].Some?
        ==> tooltip.Some?
    {
      tooltip := None;
      var cell := CellAt(x, y);
      if cell.Some? {
        var row, col := cell.value.row, cell.value.col;
        if currentFieldType == ScalarMode && row < scalarData.Length0 && col < scalarData.Length1 {
          tooltip := Some(TemperatureReading(scalarData[row, col]));
        } else if currentFieldType == VectorMode && row < vectorData.Length0 && col < vectorData.Length1
                  && vectorData[row, col].Some? {
          tooltip := Some(WindReading(vectorData[row, col].value));
        }
      }
    }
  }
}
