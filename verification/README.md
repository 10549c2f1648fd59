# Scalar and vector field visualiser: a Dafny model

The application draws a 20 × 20 grid of 25-pixel cells on a 500 × 500
canvas. It shows one of two fields:

- a scalar field of temperatures, drawn as coloured cells;
- a vector field of wind, drawn as one arrow per cell.

Each press of "generate" picks one of three random scenarios for the
selected field and fills a fresh grid with it. Hovering over a cell shows
that cell's value in a tooltip.

This project models the arithmetic core of `index.tsx`:

- the two generators;
- the temperature colour map;
- the pixel-to-cell lookup of the hover handler;
- the rules that decide whether an arrow is drawn, how long it is and how
  thick its line is.

The modules are:

- `Grid`: the grid constants, the pixel-to-cell lookup `CellAt` and the
  cell centre.
- `ScalarField`: the three temperature scenarios, as functions of the
  random draws. One function gives the value of each cell.
- `WindField`: the three wind scenarios, in the same way.
- `ColourMap`: `getTemperatureColor`, as a function to an `Rgb` triple.
- `Arrows`: arrow sizing and the arrow's geometry.
- `Simulation`: the page state as a class `App`. Its fields are the
  selected field type, the two grids (`array2`) and the scenario label.
  - `GenerateScalarFieldData` and `GenerateVectorFieldData` allocate a new
    grid and fill it with nested row and column loops, as the source does.
  - The controller methods regenerate the grid of the selected type.
  - `HandleCanvasMouseMove` reads a cell back for the tooltip.

The application's external calls are supplied by the caller:

- `Math.random()` is a sequence `rnd` of draws, each in [0, 1), consumed
  in the source's order.
  - `rnd[0]` chooses the scenario.
  - The next draws are the scenario's own: direction, start and end for a
    gradient; hot or cold and the background for a spot; angle and speed
    for uniform wind; rotation sense for a vortex; kind, centre row and
    centre column for radial flow.
  - Noise draws one value per cell, in row-major order.
- `Math.sqrt` is a function parameter. It is known to be non-negative and,
  where a lemma needs it, to square back to its argument.
- `Math.atan2` converted to degrees is a function parameter with values in
  [-180, 180].
- `Math.cos` and `Math.sin` of an angle in degrees are a `heading`
  parameter that returns a unit vector.

Numbers are exact reals.

A few facts about `index.tsx` that the model follows:

- The gradient's start and end temperatures are drawn with a width of
  `MAX_TEMP / 2` (index.tsx:165-166).
- Every range the code draws from is half-open, because `Math.random()` is
  below 1: the gradient's start and end, and uniform wind's speed of
  `[0.2, 0.7) * MAX_WIND_SPEED`.
- The one-sided angle wrap of converging and diverging flow (index.tsx:272)
  is enough because `atan2` never exceeds 180 degrees. Adding 360 to a
  negative angle already gives [0, 360), and the result agrees with the
  vortex's two-sided wrap (`RadialWrapAgreesWithVortexWrap`).
- Angles are measured in the canvas's frame, where y grows downwards. The
  vortex labelled "Rotational Flow (CCW)" turns each direction by +90
  degrees in that frame (index.tsx:226-239). As drawn, it therefore turns
  clockwise, and the one labelled "CW" turns counter-clockwise
  (`LabelledCounterClockwiseTurnsClockwiseOnScreen`). The model keeps the
  program's labels.

## Model

| member | source | states |
|---|---|---|
| Grid.CellAt | index.tsx:111-114 | A pixel has a cell exactly when it lies on the 500 × 500 canvas. That cell is in the grid, and the pixel lies inside the cell's 25-pixel square. |
| Grid.CellAtInverse | index.tsx:111-114 | Every pixel inside a grid cell's square looks up that cell, so the lookup is exact, not just in range. |
| Grid.CellCenter | index.tsx:345-346 | The point where a cell's arrow is anchored lies inside that cell. |
| Grid.CellCenterRoundTrip | index.tsx:111-114 | Looking up the centre of a grid cell gives back that cell. |
| Grid.CanvasCorners | index.tsx:111-114 | Pixel (0, 0) is cell (0, 0). Pixel (500, 500) is off the grid. Pixel (499, 499) is cell (19, 19). |
| ScalarField.ChooseScalarScenario | index.tsx:152-188 | The first draw selects noise below 0.33, a gradient below 0.66, and a spot otherwise. The gradient is horizontal exactly when its draw is below 0.5. Its start is in [MIN, MIN + MAX/2) and its end is in [start, start + MAX/2). The spot is hot exactly when its draw is below 0.5, and its background is in [MIN, MIN + 0.3·(MAX − MIN)). |
| ScalarField.ScalarLabelIdentifiesVariant | index.tsx:156-184 | Two scalar scenarios show the same label (`ScalarLabel`: "Random Temperature Distribution", "Linear Temperature Gradient (Horizontal/Vertical)", "Central Hot/Cold Spot") if and only if they are the same kind with the same orientation, or with the same hot or cold type. |
| ScalarField.NoiseDrawIndex | index.tsx:157-161 | The noise draw of every grid cell lies within the draws one scalar generation consumes, after the scenario draw. |
| ScalarField.NoiseDrawsDistinct | index.tsx:157-161 | Two cells use the same noise draw if and only if they are the same cell. |
| ScalarField.NoiseTemperature | index.tsx:159 | Noise from a draw in [0, 1) lies in [MIN_TEMP, MAX_TEMP). |
| ScalarField.Clamp | index.tsx:178 | The clamp's result is in range. It keeps an in-range value unchanged and sends a value below or above the range to the nearer bound. |
| ScalarField.ClampMonotone | index.tsx:178 | The clamp preserves order. |
| ScalarField.Progress | index.tsx:171-175 | Progress along an axis lies in [0, 1]. It is 0 at the first index and 1 at the last, and it never divides by zero. |
| ScalarField.ProgressMonotone | index.tsx:171-175 | Progress grows with the index. |
| ScalarField.Interpolate | index.tsx:177-178 | The clamped interpolation is in range. |
| ScalarField.InterpolateMonotone | index.tsx:177-178 | With start ≤ end, a larger progress never gives a lower temperature. |
| ScalarField.GradientTemperature | index.tsx:169-178 | Every gradient cell is in [MIN_TEMP, MAX_TEMP]. |
| ScalarField.GradientAlongAxis | index.tsx:165-178 | With start ≤ end, temperatures never decrease along the gradient's axis. |
| ScalarField.GradientAcrossAxis | index.tsx:169-178 | Temperatures are constant across the gradient's axis. |
| ScalarField.GradientEndpoints | index.tsx:165-178 | For drawn start and end temperatures the clamp never bites: the first cell along the axis holds the start temperature and the last holds the end. |
| ScalarField.SpotInfluence | index.tsx:193-194 | Influence is in [0, 1] at real distances. It is 1 at the centre and 0 at or beyond the radius. |
| ScalarField.SpotTemperature | index.tsx:192-201 | Every spot cell is in [MIN_TEMP, MAX_TEMP], for any distance; the distance itself is `SpotDistance`, the square root of the squared integer offset from the centre cell (index.tsx:192). |
| ScalarField.SpotMonotone | index.tsx:192-201 | A hot spot cools, and a cold spot warms, with distance from the centre. |
| ScalarField.SpotCentreAndRim | index.tsx:187-201 | For drawn backgrounds, a cold centre equals the background and a hot centre is at least MIN + strength. Beyond the radius, a hot spot shows the background and a cold spot shows background + strength capped at MAX. |
| ScalarField.ScalarCell | index.tsx:157-201 | Every cell value of every scenario is in [MIN_TEMP, MAX_TEMP]. |
| WindField.ChooseVectorScenario | index.tsx:212-254 | The first draw selects uniform flow below 0.33, a vortex below 0.66, and radial flow otherwise. The vortex is the one labelled CCW (a +90° turn in the y-down canvas frame), and radial flow is converging, exactly when the second draw is below 0.5. Uniform flow's angle is in [0, 360) and its speed in [0.2, 0.7)·MAX. The radial centre is a grid cell. |
| WindField.VectorLabelIdentifiesVariant | index.tsx:216-252 | Two vector scenarios show the same label (`VectorLabel`: "Uniform Wind Flow", "Rotational Flow (CCW/CW)", "Converging/Diverging Wind Flow") if and only if they are the same kind with the same rotation sense, or the same converging or diverging kind. |
| WindField.WrapVortexAngle | index.tsx:240-242 | The wrap changes an angle by 0 or ±360, and brings every angle in [-360, 720) into [0, 360). |
| WindField.WrapRadialAngle | index.tsx:272 | The one-sided wrap changes an angle by 0 or +360, and brings every angle in [-360, 360) into [0, 360). |
| WindField.RadialWrapAgreesWithVortexWrap | index.tsx:240-272 | On atan2's range [-180, 180] the one-sided and two-sided wraps agree. |
| WindField.VortexMagnitude | index.tsx:244-245 | Vortex speed is at most MAX_WIND_SPEED, non-negative, and strictly positive beyond the calm distance. |
| WindField.VortexMagnitudeMonotone | index.tsx:244-245 | Vortex speed grows with distance. |
| WindField.RadialMagnitude | index.tsx:275-276 | Radial speed is in [0, MAX]. It is 0 at or beyond max(rows, cols) and in (0, 0.9·MAX] closer in. |
| WindField.RadialMagnitudeMonotone | index.tsx:275-276 | Radial speed falls with distance. |
| WindField.VortexSquaredDistance | index.tsx:228-234 | No cell is within squared distance 0.5 of the vortex centre, which lies between cells. |
| WindField.VortexCell | index.tsx:230-246 | Every vortex cell has a speed in [0, MAX] and an angle in [0, 360). |
| WindField.RadialSquaredDistance | index.tsx:258-260 | The squared distance is zero exactly at the flow's centre cell. |
| WindField.RadialCell | index.tsx:256-276 | Every converging or diverging cell has a speed in [0, MAX] and an angle in [0, 360). |
| WindField.VectorCell | index.tsx:214-277 | Every cell of every scenario holds a well-formed vector, and uniform flow gives every cell the same drawn vector. |
| WindField.VortexNeverCalm | index.tsx:234-238 | With an exact square root, the vortex's calm guard never fires and every vortex cell blows. |
| WindField.LabelledCounterClockwiseTurnsClockwiseOnScreen | index.tsx:226-242 | In the vortex labelled CCW, the rightmost cell (9, 19) of the row just above the centre points down the screen (angle in (0, 90)) and the leftmost cell (9, 0) of that row points up (angle in (270, 360)), so on the y-down canvas it turns clockwise. |
| WindField.RadialCalmExactlyAtCentre | index.tsx:258-264 | With an exact square root, the calm guard fires if and only if the cell is the flow's centre, which gets {0, 0}. |
| ColourMap.NormalizedTemperature | index.tsx:361 | The normalised value is in [0, 1]. It is 0 at or below MIN_TEMP and 1 at or above MAX_TEMP, and inside the range it is the exact fraction. |
| ColourMap.NormalizedMonotone | index.tsx:361 | Normalisation preserves order. |
| ColourMap.Segment | index.tsx:365-382 | The colour map has four segments, split at 0.25, 0.5 and 0.75; `TemperatureColor` branches on it. |
| ColourMap.TemperatureColor | index.tsx:359-387 | Every channel is an integer in [0, 255]. At or below MIN_TEMP the colour is (0, 0, 255) and at or above MAX_TEMP it is (255, 0, 0). |
| ColourMap.ColourStops | index.tsx:365-382 | The segment boundaries at 10, 20 and 30 degrees give cyan, green and yellow. |
| ColourMap.SegmentMonotone | index.tsx:365-382 | Within one quarter of the range exactly one channel varies, and it varies monotonically in its segment's direction. The other two channels stay fixed. |
| ColourMap.RedRisesBlueFalls | index.tsx:359-387 | Over the whole range red never decreases and blue never increases with temperature. |
| ColourMap.GreenFullInMiddle | index.tsx:370-380 | Green is 255 over the middle half of the range. |
| Arrows.ArrowLength | index.tsx:403-406 | At full speed the shaft is 0.4 of a cell. For speeds in [0, MAX] it lies in [0, 0.4·cell]. It is at least one pixel exactly when the speed is at least 2. |
| Arrows.LineWidth | index.tsx:413 | Line width is in [1, 3]. It is 3 at full speed and 1 up to a third of full speed. |
| Arrows.LineWidthMonotone | index.tsx:413 | Stronger wind never draws a thinner line. |
| Arrows.DrawArrow | index.tsx:397-435 | An arrow is produced exactly when the speed is at least 2 (shaft length ≥ 1 pixel). It starts at the given point and its width is in [1, 3]. |
| Arrows.OffsetDistance | index.tsx:408-409 | `Offset`, the point at a signed distance along a heading (the shaft's tip and, with distance −6, the head strokes' ends at index.tsx:425-432), lies at exactly that distance when the heading is a unit vector. |
| Arrows.ArrowProportions | index.tsx:408-433 | The shaft is exactly the arrow length long, and both head strokes are ARROW_HEAD_SIZE long. |
| Arrows.CellArrow | index.tsx:341-349 | A cell has an arrow exactly when it holds a vector of speed at least 2. The 0.01 test never decides anything on its own. The arrow starts at the cell's centre. |
| Arrows.ArrowTipInCell | index.tsx:403-409 | For speeds up to MAX_WIND_SPEED the arrow's tip stays inside its own cell. |
| Simulation.App.constructor | index.tsx:38-41 | Initially scalar mode, empty grids and an empty label. |
| Simulation.App.GenerateScalarFieldData | index.tsx:150-205 | The new scalar grid is a fresh 20 × 20 array, and each cell holds ScalarCell for the chosen scenario and the cell's own noise draw. The label is the scenario's. The vector grid and the field type are unchanged, and the all-in-range invariant is kept. |
| Simulation.App.ComputeScalarCell | index.tsx:157-201 | One inner-loop step writes ScalarCell's value, which lies in range. |
| Simulation.App.GenerateVectorFieldData | index.tsx:210-280 | The new vector grid is a fresh 20 × 20 array, and every cell holds Some(VectorCell) for the chosen scenario. The label is the scenario's. The scalar grid and the field type are unchanged, and the well-formed invariant is kept. |
| Simulation.App.ComputeVectorCell | index.tsx:219-277 | One inner-loop step, with the calm guard and the in-place wraps, gives VectorCell's vector, which is well-formed. |
| Simulation.App.GenerateAndDrawNewScenario | index.tsx:93-101 | Only the grid of the selected type is regenerated: it becomes a fresh 20 × 20 grid holding `ScalarCell` (or `Some(VectorCell)`) of the chosen scenario in every cell, and its label is shown. The other grid and the type are unchanged, and every held value stays in range. |
| Simulation.App.HandleFieldTypeChange | index.tsx:85-88 | Selecting a type sets it and regenerates the grid of that type as a fresh 20 × 20 grid holding the chosen scenario's cell values, with its label. The other type's grid is unchanged. |
| Simulation.App.HandleCanvasMouseMove | index.tsx:106-135 | Pixels off the grid show nothing. Every reading is in range and equals the hovered cell's stored value. Once a scalar grid exists in scalar mode, exactly the canvas pixels show a reading. In vector mode every present vector under the pointer is shown. |

## Left out

- DOM lookup, page set-up and listener registration are browser plumbing and
  are not modelled. The same goes for tooltip positioning and opacity and
  `handleCanvasMouseOut`, which only hides the tooltip.
- Canvas drawing is a rendering call, so `draw`, `drawScalarField` and the
  `ctx` calls of `drawVectorField` and `drawArrow` are not modelled. The model
  covers the numbers fed to them: `TemperatureColor`, `CellArrow` and
  `DrawArrow`.
- Building the CSS colour string and the `toFixed` tooltip text are string
  formatting and are not modelled. The model returns the `Rgb` triple and a
  `Reading`.
- `updateScenarioInfo` writes the label into the page. The model keeps the
  label in `currentScenarioName`.
- Floating point is not modelled: all arithmetic is on exact reals, so
  rounding at the gradient's ends or in `Math.floor` of a computed product
  is not captured.
- `Math.random`, `Math.sqrt`, `Math.atan2` and `Math.cos`/`Math.sin` are
  randomness and transcendental functions. They are parameters constrained
  by their ranges, not definitions.
- Simulation.App.GenerateScalarFieldData asks for 401 draws in every
  scenario, which is the most the noise scenario consumes. Shorter streams
  for the other scenarios are not modelled.
- Simulation.App.ComputeScalarCell writes the gradient's interpolation and
  clamp as one call to `Interpolate`, not as two assignments to the cell.
  The result is the same.
- Arrows.DrawArrow takes the heading function instead of converting degrees
  to radians: `heading(angle)` stands for `(cos, sin)` of the angle, and the
  head strokes use the angle ±30 degrees, i.e. ±π/6.
