# Map Builder road renderer, modelled in Dafny

Map Builder is a small pygame tool. The user clicks control points onto a
terrain map, and the tool joins them into cubic Bezier road segments. The
flat click list is cut into segments of four points, starting at indices
0, 3, 6, and so on. Consecutive segments share a joint point.

Each segment is sampled at `t = k / granularity`. At every sample the tool
computes these things:
- the curve point and its tangent;
- the unit normal `(-T.y, T.x)`;
- a 15-pixel normal spoke on each side;
- a 10-pixel border band beyond each spoke.

The live view draws these in fixed colours over the panned and zoomed
window. The export pass works differently:
- It shades the spokes with the mean brightness of the terrain around the
  curve point, taken over a 61 x 61 window.
- It draws each border band as a gradient from the road colour into the map
  colour read at the band's far end.

This project models that core as pure functions over exact reals and
integers, with loops where the program loops. The modules are:

- `Geometry`:
  - vectors and integer points;
  - `Trunc`, Python's `int()` on a float, which truncates toward zero;
  - the quarter-turn `LeftNormal`.
- `Bezier`:
  - `cubic_bezier` and its first and second derivatives;
  - a De Casteljau reference and a power-basis reference;
  - the sample parameters `t = k / gran`.
- `Terrain`:
  - the heightmap;
  - `average_neighborhood_height` as a nested-loop method, proved equal to
    a recursive reference sum.
- `Gradient`:
  - `lerp_color`;
  - `draw_gradient_line` as a loop that produces the sequence of pixel
    writes.
- `Segments`:
  - the stride-3 partition `range(0, n - 3, 3)` shared by both renderers.
- `Render`:
  - the per-sample frame (normal spoke and border reach);
  - the export pass and the live-view pass, as sequences of draw calls or
    the exception that stops them;
  - whole-curve and whole-map renders. The live view has two versions: as
    written, where every sample also normalises the unused second
    derivative, and corrected, without that normalisation (see Findings).

Two modelling choices matter throughout:
- `Vector2.normalize()` is a square root. The model does not compute it. A
  caller supplies a normaliser instead: a function that gives each non-zero
  vector a length and a unit direction, with `d == len * unit`.
  `PolarUnique` shows that this pins the result down. The zero vector has no
  such pair, and there the program raises. The model represents that as the
  `ZeroTangent` or `ZeroSecondDerivative` outcome.
- Each exception the program can raise is an outcome of the model, not a
  precondition. `normalize()` of a zero vector and `get_at` outside the image
  both stop the render. The first failing sample's exception is the result.

The program has no fallback for a zero tangent: `normalize()` raises there,
and the model does the same.

## Model

| member | source | states |
|---|---|---|
| `Geometry.Trunc` | main.py:92-95 | `int()` on a float lands within 1 of its argument, on the same side of zero, and never further from zero than the argument |
| `Geometry.TruncOfInt` | main.py:65 | `int()` of an integer-valued coordinate returns it unchanged, so the export's `int(p[0])` on a click is the click itself |
| `Geometry.TruncBetween` | main.py:160-161 | a truncated value stays inside any integer interval that holds its argument |
| `Geometry.TruncMonotone` | main.py:149 | truncation preserves order |
| `Geometry.TruncShift` | main.py:168 | on the non-negative side, adding an integer offset before `int()` equals adding it after |
| `Geometry.TruncShiftAcrossZero` | main.py:168 | across zero the two differ: -0.5 then +1 truncates to 0, not 1 |
| `Geometry.TruncSpread` | main.py:95-110 | two values at most an integer w apart truncate to integers at most w apart |
| `Geometry.LeftNormal` | main.py:73 | `(-T.y, T.x)` is perpendicular to T, has T's squared length, and lies on T's positive-cross side |
| `Geometry.LeftNormalUnique` | main.py:181 | for a non-zero T, those facts determine the rotated vector uniquely |
| `Geometry.LeftNormalTwice` | main.py:181 | two quarter-turns reverse a vector and four restore it |
| `Geometry.LeftNormalScale` | main.py:78-79 | scaling before or after the quarter-turn gives the same vector |
| `Bezier.Position` | main.py:28-40 | the curve value is p0 at t = 0 and p3 at t = 1 |
| `Bezier.Derivative` | main.py:44-48 | the tangent is 3(p1 - p0) at t = 0 and 3(p3 - p2) at t = 1, and zero when all four points coincide |
| `Bezier.SecondDerivative` | main.py:50-58 | P'' is 6(p2 - 2p1 + p0) at t = 0 and 6(p3 - 2p2 + p1) at t = 1, and zero when all four points coincide |
| `Bezier.DeCasteljauAgrees` | main.py:28-40 | on one coordinate, the expanded Bernstein form equals De Casteljau's three rounds of linear interpolation |
| `Bezier.PositionIsDeCasteljau` | main.py:28-40 | the evaluated point is De Casteljau's point |
| `Bezier.PowerBasisAt` | main.py:28-58 | the three evaluators are a cubic a t^3 + b t^2 + c t + d and exactly its first and second derivatives |
| `Bezier.TranslationInvarianceAt` | main.py:28-58 | on one coordinate, shifting all control values by o shifts the value by o and leaves both derivatives unchanged |
| `Bezier.TranslationInvariance` | main.py:28-58 | moving all four control points by o moves the curve point by o and changes neither derivative |
| `Bezier.ConstantSegment` | main.py:28-48 | four coincident control points give that point at every t, with a zero tangent |
| `Bezier.SampleTime` | main.py:67-68 | `t = k / gran` lies in [0, 1], is 0 only at k = 0 and 1 only at k = gran, and t * gran = k |
| `Bezier.SampleTimesIncrease` | main.py:170-174 | successive samples have strictly increasing t |
| `Bezier.SampleEndpoints` | main.py:67-70 | the first sample is p0 with tangent 3(p1 - p0); the last is p3 with tangent 3(p3 - p2) |
| `Terrain.Brightness` | main.py:138 | a pixel's brightness lies in [0, 255] |
| `Terrain.AverageBrightness` | main.py:129-142 | the mean over the window's in-bounds pixels (0 when there are none) lies in [0, 255] |
| `Terrain.AverageNeighborhoodHeight` | main.py:129-142 | the nested loops compute exactly the sum and count of the in-bounds window pixels. The result is their mean, or 0 with no division when there are none, and lies in [0, 255] |
| `Terrain.ColumnBounds` | main.py:134-140 | a partial column sum lies between 0 and 255 times its count |
| `Terrain.WindowBounds` | main.py:133-140 | a partial window sum lies between 0 and 255 times its count |
| `Terrain.ColumnCountClosed` | main.py:134-136 | the pixels counted in a column are its overlap with [0, height) |
| `Terrain.WindowCountClosed` | main.py:133-136 | the pixels counted so far are the visited columns' overlap with the image |
| `Terrain.SampleCount` | main.py:133-140 | the count is exactly the size of the window's overlap with [0, width) x [0, height) |
| `Terrain.FullWindowCount` | main.py:133-136 | a window wholly inside the image samples all (2r + 1)^2 pixels |
| `Terrain.EmptyWindow` | main.py:142 | a window wholly outside the image samples nothing, and the average is 0 |
| `Terrain.ColumnUniform` | main.py:137-139 | when every in-bounds window pixel has brightness beta, a column sums to beta once per counted pixel |
| `Terrain.WindowUniform` | main.py:137-140 | in a uniform window, the total is beta once per counted pixel |
| `Terrain.UniformAverage` | main.py:136-142 | in a uniform window with at least one in-bounds pixel, the average is exactly beta |
| `Gradient.LerpColor` | main.py:147-149 | the colour has the shorter input's channel count (zip); for t in [0, 1] each channel lies between the two ends; at t = 0 it is the start colour |
| `Gradient.GradientLine` | main.py:155-157 | the line writes exactly max(abs dx, abs dy) pixels, and none exactly when start equals end |
| `Gradient.DrawGradientLine` | main.py:151-162 | the loop's writes are, in order, the pixels of the reference `GradientLine` |
| `Gradient.LerpChannelBetween` | main.py:149 | for t in [0, 1] an interpolated channel lies between its two ends |
| `Gradient.LerpColorBetween` | main.py:149 | for t in [0, 1] every interpolated channel lies between its two ends |
| `Gradient.StepParameter` | main.py:157-158 | the step parameter `i / distance` lies in [0, 1) |
| `Gradient.FirstPixel` | main.py:157-162 | the first write is the start point in the start colour |
| `Gradient.PixelBounds` | main.py:157-162 | every write lies in the two ends' bounding box, with every channel between the two colours |
| `Gradient.UnitStep` | main.py:158-161 | along an axis of extent d, step i moves exactly i pixels |
| `Gradient.DominantAxisX` | main.py:156-161 | when x is the dominant axis, write i is at s.x plus or minus i and never at e.x |
| `Gradient.DominantAxisY` | main.py:156-161 | when y is the dominant axis, write i is at s.y plus or minus i and never at e.y |
| `Gradient.LerpChannelBelowEnd` | main.py:149 | a rising, non-negative channel at t < 1 truncates strictly below its end |
| `Gradient.RisingChannelStaysBelowEnd` | main.py:149-159 | a rising channel never reaches the end colour on any write |
| `Gradient.FallingChannelCanReachEnd` | main.py:149-159 | a falling channel can reach the end colour: from 10 toward 0 over 20 steps, step 19 is 0 |
| `Gradient.LerpChannelMonotone` | main.py:149 | a rising channel's value is monotone in t |
| `Gradient.RisingChannelMonotone` | main.py:157-159 | a rising channel never decreases from one write to the next |
| `Gradient.BlackToWhite` | main.py:151-162 | ten pixels from (0,0) to (10,0), black to white: the first is black at (0,0) and the last is (229,229,229) at (9,0) |
| `Segments.SegmentsOf` | main.py:121-122 | with n clicks there are (n - 1) div 3 segments (none below 4), and every index used is below n |
| `Segments.Partition` | main.py:121-123 | the `range(0, n - 3, 3)` loop collects exactly the reference segments, segment k starting at index 3k |
| `Segments.SharedJoint` | main.py:383-384 | segment k's last point is segment k + 1's first |
| `Segments.UsedIndices` | main.py:121 | with at least 4 clicks, the last used index 3m leaves 0, 1 or 2 clicks unused |
| `Segments.CoveredIndices` | main.py:383-384 | a click is part of some segment exactly when there are at least 4 clicks and its index is at most 3m |
| `Segments.SmallNetworks` | main.py:121-122 | 3 clicks give no segment, 4 or 6 give one, and 7 give two sharing the fourth click |
| `Render.PolarLength` | main.py:72 | the normaliser's length squares to the vector's squared norm |
| `Render.PolarUnique` | main.py:72 | a vector has exactly one length-and-direction pair, so the normaliser is `normalize()` |
| `Render.FrameAt` | main.py:78-79 | the border reach is (15 + 10) / 15 times the normal spoke |
| `Render.FrameGeometry` | main.py:72-79 | both offsets are perpendicular to the tangent, lie a counter-clockwise quarter-turn from it in x-right/y-up terms (to the right of the direction of travel in pygame's y-down pixels), and have lengths exactly 15 and 25 |
| `Render.SampleFrame` | main.py:67-79 | at each sample, the frame is centred on the curve point, with a normal of length 15 perpendicular to the tangent and the border reach 25/15 of it |
| `Render.PixelOf` | main.py:92-96 | `(int(x), int(y))` lies within one pixel of the exact point on each axis, and on the non-negative side never past it |
| `Render.SpokesOf` | main.py:92-110 | the five pixel ends (curve point, both normal ends, both border ends) each lie within one pixel of the exact point they stand for |
| `Render.SpokeLengths` | main.py:92-110 | after truncation, each normal spoke spans at most 15 pixels per axis and each border band at most 10 |
| `Render.SequenceDrawn` | main.py:121-123 | a render loop completes exactly when none of its passes raises |
| `Render.SequenceFirstFault` | main.py:67-113 | a loop that raises reports its first failing pass's exception, every earlier pass having drawn |
| `Render.RoadGray` | main.py:82-85 | the terrain road colour is an opaque gray with channels in [0, 255] |
| `Render.ExportStep` | main.py:67-113 | a zero tangent raises; otherwise the pass draws exactly when both border ends lie inside the image, and then makes between 2 and 22 draw calls |
| `Render.ExportCurve` | main.py:67-113 | `export_draw_bezier_curve` completes exactly when every one of its samples does |
| `Render.ExportMap` | main.py:117-126 | `export_map_image` completes exactly when every segment of the partition does |
| `Render.ExportColorsValid` | main.py:84-113 | every colour the export passes to pygame has channels in [0, 255] |
| `Render.GradientColorsValid` | main.py:147-162 | a gradient between two valid colours writes only valid colours |
| `Render.ViewStep` | main.py:170-223 | the corrected live-view pass, without the unused second-derivative normalisation, draws exactly when the tangent is non-zero, making five draw calls starting with the blue dot at the curve point |
| `Render.ViewStepAsWritten` | main.py:178-191 | as written, a live-view pass draws only when both the tangent and the second derivative are non-zero |
| `Render.ViewCurve` | main.py:170-223 | the corrected live view draws a whole curve exactly when no sample's tangent is zero |
| `Render.ViewCurveAsWritten` | main.py:170-191 | as written, the live view draws a whole curve exactly when no sample's tangent and no sample's second derivative is zero |
| `Render.ViewMap` | main.py:381-385 | the main loop's corrected curve pass draws exactly when every segment of the partition does |
| `Render.ViewMapAsWritten` | main.py:381-385 | as written, the main loop's curve pass draws exactly when every segment's as-written curve does |
| `Render.AsWrittenFault` | main.py:180-191 | on a curve whose tangent never vanishes, the program's live view stops with the second-derivative exception whenever one sample's second derivative is zero |
| `Render.ViewCurveAgrees` | main.py:170-223 | wherever the program draws a whole curve, the corrected view draws the same calls |
| `Render.RepeatedStartRaises` | main.py:70-72 | a segment whose first two clicks coincide raises the zero-tangent exception at its first sample in the export, in the program's live view and in the corrected view |
| `Render.RepeatedEndRaises` | main.py:177-180 | a segment whose last two clicks coincide cannot complete in the export, in the program's live view or in the corrected view |
| `Render.FewPointsDrawNothing` | main.py:383-385 | with fewer than four clicks neither the export nor either live view draws a curve |
| `Render.ScaledPoint` | main.py:168 | `int(p * zoom + offset)` lies within one pixel of the scaled and shifted click, and at zoom 1 is exactly the click shifted by the offset |
| `Render.ZoomOneIsTranslation` | main.py:168 | at zoom 1, the view's scaled points are the export's points shifted by the integer offset |
| `Render.TranslatedFrame` | main.py:168-189 | shifting a segment shifts each sample's centre and keeps its tangent, normal and border reach |
| `Render.ViewSpokesAreShiftedExport` | main.py:207-222 | at zoom 1 and at non-negative coordinates, the view's spoke pixels are the export's shifted by the offset |
| `Render.ViewStepAgrees` | main.py:186-191 | dropping the unused second-derivative normalisation changes nothing wherever the original draws |
| `Render.SCurveAtHalf` | main.py:44-58 | the S-curve (0,0), (0,10), (8,0), (8,10) has tangent (12, 0) and a zero second derivative at t = 0.5 |
| `Render.InflectionRaises` | main.py:178-191 | on that S-curve, sample 600 of 1200 raises as written but draws without the unused normalisation |
| `Render.SCurveTangent` | main.py:44-49 | the S-curve's tangent is non-zero at every t |
| `Render.SCurveView` | main.py:170-191 | the program's live view stops on the whole S-curve with the second-derivative exception, while the corrected view draws all of it |
| `Render.FirstSampleFault` | main.py:180-191 | a curve with a non-zero tangent but a zero second derivative at t = 0 stops the program's live view at its first sample |
| `Render.StraightRoadFlat` | main.py:44-58 | four evenly spaced collinear clicks have tangent (3, 0) and a zero second derivative at every t |
| `Render.StraightRoadView` | main.py:170-191 | on such a straight road the program's live view stops at the first sample with the second-derivative exception, while the corrected view draws all of it |

## Left out

- The pygame window, the event loop, key handling, and the global pan and
  zoom state (main.py:5-16, main.py:286-380, main.py:386-395) are input and
  output glue.
  `zoom` and `offset` are parameters here.
- `zoom_image` rescales `map_image` with `pygame.transform.scale`. That is
  image resampling. The export's terrain is whatever image it is given.
- `get_pixel_coordinates` (main.py:264-277) is left out. It prints and
  divides the click by the zoom. Click locations are taken as given
  integer points.
- `click_locations.pop()` on an empty list (main.py:336) is list glue.
- The yellow circles at the click locations (main.py:373-379) are UI
  decoration, not road rendering.
- `draw_second_derivative_curves` (main.py:230-260) is never called.
- Saving images and the progress `print` (main.py:124-126, main.py:279-283)
  are file and console output.
- Copying the map image onto the export surface (`Export_Map.blit`,
  main.py:119) is pixel copying. The export's draw calls are recorded on
  top of whatever that copy holds.
- IEEE-754 rounding is not modelled. All curve arithmetic is over exact
  reals, so the model is of the formulas and not of float error.
- The square root inside `normalize()` is supplied as a normaliser
  parameter. Unit length up to rounding is not modelled.
- pygame's line and circle rasterisation is not modelled. A draw call is
  recorded by its end points and colour.
- Draws made before an exception are dropped from the outcome. In the
  export, the image is then never saved. In the live view, the exception
  ends the program.
- `export_draw_bezier_curve` with `heightmap=None` would fail at `get_at`
  (main.py:106). Its only caller passes the map image, so the model always
  takes a heightmap.
- A granularity of 0 would divide by zero at `t /= curve_granularity`. The
  curve renders require a positive granularity. Both callers pass 1200 or
  5000.

## Findings

| source | as written | input that shows it | evidently intended | confidence | as-written member | corrected member |
|---|---|---|---|---|---|---|
| main.py:191 | `draw_bezier_curve` normalises the second derivative on every sample. The resulting line is never drawn, because main.py:227 is commented out | clicks (0,0), (0,10), (8,0), (8,10) at zoom 1. At sample 600 of 1200 (t = 0.5) the tangent is (12, 0) but the second derivative is (0, 0), so `normalize()` raises and the live view stops (`Render.InflectionRaises`, and for the whole curve `Render.SCurveView`). Simpler still, any straight road of evenly spaced clicks such as (0,0), (1,0), (2,0), (3,0) stops at sample 0 (`Render.StraightRoadView`) | the normalisation is dropped and the whole S-curve draws. A curve then fails only on a zero tangent (`Render.ViewCurve`, `Render.ViewCurveAgrees`, `Render.ViewStepAgrees`) | not executed; the values involved are small integers and halves | `Render.ViewCurveAsWritten` | `Render.ViewCurve` |
