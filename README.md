# Trajectory drawing surface: coordinate mapper, touch accumulator, trajectory views

This project models the core of an Android app for sketching flight
trajectories with a finger. A drag across the drawing canvas produces one
touch-move event per movement. Each event is converted from pixel space to
arena meter space and appended to a trajectory. The trajectory is then drawn
back onto the canvas as a polyline, together with sparse "spokes" towards a
point of interest (POI).

- Pixel space has its origin at the top-left of the canvas, with y growing downwards.
- Meter space has its origin at the centre of the canvas, with y growing upwards.
- The four affine maps between them depend on the arena's width and length
  in meters and the canvas's width and length in pixels.

Files and modules:

- `Geometry.dfy` (`Geometry`): pixel points, segments, path operations
  (`MoveTo`/`LineTo`), a drawing (a path plus extra segments), and `Polyline`,
  the path both views build.
- `AbstractCanvas.dfy` (`Canvas`): the `ArenaFrame` value and its four maps.
  Also the `AbstractCanvas` class, whose four extent fields change in place
  on a resize, and the background grid it draws.
- `Trajectories.dfy` (`Trajectories`): waypoints and the `Trajectory` object
  that handlers append to.
- `DrawingMoveTouchHandler.dfy` (`Controller`): the touch-move handler.
  `Replay` gives the point list after a run of handled events.
- `EntityTrajectoryView.dfy` (`EntityView`): the view that maps every
  waypoint to pixels and draws spokes at indices 5, 30, 55, …
- `EntitiyTrajectoryView.dfy` (`EntitiyView`): the view that draws the raw
  meter coordinates and nothing else. The package name's spelling is the
  source's.

Coordinates are reals, not floats. Every map divides by an extent, so all
four extents must be positive (`ArenaFrame.Valid`). The source never checks
this, so the model makes it a precondition. Methods that only draw have no
`modifies` clause, so Dafny checks that they change neither the trajectory
nor the canvas.

Spokes sample the waypoints at indices 5, 30, 55, …: the first at index 5,
then every 25th. They are not drawn at every fifth waypoint.

## Model

| member | source | states |
|---|---|---|
| `Geometry.Polyline` | app/src/main/java/utmg/android_interface/view/entityView/TrajectoryView.java:71-88 | the path has one op per vertex (none for no vertices); op k goes to vertex k; op 0 is the only `moveTo`, every later op is a `lineTo` |
| `Geometry.PolylineVertices` | app/src/main/java/utmg/android_interface/view/entitiyView/TrajectoryView.java:53-60 | the vertices of a polyline are exactly the vertices it was built from, in order |
| `Geometry.VerticesPolyline` | app/src/main/java/utmg/android_interface/view/entitiyView/TrajectoryView.java:53-60 | a path whose only `moveTo` is its first op is the polyline of its own vertices |
| `Geometry.PolylineSnoc` | app/src/main/java/utmg/android_interface/view/entityView/TrajectoryView.java:83-86 | one more vertex appends exactly one `lineTo` and leaves the earlier ops unchanged |
| `Canvas.ArenaFrame.ToPixelsX` | app/src/main/java/utmg/android_interface/view/canvas/AbstractCanvas.java:47-50 | the pixel x lies the same fraction of the canvas width from the left edge as the meter x lies across the arena from its left edge (−width/2) |
| `Canvas.ArenaFrame.ToPixelsY` | app/src/main/java/utmg/android_interface/view/canvas/AbstractCanvas.java:57-60 | the pixel y lies the same fraction of the canvas length from the top edge as the meter y lies below the arena's top edge (+length/2): the axis is flipped |
| `Canvas.ArenaFrame.ToMetersX` | app/src/main/java/utmg/android_interface/view/canvas/AbstractCanvas.java:67-70 | the meter x lies the same fraction across the arena from its left edge as the pixel x lies across the canvas |
| `Canvas.ArenaFrame.ToMetersY` | app/src/main/java/utmg/android_interface/view/canvas/AbstractCanvas.java:77-80 | the meter y lies the same fraction below the arena's top edge as the pixel y lies down the canvas |
| `Canvas.PixelsXRoundTrip` | app/src/main/java/utmg/android_interface/view/canvas/AbstractCanvas.java:67-70 | `toPixelsX(toMetersX(px)) == px` for every px |
| `Canvas.MetersXRoundTrip` | app/src/main/java/utmg/android_interface/view/canvas/AbstractCanvas.java:47-50 | `toMetersX(toPixelsX(x)) == x` for every x |
| `Canvas.PixelsYRoundTrip` | app/src/main/java/utmg/android_interface/view/canvas/AbstractCanvas.java:77-80 | `toPixelsY(toMetersY(py)) == py` for every py |
| `Canvas.MetersYRoundTrip` | app/src/main/java/utmg/android_interface/view/canvas/AbstractCanvas.java:57-60 | `toMetersY(toPixelsY(y)) == y` for every y |
| `Canvas.PointRoundTrip` | app/src/main/java/utmg/android_interface/view/canvas/AbstractCanvas.java:47-80 | the pixel→meter and meter→pixel point maps are inverse in both orders |
| `Canvas.OriginAtCentre` | app/src/main/java/utmg/android_interface/view/canvas/AbstractCanvas.java:47-60 | meter (0, 0) maps to the canvas centre (w/2, h/2), and the centre maps back to (0, 0) |
| `Canvas.EdgesX` | app/src/main/java/utmg/android_interface/view/canvas/AbstractCanvas.java:67-70 | pixel x 0 is arena x −width/2; pixel x canvasWidth is arena x +width/2 |
| `Canvas.EdgesY` | app/src/main/java/utmg/android_interface/view/canvas/AbstractCanvas.java:77-80 | pixel y 0 is arena y +length/2; pixel y canvasLength is arena y −length/2 (flipped axis) |
| `Canvas.PixelsXIncreasing` | app/src/main/java/utmg/android_interface/view/canvas/AbstractCanvas.java:47-50 | `a < b` iff `toPixelsX(a) < toPixelsX(b)`: strictly increasing |
| `Canvas.PixelsYDecreasing` | app/src/main/java/utmg/android_interface/view/canvas/AbstractCanvas.java:57-60 | `a < b` iff `toPixelsY(a) > toPixelsY(b)`: strictly decreasing |
| `Canvas.MetersXOutsideArena` | app/src/main/java/utmg/android_interface/view/canvas/AbstractCanvas.java:67-70 | a pixel x left/right of the canvas maps left/right of the arena, and only such a pixel x does: no clamping |
| `Canvas.MetersYOutsideArena` | app/src/main/java/utmg/android_interface/view/canvas/AbstractCanvas.java:77-80 | a pixel y above/below the canvas maps above/below the arena, and only such a pixel y does |
| `Canvas.SquareArenaExample` | app/src/main/java/utmg/android_interface/view/canvas/AbstractCanvas.java:67-80 | for a 2 m × 2 m arena on 1000 × 1000 px: x pixels 500, 0, 1000 map to 0, −1, 1 m; y pixel 0 maps to 1 m |
| `Canvas.GridCount` | app/src/main/java/utmg/android_interface/view/canvas/AbstractCanvas.java:145 | the count n satisfies n < extent/2 (or n = 0) and extent/2 ≤ n + 1: the number of loop passes |
| `Canvas.GridOffsetIff` | app/src/main/java/utmg/android_interface/view/canvas/AbstractCanvas.java:145-154 | offset i is among 1..GridCount(extent) iff 1 ≤ i and i < extent/2 |
| `Canvas.OriginLines` | app/src/main/java/utmg/android_interface/view/canvas/AbstractCanvas.java:123-137 | four bold lines: two full-width at y = canvasLength/2, then two full-height at x = canvasWidth/2 |
| `Canvas.HorizontalLine` | app/src/main/java/utmg/android_interface/view/canvas/AbstractCanvas.java:145-151 | a thin line, horizontal, from x = 0 to x = canvasWidth, at the pixel y whose meter image is offset i |
| `Canvas.VerticalLine` | app/src/main/java/utmg/android_interface/view/canvas/AbstractCanvas.java:154-160 | a thin line, vertical, from y = 0 to y = canvasLength, at the pixel x whose meter image is offset i |
| `Canvas.HorizontalLines` | app/src/main/java/utmg/android_interface/view/canvas/AbstractCanvas.java:144-151 | 2n thin lines, each horizontal and spanning the full canvas width |
| `Canvas.VerticalLines` | app/src/main/java/utmg/android_interface/view/canvas/AbstractCanvas.java:153-160 | 2n thin lines, each vertical and spanning the full canvas length |
| `Canvas.HorizontalLinesMember` | app/src/main/java/utmg/android_interface/view/canvas/AbstractCanvas.java:144-151 | the line at meter offset i is among the first n pairs iff 1 ≤ abs(i) ≤ n |
| `Canvas.VerticalLinesMember` | app/src/main/java/utmg/android_interface/view/canvas/AbstractCanvas.java:153-160 | the line at meter offset i is among the first n pairs iff 1 ≤ abs(i) ≤ n |
| `Canvas.HorizontalGridlineIff` | app/src/main/java/utmg/android_interface/view/canvas/AbstractCanvas.java:145-151 | a thin horizontal line at meter offset i is drawn iff 1 ≤ abs(i) < arenaLength/2 |
| `Canvas.VerticalGridlineIff` | app/src/main/java/utmg/android_interface/view/canvas/AbstractCanvas.java:154-160 | a thin vertical line at meter offset i is drawn iff 1 ≤ abs(i) < arenaWidth/2 |
| `Canvas.GridLines` | app/src/main/java/utmg/android_interface/view/canvas/AbstractCanvas.java:119-161 | 4 + 2·GridCount(arenaLength) + 2·GridCount(arenaWidth) lines: the first four bold, all later ones thin |
| `Canvas.AbstractCanvas.constructor` | app/src/main/java/utmg/android_interface/view/canvas/AbstractCanvas.java:30-40 | the canvas is 1000 × 1000 px; each arena extent is the stored value, or 1.0 m when none is stored |
| `Canvas.AbstractCanvas.OnSizeChanged` | app/src/main/java/utmg/android_interface/view/canvas/AbstractCanvas.java:90-105 | after a resize the canvas extents are the new width and height; the arena extents are unchanged |
| `Canvas.AbstractCanvas.DrawGridlines` | app/src/main/java/utmg/android_interface/view/canvas/AbstractCanvas.java:119-161 | the lines drawn are the origin lines, then the ±i horizontal pairs for i = 1..GridCount(arenaLength), then the ±i vertical pairs for i = 1..GridCount(arenaWidth) |
| `Canvas.AbstractCanvas.DrawHorizontalGridlines` | app/src/main/java/utmg/android_interface/view/canvas/AbstractCanvas.java:144-151 | the first loop draws, for i = 1, 2, … while i < arenaLength/2, the line at +i and then at −i, and nothing else |
| `Canvas.AbstractCanvas.DrawVerticalGridlines` | app/src/main/java/utmg/android_interface/view/canvas/AbstractCanvas.java:153-160 | the second loop draws, for i = 1, 2, … while i < arenaWidth/2, the line at +i and then at −i, and nothing else |
| `Trajectories.Trajectory.AddPoint` | app/src/main/java/utmg/android_interface/controller/canvas/DrawingMoveTouchHandler.java:31 | the new point list is the old list with the point appended; the altitude is unchanged |
| `Controller.DrawingMoveTouchHandler.constructor` | app/src/main/java/utmg/android_interface/controller/canvas/DrawingMoveTouchHandler.java:15-18 | the handler appends to the trajectory it was given |
| `Controller.DrawingMoveTouchHandler.Handle` | app/src/main/java/utmg/android_interface/controller/canvas/DrawingMoveTouchHandler.java:21-38 | the new point list is the old list plus exactly one last point (toMetersX(px), toMetersY(py), altitude at call time); the altitude is unchanged; the canvas is outside the frame and so unchanged |
| `Controller.TouchPoint` | app/src/main/java/utmg/android_interface/controller/canvas/DrawingMoveTouchHandler.java:27-31 | the new waypoint maps back to the touched pixel, carries the given altitude and has no time |
| `Controller.TouchPointMeaning` | app/src/main/java/utmg/android_interface/controller/canvas/DrawingMoveTouchHandler.java:27-31 | the appended point is the meter image of the touch and carries the given altitude; mapping it back to pixels gives the touch position |
| `Controller.TouchPointOutsideArena` | app/src/main/java/utmg/android_interface/controller/canvas/DrawingMoveTouchHandler.java:26-34 | the appended point lies in the arena iff the touch lies on the canvas; touches off the canvas are still appended |
| `Controller.ReplayAppendsInOrder` | app/src/main/java/utmg/android_interface/controller/canvas/DrawingMoveTouchHandler.java:31-33 | n events append exactly n points after the unchanged old ones; the k-th new point comes from the k-th touch |
| `Controller.ReplayStep` | app/src/main/java/utmg/android_interface/controller/canvas/DrawingMoveTouchHandler.java:21-38 | one more event extends the replay by that event's point, as `Handle` does |
| `Controller.RepeatedTouchIsNotDeduplicated` | app/src/main/java/utmg/android_interface/controller/canvas/DrawingMoveTouchHandler.java:31-33 | the same touch n times appends n equal points: no deduplication or tolerance |
| `EntityView.SpokeCount` | app/src/main/java/utmg/android_interface/view/entityView/TrajectoryView.java:49 | the count is 0 iff n ≤ 5; otherwise the last sampled index 5 + 25(c−1) is < n and the next one is ≥ n |
| `EntityView.SpokeIndexIff` | app/src/main/java/utmg/android_interface/view/entityView/TrajectoryView.java:49 | index i is sampled iff 5 ≤ i < n and i mod 25 = 5 |
| `EntityView.SpokeIndexExamples` | app/src/main/java/utmg/android_interface/view/entityView/TrajectoryView.java:49 | no spokes for n ≤ 5; indices [5, 30, 55] for n = 60 |
| `EntityView.MappedVertices` | app/src/main/java/utmg/android_interface/view/entityView/TrajectoryView.java:79-86 | one vertex per waypoint, in order; vertex k is the pixel point whose meter image is waypoint k's (x, y) |
| `EntityView.Spoke` | app/src/main/java/utmg/android_interface/view/entityView/TrajectoryView.java:51-56 | a spoke starts at its mapped waypoint; its end is equally far from that point and from the POI, in x and in y |
| `EntityView.Spokes` | app/src/main/java/utmg/android_interface/view/entityView/TrajectoryView.java:49-58 | one spoke per sampled index |
| `EntityView.SpokesStartOnPath` | app/src/main/java/utmg/android_interface/view/entityView/TrajectoryView.java:49-56 | the k-th spoke starts at the path vertex of the k-th sampled index |
| `EntityView.TrajectoryView.constructor` | app/src/main/java/utmg/android_interface/view/entityView/TrajectoryView.java:29-38 | the view keeps the given trajectory, POI and canvas |
| `EntityView.TrajectoryView.ComposePath` | app/src/main/java/utmg/android_interface/view/entityView/TrajectoryView.java:68-89 | the path is the polyline through (toPixelsX(p.x), toPixelsY(p.y)) of each waypoint, in order; it is empty for an empty trajectory |
| `EntityView.TrajectoryView.DrawSpokes` | app/src/main/java/utmg/android_interface/view/entityView/TrajectoryView.java:46-58 | the loop over i = 5, 30, 55, … below the number of waypoints draws exactly the spokes at the sampled indices, in index order |
| `EntityView.TrajectoryView.Draw` | app/src/main/java/utmg/android_interface/view/entityView/TrajectoryView.java:40-59 | draws the mapped polyline, then exactly the spokes at the sampled indices, in index order; it reads the trajectory and does not change it |
| `EntitiyView.RawVertices` | app/src/main/java/utmg/android_interface/view/entitiyView/TrajectoryView.java:52-60 | one vertex per waypoint, in order; vertex k has waypoint k's x and y, unmapped |
| `EntitiyView.RawPathIgnoresAltitudeAndTime` | app/src/main/java/utmg/android_interface/view/entitiyView/TrajectoryView.java:53-60 | trajectories with equal x and y everywhere give the same path, whatever their altitude and time |
| `EntitiyView.RawAndMappedPathsCorrespond` | app/src/main/java/utmg/android_interface/view/entitiyView/TrajectoryView.java:53-60 | this view's path has the same ops as the mapped view's; each mapped vertex is the pixel image of the raw one |
| `EntitiyView.TrajectoryView.constructor` | app/src/main/java/utmg/android_interface/view/entitiyView/TrajectoryView.java:27-34 | the view keeps the given trajectory and POI |
| `EntitiyView.TrajectoryView.ComposePath` | app/src/main/java/utmg/android_interface/view/entitiyView/TrajectoryView.java:42-63 | the path is the polyline through the raw (x, y) of each waypoint, in order, with no coordinate map; it is empty for an empty trajectory |
| `EntitiyView.TrajectoryView.Draw` | app/src/main/java/utmg/android_interface/view/entitiyView/TrajectoryView.java:36-40 | draws only that path: no segments, and the result does not depend on the POI; the trajectory is unchanged |

## Left out

- The Android `View`, `Bitmap`, `Canvas`, `Paint` and `Path` objects and `invalidate()` are not modelled. A drawn path is a sequence of `MoveTo`/`LineTo` operations. Drawn lines are segments in drawing order. Stroke widths survive only as the grid's two pens.
- `SharedPreferences` is not modelled. The stored arena extents are constructor parameters of type `Option<real>`, and `None` means "no stored value".
- Single-precision float rounding is not modelled. All coordinates are reals, so the round trips are exact here and hold only up to rounding in the app.
- Zero or negative extents are excluded by precondition. The source divides by them unchecked. It also never validates stored preference values.
- Canvas.AbstractCanvas.OnSizeChanged: requires positive new sizes. `Bitmap.createBitmap` throws for non-positive sizes, and that exception is not modelled.
- `onDraw` is not modelled beyond `DrawGridlines`. It only calls `drawGridlines`.
- The 32-bit `int` loop counters in `drawGridlines` and `draw` are unbounded integers in the model. Their overflow would need arenas or trajectories of about 2^31 units.
- The source files of `Trajectory`, `Point3`, `Point4` and `POI` are not part of this model. The model gives them stand-ins, as follows.
  - A trajectory is the `Trajectory` class: an object holding a point list and an altitude.
  - A waypoint is the `Waypoint` value: x, y, altitude and an optional time. Touch-appended points have no time.
  - The POI is a pixel-space point.
  - The core uses three of the trajectory's operations. `addPoint` is the method `AddPoint`. `getPoints()` and `getAltitude()` are reads of the `points` and `altitude` fields. Its other operations, such as `clear()` and external altitude changes, are not called by the core and are not modelled.
- `DrawingPointHandler.handle` is not modelled. Its whole body is commented out, so it does nothing.
- The host event loop that delivers touch-move events is not modelled. `Controller.Replay` states what a run of handled events appends.
