# A verified model of the jsCanvas3DRenderer point-cloud renderer

`assets/js/script.js` draws a cube of sample points on a 2D canvas. It generates
the cube once. Each animation frame then rotates the cube about X, Y and Z by
the current angles, advances the angles by their velocities and renders
the rotated copy. Every point is projected through a pinhole camera and mapped
to a canvas pixel; a point whose draw flag is set, one on the cube's surface,
is then stroked as a one-pixel diagonal at that pixel, and the 6859 interior
points are not stroked. Arrow keys and W/S move the camera; Q/E, A/D
and Z/C turn the angles.

This project models that logic in Dafny and proves:

- the calibration invariants;
- the closed forms of the projection and of the canvas map;
- that rotation is rigid and keeps each point's attributes;
- the shape and coloring of the generated cube;
- the effect of each key;
- the order of work in one frame.

Modules follow the pipeline:

- `Points`: the `Point3D`/`Point2D` records, and the filter of drawn points.
- `Viewport`: `calibrateViewport` as the function `Calibrate`; `translateToCanvas` as `ToCanvas`, together with its inverse `FromCanvas`.
- `Projection`: `projectPoint3Dto2D` as `Project`, plus the end-to-end pixel lemmas.
- `Rotation`: `rotatePointX/Y/Z`; `rotateModelX/Y/Z`, both as a value (`Rotated`) and as the loop that builds it (`RotateModel`); the X-Y-Z frame rotation.
- `Cube`: the grid `genCube` pushes, and the face coloring of each point.
- `Drawing`: what `renderPoint` and `render` stroke, as a log of draw commands.
- `Controls`: the `KEYS` table, the twelve handlers, `onKeyDown`, and the `THETA += DTHETA` update.
- `Script`: the class `Renderer`. Its fields are the script's globals (`CAMERA_POINT`, `THETA_*`, `DTHETA_*`, `VIEWPORT_*`, `model`) plus the canvas log. Its methods change those fields in place, like the script does. The constructor establishes the class invariant `Valid()`, and every method, the three genCube loop methods included, requires and ensures it. `Valid()` says that the sine/cosine function is lawful, the display size is positive and the viewport has a positive extent.

JavaScript numbers are modelled as reals. `STEP = 1000/20 = 50` is exact, so
genCube's counters are modelled by integer indices `Coord(k) = -500 + 50k`.
`Math.cos` and `Math.sin` are one function `sinCos` from an angle to a pair
`(c, s)`. It is a constructor parameter of `Renderer`, and all the model
assumes of it (`Lawful`) is `c^2 + s^2 == 1` and `sinCos(0) == (1, 0)`.

What the code does where a reader might expect otherwise:

- The rotation keys change the angles `THETA_*` directly. No handler changes `DTHETA_*`, which stay 0.
- The viewport is recalibrated only on resize, never when the camera moves. `OnKeyDown` leaves `viewport` alone: it is outside its `modifies` clause.
- Q turns by −0.005, while E, A, D, Z and C turn by ±0.01. `OppositeCancels` shows that Q and E therefore do not cancel.
- There is one generation policy. Every grid point is pushed, and strictly interior points get `draw = false`. The grid has 21 samples per axis, with step 1000/20.
- A point is stroked in its own color. No default color is used.

The projection is camera-relative, and `calibrateViewport` also centres the
bounds on the camera. As a result, a point straight ahead of the camera lands
`-at.x * width / 4000` pixels from the centre column, where `at` is the camera
position at the last calibration (`AxisPointPixel`, and likewise for rows). So
the picture is centred only while the viewport was calibrated with the camera
at x = y = 0, as it is at start-up.

## Model

| member | source | states |
|---|---|---|
| `Viewport.Calibrate` | assets/js/script.js:100-108 | X extent is exactly VIEWPORT_WIDTH; both X and Y bounds are centred on the camera; the Y extent times the width equals height times VIEWPORT_WIDTH; with a non-zero height, the pixels per unit agree on both axes; with a positive resolution, the bounds are well formed |
| `Viewport.CalibratedScale` | assets/js/script.js:104-107 | after calibration, one world unit spans width/4000 pixels on both axes, whatever the camera position |
| `Viewport.ToCanvas` | assets/js/script.js:160-165 | the pixel sits at the same fraction of the width as the point does of the viewport; Y is flipped; color and draw pass through |
| `Viewport.CanvasCorners` | assets/js/script.js:160-165 | minX→0 and maxX→width; minY→height and maxY→0 |
| `Viewport.CanvasRoundTrip` | assets/js/script.js:160-165 | ToCanvas and FromCanvas are inverse to each other |
| `Viewport.CanvasOrder` | assets/js/script.js:160-165 | on positive spans and a positive resolution, X order is kept and Y order reversed |
| `Projection.Project` | assets/js/script.js:153-158 | non-finite (None) exactly when the depth is 0; else projected offset × depth = focus × camera-relative offset; color and draw pass through |
| `Projection.ProjectOnAxis` | assets/js/script.js:153-158 | a point with the camera's x and y projects to (0, 0) |
| `Projection.ProjectCameraPlane` | assets/js/script.js:153-158 | points at the camera's depth project with magnification 1 |
| `Projection.ProjectAlongRay` | assets/js/script.js:153-158 | points on one ray through the eye project to the same place |
| `Projection.AxisPointPixel` | assets/js/script.js:153-165 | the pixel of an on-axis point under a viewport calibrated at any camera position |
| `Projection.OriginAtScreenCentre` | assets/js/script.js:153-165 | camera (0,0,-1000), 1920×1080, calibrated: the origin projects to (0,0) and lands at pixel (960, 540) |
| `Rotation.RotatePointX` | assets/js/script.js:175-181 | x kept, color and draw kept, identity at angle 0 |
| `Rotation.RotatePointY` | assets/js/script.js:167-173 | y kept, color and draw kept, identity at angle 0 |
| `Rotation.RotatePointZ` | assets/js/script.js:183-189 | z kept, color and draw kept, identity at angle 0 |
| `Rotation.RotateNorm` | assets/js/script.js:167-189 | with c²+s²=1, each axis rotation keeps x²+y²+z² and the attributes |
| `Rotation.RotateReverse` | assets/js/script.js:167-189 | rotating by θ and then by −θ about one axis returns the point |
| `Rotation.RotationOrderMatters` | assets/js/script.js:74-76 | X-then-Y and Y-then-X quarter turns send (0,1,0) to different points |
| `Rotation.Rotated` | assets/js/script.js:191-219 | the rotated model has the model's length |
| `Rotation.RotatedAt` | assets/js/script.js:191-219 | position i of the rotated model is point i rotated (order kept) |
| `Rotation.RotatedKeepsPoints` | assets/js/script.js:191-219 | same length; per position, the same color, draw flag and norm |
| `Rotation.RotatedByZero` | assets/js/script.js:191-219 | rotating a model by angle 0 returns it unchanged |
| `Rotation.RotatedReverse` | assets/js/script.js:191-219 | rotating a model by θ and then by −θ returns it |
| `Rotation.RotateModel` | assets/js/script.js:191-219 | the forEach/push loop returns exactly `Rotated` of its input |
| `Rotation.FrameRotation` | assets/js/script.js:74-76 | X, then Y, then Z applied to the model keeps its length; FrameRotationAtZero and FrameRotationRigid prove the rest |
| `Rotation.FrameRotationAtZero` | assets/js/script.js:74-76 | the X, Y, Z rotation at angles (0,0,0) is the identity |
| `Rotation.FrameRotationRigid` | assets/js/script.js:74-76 | the frame rotation keeps length, order, attributes and norms |
| `Cube.FacePrecedence` | assets/js/script.js:128-147 | a point takes the color of the first face it lies on, in test order z=-500, z=500, y=-500, y=500, x=-500, x=500, and is drawn |
| `Cube.OffFaces` | assets/js/script.js:128-147 | a point on no face is white and not drawn |
| `Cube.SamplePoint` | assets/js/script.js:128-147 | the pushed point keeps (x, y, z) and has a color; it is drawn iff one coordinate is ±500 |
| `Cube.SampleColors` | assets/js/script.js:128-147 | a drawn sample has one of the six face colors, an undrawn one is white |
| `Cube.GridPointDrawn` | assets/js/script.js:124-151 | a grid point is drawn iff some index is 0 or 20, i.e. it is not strictly interior |
| `Cube.Column` | assets/js/script.js:127-148 | n iterations of the z loop push n points; ColumnAt gives point k as GridPoint(i, j, k) |
| `Cube.Slab` | assets/js/script.js:126-149 | n iterations of the y loop push 21·n points; SlabAt puts GridPoint(i, j, k) at position 21j + k |
| `Cube.Grid` | assets/js/script.js:125-150 | n outer iterations push 441·n points |
| `Cube.CubeModel` | assets/js/script.js:124-151 | everything genCube pushes: 9261 points; CubeCovers, CubeAt, CubeDistinct and CubeDrawnCount give their order, contents and coloring |
| `Cube.CubeCovers` | assets/js/script.js:124-151 | 21³ points; grid point (i,j,k) sits at position 441i+21j+k, with x outermost |
| `Cube.CubeAt` | assets/js/script.js:124-151 | position n holds grid point (n/441, n%441/21, n%441%21), at coordinates Coord of those indices |
| `Cube.CubeDistinct` | assets/js/script.js:124-151 | no grid point is pushed twice |
| `Cube.CubeDrawnIffSurface` | assets/js/script.js:128-147 | a model point is drawn iff one of its coordinates is ±500 |
| `Cube.CubeDrawnCount` | assets/js/script.js:124-151 | 2402 of the 9261 points are drawn; the 19³ interior points are not |
| `Drawing.Offset` | assets/js/script.js:239 | the offset keeps the attributes and is the identity for (0,0,0) |
| `Drawing.PointCommand` | assets/js/script.js:221-235 | one command iff draw is set, in the point's color; non-finite iff the depth is 0; otherwise a segment from (x,y) to (x+1,y+1) |
| `Drawing.SegmentAtPixel` | assets/js/script.js:221-235 | the segment starts at ToCanvas(Project(p)) |
| `Drawing.Commands` | assets/js/script.js:237-242 | render strokes exactly one command per drawn point; CommandsOfDrawn gives their order and contents |
| `Drawing.CommandsAppend` | assets/js/script.js:237-242 | rendering in two runs gives the two logs one after the other |
| `Drawing.CommandsOfDrawn` | assets/js/script.js:237-242 | one command per drawn point, in model order, each being that point's command; every stroked point is a drawn point of the model |
| `Drawing.RenderAtOrigin` | assets/js/script.js:237-242 | at offset (0,0,0), the i-th command is the i-th drawn point's own stroke, in its color |
| `Controls.KeyAction` | assets/js/script.js:34-47 | a handler exactly for the twelve codes of KEYS |
| `Controls.KeysOneToOne` | assets/js/script.js:34-47 | every handler has exactly one key, and looking up that key gives it back |
| `Controls.HandleKey` | assets/js/script.js:62-69 | an unknown code changes nothing; a known code runs its handler |
| `Controls.Apply` | assets/js/script.js:244-290 | a handler changes either the camera or the angles, never both, and the angles stay put exactly for the six camera handlers; the camera keeps its color and draw flag; ApplyMovesOneNumber gives the single number moved and its Effect step |
| `Controls.Effect` | assets/js/script.js:244-290 | which number each handler moves (camera x, y, z, θx, θy, θz, two handlers each) and in which direction; camera handlers step by ±10; rotation handlers step by ±0.01, except rotateZMin, which alone steps by −0.005 |
| `Controls.ApplyMovesOneNumber` | assets/js/script.js:244-290 | each handler moves exactly one of camera x/y/z, θx/θy/θz, by its Effect step; nothing else changes |
| `Controls.OppositeCancels` | assets/js/script.js:244-290 | opposite keys cancel, except that Q, E leaves θz 0.005 further on |
| `Controls.RepeatGoRight` | assets/js/script.js:288-290 | n goRight calls add exactly 10n to camera.x and change nothing else |
| `Controls.TenRightFromZero` | assets/js/script.js:288-290 | ten goRight calls take camera.x from 0 to 100 |
| `Controls.Advance` | assets/js/script.js:78-80 | each angle moves by exactly its velocity; zero velocities leave the angles unchanged |
| `Controls.AdvanceFramesLinear` | assets/js/script.js:78-80 | after n frames, each angle has moved by n times its velocity |
| `Controls.StillAtZeroVelocity` | assets/js/script.js:78-80 | with zero velocities, the angles are unchanged after any number of frames |
| `Script.Renderer.constructor` | assets/js/script.js:3-28 | the initial globals: camera (0,0,-1000), bounds ±2000, 1920×1080, angles and velocities 0, empty model |
| `Script.Renderer.CalibrateViewport` | assets/js/script.js:100-108 | bounds become Calibrate(camera, resolution); only the bounds change |
| `Script.Renderer.Resize` | assets/js/script.js:87-98 | stores the new resolution, then recalibrates |
| `Script.Renderer.GenCube` | assets/js/script.js:124-151 | the three nested loops append exactly CubeModel() to the model |
| `Script.Renderer.PushSlabs` | assets/js/script.js:125-150 | n iterations of the x loop append exactly Grid(n), the first n slabs in x order |
| `Script.Renderer.PushSlab` | assets/js/script.js:126-149 | the y loop for one x sample appends exactly that slab's 21 columns in y order |
| `Script.Renderer.PushColumn` | assets/js/script.js:127-148 | the z loop for one x and y sample appends exactly that column's 21 colored points in z order |
| `Script.Renderer.Perform` | assets/js/script.js:244-290 | the handler's effect on camera and angles is Apply; nothing else changes |
| `Script.Renderer.OnKeyDown` | assets/js/script.js:62-69 | the state becomes HandleKey(code, state); viewport, model, log and velocities are untouched |
| `Script.Renderer.RenderPoint` | assets/js/script.js:221-235 | appends PointCommand of the point to the log |
| `Script.Renderer.Render` | assets/js/script.js:237-242 | appends the commands of all offset points, in order |
| `Script.Renderer.Frame` | assets/js/script.js:71-85 | rotates by the current angles (X then Y then Z) and then adds the velocities; logs the rotated model at offset (0,0,0); at angles 0 it logs the model itself; it logs one stroke per drawn model point |

## Left out

- DOM and canvas plumbing: `init`, the DOM half of `resize` (`clientWidth`/`clientHeight`, canvas size), event listeners, `beginPath/moveTo/lineTo/stroke` (modelled only as the draw-command log, with `lineWidth` always 1), `clearRect`. `clearRect` affects only the canvas; it passes world bounds as pixel sizes.
- `requestAnimationFrame` and the endless frame loop: `Frame` is one step. `AdvanceFrames` covers repeated steps for the angles.
- `console.log` and the `try/catch` mechanism: the dispatch is a lookup that returns an optional handler.
- JavaScript property lookup on `KEYS` also finds inherited names (`toString`, `constructor`, …). Calling those throws or returns without touching the renderer's state, so the model treats them as unknown codes.
- IEEE floating-point rounding, Infinity and NaN. A zero-depth projection is `None`, and it is logged as `NonFiniteSegment`, which the canvas ignores.
- `Math.sin`/`Math.cos`: only the unit-circle identity and the values at 0 are assumed. There is no periodicity and no angle addition.
- Resize: a zero-sized display is not modelled; the width and height must be positive. In JavaScript a zero width makes the Y bounds non-finite (the pixel scale is 0 at line 104), and a zero height with a positive width collapses the Y bounds onto the camera's y, so translateToCanvas then divides 0 by 0 at line 162.
- Calibrate: requires a non-zero width. With width 0 the source divides by a zero pixel scale.
- ToCanvas: requires non-zero viewport spans. The class invariant keeps them positive.
