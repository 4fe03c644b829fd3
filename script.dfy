/** The renderer's process-wide state and the operations that change it in
    place: viewport calibration, model generation, the key handlers and one
    animation frame. The canvas is the `log` of draw commands. */
module Script {
  import opened Wrappers
  import opened Points
  import opened Viewport
  import opened Projection
  import opened Rotation
  import opened Cube
  import opened Drawing
  import opened Controls

  class Renderer {
    /** Math.cos and Math.sin of an angle. */
    const sinCos: real -> SinCos

    /** CAMERA_POINT; its color is null and its draw flag undefined. */
    var camera: Point3D
    /** THETA_X, THETA_Y, THETA_Z. */
    var theta: Angles
    /** DTHETA_X, DTHETA_Y, DTHETA_Z. */
    var dtheta: Angles
    /** VIEWPORT_MIN_X .. VIEWPORT_MAX_Y. */
    var viewport: Bounds
    /** VIEWPORT_RESOLUTION_WIDTH, VIEWPORT_RESOLUTION_HEIGHT. */
    var resolution: Resolution
    /** model. */
    var model: seq<Point3D>
    /** Every stroke issued on the canvas so far. */
    var log: seq<DrawCmd>

    /** The class invariant: the sine/cosine function is lawful, the display
      has a positive size and the viewport a positive extent. */
    ghost predicate Valid()
      reads this`resolution, this`viewport
    {
      Lawful(sinCos) && Positive(resolution) && WellFormed(viewport)
    }

    /** The part of the state the key handlers change. */
    function ControlPart(): ControlState
      reads this
    {
      ControlState(camera, theta)
    }

    /** The initial values of the script's globals. */
    constructor (sinCos: real -> SinCos)
      requires Lawful(sinCos)
      ensures Valid() && this.sinCos == sinCos
      ensures camera == Point3D(0.0, 0.0, -1000.0, None, false)
      ensures theta == NO_ANGLES && dtheta == NO_ANGLES
      ensures viewport == INITIAL_BOUNDS && resolution == INITIAL_RESOLUTION
      ensures model == [] && log == []
    {
      this.sinCos := sinCos;
      camera := Point3D(0.0, 0.0, -1000.0, None, false);
      theta, dtheta := NO_ANGLES, NO_ANGLES;
      viewport := INITIAL_BOUNDS;
      resolution := INITIAL_RESOLUTION;
      model, log := [], [];
    }

    /** calibrateViewport. */
    method CalibrateViewport()
      requires Valid()
      modifies this`viewport
      ensures Valid()
      ensures viewport == Calibrate(camera, resolution)
      ensures viewport.maxX - viewport.minX == VIEWPORT_WIDTH
      ensures resolution.width / (viewport.maxX - viewport.minX) == resolution.height / (viewport.maxY - viewport.minY)
    {
      var minX := camera.x - VIEWPORT_WIDTH / 2.0;
      var maxX := camera.x + VIEWPORT_WIDTH / 2.0;
      var pxl := resolution.width / (maxX - minX);
      var minY := camera.y - (resolution.height / pxl) / 2.0;
      var maxY := camera.y + (resolution.height / pxl) / 2.0;
      viewport := Bounds(minX, maxX, minY, maxY);
    }

    /** The non-DOM part of resize: take the new canvas size, then
      recalibrate. */
    method Resize(width: real, height: real)
      requires Valid()
      requires width > 0.0 && height > 0.0
      modifies this`resolution, this`viewport
      ensures Valid()
      ensures resolution == Resolution(width, height)
      ensures viewport == Calibrate(camera, resolution)
    {
      resolution := Resolution(width, height);
      CalibrateViewport();
    }

    /** genCube: three nested counting loops pushing every grid point, x
      outermost. The loops are the methods PushSlabs, PushSlab and
      PushColumn. */
    method GenCube()
      requires Valid()
      modifies this`model
      ensures Valid()
      ensures model == old(model) + CubeModel()
    {
      PushSlabs(SAMPLES);
    }

    /** The x loop of genCube, run over its first n samples. */
    method PushSlabs(n: int)
      requires Valid()
      requires 0 <= n
      modifies this`model
      ensures Valid()
      ensures model == old(model) + Grid(n)
    {
      var i := 0;
      while i < n
        invariant 0 <= i <= n
        invariant model == old(model) + Grid(i)
      {
        PushSlab(i);
        assert Grid(i + 1) == Grid(i) + Slab(i, SAMPLES);
        AppendAssoc(old(model), Grid(i), Slab(i, SAMPLES));
        i := i + 1;
      }
    }

    /** The y loop of genCube for the x sample i. */
    method PushSlab(i: int)
      requires Valid()
      modifies this`model
      ensures Valid()
      ensures model == old(model) + Slab(i, SAMPLES)
    {
      var j := 0;
      while j < SAMPLES
        invariant 0 <= j <= SAMPLES
        invariant model == old(model) + Slab(i, j)
      {
        PushColumn(i, j);
        AppendAssoc(old(model), Slab(i, j), Column(i, j, SAMPLES));
        assert Slab(i, j + 1) == Slab(i, j) + Column(i, j, SAMPLES);
        j := j + 1;
      }
    }

    /** The z loop of genCube for the x and y samples i and j. */
    method PushColumn(i: int, j: int)
      requires Valid()
      modifies this`model
      ensures Valid()
      ensures model == old(model) + Column(i, j, SAMPLES)
    {
      var k := 0;
      while k < SAMPLES
        invariant 0 <= k <= SAMPLES
        invariant model == old(model) + Column(i, j, k)
      {
        var x, y, z := Coord(i), Coord(j), Coord(k);
        model := model + [SamplePoint(x, y, z)];
        assert Column(i, j, k + 1) == Column(i, j, k) + [GridPoint(i, j, k)];
        k := k + 1;
      }
    }

    /** The handlers goForward .. goRight: one field moved by its step. */
    method Perform(a: Action)
      requires Valid()
      modifies this`camera, this`theta
      ensures Valid()
      ensures ControlPart() == Apply(a, old(ControlPart()))
    {
      match a
      case GoForward => camera := camera.(z := camera.z + CAMERA_STEP);
      case GoBackwards => camera := camera.(z := camera.z - CAMERA_STEP);
      case RotateZMin => theta := theta.(z := theta.z - ANGLE_STEP_Z_MIN);
      case RotateZPlus => theta := theta.(z := theta.z + ANGLE_STEP);
      case RotateYMin => theta := theta.(y := theta.y - ANGLE_STEP);
      case RotateYPlus => theta := theta.(y := theta.y + ANGLE_STEP);
      case RotateXMin => theta := theta.(x := theta.x - ANGLE_STEP);
      case RotateXPlus => theta := theta.(x := theta.x + ANGLE_STEP);
      case GoUp => camera := camera.(y := camera.y + CAMERA_STEP);
      case GoDown => camera := camera.(y := camera.y - CAMERA_STEP);
      case GoLeft => camera := camera.(x := camera.x - CAMERA_STEP);
      case GoRight => camera := camera.(x := camera.x + CAMERA_STEP);
    }

    /** onKeyDown: the handler of a known code runs; an unknown code changes
      nothing. The viewport is not recalibrated either way. */
    method OnKeyDown(code: string)
      requires Valid()
      modifies this`camera, this`theta
      ensures Valid()
      ensures ControlPart() == HandleKey(code, old(ControlPart()))
    {
      var action := KeyAction(code);
      if action.Some? {
        Perform(action.value);
      }
    }

    /** renderPoint. */
    method RenderPoint(p: Point3D)
      requires Valid()
      modifies this`log
      ensures Valid()
      ensures log == old(log) + PointCommand(p, camera, viewport, resolution)
    {
      var projected := Project(p, camera);
      if p.draw {
        match projected
        case None =>
          log := log + [NonFiniteSegment(p.color)];
        case Some(q) =>
          var translated := ToCanvas(q, viewport, resolution);
          log := log + [Segment(translated.x, translated.y, translated.x + 1.0, translated.y + 1.0, p.color)];
          SegmentAtPixel(p, camera, viewport, resolution);
      }
    }

    /** render: every point moved by the offset, then renderPoint, in
      model order. */
    method Render(points: seq<Point3D>, offset: Point3D)
      requires Valid()
      modifies this`log
      ensures Valid()
      ensures log == old(log) + Commands(points, offset, camera, viewport, resolution)
    {
      var i := 0;
      while i < |points|
        invariant 0 <= i <= |points|
        invariant log == old(log) + Commands(points[..i], offset, camera, viewport, resolution)
      {
        assert points[..i + 1][..i] == points[..i];
        RenderPoint(Offset(points[i], offset));
        i := i + 1;
      }
      assert points[..i] == points;
    }

    /** frame: rotate the model about X, Y and Z by the current angles, then
      advance the angles, then render the rotated copy at the origin. The
      model itself is never changed. */
    method Frame()
      requires Valid()
      modifies this`theta, this`log
      ensures Valid()
      ensures theta == Advance(old(theta), dtheta)
      ensures log == old(log) + Commands(
        FrameRotation(model, sinCos(old(theta).x), sinCos(old(theta).y), sinCos(old(theta).z)),
        ORIGIN, camera, viewport, resolution)
      ensures old(theta) == NO_ANGLES ==>
        log == old(log) + Commands(model, ORIGIN, camera, viewport, resolution)
      ensures |log| == |old(log)| + |Drawn(model)|
    {
      var rotated := RotateModel(X, model, sinCos(theta.x));
      rotated := RotateModel(Y, rotated, sinCos(theta.y));
      rotated := RotateModel(Z, rotated, sinCos(theta.z));

      if theta == NO_ANGLES {
        FrameRotationAtZero(model);
      }
      FrameRotationRigid(model, sinCos(theta.x), sinCos(theta.y), sinCos(theta.z));
      DrawnSameFlags(rotated, model);
      CommandsOfDrawn(rotated, ORIGIN, camera, viewport, resolution);

      theta := Advance(theta, dtheta);

      Render(rotated, ORIGIN);
    }
  }
}
