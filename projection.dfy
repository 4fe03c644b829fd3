/** The pinhole projection (projectPoint3Dto2D) and the whole point pipeline
    from world coordinates to a canvas pixel. */
module Projection {
  import opened Wrappers
  import opened Points
  import opened Viewport

  /** The distance from the eye to the image plane. */
  const FOCUS_POINT: real := 2000.0

  /** The denominator of the perspective divide: the depth of p in front of
      the eye, which sits FOCUS_POINT behind the camera. */
  function Depth(p: Point3D, camera: Point3D): real {
    FOCUS_POINT + p.z - camera.z
  }

  /** projectPoint3Dto2D. At zero depth the JavaScript divide yields
      Infinity or NaN; that non-finite result is `None` here. Otherwise the
      projected offset, scaled by depth / focus, is the camera-relative
      offset of the point. */
  function Project(p: Point3D, camera: Point3D): (r: Option<Point2D>)
    ensures r.None? <==> Depth(p, camera) == 0.0
    ensures r.Some? ==> r.value.color == p.color && r.value.draw == p.draw
    ensures r.Some? ==>
              r.value.x * Depth(p, camera) == FOCUS_POINT * (p.x - camera.x) &&
              r.value.y * Depth(p, camera) == FOCUS_POINT * (p.y - camera.y)
  {
    var d := FOCUS_POINT + p.z - camera.z;
    if d == 0.0 then None
    else Some(Point2D(FOCUS_POINT * (p.x - camera.x) / d, FOCUS_POINT * (p.y - camera.y) / d, p.color, p.draw))
  }

  /** A point straight ahead of (or behind) the camera projects to the centre
      of projected space. */
  lemma ProjectOnAxis(p: Point3D, camera: Point3D)
    requires p.x == camera.x && p.y == camera.y && Depth(p, camera) != 0.0
    ensures Project(p, camera) == Some(Point2D(0.0, 0.0, p.color, p.draw))
  {
  }

  /** In the plane of the camera (p.z == camera.z) the projection has unit
      magnification. */
  lemma ProjectCameraPlane(p: Point3D, camera: Point3D)
    requires p.z == camera.z
    ensures Project(p, camera) == Some(Point2D(p.x - camera.x, p.y - camera.y, p.color, p.draw))
  {
    assert Depth(p, camera) == FOCUS_POINT;
    assert FOCUS_POINT * (p.x - camera.x) / FOCUS_POINT == p.x - camera.x;
    assert FOCUS_POINT * (p.y - camera.y) / FOCUS_POINT == p.y - camera.y;
  }

  /** The pinhole property: all points on one ray through the eye project to
      the same place. q is p scaled about the eye by t. */
  lemma ProjectAlongRay(p: Point3D, q: Point3D, camera: Point3D, t: real)
    requires t != 0.0 && Depth(p, camera) != 0.0
    requires q.x - camera.x == t * (p.x - camera.x)
    requires q.y - camera.y == t * (p.y - camera.y)
    requires Depth(q, camera) == t * Depth(p, camera)
    ensures Project(q, camera).Some? && Project(p, camera).Some?
    ensures Project(q, camera).value.x == Project(p, camera).value.x
    ensures Project(q, camera).value.y == Project(p, camera).value.y
  {
    var d := Depth(p, camera);
    var rp, rq := Project(p, camera).value, Project(q, camera).value;
    assert rq.x * (t * d) == FOCUS_POINT * t * (p.x - camera.x);
    assert t * (rq.x * d) == t * (rp.x * d);
    assert rq.y * (t * d) == FOCUS_POINT * t * (p.y - camera.y);
    assert t * (rq.y * d) == t * (rp.y * d);
  }

  /** The pixel of a point straight ahead of the camera, when the viewport
      was calibrated with the camera at `at`: the bounds and the projection
      are both camera-relative, so the point sits at the centre of the canvas
      shifted by the calibration position times the pixel scale. */
  lemma AxisPointPixel(p: Point3D, camera: Point3D, at: Point3D, res: Resolution)
    requires Positive(res)
    requires p.x == camera.x && p.y == camera.y && Depth(p, camera) != 0.0
    ensures var q := ToCanvas(Project(p, camera).value, Calibrate(at, res), res);
      q.x == res.width / 2.0 - at.x * res.width / VIEWPORT_WIDTH &&
      q.y == res.height / 2.0 + at.y * res.width / VIEWPORT_WIDTH
  {
    ProjectOnAxis(p, camera);
    var b := Calibrate(at, res);
    var q := ToCanvas(Project(p, camera).value, b, res);
    assert q.x * VIEWPORT_WIDTH == (VIEWPORT_WIDTH / 2.0 - at.x) * res.width;
    var h := b.maxY - b.minY;
    assert (res.height - q.y) * h == (0.0 - b.minY) * res.height;
    assert b.minY == at.y - h / 2.0;
    assert h * res.width == res.height * VIEWPORT_WIDTH;
    assert (res.height - q.y) * h == (h / 2.0 - at.y) * res.height;
    assert (res.height / 2.0 - q.y) * h == - at.y * res.height;
    assert (res.height / 2.0 - q.y) * h * res.width == - at.y * res.height * res.width;
    assert (res.height / 2.0 - q.y) * res.height * VIEWPORT_WIDTH == - at.y * res.height * res.width;
  }

  /** The renderer's start-up picture: with the initial camera (0, 0, -1000)
      and a 1920 x 1080 canvas, the world origin is drawn at pixel (960, 540). */
  lemma OriginAtScreenCentre(color: Option<Color>, draw: bool)
    ensures var camera := Point3D(0.0, 0.0, -1000.0, None, false);
      var res := Resolution(1920.0, 1080.0);
      var p := Project(Point3D(0.0, 0.0, 0.0, color, draw), camera);
      p == Some(Point2D(0.0, 0.0, color, draw)) &&
      ToCanvas(p.value, Calibrate(camera, res), res) == Point2D(960.0, 540.0, color, draw)
  {
    var camera := Point3D(0.0, 0.0, -1000.0, None, false);
    AxisPointPixel(Point3D(0.0, 0.0, 0.0, color, draw), camera, camera, Resolution(1920.0, 1080.0));
  }
}
