/** The visible world rectangle and the map from projected world space to
    canvas pixels (calibrateViewport and translateToCanvas). */
module Viewport {
  import opened Wrappers
  import opened Points

  /** The fixed world-space width of the visible rectangle. */
  const VIEWPORT_WIDTH: real := 4000.0

  /** VIEWPORT_MIN_X .. VIEWPORT_MAX_Y. */
  datatype Bounds = Bounds(minX: real, maxX: real, minY: real, maxY: real)

  /** VIEWPORT_RESOLUTION_WIDTH and VIEWPORT_RESOLUTION_HEIGHT, in pixels. */
  datatype Resolution = Resolution(width: real, height: real)

  /** The bounds before the first calibration. */
  const INITIAL_BOUNDS := Bounds(-2000.0, 2000.0, -2000.0, 2000.0)
  const INITIAL_RESOLUTION := Resolution(1920.0, 1080.0)

  /** Both extents are positive, so the canvas map divides by non-zero spans. */
  predicate WellFormed(b: Bounds) {
    b.minX < b.maxX && b.minY < b.maxY
  }

  predicate Positive(res: Resolution) {
    res.width > 0.0 && res.height > 0.0
  }

  /** calibrateViewport: the rectangle of world width VIEWPORT_WIDTH centred
      on the camera, whose height follows from keeping the X pixel scale. */
  function Calibrate(camera: Point3D, res: Resolution): (b: Bounds)
    requires res.width != 0.0
    ensures b.maxX - b.minX == VIEWPORT_WIDTH
    ensures b.minX + b.maxX == 2.0 * camera.x && b.minY + b.maxY == 2.0 * camera.y
    ensures (b.maxY - b.minY) * res.width == res.height * VIEWPORT_WIDTH
    ensures res.height != 0.0 ==>
              b.maxY != b.minY &&
              res.width / (b.maxX - b.minX) == res.height / (b.maxY - b.minY)
    ensures Positive(res) ==> WellFormed(b)
  {
    var minX := camera.x - VIEWPORT_WIDTH / 2.0;
    var maxX := camera.x + VIEWPORT_WIDTH / 2.0;
    var pxl := res.width / (maxX - minX);
    var b := Bounds(minX, maxX, camera.y - (res.height / pxl) / 2.0, camera.y + (res.height / pxl) / 2.0);
    assert b.maxY - b.minY == res.height / pxl;
    assert (b.maxY - b.minY) * pxl == res.height;
    b
  }

  /** One axis of the canvas map: the offset of v from m, as a fraction of
      the span w, times r pixels. */
  function Scale(v: real, m: real, w: real, r: real): real
    requires w != 0.0
  {
    (v - m) * r / w
  }

  /** The inverse of Scale. */
  function Unscale(u: real, m: real, w: real, r: real): real
    requires r != 0.0
  {
    m + u * w / r
  }

  lemma ScaleRoundTrip(v: real, u: real, m: real, w: real, r: real)
    requires w != 0.0 && r != 0.0
    ensures Unscale(Scale(v, m, w, r), m, w, r) == v
    ensures Scale(Unscale(u, m, w, r), m, w, r) == u
  {
    var t := (v - m) * r / w;
    assert t * w == (v - m) * r;
    assert t * w / r == v - m;
    var f := u * w / r;
    assert f * r == u * w;
    assert f * r / w == u;
  }

  /** translateToCanvas: the projected point at the same fraction of the
      pixel width as of the world width, and with Y flipped. */
  function ToCanvas(p: Point2D, b: Bounds, res: Resolution): (r: Point2D)
    requires b.maxX != b.minX && b.maxY != b.minY
    ensures r.color == p.color && r.draw == p.draw
    ensures r.x * (b.maxX - b.minX) == (p.x - b.minX) * res.width
    ensures (res.height - r.y) * (b.maxY - b.minY) == (p.y - b.minY) * res.height
  {
    var px := Scale(p.x, b.minX, b.maxX - b.minX, res.width);
    var py := res.height - Scale(p.y, b.minY, b.maxY - b.minY, res.height);
    Point2D(px, py, p.color, p.draw)
  }

  /** The inverse of ToCanvas: the world point under a pixel. */
  function FromCanvas(q: Point2D, b: Bounds, res: Resolution): Point2D
    requires res.width != 0.0 && res.height != 0.0
  {
    Point2D(Unscale(q.x, b.minX, b.maxX - b.minX, res.width),
            Unscale(res.height - q.y, b.minY, b.maxY - b.minY, res.height),
            q.color, q.draw)
  }

  /** The corners of the viewport land on the corners of the canvas; the
      Y axis is flipped (minY is the bottom row, maxY the top). */
  lemma CanvasCorners(b: Bounds, res: Resolution, c: Option<Color>, d: bool)
    requires b.maxX != b.minX && b.maxY != b.minY
    ensures ToCanvas(Point2D(b.minX, b.minY, c, d), b, res) == Point2D(0.0, res.height, c, d)
    ensures ToCanvas(Point2D(b.maxX, b.maxY, c, d), b, res) == Point2D(res.width, 0.0, c, d)
    ensures ToCanvas(Point2D(b.minX, b.maxY, c, d), b, res) == Point2D(0.0, 0.0, c, d)
    ensures ToCanvas(Point2D(b.maxX, b.minY, c, d), b, res) == Point2D(res.width, res.height, c, d)
  {
  }

  /** ToCanvas and FromCanvas undo each other, so the canvas map loses nothing. */
  lemma CanvasRoundTrip(p: Point2D, b: Bounds, res: Resolution)
    requires b.maxX != b.minX && b.maxY != b.minY
    requires res.width != 0.0 && res.height != 0.0
    ensures FromCanvas(ToCanvas(p, b, res), b, res) == p
    ensures ToCanvas(FromCanvas(p, b, res), b, res) == p
  {
    var w, h := b.maxX - b.minX, b.maxY - b.minY;
    ScaleRoundTrip(p.x, p.x, b.minX, w, res.width);
    ScaleRoundTrip(p.y, res.height - p.y, b.minY, h, res.height);
  }

  /** On well-formed bounds and a positive resolution, the map keeps the
      order of X and reverses the order of Y. */
  lemma CanvasOrder(p: Point2D, q: Point2D, b: Bounds, res: Resolution)
    requires WellFormed(b) && Positive(res)
    ensures p.x < q.x <==> ToCanvas(p, b, res).x < ToCanvas(q, b, res).x
    ensures p.y < q.y <==> ToCanvas(p, b, res).y > ToCanvas(q, b, res).y
  {
    var w, h := b.maxX - b.minX, b.maxY - b.minY;
    var tp, tq := ToCanvas(p, b, res), ToCanvas(q, b, res);
    assert (tq.x - tp.x) * w == (q.x - p.x) * res.width;
    assert (tp.y - tq.y) * h == (q.y - p.y) * res.height;
  }

  /** The pixel scale of a calibrated viewport does not depend on the camera
      position, and one world unit spans width / VIEWPORT_WIDTH pixels on both
      axes. */
  lemma CalibratedScale(camera: Point3D, res: Resolution, p: Point2D, q: Point2D)
    requires Positive(res)
    ensures var b := Calibrate(camera, res);
      var tp, tq := ToCanvas(p, b, res), ToCanvas(q, b, res);
      (tq.x - tp.x) * VIEWPORT_WIDTH == (q.x - p.x) * res.width &&
      (tp.y - tq.y) * VIEWPORT_WIDTH == (q.y - p.y) * res.width
  {
    var b := Calibrate(camera, res);
    var tp, tq := ToCanvas(p, b, res), ToCanvas(q, b, res);
    var h := b.maxY - b.minY;
    assert (tp.y - tq.y) * h == (q.y - p.y) * res.height;
    assert h * res.width == res.height * VIEWPORT_WIDTH;
    calc {
      (tp.y - tq.y) * VIEWPORT_WIDTH * res.height;
      (tp.y - tq.y) * h * res.width;
      (q.y - p.y) * res.height * res.width;
    }
  }
}
