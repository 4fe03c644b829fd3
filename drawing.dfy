/** What render and renderPoint put on the canvas, as a log of draw
    commands: one short diagonal stroke per drawn point. */
module Drawing {
  import opened Wrappers
  import opened Points
  import opened Viewport
  import opened Projection

  /** One renderPoint stroke: beginPath, moveTo(x0, y0), lineTo(x1, y1),
      lineWidth 1, strokeStyle color, stroke. A point at zero depth gives
      non-finite coordinates, which the canvas ignores; that stroke is
      logged as NonFiniteSegment. */
  datatype DrawCmd =
    | Segment(x0: real, y0: real, x1: real, y1: real, color: Option<Color>)
    | NonFiniteSegment(color: Option<Color>)

  /** The offset render is called with by every frame. */
  const ORIGIN := Point3D(0.0, 0.0, 0.0, None, false)

  /** The per-point translation in render. */
  function Offset(p: Point3D, o: Point3D): (r: Point3D)
    ensures SameLook(r, p)
    ensures o.x == 0.0 && o.y == 0.0 && o.z == 0.0 ==> r == p
    ensures r.x - p.x == o.x && r.y - p.y == o.y && r.z - p.z == o.z
  {
    Point3D(p.x + o.x, p.y + o.y, p.z + o.z, p.color, p.draw)
  }

  /** What renderPoint strokes for p: nothing for a point that is not
      drawn, else one segment of one pixel diagonal, in the point's color,
      starting at the canvas pixel of its projection. */
  function PointCommand(p: Point3D, camera: Point3D, b: Bounds, res: Resolution): (r: seq<DrawCmd>)
    requires b.maxX != b.minX && b.maxY != b.minY
    ensures |r| == if p.draw then 1 else 0
    ensures p.draw ==> r[0].color == p.color
    ensures p.draw ==> (r[0].NonFiniteSegment? <==> Depth(p, camera) == 0.0)
    ensures p.draw && r[0].Segment? ==> r[0].x1 == r[0].x0 + 1.0 && r[0].y1 == r[0].y0 + 1.0
  {
    var projected := Project(p, camera);
    if !p.draw then []
    else match projected
      case None => [NonFiniteSegment(p.color)]
      case Some(q) =>
        var t := ToCanvas(q, b, res);
        [Segment(t.x, t.y, t.x + 1.0, t.y + 1.0, p.color)]
  }

  /** The segment of a drawn point starts at the pixel the projection and
      the canvas map give it. */
  lemma SegmentAtPixel(p: Point3D, camera: Point3D, b: Bounds, res: Resolution)
    requires b.maxX != b.minX && b.maxY != b.minY
    requires p.draw && Depth(p, camera) != 0.0
    ensures var t := ToCanvas(Project(p, camera).value, b, res);
      PointCommand(p, camera, b, res) == [Segment(t.x, t.y, t.x + 1.0, t.y + 1.0, p.color)]
  {
  }

  /** Everything render(points, o) strokes, in the order of the points. */
  function Commands(ps: seq<Point3D>, o: Point3D, camera: Point3D, b: Bounds, res: Resolution): (r: seq<DrawCmd>)
    requires b.maxX != b.minX && b.maxY != b.minY
    ensures |r| == |Drawn(ps)|
    decreases |ps|
  {
    if ps == [] then []
    else Commands(ps[..|ps| - 1], o, camera, b, res) + PointCommand(Offset(ps[|ps| - 1], o), camera, b, res)
  }

  /** render is a homomorphism: rendering two runs of points one after the
      other strokes the two logs one after the other. */
  lemma {:induction false} CommandsAppend(a: seq<Point3D>, c: seq<Point3D>, o: Point3D, camera: Point3D, b: Bounds, res: Resolution)
    requires b.maxX != b.minX && b.maxY != b.minY
    ensures Commands(a + c, o, camera, b, res) == Commands(a, o, camera, b, res) + Commands(c, o, camera, b, res)
    decreases |c|
  {
    if c == [] {
      assert a + c == a;
    } else {
      var c' := c[..|c| - 1];
      assert (a + c)[..|a + c| - 1] == a + c';
      CommandsAppend(a, c', o, camera, b, res);
    }
  }

  /** render strokes exactly one command per drawn point, in model order,
      each the command of that point alone, and every stroked point is a
      point of the model. */
  lemma {:induction false} CommandsOfDrawn(ps: seq<Point3D>, o: Point3D, camera: Point3D, b: Bounds, res: Resolution)
    requires b.maxX != b.minX && b.maxY != b.minY
    ensures |Commands(ps, o, camera, b, res)| == |Drawn(ps)|
    ensures forall i :: 0 <= i < |Drawn(ps)| ==>
      Commands(ps, o, camera, b, res)[i] == PointCommand(Offset(Drawn(ps)[i], o), camera, b, res)[0]
    ensures forall i :: 0 <= i < |Drawn(ps)| ==> Drawn(ps)[i] in ps && Drawn(ps)[i].draw
    decreases |ps|
  {
    DrawnFromModel(ps);
    if ps != [] {
      CommandsOfDrawn(ps[..|ps| - 1], o, camera, b, res);
    }
  }

  /** With the ORIGIN offset a frame uses, the i-th command is the stroke
      of the i-th drawn point itself, in that point's color. */
  lemma RenderAtOrigin(ps: seq<Point3D>, camera: Point3D, b: Bounds, res: Resolution, i: int)
    requires b.maxX != b.minX && b.maxY != b.minY
    requires 0 <= i < |Drawn(ps)|
    ensures |Commands(ps, ORIGIN, camera, b, res)| == |Drawn(ps)|
    ensures Commands(ps, ORIGIN, camera, b, res)[i] == PointCommand(Drawn(ps)[i], camera, b, res)[0]
    ensures Commands(ps, ORIGIN, camera, b, res)[i].color == Drawn(ps)[i].color
  {
    CommandsOfDrawn(ps, ORIGIN, camera, b, res);
  }
}
