/** The point cloud genCube builds: the 21 x 21 x 21 grid over [-500, 500]^3,
    each point colored by the first cube face it lies on, interior points
    kept but not drawn. */
module Cube {
  import opened Wrappers
  import opened Points

  /** Samples per axis. */
  const SAMPLES: int := 21

  /** STEP = 1000 / (21 - 1) = 50, exact in floating point, so the loop
      counter `x += STEP` visits exactly -500, -450, ..., 500. */
  const STEP: real := 1000.0 / (21.0 - 1.0)

  /** The value of the loop counter on its k-th iteration. */
  function Coord(k: int): real {
    -500.0 + k as real * STEP
  }

  /** The face colors, in the order the faces are tested. */
  const FACE_COLORS: seq<Color> := ["#ff0000", "#ffaa00", "#22aa22", "#0000ff", "#ffef00", "#ff00ff"]
  const INTERIOR_COLOR: Color := "#ffffff"

  /** The body of the innermost loop: the point pushed for (x, y, z). It
      keeps its coordinates, has a color, and is drawn exactly when it lies
      on the cube's surface. */
  function SamplePoint(x: real, y: real, z: real): (r: Point3D)
    ensures r.x == x && r.y == y && r.z == z
    ensures r.draw <==> x == -500.0 || x == 500.0 || y == -500.0 || y == 500.0 || z == -500.0 || z == 500.0
    ensures r.color.Some?
  {
    if z == -500.0 then Point3D(x, y, z, Some("#ff0000"), true)
    else if z == 500.0 then Point3D(x, y, z, Some("#ffaa00"), true)
    else if y == -500.0 then Point3D(x, y, z, Some("#22aa22"), true)
    else if y == 500.0 then Point3D(x, y, z, Some("#0000ff"), true)
    else if x == -500.0 then Point3D(x, y, z, Some("#ffef00"), true)
    else if x == 500.0 then Point3D(x, y, z, Some("#ff00ff"), true)
    else Point3D(x, y, z, Some(INTERIOR_COLOR), false)
  }

  /** A drawn sample has one of the six face colors, an undrawn one the
      interior color. */
  lemma SampleColors(x: real, y: real, z: real)
    ensures var r := SamplePoint(x, y, z);
      (r.draw ==> r.color.value in FACE_COLORS) && (!r.draw ==> r.color.value == INTERIOR_COLOR)
  {
  }

  /** The point pushed on iteration (i, j, k) of the three loops. */
  function GridPoint(i: int, j: int, k: int): Point3D {
    SamplePoint(Coord(i), Coord(j), Coord(k))
  }

  /** The six faces in the order genCube tests them: z = -500, z = 500,
      y = -500, y = 500, x = -500, x = 500. */
  predicate OnFace(f: int, x: real, y: real, z: real)
    requires 0 <= f < 6
  {
    [z == -500.0, z == 500.0, y == -500.0, y == 500.0, x == -500.0, x == 500.0][f]
  }

  /** Face precedence: a point on several faces (an edge or a corner) takes
      the color of the first face in test order; a point on no face is
      white and not drawn. */
  lemma FacePrecedence(x: real, y: real, z: real, f: int)
    requires 0 <= f < 6 && OnFace(f, x, y, z)
    requires forall g :: 0 <= g < f ==> !OnFace(g, x, y, z)
    ensures SamplePoint(x, y, z) == Point3D(x, y, z, Some(FACE_COLORS[f]), true)
  {
    if f > 0 { assert !OnFace(0, x, y, z); }
    if f > 1 { assert !OnFace(1, x, y, z); }
    if f > 2 { assert !OnFace(2, x, y, z); }
    if f > 3 { assert !OnFace(3, x, y, z); }
    if f > 4 { assert !OnFace(4, x, y, z); }
  }

  lemma OffFaces(x: real, y: real, z: real)
    requires forall f :: 0 <= f < 6 ==> !OnFace(f, x, y, z)
    ensures SamplePoint(x, y, z) == Point3D(x, y, z, Some(INTERIOR_COLOR), false)
  {
    assert !OnFace(0, x, y, z) && !OnFace(1, x, y, z) && !OnFace(2, x, y, z);
    assert !OnFace(3, x, y, z) && !OnFace(4, x, y, z) && !OnFace(5, x, y, z);
  }

  /** On the grid, a point is drawn exactly when one of its indices is the
      first or the last, i.e. exactly when it is not strictly interior. */
  lemma GridPointDrawn(i: int, j: int, k: int)
    requires 0 <= i < SAMPLES && 0 <= j < SAMPLES && 0 <= k < SAMPLES
    ensures GridPoint(i, j, k).draw <==> !(0 < i < 20 && 0 < j < 20 && 0 < k < 20)
    ensures GridPoint(i, j, k).x == Coord(i) && GridPoint(i, j, k).y == Coord(j) && GridPoint(i, j, k).z == Coord(k)
  {
    CoordAtEnds(i);
    CoordAtEnds(j);
    CoordAtEnds(k);
  }

  lemma CoordAtEnds(k: int)
    ensures Coord(k) == -500.0 <==> k == 0
    ensures Coord(k) == 500.0 <==> k == 20
  {
    assert STEP == 50.0;
  }

  /** The samples are distinct: different iterations give different values. */
  lemma CoordInjective(k: int, l: int)
    ensures Coord(k) == Coord(l) <==> k == l
  {
    assert STEP == 50.0;
  }

  /** The innermost loop after n iterations: z runs over its first n samples. */
  function Column(i: int, j: int, n: int): (r: seq<Point3D>)
    requires 0 <= n
    ensures |r| == n
  {
    if n == 0 then [] else Column(i, j, n - 1) + [GridPoint(i, j, n - 1)]
  }

  /** The middle loop after n iterations: n full columns. */
  function Slab(i: int, n: int): (r: seq<Point3D>)
    requires 0 <= n
    ensures |r| == 21 * n
  {
    if n == 0 then [] else Slab(i, n - 1) + Column(i, n - 1, SAMPLES)
  }

  /** The outer loop after n iterations: n full slabs. */
  function Grid(n: int): (r: seq<Point3D>)
    requires 0 <= n
    ensures |r| == 441 * n
  {
    if n == 0 then [] else Grid(n - 1) + Slab(n - 1, SAMPLES)
  }

  /** Everything genCube pushes, in push order. */
  function CubeModel(): (r: seq<Point3D>)
    ensures |r| == 9261
  {
    Grid(SAMPLES)
  }

  lemma {:induction false} ColumnAt(i: int, j: int, n: int, k: int)
    requires 0 <= k < n
    ensures Column(i, j, n)[k] == GridPoint(i, j, k)
    decreases n
  {
    if k < n - 1 {
      ColumnAt(i, j, n - 1, k);
    }
  }

  lemma {:induction false} SlabAt(i: int, n: int, j: int, k: int)
    requires 0 <= j < n && 0 <= k < SAMPLES
    ensures Slab(i, n)[21 * j + k] == GridPoint(i, j, k)
    decreases n
  {
    if j < n - 1 {
      SlabAt(i, n - 1, j, k);
    } else {
      ColumnAt(i, j, SAMPLES, k);
    }
  }

  lemma {:induction false} GridAt(n: int, i: int, j: int, k: int)
    requires 0 <= i < n && 0 <= j < SAMPLES && 0 <= k < SAMPLES
    ensures Grid(n)[441 * i + 21 * j + k] == GridPoint(i, j, k)
    decreases n
  {
    if i < n - 1 {
      GridAt(n - 1, i, j, k);
    } else {
      SlabAt(i, SAMPLES, j, k);
    }
  }

  /** genCube pushes 21^3 points, and the point at position
      441 i + 21 j + k is the one for the samples (i, j, k): x outermost,
      z innermost. Every grid point is covered. */
  lemma CubeCovers(i: int, j: int, k: int)
    requires 0 <= i < SAMPLES && 0 <= j < SAMPLES && 0 <= k < SAMPLES
    ensures |CubeModel()| == 9261
    ensures CubeModel()[441 * i + 21 * j + k] == GridPoint(i, j, k)
  {
    GridAt(SAMPLES, i, j, k);
  }

  /** Conversely, every position of the model holds a grid point; so every
      coordinate is one of -500, -450, ..., 500. */
  lemma CubeAt(n: int)
    requires 0 <= n < 9261
    ensures var i, j, k := n / 441, n % 441 / 21, n % 441 % 21;
      0 <= i < SAMPLES && 0 <= j < SAMPLES && 0 <= k < SAMPLES &&
      CubeModel()[n] == GridPoint(i, j, k) &&
      CubeModel()[n].x == Coord(i) && CubeModel()[n].y == Coord(j) && CubeModel()[n].z == Coord(k)
  {
    var i, j, k := n / 441, n % 441 / 21, n % 441 % 21;
    assert n == 441 * i + 21 * j + k;
    CubeCovers(i, j, k);
    GridPointDrawn(i, j, k);
  }

  /** Each grid point is pushed exactly once: different positions hold points
      at different places. */
  lemma CubeDistinct(n: int, m: int)
    requires 0 <= n < 9261 && 0 <= m < 9261 && n != m
    ensures CubeModel()[n] != CubeModel()[m]
  {
    CubeAt(n);
    CubeAt(m);
    CoordInjective(n / 441, m / 441);
    CoordInjective(n % 441 / 21, m % 441 / 21);
    CoordInjective(n % 441 % 21, m % 441 % 21);
    assert n == 441 * (n / 441) + 21 * (n % 441 / 21) + n % 441 % 21;
    assert m == 441 * (m / 441) + 21 * (m % 441 / 21) + m % 441 % 21;
  }

  /** The draw flag is false exactly for the strictly interior points. */
  lemma CubeDrawnIffSurface(n: int)
    requires 0 <= n < 9261
    ensures var p := CubeModel()[n];
      p.draw <==> (p.x == -500.0 || p.x == 500.0 || p.y == -500.0 || p.y == 500.0 || p.z == -500.0 || p.z == 500.0)
  {
    CubeAt(n);
    var i, j, k := n / 441, n % 441 / 21, n % 441 % 21;
    GridPointDrawn(i, j, k);
    CoordAtEnds(i);
    CoordAtEnds(j);
    CoordAtEnds(k);
  }

  /** A column is drawn in full when it runs along a face of the cube
      (i or j at an end), and only at its two ends otherwise. */
  lemma {:induction false} ColumnDrawn(i: int, j: int, n: int)
    requires 0 <= i < SAMPLES && 0 <= j < SAMPLES && 0 <= n <= SAMPLES
    ensures |Drawn(Column(i, j, n))| ==
      if i == 0 || i == 20 || j == 0 || j == 20 then n
      else (if n >= 1 then 1 else 0) + (if n == SAMPLES then 1 else 0)
    decreases n
  {
    if n > 0 {
      ColumnDrawn(i, j, n - 1);
      GridPointDrawn(i, j, n - 1);
      DrawnAppend(Column(i, j, n - 1), [GridPoint(i, j, n - 1)]);
    }
  }

  /** One more column of a slab adds the drawn points of that column. */
  lemma SlabStep(i: int, n: int)
    requires 0 <= i < SAMPLES && 0 < n <= SAMPLES
    ensures |Drawn(Slab(i, n))| == |Drawn(Slab(i, n - 1))| + |Drawn(Column(i, n - 1, SAMPLES))|
  {
    DrawnAppend(Slab(i, n - 1), Column(i, n - 1, SAMPLES));
    assert Slab(i, n) == Slab(i, n - 1) + Column(i, n - 1, SAMPLES);
  }

  /** The same step as a count: a column along a face adds 21 drawn
      points, any other column 2. */
  lemma SlabCountStep(i: int, n: int)
    requires 0 <= i < SAMPLES && 0 < n <= SAMPLES
    ensures |Drawn(Slab(i, n))| == |Drawn(Slab(i, n - 1))| +
      if i == 0 || i == 20 || n == 1 || n == 21 then 21 else 2
  {
    SlabStep(i, n);
    ColumnDrawn(i, n - 1, SAMPLES);
  }

  /** A slab at an end of the x range lies on a face and is drawn in full. */
  lemma {:induction false} FaceSlabDrawn(i: int, n: int)
    requires i == 0 || i == 20
    requires 0 <= n <= SAMPLES
    ensures |Drawn(Slab(i, n))| == 21 * n
    decreases n
  {
    if n > 0 {
      FaceSlabDrawn(i, n - 1);
      SlabCountStep(i, n);
    }
  }

  /** An inner slab has its two outer columns drawn in full and its 19 inner
      columns at their two ends. */
  lemma {:induction false} InnerSlabDrawn(i: int, n: int)
    requires 0 < i < 20 && 0 <= n <= SAMPLES
    ensures |Drawn(Slab(i, n))| ==
      if n == 0 then 0
      else if n <= 20 then 21 + 2 * (n - 1)
      else 80
    decreases n
  {
    if n > 0 {
      InnerSlabDrawn(i, n - 1);
      SlabCountStep(i, n);
    }
  }

  /** The drawn points of a whole slab: 441 on a face, 80 inside. */
  lemma SlabDrawn(i: int)
    requires 0 <= i < SAMPLES
    ensures |Drawn(Slab(i, SAMPLES))| == if i == 0 || i == 20 then 441 else 80
  {
    if i == 0 || i == 20 {
      FaceSlabDrawn(i, SAMPLES);
    } else {
      InnerSlabDrawn(i, SAMPLES);
    }
  }

  /** One more slab of the grid adds the drawn points of that slab. */
  lemma GridStep(n: int)
    requires 0 < n <= SAMPLES
    ensures |Drawn(Grid(n))| == |Drawn(Grid(n - 1))| + |Drawn(Slab(n - 1, SAMPLES))|
  {
    DrawnAppend(Grid(n - 1), Slab(n - 1, SAMPLES));
    assert Grid(n) == Grid(n - 1) + Slab(n - 1, SAMPLES);
  }

  /** The drawn points of the first n slabs, as a count: each face slab
      adds 441 and each inner slab 80. */
  lemma GridCountStep(n: int)
    requires 0 < n <= SAMPLES
    ensures |Drawn(Grid(n))| == |Drawn(Grid(n - 1))| + if n == 1 || n == 21 then 441 else 80
  {
    GridStep(n);
    SlabDrawn(n - 1);
  }

  lemma {:induction false} GridDrawn(n: int)
    requires 0 <= n <= SAMPLES
    ensures |Drawn(Grid(n))| ==
      if n == 0 then 0
      else if n <= 20 then 441 + 80 * (n - 1)
      else 2402
    decreases n
  {
    if n > 0 {
      GridDrawn(n - 1);
      GridCountStep(n);
    }
  }

  /** Of the 9261 points, 2402 = 21^3 - 19^3 are drawn: all but the 19^3
      strictly interior ones. */
  lemma CubeDrawnCount()
    ensures |CubeModel()| == 9261
    ensures |Drawn(CubeModel())| == 2402
    ensures |CubeModel()| - |Drawn(CubeModel())| == 19 * 19 * 19
  {
    GridDrawn(SAMPLES);
  }
}
