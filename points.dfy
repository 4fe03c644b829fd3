/** The point records of the renderer (assets/js/script.js:110-122).
    JavaScript numbers are modelled as mathematical reals; a `null` color as
    `None`; an omitted `draw` argument (`undefined`, which is falsy) as `false`. */
module Points {
  import opened Wrappers

  /** A CSS color string such as "#ff0000". */
  type Color = string

  datatype Point3D = Point3D(x: real, y: real, z: real, color: Option<Color>, draw: bool)

  datatype Point2D = Point2D(x: real, y: real, color: Option<Color>, draw: bool)

  /** The squared distance of a point from the world origin. */
  function Norm2(p: Point3D): real {
    p.x * p.x + p.y * p.y + p.z * p.z
  }

  /** Two points carry the same display attributes. */
  predicate SameLook(p: Point3D, q: Point3D) {
    p.color == q.color && p.draw == q.draw
  }

  /** The points whose draw flag is set, in their original order. */
  function Drawn(ps: seq<Point3D>): (r: seq<Point3D>)
    ensures |r| <= |ps|
    ensures forall k :: 0 <= k < |r| ==> r[k].draw
    decreases |ps|
  {
    if ps == [] then []
    else Drawn(ps[..|ps| - 1]) + (if ps[|ps| - 1].draw then [ps[|ps| - 1]] else [])
  }

  /** Appending two runs of points one after the other is appending their
      concatenation. */
  lemma AppendAssoc(a: seq<Point3D>, b: seq<Point3D>, c: seq<Point3D>)
    ensures a + b + c == a + (b + c)
  {
  }

  /** Every drawn point is a point of the model. */
  lemma {:induction false} DrawnFromModel(ps: seq<Point3D>)
    ensures forall q :: q in Drawn(ps) ==> q in ps
    decreases |ps|
  {
    if ps != [] {
      DrawnFromModel(ps[..|ps| - 1]);
      assert forall q :: q in ps[..|ps| - 1] ==> q in ps;
    }
  }

  lemma {:induction false} DrawnAppend(a: seq<Point3D>, b: seq<Point3D>)
    ensures Drawn(a + b) == Drawn(a) + Drawn(b)
    decreases |b|
  {
    if b == [] {
      assert a + b == a;
    } else {
      var b' := b[..|b| - 1];
      assert (a + b)[..|a + b| - 1] == a + b';
      DrawnAppend(a, b');
    }
  }

  /** Two models with the same draw flags, position by position, draw the
      same number of points. */
  lemma {:induction false} DrawnSameFlags(a: seq<Point3D>, b: seq<Point3D>)
    requires |a| == |b|
    requires forall i :: 0 <= i < |a| ==> a[i].draw == b[i].draw
    ensures |Drawn(a)| == |Drawn(b)|
    decreases |a|
  {
    if a != [] {
      DrawnSameFlags(a[..|a| - 1], b[..|b| - 1]);
    }
  }
}
