/** The axis rotations (rotatePointX/Y/Z) and their lifting over a model
    (rotateModelX/Y/Z). An angle is represented by its cosine and sine; no
    trigonometry is modelled, only the identities the rotations rely on. */
module Rotation {
  import opened Wrappers
  import opened Points

  /** The pair (cos theta, sin theta) of one angle theta. */
  datatype SinCos = SinCos(c: real, s: real)

  /** cos^2 + sin^2 == 1. */
  predicate IsUnit(t: SinCos) {
    t.c * t.c + t.s * t.s == 1.0
  }

  /** The angle 0: cos 0 == 1 and sin 0 == 0. */
  const ZERO_ANGLE := SinCos(1.0, 0.0)

  /** The angle -theta: cos is even and sin is odd. */
  function Reverse(t: SinCos): (r: SinCos)
    ensures IsUnit(r) <==> IsUnit(t)
  {
    SinCos(t.c, -t.s)
  }

  /** What the model takes for granted about Math.cos and Math.sin, given as
      one function from an angle to its (cos, sin) pair. */
  ghost predicate Lawful(f: real -> SinCos) {
    && f(0.0) == ZERO_ANGLE
    && (forall theta :: IsUnit(f(theta)))
  }

  /** rotatePointX: turns the (y, z) plane, keeps x. */
  function RotatePointX(p: Point3D, t: SinCos): (r: Point3D)
    ensures r.x == p.x && SameLook(r, p)
    ensures t == ZERO_ANGLE ==> r == p
  {
    Point3D(p.x, t.s * p.z + t.c * p.y, t.c * p.z - t.s * p.y, p.color, p.draw)
  }

  /** rotatePointY: turns the (x, z) plane, keeps y. */
  function RotatePointY(p: Point3D, t: SinCos): (r: Point3D)
    ensures r.y == p.y && SameLook(r, p)
    ensures t == ZERO_ANGLE ==> r == p
  {
    Point3D(t.c * p.x - t.s * p.z, p.y, t.s * p.x + t.c * p.z, p.color, p.draw)
  }

  /** rotatePointZ: turns the (x, y) plane, keeps z. */
  function RotatePointZ(p: Point3D, t: SinCos): (r: Point3D)
    ensures r.z == p.z && SameLook(r, p)
    ensures t == ZERO_ANGLE ==> r == p
  {
    Point3D(t.s * p.y + t.c * p.x, t.c * p.y - t.s * p.x, p.z, p.color, p.draw)
  }

  datatype Axis = X | Y | Z

  function RotatePoint(axis: Axis, p: Point3D, t: SinCos): Point3D {
    match axis
    case X => RotatePointX(p, t)
    case Y => RotatePointY(p, t)
    case Z => RotatePointZ(p, t)
  }

  /** Each of the three rotations turns one coordinate plane by the same
      formula, (a, b) |-> (c a - s b, s a + c b); when c^2 + s^2 == 1 it keeps
      a^2 + b^2 ... */
  lemma PlaneRotation(a: real, b: real, t: SinCos, a': real, b': real)
    requires IsUnit(t)
    requires a' == t.c * a - t.s * b && b' == t.s * a + t.c * b
    ensures a' * a' + b' * b' == a * a + b * b
  {
    var c, s := t.c, t.s;
    calc {
      a' * a' + b' * b';
      c * c * a * a - 2.0 * c * s * a * b + s * s * b * b + s * s * a * a + 2.0 * c * s * a * b + c * c * b * b;
      (c * c + s * s) * (a * a) + (c * c + s * s) * (b * b);
    }
  }

  /** ... and the same formula with (c, -s) turns it back. */
  lemma PlaneUndo(a: real, b: real, t: SinCos, a': real, b': real)
    requires IsUnit(t)
    requires a' == t.c * a - t.s * b && b' == t.s * a + t.c * b
    ensures (-t.s) * a' + t.c * b' == b
    ensures t.c * a' - (-t.s) * b' == a
  {
    var c, s := t.c, t.s;
    calc {
      (-s) * a' + c * b';
      (-s) * (c * a - s * b) + c * (s * a + c * b);
      (c * c + s * s) * b;
    }
    calc {
      c * a' - (-s) * b';
      c * (c * a - s * b) + s * (s * a + c * b);
      (c * c + s * s) * a;
    }
  }

  /** Rotation keeps the distance from the origin. */
  lemma RotateNorm(axis: Axis, p: Point3D, t: SinCos)
    requires IsUnit(t)
    ensures Norm2(RotatePoint(axis, p, t)) == Norm2(p)
    ensures SameLook(RotatePoint(axis, p, t), p)
  {
    match axis
    case X => RotateXNorm(p, t);
    case Y => RotateYNorm(p, t);
    case Z => RotateZNorm(p, t);
  }

  lemma RotateXNorm(p: Point3D, t: SinCos)
    requires IsUnit(t)
    ensures Norm2(RotatePointX(p, t)) == Norm2(p)
  {
    var q := RotatePointX(p, t);
    PlaneRotation(p.z, p.y, t, q.z, q.y);
  }

  lemma RotateYNorm(p: Point3D, t: SinCos)
    requires IsUnit(t)
    ensures Norm2(RotatePointY(p, t)) == Norm2(p)
  {
    var q := RotatePointY(p, t);
    PlaneRotation(p.x, p.z, t, q.x, q.z);
  }

  lemma RotateZNorm(p: Point3D, t: SinCos)
    requires IsUnit(t)
    ensures Norm2(RotatePointZ(p, t)) == Norm2(p)
  {
    var q := RotatePointZ(p, t);
    PlaneRotation(p.y, p.x, t, q.y, q.x);
  }

  /** Rotating by theta and then by -theta about the same axis gives the
      point back. */
  lemma RotateReverse(axis: Axis, p: Point3D, t: SinCos)
    requires IsUnit(t)
    ensures RotatePoint(axis, RotatePoint(axis, p, t), Reverse(t)) == p
  {
    match axis
    case X => RotateXReverse(p, t);
    case Y => RotateYReverse(p, t);
    case Z => RotateZReverse(p, t);
  }

  lemma RotateXReverse(p: Point3D, t: SinCos)
    requires IsUnit(t)
    ensures RotatePointX(RotatePointX(p, t), Reverse(t)) == p
  {
    var q := RotatePointX(p, t);
    PlaneUndo(p.z, p.y, t, q.z, q.y);
  }

  lemma RotateYReverse(p: Point3D, t: SinCos)
    requires IsUnit(t)
    ensures RotatePointY(RotatePointY(p, t), Reverse(t)) == p
  {
    var q := RotatePointY(p, t);
    PlaneUndo(p.x, p.z, t, q.x, q.z);
  }

  lemma RotateZReverse(p: Point3D, t: SinCos)
    requires IsUnit(t)
    ensures RotatePointZ(RotatePointZ(p, t), Reverse(t)) == p
  {
    var q := RotatePointZ(p, t);
    PlaneUndo(p.y, p.x, t, q.y, q.x);
  }

  /** The rotations do not commute: a quarter turn about X followed by one
      about Y differs from the same turns in the other order. */
  lemma RotationOrderMatters()
    ensures var p, quarter := Point3D(0.0, 1.0, 0.0, None, true), SinCos(0.0, 1.0);
      IsUnit(quarter) &&
      RotatePointY(RotatePointX(p, quarter), quarter) == Point3D(1.0, 0.0, 0.0, None, true) &&
      RotatePointX(RotatePointY(p, quarter), quarter) == Point3D(0.0, 0.0, -1.0, None, true)
  {
  }

  /** rotateModelX/Y/Z as a value: every point rotated, in model order. */
  function Rotated(axis: Axis, m: seq<Point3D>, t: SinCos): (r: seq<Point3D>)
    ensures |r| == |m|
    decreases |m|
  {
    if m == [] then [] else Rotated(axis, m[..|m| - 1], t) + [RotatePoint(axis, m[|m| - 1], t)]
  }

  lemma {:induction false} RotatedAt(axis: Axis, m: seq<Point3D>, t: SinCos, i: int)
    requires 0 <= i < |m|
    ensures Rotated(axis, m, t)[i] == RotatePoint(axis, m[i], t)
    decreases |m|
  {
    if i < |m| - 1 {
      RotatedAt(axis, m[..|m| - 1], t, i);
    }
  }

  /** The rotated model keeps the order of the points, their colors, their
      draw flags and their distances from the origin. */
  lemma RotatedKeepsPoints(axis: Axis, m: seq<Point3D>, t: SinCos)
    requires IsUnit(t)
    ensures |Rotated(axis, m, t)| == |m|
    ensures forall i :: 0 <= i < |m| ==>
      SameLook(Rotated(axis, m, t)[i], m[i]) && Norm2(Rotated(axis, m, t)[i]) == Norm2(m[i])
  {
    forall i | 0 <= i < |m|
      ensures SameLook(Rotated(axis, m, t)[i], m[i]) && Norm2(Rotated(axis, m, t)[i]) == Norm2(m[i])
    {
      RotatedAt(axis, m, t, i);
      RotateNorm(axis, m[i], t);
    }
  }

  /** Rotating a model by the angle 0 leaves it as it is. */
  lemma RotatedByZero(axis: Axis, m: seq<Point3D>)
    ensures Rotated(axis, m, ZERO_ANGLE) == m
  {
    forall i | 0 <= i < |m|
      ensures Rotated(axis, m, ZERO_ANGLE)[i] == m[i]
    {
      RotatedAt(axis, m, ZERO_ANGLE, i);
    }
  }

  /** Rotating a model by theta and then by -theta gives the model back. */
  lemma RotatedReverse(axis: Axis, m: seq<Point3D>, t: SinCos)
    requires IsUnit(t)
    ensures Rotated(axis, Rotated(axis, m, t), Reverse(t)) == m
  {
    var r := Rotated(axis, m, t);
    var back := Rotated(axis, r, Reverse(t));
    forall i | 0 <= i < |m|
      ensures back[i] == m[i]
    {
      RotatedAt(axis, r, Reverse(t), i);
      RotatedAt(axis, m, t, i);
      RotateReverse(axis, m[i], t);
    }
    assert |back| == |m|;
  }

  /** rotateModelX/Y/Z: builds the rotated copy point by point, as the
      forEach/push loop does, and leaves the input model alone. */
  method RotateModel(axis: Axis, m: seq<Point3D>, t: SinCos) returns (r: seq<Point3D>)
    ensures r == Rotated(axis, m, t)
  {
    r := [];
    var i := 0;
    while i < |m|
      invariant 0 <= i <= |m|
      invariant r == Rotated(axis, m[..i], t)
    {
      assert m[..i + 1][..i] == m[..i];
      r := r + [RotatePoint(axis, m[i], t)];
      i := i + 1;
    }
    assert m[..i] == m;
  }

  /** The rotation a frame applies: X first, then Y, then Z. */
  function FrameRotation(m: seq<Point3D>, tx: SinCos, ty: SinCos, tz: SinCos): (r: seq<Point3D>)
    ensures |r| == |m|
  {
    Rotated(Z, Rotated(Y, Rotated(X, m, tx), ty), tz)
  }

  /** At the angles (0, 0, 0) the frame rotation is the identity. */
  lemma FrameRotationAtZero(m: seq<Point3D>)
    ensures FrameRotation(m, ZERO_ANGLE, ZERO_ANGLE, ZERO_ANGLE) == m
  {
    RotatedByZero(X, m);
    RotatedByZero(Y, m);
    RotatedByZero(Z, m);
  }

  /** The frame rotation is rigid: it keeps every point's distance from the
      origin and its display attributes, and the model's length and order. */
  lemma FrameRotationRigid(m: seq<Point3D>, tx: SinCos, ty: SinCos, tz: SinCos)
    requires IsUnit(tx) && IsUnit(ty) && IsUnit(tz)
    ensures |FrameRotation(m, tx, ty, tz)| == |m|
    ensures forall i :: 0 <= i < |m| ==>
      SameLook(FrameRotation(m, tx, ty, tz)[i], m[i]) &&
      Norm2(FrameRotation(m, tx, ty, tz)[i]) == Norm2(m[i])
  {
    var rx := Rotated(X, m, tx);
    var ry := Rotated(Y, rx, ty);
    RotatedKeepsPoints(X, m, tx);
    RotatedKeepsPoints(Y, rx, ty);
    RotatedKeepsPoints(Z, ry, tz);
  }
}
