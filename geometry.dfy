/** The coordinate transform between the user's relative frame and the robot's absolute frame:
    a configured scale, an origin offset and one of four axis rotations. */
module Geometry {

  datatype Point = Point(x: real, y: real)

  /** The position settings: `_position_relative_scale`, `_position_relative_origin` and
      `_position_axis_rotation`. */
  datatype Transform = Transform(scale: real, origin: Point, rotation: int)

  function Abs(r: real): real {
    if r < 0.0 then -r else r
  }

  /** `rotate_coordinates`: rotation 0 mirrors y, 1 swaps the axes, 2 mirrors x, 3 mirrors both;
      any other value leaves the point alone. */
  function Rotate(rotation: int, p: Point): (r: Point)
    ensures rotation == 1 ==> Abs(r.x) == Abs(p.y) && Abs(r.y) == Abs(p.x)
    ensures rotation != 1 ==> Abs(r.x) == Abs(p.x) && Abs(r.y) == Abs(p.y)
  {
    if rotation == 0 then Point(p.x, -p.y)
    else if rotation == 1 then Point(p.y, p.x)
    else if rotation == 2 then Point(-p.x, p.y)
    else if rotation == 3 then Point(-p.x, -p.y)
    else p
  }

  /** Every rotation undoes itself. */
  lemma RotateInvolution(rotation: int, p: Point)
    ensures Rotate(rotation, Rotate(rotation, p)) == p
  {
  }

  /** A rotation value outside 0..3 is the identity. */
  lemma RotateOutsideRange(rotation: int, p: Point)
    requires rotation < 0 || 3 < rotation
    ensures Rotate(rotation, p) == p
  {
  }

  /** Multiply by the scale, add the origin. */
  function Place(t: Transform, q: Point): Point {
    Point(q.x * t.scale + t.origin.x, q.y * t.scale + t.origin.y)
  }

  /** The arithmetic of `get_relative_position`: rotate, multiply by the scale, add the origin. */
  function ToRelative(t: Transform, p: Point): Point {
    Place(t, Rotate(t.rotation, p))
  }

  /** `calculate_absolute_position` before rounding: subtract the origin, divide by the scale, rotate.
      Python raises ZeroDivisionError on a zero scale. */
  function Unrounded(t: Transform, rel: Point): Point
    requires t.scale != 0.0
  {
    Rotate(t.rotation, Point((rel.x - t.origin.x) / t.scale, (rel.y - t.origin.y) / t.scale))
  }

  /** Python's `round` of a float to an int: the nearest integer, ties to the even one. */
  function Round(r: real): (n: int)
    ensures -0.5 <= n as real - r <= 0.5
    ensures (n as real - r == 0.5 || r - n as real == 0.5) ==> n % 2 == 0
  {
    var f := r.Floor;
    var frac := r - f as real;
    if frac < 0.5 then f
    else if frac > 0.5 then f + 1
    else if f % 2 == 0 then f
    else f + 1
  }

  /** Ties round to the even neighbour, as Python's `round` does: 0.5 goes to 0, not 1. */
  lemma RoundHalves()
    ensures Round(0.5) == 0 && Round(1.5) == 2 && Round(2.5) == 2 && Round(-0.5) == 0 && Round(-1.5) == -2
  {
  }

  /** `calculate_absolute_position`: the nearest integer point (ties to even) to the exact inverse
      of the relative transform. */
  function AbsolutePosition(t: Transform, rel: Point): (a: Point)
    requires t.scale != 0.0
    ensures a.x == a.x.Floor as real && a.y == a.y.Floor as real
    ensures Abs(a.x - Unrounded(t, rel).x) <= 0.5 && Abs(a.y - Unrounded(t, rel).y) <= 0.5
    ensures Abs(a.x - Unrounded(t, rel).x) == 0.5 ==> a.x.Floor % 2 == 0
    ensures Abs(a.y - Unrounded(t, rel).y) == 0.5 ==> a.y.Floor % 2 == 0
  {
    var u := Unrounded(t, rel);
    Point(Round(u.x) as real, Round(u.y) as real)
  }

  /** Scale 2, origin (10, 20), rotation 0: relative (0.5, 0.25) is (-4.75, 9.875) before rounding
      and (-5, 10) after; under the identity-like setting, (0.5, 0.5) goes to (0, 0). */
  lemma AbsolutePositionExamples()
    ensures AbsolutePosition(Transform(2.0, Point(10.0, 20.0), 0), Point(0.5, 0.25)) == Point(-5.0, 10.0)
    ensures AbsolutePosition(Transform(1.0, Point(0.0, 0.0), 0), Point(0.5, 0.5)) == Point(0.0, 0.0)
  {
  }

  /** Relative to absolute and back is the identity before rounding. */
  lemma {:induction false} AbsoluteThenRelative(t: Transform, rel: Point)
    requires t.scale != 0.0
    ensures ToRelative(t, Unrounded(t, rel)) == rel
  {
    var d := Point((rel.x - t.origin.x) / t.scale, (rel.y - t.origin.y) / t.scale);
    RotateInvolution(t.rotation, d);
    assert d.x * t.scale == rel.x - t.origin.x;
    assert d.y * t.scale == rel.y - t.origin.y;
  }

  /** Absolute to relative and back is the identity too: on a non-zero scale the transform is a bijection. */
  lemma {:induction false} RelativeThenAbsolute(t: Transform, p: Point)
    requires t.scale != 0.0
    ensures Unrounded(t, ToRelative(t, p)) == p
  {
    var q := Rotate(t.rotation, p);
    var r := Place(t, q);
    Unplace1D(r.x, q.x, t.scale, t.origin.x);
    Unplace1D(r.y, q.y, t.scale, t.origin.y);
    RotateInvolution(t.rotation, p);
  }

  /** One coordinate of the inverse: subtracting the origin and dividing by the scale undoes `Place`. */
  lemma Unplace1D(r: real, q: real, s: real, o: real)
    requires s != 0.0 && r == q * s + o
    ensures (r - o) / s == q
  {
  }

  /** Rotations keep two points within half a unit of each other along both axes. */
  lemma RotateKeepsNear(rotation: int, u: Point, a: Point)
    requires Abs(a.x - u.x) <= 0.5 && Abs(a.y - u.y) <= 0.5
    ensures Abs(Rotate(rotation, a).x - Rotate(rotation, u).x) <= 0.5
    ensures Abs(Rotate(rotation, a).y - Rotate(rotation, u).y) <= 0.5
  {
  }

  lemma MulNonNegative(a: real, b: real)
    requires 0.0 <= a && 0.0 <= b
    ensures 0.0 <= a * b
  {
  }

  lemma AbsOfProduct(a: real, b: real)
    ensures Abs(a * b) == Abs(a) * Abs(b)
  {
    if a < 0.0 {
      assert a * b == -((-a) * b);
    }
    if b < 0.0 {
      assert a * b == -(a * (-b));
    }
    if a < 0.0 && b < 0.0 {
      assert a * b == (-a) * (-b);
    }
    if a < 0.0 || b < 0.0 {
      assert Abs(a) * Abs(b) == Abs(a * b);
    }
  }

  /** One coordinate of the round trip: an error of at most half a unit, scaled. */
  lemma Tolerance1D(ra: real, ru: real, qa: real, qu: real, s: real, o: real)
    requires ra == qa * s + o && ru == qu * s + o
    requires Abs(qa - qu) <= 0.5
    ensures Abs(ra - ru) <= 0.5 * Abs(s)
  {
    var e := qa - qu;
    assert ra - ru == e * s;
    AbsOfProduct(e, s);
    MulNonNegative(0.5 - Abs(e), Abs(s));
    assert (0.5 - Abs(e)) * Abs(s) == 0.5 * Abs(s) - Abs(e) * Abs(s);
  }

  /** Points at most half a unit apart in each absolute coordinate map to relative points at most
      half a unit times the scale apart. */
  lemma {:induction false} NearbyImages(t: Transform, u: Point, a: Point)
    requires Abs(a.x - u.x) <= 0.5 && Abs(a.y - u.y) <= 0.5
    ensures var ru, ra := ToRelative(t, u), ToRelative(t, a);
            Abs(ra.x - ru.x) <= 0.5 * Abs(t.scale) && Abs(ra.y - ru.y) <= 0.5 * Abs(t.scale)
  {
    RotateKeepsNear(t.rotation, u, a);
    PlaceNear(t, Rotate(t.rotation, u), Rotate(t.rotation, a));
  }

  /** Scaling and shifting turns half a unit of distance into half a unit times the scale. */
  lemma PlaceNear(t: Transform, qu: Point, qa: Point)
    requires Abs(qa.x - qu.x) <= 0.5 && Abs(qa.y - qu.y) <= 0.5
    ensures Abs(Place(t, qa).x - Place(t, qu).x) <= 0.5 * Abs(t.scale)
    ensures Abs(Place(t, qa).y - Place(t, qu).y) <= 0.5 * Abs(t.scale)
  {
    Tolerance1D(Place(t, qa).x, Place(t, qu).x, qa.x, qu.x, t.scale, t.origin.x);
    Tolerance1D(Place(t, qa).y, Place(t, qu).y, qa.y, qu.y, t.scale, t.origin.y);
  }

  /** Relative to absolute and back lands within half a device unit, times the scale, of the start:
      the only loss is the rounding to integer device units. */
  lemma {:induction false} RoundTripTolerance(t: Transform, rel: Point)
    requires t.scale != 0.0
    ensures var back := ToRelative(t, AbsolutePosition(t, rel));
            Abs(back.x - rel.x) <= 0.5 * Abs(t.scale) && Abs(back.y - rel.y) <= 0.5 * Abs(t.scale)
  {
    var u := Unrounded(t, rel);
    AbsoluteThenRelative(t, rel);
    NearbyImages(t, u, AbsolutePosition(t, rel));
  }
}
