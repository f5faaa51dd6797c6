/** Plane geometry shared by the curve renderer: real vectors for the curve
    arithmetic (Python floats, modelled exactly), integer points for pixel
    coordinates and click locations, Python's `int()` on a float, and the
    quarter-turn that turns a tangent into a normal. */
module Geometry {

  /** A point or a vector of the plane, with exact real coordinates. */
  datatype Vec = Vec(x: real, y: real)

  /** An integer point: a click location or a pixel coordinate. */
  datatype Point = Point(x: int, y: int)

  const Zero: Vec := Vec(0.0, 0.0)

  function Add(a: Vec, b: Vec): Vec { Vec(a.x + b.x, a.y + b.y) }

  function Sub(a: Vec, b: Vec): Vec { Vec(a.x - b.x, a.y - b.y) }

  function Scale(k: real, v: Vec): Vec { Vec(k * v.x, k * v.y) }

  function Dot(a: Vec, b: Vec): real { a.x * b.x + a.y * b.y }

  /** The z-component of the cross product: positive when `b` lies a
      counter-clockwise quarter-turn (in x-right/y-up terms) from `a`. */
  function Cross(a: Vec, b: Vec): real { a.x * b.y - a.y * b.x }

  function NormSq(v: Vec): real { v.x * v.x + v.y * v.y }

  function ToVec(p: Point): Vec { Vec(p.x as real, p.y as real) }

  function Shift(p: Point, o: Point): Point { Point(p.x + o.x, p.y + o.y) }

  /** Python's `int()` applied to a float: truncation toward zero, which for
      a negative non-integer rounds UP, unlike `Floor`. */
  function Trunc(x: real): (n: int)
    ensures -1.0 < x - n as real < 1.0
    ensures 0.0 <= x ==> 0 <= n && n as real <= x
    ensures x <= 0.0 ==> n <= 0 && x <= n as real
  {
    if x >= 0.0 then x.Floor else -((-x).Floor)
  }

  /** `int()` leaves an integer-valued float unchanged. */
  lemma TruncOfInt(n: int)
    ensures Trunc(n as real) == n
  {
  }

  /** A value between two integers truncates to a value between them:
      truncation never leaves an integer interval that contains its input. */
  lemma TruncBetween(x: real, a: int, b: int)
    requires a as real <= x <= b as real
    ensures a <= Trunc(x) <= b
  {
  }

  /** Truncation is monotone. */
  lemma TruncMonotone(x: real, y: real)
    requires x <= y
    ensures Trunc(x) <= Trunc(y)
  {
    if x >= 0.0 {
      assert x.Floor <= y.Floor;
    } else if y < 0.0 {
      assert (-y).Floor <= (-x).Floor;
    }
  }

  /** Shifting by an integer commutes with truncation as long as the value
      stays on the non-negative side (the on-screen case). */
  lemma TruncShift(x: real, o: int)
    requires 0.0 <= x && 0.0 <= x + o as real
    ensures Trunc(x + o as real) == Trunc(x) + o
  {
    var n := x.Floor;
    assert n as real <= x < n as real + 1.0;
    assert (n + o) as real <= x + o as real < (n + o) as real + 1.0;
  }

  /** Two values at most `w` apart, for an integer `w`, truncate to
      integers at most `w` apart: truncation never widens an integer gap. */
  lemma TruncSpread(a: real, b: real, w: int)
    requires -(w as real) <= a - b <= w as real
    ensures -w <= Trunc(a) - Trunc(b) <= w
  {
  }

  /** Across zero the shift and the truncation do not commute: -0.5 shifted
      by 1 truncates to 0, while -0.5 truncates to 0 and shifts to 1. */
  lemma TruncShiftAcrossZero()
    ensures Trunc(-0.5 + 1.0) != Trunc(-0.5) + 1
  {
    assert Trunc(0.5) == 0;
    assert Trunc(-0.5) == 0;
  }

  /** Dividing by a positive number keeps order, strict and non-strict. */
  lemma DivideMonotone(a: real, b: real, g: real)
    requires 0.0 < g && a <= b
    ensures a / g <= b / g
    ensures a < b ==> a / g < b / g
  {
  }

  /** The normal the renderer builds from a tangent `t`: `(-t.y, t.x)`. */
  function LeftNormal(t: Vec): (n: Vec)
    ensures Dot(n, t) == 0.0
    ensures NormSq(n) == NormSq(t)
    ensures Cross(t, n) == NormSq(t)
  {
    Vec(-t.y, t.x)
  }

  /** The quarter-turn is determined by the facts `LeftNormal` ensures: for
      `t` of non-zero squared length, the only vector perpendicular to `t`
      with `Cross(t, m) == |t|^2` is `LeftNormal(t)`. */
  lemma LeftNormalUnique(t: Vec, m: Vec)
    requires NormSq(t) != 0.0
    requires Dot(m, t) == 0.0
    requires Cross(t, m) == NormSq(t)
    ensures m == LeftNormal(t)
  {
    var s := NormSq(t);
    // Solve the 2x2 system  t.x*m.x + t.y*m.y == 0,  t.x*m.y - t.y*m.x == s.
    assert s * m.x == t.x * (t.x * m.x + t.y * m.y) - t.y * (t.x * m.y - t.y * m.x);
    assert s * m.x == -t.y * s;
    assert s * m.y == t.y * (t.x * m.x + t.y * m.y) + t.x * (t.x * m.y - t.y * m.x);
    assert s * m.y == t.x * s;
  }

  /** Two quarter-turns reverse a vector; four give it back. */
  lemma LeftNormalTwice(t: Vec)
    ensures LeftNormal(LeftNormal(t)) == Scale(-1.0, t)
    ensures LeftNormal(LeftNormal(LeftNormal(LeftNormal(t)))) == t
  {
  }

  /** The quarter-turn is linear, so scaling the tangent scales the normal. */
  lemma LeftNormalScale(k: real, t: Vec)
    ensures LeftNormal(Scale(k, t)) == Scale(k, LeftNormal(t))
  {
  }
}
