/** Cubic Bezier evaluation and its two analytic derivatives, written with
    the same terms the renderer uses, plus the parameter samples
    `t = k / granularity` at which both renderers evaluate them. */
module Bezier {
  import opened Geometry

  /** The four control points of one curve segment. */
  datatype Segment = Segment(p0: Vec, p1: Vec, p2: Vec, p3: Vec)

  // One coordinate of each evaluator, in the terms the renderer writes.

  function BernsteinAt(x0: real, x1: real, x2: real, x3: real, t: real): real {
    var u := 1.0 - t;
    var tt := t * t;
    var uu := u * u;
    var uuu := uu * u;
    var ttt := tt * t;
    uuu * x0 + 3.0 * uu * t * x1 + 3.0 * u * tt * x2 + ttt * x3
  }

  function DerivativeAt(x0: real, x1: real, x2: real, x3: real, t: real): real {
    var u := 1.0 - t;
    3.0 * u * u * (x1 - x0) + 6.0 * u * t * (x2 - x1) + 3.0 * t * t * (x3 - x2)
  }

  function SecondDerivativeAt(x0: real, x1: real, x2: real, x3: real, t: real): real {
    6.0 * (1.0 - t) * (x2 - 2.0 * x1 + x0) + 6.0 * t * (x3 - 2.0 * x2 + x1)
  }

  /** `cubic_bezier`: the Bernstein form
      (1-t)^3 p0 + 3(1-t)^2 t p1 + 3(1-t) t^2 p2 + t^3 p3. */
  function Position(s: Segment, t: real): (p: Vec)
    ensures t == 0.0 ==> p == s.p0
    ensures t == 1.0 ==> p == s.p3
  {
    Vec(BernsteinAt(s.p0.x, s.p1.x, s.p2.x, s.p3.x, t),
        BernsteinAt(s.p0.y, s.p1.y, s.p2.y, s.p3.y, t))
  }

  /** `cubic_bezier_derivative`: the tangent P'(t). It depends on the control
      points only through their differences. */
  function Derivative(s: Segment, t: real): (d: Vec)
    ensures t == 0.0 ==> d == Scale(3.0, Sub(s.p1, s.p0))
    ensures t == 1.0 ==> d == Scale(3.0, Sub(s.p3, s.p2))
    ensures s.p0 == s.p1 == s.p2 == s.p3 ==> d == Zero
  {
    Vec(DerivativeAt(s.p0.x, s.p1.x, s.p2.x, s.p3.x, t),
        DerivativeAt(s.p0.y, s.p1.y, s.p2.y, s.p3.y, t))
  }

  /** `cubic_bezier_second_derivative`: P''(t). */
  function SecondDerivative(s: Segment, t: real): (a: Vec)
    ensures t == 0.0 ==> a == Scale(6.0, Add(Sub(s.p2, Scale(2.0, s.p1)), s.p0))
    ensures t == 1.0 ==> a == Scale(6.0, Add(Sub(s.p3, Scale(2.0, s.p2)), s.p1))
    ensures s.p0 == s.p1 == s.p2 == s.p3 ==> a == Zero
  {
    Vec(SecondDerivativeAt(s.p0.x, s.p1.x, s.p2.x, s.p3.x, t),
        SecondDerivativeAt(s.p0.y, s.p1.y, s.p2.y, s.p3.y, t))
  }

  /** The segment with every control point moved by `o`. */
  function Translate(s: Segment, o: Vec): Segment {
    Segment(Add(s.p0, o), Add(s.p1, o), Add(s.p2, o), Add(s.p3, o))
  }

  // ---------------------------------------------------------------------
  // Independent reference definitions

  function LerpAt(a: real, b: real, t: real): real { a + t * (b - a) }

  /** De Casteljau's construction on one coordinate: three rounds of linear
      interpolation between neighbouring control values. */
  function DeCasteljauAt(x0: real, x1: real, x2: real, x3: real, t: real): real {
    var a := LerpAt(x0, x1, t);
    var b := LerpAt(x1, x2, t);
    var c := LerpAt(x2, x3, t);
    LerpAt(LerpAt(a, b, t), LerpAt(b, c, t), t)
  }

  function DeCasteljau(s: Segment, t: real): Vec {
    Vec(DeCasteljauAt(s.p0.x, s.p1.x, s.p2.x, s.p3.x, t),
        DeCasteljauAt(s.p0.y, s.p1.y, s.p2.y, s.p3.y, t))
  }

  /** A cubic polynomial in Horner form, ((a t + b) t + c) t + d. */
  function PolyAt(a: real, b: real, c: real, d: real, t: real): real {
    ((a * t + b) * t + c) * t + d
  }

  // ---------------------------------------------------------------------
  // Properties

  lemma DeCasteljauAgrees(x0: real, x1: real, x2: real, x3: real, t: real)
    ensures BernsteinAt(x0, x1, x2, x3, t) == DeCasteljauAt(x0, x1, x2, x3, t)
  {
  }

  /** The closed form the renderer evaluates is De Casteljau's curve. */
  lemma PositionIsDeCasteljau(s: Segment, t: real)
    ensures Position(s, t) == DeCasteljau(s, t)
  {
    DeCasteljauAgrees(s.p0.x, s.p1.x, s.p2.x, s.p3.x, t);
    DeCasteljauAgrees(s.p0.y, s.p1.y, s.p2.y, s.p3.y, t);
  }

  /** On one coordinate, with power-basis coefficients
      a = -x0 + 3x1 - 3x2 + x3, b = 3x0 - 6x1 + 3x2, c = -3x0 + 3x1, d = x0:
      P(t) = a t^3 + b t^2 + c t + d, and the two derivative formulas are
      exactly P'(t) = 3a t^2 + 2b t + c and P''(t) = 6a t + 2b. */
  lemma PowerBasisAt(x0: real, x1: real, x2: real, x3: real, t: real)
    ensures var a, b, c, d := -x0 + 3.0 * x1 - 3.0 * x2 + x3, 3.0 * x0 - 6.0 * x1 + 3.0 * x2, -3.0 * x0 + 3.0 * x1, x0;
      && BernsteinAt(x0, x1, x2, x3, t) == PolyAt(a, b, c, d, t)
      && DerivativeAt(x0, x1, x2, x3, t) == PolyAt(0.0, 3.0 * a, 2.0 * b, c, t)
      && SecondDerivativeAt(x0, x1, x2, x3, t) == PolyAt(0.0, 0.0, 6.0 * a, 2.0 * b, t)
  {
  }

  /** The four Bernstein weights sum to one, so evaluation commutes with
      translation; the derivatives see only differences and do not move. */
  lemma TranslationInvarianceAt(x0: real, x1: real, x2: real, x3: real, o: real, t: real)
    ensures BernsteinAt(x0 + o, x1 + o, x2 + o, x3 + o, t) == BernsteinAt(x0, x1, x2, x3, t) + o
    ensures DerivativeAt(x0 + o, x1 + o, x2 + o, x3 + o, t) == DerivativeAt(x0, x1, x2, x3, t)
    ensures SecondDerivativeAt(x0 + o, x1 + o, x2 + o, x3 + o, t) == SecondDerivativeAt(x0, x1, x2, x3, t)
  {
  }

  lemma TranslationInvariance(s: Segment, o: Vec, t: real)
    ensures Position(Translate(s, o), t) == Add(Position(s, t), o)
    ensures Derivative(Translate(s, o), t) == Derivative(s, t)
    ensures SecondDerivative(Translate(s, o), t) == SecondDerivative(s, t)
  {
    TranslationInvarianceAt(s.p0.x, s.p1.x, s.p2.x, s.p3.x, o.x, t);
    TranslationInvarianceAt(s.p0.y, s.p1.y, s.p2.y, s.p3.y, o.y, t);
  }

  /** A segment whose four control points coincide is a single point with a
      zero tangent at every parameter: the case `normalize()` cannot handle. */
  lemma ConstantSegment(p: Vec, t: real)
    ensures Position(Segment(p, p, p, p), t) == p
    ensures Derivative(Segment(p, p, p, p), t) == Zero
  {
  }

  /** `t /= granularity` for the k-th pass of `range(granularity + 1)`. */
  function SampleTime(k: nat, gran: nat): (t: real)
    requires 0 < gran && k <= gran
    ensures 0.0 <= t <= 1.0
    ensures t == 0.0 <==> k == 0
    ensures t == 1.0 <==> k == gran
    ensures t * gran as real == k as real
  {
    DivideMonotone(k as real, gran as real, gran as real);
    k as real / gran as real
  }

  /** Successive samples move strictly forward along the curve. */
  lemma SampleTimesIncrease(i: nat, j: nat, gran: nat)
    requires 0 < gran && i < j <= gran
    ensures SampleTime(i, gran) < SampleTime(j, gran)
  {
    DivideMonotone(i as real, j as real, gran as real);
  }

  /** The first sample of a render is exactly p0 and the last exactly p3. */
  lemma SampleEndpoints(s: Segment, gran: nat)
    requires 0 < gran
    ensures Position(s, SampleTime(0, gran)) == s.p0
    ensures Position(s, SampleTime(gran, gran)) == s.p3
    ensures Derivative(s, SampleTime(0, gran)) == Scale(3.0, Sub(s.p1, s.p0))
    ensures Derivative(s, SampleTime(gran, gran)) == Scale(3.0, Sub(s.p3, s.p2))
  {
  }
}
