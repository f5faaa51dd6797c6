/** The two curve renderers: the export pass, which shades each road sample
    with the local terrain brightness and draws gradient borders into the
    saved map, and the live view, which draws fixed-colour normals and
    borders over the panned and zoomed window. Both walk the same stride-3
    partition of the click list and sample each segment at `t = k / gran`. */
module Render {
  import opened Geometry
  import opened Bezier
  import opened Terrain
  import opened Gradient
  import opened Segments

  /** Half-width of the road: the normal spoke drawn on each side. */
  const NormalLength: real := 15.0
  /** Width of the border band drawn beyond each normal spoke. */
  const BorderLength: real := 10.0
  /** `CURVE_GRAN`: samples per segment in the live view. */
  const ViewGranularity: nat := 1200
  /** Samples per segment in the export pass. */
  const ExportGranularity: nat := 5000
  /** Radius of the brightness window around each road sample. */
  const NeighborhoodSize: nat := 30

  const Red: seq<int> := [255, 0, 0]
  const Green: seq<int> := [0, 255, 0]
  const Purple: seq<int> := [130, 0, 255]
  const Blue: seq<int> := [0, 0, 255]

  /** `pygame.Color(v, v, v)`: an opaque gray, iterated as four channels. */
  function Gray(v: int): seq<int> { [v, v, v, 255] }

  /** The colour `get_at` returns, iterated as four channels. */
  function Channels(c: Rgba): seq<int> { [c.r, c.g, c.b, c.a] }

  // ---------------------------------------------------------------------
  // Normalisation

  /** What `Vector2.normalize()` works out: the length of a vector and the
      unit vector along it. */
  datatype Polar = Polar(len: real, unit: Vec)

  /** `p` is the length and direction of `d`: `d` is `p.len` times a unit
      vector, with `p.len` positive. This pins `p` down completely (see
      `PolarUnique`), so it stands for the square root `normalize()` takes. */
  predicate IsPolarOf(p: Polar, d: Vec) {
    0.0 < p.len && NormSq(p.unit) == 1.0 && d == Scale(p.len, p.unit)
  }

  /** A normaliser: gives the length and direction of every non-zero vector.
      The zero vector has none, which is where `normalize()` raises. */
  ghost predicate IsNormalizer(norm: Vec -> Polar) {
    forall v :: v != Zero ==> IsPolarOf(norm(v), v)
  }

  lemma UnitFactors(ux: real, uy: real, len: real, k: real)
    requires ux * ux + uy * uy == 1.0
    ensures (k * -uy) * (len * ux) + (k * ux) * (len * uy) == 0.0
    ensures (len * ux) * (k * ux) - (len * uy) * (k * -uy) == k * len
    ensures (k * -uy) * (k * -uy) + (k * ux) * (k * ux) == k * k
    ensures (len * ux) * (len * ux) + (len * uy) * (len * uy) == len * len
  {
    assert (len * ux) * (k * ux) - (len * uy) * (k * -uy) == (k * len) * (ux * ux + uy * uy);
    assert (k * -uy) * (k * -uy) + (k * ux) * (k * ux) == (k * k) * (ux * ux + uy * uy);
    assert (len * ux) * (len * ux) + (len * uy) * (len * uy) == (len * len) * (ux * ux + uy * uy);
  }

  /** Each coordinate of a unit vector lies in [-1, 1]. */
  lemma UnitBounds(ux: real, uy: real)
    requires ux * ux + uy * uy == 1.0
    ensures -1.0 <= ux <= 1.0
  {
  }

  /** The length a normaliser reports squares to the squared norm: it is
      the Euclidean length `normalize()` divides by. */
  lemma PolarLength(p: Polar, d: Vec)
    requires IsPolarOf(p, d)
    ensures p.len * p.len == NormSq(d)
  {
    UnitFactors(p.unit.x, p.unit.y, p.len, 1.0);
  }

  lemma SquareRootUnique(a: real, b: real)
    requires 0.0 < a && 0.0 < b && a * a == b * b
    ensures a == b
  {
    assert (a - b) * (a + b) == a * a - b * b;
  }

  lemma CancelFactor(k: real, x: real, y: real)
    requires k != 0.0 && k * x == k * y
    ensures x == y
  {
    assert k * (x - y) == 0.0;
  }

  /** A vector has one length and direction: any two normalisers agree. */
  lemma PolarUnique(p: Polar, q: Polar, d: Vec)
    requires IsPolarOf(p, d) && IsPolarOf(q, d)
    ensures p == q
  {
    PolarLength(p, d);
    PolarLength(q, d);
    SquareRootUnique(p.len, q.len);
    CancelFactor(p.len, p.unit.x, q.unit.x);
    CancelFactor(p.len, p.unit.y, q.unit.y);
  }

  // ---------------------------------------------------------------------
  // One sample's frame

  /** The road frame at one sample: the curve point, the normal spoke
      (`UNIT_Normal * normal_length`) and the border reach
      (`UNIT_Normal * (normal_length + border_length)`), where `UNIT_Normal`
      is the normalised tangent turned by `(-T.y, T.x)`. */
  datatype Frame = Frame(center: Vec, normal: Vec, border: Vec)

  /** The frame around `center` for a tangent of length and direction
      `tangent`. */
  function FrameAt(center: Vec, tangent: Polar): (f: Frame)
    ensures f.center == center
    ensures f.border == Scale((NormalLength + BorderLength) / NormalLength, f.normal)
  {
    var n := LeftNormal(tangent.unit);
    Frame(center, Scale(NormalLength, n), Scale(NormalLength + BorderLength, n))
  }

  /** For the tangent `d`, the normal spoke is perpendicular to it, points to
      its left in x-right/y-up terms (`Cross(d, normal) > 0`; in pygame's
      y-down pixels that is the right of the direction of travel), and is
      exactly 15 long; the border reach is perpendicular too and exactly 25
      long. */
  lemma FrameGeometry(center: Vec, d: Vec, tangent: Polar)
    requires IsPolarOf(tangent, d)
    ensures var f := FrameAt(center, tangent);
      && Dot(f.normal, d) == 0.0
      && Dot(f.border, d) == 0.0
      && Cross(d, f.normal) == NormalLength * tangent.len
      && 0.0 < Cross(d, f.normal)
      && NormSq(f.normal) == NormalLength * NormalLength
      && NormSq(f.border) == (NormalLength + BorderLength) * (NormalLength + BorderLength)
  {
    var u := tangent.unit;
    UnitFactors(u.x, u.y, tangent.len, NormalLength);
    UnitFactors(u.x, u.y, tangent.len, NormalLength + BorderLength);
  }

  /** The frame at parameter `t` of segment `s`. */
  function SampleFrame(s: Segment, t: real, tangent: Polar): (f: Frame)
    requires IsPolarOf(tangent, Derivative(s, t))
    ensures f.center == Position(s, t)
    ensures Dot(f.normal, Derivative(s, t)) == 0.0
    ensures Cross(Derivative(s, t), f.normal) == NormalLength * tangent.len
    ensures NormSq(f.normal) == NormalLength * NormalLength
    ensures f.border == Scale((NormalLength + BorderLength) / NormalLength, f.normal)
  {
    var d := Derivative(s, t);
    FrameGeometry(Position(s, t), d, tangent);
    FrameAt(Position(s, t), tangent)
  }

  /** A pixel lies within one pixel of an exact point along each axis. */
  predicate Near(q: Point, v: Vec) {
    -1.0 < v.x - q.x as real < 1.0 && -1.0 < v.y - q.y as real < 1.0
  }

  /** The pixel `(int(v.x), int(v.y))`: within one pixel of `v`, and on the
      non-negative side never past it. */
  function PixelOf(v: Vec): (q: Point)
    ensures Near(q, v)
    ensures 0.0 <= v.x ==> 0 <= q.x && q.x as real <= v.x
    ensures 0.0 <= v.y ==> 0 <= q.y && q.y as real <= v.y
  {
    Point(Trunc(v.x), Trunc(v.y))
  }

  /** The five pixel positions each sample draws between: the curve point,
      the two normal ends and the two border ends. */
  datatype Spokes = Spokes(start: Point, outerNormal: Point, innerNormal: Point,
                           outerBorder: Point, innerBorder: Point)

  /** The pixel ends `(int(p[0] ± normal.x), int(p[1] ± normal.y))` and
      the same with the border reach: each within one pixel of the exact
      point it stands for. */
  function SpokesOf(f: Frame): (k: Spokes)
    ensures Near(k.start, f.center)
    ensures Near(k.outerNormal, Add(f.center, f.normal)) && Near(k.innerNormal, Sub(f.center, f.normal))
    ensures Near(k.outerBorder, Add(f.center, f.border)) && Near(k.innerBorder, Sub(f.center, f.border))
  {
    Spokes(PixelOf(f.center),
           PixelOf(Add(f.center, f.normal)), PixelOf(Sub(f.center, f.normal)),
           PixelOf(Add(f.center, f.border)), PixelOf(Sub(f.center, f.border)))
  }

  /** One axis of the spokes: with a unit coordinate `n`, the pixel ends
      of the spoke `c ± 15n` and of the band `c ± 15n .. c ± 25n`. */
  lemma SpokeAxis(c: real, n: real)
    requires -1.0 <= n <= 1.0
    ensures -15 <= Trunc(c + NormalLength * n) - Trunc(c) <= 15
    ensures -15 <= Trunc(c - NormalLength * n) - Trunc(c) <= 15
    ensures -10 <= Trunc(c + (NormalLength + BorderLength) * n) - Trunc(c + NormalLength * n) <= 10
    ensures -10 <= Trunc(c - (NormalLength + BorderLength) * n) - Trunc(c - NormalLength * n) <= 10
  {
    TruncSpread(c + NormalLength * n, c, 15);
    TruncSpread(c - NormalLength * n, c, 15);
    TruncSpread(c + (NormalLength + BorderLength) * n, c + NormalLength * n, 10);
    TruncSpread(c - (NormalLength + BorderLength) * n, c - NormalLength * n, 10);
  }

  /** Truncation aside, the spokes have the lengths the frame gives them:
      each normal spoke spans at most 15 pixels along either axis and each
      border band at most 10, so a border gradient writes at most 10 pixels. */
  lemma SpokeLengths(center: Vec, tangent: Polar)
    requires NormSq(tangent.unit) == 1.0
    ensures var k := SpokesOf(FrameAt(center, tangent));
      && Distance(k.start, k.outerNormal) <= 15
      && Distance(k.start, k.innerNormal) <= 15
      && Distance(k.outerNormal, k.outerBorder) <= 10
      && Distance(k.innerNormal, k.innerBorder) <= 10
  {
    UnitBounds(tangent.unit.x, tangent.unit.y);
    UnitBounds(tangent.unit.y, tangent.unit.x);
    BoundedSpokeLengths(center, tangent.unit);
  }

  lemma BoundedSpokeLengths(center: Vec, u: Vec)
    requires -1.0 <= u.x <= 1.0 && -1.0 <= u.y <= 1.0
    ensures var k := SpokesOf(FrameAt(center, Polar(1.0, u)));
      && Distance(k.start, k.outerNormal) <= 15
      && Distance(k.start, k.innerNormal) <= 15
      && Distance(k.outerNormal, k.outerBorder) <= 10
      && Distance(k.innerNormal, k.innerBorder) <= 10
  {
    var k := SpokesOf(FrameAt(center, Polar(1.0, u)));
    SpokesAlongX(center, u);
    SpokesAlongY(center, u);
    DistanceWithin(k.start, k.outerNormal, 15);
    DistanceWithin(k.start, k.innerNormal, 15);
    DistanceWithin(k.outerNormal, k.outerBorder, 10);
    DistanceWithin(k.innerNormal, k.innerBorder, 10);
  }

  /** Two pixels within `w` of each other along both axes are at most `w`
      apart in the gradient's step count. */
  lemma DistanceWithin(a: Point, b: Point, w: int)
    requires -w <= b.x - a.x <= w && -w <= b.y - a.y <= w
    ensures Distance(a, b) <= w
  {
  }

  lemma SpokesAlongX(center: Vec, u: Vec)
    requires -1.0 <= u.y <= 1.0
    ensures var k := SpokesOf(FrameAt(center, Polar(1.0, u)));
      && -15 <= k.outerNormal.x - k.start.x <= 15 && -15 <= k.innerNormal.x - k.start.x <= 15
      && -10 <= k.outerBorder.x - k.outerNormal.x <= 10 && -10 <= k.innerBorder.x - k.innerNormal.x <= 10
  {
    var f := FrameAt(center, Polar(1.0, u));
    assert f.normal.x == NormalLength * -u.y;
    assert f.border.x == (NormalLength + BorderLength) * -u.y;
    SpokeAxis(center.x, -u.y);
  }

  lemma SpokesAlongY(center: Vec, u: Vec)
    requires -1.0 <= u.x <= 1.0
    ensures var k := SpokesOf(FrameAt(center, Polar(1.0, u)));
      && -15 <= k.outerNormal.y - k.start.y <= 15 && -15 <= k.innerNormal.y - k.start.y <= 15
      && -10 <= k.outerBorder.y - k.outerNormal.y <= 10 && -10 <= k.innerBorder.y - k.innerNormal.y <= 10
  {
    var f := FrameAt(center, Polar(1.0, u));
    assert f.normal.y == NormalLength * u.x;
    assert f.border.y == (NormalLength + BorderLength) * u.x;
    SpokeAxis(center.y, u.x);
  }

  /** The spokes of the sample at `t`, for a non-zero tangent. */
  function SampleSpokes(s: Segment, t: real, norm: Vec -> Polar): Spokes
    requires IsNormalizer(norm) && Derivative(s, t) != Zero
  {
    SpokesOf(SampleFrame(s, t, norm(Derivative(s, t))))
  }

  // ---------------------------------------------------------------------
  // Draw calls and exceptions

  /** One `pygame.draw` call: the radius-1 circle at the curve point, a
      line, or the one-pixel line the gradient rasteriser writes. */
  datatype Draw =
    | Disc(center: Point, color: seq<int>)
    | Stroke(from: Point, to: Point, color: seq<int>)
    | Dab(plot: Plot)

  function ColorOf(d: Draw): seq<int> {
    match d
    case Disc(_, c) => c
    case Stroke(_, _, c) => c
    case Dab(p) => p.color
  }

  /** A colour pygame accepts: every channel in [0, 255]. */
  predicate ValidColor(c: seq<int>) {
    forall i :: 0 <= i < |c| ==> 0 <= c[i] <= 255
  }

  /** Why a render stops: `normalize()` of a zero tangent or of a zero second
      derivative raises, and so does `get_at` outside the image. */
  datatype Fault = ZeroTangent | ZeroSecondDerivative | OffImage(at: Point)

  /** The draw calls made, in order, or the exception that ended the render. */
  datatype Outcome = Drawn(draws: seq<Draw>) | Raised(fault: Fault)

  /** Running `a` and then `b`: an exception in `a` means `b` never runs. */
  function Then(a: Outcome, b: Outcome): (o: Outcome)
    ensures o.Drawn? <==> a.Drawn? && b.Drawn?
    ensures a.Raised? ==> o == a
  {
    match a
    case Raised(_) => a
    case Drawn(x) =>
      match b
      case Raised(_) => b
      case Drawn(y) => Drawn(x + y)
  }

  /** Running each outcome in turn, as a loop over samples or segments does. */
  function Sequence(os: seq<Outcome>): Outcome {
    if |os| == 0 then Drawn([]) else Then(os[0], Sequence(os[1..]))
  }

  function Dabs(ps: seq<Plot>): (ds: seq<Draw>)
    ensures |ds| == |ps|
    ensures forall i :: 0 <= i < |ps| ==> ds[i] == Dab(ps[i])
  {
    seq(|ps|, i requires 0 <= i < |ps| => Dab(ps[i]))
  }

  /** A loop runs to the end exactly when no pass raises. */
  lemma {:induction false} SequenceDrawn(os: seq<Outcome>)
    ensures Sequence(os).Drawn? <==> forall i :: 0 <= i < |os| ==> os[i].Drawn?
  {
    if |os| > 0 {
      SequenceDrawn(os[1..]);
      assert forall i :: 1 <= i < |os| ==> os[i] == os[1..][i - 1];
    }
  }

  /** When a loop raises, it raises the exception of its first failing pass:
      every earlier pass drew. */
  lemma {:induction false} SequenceFirstFault(os: seq<Outcome>)
    requires Sequence(os).Raised?
    ensures exists i :: (0 <= i < |os| && os[i] == Sequence(os)
      && forall j :: 0 <= j < i ==> os[j].Drawn?)
  {
    if os[0].Raised? {
      assert os[0] == Sequence(os);
    } else {
      SequenceFirstFault(os[1..]);
      var i :| 0 <= i < |os[1..]| && os[1..][i] == Sequence(os[1..])
        && forall j :: 0 <= j < i ==> os[1..][j].Drawn?;
      assert os[i + 1] == Sequence(os);
      assert forall j :: 0 <= j < i + 1 ==> os[j].Drawn? by {
        forall j | 0 <= j < i + 1 ensures os[j].Drawn? {
          if j > 0 { assert os[j] == os[1..][j - 1]; }
        }
      }
    }
  }

  // ---------------------------------------------------------------------
  // Export: `export_draw_bezier_curve`

  /** The road colour from the terrain: the mean brightness of the window
      around the sample's pixel, truncated, as an opaque gray. */
  function RoadGray(hm: Heightmap, at: Point): (c: seq<int>)
    ensures |c| == 4 && ValidColor(c)
    ensures c[0] == c[1] == c[2] && c[3] == 255
  {
    var avg := AverageBrightness(hm, at.x, at.y, NeighborhoodSize);
    TruncBetween(avg, 0, 255);
    Gray(Trunc(avg))
  }

  /** One pass of the export loop: the two normal spokes in the road colour,
      then a gradient from each normal end to its border end, blending the
      road colour into the map colour read at the border end. */
  function ExportStep(hm: Heightmap, s: Segment, t: real, norm: Vec -> Polar): (o: Outcome)
    requires IsNormalizer(norm)
    ensures Derivative(s, t) == Zero ==> o == Raised(ZeroTangent)
    ensures Derivative(s, t) != Zero ==> var k := SampleSpokes(s, t, norm);
      (o.Drawn? <==> InBounds(hm, k.outerBorder.x, k.outerBorder.y) && InBounds(hm, k.innerBorder.x, k.innerBorder.y))
    ensures o.Drawn? ==> 2 <= |o.draws| <= 22
  {
    var d := Derivative(s, t);
    if d == Zero then Raised(ZeroTangent)
    else
      var k := SampleSpokes(s, t, norm);
      SpokeLengths(Position(s, t), norm(d));
      var road := RoadGray(hm, k.start);
      if !InBounds(hm, k.outerBorder.x, k.outerBorder.y) then Raised(OffImage(k.outerBorder))
      else if !InBounds(hm, k.innerBorder.x, k.innerBorder.y) then Raised(OffImage(k.innerBorder))
      else
        var outer := GradientLine(k.outerNormal, k.outerBorder, road, Channels(hm.at(k.outerBorder.x, k.outerBorder.y)));
        var inner := GradientLine(k.innerNormal, k.innerBorder, road, Channels(hm.at(k.innerBorder.x, k.innerBorder.y)));
        Drawn([Stroke(k.start, k.outerNormal, road), Stroke(k.start, k.innerNormal, road)] + Dabs(outer) + Dabs(inner))
  }

  /** `export_draw_bezier_curve` over all `gran + 1` samples: the curve
      renders to the end exactly when every one of its samples does. */
  function ExportCurve(hm: Heightmap, s: Segment, gran: nat, norm: Vec -> Polar): (o: Outcome)
    requires IsNormalizer(norm) && 0 < gran
    ensures o.Drawn? <==> forall k :: 0 <= k <= gran ==> ExportStep(hm, s, SampleTime(k, gran), norm).Drawn?
  {
    var os := seq(gran + 1, k requires 0 <= k <= gran => ExportStep(hm, s, SampleTime(k, gran), norm));
    SequenceDrawn(os);
    assert forall k :: 0 <= k <= gran ==> os[k] == ExportStep(hm, s, SampleTime(k, gran), norm);
    Sequence(os)
  }

  /** `int(p[0]), int(p[1])` on a click location. */
  function ExportPoint(p: Point): Vec { Vec(Trunc(p.x as real) as real, Trunc(p.y as real) as real) }

  function ExportSegment(q: Quad): Segment {
    Segment(ExportPoint(q.p0), ExportPoint(q.p1), ExportPoint(q.p2), ExportPoint(q.p3))
  }

  /** `export_map_image`: every segment of the partition at 5000 samples,
      against the map image as the terrain. The map is saved only when every
      segment renders completely; otherwise the first failing segment's
      exception is the result. */
  function ExportMap(hm: Heightmap, points: seq<Point>, norm: Vec -> Polar): (o: Outcome)
    requires IsNormalizer(norm)
    ensures var segs := SegmentsOf(points);
      o.Drawn? <==> forall i :: 0 <= i < |segs| ==> ExportCurve(hm, ExportSegment(segs[i]), ExportGranularity, norm).Drawn?
  {
    var segs := SegmentsOf(points);
    var os := seq(|segs|, i requires 0 <= i < |segs| => ExportCurve(hm, ExportSegment(segs[i]), ExportGranularity, norm));
    SequenceDrawn(os);
    assert forall i :: 0 <= i < |segs| ==> os[i] == ExportCurve(hm, ExportSegment(segs[i]), ExportGranularity, norm);
    Sequence(os)
  }

  // ---------------------------------------------------------------------
  // Live view: `draw_bezier_curve`

  /** The live view passes no heightmap (fixed red and green spokes); with
      one, both spokes take the terrain gray. */
  datatype Shading = Fixed | Shaded(hm: Heightmap)

  /** One pass of the view loop with the unused second-derivative
      normalisation dropped (the corrected pass; `ViewStepAsWritten` is the
      program's): the curve point, the two spokes and the two purple border
      segments. */
  function ViewStep(s: Segment, t: real, norm: Vec -> Polar, shading: Shading): (o: Outcome)
    requires IsNormalizer(norm)
    ensures o.Drawn? <==> Derivative(s, t) != Zero
    ensures o.Raised? ==> o.fault == ZeroTangent
    ensures o.Drawn? ==> |o.draws| == 5 && o.draws[0] == Disc(PixelOf(Position(s, t)), Blue)
  {
    var d := Derivative(s, t);
    if d == Zero then Raised(ZeroTangent)
    else
      var k := SampleSpokes(s, t, norm);
      var outerColor := if shading.Fixed? then Red else RoadGray(shading.hm, k.start);
      var innerColor := if shading.Fixed? then Green else outerColor;
      Drawn([Disc(k.start, Blue),
             Stroke(k.start, k.outerNormal, outerColor), Stroke(k.start, k.innerNormal, innerColor),
             Stroke(k.outerNormal, k.outerBorder, Purple), Stroke(k.innerNormal, k.innerBorder, Purple)])
  }

  /** The view pass as written, which also normalises the second derivative
      before drawing anything, although that vector is never drawn. */
  function ViewStepAsWritten(s: Segment, t: real, norm: Vec -> Polar, shading: Shading): (o: Outcome)
    requires IsNormalizer(norm)
    ensures o.Drawn? <==> Derivative(s, t) != Zero && SecondDerivative(s, t) != Zero
    ensures o.Raised? ==> o.fault == (if Derivative(s, t) == Zero then ZeroTangent else ZeroSecondDerivative)
  {
    if Derivative(s, t) == Zero then Raised(ZeroTangent)
    else if SecondDerivative(s, t) == Zero then Raised(ZeroSecondDerivative)
    else ViewStep(s, t, norm, shading)
  }

  /** `draw_bezier_curve` over all 1201 samples, built on the corrected pass:
      the curve draws exactly when its tangent is non-zero at every sample,
      since nothing else in a corrected pass can fail. */
  function ViewCurve(s: Segment, norm: Vec -> Polar, shading: Shading): (o: Outcome)
    requires IsNormalizer(norm)
    ensures o.Drawn? <==> forall k :: 0 <= k <= ViewGranularity ==> Derivative(s, SampleTime(k, ViewGranularity)) != Zero
  {
    var os := seq(ViewGranularity + 1, k requires 0 <= k <= ViewGranularity =>
      ViewStep(s, SampleTime(k, ViewGranularity), norm, shading));
    SequenceDrawn(os);
    assert forall k :: 0 <= k <= ViewGranularity ==> os[k] == ViewStep(s, SampleTime(k, ViewGranularity), norm, shading);
    Sequence(os)
  }

  /** `draw_bezier_curve` as written: every sample also normalises the
      second derivative, so the curve draws exactly when both the tangent and
      the second derivative are non-zero at every sample. */
  function ViewCurveAsWritten(s: Segment, norm: Vec -> Polar, shading: Shading): (o: Outcome)
    requires IsNormalizer(norm)
    ensures o.Drawn? <==> forall k :: 0 <= k <= ViewGranularity ==>
      Derivative(s, SampleTime(k, ViewGranularity)) != Zero && SecondDerivative(s, SampleTime(k, ViewGranularity)) != Zero
  {
    var os := seq(ViewGranularity + 1, k requires 0 <= k <= ViewGranularity =>
      ViewStepAsWritten(s, SampleTime(k, ViewGranularity), norm, shading));
    SequenceDrawn(os);
    assert forall k :: 0 <= k <= ViewGranularity ==> os[k] == ViewStepAsWritten(s, SampleTime(k, ViewGranularity), norm, shading);
    Sequence(os)
  }

  /** `(int(p[0] * zoom + offset[0]), int(p[1] * zoom + offset[1]))`: the
      click scaled and shifted into the window, to within one pixel; at zoom
      1 exactly the click shifted by the offset. */
  function ScaledPoint(p: Point, zoom: real, offset: Point): (r: Vec)
    ensures -1.0 < p.x as real * zoom + offset.x as real - r.x < 1.0
    ensures -1.0 < p.y as real * zoom + offset.y as real - r.y < 1.0
    ensures zoom == 1.0 ==> r == ToVec(Shift(p, offset))
  {
    var x := Trunc(p.x as real * zoom + offset.x as real);
    var y := Trunc(p.y as real * zoom + offset.y as real);
    ScaledAtOne(p.x, offset.x, zoom);
    ScaledAtOne(p.y, offset.y, zoom);
    assert zoom == 1.0 ==> x == p.x + offset.x && y == p.y + offset.y;
    Vec(x as real, y as real)
  }

  /** At zoom 1, `int(n * zoom + o)` on integers is `n + o`. */
  lemma ScaledAtOne(n: int, o: int, zoom: real)
    ensures zoom == 1.0 ==> Trunc(n as real * zoom + o as real) == n + o
  {
    if zoom == 1.0 {
      assert n as real * zoom + o as real == (n + o) as real;
      TruncOfInt(n + o);
    }
  }

  function ViewSegment(q: Quad, zoom: real, offset: Point): Segment {
    Segment(ScaledPoint(q.p0, zoom, offset), ScaledPoint(q.p1, zoom, offset),
            ScaledPoint(q.p2, zoom, offset), ScaledPoint(q.p3, zoom, offset))
  }

  /** The main loop's curve pass with the corrected view: every segment of
      the partition, scaled to the window, with no heightmap. It draws
      exactly when every segment does. */
  function ViewMap(points: seq<Point>, zoom: real, offset: Point, norm: Vec -> Polar): (o: Outcome)
    requires IsNormalizer(norm)
    ensures var segs := SegmentsOf(points);
      o.Drawn? <==> forall i :: 0 <= i < |segs| ==> ViewCurve(ViewSegment(segs[i], zoom, offset), norm, Fixed).Drawn?
  {
    var segs := SegmentsOf(points);
    var os := seq(|segs|, i requires 0 <= i < |segs| => ViewCurve(ViewSegment(segs[i], zoom, offset), norm, Fixed));
    SequenceDrawn(os);
    assert forall i :: 0 <= i < |segs| ==> os[i] == ViewCurve(ViewSegment(segs[i], zoom, offset), norm, Fixed);
    Sequence(os)
  }

  /** The main loop's curve pass as written, on `ViewCurveAsWritten`. */
  function ViewMapAsWritten(points: seq<Point>, zoom: real, offset: Point, norm: Vec -> Polar): (o: Outcome)
    requires IsNormalizer(norm)
    ensures var segs := SegmentsOf(points);
      o.Drawn? <==> forall i :: 0 <= i < |segs| ==> ViewCurveAsWritten(ViewSegment(segs[i], zoom, offset), norm, Fixed).Drawn?
  {
    var segs := SegmentsOf(points);
    var os := seq(|segs|, i requires 0 <= i < |segs| => ViewCurveAsWritten(ViewSegment(segs[i], zoom, offset), norm, Fixed));
    SequenceDrawn(os);
    assert forall i :: 0 <= i < |segs| ==> os[i] == ViewCurveAsWritten(ViewSegment(segs[i], zoom, offset), norm, Fixed);
    Sequence(os)
  }

  // ---------------------------------------------------------------------
  // Properties of the renderers

  /** A loop whose first pass raises raises that exception. */
  lemma FirstPassRaises(os: seq<Outcome>)
    requires 0 < |os| && os[0].Raised?
    ensures Sequence(os) == os[0]
  {
  }

  /** A loop in which every pass that raises raises `f` raises `f`, if at
      all. */
  lemma OnlyFault(os: seq<Outcome>, f: Fault)
    requires forall i :: 0 <= i < |os| ==> os[i].Raised? ==> os[i].fault == f
    ensures Sequence(os).Raised? ==> Sequence(os) == Raised(f)
  {
    if Sequence(os).Raised? {
      SequenceFirstFault(os);
    }
  }

  /** Two coinciding clicks at the start of a segment give a zero tangent at
      t = 0, so both renderers, the program's live view and the corrected
      one raise on their very first sample. */
  lemma RepeatedStartRaises(hm: Heightmap, s: Segment, gran: nat, norm: Vec -> Polar, shading: Shading)
    requires IsNormalizer(norm) && 0 < gran && s.p0 == s.p1
    ensures ExportCurve(hm, s, gran, norm) == Raised(ZeroTangent)
    ensures ViewCurve(s, norm, shading) == Raised(ZeroTangent)
    ensures ViewCurveAsWritten(s, norm, shading) == Raised(ZeroTangent)
  {
    assert Derivative(s, 0.0) == Scale(3.0, Sub(s.p1, s.p0));
    var os := seq(gran + 1, k requires 0 <= k <= gran => ExportStep(hm, s, SampleTime(k, gran), norm));
    assert os[0] == ExportStep(hm, s, 0.0, norm);
    FirstPassRaises(os);
    var vs := seq(ViewGranularity + 1, k requires 0 <= k <= ViewGranularity =>
      ViewStep(s, SampleTime(k, ViewGranularity), norm, shading));
    assert vs[0] == ViewStep(s, 0.0, norm, shading);
    FirstPassRaises(vs);
    var ws := seq(ViewGranularity + 1, k requires 0 <= k <= ViewGranularity =>
      ViewStepAsWritten(s, SampleTime(k, ViewGranularity), norm, shading));
    assert ws[0] == ViewStepAsWritten(s, 0.0, norm, shading);
    FirstPassRaises(ws);
  }

  /** Two coinciding clicks at the end of a segment give a zero tangent at
      t = 1: no render can complete, the program's live view included. */
  lemma RepeatedEndRaises(hm: Heightmap, s: Segment, gran: nat, norm: Vec -> Polar, shading: Shading)
    requires IsNormalizer(norm) && 0 < gran && s.p2 == s.p3
    ensures ExportCurve(hm, s, gran, norm).Raised?
    ensures ViewCurve(s, norm, shading) == Raised(ZeroTangent)
    ensures ViewCurveAsWritten(s, norm, shading).Raised?
  {
    assert Derivative(s, 1.0) == Scale(3.0, Sub(s.p3, s.p2));
    assert ExportStep(hm, s, SampleTime(gran, gran), norm).Raised?;
    assert Derivative(s, SampleTime(ViewGranularity, ViewGranularity)) == Zero;
    var vs := seq(ViewGranularity + 1, k requires 0 <= k <= ViewGranularity =>
      ViewStep(s, SampleTime(k, ViewGranularity), norm, shading));
    OnlyFault(vs, ZeroTangent);
  }

  /** With fewer than four clicks there is no segment: the export writes only
      the map and neither view draws a curve. */
  lemma FewPointsDrawNothing(hm: Heightmap, points: seq<Point>, zoom: real, offset: Point, norm: Vec -> Polar)
    requires IsNormalizer(norm) && |points| < 4
    ensures ExportMap(hm, points, norm) == Drawn([])
    ensures ViewMap(points, zoom, offset, norm) == Drawn([])
    ensures ViewMapAsWritten(points, zoom, offset, norm) == Drawn([])
  {
  }

  /** Every colour the export hands to pygame is valid: the road gray, and
      each gradient pixel, whose channels lie between the road gray's and the
      map colour's. */
  lemma ExportColorsValid(hm: Heightmap, s: Segment, t: real, norm: Vec -> Polar)
    requires IsNormalizer(norm)
    ensures var o := ExportStep(hm, s, t, norm);
      o.Drawn? ==> forall i :: 0 <= i < |o.draws| ==> ValidColor(ColorOf(o.draws[i]))
  {
    var o := ExportStep(hm, s, t, norm);
    if o.Drawn? {
      var k := SampleSpokes(s, t, norm);
      var road := RoadGray(hm, k.start);
      var outerMap := Channels(hm.at(k.outerBorder.x, k.outerBorder.y));
      var innerMap := Channels(hm.at(k.innerBorder.x, k.innerBorder.y));
      GradientColorsValid(k.outerNormal, k.outerBorder, road, outerMap);
      GradientColorsValid(k.innerNormal, k.innerBorder, road, innerMap);
      var outer := GradientLine(k.outerNormal, k.outerBorder, road, outerMap);
      var inner := GradientLine(k.innerNormal, k.innerBorder, road, innerMap);
      assert o.draws == [Stroke(k.start, k.outerNormal, road), Stroke(k.start, k.innerNormal, road)] + Dabs(outer) + Dabs(inner);
    }
  }

  /** A gradient between two valid colours writes only valid colours. */
  lemma GradientColorsValid(a: Point, b: Point, c1: seq<int>, c2: seq<int>)
    requires ValidColor(c1) && ValidColor(c2)
    ensures forall i :: 0 <= i < Distance(a, b) ==> ValidColor(GradientLine(a, b, c1, c2)[i].color)
  {
    forall i | 0 <= i < Distance(a, b)
      ensures ValidColor(GradientLine(a, b, c1, c2)[i].color)
    {
      PixelBounds(a, b, c1, c2, i);
    }
  }

  /** At zoom 1 the window's integer offset simply moves each click: the
      segment the view draws is the export's segment translated by the
      offset. */
  lemma ZoomOneIsTranslation(q: Quad, offset: Point)
    ensures ViewSegment(q, 1.0, offset) == Translate(ExportSegment(q), ToVec(offset))
  {
    TruncOfInt(q.p0.x + offset.x); TruncOfInt(q.p0.y + offset.y);
    TruncOfInt(q.p1.x + offset.x); TruncOfInt(q.p1.y + offset.y);
    TruncOfInt(q.p2.x + offset.x); TruncOfInt(q.p2.y + offset.y);
    TruncOfInt(q.p3.x + offset.x); TruncOfInt(q.p3.y + offset.y);
    TruncOfInt(q.p0.x); TruncOfInt(q.p0.y);
    TruncOfInt(q.p1.x); TruncOfInt(q.p1.y);
    TruncOfInt(q.p2.x); TruncOfInt(q.p2.y);
    TruncOfInt(q.p3.x); TruncOfInt(q.p3.y);
  }

  /** Translating a segment moves each sample's frame with it and leaves the
      tangent, the normal and the border reach unchanged. */
  lemma TranslatedFrame(s: Segment, o: Vec, t: real, norm: Vec -> Polar)
    requires IsNormalizer(norm) && Derivative(s, t) != Zero
    ensures Derivative(Translate(s, o), t) == Derivative(s, t)
    ensures var f := SampleFrame(s, t, norm(Derivative(s, t)));
      SampleFrame(Translate(s, o), t, norm(Derivative(s, t))) == Frame(Add(f.center, o), f.normal, f.border)
  {
    TranslationInvariance(s, o, t);
  }

  predicate NonNegative(v: Vec) { 0.0 <= v.x && 0.0 <= v.y }

  /** All five exact points of a frame have non-negative coordinates, where
      `int()` and the floor agree. */
  predicate OnCanvas(f: Frame) {
    && NonNegative(f.center)
    && NonNegative(Add(f.center, f.normal)) && NonNegative(Sub(f.center, f.normal))
    && NonNegative(Add(f.center, f.border)) && NonNegative(Sub(f.center, f.border))
  }

  function ShiftSpokes(k: Spokes, o: Point): Spokes {
    Spokes(Shift(k.start, o), Shift(k.outerNormal, o), Shift(k.innerNormal, o),
           Shift(k.outerBorder, o), Shift(k.innerBorder, o))
  }

  lemma PixelShift(v: Vec, o: Point)
    requires NonNegative(v) && NonNegative(Add(v, ToVec(o)))
    ensures PixelOf(Add(v, ToVec(o))) == Shift(PixelOf(v), o)
  {
    TruncShift(v.x, o.x);
    TruncShift(v.y, o.y);
  }

  /** Pixel for pixel, the view at zoom 1 draws the export's spokes shifted
      by the offset, as long as both stay at non-negative coordinates. */
  lemma ViewSpokesAreShiftedExport(q: Quad, offset: Point, t: real, norm: Vec -> Polar)
    requires IsNormalizer(norm) && Derivative(ExportSegment(q), t) != Zero
    requires var f := SampleFrame(ExportSegment(q), t, norm(Derivative(ExportSegment(q), t)));
      OnCanvas(f) && OnCanvas(Frame(Add(f.center, ToVec(offset)), f.normal, f.border))
    ensures Derivative(ViewSegment(q, 1.0, offset), t) != Zero
    ensures SampleSpokes(ViewSegment(q, 1.0, offset), t, norm) == ShiftSpokes(SampleSpokes(ExportSegment(q), t, norm), offset)
  {
    var s := ExportSegment(q);
    var o := ToVec(offset);
    ZoomOneIsTranslation(q, offset);
    TranslatedFrame(s, o, t, norm);
    var f := SampleFrame(s, t, norm(Derivative(s, t)));
    PixelShift(f.center, offset);
    assert Add(Add(f.center, f.normal), o) == Add(Add(f.center, o), f.normal);
    PixelShift(Add(f.center, f.normal), offset);
    assert Add(Sub(f.center, f.normal), o) == Sub(Add(f.center, o), f.normal);
    PixelShift(Sub(f.center, f.normal), offset);
    assert Add(Add(f.center, f.border), o) == Add(Add(f.center, o), f.border);
    PixelShift(Add(f.center, f.border), offset);
    assert Add(Sub(f.center, f.border), o) == Sub(Add(f.center, o), f.border);
    PixelShift(Sub(f.center, f.border), offset);
  }

  // ---------------------------------------------------------------------
  // The second-derivative normalisation

  /** Dropping the unused second-derivative normalisation changes nothing
      wherever the original succeeds, and it is the only difference. */
  lemma ViewStepAgrees(s: Segment, t: real, norm: Vec -> Polar, shading: Shading)
    requires IsNormalizer(norm)
    ensures ViewStepAsWritten(s, t, norm, shading).Drawn? ==> ViewStepAsWritten(s, t, norm, shading) == ViewStep(s, t, norm, shading)
    ensures SecondDerivative(s, t) != Zero ==> ViewStepAsWritten(s, t, norm, shading) == ViewStep(s, t, norm, shading)
  {
  }

  /** Over a whole curve too, the corrected view draws exactly what the
      program draws wherever the program completes. */
  lemma ViewCurveAgrees(s: Segment, norm: Vec -> Polar, shading: Shading)
    requires IsNormalizer(norm)
    ensures ViewCurveAsWritten(s, norm, shading).Drawn? ==> ViewCurveAsWritten(s, norm, shading) == ViewCurve(s, norm, shading)
  {
    if ViewCurveAsWritten(s, norm, shading).Drawn? {
      var os := seq(ViewGranularity + 1, k requires 0 <= k <= ViewGranularity =>
        ViewStepAsWritten(s, SampleTime(k, ViewGranularity), norm, shading));
      var vs := seq(ViewGranularity + 1, k requires 0 <= k <= ViewGranularity =>
        ViewStep(s, SampleTime(k, ViewGranularity), norm, shading));
      forall k | 0 <= k <= ViewGranularity
        ensures os[k] == vs[k]
      {
        ViewStepAgrees(s, SampleTime(k, ViewGranularity), norm, shading);
      }
      assert os == vs;
    }
  }

  /** Four clicks forming a symmetric S: (0,0), (0,10), (8,0), (8,10). */
  const SCurve: Quad := Quad(Point(0, 0), Point(0, 10), Point(8, 0), Point(8, 10))

  lemma SCurveAtHalf()
    ensures var s := Segment(Vec(0.0, 0.0), Vec(0.0, 10.0), Vec(8.0, 0.0), Vec(8.0, 10.0));
      Derivative(s, 0.5) == Vec(12.0, 0.0) && SecondDerivative(s, 0.5) == Zero
  {
  }

  /** At the middle sample (k = 600 of 1200, t = 0.5) the S-curve's tangent
      is (12, 0) while its second derivative is exactly zero (an inflection
      point), so the view as written raises on a perfectly drawable curve;
      without the unused normalisation the sample draws. */
  lemma InflectionRaises(norm: Vec -> Polar)
    requires IsNormalizer(norm)
    ensures var s := ViewSegment(SCurve, 1.0, Point(0, 0));
      var t := SampleTime(600, ViewGranularity);
      && Derivative(s, t) == Vec(12.0, 0.0)
      && SecondDerivative(s, t) == Zero
      && ViewStepAsWritten(s, t, norm, Fixed) == Raised(ZeroSecondDerivative)
      && ViewStep(s, t, norm, Fixed).Drawn?
  {
    var s := ViewSegment(SCurve, 1.0, Point(0, 0));
    var t := SampleTime(600, ViewGranularity);
    SCurveClicks();
    SCurveAtHalf();
    var lit := Segment(Vec(0.0, 0.0), Vec(0.0, 10.0), Vec(8.0, 0.0), Vec(8.0, 10.0));
    assert s == lit && t == 0.5;
    assert Derivative(s, t) == Derivative(lit, 0.5);
    assert SecondDerivative(s, t) == SecondDerivative(lit, 0.5);
  }

  /** The S-curve's clicks, as the view sees them at zoom 1 and no offset. */
  lemma SCurveClicks()
    ensures ViewSegment(SCurve, 1.0, Point(0, 0)) == Segment(Vec(0.0, 0.0), Vec(0.0, 10.0), Vec(8.0, 0.0), Vec(8.0, 10.0))
    ensures SampleTime(600, ViewGranularity) == 0.5
  {
    assert 0 as real * 1.0 + 0 as real == 0 as real;
    assert 10 as real * 1.0 + 0 as real == 10 as real;
    assert 8 as real * 1.0 + 0 as real == 8 as real;
    TruncOfInt(0);
    TruncOfInt(10);
    TruncOfInt(8);
  }

  /** A product of two reals is zero only when a factor is. */
  lemma ZeroProduct(a: real, b: real)
    requires a * b == 0.0
    ensures a == 0.0 || b == 0.0
  {
    if a != 0.0 {
      assert b == (a * b) / a;
    }
  }

  /** The S-curve's horizontal tangent, `48 t (1 - t)`. */
  lemma SCurveTangentX(t: real)
    ensures DerivativeAt(0.0, 0.0, 8.0, 8.0, t) == 48.0 * ((1.0 - t) * t)
  {
  }

  /** The S-curve's tangent, `(48 t (1 - t), 30 (1 - 2t)^2)`, vanishes for no
      t: its x-part is zero only at the ends, where its y-part is 30. */
  lemma SCurveTangent(t: real)
    ensures Derivative(Segment(Vec(0.0, 0.0), Vec(0.0, 10.0), Vec(8.0, 0.0), Vec(8.0, 10.0)), t) != Zero
  {
    SCurveTangentX(t);
    if DerivativeAt(0.0, 0.0, 8.0, 8.0, t) == 0.0 {
      ZeroProduct(1.0 - t, t);
    }
  }

  /** Every one of the 1201 view samples of the S-curve has a non-zero
      tangent. */
  lemma SCurveSampleTangents()
    ensures forall k :: 0 <= k <= ViewGranularity ==>
      Derivative(ViewSegment(SCurve, 1.0, Point(0, 0)), SampleTime(k, ViewGranularity)) != Zero
  {
    SCurveClicks();
    forall k | 0 <= k <= ViewGranularity
      ensures Derivative(ViewSegment(SCurve, 1.0, Point(0, 0)), SampleTime(k, ViewGranularity)) != Zero
    {
      SCurveTangent(SampleTime(k, ViewGranularity));
    }
  }

  /** On a curve whose tangent never vanishes, the program's live view can
      only stop with the second-derivative exception, and it does stop as
      soon as one sample's second derivative is zero. */
  lemma AsWrittenFault(s: Segment, norm: Vec -> Polar, shading: Shading, j: nat)
    requires IsNormalizer(norm)
    requires forall k :: 0 <= k <= ViewGranularity ==> Derivative(s, SampleTime(k, ViewGranularity)) != Zero
    requires j <= ViewGranularity && SecondDerivative(s, SampleTime(j, ViewGranularity)) == Zero
    ensures ViewCurveAsWritten(s, norm, shading) == Raised(ZeroSecondDerivative)
  {
    assert !ViewCurveAsWritten(s, norm, shading).Drawn?;
    var os := seq(ViewGranularity + 1, k requires 0 <= k <= ViewGranularity =>
      ViewStepAsWritten(s, SampleTime(k, ViewGranularity), norm, shading));
    forall i | 0 <= i < |os|
      ensures os[i].Raised? ==> os[i].fault == ZeroSecondDerivative
    {
      assert os[i] == ViewStepAsWritten(s, SampleTime(i, ViewGranularity), norm, shading);
    }
    OnlyFault(os, ZeroSecondDerivative);
  }

  /** The S-curve's second derivative vanishes at view sample 600. */
  lemma SCurveInflection()
    ensures SecondDerivative(ViewSegment(SCurve, 1.0, Point(0, 0)), SampleTime(600, ViewGranularity)) == Zero
  {
    SCurveClicks();
    SCurveAtHalf();
  }

  /** As written, the live view stops on the whole S-curve with the
      second-derivative exception: sample 600 fails and no sample's tangent
      is zero. */
  lemma SCurveViewRaises(norm: Vec -> Polar)
    requires IsNormalizer(norm)
    ensures ViewCurveAsWritten(ViewSegment(SCurve, 1.0, Point(0, 0)), norm, Fixed) == Raised(ZeroSecondDerivative)
  {
    SCurveSampleTangents();
    SCurveInflection();
    AsWrittenFault(ViewSegment(SCurve, 1.0, Point(0, 0)), norm, Fixed, 600);
  }

  /** The whole S-curve: the program's live view stops on it with the
      second-derivative exception, while the corrected view draws all of it. */
  lemma SCurveView(norm: Vec -> Polar)
    requires IsNormalizer(norm)
    ensures var s := ViewSegment(SCurve, 1.0, Point(0, 0));
      && ViewCurveAsWritten(s, norm, Fixed) == Raised(ZeroSecondDerivative)
      && ViewCurve(s, norm, Fixed).Drawn?
  {
    SCurveViewRaises(norm);
    SCurveSampleTangents();
  }

  /** Four evenly spaced clicks on a straight line. */
  const StraightRoad: Quad := Quad(Point(0, 0), Point(1, 0), Point(2, 0), Point(3, 0))

  /** The straight road's tangent is (3, 0) everywhere and its second
      derivative is zero everywhere. */
  lemma StraightRoadFlat(t: real)
    ensures var s := ViewSegment(StraightRoad, 1.0, Point(0, 0));
      Derivative(s, t) == Vec(3.0, 0.0) && SecondDerivative(s, t) == Zero
  {
    var u := 1.0 - t;
    assert DerivativeAt(0.0, 1.0, 2.0, 3.0, t) == 3.0 * ((u + t) * (u + t));
  }

  /** A curve whose first sample has a non-zero tangent but a zero second
      derivative stops the program's live view right there. */
  lemma FirstSampleFault(s: Segment, norm: Vec -> Polar, shading: Shading)
    requires IsNormalizer(norm)
    requires Derivative(s, 0.0) != Zero && SecondDerivative(s, 0.0) == Zero
    ensures ViewCurveAsWritten(s, norm, shading) == Raised(ZeroSecondDerivative)
  {
    var ws := seq(ViewGranularity + 1, k requires 0 <= k <= ViewGranularity =>
      ViewStepAsWritten(s, SampleTime(k, ViewGranularity), norm, shading));
    assert ws[0] == ViewStepAsWritten(s, 0.0, norm, shading);
    FirstPassRaises(ws);
  }

  /** Every view sample of the straight road has a non-zero tangent. */
  lemma StraightRoadTangents()
    ensures forall k :: 0 <= k <= ViewGranularity ==>
      Derivative(ViewSegment(StraightRoad, 1.0, Point(0, 0)), SampleTime(k, ViewGranularity)) != Zero
  {
    forall k | 0 <= k <= ViewGranularity
      ensures Derivative(ViewSegment(StraightRoad, 1.0, Point(0, 0)), SampleTime(k, ViewGranularity)) != Zero
    {
      StraightRoadFlat(SampleTime(k, ViewGranularity));
    }
  }

  /** On a straight road the program's live view stops at the very first
      sample with the second-derivative exception, while the corrected view
      draws the whole road. */
  lemma StraightRoadView(norm: Vec -> Polar)
    requires IsNormalizer(norm)
    ensures var s := ViewSegment(StraightRoad, 1.0, Point(0, 0));
      && ViewCurveAsWritten(s, norm, Fixed) == Raised(ZeroSecondDerivative)
      && ViewCurve(s, norm, Fixed).Drawn?
  {
    StraightRoadRaises(norm);
    StraightRoadTangents();
  }

  /** The program's live view stops on the straight road's first sample. */
  lemma StraightRoadRaises(norm: Vec -> Polar)
    requires IsNormalizer(norm)
    ensures ViewCurveAsWritten(ViewSegment(StraightRoad, 1.0, Point(0, 0)), norm, Fixed) == Raised(ZeroSecondDerivative)
  {
    StraightRoadStart();
    FirstSampleFault(ViewSegment(StraightRoad, 1.0, Point(0, 0)), norm, Fixed);
  }

  lemma StraightRoadStart()
    ensures Derivative(ViewSegment(StraightRoad, 1.0, Point(0, 0)), 0.0) != Zero
    ensures SecondDerivative(ViewSegment(StraightRoad, 1.0, Point(0, 0)), 0.0) == Zero
  {
    StraightRoadFlat(0.0);
  }
}
