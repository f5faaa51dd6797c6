/** `lerp_color` and `draw_gradient_line`: the border blender, which writes
    one pixel per step from a start point toward an end point with a colour
    interpolated channel by channel. The surface itself is not modelled; the
    result is the sequence of pixel writes, in drawing order. */
module Gradient {
  import opened Geometry

  /** One `pygame.draw.line(surface, color, (x, y), (x, y), 1)`: a single
      pixel written with a colour. A colour is the sequence of its channels,
      as Python iterates it (three for a tuple, four for a `pygame.Color`). */
  datatype Plot = Plot(at: Point, color: seq<int>)

  function Min(a: int, b: int): int { if a <= b then a else b }

  function Max(a: int, b: int): int { if a <= b then b else a }

  function Abs(a: int): nat { if a < 0 then -a else a }

  predicate Between(v: int, a: int, b: int) {
    Min(a, b) <= v <= Max(a, b)
  }

  /** `int(a + d * t)`: one interpolation step, truncated as Python does. */
  function Step(a: int, d: int, t: real): int {
    Trunc(a as real + d as real * t)
  }

  /** One channel of `lerp_color`: `int(a + (b - a) * t)`. */
  function LerpChannel(a: int, b: int, t: real): int {
    Step(a, b - a, t)
  }

  /** `lerp_color`: `zip` pairs the channels, so the result is as long as the
      shorter colour. */
  function LerpColor(c1: seq<int>, c2: seq<int>, t: real): (c: seq<int>)
    ensures |c| == Min(|c1|, |c2|)
    ensures forall i :: 0 <= i < |c| ==> c[i] == LerpChannel(c1[i], c2[i], t)
    ensures 0.0 <= t <= 1.0 ==> forall i :: 0 <= i < |c| ==> Between(c[i], c1[i], c2[i])
    ensures t == 0.0 ==> c == c1[..|c|]
  {
    var n := Min(|c1|, |c2|);
    var c := seq(n, i requires 0 <= i < n => LerpChannel(c1[i], c2[i], t));
    if 0.0 <= t <= 1.0 then
      LerpColorBetween(c1, c2, t, c);
      c
    else
      c
  }

  /** `max(abs(dx), abs(dy))`: the number of steps, and of pixels written. */
  function Distance(s: Point, e: Point): nat {
    Max(Abs(e.x - s.x), Abs(e.y - s.y))
  }

  /** The i-th pass of the loop: `t = i / distance`, the pixel
      `(int(x1 + dx * t), int(y1 + dy * t))` and the colour at `t`. */
  function GradientPixel(s: Point, e: Point, c1: seq<int>, c2: seq<int>, i: nat): Plot
    requires i < Distance(s, e)
  {
    var t := i as real / Distance(s, e) as real;
    Plot(Point(Step(s.x, e.x - s.x, t), Step(s.y, e.y - s.y, t)), LerpColor(c1, c2, t))
  }

  /** The whole sequence of writes of one `draw_gradient_line` call. */
  function GradientLine(s: Point, e: Point, c1: seq<int>, c2: seq<int>): (ps: seq<Plot>)
    ensures |ps| == Distance(s, e)
    ensures |ps| == 0 <==> s == e
  {
    var d := Distance(s, e);
    seq(d, i requires 0 <= i < d => GradientPixel(s, e, c1, c2, i))
  }

  /** `draw_gradient_line`: the `for i in range(distance)` loop. When the two
      ends coincide `distance` is 0, the loop body never runs and the
      division `i / distance` is never reached. */
  method DrawGradientLine(s: Point, e: Point, c1: seq<int>, c2: seq<int>) returns (writes: seq<Plot>)
    ensures |writes| == Distance(s, e)
    ensures forall i :: 0 <= i < |writes| ==> writes[i] == GradientPixel(s, e, c1, c2, i)
    ensures writes == GradientLine(s, e, c1, c2)
  {
    var dx, dy := e.x - s.x, e.y - s.y;
    var distance := Max(Abs(dx), Abs(dy));
    writes := [];
    var i := 0;
    while i < distance
      invariant 0 <= i <= distance
      invariant |writes| == i
      invariant forall j :: 0 <= j < i ==> writes[j] == GradientPixel(s, e, c1, c2, j)
    {
      var t := i as real / distance as real;
      var color := LerpColor(c1, c2, t);
      var x := Step(s.x, dx, t);
      var y := Step(s.y, dy, t);
      writes := writes + [Plot(Point(x, y), color)];
      i := i + 1;
    }
  }

  // ---------------------------------------------------------------------
  // Properties

  /** For t in [0, 1], d t lies between 0 and d. */
  lemma ScaleBetween(d: real, t: real)
    requires 0.0 <= t <= 1.0
    ensures d >= 0.0 ==> 0.0 <= d * t <= d
    ensures d < 0.0 ==> d <= d * t <= 0.0
  {
  }

  /** For t in [0, 1], a + (b - a) t lies between a and b. */
  lemma LerpBetween(a: int, b: int, t: real)
    requires 0.0 <= t <= 1.0
    ensures Min(a, b) as real <= a as real + (b - a) as real * t <= Max(a, b) as real
  {
    ScaleBetween((b - a) as real, t);
  }

  lemma LerpChannelBetween(a: int, b: int, t: real)
    requires 0.0 <= t <= 1.0
    ensures Between(LerpChannel(a, b, t), a, b)
  {
    LerpBetween(a, b, t);
    TruncBetween(a as real + (b - a) as real * t, Min(a, b), Max(a, b));
  }

  lemma LerpColorBetween(c1: seq<int>, c2: seq<int>, t: real, c: seq<int>)
    requires 0.0 <= t <= 1.0
    requires |c| == Min(|c1|, |c2|)
    requires forall i :: 0 <= i < |c| ==> c[i] == LerpChannel(c1[i], c2[i], t)
    ensures forall i :: 0 <= i < |c| ==> Between(c[i], c1[i], c2[i])
  {
    forall i | 0 <= i < |c|
      ensures Between(c[i], c1[i], c2[i])
    {
      LerpChannelBetween(c1[i], c2[i], t);
    }
  }

  lemma StepParameter(i: nat, d: nat)
    requires i < d
    ensures 0.0 <= i as real / d as real < 1.0
  {
  }

  /** The first write is the start point in the start colour (t = 0). */
  lemma FirstPixel(s: Point, e: Point, c1: seq<int>, c2: seq<int>)
    requires s != e
    ensures GradientLine(s, e, c1, c2)[0] == Plot(s, c1[..Min(|c1|, |c2|)])
  {
    TruncOfInt(s.x);
    TruncOfInt(s.y);
  }

  /** Every write lies in the bounding box of the two ends, and every channel
      of its colour between the two colours' channels. */
  lemma PixelBounds(s: Point, e: Point, c1: seq<int>, c2: seq<int>, i: nat)
    requires i < Distance(s, e)
    ensures var p := GradientPixel(s, e, c1, c2, i);
      && Between(p.at.x, s.x, e.x) && Between(p.at.y, s.y, e.y)
      && forall k :: 0 <= k < |p.color| ==> Between(p.color[k], c1[k], c2[k])
  {
    var t := i as real / Distance(s, e) as real;
    StepParameter(i, Distance(s, e));
    LerpChannelBetween(s.x, e.x, t);
    LerpChannelBetween(s.y, e.y, t);
    assert GradientPixel(s, e, c1, c2, i).at == Point(LerpChannel(s.x, e.x, t), LerpChannel(s.y, e.y, t));
  }

  /** Stepping by i/|d| of a displacement d moves exactly i units. */
  lemma UnitStep(a: int, d: int, i: nat)
    requires i < Abs(d)
    ensures Step(a, d, i as real / Abs(d) as real) == if 0 <= d then a + i else a - i
  {
    var t := i as real / Abs(d) as real;
    var step: int := if 0 <= d then i as int else -(i as int);
    assert d as real * t == step as real;
    TruncOfInt(a + step);
  }

  /** Along the dominant axis (the one whose extent is the distance) each step
      moves exactly one pixel, so the i-th write sits i pixels from the start
      and, since i < distance, the end coordinate is never written. */
  lemma DominantAxisX(s: Point, e: Point, c1: seq<int>, c2: seq<int>, i: nat)
    requires Abs(e.y - s.y) <= Abs(e.x - s.x)
    requires i < Distance(s, e)
    ensures GradientPixel(s, e, c1, c2, i).at.x == if s.x <= e.x then s.x + i else s.x - i
    ensures GradientPixel(s, e, c1, c2, i).at.x != e.x
  {
    assert Distance(s, e) == Abs(e.x - s.x);
    UnitStep(s.x, e.x - s.x, i);
  }

  lemma DominantAxisY(s: Point, e: Point, c1: seq<int>, c2: seq<int>, i: nat)
    requires Abs(e.x - s.x) <= Abs(e.y - s.y)
    requires i < Distance(s, e)
    ensures GradientPixel(s, e, c1, c2, i).at.y == if s.y <= e.y then s.y + i else s.y - i
    ensures GradientPixel(s, e, c1, c2, i).at.y != e.y
  {
    assert Distance(s, e) == Abs(e.y - s.y);
    UnitStep(s.y, e.y - s.y, i);
  }

  lemma LerpChannelBelowEnd(a: int, b: int, t: real)
    requires 0 <= a < b
    requires 0.0 <= t < 1.0
    ensures LerpChannel(a, b, t) < b
  {
    var d := (b - a) as real;
    ScaleBelow(d, t);
    var v := a as real + d * t;
    assert 0.0 <= v < b as real;
  }

  lemma ScaleBelow(d: real, t: real)
    requires 0.0 < d
    requires 0.0 <= t < 1.0
    ensures 0.0 <= d * t < d
  {
  }

  /** A channel that rises from a non-negative start stays strictly below its
      end value on every write, because t < 1 and truncation rounds down. */
  lemma RisingChannelStaysBelowEnd(s: Point, e: Point, c1: seq<int>, c2: seq<int>, i: nat, k: nat)
    requires i < Distance(s, e)
    requires k < |c1| && k < |c2|
    requires 0 <= c1[k] < c2[k]
    ensures GradientPixel(s, e, c1, c2, i).color[k] < c2[k]
  {
    var t := i as real / Distance(s, e) as real;
    StepParameter(i, Distance(s, e));
    assert GradientPixel(s, e, c1, c2, i).color[k] == LerpChannel(c1[k], c2[k], t);
    LerpChannelBelowEnd(c1[k], c2[k], t);
  }

  /** A falling channel, by contrast, can reach its end value: truncation
      rounds 0.5 down to 0 at the 19th of 20 steps from 10 toward 0. */
  lemma FallingChannelCanReachEnd()
    ensures GradientPixel(Point(0, 0), Point(20, 0), [10], [0], 19).color == [0]
  {
    var t := 19.0 / 20.0;
    assert LerpChannel(10, 0, t) == Trunc(0.5);
  }

  lemma LerpChannelMonotone(a: int, b: int, t: real, t': real)
    requires a <= b && t <= t'
    ensures LerpChannel(a, b, t) <= LerpChannel(a, b, t')
  {
    assert (b - a) as real * t <= (b - a) as real * t';
    TruncMonotone(a as real + (b - a) as real * t, a as real + (b - a) as real * t');
  }

  /** A rising channel never decreases from one write to the next. */
  lemma RisingChannelMonotone(s: Point, e: Point, c1: seq<int>, c2: seq<int>, i: nat, j: nat, k: nat)
    requires i <= j < Distance(s, e)
    requires k < |c1| && k < |c2|
    requires c1[k] <= c2[k]
    ensures GradientPixel(s, e, c1, c2, i).color[k] <= GradientPixel(s, e, c1, c2, j).color[k]
  {
    var d := Distance(s, e) as real;
    var ti, tj := i as real / d, j as real / d;
    DivideMonotone(i as real, j as real, d);
    LerpChannelMonotone(c1[k], c2[k], ti, tj);
  }

  /** A ten-pixel black-to-white run: it starts black at (0, 0) and, since t
      stops at 9/10, ends at (9, 0) with 229 in every channel. */
  lemma BlackToWhite()
    ensures var ps := GradientLine(Point(0, 0), Point(10, 0), [0, 0, 0], [255, 255, 255]);
      && |ps| == 10
      && ps[0] == Plot(Point(0, 0), [0, 0, 0])
      && ps[9] == Plot(Point(9, 0), [229, 229, 229])
  {
    var ps := GradientLine(Point(0, 0), Point(10, 0), [0, 0, 0], [255, 255, 255]);
    FirstPixel(Point(0, 0), Point(10, 0), [0, 0, 0], [255, 255, 255]);
    DominantAxisX(Point(0, 0), Point(10, 0), [0, 0, 0], [255, 255, 255], 9);
    assert 0.0 + 0.0 * (9.0 / 10.0) == 0.0;
    assert Trunc(0.0 + 0.0 * (9 as real / 10 as real)) == 0;
    assert LerpChannel(0, 255, 9 as real / 10 as real) == Trunc(229.5);
  }
}
