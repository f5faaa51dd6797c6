/** The road network's control points and the stride-3 partition both the
    live view and the export apply to them: `for i in range(0, n - 3, 3)`
    takes the points i..i+3 as one cubic segment, so consecutive segments
    share their joint point and a trailing one or two points stay unused. */
module Segments {
  import opened Geometry

  /** Four consecutive control points, `curve_points` in the loop body. */
  datatype Quad = Quad(p0: Point, p1: Point, p2: Point, p3: Point)

  /** Number of passes of `range(0, n - 3, 3)`: none below four points,
      otherwise (n - 1) div 3. */
  function SegmentCount(n: int): nat {
    if n < 4 then 0 else (n - 1) / 3
  }

  function QuadAt(points: seq<Point>, i: nat): Quad
    requires i + 3 < |points|
  {
    Quad(points[i], points[i + 1], points[i + 2], points[i + 3])
  }

  /** The segments in drawing order: segment k starts at index 3k. */
  function SegmentsOf(points: seq<Point>): (segs: seq<Quad>)
    ensures |segs| == SegmentCount(|points|)
    ensures forall k :: 0 <= k < |segs| ==> 3 * k + 3 < |points|
  {
    var m := SegmentCount(|points|);
    seq(m, k requires 0 <= k < m => QuadAt(points, 3 * k))
  }

  /** The `for i in range(0, len(points) - 3, 3)` loop that collects
      `[points[i], points[i+1], points[i+2], points[i+3]]` on each pass. */
  method Partition(points: seq<Point>) returns (segs: seq<Quad>)
    ensures |segs| == SegmentCount(|points|)
    ensures forall k :: 0 <= k < |segs| ==> 3 * k + 3 < |points| && segs[k] == QuadAt(points, 3 * k)
    ensures segs == SegmentsOf(points)
  {
    segs := [];
    var i := 0;
    while i < |points| - 3
      invariant i == 3 * |segs|
      invariant i == 0 || i < |points|
      invariant forall k :: 0 <= k < |segs| ==> 3 * k + 3 < |points| && segs[k] == QuadAt(points, 3 * k)
    {
      segs := segs + [Quad(points[i], points[i + 1], points[i + 2], points[i + 3])];
      i := i + 3;
    }
  }

  // ---------------------------------------------------------------------
  // Properties

  /** Segment k's last point is segment k+1's first: positional continuity. */
  lemma SharedJoint(points: seq<Point>, k: nat)
    requires k + 1 < |SegmentsOf(points)|
    ensures SegmentsOf(points)[k].p3 == SegmentsOf(points)[k + 1].p0
  {
  }

  /** Points are consumed three at a time plus the shared joint: with four or
      more points, the used indices are exactly 0 .. 3m for m segments, and
      the unused tail has zero, one or two points. */
  lemma UsedIndices(n: nat)
    requires 4 <= n
    ensures 1 <= SegmentCount(n)
    ensures n - 3 <= 3 * SegmentCount(n) <= n - 1
  {
  }

  predicate Covered(n: nat, j: nat) {
    exists k :: 0 <= k < SegmentCount(n) && 3 * k <= j <= 3 * k + 3
  }

  /** An index is drawn by some segment exactly when it is at most 3m. */
  lemma CoveredIndices(n: nat, j: nat)
    requires j < n
    ensures Covered(n, j) <==> 4 <= n && j <= 3 * SegmentCount(n)
  {
    var m := SegmentCount(n);
    if 4 <= n && j <= 3 * m {
      var k := if j / 3 < m then j / 3 else m - 1;
      assert 3 * k <= j <= 3 * k + 3;
    }
  }

  /** Four points make exactly one segment; seven make two that share the
      fourth point; three make none. */
  lemma SmallNetworks(a: Point, b: Point, c: Point, d: Point, e: Point, f: Point, g: Point)
    ensures SegmentsOf([a, b, c]) == []
    ensures SegmentsOf([a, b, c, d]) == [Quad(a, b, c, d)]
    ensures SegmentsOf([a, b, c, d, e, f, g]) == [Quad(a, b, c, d), Quad(d, e, f, g)]
    ensures SegmentsOf([a, b, c, d, e, f]) == [Quad(a, b, c, d)]
  {
    assert SegmentCount(7) == 2;
  }
}
