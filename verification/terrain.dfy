/** The terrain image the renderer samples, and `average_neighborhood_height`:
    the mean brightness of the in-bounds pixels of a square window. */
module Terrain {

  /** A colour channel as pygame stores it. */
  type Channel = c: int | 0 <= c <= 255

  /** A pixel of the terrain image, as `get_at` returns it. */
  datatype Rgba = Rgba(r: Channel, g: Channel, b: Channel, a: Channel)

  /** A read-only terrain image: its size and its pixel at each coordinate.
      Only coordinates inside `[0, width) x [0, height)` are meaningful. */
  datatype Heightmap = Heightmap(width: nat, height: nat, at: (int, int) -> Rgba)

  /** `(r + g + b) / 3`, Python true division. */
  function Brightness(c: Rgba): (v: real)
    ensures 0.0 <= v <= 255.0
  {
    (c.r + c.g + c.b) as real / 3.0
  }

  predicate InBounds(hm: Heightmap, nx: int, ny: int) {
    0 <= nx < hm.width && 0 <= ny < hm.height
  }

  // ---------------------------------------------------------------------
  // The window, one column at a time: `ColumnSum(hm, nx, y, r, hi)` covers
  // the pixels (nx, y + dy) for dy in [-r, hi), the part of a column the
  // inner loop has visited once `dy` reaches `hi`.

  function ColumnSum(hm: Heightmap, nx: int, y: int, r: int, hi: int): real
    decreases hi + r
  {
    if hi <= -r then 0.0
    else ColumnSum(hm, nx, y, r, hi - 1)
         + (if InBounds(hm, nx, y + hi - 1) then Brightness(hm.at(nx, y + hi - 1)) else 0.0)
  }

  function ColumnCount(hm: Heightmap, nx: int, y: int, r: int, hi: int): nat
    decreases hi + r
  {
    if hi <= -r then 0
    else ColumnCount(hm, nx, y, r, hi - 1) + (if InBounds(hm, nx, y + hi - 1) then 1 else 0)
  }

  /** The columns x + dx for dx in [-r, hi), each taken whole (dy in [-r, r]). */
  function WindowSum(hm: Heightmap, x: int, y: int, r: int, hi: int): real
    decreases hi + r
  {
    if hi <= -r then 0.0
    else WindowSum(hm, x, y, r, hi - 1) + ColumnSum(hm, x + hi - 1, y, r, r + 1)
  }

  function WindowCount(hm: Heightmap, x: int, y: int, r: int, hi: int): nat
    decreases hi + r
  {
    if hi <= -r then 0
    else WindowCount(hm, x, y, r, hi - 1) + ColumnCount(hm, x + hi - 1, y, r, r + 1)
  }

  /** Number of integers i with lo <= i <= hi and 0 <= i < n. */
  function Overlap(lo: int, hi: int, n: int): nat {
    var a := if lo < 0 then 0 else lo;
    var b := if hi < n - 1 then hi else n - 1;
    if a <= b then b - a + 1 else 0
  }

  /** The mean brightness over the in-bounds pixels of the window
      [x-r, x+r] x [y-r, y+r], or 0 when none of them is in bounds. */
  function AverageBrightness(hm: Heightmap, x: int, y: int, r: int): (avg: real)
    ensures 0.0 <= avg <= 255.0
  {
    var n := WindowCount(hm, x, y, r, r + 1);
    WindowBounds(hm, x, y, r, r + 1);
    if n > 0 then MeanBounds(WindowSum(hm, x, y, r, r + 1), n); WindowSum(hm, x, y, r, r + 1) / n as real
    else 0.0
  }

  /** `average_neighborhood_height`: the two nested loops over dx and dy,
      summing the brightness and counting the in-bounds pixels, then
      `total / count`, or 0 when nothing was sampled. */
  method AverageNeighborhoodHeight(x: int, y: int, hm: Heightmap, r: int) returns (avg: real)
    ensures avg == AverageBrightness(hm, x, y, r)
    ensures WindowCount(hm, x, y, r, r + 1) == 0 ==> avg == 0.0
    ensures 0.0 <= avg <= 255.0
  {
    var total := 0.0;
    var count := 0;
    var dx := -r;
    while dx < r + 1
      invariant dx == -r || -r < dx <= r + 1
      invariant total == WindowSum(hm, x, y, r, dx)
      invariant count == WindowCount(hm, x, y, r, dx)
      decreases r + 1 - dx
    {
      var dy := -r;
      while dy < r + 1
        invariant -r <= dy <= r + 1
        invariant total == WindowSum(hm, x, y, r, dx) + ColumnSum(hm, x + dx, y, r, dy)
        invariant count == WindowCount(hm, x, y, r, dx) + ColumnCount(hm, x + dx, y, r, dy)
        decreases r + 1 - dy
      {
        var nx, ny := x + dx, y + dy;
        if 0 <= nx < hm.width && 0 <= ny < hm.height {
          var pixel := hm.at(nx, ny);
          total := total + Brightness(pixel);
          count := count + 1;
        }
        dy := dy + 1;
      }
      dx := dx + 1;
    }
    avg := if count > 0 then total / count as real else 0.0;
  }

  // ---------------------------------------------------------------------
  // Properties

  lemma MeanBounds(sum: real, n: nat)
    requires 0 < n
    requires 0.0 <= sum <= 255.0 * n as real
    ensures 0.0 <= sum / n as real <= 255.0
  {
  }

  lemma {:induction false} ColumnBounds(hm: Heightmap, nx: int, y: int, r: int, hi: int)
    ensures 0.0 <= ColumnSum(hm, nx, y, r, hi) <= 255.0 * ColumnCount(hm, nx, y, r, hi) as real
    decreases hi + r
  {
    if hi > -r {
      ColumnBounds(hm, nx, y, r, hi - 1);
    }
  }

  /** Every sampled brightness lies in [0, 255], so the sum is between 0 and
      255 times the count. */
  lemma {:induction false} WindowBounds(hm: Heightmap, x: int, y: int, r: int, hi: int)
    ensures 0.0 <= WindowSum(hm, x, y, r, hi) <= 255.0 * WindowCount(hm, x, y, r, hi) as real
    decreases hi + r
  {
    if hi > -r {
      WindowBounds(hm, x, y, r, hi - 1);
      ColumnBounds(hm, x + hi - 1, y, r, r + 1);
    }
  }

  lemma {:induction false} ColumnCountClosed(hm: Heightmap, nx: int, y: int, r: int, hi: int)
    requires -r <= hi
    ensures ColumnCount(hm, nx, y, r, hi)
            == if 0 <= nx < hm.width then Overlap(y - r, y + hi - 1, hm.height) else 0
    decreases hi + r
  {
    if hi > -r {
      ColumnCountClosed(hm, nx, y, r, hi - 1);
    }
  }

  lemma AddRow(a: int, step: int, oy: int, before: int, after: int)
    requires step == 0 || step == 1
    requires before == a * oy
    requires after == before + step * oy
    ensures after == (a + step) * oy
  {
  }

  lemma {:induction false} WindowCountClosed(hm: Heightmap, x: int, y: int, r: int, hi: int)
    requires -r <= hi <= r + 1
    ensures WindowCount(hm, x, y, r, hi)
            == Overlap(x - r, x + hi - 1, hm.width) * Overlap(y - r, y + r, hm.height)
    decreases hi + r
  {
    if hi > -r {
      WindowCountClosed(hm, x, y, r, hi - 1);
      ColumnCountClosed(hm, x + hi - 1, y, r, r + 1);
      var step := if 0 <= x + hi - 1 < hm.width then 1 else 0;
      assert Overlap(x - r, x + hi - 1, hm.width) == Overlap(x - r, x + hi - 2, hm.width) + step;
      AddRow(Overlap(x - r, x + hi - 2, hm.width), step, Overlap(y - r, y + r, hm.height),
             WindowCount(hm, x, y, r, hi - 1), WindowCount(hm, x, y, r, hi));
    }
  }

  /** The loop samples exactly the pixels of [x-r, x+r] x [y-r, y+r] that lie
      in [0, width) x [0, height): their number is the product of the two
      one-dimensional overlaps (0 when r < 0, since the window is empty). */
  lemma SampleCount(hm: Heightmap, x: int, y: int, r: int)
    ensures WindowCount(hm, x, y, r, r + 1)
            == Overlap(x - r, x + r, hm.width) * Overlap(y - r, y + r, hm.height)
  {
    if r >= 0 {
      WindowCountClosed(hm, x, y, r, r + 1);
    } else {
      assert WindowCount(hm, x, y, r, r + 1) == 0;
      assert Overlap(x - r, x + r, hm.width) == 0;
    }
  }

  /** A window that lies wholly inside the image samples all (2r+1)^2 pixels. */
  lemma FullWindowCount(hm: Heightmap, x: int, y: int, r: int)
    requires 0 <= r
    requires 0 <= x - r && x + r < hm.width
    requires 0 <= y - r && y + r < hm.height
    ensures WindowCount(hm, x, y, r, r + 1) == (2 * r + 1) * (2 * r + 1)
  {
    SampleCount(hm, x, y, r);
  }

  /** A window that misses the image entirely samples nothing, and the
      average is then the defined value 0, with no division. */
  lemma EmptyWindow(hm: Heightmap, x: int, y: int, r: int)
    requires x + r < 0 || hm.width <= x - r || y + r < 0 || hm.height <= y - r || r < 0
    ensures WindowCount(hm, x, y, r, r + 1) == 0
    ensures AverageBrightness(hm, x, y, r) == 0.0
  {
    SampleCount(hm, x, y, r);
  }

  ghost predicate UniformWindow(hm: Heightmap, x: int, y: int, r: int, beta: real) {
    forall nx, ny :: x - r <= nx <= x + r && y - r <= ny <= y + r && InBounds(hm, nx, ny)
      ==> Brightness(hm.at(nx, ny)) == beta
  }

  /** beta added to itself n times. */
  function Repeat(beta: real, n: nat): real {
    if n == 0 then 0.0 else Repeat(beta, n - 1) + beta
  }

  lemma {:induction false} RepeatAdd(beta: real, m: nat, n: nat)
    ensures Repeat(beta, m + n) == Repeat(beta, m) + Repeat(beta, n)
    decreases n
  {
    if n > 0 {
      RepeatAdd(beta, m, n - 1);
    }
  }

  lemma {:induction false} RepeatIsProduct(beta: real, n: nat)
    ensures Repeat(beta, n) == beta * n as real
    decreases n
  {
    if n > 0 {
      RepeatIsProduct(beta, n - 1);
      ProductStep(beta, n - 1, Repeat(beta, n - 1));
    }
  }

  lemma ProductStep(beta: real, m: nat, prev: real)
    requires prev == beta * m as real
    ensures prev + beta == beta * (m + 1) as real
  {
  }

  lemma {:induction false} ColumnUniform(hm: Heightmap, x: int, y: int, r: int, nx: int, hi: int, beta: real)
    requires UniformWindow(hm, x, y, r, beta)
    requires x - r <= nx <= x + r && hi <= r + 1
    ensures ColumnSum(hm, nx, y, r, hi) == Repeat(beta, ColumnCount(hm, nx, y, r, hi))
    decreases hi + r
  {
    if hi > -r {
      ColumnUniform(hm, x, y, r, nx, hi - 1, beta);
      if InBounds(hm, nx, y + hi - 1) {
        assert Brightness(hm.at(nx, y + hi - 1)) == beta;
      }
    }
  }

  lemma {:induction false} WindowUniform(hm: Heightmap, x: int, y: int, r: int, hi: int, beta: real)
    requires UniformWindow(hm, x, y, r, beta)
    requires hi <= r + 1
    ensures WindowSum(hm, x, y, r, hi) == Repeat(beta, WindowCount(hm, x, y, r, hi))
    decreases hi + r
  {
    if hi > -r {
      WindowUniform(hm, x, y, r, hi - 1, beta);
      ColumnUniform(hm, x, y, r, x + hi - 1, r + 1, beta);
      RepeatAdd(beta, WindowCount(hm, x, y, r, hi - 1), ColumnCount(hm, x + hi - 1, y, r, r + 1));
    }
  }

  lemma DivideBack(sum: real, beta: real, n: nat)
    requires 0 < n
    requires sum == beta * n as real
    ensures sum / n as real == beta
  {
  }

  /** When every in-bounds pixel of the window has brightness beta and at
      least one is sampled, the average is exactly beta. */
  lemma UniformAverage(hm: Heightmap, x: int, y: int, r: int, beta: real)
    requires UniformWindow(hm, x, y, r, beta)
    requires WindowCount(hm, x, y, r, r + 1) > 0
    ensures AverageBrightness(hm, x, y, r) == beta
  {
    var n := WindowCount(hm, x, y, r, r + 1);
    WindowUniform(hm, x, y, r, r + 1, beta);
    RepeatIsProduct(beta, n);
    DivideBack(WindowSum(hm, x, y, r, r + 1), beta, n);
  }
}
