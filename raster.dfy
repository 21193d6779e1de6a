/** The DDA line rasterizer drawLineDDA. The points it hands to GL_POINTS are
    returned as a sequence of pixels, in drawing order. */
module Raster {
  /** A pixel position as passed to glVertex2i. */
  datatype Pixel = Pixel(x: int, y: int)

  function Abs(n: int): nat
  {
    if n < 0 then -n else n
  }

  function Max(a: int, b: int): int
  {
    if a < b then b else a
  }

  function Min(a: int, b: int): int
  {
    if a < b then a else b
  }

  function Sign(n: int): int
  {
    if n < 0 then -1 else if n == 0 then 0 else 1
  }

  /** roundf followed by (int): round to the nearest integer, halves away from zero. */
  function RoundF(r: real): (n: int)
    ensures r >= 0.0 ==> n as real - 0.5 <= r < n as real + 0.5
    ensures r < 0.0 ==> n as real - 0.5 < r <= n as real + 0.5
  {
    if r >= 0.0 then (r + 0.5).Floor else -((-r + 0.5).Floor)
  }

  /** An integral value is its own rounding. */
  lemma RoundFIntegral(k: int)
    ensures RoundF(k as real) == k
  {
  }

  /** Rounding never reverses the order of two reals. */
  lemma RoundFMonotone(a: real, b: real)
    requires a <= b
    ensures RoundF(a) <= RoundF(b)
  {
    if a >= 0.0 {
      assert (a + 0.5).Floor <= (b + 0.5).Floor;
    } else if b < 0.0 {
      assert (-b + 0.5).Floor <= (-a + 0.5).Floor;
    }
  }

  /** The number of steps: the longer of the two axis extents. */
  function Steps(x0: int, y0: int, x1: int, y1: int): nat
  {
    Max(Abs(x1 - x0), Abs(y1 - y0))
  }

  /** The per-step increment of one axis, dx / (float)steps. */
  function Inc(d: int, steps: int): real
    requires steps > 0
  {
    d as real / steps as real
  }

  /** The accumulator of one axis after i increments. */
  function Acc(a0: int, d: int, steps: int, i: int): real
    requires steps > 0
  {
    a0 as real + i as real * Inc(d, steps)
  }

  /** The pixels drawLineDDA draws from (x0,y0) to (x1,y1): steps + 1 of them, the first
      at (x0,y0) and the last at (x1,y1); a single one when both ends coincide. */
  function DdaPoints(x0: int, y0: int, x1: int, y1: int): (pts: seq<Pixel>)
    ensures |pts| == Steps(x0, y0, x1, y1) + 1
    ensures pts[0] == Pixel(x0, y0)
    ensures pts[|pts| - 1] == Pixel(x1, y1)
  {
    var steps := Steps(x0, y0, x1, y1);
    if steps == 0 then [Pixel(x0, y0)]
    else
      AccEnd(x0, x1 - x0, steps);
      AccEnd(y0, y1 - y0, steps);
      seq(steps + 1, i requires 0 <= i <= steps =>
        Pixel(RoundF(Acc(x0, x1 - x0, steps, i)), RoundF(Acc(y0, y1 - y0, steps, i))))
  }

  /** The accumulator starts at a0 and, after `steps` increments, reaches a0 + d exactly. */
  lemma AccEnd(a0: int, d: int, steps: int)
    requires steps > 0
    ensures Acc(a0, d, steps, 0) == a0 as real
    ensures Acc(a0, d, steps, steps) == (a0 + d) as real
    ensures RoundF(Acc(a0, d, steps, 0)) == a0
    ensures RoundF(Acc(a0, d, steps, steps)) == a0 + d
  {
    assert steps as real * (d as real / steps as real) == d as real;
    RoundFIntegral(a0);
    RoundFIntegral(a0 + d);
  }

  /** drawLineDDA: one real accumulator per axis, advanced by the increment after each
      point; a single point when the two ends coincide. */
  method DrawLineDDA(x0: int, y0: int, x1: int, y1: int) returns (pts: seq<Pixel>)
    ensures pts == DdaPoints(x0, y0, x1, y1)
  {
    var dx := x1 - x0;
    var dy := y1 - y0;
    var steps := Max(Abs(dx), Abs(dy));
    if steps == 0 {
      pts := [Pixel(x0, y0)];
      return;
    }
    var xInc := dx as real / steps as real;
    var yInc := dy as real / steps as real;
    var x, y := x0 as real, y0 as real;
    pts := [];
    var i := 0;
    while i <= steps
      invariant 0 <= i <= steps + 1
      invariant x == Acc(x0, dx, steps, i) && y == Acc(y0, dy, steps, i)
      invariant pts == DdaPoints(x0, y0, x1, y1)[..i]
    {
      pts := pts + [Pixel(RoundF(x), RoundF(y))];
      AccStep(x0, dx, steps, i);
      AccStep(y0, dy, steps, i);
      x := x + xInc;
      y := y + yInc;
      i := i + 1;
    }
  }

  /** One more increment advances the accumulator to the next index. */
  lemma AccStep(a0: int, d: int, steps: int, i: int)
    requires steps > 0
    ensures Acc(a0, d, steps, i) + Inc(d, steps) == Acc(a0, d, steps, i + 1)
  {
    assert (i + 1) as real * Inc(d, steps) == i as real * Inc(d, steps) + Inc(d, steps);
  }

  /** Coinciding ends give exactly one point. */
  lemma DdaSinglePoint(x0: int, y0: int)
    ensures DdaPoints(x0, y0, x0, y0) == [Pixel(x0, y0)]
  {
  }

  /** A horizontal line from (0,0) to (5,0) is the six pixels of that row, left to right. */
  lemma DdaHorizontalRow()
    ensures DdaPoints(0, 0, 5, 0) == [Pixel(0, 0), Pixel(1, 0), Pixel(2, 0), Pixel(3, 0), Pixel(4, 0), Pixel(5, 0)]
  {
    var pts := DdaPoints(0, 0, 5, 0);
    var row := [Pixel(0, 0), Pixel(1, 0), Pixel(2, 0), Pixel(3, 0), Pixel(4, 0), Pixel(5, 0)];
    forall k | 0 <= k <= 5
      ensures pts[k] == row[k]
    {
      DdaPointAt(0, 0, 5, 0, k);
      DominantAxis(0, 5, 5, k);
      assert Acc(0, 0, 5, k) == 0.0;
      RoundFIntegral(0);
    }
  }

  /** On the dominant axis the increment is +1 or -1, so every point advances that
      axis by exactly one pixel toward the end. */
  lemma DominantAxis(a0: int, d: int, steps: int, i: int)
    requires steps > 0 && Abs(d) == steps
    ensures RoundF(Acc(a0, d, steps, i)) == a0 + i * Sign(d)
  {
    assert Inc(d, steps) == Sign(d) as real;
    assert i as real * (Sign(d) as real) == (i * Sign(d)) as real;
    RoundFIntegral(a0 + i * Sign(d));
  }

  /** On any axis whose extent is at most the step count, consecutive points differ by
      at most one pixel, and never move away from the end. */
  lemma AxisStep(a0: int, d: int, steps: int, i: int)
    requires steps > 0 && Abs(d) <= steps
    ensures Abs(RoundF(Acc(a0, d, steps, i + 1)) - RoundF(Acc(a0, d, steps, i))) <= 1
    ensures d >= 0 ==> RoundF(Acc(a0, d, steps, i)) <= RoundF(Acc(a0, d, steps, i + 1))
    ensures d <= 0 ==> RoundF(Acc(a0, d, steps, i + 1)) <= RoundF(Acc(a0, d, steps, i))
  {
    AccStep(a0, d, steps, i);
    var inc := Inc(d, steps);
    if Abs(d) == steps {
      DominantAxis(a0, d, steps, i);
      DominantAxis(a0, d, steps, i + 1);
    } else {
      assert -1.0 < inc < 1.0 by {
        assert inc * steps as real == d as real;
      }
    }
    if d >= 0 {
      assert inc >= 0.0;
      RoundFMonotone(Acc(a0, d, steps, i), Acc(a0, d, steps, i + 1));
    } else {
      assert inc < 0.0;
      RoundFMonotone(Acc(a0, d, steps, i + 1), Acc(a0, d, steps, i));
    }
  }

  /** Point k of a DDA line with at least one step: both accumulators, rounded. */
  lemma DdaPointAt(x0: int, y0: int, x1: int, y1: int, k: int)
    requires 0 <= k <= Steps(x0, y0, x1, y1) && Steps(x0, y0, x1, y1) > 0
    ensures DdaPoints(x0, y0, x1, y1)[k].x == RoundF(Acc(x0, x1 - x0, Steps(x0, y0, x1, y1), k))
    ensures DdaPoints(x0, y0, x1, y1)[k].y == RoundF(Acc(y0, y1 - y0, Steps(x0, y0, x1, y1), k))
  {
  }

  /** The dominant axis of a DDA line takes exactly one pixel per point toward the end,
      and the other axis at most one; so consecutive points are 8-neighbours. */
  lemma DdaSteps(x0: int, y0: int, x1: int, y1: int, k: int)
    requires 0 <= k < Steps(x0, y0, x1, y1)
    ensures Abs(x1 - x0) >= Abs(y1 - y0) ==>
              DdaPoints(x0, y0, x1, y1)[k + 1].x - DdaPoints(x0, y0, x1, y1)[k].x == Sign(x1 - x0)
    ensures Abs(y1 - y0) >= Abs(x1 - x0) ==>
              DdaPoints(x0, y0, x1, y1)[k + 1].y - DdaPoints(x0, y0, x1, y1)[k].y == Sign(y1 - y0)
    ensures Abs(DdaPoints(x0, y0, x1, y1)[k + 1].x - DdaPoints(x0, y0, x1, y1)[k].x) <= 1
    ensures Abs(DdaPoints(x0, y0, x1, y1)[k + 1].y - DdaPoints(x0, y0, x1, y1)[k].y) <= 1
  {
    DdaStepX(x0, y0, x1, y1, k);
    DdaStepY(x0, y0, x1, y1, k);
  }

  lemma DdaStepX(x0: int, y0: int, x1: int, y1: int, k: int)
    requires 0 <= k < Steps(x0, y0, x1, y1)
    ensures Abs(x1 - x0) >= Abs(y1 - y0) ==>
              DdaPoints(x0, y0, x1, y1)[k + 1].x - DdaPoints(x0, y0, x1, y1)[k].x == Sign(x1 - x0)
    ensures Abs(DdaPoints(x0, y0, x1, y1)[k + 1].x - DdaPoints(x0, y0, x1, y1)[k].x) <= 1
  {
    var steps := Steps(x0, y0, x1, y1);
    DdaPointAt(x0, y0, x1, y1, k);
    DdaPointAt(x0, y0, x1, y1, k + 1);
    AxisStep(x0, x1 - x0, steps, k);
    if Abs(x1 - x0) == steps {
      DominantAxis(x0, x1 - x0, steps, k);
      DominantAxis(x0, x1 - x0, steps, k + 1);
    }
  }

  lemma DdaStepY(x0: int, y0: int, x1: int, y1: int, k: int)
    requires 0 <= k < Steps(x0, y0, x1, y1)
    ensures Abs(y1 - y0) >= Abs(x1 - x0) ==>
              DdaPoints(x0, y0, x1, y1)[k + 1].y - DdaPoints(x0, y0, x1, y1)[k].y == Sign(y1 - y0)
    ensures Abs(DdaPoints(x0, y0, x1, y1)[k + 1].y - DdaPoints(x0, y0, x1, y1)[k].y) <= 1
  {
    var steps := Steps(x0, y0, x1, y1);
    DdaPointAt(x0, y0, x1, y1, k);
    DdaPointAt(x0, y0, x1, y1, k + 1);
    AxisStep(y0, y1 - y0, steps, k);
    if Abs(y1 - y0) == steps {
      DominantAxis(y0, y1 - y0, steps, k);
      DominantAxis(y0, y1 - y0, steps, k + 1);
    }
  }

  /** Between index 0 and index `steps` the accumulator stays between its two ends. */
  lemma AccBetween(a0: int, d: int, steps: int, i: int)
    requires steps > 0 && 0 <= i <= steps
    ensures d >= 0 ==> a0 as real <= Acc(a0, d, steps, i) <= (a0 + d) as real
    ensures d <= 0 ==> (a0 + d) as real <= Acc(a0, d, steps, i) <= a0 as real
  {
    var inc := Inc(d, steps);
    assert steps as real * inc == d as real;
    assert (steps - i) as real * inc + i as real * inc == d as real;
    if d >= 0 {
      assert inc >= 0.0;
      assert (steps - i) as real * inc >= 0.0;
    } else {
      assert inc < 0.0;
      assert (steps - i) as real * inc <= 0.0;
    }
  }

  /** One axis of a DDA line never leaves the range between its two ends. */
  lemma AxisWithinEnds(a0: int, d: int, steps: int, i: int)
    requires steps > 0 && 0 <= i <= steps
    ensures Min(a0, a0 + d) <= RoundF(Acc(a0, d, steps, i)) <= Max(a0, a0 + d)
  {
    AccBetween(a0, d, steps, i);
    RoundFIntegral(a0);
    RoundFIntegral(a0 + d);
    if d >= 0 {
      RoundFMonotone(a0 as real, Acc(a0, d, steps, i));
      RoundFMonotone(Acc(a0, d, steps, i), (a0 + d) as real);
    } else {
      RoundFMonotone((a0 + d) as real, Acc(a0, d, steps, i));
      RoundFMonotone(Acc(a0, d, steps, i), a0 as real);
    }
  }

  /** Every pixel of a DDA line lies in the bounding box of its two ends. */
  lemma DdaWithinEnds(x0: int, y0: int, x1: int, y1: int, k: int)
    requires 0 <= k < |DdaPoints(x0, y0, x1, y1)|
    ensures Min(x0, x1) <= DdaPoints(x0, y0, x1, y1)[k].x <= Max(x0, x1)
    ensures Min(y0, y1) <= DdaPoints(x0, y0, x1, y1)[k].y <= Max(y0, y1)
  {
    var steps := Steps(x0, y0, x1, y1);
    if steps > 0 {
      DdaPointAt(x0, y0, x1, y1, k);
      AxisWithinEnds(x0, x1 - x0, steps, k);
      AxisWithinEnds(y0, y1 - y0, steps, k);
    }
  }
}
