/** The viewport mapping ndcToScreen: normalized device coordinates in [-1,1]
    go to pixel positions in a WindowW x WindowH window, through the C++ cast
    (int), which truncates toward zero. */
module Viewport {
  import opened Algebra

  const WindowW: int := 900
  const WindowH: int := 700

  /** The C++ conversion (int) of a real: truncation toward zero. */
  function Trunc(r: real): (t: int)
    ensures r >= 0.0 ==> 0 <= t && t as real <= r < t as real + 1.0
    ensures r < 0.0 ==> t <= 0 && t as real - 1.0 < r <= t as real
  {
    if r >= 0.0 then r.Floor else -((-r).Floor)
  }

  /** Truncation never reverses the order of two reals. */
  lemma TruncMonotone(a: real, b: real)
    requires a <= b
    ensures Trunc(a) <= Trunc(b)
  {
    if a >= 0.0 {
      assert a.Floor <= b.Floor;
    } else if b < 0.0 {
      assert (-b).Floor <= (-a).Floor;
    }
  }

  /** One coordinate of ndcToScreen for a window side of `size` pixels. */
  function ScreenCoord(c: real, size: int): int
  {
    Trunc((c * 0.5 + 0.5) * (size as real) + 0.5)
  }

  /** ndcToScreen: both pixel coordinates of an NDC point, returned through two
      out-parameters as in the source. */
  method NdcToScreen(ndc: Vec4) returns (sx: int, sy: int)
    ensures sx == ScreenCoord(ndc.x, WindowW) && sy == ScreenCoord(ndc.y, WindowH)
    ensures -1.0 <= ndc.x <= 1.0 ==> 0 <= sx <= WindowW
    ensures -1.0 <= ndc.y <= 1.0 ==> 0 <= sy <= WindowH
  {
    var x := ndc.x;
    var y := ndc.y;
    sx := Trunc((x * 0.5 + 0.5) * (WindowW as real) + 0.5);
    sy := Trunc((y * 0.5 + 0.5) * (WindowH as real) + 0.5);
    if -1.0 <= x <= 1.0 {
      ScreenRange(x, WindowW);
    }
    if -1.0 <= y <= 1.0 {
      ScreenRange(y, WindowH);
    }
  }

  /** The left/bottom edge -1 goes to pixel 0 and the right/top edge +1 to pixel `size`. */
  lemma ScreenEnds(size: nat)
    ensures ScreenCoord(-1.0, size) == 0 && ScreenCoord(1.0, size) == size
  {
    assert (-1.0 * 0.5 + 0.5) * (size as real) + 0.5 == 0.5;
    assert (1.0 * 0.5 + 0.5) * (size as real) + 0.5 == size as real + 0.5;
  }

  /** The mapping is monotone non-decreasing in the NDC coordinate. */
  lemma ScreenMonotone(c: real, d: real, size: nat)
    requires c <= d
    ensures ScreenCoord(c, size) <= ScreenCoord(d, size)
  {
    assert (c * 0.5 + 0.5) * (size as real) <= (d * 0.5 + 0.5) * (size as real) by {
      assert (d * 0.5 + 0.5) * (size as real) - (c * 0.5 + 0.5) * (size as real)
          == ((d - c) * 0.5) * (size as real);
    }
    TruncMonotone((c * 0.5 + 0.5) * (size as real) + 0.5, (d * 0.5 + 0.5) * (size as real) + 0.5);
  }

  /** A coordinate of the NDC cube lands on a pixel of the window (both edges included). */
  lemma ScreenRange(c: real, size: nat)
    requires -1.0 <= c <= 1.0
    ensures 0 <= ScreenCoord(c, size) <= size
  {
    ScreenEnds(size);
    ScreenMonotone(-1.0, c, size);
    ScreenMonotone(c, 1.0, size);
  }

  /** Where the scaled position p = (c/2 + 1/2) size lies at or right of -1/2, the
      mapping rounds p to the nearest pixel, halves going up. */
  lemma ScreenRoundsNearest(c: real, size: nat)
    requires (c * 0.5 + 0.5) * (size as real) >= -0.5
    ensures ScreenCoord(c, size) as real - 0.5 <= (c * 0.5 + 0.5) * (size as real)
                                                    < ScreenCoord(c, size) as real + 0.5
  {
  }

  /** Left of the window the cast truncates instead of rounding: NDC x = -1.002 scales
      to p = -0.9, whose nearest pixel is -1, but the mapping gives 0. */
  lemma ScreenTruncatesLeftOfWindow()
    ensures (-1.002 * 0.5 + 0.5) * (WindowW as real) == -0.9
    ensures ScreenCoord(-1.002, WindowW) == 0
  {
    assert (-1.002 * 0.5 + 0.5) * (WindowW as real) + 0.5 == -0.4;
  }

  /** A coordinate at or right of the left NDC face lands on a pixel inside the half-open
      window [0, size) exactly when it lies left of 1 - 1/size; only the last 1/size of
      the NDC range maps onto the pixel `size` just past the window. */
  lemma ScreenInWindow(c: real, size: nat)
    requires size > 0 && -1.0 <= c
    ensures 0 <= ScreenCoord(c, size)
    ensures ScreenCoord(c, size) < size <==> c < 1.0 - 1.0 / (size as real)
  {
    var n := size as real;
    ScaledNonNegative(c * 0.5 + 0.5, n);
    ScreenShift(c, n);
    BelowLastPixel(c, n);
  }

  lemma ScaledNonNegative(a: real, n: real)
    requires a >= 0.0 && n >= 0.0
    ensures a * n >= 0.0
  {
  }

  /** The scaled position minus the window size, as a multiple of c n - (n - 1). */
  lemma ScreenShift(c: real, n: real)
    ensures (c * 0.5 + 0.5) * n + 0.5 - n == 0.5 * (c * n - (n - 1.0))
  {
  }

  /** For n > 0, c n < n - 1 exactly when c < 1 - 1/n. */
  lemma BelowLastPixel(c: real, n: real)
    requires n > 0.0
    ensures c * n < n - 1.0 <==> c < 1.0 - 1.0 / n
  {
    var k := 1.0 - 1.0 / n;
    assert k * n == n - 1.0;
    assert c * n - k * n == (c - k) * n;
    if c < k {
      assert (k - c) * n > 0.0;
    } else {
      assert (c - k) * n >= 0.0;
    }
  }
}
