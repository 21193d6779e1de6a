/** The depth shading of renderObject: the mean NDC depth of an edge's two ends
    becomes a brightness in [0,1] (1 at the near plane, 0 at the far plane), and
    the brightness becomes the edge colour. */
module Shading {
  /** An RGB colour as passed to glColor3f. */
  datatype Color = Color(r: real, g: real, b: real)

  /** std::max(0, std::min(1, s)). */
  function Clamp01(s: real): (c: real)
    ensures 0.0 <= c <= 1.0
    ensures 0.0 <= s <= 1.0 ==> c == s
    ensures s < 0.0 ==> c == 0.0
    ensures s > 1.0 ==> c == 1.0
  {
    if 1.0 < s then 1.0 else if s < 0.0 then 0.0 else s
  }

  /** The mean depth of the two NDC ends. */
  function Depth(z0: real, z1: real): real
  {
    0.5 * (z0 + z1)
  }

  /** The brightness of an edge whose ends have NDC depths z0 and z1. */
  function Shade(z0: real, z1: real): (s: real)
    ensures 0.0 <= s <= 1.0
  {
    Clamp01(1.0 - (Depth(z0, z1) + 1.0) / 2.0)
  }

  /** Inside the depth range the brightness falls linearly from 1 at depth -1 to 0 at depth 1. */
  lemma ShadeLinear(z0: real, z1: real)
    requires -1.0 <= Depth(z0, z1) <= 1.0
    ensures Shade(z0, z1) == (1.0 - Depth(z0, z1)) / 2.0
  {
  }

  /** An edge on the near plane is fully bright, one on the far plane fully dark,
      and edges beyond either plane are clamped. */
  lemma ShadeNearFar(z0: real, z1: real)
    ensures Depth(z0, z1) <= -1.0 ==> Shade(z0, z1) == 1.0
    ensures Depth(z0, z1) >= 1.0 ==> Shade(z0, z1) == 0.0
  {
  }

  /** A deeper edge is never brighter. */
  lemma ShadeAntitone(z0: real, z1: real, w0: real, w1: real)
    requires Depth(z0, z1) <= Depth(w0, w1)
    ensures Shade(w0, w1) <= Shade(z0, z1)
  {
  }

  /** The edge colour: with colour shading the red and blue channels grow with
      the brightness over a constant green, otherwise white. */
  function EdgeColor(shade: real, colorShading: bool): (c: Color)
    ensures !colorShading ==> c == Color(1.0, 1.0, 1.0)
    ensures colorShading && 0.0 <= shade <= 1.0 ==>
              0.2 <= c.r <= 1.0 && c.g == 0.2 && 0.1 <= c.b <= 0.6
  {
    if colorShading then Color(0.2 + 0.8 * shade, 0.2, 0.6 - 0.5 * (1.0 - shade))
    else Color(1.0, 1.0, 1.0)
  }

  /** With colour shading, the darkest edge is (0.2, 0.2, 0.1), the brightest
      (1, 0.2, 0.6), and a brighter edge has no less red and no less blue. */
  lemma EdgeColorOrder(s: real, t: real)
    requires s <= t
    ensures EdgeColor(0.0, true) == Color(0.2, 0.2, 0.1)
    ensures EdgeColor(1.0, true) == Color(1.0, 0.2, 0.6)
    ensures EdgeColor(s, true).r <= EdgeColor(t, true).r
    ensures EdgeColor(s, true).b <= EdgeColor(t, true).b
  {
  }
}
