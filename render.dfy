/** renderObject: every edge of an object goes through the model matrix and the
    projection, is skipped when a clip w is zero or the trivial reject fires,
    and is otherwise mapped to the screen, shaded and rasterized with the DDA.
    The OpenGL calls become the returned strokes, one per drawn edge, in edge order. */
module Render {
  import opened Algebra
  import opened Transforms
  import opened Clip
  import opened Viewport
  import opened Shading
  import opened Raster

  datatype Option<T> = None | Some(value: T)

  /** An object: homogeneous vertices and edges given as pairs of vertex indices. */
  datatype Object3D = Object3D(verts: seq<Vec4>, edges: seq<(int, int)>)

  predicate ValidEdge(verts: seq<Vec4>, e: (int, int))
  {
    0 <= e.0 < |verts| && 0 <= e.1 < |verts|
  }

  /** Every edge names two existing vertices. */
  predicate AllValid(verts: seq<Vec4>, edges: seq<(int, int)>)
  {
    forall k | 0 <= k < |edges| :: ValidEdge(verts, edges[k])
  }

  /** The source indexes the vertex list without checking, so its objects must be well formed. */
  predicate WellFormed(o: Object3D)
  {
    AllValid(o.verts, o.edges)
  }

  lemma AllValidPrefix(verts: seq<Vec4>, edges: seq<(int, int)>, i: int)
    requires AllValid(verts, edges) && 0 <= i <= |edges|
    ensures AllValid(verts, edges[..i])
  {
    assert forall k | 0 <= k < i :: edges[..i][k] == edges[k];
  }

  /** The global view state renderObject reads: the projection mode, the focal
      factor f = 1/tan(fov/2) of the current field of view, and the colour mode. */
  datatype View = View(usePerspective: bool, focal: real, colorShading: bool)

  const Aspect: real := 900.0 / 700.0
  const NearP: real := 0.1
  const FarP: real := 100.0
  const OrthoHalf: real := 4.0

  /** The projection renderObject builds: perspective, or an orthographic box of
      half-width 4 with the window's aspect and depth range [-50, 50]. */
  function Projection(view: View): Mat4
  {
    if view.usePerspective then Perspective(view.focal, Aspect, NearP, FarP)
    else Ortho(-OrthoHalf, OrthoHalf, -OrthoHalf * (1.0 / Aspect), OrthoHalf * (1.0 / Aspect), -50.0, 50.0)
  }

  /** In perspective mode clip w is -z; in orthographic mode it is the eye-space w. */
  lemma ProjectionW(view: View, v: Vec4)
    ensures view.usePerspective ==> Apply(Projection(view), v).w == -v.z
    ensures !view.usePerspective ==> Apply(Projection(view), v).w == v.w
  {
    if view.usePerspective {
      PerspectiveEffect(view.focal, Aspect, NearP, FarP, v);
    } else {
      OrthoEffect(-OrthoHalf, OrthoHalf, -OrthoHalf * (1.0 / Aspect), OrthoHalf * (1.0 / Aspect), -50.0, 50.0, v);
    }
  }

  /** The pixel ndcToScreen gives an NDC point. */
  function ScreenOf(n: Vec4): Pixel
  {
    Pixel(ScreenCoord(n.x, WindowW), ScreenCoord(n.y, WindowH))
  }

  /** What one drawn edge leaves behind: its colour and its DDA pixels. */
  datatype Stroke = Stroke(color: Color, pixels: seq<Pixel>)

  /** The stroke of an edge that survived the clip tests: the colour of its mean depth
      and the DDA pixels between the screen positions of its two ends. */
  function DrawnStroke(n0: Vec4, n1: Vec4, colorShading: bool): Stroke
  {
    Stroke(EdgeColor(Shade(n0.z, n1.z), colorShading),
           DdaPoints(ScreenOf(n0).x, ScreenOf(n0).y, ScreenOf(n1).x, ScreenOf(n1).y))
  }

  /** The trivial reject on the NDC ends of an edge: skipped when the outcodes share a bit. */
  function NdcStroke(n0: Vec4, n1: Vec4, colorShading: bool): Option<Stroke>
  {
    if Outcode(n0) & Outcode(n1) != 0 then None else Some(DrawnStroke(n0, n1, colorShading))
  }

  /** The body of renderObject's loop for an edge with clip coordinates c0 and c1:
      skipped when either w is zero, otherwise divided and passed to the reject test. */
  function EdgeStroke(c0: Vec4, c1: Vec4, colorShading: bool): Option<Stroke>
  {
    if c0.w == 0.0 || c1.w == 0.0 then None else NdcStroke(Divide(c0), Divide(c1), colorShading)
  }

  /** An edge is skipped exactly when one clip w is zero or both ends lie beyond a common
      face of the cube. */
  lemma EdgeSkippedIff(c0: Vec4, c1: Vec4, cs: bool)
    ensures EdgeStroke(c0, c1, cs).None?
        <==> (c0.w == 0.0 || c1.w == 0.0 || SharedFace(Divide(c0), Divide(c1)))
  {
    if c0.w != 0.0 && c1.w != 0.0 {
      NdcSkippedIff(Divide(c0), Divide(c1), cs);
    }
  }

  /** The trivial reject skips an edge exactly when both NDC ends lie beyond a common face. */
  lemma NdcSkippedIff(n0: Vec4, n1: Vec4, cs: bool)
    ensures NdcStroke(n0, n1, cs).None? <==> SharedFace(n0, n1)
  {
    RejectIffSharedFace(n0, n1);
  }

  /** A drawn edge runs from the screen position of its first end to that of its second,
      in the colour of its depth shade. */
  lemma EdgeDrawnEnds(c0: Vec4, c1: Vec4, cs: bool)
    requires EdgeStroke(c0, c1, cs).Some?
    ensures c0.w != 0.0 && c1.w != 0.0
    ensures |EdgeStroke(c0, c1, cs).value.pixels| >= 1
    ensures EdgeStroke(c0, c1, cs).value.pixels[0] == ScreenOf(Divide(c0))
    ensures EdgeStroke(c0, c1, cs).value.pixels[|EdgeStroke(c0, c1, cs).value.pixels| - 1] == ScreenOf(Divide(c1))
    ensures EdgeStroke(c0, c1, cs).value.color == EdgeColor(Shade(Divide(c0).z, Divide(c1).z), cs)
  {
    var n0, n1 := Divide(c0), Divide(c1);
    var pts := DdaPoints(ScreenOf(n0).x, ScreenOf(n0).y, ScreenOf(n1).x, ScreenOf(n1).y);
    assert EdgeStroke(c0, c1, cs).value.pixels == pts;
  }

  /** An edge whose two ends have non-zero clip w and divide into the cube is drawn. */
  lemma InsideEdgeDrawn(c0: Vec4, c1: Vec4, colorShading: bool)
    requires c0.w != 0.0 && c1.w != 0.0
    requires InsideCube(Divide(c0)) && InsideCube(Divide(c1))
    ensures EdgeStroke(c0, c1, colorShading).Some?
  {
    OutcodeZeroIffInside(Divide(c0));
    OutcodeZeroIffInside(Divide(c1));
  }

  function Emitted(r: Option<Stroke>): seq<Stroke>
  {
    if r.Some? then [r.value] else []
  }

  /** The clip coordinates of vertex i under the model matrix m and projection p. */
  function ClipOf(verts: seq<Vec4>, m: Mat4, p: Mat4, i: int): Vec4
    requires 0 <= i < |verts|
  {
    Apply(p, Apply(m, verts[i]))
  }

  function EdgeOutput(verts: seq<Vec4>, e: (int, int), m: Mat4, p: Mat4, colorShading: bool): seq<Stroke>
    requires ValidEdge(verts, e)
  {
    Emitted(EdgeStroke(ClipOf(verts, m, p, e.0), ClipOf(verts, m, p, e.1), colorShading))
  }

  /** What each edge of a list draws, in edge order. */
  function EdgeOutputs(verts: seq<Vec4>, edges: seq<(int, int)>, m: Mat4, p: Mat4, colorShading: bool): (outs: seq<seq<Stroke>>)
    requires AllValid(verts, edges)
    ensures |outs| == |edges|
  {
    seq(|edges|, k requires 0 <= k < |edges| => EdgeOutput(verts, edges[k], m, p, colorShading))
  }

  /** The parts one after the other. */
  function Concat(parts: seq<seq<Stroke>>): seq<Stroke>
  {
    if |parts| == 0 then [] else Concat(parts[..|parts| - 1]) + parts[|parts| - 1]
  }

  /** The strokes of a list of edges: each edge's output, in edge order. */
  function RenderEdges(verts: seq<Vec4>, edges: seq<(int, int)>, m: Mat4, p: Mat4, colorShading: bool): seq<Stroke>
    requires AllValid(verts, edges)
  {
    Concat(EdgeOutputs(verts, edges, m, p, colorShading))
  }

  /** What renderObject draws for an object, a model matrix and a view. */
  function RenderView(obj: Object3D, m: Mat4, view: View): seq<Stroke>
    requires WellFormed(obj)
  {
    RenderEdges(obj.verts, obj.edges, m, Projection(view), view.colorShading)
  }

  /** renderObject. */
  method RenderObject(obj: Object3D, modelMatrix: Mat4, view: View) returns (strokes: seq<Stroke>)
    requires WellFormed(obj)
    ensures strokes == RenderView(obj, modelMatrix, view)
  {
    var p := Projection(view);
    strokes := [];
    for i := 0 to |obj.edges|
      invariant strokes == RenderEdges(obj.verts, obj.edges[..i], modelMatrix, p, view.colorShading)
    {
      RenderEdgesStep(obj.verts, obj.edges, i, modelMatrix, p, view.colorShading);
      var drawn := RenderEdge(obj.verts, obj.edges[i], modelMatrix, p, view.colorShading);
      strokes := strokes + drawn;
    }
    assert obj.edges[..|obj.edges|] == obj.edges;
  }

  /** The body of renderObject's loop for edge e: both ends through the model matrix
      and the projection, then the divide; each early return is a `continue` of the source. */
  method RenderEdge(verts: seq<Vec4>, e: (int, int), m: Mat4, p: Mat4, colorShading: bool) returns (drawn: seq<Stroke>)
    requires ValidEdge(verts, e)
    ensures drawn == EdgeOutput(verts, e, m, p, colorShading)
  {
    var v0 := Apply(m, verts[e.0]);
    var v1 := Apply(m, verts[e.1]);
    var c0 := Apply(p, v0);
    var c1 := Apply(p, v1);
    if c0.w == 0.0 || c1.w == 0.0 {
      return [];
    }
    var ndc0 := Vec4(c0.x / c0.w, c0.y / c0.w, c0.z / c0.w, 1.0);
    var ndc1 := Vec4(c1.x / c1.w, c1.y / c1.w, c1.z / c1.w, 1.0);
    drawn := NdcEdge(ndc0, ndc1, colorShading);
  }

  /** The trivial reject and, for an edge that passes it, the drawing. */
  method NdcEdge(ndc0: Vec4, ndc1: Vec4, colorShading: bool) returns (drawn: seq<Stroke>)
    ensures drawn == Emitted(NdcStroke(ndc0, ndc1, colorShading))
  {
    var o0 := Outside(ndc0);
    var o1 := Outside(ndc1);
    if o0 & o1 != 0 {
      return [];
    }
    var stroke := DrawEdge(ndc0, ndc1, colorShading);
    drawn := [stroke];
  }

  /** The drawing half of renderObject's loop body for an edge that survived the
      clip tests: screen positions, depth shade, colour and the DDA pixels. */
  method DrawEdge(ndc0: Vec4, ndc1: Vec4, colorShading: bool) returns (stroke: Stroke)
    ensures stroke == DrawnStroke(ndc0, ndc1, colorShading)
  {
    var sx0, sy0 := NdcToScreen(ndc0);
    var sx1, sy1 := NdcToScreen(ndc1);
    var depth := 0.5 * (ndc0.z + ndc1.z);
    var shade := 1.0 - (depth + 1.0) / 2.0;
    shade := Clamp01(shade);
    var color := EdgeColor(shade, colorShading);
    var pts := DrawLineDDA(sx0, sy0, sx1, sy1);
    stroke := Stroke(color, pts);
  }

  /** One loop step of renderObject: the strokes of the first i + 1 edges are those
      of the first i followed by what edge i draws. */
  lemma RenderEdgesStep(verts: seq<Vec4>, edges: seq<(int, int)>, i: int, m: Mat4, p: Mat4, cs: bool)
    requires AllValid(verts, edges)
    requires 0 <= i < |edges|
    ensures ValidEdge(verts, edges[i])
    ensures AllValid(verts, edges[..i]) && AllValid(verts, edges[..i + 1])
    ensures RenderEdges(verts, edges[..i + 1], m, p, cs)
         == RenderEdges(verts, edges[..i], m, p, cs) + EdgeOutput(verts, edges[i], m, p, cs)
  {
    AllValidPrefix(verts, edges, i);
    AllValidPrefix(verts, edges, i + 1);
    var outs := EdgeOutputs(verts, edges[..i + 1], m, p, cs);
    assert outs[..i] == EdgeOutputs(verts, edges[..i], m, p, cs);
    assert outs[i] == EdgeOutput(verts, edges[i], m, p, cs);
  }

  /** Concatenation distributes over appending lists of parts. */
  lemma {:induction false} ConcatAppend(a: seq<seq<Stroke>>, b: seq<seq<Stroke>>)
    ensures Concat(a + b) == Concat(a) + Concat(b)
    decreases |b|
  {
    if |b| == 0 {
      assert a + b == a;
    } else {
      var init, last := b[..|b| - 1], b[|b| - 1];
      assert (a + b)[..|a + b| - 1] == a + init;
      assert (a + b)[|a + b| - 1] == last;
      assert Concat(a + b) == Concat(a + init) + last;
      ConcatAppend(a, init);
      assert Concat(b) == Concat(init) + last;
    }
  }

  /** Rendering two lists of edges one after the other gives their strokes one after
      the other: the output keeps the edge order. */
  lemma RenderEdgesAppend(verts: seq<Vec4>, e1: seq<(int, int)>, e2: seq<(int, int)>,
                          m: Mat4, p: Mat4, cs: bool)
    requires AllValid(verts, e1) && AllValid(verts, e2)
    ensures AllValid(verts, e1 + e2)
    ensures RenderEdges(verts, e1 + e2, m, p, cs) == RenderEdges(verts, e1, m, p, cs) + RenderEdges(verts, e2, m, p, cs)
  {
    ValidConcat(verts, e1, e2);
    var o1, o2 := EdgeOutputs(verts, e1, m, p, cs), EdgeOutputs(verts, e2, m, p, cs);
    var o := EdgeOutputs(verts, e1 + e2, m, p, cs);
    forall k | 0 <= k < |o|
      ensures o[k] == (o1 + o2)[k]
    {
      if k < |e1| {
        assert (e1 + e2)[k] == e1[k];
      } else {
        assert (e1 + e2)[k] == e2[k - |e1|];
      }
    }
    assert o == o1 + o2;
    ConcatAppend(o1, o2);
  }

  lemma ValidConcat(verts: seq<Vec4>, e1: seq<(int, int)>, e2: seq<(int, int)>)
    requires AllValid(verts, e1) && AllValid(verts, e2)
    ensures AllValid(verts, e1 + e2)
  {
    forall k | 0 <= k < |e1 + e2|
      ensures ValidEdge(verts, (e1 + e2)[k])
    {
      if k < |e1| {
        assert (e1 + e2)[k] == e1[k];
      } else {
        assert (e1 + e2)[k] == e2[k - |e1|];
      }
    }
  }

  /** A single edge draws one stroke or none. */
  lemma RenderSingleEdge(verts: seq<Vec4>, e: (int, int), m: Mat4, p: Mat4, cs: bool)
    requires ValidEdge(verts, e)
    ensures AllValid(verts, [e])
    ensures RenderEdges(verts, [e], m, p, cs) == EdgeOutput(verts, e, m, p, cs)
    ensures |RenderEdges(verts, [e], m, p, cs)| <= 1
  {
    var outs := EdgeOutputs(verts, [e], m, p, cs);
    assert outs[..0] == [];
    assert Concat(outs) == Concat([]) + outs[0];
  }

  /** Parts of at most one stroke each concatenate to no more strokes than parts,
      and parts of exactly one stroke each to exactly as many. */
  lemma {:induction false} ConcatLength(parts: seq<seq<Stroke>>)
    requires forall k | 0 <= k < |parts| :: |parts[k]| <= 1
    ensures |Concat(parts)| <= |parts|
    ensures (forall k | 0 <= k < |parts| :: |parts[k]| == 1) ==> |Concat(parts)| == |parts|
  {
    if |parts| > 0 {
      var init := parts[..|parts| - 1];
      assert forall k | 0 <= k < |init| :: init[k] == parts[k];
      ConcatLength(init);
    }
  }

  /** renderObject draws at most one stroke per edge. */
  lemma RenderEdgesCount(verts: seq<Vec4>, edges: seq<(int, int)>, m: Mat4, p: Mat4, cs: bool)
    requires AllValid(verts, edges)
    ensures |RenderEdges(verts, edges, m, p, cs)| <= |edges|
  {
    ConcatLength(EdgeOutputs(verts, edges, m, p, cs));
  }

  /** When every vertex lands in the cube with a non-zero clip w, every edge is drawn:
      exactly one stroke per edge. */
  lemma AllInsideAllDrawn(verts: seq<Vec4>, edges: seq<(int, int)>, m: Mat4, p: Mat4, cs: bool)
    requires AllValid(verts, edges)
    requires forall i | 0 <= i < |verts| ::
               ClipOf(verts, m, p, i).w != 0.0 && InsideCube(Divide(ClipOf(verts, m, p, i)))
    ensures |RenderEdges(verts, edges, m, p, cs)| == |edges|
  {
    var outs := EdgeOutputs(verts, edges, m, p, cs);
    forall k | 0 <= k < |outs|
      ensures |outs[k]| == 1
    {
      var e := edges[k];
      InsideEdgeDrawn(ClipOf(verts, m, p, e.0), ClipOf(verts, m, p, e.1), cs);
    }
    ConcatLength(outs);
  }

  /** A pixel inside the half-open window [0, WindowW) x [0, WindowH). */
  predicate InWindow(q: Pixel)
  {
    0 <= q.x < WindowW && 0 <= q.y < WindowH
  }

  predicate StrokeInWindow(s: Stroke)
  {
    forall k | 0 <= k < |s.pixels| :: InWindow(s.pixels[k])
  }

  /** No pixel of any of the strokes falls outside the window. */
  predicate AllInWindow(strokes: seq<Stroke>)
  {
    forall i | 0 <= i < |strokes| :: StrokeInWindow(strokes[i])
  }

  /** An NDC point in the cube whose screen pixel lies inside the window: left of the
      last 1/WindowW of the x range and below the last 1/WindowH of the y range. */
  predicate OnScreen(n: Vec4)
  {
    InsideCube(n) && n.x < 1.0 - 1.0 / (WindowW as real) && n.y < 1.0 - 1.0 / (WindowH as real)
  }

  /** An edge whose two ends divide onto the screen is drawn, and every pixel of its
      stroke lies inside the window. */
  lemma OnScreenEdgeInWindow(c0: Vec4, c1: Vec4, cs: bool)
    requires c0.w != 0.0 && c1.w != 0.0
    requires OnScreen(Divide(c0)) && OnScreen(Divide(c1))
    ensures EdgeStroke(c0, c1, cs).Some?
    ensures StrokeInWindow(EdgeStroke(c0, c1, cs).value)
  {
    InsideEdgeDrawn(c0, c1, cs);
    var n0, n1 := Divide(c0), Divide(c1);
    ScreenInWindow(n0.x, WindowW);
    ScreenInWindow(n0.y, WindowH);
    ScreenInWindow(n1.x, WindowW);
    ScreenInWindow(n1.y, WindowH);
    var a, b := ScreenOf(n0), ScreenOf(n1);
    var pts := DdaPoints(a.x, a.y, b.x, b.y);
    assert EdgeStroke(c0, c1, cs).value.pixels == pts;
    forall k | 0 <= k < |pts|
      ensures InWindow(pts[k])
    {
      DdaWithinEnds(a.x, a.y, b.x, b.y, k);
    }
  }

  /** Parts whose strokes all lie in the window concatenate to strokes in the window. */
  lemma {:induction false} ConcatInWindow(parts: seq<seq<Stroke>>)
    requires forall k | 0 <= k < |parts| :: AllInWindow(parts[k])
    ensures AllInWindow(Concat(parts))
  {
    if |parts| > 0 {
      var init, last := parts[..|parts| - 1], parts[|parts| - 1];
      assert forall k | 0 <= k < |init| :: init[k] == parts[k];
      ConcatInWindow(init);
      var a := Concat(init);
      forall i | 0 <= i < |a + last|
        ensures StrokeInWindow((a + last)[i])
      {
        if i < |a| {
          assert (a + last)[i] == a[i];
        } else {
          assert (a + last)[i] == last[i - |a|];
        }
      }
    }
  }

  /** When every vertex has a non-zero clip w and divides onto the screen, every edge is
      drawn, exactly one stroke each, and no pixel of any stroke falls outside the window. */
  lemma AllOnScreenInWindow(verts: seq<Vec4>, edges: seq<(int, int)>, m: Mat4, p: Mat4, cs: bool)
    requires AllValid(verts, edges)
    requires forall i | 0 <= i < |verts| ::
               ClipOf(verts, m, p, i).w != 0.0 && OnScreen(Divide(ClipOf(verts, m, p, i)))
    ensures |RenderEdges(verts, edges, m, p, cs)| == |edges|
    ensures AllInWindow(RenderEdges(verts, edges, m, p, cs))
  {
    AllInsideAllDrawn(verts, edges, m, p, cs);
    var outs := EdgeOutputs(verts, edges, m, p, cs);
    forall k | 0 <= k < |outs|
      ensures AllInWindow(outs[k])
    {
      var e := edges[k];
      OnScreenEdgeInWindow(ClipOf(verts, m, p, e.0), ClipOf(verts, m, p, e.1), cs);
    }
    ConcatInWindow(outs);
  }
}
