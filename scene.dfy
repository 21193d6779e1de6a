/** The scene display draws: the two sample objects cubeObj and pyramidObj and the
    placements display composes for them in front of the global model matrix. */
module Scene {
  import opened Algebra
  import opened Transforms
  import opened Clip
  import opened Viewport
  import opened Render

  /** cubeObj: the corners of [-1,1]^3 and its twelve edges (bottom face, top face,
      then the four uprights). */
  function CubeObj(): (o: Object3D)
    ensures WellFormed(o) && |o.verts| == 8 && |o.edges| == 12
  {
    Object3D([MakeVec(-1.0, -1.0, -1.0), MakeVec(1.0, -1.0, -1.0), MakeVec(1.0, 1.0, -1.0), MakeVec(-1.0, 1.0, -1.0),
              MakeVec(-1.0, -1.0, 1.0), MakeVec(1.0, -1.0, 1.0), MakeVec(1.0, 1.0, 1.0), MakeVec(-1.0, 1.0, 1.0)],
             [(0, 1), (1, 2), (2, 3), (3, 0),
              (4, 5), (5, 6), (6, 7), (7, 4),
              (0, 4), (1, 5), (2, 6), (3, 7)])
  }

  /** pyramidObj: a square base at z = -1 and an apex at (0, 0, 1.5), with the four
      base edges and the four edges up to the apex. */
  function PyramidObj(): (o: Object3D)
    ensures WellFormed(o) && |o.verts| == 5 && |o.edges| == 8
  {
    Object3D([MakeVec(-1.0, -1.0, -1.0), MakeVec(1.0, -1.0, -1.0), MakeVec(1.0, 1.0, -1.0), MakeVec(-1.0, 1.0, -1.0),
              MakeVec(0.0, 0.0, 1.5)],
             [(0, 1), (1, 2), (2, 3), (3, 0), (0, 4), (1, 4), (2, 4), (3, 4)])
  }

  /** The two ends of an edge differ in exactly one coordinate, by 2. */
  predicate AxisEdge(a: Vec4, b: Vec4)
  {
    (a.y == b.y && a.z == b.z && (b.x - a.x == 2.0 || a.x - b.x == 2.0)) ||
    (a.x == b.x && a.z == b.z && (b.y - a.y == 2.0 || a.y - b.y == 2.0)) ||
    (a.x == b.x && a.y == b.y && (b.z - a.z == 2.0 || a.z - b.z == 2.0))
  }

  /** Every vertex of the sample objects is a point (w = 1), and every cube edge runs
      along one axis over the full side of length 2. */
  lemma SampleShapes()
    ensures forall i | 0 <= i < |CubeObj().verts| :: CubeObj().verts[i].w == 1.0
    ensures forall i | 0 <= i < |PyramidObj().verts| :: PyramidObj().verts[i].w == 1.0
    ensures forall k | 0 <= k < |CubeObj().edges| ::
              AxisEdge(CubeObj().verts[CubeObj().edges[k].0], CubeObj().verts[CubeObj().edges[k].1])
  {
    var c := CubeObj();
    forall k | 0 <= k < |c.edges|
      ensures AxisEdge(c.verts[c.edges[k].0], c.verts[c.edges[k].1])
    {
      assert k in {0, 1, 2, 3, 4, 5, 6, 7, 8, 9, 10, 11};
    }
  }

  /** The cube's model matrix in display: model * translate(-2.5, 0, -8). */
  function CubePlacement(model: Mat4): Mat4
  {
    Product(model, Translate(-2.5, 0.0, -8.0))
  }

  /** The pyramid's model matrix in display: model * translate(2, -0.5, -6) * scaleM(0.9),
      grouped from the left as C++ does. */
  function PyramidPlacement(model: Mat4): Mat4
  {
    Product(Product(model, Translate(2.0, -0.5, -6.0)), ScaleM(0.9, 0.9, 0.9))
  }

  /** The cube is moved by (-2.5, 0, -8) before the global model matrix acts. */
  lemma CubePlacementEffect(model: Mat4, v: Vec4)
    ensures Apply(CubePlacement(model), v) == Apply(model, Vec4(v.x - 2.5 * v.w, v.y, v.z - 8.0 * v.w, v.w))
  {
    ApplyProduct(model, Translate(-2.5, 0.0, -8.0), v);
    TranslateEffect(-2.5, 0.0, -8.0, v);
  }

  /** The pyramid is scaled by 0.9 first, then moved by (2, -0.5, -6), then the global
      model matrix acts. */
  lemma PyramidPlacementEffect(model: Mat4, v: Vec4)
    ensures Apply(PyramidPlacement(model), v)
         == Apply(model, Vec4(0.9 * v.x + 2.0 * v.w, 0.9 * v.y - 0.5 * v.w, 0.9 * v.z - 6.0 * v.w, v.w))
  {
    var t := Product(model, Translate(2.0, -0.5, -6.0));
    var s := Apply(ScaleM(0.9, 0.9, 0.9), v);
    ApplyProduct(t, ScaleM(0.9, 0.9, 0.9), v);
    ScaleMEffect(0.9, 0.9, 0.9, v);
    ApplyProduct(model, Translate(2.0, -0.5, -6.0), s);
    TranslateEffect(2.0, -0.5, -6.0, s);
  }

  /** With the initial model matrix (the identity) the placements are the bare
      translate and translate * scale. */
  lemma InitialPlacements()
    ensures CubePlacement(Identity()) == Translate(-2.5, 0.0, -8.0)
    ensures PyramidPlacement(Identity()) == Product(Translate(2.0, -0.5, -6.0), ScaleM(0.9, 0.9, 0.9))
  {
    IdentityLeft(Translate(-2.5, 0.0, -8.0));
    IdentityLeft(Translate(2.0, -0.5, -6.0));
  }

  /** The two renderObject calls of display: the cube's strokes, then the pyramid's. */
  method DrawScene(model: Mat4, view: View) returns (strokes: seq<Stroke>)
    ensures strokes == RenderView(CubeObj(), CubePlacement(model), view)
                     + RenderView(PyramidObj(), PyramidPlacement(model), view)
  {
    var cubeModel := Mul(model, Translate(-2.5, 0.0, -8.0));
    var cubeStrokes := RenderObject(CubeObj(), cubeModel, view);
    var moved := Mul(model, Translate(2.0, -0.5, -6.0));
    var pyramidModel := Mul(moved, ScaleM(0.9, 0.9, 0.9));
    var pyramidStrokes := RenderObject(PyramidObj(), pyramidModel, view);
    strokes := cubeStrokes + pyramidStrokes;
  }

  /** An eye-space point (w = 1) in front of the eye and inside the perspective frustum
      of the view projects and divides into the view cube. */
  lemma FrustumVisible(view: View, q: Vec4)
    requires view.usePerspective && q.w == 1.0 && q.z < 0.0
    requires -(Aspect * -q.z) <= view.focal * q.x <= Aspect * -q.z && q.z <= view.focal * q.y <= -q.z
    requires NearP <= -q.z <= FarP
    ensures Apply(Projection(view), q).w != 0.0
    ensures InsideCube(Divide(Apply(Projection(view), q)))
  {
    PerspectiveFrustumIffCube(view.focal, Aspect, NearP, FarP, q);
  }

  /** A point inside the frustum with a margin of 1% inside its right and top faces also
      lands on a pixel inside the window: it divides onto the screen. */
  lemma FrustumOnScreen(view: View, q: Vec4)
    requires view.usePerspective && q.w == 1.0 && q.z < 0.0
    requires -(Aspect * -q.z) <= view.focal * q.x <= 0.99 * (Aspect * -q.z)
    requires q.z <= view.focal * q.y <= 0.99 * -q.z
    requires NearP <= -q.z <= FarP
    ensures Apply(Projection(view), q).w != 0.0
    ensures OnScreen(Divide(Apply(Projection(view), q)))
  {
    FrustumVisible(view, q);
    PerspectiveEffect(view.focal, Aspect, NearP, FarP, q);
    MarginX(Apply(Projection(view), q), view.focal, q);
    MarginY(Apply(Projection(view), q), view.focal, q);
  }

  /** The divided x of a clip point stays left of the window's last pixel column. */
  lemma MarginX(c: Vec4, f: real, q: Vec4)
    requires q.z < 0.0 && c.x == f / Aspect * q.x && c.w == -q.z
    requires f * q.x <= 0.99 * (Aspect * -q.z)
    ensures Divide(c).x < 1.0 - 1.0 / (WindowW as real)
  {
    MulDiv(f, Aspect, q.x);
    DivUpper(c.x, c.w, 0.99);
  }

  /** The divided y of a clip point stays below the window's last pixel row. */
  lemma MarginY(c: Vec4, f: real, q: Vec4)
    requires q.z < 0.0 && c.y == f * q.y && c.w == -q.z
    requires f * q.y <= 0.99 * -q.z
    ensures Divide(c).y < 1.0 - 1.0 / (WindowH as real)
  {
    DivUpper(c.y, c.w, 0.99);
  }

  /** The placed cube corner q = (x - 2.5, y, z - 8) lies in the frustum for f in (0, 2.5],
      with the 1% margin of FrustumOnScreen. */
  lemma CubeCornerInFrustum(f: real, v: Vec4, q: Vec4)
    requires 0.0 < f <= 2.5
    requires (v.x == -1.0 || v.x == 1.0) && (v.y == -1.0 || v.y == 1.0) && (v.z == -1.0 || v.z == 1.0)
    requires q == Vec4(v.x - 2.5, v.y, v.z - 8.0, 1.0)
    ensures -(Aspect * -q.z) <= f * q.x <= 0.99 * (Aspect * -q.z) && q.z <= f * q.y <= 0.99 * -q.z
    ensures NearP <= -q.z <= FarP
  {
  }

  /** The placed pyramid vertex q = (0.9 x + 2, 0.9 y - 0.5, 0.9 z - 6) lies in the frustum, with the
      same margin. */
  lemma PyramidVertexInFrustum(f: real, v: Vec4, q: Vec4)
    requires 0.0 < f <= 2.5
    requires (v.z == -1.0 && (v.x == -1.0 || v.x == 1.0) && (v.y == -1.0 || v.y == 1.0))
          || (v.x == 0.0 && v.y == 0.0 && v.z == 1.5)
    requires q == Vec4(0.9 * v.x + 2.0, 0.9 * v.y - 0.5, 0.9 * v.z - 6.0, 1.0)
    ensures -(Aspect * -q.z) <= f * q.x <= 0.99 * (Aspect * -q.z) && q.z <= f * q.y <= 0.99 * -q.z
    ensures NearP <= -q.z <= FarP
  {
  }

  /** A cube corner, placed by display with the initial model matrix and projected with
      a focal factor f in (0, 2.5], divides onto the screen. The initial field of view
      of 60 degrees gives f = 1/tan(30 degrees), about 1.73. */
  lemma CubeCornerVisible(view: View, v: Vec4)
    requires view.usePerspective && 0.0 < view.focal <= 2.5
    requires v.w == 1.0 && (v.x == -1.0 || v.x == 1.0) && (v.y == -1.0 || v.y == 1.0) && (v.z == -1.0 || v.z == 1.0)
    ensures Apply(Projection(view), Apply(CubePlacement(Identity()), v)).w != 0.0
    ensures OnScreen(Divide(Apply(Projection(view), Apply(CubePlacement(Identity()), v))))
  {
    var q := Vec4(v.x - 2.5, v.y, v.z - 8.0, 1.0);
    CubePlacementEffect(Identity(), v);
    assert Apply(CubePlacement(Identity()), v) == q;
    CubeCornerInFrustum(view.focal, v, q);
    FrustumOnScreen(view, q);
  }

  /** A pyramid vertex, placed and projected the same way, divides onto the screen. */
  lemma PyramidVertexVisible(view: View, v: Vec4)
    requires view.usePerspective && 0.0 < view.focal <= 2.5
    requires v.w == 1.0
    requires (v.z == -1.0 && (v.x == -1.0 || v.x == 1.0) && (v.y == -1.0 || v.y == 1.0))
          || (v.x == 0.0 && v.y == 0.0 && v.z == 1.5)
    ensures Apply(Projection(view), Apply(PyramidPlacement(Identity()), v)).w != 0.0
    ensures OnScreen(Divide(Apply(Projection(view), Apply(PyramidPlacement(Identity()), v))))
  {
    var q := Vec4(0.9 * v.x + 2.0, 0.9 * v.y - 0.5, 0.9 * v.z - 6.0, 1.0);
    PyramidPlacementEffect(Identity(), v);
    assert Apply(PyramidPlacement(Identity()), v) == q;
    PyramidVertexInFrustum(view.focal, v, q);
    FrustumOnScreen(view, q);
  }

  /** With the initial model matrix and a focal factor in (0, 2.5], all twelve cube edges
      and all eight pyramid edges are drawn, and no pixel of them falls outside the window. */
  lemma InitialSceneFullyDrawn(view: View)
    requires view.usePerspective && 0.0 < view.focal <= 2.5
    ensures |RenderView(CubeObj(), CubePlacement(Identity()), view)| == 12
    ensures |RenderView(PyramidObj(), PyramidPlacement(Identity()), view)| == 8
    ensures AllInWindow(RenderView(CubeObj(), CubePlacement(Identity()), view))
    ensures AllInWindow(RenderView(PyramidObj(), PyramidPlacement(Identity()), view))
  {
    var p := Projection(view);
    var cube, cm := CubeObj(), CubePlacement(Identity());
    forall i | 0 <= i < |cube.verts|
      ensures ClipOf(cube.verts, cm, p, i).w != 0.0 && OnScreen(Divide(ClipOf(cube.verts, cm, p, i)))
    {
      assert i in {0, 1, 2, 3, 4, 5, 6, 7};
      CubeCornerVisible(view, cube.verts[i]);
    }
    AllOnScreenInWindow(cube.verts, cube.edges, cm, p, view.colorShading);
    var pyramid, pm := PyramidObj(), PyramidPlacement(Identity());
    forall i | 0 <= i < |pyramid.verts|
      ensures ClipOf(pyramid.verts, pm, p, i).w != 0.0 && OnScreen(Divide(ClipOf(pyramid.verts, pm, p, i)))
    {
      assert i in {0, 1, 2, 3, 4};
      PyramidVertexVisible(view, pyramid.verts[i]);
    }
    AllOnScreenInWindow(pyramid.verts, pyramid.edges, pm, p, view.colorShading);
  }
}
