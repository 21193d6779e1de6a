# Wireframe 3D transform pipeline, modelled in Dafny

The program draws a wireframe cube and a wireframe pyramid. Its geometry pipeline works like this:

- Vertices are homogeneous 4-vectors.
- Each vertex is moved by a 4×4 model matrix, then projected by a perspective or an orthographic matrix.
- The projected point is divided by its clip `w`.
- An edge is dropped when one of its ends has clip `w` = 0, or when the two ends' outcodes share a bit (trivial reject).
- A surviving edge's ends are mapped to window pixels.
- The edge is shaded by its mean depth and rasterized with a DDA line algorithm.

This project models that pipeline with `real` arithmetic and proves what each stage promises.

Modules, one file each:

| module | file | contents |
|---|---|---|
| `Algebra` | `algebra.dfy` | `Vec4`, `makeVec`, `Mat4` as a 4×4 value, `Mat4::identity`, the two `operator*` |
| `Transforms` | `transforms.dfy` | the matrix builders |
| `Clip` | `clip.dfy` | the `outside` outcode lambda and the trivial reject |
| `Viewport` | `viewport.dfy` | `ndcToScreen` |
| `Raster` | `raster.dfy` | `drawLineDDA` |
| `Shading` | `shading.dfy` | the depth shade and the edge colour |
| `Render` | `render.dfy` | the `renderObject` loop |
| `Scene` | `scene.dfy` | the sample objects and the two placements `display` passes to `renderObject` |

Where the source loops or updates variables, the model is a method, proved against a specification function:

- `Mul` against `Product`
- `MakeIdentity` against `Identity`
- `Outside` against `Outcode`
- `NdcToScreen` against `ScreenCoord`
- `DrawLineDDA` against `DdaPoints`
- `RenderObject` against `RenderView`

The builders and the other pure code are functions, with lemmas about them.

The OpenGL calls are not modelled as calls:

- `glVertex2i` inside `GL_POINTS` becomes a pixel in a returned sequence.
- `glColor3f` followed by `drawLineDDA` becomes a `Stroke`, which holds a colour and the line's pixels.
- `renderObject` returns its strokes in edge order.

## Model

| member | source | states |
|---|---|---|
| Algebra.MakeVec | main.c++:24 | the vector has the given x, y, z and w = 1 |
| Algebra.Zero | main.c++:28 | the default-constructed matrix has all sixteen entries zero |
| Algebra.Identity | main.c++:29-31 | applying the identity leaves every component of every vector unchanged |
| Algebra.IdentityEntries | main.c++:29-31 | identity has 1 on the diagonal and 0 elsewhere |
| Algebra.MakeIdentity | main.c++:29-31 | the loop writing 1 on the diagonal of a zero matrix produces the identity |
| Algebra.Apply | main.c++:47-54 | Mat4 * Vec4, each component the dot product of a row with the vector; ApplyProduct, ApplyDetermines and Identity state what it satisfies |
| Algebra.ProductEntry | main.c++:34-44 | entry (i,j) of the product is the sum over k of a[i][k]·b[k][j], i.e. row i of a dotted with column j of b |
| Algebra.Mul | main.c++:34-44 | the triple loop accumulating s over k returns the matrix product, entry by entry |
| Algebra.Product | main.c++:34-44 | the reference matrix product that Mul is proved equal to; ProductEntry, ApplyProduct, IdentityLeft/IdentityRight and Associative state its properties |
| Algebra.ApplyDetermines | main.c++:47-54 | two matrices that act alike on every vector are equal |
| Algebra.DotProductRow | main.c++:34-54 | row r of (a·b), applied to v, equals row r of a applied to b·v |
| Algebra.ApplyProduct | main.c++:34-54 | (a·b)·v == a·(b·v): a product acts as its factors applied right to left |
| Algebra.ProductFromAction | main.c++:34-54 | a matrix that acts like a followed after b is their product |
| Algebra.IdentityLeft | main.c++:29-44 | identity·a == a |
| Algebra.IdentityRight | main.c++:29-44 | a·identity == a |
| Algebra.ProductColumn | main.c++:34-54 | column j of b·c is b applied to column j of c |
| Algebra.AssociativeEntry | main.c++:34-44 | each entry of (a·b)·c equals that of a·(b·c) |
| Algebra.Associative | main.c++:34-44 | (a·b)·c == a·(b·c), so the grouping of display's chained products does not matter |
| Algebra.Divide | main.c++:218-219 | the NDC point has w = 1, and multiplying each of its x, y, z by the clip w gives back the clip point |
| Transforms.Translate | main.c++:58-62 | the identity with three single-entry writes; TranslateLayout and TranslateEffect give the result and its action |
| Transforms.ScaleM | main.c++:63-67 | four diagonal writes into a zero matrix; ScaleMLayout and ScaleMEffect give the result and its action |
| Transforms.RotateX | main.c++:68-74 | four writes into the identity, with cos and sin as parameters; RotateXLayout and RotateXEffect give the result and its action |
| Transforms.RotateY | main.c++:75-81 | the same for rotateY; RotateYLayout and RotateYEffect give the result and its action |
| Transforms.RotateZ | main.c++:82-88 | the same for rotateZ; RotateZLayout, RotateZEffect and RotationRadius give the result, its action and that it keeps the radius |
| Transforms.Ortho | main.c++:91-101 | seven writes into a zero matrix; OrthoLayout, OrthoEffect and OrthoBoxIffCube give the result, its action and that the view box maps onto the NDC cube |
| Transforms.Perspective | main.c++:102-112 | five writes into a zero matrix, with f given; PerspectiveLayout, PerspectiveEffect and PerspectiveFrustumIffCube give the result, its action and that the frustum maps onto the NDC cube |
| Transforms.TranslateLayout | main.c++:58-62 | translate is the identity with tx, ty, tz in the last column |
| Transforms.TranslateEffect | main.c++:58-62 | translate moves a vector by (tx, ty, tz)·w and keeps w |
| Transforms.ScaleMLayout | main.c++:63-67 | scaleM is diagonal (sx, sy, sz, 1) |
| Transforms.ScaleMEffect | main.c++:63-67 | scaleM scales x, y, z by sx, sy, sz and keeps w |
| Transforms.RotateXLayout | main.c++:68-74 | rotateX's entries, with cos and sin as parameters |
| Transforms.RotateXEffect | main.c++:68-74 | rotateX keeps x and w and maps (y, z) to (c·y − s·z, s·y + c·z) |
| Transforms.RotateYLayout | main.c++:75-81 | rotateY's entries |
| Transforms.RotateYEffect | main.c++:75-81 | rotateY keeps y and w and maps (x, z) to (c·x + s·z, c·z − s·x) |
| Transforms.RotateZLayout | main.c++:82-88 | rotateZ's entries |
| Transforms.RotateZEffect | main.c++:82-88 | rotateZ keeps z and w and maps (x, y) to (c·x − s·y, s·x + c·y) |
| Transforms.RotateZQuarterTurn | main.c++:82-88 | with cos = 0 and sin = 1, the x axis point turns into the y axis point |
| Transforms.RotateZPreservesRadius | main.c++:82-88 | when c² + s² = 1, rotateZ keeps z, w and the distance from the z axis |
| Transforms.RotationRadius | main.c++:82-88 | a plane rotation with c² + s² = 1 keeps x² + y² |
| Transforms.TranslateOrigin | main.c++:58-62 | translate carries the origin point to (tx, ty, tz) |
| Transforms.TranslateCompose | main.c++:34-62 | the product of two translations is the translation by the sum |
| Transforms.OrthoLayout | main.c++:91-101 | makeOrthoMatrix's seven non-zero entries |
| Transforms.OrthoEffect | main.c++:91-101 | each axis is mapped affinely by (2u − (hi+lo)w)/(hi−lo), with depth negated; w is kept |
| Transforms.OrthoRows | main.c++:91-101 | the matrix with makeOrthoMatrix's rows maps each axis affinely on its own, flips z and keeps w |
| Transforms.OrthoAxisEnds | main.c++:93-98 | the affine axis map sends lo to −1 and hi to +1 |
| Transforms.OrthoMapsBoxFaces | main.c++:91-101 | a point (w = 1) on the left/right, bottom/top, −near/−far face goes to −1/+1 on that axis, and keeps w = 1 |
| Transforms.OrthoAxisRange | main.c++:93-98 | for lo < hi, u lies in [lo, hi] iff its image lies in [−1, 1] |
| Transforms.UnitInterval | main.c++:93-98 | for d > 0, e/d lies in [−1, 1] iff e lies in [−d, d] |
| Transforms.OrthoBoxIffCube | main.c++:91-101 | a point lies in the view box iff its image lies in the NDC cube |
| Transforms.PerspectiveLayout | main.c++:102-112 | makePerspectiveMatrix's five non-zero entries, with the focal factor f as a parameter |
| Transforms.PerspectiveEffect | main.c++:102-112 | clip x = (f/aspect)·x, clip y = f·y, clip w = −z, and clip z is the depth row |
| Transforms.NearPlaneDepth | main.c++:108-109 | a point on the near plane (z = −near, w = 1) gets clip z = −near |
| Transforms.FarPlaneDepth | main.c++:108-109 | a point on the far plane (z = −far, w = 1) gets clip z = far |
| Transforms.NearPlaneNdc | main.c++:102-112 | for near ≠ 0, a near-plane point at any x, y gets clip w = near and NDC depth −1 after the divide |
| Transforms.FarPlaneNdc | main.c++:102-112 | for far ≠ 0, a far-plane point at any x, y gets clip w = far and NDC depth +1 after the divide |
| Transforms.PerspectiveFrustumIffCube | main.c++:102-112 | for aspect > 0, 0 < near < far and a point (w = 1) in front of the eye: its clip w is −z, and it divides into the NDC cube iff −aspect·(−z) ≤ f·x ≤ aspect·(−z), z ≤ f·y ≤ −z and near ≤ −z ≤ far |
| Transforms.FrustumClip | main.c++:102-112 | the same equivalence, stated on the clip vector the perspective matrix produces |
| Transforms.FrustumX | main.c++:106 | the divided x lies in [−1, 1] iff −aspect·(−z) ≤ f·x ≤ aspect·(−z) |
| Transforms.FrustumY | main.c++:107 | the divided y lies in [−1, 1] iff z ≤ f·y ≤ −z |
| Transforms.FrustumZ | main.c++:108-110 | the divided depth lies in [−1, 1] iff near ≤ −z ≤ far |
| Transforms.PerspectiveAxisX | main.c++:106 | for aspect > 0 and d > 0, (f/aspect)·x divided by d lies in [−1, 1] iff −aspect·d ≤ f·x ≤ aspect·d |
| Transforms.DepthNumerator | main.c++:108-109 | the depth row at w = 1 is (−(far+near)·z − 2·far·near)/(far − near) |
| Transforms.DepthBounds | main.c++:108-109 | for 0 < near < far and z < 0, the numerator of the depth row lies within ±(far − near)·(−z) iff near ≤ −z ≤ far |
| Transforms.PerspectiveDepthRange | main.c++:108-110 | for 0 < near < far and z < 0, the clip depth divided by −z lies in [−1, 1] iff near ≤ −z ≤ far |
| Transforms.BehindEyeOutsideCube | main.c++:102-112 | for 0 < near < far, a point behind the eye (z > 0, w = 1) gets clip w = −z and a divided depth above 1, so it never divides into the cube |
| Transforms.BehindDepth | main.c++:108-110 | the same depth bound, stated on the clip vector |
| Clip.FaceBit | main.c++:199-204 | each face's bit is a single bit in the low six |
| Clip.Outcode | main.c++:197-206 | one bit per face test, ORed; OutcodeFaces and OutcodeZeroIffInside state which bits are set and when it is zero |
| Clip.OutcodeFaces | main.c++:197-206 | a face's bit is set iff the point lies beyond that face; bits above the sixth are never set |
| Clip.Outside | main.c++:197-206 | the lambda ORing one bit per failed face test computes the outcode |
| Clip.OutcodeZeroIffInside | main.c++:197-206 | the outcode is 0 iff the point lies in the closed cube [−1,1]³ |
| Clip.RejectIffSharedFace | main.c++:221-222 | two outcodes share a bit iff both points lie beyond a common face |
| Clip.SingleBitShared | main.c++:222 | two words that both contain one and the same bit have a non-zero AND |
| Clip.RejectedSegmentOutside | main.c++:221-222 | when the test rejects an edge, no point of the segment between its ends lies in the cube |
| Clip.BetweenAbove | main.c++:221-222 | a segment whose two ends exceed a bound exceeds it everywhere |
| Clip.BetweenBelow | main.c++:221-222 | the same for a bound that both ends stay below |
| Viewport.Trunc | main.c++:117-118 | the (int) cast truncates toward zero |
| Viewport.TruncMonotone | main.c++:117-118 | truncation never reverses order |
| Viewport.ScreenCoord | main.c++:117-118 | one pixel coordinate, (int)((c·0.5 + 0.5)·size + 0.5); ScreenEnds, ScreenMonotone, ScreenRange and ScreenRoundsNearest state its properties |
| Viewport.NdcToScreen | main.c++:115-119 | the pixel is (int)((c·0.5 + 0.5)·size + 0.5) on each axis; NDC in [−1,1] lands in [0, size] |
| Viewport.ScreenEnds | main.c++:115-119 | NDC −1 maps to pixel 0 and +1 to the window size |
| Viewport.ScreenMonotone | main.c++:115-119 | a larger NDC coordinate never gets a smaller pixel |
| Viewport.ScreenRange | main.c++:115-119 | NDC in [−1, 1] lands in [0, size] |
| Viewport.ScreenRoundsNearest | main.c++:115-119 | wherever the scaled value is at least −0.5, the pixel is within 0.5 of it |
| Viewport.ScreenTruncatesLeftOfWindow | main.c++:117 | left of the window, truncating differs from rounding: −0.9 is sent to pixel 0 |
| Viewport.ScreenInWindow | main.c++:115-119 | a coordinate c ≥ −1 gives a pixel ≥ 0, and that pixel is below the window size iff c < 1 − 1/size |
| Raster.RoundF | main.c++:135 | roundf rounds to the nearest integer, with halves away from zero |
| Raster.RoundFIntegral | main.c++:135 | rounding an integer gives the integer back |
| Raster.RoundFMonotone | main.c++:135 | rounding never reverses order |
| Raster.DdaPoints | main.c++:122-139 | the line has steps + 1 points, where steps = max(abs(dx), abs(dy)); the first point is (x0,y0) and the last is (x1,y1) |
| Raster.AccEnd | main.c++:130-136 | the accumulator starts at exactly x0 and, after steps increments, is exactly x0 + dx = x1; both round to themselves |
| Raster.DrawLineDDA | main.c++:122-139 | the loop whose accumulators advance by dx/steps and dy/steps produces exactly DdaPoints, including the single-point case |
| Raster.AccStep | main.c++:136 | one increment moves the accumulator from index i to index i + 1 |
| Raster.DdaSinglePoint | main.c++:126-129 | coinciding ends give exactly one point |
| Raster.DdaHorizontalRow | main.c++:122-139 | the line from (0,0) to (5,0) is the six pixels (0,0), (1,0), …, (5,0), in that order |
| Raster.DominantAxis | main.c++:125-136 | on the dominant axis the increment is ±1, so point i sits exactly i pixels from the start toward the end |
| Raster.AxisStep | main.c++:130-136 | on any axis, consecutive points differ by at most 1 and never move away from the end |
| Raster.DdaPointAt | main.c++:134-135 | point k is the rounded pair of accumulators after k increments |
| Raster.DdaSteps | main.c++:122-139 | consecutive points step exactly one pixel on the dominant axis, toward the end, and at most one on the other |
| Raster.DdaStepX | main.c++:122-139 | the x half of DdaSteps |
| Raster.DdaStepY | main.c++:122-139 | the y half of DdaSteps |
| Raster.AccBetween | main.c++:130-136 | between index 0 and index steps the accumulator stays between x0 and x1 |
| Raster.AxisWithinEnds | main.c++:130-136 | every rounded accumulator lies between the two ends of its axis |
| Raster.DdaWithinEnds | main.c++:122-139 | every pixel of the line lies in the bounding box of its two ends |
| Shading.Clamp01 | main.c++:230 | the clamp lies in [0,1]; it is the identity inside [0,1], 0 below and 1 above |
| Shading.Shade | main.c++:228-230 | the shade of an edge always lies in [0, 1] |
| Shading.ShadeLinear | main.c++:228-230 | inside the depth range the shade is (1 − depth)/2 |
| Shading.ShadeNearFar | main.c++:228-230 | depth ≤ −1 gives full brightness and depth ≥ 1 gives full darkness |
| Shading.ShadeAntitone | main.c++:228-230 | a deeper edge is never brighter |
| Shading.EdgeColor | main.c++:232-233 | without colour shading the colour is white; with it, red is in [0.2,1], green is 0.2 and blue is in [0.1,0.6] |
| Shading.EdgeColorOrder | main.c++:232 | shade 0 gives (0.2,0.2,0.1) and shade 1 gives (1,0.2,0.6); red and blue grow with the shade |
| Render.AllValidPrefix | main.c++:208-210 | a prefix of an edge list with valid vertex indices also has valid indices |
| Render.Projection | main.c++:190-195 | the perspective matrix, or the orthographic box of half-width 4 and depth range [−50, 50]; ProjectionW, PerspectiveFrustumIffCube and OrthoBoxIffCube state what they do |
| Render.ProjectionW | main.c++:190-195 | in perspective mode clip w is −z; in orthographic mode clip w is w |
| Render.EdgeSkippedIff | main.c++:215-222 | an edge is skipped iff one clip w is 0 or both NDC ends lie beyond a common face |
| Render.NdcSkippedIff | main.c++:221-222 | the trivial reject skips iff both NDC ends lie beyond a common face |
| Render.EdgeStroke | main.c++:215-235 | what one edge draws from its clip ends; EdgeSkippedIff, EdgeDrawnEnds and InsideEdgeDrawn state when it is skipped and what is drawn |
| Render.NdcStroke | main.c++:221-235 | the trivial reject, then the drawing; NdcSkippedIff states when it skips |
| Render.DrawnStroke | main.c++:224-235 | the shaded colour and the DDA pixels between the screen ends; EdgeDrawnEnds states its first and last pixel and its colour |
| Render.EdgeDrawnEnds | main.c++:218-235 | a drawn edge's pixels run from the screen position of its first end to that of its second, in the colour of its depth shade |
| Render.InsideEdgeDrawn | main.c++:215-235 | an edge whose two ends have non-zero w and divide into the cube is always drawn |
| Render.EdgeOutputs | main.c++:208 | there is one output per edge |
| Render.RenderObject | main.c++:189-237 | the loop over the edges returns RenderView: each edge's output, in edge order |
| Render.RenderEdge | main.c++:209-222 | the loop body, with both ends through the model matrix and the projection and its `continue` on zero w, emits exactly the edge's stroke, or nothing |
| Render.NdcEdge | main.c++:221-235 | the outcode test, then the drawing: nothing when the outcodes share a bit, otherwise exactly one stroke |
| Render.DrawEdge | main.c++:224-235 | screen mapping, clamped shade, colour and DDA produce the drawn stroke |
| Render.RenderEdgesStep | main.c++:208-236 | the strokes of the first i + 1 edges are those of the first i, followed by edge i's output |
| Render.RenderEdges | main.c++:208-236 | each edge's output, one after the other; RenderEdgesStep, RenderEdgesAppend, RenderEdgesCount and AllInsideAllDrawn state its properties |
| Render.RenderView | main.c++:189-237 | what renderObject draws for an object, a model matrix and a view; RenderObject is proved to compute it |
| Render.ConcatAppend | main.c++:208-236 | concatenating a + b gives the concatenation of a, followed by that of b |
| Render.RenderEdgesAppend | main.c++:208-236 | rendering e1 + e2 gives e1's strokes, followed by e2's: edge order is kept |
| Render.ValidConcat | main.c++:208-210 | two valid edge lists concatenate to a valid one |
| Render.RenderSingleEdge | main.c++:208-236 | a single edge draws its own output, which is one stroke or none |
| Render.ConcatLength | main.c++:208-236 | parts of at most one stroke each give no more strokes than parts; parts of exactly one stroke each give exactly as many |
| Render.RenderEdgesCount | main.c++:208-236 | renderObject draws at most one stroke per edge |
| Render.AllInsideAllDrawn | main.c++:208-236 | when every vertex has non-zero w and lands in the cube, every edge draws exactly one stroke |
| Render.OnScreenEdgeInWindow | main.c++:215-235 | an edge whose two ends divide onto the screen is drawn, and every pixel of its stroke lies in [0, 900) × [0, 700) |
| Render.ConcatInWindow | main.c++:208-236 | parts whose strokes all lie in the window concatenate to strokes in the window |
| Render.AllOnScreenInWindow | main.c++:208-236 | when every vertex has non-zero w and divides onto the screen, every edge draws exactly one stroke and no pixel falls outside the window |
| Scene.CubeObj | main.c++:146-158 | the cube has 8 vertices and 12 edges, and every edge index is a valid vertex index |
| Scene.PyramidObj | main.c++:159-169 | the pyramid has 5 vertices and 8 edges, all with valid indices |
| Scene.SampleShapes | main.c++:146-169 | every sample vertex is a point (w = 1); every cube edge runs along one axis with length 2 |
| Scene.CubePlacement | main.c++:263 | model · translate(−2.5, 0, −8); CubePlacementEffect states its action |
| Scene.PyramidPlacement | main.c++:264 | (model · translate(2, −0.5, −6)) · scaleM(0.9), grouped as C++ does; PyramidPlacementEffect states its action |
| Scene.CubePlacementEffect | main.c++:263 | the cube is moved by (−2.5, 0, −8) before the global model matrix acts |
| Scene.PyramidPlacementEffect | main.c++:264 | the pyramid is scaled by 0.9, then moved by (2, −0.5, −6), then the model matrix acts |
| Scene.InitialPlacements | main.c++:175-264 | with the initial model matrix (the identity), the placements are the bare translate and translate·scale |
| Scene.DrawScene | main.c++:263-264 | display's two renderObject calls draw the cube's strokes, then the pyramid's |
| Scene.FrustumVisible | main.c++:189-222 | in perspective mode, an eye-space point inside the frustum has non-zero clip w and divides into the NDC cube |
| Scene.FrustumOnScreen | main.c++:189-222 | an eye-space point inside the frustum, at least 1% inside its right and top faces, has non-zero clip w and divides onto the part of the cube that maps inside the window |
| Scene.MarginX | main.c++:218 | the 1% margin on x keeps the divided x below 1 − 1/900 |
| Scene.MarginY | main.c++:218 | the 1% margin on y keeps the divided y below 1 − 1/700 |
| Scene.CubeCornerInFrustum | main.c++:263 | for f in (0, 2.5], every cube corner moved by (−2.5, 0, −8) lies inside the frustum, at least 1% inside its right and top faces |
| Scene.PyramidVertexInFrustum | main.c++:264 | for f in (0, 2.5], every pyramid vertex scaled by 0.9 and moved by (2, −0.5, −6) lies inside the frustum, with the same margin |
| Scene.CubeCornerVisible | main.c++:263 | with the initial model matrix, every cube corner projects with non-zero w into the NDC cube, on a part of it that maps inside the window |
| Scene.PyramidVertexVisible | main.c++:264 | with the initial model matrix, every pyramid vertex projects with non-zero w into the NDC cube, on a part of it that maps inside the window |
| Scene.InitialSceneFullyDrawn | main.c++:175-264 | with the initial model matrix, in perspective mode, and f in (0, 2.5] (the initial fov of 60° gives f ≈ 1.73), all 12 cube edges and all 8 pyramid edges are drawn, and no pixel of them falls outside [0, 900) × [0, 700) |

## Left out

- OpenGL and GLUT output (glBegin/glVertex2i/glColor3f, window setup, buffer swap): modelled as returned strokes of coloured pixels.
- Parts of display not modelled: the grid, the two axis lines, the help text and the clear colour. The grid and the help text are drawn by OpenGL directly. The two axis lines are `drawLineDDA` calls on constant pixel positions, so they use the rasterizer this model covers (`Raster.DrawLineDDA`), but they skip the transform, divide and clip stages.
- keyboard and specialKey change the global scene state and are not modelled. The model takes the state they produce as parameters: the model matrix, the `View` and the focal factor f. reshape ignores its arguments and only requests a redraw, and main only sets up the window and registers the callbacks; both are window glue and are not modelled.
- Trigonometry is left out. The focal factor f = 1/tan(fov/2) is a field of `View` and a parameter of `Transforms.Perspective`. The cosine and sine are parameters of the rotation builders. The degree-to-radian conversion, `fovDeg` itself and the keyboard's clamping of fov are therefore not modelled.
- Float rounding is not modelled: the model computes in exact reals. Constants such as 0.9f and 0.1f are their decimal values. Float overflow and NaN are out of scope.
- Viewport.NdcToScreen: the (int) cast is exact truncation of a real. Float-to-int overflow is undefined in C++ and is not modelled. The pixel coordinates are unbounded integers, so int overflow in drawLineDDA's dx, dy and abs is not modelled either.
- Render.RenderObject requires every edge index to name an existing vertex (`WellFormed`). The source indexes the vector without a check, so an out-of-range index is undefined behaviour rather than a handled case.
- Transforms.Ortho and Transforms.Perspective require non-zero denominators (right ≠ left, top ≠ bottom, far ≠ near, aspect ≠ 0). With a zero denominator the float code would produce infinities or NaN, which the real-number model cannot express. renderObject always passes values that meet these requirements.
- Viewport.ScreenMonotone states non-decreasing, not strictly increasing. With integer pixels, two nearby NDC values can share a pixel.
- Viewport.NdcToScreen adds 0.5 and truncates toward zero, where a description in terms of rounding would suggest floor. The model follows the code; `Viewport.ScreenTruncatesLeftOfWindow` shows an off-window input where the two differ.
- Scene.InitialSceneFullyDrawn covers the perspective mode with a focal factor f in (0, 2.5], which means a field of view of about 44° or more, and includes the initial 60°. The keyboard lets fov go down to 10°, and there the cube and the pyramid can leave the frustum, so narrower views are not claimed. The vertex lemmas prove the window bound with a margin of 1% inside the frustum's right and top faces, which every placed vertex meets for f in that range. The orthographic mode is not covered by this lemma.
