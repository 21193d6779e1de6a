/** Transform and projection builders of main.c++. Each builder starts from a
    zeroed or identity matrix and writes a few entries, one write at a time,
    as the source does; a Layout lemma gives the resulting matrix and an Effect
    lemma its closed-form action on an arbitrary vector.
    The rotation builders take cos and sin of the angle as parameters, and
    the perspective builder takes f = 1 / tan(fov / 2) as a parameter. */
module Transforms {
  import opened Algebra

  /** translate(tx,ty,tz). */
  function Translate(tx: real, ty: real, tz: real): Mat4
  {
    var m := Identity();
    var m := Set(m, 0, 3, tx);
    var m := Set(m, 1, 3, ty);
    Set(m, 2, 3, tz)
  }

  /** scaleM(sx,sy,sz). */
  function ScaleM(sx: real, sy: real, sz: real): Mat4
  {
    var m := Zero();
    var m := Set(m, 0, 0, sx);
    var m := Set(m, 1, 1, sy);
    var m := Set(m, 2, 2, sz);
    Set(m, 3, 3, 1.0)
  }

  /** The layout of rotateX, with c = cos(r) and s = sin(r). */
  function RotateX(c: real, s: real): Mat4
  {
    var m := Identity();
    var m := Set(m, 1, 1, c);
    var m := Set(m, 1, 2, -s);
    var m := Set(m, 2, 1, s);
    Set(m, 2, 2, c)
  }

  /** The layout of rotateY, with c = cos(r) and s = sin(r). */
  function RotateY(c: real, s: real): Mat4
  {
    var m := Identity();
    var m := Set(m, 0, 0, c);
    var m := Set(m, 0, 2, s);
    var m := Set(m, 2, 0, -s);
    Set(m, 2, 2, c)
  }

  /** The layout of rotateZ, with c = cos(r) and s = sin(r). */
  function RotateZ(c: real, s: real): Mat4
  {
    var m := Identity();
    var m := Set(m, 0, 0, c);
    var m := Set(m, 0, 1, -s);
    var m := Set(m, 1, 0, s);
    Set(m, 1, 1, c)
  }

  /** makeOrthoMatrix. The divisions by right-left, top-bottom and far-near
      must be defined. */
  function Ortho(left: real, right: real, bottom: real, top: real, nearp: real, farp: real): Mat4
    requires right != left && top != bottom && farp != nearp
  {
    var m := Zero();
    var m := Set(m, 0, 0, 2.0 / (right - left));
    var m := Set(m, 1, 1, 2.0 / (top - bottom));
    var m := Set(m, 2, 2, -2.0 / (farp - nearp));
    var m := Set(m, 0, 3, -(right + left) / (right - left));
    var m := Set(m, 1, 3, -(top + bottom) / (top - bottom));
    var m := Set(m, 2, 3, -(farp + nearp) / (farp - nearp));
    Set(m, 3, 3, 1.0)
  }

  /** makePerspectiveMatrix, with f = 1/tan(fov/2) given. The divisions by
      aspect and near-far must be defined. */
  function Perspective(f: real, aspect: real, nearp: real, farp: real): Mat4
    requires aspect != 0.0 && nearp != farp
  {
    var m := Zero();
    var m := Set(m, 0, 0, f / aspect);
    var m := Set(m, 1, 1, f);
    var m := Set(m, 2, 2, (farp + nearp) / (nearp - farp));
    var m := Set(m, 2, 3, (2.0 * farp * nearp) / (nearp - farp));
    Set(m, 3, 2, -1.0)
  }

  /** One orthographic axis: u in [lo, hi] (with weight w) goes to (2u - (hi+lo)w)/(hi-lo). */
  function OrthoAxis(u: real, w: real, lo: real, hi: real): real
    requires hi != lo
  {
    (2.0 * u - (hi + lo) * w) / (hi - lo)
  }

  /** The depth row of the perspective matrix applied to (.., z, w). */
  function ClipDepth(nearp: real, farp: real, z: real, w: real): real
    requires nearp != farp
  {
    ((farp + nearp) * z + 2.0 * farp * nearp * w) / (nearp - farp)
  }

  /** translate is the identity with the last column's first three rows set to (tx,ty,tz). */
  lemma TranslateLayout(tx: real, ty: real, tz: real)
    ensures Translate(tx, ty, tz)
         == [[1.0, 0.0, 0.0, tx], [0.0, 1.0, 0.0, ty], [0.0, 0.0, 1.0, tz], [0.0, 0.0, 0.0, 1.0]]
  {
    IdentityEntries();
    var m := Translate(tx, ty, tz);
    assert m[0] == [1.0, 0.0, 0.0, tx];
    assert m[1] == [0.0, 1.0, 0.0, ty];
    assert m[2] == [0.0, 0.0, 1.0, tz];
    assert m[3] == [0.0, 0.0, 0.0, 1.0];
  }

  /** translate moves (x,y,z,w) by w times (tx,ty,tz); a point (w = 1) by exactly (tx,ty,tz). */
  lemma TranslateEffect(tx: real, ty: real, tz: real, v: Vec4)
    ensures Apply(Translate(tx, ty, tz), v) == Vec4(v.x + tx * v.w, v.y + ty * v.w, v.z + tz * v.w, v.w)
  {
    TranslateLayout(tx, ty, tz);
  }

  /** scaleM is the diagonal matrix (sx, sy, sz, 1). */
  lemma ScaleMLayout(sx: real, sy: real, sz: real)
    ensures ScaleM(sx, sy, sz)
         == [[sx, 0.0, 0.0, 0.0], [0.0, sy, 0.0, 0.0], [0.0, 0.0, sz, 0.0], [0.0, 0.0, 0.0, 1.0]]
  {
    var m := ScaleM(sx, sy, sz);
    assert m[0] == [sx, 0.0, 0.0, 0.0];
    assert m[1] == [0.0, sy, 0.0, 0.0];
    assert m[2] == [0.0, 0.0, sz, 0.0];
    assert m[3] == [0.0, 0.0, 0.0, 1.0];
  }

  /** scaleM scales each axis independently and keeps w. */
  lemma ScaleMEffect(sx: real, sy: real, sz: real, v: Vec4)
    ensures Apply(ScaleM(sx, sy, sz), v) == Vec4(sx * v.x, sy * v.y, sz * v.z, v.w)
  {
    ScaleMLayout(sx, sy, sz);
  }

  /** rotateX is the identity with the (y,z) block [[c,-s],[s,c]]. */
  lemma RotateXLayout(c: real, s: real)
    ensures RotateX(c, s)
         == [[1.0, 0.0, 0.0, 0.0], [0.0, c, -s, 0.0], [0.0, s, c, 0.0], [0.0, 0.0, 0.0, 1.0]]
  {
    IdentityEntries();
    var m := RotateX(c, s);
    assert m[0] == [1.0, 0.0, 0.0, 0.0];
    assert m[1] == [0.0, c, -s, 0.0];
    assert m[2] == [0.0, s, c, 0.0];
    assert m[3] == [0.0, 0.0, 0.0, 1.0];
  }

  /** rotateX turns the (y,z) plane and keeps x and w. */
  lemma RotateXEffect(c: real, s: real, v: Vec4)
    ensures Apply(RotateX(c, s), v) == Vec4(v.x, c * v.y - s * v.z, s * v.y + c * v.z, v.w)
  {
    RotateXLayout(c, s);
  }

  /** rotateY is the identity with the (x,z) block [[c,s],[-s,c]]. */
  lemma RotateYLayout(c: real, s: real)
    ensures RotateY(c, s)
         == [[c, 0.0, s, 0.0], [0.0, 1.0, 0.0, 0.0], [-s, 0.0, c, 0.0], [0.0, 0.0, 0.0, 1.0]]
  {
    IdentityEntries();
    var m := RotateY(c, s);
    assert m[0] == [c, 0.0, s, 0.0];
    assert m[1] == [0.0, 1.0, 0.0, 0.0];
    assert m[2] == [-s, 0.0, c, 0.0];
    assert m[3] == [0.0, 0.0, 0.0, 1.0];
  }

  /** rotateY turns the (z,x) plane and keeps y and w. */
  lemma RotateYEffect(c: real, s: real, v: Vec4)
    ensures Apply(RotateY(c, s), v) == Vec4(c * v.x + s * v.z, v.y, c * v.z - s * v.x, v.w)
  {
    RotateYLayout(c, s);
  }

  /** rotateZ is the identity with the (x,y) block [[c,-s],[s,c]]. */
  lemma RotateZLayout(c: real, s: real)
    ensures RotateZ(c, s)
         == [[c, -s, 0.0, 0.0], [s, c, 0.0, 0.0], [0.0, 0.0, 1.0, 0.0], [0.0, 0.0, 0.0, 1.0]]
  {
    IdentityEntries();
    var m := RotateZ(c, s);
    assert m[0] == [c, -s, 0.0, 0.0];
    assert m[1] == [s, c, 0.0, 0.0];
    assert m[2] == [0.0, 0.0, 1.0, 0.0];
    assert m[3] == [0.0, 0.0, 0.0, 1.0];
  }

  /** rotateZ turns the (x,y) plane and keeps z and w. */
  lemma RotateZEffect(c: real, s: real, v: Vec4)
    ensures Apply(RotateZ(c, s), v) == Vec4(c * v.x - s * v.y, s * v.x + c * v.y, v.z, v.w)
  {
    RotateZLayout(c, s);
  }

  /** makeOrthoMatrix writes a per-axis scale on the diagonal, the bias in the last column,
      and 1 in the corner. */
  lemma OrthoLayout(left: real, right: real, bottom: real, top: real, nearp: real, farp: real)
    requires right != left && top != bottom && farp != nearp
    ensures Ortho(left, right, bottom, top, nearp, farp)
         == [[2.0 / (right - left), 0.0, 0.0, -(right + left) / (right - left)],
             [0.0, 2.0 / (top - bottom), 0.0, -(top + bottom) / (top - bottom)],
             [0.0, 0.0, -2.0 / (farp - nearp), -(farp + nearp) / (farp - nearp)],
             [0.0, 0.0, 0.0, 1.0]]
  {
    var m := Ortho(left, right, bottom, top, nearp, farp);
    assert m[0] == [2.0 / (right - left), 0.0, 0.0, -(right + left) / (right - left)];
    assert m[1] == [0.0, 2.0 / (top - bottom), 0.0, -(top + bottom) / (top - bottom)];
    assert m[2] == [0.0, 0.0, -2.0 / (farp - nearp), -(farp + nearp) / (farp - nearp)];
    assert m[3] == [0.0, 0.0, 0.0, 1.0];
  }

  /** A scale by 2/d plus a bias -b/d, over the common denominator d. */
  lemma ScaleBias(u: real, w: real, b: real, d: real)
    requires d != 0.0
    ensures 2.0 / d * u + -b / d * w == (2.0 * u - b * w) / d
  {
    assert 2.0 / d * u == (2.0 * u) / d;
    assert -b / d * w == (-(b * w)) / d;
  }

  /** makeOrthoMatrix maps each axis affinely on its own (z with its sign flipped)
      and passes w through unchanged. */
  lemma OrthoEffect(left: real, right: real, bottom: real, top: real, nearp: real, farp: real, v: Vec4)
    requires right != left && top != bottom && farp != nearp
    ensures Apply(Ortho(left, right, bottom, top, nearp, farp), v)
         == Vec4(OrthoAxis(v.x, v.w, left, right), OrthoAxis(v.y, v.w, bottom, top),
                 OrthoAxis(-v.z, v.w, nearp, farp), v.w)
  {
    OrthoLayout(left, right, bottom, top, nearp, farp);
    OrthoRows(Ortho(left, right, bottom, top, nearp, farp), left, right, bottom, top, nearp, farp, v);
  }

  /** The action of the matrix with makeOrthoMatrix's layout, given as its rows. */
  lemma OrthoRows(m: Mat4, left: real, right: real, bottom: real, top: real, nearp: real, farp: real, v: Vec4)
    requires right != left && top != bottom && farp != nearp
    requires m == [[2.0 / (right - left), 0.0, 0.0, -(right + left) / (right - left)],
                   [0.0, 2.0 / (top - bottom), 0.0, -(top + bottom) / (top - bottom)],
                   [0.0, 0.0, -2.0 / (farp - nearp), -(farp + nearp) / (farp - nearp)],
                   [0.0, 0.0, 0.0, 1.0]]
    ensures Apply(m, v)
         == Vec4(OrthoAxis(v.x, v.w, left, right), OrthoAxis(v.y, v.w, bottom, top),
                 OrthoAxis(-v.z, v.w, nearp, farp), v.w)
  {
    AxisRow(m[0][0], m[0][3], v.x, v.w, left, right);
    AxisRow(m[1][1], m[1][3], v.y, v.w, bottom, top);
    AxisRow(-m[2][2], m[2][3], -v.z, v.w, nearp, farp);
    assert m[2][2] * v.z == -m[2][2] * -v.z;
  }

  /** One row of the orthographic layout: scale 2/(hi-lo) and bias -(hi+lo)/(hi-lo). */
  lemma AxisRow(s: real, b: real, u: real, w: real, lo: real, hi: real)
    requires hi != lo && s == 2.0 / (hi - lo) && b == -(hi + lo) / (hi - lo)
    ensures s * u + b * w == OrthoAxis(u, w, lo, hi)
  {
    ScaleBias(u, w, hi + lo, hi - lo);
  }

  /** makePerspectiveMatrix writes f/aspect and f on the diagonal, the depth mapping in
      row 2 and the -1 that makes w = -z in row 3. */
  lemma PerspectiveLayout(f: real, aspect: real, nearp: real, farp: real)
    requires aspect != 0.0 && nearp != farp
    ensures Perspective(f, aspect, nearp, farp)
         == [[f / aspect, 0.0, 0.0, 0.0],
             [0.0, f, 0.0, 0.0],
             [0.0, 0.0, (farp + nearp) / (nearp - farp), (2.0 * farp * nearp) / (nearp - farp)],
             [0.0, 0.0, -1.0, 0.0]]
  {
    var m := Perspective(f, aspect, nearp, farp);
    assert m[0] == [f / aspect, 0.0, 0.0, 0.0];
    assert m[1] == [0.0, f, 0.0, 0.0];
    assert m[2] == [0.0, 0.0, (farp + nearp) / (nearp - farp), (2.0 * farp * nearp) / (nearp - farp)];
    assert m[3] == [0.0, 0.0, -1.0, 0.0];
  }

  /** Under makePerspectiveMatrix the clip w is -z, clip x is (f/aspect) x and clip y is f y. */
  lemma PerspectiveEffect(f: real, aspect: real, nearp: real, farp: real, v: Vec4)
    requires aspect != 0.0 && nearp != farp
    ensures Apply(Perspective(f, aspect, nearp, farp), v)
         == Vec4(f / aspect * v.x, f * v.y, ClipDepth(nearp, farp, v.z, v.w), -v.z)
  {
    PerspectiveLayout(f, aspect, nearp, farp);
    var d := nearp - farp;
    assert (farp + nearp) / d * v.z + (2.0 * farp * nearp) / d * v.w
        == ((farp + nearp) * v.z + 2.0 * farp * nearp * v.w) / d;
  }

  /** Translating the origin gives the translation vector. */
  lemma TranslateOrigin(tx: real, ty: real, tz: real)
    ensures Apply(Translate(tx, ty, tz), MakeVec(0.0, 0.0, 0.0)) == MakeVec(tx, ty, tz)
  {
    TranslateEffect(tx, ty, tz, MakeVec(0.0, 0.0, 0.0));
  }

  /** Translations compose by adding their offsets. */
  lemma TranslateCompose(a: real, b: real, c: real, d: real, e: real, f: real)
    ensures Product(Translate(a, b, c), Translate(d, e, f)) == Translate(a + d, b + e, c + f)
  {
    forall v
      ensures Apply(Translate(a, b, c), Apply(Translate(d, e, f), v)) == Apply(Translate(a + d, b + e, c + f), v)
    {
      TranslateEffect(d, e, f, v);
      TranslateEffect(a, b, c, Apply(Translate(d, e, f), v));
      TranslateEffect(a + d, b + e, c + f, v);
    }
    ProductFromAction(Translate(a, b, c), Translate(d, e, f), Translate(a + d, b + e, c + f));
  }

  /** A quarter turn about z (cos = 0, sin = 1) takes the x axis to the y axis. */
  lemma RotateZQuarterTurn()
    ensures Apply(RotateZ(0.0, 1.0), MakeVec(1.0, 0.0, 0.0)) == MakeVec(0.0, 1.0, 0.0)
  {
    RotateZEffect(0.0, 1.0, MakeVec(1.0, 0.0, 0.0));
  }

  /** Squared distance of (x, y) from the origin of the plane. */
  function Radius2(x: real, y: real): real
  {
    x * x + y * y
  }

  /** With cos^2 + sin^2 = 1, rotateZ keeps z, w and the distance from the z axis. */
  lemma RotateZPreservesRadius(c: real, s: real, v: Vec4)
    requires c * c + s * s == 1.0
    ensures Apply(RotateZ(c, s), v).z == v.z && Apply(RotateZ(c, s), v).w == v.w
    ensures Radius2(Apply(RotateZ(c, s), v).x, Apply(RotateZ(c, s), v).y) == Radius2(v.x, v.y)
  {
    RotateZEffect(c, s, v);
    RotationRadius(c, s, v.x, v.y);
  }

  /** The planar identity behind RotateZPreservesRadius. */
  lemma RotationRadius(c: real, s: real, x: real, y: real)
    requires c * c + s * s == 1.0
    ensures Radius2(c * x - s * y, s * x + c * y) == Radius2(x, y)
  {
    assert (c * x - s * y) * (c * x - s * y) == c * c * (x * x) - 2.0 * (c * s * (x * y)) + s * s * (y * y);
    assert (s * x + c * y) * (s * x + c * y) == s * s * (x * x) + 2.0 * (c * s * (x * y)) + c * c * (y * y);
    assert (c * c + s * s) * (x * x) == x * x;
    assert (c * c + s * s) * (y * y) == y * y;
  }

  /** Cancelling a non-zero factor. */
  lemma DivCancel(k: real, d: real)
    requires d != 0.0
    ensures (k * d) / d == k
  {
  }

  /** The two ends of an orthographic axis go to -1 and +1. */
  lemma OrthoAxisEnds(lo: real, hi: real)
    requires hi != lo
    ensures OrthoAxis(lo, 1.0, lo, hi) == -1.0 && OrthoAxis(hi, 1.0, lo, hi) == 1.0
  {
    DivCancel(-1.0, hi - lo);
    DivCancel(1.0, hi - lo);
    assert 2.0 * lo - (hi + lo) * 1.0 == -1.0 * (hi - lo);
    assert 2.0 * hi - (hi + lo) * 1.0 == 1.0 * (hi - lo);
  }

  /** For a point, the faces of the orthographic box [left,right] x [bottom,top] x
      [-far,-near] go to the faces of the canonical cube, and w stays 1. */
  lemma OrthoMapsBoxFaces(left: real, right: real, bottom: real, top: real, nearp: real, farp: real, p: Vec4)
    requires right != left && top != bottom && farp != nearp && p.w == 1.0
    ensures Apply(Ortho(left, right, bottom, top, nearp, farp), p).w == 1.0
    ensures p.x == left ==> Apply(Ortho(left, right, bottom, top, nearp, farp), p).x == -1.0
    ensures p.x == right ==> Apply(Ortho(left, right, bottom, top, nearp, farp), p).x == 1.0
    ensures p.y == bottom ==> Apply(Ortho(left, right, bottom, top, nearp, farp), p).y == -1.0
    ensures p.y == top ==> Apply(Ortho(left, right, bottom, top, nearp, farp), p).y == 1.0
    ensures p.z == -nearp ==> Apply(Ortho(left, right, bottom, top, nearp, farp), p).z == -1.0
    ensures p.z == -farp ==> Apply(Ortho(left, right, bottom, top, nearp, farp), p).z == 1.0
  {
    OrthoEffect(left, right, bottom, top, nearp, farp, p);
    OrthoAxisEnds(left, right);
    OrthoAxisEnds(bottom, top);
    OrthoAxisEnds(nearp, farp);
  }

  /** e / d lies in [-1, 1] exactly when e lies in [-d, d], for d > 0. */
  lemma UnitInterval(e: real, d: real)
    requires d > 0.0
    ensures -1.0 <= e / d <= 1.0 <==> -d <= e <= d
  {
    assert e / d * d == e;
    if -1.0 <= e / d <= 1.0 {
      assert -1.0 * d <= e / d * d <= 1.0 * d;
    }
    if -d <= e <= d {
      assert -d / d <= e / d <= d / d;
    }
  }

  /** A coordinate lies in [lo, hi] exactly when its orthographic image lies in [-1, 1]. */
  lemma OrthoAxisRange(u: real, lo: real, hi: real)
    requires lo < hi
    ensures -1.0 <= OrthoAxis(u, 1.0, lo, hi) <= 1.0 <==> lo <= u <= hi
  {
    UnitInterval(2.0 * u - (hi + lo) * 1.0, hi - lo);
  }

  /** A point lies in the orthographic view box exactly when its image lies in the
      canonical cube [-1,1]^3 (the image keeps w = 1, so the divide changes nothing). */
  lemma OrthoBoxIffCube(left: real, right: real, bottom: real, top: real, nearp: real, farp: real, p: Vec4)
    requires left < right && bottom < top && nearp < farp && p.w == 1.0
    ensures Apply(Ortho(left, right, bottom, top, nearp, farp), p).w == 1.0
    ensures (-1.0 <= Apply(Ortho(left, right, bottom, top, nearp, farp), p).x <= 1.0 &&
             -1.0 <= Apply(Ortho(left, right, bottom, top, nearp, farp), p).y <= 1.0 &&
             -1.0 <= Apply(Ortho(left, right, bottom, top, nearp, farp), p).z <= 1.0)
        <==> (left <= p.x <= right && bottom <= p.y <= top && -farp <= p.z <= -nearp)
  {
    OrthoEffect(left, right, bottom, top, nearp, farp, p);
    OrthoAxisRange(p.x, left, right);
    OrthoAxisRange(p.y, bottom, top);
    OrthoAxisRange(-p.z, nearp, farp);
  }

  /** The near plane z = -near has clip depth -near, i.e. -1 after the divide by w = near. */
  lemma NearPlaneDepth(nearp: real, farp: real)
    requires nearp != farp
    ensures ClipDepth(nearp, farp, -nearp, 1.0) == -nearp
  {
    assert (farp + nearp) * -nearp + 2.0 * farp * nearp * 1.0 == -nearp * (nearp - farp);
    DivCancel(-nearp, nearp - farp);
  }

  /** The far plane z = -far has clip depth far, i.e. +1 after the divide by w = far. */
  lemma FarPlaneDepth(nearp: real, farp: real)
    requires nearp != farp
    ensures ClipDepth(nearp, farp, -farp, 1.0) == farp
  {
    assert (farp + nearp) * -farp + 2.0 * farp * nearp * 1.0 == farp * (nearp - farp);
    DivCancel(farp, nearp - farp);
  }

  /** A point on the near plane, at any x and y, has clip w = near and NDC depth -1. */
  lemma NearPlaneNdc(f: real, aspect: real, nearp: real, farp: real, x: real, y: real)
    requires aspect != 0.0 && nearp != farp && nearp != 0.0
    ensures Apply(Perspective(f, aspect, nearp, farp), MakeVec(x, y, -nearp)).w == nearp
    ensures Divide(Apply(Perspective(f, aspect, nearp, farp), MakeVec(x, y, -nearp))).z == -1.0
  {
    PerspectiveEffect(f, aspect, nearp, farp, MakeVec(x, y, -nearp));
    NearPlaneDepth(nearp, farp);
    assert -nearp / nearp == -1.0;
  }

  /** A point on the far plane, at any x and y, has clip w = far and NDC depth +1. */
  lemma FarPlaneNdc(f: real, aspect: real, nearp: real, farp: real, x: real, y: real)
    requires aspect != 0.0 && nearp != farp && farp != 0.0
    ensures Apply(Perspective(f, aspect, nearp, farp), MakeVec(x, y, -farp)).w == farp
    ensures Divide(Apply(Perspective(f, aspect, nearp, farp), MakeVec(x, y, -farp))).z == 1.0
  {
    PerspectiveEffect(f, aspect, nearp, farp, MakeVec(x, y, -farp));
    FarPlaneDepth(nearp, farp);
    assert farp / farp == 1.0;
  }

  /** Dividing twice is dividing by the product. */
  lemma DivDiv(e: real, a: real, b: real)
    requires a != 0.0 && b != 0.0
    ensures (e / a) / b == e / (a * b)
  {
    assert (e / a) / b * (a * b) == e;
  }

  /** c / d lies in [-1, 1] exactly when e lies in [-k d, k d], for c = e / k with k, d > 0. */
  lemma ScaledRange(c: real, e: real, k: real, d: real)
    requires k > 0.0 && d > 0.0 && c == e / k
    ensures -1.0 <= c / d <= 1.0 <==> -(k * d) <= e <= k * d
  {
    DivDiv(e, k, d);
    MulPositive(k, d);
    UnitInterval(e, k * d);
  }

  lemma MulDiv(f: real, a: real, x: real)
    requires a != 0.0
    ensures f / a * x == (f * x) / a
  {
  }

  lemma MulPositive(a: real, b: real)
    requires a > 0.0 && b > 0.0
    ensures a * b > 0.0
  {
  }

  /** The divided clip x of a point at distance d > 0 in front of the eye lies in
      [-1, 1] exactly when |f x| <= aspect d. */
  lemma PerspectiveAxisX(cx: real, f: real, aspect: real, x: real, d: real)
    requires aspect > 0.0 && d > 0.0 && cx == f / aspect * x
    ensures -1.0 <= cx / d <= 1.0 <==> -(aspect * d) <= f * x <= aspect * d
  {
    MulDiv(f, aspect, x);
    ScaledRange(cx, f * x, aspect, d);
  }

  /** The depth row at a point z (w = 1), over the denominator far - near. */
  lemma DepthNumerator(nearp: real, farp: real, z: real)
    requires nearp != farp
    ensures ClipDepth(nearp, farp, z, 1.0) == (-(farp + nearp) * z - 2.0 * farp * nearp) / (farp - nearp)
  {
    assert (farp + nearp) * z + 2.0 * farp * nearp * 1.0 == -(-(farp + nearp) * z - 2.0 * farp * nearp);
  }

  /** The numerator of the depth row lies within (far - near)(-z) exactly for near <= -z <= far. */
  lemma DepthBounds(nearp: real, farp: real, z: real)
    requires 0.0 < nearp < farp && z < 0.0
    ensures -((farp - nearp) * -z) <= -(farp + nearp) * z - 2.0 * farp * nearp <= (farp - nearp) * -z
        <==> nearp <= -z <= farp
  {
    assert (farp - nearp) * -z - (-(farp + nearp) * z - 2.0 * farp * nearp) == 2.0 * nearp * (farp + z);
    assert (-(farp + nearp) * z - 2.0 * farp * nearp) + (farp - nearp) * -z == 2.0 * farp * (-z - nearp);
    SignOfScaled(2.0 * nearp, farp + z);
    SignOfScaled(2.0 * farp, -z - nearp);
  }

  /** The divided clip depth of a point in front of the eye (z < 0, w = 1) lies in
      [-1, 1] exactly when near <= -z <= far. */
  lemma PerspectiveDepthRange(nearp: real, farp: real, z: real)
    requires 0.0 < nearp < farp && z < 0.0
    ensures -1.0 <= ClipDepth(nearp, farp, z, 1.0) / -z <= 1.0 <==> nearp <= -z <= farp
  {
    DepthNumerator(nearp, farp, z);
    ScaledRange(ClipDepth(nearp, farp, z, 1.0), -(farp + nearp) * z - 2.0 * farp * nearp, farp - nearp, -z);
    DepthBounds(nearp, farp, z);
  }

  /** A positive factor keeps the sign of the other. */
  lemma SignOfScaled(k: real, u: real)
    requires k > 0.0
    ensures k * u >= 0.0 <==> u >= 0.0
  {
    if u < 0.0 {
      assert k * -u > 0.0;
    }
  }

  /** Dividing by a positive d keeps a bound r d as the bound r. */
  lemma DivUpper(e: real, d: real, r: real)
    requires d > 0.0 && e <= r * d
    ensures e / d <= r
  {
    assert d * (r - e / d) == r * d - e;
    SignOfScaled(d, r - e / d);
  }

  /** Dividing by a positive k keeps a strict bound b k as the bound b. */
  lemma QuotientBelow(e: real, k: real, b: real)
    requires k > 0.0 && e < b * k
    ensures e / k < b
  {
    assert k * (e / k - b) == e - b * k;
    SignOfScaled(k, e / k - b);
  }

  /** A point in front of the eye (z < 0) lies in the view frustum (within the near and
      far planes, and within the field of view on both axes) exactly when its perspective
      image divides into the canonical cube [-1,1]^3. */
  lemma PerspectiveFrustumIffCube(f: real, aspect: real, nearp: real, farp: real, p: Vec4)
    requires aspect > 0.0 && 0.0 < nearp < farp && p.w == 1.0 && p.z < 0.0
    ensures Apply(Perspective(f, aspect, nearp, farp), p).w == -p.z
    ensures (-1.0 <= Divide(Apply(Perspective(f, aspect, nearp, farp), p)).x <= 1.0 &&
             -1.0 <= Divide(Apply(Perspective(f, aspect, nearp, farp), p)).y <= 1.0 &&
             -1.0 <= Divide(Apply(Perspective(f, aspect, nearp, farp), p)).z <= 1.0)
        <==> (-(aspect * -p.z) <= f * p.x <= aspect * -p.z && p.z <= f * p.y <= -p.z &&
              nearp <= -p.z <= farp)
  {
    PerspectiveEffect(f, aspect, nearp, farp, p);
    FrustumClip(Apply(Perspective(f, aspect, nearp, farp), p), f, aspect, nearp, farp, p);
  }

  /** The frustum test on the clip point c that makePerspectiveMatrix gives p. */
  lemma FrustumClip(c: Vec4, f: real, aspect: real, nearp: real, farp: real, p: Vec4)
    requires aspect > 0.0 && 0.0 < nearp < farp && p.w == 1.0 && p.z < 0.0
    requires c == Vec4(f / aspect * p.x, f * p.y, ClipDepth(nearp, farp, p.z, p.w), -p.z)
    ensures c.w == -p.z
    ensures (-1.0 <= Divide(c).x <= 1.0 && -1.0 <= Divide(c).y <= 1.0 && -1.0 <= Divide(c).z <= 1.0)
        <==> (-(aspect * -p.z) <= f * p.x <= aspect * -p.z && p.z <= f * p.y <= -p.z &&
              nearp <= -p.z <= farp)
  {
    FrustumX(c, f, aspect, p.x, p.z);
    FrustumY(c, f, p.y, p.z);
    FrustumZ(c, nearp, farp, p.z);
  }

  /** The x axis of the frustum test, on the clip point c of (x, y, z, 1). */
  lemma FrustumX(c: Vec4, f: real, aspect: real, x: real, z: real)
    requires aspect > 0.0 && z < 0.0 && c.x == f / aspect * x && c.w == -z
    ensures -1.0 <= Divide(c).x <= 1.0 <==> -(aspect * -z) <= f * x <= aspect * -z
  {
    PerspectiveAxisX(c.x, f, aspect, x, c.w);
  }

  /** The y axis of the frustum test. */
  lemma FrustumY(c: Vec4, f: real, y: real, z: real)
    requires z < 0.0 && c.y == f * y && c.w == -z
    ensures -1.0 <= Divide(c).y <= 1.0 <==> z <= f * y <= -z
  {
    UnitInterval(c.y, c.w);
  }

  /** The depth axis of the frustum test. */
  lemma FrustumZ(c: Vec4, nearp: real, farp: real, z: real)
    requires 0.0 < nearp < farp && z < 0.0 && c.z == ClipDepth(nearp, farp, z, 1.0) && c.w == -z
    ensures -1.0 <= Divide(c).z <= 1.0 <==> nearp <= -z <= farp
  {
    PerspectiveDepthRange(nearp, farp, z);
  }

  /** A point behind the eye (z > 0, w = 1) never divides into the cube: its divided depth
      lies beyond the far face. */
  lemma BehindEyeOutsideCube(f: real, aspect: real, nearp: real, farp: real, p: Vec4)
    requires aspect != 0.0 && 0.0 < nearp < farp && p.w == 1.0 && p.z > 0.0
    ensures Apply(Perspective(f, aspect, nearp, farp), p).w == -p.z
    ensures Divide(Apply(Perspective(f, aspect, nearp, farp), p)).z > 1.0
  {
    PerspectiveEffect(f, aspect, nearp, farp, p);
    BehindDepth(Apply(Perspective(f, aspect, nearp, farp), p), nearp, farp, p.z);
  }

  /** The depth axis of a clip point behind the eye. */
  lemma BehindDepth(c: Vec4, nearp: real, farp: real, z: real)
    requires 0.0 < nearp < farp && z > 0.0 && c.z == ClipDepth(nearp, farp, z, 1.0) && c.w == -z
    ensures Divide(c).z > 1.0
  {
    DepthNumerator(nearp, farp, z);
    var num := -(farp + nearp) * z - 2.0 * farp * nearp;
    MulPositive(nearp, z);
    MulPositive(farp, nearp);
    assert num - -z * (farp - nearp) == -2.0 * (nearp * z) - 2.0 * (farp * nearp);
    QuotientBelow(num, farp - nearp, -z);
    var u := Divide(c).z;
    assert z * (1.0 - u) == c.z + z;
    SignOfScaled(z, 1.0 - u);
  }
}
