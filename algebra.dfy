/** Homogeneous 4-vectors and dense 4x4 matrices (Vec4, Mat4 in main.c++).
    Single-precision floats are modelled as exact reals, so every algebraic
    law below holds exactly rather than within a tolerance. */
module Algebra {

  /** A homogeneous point or direction. */
  datatype Vec4 = Vec4(x: real, y: real, z: real, w: real)

  /** makeVec: a point, carrying w = 1. */
  function MakeVec(x: real, y: real, z: real): (v: Vec4)
    ensures v.w == 1.0 && v.x == x && v.y == y && v.z == z
  {
    Vec4(x, y, z, 1.0)
  }

  /** The dense 4x4 matrix `float m[4][4]`, indexed m[row][column]. */
  type Mat4 = m: seq<seq<real>> | |m| == 4 && forall i | 0 <= i < |m| :: |m[i]| == 4
    witness [[0.0, 0.0, 0.0, 0.0], [0.0, 0.0, 0.0, 0.0], [0.0, 0.0, 0.0, 0.0], [0.0, 0.0, 0.0, 0.0]]

  /** The default constructor Mat4(): every entry zeroed by memset. */
  function Zero(): (z: Mat4)
    ensures forall i, j | 0 <= i < 4 && 0 <= j < 4 :: z[i][j] == 0.0
  {
    seq(4, i => seq(4, j => 0.0))
  }

  /** The single-entry write `M.m[i][j] = e`; every other entry is kept. */
  function Set(m: Mat4, i: nat, j: nat, e: real): Mat4
    requires i < 4 && j < 4
  {
    m[i := m[i][j := e]]
  }

  /** Two matrices with the same sixteen entries are the same matrix. */
  lemma Extensionality(a: Mat4, b: Mat4)
    requires forall i, j | 0 <= i < 4 && 0 <= j < 4 :: a[i][j] == b[i][j]
    ensures a == b
  {
    forall i | 0 <= i < 4
      ensures a[i] == b[i]
    {
      assert |a[i]| == 4 && |b[i]| == 4;
    }
  }

  /** Reference definition of Mat4::identity: ones on the diagonal, zeros elsewhere. */
  function Identity(): (id: Mat4)
    ensures forall v :: Apply(id, v).x == v.x && Apply(id, v).y == v.y && Apply(id, v).z == v.z && Apply(id, v).w == v.w
  {
    seq(4, i => seq(4, j => if i == j then 1.0 else 0.0))
  }

  /** The entries of the identity matrix. */
  lemma IdentityEntries()
    ensures forall i, j | 0 <= i < 4 && 0 <= j < 4 :: Identity()[i][j] == if i == j then 1.0 else 0.0
  {
  }

  /** Mat4::identity: a zeroed matrix whose diagonal is set to 1 by a loop. */
  method MakeIdentity() returns (id: Mat4)
    ensures id == Identity()
  {
    id := Zero();
    for i := 0 to 4
      invariant forall a, b | 0 <= a < 4 && 0 <= b < 4 ::
        id[a][b] == if a == b && a < i then 1.0 else 0.0
    {
      id := Set(id, i, i, 1.0);
    }
    Extensionality(id, Identity());
  }

  /** Dot product of a matrix row with a vector. */
  function Dot(row: seq<real>, v: Vec4): real
    requires |row| == 4
  {
    row[0] * v.x + row[1] * v.y + row[2] * v.z + row[3] * v.w
  }

  /** Mat4 * Vec4: each component is the dot product of a row with v. */
  function Apply(m: Mat4, v: Vec4): Vec4
  {
    Vec4(Dot(m[0], v), Dot(m[1], v), Dot(m[2], v), Dot(m[3], v))
  }

  /** The perspective divide of renderObject: the NDC point, with w = 1, that scaled
      back by the clip w gives the clip point again. */
  function Divide(c: Vec4): (n: Vec4)
    requires c.w != 0.0
    ensures n.w == 1.0
    ensures n.x * c.w == c.x && n.y * c.w == c.y && n.z * c.w == c.z
  {
    Vec4(c.x / c.w, c.y / c.w, c.z / c.w, 1.0)
  }

  /** The partial sum a[i][0]*b[0][j] + ... + a[i][n-1]*b[n-1][j] of the first n terms. */
  function RowCol(a: Mat4, b: Mat4, i: nat, j: nat, n: nat): real
    requires i < 4 && j < 4 && n <= 4
  {
    if n == 0 then 0.0
    else if n == 1 then a[i][0] * b[0][j]
    else if n == 2 then a[i][0] * b[0][j] + a[i][1] * b[1][j]
    else if n == 3 then a[i][0] * b[0][j] + a[i][1] * b[1][j] + a[i][2] * b[2][j]
    else a[i][0] * b[0][j] + a[i][1] * b[1][j] + a[i][2] * b[2][j] + a[i][3] * b[3][j]
  }

  /** Reference definition of Mat4 * Mat4: entry (i,j) is row i of a times column j of b. */
  function Product(a: Mat4, b: Mat4): (p: Mat4)
  {
    seq(4, i requires 0 <= i < 4 => seq(4, j requires 0 <= j < 4 => RowCol(a, b, i, j, 4)))
  }

  /** Column j of a matrix, read as a vector. */
  function Column(m: Mat4, j: nat): Vec4
    requires j < 4
  {
    Vec4(m[0][j], m[1][j], m[2][j], m[3][j])
  }

  /** Entry (i,j) of a product is row i of a dotted with column j of b. */
  lemma ProductEntry(a: Mat4, b: Mat4, i: nat, j: nat)
    requires i < 4 && j < 4
    ensures Product(a, b)[i][j]
         == a[i][0] * b[0][j] + a[i][1] * b[1][j] + a[i][2] * b[2][j] + a[i][3] * b[3][j]
    ensures Product(a, b)[i][j] == Dot(a[i], Column(b, j))
  {
  }

  /** Mat4::operator*(const Mat4&): the triple loop accumulating s into r.m[i][j]. */
  method Mul(a: Mat4, b: Mat4) returns (r: Mat4)
    ensures r == Product(a, b)
    ensures forall i, j | 0 <= i < 4 && 0 <= j < 4 ::
      r[i][j] == a[i][0] * b[0][j] + a[i][1] * b[1][j] + a[i][2] * b[2][j] + a[i][3] * b[3][j]
  {
    r := Zero();
    for i := 0 to 4
      invariant forall p, q | 0 <= p < 4 && 0 <= q < 4 ::
        r[p][q] == if p < i then RowCol(a, b, p, q, 4) else 0.0
    {
      for j := 0 to 4
        invariant forall p, q | 0 <= p < 4 && 0 <= q < 4 ::
          r[p][q] == if p < i || (p == i && q < j) then RowCol(a, b, p, q, 4) else 0.0
      {
        var s := 0.0;
        for k := 0 to 4
          invariant s == RowCol(a, b, i, j, k)
        {
          s := s + a[i][k] * b[k][j];
        }
        r := Set(r, i, j, s);
      }
    }
    forall i, j | 0 <= i < 4 && 0 <= j < 4
      ensures r[i][j] == Product(a, b)[i][j]
      ensures r[i][j] == a[i][0] * b[0][j] + a[i][1] * b[1][j] + a[i][2] * b[2][j] + a[i][3] * b[3][j]
    {
      ProductEntry(a, b, i, j);
    }
    Extensionality(r, Product(a, b));
  }

  /** The unit vector along homogeneous axis j. */
  function Basis(j: nat): Vec4
    requires j < 4
  {
    Vec4(if j == 0 then 1.0 else 0.0, if j == 1 then 1.0 else 0.0,
         if j == 2 then 1.0 else 0.0, if j == 3 then 1.0 else 0.0)
  }

  /** A matrix is determined by its action on vectors: two matrices that agree on
      every vector are equal. */
  lemma ApplyDetermines(a: Mat4, b: Mat4)
    requires forall v :: Apply(a, v) == Apply(b, v)
    ensures a == b
  {
    forall i, j | 0 <= i < 4 && 0 <= j < 4
      ensures a[i][j] == b[i][j]
    {
      assert Apply(a, Basis(j)) == Apply(b, Basis(j));
    }
    Extensionality(a, b);
  }

  /** Row r of a product, dotted with v, regroups as row r of a dotted with b*v. */
  lemma DotProductRow(a: Mat4, b: Mat4, v: Vec4, r: nat)
    requires r < 4
    ensures Dot(Product(a, b)[r], v) == Dot(a[r], Apply(b, v))
  {
    ExpandProductRow(a, b, v, r);
    ExpandRowApply(a, b, v, r);
  }

  /** Both sides of DotProductRow, multiplied out into the same sum of sixteen terms. */
  lemma ExpandProductRow(a: Mat4, b: Mat4, v: Vec4, r: nat)
    requires r < 4
    ensures Dot(Product(a, b)[r], v)
         == a[r][0] * b[0][0] * v.x + a[r][1] * b[1][0] * v.x + a[r][2] * b[2][0] * v.x + a[r][3] * b[3][0] * v.x
         + a[r][0] * b[0][1] * v.y + a[r][1] * b[1][1] * v.y + a[r][2] * b[2][1] * v.y + a[r][3] * b[3][1] * v.y
         + a[r][0] * b[0][2] * v.z + a[r][1] * b[1][2] * v.z + a[r][2] * b[2][2] * v.z + a[r][3] * b[3][2] * v.z
         + a[r][0] * b[0][3] * v.w + a[r][1] * b[1][3] * v.w + a[r][2] * b[2][3] * v.w + a[r][3] * b[3][3] * v.w
  {
  }

  lemma ExpandRowApply(a: Mat4, b: Mat4, v: Vec4, r: nat)
    requires r < 4
    ensures Dot(a[r], Apply(b, v))
         == a[r][0] * b[0][0] * v.x + a[r][1] * b[1][0] * v.x + a[r][2] * b[2][0] * v.x + a[r][3] * b[3][0] * v.x
         + a[r][0] * b[0][1] * v.y + a[r][1] * b[1][1] * v.y + a[r][2] * b[2][1] * v.y + a[r][3] * b[3][1] * v.y
         + a[r][0] * b[0][2] * v.z + a[r][1] * b[1][2] * v.z + a[r][2] * b[2][2] * v.z + a[r][3] * b[3][2] * v.z
         + a[r][0] * b[0][3] * v.w + a[r][1] * b[1][3] * v.w + a[r][2] * b[2][3] * v.w + a[r][3] * b[3][3] * v.w
  {
  }

  /** Applying a product applies the right factor first: (A*B)*v == A*(B*v). */
  lemma ApplyProduct(a: Mat4, b: Mat4, v: Vec4)
    ensures Apply(Product(a, b), v) == Apply(a, Apply(b, v))
  {
    DotProductRow(a, b, v, 0);
    DotProductRow(a, b, v, 1);
    DotProductRow(a, b, v, 2);
    DotProductRow(a, b, v, 3);
  }

  /** A product is determined by the composite action of its factors. */
  lemma ProductFromAction(a: Mat4, b: Mat4, c: Mat4)
    requires forall v :: Apply(a, Apply(b, v)) == Apply(c, v)
    ensures Product(a, b) == c
  {
    forall v
      ensures Apply(Product(a, b), v) == Apply(c, v)
    {
      ApplyProduct(a, b, v);
    }
    ApplyDetermines(Product(a, b), c);
  }

  /** The identity is a left unit of composition. */
  lemma IdentityLeft(a: Mat4)
    ensures Product(Identity(), a) == a
  {
    var id := Identity();
    forall i, j | 0 <= i < 4 && 0 <= j < 4
      ensures Product(id, a)[i][j] == a[i][j]
    {
      ProductEntry(id, a, i, j);
    }
    Extensionality(Product(id, a), a);
  }

  /** The identity is a right unit of composition. */
  lemma IdentityRight(a: Mat4)
    ensures Product(a, Identity()) == a
  {
    var id := Identity();
    forall i, j | 0 <= i < 4 && 0 <= j < 4
      ensures Product(a, id)[i][j] == a[i][j]
    {
      ProductEntry(a, id, i, j);
    }
    Extensionality(Product(a, id), a);
  }

  /** Column j of a product b*c is b applied to column j of c. */
  lemma ProductColumn(b: Mat4, c: Mat4, j: nat)
    requires j < 4
    ensures Column(Product(b, c), j) == Apply(b, Column(c, j))
  {
    forall k | 0 <= k < 4 {
      ProductEntry(b, c, k, j);
    }
  }

  /** One entry of the associativity law. */
  lemma AssociativeEntry(a: Mat4, b: Mat4, c: Mat4, i: nat, j: nat)
    requires i < 4 && j < 4
    ensures Product(Product(a, b), c)[i][j] == Product(a, Product(b, c))[i][j]
  {
    ProductEntry(Product(a, b), c, i, j);
    DotProductRow(a, b, Column(c, j), i);
    ProductColumn(b, c, j);
    ProductEntry(a, Product(b, c), i, j);
  }

  /** Composition is associative: (A*B)*C == A*(B*C). */
  lemma Associative(a: Mat4, b: Mat4, c: Mat4)
    ensures Product(Product(a, b), c) == Product(a, Product(b, c))
  {
    forall i, j | 0 <= i < 4 && 0 <= j < 4
      ensures Product(Product(a, b), c)[i][j] == Product(a, Product(b, c))[i][j]
    {
      AssociativeEntry(a, b, c, i, j);
    }
    Extensionality(Product(Product(a, b), c), Product(a, Product(b, c)));
  }
}
