/** The clip test of renderObject: the outcode of a point in normalized device
    coordinates (one bit per face of the cube [-1,1]^3 it lies beyond) and the
    trivial-reject test on the outcodes of an edge's two ends. */
module Clip {
  import opened Algebra

  /** The six faces of the canonical view cube. */
  datatype Face = XMin | XMax | YMin | YMax | ZMin | ZMax

  /** The outcode bit of each face: 1, 2, 4, 8, 16, 32. */
  function FaceBit(f: Face): (b: bv32)
    ensures b != 0 && b & (b - 1) == 0
    ensures b & 0xFFFF_FFC0 == 0
  {
    match f
    case XMin => 1
    case XMax => 2
    case YMin => 4
    case YMax => 8
    case ZMin => 16
    case ZMax => 32
  }

  /** The point lies strictly beyond the given face. */
  predicate Violates(v: Vec4, f: Face)
  {
    match f
    case XMin => v.x < -1.0
    case XMax => v.x > 1.0
    case YMin => v.y < -1.0
    case YMax => v.y > 1.0
    case ZMin => v.z < -1.0
    case ZMax => v.z > 1.0
  }

  /** The closed cube [-1,1]^3 (w is not looked at). */
  predicate InsideCube(v: Vec4)
  {
    -1.0 <= v.x <= 1.0 && -1.0 <= v.y <= 1.0 && -1.0 <= v.z <= 1.0
  }

  /** The bit of a single face test. */
  function Bit(c: bool, b: bv32): bv32
  {
    if c then b else 0
  }

  /** The outcode of a point: one bit per face test, ORed together. */
  function Outcode(v: Vec4): bv32
  {
    Bit(v.x < -1.0, 1) | Bit(v.x > 1.0, 2) | Bit(v.y < -1.0, 4)
      | Bit(v.y > 1.0, 8) | Bit(v.z < -1.0, 16) | Bit(v.z > 1.0, 32)
  }

  /** Bit FaceBit(f) of the outcode is set exactly when the point lies beyond face f,
      and no bit outside the low six is ever set. */
  lemma OutcodeFaces(v: Vec4)
    ensures forall f: Face :: (Outcode(v) & FaceBit(f) != 0) <==> Violates(v, f)
    ensures Outcode(v) & 0xFFFF_FFC0 == 0
  {
    forall f: Face
      ensures (Outcode(v) & FaceBit(f) != 0) <==> Violates(v, f)
    {
      match f
      case XMin =>
      case XMax =>
      case YMin =>
      case YMax =>
      case ZMin =>
      case ZMax =>
    }
  }

  /** The outside lambda: starts from 0 and ORs in one bit per violated face. */
  method Outside(v: Vec4) returns (bits: bv32)
    ensures bits == Outcode(v)
  {
    bits := 0;
    if v.x < -1.0 { bits := bits | 1; }
    if v.x > 1.0 { bits := bits | 2; }
    if v.y < -1.0 { bits := bits | 4; }
    if v.y > 1.0 { bits := bits | 8; }
    if v.z < -1.0 { bits := bits | 16; }
    if v.z > 1.0 { bits := bits | 32; }
  }

  /** The outcode is zero exactly for points of the closed cube. */
  lemma OutcodeZeroIffInside(v: Vec4)
    ensures Outcode(v) == 0 <==> InsideCube(v)
  {
    OutcodeFaces(v);
    if Outcode(v) == 0 {
      assert !Violates(v, XMin) && !Violates(v, XMax);
      assert !Violates(v, YMin) && !Violates(v, YMax);
      assert !Violates(v, ZMin) && !Violates(v, ZMax);
    }
    if InsideCube(v) {
      assert Outcode(v) & 0x3F == 0 by {
        assert Outcode(v) & FaceBit(XMin) == 0 && Outcode(v) & FaceBit(XMax) == 0;
        assert Outcode(v) & FaceBit(YMin) == 0 && Outcode(v) & FaceBit(YMax) == 0;
        assert Outcode(v) & FaceBit(ZMin) == 0 && Outcode(v) & FaceBit(ZMax) == 0;
      }
    }
  }

  /** Both ends lie beyond one and the same face. */
  predicate SharedFace(a: Vec4, b: Vec4)
  {
    exists f: Face :: Violates(a, f) && Violates(b, f)
  }

  /** Two outcodes share a bit exactly when the two points lie beyond a common face. */
  lemma RejectIffSharedFace(a: Vec4, b: Vec4)
    ensures Outcode(a) & Outcode(b) != 0 <==> SharedFace(a, b)
  {
    OutcodeFaces(a);
    OutcodeFaces(b);
    var oa, ob := Outcode(a), Outcode(b);
    if oa & ob != 0 {
      var k := oa & ob;
      assert k & 0x3F != 0;
      if k & 1 != 0 {
        assert Violates(a, XMin) && Violates(b, XMin);
      } else if k & 2 != 0 {
        assert Violates(a, XMax) && Violates(b, XMax);
      } else if k & 4 != 0 {
        assert Violates(a, YMin) && Violates(b, YMin);
      } else if k & 8 != 0 {
        assert Violates(a, YMax) && Violates(b, YMax);
      } else if k & 16 != 0 {
        assert Violates(a, ZMin) && Violates(b, ZMin);
      } else {
        assert k & 32 != 0;
        assert Violates(a, ZMax) && Violates(b, ZMax);
      }
    }
    if SharedFace(a, b) {
      var f :| Violates(a, f) && Violates(b, f);
      assert oa & FaceBit(f) != 0 && ob & FaceBit(f) != 0;
      SingleBitShared(oa, ob, FaceBit(f));
    }
  }

  /** Two words that both contain the same single bit have a non-zero AND. */
  lemma SingleBitShared(x: bv32, y: bv32, b: bv32)
    requires b & (b - 1) == 0 && x & b != 0 && y & b != 0
    ensures x & y != 0
  {
    assert (x & y) & b == (x & b) & (y & b);
  }

  /** The point a + t (b - a) of the segment from a to b; w is that of an NDC point. */
  function Lerp(a: Vec4, b: Vec4, t: real): Vec4
  {
    Vec4(a.x + t * (b.x - a.x), a.y + t * (b.y - a.y), a.z + t * (b.z - a.z), 1.0)
  }

  /** On a segment, a lower bound that both end coordinates exceed is exceeded everywhere. */
  lemma BetweenAbove(p: real, q: real, t: real, c: real)
    requires 0.0 <= t <= 1.0 && p > c && q > c
    ensures p + t * (q - p) > c
  {
    if q >= p {
      MulNonNegative(t, q - p);
    } else {
      var s := 1.0 - t;
      MulNonNegative(s, p - q);
      assert t * (q - p) - (q - p) == s * (p - q);
    }
  }

  lemma MulNonNegative(a: real, b: real)
    requires a >= 0.0 && b >= 0.0
    ensures a * b >= 0.0
  {
  }

  /** The same for an upper bound, by reflection. */
  lemma BetweenBelow(p: real, q: real, t: real, c: real)
    requires 0.0 <= t <= 1.0 && p < c && q < c
    ensures p + t * (q - p) < c
  {
    BetweenAbove(-p, -q, t, -c);
    assert -p + t * (-q - -p) == -(p + t * (q - p));
  }

  /** Trivial reject is sound: when the outcodes share a bit, no point of the
      segment between the two ends lies in the cube. */
  lemma RejectedSegmentOutside(a: Vec4, b: Vec4, t: real)
    requires Outcode(a) & Outcode(b) != 0 && 0.0 <= t <= 1.0
    ensures !InsideCube(Lerp(a, b, t))
  {
    RejectIffSharedFace(a, b);
    var f :| Violates(a, f) && Violates(b, f);
    var m := Lerp(a, b, t);
    match f
    case XMin =>
      BetweenBelow(a.x, b.x, t, -1.0);
      assert m.x < -1.0;
    case XMax =>
      BetweenAbove(a.x, b.x, t, 1.0);
      assert m.x > 1.0;
    case YMin =>
      BetweenBelow(a.y, b.y, t, -1.0);
      assert m.y < -1.0;
    case YMax =>
      BetweenAbove(a.y, b.y, t, 1.0);
      assert m.y > 1.0;
    case ZMin =>
      BetweenBelow(a.z, b.z, t, -1.0);
      assert m.z < -1.0;
    case ZMax =>
      BetweenAbove(a.z, b.z, t, 1.0);
      assert m.z > 1.0;
  }
}
