/** Three-dimensional vectors over the reals, standing for FreeCAD's App.Vector.
    Floating-point rounding is not modelled. The Euclidean length (App.Vector.Length,
    a square root) cannot be computed in Dafny, so every operation that normalises
    receives the length as a function `length` that is required to be the true one. */
module Vectors {
  import opened Outcomes

  datatype Vec3 = Vec3(x: real, y: real, z: real)

  const Zero := Vec3(0.0, 0.0, 0.0)
  const XAxis := Vec3(1.0, 0.0, 0.0)
  const YAxis := Vec3(0.0, 1.0, 0.0)
  const ZAxis := Vec3(0.0, 0.0, 1.0)

  function Add(a: Vec3, b: Vec3): Vec3 { Vec3(a.x + b.x, a.y + b.y, a.z + b.z) }

  function Sub(a: Vec3, b: Vec3): Vec3 { Vec3(a.x - b.x, a.y - b.y, a.z - b.z) }

  function Neg(a: Vec3): Vec3 { Vec3(-a.x, -a.y, -a.z) }

  function Scale(k: real, a: Vec3): Vec3 { Vec3(k * a.x, k * a.y, k * a.z) }

  function Dot(a: Vec3, b: Vec3): real { a.x * b.x + a.y * b.y + a.z * b.z }

  function Abs(r: real): real { if r < 0.0 then -r else r }

  function Cross(a: Vec3, b: Vec3): Vec3 {
    Vec3(a.y * b.z - a.z * b.y, a.z * b.x - a.x * b.z, a.x * b.y - a.y * b.x)
  }

  function NormSq(a: Vec3): real { Sq(a.x) + Sq(a.y) + Sq(a.z) }

  function Same(r: real): real { r }

  /** r squared. Written `r * Same(r)` rather than `r * r`: the solver in use loses
      track of equalities between a term and a literal square `r * r`. */
  function Sq(r: real): real { r * Same(r) }

  /** `length` returns the Euclidean length of every vector. */
  ghost predicate IsLengthFunction(length: Vec3 -> real) {
    forall v :: length(v) >= 0.0 && Sq(length(v)) == NormSq(v)
  }

  lemma SignedUnitSquares()
    ensures Sq(0.0) == 0.0 && Sq(1.0) == 1.0 && Sq(-1.0) == 1.0
  {}

  lemma NormSqNeg(v: Vec3)
    ensures NormSq(Neg(v)) == NormSq(v)
  {
    assert (-v.x) * (-v.x) == v.x * v.x;
    assert (-v.y) * (-v.y) == v.y * v.y;
    assert (-v.z) * (-v.z) == v.z * v.z;
  }

  lemma SquarePositive(r: real)
    ensures Sq(r) >= 0.0
    ensures r != 0.0 ==> Sq(r) > 0.0
  {
    if r < 0.0 {
      assert r * r == (-r) * (-r);
      assert (-r) * (-r) > 0.0 * (-r);
    } else if r > 0.0 {
      assert r * r > 0.0 * r;
    }
  }

  lemma NormSqZero(v: Vec3)
    ensures NormSq(v) >= 0.0
    ensures NormSq(v) == 0.0 <==> v == Zero
  {
    SquarePositive(v.x);
    SquarePositive(v.y);
    SquarePositive(v.z);
    if v != Zero {
      assert v.x != 0.0 || v.y != 0.0 || v.z != 0.0;
    }
  }

  /** The non-negative root of a square is determined by it. */
  lemma RootFacts(l: real, n: real)
    requires l >= 0.0 && Sq(l) == n
    ensures l == 0.0 <==> n == 0.0
    ensures l == 1.0 <==> n == 1.0
  {
    SquarePositive(l);
    if l > 1.0 {
      assert l * l > 1.0 * l;
    } else if l < 1.0 {
      assert l * l <= 1.0 * l;
    }
  }

  /** A length is zero exactly for the zero vector, and 1 exactly for unit vectors. */
  lemma LengthFacts(length: Vec3 -> real, v: Vec3)
    requires IsLengthFunction(length)
    ensures length(v) == 0.0 <==> v == Zero
    ensures length(v) == 1.0 <==> NormSq(v) == 1.0
  {
    NormSqZero(v);
    var l := length(v);
    assert l >= 0.0 && Sq(l) == NormSq(v);
    RootFacts(l, NormSq(v));
  }

  /** unit_vector: ValueError on a zero-length vector, otherwise v / |v|.
      The result is the unique unit vector pointing the same way as v. */
  function UnitVector(v: Vec3, length: Vec3 -> real): (r: Result<Vec3>)
    requires IsLengthFunction(length)
    ensures r.Failure? <==> v == Zero
    ensures r.Failure? ==> r.error == ZeroLengthVector
    ensures r.Success? ==> length(v) > 0.0 && NormSq(r.value) == 1.0
  {
    if v == Zero then
      Failure(ZeroLengthVector)
    else
      assert length(v) > 0.0 && NormSq(Scale(1.0 / length(v), v)) == 1.0 by {
        PositiveLength(length, v);
        UnitLength(length(v), v);
      }
      Success(Scale(1.0 / length(v), v))
  }

  lemma PositiveLength(length: Vec3 -> real, v: Vec3)
    requires IsLengthFunction(length)
    requires v != Zero
    ensures length(v) > 0.0 && Sq(length(v)) == NormSq(v)
  {
    LengthFacts(length, v);
  }

  lemma UnitLength(l: real, v: Vec3)
    requires l > 0.0 && Sq(l) == NormSq(v)
    ensures NormSq(Scale(1.0 / l, v)) == 1.0
  {
    var k := 1.0 / l;
    assert k * l == 1.0;
    assert NormSq(Scale(k, v)) == Sq(k) * NormSq(v);
    assert Sq(k) * Sq(l) == Sq(k * l);
  }

  /** The unit vector is v divided by its length. */
  lemma UnitVectorScales(v: Vec3, length: Vec3 -> real)
    requires IsLengthFunction(length)
    requires v != Zero
    ensures length(v) > 0.0 && UnitVector(v, length).value == Scale(1.0 / length(v), v)
  {
    LengthFacts(length, v);
  }

  /** The unit vector points the same way as the input: it is parallel to v and
      its projection on v is |v|. */
  lemma UnitVectorDirection(v: Vec3, length: Vec3 -> real)
    requires IsLengthFunction(length)
    requires v != Zero
    ensures Cross(UnitVector(v, length).value, v) == Zero
    ensures Dot(UnitVector(v, length).value, v) == length(v)
  {
    LengthFacts(length, v);
    var l := length(v);
    var k := 1.0 / l;
    assert k * l == 1.0;
    assert Dot(Scale(k, v), v) == k * NormSq(v);
    assert k * Sq(l) == (k * l) * l;
    var c := Cross(Scale(k, v), v);
    assert c.x == k * (v.y * v.z - v.z * v.y);
    assert c.y == k * (v.z * v.x - v.x * v.z);
    assert c.z == k * (v.x * v.y - v.y * v.x);
  }

  /** Normalising a vector that is already unit gives it back unchanged. */
  lemma UnitVectorOfUnit(v: Vec3, length: Vec3 -> real)
    requires IsLengthFunction(length)
    requires NormSq(v) == 1.0
    ensures UnitVector(v, length) == Success(v)
  {
    LengthFacts(length, v);
    assert 1.0 / 1.0 == 1.0;
    assert Scale(1.0, v) == v;
  }

  /** |a . b| <= 1 for unit vectors (Cauchy-Schwarz for the unit case). */
  lemma UnitDotBounds(a: Vec3, b: Vec3)
    requires NormSq(a) == 1.0 && NormSq(b) == 1.0
    ensures -1.0 <= Dot(a, b) <= 1.0
  {
    NormSqZero(Add(a, b));
    NormSqZero(Sub(a, b));
    NormSqSumDifference(a, b);
  }

  lemma NormSqSumDifference(a: Vec3, b: Vec3)
    ensures NormSq(Add(a, b)) == NormSq(a) + NormSq(b) + 2.0 * Dot(a, b)
    ensures NormSq(Sub(a, b)) == NormSq(a) + NormSq(b) - 2.0 * Dot(a, b)
  {
    assert Sq(a.x + b.x) == Sq(a.x) + Sq(b.x) + 2.0 * (a.x * b.x);
    assert Sq(a.y + b.y) == Sq(a.y) + Sq(b.y) + 2.0 * (a.y * b.y);
    assert Sq(a.z + b.z) == Sq(a.z) + Sq(b.z) + 2.0 * (a.z * b.z);
    assert Sq(a.x - b.x) == Sq(a.x) + Sq(b.x) - 2.0 * (a.x * b.x);
    assert Sq(a.y - b.y) == Sq(a.y) + Sq(b.y) - 2.0 * (a.y * b.y);
    assert Sq(a.z - b.z) == Sq(a.z) + Sq(b.z) - 2.0 * (a.z * b.z);
  }

  /** Lagrange's identity: |a x b|^2 = |a|^2 |b|^2 - (a . b)^2. */
  lemma Lagrange(a: Vec3, b: Vec3)
    ensures NormSq(Cross(a, b)) == NormSq(a) * NormSq(b) - Sq(Dot(a, b))
  {}

  lemma CrossOrthogonal(a: Vec3, b: Vec3)
    ensures Dot(Cross(a, b), a) == 0.0 && Dot(Cross(a, b), b) == 0.0
  {}

  /** a x (b x c) = (a . c) b - (a . b) c. */
  lemma TripleProduct(a: Vec3, b: Vec3, c: Vec3)
    ensures Cross(a, Cross(b, c)) == Sub(Scale(Dot(a, c), b), Scale(Dot(a, b), c))
  {
    TripleProductX(a, b, c);
    TripleProductY(a, b, c);
    TripleProductZ(a, b, c);
    SubOfScales(Dot(a, c), b, Dot(a, b), c);
  }

  lemma SubOfScales(p: real, b: Vec3, q: real, c: Vec3)
    ensures Sub(Scale(p, b), Scale(q, c)) == Vec3(p * b.x - q * c.x, p * b.y - q * c.y, p * b.z - q * c.z)
  {}

  lemma TripleProductX(a: Vec3, b: Vec3, c: Vec3)
    ensures Cross(a, Cross(b, c)).x == Dot(a, c) * b.x - Dot(a, b) * c.x
  {
    assert a.y * (b.x * c.y - b.y * c.x) - a.z * (b.z * c.x - b.x * c.z)
        == (a.x * c.x + a.y * c.y + a.z * c.z) * b.x - (a.x * b.x + a.y * b.y + a.z * b.z) * c.x;
  }

  lemma TripleProductY(a: Vec3, b: Vec3, c: Vec3)
    ensures Cross(a, Cross(b, c)).y == Dot(a, c) * b.y - Dot(a, b) * c.y
  {
    assert a.z * (b.y * c.z - b.z * c.y) - a.x * (b.x * c.y - b.y * c.x)
        == (a.x * c.x + a.y * c.y + a.z * c.z) * b.y - (a.x * b.x + a.y * b.y + a.z * b.z) * c.y;
  }

  lemma TripleProductZ(a: Vec3, b: Vec3, c: Vec3)
    ensures Cross(a, Cross(b, c)).z == Dot(a, c) * b.z - Dot(a, b) * c.z
  {
    assert a.x * (b.z * c.x - b.x * c.z) - a.y * (b.y * c.z - b.z * c.y)
        == (a.x * c.x + a.y * c.y + a.z * c.z) * b.z - (a.x * b.x + a.y * b.y + a.z * b.z) * c.z;
  }

  lemma DotScale(k: real, a: Vec3, b: Vec3)
    ensures Dot(Scale(k, a), b) == k * Dot(a, b)
    ensures Dot(b, Scale(k, a)) == k * Dot(a, b)
  {}
}
