/** face_utils.make_face_plane_placement: a local frame on the chosen face, with its
    origin at the face's centre of mass and its Z axis along the unit face normal. */
module FaceFrame {
  import opened Outcomes
  import opened Vectors
  import opened Placements
  import opened Geometry

  /** The helper axis: +Z, unless the normal is within about 18 degrees of the Z
      axis, in which case +Y. */
  function UpVector(n: Vec3): Vec3 {
    if Abs(Dot(n, ZAxis)) > 0.95 then YAxis else ZAxis
  }

  /** The frame laid on a face and the unit face normal. */
  datatype Frame = Frame(placement: Placement, normal: Vec3)

  /** The frame on `face`: Z is the unit normal, X the normalised up x normal, Y the
      normalised normal x X. Fails when normalAt raises or the normal is zero; the
      two later normalisations never fail (UpCrossNonZero, SecondAxisUnit). */
  function FacePlanePlacement(face: Face, length: Vec3 -> real): (r: Result<Frame>)
    requires IsLengthFunction(length)
    ensures r.Failure? <==> face.normal.None? || face.normal == Some(Zero)
    ensures r.Failure? ==> r.error == (if face.normal.None? then NormalEvaluationFailed else ZeroLengthVector)
    ensures r.Success? ==> r.value.normal == UnitVector(face.normal.value, length).value
    ensures r.Success? ==> r.value.placement.base == face.centroid
    ensures r.Success? ==> r.value.placement.rotation.z == r.value.normal
    ensures r.Success? ==> RightHanded(r.value.placement.rotation)
  {
    if face.normal.None? then Failure(NormalEvaluationFailed)
    else
      var normalVector := UnitVector(face.normal.value, length);
      if normalVector.Failure? then Failure(normalVector.error)
      else
        var n := normalVector.value;
        var up := UpVector(n);
        assert Cross(up, n) != Zero by { UpCrossNonZero(n); }
        var x := UnitVector(Cross(up, n), length).value;
        assert Dot(x, n) == 0.0 by { FirstAxisOrthogonal(up, n, length); }
        assert Cross(n, x) != Zero && NormSq(Cross(n, x)) == 1.0 by { SecondAxisUnit(n, x); }
        var y := UnitVector(Cross(n, x), length).value;
        assert RightHanded(Rotation(x, y, n)) by { FrameIsRightHanded(n, x, y, length); }
        Success(Frame(Placement(face.centroid, Rotation(x, y, n)), n))
  }

  /** |a| <= b implies a^2 <= b^2. */
  lemma SquareBound(a: real, b: real)
    requires Abs(a) <= b
    ensures Sq(a) <= Sq(b)
  {
    var m := Abs(a);
    assert Sq(a) == m * m;
    assert m * m <= b * m;
    assert b * m <= b * b;
  }

  /** b < |a| with b >= 0 implies b^2 < a^2. */
  lemma SquareAbove(a: real, b: real)
    requires 0.0 <= b < Abs(a)
    ensures Sq(b) < Sq(a)
  {
    var m := Abs(a);
    assert Sq(a) == m * m;
    assert b * b <= b * m;
    assert b * m < m * m;
  }

  /** For a unit normal the helper axis is never parallel to it, so up x n is not
      zero and the first normalisation cannot raise. */
  lemma UpCrossNonZero(n: Vec3)
    requires NormSq(n) == 1.0
    ensures Cross(UpVector(n), n) != Zero
  {
    UpDotBelowOne(n);
    UpIsUnit(n);
    UnitCrossNorm(UpVector(n), n);
    NormSqZero(Cross(UpVector(n), n));
  }

  lemma UpIsUnit(n: Vec3)
    ensures NormSq(UpVector(n)) == 1.0
  {
    SignedUnitSquares();
  }

  /** |up x n|^2 = 1 - (up . n)^2 for unit vectors. */
  lemma UnitCrossNorm(a: Vec3, b: Vec3)
    requires NormSq(a) == 1.0 && NormSq(b) == 1.0
    ensures NormSq(Cross(a, b)) == 1.0 - Sq(Dot(a, b))
  {
    Lagrange(a, b);
  }

  /** The helper axis is never parallel to a unit normal: (up . n)^2 < 1. */
  lemma UpDotBelowOne(n: Vec3)
    requires NormSq(n) == 1.0
    ensures Sq(Dot(UpVector(n), n)) < 1.0
  {
    if Abs(Dot(n, ZAxis)) > 0.95 {
      UpIsY(n);
    } else {
      UpIsZ(n);
    }
  }

  lemma UpIsZ(n: Vec3)
    requires Abs(Dot(n, ZAxis)) <= 0.95
    ensures Sq(Dot(ZAxis, n)) < 1.0
  {
    assert Dot(n, ZAxis) == n.z && Dot(ZAxis, n) == n.z;
    SquareBound(n.z, 0.95);
  }

  lemma UpIsY(n: Vec3)
    requires NormSq(n) == 1.0 && Abs(Dot(n, ZAxis)) > 0.95
    ensures Sq(Dot(YAxis, n)) < 1.0
  {
    assert Dot(n, ZAxis) == n.z && Dot(YAxis, n) == n.y;
    SquareAbove(n.z, 0.95);
    SquarePositive(n.x);
    assert Sq(n.y) < 1.0;
  }

  /** X is orthogonal to the normal: it is a positive multiple of up x n. */
  lemma FirstAxisOrthogonal(up: Vec3, n: Vec3, length: Vec3 -> real)
    requires IsLengthFunction(length) && Cross(up, n) != Zero
    ensures Dot(UnitVector(Cross(up, n), length).value, n) == 0.0
  {
    var c := Cross(up, n);
    UnitVectorScales(c, length);
    CrossOrthogonal(up, n);
    DotScale(1.0 / length(c), c, n);
  }

  /** n x X is already a unit vector when n and X are orthogonal unit vectors, so the
      second normalisation cannot raise and changes nothing. */
  lemma SecondAxisUnit(n: Vec3, x: Vec3)
    requires NormSq(n) == 1.0 && NormSq(x) == 1.0 && Dot(x, n) == 0.0
    ensures Cross(n, x) != Zero && NormSq(Cross(n, x)) == 1.0
  {
    var c := Cross(n, x);
    assert Dot(n, x) == 0.0 by { DotCommutes(n, x); }
    assert NormSq(c) == NormSq(n) * NormSq(x) - Sq(Dot(n, x)) by { Lagrange(n, x); }
    assert NormSq(c) == 1.0;
    NormSqZero(c);
  }

  lemma DotCommutes(a: Vec3, b: Vec3)
    ensures Dot(a, b) == Dot(b, a)
  {}

  lemma DotSelf(v: Vec3)
    ensures Dot(v, v) == NormSq(v)
  {}

  /** The three axes form a proper rotation with Z the normal. */
  lemma FrameIsRightHanded(n: Vec3, x: Vec3, y: Vec3, length: Vec3 -> real)
    requires IsLengthFunction(length)
    requires NormSq(n) == 1.0 && NormSq(x) == 1.0 && Dot(x, n) == 0.0
    requires NormSq(Cross(n, x)) == 1.0 && y == UnitVector(Cross(n, x), length).value
    ensures RightHanded(Rotation(x, y, n))
  {
    UnitVectorOfUnit(Cross(n, x), length);
    assert y == Cross(n, x);
    assert Dot(x, y) == 0.0 && Dot(y, n) == 0.0 by { CrossOrthogonal(n, x); }
    assert Dot(x, n) == 0.0;
    assert Cross(x, y) == n by {
      TripleProduct(x, n, x);
      DotSelf(x);
      assert Scale(1.0, n) == n;
      assert Scale(0.0, x) == Zero;
    }
  }
}
