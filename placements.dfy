/** Rotations and placements, standing for FreeCAD's App.Rotation and App.Placement.
    A rotation is given by the images of the three local axes (its matrix columns),
    as App.Rotation(x, y, z) is built from three axis vectors; a placement maps a
    local point p to base + rotation(p). */
module Placements {
  import opened Vectors

  datatype Rotation = Rotation(x: Vec3, y: Vec3, z: Vec3)

  const Identity := Rotation(XAxis, YAxis, ZAxis)

  /** The rows of the matrix whose columns are x, y and z. */
  function RowX(r: Rotation): Vec3 { Vec3(r.x.x, r.y.x, r.z.x) }
  function RowY(r: Rotation): Vec3 { Vec3(r.x.y, r.y.y, r.z.y) }
  function RowZ(r: Rotation): Vec3 { Vec3(r.x.z, r.y.z, r.z.z) }

  /** The image of v, v.x times the X column plus v.y times Y plus v.z times Z,
      computed row by row. */
  function Rotate(r: Rotation, v: Vec3): Vec3 {
    Vec3(Dot(v, RowX(r)), Dot(v, RowY(r)), Dot(v, RowZ(r)))
  }

  /** The rotation that applies b first and then a. */
  function Compose(a: Rotation, b: Rotation): Rotation {
    Rotation(Rotate(a, b.x), Rotate(a, b.y), Rotate(a, b.z))
  }

  /** The three columns are unit vectors and pairwise orthogonal. */
  predicate Orthonormal(r: Rotation) {
    NormSq(r.x) == 1.0 && NormSq(r.y) == 1.0 && NormSq(r.z) == 1.0 &&
    Dot(r.x, r.y) == 0.0 && Dot(r.x, r.z) == 0.0 && Dot(r.y, r.z) == 0.0
  }

  /** An orthonormal frame with X x Y = Z: a proper rotation. */
  predicate RightHanded(r: Rotation) {
    Orthonormal(r) && Cross(r.x, r.y) == r.z
  }

  datatype Placement = Placement(base: Vec3, rotation: Rotation)

  const IdentityPlacement := Placement(Zero, Identity)

  /** The world position of the local point v. */
  function Apply(p: Placement, v: Vec3): Vec3 {
    Add(p.base, Rotate(p.rotation, v))
  }

  /** Placement.multiply: the placement that applies b first and then a. */
  function Multiply(a: Placement, b: Placement): Placement {
    Placement(Apply(a, b.base), Compose(a.rotation, b.rotation))
  }

  /** Shape.translate(v): the shape moves by v in world coordinates, so v is added
      to the base of its placement and the rotation is kept. */
  function Translated(p: Placement, v: Vec3): (r: Placement)
    ensures forall w :: Apply(r, w) == Add(Apply(p, w), v)
  {
    Placement(Add(p.base, v), p.rotation)
  }

  lemma RotateIdentity(v: Vec3)
    ensures Rotate(Identity, v) == v
  {
    assert Scale(v.x, XAxis) == Vec3(v.x, 0.0, 0.0);
    assert Scale(v.y, YAxis) == Vec3(0.0, v.y, 0.0);
    assert Scale(v.z, ZAxis) == Vec3(0.0, 0.0, v.z);
  }

  /** The dot product is linear in its first argument. */
  lemma DotLinear(a: real, u: Vec3, b: real, w: Vec3, c: Vec3)
    ensures Dot(Add(Scale(a, u), Scale(b, w)), c) == a * Dot(u, c) + b * Dot(w, c)
  {
    assert (a * u.x + b * w.x) * c.x == a * (u.x * c.x) + b * (w.x * c.x);
    assert (a * u.y + b * w.y) * c.y == a * (u.y * c.y) + b * (w.y * c.y);
    assert (a * u.z + b * w.z) * c.z == a * (u.z * c.z) + b * (w.z * c.z);
  }

  /** Rotations are linear. */
  lemma RotateLinear(r: Rotation, a: real, u: Vec3, b: real, w: Vec3)
    ensures Rotate(r, Add(Scale(a, u), Scale(b, w))) == Add(Scale(a, Rotate(r, u)), Scale(b, Rotate(r, w)))
  {
    DotLinear(a, u, b, w, RowX(r));
    DotLinear(a, u, b, w, RowY(r));
    DotLinear(a, u, b, w, RowZ(r));
  }

  /** Rotating by a composition is rotating twice. */
  lemma RotateCompose(a: Rotation, b: Rotation, v: Vec3)
    ensures Rotate(Compose(a, b), v) == Rotate(a, Rotate(b, v))
  {
    RotateDotRow(b, v, RowX(a));
    RotateDotRow(b, v, RowY(a));
    RotateDotRow(b, v, RowZ(a));
  }

  /** A row of the outer rotation applied to b's image of v, column by column. */
  lemma RotateDotRow(b: Rotation, v: Vec3, q: Vec3)
    ensures Dot(Rotate(b, v), q) == v.x * Dot(b.x, q) + v.y * Dot(b.y, q) + v.z * Dot(b.z, q)
  {
    assert (v.x * b.x.x + v.y * b.y.x + v.z * b.z.x) * q.x ==
      v.x * (b.x.x * q.x) + v.y * (b.y.x * q.x) + v.z * (b.z.x * q.x);
    assert (v.x * b.x.y + v.y * b.y.y + v.z * b.z.y) * q.y ==
      v.x * (b.x.y * q.y) + v.y * (b.y.y * q.y) + v.z * (b.z.y * q.y);
    assert (v.x * b.x.z + v.y * b.y.z + v.z * b.z.z) * q.z ==
      v.x * (b.x.z * q.z) + v.y * (b.y.z * q.z) + v.z * (b.z.z * q.z);
  }

  /** Placement.multiply composes the two maps: the local point of b, placed by the
      product, lands where a places b's image. */
  lemma MultiplyApply(a: Placement, b: Placement, v: Vec3)
    ensures Apply(Multiply(a, b), v) == Apply(a, Apply(b, v))
  {
    RotateCompose(a.rotation, b.rotation, v);
    RotateLinear(a.rotation, 1.0, b.base, 1.0, Rotate(b.rotation, v));
    assert Scale(1.0, b.base) == b.base;
    assert Scale(1.0, Rotate(b.rotation, v)) == Rotate(b.rotation, v);
    assert Scale(1.0, Rotate(a.rotation, b.base)) == Rotate(a.rotation, b.base);
    assert Scale(1.0, Rotate(a.rotation, Rotate(b.rotation, v))) == Rotate(a.rotation, Rotate(b.rotation, v));
  }

  /** The columns of a rotation are the images of the world axes. */
  lemma RotateAxes(r: Rotation)
    ensures Rotate(r, XAxis) == r.x && Rotate(r, YAxis) == r.y && Rotate(r, ZAxis) == r.z
    ensures Rotate(r, Zero) == Zero
  {
    assert Scale(1.0, r.x) == r.x && Scale(1.0, r.y) == r.y && Scale(1.0, r.z) == r.z;
    assert Scale(0.0, r.x) == Zero && Scale(0.0, r.y) == Zero && Scale(0.0, r.z) == Zero;
  }

  /** The identity placement is neutral on the right. */
  lemma MultiplyIdentity(a: Placement)
    ensures Multiply(a, IdentityPlacement) == a
  {
    RotateAxes(a.rotation);
    assert Add(a.base, Zero) == a.base;
  }
}
