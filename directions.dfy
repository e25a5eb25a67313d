/** The face tables of keycap_exporter_core.py. The tables are dictionaries keyed by
    six face labels; here the six faces are an enumeration, each table is a function
    on it, and a dictionary lookup is `FaceOf(key)` followed by that function. */
module Directions {
  import opened Outcomes
  import opened Vectors
  import opened Placements

  datatype FaceChoice = Top | Bottom | Front | Back | Right | Left

  /** The dictionary key of each face. */
  function Label(c: FaceChoice): string {
    match c
    case Top => "Top (+Z)"
    case Bottom => "Bottom (-Z)"
    case Front => "Front (+Y)"
    case Back => "Back (-Y)"
    case Right => "Right (+X)"
    case Left => "Left (-X)"
  }

  /** Dictionary lookup: the face whose key is `key`, if there is one. */
  function FaceOf(key: string): (r: Option<FaceChoice>)
    ensures r.Some? ==> Label(r.value) == key
  {
    if key == "Top (+Z)" then Some(Top)
    else if key == "Bottom (-Z)" then Some(Bottom)
    else if key == "Front (+Y)" then Some(Front)
    else if key == "Back (-Y)" then Some(Back)
    else if key == "Right (+X)" then Some(Right)
    else if key == "Left (-X)" then Some(Left)
    else None
  }

  /** FACE_DIRECTIONS: the outward direction of each face. */
  function FaceDirection(c: FaceChoice): Vec3 {
    match c
    case Top => Vec3(0.0, 0.0, 1.0)
    case Bottom => Vec3(0.0, 0.0, -1.0)
    case Front => Vec3(0.0, 1.0, 0.0)
    case Back => Vec3(0.0, -1.0, 0.0)
    case Right => Vec3(1.0, 0.0, 0.0)
    case Left => Vec3(-1.0, 0.0, 0.0)
  }

  /** ENGRAVING_DIRECTIONS: the direction into the face. */
  function EngravingDirection(c: FaceChoice): Vec3 {
    match c
    case Top => Vec3(0.0, 0.0, -1.0)
    case Bottom => Vec3(0.0, 0.0, 1.0)
    case Front => Vec3(0.0, -1.0, 0.0)
    case Back => Vec3(0.0, 1.0, 0.0)
    case Right => Vec3(-1.0, 0.0, 0.0)
    case Left => Vec3(1.0, 0.0, 0.0)
  }

  /** FACE_ROTATION: the local frame laid on each face, by its X, Y and Z axes. */
  function FaceRotation(c: FaceChoice): Rotation {
    match c
    case Top => Rotation(Vec3(1.0, 0.0, 0.0), Vec3(0.0, 1.0, 0.0), Vec3(0.0, 0.0, 1.0))
    case Bottom => Rotation(Vec3(1.0, 0.0, 0.0), Vec3(0.0, -1.0, 0.0), Vec3(0.0, 0.0, -1.0))
    case Front => Rotation(Vec3(-1.0, 0.0, 0.0), Vec3(0.0, 0.0, 1.0), Vec3(0.0, 1.0, 0.0))
    case Back => Rotation(Vec3(1.0, 0.0, 0.0), Vec3(0.0, 0.0, 1.0), Vec3(0.0, -1.0, 0.0))
    case Right => Rotation(Vec3(0.0, 1.0, 0.0), Vec3(0.0, 0.0, 1.0), Vec3(1.0, 0.0, 0.0))
    case Left => Rotation(Vec3(0.0, -1.0, 0.0), Vec3(0.0, 0.0, 1.0), Vec3(-1.0, 0.0, 0.0))
  }

  /** FACE_DIRECTIONS as the dictionary the batch pipeline receives. */
  function FaceDirectionTable(): (m: map<string, Vec3>)
    ensures forall c: FaceChoice :: Label(c) in m && m[Label(c)] == FaceDirection(c)
  {
    map[Label(Top) := FaceDirection(Top), Label(Bottom) := FaceDirection(Bottom),
        Label(Front) := FaceDirection(Front), Label(Back) := FaceDirection(Back),
        Label(Right) := FaceDirection(Right), Label(Left) := FaceDirection(Left)]
  }

  /** Every key is found again by lookup, and only its own key finds a face: the six
      keys are distinct, so the three tables share exactly the same six keys. */
  lemma LabelsIdentifyFaces(c: FaceChoice, key: string)
    ensures FaceOf(Label(c)) == Some(c)
    ensures FaceOf(key) == Some(c) <==> key == Label(c)
  {
    var t, b, f, k, r := Label(Top), Label(Bottom), Label(Front), Label(Back), Label(Right);
    match c
    case Top =>
    case Bottom =>
      assert b[0] != t[0];
    case Front =>
      assert f[0] != t[0] && f[0] != b[0];
    case Back =>
      assert k[0] != t[0] && k[1] != b[1] && k[0] != f[0];
    case Right =>
      assert r[0] != t[0] && r[0] != b[0] && r[0] != f[0] && r[0] != k[0];
    case Left =>
      var l := Label(Left);
      assert l[0] != t[0] && l[0] != b[0] && l[0] != f[0] && l[0] != k[0] && l[0] != r[0];
  }

  /** Engraving goes into the face: every engraving direction is the opposite of the
      face direction with the same key. */
  lemma EngravingOpposesFace(c: FaceChoice)
    ensures EngravingDirection(c) == Neg(FaceDirection(c))
  {}

  /** Every direction in both tables is a unit vector. */
  lemma DirectionsAreUnit(c: FaceChoice)
    ensures NormSq(FaceDirection(c)) == 1.0
    ensures NormSq(EngravingDirection(c)) == 1.0
  {
    SignedUnitSquares();
    var d := FaceDirection(c);
    assert NormSq(d) == 1.0 by {
      match c
      case Top => assert d == Vec3(0.0, 0.0, 1.0);
      case Bottom => assert d == Vec3(0.0, 0.0, -1.0);
      case Front => assert d == Vec3(0.0, 1.0, 0.0);
      case Back => assert d == Vec3(0.0, -1.0, 0.0);
      case Right => assert d == Vec3(1.0, 0.0, 0.0);
      case Left => assert d == Vec3(-1.0, 0.0, 0.0);
    }
    EngravingOpposesFace(c);
    NormSqNeg(d);
  }

  /** Every fixed rotation is a proper rotation (orthonormal, X x Y = Z) whose local
      Z axis is the face direction of its key. */
  lemma RotationsMatchFaces(c: FaceChoice)
    ensures RightHanded(FaceRotation(c))
    ensures FaceRotation(c).z == FaceDirection(c)
  {
    RotationColumnsUnit(c);
    RotationColumnsOrthogonal(c);
  }

  /** The columns are pairwise orthogonal and X x Y = Z; one fact per lemma keeps
      each proof small. */
  lemma RotationColumnsOrthogonal(c: FaceChoice)
    ensures var r := FaceRotation(c);
      Dot(r.x, r.y) == 0.0 && Dot(r.x, r.z) == 0.0 && Dot(r.y, r.z) == 0.0 && Cross(r.x, r.y) == r.z
  {
    RotationXY(c);
    RotationXZ(c);
    RotationYZ(c);
    RotationCross(c);
  }

  lemma RotationXY(c: FaceChoice) ensures Dot(FaceRotation(c).x, FaceRotation(c).y) == 0.0 {}
  lemma RotationXZ(c: FaceChoice) ensures Dot(FaceRotation(c).x, FaceRotation(c).z) == 0.0 {}
  lemma RotationYZ(c: FaceChoice) ensures Dot(FaceRotation(c).y, FaceRotation(c).z) == 0.0 {}
  lemma RotationCross(c: FaceChoice) ensures Cross(FaceRotation(c).x, FaceRotation(c).y) == FaceRotation(c).z {}

  /** Each column is one of the face directions, which are unit vectors. */
  lemma RotationColumnsUnit(c: FaceChoice)
    ensures var r := FaceRotation(c); NormSq(r.x) == 1.0 && NormSq(r.y) == 1.0 && NormSq(r.z) == 1.0
  {
    match c
    case Top => ColumnsUnit(FaceRotation(c), Right, Front, Top);
    case Bottom => ColumnsUnit(FaceRotation(c), Right, Back, Bottom);
    case Front => ColumnsUnit(FaceRotation(c), Left, Top, Front);
    case Back => ColumnsUnit(FaceRotation(c), Right, Top, Back);
    case Right => ColumnsUnit(FaceRotation(c), Front, Top, Right);
    case Left => ColumnsUnit(FaceRotation(c), Back, Top, Left);
  }

  lemma ColumnsUnit(r: Rotation, a: FaceChoice, b: FaceChoice, c: FaceChoice)
    requires r == Rotation(FaceDirection(a), FaceDirection(b), FaceDirection(c))
    ensures NormSq(r.x) == 1.0 && NormSq(r.y) == 1.0 && NormSq(r.z) == 1.0
  {
    DirectionsAreUnit(a);
    DirectionsAreUnit(b);
    DirectionsAreUnit(c);
  }
}
