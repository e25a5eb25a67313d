/** The part of FreeCAD's solid geometry engine that the core touches, kept abstract.
    A face is reduced to what face selection reads from it; solids are symbolic
    terms recording how they were built (template, extrusion of a placed text
    outline, union, difference), so results can be compared but not measured. */
module Geometry {
  import opened Outcomes
  import opened Vectors
  import opened Placements

  /** A face of a solid: the normal that normalAt returns at the middle of its
      parameter range (None when normalAt raises) and its centre of mass. */
  datatype Face = Face(normal: Option<Vec3>, centroid: Vec3)

  /** An axis-aligned bounding box (Shape.BoundBox). */
  datatype Box = Box(xMin: real, xMax: real, yMin: real, yMax: real, zMin: real, zMax: real)

  function CenterX(b: Box): real { (b.xMin + b.xMax) * 0.5 }

  function CenterY(b: Box): real { (b.yMin + b.yMax) * 0.5 }

  /** The box of a shape moved by v. */
  function Shifted(b: Box, v: Vec3): (r: Box)
    ensures CenterX(r) == CenterX(b) + v.x && CenterY(r) == CenterY(b) + v.y
    ensures r.zMin == b.zMin + v.z && r.zMax == b.zMax + v.z
  {
    Box(b.xMin + v.x, b.xMax + v.x, b.yMin + v.y, b.yMax + v.y, b.zMin + v.z, b.zMax + v.z)
  }

  /** The outline of a text in a font at a size, laid out by a placement. */
  datatype Profile = Profile(text: string, font: string, size: real, placement: Placement)

  datatype Solid =
    | EmptySolid
    | TemplateSolid(id: nat)
    | Extrusion(profile: Profile, vector: Vec3)
    | Fusion(base: Solid, tool: Solid)
    | Cut(base: Solid, tool: Solid)

  /** A shape as the core inspects it: its solid, whether it is null, how many
      solids it holds, and its faces in order. */
  datatype Shape = Shape(solid: Solid, isNull: bool, solidCount: nat, faces: seq<Face>)

  /** Part.Shape(): the null shape a new Part::Feature starts with. */
  const NullShape := Shape(EmptySolid, true, 0, [])

  predicate HasSolid(s: Shape) {
    !s.isNull && s.solidCount > 0
  }

  /** Draft.makeShapeString for (text, font file, size): the bounding box of the
      generated outline under the identity placement, or None when generation fails. */
  type OutlineGenerator = (string, string, real) -> Option<Box>

  /** A triangulation of a solid (Shape.tessellate into a Mesh). */
  datatype Mesh = Mesh(solid: Solid, deflection: real)

  /** shape_to_mesh: ValueError unless the linear deflection is positive. */
  function ShapeToMesh(solid: Solid, deflection: real): (r: Result<Mesh>)
    ensures r.Failure? <==> deflection <= 0.0
    ensures r.Failure? ==> r.error == NonPositiveDeflection
    ensures r.Success? ==> r.value.solid == solid && r.value.deflection == deflection
  {
    if deflection <= 0.0 then Failure(NonPositiveDeflection) else Success(Mesh(solid, deflection))
  }

  /** The shape of a generated text outline, which the legend builders move in place
      with Shape.translate and by assigning its Placement. */
  class LegendShape {
    const text: string
    const font: string
    const size: real
    /** The outline's bounding box under the identity placement. */
    const outline: Box
    var placement: Placement

    constructor (text: string, font: string, size: real, outline: Box)
      ensures this.text == text && this.font == font && this.size == size
      ensures this.outline == outline && placement == IdentityPlacement
    {
      this.text := text;
      this.font := font;
      this.size := size;
      this.outline := outline;
      placement := IdentityPlacement;
    }

    /** BoundBox of a shape that has only been translated. */
    function BoundBox(): Box
      reads this
      requires placement.rotation == Identity
    {
      Shifted(outline, placement.base)
    }

    /** Shape.translate(v). */
    method Translate(v: Vec3)
      modifies this
      ensures placement == Translated(old(placement), v)
    {
      placement := Translated(placement, v);
    }

    /** Assignment to Shape.Placement. */
    method SetPlacement(p: Placement)
      modifies this
      ensures placement == p
    {
      placement := p;
    }

    function AsProfile(): Profile
      reads this
    {
      Profile(text, font, size, placement)
    }
  }
}
