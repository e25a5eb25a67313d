/** The batch tool's legend pipeline (core.py with the helpers of geometry_utils.py):
    one primary legend per key, laid on the face that best matches the chosen
    direction, sunk slightly into it, extruded along world Z and fused with or cut
    from a copy of the template solid. */
module BatchCore {
  import opened Outcomes
  import opened Vectors
  import opened Placements
  import opened Geometry
  import opened FaceSelection
  import opened FaceFrame
  import opened Objects
  import opened KeycapCore

  /** The ExportConfig record of config.py (sizes and offsets in millimetres). */
  datatype ExportConfig = ExportConfig(
    templateObjectName: string,
    faceChoiceLabel: string,
    fontPath: string,
    outputDir: string,
    mode: string,
    size: real,
    depth: real,
    offsetX: real,
    offsetY: real,
    linearDeflection: real,
    previewLabel: string)

  /** How far the legend outline is sunk below the face plane before extrusion. */
  const Overlap: real := 0.05

  /** `template_obj.Shape.copy()`: an object without a Shape attribute, or with a
      None shape, raises AttributeError; a getter that raises propagates. */
  function TemplateShape(o: DocObject): (r: Result<Shape>)
    ensures r.Success? <==> o.shape.Has?
    ensures r.Success? ==> r.value == o.shape.shape
    ensures r.Failure? ==> r.error == (if o.shape == ShapeRaises then ShapeAccessFailed else ShapeUnavailable)
  {
    match o.shape
    case Has(s) => Success(s)
    case ShapeRaises => Failure(ShapeAccessFailed)
    case _ => Failure(ShapeUnavailable)
  }

  /** geometry_utils.extrude_to_solid: ValueError unless the height is positive;
      otherwise the outline is extruded by the height along world +Z. */
  function ExtrudeToSolid(profile: Profile, height: real): (r: Result<Solid>)
    ensures r.Failure? <==> height <= 0.0
    ensures r.Failure? ==> r.error == NonPositiveDepth
    ensures r.Success? ==> r.value.Extrusion? && r.value.profile == profile
    ensures r.Success? ==> r.value.vector == Scale(height, ZAxis)
  {
    if height <= 0.0 then Failure(NonPositiveDepth) else Success(Extrusion(profile, Vec3(0.0, 0.0, height)))
  }

  /** The placement of the outline after core.py's three translations. */
  function LocalLegendPlacement(outline: Box, offsetX: real, offsetY: real): Placement {
    Translated(RecenterPlacement(outline, offsetX, offsetY), Vec3(0.0, 0.0, -Overlap))
  }

  /** Before it is laid on the face the outline is unrotated, centred on the offset,
      and sunk by the overlap below the local plane. */
  lemma LegendSunkBelowFace(outline: Box, offsetX: real, offsetY: real)
    ensures var p := LocalLegendPlacement(outline, offsetX, offsetY);
      var b := Shifted(outline, p.base);
      p.rotation == Identity && CenterX(b) == offsetX && CenterY(b) == offsetY &&
      b.zMin == outline.zMin - Overlap && b.zMax == outline.zMax - Overlap
  {
    RecenterCentresOnOffset(outline, offsetX, offsetY);
  }

  /** The first four steps of build_keycap_with_legend_shape: the template object is
      resolved by name, its shape read, checked to hold a solid, and the direction of
      the face choice looked up. */
  function TemplateAndDirection(objects: seq<DocObject>, cfg: ExportConfig, faceDirections: map<string, Vec3>)
    : (r: Result<(Shape, Vec3)>)
    ensures r.Success? ==>
      HasSolid(r.value.0) && cfg.faceChoiceLabel in faceDirections && r.value.1 == faceDirections[cfg.faceChoiceLabel] &&
      exists i :: 0 <= i < |objects| && objects[i].name == cfg.templateObjectName && objects[i].shape == Has(r.value.0)
    ensures (forall i :: 0 <= i < |objects| ==> objects[i].name != cfg.templateObjectName) ==> r == Failure(ObjectNotFound)
    ensures var o := ResolveObjectByName(objects, cfg.templateObjectName);
      o.Success? && TemplateShape(o.value).Failure? ==> r == Failure(TemplateShape(o.value).error)
    ensures var o := ResolveObjectByName(objects, cfg.templateObjectName);
      o.Success? && TemplateShape(o.value).Success? && !HasSolid(TemplateShape(o.value).value) ==>
        r == Failure(TemplateHasNoSolid)
    ensures var o := ResolveObjectByName(objects, cfg.templateObjectName);
      o.Success? && TemplateShape(o.value).Success? && HasSolid(TemplateShape(o.value).value) ==>
        (cfg.faceChoiceLabel !in faceDirections <==> r == Failure(UnknownFaceChoice)) &&
        (cfg.faceChoiceLabel in faceDirections ==> r == Success((TemplateShape(o.value).value, faceDirections[cfg.faceChoiceLabel])))
  {
    var template :- ResolveObjectByName(objects, cfg.templateObjectName);
    var shape :- TemplateShape(template);
    if shape.isNull || shape.solidCount <= 0 then Failure(TemplateHasNoSolid)
    else if cfg.faceChoiceLabel !in faceDirections then Failure(UnknownFaceChoice)
    else Success((shape, faceDirections[cfg.faceChoiceLabel]))
  }

  /** The rest of build_keycap_with_legend_shape once the face is chosen: the face
      frame, the outline, its translations and placement, the extrusion and the mode
      dispatch. */
  function Finish(shape: Shape, face: Face, cfg: ExportConfig, text: string, outlineOf: OutlineGenerator,
                  length: Vec3 -> real): Result<Solid>
    requires IsLengthFunction(length)
  {
    var frame :- FacePlanePlacement(face, length);
    match outlineOf(text, cfg.fontPath, cfg.size)
    case None => Failure(OutlineGenerationFailed)
    case Some(outline) =>
      var profile := Profile(text, cfg.fontPath, cfg.size,
                             Multiply(frame.placement, LocalLegendPlacement(outline, cfg.offsetX, cfg.offsetY)));
      var legend :- ExtrudeToSolid(profile, cfg.depth);
      Combine(cfg.mode, shape.solid, legend)
  }

  /** core.build_keycap_with_legend_shape. */
  method BuildKeycapWithLegendShape(objects: seq<DocObject>, cfg: ExportConfig, text: string,
                                    faceDirections: map<string, Vec3>, outlineOf: OutlineGenerator,
                                    length: Vec3 -> real)
    returns (r: Result<Solid>)
    requires IsLengthFunction(length)
    ensures var td := TemplateAndDirection(objects, cfg, faceDirections);
      td.Failure? ==> r == Failure(td.error)
    ensures var td := TemplateAndDirection(objects, cfg, faceDirections);
      td.Success? && (td.value.1 == Zero || HasZeroNormal(td.value.0.faces)) ==> r == Failure(ZeroLengthVector)
    ensures var td := TemplateAndDirection(objects, cfg, faceDirections);
      td.Success? && td.value.1 != Zero && !HasZeroNormal(td.value.0.faces) ==>
        var shape := td.value.0;
        var cs := Candidates(shape.faces, UnitVector(td.value.1, length).value, length);
        (!AnyEligible(cs) ==> r == Failure(NoSuitableFace)) &&
        (AnyEligible(cs) ==>
           Chosen(cs).Some? && IsBest(cs, Chosen(cs).value) &&
           r == Finish(shape, shape.faces[Chosen(cs).value], cfg, text, outlineOf, length))
  {
    var templateObject := ResolveObjectByName(objects, cfg.templateObjectName);
    if templateObject.Failure? {
      return Failure(templateObject.error);
    }
    var templateShape := TemplateShape(templateObject.value);
    if templateShape.Failure? {
      return Failure(templateShape.error);
    }
    var shape := templateShape.value;
    if shape.isNull || shape.solidCount <= 0 {
      return Failure(TemplateHasNoSolid);
    }
    if cfg.faceChoiceLabel !in faceDirections {
      return Failure(UnknownFaceChoice);
    }
    var direction := faceDirections[cfg.faceChoiceLabel];
    var faceIndex := BestFaceForDirection(shape.faces, direction, length);
    if faceIndex.Failure? {
      return Failure(faceIndex.error);
    }
    var face := shape.faces[faceIndex.value];
    ChosenFaceHasFrame(shape.faces, UnitVector(direction, length).value, length, faceIndex.value);
    var frame := FacePlanePlacement(face, length);
    var outline := outlineOf(text, cfg.fontPath, cfg.size);
    if outline.None? {
      return Failure(OutlineGenerationFailed);
    }
    var legendShape := new LegendShape(text, cfg.fontPath, cfg.size, outline.value);
    var legendBox := legendShape.BoundBox();
    var legendCenterX := (legendBox.xMin + legendBox.xMax) * 0.5;
    var legendCenterY := (legendBox.yMin + legendBox.yMax) * 0.5;
    legendShape.Translate(Vec3(-legendCenterX, -legendCenterY, 0.0));
    legendShape.Translate(Vec3(cfg.offsetX, cfg.offsetY, 0.0));
    legendShape.Translate(Vec3(0.0, 0.0, -Overlap));
    assert legendShape.placement == LocalLegendPlacement(outline.value, cfg.offsetX, cfg.offsetY);
    legendShape.SetPlacement(Multiply(frame.value.placement, legendShape.placement));
    var legendSolid := ExtrudeToSolid(legendShape.AsProfile(), cfg.depth);
    if legendSolid.Failure? {
      return Failure(legendSolid.error);
    }
    var blankKey := shape.solid;
    if cfg.mode == "raise" {
      r := Success(Fusion(blankKey, legendSolid.value));
    } else if cfg.mode == "engrave" {
      r := Success(Cut(blankKey, legendSolid.value));
    } else {
      r := Failure(InvalidMode);
    }
  }

  /** The face best_face_for_direction chooses always yields a frame: its normal was
      evaluated and was not zero, so make_face_plane_placement cannot fail on it. */
  lemma ChosenFaceHasFrame(faces: seq<Face>, direction: Vec3, length: Vec3 -> real, i: int)
    requires IsLengthFunction(length)
    requires IsBest(Candidates(faces, direction, length), i)
    ensures FacePlanePlacement(faces[i], length).Success?
  {
    assert CandidateOf(faces[i], direction, length).Some?;
  }

  /** What the pipeline builds on a chosen face with a frame and an outline. A
      non-positive depth fails whatever the mode; otherwise a bad mode fails; in
      either valid mode the legend is extruded by the depth along world +Z, whatever
      the face's normal, from the outline centred on the offset in the face frame
      and sunk by the overlap, in "raise" mode as well as in "engrave" mode. */
  lemma FinishResult(shape: Shape, face: Face, cfg: ExportConfig, text: string, outlineOf: OutlineGenerator,
                     length: Vec3 -> real)
    requires IsLengthFunction(length)
    requires FacePlanePlacement(face, length).Success? && outlineOf(text, cfg.fontPath, cfg.size).Some?
    ensures var r := Finish(shape, face, cfg, text, outlineOf, length);
      (cfg.depth <= 0.0 ==> r == Failure(NonPositiveDepth)) &&
      (cfg.depth > 0.0 && cfg.mode != "raise" && cfg.mode != "engrave" ==> r == Failure(InvalidMode)) &&
      (cfg.depth > 0.0 && (cfg.mode == "raise" || cfg.mode == "engrave") ==>
        r.Success? && (if cfg.mode == "raise" then r.value.Fusion? else r.value.Cut?) &&
        r.value.base == shape.solid && r.value.tool.Extrusion? &&
        r.value.tool.vector == Vec3(0.0, 0.0, cfg.depth) &&
        r.value.tool.profile.placement ==
          Multiply(FacePlanePlacement(face, length).value.placement,
                   LocalLegendPlacement(outlineOf(text, cfg.fontPath, cfg.size).value, cfg.offsetX, cfg.offsetY)))
  {}

  /** The error the pipeline reports when several things are wrong: a missing
      template beats everything, a template without a solid beats an unknown face
      choice, an unknown face choice is reported for a template with a solid, and
      an outline that cannot be made beats a bad depth and a bad mode. */
  lemma ErrorPrecedence(objects: seq<DocObject>, cfg: ExportConfig, faceDirections: map<string, Vec3>,
                        shape: Shape, face: Face, text: string, outlineOf: OutlineGenerator, length: Vec3 -> real)
    requires IsLengthFunction(length)
    ensures ResolveObjectByName(objects, cfg.templateObjectName).Failure? ==>
      TemplateAndDirection(objects, cfg, faceDirections) == Failure(ObjectNotFound)
    ensures (ResolveObjectByName(objects, cfg.templateObjectName).Success? &&
             ResolveObjectByName(objects, cfg.templateObjectName).value.shape == Has(shape) && !HasSolid(shape)) ==>
      TemplateAndDirection(objects, cfg, faceDirections) == Failure(TemplateHasNoSolid)
    ensures (ResolveObjectByName(objects, cfg.templateObjectName).Success? &&
             ResolveObjectByName(objects, cfg.templateObjectName).value.shape == Has(shape) && HasSolid(shape) &&
             cfg.faceChoiceLabel !in faceDirections) ==>
      TemplateAndDirection(objects, cfg, faceDirections) == Failure(UnknownFaceChoice)
    ensures FacePlanePlacement(face, length).Success? && outlineOf(text, cfg.fontPath, cfg.size).None? ==>
      Finish(shape, face, cfg, text, outlineOf, length) == Failure(OutlineGenerationFailed)
  {}
}
