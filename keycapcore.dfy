/** Legend composition in keycap_exporter_core.py: the legends a key carries (primary,
    then shift, AltGr and function when present), each text outline recentred on its
    offset and laid on the chosen face, extruded, fused into one legend solid, and
    either fused onto the blank key ("raise") or cut out of it ("engrave"). */
module KeycapCore {
  import opened Outcomes
  import opened Vectors
  import opened Placements
  import opened Directions
  import opened Geometry
  import opened FaceSelection

  /** The ExportConfiguration record (sizes and offsets in millimetres). */
  datatype ExportConfiguration = ExportConfiguration(
    templateObjectName: string,
    faceChoiceLabel: string,
    fontPath: string,
    outputDirectory: string,
    layoutFilePath: string,
    mode: string,
    enableShiftLegend: bool,
    enableAlternateGraphicLegend: bool,
    enableFunctionLegend: bool,
    primaryFontSize: real,
    primaryOffsetX: real,
    primaryOffsetY: real,
    shiftFontSize: real,
    shiftOffsetX: real,
    shiftOffsetY: real,
    altcrFontSize: real,
    altcrOffsetX: real,
    altcrOffsetY: real,
    functionFontSize: real,
    functionOffsetX: real,
    functionOffsetY: real,
    depth: real,
    linearDeflection: real,
    previewLabel: string)

  /** Python truthiness of an optional legend text: not None and not empty. */
  predicate Present(text: Option<string>) {
    text.Some? && text.value != ""
  }

  datatype RoleKind = Primary | Shift | AltGr | Function

  /** The order in which the legends are built and fused. */
  function Rank(k: RoleKind): nat {
    match k
    case Primary => 0
    case Shift => 1
    case AltGr => 2
    case Function => 3
  }

  /** The legend texts of one key; the primary one is always given. */
  datatype LegendTexts = LegendTexts(primary: string, shift: Option<string>, altcr: Option<string>, fn: Option<string>)

  function TextOf(t: LegendTexts, k: RoleKind): Option<string> {
    match k
    case Primary => Some(t.primary)
    case Shift => t.shift
    case AltGr => t.altcr
    case Function => t.fn
  }

  /** The configured font size and offset of each role. */
  function SizeOf(c: ExportConfiguration, k: RoleKind): real {
    match k
    case Primary => c.primaryFontSize
    case Shift => c.shiftFontSize
    case AltGr => c.altcrFontSize
    case Function => c.functionFontSize
  }

  function OffsetXOf(c: ExportConfiguration, k: RoleKind): real {
    match k
    case Primary => c.primaryOffsetX
    case Shift => c.shiftOffsetX
    case AltGr => c.altcrOffsetX
    case Function => c.functionOffsetX
  }

  function OffsetYOf(c: ExportConfiguration, k: RoleKind): real {
    match k
    case Primary => c.primaryOffsetY
    case Shift => c.shiftOffsetY
    case AltGr => c.altcrOffsetY
    case Function => c.functionOffsetY
  }

  predicate HasSecondary(t: LegendTexts) {
    Present(t.shift) || Present(t.altcr) || Present(t.fn)
  }

  /** One legend to build: its role, text, font size and offset on the face. */
  datatype Legend = Legend(kind: RoleKind, text: string, size: real, offsetX: real, offsetY: real)

  /** A secondary legend with its configured size and offset. */
  function Configured(c: ExportConfiguration, t: LegendTexts, k: RoleKind): Legend
    requires TextOf(t, k).Some?
  {
    Legend(k, TextOf(t, k).value, SizeOf(c, k), OffsetXOf(c, k), OffsetYOf(c, k))
  }

  function IfPresent(c: ExportConfiguration, t: LegendTexts, k: RoleKind): seq<Legend> {
    if Present(TextOf(t, k)) then [Configured(c, t, k)] else []
  }

  /** The primary legend: centred on the face when it is the only legend, at its
      configured offset when any other legend is present. */
  function PrimaryLegend(c: ExportConfiguration, t: LegendTexts): Legend {
    if HasSecondary(t) then Legend(Primary, t.primary, c.primaryFontSize, c.primaryOffsetX, c.primaryOffsetY)
    else Legend(Primary, t.primary, c.primaryFontSize, 0.0, 0.0)
  }

  /** The legends build_keycap_with_legend_shape builds, in order: the primary
      legend, then each present secondary legend in the order shift, AltGr, function,
      with its own size and offset. */
  function LegendRoles(c: ExportConfiguration, t: LegendTexts): (r: seq<Legend>)
    ensures 1 <= |r| <= 4
    ensures r[0].kind == Primary && r[0].text == t.primary && r[0].size == c.primaryFontSize
    ensures HasSecondary(t) ==> r[0].offsetX == c.primaryOffsetX && r[0].offsetY == c.primaryOffsetY
    ensures !HasSecondary(t) ==> r[0].offsetX == 0.0 && r[0].offsetY == 0.0
    ensures |r| == 1 <==> !HasSecondary(t)
  {
    [PrimaryLegend(c, t)] + IfPresent(c, t, Shift) + IfPresent(c, t, AltGr) + IfPresent(c, t, Function)
  }

  /** The legends are built in role order, each role at most once. */
  lemma LegendRolesOrdered(c: ExportConfiguration, t: LegendTexts)
    ensures var r := LegendRoles(c, t);
      forall i, j :: 0 <= i < j < |r| ==> Rank(r[i].kind) < Rank(r[j].kind)
  {}

  /** Every legend after the first is a present secondary text with its configured
      size and offset, and every present secondary text gets a legend. */
  lemma LegendRolesSecondaries(c: ExportConfiguration, t: LegendTexts)
    ensures var r := LegendRoles(c, t);
      forall i :: 0 < i < |r| ==> r[i].kind != Primary && Present(TextOf(t, r[i].kind)) && r[i] == Configured(c, t, r[i].kind)
    ensures var r := LegendRoles(c, t);
      forall k :: k != Primary && Present(TextOf(t, k)) ==> exists i :: 0 < i < |r| && r[i] == Configured(c, t, k)
  {
    var r := LegendRoles(c, t);
    assert r[1..] == IfPresent(c, t, Shift) + IfPresent(c, t, AltGr) + IfPresent(c, t, Function);
    forall k | k != Primary && Present(TextOf(t, k))
      ensures exists i :: 0 < i < |r| && r[i] == Configured(c, t, k)
    {
      assert Configured(c, t, k) in r[1..];
    }
  }

  /** The placement of a text outline after the two translations: its bounding-box
      centre is moved to the origin and then to the offset. */
  function RecenterPlacement(outline: Box, offsetX: real, offsetY: real): Placement {
    var p := Translated(IdentityPlacement, Vec3(-CenterX(outline), -CenterY(outline), 0.0));
    Translated(p, Vec3(offsetX, offsetY, 0.0))
  }

  /** After the two translations the outline is unrotated, its bounding-box centre is
      exactly the offset, and it has not moved along Z. */
  lemma RecenterCentresOnOffset(outline: Box, offsetX: real, offsetY: real)
    ensures var p := RecenterPlacement(outline, offsetX, offsetY);
      p.rotation == Identity &&
      CenterX(Shifted(outline, p.base)) == offsetX && CenterY(Shifted(outline, p.base)) == offsetY &&
      Shifted(outline, p.base).zMin == outline.zMin && Shifted(outline, p.base).zMax == outline.zMax
  {}

  /** legend_solid_for_label, as a value: the outline of the text in the font at the
      size, recentred on the offset, carried onto the face by the face placement and
      extruded along the extrusion vector. Fails when the outline cannot be made. */
  function LegendSolid(facePlacement: Placement, extrusion: Vec3, font: string, outlineOf: OutlineGenerator,
                       text: string, size: real, offsetX: real, offsetY: real): (r: Result<Solid>)
    ensures r.Failure? <==> outlineOf(text, font, size).None?
    ensures r.Failure? ==> r.error == OutlineGenerationFailed
    ensures r.Success? ==>
      r.value.Extrusion? && r.value.vector == extrusion &&
      r.value.profile == Profile(text, font, size,
        Multiply(facePlacement, RecenterPlacement(outlineOf(text, font, size).value, offsetX, offsetY)))
  {
    match outlineOf(text, font, size)
    case None => Failure(OutlineGenerationFailed)
    case Some(outline) =>
      Success(Extrusion(Profile(text, font, size, Multiply(facePlacement, RecenterPlacement(outline, offsetX, offsetY))), extrusion))
  }

  /** legend_solid_for_label: the outline shape is created, translated twice in
      place, given the face placement composed with its own, and extruded. */
  method LegendSolidForLabel(facePlacement: Placement, extrusion: Vec3, font: string, outlineOf: OutlineGenerator,
                             text: string, size: real, offsetX: real, offsetY: real) returns (r: Result<Solid>)
    ensures r == LegendSolid(facePlacement, extrusion, font, outlineOf, text, size, offsetX, offsetY)
  {
    var outline := outlineOf(text, font, size);
    if outline.None? {
      return Failure(OutlineGenerationFailed);
    }
    var legendShape := new LegendShape(text, font, size, outline.value);
    var boundingBox := legendShape.BoundBox();
    var legendCenterX := (boundingBox.xMin + boundingBox.xMax) * 0.5;
    var legendCenterY := (boundingBox.yMin + boundingBox.yMax) * 0.5;
    legendShape.Translate(Vec3(-legendCenterX, -legendCenterY, 0.0));
    legendShape.Translate(Vec3(offsetX, offsetY, 0.0));
    assert legendShape.placement == RecenterPlacement(outline.value, offsetX, offsetY);
    legendShape.SetPlacement(Multiply(facePlacement, legendShape.placement));
    return Success(Extrusion(legendShape.AsProfile(), extrusion));
  }

  /** The legend solids of a list of legends, in order; the first legend whose
      outline fails aborts the list. */
  function LegendSolids(facePlacement: Placement, extrusion: Vec3, font: string, outlineOf: OutlineGenerator,
                        legends: seq<Legend>): (r: Result<seq<Solid>>)
    ensures r.Failure? ==> r.error == OutlineGenerationFailed
    ensures r.Success? ==> |r.value| == |legends|
  {
    if legends == [] then Success([])
    else
      var n := |legends| - 1;
      var init := legends[..n];
      var last := legends[n];
      match LegendSolids(facePlacement, extrusion, font, outlineOf, init)
      case Failure(e) => Failure(e)
      case Success(solids) =>
        match LegendSolid(facePlacement, extrusion, font, outlineOf, last.text, last.size, last.offsetX, last.offsetY)
        case Failure(e) => Failure(e)
        case Success(solid) => Success(solids + [solid])
  }

  /** The list fails exactly when the outline of one of its legends cannot be
      made. */
  lemma {:induction false} LegendSolidsFailure(facePlacement: Placement, extrusion: Vec3, font: string,
                                               outlineOf: OutlineGenerator, legends: seq<Legend>)
    ensures LegendSolids(facePlacement, extrusion, font, outlineOf, legends).Failure? <==>
      exists i :: 0 <= i < |legends| && outlineOf(legends[i].text, font, legends[i].size).None?
  {
    if legends != [] {
      var n := |legends| - 1;
      var init := legends[..n];
      LegendSolidsFailure(facePlacement, extrusion, font, outlineOf, init);
      assert forall i :: 0 <= i < n ==> init[i] == legends[i];
    }
  }

  /** On success, the i-th solid is the solid of the i-th legend. */
  lemma {:induction false} LegendSolidsPointwise(facePlacement: Placement, extrusion: Vec3, font: string,
                                                 outlineOf: OutlineGenerator, legends: seq<Legend>)
    ensures var r := LegendSolids(facePlacement, extrusion, font, outlineOf, legends);
      r.Success? ==>
        forall i :: 0 <= i < |legends| ==>
          Success(r.value[i]) == LegendSolid(facePlacement, extrusion, font, outlineOf,
                                             legends[i].text, legends[i].size, legends[i].offsetX, legends[i].offsetY)
  {
    if legends != [] {
      var n := |legends| - 1;
      var init := legends[..n];
      LegendSolidsPointwise(facePlacement, extrusion, font, outlineOf, init);
      assert forall i :: 0 <= i < n ==> init[i] == legends[i];
    }
  }

  /** The legend solids fused left to right: ((s0 fuse s1) fuse s2) ... */
  function FuseAll(solids: seq<Solid>): Solid
    requires |solids| >= 1
  {
    if |solids| == 1 then solids[0]
    else Fusion(FuseAll(solids[..|solids| - 1]), solids[|solids| - 1])
  }

  /** The operands of a left-nested chain of fusions. */
  function FusedParts(s: Solid): seq<Solid> {
    if s.Fusion? then FusedParts(s.base) + [s.tool] else [s]
  }

  /** Folding with fuse loses nothing and keeps the order: the chain's operands are
      the solids fused, when none of them is itself a fusion. */
  lemma {:induction false} FuseAllParts(solids: seq<Solid>)
    requires |solids| >= 1
    requires forall i :: 0 <= i < |solids| ==> !solids[i].Fusion?
    ensures FusedParts(FuseAll(solids)) == solids
  {
    if |solids| > 1 {
      var init := solids[..|solids| - 1];
      FuseAllParts(init);
      assert init + [solids[|solids| - 1]] == solids;
    }
  }

  /** The mode dispatch: "raise" fuses the legend onto the blank key, "engrave" cuts
      it out, and any other mode is a ValueError. */
  function Combine(mode: string, blankKey: Solid, legend: Solid): (r: Result<Solid>)
    ensures mode == "raise" ==> r == Success(Fusion(blankKey, legend))
    ensures mode == "engrave" ==> r == Success(Cut(blankKey, legend))
    ensures r.Failure? <==> mode != "raise" && mode != "engrave"
    ensures r.Failure? ==> r.error == InvalidMode
  {
    if mode == "raise" then Success(Fusion(blankKey, legend))
    else if mode == "engrave" then Success(Cut(blankKey, legend))
    else Failure(InvalidMode)
  }

  /** What build_keycap_with_legend_shape returns. */
  function KeycapWithLegend(facePlacement: Placement, extrusion: Vec3, c: ExportConfiguration, blankKey: Solid,
                            t: LegendTexts, outlineOf: OutlineGenerator): Result<Solid>
  {
    var legends := LegendRoles(c, t);
    match LegendSolids(facePlacement, extrusion, c.fontPath, outlineOf, legends)
    case Failure(e) => Failure(e)
    case Success(solids) => Combine(c.mode, blankKey, FuseAll(solids))
  }

  /** One `legend_solids.append(legend_solid_for_label(...))` of
      build_keycap_with_legend_shape: the list of legend solids built so far grows by
      the solid of one more legend, or the build fails with its error. */
  method AppendLegendSolid(facePlacement: Placement, extrusion: Vec3, font: string, outlineOf: OutlineGenerator,
                           ghost built: seq<Legend>, solids: seq<Solid>, legend: Legend)
    returns (r: Result<seq<Solid>>)
    requires LegendSolids(facePlacement, extrusion, font, outlineOf, built) == Success(solids)
    ensures r == LegendSolids(facePlacement, extrusion, font, outlineOf, built + [legend])
  {
    var solid := LegendSolidForLabel(facePlacement, extrusion, font, outlineOf,
                                     legend.text, legend.size, legend.offsetX, legend.offsetY);
    AppendLegend(facePlacement, extrusion, font, outlineOf, built, solids, legend);
    if solid.Failure? {
      return Failure(solid.error);
    }
    return Success(solids + [solid.value]);
  }

  /** The first half of build_keycap_with_legend_shape: the legend solids, built
      one after the other into a list; the first outline that fails aborts. */
  method BuildLegendSolids(facePlacement: Placement, extrusion: Vec3, c: ExportConfiguration,
                           t: LegendTexts, outlineOf: OutlineGenerator)
    returns (r: Result<seq<Solid>>)
    ensures r == LegendSolids(facePlacement, extrusion, c.fontPath, outlineOf, LegendRoles(c, t))
  {
    ghost var shiftPart, altcrPart, functionPart := IfPresent(c, t, Shift), IfPresent(c, t, AltGr), IfPresent(c, t, Function);
    var primaryOffsetX, primaryOffsetY;
    if Present(t.shift) || Present(t.altcr) || Present(t.fn) {
      primaryOffsetX, primaryOffsetY := c.primaryOffsetX, c.primaryOffsetY;
    } else {
      primaryOffsetX, primaryOffsetY := 0.0, 0.0;
    }
    var primary := Legend(Primary, t.primary, c.primaryFontSize, primaryOffsetX, primaryOffsetY);
    assert primary == PrimaryLegend(c, t);
    assert [] + [primary] == [primary];
    r := AppendLegendSolid(facePlacement, extrusion, c.fontPath, outlineOf, [], [], primary);
    ghost var built: seq<Legend> := [primary];
    if r.Failure? {
      PrefixFailure(facePlacement, extrusion, c.fontPath, outlineOf, built, shiftPart);
      PrefixFailure(facePlacement, extrusion, c.fontPath, outlineOf, built + shiftPart, altcrPart);
      PrefixFailure(facePlacement, extrusion, c.fontPath, outlineOf, built + shiftPart + altcrPart, functionPart);
      return;
    }
    if Present(t.shift) {
      var legend := Configured(c, t, Shift);
      r := AppendLegendSolid(facePlacement, extrusion, c.fontPath, outlineOf, built, r.value, legend);
    } else {
      assert built + shiftPart == built;
    }
    built := built + shiftPart;
    if r.Failure? {
      PrefixFailure(facePlacement, extrusion, c.fontPath, outlineOf, built, altcrPart);
      PrefixFailure(facePlacement, extrusion, c.fontPath, outlineOf, built + altcrPart, functionPart);
      return;
    }
    if Present(t.altcr) {
      var legend := Configured(c, t, AltGr);
      r := AppendLegendSolid(facePlacement, extrusion, c.fontPath, outlineOf, built, r.value, legend);
    } else {
      assert built + altcrPart == built;
    }
    built := built + altcrPart;
    if r.Failure? {
      PrefixFailure(facePlacement, extrusion, c.fontPath, outlineOf, built, functionPart);
      return;
    }
    if Present(t.fn) {
      var legend := Configured(c, t, Function);
      r := AppendLegendSolid(facePlacement, extrusion, c.fontPath, outlineOf, built, r.value, legend);
    } else {
      assert built + functionPart == built;
    }
  }

  /** build_keycap_with_legend_shape: build the legends into a list, fold the list
      with fuse, then dispatch on the mode. */
  method BuildKeycapWithLegendShape(facePlacement: Placement, extrusion: Vec3, c: ExportConfiguration, blankKey: Solid,
                                    labelText: string, shiftLabel: Option<string>, altcrLabel: Option<string>,
                                    functionLabel: Option<string>, outlineOf: OutlineGenerator)
    returns (r: Result<Solid>)
    ensures r == KeycapWithLegend(facePlacement, extrusion, c, blankKey,
                                  LegendTexts(labelText, shiftLabel, altcrLabel, functionLabel), outlineOf)
  {
    var t := LegendTexts(labelText, shiftLabel, altcrLabel, functionLabel);
    var built := BuildLegendSolids(facePlacement, extrusion, c, t, outlineOf);
    if built.Failure? {
      return Failure(built.error);
    }
    var legendSolids := built.value;
    var legendSolid := legendSolids[0];
    var k := 1;
    while k < |legendSolids|
      invariant 1 <= k <= |legendSolids|
      invariant legendSolid == FuseAll(legendSolids[..k])
    {
      assert legendSolids[..k + 1][..k] == legendSolids[..k];
      legendSolid := Fusion(legendSolid, legendSolids[k]);
      k := k + 1;
    }
    assert legendSolids[..k] == legendSolids;
    if c.mode == "raise" {
      return Success(Fusion(blankKey, legendSolid));
    }
    if c.mode == "engrave" {
      return Success(Cut(blankKey, legendSolid));
    }
    return Failure(InvalidMode);
  }

  /** Building one more legend extends the list of legend solids by its solid, or
      fails with its error. */
  lemma AppendLegend(facePlacement: Placement, extrusion: Vec3, font: string, outlineOf: OutlineGenerator,
                     built: seq<Legend>, solids: seq<Solid>, legend: Legend)
    requires LegendSolids(facePlacement, extrusion, font, outlineOf, built) == Success(solids)
    ensures var s := LegendSolid(facePlacement, extrusion, font, outlineOf, legend.text, legend.size, legend.offsetX, legend.offsetY);
      LegendSolids(facePlacement, extrusion, font, outlineOf, built + [legend]) ==
        (if s.Success? then Success(solids + [s.value]) else Failure(s.error))
  {
    assert (built + [legend])[..|built|] == built;
  }

  /** A failure in a prefix of the legend list is a failure of the whole list. */
  lemma PrefixFailure(facePlacement: Placement, extrusion: Vec3, font: string, outlineOf: OutlineGenerator,
                      prefix: seq<Legend>, rest: seq<Legend>)
    requires LegendSolids(facePlacement, extrusion, font, outlineOf, prefix).Failure?
    ensures LegendSolids(facePlacement, extrusion, font, outlineOf, prefix + rest) == Failure(OutlineGenerationFailed)
  {
    LegendSolidsFailure(facePlacement, extrusion, font, outlineOf, prefix);
    LegendSolidsFailure(facePlacement, extrusion, font, outlineOf, prefix + rest);
    var i :| 0 <= i < |prefix| && outlineOf(prefix[i].text, font, prefix[i].size).None?;
    assert (prefix + rest)[i] == prefix[i];
  }

  /** What the function promises about its result. A legend outline that cannot be
      made fails the build whatever the mode; otherwise a bad mode is reported only
      after all legends were built, and in the two valid modes the blank key is fused
      with, or cut by, the fusion of exactly the legend solids, in order. */
  lemma KeycapWithLegendResult(facePlacement: Placement, extrusion: Vec3, c: ExportConfiguration, blankKey: Solid,
                               t: LegendTexts, outlineOf: OutlineGenerator)
    ensures var legends := LegendRoles(c, t);
      var built := LegendSolids(facePlacement, extrusion, c.fontPath, outlineOf, legends);
      var r := KeycapWithLegend(facePlacement, extrusion, c, blankKey, t, outlineOf);
      (built.Failure? ==> r == Failure(OutlineGenerationFailed)) &&
      (built.Success? && c.mode != "raise" && c.mode != "engrave" ==> r == Failure(InvalidMode)) &&
      (built.Success? && c.mode == "raise" ==> r.Success? && r.value.Fusion? && r.value.base == blankKey && FusedParts(r.value.tool) == built.value) &&
      (built.Success? && c.mode == "engrave" ==> r.Success? && r.value.Cut? && r.value.base == blankKey && FusedParts(r.value.tool) == built.value)
  {
    var legends := LegendRoles(c, t);
    var built := LegendSolids(facePlacement, extrusion, c.fontPath, outlineOf, legends);
    if built.Success? {
      LegendSolidsPointwise(facePlacement, extrusion, c.fontPath, outlineOf, legends);
      forall i | 0 <= i < |built.value|
        ensures !built.value[i].Fusion?
      {
        assert Success(built.value[i]) == LegendSolid(facePlacement, extrusion, c.fontPath, outlineOf,
                                                      legends[i].text, legends[i].size, legends[i].offsetX, legends[i].offsetY);
      }
      FuseAllParts(built.value);
    }
  }

  /** The extrusion vector of build_keycap_shape_from_configuration: the depth times
      the normalised table direction, into the face when engraving and out of it
      otherwise. The table directions are unit vectors, so normalising them changes
      nothing, and the vector is depth times the table entry. */
  function ExtrusionVector(mode: string, c: FaceChoice, depth: real, length: Vec3 -> real): (r: Vec3)
    requires IsLengthFunction(length)
    ensures mode == "engrave" ==> r == Scale(depth, EngravingDirection(c))
    ensures mode != "engrave" ==> r == Scale(depth, FaceDirection(c))
  {
    var direction := if mode == "engrave" then EngravingDirection(c) else FaceDirection(c);
    assert UnitVector(direction, length) == Success(direction) by {
      DirectionsAreUnit(c);
      UnitVectorOfUnit(direction, length);
    }
    Scale(depth, UnitVector(direction, length).value)
  }

  /** Engraving extrudes by the depth into the face, raising out of it: the two
      vectors are opposite. */
  lemma ExtrusionOpposite(c: FaceChoice, depth: real, length: Vec3 -> real)
    requires IsLengthFunction(length)
    ensures ExtrusionVector("engrave", c, depth, length) == Neg(ExtrusionVector("raise", c, depth, length))
  {
    EngravingOpposesFace(c);
    ScaleNeg(depth, FaceDirection(c));
  }

  lemma ScaleNeg(k: real, v: Vec3)
    ensures Scale(k, Neg(v)) == Neg(Scale(k, v))
  {}

  /** build_keycap_shape_from_configuration: look the face up in the tables (KeyError
      for an unknown key), find the face centre with the older scan, place the frame
      of the table rotation there, and build. */
  method BuildKeycapShapeFromConfiguration(template: Shape, c: ExportConfiguration, labelText: string,
                                           shiftLabel: Option<string>, altcrLabel: Option<string>,
                                           functionLabel: Option<string>, outlineOf: OutlineGenerator,
                                           length: Vec3 -> real)
    returns (r: Result<Solid>)
    requires IsLengthFunction(length)
    ensures FaceOf(c.faceChoiceLabel).None? ==> r == Failure(UnknownFaceKey)
    ensures FaceOf(c.faceChoiceLabel).Some? && FirstBadNormal(template.faces).Some? ==>
      r == Failure(NormalError(template.faces[FirstBadNormal(template.faces).value]))
    ensures FaceOf(c.faceChoiceLabel).Some? && FirstBadNormal(template.faces).None? ==>
      var face := FaceOf(c.faceChoiceLabel).value;
      var center := ScannedCenter(template.faces, FaceDirection(face), length);
      IsBestCenter(template.faces, FaceDirection(face), length, center) &&
        r == KeycapWithLegend(Placement(center, FaceRotation(face)), ExtrusionVector(c.mode, face, c.depth, length),
                              c, template.solid, LegendTexts(labelText, shiftLabel, altcrLabel, functionLabel), outlineOf)
  {
    var face := FaceOf(c.faceChoiceLabel);
    if face.None? {
      return Failure(UnknownFaceKey);
    }
    var direction := FaceDirection(face.value);
    var center := BestCenterForDirection(template.faces, direction, length);
    if center.Failure? {
      return Failure(center.error);
    }
    var facePlacement := Placement(center.value, FaceRotation(face.value));
    var extrusionVector := ExtrusionVector(c.mode, face.value, c.depth, length);
    r := BuildKeycapWithLegendShape(facePlacement, extrusionVector, c, template.solid,
                                    labelText, shiftLabel, altcrLabel, functionLabel, outlineOf);
  }

  /** The frame the keycap core lays on a face is a proper rotation whose local Z is
      the face direction, so a legend's local X/Y plane lies flat on the face. */
  lemma FacePlacementIsProper(center: Vec3, face: FaceChoice)
    ensures RightHanded(Placement(center, FaceRotation(face)).rotation)
    ensures Rotate(Placement(center, FaceRotation(face)).rotation, ZAxis) == FaceDirection(face)
    ensures Apply(Placement(center, FaceRotation(face)), Zero) == center
  {
    RotationsMatchFaces(face);
    RotateAxes(FaceRotation(face));
    assert Rotate(FaceRotation(face), Zero) == Zero;
  }
}
