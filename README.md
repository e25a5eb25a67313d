# Keycap legend exporter: a verified model

This project models the logic of a FreeCAD macro set that engraves or raises text
legends on a blank keyboard keycap and exports one STL file per key of a layout. It
models two pipelines:

- the single-module exporter: `keycap_exporter_core.py`, driven by `keycap_exporter_run.py`;
- the batch tool package `batch_keycaps_export_stl_ui`.

The model covers these parts:

- **Face tables** (`Directions`). The six face choices ("Top (+Z)", "Bottom (-Z)", …) have a face direction, an engraving direction and a fixed face rotation each.
- **Face selection** (`FaceSelection`). Both variants run the same argmax scan over the faces of the template solid. The score is the dot product of the unit normal with the direction. Scores within 1e-6 of each other are broken by the centroid's support along the direction. A face scoring below the best so far is rejected outright.
- **The face frame** (`FaceFrame`). The up vector is +Z, or +Y when the normal is within 0.95 of Z. The frame is then built from two cross products.
- **Vector and placement algebra** (`Vectors`, `Placements`). This is the algebra FreeCAD's `App.Vector`, `App.Rotation` and `App.Placement` supply: unit_vector, dot and cross products, placement multiplication and translation.
- **Legend composition** (`KeycapCore`, `BatchCore`):
  - which legend roles (primary, shift, AltGr, function) are built, and in what order;
  - when the primary offset is zeroed;
  - the recentering translations;
  - the extrusion vector;
  - the fuse fold;
  - the raise/engrave/error dispatch, and the order in which validations fail.
- **Layout reading** (`Layout`). This is `csv.DictReader` rows seen as maps from column to cell text: stripping, skipping blank primaries, and the name fallback.
- **Helpers**:
  - font file discovery with case-insensitive sorting and de-duplication (`Fonts`);
  - object listing, display names and lookup by name (`Objects`);
  - the single preview object of a document, a `class` whose object table the methods update in place (`Preview`).
- **The run macro** (`Run`). This is the chain of precondition checks, then one STL export per primary label, stopping at the first error.

The geometry engine is abstract:

- Shapes, solids and meshes are symbolic terms (`Geometry`).
- Draft's text outline generator is a function parameter that may fail.
- The Euclidean length (a square root) is a parameter `length` with `IsLengthFunction(length)`: it is non-negative and its square is the squared norm.
- The file system is an input: which paths are files, the rows of the layout file, and what `os.walk` yields for each font root.

Three behaviours of the code are easy to miss, and the model keeps each of them as written:

- **The 0.05 overlap.** The batch pipeline sinks the legend outline 0.05 mm below the face plane before extruding it, in raise mode and in engrave mode alike (src/batch_keycaps_export_stl_ui/core.py:34-35). `keycap_exporter_core.py` applies no such sink.
- **The batch extrusion direction.** The batch extrusion runs along world +Z whatever face was chosen (src/batch_keycaps_export_stl_ui/geometry_utils.py:33).
- **The single-module face selection.** It does not normalise the direction. It does not catch `normalAt` failures. When no face is accepted it returns the direction vector itself, not an error (src/keycap_exporter_core.py:191, 213). `FaceSelection.BestCenterForDirection` states exactly that.

## Model

| member | source | states |
|---|---|---|
| Directions.FaceDirectionTable | src/keycap_exporter_core.py:18-25 | the direction table has an entry under each of the six face labels, and it holds that face's outward axis |
| Directions.LabelsIdentifyFaces | src/keycap_exporter_core.py:18-33 | the six labels are distinct: a key names a face exactly when it is that face's label, so both tables have the same keys |
| Directions.EngravingOpposesFace | src/keycap_exporter_core.py:18-33 | for every face, the engraving direction is the negation of the face direction |
| Directions.DirectionsAreUnit | src/keycap_exporter_core.py:18-33 | every face direction and every engraving direction is a unit vector |
| Directions.RotationsMatchFaces | src/keycap_exporter_core.py:34-77 | every face rotation is right-handed orthonormal, and its local Z column is the face's direction |
| Directions.RotationColumnsOrthogonal | src/keycap_exporter_core.py:34-77 | the columns of every face rotation are pairwise orthogonal, and X cross Y is Z |
| Directions.RotationColumnsUnit | src/keycap_exporter_core.py:34-77 | the columns of every face rotation are unit vectors |
| Vectors.UnitVector | src/batch_keycaps_export_stl_ui/face_utils.py:6-9 | fails with the zero-length error exactly for the zero vector; otherwise the result has length one; the same holds for src/keycap_exporter_core.py:183-186 |
| Vectors.UnitVectorScales | src/batch_keycaps_export_stl_ui/face_utils.py:6-9 | the unit vector of a non-zero v is v divided by its (positive) length |
| Vectors.UnitVectorDirection | src/batch_keycaps_export_stl_ui/face_utils.py:6-9 | the unit vector is parallel to v (cross product zero) and points the same way (its dot with v is v's length) |
| Vectors.UnitVectorOfUnit | src/batch_keycaps_export_stl_ui/face_utils.py:6-9 | normalising a vector that already has unit length returns it unchanged |
| Vectors.UnitDotBounds | src/batch_keycaps_export_stl_ui/face_utils.py:31-32 | the score of a unit normal against a unit direction lies between -1 and 1 |
| Placements.Translated | src/batch_keycaps_export_stl_ui/core.py:31-35 | translating a placement by v moves the image of every point by v |
| Placements.MultiplyApply | src/batch_keycaps_export_stl_ui/core.py:36 | the product of two placements maps a point as applying the right one and then the left one does |
| Placements.RotateCompose | src/batch_keycaps_export_stl_ui/core.py:36 | composing two rotations rotates by the right one and then by the left one |
| Placements.RotateAxes | src/keycap_exporter_core.py:361-364 | a rotation built from three columns sends the X, Y and Z axes to those columns, and the origin to itself |
| Placements.MultiplyIdentity | src/keycap_exporter_core.py:290 | multiplying a placement by the identity placement leaves it unchanged |
| Geometry.Shifted | src/keycap_exporter_core.py:284-289 | moving a shape by v moves its bounding-box centre by v's x and y, and its z extent by v's z |
| Geometry.ShapeToMesh | src/keycap_exporter_core.py:237-243 | a non-positive linear deflection is a ValueError; otherwise the mesh is the solid's tessellation at that deflection; the same holds for src/batch_keycaps_export_stl_ui/geometry_utils.py:36-42 |
| Geometry.LegendShape.constructor | src/keycap_exporter_core.py:215-223 | the outline of a text starts with the identity placement, carrying its text, font, size and bounding box |
| Geometry.LegendShape.Translate | src/batch_keycaps_export_stl_ui/core.py:31-35 | translating the outline moves its placement by the vector and changes nothing else |
| Geometry.LegendShape.SetPlacement | src/batch_keycaps_export_stl_ui/core.py:36 | assigning the placement replaces it |
| FaceFrame.FacePlanePlacement | src/batch_keycaps_export_stl_ui/face_utils.py:51-76 | fails only when normalAt fails (NormalEvaluationFailed) or the normal is zero (ZeroLengthVector); otherwise the frame's origin is the face centroid, its normal is the unit normal, the rotation's Z column is that normal, and the rotation is right-handed orthonormal |
| FaceFrame.UpCrossNonZero | src/batch_keycaps_export_stl_ui/face_utils.py:67-71 | for every unit normal, up cross normal is non-zero, so the unit_vector call for the first axis cannot raise |
| FaceFrame.UpIsUnit | src/batch_keycaps_export_stl_ui/face_utils.py:67-69 | the up vector (Z, or Y as the fallback) is a unit vector |
| FaceFrame.UpDotBelowOne | src/batch_keycaps_export_stl_ui/face_utils.py:67-69 | for a unit normal, the chosen up vector is never parallel to it: the square of their dot product is below one |
| FaceFrame.UpIsZ | src/batch_keycaps_export_stl_ui/face_utils.py:67-68 | when the normal is within 0.95 of Z, Z is not parallel to it |
| FaceFrame.UpIsY | src/batch_keycaps_export_stl_ui/face_utils.py:68-69 | when a unit normal is steeper than 0.95 against Z, Y is not parallel to it |
| FaceFrame.UnitCrossNorm | src/batch_keycaps_export_stl_ui/face_utils.py:71 | the squared norm of the cross product of two unit vectors is one minus their squared dot product |
| FaceFrame.FirstAxisOrthogonal | src/batch_keycaps_export_stl_ui/face_utils.py:71 | the first frame axis is orthogonal to the normal |
| FaceFrame.SecondAxisUnit | src/batch_keycaps_export_stl_ui/face_utils.py:72 | normal cross X is a non-zero unit vector, so the unit_vector call for the second axis cannot raise |
| FaceFrame.FrameIsRightHanded | src/batch_keycaps_export_stl_ui/face_utils.py:71-74 | the axes (x, y, n) passed to App.Rotation are orthonormal and right-handed: x cross y is n |
| FaceSelection.Step | src/batch_keycaps_export_stl_ui/face_utils.py:33-44 | one iteration never lowers the best score; when it changes the state, the face is accepted and becomes the best, with its score and support |
| FaceSelection.ScanStarts | src/batch_keycaps_export_stl_ui/face_utils.py:19-21 | the initial state (no face, score -1, support -1e100) satisfies the scan invariant over no faces |
| FaceSelection.StepKeeps | src/batch_keycaps_export_stl_ui/face_utils.py:33-44 | one iteration of the scan keeps the invariant: the best face beats every face seen, within the tolerance, and no face seen since it would replace it |
| FaceSelection.ScanEnds | src/batch_keycaps_export_stl_ui/face_utils.py:46-48 | after all faces, no face is held exactly when no face is eligible; a face held is the best one |
| FaceSelection.Scan | src/batch_keycaps_export_stl_ui/face_utils.py:19-44 | the state after the first n faces is the fold of one iteration over them from the initial state; a face it holds is one of those n |
| FaceSelection.Chosen | src/batch_keycaps_export_stl_ui/face_utils.py:19-46 | the face the scan holds after every face, an index into the faces |
| FaceSelection.ScanIsScanned | src/batch_keycaps_export_stl_ui/face_utils.py:23-44 | the fold satisfies the scan invariant after every prefix of the faces |
| FaceSelection.ChosenIsBest | src/batch_keycaps_export_stl_ui/face_utils.py:46-48 | the scan chooses no face exactly when no face is eligible, and the face it chooses is a best match; among several best matches the choice is the one the scan order settles on |
| FaceSelection.Candidates | src/batch_keycaps_export_stl_ui/face_utils.py:23-37 | one candidate per face, in order: none when normalAt fails, otherwise the score and support of the face |
| FaceSelection.BestFaceForDirection | src/batch_keycaps_export_stl_ui/face_utils.py:12-48 | fails with ZeroLengthVector exactly when the direction or some evaluable normal is zero; otherwise it returns the face the scan chooses (the first of two candidates tying within 1e-6 unless the later one has a larger support), which is a best match, and fails with the RuntimeError case exactly when it chooses none, that is when no face is eligible |
| FaceSelection.UnitCandidateEligible | src/batch_keycaps_export_stl_ui/face_utils.py:19-21 | a face with a unit normal and a support above -1e100 is accepted from the initial state, so any such face makes the scan succeed |
| FaceSelection.FirstBadNormal | src/keycap_exporter_core.py:195-200 | finds the first face whose normal evaluation fails or whose normal is zero, if any |
| FaceSelection.BestCenterForDirection | src/keycap_exporter_core.py:189-213 | the first face whose normalAt fails or whose normal is zero makes the call fail with that error; otherwise the result is the centroid of the face the scan chooses, or the direction itself when it chooses none |
| FaceSelection.ScannedCenterIsBest | src/keycap_exporter_core.py:191-213 | the centre the scan returns is the direction itself when no face is eligible, and otherwise the centroid of a best match |
| Fonts.VariableFontIgnoresCase | src/batch_keycaps_export_stl_ui/font_utils.py:6-8 | the variable-font test classifies a path and its lower-cased form alike |
| Fonts.VariableFontLooksAtFileName | src/batch_keycaps_export_stl_ui/font_utils.py:6-8 | the variable-font test on a file found in a directory depends only on the file's own name |
| Fonts.FontDisplayName | src/batch_keycaps_export_stl_ui/font_utils.py:29-30 | the display name is the whole slash-free tail of the path after its last slash: a slash-free suffix preceded by a slash unless it is the whole path |
| Fonts.DisplayNameOfFoundFont | src/keycap_exporter_core.py:133-134 | the display name of a path found by the walk is the file name it was found under |
| Fonts.CollectedNamesMembers | src/batch_keycaps_export_stl_ui/font_utils.py:17-24 | a path is appended for a directory exactly when it is the join of the directory with one of its names that passes both filters |
| Fonts.CollectedWalkMembers | src/batch_keycaps_export_stl_ui/font_utils.py:16-24 | a path is collected from a walk exactly when some walked directory contributes it |
| Fonts.CollectedMembers | src/batch_keycaps_export_stl_ui/font_utils.py:13-24 | a path is collected exactly when some root that is a directory contributes it through its walk; roots that are not directories contribute nothing |
| Fonts.InsertByLower | src/batch_keycaps_export_stl_ui/font_utils.py:26 | inserting into a list sorted by lower-cased path keeps it sorted and adds exactly that path |
| Fonts.SortByLower | src/batch_keycaps_export_stl_ui/font_utils.py:26 | `sorted(set(paths), key=lower)`: the result is sorted by lower-cased path, has no duplicates, and holds exactly the input's paths |
| Fonts.InsertKeepsDistinct | src/batch_keycaps_export_stl_ui/font_utils.py:26 | inserting a new path into a duplicate-free sorted list keeps it duplicate-free |
| Fonts.ScanDirectory | src/batch_keycaps_export_stl_ui/font_utils.py:17-24 | the inner loop appends, in order, the joined path of each name that ends in .ttf or .otf (in any case) and is not a variable font unless those are included |
| Fonts.ScanWalk | src/batch_keycaps_export_stl_ui/font_utils.py:16-24 | the walk loop concatenates the kept paths of every walked directory, in walk order |
| Fonts.ScanFontFiles | src/batch_keycaps_export_stl_ui/font_utils.py:11-26 | the result is the de-duplicated, case-insensitively sorted list of the paths the roots contribute; the same holds for src/keycap_exporter_core.py:115-130 |
| Fonts.ScanResult | src/batch_keycaps_export_stl_ui/font_utils.py:11-26 | the scan's result is sorted by lower-cased path and free of duplicates, and it holds a path exactly when some directory root's walk finds it under a name passing both filters |
| Text.StripStart | src/keycap_exporter_run.py:16 | removes a leading run of whitespace (Python's isspace set) and leaves a string that does not start with whitespace |
| Text.StripEnd | src/keycap_exporter_run.py:16 | removes a trailing run of whitespace and leaves a string that does not end with whitespace |
| Text.Strip | src/keycap_exporter_run.py:16 | str.strip: the result neither starts nor ends with whitespace |
| Text.StripCutsOnlyWhitespace | src/keycap_exporter_run.py:16 | the stripped string is a contiguous part of the input, and only whitespace lies on either side of it |
| Text.StripIdempotent | src/keycap_exporter_core.py:142-146 | stripping a stripped cell changes nothing |
| Text.StripEmptyIffBlank | src/keycap_exporter_core.py:147 | a cell strips to the empty string exactly when it is all whitespace |
| Text.Lower | src/batch_keycaps_export_stl_ui/font_utils.py:18 | keeps the length and lowers every character at its place |
| Text.LowerIdempotent | src/batch_keycaps_export_stl_ui/font_utils.py:26 | lowering twice is lowering once |
| Text.Basename | src/batch_keycaps_export_stl_ui/font_utils.py:7 | os.path.basename: the result is the slash-free tail of the path that follows its last slash |
| Text.BasenameLower | src/batch_keycaps_export_stl_ui/font_utils.py:7 | taking the base name and lowering commute |
| Text.JoinParts | src/batch_keycaps_export_stl_ui/font_utils.py:21 | os.path.join: an absolute second part replaces the first; otherwise the result starts with the directory and ends with the second part |
| Text.JoinBasename | src/keycap_exporter_run.py:57 | the base name of a directory joined with a slash-free name is that name |
| Text.LexTotal | src/batch_keycaps_export_stl_ui/font_utils.py:26 | Python's string order is total |
| Text.LexTransitive | src/batch_keycaps_export_stl_ui/font_utils.py:26 | Python's string order is transitive |
| Text.LexAntisymmetric | src/batch_keycaps_export_stl_ui/font_utils.py:26 | two strings, each at most the other, are equal |
| Layout.Field | src/keycap_exporter_core.py:142-146 | `(row.get(column) or "").strip()`: a missing column reads as "", a present one as its stripped text, and the result is always stripped |
| Layout.EntryOf | src/keycap_exporter_core.py:142-148 | an entry holds the five stripped fields, and its name falls back to the primary legend when the name cell is blank |
| Layout.ReadLayoutEntries | src/keycap_exporter_core.py:137-149 | the loop of read_layout_entries computes the entries of the rows |
| Layout.LayoutEntriesAppend | src/keycap_exporter_core.py:141-148 | reading two consecutive runs of rows is reading them together, so file order is kept |
| Layout.LayoutEntriesAreFilteredRows | src/keycap_exporter_core.py:147-148 | the entries are the rows with a non-blank primary cell, in file order, each read as an entry |
| Layout.LayoutEntriesMembers | src/keycap_exporter_core.py:147-148 | every entry has a non-empty stripped primary and a non-empty name and comes from a row of the file; every row with a primary gives its entry |
| Layout.ReadPrimaryLabels | src/keycap_exporter_run.py:11-19 | the loop of read_primary_labels computes the primary labels of the rows |
| Layout.LabelsAreEntryPrimaries | src/keycap_exporter_run.py:15-18 | the two readers agree: there is one label per entry, and each label is that entry's primary legend |
| Layout.LabelsAreStrippedAndNonEmpty | src/keycap_exporter_run.py:16-18 | every label is stripped and non-empty; every row with a primary gives its label; a row whose primary cell is missing or all whitespace gives none |
| Objects.SolidListing | src/batch_keycaps_export_stl_ui/object_utils.py:6-20 | the listing fails exactly when reading some object's Shape raises; otherwise it is the objects with a non-null shape holding a solid, in document order |
| Objects.ListSolidObjects | src/batch_keycaps_export_stl_ui/object_utils.py:6-20 | list_solid_objects as written computes the listing, including its failure case |
| Objects.RaisingShapeIsFatal | src/batch_keycaps_export_stl_ui/object_utils.py:9-14 | a document whose second object has a Shape getter that raises makes the whole listing fail, although its first object is a solid |
| Objects.ListSolidObjectsSkipping | src/batch_keycaps_export_stl_ui/object_utils.py:6-20 | the intended listing never fails: it is exactly the objects with a non-null shape holding a solid, in order |
| Objects.SolidObjectsCharacterised | src/batch_keycaps_export_stl_ui/object_utils.py:15-19 | an object is listed exactly when it is in the document and has a solid shape; listing two runs of objects is concatenating their listings |
| Objects.ListSolidObjectsExceptPreview | src/keycap_exporter_core.py:152-165 | fails exactly when reading the Shape of some non-preview object raises; otherwise it is the non-preview objects with a non-null shape holding a solid, in order |
| Objects.ObjectDisplayName | src/batch_keycaps_export_stl_ui/object_utils.py:23-28 | "Label (Name)" when both are non-empty and differ; otherwise the label, else the name, else "UnnamedObject"; never empty; the same holds for src/keycap_exporter_core.py:168-173 |
| Objects.DisplayNameShowsBoth | src/batch_keycaps_export_stl_ui/object_utils.py:26-28 | the display name starts with the label and contains the name, whichever of them is non-empty |
| Objects.FindByName | src/batch_keycaps_export_stl_ui/object_utils.py:32 | `doc.getObject`: the first object with that name, or none exactly when no object has it |
| Objects.ResolveObjectByName | src/batch_keycaps_export_stl_ui/object_utils.py:31-35 | fails with ObjectNotFound exactly when no object has the name; otherwise it returns an object of the document with that name; the same holds for src/keycap_exporter_core.py:176-180 |
| Preview.Document.RemoveExistingPreview | src/batch_keycaps_export_stl_ui/preview_utils.py:4-8 | the new object table is the old one without the preview object, and the names stay unique; the same holds for src/keycap_exporter_core.py:250-254 |
| Preview.Document.SetPreviewShape | src/batch_keycaps_export_stl_ui/preview_utils.py:11-17 | the new object table is the old one with the preview object's shape set, or with a new preview object added, and the names stay unique; the same holds for src/keycap_exporter_core.py:257-263 |
| Preview.RemovingKeepsUnique | src/batch_keycaps_export_stl_ui/preview_utils.py:7 | removing one object keeps the names of the others unique |
| Preview.SetAddsPreview | src/batch_keycaps_export_stl_ui/preview_utils.py:12-15 | without a preview, exactly one object is appended, named and labelled "__KEYCAP_PREVIEW__", and it holds the shape |
| Preview.SetReusesPreview | src/batch_keycaps_export_stl_ui/preview_utils.py:12-16 | with a preview, the object count is unchanged, only the preview's shape changes, and every other object is unchanged |
| Preview.SetInstallsShape | src/batch_keycaps_export_stl_ui/preview_utils.py:16 | after the call the names are unique and the preview object found by name holds the given shape |
| Preview.SetLeavesOthers | src/batch_keycaps_export_stl_ui/preview_utils.py:11-17 | setting the preview leaves the other objects and their order unchanged |
| Preview.RemoveLeavesOthers | src/batch_keycaps_export_stl_ui/preview_utils.py:4-8 | removing the preview leaves the other objects and their order unchanged |
| Preview.RemoveIdempotent | src/batch_keycaps_export_stl_ui/preview_utils.py:4-8 | after removal no preview is left, so removing again changes nothing |
| Preview.SetThenRemoveRestores | src/batch_keycaps_export_stl_ui/preview_utils.py:4-17 | on a document without a preview, setting and then removing it restores the original object table |
| KeycapCore.LegendRoles | src/keycap_exporter_core.py:293-336 | one to four legends, the primary first, with its text and size; its offset is the configured primary offset when any secondary label is present and (0, 0) otherwise; a single legend exactly when no secondary label is present |
| KeycapCore.LegendRolesOrdered | src/keycap_exporter_core.py:301-336 | the legends come in role order: primary, then shift, then AltGr, then function |
| KeycapCore.LegendRolesSecondaries | src/keycap_exporter_core.py:310-336 | every legend after the first is a present secondary label with its role's size and offsets, and every present secondary label has its legend |
| KeycapCore.RecenterCentresOnOffset | src/keycap_exporter_core.py:284-289 | after the two translations, the outline is unrotated, its bounding-box centre is the role's offset, and its z extent is unchanged |
| KeycapCore.LegendSolid | src/keycap_exporter_core.py:277-291 | fails exactly when the outline cannot be made; otherwise it is the extrusion, along the given vector, of the outline recentred on the offset and laid on the face |
| KeycapCore.LegendSolidForLabel | src/keycap_exporter_core.py:277-291 | the method computes that legend solid |
| KeycapCore.LegendSolids | src/keycap_exporter_core.py:301-336 | one solid per legend, or the outline error |
| KeycapCore.LegendSolidsFailure | src/keycap_exporter_core.py:301-336 | building the legends fails exactly when some legend's outline cannot be made |
| KeycapCore.LegendSolidsPointwise | src/keycap_exporter_core.py:301-336 | each built solid is the legend solid of the legend at the same position |
| KeycapCore.AppendLegend | src/keycap_exporter_core.py:301-336 | appending one legend appends its solid or fails with its error |
| KeycapCore.AppendLegendSolid | src/keycap_exporter_core.py:301-336 | one `legend_solids.append(legend_solid_for_label(...))` extends the built solids by one legend |
| KeycapCore.PrefixFailure | src/keycap_exporter_core.py:301-336 | once a legend fails, building every longer list of legends fails with the outline error |
| KeycapCore.BuildLegendSolids | src/keycap_exporter_core.py:293-336 | the appends build the solids of the roles, in role order |
| KeycapCore.FuseAllParts | src/keycap_exporter_core.py:338-340 | the left fold with fuse keeps every legend solid, in order |
| KeycapCore.Combine | src/keycap_exporter_core.py:342-347 | "raise" fuses the legend onto the blank key, "engrave" cuts it out, and any other mode is a ValueError |
| KeycapCore.BuildKeycapWithLegendShape | src/keycap_exporter_core.py:266-347 | build_keycap_with_legend_shape computes the keycap with the legends of the given labels |
| KeycapCore.KeycapWithLegendResult | src/keycap_exporter_core.py:266-347 | an outline failure beats a bad mode, because the mode is looked at only after all legends are built; "raise" fuses and "engrave" cuts the fused legends, on the blank key |
| KeycapCore.ExtrusionVector | src/keycap_exporter_core.py:366-370 | depth times the engraving direction in "engrave" mode, and depth times the face direction otherwise |
| KeycapCore.ExtrusionOpposite | src/keycap_exporter_core.py:366-370 | the engrave extrusion is the exact opposite of the raise extrusion |
| KeycapCore.BuildKeycapShapeFromConfiguration | src/keycap_exporter_core.py:350-382 | an unknown face label is a KeyError; then the first bad normal fails; otherwise the keycap is built at the centre the scan chooses (a best centre), with the face's fixed rotation and the mode's extrusion vector |
| KeycapCore.FacePlacementIsProper | src/keycap_exporter_core.py:361-364 | the face placement is right-handed, takes local Z to the face direction, and takes the local origin to the chosen centre |
| BatchCore.TemplateShape | src/batch_keycaps_export_stl_ui/core.py:12 | `template_obj.Shape.copy()`: the object's shape, ShapeAccessFailed when reading it raises, and ShapeUnavailable when the object has no usable Shape |
| BatchCore.ExtrudeToSolid | src/batch_keycaps_export_stl_ui/geometry_utils.py:20-33 | a non-positive height is a ValueError; otherwise the outline is extruded by the height along world +Z |
| BatchCore.LegendSunkBelowFace | src/batch_keycaps_export_stl_ui/core.py:27-35 | after the three translations the outline is unrotated, centred on the offset, and sunk 0.05 below the local plane, whatever the mode |
| BatchCore.TemplateAndDirection | src/batch_keycaps_export_stl_ui/core.py:11-20 | a missing template is ObjectNotFound; a shape that cannot be read passes its error on; a template without a solid is TemplateHasNoSolid; then the face label is UnknownFaceChoice exactly when it is not in the table; a success is the template's shape, which has a solid, and the label's direction |
| BatchCore.BuildKeycapWithLegendShape | src/batch_keycaps_export_stl_ui/core.py:10-49 | the template, shape, solid and face-label checks come first, with their errors (UnknownFaceChoice included) passed on; a zero direction or a zero normal is the zero-length error; no eligible face is the RuntimeError case; otherwise the result is what the pipeline builds on the face the scan chooses, which is a best match |
| BatchCore.ChosenFaceHasFrame | src/batch_keycaps_export_stl_ui/core.py:22-23 | the face that selection returns always has a frame, so make_face_plane_placement cannot fail on it |
| BatchCore.FinishResult | src/batch_keycaps_export_stl_ui/core.py:36-47 | a bad depth beats a bad mode; in either valid mode, the legend is extruded by the depth along world +Z from the recentred, sunk outline laid on the face frame, then fused or cut against the template's solid |
| BatchCore.ErrorPrecedence | src/batch_keycaps_export_stl_ui/core.py:10-25 | a missing template beats everything; a template without a solid beats an unknown face label; an unknown label on a template with a solid is UnknownFaceChoice; an outline failure beats a bad depth and a bad mode |
| Run.ExportOf | src/keycap_exporter_run.py:55-58 | one label's export succeeds exactly when its build succeeds and the deflection is positive; it writes the label's mesh to `join(output, label + ".stl")` |
| Run.ExportAllStopsAtFirstError | src/keycap_exporter_run.py:54-59 | the loop writes one file per label, in label order, up to the first label that fails, and stops with that label's error; it ends without an error only when every label was written |
| Run.RunWith | src/keycap_exporter_run.py:22-61 | the checks in the source's order, each reached only when the earlier pass: no document is a RuntimeError, a cancelled dialog a plain cancel, a missing font file FileNotFoundError, an empty output directory ValueError (nothing created), a missing layout file FileNotFoundError and no labels ValueError (both after the directory is created); otherwise the files of the export loop, ending Done or with the loop's error; a finished run wrote one file per label |
| Run.GenerateKeycapsWith | src/keycap_exporter_run.py:22-61 | the macro, with the per-label build as a parameter (the intended one being build_keycap_shape_from_configuration on the template), runs the precondition chain in the source's order, then the export loop over that build |
| Run.ExportLabels | src/keycap_exporter_run.py:54-59 | the loop computes the exports and the first error, if any |
| Run.PrefixFailureIsFinal | src/keycap_exporter_run.py:54-59 | an error on a label ends the loop: the labels after it are not exported |
| Run.ExportPathsSeparateLabels | src/keycap_exporter_run.py:57 | two slash-free labels get the same output path exactly when they are equal, and the file name of a label's path is the label plus ".stl" |
| Run.MismatchedCall | src/keycap_exporter_run.py:55 | the call on line 55 does not match the signature at src/keycap_exporter_core.py:266-276, so it always raises TypeError |
| Run.GenerateKeycaps | src/keycap_exporter_run.py:22-61 | the macro as written is the run with that mismatched call as its per-label build |
| Run.AsWrittenRunExportsNothing | src/keycap_exporter_run.py:55 | as written, a run that passes every check creates the output directory and then fails on the first label without writing a file |
| Run.SuccessfulRunExportsEveryLabel | src/keycap_exporter_run.py:54-59 | with a build that succeeds on every label and a positive deflection, a run that passes every check finishes and writes every label's mesh to its path, in layout order |

## Left out

- B-rep engine internals are symbolic terms in `Geometry` and are not modelled: wire-to-face conversion before extrusion, fuse/cut/tessellate results, and volumes or bounding boxes of boolean results. Draft's text outline generator is a parameter that may fail, and the temporary ShapeString object it creates and removes is not modelled.
- Floating point is modelled as `real` without rounding. The square root behind `Vector.Length` is the `length` parameter. The tolerances 1e-6 and 0.95 and the constants -1.0, -1e100 and 0.05 are exact reals.
- `Vector.multiply` scales in place, and the model describes the first build per face choice only. Values are modelled instead of objects, so the tables are constant in the model. In the code:
  - `unit_vector(...).multiply(depth)` in build_keycap_shape_from_configuration (src/keycap_exporter_core.py:370) rescales the table entry itself. After a raise-mode build, `FACE_DIRECTIONS[k]` is depth times the unit axis. After an engrave-mode build, `ENGRAVING_DIRECTIONS[k]` is.
  - The scan always reads `FACE_DIRECTIONS[k]` (src/keycap_exporter_core.py:359-360), whatever the mode. So after a raise-mode build, any later build for the same face scores the faces against that scaled direction, while the thresholds -1.0 and 1e-6 stay fixed. When it accepts no face, the centre it returns is that scaled table vector. A depth of 0 leaves a zero entry, so the next build with that face and mode raises the zero-length ValueError.
  - unit_vector in face_utils.py normalises its argument, the batch direction table's entry, in place. The entries are unit vectors, so this changes nothing the model can see.
- App.Rotation built from three columns orthonormalises them. The model keeps the columns as given. The rotations used are already orthonormal and right-handed, as the `Directions` and `FaceFrame` lemmas show.
- File system and process I/O are inputs, not operations:
  - `os.path.isdir` and `os.walk` are the `FontRoot` records;
  - `os.path.isfile` is a predicate of the run environment;
  - CSV tokenising is given rows, as maps from column to text;
  - `os.makedirs` is recorded as the created directory, and its own failures are not modelled;
  - `mesh.write`, with `export_stl`, is the list of (path, mesh) pairs written.
- DEFAULT_FONT_DIRECTORIES (src/keycap_exporter_core.py:11-16) is not modelled: it depends on the user's home directory through `os.path.expanduser`, and the roots are an input of `Fonts.ScanFontFiles`.
- Console messages, `document.recompute()` and the document parameter of the builders carry no logic and are not modelled.
- The `enable_*` flags of ExportConfiguration are not read by the core. They are kept as fields and have no effect.
- `Text.Lower`: lowers ASCII letters only and keeps every other character, where Python's `str.lower` also lowers non-ASCII letters. Font paths with non-ASCII capitals are therefore sorted and classified by a weaker notion of case.
- `Fonts.SortByLower`: states sorting by lower-cased path, no duplicates, and the same set of paths. It does not state the relative order of distinct paths whose lower-cased forms are equal, because Python's `set` iteration order fixes that order and the language does not specify it.
- The Qt dialogs (keycap_exporter_dialog.py, ui.py), the batch exporter loop (exporter.py) and the dialog's returned configuration are not part of this model. The run environment carries the configuration the dialog returns and whether it was accepted.
- `config.py` is the plain record `BatchCore.ExportConfig`; it has no behaviour.
- Python truthiness of the optional secondary labels is `KeycapCore.Present`: None and "" are absent, any other string is present.

## Findings

| source | as written | input that shows it | evidently intended | confidence | as-written member | corrected member |
|---|---|---|---|---|---|---|
| src/batch_keycaps_export_stl_ui/object_utils.py:9-14 | `hasattr(obj, "Shape")` evaluates the Shape property, and in Python 3 it only swallows AttributeError, so any other exception from the getter escapes at line 9 before the try at 11-14 is reached | a document with a solid object followed by an object whose Shape getter raises RuntimeError | objects whose shape cannot be read are skipped and the others are listed | not executed; medium: depends on FreeCAD raising something other than AttributeError | Objects.ListSolidObjects | Objects.ListSolidObjectsSkipping |
| src/keycap_exporter_run.py:55 | `build_keycap_with_legend_shape(document, export_configuration, label=label)` passes the configuration as the face placement and omits extrusion_vector, configuration and blank_key, so it raises TypeError | any run that passes every precondition check and reads at least one label | build each label with build_keycap_shape_from_configuration on the template and export it | not executed; high: the call does not match the signature at src/keycap_exporter_core.py:266-276 | Run.GenerateKeycaps | Run.GenerateKeycapsWith |

For the first row, `Objects.RaisingShapeIsFatal` exhibits the failing listing of the as-written reader. `Objects.SolidObjectsCharacterised` proves the intended property of the corrected one: it lists exactly the solid objects, in order.

For the second row, `Run.AsWrittenRunExportsNothing` shows that the as-written macro writes no file. `Run.SuccessfulRunExportsEveryLabel` proves that the corrected one writes every label's file, in layout order.
