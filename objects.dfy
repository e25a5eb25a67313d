/** Document objects as the object helpers see them (object_utils.py and the copies
    in keycap_exporter_core.py): a name, a label and a Shape attribute whose reading
    may fail. */
module Objects {
  import opened Outcomes
  import opened Geometry
  import opened Text
  import opened Sequences

  /** Reading `obj.Shape`: there is no such attribute (AttributeError), the
      property getter raises some other exception, the attribute holds None, or it
      holds a shape. */
  datatype ShapeAttr = NoShapeAttribute | ShapeRaises | NoneShape | Has(shape: Shape)

  /** A document object; a missing or None Name or Label reads as "" (`label` is a
      reserved word in Dafny, hence `labelText`). */
  datatype DocObject = DocObject(name: string, labelText: string, shape: ShapeAttr)

  /** The name of the single preview object. */
  const PreviewName := "__KEYCAP_PREVIEW__"

  /** The object has a shape that is not null and holds at least one solid. */
  predicate HasSolidShape(o: DocObject) {
    o.shape.Has? && HasSolid(o.shape.shape)
  }

  predicate ShapeReadRaises(o: DocObject) {
    o.shape == ShapeRaises
  }

  predicate AnyShapeRaises(objects: seq<DocObject>) {
    exists j :: 0 <= j < |objects| && ShapeReadRaises(objects[j])
  }

  /** The solid-bearing objects, in document order. */
  function SolidObjects(objects: seq<DocObject>): seq<DocObject> {
    Filter(objects, HasSolidShape)
  }

  /** What object_utils.list_solid_objects computes. `hasattr(obj, "Shape")`
      evaluates the property and only an AttributeError makes it false, so a getter
      raising anything else propagates out of hasattr, before the try block meant to
      skip it is reached. */
  function SolidListing(objects: seq<DocObject>): (r: Result<seq<DocObject>>)
    ensures r.Failure? <==> AnyShapeRaises(objects)
    ensures r.Failure? ==> r.error == ShapeAccessFailed
    ensures r.Success? ==> r.value == SolidObjects(objects)
  {
    if AnyShapeRaises(objects) then Failure(ShapeAccessFailed) else Success(SolidObjects(objects))
  }

  /** object_utils.list_solid_objects as written. */
  method ListSolidObjects(objects: seq<DocObject>) returns (r: Result<seq<DocObject>>)
    ensures r == SolidListing(objects)
  {
    var result: seq<DocObject> := [];
    var i := 0;
    while i < |objects|
      invariant 0 <= i <= |objects|
      invariant result == SolidObjects(objects[..i])
      invariant forall j :: 0 <= j < i ==> !ShapeReadRaises(objects[j])
    {
      var obj := objects[i];
      FilterPrefixStep(objects, i, HasSolidShape);
      if obj.shape == NoShapeAttribute {
        i := i + 1;
        continue;
      }
      if obj.shape == ShapeRaises {
        return Failure(ShapeAccessFailed);
      }
      if obj.shape == NoneShape || obj.shape.shape.isNull {
        i := i + 1;
        continue;
      }
      if obj.shape.shape.solidCount <= 0 {
        i := i + 1;
        continue;
      }
      result := result + [obj];
      i := i + 1;
    }
    assert objects[..|objects|] == objects;
    return Success(result);
  }

  /** One object whose Shape getter raises makes the whole listing fail, even when
      other objects hold solids. */
  lemma RaisingShapeIsFatal(solid: DocObject)
    requires HasSolidShape(solid)
    ensures SolidListing([solid, DocObject("Broken", "Broken", ShapeRaises)]) == Failure(ShapeAccessFailed)
  {
    var objects := [solid, DocObject("Broken", "Broken", ShapeRaises)];
    assert ShapeReadRaises(objects[1]);
  }

  /** list_solid_objects as its try block intends it: an object whose Shape cannot
      be read is skipped. The result is exactly the solid-bearing objects in document
      order. */
  method ListSolidObjectsSkipping(objects: seq<DocObject>) returns (r: seq<DocObject>)
    ensures r == SolidObjects(objects)
  {
    r := [];
    var i := 0;
    while i < |objects|
      invariant 0 <= i <= |objects|
      invariant r == SolidObjects(objects[..i])
    {
      var obj := objects[i];
      FilterPrefixStep(objects, i, HasSolidShape);
      if obj.shape.Has? && !obj.shape.shape.isNull && obj.shape.shape.solidCount > 0 {
        r := r + [obj];
      }
      i := i + 1;
    }
    assert objects[..|objects|] == objects;
  }

  /** The skipping listing holds exactly the objects with a solid, in document order:
      listing two parts of a document one after the other is listing the whole. */
  lemma SolidObjectsCharacterised(a: seq<DocObject>, b: seq<DocObject>, o: DocObject)
    ensures o in SolidObjects(a) <==> o in a && HasSolidShape(o)
    ensures SolidObjects(a + b) == SolidObjects(a) + SolidObjects(b)
    ensures !HasSolidShape(o) ==> o !in SolidObjects(a)
  {
    FilterAppend(a, b, HasSolidShape);
    FilterMembers(a, HasSolidShape);
  }

  /** The object may be offered as a template by keycap_exporter_core.py: it is not
      the preview and holds a solid. */
  predicate IsTemplateCandidate(o: DocObject) {
    o.name != PreviewName && HasSolidShape(o)
  }

  /** keycap_exporter_core.list_solid_objects: the preview object is skipped by name,
      an object without a Shape attribute or with a None shape is skipped, and a
      getter that raises propagates (getattr's default only covers AttributeError). */
  method ListSolidObjectsExceptPreview(objects: seq<DocObject>) returns (r: Result<seq<DocObject>>)
    ensures r.Failure? <==> exists j :: 0 <= j < |objects| && objects[j].name != PreviewName && ShapeReadRaises(objects[j])
    ensures r.Failure? ==> r.error == ShapeAccessFailed
    ensures r.Success? ==> r.value == Filter(objects, IsTemplateCandidate)
  {
    var result: seq<DocObject> := [];
    var i := 0;
    while i < |objects|
      invariant 0 <= i <= |objects|
      invariant result == Filter(objects[..i], IsTemplateCandidate)
      invariant forall j :: 0 <= j < i ==> objects[j].name == PreviewName || !ShapeReadRaises(objects[j])
    {
      var obj := objects[i];
      FilterPrefixStep(objects, i, IsTemplateCandidate);
      if obj.name == PreviewName {
        i := i + 1;
        continue;
      }
      if obj.shape == ShapeRaises {
        return Failure(ShapeAccessFailed);
      }
      var shape: Option<Shape> := if obj.shape.Has? then Some(obj.shape.shape) else None;
      if shape.None? {
        i := i + 1;
        continue;
      }
      if shape.value.isNull {
        i := i + 1;
        continue;
      }
      if shape.value.solidCount <= 0 {
        i := i + 1;
        continue;
      }
      result := result + [obj];
      i := i + 1;
    }
    assert objects[..|objects|] == objects;
    return Success(result);
  }

  /** object_display_name: "Label (Name)" when both are set and differ, otherwise
      the label, else the name, else "UnnamedObject". */
  function ObjectDisplayName(o: DocObject): (r: string)
    ensures r != ""
    ensures o.labelText != "" && o.name != "" && o.labelText != o.name ==> r == o.labelText + " (" + o.name + ")"
    ensures o.labelText != "" && (o.name == "" || o.labelText == o.name) ==> r == o.labelText
    ensures o.labelText == "" && o.name != "" ==> r == o.name
    ensures o.labelText == "" && o.name == "" ==> r == "UnnamedObject"
  {
    if o.labelText != "" && o.name != "" && o.labelText != o.name then o.labelText + " (" + o.name + ")"
    else if o.labelText != "" then o.labelText
    else if o.name != "" then o.name
    else "UnnamedObject"
  }

  /** The display name always starts with the label and shows the name whenever the
      object has one, so two objects with different names get different display
      names when their labels are empty or equal to their names. */
  lemma DisplayNameShowsBoth(o: DocObject)
    ensures o.labelText != "" ==> |o.labelText| <= |ObjectDisplayName(o)| && ObjectDisplayName(o)[..|o.labelText|] == o.labelText
    ensures o.name != "" ==> Contains(ObjectDisplayName(o), o.name)
  {
    var r := ObjectDisplayName(o);
    if o.name != "" {
      if o.labelText != "" && o.labelText != o.name {
        var i := |o.labelText| + 2;
        assert r[i..i + |o.name|] == o.name;
        assert OccursAt(r, o.name, i);
      } else {
        assert r[0..|o.name|] == o.name;
        assert OccursAt(r, o.name, 0);
      }
    }
  }

  /** The first object with the given name (document names are unique). */
  function FindByName(objects: seq<DocObject>, name: string): (r: Option<nat>)
    ensures r.Some? ==> r.value < |objects| && objects[r.value].name == name
    ensures r.Some? ==> forall j :: 0 <= j < r.value ==> objects[j].name != name
    ensures r.None? <==> forall j :: 0 <= j < |objects| ==> objects[j].name != name
  {
    if objects == [] then None
    else if objects[0].name == name then Some(0)
    else
      match FindByName(objects[1..], name)
      case None => None
      case Some(k) => Some(k + 1)
  }

  /** resolve_object_by_name: the object Document.getObject finds, or ValueError when
      there is none. */
  function ResolveObjectByName(objects: seq<DocObject>, name: string): (r: Result<DocObject>)
    ensures r.Failure? <==> forall j :: 0 <= j < |objects| ==> objects[j].name != name
    ensures r.Failure? ==> r.error == ObjectNotFound
    ensures r.Success? ==> r.value in objects && r.value.name == name
  {
    match FindByName(objects, name)
    case None => Failure(ObjectNotFound)
    case Some(i) => Success(objects[i])
  }
}
