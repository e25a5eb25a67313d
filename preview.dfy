/** The single preview object (preview_utils.py, and the same two functions in
    keycap_exporter_core.py): one document object named "__KEYCAP_PREVIEW__" that is
    created on first use, reused afterwards, and removed on demand. */
module Preview {
  import opened Outcomes
  import opened Geometry
  import opened Sequences
  import opened Objects

  predicate UniqueNames(objects: seq<DocObject>) {
    forall i, j :: 0 <= i < j < |objects| ==> objects[i].name != objects[j].name
  }

  predicate IsOther(o: DocObject) {
    o.name != PreviewName
  }

  /** The object table after remove_existing_preview: the object that
      getObject("__KEYCAP_PREVIEW__") finds is removed, if there is one. */
  function WithoutPreview(objects: seq<DocObject>): seq<DocObject> {
    match FindByName(objects, PreviewName)
    case None => objects
    case Some(i) => objects[..i] + objects[i + 1..]
  }

  /** The object table after set_preview_shape: a found preview gets the shape;
      otherwise a new Part::Feature named and labelled "__KEYCAP_PREVIEW__" holding
      the shape is appended. */
  function WithPreview(objects: seq<DocObject>, shape: Shape): seq<DocObject> {
    match FindByName(objects, PreviewName)
    case None => objects + [DocObject(PreviewName, PreviewName, Has(shape))]
    case Some(i) => objects[i := objects[i].(shape := Has(shape))]
  }

  /** A FreeCAD document's object table, whose object names are unique. */
  class Document {
    var objects: seq<DocObject>

    ghost predicate Valid()
      reads this
    {
      UniqueNames(objects)
    }

    constructor (objects: seq<DocObject>)
      requires UniqueNames(objects)
      ensures Valid() && this.objects == objects
    {
      this.objects := objects;
    }

    /** Document.getObject(name): the position of the object with that name. */
    function GetObject(name: string): Option<nat>
      reads this
    {
      FindByName(objects, name)
    }

    /** remove_existing_preview. */
    method RemoveExistingPreview()
      modifies this
      requires Valid()
      ensures Valid()
      ensures objects == WithoutPreview(old(objects))
    {
      var previewObject := GetObject(PreviewName);
      if previewObject.Some? {
        var i := previewObject.value;
        objects := objects[..i] + objects[i + 1..];
        assert Valid() by { RemovingKeepsUnique(old(objects), i); }
      }
    }

    /** set_preview_shape. */
    method SetPreviewShape(shape: Shape)
      modifies this
      requires Valid()
      ensures Valid()
      ensures objects == WithPreview(old(objects), shape)
    {
      var previewObject := GetObject(PreviewName);
      var i: nat;
      if previewObject.None? {
        objects := objects + [DocObject(PreviewName, PreviewName, Has(NullShape))];
        i := |objects| - 1;
        objects := objects[i := objects[i].(labelText := PreviewName)];
      } else {
        i := previewObject.value;
      }
      objects := objects[i := objects[i].(shape := Has(shape))];
    }
  }

  lemma RemovingKeepsUnique(objects: seq<DocObject>, i: nat)
    requires UniqueNames(objects) && i < |objects|
    ensures UniqueNames(objects[..i] + objects[i + 1..])
  {
    var r := objects[..i] + objects[i + 1..];
    forall a, b | 0 <= a < b < |r|
      ensures r[a].name != r[b].name
    {
      var a' := if a < i then a else a + 1;
      var b' := if b < i then b else b + 1;
      assert r[a] == objects[a'] && r[b] == objects[b'];
    }
  }

  /** Without a preview, set_preview_shape adds exactly one object, at the end,
      named and labelled "__KEYCAP_PREVIEW__" and holding the shape. */
  lemma SetAddsPreview(objects: seq<DocObject>, shape: Shape)
    requires FindByName(objects, PreviewName).None?
    ensures var r := WithPreview(objects, shape);
      |r| == |objects| + 1 && r[..|objects|] == objects &&
      r[|objects|] == DocObject(PreviewName, PreviewName, Has(shape))
  {}

  /** With a preview, set_preview_shape reuses it: the table keeps its size, and
      only the preview's shape changes. */
  lemma SetReusesPreview(objects: seq<DocObject>, shape: Shape)
    requires FindByName(objects, PreviewName).Some?
    ensures var i := FindByName(objects, PreviewName).value; var r := WithPreview(objects, shape);
      |r| == |objects| && r[i] == objects[i].(shape := Has(shape)) &&
      forall j :: 0 <= j < |objects| && j != i ==> r[j] == objects[j]
  {}

  /** Afterwards getObject finds the preview, and it holds the given shape. */
  lemma SetInstallsShape(objects: seq<DocObject>, shape: Shape)
    requires UniqueNames(objects)
    ensures var r := WithPreview(objects, shape);
      UniqueNames(r) && FindByName(r, PreviewName).Some? &&
      r[FindByName(r, PreviewName).value].shape == Has(shape)
  {
    var r := WithPreview(objects, shape);
    match FindByName(objects, PreviewName)
    case None =>
      assert r[|objects|].name == PreviewName;
    case Some(i) =>
      assert r[i].name == PreviewName;
  }

  /** Neither operation adds, removes, reorders or changes any other object. */
  lemma SetLeavesOthers(objects: seq<DocObject>, shape: Shape)
    ensures Filter(WithPreview(objects, shape), IsOther) == Filter(objects, IsOther)
  {
    match FindByName(objects, PreviewName)
    case None =>
      FilterSnoc(objects, DocObject(PreviewName, PreviewName, Has(shape)), IsOther);
    case Some(i) =>
      var before, after := objects[..i], objects[i + 1..];
      assert objects == before + [objects[i]] + after;
      DropFailing(before, objects[i], after, IsOther);
      var moved := objects[i].(shape := Has(shape));
      assert WithPreview(objects, shape) == before + [moved] + after;
      DropFailing(before, moved, after, IsOther);
  }

  lemma RemoveLeavesOthers(objects: seq<DocObject>)
    ensures Filter(WithoutPreview(objects), IsOther) == Filter(objects, IsOther)
  {
    match FindByName(objects, PreviewName)
    case None =>
    case Some(i) =>
      var before, after := objects[..i], objects[i + 1..];
      assert objects == before + [objects[i]] + after;
      DropFailing(before, objects[i], after, IsOther);
  }

  /** remove_existing_preview leaves no preview behind, so a second call changes
      nothing. */
  lemma RemoveIdempotent(objects: seq<DocObject>)
    requires UniqueNames(objects)
    ensures FindByName(WithoutPreview(objects), PreviewName).None?
    ensures WithoutPreview(WithoutPreview(objects)) == WithoutPreview(objects)
  {
    match FindByName(objects, PreviewName)
    case None =>
    case Some(i) =>
      var r := WithoutPreview(objects);
      forall j | 0 <= j < |r|
        ensures r[j].name != PreviewName
      {
        var j' := if j < i then j else j + 1;
        assert r[j] == objects[j'];
      }
  }

  /** On a table without a preview, setting a preview and removing it again gives
      back the original table. */
  lemma SetThenRemoveRestores(objects: seq<DocObject>, shape: Shape)
    requires FindByName(objects, PreviewName).None?
    ensures WithoutPreview(WithPreview(objects, shape)) == objects
  {
    var r := WithPreview(objects, shape);
    assert FindByName(r, PreviewName) == Some(|objects|) by {
      assert r[|objects|].name == PreviewName;
      assert forall j :: 0 <= j < |objects| ==> r[j] == objects[j];
    }
    assert r[..|objects|] == objects;
  }
}
