/**
 * The front end's canvas store (microMiro/src/store/canvas.js): the shapes drawn on the
 * canvas, in drawing order, and the id of the selected shape. Shapes are identified by an
 * integer id; their other properties are carried along untouched.
 */
module Canvas {
  import opened Optional

  /** A shape on the canvas: its id and the properties the store never looks at. */
  datatype Shape = Shape(id: int, attributes: map<string, string>)

  /** `findIndex(shape => shape.id === id)`: the first position holding that id, or -1. */
  function FindIndex(shapes: seq<Shape>, id: int): (i: int)
    ensures -1 <= i < |shapes|
    ensures i == -1 <==> forall k :: 0 <= k < |shapes| ==> shapes[k].id != id
    ensures 0 <= i ==> shapes[i].id == id && forall k :: 0 <= k < i ==> shapes[k].id != id
  {
    if shapes == [] then -1
    else if shapes[0].id == id then 0
    else
      var j := FindIndex(shapes[1..], id);
      if j == -1 then -1 else j + 1
  }

  /** `find(shape => shape.id === id)`: the first shape holding that id, if any. */
  function Find(shapes: seq<Shape>, id: int): (r: Option<Shape>)
    ensures r.None? <==> forall s <- shapes :: s.id != id
    ensures r.Some? ==> r.value in shapes && r.value.id == id
    ensures r.Some? ==>
      exists i :: 0 <= i < |shapes| && shapes[i] == r.value && (forall k :: 0 <= k < i ==> shapes[k].id != id)
  {
    var i := FindIndex(shapes, id);
    if i == -1 then None else Some(shapes[i])
  }

  /** `filter(shape => shape.id !== id)`: every shape with another id, in the same order. */
  function WithoutId(shapes: seq<Shape>, id: int): (r: seq<Shape>)
    ensures forall s :: s in r <==> s in shapes && s.id != id
    ensures |r| <= |shapes|
  {
    if shapes == [] then []
    else (if shapes[0].id != id then [shapes[0]] else []) + WithoutId(shapes[1..], id)
  }

  /** The ids of the shapes, position by position. */
  function Ids(shapes: seq<Shape>): (ids: seq<int>)
    ensures |ids| == |shapes|
    ensures forall k :: 0 <= k < |shapes| ==> ids[k] == shapes[k].id
  {
    seq(|shapes|, k requires 0 <= k < |shapes| => shapes[k].id)
  }

  // ---------------------------------------------------------------- lemmas

  /** Filtering out an id no shape has changes nothing; in particular filtering twice is filtering once. */
  lemma {:induction false} WithoutAbsentId(shapes: seq<Shape>, id: int)
    requires forall s <- shapes :: s.id != id
    ensures WithoutId(shapes, id) == shapes
  {
    if shapes != [] {
      WithoutAbsentId(shapes[1..], id);
      assert shapes == [shapes[0]] + shapes[1..];
    }
  }

  /** Removing twice is removing once. */
  lemma RemoveIdempotent(shapes: seq<Shape>, id: int)
    ensures WithoutId(WithoutId(shapes, id), id) == WithoutId(shapes, id)
  {
    WithoutAbsentId(WithoutId(shapes, id), id);
  }

  /** Filtering distributes over appending: a shape added later is filtered on its own. */
  lemma {:induction false} WithoutIdAppend(a: seq<Shape>, b: seq<Shape>, id: int)
    ensures WithoutId(a + b, id) == WithoutId(a, id) + WithoutId(b, id)
  {
    if a == [] {
      assert a + b == b;
    } else {
      var head := if a[0].id != id then [a[0]] else [];
      assert (a + b)[0] == a[0] && (a + b)[1..] == a[1..] + b;
      calc {
        WithoutId(a + b, id);
        head + WithoutId(a[1..] + b, id);
        { WithoutIdAppend(a[1..], b, id); }
        head + (WithoutId(a[1..], id) + WithoutId(b, id));
        (head + WithoutId(a[1..], id)) + WithoutId(b, id);
        WithoutId(a, id) + WithoutId(b, id);
      }
    }
  }

  /** Filtering looks at the first shape, then at the rest. */
  lemma WithoutIdCons(shape: Shape, shapes: seq<Shape>, id: int)
    ensures WithoutId([shape] + shapes, id) == (if shape.id != id then [shape] else []) + WithoutId(shapes, id)
  {
    assert ([shape] + shapes)[1..] == shapes;
  }

  /** A lookup looks at the first shape, then at the rest. */
  lemma FindCons(shape: Shape, shapes: seq<Shape>, id: int)
    ensures Find([shape] + shapes, id) == if shape.id == id then Some(shape) else Find(shapes, id)
  {
    assert ([shape] + shapes)[1..] == shapes;
  }

  /** Removing one id leaves the lookup of any other id as it was. */
  lemma {:induction false} FindAfterRemove(shapes: seq<Shape>, id: int, other: int)
    requires id != other
    ensures Find(WithoutId(shapes, id), other) == Find(shapes, other)
  {
    if shapes != [] {
      var x, rest := shapes[0], shapes[1..];
      assert shapes == [x] + rest;
      var w := WithoutId(rest, id);
      FindAfterRemove(rest, id, other);
      assert Find(w, other) == Find(rest, other);
      FindCons(x, rest, other);
      WithoutIdCons(x, rest, id);
      if x.id == id {
        assert WithoutId(shapes, id) == w;
      } else {
        assert WithoutId(shapes, id) == [x] + w;
        FindCons(x, w, other);
      }
    }
  }

  /** Appending a shape keeps a lookup that already succeeded, and otherwise finds the new shape iff it has the id. */
  lemma {:induction false} FindAfterAppend(shapes: seq<Shape>, shape: Shape, id: int)
    ensures Find(shapes + [shape], id) ==
      if Find(shapes, id).Some? then Find(shapes, id)
      else if shape.id == id then Some(shape) else None
  {
    if shapes != [] {
      FindAfterAppend(shapes[1..], shape, id);
      assert (shapes + [shape])[1..] == shapes[1..] + [shape];
    }
  }

  /** The first position holding an id is the one `FindIndex` gives. */
  lemma FirstIndex(shapes: seq<Shape>, id: int, i: int)
    requires 0 <= i < |shapes| && shapes[i].id == id && forall k :: 0 <= k < i ==> shapes[k].id != id
    ensures FindIndex(shapes, id) == i
  {
  }

  /**
   * Replacing the first shape holding `u.id` by `u` keeps every id in its place, and a
   * lookup of that id then finds `u`.
   */
  lemma ReplaceKeepsIds(shapes: seq<Shape>, u: Shape)
    requires FindIndex(shapes, u.id) != -1
    ensures Ids(shapes[FindIndex(shapes, u.id) := u]) == Ids(shapes)
    ensures Find(shapes[FindIndex(shapes, u.id) := u], u.id) == Some(u)
  {
    var i := FindIndex(shapes, u.id);
    var s' := shapes[i := u];
    assert s'[i] == u;
    assert forall k :: 0 <= k < i ==> s'[k] == shapes[k];
    FirstIndex(s', u.id, i);
  }

  // ---------------------------------------------------------------- the store

  class CanvasStore {
    var shapes: seq<Shape>
    var selectedShapeId: Option<int>

    /** The initial state: no shapes, nothing selected. */
    constructor ()
      ensures shapes == [] && selectedShapeId == None
    {
      shapes := [];
      selectedShapeId := None;
    }

    /** The `selectedShape` getter: the first shape holding the selected id, or nothing. */
    function SelectedShape(): (r: Option<Shape>)
      reads this
      ensures r.None? <==> selectedShapeId.None? || forall s <- shapes :: s.id != selectedShapeId.value
      ensures r.Some? ==> r.value in shapes && Some(r.value.id) == selectedShapeId
      ensures r.Some? ==>
        (exists i :: 0 <= i < |shapes| && shapes[i] == r.value && (forall k :: 0 <= k < i ==> shapes[k].id != r.value.id))
    {
      if selectedShapeId.None? then None else Find(shapes, selectedShapeId.value)
    }

    /** `addShape`: the shape goes on top; the selection and what it denotes stay. */
    method AddShape(shape: Shape)
      modifies this
      ensures shapes == old(shapes) + [shape]
      ensures selectedShapeId == old(selectedShapeId)
      ensures old(SelectedShape()).Some? ==> SelectedShape() == old(SelectedShape())
    {
      if selectedShapeId.Some? {
        FindAfterAppend(shapes, shape, selectedShapeId.value);
      }
      shapes := shapes + [shape];
    }

    /** `updateShape`: the first shape with the same id is replaced in place; with no such shape nothing changes. */
    method UpdateShape(updated: Shape)
      modifies this
      ensures var i := FindIndex(old(shapes), updated.id);
        shapes == if i == -1 then old(shapes) else old(shapes)[i := updated]
      ensures Ids(shapes) == Ids(old(shapes))
      ensures selectedShapeId == old(selectedShapeId)
      ensures selectedShapeId == Some(updated.id) && FindIndex(old(shapes), updated.id) != -1 ==>
        SelectedShape() == Some(updated)
    {
      var index := FindIndex(shapes, updated.id);
      if index != -1 {
        ReplaceKeepsIds(shapes, updated);
        shapes := shapes[index := updated];
      }
    }

    /** `removeShape`: every shape with the id goes, the others keep their order, and a selection of that id is cleared. */
    method RemoveShape(shapeId: int)
      modifies this
      ensures shapes == WithoutId(old(shapes), shapeId)
      ensures selectedShapeId == if old(selectedShapeId) == Some(shapeId) then None else old(selectedShapeId)
      ensures SelectedShape() == if old(selectedShapeId) == Some(shapeId) then None else old(SelectedShape())
    {
      if selectedShapeId.Some? && selectedShapeId.value != shapeId {
        FindAfterRemove(shapes, shapeId, selectedShapeId.value);
      }
      shapes := WithoutId(shapes, shapeId);
      if selectedShapeId == Some(shapeId) {
        selectedShapeId := None;
      }
    }

    /** `selectShape`: the id is selected whether or not a shape holds it. */
    method SelectShape(shapeId: Option<int>)
      modifies this
      ensures selectedShapeId == shapeId && shapes == old(shapes)
    {
      selectedShapeId := shapeId;
    }

    /** `clearSelection`. */
    method ClearSelection()
      modifies this
      ensures selectedShapeId == None && shapes == old(shapes)
      ensures SelectedShape() == None
    {
      selectedShapeId := None;
    }

    /** `setShapes`: the list is replaced; the selection is kept and may now denote another shape or none. */
    method SetShapes(newShapes: seq<Shape>)
      modifies this
      ensures shapes == newShapes && selectedShapeId == old(selectedShapeId)
    {
      shapes := newShapes;
    }

    /** `clearShapes`: no shapes and no selection. */
    method ClearShapes()
      modifies this
      ensures shapes == [] && selectedShapeId == None
      ensures SelectedShape() == None
    {
      shapes := [];
      selectedShapeId := None;
    }
  }
}
