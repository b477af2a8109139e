/** `ShapeContainer` (src/ShapeContainer.ts): a private list of shapes that
    only accepts shapes and, on removal, clears the removed shape's `group`. */
module ShapeContainers {
  import opened Seqs
  import opened Drawing
  import opened Scene

  /** An argument of any JavaScript type: `add` checks `instanceof Shape`. */
  datatype Item = ShapeItem(shape: Shape) | NonShape(value: Value)

  class ShapeContainer {
    var shapes: seq<Shape>

    constructor ()
      ensures shapes == []
    {
      shapes := [];
    }

    /** `getShapes()`: the current list. */
    function GetShapes(): (r: seq<Shape>)
      reads this
      ensures r == shapes
    {
      shapes
    }

    /** `add(item)`: append it when it is a shape, ignore it otherwise. */
    method Add(item: Item)
      modifies this
      ensures item.ShapeItem? ==> shapes == old(shapes) + [item.shape]
      ensures item.NonShape? ==> shapes == old(shapes)
    {
      if !item.ShapeItem? {
        return;
      }
      shapes := shapes + [item.shape];
    }

    /** `remove(shape)`: when present, clear its `group` and drop its first
        occurrence; when absent, change nothing. */
    method Remove(shape: Shape)
      modifies this, shape`group
      ensures shapes == RemoveFirst(old(shapes), shape)
      ensures shape in old(shapes) ==> shape.group == null
      ensures shape !in old(shapes) ==> shape.group == old(shape.group)
    {
      var index := IndexOf(shapes, shape);
      if index > -1 {
        shapes[index].group := null;
        shapes := RemoveAt(shapes, index);
      }
    }

    /** `removeAll()`: empty the list (back-references are left alone). */
    method RemoveAll()
      modifies this
      ensures shapes == []
    {
      shapes := [];
    }
  }
}
