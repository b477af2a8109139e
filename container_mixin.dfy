/** `containerMixin` (src/containerMixin.ts): the `shapes` list a mixed-in
    class gains, which only accepts shapes and, on removal, clears the removed
    shape's `parent`. The base class the mixin extends plays no part here. */
module ContainerMixins {
  import opened Seqs
  import opened Scene
  import opened ShapeContainers

  class Container {
    var shapes: seq<Shape>

    constructor ()
      ensures shapes == []
    {
      shapes := [];
    }

    /** `add(item)`: append it when it is a shape, ignore it otherwise. */
    method Add(item: Item)
      modifies this
      ensures item.ShapeItem? ==> shapes == old(shapes) + [item.shape]
      ensures item.NonShape? ==> shapes == old(shapes)
    {
      if !item.ShapeItem? {
        return;
      }
      shapes := shapes + [item.shape];
    }

    /** `remove(shape)`: when present, clear its `parent` and drop its first
        occurrence, the other shapes keeping their order; when absent, change
        nothing. */
    method Remove(shape: Shape)
      modifies this, shape`parent
      ensures shapes == RemoveFirst(old(shapes), shape)
      ensures shape in old(shapes) ==> shape.parent == null
      ensures shape !in old(shapes) ==> shape.parent == old(shape.parent)
    {
      var index := IndexOf(shapes, shape);
      if index > -1 {
        shapes[index].parent := null;
        shapes := RemoveAt(shapes, index);
      }
    }

    /** `removeAll()`: empty the list. */
    method RemoveAll()
      modifies this
      ensures shapes == []
    {
      shapes := [];
    }
  }
}
