/**
  The catalogue's object definitions. `ObjectModel` itself is defined outside
  the catalogue; only the parts the catalogue reads or writes are modelled.
*/
module ObjectModels {

  /** The members of `ObjectFlags` that the catalogue tests. */
  datatype ObjectFlag = HoleProvider | FreeShape

  /** The render layer an object is shown on. */
  datatype Layer = ObjectView | DraggedObject3D

  /**
    What a deserialised object body (or the free-shape factory) fixes:
    its id, its flag set, whether it has an SVG plan thumbnail, whether its
    run-time type is `FreeShapeObjectModel`, and its category ids.
  */
  datatype ObjectData = ObjectData(
    id: int,
    flags: set<ObjectFlag>,
    hasSvg: bool,
    freeShapeType: bool,
    categories: seq<int>)

  /** A loaded object definition. `StateId` is stamped after loading, `Layer` is set while dragging. */
  class ObjectModel {
    const data: ObjectData
    var stateId: int
    var layer: Layer

    constructor (d: ObjectData, stateId: int)
      ensures data == d && this.stateId == stateId && layer == ObjectView
    {
      data := d;
      this.stateId := stateId;
      layer := ObjectView;
    }

    /** Holds when `this` carries the same definition and state as `other`. */
    predicate SameContent(other: ObjectModel)
      reads this, other
    {
      data == other.data && stateId == other.stateId && layer == other.layer
    }

    /** `Clone()`: a new instance with the same content. */
    method Clone() returns (c: ObjectModel)
      ensures fresh(c) && c.SameContent(this)
    {
      c := new ObjectModel(data, stateId);
      c.layer := layer;
    }
  }
}
