/**
 * The shapes the editor works on: the tool and layer types of src/types.ts, the canvas
 * objects that fabric.js owns (as value records), and the shared canvas itself.
 */
module Scene {
  import opened Wrappers

  /** The active tool (ToolType in src/types.ts). */
  datatype ToolType = Select | Brush | Rectangle | Circle | Text | Eraser | Crop

  /** One row of the layer panel (Layer in src/types.ts). */
  datatype Layer = Layer(id: string, name: string, kind: string, visible: bool, locked: bool)

  /** A point in scene coordinates. */
  datatype Point = Point(x: real, y: real)

  /** The image filters the editor knows, tagged by their type. */
  datatype FilterKind = Grayscale | Sepia | Invert | Blur | Brightness | Contrast

  /** A filter on an image; its pixel effect belongs to fabric, only its type and strength are kept. */
  datatype Filter = Filter(kind: FilterKind, amount: Option<real>)

  /** fabric's five lock flags of an object. */
  datatype Locks = Locks(movementX: bool, movementY: bool, rotation: bool, scalingX: bool, scalingY: bool)

  /**
   * A canvas object. `handle` stands for the JavaScript object's identity (two clones are
   * different objects even when every property agrees); `id` and `name` are the optional
   * properties the editor attaches; `kind` is fabric's type tag.
   */
  datatype SceneObject = SceneObject(
    handle: nat,
    kind: string,
    id: Option<string>,
    name: Option<string>,
    left: Option<real>,
    top: Option<real>,
    width: real,
    height: real,
    radius: real,
    fill: string,
    stroke: Option<string>,
    strokeWidth: real,
    text: string,
    fontSize: real,
    visible: bool,
    locks: Locks,
    filters: seq<Filter>)

  // fabric's type tags of the objects the editor creates or inspects
  const RectKind: string := "rect"
  const CircleKind: string := "circle"
  const TextKind: string := "i-text"
  const ImageKind: string := "image"

  const Unlocked: Locks := Locks(false, false, false, false, false)

  /** A fresh object of the given kind with fabric's defaults: visible, unlocked, at the origin. */
  function Blank(kind: string): (o: SceneObject)
    ensures o.kind == kind && o.visible && o.locks == Unlocked && o.filters == []
  {
    SceneObject(0, kind, None, None, Some(0.0), Some(0.0), 0.0, 0.0, 0.0,
                "rgb(0,0,0)", None, 1.0, "", 40.0, true, Unlocked, [])
  }

  /** `v || 0` on a coordinate: an absent coordinate reads as 0. */
  function OrZero(v: Option<real>): (r: real)
    ensures v.Some? ==> r == v.value
    ensures v.None? ==> r == 0.0
  {
    if v.Some? then v.value else 0.0
  }

  /** JavaScript truthiness of an optional string: present and not empty. */
  predicate Truthy(s: Option<string>) {
    s.Some? && s.value != ""
  }

  /** fabric's PencilBrush, reduced to its colour and width. */
  datatype Brush = PencilBrush(color: string, width: int)

  /** The handles of the objects are pairwise distinct and all below `bound`. */
  ghost predicate HandlesBelow(objects: seq<SceneObject>, bound: nat) {
    && (forall i :: 0 <= i < |objects| ==> objects[i].handle < bound)
    && (forall i, j :: 0 <= i < j < |objects| ==> objects[i].handle != objects[j].handle)
  }

  /**
   * The fabric canvas both components share: its objects back to front, the active object
   * (an index), the free-drawing switch and brush, and the next unused object identity.
   */
  class Canvas {
    var objects: seq<SceneObject>
    var active: Option<nat>
    var drawingMode: bool
    var brush: Option<Brush>
    var nextHandle: nat

    ghost predicate Valid()
      reads this
    {
      && (active.Some? ==> active.value < |objects|)
      && HandlesBelow(objects, nextHandle)
    }

    constructor ()
      ensures Valid()
      ensures objects == [] && active == None && !drawingMode && brush == None
    {
      objects := [];
      active := None;
      drawingMode := false;
      brush := None;
      nextHandle := 0;
    }

    /** fabric's `add`: the object goes on top, as a new JavaScript object. */
    method Add(o: SceneObject) returns (placed: SceneObject)
      requires Valid()
      modifies this`objects, this`nextHandle
      ensures Valid()
      ensures placed == o.(handle := old(nextHandle))
      ensures objects == old(objects) + [placed]
      ensures nextHandle == old(nextHandle) + 1
      ensures forall i :: 0 <= i < |old(objects)| ==> old(objects)[i].handle != placed.handle
    {
      placed := o.(handle := nextHandle);
      objects := objects + [placed];
      nextHandle := nextHandle + 1;
    }

    /** fabric's `remove` of the active object, which also ends the selection. */
    method RemoveActive()
      requires Valid() && active.Some?
      modifies this`objects, this`active
      ensures Valid()
      ensures objects == old(objects[..active.value] + objects[active.value + 1..])
      ensures active == None
    {
      var i := active.value;
      objects := objects[..i] + objects[i + 1..];
      active := None;
    }
  }
}
