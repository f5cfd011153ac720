/**
 * The Canvas component (src/components/Canvas.tsx): the layer-panel projection of the
 * canvas objects, the drawing-mode and brush set-up for the active tool, and the pointer
 * tool logic that creates rectangles, circles and text and resizes a rectangle while the
 * pointer is dragged.
 */
module CanvasView {
  import opened Wrappers
  import opened Scene
  import opened UndoHistory

  /** Decimal numeral of n, as a template literal prints it. */
  function Decimal(n: nat): (s: string)
    ensures |s| >= 1
  {
    if n < 10 then ["0123456789"[n]] else Decimal(n / 10) + ["0123456789"[n % 10]]
  }

  /** The layer row of the object at back-to-front position i (updateLayers' map callback). */
  function LayerOf(o: SceneObject, i: nat): Layer {
    Layer(
      if Truthy(o.id) then o.id.value else "layer-" + Decimal(i),
      if Truthy(o.name) then o.name.value else o.kind + " " + Decimal(i + 1),
      o.kind,
      o.visible,
      o.locks.movementX)
  }

  /** `objects.map((obj, index) => ...)`: the row of each object at its own position. */
  function MapLayers(objects: seq<SceneObject>): seq<Layer> {
    seq(|objects|, i requires 0 <= i < |objects| => LayerOf(objects[i], i))
  }

  function Reverse<T>(s: seq<T>): seq<T> {
    if s == [] then [] else Reverse(s[1..]) + [s[0]]
  }

  /** updateLayers: the layer rows in paint order, then reversed so the front-most comes first. */
  function Layers(objects: seq<SceneObject>): seq<Layer> {
    Reverse(MapLayers(objects))
  }

  lemma {:induction false} ReverseAt<T>(s: seq<T>, k: nat)
    requires k < |s|
    ensures |Reverse(s)| == |s| && Reverse(s)[k] == s[|s| - 1 - k]
  {
    if |s| > 1 {
      ReverseAt(s[1..], if k < |s| - 1 then k else 0);
    }
  }

  /**
   * One layer row per canvas object, front-most first: row j shows the object at
   * back-to-front position i = |objects| - 1 - j, with its visibility, its lockMovementX as
   * the lock, and `layer-<i>` and `<type> <i+1>` standing in for a missing id and name.
   */
  lemma {:induction false} LayersAt(objects: seq<SceneObject>, j: nat)
    requires j < |objects|
    ensures |Layers(objects)| == |objects|
    ensures var i := |objects| - 1 - j; var o := objects[i]; var l := Layers(objects)[j];
            && l.visible == o.visible
            && l.locked == o.locks.movementX
            && l.kind == o.kind
            && l.id == (if Truthy(o.id) then o.id.value else "layer-" + Decimal(i))
            && l.name == (if Truthy(o.name) then o.name.value else o.kind + " " + Decimal(i + 1))
  {
    ReverseAt(MapLayers(objects), j);
  }

  lemma {:induction false} ReverseSnoc<T>(s: seq<T>, x: T)
    ensures Reverse(s + [x]) == [x] + Reverse(s)
  {
    if s != [] {
      assert (s + [x])[1..] == s[1..] + [x];
      ReverseSnoc(s[1..], x);
    }
  }

  /** An object added to the canvas becomes the first layer row; the other rows stay as they were. */
  lemma {:induction false} LayersAfterAdd(objects: seq<SceneObject>, o: SceneObject)
    ensures Layers(objects + [o]) == [LayerOf(o, |objects|)] + Layers(objects)
  {
    assert MapLayers(objects + [o]) == MapLayers(objects) + [LayerOf(o, |objects|)];
    ReverseSnoc(MapLayers(objects), LayerOf(o, |objects|));
  }

  /** Free drawing is on exactly while the brush or the eraser is the tool. */
  predicate DrawingMode(tool: ToolType) {
    tool == Brush || tool == Eraser
  }

  /** The pencil brush the tool effect installs in drawing mode: white for the eraser. */
  function BrushFor(tool: ToolType, color: string, strokeWidth: int): (b: Option<Brush>)
    ensures b.Some? <==> DrawingMode(tool)
    ensures b.Some? ==> b.value.width == strokeWidth
    ensures b.Some? ==> b.value.color == (if tool == Eraser then "#ffffff" else color)
  {
    if DrawingMode(tool) then Some(PencilBrush(if tool == Eraser then "#ffffff" else color, strokeWidth))
    else None
  }

  /** The rectangle the pointer-down handler adds: 2 by 2 at the pointer, in the current colour. */
  function NewRect(p: Point, color: string): SceneObject {
    Blank(RectKind).(left := Some(p.x), top := Some(p.y), fill := color, width := 2.0, height := 2.0,
                     stroke := Some(color), strokeWidth := 0.0)
  }

  /** The circle the pointer-down handler adds: radius 1 at the pointer. */
  function NewCircle(p: Point, color: string): SceneObject {
    Blank(CircleKind).(left := Some(p.x), top := Some(p.y), fill := color, radius := 1.0,
                       stroke := Some(color), strokeWidth := 0.0)
  }

  /** The editable text the pointer-down handler adds at the pointer. */
  function NewText(p: Point, color: string): SceneObject {
    Blank(TextKind).(left := Some(p.x), top := Some(p.y), fill := color,
                     text := "Double click to edit", fontSize := 20.0)
  }

  /** A rectangle's position and size. */
  datatype Box = Box(left: real, top: real, width: real, height: real)

  function Min(a: real, b: real): real {
    if a <= b then a else b
  }

  function Abs(a: real): real {
    if a < 0.0 then -a else a
  }

  /**
   * The rectangle spanned by the drag anchor and the current pointer: it has no negative
   * size and its edges sit exactly on the two points, whichever way the drag goes.
   */
  function RectBox(anchor: Point, current: Point): (b: Box)
    ensures b.width >= 0.0 && b.height >= 0.0
    ensures {b.left, b.left + b.width} == {anchor.x, current.x}
    ensures {b.top, b.top + b.height} == {anchor.y, current.y}
  {
    Box(Min(anchor.x, current.x), Min(anchor.y, current.y),
        Abs(anchor.x - current.x), Abs(anchor.y - current.y))
  }

  /** The box does not depend on the direction of the drag. */
  lemma RectBoxSymmetric(anchor: Point, current: Point)
    ensures RectBox(anchor, current) == RectBox(current, anchor)
  {
  }

  /** The box is the only one of non-negative size whose edges sit on the two points. */
  lemma RectBoxUnique(anchor: Point, current: Point, b: Box)
    requires b.width >= 0.0 && b.height >= 0.0
    requires {b.left, b.left + b.width} == {anchor.x, current.x}
    requires {b.top, b.top + b.height} == {anchor.y, current.y}
    ensures b == RectBox(anchor, current)
  {
  }

  /** Which shape a drag resizes. */
  datatype DragShape = RectDrag | CircleDrag

  /** A registered pair of move/up listeners: the anchor and the object they resize. */
  datatype Drag = Drag(shape: DragShape, anchor: Point, target: nat)

  /** The object after onMouseMove has set its size and position to the box. */
  function Resized(o: SceneObject, b: Box): SceneObject {
    o.(left := Some(b.left), top := Some(b.top), width := b.width, height := b.height)
  }

  /**
   * One onMouseMove listener at pointer p: the rectangle it created takes the box from the
   * anchor to p; every other object, and the circle of a circle drag, stays as it was.
   */
  function Follow(objects: seq<SceneObject>, d: Drag, p: Point): (r: seq<SceneObject>)
    ensures |r| == |objects|
    ensures forall i :: 0 <= i < |r| ==> r[i].handle == objects[i].handle
    ensures forall i :: 0 <= i < |r| && (objects[i].handle != d.target || d.shape == CircleDrag) ==>
              r[i] == objects[i]
    ensures forall i :: 0 <= i < |r| && objects[i].handle == d.target && d.shape == RectDrag ==>
              r[i] == Resized(objects[i], RectBox(d.anchor, p))
  {
    if d.shape == CircleDrag then objects
    else seq(|objects|, i requires 0 <= i < |objects| =>
               if objects[i].handle == d.target then Resized(objects[i], RectBox(d.anchor, p)) else objects[i])
  }

  /** A pointer move with every registered move listener run in registration order. */
  function Dragged(objects: seq<SceneObject>, drags: seq<Drag>, p: Point): (r: seq<SceneObject>)
    ensures |r| == |objects|
    ensures forall i :: 0 <= i < |r| ==> r[i].handle == objects[i].handle
    ensures forall i :: 0 <= i < |r| && (forall k :: 0 <= k < |drags| ==> drags[k].target != objects[i].handle) ==>
              r[i] == objects[i]
    decreases |drags|
  {
    if drags == [] then objects else Dragged(Follow(objects, drags[0], p), drags[1..], p)
  }

  /**
   * With any number of registered drags, a rectangle ends up with the box of the last
   * rectangle drag that targets it: the earlier ones are overwritten.
   */
  lemma {:induction false} DraggedLast(objects: seq<SceneObject>, drags: seq<Drag>, p: Point, i: nat, k: nat)
    requires i < |objects| && k < |drags|
    requires drags[k].shape == RectDrag && drags[k].target == objects[i].handle
    requires forall m :: k < m < |drags| ==> drags[m].target != objects[i].handle
    ensures Dragged(objects, drags, p)[i] == Resized(objects[i], RectBox(drags[k].anchor, p))
    decreases |drags|
  {
    var next := Follow(objects, drags[0], p);
    if k == 0 {
      assert forall m :: 0 <= m < |drags[1..]| ==> drags[1..][m].target != next[i].handle by {
        forall m | 0 <= m < |drags[1..]| ensures drags[1..][m].target != next[i].handle {
          assert drags[1..][m] == drags[m + 1];
        }
      }
    } else {
      forall m | k - 1 < m < |drags[1..]| ensures drags[1..][m].target != next[i].handle {
        assert drags[1..][m] == drags[m + 1];
      }
      DraggedLast(next, drags[1..], p, i, k - 1);
    }
  }

  /** With one rectangle drag, a move resizes its rectangle to the box and leaves everything else. */
  lemma DraggedOne(objects: seq<SceneObject>, d: Drag, p: Point, i: nat)
    requires d.shape == RectDrag && i < |objects|
    ensures |Dragged(objects, [d], p)| == |objects|
    ensures Dragged(objects, [d], p)[i] ==
              if objects[i].handle == d.target then Resized(objects[i], RectBox(d.anchor, p)) else objects[i]
  {
  }

  /**
   * The Canvas component: the shared fabric canvas it creates, the App's history it commits
   * to (its onStateChange), the props the tool effect last saw, the layer rows it last handed
   * to onLayersUpdate, and the drag listeners currently registered.
   */
  class View {
    const canvas: Canvas
    const history: History
    const serialize: seq<SceneObject> -> string
    var tool: ToolType
    var color: string
    var strokeWidth: int
    var layers: seq<Layer>
    var drags: seq<Drag>

    ghost predicate Valid()
      reads this, canvas, history
    {
      && canvas.Valid()
      && history.Valid()
      && canvas.drawingMode == DrawingMode(tool)
    }

    /** No move or up listener is registered. */
    predicate Idle()
      reads this
    {
      drags == []
    }

    /** Mount: create the canvas, then run the tool effect for the initial props. */
    constructor (history: History, serialize: seq<SceneObject> -> string,
                 tool: ToolType, color: string, strokeWidth: int)
      requires history.Valid()
      ensures Valid() && Idle() && fresh(canvas)
      ensures this.history == history && this.serialize == serialize && history.Model() == old(history.Model())
      ensures this.tool == tool && this.color == color && this.strokeWidth == strokeWidth
      ensures canvas.objects == [] && canvas.active == None && layers == []
      ensures canvas.brush == BrushFor(tool, color, strokeWidth)
    {
      var c := new Canvas();
      c.drawingMode := DrawingMode(tool);
      if c.drawingMode {
        c.brush := BrushFor(tool, color, strokeWidth);
      }
      canvas := c;
      this.history := history;
      this.serialize := serialize;
      this.tool := tool;
      this.color := color;
      this.strokeWidth := strokeWidth;
      layers := [];
      drags := [];
    }

    /** onStateChange: App's saveState commits the serialised canvas. */
    method StateChanged()
      requires Valid()
      modifies history
      ensures Valid()
      ensures history.Model() == Committed(old(history.Model()), serialize(canvas.objects))
    {
      history.SaveState(serialize(canvas.objects));
    }

    /** The object:added / object:removed listener: refresh the layer rows, then commit. */
    method ObjectsChanged()
      requires Valid()
      modifies this`layers, history
      ensures Valid()
      ensures layers == Layers(canvas.objects)
      ensures history.Model() == Committed(old(history.Model()), serialize(canvas.objects))
    {
      layers := Layers(canvas.objects);
      StateChanged();
    }

    /** The tool effect: drawing mode on exactly for brush and eraser, with a fresh brush. */
    method Configure(tool: ToolType, color: string, strokeWidth: int)
      requires Valid()
      modifies this`tool, this`color, this`strokeWidth, canvas`drawingMode, canvas`brush
      ensures Valid()
      ensures this.tool == tool && this.color == color && this.strokeWidth == strokeWidth
      ensures canvas.drawingMode == DrawingMode(tool)
      ensures canvas.brush == if DrawingMode(tool) then BrushFor(tool, color, strokeWidth) else old(canvas.brush)
    {
      this.tool := tool;
      this.color := color;
      this.strokeWidth := strokeWidth;
      canvas.drawingMode := DrawingMode(tool);
      if canvas.drawingMode {
        canvas.brush := BrushFor(tool, color, strokeWidth);
      }
    }

    /**
     * `canvas.add(obj)` followed by `setActiveObject(obj)`: the object goes on top as a new
     * JavaScript object, the add listener refreshes the layers and commits, and it is selected.
     */
    method AddActive(o: SceneObject) returns (placed: SceneObject)
      requires Valid()
      modifies this`layers, canvas`objects, canvas`active, canvas`nextHandle, history
      ensures Valid()
      ensures placed == o.(handle := old(canvas.nextHandle))
      ensures canvas.objects == old(canvas.objects) + [placed]
      ensures canvas.active == Some(|old(canvas.objects)|)
      ensures canvas.nextHandle == old(canvas.nextHandle) + 1
      ensures layers == Layers(canvas.objects)
      ensures history.Model() == Committed(old(history.Model()), serialize(canvas.objects))
    {
      placed := canvas.Add(o);
      ObjectsChanged();
      canvas.active := Some(|canvas.objects| - 1);
    }

    /**
     * handleMouseDown: nothing for the select tool, in drawing mode or for crop; text is
     * added and selected at once; a rectangle or circle is added, selected, and gets a
     * pair of drag listeners anchored at the pointer.
     */
    method MouseDown(p: Point)
      requires Valid()
      modifies this`layers, this`drags, canvas`objects, canvas`active, canvas`nextHandle, history
      ensures Valid()
      ensures tool in {Select, Brush, Eraser, Crop} ==>
                && canvas.objects == old(canvas.objects) && canvas.active == old(canvas.active)
                && drags == old(drags) && layers == old(layers) && history.Model() == old(history.Model())
                && canvas.nextHandle == old(canvas.nextHandle)
      ensures tool in {Rectangle, Circle, Text} ==>
                var o := if tool == Rectangle then NewRect(p, color)
                         else if tool == Circle then NewCircle(p, color) else NewText(p, color);
                var placed := o.(handle := old(canvas.nextHandle));
                && canvas.objects == old(canvas.objects) + [placed]
                && canvas.active == Some(|canvas.objects| - 1)
                && canvas.nextHandle == old(canvas.nextHandle) + 1
                && layers == Layers(canvas.objects)
                && history.Model() == Committed(old(history.Model()), serialize(canvas.objects))
                && drags == old(drags) + (if tool == Text then []
                                          else [Drag(if tool == Rectangle then RectDrag else CircleDrag, p, placed.handle)])
    {
      if tool == Select || canvas.drawingMode {
        return;
      }
      var newObj: Option<SceneObject> := None;
      if tool == Rectangle {
        newObj := Some(NewRect(p, color));
      } else if tool == Circle {
        newObj := Some(NewCircle(p, color));
      } else if tool == Text {
        var placed := AddActive(NewText(p, color));
        return;
      }
      if newObj.Some? {
        var placed := AddActive(newObj.value);
        drags := drags + [Drag(if tool == Rectangle then RectDrag else CircleDrag, p, placed.handle)];
      }
    }

    /** A pointer move: every registered onMouseMove runs; without listeners nothing changes. */
    method MouseMove(p: Point)
      requires Valid()
      modifies canvas`objects
      ensures Valid()
      ensures canvas.objects == Dragged(old(canvas.objects), drags, p)
      ensures Idle() ==> canvas.objects == old(canvas.objects)
    {
      canvas.objects := Dragged(canvas.objects, drags, p);
    }

    /** A pointer release: onMouseUp unregisters the move and up listeners. */
    method MouseUp()
      requires Valid()
      modifies this`drags
      ensures Valid() && Idle()
    {
      drags := [];
    }
  }
}
