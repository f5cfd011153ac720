/**
 * The App component (src/App.tsx): the editor's own state (tool, colour, stroke width,
 * clipboard) over the shared canvas and the history, and its command handlers: undo and
 * redo, copy, paste, cut and delete, image filters, the layer panel's lock, visibility and
 * selection toggles, and the keyboard shortcuts.
 */
module Editor {
  import opened Wrappers
  import opened Scene
  import opened UndoHistory
  import opened CanvasView

  // ---------------------------------------------------------------- image filters

  /** `filters.filter(f => f.type !== kind)`: every filter not of that type, in order. */
  function Without(fs: seq<Filter>, kind: FilterKind): (r: seq<Filter>)
    ensures |r| <= |fs|
    ensures forall f :: f in r ==> f in fs && f.kind != kind
    ensures forall i :: 0 <= i < |fs| && fs[i].kind != kind ==> fs[i] in r
  {
    if fs == [] then []
    else (if fs[0].kind != kind then [fs[0]] else []) + Without(fs[1..], kind)
  }

  /** How many filters of that type the list holds. */
  function Count(fs: seq<Filter>, kind: FilterKind): nat {
    if fs == [] then 0 else (if fs[0].kind == kind then 1 else 0) + Count(fs[1..], kind)
  }

  /** The panel button that applies a filter type. */
  function KindName(k: FilterKind): string {
    match k
    case Grayscale => "Grayscale"
    case Sepia => "Sepia"
    case Invert => "Invert"
    case Blur => "Blur"
    case Brightness => "Brightness"
    case Contrast => "Contrast"
  }

  /** The filter a panel button builds; the adjustable ones use `value || 0.1`. */
  function NewFilter(name: string, value: Option<real>): (f: Option<Filter>)
    ensures f.Some? <==> name in ["Grayscale", "Sepia", "Invert", "Blur", "Brightness", "Contrast"]
    ensures forall k: FilterKind :: (f.Some? && f.value.kind == k) <==> name == KindName(k)
    ensures f.Some? && f.value.kind in {Grayscale, Sepia, Invert} ==> f.value.amount == None
    ensures f.Some? && f.value.kind in {Blur, Brightness, Contrast} ==>
              f.value.amount == Some(if value.Some? && value.value != 0.0 then value.value else 0.1)
  {
    var amount := if value.Some? && value.value != 0.0 then value.value else 0.1;
    if name == "Grayscale" then Some(Filter(Grayscale, None))
    else if name == "Sepia" then Some(Filter(Sepia, None))
    else if name == "Invert" then Some(Filter(Invert, None))
    else if name == "Blur" then Some(Filter(Blur, Some(amount)))
    else if name == "Brightness" then Some(Filter(Brightness, Some(amount)))
    else if name == "Contrast" then Some(Filter(Contrast, Some(amount)))
    else None
  }

  /** An image's filter list after handleApplyFilter(name, value). */
  function FiltersAfter(fs: seq<Filter>, name: string, value: Option<real>): (r: seq<Filter>)
    ensures name == "Reset" ==> r == []
    ensures name != "Reset" && NewFilter(name, value).None? ==> r == fs
  {
    if name == "Reset" then []
    else match NewFilter(name, value)
      case None => fs
      case Some(f) => Without(fs, f.kind) + [f]
  }

  lemma {:induction false} WithoutAppend(a: seq<Filter>, b: seq<Filter>, kind: FilterKind)
    ensures Without(a + b, kind) == Without(a, kind) + Without(b, kind)
  {
    if a != [] {
      assert (a + b)[1..] == a[1..] + b;
      WithoutAppend(a[1..], b, kind);
    } else {
      assert a + b == b;
    }
  }

  lemma {:induction false} WithoutTwice(fs: seq<Filter>, kind: FilterKind)
    ensures Without(Without(fs, kind), kind) == Without(fs, kind)
    ensures Count(Without(fs, kind), kind) == 0
  {
    if fs != [] {
      WithoutTwice(fs[1..], kind);
      var head := if fs[0].kind != kind then [fs[0]] else [];
      WithoutAppend(head, Without(fs[1..], kind), kind);
      CountAppend(head, Without(fs[1..], kind), kind);
      if fs[0].kind != kind {
        assert Without(head, kind) == head by {
          assert head[1..] == [];
        }
      }
    }
  }

  lemma {:induction false} CountAppend(a: seq<Filter>, b: seq<Filter>, kind: FilterKind)
    ensures Count(a + b, kind) == Count(a, kind) + Count(b, kind)
  {
    if a != [] {
      assert (a + b)[1..] == a[1..] + b;
      CountAppend(a[1..], b, kind);
    } else {
      assert a + b == b;
    }
  }

  /**
   * Applying a known filter leaves exactly one filter of its type, placed last, and the
   * other filters keep their relative order.
   */
  lemma KnownFilterReplaces(fs: seq<Filter>, name: string, value: Option<real>)
    requires name != "Reset" && NewFilter(name, value).Some?
    ensures var f := NewFilter(name, value).value; var r := FiltersAfter(fs, name, value);
            && |r| > 0 && r[|r| - 1] == f
            && Count(r, f.kind) == 1
            && Without(r, f.kind) == Without(fs, f.kind)
  {
    var f := NewFilter(name, value).value;
    var kept := Without(fs, f.kind);
    WithoutTwice(fs, f.kind);
    WithoutAppend(kept, [f], f.kind);
    CountAppend(kept, [f], f.kind);
    assert [f][1..] == [];
  }

  /** Pressing the same filter button twice is the same as pressing it once. */
  lemma FilterIdempotent(fs: seq<Filter>, name: string, value: Option<real>)
    ensures FiltersAfter(FiltersAfter(fs, name, value), name, value) == FiltersAfter(fs, name, value)
  {
    if name != "Reset" && NewFilter(name, value).Some? {
      var f := NewFilter(name, value).value;
      WithoutTwice(fs, f.kind);
      WithoutAppend(Without(fs, f.kind), [f], f.kind);
      assert [f][1..] == [];
    }
  }

  // ---------------------------------------------------------------- clipboard

  /**
   * fabric's `clone(['id', 'name', 'locked'])`: the object rebuilt from its serialised form
   * plus id, name and a `locked` property. The lock flags are not serialised, and the code
   * keeps the lock in them (never in `locked`), so the clone comes back unlocked.
   */
  function Cloned(o: SceneObject): (c: SceneObject)
    ensures c.locks == Unlocked
    ensures c.(locks := o.locks) == o
  {
    o.(locks := Unlocked)
  }

  /**
   * The copy handlePaste places: a clone of the clipboard object, 20 to the right and 20
   * below, an absent coordinate read as 0; it is unlocked, and every other property, the id
   * included, is copied as is.
   */
  function Pasted(o: SceneObject): (p: SceneObject)
    ensures p.left == Some(OrZero(o.left) + 20.0) && p.top == Some(OrZero(o.top) + 20.0)
    ensures p.locks == Unlocked
    ensures p.(left := o.left, top := o.top, locks := o.locks) == o
  {
    Cloned(o).(left := Some(OrZero(o.left) + 20.0), top := Some(OrZero(o.top) + 20.0))
  }

  /** The clipboard after n pastes: each paste copies the previous copy. */
  function PastedTimes(o: SceneObject, n: nat): SceneObject {
    if n == 0 then o else Pasted(PastedTimes(o, n - 1))
  }

  /** Repeated pastes cascade: the n-th copy sits 20n to the right of and 20n below the original. */
  lemma {:induction false} PasteCascade(o: SceneObject, n: nat)
    requires n > 0
    ensures PastedTimes(o, n).left == Some(OrZero(o.left) + 20.0 * n as real)
    ensures PastedTimes(o, n).top == Some(OrZero(o.top) + 20.0 * n as real)
    ensures PastedTimes(o, n).id == o.id
  {
    if n > 1 {
      PasteCascade(o, n - 1);
    }
  }

  // ---------------------------------------------------------------- layer panel

  /**
   * Nothing in the editor gives an object an id, so every layer row carries the fallback
   * `layer-<i>`, and the panel's lookup by that id finds no object: its buttons do nothing.
   */
  lemma PanelLookupMisses(objects: seq<SceneObject>, j: nat)
    requires forall i :: 0 <= i < |objects| ==> objects[i].id == None
    requires j < |objects|
    ensures |Layers(objects)| == |objects|
    ensures Layers(objects)[j].id == "layer-" + Decimal(|objects| - 1 - j)
    ensures FindById(objects, Layers(objects)[j].id) == None
  {
    LayersAt(objects, j);
  }

  /** `getObjects().find(o => o.id === id)`: the position of the first object with that id. */
  function FindById(objects: seq<SceneObject>, id: string): (r: Option<nat>)
    ensures r.Some? ==> r.value < |objects| && objects[r.value].id == Some(id)
    ensures r.Some? ==> forall j :: 0 <= j < r.value ==> objects[j].id != Some(id)
    ensures r.None? <==> forall j :: 0 <= j < |objects| ==> objects[j].id != Some(id)
  {
    if objects == [] then None
    else if objects[0].id == Some(id) then Some(0)
    else match FindById(objects[1..], id)
      case None => None
      case Some(j) => Some(j + 1)
  }

  /** toggleVisibility's update: flip the visible flag, nothing else. */
  function VisibilityToggled(o: SceneObject): (r: SceneObject)
    ensures r.visible != o.visible && r.(visible := o.visible) == o
  {
    o.(visible := !o.visible)
  }

  /** toggleLock's update: all five lock flags become the negation of lockMovementX. */
  function LockToggled(o: SceneObject): (r: SceneObject)
    ensures var b := !o.locks.movementX;
            r.locks == Locks(b, b, b, b, b) && r.(locks := o.locks) == o
  {
    var isLocked := !o.locks.movementX;
    o.(locks := Locks(isLocked, isLocked, isLocked, isLocked, isLocked))
  }

  /** Toggling the lock twice leaves every flag equal to the original lockMovementX. */
  lemma LockToggledTwice(o: SceneObject)
    ensures var b := o.locks.movementX;
            LockToggled(LockToggled(o)).locks == Locks(b, b, b, b, b)
  {
  }

  // ---------------------------------------------------------------- keyboard

  function LowerChar(c: char): char {
    if 'A' <= c <= 'Z' then (c as int + 32) as char else c
  }

  /** `toLowerCase` on the ASCII letters. */
  function Lower(s: string): (r: string)
    ensures |r| == |s| && forall i :: 0 <= i < |s| ==> r[i] == LowerChar(s[i])
  {
    seq(|s|, i requires 0 <= i < |s| => LowerChar(s[i]))
  }

  /** The tool letters: v, b, r, c, t, e and k. */
  function ToolKey(key: string): (t: Option<ToolType>)
    ensures t == Some(Select) <==> key == "v"
    ensures t == Some(Brush) <==> key == "b"
    ensures t == Some(Rectangle) <==> key == "r"
    ensures t == Some(Circle) <==> key == "c"
    ensures t == Some(Text) <==> key == "t"
    ensures t == Some(Eraser) <==> key == "e"
    ensures t == Some(Crop) <==> key == "k"
  {
    if key == "v" then Some(Select)
    else if key == "b" then Some(Brush)
    else if key == "r" then Some(Rectangle)
    else if key == "c" then Some(Circle)
    else if key == "t" then Some(Text)
    else if key == "e" then Some(Eraser)
    else if key == "k" then Some(Crop)
    else None
  }

  /** `Math.max(1, w - 1)`: one thinner, never below 1. */
  function NarrowedWidth(w: int): (r: int)
    ensures r >= 1 && (r == w - 1 || r == 1)
    ensures 1 <= w <= 100 ==> 1 <= r <= 100 && w - 1 <= r <= w
  {
    if 1 > w - 1 then 1 else w - 1
  }

  /** `Math.min(100, w + 1)`: one thicker, never above 100. */
  function WidenedWidth(w: int): (r: int)
    ensures r <= 100 && (r == w + 1 || r == 100)
    ensures 1 <= w <= 100 ==> 1 <= r <= 100 && w <= r <= w + 1
  {
    if 100 < w + 1 then 100 else w + 1
  }

  datatype Axis = Horizontal | Vertical

  /** What a key press asks for. */
  datatype Command =
    | Undo | Redo | Copy | Paste | Cut | SelectAll | Export | ZoomIn | ZoomOut | ResetZoom
    | ChooseTool(tool: ToolType) | Narrow | Widen | Delete | Nudge(axis: Axis, delta: int)
    | Ignore

  /**
   * handleKeyDown's switch: nothing while typing in a field; with Ctrl (or Meta) the
   * history, clipboard, export and zoom shortcuts; otherwise tool letters, stroke width,
   * delete and the arrow nudges, by 10 with Shift and by 1 without.
   */
  function Dispatch(key: string, ctrl: bool, shift: bool, typing: bool): (c: Command)
    ensures typing ==> c == Ignore
    ensures c.ChooseTool? <==> !typing && !ctrl && ToolKey(Lower(key)).Some?
    ensures c.ChooseTool? ==> c.tool == ToolKey(Lower(key)).value
    ensures c.Undo? ==> ctrl && !shift && Lower(key) == "z"
    ensures c.Redo? ==> ctrl && (Lower(key) == "y" || (Lower(key) == "z" && shift))
    ensures (c.Narrow? || c.Widen? || c.Delete? || c.Nudge?) ==> !ctrl
    ensures c.Nudge? ==> (c.delta == 10 || c.delta == -10) == shift && (c.delta == 1 || c.delta == -1) == !shift
    // With Ctrl (or Meta): the history, clipboard, export and zoom shortcuts.
    ensures var k := Lower(key); !typing && ctrl ==>
              && (k == "z" ==> c == if shift then Redo else Undo)
              && (k == "y" ==> c == Redo)
              && (k == "c" ==> c == Copy)
              && (k == "v" ==> c == Paste)
              && (k == "x" ==> c == Cut)
              && (k == "a" ==> c == SelectAll)
              && (k == "s" ==> c == Export)
              && (k == "=" || k == "+" ==> c == ZoomIn)
              && (k == "-" ==> c == ZoomOut)
              && (k == "0" ==> c == ResetZoom)
              && (k !in ["z", "y", "c", "v", "x", "a", "s", "=", "+", "-", "0"] ==> c == Ignore)
    // Without Ctrl: stroke width, delete, and the arrows (left/up subtract, right/down add).
    ensures var k := Lower(key); var step := if shift then 10 else 1; !typing && !ctrl ==>
              && (k == "[" ==> c == Narrow)
              && (k == "]" ==> c == Widen)
              && (k == "delete" || k == "backspace" ==> c == Delete)
              && (k == "arrowleft" ==> c == Nudge(Horizontal, -step))
              && (k == "arrowright" ==> c == Nudge(Horizontal, step))
              && (k == "arrowup" ==> c == Nudge(Vertical, -step))
              && (k == "arrowdown" ==> c == Nudge(Vertical, step))
              && (ToolKey(k).None? && k !in ["[", "]", "delete", "backspace", "arrowleft", "arrowright", "arrowup", "arrowdown"]
                  ==> c == Ignore)
  {
    if typing then Ignore
    else
      var k := Lower(key);
      if ctrl then
        if k == "z" then (if shift then Redo else Undo)
        else if k == "y" then Redo
        else if k == "c" then Copy
        else if k == "v" then Paste
        else if k == "x" then Cut
        else if k == "a" then SelectAll
        else if k == "s" then Export
        else if k == "=" || k == "+" then ZoomIn
        else if k == "-" then ZoomOut
        else if k == "0" then ResetZoom
        else Ignore
      else
        var step := if shift then 10 else 1;
        if ToolKey(k).Some? then ChooseTool(ToolKey(k).value)
        else if k == "[" then Narrow
        else if k == "]" then Widen
        else if k == "delete" || k == "backspace" then Delete
        else if k == "arrowleft" then Nudge(Horizontal, -step)
        else if k == "arrowright" then Nudge(Horizontal, step)
        else if k == "arrowup" then Nudge(Vertical, -step)
        else if k == "arrowdown" then Nudge(Vertical, step)
        else Ignore
  }

  /** The arrow nudge: left or top moves by delta, an absent coordinate read as 0. */
  function Nudged(o: SceneObject, axis: Axis, delta: int): (r: SceneObject)
    ensures axis == Horizontal ==> r.left == Some(OrZero(o.left) + delta as real) && r.(left := o.left) == o
    ensures axis == Vertical ==> r.top == Some(OrZero(o.top) + delta as real) && r.(top := o.top) == o
  {
    match axis
    case Horizontal => o.(left := Some(OrZero(o.left) + delta as real))
    case Vertical => o.(top := Some(OrZero(o.top) + delta as real))
  }

  /** Nudging one way and back returns the object to where it was, once it has a position. */
  lemma NudgeBack(o: SceneObject, axis: Axis, delta: int)
    requires axis == Horizontal ==> o.left.Some?
    requires axis == Vertical ==> o.top.Some?
    ensures Nudged(Nudged(o, axis, delta), axis, -delta) == o
  {
  }

  // ---------------------------------------------------------------- the App component

  /**
   * The App component's state: the tool, colour and stroke width it hands to the Canvas
   * component as props, and the clipboard. The canvas, its active object (the selection)
   * and the history are reached through the Canvas component.
   */
  class Editor {
    const view: View
    var tool: ToolType
    var color: string
    var strokeWidth: int
    var clipboard: Option<SceneObject>

    /** The Canvas component has seen the current props. */
    ghost predicate Valid()
      reads this, view, view.canvas, view.history
    {
      && view.Valid()
      && view.tool == tool && view.color == color && view.strokeWidth == strokeWidth
    }

    /** First render and mount: default props, and one commit of the empty canvas. */
    constructor (serialize: seq<SceneObject> -> string)
      ensures Valid() && view.Idle()
      ensures tool == Select && color == "#0078d4" && strokeWidth == 5 && clipboard == None
      ensures view.canvas.objects == [] && view.canvas.active == None && !view.canvas.drawingMode
      ensures view.serialize == serialize && view.layers == []
      ensures view.history.Model() == State([serialize([])], 0)
    {
      var h := new History();
      var v := new View(h, serialize, Select, "#0078d4", 5);
      v.StateChanged();
      view := v;
      tool := Select;
      color := "#0078d4";
      strokeWidth := 5;
      clipboard := None;
    }

    /** The active tool changes; the tool effect re-runs with the new props. */
    method SetTool(t: ToolType)
      requires Valid()
      modifies this`tool, view`tool, view`color, view`strokeWidth, view.canvas`drawingMode, view.canvas`brush
      ensures Valid()
      ensures tool == t && view.canvas.drawingMode == DrawingMode(t)
      ensures view.canvas.brush == if DrawingMode(t) then BrushFor(t, color, strokeWidth) else old(view.canvas.brush)
    {
      tool := t;
      view.Configure(tool, color, strokeWidth);
    }

    /** The stroke width changes; the tool effect re-runs with the new props. */
    method SetStrokeWidth(w: int)
      requires Valid()
      modifies this`strokeWidth, view`tool, view`color, view`strokeWidth, view.canvas`drawingMode, view.canvas`brush
      ensures Valid()
      ensures strokeWidth == w && view.canvas.drawingMode == old(view.canvas.drawingMode)
      ensures view.canvas.brush == if DrawingMode(tool) then BrushFor(tool, color, w) else old(view.canvas.brush)
    {
      strokeWidth := w;
      view.Configure(tool, color, strokeWidth);
    }

    /** handleUndo: move back one entry and hand the snapshot to load to the canvas. */
    method HandleUndo() returns (restore: Option<string>)
      requires Valid()
      modifies view.history
      ensures Valid()
      ensures Step(view.history.Model(), restore) == Undone(old(view.history.Model()))
    {
      restore := view.history.Undo();
    }

    /** handleRedo: move forward one entry and hand the snapshot to load to the canvas. */
    method HandleRedo() returns (restore: Option<string>)
      requires Valid()
      modifies view.history
      ensures Valid()
      ensures Step(view.history.Model(), restore) == Redone(old(view.history.Model()))
    {
      restore := view.history.Redo();
    }

    /** handleCopy: the clipboard takes a clone of the active object, if there is one. */
    method HandleCopy()
      requires Valid()
      modifies this`clipboard
      ensures Valid()
      ensures view.canvas.active.None? ==> clipboard == old(clipboard)
      ensures view.canvas.active.Some? ==> clipboard == Some(Cloned(view.canvas.objects[view.canvas.active.value]))
    {
      var a := view.canvas.active;
      if a.Some? {
        clipboard := Some(Cloned(view.canvas.objects[a.value]));
      }
    }

    /**
     * handlePaste: a copy of the clipboard object, moved by (+20, +20), goes on top of the
     * canvas, becomes the selection and the new clipboard content, and is committed.
     */
    method HandlePaste()
      requires Valid()
      modifies this`clipboard, view`layers, view.canvas`objects, view.canvas`active,
               view.canvas`nextHandle, view.history
      ensures Valid()
      ensures old(clipboard).None? ==> clipboard == None && unchanged(view, view.canvas, view.history)
      ensures old(clipboard).Some? ==>
                var placed := Pasted(old(clipboard).value).(handle := old(view.canvas.nextHandle));
                && view.canvas.objects == old(view.canvas.objects) + [placed]
                && view.canvas.active == Some(|old(view.canvas.objects)|)
                && clipboard == Some(placed)
                && view.canvas.nextHandle == old(view.canvas.nextHandle) + 1
                && view.layers == Layers(view.canvas.objects)
                && view.history.Model() == Committed(old(view.history.Model()), view.serialize(view.canvas.objects))
    {
      if clipboard.None? {
        return;
      }
      var cloned := Pasted(clipboard.value);
      var placed := view.AddActive(cloned);
      clipboard := Some(placed);
    }

    /** handleDelete: the active object leaves the canvas, the selection ends, and it is committed. */
    method HandleDelete()
      requires Valid()
      modifies view`layers, view.canvas`objects, view.canvas`active, view.history
      ensures Valid()
      ensures Removed(false)
    {
      if view.canvas.active.Some? {
        view.canvas.RemoveActive();
        view.ObjectsChanged();
      }
    }

    /** handleCut: copy, then delete. */
    method HandleCut()
      requires Valid()
      modifies this`clipboard, view`layers, view.canvas`objects, view.canvas`active, view.history
      ensures Valid()
      ensures Removed(true)
    {
      HandleCopy();
      HandleDelete();
    }

    /**
     * handleApplyFilter: only when the selection is an image, its filter list becomes
     * FiltersAfter(list, name, value); no other object changes.
     */
    method HandleApplyFilter(name: string, value: Option<real>)
      requires Valid()
      modifies view.canvas`objects
      ensures Valid()
      ensures var a := view.canvas.active; var objs := old(view.canvas.objects);
              if a.Some? && objs[a.value].kind == ImageKind
              then view.canvas.objects == objs[a.value := objs[a.value].(filters := FiltersAfter(objs[a.value].filters, name, value))]
              else view.canvas.objects == objs
    {
      var a := view.canvas.active;
      if a.None? || view.canvas.objects[a.value].kind != ImageKind {
        return;
      }
      var img := view.canvas.objects[a.value];
      var filters := img.filters;
      if name == "Reset" {
        filters := [];
      } else {
        var filter := NewFilter(name, value);
        if filter.Some? {
          filters := Without(filters, filter.value.kind);
          filters := filters + [filter.value];
        }
      }
      view.canvas.objects := view.canvas.objects[a.value := img.(filters := filters)];
    }

    /** toggleVisibility: flip the visibility of the first object with that id; the layer rows are not refreshed. */
    method ToggleVisibility(id: string)
      requires Valid()
      modifies view.canvas`objects
      ensures Valid()
      ensures var objs := old(view.canvas.objects); var k := FindById(objs, id);
              view.canvas.objects == if k.None? then objs else objs[k.value := VisibilityToggled(objs[k.value])]
    {
      var k := FindById(view.canvas.objects, id);
      if k.Some? {
        view.canvas.objects := view.canvas.objects[k.value := VisibilityToggled(view.canvas.objects[k.value])];
      }
    }

    /** toggleLock: flip the locks of the first object with that id; the layer rows are not refreshed. */
    method ToggleLock(id: string)
      requires Valid()
      modifies view.canvas`objects
      ensures Valid()
      ensures var objs := old(view.canvas.objects); var k := FindById(objs, id);
              view.canvas.objects == if k.None? then objs else objs[k.value := LockToggled(objs[k.value])]
    {
      var k := FindById(view.canvas.objects, id);
      if k.Some? {
        view.canvas.objects := view.canvas.objects[k.value := LockToggled(view.canvas.objects[k.value])];
      }
    }

    /** selectLayer: the first object with that id becomes the active object. */
    method SelectLayer(id: string)
      requires Valid()
      modifies view.canvas`active
      ensures Valid()
      ensures var k := FindById(view.canvas.objects, id);
              view.canvas.active == if k.None? then old(view.canvas.active) else k
    {
      var k := FindById(view.canvas.objects, id);
      if k.Some? {
        view.canvas.active := k;
      }
    }

    /** An arrow key: the active object moves by delta along the axis, then the canvas is committed. */
    method HandleNudge(axis: Axis, delta: int)
      requires Valid()
      modifies view.canvas`objects, view.history
      ensures Valid()
      ensures view.canvas.active.None? ==> unchanged(view.canvas, view.history)
      ensures view.canvas.active.Some? ==>
                var i := view.canvas.active.value;
                && view.canvas.objects == old(view.canvas.objects)[i := Nudged(old(view.canvas.objects)[i], axis, delta)]
                && view.history.Model() == Committed(old(view.history.Model()), view.serialize(view.canvas.objects))
    {
      var a := view.canvas.active;
      if a.Some? {
        view.canvas.objects := view.canvas.objects[a.value := Nudged(view.canvas.objects[a.value], axis, delta)];
        view.StateChanged();
      }
    }

    /** A tool letter, '[' or ']': the tool or the stroke width prop changes and the tool effect re-runs. */
    method HandlePropsKey(command: Command)
      requires Valid() && (command.ChooseTool? || command.Narrow? || command.Widen?)
      modifies this`tool, this`strokeWidth, view`tool, view`color, view`strokeWidth,
               view.canvas`drawingMode, view.canvas`brush
      ensures Valid()
      ensures command.ChooseTool? ==> PropsChanged(command.tool, old(strokeWidth))
      ensures command.Narrow? ==> PropsChanged(old(tool), NarrowedWidth(old(strokeWidth)))
      ensures command.Widen? ==> PropsChanged(old(tool), WidenedWidth(old(strokeWidth)))
    {
      match command {
        case ChooseTool(t) => SetTool(t);
        case Narrow => SetStrokeWidth(NarrowedWidth(strokeWidth));
        case Widen => SetStrokeWidth(WidenedWidth(strokeWidth));
      }
    }

    /**
     * What each key command does to the editor, in the terms of the handler it runs: every
     * command states the whole new state, the empty-selection and empty-clipboard cases
     * included. `restore` is the snapshot to load after an undo or redo.
     */
    twostate predicate KeyHandled(command: Command, new restore: Option<string>)
      requires old(Valid())
      reads this, view, view.canvas, view.history
    {
      match command
      // Undo and redo step the history and touch nothing else.
      case Undo =>
        && Step(view.history.Model(), restore) == Undone(old(view.history.Model()))
        && unchanged(this, view, view.canvas)
      case Redo =>
        && Step(view.history.Model(), restore) == Redone(old(view.history.Model()))
        && unchanged(this, view, view.canvas)
      // Copy: only the clipboard may change.
      case Copy =>
        && restore == None
        && unchanged(this`tool, this`strokeWidth, view, view.canvas, view.history)
        && clipboard == if old(view.canvas.active).None? then old(clipboard)
                        else Some(Cloned(old(view.canvas.objects)[old(view.canvas.active).value]))
      // Paste: nothing with an empty clipboard; otherwise the shifted copy is added on top,
      // selected, kept as the clipboard, listed and committed.
      case Paste =>
        && restore == None
        && (old(clipboard).None? ==> unchanged(this, view, view.canvas, view.history))
        && (old(clipboard).Some? ==>
              var placed := Pasted(old(clipboard).value).(handle := old(view.canvas.nextHandle));
              && unchanged(this`tool, this`strokeWidth, view`tool, view`color, view`strokeWidth)
              && unchanged(view.canvas`drawingMode, view.canvas`brush)
              && view.canvas.objects == old(view.canvas.objects) + [placed]
              && view.canvas.active == Some(|old(view.canvas.objects)|)
              && view.canvas.nextHandle == old(view.canvas.nextHandle) + 1
              && clipboard == Some(placed)
              && view.layers == Layers(view.canvas.objects)
              && view.history.Model() == Committed(old(view.history.Model()), view.serialize(view.canvas.objects)))
      // Cut and Delete: nothing without a selection; otherwise the selection is removed,
      // the rows refreshed and the canvas committed; Cut also fills the clipboard.
      case Cut => restore == None && Removed(true)
      case Delete => restore == None && Removed(false)
      // Arrows: nothing without a selection; otherwise the selection moves and is committed.
      case Nudge(axis, delta) =>
        && restore == None
        && (old(view.canvas.active).None? ==> unchanged(this, view, view.canvas, view.history))
        && (old(view.canvas.active).Some? ==>
              var i := old(view.canvas.active).value;
              && unchanged(this, view)
              && unchanged(view.canvas`active, view.canvas`drawingMode, view.canvas`brush, view.canvas`nextHandle)
              && view.canvas.objects == old(view.canvas.objects)[i := Nudged(old(view.canvas.objects)[i], axis, delta)]
              && view.history.Model() == Committed(old(view.history.Model()), view.serialize(view.canvas.objects)))
      // Tool letters and '[' / ']': only the props and the brush they configure change.
      case ChooseTool(t) => restore == None && PropsChanged(t, old(strokeWidth))
      case Narrow => restore == None && PropsChanged(old(tool), NarrowedWidth(old(strokeWidth)))
      case Widen => restore == None && PropsChanged(old(tool), WidenedWidth(old(strokeWidth)))
      // Shortcuts outside the model, and keys with no binding, change nothing.
      case SelectAll => restore == None && unchanged(this, view, view.canvas, view.history)
      case Export => restore == None && unchanged(this, view, view.canvas, view.history)
      case ZoomIn => restore == None && unchanged(this, view, view.canvas, view.history)
      case ZoomOut => restore == None && unchanged(this, view, view.canvas, view.history)
      case ResetZoom => restore == None && unchanged(this, view, view.canvas, view.history)
      case Ignore => restore == None && unchanged(this, view, view.canvas, view.history)
    }

    /** The new state after handleDelete, or after handleCut when `cut` holds. */
    twostate predicate Removed(cut: bool)
      requires old(Valid())
      reads this, view, view.canvas, view.history
    {
      && (old(view.canvas.active).None? ==> unchanged(this, view, view.canvas, view.history))
      && (old(view.canvas.active).Some? ==>
            var i := old(view.canvas.active).value;
            && unchanged(this`tool, this`strokeWidth, view`tool, view`color, view`strokeWidth)
            && unchanged(view.canvas`drawingMode, view.canvas`brush, view.canvas`nextHandle)
            && clipboard == (if cut then Some(Cloned(old(view.canvas.objects[i]))) else old(clipboard))
            && view.canvas.objects == old(view.canvas.objects[..i] + view.canvas.objects[i + 1..])
            && view.canvas.active == None
            && view.layers == Layers(view.canvas.objects)
            && view.history.Model() == Committed(old(view.history.Model()), view.serialize(view.canvas.objects)))
    }

    /** The new state after setActiveTool or setStrokeWidth: the props become (t, w) and the tool effect re-runs. */
    twostate predicate PropsChanged(t: ToolType, w: int)
      requires old(Valid())
      reads this, view, view.canvas, view.history
    {
      && tool == t && strokeWidth == w
      && unchanged(this`clipboard, view`layers, view.history)
      && unchanged(view.canvas`objects, view.canvas`active, view.canvas`nextHandle)
      && view.tool == tool && view.color == color && view.strokeWidth == strokeWidth
      && view.canvas.drawingMode == DrawingMode(tool)
      && view.canvas.brush == if DrawingMode(tool) then BrushFor(tool, color, strokeWidth) else old(view.canvas.brush)
    }

    /** The body of handleKeyDown's switch: the handler the command names runs. */
    method Perform(command: Command) returns (restore: Option<string>)
      requires Valid()
      modifies this`tool, this`strokeWidth, this`clipboard, view`tool, view`color, view`strokeWidth,
               view`layers, view.canvas, view.history
      ensures Valid()
      ensures KeyHandled(command, restore)
    {
      restore := None;
      match command {
        case Undo => restore := HandleUndo();
        case Redo => restore := HandleRedo();
        case Copy => HandleCopy();
        case Paste => HandlePaste();
        case Cut => HandleCut();
        case ChooseTool(_) => HandlePropsKey(command);
        case Narrow => HandlePropsKey(command);
        case Widen => HandlePropsKey(command);
        case Delete => HandleDelete();
        case Nudge(axis, delta) => HandleNudge(axis, delta);
        case SelectAll =>
        case Export =>
        case ZoomIn =>
        case ZoomOut =>
        case ResetZoom =>
        case Ignore =>
      }
    }

    /**
     * handleKeyDown: dispatch the key, then run the matching handler. The snapshot to load
     * after an undo or redo is handed back in `restore`.
     */
    method HandleKeyDown(key: string, ctrl: bool, shift: bool, typing: bool)
      returns (command: Command, restore: Option<string>)
      requires Valid()
      modifies this`tool, this`strokeWidth, this`clipboard, view`tool, view`color, view`strokeWidth,
               view`layers, view.canvas, view.history
      ensures Valid()
      ensures command == Dispatch(key, ctrl, shift, typing)
      ensures KeyHandled(command, restore)
    {
      command := Dispatch(key, ctrl, shift, typing);
      restore := Perform(command);
    }
  }
}
