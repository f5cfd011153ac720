# PixelCraft Pro editor core, modelled in Dafny

PixelCraft Pro is a browser image editor: a React front end over the fabric.js canvas
library. This project models the logic the repository itself implements, over an abstract
scene that stands in for fabric:

- the bounded linear undo/redo history of canvas snapshots (`UndoHistory`);
- the Canvas component: the layer-panel projection, drawing-mode and brush set-up, and the
  pointer tool logic with its rectangle drag (`CanvasView`);
- the App component's command handlers: copy, paste, cut, delete, image filters, the layer
  panel's visibility, lock and selection, and the keyboard shortcuts (`Editor`).

`Scene` holds the data: the `ToolType` and `Layer` shapes of `src/types.ts`, canvas objects
as value records, and `Scene.Canvas`, the shared fabric canvas (its objects back to front,
the active object, drawing mode and brush). Each object carries a `handle` standing for its
JavaScript identity, so a drag resizes the object it created even when other objects come
and go. A snapshot is an opaque string. The Canvas and App components receive fabric's
serialiser as the function `serialize`.

Files: `option.dfy` (`Wrappers.Option`), `scene.dfy`, `history.dfy`, `canvas_view.dfy`,
`editor.dfy`.

The history is a `History` class with two cells, `entries: seq<string>` and `index: int`.
Its methods are proved against the value-level functions `Committed`, `Undone` and
`Redone`, and the properties of the history are lemmas about those functions. The Canvas
component (`CanvasView.View`) and the App component (`Editor.Editor`) are classes over the
shared canvas. Each method states the whole new state in terms of pure functions:
`Layers`, `Dragged`, `FiltersAfter`, `Pasted`, `Nudged`, `FindById` and `Dispatch`; the
key handlers' new state is spelled out once, in the two-state predicates `KeyHandled`,
`Removed` and `PropsChanged`. Lemmas
state what those functions promise.

Behaviour of the code that the model keeps:
- Adding an object commits it through the `object:added` listener. Moving and releasing
  the pointer commit nothing. So after a rectangle drag the newest snapshot holds the
  rectangle at its initial 2 by 2 size.
- A zero-size drag is kept. A paste copies the `id` of the clipboard object. Undo and redo
  act whenever the index allows, even while an earlier restore is still loading.
- No code gives an object an `id`, so every layer row shows the fallback `layer-<i>`, and
  the panel's visibility, lock and select buttons look up `o.id === id`, find nothing and
  change nothing (`PanelLookupMisses`). Were an id present, the lookups would act on it.
- Copy and paste go through fabric's clone, which does not carry the lock flags: the copy of
  a locked object is unlocked.
- Toggling visibility or lock does not refresh the layer rows.
  `setLayers([...layers])` copies the old rows, so `View.layers` stays as it was.

## Model

| member | source | states |
|---|---|---|
| `UndoHistory.Committed` | src/App.tsx:39-47 | a commit keeps the history invariant (empty with index -1, or 0 ≤ index < length ≤ 50), leaves a non-empty list, and puts the index on the new snapshot, which is last |
| `UndoHistory.ListenerCommitted` | src/components/Canvas.tsx:51-58 | as written, the add/remove listeners commit with the first render's saveState, which is a commit onto the empty initial history, so only the new snapshot is kept |
| `UndoHistory.ListenerCommitLosesUndo` | src/App.tsx:39-50 | after two listener commits undo has nothing to restore, while two commits onto the current history let undo restore the first snapshot |
| `UndoHistory.Undone` | src/App.tsx:49-58 | undo keeps the invariant and the list; it acts exactly when index > 0, then the index drops by one and the entry there is restored; otherwise nothing changes |
| `UndoHistory.Redone` | src/App.tsx:60-69 | redo keeps the invariant and the list; it acts exactly when index < length−1, then the index rises by one and the entry there is restored; otherwise nothing changes |
| `UndoHistory.CommitKeepsPrefix` | src/App.tsx:42-44 | a commit keeps exactly the entries up to the index, in order, then the snapshot; only at index 49, where keeping all would make 51, is the oldest evicted, and then the length is 50 |
| `UndoHistory.RedoAfterCommitIsNoOp` | src/App.tsx:42-46 | right after a commit redo restores nothing and changes nothing: the redo branch is gone |
| `UndoHistory.UndoAfterCommit` | src/App.tsx:42-57 | undo right after a commit restores the snapshot that was current before the commit, with or without eviction |
| `UndoHistory.RedoAfterUndo` | src/App.tsx:49-68 | redo after a successful undo returns to the same list and index and restores the entry undo left |
| `UndoHistory.UndoAfterRedo` | src/App.tsx:49-68 | undo after a successful redo returns to the same list and index |
| `UndoHistory.History.constructor` | src/App.tsx:18-19 | the history starts empty with index -1 |
| `UndoHistory.History.SaveState` | src/App.tsx:39-47 | slice/push/shift on the two cells yields exactly `Committed` of the old state and keeps the invariant |
| `UndoHistory.History.Undo` | src/App.tsx:49-58 | moves the cells and returns the snapshot to load exactly as `Undone` says |
| `UndoHistory.History.Redo` | src/App.tsx:60-69 | moves the cells and returns the snapshot to load exactly as `Redone` says |
| `CanvasView.LayersAt` | src/components/Canvas.tsx:40-48 | one row per object, front-most first: row j shows the object at position i = n−1−j, its visible flag, lockMovementX as `locked`, its type, and `layer-<i>` / `<type> <i+1>` for a missing or empty id / name |
| `CanvasView.LayersAfterAdd` | src/components/Canvas.tsx:40-48 | an object added on top becomes the first row and all other rows are unchanged |
| `CanvasView.BrushFor` | src/components/Canvas.tsx:86-91 | a brush is installed exactly for brush and eraser; its width is the stroke width and its colour white for the eraser, the current colour otherwise |
| `CanvasView.RectBox` | src/components/Canvas.tsx:138-144 | the drag rectangle has non-negative size and its horizontal and vertical edges are exactly the anchor's and the pointer's coordinates |
| `CanvasView.RectBoxUnique` | src/components/Canvas.tsx:138-144 | any box of non-negative size with edges on the two points is `RectBox`, so the box is fully determined |
| `CanvasView.RectBoxSymmetric` | src/components/Canvas.tsx:138-144 | the box does not depend on drag direction |
| `CanvasView.Follow` | src/components/Canvas.tsx:136-152 | one move listener resizes only its own rectangle, to the box from the anchor; no other object changes; identities are kept |
| `CanvasView.Dragged` | src/components/Canvas.tsx:136-152 | all registered move listeners together change no object that no drag targets and keep every identity and the object count |
| `CanvasView.DraggedOne` | src/components/Canvas.tsx:136-152 | with one rectangle drag a move sets exactly the target's box and leaves every other object as it was |
| `CanvasView.DraggedLast` | src/components/Canvas.tsx:136-152 | with any registered drags, a rectangle ends with the box of the last rectangle drag that targets it |
| `CanvasView.View.constructor` | src/components/Canvas.tsx:27-38 | mounting creates an empty canvas with no drag listeners and runs the tool effect for the initial props |
| `CanvasView.View.StateChanged` | src/App.tsx:39-47 | onStateChange (App's saveState) commits the serialised canvas, as `Committed` says |
| `CanvasView.View.AddActive` | src/components/Canvas.tsx:132-134 | the object goes on top as a new identity, becomes active, the layer rows are refreshed and the canvas is committed |
| `CanvasView.View.ObjectsChanged` | src/components/Canvas.tsx:51-58 | the add/remove listener sets the layer rows to `Layers` of the canvas and commits the serialised canvas |
| `CanvasView.View.Configure` | src/components/Canvas.tsx:82-92 | drawing mode is on exactly for brush and eraser; the brush is replaced only in drawing mode |
| `CanvasView.View.MouseDown` | src/components/Canvas.tsx:95-162 | select, brush, eraser and crop add nothing, start no drag and use no new object number; text adds one selected text object at the pointer and no drag; rectangle (2×2) and circle (radius 1) add one selected object at the pointer with the next object number, commit it, and register one drag anchored at the pointer on that object |
| `CanvasView.View.MouseMove` | src/components/Canvas.tsx:136-152 | the objects become `Dragged` of the old ones; with no drag registered nothing changes |
| `CanvasView.View.MouseUp` | src/components/Canvas.tsx:154-157 | pointer-up removes all drag listeners, so the tool machine is idle |
| `Editor.Without` | src/App.tsx:214 | the kept filters are exactly those of other types, taken from the list |
| `Editor.NewFilter` | src/App.tsx:202-210 | exactly the six known names build a filter, and each builds the filter type of its own name (`KindName` gives the name of each type); the adjustable three use the value, or 0.1 when it is absent or 0 |
| `Editor.FiltersAfter` | src/App.tsx:199-217 | 'Reset' empties the list and an unknown name leaves it unchanged |
| `Editor.KnownFilterReplaces` | src/App.tsx:212-216 | a known name leaves exactly one filter of its type, placed last, with the other filters in their old relative order |
| `Editor.FilterIdempotent` | src/App.tsx:199-216 | applying the same filter command twice equals applying it once |
| `Editor.Cloned` | src/App.tsx:76 | fabric's clone with id, name and `locked` comes back with every lock flag cleared and every other property kept |
| `Editor.Pasted` | src/App.tsx:83-89 | the copy is a clone at (left+20, top+20), an absent coordinate read as 0: it is unlocked, and every other property, the id included, equals the original's |
| `Editor.PasteCascade` | src/App.tsx:83-99 | after n pastes the copy sits 20n right of and below the original and keeps its id |
| `Editor.FindById` | src/App.tsx:376 | the result is the first position whose id equals the argument, and it is absent exactly when no object has that id |
| `Editor.PanelLookupMisses` | src/components/Canvas.tsx:42 | when no object has an id, row j shows `layer-<i>` and looking that id up finds no object, so the panel's visibility, lock and select buttons change nothing |
| `Editor.VisibilityToggled` | src/App.tsx:378 | only the visible flag changes, and it flips |
| `Editor.LockToggled` | src/App.tsx:388-395 | all five lock flags become the negation of lockMovementX; nothing else changes |
| `Editor.LockToggledTwice` | src/App.tsx:388-395 | toggling twice sets every lock flag to the original lockMovementX |
| `Editor.Lower` | src/App.tsx:418 | the key is lower-cased letter by letter and keeps its length |
| `Editor.ToolKey` | src/App.tsx:471-477 | v, b, r, c, t, e and k select select, brush, rectangle, circle, text, eraser and crop; each tool has exactly one letter |
| `Editor.NarrowedWidth` | src/App.tsx:478-480 | '[' gives at least 1, one less or 1; a width in [1,100] stays in [1,100] and drops by at most 1 |
| `Editor.WidenedWidth` | src/App.tsx:481-483 | ']' gives at most 100, one more or 100; a width in [1,100] stays in [1,100] and rises by at most 1 |
| `Editor.Dispatch` | src/App.tsx:411-517 | nothing while typing; with Ctrl, z gives undo (redo with Shift), y redo, c copy, v paste, x cut, a select-all, s export, = or + zoom in, - zoom out, 0 reset zoom, any other key nothing; without Ctrl, exactly the tool letters choose their tool, [ narrows, ] widens, Delete and Backspace delete, ArrowLeft/ArrowUp move left/top by minus the step and ArrowRight/ArrowDown by plus the step (10 with Shift, 1 without), any other key nothing; and conversely each command arises only from its keys |
| `Editor.Nudged` | src/App.tsx:488-515 | an arrow moves left (horizontal) or top (vertical) by the step, an absent coordinate read as 0, and changes nothing else |
| `Editor.NudgeBack` | src/App.tsx:488-515 | nudging one way and then back restores the object, once the moved coordinate is present |
| `Editor.Editor.constructor` | src/App.tsx:11-28 | the editor starts with the select tool, colour #0078d4, width 5, an empty clipboard and canvas, and one committed snapshot of the empty canvas at index 0 |
| `Editor.Editor.SetTool` | src/App.tsx:471-477 | the tool changes and the tool effect re-runs: drawing mode follows the new tool |
| `Editor.Editor.SetStrokeWidth` | src/App.tsx:478-483 | the width changes and, in drawing mode, the brush takes it |
| `Editor.Editor.HandleUndo` | src/App.tsx:49-58 | the history steps as `Undone` and the snapshot to load is returned |
| `Editor.Editor.HandleRedo` | src/App.tsx:60-69 | the history steps as `Redone` and the snapshot to load is returned |
| `Editor.Editor.HandleCopy` | src/App.tsx:72-79 | the clipboard takes an unlocked clone (`Cloned`) of the active object, or stays as it was without one |
| `Editor.Editor.HandlePaste` | src/App.tsx:81-103 | with an empty clipboard nothing changes; otherwise the shifted copy goes on top as a new object, becomes active and the clipboard content, the layer rows are refreshed and one commit is made |
| `Editor.Editor.HandleDelete` | src/App.tsx:127-133 | `Removed(false)`: without a selection nothing changes; otherwise the active object is removed, the selection ends, the layer rows are refreshed and the canvas is committed, and the clipboard, props, brush and drawing mode stay |
| `Editor.Editor.HandleCut` | src/App.tsx:105-108 | `Removed(true)`: without a selection nothing changes; otherwise the clipboard takes the unlocked clone of the active object, which is removed, the selection ends, the layer rows are refreshed and the canvas is committed |
| `Editor.Editor.HandlePropsKey` | src/App.tsx:471-483 | a tool letter sets the tool, '[' and ']' set the width to `NarrowedWidth` / `WidenedWidth` of the old width, and the tool effect re-runs (`PropsChanged`): drawing mode and brush follow, while objects, selection, clipboard, rows and history stay |
| `Editor.Editor.HandleApplyFilter` | src/App.tsx:195-221 | only an active image changes, and its filter list becomes `FiltersAfter`; every other object, and everything without an image selected, stays as it was |
| `Editor.Editor.ToggleVisibility` | src/App.tsx:375-383 | the first object with that id has its visibility flipped, and nothing else changes; with no such object nothing changes |
| `Editor.Editor.ToggleLock` | src/App.tsx:385-399 | the first object with that id has its locks toggled, and nothing else changes; with no such object nothing changes |
| `Editor.Editor.SelectLayer` | src/App.tsx:401-407 | the first object with that id becomes active; with none the selection stays |
| `Editor.Editor.HandleNudge` | src/App.tsx:488-515 | with a selection the active object is nudged and the canvas committed; otherwise nothing changes |
| `Editor.Editor.HandleKeyDown` | src/App.tsx:410-522 | the command is `Dispatch` of the key, and the new state is `KeyHandled` of it |
| `Editor.Editor.Perform` | src/App.tsx:417-515 | `KeyHandled`: undo/redo step the history and change nothing else; copy changes only the clipboard; paste does nothing with an empty clipboard and otherwise adds, selects, lists and commits the shifted copy; cut and delete are `Removed`; arrows do nothing without a selection and otherwise move it and commit; tool and width keys are `PropsChanged`; select-all, export, zoom and unbound keys change nothing |

## Left out

- Restoring the canvas from a snapshot (fabric's `loadFromJSON`) and the asynchronous ordering around it. `HandleUndo` and `HandleRedo` move the index and return the snapshot to load. The canvas objects stay as they were in the model.
- fabric's serialiser (`toJSON`) is the parameter `serialize`. What it keeps or drops from an object is not modelled.
- Editor.Editor.HandlePaste: commits once, onto the current history. In the source the `object:added` listener also commits, through the first render's saveState (see Findings), before the explicit `saveState` commits the same canvas.
- Editor.Editor.HandlePaste: the clipboard keeps a value copy of the pasted object. In the source it is the very object placed on the canvas, so later in-place edits of it (a nudge, a filter) also reach the clipboard.
- Pasting a multi-object `ActiveSelection`, and Ctrl+A select-all: these depend on fabric's group semantics. `HandleKeyDown` changes nothing for Ctrl+A.
- Zoom (Ctrl+=/+/-/0), container-fit resize and PNG export. They use floating-point arithmetic, DOM sizes and browser I/O, and `HandleKeyDown` changes nothing for their keys.
- CanvasView.Follow: the circle radius is not updated. A circle drag leaves the circle unchanged, because the source computes the radius with `Math.sqrt`.
- Coordinates are unbounded reals, with no floating-point rounding. `NaN` is not modelled in `value || 0.1` or `left || 0`.
- Editor.Lower: lower-cases only ASCII letters. JavaScript's `toLowerCase` also folds other scripts, but no shortcut key depends on them.
- The canvas-not-mounted guards (`if (!canvasRef.current) return`). The model starts after mount, with the canvas always present.
- The React selection mirror (`selection:created/updated/cleared` → `selectedObject`) is the canvas's active object. The two are assumed to agree.
- The `object:modified` listener. Its commits follow transforms made with fabric's own handles, which belong to fabric.
- React stale closures and effect re-binding, apart from the canvas listeners under Findings. Each other handler is one atomic step on the current state.
- The background-colour effect (src/App.tsx:30-36) is driven by the Sidebar colour picker. Colour changes are not modelled.
- The Gemini background removal and "AI Magic Edit" (src/App.tsx:223-276, 324-373) are network calls to an external API.
- Image upload (FileReader), the clear-canvas confirm dialog, and the Elements tab's preset shapes (`handleAddElement`, src/App.tsx:278-322) are browser I/O or fixed fabric shape data.
- src/components/Sidebar.tsx, TopBar.tsx and Toolbar.tsx are JSX layout and button wiring only.

## Findings

| source | as written | input that shows it | evidently intended | confidence | as-written member | corrected member |
|---|---|---|---|---|---|---|
| src/components/Canvas.tsx:51-58 | the `object:added` / `object:removed` listeners are registered once at mount (effect dependencies `[]`, line 80) and call the first render's `onStateChange`, whose `history` is `[]` and `historyIndex` is -1 (src/App.tsx:18-19, 42); every add or remove replaces the history with the one new snapshot | draw a rectangle, draw a second one, press Ctrl+Z: the history is `[second]` at index 0, so undo does nothing | the add or remove is committed onto the current history, so undo restores the canvas with only the first rectangle | not executed; high | `UndoHistory.ListenerCommitted`, `UndoHistory.ListenerCommitLosesUndo` | `CanvasView.View.ObjectsChanged` (commits with `UndoHistory.Committed`; `UndoHistory.UndoAfterCommit`) |
