# Whiteboard undo/redo history and size input, in Dafny

This project models two parts of a browser whiteboard written in React and
TypeScript on top of the fabric.js graphics library.

**The canvas history engine** (`canvas.dfy`, module `CanvasHistory`). The
`Canvas` class holds the component's `history` and `redoStack` arrays and the
library canvas (`fabric`). The canvas is `None` until the mount effect creates
it. After that it holds the list of live objects. Each object has an optional
string `id` and a property bag, which is its `toObject()` serialisation, with
the type tag under `"type"`.
- The three library event hooks (`object:added`, `object:removed`,
  `object:modified`) call `saveState`. It appends one change record and empties
  the redo stack.
- `Undo` and `Redo` move one record between the two stacks. Each applies that
  record's inverse or forward effect: remove the first object with the
  recorded id, re-create an object from the recorded snapshot, or overwrite
  the object's properties with a recorded bag.

Every method of the class except `Mount` is proved equal to a function on
`BoardState`: `Saved`, `Undone`, `Redone`, `AddedHook`, `RemovedHook` or
`ModifiedHook`. `Mount` states its new state directly.
The lemmas in `canvas_lemmas.dfy` (module `CanvasLemmas`) are proved about
those functions.

The model follows the code as written. Three behaviours of undo and redo
differ from giving back the state before the edit:
- **A re-created object does not get its recorded id back.** Undo of a
  remove and redo of an add build the object from its snapshot only.
  `toObject()` does not serialise the custom `id` property, so the copy gets
  no id from the snapshot. In the running program, adding the copy fires
  `object:added`, whose hook gives it a new, different `obj_<time>` id. Either
  way the recorded id no longer resolves to it. The model leaves that re-entry
  out (see "Left out"), so in the model the copy has no id.
- Under that no-re-entry assumption, a later redo of that remove, or a later
  undo of that add, cannot find the copy and leaves it on the surface.
  `RemoveUndoRedoLeavesObject` and `AddUndoRedoUndoLeavesObject` prove this.
  In the running program, the re-entry also empties the redo stack during the
  undo itself, so that redo is not available there.
- **Undo of a modify does not restore the earlier properties.** The modify
  hook reads `objectState` and `modifiedState` from the same object after the
  edit. Undo applies `modifiedState` and redo applies `objectState`, so
  neither brings back the properties from before the edit.
  `ModifyUndoRedoKeepsSurface` proves this.
- The modify hook also fires for a target that is not on the surface, such
  as a moved multi-object selection, which has no id. Its record's
  `objectId` is then undefined. In the running program every live object
  has an id, because the `object:added` hook gives one to each, so the undo
  of that record finds nothing and changes nothing. Under the model's
  no-re-entry assumption, re-created copies have no id, and the undo then
  applies the selection's properties to the first live object without an
  id. `ModifyOfIdlessTargetHitsFirstIdless` proves this.

**The size input and tool panel** (`edit_tools.dfy`, module `EditTools`).
- The pencil and eraser size inputs strip leading zeros, convert the text
  with JavaScript's `Number` and accept a value only in [1, 20]. On blur they
  clamp a value below 1 to 1 and a value above 20 to 20.
- `Number` is a parameter of type `string -> Option<real>`, where `None` is
  NaN. A handler's `Some(v)` result is a call of the size setter with `v`.
  `None` means the setter is not called.

`Wrappers` (`wrappers.dfy`) holds the `Option` type. It stands for `null` and
`undefined` throughout.

## Model

| member | source | states |
|---|---|---|
| `CanvasHistory.IndexOfId` | src/components/Canvas.tsx:50 | the position returned holds an object with the given id and no earlier object has it; `None` exactly when no object has it |
| `CanvasHistory.FindObjectById` | src/components/Canvas.tsx:47-51 | `None` when there is no canvas; otherwise the first object whose id equals the argument, and `None` only if none does |
| `CanvasHistory.CreateFabricObject` | src/components/Canvas.tsx:54-77 | an object is produced exactly for the type tags circle, rect, triangle, path and i-text; it carries the snapshot's properties and no id |
| `CanvasHistory.RemoveById` | src/components/Canvas.tsx:346-347 | an unresolved id leaves the surface unchanged; otherwise exactly the first object with that id is removed, and the others are kept in their order |
| `CanvasHistory.AddFromSnapshot` | src/components/Canvas.tsx:350-351 | a recreatable snapshot adds one object at the top, with no id and the snapshot's properties, and keeps the rest; an unknown type tag adds nothing |
| `CanvasHistory.SetById` | src/components/Canvas.tsx:354-358 | only the first object with the id changes; every key of the bag overwrites its property and its other properties and its id stay; an unresolved id changes nothing |
| `CanvasHistory.Saved` | src/components/Canvas.tsx:35-44 | exactly one record is appended at the end of `history`, earlier records are unchanged, the record holds the action, the object's id and its serialisation, `redoStack` becomes empty and the surface is untouched |
| `CanvasHistory.UndoEffect` | src/components/Canvas.tsx:344-362 | undo of an "add" removes the object the id resolves to and keeps the others in their order, and changes nothing when it does not resolve; of a "remove" appends the re-created snapshot when its type is known; of a "modify" merges `modifiedState` into the properties of the object the id resolves to and leaves every other object, and changes nothing when the id does not resolve or there is no `modifiedState`; any other action type changes nothing |
| `CanvasHistory.RedoEffect` | src/components/Canvas.tsx:372-390 | redo of an "add" appends the re-created snapshot when its type is known; of a "remove" removes the object the id resolves to and keeps the others in their order, and changes nothing when it does not resolve; of a "modify" merges `objectState` into the properties of the object the id resolves to and leaves every other object, or everything when the id does not resolve; any other action type changes nothing |
| `CanvasHistory.Undone` | src/components/Canvas.tsx:339-364 | with no canvas or an empty `history` nothing changes; otherwise the last record leaves `history` (the rest unchanged), is pushed unchanged onto `redoStack`, and its inverse effect is applied to the surface |
| `CanvasHistory.Redone` | src/components/Canvas.tsx:367-392 | with no canvas or an empty `redoStack` nothing changes; otherwise the last record leaves `redoStack`, is appended unchanged to `history`, and its forward effect is applied |
| `CanvasHistory.AddedHook` | src/components/Canvas.tsx:120-125 | a missing target changes nothing; otherwise the target alone gets the fresh id, an "add" record with that id and the target's properties is appended, and the redo stack is emptied |
| `CanvasHistory.RemovedHook` | src/components/Canvas.tsx:127-130 | a missing target changes nothing; otherwise a "remove" record with the target's id and properties is appended and the redo stack emptied |
| `CanvasHistory.ModifiedHook` | src/components/Canvas.tsx:132-135 | a missing target changes nothing; any other target, on the surface or not (a multi-object selection), appends a "modify" record with the target's id, whose `objectState` and `modifiedState` are the same bag, the target's current properties, and empties `redoStack` |
| `CanvasHistory.Canvas.constructor` | src/components/Canvas.tsx:31-32 | both stacks start empty and there is no library canvas yet |
| `CanvasHistory.Canvas.Mount` | src/components/Canvas.tsx:100-106 | the library canvas is created with no objects; the stacks are unchanged |
| `CanvasHistory.Canvas.SaveState` | src/components/Canvas.tsx:35-44 | `history` is the old one plus the new record, `redoStack` is empty, the surface is unchanged |
| `CanvasHistory.Canvas.Undo` | src/components/Canvas.tsx:339-364 | the new state is `Undone` of the old state |
| `CanvasHistory.Canvas.Redo` | src/components/Canvas.tsx:367-392 | the new state is `Redone` of the old state |
| `CanvasHistory.Canvas.ObjectAdded` | src/components/Canvas.tsx:120-125 | the new state is `AddedHook` of the old state |
| `CanvasHistory.Canvas.ObjectRemoved` | src/components/Canvas.tsx:127-130 | the new state is `RemovedHook` of the old state |
| `CanvasHistory.Canvas.ObjectModified` | src/components/Canvas.tsx:132-135 | for any event target, the new state is `ModifiedHook` of the old state |
| `CanvasLemmas.UndoThenRedoRestoresStacks` | src/components/Canvas.tsx:341-371 | undo then redo, with no edit between, restores `history` and `redoStack` exactly |
| `CanvasLemmas.RedoThenUndoRestoresStacks` | src/components/Canvas.tsx:341-371 | redo then undo, with no edit between, restores `history` and `redoStack` exactly |
| `CanvasLemmas.UndoRedoRepeatedRestoresStacks` | src/components/Canvas.tsx:339-392 | for every n up to the length of `history`, n undos followed by n redos restore both stacks exactly |
| `CanvasLemmas.UndoOfAdd` | src/components/Canvas.tsx:345-348 | undo of an add whose id does not resolve leaves the surface unchanged; otherwise it removes the first object with the id, and an id carried by at most one object no longer resolves |
| `CanvasLemmas.UndoOfUnresolvedModify` | src/components/Canvas.tsx:353-359 | undo of a modify whose id does not resolve leaves the surface unchanged |
| `CanvasLemmas.AddThenUndoRemovesTarget` | src/components/Canvas.tsx:120-125 | a fresh id given by the add hook resolves to the target, and undoing that add removes exactly the target and restores `history` |
| `CanvasLemmas.ModifyUndoRedoKeepsSurface` | src/components/Canvas.tsx:132-135 | after the modify hook, undo and the redo after it both leave the surface as the edit left it: the earlier properties are not restored |
| `CanvasLemmas.ModifyOfIdlessTargetHitsFirstIdless` | src/components/Canvas.tsx:132-135 | a modify of a target without an id (a multi-object selection), once undone, merges the target's properties into the first live object without an id and leaves every other object as it was |
| `CanvasLemmas.RedoOfUnresolvedRemove` | src/components/Canvas.tsx:371-380 | redo of a "remove" whose id no longer resolves leaves the surface unchanged and moves the record back to `history` |
| `CanvasLemmas.RemoveUndoRedoLeavesObject` | src/components/Canvas.tsx:349-351 | undo of a remove appends a copy without an id, and the redo after it cannot find that copy, so it stays |
| `CanvasLemmas.AddUndoRedoUndoLeavesObject` | src/components/Canvas.tsx:373-375 | redo of an undone add appends a copy without an id, so a second undo of the same record leaves the surface unchanged |
| `CanvasLemmas.EditAfterUndoDiscardsRedo` | src/components/Canvas.tsx:42-43 | after one or more undos the redo stack is non-empty, and any new edit empties it |
| `EditTools.StripLeadingZeros` | src/components/EditTools.tsx:51 | the result is a suffix of the text, every character removed is '0', and the result does not start with '0' |
| `EditTools.StripLeadingZerosIdempotent` | src/components/EditTools.tsx:51 | stripping twice is the same as stripping once |
| `EditTools.StripLeadingZerosPrefix` | src/components/EditTools.tsx:51 | zeros put in front of any text are stripped together with the text's own leading zeros |
| `EditTools.HandleSizeChange` | src/components/EditTools.tsx:47-56 | the setter is called exactly when the stripped text converts to a number in [1, 20], and then with exactly that number; NaN and out-of-range values make no call |
| `EditTools.LeadingZerosIgnored` | src/components/EditTools.tsx:51-54 | prefixing any number of zeros to the input does not change what the change handler does |
| `EditTools.AllZerosRejected` | src/components/EditTools.tsx:51-55 | an input of zeros only becomes "" and, since `Number("")` is 0, is rejected |
| `EditTools.HandleSizeBlur` | src/components/EditTools.tsx:59-69 | the setter gets 1 exactly when the value is below 1 and 20 exactly when it is above 20; no call for in-range values or NaN |
| `EditTools.SizeStaysInRange` | src/components/EditTools.tsx:47-69 | a size in [1, 20] stays in [1, 20] after any change or blur |
| `EditTools.BlurAfterAcceptedChange` | src/components/EditTools.tsx:53-68 | a value the change handler accepted is not corrected by the blur handler, provided the text converts to the same number with or without its leading zeros |
| `EditTools.IsToolOptionsVisible` | src/components/EditTools.tsx:72 | true exactly for the tools pencil, eraser, shapes and line |

## Left out

- The library's own surface changes are not operations of the model: the
  add of a drawn or inserted object, its removal, the user's drag. The
  library makes them before it fires the hook. The hooks take the surface as
  the library left it, which is why `ObjectAdded` expects its target on the
  surface already.
- Events fired by the library inside undo and redo are not modelled. In the
  running program, `canvas.add` and `canvas.remove` inside undo and redo fire
  `object:added` and `object:removed` again. Those hooks would call
  `saveState`, append a spurious record and empty the redo stack. The model
  assumes they do not re-enter. It describes the history engine's own logic,
  not the library's event dispatch.
- React state updates are treated as immediate assignments. `history.pop()`
  and `redoStack.pop()` mutate the state arrays in place, and `setHistory` and
  `setRedoStack` replace them. Batching and re-rendering are not modelled.
- The id `obj_${Date.now()}` comes from the clock, so it is a caller-supplied
  `freshId`. Uniqueness over time is a hypothesis of the lemmas that need it.
- Objects are values located by their position on the surface. Aliasing
  between library object references is not modelled.
- The property bag is an opaque map. What `toObject()` puts in it, and the
  geometry, rendering, `renderAll`, brushes, cursors and drawing modes are
  library internals and left out.
- A "modify" record without a `modifiedState` is handled as a `set` that
  changes nothing. The hooks never produce such a record. The library would
  set a property literally named "undefined".
- `Number()` is a parameter. The model does not pin down how JavaScript
  parses numbers or produces infinities. The zeros-only lemma takes
  `Number("") == 0` as a hypothesis.
- The following are left out. None of them writes the history stacks
  itself. They reach the stacks only through the library's `object:added`
  and `object:removed` events. The hooks for those events are modelled
  (`AddedHook`, `RemovedHook`), and they are where the "add" and "remove"
  records come from.
  - panning, resizing and `redrawCanvas` (pixel coordinates and DOM
    listeners; `redrawCanvas` adds paths with `canvas.add`);
  - the Delete/Backspace key handler, which removes the selected objects
    with `canvas.remove`;
  - `clearAll`, which calls the library's `clear()` directly;
  - `addShape`, `addLine` and `addText`, which create library objects and add
    them with `canvas.add`. Their socket sends never happen, because the
    socket is never set.
- No inbound sync message handler exists in the code, so none is modelled.
- The chat panel, login, user badge, heading, action buttons and image export
  are view code with no history logic.
