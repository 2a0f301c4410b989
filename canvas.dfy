/**
  The undo/redo history of the whiteboard canvas component.

  The drawing surface is a list of objects. Each object may carry a string id
  and has a property bag: the serialisation the graphics library produces for
  it, including its type tag under the key "type". Every local edit appends a
  change record to `history` and empties `redoStack`. `Undo` and `Redo` move one
  record between the two stacks and apply its inverse or forward effect to the
  surface: remove by id, re-create from a snapshot, or overwrite properties.
*/
module CanvasHistory {
  import opened Wrappers

  /** A property value. Strings matter to the history engine (the type tag is
      one); every other JSON value is opaque to it. */
  datatype Value = Str(text: string) | Other(code: int)

  /** The property bag returned by the library's `toObject()`. */
  type Bag = map<string, Value>

  /** A live object on the surface. `id` is the custom property the canvas
      assigns when the object is first added; `toObject()` does not serialise
      it, so it is not part of `props`. */
  datatype Obj = Obj(id: Option<string>, props: Bag)

  /** One entry of `history` or `redoStack`. */
  datatype Record = Record(
    actionType: string,
    objectId: Option<string>,
    objectState: Bag,
    modifiedState: Option<Bag>)

  /** The component state the history engine reads and writes. `fabric` is
      the library canvas: `None` until it has been created, then its objects. */
  datatype BoardState = BoardState(
    history: seq<Record>,
    redoStack: seq<Record>,
    fabric: Option<seq<Obj>>)

  /** The object types that can be re-created from a snapshot. */
  const RecreatableTypes: set<string> := {"circle", "rect", "triangle", "path", "i-text"}

  /** The type tag of a snapshot, if it has a string one. */
  function TypeTag(bag: Bag): Option<string> {
    if "type" in bag && bag["type"].Str? then Some(bag["type"].text) else None
  }

  /** The library's `toObject()`: the object's serialised properties. */
  function ToObject(o: Obj): Bag {
    o.props
  }

  /** Position of the first object whose id equals `id`. */
  function IndexOfId(objects: seq<Obj>, id: Option<string>): (r: Option<nat>)
    ensures r.Some? ==> r.value < |objects| && objects[r.value].id == id
    ensures r.Some? ==> forall j :: 0 <= j < r.value ==> objects[j].id != id
    ensures r.None? <==> forall j :: 0 <= j < |objects| ==> objects[j].id != id
  {
    if |objects| == 0 then None
    else if objects[0].id == id then Some(0)
    else
      match IndexOfId(objects[1..], id)
      case None => None
      case Some(k) => Some(k + 1)
  }

  /** `findObjectById`: the first live object with the given id, given by its
      position on the surface; `None` when there is no canvas or no match. */
  function FindObjectById(fabric: Option<seq<Obj>>, id: Option<string>): (r: Option<nat>)
    ensures fabric.None? ==> r.None?
    ensures r.Some? ==> fabric.Some? && r.value < |fabric.value| && fabric.value[r.value].id == id
    ensures r.Some? ==> forall j :: 0 <= j < r.value ==> fabric.value[j].id != id
    ensures fabric.Some? && r.None? ==> forall j :: 0 <= j < |fabric.value| ==> fabric.value[j].id != id
  {
    match fabric
    case None => None
    case Some(objects) => IndexOfId(objects, id)
  }

  /** `createFabricObject`: rebuild an object from a snapshot. Only the five
      recreatable type tags give an object; it has the snapshot's properties
      and no id, because the snapshot does not hold one. */
  function CreateFabricObject(objectData: Bag): (r: Option<Obj>)
    ensures r.Some? <==> TypeTag(objectData).Some? && TypeTag(objectData).value in RecreatableTypes
    ensures r.Some? ==> r.value.id.None? && r.value.props == objectData
  {
    var tag := TypeTag(objectData);
    if tag == Some("circle") || tag == Some("rect") || tag == Some("triangle")
      || tag == Some("path") || tag == Some("i-text")
    then Some(Obj(None, objectData))
    else None
  }

  /** The library's `remove(obj)` for the object at position `i`. */
  function RemoveAt(objects: seq<Obj>, i: nat): (r: seq<Obj>)
    requires i < |objects|
    ensures |r| == |objects| - 1
    ensures forall j :: 0 <= j < i ==> r[j] == objects[j]
    ensures forall j :: i <= j < |r| ==> r[j] == objects[j + 1]
  {
    objects[..i] + objects[i + 1..]
  }

  /** Remove the first object with the given id, if there is one; the other
      objects keep their order. */
  function RemoveById(objects: seq<Obj>, id: Option<string>): (r: seq<Obj>)
    ensures IndexOfId(objects, id).None? ==> r == objects
    ensures IndexOfId(objects, id).Some? ==>
      |r| == |objects| - 1 && multiset(r) + multiset{objects[IndexOfId(objects, id).value]} == multiset(objects)
    ensures IndexOfId(objects, id).Some? ==>
      var i := IndexOfId(objects, id).value;
      (forall j :: 0 <= j < i ==> r[j] == objects[j]) &&
      (forall j :: i <= j < |r| ==> r[j] == objects[j + 1])
  {
    match IndexOfId(objects, id)
    case None => objects
    case Some(i) =>
      assert objects == objects[..i] + [objects[i]] + objects[i + 1..];
      RemoveAt(objects, i)
  }

  /** Re-create an object from a snapshot and add it at the top of the
      surface; nothing happens for an unknown type tag. */
  function AddFromSnapshot(objects: seq<Obj>, snapshot: Bag): (r: seq<Obj>)
    ensures CreateFabricObject(snapshot).None? ==> r == objects
    ensures CreateFabricObject(snapshot).Some? ==>
      |r| == |objects| + 1 && r[..|objects|] == objects && r[|objects|].id.None? && r[|objects|].props == snapshot
  {
    match CreateFabricObject(snapshot)
    case None => objects
    case Some(o) => objects + [o]
  }

  /** The library's `set(bag)` on the first object with the given id: every
      key of `bag` overwrites the object's property. A missing bag changes
      nothing. */
  function SetById(objects: seq<Obj>, id: Option<string>, bag: Option<Bag>): (r: seq<Obj>)
    ensures |r| == |objects|
    ensures IndexOfId(objects, id).None? || bag.None? ==> r == objects
    ensures forall j :: 0 <= j < |r| && Some(j) != IndexOfId(objects, id) ==> r[j] == objects[j]
    ensures IndexOfId(objects, id).Some? && bag.Some? ==>
      var i := IndexOfId(objects, id).value;
      r[i].id == objects[i].id && r[i].props.Keys == objects[i].props.Keys + bag.value.Keys &&
      (forall k :: k in bag.value ==> r[i].props[k] == bag.value[k]) &&
      (forall k :: k in objects[i].props && k !in bag.value ==> r[i].props[k] == objects[i].props[k])
  {
    match IndexOfId(objects, id)
    case None => objects
    case Some(i) =>
      match bag
      case None => objects
      case Some(b) => objects[i := objects[i].(props := objects[i].props + b)]
  }

  /** The inverse effect `undo` applies for a record: an "add" is taken off
      the surface, a "remove" is re-created from its snapshot, a "modify" has
      its recorded modified state applied again, and any other action leaves
      the surface alone. */
  function UndoEffect(rec: Record, objects: seq<Obj>): (r: seq<Obj>)
    ensures rec.actionType == "add" && IndexOfId(objects, rec.objectId).None? ==> r == objects
    ensures rec.actionType == "add" && IndexOfId(objects, rec.objectId).Some? ==>
      r == RemoveAt(objects, IndexOfId(objects, rec.objectId).value)
    ensures rec.actionType == "remove" ==>
      r == objects + (if CreateFabricObject(rec.objectState).Some? then [Obj(None, rec.objectState)] else [])
    ensures rec.actionType == "modify" ==> |r| == |objects|
    ensures rec.actionType == "modify" && IndexOfId(objects, rec.objectId).None? ==> r == objects
    ensures rec.actionType == "modify" && rec.modifiedState.None? ==> r == objects
    ensures rec.actionType == "modify" && IndexOfId(objects, rec.objectId).Some? && rec.modifiedState.Some? ==>
      var i := IndexOfId(objects, rec.objectId).value;
      r == objects[i := objects[i].(props := objects[i].props + rec.modifiedState.value)]
    ensures rec.actionType !in {"add", "remove", "modify"} ==> r == objects
  {
    if rec.actionType == "add" then RemoveById(objects, rec.objectId)
    else if rec.actionType == "remove" then AddFromSnapshot(objects, rec.objectState)
    else if rec.actionType == "modify" then SetById(objects, rec.objectId, rec.modifiedState)
    else objects
  }

  /** The forward effect `redo` applies for a record: an "add" is re-created
      from its snapshot, a "remove" is taken off the surface again, a "modify"
      has its recorded object state applied again, and any other action
      leaves the surface alone. */
  function RedoEffect(rec: Record, objects: seq<Obj>): (r: seq<Obj>)
    ensures rec.actionType == "add" ==>
      r == objects + (if CreateFabricObject(rec.objectState).Some? then [Obj(None, rec.objectState)] else [])
    ensures rec.actionType == "remove" && IndexOfId(objects, rec.objectId).None? ==> r == objects
    ensures rec.actionType == "remove" && IndexOfId(objects, rec.objectId).Some? ==>
      r == RemoveAt(objects, IndexOfId(objects, rec.objectId).value)
    ensures rec.actionType == "modify" ==> |r| == |objects|
    ensures rec.actionType == "modify" && IndexOfId(objects, rec.objectId).None? ==> r == objects
    ensures rec.actionType == "modify" && IndexOfId(objects, rec.objectId).Some? ==>
      var i := IndexOfId(objects, rec.objectId).value;
      r == objects[i := objects[i].(props := objects[i].props + rec.objectState)]
    ensures rec.actionType !in {"add", "remove", "modify"} ==> r == objects
  {
    if rec.actionType == "add" then AddFromSnapshot(objects, rec.objectState)
    else if rec.actionType == "remove" then RemoveById(objects, rec.objectId)
    else if rec.actionType == "modify" then SetById(objects, rec.objectId, Some(rec.objectState))
    else objects
  }

  function Last<T>(s: seq<T>): T
    requires |s| > 0
  {
    s[|s| - 1]
  }

  /** `saveState` on a state: append one record, discard the redo stack. */
  function Saved(m: BoardState, actionType: string, target: Obj, modifiedState: Option<Bag>): (r: BoardState)
    ensures |r.history| == |m.history| + 1 && r.history[..|m.history|] == m.history
    ensures Last(r.history) == Record(actionType, target.id, ToObject(target), modifiedState)
    ensures r.redoStack == [] && r.fabric == m.fabric
  {
    m.(history := m.history + [Record(actionType, target.id, ToObject(target), modifiedState)],
       redoStack := [])
  }

  /** `undo` on a state. */
  function Undone(m: BoardState): (r: BoardState)
    ensures m.fabric.None? || m.history == [] ==> r == m
    ensures m.fabric.Some? && m.history != [] ==>
      r.history + [Last(m.history)] == m.history &&
      r.redoStack == m.redoStack + [Last(m.history)] &&
      r.fabric == Some(UndoEffect(Last(m.history), m.fabric.value))
  {
    if m.fabric.None? || m.history == [] then m
    else
      var lastAction := Last(m.history);
      BoardState(m.history[..|m.history| - 1], m.redoStack + [lastAction],
                 Some(UndoEffect(lastAction, m.fabric.value)))
  }

  /** `redo` on a state. */
  function Redone(m: BoardState): (r: BoardState)
    ensures m.fabric.None? || m.redoStack == [] ==> r == m
    ensures m.fabric.Some? && m.redoStack != [] ==>
      r.redoStack + [Last(m.redoStack)] == m.redoStack &&
      r.history == m.history + [Last(m.redoStack)] &&
      r.fabric == Some(RedoEffect(Last(m.redoStack), m.fabric.value))
  {
    if m.fabric.None? || m.redoStack == [] then m
    else
      var lastUndoAction := Last(m.redoStack);
      BoardState(m.history + [lastUndoAction], m.redoStack[..|m.redoStack| - 1],
                 Some(RedoEffect(lastUndoAction, m.fabric.value)))
  }

  /** The `object:added` hook on a state: the target gets the fresh id, then
      an "add" record is saved. */
  function AddedHook(m: BoardState, target: Option<nat>, freshId: string): (r: BoardState)
    requires target.Some? ==> m.fabric.Some? && target.value < |m.fabric.value|
    ensures target.None? ==> r == m
    ensures target.Some? ==>
      var i := target.value;
      r.fabric.Some? && |r.fabric.value| == |m.fabric.value| &&
      r.fabric.value[i] == m.fabric.value[i].(id := Some(freshId)) &&
      (forall j :: 0 <= j < |r.fabric.value| && j != i ==> r.fabric.value[j] == m.fabric.value[j]) &&
      r.history == m.history + [Record("add", Some(freshId), m.fabric.value[i].props, None)] &&
      r.redoStack == []
  {
    match target
    case None => m
    case Some(i) =>
      var tagged := m.fabric.value[i].(id := Some(freshId));
      Saved(m.(fabric := Some(m.fabric.value[i := tagged])), "add", tagged, None)
  }

  /** The `object:removed` hook on a state; the target has already left the
      surface. */
  function RemovedHook(m: BoardState, target: Option<Obj>): (r: BoardState)
    ensures target.None? ==> r == m
    ensures target.Some? ==>
      r == m.(history := m.history + [Record("remove", target.value.id, target.value.props, None)], redoStack := [])
  {
    match target
    case None => m
    case Some(o) => Saved(m, "remove", o, None)
  }

  /** The `object:modified` hook on a state. The state before the edit and the
      state passed as `modifiedState` are both read from the target after the
      edit, so they are the same bag. */
  function ModifiedHook(m: BoardState, target: Option<Obj>): (r: BoardState)
    ensures target.None? ==> r == m
    ensures target.Some? ==>
      r == m.(history := m.history + [Record("modify", target.value.id, target.value.props, Some(target.value.props))],
              redoStack := [])
  {
    match target
    case None => m
    case Some(o) => Saved(m, "modify", o, Some(ToObject(o)))
  }

  /** The canvas component's history state, updated in place. `setHistory`
      and `setRedoStack` take effect immediately. */
  class Canvas {
    var history: seq<Record>
    var redoStack: seq<Record>
    var fabric: Option<seq<Obj>>

    function State(): BoardState
      reads this
    {
      BoardState(history, redoStack, fabric)
    }

    /** Component state on first render: empty stacks, no library canvas yet. */
    constructor ()
      ensures history == [] && redoStack == [] && fabric.None?
    {
      history := [];
      redoStack := [];
      fabric := None;
    }

    /** The mount effect creates an empty library canvas. */
    method Mount()
      modifies this
      ensures history == old(history) && redoStack == old(redoStack)
      ensures fabric == Some([])
    {
      fabric := Some([]);
    }

    /** `saveState`. */
    method SaveState(actionType: string, target: Obj, modifiedState: Option<Bag>)
      modifies this
      ensures history == old(history) + [Record(actionType, target.id, ToObject(target), modifiedState)]
      ensures redoStack == []
      ensures fabric == old(fabric)
      ensures State() == Saved(old(State()), actionType, target, modifiedState)
    {
      var state := Record(actionType, target.id, ToObject(target), modifiedState);
      history := history + [state];
      redoStack := [];
    }

    /** `undo`. */
    method Undo()
      modifies this
      ensures State() == Undone(old(State()))
    {
      if fabric.None? || |history| == 0 {
        return;
      }
      var lastAction := history[|history| - 1];
      history := history[..|history| - 1];
      redoStack := redoStack + [lastAction];
      var objects := fabric.value;
      if lastAction.actionType == "add" {
        var objToRemove := FindObjectById(fabric, lastAction.objectId);
        if objToRemove.Some? {
          fabric := Some(RemoveAt(objects, objToRemove.value));
        }
      } else if lastAction.actionType == "remove" {
        var objToAdd := CreateFabricObject(lastAction.objectState);
        if objToAdd.Some? {
          fabric := Some(objects + [objToAdd.value]);
        }
      } else if lastAction.actionType == "modify" {
        var objToModify := FindObjectById(fabric, lastAction.objectId);
        if objToModify.Some? && lastAction.modifiedState.Some? {
          var i := objToModify.value;
          fabric := Some(objects[i := objects[i].(props := objects[i].props + lastAction.modifiedState.value)]);
        }
      }
    }

    /** `redo`. */
    method Redo()
      modifies this
      ensures State() == Redone(old(State()))
    {
      if fabric.None? || |redoStack| == 0 {
        return;
      }
      var lastUndoAction := redoStack[|redoStack| - 1];
      redoStack := redoStack[..|redoStack| - 1];
      history := history + [lastUndoAction];
      var objects := fabric.value;
      if lastUndoAction.actionType == "add" {
        var objToAdd := CreateFabricObject(lastUndoAction.objectState);
        if objToAdd.Some? {
          fabric := Some(objects + [objToAdd.value]);
        }
      } else if lastUndoAction.actionType == "remove" {
        var objToRemove := FindObjectById(fabric, lastUndoAction.objectId);
        if objToRemove.Some? {
          fabric := Some(RemoveAt(objects, objToRemove.value));
        }
      } else if lastUndoAction.actionType == "modify" {
        var objToModify := FindObjectById(fabric, lastUndoAction.objectId);
        if objToModify.Some? {
          var i := objToModify.value;
          fabric := Some(objects[i := objects[i].(props := objects[i].props + lastUndoAction.objectState)]);
        }
      }
    }

    /** The `object:added` hook; `target` is the position of the added object
      and `freshId` stands for the clock-based id. */
    method ObjectAdded(target: Option<nat>, freshId: string)
      requires target.Some? ==> fabric.Some? && target.value < |fabric.value|
      modifies this
      ensures State() == AddedHook(old(State()), target, freshId)
    {
      if target.None? {
        return;
      }
      var i := target.value;
      var tagged := fabric.value[i].(id := Some(freshId));
      fabric := Some(fabric.value[i := tagged]);
      SaveState("add", tagged, None);
    }

    /** The `object:removed` hook; `target` has already left the surface. */
    method ObjectRemoved(target: Option<Obj>)
      modifies this
      ensures State() == RemovedHook(old(State()), target)
    {
      if target.None? {
        return;
      }
      SaveState("remove", target.value, None);
    }

    /** The `object:modified` hook; `target` is the edited object, which may
        be on the surface or not (a multi-object selection). */
    method ObjectModified(target: Option<Obj>)
      modifies this
      ensures State() == ModifiedHook(old(State()), target)
    {
      if target.None? {
        return;
      }
      var o := target.value;
      SaveState("modify", o, Some(ToObject(o)));
    }
  }
}
