/**
  Properties of the canvas history engine, stated on the state functions that
  the `Canvas` methods are proved against.
*/
module CanvasLemmas {
  import opened Wrappers
  import opened CanvasHistory

  /** Two states hold the same history and redo stack. */
  predicate SameStacks(a: BoardState, b: BoardState) {
    a.history == b.history && a.redoStack == b.redoStack
  }

  /** At most one live object carries `id`. */
  predicate AtMostOne(objects: seq<Obj>, id: Option<string>) {
    forall i, j :: 0 <= i < j < |objects| && objects[i].id == id ==> objects[j].id != id
  }

  /** `n` presses of undo. */
  function UndoTimes(m: BoardState, n: nat): BoardState
    decreases n
  {
    if n == 0 then m else UndoTimes(Undone(m), n - 1)
  }

  /** `n` presses of redo. */
  function RedoTimes(m: BoardState, n: nat): BoardState
    decreases n
  {
    if n == 0 then m else Redone(RedoTimes(m, n - 1))
  }

  /** Undo followed by redo, with no edit between, gives back both stacks exactly. */
  lemma UndoThenRedoRestoresStacks(m: BoardState)
    requires m.fabric.Some? && m.history != []
    ensures SameStacks(Redone(Undone(m)), m)
    ensures Redone(Undone(m)).fabric.Some?
  {
  }

  /** Redo followed by undo, with no edit between, gives back both stacks exactly. */
  lemma RedoThenUndoRestoresStacks(m: BoardState)
    requires m.fabric.Some? && m.redoStack != []
    ensures SameStacks(Undone(Redone(m)), m)
  {
  }

  /** `Redone` moves records between the stacks without looking at the surface. */
  lemma RedoStacksIgnoreSurface(a: BoardState, b: BoardState)
    requires a.fabric.Some? && b.fabric.Some? && SameStacks(a, b)
    ensures SameStacks(Redone(a), Redone(b)) && Redone(a).fabric.Some?
  {
  }

  /** `n` undos followed by `n` redos, with no edit between, give back both
      stacks exactly. */
  lemma {:induction false} UndoRedoRepeatedRestoresStacks(m: BoardState, n: nat)
    requires m.fabric.Some? && n <= |m.history|
    ensures SameStacks(RedoTimes(UndoTimes(m, n), n), m)
    ensures RedoTimes(UndoTimes(m, n), n).fabric.Some?
    decreases n
  {
    if n > 0 {
      var u := Undone(m);
      assert |u.history| == |m.history| - 1 by {
        assert |u.history + [Last(m.history)]| == |m.history|;
      }
      UndoRedoRepeatedRestoresStacks(u, n - 1);
      var back := RedoTimes(UndoTimes(u, n - 1), n - 1);
      assert UndoTimes(m, n) == UndoTimes(u, n - 1);
      assert RedoTimes(UndoTimes(m, n), n) == Redone(back);
      RedoStacksIgnoreSurface(back, u);
      UndoThenRedoRestoresStacks(m);
    }
  }

  /** Undo of an "add": when the recorded id does not resolve the surface is
      unchanged; otherwise the first object carrying it is removed, and if it
      was the only one the id no longer resolves. */
  lemma UndoOfAdd(m: BoardState)
    requires m.fabric.Some? && m.history != [] && Last(m.history).actionType == "add"
    ensures var id := Last(m.history).objectId;
      FindObjectById(m.fabric, id).None? ==> Undone(m).fabric == m.fabric
    ensures var id := Last(m.history).objectId;
      FindObjectById(m.fabric, id).Some? ==>
        Undone(m).fabric == Some(RemoveAt(m.fabric.value, FindObjectById(m.fabric, id).value))
    ensures var id := Last(m.history).objectId;
      AtMostOne(m.fabric.value, id) ==> FindObjectById(Undone(m).fabric, id).None?
  {
  }

  /** Undo of a "modify" whose id does not resolve leaves the surface unchanged. */
  lemma UndoOfUnresolvedModify(m: BoardState)
    requires m.fabric.Some? && m.history != [] && Last(m.history).actionType == "modify"
    requires FindObjectById(m.fabric, Last(m.history).objectId).None?
    ensures Undone(m).fabric == m.fabric
  {
  }

  /** The "add" hook gives the target a fresh id that resolves to it, and
      undoing that record removes exactly the target. */
  lemma AddThenUndoRemovesTarget(m: BoardState, i: nat, freshId: string)
    requires m.fabric.Some? && i < |m.fabric.value|
    requires forall j :: 0 <= j < |m.fabric.value| ==> m.fabric.value[j].id != Some(freshId)
    ensures var a := AddedHook(m, Some(i), freshId);
      FindObjectById(a.fabric, Some(freshId)) == Some(i) && Last(a.history).objectId == Some(freshId)
    ensures var u := Undone(AddedHook(m, Some(i), freshId));
      u.history == m.history && u.fabric == Some(RemoveAt(m.fabric.value, i))
  {
  }

  /** Undo of a "modify" does not bring back the properties the object had
      before the edit: the record holds the state read after the edit in both
      its fields, so undo and the redo after it leave the surface as the edit
      left it. */
  lemma {:induction false} ModifyUndoRedoKeepsSurface(m: BoardState, i: nat)
    requires m.fabric.Some? && i < |m.fabric.value|
    requires IndexOfId(m.fabric.value, m.fabric.value[i].id) == Some(i)
    ensures var u := Undone(ModifiedHook(m, Some(m.fabric.value[i])));
      u.fabric == m.fabric && u.history == m.history
    ensures Redone(Undone(ModifiedHook(m, Some(m.fabric.value[i])))).fabric == m.fabric
  {
    var objects := m.fabric.value;
    var o := objects[i];
    assert o.props + o.props == o.props;
    assert objects[i := o.(props := o.props + o.props)] == objects;
    var h := ModifiedHook(m, Some(o));
    var u := Undone(h);
    assert u.history + [Last(h.history)] == m.history + [Last(h.history)];
    assert u.history == (u.history + [Last(h.history)])[..|u.history|];
  }

  /** The "modify" hook also fires for a target that is not on the surface,
      such as a multi-object selection, which carries no id. Under the
      no-re-entry assumption, where re-created copies have no id, undo of that
      record applies the selection's properties to the first live object
      without an id. In the running program every live object has an id, so
      this undo finds nothing. */
  lemma ModifyOfIdlessTargetHitsFirstIdless(m: BoardState, target: Obj)
    requires m.fabric.Some? && target.id.None?
    requires IndexOfId(m.fabric.value, None).Some?
    ensures var k := IndexOfId(m.fabric.value, None).value;
      var u := Undone(ModifiedHook(m, Some(target)));
      u.fabric.Some? && |u.fabric.value| == |m.fabric.value| &&
      u.fabric.value[k].props == m.fabric.value[k].props + target.props &&
      (forall j :: 0 <= j < |m.fabric.value| && j != k ==> u.fabric.value[j] == m.fabric.value[j])
  {
  }

  /** Redo of a "remove" whose id no longer resolves leaves the surface
      unchanged; the record still moves back to the history. */
  lemma RedoOfUnresolvedRemove(m: BoardState)
    requires m.fabric.Some? && m.redoStack != [] && Last(m.redoStack).actionType == "remove"
    requires FindObjectById(m.fabric, Last(m.redoStack).objectId).None?
    ensures Redone(m).fabric == m.fabric
    ensures Redone(m).history == m.history + [Last(m.redoStack)]
  {
  }

  /** Undo of a "remove" re-creates the object without its id, so the redo
      after it cannot find the object again and leaves it on the surface
      (library events raised by the re-creation are not modelled). */
  lemma RemoveUndoRedoLeavesObject(m: BoardState)
    requires m.fabric.Some? && m.history != []
    requires Last(m.history).actionType == "remove" && Last(m.history).objectId.Some?
    requires FindObjectById(m.fabric, Last(m.history).objectId).None?
    requires CreateFabricObject(Last(m.history).objectState).Some?
    ensures var rec := Last(m.history);
      Undone(m).fabric == Some(m.fabric.value + [Obj(None, rec.objectState)]) &&
      Redone(Undone(m)).fabric == Undone(m).fabric
  {
  }

  /** Redo of an "add" re-creates the object without its id, so a second undo
      of the same record cannot find it: add, undo, redo, undo leaves the
      re-created object on the surface (library events raised by the
      re-creation are not modelled). */
  lemma AddUndoRedoUndoLeavesObject(m: BoardState)
    requires m.fabric.Some? && m.history != []
    requires Last(m.history).actionType == "add" && Last(m.history).objectId.Some?
    requires AtMostOne(m.fabric.value, Last(m.history).objectId)
    requires CreateFabricObject(Last(m.history).objectState).Some?
    ensures var again := Redone(Undone(m));
      Undone(again).fabric == again.fabric && |again.fabric.value| == |Undone(m).fabric.value| + 1
  {
  }

  /** A fresh edit after any number of undos empties the redo stack. */
  lemma {:induction false} EditAfterUndoDiscardsRedo(m: BoardState, n: nat, actionType: string, target: Obj, modifiedState: Option<Bag>)
    requires m.fabric.Some? && 0 < n <= |m.history|
    ensures UndoTimes(m, n).redoStack != []
    ensures Saved(UndoTimes(m, n), actionType, target, modifiedState).redoStack == []
    decreases n
  {
    var u := Undone(m);
    if n > 1 {
      assert |u.history| == |m.history| - 1 by {
        assert |u.history + [Last(m.history)]| == |m.history|;
      }
      EditAfterUndoDiscardsRedo(u, n - 1, actionType, target, modifiedState);
    } else {
      assert UndoTimes(m, n) == UndoTimes(u, 0) == u;
    }
  }
}
