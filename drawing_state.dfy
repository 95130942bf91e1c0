/**
 * The authoritative drawing log of the server (class DrawingState): the
 * committed operations in document order, a redo stack of undone operations
 * (most recently undone last) and a counter that hands out operation ids.
 *
 * The two-stack history and its undo/redo steps are defined once, on values,
 * and are shared with the client's copy of the history (module Canvas).
 */
module OperationLog {
  import opened Drawing

  /** The linear undo history: committed operations and the redo stack. */
  datatype History = History(operations: seq<Operation>, redoStack: seq<Operation>)

  /** The whole state of a DrawingState object. */
  datatype Log = Log(history: History, counter: nat)

  /** The state of a freshly constructed or cleared log. */
  const Empty: Log := Log(History([], []), 0)

  /** Appends a new operation at the end of the log and forgets every undone one. */
  function Commit(h: History, op: Operation): History
  {
    History(h.operations + [op], [])
  }

  /** Undo: nothing on an empty log, otherwise the last committed operation moves onto the redo stack. */
  function UndoStep(h: History): Option<(Operation, History)>
  {
    if h.operations == [] then None
    else
      var op := h.operations[|h.operations| - 1];
      Some((op, History(h.operations[..|h.operations| - 1], h.redoStack + [op])))
  }

  /** Redo: nothing on an empty redo stack, otherwise its top moves to the end of the log. */
  function RedoStep(h: History): Option<(Operation, History)>
  {
    if h.redoStack == [] then None
    else
      var op := h.redoStack[|h.redoStack| - 1];
      Some((op, History(h.operations + [op], h.redoStack[..|h.redoStack| - 1])))
  }

  /** addStroke on a log value: the new operation takes the counter's value as its id. */
  function Committed(l: Log, stroke: Stroke, userId: UserId, now: Timestamp): (Log, Operation)
  {
    var op := Operation(l.counter, stroke, userId, Some(now));
    (Log(Commit(l.history, op), l.counter + 1), op)
  }

  /** undo on a log value, with the success flag the source returns. */
  function Undone(l: Log): (Log, bool)
  {
    match UndoStep(l.history)
    case None => (l, false)
    case Some((_, h)) => (l.(history := h), true)
  }

  /** redo on a log value, with the success flag the source returns. */
  function Redone(l: Log): (Log, bool)
  {
    match RedoStep(l.history)
    case None => (l, false)
    case Some((_, h)) => (l.(history := h), true)
  }

  function Reversed(s: seq<Operation>): (r: seq<Operation>)
    ensures |r| == |s|
  {
    if s == [] then [] else [s[|s| - 1]] + Reversed(s[..|s| - 1])
  }

  /**
   * Every operation ever committed and not discarded, in commit order: the
   * committed ones followed by the undone ones, most recently undone first.
   * Undo and redo only move the boundary between the two stacks along it.
   */
  function Timeline(h: History): seq<Operation>
  {
    h.operations + Reversed(h.redoStack)
  }

  /** Ids along the timeline strictly increase and all lie below the counter. */
  ghost predicate WellFormed(l: Log)
  {
    var t := Timeline(l.history);
    && (forall i, j :: 0 <= i < j < |t| ==> t[i].id < t[j].id)
    && (forall i :: 0 <= i < |t| ==> t[i].id < l.counter)
  }

  lemma {:induction false} ReversedAt(s: seq<Operation>, k: nat)
    requires k < |s|
    ensures Reversed(s)[k] == s[|s| - 1 - k]
  {
    if k > 0 {
      ReversedAt(s[..|s| - 1], k - 1);
    }
  }

  lemma ReversedSnoc(s: seq<Operation>, op: Operation)
    ensures Reversed(s + [op]) == [op] + Reversed(s)
  {
    assert (s + [op])[..|s|] == s;
  }

  /** addStroke keeps the id discipline: the new id is the largest so far and the counter moves past it. */
  lemma CommittedKeepsWellFormed(l: Log, stroke: Stroke, userId: UserId, now: Timestamp)
    requires WellFormed(l)
    ensures WellFormed(Committed(l, stroke, userId, now).0)
  {
    var (l', op) := Committed(l, stroke, userId, now);
    var t := Timeline(l.history);
    assert Timeline(l'.history) == l.history.operations + [op];
    assert forall i :: 0 <= i < |l.history.operations| ==> l.history.operations[i] == t[i];
  }

  /** Undo moves the boundary along the timeline without changing it. */
  lemma UndoneKeepsTimeline(l: Log)
    ensures Timeline(Undone(l).0.history) == Timeline(l.history)
  {
    var ops := l.history.operations;
    if ops != [] {
      var op := ops[|ops| - 1];
      ReversedSnoc(l.history.redoStack, op);
      assert ops == ops[..|ops| - 1] + [op];
    }
  }

  /** Redo moves the boundary back along the timeline without changing it. */
  lemma RedoneKeepsTimeline(l: Log)
    ensures Timeline(Redone(l).0.history) == Timeline(l.history)
  {
    var redo := l.history.redoStack;
    if redo != [] {
      var op := redo[|redo| - 1];
      ReversedSnoc(redo[..|redo| - 1], op);
      assert redo == redo[..|redo| - 1] + [op];
    }
  }

  /** Undo and redo never touch the counter, so they keep the id discipline. */
  lemma UndoRedoKeepWellFormed(l: Log)
    requires WellFormed(l)
    ensures WellFormed(Undone(l).0) && WellFormed(Redone(l).0)
  {
    UndoneKeepsTimeline(l);
    RedoneKeepsTimeline(l);
  }

  /**
   * On a well-formed log every committed operation is older than every undone
   * one; in particular no id sits in both stacks, and ids within each stack
   * are distinct.
   */
  lemma CommittedPrecedeUndone(l: Log)
    requires WellFormed(l)
    ensures forall i, j :: 0 <= i < j < |l.history.operations| ==>
              l.history.operations[i].id < l.history.operations[j].id
    ensures forall i, j :: 0 <= i < j < |l.history.redoStack| ==>
              l.history.redoStack[i].id > l.history.redoStack[j].id
    ensures forall i, j :: 0 <= i < |l.history.operations| && 0 <= j < |l.history.redoStack| ==>
              l.history.operations[i].id < l.history.redoStack[j].id
    ensures forall i :: 0 <= i < |l.history.operations| ==> l.history.operations[i].id < l.counter
    ensures forall i :: 0 <= i < |l.history.redoStack| ==> l.history.redoStack[i].id < l.counter
  {
    var ops, redo := l.history.operations, l.history.redoStack;
    var t := Timeline(l.history);
    forall j | 0 <= j < |redo|
      ensures redo[j] == t[|ops| + |redo| - 1 - j]
    {
      ReversedAt(redo, |redo| - 1 - j);
    }
    assert forall i :: 0 <= i < |ops| ==> ops[i] == t[i];
  }

  /** Undo keeps the multiset of operations held in the two stacks together. */
  lemma UndoneKeepsOperations(l: Log)
    ensures multiset(Undone(l).0.history.operations) + multiset(Undone(l).0.history.redoStack)
         == multiset(l.history.operations) + multiset(l.history.redoStack)
  {
    var ops := l.history.operations;
    if ops != [] {
      assert ops == ops[..|ops| - 1] + [ops[|ops| - 1]];
    }
  }

  /** Undo immediately followed by redo restores both stacks exactly. */
  lemma UndoThenRedo(h: History)
    requires h.operations != []
    ensures UndoStep(h).Some? && RedoStep(UndoStep(h).value.1) == Some((UndoStep(h).value.0, h))
  {
    var ops := h.operations;
    assert ops[..|ops| - 1] + [ops[|ops| - 1]] == ops;
  }

  /** Redo immediately followed by undo restores both stacks exactly. */
  lemma RedoThenUndo(h: History)
    requires h.redoStack != []
    ensures RedoStep(h).Some? && UndoStep(RedoStep(h).value.1) == Some((RedoStep(h).value.0, h))
  {
    var redo := h.redoStack;
    assert redo[..|redo| - 1] + [redo[|redo| - 1]] == redo;
  }

  /** Undo immediately followed by redo restores the whole log, counter included. */
  lemma UndoneThenRedone(l: Log)
    requires l.history.operations != []
    ensures Undone(l).1 && Redone(Undone(l).0) == (l, true)
  {
    UndoThenRedo(l.history);
  }

  /** After addStroke, redo fails until an undo happens. */
  lemma RedoFailsAfterCommit(l: Log, stroke: Stroke, userId: UserId, now: Timestamp)
    ensures Redone(Committed(l, stroke, userId, now).0) == (Committed(l, stroke, userId, now).0, false)
  {
  }

  /**
   * Commit A (id 0), commit B (id 1), undo, commit C (id 2) leaves [A, C]
   * committed and B gone for good.
   */
  lemma CommitUndoCommitDropsUndone(a: Stroke, b: Stroke, c: Stroke, u: UserId, t0: Timestamp, t1: Timestamp, t2: Timestamp)
    ensures
      var (l1, opA) := Committed(Empty, a, u, t0);
      var (l2, opB) := Committed(l1, b, u, t1);
      var (l3, ok) := Undone(l2);
      var (l4, opC) := Committed(l3, c, u, t2);
      && ok && l3.history == History([opA], [opB])
      && opA.id == 0 && opB.id == 1 && opC.id == 2
      && l4.history == History([opA, opC], [])
  {
  }

  /** The state of a DrawingState object on the server. */
  class DrawingState {
    var operations: seq<Operation>
    var redoStack: seq<Operation>
    var operationIdCounter: nat

    function Value(): Log
      reads this
    {
      Log(History(operations, redoStack), operationIdCounter)
    }

    ghost predicate Valid()
      reads this
    {
      WellFormed(Value())
    }

    constructor ()
      ensures Valid() && Value() == Empty
    {
      operations, redoStack, operationIdCounter := [], [], 0;
    }

    method AddStroke(stroke: Stroke, userId: UserId, now: Timestamp) returns (operation: Operation)
      requires Valid()
      modifies this
      ensures Valid()
      ensures (Value(), operation) == Committed(old(Value()), stroke, userId, now)
      ensures operation == Operation(old(operationIdCounter), stroke, userId, Some(now))
      ensures operationIdCounter == old(operationIdCounter) + 1
      ensures operations == old(operations) + [operation] && redoStack == []
    {
      CommittedKeepsWellFormed(Value(), stroke, userId, now);
      operation := Operation(operationIdCounter, stroke, userId, Some(now));
      operationIdCounter := operationIdCounter + 1;
      operations := operations + [operation];
      redoStack := [];
    }

    method Undo() returns (success: bool)
      requires Valid()
      modifies this
      ensures Valid()
      ensures (Value(), success) == Undone(old(Value()))
      ensures success <==> old(operations) != []
      ensures !success ==> Value() == old(Value())
      ensures success ==>
        && operations == old(operations)[..|old(operations)| - 1]
        && redoStack == old(redoStack) + [old(operations)[|old(operations)| - 1]]
        && operationIdCounter == old(operationIdCounter)
    {
      ghost var before := Value();
      UndoRedoKeepWellFormed(before);
      if |operations| == 0 {
        return false;
      }
      var operation := operations[|operations| - 1];
      operations := operations[..|operations| - 1];
      redoStack := redoStack + [operation];
      assert Value() == Undone(before).0;
      return true;
    }

    method Redo() returns (success: bool)
      requires Valid()
      modifies this
      ensures Valid()
      ensures (Value(), success) == Redone(old(Value()))
      ensures success <==> old(redoStack) != []
      ensures !success ==> Value() == old(Value())
      ensures success ==>
        && operations == old(operations) + [old(redoStack)[|old(redoStack)| - 1]]
        && redoStack == old(redoStack)[..|old(redoStack)| - 1]
        && operationIdCounter == old(operationIdCounter)
    {
      ghost var before := Value();
      UndoRedoKeepWellFormed(before);
      if |redoStack| == 0 {
        return false;
      }
      var operation := redoStack[|redoStack| - 1];
      redoStack := redoStack[..|redoStack| - 1];
      operations := operations + [operation];
      assert Value() == Redone(before).0;
      return true;
    }

    /** The committed operations as they stand now (the source hands out its live array). */
    method GetOperations() returns (ops: seq<Operation>)
      ensures ops == Value().history.operations
    {
      ops := operations;
    }

    method Clear()
      modifies this
      ensures Valid() && Value() == Empty
    {
      operations, redoStack, operationIdCounter := [], [], 0;
    }

    method GetOperationCount() returns (n: nat)
      ensures n == |Value().history.operations|
    {
      n := |operations|;
    }

    method GetRedoCount() returns (n: nat)
      ensures n == |Value().history.redoStack|
    {
      n := |redoStack|;
    }
  }
}
