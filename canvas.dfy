/**
 * The bookkeeping of the browser-side CanvasManager: the pen settings, the
 * stroke being captured from the mouse, the client's copy of the operation
 * history and the cursors of the other participants.
 *
 * Drawing on the 2D contexts is not modelled. The calls a handler makes to
 * the callbacks installed by the application (onStrokeStart, onDrawPoint,
 * onStrokeEnd, onCursorMove) are returned as a list of notices.
 */
module Canvas {
  import opened Drawing
  import opened OperationLog

  /** What the canvas knows of another participant's pointer. */
  datatype Cursor = Cursor(position: Position, color: Color)

  /** A call to one of the installed callbacks. */
  datatype Notice =
    | StrokeStarted(point: Point)     // onStrokeStart
    | PointDrawn(point: Point)        // onDrawPoint
    | StrokeEnded(stroke: Stroke)     // onStrokeEnd
    | CursorMoved(position: Position) // onCursorMove

  const DefaultColor: Color := "#000000"
  const DefaultWidth: int := 3

  class CanvasManager {
    var isDrawing: bool
    var currentTool: Tool
    var currentColor: Color
    var currentWidth: int
    var currentStroke: seq<Point>
    var operations: seq<Operation>
    var redoStack: seq<Operation>
    var remoteCursors: map<UserId, Cursor>

    /** While a stroke is being captured it holds at least the point where it began. */
    ghost predicate Valid()
      reads this
    {
      isDrawing ==> currentStroke != []
    }

    function Stacks(): History
      reads this
    {
      History(operations, redoStack)
    }

    /** A point at the given position carrying the current pen settings. */
    function PenPoint(pos: Position): Point
      reads this
    {
      Point(pos.x, pos.y, currentColor, currentWidth, currentTool)
    }

    constructor ()
      ensures Valid()
      ensures !isDrawing && currentStroke == []
      ensures currentTool == Brush && currentColor == DefaultColor && currentWidth == DefaultWidth
      ensures operations == [] && redoStack == [] && remoteCursors == map[]
    {
      isDrawing := false;
      currentTool := Brush;
      currentColor := DefaultColor;
      currentWidth := DefaultWidth;
      currentStroke := [];
      operations := [];
      redoStack := [];
      remoteCursors := map[];
    }

    /** Starts a stroke of exactly one point, discarding any stroke under way. */
    method HandleMouseDown(pos: Position) returns (notices: seq<Notice>)
      modifies this`isDrawing, this`currentStroke
      ensures Valid()
      ensures isDrawing
      ensures currentStroke == [PenPoint(pos)]
      ensures notices == [StrokeStarted(PenPoint(pos))]
    {
      isDrawing := true;
      currentStroke := [PenPoint(pos)];
      notices := [StrokeStarted(currentStroke[0])];
    }

    /** Always reports the cursor; extends the stroke only while one is under way. */
    method HandleMouseMove(pos: Position) returns (notices: seq<Notice>)
      requires Valid()
      modifies this`currentStroke
      ensures Valid()
      ensures old(isDrawing) ==> currentStroke == old(currentStroke) + [PenPoint(pos)]
      ensures !old(isDrawing) ==> currentStroke == old(currentStroke)
      ensures notices == [CursorMoved(pos)] + (if isDrawing then [PointDrawn(PenPoint(pos))] else [])
    {
      notices := [CursorMoved(pos)];
      if !isDrawing {
        return;
      }
      var newPoint := PenPoint(pos);
      currentStroke := currentStroke + [newPoint];
      notices := notices + [PointDrawn(newPoint)];
    }

    /**
     * Ends the stroke under way and hands it on; the client's own history is
     * left as it was.
     */
    method HandleMouseUp() returns (notices: seq<Notice>)
      requires Valid()
      modifies this`isDrawing, this`currentStroke
      ensures Valid()
      ensures !old(isDrawing) ==> isDrawing == old(isDrawing) && currentStroke == old(currentStroke) && notices == []
      ensures old(isDrawing) ==> !isDrawing && currentStroke == [] && notices == [StrokeEnded(old(currentStroke))]
      ensures forall n :: n in notices ==> n.StrokeEnded? && n.stroke != []
    {
      notices := [];
      if !isDrawing {
        return;
      }
      isDrawing := false;
      if |currentStroke| > 0 {
        notices := [StrokeEnded(currentStroke)];
      }
      currentStroke := [];
    }

    method AddOperation(operation: Operation)
      modifies this`operations, this`redoStack
      ensures Stacks() == Commit(old(Stacks()), operation)
      ensures operations == old(operations) + [operation] && redoStack == []
    {
      operations := operations + [operation];
      redoStack := [];
    }

    /** The same step as the server's undo; null (None) when there is nothing to undo. */
    method UndoOperation() returns (operation: Option<Operation>)
      modifies this`operations, this`redoStack
      ensures operation.None? <==> old(operations) == []
      ensures operation.None? ==> Stacks() == old(Stacks())
      ensures operation.Some? ==> UndoStep(old(Stacks())) == Some((operation.value, Stacks()))
    {
      if |operations| == 0 {
        return None;
      }
      var op := operations[|operations| - 1];
      operations := operations[..|operations| - 1];
      redoStack := redoStack + [op];
      return Some(op);
    }

    /** The same step as the server's redo; null (None) when there is nothing to redo. */
    method RedoOperation() returns (operation: Option<Operation>)
      modifies this`operations, this`redoStack
      ensures operation.None? <==> old(redoStack) == []
      ensures operation.None? ==> Stacks() == old(Stacks())
      ensures operation.Some? ==> RedoStep(old(Stacks())) == Some((operation.value, Stacks()))
    {
      if |redoStack| == 0 {
        return None;
      }
      var op := redoStack[|redoStack| - 1];
      redoStack := redoStack[..|redoStack| - 1];
      operations := operations + [op];
      return Some(op);
    }

    method SetOperations(ops: seq<Operation>)
      modifies this`operations, this`redoStack
      ensures operations == ops && redoStack == []
    {
      operations := ops;
      redoStack := [];
    }

    method UpdateRemoteCursor(userId: UserId, position: Position, color: Color)
      modifies this`remoteCursors
      ensures remoteCursors == old(remoteCursors)[userId := Cursor(position, color)]
      ensures forall u :: u != userId ==> (u in remoteCursors <==> u in old(remoteCursors))
      ensures forall u :: u != userId && u in remoteCursors ==> remoteCursors[u] == old(remoteCursors)[u]
    {
      remoteCursors := remoteCursors[userId := Cursor(position, color)];
    }

    method RemoveRemoteCursor(userId: UserId)
      modifies this`remoteCursors
      ensures remoteCursors == old(remoteCursors) - {userId}
      ensures userId !in remoteCursors
      ensures forall u :: u != userId ==> (u in remoteCursors <==> u in old(remoteCursors))
      ensures forall u :: u != userId && u in remoteCursors ==> remoteCursors[u] == old(remoteCursors)[u]
    {
      remoteCursors := remoteCursors - {userId};
    }

    method SetTool(tool: Tool)
      modifies this`currentTool
      ensures currentTool == tool
    {
      currentTool := tool;
    }

    method SetColor(color: Color)
      modifies this`currentColor
      ensures currentColor == color
    {
      currentColor := color;
    }

    method SetWidth(width: int)
      modifies this`currentWidth
      ensures currentWidth == width
    {
      currentWidth := width;
    }

    method Clear()
      modifies this`operations, this`redoStack
      ensures operations == [] && redoStack == []
    {
      operations := [];
      redoStack := [];
    }
  }
}
