# Collaborative canvas: shared drawing log and sync protocol

This project models the core of a real-time collaborative whiteboard. Browser
clients draw strokes on a shared canvas. A Node.js server keeps the authoritative
list of committed strokes and fans every change out to the other clients over
socket.io. The model covers these parts:

- **Drawing log** (`server/drawing-state.js`, module `OperationLog`). The
  class `DrawingState` keeps three fields:
  - `operations`: the committed strokes, in document order;
  - `redoStack`: the undone strokes, most recently undone last;
  - `operationIdCounter`: the counter that hands out operation ids.

  Undo and redo are global and linear. The central invariant is the
  *timeline*: `operations` followed by the reversed `redoStack`. Undo and redo
  only move the boundary between the two stacks along it. Its ids strictly
  increase and all lie below the counter. So between two calls of `clear()`,
  which resets the counter to 0, no id is handed out twice. No operation
  sits in both stacks, and every committed operation is older than every
  undone one.
- **Participant registry** (`server/rooms.js`, module `Rooms`). `RoomManager`
  keeps a JavaScript `Map` that remembers the order in which keys were first
  inserted. The model holds it as a list of user records with distinct ids,
  in that order.
- **Server protocol** (`server/server.js`, module `Server`).
  - `Step` models the `io.on('connection', …)` handler and every per-socket
    handler it installs. It is a transition on the log, the registry and the
    colour each connection captured. It returns an outbox of messages, each
    tagged with its audience: the sender only (`socket.emit`), everybody but
    the sender (`socket.broadcast.emit`), or everybody (`io.emit`).
  - The invariant `Inv` also ties the sockets with installed handlers to the
    registered users, and each captured colour to the colour in that user's
    record.
  - `Run` applies a sequence of events one at a time.
  - The class `CanvasServer` has one method per handler. Each method is
    proved to produce exactly the state and the outbox of `Step`.
- **Client copy** (`client/canvas.js`, module `Canvas`, class `CanvasManager`).
  - The pen settings, and the stroke-capture state machine (`isDrawing`,
    `currentStroke`).
  - The client's own copy of the history, with the same undo/redo steps as
    the server.
  - The map of remote cursors.
- **Client callbacks** (`client/main.js`, module `Client`, class
  `CollaborativeCanvas`). The `remoteStrokes` map, and the callbacks that
  apply each server message. `Receive` and `Deliver` state what a client
  does with the messages addressed to it. From them the model proves:
  - A client that is in step with the server stays in step across any
    sequence of events in which it commits no stroke itself. In step means
    both lists of operations agree on id, stroke and author, in order.
    Timestamps are not compared, because the client builds its records
    from `remote_stroke_end` without one.
  - After a successful undo or redo, every client holds exactly the
    server's list.

The model also exposes two gaps in the code, and proves both:

- A client never records its own finished stroke (`Client.OwnStrokeNotRecorded`).
  The server sends `remote_stroke_end` only to the other clients.
- `user_left` removes the departed user's cursor but leaves any stroke they
  had not finished in `remoteStrokes` (`Client.UserLeftKeepsRemoteStroke`).

Two behaviours a reader might not expect, which the model follows as written:

- `addStroke` accepts a stroke with no points. Nothing checks for it.
- `getOperations` hands out the live array, not a copy.

Every clock and random reading becomes a parameter. `Date.now()` is the `now`
carried by a connection or an `end_stroke` event. `Math.random()` is the
`random` in [0, 1) carried by a connection event.

## Model

| member | source | states |
|---|---|---|
| `OperationLog.DrawingState.constructor` | server/drawing-state.js:2-6 | a new log has no operations, an empty redo stack and the counter at 0 |
| `OperationLog.DrawingState.AddStroke` | server/drawing-state.js:8-20 | the returned operation carries the counter's old value as id, the caller's stroke and user; the counter grows by exactly 1; the operation is appended after the unchanged earlier ones; the redo stack is emptied; the id invariant is kept |
| `OperationLog.DrawingState.Undo` | server/drawing-state.js:22-31 | returns false and changes nothing exactly when there are no operations; otherwise moves the last operation onto the top of the redo stack, returns true, leaves the counter alone, keeps the id invariant |
| `OperationLog.DrawingState.Redo` | server/drawing-state.js:33-42 | returns false and changes nothing exactly when the redo stack is empty; otherwise moves its top to the end of the operations, returns true, leaves the counter alone, keeps the id invariant |
| `OperationLog.DrawingState.GetOperations` | server/drawing-state.js:44-46 | returns the committed operations as they currently stand |
| `OperationLog.DrawingState.Clear` | server/drawing-state.js:48-52 | both stacks are emptied and the counter is back at 0 |
| `OperationLog.DrawingState.GetOperationCount` | server/drawing-state.js:54-56 | the number of committed operations |
| `OperationLog.DrawingState.GetRedoCount` | server/drawing-state.js:58-60 | the number of undone operations waiting for redo |
| `OperationLog.CommittedKeepsWellFormed` | server/drawing-state.js:8-20 | a commit keeps the timeline's ids strictly increasing and below the counter |
| `OperationLog.UndoneKeepsTimeline` | server/drawing-state.js:22-31 | undo leaves the timeline (operations followed by the reversed redo stack) unchanged |
| `OperationLog.RedoneKeepsTimeline` | server/drawing-state.js:33-42 | redo leaves the timeline unchanged |
| `OperationLog.UndoRedoKeepWellFormed` | server/drawing-state.js:22-42 | undo and redo keep the id invariant, since they never touch the counter |
| `OperationLog.CommittedPrecedeUndone` | server/drawing-state.js:5-42 | under the invariant: committed ids strictly increase; redo-stack ids strictly decrease towards the top; every committed id is below every undone id (so no operation is in both stacks); every id is below the counter |
| `OperationLog.UndoneKeepsOperations` | server/drawing-state.js:27-30 | undo preserves the multiset of operations held by the two stacks together |
| `OperationLog.UndoThenRedo` | server/drawing-state.js:22-42 | on a non-empty log, undo followed by redo gives back the same operation and exactly the original two stacks |
| `OperationLog.RedoThenUndo` | server/drawing-state.js:22-42 | on a non-empty redo stack, redo followed by undo gives back exactly the original two stacks |
| `OperationLog.UndoneThenRedone` | server/drawing-state.js:22-42 | undo followed by redo both succeed and restore the whole log, counter included |
| `OperationLog.RedoFailsAfterCommit` | server/drawing-state.js:16-36 | redo right after a commit fails and changes nothing |
| `OperationLog.CommitUndoCommitDropsUndone` | server/drawing-state.js:8-31 | commit A, commit B, undo, commit C from a fresh log gives ids 0, 1, 2, the state [A] / [B] after the undo, and [A, C] with B discarded at the end |
| `Rooms.Get` | server/rooms.js:18-20 | returns a record exactly when the key is present, and that record has the key as its id |
| `Rooms.PutThenGet` | server/rooms.js:6-12 | after setting a record, get of its id returns exactly that record, get of every other id is unchanged, ids stay distinct |
| `Rooms.PutOrder` | server/rooms.js:6-12 | re-setting a present id keeps the key order (and so the size); a new id is appended at the end |
| `Rooms.DeleteAbsent` | server/rooms.js:14-16 | deleting an unknown id changes nothing |
| `Rooms.DeleteKeeps` | server/rooms.js:14-16 | after a delete the id is gone, exactly the records with other ids remain, ids stay distinct |
| `Rooms.DeleteOrder` | server/rooms.js:14-24 | deleting the record at position k leaves every other record where it was in insertion order: the list before k followed by the list after k |
| `Rooms.DeletePresent` | server/rooms.js:14-16 | deleting a present id shrinks the registry by exactly one |
| `Rooms.DeleteThenGet` | server/rooms.js:14-20 | after a delete, get of that id is none, the size drops by one if it was present (else stays), get of every other id is unchanged |
| `Rooms.DeleteGetOther` | server/rooms.js:14-20 | deleting one id leaves get of any other id unchanged |
| `Rooms.RoomManager.constructor` | server/rooms.js:2-4 | a new registry is empty |
| `Rooms.RoomManager.AddUser` | server/rooms.js:6-12 | stores `{id, color, joinedAt}` with Map.set semantics; get of that id then returns it; other users are unchanged |
| `Rooms.RoomManager.RemoveUser` | server/rooms.js:14-16 | Map.delete semantics; get of that id then returns none; other users are unchanged |
| `Rooms.RoomManager.GetUser` | server/rooms.js:18-20 | the record stored under the id, or none |
| `Rooms.RoomManager.GetUsers` | server/rooms.js:22-24 | the records in first-insertion order |
| `Rooms.RoomManager.GetUserCount` | server/rooms.js:26-28 | the number of users, equal to the length of the list |
| `Rooms.RoomManager.Clear` | server/rooms.js:30-32 | the registry is empty |
| `Server.GenerateRandomColor` | server/server.js:106-112 | for any random reading in [0, 1) the colour is one of the ten palette entries |
| `Server.Step` | server/server.js:22-104 | only end_stroke, undo and redo change the log, and those three leave the registry and the connection colours alone; the counter grows by at most one per event |
| `Server.StepKeepsInv` | server/server.js:22-104 | every handler keeps the log's id invariant, the registry's distinct ids, and the agreement between installed handlers and registered users with their colours |
| `Server.RunKeepsInv` | server/server.js:22-104 | every state reached by any sequence of events keeps all three invariants |
| `Server.InvRegistered` | server/server.js:25-26 | under the invariant, a socket has handlers installed exactly when it is registered, and its captured colour is the colour stored in its record |
| `Server.RegisteredAfterPut` | server/server.js:25-26 | registering a user while recording its colour keeps ids distinct and handlers and registry in agreement |
| `Server.RegisteredAfterDelete` | server/server.js:92-95 | removing a user together with its handlers keeps ids distinct and handlers and registry in agreement |
| `Server.ConnectionAnnounces` | server/server.js:22-40 | on connection: the socket gets a palette colour and a registry record; exactly three messages go out; `init_state`, sent first and to the new socket only, carries the current operations and a user list that already holds the new user; then `user_list` goes to all and `user_joined` to all but the new socket; the log is untouched |
| `Server.RelaysOnlyForward` | server/server.js:42-72 | start_stroke, draw_point and cursor_move change nothing and send exactly one message, to all but the sender, naming the sender; the cursor message carries the colour picked at connection, which under the invariant is the colour in the sender's registry record |
| `Server.EndStrokeCommits` | server/server.js:56-64 | end_stroke appends exactly one operation `{counter, stroke, sender}`, empties the redo stack, advances the counter, and sends `remote_stroke_end` with that id and stroke to all but the sender, and nothing else |
| `Server.UndoBroadcastsOnSuccess` | server/server.js:74-81 | undo sends something iff the log was non-empty; then exactly `remote_undo` to all with the post-undo operations; otherwise nothing changes and nothing is sent |
| `Server.RedoBroadcastsOnSuccess` | server/server.js:83-90 | the same for redo and the redo stack, with `remote_redo` |
| `Server.DisconnectionRemovesUser` | server/server.js:92-103 | in any state satisfying the invariant, disconnect leaves the log untouched, removes exactly that user (size minus one, others unchanged), uninstalls its handlers, and sends `user_list` then `user_left` to all |
| `Server.UnknownSocketIgnored` | server/server.js:42-103 | an event on a socket whose handlers are not installed changes nothing and sends nothing |
| `Server.StepStrokeEndIds` | server/server.js:56-64 | the `remote_stroke_end` ids one event emits are exactly the ids it hands out |
| `Server.RunAnnouncesEveryId` | server/server.js:56-64 | over any sequence of events from any senders, the `remote_stroke_end` ids are exactly the ids handed out, each once, in increasing order with no gaps |
| `Server.RunStrokeEndIdsIncrease` | server/server.js:56-64 | ids carried by successive `remote_stroke_end` messages strictly increase across all senders |
| `Server.CanvasServer.constructor` | server/server.js:19-20 | the server starts with an empty log, an empty registry and no connections |
| `Server.CanvasServer.OnConnection` | server/server.js:22-40 | the new state and the outbox are exactly those of `Step` on a connection |
| `Server.CanvasServer.OnStartStroke` | server/server.js:42-47 | changes nothing; one `remote_stroke_start` to all but the sender; agrees with `Step` |
| `Server.CanvasServer.OnDrawPoint` | server/server.js:49-54 | changes nothing; one `remote_draw_point` to all but the sender; agrees with `Step` |
| `Server.CanvasServer.OnEndStroke` | server/server.js:56-64 | the new state and the outbox are exactly those of `Step` on end_stroke |
| `Server.CanvasServer.OnCursorMove` | server/server.js:66-72 | changes nothing; one `remote_cursor_move` with the connection's colour to all but the sender; agrees with `Step` |
| `Server.CanvasServer.OnUndo` | server/server.js:74-81 | the new state and the outbox are exactly those of `Step` on undo |
| `Server.CanvasServer.OnRedo` | server/server.js:83-90 | the new state and the outbox are exactly those of `Step` on redo |
| `Server.CanvasServer.OnDisconnect` | server/server.js:92-103 | the new state and the outbox are exactly those of `Step` on disconnect |
| `Canvas.CanvasManager.constructor` | client/canvas.js:2-21 | not drawing, empty stroke, brush, colour #000000, width 3, empty history and no remote cursors |
| `Canvas.CanvasManager.HandleMouseDown` | client/canvas.js:48-62 | sets isDrawing; the stroke becomes exactly one point with the current colour, width and tool; onStrokeStart gets that point |
| `Canvas.CanvasManager.HandleMouseMove` | client/canvas.js:64-90 | always reports the cursor; appends a point with the pen settings only while drawing, otherwise the stroke is unchanged; onDrawPoint gets the new point |
| `Canvas.CanvasManager.HandleMouseUp` | client/canvas.js:92-104 | a no-op when not drawing; otherwise stops drawing, empties the stroke and hands the finished stroke on; any stroke handed on is non-empty; the history is untouched |
| `Canvas.CanvasManager.AddOperation` | client/canvas.js:153-156 | appends one operation and empties the redo stack (the shared commit step) |
| `Canvas.CanvasManager.UndoOperation` | client/canvas.js:158-166 | returns none exactly when there are no operations, and then nothing changes; otherwise performs the same undo step as the server and returns the moved operation |
| `Canvas.CanvasManager.RedoOperation` | client/canvas.js:168-176 | returns none exactly when the redo stack is empty, and then nothing changes; otherwise performs the same redo step as the server and returns the moved operation |
| `Canvas.CanvasManager.SetOperations` | client/canvas.js:178-182 | the operations become the given list and the redo stack is emptied |
| `Canvas.CanvasManager.UpdateRemoteCursor` | client/canvas.js:194-197 | sets exactly one key; every other cursor is unchanged |
| `Canvas.CanvasManager.RemoveRemoteCursor` | client/canvas.js:199-202 | deletes exactly one key; every other cursor is unchanged |
| `Canvas.CanvasManager.SetTool` | client/canvas.js:221-223 | the current tool becomes the given one |
| `Canvas.CanvasManager.SetColor` | client/canvas.js:225-227 | the current colour becomes the given one |
| `Canvas.CanvasManager.SetWidth` | client/canvas.js:229-231 | the current width becomes the given one |
| `Canvas.CanvasManager.Clear` | client/canvas.js:233-237 | both stacks are emptied |
| `Client.StepKeepsInSync` | client/main.js:90-131 | a client in step with the server that receives everything one event makes the server send it stays in step, unless it committed that stroke itself |
| `Client.RunKeepsInSync` | client/main.js:90-131 | the same over any sequence of events in which the client commits no stroke of its own: the two lists of operations agree on id, stroke and author, in order (timestamps aside) |
| `Client.ConnectionSyncsNewClient` | client/main.js:90-93 | after connecting, the new client holds exactly the server's operations and an empty redo stack |
| `Client.UndoRedoResync` | client/main.js:125-131 | after a successful undo or redo every client, the requester included, holds exactly the server's operations as emitted, with an empty redo stack |
| `Client.OwnStrokeNotRecorded` | server/server.js:56-64 | a client's own end_stroke sends it nothing, so it is one operation short of the server afterwards and no longer in step |
| `Client.UserLeftKeepsRemoteStroke` | client/main.js:141-144 | user_left removes the user's cursor but leaves remoteStrokes and the history unchanged |
| `Client.CollaborativeCanvas.constructor` | client/main.js:5-19 | empty history, no remote cursors, no remote strokes |
| `Client.CollaborativeCanvas.OnInitState` | client/main.js:90-93 | the client's operations become the sent list and the redo stack is emptied |
| `Client.CollaborativeCanvas.OnRemoteStrokeStart` | client/main.js:95-97 | that user's in-progress stroke becomes exactly the one point, whatever was there before |
| `Client.CollaborativeCanvas.OnRemoteDrawPoint` | client/main.js:99-106 | appends the point to that user's stroke if one exists, otherwise ignores it |
| `Client.CollaborativeCanvas.OnRemoteStrokeEnd` | client/main.js:108-115 | drops that user's in-progress stroke and appends `{id, stroke, userId}` to the operations, emptying the redo stack |
| `Client.CollaborativeCanvas.OnRemoteCursorMove` | client/main.js:117-123 | sets that user's cursor to the sent position and colour |
| `Client.CollaborativeCanvas.OnRemoteUndo` | client/main.js:125-127 | the client's operations become the sent list and the redo stack is emptied |
| `Client.CollaborativeCanvas.OnRemoteRedo` | client/main.js:129-131 | the client's operations become the sent list and the redo stack is emptied |
| `Client.CollaborativeCanvas.OnUserLeft` | client/main.js:141-144 | removes that user's cursor and leaves remoteStrokes as it was |

## Left out

- Rendering is not modelled: `drawLine`, `drawStroke`, `redrawCanvas`, `drawCursors`, `setupCanvas` and `setupEventListeners`. It only paints pixels.
- `getMousePos` is not modelled. It scales coordinates in floating point. The mouse handlers take the already-scaled position.
- The touch handlers are not modelled. They call `preventDefault` and then forward to the mouse handlers.
- The mouse handlers return the calls they make to `onStrokeStart`, `onDrawPoint`, `onStrokeEnd` and `onCursorMove`. The model assumes all four callbacks are installed, as the application does at start-up.
- What those callbacks do is not modelled: they only forward to the socket. The 50 ms `setTimeout` throttle on cursor reports is not modelled either.
- `client/websocket.js` is not part of this model. It only forwards socket events to callbacks.
- `updateUserList`, `setupUIEventListeners`, `onConnect`, `onUserList` and `onUserJoined` are not modelled. They only touch the DOM or the console, so `Receive` leaves the state unchanged for `user_list` and `user_joined`.
- The Express, HTTP and socket.io set-up and `server.listen` are not modelled, nor is console logging.
- Transport is not modelled. Emissions are an outbox; `Deliver` hands a client every emission addressed to it, in emission order. The model does not track which sockets are connected. `io.emit` (`ToAll`) reaches every socket id, the sender included. `socket.broadcast.emit` (`ToOthers`) reaches every id but the sender's. Neither checks whether the socket is connected. In particular the departing socket is modelled as receiving its own disconnect's `user_list` and `user_left`.
- Operation ids are unbounded. JavaScript numbers are doubles, so `operationIdCounter++` stops growing at 2^53 and ids would repeat from there. The model's counter is a `nat`, so `CommittedPrecedeUndone` and `RunAnnouncesEveryId` hold with no bound.
- Payloads are assumed well-typed, as the client in `client/websocket.js` sends them. A missing or malformed field (an `end_stroke` with no `stroke`, or no payload at all) cannot be expressed: the `end_stroke` handler would commit `undefined` or throw a TypeError.
- Concurrency is not modelled. Events are handled one at a time, to completion, which is how the server's single-threaded dispatch behaves.
- Aliasing is not modelled. `getOperations` returns the live array; the model uses its value when it is emitted. `onRemoteDrawPoint` pushes onto the array held in the map; the model replaces the map entry, and no other reference to that array exists.
- Pen settings are simplified. The width is any integer: `parseInt` yielding NaN is not modelled. The tool is one of the two values the UI passes.
