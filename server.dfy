/**
 * The socket.io connection handler of the server: what it does to the
 * shared DrawingState and RoomManager on each inbound event, and which
 * messages it emits to which audience.
 *
 * Emitting is modelled as appending to an outbox: `socket.emit` reaches the
 * handler's own socket, `socket.broadcast.emit` every other connection and
 * `io.emit` every connection. Events are handled one at a time, to completion.
 */
module Server {
  import opened Drawing
  import opened OperationLog
  import opened Rooms

  /** The colours a new participant may be given. */
  const Palette: seq<Color> := [
    "#FF6B6B", "#4ECDC4", "#45B7D1", "#FFA07A", "#98D8C8",
    "#F7DC6F", "#BB8FCE", "#85C1E2", "#F8B739", "#52B788"
  ]

  /**
   * generateRandomColor, given the reading of Math.random it takes
   * (a number in [0, 1)).
   */
  function GenerateRandomColor(random: real): (c: Color)
    requires 0.0 <= random < 1.0
    ensures c in Palette
  {
    Palette[(random * (|Palette| as real)).Floor]
  }

  /** Who receives an emitted message, relative to the handler's socket. */
  datatype Audience =
    | ToSender   // socket.emit
    | ToOthers   // socket.broadcast.emit
    | ToAll      // io.emit

  /** Messages the server sends. */
  datatype Message =
    | InitState(operations: seq<Operation>, users: seq<User>)
    | UserList(users: seq<User>)
    | UserJoined(userId: UserId, color: Color)
    | UserLeft(userId: UserId)
    | RemoteStrokeStart(userId: UserId, point: Point)
    | RemoteDrawPoint(userId: UserId, point: Point)
    | RemoteStrokeEnd(id: nat, stroke: Stroke, userId: UserId)
    | RemoteCursorMove(userId: UserId, position: Position, color: Color)
    | RemoteUndo(operations: seq<Operation>)
    | RemoteRedo(operations: seq<Operation>)

  /** One emission: the audience, the socket whose handler emitted it, and the message. */
  datatype Envelope = Envelope(audience: Audience, socket: UserId, message: Message)

  /**
   * What arrives on a socket. The readings of Math.random and Date.now that
   * the handler takes are carried with the event that triggers them.
   */
  datatype Event =
    | Connection(random: real, now: Timestamp)
    | StartStroke(point: Point)
    | DrawPoint(point: Point)
    | EndStroke(stroke: Stroke, now: Timestamp)
    | CursorMove(position: Position)
    | UndoRequest
    | RedoRequest
    | Disconnection

  predicate ValidEvent(e: Event)
  {
    e.Connection? ==> 0.0 <= e.random < 1.0
  }

  datatype Inbound = Inbound(socket: UserId, event: Event)

  /**
   * The shared state: the drawing log, the registry's users, and for every
   * socket whose handlers are installed the colour its connection handler
   * picked (the closure variable `userColor`).
   */
  datatype ServerState = ServerState(log: Log, users: seq<User>, colors: map<UserId, Color>)

  const Initial: ServerState := ServerState(Empty, [], map[])

  /**
   * The sockets with installed handlers are exactly the registered users, and
   * the colour each handler captured is the one stored in its user record.
   */
  ghost predicate Registered(users: seq<User>, colors: map<UserId, Color>)
  {
    colors == ColorsOf(users)
  }

  /** The colour of every registered user, read off the registry. */
  function ColorsOf(users: seq<User>): map<UserId, Color>
  {
    if users == [] then map[] else ColorsOf(users[1..])[users[0].id := users[0].color]
  }

  /** A socket has a colour exactly when it is registered, and it is the colour of its record. */
  lemma {:induction false} ColorsOfGet(users: seq<User>, u: UserId)
    requires UniqueIds(users)
    ensures u in ColorsOf(users) <==> Get(users, u).Some?
    ensures u in ColorsOf(users) ==> ColorsOf(users)[u] == Get(users, u).value.color
  {
    if users != [] {
      ColorsOfGet(users[1..], u);
    }
  }

  /** In every state satisfying the invariant, handlers and registry agree. */
  lemma InvRegistered(s: ServerState)
    requires Inv(s)
    ensures forall u :: u in s.colors <==> Get(s.users, u).Some?
    ensures forall u :: u in s.colors ==> Get(s.users, u).Some? && Get(s.users, u).value.color == s.colors[u]
  {
    forall u
      ensures u in s.colors <==> Get(s.users, u).Some?
      ensures u in s.colors ==> Get(s.users, u).Some? && Get(s.users, u).value.color == s.colors[u]
    {
      ColorsOfGet(s.users, u);
    }
  }

  ghost predicate Inv(s: ServerState)
  {
    WellFormed(s.log) && UniqueIds(s.users) && Registered(s.users, s.colors)
  }

  /** The connection handler registers the socket under the colour it captures. */
  lemma RegisteredAfterPut(users: seq<User>, colors: map<UserId, Color>, user: User)
    requires UniqueIds(users) && Registered(users, colors)
    ensures UniqueIds(Put(users, user)) && Registered(Put(users, user), colors[user.id := user.color])
  {
    var r := Put(users, user);
    PutThenGet(users, user);
    forall u
      ensures u in ColorsOf(r) <==> u in colors[user.id := user.color]
      ensures u in ColorsOf(r) ==> ColorsOf(r)[u] == colors[user.id := user.color][u]
    {
      ColorsOfGet(users, u);
      ColorsOfGet(r, u);
    }
  }

  /** The disconnect handler unregisters the socket together with its handlers. */
  lemma RegisteredAfterDelete(users: seq<User>, colors: map<UserId, Color>, id: UserId)
    requires UniqueIds(users) && Registered(users, colors)
    ensures UniqueIds(Delete(users, id)) && Registered(Delete(users, id), colors - {id})
  {
    var r := Delete(users, id);
    DeleteThenGet(users, id);
    forall u
      ensures u in ColorsOf(r) <==> u in colors - {id}
      ensures u in ColorsOf(r) ==> ColorsOf(r)[u] == (colors - {id})[u]
    {
      ColorsOfGet(users, u);
      ColorsOfGet(r, u);
    }
  }

  /** Only these three events reach the drawing log. */
  predicate TouchesLog(e: Event)
  {
    e.EndStroke? || e.UndoRequest? || e.RedoRequest?
  }

  /**
   * Handles one event on `socket`. An event other than a connection on a
   * socket with no installed handlers is dropped.
   */
  function Step(s: ServerState, socket: UserId, e: Event): (r: (ServerState, seq<Envelope>))
    requires ValidEvent(e)
    ensures !TouchesLog(e) ==> r.0.log == s.log
    ensures TouchesLog(e) ==> r.0.users == s.users && r.0.colors == s.colors
    ensures r.0.log.counter == s.log.counter || r.0.log.counter == s.log.counter + 1
  {
    if !e.Connection? && socket !in s.colors then (s, [])
    else match e
      case Connection(random, now) =>
        // socket.io hands every connection a fresh id; should an id come back,
        // its record and captured colour are replaced.
        var color := GenerateRandomColor(random);
        var users := Put(s.users, User(socket, color, now));
        (ServerState(s.log, users, s.colors[socket := color]),
         [Envelope(ToSender, socket, InitState(s.log.history.operations, users)),
          Envelope(ToAll, socket, UserList(users)),
          Envelope(ToOthers, socket, UserJoined(socket, color))])
      case StartStroke(point) =>
        (s, [Envelope(ToOthers, socket, RemoteStrokeStart(socket, point))])
      case DrawPoint(point) =>
        (s, [Envelope(ToOthers, socket, RemoteDrawPoint(socket, point))])
      case EndStroke(stroke, now) =>
        var (log, op) := Committed(s.log, stroke, socket, now);
        (s.(log := log), [Envelope(ToOthers, socket, RemoteStrokeEnd(op.id, op.stroke, socket))])
      case CursorMove(position) =>
        (s, [Envelope(ToOthers, socket, RemoteCursorMove(socket, position, s.colors[socket]))])
      case UndoRequest =>
        var (log, success) := Undone(s.log);
        (s.(log := log), if success then [Envelope(ToAll, socket, RemoteUndo(log.history.operations))] else [])
      case RedoRequest =>
        var (log, success) := Redone(s.log);
        (s.(log := log), if success then [Envelope(ToAll, socket, RemoteRedo(log.history.operations))] else [])
      case Disconnection =>
        var users := Delete(s.users, socket);
        (ServerState(s.log, users, s.colors - {socket}),
         [Envelope(ToAll, socket, UserList(users)), Envelope(ToAll, socket, UserLeft(socket))])
  }

  /** Handles a sequence of events in order, collecting every emission. */
  function Run(s: ServerState, events: seq<Inbound>): (ServerState, seq<Envelope>)
    requires forall i :: 0 <= i < |events| ==> ValidEvent(events[i].event)
    decreases |events|
  {
    if events == [] then (s, [])
    else
      var (s1, out1) := Step(s, events[0].socket, events[0].event);
      var (s2, out2) := Run(s1, events[1..]);
      (s2, out1 + out2)
  }

  lemma StepKeepsInv(s: ServerState, socket: UserId, e: Event)
    requires Inv(s) && ValidEvent(e)
    ensures Inv(Step(s, socket, e).0)
  {
    if e.Connection? || socket in s.colors {
      match e
      case Connection(random, now) =>
        RegisteredAfterPut(s.users, s.colors, User(socket, GenerateRandomColor(random), now));
      case EndStroke(stroke, now) =>
        CommittedKeepsWellFormed(s.log, stroke, socket, now);
      case UndoRequest =>
        UndoRedoKeepWellFormed(s.log);
      case RedoRequest =>
        UndoRedoKeepWellFormed(s.log);
      case Disconnection =>
        RegisteredAfterDelete(s.users, s.colors, socket);
      case _ =>
    }
  }

  /** Every reachable state keeps the id discipline of the log and distinct user ids. */
  lemma {:induction false} RunKeepsInv(s: ServerState, events: seq<Inbound>)
    requires Inv(s)
    requires forall i :: 0 <= i < |events| ==> ValidEvent(events[i].event)
    ensures Inv(Run(s, events).0)
    decreases |events|
  {
    if events != [] {
      StepKeepsInv(s, events[0].socket, events[0].event);
      RunKeepsInv(Step(s, events[0].socket, events[0].event).0, events[1..]);
    }
  }

  /**
   * On connection the new socket is registered with a palette colour; it
   * first receives, alone, the current operations and a user list that
   * already holds it; then everybody gets the user list and everybody else
   * the join notice.
   */
  lemma ConnectionAnnounces(s: ServerState, socket: UserId, random: real, now: Timestamp)
    requires UniqueIds(s.users) && 0.0 <= random < 1.0
    ensures
      var (s', out) := Step(s, socket, Connection(random, now));
      var color := s'.colors[socket];
      && socket in s'.colors && color in Palette
      && s'.log == s.log
      && Get(s'.users, socket) == Some(User(socket, color, now))
      && |out| == 3
      && out[0] == Envelope(ToSender, socket, InitState(s.log.history.operations, s'.users))
      && out[1] == Envelope(ToAll, socket, UserList(s'.users))
      && out[2] == Envelope(ToOthers, socket, UserJoined(socket, color))
  {
    PutThenGet(s.users, User(socket, GenerateRandomColor(random), now));
  }

  /**
   * start_stroke, draw_point and cursor_move change nothing and send exactly
   * one message, to everybody but the sender, naming the sender; the cursor
   * carries the colour picked at connection.
   */
  lemma RelaysOnlyForward(s: ServerState, socket: UserId, e: Event)
    requires e.StartStroke? || e.DrawPoint? || e.CursorMove?
    requires socket in s.colors
    ensures
      var (s', out) := Step(s, socket, e);
      && s' == s
      && |out| == 1 && out[0].audience == ToOthers && out[0].socket == socket
      && (e.StartStroke? ==> out[0].message == RemoteStrokeStart(socket, e.point))
      && (e.DrawPoint? ==> out[0].message == RemoteDrawPoint(socket, e.point))
      && (e.CursorMove? ==> out[0].message == RemoteCursorMove(socket, e.position, s.colors[socket]))
    ensures Inv(s) && e.CursorMove? ==>
      Get(s.users, socket).Some? && Step(s, socket, e).1[0].message.color == Get(s.users, socket).value.color
  {
    if Inv(s) {
      ColorsOfGet(s.users, socket);
    }
  }

  /**
   * end_stroke commits exactly one operation, the sender's stroke under the
   * next id, and tells everybody but the sender.
   */
  lemma EndStrokeCommits(s: ServerState, socket: UserId, stroke: Stroke, now: Timestamp)
    requires socket in s.colors
    ensures
      var (s', out) := Step(s, socket, EndStroke(stroke, now));
      && s'.log.history.operations == s.log.history.operations + [Operation(s.log.counter, stroke, socket, Some(now))]
      && s'.log.history.redoStack == []
      && s'.log.counter == s.log.counter + 1
      && out == [Envelope(ToOthers, socket, RemoteStrokeEnd(s.log.counter, stroke, socket))]
  {
  }

  /**
   * undo is broadcast to everybody, with the operations as they stand after
   * it, exactly when it succeeded; otherwise nothing is sent and nothing changes.
   */
  lemma UndoBroadcastsOnSuccess(s: ServerState, socket: UserId)
    requires socket in s.colors
    ensures
      var (s', out) := Step(s, socket, UndoRequest);
      && s'.log == Undone(s.log).0
      && (out != [] <==> s.log.history.operations != [])
      && (out == [] ==> s' == s)
      && (out != [] ==> out == [Envelope(ToAll, socket, RemoteUndo(s'.log.history.operations))])
  {
  }

  /** redo, symmetrically, with the redo stack. */
  lemma RedoBroadcastsOnSuccess(s: ServerState, socket: UserId)
    requires socket in s.colors
    ensures
      var (s', out) := Step(s, socket, RedoRequest);
      && s'.log == Redone(s.log).0
      && (out != [] <==> s.log.history.redoStack != [])
      && (out == [] ==> s' == s)
      && (out != [] ==> out == [Envelope(ToAll, socket, RemoteRedo(s'.log.history.operations))])
  {
  }

  /**
   * disconnect removes exactly that user, leaves the log alone (an unfinished
   * stroke was never committed), and sends the new user list and the leave
   * notice to everybody.
   */
  lemma DisconnectionRemovesUser(s: ServerState, socket: UserId)
    requires Inv(s) && socket in s.colors
    ensures
      var (s', out) := Step(s, socket, Disconnection);
      && s'.log == s.log
      && |s'.users| == |s.users| - 1
      && Get(s'.users, socket) == None
      && (forall other :: other != socket ==> Get(s'.users, other) == Get(s.users, other))
      && socket !in s'.colors
      && out == [Envelope(ToAll, socket, UserList(s'.users)), Envelope(ToAll, socket, UserLeft(socket))]
  {
    ColorsOfGet(s.users, socket);
    DeleteThenGet(s.users, socket);
  }

  /** Events on a socket whose handlers are not installed are not seen at all. */
  lemma UnknownSocketIgnored(s: ServerState, socket: UserId, e: Event)
    requires !e.Connection? && socket !in s.colors
    ensures Step(s, socket, e) == (s, [])
  {
  }

  /** The ids announced by remote_stroke_end messages, in emission order. */
  function StrokeEndIds(out: seq<Envelope>): seq<nat>
  {
    if out == [] then []
    else (if out[0].message.RemoteStrokeEnd? then [out[0].message.id] else []) + StrokeEndIds(out[1..])
  }

  /** The ids from..to-1 in increasing order. */
  function Range(from: nat, to: nat): (r: seq<nat>)
    requires from <= to
    ensures |r| == to - from
    ensures forall k :: 0 <= k < |r| ==> r[k] == from + k
  {
    seq(to - from, k requires 0 <= k < to - from => from + k)
  }

  lemma RangeConcat(a: nat, b: nat, c: nat)
    requires a <= b <= c
    ensures Range(a, b) + Range(b, c) == Range(a, c)
  {
    assert forall k :: 0 <= k < c - a ==> (Range(a, b) + Range(b, c))[k] == a + k;
  }

  lemma {:induction false} StrokeEndIdsAppend(a: seq<Envelope>, b: seq<Envelope>)
    ensures StrokeEndIds(a + b) == StrokeEndIds(a) + StrokeEndIds(b)
  {
    if a != [] {
      StrokeEndIdsAppend(a[1..], b);
      assert (a + b)[0] == a[0];
      assert (a + b)[1..] == a[1..] + b;
    } else {
      assert a + b == b;
    }
  }

  /** One step announces the id it commits, if any. */
  lemma StepStrokeEndIds(s: ServerState, socket: UserId, e: Event)
    requires ValidEvent(e)
    ensures StrokeEndIds(Step(s, socket, e).1) == Range(s.log.counter, Step(s, socket, e).0.log.counter)
  {
    var (s', out) := Step(s, socket, e);
    if e.Connection? && |out| == 3 {
      assert StrokeEndIds(out) == StrokeEndIds(out[1..]);
      assert StrokeEndIds(out[1..]) == StrokeEndIds(out[2..]);
    } else if |out| == 2 {
      assert StrokeEndIds(out) == StrokeEndIds(out[1..]);
    }
  }

  /**
   * Across any sequence of events from any senders, the remote_stroke_end
   * messages announce every id the log hands out, once each, in increasing
   * order and without gaps.
   */
  lemma {:induction false} RunAnnouncesEveryId(s: ServerState, events: seq<Inbound>)
    requires forall i :: 0 <= i < |events| ==> ValidEvent(events[i].event)
    ensures s.log.counter <= Run(s, events).0.log.counter
    ensures StrokeEndIds(Run(s, events).1) == Range(s.log.counter, Run(s, events).0.log.counter)
    decreases |events|
  {
    if events != [] {
      var (s1, out1) := Step(s, events[0].socket, events[0].event);
      var (s2, out2) := Run(s1, events[1..]);
      StepStrokeEndIds(s, events[0].socket, events[0].event);
      RunAnnouncesEveryId(s1, events[1..]);
      StrokeEndIdsAppend(out1, out2);
      RangeConcat(s.log.counter, s1.log.counter, s2.log.counter);
    }
  }

  /** In particular the announced ids strictly increase. */
  lemma RunStrokeEndIdsIncrease(s: ServerState, events: seq<Inbound>)
    requires forall i :: 0 <= i < |events| ==> ValidEvent(events[i].event)
    ensures var ids := StrokeEndIds(Run(s, events).1);
      forall i, j :: 0 <= i < j < |ids| ==> ids[i] < ids[j]
  {
    RunAnnouncesEveryId(s, events);
  }

  /**
   * The server process: the shared DrawingState and RoomManager, and the
   * colour each connection's handler captured.
   */
  class CanvasServer {
    const drawingState: DrawingState
    const roomManager: RoomManager
    var userColors: map<UserId, Color>

    ghost predicate Valid()
      reads this, drawingState, roomManager
    {
      drawingState.Valid() && roomManager.Valid() && Registered(roomManager.users, userColors)
    }

    function State(): ServerState
      reads this, drawingState, roomManager
    {
      ServerState(drawingState.Value(), roomManager.users, userColors)
    }

    constructor ()
      ensures Valid() && State() == Initial
    {
      drawingState := new DrawingState();
      roomManager := new RoomManager();
      userColors := map[];
    }

    method OnConnection(socket: UserId, random: real, now: Timestamp) returns (out: seq<Envelope>)
      requires Valid() && 0.0 <= random < 1.0
      modifies this, roomManager
      ensures Valid()
      ensures (State(), out) == Step(old(State()), socket, Connection(random, now))
    {
      var userColor := GenerateRandomColor(random);
      RegisteredAfterPut(roomManager.users, userColors, User(socket, userColor, now));
      userColors := userColors[socket := userColor];
      roomManager.AddUser(socket, userColor, now);
      var operations := drawingState.GetOperations();
      var users := roomManager.GetUsers();
      out := [Envelope(ToSender, socket, InitState(operations, users))];
      users := roomManager.GetUsers();
      out := out + [Envelope(ToAll, socket, UserList(users))];
      out := out + [Envelope(ToOthers, socket, UserJoined(socket, userColor))];
      ghost var r := Step(old(State()), socket, Connection(random, now));
      assert r.0 == State() && r.1 == out;
    }

    method OnStartStroke(socket: UserId, point: Point) returns (out: seq<Envelope>)
      requires socket in userColors
      ensures out == [Envelope(ToOthers, socket, RemoteStrokeStart(socket, point))]
      ensures Step(State(), socket, StartStroke(point)) == (State(), out)
    {
      out := [Envelope(ToOthers, socket, RemoteStrokeStart(socket, point))];
    }

    method OnDrawPoint(socket: UserId, point: Point) returns (out: seq<Envelope>)
      requires socket in userColors
      ensures out == [Envelope(ToOthers, socket, RemoteDrawPoint(socket, point))]
      ensures Step(State(), socket, DrawPoint(point)) == (State(), out)
    {
      out := [Envelope(ToOthers, socket, RemoteDrawPoint(socket, point))];
    }

    method OnEndStroke(socket: UserId, stroke: Stroke, now: Timestamp) returns (out: seq<Envelope>)
      requires Valid() && socket in userColors
      modifies drawingState
      ensures Valid()
      ensures (State(), out) == Step(old(State()), socket, EndStroke(stroke, now))
    {
      var operation := drawingState.AddStroke(stroke, socket, now);
      out := [Envelope(ToOthers, socket, RemoteStrokeEnd(operation.id, operation.stroke, socket))];
    }

    method OnCursorMove(socket: UserId, position: Position) returns (out: seq<Envelope>)
      requires socket in userColors
      ensures out == [Envelope(ToOthers, socket, RemoteCursorMove(socket, position, userColors[socket]))]
      ensures Step(State(), socket, CursorMove(position)) == (State(), out)
    {
      out := [Envelope(ToOthers, socket, RemoteCursorMove(socket, position, userColors[socket]))];
    }

    method OnUndo(socket: UserId) returns (out: seq<Envelope>)
      requires Valid() && socket in userColors
      modifies drawingState
      ensures Valid()
      ensures (State(), out) == Step(old(State()), socket, UndoRequest)
    {
      var success := drawingState.Undo();
      out := [];
      if success {
        var operations := drawingState.GetOperations();
        out := [Envelope(ToAll, socket, RemoteUndo(operations))];
      }
    }

    method OnRedo(socket: UserId) returns (out: seq<Envelope>)
      requires Valid() && socket in userColors
      modifies drawingState
      ensures Valid()
      ensures (State(), out) == Step(old(State()), socket, RedoRequest)
    {
      var success := drawingState.Redo();
      out := [];
      if success {
        var operations := drawingState.GetOperations();
        out := [Envelope(ToAll, socket, RemoteRedo(operations))];
      }
    }

    method OnDisconnect(socket: UserId) returns (out: seq<Envelope>)
      requires Valid() && socket in userColors
      modifies this, roomManager
      ensures Valid()
      ensures (State(), out) == Step(old(State()), socket, Disconnection)
    {
      RegisteredAfterDelete(roomManager.users, userColors, socket);
      roomManager.RemoveUser(socket);
      userColors := userColors - {socket};
      var users := roomManager.GetUsers();
      out := [Envelope(ToAll, socket, UserList(users))];
      out := out + [Envelope(ToAll, socket, UserLeft(socket))];
      ghost var r := Step(old(State()), socket, Disconnection);
      assert r.0 == State() && r.1 == out;
    }
  }
}
