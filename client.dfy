/**
 * The browser application (class CollaborativeCanvas): the in-progress
 * strokes of other participants, and the callbacks that apply each server
 * message to the client's copy of the shared state.
 *
 * The second half relates that copy to the server: a client that keeps
 * receiving what the server sends it holds operations that agree with the
 * server's on id, stroke and author, in order, except after committing a
 * stroke of its own.
 */
module Client {
  import opened Drawing
  import opened OperationLog
  import opened Rooms
  import opened Server
  import opened Canvas

  /**
   * The part of a client's state that server messages change: its history,
   * the other participants' cursors and their strokes under way.
   */
  datatype Replica = Replica(history: History, remoteCursors: map<UserId, Cursor>, remoteStrokes: map<UserId, Stroke>)

  /** What the application does on receiving one message (rendering and the user list DOM left aside). */
  function Receive(r: Replica, m: Message): Replica
  {
    match m
    case InitState(ops, _) => r.(history := History(ops, []))
    case UserList(_) => r
    case UserJoined(_, _) => r
    case UserLeft(u) => r.(remoteCursors := r.remoteCursors - {u})
    case RemoteStrokeStart(u, p) => r.(remoteStrokes := r.remoteStrokes[u := [p]])
    case RemoteDrawPoint(u, p) =>
      if u in r.remoteStrokes then r.(remoteStrokes := r.remoteStrokes[u := r.remoteStrokes[u] + [p]]) else r
    case RemoteStrokeEnd(id, stroke, u) =>
      Replica(Commit(r.history, Operation(id, stroke, u, None)), r.remoteCursors, r.remoteStrokes - {u})
    case RemoteCursorMove(u, pos, color) => r.(remoteCursors := r.remoteCursors[u := Cursor(pos, color)])
    case RemoteUndo(ops) => r.(history := History(ops, []))
    case RemoteRedo(ops) => r.(history := History(ops, []))
  }

  /** Whether the connection `me` receives an emission. */
  predicate Addressed(env: Envelope, me: UserId)
  {
    match env.audience
    case ToSender => env.socket == me
    case ToOthers => env.socket != me
    case ToAll => true
  }

  /** The replica after `me` has received, in order, the emissions addressed to it. */
  function Deliver(r: Replica, me: UserId, out: seq<Envelope>): Replica
    decreases |out|
  {
    if out == [] then r
    else Deliver(if Addressed(out[0], me) then Receive(r, out[0].message) else r, me, out[1..])
  }

  /** Operations with their timestamps erased: the client's own records carry none. */
  function Untimed(ops: seq<Operation>): (r: seq<Operation>)
    ensures |r| == |ops|
    ensures forall i :: 0 <= i < |ops| ==> r[i] == ops[i].(timestamp := None)
  {
    seq(|ops|, i requires 0 <= i < |ops| => ops[i].(timestamp := None))
  }

  /** The replica holds the server's committed operations, in order, up to timestamps. */
  ghost predicate InSync(r: Replica, s: ServerState)
  {
    Untimed(r.history.operations) == Untimed(s.log.history.operations)
  }

  lemma {:induction false} DeliverAppend(r: Replica, me: UserId, a: seq<Envelope>, b: seq<Envelope>)
    ensures Deliver(r, me, a + b) == Deliver(Deliver(r, me, a), me, b)
    decreases |a|
  {
    if a == [] {
      assert a + b == b;
    } else {
      assert (a + b)[0] == a[0];
      assert (a + b)[1..] == a[1..] + b;
      DeliverAppend(if Addressed(a[0], me) then Receive(r, a[0].message) else r, me, a[1..], b);
    }
  }

  /** Messages that leave the replica's operations alone. */
  predicate KeepsOperations(m: Message)
  {
    m.UserList? || m.UserJoined? || m.UserLeft? || m.RemoteStrokeStart? || m.RemoteDrawPoint? || m.RemoteCursorMove?
  }

  lemma {:induction false} DeliverKeepsOperations(r: Replica, me: UserId, out: seq<Envelope>)
    requires forall i :: 0 <= i < |out| ==> KeepsOperations(out[i].message)
    ensures Deliver(r, me, out).history == r.history
    decreases |out|
  {
    if out != [] {
      DeliverKeepsOperations(if Addressed(out[0], me) then Receive(r, out[0].message) else r, me, out[1..]);
    }
  }

  /**
   * A client that receives everything one event makes the server send it
   * stays in step with the server's log, unless the event is a stroke it
   * committed itself.
   */
  lemma StepKeepsInSync(s: ServerState, r: Replica, me: UserId, socket: UserId, e: Event)
    requires ValidEvent(e) && InSync(r, s)
    requires !(socket == me && e.EndStroke?)
    ensures InSync(Deliver(r, me, Step(s, socket, e).1), Step(s, socket, e).0)
  {
    var (s', out) := Step(s, socket, e);
    if !e.Connection? && socket !in s.colors {
      assert out == [];
    } else {
      match e
      case Connection(_, _) =>
        var r1 := if socket == me then Receive(r, out[0].message) else r;
        assert InSync(r1, s');
        DeliverKeepsOperations(r1, me, out[1..]);
      case EndStroke(stroke, now) =>
        var ops := r.history.operations;
        var op := Operation(s.log.counter, stroke, socket, None);
        assert Deliver(r, me, out) == Receive(r, out[0].message);
        assert Untimed(ops + [op]) == Untimed(ops) + [op];
        assert Untimed(s'.log.history.operations)
            == Untimed(s.log.history.operations) + [op];
      case UndoRequest =>
        if out != [] {
          assert Deliver(r, me, out) == Receive(r, out[0].message);
        }
      case RedoRequest =>
        if out != [] {
          assert Deliver(r, me, out) == Receive(r, out[0].message);
        }
      case _ =>
        DeliverKeepsOperations(r, me, out);
    }
  }

  /**
   * Over any sequence of events in which `me` commits no stroke itself, a
   * replica that starts in step with the server and receives everything
   * addressed to it ends in step: the operations agree on id, stroke and
   * author, in order.
   */
  lemma {:induction false} RunKeepsInSync(s: ServerState, r: Replica, me: UserId, events: seq<Inbound>)
    requires forall i :: 0 <= i < |events| ==> ValidEvent(events[i].event)
    requires forall i :: 0 <= i < |events| ==> !(events[i].socket == me && events[i].event.EndStroke?)
    requires InSync(r, s)
    ensures InSync(Deliver(r, me, Run(s, events).1), Run(s, events).0)
    decreases |events|
  {
    if events != [] {
      var (s1, out1) := Step(s, events[0].socket, events[0].event);
      var (s2, out2) := Run(s1, events[1..]);
      StepKeepsInSync(s, r, me, events[0].socket, events[0].event);
      RunKeepsInSync(s1, Deliver(r, me, out1), me, events[1..]);
      DeliverAppend(r, me, out1, out2);
    }
  }

  /** On connection, init_state gives the new client exactly the server's operations. */
  lemma ConnectionSyncsNewClient(s: ServerState, r: Replica, me: UserId, random: real, now: Timestamp)
    requires 0.0 <= random < 1.0
    ensures
      var (s', out) := Step(s, me, Connection(random, now));
      Deliver(r, me, out).history == History(s'.log.history.operations, [])
  {
    var (s', out) := Step(s, me, Connection(random, now));
    DeliverKeepsOperations(Receive(r, out[0].message), me, out[1..]);
  }

  /**
   * After a successful undo or redo every client, the requester included,
   * holds exactly the server's operations as they stood at emission, and an
   * empty redo stack.
   */
  lemma UndoRedoResync(s: ServerState, r: Replica, me: UserId, socket: UserId, e: Event)
    requires e.UndoRequest? || e.RedoRequest?
    requires Step(s, socket, e).1 != []
    ensures Deliver(r, me, Step(s, socket, e).1).history == History(Step(s, socket, e).0.log.history.operations, [])
  {
    var (s', out) := Step(s, socket, e);
    assert Deliver(r, me, out) == Receive(r, out[0].message);
  }

  /**
   * The client's own stroke never enters its own operations: the server
   * commits it but sends remote_stroke_end only to the others, so a client
   * in step before is one operation short after.
   */
  lemma OwnStrokeNotRecorded(s: ServerState, r: Replica, me: UserId, stroke: Stroke, now: Timestamp)
    requires me in s.colors && InSync(r, s)
    ensures Deliver(r, me, Step(s, me, EndStroke(stroke, now)).1) == r
    ensures |Step(s, me, EndStroke(stroke, now)).0.log.history.operations| == |r.history.operations| + 1
    ensures !InSync(r, Step(s, me, EndStroke(stroke, now)).0)
  {
    var (s', out) := Step(s, me, EndStroke(stroke, now));
    assert |Untimed(r.history.operations)| == |Untimed(s.log.history.operations)|;
  }

  /**
   * user_left erases the departed user's cursor but not a stroke they left
   * unfinished: that entry stays until the same user id starts or ends a stroke.
   */
  lemma UserLeftKeepsRemoteStroke(r: Replica, u: UserId)
    ensures u !in Receive(r, UserLeft(u)).remoteCursors
    ensures Receive(r, UserLeft(u)).remoteStrokes == r.remoteStrokes
    ensures Receive(r, UserLeft(u)).history == r.history
  {
  }

  /** The application object of one browser tab. */
  class CollaborativeCanvas {
    const canvasManager: CanvasManager
    var remoteStrokes: map<UserId, Stroke>

    function View(): Replica
      reads this, canvasManager
    {
      Replica(canvasManager.Stacks(), canvasManager.remoteCursors, remoteStrokes)
    }

    constructor ()
      ensures canvasManager.Valid() && fresh(canvasManager)
      ensures View() == Replica(History([], []), map[], map[])
    {
      canvasManager := new CanvasManager();
      remoteStrokes := map[];
    }

    method OnInitState(operations: seq<Operation>, users: seq<User>)
      modifies canvasManager`operations, canvasManager`redoStack
      ensures View() == Receive(old(View()), InitState(operations, users))
      ensures canvasManager.operations == operations && canvasManager.redoStack == []
    {
      canvasManager.SetOperations(operations);
    }

    method OnRemoteStrokeStart(userId: UserId, point: Point)
      modifies this`remoteStrokes
      ensures View() == Receive(old(View()), RemoteStrokeStart(userId, point))
      ensures remoteStrokes == old(remoteStrokes)[userId := [point]]
    {
      remoteStrokes := remoteStrokes[userId := [point]];
    }

    method OnRemoteDrawPoint(userId: UserId, point: Point)
      modifies this`remoteStrokes
      ensures View() == Receive(old(View()), RemoteDrawPoint(userId, point))
      ensures userId in old(remoteStrokes) ==>
                remoteStrokes == old(remoteStrokes)[userId := old(remoteStrokes)[userId] + [point]]
      ensures userId !in old(remoteStrokes) ==> remoteStrokes == old(remoteStrokes)
    {
      if userId in remoteStrokes {
        var stroke := remoteStrokes[userId];
        remoteStrokes := remoteStrokes[userId := stroke + [point]];
      }
    }

    method OnRemoteStrokeEnd(id: nat, stroke: Stroke, userId: UserId)
      modifies this`remoteStrokes, canvasManager`operations, canvasManager`redoStack
      ensures View() == Receive(old(View()), RemoteStrokeEnd(id, stroke, userId))
      ensures remoteStrokes == old(remoteStrokes) - {userId}
      ensures canvasManager.operations == old(canvasManager.operations) + [Operation(id, stroke, userId, None)]
      ensures canvasManager.redoStack == []
    {
      remoteStrokes := remoteStrokes - {userId};
      canvasManager.AddOperation(Operation(id, stroke, userId, None));
    }

    method OnRemoteCursorMove(userId: UserId, position: Position, color: Color)
      modifies canvasManager`remoteCursors
      ensures View() == Receive(old(View()), RemoteCursorMove(userId, position, color))
    {
      canvasManager.UpdateRemoteCursor(userId, position, color);
    }

    method OnRemoteUndo(operations: seq<Operation>)
      modifies canvasManager`operations, canvasManager`redoStack
      ensures View() == Receive(old(View()), RemoteUndo(operations))
      ensures canvasManager.operations == operations && canvasManager.redoStack == []
    {
      canvasManager.SetOperations(operations);
    }

    method OnRemoteRedo(operations: seq<Operation>)
      modifies canvasManager`operations, canvasManager`redoStack
      ensures View() == Receive(old(View()), RemoteRedo(operations))
      ensures canvasManager.operations == operations && canvasManager.redoStack == []
    {
      canvasManager.SetOperations(operations);
    }

    method OnUserLeft(userId: UserId)
      modifies canvasManager`remoteCursors
      ensures View() == Receive(old(View()), UserLeft(userId))
      ensures userId !in canvasManager.remoteCursors && remoteStrokes == old(remoteStrokes)
    {
      canvasManager.RemoveRemoteCursor(userId);
    }
  }
}
