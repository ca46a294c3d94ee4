// The App component as an object: its React state and refs are fields, and
// each handler, socket callback, timer and effect is a method that updates
// them in the order the component does. Every method is proved to perform
// the matching transition of module Session, and to keep its invariant.
module App {
  import opened Common
  import opened Session

  class Component {
    var user: Option<User>
    var client: Option<ClientId>
    var messages: seq<ChatMessage>
    var connectionError: Option<string>
    var isConnected: bool
    var isConnecting: bool
    var usersTyping: seq<string>
    var roomOperationQueue: Option<RoomOp>
    var clientRef: Option<ClientId>
    var handlers: seq<Closure>     // the closure each constructed client's event handler holds
    var inFlight: seq<RoomCall>    // room operations started and not yet settled
    var timers: seq<Closure>       // pending setTimeout rejoins, earliest first
    var store: Option<User>        // the "teleparty-session" entry
    const wire: SocketLog

    /** The component's state as a value of module Session. */
    function State(): AppState
      reads this, wire
    {
      AppState(user, client, clientRef, messages, connectionError, isConnected, isConnecting,
               usersTyping, roomOperationQueue, handlers, inFlight, timers, wire.sent, store)
    }

    ghost predicate Valid()
      reads this, wire
    {
      Inv(State())
    }

    /** The first render: `user` is what the store held. */
    constructor (saved: Option<User>)
      ensures fresh(wire)
      ensures State() == Initial(saved) && Valid()
    {
      user := saved;
      client := None;
      messages := [];
      connectionError := None;
      isConnected := false;
      isConnecting := false;
      usersTyping := [];
      roomOperationQueue := None;
      clientRef := None;
      handlers := [];
      inFlight := [];
      timers := [];
      store := saved;
      wire := new SocketLog();
    }

    /** performRoomOperation up to its first await: the request goes out. */
    method StartRoomOperation(op: RoomOp, clearsSlot: bool)
      requires Valid() && op.client < |handlers|
      modifies this, wire
      ensures State() == Start(old(State()), op, clearsSlot)
      ensures Valid()
    {
      wire.Send(Request(op));
      inFlight := inFlight + [RoomCall(op, clearsSlot)];
    }

    /** handleLogin as created in a render that saw `captured`. */
    method HandleLogin(nickname: string, roomId: string, isCreating: bool, userIcon: Option<string>,
                       captured: Closure, constructs: bool)
      requires Valid()
      modifies this, wire
      ensures State() == Login(old(State()), nickname, roomId, isCreating, userIcon, captured, constructs)
      ensures Valid()
    {
      isConnecting := true;
      connectionError := None;
      isConnected := false;
      messages := [];
      if !constructs {
        connectionError := Some(CONNECTION_INIT_FAILED);
        isConnecting := false;
        roomOperationQueue := None;
        return;
      }
      var newClient := |handlers|;
      handlers := handlers + [captured];
      clientRef := Some(newClient);
      client := Some(newClient);
      var op := RoomOp(newClient, nickname, roomId, isCreating, userIcon);
      roomOperationQueue := Some(op);
      if captured.isConnected {
        StartRoomOperation(op, true);
      }
    }

    /** LoginForm's onLogin, bound to the handleLogin of the current render. */
    method SubmitLogin(args: LoginArgs, constructs: bool)
      requires Valid()
      modifies this, wire
      ensures State() == Submitted(old(State()), args, constructs)
      ensures Valid()
    {
      HandleLogin(args.nickname, args.roomId, args.isCreating, args.userIcon, Closure(user, isConnected), constructs);
    }

    /** onConnectionReady of client `c`, whichever client that is. */
    method OnConnectionReady(c: ClientId)
      requires Valid() && c < |handlers|
      modifies this, wire
      ensures State() == Ready(old(State()), c)
      ensures Valid()
    {
      isConnected := true;
      isConnecting := false;
      if roomOperationQueue.Some? {
        StartRoomOperation(roomOperationQueue.value, false);
        roomOperationQueue := None;
      }
    }

    /** onClose of client `c`: the timer keeps c's captured closure. */
    method OnClose(c: ClientId)
      requires Valid() && c < |handlers|
      modifies this
      ensures State() == Closed(old(State()), c)
      ensures Valid()
    {
      isConnected := false;
      connectionError := Some(CONNECTION_LOST);
      timers := timers + [handlers[c]];
    }

    /** onMessage of client `c`. */
    method OnMessage(c: ClientId, m: Inbound)
      requires Valid() && c < |handlers|
      modifies this
      ensures State() == Received(old(State()), c, m)
      ensures Valid()
    {
      if m.ChatPayload? {
        messages := messages + [m.message];
      }
      if m.PresencePayload? {
        usersTyping := if m.usersTyping.Some? then m.usersTyping.value else [];
      }
    }

    /** The create/join call of inFlight[i] resolved or rejected. */
    method CompleteRoomOperation(i: nat, outcome: Outcome)
      requires Valid() && i < |inFlight|
      modifies this
      ensures State() == RoomOperationDone(old(State()), i, outcome)
      ensures Valid()
    {
      var call := inFlight[i];
      match outcome {
        case Succeeded(serverRoomId) =>
          var roomIdResult := if call.op.isCreating then serverRoomId else call.op.roomId;
          user := Some(User(call.op.nickname, roomIdResult, call.op.userIcon));
        case Failed =>
          connectionError := Some(ROOM_OPERATION_FAILED);
      }
      inFlight := inFlight[..i] + inFlight[i + 1..];
      if call.clearsSlot {
        roomOperationQueue := None;
      }
    }

    /** The earliest scheduled rejoin timer fires. */
    method FireRejoin(constructs: bool)
      requires Valid() && timers != []
      modifies this, wire
      ensures State() == RejoinFired(old(State()), constructs)
      ensures Valid()
    {
      var captured := timers[0];
      timers := timers[1..];
      if captured.user.Some? {
        var u := captured.user.value;
        HandleLogin(u.nickname, u.roomId, false, u.userIcon, captured, constructs);
      }
    }

    method HandleLogout()
      requires Valid()
      modifies this
      ensures State() == Logout(old(State()))
      ensures Valid()
    {
      if clientRef.Some? {
        clientRef := None;
      }
      user := None;
      client := None;
      messages := [];
      connectionError := None;
      isConnected := false;
    }

    /** The effect that keeps the store in step with `user`. */
    method PersistSession()
      requires Valid()
      modifies this
      ensures State() == Persisted(old(State()))
      ensures Valid()
    {
      if user.Some? {
        store := user;
      } else {
        store := None;
      }
    }

    /** The effect that rejoins a restored session when no client exists. */
    method RestoreSession(constructs: bool)
      requires Valid()
      modifies this, wire
      ensures State() == Restored(old(State()), constructs)
      ensures Valid()
    {
      if user.Some? && clientRef.None? {
        HandleLogin(user.value.nickname, user.value.roomId, false, user.value.userIcon, Closure(user, isConnected), constructs);
      }
    }
  }
}
