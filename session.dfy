// The session controller of the chat client (the App component) as a pure
// state machine: one value holds everything App keeps in React state and in
// refs, and one function per event gives the state after it. The class in
// module App runs the same transitions imperatively.
//
// Three things the browser hides are explicit here:
//  - a handleLogin call's event handlers close over the `user` and
//    `isConnected` of the render that created them; that pair is a Closure,
//    kept per client (for onClose) and per scheduled rejoin timer;
//  - the asynchronous room operation is two steps: starting it sends the
//    create/join request and records a RoomCall, and RoomOperationDone later
//    delivers its outcome;
//  - setTimeout(…, 3000) records a Closure in `timers`; all timers have the
//    same delay, so they fire in the order they were scheduled.
module Session {
  import opened Common

  const CONNECTION_LOST := "Connection lost. Reconnecting..."
  const ROOM_OPERATION_FAILED := "Failed to create/join room. Please try again."
  const CONNECTION_INIT_FAILED := "Failed to initialize connection. Please try again."

  /** The room operation one handleLogin call prepared, bound to that call's client. */
  datatype RoomOp = RoomOp(client: ClientId, nickname: string, roomId: string, isCreating: bool, userIcon: Option<string>)

  /** The state values a handleLogin closure captured when it was created. */
  datatype Closure = Closure(user: Option<User>, isConnected: bool)

  /** A started room operation waiting for its outcome; `clearsSlot` when it was
      started by handleLogin itself, which empties the slot after awaiting it. */
  datatype RoomCall = RoomCall(op: RoomOp, clearsSlot: bool)

  /** What createChatRoom/joinChatRoom resolved to; a join ignores the room id. */
  datatype Outcome = Succeeded(serverRoomId: string) | Failed

  datatype AppState = AppState(
    user: Option<User>,
    client: Option<ClientId>,
    clientRef: Option<ClientId>,
    messages: seq<ChatMessage>,
    connectionError: Option<string>,
    isConnected: bool,
    isConnecting: bool,
    usersTyping: seq<string>,
    pending: Option<RoomOp>,       // roomOperationQueue.current
    handlers: seq<Closure>,        // handlers[c]: what client c's event handler captured
    inFlight: seq<RoomCall>,
    timers: seq<Closure>,          // scheduled rejoins, earliest first
    sent: seq<Outbound>,           // every create/join/send call, in order
    store: Option<User>)           // the persisted "teleparty-session" entry

  /** The request a room operation sends on its own client. */
  function Request(op: RoomOp): (e: Outbound)
    ensures e.client == op.client
    ensures op.isCreating <==> e.CreateChatRoom?
    ensures e.CreateChatRoom? || e.JoinChatRoom?
    ensures e.nickname == op.nickname && e.userIcon == op.userIcon
    ensures e.JoinChatRoom? ==> e.roomId == op.roomId
  {
    if op.isCreating then CreateChatRoom(op.client, op.nickname, op.userIcon)
    else JoinChatRoom(op.client, op.nickname, op.roomId, op.userIcon)
  }

  /** The states the controller can reach: the client it owns and the one
      operation that can be waiting both belong to the most recent client, and
      every started operation belongs to a client that was constructed. */
  ghost predicate Inv(s: AppState) {
    s.client == s.clientRef &&
    (s.clientRef.Some? ==> s.clientRef.value == |s.handlers| - 1) &&
    (s.pending.Some? ==> s.pending.value.client == |s.handlers| - 1) &&
    (forall k :: 0 <= k < |s.inFlight| ==> s.inFlight[k].op.client < |s.handlers|)
  }

  /** First render: the user comes from the store, nothing else exists yet. */
  function Initial(saved: Option<User>): (r: AppState)
    ensures r.user == saved && r.store == saved
    ensures r.client.None? && r.clientRef.None? && r.pending.None?
    ensures r.messages == [] && r.usersTyping == [] && r.sent == [] && r.timers == [] && r.inFlight == []
    ensures !r.isConnected && !r.isConnecting && r.connectionError.None?
    ensures Inv(r)
  {
    AppState(saved, None, None, [], None, false, false, [], None, [], [], [], [], saved)
  }

  /** Start a room operation: its request goes out on its client and it waits for an outcome. */
  function Start(s: AppState, op: RoomOp, clearsSlot: bool): (r: AppState)
    ensures r.sent == s.sent + [Request(op)]
    ensures r.inFlight == s.inFlight + [RoomCall(op, clearsSlot)]
    ensures r == s.(sent := r.sent, inFlight := r.inFlight)
    ensures Inv(s) && op.client < |s.handlers| ==> Inv(r)
  {
    s.(sent := s.sent + [Request(op)], inFlight := s.inFlight + [RoomCall(op, clearsSlot)])
  }

  /** handleLogin, run by a closure that captured `captured`; `constructs` is
      whether `new TelepartyClient` returned rather than threw. */
  function Login(s: AppState, nickname: string, roomId: string, isCreating: bool, userIcon: Option<string>,
                 captured: Closure, constructs: bool): (r: AppState)
    // every attempt first resets the connection flags, the error and the history
    ensures !r.isConnected && r.messages == []
    ensures r.isConnecting == constructs
    ensures r.connectionError == if constructs then None else Some(CONNECTION_INIT_FAILED)
    // a constructed client becomes the owned one and its operation overwrites the slot
    ensures constructs ==> r.handlers == s.handlers + [captured]
    ensures constructs ==> r.client == r.clientRef == Some(|s.handlers|)
    ensures constructs ==> r.pending == Some(RoomOp(|s.handlers|, nickname, roomId, isCreating, userIcon))
    // only a closure that saw the connection up runs the operation at once
    ensures constructs && captured.isConnected ==>
      r.sent == s.sent + [Request(r.pending.value)] && r.inFlight == s.inFlight + [RoomCall(r.pending.value, true)]
    ensures !(constructs && captured.isConnected) ==> r.sent == s.sent && r.inFlight == s.inFlight
    // a construction failure discards the slot and keeps the old client
    ensures !constructs ==> r.pending.None? && r.handlers == s.handlers && r.client == s.client && r.clientRef == s.clientRef
    ensures r.user == s.user && r.usersTyping == s.usersTyping && r.timers == s.timers && r.store == s.store
    ensures Inv(s) ==> Inv(r)
  {
    var reset := s.(isConnecting := true, connectionError := None, isConnected := false, messages := []);
    if !constructs then
      reset.(connectionError := Some(CONNECTION_INIT_FAILED), isConnecting := false, pending := None)
    else
      var c := |s.handlers|;
      var op := RoomOp(c, nickname, roomId, isCreating, userIcon);
      var owned := reset.(handlers := s.handlers + [captured], clientRef := Some(c), client := Some(c), pending := Some(op));
      if captured.isConnected then Start(owned, op, true) else owned
  }

  /** LoginForm's onLogin: the handleLogin of the current render. */
  function Submitted(s: AppState, args: LoginArgs, constructs: bool): (r: AppState)
    ensures !r.isConnected && r.messages == [] && r.isConnecting == constructs
    ensures r.connectionError == if constructs then None else Some(CONNECTION_INIT_FAILED)
    ensures constructs ==> r.pending == Some(RoomOp(|s.handlers|, args.nickname, args.roomId, args.isCreating, args.userIcon))
    ensures constructs ==> r.handlers == s.handlers + [Closure(s.user, s.isConnected)]
    ensures constructs ==> r.client == r.clientRef == Some(|s.handlers|)
    // the form's closure saw the current connection flag, which decides the fast path
    ensures constructs && s.isConnected ==>
      r.sent == s.sent + [Request(r.pending.value)] && r.inFlight == s.inFlight + [RoomCall(r.pending.value, true)]
    ensures !(constructs && s.isConnected) ==> r.sent == s.sent && r.inFlight == s.inFlight
    ensures !constructs ==> r.pending.None? && r.handlers == s.handlers && r.client == s.client && r.clientRef == s.clientRef
    ensures r.user == s.user && r.usersTyping == s.usersTyping && r.timers == s.timers && r.store == s.store
    ensures Inv(s) ==> Inv(r)
  {
    Login(s, args.nickname, args.roomId, args.isCreating, args.userIcon, Closure(s.user, s.isConnected), constructs)
  }

  /** onConnectionReady of client `c`: whichever operation is in the shared slot
      is started exactly once and the slot is left empty. */
  function Ready(s: AppState, c: ClientId): (r: AppState)
    requires c < |s.handlers|
    ensures r.isConnected && !r.isConnecting && r.pending.None?
    ensures s.pending.Some? ==> r.sent == s.sent + [Request(s.pending.value)]
    ensures s.pending.Some? ==> r.inFlight == s.inFlight + [RoomCall(s.pending.value, false)]
    ensures s.pending.None? ==> r.sent == s.sent && r.inFlight == s.inFlight
    ensures r == s.(isConnected := true, isConnecting := false, pending := None, sent := r.sent, inFlight := r.inFlight)
    ensures Inv(s) ==> Inv(r)
  {
    var up := s.(isConnected := true, isConnecting := false);
    match s.pending
    case None => up
    case Some(op) => Start(up, op, false).(pending := None)
  }

  /** onClose of client `c`: one rejoin timer is scheduled with what c's handler captured. */
  function Closed(s: AppState, c: ClientId): (r: AppState)
    requires c < |s.handlers|
    ensures !r.isConnected && r.connectionError == Some(CONNECTION_LOST)
    ensures r.timers == s.timers + [s.handlers[c]]
    ensures r == s.(isConnected := false, connectionError := r.connectionError, timers := r.timers)
    ensures Inv(s) ==> Inv(r)
  {
    s.(isConnected := false, connectionError := Some(CONNECTION_LOST), timers := s.timers + [s.handlers[c]])
  }

  /** onMessage of client `c`: a chat message is appended, a presence update
      replaces the typing list, anything else is ignored. */
  function Received(s: AppState, c: ClientId, m: Inbound): (r: AppState)
    requires c < |s.handlers|
    ensures m.ChatPayload? ==> |r.messages| == |s.messages| + 1 && r.messages[|s.messages|] == m.message
    ensures m.ChatPayload? ==> r.messages[..|s.messages|] == s.messages && r.usersTyping == s.usersTyping
    ensures m.PresencePayload? ==> r.messages == s.messages
    ensures m.PresencePayload? && m.usersTyping.Some? ==> r.usersTyping == m.usersTyping.value
    ensures m.PresencePayload? && m.usersTyping.None? ==> r.usersTyping == []
    ensures m.OtherPayload? ==> r == s
    ensures r == s.(messages := r.messages, usersTyping := r.usersTyping)
    ensures Inv(s) ==> Inv(r)
  {
    match m
    case ChatPayload(msg) => s.(messages := s.messages + [msg])
    case PresencePayload(users) => s.(usersTyping := match users case Some(u) => u case None => [])
    case OtherPayload(_) => s
  }

  /** The session a successful room operation publishes: a create adopts the
      server's room id, a join keeps the one it was given. */
  function Adopted(op: RoomOp, serverRoomId: string): (u: User)
    ensures u.nickname == op.nickname && u.userIcon == op.userIcon
    ensures op.isCreating ==> u.roomId == serverRoomId
    ensures !op.isCreating ==> u.roomId == op.roomId
  {
    User(op.nickname, if op.isCreating then serverRoomId else op.roomId, op.userIcon)
  }

  /** The room operation inFlight[i] finished with `outcome`. */
  function RoomOperationDone(s: AppState, i: nat, outcome: Outcome): (r: AppState)
    requires i < |s.inFlight|
    ensures outcome.Succeeded? ==> r.user == Some(Adopted(s.inFlight[i].op, outcome.serverRoomId))
    ensures outcome.Succeeded? ==> r.connectionError == s.connectionError
    ensures outcome.Failed? ==> r.user == s.user && r.connectionError == Some(ROOM_OPERATION_FAILED)
    ensures r.inFlight == s.inFlight[..i] + s.inFlight[i + 1..]
    ensures r.pending == if s.inFlight[i].clearsSlot then None else s.pending
    ensures r.isConnected == s.isConnected && r.isConnecting == s.isConnecting
    ensures r == s.(user := r.user, connectionError := r.connectionError, inFlight := r.inFlight, pending := r.pending)
    ensures Inv(s) ==> Inv(r)
  {
    var call := s.inFlight[i];
    var published := match outcome
      case Succeeded(id) => s.(user := Some(Adopted(call.op, id)))
      case Failed => s.(connectionError := Some(ROOM_OPERATION_FAILED));
    published.(inFlight := s.inFlight[..i] + s.inFlight[i + 1..],
               pending := if call.clearsSlot then None else s.pending)
  }

  /** The earliest rejoin timer fires: it rejoins (never re-creates) the room of
      the user its closure captured, through that closure's handleLogin; with no
      captured user it does nothing. */
  function RejoinFired(s: AppState, constructs: bool): (r: AppState)
    requires s.timers != []
    ensures r.timers == s.timers[1..]
    ensures s.timers[0].user.None? ==> r == s.(timers := s.timers[1..])
    ensures s.timers[0].user.Some? ==>
      !r.isConnected && r.messages == [] && r.isConnecting == constructs &&
      r.user == s.user && r.usersTyping == s.usersTyping && r.store == s.store
    ensures s.timers[0].user.Some? && constructs ==>
      var u := s.timers[0].user.value;
      r.pending == Some(RoomOp(|s.handlers|, u.nickname, u.roomId, false, u.userIcon)) &&
      r.handlers == s.handlers + [s.timers[0]] && r.client == r.clientRef == Some(|s.handlers|) &&
      r.connectionError.None?
    // the timer's closure saw the connection as it was at that login, which decides the fast path
    ensures s.timers[0].user.Some? && constructs && s.timers[0].isConnected ==>
      r.sent == s.sent + [Request(r.pending.value)] && r.inFlight == s.inFlight + [RoomCall(r.pending.value, true)]
    ensures !(s.timers[0].user.Some? && constructs && s.timers[0].isConnected) ==>
      r.sent == s.sent && r.inFlight == s.inFlight
    ensures s.timers[0].user.Some? && !constructs ==>
      r.connectionError == Some(CONNECTION_INIT_FAILED) && r.pending.None? &&
      r.handlers == s.handlers && r.client == s.client && r.clientRef == s.clientRef
    ensures Inv(s) ==> Inv(r)
  {
    var rest := s.(timers := s.timers[1..]);
    match s.timers[0].user
    case None => rest
    case Some(u) => Login(rest, u.nickname, u.roomId, false, u.userIcon, s.timers[0], constructs)
  }

  /** handleLogout: drops the client and the session, keeps the typing list,
      the connecting flag, the slot, started operations and scheduled rejoins. */
  function Logout(s: AppState): (r: AppState)
    ensures r.user.None? && r.client.None? && r.clientRef.None?
    ensures r.messages == [] && r.connectionError.None? && !r.isConnected
    ensures r.usersTyping == s.usersTyping && r.isConnecting == s.isConnecting
    ensures r.pending == s.pending && r.timers == s.timers && r.inFlight == s.inFlight
    ensures r == s.(user := None, client := None, clientRef := None, messages := [], connectionError := None, isConnected := false)
    ensures Inv(s) ==> Inv(r)
  {
    s.(clientRef := None, user := None, client := None, messages := [], connectionError := None, isConnected := false)
  }

  /** The effect on `user`: the store holds the user, or has no entry when there is none. */
  function Persisted(s: AppState): (r: AppState)
    ensures r.store == r.user == s.user
    ensures r == s.(store := s.user)
    ensures Inv(s) ==> Inv(r)
  {
    s.(store := s.user)
  }

  /** The restore effect: a user without a client rejoins that user's room. */
  function Restored(s: AppState, constructs: bool): (r: AppState)
    ensures s.user.None? || s.clientRef.Some? ==> r == s
    ensures s.user.Some? && s.clientRef.None? ==>
      !r.isConnected && r.messages == [] && r.isConnecting == constructs &&
      r.user == s.user && r.usersTyping == s.usersTyping && r.timers == s.timers && r.store == s.store
    ensures s.user.Some? && s.clientRef.None? && constructs ==>
      var u := s.user.value;
      r.pending == Some(RoomOp(|s.handlers|, u.nickname, u.roomId, false, u.userIcon)) &&
      r.handlers == s.handlers + [Closure(s.user, s.isConnected)] && r.client == r.clientRef == Some(|s.handlers|) &&
      r.connectionError.None?
    ensures s.user.Some? && s.clientRef.None? && constructs && s.isConnected ==>
      r.sent == s.sent + [Request(r.pending.value)] && r.inFlight == s.inFlight + [RoomCall(r.pending.value, true)]
    ensures !(s.user.Some? && s.clientRef.None? && constructs && s.isConnected) ==>
      r.sent == s.sent && r.inFlight == s.inFlight
    ensures s.user.Some? && s.clientRef.None? && !constructs ==>
      r.connectionError == Some(CONNECTION_INIT_FAILED) && r.pending.None? &&
      r.handlers == s.handlers && r.client == s.client
    ensures Inv(s) ==> Inv(r)
  {
    if s.user.Some? && s.clientRef.None? then
      Login(s, s.user.value.nickname, s.user.value.roomId, false, s.user.value.userIcon,
            Closure(s.user, s.isConnected), constructs)
    else s
  }
}
