// Runs of the session controller: an event is anything that can invoke App's
// code (a user intent, a socket callback, a timer, a React effect), and a run
// applies the transitions of module Session one event after another.
module SessionTraces {
  import opened Common
  import opened Session

  datatype Event =
    | LoginSubmitted(args: LoginArgs, constructs: bool)
    | ConnectionReady(client: ClientId)
    | ConnectionClosed(client: ClientId)
    | MessageReceived(client: ClientId, message: Inbound)
    | RoomOperationSettled(index: nat, outcome: Outcome)
    | RejoinTimerFired(constructs: bool)
    | LogoutClicked
    | UserPersisted
    | RestoreEffectRan(constructs: bool)

  /** The login form is only rendered while there is no session; socket
      events come only from constructed clients; an outcome only for a
      started operation; a timer only fires when one is scheduled. */
  predicate Enabled(s: AppState, e: Event) {
    match e
    case LoginSubmitted(_, _) => s.user.None?
    case ConnectionReady(c) => c < |s.handlers|
    case ConnectionClosed(c) => c < |s.handlers|
    case MessageReceived(c, _) => c < |s.handlers|
    case RoomOperationSettled(i, _) => i < |s.inFlight|
    case RejoinTimerFired(_) => s.timers != []
    case _ => true
  }

  function Step(s: AppState, e: Event): AppState
    requires Enabled(s, e)
  {
    match e
    case LoginSubmitted(args, ok) => Submitted(s, args, ok)
    case ConnectionReady(c) => Ready(s, c)
    case ConnectionClosed(c) => Closed(s, c)
    case MessageReceived(c, m) => Received(s, c, m)
    case RoomOperationSettled(i, outcome) => RoomOperationDone(s, i, outcome)
    case RejoinTimerFired(ok) => RejoinFired(s, ok)
    case LogoutClicked => Logout(s)
    case UserPersisted => Persisted(s)
    case RestoreEffectRan(ok) => Restored(s, ok)
  }

  predicate ValidTrace(s: AppState, t: seq<Event>)
    decreases |t|
  {
    t == [] || (Enabled(s, t[0]) && ValidTrace(Step(s, t[0]), t[1..]))
  }

  function Run(s: AppState, t: seq<Event>): AppState
    requires ValidTrace(s, t)
    decreases |t|
  {
    if t == [] then s else Run(Step(s, t[0]), t[1..])
  }

  lemma RunCons(s: AppState, t: seq<Event>)
    requires t != [] && ValidTrace(s, t)
    ensures Enabled(s, t[0]) && ValidTrace(Step(s, t[0]), t[1..]) && Run(s, t) == Run(Step(s, t[0]), t[1..])
    ensures t[0].MessageReceived? ==> Step(s, t[0]) == Received(s, t[0].client, t[0].message)
  {
  }

  /** The invariant of module Session holds in every state a run reaches. */
  lemma {:induction false} RunKeepsInv(s: AppState, t: seq<Event>)
    requires Inv(s) && ValidTrace(s, t)
    ensures Inv(Run(s, t))
    decreases |t|
  {
    if t != [] {
      RunKeepsInv(Step(s, t[0]), t[1..]);
    }
  }

  /** Every state reachable from the first render satisfies the invariant. */
  lemma ReachableInv(saved: Option<User>, t: seq<Event>)
    requires ValidTrace(Initial(saved), t)
    ensures Inv(Run(Initial(saved), t))
  {
    RunKeepsInv(Initial(saved), t);
  }

  /** Outbound calls are never withdrawn or reordered: the log only grows. */
  lemma {:induction false} SentOnlyGrows(s: AppState, t: seq<Event>)
    requires ValidTrace(s, t)
    ensures s.sent <= Run(s, t).sent
    decreases |t|
  {
    if t != [] {
      SentOnlyGrows(Step(s, t[0]), t[1..]);
    }
  }

  /** Events that run handleLogin or handleLogout, the only code that clears the history. */
  predicate MayClearHistory(e: Event) {
    e.LoginSubmitted? || e.RejoinTimerFired? || e.RestoreEffectRan? || e.LogoutClicked?
  }

  /** Between two login/logout calls the history only grows at its end. */
  lemma {:induction false} HistoryOnlyGrows(s: AppState, t: seq<Event>)
    requires ValidTrace(s, t)
    requires forall k :: 0 <= k < |t| ==> !MayClearHistory(t[k])
    ensures s.messages <= Run(s, t).messages
    decreases |t|
  {
    if t != [] {
      var s1 := Step(s, t[0]);
      assert s.messages <= s1.messages by {
        assert !MayClearHistory(t[0]);
      }
      HistoryOnlyGrows(s1, t[1..]);
    }
  }

  /** The chat messages a run delivers, in delivery order. */
  function ChatsIn(t: seq<Event>): seq<ChatMessage> {
    if t == [] then []
    else (if t[0].MessageReceived? && t[0].message.ChatPayload? then [t[0].message.message] else []) + ChatsIn(t[1..])
  }

  /** The typing list after the presence updates of a run, starting from `users`. */
  function LatestPresence(users: seq<string>, t: seq<Event>): seq<string>
    decreases |t|
  {
    if t == [] then users
    else
      var next := if t[0].MessageReceived? && t[0].message.PresencePayload? then
        (match t[0].message.usersTyping case Some(u) => u case None => [])
      else users;
      LatestPresence(next, t[1..])
  }

  /** A run of inbound messages, from any mix of current and superseded
      clients, appends exactly its chat messages in arrival order and leaves
      the typing list as the last presence update set it. */
  lemma {:induction false} InboundInOrder(s: AppState, t: seq<Event>)
    requires ValidTrace(s, t)
    requires forall k :: 0 <= k < |t| ==> t[k].MessageReceived?
    ensures Run(s, t).messages == s.messages + ChatsIn(t)
    ensures Run(s, t).usersTyping == LatestPresence(s.usersTyping, t)
    decreases |t|
  {
    if t != [] {
      var e := t[0];
      RunCons(s, t);
      var s1 := Received(s, e.client, e.message);
      assert forall k :: 0 <= k < |t[1..]| ==> t[1..][k].MessageReceived? by {
        forall k | 0 <= k < |t[1..]| ensures t[1..][k].MessageReceived? {
          assert t[1..][k] == t[k + 1];
        }
      }
      InboundInOrder(s1, t[1..]);
      var head := if e.message.ChatPayload? then [e.message.message] else [];
      assert ChatsIn(t) == head + ChatsIn(t[1..]);
      assert s1.messages == s.messages + head;
    }
  }

  /** Inbound messages touch only the history and the typing list: the
      session, the clients, the slot, the outbound log and the timers are as
      they were. */
  lemma {:induction false} InboundChangesNothingElse(s: AppState, t: seq<Event>)
    requires ValidTrace(s, t)
    requires forall k :: 0 <= k < |t| ==> t[k].MessageReceived?
    ensures Run(s, t) == s.(messages := Run(s, t).messages, usersTyping := Run(s, t).usersTyping)
    decreases |t|
  {
    if t != [] {
      var e := t[0];
      RunCons(s, t);
      var s1 := Received(s, e.client, e.message);
      assert forall k :: 0 <= k < |t[1..]| ==> t[1..][k].MessageReceived? by {
        forall k | 0 <= k < |t[1..]| ensures t[1..][k].MessageReceived? {
          assert t[1..][k] == t[k + 1];
        }
      }
      InboundChangesNothingElse(s1, t[1..]);
    }
  }

  function Readies(clients: seq<ClientId>): (t: seq<Event>)
    ensures |t| == |clients|
    ensures forall k :: 0 <= k < |t| ==> t[k] == ConnectionReady(clients[k])
  {
    if clients == [] then [] else [ConnectionReady(clients[0])] + Readies(clients[1..])
  }

  /** However many ready events arrive, from whichever constructed clients, the
      slot's operation is started exactly once (no operation at all if the slot
      was empty) and the slot ends empty. */
  lemma {:induction false} ReadyRunsSlotOnce(s: AppState, clients: seq<ClientId>)
    requires clients != []
    requires forall k :: 0 <= k < |clients| ==> clients[k] < |s.handlers|
    ensures ValidTrace(s, Readies(clients))
    ensures Run(s, Readies(clients)).pending.None?
    ensures Run(s, Readies(clients)).isConnected && !Run(s, Readies(clients)).isConnecting
    ensures s.pending.Some? ==> Run(s, Readies(clients)).sent == s.sent + [Request(s.pending.value)]
    ensures s.pending.Some? ==> Run(s, Readies(clients)).inFlight == s.inFlight + [RoomCall(s.pending.value, false)]
    ensures s.pending.None? ==> Run(s, Readies(clients)).sent == s.sent && Run(s, Readies(clients)).inFlight == s.inFlight
    decreases |clients|
  {
    var t := Readies(clients);
    var s1 := Ready(s, clients[0]);
    assert t[1..] == Readies(clients[1..]);
    if |clients| > 1 {
      ReadyRunsSlotOnce(s1, clients[1..]);
    }
    assert Run(s, t) == Run(s1, t[1..]);
  }

  /** A login never queues behind an earlier one: after two logins only the
      second one's operation is waiting, and the next ready event, even one
      from the first login's client, starts that operation alone. */
  lemma SecondLoginReplacesFirst(s: AppState, first: LoginArgs, second: LoginArgs)
    requires !s.isConnected
    ensures var s2 := Submitted(Submitted(s, first, true), second, true);
      var op := RoomOp(|s.handlers| + 1, second.nickname, second.roomId, second.isCreating, second.userIcon);
      s2.pending == Some(op) && s2.sent == s.sent &&
      Ready(s2, |s.handlers|).sent == s.sent + [Request(op)] &&
      Ready(s2, |s.handlers|).pending.None?
  {
  }

  /** Creating a room: the session adopts the id the server assigned. */
  lemma CreateAdoptsServerRoomId(s: AppState, nickname: string, roomId: string, icon: Option<string>, serverRoomId: string)
    requires !s.isConnected
    ensures var s1 := Submitted(s, LoginArgs(nickname, roomId, true, icon), true);
      var s2 := Ready(s1, |s.handlers|);
      var s3 := RoomOperationDone(s2, |s.inFlight|, Succeeded(serverRoomId));
      s3.user == Some(User(nickname, serverRoomId, icon)) &&
      s3.sent == s.sent + [CreateChatRoom(|s.handlers|, nickname, icon)] &&
      s3.inFlight == s.inFlight && s3.pending.None? &&
      s3.isConnected && s3.connectionError.None? && s3.messages == []
  {
    var s2 := Ready(Submitted(s, LoginArgs(nickname, roomId, true, icon), true), |s.handlers|);
    assert s2.inFlight[..|s.inFlight|] == s.inFlight;
  }

  /** Joining a room: the session keeps the room id the caller gave, whatever
      the operation resolved to. */
  lemma JoinKeepsRoomId(s: AppState, nickname: string, roomId: string, icon: Option<string>, resolved: string)
    requires !s.isConnected
    ensures var s1 := Submitted(s, LoginArgs(nickname, roomId, false, icon), true);
      var s2 := Ready(s1, |s.handlers|);
      var s3 := RoomOperationDone(s2, |s.inFlight|, Succeeded(resolved));
      s3.user == Some(User(nickname, roomId, icon)) &&
      s3.sent == s.sent + [JoinChatRoom(|s.handlers|, nickname, roomId, icon)] &&
      s3.inFlight == s.inFlight && s3.pending.None? &&
      s3.isConnected && s3.connectionError.None? && s3.messages == []
  {
    var s2 := Ready(Submitted(s, LoginArgs(nickname, roomId, false, icon), true), |s.handlers|);
    assert s2.inFlight[..|s.inFlight|] == s.inFlight;
  }

  /** A failed room operation keeps the session as it was and says so; the
      socket stays connected. */
  lemma FailedOperationKeepsUser(s: AppState, args: LoginArgs)
    requires !s.isConnected
    ensures var s2 := Ready(Submitted(s, args, true), |s.handlers|);
      var s3 := RoomOperationDone(s2, |s.inFlight|, Failed);
      s3.user == s.user && s3.isConnected &&
      s3.connectionError == Some(ROOM_OPERATION_FAILED) && s3.pending.None?
  {
  }

  /** Logging out and joining the same room again gives back the same
      session with an empty history. */
  lemma LogoutThenRejoinSameRoom(s: AppState, resolved: string)
    requires s.user.Some?
    ensures var u := s.user.value;
      var s1 := Submitted(Logout(s), LoginArgs(u.nickname, u.roomId, false, u.userIcon), true);
      var s3 := RoomOperationDone(Ready(s1, |s.handlers|), |s.inFlight|, Succeeded(resolved));
      s3.user == s.user && s3.messages == []
  {
  }

  /** A closed connection schedules one rejoin with exactly what that client's
      handler captured; when it fires it runs handleLogin for the captured
      user's nickname, room and icon with isCreating false. */
  lemma CloseSchedulesRejoin(s: AppState, c: ClientId, constructs: bool)
    requires c < |s.handlers| && s.timers == [] && s.handlers[c].user.Some?
    ensures var u := s.handlers[c].user.value;
      var r := RejoinFired(Closed(s, c), constructs);
      r == Login(Closed(s, c).(timers := []), u.nickname, u.roomId, false, u.userIcon, s.handlers[c], constructs) &&
      (constructs ==> r.pending == Some(RoomOp(|s.handlers|, u.nickname, u.roomId, false, u.userIcon)))
  {
  }

  /** The rejoin closure reads `user` as it was when handleLogin ran, not the
      current session: a client created from the login form (where `user` is
      always null) schedules a rejoin that does nothing, even after its room
      operation published a session. */
  lemma FormLoginDoesNotRejoin(s: AppState, args: LoginArgs, resolved: string)
    requires s.user.None? && !s.isConnected && s.timers == []
    ensures var c := |s.handlers|;
      var s3 := RoomOperationDone(Ready(Submitted(s, args, true), c), |s.inFlight|, Succeeded(resolved));
      var s4 := Closed(s3, c);
      s3.user.Some? && s4.timers == [Closure(None, false)] &&
      RejoinFired(s4, true) == s4.(timers := [])
  {
  }

  /** In a run, a login from the form gives its new client a closure without
      a user: the form is only rendered while `user` is null. */
  lemma FormLoginCapturesNoUser(s: AppState, args: LoginArgs)
    requires Enabled(s, LoginSubmitted(args, true))
    ensures Step(s, LoginSubmitted(args, true)).handlers == s.handlers + [Closure(None, s.isConnected)]
  {
  }

  /** A rejoin hands its new client the very closure the timer held, so when
      that client's connection closes the same rejoin is scheduled again. */
  lemma RejoinRepeats(s: AppState)
    requires s.timers != [] && s.timers[0].user.Some?
    ensures var r := RejoinFired(s, true);
      var c := |s.handlers|;
      c < |r.handlers| && r.handlers[c] == s.timers[0] &&
      Closed(r, c).timers == s.timers[1..] + [s.timers[0]]
  {
  }

  /** A restored session starts such a chain: when the client the restore
      effect created loses its connection, a rejoin with the stored user is
      the one scheduled timer. */
  lemma RestoreStartsRejoinChain(u: User)
    ensures var s := Closed(Restored(Initial(Some(u)), true), 0);
      s.timers == [Closure(Some(u), false)] && |s.handlers| == 1
  {
  }

  /** `n` rounds of a rejoin timer firing and the client it created closing. */
  function RejoinRounds(first: ClientId, n: nat): seq<Event>
    decreases n
  {
    if n == 0 then [] else [RejoinTimerFired(true), ConnectionClosed(first)] + RejoinRounds(first + 1, n - 1)
  }

  /** The rejoin chain of a captured user has no end: after any number of
      rounds in which each new client loses its connection, the same rejoin is
      scheduled again and the latest client is waiting to rejoin that room. */
  lemma {:induction false} RejoinNeverStops(s: AppState, n: nat)
    requires |s.timers| == 1 && s.timers[0].user.Some?
    ensures ValidTrace(s, RejoinRounds(|s.handlers|, n))
    ensures var r := Run(s, RejoinRounds(|s.handlers|, n));
      var u := s.timers[0].user.value;
      r.timers == s.timers && |r.handlers| == |s.handlers| + n &&
      (n > 0 ==> !r.isConnected && r.connectionError == Some(CONNECTION_LOST) &&
                 r.pending == Some(RoomOp(|s.handlers| + n - 1, u.nickname, u.roomId, false, u.userIcon)))
    decreases n
  {
    if n > 0 {
      var c := |s.handlers|;
      var t := RejoinRounds(c, n);
      var s1 := RejoinFired(s, true);
      var s2 := Closed(s1, c);
      assert t[0] == RejoinTimerFired(true) && t[1] == ConnectionClosed(c);
      assert t[1..][1..] == RejoinRounds(c + 1, n - 1);
      assert s2.timers == s.timers;
      RejoinNeverStops(s2, n - 1);
      assert ValidTrace(s1, t[1..]);
      assert Run(s, t) == Run(s2, RejoinRounds(c + 1, n - 1));
    }
  }

  /** The fast path of handleLogin starts the operation while leaving it in the
      slot until it completes, so the new client's ready event starts it a
      second time. A state where this happens is reachable: a room operation
      that fails leaves the socket connected and the login form showing. */
  lemma RetryAfterFailureStartsTwice(first: LoginArgs, second: LoginArgs)
    ensures var s3 := RoomOperationDone(Ready(Submitted(Initial(None), first, true), 0), 0, Failed);
      var s5 := Ready(Submitted(s3, second, true), 1);
      var op := RoomOp(1, second.nickname, second.roomId, second.isCreating, second.userIcon);
      s3.user.None? && s3.isConnected &&
      s5.sent == [Request(RoomOp(0, first.nickname, first.roomId, first.isCreating, first.userIcon)),
                  Request(op), Request(op)] &&
      s5.inFlight == [RoomCall(op, true), RoomCall(op, false)]
  {
  }

  /** The store effect after a logout removes the stored session. */
  lemma LogoutClearsStore(s: AppState)
    ensures Persisted(Logout(s)).store.None?
  {
  }
}
