# Teleparty chat client: session controller, typing presence and form guards

This project models the client side of a room-based chat built on a socket
client library. The core is the `App` component's session controller. It
owns one socket client per login attempt and keeps a single-slot queue for
the pending create-room or join-room operation. The operation runs when a
client reports that its connection is ready. The controller appends inbound
chat messages, replaces the typing list, schedules a rejoin when a
connection closes, and supports logging out. Around it sit three small
components:

- `MessageInput` turns edits of the text field into typing:true and
  typing:false presence messages.
- `ChatRoom` guards the send of a chat message and builds the "X, Y are typing..." text.
- `LoginForm` maps its fields to the arguments of a login.

## How the model is organised

- `Common` holds the shared values: the session `User`, `LoginArgs`, chat
  messages, inbound messages, and the outbound calls (`createChatRoom`,
  `joinChatRoom`, `sendMessage`). `SocketLog` is the append-only log those
  calls go into.
- `Text` models JavaScript's `trim` (as the blankness test `IsBlank`) and
  `join`.
- `Session` is the App component as a pure state machine. `AppState` holds
  every React state value and ref. Each event has one function: `Login`,
  `Submitted`, `Ready`, `Closed`, `Received`, `RoomOperationDone`,
  `RejoinFired`, `Logout`, `Persisted` and `Restored`. Each function's
  contract states the new state and preserves the invariant `Inv`.
- `App.Component` is the same controller as a class with those fields. It
  has one method per handler, socket callback, timer and effect. It also has
  `StartRoomOperation`, an internal step that `HandleLogin` and
  `OnConnectionReady` share. Each method is proved to perform the matching
  `Session` transition and to keep `Valid()`.
- `SessionTraces` runs sequences of events and proves properties that span
  several events.
- `ChatRoom`, `MessageInput` and `LoginForm` model the components of the
  same names.

Some browser and library behaviour is made explicit in the model:

- **Stale closures.** The handlers created by one `handleLogin` call see
  `user` and `isConnected` as they were when that call's render happened.
  The model stores that pair as a `Closure`. Client `c`'s `onClose` and
  every timer it schedules use `handlers[c]`.
- **Async room operations.** A room operation has two steps. Starting it
  logs the create or join request and records a `RoomCall`.
  `RoomOperationDone(i, outcome)` delivers the outcome later
  (`Succeeded(serverRoomId)` or `Failed`).
- **Rejoin timers.** Each `setTimeout` becomes an entry in `timers`. All
  timers have the same 3000 ms delay, so they fire in the order they were
  scheduled.
- **Client construction.** Whether `new TelepartyClient` returns or throws
  is a boolean parameter, `constructs`. Socket events carry the id of the
  client they come from. Any constructed client may deliver them, including
  one a later login has replaced.

### What the code does and does not do

A reader might expect a chat client to behave differently in each case
below. The model follows the code.

- **Stale events are not dropped.** The code has no check on which client
  an event comes from. A superseded client's ready event runs whatever
  operation is in the shared slot (`ReadyRunsSlotOnce`). Its messages are
  appended like any other (`InboundInOrder`).
- **Rejoin uses the captured user, not the current session.** The rejoin
  timer reads the `user` that its `handleLogin` closure captured. The
  login form is only rendered while `user` is null, so a client created from
  the form captures no user (`FormLoginCapturesNoUser`). When its
  connection is lost, the rejoin it schedules does nothing
  (`FormLoginDoesNotRejoin`). So rejoins come only from a client created by
  the restore effect (`RestoreStartsRejoinChain`) or by a rejoin of such a
  client. A rejoin hands the new client the same closure
  (`RejoinRepeats`), so the chain of rejoins has no end
  (`RejoinNeverStops`).
- **The fast path can run an operation twice.** When the closure saw the
  connection up, `handleLogin` starts the operation at once. It leaves the
  operation in the slot until the operation finishes. The new client's
  ready event then starts it a second time. A state where this happens can
  be reached: a failed room operation leaves the socket connected and the
  login form showing (`RetryAfterFailureStartsTwice`).
- **Logout leaves some state untouched.** It keeps the typing list, the
  connecting flag, the slot and any scheduled rejoin.
- **No typing debounce timer.** The input component has no such timer and
  no unmount cleanup. The presence payload carries no nickname.
- **The room id is not checked.** `handleSubmit` does not check it on
  either tab.
- **No connection-state enum.** The connection state is two booleans,
  `isConnected` and `isConnecting`.

## Model

| member | source | states |
|---|---|---|
| `Text.IsBlank` | src/components/MessageInput.tsx:22 | `!s.trim()` holds exactly when every character of `s` is ECMAScript whitespace or a line terminator |
| `Text.TrimStart` | src/components/MessageInput.tsx:22 | the leading-whitespace cut of `trim`: the result is a suffix of the input, everything cut off is whitespace, and the result starts with a non-whitespace character or is empty |
| `Text.TrimEnd` | src/components/ChatRoom.tsx:28 | the trailing-whitespace cut of `trim`: the result is a prefix of the input, everything cut off is whitespace, and the result ends with a non-whitespace character or is empty |
| `Text.Trim` | src/components/ChatRoom.tsx:28 | trim is empty exactly for all-whitespace text, and otherwise starts and ends with a non-whitespace character |
| `Text.Join` | src/components/ChatRoom.tsx:56 | joining one item gives that item; with several, the first item and the separator start the result and the last item ends it |
| `Text.JoinSnoc` | src/components/ChatRoom.tsx:56 | appending an item to a non-empty list adds exactly one separator and that item at the end of the joined text |
| `Common.SocketLog.constructor` | src/App.tsx:25 | at the first render there is no client yet, so the outbound log all clients share starts empty |
| `Common.SocketLog.Send` | src/components/ChatRoom.tsx:29-31 | each `createChatRoom`, `joinChatRoom` or `sendMessage` call appends exactly that call to the outbound log, after everything sent before |
| `Session.Request` | src/App.tsx:104-108 | a creating operation sends createChatRoom, a joining one sends joinChatRoom with its room id; both go on the operation's own client with its nickname and icon |
| `Session.Initial` | src/App.tsx:21-32 | the first render takes `user` from the store; there is no client, no pending operation, no history and no error, and the invariant holds |
| `Session.Start` | src/App.tsx:101-108 | starting an operation appends its request to the outbound log and records it as awaiting an outcome, changing nothing else; the invariant is kept for an operation on a constructed client |
| `Session.Login` | src/App.tsx:52-129 | handleLogin clears the error and history and drops the connected flag; a constructed client becomes the owned one and its operation overwrites the slot; only a closure that saw the connection up starts the operation at once; a construction failure gives the init error, stops connecting and empties the slot; the invariant is kept |
| `Session.Submitted` | src/App.tsx:156 | the login form's call is handleLogin with a closure holding the current user and connection flag: the reset, the new owned client and the slot as in `Login`; the operation starts at once exactly when the app is connected; a construction failure gives the init error and empties the slot; the session, typing list, timers and store are kept |
| `Session.Ready` | src/App.tsx:65-73 | a ready event from any constructed client sets connected, clears connecting and starts the slot's operation exactly once, or nothing if the slot is empty; the slot ends empty |
| `Session.Closed` | src/App.tsx:74-82 | a close clears connected, shows the connection-lost message and schedules exactly one rejoin with what that client's handler captured |
| `Session.Received` | src/App.tsx:83-94 | SEND_MESSAGE appends the payload as the last message and keeps the earlier ones; SET_TYPING_PRESENCE replaces the typing list with the payload's list or with [] when it is absent; any other type changes nothing |
| `Session.Adopted` | src/App.tsx:103-110 | a create adopts the server's room id, a join keeps the caller's; the nickname and icon are the operation's |
| `Session.RoomOperationDone` | src/App.tsx:101-122 | success publishes the adopted session; failure keeps `user` and shows the room-operation error; the operation stops awaiting, and the slot is emptied only when the fast path started the operation |
| `Session.RejoinFired` | src/App.tsx:77-81 | the earliest timer is removed; with no captured user nothing else changes; otherwise it rejoins the captured user's room with isCreating false through a new client holding the timer's closure, starts the join at once exactly when that closure saw the connection up, and on a construction failure shows the init error, stops connecting and empties the slot; the session, typing list and store are kept |
| `Session.Logout` | src/App.tsx:131-141 | logout nulls the client, its ref and the user, empties the history, clears the error and the connected flag, and keeps the typing list, the connecting flag, the slot and the timers |
| `Session.Persisted` | src/App.tsx:44-50 | after the store effect the store holds exactly the current user, with no entry when the user is null |
| `Session.Restored` | src/App.tsx:34-42 | with no user, or with a client already owned, nothing changes; otherwise the user rejoins that room with isCreating false through a new client holding the current closure, the join starts at once exactly when the app is connected, and a construction failure shows the init error and empties the slot; the session, typing list, timers and store are kept |
| `SessionTraces.RunKeepsInv` | src/App.tsx:52-141 | every event keeps the invariant: the owned client and the pending operation belong to the most recent client, and every started operation belongs to a constructed client |
| `SessionTraces.ReachableInv` | src/App.tsx:21-32 | every state reachable from the first render satisfies the invariant |
| `SessionTraces.SentOnlyGrows` | src/App.tsx:105-107 | over any run the outbound log only grows at its end |
| `SessionTraces.HistoryOnlyGrows` | src/App.tsx:85-88 | a run with no login or logout keeps the earlier history as a prefix |
| `SessionTraces.InboundChangesNothingElse` | src/App.tsx:83-94 | a run of inbound messages changes only the history and the typing list |
| `SessionTraces.InboundInOrder` | src/App.tsx:83-94 | a run of inbound messages from any clients appends exactly its chat messages in arrival order and leaves the typing list as the last presence update set it |
| `SessionTraces.ReadyRunsSlotOnce` | src/App.tsx:65-73 | any number of ready events from any constructed clients start the slot's operation once in total, or none if the slot was empty, and leave the slot empty |
| `SessionTraces.SecondLoginReplacesFirst` | src/App.tsx:117 | after two logins only the second operation is pending, and a ready event from the first login's client starts the second operation alone |
| `SessionTraces.CreateAdoptsServerRoomId` | src/App.tsx:104-110 | login, ready and server reply with a room id publish `{nickname, server id, icon}` after one createChatRoom |
| `SessionTraces.JoinKeepsRoomId` | src/App.tsx:106-110 | login, ready and a successful join publish `{nickname, given room id, icon}` after one joinChatRoom |
| `SessionTraces.FailedOperationKeepsUser` | src/App.tsx:111-114 | a rejected room operation keeps `user`, stays connected and shows the room-operation error |
| `SessionTraces.LogoutThenRejoinSameRoom` | src/App.tsx:131-141 | logging out and joining the same room again gives back the same session with an empty history |
| `SessionTraces.CloseSchedulesRejoin` | src/App.tsx:74-81 | a close followed by its timer runs handleLogin with the captured user's nickname, room and icon and isCreating false |
| `SessionTraces.FormLoginDoesNotRejoin` | src/App.tsx:78 | the rejoin of a client created from the login form does nothing, because its closure captured a null user |
| `SessionTraces.FormLoginCapturesNoUser` | src/App.tsx:155-156 | in a run, a login from the form is only possible while `user` is null, so the new client's closure holds no user |
| `SessionTraces.RejoinRepeats` | src/App.tsx:77-79 | a rejoin gives its new client the timer's own closure, so that client's close schedules the same rejoin again |
| `SessionTraces.RestoreStartsRejoinChain` | src/App.tsx:34-42 | closing the client the restore effect created schedules a rejoin with the stored user as the only timer |
| `SessionTraces.RejoinNeverStops` | src/App.tsx:74-81 | for any number of rounds of a rejoin followed by the new client closing, the run is possible, the same rejoin stays scheduled, one client is added per round, and the latest client waits to rejoin the captured user's room |
| `SessionTraces.RetryAfterFailureStartsTwice` | src/App.tsx:117-122 | after a failed operation, one more login followed by a ready event sends that login's request twice |
| `SessionTraces.LogoutClearsStore` | src/App.tsx:44-50 | logout followed by the store effect leaves no stored session |
| `App.Component.constructor` | src/App.tsx:21-32 | the fields start as in the first render |
| `App.Component.HandleLogin` | src/App.tsx:52-129 | the method performs `Session.Login` on the fields and keeps `Valid()` |
| `App.Component.SubmitLogin` | src/App.tsx:156 | the method performs `Session.Submitted` |
| `App.Component.StartRoomOperation` | src/App.tsx:101-108 | the method performs `Session.Start` and keeps `Valid()` for an operation on a constructed client |
| `App.Component.OnConnectionReady` | src/App.tsx:65-73 | the method performs `Session.Ready` |
| `App.Component.OnClose` | src/App.tsx:74-82 | the method performs `Session.Closed` |
| `App.Component.OnMessage` | src/App.tsx:83-94 | the method performs `Session.Received` |
| `App.Component.CompleteRoomOperation` | src/App.tsx:101-122 | the method performs `Session.RoomOperationDone` |
| `App.Component.FireRejoin` | src/App.tsx:77-81 | the method performs `Session.RejoinFired` |
| `App.Component.HandleLogout` | src/App.tsx:131-141 | the method performs `Session.Logout` |
| `App.Component.PersistSession` | src/App.tsx:44-50 | the method performs `Session.Persisted` |
| `App.Component.RestoreSession` | src/App.tsx:34-42 | the method performs `Session.Restored` |
| `ChatRoom.SendFor` | src/components/ChatRoom.tsx:27-32 | nothing is sent for a blank message or with no client; otherwise exactly one SEND_MESSAGE with the untrimmed message |
| `ChatRoom.HandleSendMessage` | src/components/ChatRoom.tsx:27-32 | the method appends exactly `SendFor` to the outbound log and touches nothing else, so no local history |
| `ChatRoom.VerbPhrase` | src/components/ChatRoom.tsx:56-57 | the text after the names is " are typing..." for several names and " is typing..." for one |
| `ChatRoom.TypingIndicator` | src/components/ChatRoom.tsx:54-59 | the indicator shows only when someone is typing; one name gives "<name> is typing..."; several start with the first name and ", " and end with " are typing..." |
| `ChatRoom.IndicatorGrows` | src/components/ChatRoom.tsx:56-57 | adding a name to a non-empty list gives the old names joined, then ", <name> are typing..." |
| `MessageInput.Change` | src/components/MessageInput.tsx:33-49 | the text always follows the field; with no client nothing is sent; a non-empty text while not typing sends one typing:true and sets the flag; emptying the field while typing sends one typing:false; otherwise nothing is sent |
| `MessageInput.Submit` | src/components/MessageInput.tsx:20-31 | a blank text or no client changes nothing; otherwise one SEND_MESSAGE with the untrimmed text, the field cleared, and one typing:false only if the flag was set |
| `MessageInput.TypingValuesAppend` | src/components/MessageInput.tsx:27-47 | the presence values of two logs joined are those of each, in order |
| `MessageInput.PresenceAlternates` | src/components/MessageInput.tsx:20-49 | over any run of edits and submits, presence messages alternate, never sending typing:true twice without typing:false between, and `isTyping` is the last value sent |
| `MessageInput.TypingStartsOnce` | src/components/MessageInput.tsx:38-42 | any number of non-empty edits send typing:true once when not already typing, and nothing when typing |
| `MessageInput.Component.constructor` | src/components/MessageInput.tsx:18 | the field starts empty and not typing |
| `MessageInput.Component.HandleChange` | src/components/MessageInput.tsx:33-49 | the method performs `Change` on the fields and the outbound log |
| `MessageInput.Component.HandleSubmit` | src/components/MessageInput.tsx:20-31 | the method performs `Submit`, sending the chat message through ChatRoom's handler |
| `LoginForm.SubmitArgs` | src/components/LoginForm.tsx:27-31 | no call for a blank nickname; otherwise nickname and room id as typed, isCreating exactly on tab 0, and an empty icon passed as absent, a non-empty one as is |
| `LoginForm.SubmitLabel` | src/components/LoginForm.tsx:81 | the label is "Create Room" exactly on tab 0 and "Join Room" otherwise |
| `LoginForm.LabelMatchesIntent` | src/components/LoginForm.tsx:80-81 | the submit creates a room exactly when the label says "Create Room" |
| `LoginForm.Component.constructor` | src/components/LoginForm.tsx:22-25 | the form starts with empty fields on the first tab |
| `LoginForm.Component.SetNickname` | src/components/LoginForm.tsx:60 | only the nickname changes |
| `LoginForm.Component.SetRoomId` | src/components/LoginForm.tsx:70 | only the room id changes |
| `LoginForm.Component.SelectTab` | src/components/LoginForm.tsx:48 | only the active tab changes |
| `LoginForm.Component.IconLoaded` | src/components/LoginForm.tsx:37-39 | only the icon changes, to the loaded data URL |
| `LoginForm.Component.HandleSubmit` | src/components/LoginForm.tsx:27-31 | the call made is `SubmitArgs` of the current fields |

## Left out

- Rendering is not modelled: JSX, MUI components, CSS classes, the status
  banner and the whole message list (src/components/MessageList.tsx). It is
  presentation only, and its timestamp format is a foreign date-fns call.
- The socket library's internals are not modelled: the wire protocol, the
  handshake and the server's room logic. Construction success and the
  results of `createChatRoom`/`joinChatRoom` come in as parameters, and
  sends are entries in the outbound log.
- `localStorage` and JSON encoding are abstracted. The store is an
  `Option<User>` mirror, and parsing a stored entry is assumed to give back
  the user that was stored.
- Real time is not modelled. A rejoin timer is an entry that a separate
  event fires. Only the firing order follows from the equal 3000 ms delays.
- React's batching and re-render scheduling are not modelled. Effects are
  explicit events: the store and restore effects run when the environment
  says `user` changed. Captured closure values are explicit parameters.
- Reading the icon file with `FileReader` is browser I/O. Only its effect
  is modelled: `IconLoaded` receives the data URL.
- Logging (`console.log`, `console.error`) and `preventDefault` are not
  modelled.
- The browser's own `required` check on form fields is not modelled. The
  model takes the submit handler's guard alone.
- The disabled state of the Send button is not modelled. It is
  presentation, and the submit handler repeats the same guard.
- ChatRoom does not pass the `isTyping`/`setIsTyping` props that
  MessageInput declares (src/components/ChatRoom.tsx:61-65). As written,
  the flag would be undefined and a call to `setIsTyping` would throw. The
  model gives MessageInput the behaviour its props are declared for:
  `isTyping` is a field of the component, read and set by its handlers.
- Chat message payloads are cast, not checked. `ChatMessage` carries the
  fields of the library's message type, and no member inspects them.
- The code has no typing debounce timer and no unmount cleanup. It has no
  check that an event comes from the current socket, and logout does not
  cancel a scheduled rejoin. The model has none of these either.
