// Values shared by every component of the chat client: the session record,
// the arguments of a login intent, chat messages, and the calls that the
// client makes on its socket (kept as an append-only log).
module Common {

  datatype Option<T> = None | Some(value: T)

  /** Each socket client instance the controller constructs gets the next number. */
  type ClientId = nat

  /** The session a user holds: which room, under which nickname and icon. */
  datatype User = User(nickname: string, roomId: string, userIcon: Option<string>)

  /** The four arguments a login intent hands to the session controller. */
  datatype LoginArgs = LoginArgs(nickname: string, roomId: string, isCreating: bool, userIcon: Option<string>)

  /** A chat message as the transport delivers it; its fields are trusted, never checked. */
  datatype ChatMessage = ChatMessage(
    isSystemMessage: bool,
    userNickname: Option<string>,
    userIcon: Option<string>,
    body: string,
    permId: string,
    timestamp: int)

  /** An inbound socket message, by its type tag. */
  datatype Inbound =
    | ChatPayload(message: ChatMessage)                    // SEND_MESSAGE
    | PresencePayload(usersTyping: Option<seq<string>>)    // SET_TYPING_PRESENCE; the field may be absent
    | OtherPayload(kind: string)                           // any other type

  /** A call the application makes on one of its socket clients. */
  datatype Outbound =
    | CreateChatRoom(client: ClientId, nickname: string, userIcon: Option<string>)
    | JoinChatRoom(client: ClientId, nickname: string, roomId: string, userIcon: Option<string>)
    | SendChat(client: ClientId, body: string)             // SEND_MESSAGE { body }
    | SendTyping(client: ClientId, typing: bool)           // SET_TYPING_PRESENCE { typing }

  /** The outbound side of the socket: every call ever made, in order. */
  class SocketLog {
    var sent: seq<Outbound>

    constructor ()
      ensures sent == []
    {
      sent := [];
    }

    method Send(e: Outbound)
      modifies this
      ensures sent == old(sent) + [e]
    {
      sent := sent + [e];
    }
  }
}
