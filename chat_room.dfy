// The ChatRoom component: its guarded send of a chat message and the text of
// its typing indicator.
module ChatRoom {
  import opened Common
  import opened Text

  /** What handleSendMessage sends: nothing for a blank message or without a
      client, otherwise one SEND_MESSAGE carrying the message as typed. */
  function SendFor(message: string, client: Option<ClientId>): (r: seq<Outbound>)
    ensures r == [] <==> IsBlank(message) || client.None?
    ensures r != [] ==> r == [SendChat(client.value, message)]
  {
    if IsBlank(message) || client.None? then [] else [SendChat(client.value, message)]
  }

  /** handleSendMessage. It only sends: the local history is not touched, the
      message shows up when the server echoes it back. */
  method HandleSendMessage(message: string, client: Option<ClientId>, wire: SocketLog)
    modifies wire
    ensures wire.sent == old(wire.sent) + SendFor(message, client)
  {
    if IsBlank(message) || client.None? {
      return;
    }
    wire.Send(SendChat(client.value, message));
  }

  /** The rendered text after the names: `{" "}{verb}{" "}typing...`. */
  function VerbPhrase(plural: bool): (t: string)
    ensures t == if plural then " are typing..." else " is typing..."
  {
    var verb := if plural then "are" else "is";
    " " + verb + " " + "typing..."
  }

  /** The typing indicator: absent when nobody is typing, otherwise the names
      joined by ", " followed by "is typing..." for one name and "are
      typing..." for several. */
  function TypingIndicator(usersTyping: seq<string>): (r: Option<string>)
    ensures r.None? <==> usersTyping == []
    ensures |usersTyping| == 1 ==> r == Some(usersTyping[0] + " is typing...")
    ensures |usersTyping| > 1 ==> r.Some? && usersTyping[0] + ", " <= r.value
    ensures |usersTyping| > 1 ==> |r.value| >= 14 && r.value[|r.value| - 14..] == " are typing..."
  {
    if |usersTyping| > 0 then
      var names := Join(usersTyping, ", ");
      var text := names + VerbPhrase(|usersTyping| > 1);
      assert |usersTyping| > 1 ==> text[..|usersTyping[0] + ", "|] == names[..|usersTyping[0] + ", "|];
      assert text[|names|..] == VerbPhrase(|usersTyping| > 1);
      Some(text)
    else None
  }

  /** One more typist extends the indicator by ", <name>" before the verb, which is then "are". */
  lemma IndicatorGrows(usersTyping: seq<string>, name: string)
    requires usersTyping != []
    ensures TypingIndicator(usersTyping + [name]) == Some(Join(usersTyping, ", ") + ", " + name + " are typing...")
  {
    JoinSnoc(usersTyping, name, ", ");
    assert |usersTyping + [name]| > 1;
  }
}
