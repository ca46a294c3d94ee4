// The MessageInput component: the text field and the `isTyping` flag, and the
// typing-presence messages that flipping the flag sends.
module MessageInput {
  import opened Common
  import opened Text
  import ChatRoom

  /** The field's text and whether the component last said "typing". */
  datatype Draft = Draft(message: string, isTyping: bool)

  /** handleChange with the new field value: the text always follows the
      field; with a client, a first non-empty text sends typing:true and
      emptying the field while typing sends typing:false. */
  function Change(d: Draft, value: string, client: Option<ClientId>): (r: (Draft, seq<Outbound>))
    ensures r.0.message == value
    ensures client.None? ==> r.0.isTyping == d.isTyping && r.1 == []
    ensures client.Some? && value != "" && !d.isTyping ==> r.0.isTyping && r.1 == [SendTyping(client.value, true)]
    ensures client.Some? && value == "" && d.isTyping ==> !r.0.isTyping && r.1 == [SendTyping(client.value, false)]
    ensures (value != "") == d.isTyping ==> r.0.isTyping == d.isTyping && r.1 == []
  {
    if client.None? then (Draft(value, d.isTyping), [])
    else if value != "" && !d.isTyping then (Draft(value, true), [SendTyping(client.value, true)])
    else if value == "" && d.isTyping then (Draft(value, false), [SendTyping(client.value, false)])
    else (Draft(value, d.isTyping), [])
  }

  /** handleSubmit: a blank text or a missing client does nothing; otherwise
      the text as typed goes to onSendMessage (ChatRoom's send), the field is
      cleared, and typing:false follows if the flag was set. */
  function Submit(d: Draft, client: Option<ClientId>): (r: (Draft, seq<Outbound>))
    ensures IsBlank(d.message) || client.None? ==> r == (d, [])
    ensures !IsBlank(d.message) && client.Some? ==> r.0 == Draft("", false)
    ensures !IsBlank(d.message) && client.Some? ==>
      r.1 == [SendChat(client.value, d.message)] + (if d.isTyping then [SendTyping(client.value, false)] else [])
  {
    if IsBlank(d.message) || client.None? then (d, [])
    else
      var typingOff := if d.isTyping then [SendTyping(client.value, false)] else [];
      (Draft("", false), ChatRoom.SendFor(d.message, client) + typingOff)
  }

  datatype InputEvent = Changed(value: string, client: Option<ClientId>) | Submitted(client: Option<ClientId>)

  function Apply(d: Draft, e: InputEvent): (Draft, seq<Outbound>) {
    match e
    case Changed(value, client) => Change(d, value, client)
    case Submitted(client) => Submit(d, client)
  }

  /** The draft after a run of input events, and everything they sent. */
  function RunInput(d: Draft, events: seq<InputEvent>): (Draft, seq<Outbound>)
    decreases |events|
  {
    if events == [] then (d, [])
    else
      var (d1, out1) := Apply(d, events[0]);
      var (d2, out2) := RunInput(d1, events[1..]);
      (d2, out1 + out2)
  }

  /** The typing:… values among outbound calls, in order. */
  function TypingValues(out: seq<Outbound>): seq<bool> {
    if out == [] then []
    else (if out[0].SendTyping? then [out[0].typing] else []) + TypingValues(out[1..])
  }

  lemma {:induction false} TypingValuesAppend(a: seq<Outbound>, b: seq<Outbound>)
    ensures TypingValues(a + b) == TypingValues(a) + TypingValues(b)
  {
    if a == [] {
      assert a + b == b;
    } else {
      assert (a + b)[0] == a[0];
      assert (a + b)[1..] == a[1..] + b;
      TypingValuesAppend(a[1..], b);
    }
  }

  /** Each value is the opposite of the one before it, the first the opposite of `prev`. */
  predicate Alternates(prev: bool, values: seq<bool>)
    decreases |values|
  {
    values == [] || (values[0] == !prev && Alternates(values[0], values[1..]))
  }

  /** The last value, or `prev` when there is none. */
  function LastOr(prev: bool, values: seq<bool>): bool
    decreases |values|
  {
    if values == [] then prev else LastOr(values[0], values[1..])
  }

  /** The presence protocol: whatever the user types or submits, and whether
      or not a client is there, the typing messages alternate (typing:true is
      never sent twice without a typing:false between), and `isTyping` is the
      last value sent. */
  lemma {:induction false} PresenceAlternates(d: Draft, events: seq<InputEvent>)
    ensures Alternates(d.isTyping, TypingValues(RunInput(d, events).1))
    ensures RunInput(d, events).0.isTyping == LastOr(d.isTyping, TypingValues(RunInput(d, events).1))
    decreases |events|
  {
    if events != [] {
      var (d1, out1) := Apply(d, events[0]);
      var (d2, out2) := RunInput(d1, events[1..]);
      PresenceAlternates(d1, events[1..]);
      TypingValuesAppend(out1, out2);
      var head := TypingValues(out1);
      assert head == [] ==> d1.isTyping == d.isTyping;
      assert head != [] ==> head == [d1.isTyping] && d1.isTyping == !d.isTyping;
      assert RunInput(d, events) == (d2, out1 + out2);
      var all := head + TypingValues(out2);
      assert TypingValues(out1 + out2) == all;
      if head == [] {
        assert all == TypingValues(out2);
      } else {
        assert all[0] == d1.isTyping && all[1..] == TypingValues(out2);
        assert Alternates(d.isTyping, all);
        assert LastOr(d.isTyping, all) == LastOr(d1.isTyping, TypingValues(out2));
      }
    }
  }

  /** While the field stays non-empty, any number of changes sends typing:true at most once. */
  lemma {:induction false} TypingStartsOnce(d: Draft, values: seq<string>, client: ClientId)
    requires forall k :: 0 <= k < |values| ==> values[k] != ""
    ensures var events := seq(|values|, k requires 0 <= k < |values| => Changed(values[k], Some(client)));
      RunInput(d, events).1 == (if d.isTyping || values == [] then [] else [SendTyping(client, true)])
    ensures values != [] ==> RunInput(d, seq(|values|, k requires 0 <= k < |values| => Changed(values[k], Some(client)))).0.isTyping
    decreases |values|
  {
    var events := seq(|values|, k requires 0 <= k < |values| => Changed(values[k], Some(client)));
    if values != [] {
      var d1 := Change(d, values[0], Some(client)).0;
      var rest := seq(|values| - 1, k requires 0 <= k < |values| - 1 => Changed(values[1..][k], Some(client)));
      assert events[1..] == rest;
      TypingStartsOnce(d1, values[1..], client);
    }
  }

  class Component {
    var message: string
    var isTyping: bool

    constructor ()
      ensures message == "" && !isTyping
    {
      message := "";
      isTyping := false;
    }

    function Current(): Draft
      reads this
    {
      Draft(message, isTyping)
    }

    method HandleChange(value: string, client: Option<ClientId>, wire: SocketLog)
      modifies this, wire
      ensures Current() == Change(old(Current()), value, client).0
      ensures wire.sent == old(wire.sent) + Change(old(Current()), value, client).1
    {
      message := value;
      if client.None? {
        return;
      }
      if value != "" && !isTyping {
        isTyping := true;
        wire.Send(SendTyping(client.value, true));
      } else if value == "" && isTyping {
        isTyping := false;
        wire.Send(SendTyping(client.value, false));
      }
    }

    method HandleSubmit(client: Option<ClientId>, wire: SocketLog)
      modifies this, wire
      ensures Current() == Submit(old(Current()), client).0
      ensures wire.sent == old(wire.sent) + Submit(old(Current()), client).1
    {
      if IsBlank(message) || client.None? {
        return;
      }
      ChatRoom.HandleSendMessage(message, client, wire);
      message := "";
      if isTyping {
        isTyping := false;
        wire.Send(SendTyping(client.value, false));
      }
    }
  }
}
