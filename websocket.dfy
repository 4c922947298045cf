/**
  The client's connection hook: one WebSocket per joined user, the
  connection flag, the append-only message log and the roster of active
  users, updated by the socket's open, close and message callbacks, and the
  guarded send.

  The socket itself is not modelled: creating it records its address,
  `JSON.parse` and `encodeURIComponent` are passed in, and a transmitted
  frame is returned as the envelope that `JSON.stringify` would serialise.
 */
module WebSocket {
  import opened Protocol
  import DrawingBoard

  /** The frames the log keeps: every parsed frame except roster updates, in arrival order. */
  function Logged(frames: seq<Message>): (log: seq<Message>)
    ensures forall i :: 0 <= i < |log| ==> log[i].channel != Users
    ensures |log| <= |frames|
  {
    if frames == [] then []
    else (if frames[0].channel != Users then [frames[0]] else []) + Logged(frames[1..])
  }

  lemma {:induction false} LoggedAppend(a: seq<Message>, b: seq<Message>)
    ensures Logged(a + b) == Logged(a) + Logged(b)
  {
    if a == [] {
      assert a + b == b;
    } else {
      assert (a + b)[1..] == a[1..] + b;
      LoggedAppend(a[1..], b);
    }
  }

  /** Holding roster updates out of the log loses no draw message, so the canvas is the same. */
  lemma {:induction false} LoggedKeepsDrawing(frames: seq<Message>)
    ensures DrawingBoard.DrawMessages(Logged(frames)) == DrawingBoard.DrawMessages(frames)
  {
    if frames != [] {
      var head := if frames[0].channel != Users then [frames[0]] else [];
      DrawingBoard.DrawMessagesAppend(head, Logged(frames[1..]));
      assert DrawingBoard.DrawMessages(head) == (if frames[0].channel == Draw then [frames[0]] else []) by {
        if head != [] {
          assert head[1..] == [];
        }
      }
      LoggedKeepsDrawing(frames[1..]);
    }
  }

  class Session {
    const baseUrl: string
    const username: string
    const shouldConnect: bool
    /** The address of the socket the hook opened, if it opened one. */
    var socket: Option<string>
    var isConnected: bool
    var messages: seq<Message>
    /** The `content` of the last `users` frame, stored as it arrived (a cast, not a conversion). */
    var activeUsers: Content
    /** Every frame that parsed, in arrival order. */
    ghost var received: seq<Message>

    ghost predicate Valid()
      reads this
    {
      (isConnected ==> socket.Some?) && messages == Logged(received)
    }

    /**
      The hook's effect: no socket unless there is a user name and the user
      has joined; otherwise one socket at `baseUrl/encodeURIComponent(name)`.
     */
    constructor (baseUrl: string, username: string, shouldConnect: bool, encodeUri: string -> string)
      ensures Valid()
      ensures this.baseUrl == baseUrl && this.username == username && this.shouldConnect == shouldConnect
      ensures username == "" || !shouldConnect ==> socket == None
      ensures username != "" && shouldConnect ==> socket == Some(baseUrl + "/" + encodeUri(username))
      ensures !isConnected && messages == [] && activeUsers == Names([]) && received == []
    {
      this.baseUrl := baseUrl;
      this.username := username;
      this.shouldConnect := shouldConnect;
      isConnected := false;
      messages := [];
      activeUsers := Names([]);
      received := [];
      if username == "" || !shouldConnect {
        socket := None;
      } else {
        socket := Some(baseUrl + "/" + encodeUri(username));
      }
    }

    /** `onopen`: the connection flag goes up; log and roster are untouched. */
    method OnOpen()
      requires Valid() && socket.Some?
      modifies this
      ensures Valid()
      ensures isConnected
      ensures socket == old(socket) && messages == old(messages) && activeUsers == old(activeUsers)
      ensures received == old(received)
    {
      isConnected := true;
    }

    /** `onclose`: the connection flag goes down and the roster is emptied; the log stays. */
    method OnClose()
      requires Valid() && socket.Some?
      modifies this
      ensures Valid()
      ensures !isConnected && activeUsers == Names([])
      ensures socket == old(socket) && messages == old(messages) && received == old(received)
    {
      isConnected := false;
      activeUsers := Names([]);
    }

    /**
      `onmessage`: a frame that does not parse throws before any update; a
      `users` frame replaces the roster with its content; every other frame,
      whatever its type, is appended to the log. The parsed frame's `type` is
      read as `ChannelOf` reads it, so its channel is canonical.
     */
    method OnMessage(data: string, parse: string -> Option<Message>)
      requires Valid() && socket.Some?
      requires parse(data).Some? ==> Canonical(parse(data).value.channel)
      modifies this
      ensures Valid()
      ensures socket == old(socket) && isConnected == old(isConnected)
      ensures parse(data).None? ==>
        messages == old(messages) && activeUsers == old(activeUsers) && received == old(received)
      ensures parse(data).Some? ==> received == old(received) + [parse(data).value]
      ensures parse(data).Some? && parse(data).value.channel == Users ==>
        activeUsers == parse(data).value.content && messages == old(messages)
      ensures parse(data).Some? && parse(data).value.channel != Users ==>
        messages == old(messages) + [parse(data).value] && activeUsers == old(activeUsers)
    {
      var parsed := parse(data);
      if parsed.None? {
        return;
      }
      var message := parsed.value;
      LoggedAppend(received, [message]);
      assert Logged([message]) == (if message.channel != Users then [message] else []) by {
        assert [message][1..] == [];
      }
      received := received + [message];
      if message.channel == Users {
        activeUsers := message.content;
      } else {
        messages := messages + [message];
      }
    }

    /**
      `sendMessage`: transmits exactly one envelope when a socket exists and
      is connected, and nothing otherwise. The envelope goes on the draw
      channel exactly when the kind is `draw`, carries the content unchanged,
      and its kind defaults to `text`.
     */
    method Send(content: Content, kind: Option<PayloadKind>) returns (frame: Option<Message>)
      ensures frame.Some? <==> socket.Some? && isConnected
      ensures frame.Some? ==> frame.value == Encode(content, kind)
      ensures frame.Some? ==> (frame.value.channel == Draw <==> KindOrDefault(kind) == DrawKind)
    {
      if socket.Some? && isConnected {
        frame := Some(Encode(content, kind));
      } else {
        frame := None;
      }
    }
  }
}
