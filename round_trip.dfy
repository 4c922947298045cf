/**
  What one client's action turns into on every client's screen: the page
  adapter builds the `sendMessage` arguments, the hook encodes the envelope,
  the server stamps and broadcasts it, every hook appends it to its log, and
  the chat panel and the canvas show it.

  The JSON round trip between the two ends is taken to deliver the envelope
  unchanged.
 */
module RoundTrip {
  import opened Protocol
  import DrawingBoard
  import Chat
  import Page
  import Server
  import WebSocket

  /** The envelope the hook sends for `out`, as the server broadcasts it for connection (`userId`, `username`). */
  function Delivered(out: Page.Outgoing, userId: string, username: string): (m: Message)
    ensures Server.Relay(Server.Object(Encode(out.content, Some(out.kind)), true), userId, username) ==
      Server.Broadcast(m)
    ensures m.username == Some(username) && m.content == out.content && m.messageType == Some(out.kind)
  {
    Server.Stamp(Encode(out.content, Some(out.kind)), userId, username)
  }

  /**
    Text typed in the composer shows as that text on every client: in the own
    style on every client whose user name equals the sender's (names need not
    be unique), and in the other style elsewhere.
   */
  lemma SentTextShowsAsText(text: string, userId: string, username: string, viewer: string,
                            parse: string -> Chat.ParsedPayload)
    ensures var m := Delivered(Page.HandleSendMessage(text, Some(TextKind)), userId, username);
      Chat.Render(m, parse) == Chat.Text(Str(text)) &&
      m.channel == Chat &&
      Chat.StyleOf(m, viewer) == (if viewer == username then Chat.UserMessage else Chat.OtherMessage)
  {
  }

  /**
    As written, a GIF picked in the composer reaches `handleSendMessage` with
    kind `gif`, which drops the kind: every client shows the URL as text and
    never as an image.
   */
  lemma PickedGifShowsAsText(url: string, userId: string, username: string,
                             parse: string -> Chat.ParsedPayload)
    ensures var m := Delivered(Page.HandleSendMessage(url, Some(GifKind)), userId, username);
      Chat.Render(m, parse) == Chat.Text(Str(url)) && !Chat.Render(m, parse).Gif?
  {
  }

  /** With the kind forwarded, a picked GIF shows as an image of that URL on every client. */
  lemma PickedGifShowsAsImage(url: string, userId: string, username: string,
                              parse: string -> Chat.ParsedPayload)
    ensures var m := Delivered(Page.HandleSendMessageWithKind(url, Some(GifKind)), userId, username);
      Chat.Render(m, parse) == Chat.Gif(Str(url))
  {
  }

  /**
    A committed stroke reaches every canvas as its own path on top of what
    was there; a single-click stroke changes nothing; a clear marker empties
    the canvas. Chat rows are not affected by any of them.
   */
  lemma DrawRoundTrip(log: seq<Message>, event: DrawEvent, userId: string, username: string,
                      viewer: string, parse: string -> Chat.ParsedPayload)
    ensures var m := Delivered(Page.HandleDraw(event), userId, username);
      && (event.clear ==> DrawingBoard.Replay(log + [m]) == [])
      && (!event.clear && event.points.Some? && |event.points.value| >= 2 ==>
            DrawingBoard.Replay(log + [m]) ==
            DrawingBoard.Replay(log) +
            [DrawingBoard.Path(event.color, event.points.value[0], event.points.value[1..])])
      && (!event.clear && event.points.Some? && |event.points.value| < 2 ==>
            DrawingBoard.Replay(log + [m]) == DrawingBoard.Replay(log))
      && Chat.ChatView(log + [m], viewer, parse) == Chat.ChatView(log, viewer, parse)
  {
    var m := Delivered(Page.HandleDraw(event), userId, username);
    DrawingBoard.ReplayStep(log, m);
    Chat.ChatViewAppend(log, m, viewer, parse);
  }

  /** The server's join and leave announcements show as plain text in the system style, without a sender. */
  lemma AnnouncementsShowAsSystemText(username: string, viewer: string, parse: string -> Chat.ParsedPayload)
    ensures Chat.RowOf(Server.Joined(username), viewer, parse) ==
      Chat.Row(Chat.SystemMessage, None, Chat.Text(Str(username + " joined the chat")))
    ensures Chat.RowOf(Server.Left(Some(username)), viewer, parse) ==
      Chat.Row(Chat.SystemMessage, None, Chat.Text(Str(username + " left the chat")))
  {
  }

  /** The roster frames the hook keeps out of its log never carried drawing, so its canvas is that of every frame. */
  lemma CanvasOfSessionLog(frames: seq<Message>)
    ensures DrawingBoard.Replay(WebSocket.Logged(frames)) == DrawingBoard.Replay(frames)
  {
    WebSocket.LoggedKeepsDrawing(frames);
  }

  /** A red stroke, a clear marker, then a green stroke: only the green stroke is on the canvas. */
  lemma ClearThenStroke()
    ensures
      var red := Message(Draw, Stroke(DrawEvent(Some([Point(0.0, 0.0), Point(10.0, 10.0)]), "#ff0000", false)),
                         None, None, None);
      var clear := Message(Draw, Stroke(DrawEvent(Some([]), "#000", true)), None, None, None);
      var green := Message(Draw, Stroke(DrawEvent(Some([Point(1.0, 1.0), Point(2.0, 2.0)]), "#00ff00", false)),
                           None, None, None);
      DrawingBoard.Replay([red, clear, green]) == [DrawingBoard.Path("#00ff00", Point(1.0, 1.0), [Point(2.0, 2.0)])]
  {
    var red := Message(Draw, Stroke(DrawEvent(Some([Point(0.0, 0.0), Point(10.0, 10.0)]), "#ff0000", false)),
                       None, None, None);
    var clear := Message(Draw, Stroke(DrawEvent(Some([]), "#000", true)), None, None, None);
    var green := Message(Draw, Stroke(DrawEvent(Some([Point(1.0, 1.0), Point(2.0, 2.0)]), "#00ff00", false)),
                         None, None, None);
    DrawingBoard.ReplayStep([red, clear], green);
    DrawingBoard.ReplayEndsWithClear([red], clear);
    assert [red] + [clear] == [red, clear];
    assert [red, clear] + [green] == [red, clear, green];
  }
}
