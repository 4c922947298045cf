/**
  The chat panel: which messages of the log it lists, the style each row
  gets, whether the sender's name is shown, and how a chat payload is
  classified as an image or as text.

  The payload classification sniffs the runtime shape of `content`; the
  result here is a tagged `View`. `JSON.parse` of a string payload is passed
  in, reduced to what the panel looks at: whether it threw, and the parsed
  value's `gifUrl` property.
 */
module Chat {
  import opened Protocol

  /** `JSON.parse(s)` as the panel sees it; reading `gifUrl` of `null` throws, so it is `Unparseable` too. */
  datatype ParsedPayload = Unparseable | Parsed(gifUrl: Option<string>)

  /**
    What one row shows: an image with the given source, the given value as
    text, nothing (a payload object without `text`), or a render error (a
    plain object given to React as a child, which it refuses).
   */
  datatype View = Gif(src: Content) | Text(body: Content) | Blank | RenderError

  datatype Style = SystemMessage | UserMessage | OtherMessage

  /** One row of the list: its style, the sender header (chat rows only) and the body. */
  datatype Row = Row(style: Style, header: Option<string>, body: View)

  /** `renderMessageContent`. */
  function Render(msg: Message, parse: string -> ParsedPayload): (v: View)
    // anything that is not a chat message shows its content as text when it is a string or a list
    // of strings; a plain object there is not a valid React child, so rendering fails
    ensures msg.channel != Chat && (msg.content.Str? || msg.content.Names?) ==> v == Text(msg.content)
    ensures v.RenderError? <==> msg.channel != Chat && (msg.content.Fields? || msg.content.Stroke?)
    // a chat message marked as a GIF shows its content as the image source, whatever it is
    ensures msg.channel == Chat && msg.messageType == Some(GifKind) ==> v == Gif(msg.content)
    // otherwise an image is shown only for a truthy `gifUrl`
    ensures v.Gif? && msg.messageType != Some(GifKind) ==> v.src.Str? && v.src.s != ""
    // a string payload that is not shown as an image is shown verbatim
    ensures msg.content.Str? && !v.Gif? ==> v == Text(msg.content)
    // a chat message with a string payload and no GIF kind is an image exactly when it parses with a truthy `gifUrl`
    ensures msg.channel == Chat && msg.messageType != Some(GifKind) && msg.content.Str? ==>
      (v.Gif? <==> parse(msg.content.s).Parsed? && Truthy(parse(msg.content.s).gifUrl))
    // and the image source is then that `gifUrl`
    ensures msg.channel == Chat && msg.messageType != Some(GifKind) && msg.content.Str? && v.Gif? ==>
      parse(msg.content.s).Parsed? && parse(msg.content.s).gifUrl.Some? &&
      v == Gif(Str(parse(msg.content.s).gifUrl.value))
    // an object payload is an image exactly when its `gifUrl` is truthy, and otherwise shows its `text`
    ensures msg.channel == Chat && msg.messageType != Some(GifKind) && msg.content.Fields? ==>
      v == (if Truthy(msg.content.gifUrl) then Gif(Str(msg.content.gifUrl.value))
            else if msg.content.text.Some? then Text(Str(msg.content.text.value))
            else Blank)
    // a draw event or a list in a chat message has no `text` to show
    ensures msg.channel == Chat && msg.messageType != Some(GifKind) && (msg.content.Stroke? || msg.content.Names?) ==>
      v == Blank
    ensures v.Blank? ==> msg.channel == Chat && !msg.content.Str?
  {
    if msg.channel == Chat then
      if msg.messageType == Some(GifKind) then Gif(msg.content)
      else match msg.content
        case Str(s) =>
          (match parse(s)
           case Unparseable => Text(Str(s))
           case Parsed(url) => if Truthy(url) then Gif(Str(url.value)) else Text(Str(s)))
        case Fields(text, gifUrl) =>
          if Truthy(gifUrl) then Gif(Str(gifUrl.value))
          else if text.Some? then Text(Str(text.value))
          else Blank
        // a draw event or a list is an object without `gifUrl` or `text`
        case Stroke(_) => Blank
        case Names(_) => Blank
    else if msg.content.Str? || msg.content.Names? then Text(msg.content)
    else RenderError
  }

  predicate IsListed(m: Message)
  {
    m.channel == Chat || m.channel == System
  }

  /** The messages the panel lists: chat and system messages, in log order. */
  function Visible(ms: seq<Message>): (vs: seq<Message>)
    ensures forall i :: 0 <= i < |vs| ==> IsListed(vs[i])
    ensures |vs| <= |ms|
  {
    if ms == [] then []
    else (if IsListed(ms[0]) then [ms[0]] else []) + Visible(ms[1..])
  }

  lemma {:induction false} VisibleAppend(a: seq<Message>, b: seq<Message>)
    ensures Visible(a + b) == Visible(a) + Visible(b)
  {
    if a == [] {
      assert a + b == b;
    } else {
      assert (a + b)[1..] == a[1..] + b;
      VisibleAppend(a[1..], b);
    }
  }

  /** Every chat or system message of the log is listed, and nothing else is. */
  lemma {:induction false} VisibleExactly(ms: seq<Message>, m: Message)
    ensures m in Visible(ms) <==> m in ms && IsListed(m)
  {
    if ms != [] {
      VisibleExactly(ms[1..], m);
      assert ms == [ms[0]] + ms[1..];
      assert m in ms <==> m == ms[0] || m in ms[1..];
    }
  }

  /** The row style: system first, then the viewer's own chat messages, then everyone else's. */
  function StyleOf(msg: Message, viewer: string): (s: Style)
    ensures s == SystemMessage <==> msg.channel == System
    ensures s == UserMessage <==> msg.channel != System && msg.username == Some(viewer)
  {
    if msg.channel == System then SystemMessage
    else if msg.username == Some(viewer) then UserMessage
    else OtherMessage
  }

  /** One row; the sender header appears only on chat messages (an absent name shows as nothing). */
  function RowOf(msg: Message, viewer: string, parse: string -> ParsedPayload): (r: Row)
    ensures r.header.Some? <==> msg.channel == Chat
    ensures msg.channel == Chat ==> r.header == Some(if msg.username.Some? then msg.username.value else "")
    ensures r.style == StyleOf(msg, viewer) && r.body == Render(msg, parse)
  {
    Row(StyleOf(msg, viewer),
        if msg.channel == Chat then Some(if msg.username.Some? then msg.username.value else "") else None,
        Render(msg, parse))
  }

  /** The whole list for the log `ms`, as seen by `viewer`. */
  function ChatView(ms: seq<Message>, viewer: string, parse: string -> ParsedPayload): (rows: seq<Row>)
    ensures |rows| == |Visible(ms)|
    ensures forall i :: 0 <= i < |rows| ==> rows[i] == RowOf(Visible(ms)[i], viewer, parse)
  {
    var vs := Visible(ms);
    seq(|vs|, i requires 0 <= i < |vs| => RowOf(vs[i], viewer, parse))
  }

  /**
    A message arriving at the end of the log adds at most one row, at the
    bottom, and leaves the rows above it unchanged; draw and unknown messages
    add none.
   */
  lemma ChatViewAppend(ms: seq<Message>, m: Message, viewer: string, parse: string -> ParsedPayload)
    ensures ChatView(ms + [m], viewer, parse) ==
      ChatView(ms, viewer, parse) + (if IsListed(m) then [RowOf(m, viewer, parse)] else [])
  {
    VisibleAppend(ms, [m]);
    assert Visible([m]) == (if IsListed(m) then [m] else []) by {
      assert [m][1..] == [];
    }
  }
}
