/**
  The wire protocol shared by the chat client and the relay server: the shape
  of one message (an envelope tagged by `type`), the payloads it may carry and
  the envelope the client builds when it sends.

  JSON is never re-implemented here: a message is modelled as the value that
  `JSON.parse`/`json.loads` would produce, and the places that parse take the
  parse result as a parameter.
 */
module Protocol {

  datatype Option<+T> = None | Some(value: T)

  /** A canvas point; its coordinates are floating-point DOM geometry, opaque here. */
  datatype Point = Point(x: real, y: real)

  /**
    One committed stroke or a clear marker. `points` is `None` when the
    object has no `points` property; `clear` is false when it is absent.
   */
  datatype DrawEvent = DrawEvent(points: Option<seq<Point>>, color: string, clear: bool)

  /**
    The `content` of a message: a string, a `{text?, gifUrl?}` object,
    a draw event object or a list of names.
   */
  datatype Content =
    | Str(s: string)
    | Fields(text: Option<string>, gifUrl: Option<string>)
    | Stroke(event: DrawEvent)
    | Names(names: seq<string>)

  /**
    The `type` of a message; any other tag is kept as it arrived. A decoded
    message is `Canonical`: `Unknown` never carries one of the four known tags.
   */
  datatype Channel = Chat | System | Users | Draw | Unknown(tag: string)

  const KnownTags: seq<string> := ["chat", "system", "users", "draw"]

  predicate Canonical(c: Channel)
  {
    c.Unknown? ==> c.tag !in KnownTags
  }

  /** The channel a received `type` string selects, as the client's `type ===` comparisons do. */
  function ChannelOf(tag: string): (c: Channel)
    ensures Canonical(c)
    ensures c.Unknown? <==> tag !in KnownTags
    ensures c == Chat <==> tag == "chat"
    ensures c == System <==> tag == "system"
    ensures c == Users <==> tag == "users"
    ensures c == Draw <==> tag == "draw"
    ensures c.Unknown? ==> c.tag == tag
  {
    if tag == "chat" then Chat
    else if tag == "system" then System
    else if tag == "users" then Users
    else if tag == "draw" then Draw
    else Unknown(tag)
  }

  /** The `type` string a channel is written as. */
  function TagOf(c: Channel): string
  {
    match c
    case Chat => "chat"
    case System => "system"
    case Users => "users"
    case Draw => "draw"
    case Unknown(t) => t
  }

  /** Reading a tag and writing it back gives the same tag, and a canonical channel survives the round trip. */
  lemma ChannelRoundTrip(tag: string, c: Channel)
    ensures TagOf(ChannelOf(tag)) == tag
    ensures Canonical(c) ==> ChannelOf(TagOf(c)) == c
  {
  }

  /** The `messageType` a sender attaches. */
  datatype PayloadKind = TextKind | GifKind | DrawKind

  datatype Message = Message(
    channel: Channel,
    content: Content,
    userId: Option<string>,
    username: Option<string>,
    messageType: Option<PayloadKind>)

  /** JavaScript truthiness of an optional string: present and not empty. */
  predicate Truthy(s: Option<string>)
  {
    s.Some? && s.value != ""
  }

  /** The kind `sendMessage` uses when its caller gives none. */
  function KindOrDefault(kind: Option<PayloadKind>): (k: PayloadKind)
    ensures kind.Some? ==> k == kind.value
    ensures kind.None? ==> k == TextKind
  {
    if kind.Some? then kind.value else TextKind
  }

  /**
    The envelope `sendMessage` serialises: a draw kind goes on the draw
    channel, every other kind on the chat channel; content and kind travel
    unchanged and the sender fields are left for the server to stamp.
   */
  function Encode(content: Content, kind: Option<PayloadKind>): (env: Message)
    ensures env.channel == Draw <==> KindOrDefault(kind) == DrawKind
    ensures env.channel == Draw || env.channel == Chat
    ensures env.content == content && env.messageType == Some(KindOrDefault(kind))
    ensures env.userId.None? && env.username.None?
  {
    var k := KindOrDefault(kind);
    Message(if k == DrawKind then Draw else Chat, content, None, None, Some(k))
  }
}
