/**
  The home page: the join form that validates the chosen user name, and the
  two adapters that turn the chat panel's callbacks into `sendMessage` calls.
 */
module Page {
  import opened Protocol
  import opened JsString

  /** The arguments of one `sendMessage(content, messageType)` call. */
  datatype Outgoing = Outgoing(content: Content, kind: PayloadKind)

  /** The Join button is disabled exactly when the name is blank after trimming. */
  predicate JoinDisabled(username: string)
  {
    Trim(username) == ""
  }

  lemma JoinDisabledIff(username: string)
    ensures JoinDisabled(username) <==> AllWhiteSpace(username)
  {
    TrimEmptyIff(username);
  }

  /**
    `handleSendMessage`: the text becomes `{text: message}` with kind `text`.
    The second argument the chat panel passes is ignored.
   */
  function HandleSendMessage(message: string, kind: Option<PayloadKind>): (out: Outgoing)
    ensures out.kind == TextKind
    ensures out.content == Fields(Some(message), None)
  {
    Outgoing(Fields(Some(message), None), TextKind)
  }

  /**
    The adapter with the kind forwarded: a GIF URL goes out as a bare string
    of kind `gif`, which is the shape the chat panel renders as an image;
    text goes out as before.
   */
  function HandleSendMessageWithKind(message: string, kind: Option<PayloadKind>): (out: Outgoing)
    ensures kind == Some(GifKind) ==> out == Outgoing(Str(message), GifKind)
    ensures kind != Some(GifKind) ==> out == HandleSendMessage(message, kind)
  {
    if kind == Some(GifKind) then Outgoing(Str(message), GifKind)
    else HandleSendMessage(message, kind)
  }

  /** `handleDraw`: a stroke or clear marker goes out unchanged with kind `draw`. */
  function HandleDraw(event: DrawEvent): (out: Outgoing)
    ensures out.kind == DrawKind && out.content.Stroke? && out.content.event == event
  {
    Outgoing(Stroke(event), DrawKind)
  }

  /** The page's state: the name typed so far and whether the user has joined. */
  class Home {
    var username: string
    var hasJoined: bool

    constructor ()
      ensures username == "" && !hasJoined
    {
      username := "";
      hasJoined := false;
    }

    /** The name input's change handler. */
    method SetUsername(name: string)
      modifies this
      ensures username == name && hasJoined == old(hasJoined)
    {
      username := name;
    }

    /**
      `handleJoin`: a name that is blank after trimming changes nothing;
      otherwise the trimmed name is stored and the user has joined.
     */
    method HandleJoin()
      modifies this
      ensures hasJoined == (old(hasJoined) || !JoinDisabled(old(username)))
      ensures JoinDisabled(old(username)) ==> username == old(username)
      ensures !JoinDisabled(old(username)) ==> username == Trim(old(username))
      ensures hasJoined && !old(hasJoined) ==> username != "" && Trimmed(username)
    {
      var trimmed := Trim(username);
      if trimmed != "" {
        username := trimmed;
        hasJoined := true;
      }
    }
  }
}
