/**
  The message composer: the text being typed, the emoji picker and the GIF
  picker. Submitting sends the trimmed text and empties the box; picking an
  emoji appends it; picking a GIF sends its URL. Opening either picker closes
  the other.
 */
module MessageInput {
  import opened Protocol
  import opened JsString

  /** The arguments of one `onSendMessage(message, type)` call. */
  datatype Submission = Submission(text: string, kind: PayloadKind)

  class Composer {
    var message: string
    var showEmojiPicker: bool
    var showGifPicker: bool

    /** At most one picker is open. */
    ghost predicate Valid()
      reads this
    {
      !(showEmojiPicker && showGifPicker)
    }

    constructor ()
      ensures Valid()
      ensures message == "" && !showEmojiPicker && !showGifPicker
    {
      message := "";
      showEmojiPicker := false;
      showGifPicker := false;
    }

    /** The text input's change handler. */
    method SetMessage(text: string)
      requires Valid()
      modifies this
      ensures Valid()
      ensures message == text
      ensures showEmojiPicker == old(showEmojiPicker) && showGifPicker == old(showGifPicker)
    {
      message := text;
    }

    /**
      `handleSubmit`: a blank message sends nothing and stays; otherwise its
      trimmed text is sent once as `text` and the box is emptied.
     */
    method HandleSubmit() returns (sent: Option<Submission>)
      requires Valid()
      modifies this
      ensures Valid()
      ensures sent.Some? <==> !AllWhiteSpace(old(message))
      ensures sent.Some? ==>
        sent.value == Submission(Trim(old(message)), TextKind) && sent.value.text != "" && message == ""
      ensures sent.None? ==> message == old(message)
      ensures showEmojiPicker == old(showEmojiPicker) && showGifPicker == old(showGifPicker)
    {
      TrimEmptyIff(message);
      var trimmed := Trim(message);
      if trimmed != "" {
        sent := Some(Submission(trimmed, TextKind));
        message := "";
      } else {
        sent := None;
      }
    }

    /** `onEmojiClick`: the emoji is appended to the text and the emoji picker closes. */
    method OnEmojiClick(emoji: string)
      requires Valid()
      modifies this
      ensures Valid()
      ensures message == old(message) + emoji
      ensures !showEmojiPicker && showGifPicker == old(showGifPicker)
    {
      message := message + emoji;
      showEmojiPicker := false;
    }

    /** `onGifSelect`: the URL is sent as `gif` and the GIF picker closes; the text is kept. */
    method OnGifSelect(url: string) returns (sent: Submission)
      requires Valid()
      modifies this
      ensures Valid()
      ensures sent == Submission(url, GifKind)
      ensures message == old(message)
      ensures !showGifPicker && showEmojiPicker == old(showEmojiPicker)
    {
      sent := Submission(url, GifKind);
      showGifPicker := false;
    }

    /** The emoji button: flips the emoji picker and closes the GIF picker. */
    method ToggleEmojiPicker()
      requires Valid()
      modifies this
      ensures Valid()
      ensures showEmojiPicker == !old(showEmojiPicker) && !showGifPicker
      ensures message == old(message)
    {
      showEmojiPicker := !showEmojiPicker;
      showGifPicker := false;
    }

    /** The GIF button: flips the GIF picker and closes the emoji picker. */
    method ToggleGifPicker()
      requires Valid()
      modifies this
      ensures Valid()
      ensures showGifPicker == !old(showGifPicker) && !showEmojiPicker
      ensures message == old(message)
    {
      showGifPicker := !showGifPicker;
      showEmojiPicker := false;
    }
  }
}
