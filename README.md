# chatchat — a Dafny model of the chat client's log, canvas and composer, and of the relay server's registry

chatchat is a small realtime chat: a Next.js client with text, emoji and GIF
messages, a roster of active users and a shared freehand drawing board, all
carried over one WebSocket per user to a FastAPI relay server. This project
models the parts of it that carry real logic and proves what they promise:

- **Drawing replay** (`DrawingBoard`). On every change to the message log the
  canvas is redrawn from scratch. Only `draw` messages count. Everything up to
  and including the last clear marker is dropped. Each remaining stroke with at
  least two points becomes one polyline in its own colour. `Replay` returns the
  list of paths that the canvas calls trace. The lemmas show three things.
  Non-draw messages never matter. `D ++ [clear] ++ D2` replays exactly like
  `D2`. Replaying the whole log agrees with drawing only the newest message on
  top of the old canvas (`ReplayStep`). So two clients whose logs agree after
  their last clear marker draw the same paths. The server keeps no history,
  so a client that joins late has a shorter log and misses every stroke
  drawn before it joined.
- **Stroke buffer** (`DrawingBoard.Board`). Mouse down, move, up and out, the
  colour input and the clear button. The class invariant says that a stroke in
  progress always holds its start point. So the `length > 0` check in
  `stopDrawing` always passes, and every started stroke is committed, even a
  single click. Replay then never draws a single click.
- **Connection hook** (`WebSocket.Session`). The connection flag, the
  append-only log and the roster, updated by the open, close and message
  callbacks. A ghost record of every parsed frame shows that the log is
  exactly the non-`users` frames in arrival order. `Send` transmits one
  envelope only when connected.
- **Chat panel** (`Chat`). Which messages are listed, the style of each row,
  the sender header, and the classification of a payload as an image or as
  text (`Render`, the tagged form of `renderMessageContent`).
- **Page and composer** (`Page`, `MessageInput`). Joining with a trimmed,
  non-blank name; the two `sendMessage` adapters; submit, emoji, GIF and the
  two picker toggles, with the invariant that at most one picker is open.
  JavaScript's `trim` is modelled in `JsString`.
- **Relay server** (`Server`). The connection registry with ids `id_<n>` from
  a counter that only grows. The ids are proved distinct because decimal
  printing is injective. The per-connection endpoint (`Serve`) announces the
  join, relays frames stamped with the sender's id and name, skips invalid
  JSON, and announces the departure.
- **End to end** (`RoundTrip`). What one client's action becomes on every
  client's chat list and canvas.

Behaviour of the code that the model follows as written:

- Frames whose `type` is not one of the four known ones are appended to the
  log like any other (client/src/hooks/useWebSocket.ts:54-55). They are not
  dropped.
- There is no `try` around `JSON.parse` in the message callback. A frame that
  does not parse throws before any state changes, so nothing changes.
- The roster is not cleared when the socket opens, only when it closes.
- There is no separate "connecting" state, only the `isConnected` flag.
- The server never sends a `users` frame. It broadcasts only its own `system`
  announcements and the relayed client frames, and the client sends only
  `chat` and `draw`. So in practice the roster stays empty. The model still
  covers a `users` frame, as the client code does.
- On the server, a frame that is valid JSON but not an object fails the
  `user_id` assignment. An object without `content` fails the log line. Both
  errors escape the receive loop, which catches only `JSONDecodeError`. The
  endpoint then ends with no departure announcement, and its registration is
  left behind. `Serve` models this as written.

## Model

| member | source | states |
|---|---|---|
| Protocol.KindOrDefault | client/src/hooks/useWebSocket.ts:67 | `messageType` defaults to `text` when the caller gives none |
| Protocol.ChannelOf | client/src/hooks/useWebSocket.ts:51 | a received `type` selects the known channel with that exact tag; any other tag is kept unchanged as `Unknown`, never one of the four known tags |
| Protocol.ChannelRoundTrip | client/src/hooks/useWebSocket.ts:51 | writing back the channel read from a tag gives that tag; a canonical channel survives reading its tag |
| Protocol.Encode | client/src/hooks/useWebSocket.ts:69-75 | the envelope is on the draw channel iff the kind is `draw`, otherwise on chat; content and kind are carried unchanged; no sender fields |
| DrawingBoard.PathOf | client/src/components/DrawingBoard.tsx:88-96 | a rendered stroke is one path in the event's own colour that starts at `points[0]` and visits the remaining points in order (at least one of them) |
| DrawingBoard.DrawMessages | client/src/components/DrawingBoard.tsx:68 | only draw messages are kept |
| DrawingBoard.ClearFold | client/src/components/DrawingBoard.tsx:71-76 | the right-to-left reduce keeps a found index; from -1 it yields -1 when no clear exists in the prefix, else the clear index with no clear after it |
| DrawingBoard.LastClearIndex | client/src/components/DrawingBoard.tsx:71-76 | -1 iff no draw message is a clear marker; otherwise the index of a clear marker with no clear marker after it |
| DrawingBoard.Relevant | client/src/components/DrawingBoard.tsx:79-81 | the relevant events are a suffix of the draw messages, contain no clear marker, and are either all of them or preceded by a clear marker |
| DrawingBoard.Strokes | client/src/components/DrawingBoard.tsx:84-97 | at most one path per event |
| DrawingBoard.Replay | client/src/components/DrawingBoard.tsx:59-98 | the replay effect draws at most one path per message of the log; ReplayStep, ReplayAfterClear and ReplayFrom characterise exactly which paths |
| DrawingBoard.DrawMessagesIdempotent | client/src/components/DrawingBoard.tsx:68 | filtering the draw messages twice is filtering them once |
| DrawingBoard.ReplayOnlyDraw | client/src/components/DrawingBoard.tsx:67-68 | the canvas depends only on the draw messages of the log |
| DrawingBoard.StrokesAppend | client/src/components/DrawingBoard.tsx:84-97 | the strokes of two event lists in a row are the strokes of the first, then those of the second (each event is drawn on its own) |
| DrawingBoard.StrokesFrom | client/src/components/DrawingBoard.tsx:86-96 | every drawn path comes from an event with at least two points |
| DrawingBoard.ReplayFrom | client/src/components/DrawingBoard.tsx:68-96 | every path on the canvas comes from a draw message of the log that is not a clear marker and has at least two points |
| DrawingBoard.RelevantAfterClear | client/src/components/DrawingBoard.tsx:71-81 | after `x ++ [clear] ++ y`, the relevant events are those of `y` alone |
| DrawingBoard.RelevantExtend | client/src/components/DrawingBoard.tsx:71-81 | appending a non-clear event extends the relevant events by it |
| DrawingBoard.ReplayAfterClear | client/src/components/DrawingBoard.tsx:71-81 | `Replay(D ++ [clear] ++ D2) == Replay(D2)` |
| DrawingBoard.ReplayEndsWithClear | client/src/components/DrawingBoard.tsx:71-81 | a log ending in a clear marker shows an empty canvas |
| DrawingBoard.ReplayStep | client/src/components/DrawingBoard.tsx:59-98 | full replay of `log ++ [m]` equals the old canvas unchanged (non-draw or degenerate stroke), emptied (clear), or plus the new message's own path |
| DrawingBoard.Board.constructor | client/src/components/DrawingBoard.tsx:35-37 | not drawing, empty buffer, colour `#000000` |
| DrawingBoard.Board.SetColor | client/src/components/DrawingBoard.tsx:167 | only the colour changes |
| DrawingBoard.Board.StartDrawing | client/src/components/DrawingBoard.tsx:100-117 | drawing starts and the buffer is reset to the single start point |
| DrawingBoard.Board.Draw | client/src/components/DrawingBoard.tsx:119-136 | the point is appended only while drawing; otherwise nothing changes |
| DrawingBoard.Board.StopDrawing | client/src/components/DrawingBoard.tsx:138-149 | no-op when not drawing; otherwise emits the buffer and colour as one non-clear event (always, since the buffer is never empty while drawing) and resets buffer and flag |
| DrawingBoard.Board.ClearCanvas | client/src/components/DrawingBoard.tsx:151-158 | emits a clear marker with no points in the current colour |
| WebSocket.Logged | client/src/hooks/useWebSocket.ts:51-56 | the log never holds a `users` frame |
| WebSocket.LoggedAppend | client/src/hooks/useWebSocket.ts:54-55 | frames are logged in arrival order: the log of two runs of frames is the log of the first, then that of the second |
| WebSocket.LoggedKeepsDrawing | client/src/hooks/useWebSocket.ts:51-56 | keeping roster frames out of the log keeps every draw message, in order |
| WebSocket.Session.constructor | client/src/hooks/useWebSocket.ts:28-36 | no socket when the name is empty or the user has not joined; otherwise one at `baseUrl + "/" + encodeURIComponent(name)`; disconnected, empty log and roster |
| WebSocket.Session.OnOpen | client/src/hooks/useWebSocket.ts:38-41 | connected; log and roster unchanged |
| WebSocket.Session.OnClose | client/src/hooks/useWebSocket.ts:43-47 | disconnected and roster emptied; log unchanged |
| WebSocket.Session.OnMessage | client/src/hooks/useWebSocket.ts:49-57 | unparseable frame: nothing changes; `users` frame: roster replaced by its content exactly, log unchanged; any other frame: appended to the log, roster unchanged; every parsed frame is added to the ghost record of received frames |
| WebSocket.Session.Send | client/src/hooks/useWebSocket.ts:66-79 | an envelope is transmitted iff a socket exists and is connected, and it is exactly the encoded envelope (draw channel iff kind `draw`) |
| Chat.Render | client/src/components/Chat.tsx:55-105 | non-chat: a string or list of names as text, a plain object is a render error; kind `gif`: content as image; otherwise an image only for a truthy `gifUrl` (parsed from a string payload or read from an object) whose source is that `gifUrl`, a string payload otherwise verbatim, an object's `text` otherwise, nothing for an object without either and for a draw event or list |
| Chat.Visible | client/src/components/Chat.tsx:127-128 | only chat and system messages are listed |
| Chat.VisibleAppend | client/src/components/Chat.tsx:127-128 | the list keeps log order |
| Chat.VisibleExactly | client/src/components/Chat.tsx:127-128 | a message is listed iff it is in the log and is a chat or system message |
| Chat.StyleOf | client/src/components/Chat.tsx:132-138 | system style iff system; own style iff a non-system message from the viewer's name; other style otherwise |
| Chat.RowOf | client/src/components/Chat.tsx:130-146 | the sender header appears iff the message is a chat message, and it shows the sender's `username` (nothing when absent); style and body as above |
| Chat.ChatView | client/src/components/Chat.tsx:126-149 | one row per listed message, in order |
| Chat.ChatViewAppend | client/src/components/Chat.tsx:127-147 | a new message adds at most one row, at the bottom, leaving earlier rows unchanged; draw messages add none |
| JsString.TrimStart | client/src/app/page.tsx:22 | removes exactly the leading white space |
| JsString.TrimEnd | client/src/app/page.tsx:22 | removes exactly the trailing white space |
| JsString.Trim | client/src/app/page.tsx:22 | the result neither starts nor ends with white space |
| JsString.TrimSlice | client/src/components/MessageInput.tsx:25-26 | the trimmed text is one contiguous slice of the input and everything dropped is white space |
| JsString.TrimEmptyIff | client/src/components/MessageInput.tsx:25 | the trimmed text is empty iff the input is all white space |
| JsString.TrimIdempotent | client/src/app/page.tsx:22-24 | trimming the stored trimmed name again changes nothing |
| Page.JoinDisabledIff | client/src/app/page.tsx:57 | the Join button is disabled iff the name is all white space |
| Page.HandleSendMessage | client/src/app/page.tsx:29-31 | always `({text: message}, 'text')`, whatever kind the caller passed |
| Page.HandleSendMessageWithKind | client/src/app/page.tsx:29-31 | corrected adapter: a GIF URL goes out as a bare string of kind `gif`; text as before |
| Page.HandleDraw | client/src/app/page.tsx:33-35 | the draw event goes out unchanged with kind `draw` |
| Page.Home.constructor | client/src/app/page.tsx:12-13 | empty name, not joined |
| Page.Home.SetUsername | client/src/app/page.tsx:49 | only the name changes |
| Page.Home.HandleJoin | client/src/app/page.tsx:20-27 | joins iff the trimmed name is non-empty, storing the trimmed name; a blank name changes nothing |
| MessageInput.Composer.constructor | client/src/components/MessageInput.tsx:18-20 | empty text, both pickers closed |
| MessageInput.Composer.SetMessage | client/src/components/MessageInput.tsx:69 | only the text changes |
| MessageInput.Composer.HandleSubmit | client/src/components/MessageInput.tsx:23-29 | a blank text sends nothing and stays; otherwise the trimmed text is sent once as `text` and the box is emptied |
| MessageInput.Composer.OnEmojiClick | client/src/components/MessageInput.tsx:31-34 | the emoji is appended and the emoji picker closes |
| MessageInput.Composer.OnGifSelect | client/src/components/MessageInput.tsx:36-39 | the URL is sent as `gif`, the GIF picker closes, the text is kept |
| MessageInput.Composer.ToggleEmojiPicker | client/src/components/MessageInput.tsx:49-52 | the emoji picker flips, the GIF picker closes; never both open |
| MessageInput.Composer.ToggleGifPicker | client/src/components/MessageInput.tsx:60-63 | the GIF picker flips, the emoji picker closes; never both open |
| Server.NatToString | server/main.py:43 | `str(n)`: at least one decimal digit, a single digit iff `n < 10` |
| Server.NatToStringInjective | server/main.py:43 | different counter values print differently |
| Server.IdOf | server/main.py:42-43 | the id of the `n`-th connection is `id_` followed by decimal digits only (the digits of `n`, by `NatToString`) |
| Server.IdOfInjective | server/main.py:42-43 | ids from different counter values are different |
| Server.Joined | server/main.py:72-75 | the join announcement is a `system` message `<name> joined the chat` |
| Server.Left | server/main.py:92-95 | the leave announcement is a `system` message `<name> left the chat` (`None` for an absent name) |
| Server.Stamp | server/main.py:82-83 | `user_id` and `username` are overwritten with the server's values; type, content and kind are kept |
| Server.Relay | server/main.py:80-88 | invalid JSON is skipped; a broadcast happens exactly for an object with `content`, and it is the stamped message; anything else is an uncaught error |
| Server.RelayUpTo | server/main.py:77-88 | every message the loop broadcasts carries this connection's id and name |
| Server.CrashIsFinal | server/main.py:77-88 | after an uncaught error no later frame is read |
| Server.ConnectionManager.constructor | server/main.py:36-38 | no connections, counter 0 |
| Server.ConnectionManager.Connect | server/main.py:40-46 | counter +1; id `id_<counter>` differs from every id issued before; the map gains exactly that entry |
| Server.ConnectionManager.Disconnect | server/main.py:48-53 | a present id is removed and its name returned; an absent id changes nothing and returns None |
| Server.ConnectionManager.GetUsername | server/main.py:55-58 | the stored name for a present id, `Unknown User` otherwise |
| Server.ConnectionManager.Serve | server/main.py:67-95 | broadcasts the join, then the relayed frames up to the first uncaught error, then (if none) the departure, with the registration removed; after an error the registration stays |
| RoundTrip.Delivered | server/main.py:80-85 | an encoded envelope with content is broadcast stamped with the sender's name, content and kind unchanged |
| RoundTrip.SentTextShowsAsText | client/src/app/page.tsx:29-31 | typed text shows as that text on every client, in the own style on every client whose user name equals the sender's (names need not be unique) and in the other style elsewhere |
| RoundTrip.PickedGifShowsAsText | client/src/app/page.tsx:29-31 | as written, a picked GIF shows as its URL in text, never as an image |
| RoundTrip.PickedGifShowsAsImage | client/src/components/Chat.tsx:57-66 | with the kind forwarded, a picked GIF shows as an image of its URL |
| RoundTrip.DrawRoundTrip | client/src/app/page.tsx:33-35 | a committed stroke adds its own path to every canvas, a single click adds nothing, a clear empties it; chat rows are unaffected |
| RoundTrip.AnnouncementsShowAsSystemText | client/src/components/Chat.tsx:104 | join and leave announcements show as their text, in the system style, without a sender header |
| RoundTrip.CanvasOfSessionLog | client/src/hooks/useWebSocket.ts:51-56 | the canvas of the hook's log is the canvas of every parsed frame |
| RoundTrip.ClearThenStroke | client/src/components/DrawingBoard.tsx:71-96 | red stroke, clear, green stroke: only the green stroke is drawn |

## Findings

| source | as written | input that shows it | evidently intended | confidence | as-written member | corrected member |
|---|---|---|---|---|---|---|
| client/src/app/page.tsx:29-31 | `handleSendMessage` ignores the second argument and always sends `({text: message}, 'text')` | picking any GIF: the composer calls `onSendMessage(url, 'gif')` (client/src/components/MessageInput.tsx:37) | forward the kind and send the URL itself as the content, so it goes out as a `gif` message whose content the chat panel uses as the image source (client/src/components/Chat.tsx:57-66); forwarding only the kind would keep the `{text: url}` object as content, which that branch would use as the source `[object Object]`, so the corrected adapter changes the payload to the bare URL string as well | medium; not executed | RoundTrip.PickedGifShowsAsText | RoundTrip.PickedGifShowsAsImage |

## Left out

- Canvas 2D calls are not modelled: sizing, line styles, `clearRect`, `moveTo`/`lineTo`/`stroke`, and the live preview of the stroke in progress (client/src/components/DrawingBoard.tsx:39-56, 111-116, 131-135). The replay output is the list of paths instead of pixels.
- Pointer geometry (`clientX - rect.left`) is floating-point DOM arithmetic. Points are opaque values.
- The guards for an unmounted canvas or a missing 2D context (`if (!canvas) return`) are not modelled. The `Board` methods assume a mounted canvas.
- The WebSocket transport is not modelled: socket construction, `send`, `close`, `accept`, `receive_text`, `send_json` and the `broadcast` fan-out to every socket. The server's broadcasts are the returned sequence of messages.
- The server's FastAPI routing, CORS and `ALLOWED_ORIGINS` handling, logging and `read_root` are left out.
- `JSON.parse`, `JSON.stringify`, `json.loads`, `encodeURIComponent` and the server's decoding of the path are taken as given parse results or functions. The JSON round trip between client and server is taken to deliver an envelope unchanged.
- Server.ConnectionManager.Serve: models one connection running alone. Interleaving with other connections' endpoints, and errors from sending to a closed socket, are not modelled. A disconnect during the join broadcast is not modelled either.
- Chat.Render: a parsed `gifUrl` that is truthy but not a string (a number, say) is not modelled. The parse result carries an optional string.
- Chat.Render: a `content` of `null` is not modelled, because `Content` has no null case. The source throws on it twice: the render's `'gifUrl' in content` (client/src/components/Chat.tsx:90) and the replay effect's `(msg.content as DrawEvent).clear` (client/src/components/DrawingBoard.tsx:72). Neither throw is modelled.
- DrawingBoard.Replay: a colour change re-runs the sizing effect (client/src/components/DrawingBoard.tsx:39-56). That effect assigns `canvas.width` and `canvas.height`, which wipes the bitmap. The replay effect depends only on the log (:98), so the canvas stays blank until the next message of any kind arrives. `Replay` is what the replay effect draws, not what the screen shows in between.
- DrawingBoard.Board.StopDrawing: a stroke whose send is dropped because the client is not connected stays on screen as its live preview until the next replay. The model has only the paths the replay draws.
- React lifecycle details are not modelled: effect re-runs and their cleanup, asynchronous state updates, `scrollIntoView`, the chat/draw tab switch and JSX layout.
- The composer's `disabled` flag, the Giphy search box and fetch, and the emoji picker widget are third-party or presentation code.
- TabNavigation and UserList only map props to markup.
- The `minLength`/`maxLength` attributes of the name input are enforced by the browser, not by `handleJoin`.
- `Replay` being idempotent, and depending only on the current log, holds because it is a function of the log. No separate lemma states it.
