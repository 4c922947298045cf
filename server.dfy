/**
  The relay server: a registry of open connections keyed by internal ids
  `id_1`, `id_2`, ... taken from a counter that only grows, and the
  per-connection endpoint that announces the user, relays every frame it
  receives with the sender stamped on it, and announces the user's departure.

  Sockets are opaque handles; `json.loads` is given as its outcome for each
  received frame; the broadcast fan-out to every socket is represented by
  the sequence of messages broadcast.
 */
module Server {
  import opened Protocol

  /** An accepted WebSocket, opaque here. */
  datatype Socket = Socket(handle: nat)

  function Digit(d: nat): (c: char)
    requires d < 10
    ensures '0' <= c <= '9'
  {
    (48 + d) as char
  }

  /** Python's `str(n)` for a natural number: its decimal digits, no leading zeros. */
  function NatToString(n: nat): (s: string)
    ensures |s| >= 1
    ensures |s| == 1 <==> n < 10
    ensures forall i :: 0 <= i < |s| ==> '0' <= s[i] <= '9'
  {
    if n < 10 then [Digit(n)] else NatToString(n / 10) + [Digit(n % 10)]
  }

  /** Different numbers print differently. */
  lemma {:induction false} NatToStringInjective(a: nat, b: nat)
    requires NatToString(a) == NatToString(b)
    ensures a == b
  {
    var sa, sb := NatToString(a), NatToString(b);
    if a < 10 {
      assert b < 10;
      assert sa[0] == Digit(a) && sb[0] == Digit(b);
    } else {
      assert b >= 10;
      assert sa[|sa| - 1] == Digit(a % 10) && sb[|sb| - 1] == Digit(b % 10);
      assert sa[..|sa| - 1] == NatToString(a / 10);
      assert sb[..|sb| - 1] == NatToString(b / 10);
      NatToStringInjective(a / 10, b / 10);
    }
  }

  /** The internal id the `n`-th connection gets. */
  function IdOf(n: nat): (id: string)
    ensures |id| >= 4 && id[..3] == "id_"
    ensures forall i :: 3 <= i < |id| ==> '0' <= id[i] <= '9'
  {
    "id_" + NatToString(n)
  }

  /** Ids taken from different counter values are different. */
  lemma IdOfInjective(a: nat, b: nat)
    requires a != b
    ensures IdOf(a) != IdOf(b)
  {
    if IdOf(a) == IdOf(b) {
      assert IdOf(a)[3..] == NatToString(a);
      assert IdOf(b)[3..] == NatToString(b);
      NatToStringInjective(a, b);
    }
  }

  /** `id` was handed out by one of the first `count` connections. */
  ghost predicate Issued(id: string, count: nat)
  {
    exists k :: 1 <= k <= count && id == IdOf(k)
  }

  /** The `system` message announcing a new user. */
  function Joined(username: string): (m: Message)
    ensures m.channel == System && m.content == Str(username + " joined the chat")
    ensures m.userId.None? && m.username.None?
  {
    Message(System, Str(username + " joined the chat"), None, None, None)
  }

  /** The `system` message announcing a departure; an absent name prints as `None`. */
  function Left(username: Option<string>): (m: Message)
    ensures m.channel == System
    ensures username.Some? ==> m.content == Str(username.value + " left the chat")
    ensures username.None? ==> m.content == Str("None left the chat")
  {
    var name := if username.Some? then username.value else "None";
    assert username.None? ==> name + " left the chat" == "None left the chat";
    Message(System, Str(name + " left the chat"), None, None, None)
  }

  /** `json.loads` of one received frame: not JSON, JSON that is not an object, or an object. */
  datatype Incoming = Malformed | NotObject | Object(message: Message, hasContent: bool)

  /** What the endpoint does with one frame: skip it, broadcast it, or die with an uncaught error. */
  datatype Outcome = Skip | Broadcast(message: Message) | Crash

  /** The message with `user_id` and `username` overwritten by the server's values. */
  function Stamp(m: Message, userId: string, username: string): (s: Message)
    ensures s.userId == Some(userId) && s.username == Some(username)
    ensures s.channel == m.channel && s.content == m.content && s.messageType == m.messageType
  {
    m.(userId := Some(userId), username := Some(username))
  }

  /**
    One turn of the receive loop. Invalid JSON is logged and skipped. A
    value that is not an object fails the `user_id` assignment, and an
    object without `content` fails the log line; neither error is caught.
    Everything else is broadcast stamped with this connection's id and name.
   */
  function Relay(frame: Incoming, userId: string, username: string): (o: Outcome)
    ensures frame.Malformed? <==> o.Skip?
    ensures o.Broadcast? <==> frame.Object? && frame.hasContent
    ensures o.Broadcast? ==> o.message == Stamp(frame.message, userId, username)
  {
    match frame
    case Malformed => Skip
    case NotObject => Crash
    case Object(m, hasContent) => if hasContent then Broadcast(Stamp(m, userId, username)) else Crash
  }

  /** The receive loop's progress after some frames: what it broadcast, and whether it died. */
  datatype Progress = Progress(out: seq<Message>, crashed: bool)

  /** The loop run over the first `n` frames, stopping at the first uncaught error. */
  function RelayUpTo(frames: seq<Incoming>, n: nat, userId: string, username: string): (p: Progress)
    requires n <= |frames|
    ensures |p.out| <= n
    ensures forall i :: 0 <= i < |p.out| ==>
      p.out[i].userId == Some(userId) && p.out[i].username == Some(username)
  {
    if n == 0 then Progress([], false)
    else
      var p := RelayUpTo(frames, n - 1, userId, username);
      if p.crashed then p
      else match Relay(frames[n - 1], userId, username)
        case Skip => p
        case Broadcast(m) => Progress(p.out + [m], false)
        case Crash => Progress(p.out, true)
  }

  /** Once the loop has died, later frames are never read. */
  lemma {:induction false} CrashIsFinal(frames: seq<Incoming>, i: nat, j: nat, userId: string, username: string)
    requires i <= j <= |frames|
    requires RelayUpTo(frames, i, userId, username).crashed
    ensures RelayUpTo(frames, j, userId, username) == RelayUpTo(frames, i, userId, username)
  {
    if i < j {
      CrashIsFinal(frames, i, j - 1, userId, username);
    }
  }

  /** Removing a key just added to a map that lacked it gives the map back. */
  lemma RegisterThenRemove<V>(m: map<string, V>, k: string, v: V)
    requires k !in m
    ensures m[k := v] - {k} == m
  {
    assert forall j :: j in m[k := v] - {k} <==> j in m;
  }

  class ConnectionManager {
    var activeConnections: map<string, (Socket, string)>
    var userCount: nat

    /** Every registered id was issued by the counter. */
    ghost predicate Valid()
      reads this
    {
      forall id :: id in activeConnections ==> Issued(id, userCount)
    }

    constructor ()
      ensures Valid()
      ensures activeConnections == map[] && userCount == 0
    {
      activeConnections := map[];
      userCount := 0;
    }

    /**
      `connect`: the counter goes up by one and the new id `id_<count>` is
      registered for this socket and name. The id differs from every id
      issued before, so no existing entry is touched.
     */
    method Connect(ws: Socket, username: string) returns (userId: string)
      requires Valid()
      modifies this
      ensures Valid()
      ensures userCount == old(userCount) + 1 && userId == IdOf(userCount)
      ensures forall k :: 1 <= k <= old(userCount) ==> userId != IdOf(k)
      ensures userId !in old(activeConnections)
      ensures activeConnections == old(activeConnections)[userId := (ws, username)]
      ensures |activeConnections| == |old(activeConnections)| + 1
    {
      userCount := userCount + 1;
      userId := IdOf(userCount);
      forall k | 1 <= k <= userCount - 1
        ensures userId != IdOf(k)
      {
        IdOfInjective(k, userCount);
      }
      activeConnections := activeConnections[userId := (ws, username)];
    }

    /** `disconnect`: a registered id is removed and its name returned; an unknown id changes nothing. */
    method Disconnect(userId: string) returns (username: Option<string>)
      requires Valid()
      modifies this
      ensures Valid()
      ensures userCount == old(userCount)
      ensures userId in old(activeConnections) ==>
        username == Some(old(activeConnections)[userId].1) &&
        activeConnections == old(activeConnections) - {userId}
      ensures userId !in old(activeConnections) ==>
        username == None && activeConnections == old(activeConnections)
    {
      if userId in activeConnections {
        username := Some(activeConnections[userId].1);
        activeConnections := activeConnections - {userId};
      } else {
        username := None;
      }
    }

    /** `get_username`: the registered name, or `Unknown User`. */
    function GetUsername(userId: string): (name: string)
      reads this
      ensures userId in activeConnections ==> name == activeConnections[userId].1
      ensures userId !in activeConnections ==> name == "Unknown User"
    {
      if userId in activeConnections then activeConnections[userId].1 else "Unknown User"
    }

    /**
      `websocket_endpoint` for one connection that receives `frames` and then
      disconnects: the join announcement, the relayed frames up to the first
      uncaught error, and, when the loop ended by the client disconnecting,
      the departure announcement and the removal of the registration. After
      an uncaught error the registration stays behind.
     */
    method Serve(ws: Socket, username: string, frames: seq<Incoming>)
      returns (userId: string, broadcasts: seq<Message>, crashed: bool)
      requires Valid()
      modifies this
      ensures Valid()
      ensures userCount == old(userCount) + 1 && userId == IdOf(userCount)
      ensures crashed == RelayUpTo(frames, |frames|, userId, username).crashed
      ensures broadcasts ==
        [Joined(username)] + RelayUpTo(frames, |frames|, userId, username).out +
        (if crashed then [] else [Left(Some(username))])
      ensures activeConnections ==
        if crashed then old(activeConnections)[userId := (ws, username)] else old(activeConnections)
    {
      userId := Connect(ws, username);
      ghost var registered := activeConnections;
      broadcasts := [Joined(username)];
      crashed := false;
      var i := 0;
      while i < |frames| && !crashed
        invariant 0 <= i <= |frames|
        invariant |broadcasts| >= 1 && broadcasts[0] == Joined(username)
        invariant RelayUpTo(frames, i, userId, username) == Progress(broadcasts[1..], crashed)
        invariant activeConnections == registered && userCount == old(userCount) + 1
      {
        match Relay(frames[i], userId, username) {
          case Skip =>
          case Broadcast(m) =>
            broadcasts := broadcasts + [m];
          case Crash =>
            crashed := true;
        }
        i := i + 1;
      }
      if crashed {
        CrashIsFinal(frames, i, |frames|, userId, username);
      } else {
        var name := Disconnect(userId);
        broadcasts := broadcasts + [Left(name)];
        RegisterThenRemove(old(activeConnections), userId, (ws, username));
      }
    }
  }
}
