/**
  The shared drawing canvas of one client.

  The canvas is redrawn from scratch from the whole message log every time
  the log changes: only `draw` messages count, everything up to and
  including the last clear marker is dropped, and every remaining stroke
  with at least two points becomes one coloured polyline. `Replay` is that
  redraw, with the canvas calls replaced by the list of paths they trace.

  `Board` is the local stroke buffer behind the mouse handlers: it collects
  the points of the stroke being dragged and hands one `DrawEvent` to the
  sender when the button is released.
 */
module DrawingBoard {
  import opened Protocol

  /** One polyline on the canvas: `moveTo(start)` then `lineTo` each point, in `color`. */
  datatype Path = Path(color: string, start: Point, lineTo: seq<Point>)

  predicate IsDraw(m: Message)
  {
    m.channel == Draw
  }

  /** The `clear` flag of a message read as a draw event; other payloads have none. */
  predicate IsClear(m: Message)
  {
    m.content.Stroke? && m.content.event.clear
  }

  /** A stroke that is drawn: it has a `points` list of at least two points. */
  predicate Renderable(m: Message)
  {
    m.content.Stroke? && m.content.event.points.Some? && |m.content.event.points.value| >= 2
  }

  function PathOf(m: Message): (p: Path)
    requires Renderable(m)
    ensures p.color == m.content.event.color
    ensures [p.start] + p.lineTo == m.content.event.points.value
    ensures |p.lineTo| >= 1
  {
    var pts := m.content.event.points.value;
    Path(m.content.event.color, pts[0], pts[1..])
  }

  /** The draw messages of the log, in log order. */
  function DrawMessages(ms: seq<Message>): (ds: seq<Message>)
    ensures forall i :: 0 <= i < |ds| ==> IsDraw(ds[i])
    ensures |ds| <= |ms|
  {
    if ms == [] then []
    else (if IsDraw(ms[0]) then [ms[0]] else []) + DrawMessages(ms[1..])
  }

  /**
    The right-to-left fold over `ds[..n]` that keeps the first clear index it
    meets from the right, starting from `acc`.
   */
  function ClearFold(ds: seq<Message>, n: nat, acc: int): (k: int)
    requires n <= |ds|
    decreases n
    ensures acc != -1 ==> k == acc
    ensures acc == -1 ==>
      (k == -1 && forall i :: 0 <= i < n ==> !IsClear(ds[i])) ||
      (0 <= k < n && IsClear(ds[k]) && forall j :: k < j < n ==> !IsClear(ds[j]))
  {
    if n == 0 then acc
    else ClearFold(ds, n - 1, if acc == -1 && IsClear(ds[n - 1]) then n - 1 else acc)
  }

  /** The index of the last clear marker among `ds`, or -1 when there is none. */
  function LastClearIndex(ds: seq<Message>): (k: int)
    ensures -1 <= k < |ds|
    ensures k == -1 <==> forall i :: 0 <= i < |ds| ==> !IsClear(ds[i])
    ensures k != -1 ==> IsClear(ds[k]) && forall j :: k < j < |ds| ==> !IsClear(ds[j])
  {
    ClearFold(ds, |ds|, -1)
  }

  /** The events after the last clear, or all of them when nothing was cleared. */
  function Relevant(ds: seq<Message>): (rs: seq<Message>)
    ensures |rs| <= |ds| && rs == ds[|ds| - |rs|..]
    ensures forall i :: 0 <= i < |rs| ==> !IsClear(rs[i])
    ensures |rs| == |ds| || IsClear(ds[|ds| - |rs| - 1])
  {
    var k := LastClearIndex(ds);
    if k == -1 then ds else ds[k + 1..]
  }

  /** One path per renderable event, in order; degenerate strokes are skipped. */
  function Strokes(rs: seq<Message>): (ps: seq<Path>)
    ensures |ps| <= |rs|
  {
    if rs == [] then []
    else (if Renderable(rs[0]) then [PathOf(rs[0])] else []) + Strokes(rs[1..])
  }

  /** The paths the replay effect draws for the message log `ms`, after clearing the canvas. */
  function Replay(ms: seq<Message>): (r: seq<Path>)
    ensures |r| <= |ms|
  {
    Strokes(Relevant(DrawMessages(ms)))
  }

  lemma {:induction false} DrawMessagesAppend(a: seq<Message>, b: seq<Message>)
    ensures DrawMessages(a + b) == DrawMessages(a) + DrawMessages(b)
  {
    if a == [] {
      assert a + b == b;
    } else {
      assert (a + b)[1..] == a[1..] + b;
      DrawMessagesAppend(a[1..], b);
    }
  }

  lemma {:induction false} StrokesAppend(a: seq<Message>, b: seq<Message>)
    ensures Strokes(a + b) == Strokes(a) + Strokes(b)
  {
    if a == [] {
      assert a + b == b;
    } else {
      var head := if Renderable(a[0]) then [PathOf(a[0])] else [];
      assert (a + b)[0] == a[0] && (a + b)[1..] == a[1..] + b;
      assert Strokes(a + b) == head + Strokes(a[1..] + b);
      StrokesAppend(a[1..], b);
      assert Strokes(a) == head + Strokes(a[1..]);
    }
  }

  /** Filtering the draw messages a second time changes nothing. */
  lemma {:induction false} DrawMessagesIdempotent(ms: seq<Message>)
    ensures DrawMessages(DrawMessages(ms)) == DrawMessages(ms)
  {
    if ms != [] {
      var head := if IsDraw(ms[0]) then [ms[0]] else [];
      DrawMessagesAppend(head, DrawMessages(ms[1..]));
      DrawMessagesIdempotent(ms[1..]);
    }
  }

  /** Chat, system and any other non-draw messages never affect the canvas. */
  lemma ReplayOnlyDraw(ms: seq<Message>)
    ensures Replay(ms) == Replay(DrawMessages(ms))
  {
    DrawMessagesIdempotent(ms);
  }

  /** Every path on the canvas comes from a non-clear draw message of the log with at least two points. */
  lemma {:induction false} StrokesFrom(rs: seq<Message>, p: Path)
    requires p in Strokes(rs)
    ensures exists m :: m in rs && Renderable(m) && p == PathOf(m)
  {
    if rs != [] {
      if Renderable(rs[0]) && p == PathOf(rs[0]) {
        assert rs[0] in rs;
      } else {
        StrokesFrom(rs[1..], p);
        var m :| m in rs[1..] && Renderable(m) && p == PathOf(m);
        assert m in rs;
      }
    }
  }

  lemma ReplayFrom(ms: seq<Message>, p: Path)
    requires p in Replay(ms)
    ensures exists m :: m in ms && IsDraw(m) && !IsClear(m) && Renderable(m) && p == PathOf(m)
  {
    var ds := DrawMessages(ms);
    var rs := Relevant(ds);
    StrokesFrom(rs, p);
    var m :| m in rs && Renderable(m) && p == PathOf(m);
    var i :| 0 <= i < |rs| && rs[i] == m;
    var j := |ds| - |rs| + i;
    assert m == ds[j] && !IsClear(rs[i]) && IsDraw(ds[j]);
    DrawMessagesMember(ms, j);
    assert m in ms && IsDraw(m) && !IsClear(m);
  }

  lemma {:induction false} DrawMessagesMember(ms: seq<Message>, i: nat)
    requires i < |DrawMessages(ms)|
    ensures DrawMessages(ms)[i] in ms
  {
    if ms != [] {
      if IsDraw(ms[0]) && i == 0 {
      } else {
        var j := if IsDraw(ms[0]) then i - 1 else i;
        DrawMessagesMember(ms[1..], j);
        assert DrawMessages(ms)[i] == DrawMessages(ms[1..])[j];
      }
    }
  }

  /** A clear marker hides everything before it: what follows decides alone. */
  lemma RelevantAfterClear(x: seq<Message>, c: Message, y: seq<Message>)
    requires IsClear(c)
    ensures Relevant(x + [c] + y) == Relevant(y)
  {
    var ds := x + [c] + y;
    var k := LastClearIndex(ds);
    var k' := LastClearIndex(y);
    assert ds[|x|] == c;
    assert forall j :: |x| < j < |ds| ==> ds[j] == y[j - |x| - 1];
    if k' == -1 {
      assert k == |x|;
      assert ds[k + 1..] == y;
    } else {
      assert ds[|x| + 1 + k'] == y[k'];
      assert k == |x| + 1 + k';
      assert ds[k + 1..] == y[k' + 1..];
    }
  }

  /** Appending a non-clear event extends the relevant suffix by that event. */
  lemma RelevantExtend(ds: seq<Message>, m: Message)
    requires !IsClear(m)
    ensures Relevant(ds + [m]) == Relevant(ds) + [m]
  {
    var k := LastClearIndex(ds + [m]);
    var k0 := LastClearIndex(ds);
    assert (ds + [m])[|ds|] == m;
    assert forall i :: 0 <= i < |ds| ==> (ds + [m])[i] == ds[i];
    if k0 == -1 {
      assert k == -1;
    } else {
      assert k == k0;
      assert (ds + [m])[k + 1..] == ds[k0 + 1..] + [m];
    }
  }

  /**
    Replaying `D ++ [clear] ++ D2` shows exactly what replaying `D2` shows,
    whatever `D` held.
   */
  lemma ReplayAfterClear(d: seq<Message>, c: Message, d2: seq<Message>)
    requires IsDraw(c) && IsClear(c)
    ensures Replay(d + [c] + d2) == Replay(d2)
  {
    DrawMessagesAppend(d + [c], d2);
    DrawMessagesAppend(d, [c]);
    assert DrawMessages([c]) == [c] by {
      assert [c][1..] == [];
    }
    RelevantAfterClear(DrawMessages(d), c, DrawMessages(d2));
  }

  /** A log that ends with a clear marker shows an empty canvas. */
  lemma ReplayEndsWithClear(d: seq<Message>, c: Message)
    requires IsDraw(c) && IsClear(c)
    ensures Replay(d + [c]) == []
  {
    ReplayAfterClear(d, c, []);
    assert d + [c] + [] == d + [c];
  }

  /**
    Redrawing from the whole log agrees with drawing only the newest message
    on top of the previous canvas: a non-draw message changes nothing, a clear
    empties the canvas, a stroke of two or more points adds its own path, and
    a degenerate stroke adds nothing.
   */
  lemma ReplayStep(ms: seq<Message>, m: Message)
    ensures Replay(ms + [m]) ==
      if !IsDraw(m) then Replay(ms)
      else if IsClear(m) then []
      else if Renderable(m) then Replay(ms) + [PathOf(m)]
      else Replay(ms)
  {
    DrawMessagesAppend(ms, [m]);
    assert DrawMessages([m]) == (if IsDraw(m) then [m] else []) by {
      assert [m][1..] == [];
    }
    var ds := DrawMessages(ms);
    if !IsDraw(m) {
      assert DrawMessages(ms + [m]) == ds;
    } else if IsClear(m) {
      ReplayEndsWithClear(ms, m);
    } else {
      assert DrawMessages(ms + [m]) == ds + [m];
      RelevantExtend(ds, m);
      StrokesAppend(Relevant(ds), [m]);
      assert Strokes([m]) == (if Renderable(m) then [PathOf(m)] else []) by {
        assert [m][1..] == [];
      }
    }
  }

  /** The local stroke buffer and colour picker of the drawing board. */
  class Board {
    var isDrawing: bool
    var currentColor: string
    var currentPoints: seq<Point>

    /** A stroke in progress always holds its start point; otherwise the buffer is empty. */
    ghost predicate Valid()
      reads this
    {
      (isDrawing ==> |currentPoints| >= 1) && (!isDrawing ==> currentPoints == [])
    }

    constructor ()
      ensures Valid()
      ensures !isDrawing && currentPoints == [] && currentColor == "#000000"
    {
      isDrawing := false;
      currentColor := "#000000";
      currentPoints := [];
    }

    /** The colour input's change handler. */
    method SetColor(color: string)
      requires Valid()
      modifies this
      ensures Valid()
      ensures currentColor == color
      ensures isDrawing == old(isDrawing) && currentPoints == old(currentPoints)
    {
      currentColor := color;
    }

    /** Mouse down: a new stroke starts at `p`, discarding any unfinished buffer. */
    method StartDrawing(p: Point)
      requires Valid()
      modifies this
      ensures Valid()
      ensures isDrawing && currentPoints == [p]
      ensures currentColor == old(currentColor)
    {
      isDrawing := true;
      currentPoints := [p];
    }

    /** Mouse move: the point is recorded only while a stroke is in progress. */
    method Draw(p: Point)
      requires Valid()
      modifies this
      ensures Valid()
      ensures currentPoints == if old(isDrawing) then old(currentPoints) + [p] else old(currentPoints)
      ensures isDrawing == old(isDrawing) && currentColor == old(currentColor)
    {
      if !isDrawing {
        return;
      }
      currentPoints := currentPoints + [p];
    }

    /**
      Mouse up or out: a stroke in progress is committed as one event holding
      all its points in the current colour, and the buffer is emptied. Because
      a started stroke always holds its start point, every started stroke is
      committed, even a single click.
     */
    method StopDrawing() returns (emitted: Option<DrawEvent>)
      requires Valid()
      modifies this
      ensures Valid()
      ensures emitted.Some? <==> old(isDrawing)
      ensures old(isDrawing) ==>
        emitted == Some(DrawEvent(Some(old(currentPoints)), currentColor, false)) &&
        |emitted.value.points.value| >= 1 &&
        !isDrawing && currentPoints == []
      ensures !old(isDrawing) ==> isDrawing == old(isDrawing) && currentPoints == old(currentPoints)
      ensures currentColor == old(currentColor)
    {
      emitted := None;
      if !isDrawing {
        return;
      }
      isDrawing := false;
      if |currentPoints| > 0 {
        emitted := Some(DrawEvent(Some(currentPoints), currentColor, false));
      }
      currentPoints := [];
    }

    /** The clear button: a clear marker with no points, in the current colour. */
    method ClearCanvas() returns (marker: DrawEvent)
      ensures marker.clear && marker.points == Some([])
      ensures marker.color == currentColor
    {
      marker := DrawEvent(Some([]), currentColor, true);
    }
  }
}
