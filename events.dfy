/**
 * The events the widget queues between a UI callback and the next render,
 * the state that exists while the widget is realized, and the effect of
 * draining the queue (src/widget.rs, `Event`, `State` and the body of the
 * render callback).
 */
module Events {
  import opened Wrappers
  import opened Utf8

  /** Rust's fixed-width integers, as they appear in the events. */
  newtype u32 = x: int | 0 <= x < 0x1_0000_0000
  newtype i32 = x: int | -0x8000_0000 <= x < 0x8000_0000
  newtype i8 = x: int | -0x80 <= x < 0x80

  /**
   * One pending input for the terminal. `StrInput` carries one of the fixed
   * escape sequences, `StringInput` arbitrary text; the scale factor is the
   * integer the toolkit reports (its conversion to `f32` is not modelled).
   */
  datatype Event =
    | Blank
    | CharInput(c: char, controlHeld: bool)
    | StringInput(text: string)
    | StrInput(escape: string)
    | WindowResized(width: u32, height: u32)
    | HiDPIFactorChanged(factor: i32)
    | ChangeFontSize(delta: i8)
    | ResetFontSize

  /** The commands sent over the display's command channel. */
  datatype DisplayCommand = NewSize(width: u32, height: u32) | NewHiDPIFactor(factor: i32)

  /**
   * The part of the shared terminal model that the drain touches: the dirty
   * flag, and the font size as an offset from the configured size.
   */
  datatype Term = Term(dirty: bool, fontSizeDelta: int)

  /**
   * The widget's `State` while realized. `sent` is everything handed to the
   * PTY's loop notifier, one byte chunk per notify call, and `commands`
   * everything sent to the display, both in sending order.
   */
  datatype State = State(queue: seq<Event>, sent: seq<seq<Byte>>, commands: seq<DisplayCommand>, term: Term)

  /** `b & !0x60`: the byte with bits 5 and 6 cleared. */
  function ClearBits56(b: Byte): Byte {
    (b as int - ((b as int / 32) % 4) * 32) as Byte
  }

  /**
   * The Control transform of one byte: bytes in [0x40, 0x80) lose bits 5 and 6,
   * which maps them onto the C0 control range; every other byte is kept.
   */
  function ControlByte(b: Byte): (r: Byte)
    ensures 0x40 <= b < 0x80 ==> r < 0x20 && r as int == b as int % 32
    ensures !(0x40 <= b < 0x80) ==> r == b
  {
    if 0x40 <= b < 0x80 then ClearBits56(b) else b
  }

  /** The Control transform of a byte string, byte by byte. */
  function ControlBytes(bs: seq<Byte>): (r: seq<Byte>)
    ensures |r| == |bs|
    ensures forall k :: 0 <= k < |bs| ==> r[k] == ControlByte(bs[k])
  {
    seq(|bs|, k requires 0 <= k < |bs| => ControlByte(bs[k]))
  }

  /** The bytes a `CharInput` sends: the UTF-8 encoding, Control-transformed when Control was held. */
  function CharBytes(c: char, controlHeld: bool): seq<Byte> {
    if controlHeld then ControlBytes(Encode(c)) else Encode(c)
  }

  /** The effect of applying one drained event to the state. */
  function ApplyEvent(st: State, e: Event): State {
    match e
    case Blank => st
    case CharInput(c, ctrl) => st.(sent := st.sent + [CharBytes(c, ctrl)])
    case StrInput(s) => st.(sent := st.sent + [StringBytes(s)])
    case StringInput(s) => st.(sent := st.sent + [StringBytes(s)])
    case WindowResized(w, h) => st.(commands := st.commands + [NewSize(w, h)], term := st.term.(dirty := true))
    case HiDPIFactorChanged(f) => st.(commands := st.commands + [NewHiDPIFactor(f)], term := st.term.(dirty := true))
    case ChangeFontSize(d) => st.(term := st.term.(fontSizeDelta := st.term.fontSizeDelta + d as int))
    case ResetFontSize => st.(term := st.term.(fontSizeDelta := 0))
  }

  /** The events applied one after another, first to last. */
  function ApplyEvents(st: State, es: seq<Event>): State
    decreases |es|
  {
    if es == [] then st else ApplyEvents(ApplyEvent(st, es[0]), es[1..])
  }

  /** One render's drain: the queue is emptied and every event in it applied in push order. */
  function Drain(st: State): State {
    ApplyEvents(st.(queue := []), st.queue)
  }

  /**
   * A UI callback's push: the event joins the end of the queue while the
   * widget is realized, and is dropped silently while it is not.
   */
  function Pushed(state: Option<State>, e: Event): (r: Option<State>)
    ensures r.Some? <==> state.Some?
    ensures r.Some? ==> r.value.queue == state.value.queue + [e]
    ensures r.Some? ==> r.value == state.value.(queue := r.value.queue)
  {
    match state
    case None => None
    case Some(st) => Some(st.(queue := st.queue + [e]))
  }

  // ---------------------------------------------------------------------------
  // What a drain sends, channel by channel.

  /** The byte chunk one event sends to the PTY, if it sends one. */
  function PtyChunk(e: Event): seq<seq<Byte>> {
    match e
    case CharInput(c, ctrl) => [CharBytes(c, ctrl)]
    case StrInput(s) => [StringBytes(s)]
    case StringInput(s) => [StringBytes(s)]
    case _ => []
  }

  /** The byte chunks the events send to the PTY, in order. */
  function PtyChunks(es: seq<Event>): seq<seq<Byte>>
    decreases |es|
  {
    if es == [] then [] else PtyChunk(es[0]) + PtyChunks(es[1..])
  }

  /** The command one event sends to the display, if it sends one. */
  function DisplayOutput(e: Event): seq<DisplayCommand> {
    match e
    case WindowResized(w, h) => [NewSize(w, h)]
    case HiDPIFactorChanged(f) => [NewHiDPIFactor(f)]
    case _ => []
  }

  /** The commands the events send to the display, in order. */
  function DisplayCommands(es: seq<Event>): seq<DisplayCommand>
    decreases |es|
  {
    if es == [] then [] else DisplayOutput(es[0]) + DisplayCommands(es[1..])
  }

  /** Some event in `es` changes the display geometry. */
  predicate ChangesGeometry(es: seq<Event>) {
    exists k :: 0 <= k < |es| && (es[k].WindowResized? || es[k].HiDPIFactorChanged?)
  }

  /** The sum of the font-size changes in `es`. */
  function FontDeltaSum(es: seq<Event>): int
    decreases |es|
  {
    if es == [] then 0
    else (if es[0].ChangeFontSize? then es[0].delta as int else 0) + FontDeltaSum(es[1..])
  }

  /** What one event does to each part of the state. */
  lemma ApplyEventOutputs(st: State, e: Event)
    ensures ApplyEvent(st, e).queue == st.queue
    ensures ApplyEvent(st, e).sent == st.sent + PtyChunk(e)
    ensures ApplyEvent(st, e).commands == st.commands + DisplayOutput(e)
    ensures ApplyEvent(st, e).term.dirty == (st.term.dirty || e.WindowResized? || e.HiDPIFactorChanged?)
  {
  }

  /** Applying events never touches the queue. */
  lemma {:induction false} ApplyEventsKeepsQueue(st: State, es: seq<Event>)
    ensures ApplyEvents(st, es).queue == st.queue
    decreases |es|
  {
    if es != [] {
      ApplyEventOutputs(st, es[0]);
      ApplyEventsKeepsQueue(ApplyEvent(st, es[0]), es[1..]);
    }
  }

  /** The PTY receives exactly the chunks of the input events, in push order, after what it had. */
  lemma {:induction false} ApplyEventsSent(st: State, es: seq<Event>)
    ensures ApplyEvents(st, es).sent == st.sent + PtyChunks(es)
    decreases |es|
  {
    if es != [] {
      ApplyEventOutputs(st, es[0]);
      ApplyEventsSent(ApplyEvent(st, es[0]), es[1..]);
    }
  }

  /** The display receives exactly the geometry commands of the events, in push order. */
  lemma {:induction false} ApplyEventsCommands(st: State, es: seq<Event>)
    ensures ApplyEvents(st, es).commands == st.commands + DisplayCommands(es)
    decreases |es|
  {
    if es != [] {
      ApplyEventOutputs(st, es[0]);
      ApplyEventsCommands(ApplyEvent(st, es[0]), es[1..]);
    }
  }

  /** The geometry changes of `es` are those of its head and of its tail. */
  lemma ChangesGeometryCons(es: seq<Event>)
    requires es != []
    ensures ChangesGeometry(es) <==> es[0].WindowResized? || es[0].HiDPIFactorChanged? || ChangesGeometry(es[1..])
  {
    if ChangesGeometry(es[1..]) {
      var k :| 0 <= k < |es[1..]| && (es[1..][k].WindowResized? || es[1..][k].HiDPIFactorChanged?);
      assert es[k + 1] == es[1..][k];
    }
    if ChangesGeometry(es) {
      var k :| 0 <= k < |es| && (es[k].WindowResized? || es[k].HiDPIFactorChanged?);
      if k > 0 { assert es[1..][k - 1] == es[k]; }
    }
  }

  /** The terminal ends dirty exactly when it was dirty or some event changed the geometry. */
  lemma {:induction false} ApplyEventsDirty(st: State, es: seq<Event>)
    ensures ApplyEvents(st, es).term.dirty <==> st.term.dirty || ChangesGeometry(es)
    decreases |es|
  {
    if es != [] {
      ApplyEventOutputs(st, es[0]);
      ApplyEventsDirty(ApplyEvent(st, es[0]), es[1..]);
      ChangesGeometryCons(es);
    }
  }

  /** Without a reset, the font size moves by the sum of the font-size changes. */
  lemma {:induction false} ApplyEventsFontSize(st: State, es: seq<Event>)
    requires ResetFontSize !in es
    ensures ApplyEvents(st, es).term.fontSizeDelta == st.term.fontSizeDelta + FontDeltaSum(es)
    decreases |es|
  {
    if es != [] {
      assert es[0] != ResetFontSize;
      ApplyEventsFontSize(ApplyEvent(st, es[0]), es[1..]);
    }
  }

  /** Applying `a + b` is applying `a`, then `b`. */
  lemma {:induction false} ApplyEventsAppend(st: State, a: seq<Event>, b: seq<Event>)
    ensures ApplyEvents(st, a + b) == ApplyEvents(ApplyEvents(st, a), b)
    decreases |a|
  {
    if a == [] {
      assert a + b == b;
    } else {
      assert (a + b)[0] == a[0];
      assert (a + b)[1..] == a[1..] + b;
      ApplyEventsAppend(ApplyEvent(st, a[0]), a[1..], b);
    }
  }

  /** Applying one event as a sequence is applying it. */
  lemma ApplyEventsSingle(st: State, e: Event)
    ensures ApplyEvents(st, [e]) == ApplyEvent(st, e)
  {
    assert [e][1..] == [];
  }

  /** An event pushed last is applied last: the drain handles the queue in push order. */
  lemma DrainAfterPush(st: State, e: Event)
    ensures Drain(Pushed(Some(st), e).value) == ApplyEvent(Drain(st), e)
  {
    ApplyEventsAppend(st.(queue := []), st.queue, [e]);
    ApplyEventsSingle(Drain(st), e);
  }

  /** A reset wipes out every earlier font-size change: only the changes after the last reset count. */
  lemma FontSizeAfterReset(st: State, before: seq<Event>, after: seq<Event>)
    requires ResetFontSize !in after
    ensures ApplyEvents(st, before + [ResetFontSize] + after).term.fontSizeDelta == FontDeltaSum(after)
  {
    ApplyEventsAppend(st, before + [ResetFontSize], after);
    ApplyEventsAppend(st, before, [ResetFontSize]);
    assert ApplyEvents(ApplyEvents(st, before), [ResetFontSize]).term.fontSizeDelta == 0;
    ApplyEventsFontSize(ApplyEvents(st, before + [ResetFontSize]), after);
  }

  /**
   * A drain empties the queue, sends the queued events' outputs in push order
   * and marks the terminal dirty exactly when a queued event changed the geometry.
   */
  lemma DrainEffect(st: State)
    ensures Drain(st).queue == []
    ensures Drain(st).sent == st.sent + PtyChunks(st.queue)
    ensures Drain(st).commands == st.commands + DisplayCommands(st.queue)
    ensures Drain(st).term.dirty <==> st.term.dirty || ChangesGeometry(st.queue)
  {
    var empty := st.(queue := []);
    ApplyEventsKeepsQueue(empty, st.queue);
    ApplyEventsSent(empty, st.queue);
    ApplyEventsCommands(empty, st.queue);
    ApplyEventsDirty(empty, st.queue);
  }

  /** `es` without its `Blank` events. */
  function WithoutBlanks(es: seq<Event>): (r: seq<Event>)
    ensures |r| <= |es|
    ensures Blank !in r
    decreases |es|
  {
    if es == [] then []
    else if es[0] == Blank then WithoutBlanks(es[1..])
    else [es[0]] + WithoutBlanks(es[1..])
  }

  /** `Blank` events have no effect: draining with or without them gives the same state. */
  lemma {:induction false} BlanksIgnored(st: State, es: seq<Event>)
    ensures ApplyEvents(st, es) == ApplyEvents(st, WithoutBlanks(es))
    decreases |es|
  {
    if es != [] {
      BlanksIgnored(ApplyEvent(st, es[0]), es[1..]);
      if es[0] != Blank {
        var w := WithoutBlanks(es);
        assert w[0] == es[0] && w[1..] == WithoutBlanks(es[1..]);
      }
    }
  }

  /** A queued resize to 800x600 sends exactly that one size to the display, marks the terminal dirty and sends nothing to the PTY. */
  lemma ResizeDrain(st: State)
    requires st.queue == [WindowResized(800, 600)]
    ensures Drain(st).commands == st.commands + [NewSize(800, 600)]
    ensures Drain(st).sent == st.sent
    ensures Drain(st).term.dirty
    ensures Drain(st).queue == []
  {
    var empty := st.(queue := []);
    var e := WindowResized(800, 600);
    assert st.queue[0] == e && st.queue[1..] == [];
    assert Drain(st) == ApplyEvents(ApplyEvent(empty, e), []);
  }

  // ---------------------------------------------------------------------------
  // The Control transform on characters.

  /** Control with a letter sends its C0 control byte: Ctrl+A and Ctrl+a give 0x01, Ctrl+Z gives 0x1A. */
  lemma ControlLetter(c: char)
    requires 'a' <= c <= 'z' || 'A' <= c <= 'Z'
    ensures CharBytes(c, true) == [(c as int % 32) as Byte]
    ensures 1 <= (c as int % 32) <= 26
  {
  }

  /** The Control transform leaves non-ASCII characters alone: only an ASCII byte can lie in [0x40, 0x80). */
  lemma ControlKeepsNonAscii(c: char)
    requires c as int >= 0x80
    ensures CharBytes(c, true) == Encode(c)
  {
    var bs := Encode(c);
    assert forall k :: 0 <= k < |bs| ==> bs[k] >= 0x80;
  }

  /** Control or not, a character sends as many bytes as its UTF-8 encoding has. */
  lemma CharBytesLength(c: char, controlHeld: bool)
    ensures |CharBytes(c, controlHeld)| == LenUtf8(c)
    ensures !controlHeld ==> Decode(CharBytes(c, controlHeld)) == Some(c)
  {
    DecodeEncode(c);
  }
}
