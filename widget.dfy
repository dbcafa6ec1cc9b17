/**
 * The terminal widget of src/widget.rs: its optional state (absent before
 * realize and after unrealize), the UI callbacks that queue events, the
 * render callback that drains the queue, and the shaping of dropped text.
 */
module Widget {
  import opened Wrappers
  import opened Utf8
  import opened Text
  import opened Events
  import opened Keys

  /** Rust's `x as u32` on an `i32`: the same bits, so negative values wrap around. */
  function AsU32(x: i32): (r: u32)
    ensures x >= 0 ==> r as int == x as int
    ensures x < 0 ==> r as int == x as int + 0x1_0000_0000
  {
    if x >= 0 then x as int as u32 else (x as int + 0x1_0000_0000) as u32
  }

  // ---------------------------------------------------------------------------
  // Drag and drop.

  /** One dropped URI as sent: trimmed, with `file://` removed. */
  function CleanUri(u: string): string {
    ReplaceAll(Trim(u), "file://", "")
  }

  /**
   * The text a drop pushes: the cleaned URIs joined by single spaces when the
   * drop carries URIs; otherwise the plain text with `file://` removed, then
   * trimmed; nothing when it carries neither.
   */
  function DragPayload(uris: seq<string>, text: Option<string>): (r: Option<string>)
    ensures r.None? <==> |uris| == 0 && text.None?
    ensures |uris| == 1 ==> r == Some(CleanUri(uris[0]))
  {
    if |uris| > 0 then Some(Join(seq(|uris|, k requires 0 <= k < |uris| => CleanUri(uris[k])), " "))
    else if text.Some? then Some(Trim(ReplaceAll(text.value, "file://", "")))
    else None
  }

  /**
   * When no cleaned URI contains a space, the pushed text splits back at its
   * spaces into exactly the cleaned URIs, in drop order.
   */
  lemma DragUrisSplitBack(uris: seq<string>, text: Option<string>)
    requires |uris| > 0
    requires forall k :: 0 <= k < |uris| ==> ' ' !in CleanUri(uris[k])
    ensures Split(DragPayload(uris, text).value, ' ') == seq(|uris|, k requires 0 <= k < |uris| => CleanUri(uris[k]))
  {
    var parts := seq(|uris|, k requires 0 <= k < |uris| => CleanUri(uris[k]));
    SplitJoin(parts, ' ');
  }

  /** A dropped local file arrives as its bare path, without the scheme and the surrounding blanks. */
  lemma DragFileUri(p: string)
    requires p == "/tmp/a"
    ensures DragPayload([" " + ("file://" + p) + "\n"], None) == Some(p)
  {
    DragFramedFileUri(p);
  }

  /**
   * A single dropped URI made of a blank, `file://`, a path and a line feed
   * pushes the path, for every path that ends in a non-blank and holds no
   * further `file://`.
   */
  lemma DragFramedFileUri(p: string)
    requires p != [] && !IsWhitespace(p[|p| - 1])
    requires forall i :: 0 <= i < |p| ==> !OccursAt(p, "file://", i)
    ensures DragPayload([" " + ("file://" + p) + "\n"], None) == Some(p)
  {
    var x := "file://" + p;
    assert x[0] == 'f' && x[|x| - 1] == p[|p| - 1];
    TrimFramed(x);
    DragSingleFileUri(" " + x + "\n", p, None);
  }

  /** Trimming removes one blank on either side of a text that starts and ends with a non-blank. */
  lemma TrimFramed(x: string)
    requires x != [] && !IsWhitespace(x[0]) && !IsWhitespace(x[|x| - 1])
    ensures Trim(" " + x + "\n") == x
  {
    var u := x + "\n";
    assert (" " + x + "\n")[1..] == u;
    assert TrimStart(u) == u by { assert u[0] == x[0]; }
    assert u[..|u| - 1] == x;
  }

  /** Removing `file://` leaves the path. */
  lemma StripSchemeSample()
    ensures ReplaceAll("file:///tmp/a", "file://", "") == "/tmp/a"
  {
    var t := "file:///tmp/a";
    assert t[..7] == "file://" && t[7..] == "/tmp/a";
    ReplaceAbsent("/tmp/a", "file://", "");
  }

  /** `file://` in front of a path without another occurrence is removed, leaving the path. */
  lemma StripScheme(p: string)
    requires forall i :: 0 <= i < |p| ==> !OccursAt(p, "file://", i)
    ensures ReplaceAll("file://" + p, "file://", "") == p
  {
    ReplaceLeadingOccurrence("file://", "", p);
  }

  /** A single dropped URI that trims to `file://` followed by a path pushes the path. */
  lemma DragSingleFileUri(u: string, p: string, text: Option<string>)
    requires Trim(u) == "file://" + p
    requires forall i :: 0 <= i < |p| ==> !OccursAt(p, "file://", i)
    ensures DragPayload([u], text) == Some(p)
  {
    StripScheme(p);
  }

  /** Dropped plain text `file://` followed by a path pushes the trimmed path. */
  lemma DragTextFileUri(p: string)
    requires forall i :: 0 <= i < |p| ==> !OccursAt(p, "file://", i)
    ensures DragPayload([], Some("file://" + p)) == Some(Trim(p))
  {
    StripScheme(p);
  }

  /** A pattern whose first character does not occur is not replaced. */
  lemma ReplaceAbsent(s: string, pat: string, rep: string)
    requires |pat| > 0
    requires forall i :: 0 <= i < |s| ==> s[i] != pat[0]
    ensures ReplaceAll(s, pat, rep) == s
  {
    forall i | 0 <= i < |s| ensures !OccursAt(s, pat, i) {
      if i + |pat| <= |s| {
        assert s[i..i + |pat|][0] == s[i];
      }
    }
  }

  // ---------------------------------------------------------------------------
  // Bytes of a character.

  /** The Control transform applied in place to a byte buffer. */
  method ControlTransform(bytes: array<Byte>)
    modifies bytes
    ensures bytes[..] == ControlBytes(old(bytes[..]))
  {
    for i := 0 to bytes.Length
      invariant forall k :: 0 <= k < i ==> bytes[k] == ControlByte(old(bytes[k]))
      invariant forall k :: i <= k < bytes.Length ==> bytes[k] == old(bytes[k])
    {
      if bytes[i] >= 0x40 && bytes[i] < 0x80 {
        bytes[i] := ClearBits56(bytes[i]);
      }
    }
  }

  /**
   * The bytes a `CharInput` sends, computed as the render callback does: the
   * character is encoded into a buffer of its UTF-8 length, which the Control
   * transform then rewrites in place when Control was held.
   */
  method CharInputBytes(c: char, controlHeld: bool) returns (bs: seq<Byte>)
    ensures bs == CharBytes(c, controlHeld)
    ensures |bs| == LenUtf8(c)
  {
    var encoded := Encode(c);
    var bytes := new Byte[LenUtf8(c)](k requires 0 <= k < |encoded| => encoded[k]);
    assert bytes[..] == encoded;
    if controlHeld {
      ControlTransform(bytes);
    }
    bs := bytes[..];
  }

  // ---------------------------------------------------------------------------
  // The widget.

  class Widget {
    /** The widget's state: `None` before realize and after unrealize. */
    var state: Option<State>
    /** How many redraws the callbacks have requested (`queue_draw` calls). */
    var drawRequests: nat

    constructor ()
      ensures state == None && drawRequests == 0
    {
      state := None;
      drawRequests := 0;
    }

    /**
     * Realize replaces the state with a fresh one around the newly built
     * terminal: an empty queue and channels that have received nothing.
     */
    method Realize(term: Term)
      modifies this
      ensures state == Some(State([], [], [], term))
      ensures drawRequests == old(drawRequests)
    {
      state := Some(State([], [], [], term));
    }

    /** Unrealize drops the state. */
    method Unrealize()
      modifies this
      ensures state == None
      ensures drawRequests == old(drawRequests)
    {
      state := None;
    }

    /** Queues `e` while realized; does nothing otherwise. */
    method Push(e: Event)
      modifies this
      ensures state == Pushed(old(state), e)
      ensures drawRequests == old(drawRequests)
    {
      if state.Some? {
        var st := state.value;
        state := Some(st.(queue := st.queue + [e]));
      }
    }

    /** Asks the toolkit for a redraw. */
    method QueueDraw()
      modifies this
      ensures state == old(state)
      ensures drawRequests == old(drawRequests) + 1
    {
      drawRequests := drawRequests + 1;
    }

    /** The resize callback: queues the new size, as `u32`, and requests a redraw. */
    method Resize(w: i32, h: i32)
      modifies this
      ensures state == Pushed(old(state), WindowResized(AsU32(w), AsU32(h)))
      ensures drawRequests == old(drawRequests) + 1
    {
      Push(WindowResized(AsU32(w), AsU32(h)));
      QueueDraw();
    }

    /**
     * The key-press callback. A key the input method consumed queues nothing,
     * requests nothing and inhibits default handling; any other key queues its
     * encoding and requests a redraw, and default handling is inhibited
     * exactly for Tab, so that it does not move the focus.
     */
    method KeyPress(kv: KeyVal, unicode: Option<char>, mods: set<Modifier>, imConsumed: bool)
      returns (inhibit: bool)
      modifies this
      ensures inhibit == (imConsumed || kv == TAB)
      ensures imConsumed ==> state == old(state) && drawRequests == old(drawRequests)
      ensures !imConsumed ==> state == Pushed(old(state), KeyEvent(kv, unicode, mods))
      ensures !imConsumed ==> drawRequests == old(drawRequests) + 1
    {
      if imConsumed {
        return true;
      }
      Push(KeyEvent(kv, unicode, mods));
      QueueDraw();
      inhibit := kv == TAB;
    }

    /** The input method's commit callback: queues the committed text and requests a redraw. */
    method ImCommit(s: string)
      modifies this
      ensures state == Pushed(old(state), StringInput(s))
      ensures drawRequests == old(drawRequests) + 1
    {
      Push(StringInput(s));
      QueueDraw();
    }

    /** The drop callback: queues the shaped payload, if any; it requests no redraw. */
    method DragDataReceived(uris: seq<string>, text: Option<string>)
      modifies this
      ensures DragPayload(uris, text).Some? ==> state == Pushed(old(state), StringInput(DragPayload(uris, text).value))
      ensures DragPayload(uris, text).None? ==> state == old(state)
      ensures drawRequests == old(drawRequests)
    {
      if state.Some? {
        if |uris| > 0 {
          Push(StringInput(Join(seq(|uris|, k requires 0 <= k < |uris| => CleanUri(uris[k])), " ")));
        } else if text.Some? {
          Push(StringInput(Trim(ReplaceAll(text.value, "file://", ""))));
        }
      }
    }

    /** The scale-factor callback: queues the new factor and requests a redraw. */
    method ScaleFactorChanged(factor: i32)
      modifies this
      ensures state == Pushed(old(state), HiDPIFactorChanged(factor))
      ensures drawRequests == old(drawRequests) + 1
    {
      Push(HiDPIFactorChanged(factor));
      QueueDraw();
    }

    /**
     * The render callback: when realized, drains the whole queue in push
     * order, applying each event; when not, does nothing.
     */
    method Render()
      modifies this
      ensures old(state).Some? ==> state == Some(Drain(old(state).value))
      ensures old(state).None? ==> state == None
      ensures drawRequests == old(drawRequests)
    {
      if state.None? {
        return;
      }
      var st := state.value;
      var events := st.queue;
      st := st.(queue := []);
      ghost var start := st;
      for i := 0 to |events|
        invariant st == ApplyEvents(start, events[..i])
        invariant drawRequests == old(drawRequests)
      {
        var e := events[i];
        match e {
          case Blank =>
          case CharInput(c, ctrl) =>
            var bs := CharInputBytes(c, ctrl);
            st := st.(sent := st.sent + [bs]);
          case StrInput(s) =>
            st := st.(sent := st.sent + [StringBytes(s)]);
          case StringInput(s) =>
            st := st.(sent := st.sent + [StringBytes(s)]);
          case WindowResized(w, h) =>
            st := st.(commands := st.commands + [NewSize(w, h)], term := st.term.(dirty := true));
          case HiDPIFactorChanged(f) =>
            st := st.(commands := st.commands + [NewHiDPIFactor(f)], term := st.term.(dirty := true));
          case ChangeFontSize(d) =>
            st := st.(term := st.term.(fontSizeDelta := st.term.fontSizeDelta + d as int));
          case ResetFontSize =>
            st := st.(term := st.term.(fontSizeDelta := 0));
        }
        ApplyEventsAppend(start, events[..i], [e]);
        ApplyEventsSingle(ApplyEvents(start, events[..i]), e);
        assert events[..i + 1] == events[..i] + [e];
      }
      assert events[..|events|] == events;
      state := Some(st);
    }
  }
}
