/**
 * The application actions of src/main.rs (`build_actions`): paste, which
 * normalises line ends before queueing the clipboard text, and the three
 * font-size actions. Each acts on the widget's state only while it is realized.
 */
module Actions {
  import opened Wrappers
  import opened Text
  import opened Events
  import opened Widget

  /** The paste normalisation: every `\r\n` becomes `\r`, then every remaining `\n` becomes `\r`. */
  function NormalizePaste(s: string): string {
    ReplaceAll(ReplaceAll(s, "\r\n", "\r"), "\n", "\r")
  }

  /**
   * The same normalisation in a single left-to-right pass: a `\r\n` pair or a
   * lone `\n` becomes one `\r`, and every other character is kept.
   */
  function NewlinesToReturns(s: string): string
    decreases |s|
  {
    if s == [] then []
    else if |s| >= 2 && s[0] == '\r' && s[1] == '\n' then "\r" + NewlinesToReturns(s[2..])
    else if s[0] == '\n' then "\r" + NewlinesToReturns(s[1..])
    else [s[0]] + NewlinesToReturns(s[1..])
  }

  /** Replacing `\n` works character by character. */
  lemma ReplaceLineFeedCons(c: char, t: string)
    ensures ReplaceAll([c] + t, "\n", "\r") == (if c == '\n' then "\r" else [c]) + ReplaceAll(t, "\n", "\r")
  {
    var s := [c] + t;
    assert s[..1] == [c] && s[1..] == t;
  }

  /** The two-pass normalisation equals the single pass. */
  lemma {:induction false} NormalizeIsSinglePass(s: string)
    ensures NormalizePaste(s) == NewlinesToReturns(s)
    decreases |s|
  {
    if s == [] {
    } else if |s| >= 2 && s[0] == '\r' && s[1] == '\n' {
      assert s[..2] == "\r\n";
      var rest := ReplaceAll(s[2..], "\r\n", "\r");
      assert ReplaceAll(s, "\r\n", "\r") == "\r" + rest;
      ReplaceLineFeedCons('\r', rest);
      NormalizeIsSinglePass(s[2..]);
    } else {
      var rest := ReplaceAll(s[1..], "\r\n", "\r");
      if |s| >= 2 {
        assert s[..2] != "\r\n";
        assert ReplaceAll(s, "\r\n", "\r") == [s[0]] + rest;
      } else {
        assert s[1..] == [] && s == [s[0]] + [];
      }
      assert ReplaceAll(s, "\r\n", "\r") == [s[0]] + rest;
      ReplaceLineFeedCons(s[0], rest);
      NormalizeIsSinglePass(s[1..]);
    }
  }

  /** The normalised text contains no line feed. */
  lemma {:induction false} NoLineFeedAfterNormalize(s: string)
    ensures '\n' !in NormalizePaste(s)
  {
    NormalizeIsSinglePass(s);
    NoLineFeedInSinglePass(s);
  }

  /** The single pass leaves no line feed. */
  lemma {:induction false} NoLineFeedInSinglePass(s: string)
    ensures '\n' !in NewlinesToReturns(s)
    decreases |s|
  {
    if s == [] {
    } else if |s| >= 2 && s[0] == '\r' && s[1] == '\n' {
      NoLineFeedInSinglePass(s[2..]);
    } else {
      NoLineFeedInSinglePass(s[1..]);
    }
  }

  /** Text without a line feed is sent unchanged, so a carriage return not followed by a line feed is kept. */
  lemma {:induction false} NormalizeKeepsTextWithoutLineFeed(s: string)
    requires '\n' !in s
    ensures NormalizePaste(s) == s
  {
    NormalizeIsSinglePass(s);
    SinglePassKeepsTextWithoutLineFeed(s);
  }

  /** The single pass keeps text without a line feed. */
  lemma {:induction false} SinglePassKeepsTextWithoutLineFeed(s: string)
    requires '\n' !in s
    ensures NewlinesToReturns(s) == s
    decreases |s|
  {
    if s != [] {
      assert s[0] in s;
      if |s| >= 2 { assert s[1] in s; }
      assert '\n' !in s[1..];
      SinglePassKeepsTextWithoutLineFeed(s[1..]);
    }
  }

  /** `s` without its carriage returns and line feeds. */
  function WithoutLineEnds(s: string): string
    decreases |s|
  {
    if s == [] then []
    else (if s[0] == '\r' || s[0] == '\n' then [] else [s[0]]) + WithoutLineEnds(s[1..])
  }

  /** Normalisation touches only line ends: all other characters stay, in their order. */
  lemma {:induction false} NormalizeKeepsOtherCharacters(s: string)
    ensures WithoutLineEnds(NormalizePaste(s)) == WithoutLineEnds(s)
  {
    NormalizeIsSinglePass(s);
    SinglePassKeepsOtherCharacters(s);
  }

  /** The single pass touches only line ends. */
  lemma {:induction false} SinglePassKeepsOtherCharacters(s: string)
    ensures WithoutLineEnds(NewlinesToReturns(s)) == WithoutLineEnds(s)
    decreases |s|
  {
    if s == [] {
    } else if |s| >= 2 && s[0] == '\r' && s[1] == '\n' {
      SinglePassKeepsOtherCharacters(s[2..]);
      var r := NewlinesToReturns(s);
      assert r[0] == '\r' && r[1..] == NewlinesToReturns(s[2..]);
      assert s[1..][0] == '\n' && s[1..][1..] == s[2..];
    } else {
      SinglePassKeepsOtherCharacters(s[1..]);
      var r := NewlinesToReturns(s);
      assert r[1..] == NewlinesToReturns(s[1..]);
    }
  }

  /** `"\r\nabc\ndef"` is sent as `"\rabc\rdef"`, and a lone `"\r\n"` as one `"\r"`. */
  lemma NormalizeSamples()
    ensures NormalizePaste("\r\nabc\ndef") == "\rabc\rdef"
    ensures NormalizePaste("\r\n") == "\r"
  {
    NormalizeIsSinglePass("\r\nabc\ndef");
    NormalizeIsSinglePass("\r\n");
    SinglePassSample();
    assert "\r\n"[2..] == [];
  }

  /** The single pass copies a prefix that holds no line end. */
  lemma {:induction false} SinglePassPlainPrefix(a: string, b: string)
    requires '\n' !in a && '\r' !in a
    ensures NewlinesToReturns(a + b) == a + NewlinesToReturns(b)
    decreases |a|
  {
    if a == [] {
      assert a + b == b;
    } else {
      var s := a + b;
      assert s[0] == a[0] && s[1..] == a[1..] + b;
      assert a[0] in a;
      assert '\n' !in a[1..] && '\r' !in a[1..] by {
        forall k | 0 <= k < |a[1..]| ensures a[1..][k] == a[k + 1] { }
      }
      SinglePassPlainPrefix(a[1..], b);
      assert NewlinesToReturns(s) == [a[0]] + NewlinesToReturns(s[1..]);
      assert a == [a[0]] + a[1..];
    }
  }

  /** A `\r\n` line end, then a line, a lone `\n` and another line, becomes two `\r` line ends. */
  lemma SinglePassTwoLines(x: string, y: string)
    requires '\n' !in x && '\r' !in x && '\n' !in y
    ensures NewlinesToReturns("\r\n" + x + "\n" + y) == "\r" + x + "\r" + y
  {
    var tail := "\n" + y;
    var s := "\r\n" + x + tail;
    assert s == "\r\n" + x + "\n" + y;
    assert s[2..] == x + tail;
    SinglePassPlainPrefix(x, tail);
    assert tail[1..] == y;
    SinglePassKeepsTextWithoutLineFeed(y);
  }

  /** The single pass on the sample. */
  lemma SinglePassSample()
    ensures NewlinesToReturns("\r\nabc\ndef") == "\rabc\rdef"
  {
    SinglePassTwoLines("abc", "def");
    assert "\r\n" + "abc" + "\n" + "def" == "\r\nabc\ndef";
    assert "\r" + "abc" + "\r" + "def" == "\rabc\rdef";
  }

  /**
   * The Paste action: when the clipboard holds text, queues it normalised
   * (while realized) and requests a redraw; without text it does nothing.
   */
  method Paste(w: Widget, clipboard: Option<string>)
    modifies w
    ensures clipboard.Some? ==> w.state == Pushed(old(w.state), StringInput(NormalizePaste(clipboard.value)))
    ensures clipboard.Some? ==> w.drawRequests == old(w.drawRequests) + 1
    ensures clipboard.None? ==> w.state == old(w.state) && w.drawRequests == old(w.drawRequests)
  {
    if clipboard.Some? {
      var text := clipboard.value;
      w.Push(StringInput(NormalizePaste(text)));
      w.QueueDraw();
    }
  }

  /** The FontDecrease action: queues a change of -1 and requests a redraw. */
  method FontDecrease(w: Widget)
    modifies w
    ensures w.state == Pushed(old(w.state), ChangeFontSize(-1))
    ensures w.drawRequests == old(w.drawRequests) + 1
  {
    w.Push(ChangeFontSize(-1));
    w.QueueDraw();
  }

  /** The FontIncrease action: queues a change of +1 and requests a redraw. */
  method FontIncrease(w: Widget)
    modifies w
    ensures w.state == Pushed(old(w.state), ChangeFontSize(1))
    ensures w.drawRequests == old(w.drawRequests) + 1
  {
    w.Push(ChangeFontSize(1));
    w.QueueDraw();
  }

  /** The FontReset action: queues a reset and requests a redraw. */
  method FontReset(w: Widget)
    modifies w
    ensures w.state == Pushed(old(w.state), ResetFontSize)
    ensures w.drawRequests == old(w.drawRequests) + 1
  {
    w.Push(ResetFontSize);
    w.QueueDraw();
  }
}
