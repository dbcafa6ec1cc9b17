# galacritty — a verified model of the widget core

galacritty is a GTK front-end to the Alacritty terminal emulator. A GTK
`GLArea` hosts the terminal. The toolkit's callbacks (key presses,
input-method commits, drops, resizes, scale-factor changes and the
application's menu actions) append `Event`s to a queue. The render callback
drains that queue in order: it writes bytes to the pseudo-terminal, sends
size and scale commands to the display, and changes the font size.

This project models that core in Dafny and proves properties of the model.

- `wrappers.dfy` (`Wrappers`): the `Option` type.
- `utf8.dfy` (`Utf8`): bytes, the UTF-8 encoding of a character (`len_utf8`,
  `encode_utf8`), a decoder, and the round trip between the two. It also
  holds `str::as_bytes` as the concatenation of the characters' encodings.
- `text.dfy` (`Text`): the string operations the core uses. These are
  `replace` (leftmost, non-overlapping), `trim` over ASCII whitespace, and
  `join`. `Split` is a reference definition that inverts `join`.
- `events.dfy` (`Events`): the `Event` enum, the display commands, and the
  realized widget state. The state holds the queue, the byte chunks sent to
  the PTY, the commands sent to the display, and an abstract terminal (its
  `dirty` flag and a font-size delta). It also defines the Control transform
  of a byte, one drain step `ApplyEvent`, its fold `ApplyEvents`, and
  `Drain`, with lemmas on what a drain sends and changes.
- `keys.dfy` (`Keys`): the key-press `match` as the function `KeyEvent`. The
  GDK key values are numbers. `keyval_to_unicode` is a parameter. Reference
  tables give the xterm PC-style sequences (CSI `1;<mod>` plus a final
  byte, or `<n>;<mod>~`). Lemmas tie `KeyEvent` to those tables.
- `widget.dfy` (`Widget`): the class `Widget`. Its field `state:
  Option<State>` is `None` before realize and after unrealize. Its field
  `drawRequests` counts `queue_draw` calls. The file also models:
  - each callback as a method;
  - the render callback as a loop proved equal to `Drain`;
  - the Control transform as an in-place loop over an array of bytes;
  - the shaping of a dropped payload.
- `actions.dfy` (`Actions`): the actions of `build_actions`. Paste queues
  the clipboard text with line ends normalised. The three font actions
  queue a font-size event.
- `font.dfy` (`FontResolve`): `to_alacritty` as a loop over a family's faces.
  The loop is proved equal to a fold. Lemmas cover which face fills which
  slot, last-match-wins, kept defaults, the size, and when it aborts.

Behaviours of the code worth knowing:

- The key match is first-guard-wins: Shift+Control+Up sends `ESC [1;2A`,
  the Shift form.
- On the arrow keys, parameter 3 is Meta. On F1–F12, it is Super, and Meta
  is parameter 6.
- Tab inhibits default handling whatever modifiers are held. Only Shift+Tab
  sends `ESC [Z`; any other Tab is a `CharInput`.
- The font resolver sets a slot's family name only when a face fills that
  slot. A slot no face fills keeps the default font's family and style.
- A key with no Unicode mapping falls back to the low byte of its key value
  (`kv as u8 as char`). Home (`0xff50`) without a mapping therefore sends
  `P`. `Keys.HomeFallsBackToLowByte` states this.
- Keypad Insert, Home and End are not named by the match. They fall through
  to a `CharInput`, so keypad Insert does not send `ESC [2~` as Insert does.
  `Keys.KeypadUnnamedFallThrough` states this.
- `replace("file://", "")` removes each occurrence once, left to right. A
  removal can bring a new `file://` together, which stays.

## Model

| member | source | states |
|---|---|---|
| Utf8.LenUtf8 | src/widget.rs:138 | a character's UTF-8 length is between 1 and 4 bytes |
| Utf8.Encode | src/widget.rs:138-143 | the encoding has the length `len_utf8` reports; its first byte is ASCII iff the character is; a multi-byte encoding is a leading byte of at least 0xC0 followed by continuation bytes |
| Utf8.Decode | src/widget.rs:138-143 | a successful decode consumes exactly the length of the decoded character's encoding |
| Utf8.DecodeEncode | src/widget.rs:138-143 | decoding the encoding of any character gives that character back |
| Utf8.DecodeEncodeTwo | src/widget.rs:138-143 | the round trip for two-byte characters |
| Utf8.DecodeEncodeThree | src/widget.rs:138-143 | the round trip for three-byte characters |
| Utf8.DecodeEncodeFour | src/widget.rs:138-143 | the round trip for four-byte characters |
| Utf8.EncodeInjective | src/widget.rs:138-143 | distinct characters have distinct encodings |
| Utf8.StringBytes | src/widget.rs:156 | `as_bytes` yields at least one byte per character |
| Utf8.AsciiBytes | src/widget.rs:156 | an ASCII string's bytes are its characters' codes, one per character |
| Utf8.StringBytesAppend | src/widget.rs:160 | the bytes of a concatenation are the concatenation of the bytes |
| Text.ReplaceAll | src/main.rs:48 | a pattern that occurs nowhere leaves the string unchanged (leftmost, non-overlapping replacement) |
| Text.ReplaceLeadingOccurrence | src/widget.rs:337 | an occurrence at the front is replaced, and a rest without occurrences is kept as it is, for all inputs |
| Text.TrimStart | src/widget.rs:337 | the result is a suffix of the input; everything removed is whitespace, and the result does not start with whitespace |
| Text.TrimEnd | src/widget.rs:337 | the result is a prefix of the input; everything removed is whitespace, and the result does not end with whitespace |
| Text.Trim | src/widget.rs:339 | the result is a slice of the input with only whitespace removed on either side, and neither of its ends is whitespace |
| Text.Join | src/widget.rs:337 | joining a single part gives that part |
| Text.Split | src/widget.rs:337 | splitting yields at least one part (reference inverse of `join`) |
| Text.SplitNoSeparator | src/widget.rs:337 | a part without the separator splits off as one part |
| Text.SplitJoin | src/widget.rs:337 | splitting a join at its separator gives the parts back when no part contains the separator |
| Events.ControlByte | src/widget.rs:146-148 | a byte in [0x40, 0x80) becomes its value modulo 32, a control code below 0x20; any other byte is unchanged |
| Events.ControlBytes | src/widget.rs:145-149 | the transform keeps the length and maps each byte by `ControlByte` |
| Events.Pushed | src/widget.rs:198-200 | a push appends the event at the end of a realized state's queue and changes nothing else; an unrealized state stays unrealized |
| Events.ApplyEventOutputs | src/widget.rs:135-177 | one drain step sends the event's PTY chunk and display command, sets `dirty` exactly for resize and scale events, and leaves the queue alone |
| Events.ApplyEventsKeepsQueue | src/widget.rs:134 | applying events never touches the queue |
| Events.ApplyEventsSent | src/widget.rs:137-161 | the PTY receives exactly the events' byte chunks, in queue order |
| Events.ApplyEventsCommands | src/widget.rs:162-171 | the display receives exactly the events' `NewSize`/`NewHiDPIFactor` commands, in queue order |
| Events.ChangesGeometryCons | src/widget.rs:162-171 | a sequence contains a resize or scale event iff its head is one or its tail contains one |
| Events.ApplyEventsDirty | src/widget.rs:162-171 | the terminal ends dirty iff it was dirty or some event was a resize or scale change |
| Events.ApplyEventsFontSize | src/widget.rs:172-174 | without a reset, the font-size delta grows by the sum of the changes |
| Events.ApplyEventsAppend | src/widget.rs:134-179 | applying a concatenation applies the first part, then the second |
| Events.ApplyEventsSingle | src/widget.rs:134-179 | applying one event is one drain step |
| Events.DrainAfterPush | src/widget.rs:134-179 | draining after a push is the old drain followed by the pushed event |
| Events.FontSizeAfterReset | src/widget.rs:172-177 | after the last reset, the delta is the sum of the later changes |
| Events.DrainEffect | src/widget.rs:132-179 | a drain empties the queue, sends every queued chunk and command in push order, and sets `dirty` iff a geometry event was queued |
| Events.WithoutBlanks | src/widget.rs:136 | removing blanks leaves no blank and never lengthens the queue |
| Events.BlanksIgnored | src/widget.rs:136 | draining with or without the blank events gives the same state |
| Events.ResizeDrain | src/widget.rs:162-165 | draining a single 800x600 resize sends exactly `NewSize(800, 600)`, sends no bytes, and sets `dirty` |
| Events.ControlLetter | src/widget.rs:144-150 | Control with a letter sends the single byte of its alphabet position, 1 to 26 (`a` and `A` give 0x01) |
| Events.ControlKeepsNonAscii | src/widget.rs:144-150 | Control leaves the encoding of a non-ASCII character unchanged |
| Events.CharBytesLength | src/widget.rs:138-150 | a character's bytes have its UTF-8 length; without Control they decode back to the character |
| Keys.KeyChar | src/widget.rs:307 | without a Unicode mapping the character is the key value's low byte |
| Keys.KeyEvent | src/widget.rs:218-308 | every key yields one event: `Blank` exactly for modifier and lock keys, an escape sequence exactly for the table keys and Shift+Tab, and otherwise `CharInput` of the key's character with the Control flag |
| Keys.FunctionKeyNumber | src/widget.rs:244-303 | a key has a function-key number n from 1 to 12 iff it is one of F1–F12, and then it is key F1 + n − 1 |
| Keys.ArrowKeys | src/widget.rs:228-243 | arrow keys (main and keypad) send CSI with parameter `1;2` (Shift), `1;3` (Meta) or `1;5` (Control) by guard order, else the bare final byte |
| Keys.FunctionKeysF1F2 | src/widget.rs:244-253 | F1 and F2 follow the function-key table |
| Keys.FunctionKeysF3F4 | src/widget.rs:254-263 | F3 and F4 follow the function-key table |
| Keys.FunctionKeysF5F6 | src/widget.rs:264-273 | F5 and F6 follow the function-key table |
| Keys.FunctionKeysF7F8 | src/widget.rs:274-283 | F7 and F8 follow the function-key table |
| Keys.FunctionKeysF9F10 | src/widget.rs:284-293 | F9 and F10 follow the function-key table |
| Keys.FunctionKeysF11F12 | src/widget.rs:294-303 | F11 and F12 follow the function-key table |
| Keys.FunctionKeys | src/widget.rs:244-303 | F1–F12 send `;2` (Shift), `;3` (Super), `;5` (Control), `;6` (Meta) by guard order, else `ESC O P`–`ESC O S` for F1–F4 and `ESC [<n>~` for F5–F12 |
| Keys.PageKeys | src/widget.rs:219-224 | Page Up/Down (main and keypad) send `;2` for Shift, else `;5` for Control, else the bare `ESC [5~`/`ESC [6~`; Meta is ignored |
| Keys.InsertDeleteKeys | src/widget.rs:226-227 | Insert, Delete and keypad Delete send `ESC [2~` and `ESC [3~` whatever the modifiers |
| Keys.TabKey | src/widget.rs:225 | Shift+Tab sends `ESC [Z`; Tab without Shift is a `CharInput` |
| Keys.KeypadLikeMain | src/widget.rs:219-243 | the seven keypad keys the match names (Up, Down, Left, Right, Page Up, Page Down, Delete) encode exactly like their main-key counterparts |
| Keys.KeypadUnnamedFallThrough | src/widget.rs:307 | keypad Insert, Home and End fall through to `CharInput`, so keypad Insert differs from Insert |
| Keys.OnlyFourModifiersMatter | src/widget.rs:218-308 | only Shift, Control, Meta and Super influence the event |
| Keys.SampleSequences | src/widget.rs:236-248 | Shift+Control+Up is `ESC [1;2A`, bare Up `ESC [A`, F1 `ESC OP`, F5 `ESC [15~`, F12 `ESC [24~`, Super+F1 `ESC [1;3P`, Meta+F1 `ESC [1;6P`, Meta+Left `ESC [1;3D` |
| Keys.HomeFallsBackToLowByte | src/widget.rs:307 | Home without a Unicode mapping sends `P`, with the Control flag as held |
| Keys.CsiIsEscape | src/widget.rs:219-303 | a CSI sequence of ASCII parameters is an escape sequence |
| Keys.ReferenceSequencesAreEscapes | src/widget.rs:219-303 | every sequence of the reference tables is an ASCII escape sequence |
| Keys.SequencesAreEscapes | src/widget.rs:218-306 | every `StrInput` a key yields is an ASCII escape sequence, one byte per character |
| Widget.AsU32 | src/widget.rs:199 | `as u32` keeps a non-negative size and wraps a negative one modulo 2^32 |
| Widget.DragPayload | src/widget.rs:335-340 | a drop pushes nothing iff it has neither URIs nor text; one URI is pushed trimmed, with each `file://` occurrence removed once, left to right |
| Widget.DragUrisSplitBack | src/widget.rs:337 | when no cleaned URI contains a space, the pushed text splits at spaces into exactly the cleaned URIs, in order |
| Widget.DragFileUri | src/widget.rs:337 | dropping ` file:///tmp/a\n` pushes `/tmp/a` |
| Widget.DragFramedFileUri | src/widget.rs:337 | a single dropped URI ` file://<path>\n` pushes `<path>`, for every path that ends in a non-blank and holds no further `file://` |
| Widget.TrimFramed | src/widget.rs:337 | trimming removes one blank on either side of a text that starts and ends with a non-blank |
| Widget.StripSchemeSample | src/widget.rs:337 | removing `file://` from `file:///tmp/a` gives `/tmp/a` |
| Widget.StripScheme | src/widget.rs:337 | removing `file://` from `file://` followed by a path without another occurrence leaves the path |
| Widget.DragSingleFileUri | src/widget.rs:337 | a single dropped URI that trims to `file://` followed by such a path pushes the path |
| Widget.DragTextFileUri | src/widget.rs:339 | dropped text `file://` followed by such a path pushes the trimmed path |
| Widget.ReplaceAbsent | src/widget.rs:337 | a pattern whose first character never occurs is not replaced |
| Widget.ControlTransform | src/widget.rs:144-150 | the in-place loop leaves the buffer equal to the Control transform of its old contents |
| Widget.CharInputBytes | src/widget.rs:137-150 | the bytes sent for a `CharInput` are the character's UTF-8 encoding, Control-transformed when Control was held, of length `len_utf8` |
| Widget.Widget.constructor | src/widget.rs:76 | a new widget has no state and no redraw requests |
| Widget.Widget.Realize | src/widget.rs:118-123 | realize installs a fresh state with an empty queue and nothing sent |
| Widget.Widget.Unrealize | src/widget.rs:125-128 | unrealize drops the state |
| Widget.Widget.Push | src/widget.rs:198-200 | a push appends to the queue while realized and does nothing otherwise |
| Widget.Widget.QueueDraw | src/widget.rs:201 | a redraw request changes only the request count |
| Widget.Widget.Resize | src/widget.rs:196-202 | resize queues `WindowResized` of the sizes as `u32` and requests a redraw |
| Widget.Widget.KeyPress | src/widget.rs:206-312 | a key the input method consumed queues nothing and inhibits; any other key queues `KeyEvent`, requests a redraw and inhibits exactly for Tab |
| Widget.Widget.ImCommit | src/widget.rs:319-326 | a commit queues the committed text and requests a redraw |
| Widget.Widget.DragDataReceived | src/widget.rs:332-342 | a drop queues the shaped payload when there is one, and requests no redraw |
| Widget.Widget.ScaleFactorChanged | src/widget.rs:344-350 | a scale change queues `HiDPIFactorChanged` and requests a redraw |
| Widget.Widget.Render | src/widget.rs:130-194 | render on a realized state replaces it by its `Drain`; on an unrealized one it does nothing |
| Actions.ReplaceLineFeedCons | src/main.rs:48 | replacing `\n` proceeds character by character |
| Actions.NormalizeIsSinglePass | src/main.rs:48 | the two `replace` calls equal one pass turning each `\r\n` pair and each lone `\n` into one `\r` |
| Actions.NoLineFeedAfterNormalize | src/main.rs:48 | the normalised text has no `\n` |
| Actions.NoLineFeedInSinglePass | src/main.rs:48 | the single pass leaves no `\n` |
| Actions.NormalizeKeepsTextWithoutLineFeed | src/main.rs:48 | text without `\n`, lone `\r` included, is unchanged |
| Actions.SinglePassKeepsTextWithoutLineFeed | src/main.rs:48 | the single pass leaves text without `\n` unchanged |
| Actions.NormalizeKeepsOtherCharacters | src/main.rs:48 | all characters other than line ends survive, in order |
| Actions.SinglePassKeepsOtherCharacters | src/main.rs:48 | the single pass keeps all characters other than line ends, in order |
| Actions.NormalizeSamples | src/main.rs:48 | `\r\nabc\ndef` becomes `\rabc\rdef`, and `\r\n` becomes one `\r` |
| Actions.SinglePassPlainPrefix | src/main.rs:48 | the single pass copies a prefix without line ends unchanged |
| Actions.SinglePassTwoLines | src/main.rs:48 | a `\r\n`, a line, a lone `\n` and another line become the lines separated by `\r`s |
| Actions.SinglePassSample | src/main.rs:48 | the single pass turns `\r\nabc\ndef` into `\rabc\rdef` |
| Actions.Paste | src/main.rs:42-52 | with clipboard text, queues it normalised and requests a redraw; without, changes nothing |
| Actions.FontDecrease | src/main.rs:56-63 | queues `ChangeFontSize(-1)` at the end of the queue and requests a redraw |
| Actions.FontIncrease | src/main.rs:67-74 | queues `ChangeFontSize(1)` at the end of the queue and requests a redraw |
| Actions.FontReset | src/main.rs:78-85 | queues `ResetFontSize` at the end of the queue and requests a redraw |
| FontResolve.SetSlot | src/font.rs:16-27 | filling a slot sets that slot only and keeps the size |
| FontResolve.ToAlacritty | src/font.rs:7-33 | the loop over the faces gives the fold `ResolveFaces` from the default font with the chosen size |
| FontResolve.ResolveAbortsIff | src/font.rs:15-29 | resolution aborts iff the family has no name and some face fills a slot |
| FontResolve.LastFaceFor | src/font.rs:12-29 | the face a slot takes is one that fills it with no later face filling it; there is none iff no face fills it |
| FontResolve.ResolveSlots | src/font.rs:10-31 | for a named family each slot is set to the family name and the name of the last face filling it, and a slot no face fills keeps its default family and style; the size is unchanged |
| FontResolve.ResolveKeepsSize | src/font.rs:12-31 | a walk that succeeds keeps its starting size, whether or not the family has a name |
| FontResolve.ResolverSize | src/font.rs:8-11 | every resolved font has the chosen size, whatever the faces and whether or not the family is named; a named family always resolves |
| FontResolve.OnlyRegularFace | src/font.rs:16-19 | a single (Normal, Normal) face sets the normal slot to the family and face name and keeps bold and italic at the defaults |

## Left out

- GL loading through `epoxy` and `DynamicLibrary`: foreign, unsafe calls.
- Building `Display`, `Term`, `Pty` and `EventLoop`, and spawning the I/O
  thread: these belong to the Alacritty library and to the operating system.
  `Widget.Widget.Realize` takes the new terminal as a parameter.
- The cross-thread redraw notifier, `glib::idle_add` and the thread-local
  widget back-reference: these are concurrency.
- The `FairMutex` around the terminal: concurrency.
- Title propagation and the drawing steps after the drain (`needs_draw`,
  `handle_resize`, `draw`, the input-method cursor spot): these are calls
  into Alacritty's renderer.
- Input-method filtering and focus handling: `filter_keypress` is the
  boolean parameter `imConsumed` of `Widget.Widget.KeyPress`. The
  key-release handler is not modelled.
- `gdk::keyval_to_unicode` is the parameter `unicode` of `Keys.KeyEvent`.
  The model does not reproduce GDK's table.
- The GDK modifier mask is a set of the named modifiers. Mask bits outside
  them are not modelled.
- Widget.Widget.ScaleFactorChanged: the factor is queued as the integer
  scale factor. The conversion to `f32` is not modelled, and the model
  keeps no floating point.
- FontResolve.ToAlacritty: the size is kept as the toolkit's scaled
  integer. The division by `pango::SCALE` into an `f32` is not modelled.
- `Font::default()` is the parameter `default` of `FontResolve.ToAlacritty`.
  Listing the family's faces is the sequence `fam.faces`.
- FontResolve.ToAlacritty: the panic of `expect` on a nameless family is
  the result `None`.
- Text.Trim: only ASCII whitespace is trimmed. Rust's `trim` also removes
  the other Unicode white-space characters.
- Utf8.Decode: its contract states the length of what it decodes. That a
  successful decode re-encodes to its input is not stated. The round trip
  that matters here, decoding an encoding, is `Utf8.DecodeEncode`.
- Events.ApplyEvent: the terminal's `change_font_size` and
  `reset_font_size` are assumed to change only a font-size delta (adding to
  it, resetting it to zero). They are assumed to leave `dirty` and the rest
  of the terminal alone. These are Alacritty's methods and are not part of
  this model. The "only if" half of `Events.ApplyEventsDirty` and
  `Events.DrainEffect` rests on this assumption. Alacritty's own clamping of
  the font size is not modelled either.
- A failing `send` on the display channel (`expect`) is not modelled.
  Sends always succeed.
- How one `queue_draw` leads to one render is up to the toolkit. The model
  counts redraw requests, and `Widget.Widget.Render` is invoked
  separately.
- The about dialog, the menus, the window and header bar, the keyboard
  accelerators, logging and `main`: toolkit set-up with no logic of its
  own.
