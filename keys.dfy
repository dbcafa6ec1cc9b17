/**
 * The key-press encoder of src/widget.rs: a GDK key value and the held
 * modifiers become the one event the widget queues. Navigation and function
 * keys become xterm PC-style escape sequences, bare modifier and lock keys
 * become `Blank`, and every other key becomes a `CharInput`.
 */
module Keys {
  import opened Wrappers
  import opened Utf8
  import opened Events

  /** A GDK key value (`gdk::enums::key`), a 32-bit unsigned number. */
  type KeyVal = u32

  const TAB: KeyVal := 0xff09
  const SCROLL_LOCK: KeyVal := 0xff14
  const HOME: KeyVal := 0xff50
  const LEFT: KeyVal := 0xff51
  const UP: KeyVal := 0xff52
  const RIGHT: KeyVal := 0xff53
  const DOWN: KeyVal := 0xff54
  const PAGE_UP: KeyVal := 0xff55
  const PAGE_DOWN: KeyVal := 0xff56
  const INSERT: KeyVal := 0xff63
  const KP_LEFT: KeyVal := 0xff96
  const KP_UP: KeyVal := 0xff97
  const KP_RIGHT: KeyVal := 0xff98
  const KP_DOWN: KeyVal := 0xff99
  const KP_PAGE_UP: KeyVal := 0xff9a
  const KP_PAGE_DOWN: KeyVal := 0xff9b
  const KP_DELETE: KeyVal := 0xff9f
  const KP_HOME: KeyVal := 0xff95
  const KP_END: KeyVal := 0xff9c
  const KP_INSERT: KeyVal := 0xff9e
  const F1: KeyVal := 0xffbe
  const F2: KeyVal := 0xffbf
  const F3: KeyVal := 0xffc0
  const F4: KeyVal := 0xffc1
  const F5: KeyVal := 0xffc2
  const F6: KeyVal := 0xffc3
  const F7: KeyVal := 0xffc4
  const F8: KeyVal := 0xffc5
  const F9: KeyVal := 0xffc6
  const F10: KeyVal := 0xffc7
  const F11: KeyVal := 0xffc8
  const F12: KeyVal := 0xffc9
  const SHIFT_L: KeyVal := 0xffe1
  const SHIFT_R: KeyVal := 0xffe2
  const CONTROL_L: KeyVal := 0xffe3
  const CONTROL_R: KeyVal := 0xffe4
  const CAPS_LOCK: KeyVal := 0xffe5
  const SHIFT_LOCK: KeyVal := 0xffe6
  const META_L: KeyVal := 0xffe7
  const META_R: KeyVal := 0xffe8
  const ALT_L: KeyVal := 0xffe9
  const ALT_R: KeyVal := 0xffea
  const SUPER_L: KeyVal := 0xffeb
  const SUPER_R: KeyVal := 0xffec
  const HYPER_L: KeyVal := 0xffed
  const HYPER_R: KeyVal := 0xffee
  const DELETE: KeyVal := 0xffff
  const MODE_LOCK: KeyVal := 0x1008_ff01

  /** The bits of GDK's modifier state that a key event can carry. */
  datatype Modifier = Shift | Lock | Control | Mod1 | Super | Hyper | Meta

  const ESC: char := '\U{1B}'

  /** The bare modifier and lock keys, which must never reach the child process. */
  predicate IsModifierKey(kv: KeyVal) {
    kv == SUPER_L || kv == SUPER_R || kv == HYPER_L || kv == HYPER_R || kv == CONTROL_L || kv == CONTROL_R ||
    kv == ALT_L || kv == ALT_R || kv == META_L || kv == META_R || kv == SHIFT_L || kv == SHIFT_R ||
    kv == CAPS_LOCK || kv == SCROLL_LOCK || kv == SHIFT_LOCK || kv == MODE_LOCK
  }

  /** The navigation and function keys the table gives an escape sequence whatever the modifiers. */
  predicate IsTableKey(kv: KeyVal) {
    kv == PAGE_UP || kv == KP_PAGE_UP || kv == PAGE_DOWN || kv == KP_PAGE_DOWN || kv == INSERT ||
    kv == DELETE || kv == KP_DELETE || kv == LEFT || kv == KP_LEFT || kv == RIGHT || kv == KP_RIGHT ||
    kv == UP || kv == KP_UP || kv == DOWN || kv == KP_DOWN || F1 <= kv <= F12
  }

  /**
   * The character a key without an escape sequence sends: its Unicode mapping
   * (`gdk::keyval_to_unicode`, given here as `unicode`), else the key value's
   * low byte taken as a character (`kv as u8 as char`).
   */
  function KeyChar(kv: KeyVal, unicode: Option<char>): (c: char)
    ensures unicode.None? ==> c as int == kv as int % 256
  {
    unicode.GetOr((kv as int % 256) as char)
  }

  /** An escape sequence as the table writes them: ESC, then `[` or `O`, then ASCII. */
  predicate IsEscapeSequence(s: string) {
    |s| >= 3 && s[0] == ESC && (s[1] == '[' || s[1] == 'O') && IsAscii(s)
  }

  /**
   * The event queued for a key press the input method did not consume. The
   * arms are tried in the order of the table: the first whose key and
   * modifier guard match decides.
   */
  function KeyEvent(kv: KeyVal, unicode: Option<char>, mods: set<Modifier>): (e: Event)
    ensures e.Blank? || e.StrInput? || e.CharInput?
    ensures e.Blank? <==> IsModifierKey(kv)
    ensures e.StrInput? <==> IsTableKey(kv) || (kv == TAB && Shift in mods)
    ensures e.CharInput? ==> e.c == KeyChar(kv, unicode) && e.controlHeld == (Control in mods)
  {
    if kv == PAGE_UP || kv == KP_PAGE_UP then
      if Shift in mods then StrInput("\U{1B}[5;2~")
      else if Control in mods then StrInput("\U{1B}[5;5~")
      else StrInput("\U{1B}[5~")
    else if kv == PAGE_DOWN || kv == KP_PAGE_DOWN then
      if Shift in mods then StrInput("\U{1B}[6;2~")
      else if Control in mods then StrInput("\U{1B}[6;5~")
      else StrInput("\U{1B}[6~")
    else if kv == TAB && Shift in mods then StrInput("\U{1B}[Z")
    else if kv == INSERT then StrInput("\U{1B}[2~")
    else if kv == DELETE || kv == KP_DELETE then StrInput("\U{1B}[3~")
    else if kv == LEFT || kv == KP_LEFT then
      if Shift in mods then StrInput("\U{1B}[1;2D")
      else if Meta in mods then StrInput("\U{1B}[1;3D")
      else if Control in mods then StrInput("\U{1B}[1;5D")
      else StrInput("\U{1B}[D")
    else if kv == RIGHT || kv == KP_RIGHT then
      if Shift in mods then StrInput("\U{1B}[1;2C")
      else if Meta in mods then StrInput("\U{1B}[1;3C")
      else if Control in mods then StrInput("\U{1B}[1;5C")
      else StrInput("\U{1B}[C")
    else if kv == UP || kv == KP_UP then
      if Shift in mods then StrInput("\U{1B}[1;2A")
      else if Meta in mods then StrInput("\U{1B}[1;3A")
      else if Control in mods then StrInput("\U{1B}[1;5A")
      else StrInput("\U{1B}[A")
    else if kv == DOWN || kv == KP_DOWN then
      if Shift in mods then StrInput("\U{1B}[1;2B")
      else if Meta in mods then StrInput("\U{1B}[1;3B")
      else if Control in mods then StrInput("\U{1B}[1;5B")
      else StrInput("\U{1B}[B")
    else if kv == F1 then
      if Shift in mods then StrInput("\U{1B}[1;2P")
      else if Super in mods then StrInput("\U{1B}[1;3P")
      else if Control in mods then StrInput("\U{1B}[1;5P")
      else if Meta in mods then StrInput("\U{1B}[1;6P")
      else StrInput("\U{1B}OP")
    else if kv == F2 then
      if Shift in mods then StrInput("\U{1B}[1;2Q")
      else if Super in mods then StrInput("\U{1B}[1;3Q")
      else if Control in mods then StrInput("\U{1B}[1;5Q")
      else if Meta in mods then StrInput("\U{1B}[1;6Q")
      else StrInput("\U{1B}OQ")
    else if kv == F3 then
      if Shift in mods then StrInput("\U{1B}[1;2R")
      else if Super in mods then StrInput("\U{1B}[1;3R")
      else if Control in mods then StrInput("\U{1B}[1;5R")
      else if Meta in mods then StrInput("\U{1B}[1;6R")
      else StrInput("\U{1B}OR")
    else if kv == F4 then
      if Shift in mods then StrInput("\U{1B}[1;2S")
      else if Super in mods then StrInput("\U{1B}[1;3S")
      else if Control in mods then StrInput("\U{1B}[1;5S")
      else if Meta in mods then StrInput("\U{1B}[1;6S")
      else StrInput("\U{1B}OS")
    else if kv == F5 then
      if Shift in mods then StrInput("\U{1B}[15;2~")
      else if Super in mods then StrInput("\U{1B}[15;3~")
      else if Control in mods then StrInput("\U{1B}[15;5~")
      else if Meta in mods then StrInput("\U{1B}[15;6~")
      else StrInput("\U{1B}[15~")
    else if kv == F6 then
      if Shift in mods then StrInput("\U{1B}[17;2~")
      else if Super in mods then StrInput("\U{1B}[17;3~")
      else if Control in mods then StrInput("\U{1B}[17;5~")
      else if Meta in mods then StrInput("\U{1B}[17;6~")
      else StrInput("\U{1B}[17~")
    else if kv == F7 then
      if Shift in mods then StrInput("\U{1B}[18;2~")
      else if Super in mods then StrInput("\U{1B}[18;3~")
      else if Control in mods then StrInput("\U{1B}[18;5~")
      else if Meta in mods then StrInput("\U{1B}[18;6~")
      else StrInput("\U{1B}[18~")
    else if kv == F8 then
      if Shift in mods then StrInput("\U{1B}[19;2~")
      else if Super in mods then StrInput("\U{1B}[19;3~")
      else if Control in mods then StrInput("\U{1B}[19;5~")
      else if Meta in mods then StrInput("\U{1B}[19;6~")
      else StrInput("\U{1B}[19~")
    else if kv == F9 then
      if Shift in mods then StrInput("\U{1B}[20;2~")
      else if Super in mods then StrInput("\U{1B}[20;3~")
      else if Control in mods then StrInput("\U{1B}[20;5~")
      else if Meta in mods then StrInput("\U{1B}[20;6~")
      else StrInput("\U{1B}[20~")
    else if kv == F10 then
      if Shift in mods then StrInput("\U{1B}[21;2~")
      else if Super in mods then StrInput("\U{1B}[21;3~")
      else if Control in mods then StrInput("\U{1B}[21;5~")
      else if Meta in mods then StrInput("\U{1B}[21;6~")
      else StrInput("\U{1B}[21~")
    else if kv == F11 then
      if Shift in mods then StrInput("\U{1B}[23;2~")
      else if Super in mods then StrInput("\U{1B}[23;3~")
      else if Control in mods then StrInput("\U{1B}[23;5~")
      else if Meta in mods then StrInput("\U{1B}[23;6~")
      else StrInput("\U{1B}[23~")
    else if kv == F12 then
      if Shift in mods then StrInput("\U{1B}[24;2~")
      else if Super in mods then StrInput("\U{1B}[24;3~")
      else if Control in mods then StrInput("\U{1B}[24;5~")
      else if Meta in mods then StrInput("\U{1B}[24;6~")
      else StrInput("\U{1B}[24~")
    else if IsModifierKey(kv) then Blank
    else CharInput(KeyChar(kv, unicode), Control in mods)
  }

  // ---------------------------------------------------------------------------
  // The xterm PC-style encoding, built from its parts, as a reference for the table.

  /** A control sequence: CSI (`ESC [`), the parameters, then the final character. */
  function Csi(params: string, final: char): string {
    [ESC, '['] + params + [final]
  }

  /** The final character of an arrow key's sequence, for the main and the keypad arrows. */
  function ArrowFinal(kv: KeyVal): Option<char> {
    if kv == UP || kv == KP_UP then Some('A')
    else if kv == DOWN || kv == KP_DOWN then Some('B')
    else if kv == RIGHT || kv == KP_RIGHT then Some('C')
    else if kv == LEFT || kv == KP_LEFT then Some('D')
    else None
  }

  /** The modifier parameter of the arrow keys: Shift 2, else Meta 3, else Control 5, else none. */
  function ArrowParam(mods: set<Modifier>): Option<char> {
    if Shift in mods then Some('2')
    else if Meta in mods then Some('3')
    else if Control in mods then Some('5')
    else None
  }

  /** An arrow key's sequence: `CSI final` bare, `CSI 1 ; p final` with a modifier parameter. */
  function ArrowSequence(final: char, mods: set<Modifier>): string {
    match ArrowParam(mods)
    case None => Csi("", final)
    case Some(p) => Csi("1;" + [p], final)
  }

  /** The number n of the function key Fn, or 0 for any other key. */
  function FunctionKeyNumber(kv: KeyVal): (n: nat)
    ensures n <= 12
    ensures 1 <= n <==> F1 <= kv <= F12
    ensures 1 <= n ==> kv as int == F1 as int + n - 1
  {
    if F1 <= kv <= F12 then (kv - F1) as int + 1 else 0
  }

  /** The modifier parameter of F1 to F12: Shift 2, else Super 3, else Control 5, else Meta 6, else none. */
  function FunctionParam(mods: set<Modifier>): Option<char> {
    if Shift in mods then Some('2')
    else if Super in mods then Some('3')
    else if Control in mods then Some('5')
    else if Meta in mods then Some('6')
    else None
  }

  /** The code of F5 to F12 in `CSI code ~`: 15, 17, 18, 19, 20, 21, 23 and 24 (16 and 22 are skipped). */
  function FunctionCode(n: nat): string
    requires 5 <= n <= 12
  {
    if n == 5 then "15" else if n == 6 then "17" else if n == 7 then "18" else if n == 8 then "19"
    else if n == 9 then "20" else if n == 10 then "21" else if n == 11 then "23" else "24"
  }

  /**
   * The sequence of Fn. F1 to F4 are `ESC O P` to `ESC O S` bare and
   * `CSI 1 ; p P` to `CSI 1 ; p S` modified; F5 to F12 are `CSI code ~` and
   * `CSI code ; p ~`.
   */
  function FunctionSequence(n: nat, mods: set<Modifier>): string
    requires 1 <= n <= 12
  {
    if n <= 4 then
      var final := "PQRS"[n - 1];
      match FunctionParam(mods)
      case None => [ESC, 'O', final]
      case Some(p) => Csi("1;" + [p], final)
    else
      var code := FunctionCode(n);
      match FunctionParam(mods)
      case None => Csi(code, '~')
      case Some(p) => Csi(code + ";" + [p], '~')
  }

  /** The code of Page Up (5) and Page Down (6) in `CSI code ~`. */
  function PageCode(kv: KeyVal): Option<char> {
    if kv == PAGE_UP || kv == KP_PAGE_UP then Some('5')
    else if kv == PAGE_DOWN || kv == KP_PAGE_DOWN then Some('6')
    else None
  }

  /** The modifier parameter of Page Up and Page Down: Shift 2, else Control 5; Meta is not looked at. */
  function PageParam(mods: set<Modifier>): Option<char> {
    if Shift in mods then Some('2')
    else if Control in mods then Some('5')
    else None
  }

  /** A paging key's sequence: `CSI code ~` bare, `CSI code ; p ~` with a modifier parameter. */
  function PageSequence(code: char, mods: set<Modifier>): string {
    match PageParam(mods)
    case None => Csi([code], '~')
    case Some(p) => Csi([code, ';', p], '~')
  }

  /** Every arrow key, main or keypad, sends the xterm arrow sequence for the first matching modifier. */
  lemma ArrowKeys(kv: KeyVal, unicode: Option<char>, mods: set<Modifier>)
    requires ArrowFinal(kv).Some?
    ensures KeyEvent(kv, unicode, mods) == StrInput(ArrowSequence(ArrowFinal(kv).value, mods))
  {
  }

  /** F1 and F2 against their reference sequences. */
  lemma FunctionKeysF1F2(unicode: Option<char>, mods: set<Modifier>)
    ensures KeyEvent(F1, unicode, mods) == StrInput(FunctionSequence(1, mods))
    ensures KeyEvent(F2, unicode, mods) == StrInput(FunctionSequence(2, mods))
  {
  }

  /** F3 and F4 against their reference sequences. */
  lemma FunctionKeysF3F4(unicode: Option<char>, mods: set<Modifier>)
    ensures KeyEvent(F3, unicode, mods) == StrInput(FunctionSequence(3, mods))
    ensures KeyEvent(F4, unicode, mods) == StrInput(FunctionSequence(4, mods))
  {
  }

  /** F5 and F6 against their reference sequences. */
  lemma FunctionKeysF5F6(unicode: Option<char>, mods: set<Modifier>)
    ensures KeyEvent(F5, unicode, mods) == StrInput(FunctionSequence(5, mods))
    ensures KeyEvent(F6, unicode, mods) == StrInput(FunctionSequence(6, mods))
  {
  }

  /** F7 and F8 against their reference sequences. */
  lemma FunctionKeysF7F8(unicode: Option<char>, mods: set<Modifier>)
    ensures KeyEvent(F7, unicode, mods) == StrInput(FunctionSequence(7, mods))
    ensures KeyEvent(F8, unicode, mods) == StrInput(FunctionSequence(8, mods))
  {
  }

  /** F9 and F10 against their reference sequences. */
  lemma FunctionKeysF9F10(unicode: Option<char>, mods: set<Modifier>)
    ensures KeyEvent(F9, unicode, mods) == StrInput(FunctionSequence(9, mods))
    ensures KeyEvent(F10, unicode, mods) == StrInput(FunctionSequence(10, mods))
  {
  }

  /** F11 and F12 against their reference sequences. */
  lemma FunctionKeysF11F12(unicode: Option<char>, mods: set<Modifier>)
    ensures KeyEvent(F11, unicode, mods) == StrInput(FunctionSequence(11, mods))
    ensures KeyEvent(F12, unicode, mods) == StrInput(FunctionSequence(12, mods))
  {
  }

  /** Every function key F1 to F12 sends its xterm sequence for the first matching modifier. */
  lemma FunctionKeys(kv: KeyVal, unicode: Option<char>, mods: set<Modifier>)
    requires 1 <= FunctionKeyNumber(kv)
    ensures KeyEvent(kv, unicode, mods) == StrInput(FunctionSequence(FunctionKeyNumber(kv), mods))
  {
    FunctionKeysF1F2(unicode, mods);
    FunctionKeysF3F4(unicode, mods);
    FunctionKeysF5F6(unicode, mods);
    FunctionKeysF7F8(unicode, mods);
    FunctionKeysF9F10(unicode, mods);
    FunctionKeysF11F12(unicode, mods);
  }

  /** Page Up and Page Down, main or keypad, check Shift before Control and ignore every other modifier. */
  lemma PageKeys(kv: KeyVal, unicode: Option<char>, mods: set<Modifier>)
    requires PageCode(kv).Some?
    ensures KeyEvent(kv, unicode, mods) == StrInput(PageSequence(PageCode(kv).value, mods))
  {
  }

  /** Insert and Delete (main or keypad) ignore all modifiers. */
  lemma InsertDeleteKeys(unicode: Option<char>, mods: set<Modifier>)
    ensures KeyEvent(INSERT, unicode, mods) == StrInput(Csi("2", '~'))
    ensures KeyEvent(DELETE, unicode, mods) == StrInput(Csi("3", '~'))
    ensures KeyEvent(KP_DELETE, unicode, mods) == StrInput(Csi("3", '~'))
  {
  }

  /** Shift+Tab sends the back-tab sequence `CSI Z`; Tab without Shift falls through to a plain character. */
  lemma TabKey(unicode: Option<char>, mods: set<Modifier>)
    ensures Shift in mods ==> KeyEvent(TAB, unicode, mods) == StrInput(Csi("", 'Z'))
    ensures Shift !in mods ==> KeyEvent(TAB, unicode, mods) == CharInput(KeyChar(TAB, unicode), Control in mods)
  {
  }

  /**
   * The seven keypad keys the match names (Up, Down, Left, Right, Page Up,
   * Page Down and Delete) encode exactly as their main-key counterparts.
   */
  lemma KeypadLikeMain(unicode: Option<char>, mods: set<Modifier>)
    ensures KeyEvent(KP_UP, unicode, mods) == KeyEvent(UP, unicode, mods)
    ensures KeyEvent(KP_DOWN, unicode, mods) == KeyEvent(DOWN, unicode, mods)
    ensures KeyEvent(KP_LEFT, unicode, mods) == KeyEvent(LEFT, unicode, mods)
    ensures KeyEvent(KP_RIGHT, unicode, mods) == KeyEvent(RIGHT, unicode, mods)
    ensures KeyEvent(KP_PAGE_UP, unicode, mods) == KeyEvent(PAGE_UP, unicode, mods)
    ensures KeyEvent(KP_PAGE_DOWN, unicode, mods) == KeyEvent(PAGE_DOWN, unicode, mods)
    ensures KeyEvent(KP_DELETE, unicode, mods) == KeyEvent(DELETE, unicode, mods)
  {
  }

  /**
   * Keypad Insert, Home and End are not named by the match: they fall through
   * to a `CharInput`, so keypad Insert does not send what Insert sends.
   */
  lemma KeypadUnnamedFallThrough(unicode: Option<char>, mods: set<Modifier>)
    ensures KeyEvent(KP_INSERT, unicode, mods) == CharInput(KeyChar(KP_INSERT, unicode), Control in mods)
    ensures KeyEvent(KP_INSERT, unicode, mods) != KeyEvent(INSERT, unicode, mods)
    ensures KeyEvent(KP_HOME, unicode, mods) == CharInput(KeyChar(KP_HOME, unicode), Control in mods)
    ensures KeyEvent(KP_END, unicode, mods) == CharInput(KeyChar(KP_END, unicode), Control in mods)
  {
  }

  /** Only Shift, Control, Meta and Super affect the encoding; Lock, Mod1 and Hyper are ignored. */
  lemma OnlyFourModifiersMatter(kv: KeyVal, unicode: Option<char>, mods: set<Modifier>)
    ensures KeyEvent(kv, unicode, mods) == KeyEvent(kv, unicode, mods * {Shift, Control, Meta, Super})
  {
  }

  /**
   * Sample entries: Shift+Control+Up uses the Shift form, bare Up, F1, F5 and
   * F12 their base forms, Super+F1 parameter 3 and Meta+F1 parameter 6.
   */
  lemma SampleSequences(unicode: Option<char>)
    ensures KeyEvent(UP, unicode, {Shift, Control}) == StrInput("\U{1B}[1;2A")
    ensures KeyEvent(UP, unicode, {}) == StrInput("\U{1B}[A")
    ensures KeyEvent(F1, unicode, {}) == StrInput("\U{1B}OP")
    ensures KeyEvent(F5, unicode, {}) == StrInput("\U{1B}[15~")
    ensures KeyEvent(F12, unicode, {}) == StrInput("\U{1B}[24~")
    ensures KeyEvent(F1, unicode, {Super}) == StrInput("\U{1B}[1;3P")
    ensures KeyEvent(F1, unicode, {Meta}) == StrInput("\U{1B}[1;6P")
    ensures KeyEvent(LEFT, unicode, {Meta}) == StrInput("\U{1B}[1;3D")
  {
  }

  /**
   * A key with neither a table entry nor a Unicode mapping still sends a
   * character, the low byte of its key value: Home (0xff50) sends 'P'.
   */
  lemma HomeFallsBackToLowByte(mods: set<Modifier>)
    ensures KeyEvent(HOME, None, mods) == CharInput('P', Control in mods)
  {
  }

  /** A control sequence over ASCII parameters with an ASCII final character is an escape sequence. */
  lemma CsiIsEscape(params: string, final: char)
    requires IsAscii(params) && final as int < 0x80
    ensures IsEscapeSequence(Csi(params, final))
  {
    var s := Csi(params, final);
    forall k | 0 <= k < |s| ensures s[k] as int < 0x80 {
      if 2 <= k < 2 + |params| { assert s[k] == params[k - 2]; }
    }
  }

  /** Every sequence of the reference tables is an escape sequence. */
  lemma ReferenceSequencesAreEscapes(mods: set<Modifier>)
    ensures forall final :: final in "ABCD" ==> IsEscapeSequence(ArrowSequence(final, mods))
    ensures forall code :: code in "56" ==> IsEscapeSequence(PageSequence(code, mods))
    ensures forall n :: 1 <= n <= 12 ==> IsEscapeSequence(FunctionSequence(n, mods))
  {
    forall final | final in "ABCD" ensures IsEscapeSequence(ArrowSequence(final, mods)) {
      if ArrowParam(mods).Some? { CsiIsEscape("1;" + [ArrowParam(mods).value], final); }
      else { CsiIsEscape("", final); }
    }
    forall code | code in "56" ensures IsEscapeSequence(PageSequence(code, mods)) {
      if PageParam(mods).Some? { CsiIsEscape([code, ';', PageParam(mods).value], '~'); }
      else { CsiIsEscape([code], '~'); }
    }
    forall n | 1 <= n <= 12 ensures IsEscapeSequence(FunctionSequence(n, mods)) {
      var p := FunctionParam(mods);
      if n <= 4 {
        var final := "PQRS"[n - 1];
        if p.Some? { CsiIsEscape("1;" + [p.value], final); }
      } else {
        var code := FunctionCode(n);
        if p.Some? { CsiIsEscape(code + ";" + [p.value], '~'); }
        else { CsiIsEscape(code, '~'); }
      }
    }
  }

  /**
   * Whatever the key, a `StrInput` it produces is an ASCII escape sequence,
   * so it sends one byte per character.
   */
  lemma SequencesAreEscapes(kv: KeyVal, unicode: Option<char>, mods: set<Modifier>)
    requires KeyEvent(kv, unicode, mods).StrInput?
    ensures IsEscapeSequence(KeyEvent(kv, unicode, mods).escape)
    ensures |StringBytes(KeyEvent(kv, unicode, mods).escape)| == |KeyEvent(kv, unicode, mods).escape|
  {
    var e := KeyEvent(kv, unicode, mods);
    ReferenceSequencesAreEscapes(mods);
    if ArrowFinal(kv).Some? {
      ArrowKeys(kv, unicode, mods);
      assert ArrowFinal(kv).value in "ABCD";
    } else if 1 <= FunctionKeyNumber(kv) {
      FunctionKeys(kv, unicode, mods);
    } else if PageCode(kv).Some? {
      PageKeys(kv, unicode, mods);
      assert PageCode(kv).value in "56";
    } else if kv == TAB {
      TabKey(unicode, mods);
      CsiIsEscape("", 'Z');
    } else {
      InsertDeleteKeys(unicode, mods);
      CsiIsEscape("2", '~');
      CsiIsEscape("3", '~');
    }
    AsciiBytes(e.escape);
  }
}
