/**
 * VTxEmulator (emulator/VTxEmulator.java) as functions on values: what one
 * call of nextToken, given the token the tokenizer returned with its bytes
 * and arguments, does to the terminal, to the emulator's state (the DEC
 * modes, the scroll region, the saved cursor), to the replies sent back to
 * the host and to the title events sent to the listeners. The emulator
 * class in module Emulators is proved to follow these functions.
 */
module EmulatorSpec {
  import opened Wrappers
  import opened JavaLang
  import opened JavaAwt
  import opened Tokens
  import BlockMoves
  import StyleChars
  import EcmaMapping
  import CharPanes
  import Terminals

  type Terminal = Terminals.Terminal

  /** DecMode: the DEC private modes the emulator keeps, lcf being the pending wrap. */
  datatype DecMode = DecMode(
    lcf: bool, modeAutoWrap: bool, originMode: bool, bracketedPasteMode: bool,
    focusEvents: bool, applicationCursorKeys: bool, slowScroll: bool)

  /** DecMode.reset(): auto-wrap and focus events on, everything else off. */
  const DEC_MODE_RESET := DecMode(false, true, false, false, true, false, false)

  /**
   * EmulatorState: the scroll region (rows [regionY1, regionY2) when
   * hasRegion), the tab size, the cursor saved by DECSC and the last
   * character written, kept for CHARACTER_REPEAT.
   */
  datatype EmulatorState = EmulatorState(
    hasRegion: bool, regionY1: int, regionY2: int, tabSize: int,
    savedCursorX: int, savedCursorY: int, savedLcf: bool, savedStyle: bv32,
    savedCharSet: int, savedCharSetName: Option<string>,
    decMode: DecMode, lastChar: Option<seq<jbyte>>)

  /** The state after the constructor's resetState(). */
  const INITIAL_STATE := EmulatorState(false, 0, 0, 8, 0, 0, false, 0, 0, None, DEC_MODE_RESET, None)

  /** A notifyTermTitle event: the graph-mode type and its text. */
  datatype Title = Title(kind: int, text: string)

  /** Everything nextToken reads or changes, besides the token itself. */
  datatype Machine = Machine(
    term: Terminal, state: EmulatorState, replies: seq<string>, titles: seq<Title>, terminated: bool)

  /** One token as the tokenizer hands it over: its bytes, integer arguments, charset designator and string. */
  datatype Input = Input(token: Token, bytes: seq<jbyte>, args: seq<int>, charSet: char, strArg: string)

  predicate Valid(m: Machine)
  {
    Terminals.Valid(m.term) && m.state.tabSize > 0 && 0 <= m.state.savedCharSet < CharPanes.MAX_CHARSETS
  }

  function WithTerm(m: Machine, t: Terminal): Machine
  {
    m.(term := t)
  }

  function WithDecMode(m: Machine, d: DecMode): Machine
  {
    m.(state := m.state.(decMode := d))
  }

  function WithLcf(m: Machine, lcf: bool): Machine
  {
    WithDecMode(m, m.state.decMode.(lcf := lcf))
  }

  function Reply(m: Machine, s: string): Machine
  {
    m.(replies := m.replies + [s])
  }

  // ---------------------------------------------------------------------
  // Arguments

  /** arg1 and arg2: the first and second integer argument, 0 when absent. */
  function Arg1(args: seq<int>): int { if |args| > 0 then args[0] else 0 }
  function Arg2(args: seq<int>): int { if |args| > 1 then args[1] else 0 }

  /** The increment and repeat count: arg1 when positive, otherwise 1. */
  function Count(args: seq<int>): (n: int)
    ensures n >= 1
    ensures Arg1(args) > 0 ==> n == Arg1(args)
  {
    if Arg1(args) > 0 then Arg1(args) else 1
  }

  /**
   * Java's int division, which truncates toward zero: the remainder takes
   * the sign of the dividend, and a negative dividend gives the negated
   * quotient of its magnitude.
   */
  function JavaDiv(a: int, b: int): (q: int)
    requires b > 0
    ensures a >= 0 ==> q == a / b && 0 <= a - q * b < b
    ensures a < 0 ==> q == -((-a) / b) && -b < a - q * b <= 0
  {
    if a >= 0 then a / b else -((-a) / b)
  }

  // ---------------------------------------------------------------------
  // Cursor

  /** getRegionMinY / getRegionMaxY: the region's rows, or the whole screen. */
  function RegionMinY(m: Machine): int
  {
    if m.state.hasRegion then m.state.regionY1 else 0
  }

  function RegionMaxY(m: Machine): int
  {
    if m.state.hasRegion then m.state.regionY2 else m.term.rows
  }

  /** The row setCursor keeps: inside [regionY1, regionY2] while a region is set, the bottom bound included. */
  function RegionClamp(s: EmulatorState, y: int): int
  {
    if !s.hasRegion then y
    else if y < s.regionY1 then s.regionY1
    else if y >= s.regionY2 then s.regionY2
    else y
  }

  /** setCursor(x, y): the row clamped to the region, the pending wrap cleared. */
  function SetCursor(m: Machine, x: int, y: int): (r: Machine)
    requires Valid(m)
    ensures Valid(r) && !r.state.decMode.lcf
  {
    WithLcf(WithTerm(m, Terminals.SetCursor(m.term, x, RegionClamp(m.state, y))), false)
  }

  /**
   * moveCursor(dx, dy): the moved column clamped to [0, columns - 1] and
   * the moved row to [min, max - 1] of the region, or of the screen.
   */
  function MoveCursor(m: Machine, dx: int, dy: int): (r: Machine)
    requires Valid(m)
    ensures Valid(r)
  {
    var x := m.term.cursorX + dx;
    var y := m.term.cursorY + dy;
    var x := if x < 0 then 0 else x;
    var x := if x >= m.term.columns then m.term.columns - 1 else x;
    var y := if y >= RegionMaxY(m) then RegionMaxY(m) - 1 else y;
    var y := if y < RegionMinY(m) then RegionMinY(m) else y;
    SetCursor(m, x, y)
  }

  /** HT: the next multiple of the tab size, but no further than the last column. */
  function TabStop(x: int, tabSize: int, columns: int): int
    requires tabSize > 0
  {
    var next := (JavaDiv(x, tabSize) + 1) * tabSize;
    if next >= columns then columns - 1 else next
  }

  /** BS and DEL: one column left; from column 0 to the last column of the row above. */
  function BackSpace(m: Machine): (r: Machine)
    requires Valid(m)
    ensures Valid(r)
  {
    var x, y := m.term.cursorX - 1, m.term.cursorY;
    if x < 0 then SetCursor(m, m.term.columns - 1, y - 1) else SetCursor(m, x, y)
  }

  /** scrollLines(n, up): scroll the region, or the whole screen, by n lines. */
  function ScrollLines(m: Machine, n: int, up: bool): (r: Machine)
    requires Valid(m)
    ensures Valid(r)
  {
    WithTerm(m, Terminals.Scroll(m.term, RegionMinY(m), RegionMaxY(m), n, up))
  }

  /** LF, VT and FF: one row down; on the region's last row the region scrolls up instead. */
  function LineFeed(m: Machine): (r: Machine)
    requires Valid(m)
    ensures Valid(r)
  {
    var x, y := m.term.cursorX, m.term.cursorY;
    if y + 1 >= RegionMaxY(m) then SetCursor(ScrollLines(m, 1, true), x, RegionMaxY(m) - 1)
    else SetCursor(m, x, y + 1)
  }

  /** IND: like LF, but at the bottom only the region scrolls and the cursor is not set. */
  function Index(m: Machine): (r: Machine)
    requires Valid(m)
    ensures Valid(r)
  {
    var x, y := m.term.cursorX, m.term.cursorY;
    if y + 1 >= RegionMaxY(m) then ScrollLines(m, 1, true) else SetCursor(m, x, y + 1)
  }

  /** NEL: to column 0 of the next row, scrolling at the bottom. */
  function NextLine(m: Machine): (r: Machine)
    requires Valid(m)
    ensures Valid(r)
  {
    var y := m.term.cursorY;
    if y + 1 >= RegionMaxY(m) then SetCursor(ScrollLines(m, 1, true), 0, y) else SetCursor(m, 0, y + 1)
  }

  /** RI: one row up; on the region's first row the region scrolls down instead. */
  function ReverseIndex(m: Machine): (r: Machine)
    requires Valid(m)
    ensures Valid(r)
  {
    var x, y := m.term.cursorX, m.term.cursorY;
    if y - 1 < RegionMinY(m) then ScrollLines(m, 1, false) else SetCursor(m, x, y - 1)
  }

  /** autoNewline: column 0 of the next row; past the region's bottom the region scrolls up one line. */
  function AutoNewline(m: Machine): (r: Machine)
    requires Valid(m)
    ensures Valid(r) && !r.state.decMode.lcf
  {
    var y := m.term.cursorY + 1;
    if y >= RegionMaxY(m) then SetCursor(ScrollLines(m, 1, true), 0, RegionMaxY(m) - 1)
    else SetCursor(m, 0, y)
  }

  /** term.writeChar: the bytes at the cursor, which stays put. */
  function PutAtCursor(m: Machine, bytes: seq<jbyte>): (r: Machine)
    requires Valid(m)
    ensures Valid(r)
  {
    WithTerm(m, Terminals.WriteChar(m.term, bytes))
  }

  /**
   * writeChar as written. Off the last column: write and move right. On the
   * last column with auto-wrap: the first write sets the pending wrap; with
   * the wrap pending, a newline, then a write at column 0 where the cursor
   * stays. Without auto-wrap: write, then a newline.
   */
  function WriteCharAsWritten(m: Machine, bytes: seq<jbyte>): (r: Machine)
    requires Valid(m)
    ensures Valid(r)
  {
    var d := m.state.decMode;
    if m.term.cursorX == m.term.columns - 1 then
      if d.modeAutoWrap then
        if !d.lcf then WithLcf(PutAtCursor(m, bytes), true)
        else WithLcf(PutAtCursor(AutoNewline(m), bytes), false)
      else AutoNewline(PutAtCursor(m, bytes))
    else MoveCursor(PutAtCursor(m, bytes), 1, 0)
  }

  /**
   * writeChar as it is meant to work: the pending wrap is a newline
   * followed by an ordinary write, which moves the cursor on from column 0.
   */
  function WriteChar(m: Machine, bytes: seq<jbyte>): (r: Machine)
    requires Valid(m)
    ensures Valid(r)
    decreases if m.state.decMode.lcf then 1 else 0
  {
    var d := m.state.decMode;
    if m.term.cursorX == m.term.columns - 1 then
      if d.modeAutoWrap then
        if !d.lcf then WithLcf(PutAtCursor(m, bytes), true)
        else WriteChar(AutoNewline(m), bytes)
      else AutoNewline(PutAtCursor(m, bytes))
    else MoveCursor(PutAtCursor(m, bytes), 1, 0)
  }

  /** SET_REGION: no arguments reset the region to the screen; otherwise rows [arg1 - 1, arg2). The cursor goes to the top. */
  function SetRegion(m: Machine, args: seq<int>): (r: Machine)
    requires Valid(m)
    ensures Valid(r)
  {
    var s := if |args| == 0 then m.state.(regionY1 := 0, regionY2 := m.term.rows, hasRegion := false)
             else m.state.(regionY1 := Arg1(args) - 1, regionY2 := Arg2(args), hasRegion := true);
    SetCursor(m.(state := s), 0, s.regionY1)
  }

  /** SET_CURSOR (CUP): 1-based row;column to 0-based, missing ones 0, offset by the region top in origin mode. */
  function CursorPosition(m: Machine, args: seq<int>): (r: Machine)
    requires Valid(m)
    ensures Valid(r)
  {
    var y := if |args| > 0 then Arg1(args) - 1 else 0;
    var x := if |args| > 1 then Arg2(args) - 1 else 0;
    if m.state.decMode.originMode then SetCursor(m, x, y + m.state.regionY1) else SetCursor(m, x, y)
  }

  /** saveCursor: position, pending wrap, draw style, charset slot and its name. */
  function SaveCursor(m: Machine): (r: Machine)
    requires Valid(m)
    ensures Valid(r)
  {
    var t := m.term;
    m.(state := m.state.(savedCursorX := t.cursorX, savedCursorY := t.cursorY, savedLcf := m.state.decMode.lcf,
                         savedStyle := t.drawStyle, savedCharSet := t.charSet,
                         savedCharSetName := t.charSets[t.charSet]))
  }

  /** restoreCursor up to the charset name: position, pending wrap, draw style and charset slot. */
  function RestoreSlot(m: Machine): (r: Machine)
    requires Valid(m)
    ensures Valid(r)
  {
    var s := m.state;
    var m1 := WithLcf(SetCursor(m, s.savedCursorX, s.savedCursorY), s.savedLcf);
    WithTerm(m1, Terminals.SetCharSet(Terminals.SetDrawStyle(m1.term, s.savedStyle), s.savedCharSet))
  }

  /**
   * restoreCursor as written: the saved name goes through CharSet.valueOf,
   * which throws on the null name of a cursor never saved; nextToken's
   * caller then ends the session.
   */
  function RestoreCursorAsWritten(m: Machine): (r: Machine)
    requires Valid(m)
    ensures Valid(r)
  {
    var m1 := RestoreSlot(m);
    match m.state.savedCharSetName
    case Some(name) => WithTerm(m1, Terminals.DesignateCharSet(m1.term, m.state.savedCharSet, name))
    case None => m1.(terminated := true)
  }

  /** restoreCursor as it is meant to work: a missing name leaves the charset table alone. */
  function RestoreCursor(m: Machine): (r: Machine)
    requires Valid(m)
    ensures Valid(r)
  {
    var m1 := RestoreSlot(m);
    match m.state.savedCharSetName
    case Some(name) => WithTerm(m1, Terminals.DesignateCharSet(m1.term, m.state.savedCharSet, name))
    case None => m1
  }

  // ---------------------------------------------------------------------
  // Loops over cells

  /** putChar(bytes, x + i, y) for i from 0 to n - 1. */
  function PutRun(t: Terminal, bytes: seq<jbyte>, x: int, y: int, n: int): (r: Terminal)
    requires Terminals.Valid(t)
    ensures Terminals.Valid(r) && r == t.(screen := r.screen)
    decreases n
  {
    if n <= 0 then t else Terminals.PutChar(PutRun(t, bytes, x, y, n - 1), bytes, x + n - 1, y)
  }

  /** DELETE_LINES: spaces over columns [0, columns - 1) of rows y to y + n - 1. */
  function BlankLines(t: Terminal, y: int, n: int): (r: Terminal)
    requires Terminals.Valid(t)
    ensures Terminals.Valid(r) && r == t.(screen := r.screen)
    decreases n
  {
    if n <= 0 then t else PutRun(BlankLines(t, y, n - 1), CharPanes.SPACE_BYTES, 0, y + n - 1, t.columns - 1)
  }

  /** The byte decScreenAlignmentTest writes. */
  const E_BYTES: seq<jbyte> := ['E' as int]

  /** decScreenAlignmentTest's loops: 'E' over every column of rows y1 to y1 + n - 1. */
  function FillRows(t: Terminal, y1: int, n: int): (r: Terminal)
    requires Terminals.Valid(t)
    ensures Terminals.Valid(r) && r == t.(screen := r.screen)
    decreases n
  {
    if n <= 0 then t else PutRun(FillRows(t, y1, n - 1), E_BYTES, 0, y1 + n - 1, t.columns)
  }

  /**
   * One pass of INSERT_BLANK_CHARS: the rest of the row moves right by one,
   * a space at the cursor. Right of the last column the move's width is
   * negative and its loop runs away; there is then nothing to shift.
   */
  function InsertBlank(t: Terminal, x: int, y: int): (r: Terminal)
    requires Terminals.Valid(t)
    ensures Terminals.Valid(r) && r == t.(screen := r.screen)
  {
    var moved := Terminals.Move(t, BlockMoves.Block(x, y, t.columns - x, 1, x + 1, y));
    Terminals.PutChar(if moved.Some? then moved.value else t, CharPanes.SPACE_BYTES, x, y)
  }

  /** n passes of INSERT_BLANK_CHARS: the first pass, then the other n - 1. */
  function InsertBlanks(t: Terminal, x: int, y: int, n: int): (r: Terminal)
    requires Terminals.Valid(t)
    ensures Terminals.Valid(r) && r == t.(screen := r.screen)
    decreases n
  {
    if n <= 0 then t else InsertBlanks(InsertBlank(t, x, y), x, y, n - 1)
  }

  /** writeChar(bytes) n times. */
  function WriteChars(m: Machine, bytes: seq<jbyte>, n: int): (r: Machine)
    requires Valid(m)
    ensures Valid(r)
    decreases n
  {
    if n <= 0 then m else WriteChar(WriteChars(m, bytes, n - 1), bytes)
  }

  /** CHARACTER_REPEAT: the last character n times; before any character the null array throws. */
  function RepeatChar(m: Machine, n: int): (r: Machine)
    requires Valid(m)
    ensures Valid(r)
  {
    match m.state.lastChar
    case Some(bytes) => WriteChars(m, bytes, n)
    case None => m.(terminated := true)
  }

  /** decScreenAlignmentTest: 'E' over the region's rows, or the screen's. */
  function Alignment(m: Machine): (r: Machine)
    requires Valid(m)
    ensures Valid(r)
  {
    var y1 := if m.state.hasRegion then m.state.regionY1 else 0;
    var y2 := if m.state.hasRegion then m.state.regionY2 else m.term.rows;
    WithTerm(m, FillRows(m.term, y1, y2 - y1))
  }

  /** The columns [x1, x2) of the cursor's row that LINE_ERASE clears: 0 from the cursor on, 1 up to the cursor, 2 the whole row. */
  function LineEraseSpan(t: Terminal, mode: int): Option<(int, int)>
  {
    if mode == 0 then Some((t.cursorX, t.columns))
    else if mode == 1 then Some((0, t.cursorX + 1))
    else if mode == 2 then Some((0, t.columns))
    else None
  }

  /** LINE_ERASE: the span of the cursor's row for the mode (0 without arguments); another mode is only logged. */
  function LineErase(m: Machine, args: seq<int>): (r: Machine)
    requires Valid(m)
    ensures Valid(r)
  {
    var t := m.term;
    var mode := if |args| > 0 then Arg1(args) else 0;
    match LineEraseSpan(t, mode)
    case Some(span) => WithTerm(m, Terminals.ClearArea(t, span.0, t.cursorY, span.1, t.cursorY + 1))
    case None => m
  }

  /** An area (x1, y1) to (x2, y2) for clearArea. */
  datatype Area = Area(x1: int, y1: int, x2: int, y2: int)

  /**
   * The two areas SCREEN_ERASE clears for mode 0 (the rest of the cursor's
   * row, then the rows below) and mode 1 (the rows above, then the
   * cursor's row up to the cursor). Both first areas end on the cursor's
   * row, which clearArea widens to one row.
   */
  function ScreenEraseAreas(t: Terminal, mode: int): (Area, Area)
  {
    var x, y := t.cursorX, t.cursorY;
    if mode == 0 then (Area(x, y, t.columns, y), Area(0, y + 1, t.columns, t.rows))
    else (Area(0, 0, t.columns, y), Area(0, y, x + 1, y))
  }

  function ClearIn(t: Terminal, a: Area): (r: Terminal)
    requires Terminals.Valid(t)
    ensures Terminals.Valid(r)
  {
    Terminals.ClearArea(t, a.x1, a.y1, a.x2, a.y2)
  }

  /** SCREEN_ERASE: 0 from the cursor on, 1 up to the cursor, 2 (the default) everything and the cursor home. */
  function ScreenErase(m: Machine, args: seq<int>): (r: Machine)
    requires Valid(m)
    ensures Valid(r)
  {
    var t := m.term;
    var mode := if |args| > 0 then Arg1(args) else 2;
    if mode == 0 || mode == 1 then
      var areas := ScreenEraseAreas(t, mode);
      WithTerm(m, ClearIn(ClearIn(t, areas.0), areas.1))
    else if mode == 2 then SetCursor(WithTerm(m, Terminals.ClearArea(t, 0, 0, t.columns, t.rows)), 0, 0)
    else m
  }

  // ---------------------------------------------------------------------
  // SGR (handleSetFontStyle)

  /** The colour-index change of a plain SGR number. */
  datatype ColorChange = Fore(index: int) | Back(index: int) | NoChange

  /**
   * The colour branches of handleSetFontStyle as written: 30-37 and 40-47
   * pick palette entries 0-7, 90-97 and 100-107 entries 8-15, and 39
   * resets the background while 49 resets the foreground.
   */
  function PlainColorAsWritten(mode: int): ColorChange
  {
    if 30 <= mode <= 37 then Fore(mode - 30)
    else if 40 <= mode <= 47 then Back(mode - 40)
    else if mode == 39 then Back(-1)
    else if mode == 49 then Fore(-1)
    else if 90 <= mode <= 97 then Fore(mode - 90 + 8)
    else if 100 <= mode <= 107 then Back(mode - 100 + 8)
    else NoChange
  }

  /**
   * The colour branches as section 8.3.117 of ECMA-48 defines them: 39 is
   * the default foreground and 49 the default background.
   */
  function PlainColor(mode: int): ColorChange
  {
    if mode == 39 then Fore(-1)
    else if mode == 49 then Back(-1)
    else PlainColorAsWritten(mode)
  }

  function ApplyColorChange(t: Terminal, c: ColorChange): (r: Terminal)
    requires Terminals.Valid(t)
    ensures Terminals.Valid(r)
  {
    match c
    case Fore(n) => Terminals.SetDrawForeground(t, n)
    case Back(n) => Terminals.SetDrawBackground(t, n)
    case NoChange => t
  }

  /** One SGR number other than 38/48: a registered ECMA mode changes the style word, else a colour. */
  function SgrMode(t: Terminal, mode: int): (r: Terminal)
    requires Terminals.Valid(t)
    ensures Terminals.Valid(r)
  {
    if EcmaMapping.HasMode(mode) then Terminals.SetDrawStyle(t, EcmaMapping.Apply(t.drawStyle, mode))
    else ApplyColorChange(t, PlainColor(mode))
  }

  function SgrModeAsWritten(t: Terminal, mode: int): (r: Terminal)
    requires Terminals.Valid(t)
    ensures Terminals.Valid(r)
  {
    if EcmaMapping.HasMode(mode) then Terminals.SetDrawStyle(t, EcmaMapping.Apply(t.drawStyle, mode))
    else ApplyColorChange(t, PlainColorAsWritten(mode))
  }

  /** safeNext: the argument at position p, or -1 past the end. */
  function SafeNext(args: seq<int>, p: int): int
  {
    if 0 <= p < |args| then args[p] else -1
  }

  /** The position after safeNext at p: one further unless the end is reached. */
  function Advance(args: seq<int>, p: nat): (q: nat)
    requires p <= |args|
    ensures p <= q <= |args|
  {
    if p < |args| then p + 1 else p
  }

  /** The custom colour of 38;2;r;g;b (foreground) or 48;2;r;g;b (background). */
  function SetRgb(t: Terminal, isFG: bool, c: Color): Terminal
  {
    if isFG then t.(customForeground := Some(c)) else t.(customBackground := Some(c))
  }

  /** The palette index of 38;5;n or 48;5;n. */
  function SetIndex(t: Terminal, isFG: bool, n: int): Terminal
  {
    if isFG then Terminals.SetDrawForeground(t, n) else Terminals.SetDrawBackground(t, n)
  }

  /**
   * handleSetFontStyle's iterator loop from position i: 38 and 48 read a
   * sub-mode (2 with at least five arguments in all: r, g, b; 5: an index);
   * an RGB triple outside [0, 255] makes new Color throw, which ends the
   * session.
   */
  function Sgr(m: Machine, args: seq<int>, i: nat): (r: Machine)
    requires Valid(m) && i <= |args|
    ensures Valid(r)
    decreases |args| - i
  {
    if i == |args| then m
    else
      var mode := args[i];
      if mode == 38 || mode == 48 then
        var isFG := mode == 38;
        var subMode := SafeNext(args, i + 1);
        var p := Advance(args, i + 1);
        if subMode == 2 && |args| >= 5 then
          var c := Color(SafeNext(args, p), SafeNext(args, Advance(args, p)), SafeNext(args, Advance(args, Advance(args, p))));
          if ValidColor(c) then Sgr(WithTerm(m, SetRgb(m.term, isFG, c)), args, Advance(args, Advance(args, Advance(args, p))))
          else m.(terminated := true)
        else if subMode == 5 then
          Sgr(WithTerm(m, SetIndex(m.term, isFG, SafeNext(args, p))), args, Advance(args, p))
        else Sgr(m, args, p)
      else Sgr(WithTerm(m, SgrMode(m.term, mode)), args, i + 1)
  }

  /** handleSetFontStyle: no arguments is style 0, otherwise the loop. */
  function SetFontStyle(m: Machine, args: seq<int>): (r: Machine)
    requires Valid(m)
    ensures Valid(r)
  {
    if |args| == 0 then WithTerm(m, Terminals.SetDrawStyle(m.term, 0)) else Sgr(m, args, 0)
  }

  // ---------------------------------------------------------------------
  // DEC private modes (handleDecMode)

  /** The DEC private modes whose flag is the terminal's: 5 reverse video, 12 cursor blink, 25 cursor shown. */
  predicate DisplayMode(mode: int)
  {
    mode == 5 || mode == 12 || mode == 25
  }

  /** The emulator's own flags: 1 application cursor keys, 4 slow scroll, 7 auto-wrap, 1004 focus events, 2004 bracketed paste. */
  function StateFlag(d: DecMode, mode: int, value: bool): DecMode
  {
    match mode
    case 1 => d.(applicationCursorKeys := value)
    case 4 => d.(slowScroll := value)
    case 7 => d.(modeAutoWrap := value)
    case 1004 => d.(focusEvents := value)
    case 2004 => d.(bracketedPasteMode := value)
    case _ => d
  }

  function DisplayFlag(t: Terminal, mode: int, value: bool): (r: Terminal)
    requires Terminals.Valid(t)
    ensures Terminals.Valid(r)
  {
    match mode
    case 5 => Terminals.SetDisplayFlags(t, value, t.cursorBlink, t.showCursor)
    case 12 => Terminals.SetDisplayFlags(t, t.reverseVideo, value, t.showCursor)
    case 25 => Terminals.SetDisplayFlags(t, t.reverseVideo, t.cursorBlink, value)
    case _ => t
  }

  /** The DEC private modes that only switch a flag of the emulator or of the terminal. */
  function DecModeFlag(m: Machine, mode: int, value: bool): (r: Machine)
    requires Valid(m)
    ensures Valid(r)
  {
    if DisplayMode(mode) then WithTerm(m, DisplayFlag(m.term, mode, value))
    else WithDecMode(m, StateFlag(m.state.decMode, mode, value))
  }

  /** Mode 3 (column switch): the cursor home and the text cleared. */
  function ColumnMode(m: Machine): (r: Machine)
    requires Valid(m)
    ensures Valid(r)
  {
    var m1 := SetCursor(m, 0, 0);
    WithTerm(m1, Terminals.ClearText(m1.term))
  }

  /** Mode 6 (origin): set, the cursor to the region's top; reset, the region dropped and the cursor home. */
  function OriginMode(m: Machine, value: bool): (r: Machine)
    requires Valid(m)
    ensures Valid(r)
  {
    var m1 := WithDecMode(m, m.state.decMode.(originMode := value));
    if value then SetCursor(m1, 0, m1.state.regionY1)
    else SetCursor(m1.(state := m1.state.(hasRegion := false)), 0, 0)
  }

  /**
   * Mode 1049: set saves the cursor, turns on application keys and clears
   * the alternate screen it switches to; reset switches back and restores.
   */
  function AltScreenMode(m: Machine, value: bool): (r: Machine)
    requires Valid(m)
    ensures Valid(r)
  {
    if value then
      var m1 := SaveCursor(m);
      var m2 := WithDecMode(m1, m1.state.decMode.(applicationCursorKeys := true));
      WithTerm(m2, Terminals.ClearText(Terminals.SetAltScreen(m2.term, true)))
    else
      var m1 := WithDecMode(m, m.state.decMode.(applicationCursorKeys := false));
      RestoreCursor(WithTerm(m1, Terminals.SetAltScreen(m1.term, false)))
  }

  /** One DEC private mode set (value) or reset. */
  function DecModeStep(m: Machine, mode: int, value: bool): (r: Machine)
    requires Valid(m)
    ensures Valid(r)
  {
    if mode == 3 then ColumnMode(m)
    else if mode == 6 then OriginMode(m, value)
    else if mode == 45 then WithTerm(m, Terminals.SetAltScreen(m.term, value))
    else if mode == 1048 then (if value then SaveCursor(m) else RestoreCursor(m))
    else if mode == 1049 then AltScreenMode(m, value)
    else DecModeFlag(m, mode, value)
  }

  /** handleDecMode's loop over its first n arguments: the first n - 1, then argument n - 1. */
  function DecModes(m: Machine, args: seq<int>, n: nat, value: bool): (r: Machine)
    requires Valid(m) && n <= |args|
    ensures Valid(r)
  {
    if n == 0 then m else DecModeStep(DecModes(m, args, n - 1, value), args[n - 1], value)
  }

  // ---------------------------------------------------------------------
  // Charsets

  /** TermConst.CharSet. */
  datatype CharSet =
    CHARSET_GRAPHICS | CHARSET_UK | CHARSET_US | CHARSET_DUTCH | CHARSET_FINNISH
    | CHARSET_FRENCH | CHARSET_GERMAN | CHARSET_SWEDISH | CHARSET_NORDANISH | CHARSET_OTHER

  /** The enum constant's name, as toString gives it and valueOf reads it. */
  function CharSetName(c: CharSet): string
  {
    match c
    case CHARSET_GRAPHICS => "CHARSET_GRAPHICS"
    case CHARSET_UK => "CHARSET_UK"
    case CHARSET_US => "CHARSET_US"
    case CHARSET_DUTCH => "CHARSET_DUTCH"
    case CHARSET_FINNISH => "CHARSET_FINNISH"
    case CHARSET_FRENCH => "CHARSET_FRENCH"
    case CHARSET_GERMAN => "CHARSET_GERMAN"
    case CHARSET_SWEDISH => "CHARSET_SWEDISH"
    case CHARSET_NORDANISH => "CHARSET_NORDANISH"
    case CHARSET_OTHER => "CHARSET_OTHER"
  }

  /** mapCharSet: the designator character of an SCS sequence to a charset. */
  function MapCharSet(c: char): CharSet
  {
    match c
    case '\U{000F}' => CHARSET_GRAPHICS
    case '0' => CHARSET_GRAPHICS
    case 'A' => CHARSET_UK
    case 'B' => CHARSET_US
    case '4' => CHARSET_DUTCH
    case 'C' => CHARSET_FINNISH
    case '5' => CHARSET_FINNISH
    case 'E' => CHARSET_NORDANISH
    case '6' => CHARSET_NORDANISH
    case 'H' => CHARSET_SWEDISH
    case '7' => CHARSET_SWEDISH
    case 'K' => CHARSET_GERMAN
    case 'R' => CHARSET_FRENCH
    case 'Q' => CHARSET_FRENCH
    case _ => CHARSET_OTHER
  }

  /** CHARSET_Gn_DES: slot n holds the designated charset. */
  function Designate(m: Machine, slot: int, c: char): (r: Machine)
    requires Valid(m) && 0 <= slot < CharPanes.MAX_CHARSETS
    ensures Valid(r)
  {
    WithTerm(m, Terminals.DesignateCharSet(m.term, slot, CharSetName(MapCharSet(c))))
  }

  // ---------------------------------------------------------------------
  // Replies and events

  const ESC: string := "\U{001B}"

  /** sendPrimaryDA: a VT100 with the advanced video option. */
  const PRIMARY_DA: string := ESC + "[?1;2c"

  /** sendSecondaryDA: terminal type 0, version 115, no firmware. */
  const SECONDARY_DA: string := ESC + "[>0;115;0c"

  /** sendCursor(x, y): ESC [ row ; column R, both 1-based. */
  function CursorReport(x: int, y: int): string
  {
    ESC + "[" + IntToString(y + 1) + ";" + IntToString(x + 1) + "R"
  }

  /** sendSize(cols, rows): ESC [ 8 ; rows ; cols t. */
  function SizeReport(cols: int, rows: int): string
  {
    ESC + "[8;" + IntToString(rows) + ";" + IntToString(cols) + "t"
  }

  /** sendXTSMGRAPHICS(id, status, val): ESC [ ? id ; status ; val S. */
  function GraphicsReport(id: int, status: int, val: int): string
  {
    ESC + "[?" + IntToString(id) + ";" + IntToString(status) + ";" + IntToString(val) + "S"
  }

  /** DEVICE_STATUS: 6 asks for the cursor position. */
  function DeviceStatus(m: Machine, args: seq<int>): Machine
  {
    if Arg1(args) == 6 then Reply(m, CursorReport(m.term.cursorX, m.term.cursorY)) else m
  }

  /** handleGraphMode: types 0, 1 and 2 are title events for the listeners. */
  function GraphMode(m: Machine, kind: int, text: string): (r: Machine)
  {
    if kind == 0 || kind == 1 || kind == 2 then m.(titles := m.titles + [Title(kind, text)]) else m
  }

  /** handleWindowManipulation: 18 reports the size in characters. */
  function WindowManipulation(m: Machine, args: seq<int>): (r: Machine)
  {
    if |args| == 0 then m
    else if args[0] == 18 then Reply(m, SizeReport(m.term.columns, m.term.rows))
    else m
  }

  /** handleXtermSetGetGraphics: for id 1 (colour registers) get and max answer 1024, set and reset echo the value. */
  function SetGetGraphics(m: Machine, args: seq<int>): (r: Machine)
  {
    if |args| < 3 || args[0] != 1 then m
    else if args[1] == 1 || args[1] == 4 then Reply(m, GraphicsReport(1, 0, 1024))
    else if args[1] == 2 || args[1] == 3 then Reply(m, GraphicsReport(1, 0, args[2]))
    else m
  }

  // ---------------------------------------------------------------------
  // nextToken

  /** The scroll count of SCROLL_UP and SCROLL_DOWN as written: arg1, so 0 without arguments. */
  function ScrollCountAsWritten(args: seq<int>): int
  {
    Arg1(args)
  }

  /** The scroll count as section 8.3.147 of ECMA-48 defines it: the argument, 1 by default. */
  function ScrollCount(args: seq<int>): (n: int)
    ensures n >= 1
  {
    Count(args)
  }

  /** CHAR: the bytes are kept as the last character and written. */
  function WriteToken(m: Machine, bytes: seq<jbyte>): (r: Machine)
    requires Valid(m)
    ensures Valid(r)
  {
    WriteChar(m.(state := m.state.(lastChar := Some(bytes))), bytes)
  }

  /** HT: the cursor to the next tab stop on the same row. */
  function HorizontalTab(m: Machine): (r: Machine)
    requires Valid(m)
    ensures Valid(r)
  {
    SetCursor(m, TabStop(m.term.cursorX, m.state.tabSize, m.term.columns), m.term.cursorY)
  }

  /**
   * DEL_CHAR: the rest of the row from n columns right of the cursor moves
   * onto the cursor. When n reaches past the last column the move's width
   * is negative and its loop runs away; the row is then blanked from the
   * cursor on, as deleting every remaining character means.
   */
  function DeleteChars(m: Machine, n: int): (r: Machine)
    requires Valid(m)
    ensures Valid(r)
  {
    var t := m.term;
    match Terminals.Move(t, DeleteBlock(t, n))
    case Some(moved) => WithTerm(m, moved)
    case None => WithTerm(m, Terminals.BlankRowFrom(t, t.cursorX, t.cursorY))
  }

  /** The block DEL_CHAR moves: the rest of the row from n columns right of the cursor. */
  function DeleteBlock(t: Terminal, n: int): BlockMoves.Block
  {
    BlockMoves.Block(t.cursorX + n, t.cursorY, t.columns - t.cursorX - n, 1, t.cursorX, t.cursorY)
  }

  /** ERASE_CHARS: n spaces from the cursor on; the cursor stays. */
  function EraseChars(m: Machine, n: int): (r: Machine)
    requires Valid(m)
    ensures Valid(r)
  {
    var t := m.term;
    SetCursor(WithTerm(m, PutRun(t, CharPanes.SPACE_BYTES, t.cursorX, t.cursorY, n)), t.cursorX, t.cursorY)
  }

  /** DELETE_LINES: n rows from the cursor's blanked; the cursor stays. */
  function DeleteLines(m: Machine, n: int): (r: Machine)
    requires Valid(m)
    ensures Valid(r)
  {
    var t := m.term;
    SetCursor(WithTerm(m, BlankLines(t, t.cursorY, n)), t.cursorX, t.cursorY)
  }

  /** INSERT_LINES: the rows from the cursor to the region's bottom scroll down by n. */
  function InsertLines(m: Machine, n: int): (r: Machine)
    requires Valid(m)
    ensures Valid(r)
  {
    WithTerm(m, Terminals.Scroll(m.term, m.term.cursorY, RegionMaxY(m), n, false))
  }

  /** INSERT_BLANK_CHARS: n blanks inserted at the cursor. */
  function InsertBlankChars(m: Machine, n: int): (r: Machine)
    requires Valid(m)
    ensures Valid(r)
  {
    WithTerm(m, InsertBlanks(m.term, m.term.cursorX, m.term.cursorY, n))
  }

  /** CHARSET_G0 and CHARSET_G1 (SI and SO): the slot putChar reads. */
  function SelectCharSet(m: Machine, slot: int): (r: Machine)
    requires Valid(m) && 0 <= slot < CharPanes.MAX_CHARSETS
    ensures Valid(r)
  {
    WithTerm(m, Terminals.SetCharSet(m.term, slot))
  }

  /** The cases of nextToken's switch, in small groups of related tokens. */
  datatype Group =
    | EndOfStream | Identification | XtermControl
    | TabAndReturn | CursorMove | CursorSet
    | LineFeeds | Indexes | RegionAndSaved
    | Writing | LineEdits | CharEdits | Erasing
    | Rendition | CharSets
    | Ignored

  function GroupOf(token: Token): Group
  {
    if token == EOF || token == EOT then EndOfStream
    else if token == DECID_SEND_TERM_ID || token == REQ_PRIMARY_DA || token == REQ_SECONDARY_DA || token == DEVICE_STATUS then Identification
    else if token == OSC_GRAPHMODE || token == XTERM_WIN_MANIPULATION || token == XTERM_SETGET_GRAPHICS then XtermControl
    else if token == HT || token == DEL || token == BS || token == CR then TabAndReturn
    else if token == UP || token == DOWN || token == LEFT || token == RIGHT then CursorMove
    else if token == SET_COLUMN || token == SET_ROW || token == SET_CURSOR then CursorSet
    else if token == LF || token == VT || token == FF then LineFeeds
    else if token == IND_INDEX || token == NEL_NEXT_LINE || token == RI_REVERSE_INDEX then Indexes
    else if token == SET_REGION || token == SAVE_CURSOR || token == RESTORE_CURSOR then RegionAndSaved
    else if token == CHAR || token == CHARACTER_REPEAT then Writing
    else if token == SCROLL_UP || token == SCROLL_DOWN || token == INSERT_LINES || token == DELETE_LINES then LineEdits
    else if token == DEL_CHAR || token == ERASE_CHARS || token == INSERT_BLANK_CHARS then CharEdits
    else if token == LINE_ERASE || token == SCREEN_ERASE || token == DEC_SCREEN_ALIGNMENT then Erasing
    else if token == CHARACTER_ATTRS || token == DEC_SETMODE || token == DEC_RESETMODE then Rendition
    else if token == CHARSET_G0 || token == CHARSET_G1 || token == CHARSET_G0_DES || token == CHARSET_G1_DES || token == CHARSET_G2_DES || token == CHARSET_G3_DES then CharSets
    else Ignored
  }

  /** EOF and EOT end the session. */
  function EndOfStreamToken(m: Machine, inp: Input): (r: Machine)
    requires Valid(m)
    ensures Valid(r)
  {
    if inp.token == EOF || inp.token == EOT then m.(terminated := true)
    else m
  }

  /** The identification and status requests, answered by a reply. */
  function IdentificationToken(m: Machine, inp: Input): (r: Machine)
    requires Valid(m)
    ensures Valid(r)
  {
    if inp.token == DECID_SEND_TERM_ID || inp.token == REQ_PRIMARY_DA then Reply(m, PRIMARY_DA)
    else if inp.token == REQ_SECONDARY_DA then Reply(m, SECONDARY_DA)
    else if inp.token == DEVICE_STATUS then DeviceStatus(m, inp.args)
    else m
  }

  /** Titles, window operations and graphics attributes of xterm. */
  function XtermControlToken(m: Machine, inp: Input): (r: Machine)
    requires Valid(m)
    ensures Valid(r)
  {
    if inp.token == OSC_GRAPHMODE then GraphMode(m, Arg1(inp.args), inp.strArg)
    else if inp.token == XTERM_WIN_MANIPULATION then WindowManipulation(m, inp.args)
    else if inp.token == XTERM_SETGET_GRAPHICS then SetGetGraphics(m, inp.args)
    else m
  }

  /** HT, BS, DEL and CR: moves along the cursor's row. */
  function TabAndReturnToken(m: Machine, inp: Input): (r: Machine)
    requires Valid(m)
    ensures Valid(r)
  {
    if inp.token == HT then HorizontalTab(m)
    else if inp.token == DEL || inp.token == BS then BackSpace(m)
    else if inp.token == CR then SetCursor(m, 0, m.term.cursorY)
    else m
  }

  /** CUU, CUD, CUB and CUF: relative moves by the count. */
  function CursorMoveToken(m: Machine, inp: Input): (r: Machine)
    requires Valid(m)
    ensures Valid(r)
  {
    var n := Count(inp.args);
    if inp.token == UP then MoveCursor(m, 0, -n)
    else if inp.token == DOWN then MoveCursor(m, 0, n)
    else if inp.token == LEFT then MoveCursor(m, -n, 0)
    else if inp.token == RIGHT then MoveCursor(m, n, 0)
    else m
  }

  /** Absolute moves: the column, the row, or both. */
  function CursorSetToken(m: Machine, inp: Input): (r: Machine)
    requires Valid(m)
    ensures Valid(r)
  {
    if inp.token == SET_COLUMN then SetCursor(m, Arg1(inp.args) - 1, m.term.cursorY)
    else if inp.token == SET_ROW then SetCursor(m, m.term.cursorX, Arg1(inp.args) - 1)
    else if inp.token == SET_CURSOR then CursorPosition(m, inp.args)
    else m
  }

  /** LF, VT and FF. */
  function LineFeedsToken(m: Machine, inp: Input): (r: Machine)
    requires Valid(m)
    ensures Valid(r)
  {
    if inp.token == LF || inp.token == VT || inp.token == FF then LineFeed(m)
    else m
  }

  /** IND, NEL and RI. */
  function IndexesToken(m: Machine, inp: Input): (r: Machine)
    requires Valid(m)
    ensures Valid(r)
  {
    if inp.token == IND_INDEX then Index(m)
    else if inp.token == NEL_NEXT_LINE then NextLine(m)
    else if inp.token == RI_REVERSE_INDEX then ReverseIndex(m)
    else m
  }

  /** The scroll region and the saved cursor. */
  function RegionAndSavedToken(m: Machine, inp: Input): (r: Machine)
    requires Valid(m)
    ensures Valid(r)
  {
    if inp.token == SET_REGION then SetRegion(m, inp.args)
    else if inp.token == SAVE_CURSOR then SaveCursor(m)
    else if inp.token == RESTORE_CURSOR then RestoreCursor(m)
    else m
  }

  /** A character and its repetition. */
  function WritingToken(m: Machine, inp: Input): (r: Machine)
    requires Valid(m)
    ensures Valid(r)
  {
    if inp.token == CHAR then WriteToken(m, inp.bytes)
    else if inp.token == CHARACTER_REPEAT then RepeatChar(m, Count(inp.args))
    else m
  }

  /** Scrolling, inserting and deleting whole lines. */
  function LineEditsToken(m: Machine, inp: Input): (r: Machine)
    requires Valid(m)
    ensures Valid(r)
  {
    if inp.token == SCROLL_UP then ScrollLines(m, ScrollCount(inp.args), true)
    else if inp.token == SCROLL_DOWN then ScrollLines(m, ScrollCount(inp.args), false)
    else if inp.token == INSERT_LINES then InsertLines(m, Count(inp.args))
    else if inp.token == DELETE_LINES then DeleteLines(m, Count(inp.args))
    else m
  }

  /** Deleting, erasing and inserting characters on the cursor's row. */
  function CharEditsToken(m: Machine, inp: Input): (r: Machine)
    requires Valid(m)
    ensures Valid(r)
  {
    if inp.token == DEL_CHAR then DeleteChars(m, Count(inp.args))
    else if inp.token == ERASE_CHARS then EraseChars(m, Count(inp.args))
    else if inp.token == INSERT_BLANK_CHARS then InsertBlankChars(m, Count(inp.args))
    else m
  }

  /** Erasing in the line or the screen, and the alignment fill. */
  function ErasingToken(m: Machine, inp: Input): (r: Machine)
    requires Valid(m)
    ensures Valid(r)
  {
    if inp.token == LINE_ERASE then LineErase(m, inp.args)
    else if inp.token == SCREEN_ERASE then ScreenErase(m, inp.args)
    else if inp.token == DEC_SCREEN_ALIGNMENT then Alignment(m)
    else m
  }

  /** Character attributes and DEC private modes. */
  function RenditionToken(m: Machine, inp: Input): (r: Machine)
    requires Valid(m)
    ensures Valid(r)
  {
    if inp.token == CHARACTER_ATTRS then SetFontStyle(m, inp.args)
    else if inp.token == DEC_SETMODE then DecModes(m, inp.args, |inp.args|, true)
    else if inp.token == DEC_RESETMODE then DecModes(m, inp.args, |inp.args|, false)
    else m
  }

  /** SI and SO select a slot; SCS designates the charset of a slot. */
  function CharSetsToken(m: Machine, inp: Input): (r: Machine)
    requires Valid(m)
    ensures Valid(r)
  {
    if inp.token == CHARSET_G0 then SelectCharSet(m, 0)
    else if inp.token == CHARSET_G1 then SelectCharSet(m, 1)
    else if inp.token == CHARSET_G0_DES then Designate(m, 0, inp.charSet)
    else if inp.token == CHARSET_G1_DES then Designate(m, 1, inp.charSet)
    else if inp.token == CHARSET_G2_DES then Designate(m, 2, inp.charSet)
    else if inp.token == CHARSET_G3_DES then Designate(m, 3, inp.charSet)
    else m
  }

  /**
   * One pass of nextToken's switch. The tokens it has no case for, and
   * those it only logs (NUL, BEL, SET_MODE, RESET_MODE, REQ_XTVERSION,
   * DCS_DEVICE_CONTROL_STRING, the unsupported ones), leave the machine as
   * it is.
   */
  function NextToken(m: Machine, inp: Input): (r: Machine)
    requires Valid(m)
    ensures Valid(r)
  {
    match GroupOf(inp.token)
    case EndOfStream => EndOfStreamToken(m, inp)
    case Identification => IdentificationToken(m, inp)
    case XtermControl => XtermControlToken(m, inp)
    case TabAndReturn => TabAndReturnToken(m, inp)
    case CursorMove => CursorMoveToken(m, inp)
    case CursorSet => CursorSetToken(m, inp)
    case LineFeeds => LineFeedsToken(m, inp)
    case Indexes => IndexesToken(m, inp)
    case RegionAndSaved => RegionAndSavedToken(m, inp)
    case Writing => WritingToken(m, inp)
    case LineEdits => LineEditsToken(m, inp)
    case CharEdits => CharEditsToken(m, inp)
    case Erasing => ErasingToken(m, inp)
    case Rendition => RenditionToken(m, inp)
    case CharSets => CharSetsToken(m, inp)
    case Ignored => m
  }

  /**
   * start()'s loop over the first n tokens of a stream: nextToken for each
   * until the session is ended (signalTerminate); a token after the end is
   * never read.
   */
  function Run(m: Machine, inputs: seq<Input>, n: nat): (r: Machine)
    requires Valid(m) && n <= |inputs|
    ensures Valid(r)
  {
    if n == 0 then m
    else
      var p := Run(m, inputs, n - 1);
      if p.terminated then p else NextToken(p, inputs[n - 1])
  }
}
