/**
 * VTxEmulator (emulator/VTxEmulator.java) as a class: the terminal it
 * draws on, its EmulatorState, the replies it sends to the host, the
 * title events it fires and signalTerminate. Every method changes these
 * fields step by step, and is proved to end in the state the matching
 * function of EmulatorSpec computes from the old one; the properties of
 * those functions are proved in EmulatorProps and EmulatorModeProps.
 * Where the Java code has a defect, the methods follow the corrected
 * definition (Terminals.Scroll, ScrollCount, WriteChar, RestoreCursor,
 * SgrMode, the row-blanking DCH) rather than the as-written one, which
 * EmulatorSpec keeps beside it.
 */
module Emulators {
  import opened Wrappers
  import opened JavaLang
  import opened JavaAwt
  import opened Tokens
  import BlockMoves
  import EcmaMapping
  import CharPanes
  import Terminals
  import KeyMappings
  import opened EmulatorSpec

  class VTxEmulator {
    var term: Terminal
    var state: EmulatorState
    var replies: seq<string>
    var titles: seq<Title>
    var signalTerminate: bool
    /** The terminal type whose keys getKeyCode prefers, null until setTermType. */
    var termType: Option<string>

    /** The fields as one value, the argument of the functions of EmulatorSpec. */
    function Snapshot(): Machine
      reads this
    {
      Machine(term, state, replies, titles, signalTerminate)
    }

    predicate Valid()
      reads this
    {
      EmulatorSpec.Valid(Snapshot())
    }

    /** VTxEmulator(term, ...) followed by resetState(): nothing sent, no region, the default DEC modes. */
    constructor(t: Terminal)
      requires Terminals.Valid(t)
      ensures Valid() && Snapshot() == Machine(t, INITIAL_STATE, [], [], false) && termType == None
    {
      term := t;
      state := INITIAL_STATE;
      replies := [];
      titles := [];
      signalTerminate := false;
      termType := None;
    }

    /** resetState: the region dropped, tab size 8, the DEC modes back to their defaults; the rest stays. */
    method ResetState()
      requires Valid()
      modifies this
      ensures Valid()
      ensures Snapshot() == old(Snapshot()).(state := old(state).(hasRegion := false, tabSize := 8, decMode := DEC_MODE_RESET))
    {
      state := state.(hasRegion := false, tabSize := 8, decMode := DEC_MODE_RESET);
    }

    method SetTermType(t: Option<string>)
      modifies this
      ensures termType == t && Snapshot() == old(Snapshot())
    {
      termType := t;
    }

    /**
     * getKeyCode(keystr): with application cursor keys on, the APP_ row of
     * the key wins, otherwise the row of the terminal type; then the plain
     * row. The key is upper-cased first, which the case-blind lookup does
     * not see.
     */
    function GetKeyCode(keystr: string): (r: Option<seq<uint8>>)
      reads this
      ensures state.decMode.applicationCursorKeys ==> r == KeyMappings.GetKeyCode(Some("APP"), keystr)
      ensures !state.decMode.applicationCursorKeys ==> r == KeyMappings.GetKeyCode(termType, keystr)
    {
      var prefix := if state.decMode.applicationCursorKeys then Some("APP") else termType;
      UpperIgnoringCase(keystr);
      KeyMappings.GetKeyCodeIgnoresCase(prefix, UpperAscii(keystr), keystr);
      KeyMappings.GetKeyCode(prefix, UpperAscii(keystr))
    }

    /** signalTerminate: start()'s loop ends after the current token. */
    method SignalTerminate()
      modifies this
      ensures Snapshot() == old(Snapshot()).(terminated := true)
    {
      signalTerminate := true;
    }

    method SetCursor(x: int, y: int)
      requires Valid()
      modifies this
      ensures Valid() && Snapshot() == EmulatorSpec.SetCursor(old(Snapshot()), x, y)
    {
      var row := y;
      if state.hasRegion {
        if row < state.regionY1 {
          row := state.regionY1;
        } else if row >= state.regionY2 {
          row := state.regionY2;
        }
      }
      state := state.(decMode := state.decMode.(lcf := false));
      term := Terminals.SetCursor(term, x, row);
    }

    method MoveCursor(dx: int, dy: int)
      requires Valid()
      modifies this
      ensures Valid() && Snapshot() == EmulatorSpec.MoveCursor(old(Snapshot()), dx, dy)
    {
      var xpos, ypos := term.cursorX + dx, term.cursorY + dy;
      var miny, maxy := 0, term.rows;
      if state.hasRegion {
        miny, maxy := state.regionY1, state.regionY2;
      }
      if xpos < 0 {
        xpos := 0;
      }
      if xpos >= term.columns {
        xpos := term.columns - 1;
      }
      if ypos >= maxy {
        ypos := maxy - 1;
      }
      if ypos < miny {
        ypos := miny;
      }
      SetCursor(xpos, ypos);
    }

    /** scrollLines, with scrollRegion inlined (its slow-scroll pause is time, not state). */
    method ScrollLines(n: int, up: bool)
      requires Valid()
      modifies this
      ensures Valid() && Snapshot() == EmulatorSpec.ScrollLines(old(Snapshot()), n, up)
    {
      if state.hasRegion {
        term := Terminals.Scroll(term, state.regionY1, state.regionY2, n, up);
      } else {
        term := Terminals.Scroll(term, 0, term.rows, n, up);
      }
    }

    method AutoNewline()
      requires Valid()
      modifies this
      ensures Valid() && Snapshot() == EmulatorSpec.AutoNewline(old(Snapshot()))
    {
      var ypos := term.cursorY + 1;
      if ypos >= RegionMaxY(Snapshot()) {
        ScrollLines(1, true);
        ypos := RegionMaxY(Snapshot()) - 1;
      }
      SetCursor(0, ypos);
    }

    /**
     * writeChar. A pending wrap is taken first, as a newline; the write
     * that follows is an ordinary one from column 0 (see WriteChar in
     * EmulatorSpec for the code as written).
     */
    method WriteChar(bytes: seq<jbyte>)
      requires Valid()
      modifies this
      ensures Valid() && Snapshot() == EmulatorSpec.WriteChar(old(Snapshot()), bytes)
    {
      ghost var m0 := Snapshot();
      if term.cursorX == term.columns - 1 && state.decMode.modeAutoWrap && state.decMode.lcf {
        AutoNewline();
        WrapFirst(m0, bytes);
      }
      WriteUnwrapped(bytes);
    }

    /** writeChar's branches once no wrap is pending: the write, then the move, the wrap flag or the newline. */
    method WriteUnwrapped(bytes: seq<jbyte>)
      requires Valid()
      requires !(term.cursorX == term.columns - 1 && state.decMode.modeAutoWrap && state.decMode.lcf)
      modifies this
      ensures Valid() && Snapshot() == EmulatorSpec.WriteChar(old(Snapshot()), bytes)
    {
      WriteWithoutWrap(Snapshot(), bytes);
      if term.cursorX == term.columns - 1 {
        if state.decMode.modeAutoWrap {
          term := Terminals.WriteChar(term, bytes);
          state := state.(decMode := state.decMode.(lcf := true));
        } else {
          term := Terminals.WriteChar(term, bytes);
          AutoNewline();
        }
      } else {
        term := Terminals.WriteChar(term, bytes);
        MoveCursor(1, 0);
      }
    }

    method SaveCursor()
      requires Valid()
      modifies this
      ensures Valid() && Snapshot() == EmulatorSpec.SaveCursor(old(Snapshot()))
    {
      state := state.(savedCursorX := term.cursorX, savedCursorY := term.cursorY,
                      savedLcf := state.decMode.lcf, savedStyle := term.drawStyle,
                      savedCharSet := term.charSet, savedCharSetName := term.charSets[term.charSet]);
    }

    /** restoreCursor; a cursor never saved has no charset name, which leaves the charset table alone. */
    method RestoreCursor()
      requires Valid()
      modifies this
      ensures Valid() && Snapshot() == EmulatorSpec.RestoreCursor(old(Snapshot()))
    {
      ghost var m0 := Snapshot();
      var saved := state;
      SetCursor(saved.savedCursorX, saved.savedCursorY);
      state := state.(decMode := state.decMode.(lcf := saved.savedLcf));
      ghost var m1 := Snapshot();
      assert m1 == WithLcf(EmulatorSpec.SetCursor(m0, saved.savedCursorX, saved.savedCursorY), saved.savedLcf);
      term := Terminals.SetDrawStyle(term, saved.savedStyle);
      term := Terminals.SetCharSet(term, saved.savedCharSet);
      assert Snapshot() == WithTerm(m1, Terminals.SetCharSet(Terminals.SetDrawStyle(m1.term, saved.savedStyle), saved.savedCharSet));
      assert Snapshot() == RestoreSlot(m0);
      match saved.savedCharSetName {
        case Some(name) => term := Terminals.DesignateCharSet(term, saved.savedCharSet, name);
        case None =>
      }
    }

    /** The loop putChar(bytes, x + i, y) for i from 0 to n - 1, shared by ERASE_CHARS, DELETE_LINES and DECALN. */
    method PutRunAt(bytes: seq<jbyte>, x: int, y: int, n: int)
      requires Valid()
      modifies this
      ensures Valid() && Snapshot() == WithTerm(old(Snapshot()), PutRun(old(term), bytes, x, y, n))
    {
      ghost var m0 := Snapshot();
      var i := 0;
      while i < n
        invariant 0 <= i && (i <= n || i == 0)
        invariant Valid() && Snapshot() == WithTerm(m0, PutRun(m0.term, bytes, x, y, i))
        decreases n - i
      {
        term := Terminals.PutChar(term, bytes, x + i, y);
        i := i + 1;
      }
    }

    /** ERASE_CHARS: putChar(' ') at n columns from the cursor on, then setCursor back to where it was. */
    method EraseChars(n: int)
      requires Valid()
      modifies this
      ensures Valid() && Snapshot() == EmulatorSpec.EraseChars(old(Snapshot()), n)
    {
      var x, y := term.cursorX, term.cursorY;
      PutRunAt(CharPanes.SPACE_BYTES, x, y, n);
      SetCursor(x, y);
    }

    /** DELETE_LINES: spaces over all but the last column of n rows from the cursor's, then setCursor back. */
    method DeleteLines(n: int)
      requires Valid()
      modifies this
      ensures Valid() && Snapshot() == EmulatorSpec.DeleteLines(old(Snapshot()), n)
    {
      var x, y := term.cursorX, term.cursorY;
      BlankLinesAt(y, n);
      SetCursor(x, y);
    }

    /** DELETE_LINES' loops: putChar(' ', j, y + i) for j below columns - 1 and i below n. */
    method BlankLinesAt(y: int, n: int)
      requires Valid()
      modifies this
      ensures Valid() && Snapshot() == WithTerm(old(Snapshot()), BlankLines(old(term), y, n))
    {
      ghost var m0 := Snapshot();
      var i := 0;
      while i < n
        invariant 0 <= i && (i <= n || i == 0)
        invariant Valid() && Snapshot() == WithTerm(m0, BlankLines(m0.term, y, i))
        decreases n - i
      {
        BlankLinesStep(m0.term, y, i);
        PutRunAt(CharPanes.SPACE_BYTES, 0, y + i, term.columns - 1);
        i := i + 1;
      }
    }

    /** One pass of INSERT_BLANK_CHARS' loop: the rest of the row moved right by one, a space at (x, y). */
    method InsertBlankAt(x: int, y: int)
      requires Terminals.Valid(term)
      modifies this
      ensures term == InsertBlank(old(term), x, y)
      ensures state == old(state) && replies == old(replies) && titles == old(titles)
      ensures signalTerminate == old(signalTerminate)
    {
      var moved := Terminals.Move(term, BlockMoves.Block(x, y, term.columns - x, 1, x + 1, y));
      if moved.Some? {
        term := moved.value;
      }
      term := Terminals.PutChar(term, CharPanes.SPACE_BYTES, x, y);
    }

    /** INSERT_BLANK_CHARS: n blanks inserted at the cursor. */
    method InsertBlankChars(n: int)
      requires Valid()
      modifies this
      ensures Valid() && Snapshot() == EmulatorSpec.InsertBlankChars(old(Snapshot()), n)
    {
      InsertBlanksAt(term.cursorX, term.cursorY, n);
    }

    /** INSERT_BLANK_CHARS' loop: n blanks inserted at (x, y). */
    method InsertBlanksAt(x: int, y: int, n: int)
      requires Terminals.Valid(term)
      modifies this
      ensures term == InsertBlanks(old(term), x, y, n)
      ensures state == old(state) && replies == old(replies) && titles == old(titles)
      ensures signalTerminate == old(signalTerminate)
    {
      ghost var t0 := term;
      var i := 0;
      while i < n
        invariant 0 <= i && (i <= n || i == 0)
        invariant term == InsertBlanks(t0, x, y, i)
        invariant state == old(state) && replies == old(replies) && titles == old(titles)
        invariant signalTerminate == old(signalTerminate)
        decreases n - i
      {
        InsertBlanksLast(t0, x, y, i);
        InsertBlankAt(x, y);
        i := i + 1;
      }
    }

    /** CHARACTER_REPEAT: writeChar(lastChar) n times; with no character written yet the null array ends the session. */
    method RepeatChar(n: int)
      requires Valid()
      modifies this
      ensures Valid() && Snapshot() == EmulatorSpec.RepeatChar(old(Snapshot()), n)
    {
      match state.lastChar {
        case None =>
          signalTerminate := true;
        case Some(bytes) =>
          ghost var m0 := Snapshot();
          var i := 0;
          while i < n
            invariant 0 <= i && (i <= n || i == 0)
            invariant Valid() && Snapshot() == WriteChars(m0, bytes, i)
            decreases n - i
          {
            WriteChar(bytes);
            WriteCharsStep(m0, bytes, i);
            i := i + 1;
          }
      }
    }

    /** decScreenAlignmentTest: putChar('E') over every column of the region's rows, or of all rows. */
    method DecScreenAlignmentTest()
      requires Valid()
      modifies this
      ensures Valid() && Snapshot() == Alignment(old(Snapshot()))
    {
      var y1, y2 := 0, term.rows;
      if state.hasRegion {
        y1, y2 := state.regionY1, state.regionY2;
      }
      ghost var m0 := Snapshot();
      var y := y1;
      while y < y2
        invariant y1 <= y && (y <= y2 || y == y1)
        invariant Valid() && Snapshot() == WithTerm(m0, FillRows(m0.term, y1, y - y1))
        decreases y2 - y
      {
        PutRunAt(E_BYTES, 0, y, term.columns);
        y := y + 1;
      }
    }

    /**
     * One SGR number other than 38 and 48: an ECMA-48 mode changes the
     * style word, otherwise a palette colour; 39 and 49 restore the
     * default foreground and background (see PlainColorAsWritten for the
     * code as written).
     */
    method SgrNumber(mode: int)
      requires Valid()
      modifies this
      ensures Valid() && Snapshot() == WithTerm(old(Snapshot()), SgrMode(old(term), mode))
    {
      if EcmaMapping.HasMode(mode) {
        var style := term.drawStyle;
        style := EcmaMapping.Apply(style, mode);
        term := Terminals.SetDrawStyle(term, style);
      } else if 30 <= mode <= 37 {
        term := Terminals.SetDrawForeground(term, mode - 30);
      } else if 40 <= mode <= 47 {
        term := Terminals.SetDrawBackground(term, mode - 40);
      } else if mode == 39 {
        term := Terminals.SetDrawForeground(term, -1);
      } else if mode == 49 {
        term := Terminals.SetDrawBackground(term, -1);
      } else if 90 <= mode <= 97 {
        term := Terminals.SetDrawForeground(term, mode - 90 + 8);
      } else if 100 <= mode <= 107 {
        term := Terminals.SetDrawBackground(term, mode - 100 + 8);
      }
    }

    /**
     * handleSetFontStyle: no arguments clear the style; otherwise the
     * iterator loop, position i standing for the iterator. An RGB triple
     * outside [0, 255] makes new Color throw, and start() then ends the
     * session.
     */
    method HandleSetFontStyle(args: seq<int>)
      requires Valid()
      modifies this
      ensures Valid() && Snapshot() == SetFontStyle(old(Snapshot()), args)
    {
      if |args| == 0 {
        term := Terminals.SetDrawStyle(term, 0);
        return;
      }
      ghost var m0 := Snapshot();
      var i := 0;
      while i < |args|
        invariant 0 <= i <= |args|
        invariant Valid() && Sgr(Snapshot(), args, i) == Sgr(m0, args, 0)
        decreases |args| - i
      {
        var mode := args[i];
        if mode == 38 || mode == 48 {
          var next, failed := ExtendedColor(args, i);
          if failed {
            return;
          }
          i := next;
        } else {
          SgrPlainStep(Snapshot(), args, i);
          SgrNumber(mode);
          i := i + 1;
        }
      }
    }

    /**
     * 38 or 48 at position i: sub-mode 2 reads r, g and b when there are
     * at least five arguments in all, sub-mode 5 a palette index; a
     * missing argument reads as -1. Returns the position after what was
     * read; an invalid colour ends the session instead.
     */
    method ExtendedColor(args: seq<int>, i: nat) returns (next: nat, failed: bool)
      requires Valid() && i < |args| && (args[i] == 38 || args[i] == 48)
      modifies this
      ensures Valid() && i < next <= |args|
      ensures failed ==> Snapshot() == Sgr(old(Snapshot()), args, i)
      ensures !failed ==> Sgr(Snapshot(), args, next) == Sgr(old(Snapshot()), args, i)
    {
      var isFG := args[i] == 38;
      var p := i + 1;
      var subMode := SafeNext(args, p);
      p := Advance(args, p);
      if subMode == 2 {
        if |args| >= 5 {
          var r := SafeNext(args, p);
          p := Advance(args, p);
          var g := SafeNext(args, p);
          p := Advance(args, p);
          var b := SafeNext(args, p);
          p := Advance(args, p);
          var c := Color(r, g, b);
          if !ValidColor(c) {
            signalTerminate := true;
            return i + 1, true;
          }
          if isFG {
            term := term.(customForeground := Some(c));
          } else {
            term := term.(customBackground := Some(c));
          }
        }
      } else if subMode == 5 {
        var ccode := SafeNext(args, p);
        p := Advance(args, p);
        if isFG {
          term := Terminals.SetDrawForeground(term, ccode);
        } else {
          term := Terminals.SetDrawBackground(term, ccode);
        }
      }
      return p, false;
    }

    /**
     * One case of handleDecMode's switch: the modes with a case of their
     * own, then those that only switch a flag. Mode 3 changes the column
     * count and fires a resize event besides; 1034 and unknown modes are
     * only logged.
     */
    method SetDecMode(mode: int, value: bool)
      requires Valid()
      modifies this
      ensures Valid() && Snapshot() == DecModeStep(old(Snapshot()), mode, value)
    {
      if mode == 3 {
        SetCursor(0, 0);
        term := Terminals.ClearText(term);
      } else if mode == 6 {
        SetOriginMode(value);
      } else if mode == 45 {
        term := Terminals.SetAltScreen(term, value);
      } else if mode == 1048 {
        if value {
          SaveCursor();
        } else {
          RestoreCursor();
        }
      } else if mode == 1049 {
        SetAltScreenMode(value);
      } else {
        SetDecFlag(mode, value);
      }
    }

    /** Mode 6, origin mode. */
    method SetOriginMode(value: bool)
      requires Valid()
      modifies this
      ensures Valid() && Snapshot() == OriginMode(old(Snapshot()), value)
    {
      state := state.(decMode := state.decMode.(originMode := value));
      if value {
        SetCursor(0, state.regionY1);
      } else {
        state := state.(hasRegion := false);
        SetCursor(0, 0);
      }
    }

    /** Mode 1049: the alternate screen with the cursor saved and application keys on, and back. */
    method SetAltScreenMode(value: bool)
      requires Valid()
      modifies this
      ensures Valid() && Snapshot() == AltScreenMode(old(Snapshot()), value)
    {
      if value {
        SaveCursor();
        state := state.(decMode := state.decMode.(applicationCursorKeys := value));
        term := Terminals.SetAltScreen(term, value);
        term := Terminals.ClearText(term);
      } else {
        state := state.(decMode := state.decMode.(applicationCursorKeys := value));
        term := Terminals.SetAltScreen(term, value);
        RestoreCursor();
      }
    }

    /** The modes that only switch a flag of the emulator (1, 4, 7, 1004, 2004) or of the terminal (5, 12, 25). */
    method SetDecFlag(mode: int, value: bool)
      requires Valid()
      modifies this
      ensures Valid() && Snapshot() == DecModeFlag(old(Snapshot()), mode, value)
    {
      match mode {
        case 1 =>
          state := state.(decMode := state.decMode.(applicationCursorKeys := value));
        case 4 =>
          state := state.(decMode := state.decMode.(slowScroll := value));
        case 5 =>
          term := Terminals.SetDisplayFlags(term, value, term.cursorBlink, term.showCursor);
        case 7 =>
          state := state.(decMode := state.decMode.(modeAutoWrap := value));
        case 12 =>
          term := Terminals.SetDisplayFlags(term, term.reverseVideo, value, term.showCursor);
        case 25 =>
          term := Terminals.SetDisplayFlags(term, term.reverseVideo, term.cursorBlink, value);
        case 1004 =>
          state := state.(decMode := state.decMode.(focusEvents := value));
        case 2004 =>
          state := state.(decMode := state.decMode.(bracketedPasteMode := value));
        case _ =>
      }
    }

    /** handleDecMode: every argument in turn is a mode to set (value) or reset. */
    method HandleDecMode(args: seq<int>, value: bool)
      requires Valid()
      modifies this
      ensures Valid() && Snapshot() == DecModes(old(Snapshot()), args, |args|, value)
    {
      ghost var m0 := Snapshot();
      for i := 0 to |args|
        invariant Snapshot() == DecModes(m0, args, i, value)
      {
        SetDecMode(args[i], value);
      }
    }

    /** send: a reply to the host, after those already sent. */
    method Send(reply: string)
      modifies this
      ensures Snapshot() == Reply(old(Snapshot()), reply)
    {
      replies := replies + [reply];
    }

    /** DEVICE_STATUS: 6 asks for the cursor position, which sendCursor reports; other requests are logged. */
    method DeviceStatus(args: seq<int>)
      modifies this
      ensures Snapshot() == EmulatorSpec.DeviceStatus(old(Snapshot()), args)
    {
      if Arg1(args) == 6 {
        Send(CursorReport(term.cursorX, term.cursorY));
      }
    }

    /** handleGraphMode: types 0, 1 and 2 fire a title event; OSC 4 and 5 and the rest are not kept. */
    method HandleGraphMode(kind: int, text: string)
      modifies this
      ensures Snapshot() == EmulatorSpec.GraphMode(old(Snapshot()), kind, text)
    {
      if kind == 0 || kind == 1 || kind == 2 {
        titles := titles + [Title(kind, text)];
      }
    }

    /** handleWindowManipulation: 18 sends the size in characters. */
    method HandleWindowManipulation(args: seq<int>)
      modifies this
      ensures Snapshot() == WindowManipulation(old(Snapshot()), args)
    {
      if |args| == 0 {
        return;
      }
      var rows, cols := term.rows, term.columns;
      if args[0] == 18 {
        Send(SizeReport(cols, rows));
      }
    }

    /** handleXtermSetGetGraphics: only id 1, the colour registers, is answered. */
    method HandleXtermSetGetGraphics(args: seq<int>)
      modifies this
      ensures Snapshot() == SetGetGraphics(old(Snapshot()), args)
    {
      if |args| < 3 {
        return;
      }
      var id, mode, val := args[0], args[1], args[2];
      if id == 1 {
        if mode == 1 {
          Send(GraphicsReport(1, 0, 1024));
        } else if mode == 3 {
          Send(GraphicsReport(1, 0, val));
        } else if mode == 2 {
          Send(GraphicsReport(1, 0, val));
        } else if mode == 4 {
          Send(GraphicsReport(1, 0, 1024));
        }
      }
    }

    /** HT: to the next tab stop, never past the last column. */
    method HorizontalTab()
      requires Valid()
      modifies this
      ensures Valid() && Snapshot() == EmulatorSpec.HorizontalTab(old(Snapshot()))
    {
      var x := (JavaDiv(term.cursorX, state.tabSize) + 1) * state.tabSize;
      if x >= term.columns {
        x := term.columns - 1;
      }
      SetCursor(x, term.cursorY);
    }

    /** BS and DEL. */
    method BackSpace()
      requires Valid()
      modifies this
      ensures Valid() && Snapshot() == EmulatorSpec.BackSpace(old(Snapshot()))
    {
      var x, y := term.cursorX - 1, term.cursorY;
      if x < 0 {
        y := y - 1;
        x := term.columns - 1;
      }
      SetCursor(x, y);
    }

    /** LF, VT and FF. */
    method LineFeed()
      requires Valid()
      modifies this
      ensures Valid() && Snapshot() == EmulatorSpec.LineFeed(old(Snapshot()))
    {
      var x, y := term.cursorX, term.cursorY;
      var maxy := RegionMaxY(Snapshot());
      if y + 1 >= maxy {
        ScrollLines(1, true);
        y := maxy - 1;
      } else {
        y := y + 1;
      }
      SetCursor(x, y);
    }

    /** IND. */
    method Index()
      requires Valid()
      modifies this
      ensures Valid() && Snapshot() == EmulatorSpec.Index(old(Snapshot()))
    {
      var x, y := term.cursorX, term.cursorY;
      if y + 1 >= RegionMaxY(Snapshot()) {
        ScrollLines(1, true);
      } else {
        SetCursor(x, y + 1);
      }
    }

    /** NEL. */
    method NextLine()
      requires Valid()
      modifies this
      ensures Valid() && Snapshot() == EmulatorSpec.NextLine(old(Snapshot()))
    {
      var y := term.cursorY;
      if y + 1 >= RegionMaxY(Snapshot()) {
        ScrollLines(1, true);
        SetCursor(0, y);
      } else {
        SetCursor(0, y + 1);
      }
    }

    /** RI. */
    method ReverseIndex()
      requires Valid()
      modifies this
      ensures Valid() && Snapshot() == EmulatorSpec.ReverseIndex(old(Snapshot()))
    {
      var x, y := term.cursorX, term.cursorY;
      if y - 1 < RegionMinY(Snapshot()) {
        ScrollLines(1, false);
      } else {
        SetCursor(x, y - 1);
      }
    }

    /** SET_REGION. */
    method SetRegion(args: seq<int>)
      requires Valid()
      modifies this
      ensures Valid() && Snapshot() == EmulatorSpec.SetRegion(old(Snapshot()), args)
    {
      if |args| == 0 {
        state := state.(regionY1 := 0, regionY2 := term.rows, hasRegion := false);
      } else {
        state := state.(regionY1 := Arg1(args) - 1, regionY2 := Arg2(args), hasRegion := true);
      }
      SetCursor(0, state.regionY1);
    }

    /** SET_CURSOR. */
    method CursorPosition(args: seq<int>)
      requires Valid()
      modifies this
      ensures Valid() && Snapshot() == EmulatorSpec.CursorPosition(old(Snapshot()), args)
    {
      var y := if |args| > 0 then Arg1(args) - 1 else 0;
      var x := if |args| > 1 then Arg2(args) - 1 else 0;
      if state.decMode.originMode {
        SetCursor(x, y + state.regionY1);
      } else {
        SetCursor(x, y);
      }
    }

    /** DEL_CHAR: term.move of the rest of the row n columns to the left, or the row blanked from the cursor where that move runs away. */
    method DeleteChars(n: int)
      requires Valid()
      modifies this
      ensures Valid() && Snapshot() == EmulatorSpec.DeleteChars(old(Snapshot()), n)
    {
      var moved := Terminals.Move(term, DeleteBlock(term, n));
      if moved.Some? {
        term := moved.value;
      } else {
        term := Terminals.BlankRowFrom(term, term.cursorX, term.cursorY);
      }
    }

    /** INSERT_LINES: scrollRegion(y, maxy, n, down). */
    method InsertLines(n: int)
      requires Valid()
      modifies this
      ensures Valid() && Snapshot() == EmulatorSpec.InsertLines(old(Snapshot()), n)
    {
      term := Terminals.Scroll(term, term.cursorY, RegionMaxY(Snapshot()), n, false);
    }

    /** LINE_ERASE: one clearArea over the span of the cursor's row that the mode names. */
    method LineErase(args: seq<int>)
      requires Valid()
      modifies this
      ensures Valid() && Snapshot() == EmulatorSpec.LineErase(old(Snapshot()), args)
    {
      var y := term.cursorY;
      var mode := if |args| > 0 then Arg1(args) else 0;
      var span := LineEraseSpan(term, mode);
      if span.Some? {
        term := Terminals.ClearArea(term, span.value.0, y, span.value.1, y + 1);
      }
    }

    /** SCREEN_ERASE: two clearArea calls for modes 0 and 1, the whole screen and the cursor home for 2. */
    method ScreenErase(args: seq<int>)
      requires Valid()
      modifies this
      ensures Valid() && Snapshot() == EmulatorSpec.ScreenErase(old(Snapshot()), args)
    {
      var mode := if |args| > 0 then Arg1(args) else 2;
      if mode == 0 || mode == 1 {
        var areas := ScreenEraseAreas(term, mode);
        term := ClearIn(term, areas.0);
        term := ClearIn(term, areas.1);
      } else if mode == 2 {
        term := Terminals.ClearArea(term, 0, 0, term.columns, term.rows);
        SetCursor(0, 0);
      }
    }

    /** EOF and EOT. */
    method EndOfStreamToken(inp: Input)
      requires Valid()
      modifies this
      ensures Valid() && Snapshot() == EmulatorSpec.EndOfStreamToken(old(Snapshot()), inp)
    {
      if inp.token == EOF || inp.token == EOT {
        SignalTerminate();
      }
    }

    method IdentificationToken(inp: Input)
      requires Valid()
      modifies this
      ensures Valid() && Snapshot() == EmulatorSpec.IdentificationToken(old(Snapshot()), inp)
    {
      if inp.token == DECID_SEND_TERM_ID || inp.token == REQ_PRIMARY_DA {
        Send(PRIMARY_DA);
      } else if inp.token == REQ_SECONDARY_DA {
        Send(SECONDARY_DA);
      } else if inp.token == DEVICE_STATUS {
        DeviceStatus(inp.args);
      }
    }

    method XtermControlToken(inp: Input)
      requires Valid()
      modifies this
      ensures Valid() && Snapshot() == EmulatorSpec.XtermControlToken(old(Snapshot()), inp)
    {
      if inp.token == OSC_GRAPHMODE {
        HandleGraphMode(Arg1(inp.args), inp.strArg);
      } else if inp.token == XTERM_WIN_MANIPULATION {
        HandleWindowManipulation(inp.args);
      } else if inp.token == XTERM_SETGET_GRAPHICS {
        HandleXtermSetGetGraphics(inp.args);
      }
    }

    method TabAndReturnToken(inp: Input)
      requires Valid()
      modifies this
      ensures Valid() && Snapshot() == EmulatorSpec.TabAndReturnToken(old(Snapshot()), inp)
    {
      if inp.token == HT {
        HorizontalTab();
      } else if inp.token == DEL || inp.token == BS {
        BackSpace();
      } else if inp.token == CR {
        SetCursor(0, term.cursorY);
      }
    }

    method CursorMoveToken(inp: Input)
      requires Valid()
      modifies this
      ensures Valid() && Snapshot() == EmulatorSpec.CursorMoveToken(old(Snapshot()), inp)
    {
      var increment := Count(inp.args);
      if inp.token == UP {
        MoveCursor(0, -increment);
      } else if inp.token == DOWN {
        MoveCursor(0, increment);
      } else if inp.token == LEFT {
        MoveCursor(-increment, 0);
      } else if inp.token == RIGHT {
        MoveCursor(increment, 0);
      }
    }

    method CursorSetToken(inp: Input)
      requires Valid()
      modifies this
      ensures Valid() && Snapshot() == EmulatorSpec.CursorSetToken(old(Snapshot()), inp)
    {
      var x, y := term.cursorX, term.cursorY;
      if inp.token == SET_COLUMN {
        SetCursor(Arg1(inp.args) - 1, y);
      } else if inp.token == SET_ROW {
        SetCursor(x, Arg1(inp.args) - 1);
      } else if inp.token == SET_CURSOR {
        CursorPosition(inp.args);
      }
    }

    method LineFeedsToken(inp: Input)
      requires Valid()
      modifies this
      ensures Valid() && Snapshot() == EmulatorSpec.LineFeedsToken(old(Snapshot()), inp)
    {
      if inp.token == LF || inp.token == VT || inp.token == FF {
        LineFeed();
      }
    }

    method IndexesToken(inp: Input)
      requires Valid()
      modifies this
      ensures Valid() && Snapshot() == EmulatorSpec.IndexesToken(old(Snapshot()), inp)
    {
      if inp.token == IND_INDEX {
        Index();
      } else if inp.token == NEL_NEXT_LINE {
        NextLine();
      } else if inp.token == RI_REVERSE_INDEX {
        ReverseIndex();
      }
    }

    method RegionAndSavedToken(inp: Input)
      requires Valid()
      modifies this
      ensures Valid() && Snapshot() == EmulatorSpec.RegionAndSavedToken(old(Snapshot()), inp)
    {
      if inp.token == SET_REGION {
        SetRegion(inp.args);
      } else if inp.token == SAVE_CURSOR {
        SaveCursor();
      } else if inp.token == RESTORE_CURSOR {
        RestoreCursor();
      }
    }

    /** CHAR keeps a copy of its bytes as the last character, then writes them. */
    method WritingToken(inp: Input)
      requires Valid()
      modifies this
      ensures Valid() && Snapshot() == EmulatorSpec.WritingToken(old(Snapshot()), inp)
    {
      if inp.token == CHAR {
        state := state.(lastChar := Some(inp.bytes));
        WriteChar(inp.bytes);
      } else if inp.token == CHARACTER_REPEAT {
        RepeatChar(Count(inp.args));
      }
    }

    method LineEditsToken(inp: Input)
      requires Valid()
      modifies this
      ensures Valid() && Snapshot() == EmulatorSpec.LineEditsToken(old(Snapshot()), inp)
    {
      var num := Count(inp.args);
      if inp.token == SCROLL_UP {
        ScrollLines(ScrollCount(inp.args), true);
      } else if inp.token == SCROLL_DOWN {
        ScrollLines(ScrollCount(inp.args), false);
      } else if inp.token == INSERT_LINES {
        InsertLines(num);
      } else if inp.token == DELETE_LINES {
        DeleteLines(num);
      }
    }

    method CharEditsToken(inp: Input)
      requires Valid()
      modifies this
      ensures Valid() && Snapshot() == EmulatorSpec.CharEditsToken(old(Snapshot()), inp)
    {
      var num := Count(inp.args);
      if inp.token == DEL_CHAR {
        DeleteChars(num);
      } else if inp.token == ERASE_CHARS {
        EraseChars(num);
      } else if inp.token == INSERT_BLANK_CHARS {
        InsertBlankChars(num);
      }
    }

    method ErasingToken(inp: Input)
      requires Valid()
      modifies this
      ensures Valid() && Snapshot() == EmulatorSpec.ErasingToken(old(Snapshot()), inp)
    {
      if inp.token == LINE_ERASE {
        LineErase(inp.args);
      } else if inp.token == SCREEN_ERASE {
        ScreenErase(inp.args);
      } else if inp.token == DEC_SCREEN_ALIGNMENT {
        DecScreenAlignmentTest();
      }
    }

    method RenditionToken(inp: Input)
      requires Valid()
      modifies this
      ensures Valid() && Snapshot() == EmulatorSpec.RenditionToken(old(Snapshot()), inp)
    {
      if inp.token == CHARACTER_ATTRS {
        HandleSetFontStyle(inp.args);
      } else if inp.token == DEC_SETMODE {
        HandleDecMode(inp.args, true);
      } else if inp.token == DEC_RESETMODE {
        HandleDecMode(inp.args, false);
      }
    }

    /** SI and SO: term.setCharSet(n); SCS: term.setCharSet(n, mapCharSet(c)), the charset's name. */
    method CharSetsToken(inp: Input)
      requires Valid()
      modifies this
      ensures Valid() && Snapshot() == EmulatorSpec.CharSetsToken(old(Snapshot()), inp)
    {
      if inp.token == CHARSET_G0 {
        term := Terminals.SetCharSet(term, 0);
      } else if inp.token == CHARSET_G1 {
        term := Terminals.SetCharSet(term, 1);
      } else if inp.token == CHARSET_G0_DES {
        term := Terminals.DesignateCharSet(term, 0, CharSetName(MapCharSet(inp.charSet)));
      } else if inp.token == CHARSET_G1_DES {
        term := Terminals.DesignateCharSet(term, 1, CharSetName(MapCharSet(inp.charSet)));
      } else if inp.token == CHARSET_G2_DES {
        term := Terminals.DesignateCharSet(term, 2, CharSetName(MapCharSet(inp.charSet)));
      } else if inp.token == CHARSET_G3_DES {
        term := Terminals.DesignateCharSet(term, 3, CharSetName(MapCharSet(inp.charSet)));
      }
    }

    /**
     * nextToken for a token the tokenizer has read: its case of the
     * switch, by group. Logged-only and unknown tokens change nothing.
     */
    method NextToken(inp: Input)
      requires Valid()
      modifies this
      ensures Valid() && Snapshot() == EmulatorSpec.NextToken(old(Snapshot()), inp)
    {
      match GroupOf(inp.token) {
        case EndOfStream => EndOfStreamToken(inp);
        case Identification => IdentificationToken(inp);
        case XtermControl => XtermControlToken(inp);
        case TabAndReturn => TabAndReturnToken(inp);
        case CursorMove => CursorMoveToken(inp);
        case CursorSet => CursorSetToken(inp);
        case LineFeeds => LineFeedsToken(inp);
        case Indexes => IndexesToken(inp);
        case RegionAndSaved => RegionAndSavedToken(inp);
        case Writing => WritingToken(inp);
        case LineEdits => LineEditsToken(inp);
        case CharEdits => CharEditsToken(inp);
        case Erasing => ErasingToken(inp);
        case Rendition => RenditionToken(inp);
        case CharSets => CharSetsToken(inp);
        case Ignored =>
      }
    }

    /**
     * start(): nextToken for each token of a stream until signalTerminate;
     * once the session has ended, the rest of the stream is not read.
     */
    method Start(inputs: seq<Input>)
      requires Valid()
      modifies this
      ensures Valid() && Snapshot() == Run(old(Snapshot()), inputs, |inputs|)
    {
      ghost var m0 := Snapshot();
      for i := 0 to |inputs|
        invariant Snapshot() == Run(m0, inputs, i)
      {
        if !signalTerminate {
          NextToken(inputs[i]);
        }
      }
    }
  }

  /** writeChar with the wrap pending: a newline, then the write. */
  lemma WrapFirst(m: Machine, bytes: seq<jbyte>)
    requires EmulatorSpec.Valid(m) && m.term.cursorX == m.term.columns - 1
    requires m.state.decMode.modeAutoWrap && m.state.decMode.lcf
    ensures EmulatorSpec.WriteChar(m, bytes) == EmulatorSpec.WriteChar(EmulatorSpec.AutoNewline(m), bytes)
  {
  }

  /** writeChar with no wrap pending, or off the last column, or without auto-wrap: one write. */
  lemma WriteWithoutWrap(m: Machine, bytes: seq<jbyte>)
    requires EmulatorSpec.Valid(m)
    requires !(m.term.cursorX == m.term.columns - 1 && m.state.decMode.modeAutoWrap && m.state.decMode.lcf)
    ensures EmulatorSpec.WriteChar(m, bytes) ==
      if m.term.cursorX != m.term.columns - 1 then MoveCursor(PutAtCursor(m, bytes), 1, 0)
      else if m.state.decMode.modeAutoWrap then WithLcf(PutAtCursor(m, bytes), true)
      else EmulatorSpec.AutoNewline(PutAtCursor(m, bytes))
  {
  }

  /** One more writeChar of CHARACTER_REPEAT's loop. */
  lemma WriteCharsStep(m: Machine, bytes: seq<jbyte>, n: int)
    requires EmulatorSpec.Valid(m) && n >= 0
    ensures WriteChars(m, bytes, n + 1) == EmulatorSpec.WriteChar(WriteChars(m, bytes, n), bytes)
  {
  }

  /** The last of n + 1 passes of INSERT_BLANK_CHARS comes after the other n. */
  lemma {:induction false} InsertBlanksLast(t: Terminal, x: int, y: int, n: int)
    requires Terminals.Valid(t) && n >= 0
    ensures InsertBlanks(t, x, y, n + 1) == InsertBlank(InsertBlanks(t, x, y, n), x, y)
    decreases n
  {
    if n > 0 {
      InsertBlanksLast(InsertBlank(t, x, y), x, y, n - 1);
    }
  }

  /** One more row of DELETE_LINES' loop. */
  lemma BlankLinesStep(t: Terminal, y: int, n: int)
    requires Terminals.Valid(t) && n >= 0
    ensures BlankLines(t, y, n + 1) == PutRun(BlankLines(t, y, n), CharPanes.SPACE_BYTES, 0, y + n, t.columns - 1)
    ensures BlankLines(t, y, n).columns == t.columns
  {
  }

  /** A plain SGR number takes one step of the loop. */
  lemma SgrPlainStep(m: Machine, args: seq<int>, i: nat)
    requires EmulatorSpec.Valid(m) && i < |args| && args[i] != 38 && args[i] != 48
    ensures Sgr(m, args, i) == Sgr(WithTerm(m, SgrMode(m.term, args[i])), args, i + 1)
  {
  }
}
