/**
 * Properties of the emulator's attribute, mode, charset and reply handling:
 * handleSetFontStyle (SGR), handleDecMode (DEC private modes), the charset
 * designations and the answers sent back to the host.
 */
module EmulatorModeProps {
  import opened Wrappers
  import opened JavaLang
  import opened JavaAwt
  import opened Tokens
  import opened EmulatorSpec
  import Terminals
  import CharPanes
  import EcmaMapping

  // ---------------------------------------------------------------------
  // SGR

  /** CSI m without arguments is style 0: the style word and both colour indices reset, the grid untouched. */
  lemma ResetWithoutArguments(m: Machine)
    requires Valid(m)
    ensures var r := SetFontStyle(m, []);
      && r.term.drawStyle == 0 && r.term.foreground == -1 && r.term.background == -1
      && r.term.screen == m.term.screen && r.term.cursorX == m.term.cursorX && r.term.cursorY == m.term.cursorY
      && r.state == m.state && r.replies == m.replies
  {
  }

  /** The plain colour branches as written and as corrected differ exactly on 39 and 49. */
  lemma DefaultsDifferOnlyOn39And49(mode: int)
    ensures PlainColor(mode) != PlainColorAsWritten(mode) <==> mode == 39 || mode == 49
  {
  }

  /**
   * As written, SGR 39 (default foreground) resets the background index and
   * SGR 49 (default background) resets the foreground index.
   */
  lemma DefaultColorsAsWritten(t: Terminal)
    requires Terminals.Valid(t)
    ensures SgrModeAsWritten(t, 39).background == -1 && SgrModeAsWritten(t, 39).foreground == t.foreground
    ensures SgrModeAsWritten(t, 49).foreground == -1 && SgrModeAsWritten(t, 49).background == t.background
  {
    EcmaMapping.HasModeExactly(39);
    EcmaMapping.HasModeExactly(49);
  }

  /** Corrected: 39 resets the foreground and drops its custom colour, 49 the background; the other index stays. */
  lemma DefaultColors(t: Terminal)
    requires Terminals.Valid(t)
    ensures var r := SgrMode(t, 39);
      r.foreground == -1 && r.customForeground.None? && r.background == t.background && r.customBackground == t.customBackground
    ensures var r := SgrMode(t, 49);
      r.background == -1 && r.customBackground.None? && r.foreground == t.foreground && r.customForeground == t.customForeground
  {
    EcmaMapping.HasModeExactly(39);
    EcmaMapping.HasModeExactly(49);
  }

  /** 30-37 and 40-47 select palette entries 0-7, 90-97 and 100-107 entries 8-15; the style word stays. */
  lemma PaletteColors(t: Terminal, k: int)
    requires Terminals.Valid(t) && 0 <= k < 8
    ensures SgrMode(t, 30 + k).foreground == k && SgrMode(t, 30 + k).background == t.background
    ensures SgrMode(t, 40 + k).background == k && SgrMode(t, 40 + k).foreground == t.foreground
    ensures SgrMode(t, 90 + k).foreground == k + 8 && SgrMode(t, 100 + k).background == k + 8
    ensures SgrMode(t, 30 + k).drawStyle == t.drawStyle && SgrMode(t, 90 + k).drawStyle == t.drawStyle
  {
    EcmaMapping.HasModeExactly(30 + k);
    EcmaMapping.HasModeExactly(40 + k);
    EcmaMapping.HasModeExactly(90 + k);
    EcmaMapping.HasModeExactly(100 + k);
  }

  /** A registered rendition only changes the style word, and keeps the colours unless the word becomes 0. */
  lemma StyleModes(t: Terminal, mode: int)
    requires Terminals.Valid(t) && EcmaMapping.HasMode(mode)
    ensures var r := SgrMode(t, mode);
      && r.drawStyle == EcmaMapping.Apply(t.drawStyle, mode)
      && (r.drawStyle != 0 ==> r.foreground == t.foreground && r.background == t.background)
      && r.customForeground == t.customForeground && r.customBackground == t.customBackground
  {
  }

  /** 38;5;n and 48;5;n select palette index n and drop the custom colour. */
  lemma IndexedColors(m: Machine, n: int)
    requires Valid(m)
    ensures var r := Sgr(m, [38, 5, n], 0);
      r.term.foreground == n && r.term.customForeground.None? && r.terminated == m.terminated
    ensures var r := Sgr(m, [48, 5, n], 0);
      r.term.background == n && r.term.customBackground.None? && r.terminated == m.terminated
  {
    var fg := WithTerm(m, SetIndex(m.term, true, n));
    assert Sgr(m, [38, 5, n], 0) == Sgr(fg, [38, 5, n], 3) == fg;
    var bg := WithTerm(m, SetIndex(m.term, false, n));
    assert Sgr(m, [48, 5, n], 0) == Sgr(bg, [48, 5, n], 3) == bg;
  }

  /** 38;2;r;g;b sets the custom foreground when every component is in [0, 255]; otherwise the session ends. */
  lemma RgbForeground(m: Machine, red: int, green: int, blue: int)
    requires Valid(m)
    ensures var r := Sgr(m, [38, 2, red, green, blue], 0);
      && (ValidColor(Color(red, green, blue)) ==> r.term.customForeground == Some(Color(red, green, blue)) && r.terminated == m.terminated)
      && (!ValidColor(Color(red, green, blue)) ==> r.terminated)
  {
    var args := [38, 2, red, green, blue];
    var c := Color(red, green, blue);
    assert SafeNext(args, 1) == 2 && Advance(args, 1) == 2 && Advance(args, 2) == 3 && Advance(args, 3) == 4 && Advance(args, 4) == 5;
    if ValidColor(c) {
      var m1 := WithTerm(m, SetRgb(m.term, true, c));
      assert Sgr(m, args, 0) == Sgr(m1, args, 5) == m1;
    }
  }

  /**
   * The five-argument test counts every argument, not those after 38: with
   * 38;2 late in the list the missing components read as -1 and the
   * session ends.
   */
  lemma LateRgbEndsSession(m: Machine, red: int, green: int)
    requires Valid(m)
    ensures Sgr(m, [1, 38, 2, red, green], 0).terminated
  {
    EcmaMapping.HasModeExactly(1);
    var m1 := WithTerm(m, SgrMode(m.term, 1));
    assert Sgr(m, [1, 38, 2, red, green], 0) == Sgr(m1, [1, 38, 2, red, green], 1);
  }

  /** What SGR leaves alone: the grid, the cursor, the emulator state, the replies and the titles. */
  predicate SameButPen(a: Machine, b: Machine)
  {
    && a.term.screen == b.term.screen && a.term.cursorX == b.term.cursorX && a.term.cursorY == b.term.cursorY
    && a.term.rows == b.term.rows && a.term.columns == b.term.columns && a.term.charSets == b.term.charSets
    && a.state == b.state && a.replies == b.replies && a.titles == b.titles
  }

  lemma SgrModeKeeps(m: Machine, mode: int)
    requires Valid(m)
    ensures SameButPen(WithTerm(m, SgrMode(m.term, mode)), m)
  {
  }

  /** However many numbers it reads, SGR changes only the pen, or ends the session. */
  lemma {:induction false} SgrKeeps(m: Machine, args: seq<int>, i: nat)
    requires Valid(m) && i <= |args|
    ensures SameButPen(Sgr(m, args, i), m)
    decreases |args| - i
  {
    if i < |args| {
      var mode := args[i];
      if mode == 38 || mode == 48 {
        var isFG := mode == 38;
        var p := Advance(args, i + 1);
        var c := Color(SafeNext(args, p), SafeNext(args, Advance(args, p)), SafeNext(args, Advance(args, Advance(args, p))));
        if SafeNext(args, i + 1) == 2 && |args| >= 5 {
          if ValidColor(c) {
            SgrKeeps(WithTerm(m, SetRgb(m.term, isFG, c)), args, Advance(args, Advance(args, Advance(args, p))));
          }
        } else if SafeNext(args, i + 1) == 5 {
          SgrKeeps(WithTerm(m, SetIndex(m.term, isFG, SafeNext(args, p))), args, Advance(args, p));
        } else {
          SgrKeeps(m, args, p);
        }
      } else {
        SgrModeKeeps(m, mode);
        SgrKeeps(WithTerm(m, SgrMode(m.term, mode)), args, i + 1);
      }
    }
  }

  // ---------------------------------------------------------------------
  // DEC private modes

  /** The DEC private modes that switch one of the emulator's own flags. */
  predicate StateMode(mode: int)
  {
    mode == 1 || mode == 4 || mode == 7 || mode == 1004 || mode == 2004
  }

  /** The modes that only switch a flag. */
  predicate FlagMode(mode: int)
  {
    StateMode(mode) || DisplayMode(mode)
  }

  /** The modes with their own case besides the flags. */
  predicate SpecialMode(mode: int)
  {
    mode == 3 || mode == 6 || mode == 45 || mode == 1048 || mode == 1049
  }

  /** The emulator flag a mode switches, read back. */
  function StateFlagOf(d: DecMode, mode: int): bool
    requires StateMode(mode)
  {
    if mode == 1 then d.applicationCursorKeys
    else if mode == 4 then d.slowScroll
    else if mode == 7 then d.modeAutoWrap
    else if mode == 1004 then d.focusEvents
    else d.bracketedPasteMode
  }

  /** The terminal flag a mode switches, read back. */
  function DisplayFlagOf(t: Terminal, mode: int): bool
    requires DisplayMode(mode)
  {
    if mode == 5 then t.reverseVideo else if mode == 12 then t.cursorBlink else t.showCursor
  }

  /** The flag a mode switches, wherever it lives. */
  function FlagOf(m: Machine, mode: int): bool
    requires FlagMode(mode)
  {
    if DisplayMode(mode) then DisplayFlagOf(m.term, mode) else StateFlagOf(m.state.decMode, mode)
  }

  /** Every mode without a case of its own goes to the flag switch. */
  lemma StepIsFlag(m: Machine, mode: int, value: bool)
    requires Valid(m) && !SpecialMode(mode)
    ensures DecModeStep(m, mode, value) == DecModeFlag(m, mode, value)
  {
  }

  /** An emulator flag takes the value, the other flags and the pending wrap stay, and the old value puts it back. */
  lemma StateFlagRule(d: DecMode, mode: int, value: bool, other: int)
    requires StateMode(mode)
    ensures StateFlagOf(StateFlag(d, mode, value), mode) == value
    ensures StateMode(other) && other != mode ==> StateFlagOf(StateFlag(d, mode, value), other) == StateFlagOf(d, other)
    ensures StateFlag(d, mode, value).lcf == d.lcf
  {
  }

  lemma StateFlagRoundTrip(d: DecMode, mode: int, value: bool)
    requires StateMode(mode)
    ensures StateFlag(StateFlag(d, mode, value), mode, StateFlagOf(d, mode)) == d
  {
    var was := StateFlagOf(d, mode);
    var d1 := StateFlag(d, mode, value);
    var d2 := StateFlag(d1, mode, was);
    if mode == 1 {
      assert d2 == d1.(applicationCursorKeys := was);
    } else if mode == 4 {
      assert d2 == d1.(slowScroll := was);
    } else if mode == 7 {
      assert d2 == d1.(modeAutoWrap := was);
    } else if mode == 1004 {
      assert d2 == d1.(focusEvents := was);
    } else {
      assert d2 == d1.(bracketedPasteMode := was);
    }
    assert d2.lcf == d.lcf && d2.modeAutoWrap == d.modeAutoWrap && d2.originMode == d.originMode;
    assert d2.bracketedPasteMode == d.bracketedPasteMode && d2.focusEvents == d.focusEvents;
    assert d2.applicationCursorKeys == d.applicationCursorKeys && d2.slowScroll == d.slowScroll;
  }

  /** The same for the terminal's flags; the grid and the cursor stay. */
  lemma DisplayFlagRule(t: Terminal, mode: int, value: bool, other: int)
    requires Terminals.Valid(t) && DisplayMode(mode)
    ensures DisplayFlagOf(DisplayFlag(t, mode, value), mode) == value
    ensures DisplayMode(other) && other != mode ==> DisplayFlagOf(DisplayFlag(t, mode, value), other) == DisplayFlagOf(t, other)
    ensures var r := DisplayFlag(t, mode, value);
      r.screen == t.screen && r.cursorX == t.cursorX && r.cursorY == t.cursorY
    ensures DisplayFlag(DisplayFlag(t, mode, value), mode, DisplayFlagOf(t, mode)) == t
  {
  }

  /** A mode that is not a flag mode leaves every flag alone. */
  lemma OtherModesKeepFlags(d: DecMode, t: Terminal, mode: int, value: bool)
    requires Terminals.Valid(t) && !FlagMode(mode)
    ensures StateFlag(d, mode, value) == d && DisplayFlag(t, mode, value) == t
  {
  }

  /** Setting or resetting a flag mode sets that flag to the value and leaves every other flag. */
  lemma FlagSet(m: Machine, mode: int, value: bool, other: int)
    requires Valid(m) && FlagMode(mode)
    ensures FlagOf(DecModeFlag(m, mode, value), mode) == value
    ensures FlagMode(other) && other != mode ==> FlagOf(DecModeFlag(m, mode, value), other) == FlagOf(m, other)
    ensures var r := DecModeFlag(m, mode, value);
      r.term.screen == m.term.screen && r.term.cursorX == m.term.cursorX && r.term.cursorY == m.term.cursorY
  {
    if DisplayMode(mode) {
      DisplayFlagRule(m.term, mode, value, other);
    } else {
      StateFlagRule(m.state.decMode, mode, value, other);
    }
  }

  /** Putting a flag back to the value it had restores the machine exactly. */
  lemma FlagRoundTrip(m: Machine, mode: int, value: bool)
    requires Valid(m) && FlagMode(mode)
    ensures DecModeFlag(DecModeFlag(m, mode, value), mode, FlagOf(m, mode)) == m
  {
    if DisplayMode(mode) {
      DisplayFlagRule(m.term, mode, value, mode);
    } else {
      StateFlagRoundTrip(m.state.decMode, mode, value);
    }
  }

  /** A mode with no case at all, such as 1034, is logged and ignored. */
  lemma UnknownModeIgnored(m: Machine, mode: int, value: bool)
    requires Valid(m) && !FlagMode(mode) && !SpecialMode(mode)
    ensures DecModeStep(m, mode, value) == m
  {
    StepIsFlag(m, mode, value);
    OtherModesKeepFlags(m.state.decMode, m.term, mode, value);
  }

  /** A flag holding the value keeps it through a step with the same value. */
  lemma FlagKept(m: Machine, mode: int, other: int, value: bool)
    requires Valid(m) && FlagMode(other) && FlagOf(m, other) == value && !SpecialMode(mode)
    ensures FlagOf(DecModeStep(m, mode, value), other) == value
  {
    StepIsFlag(m, mode, value);
    if FlagMode(mode) {
      FlagSet(m, mode, value, other);
    } else {
      UnknownModeIgnored(m, mode, value);
    }
  }

  /**
   * A DECSET or DECRST list without the modes that have their own case
   * leaves every listed flag mode at the value, whatever the order.
   */
  lemma {:induction false} DecModesSetAll(m: Machine, args: seq<int>, n: nat, value: bool, k: int)
    requires Valid(m) && 0 <= k < n <= |args| && FlagMode(args[k])
    requires forall q :: 0 <= q < n ==> !SpecialMode(args[q])
    ensures FlagOf(DecModes(m, args, n, value), args[k]) == value
  {
    var m1 := DecModes(m, args, n - 1, value);
    if k == n - 1 {
      StepIsFlag(m1, args[k], value);
      FlagSet(m1, args[k], value, args[k]);
    } else {
      DecModesSetAll(m, args, n - 1, value, k);
      FlagKept(m1, args[n - 1], args[k], value);
    }
  }

  /** DECOM set puts the cursor on the region's top row; reset drops the region and homes the cursor. */
  lemma OriginModeRule(m: Machine)
    requires Valid(m) && (m.state.hasRegion ==> m.state.regionY1 < m.state.regionY2)
    ensures var r := OriginMode(m, true);
      r.state.decMode.originMode && r.term.cursorX == 0 && r.term.cursorY == m.state.regionY1
      && r.state.hasRegion == m.state.hasRegion
    ensures var r := OriginMode(m, false);
      !r.state.decMode.originMode && !r.state.hasRegion && r.term.cursorX == 0 && r.term.cursorY == 0
  {
  }

  /** Mode 1049 set: the cursor saved, application keys on, and the alternate screen blank. */
  lemma AltScreenClears(m: Machine, i: int, j: int)
    requires Valid(m) && m.term.altSupported && !m.term.altScreen
    ensures var r := AltScreenMode(m, true);
      && r.term.altScreen && r.state.decMode.applicationCursorKeys
      && r.state.savedCursorX == m.term.cursorX && r.state.savedCursorY == m.term.cursorY
      && Terminals.Cell(r.term, i, j) == CharPanes.BLANK
      && r.term.stored == m.term.screen
  {
    var m1 := SaveCursor(m);
    var m2 := WithDecMode(m1, m1.state.decMode.(applicationCursorKeys := true));
    Terminals.ClearTextCells(Terminals.SetAltScreen(m2.term, true), i, j);
  }

  /**
   * Mode 1049 set, then reset: the primary screen comes back as it was,
   * with the cursor where it was saved and application keys off.
   */
  lemma AltScreenRoundTrip(m: Machine)
    requires Valid(m) && m.term.altSupported && !m.term.altScreen
    requires RegionClamp(m.state, m.term.cursorY) == m.term.cursorY
    ensures var r := AltScreenMode(AltScreenMode(m, true), false);
      && r.term.screen == m.term.screen && !r.term.altScreen
      && r.term.cursorX == m.term.cursorX && r.term.cursorY == m.term.cursorY
      && !r.state.decMode.applicationCursorKeys
  {
    var m1 := AltScreenMode(m, true);
    assert m1.term.stored == m.term.screen && m1.term.altScreen && m1.term.altSupported;
    assert m1.state.savedCursorX == m.term.cursorX && m1.state.savedCursorY == m.term.cursorY;
    assert m1.state.hasRegion == m.state.hasRegion && m1.state.regionY1 == m.state.regionY1 && m1.state.regionY2 == m.state.regionY2;
    var m2 := WithDecMode(m1, m1.state.decMode.(applicationCursorKeys := false));
    var m3 := WithTerm(m2, Terminals.SetAltScreen(m2.term, false));
    assert m3.term.screen == m.term.screen;
    RestoreKeepsScreen(m3);
  }

  /** restoreCursor moves the cursor to the saved place, region-clamped, and keeps the grid. */
  lemma RestoreKeepsScreen(m: Machine)
    requires Valid(m)
    ensures var r := RestoreCursor(m);
      && r.term.screen == m.term.screen && r.term.altScreen == m.term.altScreen
      && r.term.cursorX == m.state.savedCursorX && r.term.cursorY == RegionClamp(m.state, m.state.savedCursorY)
      && r.state.decMode.applicationCursorKeys == m.state.decMode.applicationCursorKeys
  {
    RestoreSlotKeeps(m);
  }

  lemma RestoreSlotKeeps(m: Machine)
    requires Valid(m)
    ensures var r := RestoreSlot(m);
      && r.term.screen == m.term.screen && r.term.altScreen == m.term.altScreen
      && r.term.cursorX == m.state.savedCursorX && r.term.cursorY == RegionClamp(m.state, m.state.savedCursorY)
      && r.state.decMode.applicationCursorKeys == m.state.decMode.applicationCursorKeys
  {
  }

  // ---------------------------------------------------------------------
  // Charsets

  /** CharSet.valueOf: the constant with that name, or None where Java throws. */
  function CharSetOf(name: string): (c: Option<CharSet>)
  {
    match name
    case "CHARSET_GRAPHICS" => Some(CHARSET_GRAPHICS)
    case "CHARSET_UK" => Some(CHARSET_UK)
    case "CHARSET_US" => Some(CHARSET_US)
    case "CHARSET_DUTCH" => Some(CHARSET_DUTCH)
    case "CHARSET_FINNISH" => Some(CHARSET_FINNISH)
    case "CHARSET_FRENCH" => Some(CHARSET_FRENCH)
    case "CHARSET_GERMAN" => Some(CHARSET_GERMAN)
    case "CHARSET_SWEDISH" => Some(CHARSET_SWEDISH)
    case "CHARSET_NORDANISH" => Some(CHARSET_NORDANISH)
    case "CHARSET_OTHER" => Some(CHARSET_OTHER)
    case _ => None
  }

  /** valueOf reads back what toString gave: the names identify the charsets. */
  lemma NameRoundTrip(c: CharSet)
    ensures CharSetOf(CharSetName(c)) == Some(c)
  {
  }

  lemma NamesDistinct(c: CharSet, d: CharSet)
    ensures CharSetName(c) == CharSetName(d) <==> c == d
  {
    NameRoundTrip(c);
    NameRoundTrip(d);
  }

  /** Only '0' and SI designate the graphics set; 'B' is US ASCII and 'A' the UK set. */
  lemma GraphicsDesignators(c: char)
    ensures MapCharSet(c) == CHARSET_GRAPHICS <==> c == '0' || c == '\U{000F}'
    ensures MapCharSet('B') == CHARSET_US && MapCharSet('A') == CHARSET_UK
  {
  }

  /** A designation stores the charset's name in its slot, readable back, and leaves the other slots. */
  lemma DesignateRule(m: Machine, slot: int, c: char, other: int)
    requires Valid(m) && 0 <= slot < CharPanes.MAX_CHARSETS && 0 <= other < CharPanes.MAX_CHARSETS
    ensures var r := Designate(m, slot, c);
      && r.term.charSets[slot].Some? && CharSetOf(r.term.charSets[slot].value) == Some(MapCharSet(c))
      && (other != slot ==> r.term.charSets[other] == m.term.charSets[other])
      && r.term.charSet == m.term.charSet && r.term.screen == m.term.screen
  {
    NameRoundTrip(MapCharSet(c));
  }

  // ---------------------------------------------------------------------
  // Replies and events

  /** Reads a cursor report back: ESC [ row ; column R, both 1-based, as 0-based (x, y). */
  function ParseCursorReport(s: string): (r: Option<(int, int)>)
  {
    if |s| < 3 || s[..2] != EmulatorSpec.ESC + "[" || s[|s| - 1] != 'R' then None
    else
      var body := s[2..|s| - 1];
      var k := IndexOf(body, ';');
      if k < 0 then None
      else
        match (ParseInt(body[..k], 10), ParseInt(body[k + 1..], 10))
        case (Ok(row), Ok(col)) => Some((col - 1, row - 1))
        case _ => None
  }

  lemma NoSemicolon(v: int)
    ensures ';' !in IntToString(v)
  {
    var s := IntToString(v);
    if v < 0 {
      assert s == "-" + DecimalDigits(-v);
      assert forall q :: 1 <= q < |s| ==> s[q] == DecimalDigits(-v)[q - 1];
    }
  }

  /** The cursor report is unambiguous: it reads back as the position it reports. */
  lemma CursorReportRoundTrip(x: int, y: int)
    requires IsInt32(x + 1) && IsInt32(y + 1)
    ensures ParseCursorReport(CursorReport(x, y)) == Some((x, y))
  {
    var sy, sx := IntToString(y + 1), IntToString(x + 1);
    var s := CursorReport(x, y);
    assert s == EmulatorSpec.ESC + "[" + (sy + ";" + sx) + "R";
    var body := sy + ";" + sx;
    assert s[..2] == EmulatorSpec.ESC + "[" && s[|s| - 1] == 'R';
    assert s[2..|s| - 1] == body;
    NoSemicolon(y + 1);
    assert body[|sy|] == ';';
    assert body[..|sy|] == sy;
    assert ';' !in body[..|sy|];
    assert IndexOf(body, ';') == |sy|;
    assert body[|sy| + 1..] == sx;
    IntToStringParses(y + 1);
    IntToStringParses(x + 1);
  }

  /** The end of the stream, the requests and the xterm controls touch only the replies, the titles and the end of the session. */
  lemma SessionKeepsTerminal(m: Machine, inp: Input)
    requires Valid(m)
    requires GroupOf(inp.token) == EndOfStream || GroupOf(inp.token) == Identification || GroupOf(inp.token) == XtermControl
    ensures var r := NextToken(m, inp);
      r.term == m.term && r.state == m.state
  {
    var g := GroupOf(inp.token);
    if g == EndOfStream {
      assert NextToken(m, inp) == EndOfStreamToken(m, inp);
    } else if g == Identification {
      IdentificationKeepsTerminal(m, inp);
    } else {
      XtermControlKeepsTerminal(m, inp);
    }
  }

  lemma IdentificationKeepsTerminal(m: Machine, inp: Input)
    requires Valid(m) && GroupOf(inp.token) == Identification
    ensures NextToken(m, inp) == IdentificationToken(m, inp)
    ensures IdentificationToken(m, inp).term == m.term && IdentificationToken(m, inp).state == m.state
  {
  }

  lemma XtermControlKeepsTerminal(m: Machine, inp: Input)
    requires Valid(m) && GroupOf(inp.token) == XtermControl
    ensures NextToken(m, inp) == XtermControlToken(m, inp)
    ensures XtermControlToken(m, inp).term == m.term && XtermControlToken(m, inp).state == m.state
  {
  }

  /** DSR 6 answers with the cursor report; every other status request is ignored. */
  lemma DeviceStatusRule(m: Machine, args: seq<int>)
    ensures var r := DeviceStatus(m, args);
      && (Arg1(args) == 6 ==> r.replies == m.replies + [CursorReport(m.term.cursorX, m.term.cursorY)])
      && (Arg1(args) != 6 ==> r == m)
  {
  }

  /** OSC 0, 1 and 2 send one title event with the text; other kinds send none. */
  lemma GraphModeRule(m: Machine, kind: int, text: string)
    ensures var r := EmulatorSpec.GraphMode(m, kind, text);
      && (0 <= kind <= 2 ==> r.titles == m.titles + [Title(kind, text)])
      && (!(0 <= kind <= 2) ==> r.titles == m.titles)
      && r.replies == m.replies && r.term == m.term
  {
  }

  /** CSI 18 t reports the size in characters; the other window operations answer nothing. */
  lemma WindowSizeRule(m: Machine, args: seq<int>)
    ensures var r := WindowManipulation(m, args);
      && (|args| > 0 && args[0] == 18 ==> r.replies == m.replies + [SizeReport(m.term.columns, m.term.rows)])
      && (!(|args| > 0 && args[0] == 18) ==> r.replies == m.replies)
  {
  }

  /** XTSMGRAPHICS for the colour registers: read and read-maximum answer 1024, set and reset echo the value. */
  lemma GraphicsRule(m: Machine, action: int, value: int)
    ensures var r := SetGetGraphics(m, [1, action, value]);
      && (action == 1 || action == 4 ==> r.replies == m.replies + [GraphicsReport(1, 0, 1024)])
      && (action == 2 || action == 3 ==> r.replies == m.replies + [GraphicsReport(1, 0, value)])
      && (!(1 <= action <= 4) ==> r == m)
  {
  }
}
