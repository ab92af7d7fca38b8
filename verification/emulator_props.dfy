/**
 * What one token does to the cursor and to the cells of the screen: cursor
 * clamping, tabs, line feeds, the deferred wrap at the last column, the
 * erase and insert loops, and saving and restoring the cursor.
 */
module EmulatorProps {
  import opened Wrappers
  import opened JavaLang
  import opened Tokens
  import opened EmulatorSpec
  import Terminals
  import CharPanes
  import BlockMoves

  /** The scroll region holds at least one row of the screen. */
  predicate SaneRegion(m: Machine)
  {
    0 <= RegionMinY(m) < RegionMaxY(m) <= m.term.rows
  }

  /** The cursor is on the screen and inside a sane region. */
  predicate CursorInside(m: Machine)
  {
    SaneRegion(m) && 0 <= m.term.cursorX < m.term.columns && RegionMinY(m) <= m.term.cursorY < RegionMaxY(m)
  }

  function TokenOf(token: Token, args: seq<int>): Input
  {
    Input(token, [], args, ' ', "")
  }

  // ---------------------------------------------------------------------
  // Cursor motion

  /**
   * moveCursor keeps the cursor on the screen and in the region, moves it by
   * exactly (dx, dy) when that target is inside, clears the pending wrap and
   * changes nothing else.
   */
  lemma MoveCursorClamps(m: Machine, dx: int, dy: int)
    requires Valid(m) && m.term.columns > 0 && SaneRegion(m)
    ensures var r := MoveCursor(m, dx, dy);
      && CursorInside(r)
      && (0 <= m.term.cursorX + dx < m.term.columns ==> r.term.cursorX == m.term.cursorX + dx)
      && (RegionMinY(m) <= m.term.cursorY + dy < RegionMaxY(m) ==> r.term.cursorY == m.term.cursorY + dy)
      && r == WithLcf(WithTerm(m, m.term.(cursorX := r.term.cursorX, cursorY := r.term.cursorY)), false)
  {
  }

  /** A column is a tab stop when it is a multiple of the tab size. */
  predicate IsTabStop(k: int, tabSize: int)
    requires tabSize > 0
  {
    k % tabSize == 0
  }

  lemma MulSign(a: int, b: int)
    requires b > 0
    ensures a >= 1 ==> a * b >= b
    ensures a <= -1 ==> a * b <= -b
  {
  }

  lemma ModOfOffset(q: int, tabSize: int, d: int)
    requires tabSize > 0 && 0 <= d < tabSize
    ensures (q * tabSize + d) % tabSize == d
  {
    var k := q * tabSize + d;
    var a := k / tabSize - q;
    assert k == tabSize * (k / tabSize) + k % tabSize;
    assert a * tabSize == d - k % tabSize;
    MulSign(a, tabSize);
  }

  /**
   * HT goes to the first tab stop right of the cursor, or to the last
   * column when that stop lies beyond it, and never passes a stop.
   */
  lemma TabStopNext(x: int, tabSize: int, columns: int)
    requires 0 <= x < columns && tabSize > 0
    ensures var n := TabStop(x, tabSize, columns);
      && n <= columns - 1
      && (x < columns - 1 ==> x < n)
      && (n < columns - 1 ==> IsTabStop(n, tabSize))
      && forall k :: x < k < n ==> !IsTabStop(k, tabSize)
  {
    var q := x / tabSize;
    var n := TabStop(x, tabSize, columns);
    assert x == q * tabSize + x % tabSize;
    assert (q + 1) * tabSize == q * tabSize + tabSize;
    if n < columns - 1 {
      ModOfOffset(q + 1, tabSize, 0);
    }
    forall k | x < k < n
      ensures !IsTabStop(k, tabSize)
    {
      ModOfOffset(q, tabSize, k - q * tabSize);
    }
  }

  /** BS and DEL: one column left, from column 0 to the last column of the row above. */
  lemma BackspaceMoves(m: Machine)
    requires Valid(m)
    ensures var r := BackSpace(m);
      && (m.term.cursorX > 0 ==> r.term.cursorX == m.term.cursorX - 1 && r.term.cursorY == RegionClamp(m.state, m.term.cursorY))
      && (m.term.cursorX <= 0 ==> r.term.cursorX == m.term.columns - 1 && r.term.cursorY == RegionClamp(m.state, m.term.cursorY - 1))
      && r.term.screen == m.term.screen
  {
  }

  /** LF inside the region moves one row down and leaves the screen alone. */
  lemma LineFeedMoves(m: Machine)
    requires Valid(m) && CursorInside(m) && m.term.cursorY + 1 < RegionMaxY(m)
    ensures var r := LineFeed(m);
      r.term == m.term.(cursorY := m.term.cursorY + 1) && r.state == m.state.(decMode := m.state.decMode.(lcf := false))
  {
  }

  /** LF on the region's last row scrolls the region up one line and keeps the cursor on that row. */
  lemma LineFeedScrolls(m: Machine)
    requires Valid(m) && CursorInside(m) && m.term.cursorY + 1 == RegionMaxY(m)
    ensures var r := LineFeed(m);
      && r.term.screen == Terminals.Scroll(m.term, RegionMinY(m), RegionMaxY(m), 1, true).screen
      && r.term.cursorX == m.term.cursorX && r.term.cursorY == m.term.cursorY
  {
  }

  /** CUP with ESC [ 14 ; 43 H puts the cursor on row 13, column 42 (0-based). */
  lemma CursorPositionExample(m: Machine)
    requires Valid(m) && !m.state.hasRegion && !m.state.decMode.originMode
    ensures var r := CursorPosition(m, [14, 43]);
      r.term.cursorX == 42 && r.term.cursorY == 13
  {
  }

  /**
   * CUP takes 1-based row and column; outside origin mode the row is only
   * held to the region, in origin mode it counts from the region's top.
   */
  lemma CursorPositionRule(m: Machine, row: int, col: int)
    requires Valid(m)
    ensures var r := CursorPosition(m, [row, col]);
      && r.term.cursorX == col - 1
      && r.term.cursorY == RegionClamp(m.state, row - 1 + (if m.state.decMode.originMode then m.state.regionY1 else 0))
      && r.term.screen == m.term.screen && !r.state.decMode.lcf
    ensures var r := CursorPosition(m, []);
      r.term.cursorX == 0 && r.term.cursorY == RegionClamp(m.state, if m.state.decMode.originMode then m.state.regionY1 else 0)
  {
  }

  /** DECSTBM without arguments drops the region; with them it is rows [top - 1, bottom) and the cursor goes to its top. */
  lemma SetRegionRule(m: Machine, top: int, bottom: int)
    requires Valid(m)
    ensures var r := SetRegion(m, []);
      !r.state.hasRegion && RegionMaxY(r) == m.term.rows && r.term.cursorX == 0 && r.term.cursorY == 0
    ensures var r := SetRegion(m, [top, bottom]);
      && r.state.hasRegion && r.state.regionY1 == top - 1 && r.state.regionY2 == bottom
      && r.term.cursorX == 0 && (top - 1 <= bottom ==> r.term.cursorY == top - 1)
  {
  }

  // ---------------------------------------------------------------------
  // Writing characters

  /** Everything a write reads besides the cursor and the cells: the pen, the shape, the region, the wrap mode. */
  predicate SameFrame(a: Machine, b: Machine)
  {
    && a.term.rows == b.term.rows && a.term.columns == b.term.columns
    && a.term.drawStyle == b.term.drawStyle && a.term.foreground == b.term.foreground
    && a.term.background == b.term.background && a.term.customForeground == b.term.customForeground
    && a.term.customBackground == b.term.customBackground && a.term.charSet == b.term.charSet
    && a.term.charSets == b.term.charSets
    && a.state.hasRegion == b.state.hasRegion && a.state.regionY1 == b.state.regionY1
    && a.state.regionY2 == b.state.regionY2 && a.state.decMode.modeAutoWrap == b.state.decMode.modeAutoWrap
  }

  /** Off the last column a character lands under the cursor, which moves one column right. */
  lemma WriteCharAdvances(m: Machine, bytes: seq<jbyte>, i: int, j: int)
    requires Valid(m) && CursorInside(m) && m.term.cursorX < m.term.columns - 1
    ensures var r := WriteChar(m, bytes);
      && Terminals.Cell(r.term, i, j) ==
           (if i == m.term.cursorX && j == m.term.cursorY then Terminals.Pen(m.term, bytes) else Terminals.Cell(m.term, i, j))
      && r.term.cursorX == m.term.cursorX + 1 && r.term.cursorY == m.term.cursorY
      && SameFrame(r, m) && !r.state.decMode.lcf
  {
    Terminals.PutCharCells(m.term, bytes, m.term.cursorX, m.term.cursorY);
  }

  /** On the last column with auto-wrap the character is written and the wrap is only made pending. */
  lemma WriteCharDefersWrap(m: Machine, bytes: seq<jbyte>)
    requires Valid(m) && CursorInside(m) && m.term.cursorX == m.term.columns - 1
    requires m.state.decMode.modeAutoWrap && !m.state.decMode.lcf
    ensures var r := WriteChar(m, bytes);
      && Terminals.Cell(r.term, m.term.cursorX, m.term.cursorY) == Terminals.Pen(m.term, bytes)
      && r.term.cursorX == m.term.cursorX && r.term.cursorY == m.term.cursorY && r.state.decMode.lcf
    ensures WriteCharAsWritten(m, bytes) == WriteChar(m, bytes)
  {
    Terminals.PutCharCells(m.term, bytes, m.term.cursorX, m.term.cursorY);
  }

  /** The wrap pending above a row that is not the region's last: two characters written as the code does it. */
  predicate WrapPending(m: Machine)
  {
    && Valid(m) && CursorInside(m) && m.term.columns > 1 && m.term.cursorX == m.term.columns - 1
    && m.state.decMode.modeAutoWrap && m.state.decMode.lcf && m.term.cursorY + 1 < RegionMaxY(m)
  }

  /**
   * As written, the character after a pending wrap is put on column 0 of
   * the next row without moving the cursor, so the following character
   * lands on the same cell: of two characters only the second remains.
   */
  lemma WrapOverwritesAsWritten(m: Machine, b1: seq<jbyte>, b2: seq<jbyte>)
    requires WrapPending(m)
    ensures var m1 := WriteCharAsWritten(m, b1);
      m1.term.cursorX == 0 && m1.term.cursorY == m.term.cursorY + 1 &&
      Terminals.Cell(m1.term, 0, m.term.cursorY + 1) == Terminals.Pen(m.term, b1)
    ensures var r := WriteCharAsWritten(WriteCharAsWritten(m, b1), b2);
      && Terminals.Cell(r.term, 0, m.term.cursorY + 1) == Terminals.Pen(m.term, b2)
      && r.term.cursorX == 1 && r.term.cursorY == m.term.cursorY + 1
  {
    var m0 := AutoNewline(m);
    assert m0.term.cursorX == 0 && m0.term.cursorY == m.term.cursorY + 1;
    Terminals.PutCharCells(m0.term, b1, 0, m.term.cursorY + 1);
    var m1 := WriteCharAsWritten(m, b1);
    Terminals.PutCharCells(m1.term, b2, 0, m.term.cursorY + 1);
  }

  /**
   * With the wrap pending on a row above the region's last, the next
   * character first moves the cursor to column 0 of the next row without
   * scrolling, then is written as an ordinary character.
   */
  lemma PendingWrapNewline(m: Machine, bytes: seq<jbyte>)
    requires WrapPending(m)
    ensures var m0 := AutoNewline(m);
      && m0.term.cursorX == 0 && m0.term.cursorY == m.term.cursorY + 1 && SameFrame(m0, m)
      && WriteChar(m, bytes) == WriteChar(m0, bytes)
  {
  }

  /**
   * With the corrected wrap the two characters go to columns 0 and 1 of
   * the next row and the cursor stands on column 2.
   */
  lemma WrapKeepsBoth(m: Machine, b1: seq<jbyte>, b2: seq<jbyte>)
    requires WrapPending(m) && m.term.columns > 2
    ensures var r := WriteChar(WriteChar(m, b1), b2);
      && Terminals.Cell(r.term, 0, m.term.cursorY + 1) == Terminals.Pen(m.term, b1)
      && Terminals.Cell(r.term, 1, m.term.cursorY + 1) == Terminals.Pen(m.term, b2)
      && r.term.cursorX == 2 && r.term.cursorY == m.term.cursorY + 1
  {
    var y := m.term.cursorY + 1;
    PendingWrapNewline(m, b1);
    var m0 := AutoNewline(m);
    WriteCharAdvances(m0, b1, 0, y);
    var m1 := WriteChar(m0, b1);
    WriteCharAdvances(m1, b2, 0, y);
    WriteCharAdvances(m1, b2, 1, y);
  }

  /** r's cursor stands n columns right of m's on the same row, in the same frame. */
  predicate Advanced(m: Machine, r: Machine, n: int)
  {
    r.term.cursorX == m.term.cursorX + n && r.term.cursorY == m.term.cursorY && SameFrame(r, m)
  }

  /** A cursor advanced within the row is still inside, and writes with the same pen. */
  lemma AdvancedInside(m: Machine, m1: Machine, n: int, bytes: seq<jbyte>)
    requires Valid(m) && Valid(m1) && CursorInside(m) && Advanced(m, m1, n)
    requires 0 <= n && m.term.cursorX + n < m.term.columns
    ensures CursorInside(m1) && Terminals.Pen(m1.term, bytes) == Terminals.Pen(m.term, bytes)
  {
  }

  lemma AdvancedGrows(m: Machine, m1: Machine, m2: Machine, n: int)
    requires Advanced(m, m1, n - 1) && Advanced(m1, m2, 1)
    ensures Advanced(m, m2, n)
  {
  }

  /** One more character moves the cursor one more column. */
  lemma WriteCharsAdvance(m: Machine, bytes: seq<jbyte>, n: nat)
    requires Valid(m) && CursorInside(m) && 0 < n && m.term.cursorX + n < m.term.columns
    requires Advanced(m, WriteChars(m, bytes, n - 1), n - 1)
    ensures Advanced(m, WriteChars(m, bytes, n), n)
  {
    var m1 := WriteChars(m, bytes, n - 1);
    AdvancedInside(m, m1, n - 1, bytes);
    WriteCharAdvances(m1, bytes, 0, 0);
    AdvancedGrows(m, m1, WriteChars(m, bytes, n), n);
  }

  /** n characters written from a cursor with room for them leave the cursor n columns further right. */
  lemma {:induction false} WriteCharsCursor(m: Machine, bytes: seq<jbyte>, n: nat)
    requires Valid(m) && CursorInside(m) && m.term.cursorX + n < m.term.columns
    ensures Advanced(m, WriteChars(m, bytes, n), n)
    decreases n
  {
    if n > 0 {
      WriteCharsCursor(m, bytes, n - 1);
      WriteCharsAdvance(m, bytes, n);
    }
  }

  /** Cell (i, j) of t holds the pen of m where a run of n cells from m's cursor was written, else m's cell. */
  predicate RunWritten(m: Machine, t: Terminal, bytes: seq<jbyte>, n: int, i: int, j: int)
    requires Valid(m)
  {
    Terminals.Cell(t, i, j) ==
      if j == m.term.cursorY && m.term.cursorX <= i < m.term.cursorX + n then Terminals.Pen(m.term, bytes)
      else Terminals.Cell(m.term, i, j)
  }

  /** The n-th character goes to the cell the first n - 1 left the cursor on. */
  lemma WriteCharsLast(m: Machine, bytes: seq<jbyte>, n: nat, i: int, j: int)
    requires Valid(m) && CursorInside(m) && 0 < n && m.term.cursorX + n < m.term.columns
    ensures Terminals.Cell(WriteChars(m, bytes, n).term, i, j) ==
      if i == m.term.cursorX + n - 1 && j == m.term.cursorY then Terminals.Pen(m.term, bytes)
      else Terminals.Cell(WriteChars(m, bytes, n - 1).term, i, j)
  {
    var m1 := WriteChars(m, bytes, n - 1);
    WriteCharsCursor(m, bytes, n - 1);
    AdvancedInside(m, m1, n - 1, bytes);
    WriteCharAdvances(m1, bytes, i, j);
  }

  lemma RunGrows(m: Machine, t1: Terminal, t2: Terminal, bytes: seq<jbyte>, n: int, i: int, j: int)
    requires Valid(m) && 0 < n && RunWritten(m, t1, bytes, n - 1, i, j)
    requires Terminals.Cell(t2, i, j) ==
      if i == m.term.cursorX + n - 1 && j == m.term.cursorY then Terminals.Pen(m.term, bytes) else Terminals.Cell(t1, i, j)
    ensures RunWritten(m, t2, bytes, n, i, j)
  {
  }

  /**
   * The last of n characters goes to the cell the first n - 1 left the
   * cursor on, so a run of n - 1 written cells grows by one.
   */
  lemma WriteCharsStep(m: Machine, bytes: seq<jbyte>, n: nat, i: int, j: int)
    requires Valid(m) && CursorInside(m) && 0 < n && m.term.cursorX + n < m.term.columns
    requires RunWritten(m, WriteChars(m, bytes, n - 1).term, bytes, n - 1, i, j)
    ensures RunWritten(m, WriteChars(m, bytes, n).term, bytes, n, i, j)
  {
    var m1 := WriteChars(m, bytes, n - 1);
    WriteCharsLast(m, bytes, n, i, j);
    RunGrows(m, m1.term, WriteChars(m, bytes, n).term, bytes, n, i, j);
  }

  /** ... and fill n consecutive cells of its row, every other cell being kept. */
  lemma {:induction false} WriteCharsRun(m: Machine, bytes: seq<jbyte>, n: nat, i: int, j: int)
    requires Valid(m) && CursorInside(m) && m.term.cursorX + n < m.term.columns
    ensures RunWritten(m, WriteChars(m, bytes, n).term, bytes, n, i, j)
    decreases n
  {
    if n > 0 {
      WriteCharsRun(m, bytes, n - 1, i, j);
      WriteCharsStep(m, bytes, n, i, j);
    } else {
      assert WriteChars(m, bytes, n) == m;
    }
  }

  /** CHARACTER_REPEAT writes the last character n times, or ends the session before any character. */
  lemma RepeatRule(m: Machine, n: int)
    requires Valid(m) && n > 0
    ensures m.state.lastChar.None? ==> RepeatChar(m, Count([n])).terminated
    ensures m.state.lastChar.Some? ==>
      RepeatChar(m, Count([n])) == WriteChars(m, m.state.lastChar.value, n)
  {
  }

  // ---------------------------------------------------------------------
  // Scrolling

  /**
   * SU without an argument, as written, scrolls by arg1 = 0 lines, and the
   * pane's scroll by 0 lines clears the whole region.
   */
  lemma ScrollWithoutArgumentAsWritten(m: Machine, i: int, j: int)
    requires Valid(m) && SaneRegion(m) && 0 <= i < m.term.columns && RegionMinY(m) <= j < RegionMaxY(m)
    ensures ScrollCountAsWritten([]) == 0
    ensures Terminals.ScrollAsWritten(m.term, RegionMinY(m), RegionMaxY(m), ScrollCountAsWritten([]), true).Some?
    ensures Terminals.Cell(Terminals.ScrollAsWritten(m.term, RegionMinY(m), RegionMaxY(m), ScrollCountAsWritten([]), true).value, i, j)
            == CharPanes.BLANK
  {
    Terminals.ZeroScrollAsWrittenBlanks(m.term, RegionMinY(m), RegionMaxY(m), true, i, j);
  }

  /**
   * SU without an argument, with the count defaulting to 1: the region
   * scrolls up one line, its last row becomes blank, the other rows stay.
   */
  lemma ScrollWithoutArgument(m: Machine, i: int, j: int)
    requires Valid(m) && SaneRegion(m) && 0 <= i < m.term.columns && 0 <= j < m.term.rows
    ensures var r := ScrollLines(m, ScrollCount([]), true);
      && (RegionMinY(m) <= j < RegionMaxY(m) - 1 ==> Terminals.Cell(r.term, i, j) == Terminals.Cell(m.term, i, j + 1))
      && (j == RegionMaxY(m) - 1 ==> Terminals.Cell(r.term, i, j) == CharPanes.BLANK)
      && (j < RegionMinY(m) || RegionMaxY(m) <= j ==> Terminals.Cell(r.term, i, j) == Terminals.Cell(m.term, i, j))
  {
    Terminals.ScrollUpEffect(m.term, RegionMinY(m), RegionMaxY(m), 1, i, j);
  }

  // ---------------------------------------------------------------------
  // Erasing and inserting

  /** putChar over a run of n cells: the run takes the pen, every other cell is kept. */
  lemma {:induction false} PutRunCells(t: Terminal, bytes: seq<jbyte>, x: int, y: int, n: int, i: int, j: int)
    requires Terminals.Valid(t)
    ensures Terminals.Cell(PutRun(t, bytes, x, y, n), i, j) ==
      if j == y && x <= i < x + n && 0 <= i < t.columns && 0 <= j < t.rows then Terminals.Pen(t, bytes)
      else Terminals.Cell(t, i, j)
  {
    if j == y && x <= i < x + n && 0 <= i < t.columns && 0 <= j < t.rows {
      PutRunInside(t, bytes, x, y, n, i);
    } else {
      PutRunOutside(t, bytes, x, y, n, i, j);
    }
  }

  lemma {:induction false} PutRunInside(t: Terminal, bytes: seq<jbyte>, x: int, y: int, n: int, i: int)
    requires Terminals.Valid(t) && x <= i < x + n && 0 <= i < t.columns && 0 <= y < t.rows
    ensures Terminals.Cell(PutRun(t, bytes, x, y, n), i, y) == Terminals.Pen(t, bytes)
    decreases n
  {
    var t1 := PutRun(t, bytes, x, y, n - 1);
    Terminals.PutCharCell(t1, bytes, x + n - 1, y, i, y);
    Terminals.ScreenOnlyKeepsPen(t, t1, bytes);
    if i < x + n - 1 {
      PutRunInside(t, bytes, x, y, n - 1, i);
    }
  }

  lemma {:induction false} PutRunOutside(t: Terminal, bytes: seq<jbyte>, x: int, y: int, n: int, i: int, j: int)
    requires Terminals.Valid(t) && !(j == y && x <= i < x + n && 0 <= i < t.columns && 0 <= j < t.rows)
    ensures Terminals.Cell(PutRun(t, bytes, x, y, n), i, j) == Terminals.Cell(t, i, j)
    decreases n
  {
    if n > 0 {
      var t1 := PutRun(t, bytes, x, y, n - 1);
      Terminals.PutCharCell(t1, bytes, x + n - 1, y, i, j);
      Terminals.ScreenOnlyKeepsPen(t, t1, bytes);
      PutRunOutside(t, bytes, x, y, n - 1, i, j);
    }
  }

  /** DELETE_LINES' loops: spaces over all but the last column of rows y to y + n - 1, nothing else. */
  lemma {:induction false} BlankLinesCells(t: Terminal, y: int, n: int, i: int, j: int)
    requires Terminals.Valid(t)
    ensures Terminals.Cell(BlankLines(t, y, n), i, j) ==
      if y <= j < y + n && 0 <= i < t.columns - 1 && 0 <= j < t.rows then Terminals.Pen(t, CharPanes.SPACE_BYTES)
      else Terminals.Cell(t, i, j)
    decreases n
  {
    if n > 0 {
      BlankLinesCells(t, y, n - 1, i, j);
      PutRunCells(BlankLines(t, y, n - 1), CharPanes.SPACE_BYTES, 0, y + n - 1, t.columns - 1, i, j);
    }
  }

  /** decScreenAlignmentTest's loops: 'E' over every cell of rows y1 to y1 + n - 1. */
  lemma {:induction false} FillRowsCells(t: Terminal, y1: int, n: int, i: int, j: int)
    requires Terminals.Valid(t)
    ensures Terminals.Cell(FillRows(t, y1, n), i, j) ==
      if y1 <= j < y1 + n && 0 <= i < t.columns && 0 <= j < t.rows then Terminals.Pen(t, E_BYTES)
      else Terminals.Cell(t, i, j)
    decreases n
  {
    if n > 0 {
      FillRowsCells(t, y1, n - 1, i, j);
      PutRunCells(FillRows(t, y1, n - 1), E_BYTES, 0, y1 + n - 1, t.columns, i, j);
    }
  }

  /** DECALN fills the region's rows, or the screen's, with 'E' and keeps the cursor. */
  lemma AlignmentFills(m: Machine, i: int, j: int)
    requires Valid(m) && 0 <= i < m.term.columns && 0 <= j < m.term.rows
    ensures var r := Alignment(m);
      && Terminals.Cell(r.term, i, j) ==
           (if RegionMinY(m) <= j < RegionMaxY(m) then Terminals.Pen(m.term, E_BYTES) else Terminals.Cell(m.term, i, j))
      && r.term.cursorX == m.term.cursorX && r.term.cursorY == m.term.cursorY && r.state == m.state
  {
    FillRowsCells(m.term, RegionMinY(m), RegionMaxY(m) - RegionMinY(m), i, j);
  }

  /** EL without an argument: the pen's spaces from the cursor to the end of its row, nothing else. */
  lemma LineEraseToEnd(m: Machine, i: int, j: int)
    requires Valid(m) && 0 <= m.term.cursorX < m.term.columns && 0 <= m.term.cursorY < m.term.rows
    requires 0 <= i < m.term.columns && 0 <= j < m.term.rows
    ensures var r := LineErase(m, []);
      && Terminals.Cell(r.term, i, j) ==
           (if j == m.term.cursorY && m.term.cursorX <= i then Terminals.Pen(m.term, CharPanes.SPACE_BYTES)
            else Terminals.Cell(m.term, i, j))
      && r.term.cursorX == m.term.cursorX && r.term.cursorY == m.term.cursorY
  {
    var t := m.term;
    Terminals.ClearAreaCells(t, t.cursorX, t.cursorY, t.columns, t.cursorY + 1, i, j);
  }

  /** EL 1: from the start of the row up to the cursor, inclusive. */
  lemma LineEraseToCursor(m: Machine, i: int, j: int)
    requires Valid(m) && 0 <= m.term.cursorX < m.term.columns && 0 <= m.term.cursorY < m.term.rows
    requires 0 <= i < m.term.columns && 0 <= j < m.term.rows
    ensures var r := LineErase(m, [1]);
      Terminals.Cell(r.term, i, j) ==
        (if j == m.term.cursorY && i <= m.term.cursorX then Terminals.Pen(m.term, CharPanes.SPACE_BYTES)
         else Terminals.Cell(m.term, i, j))
  {
    var t := m.term;
    Terminals.ClearAreaCells(t, 0, t.cursorY, t.cursorX + 1, t.cursorY + 1, i, j);
  }

  /** ED without an argument clears every cell with the pen's spaces and homes the cursor. */
  lemma ScreenEraseAll(m: Machine, i: int, j: int)
    requires Valid(m) && 0 <= i < m.term.columns && 0 <= j < m.term.rows
    ensures var r := ScreenErase(m, []);
      && Terminals.Cell(r.term, i, j) == Terminals.Pen(m.term, CharPanes.SPACE_BYTES)
      && r.term.cursorX == 0 && r.term.cursorY == RegionClamp(m.state, 0)
  {
    var t := m.term;
    Terminals.ClearAreaCells(t, 0, 0, t.columns, t.rows, i, j);
  }

  /** One blank inserted at (x, y): the rest of the row shifts right by one, the last cell drops off. */
  lemma InsertBlankCells(t: Terminal, x: int, y: int, i: int, j: int)
    requires Terminals.Valid(t) && 0 <= x < t.columns && 0 <= y < t.rows && 0 <= i < t.columns && 0 <= j < t.rows
    ensures Terminals.Cell(InsertBlank(t, x, y), i, j) ==
      if j == y && i == x then Terminals.Pen(t, CharPanes.SPACE_BYTES)
      else if j == y && x < i then Terminals.Cell(t, i - 1, y)
      else Terminals.Cell(t, i, j)
  {
    var b := BlockMoves.Block(x, y, t.columns - x, 1, x + 1, y);
    Terminals.MoveCells(t, b, i, j);
    Terminals.PutCharCells(Terminals.Move(t, b).value, CharPanes.SPACE_BYTES, x, y);
  }

  /**
   * DCH of n characters, when the row right of the cursor holds at least
   * 2n cells: each cell takes the one n further right, and the last n
   * cells of the row are cleared.
   */
  lemma DeleteCharsCells(m: Machine, n: int, i: int, j: int)
    requires Valid(m) && n > 0 && 0 <= m.term.cursorX && m.term.cursorX + 2 * n <= m.term.columns
    requires 0 <= m.term.cursorY < m.term.rows && 0 <= i < m.term.columns && 0 <= j < m.term.rows
    ensures var r := DeleteChars(m, n);
      Terminals.Cell(r.term, i, j) ==
        if j == m.term.cursorY && m.term.cursorX <= i < m.term.columns - n then Terminals.Cell(m.term, i + n, j)
        else if j == m.term.cursorY && m.term.columns - n <= i then CharPanes.BLANK
        else Terminals.Cell(m.term, i, j)
  {
    var t := m.term;
    Terminals.MoveCells(t, DeleteBlock(t, n), i, j);
  }

  /**
   * DCH 100 at column 0 of an 80-column row, as written: the move has a
   * width of -20, so its column loop runs away, meeting its end only after
   * 2^32 - 20 passes.
   */
  lemma DeleteCharsRunsAway(m: Machine)
    requires Valid(m) && m.term.columns == 80 && m.term.cursorX == 0
    ensures Terminals.Move(m.term, DeleteBlock(m.term, 100)).None?
    ensures DeleteBlock(m.term, 100).width == -20 && !BlockMoves.ReverseX(DeleteBlock(m.term, 100))
    ensures forall k :: 0 <= k < 0x1_0000_0000 - 20 ==> BlockMoves.Int32(k) != -20
  {
    BlockMoves.LoopRunsAway(-20, false);
  }

  /**
   * DCH of n characters reaching past the last column: the row is blank
   * from the cursor on, other rows are kept.
   */
  lemma DeleteCharsPastEnd(m: Machine, n: int, i: int, j: int)
    requires Valid(m) && m.term.cursorX + n > m.term.columns
    requires 0 <= i < m.term.columns && 0 <= j < m.term.rows
    ensures var r := DeleteChars(m, n);
      Terminals.Cell(r.term, i, j) ==
        if j == m.term.cursorY && m.term.cursorX <= i then CharPanes.BLANK else Terminals.Cell(m.term, i, j)
  {
    Terminals.BlankRowFromCells(m.term, m.term.cursorX, m.term.cursorY, i, j);
  }

  // ---------------------------------------------------------------------
  // Saving and restoring the cursor

  /**
   * Restoring right after saving changes nothing, as long as the cursor
   * row is one setCursor keeps and the draw style is not 0 with colours
   * set (setDrawStyle(0) resets both colour indices).
   */
  lemma SaveRestoreRoundTrip(m: Machine)
    requires Valid(m) && RegionClamp(m.state, m.term.cursorY) == m.term.cursorY
    requires m.term.drawStyle != 0 || (m.term.foreground == -1 && m.term.background == -1)
    ensures RestoreCursor(SaveCursor(m)) == SaveCursor(m)
  {
    var s := SaveCursor(m);
    RestoreSlotAfterSave(m);
    var t := s.term;
    if t.charSets[t.charSet].Some? {
      assert t.charSets[t.charSet := t.charSets[t.charSet]] == t.charSets;
    }
  }

  /** The position, pending wrap, style and slot restored from a fresh save are the ones in place. */
  lemma RestoreSlotAfterSave(m: Machine)
    requires Valid(m) && RegionClamp(m.state, m.term.cursorY) == m.term.cursorY
    requires m.term.drawStyle != 0 || (m.term.foreground == -1 && m.term.background == -1)
    ensures RestoreSlot(SaveCursor(m)) == SaveCursor(m)
  {
    var s := SaveCursor(m);
    var m1 := SetCursor(s, s.state.savedCursorX, s.state.savedCursorY);
    assert m1.term == s.term;
    assert WithLcf(m1, s.state.savedLcf) == s;
    assert Terminals.SetDrawStyle(s.term, s.state.savedStyle) == s.term;
  }

  /** With draw style 0 the round trip drops the colour indices. */
  lemma SaveRestoreStyleZero(m: Machine)
    requires Valid(m) && m.term.drawStyle == 0
    ensures RestoreCursor(SaveCursor(m)).term.foreground == -1
    ensures RestoreCursor(SaveCursor(m)).term.background == -1
  {
  }

  /** The emulator as constructed, on terminal t. */
  function Fresh(t: Terminal): Machine
  {
    Machine(t, INITIAL_STATE, [], [], false)
  }

  /**
   * DECRC before any DECSC, as written: the saved charset name is null,
   * CharSet.valueOf throws and the session ends.
   */
  lemma RestoreBeforeSaveAsWritten(t: Terminal)
    requires Terminals.Valid(t)
    ensures RestoreCursorAsWritten(Fresh(t)).terminated
  {
  }

  /** The corrected restore homes the cursor, selects slot 0 and keeps the charset table. */
  lemma RestoreBeforeSave(t: Terminal)
    requires Terminals.Valid(t)
    ensures var r := RestoreCursor(Fresh(t));
      && !r.terminated && r.term.cursorX == 0 && r.term.cursorY == 0
      && r.term.charSet == 0 && r.term.charSets == t.charSets
  {
  }
}
