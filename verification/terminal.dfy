/**
 * The CharacterTerminal that VTxEmulator drives, as a plain value: the
 * cursor, the size, the visible grid of cell looks (the current text buffer
 * and the other one of the full/alternate pair), the draw pen and the
 * charset table. Each operation is the grid effect of the CharPane method
 * of the same name (CharPanes proves those on the pane's arrays); here they
 * are functions from one terminal value to the next.
 */
module Terminals {
  import opened Wrappers
  import opened JavaLang
  import opened JavaAwt
  import opened StyleChars
  import BlockMoves
  import CharPanes

  type Grid = seq<seq<Look>>

  /** A grid of rows x cols looks. */
  predicate Rect(g: Grid, rows: int, cols: int)
  {
    |g| == rows && forall r :: 0 <= r < |g| ==> |g[r]| == cols
  }

  datatype Terminal = Terminal(
    cursorX: int, cursorY: int, rows: int, columns: int,
    screen: Grid, stored: Grid, altScreen: bool, altSupported: bool,
    drawStyle: bv32, foreground: int, background: int,
    customForeground: Option<Color>, customBackground: Option<Color>,
    charSet: int, charSets: seq<Option<string>>,
    reverseVideo: bool, cursorBlink: bool, showCursor: bool)

  /** Both buffers are rows x columns, columns >= 0, and the current charset is a slot of the 16-entry table. */
  predicate Valid(t: Terminal)
  {
    && t.columns >= 0 && Rect(t.screen, t.rows, t.columns) && Rect(t.stored, t.rows, t.columns)
    && |t.charSets| == CharPanes.MAX_CHARSETS && 0 <= t.charSet < CharPanes.MAX_CHARSETS
  }

  /** The look at (x, y), or the blank look off the grid. */
  function Cell(t: Terminal, x: int, y: int): Look
  {
    if 0 <= y < |t.screen| && 0 <= x < |t.screen[y]| then t.screen[y][x] else CharPanes.BLANK
  }

  /** What putChar stores: the bytes with the current pen and charset, alpha reset. */
  function Pen(t: Terminal, bytes: seq<jbyte>): (l: Look)
    requires Valid(t)
    ensures l.bytes == bytes && l.style == t.drawStyle && l.charSet == t.charSets[t.charSet]
    ensures l.foreground == t.foreground && l.background == t.background && l.alpha == -1
  {
    Look(bytes, t.drawStyle, t.foreground, t.background, t.customForeground, t.customBackground,
         t.charSets[t.charSet], -1)
  }

  /** putChar(bytes, x, y): an in-bounds cell takes the pen; out of bounds nothing happens. */
  function PutChar(t: Terminal, bytes: seq<jbyte>, x: int, y: int): (r: Terminal)
    requires Valid(t)
    ensures Valid(r) && r == t.(screen := r.screen)
  {
    if 0 <= y < |t.screen| && 0 <= x < |t.screen[y]| then
      t.(screen := t.screen[y := t.screen[y][x := Pen(t, bytes)]])
    else t
  }

  /** A change of screen alone keeps the pen and the size. */
  lemma ScreenOnlyKeepsPen(t: Terminal, r: Terminal, bytes: seq<jbyte>)
    requires Valid(t) && Valid(r) && r == t.(screen := r.screen)
    ensures Pen(r, bytes) == Pen(t, bytes) && r.columns == t.columns && r.rows == t.rows
  {
  }

  /** The same, one cell at a time. */
  lemma PutCharCell(t: Terminal, bytes: seq<jbyte>, x: int, y: int, i: int, j: int)
    requires Valid(t)
    ensures Cell(PutChar(t, bytes, x, y), i, j) ==
      if i == x && j == y && 0 <= x < t.columns && 0 <= y < t.rows then Pen(t, bytes) else Cell(t, i, j)
  {
  }

  lemma PutCharCells(t: Terminal, bytes: seq<jbyte>, x: int, y: int)
    requires Valid(t)
    ensures 0 <= x < t.columns && 0 <= y < t.rows ==> Cell(PutChar(t, bytes, x, y), x, y) == Pen(t, bytes)
    ensures forall i, j :: (i != x || j != y) ==> Cell(PutChar(t, bytes, x, y), i, j) == Cell(t, i, j)
  {
  }

  /** writeChar(bytes): putChar at the cursor; the cursor does not move. */
  function WriteChar(t: Terminal, bytes: seq<jbyte>): (r: Terminal)
    requires Valid(t)
    ensures Valid(r) && r == t.(screen := r.screen)
  {
    PutChar(t, bytes, t.cursorX, t.cursorY)
  }

  /** setCursor(x, y): the pane stores any position. */
  function SetCursor(t: Terminal, x: int, y: int): (r: Terminal)
    ensures r.cursorX == x && r.cursorY == y && r == t.(cursorX := x, cursorY := y)
  {
    t.(cursorX := x, cursorY := y)
  }

  /** The grid with every cell of g[j][i] replaced by f(i, j). */
  function Remap(g: Grid, f: (int, int) -> Look): (h: Grid)
    ensures |h| == |g| && forall j :: 0 <= j < |g| ==> |h[j]| == |g[j]|
  {
    seq(|g|, j requires 0 <= j < |g| => seq(|g[j]|, i => f(i, j)))
  }

  lemma RemapAt(g: Grid, f: (int, int) -> Look, i: int, j: int)
    requires 0 <= j < |g| && 0 <= i < |g[j]|
    ensures Remap(g, f)[j][i] == f(i, j)
  {
  }

  /** The cell at (i, j) lies in clearArea's widened and clamped area. */
  predicate InArea(t: Terminal, x1: int, y1: int, x2: int, y2: int, i: int, j: int)
  {
    x1 <= i < CharPanes.AreaEnd(x1, x2, t.columns) && y1 <= j < CharPanes.AreaEnd(y1, y2, t.rows)
  }

  /** clearArea(x1, y1, x2, y2): every cell of the area takes the pen with a space. */
  function ClearArea(t: Terminal, x1: int, y1: int, x2: int, y2: int): (r: Terminal)
    requires Valid(t)
    ensures Valid(r) && r == t.(screen := r.screen)
  {
    var pen := Pen(t, CharPanes.SPACE_BYTES);
    t.(screen := Remap(t.screen, (i, j) =>
      if InArea(t, x1, y1, x2, y2, i, j) then pen else Cell(t, i, j)))
  }

  lemma ClearAreaCells(t: Terminal, x1: int, y1: int, x2: int, y2: int, i: int, j: int)
    requires Valid(t) && 0 <= i < t.columns && 0 <= j < t.rows
    ensures InArea(t, x1, y1, x2, y2, i, j) ==> Cell(ClearArea(t, x1, y1, x2, y2), i, j) == Pen(t, CharPanes.SPACE_BYTES)
    ensures !InArea(t, x1, y1, x2, y2, i, j) ==> Cell(ClearArea(t, x1, y1, x2, y2), i, j) == Cell(t, i, j)
  {
    RemapAt(t.screen, (i, j) =>
      if InArea(t, x1, y1, x2, y2, i, j) then Pen(t, CharPanes.SPACE_BYTES) else Cell(t, i, j), i, j);
  }

  /** clearArea() (clearText): every visible cell is reset to the blank look. */
  function ClearText(t: Terminal): (r: Terminal)
    requires Valid(t)
    ensures Valid(r) && r == t.(screen := r.screen)
  {
    t.(screen := Remap(t.screen, (i, j) => CharPanes.BLANK))
  }

  lemma ClearTextCells(t: Terminal, i: int, j: int)
    ensures Valid(t) ==> Cell(ClearText(t), i, j) == CharPanes.BLANK
  {
    if Valid(t) && 0 <= j < t.rows && 0 <= i < t.columns {
      RemapAt(t.screen, (i, j) => CharPanes.BLANK, i, j);
    }
  }

  /**
   * move(startX, startY, width, height, toX, toY) with no filler: a target
   * whose source is on the grid shows the source's old look, the other
   * source cells are blank, every other cell is kept.
   */
  function MoveCell(t: Terminal, b: BlockMoves.Block, i: int, j: int): Look
  {
    if BlockMoves.Copied(b, t.columns, t.rows, i, j) then Cell(t, i - b.toX + b.startX, j - b.toY + b.startY)
    else if BlockMoves.Vacated(b, i, j) then CharPanes.BLANK
    else Cell(t, i, j)
  }

  /**
   * The move, or None when its loops run away (BlockMoves.RunsAway): the
   * source then counts through the 32-bit range, which the model does not
   * follow.
   */
  function Move(t: Terminal, b: BlockMoves.Block): (r: Option<Terminal>)
    requires Valid(t)
    ensures r.None? <==> BlockMoves.RunsAway(b)
    ensures r.Some? ==> Valid(r.value) && r.value == t.(screen := r.value.screen)
  {
    if BlockMoves.RunsAway(b) then None
    else Some(t.(screen := Remap(t.screen, (i, j) => MoveCell(t, b, i, j))))
  }

  lemma MoveCells(t: Terminal, b: BlockMoves.Block, i: int, j: int)
    requires Valid(t) && 0 <= i < t.columns && 0 <= j < t.rows
    ensures Move(t, b).Some? ==> Cell(Move(t, b).value, i, j) == MoveCell(t, b, i, j)
  {
    RemapAt(t.screen, (i, j) => MoveCell(t, b, i, j), i, j);
  }

  /** Row y blanked from column x on, every other cell kept. */
  function BlankRowFrom(t: Terminal, x: int, y: int): (r: Terminal)
    requires Valid(t)
    ensures Valid(r) && r == t.(screen := r.screen)
  {
    t.(screen := Remap(t.screen, (i, j) => if j == y && x <= i then CharPanes.BLANK else Cell(t, i, j)))
  }

  lemma BlankRowFromCells(t: Terminal, x: int, y: int, i: int, j: int)
    requires Valid(t) && 0 <= i < t.columns && 0 <= j < t.rows
    ensures Cell(BlankRowFrom(t, x, y), i, j) == if j == y && x <= i then CharPanes.BLANK else Cell(t, i, j)
  {
    RemapAt(t.screen, (i, j) => if j == y && x <= i then CharPanes.BLANK else Cell(t, i, j), i, j);
  }

  /**
   * The pane's scrollRegion(s, e, n, up): the block move that
   * CharPane.scrollRegion makes, which runs away (None) exactly when the
   * scroll is by more lines than the region holds.
   */
  function ScrollAsWritten(t: Terminal, s: int, e: int, n: int, up: bool): (r: Option<Terminal>)
    requires Valid(t)
    ensures r.None? <==> n > e - s
    ensures r.Some? ==> Valid(r.value) && r.value == t.(screen := r.value.screen)
  {
    if up then Move(t, BlockMoves.Block(0, s + n, t.columns, e - s - n, 0, s))
    else Move(t, BlockMoves.Block(0, s, t.columns, e - s - n, 0, s + n))
  }

  /**
   * The row that row r of region [s, e) shows after scrolling n lines:
   * row r + n (up) or r - n (down) when that row lies in the region and on
   * the grid, otherwise none, and the row becomes blank.
   */
  function ScrollSource(t: Terminal, s: int, e: int, n: int, up: bool, r: int): Option<int>
  {
    var src := if up then r + n else r - n;
    if s <= src < e && 0 <= src < t.rows then Some(src) else None
  }

  function ScrollCell(t: Terminal, s: int, e: int, n: int, up: bool, i: int, j: int): Look
  {
    if s <= j < e then
      match ScrollSource(t, s, e, n, up, j)
      case Some(src) => Cell(t, i, src)
      case None => CharPanes.BLANK
    else Cell(t, i, j)
  }

  /**
   * scrollRegion(s, e, n, up) as a scroll is meant to work: inside rows
   * [s, e) every row shows the row n further on in the scroll direction,
   * and the rows with nothing to show become blank, however few rows the
   * region holds. The emulator model scrolls with this definition.
   */
  function Scroll(t: Terminal, s: int, e: int, n: int, up: bool): (r: Terminal)
    requires Valid(t)
    ensures Valid(r) && r == t.(screen := r.screen)
  {
    t.(screen := Remap(t.screen, (i, j) => ScrollCell(t, s, e, n, up, i, j)))
  }

  lemma ScrollCells(t: Terminal, s: int, e: int, n: int, up: bool, i: int, j: int)
    requires Valid(t) && 0 <= i < t.columns && 0 <= j < t.rows
    ensures Cell(Scroll(t, s, e, n, up), i, j) == ScrollCell(t, s, e, n, up, i, j)
  {
    RemapAt(t.screen, (i, j) => ScrollCell(t, s, e, n, up, i, j), i, j);
  }

  /**
   * Scrolling a region on the grid up by n >= 0 lines: rows [s, e - n) show
   * old row r + n, rows [max(s, e - n), e) are blank and the rows outside
   * the region are kept.
   */
  lemma ScrollUpEffect(t: Terminal, s: int, e: int, n: int, i: int, j: int)
    requires Valid(t) && 0 <= s && e <= t.rows && 0 <= n && 0 <= i < t.columns && 0 <= j < t.rows
    ensures s <= j < e - n ==> Cell(Scroll(t, s, e, n, true), i, j) == Cell(t, i, j + n)
    ensures s <= j < e && e - n <= j ==> Cell(Scroll(t, s, e, n, true), i, j) == CharPanes.BLANK
    ensures (j < s || e <= j) ==> Cell(Scroll(t, s, e, n, true), i, j) == Cell(t, i, j)
  {
    ScrollCells(t, s, e, n, true, i, j);
  }

  /**
   * Scrolling a region on the grid down by n >= 0 lines: rows [s + n, e)
   * show old row r - n, rows [s, min(e, s + n)) are blank and the rows
   * outside the region are kept.
   */
  lemma ScrollDownEffect(t: Terminal, s: int, e: int, n: int, i: int, j: int)
    requires Valid(t) && 0 <= s && e <= t.rows && 0 <= n && 0 <= i < t.columns && 0 <= j < t.rows
    ensures s + n <= j < e ==> Cell(Scroll(t, s, e, n, false), i, j) == Cell(t, i, j - n)
    ensures s <= j < e && j < s + n ==> Cell(Scroll(t, s, e, n, false), i, j) == CharPanes.BLANK
    ensures (j < s || e <= j) ==> Cell(Scroll(t, s, e, n, false), i, j) == Cell(t, i, j)
  {
    ScrollCells(t, s, e, n, false, i, j);
  }

  /**
   * The pane's scroll by zero lines moves the region onto itself: no cell
   * counts as copied and every cell of the region is cleared.
   */
  lemma ZeroScrollAsWrittenBlanks(t: Terminal, s: int, e: int, up: bool, i: int, j: int)
    requires Valid(t) && 0 <= s <= j < e <= t.rows && 0 <= i < t.columns
    ensures ScrollAsWritten(t, s, e, 0, up).Some?
    ensures Cell(ScrollAsWritten(t, s, e, 0, up).value, i, j) == CharPanes.BLANK
  {
    var b := BlockMoves.Block(0, s, t.columns, e - s, 0, s);
    BlockMoves.ZeroScrollBlanks(s, e, t.columns, t.rows, i, j);
    MoveCells(t, b, i, j);
  }

  /** Scrolling by zero lines changes nothing. */
  lemma ScrollZero(t: Terminal, s: int, e: int, up: bool)
    requires Valid(t)
    ensures Scroll(t, s, e, 0, up) == t
  {
    var r := Scroll(t, s, e, 0, up);
    forall j | 0 <= j < t.rows
      ensures r.screen[j] == t.screen[j]
    {
      forall i | 0 <= i < t.columns
        ensures r.screen[j][i] == t.screen[j][i]
      {
        ScrollCells(t, s, e, 0, up, i, j);
      }
    }
  }

  /**
   * When the region on the grid holds at least 2n rows, the pane's block
   * move is exactly the scroll: the two differ only on regions of fewer
   * than 2n rows.
   */
  lemma ScrollAgreesOnTallRegions(t: Terminal, s: int, e: int, n: int, up: bool)
    requires Valid(t) && 0 <= s && e <= t.rows && 0 < n && 2 * n <= e - s
    ensures ScrollAsWritten(t, s, e, n, up) == Some(Scroll(t, s, e, n, up))
  {
    var a, c := ScrollAsWritten(t, s, e, n, up).value, Scroll(t, s, e, n, up);
    forall j | 0 <= j < t.rows
      ensures a.screen[j] == c.screen[j]
    {
      forall i | 0 <= i < t.columns
        ensures a.screen[j][i] == c.screen[j][i]
      {
        ScrollAgreesAt(t, s, e, n, up, i, j);
      }
    }
    assert a.screen == c.screen;
  }

  lemma ScrollAgreesAt(t: Terminal, s: int, e: int, n: int, up: bool, i: int, j: int)
    requires Valid(t) && 0 <= s && e <= t.rows && 0 < n && 2 * n <= e - s
    requires 0 <= i < t.columns && 0 <= j < t.rows
    ensures ScrollAsWritten(t, s, e, n, up).Some?
    ensures Cell(ScrollAsWritten(t, s, e, n, up).value, i, j) == Cell(Scroll(t, s, e, n, up), i, j)
  {
    ScrollCells(t, s, e, n, up, i, j);
    if up {
      MoveCells(t, BlockMoves.Block(0, s + n, t.columns, e - s - n, 0, s), i, j);
      BlockMoves.ScrollUpRows(s, e, n, t.columns, t.rows, i, j);
    } else {
      MoveCells(t, BlockMoves.Block(0, s, t.columns, e - s - n, 0, s + n), i, j);
      BlockMoves.ScrollDownRows(s, e, n, t.columns, t.rows, i, j);
    }
  }

  /**
   * Inserting three lines at row 20 of a 24-row screen (a scroll down of
   * region [20, 24) by 3): the pane's move leaves row 21 as it was, while
   * the scroll blanks it.
   */
  lemma InsertLinesStaleRow(t: Terminal)
    requires Valid(t) && t.rows == 24 && t.columns == 80 && t.screen[21][0] != CharPanes.BLANK
    ensures ScrollAsWritten(t, 20, 24, 3, false).Some?
    ensures Cell(ScrollAsWritten(t, 20, 24, 3, false).value, 0, 21) == t.screen[21][0]
    ensures Cell(Scroll(t, 20, 24, 3, false), 0, 21) == CharPanes.BLANK
  {
    MoveCells(t, BlockMoves.Block(0, 20, 80, 1, 0, 23), 0, 21);
    BlockMoves.InsertLinesLeavesRows(0);
    ScrollCells(t, 20, 24, 3, false, 0, 21);
  }

  /**
   * Scrolling a 24-row screen up by 30 lines as written: the pane's move
   * has a height of -6 and runs away, its row counter meeting the end only
   * after 2^32 - 6 passes, while the scroll blanks the screen.
   */
  lemma OverlongScrollRunsAway(t: Terminal, i: int, j: int)
    requires Valid(t) && t.rows == 24 && 0 <= i < t.columns && 0 <= j < 24
    ensures ScrollAsWritten(t, 0, 24, 30, true).None?
    ensures forall k :: 0 <= k < 0x1_0000_0000 - 6 ==> BlockMoves.Int32(k) != -6
    ensures Cell(Scroll(t, 0, 24, 30, true), i, j) == CharPanes.BLANK
  {
    BlockMoves.LoopRunsAway(-6, false);
    OverlongScrollBlanks(t, 0, 24, 30, true, i, j);
  }

  /**
   * Scrolling a region on the grid by at least as many lines as it holds
   * blanks every row of the region, in either direction.
   */
  lemma OverlongScrollBlanks(t: Terminal, s: int, e: int, n: int, up: bool, i: int, j: int)
    requires Valid(t) && 0 <= s && e <= t.rows && n >= e - s && 0 <= i < t.columns && s <= j < e
    ensures Cell(Scroll(t, s, e, n, up), i, j) == CharPanes.BLANK
  {
    ScrollCells(t, s, e, n, up, i, j);
  }

  /** setDrawStyle(style): style 0 also resets both colour indices. */
  function SetDrawStyle(t: Terminal, style: bv32): (r: Terminal)
    ensures r.drawStyle == style
    ensures style == 0 ==> r.foreground == -1 && r.background == -1
    ensures style != 0 ==> r.foreground == t.foreground && r.background == t.background
    ensures r == t.(drawStyle := style, foreground := r.foreground, background := r.background)
    ensures Valid(t) ==> Valid(r)
  {
    if style == 0 then t.(drawStyle := style, foreground := -1, background := -1)
    else t.(drawStyle := style)
  }

  /** setDrawForeground(nr): the index, and the custom colour is dropped. */
  function SetDrawForeground(t: Terminal, nr: int): (r: Terminal)
    ensures r == t.(foreground := nr, customForeground := None)
    ensures Valid(t) ==> Valid(r)
  {
    t.(foreground := nr, customForeground := None)
  }

  function SetDrawBackground(t: Terminal, nr: int): (r: Terminal)
    ensures r == t.(background := nr, customBackground := None)
    ensures Valid(t) ==> Valid(r)
  {
    t.(background := nr, customBackground := None)
  }

  /** setReverseVideo, setCursorOptions and setEnableCursor: display flags only. */
  function SetDisplayFlags(t: Terminal, reverseVideo: bool, cursorBlink: bool, showCursor: bool): (r: Terminal)
    ensures Valid(t) ==> Valid(r)
    ensures r.reverseVideo == reverseVideo && r.cursorBlink == cursorBlink && r.showCursor == showCursor
    ensures r.(reverseVideo := t.reverseVideo, cursorBlink := t.cursorBlink, showCursor := t.showCursor) == t
  {
    t.(reverseVideo := reverseVideo, cursorBlink := cursorBlink, showCursor := showCursor)
  }

  /** setCharSet(nr): the slot putChar reads; the emulator passes slots 0 and 1 and saved slots. */
  function SetCharSet(t: Terminal, nr: int): (r: Terminal)
    requires 0 <= nr < CharPanes.MAX_CHARSETS
    ensures Valid(t) ==> Valid(r)
    ensures r == t.(charSet := nr)
  {
    t.(charSet := nr)
  }

  /** setCharSet(i, name): slot i holds the named charset. */
  function DesignateCharSet(t: Terminal, i: int, name: string): (r: Terminal)
    requires Valid(t) && 0 <= i < CharPanes.MAX_CHARSETS
    ensures Valid(r) && r.charSets[i] == Some(name)
    ensures forall k :: 0 <= k < |t.charSets| && k != i ==> r.charSets[k] == t.charSets[k]
    ensures r == t.(charSets := r.charSets)
  {
    t.(charSets := t.charSets[i := Some(name)])
  }

  /**
   * setAltScreenBuffer(useAlt): a pane without the option changes nothing;
   * otherwise the requested buffer becomes the current one and the other
   * is kept aside.
   */
  function SetAltScreen(t: Terminal, useAlt: bool): (r: Terminal)
    requires Valid(t)
    ensures Valid(r)
    ensures !t.altSupported ==> r == t
    ensures t.altSupported ==> r.altScreen == useAlt
    ensures t.altSupported && t.altScreen != useAlt ==> r.screen == t.stored && r.stored == t.screen
  {
    if !t.altSupported || t.altScreen == useAlt then t
    else t.(screen := t.stored, stored := t.screen, altScreen := useAlt)
  }

  /** Switching to the alternate buffer and back restores the original screen. */
  lemma AltScreenRoundTrip(t: Terminal)
    requires Valid(t) && !t.altScreen
    ensures SetAltScreen(SetAltScreen(t, true), false) == t
  {
  }
}
