/**
 * The grid operations of the newer character pane
 * (ui/panels/charpane/CharPane.java): a full and an alternate TextBuffer of
 * the pane's size, one of which is current, the cursor position and the draw
 * attributes that putChar gives to the characters it writes.
 */
module CharPanes {
  import opened Wrappers
  import opened JavaLang
  import opened JavaAwt
  import opened StyleChars
  import opened TextBuffers
  import opened BlockMoves

  const MAX_CHARSETS := 16

  /** What a cleared cell shows. */
  const BLANK: Look := Look([' ' as int], STYLE_NONE, -1, -1, None, None, None, -1)

  /** The cell holds a character that shows look and waits for a repaint. */
  predicate Shows(c: Option<StyleCell>, look: Look)
  {
    c.Some? && LookOf(c.value) == look && c.value.hasChanged
  }

  /** What move leaves in a source cell: a blank, or what the filler shows. */
  function FillLook(filler: Option<StyleCell>): Look
  {
    if filler.None? then BLANK else LookOf(filler.value)
  }

  /**
   * putChar's update of one cell: the bytes, the charset name, the draw style
   * and colours, alpha reset to -1, and the cell marked for repaint.
   */
  function Drawn(c: StyleCell, bytes: seq<jbyte>, charSet: Option<string>, style: bv32,
                 fg: int, bg: int, cf: Option<Color>, cb: Option<Color>): (r: StyleCell)
    requires |bytes| <= MAX_BYTES
    ensures LookOf(r) == Look(bytes, style, fg, bg, cf, cb, charSet, -1) && r.hasChanged
  {
    Marked(WithBytes(c, bytes, |bytes|).(charSet := charSet, style := style, foregroundColor := fg,
      backgroundColor := bg, customForeground := cf, customBackground := cb, alpha := -1), true)
  }

  /** The charset table after init: US in slot 0, graphics in slot 1, the other slots empty. */
  const INITIAL_CHARSETS: seq<Option<string>> :=
    [Some("CHARSET_US"), Some("CHARSET_GRAPHICS"), None, None, None, None, None, None,
     None, None, None, None, None, None, None, None]

  /** What putChar(' ', x, y) stores: the UTF-8 encoding of a space. */
  const SPACE_BYTES: seq<jbyte> := [32]

  /**
   * clearArea's exclusive end on one axis: an empty range [a1, a2) is widened
   * to one cell, then the end is clamped to the grid size.
   */
  function AreaEnd(a1: int, a2: int, size: int): (e: int)
    ensures e <= size
    ensures a2 != a1 ==> e == if a2 < size then a2 else size
    ensures a2 == a1 && a1 < size ==> e == a1 + 1
  {
    var widened := if a2 == a1 then a2 + 1 else a2;
    if widened > size then size else widened
  }

  /**
   * The first row whose old content the resize keeps: when rows are removed
   * and the cursor would fall off the new bottom, the content moves up so
   * that the cursor row becomes the last row.
   */
  function ResizeOffsetY(oldRows: int, newRs: int, cursorY: int): (offsety: int)
    ensures offsety >= 0
    ensures newRs < oldRows && cursorY >= newRs ==> newRs - 1 + offsety == cursorY
    ensures newRs >= oldRows || cursorY < newRs ==> offsety == 0
  {
    if newRs < oldRows && cursorY >= newRs then cursorY - newRs + 1 else 0
  }

  /** The grid's contents as rows of cells. */
  ghost function Contents(g: array2<Option<StyleCell>>): (r: seq<seq<Option<StyleCell>>>)
    reads g
    ensures Rect(r, g.Length0, g.Length1) && forall j, i :: 0 <= j < g.Length0 && 0 <= i < g.Length1 ==> r[j][i] == g[j, i]
  {
    seq(g.Length0, j requires 0 <= j < g.Length0 reads g => seq(g.Length1, i requires 0 <= i < g.Length1 reads g => g[j, i]))
  }

  /** A snapshot of a grid: rows of cells, all rows as wide as the first. */
  ghost predicate Rect(g: seq<seq<Option<StyleCell>>>, rows: int, cols: int)
  {
    |g| == rows && forall j :: 0 <= j < |g| ==> |g[j]| == cols
  }

  /** Cell (x, y) of a snapshot. */
  ghost function At(g: seq<seq<Option<StyleCell>>>, y: int, x: int): (c: Option<StyleCell>)
    requires 0 <= y < |g| && 0 <= x < |g[y]|
    ensures c == g[y][x]
  {
    g[y][x]
  }

  /**
   * The move loops' invariant once they stand at column x of row y, against
   * the grid's contents before the move: a cell that has received its copy
   * shows what its source showed, a source cell that has been handled shows
   * the fill, and every other cell is as before.
   */
  ghost predicate MovedSoFar(b: Block, filler: Option<StyleCell>, before: seq<seq<Option<StyleCell>>>,
                             cur: seq<seq<Option<StyleCell>>>, rows: int, cols: int, x: int, y: int)
  {
    Rect(before, rows, cols) && Rect(cur, rows, cols) &&
    forall py, px :: 0 <= py < rows && 0 <= px < cols ==>
      MovedCell(b, filler, before, At(cur, py, px), rows, cols, px, py, x, y)
  }

  /** MovedSoFar at one cell, whose content is c. */
  ghost predicate MovedCell(b: Block, filler: Option<StyleCell>, before: seq<seq<Option<StyleCell>>>,
                            c: Option<StyleCell>, rows: int, cols: int, px: int, py: int, x: int, y: int)
    requires Rect(before, rows, cols) && 0 <= py < rows && 0 <= px < cols
  {
    if CopyDone(b, cols, rows, px, py, x, y) then
      before[py - b.toY + b.startY][px - b.toX + b.startX].Some? &&
      Shows(c, LookOf(before[py - b.toY + b.startY][px - b.toX + b.startX].value))
    else if VacateDone(b, px, py, x, y) then Shows(c, FillLook(filler))
    else c == before[py][px]
  }

  /**
   * One pass of the move loops at block index (x, y), from grid cur to grid
   * nxt: the source cell shows the fill, the target cell (when the source is
   * on the grid) shows what the source showed, and every other cell is kept.
   */
  ghost predicate Stepped(b: Block, filler: Option<StyleCell>, cur: seq<seq<Option<StyleCell>>>,
                          nxt: seq<seq<Option<StyleCell>>>, rows: int, cols: int, x: int, y: int)
  {
    Rect(cur, rows, cols) && Rect(nxt, rows, cols) &&
    forall py, px :: 0 <= py < rows && 0 <= px < cols ==>
      StepCell(b, filler, cur, At(nxt, py, px), rows, cols, px, py, x, y)
  }

  /** Stepped at one cell, whose new content is c. */
  ghost predicate StepCell(b: Block, filler: Option<StyleCell>, cur: seq<seq<Option<StyleCell>>>,
                           c: Option<StyleCell>, rows: int, cols: int, px: int, py: int, x: int, y: int)
    requires Rect(cur, rows, cols) && 0 <= py < rows && 0 <= px < cols
  {
    var sx, sy := b.startX + x, b.startY + y;
    if px == sx && py == sy then Shows(c, FillLook(filler))
    else if px == b.toX + x && py == b.toY + y && InGrid(cols, rows, sx, sy) then
      cur[sy][sx].Some? && Shows(c, LookOf(cur[sy][sx].value))
    else c == cur[py][px]
  }

  /**
   * The outcome of move from grid before to grid after: each target whose
   * source is on the grid shows what the source showed, the other source
   * cells show the fill and every other cell is as before.
   */
  ghost predicate Moved(b: Block, filler: Option<StyleCell>, before: seq<seq<Option<StyleCell>>>,
                        after: seq<seq<Option<StyleCell>>>, rows: int, cols: int)
  {
    Rect(before, rows, cols) && Rect(after, rows, cols) &&
    forall py, px :: 0 <= py < rows && 0 <= px < cols ==>
      FinalCell(b, filler, before, At(after, py, px), rows, cols, px, py)
  }

  /** Moved at one cell, whose new content is c. */
  ghost predicate FinalCell(b: Block, filler: Option<StyleCell>, before: seq<seq<Option<StyleCell>>>,
                            c: Option<StyleCell>, rows: int, cols: int, px: int, py: int)
    requires Rect(before, rows, cols) && 0 <= py < rows && 0 <= px < cols
  {
    if Copied(b, cols, rows, px, py) then
      before[py - b.toY + b.startY][px - b.toX + b.startX].Some? &&
      Shows(c, LookOf(before[py - b.toY + b.startY][px - b.toX + b.startX].value))
    else if Vacated(b, px, py) then Shows(c, FillLook(filler))
    else c == before[py][px]
  }

  /** One pass of the move loops carries their invariant to the next column. */
  lemma StepKeepsMoved(b: Block, filler: Option<StyleCell>, before: seq<seq<Option<StyleCell>>>,
                       cur: seq<seq<Option<StyleCell>>>, nxt: seq<seq<Option<StyleCell>>>,
                       rows: int, cols: int, x: int, y: int)
    requires InBlock(b, x, y)
    requires MovedSoFar(b, filler, before, cur, rows, cols, x, y)
    requires Stepped(b, filler, cur, nxt, rows, cols, x, y)
    ensures MovedSoFar(b, filler, before, nxt, rows, cols, x + Step(ReverseX(b)), y)
  {
    var sx, sy := b.startX + x, b.startY + y;
    NextColumn(b, cols, rows, x, y);
    if InGrid(cols, rows, sx, sy) {
      assert MovedCell(b, filler, before, At(cur, sy, sx), rows, cols, sx, sy, x, y);
    }
    forall py, px | 0 <= py < rows && 0 <= px < cols
      ensures MovedCell(b, filler, before, At(nxt, py, px), rows, cols, px, py, x + Step(ReverseX(b)), y)
    {
      assert MovedCell(b, filler, before, At(cur, py, px), rows, cols, px, py, x, y);
      assert StepCell(b, filler, cur, At(nxt, py, px), rows, cols, px, py, x, y);
    }
  }

  /** Before the move loops start, the grid is its own snapshot and nothing is handled. */
  lemma StartMoved(b: Block, filler: Option<StyleCell>, before: seq<seq<Option<StyleCell>>>, rows: int, cols: int)
    requires Rect(before, rows, cols)
    ensures MovedSoFar(b, filler, before, before, rows, cols, Begin(b.width, ReverseX(b)), Begin(b.height, ReverseY(b)))
  {
    forall py, px | 0 <= py < rows && 0 <= px < cols
      ensures MovedCell(b, filler, before, At(before, py, px), rows, cols, px, py,
                        Begin(b.width, ReverseX(b)), Begin(b.height, ReverseY(b)))
    {
      NoneDone(b, cols, rows, px, py);
    }
  }

  /**
   * When the row loop has run out, each target whose source is on the grid
   * shows what the source showed, the other source cells show the fill and
   * the rest is as before.
   */
  lemma EndMoved(b: Block, filler: Option<StyleCell>, before: seq<seq<Option<StyleCell>>>,
                 cur: seq<seq<Option<StyleCell>>>, rows: int, cols: int)
    requires !RunsAway(b)
    requires MovedSoFar(b, filler, before, cur, rows, cols, Begin(b.width, ReverseX(b)), End(b.height, ReverseY(b)))
    ensures Moved(b, filler, before, cur, rows, cols)
  {
    forall py, px | 0 <= py < rows && 0 <= px < cols
      ensures FinalCell(b, filler, before, At(cur, py, px), rows, cols, px, py)
    {
      AllDone(b, cols, rows, px, py, Begin(b.width, ReverseX(b)));
      assert MovedCell(b, filler, before, At(cur, py, px), rows, cols, px, py,
                       Begin(b.width, ReverseX(b)), End(b.height, ReverseY(b)));
    }
  }

  /** Finishing a row of the move loops is starting the next one. */
  lemma RowKeepsMoved(b: Block, filler: Option<StyleCell>, before: seq<seq<Option<StyleCell>>>,
                      cur: seq<seq<Option<StyleCell>>>, rows: int, cols: int, y: int)
    requires b.width >= 0
    requires MovedSoFar(b, filler, before, cur, rows, cols, End(b.width, ReverseX(b)), y)
    ensures MovedSoFar(b, filler, before, cur, rows, cols, Begin(b.width, ReverseX(b)), y + Step(ReverseY(b)))
  {
    NextRow(b, cols, rows, y);
    forall py, px | 0 <= py < rows && 0 <= px < cols
      ensures MovedCell(b, filler, before, At(cur, py, px), rows, cols, px, py,
                        Begin(b.width, ReverseX(b)), y + Step(ReverseY(b)))
    {
      assert MovedCell(b, filler, before, At(cur, py, px), rows, cols, px, py, End(b.width, ReverseX(b)), y);
    }
  }

  /**
   * The block scrollRegion(s, e, n, up) moves over a grid of cols columns:
   * rows [s + n, e) to row s going up, rows [s, e - n) to row s + n going down.
   */
  function ScrollBlock(s: int, e: int, n: int, up: bool, cols: int): Block
  {
    if up then Block(0, s + n, cols, e - s - n, 0, s) else Block(0, s, cols, e - s - n, 0, s + n)
  }

  /**
   * scrollRegion(s, e, n, true) as written: rows [s, e - n) show old row r + n,
   * the rows of [e - n, e) that were part of the moved block are blank, and
   * every other row, rows [e - n, s + n) included, keeps its content.
   */
  lemma ScrolledUp(before: seq<seq<Option<StyleCell>>>, after: seq<seq<Option<StyleCell>>>,
                   rows: int, cols: int, s: int, e: int, n: int)
    requires 0 < n && 0 <= s && s + n <= e <= rows
    requires Moved(ScrollBlock(s, e, n, true, cols), None, before, after, rows, cols)
    ensures forall r, px :: 0 <= r < rows && 0 <= px < cols ==>
      ScrollUpRow(before, after[r][px], rows, cols, s, e, n, r, px)
  {
    forall r, px | 0 <= r < rows && 0 <= px < cols
      ensures ScrollUpRow(before, after[r][px], rows, cols, s, e, n, r, px)
    {
      ScrollUpRows(s, e, n, cols, rows, px, r);
      assert FinalCell(Block(0, s + n, cols, e - s - n, 0, s), None, before, At(after, r, px), rows, cols, px, r);
    }
  }

  /** ScrolledUp at one cell (px, r), whose new content is c. */
  ghost predicate ScrollUpRow(before: seq<seq<Option<StyleCell>>>, c: Option<StyleCell>,
                              rows: int, cols: int, s: int, e: int, n: int, r: int, px: int)
    requires Rect(before, rows, cols) && 0 <= r < rows && 0 <= px < cols && 0 < n && 0 <= s && e <= rows
  {
    if s <= r < e - n then before[r + n][px].Some? && Shows(c, LookOf(before[r + n][px].value))
    else if e - n <= r < e && s + n <= r then Shows(c, BLANK)
    else c == before[r][px]
  }

  /**
   * scrollRegion(s, e, n, false) as written: rows [s + n, e) show old row
   * r - n, the rows of [s, s + n) that were part of the moved block are
   * blank, and every other row, rows [e - n, s + n) included, keeps its
   * content.
   */
  lemma ScrolledDown(before: seq<seq<Option<StyleCell>>>, after: seq<seq<Option<StyleCell>>>,
                     rows: int, cols: int, s: int, e: int, n: int)
    requires 0 < n && 0 <= s && s + n <= e <= rows
    requires Moved(ScrollBlock(s, e, n, false, cols), None, before, after, rows, cols)
    ensures forall r, px :: 0 <= r < rows && 0 <= px < cols ==>
      ScrollDownRow(before, after[r][px], rows, cols, s, e, n, r, px)
  {
    forall r, px | 0 <= r < rows && 0 <= px < cols
      ensures ScrollDownRow(before, after[r][px], rows, cols, s, e, n, r, px)
    {
      ScrollDownRows(s, e, n, cols, rows, px, r);
      assert FinalCell(Block(0, s, cols, e - s - n, 0, s + n), None, before, At(after, r, px), rows, cols, px, r);
    }
  }

  /** ScrolledDown at one cell (px, r), whose new content is c. */
  ghost predicate ScrollDownRow(before: seq<seq<Option<StyleCell>>>, c: Option<StyleCell>,
                                rows: int, cols: int, s: int, e: int, n: int, r: int, px: int)
    requires Rect(before, rows, cols) && 0 <= r < rows && 0 <= px < cols && 0 < n && 0 <= s && e <= rows
  {
    if s + n <= r < e then before[r - n][px].Some? && Shows(c, LookOf(before[r - n][px].value))
    else if s <= r < s + n && r < e - n then Shows(c, BLANK)
    else c == before[r][px]
  }

  /** A buffer as the pane keeps it: no virtual area and a character in every cell. */
  ghost predicate Grid(buf: TextBuffer)
    reads buf, buf.textBuffer
  {
    buf.Valid() && buf.Full() && buf.virtualColumns == buf.nrColumns && buf.virtualRows == buf.nrRows
  }

  class CharPane {
    var numColumns: int
    var numRows: int
    var charSets: seq<Option<string>>
    var charSet: int
    var cursorX: int
    var cursorY: int
    var currentBuffer: TextBuffer
    var altTextBuffer: TextBuffer
    var fullBuffer: TextBuffer
    var drawStyle: bv32
    var drawForegroundIndex: int
    var drawBackgroundIndex: int
    var customBackground: Option<Color>
    var customForeground: Option<Color>
    var screenBufferNr: int
    /** The pane offers the alternate screen buffer. */
    const optionSupportAltScreenBuffer: bool := true

    /** A buffer as _resizeTextBuffers makes it: the pane's size, no virtual area, a character everywhere. */
    ghost predicate Screen(buf: TextBuffer)
      reads this, buf, buf.textBuffer
    {
      Grid(buf) && buf.nrColumns == numColumns && buf.nrRows == numRows
    }

    ghost predicate Valid()
      reads this, fullBuffer, altTextBuffer, currentBuffer, fullBuffer.textBuffer, altTextBuffer.textBuffer,
        currentBuffer.textBuffer
    {
      fullBuffer != altTextBuffer && fullBuffer.textBuffer != altTextBuffer.textBuffer &&
      (currentBuffer == fullBuffer || currentBuffer == altTextBuffer) &&
      Screen(fullBuffer) && Screen(altTextBuffer) && Screen(currentBuffer) && |charSets| == MAX_CHARSETS
    }

    /**
     * CharPane(), through init: an 80 x 25 pane with two new buffers, the
     * full one current, the cursor at the origin and the default draw style.
     */
    constructor()
      ensures Valid() && fresh(fullBuffer) && fresh(altTextBuffer)
      ensures fresh(fullBuffer.textBuffer) && fresh(altTextBuffer.textBuffer)
      ensures numColumns == 80 && numRows == 25 && currentBuffer == fullBuffer && screenBufferNr == 0
      ensures charSets == INITIAL_CHARSETS && charSet == 0 && cursorX == 0 && cursorY == 0
      ensures drawStyle == STYLE_NONE && drawForegroundIndex == -1 && drawBackgroundIndex == -1
      ensures customForeground.None? && customBackground.None?
      ensures forall y, x :: 0 <= y < 25 && 0 <= x < 80 ==>
        fullBuffer.textBuffer[y, x] == Some(NEW_CELL) && altTextBuffer.textBuffer[y, x] == Some(NEW_CELL)
    {
      numColumns := 80;
      numRows := 25;
      charSets := INITIAL_CHARSETS;
      charSet := 0;
      cursorX := 0;
      cursorY := 0;
      drawStyle := STYLE_NONE;
      drawForegroundIndex := -1;
      drawBackgroundIndex := -1;
      customBackground := None;
      customForeground := None;
      screenBufferNr := 0;
      fullBuffer := new TextBuffer(80, 25, 80, 25);
      altTextBuffer := new TextBuffer(80, 25, 80, 25);
      currentBuffer := fullBuffer;
    }

    /**
     * The cell c after putChar(bytes): the bytes with the pane's charset name,
     * draw style and colours, alpha reset, and marked for repaint.
     */
    function Pen(c: StyleCell, bytes: seq<jbyte>): (r: StyleCell)
      requires 0 <= charSet < |charSets| && |bytes| <= MAX_BYTES
      reads this
      ensures LookOf(r) == Look(bytes, drawStyle, drawForegroundIndex, drawBackgroundIndex,
                                customForeground, customBackground, charSets[charSet], -1)
      ensures r.hasChanged
    {
      Drawn(c, bytes, charSets[charSet], drawStyle, drawForegroundIndex, drawBackgroundIndex,
            customForeground, customBackground)
    }

    /** characterChanged: the cell at (x, y), when there is one, and the current buffer are marked for repaint. */
    method CharacterChanged(x: int, y: int)
      requires Valid()
      modifies currentBuffer, currentBuffer.textBuffer
      ensures Valid() && currentBuffer.textBuffer == old(currentBuffer.textBuffer) && currentBuffer.bufferChanged
      ensures var g := currentBuffer.textBuffer;
        forall j, i :: 0 <= j < g.Length0 && 0 <= i < g.Length1 ==>
          g[j, i] == if j == y && i == x then Some(Marked(old(g[j, i]).value, true)) else old(g[j, i])
    {
      currentBuffer.NeedsRepaint(x, y, true);
    }

    /**
     * setCursor: the cursor moves to (x, y) even when that is off the grid
     * (the source only logs it); the cells at the new and the old position
     * are marked for repaint.
     */
    method SetCursor(x: int, y: int)
      requires Valid()
      modifies this`cursorX, this`cursorY, currentBuffer, currentBuffer.textBuffer
      ensures Valid() && cursorX == x && cursorY == y
      ensures currentBuffer.textBuffer == old(currentBuffer.textBuffer) && currentBuffer.bufferChanged
      ensures var g := currentBuffer.textBuffer;
        forall j, i :: 0 <= j < g.Length0 && 0 <= i < g.Length1 ==>
          g[j, i] == if (j == y && i == x) || (j == old(cursorY) && i == old(cursorX))
            then Some(Marked(old(g[j, i]).value, true)) else old(g[j, i])
    {
      var prefx, prefy := cursorX, cursorY;
      cursorX := x;
      cursorY := y;
      CharacterChanged(cursorX, cursorY);
      CharacterChanged(prefx, prefy);
    }

    /**
     * putChar(bytes, x, y): off the grid nothing happens; on it the cell
     * takes the bytes and the pane's draw attributes and is marked for
     * repaint.
     */
    method PutChar(bytes: seq<jbyte>, x: int, y: int)
      requires Valid()
      requires currentBuffer.CheckBounds(x, y) ==> |bytes| <= MAX_BYTES && 0 <= charSet < |charSets|
      modifies currentBuffer, currentBuffer.textBuffer
      ensures Valid() && currentBuffer.textBuffer == old(currentBuffer.textBuffer)
      ensures currentBuffer.bufferChanged == (old(currentBuffer.bufferChanged) || currentBuffer.CheckBounds(x, y))
      ensures var g := currentBuffer.textBuffer;
        forall j, i :: 0 <= j < g.Length0 && 0 <= i < g.Length1 ==>
          g[j, i] == if j == y && i == x then Some(Pen(old(g[j, i]).value, bytes)) else old(g[j, i])
    {
      var buf := currentBuffer;
      if !buf.CheckBounds(x, y) {
        return;
      }
      var sChar := buf.Get(x, y).value;
      buf.textBuffer[y, x] := Some(Pen(sChar, bytes));
      CharacterChanged(x, y);
    }

    /** The cells that clearArea(x1, y1, x2, y2) writes: widened, clamped, and on the grid. */
    predicate InArea(x1: int, y1: int, x2: int, y2: int, i: int, j: int)
      reads this
    {
      x1 <= i < AreaEnd(x1, x2, numColumns) && y1 <= j < AreaEnd(y1, y2, numRows)
    }

    /** Some cell of the grid lies in the area. */
    predicate AreaMeetsGrid(x1: int, y1: int, x2: int, y2: int)
      reads this
    {
      Max(x1, 0) < AreaEnd(x1, x2, numColumns) && Max(y1, 0) < AreaEnd(y1, y2, numRows)
    }

    /**
     * clearArea(x1, y1, x2, y2): every grid cell of [x1, x2) x [y1, y2), an
     * empty range widened to one and the ends clamped to the grid, becomes a
     * space with the pane's draw attributes; the rest is unchanged.
     */
    method ClearArea(x1: int, y1: int, x2: int, y2: int)
      requires Valid()
      requires AreaMeetsGrid(x1, y1, x2, y2) ==> 0 <= charSet < |charSets|
      modifies currentBuffer, currentBuffer.textBuffer
      ensures Valid() && currentBuffer.textBuffer == old(currentBuffer.textBuffer)
      ensures old(currentBuffer.bufferChanged) ==> currentBuffer.bufferChanged
      ensures var g := currentBuffer.textBuffer;
        forall j, i :: 0 <= j < g.Length0 && 0 <= i < g.Length1 ==>
          g[j, i] == if InArea(x1, y1, x2, y2, i, j) then Some(Pen(old(g[j, i]).value, SPACE_BYTES)) else old(g[j, i])
    {
      var ex, ey := AreaEnd(x1, x2, numColumns), AreaEnd(y1, y2, numRows);
      var g := currentBuffer.textBuffer;
      var y := y1;
      while y < ey
        invariant Valid() && currentBuffer.textBuffer == g
        invariant g.Length0 == numRows && g.Length1 == numColumns
        invariant y1 <= y <= Max(y1, ey)
        invariant old(currentBuffer.bufferChanged) ==> currentBuffer.bufferChanged
        invariant forall j, i :: 0 <= j < g.Length0 && 0 <= i < g.Length1 ==>
          g[j, i] == if j < y && InArea(x1, y1, x2, y2, i, j) then Some(Pen(old(g[j, i]).value, SPACE_BYTES)) else old(g[j, i])
      {
        ClearRow(x1, ex, y);
        y := y + 1;
      }
    }

    /** clearArea's column loop: row y from x1 to ex writes spaces with the draw attributes. */
    method ClearRow(x1: int, ex: int, y: int)
      requires Valid() && ex <= numColumns
      requires Max(x1, 0) < ex && 0 <= y < numRows ==> 0 <= charSet < |charSets|
      modifies currentBuffer, currentBuffer.textBuffer
      ensures Valid() && currentBuffer.textBuffer == old(currentBuffer.textBuffer)
      ensures old(currentBuffer.bufferChanged) ==> currentBuffer.bufferChanged
      ensures var g := currentBuffer.textBuffer;
        forall j, i :: 0 <= j < g.Length0 && 0 <= i < g.Length1 ==>
          g[j, i] == if j == y && x1 <= i < ex then Some(Pen(old(g[j, i]).value, SPACE_BYTES)) else old(g[j, i])
    {
      var g := currentBuffer.textBuffer;
      var x := x1;
      while x < ex
        invariant Valid() && currentBuffer.textBuffer == g
        invariant g.Length0 == numRows && g.Length1 == numColumns
        invariant x1 <= x <= Max(x1, ex)
        invariant old(currentBuffer.bufferChanged) ==> currentBuffer.bufferChanged
        invariant forall j, i :: 0 <= j < g.Length0 && 0 <= i < g.Length1 ==>
          g[j, i] == if j == y && x1 <= i < x then Some(Pen(old(g[j, i]).value, SPACE_BYTES)) else old(g[j, i])
      {
        PutChar(SPACE_BYTES, x, y);
        x := x + 1;
      }
    }

    /**
     * move: the block copy, reading each source cell before it is written.
     * Afterwards a cell whose source lies on the grid shows what that source
     * showed, each other source cell is blank (or shows the filler), and the
     * rest of the grid is unchanged. A block whose loops run away (a negative
     * height, or a negative width on a block with rows) is reported as not
     * finished and the grid is left as it was.
     */
    method Move(startX: int, startY: int, width: int, height: int, toX: int, toY: int, filler: Option<StyleCell>)
      returns (finished: bool)
      requires Valid()
      requires filler.Some? && width > 0 && height > 0 ==>
        0 <= startX && startX + width <= numColumns && 0 <= startY && startY + height <= numRows
      modifies currentBuffer, currentBuffer.textBuffer
      ensures Valid() && currentBuffer.textBuffer == old(currentBuffer.textBuffer)
      ensures old(currentBuffer.bufferChanged) ==> currentBuffer.bufferChanged
      ensures finished == !RunsAway(Block(startX, startY, width, height, toX, toY))
      ensures finished ==> Moved(Block(startX, startY, width, height, toX, toY), filler,
                                 old(Contents(currentBuffer.textBuffer)), Contents(currentBuffer.textBuffer), numRows, numColumns)
      ensures !finished ==> Contents(currentBuffer.textBuffer) == old(Contents(currentBuffer.textBuffer))
    {
      finished := MoveBlock(currentBuffer, Block(startX, startY, width, height, toX, toY), filler);
    }

    /**
     * scrollRegion(s, e, n, up): the move of ScrollBlock(s, e, n, up), the
     * block of rows [s + n, e) to row s going up and the block of rows
     * [s, e - n) to row s + n going down. ScrolledUp and ScrolledDown say
     * what that does to each row. Scrolling by more lines than the region
     * holds gives the block a negative height, and the move runs away.
     */
    method ScrollRegion(startline: int, endline: int, lines: int, up: bool) returns (finished: bool)
      requires Valid()
      modifies currentBuffer, currentBuffer.textBuffer
      ensures Valid() && currentBuffer.textBuffer == old(currentBuffer.textBuffer)
      ensures old(currentBuffer.bufferChanged) ==> currentBuffer.bufferChanged
      ensures finished <==> lines <= endline - startline
      ensures finished ==> Moved(ScrollBlock(startline, endline, lines, up, numColumns), None,
                                 old(Contents(currentBuffer.textBuffer)), Contents(currentBuffer.textBuffer), numRows, numColumns)
      ensures !finished ==> Contents(currentBuffer.textBuffer) == old(Contents(currentBuffer.textBuffer))
    {
      var b := ScrollBlock(startline, endline, lines, up, numColumns);
      finished := Move(b.startX, b.startY, b.width, b.height, b.toX, b.toY, None);
      assert Block(b.startX, b.startY, b.width, b.height, b.toX, b.toY) == b;
    }

    /** setDrawStyle: the style word is replaced; style 0 also resets both colour indices. */
    method SetDrawStyle(style: bv32)
      modifies this`drawStyle, this`drawForegroundIndex, this`drawBackgroundIndex
      ensures drawStyle == style
      ensures style == 0 ==> drawForegroundIndex == -1 && drawBackgroundIndex == -1
      ensures style != 0 ==> drawForegroundIndex == old(drawForegroundIndex) && drawBackgroundIndex == old(drawBackgroundIndex)
    {
      drawStyle := style;
      if style == 0 {
        drawBackgroundIndex := -1;
        drawForegroundIndex := -1;
      }
    }

    /** addDrawStyle: setDrawStyle of the style word with the flags of style added. */
    method AddDrawStyle(style: bv32)
      modifies this`drawStyle, this`drawForegroundIndex, this`drawBackgroundIndex
      ensures drawStyle == old(drawStyle) | style
      ensures drawStyle == 0 ==> drawForegroundIndex == -1 && drawBackgroundIndex == -1
      ensures drawStyle != 0 ==> drawForegroundIndex == old(drawForegroundIndex) && drawBackgroundIndex == old(drawBackgroundIndex)
    {
      SetDrawStyle(drawStyle | style);
    }

    /** setDrawBackground(nr): an indexed background, which replaces a custom one. */
    method SetDrawBackground(nr: int)
      modifies this`drawBackgroundIndex, this`customBackground
      ensures drawBackgroundIndex == nr && customBackground.None?
    {
      drawBackgroundIndex := nr;
      customBackground := None;
    }

    /** setDrawForeground(nr): an indexed foreground, which replaces a custom one. */
    method SetDrawForeground(nr: int)
      modifies this`drawForegroundIndex, this`customForeground
      ensures drawForegroundIndex == nr && customForeground.None?
    {
      drawForegroundIndex := nr;
      customForeground := None;
    }

    /** setDrawForeground(r, g, b): a custom foreground; the index is kept. */
    method SetDrawForegroundRgb(r: int, g: int, b: int)
      requires 0 <= r <= 255 && 0 <= g <= 255 && 0 <= b <= 255
      modifies this`customForeground
      ensures customForeground == Some(Color(r, g, b))
    {
      customForeground := Some(Color(r, g, b));
    }

    /** setDrawBackground(r, g, b): a custom background; the index is kept. */
    method SetDrawBackgroundRgb(r: int, g: int, b: int)
      requires 0 <= r <= 255 && 0 <= g <= 255 && 0 <= b <= 255
      modifies this`customBackground
      ensures customBackground == Some(Color(r, g, b))
    {
      customBackground := Some(Color(r, g, b));
    }

    /** setCharSet: the slot of the charset table that putChar reads. */
    method SetCharSet(nr: int)
      modifies this`charSet
      ensures charSet == nr
    {
      charSet := nr;
    }

    /**
     * setAltScreenBuffer(useAlt): the alternate buffer becomes current when
     * useAlt holds, the full one otherwise; screenBufferNr says which. A
     * pane without the option refuses (false) and changes nothing.
     */
    method SetAltScreenBuffer(useAlt: bool) returns (ok: bool)
      requires Valid()
      modifies this`currentBuffer, this`screenBufferNr
      ensures Valid() && ok == optionSupportAltScreenBuffer
      ensures !ok ==> unchanged(this)
      ensures ok ==> currentBuffer == (if useAlt then altTextBuffer else fullBuffer)
      ensures ok ==> screenBufferNr == if useAlt then 1 else 0
    {
      if !optionSupportAltScreenBuffer {
        return false;
      }
      if useAlt {
        currentBuffer := altTextBuffer;
      } else {
        currentBuffer := fullBuffer;
      }
      screenBufferNr := if useAlt then 1 else 0;
      return true;
    }

    /**
     * _resizeTextBuffers: ignored (false) when neither initAll nor a change of
     * size asks for it. Otherwise two new buffers of the new size, the full one
     * current; with copyContent new cell (x, y) takes old cell (x, y + offsety)
     * where that exists, offsety moving the cursor row onto the last new row
     * when the cursor would fall off.
     */
    method ResizeBuffers(newCs: int, newRs: int, copyContent: bool, initAll: bool) returns (resized: bool)
      requires Valid() && newCs >= 0 && newRs >= 0
      modifies this`numColumns, this`numRows, this`fullBuffer, this`altTextBuffer, this`currentBuffer
      ensures Valid()
      ensures resized == (initAll || old(numColumns) != newCs || old(numRows) != newRs)
      ensures !resized ==> unchanged(this)
      ensures resized ==> numColumns == newCs && numRows == newRs && currentBuffer == fullBuffer
      ensures resized ==> fresh(fullBuffer) && fresh(altTextBuffer) && fresh(fullBuffer.textBuffer) && fresh(altTextBuffer.textBuffer)
      ensures resized ==> forall y, x :: 0 <= y < newRs && 0 <= x < newCs ==>
        altTextBuffer.textBuffer[y, x] == Some(NEW_CELL) &&
        fullBuffer.textBuffer[y, x] ==
          var oy := y + ResizeOffsetY(old(numRows), newRs, cursorY);
          if copyContent && oy < old(numRows) && x < old(numColumns) then old(currentBuffer.textBuffer[oy, x]) else Some(NEW_CELL)
    {
      if !initAll && currentBuffer.Columns() == newCs && currentBuffer.Rows() == newRs {
        return false;
      }
      var offsety := ResizeOffsetY(currentBuffer.Rows(), newRs, cursorY);
      var full := NewScreen(newCs, newRs, currentBuffer, copyContent, offsety);
      var alt := NewScreen(newCs, newRs, currentBuffer, false, 0);
      fullBuffer := full;
      altTextBuffer := alt;
      currentBuffer := full;
      numColumns := newCs;
      numRows := newRs;
      return true;
    }

    /**
     * A new buffer of cols x rows cells, each a new StyleChar, or with
     * copyContent the cell of from at (x, y + offsety) where from has one.
     */
    static method NewScreen(cols: int, rows: int, from: TextBuffer, copyContent: bool, offsety: int)
      returns (buf: TextBuffer)
      requires cols >= 0 && rows >= 0 && offsety >= 0 && Grid(from)
      ensures fresh(buf) && fresh(buf.textBuffer) && Grid(buf) && buf.nrColumns == cols && buf.nrRows == rows
      ensures forall y, x :: 0 <= y < rows && 0 <= x < cols ==>
        buf.textBuffer[y, x] ==
          if copyContent && y + offsety < from.nrRows && x < from.nrColumns then from.textBuffer[y + offsety, x]
          else Some(NEW_CELL)
    {
      buf := new TextBuffer(cols, rows, cols, rows);
      if copyContent {
        buf.CopyFrom(from, 0, offsety);
      }
    }

    /**
     * resizeTextBuffers: _resizeTextBuffers, then a cursor below the last row
     * moves onto it.
     */
    method ResizeTextBuffers(cols: int, rows: int, copyContent: bool, initAll: bool)
      requires Valid() && cols >= 0 && rows >= 0
      modifies this`numColumns, this`numRows, this`fullBuffer, this`altTextBuffer, this`currentBuffer, this`cursorY
      ensures Valid() && cursorY < numRows
      ensures cursorY == if old(cursorY) >= numRows then numRows - 1 else old(cursorY)
      ensures var resized := initAll || old(numColumns) != cols || old(numRows) != rows;
        (resized ==> numColumns == cols && numRows == rows && fresh(fullBuffer) && fresh(altTextBuffer)) &&
        (!resized ==> numColumns == old(numColumns) && numRows == old(numRows) && fullBuffer == old(fullBuffer) &&
                      altTextBuffer == old(altTextBuffer) && currentBuffer == old(currentBuffer))
    {
      var _ := ResizeBuffers(cols, rows, copyContent, initAll);
      if cursorY >= numRows {
        cursorY := numRows - 1;
      }
    }

    /**
     * The row loop of move, on the buffer. When the loops would run away the
     * grid is left alone and the result is false.
     */
    static method MoveBlock(buf: TextBuffer, b: Block, filler: Option<StyleCell>) returns (finished: bool)
      requires Grid(buf)
      requires filler.Some? && b.width > 0 && b.height > 0 ==>
        0 <= b.startX && b.startX + b.width <= buf.nrColumns && 0 <= b.startY && b.startY + b.height <= buf.nrRows
      modifies buf, buf.textBuffer
      ensures Grid(buf) && buf.textBuffer == old(buf.textBuffer)
      ensures unchanged(buf`nrColumns, buf`nrRows, buf`virtualColumns, buf`virtualRows)
      ensures old(buf.bufferChanged) ==> buf.bufferChanged
      ensures finished == !RunsAway(b)
      ensures finished ==> Moved(b, filler, old(Contents(buf.textBuffer)), Contents(buf.textBuffer),
                                 buf.textBuffer.Length0, buf.textBuffer.Length1)
      ensures !finished ==> Contents(buf.textBuffer) == old(Contents(buf.textBuffer))
    {
      var g := buf.textBuffer;
      var rows, cols := g.Length0, g.Length1;
      ghost var before := Contents(g);
      if RunsAway(b) {
        return false;
      }
      var y, stepy, endy := Begin(b.height, ReverseY(b)), Step(ReverseY(b)), End(b.height, ReverseY(b));
      StartMoved(b, filler, before, rows, cols);
      while y != endy
        invariant if ReverseY(b) then -1 <= y < b.height else 0 <= y <= b.height
        invariant Grid(buf) && buf.textBuffer == g
        invariant unchanged(buf`nrColumns, buf`nrRows, buf`virtualColumns, buf`virtualRows)
        invariant old(buf.bufferChanged) ==> buf.bufferChanged
        invariant MovedSoFar(b, filler, before, Contents(g), rows, cols, Begin(b.width, ReverseX(b)), y)
        decreases if ReverseY(b) then y + 1 else b.height - y
      {
        MoveRow(buf, b, filler, before, y);
        y := y + stepy;
      }
      EndMoved(b, filler, before, Contents(g), rows, cols);
      return true;
    }

    /** The column loop of move over row y of the block, which leaves the row loop at the next row. */
    static method MoveRow(buf: TextBuffer, b: Block, filler: Option<StyleCell>,
                          ghost before: seq<seq<Option<StyleCell>>>, y: int)
      requires Grid(buf) && b.width >= 0 && 0 <= y < b.height
      requires filler.Some? && b.width > 0 ==>
        0 <= b.startX && b.startX + b.width <= buf.nrColumns && 0 <= b.startY + y < buf.nrRows
      requires MovedSoFar(b, filler, before, Contents(buf.textBuffer), buf.textBuffer.Length0,
                          buf.textBuffer.Length1, Begin(b.width, ReverseX(b)), y)
      modifies buf, buf.textBuffer
      ensures Grid(buf) && buf.textBuffer == old(buf.textBuffer)
      ensures unchanged(buf`nrColumns, buf`nrRows, buf`virtualColumns, buf`virtualRows)
      ensures old(buf.bufferChanged) ==> buf.bufferChanged
      ensures MovedSoFar(b, filler, before, Contents(buf.textBuffer), buf.textBuffer.Length0,
                         buf.textBuffer.Length1, Begin(b.width, ReverseX(b)), y + Step(ReverseY(b)))
    {
      var g := buf.textBuffer;
      var rows, cols := g.Length0, g.Length1;
      var x, stepx, endx := Begin(b.width, ReverseX(b)), Step(ReverseX(b)), End(b.width, ReverseX(b));
      while x != endx
        invariant if ReverseX(b) then -1 <= x < b.width else 0 <= x <= b.width
        invariant Grid(buf) && buf.textBuffer == g
        invariant unchanged(buf`nrColumns, buf`nrRows, buf`virtualColumns, buf`virtualRows)
        invariant old(buf.bufferChanged) ==> buf.bufferChanged
        invariant MovedSoFar(b, filler, before, Contents(g), rows, cols, x, y)
        decreases if ReverseX(b) then x + 1 else b.width - x
      {
        ghost var cur := Contents(g);
        MoveStep(buf, b, filler, x, y);
        StepKeepsMoved(b, filler, before, cur, Contents(g), rows, cols, x, y);
        x := x + stepx;
      }
      RowKeepsMoved(b, filler, before, Contents(g), rows, cols, y);
    }

    /** The second half of a pass of the move loops: clear the source cell, or fill it from filler. */
    static method Vacate(buf: TextBuffer, x: int, y: int, filler: Option<StyleCell>)
      requires Grid(buf)
      requires filler.Some? ==> buf.CheckBounds(x, y)
      modifies buf, buf.textBuffer
      ensures Grid(buf) && buf.textBuffer == old(buf.textBuffer)
      ensures unchanged(buf`nrColumns, buf`nrRows, buf`virtualColumns, buf`virtualRows)
      ensures old(buf.bufferChanged) ==> buf.bufferChanged
      ensures forall j, i :: 0 <= j < buf.textBuffer.Length0 && 0 <= i < buf.textBuffer.Length1 ==>
        if j == y && i == x then Shows(buf.textBuffer[j, i], FillLook(filler))
        else buf.textBuffer[j, i] == old(buf.textBuffer[j, i])
    {
      if filler.None? {
        buf.Clear(x, y);
      } else {
        buf.Set(x, y, filler.value);
      }
    }

    /**
     * One pass of the move loops: copy block index (x, y) to its target, then
     * clear or fill its source.
     */
    static method MoveStep(buf: TextBuffer, b: Block, filler: Option<StyleCell>, x: int, y: int)
      requires Grid(buf) && InBlock(b, x, y)
      requires filler.Some? ==> buf.CheckBounds(b.startX + x, b.startY + y)
      modifies buf, buf.textBuffer
      ensures Grid(buf) && buf.textBuffer == old(buf.textBuffer)
      ensures unchanged(buf`nrColumns, buf`nrRows, buf`virtualColumns, buf`virtualRows)
      ensures old(buf.bufferChanged) ==> buf.bufferChanged
      ensures Stepped(b, filler, old(Contents(buf.textBuffer)), Contents(buf.textBuffer),
                      buf.textBuffer.Length0, buf.textBuffer.Length1, x, y)
    {
      var g := buf.textBuffer;
      ghost var cur: seq<seq<Option<StyleCell>>> := Contents(g);
      var sx, sy, tx, ty := b.startX + x, b.startY + y, b.toX + x, b.toY + y;
      buf.Copy(tx, ty, sx, sy);
      label copied:
      Vacate(buf, sx, sy, filler);
      forall py, px | 0 <= py < g.Length0 && 0 <= px < g.Length1
        ensures StepCell(b, filler, cur, g[py, px], g.Length0, g.Length1, px, py, x, y)
      {
        if px == sx && py == sy {
        } else if px == tx && py == ty && InGrid(g.Length1, g.Length0, sx, sy) {
          assert cur[sy][sx] == old(g[sy, sx]);
          assert g[py, px] == old@copied(g[py, px]);
        } else {
          assert cur[py][px] == old(g[py, px]);
          assert g[py, px] == old@copied(g[py, px]);
        }
      }
      ghost var nxt: seq<seq<Option<StyleCell>>> := Contents(g);
      forall py, px | 0 <= py < g.Length0 && 0 <= px < g.Length1
        ensures StepCell(b, filler, cur, At(nxt, py, px), g.Length0, g.Length1, px, py, x, y)
      {
        assert At(nxt, py, px) == g[py, px];
      }
    }
  }
}
