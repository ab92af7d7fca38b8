/**
 * The grid operations of the legacy character pane
 * (ui/charpane/CharPane.java): the same design as the newer pane on the
 * legacy TextBuffer, whose cells are never null, without custom colours, and
 * resizing the buffers in place.
 */
module LegacyCharPanes {
  import opened Wrappers
  import opened JavaLang
  import opened LegacyStyleChars
  import opened LegacyTextBuffers
  import CharPanes

  const MAX_CHARSETS := 16

  /** What putChar(' ', x, y) stores: the UTF-8 encoding of a space. */
  const SPACE_BYTES: seq<jbyte> := [32]

  function Max(a: int, b: int): int { if a < b then b else a }

  class CharPane {
    var numColumns: int
    var numRows: int
    var charSets: seq<Option<string>>
    var charSet: int
    var cursorX: int
    var cursorY: int
    var currentBuffer: TextBuffer
    var altTextBuffer: TextBuffer
    var fullBuffer: TextBuffer
    var drawStyle: bv32
    var drawForegroundIndex: int
    var drawBackgroundIndex: int
    /** The pane offers the alternate screen buffer. */
    const optionSupportAltScreenBuffer: bool := true

    /** A buffer of the pane's size. */
    ghost predicate Screen(buf: TextBuffer)
      reads this, buf
    {
      buf.Valid() && buf.nrColumns == numColumns && buf.nrRows == numRows
    }

    ghost predicate Valid()
      reads this, fullBuffer, altTextBuffer, currentBuffer
    {
      fullBuffer != altTextBuffer && fullBuffer.textBuffer != altTextBuffer.textBuffer &&
      (currentBuffer == fullBuffer || currentBuffer == altTextBuffer) &&
      Screen(fullBuffer) && Screen(altTextBuffer) && Screen(currentBuffer) && |charSets| == MAX_CHARSETS
    }

    /**
     * CharPane(), through init and _resizeTextBuffers: an 80 x 24 pane with
     * two new buffers, the full one current, the cursor at the origin and the
     * default draw style.
     */
    constructor()
      ensures Valid() && fresh(fullBuffer) && fresh(altTextBuffer)
      ensures fresh(fullBuffer.textBuffer) && fresh(altTextBuffer.textBuffer)
      ensures numColumns == 80 && numRows == 24 && currentBuffer == fullBuffer
      ensures charSets == CharPanes.INITIAL_CHARSETS && charSet == 0 && cursorX == 0 && cursorY == 0
      ensures drawStyle == STYLE_NONE && drawForegroundIndex == -1 && drawBackgroundIndex == -1
      ensures forall y, x :: 0 <= y < 24 && 0 <= x < 80 ==>
        fullBuffer.textBuffer[y, x] == NEW_CELL && altTextBuffer.textBuffer[y, x] == NEW_CELL
    {
      numColumns := 80;
      numRows := 24;
      charSets := CharPanes.INITIAL_CHARSETS;
      charSet := 0;
      cursorX := 0;
      cursorY := 0;
      drawStyle := STYLE_NONE;
      drawForegroundIndex := -1;
      drawBackgroundIndex := -1;
      fullBuffer := new TextBuffer(80, 24, 100);
      altTextBuffer := new TextBuffer(80, 24, 24);
      currentBuffer := fullBuffer;
    }

    /**
     * The cell c after putChar(bytes): the bytes with the pane's charset name,
     * draw style and colour indices, alpha reset, marked for repaint; its
     * custom colour is its own.
     */
    function Pen(c: StyleCell, bytes: seq<jbyte>): (r: StyleCell)
      requires 0 <= charSet < |charSets| && |bytes| <= MAX_BYTES
      reads this
      ensures Bytes(r) == bytes && r.style == drawStyle && r.charSet == charSets[charSet]
      ensures r.foregroundColor == drawForegroundIndex && r.backgroundColor == drawBackgroundIndex
      ensures r.alpha == -1 && r.hasChanged && r.customForeground == c.customForeground
    {
      Marked(WithBytes(c, bytes, |bytes|).(charSet := charSets[charSet], style := drawStyle,
        foregroundColor := drawForegroundIndex, backgroundColor := drawBackgroundIndex, alpha := -1), true)
    }

    /** characterChanged: the cell at (x, y), when there is one, is marked for repaint, and so is the buffer. */
    method CharacterChanged(x: int, y: int)
      requires Valid()
      modifies currentBuffer, currentBuffer.textBuffer
      ensures Valid() && currentBuffer.textBuffer == old(currentBuffer.textBuffer)
      ensures currentBuffer.bufferChanged == (old(currentBuffer.bufferChanged) || currentBuffer.CheckBounds(x, y))
      ensures var g := currentBuffer.textBuffer;
        forall j, i :: 0 <= j < g.Length0 && 0 <= i < g.Length1 ==>
          g[j, i] == if j == y && i == x then Marked(old(g[j, i]), true) else old(g[j, i])
    {
      currentBuffer.NeedsRepaint(x, y, true);
    }

    /**
     * setCursor: the cursor moves to (x, y) even when that is off the grid;
     * the cells at the new and the old position are marked for repaint.
     */
    method SetCursor(x: int, y: int)
      requires Valid()
      modifies this`cursorX, this`cursorY, currentBuffer, currentBuffer.textBuffer
      ensures Valid() && cursorX == x && cursorY == y
      ensures currentBuffer.textBuffer == old(currentBuffer.textBuffer)
      ensures var g := currentBuffer.textBuffer;
        forall j, i :: 0 <= j < g.Length0 && 0 <= i < g.Length1 ==>
          g[j, i] == if (j == y && i == x) || (j == old(cursorY) && i == old(cursorX))
            then Marked(old(g[j, i]), true) else old(g[j, i])
    {
      var prefx, prefy := cursorX, cursorY;
      cursorX := x;
      cursorY := y;
      CharacterChanged(cursorX, cursorY);
      CharacterChanged(prefx, prefy);
    }

    /**
     * putChar(bytes, x, y): off the grid nothing happens; on it the cell
     * takes the bytes and the pane's draw attributes and is marked for
     * repaint.
     */
    method PutChar(bytes: seq<jbyte>, x: int, y: int)
      requires Valid()
      requires currentBuffer.CheckBounds(x, y) ==> |bytes| <= MAX_BYTES && 0 <= charSet < |charSets|
      modifies currentBuffer, currentBuffer.textBuffer
      ensures Valid() && currentBuffer.textBuffer == old(currentBuffer.textBuffer)
      ensures currentBuffer.bufferChanged == (old(currentBuffer.bufferChanged) || currentBuffer.CheckBounds(x, y))
      ensures var g := currentBuffer.textBuffer;
        forall j, i :: 0 <= j < g.Length0 && 0 <= i < g.Length1 ==>
          g[j, i] == if j == y && i == x then Pen(old(g[j, i]), bytes) else old(g[j, i])
    {
      var buf := currentBuffer;
      if !buf.CheckBounds(x, y) {
        return;
      }
      buf.textBuffer[y, x] := Pen(buf.textBuffer[y, x], bytes);
      CharacterChanged(x, y);
    }

    /** The cells that clearArea(x1, y1, x2, y2) writes: widened, clamped, and on the grid. */
    predicate InArea(x1: int, y1: int, x2: int, y2: int, i: int, j: int)
      reads this
    {
      x1 <= i < CharPanes.AreaEnd(x1, x2, numColumns) && y1 <= j < CharPanes.AreaEnd(y1, y2, numRows)
    }

    /** Some cell of the grid lies in the area. */
    predicate AreaMeetsGrid(x1: int, y1: int, x2: int, y2: int)
      reads this
    {
      Max(x1, 0) < CharPanes.AreaEnd(x1, x2, numColumns) && Max(y1, 0) < CharPanes.AreaEnd(y1, y2, numRows)
    }

    /**
     * clearArea(x1, y1, x2, y2): every grid cell of [x1, x2) x [y1, y2), an
     * empty range widened to one and the ends clamped to the grid, becomes a
     * space with the pane's draw attributes; the rest is unchanged.
     */
    method ClearArea(x1: int, y1: int, x2: int, y2: int)
      requires Valid()
      requires AreaMeetsGrid(x1, y1, x2, y2) ==> 0 <= charSet < |charSets|
      modifies currentBuffer, currentBuffer.textBuffer
      ensures Valid() && currentBuffer.textBuffer == old(currentBuffer.textBuffer)
      ensures old(currentBuffer.bufferChanged) ==> currentBuffer.bufferChanged
      ensures var g := currentBuffer.textBuffer;
        forall j, i :: 0 <= j < g.Length0 && 0 <= i < g.Length1 ==>
          g[j, i] == if InArea(x1, y1, x2, y2, i, j) then Pen(old(g[j, i]), SPACE_BYTES) else old(g[j, i])
    {
      var ex, ey := CharPanes.AreaEnd(x1, x2, numColumns), CharPanes.AreaEnd(y1, y2, numRows);
      var g := currentBuffer.textBuffer;
      var y := y1;
      while y < ey
        invariant Valid() && currentBuffer.textBuffer == g
        invariant g.Length0 == numRows && g.Length1 == numColumns
        invariant y1 <= y <= Max(y1, ey)
        invariant old(currentBuffer.bufferChanged) ==> currentBuffer.bufferChanged
        invariant forall j, i :: 0 <= j < g.Length0 && 0 <= i < g.Length1 ==>
          g[j, i] == if j < y && InArea(x1, y1, x2, y2, i, j) then Pen(old(g[j, i]), SPACE_BYTES) else old(g[j, i])
      {
        ClearRow(x1, ex, y);
        y := y + 1;
      }
    }

    /** clearArea's column loop: row y from x1 to ex writes spaces with the draw attributes. */
    method ClearRow(x1: int, ex: int, y: int)
      requires Valid() && ex <= numColumns
      requires Max(x1, 0) < ex && 0 <= y < numRows ==> 0 <= charSet < |charSets|
      modifies currentBuffer, currentBuffer.textBuffer
      ensures Valid() && currentBuffer.textBuffer == old(currentBuffer.textBuffer)
      ensures old(currentBuffer.bufferChanged) ==> currentBuffer.bufferChanged
      ensures var g := currentBuffer.textBuffer;
        forall j, i :: 0 <= j < g.Length0 && 0 <= i < g.Length1 ==>
          g[j, i] == if j == y && x1 <= i < ex then Pen(old(g[j, i]), SPACE_BYTES) else old(g[j, i])
    {
      var g := currentBuffer.textBuffer;
      var x := x1;
      while x < ex
        invariant Valid() && currentBuffer.textBuffer == g
        invariant g.Length0 == numRows && g.Length1 == numColumns
        invariant x1 <= x <= Max(x1, ex)
        invariant old(currentBuffer.bufferChanged) ==> currentBuffer.bufferChanged
        invariant forall j, i :: 0 <= j < g.Length0 && 0 <= i < g.Length1 ==>
          g[j, i] == if j == y && x1 <= i < x then Pen(old(g[j, i]), SPACE_BYTES) else old(g[j, i])
      {
        PutChar(SPACE_BYTES, x, y);
        x := x + 1;
      }
    }

    /** setCharSet: the slot of the charset table that putChar reads. */
    method SetCharSet(nr: int)
      modifies this`charSet
      ensures charSet == nr
    {
      charSet := nr;
    }

    /** setDrawStyle: the style word is replaced; style 0 also resets both colour indices. */
    method SetDrawStyle(style: bv32)
      modifies this`drawStyle, this`drawForegroundIndex, this`drawBackgroundIndex
      ensures drawStyle == style
      ensures style == 0 ==> drawForegroundIndex == -1 && drawBackgroundIndex == -1
      ensures style != 0 ==> drawForegroundIndex == old(drawForegroundIndex) && drawBackgroundIndex == old(drawBackgroundIndex)
    {
      drawStyle := style;
      if style == 0 {
        drawBackgroundIndex := -1;
        drawForegroundIndex := -1;
      }
    }

    /** addDrawStyle: setDrawStyle of the style word with the flags of style added. */
    method AddDrawStyle(style: bv32)
      modifies this`drawStyle, this`drawForegroundIndex, this`drawBackgroundIndex
      ensures drawStyle == old(drawStyle) | style
      ensures drawStyle == 0 ==> drawForegroundIndex == -1 && drawBackgroundIndex == -1
      ensures drawStyle != 0 ==> drawForegroundIndex == old(drawForegroundIndex) && drawBackgroundIndex == old(drawBackgroundIndex)
    {
      SetDrawStyle(drawStyle | style);
    }

    /** setDrawBackground(nr): the background colour index. */
    method SetDrawBackground(nr: int)
      modifies this`drawBackgroundIndex
      ensures drawBackgroundIndex == nr
    {
      drawBackgroundIndex := nr;
    }

    /** setDrawForeground(nr): the foreground colour index. */
    method SetDrawForeground(nr: int)
      modifies this`drawForegroundIndex
      ensures drawForegroundIndex == nr
    {
      drawForegroundIndex := nr;
    }

    /**
     * resizeTextBuffers(cols, rows): the pane takes the new size, both buffers
     * are resized keeping their bottom rows (the current one stays current),
     * and a cursor below the last row moves onto it.
     */
    method ResizeTextBuffers(cols: int, rows: int)
      requires Valid() && cols >= 0 && rows >= 0
      modifies this`numColumns, this`numRows, this`cursorY, fullBuffer, altTextBuffer
      ensures Valid() && numColumns == cols && numRows == rows && cursorY < numRows
      ensures cursorY == if old(cursorY) >= rows then rows - 1 else old(cursorY)
      ensures fullBuffer == old(fullBuffer) && altTextBuffer == old(altTextBuffer) && currentBuffer == old(currentBuffer)
      ensures fresh(fullBuffer.textBuffer) && fresh(altTextBuffer.textBuffer)
      ensures var offset := ResizeOffset(old(numRows), rows);
        forall y, x :: 0 <= y < rows && 0 <= x < cols ==>
          var kept := Kept(cols, rows, offset, old(numRows), old(numColumns), y, x);
          fullBuffer.textBuffer[y, x] == (if kept then CopiedFrom(NEW_CELL, old(fullBuffer.textBuffer[y + offset, x])) else NEW_CELL) &&
          altTextBuffer.textBuffer[y, x] == (if kept then CopiedFrom(NEW_CELL, old(altTextBuffer.textBuffer[y + offset, x])) else NEW_CELL)
    {
      numRows := rows;
      numColumns := cols;
      fullBuffer.Resize(cols, rows, true);
      altTextBuffer.Resize(cols, rows, true);
      if cursorY >= numRows {
        cursorY := numRows - 1;
      }
    }

    /**
     * setAltScreenBuffer(useAlt): the alternate buffer becomes current when
     * useAlt holds, the full one otherwise. A pane without the option refuses
     * (false) and changes nothing.
     */
    method SetAltScreenBuffer(useAlt: bool) returns (ok: bool)
      requires Valid()
      modifies this`currentBuffer
      ensures Valid() && ok == optionSupportAltScreenBuffer
      ensures !ok ==> unchanged(this)
      ensures ok ==> currentBuffer == if useAlt then altTextBuffer else fullBuffer
    {
      if !optionSupportAltScreenBuffer {
        return false;
      }
      if useAlt {
        currentBuffer := altTextBuffer;
      } else {
        currentBuffer := fullBuffer;
      }
      return true;
    }
  }
}
