/**
 * The cell grid of the newer character pane
 * (ui/panels/charpane/TextBuffer.java): a virtualRows x virtualColumns array
 * of which only the visible nrRows x nrColumns cells hold a character; the
 * rest stay null. Cells are StyleChar values, row index first.
 */
module TextBuffers {
  import opened Wrappers
  import opened JavaLang
  import opened StyleChars

  function Max(a: int, b: int): int { if a < b then b else a }

  class TextBuffer {
    var textBuffer: array2<Option<StyleCell>>
    var bufferChanged: bool
    var nrColumns: int
    var nrRows: int
    var virtualColumns: int
    var virtualRows: int

    /** The array has the virtual size, which is at least the visible size. */
    ghost predicate Valid()
      reads this
    {
      textBuffer.Length0 == virtualRows && textBuffer.Length1 == virtualColumns &&
      nrRows <= virtualRows && nrColumns <= virtualColumns
    }

    predicate IsVisible(x: int, y: int)
      reads this
    {
      0 <= x < nrColumns && 0 <= y < nrRows
    }

    /** Every visible position holds a character. */
    ghost predicate Filled()
      reads this, textBuffer
    {
      forall y, x :: 0 <= y < nrRows && 0 <= x < nrColumns && y < textBuffer.Length0 && x < textBuffer.Length1 ==>
        textBuffer[y, x].Some?
    }

    /** Every position of the array holds a character: no virtual area. */
    ghost predicate Full()
      reads this, textBuffer
    {
      forall y, x :: 0 <= y < textBuffer.Length0 && 0 <= x < textBuffer.Length1 ==> textBuffer[y, x].Some?
    }

    /**
     * init: the virtual sizes are raised to the visible ones, and each visible
     * position gets a new StyleChar, marked changed.
     */
    constructor(numCs: int, numRs: int, numVCs: int, numVRs: int)
      requires Max(numVCs, numCs) >= 0 && Max(numVRs, numRs) >= 0
      ensures Valid() && fresh(textBuffer) && bufferChanged
      ensures nrColumns == numCs && nrRows == numRs
      ensures virtualColumns == Max(numVCs, numCs) && virtualRows == Max(numVRs, numRs)
      ensures forall y, x :: 0 <= y < textBuffer.Length0 && 0 <= x < textBuffer.Length1 ==>
        textBuffer[y, x] == if IsVisible(x, y) then Some(NEW_CELL) else None
    {
      nrColumns := numCs;
      nrRows := numRs;
      var vr, vc := Max(numVRs, numRs), Max(numVCs, numCs);
      virtualColumns := vc;
      virtualRows := vr;
      textBuffer := new Option<StyleCell>[vr, vc];
      bufferChanged := true;
      new;
      forall y, x | 0 <= y < vr && 0 <= x < vc {
        textBuffer[y, x] := None;
      }
      var y := 0;
      while y < numRs
        modifies textBuffer
        invariant textBuffer.Length0 == vr && textBuffer.Length1 == vc
        invariant 0 <= y <= Max(numRs, 0)
        invariant forall j, i :: 0 <= j < vr && 0 <= i < vc ==>
          textBuffer[j, i] == if j < y && 0 <= i < numCs then Some(NEW_CELL) else None
      {
        var x := 0;
        while x < numCs
          modifies textBuffer
          invariant 0 <= x <= Max(numCs, 0)
          invariant forall j, i :: 0 <= j < vr && 0 <= i < vc ==>
            textBuffer[j, i] == if (j < y || (j == y && i < x)) && 0 <= i < numCs then Some(NEW_CELL) else None
        {
          textBuffer[y, x] := Some(NEW_CELL);
          x := x + 1;
        }
        y := y + 1;
      }
    }

    /** clearRegion: every visible cell is cleared, and the buffer is marked changed. */
    method ClearRegion()
      requires Valid() && Filled()
      modifies this, textBuffer
      ensures Valid() && Filled() && bufferChanged
      ensures textBuffer == old(textBuffer) && nrColumns == old(nrColumns) && nrRows == old(nrRows)
      ensures virtualColumns == old(virtualColumns) && virtualRows == old(virtualRows)
      ensures forall y, x :: 0 <= y < textBuffer.Length0 && 0 <= x < textBuffer.Length1 ==>
        textBuffer[y, x] == if IsVisible(x, y) then Some(Cleared(old(textBuffer[y, x]).value)) else old(textBuffer[y, x])
    {
      var y := 0;
      while y < nrRows
        invariant unchanged(this)
        invariant 0 <= y <= Max(nrRows, 0)
        invariant forall j, i :: 0 <= j < textBuffer.Length0 && 0 <= i < textBuffer.Length1 ==>
          textBuffer[j, i] == if j < y && IsVisible(i, j) then Some(Cleared(old(textBuffer[j, i]).value)) else old(textBuffer[j, i])
      {
        var x := 0;
        while x < nrColumns
          invariant unchanged(this)
          invariant 0 <= x <= Max(nrColumns, 0)
          invariant forall j, i :: 0 <= j < textBuffer.Length0 && 0 <= i < textBuffer.Length1 ==>
            textBuffer[j, i] == if (j < y || (j == y && i < x)) && IsVisible(i, j)
              then Some(Cleared(old(textBuffer[j, i]).value)) else old(textBuffer[j, i])
        {
          textBuffer[y, x] := Some(Cleared(textBuffer[y, x].value));
          x := x + 1;
        }
        y := y + 1;
      }
      bufferChanged := true;
    }

    /** checkBounds: the position lies inside the array, virtual area included. */
    predicate CheckBounds(x: int, y: int)
      requires Valid()
      reads this
      ensures CheckBounds(x, y) <==> 0 <= x < virtualColumns && 0 <= y < virtualRows
    {
      0 <= x && 0 <= y && y < textBuffer.Length0 && x < textBuffer.Length1
    }

    /** get: the cell at a position inside the array, null outside it. */
    function Get(x: int, y: int): (r: Option<StyleCell>)
      requires Valid()
      reads this, textBuffer
      ensures !CheckBounds(x, y) ==> r.None?
      ensures CheckBounds(x, y) ==> r == textBuffer[y, x]
      ensures Filled() && IsVisible(x, y) ==> r.Some?
    {
      if !CheckBounds(x, y) then None else textBuffer[y, x]
    }

    /**
     * set: the cell at (x, y) takes the look of schar. The position must be
     * inside the array and hold a cell, or the source raises an exception.
     */
    method Set(x: int, y: int, schar: StyleCell)
      requires Valid() && CheckBounds(x, y) && textBuffer[y, x].Some?
      modifies textBuffer
      ensures textBuffer[y, x] == Some(CopiedFrom(old(textBuffer[y, x]).value, schar))
      ensures forall j, i :: 0 <= j < textBuffer.Length0 && 0 <= i < textBuffer.Length1 && (j != y || i != x) ==>
        textBuffer[j, i] == old(textBuffer[j, i])
    {
      textBuffer[y, x] := Some(CopiedFrom(textBuffer[y, x].value, schar));
    }

    /**
     * copyFrom(other, ox, oy): each visible (x, y) takes the cell of other at
     * (x + ox, y + oy) when that lies inside other's array.
     */
    method CopyFrom(other: TextBuffer, offsetx: int, offsety: int)
      requires Valid() && other.Valid() && other != this && other.textBuffer != textBuffer
      requires offsetx >= 0
      modifies textBuffer
      ensures forall y, x :: 0 <= y < textBuffer.Length0 && 0 <= x < textBuffer.Length1 ==>
        textBuffer[y, x] ==
          if IsVisible(x, y) && 0 <= y + offsety < other.textBuffer.Length0 && x + offsetx < other.textBuffer.Length1
          then other.textBuffer[y + offsety, x + offsetx] else old(textBuffer[y, x])
    {
      var y := 0;
      while y < nrRows
        invariant 0 <= y <= Max(nrRows, 0)
        invariant forall j, i :: 0 <= j < textBuffer.Length0 && 0 <= i < textBuffer.Length1 ==>
          textBuffer[j, i] ==
            if j < y && IsVisible(i, j) && 0 <= j + offsety < other.textBuffer.Length0 && i + offsetx < other.textBuffer.Length1
            then other.textBuffer[j + offsety, i + offsetx] else old(textBuffer[j, i])
      {
        var x := 0;
        while x < nrColumns
          invariant 0 <= x <= Max(nrColumns, 0)
          invariant forall j, i :: 0 <= j < textBuffer.Length0 && 0 <= i < textBuffer.Length1 ==>
            textBuffer[j, i] ==
              if (j < y || (j == y && i < x)) && IsVisible(i, j) &&
                 0 <= j + offsety < other.textBuffer.Length0 && i + offsetx < other.textBuffer.Length1
              then other.textBuffer[j + offsety, i + offsetx] else old(textBuffer[j, i])
        {
          var otherx, othery := x + offsetx, y + offsety;
          if 0 <= othery < other.textBuffer.Length0 && otherx < other.textBuffer.Length1 {
            textBuffer[y, x] := other.textBuffer[othery, otherx];
          }
          x := x + 1;
        }
        y := y + 1;
      }
    }

    /**
     * needsRepaint: the buffer flag accumulates val even out of bounds; the
     * cell's own flag is set to val only inside the array.
     */
    method NeedsRepaint(x: int, y: int, val: bool)
      requires Valid() && (CheckBounds(x, y) ==> textBuffer[y, x].Some?)
      modifies this, textBuffer
      ensures unchanged(this`textBuffer, this`nrColumns, this`nrRows, this`virtualColumns, this`virtualRows)
      ensures bufferChanged == (old(bufferChanged) || val)
      ensures forall j, i :: 0 <= j < textBuffer.Length0 && 0 <= i < textBuffer.Length1 ==>
        textBuffer[j, i] == if (j == y && i == x) then Some(Marked(old(textBuffer[j, i]).value, val)) else old(textBuffer[j, i])
    {
      bufferChanged := bufferChanged || val;
      if !CheckBounds(x, y) {
        return;
      }
      textBuffer[y, x] := Some(Marked(textBuffer[y, x].value, val));
    }

    /** clear: out of bounds nothing happens; otherwise the cell is cleared and the buffer marked. */
    method Clear(x: int, y: int)
      requires Valid() && (CheckBounds(x, y) ==> textBuffer[y, x].Some?)
      modifies this, textBuffer
      ensures unchanged(this`textBuffer, this`nrColumns, this`nrRows, this`virtualColumns, this`virtualRows)
      ensures bufferChanged == (old(bufferChanged) || CheckBounds(x, y))
      ensures forall j, i :: 0 <= j < textBuffer.Length0 && 0 <= i < textBuffer.Length1 ==>
        textBuffer[j, i] == if (j == y && i == x) then Some(Cleared(old(textBuffer[j, i]).value)) else old(textBuffer[j, i])
    {
      if !CheckBounds(x, y) {
        return;
      }
      textBuffer[y, x] := Some(Cleared(textBuffer[y, x].value));
      bufferChanged := true;
    }

    /**
     * copy: when both positions are inside the array, the destination takes
     * the look of the source; otherwise nothing happens.
     */
    method Copy(destx: int, desty: int, sourcex: int, sourcey: int)
      requires Valid()
      requires CheckBounds(sourcex, sourcey) && CheckBounds(destx, desty) ==>
        textBuffer[sourcey, sourcex].Some? && textBuffer[desty, destx].Some?
      modifies this, textBuffer
      ensures unchanged(this`textBuffer, this`nrColumns, this`nrRows, this`virtualColumns, this`virtualRows)
      ensures var both := CheckBounds(sourcex, sourcey) && CheckBounds(destx, desty);
        bufferChanged == (old(bufferChanged) || both) &&
        forall j, i :: 0 <= j < textBuffer.Length0 && 0 <= i < textBuffer.Length1 ==>
          textBuffer[j, i] ==
            if both && j == desty && i == destx
            then Some(CopiedFrom(old(textBuffer[j, i]).value, old(textBuffer[sourcey, sourcex]).value))
            else old(textBuffer[j, i])
    {
      if !CheckBounds(sourcex, sourcey) {
        return;
      }
      if !CheckBounds(destx, desty) {
        return;
      }
      textBuffer[desty, destx] := Some(CopiedFrom(textBuffer[desty, destx].value, textBuffer[sourcey, sourcex].value));
      bufferChanged := true;
    }

    method SetChanged(val: bool)
      modifies this
      ensures bufferChanged == val
      ensures unchanged(this`textBuffer, this`nrColumns, this`nrRows, this`virtualColumns, this`virtualRows)
    {
      bufferChanged := val;
    }

    function Rows(): int
      reads this
    {
      nrRows
    }

    function Columns(): int
      reads this
    {
      nrColumns
    }
  }
}

/**
 * The cell grid of the legacy character pane (ui/charpane/TextBuffer.java):
 * a fully allocated nrRows x nrColumns array that can be resized, keeping the
 * bottom rows of its old contents.
 */
module LegacyTextBuffers {
  import opened LegacyStyleChars

  /** resize moves the contents up by the number of rows removed. */
  function ResizeOffset(oldRows: int, newRs: int): (r: int)
    ensures r >= 0
    ensures newRs < oldRows ==> newRs + r == oldRows
    ensures newRs >= oldRows ==> r == 0
  {
    if newRs < oldRows then oldRows - newRs else 0
  }

  /**
   * Whether resize copies old cell (y + offset, x) into new cell (y, x), as
   * the loops are written: both the row and the column loop run up to the
   * new column count.
   */
  predicate KeptAsWritten(newCs: int, newRs: int, offset: int, oldRows: int, oldCols: int, y: int, x: int)
  {
    0 <= y < newCs && 0 <= x < newCs && y + offset < oldRows && x < oldCols
  }

  /** The same with the row loop running up to the new row count. */
  predicate Kept(newCs: int, newRs: int, offset: int, oldRows: int, oldCols: int, y: int, x: int)
  {
    0 <= y < newRs && 0 <= x < newCs && y + offset < oldRows && x < oldCols
  }

  /**
   * The row loop as written never reaches past the new array: a row at or
   * beyond the new row count always has its source row beyond the old one.
   */
  lemma KeptAsWrittenInBounds(newCs: int, newRs: int, oldRows: int, oldCols: int, y: int, x: int)
    requires KeptAsWritten(newCs, newRs, ResizeOffset(oldRows, newRs), oldRows, oldCols, y, x)
    ensures y < newRs
    ensures Kept(newCs, newRs, ResizeOffset(oldRows, newRs), oldRows, oldCols, y, x)
  {
  }

  /**
   * But it stops early when there are fewer columns than rows: resizing an
   * 80 x 24 buffer to 10 x 24 keeps only rows 0-9 and blanks row 10 onwards.
   */
  lemma ResizeAsWrittenDropsRows()
    ensures ResizeOffset(24, 24) == 0
    ensures Kept(10, 24, 0, 24, 80, 10, 0) && !KeptAsWritten(10, 24, 0, 24, 80, 10, 0)
  {
  }

  /**
   * With the corrected row bound, a buffer that shrinks keeps the bottom of
   * its old contents: every new cell is copied, and the last new row comes
   * from the last old row.
   */
  lemma ResizeKeepsBottom(newCs: int, newRs: int, oldRows: int, oldCols: int, y: int, x: int)
    requires 0 <= newRs <= oldRows && 0 <= newCs <= oldCols
    requires 0 <= y < newRs && 0 <= x < newCs
    ensures Kept(newCs, newRs, ResizeOffset(oldRows, newRs), oldRows, oldCols, y, x)
    ensures y == newRs - 1 ==> y + ResizeOffset(oldRows, newRs) == oldRows - 1
  {
  }

  class TextBuffer {
    var textBuffer: array2<StyleCell>
    var virtualSize: int
    var bufferChanged: bool
    var nrColumns: int
    var nrRows: int

    /** The array has exactly the visible size. */
    ghost predicate Valid()
      reads this
    {
      textBuffer.Length0 == nrRows && textBuffer.Length1 == nrColumns
    }

    /**
     * TextBuffer(numCs, numRs, numVRs), through init: every position holds a
     * new StyleChar. The virtual size is stored but has no effect on the array.
     */
    constructor(numCs: int, numRs: int, numVRs: int)
      requires numCs >= 0 && numRs >= 0
      ensures Valid() && fresh(textBuffer) && bufferChanged
      ensures nrColumns == numCs && nrRows == numRs && virtualSize == numVRs
      ensures forall y, x :: 0 <= y < textBuffer.Length0 && 0 <= x < textBuffer.Length1 ==> textBuffer[y, x] == NEW_CELL
    {
      textBuffer := new StyleCell[0, 0];
      new;
      Init(numCs, numRs, numVRs);
    }

    /** init: a fresh rows x cols array of new cells. */
    method Init(cols: int, rows: int, vsize: int)
      requires cols >= 0 && rows >= 0
      modifies this
      ensures Valid() && fresh(textBuffer) && bufferChanged
      ensures nrColumns == cols && nrRows == rows && virtualSize == vsize
      ensures forall y, x :: 0 <= y < textBuffer.Length0 && 0 <= x < textBuffer.Length1 ==> textBuffer[y, x] == NEW_CELL
    {
      virtualSize := vsize;
      nrColumns := cols;
      nrRows := rows;
      // each put stores a new StyleChar, already marked changed
      textBuffer := new StyleCell[rows, cols]((_, _) => NEW_CELL);
      bufferChanged := true;
    }

    /** clearAll: every cell is cleared, and the buffer is marked changed. */
    method ClearAll()
      requires Valid()
      modifies this, textBuffer
      ensures Valid() && bufferChanged
      ensures unchanged(this`textBuffer, this`nrColumns, this`nrRows, this`virtualSize)
      ensures forall y, x :: 0 <= y < textBuffer.Length0 && 0 <= x < textBuffer.Length1 ==>
        textBuffer[y, x] == Cleared(old(textBuffer[y, x]))
    {
      var y := 0;
      while y < nrRows
        invariant unchanged(this)
        invariant 0 <= y <= nrRows
        invariant forall j, i :: 0 <= j < textBuffer.Length0 && 0 <= i < textBuffer.Length1 ==>
          textBuffer[j, i] == if j < y then Cleared(old(textBuffer[j, i])) else old(textBuffer[j, i])
      {
        var x := 0;
        while x < nrColumns
          invariant unchanged(this)
          invariant 0 <= x <= nrColumns
          invariant forall j, i :: 0 <= j < textBuffer.Length0 && 0 <= i < textBuffer.Length1 ==>
            textBuffer[j, i] == if j < y || (j == y && i < x) then Cleared(old(textBuffer[j, i])) else old(textBuffer[j, i])
        {
          textBuffer[y, x] := Cleared(textBuffer[y, x]);
          x := x + 1;
        }
        y := y + 1;
      }
      bufferChanged := true;
    }

    /** checkBounds: the position lies inside the array (whose cells are never null here). */
    predicate CheckBounds(x: int, y: int)
      requires Valid()
      reads this
      ensures CheckBounds(x, y) <==> 0 <= x < nrColumns && 0 <= y < nrRows
    {
      0 <= y && 0 <= x && y < textBuffer.Length0 && x < textBuffer.Length1
    }

    /** set: the cell at (x, y) takes the look of schar; out of bounds the source raises an exception. */
    method Set(x: int, y: int, schar: StyleCell)
      requires Valid() && CheckBounds(x, y)
      modifies textBuffer
      ensures textBuffer[y, x] == CopiedFrom(old(textBuffer[y, x]), schar)
      ensures forall j, i :: 0 <= j < textBuffer.Length0 && 0 <= i < textBuffer.Length1 && (j != y || i != x) ==>
        textBuffer[j, i] == old(textBuffer[j, i])
    {
      textBuffer[y, x] := CopiedFrom(textBuffer[y, x], schar);
    }

    /**
     * resize(newCs, newRs, keepContents): a new array of new cells; with
     * keepContents each new cell (y, x) copies old cell (y + offset, x) when
     * the old array has it, offset being the number of rows removed.
     */
    method Resize(newCs: int, newRs: int, keepContents: bool)
      requires Valid() && newCs >= 0 && newRs >= 0
      modifies this
      ensures Valid() && fresh(textBuffer) && bufferChanged
      ensures nrColumns == newCs && nrRows == newRs && virtualSize == old(virtualSize)
      ensures !keepContents ==>
        forall y, x :: 0 <= y < textBuffer.Length0 && 0 <= x < textBuffer.Length1 ==> textBuffer[y, x] == NEW_CELL
      ensures keepContents ==>
        forall y, x :: 0 <= y < textBuffer.Length0 && 0 <= x < textBuffer.Length1 ==>
          textBuffer[y, x] ==
            if Kept(newCs, newRs, ResizeOffset(old(nrRows), newRs), old(nrRows), old(nrColumns), y, x)
            then CopiedFrom(NEW_CELL, old(textBuffer[y + ResizeOffset(nrRows, newRs), x])) else NEW_CELL
    {
      var oldbuffer := textBuffer;
      var offset := ResizeOffset(nrRows, newRs);
      Init(newCs, newRs, virtualSize);
      ghost var grid := textBuffer;
      assert forall y, x :: 0 <= y < newRs && 0 <= x < newCs ==> grid[y, x] == NEW_CELL;
      if keepContents {
        CopyRows(oldbuffer, offset);
        assert forall y, x :: 0 <= y < newRs && 0 <= x < newCs ==>
          grid[y, x] == if Kept(newCs, newRs, offset, oldbuffer.Length0, oldbuffer.Length1, y, x)
            then CopiedFrom(NEW_CELL, oldbuffer[y + offset, x]) else NEW_CELL;
      }
      // init has already marked the buffer changed
    }

    /** The copying loops of resize: new cell (y, x) takes the look of old cell (y + offset, x) where that exists. */
    method CopyRows(oldbuffer: array2<StyleCell>, offset: int)
      requires Valid() && oldbuffer != textBuffer && offset >= 0
      modifies textBuffer
      ensures forall j, i :: 0 <= j < textBuffer.Length0 && 0 <= i < textBuffer.Length1 ==>
        textBuffer[j, i] ==
          if Kept(nrColumns, nrRows, offset, oldbuffer.Length0, oldbuffer.Length1, j, i)
          then CopiedFrom(old(textBuffer[j, i]), oldbuffer[j + offset, i]) else old(textBuffer[j, i])
    {
      var y := 0;
      while y < nrRows
        invariant 0 <= y <= nrRows
        invariant forall j, i :: 0 <= j < textBuffer.Length0 && 0 <= i < textBuffer.Length1 ==>
          textBuffer[j, i] ==
            if j < y && Kept(nrColumns, nrRows, offset, oldbuffer.Length0, oldbuffer.Length1, j, i)
            then CopiedFrom(old(textBuffer[j, i]), oldbuffer[j + offset, i]) else old(textBuffer[j, i])
      {
        var x := 0;
        while x < nrColumns
          invariant 0 <= x <= nrColumns
          invariant forall j, i :: 0 <= j < textBuffer.Length0 && 0 <= i < textBuffer.Length1 ==>
            textBuffer[j, i] ==
              if (j < y || (j == y && i < x)) && Kept(nrColumns, nrRows, offset, oldbuffer.Length0, oldbuffer.Length1, j, i)
              then CopiedFrom(old(textBuffer[j, i]), oldbuffer[j + offset, i]) else old(textBuffer[j, i])
        {
          var sourcey := y + offset;
          if sourcey < oldbuffer.Length0 && x < oldbuffer.Length1 {
            textBuffer[y, x] := CopiedFrom(textBuffer[y, x], oldbuffer[sourcey, x]);
          }
          x := x + 1;
        }
        y := y + 1;
      }
    }

    /** needsRepaint: inside the array the cell's flag becomes val; only a true val marks the buffer. */
    method NeedsRepaint(x: int, y: int, val: bool)
      requires Valid()
      modifies this, textBuffer
      ensures unchanged(this`textBuffer, this`nrColumns, this`nrRows, this`virtualSize)
      ensures bufferChanged == (old(bufferChanged) || (val && CheckBounds(x, y)))
      ensures forall j, i :: 0 <= j < textBuffer.Length0 && 0 <= i < textBuffer.Length1 ==>
        textBuffer[j, i] == if (j == y && i == x) then Marked(old(textBuffer[j, i]), val) else old(textBuffer[j, i])
    {
      if !CheckBounds(x, y) {
        return;
      }
      textBuffer[y, x] := Marked(textBuffer[y, x], val);
      if val {
        bufferChanged := true;
      }
    }

    /** clear: out of bounds nothing happens; otherwise the cell is cleared and the buffer marked. */
    method Clear(x: int, y: int)
      requires Valid()
      modifies this, textBuffer
      ensures unchanged(this`textBuffer, this`nrColumns, this`nrRows, this`virtualSize)
      ensures bufferChanged == (old(bufferChanged) || CheckBounds(x, y))
      ensures forall j, i :: 0 <= j < textBuffer.Length0 && 0 <= i < textBuffer.Length1 ==>
        textBuffer[j, i] == if (j == y && i == x) then Cleared(old(textBuffer[j, i])) else old(textBuffer[j, i])
    {
      if !CheckBounds(x, y) {
        return;
      }
      textBuffer[y, x] := Cleared(textBuffer[y, x]);
      bufferChanged := true;
    }

    /** copy: when both positions are inside the array the destination takes the source's look. */
    method Copy(destx: int, desty: int, sourcex: int, sourcey: int)
      requires Valid()
      modifies this, textBuffer
      ensures unchanged(this`textBuffer, this`nrColumns, this`nrRows, this`virtualSize)
      ensures var both := CheckBounds(sourcex, sourcey) && CheckBounds(destx, desty);
        bufferChanged == (old(bufferChanged) || both) &&
        forall j, i :: 0 <= j < textBuffer.Length0 && 0 <= i < textBuffer.Length1 ==>
          textBuffer[j, i] ==
            if both && j == desty && i == destx
            then CopiedFrom(old(textBuffer[j, i]), old(textBuffer[sourcey, sourcex]))
            else old(textBuffer[j, i])
    {
      if !CheckBounds(sourcex, sourcey) {
        return;
      }
      if !CheckBounds(destx, desty) {
        return;
      }
      textBuffer[desty, destx] := CopiedFrom(textBuffer[desty, destx], textBuffer[sourcey, sourcex]);
      bufferChanged := true;
    }

    method SetChanged(val: bool)
      modifies this
      ensures bufferChanged == val
      ensures unchanged(this`textBuffer, this`nrColumns, this`nrRows, this`virtualSize)
    {
      bufferChanged := val;
    }
  }
}
