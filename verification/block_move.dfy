/**
 * The geometry of CharPane.move: a width x height block of cells copied from
 * (startX, startY) to (toX, toY) while each source cell is cleared after it
 * is copied. The loops run backwards along an axis on which the target lies
 * further on, so that a cell is always read before it is overwritten.
 */
module BlockMoves {

  datatype Block = Block(startX: int, startY: int, width: int, height: int, toX: int, toY: int)

  /** Columns are visited from the last to the first. */
  predicate ReverseX(b: Block) { b.toX > b.startX }

  /** Rows are visited from the last to the first. */
  predicate ReverseY(b: Block) { b.toY > b.startY }

  /** The block is moved onto itself. */
  predicate Same(b: Block) { b.toX == b.startX && b.toY == b.startY }

  predicate InBlock(b: Block, i: int, j: int) { 0 <= i < b.width && 0 <= j < b.height }

  predicate InGrid(cols: int, rows: int, x: int, y: int) { 0 <= x < cols && 0 <= y < rows }

  /** Index k comes before index c in a loop that runs upwards, or downwards when rev. */
  predicate Before(k: int, c: int, rev: bool) { if rev then k > c else k < c }

  /** The first and the one-past-last index of a loop over n indices. */
  function Begin(n: int, rev: bool): int { if rev then n - 1 else 0 }
  function End(n: int, rev: bool): int { if rev then -1 else n }

  /** Block index (i, j) has been handled when the loops stand at column x of row y. */
  predicate Done(b: Block, i: int, j: int, x: int, y: int)
  {
    InBlock(b, i, j) && (Before(j, y, ReverseY(b)) || (j == y && Before(i, x, ReverseX(b))))
  }

  /**
   * The order of the loops reads a cell before it writes it: when grid cell
   * p is the target of index t and the source of index s, s is handled no
   * later than t.
   */
  lemma SourceFirst(b: Block, ti: int, tj: int, x: int, y: int)
    requires Done(b, ti, tj, x, y)
    requires InBlock(b, ti + b.toX - b.startX, tj + b.toY - b.startY)
    ensures Done(b, ti + b.toX - b.startX, tj + b.toY - b.startY, x, y)
  {
  }

  /** Grid cell (px, py) has received a copy once the loops stand at (x, y). */
  predicate CopyDone(b: Block, cols: int, rows: int, px: int, py: int, x: int, y: int)
  {
    !Same(b) && Done(b, px - b.toX, py - b.toY, x, y) &&
    InGrid(cols, rows, px - b.toX + b.startX, py - b.toY + b.startY)
  }

  /** Grid cell (px, py) has been cleared as a source once the loops stand at (x, y). */
  predicate VacateDone(b: Block, px: int, py: int, x: int, y: int)
  {
    Done(b, px - b.startX, py - b.startY, x, y)
  }

  /**
   * After the move, grid cell (px, py) shows what its source cell showed: it
   * is a target whose source lies on the grid, and the block did not sit on
   * itself.
   */
  predicate Copied(b: Block, cols: int, rows: int, px: int, py: int)
  {
    !Same(b) && InBlock(b, px - b.toX, py - b.toY) &&
    InGrid(cols, rows, px - b.toX + b.startX, py - b.toY + b.startY)
  }

  /** Grid cell (px, py) is one of the source cells, all of which are cleared. */
  predicate Vacated(b: Block, px: int, py: int)
  {
    InBlock(b, px - b.startX, py - b.startY)
  }

  /** Once the row loop has run out, every index of the block is handled. */
  lemma AllDone(b: Block, cols: int, rows: int, px: int, py: int, x: int)
    requires !RunsAway(b)
    ensures CopyDone(b, cols, rows, px, py, x, End(b.height, ReverseY(b))) == Copied(b, cols, rows, px, py)
    ensures VacateDone(b, px, py, x, End(b.height, ReverseY(b))) == Vacated(b, px, py)
  {
  }

  /** Nothing is handled before the loops start. */
  lemma NoneDone(b: Block, cols: int, rows: int, px: int, py: int)
    ensures !CopyDone(b, cols, rows, px, py, Begin(b.width, ReverseX(b)), Begin(b.height, ReverseY(b)))
    ensures !VacateDone(b, px, py, Begin(b.width, ReverseX(b)), Begin(b.height, ReverseY(b)))
  {
  }

  /** The step of a loop that runs upwards, or downwards when rev. */
  function Step(rev: bool): int { if rev then -1 else 1 }

  /**
   * One pass of the column loop at block index (x, y): the target cell of
   * the index joins the copied cells (when its source is on the grid and the
   * block does not sit on itself) and the source cell joins the cleared
   * ones. Beforehand the source cell had been neither.
   */
  lemma NextColumn(b: Block, cols: int, rows: int, x: int, y: int)
    requires InBlock(b, x, y)
    ensures !CopyDone(b, cols, rows, b.startX + x, b.startY + y, x, y)
    ensures !VacateDone(b, b.startX + x, b.startY + y, x, y)
    ensures forall px, py :: (CopyDone(b, cols, rows, px, py, x + Step(ReverseX(b)), y) <==>
      CopyDone(b, cols, rows, px, py, x, y) ||
      (!Same(b) && px == b.toX + x && py == b.toY + y && InGrid(cols, rows, b.startX + x, b.startY + y)))
    ensures forall px, py :: (VacateDone(b, px, py, x + Step(ReverseX(b)), y) <==>
      VacateDone(b, px, py, x, y) || (px == b.startX + x && py == b.startY + y))
  {
    forall px, py
      ensures CopyDone(b, cols, rows, px, py, x + Step(ReverseX(b)), y) <==>
        CopyDone(b, cols, rows, px, py, x, y) ||
        (!Same(b) && px == b.toX + x && py == b.toY + y && InGrid(cols, rows, b.startX + x, b.startY + y))
    {
      var i, j := px - b.toX, py - b.toY;
      assert Done(b, i, j, x + Step(ReverseX(b)), y) <==> Done(b, i, j, x, y) || (i == x && j == y);
    }
  }

  /** Finishing a row is starting the next one. */
  lemma NextRow(b: Block, cols: int, rows: int, y: int)
    requires b.width >= 0
    ensures forall px, py :: (CopyDone(b, cols, rows, px, py, End(b.width, ReverseX(b)), y) <==>
      CopyDone(b, cols, rows, px, py, Begin(b.width, ReverseX(b)), y + Step(ReverseY(b))))
    ensures forall px, py :: (VacateDone(b, px, py, End(b.width, ReverseX(b)), y) <==>
      VacateDone(b, px, py, Begin(b.width, ReverseX(b)), y + Step(ReverseY(b))))
  {
  }

  /**
   * scrollRegion(s, e, n, true) moves the block of rows [s + n, e) to row s.
   * Rows [s, e - n) then show old row r + n and rows outside [s, e) keep what
   * they had. Of rows [e - n, e) only those that were part of the block are
   * cleared: rows [e - n, s + n), which exist when the region holds fewer
   * than 2n rows, keep their old content.
   */
  lemma ScrollUpRows(s: int, e: int, n: int, cols: int, rows: int, px: int, r: int)
    requires 0 < n && s + n <= e && InGrid(cols, rows, px, r) && 0 <= s && e <= rows
    ensures var b := Block(0, s + n, cols, e - s - n, 0, s);
      && (s <= r < e - n ==> Copied(b, cols, rows, px, r) && px - b.toX + b.startX == px && r - b.toY + b.startY == r + n)
      && (e - n <= r < e && s + n <= r ==> !Copied(b, cols, rows, px, r) && Vacated(b, px, r))
      && (e - n <= r < s + n ==> !Copied(b, cols, rows, px, r) && !Vacated(b, px, r))
      && (r < s || e <= r ==> !Copied(b, cols, rows, px, r) && !Vacated(b, px, r))
  {
  }

  /**
   * scrollRegion(s, e, n, false) moves the block of rows [s, e - n) to row
   * s + n. Rows [s + n, e) then show old row r - n and rows outside [s, e)
   * keep what they had. Of rows [s, s + n) only those in the block are
   * cleared: rows [e - n, s + n) keep their old content.
   */
  lemma ScrollDownRows(s: int, e: int, n: int, cols: int, rows: int, px: int, r: int)
    requires 0 < n && s + n <= e && InGrid(cols, rows, px, r) && 0 <= s && e <= rows
    ensures var b := Block(0, s, cols, e - s - n, 0, s + n);
      && (s + n <= r < e ==> Copied(b, cols, rows, px, r) && px - b.toX + b.startX == px && r - b.toY + b.startY == r - n)
      && (s <= r < s + n && r < e - n ==> !Copied(b, cols, rows, px, r) && Vacated(b, px, r))
      && (e - n <= r < s + n ==> !Copied(b, cols, rows, px, r) && !Vacated(b, px, r))
      && (r < s || e <= r ==> !Copied(b, cols, rows, px, r) && !Vacated(b, px, r))
  {
  }

  /**
   * Inserting three lines at row 20 of a 24-row screen moves only row 20 to
   * row 23 and clears row 20: rows 21 and 22 are neither copied nor cleared.
   */
  lemma InsertLinesLeavesRows(px: int)
    requires 0 <= px < 80
    ensures var b := Block(0, 20, 80, 1, 0, 23);
      forall r :: 21 <= r <= 22 ==> !Copied(b, 80, 24, px, r) && !Vacated(b, px, r)
  {
  }

  /**
   * A move onto itself copies every cell onto itself and then clears it:
   * scrollRegion by zero lines blanks the whole region.
   */
  lemma ZeroScrollBlanks(s: int, e: int, cols: int, rows: int, px: int, r: int)
    requires s <= r < e && 0 <= px < cols
    ensures var b := Block(0, s, cols, e - s, 0, s);
      !Copied(b, cols, rows, px, r) && Vacated(b, px, r)
  {
  }

  // ---------------------------------------------------------------------
  // Extents the loops never meet

  /**
   * The loops of move test their counter with != against the end, so a
   * negative height, or a negative width on a block that has rows, is never
   * met by counting: the counter only reaches the end after wrapping round
   * the 32-bit range.
   */
  predicate RunsAway(b: Block) { b.height < 0 || (b.height > 0 && b.width < 0) }

  /** Java's 32-bit int arithmetic: v wrapped into [-2^31, 2^31). */
  function Int32(v: int): (r: int)
    ensures -0x8000_0000 <= r < 0x8000_0000
    ensures (r - v) % 0x1_0000_0000 == 0
  {
    (v + 0x8000_0000) % 0x1_0000_0000 - 0x8000_0000
  }

  /**
   * A loop over n < 0 indices, in either direction, with a 32-bit counter:
   * the counter first equals the end after 2^32 + n passes, which is at
   * least 2^31 passes.
   */
  lemma LoopRunsAway(n: int, rev: bool)
    requires -0x8000_0000 < n < 0
    ensures forall k :: 0 <= k < 0x1_0000_0000 + n ==> Int32(Begin(n, rev) + k * Step(rev)) != End(n, rev)
    ensures Int32(Begin(n, rev) + (0x1_0000_0000 + n) * Step(rev)) == End(n, rev)
    ensures 0x1_0000_0000 + n >= 0x8000_0000
  {
    forall k | 0 <= k < 0x1_0000_0000 + n
      ensures Int32(Begin(n, rev) + k * Step(rev)) != End(n, rev)
    {
      var v := Begin(n, rev) + k * Step(rev);
      if rev {
        assert v == n - 1 - k;
        if k <= 0x8000_0000 + n - 1 {
          assert Int32(v) == v;
        } else {
          assert Int32(v) == v + 0x1_0000_0000;
        }
      } else {
        assert v == k;
        if k < 0x8000_0000 {
          assert Int32(v) == v;
        } else {
          assert Int32(v) == v - 0x1_0000_0000;
        }
      }
    }
    var k := 0x1_0000_0000 + n;
    if rev {
      assert Begin(n, rev) + k * Step(rev) == -1 - 0x1_0000_0000;
    } else {
      assert Begin(n, rev) + k * Step(rev) == n + 0x1_0000_0000;
    }
  }
}
