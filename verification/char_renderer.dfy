/**
 * The decisions the newer CharRenderer (ui/panels/charpane/CharRenderer.java)
 * takes before it paints a cell: which glyph a character of the graphics
 * charset stands for, which foreground, background and alpha the cell is
 * painted with, which pipes a box-drawing character is made of, how thick
 * they are and where the horizontal scan lines sit. The painting itself,
 * onto a Graphics2D, is not modelled.
 */
module CharRenderers {
  import opened Wrappers
  import opened JavaLang
  import opened JavaAwt
  import StyleChars
  import ColorMaps

  /** The characters the graphics charset redefines, and what they stand for. */
  const GRAPH_ORG0: string := "_`abcdefghijklmnopqrstuvwxyz"
  const GRAPH_SET1: string :=
    " \U{25C6}\U{2592}\U{2409}\U{240C}\U{240D}\U{240A}\U{00B0}\U{00B1}\U{2424}\U{240B}\U{2518}\U{2510}\U{250C}\U{2514}\U{253C}\U{23BA}\U{23BB}\U{2500}\U{23BC}\U{23BD}\U{251C}\U{2524}\U{2534}\U{252C}\U{2502}\U{2264}\U{2265}"

  /** TermConst.CharSet.CHARSET_GRAPHICS, as its name. */
  const CHARSET_GRAPHICS: string := "CHARSET_GRAPHICS"

  /** The redefined characters are the 28 consecutive codes from '_' (95) to 'z' (122). */
  lemma GraphOrgCodes()
    ensures |GRAPH_ORG0| == |GRAPH_SET1| == 28
    ensures forall i :: 0 <= i < |GRAPH_ORG0| ==> GRAPH_ORG0[i] as int == 95 + i
  {
  }

  /**
   * What mapGraphicsChar computes: the character at the same position of
   * GRAPH_SET1 as c has in GRAPH_ORG0, and c itself when it is not there.
   */
  function GraphicsChar(c: char): (r: char)
    ensures forall i :: 0 <= i < |GRAPH_ORG0| && GRAPH_ORG0[i] == c ==> r == GRAPH_SET1[i]
    ensures c !in GRAPH_ORG0 ==> r == c
  {
    GraphOrgCodes();
    if 95 <= c as int < 123 then
      assert GRAPH_ORG0[c as int - 95] == c;
      GRAPH_SET1[c as int - 95]
    else c
  }

  /** The graphics charset moves every character it redefines: none is its own glyph. */
  lemma GraphicsCharMoves(c: char)
    ensures GraphicsChar(c) == c <==> c !in GRAPH_ORG0
  {
    GraphOrgCodes();
    if 95 <= c as int < 123 {
      var i := c as int - 95;
      assert GRAPH_SET1[i] as int < 95 || GRAPH_SET1[i] as int >= 0xB0;
    }
  }

  /** mapGraphicsChar(c): a linear search of GRAPH_ORG0. */
  method MapGraphicsChar(c: char) returns (r: char)
    ensures r == GraphicsChar(c)
  {
    GraphOrgCodes();
    for i := 0 to |GRAPH_ORG0|
      invariant !(95 <= c as int < 95 + i)
    {
      if GRAPH_ORG0[i] == c {
        assert c as int - 95 == i;
        return GRAPH_SET1[i];
      }
    }
    return c;
  }

  /** isGraphicsCharSet: a charset name equal to CHARSET_GRAPHICS; null is not one. */
  predicate IsGraphicsCharSet(charset: Option<string>)
  {
    charset.Some? && charset.value == CHARSET_GRAPHICS
  }

  /**
   * mapCharsetChars(charset, org): the text unchanged unless the charset is
   * the graphics one; then every character is mapped on its own.
   */
  method MapCharsetChars(charset: Option<string>, org: string) returns (s: string)
    ensures !IsGraphicsCharSet(charset) ==> s == org
    ensures IsGraphicsCharSet(charset) ==> |s| == |org| && forall i :: 0 <= i < |org| ==> s[i] == GraphicsChar(org[i])
  {
    if !IsGraphicsCharSet(charset) {
      return org;
    }
    var chars := new char[|org|];
    for i := 0 to |org|
      invariant forall j :: 0 <= j < i ==> chars[j] == GraphicsChar(org[j])
    {
      chars[i] := MapGraphicsChar(org[i]);
    }
    s := chars[..];
  }

  // ---------------------------------------------------------------------
  // Colours and alpha
  // ---------------------------------------------------------------------

  /** The colours a cell is painted with; alpha is present only when it blends. */
  datatype Paint = Paint(foreground: Color, background: Color, alpha: Option<int>)

  /** One side of the colour choice: the custom colour, else the indexed one, else the default. */
  function Chosen(custom: Option<Color>, index: int, colors: seq<Color>, default: Color): (c: Color)
    ensures custom.Some? ==> c == custom.value
    ensures custom.None? && 0 <= index < |colors| ==> c == colors[index]
    ensures custom.None? && !(0 <= index < |colors|) ==> c == default
  {
    var resolved := if index < 0 || index >= |colors| then None else Some(colors[index]);
    if custom.Some? then custom.value
    else if resolved.Some? then resolved.value
    else default
  }

  /** The alpha a cell is painted with, when it is one that blends (0 to 254). */
  function CellAlpha(cell: StyleChars.Cell): (a: Option<int>)
    ensures StyleChars.HasStyle(cell, StyleChars.STYLE_HIDDEN) ==> a == Some(64)
    ensures !StyleChars.HasStyle(cell, StyleChars.STYLE_HIDDEN) && StyleChars.HasStyle(cell, StyleChars.STYLE_FAINT) ==> a == Some(128)
    ensures !StyleChars.HasStyle(cell, StyleChars.STYLE_HIDDEN) && !StyleChars.HasStyle(cell, StyleChars.STYLE_FAINT) ==>
      (a.Some? <==> 0 <= cell.alpha < 255) && (a.Some? ==> a.value == cell.alpha)
    ensures a.Some? ==> 0 <= a.value < 255
  {
    var alpha := if StyleChars.HasStyle(cell, StyleChars.STYLE_FAINT) then 128 else cell.alpha;
    var alpha := if StyleChars.HasStyle(cell, StyleChars.STYLE_HIDDEN) then 64 else alpha;
    if 0 <= alpha < 255 then Some(alpha) else None
  }

  /**
   * The colour part of renderTemplate: each side is the cell's custom colour,
   * else its index resolved in the colour map, else the map's own colour;
   * INVERSE swaps the two; FAINT and HIDDEN replace the cell's alpha.
   */
  function CellPaint(cm: ColorMaps.ColorMap, cell: StyleChars.Cell): (p: Paint)
    reads cm
    ensures var fg := Chosen(cell.customForeground, cell.foregroundColor, cm.colors, cm.foregroundColor);
      var bg := Chosen(cell.customBackground, cell.backgroundColor, cm.colors, cm.backgroundColor);
      if StyleChars.HasStyle(cell, StyleChars.STYLE_INVERSE) then p.foreground == bg && p.background == fg
      else p.foreground == fg && p.background == bg
    ensures p.alpha == CellAlpha(cell)
  {
    var fg := cm.Resolve(cell.foregroundColor);
    var bg := cm.Resolve(cell.backgroundColor);
    var fg := if cell.customForeground.Some? then cell.customForeground else fg;
    var bg := if cell.customBackground.Some? then cell.customBackground else bg;
    var fg := fg.GetOr(cm.foregroundColor);
    var bg := bg.GetOr(cm.backgroundColor);
    if StyleChars.HasStyle(cell, StyleChars.STYLE_INVERSE) then Paint(bg, fg, CellAlpha(cell))
    else Paint(fg, bg, CellAlpha(cell))
  }

  /** Inverse video paints the cell with the same two colours, swapped, and the same alpha. */
  lemma InverseSwaps(cm: ColorMaps.ColorMap, cell: StyleChars.Cell)
    requires !StyleChars.HasStyle(cell, StyleChars.STYLE_INVERSE)
    ensures var inv := cell.(style := cell.style | StyleChars.STYLE_INVERSE);
      CellPaint(cm, inv) == Paint(CellPaint(cm, cell).background, CellPaint(cm, cell).foreground, CellPaint(cm, cell).alpha)
  {
    var inv := cell.(style := cell.style | StyleChars.STYLE_INVERSE);
    assert StyleChars.HasStyle(inv, StyleChars.STYLE_INVERSE);
    assert inv.style & StyleChars.STYLE_FAINT == cell.style & StyleChars.STYLE_FAINT;
    assert inv.style & StyleChars.STYLE_HIDDEN == cell.style & StyleChars.STYLE_HIDDEN;
  }

  /** A cell without custom colours and with both indices outside the map shows the map's own colours. */
  lemma UnresolvedUsesMapColours(cm: ColorMaps.ColorMap, cell: StyleChars.Cell)
    requires cell.customForeground.None? && cell.customBackground.None?
    requires cell.foregroundColor == -1 && cell.backgroundColor == -1
    requires !StyleChars.HasStyle(cell, StyleChars.STYLE_INVERSE)
    ensures CellPaint(cm, cell).foreground == cm.foregroundColor
    ensures CellPaint(cm, cell).background == cm.backgroundColor
  {
  }

  // ---------------------------------------------------------------------
  // Box drawing
  // ---------------------------------------------------------------------

  /** The arms of a box-drawing glyph, from the centre to the cell's edges. */
  datatype Arms = Arms(left: bool, right: bool, up: bool, down: bool)

  /** Where a horizontal line sits: the centre, or one of the scan lines 1, 3, 7 and 9. */
  datatype Level = Centre | ScanLine1 | ScanLine3 | ScanLine7 | ScanLine9

  datatype Pipes = Pipes(arms: Arms, level: Level)

  function ArmCount(a: Arms): nat
  {
    (if a.left then 1 else 0) + (if a.right then 1 else 0) + (if a.up then 1 else 0) + (if a.down then 1 else 0)
  }

  const HORIZONTAL := Arms(true, true, false, false)

  /**
   * The switch of renderGraphicsChar, fall-throughs included: the pipes a
   * character of the graphics charset is drawn with, or None when it is
   * rendered as plain text. The characters drawn are the fifteen from 'j'
   * to 'x'.
   */
  function Segments(c: char): (p: Option<Pipes>)
    ensures p.Some? <==> 'j' <= c <= 'x'
    ensures p.Some? ==> ArmCount(p.value.arms) >= 2
    ensures p.Some? && p.value.level != Centre ==> p.value.arms == HORIZONTAL
  {
    match c
    case 'u' => Some(Pipes(Arms(true, false, true, true), Centre))
    case 'j' => Some(Pipes(Arms(true, false, true, false), Centre))
    case 'k' => Some(Pipes(Arms(true, false, false, true), Centre))
    case 'w' => Some(Pipes(Arms(true, true, false, true), Centre))
    case 'l' => Some(Pipes(Arms(false, true, false, true), Centre))
    case 'v' => Some(Pipes(Arms(true, true, true, false), Centre))
    case 'm' => Some(Pipes(Arms(false, true, true, false), Centre))
    case 'n' => Some(Pipes(Arms(true, true, true, true), Centre))
    case 'x' => Some(Pipes(Arms(false, false, true, true), Centre))
    case 'q' => Some(Pipes(HORIZONTAL, Centre))
    case 't' => Some(Pipes(Arms(false, true, true, true), Centre))
    case 'o' => Some(Pipes(HORIZONTAL, ScanLine1))
    case 'p' => Some(Pipes(HORIZONTAL, ScanLine3))
    case 'r' => Some(Pipes(HORIZONTAL, ScanLine7))
    case 's' => Some(Pipes(HORIZONTAL, ScanLine9))
    case _ => None
  }

  /**
   * The Unicode box-drawing and scan-line glyphs by what they show: the
   * light lines of the box-drawing block (U+2500 to U+253C) by their arms,
   * the horizontal scan lines (U+23BA to U+23BD) by their level.
   */
  function Glyph(g: char): Option<Pipes>
  {
    match g
    case '\U{2500}' => Some(Pipes(HORIZONTAL, Centre))                     // light horizontal
    case '\U{2502}' => Some(Pipes(Arms(false, false, true, true), Centre)) // light vertical
    case '\U{250C}' => Some(Pipes(Arms(false, true, false, true), Centre)) // down and right
    case '\U{2510}' => Some(Pipes(Arms(true, false, false, true), Centre))  // down and left
    case '\U{2514}' => Some(Pipes(Arms(false, true, true, false), Centre))  // up and right
    case '\U{2518}' => Some(Pipes(Arms(true, false, true, false), Centre))  // up and left
    case '\U{251C}' => Some(Pipes(Arms(false, true, true, true), Centre))   // vertical and right
    case '\U{2524}' => Some(Pipes(Arms(true, false, true, true), Centre))   // vertical and left
    case '\U{252C}' => Some(Pipes(Arms(true, true, false, true), Centre))   // down and horizontal
    case '\U{2534}' => Some(Pipes(Arms(true, true, true, false), Centre))   // up and horizontal
    case '\U{253C}' => Some(Pipes(Arms(true, true, true, true), Centre))    // vertical and horizontal
    case '\U{23BA}' => Some(Pipes(HORIZONTAL, ScanLine1))
    case '\U{23BB}' => Some(Pipes(HORIZONTAL, ScanLine3))
    case '\U{23BC}' => Some(Pipes(HORIZONTAL, ScanLine7))
    case '\U{23BD}' => Some(Pipes(HORIZONTAL, ScanLine9))
    case _ => None
  }

  // The glyphs of the box characters, five at a time.
  lemma CornerGlyphs()
    ensures Segments('j') == Glyph('\U{2518}')
    ensures Segments('k') == Glyph('\U{2510}')
    ensures Segments('l') == Glyph('\U{250C}')
    ensures Segments('m') == Glyph('\U{2514}')
    ensures Segments('n') == Glyph('\U{253C}')
  {
  }

  lemma CornerCodes()
    ensures GRAPH_SET1[11] == '\U{2518}'
    ensures GRAPH_SET1[12] == '\U{2510}'
    ensures GRAPH_SET1[13] == '\U{250C}'
    ensures GRAPH_SET1[14] == '\U{2514}'
    ensures GRAPH_SET1[15] == '\U{253C}'
  {
  }

  lemma CornerDrawsGlyph(c: char)
    requires 'j' <= c <= 'n'
    ensures Segments(c) == Glyph(GraphicsChar(c))
  {
    CornerGlyphs();
    CornerCodes();
    match c
    case 'j' =>
    case 'k' =>
    case 'l' =>
    case 'm' =>
    case 'n' =>
    case _ => assert false;
  }

  lemma ScanLineGlyphs()
    ensures Segments('o') == Glyph('\U{23BA}')
    ensures Segments('p') == Glyph('\U{23BB}')
    ensures Segments('q') == Glyph('\U{2500}')
    ensures Segments('r') == Glyph('\U{23BC}')
    ensures Segments('s') == Glyph('\U{23BD}')
  {
  }

  lemma ScanLineCodes()
    ensures GRAPH_SET1[16] == '\U{23BA}'
    ensures GRAPH_SET1[17] == '\U{23BB}'
    ensures GRAPH_SET1[18] == '\U{2500}'
    ensures GRAPH_SET1[19] == '\U{23BC}'
    ensures GRAPH_SET1[20] == '\U{23BD}'
  {
  }

  lemma ScanLineDrawsGlyph(c: char)
    requires 'o' <= c <= 's'
    ensures Segments(c) == Glyph(GraphicsChar(c))
  {
    ScanLineGlyphs();
    ScanLineCodes();
    match c
    case 'o' =>
    case 'p' =>
    case 'q' =>
    case 'r' =>
    case 's' =>
    case _ => assert false;
  }

  lemma TeeGlyphs()
    ensures Segments('t') == Glyph('\U{251C}')
    ensures Segments('u') == Glyph('\U{2524}')
    ensures Segments('v') == Glyph('\U{2534}')
    ensures Segments('w') == Glyph('\U{252C}')
    ensures Segments('x') == Glyph('\U{2502}')
  {
  }

  lemma TeeCodes()
    ensures GRAPH_SET1[21] == '\U{251C}'
    ensures GRAPH_SET1[22] == '\U{2524}'
    ensures GRAPH_SET1[23] == '\U{2534}'
    ensures GRAPH_SET1[24] == '\U{252C}'
    ensures GRAPH_SET1[25] == '\U{2502}'
  {
  }

  lemma TeeDrawsGlyph(c: char)
    requires 't' <= c <= 'x'
    ensures Segments(c) == Glyph(GraphicsChar(c))
  {
    TeeGlyphs();
    TeeCodes();
    match c
    case 't' =>
    case 'u' =>
    case 'v' =>
    case 'w' =>
    case 'x' =>
    case _ => assert false;
  }

  /**
   * The pipes drawn for each character renderGraphicsChar knows are the
   * shape of the glyph the graphics charset maps that character to.
   */
  lemma SegmentsDrawGlyph(c: char)
    requires 'j' <= c <= 'x'
    ensures Segments(c) == Glyph(GraphicsChar(c))
  {
    if c <= 'n' {
      CornerDrawsGlyph(c);
    } else if c <= 's' {
      ScanLineDrawsGlyph(c);
    } else {
      TeeDrawsGlyph(c);
    }
  }





  /**
   * The pipe thickness: with fat pipes 4 for bold characters and 2
   * otherwise, without them 2 and 1. It is a row of the blend table
   * (rows 1 to 4), and bold always doubles it.
   */
  function PipeSize(fatPipes: bool, bold: bool): (size: int)
    ensures 1 <= size <= 4
    ensures bold ==> size == 2 * PipeSize(fatPipes, false)
    ensures fatPipes ==> size == (if bold then 4 else 2)
  {
    if fatPipes then (if bold then 4 else 2)
    else if bold then 2 else 1
  }

  /** optionFatGraphicPipes is fixed to true. */
  const FAT_GRAPHIC_PIPES := true

  /**
   * The row, counted from the top of the cell, of a horizontal line at the
   * given level, for a cell lineHeight pixels high and pipes size thick.
   */
  function PipeRow(level: Level, lineHeight: int, size: int): (y: int)
    ensures level == Centre ==> y == lineHeight / 2
  {
    var mid := lineHeight / 2;
    match level
    case Centre => mid
    case ScanLine1 => 1 + size
    case ScanLine3 => mid - lineHeight / 4
    case ScanLine7 => mid + lineHeight / 4
    case ScanLine9 => lineHeight - 1 - size
  }

  /**
   * In a cell at least 4 * (size + 2) pixels high the five horizontal lines
   * lie inside the cell and from top to bottom in the order of their scan
   * lines, which is the order of the glyphs o, p, q, r, s.
   */
  lemma ScanLinesOrdered(lineHeight: int, size: int)
    requires 1 <= size && lineHeight >= 4 * (size + 2)
    ensures 0 < PipeRow(ScanLine1, lineHeight, size)
    ensures PipeRow(ScanLine1, lineHeight, size) < PipeRow(ScanLine3, lineHeight, size)
    ensures PipeRow(ScanLine3, lineHeight, size) < PipeRow(Centre, lineHeight, size)
    ensures PipeRow(Centre, lineHeight, size) < PipeRow(ScanLine7, lineHeight, size)
    ensures PipeRow(ScanLine7, lineHeight, size) < PipeRow(ScanLine9, lineHeight, size)
    ensures PipeRow(ScanLine9, lineHeight, size) < lineHeight
  {
    var q := lineHeight / 4;
    assert q >= size + 2;
    assert lineHeight / 2 >= 2 * q;
    assert lineHeight - lineHeight / 2 >= 2 * q;
  }

  /** What renderTemplate does with the foreground of a cell. */
  datatype Drawing = Blank | BoxPipes(pipes: Pipes, size: int) | PlainText

  /** (char) of a Java byte: the byte sign-extended to 16 bits. */
  function ByteChar(b: jbyte): (c: char)
    ensures b >= 0 ==> c as int == b
    ensures b < 0 ==> c as int == 0x1_0000 + b
  {
    if b >= 0 then b as char else (0x1_0000 + b) as char
  }

  /**
   * The foreground decision of renderTemplate: a space is not drawn; a
   * character of the graphics charset that renderGraphicsChar knows becomes
   * pipes of the cell's boldness; anything else is plain text.
   */
  function CellDrawing(cell: StyleChars.StyleCell): (d: Drawing)
    ensures StyleChars.IsChar(cell, ' ') ==> d == Blank
    ensures d.BoxPipes? <==> !StyleChars.IsChar(cell, ' ') && IsGraphicsCharSet(cell.charSet)
                               && Segments(ByteChar(cell.charBytes[0])).Some?
    ensures d.BoxPipes? ==> d.pipes == Segments(ByteChar(cell.charBytes[0])).value
                            && d.size == (if StyleChars.HasStyle(cell, StyleChars.STYLE_BOLD) then 4 else 2)
  {
    if StyleChars.IsChar(cell, ' ') then Blank
    else if IsGraphicsCharSet(cell.charSet) then
      match Segments(ByteChar(cell.charBytes[0]))
      case Some(p) => BoxPipes(p, PipeSize(FAT_GRAPHIC_PIPES, StyleChars.HasStyle(cell, StyleChars.STYLE_BOLD)))
      case None => PlainText
    else PlainText
  }

  /**
   * getLineHeight: the font's height (ascent + descent + leading, as
   * FontMetrics.getHeight gives it) plus the renderer's line leading, 0.
   */
  datatype Metrics = Metrics(ascent: int, descent: int, leading: int, charWidth: int)

  function FontHeight(m: Metrics): int
  {
    m.ascent + m.descent + m.leading
  }

  const LINE_LEADING := 0

  function LineHeight(m: Metrics): (h: int)
    ensures h == FontHeight(m)
  {
    FontHeight(m) + LINE_LEADING
  }
}
