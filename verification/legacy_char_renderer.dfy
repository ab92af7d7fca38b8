/**
 * The older CharRenderer (ui/charpane/CharRenderer.java): its graphics
 * charset starts at 'a' rather than '_', a cell has only a custom
 * foreground, HIDDEN is the only style that sets the alpha, and the line
 * height adds the font's descent to the font height. The box-drawing
 * switch is the one CharRenderers.Segments models; its horizontal scan
 * lines are placed by the character height rather than the line height.
 */
module LegacyCharRenderers {
  import opened Wrappers
  import opened JavaLang
  import opened JavaAwt
  import LegacyStyleChars
  import LegacyColorMaps
  import CharRenderers

  const GRAPH_ORG0: string := "abcdefghijklmnopqrstuvwxyz"
  const GRAPH_SET1: string :=
    "\U{2592}\U{2409}\U{240C}\U{240D}\U{240A}\U{00B0}\U{00B1}\U{2424}\U{240B}\U{2518}\U{2510}\U{250C}\U{2514}\U{253C}\U{23BA}\U{23BB}\U{2500}\U{23BC}\U{23BD}\U{251C}\U{2524}\U{2534}\U{252C}\U{2502}\U{2264}\U{2265}"

  /** The older tables are the newer ones without their first two entries. */
  lemma TablesAreSuffixes()
    ensures GRAPH_ORG0 == CharRenderers.GRAPH_ORG0[2..]
    ensures GRAPH_SET1 == CharRenderers.GRAPH_SET1[2..]
  {
  }

  /** The redefined characters are the 26 consecutive codes from 'a' (97) to 'z' (122). */
  lemma GraphOrgCodes()
    ensures |GRAPH_ORG0| == |GRAPH_SET1| == 26
    ensures forall i :: 0 <= i < |GRAPH_ORG0| ==> GRAPH_ORG0[i] as int == 97 + i
  {
  }

  /** What CharSet1 computes: the glyph at the same position, or c itself. */
  function CharSet1Char(c: char): (r: char)
    ensures forall i :: 0 <= i < |GRAPH_ORG0| && GRAPH_ORG0[i] == c ==> r == GRAPH_SET1[i]
    ensures c !in GRAPH_ORG0 ==> r == c
  {
    GraphOrgCodes();
    if 'a' <= c <= 'z' then
      assert GRAPH_ORG0[c as int - 97] == c;
      GRAPH_SET1[c as int - 97]
    else c
  }

  lemma AgreeOnLetters(c: char)
    requires 'a' <= c <= 'z'
    ensures CharSet1Char(c) == CharRenderers.GraphicsChar(c)
  {
    var i := c as int - 97;
    TablesAreSuffixes();
    GraphOrgCodes();
    CharRenderers.GraphOrgCodes();
    assert CharRenderers.GRAPH_ORG0[i + 2] == c;
    assert CharRenderers.GraphicsChar(c) == CharRenderers.GRAPH_SET1[i + 2];
    assert CharSet1Char(c) == GRAPH_SET1[i] == CharRenderers.GRAPH_SET1[2..][i];
  }

  lemma AgreeOutsideTables(c: char)
    requires !(95 <= c as int <= 122)
    ensures CharSet1Char(c) == c == CharRenderers.GraphicsChar(c)
  {
    GraphOrgCodes();
    CharRenderers.GraphOrgCodes();
  }

  /**
   * The two revisions map every character alike except '_' and '`', which
   * the newer one maps to a space and a diamond and the older one keeps.
   */
  lemma AgreesWithNewer(c: char)
    ensures c != '_' && c != '`' ==> CharSet1Char(c) == CharRenderers.GraphicsChar(c)
    ensures c == '_' || c == '`' ==> CharSet1Char(c) == c && CharRenderers.GraphicsChar(c) != c
  {
    if 'a' <= c <= 'z' {
      AgreeOnLetters(c);
    } else if c == '_' || c == '`' {
      GraphOrgCodes();
      CharRenderers.GraphOrgCodes();
      CharRenderers.GraphicsCharMoves(c);
      assert c !in GRAPH_ORG0;
      assert c in CharRenderers.GRAPH_ORG0;
    } else {
      AgreeOutsideTables(c);
    }
  }

  /** CharSet1(c): a linear search of GRAPH_ORG0. */
  method CharSet1(c: char) returns (r: char)
    ensures r == CharSet1Char(c)
  {
    GraphOrgCodes();
    for i := 0 to |GRAPH_ORG0|
      invariant !(97 <= c as int < 97 + i)
    {
      if GRAPH_ORG0[i] == c {
        assert c as int - 97 == i;
        return GRAPH_SET1[i];
      }
    }
    return c;
  }

  /**
   * checkCharSet(charset, str): the text unchanged unless the charset is the
   * graphics one; then the mapped characters, appended one by one.
   */
  method CheckCharSet(charset: Option<string>, str: string) returns (s: string)
    ensures !CharRenderers.IsGraphicsCharSet(charset) ==> s == str
    ensures CharRenderers.IsGraphicsCharSet(charset) ==> |s| == |str| && forall i :: 0 <= i < |str| ==> s[i] == CharSet1Char(str[i])
  {
    if CharRenderers.IsGraphicsCharSet(charset) {
      var graph := "";
      for i := 0 to |str|
        invariant |graph| == i
        invariant forall j :: 0 <= j < i ==> graph[j] == CharSet1Char(str[j])
      {
        var g := CharSet1(str[i]);
        graph := graph + [g];
      }
      return graph;
    }
    return str;
  }

  /**
   * The colour part of renderChar: the foreground is the custom colour, else
   * the resolved index, else the map's foreground; the background is the
   * resolved index, else the map's background; INVERSE swaps them; HIDDEN
   * forces alpha 64, and only an alpha in [0, 255) is applied.
   */
  function CellPaint(cm: LegacyColorMaps.ColorMap, cell: LegacyStyleChars.Cell): (p: CharRenderers.Paint)
    reads cm
    ensures var fg := CharRenderers.Chosen(cell.customForeground, cell.foregroundColor, cm.colors, cm.foregroundColor);
      var bg := CharRenderers.Chosen(None, cell.backgroundColor, cm.colors, cm.backgroundColor);
      if LegacyStyleChars.HasStyle(cell, LegacyStyleChars.STYLE_INVERSE) then p.foreground == bg && p.background == fg
      else p.foreground == fg && p.background == bg
    ensures LegacyStyleChars.HasStyle(cell, LegacyStyleChars.STYLE_HIDDEN) ==> p.alpha == Some(64)
    ensures !LegacyStyleChars.HasStyle(cell, LegacyStyleChars.STYLE_HIDDEN) ==>
      (p.alpha.Some? <==> 0 <= cell.alpha < 255) && (p.alpha.Some? ==> p.alpha.value == cell.alpha)
  {
    var fg := cm.Resolve(cell.foregroundColor);
    var bg := cm.Resolve(cell.backgroundColor);
    var fg := if cell.customForeground.Some? then cell.customForeground else fg;
    var fg := fg.GetOr(cm.foregroundColor);
    var bg := bg.GetOr(cm.backgroundColor);
    var alpha := if LegacyStyleChars.HasStyle(cell, LegacyStyleChars.STYLE_HIDDEN) then 64 else cell.alpha;
    var a := if 0 <= alpha < 255 then Some(alpha) else None;
    if LegacyStyleChars.HasStyle(cell, LegacyStyleChars.STYLE_INVERSE) then CharRenderers.Paint(bg, fg, a)
    else CharRenderers.Paint(fg, bg, a)
  }

  /** The older cell has no custom background: the background never depends on the custom foreground. */
  lemma CustomForegroundOnly(cm: LegacyColorMaps.ColorMap, cell: LegacyStyleChars.Cell, custom: Color)
    requires !LegacyStyleChars.HasStyle(cell, LegacyStyleChars.STYLE_INVERSE)
    ensures CellPaint(cm, cell.(customForeground := Some(custom))).foreground == custom
    ensures CellPaint(cm, cell.(customForeground := Some(custom))).background == CellPaint(cm, cell).background
  {
  }

  /**
   * The foreground decision of renderChar: a space is not drawn; a
   * character of the graphics charset that the box switch knows becomes
   * pipes of the cell's boldness; anything else is plain text.
   */
  function CellDrawing(cell: LegacyStyleChars.StyleCell): (d: CharRenderers.Drawing)
    ensures LegacyStyleChars.IsChar(cell, ' ') ==> d == CharRenderers.Blank
    ensures d.BoxPipes? <==> !LegacyStyleChars.IsChar(cell, ' ') && CharRenderers.IsGraphicsCharSet(cell.charSet)
                               && 'j' <= CharRenderers.ByteChar(cell.charBytes[0]) <= 'x'
    ensures d.BoxPipes? ==> d.size == (if LegacyStyleChars.HasStyle(cell, LegacyStyleChars.STYLE_BOLD) then 4 else 2)
  {
    if LegacyStyleChars.IsChar(cell, ' ') then CharRenderers.Blank
    else if CharRenderers.IsGraphicsCharSet(cell.charSet) then
      match CharRenderers.Segments(CharRenderers.ByteChar(cell.charBytes[0]))
      case Some(p) => CharRenderers.BoxPipes(p, CharRenderers.PipeSize(CharRenderers.FAT_GRAPHIC_PIPES, LegacyStyleChars.HasStyle(cell, LegacyStyleChars.STYLE_BOLD)))
      case None => CharRenderers.PlainText
    else CharRenderers.PlainText
  }

  /** lineSpacing is fixed to 0. */
  const LINE_SPACING := 0

  /** getLineHeight: the font height, the line spacing and the descent once more. */
  function LineHeight(m: CharRenderers.Metrics): (h: int)
    ensures h == CharRenderers.LineHeight(m) + m.descent
  {
    CharRenderers.FontHeight(m) + LINE_SPACING + m.descent
  }
}
