/**
 * ColorMap (ui/panels/charpane/ColorMap.java): an xterm 256-colour map. A
 * map is a list of colours with a foreground and a background; the
 * constructor appends a 16-colour palette and then the 216 colours of the
 * 6 x 6 x 6 cube and 24 greys. Five named maps sit in a static registry
 * that hands out copies.
 */
module ColorMaps {
  import opened Wrappers
  import opened JavaAwt

  /** Colour 16 + i of the cube, i < 216: red, green and blue levels of 51 each. */
  function CubeColor(i: int): (c: Color)
    requires 0 <= i < 216
    ensures ValidColor(c)
    ensures c.red % 51 == 0 && c.green % 51 == 0 && c.blue % 51 == 0
  {
    Color(((i / 36) % 6) * 51, ((i / 6) % 6) * 51, (i % 6) * 51)
  }

  /** The grey level (int)(256 * (i / 24.0)); exactly 32 * i / 3 rounded down for i < 24. */
  function GreyLevel(i: int): (level: int)
    requires 0 <= i < 24
    ensures 0 <= level <= 245
  {
    32 * i / 3
  }

  /** Colour 232 + i, i < 24. */
  function GreyColor(i: int): (c: Color)
    requires 0 <= i < 24
    ensures ValidColor(c) && c.red == c.green == c.blue
  {
    Color(GreyLevel(i), GreyLevel(i), GreyLevel(i))
  }

  /** Every level combination of the cube appears, at index 36 r + 6 g + b. */
  lemma CubeCoversLevels(r: int, g: int, b: int)
    requires 0 <= r < 6 && 0 <= g < 6 && 0 <= b < 6
    ensures CubeColor(36 * r + 6 * g + b) == Color(51 * r, 51 * g, 51 * b)
  {
    var i := 36 * r + 6 * g + b;
    assert i / 36 == r;
    assert i / 6 == 6 * r + g;
    assert (6 * r + g) % 6 == g;
    assert i % 6 == b;
  }

  /** The index of a cube colour is recovered from its levels, so no colour appears twice. */
  lemma CubeIndex(i: int)
    requires 0 <= i < 216
    ensures var c := CubeColor(i);
      36 * (c.red / 51) + 6 * (c.green / 51) + c.blue / 51 == i
  {
    var c := CubeColor(i);
    assert c.red / 51 == i / 36;
    assert c.green / 51 == (i / 6) % 6;
    assert c.blue / 51 == i % 6;
    assert i / 6 == 6 * (i / 36) + (i / 6) % 6;
  }

  /** The greys get lighter with the index. */
  lemma GreysIncrease(i: int, j: int)
    requires 0 <= i < j < 24
    ensures GreyLevel(i) < GreyLevel(j)
  {
    assert 32 * j - 32 * i >= 32;
  }

  /** Indices 16..255 of every map: the cube, then the greys. */
  function Xterm256(): (s: seq<Color>)
    ensures |s| == 240
    ensures forall i :: 0 <= i < 216 ==> s[i] == CubeColor(i)
    ensures forall i :: 0 <= i < 24 ==> s[216 + i] == GreyColor(i)
  {
    seq(216, i requires 0 <= i < 216 => CubeColor(i)) + seq(24, i requires 0 <= i < 24 => GreyColor(i))
  }

  predicate AllValid(colors: seq<Color>)
  {
    forall i :: 0 <= i < |colors| ==> ValidColor(colors[i])
  }

  class ColorMap {
    var backgroundColor: Color
    var foregroundColor: Color
    /** The list the map extends. */
    var colors: seq<Color>

    /** The protected constructor: an empty list. */
    constructor (background: Color, foreground: Color)
      ensures backgroundColor == background && foregroundColor == foreground && colors == []
    {
      backgroundColor := background;
      foregroundColor := foreground;
      colors := [];
    }

    method Add(c: Color)
      modifies this`colors
      ensures colors == old(colors) + [c]
    {
      colors := colors + [c];
    }

    /**
     * autoAddXterm256: the list must hold exactly the 16 palette colours,
     * else VTxInvalidConfigurationException; then the cube and the greys
     * are appended.
     */
    method AutoAddXterm256() returns (error: Option<Exception>)
      modifies this`colors
      ensures |old(colors)| != 16 ==> error == Some(InvalidConfiguration) && colors == old(colors)
      ensures |old(colors)| == 16 ==> error.None? && colors == old(colors) + Xterm256()
      ensures |old(colors)| == 16 ==> |colors| == 256
    {
      if |colors| != 16 {
        return Some(InvalidConfiguration);
      }
      ghost var start := colors;
      for i := 0 to 216
        invariant colors == start + seq(i, k requires 0 <= k < i => CubeColor(k))
      {
        Add(CubeColor(i));
      }
      for i := 0 to 24
        invariant colors == start + seq(216, k requires 0 <= k < 216 => CubeColor(k))
          + seq(i, k requires 0 <= k < i => GreyColor(k))
      {
        Add(GreyColor(i));
      }
      return None;
    }

    /** The public constructor: the palette, then autoAddXterm256, whose exception escapes. */
    static method New(background: Color, foreground: Color, palette: seq<Color>) returns (r: Result<ColorMap>)
      ensures |palette| != 16 <==> r.Err?
      ensures r.Err? ==> r.error == InvalidConfiguration
      ensures r.Ok? ==> fresh(r.value) && r.value.colors == palette + Xterm256()
      ensures r.Ok? ==> r.value.backgroundColor == background && r.value.foregroundColor == foreground
    {
      var m := new ColorMap(background, foreground);
      for i := 0 to |palette|
        invariant fresh(m) && m.colors == palette[..i]
        invariant m.backgroundColor == background && m.foregroundColor == foreground
      {
        m.Add(palette[i]);
      }
      assert palette[..|palette|] == palette;
      var error := m.AutoAddXterm256();
      if error.Some? {
        return Err(error.value);
      }
      return Ok(m);
    }

    /** resolve(index): null outside the list, otherwise entry index. */
    function Resolve(index: int): (c: Option<Color>)
      reads this
      ensures c.None? <==> index < 0 || index >= |colors|
      ensures c.Some? ==> c.value == colors[index]
    {
      if index < 0 || index >= |colors| then None else Some(colors[index])
    }

    /** duplicate(): a new map with the same colours and the same foreground and background. */
    method Duplicate() returns (m: ColorMap)
      ensures fresh(m)
      ensures m.colors == colors && m.foregroundColor == foregroundColor && m.backgroundColor == backgroundColor
    {
      m := new ColorMap(backgroundColor, foregroundColor);
      m.colors := m.colors + colors;
    }

    method SetForeground(c: Color)
      modifies this`foregroundColor
      ensures foregroundColor == c
    {
      foregroundColor := c;
    }

    method SetBackground(c: Color)
      modifies this`backgroundColor
      ensures backgroundColor == c
    {
      backgroundColor := c;
    }
  }

  /** A map built from a valid 16-colour palette holds 256 valid colours, entry i resolving to it. */
  lemma FullMap(palette: seq<Color>, i: int)
    requires |palette| == 16 && AllValid(palette)
    ensures |palette + Xterm256()| == 256
    ensures AllValid(palette + Xterm256())
    ensures 16 <= i < 232 ==> (palette + Xterm256())[i] == CubeColor(i - 16)
    ensures 232 <= i < 256 ==> (palette + Xterm256())[i] == GreyColor(i - 232)
  {
    var s := palette + Xterm256();
    forall k | 0 <= k < 256
      ensures ValidColor(s[k])
    {
      if k >= 16 {
        assert s[k] == Xterm256()[k - 16];
      }
    }
  }

  // The five palettes.
  const COLOR_MAP_WHITE: seq<Color> := [
    Color(0, 0, 0), Color(255, 0, 0), Color(0, 255, 0), Color(255, 255, 0),
    Color(0, 0, 255), Color(196, 0, 255), Color(0, 255, 255), Color(128, 128, 128),
    Brighter(Color(0, 0, 0)), Brighter(Color(255, 0, 0)), Brighter(Color(0, 255, 0)), Brighter(Color(255, 255, 0)),
    Brighter(Color(0, 0, 255)), Brighter(Color(196, 0, 255)), Brighter(Color(0, 255, 255)), Brighter(Color(128, 128, 128))]

  const COLOR_MAP_WHITE_SOFT: seq<Color> := [
    Color(64, 64, 64), Color(255, 64, 64), Color(128, 255, 128), Color(255, 192, 192),
    Color(128, 128, 255), Color(255, 128, 255), Color(128, 255, 255), Color(196, 196, 196),
    Brighter(Color(64, 64, 64)), Brighter(Color(255, 64, 64)), Brighter(Color(128, 255, 128)), Brighter(Color(255, 192, 192)),
    Brighter(Color(128, 128, 255)), Brighter(Color(255, 128, 255)), Brighter(Color(128, 255, 255)), Brighter(Color(196, 196, 196))]

  const COLOR_MAP_DARK_GREEN16: seq<Color> := [
    Color(64, 64, 64), Color(255, 0, 0), Color(128, 255, 128), Color(255, 128, 0),
    Color(32, 64, 255), Color(196, 0, 255), Color(0, 255, 255), Color(196, 196, 196),
    Brighter(Color(128, 128, 128)), Brighter(Color(255, 0, 0)), Brighter(Color(128, 255, 128)), Brighter(Color(255, 128, 0)),
    Brighter(Color(32, 64, 255)), Brighter(Color(196, 0, 255)), Brighter(Color(0, 255, 255)), Brighter(Color(196, 196, 196))]

  const COLOR_MAP_SHADED_GREEN: seq<Color> := [
    Color(0, 64, 0), Color(0, 128, 0), Color(0, 196, 0), Color(0, 255, 0),
    Color(32, 255, 32), Color(96, 255, 96), Color(160, 255, 160), Color(224, 255, 224),
    Color(0, 128, 128), Color(0, 160, 160), Color(0, 192, 192), Color(0, 224, 224),
    Color(32, 255, 255), Color(96, 255, 255), Color(160, 255, 255), Color(224, 255, 255)]

  const COLOR_MAP_PASTEL_PINK: seq<Color> := [
    Color(64, 32, 32), Color(192, 96, 96), Color(224, 108, 108), Color(255, 64, 64),
    Color(255, 128, 128), Color(255, 160, 160), Color(255, 196, 196), Color(255, 224, 224),
    Brighter(Color(64, 32, 32)), Brighter(Color(192, 96, 96)), Brighter(Color(224, 108, 108)), Brighter(Color(255, 64, 64)),
    Brighter(Color(255, 128, 128)), Brighter(Color(255, 160, 160)), Brighter(Color(255, 196, 196)), Brighter(Color(255, 224, 224))]

  const WHITE_CONTRAST: string := "White (High Constrast)"
  const WHITE_SOFT: string := "White (Soft)"
  const GREEN_CONTRAST: string := "Green (Dark)"
  const GREEN_SHADED: string := "Green (Shaded)"
  const PASTEL_PINK: string := "Pastel Pink"

  /** The registered maps' names, in the order getColorMapNames lists them. */
  const COLOR_MAP_NAMES: seq<string> := [WHITE_CONTRAST, WHITE_SOFT, GREEN_CONTRAST, GREEN_SHADED, PASTEL_PINK]

  /** The five palettes hold 16 valid colours each, as the constructor demands. */
  lemma PalettesAreSixteen()
    ensures |COLOR_MAP_WHITE| == 16 && AllValid(COLOR_MAP_WHITE)
    ensures |COLOR_MAP_WHITE_SOFT| == 16 && AllValid(COLOR_MAP_WHITE_SOFT)
    ensures |COLOR_MAP_DARK_GREEN16| == 16 && AllValid(COLOR_MAP_DARK_GREEN16)
    ensures |COLOR_MAP_SHADED_GREEN| == 16 && AllValid(COLOR_MAP_SHADED_GREEN)
    ensures |COLOR_MAP_PASTEL_PINK| == 16 && AllValid(COLOR_MAP_PASTEL_PINK)
  {
  }

  /** The static maps and the lazily built name table. */
  class ColorMapRegistry {
    const whiteOnBlack: ColorMap
    const whiteSoft: ColorMap
    const greenOnBlack: ColorMap
    const shadedGreen: ColorMap
    const pastelPink: ColorMap
    /** colorMaps: null until getColorMaps first runs. */
    var colorMaps: Option<map<string, ColorMap>>

    /** The map getColorMaps builds. */
    function Registered(): (m: map<string, ColorMap>)
      ensures m.Keys == {WHITE_CONTRAST, WHITE_SOFT, GREEN_CONTRAST, GREEN_SHADED, PASTEL_PINK}
    {
      map[WHITE_CONTRAST := whiteOnBlack, WHITE_SOFT := whiteSoft, GREEN_CONTRAST := greenOnBlack,
          GREEN_SHADED := shadedGreen, PASTEL_PINK := pastelPink]
    }

    /** Every registered map has 256 valid colours; the table, once built, is Registered(). */
    ghost predicate Valid()
      reads this, whiteOnBlack, whiteSoft, greenOnBlack, shadedGreen, pastelPink
    {
      && (forall n :: n in Registered() ==> |Registered()[n].colors| == 256 && AllValid(Registered()[n].colors))
      && (colorMaps.None? || colorMaps.value == Registered())
    }

    /** The static initialisers of the five maps. */
    constructor ()
      ensures Valid() && colorMaps.None?
      ensures fresh(whiteOnBlack) && fresh(whiteSoft) && fresh(greenOnBlack) && fresh(shadedGreen) && fresh(pastelPink)
    {
      PalettesAreSixteen();
      FullMap(COLOR_MAP_WHITE, 0);
      FullMap(COLOR_MAP_WHITE_SOFT, 0);
      FullMap(COLOR_MAP_DARK_GREEN16, 0);
      FullMap(COLOR_MAP_SHADED_GREEN, 0);
      FullMap(COLOR_MAP_PASTEL_PINK, 0);
      var a := ColorMap.New(WHITE, BLACK, COLOR_MAP_WHITE);
      var b := ColorMap.New(Color(240, 240, 240), BLACK, COLOR_MAP_WHITE_SOFT);
      var c := ColorMap.New(BLACK, GREEN, COLOR_MAP_DARK_GREEN16);
      var d := ColorMap.New(BLACK, GREEN, COLOR_MAP_SHADED_GREEN);
      var e := ColorMap.New(Brighter(PINK), Color(128, 64, 64), COLOR_MAP_PASTEL_PINK);
      whiteOnBlack := a.value;
      whiteSoft := b.value;
      greenOnBlack := c.value;
      shadedGreen := d.value;
      pastelPink := e.value;
      colorMaps := None;
    }

    /** getColorMaps: builds the name table on first use. */
    method GetColorMaps() returns (maps: map<string, ColorMap>)
      requires Valid()
      modifies this`colorMaps
      ensures Valid() && colorMaps == Some(Registered()) && maps == Registered()
    {
      if colorMaps.None? {
        colorMaps := Some(Registered());
      }
      maps := colorMaps.value;
    }

    /**
     * getColorMap(name): a copy of the registered map, 256 colours long;
     * an unknown name dereferences null.
     */
    method GetColorMap(name: string) returns (r: Result<ColorMap>)
      requires Valid()
      modifies this`colorMaps
      ensures Valid() && colorMaps == Some(Registered())
      ensures name !in Registered() <==> r == Err(NullPointer)
      ensures r.Ok? ==> fresh(r.value) && r.value.colors == Registered()[name].colors && |r.value.colors| == 256
      ensures r.Ok? ==> r.value.foregroundColor == Registered()[name].foregroundColor
      ensures r.Ok? ==> r.value.backgroundColor == Registered()[name].backgroundColor
    {
      var maps := GetColorMaps();
      if name !in maps {
        return Err(NullPointer);
      }
      var m := maps[name].Duplicate();
      return Ok(m);
    }
  }
}
