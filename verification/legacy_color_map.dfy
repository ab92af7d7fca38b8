/**
 * The older ColorMap (ui/charpane/ColorMap.java): the palette is followed by
 * an 8 x 8 x 4 grid of colours up to index 255, whatever the palette's
 * length, and the registry hands out the shared instances themselves.
 */
module LegacyColorMaps {
  import opened Wrappers
  import opened JavaAwt
  import ColorMaps

  /** Fill colour for index i: red steps with i % 8, green with (i / 8) % 8, blue with i / 64. */
  function FillColor(i: int): (c: Color)
    requires 0 <= i < 256
    ensures ValidColor(c)
    ensures 31 <= c.red && 31 <= c.green && 31 <= c.blue <= 127
    ensures c.red % 32 == 31 && c.green % 32 == 31 && c.blue % 32 == 31
  {
    Color(31 + (i % 8) * 32, 31 + ((i / 8) % 8) * 32, 31 + (i / 64) * 32)
  }

  /** The fill colours from index n to 255. */
  function Fill(n: nat): (s: seq<Color>)
    ensures n <= 256 ==> |s| == 256 - n
    ensures n > 256 ==> s == []
    ensures forall j :: 0 <= j < |s| ==> n + j < 256 && s[j] == FillColor(n + j)
  {
    if n >= 256 then [] else seq(256 - n, j requires 0 <= j < 256 - n => FillColor(n + j))
  }

  /** The fill index is recovered from the colour: the grid repeats no colour. */
  lemma FillIndex(i: int)
    requires 0 <= i < 256
    ensures var c := FillColor(i);
      (c.red - 31) / 32 + 8 * ((c.green - 31) / 32) + 64 * ((c.blue - 31) / 32) == i
  {
    var c := FillColor(i);
    assert (c.red - 31) / 32 == i % 8;
    assert (c.green - 31) / 32 == (i / 8) % 8;
    assert (c.blue - 31) / 32 == i / 64;
    assert i / 8 == 8 * (i / 64) + (i / 8) % 8;
  }

  class ColorMap {
    const backgroundColor: Color
    const foregroundColor: Color
    var colors: seq<Color>

    /** The palette, then autoAddXterm256. */
    constructor (background: Color, foreground: Color, palette: seq<Color>)
      ensures backgroundColor == background && foregroundColor == foreground
      ensures colors == palette + Fill(|palette|)
    {
      backgroundColor := background;
      foregroundColor := foreground;
      colors := [];
      new;
      for i := 0 to |palette|
        invariant colors == palette[..i]
      {
        colors := colors + [palette[i]];
      }
      assert palette[..|palette|] == palette;
      AutoAddXterm256();
    }

    /** autoAddXterm256: fill colours from the current size up to index 255. */
    method AutoAddXterm256()
      modifies this`colors
      ensures colors == old(colors) + Fill(|old(colors)|)
      ensures |colors| == if |old(colors)| < 256 then 256 else |old(colors)|
    {
      ghost var start := colors;
      var i := |colors|;
      while i < 256
        invariant |start| <= i && (i <= 256 || i == |start|)
        invariant colors == start + seq(i - |start|, j requires 0 <= j < i - |start| => FillColor(|start| + j))
      {
        colors := colors + [FillColor(i)];
        i := i + 1;
      }
    }

    /** resolve(index): null outside the list, otherwise entry index. */
    function Resolve(index: int): (c: Option<Color>)
      reads this
      ensures c.None? <==> index < 0 || index >= |colors|
      ensures c.Some? ==> c.value == colors[index]
    {
      if index < 0 || index >= |colors| then None else Some(colors[index])
    }
  }

  /** A palette of at most 256 valid colours yields a map of 256 valid colours. */
  lemma FullMap(palette: seq<Color>)
    requires |palette| <= 256 && ColorMaps.AllValid(palette)
    ensures |palette + Fill(|palette|)| == 256
    ensures ColorMaps.AllValid(palette + Fill(|palette|))
  {
    var s := palette + Fill(|palette|);
    forall k | 0 <= k < 256
      ensures ValidColor(s[k])
    {
      if k >= |palette| {
        assert s[k] == Fill(|palette|)[k - |palette|];
      }
    }
  }

  const COLOR_MAP_WHITE: seq<Color> := [
    BLACK, RED, GREEN, Color(255, 255, 0), BLUE, MAGENTA, CYAN, Color(128, 128, 128)]

  const COLOR_MAP_WHITE_SOFT: seq<Color> := [
    Color(64, 64, 64), Color(255, 64, 64), Color(128, 255, 128), Color(255, 192, 192),
    Color(128, 128, 255), Color(255, 128, 255), Color(128, 255, 255), Color(196, 196, 196)]

  const COLOR_MAP_DARK_GREEN16: seq<Color> := [
    Color(128, 128, 128), Color(255, 0, 0), Color(128, 255, 128), Color(255, 128, 0),
    Color(32, 64, 255), Color(255, 0, 255), Color(0, 255, 255), Color(196, 196, 196),
    Brighter(Color(128, 128, 128)), Brighter(Color(255, 0, 0)), Brighter(Color(128, 255, 128)), Brighter(Color(255, 128, 0)),
    Brighter(Color(32, 64, 255)), Brighter(Color(255, 0, 255)), Brighter(Color(0, 255, 255)), Brighter(Color(196, 196, 196))]

  const COLOR_MAP_SHADED_GREEN: seq<Color> := [
    Color(0, 64, 0), Color(0, 128, 0), Color(0, 196, 0), Color(0, 255, 0),
    Color(32, 255, 32), Color(96, 255, 96), Color(160, 255, 160), Color(224, 255, 224),
    Color(0, 128, 128), Color(0, 160, 160), Color(0, 192, 192), Color(0, 224, 224),
    Color(32, 255, 255), Color(96, 255, 255), Color(160, 255, 255), Color(224, 255, 255)]

  const COLOR_MAP_PASTEL_PINK: seq<Color> := [
    Color(64, 32, 32), Color(192, 96, 96), Color(224, 108, 108), Color(255, 64, 64),
    Color(255, 128, 128), Color(255, 160, 160), Color(255, 196, 196), Color(255, 224, 224)]

  const WHITE_CONTRAST: string := "White (High Constrast)"
  const WHITE_SOFT: string := "White (Soft)"
  const GREEN_CONTRAST: string := "Green"
  const GREEN_SHADED: string := "Green Shaded"
  const PASTEL_PINK: string := "Pastel Pink"

  const COLOR_MAP_NAMES: seq<string> := [WHITE_CONTRAST, WHITE_SOFT, GREEN_CONTRAST, GREEN_SHADED, PASTEL_PINK]

  /** The five palettes hold 8 or 16 valid colours. */
  lemma PalettesValid()
    ensures |COLOR_MAP_WHITE| == 8 && ColorMaps.AllValid(COLOR_MAP_WHITE)
    ensures |COLOR_MAP_WHITE_SOFT| == 8 && ColorMaps.AllValid(COLOR_MAP_WHITE_SOFT)
    ensures |COLOR_MAP_DARK_GREEN16| == 16 && ColorMaps.AllValid(COLOR_MAP_DARK_GREEN16)
    ensures |COLOR_MAP_SHADED_GREEN| == 16 && ColorMaps.AllValid(COLOR_MAP_SHADED_GREEN)
    ensures |COLOR_MAP_PASTEL_PINK| == 8 && ColorMaps.AllValid(COLOR_MAP_PASTEL_PINK)
  {
  }

  /** The static maps and the lazily built name table. */
  class ColorMapRegistry {
    const whiteOnBlack: ColorMap
    const whiteSoft: ColorMap
    const greenOnBlack: ColorMap
    const shadedGreen: ColorMap
    const pastelPink: ColorMap
    var colorMaps: Option<map<string, ColorMap>>

    function Registered(): (m: map<string, ColorMap>)
      ensures m.Keys == {WHITE_CONTRAST, WHITE_SOFT, GREEN_CONTRAST, GREEN_SHADED, PASTEL_PINK}
    {
      map[WHITE_CONTRAST := whiteOnBlack, WHITE_SOFT := whiteSoft, GREEN_CONTRAST := greenOnBlack,
          GREEN_SHADED := shadedGreen, PASTEL_PINK := pastelPink]
    }

    ghost predicate Valid()
      reads this, whiteOnBlack, whiteSoft, greenOnBlack, shadedGreen, pastelPink
    {
      && (forall n :: n in Registered() ==> |Registered()[n].colors| == 256 && ColorMaps.AllValid(Registered()[n].colors))
      && (colorMaps.None? || colorMaps.value == Registered())
    }

    /** The static initialisers: every map ends with 256 colours, whatever its palette's length. */
    constructor ()
      ensures Valid() && colorMaps.None?
    {
      PalettesValid();
      FullMap(COLOR_MAP_WHITE);
      FullMap(COLOR_MAP_WHITE_SOFT);
      FullMap(COLOR_MAP_DARK_GREEN16);
      FullMap(COLOR_MAP_SHADED_GREEN);
      FullMap(COLOR_MAP_PASTEL_PINK);
      whiteOnBlack := new ColorMap(WHITE, BLACK, COLOR_MAP_WHITE);
      whiteSoft := new ColorMap(WHITE, BLACK, COLOR_MAP_WHITE_SOFT);
      greenOnBlack := new ColorMap(BLACK, GREEN, COLOR_MAP_DARK_GREEN16);
      shadedGreen := new ColorMap(BLACK, GREEN, COLOR_MAP_SHADED_GREEN);
      pastelPink := new ColorMap(Brighter(PINK), Color(128, 64, 64), COLOR_MAP_PASTEL_PINK);
      colorMaps := None;
    }

    method GetColorMaps() returns (maps: map<string, ColorMap>)
      requires Valid()
      modifies this`colorMaps
      ensures Valid() && colorMaps == Some(Registered()) && maps == Registered()
    {
      if colorMaps.None? {
        colorMaps := Some(Registered());
      }
      maps := colorMaps.value;
    }

    /** getColorMap(name): the shared registered instance, or null for an unknown name. */
    method GetColorMap(name: string) returns (m: Option<ColorMap>)
      requires Valid()
      modifies this`colorMaps
      ensures Valid() && colorMaps == Some(Registered())
      ensures name !in Registered() <==> m.None?
      ensures m.Some? ==> m.value == Registered()[name] && |m.value.colors| == 256
    {
      var maps := GetColorMaps();
      if name !in maps {
        return None;
      }
      return Some(maps[name]);
    }
  }
}
