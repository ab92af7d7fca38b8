/**
 * The styled character cell of the newer character pane
 * (ui/panels/charpane/StyleChar.java): up to eight encoded bytes, a style
 * word, two colour indices, two custom colours, a charset name, an alpha
 * value and the repaint flag.
 *
 * The pure operations on a cell value are the specification; the class
 * StyleChar performs them in place on its fields and its byte array.
 */
module StyleChars {
  import opened Wrappers
  import opened JavaLang
  import opened JavaAwt

  const MAX_BYTES := 8

  const STYLE_NONE: bv32 := 0
  // bit n is SGR attribute n, for n = 1..9
  const STYLE_BOLD: bv32 := 1 << 1
  const STYLE_FAINT: bv32 := 1 << 2
  const STYLE_ITALIC: bv32 := 1 << 3
  const STYLE_UNDERSCORE: bv32 := 1 << 4
  const STYLE_SLOW_BLINK: bv32 := 1 << 5
  const STYLE_FAST_BLINK: bv32 := 1 << 6
  const STYLE_INVERSE: bv32 := 1 << 7
  const STYLE_HIDDEN: bv32 := 1 << 8
  const STYLE_STRIKETHROUGH: bv32 := 1 << 9
  // not ECMA-48 attributes
  const STYLE_UBERBOLD: bv32 := 1 << 10
  const STYLE_DOUBLE_UNDERSCORE: bv32 := 1 << 11
  const STYLE_FRAKTUR: bv32 := 1 << 13

  /** The style flag declared for SGR attribute n, 1 <= n <= 9. */
  function SgrFlag(n: int): (f: bv32)
    requires 1 <= n <= 9
    ensures f != 0 && f & 1 == 0
  {
    match n
    case 1 => STYLE_BOLD
    case 2 => STYLE_FAINT
    case 3 => STYLE_ITALIC
    case 4 => STYLE_UNDERSCORE
    case 5 => STYLE_SLOW_BLINK
    case 6 => STYLE_FAST_BLINK
    case 7 => STYLE_INVERSE
    case 8 => STYLE_HIDDEN
    case _ => STYLE_STRIKETHROUGH
  }

  /** The declared flags follow the ECMA-48 numbering: SGR n is bit n. */
  lemma SgrFlagIsBit(n: int)
    requires 1 <= n <= 9
    ensures SgrFlag(n) == (1 as bv32) << n
  {
  }

  // ---------------------------------------------------------------------
  // Cell values
  // ---------------------------------------------------------------------

  datatype Cell = Cell(
    charBytes: seq<jbyte>,
    numBytes: int,
    style: bv32,
    foregroundColor: int,
    backgroundColor: int,
    customForeground: Option<Color>,
    customBackground: Option<Color>,
    charSet: Option<string>,
    alpha: int,
    hasChanged: bool)

  /** The byte buffer has its fixed size and the byte count fits in it. */
  predicate Wellformed(c: Cell)
  {
    |c.charBytes| == MAX_BYTES && 0 <= c.numBytes <= MAX_BYTES
  }

  type StyleCell = c: Cell | Wellformed(c)
    witness Cell([0, 0, 0, 0, 0, 0, 0, 0], 0, 0, -1, -1, None, None, None, 255, true)

  /** A newly constructed StyleChar: no bytes, no style, default colours, opaque. */
  const NEW_CELL: StyleCell := Cell([0, 0, 0, 0, 0, 0, 0, 0], 0, STYLE_NONE, -1, -1, None, None, None, 255, true)

  /** The bytes the cell holds: the first numBytes of its buffer. */
  function Bytes(c: StyleCell): seq<jbyte>
  {
    c.charBytes[..c.numBytes]
  }

  /** What a cell shows: its state without the repaint flag and the unused buffer tail. */
  datatype Look = Look(
    bytes: seq<jbyte>, style: bv32, foreground: int, background: int,
    customForeground: Option<Color>, customBackground: Option<Color>,
    charSet: Option<string>, alpha: int)

  function LookOf(c: StyleCell): Look
  {
    Look(Bytes(c), c.style, c.foregroundColor, c.backgroundColor,
         c.customForeground, c.customBackground, c.charSet, c.alpha)
  }

  /**
   * setBytes(bytes, len): the first len bytes are copied over the buffer;
   * the rest of the buffer keeps its old content.
   */
  function WithBytes(c: StyleCell, bytes: seq<jbyte>, len: int): (r: StyleCell)
    requires 0 <= len <= |bytes| && len <= MAX_BYTES
    ensures Bytes(r) == bytes[..len]
    ensures r.charBytes[len..] == c.charBytes[len..]
    ensures r == c.(charBytes := r.charBytes, numBytes := len)
  {
    c.(charBytes := bytes[..len] + c.charBytes[len..], numBytes := len)
  }

  /** setChar(b): the cell holds the single byte b. */
  function WithChar(c: StyleCell, b: jbyte): (r: StyleCell)
    ensures Bytes(r) == [b]
    ensures r == c.(charBytes := r.charBytes, numBytes := 1)
  {
    c.(charBytes := c.charBytes[0 := b], numBytes := 1)
  }

  /** clear(): a blank, unstyled, default-coloured cell without charset, marked changed. */
  function Cleared(c: StyleCell): (r: StyleCell)
    ensures LookOf(r) == Look([' ' as int], STYLE_NONE, -1, -1, None, None, None, -1)
    ensures r.hasChanged
  {
    WithChar(c, ' ' as int).(style := STYLE_NONE, foregroundColor := -1, backgroundColor := -1,
      customForeground := None, customBackground := None, hasChanged := true,
      charSet := None, alpha := -1)
  }

  /** copyFrom(src): the cell shows exactly what src shows and is marked changed. */
  function CopiedFrom(c: StyleCell, src: StyleCell): (r: StyleCell)
    ensures LookOf(r) == LookOf(src)
    ensures r.hasChanged
    ensures r.charBytes[src.numBytes..] == c.charBytes[src.numBytes..]
  {
    WithBytes(c, src.charBytes, src.numBytes).(style := src.style,
      backgroundColor := src.backgroundColor, foregroundColor := src.foregroundColor,
      customForeground := src.customForeground, customBackground := src.customBackground,
      charSet := src.charSet, alpha := src.alpha, hasChanged := true)
  }

  /** The repaint flag set to val (the public hasChanged field); what the cell shows is kept. */
  function Marked(c: StyleCell, val: bool): (r: StyleCell)
    ensures LookOf(r) == LookOf(c) && r.hasChanged == val
    ensures r.charBytes == c.charBytes
  {
    c.(hasChanged := val)
  }

  /** hasStyle(flag): `(style & flag) > 0` on the signed 32-bit style word. */
  predicate HasStyle(c: Cell, flag: bv32)
  {
    PositiveBits(c.style & flag)
  }

  /** isChar(ch): a single byte that equals ch once both are widened to int. */
  predicate IsChar(c: StyleCell, ch: char)
  {
    c.numBytes == 1 && c.charBytes[0] == ch as int
  }

  /** For a flag below the sign bit, hasStyle is exactly "the bit is set". */
  lemma HasStyleBit(c: Cell, n: nat)
    requires n < 31
    ensures HasStyle(c, (1 as bv32) << n) <==> c.style & ((1 as bv32) << n) != 0
  {
  }

  /** A cleared cell is the single blank character and has no style at all. */
  lemma ClearedIsBlank(c: StyleCell, flag: bv32)
    ensures IsChar(Cleared(c), ' ')
    ensures !HasStyle(Cleared(c), flag)
  {
  }

  /** After setChar of an ASCII character, isChar of that character holds. */
  lemma SetCharIsChar(c: StyleCell, ch: char)
    requires ch as int < 128
    ensures IsChar(WithChar(c, ToByte(ch as int)), ch)
  {
  }

  /** A byte is at most 127, so isChar never holds for a character above ASCII. */
  lemma IsCharOnlyAscii(c: StyleCell, ch: char)
    requires IsChar(c, ch)
    ensures ch as int < 128
  {
  }

  /** Copying a copy changes nothing that shows. */
  lemma CopyFromIdempotent(c: StyleCell, src: StyleCell)
    ensures LookOf(CopiedFrom(CopiedFrom(c, src), src)) == LookOf(CopiedFrom(c, src))
  {
  }

  // ---------------------------------------------------------------------
  // The mutable object
  // ---------------------------------------------------------------------

  class StyleChar {
    const charBytes: array<jbyte>
    var numBytes: int
    var style: bv32
    var foregroundColor: int
    var backgroundColor: int
    var customForeground: Option<Color>
    var customBackground: Option<Color>
    var charSet: Option<string>
    var alpha: int
    var hasChanged: bool

    ghost predicate Valid()
      reads this
    {
      charBytes.Length == MAX_BYTES && 0 <= numBytes <= MAX_BYTES
    }

    /** The cell value the object currently holds. */
    function Value(): StyleCell
      requires Valid()
      reads this, charBytes
    {
      Cell(charBytes[..], numBytes, style, foregroundColor, backgroundColor,
           customForeground, customBackground, charSet, alpha, hasChanged)
    }

    constructor()
      ensures Valid() && fresh(charBytes)
      ensures Value() == NEW_CELL
    {
      charBytes := new jbyte[MAX_BYTES](_ => 0);
      numBytes := 0;
      style := STYLE_NONE;
      foregroundColor := -1;
      backgroundColor := -1;
      customForeground := None;
      customBackground := None;
      charSet := None;
      alpha := 255;
      hasChanged := true;
      new;
      assert charBytes[..] == [0, 0, 0, 0, 0, 0, 0, 0];
    }

    method SetBytes(bytes: seq<jbyte>, len: int)
      requires Valid() && 0 <= len <= |bytes| && len <= MAX_BYTES
      modifies this, charBytes
      ensures Valid()
      ensures Value() == WithBytes(old(Value()), bytes, len)
    {
      for i := 0 to len
        invariant forall k :: 0 <= k < i ==> charBytes[k] == bytes[k]
        invariant forall k :: i <= k < MAX_BYTES ==> charBytes[k] == old(charBytes[k])
        invariant unchanged(this)
      {
        charBytes[i] := bytes[i];
      }
      numBytes := len;
      assert charBytes[..] == bytes[..len] + old(charBytes[..])[len..];
    }

    method SetChar(b: jbyte)
      requires Valid()
      modifies this, charBytes
      ensures Valid()
      ensures Value() == WithChar(old(Value()), b)
    {
      charBytes[0] := b;
      numBytes := 1;
    }

    method Clear()
      requires Valid()
      modifies this, charBytes
      ensures Valid()
      ensures Value() == Cleared(old(Value()))
    {
      SetChar(' ' as int);
      style := STYLE_NONE;
      foregroundColor := -1;
      backgroundColor := -1;
      customForeground := None;
      customBackground := None;
      hasChanged := true;
      charSet := None;
      alpha := -1;
    }

    /** copyFrom: src may be this object itself, but two objects never share a buffer. */
    method CopyFrom(src: StyleChar)
      requires Valid() && src.Valid()
      requires src == this || src.charBytes != charBytes
      modifies this, charBytes
      ensures Valid()
      ensures Value() == CopiedFrom(old(Value()), old(src.Value()))
    {
      var bytes := src.charBytes[..];
      SetBytes(bytes, src.numBytes);
      style := src.style;
      backgroundColor := src.backgroundColor;
      foregroundColor := src.foregroundColor;
      customForeground := src.customForeground;
      customBackground := src.customBackground;
      charSet := src.charSet;
      alpha := src.alpha;
      hasChanged := true;
    }

    method SetDrawStyle(drawStyle: bv32)
      requires Valid()
      modifies this
      ensures Valid()
      ensures Value() == old(Value()).(style := drawStyle)
    {
      style := drawStyle;
    }

    method SetAlpha(a: int)
      requires Valid()
      modifies this
      ensures Valid()
      ensures Value() == old(Value()).(alpha := a)
    {
      alpha := a;
    }
  }
}

/**
 * The styled character cell of the older character pane
 * (ui/charpane/StyleChar.java): one custom colour only, seven style flags,
 * and a copyFrom that does not copy the custom colour.
 */
module LegacyStyleChars {
  import opened Wrappers
  import opened JavaLang
  import opened JavaAwt

  const MAX_BYTES := 8

  const STYLE_NONE: bv32 := 0
  const STYLE_BOLD: bv32 := 1 << 1
  const STYLE_ITALIC: bv32 := 1 << 2
  const STYLE_INVERSE: bv32 := 1 << 3
  const STYLE_UNDERSCORE: bv32 := 1 << 4
  const STYLE_UBERBOLD: bv32 := 1 << 5
  const STYLE_BLINK: bv32 := 1 << 6
  const STYLE_HIDDEN: bv32 := 1 << 7

  /** The seven flags, in declaration order, are bits 1 to 7. */
  lemma FlagsAreBits()
    ensures var flags := [STYLE_BOLD, STYLE_ITALIC, STYLE_INVERSE, STYLE_UNDERSCORE, STYLE_UBERBOLD, STYLE_BLINK, STYLE_HIDDEN];
      forall i :: 0 <= i < |flags| ==> flags[i] == (1 as bv32) << (i + 1)
  {
  }

  datatype Cell = Cell(
    charBytes: seq<jbyte>,
    numBytes: int,
    style: bv32,
    foregroundColor: int,
    backgroundColor: int,
    customForeground: Option<Color>,
    charSet: Option<string>,
    alpha: int,
    hasChanged: bool)

  predicate Wellformed(c: Cell)
  {
    |c.charBytes| == MAX_BYTES && 0 <= c.numBytes <= MAX_BYTES
  }

  type StyleCell = c: Cell | Wellformed(c)
    witness Cell([0, 0, 0, 0, 0, 0, 0, 0], 0, 0, -1, -1, None, None, 255, true)

  const NEW_CELL: StyleCell := Cell([0, 0, 0, 0, 0, 0, 0, 0], 0, STYLE_NONE, -1, -1, None, None, 255, true)

  function Bytes(c: StyleCell): seq<jbyte>
  {
    c.charBytes[..c.numBytes]
  }

  function WithBytes(c: StyleCell, bytes: seq<jbyte>, len: int): (r: StyleCell)
    requires 0 <= len <= |bytes| && len <= MAX_BYTES
    ensures Bytes(r) == bytes[..len]
    ensures r.charBytes[len..] == c.charBytes[len..]
    ensures r == c.(charBytes := r.charBytes, numBytes := len)
  {
    c.(charBytes := bytes[..len] + c.charBytes[len..], numBytes := len)
  }

  function WithChar(c: StyleCell, b: jbyte): (r: StyleCell)
    ensures Bytes(r) == [b]
    ensures r == c.(charBytes := r.charBytes, numBytes := 1)
  {
    c.(charBytes := c.charBytes[0 := b], numBytes := 1)
  }

  function Cleared(c: StyleCell): (r: StyleCell)
    ensures Bytes(r) == [' ' as int] && r.style == STYLE_NONE
    ensures r.foregroundColor == -1 && r.backgroundColor == -1 && r.customForeground.None?
    ensures r.charSet.None? && r.alpha == -1 && r.hasChanged
  {
    WithChar(c, ' ' as int).(style := STYLE_NONE, foregroundColor := -1, backgroundColor := -1,
      customForeground := None, hasChanged := true, charSet := None, alpha := -1)
  }

  /**
   * copyFrom(src): bytes, style, colour indices, charset and alpha come from
   * src; the custom colour stays the cell's own.
   */
  function CopiedFrom(c: StyleCell, src: StyleCell): (r: StyleCell)
    ensures Bytes(r) == Bytes(src) && r.style == src.style
    ensures r.foregroundColor == src.foregroundColor && r.backgroundColor == src.backgroundColor
    ensures r.charSet == src.charSet && r.alpha == src.alpha && r.hasChanged
    ensures r.customForeground == c.customForeground
  {
    WithBytes(c, src.charBytes, src.numBytes).(style := src.style,
      backgroundColor := src.backgroundColor, foregroundColor := src.foregroundColor,
      charSet := src.charSet, hasChanged := true, alpha := src.alpha)
  }

  /** The repaint flag set to val; everything else is kept. */
  function Marked(c: StyleCell, val: bool): (r: StyleCell)
    ensures r.hasChanged == val && Bytes(r) == Bytes(c) && r.style == c.style
    ensures r == c.(hasChanged := val)
  {
    c.(hasChanged := val)
  }

  predicate HasStyle(c: Cell, flag: bv32)
  {
    PositiveBits(c.style & flag)
  }

  predicate IsChar(c: StyleCell, ch: char)
  {
    c.numBytes == 1 && c.charBytes[0] == ch as int
  }

  /** copyFrom does not carry the custom colour: a copy can differ from its source. */
  lemma CopyKeepsCustomColour(c: StyleCell, src: StyleCell)
    requires c.customForeground != src.customForeground
    ensures CopiedFrom(c, src).customForeground != src.customForeground
  {
  }

  lemma ClearedIsBlank(c: StyleCell, flag: bv32)
    ensures IsChar(Cleared(c), ' ')
    ensures !HasStyle(Cleared(c), flag)
  {
  }

  class StyleChar {
    const charBytes: array<jbyte>
    var numBytes: int
    var style: bv32
    var foregroundColor: int
    var backgroundColor: int
    var customForeground: Option<Color>
    var charSet: Option<string>
    var alpha: int
    var hasChanged: bool

    ghost predicate Valid()
      reads this
    {
      charBytes.Length == MAX_BYTES && 0 <= numBytes <= MAX_BYTES
    }

    function Value(): StyleCell
      requires Valid()
      reads this, charBytes
    {
      Cell(charBytes[..], numBytes, style, foregroundColor, backgroundColor,
           customForeground, charSet, alpha, hasChanged)
    }

    constructor()
      ensures Valid() && fresh(charBytes)
      ensures Value() == NEW_CELL
    {
      charBytes := new jbyte[MAX_BYTES](_ => 0);
      numBytes := 0;
      style := STYLE_NONE;
      foregroundColor := -1;
      backgroundColor := -1;
      customForeground := None;
      charSet := None;
      alpha := 255;
      hasChanged := true;
      new;
      assert charBytes[..] == [0, 0, 0, 0, 0, 0, 0, 0];
    }

    method SetBytes(bytes: seq<jbyte>, len: int)
      requires Valid() && 0 <= len <= |bytes| && len <= MAX_BYTES
      modifies this, charBytes
      ensures Valid()
      ensures Value() == WithBytes(old(Value()), bytes, len)
    {
      for i := 0 to len
        invariant forall k :: 0 <= k < i ==> charBytes[k] == bytes[k]
        invariant forall k :: i <= k < MAX_BYTES ==> charBytes[k] == old(charBytes[k])
        invariant unchanged(this)
      {
        charBytes[i] := bytes[i];
      }
      numBytes := len;
      assert charBytes[..] == bytes[..len] + old(charBytes[..])[len..];
    }

    method SetChar(b: jbyte)
      requires Valid()
      modifies this, charBytes
      ensures Valid()
      ensures Value() == WithChar(old(Value()), b)
    {
      charBytes[0] := b;
      numBytes := 1;
    }

    method Clear()
      requires Valid()
      modifies this, charBytes
      ensures Valid()
      ensures Value() == Cleared(old(Value()))
    {
      SetChar(' ' as int);
      style := STYLE_NONE;
      foregroundColor := -1;
      backgroundColor := -1;
      customForeground := None;
      hasChanged := true;
      charSet := None;
      alpha := -1;
    }

    method CopyFrom(src: StyleChar)
      requires Valid() && src.Valid()
      requires src == this || src.charBytes != charBytes
      modifies this, charBytes
      ensures Valid()
      ensures Value() == CopiedFrom(old(Value()), old(src.Value()))
    {
      var bytes := src.charBytes[..];
      SetBytes(bytes, src.numBytes);
      style := src.style;
      backgroundColor := src.backgroundColor;
      foregroundColor := src.foregroundColor;
      charSet := src.charSet;
      hasChanged := true;
      alpha := src.alpha;
    }

    method SetDrawStyle(drawStyle: bv32)
      requires Valid()
      modifies this
      ensures Valid()
      ensures Value() == old(Value()).(style := drawStyle)
    {
      style := drawStyle;
    }
  }
}
