/**
 * The small part of the Java platform that the terminal code leans on:
 * fixed-width integer types, the (byte) narrowing cast, Integer.parseInt,
 * Boolean.parseBoolean, ASCII case folding and UTF-8 encoding of strings.
 */
module JavaLang {
  import opened Wrappers

  /** Java `byte`: a signed 8-bit value. */
  type jbyte = x: int | -128 <= x < 128
  /** An unsigned byte, as InputStream.read() delivers it. */
  type uint8 = x: int | 0 <= x < 256

  const INT_MIN: int := -0x8000_0000
  const INT_MAX: int := 0x7fff_ffff

  predicate IsInt32(x: int) { INT_MIN <= x <= INT_MAX }

  /**
   * A Java `int` used as a bit set is a `bv32` here; `(a & b) > 0` on the
   * signed value holds when the word is non-zero and its sign bit is clear.
   */
  predicate PositiveBits(b: bv32) { b != 0 && b & 0x8000_0000 == 0 }

  /** The Java narrowing cast `(byte) x`: keeps the low 8 bits, sign extended. */
  function ToByte(x: int): (b: jbyte)
    ensures (b - x) % 256 == 0
    ensures -128 <= x < 128 ==> b == x
  {
    var m := x % 256;
    if m >= 128 then m - 256 else m
  }

  /** `x & 0xff` on an int: the unsigned value of the low 8 bits. */
  function LowByte(x: int): (r: uint8)
    ensures (r - x) % 256 == 0
    ensures 0 <= x < 256 ==> r == x
  {
    x % 256
  }

  /** Narrowing the unsigned value of a byte gives the byte back. */
  lemma ToByteLowByte(x: jbyte)
    ensures ToByte(LowByte(x)) == x
  {
    if x < 0 {
      assert LowByte(x) == x + 256;
      assert (x + 256) % 256 == x + 256;
    } else {
      assert LowByte(x) == x;
    }
  }

  // ---------------------------------------------------------------------
  // Characters and digits
  // ---------------------------------------------------------------------

  predicate IsAsciiDigit(c: char) { '0' <= c <= '9' }

  /** Character.digit for the ASCII digits and letters; -1 when not a digit of `radix`. */
  function DigitValue(c: char, radix: nat): (d: int)
    requires 2 <= radix <= 36
    ensures -1 <= d < radix
    ensures IsAsciiDigit(c) && (c as int) - ('0' as int) < radix ==> d == (c as int) - ('0' as int)
  {
    var v :=
      if '0' <= c <= '9' then (c as int) - ('0' as int)
      else if 'a' <= c <= 'z' then (c as int) - ('a' as int) + 10
      else if 'A' <= c <= 'Z' then (c as int) - ('A' as int) + 10
      else -1;
    if 0 <= v < radix then v else -1
  }

  predicate AllDigits(s: string, radix: nat)
    requires 2 <= radix <= 36
  {
    forall i :: 0 <= i < |s| ==> DigitValue(s[i], radix) >= 0
  }

  /** The value of a string of digits, most significant first. */
  function DigitsValue(s: string, radix: nat): (v: nat)
    requires 2 <= radix <= 36
    requires AllDigits(s, radix)
  {
    if s == [] then 0
    else
      var high := DigitsValue(s[..|s| - 1], radix);
      var last := DigitValue(s[|s| - 1], radix);
      assert last >= 0 && high * radix >= 0 by { MulNonNegative(high, radix); }
      high * radix + last
  }

  lemma MulNonNegative(a: nat, b: nat)
    ensures a * b >= 0
  {
  }

  /**
   * Integer.parseInt(s, radix) on ASCII text: an optional sign followed by at
   * least one digit, whose value must fit in 32 bits; anything else raises
   * NumberFormatException.
   */
  function ParseInt(s: string, radix: nat): (r: Result<int>)
    requires 2 <= radix <= 36
    ensures r.Ok? ==> IsInt32(r.value)
    ensures r.Ok? ==> |s| > 0
  {
    if s == [] then Err(NumberFormatException)
    else
      var negative := s[0] == '-';
      var body := if s[0] == '-' || s[0] == '+' then s[1..] else s;
      if body == [] || !AllDigits(body, radix) then Err(NumberFormatException)
      else
        var v := if negative then 0 - DigitsValue(body, radix) as int else DigitsValue(body, radix);
        if IsInt32(v) then Ok(v) else Err(NumberFormatException)
  }

  /**
   * What Integer.parseInt returns: the value of the digits after an
   * optional sign, negated after a minus.
   */
  lemma ParseIntValue(s: string, radix: nat)
    requires 2 <= radix <= 36 && ParseInt(s, radix).Ok?
    ensures s[0] == '-' ==> |s| > 1 && AllDigits(s[1..], radix) && ParseInt(s, radix).value == 0 - DigitsValue(s[1..], radix) as int
    ensures s[0] == '+' ==> |s| > 1 && AllDigits(s[1..], radix) && ParseInt(s, radix).value == DigitsValue(s[1..], radix)
    ensures s[0] != '-' && s[0] != '+' ==> AllDigits(s, radix) && ParseInt(s, radix).value == DigitsValue(s, radix)
  {
  }

  /** A decimal string of digits whose value fits parses to that value. */
  lemma ParseDecimalDigits(s: string)
    requires |s| > 0 && forall i :: 0 <= i < |s| ==> IsAsciiDigit(s[i])
    requires DigitsValue(s, 10) <= INT_MAX
    ensures ParseInt(s, 10) == Ok(DigitsValue(s, 10))
  {
  }

  /** The decimal digits of n, most significant first, without leading zeros. */
  function DecimalDigits(n: nat): (s: string)
    ensures |s| > 0
    ensures forall i :: 0 <= i < |s| ==> IsAsciiDigit(s[i])
    decreases n
  {
    if n < 10 then [('0' as int + n) as char]
    else DecimalDigits(n / 10) + [('0' as int + n % 10) as char]
  }

  /** Integer.toString: a minus sign for negative values, then the digits. */
  function IntToString(v: int): (s: string)
    ensures |s| > 0
    ensures v < 0 <==> s[0] == '-'
  {
    if v < 0 then "-" + DecimalDigits(-v) else DecimalDigits(v)
  }

  /** Reading the digits of n back gives n. */
  lemma {:induction false} DecimalDigitsValue(n: nat)
    ensures AllDigits(DecimalDigits(n), 10)
    ensures DigitsValue(DecimalDigits(n), 10) == n
    decreases n
  {
    var s := DecimalDigits(n);
    if n >= 10 {
      DecimalDigitsValue(n / 10);
      assert s[..|s| - 1] == DecimalDigits(n / 10);
    }
  }

  /** A minus sign before digits whose value is at most 2^31 parses to the negated value. */
  lemma ParseNegativeDigits(s: string)
    requires |s| > 0 && AllDigits(s, 10)
    requires DigitsValue(s, 10) <= INT_MAX + 1
    ensures ParseInt("-" + s, 10) == Ok(0 - DigitsValue(s, 10))
  {
    assert ("-" + s)[1..] == s;
  }

  /** Integer.parseInt(Integer.toString(v)) == v for every 32-bit v. */
  lemma IntToStringParses(v: int)
    requires IsInt32(v)
    ensures ParseInt(IntToString(v), 10) == Ok(v)
  {
    if v < 0 {
      DecimalDigitsValue(-v);
      ParseNegativeDigits(DecimalDigits(-v));
    } else {
      DecimalDigitsValue(v);
      ParseDecimalDigits(DecimalDigits(v));
    }
  }

  /** Boolean.toString. */
  function BoolToString(b: bool): (s: string)
    ensures ParseBoolean(Some(s)) == b
  {
    if b then "true" else "false"
  }

  /** String.indexOf(c): the first position of c, or -1 when there is none. */
  function IndexOf(s: string, c: char): (i: int)
    ensures -1 <= i < |s|
    ensures i == -1 <==> c !in s
    ensures 0 <= i ==> s[i] == c && c !in s[..i]
  {
    if s == [] then -1
    else if s[0] == c then 0
    else
      var j := IndexOf(s[1..], c);
      assert c in s[1..] ==> c in s;
      if j < 0 then -1
      else
        assert s[..j + 1] == [s[0]] + s[1..][..j];
        j + 1
  }

  // ---------------------------------------------------------------------
  // Case folding
  // ---------------------------------------------------------------------

  function ToLowerAscii(c: char): (r: char)
    ensures 'A' <= c <= 'Z' ==> r as int == c as int + 32
    ensures !('A' <= c <= 'Z') ==> r == c
  {
    if 'A' <= c <= 'Z' then (c as int + 32) as char else c
  }

  function LowerAscii(s: string): (r: string)
    ensures |r| == |s|
    ensures forall i :: 0 <= i < |s| ==> r[i] == ToLowerAscii(s[i])
  {
    seq(|s|, i requires 0 <= i < |s| => ToLowerAscii(s[i]))
  }

  /** String.equalsIgnoreCase restricted to ASCII case folding. */
  predicate EqualsIgnoreCase(a: string, b: string)
  {
    LowerAscii(a) == LowerAscii(b)
  }

  /** Character.toUpperCase restricted to ASCII letters: the same letter, letter case aside. */
  function ToUpperAscii(c: char): (r: char)
    ensures ToLowerAscii(r) == ToLowerAscii(c)
    ensures 'a' <= c <= 'z' ==> 'A' <= r <= 'Z'
    ensures !('a' <= c <= 'z') ==> r == c
  {
    if 'a' <= c <= 'z' then (c as int - 32) as char else c
  }

  /** String.toUpperCase restricted to ASCII letters. */
  function UpperAscii(s: string): (r: string)
    ensures |r| == |s|
    ensures forall i :: 0 <= i < |s| ==> r[i] == ToUpperAscii(s[i])
  {
    seq(|s|, i requires 0 <= i < |s| => ToUpperAscii(s[i]))
  }

  /** Upper-casing a string keeps it equal to itself, ignoring case. */
  lemma UpperIgnoringCase(s: string)
    ensures EqualsIgnoreCase(UpperAscii(s), s)
  {
    var u := UpperAscii(s);
    forall i | 0 <= i < |s|
      ensures LowerAscii(u)[i] == LowerAscii(s)[i]
    {
      assert u[i] == ToUpperAscii(s[i]);
    }
  }

  /** Equality ignoring case goes through concatenation. */
  lemma AppendIgnoringCase(a: string, b: string, c: string)
    requires EqualsIgnoreCase(b, c)
    ensures EqualsIgnoreCase(a + b, a + c)
  {
    assert LowerAscii(a + b) == LowerAscii(a) + LowerAscii(b);
    assert LowerAscii(a + c) == LowerAscii(a) + LowerAscii(c);
  }

  lemma EqualsIgnoreCaseIsEquivalence(a: string, b: string, c: string)
    ensures EqualsIgnoreCase(a, a)
    ensures EqualsIgnoreCase(a, b) ==> EqualsIgnoreCase(b, a)
    ensures EqualsIgnoreCase(a, b) && EqualsIgnoreCase(b, c) ==> EqualsIgnoreCase(a, c)
  {
  }

  /** Boolean.parseBoolean: true exactly for "true" in any letter case. */
  function ParseBoolean(s: Option<string>): (b: bool)
    ensures b <==> s.Some? && |s.value| == 4 && LowerAscii(s.value) == "true"
  {
    s.Some? && EqualsIgnoreCase(s.value, "true")
  }

  // ---------------------------------------------------------------------
  // UTF-8
  // ---------------------------------------------------------------------

  /** The UTF-8 bytes of one Unicode scalar value, as unsigned bytes. */
  function Utf8Char(c: char): (r: seq<uint8>)
    ensures 1 <= |r| <= 4
    ensures (c as int) < 0x80 <==> |r| == 1
    ensures (c as int) < 0x80 ==> r == [c as int]
  {
    var v := c as int;
    if v < 0x80 then [v]
    else if v < 0x800 then [0xc0 + v / 64, 0x80 + v % 64]
    else if v < 0x10000 then [0xe0 + v / 4096, 0x80 + (v / 64) % 64, 0x80 + v % 64]
    else [0xf0 + v / 262144, 0x80 + (v / 4096) % 64, 0x80 + (v / 64) % 64, 0x80 + v % 64]
  }

  /** String.getBytes(UTF_8). */
  function Utf8(s: string): (r: seq<uint8>)
    ensures |r| >= |s|
    ensures (forall i :: 0 <= i < |s| ==> (s[i] as int) < 0x80) ==> |r| == |s|
  {
    if s == [] then [] else Utf8Char(s[0]) + Utf8(s[1..])
  }

  lemma {:induction false} Utf8Ascii(s: string)
    requires forall i :: 0 <= i < |s| ==> (s[i] as int) < 0x80
    ensures Utf8(s) == seq(|s|, i requires 0 <= i < |s| => s[i] as int)
  {
    if s != [] {
      Utf8Ascii(s[1..]);
    }
  }
}

/** The value part of java.awt: an opaque RGB colour and the colours it names. */
module JavaAwt {
  datatype Color = Color(red: int, green: int, blue: int)

  /** new Color(r, g, b) accepts components in [0, 255] only. */
  predicate ValidColor(c: Color)
  {
    0 <= c.red <= 255 && 0 <= c.green <= 255 && 0 <= c.blue <= 255
  }

  const BLACK: Color := Color(0, 0, 0)
  const WHITE: Color := Color(255, 255, 255)
  const RED: Color := Color(255, 0, 0)
  const GREEN: Color := Color(0, 255, 0)
  const BLUE: Color := Color(0, 0, 255)
  const MAGENTA: Color := Color(255, 0, 255)
  const CYAN: Color := Color(0, 255, 255)
  const PINK: Color := Color(255, 175, 175)

  /** One component of Color.brighter: lifted to 3 when below it, then divided by 0.7 and capped. */
  function BrighterComponent(x: int): (y: int)
    requires 0 <= x <= 255
    ensures 0 <= y <= 255
    ensures x > 0 ==> x < y || y == 255
  {
    var v := if 0 < x < 3 then 3 else x;
    if v * 10 / 7 > 255 then 255 else v * 10 / 7
  }

  /**
   * Color.brighter(): black becomes (3, 3, 3); otherwise every component is
   * divided by 0.7 (here the exact 10/7, whose floor agrees with the double
   * division on [0, 255]) and capped at 255.
   */
  function Brighter(c: Color): (d: Color)
    requires ValidColor(c)
    ensures ValidColor(d)
  {
    if c == BLACK then Color(3, 3, 3)
    else Color(BrighterComponent(c.red), BrighterComponent(c.green), BrighterComponent(c.blue))
  }
}
