/**
 * Util: the byte stack used for read-ahead and pattern collection, hex
 * conversion, quoted-argument splitting and small array helpers.
 */
module Util {
  import opened Wrappers
  import opened JavaLang

  /**
   * A fixed-capacity stack of ints. `put` does not check the capacity (the
   * array store would throw), so callers must leave room; `pop` on an empty
   * stack raises EOFException and changes nothing.
   */
  class MiniBuffer {
    const values: array<int>
    var index: int
    /** The stacked values, bottom first: the first `index` slots of `values`. */
    ghost var contents: seq<int>

    ghost predicate Valid()
      reads this, values
    {
      0 <= index <= values.Length && contents == values[..index]
    }

    ghost function Contents(): (s: seq<int>)
      reads this
    {
      contents
    }

    constructor (size: nat)
      ensures Valid() && fresh(values)
      ensures values.Length == size && Contents() == []
    {
      values := new int[size];
      index := 0;
      contents := [];
    }

    function Size(): (n: int)
      reads this, values
      requires Valid()
      ensures n == |Contents()|
    {
      index
    }

    function FreeSpace(): (n: int)
      reads this, values
      requires Valid()
      ensures n == values.Length - |Contents()|
      ensures n + Size() == values.Length
    {
      values.Length - index
    }

    method Put(b: int)
      requires Valid() && FreeSpace() > 0
      modifies this, values
      ensures Valid()
      ensures Contents() == old(Contents()) + [b]
    {
      values[index] := b;
      index := index + 1;
      contents := contents + [b];
      assert values[..index] == old(values[..index]) + [b];
    }

    method Pop() returns (r: Result<int>)
      requires Valid()
      modifies this
      ensures Valid()
      ensures old(Contents()) == [] ==> r == Err(EOFException) && Contents() == old(Contents())
      ensures old(Contents()) != [] ==>
        r == Ok(old(Contents())[|old(Contents())| - 1]) && Contents() == old(Contents())[..|old(Contents())| - 1]
    {
      if index <= 0 {
        return Err(EOFException);
      }
      index := index - 1;
      r := Ok(values[index]);
      contents := contents[..index];
    }

    method Reset()
      requires Valid()
      modifies this
      ensures Valid() && Contents() == []
    {
      index := 0;
      contents := [];
    }

    /** A copy of the stacked values, each narrowed to a byte. */
    method GetBytes() returns (bts: seq<jbyte>)
      requires Valid()
      ensures |bts| == Size()
      ensures forall i :: 0 <= i < |bts| ==> bts[i] == ToByte(Contents()[i])
    {
      var a := new jbyte[index];
      var i := 0;
      while i < index
        invariant 0 <= i <= index
        invariant forall k :: 0 <= k < i ==> a[k] == ToByte(values[k])
      {
        a[i] := ToByte(values[i]);
        i := i + 1;
      }
      bts := a[..];
    }

    /**
     * Overwrites the bottom of the stack with `newBytes` and sets its size to
     * `num`; slots past the new bytes keep their old values.
     */
    method SetBytes(newBytes: seq<jbyte>, num: int)
      requires Valid() && |newBytes| <= values.Length && 0 <= num <= values.Length
      modifies this, values
      ensures Valid() && Size() == num
      ensures values[..|newBytes|] == newBytes
      ensures values[|newBytes|..] == old(values[|newBytes|..])
      ensures Contents() == values[..num]
    {
      var i := 0;
      while i < |newBytes|
        invariant 0 <= i <= |newBytes|
        invariant values[..i] == newBytes[..i]
        invariant values[|newBytes|..] == old(values[|newBytes|..])
        invariant index == old(index)
      {
        values[i] := newBytes[i];
        i := i + 1;
      }
      index := num;
      contents := values[..num];
    }
  }

  /** The pure stack operations the buffer implements: push then pop gives the value back. */
  lemma PushPop(s: seq<int>, b: int)
    ensures (s + [b])[|s + [b]| - 1] == b && (s + [b])[..|s|] == s
  {
  }

  predicate IsEmpty(str: Option<string>)
  {
    str.None? || str.value == ""
  }

  // ---------------------------------------------------------------------
  // Hex conversion
  // ---------------------------------------------------------------------

  const HEXVALUES: string := "0123456789abcdef"

  /** The value of a lower-case hex digit character. */
  function HexDigit(c: char): int
  {
    DigitValue(c, 16)
  }

  lemma HexValuesDigit(d: int)
    requires 0 <= d < 16
    ensures HexDigit(HEXVALUES[d]) == d
  {
    if d < 10 {
      assert HEXVALUES[d] as int == '0' as int + d;
    } else {
      assert HEXVALUES[d] as int == 'a' as int + d - 10;
    }
  }

  /** Two lower-case hex digits of the low byte of `v`. */
  function Byte2HexStr(v: int): (r: string)
    ensures |r| == 2
  {
    var val := LowByte(v);
    [HEXVALUES[(val / 16) % 16], HEXVALUES[val % 16]]
  }

  /** The two characters are lower-case hex digits whose base-16 value is `v & 0xff`. */
  lemma Byte2HexStrValue(v: int)
    ensures Byte2HexStr(v)[0] in HEXVALUES && Byte2HexStr(v)[1] in HEXVALUES
    ensures HexDigit(Byte2HexStr(v)[0]) * 16 + HexDigit(Byte2HexStr(v)[1]) == LowByte(v)
  {
    var val := LowByte(v);
    var hi, lo := val / 16, val % 16;
    assert val == hi * 16 + lo && 0 <= hi < 16;
    assert hi % 16 == hi;
    HexValuesDigit(hi);
    HexValuesDigit(lo);
  }

  function Bytes2HexStr(bytes: seq<jbyte>): (r: string)
    ensures |r| == 2 * |bytes|
  {
    if bytes == [] then "" else Byte2HexStr(bytes[0]) + Bytes2HexStr(bytes[1..])
  }

  /** Pair `i` of the hex string is the rendering of byte `i`. */
  lemma {:induction false} Bytes2HexStrAt(bytes: seq<jbyte>, i: nat)
    requires i < |bytes|
    ensures Bytes2HexStr(bytes)[2 * i..2 * i + 2] == Byte2HexStr(bytes[i])
  {
    if i > 0 {
      Bytes2HexStrAt(bytes[1..], i - 1);
      var rest := Bytes2HexStr(bytes[1..]);
      assert Bytes2HexStr(bytes) == Byte2HexStr(bytes[0]) + rest;
      assert Bytes2HexStr(bytes)[2 * i..2 * i + 2] == rest[2 * (i - 1)..2 * (i - 1) + 2];
    }
  }

  /**
   * Parses pairs of hex characters into bytes; a trailing odd character is
   * ignored, a pair that Integer.parseInt(_, 16) rejects raises
   * NumberFormatException, and a null string gives null.
   */
  function HexStr2Bytes(hexString: Option<string>): (r: Result<Option<seq<jbyte>>>)
    ensures hexString.None? ==> r == Ok(None)
    ensures r.Ok? && hexString.Some? ==> r.value.Some? && |r.value.value| == |hexString.value| / 2
  {
    if hexString.None? then Ok(None)
    else
      var pairs := HexPairs(hexString.value, |hexString.value| / 2);
      if pairs.Err? then Err(pairs.error) else Ok(Some(pairs.value))
  }

  /** The first `n` pairs of `s`, each parsed as a base-16 integer and narrowed to a byte. */
  function HexPairs(s: string, n: nat): (r: Result<seq<jbyte>>)
    requires 2 * n <= |s|
    ensures r.Ok? ==> |r.value| == n
  {
    if n == 0 then Ok([])
    else
      var front := HexPairs(s, n - 1);
      var b := ParseInt(s[2 * (n - 1)..2 * n], 16);
      if front.Err? then front
      else if b.Err? then Err(b.error)
      else Ok(front.value + [ToByte(b.value)])
  }

  /** Two hex digits parse to their base-16 value. */
  lemma ParseTwoHexDigits(a: char, b: char)
    requires HexDigit(a) >= 0 && HexDigit(b) >= 0
    ensures ParseInt([a, b], 16) == Ok(HexDigit(a) * 16 + HexDigit(b))
  {
    var s := [a, b];
    assert s[0] != '-' && s[0] != '+';
    assert AllDigits(s, 16);
    assert s[..1] == [a] && [a][..0] == [];
    assert DigitsValue([a], 16) == HexDigit(a);
    assert DigitsValue(s, 16) == HexDigit(a) * 16 + HexDigit(b);
  }

  lemma Byte2HexStrParses(v: jbyte)
    ensures ParseInt(Byte2HexStr(v), 16) == Ok(LowByte(v))
  {
    var r := Byte2HexStr(v);
    Byte2HexStrValue(v);
    assert r == [r[0], r[1]];
    ParseTwoHexDigits(r[0], r[1]);
  }

  /** Decoding what Bytes2HexStr produced gives the bytes back. */
  lemma HexRoundTrip(bytes: seq<jbyte>)
    ensures HexStr2Bytes(Some(Bytes2HexStr(bytes))) == Ok(Some(bytes))
  {
    var s := Bytes2HexStr(bytes);
    assert |s| / 2 == |bytes|;
    HexPairsRoundTrip(bytes, |bytes|);
    assert bytes[..|bytes|] == bytes;
  }

  /** Pair `i` of the hex string of `bytes` parses to the low byte of bytes[i]. */
  lemma PairParses(bytes: seq<jbyte>, i: nat)
    requires i < |bytes|
    ensures ParseInt(Bytes2HexStr(bytes)[2 * i..2 * i + 2], 16) == Ok(LowByte(bytes[i]))
  {
    Bytes2HexStrAt(bytes, i);
    Byte2HexStrParses(bytes[i]);
  }

  /** HexPairs extends the decoded prefix by one byte when the next pair parses. */
  lemma HexPairsSnoc(s: string, n: nat, front: seq<jbyte>, b: int)
    requires 0 < n && 2 * n <= |s|
    requires HexPairs(s, n - 1) == Ok(front)
    requires ParseInt(s[2 * (n - 1)..2 * n], 16) == Ok(b)
    ensures HexPairs(s, n) == Ok(front + [ToByte(b)])
  {
  }

  /** The pairs of the hex string of `bytes` decode one byte further. */
  lemma HexPairsStep(bytes: seq<jbyte>, n: nat)
    requires 0 < n <= |bytes|
    requires HexPairs(Bytes2HexStr(bytes), n - 1) == Ok(bytes[..n - 1])
    ensures HexPairs(Bytes2HexStr(bytes), n) == Ok(bytes[..n])
  {
    var s := Bytes2HexStr(bytes);
    var i := n - 1;
    PairParses(bytes, i);
    assert 2 * (n - 1) == 2 * i && 2 * n == 2 * i + 2;
    HexPairsSnoc(s, n, bytes[..i], LowByte(bytes[i]));
    ToByteLowByte(bytes[i]);
    TakeSnoc(bytes, i);
  }

  lemma {:induction false} HexPairsRoundTrip(bytes: seq<jbyte>, n: nat)
    requires n <= |bytes|
    ensures HexPairs(Bytes2HexStr(bytes), n) == Ok(bytes[..n])
  {
    if n > 0 {
      HexPairsRoundTrip(bytes, n - 1);
      HexPairsStep(bytes, n);
    }
  }

  /** Extending a prefix by the next element gives the longer prefix. */
  lemma TakeSnoc<T>(s: seq<T>, i: nat)
    requires i < |s|
    ensures s[..i] + [s[i]] == s[..i + 1]
  {
  }

  // ---------------------------------------------------------------------
  // Quoted argument splitting
  // ---------------------------------------------------------------------

  /** The characters of the regular-expression class \s. */
  predicate IsSpace(c: char)
  {
    c == ' ' || c == '\t' || c == '\n' || c == '\U{0B}' || c == '\U{0C}' || c == '\r'
  }

  /** A character of the class [^"\s]. */
  predicate IsPlain(c: char)
  {
    c != '"' && !IsSpace(c)
  }

  /** Length of the maximal run of plain characters starting at `i`. */
  function PlainRun(s: string, i: nat): (n: nat)
    requires i <= |s|
    ensures i + n <= |s|
    ensures forall k :: i <= k < i + n ==> IsPlain(s[k])
    ensures i + n < |s| ==> !IsPlain(s[i + n])
    decreases |s| - i
  {
    if i < |s| && IsPlain(s[i]) then 1 + PlainRun(s, i + 1) else 0
  }

  /** Offset of the first '"' at or after `i`, or |s| - i when there is none. */
  function QuoteAt(s: string, i: nat): (n: nat)
    requires i <= |s|
    ensures i + n <= |s|
    ensures forall k :: i <= k < i + n ==> s[k] != '"'
    ensures i + n < |s| ==> s[i + n] == '"'
    decreases |s| - i
  {
    if i < |s| && s[i] != '"' then 1 + QuoteAt(s, i + 1) else 0
  }

  /**
   * Length of one alternative of (([^"\s]+)|("[^"]*")) at `i`: a maximal
   * plain run, or a complete quoted segment; 0 when neither matches.
   */
  function Unit(s: string, i: nat): (n: nat)
    requires i <= |s|
    ensures i + n <= |s|
  {
    if i == |s| then 0
    else if IsPlain(s[i]) then PlainRun(s, i)
    else if s[i] == '"' && i + 1 + QuoteAt(s, i + 1) < |s| then QuoteAt(s, i + 1) + 2
    else 0
  }

  /** End of the greedy match of (([^"\s]+)|("[^"]*"))+ that starts at `i`. */
  function MatchEnd(s: string, i: nat): (e: nat)
    requires i <= |s|
    ensures i <= e <= |s|
    ensures Unit(s, e) == 0
    decreases |s| - i
  {
    if Unit(s, i) == 0 then i else MatchEnd(s, i + Unit(s, i))
  }

  /** The successive matches found from position `i` on, as Matcher.find() reports them. */
  function SplitFrom(s: string, i: nat): (r: seq<string>)
    requires i <= |s|
    ensures forall k :: 0 <= k < |r| ==> |r[k]| > 0
    decreases |s| - i
  {
    if i == |s| then []
    else if Unit(s, i) == 0 then SplitFrom(s, i + 1)
    else [s[i..MatchEnd(s, i)]] + SplitFrom(s, MatchEnd(s, i))
  }

  function SplitQuotedArgs(source: string): (args: seq<string>)
    ensures forall k :: 0 <= k < |args| ==> |args[k]| > 0
  {
    SplitFrom(source, 0)
  }

  /** Splitting on white space: an independent reference for quote-free text. */
  function Words(s: string): (r: seq<string>)
    decreases |s|
  {
    if s == [] then []
    else if IsSpace(s[0]) then Words(s[1..])
    else
      var n := WordLength(s);
      [s[..n]] + Words(s[n..])
  }

  function WordLength(s: string): (n: nat)
    ensures 0 <= n <= |s|
    ensures s != [] && !IsSpace(s[0]) ==> n > 0
    ensures forall k :: 0 <= k < n ==> !IsSpace(s[k])
    ensures n < |s| ==> IsSpace(s[n])
  {
    if s == [] || IsSpace(s[0]) then 0 else 1 + WordLength(s[1..])
  }

  predicate NoQuotes(s: string)
  {
    forall k :: 0 <= k < |s| ==> s[k] != '"'
  }

  /** Without quotes, the split yields exactly the white-space separated words. */
  lemma SplitWithoutQuotes(s: string)
    requires NoQuotes(s)
    ensures SplitQuotedArgs(s) == Words(s)
  {
    SplitFromWords(s, 0);
  }

  lemma {:induction false} SplitFromWords(s: string, i: nat)
    requires i <= |s| && NoQuotes(s)
    ensures SplitFrom(s, i) == Words(s[i..])
    decreases |s| - i
  {
    if i < |s| {
      if IsSpace(s[i]) {
        SkipSpace(s, i);
        SplitFromWords(s, i + 1);
      } else {
        var n := PlainRun(s, i);
        TakeWord(s, i);
        SplitFromWords(s, i + n);
      }
    }
  }

  /** A blank is skipped by both the matcher and Words. */
  lemma SkipSpace(s: string, i: nat)
    requires i < |s| && NoQuotes(s) && IsSpace(s[i])
    ensures SplitFrom(s, i) == SplitFrom(s, i + 1)
    ensures Words(s[i..]) == Words(s[i + 1..])
  {
    assert s[i..][1..] == s[i + 1..];
  }

  /** A run of non-blanks is one match and one word. */
  lemma TakeWord(s: string, i: nat)
    requires i < |s| && NoQuotes(s) && !IsSpace(s[i])
    ensures i + PlainRun(s, i) <= |s|
    ensures SplitFrom(s, i) == [s[i..i + PlainRun(s, i)]] + SplitFrom(s, i + PlainRun(s, i))
    ensures Words(s[i..]) == [s[i..i + PlainRun(s, i)]] + Words(s[i + PlainRun(s, i)..])
  {
    var n := PlainRun(s, i);
    PlainRunIsWord(s, i);
    assert Unit(s, i + n) == 0;
    assert MatchEnd(s, i + n) == i + n;
    assert MatchEnd(s, i) == i + n;
    assert s[i..][..n] == s[i..i + n];
    assert s[i..][n..] == s[i + n..];
  }

  lemma {:induction false} PlainRunIsWord(s: string, i: nat)
    requires i <= |s| && NoQuotes(s)
    ensures PlainRun(s, i) == WordLength(s[i..])
    decreases |s| - i
  {
    if i < |s| && IsPlain(s[i]) {
      PlainRunIsWord(s, i + 1);
      assert s[i..][1..] == s[i + 1..];
    }
  }

  /** A quoted segment with blanks stays one argument, quotes included. */
  lemma SplitQuotedExample()
    ensures SplitQuotedArgs("a \"q s\" b") == ["a", "\"q s\"", "b"]
  {
    var s := "a \"q s\" b";
    assert Unit(s, 0) == 1;
    assert MatchEnd(s, 1) == 1;
    assert MatchEnd(s, 0) == 1;
    assert Unit(s, 1) == 0;
    assert QuoteAt(s, 3) == 3;
    assert Unit(s, 2) == 5;
    assert MatchEnd(s, 7) == 7;
    assert MatchEnd(s, 2) == 7;
    assert Unit(s, 8) == 1;
    assert MatchEnd(s, 9) == 9;
    assert MatchEnd(s, 8) == 9;
    assert SplitFrom(s, 9) == [];
    assert s[8..9] == "b";
    assert SplitFrom(s, 8) == ["b"];
    assert SplitFrom(s, 7) == ["b"];
    assert s[2..7] == "\"q s\"";
    assert SplitFrom(s, 2) == ["\"q s\"", "b"];
    assert SplitFrom(s, 1) == ["\"q s\"", "b"];
    assert s[0..1] == "a";
  }

  function Concat(arr1: seq<jbyte>, arr2: seq<jbyte>): (r: seq<jbyte>)
    ensures |r| == |arr1| + |arr2|
    ensures r[..|arr1|] == arr1 && r[|arr1|..] == arr2
  {
    arr1 + arr2
  }

  function Min(v1: int, v2: int): (r: int)
    ensures r <= v1 && r <= v2 && (r == v1 || r == v2)
  {
    if v1 < v2 then v1 else v2
  }

  function Max(v1: int, v2: int): (r: int)
    ensures r >= v1 && r >= v2 && (r == v1 || r == v2)
  {
    if v1 > v2 then v1 else v2
  }
}
