/**
 * VTxTokenizer: reads the byte stream through a read-ahead stack, collects
 * the bytes of the current token in a pattern stack, and fills the argument
 * record. Every method is proved to do what the functions of TokenizerSpec
 * say, on the snapshot Abs() of its state.
 */
module Tokenizer {
  import opened Wrappers
  import opened JavaLang
  import opened Tokens
  import opened ByteTokenDef
  import opened SearchTrees
  import opened TokenTable
  import opened Util
  import opened TokenizerSpec

  /** The arguments of the last token: sixteen integer slots and the graph-mode fields. */
  class Arguments {
    const integerArgs: array<int>
    var numIntegerArgs: int
    var dummyND: int
    var stringArg: Option<string>
    var dummyNP: int
    /** The slots of integerArgs. */
    ghost var ints: seq<int>

    ghost predicate Valid()
      reads this, integerArgs
    {
      integerArgs.Length == NUM_INT_ARGS && 0 <= numIntegerArgs <= NUM_INT_ARGS && ints == integerArgs[..]
    }

    ghost function Value(): Args
      reads this
    {
      Args(ints, numIntegerArgs, dummyND, stringArg, dummyNP)
    }

    /** Java's default field values: zeros and a null string. */
    constructor ()
      ensures Valid() && fresh(integerArgs)
      ensures Value() == Args([0, 0, 0, 0, 0, 0, 0, 0, 0, 0, 0, 0, 0, 0, 0, 0], 0, 0, None, 0)
    {
      integerArgs := new int[NUM_INT_ARGS](_ => 0);
      ints := [0, 0, 0, 0, 0, 0, 0, 0, 0, 0, 0, 0, 0, 0, 0, 0];
      numIntegerArgs := 0;
      dummyND := 0;
      stringArg := None;
      dummyNP := 0;
    }

    function NumArgs(): int
      reads this
    {
      numIntegerArgs
    }

    function Arg1(): int
      reads this, integerArgs
      requires Valid()
    {
      integerArgs[0]
    }

    function Arg2(): int
      reads this, integerArgs
      requires Valid()
    {
      integerArgs[1]
    }

    function StrArg(): Option<string>
      reads this
    {
      stringArg
    }

    /** intArg(i): slot i when fewer than numArgs() slots precede it, otherwise -1. */
    function IntArg(i: nat): (v: int)
      reads this, integerArgs
      requires Valid()
      ensures i < NumArgs() ==> v == Value().ints[i]
      ensures i >= NumArgs() ==> v == -1
    {
      if i < numIntegerArgs then integerArgs[i] else -1
    }

    /** intArgs(): a copy of exactly the first numArgs() slots. */
    function IntArgs(): (r: seq<int>)
      reads this, integerArgs
      requires Valid()
      ensures |r| == NumArgs()
      ensures forall i :: 0 <= i < |r| ==> r[i] == IntArg(i)
    {
      if numIntegerArgs == 0 then [] else integerArgs[0..numIntegerArgs]
    }

    /** clear(): no arguments, all slots 0, no string, both dummies -1. */
    method Clear()
      requires Valid()
      modifies this, integerArgs
      ensures Valid() && Value() == ClearedArgs
    {
      numIntegerArgs := 0;
      var i := 0;
      while i < integerArgs.Length
        modifies integerArgs
        invariant 0 <= i <= integerArgs.Length
        invariant forall k :: 0 <= k < i ==> integerArgs[k] == 0
      {
        integerArgs[i] := 0;
        i := i + 1;
      }
      ints := integerArgs[..];
      assert ints == ClearedArgs.ints;
      stringArg := None;
      dummyND := -1;
      dummyNP := -1;
    }
  }

  /** What one pass of the loop body tells nextToken to do. */
  datatype StepKind = Done(token: Token) | Failed(error: Exception) | Continue | Break

  /** A pass agrees with its specification: same kind, same token, same new snapshot. */
  ghost predicate Agrees(o: StepKind, spec: Outcome, after: Snap)
  {
    match spec
    case Return(t, n) => o == Done(t) && after == n
    case Fail(e) => o == Failed(e)
    case Again(n) => o == Continue && after == n
    case Stop(n) => o == Break && after == n
  }

  /** A reader agrees with its specification: same value, and only the input has moved. */
  ghost predicate InputStep<T>(r: Result<T>, spec: Result<(T, Input)>, before: Snap, after: Snap)
  {
    match spec
    case Ok(v) => r == Ok(v.0) && after == before.(input := v.1)
    case Err(e) => r == Err(e)
  }

  class VTxTokenizer {
    const tokenDefs: VTxTokenDefs
    const readAheadBuffer: MiniBuffer
    const patternBuffer: MiniBuffer
    const arguments: Arguments
    /** The unread part of the input stream. */
    var inputStream: seq<uint8>
    var state: State

    /**
     * The buffers and the argument record are consistent and do not share
     * storage. The definitions are never changed by the tokenizer; the
     * operations that look them up require tokenDefs.Valid() on their own.
     */
    ghost predicate Valid()
      reads readAheadBuffer, readAheadBuffer.values, patternBuffer, patternBuffer.values,
            arguments, arguments.integerArgs
    {
      readAheadBuffer.Valid() && patternBuffer.Valid() && arguments.Valid() &&
      readAheadBuffer.values.Length == MAX_MINIBUF && patternBuffer.values.Length == MAX_MINIBUF &&
      readAheadBuffer != patternBuffer && readAheadBuffer.values != patternBuffer.values &&
      arguments.integerArgs != readAheadBuffer.values && arguments.integerArgs != patternBuffer.values
    }

    /** The snapshot the specification functions work on. */
    ghost function Abs(): Snap
      reads this, readAheadBuffer, patternBuffer, arguments
    {
      Snap(Input(readAheadBuffer.Contents(), inputStream), patternBuffer.Contents(), arguments.Value(), state)
    }

    ghost function Defs(): seq<TokenDef>
      reads this, tokenDefs
    {
      tokenDefs.tokenPatterns
    }

    /** A tokenizer on `inps` using the compiled definitions `defs`. */
    constructor (inps: seq<uint8>, defs: VTxTokenDefs)
      requires defs.Valid()
      ensures Valid() && tokenDefs == defs && tokenDefs.Valid()
      ensures Abs() == Snap(Input([], inps), [], Args([0, 0, 0, 0, 0, 0, 0, 0, 0, 0, 0, 0, 0, 0, 0, 0], 0, 0, None, 0), ResetState)
    {
      tokenDefs := defs;
      readAheadBuffer := new MiniBuffer(MAX_MINIBUF);
      patternBuffer := new MiniBuffer(MAX_MINIBUF);
      arguments := new Arguments();
      inputStream := inps;
      state := ResetState;
    }

    method ReadChar() returns (c: int)
      requires Valid()
      modifies this, readAheadBuffer
      ensures Valid()
      ensures (c, Abs().input) == Read(old(Abs()).input)
      ensures Abs() == old(Abs()).(input := Abs().input)
    {
      if readAheadBuffer.Size() > 0 {
        var r := readAheadBuffer.Pop();
        c := r.value;
      } else if |inputStream| > 0 {
        c := inputStream[0];
        inputStream := inputStream[1..];
      } else {
        c := -1;
      }
    }

    method UngetChar(c: int) returns (r: Result<()>)
      requires Valid()
      modifies readAheadBuffer, readAheadBuffer.values
      ensures Valid()
      ensures InputStep(r, match Unget(old(Abs()).input, c) case Ok(i) => Ok(((), i)) case Err(e) => Err(e),
                        old(Abs()), Abs())
    {
      if readAheadBuffer.FreeSpace() <= 0 {
        return Err(IOException);
      }
      readAheadBuffer.Put(c);
      r := Ok(());
    }

    /** getBytes(): the pattern, each value narrowed to a byte. */
    method GetBytes() returns (bts: seq<jbyte>)
      requires Valid()
      ensures bts == ToBytes(Abs().pattern)
    {
      bts := patternBuffer.GetBytes();
    }

    method Reset()
      requires Valid()
      modifies this, patternBuffer, arguments, arguments.integerArgs
      ensures Valid()
      ensures Abs() == ResetSnap(old(Abs()))
    {
      patternBuffer.Reset();
      arguments.Clear();
      state := ResetState;
    }

    method Lookahead() returns (r: Result<int>)
      requires Valid()
      modifies this, readAheadBuffer, readAheadBuffer.values
      ensures Valid()
      ensures InputStep(r, TokenizerSpec.Lookahead(old(Abs()).input), old(Abs()), Abs())
    {
      var c := ReadChar();
      var u := UngetChar(c);
      if u.Err? {
        return Err(u.error);
      }
      return Ok(c);
    }

    /** The test `isDigit(lookahead()) || lookahead() == ';'`. */
    method ArgumentsFollow() returns (r: Result<bool>)
      requires Valid()
      modifies this, readAheadBuffer, readAheadBuffer.values
      ensures Valid()
      ensures InputStep(r, TokenizerSpec.ArgumentsFollow(old(Abs()).input), old(Abs()), Abs())
    {
      var a := Lookahead();
      if a.Err? {
        return Err(a.error);
      }
      if IsDigit(a.value) {
        return Ok(true);
      }
      var b := Lookahead();
      if b.Err? {
        return Err(b.error);
      }
      return Ok(b.value == ';' as int);
    }

    method ParseInt() returns (r: Result<Option<string>>)
      requires Valid()
      modifies this, readAheadBuffer, readAheadBuffer.values
      ensures Valid()
      ensures InputStep(r, ParseIntSpec(old(Abs()).input, ""), old(Abs()), Abs())
    {
      ghost var s0 := Abs();
      var cont := true;
      var index := 0;
      var digits: string := "";
      while cont && index < CHAR_BUFFER_SIZE
        invariant Valid()
        invariant index == |digits| <= CHAR_BUFFER_SIZE
        invariant cont ==> Abs() == s0.(input := Abs().input)
        invariant cont ==> ParseIntSpec(Abs().input, digits) == ParseIntSpec(s0.input, "")
        invariant !cont ==> InputStep(Ok(if index == 0 then None else Some(digits)), ParseIntSpec(s0.input, ""), s0, Abs())
        decreases CHAR_BUFFER_SIZE - index, cont
      {
        var digit := ReadChar();
        if IsDigit(digit) {
          digits := digits + [digit as char];
          index := index + 1;
          cont := true;
        } else {
          var u := UngetChar(digit);
          if u.Err? {
            return Err(u.error);
          }
          cont := false;
        }
      }
      if index == 0 {
        return Ok(None);
      }
      return Ok(Some(digits));
    }

    method ParseString() returns (r: Result<string>)
      requires Valid()
      modifies this, readAheadBuffer, readAheadBuffer.values
      ensures Valid()
      ensures InputStep(r, ParseStringSpec(old(Abs()).input, ""), old(Abs()), Abs())
    {
      ghost var s0 := Abs();
      var index := 0;
      var text: string := "";
      while index < STRING_BUFFER_SIZE
        invariant Valid()
        invariant index == |text| <= STRING_BUFFER_SIZE
        invariant Abs() == s0.(input := Abs().input)
        invariant ParseStringSpec(Abs().input, text) == ParseStringSpec(s0.input, "")
      {
        var c := ReadChar();
        if IsPrintable(c) {
          text := text + [c as char];
          index := index + 1;
        } else {
          var u := UngetChar(c);
          if u.Err? {
            return Err(u.error);
          }
          return Ok(text);
        }
      }
      return Ok(text);
    }

    /** The number at the start of a field of parseIntegerList, stored in slot numInts. */
    method ParseFieldNumber(numInts: int) returns (r: Result<(Option<string>, int)>)
      requires Valid() && 0 <= numInts <= NUM_INT_ARGS
      modifies this, readAheadBuffer, readAheadBuffer.values, arguments, arguments.integerArgs
      ensures Valid()
      ensures match FieldNumber(old(Abs()).input, old(Abs()).args.ints, numInts)
              case Ok(v) => r == Ok((v.0, v.2 as int)) && Abs() == old(Abs()).(input := v.3, args := old(Abs()).args.(ints := v.1))
              case Err(e) => r == Err(e)
    {
      var intstr := ParseInt();
      if intstr.Err? {
        return Err(intstr.error);
      }
      if intstr.value.None? {
        return Ok((None, numInts));
      }
      var v := JavaLang.ParseInt(intstr.value.value, 10);
      if v.Err? {
        return Err(v.error);
      }
      if numInts >= NUM_INT_ARGS {
        return Err(IndexOutOfBounds);
      }
      arguments.integerArgs[numInts] := v.value;
      arguments.ints := arguments.ints[numInts := v.value];
      return Ok((intstr.value, numInts + 1));
    }

    /** One pass of parseIntegerList's loop; returns the new count and whether a ';' followed. */
    method ParseIntegerField(numInts: int) returns (r: Result<(int, bool)>)
      requires Valid() && 0 <= numInts <= NUM_INT_ARGS
      modifies this, readAheadBuffer, readAheadBuffer.values, arguments, arguments.integerArgs
      ensures Valid()
      ensures match IntegerField(old(Abs()).input, old(Abs()).args.ints, numInts)
              case Ok(v) => r == Ok((v.1 as int, v.2)) && Abs() == old(Abs()).(input := v.3, args := old(Abs()).args.(ints := v.0))
              case Err(e) => r == Err(e)
    {
      var f := ParseFieldNumber(numInts);
      if f.Err? {
        return Err(f.error);
      }
      var (intstr, n) := f.value;
      var digit := ReadChar();
      if digit == ';' as int {
        if intstr.None? {
          if n >= NUM_INT_ARGS {
            return Err(IndexOutOfBounds);
          }
          arguments.integerArgs[n] := 0;
          arguments.ints := arguments.ints[n := 0];
          n := n + 1;
        }
        return Ok((n, true));
      }
      var u := UngetChar(digit);
      if u.Err? {
        return Err(u.error);
      }
      return Ok((n, false));
    }

    /** parseIntegerList, storing into the argument slots; returns the number of slots filled. */
    method ParseIntegerList() returns (r: Result<int>)
      requires Valid()
      modifies this, readAheadBuffer, readAheadBuffer.values, arguments, arguments.integerArgs
      ensures Valid()
      ensures match ParseIntegerListSpec(old(Abs()).input, old(Abs()).args.ints, 0)
              case Ok(v) => r == Ok(v.1 as int) && Abs() == old(Abs()).(input := v.2, args := old(Abs()).args.(ints := v.0))
              case Err(e) => r == Err(e)
    {
      ghost var s0 := Abs();
      var numInts := 0;
      while true
        invariant Valid() && 0 <= numInts <= NUM_INT_ARGS
        invariant Abs() == s0.(input := Abs().input, args := s0.args.(ints := Abs().args.ints))
        invariant ParseIntegerListSpec(Abs().input, Abs().args.ints, numInts) == ParseIntegerListSpec(s0.input, s0.args.ints, 0)
        decreases NUM_INT_ARGS - numInts
      {
        var f := ParseIntegerField(numInts);
        if f.Err? {
          return Err(f.error);
        }
        var (n, more) := f.value;
        numInts := n;
        if !more {
          return Ok(numInts);
        }
      }
    }

    /** The first half of parseGraphModeArguments: the number and the ND value. */
    method ParseGraphModeNumber() returns (r: Result<()>)
      requires Valid()
      modifies this, readAheadBuffer, readAheadBuffer.values, arguments, arguments.integerArgs
      ensures Valid()
      ensures match GraphModeNumber(old(Abs()).input, old(Abs()).args)
              case Ok(v) => r == Ok(()) && Abs() == old(Abs()).(input := v.1, args := v.0)
              case Err(e) => r == Err(e)
    {
      var intstr := ParseInt();
      if intstr.Err? {
        return Err(intstr.error);
      }
      if intstr.value.Some? {
        var v := JavaLang.ParseInt(intstr.value.value, 10);
        if v.Err? {
          return Err(v.error);
        }
        arguments.integerArgs[0] := v.value;
        arguments.ints := arguments.ints[0 := v.value];
        arguments.numIntegerArgs := 1;
      }
      arguments.dummyND := ReadChar();
      if intstr.value.None? {
        arguments.integerArgs[0] := 0;
        arguments.ints := arguments.ints[0 := 0];
        arguments.numIntegerArgs := 1;
      }
      return Ok(());
    }

    /** parseGraphModeArguments: `[int] ND text NP`; always true when it completes. */
    method ParseGraphModeArguments() returns (r: Result<bool>)
      requires Valid()
      modifies this, readAheadBuffer, readAheadBuffer.values, arguments, arguments.integerArgs
      ensures Valid()
      ensures match ParseGraphModeSpec(old(Abs()).input, old(Abs()).args)
              case Ok(v) => r == Ok(true) && Abs() == old(Abs()).(input := v.1, args := v.0)
              case Err(e) => r == Err(e)
    {
      var h := ParseGraphModeNumber();
      if h.Err? {
        return Err(h.error);
      }
      var argStr := ParseString();
      if argStr.Err? {
        return Err(argStr.error);
      }
      arguments.stringArg := Some(argStr.value);
      arguments.dummyNP := ReadChar();
      return Ok(true);
    }

    /** readUByte: a non-negative value as a byte, IOException at end of stream. */
    method ReadUByte() returns (r: Result<jbyte>)
      requires Valid()
      modifies this, readAheadBuffer
      ensures Valid()
      ensures Read(old(Abs()).input).0 < 0 ==> r == Err(IOException)
      ensures Read(old(Abs()).input).0 >= 0 ==>
                r == Ok(ToByte(LowByte(Read(old(Abs()).input).0))) && Abs() == old(Abs()).(input := Read(old(Abs()).input).1)
    {
      var c := ReadChar();
      if c < 0 {
        return Err(IOException);
      }
      return Ok(ToByte(LowByte(c)));
    }

    /** Appends k further bytes, each read with readUByte, to acc. */
    method ReadUBytesInto(acc: seq<jbyte>, k: nat) returns (r: Result<seq<jbyte>>)
      requires Valid()
      modifies this, readAheadBuffer
      ensures Valid()
      ensures r.Ok? ==> |r.value| == |acc| + k
      ensures InputStep(r, ReadUBytes(old(Abs()).input, acc, k), old(Abs()), Abs())
    {
      ghost var s0 := Abs();
      var bytes := acc;
      for i := 0 to k
        invariant Valid() && |bytes| == |acc| + i
        invariant Abs() == s0.(input := Abs().input)
        invariant ReadUBytes(Abs().input, bytes, k - i) == ReadUBytes(s0.input, acc, k)
      {
        ReadUBytesStep(Abs().input, bytes, k - i);
        var b := ReadUByte();
        if b.Err? {
          return Err(b.error);
        }
        bytes := bytes + [b.value];
      }
      return Ok(bytes);
    }

    /** matchUTF8Token: reads the rest of a multi-byte character into the pattern. */
    method MatchUtf8Token(c: int) returns (r: Result<Option<Token>>)
      requires Valid() && c >= 0
      modifies this, readAheadBuffer, readAheadBuffer.values, patternBuffer, patternBuffer.values
      ensures Valid()
      ensures match MatchUtf8Spec(c, old(Abs()).input)
              case Err(e) => r == Err(e)
              case Ok(None) => r == Ok(None) && Abs() == old(Abs())
              case Ok(Some(v)) => r == Ok(Some(CHAR)) && Abs() == old(Abs()).(input := v.1, pattern := v.0)
    {
      ghost var s0 := Abs();
      if AndMask(c, 0x80) > 0 && !ANSI_MODE {
        var num := Utf8LengthFixed(c);
        // The byte array of the source, held as a sequence of the bytes read so far.
        var rest := ReadUBytesInto([ToByte(c)], num - 1);
        if rest.Err? {
          return Err(rest.error);
        }
        var utfBytes := rest.value;
        patternBuffer.SetBytes(utfBytes, num);
        return Ok(Some(CHAR));
      }
      return Ok(None);
    }

    /** A C0 value `c` (token t) was just appended to the pattern. */
    method HandleC0(c: int, t: Token) returns (o: StepKind)
      requires Valid()
      requires |Abs().pattern| > 0 && Abs().pattern[|Abs().pattern| - 1] == c
      modifies this, readAheadBuffer, readAheadBuffer.values, patternBuffer, patternBuffer.values
      ensures Valid()
      ensures Agrees(o, C0Step(old(Abs()), old(Abs()).pattern[..|old(Abs()).pattern| - 1], c, t), Abs())
    {
      if t == ESC {
        if state.escSequence {
          o := EscInSequence(c);
          return;
        }
        state := state.(escSequence := true);
        return Continue;
      }
      if !state.escSequence {
        state := state.(matchedToken := Some(t));
        return Done(t);
      }
      o := C0InSequence(c, t);
    }

    /** An ESC inside a sequence: an error, and the ESC is pushed back for the next call. */
    method EscInSequence(c: int) returns (o: StepKind)
      requires Valid() && Abs().state.escSequence
      requires |Abs().pattern| > 0 && Abs().pattern[|Abs().pattern| - 1] == c
      modifies this, readAheadBuffer, readAheadBuffer.values
      ensures Valid()
      ensures Agrees(o, C0Step(old(Abs()), old(Abs()).pattern[..|old(Abs()).pattern| - 1], c, ESC), Abs())
    {
      state := state.(errorChar := c);
      var u := UngetChar(c);
      if u.Err? {
        return Failed(u.error);
      }
      state := state.(matchedToken := Some(ERROR));
      return Done(ERROR);
    }

    /** Any other C0 value inside a sequence: the pattern before it is pushed back and the C0 token returned. */
    method C0InSequence(c: int, t: Token) returns (o: StepKind)
      requires Valid() && Abs().state.escSequence && t != ESC
      requires |Abs().pattern| > 0 && Abs().pattern[|Abs().pattern| - 1] == c
      modifies this, readAheadBuffer, readAheadBuffer.values, patternBuffer
      ensures Valid()
      ensures Agrees(o, C0Step(old(Abs()), old(Abs()).pattern[..|old(Abs()).pattern| - 1], c, t), Abs())
    {
      var u := UngetPattern();
      if u.Err? {
        return Failed(u.error);
      }
      state := state.(matchedToken := Some(t));
      return Done(t);
    }

    /** Drops the last value of the pattern, then pushes the rest back, last value first. */
    method UngetPattern() returns (r: Result<()>)
      requires Valid() && |Abs().pattern| > 0
      modifies readAheadBuffer, readAheadBuffer.values, patternBuffer
      ensures Valid()
      ensures match Replay(old(Abs()).input, old(Abs()).pattern[..|old(Abs()).pattern| - 1])
              case Ok(i) => r == Ok(()) && Abs() == old(Abs()).(input := i, pattern := [])
              case Err(e) => r == Err(e)
    {
      ghost var s1 := Abs();
      var _ := patternBuffer.Pop();
      while patternBuffer.Size() > 0
        invariant Valid()
        invariant Abs() == s1.(input := Abs().input, pattern := Abs().pattern)
        invariant Replay(Abs().input, Abs().pattern) == Replay(s1.input, s1.pattern[..|s1.pattern| - 1])
        decreases patternBuffer.Size()
      {
        var p := patternBuffer.Pop();
        var u := UngetChar(p.value);
        if u.Err? {
          return Err(u.error);
        }
      }
      patternBuffer.Reset();
      return Ok(());
    }

    /** Outside an escape sequence, a value `c` that is not C0 was just appended to the pattern. */
    method HandleChar(c: int) returns (o: StepKind)
      requires Valid() && c >= 0
      modifies this, readAheadBuffer, readAheadBuffer.values, patternBuffer, patternBuffer.values
      ensures Valid()
      ensures Agrees(o, CharStep(old(Abs()), c), Abs())
    {
      var charToken := MatchCharToken(c);
      if charToken.Some? {
        state := state.(matchedToken := Some(CHAR));
        return Done(CHAR);
      }
      var utf := MatchUtf8Token(c);
      if utf.Err? {
        return Failed(utf.error);
      }
      if utf.value.Some? {
        state := state.(matchedToken := Some(CHAR));
        return Done(CHAR);
      }
      state := state.(errorChar := c);
      return Break;
    }

    /** The graph-mode option: the arguments are parsed when a digit or ';' follows. */
    method ParseGraphModeOption() returns (r: Result<()>)
      requires Valid()
      modifies this, readAheadBuffer, readAheadBuffer.values, arguments, arguments.integerArgs
      ensures Valid()
      ensures match GraphModeOption(old(Abs()))
              case Ok(n) => r == Ok(()) && Abs() == n
              case Err(e) => r == Err(e)
    {
      var follow := ArgumentsFollow();
      if follow.Err? {
        return Err(follow.error);
      }
      if follow.value {
        var parsed := ParseGraphModeArguments();
        if parsed.Err? {
          return Err(parsed.error);
        }
        state := state.(optGraphModeParsed := parsed.value);
      }
      return Ok(());
    }

    /** The integer-list option: the list is parsed when a digit or ';' follows. */
    method ParseIntegersOption() returns (r: Result<()>)
      requires Valid()
      modifies this, readAheadBuffer, readAheadBuffer.values, arguments, arguments.integerArgs
      ensures Valid()
      ensures match IntegersOption(old(Abs()))
              case Ok(n) => r == Ok(()) && Abs() == n
              case Err(e) => r == Err(e)
    {
      var follow := ArgumentsFollow();
      if follow.Err? {
        return Err(follow.error);
      }
      if follow.value {
        var n := ParseIntegerList();
        if n.Err? {
          return Err(n.error);
        }
        arguments.numIntegerArgs := n.value;
        state := state.(optIntegersParsed := n.value > 0);
      }
      return Ok(());
    }

    /** The options the matched definition `d` asks for. */
    method ParseOptions(d: TokenDef, prefixMatch: bool) returns (r: Result<()>)
      requires Valid()
      modifies this, readAheadBuffer, readAheadBuffer.values, arguments, arguments.integerArgs
      ensures Valid()
      ensures match OptionsStep(old(Abs()), d, prefixMatch)
              case Ok(n) => r == Ok(()) && Abs() == n
              case Err(e) => r == Err(e)
    {
      if d.option == Some(GraphMode) {
        r := ParseGraphModeOption();
        if r.Err? {
          return;
        }
      }
      if prefixMatch && d.option == Some(Integers) {
        r := ParseIntegersOption();
        return;
      }
      return Ok(());
    }

    /** Inside an escape sequence, `c` was just appended to the pattern: look the pattern up. */
    method HandleSequence(c: int) returns (o: StepKind)
      requires Valid() && tokenDefs.Valid()
      modifies this, readAheadBuffer, readAheadBuffer.values, patternBuffer, patternBuffer.values,
               arguments, arguments.integerArgs
      ensures Valid()
      ensures Agrees(o, SequenceStep(old(Abs()), c, Defs()), Abs())
    {
      ghost var s1 := Abs();
      var bytes := GetBytes();
      assert bytes[..patternBuffer.index] == bytes;
      var itoken := tokenDefs.FindFirst(bytes, patternBuffer.index);
      if itoken.None? {
        state := state.(errorChar := c);
        return Break;
      }
      var d := itoken.value;
      var fullMatch := d.Length() == patternBuffer.index;
      var prefixMatch := false;
      var partialPrefixMatch := false;
      if !fullMatch {
        prefixMatch := patternBuffer.index == |d.prefix|;
        partialPrefixMatch := patternBuffer.index < |d.prefix|;
      }
      if partialPrefixMatch {
        return Continue;
      }
      if !fullMatch && !prefixMatch {
        state := state.(errorChar := c);
        return Break;
      }
      var opt := ParseOptions(d, prefixMatch);
      if opt.Err? {
        return Failed(opt.error);
      }
      if fullMatch {
        state := state.(matchedIToken := Some(d));
        state := state.(matchedToken := Some(d.token));
        return Done(d.token);
      }
      state := state.(errorChar := c);
      return Continue;
    }

    /** One pass of the do-while body of nextToken. */
    method Step() returns (o: StepKind)
      requires Valid() && tokenDefs.Valid() && |Abs().pattern| < MAX_MINIBUF
      modifies this, readAheadBuffer, readAheadBuffer.values, patternBuffer, patternBuffer.values,
               arguments, arguments.integerArgs
      ensures Valid()
      ensures Agrees(o, StepSpec(old(Abs()), Defs()), Abs())
    {
      var c := ReadChar();
      patternBuffer.Put(c);
      var c0Token := MatchC0Token(c);
      if c0Token.Some? {
        o := HandleC0(c, c0Token.value);
        return;
      }
      if !state.escSequence {
        o := HandleChar(c);
        return;
      }
      o := HandleSequence(c);
    }

    /** nextToken: reset, then run the state loop until a token is matched or the sequence fails. */
    method NextToken() returns (r: Result<Token>)
      requires Valid() && tokenDefs.Valid()
      modifies this, readAheadBuffer, readAheadBuffer.values, patternBuffer, patternBuffer.values,
               arguments, arguments.integerArgs
      ensures Valid()
      ensures match NextTokenSpec(old(Abs()), Defs())
              case Ok(v) => r == Ok(v.0) && Abs() == v.1
              case Err(e) => r == Err(e)
    {
      ghost var s0 := Abs();
      Reset();
      while true
        invariant Valid()
        invariant LoopSpec(Abs(), Defs()) == NextTokenSpec(s0, Defs())
        decreases MAX_MINIBUF - |Abs().pattern|
      {
        if patternBuffer.FreeSpace() <= 0 {
          // The value is read, then storing it past the end of the pattern array throws.
          var _ := ReadChar();
          return Err(IndexOutOfBounds);
        }
        var o := Step();
        match o
        case Done(t) =>
          return Ok(t);
        case Failed(e) =>
          return Err(e);
        case Break =>
          state := state.(matchedToken := Some(ERROR));
          return Ok(ERROR);
        case Continue =>
          if !state.escSequence {
            state := state.(matchedToken := Some(ERROR));
            return Ok(ERROR);
          }
      }
    }
  }
}
