/**
 * The VT100/xterm tokenizer as functions on values: the input with its
 * read-ahead stack, the argument record, the parser state, and one pass of
 * the tokenizer's state loop. The class in module Tokenizer is proved to
 * follow these functions step by step.
 */
module TokenizerSpec {
  import opened Wrappers
  import opened JavaLang
  import opened Tokens
  import opened ByteTokenDef
  import opened SearchTrees

  /** Capacity of the read-ahead and pattern stacks. */
  const MAX_MINIBUF: nat := 256
  /** Capacity of the digit buffer used by parseInt. */
  const CHAR_BUFFER_SIZE: nat := 16
  /** Capacity of the text buffer used by parseString. */
  const STRING_BUFFER_SIZE: nat := 256
  /** Number of integer argument slots. */
  const NUM_INT_ARGS: nat := 16
  /** The tokenizer's ANSI (7-bit) switch is fixed to off. */
  const ANSI_MODE: bool := false

  // ---------------------------------------------------------------------
  // Input: the read-ahead stack on top of the byte stream
  // ---------------------------------------------------------------------

  /**
   * What the tokenizer still has to read: `ahead` is the read-ahead stack
   * (its last element is on top) and `stream` the rest of the input stream.
   */
  datatype Input = Input(ahead: seq<int>, stream: seq<uint8>)

  function Reverse(s: seq<int>): (r: seq<int>)
    ensures |r| == |s|
  {
    if s == [] then [] else [s[|s| - 1]] + Reverse(s[..|s| - 1])
  }

  lemma ReversePush(a: seq<int>, c: int)
    ensures Reverse(a + [c]) == [c] + Reverse(a)
  {
    assert (a + [c])[..|a|] == a;
  }

  /** The values the next reads deliver, in order, before end of stream. */
  function Pending(inp: Input): seq<int>
  {
    Reverse(inp.ahead) + inp.stream
  }

  /** Pushing on the read-ahead stack puts the value in front of the pending input. */
  lemma PendingPush(inp: Input, c: int)
    ensures Pending(inp.(ahead := inp.ahead + [c])) == [c] + Pending(inp)
  {
    ReversePush(inp.ahead, c);
    assert [c] + Reverse(inp.ahead) + inp.stream == [c] + (Reverse(inp.ahead) + inp.stream);
  }

  /** readChar: pops the read-ahead stack, otherwise reads the stream; -1 at end of stream. */
  function Read(inp: Input): (int, Input)
  {
    if |inp.ahead| > 0 then
      (inp.ahead[|inp.ahead| - 1], inp.(ahead := inp.ahead[..|inp.ahead| - 1]))
    else if |inp.stream| > 0 then
      (inp.stream[0], inp.(stream := inp.stream[1..]))
    else
      (-1, inp)
  }

  /** Read delivers the pending values in order, and -1 once there are none. */
  lemma ReadPending(inp: Input)
    ensures Pending(inp) == [] ==> Read(inp).0 == -1 && Pending(Read(inp).1) == []
    ensures Pending(inp) != [] ==> Read(inp).0 == Pending(inp)[0] && Pending(Read(inp).1) == Pending(inp)[1..]
  {
    if |inp.ahead| > 0 {
      var a := inp.ahead[..|inp.ahead| - 1];
      assert inp.ahead == a + [inp.ahead[|inp.ahead| - 1]];
      ReversePush(a, inp.ahead[|inp.ahead| - 1]);
    }
  }

  /**
   * ungetChar: pushes `c` on the read-ahead stack, IOException when it is
   * full. Unlike the source, the value is pushed unchanged (see
   * UngetAsWritten).
   */
  function Unget(inp: Input, c: int): (r: Result<Input>)
    ensures r.Ok? <==> |inp.ahead| < MAX_MINIBUF
    ensures r.Err? ==> r.error == IOException
    ensures r.Ok? ==> r.value.stream == inp.stream
  {
    if |inp.ahead| >= MAX_MINIBUF then Err(IOException)
    else Ok(inp.(ahead := inp.ahead + [c]))
  }

  /** A value pushed back is the next one read, followed by what was pending before. */
  lemma UngetPending(inp: Input, c: int)
    requires |inp.ahead| < MAX_MINIBUF
    ensures Pending(Unget(inp, c).value) == [c] + Pending(inp)
    ensures Read(Unget(inp, c).value) == (c, inp)
  {
    PendingPush(inp, c);
    assert (inp.ahead + [c])[..|inp.ahead|] == inp.ahead;
  }

  /** ungetChar as written: the value is narrowed with a (byte) cast before it is pushed. */
  function UngetAsWritten(inp: Input, c: int): (r: Result<Input>)
    ensures r.Ok? <==> |inp.ahead| < MAX_MINIBUF
    ensures r.Ok? ==> r.value.stream == inp.stream
  {
    if |inp.ahead| >= MAX_MINIBUF then Err(IOException)
    else Ok(inp.(ahead := inp.ahead + [ToByte(c)]))
  }

  /** lookahead: reads one value and pushes it back. */
  function Lookahead(inp: Input): (r: Result<(int, Input)>)
  {
    var (c, in1) := Read(inp);
    var in2 :- Unget(in1, c);
    Ok((c, in2))
  }

  /** Pushes the values of `p` back, last first, so that they are read again in order. */
  function Replay(inp: Input, p: seq<int>): (r: Result<Input>)
    decreases |p|
  {
    if p == [] then Ok(inp)
    else
      var in1 :- Unget(inp, p[|p| - 1]);
      Replay(in1, p[..|p| - 1])
  }

  // ---------------------------------------------------------------------
  // Character classes
  // ---------------------------------------------------------------------

  predicate IsDigit(c: int) { '0' as int <= c <= '9' as int }

  /** isChar: the 7-bit range 0x20..0x7f. */
  predicate IsChar(c: int) { 0x20 <= c <= 0x7f }

  predicate IsPrintable(c: int) { IsChar(c) }

  /** matchCharToken: CHAR for a 7-bit character. */
  function MatchCharToken(c: int): (r: Option<Token>)
    ensures r.Some? <==> 0x20 <= c <= 0x7f
    ensures r.Some? ==> r.value == CHAR
  {
    if IsChar(c) then Some(CHAR) else None
  }

  /** matchC0Token: end of stream, the recognised C0 controls, ERROR for other C0 bytes. */
  function MatchC0Token(c: int): (r: Option<Token>)
  {
    if c <= -1 then Some(EOF)
    else if c == CTRL_NUL then Some(NUL)
    else if c == CTRL_ETX then Some(ETX)
    else if c == CTRL_EOT then Some(EOT)
    else if c == CTRL_ENQ then Some(ENQ)
    else if c == CTRL_BS then Some(BS)
    else if c == CTRL_HT then Some(HT)
    else if c == CTRL_CR then Some(CR)
    else if c == CTRL_LF then Some(LF)
    else if c == CTRL_VT then Some(VT)
    else if c == CTRL_FF then Some(FF)
    else if c == CTRL_CAN then Some(CAN)
    else if c == CTRL_SUB then Some(SUB)
    else if c == CTRL_ESC then Some(ESC)
    else if c == CTRL_BEL then Some(BEEP)
    else if c == CTRL_SI then Some(CHARSET_G0)
    else if c == CTRL_SO then Some(CHARSET_G1)
    else if c < 0x20 then Some(ERROR)
    else None
  }

  // ---------------------------------------------------------------------
  // Arguments and parser state
  // ---------------------------------------------------------------------

  /** The argument record: sixteen integer slots, their count, and the graph-mode fields. */
  datatype Args = Args(ints: seq<int>, numArgs: int, dummyND: int, strArg: Option<string>, dummyNP: int)

  /** Arguments.clear(). */
  const ClearedArgs: Args := Args([0, 0, 0, 0, 0, 0, 0, 0, 0, 0, 0, 0, 0, 0, 0, 0], 0, -1, None, -1)

  datatype State = State(
    escSequence: bool,
    optIntegersParsed: bool,
    optGraphModeParsed: bool,
    errorChar: int,
    matchedToken: Option<Token>,
    matchedIToken: Option<TokenDef>)

  /** State.reset(). */
  const ResetState: State := State(false, false, false, 0, None, None)

  /** Everything the tokenizer holds between two reads. */
  datatype Snap = Snap(input: Input, pattern: seq<int>, args: Args, state: State)

  /** The tokenizer's reset(): empty pattern, cleared arguments, reset state; the input is kept. */
  function ResetSnap(s: Snap): (r: Snap)
    ensures r.input == s.input && r.pattern == []
    ensures r.args.numArgs == 0 && forall i :: 0 <= i < |r.args.ints| ==> r.args.ints[i] == 0
  {
    Snap(s.input, [], ClearedArgs, ResetState)
  }

  // ---------------------------------------------------------------------
  // Argument parsers
  // ---------------------------------------------------------------------

  /**
   * parseInt: up to sixteen decimal digits. The first non-digit is pushed
   * back; after sixteen digits nothing more is read. None when there is no
   * digit. `digits` holds the digits read so far.
   */
  function ParseIntSpec(inp: Input, digits: string): (r: Result<(Option<string>, Input)>)
    requires |digits| <= CHAR_BUFFER_SIZE
    decreases CHAR_BUFFER_SIZE - |digits|
  {
    if |digits| >= CHAR_BUFFER_SIZE then Ok((Some(digits), inp))
    else
      var (d, in1) := Read(inp);
      if IsDigit(d) then ParseIntSpec(in1, digits + [d as char])
      else
        var in2 :- Unget(in1, d);
        Ok((if |digits| == 0 then None else Some(digits), in2))
  }

  /**
   * parseString: up to 256 printable characters; the first other value is
   * pushed back. `text` holds the characters read so far.
   */
  function ParseStringSpec(inp: Input, text: string): (r: Result<(string, Input)>)
    requires |text| <= STRING_BUFFER_SIZE
    decreases STRING_BUFFER_SIZE - |text|
  {
    if |text| >= STRING_BUFFER_SIZE then Ok((text, inp))
    else
      var (c, in1) := Read(inp);
      if IsPrintable(c) then ParseStringSpec(in1, text + [c as char])
      else
        var in2 :- Unget(in1, c);
        Ok((text, in2))
  }

  /** Integer.valueOf of a digit string followed by the store into slot n. */
  function StoreInt(ints: seq<int>, n: nat, digits: string): (r: Result<(seq<int>, nat)>)
    requires |ints| == NUM_INT_ARGS && n <= NUM_INT_ARGS
    ensures r.Ok? ==> |r.value.0| == NUM_INT_ARGS && r.value.1 == n + 1 <= NUM_INT_ARGS
  {
    // The value is parsed before the index is checked, so a number that does
    // not fit wins over a seventeenth argument.
    var v :- ParseInt(digits, 10);
    if n >= NUM_INT_ARGS then Err(IndexOutOfBounds)
    else Ok((ints[n := v], n + 1))
  }

  /** The number at the start of a field, if any, stored in slot n. */
  function FieldNumber(inp: Input, ints: seq<int>, n: nat): (r: Result<(Option<string>, seq<int>, nat, Input)>)
    requires |ints| == NUM_INT_ARGS && n <= NUM_INT_ARGS
    ensures r.Ok? ==> |r.value.1| == NUM_INT_ARGS && r.value.2 <= NUM_INT_ARGS
    ensures r.Ok? ==> r.value.2 == if r.value.0.Some? then n + 1 else n
  {
    var r1 :- ParseIntSpec(inp, "");
    var (str, in1) := r1;
    var r2 :- if str.Some? then StoreInt(ints, n, str.value) else Ok((ints, n));
    Ok((str, r2.0, r2.1, in1))
  }

  /**
   * One pass of parseIntegerList's loop: an optional number, stored in slot
   * n, then the value after it. When that value is ';' the list goes on
   * (`more`), and an empty field stores 0; otherwise it is pushed back.
   */
  function IntegerField(inp: Input, ints: seq<int>, n: nat): (r: Result<(seq<int>, nat, bool, Input)>)
    requires |ints| == NUM_INT_ARGS && n <= NUM_INT_ARGS
    ensures r.Ok? ==> |r.value.0| == NUM_INT_ARGS && r.value.1 <= NUM_INT_ARGS
    ensures r.Ok? && r.value.2 ==> r.value.1 == n + 1
  {
    var r1 :- FieldNumber(inp, ints, n);
    var (str, ints1, n1, in1) := r1;
    var (d, in2) := Read(in1);
    if d == ';' as int then
      if str.Some? then Ok((ints1, n1, true, in2))
      else if n1 >= NUM_INT_ARGS then Err(IndexOutOfBounds)
      else Ok((ints1[n1 := 0], n1 + 1, true, in2))
    else
      var in3 :- Unget(in2, d);
      Ok((ints1, n1, false, in3))
  }

  /**
   * parseIntegerList: `[int] (';' [int])*`, field by field until a field is
   * not followed by ';'. Slots 0..n-1 of `ints` are already filled.
   */
  function ParseIntegerListSpec(inp: Input, ints: seq<int>, n: nat): (r: Result<(seq<int>, nat, Input)>)
    requires |ints| == NUM_INT_ARGS && n <= NUM_INT_ARGS
    ensures r.Ok? ==> |r.value.0| == NUM_INT_ARGS && r.value.1 <= NUM_INT_ARGS
    decreases NUM_INT_ARGS - n
  {
    var f :- IntegerField(inp, ints, n);
    var (ints1, n1, more, in1) := f;
    if more then ParseIntegerListSpec(in1, ints1, n1) else Ok((ints1, n1, in1))
  }

  /**
   * The first half of parseGraphModeArguments: `[int] ND`. Slot 0 gets the
   * number, or 0 when there is none, and the count becomes 1; ND is any
   * single value.
   */
  function GraphModeNumber(inp: Input, args: Args): (r: Result<(Args, Input)>)
    requires |args.ints| == NUM_INT_ARGS
    ensures r.Ok? ==> |r.value.0.ints| == NUM_INT_ARGS && r.value.0.numArgs == 1
  {
    var r3 :- ParseIntSpec(inp, "");
    var (str, in1) := r3;
    var args1 :-
      if str.Some? then
        var v :- ParseInt(str.value, 10);
        Ok(args.(ints := args.ints[0 := v], numArgs := 1))
      else Ok(args);
    var (nd, in2) := Read(in1);
    var args2 := args1.(dummyND := nd);
    Ok((if str.None? then args2.(ints := args2.ints[0 := 0], numArgs := 1) else args2, in2))
  }

  /** parseGraphModeArguments: `[int] ND text NP`; NP is any single value. */
  function ParseGraphModeSpec(inp: Input, args: Args): (r: Result<(Args, Input)>)
    requires |args.ints| == NUM_INT_ARGS
    ensures r.Ok? ==> |r.value.0.ints| == NUM_INT_ARGS
  {
    var h :- GraphModeNumber(inp, args);
    var (args3, in2) := h;
    var r4 :- ParseStringSpec(in2, "");
    var (text, in3) := r4;
    var (np, in4) := Read(in3);
    Ok((args3.(strArg := Some(text), dummyNP := np), in4))
  }

  /** The lookahead test `isDigit(lookahead()) || lookahead() == ';'`, which looks ahead twice when the first value is no digit. */
  function ArgumentsFollow(inp: Input): (r: Result<(bool, Input)>)
  {
    var r5 :- Lookahead(inp);
    var (a, in1) := r5;
    if IsDigit(a) then Ok((true, in1))
    else
      var r6 :- Lookahead(in1);
      var (b, in2) := r6;
      Ok((b == ';' as int, in2))
  }

  // ---------------------------------------------------------------------
  // UTF-8
  // ---------------------------------------------------------------------

  /** `c & mask` for a non-negative int and a mask below 256. */
  function AndMask(c: int, mask: bv8): (r: int)
    requires c >= 0
    ensures 0 <= r < 256
  {
    ((c % 256) as bv8 & mask) as int
  }

  /** The sequence length the tokenizer derives from a lead byte, as written. */
  function Utf8Length(c: int): (num: int)
    requires c >= 0
    ensures 1 <= num <= 6
  {
    if AndMask(c, 0xe0) == 0xc0 then 2
    else if AndMask(c, 0xf0) == 0xe0 then 3
    else if AndMask(c, 0xf8) == 0xf0 then 4
    else if AndMask(c, 0xfc) == 0xf8 then 5
    else if AndMask(c, 0xfd) == 0xfc then 6
    else 1
  }

  /**
   * The corrected six-byte test: a 1111110x lead byte, mask 0xfe. This is the
   * length the model uses.
   */
  function Utf8LengthFixed(c: int): (num: int)
    requires c >= 0
    ensures 1 <= num <= 6
  {
    if AndMask(c, 0xe0) == 0xc0 then 2
    else if AndMask(c, 0xf0) == 0xe0 then 3
    else if AndMask(c, 0xf8) == 0xf0 then 4
    else if AndMask(c, 0xfc) == 0xf8 then 5
    else if AndMask(c, 0xfe) == 0xfc then 6
    else 1
  }

  /**
   * readUByte repeated k times: each value must be non-negative (otherwise
   * IOException) and is stored as the byte of its low 8 bits. `acc` holds
   * the bytes read so far.
   */
  function ReadUBytes(inp: Input, acc: seq<jbyte>, k: nat): (r: Result<(seq<jbyte>, Input)>)
    decreases k
  {
    if k == 0 then Ok((acc, inp))
    else
      var (c, in1) := Read(inp);
      if c < 0 then Err(IOException)
      else ReadUBytes(in1, acc + [ToByte(LowByte(c))], k - 1)
  }

  /** One readUByte step of ReadUBytes. */
  lemma ReadUBytesStep(inp: Input, acc: seq<jbyte>, k: nat)
    requires k > 0
    ensures Read(inp).0 < 0 ==> ReadUBytes(inp, acc, k) == Err(IOException)
    ensures Read(inp).0 >= 0 ==>
      ReadUBytes(inp, acc, k) == ReadUBytes(Read(inp).1, acc + [ToByte(LowByte(Read(inp).0))], k - 1)
  {
  }

  /**
   * matchUTF8Token: a value with bit 7 set starts a multi-byte character;
   * the bytes that follow are read unchecked. None when bit 7 is clear.
   */
  function MatchUtf8Spec(c: int, inp: Input): (r: Result<Option<(seq<jbyte>, Input)>>)
    requires c >= 0
  {
    if AndMask(c, 0x80) > 0 && !ANSI_MODE then
      var r7 :- ReadUBytes(inp, [ToByte(c)], Utf8LengthFixed(c) - 1);
      var (bytes, in1) := r7;
      Ok(Some((bytes, in1)))
    else Ok(None)
  }

  // ---------------------------------------------------------------------
  // The state loop
  // ---------------------------------------------------------------------

  /** One pass of the loop body: a token, an exception, another pass, or the error exit. */
  datatype Outcome =
    | Return(token: Token, next: Snap)
    | Fail(error: Exception)
    | Again(next: Snap)
    | Stop(next: Snap)

  /** fullMatch: records the token as the matched one. */
  function Matched(t: Token, s: Snap): (r: Snap)
    ensures r.state.matchedToken == Some(t)
  {
    s.(state := s.state.(matchedToken := Some(t)))
  }

  function WithError(s: Snap, c: int): Snap
  {
    s.(state := s.state.(errorChar := c))
  }

  /** The pattern as getBytes() returns it: each value narrowed to a byte. */
  function ToBytes(p: seq<int>): (b: seq<jbyte>)
    ensures |b| == |p| && forall i :: 0 <= i < |p| ==> b[i] == ToByte(p[i])
  {
    seq(|p|, i requires 0 <= i < |p| => ToByte(p[i]))
  }

  /**
   * A C0 value `c` (token t) has just been appended to the pattern of `s1`;
   * `prev` is the pattern before it.
   */
  function C0Step(s1: Snap, prev: seq<int>, c: int, t: Token): (o: Outcome)
    ensures o.Again? ==> o.next.pattern == s1.pattern && o.next.args == s1.args
  {
    if t == ESC then
      if s1.state.escSequence then
        var s2 := WithError(s1, c);
        match Unget(s2.input, c)
        case Err(e) => Fail(e)
        case Ok(in2) => Return(ERROR, Matched(ERROR, s2.(input := in2)))
      else Again(s1.(state := s1.state.(escSequence := true)))
    else if !s1.state.escSequence then Return(t, Matched(t, s1))
    else
      match Replay(s1.input, prev)
      case Err(e) => Fail(e)
      case Ok(in2) => Return(t, Matched(t, s1.(input := in2, pattern := [])))
  }

  /** The graph-mode option: parsed when a digit or ';' follows. */
  function GraphModeOption(s: Snap): (r: Result<Snap>)
    requires |s.args.ints| == NUM_INT_ARGS
    ensures r.Ok? ==> r.value.pattern == s.pattern && |r.value.args.ints| == NUM_INT_ARGS
  {
    var r8 :- ArgumentsFollow(s.input);
    var (follow, in1) := r8;
    if follow then
      var r9 :- ParseGraphModeSpec(in1, s.args);
      var (args, in2) := r9;
      assert |args.ints| == NUM_INT_ARGS;
      Ok(s.(input := in2, args := args, state := s.state.(optGraphModeParsed := true)))
    else Ok(s.(input := in1))
  }

  /** The integer-list option: parsed when a digit or ';' follows. */
  function IntegersOption(s: Snap): (r: Result<Snap>)
    requires |s.args.ints| == NUM_INT_ARGS
    ensures r.Ok? ==> r.value.pattern == s.pattern && |r.value.args.ints| == NUM_INT_ARGS
  {
    var r10 :- ArgumentsFollow(s.input);
    var (follow, in1) := r10;
    if follow then
      var r11 :- ParseIntegerListSpec(in1, s.args.ints, 0);
      var (ints, n, in2) := r11;
      Ok(s.(input := in2, args := s.args.(ints := ints, numArgs := n),
            state := s.state.(optIntegersParsed := n > 0)))
    else Ok(s.(input := in1))
  }

  /** The options a matched definition asks for. */
  function OptionsStep(s: Snap, d: TokenDef, prefixMatch: bool): (r: Result<Snap>)
    requires |s.args.ints| == NUM_INT_ARGS
    ensures r.Ok? ==> r.value.pattern == s.pattern && |r.value.args.ints| == NUM_INT_ARGS
  {
    var s2 :- if d.option == Some(GraphMode) then GraphModeOption(s) else Ok(s);
    if prefixMatch && d.option == Some(Integers) then IntegersOption(s2) else Ok(s2)
  }

  /**
   * Inside an escape sequence: `c` has just been appended to the pattern of
   * `s1`, which is then looked up among the definitions.
   */
  function SequenceStep(s1: Snap, c: int, defs: seq<TokenDef>): (o: Outcome)
    requires |s1.args.ints| == NUM_INT_ARGS
    ensures o.Again? ==> o.next.pattern == s1.pattern && |o.next.args.ints| == NUM_INT_ARGS
  {
    var p := s1.pattern;
    var found := if |p| <= 0 then None else FirstWithPrefix(defs, Unsigned(ToBytes(p)));
    if found.None? then Stop(WithError(s1, c))
    else
      var d := found.value;
      var full := |d.Full()| == |p|;
      var prefixMatch := !full && |p| == |d.prefix|;
      var partialPrefixMatch := !full && |p| < |d.prefix|;
      if partialPrefixMatch then Again(s1)
      else if !full && !prefixMatch then Stop(WithError(s1, c))
      else
        match OptionsStep(s1, d, prefixMatch)
        case Err(e) => Fail(e)
        case Ok(s3) =>
          if full then Return(d.token, Matched(d.token, s3.(state := s3.state.(matchedIToken := Some(d)))))
          else Again(WithError(s3, c))
  }

  /** Outside an escape sequence, a value that is not C0: a 7-bit character or the start of a UTF-8 sequence. */
  function CharStep(s1: Snap, c: int): (o: Outcome)
    requires c >= 0
    ensures !o.Again?
  {
    if MatchCharToken(c).Some? then Return(CHAR, Matched(CHAR, s1))
    else
      match MatchUtf8Spec(c, s1.input)
      case Err(e) => Fail(e)
      case Ok(None) => Stop(WithError(s1, c))
      case Ok(Some((bytes, in2))) => Return(CHAR, Matched(CHAR, s1.(input := in2, pattern := bytes)))
  }

  /** One pass of the do-while body of nextToken. */
  function StepSpec(s: Snap, defs: seq<TokenDef>): (o: Outcome)
    requires |s.args.ints| == NUM_INT_ARGS
    ensures o.Again? ==> |o.next.pattern| == |s.pattern| + 1 && |o.next.args.ints| == NUM_INT_ARGS
  {
    var (c, in1) := Read(s.input);
    var s1 := s.(input := in1, pattern := s.pattern + [c]);
    var c0 := MatchC0Token(c);
    if c0.Some? then C0Step(s1, s.pattern, c, c0.value)
    else if !s1.state.escSequence then CharStep(s1, c)
    else SequenceStep(s1, c, defs)
  }

  /**
   * The do-while loop from a given snapshot: it runs while the state is in
   * an escape sequence and ends with ERROR when it stops. Appending to a
   * full pattern stack is an index error.
   */
  function LoopSpec(s: Snap, defs: seq<TokenDef>): (r: Result<(Token, Snap)>)
    requires |s.args.ints| == NUM_INT_ARGS
    decreases MAX_MINIBUF - |s.pattern|
  {
    if |s.pattern| >= MAX_MINIBUF then Err(IndexOutOfBounds)
    else
      match StepSpec(s, defs)
      case Return(t, n) => Ok((t, n))
      case Fail(e) => Err(e)
      case Stop(n) => Ok((ERROR, Matched(ERROR, n)))
      case Again(n) =>
        if n.state.escSequence then LoopSpec(n, defs) else Ok((ERROR, Matched(ERROR, n)))
  }

  /** nextToken: reset, then the loop. */
  function NextTokenSpec(s: Snap, defs: seq<TokenDef>): Result<(Token, Snap)>
  {
    LoopSpec(ResetSnap(s), defs)
  }
}
