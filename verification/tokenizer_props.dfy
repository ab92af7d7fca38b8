/**
 * What the tokenizer promises, stated on the functions of TokenizerSpec:
 * pushed-back values come back in order, UTF-8 lead bytes fix the length
 * of a character, control bytes are classified, and one pass of the loop
 * returns CHAR, a C0 token or ERROR as the byte read demands.
 */
module TokenizerProps {
  import opened Wrappers
  import opened JavaLang
  import opened Tokens
  import opened ByteTokenDef
  import opened TokenizerSpec

  // ---------------------------------------------------------------------
  // The read-ahead stack
  // ---------------------------------------------------------------------

  /**
   * Pushing a pattern back succeeds exactly when the stack has room for all
   * of it, and then the pattern is read again in its original order, before
   * whatever was pending.
   */
  lemma {:induction false} ReplayPending(inp: Input, p: seq<int>)
    requires |inp.ahead| <= MAX_MINIBUF
    ensures Replay(inp, p).Ok? <==> |inp.ahead| + |p| <= MAX_MINIBUF
    ensures Replay(inp, p).Err? ==> Replay(inp, p).error == IOException
    ensures Replay(inp, p).Ok? ==> Pending(Replay(inp, p).value) == p + Pending(inp)
    decreases |p|
  {
    if p != [] {
      var last := p[|p| - 1];
      var front := p[..|p| - 1];
      if |inp.ahead| < MAX_MINIBUF {
        UngetPending(inp, last);
        var in1 := Unget(inp, last).value;
        assert |in1.ahead| == |inp.ahead| + 1;
        assert Replay(inp, p) == Replay(in1, front);
        ReplayPending(in1, front);
        assert front + [last] == p;
        if Replay(inp, p).Ok? {
          calc {
            Pending(Replay(inp, p).value);
            front + Pending(in1);
            front + ([last] + Pending(inp));
            (front + [last]) + Pending(inp);
          }
        }
      } else {
        assert Unget(inp, last).Err?;
        assert Replay(inp, p).Err?;
      }
    }
  }

  /**
   * lookahead returns the next value and leaves what is pending as it was;
   * at end of stream it pushes -1, which the next read returns.
   */
  lemma LookaheadKeepsPending(inp: Input)
    requires |inp.ahead| < MAX_MINIBUF
    ensures Lookahead(inp).Ok?
    ensures Pending(inp) == [] ==> Lookahead(inp).value.0 == -1 && Pending(Lookahead(inp).value.1) == [-1]
    ensures Pending(inp) != [] ==>
      Lookahead(inp).value.0 == Pending(inp)[0] && Pending(Lookahead(inp).value.1) == Pending(inp)
  {
    ReadPending(inp);
    var (c, in1) := Read(inp);
    UngetPending(in1, c);
    if Pending(inp) != [] {
      assert Pending(inp) == [c] + Pending(inp)[1..];
    }
  }

  // ---------------------------------------------------------------------
  // UTF-8
  // ---------------------------------------------------------------------

  /**
   * readUByte repeated k times succeeds exactly when k values are pending and
   * none of them is negative; the bytes appended are those values narrowed to
   * bytes, and the rest stays pending. Running out of input is an IOException.
   */
  lemma {:induction false} ReadUBytesPending(inp: Input, acc: seq<jbyte>, k: nat)
    ensures ReadUBytes(inp, acc, k).Ok? <==>
      k <= |Pending(inp)| && forall i :: 0 <= i < k ==> Pending(inp)[i] >= 0
    ensures ReadUBytes(inp, acc, k).Err? ==> ReadUBytes(inp, acc, k).error == IOException
    ensures ReadUBytes(inp, acc, k).Ok? ==>
      var (bytes, rest) := ReadUBytes(inp, acc, k).value;
      |bytes| == |acc| + k && bytes[..|acc|] == acc &&
      (forall i :: 0 <= i < k ==> bytes[|acc| + i] == ToByte(LowByte(Pending(inp)[i]))) &&
      Pending(rest) == Pending(inp)[k..]
    decreases k
  {
    if k > 0 {
      ReadPending(inp);
      var (c, in1) := Read(inp);
      if c >= 0 {
        var acc1 := acc + [ToByte(LowByte(c))];
        ReadUBytesPending(in1, acc1, k - 1);
        assert Pending(inp) == [c] + Pending(in1);
        if ReadUBytes(inp, acc, k).Ok? {
          var bytes := ReadUBytes(inp, acc, k).value.0;
          assert bytes[..|acc1|] == acc1;
          assert bytes[..|acc|] == acc1[..|acc|];
          forall i | 0 <= i < k
            ensures bytes[|acc| + i] == ToByte(LowByte(Pending(inp)[i]))
          {
            if i > 0 {
              assert bytes[|acc1| + (i - 1)] == ToByte(LowByte(Pending(in1)[i - 1]));
            }
          }
          assert Pending(in1)[k - 1..] == Pending(inp)[k..];
        }
      }
    }
  }

  /**
   * The corrected lead-byte rule of RFC 2279: 110xxxxx, 1110xxxx, 11110xxx,
   * 111110xx and 1111110x start sequences of 2 to 6 bytes; every other byte
   * stands alone.
   */
  lemma LeadByteLengths(c: uint8)
    ensures 0xc0 <= c < 0xe0 ==> Utf8LengthFixed(c) == 2
    ensures 0xe0 <= c < 0xf0 ==> Utf8LengthFixed(c) == 3
    ensures 0xf0 <= c < 0xf8 ==> Utf8LengthFixed(c) == 4
    ensures 0xf8 <= c < 0xfc ==> Utf8LengthFixed(c) == 5
    ensures 0xfc <= c < 0xfe ==> Utf8LengthFixed(c) == 6
    ensures (c < 0xc0 || c >= 0xfe) ==> Utf8LengthFixed(c) == 1
  {
    if c < 0xc0 {
      assert AndMask(c, 0xe0) != 0xc0 && AndMask(c, 0xf0) != 0xe0 && AndMask(c, 0xf8) != 0xf0;
      assert AndMask(c, 0xfc) != 0xf8 && AndMask(c, 0xfe) != 0xfc;
    } else if c < 0xe0 {
      assert AndMask(c, 0xe0) == 0xc0;
    } else if c < 0xf0 {
      assert AndMask(c, 0xe0) != 0xc0 && AndMask(c, 0xf0) == 0xe0;
    } else if c < 0xf8 {
      assert AndMask(c, 0xe0) != 0xc0 && AndMask(c, 0xf0) != 0xe0 && AndMask(c, 0xf8) == 0xf0;
    } else if c < 0xfc {
      assert AndMask(c, 0xe0) != 0xc0 && AndMask(c, 0xf0) != 0xe0 && AndMask(c, 0xf8) != 0xf0;
      assert AndMask(c, 0xfc) == 0xf8;
    } else if c < 0xfe {
      assert AndMask(c, 0xe0) != 0xc0 && AndMask(c, 0xf0) != 0xe0 && AndMask(c, 0xf8) != 0xf0;
      assert AndMask(c, 0xfc) != 0xf8 && AndMask(c, 0xfe) == 0xfc;
    } else {
      assert AndMask(c, 0xe0) != 0xc0 && AndMask(c, 0xf0) != 0xe0 && AndMask(c, 0xf8) != 0xf0;
      assert AndMask(c, 0xfc) != 0xf8 && AndMask(c, 0xfe) != 0xfc;
    }
  }

  /**
   * The lead-byte rule as written tests the six-byte case with mask 0xfd: a
   * 1111110x byte 0xfd stands alone while 0xfe, which is no lead byte, starts
   * a six-byte sequence.
   */
  lemma LeadByteAsWritten()
    ensures Utf8Length(0xfd) == 1 && Utf8LengthFixed(0xfd) == 6
    ensures Utf8Length(0xfe) == 6 && Utf8LengthFixed(0xfe) == 1
    ensures Utf8Length(0xfc) == 6 && Utf8LengthFixed(0xfc) == 6
  {
    assert AndMask(0xfd, 0xfd) == 0xfd;
    assert AndMask(0xfd, 0xfe) == 0xfc;
    assert AndMask(0xfe, 0xfd) == 0xfc;
    assert AndMask(0xfe, 0xfe) == 0xfe;
  }

  // ---------------------------------------------------------------------
  // ungetChar's byte cast
  // ---------------------------------------------------------------------

  /**
   * ungetChar as written pushes (byte) c: a pushed-back 0xc3, which
   * parseInt pushes back when it ends a number, is read again as -61 and
   * matched as end of stream.
   */
  lemma UngetCastReadsEof(inp: Input)
    requires |inp.ahead| < MAX_MINIBUF
    ensures UngetAsWritten(inp, 0xc3).Ok?
    ensures Read(UngetAsWritten(inp, 0xc3).value).0 == -61
    ensures MatchC0Token(Read(UngetAsWritten(inp, 0xc3).value).0) == Some(EOF)
  {
    var in1 := UngetAsWritten(inp, 0xc3).value;
    assert in1.ahead == inp.ahead + [-61];
  }

  /** The corrected ungetChar gives every value back unchanged, so 0xc3 is no control byte. */
  lemma UngetKeepsValue(inp: Input, c: int)
    requires |inp.ahead| < MAX_MINIBUF
    ensures Unget(inp, c).Ok? && Read(Unget(inp, c).value).0 == c
    ensures c == 0xc3 ==> MatchC0Token(Read(Unget(inp, c).value).0).None?
  {
    UngetPending(inp, c);
  }

  // ---------------------------------------------------------------------
  // Classification of single values
  // ---------------------------------------------------------------------

  /** The C0 codes that have a token of their own. */
  predicate KnownC0(c: int)
  {
    c in {CTRL_NUL, CTRL_ETX, CTRL_EOT, CTRL_ENQ, CTRL_BS, CTRL_HT, CTRL_CR, CTRL_LF, CTRL_VT,
          CTRL_FF, CTRL_CAN, CTRL_SUB, CTRL_ESC, CTRL_BEL, CTRL_SI, CTRL_SO}
  }

  /**
   * matchC0Token: end of stream for a negative value, a token for every value
   * below 0x20, ERROR exactly for the C0 codes without a token of their own,
   * and nothing from 0x20 on.
   */
  lemma C0Classification(c: int)
    ensures c < 0 ==> MatchC0Token(c) == Some(EOF)
    ensures MatchC0Token(c).Some? <==> c < 0x20
    ensures MatchC0Token(c) == Some(ERROR) <==> 0 <= c < 0x20 && !KnownC0(c)
    ensures 0 <= c && KnownC0(c) ==> MatchC0Token(c).Some? && MatchC0Token(c).value !in {EOF, ERROR}
  {
  }

  // ---------------------------------------------------------------------
  // One call of nextToken, outside an escape sequence
  // ---------------------------------------------------------------------

  /**
   * A byte 0x20..0x7f read outside an escape sequence is a CHAR token whose
   * getBytes() is that one byte; the arguments are the cleared ones and the
   * rest of the input stays pending.
   */
  lemma PrintableIsChar(s: Snap, defs: seq<TokenDef>)
    requires Pending(s.input) != [] && IsChar(Pending(s.input)[0])
    ensures NextTokenSpec(s, defs).Ok?
    ensures var (t, n) := NextTokenSpec(s, defs).value;
      t == CHAR && n.pattern == [Pending(s.input)[0]] && ToBytes(n.pattern) == [ToByte(Pending(s.input)[0])] &&
      n.args == ClearedArgs && Pending(n.input) == Pending(s.input)[1..]
  {
    ReadPending(s.input);
    var r := ResetSnap(s);
    var (c, in1) := Read(r.input);
    assert MatchC0Token(c).None?;
    var s1 := r.(input := in1, pattern := [c]);
    assert StepSpec(r, defs) == CharStep(s1, c);
    assert CharStep(s1, c) == Return(CHAR, Matched(CHAR, s1));
  }

  /**
   * A C0 control other than ESC read outside an escape sequence is its own
   * token (EOF at end of stream, ERROR for a C0 code without a token).
   */
  lemma ControlIsToken(s: Snap, defs: seq<TokenDef>)
    requires MatchC0Token(Read(s.input).0).Some? && MatchC0Token(Read(s.input).0).value != ESC
    ensures NextTokenSpec(s, defs).Ok?
    ensures var (t, n) := NextTokenSpec(s, defs).value;
      Some(t) == MatchC0Token(Read(s.input).0) && n.pattern == [Read(s.input).0] &&
      n.args == ClearedArgs && n.input == Read(s.input).1
  {
    var r := ResetSnap(s);
    var (c, in1) := Read(r.input);
    var s1 := r.(input := in1, pattern := [c]);
    assert StepSpec(r, defs) == C0Step(s1, [], c, MatchC0Token(c).value);
  }

  /**
   * matchUTF8Token's outcome from the reset snapshot r, once a lead byte
   * has been read: the k bytes that follow it are read from in1.
   */
  function Utf8Result(r: Snap, lead: jbyte, k: nat, in1: Input): Result<(Token, Snap)>
  {
    match ReadUBytes(in1, [lead], k)
    case Err(e) => Err(e)
    case Ok(p) => Ok((CHAR, Matched(CHAR, r.(input := p.1, pattern := p.0))))
  }

  /**
   * A byte from 0x80 on starts a UTF-8 character: nextToken goes straight
   * to matchUTF8Token, which reads Utf8LengthFixed(c) - 1 more bytes after
   * the lead byte c (Utf8ResultFacts says what comes of that).
   */
  lemma MultiByteOutcome(s: Snap, defs: seq<TokenDef>)
    requires Pending(s.input) != [] && 0x80 <= Pending(s.input)[0] < 0x100
    ensures Read(ResetSnap(s).input).0 == Pending(s.input)[0]
    ensures Pending(Read(ResetSnap(s).input).1) == Pending(s.input)[1..]
    ensures NextTokenSpec(s, defs) ==
      Utf8Result(ResetSnap(s), ToByte(Pending(s.input)[0]), Utf8LengthFixed(Pending(s.input)[0]) - 1, Read(ResetSnap(s).input).1)
  {
    ReadPending(s.input);
    var r := ResetSnap(s);
    var (c, in1) := Read(r.input);
    assert MatchC0Token(c).None? && MatchCharToken(c).None?;
    assert AndMask(c, 0x80) > 0;
    var s1 := r.(input := in1, pattern := [c]);
    assert StepSpec(r, defs) == CharStep(s1, c);
  }

  /**
   * The shape of a multi-byte CHAR result: it succeeds exactly when the k
   * values after the lead byte are there and none is negative, fails only
   * with an IOException, and then holds the lead byte followed by those
   * k values narrowed to bytes, with the input positioned after them.
   */
  predicate Utf8Shape(o: Result<(Token, Snap)>, lead: jbyte, k: nat, rest: seq<int>)
  {
    (o.Ok? <==> k <= |rest| && forall i :: 0 <= i < k ==> rest[i] >= 0) &&
    (o.Err? ==> o.error == IOException) &&
    (o.Ok? ==>
      var (t, n) := o.value;
      t == CHAR && |n.pattern| == k + 1 && n.pattern[0] == lead &&
      (forall i :: 0 <= i < k ==> n.pattern[i + 1] == ToByte(LowByte(rest[i]))) &&
      Pending(n.input) == rest[k..])
  }

  /** What matchUTF8Token delivers: the lead byte and the k bytes after it, or an IOException. */
  lemma Utf8ResultFacts(r: Snap, lead: jbyte, k: nat, in1: Input)
    ensures Utf8Shape(Utf8Result(r, lead, k, in1), lead, k, Pending(in1))
  {
    ReadUBytesPending(in1, [lead], k);
    if ReadUBytes(in1, [lead], k).Ok? {
      var bytes := ReadUBytes(in1, [lead], k).value.0;
      assert bytes[..1] == [lead];
      assert bytes[0] == lead;
    }
  }

  // ---------------------------------------------------------------------
  // One pass of the loop, inside an escape sequence
  // ---------------------------------------------------------------------

  /**
   * An ESC read while already inside an escape sequence ends the token with
   * ERROR and is pushed back, so that it starts the next token.
   */
  lemma EscInsideSequence(s: Snap, defs: seq<TokenDef>)
    requires |s.args.ints| == NUM_INT_ARGS && s.state.escSequence
    requires Pending(s.input) != [] && Pending(s.input)[0] == CTRL_ESC && |s.input.ahead| <= MAX_MINIBUF
    ensures StepSpec(s, defs).Return? && StepSpec(s, defs).token == ERROR
    ensures Pending(StepSpec(s, defs).next.input) == Pending(s.input)
    ensures StepSpec(s, defs).next.state.errorChar == CTRL_ESC
  {
    ReadPending(s.input);
    var (c, in1) := Read(s.input);
    assert c == CTRL_ESC && |in1.ahead| < MAX_MINIBUF;
    var s1 := s.(input := in1, pattern := s.pattern + [c]);
    assert StepSpec(s, defs) == C0Step(s1, s.pattern, c, ESC);
    UngetPending(in1, c);
    var in2 := Unget(in1, c).value;
    var s2 := WithError(s1, c).(input := in2);
    assert StepSpec(s, defs) == Return(ERROR, Matched(ERROR, s2));
    assert Pending(s.input) == [c] + Pending(s.input)[1..];
  }

  /**
   * Any other C0 value read inside an escape sequence is returned at once,
   * and the bytes of the sequence read so far are pushed back so that they
   * are read again, in their original order, after it.
   */
  lemma ControlInsideSequence(s: Snap, defs: seq<TokenDef>)
    requires |s.args.ints| == NUM_INT_ARGS && s.state.escSequence
    requires MatchC0Token(Read(s.input).0).Some? && MatchC0Token(Read(s.input).0).value != ESC
    requires |s.input.ahead| + |s.pattern| <= MAX_MINIBUF
    ensures StepSpec(s, defs).Return?
    ensures Some(StepSpec(s, defs).token) == MatchC0Token(Read(s.input).0)
    ensures StepSpec(s, defs).next.pattern == []
    ensures Pending(StepSpec(s, defs).next.input) == s.pattern + Pending(Read(s.input).1)
  {
    var (c, in1) := Read(s.input);
    var s1 := s.(input := in1, pattern := s.pattern + [c]);
    assert StepSpec(s, defs) == C0Step(s1, s.pattern, c, MatchC0Token(c).value);
    assert |in1.ahead| <= |s.input.ahead|;
    ReplayPending(in1, s.pattern);
  }

  // ---------------------------------------------------------------------
  // Arguments
  // ---------------------------------------------------------------------

  const Zeros: seq<int> := ClearedArgs.ints

  /**
   * parseIntegerList on concrete input: numbers separated by ';', an empty
   * field before ';' stores 0, and a list without digits has no argument.
   * The value that ends the list is pushed back.
   */
  /** parseInt with no digit ahead: no number, and the value read is pushed back. */
  lemma NoDigitNoNumber(inp: Input)
    requires Pending(inp) != [] && !IsDigit(Pending(inp)[0]) && |inp.ahead| < MAX_MINIBUF
    ensures ParseIntSpec(inp, "").Ok? && ParseIntSpec(inp, "").value.0 == None
    ensures var in1 := ParseIntSpec(inp, "").value.1;
      Pending(in1) == Pending(inp) && |in1.ahead| <= |inp.ahead| + 1
  {
    ReadPending(inp);
    var (c, in1) := Read(inp);
    UngetPending(in1, c);
    assert Pending(inp) == [c] + Pending(in1);
  }

  /** An empty field followed by ';' stores 0 in the next slot, and the list goes on. */
  lemma EmptyFieldStoresZero(inp: Input, ints: seq<int>, n: nat)
    requires |ints| == NUM_INT_ARGS && n < NUM_INT_ARGS
    requires Pending(inp) != [] && Pending(inp)[0] == ';' as int && |inp.ahead| < MAX_MINIBUF
    ensures IntegerField(inp, ints, n).Ok?
    ensures var (ints1, n1, more, in1) := IntegerField(inp, ints, n).value;
      ints1 == ints[n := 0] && n1 == n + 1 && more && Pending(in1) == Pending(inp)[1..] &&
      |in1.ahead| <= |inp.ahead|
  {
    NoDigitNoNumber(inp);
    var in1 := ParseIntSpec(inp, "").value.1;
    ReadPending(in1);
  }

  /**
   * A field without digits followed by neither ';' nor a digit ends the
   * list; nothing is stored and the value read is pushed back.
   */
  lemma EndOfList(inp: Input, ints: seq<int>, n: nat)
    requires |ints| == NUM_INT_ARGS && n <= NUM_INT_ARGS
    requires Pending(inp) != [] && Pending(inp)[0] != ';' as int && !IsDigit(Pending(inp)[0])
    requires |inp.ahead| < MAX_MINIBUF
    ensures IntegerField(inp, ints, n).Ok?
    ensures var (ints1, n1, more, in1) := IntegerField(inp, ints, n).value;
      ints1 == ints && n1 == n && !more && Pending(in1) == Pending(inp)
    ensures ParseIntegerListSpec(inp, ints, n).Ok?
    ensures var (ints1, n1, in1) := ParseIntegerListSpec(inp, ints, n).value;
      ints1 == ints && n1 == n && Pending(in1) == Pending(inp)
  {
    NoDigitNoNumber(inp);
    var in1 := ParseIntSpec(inp, "").value.1;
    ReadPending(in1);
    var (d, in2) := Read(in1);
    assert |in2.ahead| < MAX_MINIBUF;
    UngetPending(in2, d);
    assert Pending(in1) == [d] + Pending(in2);
  }

  /** The values of the characters of a string, as the stream delivers them. */
  function Codes(t: string): (r: seq<int>)
    ensures |r| == |t| && forall i :: 0 <= i < |t| ==> r[i] == t[i] as int
  {
    seq(|t|, i requires 0 <= i < |t| => t[i] as int)
  }

  lemma CodesCons(t: string)
    requires |t| > 0
    ensures Codes(t) == [t[0] as int] + Codes(t[1..])
  {
  }

  lemma SplitHead<T>(a: seq<T>, t: seq<T>)
    requires |t| > 0
    ensures a + [t[0]] + t[1..] == a + t
  {
    assert [t[0]] + t[1..] == t;
  }

  predicate Decimal(t: string)
  {
    forall i :: 0 <= i < |t| ==> IsAsciiDigit(t[i])
  }

  /**
   * parseInt collects the digits ahead, fewer than sixteen of them, and
   * pushes back the value after them: no number when there is no digit.
   */
  lemma {:induction false} ParseIntReadsDigits(inp: Input, acc: string, t: string, x: int, rest: seq<int>)
    requires |acc| + |t| < CHAR_BUFFER_SIZE && Decimal(t) && !IsDigit(x)
    requires Pending(inp) == Codes(t) + [x] + rest
    requires |inp.ahead| < MAX_MINIBUF
    ensures ParseIntSpec(inp, acc).Ok?
    ensures ParseIntSpec(inp, acc).value.0 == if acc + t == "" then None else Some(acc + t)
    ensures Pending(ParseIntSpec(inp, acc).value.1) == [x] + rest
    ensures Read(ParseIntSpec(inp, acc).value.1).0 == x
    ensures |Read(ParseIntSpec(inp, acc).value.1).1.ahead| <= |inp.ahead|
    decreases |t|
  {
    ReadPending(inp);
    var (d, in1) := Read(inp);
    if t == [] {
      UngetPending(in1, d);
      assert acc + t == acc;
    } else {
      CodesCons(t);
      assert d == t[0] as int && IsDigit(d);
      assert ParseIntSpec(inp, acc) == ParseIntSpec(in1, acc + [t[0]]);
      ParseIntReadsDigits(in1, acc + [t[0]], t[1..], x, rest);
      SplitHead(acc, t);
    }
  }

  /**
   * The number at the start of a field: its value goes to slot n, and the
   * value after the digits is on top of the read-ahead stack.
   */
  lemma FieldDigits(inp: Input, ints: seq<int>, n: nat, t: string, x: int, rest: seq<int>)
    requires |ints| == NUM_INT_ARGS && n < NUM_INT_ARGS
    requires 0 < |t| < CHAR_BUFFER_SIZE && Decimal(t) && DigitsValue(t, 10) <= INT_MAX && !IsDigit(x)
    requires Pending(inp) == Codes(t) + [x] + rest
    requires |inp.ahead| < MAX_MINIBUF
    ensures ParseIntSpec(inp, "").Ok?
    ensures var in1 := ParseIntSpec(inp, "").value.1;
      FieldNumber(inp, ints, n) == Ok((Some(t), ints[n := DigitsValue(t, 10)], n + 1, in1)) &&
      Pending(in1) == [x] + rest && Read(in1).0 == x && |Read(in1).1.ahead| <= |inp.ahead|
  {
    ParseIntReadsDigits(inp, "", t, x, rest);
    assert "" + t == t;
    ParseDecimalDigits(t);
    var in1 := ParseIntSpec(inp, "").value.1;
    assert ParseIntSpec(inp, "") == Ok((Some(t), in1));
    assert StoreInt(ints, n, t) == Ok((ints[n := DigitsValue(t, 10)], n + 1));
  }

  /**
   * A field of digits followed by ';' stores its value in the next slot and
   * the list goes on after the ';'.
   */
  lemma NumberField(inp: Input, ints: seq<int>, n: nat, t: string, rest: seq<int>)
    requires |ints| == NUM_INT_ARGS && n < NUM_INT_ARGS
    requires 0 < |t| < CHAR_BUFFER_SIZE && Decimal(t) && DigitsValue(t, 10) <= INT_MAX
    requires Pending(inp) == Codes(t) + [';' as int] + rest
    requires |inp.ahead| < MAX_MINIBUF
    ensures IntegerField(inp, ints, n).Ok?
    ensures var (ints1, n1, more, in1) := IntegerField(inp, ints, n).value;
      ints1 == ints[n := DigitsValue(t, 10)] && n1 == n + 1 && more &&
      Pending(in1) == rest && |in1.ahead| < MAX_MINIBUF
  {
    FieldDigits(inp, ints, n, t, ';' as int, rest);
    var in1 := ParseIntSpec(inp, "").value.1;
    ReadPending(in1);
  }

  /**
   * A field of digits followed by a value that is neither a digit nor ';'
   * stores its value in the next slot and ends the list; the value after it
   * is pushed back.
   */
  lemma LastNumberField(inp: Input, ints: seq<int>, n: nat, t: string, x: int, rest: seq<int>)
    requires |ints| == NUM_INT_ARGS && n < NUM_INT_ARGS
    requires 0 < |t| < CHAR_BUFFER_SIZE && Decimal(t) && DigitsValue(t, 10) <= INT_MAX
    requires !IsDigit(x) && x != ';' as int
    requires Pending(inp) == Codes(t) + [x] + rest
    requires |inp.ahead| < MAX_MINIBUF
    ensures ParseIntegerListSpec(inp, ints, n).Ok?
    ensures var (ints1, n1, in1) := ParseIntegerListSpec(inp, ints, n).value;
      ints1 == ints[n := DigitsValue(t, 10)] && n1 == n + 1 && Pending(in1) == [x] + rest
  {
    FieldDigits(inp, ints, n, t, x, rest);
    var in1 := ParseIntSpec(inp, "").value.1;
    ReadPending(in1);
    var (d, in2) := Read(in1);
    UngetPending(in2, d);
  }

  /** "14;" is a first field holding 14. */
  lemma FirstFieldExample(inp: Input)
    requires Pending(inp) == [0x31, 0x34, 0x3b, 0x34, 0x33, 0x48] && |inp.ahead| < MAX_MINIBUF
    ensures IntegerField(inp, Zeros, 0).Ok?
    ensures var (ints1, n1, more, in1) := IntegerField(inp, Zeros, 0).value;
      ints1 == Zeros[0 := 14] && n1 == 1 && more && Pending(in1) == [0x34, 0x33, 0x48] && |in1.ahead| < MAX_MINIBUF
  {
    var d14 := "14";
    assert DigitsValue(d14, 10) == 14 && Decimal(d14);
    assert Pending(inp) == Codes(d14) + [';' as int] + [0x34, 0x33, 0x48] by {
      assert Codes(d14) == [0x31, 0x34];
    }
    NumberField(inp, Zeros, 0, d14, [0x34, 0x33, 0x48]);
  }

  /** The CSI parameters of ESC [ 14 ; 43 H are 14 and 43, and the final H is read next. */
  lemma CursorArgumentsExample(inp: Input)
    requires Pending(inp) == [0x31, 0x34, 0x3b, 0x34, 0x33, 0x48] && |inp.ahead| < MAX_MINIBUF
    ensures ParseIntegerListSpec(inp, Zeros, 0).Ok?
    ensures var (ints, n, in1) := ParseIntegerListSpec(inp, Zeros, 0).value;
      n == 2 && ints[0] == 14 && ints[1] == 43 && Pending(in1) == [0x48]
  {
    FirstFieldExample(inp);
    var f := IntegerField(inp, Zeros, 0).value;
    var in1 := f.3;
    var d43 := "43";
    assert DigitsValue(d43, 10) == 43 && Decimal(d43);
    assert Pending(in1) == Codes(d43) + [0x48] + [] by {
      assert Codes(d43) == [0x34, 0x33];
    }
    LastNumberField(in1, f.0, 1, d43, 0x48, []);
  }

  /**
   * An empty field before ';' contributes 0: ";q" gives one argument, 0,
   * and leaves q to be read.
   */
  lemma EmptyFieldList(inp: Input)
    requires Pending(inp) == [0x3b, 0x71] && |inp.ahead| < MAX_MINIBUF - 1
    ensures ParseIntegerListSpec(inp, Zeros, 0).Ok?
    ensures ParseIntegerListSpec(inp, Zeros, 0).value.0 == Zeros && ParseIntegerListSpec(inp, Zeros, 0).value.1 == 1
    ensures Pending(ParseIntegerListSpec(inp, Zeros, 0).value.2) == [0x71]
  {
    EmptyFieldStoresZero(inp, Zeros, 0);
    var in1 := IntegerField(inp, Zeros, 0).value.3;
    assert Zeros[0 := 0] == Zeros;
    EndOfList(in1, Zeros, 1);
  }

  predicate Printable(t: string)
  {
    forall i :: 0 <= i < |t| ==> IsPrintable(t[i] as int)
  }

  /**
   * parseString collects the printable characters ahead, fewer than 256 of
   * them, and pushes back the value after them.
   */
  lemma {:induction false} ParseStringReadsText(inp: Input, acc: string, t: string, x: int, rest: seq<int>)
    requires |acc| + |t| < STRING_BUFFER_SIZE && Printable(t) && !IsPrintable(x)
    requires Pending(inp) == Codes(t) + [x] + rest
    requires |inp.ahead| < MAX_MINIBUF
    ensures ParseStringSpec(inp, acc).Ok?
    ensures ParseStringSpec(inp, acc).value.0 == acc + t
    ensures Pending(ParseStringSpec(inp, acc).value.1) == [x] + rest
    ensures Read(ParseStringSpec(inp, acc).value.1).0 == x
    ensures |Read(ParseStringSpec(inp, acc).value.1).1.ahead| <= |inp.ahead|
    decreases |t|
  {
    ReadPending(inp);
    var (c, in1) := Read(inp);
    if t == [] {
      UngetPending(in1, c);
      assert acc + t == acc;
    } else {
      CodesCons(t);
      assert c == t[0] as int && IsPrintable(c);
      assert ParseStringSpec(inp, acc) == ParseStringSpec(in1, acc + [t[0]]);
      ParseStringReadsText(in1, acc + [t[0]], t[1..], x, rest);
      SplitHead(acc, t);
    }
  }

  /** Without digits, the OSC number is 0 and the separator is consumed. */
  lemma GraphModeNoNumber(inp: Input, args: Args, after: seq<int>)
    requires |args.ints| == NUM_INT_ARGS
    requires Pending(inp) == [';' as int] + after
    requires |inp.ahead| < MAX_MINIBUF
    ensures ParseIntSpec(inp, "").Ok?
    ensures var in2 := Read(ParseIntSpec(inp, "").value.1).1;
      GraphModeNumber(inp, args) == Ok((args.(dummyND := ';' as int).(ints := args.ints[0 := 0], numArgs := 1), in2)) &&
      Pending(in2) == after && |in2.ahead| < MAX_MINIBUF
  {
    assert Pending(inp) == Codes("") + [';' as int] + after;
    ParseIntReadsDigits(inp, "", "", ';' as int, after);
    var in1 := ParseIntSpec(inp, "").value.1;
    assert ParseIntSpec(inp, "") == Ok((None, in1));
    ReadPending(in1);
  }

  /** With digits, the OSC number is their value and the separator is consumed. */
  lemma GraphModeNumberDigits(inp: Input, args: Args, t: string, after: seq<int>)
    requires |args.ints| == NUM_INT_ARGS
    requires 0 < |t| < CHAR_BUFFER_SIZE && Decimal(t) && DigitsValue(t, 10) <= INT_MAX
    requires Pending(inp) == Codes(t) + [';' as int] + after
    requires |inp.ahead| < MAX_MINIBUF
    ensures ParseIntSpec(inp, "").Ok?
    ensures var in2 := Read(ParseIntSpec(inp, "").value.1).1;
      GraphModeNumber(inp, args) ==
        Ok((args.(ints := args.ints[0 := DigitsValue(t, 10)], numArgs := 1).(dummyND := ';' as int), in2)) &&
      Pending(in2) == after && |in2.ahead| < MAX_MINIBUF
  {
    ParseIntReadsDigits(inp, "", t, ';' as int, after);
    assert "" + t == t;
    var in1 := ParseIntSpec(inp, "").value.1;
    assert ParseIntSpec(inp, "") == Ok((Some(t), in1));
    ParseDecimalDigits(t);
    ReadPending(in1);
  }

  /** After the number and separator, the OSC text runs up to the BEL, which is consumed. */
  lemma GraphModeText(inp: Input, args: Args, text: string, rest: seq<int>)
    requires |args.ints| == NUM_INT_ARGS
    requires |text| < STRING_BUFFER_SIZE && Printable(text)
    requires GraphModeNumber(inp, args).Ok?
    requires Pending(GraphModeNumber(inp, args).value.1) == Codes(text) + [CTRL_BEL] + rest
    requires |GraphModeNumber(inp, args).value.1.ahead| < MAX_MINIBUF
    ensures ParseGraphModeSpec(inp, args).Ok?
    ensures ParseGraphModeSpec(inp, args).value.0 ==
      GraphModeNumber(inp, args).value.0.(strArg := Some(text), dummyNP := CTRL_BEL)
    ensures Pending(ParseGraphModeSpec(inp, args).value.1) == rest
  {
    var in2 := GraphModeNumber(inp, args).value.1;
    ParseStringReadsText(in2, "", text, CTRL_BEL, rest);
    assert "" + text == text;
    var in3 := ParseStringSpec(in2, "").value.1;
    ReadPending(in3);
  }

  /**
   * The OSC arguments `n ; text BEL`: slot 0 holds n, there is one integer
   * argument, the string argument is the text, and the BEL is consumed.
   */
  lemma GraphModeArguments(inp: Input, args: Args, t: string, text: string, rest: seq<int>)
    requires |args.ints| == NUM_INT_ARGS
    requires 0 < |t| < CHAR_BUFFER_SIZE && Decimal(t) && DigitsValue(t, 10) <= INT_MAX
    requires |text| < STRING_BUFFER_SIZE && Printable(text)
    requires Pending(inp) == Codes(t) + [';' as int] + (Codes(text) + [CTRL_BEL] + rest)
    requires |inp.ahead| < MAX_MINIBUF
    ensures ParseGraphModeSpec(inp, args).Ok?
    ensures ParseGraphModeSpec(inp, args).value.0.ints[0] == DigitsValue(t, 10)
    ensures ParseGraphModeSpec(inp, args).value.0.numArgs == 1
    ensures ParseGraphModeSpec(inp, args).value.0.strArg == Some(text)
    ensures Pending(ParseGraphModeSpec(inp, args).value.1) == rest
  {
    GraphModeNumberDigits(inp, args, t, Codes(text) + [CTRL_BEL] + rest);
    GraphModeText(inp, args, text, rest);
  }

  /** Without digits, `; text BEL` gives the number 0 and the text. */
  lemma GraphModeArgumentsNoNumber(inp: Input, args: Args, text: string, rest: seq<int>)
    requires |args.ints| == NUM_INT_ARGS
    requires |text| < STRING_BUFFER_SIZE && Printable(text)
    requires Pending(inp) == [';' as int] + (Codes(text) + [CTRL_BEL] + rest)
    requires |inp.ahead| < MAX_MINIBUF
    ensures ParseGraphModeSpec(inp, args).Ok?
    ensures ParseGraphModeSpec(inp, args).value.0.ints[0] == 0
    ensures ParseGraphModeSpec(inp, args).value.0.numArgs == 1
    ensures ParseGraphModeSpec(inp, args).value.0.strArg == Some(text)
    ensures Pending(ParseGraphModeSpec(inp, args).value.1) == rest
  {
    GraphModeNoNumber(inp, args, Codes(text) + [CTRL_BEL] + rest);
    GraphModeText(inp, args, text, rest);
  }
}
