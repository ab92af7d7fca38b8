/**
 * The pseudo-terminal helper (csrc/ptty.cpp): the command line sets the
 * shell, the initial screen size and an optional transcript file; the
 * terminal attributes of standard input are switched to raw mode; and a
 * relay loop copies standard input to the master side of the pseudo
 * terminal and the master's output to standard output and the transcript.
 *
 * Opening the pseudo terminal, forking the shell and the system calls of
 * the relay are not modelled: what select and read return is given as a
 * sequence of rounds.
 */
module Ptty {
  import opened Wrappers
  import opened JavaLang

  // ---------------------------------------------------------------------
  // Command line
  // ---------------------------------------------------------------------

  /** The globals main sets: scriptout, scriptname, shellcmd, nr_rows, nr_columns. */
  datatype Settings = Settings(scriptOut: int, scriptName: Option<string>, shellCmd: string, rows: int, columns: int)

  /** The initial values of the globals; scriptname starts unset. */
  const DEFAULTS := Settings(0, None, "/bin/bash", 25, 80)

  /** The options main recognises when an argument follows them: -o, -sh, -h and -w. */
  datatype Flag = Script | Shell | Rows | Columns

  function FlagOf(arg: string): Option<Flag>
  {
    if arg == "-o" then Some(Script)
    else if arg == "-sh" then Some(Shell)
    else if arg == "-h" then Some(Rows)
    else if arg == "-w" then Some(Columns)
    else None
  }

  /** An argument main looks at: one that starts with a dash. */
  predicate IsDash(arg: string)
  {
    |arg| > 0 && arg[0] == '-'
  }

  /** How the argument loop reads one argument. */
  datatype Item =
    | Pair(flag: Flag, value: string)     // a known flag and the argument after it
    | Unknown(arg: string)                // a dash argument that is not a known flag, or is the last one
    | Plain(arg: string)                  // an argument without a dash, skipped silently

  /**
   * The argument loop of main from index i: a known flag with an argument
   * after it consumes both; any other dash argument is reported and
   * consumes only itself; other arguments are skipped.
   */
  function Items(argv: seq<string>, i: nat): seq<Item>
    decreases |argv| - i
  {
    if i >= |argv| then []
    else if IsDash(argv[i]) && i + 1 < |argv| && FlagOf(argv[i]).Some? then
      [Pair(FlagOf(argv[i]).value, argv[i + 1])] + Items(argv, i + 2)
    else if IsDash(argv[i]) then [Unknown(argv[i])] + Items(argv, i + 1)
    else [Plain(argv[i])] + Items(argv, i + 1)
  }

  /** The first step of Items, spelled out flag by flag. */
  lemma ItemsUnfold(argv: seq<string>, i: nat)
    requires i < |argv|
    ensures IsDash(argv[i]) && i + 1 < |argv| && FlagOf(argv[i]).Some? ==>
      Items(argv, i) == [Pair(FlagOf(argv[i]).value, argv[i + 1])] + Items(argv, i + 2)
    ensures IsDash(argv[i]) && !(i + 1 < |argv| && FlagOf(argv[i]).Some?) ==>
      Items(argv, i) == [Unknown(argv[i])] + Items(argv, i + 1)
    ensures !IsDash(argv[i]) ==> Items(argv, i) == [Plain(argv[i])] + Items(argv, i + 1)
  {
  }

  /** The C library's isspace in the "C" locale. */
  predicate IsCSpace(c: char)
  {
    c == ' ' || c == '\t' || c == '\n' || c == '\r' || c == '\U{000B}' || c == '\U{000C}'
  }

  function SkipSpace(s: string): (t: string)
    ensures |t| <= |s| && t == s[|s| - |t|..]
    ensures t == [] || !IsCSpace(t[0])
  {
    if s != [] && IsCSpace(s[0]) then SkipSpace(s[1..]) else s
  }

  /** The longest prefix of decimal digits. */
  function DigitPrefix(t: string): (p: string)
    ensures p <= t && AllDigits(p, 10)
    ensures |p| < |t| ==> DigitValue(t[|p|], 10) < 0
    ensures AllDigits(t, 10) ==> p == t
  {
    if t != [] && DigitValue(t[0], 10) >= 0 then [t[0]] + DigitPrefix(t[1..]) else []
  }

  /**
   * atoi: leading white space, an optional sign, then the longest run of
   * decimal digits; no digits give 0.
   */
  function Atoi(s: string): (v: int)
  {
    var t := SkipSpace(s);
    if t != [] && (t[0] == '-' || t[0] == '+') then
      var magnitude: int := DigitsValue(DigitPrefix(t[1..]), 10);
      if t[0] == '-' then -magnitude else magnitude
    else DigitsValue(DigitPrefix(t), 10)
  }

  /** A run of digits reads as its value. */
  lemma AtoiOfDigits(d: string)
    requires |d| > 0 && AllDigits(d, 10)
    ensures Atoi(d) == DigitsValue(d, 10)
  {
    assert DigitValue(d[0], 10) >= 0;
    assert SkipSpace(d) == d;
    assert DigitPrefix(d) == d;
  }

  /** A minus sign before a run of digits negates its value. */
  lemma AtoiOfNegative(d: string)
    requires |d| > 0 && AllDigits(d, 10)
    ensures Atoi("-" + d) == -(DigitsValue(d, 10) as int)
  {
    var m := "-" + d;
    assert m[0] == '-' && m[1..] == d;
    assert SkipSpace(m) == m;
    assert DigitPrefix(d) == d;
  }

  /**
   * A negative size wraps around: "-h -1" asks for 65535 rows, since the
   * value is stored in an unsigned short.
   */
  lemma NegativeSizeWraps(d: string)
    requires |d| > 0 && AllDigits(d, 10) && 0 < DigitsValue(d, 10) < 0x1_0000
    ensures UShort(Atoi("-" + d)) == 0x1_0000 - DigitsValue(d, 10)
  {
    AtoiOfNegative(d);
  }

  /** Text after the number is ignored. */
  lemma AtoiStopsAtNonDigit(d: string, rest: string)
    requires |d| > 0 && AllDigits(d, 10)
    requires rest != [] && DigitValue(rest[0], 10) < 0
    ensures Atoi(d + rest) == DigitsValue(d, 10)
  {
    var s := d + rest;
    assert DigitValue(d[0], 10) >= 0;
    assert SkipSpace(s) == s by {
      assert !IsCSpace(s[0]);
    }
    DigitPrefixOfConcat(d, rest);
  }

  lemma {:induction false} DigitPrefixOfConcat(d: string, rest: string)
    requires AllDigits(d, 10)
    requires rest != [] && DigitValue(rest[0], 10) < 0
    ensures DigitPrefix(d + rest) == d
    decreases |d|
  {
    if d == [] {
      assert d + rest == rest;
    } else {
      assert (d + rest)[1..] == d[1..] + rest;
      DigitPrefixOfConcat(d[1..], rest);
    }
  }

  /** The int to unsigned short conversion: the value modulo 2^16. */
  function UShort(v: int): (u: int)
    ensures 0 <= u < 0x1_0000
    ensures 0 <= v < 0x1_0000 ==> u == v
    ensures -0x1_0000 <= v < 0 ==> u == v + 0x1_0000
  {
    v % 0x1_0000
  }

  /** What one item does to the globals. */
  function Step(s: Settings, item: Item): Settings
  {
    match item
    case Pair(Script, value) => s.(scriptOut := 1, scriptName := Some(value))
    case Pair(Shell, value) => s.(shellCmd := value)
    case Pair(Rows, value) => s.(rows := UShort(Atoi(value)))
    case Pair(Columns, value) => s.(columns := UShort(Atoi(value)))
    case _ => s
  }

  /** The globals after the items, in order. */
  function Apply(s: Settings, items: seq<Item>): Settings
    decreases |items|
  {
    if items == [] then s else Apply(Step(s, items[0]), items[1..])
  }

  /** The value of the last item for flag, if there is one. */
  function LastValue(items: seq<Item>, flag: Flag): Option<string>
  {
    if items == [] then None
    else
      var later := LastValue(items[1..], flag);
      if later.Some? then later
      else if items[0].Pair? && items[0].flag == flag then Some(items[0].value)
      else None
  }

  /**
   * Every global is set by the last occurrence of its flag, whatever came
   * before, and keeps its value when the flag does not occur: the sizes ...
   */
  lemma {:induction false} LastSizeWins(s: Settings, items: seq<Item>)
    ensures Apply(s, items).rows == (match LastValue(items, Rows) case Some(v) => UShort(Atoi(v)) case None => s.rows)
    ensures Apply(s, items).columns == (match LastValue(items, Columns) case Some(v) => UShort(Atoi(v)) case None => s.columns)
    decreases |items|
  {
    if items != [] {
      LastSizeWins(Step(s, items[0]), items[1..]);
    }
  }

  /** ... and the shell and the transcript file. */
  lemma {:induction false} LastNameWins(s: Settings, items: seq<Item>)
    ensures Apply(s, items).shellCmd == LastValue(items, Shell).GetOr(s.shellCmd)
    ensures Apply(s, items).scriptName == (if LastValue(items, Script).Some? then LastValue(items, Script) else s.scriptName)
    ensures Apply(s, items).scriptOut == (if LastValue(items, Script).Some? then 1 else s.scriptOut)
    decreases |items|
  {
    if items != [] {
      LastNameWins(Step(s, items[0]), items[1..]);
    }
  }

  /** The report main prints on standard error for an unknown argument. */
  datatype Diagnostic = UnknownArgument(program: string, arg: string)

  /** Its text: the program name, the words "unknown argument" and the argument. */
  function Text(d: Diagnostic): string
  {
    d.program + ": unknown argument: " + d.arg + "\n"
  }

  /** The reports for the unknown items, in order. */
  function Messages(program: string, items: seq<Item>): (m: seq<Diagnostic>)
  {
    if items == [] then []
    else (if items[0].Unknown? then [UnknownArgument(program, items[0].arg)] else []) + Messages(program, items[1..])
  }

  /** A command line without arguments keeps every default and prints nothing. */
  lemma NoArgumentsKeepDefaults(program: string)
    ensures Apply(DEFAULTS, Items([program], 1)) == DEFAULTS
    ensures Messages(program, Items([program], 1)) == []
  {
  }

  /**
   * A dash argument in last position has no argument after it: it is either
   * reported as unknown or it is the value of the flag before it.
   */
  lemma {:induction false} TrailingDashArgument(argv: seq<string>, i: nat)
    requires i < |argv| && IsDash(argv[|argv| - 1])
    ensures var items := Items(argv, i);
      items != [] && (items[|items| - 1] == Unknown(argv[|argv| - 1])
        || (items[|items| - 1].Pair? && items[|items| - 1].value == argv[|argv| - 1]))
    decreases |argv| - i
  {
    var arg := argv[i];
    if IsDash(arg) && i + 1 < |argv| && FlagOf(arg).Some? {
      if i + 2 < |argv| {
        TrailingDashArgument(argv, i + 2);
      }
    } else if i + 1 < |argv| {
      TrailingDashArgument(argv, i + 1);
    }
  }

  /** The globals of ptty.cpp and the argument loop of main that sets them. */
  class PttyGlobals {
    var scriptout: int
    var scriptname: Option<string>
    var shellcmd: string
    var nrRows: int
    var nrColumns: int

    function Current(): Settings
      reads this
    {
      Settings(scriptout, scriptname, shellcmd, nrRows, nrColumns)
    }

    constructor ()
      ensures Current() == DEFAULTS
    {
      scriptout := 0;
      scriptname := None;
      shellcmd := "/bin/bash";
      nrRows := 25;
      nrColumns := 80;
    }

    /**
     * The for loop of main over argv[1..]: it sets the globals item by item
     * and returns the lines printed on standard error.
     */
    method ParseArguments(argv: seq<string>) returns (errors: seq<Diagnostic>)
      modifies this
      ensures Current() == Apply(old(Current()), Items(argv, 1))
      ensures errors == Messages(if argv == [] then "" else argv[0], Items(argv, 1))
    {
      ghost var start := Current();
      var program := if argv == [] then "" else argv[0];
      ghost var finalSettings := Apply(start, Items(argv, 1));
      ghost var finalMessages := Messages(program, Items(argv, 1));
      errors := [];
      var i := 1;
      while i < |argv|
        invariant 1 <= i
        invariant Apply(Current(), Items(argv, i)) == finalSettings
        invariant errors + Messages(program, Items(argv, i)) == finalMessages
        decreases |argv| - i
      {
        var arg := argv[i];
        ItemsUnfold(argv, i);
        ghost var before := Current();
        ghost var item := Items(argv, i)[0];
        ghost var rest := Items(argv, i)[1..];
        assert Items(argv, i) == [item] + rest;
        ApplyCons(before, item, rest);
        MessagesCons(program, item, rest);
        if |arg| > 0 && arg[0] == '-' {
          var flag := FlagOf(arg);
          if i + 1 < |argv| && flag.Some? {
            assert item == Pair(flag.value, argv[i + 1]) && rest == Items(argv, i + 2);
            match flag.value {
              case Script =>
                scriptname := Some(argv[i + 1]);
                scriptout := 1;
              case Shell =>
                shellcmd := argv[i + 1];
              case Rows =>
                nrRows := UShort(Atoi(argv[i + 1]));
              case Columns =>
                nrColumns := UShort(Atoi(argv[i + 1]));
            }
            assert Current() == Step(before, item);
            i := i + 2;
            continue;
          }
          assert item == Unknown(arg) && rest == Items(argv, i + 1);
          errors := errors + [UnknownArgument(program, arg)];
        } else {
          assert item == Plain(arg) && rest == Items(argv, i + 1);
        }
        i := i + 1;
      }
    }
  }

  lemma ApplyCons(s: Settings, item: Item, rest: seq<Item>)
    ensures Apply(s, [item] + rest) == Apply(Step(s, item), rest)
  {
    assert ([item] + rest)[1..] == rest;
  }

  lemma MessagesCons(program: string, item: Item, rest: seq<Item>)
    ensures item.Unknown? ==> Messages(program, [item] + rest) == [UnknownArgument(program, item.arg)] + Messages(program, rest)
    ensures !item.Unknown? ==> Messages(program, [item] + rest) == Messages(program, rest)
  {
    assert ([item] + rest)[1..] == rest;
    if !item.Unknown? {
      assert [] + Messages(program, rest) == Messages(program, rest);
    }
  }

  // ---------------------------------------------------------------------
  // Raw mode
  // ---------------------------------------------------------------------

  /** The local-mode flags and control-character slots involved (Linux values). */
  const ISIG: bv32 := 0x01
  const ICANON: bv32 := 0x02
  const ECHO: bv32 := 0x08
  const VTIME := 5
  const VMIN := 6
  const NCCS := 32

  const RAW_CLEARED: bv32 := ISIG | ECHO | ICANON

  datatype TermiosValue = TermiosValue(iflag: bv32, oflag: bv32, cflag: bv32, lflag: bv32, cc: seq<int>)

  /**
   * The raw-mode attributes script derives: ISIG, ECHO and ICANON cleared,
   * a read returns after one byte without a timer, and nothing else changes.
   */
  function Raw(v: TermiosValue): (r: TermiosValue)
    requires |v.cc| == NCCS
    ensures r.lflag & RAW_CLEARED == 0
    ensures r.lflag & !RAW_CLEARED == v.lflag & !RAW_CLEARED
    ensures r.iflag == v.iflag && r.oflag == v.oflag && r.cflag == v.cflag
    ensures |r.cc| == NCCS && r.cc[VMIN] == 1 && r.cc[VTIME] == 0
    ensures forall k :: 0 <= k < NCCS && k != VMIN && k != VTIME ==> r.cc[k] == v.cc[k]
  {
    v.(lflag := v.lflag & !(ISIG | ECHO | ICANON), cc := v.cc[VMIN := 1][VTIME := 0])
  }

  /** Raw mode is idempotent. */
  lemma RawIdempotent(v: TermiosValue)
    requires |v.cc| == NCCS
    ensures Raw(Raw(v)) == Raw(v)
  {
    var r := Raw(v);
    var rr := Raw(r);
    ClearIdempotent(v.lflag);
    assert rr.lflag == r.lflag;
    assert rr.cc == r.cc by {
      forall k | 0 <= k < NCCS
        ensures rr.cc[k] == r.cc[k]
      {
      }
    }
  }

  lemma ClearIdempotent(x: bv32)
    ensures (x & !(ISIG | ECHO | ICANON)) & !(ISIG | ECHO | ICANON) == x & !(ISIG | ECHO | ICANON)
  {
  }

  /** struct termios attr of script, changed in place. */
  class Termios {
    var iflag: bv32
    var oflag: bv32
    var cflag: bv32
    var lflag: bv32
    const cc: array<int>

    function Value(): TermiosValue
      reads this, cc
    {
      TermiosValue(iflag, oflag, cflag, lflag, cc[..])
    }

    constructor (v: TermiosValue)
      requires |v.cc| == NCCS
      ensures Value() == v && fresh(cc)
    {
      iflag := v.iflag;
      oflag := v.oflag;
      cflag := v.cflag;
      lflag := v.lflag;
      cc := new int[NCCS](k requires 0 <= k < NCCS => v.cc[k]);
    }

    /** The three assignments of script before tcsetattr. */
    method MakeRaw()
      requires cc.Length == NCCS
      modifies this, cc
      ensures Value() == Raw(old(Value()))
    {
      cc[VMIN] := 1;
      cc[VTIME] := 0;
      lflag := lflag & !(ISIG | ECHO | ICANON);
    }
  }

  // ---------------------------------------------------------------------
  // Relay
  // ---------------------------------------------------------------------

  /**
   * One pass of the select loop: select's result, which descriptors are
   * ready, and the bytes read from each ready one.
   */
  datatype Round = Round(count: int, stdinReady: bool, masterReady: bool, stdinData: seq<bv8>, masterData: seq<bv8>)

  datatype Write = ToMaster(data: seq<bv8>) | ToFile(data: seq<bv8>) | ToStdout(data: seq<bv8>)

  /** The number of leading rounds whose select result is positive: those the loop serves. */
  function LiveRounds(rounds: seq<Round>): (n: nat)
    ensures n <= |rounds|
    ensures forall k :: 0 <= k < n ==> rounds[k].count > 0
    ensures n < |rounds| ==> rounds[n].count <= 0
  {
    if rounds == [] || rounds[0].count <= 0 then 0 else 1 + LiveRounds(rounds[1..])
  }

  /** The writes of one round: standard input first, then the master to the transcript and standard output. */
  function RoundWrites(r: Round, transcript: bool): seq<Write>
  {
    (if r.stdinReady then [ToMaster(r.stdinData)] else [])
    + (if r.masterReady then (if transcript then [ToFile(r.masterData)] else []) + [ToStdout(r.masterData)] else [])
  }

  function WritesOf(rounds: seq<Round>, transcript: bool): seq<Write>
  {
    if rounds == [] then [] else WritesOf(rounds[..|rounds| - 1], transcript) + RoundWrites(rounds[|rounds| - 1], transcript)
  }

  /**
   * The loop of script: while select reports ready descriptors, standard
   * input goes to the master, and the master's output goes to the transcript
   * (when the -o file was opened) and to standard output.
   */
  method Relay(rounds: seq<Round>, scriptout: int, openResult: int) returns (writes: seq<Write>)
    ensures writes == WritesOf(rounds[..LiveRounds(rounds)], scriptout == 1 && openResult >= 0)
  {
    var ofile := -1;
    if scriptout == 1 {
      ofile := openResult;
    }
    ghost var transcript := scriptout == 1 && openResult >= 0;
    writes := [];
    var i := 0;
    while i < |rounds| && rounds[i].count > 0
      invariant i <= LiveRounds(rounds)
      invariant writes == WritesOf(rounds[..i], transcript)
    {
      var r := rounds[i];
      ghost var before := writes;
      if r.stdinReady {
        writes := writes + [ToMaster(r.stdinData)];
      }
      ghost var afterStdin := writes;
      if r.masterReady {
        if ofile >= 0 {
          writes := writes + [ToFile(r.masterData)];
        }
        writes := writes + [ToStdout(r.masterData)];
      }
      RoundSplit(r, transcript, before, afterStdin, writes);
      WritesOfNext(rounds, i, transcript);
      i := i + 1;
    }
  }

  /** The writes of the first i + 1 rounds: those of the first i, then those of round i. */
  lemma WritesOfNext(rounds: seq<Round>, i: nat, transcript: bool)
    requires i < |rounds|
    ensures WritesOf(rounds[..i + 1], transcript) == WritesOf(rounds[..i], transcript) + RoundWrites(rounds[i], transcript)
  {
    assert rounds[..i + 1][..i] == rounds[..i];
  }

  lemma RoundSplit(r: Round, transcript: bool, before: seq<Write>, afterStdin: seq<Write>, after: seq<Write>)
    requires afterStdin == before + (if r.stdinReady then [ToMaster(r.stdinData)] else [])
    requires after == afterStdin + (if r.masterReady then (if transcript then [ToFile(r.masterData)] else []) + [ToStdout(r.masterData)] else [])
    ensures after == before + RoundWrites(r, transcript)
  {
  }

  /** The bytes read from standard input, and from the master, over the rounds. */
  function StdinRead(rounds: seq<Round>): seq<bv8>
  {
    if rounds == [] then []
    else StdinRead(rounds[..|rounds| - 1]) + (var r := rounds[|rounds| - 1]; if r.stdinReady then r.stdinData else [])
  }

  function MasterRead(rounds: seq<Round>): seq<bv8>
  {
    if rounds == [] then []
    else MasterRead(rounds[..|rounds| - 1]) + (var r := rounds[|rounds| - 1]; if r.masterReady then r.masterData else [])
  }

  /** The bytes that reached each destination. */
  function Sent(writes: seq<Write>, dest: int): seq<bv8>
    requires 0 <= dest < 3
  {
    if writes == [] then []
    else
      var w := writes[|writes| - 1];
      Sent(writes[..|writes| - 1], dest)
      + (if (dest == 0 && w.ToMaster?) || (dest == 1 && w.ToFile?) || (dest == 2 && w.ToStdout?) then w.data else [])
  }

  const MASTER := 0
  const TRANSCRIPT := 1
  const STDOUT := 2

  lemma {:induction false} SentConcat(a: seq<Write>, b: seq<Write>, dest: int)
    requires 0 <= dest < 3
    ensures Sent(a + b, dest) == Sent(a, dest) + Sent(b, dest)
    decreases |b|
  {
    if b == [] {
      assert a + b == a;
    } else {
      var n := |b| - 1;
      assert (a + b)[..|a + b| - 1] == a + b[..n];
      SentConcat(a, b[..n], dest);
    }
  }

  /** A single write sends its data to its own destination only. */
  lemma SentOne(w: Write, dest: int)
    requires 0 <= dest < 3
    ensures Sent([w], dest) == if (dest == 0 && w.ToMaster?) || (dest == 1 && w.ToFile?) || (dest == 2 && w.ToStdout?) then w.data else []
  {
    assert [w][..0] == [];
  }

  /** The bytes one round sends to one destination, in terms of its writes. */
  lemma RoundSentTo(r: Round, transcript: bool, dest: int)
    requires 0 <= dest < 3
    ensures Sent(RoundWrites(r, transcript), dest)
         == (if r.stdinReady then Sent([ToMaster(r.stdinData)], dest) else [])
          + (if r.masterReady && transcript then Sent([ToFile(r.masterData)], dest) else [])
          + (if r.masterReady then Sent([ToStdout(r.masterData)], dest) else [])
  {
    var a := if r.stdinReady then [ToMaster(r.stdinData)] else [];
    var f := if transcript then [ToFile(r.masterData)] else [];
    var b := if r.masterReady then f + [ToStdout(r.masterData)] else [];
    assert RoundWrites(r, transcript) == a + b;
    SentConcat(a, b, dest);
    SentConcat(f, [ToStdout(r.masterData)], dest);
  }

  /** The bytes one round sends to each destination. */
  lemma RoundSent(r: Round, transcript: bool)
    ensures Sent(RoundWrites(r, transcript), MASTER) == if r.stdinReady then r.stdinData else []
    ensures Sent(RoundWrites(r, transcript), STDOUT) == if r.masterReady then r.masterData else []
    ensures Sent(RoundWrites(r, transcript), TRANSCRIPT) == if r.masterReady && transcript then r.masterData else []
  {
    RoundSentVia(r, transcript, MASTER);
    RoundSentVia(r, transcript, TRANSCRIPT);
    RoundSentVia(r, transcript, STDOUT);
  }

  lemma RoundSentVia(r: Round, transcript: bool, dest: int)
    requires 0 <= dest < 3
    ensures Sent(RoundWrites(r, transcript), dest)
         == (if r.stdinReady && dest == 0 then r.stdinData else [])
          + (if r.masterReady && transcript && dest == 1 then r.masterData else [])
          + (if r.masterReady && dest == 2 then r.masterData else [])
  {
    RoundSentTo(r, transcript, dest);
    SentOne(ToMaster(r.stdinData), dest);
    SentOne(ToFile(r.masterData), dest);
    SentOne(ToStdout(r.masterData), dest);
  }

  /**
   * The routing of the relay: the master receives exactly the bytes read
   * from standard input, standard output exactly the bytes read from the
   * master, and the transcript the same bytes as standard output when it
   * is on and nothing otherwise.
   */
  lemma {:induction false} RelayRoutes(rounds: seq<Round>, transcript: bool)
    ensures Sent(WritesOf(rounds, transcript), MASTER) == StdinRead(rounds)
    ensures Sent(WritesOf(rounds, transcript), STDOUT) == MasterRead(rounds)
    ensures Sent(WritesOf(rounds, transcript), TRANSCRIPT) == if transcript then MasterRead(rounds) else []
    decreases |rounds|
  {
    if rounds != [] {
      var init := rounds[..|rounds| - 1];
      var r := rounds[|rounds| - 1];
      RelayRoutes(init, transcript);
      RoundSent(r, transcript);
      var w := RoundWrites(r, transcript);
      SentConcat(WritesOf(init, transcript), w, MASTER);
      SentConcat(WritesOf(init, transcript), w, STDOUT);
      SentConcat(WritesOf(init, transcript), w, TRANSCRIPT);
    }
  }
}
