/**
 * The escape-sequence table and its compilation into the search tree.
 *
 * A table row is a short list of heterogeneous entries (strings, single
 * characters, tokens, argument kinds, null), decoded by its number of
 * entries: (sequence, token), (prefix, option, token), (sequence, token,
 * description) or (prefix, option, terminator-or-null, token, ...).
 */
module TokenTable {
  import opened Wrappers
  import opened JavaLang
  import opened Tokens
  import opened ByteTokenDef
  import opened SearchTrees

  /** One element of a table row, with the dynamic type the row element has. */
  datatype Entry = Str(s: string) | Chr(c: char) | Tok(t: Token) | Opt(o: TokenOption) | Null

  type Row = seq<Entry>

  /** Object.toString() of a row element; null has none. */
  function EntryString(e: Entry): (r: Result<string>)
    ensures r.Err? <==> e.Null?
    ensures r.Err? ==> r.error == NullPointer
  {
    match e
    case Str(s) => Ok(s)
    case Chr(c) => Ok([c])
    case Tok(t) => Ok(TokenName(t))
    case Opt(o) => Ok(OptionName(o))
    case Null => Err(NullPointer)
  }

  /** The UTF-8 bytes of a string, as signed Java bytes. */
  function StringBytes(s: string): (b: seq<jbyte>)
    ensures |b| == |Utf8(s)|
    ensures forall i :: 0 <= i < |b| ==> LowByte(b[i]) == Utf8(s)[i]
  {
    var u := Utf8(s);
    seq(|u|, i requires 0 <= i < |u| => ToByte(u[i]))
  }

  /** getStringBytes: toString() of the element, then its UTF-8 bytes. */
  function EntryBytes(e: Entry): (r: Result<seq<jbyte>>)
    ensures r.Err? <==> e.Null?
  {
    match EntryString(e)
    case Ok(s) => Ok(StringBytes(s))
    case Err(x) => Err(x)
  }

  /** The cast (Token) x: null stays null, anything else but a token fails. */
  function CastToken(e: Entry): (r: Result<Option<Token>>)
    ensures r.Err? <==> !(e.Tok? || e.Null?)
    ensures e.Tok? ==> r == Ok(Some(e.t))
    ensures e.Null? ==> r == Ok(None)
  {
    match e
    case Tok(t) => Ok(Some(t))
    case Null => Ok(None)
    case _ => Err(ClassCast)
  }

  /** The cast (TokenOption) x. */
  function CastOption(e: Entry): (r: Result<Option<TokenOption>>)
    ensures r.Err? <==> !(e.Opt? || e.Null?)
  {
    match e
    case Opt(o) => Ok(Some(o))
    case Null => Ok(None)
    case _ => Err(ClassCast)
  }

  /** The cast (String) x. */
  function CastString(e: Entry): (r: Result<Option<string>>)
    ensures r.Err? <==> !(e.Str? || e.Null?)
  {
    match e
    case Str(s) => Ok(Some(s))
    case Null => Ok(None)
    case _ => Err(ClassCast)
  }

  /** A decoded row before the null-token check: prefix, option, terminator, token, description. */
  datatype Fields = Fields(chars: seq<jbyte>, option: Option<TokenOption>, terminator: Option<seq<jbyte>>,
                           token: Option<Token>, description: Option<string>)

  /** The arity-dependent part of addPattern; `description` is the last element's text. */
  function DecodeFields(def: Row, description: string): Result<Fields>
    requires |def| > 0
  {
    if |def| == 2 then
      var chars :- EntryBytes(def[0]);
      var token :- CastToken(def[1]);
      Ok(Fields(chars, None, None, token, Some(description)))
    else if |def| == 3 then
      var chars :- EntryBytes(def[0]);
      if def[1].Opt? then
        var token :- CastToken(def[2]);
        Ok(Fields(chars, Some(def[1].o), None, token, Some(description)))
      else if def[1].Tok? then
        var desc :- CastString(def[2]);
        Ok(Fields(chars, None, None, Some(def[1].t), desc))
      else
        Ok(Fields(chars, None, None, None, Some(description)))
    else if |def| >= 4 then
      var chars :- EntryBytes(def[0]);
      var option :- CastOption(def[1]);
      var terminator := if def[2].Null? then None else Some(EntryBytes(def[2]).value);
      var token :- CastToken(def[3]);
      Ok(Fields(chars, option, terminator, token, Some(description)))
    else
      Ok(Fields([], None, None, None, Some(description)))
  }

  /** Where a row of each arity keeps its token. */
  function TokenSlot(def: Row): (i: nat)
    requires |def| >= 2
    ensures i < |def|
  {
    if |def| == 2 then 1
    else if |def| == 3 then (if def[1].Opt? then 2 else 1)
    else 3
  }

  /**
   * addPattern's decoding of one row: None for an empty row (skipped), the
   * token definition otherwise, or the exception the row raises.
   */
  function DecodeRow(def: Row): (r: Result<Option<TokenDef>>)
    ensures def == [] ==> r == Ok(None)
    ensures r.Ok? ==> (r.value.None? <==> def == [])
    ensures r.Ok? && def != [] ==> |def| >= 2 && def[TokenSlot(def)] == Tok(r.value.value.token)
    ensures r.Ok? && def != [] ==> EntryBytes(def[0]) == Ok(r.value.value.prefix)
    ensures r.Ok? && def != [] ==> (r.value.value.option.Some? <==> def[1].Opt?)
    ensures r.Ok? && |def| >= 4 ==> (r.value.value.terminator.None? <==> def[2].Null?)
    ensures r.Ok? && |def| < 4 ==> r.value.None? || r.value.value.terminator.None?
    ensures def != [] && def[|def| - 1].Null? ==> r == Err(NullPointer)
  {
    if def == [] then Ok(None)
    else
      var description :- EntryString(def[|def| - 1]);
      var f :- DecodeFields(def, description);
      if f.token.None? then Err(InvalidConfiguration)
      else Ok(Some(CreateFrom(f.chars, f.option, f.terminator, f.token.value, f.description.GetOr(""))))
  }

  /** A row whose token slot is empty or not a token is rejected, and so is a one-element row. */
  lemma NoTokenRejected(def: Row)
    requires |def| > 0 && !def[|def| - 1].Null? && !def[0].Null?
    requires |def| == 1 || (|def| >= 4 && (def[1].Opt? || def[1].Null?) && def[3].Null?)
    ensures DecodeRow(def) == Err(InvalidConfiguration)
  {
  }

  /** The rows that tokenDefs lists, in order; the last row is empty. */
  const TOKEN_DEFS: seq<Row> := [
      [Chr('\U{0}'), Tok(NUL)],
      [Chr('\U{1}'), Tok(SOH)],
      [Chr('\U{3}'), Tok(ETX)],
      [Chr('\U{2}'), Tok(STX)],
      [Chr('\U{4}'), Tok(EOT)],
      [Chr('\U{5}'), Tok(ENQ)],
      [Chr('\U{6}'), Tok(ACK)],
      [Chr('\U{7}'), Tok(BEL)],
      [Chr('\U{8}'), Tok(BS)],
      [Chr('\U{9}'), Tok(HT)],
      [Chr('\U{A}'), Tok(LF)],
      [Chr('\U{B}'), Tok(VT)],
      [Chr('\U{C}'), Tok(FF)],
      [Chr('\U{D}'), Tok(CR)],
      [Chr('\U{F}'), Tok(CHARSET_G0)],
      [Chr('\U{E}'), Tok(CHARSET_G1)],
      [Chr('\U{18}'), Tok(CAN)],
      [Chr('\U{1A}'), Tok(SUB)],
      [Chr('\U{1B}'), Tok(ESC)],
      [Chr('\U{11}'), Tok(XON)],
      [Chr('\U{13}'), Tok(XOFF)],
      [Chr('\U{7F}'), Tok(DEL)],
      [Str("\U{1B}7"), Tok(SAVE_CURSOR)],
      [Str("\U{1B}8"), Tok(RESTORE_CURSOR)],
      [Str("\U{1B}D"), Tok(IND_INDEX)],
      [Str("\U{1B}E"), Tok(NEL_NEXT_LINE)],
      [Str("\U{1B}H"), Tok(HTS_TAB_SET)],
      [Str("\U{1B}M"), Tok(RI_REVERSE_INDEX)],
      [Str("\U{1B}N"), Tok(UNSUPPORTED), Str("Single Shift Select G2 CharSet")],
      [Str("\U{1B}O"), Tok(UNSUPPORTED), Str("Single Shift Select G3 CharSet")],
      [Str("\U{1B}V"), Tok(SPA_START_OF_GUARDED_AREA)],
      [Str("\U{1B}W"), Tok(EPA_END_OF_GUARDER_AREA)],
      [Str("\U{1B}X"), Tok(SOS_START_OF_STRING)],
      [Str("\U{1B}Z"), Tok(DECID_SEND_TERM_ID)],
      [Str("\U{1B}\\"), Tok(ST_END_OF_STRING)],
      [Str("\U{1B}^"), Tok(PM_PRIVACY_MESSAGE)],
      [Str("\U{1B}="), Tok(APPLICATION_KEYPAD)],
      [Str("\U{1B}>"), Tok(NUMERIC_KEYPAD)],
      [Str("\U{1B}<"), Tok(EXIT_VT52_MODE)],
      [Str("\U{1B}("), Opt(CharSetParam), Tok(CHARSET_G0_DES)],
      [Str("\U{1B})"), Opt(CharSetParam), Tok(CHARSET_G1_DES)],
      [Str("\U{1B}*"), Opt(CharSetParam), Tok(CHARSET_G2_DES)],
      [Str("\U{1B}+"), Opt(CharSetParam), Tok(CHARSET_G3_DES)],
      [Str("\U{1B}%@"), Tok(UNSUPPORTED), Str("Select Default Charset ISO 8859-1")],
      [Str("\U{1B}%G"), Tok(UNSUPPORTED), Str("Select UTF8 Charset")],
      [Str("\U{1B}#3"), Tok(UNSUPPORTED), Str("DEC Double height, top half")],
      [Str("\U{1B}#4"), Tok(UNSUPPORTED), Str("DEC Double height, bottom half")],
      [Str("\U{1B}#5"), Tok(UNSUPPORTED), Str("DEC Single width line")],
      [Str("\U{1B}#6"), Tok(UNSUPPORTED), Str("DEC double width line")],
      [Str("\U{1B} F"), Tok(UNSUPPORTED), Str("7 Bits Controls")],
      [Str("\U{1B} G"), Tok(UNSUPPORTED), Str("8 Bits Controls")],
      [Str("\U{1B} L"), Tok(UNSUPPORTED), Str("Set ANSI conformance level 1 - vt100")],
      [Str("\U{1B} M"), Tok(UNSUPPORTED), Str("Set ANSI conformance level 2 - vt200")],
      [Str("\U{1B} N"), Tok(UNSUPPORTED), Str("Set ANSI conformance level 3 - vt300")],
      [Str("\U{1B}#8"), Tok(DEC_SCREEN_ALIGNMENT)],
      [Str("\U{1B}P"), Opt(StringParam), Str("\U{1B}\\"), Tok(DCS_DEVICE_CONTROL_STRING)],
      [Str("\U{1B}_"), Opt(StringParam), Str("\U{1B}\\"), Tok(APP_PROGRAM_CMD)],
      [Str("\U{1B}]"), Opt(GraphMode), Chr('\U{FFFF}'), Tok(OSC_GRAPHMODE_PREFIX)],
      [Str("\U{1B}]"), Opt(GraphMode), Chr('\U{7}'), Tok(OSC_GRAPHMODE)],
      [Str("\U{1B}]"), Opt(GraphMode), Str("\U{1B}\\"), Tok(OSC_GRAPHMODE)],
      [Str("\U{1B}["), Opt(Integers), Chr('\U{FFFF}'), Tok(CSI_PREFIX), Str("Start of CSI Prefix")],
      [Str("\U{1B}[?"), Opt(Integers), Chr('h'), Tok(DEC_SETMODE)],
      [Str("\U{1B}[?"), Opt(Integers), Chr('l'), Tok(DEC_RESETMODE)],
      [Str("\U{1B}[>"), Opt(Integers), Chr('c'), Tok(REQ_SECONDARY_DA)],
      [Str("\U{1B}[>"), Opt(Integers), Chr('q'), Tok(REQ_XTVERSION)],
      [Str("\U{1B}[="), Opt(Integers), Chr('c'), Tok(REQ_TERTIARY_DA)],
      [Str("\U{1B}[>"), Opt(Integers), Chr('m'), Tok(XTERM_RESET_MODIFIERS)],
      [Str("\U{1B}[?"), Opt(Integers), Chr('m'), Tok(XTERM_GET_MODIFIERS)],
      [Str("\U{1B}[?"), Opt(Integers), Chr('S'), Tok(XTERM_SETGET_GRAPHICS), Str("XTSMGRAPHICS")],
      [Str("\U{1B}[>"), Opt(Integers), Chr('S'), Tok(UNSUPPORTED)],
      [Str("\U{1B}[?"), Opt(Integers), Str("$p"), Tok(UNSUPPORTED), Str("Request DEC private mode (DECRQM)")],
      [Str("\U{1B}[?"), Opt(Integers), Chr('u'), Tok(UNSUPPORTED)],
      [Str("\U{1B}[="), Opt(Integers), Chr('u'), Tok(UNSUPPORTED)],
      [Str("\U{1B}[>"), Opt(Integers), Chr('u'), Tok(UNSUPPORTED)],
      [Str("\U{1B}[?"), Opt(Integers), Chr('r'), Tok(UNSUPPORTED)],
      [Str("\U{1B}[="), Opt(Integers), Chr('r'), Tok(UNSUPPORTED)],
      [Str("\U{1B}[>"), Opt(Integers), Chr('r'), Tok(UNSUPPORTED)],
      [Str("\U{1B}[?"), Opt(Integers), Chr('s'), Tok(UNSUPPORTED)],
      [Str("\U{1B}[="), Opt(Integers), Chr('s'), Tok(UNSUPPORTED)],
      [Str("\U{1B}[>"), Opt(Integers), Chr('s'), Tok(UNSUPPORTED)],
      [Str("\U{1B}["), Opt(Integers), Chr('@'), Tok(INSERT_BLANK_CHARS)],
      [Str("\U{1B}["), Opt(Integers), Chr('A'), Tok(UP)],
      [Str("\U{1B}["), Opt(Integers), Chr('B'), Tok(DOWN)],
      [Str("\U{1B}["), Opt(Integers), Chr('C'), Tok(RIGHT)],
      [Str("\U{1B}["), Opt(Integers), Chr('D'), Tok(LEFT)],
      [Str("\U{1B}["), Opt(Integers), Chr('E'), Tok(NEL_NEXT_LINE)],
      [Str("\U{1B}["), Opt(Integers), Chr('F'), Tok(PRECEDING_LINE)],
      [Str("\U{1B}["), Opt(Integers), Chr('G'), Tok(SET_COLUMN)],
      [Str("\U{1B}["), Opt(Integers), Chr('H'), Tok(SET_CURSOR)],
      [Str("\U{1B}["), Opt(Integers), Chr('I'), Tok(FORWARD_TABS)],
      [Str("\U{1B}["), Opt(Integers), Chr('J'), Tok(SCREEN_ERASE)],
      [Str("\U{1B}["), Opt(Integers), Chr('K'), Tok(LINE_ERASE)],
      [Str("\U{1B}["), Opt(Integers), Chr('L'), Tok(INSERT_LINES)],
      [Str("\U{1B}["), Opt(Integers), Chr('M'), Tok(DELETE_LINES)],
      [Str("\U{1B}["), Opt(Integers), Chr('P'), Tok(DEL_CHAR)],
      [Str("\U{1B}["), Opt(Integers), Chr('S'), Tok(SCROLL_UP)],
      [Str("\U{1B}["), Opt(Integers), Chr('T'), Tok(SCROLL_DOWN_OR_MOUSETRACK)],
      [Str("\U{1B}["), Opt(Integers), Chr('X'), Tok(ERASE_CHARS)],
      [Str("\U{1B}["), Opt(Integers), Chr('Z'), Tok(BACKWARD_TABS)],
      [Str("\U{1B}["), Opt(Integers), Chr('^'), Tok(SCROLL_DOWN)],
      [Str("\U{1B}["), Opt(Integers), Chr('`'), Tok(UNSUPPORTED)],
      [Str("\U{1B}["), Opt(Integers), Chr('a'), Tok(UNSUPPORTED)],
      [Str("\U{1B}["), Opt(Integers), Chr('b'), Tok(CHARACTER_REPEAT)],
      [Str("\U{1B}["), Opt(Integers), Chr('c'), Tok(REQ_PRIMARY_DA)],
      [Str("\U{1B}["), Opt(Integers), Chr('d'), Tok(SET_ROW)],
      [Str("\U{1B}["), Opt(Integers), Chr('f'), Tok(SET_CURSOR)],
      [Str("\U{1B}["), Opt(Integers), Chr('g'), Tok(HTC_TAB_CLEAR)],
      [Str("\U{1B}["), Opt(Integers), Chr('h'), Tok(SET_MODE)],
      [Str("\U{1B}["), Opt(Integers), Chr('i'), Tok(UNSUPPORTED), Str("Media Copy")],
      [Str("\U{1B}["), Opt(Integers), Chr('l'), Tok(RESET_MODE)],
      [Str("\U{1B}["), Opt(Integers), Chr('m'), Tok(CHARACTER_ATTRS)],
      [Str("\U{1B}["), Opt(Integers), Chr('n'), Tok(DEVICE_STATUS)],
      [Str("\U{1B}["), Opt(Integers), Chr('r'), Tok(SET_REGION), Str("DECSTBM \U{2013} Set Top and Bottom Margin")],
      [Str("\U{1B}["), Opt(Integers), Chr('t'), Tok(XTERM_WIN_MANIPULATION), Str("Window-Manipulation")],
      [Str("\U{1B}["), Opt(Integers), Chr('q'), Tok(DEC_LED_SET), Str("DEC_LED_SET")],
      [Str("\U{1B}["), Opt(Integers), Chr('y'), Tok(DEC_LED_TEST), Str("DEC_LED_TEST")],
      [Str("\U{1B}["), Opt(Integers), Str("%m"), Tok(UNSUPPORTED), Str("VI '%m' unknown")],
      [Str("\U{1B}]\U{1B}("), Opt(CharSetParam), Null, Tok(CHARSET_G0_DES), Str("YaST ncurses unknown")],
      []
  ]

  /** A decoded definition is rejected by the tree when an earlier key has its key as a prefix. */
  predicate LeafConflict(ds: seq<TokenDef>, d: TokenDef)
  {
    |Key(d)| > 0 && Through(ds, Key(d)) != []
  }

  /**
   * compile over `rows`, starting from the definitions `ds` already added:
   * the definitions added, in order, and the first exception raised. A
   * definition the tree rejects has already been appended to both lists.
   */
  function CompileRows(rows: seq<Row>, ds: seq<TokenDef>): (r: (seq<TokenDef>, Result<()>))
    ensures |r.0| >= |ds| && r.0[..|ds|] == ds
    decreases |rows|
  {
    if rows == [] then (ds, Ok(()))
    else
      match DecodeRow(rows[0])
      case Err(e) => (ds, Err(e))
      case Ok(None) => CompileRows(rows[1..], ds)
      case Ok(Some(d)) =>
        if LeafConflict(ds, d) then (ds + [d], Err(InvalidConfiguration))
        else
          var r := CompileRows(rows[1..], ds + [d]);
          assert (ds + [d])[..|ds|] == ds;
          assert r.0[..|ds|] == r.0[..|ds| + 1][..|ds|];
          r
  }

  /** The definitions every row decodes to, skipping empty rows, or the first decoding error. */
  function DecodeAll(rows: seq<Row>): Result<seq<TokenDef>>
    decreases |rows|
  {
    if rows == [] then Ok([])
    else
      var d :- DecodeRow(rows[0]);
      var rest :- DecodeAll(rows[1..]);
      Ok((if d.Some? then [d.value] else []) + rest)
  }

  /** One row that decodes to nothing: both compile and DecodeAll move on to the next row. */
  lemma SkipEmptyRow(rows: seq<Row>, ds: seq<TokenDef>)
    requires rows != [] && DecodeRow(rows[0]) == Ok(None)
    ensures CompileRows(rows, ds) == CompileRows(rows[1..], ds)
    ensures DecodeAll(rows[1..]).Ok? ==> DecodeAll(rows) == DecodeAll(rows[1..])
  {
    if DecodeAll(rows[1..]).Ok? {
      assert [] + DecodeAll(rows[1..]).value == DecodeAll(rows[1..]).value;
    }
  }

  /** One row that decodes to d and is accepted: compile continues with d appended. */
  lemma AddDecodedRow(rows: seq<Row>, ds: seq<TokenDef>, d: TokenDef)
    requires rows != [] && DecodeRow(rows[0]) == Ok(Some(d))
    requires CompileRows(rows, ds).1.Ok?
    ensures CompileRows(rows, ds) == CompileRows(rows[1..], ds + [d])
    ensures DecodeAll(rows[1..]).Ok? ==> DecodeAll(rows) == Ok([d] + DecodeAll(rows[1..]).value)
  {
  }

  /** A successful compile adds exactly the decoded rows, in table order. */
  lemma {:induction false} CompileAddsAllRows(rows: seq<Row>, ds: seq<TokenDef>)
    requires CompileRows(rows, ds).1.Ok?
    ensures DecodeAll(rows).Ok?
    ensures CompileRows(rows, ds).0 == ds + DecodeAll(rows).value
    decreases |rows|
  {
    if rows != [] {
      match DecodeRow(rows[0])
      case Ok(None) =>
        SkipEmptyRow(rows, ds);
        CompileAddsAllRows(rows[1..], ds);
      case Ok(Some(d)) =>
        AddDecodedRow(rows, ds, d);
        CompileAddsAllRows(rows[1..], ds + [d]);
        ConcatAssoc(ds, [d], DecodeAll(rows[1..]).value);
    }
  }

  lemma ConcatAssoc<T>(a: seq<T>, b: seq<T>, c: seq<T>)
    ensures a + b + c == a + (b + c)
  {
  }

  /** Compile stops at the first row that fails to decode, with that row's exception. */
  lemma {:induction false} CompileStopsAtBadRow(rows: seq<Row>, ds: seq<TokenDef>, i: nat)
    requires i < |rows| && DecodeRow(rows[i]).Err?
    requires forall j :: 0 <= j < i ==> DecodeRow(rows[j]).Ok?
    ensures CompileRows(rows, ds).1.Err?
    decreases i
  {
    if i > 0 {
      match DecodeRow(rows[0])
      case Ok(None) =>
        CompileStopsAtBadRow(rows[1..], ds, i - 1);
      case Ok(Some(d)) =>
        if !LeafConflict(ds, d) {
          CompileStopsAtBadRow(rows[1..], ds + [d], i - 1);
        }
    }
  }

  /**
   * findCharToken's search: the first non-empty row whose first element
   * prints as the single character c, None if there is none, and a
   * NullPointer error if a null first element is met before.
   */
  function FirstCharRow(table: seq<Row>, c: char): (r: Result<Option<Row>>)
    decreases |table|
  {
    if table == [] then Ok(None)
    else if table[0] == [] then FirstCharRow(table[1..], c)
    else
      match EntryString(table[0][0])
      case Err(e) => Err(e)
      case Ok(s) => if |s| == 1 && s[0] == c then Ok(Some(table[0])) else FirstCharRow(table[1..], c)
  }

  predicate IsCharRow(row: Row, c: char)
  {
    row != [] && EntryString(row[0]).Ok? && EntryString(row[0]).value == [c]
  }

  /** FirstCharRow finds the first matching row, and nothing exactly when no row matches. */
  lemma {:induction false} FirstCharRowSpec(table: seq<Row>, c: char)
    requires forall i :: 0 <= i < |table| && table[i] != [] ==> !table[i][0].Null?
    ensures FirstCharRow(table, c).Ok?
    ensures FirstCharRow(table, c).value.None? <==> forall i :: 0 <= i < |table| ==> !IsCharRow(table[i], c)
    ensures FirstCharRow(table, c).value.Some? ==>
              exists i :: 0 <= i < |table| && table[i] == FirstCharRow(table, c).value.value && IsCharRow(table[i], c)
                          && forall j :: 0 <= j < i ==> !IsCharRow(table[j], c)
    decreases |table|
  {
    if table != [] {
      FirstCharRowSpec(table[1..], c);
      assert forall i :: 0 < i < |table| ==> table[i] == table[1..][i - 1];
      if !IsCharRow(table[0], c) && FirstCharRow(table[1..], c).value.Some? {
        var r := FirstCharRow(table[1..], c).value.value;
        var k :| 0 <= k < |table[1..]| && table[1..][k] == r && IsCharRow(table[1..][k], c)
                 && forall j :: 0 <= j < k ==> !IsCharRow(table[1..][j], c);
        assert table[k + 1] == r;
        assert forall j :: 0 <= j < k + 1 ==> !IsCharRow(table[j], c);
      }
    }
  }

  /** The compiled token table: the pattern list and the search tree holding the same definitions. */
  class VTxTokenDefs {
    var tokenPatterns: seq<TokenDef>
    const searchTree: SearchTree

    ghost predicate Valid()
      reads this, searchTree
    {
      searchTree.Valid() && searchTree.added == tokenPatterns
    }

    /** The instance before compilation: both collections empty. */
    constructor Empty()
      ensures Valid() && tokenPatterns == [] && fresh(searchTree)
    {
      tokenPatterns := [];
      searchTree := new SearchTree();
    }

    /** new VTxTokenDefs(): an empty instance on which the table is compiled. */
    static method Create() returns (r: Result<VTxTokenDefs>)
      ensures r.Ok? ==> r.value.Valid() && fresh(r.value) && fresh(r.value.searchTree)
      ensures r.Ok? <==> CompileRows(TOKEN_DEFS, []).1.Ok?
      ensures r.Ok? ==> r.value.tokenPatterns == CompileRows(TOKEN_DEFS, []).0
    {
      var defs := new VTxTokenDefs.Empty();
      var ok := defs.Compile(TOKEN_DEFS);
      if ok.Err? {
        return Err(ok.error);
      }
      return Ok(defs);
    }

    /** Adds every row, in order, stopping at the first exception. */
    method Compile(table: seq<Row>) returns (r: Result<()>)
      requires Valid()
      modifies this, searchTree
      ensures Valid()
      ensures (tokenPatterns, r) == CompileRows(table, old(tokenPatterns))
    {
      var i := 0;
      while i < |table|
        invariant 0 <= i <= |table|
        invariant Valid()
        invariant CompileRows(table[i..], tokenPatterns) == CompileRows(table, old(tokenPatterns))
      {
        assert table[i..][1..] == table[i + 1..];
        var ok := AddPattern(table[i]);
        if ok.Err? {
          return Err(ok.error);
        }
        i := i + 1;
      }
      return Ok(());
    }

    /** Decodes one row and appends the definition to the pattern list, then to the tree. */
    method AddPattern(def: Row) returns (r: Result<()>)
      requires Valid()
      modifies this, searchTree
      ensures Valid()
      ensures DecodeRow(def).Err? ==> r == Err(DecodeRow(def).error) && tokenPatterns == old(tokenPatterns)
      ensures DecodeRow(def) == Ok(None) ==> r == Ok(()) && tokenPatterns == old(tokenPatterns)
      ensures DecodeRow(def).Ok? && DecodeRow(def).value.Some? ==>
                tokenPatterns == old(tokenPatterns) + [DecodeRow(def).value.value] &&
                (r.Err? <==> LeafConflict(old(tokenPatterns), DecodeRow(def).value.value)) &&
                (r.Err? ==> r.error == InvalidConfiguration)
    {
      var decoded := DecodeRow(def);
      if decoded.Err? {
        return Err(decoded.error);
      }
      if decoded.value.None? {
        return Ok(());
      }
      var tokenDef := decoded.value.value;
      tokenPatterns := tokenPatterns + [tokenDef];
      r := searchTree.Add(tokenDef);
    }

    /**
     * The first definition recorded at the node the first patternIndex
     * bytes lead to, or None.
     */
    method FindFirst(pattern: seq<jbyte>, patternIndex: int) returns (r: Option<TokenDef>)
      requires Valid()
      requires patternIndex <= |pattern|
      ensures patternIndex <= 0 ==> r.None?
      ensures patternIndex > 0 ==> r == FirstWithPrefix(tokenPatterns, Unsigned(pattern[..patternIndex]))
    {
      var prefix := searchTree.FindPartial(pattern, patternIndex);
      if prefix.Some? {
        return prefix;
      }
      return None;
    }
  }

  /** findCharToken: a linear search of the static table for a single-character first element. */
  method FindCharToken(c: char) returns (r: Result<Option<Row>>)
    ensures r == FirstCharRow(TOKEN_DEFS, c)
  {
    r := FindCharRow(TOKEN_DEFS, c);
  }

  /** findCharToken's loop over the rows of a table. */
  method FindCharRow(table: seq<Row>, c: char) returns (r: Result<Option<Row>>)
    ensures r == FirstCharRow(table, c)
  {
    var i := 0;
    while i < |table|
      invariant 0 <= i <= |table|
      invariant FirstCharRow(table[i..], c) == FirstCharRow(table, c)
    {
      var tokdef := table[i];
      assert table[i..][1..] == table[i + 1..];
      if |tokdef| != 0 {
        var str := EntryString(tokdef[0]);
        if str.Err? {
          return Err(str.error);
        }
        if |str.value| == 1 && str.value[0] == c {
          return Ok(Some(tokdef));
        }
      }
      i := i + 1;
    }
    return Ok(None);
  }
}
