/**
 * KeyMappings (emulator/KeyMappings.java): the table from symbolic key names
 * to the control sequences the terminal sends for them, optionally prefixed
 * with a terminal type, and the first-match lookup getKeyCode.
 */
module KeyMappings {
  import opened Wrappers
  import opened JavaLang

  /** One row of the table: a key name and the sequence sent for it. */
  datatype Mapping = Mapping(key: string, code: string)

  /** The default mapping, for most VT100s and xterms. */
  const DEFAULT_KEYS: seq<Mapping> := [
    Mapping("F1", "\U{1B}OP"), Mapping("F2", "\U{1B}OQ"), Mapping("F3", "\U{1B}OR"), Mapping("F4", "\U{1B}OS"),
    Mapping("F5", "\U{1B}[15~"), Mapping("F6", "\U{1B}[17~"), Mapping("F7", "\U{1B}[18~"), Mapping("F8", "\U{1B}[19~"),
    Mapping("F9", "\U{1B}[20~"), Mapping("F10", "\U{1B}[21~"), Mapping("F11", "\U{1B}[23~"), Mapping("F12", "\U{1B}[24~"),
    Mapping("PAGE_UP", "\U{1B}[5~"), Mapping("PAGE_DOWN", "\U{1B}[6~"),
    Mapping("INSERT", "\U{1B}[2~"), Mapping("DELETE", "\U{1B}[3~"),
    Mapping("PAGE_UP", "\U{1B}[5~"), Mapping("PAGE_DOWN", "\U{1B}[6~"),
    Mapping("ENTER", "\r"), Mapping("BACKSPACE", "\U{8}"), Mapping("TAB", "\t"),
    Mapping("UP", "\U{1B}[A"), Mapping("DOWN", "\U{1B}[B"), Mapping("RIGHT", "\U{1B}[C"), Mapping("LEFT", "\U{1B}[D")
  ]

  /** Application cursor keys. */
  const APP_KEYS: seq<Mapping> := [
    Mapping("APP_UP", "\U{1B}OA"), Mapping("APP_DOWN", "\U{1B}OB"), Mapping("APP_RIGHT", "\U{1B}OC"), Mapping("APP_LEFT", "\U{1B}OD")
  ]

  /** xterm specific keys; the rows for F10-F12 are spelt XTMER_. */
  const XTERM_KEYS: seq<Mapping> := [
    Mapping("XTERM_UP", "\U{1B}[A"), Mapping("XTERM_DOWN", "\U{1B}[B"), Mapping("XTERM_RIGHT", "\U{1B}[C"), Mapping("XTERM_LEFT", "\U{1B}[D"),
    Mapping("XTERM_F1", "\U{1B}OP"), Mapping("XTERM_F2", "\U{1B}OQ"), Mapping("XTERM_F3", "\U{1B}OR"), Mapping("XTERM_F4", "\U{1B}OS"),
    Mapping("XTERM_F5", "\U{1B}[15~"), Mapping("XTERM_F6", "\U{1B}[17~"), Mapping("XTERM_F7", "\U{1B}[18~"),
    Mapping("XTERM_F8", "\U{1B}[19~"), Mapping("XTERM_F9", "\U{1B}[20~"),
    Mapping("XTMER_F10", "\U{1B}[21~"), Mapping("XTMER_F11", "\U{1B}[23~"), Mapping("XTMER_F12", "\U{1B}[24~")
  ]

  /** VT100 and VT52 specific keys, then Home and End. */
  const OTHER_KEYS: seq<Mapping> := [
    Mapping("VT100_UP", "\U{1B}OA"), Mapping("VT100_DOWN", "\U{1B}OB"), Mapping("VT100_RIGHT", "\U{1B}OC"), Mapping("VT100_LEFT", "\U{1B}OD"),
    Mapping("VT52_UP", "\U{1B}A"), Mapping("VT52_DOWN", "\U{1B}B"), Mapping("VT52_RIGHT", "\U{1B}C"), Mapping("VT52_LEFT", "\U{1B}D"),
    Mapping("VT52_F1", "\U{1B}P"), Mapping("VT52_F2", "\U{1B}Q"), Mapping("VT52_F3", "\U{1B}R"), Mapping("VT52_F4", "\U{1B}S"),
    Mapping("HOME", "\U{1B}[H"), Mapping("END", "\U{1B}[F")
  ]

  /** keyMappings: the rows in table order. */
  const KEY_MAPPINGS: seq<Mapping> := DEFAULT_KEYS + APP_KEYS + XTERM_KEYS + OTHER_KEYS

  /** compareToIgnoreCase(a, b) == 0: the strings agree character by character, letter case aside. */
  predicate SameIgnoringCase(a: string, b: string)
  {
    |a| == |b| && (|a| == 0 || (ToLowerAscii(a[0]) == ToLowerAscii(b[0]) && SameIgnoringCase(a[1..], b[1..])))
  }

  /** The character-by-character comparison is equalsIgnoreCase. */
  lemma {:induction false} SameIsEqualsIgnoreCase(a: string, b: string)
    ensures SameIgnoringCase(a, b) <==> EqualsIgnoreCase(a, b)
  {
    if |a| == |b| && |a| > 0 {
      SameIsEqualsIgnoreCase(a[1..], b[1..]);
      if EqualsIgnoreCase(a, b) {
        assert LowerAscii(a)[0] == LowerAscii(b)[0];
        assert LowerAscii(a[1..]) == LowerAscii(a)[1..];
        assert LowerAscii(b[1..]) == LowerAscii(b)[1..];
      }
      if SameIgnoringCase(a, b) {
        assert LowerAscii(a) == [ToLowerAscii(a[0])] + LowerAscii(a[1..]);
        assert LowerAscii(b) == [ToLowerAscii(b[0])] + LowerAscii(b[1..]);
      }
    } else if |a| != |b| {
      assert |LowerAscii(a)| != |LowerAscii(b)|;
    }
  }

  /** Row i of the table is named key, letter case aside. */
  predicate Matches(table: seq<Mapping>, i: int, key: string)
    requires 0 <= i < |table|
  {
    SameIgnoringCase(table[i].key, key)
  }

  /** The scan of the table from row i on: the index of the first row named key. */
  function FindFrom(table: seq<Mapping>, key: string, i: nat): Option<nat>
    requires i <= |table|
    decreases |table| - i
  {
    if i == |table| then None
    else if SameIgnoringCase(table[i].key, key) then Some(i)
    else FindFrom(table, key, i + 1)
  }

  /**
   * The scan finds the first row from i on that is named key, and finds
   * nothing only when no row from i on is.
   */
  lemma {:induction false} FindFromFirst(table: seq<Mapping>, key: string, i: nat)
    requires i <= |table|
    decreases |table| - i
    ensures var r := FindFrom(table, key, i);
      && (r.Some? ==> i <= r.value < |table| && Matches(table, r.value, key))
      && (r.Some? ==> forall k :: i <= k < r.value ==> !Matches(table, k, key))
      && (r.None? ==> forall k :: i <= k < |table| ==> !Matches(table, k, key))
  {
    if i < |table| && !Matches(table, i, key) {
      FindFromFirst(table, key, i + 1);
    }
  }

  /** The first row of the table named key, letter case aside. */
  function Find(key: string): (r: Option<nat>)
    ensures r.Some? ==> r.value < |KEY_MAPPINGS| && Matches(KEY_MAPPINGS, r.value, key)
    ensures r.Some? ==> forall k :: 0 <= k < r.value ==> !Matches(KEY_MAPPINGS, k, key)
    ensures r.None? ==> forall k :: 0 <= k < |KEY_MAPPINGS| ==> !Matches(KEY_MAPPINGS, k, key)
  {
    FindFromFirst(KEY_MAPPINGS, key, 0);
    FindFrom(KEY_MAPPINGS, key, 0)
  }

  /**
   * getKeyCode(termType, keystr): with a terminal type the row named
   * TERMTYPE_KEY wins; otherwise, or when there is none, the row named
   * keystr; null when neither exists. The sequence is sent as its bytes.
   */
  function GetKeyCode(termType: Option<string>, keystr: string): (r: Option<seq<uint8>>)
    ensures termType.Some? && Find(termType.value + "_" + keystr).Some? ==>
      r == Some(Utf8(KEY_MAPPINGS[Find(termType.value + "_" + keystr).value].code))
    ensures (termType.None? || Find(termType.value + "_" + keystr).None?) && Find(keystr).Some? ==>
      r == Some(Utf8(KEY_MAPPINGS[Find(keystr).value].code))
    ensures r.None? <==> (termType.None? || Find(termType.value + "_" + keystr).None?) && Find(keystr).None?
  {
    var prefixed := if termType.Some? then Find(termType.value + "_" + keystr) else None;
    if prefixed.Some? then Some(Utf8(KEY_MAPPINGS[prefixed.value].code))
    else match Find(keystr)
      case Some(i) => Some(Utf8(KEY_MAPPINGS[i].code))
      case None => None
  }

  /** The first match of a scan over a + b: the one in a, else the one in b, past the rows of a. */
  function Either(inA: Option<nat>, inB: Option<nat>, sizeA: nat): Option<nat>
  {
    if inA.Some? then inA else if inB.Some? then Some(inB.value + sizeA) else None
  }

  /** Scanning b from row j is scanning a + b from row |a| + j, renumbered. */
  lemma {:induction false} FindFromShifted(a: seq<Mapping>, b: seq<Mapping>, key: string, j: nat)
    requires j <= |b|
    decreases |b| - j
    ensures FindFrom(a + b, key, |a| + j) == Either(None, FindFrom(b, key, j), |a|)
  {
    if j < |b| {
      assert (a + b)[|a| + j] == b[j];
      FindFromShifted(a, b, key, j + 1);
    }
  }

  /** A scan of a + b from row i of a finds the first match in a, or else the first in b. */
  lemma {:induction false} FindFromAppend(a: seq<Mapping>, b: seq<Mapping>, key: string, i: nat)
    requires i <= |a|
    decreases |a| - i
    ensures FindFrom(a + b, key, i) == Either(FindFrom(a, key, i), FindFrom(b, key, 0), |a|)
  {
    if i < |a| {
      assert (a + b)[i] == a[i];
      FindFromAppend(a, b, key, i + 1);
    } else {
      FindFromShifted(a, b, key, 0);
    }
  }

  /** find over the whole table, group by group. */
  lemma FindByGroup(key: string)
    ensures Find(key) ==
      Either(Either(Either(FindFrom(DEFAULT_KEYS, key, 0), FindFrom(APP_KEYS, key, 0), |DEFAULT_KEYS|),
                    FindFrom(XTERM_KEYS, key, 0), |DEFAULT_KEYS + APP_KEYS|),
             FindFrom(OTHER_KEYS, key, 0), |DEFAULT_KEYS + APP_KEYS + XTERM_KEYS|)
  {
    FindFromAppend(DEFAULT_KEYS + APP_KEYS + XTERM_KEYS, OTHER_KEYS, key, 0);
    FindFromAppend(DEFAULT_KEYS + APP_KEYS, XTERM_KEYS, key, 0);
    FindFromAppend(DEFAULT_KEYS, APP_KEYS, key, 0);
  }

  /** No default row is named APP_UP. */
  lemma AppUpNotDefault()
    ensures FindFrom(DEFAULT_KEYS, "APP_UP", 0).None?
  {
    // the scan, a few rows at a time from the end of the group
    assert FindFrom(DEFAULT_KEYS, "APP_UP", 18).None?;
    assert FindFrom(DEFAULT_KEYS, "APP_UP", 12).None?;
    assert FindFrom(DEFAULT_KEYS, "APP_UP", 6).None?;
  }

  /** No default row is named XTERM_F10. */
  lemma XtermF10NotDefault()
    ensures FindFrom(DEFAULT_KEYS, "XTERM_F10", 0).None?
  {
    // the scan, a few rows at a time from the end of the group
    assert FindFrom(DEFAULT_KEYS, "XTERM_F10", 18).None?;
    assert FindFrom(DEFAULT_KEYS, "XTERM_F10", 12).None?;
    assert FindFrom(DEFAULT_KEYS, "XTERM_F10", 6).None?;
  }

  /** No application or xterm row is named XTERM_F10: the xterm row is XTMER_F10. */
  lemma XtermF10NotSpecific()
    ensures FindFrom(APP_KEYS, "XTERM_F10", 0).None?
    ensures FindFrom(XTERM_KEYS, "XTERM_F10", 0).None?
  {
    XtermF10NotXtermFrom5();
  }

  /** The scan of the xterm rows from the sixth on, a few rows at a time from the end of the group. */
  lemma XtermF10NotXtermFrom5()
    ensures FindFrom(XTERM_KEYS, "XTERM_F10", 5).None?
  {
    XtermF10NotXtermFrom9();
  }

  lemma XtermF10NotXtermFrom9()
    ensures FindFrom(XTERM_KEYS, "XTERM_F10", 9).None?
  {
    XtermF10NotXtermFrom13();
  }

  lemma XtermF10NotXtermFrom13()
    ensures FindFrom(XTERM_KEYS, "XTERM_F10", 13).None?
  {
  }

  /** No VT100, VT52 or Home/End row is named XTERM_F10. */
  lemma XtermF10NotOther()
    ensures FindFrom(OTHER_KEYS, "XTERM_F10", 0).None?
  {
    assert FindFrom(OTHER_KEYS, "XTERM_F10", 8).None?;
  }

  /** No default row is named F13. */
  lemma F13NotDefault()
    ensures FindFrom(DEFAULT_KEYS, "F13", 0).None?
  {
    // the scan, a few rows at a time from the end of the group
    assert FindFrom(DEFAULT_KEYS, "F13", 18).None?;
    assert FindFrom(DEFAULT_KEYS, "F13", 12).None?;
    assert FindFrom(DEFAULT_KEYS, "F13", 6).None?;
  }

  /** No other row is named F13. */
  lemma F13NotSpecific()
    ensures FindFrom(APP_KEYS, "F13", 0).None?
    ensures FindFrom(XTERM_KEYS, "F13", 0).None?
    ensures FindFrom(OTHER_KEYS, "F13", 0).None?
  {
    // the scan, a few rows at a time from the end of the group
    assert FindFrom(XTERM_KEYS, "F13", 10).None?;
    assert FindFrom(XTERM_KEYS, "F13", 5).None?;
    assert FindFrom(OTHER_KEYS, "F13", 8).None?;
  }

  /** UP is the twenty-second default row, F10 the tenth. */
  lemma DefaultRows()
    ensures FindFrom(DEFAULT_KEYS, "UP", 0) == Some(21)
    ensures FindFrom(DEFAULT_KEYS, "F10", 0) == Some(9)
  {
    assert FindFrom(DEFAULT_KEYS, "UP", 18) == Some(21);
    assert FindFrom(DEFAULT_KEYS, "UP", 12) == Some(21);
    assert FindFrom(DEFAULT_KEYS, "UP", 6) == Some(21);
    assert FindFrom(DEFAULT_KEYS, "F10", 6) == Some(9);
  }

  /** find("APP_UP") is the first application row. */
  lemma AppUpRow()
    ensures Find("APP_UP") == Some(|DEFAULT_KEYS|)
  {
    FindByGroup("APP_UP");
    AppUpNotDefault();
    assert FindFrom(APP_KEYS, "APP_UP", 0) == Some(0);
  }

  /** find("UP") is a default row. */
  lemma UpRow()
    ensures Find("UP") == Some(21)
  {
    FindByGroup("UP");
    DefaultRows();
  }

  /** The application cursor keys send ESC O A, the default ones ESC [ A. */
  lemma CursorUpCodes()
    ensures GetKeyCode(Some("APP"), "UP") == Some([27, 'O' as int, 'A' as int])
    ensures GetKeyCode(None, "UP") == Some([27, '[' as int, 'A' as int])
  {
    assert "APP" + "_" + "UP" == "APP_UP";
    AppUpRow();
    UpRow();
    assert KEY_MAPPINGS[|DEFAULT_KEYS|] == APP_KEYS[0];
    assert KEY_MAPPINGS[21] == DEFAULT_KEYS[21];
    assert Utf8("\U{1B}OA") == [27, 'O' as int, 'A' as int];
    assert Utf8("\U{1B}[A") == [27, '[' as int, 'A' as int];
  }

  /** No row is named XTERM_F10. */
  lemma XtermF10NoRow()
    ensures Find("XTERM_F10").None?
  {
    FindByGroup("XTERM_F10");
    XtermF10NotDefault();
    XtermF10NotSpecific();
    XtermF10NotOther();
  }

  /** find("F10") is a default row. */
  lemma F10Row()
    ensures Find("F10") == Some(9)
  {
    FindByGroup("F10");
    DefaultRows();
  }

  /**
   * The xterm rows for F10-F12 are spelt XTMER_, so getKeyCode("XTERM",
   * "F10") finds no prefixed row and falls back to the default F10 row,
   * which happens to hold the same sequence.
   */
  lemma XtermF10FallsBack()
    ensures GetKeyCode(Some("XTERM"), "F10") == Some([27, '[' as int, '2' as int, '1' as int, '~' as int])
  {
    assert "XTERM" + "_" + "F10" == "XTERM_F10";
    XtermF10NoRow();
    F10Row();
    assert KEY_MAPPINGS[9] == DEFAULT_KEYS[9];
    assert Utf8("\U{1B}[21~") == [27, '[' as int, '2' as int, '1' as int, '~' as int];
  }

  /** An unknown key without a terminal type has no code. */
  lemma UnknownKey()
    ensures GetKeyCode(None, "F13").None?
  {
    FindByGroup("F13");
    F13NotDefault();
    F13NotSpecific();
  }

  /** The scan does not see the letter case of the key. */
  lemma {:induction false} FindFromIgnoresCase(table: seq<Mapping>, a: string, b: string, i: nat)
    requires i <= |table| && EqualsIgnoreCase(a, b)
    ensures FindFrom(table, a, i) == FindFrom(table, b, i)
    decreases |table| - i
  {
    if i < |table| {
      var k := table[i].key;
      SameIsEqualsIgnoreCase(k, a);
      SameIsEqualsIgnoreCase(k, b);
      EqualsIgnoreCaseIsEquivalence(k, a, b);
      EqualsIgnoreCaseIsEquivalence(k, b, a);
      EqualsIgnoreCaseIsEquivalence(a, b, k);
      FindFromIgnoresCase(table, a, b, i + 1);
    }
  }

  /** getKeyCode gives the same code for a key name in any letter case. */
  lemma GetKeyCodeIgnoresCase(termType: Option<string>, a: string, b: string)
    requires EqualsIgnoreCase(a, b)
    ensures GetKeyCode(termType, a) == GetKeyCode(termType, b)
  {
    FindFromIgnoresCase(KEY_MAPPINGS, a, b, 0);
    if termType.Some? {
      AppendIgnoringCase(termType.value + "_", a, b);
      assert termType.value + "_" + a == (termType.value + "_") + a;
      FindFromIgnoresCase(KEY_MAPPINGS, termType.value + "_" + a, termType.value + "_" + b, 0);
    }
  }
}
