# vterm emulator core in Dafny

This project models the core of the vterm terminal emulator and proves properties of that model. The emulator is Java and comes with a small C helper, `ptty`.

The model covers the following parts, each as its own set of modules:

- **Tokenizer.** The VT100/xterm byte tokenizer (`TokenizerSpec`, `Tokenizer`, `TokenizerProps`) turns the shell's byte stream into tokens. It handles the look-ahead and pattern stacks, C0 control bytes, UTF-8 sequences, CSI integer lists, OSC graph-mode strings and the error replay of a broken escape sequence.
- **Token table and search tree.** These are `TokenTable`, `SearchTrees`, `ByteTokenDef` and `CharTokenDef`. The table compiles into a byte-keyed search tree and answers first-match lookups.
- **Emulator.** The emulator that executes tokens (`EmulatorSpec`, `Emulators`, `EmulatorProps`, `EmulatorModeProps`, `SessionProps`) covers:
  - cursor movement, clamped to the scroll region;
  - auto-wrap with its pending-wrap flag;
  - SGR styles and colours;
  - DEC private modes;
  - cursor save and restore;
  - character-set selection.

  It is written twice. `EmulatorSpec` holds specification functions over a `Machine` value. The class `Emulators.VTxEmulator` has methods whose postconditions tie the new state to those functions.
- **Character panes.** The character grid the emulator drives (`Terminals`, `CharPanes`, `BlockMoves`, `TextBuffers`, `StyleChars`) comes in the newer and the older (`Legacy…`) revision of the pane. Both revisions cover text buffers, block moves, scroll regions, area clears, draw styles and the alternate screen.
- **Styles and colours.** `EcmaMapping` holds the ECMA-48 style masks. `ColorMaps` and `LegacyColorMaps` hold the colour maps, with their xterm 256-colour extensions.
- **Rendering.** The pure parts of the renderers are in `CharRenderers` and `LegacyCharRenderers`: glyph mapping, colour and alpha choice, and the box-drawing segment table.
- **Settings.** These are font settings (`FontInfos`), channel options (`TermChannelOptionsModel`), key mappings (`KeyMappings`) and the controller's location, title and X display rules (`VTermControllers`).
- **ptty.** The C helper (`Ptty`) covers the argument loop, the raw terminal mode and the relay loop's routing of bytes between the terminal, the shell and the transcript.
- **Java integer semantics.** `JavaLang` and `Util` model what the Java code relies on: byte narrowing, unsigned reads, `Integer.parseInt` and hex strings.

Java integers are modelled as unbounded `int`s, with bytes given explicitly as the signed range −128..127 (`jbyte`). Wherever the code narrows a value (a `(byte)` cast, an `unsigned short`), the narrowing is written out.

## Model

| member | source | states |
|---|---|---|
| JavaLang.ToByte | vterm-emulator/src/main/java/nl/piter/vterm/emulator/Util.java:62 | the narrowing cast `(byte) x` keeps x modulo 256 and is the identity on [-128, 128) |
| JavaLang.LowByte | vterm-emulator/src/main/java/nl/piter/vterm/emulator/Util.java:133 | `x & 0xff` keeps x modulo 256 and is the identity on [0, 256) |
| JavaLang.ToByteLowByte | vterm-emulator/src/main/java/nl/piter/vterm/emulator/Util.java:116-133 | narrowing the unsigned value of a byte gives the byte back |
| JavaLang.DigitValue | vterm-emulator/src/main/java/nl/piter/vterm/emulator/Util.java:116 | Character.digit: a value below the radix, the digit's value for ASCII decimal digits, -1 for non-digits |
| JavaLang.ParseInt | vterm-emulator/src/main/java/nl/piter/vterm/emulator/Util.java:116 | Integer.parseInt succeeds only on non-empty text and only with a 32-bit value |
| JavaLang.ParseIntValue | vterm-emulator/src/main/java/nl/piter/vterm/emulator/Util.java:116 | the value Integer.parseInt returns is that of the digits after an optional sign, negated after a minus |
| JavaLang.DecimalDigits | vterm-emulator/src/main/java/nl/piter/vterm/api/TermChannelOptions.java:77 | the decimal rendering of a natural number is non-empty and all digits |
| JavaLang.IntToString | vterm-emulator/src/main/java/nl/piter/vterm/api/TermChannelOptions.java:77 | Integer.toString is non-empty and starts with '-' exactly for negative values |
| JavaLang.DecimalDigitsValue | vterm-emulator/src/main/java/nl/piter/vterm/api/TermChannelOptions.java:77 | reading the decimal digits of n back gives n |
| JavaLang.IntToStringParses | vterm-emulator/src/main/java/nl/piter/vterm/api/TermChannelOptions.java:62-78 | Integer.parseInt(Integer.toString(v)) == v for every 32-bit v, negative values and the minimum included |
| JavaLang.BoolToString | vterm-emulator/src/main/java/nl/piter/vterm/api/TermChannelOptions.java:52-70 | Boolean.parseBoolean(Boolean.toString(b)) == b |
| JavaLang.IndexOf | vterm-emulator/src/main/java/nl/piter/vterm/ui/VTermController.java:369-379 | String.indexOf: -1 exactly when the character is absent, otherwise the position of its first occurrence |
| JavaLang.ToLowerAscii | vterm-emulator/src/main/java/nl/piter/vterm/emulator/KeyMappings.java:94-97 | ASCII upper-case letters move to lower case, every other character is unchanged |
| JavaLang.LowerAscii | vterm-emulator/src/main/java/nl/piter/vterm/emulator/KeyMappings.java:94-97 | the string lowered character by character, same length |
| JavaLang.ToUpperAscii | vterm-emulator/src/main/java/nl/piter/vterm/emulator/VTxEmulator.java:1192 | lower-case ASCII letters become upper-case letters, the same ignoring case; other characters are unchanged |
| JavaLang.UpperAscii | vterm-emulator/src/main/java/nl/piter/vterm/emulator/VTxEmulator.java:1192 | the string raised character by character, same length |
| JavaLang.UpperIgnoringCase | vterm-emulator/src/main/java/nl/piter/vterm/emulator/VTxEmulator.java:1192 | an upper-cased key still equals the original ignoring case |
| JavaLang.AppendIgnoringCase | vterm-emulator/src/main/java/nl/piter/vterm/emulator/KeyMappings.java:94-95 | equality ignoring case is kept by putting the same prefix in front |
| JavaLang.EqualsIgnoreCaseIsEquivalence | vterm-emulator/src/main/java/nl/piter/vterm/emulator/KeyMappings.java:94-107 | equalsIgnoreCase is reflexive, symmetric and transitive |
| JavaLang.ParseBoolean | vterm-emulator/src/main/java/nl/piter/vterm/api/TermChannelOptions.java:57 | Boolean.parseBoolean is true exactly for "true" in any letter case, false for null |
| JavaLang.Utf8Char | vterm-emulator/src/main/java/nl/piter/vterm/emulator/VTxTokenDefs.java:269 | one to four UTF-8 bytes per character, a single byte (the code itself) exactly for ASCII |
| JavaLang.Utf8 | vterm-emulator/src/main/java/nl/piter/vterm/emulator/VTxTokenDefs.java:269 | at least one byte per character, exactly one per character for ASCII text |
| JavaLang.Utf8Ascii | vterm-emulator/src/main/java/nl/piter/vterm/emulator/VTxTokenDefs.java:269 | ASCII text encodes to its character codes |
| JavaAwt.BrighterComponent | vterm-emulator/src/main/java/nl/piter/vterm/ui/panels/charpane/ColorMap.java:51-58 | a brightened component stays in [0, 255] and grows unless it is capped at 255 |
| JavaAwt.Brighter | vterm-emulator/src/main/java/nl/piter/vterm/ui/panels/charpane/ColorMap.java:51-58 | Color.brighter() of a valid colour is a valid colour |
| Util.MiniBuffer.constructor | vterm-emulator/src/main/java/nl/piter/vterm/emulator/Util.java:34-36 | a new buffer has `size` slots and an empty stack |
| Util.MiniBuffer.Size | vterm-emulator/src/main/java/nl/piter/vterm/emulator/Util.java:66-68 | the size is the number of values on the stack |
| Util.MiniBuffer.FreeSpace | vterm-emulator/src/main/java/nl/piter/vterm/emulator/Util.java:70-72 | free space plus size always equals the capacity |
| Util.MiniBuffer.Put | vterm-emulator/src/main/java/nl/piter/vterm/emulator/Util.java:38-41 | with a free slot (put itself does not check), the value is pushed on top of the stack |
| Util.MiniBuffer.Pop | vterm-emulator/src/main/java/nl/piter/vterm/emulator/Util.java:43-50 | an empty stack gives EOFException and stays unchanged; otherwise the most recently put value is returned and removed |
| Util.MiniBuffer.Reset | vterm-emulator/src/main/java/nl/piter/vterm/emulator/Util.java:52-54 | the stack becomes empty |
| Util.MiniBuffer.GetBytes | vterm-emulator/src/main/java/nl/piter/vterm/emulator/Util.java:59-64 | a copy of the `size` stacked values, in order, each narrowed to a byte |
| Util.MiniBuffer.SetBytes | vterm-emulator/src/main/java/nl/piter/vterm/emulator/Util.java:82-87 | the first slots become `newBytes`, later slots keep their values, and the size becomes `num` |
| Util.PushPop | vterm-emulator/src/main/java/nl/piter/vterm/emulator/Util.java:38-49 | popping after a push returns the pushed value and the stack below it |
| Util.Byte2HexStr | vterm-emulator/src/main/java/nl/piter/vterm/emulator/Util.java:132-138 | always exactly two characters |
| Util.Byte2HexStrValue | vterm-emulator/src/main/java/nl/piter/vterm/emulator/Util.java:132-138 | both characters are lower-case hex digits whose base-16 value is `v & 0xff` (so -1 gives "ff") |
| Util.Bytes2HexStr | vterm-emulator/src/main/java/nl/piter/vterm/emulator/Util.java:123-130 | twice as many characters as bytes |
| Util.Bytes2HexStrAt | vterm-emulator/src/main/java/nl/piter/vterm/emulator/Util.java:123-130 | characters 2i and 2i+1 are the rendering of byte i |
| Util.HexStr2Bytes | vterm-emulator/src/main/java/nl/piter/vterm/emulator/Util.java:108-121 | null gives null; a parsed string gives |s|/2 bytes |
| Util.HexPairs | vterm-emulator/src/main/java/nl/piter/vterm/emulator/Util.java:114-118 | decoding n pairs gives n bytes when every pair parses |
| Util.ParseTwoHexDigits | vterm-emulator/src/main/java/nl/piter/vterm/emulator/Util.java:116 | two hex digits parse, in base 16, to 16·high + low |
| Util.Byte2HexStrParses | vterm-emulator/src/main/java/nl/piter/vterm/emulator/Util.java:116-138 | the rendering of a byte parses back to its unsigned value |
| Util.PairParses | vterm-emulator/src/main/java/nl/piter/vterm/emulator/Util.java:116-130 | pair i of the rendering of a byte array parses to the unsigned value of byte i |
| Util.HexPairsRoundTrip | vterm-emulator/src/main/java/nl/piter/vterm/emulator/Util.java:108-130 | decoding the first n pairs of the rendering of `bytes` gives the first n bytes |
| Util.HexRoundTrip | vterm-emulator/src/main/java/nl/piter/vterm/emulator/Util.java:108-130 | hexstr2bytes(bytes2hexstr(b)) == b for every byte array |
| Util.PlainRun | vterm-emulator/src/main/java/nl/piter/vterm/emulator/Util.java:199-201 | the run of `[^"\s]` characters from i is maximal |
| Util.QuoteAt | vterm-emulator/src/main/java/nl/piter/vterm/emulator/Util.java:199-201 | the offset of the next quote character, or the rest of the text when there is none |
| Util.Unit | vterm-emulator/src/main/java/nl/piter/vterm/emulator/Util.java:199-201 | one alternative of the pattern never runs past the text |
| Util.MatchEnd | vterm-emulator/src/main/java/nl/piter/vterm/emulator/Util.java:199-201 | the greedy repetition ends where no further alternative matches |
| Util.SplitFrom | vterm-emulator/src/main/java/nl/piter/vterm/emulator/Util.java:214-223 | every match reported by the matcher loop is non-empty |
| Util.SplitQuotedArgs | vterm-emulator/src/main/java/nl/piter/vterm/emulator/Util.java:214-223 | the arguments, in order, are non-empty |
| Util.SplitWithoutQuotes | vterm-emulator/src/main/java/nl/piter/vterm/emulator/Util.java:199-223 | text without quotes splits into exactly its blank-separated words (an independent reference definition) |
| Util.SplitFromWords | vterm-emulator/src/main/java/nl/piter/vterm/emulator/Util.java:214-223 | from every position, the matches equal the words of the remaining text |
| Util.SkipSpace | vterm-emulator/src/main/java/nl/piter/vterm/emulator/Util.java:199-219 | a blank starts no match and no word |
| Util.TakeWord | vterm-emulator/src/main/java/nl/piter/vterm/emulator/Util.java:199-219 | a run of non-blanks is one match and one word |
| Util.PlainRunIsWord | vterm-emulator/src/main/java/nl/piter/vterm/emulator/Util.java:199-201 | without quotes, a plain run is exactly a word |
| Util.SplitQuotedExample | vterm-emulator/src/main/java/nl/piter/vterm/emulator/Util.java:203-213 | `a "q s" b` splits into `a`, `"q s"` (quotes kept) and `b` |
| Util.Concat | vterm-emulator/src/main/java/nl/piter/vterm/emulator/Util.java:225-230 | the result is arr1 followed by arr2 |
| Util.Min | vterm-emulator/src/main/java/nl/piter/vterm/emulator/Util.java:187-189 | the smaller of the two arguments |
| Util.Max | vterm-emulator/src/main/java/nl/piter/vterm/emulator/Util.java:191-193 | the larger of the two arguments |
| ByteTokenDef.TokenDef.Full | vterm-emulator/src/main/java/nl/piter/vterm/emulator/token/TokenDef.java:40-60 | without a terminator the full sequence is the prefix itself; with one it is the prefix followed by the terminator |
| ByteTokenDef.TokenDef.Length | vterm-emulator/src/main/java/nl/piter/vterm/emulator/tokens/IToken.java:43-45 | length() is the length of full(), never shorter than the prefix |
| ByteTokenDef.TokenDef.Bytes | vterm-emulator/src/main/java/nl/piter/vterm/emulator/tokens/IToken.java:47-49 | bytes() has length() bytes |
| ByteTokenDef.CreateFrom | vterm-emulator/src/main/java/nl/piter/vterm/emulator/token/TokenDef.java:22-45 | the factory keeps every constructor argument unchanged (prefix, option, terminator, token, description) |
| ByteTokenDef.PrefixOfFull | vterm-emulator/src/main/java/nl/piter/vterm/emulator/token/TokenDef.java:47-51 | the prefix starts bytes(), and length() equals the prefix length exactly when there is no (or an empty) terminator |
| CharTokenDef.TokenDef.Prefix | vterm-emulator/src/main/java/nl/piter/vterm/emulator/tokens/TokenDef.java:56-62 | prefix() returns the same characters as chars() |
| CharTokenDef.TokenDef.Full | vterm-emulator/src/main/java/nl/piter/vterm/emulator/tokens/TokenDef.java:42-66 | without a terminator char the full sequence is chars; with one it is chars followed by that single char, one longer |
| CharTokenDef.CreateFrom | vterm-emulator/src/main/java/nl/piter/vterm/emulator/tokens/TokenDef.java:23-47 | the factory keeps every constructor argument unchanged |
| SearchTrees.Unsigned | vterm-emulator/src/main/java/nl/piter/vterm/emulator/token/SearchTree.java:48-92 | each key byte is used as the unsigned child index `b & 0xff` |
| SearchTrees.Through | vterm-emulator/src/main/java/nl/piter/vterm/emulator/token/SearchTree.java:54-57 | the values recorded at a node are a sub-sequence of the values added |
| SearchTrees.ThroughAppend | vterm-emulator/src/main/java/nl/piter/vterm/emulator/token/SearchTree.java:54-57 | adding a value appends it at a node exactly when the node lies on the value's key path, keeping insertion order |
| SearchTrees.FirstWithPrefixNone | vterm-emulator/src/main/java/nl/piter/vterm/emulator/token/SearchTree.java:85-116 | a lookup finds nothing exactly when no added key starts with the searched bytes |
| SearchTrees.FirstWithPrefixSpec | vterm-emulator/src/main/java/nl/piter/vterm/emulator/token/SearchTree.java:99-111 | a found value is the earliest added value whose key starts with the searched bytes |
| SearchTrees.ThroughFirst | vterm-emulator/src/main/java/nl/piter/vterm/emulator/token/SearchTree.java:99-101 | the value a lookup returns is the first value recorded at the reached node, and none exactly when the node records none |
| SearchTrees.FirstAppend | vterm-emulator/src/main/java/nl/piter/vterm/emulator/token/SearchTree.java:54-101 | adding a value never changes an earlier successful lookup; it only answers lookups that found nothing and lie on its path |
| SearchTrees.ThroughShorter | vterm-emulator/src/main/java/nl/piter/vterm/emulator/token/SearchTree.java:85-97 | a node that records a value has ancestors that all record one, so a proper prefix of an added key finds a value |
| SearchTrees.StartAdd | vterm-emulator/src/main/java/nl/piter/vterm/emulator/token/SearchTree.java:43-44 | before the walk, the tree represents the earlier values |
| SearchTrees.AddStep | vterm-emulator/src/main/java/nl/piter/vterm/emulator/token/SearchTree.java:47-57 | one step of the walk creates the missing child and records the value at it |
| SearchTrees.AddLeaf | vterm-emulator/src/main/java/nl/piter/vterm/emulator/token/SearchTree.java:59-64 | after the walk, the tree represents all values, and the leaf holds more than one value exactly when an earlier key passes through it |
| SearchTrees.FinishAdd | vterm-emulator/src/main/java/nl/piter/vterm/emulator/token/SearchTree.java:47-67 | a completed walk leaves the tree representing all values |
| SearchTrees.SearchTree.constructor | vterm-emulator/src/main/java/nl/piter/vterm/emulator/token/SearchTree.java:34-36 | a new tree has no values |
| SearchTrees.SearchTree.Add | vterm-emulator/src/main/java/nl/piter/vterm/emulator/token/SearchTree.java:38-68 | the value is recorded on every node of its key path, in insertion order; VTxInvalidConfigurationException is raised exactly when its leaf already held a value |
| SearchTrees.SearchTree.Find | vterm-emulator/src/main/java/nl/piter/vterm/emulator/token/SearchTree.java:81-117 | indexLen 0 gives null; otherwise the result is the first added value whose key starts with the first indexLen bytes, or null; the tree is not changed |
| SearchTrees.SearchTree.FindFull | vterm-emulator/src/main/java/nl/piter/vterm/emulator/token/SearchTree.java:70-111 | findFull answers exactly as the partial lookup does |
| SearchTrees.SearchTree.FindPartial | vterm-emulator/src/main/java/nl/piter/vterm/emulator/token/SearchTree.java:74-76 | findPartial is the first value whose key starts with the first patternIndex bytes, or null |
| TokenTable.EntryString | vterm-emulator/src/main/java/nl/piter/vterm/emulator/VTxTokenDefs.java:217-270 | `toString()` of a table entry fails with NullPointerException exactly on null |
| TokenTable.StringBytes | vterm-emulator/src/main/java/nl/piter/vterm/emulator/VTxTokenDefs.java:268-270 | getStringBytes is the UTF-8 encoding of the entry's text, each byte stored as a signed byte |
| TokenTable.EntryBytes | vterm-emulator/src/main/java/nl/piter/vterm/emulator/VTxTokenDefs.java:268-270 | the bytes of an entry are available exactly when it is not null |
| TokenTable.CastToken | vterm-emulator/src/main/java/nl/piter/vterm/emulator/VTxTokenDefs.java:228-253 | the cast `(Token)` yields the token, null for null, and ClassCastException for anything else |
| TokenTable.CastOption | vterm-emulator/src/main/java/nl/piter/vterm/emulator/VTxTokenDefs.java:234-246 | the cast `(TokenOption)` fails exactly on an entry that is neither an option nor null |
| TokenTable.CastString | vterm-emulator/src/main/java/nl/piter/vterm/emulator/VTxTokenDefs.java:237 | the cast `(String)` fails exactly on an entry that is neither a string nor null |
| TokenTable.TokenSlot | vterm-emulator/src/main/java/nl/piter/vterm/emulator/VTxTokenDefs.java:225-254 | the token sits at index 1 of a 2-row, at 2 or 1 of a 3-row (after an option or not), and at 3 of a longer row |
| TokenTable.DecodeRow | vterm-emulator/src/main/java/nl/piter/vterm/emulator/VTxTokenDefs.java:209-266 | an empty row is skipped; otherwise the definition has the first entry's bytes as prefix, the token from the arity's token slot, an option exactly when the second entry is one, and a terminator exactly when a 4+-row's third entry is not null; a null last entry raises NullPointerException |
| TokenTable.NoTokenRejected | vterm-emulator/src/main/java/nl/piter/vterm/emulator/VTxTokenDefs.java:255-261 | a one-element row, or a 4+-row with a null token slot, raises VTxInvalidConfigurationException |
| TokenTable.CompileRows | vterm-emulator/src/main/java/nl/piter/vterm/emulator/VTxTokenDefs.java:203-207 | compiling only appends to the pattern list already there |
| TokenTable.CompileAddsAllRows | vterm-emulator/src/main/java/nl/piter/vterm/emulator/VTxTokenDefs.java:203-265 | when compilation succeeds, the pattern list is the earlier list followed by every non-empty row's definition, in table order |
| TokenTable.CompileStopsAtBadRow | vterm-emulator/src/main/java/nl/piter/vterm/emulator/VTxTokenDefs.java:203-261 | a row that raises, after rows that decode, makes the compilation fail |
| TokenTable.FirstCharRowSpec | vterm-emulator/src/main/java/nl/piter/vterm/emulator/VTxTokenDefs.java:272-286 | with no null first entries, findCharToken's search returns the first row whose first element is the one-character string c, and null exactly when there is none |
| TokenTable.VTxTokenDefs.Empty | vterm-emulator/src/main/java/nl/piter/vterm/emulator/VTxTokenDefs.java:195-196 | before compilation both the pattern list and the tree are empty |
| TokenTable.VTxTokenDefs.Create | vterm-emulator/src/main/java/nl/piter/vterm/emulator/VTxTokenDefs.java:198-200 | the constructor succeeds exactly when the whole table compiles, and its pattern list is then the compiled table |
| TokenTable.VTxTokenDefs.Compile | vterm-emulator/src/main/java/nl/piter/vterm/emulator/VTxTokenDefs.java:203-207 | the loop leaves the pattern list and result that the row-by-row compilation gives, the tree holding the same definitions |
| TokenTable.VTxTokenDefs.AddPattern | vterm-emulator/src/main/java/nl/piter/vterm/emulator/VTxTokenDefs.java:209-266 | a row that raises changes nothing; an empty row is skipped; a decoded definition is appended to the pattern list and the tree, and the tree's exception is raised exactly on a leaf conflict |
| TokenTable.VTxTokenDefs.FindFirst | vterm-emulator/src/main/java/nl/piter/vterm/emulator/VTxTokenDefs.java:300-310 | the first compiled definition whose full bytes start with the first patternIndex bytes, or null; null for patternIndex 0 |
| TokenTable.FindCharToken | vterm-emulator/src/main/java/nl/piter/vterm/emulator/VTxTokenDefs.java:272-286 | the search over the static table returns what the row-by-row search specification gives |
| TokenTable.FindCharRow | vterm-emulator/src/main/java/nl/piter/vterm/emulator/VTxTokenDefs.java:274-285 | the loop returns the first single-character row for c, as the search specification gives |
| Tokenizer.Arguments.constructor | vterm-emulator/src/main/java/nl/piter/vterm/emulator/VTxTokenizer.java:52-57 | a new argument holder has sixteen zero integers, no count, no string and zero markers |
| Tokenizer.Arguments.IntArg | vterm-emulator/src/main/java/nl/piter/vterm/emulator/VTxTokenizer.java:82-87 | argument i is the stored integer when i is below the count, and -1 otherwise |
| Tokenizer.Arguments.IntArgs | vterm-emulator/src/main/java/nl/piter/vterm/emulator/VTxTokenizer.java:75-80 | intArgs() has exactly numArgs elements, each equal to the matching intArg |
| Tokenizer.Arguments.Clear | vterm-emulator/src/main/java/nl/piter/vterm/emulator/VTxTokenizer.java:89-97 | clear() zeroes all sixteen integers, the count and the markers and drops the string |
| Tokenizer.VTxTokenizer.constructor | vterm-emulator/src/main/java/nl/piter/vterm/emulator/VTxTokenizer.java:35-44 | a new tokenizer reads the given stream with empty read-ahead and pattern buffers, cleared arguments and the reset state |
| Tokenizer.VTxTokenizer.ReadChar | vterm-emulator/src/main/java/nl/piter/vterm/emulator/VTxTokenizer.java:137-143 | readChar pops the most recently pushed-back value when there is one and otherwise reads the stream (-1 at its end); nothing but the input changes |
| Tokenizer.VTxTokenizer.UngetChar | vterm-emulator/src/main/java/nl/piter/vterm/emulator/VTxTokenizer.java:145-150 | ungetChar pushes the value so that it is read next, and raises IOException exactly when the read-ahead buffer is full |
| Tokenizer.VTxTokenizer.GetBytes | vterm-emulator/src/main/java/nl/piter/vterm/emulator/VTxTokenizer.java:152-154 | getBytes returns the pattern read so far, each value narrowed to a byte |
| Tokenizer.VTxTokenizer.Reset | vterm-emulator/src/main/java/nl/piter/vterm/emulator/VTxTokenizer.java:115-160 | reset empties the pattern, clears the arguments and resets the state, and keeps the pending input |
| Tokenizer.VTxTokenizer.Lookahead | vterm-emulator/src/main/java/nl/piter/vterm/emulator/VTxTokenizer.java:499-503 | lookahead returns the next value and leaves it pending (see TokenizerProps.LookaheadKeepsPending) |
| Tokenizer.VTxTokenizer.ArgumentsFollow | vterm-emulator/src/main/java/nl/piter/vterm/emulator/VTxTokenizer.java:281-291 | the guard "a digit or ';' comes next", evaluated with two lookaheads as the source does |
| Tokenizer.VTxTokenizer.ParseInt | vterm-emulator/src/main/java/nl/piter/vterm/emulator/VTxTokenizer.java:458-475 | parseInt collects the decimal digits that follow, pushes back the first non-digit, returns null when there were none, and fails with an index error past the character buffer |
| Tokenizer.VTxTokenizer.ParseString | vterm-emulator/src/main/java/nl/piter/vterm/emulator/VTxTokenizer.java:477-493 | parseString collects printable characters, pushes back the first other value and fails with an index error past the string buffer |
| Tokenizer.VTxTokenizer.ParseFieldNumber | vterm-emulator/src/main/java/nl/piter/vterm/emulator/VTxTokenizer.java:512-516 | one field's digits are parsed and, when present, stored at the current slot with the count incremented; a number over Integer.MAX_VALUE raises NumberFormatException |
| Tokenizer.VTxTokenizer.ParseIntegerField | vterm-emulator/src/main/java/nl/piter/vterm/emulator/VTxTokenizer.java:510-531 | one pass of the list loop: a number or an empty field before ';' is stored, and the loop goes on exactly when ';' follows |
| Tokenizer.VTxTokenizer.ParseIntegerList | vterm-emulator/src/main/java/nl/piter/vterm/emulator/VTxTokenizer.java:508-534 | the loop leaves the integers, count and input that the field-by-field specification gives, failing with an index error past sixteen arguments |
| Tokenizer.VTxTokenizer.ParseGraphModeNumber | vterm-emulator/src/main/java/nl/piter/vterm/emulator/VTxTokenizer.java:540-550 | the number of `ESC ] n ;` is stored in slot 0 (0 when absent), the count becomes 1 and the ';' is consumed |
| Tokenizer.VTxTokenizer.ParseGraphModeArguments | vterm-emulator/src/main/java/nl/piter/vterm/emulator/VTxTokenizer.java:539-559 | the number is followed by the printable text, stored as the string argument, and the terminator that follows is consumed |
| Tokenizer.VTxTokenizer.ReadUByte | vterm-emulator/src/main/java/nl/piter/vterm/emulator/VTxTokenizer.java:445-452 | readUByte raises IOException at the end of the stream and otherwise returns the low eight bits of the value read |
| Tokenizer.VTxTokenizer.ReadUBytesInto | vterm-emulator/src/main/java/nl/piter/vterm/emulator/VTxTokenizer.java:428-430 | the loop appends exactly k bytes read as readUByte reads them, or raises IOException |
| Tokenizer.VTxTokenizer.MatchUtf8Token | vterm-emulator/src/main/java/nl/piter/vterm/emulator/VTxTokenizer.java:399-438 | a lead byte below 0x80 is no UTF-8 token; otherwise the continuation bytes its length needs are read into the pattern and CHAR is returned |
| Tokenizer.VTxTokenizer.HandleC0 | vterm-emulator/src/main/java/nl/piter/vterm/emulator/VTxTokenizer.java:192-233 | a C0 value outside a sequence is returned as its token; ESC starts a sequence; inside a sequence it behaves as the two methods below |
| Tokenizer.VTxTokenizer.EscInSequence | vterm-emulator/src/main/java/nl/piter/vterm/emulator/VTxTokenizer.java:197-201 | an ESC inside a sequence records the error character, is pushed back and ends the token with ERROR |
| Tokenizer.VTxTokenizer.C0InSequence | vterm-emulator/src/main/java/nl/piter/vterm/emulator/VTxTokenizer.java:208-232 | another C0 inside a sequence is dropped from the pattern, the rest of the pattern is pushed back, and the C0 token is returned |
| Tokenizer.VTxTokenizer.UngetPattern | vterm-emulator/src/main/java/nl/piter/vterm/emulator/VTxTokenizer.java:222-227 | popping the pattern into the read-ahead buffer leaves the pattern empty and the popped values pending in their original order, or raises IOException when the buffer fills |
| Tokenizer.VTxTokenizer.HandleChar | vterm-emulator/src/main/java/nl/piter/vterm/emulator/VTxTokenizer.java:238-251 | outside a sequence a printable character gives CHAR, a UTF-8 lead byte reads its sequence, and anything else ends the loop as an error |
| Tokenizer.VTxTokenizer.ParseGraphModeOption | vterm-emulator/src/main/java/nl/piter/vterm/emulator/VTxTokenizer.java:280-286 | for a graph-mode definition the OSC arguments are parsed exactly when a digit or ';' follows |
| Tokenizer.VTxTokenizer.ParseIntegersOption | vterm-emulator/src/main/java/nl/piter/vterm/emulator/VTxTokenizer.java:289-295 | after an exact prefix of an integer-list definition the list is parsed exactly when a digit or ';' follows, and optIntegersParsed records a non-empty list |
| Tokenizer.VTxTokenizer.ParseOptions | vterm-emulator/src/main/java/nl/piter/vterm/emulator/VTxTokenizer.java:280-295 | both option parsers, in the source's order |
| Tokenizer.VTxTokenizer.HandleSequence | vterm-emulator/src/main/java/nl/piter/vterm/emulator/VTxTokenizer.java:255-322 | inside a sequence: no matching definition or neither a full nor a prefix match stops with the error character; a partial prefix reads on; options are parsed; a full match returns the definition's token |
| Tokenizer.VTxTokenizer.Step | vterm-emulator/src/main/java/nl/piter/vterm/emulator/VTxTokenizer.java:172-322 | one pass of the do-while loop agrees with the one-pass specification StepSpec |
| Tokenizer.VTxTokenizer.NextToken | vterm-emulator/src/main/java/nl/piter/vterm/emulator/VTxTokenizer.java:165-327 | nextToken resets, runs the loop while in a sequence and ends with ERROR when it stops, returning the token and new state that NextTokenSpec gives |
| TokenizerSpec.ReadPending | vterm-emulator/src/main/java/nl/piter/vterm/emulator/VTxTokenizer.java:137-143 | reading takes the first pending value, and -1 with nothing consumed at the end of the input |
| TokenizerSpec.Unget | vterm-emulator/src/main/java/nl/piter/vterm/emulator/VTxTokenizer.java:145-150 | pushing back succeeds exactly while the read-ahead buffer has room, and otherwise raises IOException |
| TokenizerSpec.UngetPending | vterm-emulator/src/main/java/nl/piter/vterm/emulator/VTxTokenizer.java:137-150 | a value pushed back is read next, and reading it restores the input as it was |
| TokenizerSpec.MatchCharToken | vterm-emulator/src/main/java/nl/piter/vterm/emulator/VTxTokenizer.java:391-456 | CHAR exactly for 0x20..0x7f, null otherwise |
| TokenizerSpec.ResetSnap | vterm-emulator/src/main/java/nl/piter/vterm/emulator/VTxTokenizer.java:156-160 | after reset the input is kept, the pattern is empty and every integer argument is zero with no count |
| TokenizerSpec.Utf8Length | vterm-emulator/src/main/java/nl/piter/vterm/emulator/VTxTokenizer.java:411-425 | the lead-byte length as written lies between 1 and 6 |
| TokenizerSpec.Utf8LengthFixed | vterm-emulator/src/main/java/nl/piter/vterm/emulator/VTxTokenizer.java:411-425 | the lead-byte length with the intended mask lies between 1 and 6 |
| TokenizerSpec.UngetAsWritten | vterm-emulator/src/main/java/nl/piter/vterm/emulator/VTxTokenizer.java:145-150 | the source's pushback, which stores the value through a byte cast, succeeds exactly while there is room |
| TokenizerProps.ReplayPending | vterm-emulator/src/main/java/nl/piter/vterm/emulator/VTxTokenizer.java:222-227 | pushing a whole pattern back succeeds exactly when it fits, and then the pattern is read again before what was pending |
| TokenizerProps.LookaheadKeepsPending | vterm-emulator/src/main/java/nl/piter/vterm/emulator/VTxTokenizer.java:499-503 | lookahead returns the next value (or -1) and leaves the pending input unchanged apart from the -1 it pushes back at the end |
| TokenizerProps.ReadUBytesPending | vterm-emulator/src/main/java/nl/piter/vterm/emulator/VTxTokenizer.java:428-452 | reading k unsigned bytes succeeds exactly when k non-negative values are pending; they are appended, each as its low byte, and consumed |
| TokenizerProps.LeadByteLengths | vterm-emulator/src/main/java/nl/piter/vterm/emulator/VTxTokenizer.java:411-425 | with the intended mask, 110xxxxx gives 2 bytes, 1110xxxx 3, 11110xxx 4, 111110xx 5, 1111110x 6 and anything else 1 |
| TokenizerProps.LeadByteAsWritten | vterm-emulator/src/main/java/nl/piter/vterm/emulator/VTxTokenizer.java:420 | with the mask 0xfd as written, 0xfd is taken as a 1-byte lead and 0xfe as a 6-byte lead, the reverse of the intended lengths |
| TokenizerProps.UngetCastReadsEof | vterm-emulator/src/main/java/nl/piter/vterm/emulator/VTxTokenizer.java:145-150 | a byte 0xc3 pushed back through the byte cast is read again as -61, which matchC0Token takes for EOF |
| TokenizerProps.UngetKeepsValue | vterm-emulator/src/main/java/nl/piter/vterm/emulator/VTxTokenizer.java:145-150 | with the value stored unchanged, a pushed-back 0xc3 is read again as 0xc3 and is not a C0 token |
| TokenizerProps.C0Classification | vterm-emulator/src/main/java/nl/piter/vterm/emulator/VTxTokenizer.java:329-375 | negative values are EOF; matchC0Token answers exactly for values below 0x20; the unknown C0 values give ERROR and the known ones their own token |
| TokenizerProps.PrintableIsChar | vterm-emulator/src/main/java/nl/piter/vterm/emulator/VTxTokenizer.java:391-397 | a printable character outside a sequence is one CHAR token whose bytes are that character, with cleared arguments, consuming one value |
| TokenizerProps.ControlIsToken | vterm-emulator/src/main/java/nl/piter/vterm/emulator/VTxTokenizer.java:192-212 | a C0 value other than ESC at the start is returned at once as its token, with that value as the pattern |
| TokenizerProps.MultiByteOutcome | vterm-emulator/src/main/java/nl/piter/vterm/emulator/VTxTokenizer.java:399-438 | a byte 0x80..0xff at the start gives the UTF-8 outcome for its lead length, reading the continuation bytes that follow |
| TokenizerProps.Utf8ResultFacts | vterm-emulator/src/main/java/nl/piter/vterm/emulator/VTxTokenizer.java:399-438 | the UTF-8 outcome is CHAR with the lead and continuation bytes as the pattern when they are all there, and IOException at the end of input |
| TokenizerProps.EscInsideSequence | vterm-emulator/src/main/java/nl/piter/vterm/emulator/VTxTokenizer.java:197-201 | an ESC inside a sequence gives ERROR with ESC as the error character and leaves the ESC pending for the next token |
| TokenizerProps.ControlInsideSequence | vterm-emulator/src/main/java/nl/piter/vterm/emulator/VTxTokenizer.java:208-232 | another C0 inside a sequence is returned at once with an empty pattern, and the sequence so far is pending again before the rest of the input |
| TokenizerProps.NoDigitNoNumber | vterm-emulator/src/main/java/nl/piter/vterm/emulator/VTxTokenizer.java:458-475 | parseInt without a leading digit returns null and consumes nothing |
| TokenizerProps.EmptyFieldStoresZero | vterm-emulator/src/main/java/nl/piter/vterm/emulator/VTxTokenizer.java:510-527 | an empty field before ';' stores 0 in the current slot, counts it and goes on after the ';' |
| TokenizerProps.EndOfList | vterm-emulator/src/main/java/nl/piter/vterm/emulator/VTxTokenizer.java:510-531 | a field that is neither digits nor ';' ends the list with the integers, count and input unchanged |
| TokenizerProps.ParseIntReadsDigits | vterm-emulator/src/main/java/nl/piter/vterm/emulator/VTxTokenizer.java:458-475 | parseInt returns exactly the run of digits before the first non-digit, which is pushed back and read next |
| TokenizerProps.FieldDigits | vterm-emulator/src/main/java/nl/piter/vterm/emulator/VTxTokenizer.java:512-516 | a run of digits is stored in the current slot as its decimal value and counted |
| TokenizerProps.NumberField | vterm-emulator/src/main/java/nl/piter/vterm/emulator/VTxTokenizer.java:510-527 | digits followed by ';' store the number and go on with the rest |
| TokenizerProps.LastNumberField | vterm-emulator/src/main/java/nl/piter/vterm/emulator/VTxTokenizer.java:508-534 | digits followed by any other value store the number, count it, end the list and leave that value pending |
| TokenizerProps.FirstFieldExample | vterm-emulator/src/main/java/nl/piter/vterm/emulator/VTxTokenizer.java:508-534 | for `14;43H` the first field stores 14 in slot 0 and goes on at `43H` |
| TokenizerProps.CursorArgumentsExample | vterm-emulator/src/main/java/nl/piter/vterm/emulator/VTxTokenizer.java:508-534 | for `14;43H` the list is 14, 43 with count 2 and `H` left pending |
| TokenizerProps.EmptyFieldList | vterm-emulator/src/main/java/nl/piter/vterm/emulator/VTxTokenizer.java:508-534 | for `;q` the list is one zero argument with `q` left pending |
| TokenizerProps.ParseStringReadsText | vterm-emulator/src/main/java/nl/piter/vterm/emulator/VTxTokenizer.java:477-493 | parseString returns exactly the run of printable characters, leaving the first other value pending |
| TokenizerProps.GraphModeNoNumber | vterm-emulator/src/main/java/nl/piter/vterm/emulator/VTxTokenizer.java:540-550 | `;` alone stores 0 in slot 0 with count 1 and consumes the ';' |
| TokenizerProps.GraphModeNumberDigits | vterm-emulator/src/main/java/nl/piter/vterm/emulator/VTxTokenizer.java:540-550 | `n;` stores n in slot 0 with count 1 and consumes the ';' |
| TokenizerProps.GraphModeText | vterm-emulator/src/main/java/nl/piter/vterm/emulator/VTxTokenizer.java:552-558 | after the number, the printable text up to BEL becomes the string argument and the BEL is consumed |
| TokenizerProps.GraphModeArguments | vterm-emulator/src/main/java/nl/piter/vterm/emulator/VTxTokenizer.java:539-559 | `n ; text BEL` gives integer argument n, one argument, string argument text, and leaves the input after the BEL |
| TokenizerProps.GraphModeArgumentsNoNumber | vterm-emulator/src/main/java/nl/piter/vterm/emulator/VTxTokenizer.java:539-559 | `; text BEL` gives integer argument 0, one argument, string argument text, and leaves the input after the BEL |
| KeyMappings.SameIsEqualsIgnoreCase | vterm-emulator/src/main/java/nl/piter/vterm/emulator/KeyMappings.java:95-104 | the row comparison (compareToIgnoreCase == 0) is equality ignoring case |
| KeyMappings.FindFromFirst | vterm-emulator/src/main/java/nl/piter/vterm/emulator/KeyMappings.java:94-107 | the scan from row i returns the first matching row at or after i, or None when no later row matches |
| KeyMappings.Find | vterm-emulator/src/main/java/nl/piter/vterm/emulator/KeyMappings.java:103-107 | the lookup returns the first row in table order whose name equals the key ignoring case, or None when no row does |
| KeyMappings.GetKeyCode | vterm-emulator/src/main/java/nl/piter/vterm/emulator/KeyMappings.java:90-110 | with a term type, a `TERMTYPE_KEY` row wins; otherwise the bare key's row is used; null exactly when neither lookup matches; the result is the row's code as bytes |
| KeyMappings.FindByGroup | vterm-emulator/src/main/java/nl/piter/vterm/emulator/KeyMappings.java:21-85 | a lookup in the whole table is the lookup in the default, application, xterm and other groups, in that order |
| KeyMappings.AppUpRow | vterm-emulator/src/main/java/nl/piter/vterm/emulator/KeyMappings.java:49 | `APP_UP` is found in the first application row |
| KeyMappings.UpRow | vterm-emulator/src/main/java/nl/piter/vterm/emulator/KeyMappings.java:44 | `UP` is found in its default row |
| KeyMappings.CursorUpCodes | vterm-emulator/src/main/java/nl/piter/vterm/emulator/KeyMappings.java:44-110 | getKeyCode("APP", "UP") is `ESC O A` and getKeyCode(null, "UP") is `ESC [ A` |
| KeyMappings.XtermF10NoRow | vterm-emulator/src/main/java/nl/piter/vterm/emulator/KeyMappings.java:67 | no row is named `XTERM_F10` (the table spells it `XTMER_F10`) |
| KeyMappings.F10Row | vterm-emulator/src/main/java/nl/piter/vterm/emulator/KeyMappings.java:32 | `F10` is found in its default row |
| KeyMappings.XtermF10FallsBack | vterm-emulator/src/main/java/nl/piter/vterm/emulator/KeyMappings.java:32-110 | getKeyCode("XTERM", "F10") falls back to the default `ESC [ 2 1 ~` |
| KeyMappings.UnknownKey | vterm-emulator/src/main/java/nl/piter/vterm/emulator/KeyMappings.java:102-109 | a key with no row (F13) gives null |
| KeyMappings.FindFromIgnoresCase | vterm-emulator/src/main/java/nl/piter/vterm/emulator/KeyMappings.java:94-107 | keys equal ignoring case find the same row |
| KeyMappings.GetKeyCodeIgnoresCase | vterm-emulator/src/main/java/nl/piter/vterm/emulator/KeyMappings.java:90-110 | keys equal ignoring case get the same code |
| Emulators.VTxEmulator.constructor | vterm-emulator/src/main/java/nl/piter/vterm/emulator/VTxEmulator.java:112-117 | a new emulator drives the given terminal with the initial state (default DEC modes, no region, tab size 8), nothing sent, no title, not terminated |
| Emulators.VTxEmulator.ResetState | vterm-emulator/src/main/java/nl/piter/vterm/emulator/VTxEmulator.java:48-57 | resetState drops the region, sets tab size 8 and the DEC modes' defaults (auto-wrap and focus events on, the rest off) and changes nothing else |
| Emulators.VTxEmulator.SetTermType | vterm-emulator/src/main/java/nl/piter/vterm/emulator/VTxEmulator.java:179-181 | the terminal type is the one given; the machine is unchanged |
| Emulators.VTxEmulator.GetKeyCode | vterm-emulator/src/main/java/nl/piter/vterm/emulator/VTxEmulator.java:1184-1197 | with application cursor keys the key is looked up under APP, otherwise under the terminal type, with the key mapping's own fallback |
| Emulators.VTxEmulator.SignalTerminate | vterm-emulator/src/main/java/nl/piter/vterm/emulator/VTxEmulator.java:209-216 | the session is marked terminated and nothing else changes |
| Emulators.VTxEmulator.SetCursor | vterm-emulator/src/main/java/nl/piter/vterm/emulator/VTxEmulator.java:838-851 | the new state is EmulatorSpec.SetCursor: the row held to the region (below it to region_y1, at or past its end to region_y2), the pending wrap cleared |
| Emulators.VTxEmulator.MoveCursor | vterm-emulator/src/main/java/nl/piter/vterm/emulator/VTxEmulator.java:853-890 | the new state is EmulatorSpec.MoveCursor, which EmulatorProps.MoveCursorClamps characterises |
| Emulators.VTxEmulator.ScrollLines | vterm-emulator/src/main/java/nl/piter/vterm/emulator/VTxEmulator.java:910-938 | the terminal's region, or the whole screen, scrolls by n lines up or down; nothing else changes |
| Emulators.VTxEmulator.AutoNewline | vterm-emulator/src/main/java/nl/piter/vterm/emulator/VTxEmulator.java:940-951 | column 0 of the next row, scrolling the region up one line when the cursor was on its last row |
| Emulators.VTxEmulator.WriteChar | vterm-emulator/src/main/java/nl/piter/vterm/emulator/VTxEmulator.java:1156-1182 | the new state is EmulatorSpec.WriteChar, with the pending wrap taken first (EmulatorProps.WriteCharAdvances, WriteCharDefersWrap, PendingWrapNewline, WrapKeepsBoth) |
| Emulators.VTxEmulator.WriteUnwrapped | vterm-emulator/src/main/java/nl/piter/vterm/emulator/VTxEmulator.java:1162-1180 | with no wrap pending: the character is written, then the cursor moves right, the wrap becomes pending, or a newline follows when auto-wrap is off |
| Emulators.VTxEmulator.SaveCursor | vterm-emulator/src/main/java/nl/piter/vterm/emulator/VTxEmulator.java:1147-1154 | position, pending wrap, style, charset slot and the slot's charset name are saved; nothing else changes |
| Emulators.VTxEmulator.RestoreCursor | vterm-emulator/src/main/java/nl/piter/vterm/emulator/VTxEmulator.java:1139-1145 | the new state is the corrected EmulatorSpec.RestoreCursor (EmulatorProps.SaveRestoreRoundTrip, RestoreBeforeSave) |
| Emulators.VTxEmulator.PutRunAt | vterm-emulator/src/main/java/nl/piter/vterm/emulator/VTxEmulator.java:824-828 | putChar over n cells of a row from column x: those cells take the pen (EmulatorProps.PutRunCells), the rest of the machine is kept |
| Emulators.VTxEmulator.EraseChars | vterm-emulator/src/main/java/nl/piter/vterm/emulator/VTxEmulator.java:416-422 | ECH writes n spaces from the cursor on and leaves the cursor where it was |
| Emulators.VTxEmulator.DeleteLines | vterm-emulator/src/main/java/nl/piter/vterm/emulator/VTxEmulator.java:423-430 | the new state is EmulatorSpec.DeleteLines: n rows from the cursor's blanked but for the last column, cursor kept (EmulatorProps.BlankLinesCells) |
| Emulators.VTxEmulator.BlankLinesAt | vterm-emulator/src/main/java/nl/piter/vterm/emulator/VTxEmulator.java:425-427 | the nested loops give EmulatorSpec.BlankLines, characterised cell by cell in EmulatorProps.BlankLinesCells |
| Emulators.VTxEmulator.InsertBlankAt | vterm-emulator/src/main/java/nl/piter/vterm/emulator/VTxEmulator.java:539-540 | one pass moves the rest of the row right by one and puts a space at (x, y) (EmulatorProps.InsertBlankCells); only the terminal changes |
| Emulators.VTxEmulator.InsertBlankChars | vterm-emulator/src/main/java/nl/piter/vterm/emulator/VTxEmulator.java:535-542 | ICH inserts n blanks at the cursor |
| Emulators.VTxEmulator.InsertBlanksAt | vterm-emulator/src/main/java/nl/piter/vterm/emulator/VTxEmulator.java:538-541 | the loop gives n single insertions at (x, y) in turn; only the terminal changes |
| Emulators.VTxEmulator.RepeatChar | vterm-emulator/src/main/java/nl/piter/vterm/emulator/VTxEmulator.java:543-549 | REP writes the last character n times, and ends the session when no character was written yet (EmulatorProps.RepeatRule) |
| Emulators.VTxEmulator.DecScreenAlignmentTest | vterm-emulator/src/main/java/nl/piter/vterm/emulator/VTxEmulator.java:813-829 | DECALN fills the region's rows, or all rows, with 'E' (EmulatorProps.AlignmentFills) |
| Emulators.VTxEmulator.SgrNumber | vterm-emulator/src/main/java/nl/piter/vterm/emulator/VTxEmulator.java:996-1016 | one SGR number: an ECMA-48 style mode, a palette colour, or the default colour, as EmulatorModeProps.StyleModes, PaletteColors and DefaultColors state |
| Emulators.VTxEmulator.HandleSetFontStyle | vterm-emulator/src/main/java/nl/piter/vterm/emulator/VTxEmulator.java:953-1019 | SGR with no arguments clears the style; otherwise the numbers are applied in turn (EmulatorModeProps.ResetWithoutArguments, SgrKeeps) |
| Emulators.VTxEmulator.ExtendedColor | vterm-emulator/src/main/java/nl/piter/vterm/emulator/VTxEmulator.java:967-995 | 38/48 reads its sub-mode and values as far as they go; the rest of the list is handled from where it stopped, and an invalid RGB colour ends the session (EmulatorModeProps.IndexedColors, RgbForeground) |
| Emulators.VTxEmulator.SetDecMode | vterm-emulator/src/main/java/nl/piter/vterm/emulator/VTxEmulator.java:1033-1110 | one DEC private mode, set or reset, as EmulatorModeProps.FlagSet, OriginModeRule, AltScreenClears and UnknownModeIgnored state |
| Emulators.VTxEmulator.SetOriginMode | vterm-emulator/src/main/java/nl/piter/vterm/emulator/VTxEmulator.java:1050-1059 | DECOM set homes the cursor to the region's top; reset drops the region and homes the cursor (EmulatorModeProps.OriginModeRule) |
| Emulators.VTxEmulator.SetAltScreenMode | vterm-emulator/src/main/java/nl/piter/vterm/emulator/VTxEmulator.java:1089-1102 | mode 1049 saves the cursor, turns on application keys and shows a cleared alternate screen, and undoes all three on reset (EmulatorModeProps.AltScreenClears, AltScreenRoundTrip) |
| Emulators.VTxEmulator.SetDecFlag | vterm-emulator/src/main/java/nl/piter/vterm/emulator/VTxEmulator.java:1034-1106 | the mode's own flag takes the value and every other flag is kept (EmulatorModeProps.FlagSet, FlagRoundTrip) |
| Emulators.VTxEmulator.HandleDecMode | vterm-emulator/src/main/java/nl/piter/vterm/emulator/VTxEmulator.java:1021-1112 | every argument is applied in turn as a mode (EmulatorModeProps.DecModesSetAll) |
| Emulators.VTxEmulator.Send | vterm-emulator/src/main/java/nl/piter/vterm/emulator/VTxEmulator.java:1309-1320 | a reply is appended after those already sent, and nothing else changes |
| Emulators.VTxEmulator.DeviceStatus | vterm-emulator/src/main/java/nl/piter/vterm/emulator/VTxEmulator.java:1247-1258 | DSR 6 sends `ESC [ row ; col R`, 1-based; other requests change nothing (EmulatorModeProps.DeviceStatusRule, CursorReportRoundTrip) |
| Emulators.VTxEmulator.HandleGraphMode | vterm-emulator/src/main/java/nl/piter/vterm/emulator/VTxEmulator.java:729-740 | OSC 0, 1 and 2 report the text as a title; other kinds change no state (EmulatorModeProps.GraphModeRule) |
| Emulators.VTxEmulator.HandleWindowManipulation | vterm-emulator/src/main/java/nl/piter/vterm/emulator/VTxEmulator.java:689-714 | window operation 18 sends `ESC [ 8 ; rows ; cols t`; the rest send nothing (EmulatorModeProps.WindowSizeRule) |
| Emulators.VTxEmulator.HandleXtermSetGetGraphics | vterm-emulator/src/main/java/nl/piter/vterm/emulator/VTxEmulator.java:649-687 | for id 1, get and max reply 1024 and set and reset echo the value; anything else sends nothing (EmulatorModeProps.GraphicsRule) |
| Emulators.VTxEmulator.HorizontalTab | vterm-emulator/src/main/java/nl/piter/vterm/emulator/VTxEmulator.java:322-330 | HT moves to the next tab stop, never past the last column (EmulatorProps.TabStopNext) |
| Emulators.VTxEmulator.BackSpace | vterm-emulator/src/main/java/nl/piter/vterm/emulator/VTxEmulator.java:331-340 | BS and DEL move one column left, from column 0 to the end of the row above (EmulatorProps.BackspaceMoves) |
| Emulators.VTxEmulator.LineFeed | vterm-emulator/src/main/java/nl/piter/vterm/emulator/VTxEmulator.java:341-358 | LF, VT and FF move one row down, or scroll the region on its last row (EmulatorProps.LineFeedMoves, LineFeedScrolls) |
| Emulators.VTxEmulator.Index | vterm-emulator/src/main/java/nl/piter/vterm/emulator/VTxEmulator.java:431-442 | IND moves down one row, or scrolls the region up on its last row without moving the cursor |
| Emulators.VTxEmulator.NextLine | vterm-emulator/src/main/java/nl/piter/vterm/emulator/VTxEmulator.java:443-455 | NEL goes to column 0 of the next row, scrolling the region on its last row |
| Emulators.VTxEmulator.ReverseIndex | vterm-emulator/src/main/java/nl/piter/vterm/emulator/VTxEmulator.java:456-468 | RI moves up one row, or scrolls the region down at its top |
| Emulators.VTxEmulator.SetRegion | vterm-emulator/src/main/java/nl/piter/vterm/emulator/VTxEmulator.java:386-400 | DECSTBM sets or drops the region and homes the cursor to its top (EmulatorProps.SetRegionRule) |
| Emulators.VTxEmulator.CursorPosition | vterm-emulator/src/main/java/nl/piter/vterm/emulator/VTxEmulator.java:477-494 | CUP with 1-based row and column, counted from the region's top in origin mode (EmulatorProps.CursorPositionRule) |
| Emulators.VTxEmulator.DeleteChars | vterm-emulator/src/main/java/nl/piter/vterm/emulator/VTxEmulator.java:409-415 | DCH moves the rest of the row n columns left onto the cursor (EmulatorProps.DeleteCharsCells); where that move runs away the row is blanked from the cursor (EmulatorProps.DeleteCharsPastEnd) |
| Emulators.VTxEmulator.InsertLines | vterm-emulator/src/main/java/nl/piter/vterm/emulator/VTxEmulator.java:469-476 | IL scrolls the rows from the cursor's to the region's bottom down by n |
| Emulators.VTxEmulator.LineErase | vterm-emulator/src/main/java/nl/piter/vterm/emulator/VTxEmulator.java:495-514 | EL 0, 1 and 2 clear the cursor's row to its end, up to the cursor, or whole (EmulatorProps.LineEraseToEnd, LineEraseToCursor) |
| Emulators.VTxEmulator.ScreenErase | vterm-emulator/src/main/java/nl/piter/vterm/emulator/VTxEmulator.java:515-534 | ED 0 and 1 clear from the cursor to the end or from the start to the cursor; ED 2, the default, clears the whole screen and homes the cursor (EmulatorProps.ScreenEraseAll) |
| Emulators.VTxEmulator.EndOfStreamToken | vterm-emulator/src/main/java/nl/piter/vterm/emulator/VTxEmulator.java:303-310 | EOF and EOT end the session (SessionProps.EndOfStreamEnds) |
| Emulators.VTxEmulator.IdentificationToken | vterm-emulator/src/main/java/nl/piter/vterm/emulator/VTxEmulator.java:594-605 | DECID and DA send the primary or secondary device attributes, DSR the cursor report; the screen is untouched (EmulatorModeProps.IdentificationKeepsTerminal) |
| Emulators.VTxEmulator.XtermControlToken | vterm-emulator/src/main/java/nl/piter/vterm/emulator/VTxEmulator.java:589-621 | OSC, window and graphics requests only report (EmulatorModeProps.XtermControlKeepsTerminal) |
| Emulators.VTxEmulator.TabAndReturnToken | vterm-emulator/src/main/java/nl/piter/vterm/emulator/VTxEmulator.java:322-367 | HT, BS, DEL and CR as their operations; CR goes to column 0 |
| Emulators.VTxEmulator.CursorMoveToken | vterm-emulator/src/main/java/nl/piter/vterm/emulator/VTxEmulator.java:368-379 | CUU, CUD, CUB and CUF move by the first argument, 1 when it is absent or 0 |
| Emulators.VTxEmulator.CursorSetToken | vterm-emulator/src/main/java/nl/piter/vterm/emulator/VTxEmulator.java:477-494 | CHA and VPA set the column or the row from the 1-based argument; CUP sets both |
| Emulators.VTxEmulator.LineFeedsToken | vterm-emulator/src/main/java/nl/piter/vterm/emulator/VTxEmulator.java:341-358 | LF, VT and FF are one line feed |
| Emulators.VTxEmulator.IndexesToken | vterm-emulator/src/main/java/nl/piter/vterm/emulator/VTxEmulator.java:431-468 | IND, NEL and RI as their operations |
| Emulators.VTxEmulator.RegionAndSavedToken | vterm-emulator/src/main/java/nl/piter/vterm/emulator/VTxEmulator.java:380-400 | DECSTBM, DECSC and DECRC as their operations |
| Emulators.VTxEmulator.WritingToken | vterm-emulator/src/main/java/nl/piter/vterm/emulator/VTxEmulator.java:543-549 | CHAR keeps its bytes as the last character and writes them; REP repeats the last character |
| Emulators.VTxEmulator.LineEditsToken | vterm-emulator/src/main/java/nl/piter/vterm/emulator/VTxEmulator.java:423-430 | SU and SD scroll by the count (1 when absent), IL inserts and DL blanks lines |
| Emulators.VTxEmulator.CharEditsToken | vterm-emulator/src/main/java/nl/piter/vterm/emulator/VTxEmulator.java:409-422 | DCH, ECH and ICH with the count, 1 when absent or 0 |
| Emulators.VTxEmulator.ErasingToken | vterm-emulator/src/main/java/nl/piter/vterm/emulator/VTxEmulator.java:495-534 | EL, ED and DECALN as their operations |
| Emulators.VTxEmulator.RenditionToken | vterm-emulator/src/main/java/nl/piter/vterm/emulator/VTxEmulator.java:550-557 | SGR applies the attributes; DECSET and DECRST apply every mode with true or false |
| Emulators.VTxEmulator.CharSetsToken | vterm-emulator/src/main/java/nl/piter/vterm/emulator/VTxEmulator.java:780-811 | SI and SO select slot 0 or 1; SCS designates slot 0..3 with the mapped charset (EmulatorModeProps.DesignateRule) |
| Emulators.VTxEmulator.NextToken | vterm-emulator/src/main/java/nl/piter/vterm/emulator/VTxEmulator.java:269-647 | one token's case of the switch; tokens that are only logged, and unknown ones, leave the machine unchanged |
| Emulators.VTxEmulator.Start | vterm-emulator/src/main/java/nl/piter/vterm/emulator/VTxEmulator.java:231-263 | the machine after start() has read the token stream is Run over it: nextToken for each token until the session ends, and nothing after (SessionProps.RunStopped, RunAppend) |
| Emulators.WrapFirst | vterm-emulator/src/main/java/nl/piter/vterm/emulator/VTxEmulator.java:1162-1171 | with a wrap pending on the last column, writing a character is a newline followed by the write |
| Emulators.WriteWithoutWrap | vterm-emulator/src/main/java/nl/piter/vterm/emulator/VTxEmulator.java:1162-1180 | with no wrap pending: write then move right, make the wrap pending, or write then newline without auto-wrap |
| Emulators.WriteCharsStep | vterm-emulator/src/main/java/nl/piter/vterm/emulator/VTxEmulator.java:545-547 | one more pass of REP's loop is one more writeChar |
| Emulators.InsertBlanksLast | vterm-emulator/src/main/java/nl/piter/vterm/emulator/VTxEmulator.java:538-541 | the last of n + 1 passes of ICH's loop comes after the other n |
| Emulators.BlankLinesStep | vterm-emulator/src/main/java/nl/piter/vterm/emulator/VTxEmulator.java:425-427 | one more row of DL's loops blanks all but the last column of that row |
| Emulators.SgrPlainStep | vterm-emulator/src/main/java/nl/piter/vterm/emulator/VTxEmulator.java:964-1017 | an SGR number other than 38 and 48 is applied and the loop goes on with the next |
| EmulatorSpec.Count | vterm-emulator/src/main/java/nl/piter/vterm/emulator/VTxEmulator.java:293-296 | the increment and repeat count is at least 1 and equals arg1 whenever arg1 is positive |
| EmulatorSpec.JavaDiv | vterm-emulator/src/main/java/nl/piter/vterm/emulator/VTxEmulator.java:323 | Java's integer division truncates toward zero: on a non-negative dividend it is Dafny's division with a remainder in [0, b), on a negative one the negated quotient of the magnitude with a remainder in (-b, 0] |
| EmulatorSpec.SetCursor | vterm-emulator/src/main/java/nl/piter/vterm/emulator/VTxEmulator.java:838-851 | setCursor always clears the pending wrap and keeps the machine well formed |
| EmulatorSpec.AutoNewline | vterm-emulator/src/main/java/nl/piter/vterm/emulator/VTxEmulator.java:940-951 | autoNewline leaves no wrap pending |
| EmulatorSpec.Advance | vterm-emulator/src/main/java/nl/piter/vterm/emulator/VTxEmulator.java:1374-1380 | safeNext never moves the iterator backwards nor past the end of the arguments |
| EmulatorSpec.ScrollCount | vterm-emulator/src/main/java/nl/piter/vterm/emulator/VTxEmulator.java:359-363 | the corrected scroll count is at least 1 |
| EmulatorSpec.PutRun | vterm-emulator/src/main/java/nl/piter/vterm/emulator/VTxEmulator.java:418-419 | the putChar loop changes only the screen (cells in EmulatorProps.PutRunCells) |
| EmulatorSpec.InsertBlanks | vterm-emulator/src/main/java/nl/piter/vterm/emulator/VTxEmulator.java:538-541 | ICH's loop changes only the screen |
| EmulatorProps.MoveCursorClamps | vterm-emulator/src/main/java/nl/piter/vterm/emulator/VTxEmulator.java:853-890 | moveCursor keeps the cursor on the screen and in the region, moves it by exactly (dx, dy) when that target is inside, clears the pending wrap and changes nothing else |
| EmulatorProps.TabStopNext | vterm-emulator/src/main/java/nl/piter/vterm/emulator/VTxEmulator.java:322-330 | HT goes to the first tab stop right of the cursor, or to the last column when that stop lies beyond it, and passes no stop |
| EmulatorProps.BackspaceMoves | vterm-emulator/src/main/java/nl/piter/vterm/emulator/VTxEmulator.java:331-340 | BS moves one column left, and from column 0 to the last column of the row above; the screen is untouched |
| EmulatorProps.LineFeedMoves | vterm-emulator/src/main/java/nl/piter/vterm/emulator/VTxEmulator.java:341-358 | LF above the region's last row moves the cursor one row down and changes nothing else but the pending wrap |
| EmulatorProps.LineFeedScrolls | vterm-emulator/src/main/java/nl/piter/vterm/emulator/VTxEmulator.java:341-358 | LF on the region's last row scrolls the region up one line and keeps the cursor where it is |
| EmulatorProps.CursorPositionExample | vterm-emulator/src/main/java/nl/piter/vterm/emulator/VTxEmulator.java:477-494 | `ESC [ 14 ; 43 H` puts the cursor on row 13, column 42, counted from 0 |
| EmulatorProps.CursorPositionRule | vterm-emulator/src/main/java/nl/piter/vterm/emulator/VTxEmulator.java:477-494 | CUP row;col goes to column col - 1 and row row - 1, offset by the region's top in origin mode and held to the region; without arguments it goes home |
| EmulatorProps.SetRegionRule | vterm-emulator/src/main/java/nl/piter/vterm/emulator/VTxEmulator.java:386-400 | DECSTBM without arguments drops the region; with top;bottom the region is rows top - 1 up to bottom, and the cursor goes to column 0 of its top |
| EmulatorProps.WriteCharAdvances | vterm-emulator/src/main/java/nl/piter/vterm/emulator/VTxEmulator.java:1177-1180 | off the last column a character lands under the cursor, every other cell is kept, and the cursor moves one column right |
| EmulatorProps.WriteCharDefersWrap | vterm-emulator/src/main/java/nl/piter/vterm/emulator/VTxEmulator.java:1162-1166 | on the last column with auto-wrap the character is written there, the cursor stays and the wrap becomes pending |
| EmulatorProps.WrapOverwritesAsWritten | vterm-emulator/src/main/java/nl/piter/vterm/emulator/VTxEmulator.java:1167-1171 | as written, the character after a pending wrap goes to column 0 of the next row and the cursor stays there, so the next character overwrites it |
| EmulatorProps.PendingWrapNewline | vterm-emulator/src/main/java/nl/piter/vterm/emulator/VTxEmulator.java:940-951 | with a wrap pending the next character first moves to column 0 of the next row, then is written as an ordinary character |
| EmulatorProps.WrapKeepsBoth | vterm-emulator/src/main/java/nl/piter/vterm/emulator/VTxEmulator.java:1156-1182 | with the corrected wrap, two characters after a pending wrap land in columns 0 and 1 of the next row and the cursor stands on column 2 |
| EmulatorProps.AdvancedInside | vterm-emulator/src/main/java/nl/piter/vterm/emulator/VTxEmulator.java:1177-1180 | a cursor advanced along its row stays on the screen and writes with the same pen |
| EmulatorProps.WriteCharsAdvance | vterm-emulator/src/main/java/nl/piter/vterm/emulator/VTxEmulator.java:545-547 | one more character of a run moves the cursor one more column |
| EmulatorProps.WriteCharsCursor | vterm-emulator/src/main/java/nl/piter/vterm/emulator/VTxEmulator.java:545-547 | n characters written from a cursor with room for them leave the cursor n columns further right |
| EmulatorProps.WriteCharsLast | vterm-emulator/src/main/java/nl/piter/vterm/emulator/VTxEmulator.java:545-547 | the n-th character goes to the cell where the first n - 1 left the cursor, and nothing else changes |
| EmulatorProps.WriteCharsStep | vterm-emulator/src/main/java/nl/piter/vterm/emulator/VTxEmulator.java:545-547 | a run of n - 1 written cells grows by one cell with the next character |
| EmulatorProps.WriteCharsRun | vterm-emulator/src/main/java/nl/piter/vterm/emulator/VTxEmulator.java:545-547 | n characters fill n consecutive cells of the cursor's row with the pen and keep every other cell |
| EmulatorProps.RepeatRule | vterm-emulator/src/main/java/nl/piter/vterm/emulator/VTxEmulator.java:543-549 | REP n writes the last character n times; with no last character the session ends |
| EmulatorProps.ScrollWithoutArgumentAsWritten | vterm-emulator/src/main/java/nl/piter/vterm/emulator/VTxEmulator.java:359-363 | as written, SU without an argument scrolls by 0 lines, which blanks every cell of the region |
| EmulatorProps.ScrollWithoutArgument | vterm-emulator/src/main/java/nl/piter/vterm/emulator/VTxEmulator.java:359-363 | with the count defaulting to 1, SU without an argument moves every row of the region up one, blanks its last row and keeps the rows outside it |
| EmulatorProps.PutRunCells | vterm-emulator/src/main/java/nl/piter/vterm/emulator/VTxEmulator.java:418-419 | putChar over n cells from (x, y): those cells on the screen take the pen, every other cell is kept |
| EmulatorProps.PutRunInside | vterm-emulator/src/main/java/nl/piter/vterm/emulator/VTxEmulator.java:418-419 | a cell of the run takes the pen |
| EmulatorProps.PutRunOutside | vterm-emulator/src/main/java/nl/piter/vterm/emulator/VTxEmulator.java:418-419 | a cell outside the run is kept |
| EmulatorProps.BlankLinesCells | vterm-emulator/src/main/java/nl/piter/vterm/emulator/VTxEmulator.java:423-430 | DL's loops put the pen's spaces over all but the last column of rows y to y + n - 1, and nothing else |
| EmulatorProps.FillRowsCells | vterm-emulator/src/main/java/nl/piter/vterm/emulator/VTxEmulator.java:824-828 | DECALN's loops put 'E' over every cell of the rows filled, and nothing else |
| EmulatorProps.AlignmentFills | vterm-emulator/src/main/java/nl/piter/vterm/emulator/VTxEmulator.java:813-829 | DECALN fills exactly the region's rows, or all rows, with 'E' and keeps the cursor and the state |
| EmulatorProps.LineEraseToEnd | vterm-emulator/src/main/java/nl/piter/vterm/emulator/VTxEmulator.java:495-503 | EL without an argument clears the cursor's row from the cursor to its end with the pen's spaces, and nothing else |
| EmulatorProps.LineEraseToCursor | vterm-emulator/src/main/java/nl/piter/vterm/emulator/VTxEmulator.java:504-506 | EL 1 clears the cursor's row from its start up to the cursor, inclusive, and nothing else |
| EmulatorProps.ScreenEraseAll | vterm-emulator/src/main/java/nl/piter/vterm/emulator/VTxEmulator.java:515-534 | ED without an argument is mode 2: every cell is cleared with the pen's spaces and the cursor goes to column 0 of row 0, held to the region |
| EmulatorProps.InsertBlankCells | vterm-emulator/src/main/java/nl/piter/vterm/emulator/VTxEmulator.java:539-540 | one inserted blank: a space at (x, y), the rest of the row shifted right by one, every other row kept |
| EmulatorProps.DeleteCharsCells | vterm-emulator/src/main/java/nl/piter/vterm/emulator/VTxEmulator.java:409-415 | DCH n, with at least 2n cells right of the cursor: each cell from the cursor on takes the one n further right, the last n cells of the row are cleared, other rows are kept |
| EmulatorProps.DeleteCharsRunsAway | vterm-emulator/src/main/java/nl/piter/vterm/emulator/VTxEmulator.java:409-415 | as written, DCH 100 at column 0 of an 80-column row moves a block of width -20, whose column loop only meets its end after 2^32 - 20 passes |
| EmulatorProps.DeleteCharsPastEnd | vterm-emulator/src/main/java/nl/piter/vterm/emulator/VTxEmulator.java:409-415 | DCH reaching past the last column blanks the row from the cursor on and keeps every other cell |
| EmulatorProps.SaveRestoreRoundTrip | vterm-emulator/src/main/java/nl/piter/vterm/emulator/VTxEmulator.java:1139-1154 | DECRC right after DECSC changes nothing, when the cursor row is one setCursor keeps and a zero style has no colours to drop |
| EmulatorProps.RestoreSlotAfterSave | vterm-emulator/src/main/java/nl/piter/vterm/emulator/VTxEmulator.java:1139-1154 | the position, wrap flag, style and slot restored right after saving are the ones in place |
| EmulatorProps.SaveRestoreStyleZero | vterm-emulator/src/main/java/nl/piter/vterm/emulator/VTxEmulator.java:1139-1154 | with draw style 0 the round trip resets both colour indices to the default |
| EmulatorProps.RestoreBeforeSaveAsWritten | vterm-emulator/src/main/java/nl/piter/vterm/emulator/VTxEmulator.java:1139-1145 | as written, DECRC before any DECSC looks up a null charset name, which throws and ends the session |
| EmulatorProps.RestoreBeforeSave | vterm-emulator/src/main/java/nl/piter/vterm/emulator/VTxEmulator.java:1139-1145 | the corrected restore before any save homes the cursor, selects slot 0, keeps the charset table and the session |
| EmulatorModeProps.ResetWithoutArguments | vterm-emulator/src/main/java/nl/piter/vterm/emulator/VTxEmulator.java:956-960 | SGR without arguments sets style 0, which resets both colours, and changes nothing else |
| EmulatorModeProps.DefaultsDifferOnlyOn39And49 | vterm-emulator/src/main/java/nl/piter/vterm/emulator/VTxEmulator.java:1000-1013 | the code as written and the corrected mapping differ exactly on 39 and 49 |
| EmulatorModeProps.DefaultColorsAsWritten | vterm-emulator/src/main/java/nl/piter/vterm/emulator/VTxEmulator.java:1004-1007 | as written, SGR 39 resets the background and SGR 49 the foreground |
| EmulatorModeProps.DefaultColors | vterm-emulator/src/main/java/nl/piter/vterm/emulator/VTxEmulator.java:1004-1007 | corrected, SGR 39 resets only the foreground and SGR 49 only the background, custom colours included |
| EmulatorModeProps.PaletteColors | vterm-emulator/src/main/java/nl/piter/vterm/emulator/VTxEmulator.java:1000-1013 | 30..37 and 40..47 set palette colours 0..7, 90..97 and 100..107 colours 8..15, leaving the other colour and the style alone |
| EmulatorModeProps.StyleModes | vterm-emulator/src/main/java/nl/piter/vterm/emulator/VTxEmulator.java:996-999 | a mode EcmaMapping knows changes the style word as EcmaMapping.Apply does and keeps the colours (unless the style becomes 0) |
| EmulatorModeProps.IndexedColors | vterm-emulator/src/main/java/nl/piter/vterm/emulator/VTxEmulator.java:984-992 | `38;5;n` and `48;5;n` set the foreground or background palette index n |
| EmulatorModeProps.RgbForeground | vterm-emulator/src/main/java/nl/piter/vterm/emulator/VTxEmulator.java:970-980 | `38;2;r;g;b` sets that custom foreground when each component is in [0, 255], and otherwise ends the session |
| EmulatorModeProps.LateRgbEndsSession | vterm-emulator/src/main/java/nl/piter/vterm/emulator/VTxEmulator.java:969-980 | `1;38;2;r;g` has five arguments, so a missing blue reads as -1 and the colour is refused, ending the session |
| EmulatorModeProps.SgrModeKeeps | vterm-emulator/src/main/java/nl/piter/vterm/emulator/VTxEmulator.java:996-1016 | one SGR number changes only the pen (style and colours) |
| EmulatorModeProps.SgrKeeps | vterm-emulator/src/main/java/nl/piter/vterm/emulator/VTxEmulator.java:963-1017 | a whole SGR list changes only the pen, or ends the session |
| EmulatorModeProps.StepIsFlag | vterm-emulator/src/main/java/nl/piter/vterm/emulator/VTxEmulator.java:1033-1110 | a mode without a case of its own only switches a flag |
| EmulatorModeProps.StateFlagRule | vterm-emulator/src/main/java/nl/piter/vterm/emulator/VTxEmulator.java:1034-1106 | modes 1, 4, 7, 1004 and 2004 set their own emulator flag and keep the others and the pending wrap |
| EmulatorModeProps.StateFlagRoundTrip | vterm-emulator/src/main/java/nl/piter/vterm/emulator/VTxEmulator.java:1034-1106 | setting an emulator flag back to its old value restores the DEC modes |
| EmulatorModeProps.DisplayFlagRule | vterm-emulator/src/main/java/nl/piter/vterm/emulator/VTxEmulator.java:1047-1069 | modes 5, 12 and 25 set their own terminal flag, keep the others, the screen and the cursor, and setting one back restores the terminal |
| EmulatorModeProps.OtherModesKeepFlags | vterm-emulator/src/main/java/nl/piter/vterm/emulator/VTxEmulator.java:1033-1110 | a mode that is no flag changes no flag |
| EmulatorModeProps.FlagSet | vterm-emulator/src/main/java/nl/piter/vterm/emulator/VTxEmulator.java:1033-1110 | a flag mode sets its own flag to the value, keeps every other flag, the screen and the cursor |
| EmulatorModeProps.FlagRoundTrip | vterm-emulator/src/main/java/nl/piter/vterm/emulator/VTxEmulator.java:1033-1110 | setting a flag mode back to its old value restores the machine |
| EmulatorModeProps.UnknownModeIgnored | vterm-emulator/src/main/java/nl/piter/vterm/emulator/VTxEmulator.java:1078-1109 | modes 1034 and unknown modes change nothing |
| EmulatorModeProps.FlagKept | vterm-emulator/src/main/java/nl/piter/vterm/emulator/VTxEmulator.java:1033-1110 | setting another flag, or an unknown mode, keeps a flag's value |
| EmulatorModeProps.DecModesSetAll | vterm-emulator/src/main/java/nl/piter/vterm/emulator/VTxEmulator.java:1021-1112 | after DECSET or DECRST with a list of flag modes, every flag named in the list has the value |
| EmulatorModeProps.OriginModeRule | vterm-emulator/src/main/java/nl/piter/vterm/emulator/VTxEmulator.java:1050-1059 | DECOM set homes the cursor to the region's top and keeps the region; reset drops the region and homes the cursor |
| EmulatorModeProps.AltScreenClears | vterm-emulator/src/main/java/nl/piter/vterm/emulator/VTxEmulator.java:1089-1096 | mode 1049 set saves the cursor, turns on application keys, keeps the main screen and shows a blank alternate screen |
| EmulatorModeProps.AltScreenRoundTrip | vterm-emulator/src/main/java/nl/piter/vterm/emulator/VTxEmulator.java:1089-1102 | mode 1049 set then reset brings back the main screen and the cursor and turns application keys off |
| EmulatorModeProps.RestoreKeepsScreen | vterm-emulator/src/main/java/nl/piter/vterm/emulator/VTxEmulator.java:1139-1145 | DECRC puts the cursor at the saved position, held to the region, and keeps the screen and the keys mode |
| EmulatorModeProps.RestoreSlotKeeps | vterm-emulator/src/main/java/nl/piter/vterm/emulator/VTxEmulator.java:1139-1145 | restoring the slot puts the cursor at the saved position, held to the region, and keeps the screen |
| EmulatorModeProps.NameRoundTrip | vterm-emulator/src/main/java/nl/piter/vterm/emulator/VTxEmulator.java:1144 | a charset's name, as toString gives it, is read back by valueOf as that charset |
| EmulatorModeProps.NamesDistinct | vterm-emulator/src/main/java/nl/piter/vterm/emulator/VTxEmulator.java:1144 | two charsets have the same name exactly when they are the same |
| EmulatorModeProps.GraphicsDesignators | vterm-emulator/src/main/java/nl/piter/vterm/emulator/VTxEmulator.java:780-811 | mapCharSet gives the graphics set exactly for '0' and SI, US for 'B' and UK for 'A' |
| EmulatorModeProps.DesignateRule | vterm-emulator/src/main/java/nl/piter/vterm/emulator/VTxEmulator.java:577-588 | SCS stores the mapped charset in its slot only, keeping the selected slot and the screen |
| EmulatorModeProps.NoSemicolon | vterm-emulator/src/main/java/nl/piter/vterm/emulator/VTxEmulator.java:1249 | a decimal number has no ';' in it |
| EmulatorModeProps.CursorReportRoundTrip | vterm-emulator/src/main/java/nl/piter/vterm/emulator/VTxEmulator.java:1247-1258 | the cursor report `ESC [ y+1 ; x+1 R` reads back as the cursor position (x, y) |
| EmulatorModeProps.SessionKeepsTerminal | vterm-emulator/src/main/java/nl/piter/vterm/emulator/VTxEmulator.java:589-621 | end-of-stream, identification and xterm control tokens change neither the terminal nor the emulator state |
| EmulatorModeProps.IdentificationKeepsTerminal | vterm-emulator/src/main/java/nl/piter/vterm/emulator/VTxEmulator.java:594-605 | identification tokens only send replies |
| EmulatorModeProps.XtermControlKeepsTerminal | vterm-emulator/src/main/java/nl/piter/vterm/emulator/VTxEmulator.java:589-621 | xterm control tokens only send replies or report titles |
| EmulatorModeProps.DeviceStatusRule | vterm-emulator/src/main/java/nl/piter/vterm/emulator/VTxEmulator.java:563-570 | DSR 6 sends the cursor report; any other DSR changes nothing |
| EmulatorModeProps.GraphModeRule | vterm-emulator/src/main/java/nl/piter/vterm/emulator/VTxEmulator.java:729-740 | OSC 0, 1 and 2 add a title event with the text; other kinds add none; nothing is sent and the terminal is kept |
| EmulatorModeProps.WindowSizeRule | vterm-emulator/src/main/java/nl/piter/vterm/emulator/VTxEmulator.java:689-714 | window operation 18 sends the size report; other operations send nothing |
| EmulatorModeProps.GraphicsRule | vterm-emulator/src/main/java/nl/piter/vterm/emulator/VTxEmulator.java:649-687 | for colour registers, get and max reply 1024, set and reset echo the value, other actions change nothing |
| SessionProps.RunAfterEnd | vterm-emulator/src/main/java/nl/piter/vterm/emulator/VTxEmulator.java:236 | a token after the session has ended leaves the machine as it is |
| SessionProps.RunStopped | vterm-emulator/src/main/java/nl/piter/vterm/emulator/VTxEmulator.java:236-258 | once the session has ended, no later token changes anything |
| SessionProps.EndOfStreamEnds | vterm-emulator/src/main/java/nl/piter/vterm/emulator/VTxEmulator.java:303-310 | an EOF or EOT token ends the session |
| SessionProps.RunSameStep | vterm-emulator/src/main/java/nl/piter/vterm/emulator/VTxEmulator.java:236-258 | two streams that reached the same machine and continue with the same token reach the same machine again |
| SessionProps.RunReadsPrefix | vterm-emulator/src/main/java/nl/piter/vterm/emulator/VTxEmulator.java:236-258 | the first n tokens alone decide the machine after n tokens |
| SessionProps.RunOfLeftPart | vterm-emulator/src/main/java/nl/piter/vterm/emulator/VTxEmulator.java:236-258 | reading the first part of a concatenated stream is reading that part |
| SessionProps.AppendStep | vterm-emulator/src/main/java/nl/piter/vterm/emulator/VTxEmulator.java:236-258 | one more token of the second part, read after the first |
| SessionProps.RunAppend | vterm-emulator/src/main/java/nl/piter/vterm/emulator/VTxEmulator.java:236-258 | reading a + b is reading a, then reading b from where a left off |
| SessionProps.TerminatedRunsNothing | vterm-emulator/src/main/java/nl/piter/vterm/emulator/VTxEmulator.java:236 | an ended session reads nothing at all |
| Terminals.Pen | vterm-emulator/src/main/java/nl/piter/vterm/ui/panels/charpane/CharPane.java:609-617 | a written cell carries the given bytes, the current draw style, the current charset's name, the current foreground and background indexes and alpha -1 |
| Terminals.PutChar | vterm-emulator/src/main/java/nl/piter/vterm/ui/panels/charpane/CharPane.java:595-624 | putChar changes only the visible grid; size, cursor, pen and charsets stay as they were |
| Terminals.ScreenOnlyKeepsPen | vterm-emulator/src/main/java/nl/piter/vterm/ui/panels/charpane/CharPane.java:595-624 | after an operation that only changes the grid, the pen a later putChar uses is the same as before |
| Terminals.PutCharCell | vterm-emulator/src/main/java/nl/piter/vterm/ui/panels/charpane/CharPane.java:595-624 | putChar at an in-bounds (x, y) gives that cell the pen's look; an out-of-bounds position and every other cell are left alone |
| Terminals.PutCharCells | vterm-emulator/src/main/java/nl/piter/vterm/ui/panels/charpane/CharPane.java:595-624 | the written cell holds the pen's look and no other cell changes |
| Terminals.WriteChar | vterm-emulator/src/main/java/nl/piter/vterm/ui/panels/charpane/CharPane.java:588-590 | writeChar is putChar at the cursor: only the grid changes |
| Terminals.SetCursor | vterm-emulator/src/main/java/nl/piter/vterm/ui/panels/charpane/CharPane.java:439-465 | the cursor becomes (x, y) even when out of range (the source only logs that) and nothing else changes |
| Terminals.ClearArea | vterm-emulator/src/main/java/nl/piter/vterm/ui/panels/charpane/CharPane.java:477-502 | clearArea changes only the grid |
| Terminals.ClearAreaCells | vterm-emulator/src/main/java/nl/piter/vterm/ui/panels/charpane/CharPane.java:477-502 | a cell inside [x1, x2) x [y1, y2), with an empty range widened to one and the ends clipped to the grid, gets a space in the current pen; every other cell is unchanged |
| Terminals.ClearText | vterm-emulator/src/main/java/nl/piter/vterm/ui/panels/charpane/CharPane.java:211-213 | clearing the text buffer changes only the grid |
| Terminals.ClearTextCells | vterm-emulator/src/main/java/nl/piter/vterm/ui/panels/charpane/CharPane.java:211-213 | after clearing every cell is the blank look |
| Terminals.Move | vterm-emulator/src/main/java/nl/piter/vterm/ui/panels/charpane/CharPane.java:504-549 | move runs away (None) exactly on a negative height or a negative width with rows; otherwise it changes only the grid |
| Terminals.MoveCells | vterm-emulator/src/main/java/nl/piter/vterm/ui/panels/charpane/CharPane.java:508-549 | each cell after the move is the one the block copy in the source's traversal order leaves there (copied from the source block, cleared, or untouched) |
| Terminals.ScrollAsWritten | vterm-emulator/src/main/java/nl/piter/vterm/ui/panels/charpane/CharPane.java:551-556 | scrollRegion as written (a move of end-start-lines rows with clearing of every source cell) runs away exactly when lines > end - start, and otherwise changes only the grid |
| Terminals.Scroll | vterm-emulator/src/main/java/nl/piter/vterm/ui/panels/charpane/CharPane.java:551-556 | the corrected scroll changes only the grid |
| Terminals.ScrollCells | vterm-emulator/src/main/java/nl/piter/vterm/ui/panels/charpane/CharPane.java:551-556 | each cell after the corrected scroll is given by the scroll's cell function |
| Terminals.ScrollUpEffect | vterm-emulator/src/main/java/nl/piter/vterm/ui/panels/charpane/CharPane.java:551-553 | scrolling up by n moves row j+n of [s, e) to row j, blanks the last n rows of the region and leaves rows outside it alone |
| Terminals.ScrollDownEffect | vterm-emulator/src/main/java/nl/piter/vterm/ui/panels/charpane/CharPane.java:551-556 | scrolling down by n moves row j-n to row j, blanks the first n rows of the region and leaves rows outside it alone |
| Terminals.ZeroScrollAsWrittenBlanks | vterm-emulator/src/main/java/nl/piter/vterm/ui/panels/charpane/CharPane.java:551-556 | as written, a scroll by 0 lines blanks every row of the region (the move clears its sources even when they are also the targets) |
| Terminals.OverlongScrollRunsAway | vterm-emulator/src/main/java/nl/piter/vterm/ui/panels/charpane/CharPane.java:551-556 | as written, scrolling 24 rows up by 30 runs away (a height of -6 whose row counter meets its end only after 2^32 - 6 passes), where the scroll blanks the screen |
| Terminals.OverlongScrollBlanks | vterm-emulator/src/main/java/nl/piter/vterm/ui/panels/charpane/CharPane.java:551-556 | scrolling a region by at least as many lines as it holds blanks every row of the region |
| Terminals.BlankRowFrom | vterm-emulator/src/main/java/nl/piter/vterm/emulator/VTxEmulator.java:409-415 | blanking a row from a column on keeps a valid terminal and changes only the grid (cells: Terminals.BlankRowFromCells) |
| BlockMoves.LoopRunsAway | vterm-emulator/src/main/java/nl/piter/vterm/ui/panels/charpane/CharPane.java:532-533 | a loop over n < 0 indices with a 32-bit counter tested with != meets its end only after 2^32 + n passes, at least 2^31, in either direction |
| BlockMoves.Int32 | vterm-emulator/src/main/java/nl/piter/vterm/ui/panels/charpane/CharPane.java:532 | 32-bit wrap-around: the result lies in the int range and differs from the value by a multiple of 2^32 |
| Terminals.ScrollZero | vterm-emulator/src/main/java/nl/piter/vterm/ui/panels/charpane/CharPane.java:551-556 | the corrected scroll by 0 lines changes nothing |
| Terminals.ScrollAgreesOnTallRegions | vterm-emulator/src/main/java/nl/piter/vterm/ui/panels/charpane/CharPane.java:551-556 | when the region holds at least twice the scrolled lines, the code as written and the corrected scroll give the same terminal |
| Terminals.ScrollAgreesAt | vterm-emulator/src/main/java/nl/piter/vterm/ui/panels/charpane/CharPane.java:551-556 | the same agreement, cell by cell |
| Terminals.InsertLinesStaleRow | vterm-emulator/src/main/java/nl/piter/vterm/ui/panels/charpane/CharPane.java:551-556 | inserting 3 lines in a 4-row region of 80x24 leaves a stale copy of row 21 as written, where the corrected scroll blanks it |
| Terminals.SetDrawStyle | vterm-emulator/src/main/java/nl/piter/vterm/ui/panels/charpane/CharPane.java:651-659 | the style is set; style 0 also resets both colour indexes to -1, any other style keeps them; nothing else changes |
| Terminals.SetDrawForeground | vterm-emulator/src/main/java/nl/piter/vterm/ui/panels/charpane/CharPane.java:678-682 | the foreground index is set and the custom foreground colour dropped |
| Terminals.SetDrawBackground | vterm-emulator/src/main/java/nl/piter/vterm/ui/panels/charpane/CharPane.java:673-676 | the background index is set and the custom background colour dropped |
| Terminals.SetDisplayFlags | vterm-emulator/src/main/java/nl/piter/vterm/ui/panels/charpane/CharPane.java:921-963 | reverse video, cursor blink and cursor visibility take the given values and nothing else changes |
| Terminals.SetCharSet | vterm-emulator/src/main/java/nl/piter/vterm/ui/panels/charpane/CharPane.java:634-637 | the current charset slot becomes nr and nothing else changes |
| Terminals.DesignateCharSet | vterm-emulator/src/main/java/nl/piter/vterm/ui/panels/charpane/CharPane.java:710-713 | slot i of the charset table holds the given name, every other slot is unchanged |
| Terminals.SetAltScreen | vterm-emulator/src/main/java/nl/piter/vterm/ui/panels/charpane/CharPane.java:937-951 | without alternate-screen support nothing changes; otherwise the selected buffer is the requested one, and switching swaps the visible and the stored grid |
| Terminals.AltScreenRoundTrip | vterm-emulator/src/main/java/nl/piter/vterm/ui/panels/charpane/CharPane.java:937-951 | switching to the alternate screen and back restores the terminal exactly |
| CharPanes.Drawn | vterm-emulator/src/main/java/nl/piter/vterm/ui/panels/charpane/CharPane.java:609-617 | the cell putChar writes shows the given bytes, charset name, style and colours with alpha -1 and is marked for repaint |
| CharPanes.AreaEnd | vterm-emulator/src/main/java/nl/piter/vterm/ui/panels/charpane/CharPane.java:479-495 | the exclusive end of a clearArea range is never past the grid; an empty range is widened to one cell, a longer one is clipped to the size |
| CharPanes.ResizeOffsetY | vterm-emulator/src/main/java/nl/piter/vterm/ui/panels/charpane/CharPane.java:825-830 | when the pane loses rows and the cursor is below the new last row, the content is shifted up just enough to keep the cursor's row as the new last row; otherwise there is no shift |
| CharPanes.ScrolledUp | vterm-emulator/src/main/java/nl/piter/vterm/ui/panels/charpane/CharPane.java:551-553 | after scrollRegion up by n (0 < n, region inside the grid) each row is the row n below it moved up, a cleared row, or untouched, as the block move prescribes |
| CharPanes.ScrolledDown | vterm-emulator/src/main/java/nl/piter/vterm/ui/panels/charpane/CharPane.java:554-556 | after scrollRegion down by n each row is the row n above it moved down, a cleared row, or untouched |
| CharPanes.CharPane.constructor | vterm-emulator/src/main/java/nl/piter/vterm/ui/panels/charpane/CharPane.java:86-107 | a new pane is 80x25 with both buffers filled with fresh cells, the full one current, charsets US and graphics in slots 0 and 1, cursor at the origin and the default pen |
| CharPanes.CharPane.Pen | vterm-emulator/src/main/java/nl/piter/vterm/ui/panels/charpane/CharPane.java:609-617 | the cell putChar stores shows the bytes with the pane's draw style, colour indexes, custom colours and current charset name, alpha -1, marked for repaint |
| CharPanes.CharPane.CharacterChanged | vterm-emulator/src/main/java/nl/piter/vterm/ui/panels/charpane/CharPane.java:474-477 | only the cell at (x, y) is marked for repaint and the buffer is flagged as changed |
| CharPanes.CharPane.SetCursor | vterm-emulator/src/main/java/nl/piter/vterm/ui/panels/charpane/CharPane.java:439-465 | the cursor becomes (x, y) without any range check; the new and the previous cursor cell are marked for repaint and no other cell changes |
| CharPanes.CharPane.PutChar | vterm-emulator/src/main/java/nl/piter/vterm/ui/panels/charpane/CharPane.java:595-624 | in bounds, the cell at (x, y) takes the pen's look and every other cell is unchanged; out of bounds nothing changes |
| CharPanes.CharPane.ClearArea | vterm-emulator/src/main/java/nl/piter/vterm/ui/panels/charpane/CharPane.java:477-502 | every cell of the widened and clipped area gets a space in the current pen; every other cell is unchanged |
| CharPanes.CharPane.ClearRow | vterm-emulator/src/main/java/nl/piter/vterm/ui/panels/charpane/CharPane.java:497-500 | one row of clearArea: cells x1..ex-1 of row y get a space in the current pen, no other cell changes |
| CharPanes.CharPane.Move | vterm-emulator/src/main/java/nl/piter/vterm/ui/panels/charpane/CharPane.java:508-549 | move finishes exactly when its loops do not run away (no negative height, no negative width on a block with rows); then the grid is what copying the block cell by cell in the source's order (backwards on an axis where the target lies further on) and clearing or filling each source cell leaves |
| CharPanes.CharPane.ScrollRegion | vterm-emulator/src/main/java/nl/piter/vterm/ui/panels/charpane/CharPane.java:551-556 | scrollRegion finishes exactly when lines <= end - start, and is then the move of the rows below (up) or the rows from start (down) by lines rows, over the whole width |
| CharPanes.CharPane.SetDrawStyle | vterm-emulator/src/main/java/nl/piter/vterm/ui/panels/charpane/CharPane.java:651-659 | the style is set; style 0 also resets both colour indexes to -1 |
| CharPanes.CharPane.AddDrawStyle | vterm-emulator/src/main/java/nl/piter/vterm/ui/panels/charpane/CharPane.java:669-671 | the new style is the old one or-ed with the given flags, with setDrawStyle's reset when that is 0 |
| CharPanes.CharPane.SetDrawBackground | vterm-emulator/src/main/java/nl/piter/vterm/ui/panels/charpane/CharPane.java:673-676 | the background index is set and the custom background colour dropped |
| CharPanes.CharPane.SetDrawForeground | vterm-emulator/src/main/java/nl/piter/vterm/ui/panels/charpane/CharPane.java:678-682 | the foreground index is set and the custom foreground colour dropped |
| CharPanes.CharPane.SetDrawForegroundRgb | vterm-emulator/src/main/java/nl/piter/vterm/ui/panels/charpane/CharPane.java:684-687 | the custom foreground becomes the given RGB colour |
| CharPanes.CharPane.SetDrawBackgroundRgb | vterm-emulator/src/main/java/nl/piter/vterm/ui/panels/charpane/CharPane.java:689-692 | the custom background becomes the given RGB colour |
| CharPanes.CharPane.SetCharSet | vterm-emulator/src/main/java/nl/piter/vterm/ui/panels/charpane/CharPane.java:634-637 | the current charset slot becomes nr |
| CharPanes.CharPane.SetAltScreenBuffer | vterm-emulator/src/main/java/nl/piter/vterm/ui/panels/charpane/CharPane.java:937-951 | without alternate-screen support it answers false and changes nothing; otherwise it answers true and the current buffer and buffer number follow useAlt |
| CharPanes.CharPane.ResizeBuffers | vterm-emulator/src/main/java/nl/piter/vterm/ui/panels/charpane/CharPane.java:808-846 | a resize to the current size without initAll is ignored; otherwise both buffers are new of the given size, the alternate one blank and the full one holding the old content shifted up by the cursor offset when copying, blank cells elsewhere |
| CharPanes.CharPane.NewScreen | vterm-emulator/src/main/java/nl/piter/vterm/ui/panels/charpane/CharPane.java:820-834 | a new buffer of the given size holds the old buffer's cells shifted up by offsety when copying, fresh cells elsewhere |
| CharPanes.CharPane.ResizeTextBuffers | vterm-emulator/src/main/java/nl/piter/vterm/ui/panels/charpane/CharPane.java:766-806 | after resizing the size is the requested one (or unchanged when the resize was ignored) and the cursor row is clamped to the last row |
| CharPanes.CharPane.MoveBlock | vterm-emulator/src/main/java/nl/piter/vterm/ui/panels/charpane/CharPane.java:529-541 | the nested loops of move, unless they run away, leave the grid the block move prescribes |
| CharPanes.CharPane.MoveRow | vterm-emulator/src/main/java/nl/piter/vterm/ui/panels/charpane/CharPane.java:530-540 | the inner loop of move finishes one row of the block move |
| CharPanes.CharPane.Vacate | vterm-emulator/src/main/java/nl/piter/vterm/ui/panels/charpane/CharPane.java:534-537 | the source cell is cleared, or takes the filler's look, and marked for repaint; no other cell changes |
| CharPanes.CharPane.MoveStep | vterm-emulator/src/main/java/nl/piter/vterm/ui/panels/charpane/CharPane.java:531-537 | one step of move copies the source cell to the target and then vacates the source |
| BlockMoves.SourceFirst | vterm-emulator/src/main/java/nl/piter/vterm/ui/panels/charpane/CharPane.java:511-527 | the loop directions of move visit a block index that reads a grid cell no later than the index that writes it |
| BlockMoves.NextColumn | vterm-emulator/src/main/java/nl/piter/vterm/ui/panels/charpane/CharPane.java:529-540 | one step of move's inner loop adds exactly its own target to the copied cells (unless the block sits on itself or its source is off the grid) and its own source to the cleared ones |
| BlockMoves.ScrollUpRows | vterm-emulator/src/main/java/nl/piter/vterm/ui/panels/charpane/CharPane.java:551-553 | in scrollRegion up by n, rows s..e-n-1 receive the row n below, the last n rows of the region that are not targets are cleared, and rows outside the region are neither |
| BlockMoves.ScrollDownRows | vterm-emulator/src/main/java/nl/piter/vterm/ui/panels/charpane/CharPane.java:554-556 | in scrollRegion down by n, rows s+n..e-1 receive the row n above, the first n rows of the region that are not targets are cleared, and rows outside the region are neither |
| BlockMoves.InsertLinesLeavesRows | vterm-emulator/src/main/java/nl/piter/vterm/ui/panels/charpane/CharPane.java:554-556 | scrolling rows 20..23 of an 80x24 grid down by 3 moves a single row and neither copies into nor clears rows 21 and 22 |
| BlockMoves.ZeroScrollBlanks | vterm-emulator/src/main/java/nl/piter/vterm/ui/panels/charpane/CharPane.java:551-556 | a scroll by 0 lines moves the region onto itself, so every cell of it is cleared and none receives a copy |
| TextBuffers.TextBuffer.constructor | vterm-emulator/src/main/java/nl/piter/vterm/ui/panels/charpane/TextBuffer.java:28-56 | a new buffer has the given visible size, a virtual size of at least that, a fresh cell in every visible position and null elsewhere, and is flagged changed |
| TextBuffers.TextBuffer.ClearRegion | vterm-emulator/src/main/java/nl/piter/vterm/ui/panels/charpane/TextBuffer.java:58-64 | every visible cell is cleared, the cells beyond the visible size are untouched, the size stays and the buffer is flagged changed |
| TextBuffers.TextBuffer.CheckBounds | vterm-emulator/src/main/java/nl/piter/vterm/ui/panels/charpane/TextBuffer.java:75-90 | a position is in bounds exactly when it lies inside the virtual array |
| TextBuffers.TextBuffer.Get | vterm-emulator/src/main/java/nl/piter/vterm/ui/panels/charpane/TextBuffer.java:95-101 | out of bounds gives null; in bounds the stored cell, which is present at every visible position of a filled buffer |
| TextBuffers.TextBuffer.Set | vterm-emulator/src/main/java/nl/piter/vterm/ui/panels/charpane/TextBuffer.java:106-112 | the cell at (x, y) takes the values of the given cell and no other cell changes |
| TextBuffers.TextBuffer.CopyFrom | vterm-emulator/src/main/java/nl/piter/vterm/ui/panels/charpane/TextBuffer.java:114-126 | each visible cell whose shifted position lies inside the other buffer's array takes that cell; the others are unchanged |
| TextBuffers.TextBuffer.NeedsRepaint | vterm-emulator/src/main/java/nl/piter/vterm/ui/panels/charpane/TextBuffer.java:128-134 | the buffer's changed flag is or-ed with val; only the cell at (x, y), when in bounds, has its repaint flag set to val |
| TextBuffers.TextBuffer.Clear | vterm-emulator/src/main/java/nl/piter/vterm/ui/panels/charpane/TextBuffer.java:136-144 | in bounds the cell at (x, y) is cleared and the buffer flagged changed; out of bounds nothing changes |
| TextBuffers.TextBuffer.Copy | vterm-emulator/src/main/java/nl/piter/vterm/ui/panels/charpane/TextBuffer.java:146-159 | when both positions are in bounds the destination takes the source's values and the buffer is flagged changed; otherwise nothing changes |
| TextBuffers.TextBuffer.SetChanged | vterm-emulator/src/main/java/nl/piter/vterm/ui/panels/charpane/TextBuffer.java:161-163 | the changed flag becomes val and nothing else changes |
| LegacyTextBuffers.ResizeOffset | vterm-emulator/src/main/java/nl/piter/vterm/ui/charpane/TextBuffer.java:115-118 | shrinking the row count shifts the content up by exactly the lost rows; otherwise there is no shift |
| LegacyTextBuffers.KeptAsWrittenInBounds | vterm-emulator/src/main/java/nl/piter/vterm/ui/charpane/TextBuffer.java:122-133 | every cell the resize loop as written copies lies inside the new grid (the loop cannot overrun it) and is one the intended loop copies |
| LegacyTextBuffers.ResizeAsWrittenDropsRows | vterm-emulator/src/main/java/nl/piter/vterm/ui/charpane/TextBuffer.java:123 | resizing 80x24 to 10 columns keeps row 10 when the row loop runs over the rows, but the loop as written (bounded by the column count) does not |
| LegacyTextBuffers.ResizeKeepsBottom | vterm-emulator/src/main/java/nl/piter/vterm/ui/charpane/TextBuffer.java:112-136 | shrinking keeps every cell of the new grid, and the new last row is the old last row |
| LegacyTextBuffers.TextBuffer.constructor | vterm-emulator/src/main/java/nl/piter/vterm/ui/charpane/TextBuffer.java:31-51 | a new buffer has the given size, a fresh cell everywhere and is flagged changed |
| LegacyTextBuffers.TextBuffer.Init | vterm-emulator/src/main/java/nl/piter/vterm/ui/charpane/TextBuffer.java:35-51 | init allocates a grid of the given size filled with fresh cells and flags the buffer changed |
| LegacyTextBuffers.TextBuffer.ClearAll | vterm-emulator/src/main/java/nl/piter/vterm/ui/charpane/TextBuffer.java:53-59 | every cell is cleared and the buffer flagged changed |
| LegacyTextBuffers.TextBuffer.CheckBounds | vterm-emulator/src/main/java/nl/piter/vterm/ui/charpane/TextBuffer.java:70-88 | a position is in bounds exactly when it lies inside the grid |
| LegacyTextBuffers.TextBuffer.Set | vterm-emulator/src/main/java/nl/piter/vterm/ui/charpane/TextBuffer.java:104-110 | the cell at (x, y) takes the values of the given cell and no other cell changes |
| LegacyTextBuffers.TextBuffer.Resize | vterm-emulator/src/main/java/nl/piter/vterm/ui/charpane/TextBuffer.java:112-136 | the buffer gets the new size; without keepContents it is all fresh cells, with it each cell the intended copy keeps holds the old cell shifted by the offset |
| LegacyTextBuffers.TextBuffer.CopyRows | vterm-emulator/src/main/java/nl/piter/vterm/ui/charpane/TextBuffer.java:122-133 | each kept cell takes the values of the old cell at the shifted row, every other cell is unchanged |
| LegacyTextBuffers.TextBuffer.NeedsRepaint | vterm-emulator/src/main/java/nl/piter/vterm/ui/charpane/TextBuffer.java:138-147 | in bounds the cell's repaint flag becomes val and the buffer is flagged changed when val holds |
| LegacyTextBuffers.TextBuffer.Clear | vterm-emulator/src/main/java/nl/piter/vterm/ui/charpane/TextBuffer.java:149-157 | in bounds the cell is cleared and the buffer flagged changed; out of bounds nothing changes |
| LegacyTextBuffers.TextBuffer.Copy | vterm-emulator/src/main/java/nl/piter/vterm/ui/charpane/TextBuffer.java:159-172 | when both positions are in bounds the destination takes the source's values; otherwise nothing changes |
| LegacyTextBuffers.TextBuffer.SetChanged | vterm-emulator/src/main/java/nl/piter/vterm/ui/charpane/TextBuffer.java:174-176 | the changed flag becomes val and nothing else changes |
| StyleChars.SgrFlag | vterm-emulator/src/main/java/nl/piter/vterm/ui/panels/charpane/StyleChar.java:24-32 | the flag for SGR attribute n is a non-zero bit other than bit 0 |
| StyleChars.SgrFlagIsBit | vterm-emulator/src/main/java/nl/piter/vterm/ui/panels/charpane/StyleChar.java:24-32 | the flag for SGR attribute n is bit n |
| StyleChars.WithBytes | vterm-emulator/src/main/java/nl/piter/vterm/ui/panels/charpane/StyleChar.java:70-73 | the cell's character is the first len given bytes; the rest of the byte array and every other field are unchanged |
| StyleChars.WithChar | vterm-emulator/src/main/java/nl/piter/vterm/ui/panels/charpane/StyleChar.java:75-78 | the cell's character is the single given byte; every other field is unchanged |
| StyleChars.Cleared | vterm-emulator/src/main/java/nl/piter/vterm/ui/panels/charpane/StyleChar.java:80-90 | a cleared cell shows a blank with no style, default colours, no custom colours or charset, alpha -1, and needs a repaint |
| StyleChars.CopiedFrom | vterm-emulator/src/main/java/nl/piter/vterm/ui/panels/charpane/StyleChar.java:53-63 | a copied cell shows exactly what the source shows and needs a repaint; the byte array beyond the copied length is kept |
| StyleChars.Marked | vterm-emulator/src/main/java/nl/piter/vterm/ui/panels/charpane/StyleChar.java:51 | setting the repaint flag changes nothing that shows |
| StyleChars.HasStyleBit | vterm-emulator/src/main/java/nl/piter/vterm/ui/panels/charpane/StyleChar.java:99-101 | for a flag below the sign bit, hasStyle holds exactly when the bit is set |
| StyleChars.ClearedIsBlank | vterm-emulator/src/main/java/nl/piter/vterm/ui/panels/charpane/StyleChar.java:80-135 | a cleared cell is the blank character and has no style flag |
| StyleChars.SetCharIsChar | vterm-emulator/src/main/java/nl/piter/vterm/ui/panels/charpane/StyleChar.java:75-135 | after setChar of an ASCII character, isChar of it holds |
| StyleChars.IsCharOnlyAscii | vterm-emulator/src/main/java/nl/piter/vterm/ui/panels/charpane/StyleChar.java:133-135 | isChar can only hold for a character below 128, since a Java byte is at most 127 |
| StyleChars.CopyFromIdempotent | vterm-emulator/src/main/java/nl/piter/vterm/ui/panels/charpane/StyleChar.java:53-63 | copying the same source twice shows the same as copying it once |
| StyleChars.StyleChar.constructor | vterm-emulator/src/main/java/nl/piter/vterm/ui/panels/charpane/StyleChar.java:39-51 | a new cell has 8 zero bytes, no character, no style, default colours, alpha 255 and needs a repaint |
| StyleChars.StyleChar.SetBytes | vterm-emulator/src/main/java/nl/piter/vterm/ui/panels/charpane/StyleChar.java:65-73 | the cell's value becomes WithBytes of the old value |
| StyleChars.StyleChar.SetChar | vterm-emulator/src/main/java/nl/piter/vterm/ui/panels/charpane/StyleChar.java:75-78 | the cell's value becomes WithChar of the old value |
| StyleChars.StyleChar.Clear | vterm-emulator/src/main/java/nl/piter/vterm/ui/panels/charpane/StyleChar.java:80-90 | the cell's value becomes the cleared value |
| StyleChars.StyleChar.CopyFrom | vterm-emulator/src/main/java/nl/piter/vterm/ui/panels/charpane/StyleChar.java:53-63 | the cell's value becomes the copy of the source's value, also when the source is the cell itself |
| StyleChars.StyleChar.SetDrawStyle | vterm-emulator/src/main/java/nl/piter/vterm/ui/panels/charpane/StyleChar.java:103-105 | only the style changes |
| StyleChars.StyleChar.SetAlpha | vterm-emulator/src/main/java/nl/piter/vterm/ui/panels/charpane/StyleChar.java:95-97 | only alpha changes |
| LegacyStyleChars.FlagsAreBits | vterm-emulator/src/main/java/nl/piter/vterm/ui/charpane/StyleChar.java:19-25 | the older style flags are bits 1 to 7 in declaration order |
| LegacyStyleChars.WithBytes | vterm-emulator/src/main/java/nl/piter/vterm/ui/charpane/StyleChar.java:57-60 | the cell's character is the first len given bytes; every other field is unchanged |
| LegacyStyleChars.WithChar | vterm-emulator/src/main/java/nl/piter/vterm/ui/charpane/StyleChar.java:62-65 | the cell's character is the single given byte |
| LegacyStyleChars.Cleared | vterm-emulator/src/main/java/nl/piter/vterm/ui/charpane/StyleChar.java:67-76 | a cleared cell is a blank with no style, default colours, no custom colour or charset, alpha -1, needing a repaint |
| LegacyStyleChars.CopiedFrom | vterm-emulator/src/main/java/nl/piter/vterm/ui/charpane/StyleChar.java:42-50 | a copy takes the source's bytes, style, colour indexes, charset and alpha, but keeps its own custom foreground |
| LegacyStyleChars.Marked | vterm-emulator/src/main/java/nl/piter/vterm/ui/charpane/StyleChar.java:40 | setting the repaint flag changes only that flag |
| LegacyStyleChars.CopyKeepsCustomColour | vterm-emulator/src/main/java/nl/piter/vterm/ui/charpane/StyleChar.java:42-50 | copyFrom does not carry the custom colour, so a copy can differ from its source |
| LegacyStyleChars.ClearedIsBlank | vterm-emulator/src/main/java/nl/piter/vterm/ui/charpane/StyleChar.java:67-121 | a cleared cell is the blank character and has no style flag |
| LegacyStyleChars.StyleChar.constructor | vterm-emulator/src/main/java/nl/piter/vterm/ui/charpane/StyleChar.java:29-40 | a new cell has 8 zero bytes, no character, no style, default colours, alpha 255 and needs a repaint |
| LegacyStyleChars.StyleChar.SetBytes | vterm-emulator/src/main/java/nl/piter/vterm/ui/charpane/StyleChar.java:52-60 | the cell's value becomes WithBytes of the old value |
| LegacyStyleChars.StyleChar.SetChar | vterm-emulator/src/main/java/nl/piter/vterm/ui/charpane/StyleChar.java:62-65 | the cell's value becomes WithChar of the old value |
| LegacyStyleChars.StyleChar.Clear | vterm-emulator/src/main/java/nl/piter/vterm/ui/charpane/StyleChar.java:67-76 | the cell's value becomes the cleared value |
| LegacyStyleChars.StyleChar.CopyFrom | vterm-emulator/src/main/java/nl/piter/vterm/ui/charpane/StyleChar.java:42-50 | the cell's value becomes the copy of the source's value |
| LegacyStyleChars.StyleChar.SetDrawStyle | vterm-emulator/src/main/java/nl/piter/vterm/ui/charpane/StyleChar.java:89-91 | only the style changes |
| EcmaMapping.ApplyMask | vterm-emulator/src/main/java/nl/piter/vterm/ui/panels/charpane/EcmaMapping.java:47-56 | applying a mode's masks sets every on-mask bit, clears every off-mask bit that is not also on, and keeps every other bit |
| EcmaMapping.Apply | vterm-emulator/src/main/java/nl/piter/vterm/ui/panels/charpane/EcmaMapping.java:25-56 | an unregistered mode leaves the style as it is; a registered one applies its masks, off-mask first |
| EcmaMapping.HasModeExactly | vterm-emulator/src/main/java/nl/piter/vterm/ui/panels/charpane/EcmaMapping.java:29-81 | a mode is known exactly for 0-9, 20-25 and 27-29 (26 is reserved) |
| EcmaMapping.ApplyIdempotent | vterm-emulator/src/main/java/nl/piter/vterm/ui/panels/charpane/EcmaMapping.java:47-56 | applying the same mode twice is the same as applying it once |
| EcmaMapping.ResetClearsStyle | vterm-emulator/src/main/java/nl/piter/vterm/ui/panels/charpane/EcmaMapping.java:59 | mode 0 clears every style bit except the sign bit, so a non-negative style becomes STYLE_NONE |
| EcmaMapping.SetModes | vterm-emulator/src/main/java/nl/piter/vterm/ui/panels/charpane/EcmaMapping.java:60-68 | modes 1-9 set exactly the style bit of SGR n, and mode 6 also sets the uber-bold bit |
| EcmaMapping.UnsetMode | vterm-emulator/src/main/java/nl/piter/vterm/ui/panels/charpane/EcmaMapping.java:72-80 | modes 22-29 have no on-mask and only clear their off-mask bits |
| EcmaMapping.UnmaskPairs | vterm-emulator/src/main/java/nl/piter/vterm/ui/panels/charpane/EcmaMapping.java:72-80 | each of modes 22-29 clears every flag it names |
| ColorMaps.CubeColor | vterm-emulator/src/main/java/nl/piter/vterm/ui/panels/charpane/ColorMap.java:262-269 | cube colour i is a valid colour whose red, green and blue are multiples of 51 |
| ColorMaps.GreyLevel | vterm-emulator/src/main/java/nl/piter/vterm/ui/panels/charpane/ColorMap.java:270-272 | grey level i is 256 * i / 24 truncated, between 0 and 245 |
| ColorMaps.GreyColor | vterm-emulator/src/main/java/nl/piter/vterm/ui/panels/charpane/ColorMap.java:270-275 | each grey is a valid colour with equal red, green and blue |
| ColorMaps.CubeCoversLevels | vterm-emulator/src/main/java/nl/piter/vterm/ui/panels/charpane/ColorMap.java:262-269 | cube entry 36r + 6g + b is the colour (51r, 51g, 51b): every level triple appears |
| ColorMaps.CubeIndex | vterm-emulator/src/main/java/nl/piter/vterm/ui/panels/charpane/ColorMap.java:262-269 | a cube colour's levels give back its index, so the cube has no repeated colour |
| ColorMaps.GreysIncrease | vterm-emulator/src/main/java/nl/piter/vterm/ui/panels/charpane/ColorMap.java:270-275 | the grey ramp strictly increases |
| ColorMaps.Xterm256 | vterm-emulator/src/main/java/nl/piter/vterm/ui/panels/charpane/ColorMap.java:255-277 | the colours added after the palette are the 216 cube colours followed by the 24 greys |
| ColorMaps.ColorMap.constructor | vterm-emulator/src/main/java/nl/piter/vterm/ui/panels/charpane/ColorMap.java:191-195 | the bare constructor stores the background and foreground and holds no colours |
| ColorMaps.ColorMap.Add | vterm-emulator/src/main/java/nl/piter/vterm/ui/panels/charpane/ColorMap.java:203-205 | adding appends the colour to the list |
| ColorMaps.ColorMap.AutoAddXterm256 | vterm-emulator/src/main/java/nl/piter/vterm/ui/panels/charpane/ColorMap.java:255-277 | with exactly 16 colours it appends the cube and the greys to reach 256; with any other count it raises the invalid-configuration error and adds nothing |
| ColorMaps.ColorMap.New | vterm-emulator/src/main/java/nl/piter/vterm/ui/panels/charpane/ColorMap.java:197-207 | building a map from a palette fails with the invalid-configuration error exactly when the palette does not have 16 colours; otherwise the map is the palette followed by the cube and the greys |
| ColorMaps.ColorMap.Resolve | vterm-emulator/src/main/java/nl/piter/vterm/ui/panels/charpane/ColorMap.java:245-250 | resolve answers null exactly for an index outside the list, otherwise the colour at that index |
| ColorMaps.ColorMap.Duplicate | vterm-emulator/src/main/java/nl/piter/vterm/ui/panels/charpane/ColorMap.java:279-283 | the duplicate is a new map with the same colours, foreground and background |
| ColorMaps.ColorMap.SetForeground | vterm-emulator/src/main/java/nl/piter/vterm/ui/panels/charpane/ColorMap.java:285-287 | the foreground becomes the given colour |
| ColorMaps.ColorMap.SetBackground | vterm-emulator/src/main/java/nl/piter/vterm/ui/panels/charpane/ColorMap.java:289-291 | the background becomes the given colour |
| ColorMaps.FullMap | vterm-emulator/src/main/java/nl/piter/vterm/ui/panels/charpane/ColorMap.java:197-277 | a 16-colour palette gives a 256-colour map of valid colours whose entries 16-231 are the cube and 232-255 the greys |
| ColorMaps.PalettesAreSixteen | vterm-emulator/src/main/java/nl/piter/vterm/ui/panels/charpane/ColorMap.java:41-144 | each of the five built-in palettes has 16 valid colours, so building their maps never fails |
| ColorMaps.ColorMapRegistry.Registered | vterm-emulator/src/main/java/nl/piter/vterm/ui/panels/charpane/ColorMap.java:151-170 | the registry holds exactly the five named maps |
| ColorMaps.ColorMapRegistry.constructor | vterm-emulator/src/main/java/nl/piter/vterm/ui/panels/charpane/ColorMap.java:146-158 | the five maps are built and the registry is not yet filled |
| ColorMaps.ColorMapRegistry.GetColorMaps | vterm-emulator/src/main/java/nl/piter/vterm/ui/panels/charpane/ColorMap.java:160-170 | the registry is filled on first use with the five named maps, and the same maps are answered every time |
| ColorMaps.ColorMapRegistry.GetColorMap | vterm-emulator/src/main/java/nl/piter/vterm/ui/panels/charpane/ColorMap.java:176-184 | an unknown name fails with a null-pointer error; a known one answers a fresh copy of the registered map with its 256 colours, foreground and background |
| LegacyColorMaps.FillColor | vterm-emulator/src/main/java/nl/piter/vterm/ui/charpane/ColorMap.java:223-229 | fill colour i has channels 31 + 32k, with blue at most 127 |
| LegacyColorMaps.Fill | vterm-emulator/src/main/java/nl/piter/vterm/ui/charpane/ColorMap.java:221-230 | the fill appends colours n to 255 (nothing when n is past 255), colour j being FillColor(j) |
| LegacyColorMaps.FillIndex | vterm-emulator/src/main/java/nl/piter/vterm/ui/charpane/ColorMap.java:223-229 | a fill colour's channels give back its index, so the fill has no repeated colour |
| LegacyColorMaps.ColorMap.constructor | vterm-emulator/src/main/java/nl/piter/vterm/ui/charpane/ColorMap.java:138-148 | the map is the palette followed by the fill up to 256 colours, with the given background and foreground |
| LegacyColorMaps.ColorMap.AutoAddXterm256 | vterm-emulator/src/main/java/nl/piter/vterm/ui/charpane/ColorMap.java:221-230 | the fill is appended, leaving 256 colours when there were fewer and the list unchanged otherwise |
| LegacyColorMaps.ColorMap.Resolve | vterm-emulator/src/main/java/nl/piter/vterm/ui/charpane/ColorMap.java:211-216 | resolve answers null exactly for an index outside the list, otherwise the colour at that index |
| LegacyColorMaps.FullMap | vterm-emulator/src/main/java/nl/piter/vterm/ui/charpane/ColorMap.java:138-148 | any palette of at most 256 valid colours gives a map of exactly 256 valid colours |
| LegacyColorMaps.PalettesValid | vterm-emulator/src/main/java/nl/piter/vterm/ui/charpane/ColorMap.java:40-119 | the built-in palettes have 8 or 16 valid colours |
| LegacyColorMaps.ColorMapRegistry.Registered | vterm-emulator/src/main/java/nl/piter/vterm/ui/charpane/ColorMap.java:126-160 | the registry holds exactly the five named maps |
| LegacyColorMaps.ColorMapRegistry.constructor | vterm-emulator/src/main/java/nl/piter/vterm/ui/charpane/ColorMap.java:121-132 | the maps are built and the registry is not yet filled |
| LegacyColorMaps.ColorMapRegistry.GetColorMaps | vterm-emulator/src/main/java/nl/piter/vterm/ui/charpane/ColorMap.java:150-160 | the registry is filled on first use with the five named maps |
| LegacyColorMaps.ColorMapRegistry.GetColorMap | vterm-emulator/src/main/java/nl/piter/vterm/ui/charpane/ColorMap.java:194-201 | an unknown name answers null, a known one the registered map itself (no copy), which has 256 colours |
| CharRenderers.GraphOrgCodes | vterm-emulator/src/main/java/nl/piter/vterm/ui/panels/charpane/CharRenderer.java:32-33 | the two graphics tables have 28 characters each and the original one is the run of codes 95 to 122 |
| CharRenderers.GraphicsChar | vterm-emulator/src/main/java/nl/piter/vterm/ui/panels/charpane/CharRenderer.java:467-475 | a character of the original table maps to the one at the same place in the graphics table; any other character maps to itself |
| CharRenderers.GraphicsCharMoves | vterm-emulator/src/main/java/nl/piter/vterm/ui/panels/charpane/CharRenderer.java:467-475 | the mapping changes a character exactly when it is in the original table |
| CharRenderers.MapGraphicsChar | vterm-emulator/src/main/java/nl/piter/vterm/ui/panels/charpane/CharRenderer.java:467-475 | the linear search answers the table mapping |
| CharRenderers.MapCharsetChars | vterm-emulator/src/main/java/nl/piter/vterm/ui/panels/charpane/CharRenderer.java:443-461 | outside the graphics charset (or with no charset) the text is unchanged; in it each character is mapped in place and the length kept |
| CharRenderers.Chosen | vterm-emulator/src/main/java/nl/piter/vterm/ui/panels/charpane/CharRenderer.java:119-134 | a custom colour wins; otherwise the colour map's entry at the index, and when that is missing the map's default |
| CharRenderers.CellAlpha | vterm-emulator/src/main/java/nl/piter/vterm/ui/panels/charpane/CharRenderer.java:143-157 | hidden gives alpha 64, otherwise faint 128, otherwise the cell's own alpha when it lies in 0-254; no alpha is applied for -1 or 255 |
| CharRenderers.CellPaint | vterm-emulator/src/main/java/nl/piter/vterm/ui/panels/charpane/CharRenderer.java:115-157 | the paint uses the chosen foreground and background, swapped under inverse, with the cell's alpha |
| CharRenderers.InverseSwaps | vterm-emulator/src/main/java/nl/piter/vterm/ui/panels/charpane/CharRenderer.java:136-141 | setting inverse on a cell swaps its painted foreground and background and keeps its alpha |
| CharRenderers.UnresolvedUsesMapColours | vterm-emulator/src/main/java/nl/piter/vterm/ui/panels/charpane/CharRenderer.java:130-190 | a cell with default colour indexes and no custom colours is painted in the map's foreground and background |
| CharRenderers.Segments | vterm-emulator/src/main/java/nl/piter/vterm/ui/panels/charpane/CharRenderer.java:239-310 | exactly 'j' to 'x' are drawn as pipes, each with at least two arms, and the scan lines are horizontal |
| CharRenderers.CornerGlyphs | vterm-emulator/src/main/java/nl/piter/vterm/ui/panels/charpane/CharRenderer.java:240-267 | the pipes of 'j' to 'n' draw the corner and cross glyphs |
| CharRenderers.CornerCodes | vterm-emulator/src/main/java/nl/piter/vterm/ui/panels/charpane/CharRenderer.java:33 | entries 11-15 of the graphics table are the corner and cross glyphs |
| CharRenderers.CornerDrawsGlyph | vterm-emulator/src/main/java/nl/piter/vterm/ui/panels/charpane/CharRenderer.java:240-267 | for 'j' to 'n' the pipes drawn are the glyph the charset maps the character to |
| CharRenderers.ScanLineGlyphs | vterm-emulator/src/main/java/nl/piter/vterm/ui/panels/charpane/CharRenderer.java:272-306 | 'o' to 's' draw horizontal lines at scan lines 1, 3, 5, 7 and 9 |
| CharRenderers.ScanLineCodes | vterm-emulator/src/main/java/nl/piter/vterm/ui/panels/charpane/CharRenderer.java:33 | entries 16-20 of the graphics table are the scan-line glyphs |
| CharRenderers.ScanLineDrawsGlyph | vterm-emulator/src/main/java/nl/piter/vterm/ui/panels/charpane/CharRenderer.java:272-306 | for 'o' to 's' the line drawn is the glyph the charset maps the character to |
| CharRenderers.TeeGlyphs | vterm-emulator/src/main/java/nl/piter/vterm/ui/panels/charpane/CharRenderer.java:240-280 | 't' to 'x' draw the tee glyphs and the vertical line |
| CharRenderers.TeeCodes | vterm-emulator/src/main/java/nl/piter/vterm/ui/panels/charpane/CharRenderer.java:33 | entries 21-25 of the graphics table are the tee glyphs and the vertical line |
| CharRenderers.TeeDrawsGlyph | vterm-emulator/src/main/java/nl/piter/vterm/ui/panels/charpane/CharRenderer.java:240-280 | for 't' to 'x' the pipes drawn are the glyph the charset maps the character to |
| CharRenderers.SegmentsDrawGlyph | vterm-emulator/src/main/java/nl/piter/vterm/ui/panels/charpane/CharRenderer.java:239-310 | every box-drawing character is drawn as the glyph the graphics charset maps it to |
| CharRenderers.PipeSize | vterm-emulator/src/main/java/nl/piter/vterm/ui/panels/charpane/CharRenderer.java:224-235 | pipes are 1 to 4 pixels; bold doubles them, and fat pipes are 2, or 4 when bold |
| CharRenderers.PipeRow | vterm-emulator/src/main/java/nl/piter/vterm/ui/panels/charpane/CharRenderer.java:282-306 | the centre line sits at half the line height |
| CharRenderers.ScanLinesOrdered | vterm-emulator/src/main/java/nl/piter/vterm/ui/panels/charpane/CharRenderer.java:282-306 | on a line tall enough for the pipes, scan lines 1, 3, centre, 7 and 9 lie strictly top to bottom inside the cell |
| CharRenderers.ByteChar | vterm-emulator/src/main/java/nl/piter/vterm/ui/panels/charpane/CharRenderer.java:195 | a byte widened to char keeps a non-negative value and wraps a negative one to 0x10000 + b |
| CharRenderers.CellDrawing | vterm-emulator/src/main/java/nl/piter/vterm/ui/panels/charpane/CharRenderer.java:192-313 | a blank cell draws nothing; a non-blank cell in the graphics charset whose character has pipes is drawn as those pipes, 4 pixels when bold and 2 otherwise; every other cell as plain text |
| CharRenderers.LineHeight | vterm-emulator/src/main/java/nl/piter/vterm/ui/panels/charpane/CharRenderer.java:524-526 | the line height is the font height, the line leading being 0 |
| LegacyCharRenderers.TablesAreSuffixes | vterm-emulator/src/main/java/nl/piter/vterm/ui/charpane/CharRenderer.java:26-27 | the older tables are the newer ones without their first two entries ('_' and '`') |
| LegacyCharRenderers.GraphOrgCodes | vterm-emulator/src/main/java/nl/piter/vterm/ui/charpane/CharRenderer.java:26-27 | the older tables have 26 characters each and the original one is 'a' to 'z' |
| LegacyCharRenderers.CharSet1Char | vterm-emulator/src/main/java/nl/piter/vterm/ui/charpane/CharRenderer.java:425-432 | a letter of the original table maps to the one at the same place in the graphics table; any other character maps to itself |
| LegacyCharRenderers.AgreeOnLetters | vterm-emulator/src/main/java/nl/piter/vterm/ui/charpane/CharRenderer.java:425-432 | for 'a' to 'z' the older mapping agrees with the newer one |
| LegacyCharRenderers.AgreeOutsideTables | vterm-emulator/src/main/java/nl/piter/vterm/ui/charpane/CharRenderer.java:425-432 | outside codes 95-122 both mappings leave the character alone |
| LegacyCharRenderers.AgreesWithNewer | vterm-emulator/src/main/java/nl/piter/vterm/ui/charpane/CharRenderer.java:425-432 | the two renderers map every character alike except '_' and '`', which only the newer one maps |
| LegacyCharRenderers.CharSet1 | vterm-emulator/src/main/java/nl/piter/vterm/ui/charpane/CharRenderer.java:425-432 | the linear search answers the table mapping |
| LegacyCharRenderers.CheckCharSet | vterm-emulator/src/main/java/nl/piter/vterm/ui/charpane/CharRenderer.java:400-418 | outside the graphics charset the text is unchanged; in it each character is mapped and the length kept |
| LegacyCharRenderers.CellPaint | vterm-emulator/src/main/java/nl/piter/vterm/ui/charpane/CharRenderer.java:90-126 | the foreground is the custom one or the indexed one or the default, the background the indexed one or the default, swapped under inverse; hidden gives alpha 64, otherwise the cell's alpha when in 0-254 |
| LegacyCharRenderers.CustomForegroundOnly | vterm-emulator/src/main/java/nl/piter/vterm/ui/charpane/CharRenderer.java:95-106 | a custom foreground replaces the painted foreground and leaves the background alone |
| LegacyCharRenderers.CellDrawing | vterm-emulator/src/main/java/nl/piter/vterm/ui/charpane/CharRenderer.java:153-274 | a blank cell draws nothing; a non-blank cell in the graphics charset with a character from 'j' to 'x' is drawn as pipes, 4 pixels when bold and 2 otherwise |
| LegacyCharRenderers.LineHeight | vterm-emulator/src/main/java/nl/piter/vterm/ui/charpane/CharRenderer.java:473-475 | the older line height adds the font descent to the font height |
| LegacyCharPanes.CharPane.constructor | vterm-emulator/src/main/java/nl/piter/vterm/ui/charpane/CharPane.java:33-112 | a new pane is 80x24 with both buffers of fresh cells, the full one current, charsets US and graphics in slots 0 and 1, cursor at the origin and the default pen |
| LegacyCharPanes.CharPane.Pen | vterm-emulator/src/main/java/nl/piter/vterm/ui/charpane/CharPane.java:702-707 | the cell putChar stores shows the bytes with the pane's draw style, colour indexes and current charset, alpha -1, and keeps its own custom colour |
| LegacyCharPanes.CharPane.CharacterChanged | vterm-emulator/src/main/java/nl/piter/vterm/ui/charpane/CharPane.java:558-560 | only the cell at (x, y) is marked for repaint |
| LegacyCharPanes.CharPane.SetCursor | vterm-emulator/src/main/java/nl/piter/vterm/ui/charpane/CharPane.java:523-549 | the cursor becomes (x, y) without any range check; the new and the previous cursor cell are marked for repaint |
| LegacyCharPanes.CharPane.PutChar | vterm-emulator/src/main/java/nl/piter/vterm/ui/charpane/CharPane.java:683-711 | in bounds the cell at (x, y) takes the pen's look and every other cell is unchanged; out of bounds nothing changes |
| LegacyCharPanes.CharPane.ClearArea | vterm-emulator/src/main/java/nl/piter/vterm/ui/charpane/CharPane.java:565-590 | every cell of the widened and clipped area gets a space in the current pen; every other cell is unchanged |
| LegacyCharPanes.CharPane.ClearRow | vterm-emulator/src/main/java/nl/piter/vterm/ui/charpane/CharPane.java:585-588 | one row of clearArea: cells x1..ex-1 of row y get a space in the current pen |
| LegacyCharPanes.CharPane.SetCharSet | vterm-emulator/src/main/java/nl/piter/vterm/ui/charpane/CharPane.java:717-720 | the current charset slot becomes nr |
| LegacyCharPanes.CharPane.SetDrawStyle | vterm-emulator/src/main/java/nl/piter/vterm/ui/charpane/CharPane.java:730-738 | the style is set; style 0 also resets both colour indexes to -1 |
| LegacyCharPanes.CharPane.AddDrawStyle | vterm-emulator/src/main/java/nl/piter/vterm/ui/charpane/CharPane.java:748-750 | the new style is the old one or-ed with the given flags, with setDrawStyle's reset when that is 0 |
| LegacyCharPanes.CharPane.SetDrawBackground | vterm-emulator/src/main/java/nl/piter/vterm/ui/charpane/CharPane.java:752-754 | the background index is set |
| LegacyCharPanes.CharPane.SetDrawForeground | vterm-emulator/src/main/java/nl/piter/vterm/ui/charpane/CharPane.java:756-758 | the foreground index is set |
| LegacyCharPanes.CharPane.ResizeTextBuffers | vterm-emulator/src/main/java/nl/piter/vterm/ui/charpane/CharPane.java:840-882 | the pane takes the new size, the cursor row is clamped to the last row, and both buffers are resized in place keeping the bottom rows of their contents |
| LegacyCharPanes.CharPane.SetAltScreenBuffer | vterm-emulator/src/main/java/nl/piter/vterm/ui/charpane/CharPane.java:974-990 | it answers true and the current buffer becomes the alternate one when useAlt holds and the full one otherwise |
| FontInfos.SetFlag | vterm-emulator/src/main/java/nl/piter/vterm/ui/fonts/FontInfo.java:173-181 | the flag is set when val holds and cleared otherwise; every other bit is kept and the value stays a 32-bit int |
| FontInfos.SetFlagKeepsOther | vterm-emulator/src/main/java/nl/piter/vterm/ui/fonts/FontInfo.java:157-181 | setting bold leaves italic as it was, and the other way round |
| FontInfos.ToText | vterm-emulator/src/main/java/nl/piter/vterm/ui/fonts/FontInfo.java:223-233 | toString of a string property is the string itself |
| FontInfos.ReadString | vterm-emulator/src/main/java/nl/piter/vterm/ui/fonts/FontInfo.java:209-221 | a missing property reads as null; a present one reads only when it is a string, otherwise the cast fails |
| FontInfos.ReadIntText | vterm-emulator/src/main/java/nl/piter/vterm/ui/fonts/FontInfo.java:223-225 | a missing size reads as null; a size that parses is a 32-bit int |
| FontInfos.ReadStyleAsWritten | vterm-emulator/src/main/java/nl/piter/vterm/ui/fonts/FontInfo.java:227-229 | a style property that is not a string makes the (String) cast fail; a style that parses is a 32-bit int |
| FontInfos.ReadAntiAliasing | vterm-emulator/src/main/java/nl/piter/vterm/ui/fonts/FontInfo.java:231-233 | the anti-aliasing choice is read exactly when the property is present |
| FontInfos.HintFor | vterm-emulator/src/main/java/nl/piter/vterm/ui/fonts/FontInfo.java:259-284 | the hint set for useAA counts as anti-aliased unless useAA is false |
| FontInfos.Apply | vterm-emulator/src/main/java/nl/piter/vterm/ui/fonts/FontInfo.java:206-235 | applying the properties succeeds only when the style could be read |
| FontInfos.ApplyPropertiesAsWritten | vterm-emulator/src/main/java/nl/piter/vterm/ui/fonts/FontInfo.java:206-235 | as written, a style property that is not a string makes setFontProperties fail |
| FontInfos.AliasOrFamily | vterm-emulator/src/main/java/nl/piter/vterm/ui/fonts/FontInfo.java:191-192 | the exported alias is the alias, or the family when there is none |
| FontInfos.ExportProperties | vterm-emulator/src/main/java/nl/piter/vterm/ui/fonts/FontInfo.java:188-201 | the export holds exactly alias, family, size, style and anti-aliasing, well typed for 32-bit size and style |
| FontInfos.FamilyOverridesType | vterm-emulator/src/main/java/nl/piter/vterm/ui/fonts/FontInfo.java:213-221 | the family property wins over the old type property, which wins over the current family |
| FontInfos.ExportThenApply | vterm-emulator/src/main/java/nl/piter/vterm/ui/fonts/FontInfo.java:188-235 | with the style read as the export stores it, exporting and applying gives back family, size, style and anti-aliasing, with the alias filled in |
| FontInfos.ExportedFields | vterm-emulator/src/main/java/nl/piter/vterm/ui/fonts/FontInfo.java:188-235 | the size, style and anti-aliasing flag of exported properties read back as they were exported |
| FontInfos.ExportThenApplyAsWrittenFails | vterm-emulator/src/main/java/nl/piter/vterm/ui/fonts/FontInfo.java:197-227 | as written, applying an export always fails: the style is stored as an Integer and read back with a String cast |
| FontInfos.LoadPropertiesExample | vterm-emulator/src/main/java/nl/piter/vterm/ui/fonts/FontInfo.java:206-235 | properties written as text (family, size "42", style "13", anti-aliasing true) load without error |
| FontInfos.FontInfo.Settings | vterm-emulator/src/main/java/nl/piter/vterm/ui/fonts/FontInfo.java:80-86 | the settings are the family, alias, size, style and rendering hint fields |
| FontInfos.FontInfo.constructor | vterm-emulator/src/main/java/nl/piter/vterm/ui/fonts/FontInfo.java:80-89 | a new font info is Monospaced, size 13, style 0, with no alias and no hint |
| FontInfos.FontInfo.FromFont | vterm-emulator/src/main/java/nl/piter/vterm/ui/fonts/FontInfo.java:98-118 | a font info taken from a font has its family, size and style, and the family as alias |
| FontInfos.FontInfo.IsBold | vterm-emulator/src/main/java/nl/piter/vterm/ui/fonts/FontInfo.java:157-159 | bold exactly when the bold bit is set |
| FontInfos.FontInfo.IsItalic | vterm-emulator/src/main/java/nl/piter/vterm/ui/fonts/FontInfo.java:165-167 | italic exactly when the italic bit is set |
| FontInfos.FontInfo.SetBold | vterm-emulator/src/main/java/nl/piter/vterm/ui/fonts/FontInfo.java:161-163 | bold becomes val and italic stays |
| FontInfos.FontInfo.SetItalic | vterm-emulator/src/main/java/nl/piter/vterm/ui/fonts/FontInfo.java:169-171 | italic becomes val and bold stays |
| FontInfos.FontInfo.SetFontSize | vterm-emulator/src/main/java/nl/piter/vterm/ui/fonts/FontInfo.java:124-126 | the size becomes the given one |
| FontInfos.FontInfo.SetFontStyle | vterm-emulator/src/main/java/nl/piter/vterm/ui/fonts/FontInfo.java:132-134 | the style becomes the given one |
| FontInfos.FontInfo.SetFontFamily | vterm-emulator/src/main/java/nl/piter/vterm/ui/fonts/FontInfo.java:146-148 | the family becomes the given one |
| FontInfos.FontInfo.SetAntiAliasing | vterm-emulator/src/main/java/nl/piter/vterm/ui/fonts/FontInfo.java:259-271 | the hint is set to on, off or default, and anti-aliasing is reported unless it was turned off |
| FontInfos.FontInfo.HasAntiAliasing | vterm-emulator/src/main/java/nl/piter/vterm/ui/fonts/FontInfo.java:276-284 | anti-aliasing holds unless the hint is explicitly off |
| FontInfos.FontInfo.GetFontProperties | vterm-emulator/src/main/java/nl/piter/vterm/ui/fonts/FontInfo.java:188-201 | the alias is filled in from the family when missing, and the export of the settings is answered |
| FontInfos.FontInfo.SetFontProperties | vterm-emulator/src/main/java/nl/piter/vterm/ui/fonts/FontInfo.java:206-235 | the new settings and the error are those of applying the properties to the old settings |
| FontInfos.FontInfo.FromProperties | vterm-emulator/src/main/java/nl/piter/vterm/ui/fonts/FontInfo.java:91-96 | building from properties fails exactly when applying them to the defaults fails; otherwise it has those settings with the alias defaulting to the family |
| FontInfos.BuiltinFont | vterm-emulator/src/main/java/nl/piter/vterm/ui/fonts/FontInfo.java:52-75 | a built-in font is found exactly for an alias equal, ignoring case, to one of the five built-in names |
| FontInfos.FontRegistry.constructor | vterm-emulator/src/main/java/nl/piter/vterm/ui/fonts/FontInfo.java:34-46 | the registry starts empty |
| FontInfos.FontRegistry.Store | vterm-emulator/src/main/java/nl/piter/vterm/ui/fonts/FontInfo.java:237-242 | a font info without alias fails with a null-pointer error and changes nothing; otherwise it is registered under its alias |
| FontInfos.FontRegistry.GetFontInfo | vterm-emulator/src/main/java/nl/piter/vterm/ui/fonts/FontInfo.java:41-77 | a registered alias answers its font info; an unknown non-built-in alias answers null; a built-in alias creates, registers and answers a new font info with the built-in family, size and anti-aliasing |
| FontInfos.TerminalIsBuiltin | vterm-emulator/src/main/java/nl/piter/vterm/ui/fonts/FontInfo.java:63-67 | "Terminal" is the anti-aliased txmonospaced font of size 16, and "courier" is not built in |
| TermChannelOptionsModel.TermChannelOptions.constructor | vterm-emulator/src/main/java/nl/piter/vterm/api/TermChannelOptions.java:35-38 | the options hold the given default size and terminal type and no channel options |
| TermChannelOptionsModel.TermChannelOptions.Create | vterm-emulator/src/main/java/nl/piter/vterm/api/TermChannelOptions.java:27-32 | the default options are 24 columns, 24 rows, xterm-256color and no channel options |
| TermChannelOptionsModel.TermChannelOptions.SetDefaultSize | vterm-emulator/src/main/java/nl/piter/vterm/api/TermChannelOptions.java:40-43 | the default rows and columns become the given ones |
| TermChannelOptionsModel.TermChannelOptions.GetBooleanOption | vterm-emulator/src/main/java/nl/piter/vterm/api/TermChannelOptions.java:52-58 | a missing option gives the default; a present one is true exactly when it reads "true" ignoring case |
| TermChannelOptionsModel.TermChannelOptions.GetIntOption | vterm-emulator/src/main/java/nl/piter/vterm/api/TermChannelOptions.java:60-66 | a missing option gives the default; a present one parses to a 32-bit int or fails, and an empty one always fails |
| TermChannelOptionsModel.TermChannelOptions.SetBooleanOption | vterm-emulator/src/main/java/nl/piter/vterm/api/TermChannelOptions.java:68-70 | the option is stored as "true" or "false" and reads back as the value whatever the default |
| TermChannelOptionsModel.TermChannelOptions.SetStringOption | vterm-emulator/src/main/java/nl/piter/vterm/api/TermChannelOptions.java:72-74 | the option is stored as given |
| TermChannelOptionsModel.TermChannelOptions.SetIntOption | vterm-emulator/src/main/java/nl/piter/vterm/api/TermChannelOptions.java:76-78 | the option is stored in decimal and reads back as the value whatever the default |
| VTermControllers.ParseLocation | vterm-emulator/src/main/java/nl/piter/vterm/ui/VTermController.java:358-392 | no location changes nothing; a plain host gives no user and port 0; a parsed location has no '@' in the user, no ':' in the host and a 32-bit port |
| VTermControllers.LocationText | vterm-emulator/src/main/java/nl/piter/vterm/ui/VTermController.java:358-392 | the text of a location has the user@host:port shape |
| VTermControllers.ParseLocationParts | vterm-emulator/src/main/java/nl/piter/vterm/ui/VTermController.java:368-387 | user@host:port splits at the first '@' and the first ':' after it; the port parses or the invalid-location message names the port text |
| VTermControllers.ParseLocationText | vterm-emulator/src/main/java/nl/piter/vterm/ui/VTermController.java:358-392 | parsing the text of a location gives the location back |
| VTermControllers.BadPortReported | vterm-emulator/src/main/java/nl/piter/vterm/ui/VTermController.java:384-391 | a port text ending in a non-digit is reported as an invalid location |
| VTermControllers.WindowTitle | vterm-emulator/src/main/java/nl/piter/vterm/ui/VTermController.java:58-66 | the title is "[short] " followed by the long title, or only the long title when the short one is empty |
| VTermControllers.XDisplayPort | vterm-emulator/src/main/java/nl/piter/vterm/ui/VTermController.java:221-225 | a display number below 1024 is offset by 6000, any other port is kept |
| VTermControllers.ParseXDisplay | vterm-emulator/src/main/java/nl/piter/vterm/ui/VTermController.java:218-219 | a display without ':' fails; otherwise the host is the text before the first ':' |
| VTermControllers.XDisplayExample | vterm-emulator/src/main/java/nl/piter/vterm/ui/VTermController.java:218-225 | "h:0" is host "h" on port 6000 |
| VTermControllers.VTermController.constructor | vterm-emulator/src/main/java/nl/piter/vterm/ui/VTermController.java:40-45 | a new controller has no titles |
| VTermControllers.VTermController.NotifyTermTitle | vterm-emulator/src/main/java/nl/piter/vterm/ui/VTermController.java:47-67 | type 1 sets the short title, any other the long one, null reading as empty; the window title and the status line are built from both |
| Ptty.ItemsUnfold | vterm-emulator/src/main/csrc/ptty.cpp:93-134 | an argument starting with '-' and followed by another that is one of -o, -sh, -h, -w takes that value; any other dash argument is reported alone; an argument without a dash is skipped |
| Ptty.SkipSpace | vterm-emulator/src/main/csrc/ptty.cpp:114-120 | atoi skips a run of leading white space and nothing more |
| Ptty.DigitPrefix | vterm-emulator/src/main/csrc/ptty.cpp:114-120 | atoi reads the longest run of decimal digits |
| Ptty.AtoiOfDigits | vterm-emulator/src/main/csrc/ptty.cpp:114-120 | atoi of a string of digits is its decimal value |
| Ptty.AtoiOfNegative | vterm-emulator/src/main/csrc/ptty.cpp:114-120 | atoi of '-' and digits is the negated value |
| Ptty.NegativeSizeWraps | vterm-emulator/src/main/csrc/ptty.cpp:80-120 | a negative size stored in the unsigned short wraps to 65536 minus its magnitude |
| Ptty.AtoiStopsAtNonDigit | vterm-emulator/src/main/csrc/ptty.cpp:114-120 | atoi stops at the first non-digit |
| Ptty.DigitPrefixOfConcat | vterm-emulator/src/main/csrc/ptty.cpp:114-120 | the digit run of digits followed by a non-digit is those digits |
| Ptty.UShort | vterm-emulator/src/main/csrc/ptty.cpp:80-81 | the conversion to unsigned short is the value modulo 65536: values in range are kept and small negatives wrap |
| Ptty.LastSizeWins | vterm-emulator/src/main/csrc/ptty.cpp:112-123 | the rows and columns are those of the last -h and -w, converted to unsigned short, or the defaults |
| Ptty.LastNameWins | vterm-emulator/src/main/csrc/ptty.cpp:99-111 | the shell is the last -sh value, and the transcript name the last -o value, which also switches the transcript on |
| Ptty.NoArgumentsKeepDefaults | vterm-emulator/src/main/csrc/ptty.cpp:78-134 | without arguments the defaults /bin/bash, 25 rows and 80 columns stay and nothing is reported |
| Ptty.TrailingDashArgument | vterm-emulator/src/main/csrc/ptty.cpp:95-132 | a dash argument at the end of the line is either reported as unknown or is the value of the option before it |
| Ptty.PttyGlobals.constructor | vterm-emulator/src/main/csrc/ptty.cpp:75-81 | the globals start at their defaults |
| Ptty.PttyGlobals.ParseArguments | vterm-emulator/src/main/csrc/ptty.cpp:93-134 | after the loop the settings are those the arguments give and the reports are one unknown-argument message per unknown dash argument, in order |
| Ptty.ApplyCons | vterm-emulator/src/main/csrc/ptty.cpp:93-134 | the arguments take effect one after the other |
| Ptty.MessagesCons | vterm-emulator/src/main/csrc/ptty.cpp:126-131 | an unknown argument adds its message in front of the rest |
| Ptty.Raw | vterm-emulator/src/main/csrc/ptty.cpp:303-307 | raw mode clears ISIG, ECHO and ICANON in the local flags, sets VMIN to 1 and VTIME to 0, and keeps every other flag and control character |
| Ptty.RawIdempotent | vterm-emulator/src/main/csrc/ptty.cpp:303-307 | switching to raw mode twice is the same as once |
| Ptty.Termios.constructor | vterm-emulator/src/main/csrc/ptty.cpp:299-303 | the attributes hold the given value |
| Ptty.Termios.MakeRaw | vterm-emulator/src/main/csrc/ptty.cpp:303-307 | the attributes become the raw mode of the old ones |
| Ptty.LiveRounds | vterm-emulator/src/main/csrc/ptty.cpp:319 | the relay runs while select reports ready descriptors and stops at the first round where it does not |
| Ptty.Relay | vterm-emulator/src/main/csrc/ptty.cpp:295-354 | the writes of the relay are those of each round before the loop ends, with the transcript only when -o was given and the file opened |
| Ptty.WritesOfNext | vterm-emulator/src/main/csrc/ptty.cpp:319-352 | one more round appends that round's writes |
| Ptty.RoundSplit | vterm-emulator/src/main/csrc/ptty.cpp:322-351 | in a round, stdin input goes to the master first, then master output to the transcript (when open) and to stdout |
| Ptty.SentConcat | vterm-emulator/src/main/csrc/ptty.cpp:319-352 | what reaches one destination over two runs of writes is what reaches it over each, concatenated |
| Ptty.RoundSent | vterm-emulator/src/main/csrc/ptty.cpp:322-351 | in one round the master gets the stdin data, stdout gets the master data, and the transcript gets the master data when open |
| Ptty.RelayRoutes | vterm-emulator/src/main/csrc/ptty.cpp:319-352 | over the whole relay the master receives exactly what was read from stdin, stdout exactly what was read from the master, and the transcript the same when open, nothing else |

## Left out

- Input and output are not modelled. The shell channel's streams become token inputs (`EmulatorSpec.Input`) or byte sequences. Replies the emulator sends (`send`) and title events for the listeners are recorded in the machine as sequences (`replies`, `titles`). They are not written to a stream. `readErrorStream` and logging are not modelled.
- Threads and synchronisation are not modelled: `signalHalt`, `step`, the halt mutex, and the synchronised `send`. `start` catches every exception `nextToken` throws and sets `signalTerminate`, and `Emulators.VTxEmulator.Start` leaves its loop once that is set. The model sets it on the exception paths it models: the IOException and end-of-stream paths of `nextToken` (EOF, EOT), REP before any character (a null array), an out-of-range colour component in SGR 38;2 and 48;2 (the Color constructor's IllegalArgumentException), and DECRC before any save in `EmulatorSpec.RestoreCursorAsWritten`. Exceptions thrown inside operations the model leaves out (below) are not modelled.
- The slow-scroll `Thread.sleep` has no effect on state and is left out.
- Swing and AWT drawing is left out, because it draws pixels rather than changing model state. This covers `paint`, `renderTextBuffer`/`paintTextBuffer`, `renderCursor`, the animation thread, `initFont` and the drawing calls of both renderers. Only the pure colour, alpha, glyph and segment choices are kept.
- Floating point is left out: `ColorMap.blendColor`, `Color.brighter()` and the cosine blink animation. A brighter colour is kept symbolic (`Brighter(c)`), and the grey ramp is the exact integer 32·i div 3.
- `Emulators.VTxEmulator.NextToken` dispatches on token groups (`EmulatorSpec.Group`) rather than one flat switch over all tokens. Each group's function handles the same tokens and arguments as the matching arm of the Java switch.
- `setXtermColor` (OSC 4 and 5) and `handleDCS` are left out. `handleDCS` only logs. `setXtermColor` changes the pane's colour map (`setColor`, which is not modelled) and answers a `?` query with `sendXtermColor`: that reply is not recorded in `replies`, and the exception an odd number of fields raises at `pars[i+1]`, which ends the session, is not modelled. `handleXtermSetGetGraphics` is modelled, by `Emulators.VTxEmulator.HandleXtermSetGetGraphics`.
- SET_MODE and RESET_MODE are only logged by the source, so they are modelled as no change.
- Case 8 of `handleWindowManipulation` (resize) is not part of the emulator model: the terminal record has a fixed size there. The resize itself is modelled by `CharPanes.CharPane.ResizeTextBuffers`.
- DEC mode 3 (132 columns) homes the cursor and clears the text, as the source does (`EmulatorSpec.ColumnMode`). `charTerm.setColumns(132 or 80)` and the resize event it fires are not modelled, so the column count stays as it was.
- Damaged-area bookkeeping (repaint spans and areas) is not modelled. Only the per-cell `hasChanged` flag and the buffer-changed flag are kept.
- The older `CharPane.move` and `scrollRegion` are the same loops as the newer ones. They are modelled once, in `CharPanes.CharPane.Move` and `CharPanes.CharPane.ScrollRegion`.
- Several pane operations are not modelled:
  - newer CharPane: `reset`, `clear`, `resetGraphics`, `setFontSize`, `setFontType`, `setColorMap`, `setColor`, `putString` and the character encoding;
  - older CharPane: `setCharSet(int, String)`, `setEnableCursor` and `setCursorOptions`.

  They set fields that none of the modelled operations read, or they redraw.
- StyleChar cells are values (`StyleChars.Cell`, `LegacyStyleChars.Cell`) stored in the buffer's array. Object identity and aliasing of StyleChar objects are not modelled.
- The search tree is modelled as a map from key paths to the ordered list of values stored at that node. The tree's object structure is not modelled.
- The concrete lookups of the token-table tests are not restated one by one. The first-match property of `findFirst` and `findCharToken` is proved for every pattern instead.
- `FontConst.FONT_FRAKTUR` is not defined in the FontConst.java this model follows, so the model uses the alias "fraktur".
- `VTermControllers.ParseLocation` does not model the URI syntax exception of `new URI`. The `null` result of the X display dialog is not modelled.
- ptty: `pttyopen` is not modelled: `/dev/ptmx`, grantpt, unlockpt, ptsname, the STREAMS pushes and TIOCSWINSZ. The failure path at ptty.cpp:218-223 closes a descriptor that was never opened.
- ptty: `fork`, `setpgrp`/`dup2`/`execl`, the SIGCHLD handler, `sendSize`'s ioctl and the read/write system calls are not modelled. The relay loop is given its rounds of readiness and data as input (`Ptty.Round`).
- `Util.IsEmpty` is modelled as a predicate with no contract of its own, so it has no row. The Tokens and Wrappers declarations have no rows either: they are plain datatypes.
- The handleDecMode early return needs no special case: with no arguments, `EmulatorSpec.DecModes` runs zero steps.
- TextBuffers.TextBuffer.Set requires an in-bounds position that holds a cell. The source only logs the bad position and then fails with an exception on the array access, so out-of-bounds calls are excluded rather than modelled as an error.
- LegacyTextBuffers.TextBuffer.Set requires an in-bounds position for the same reason.

- Text handling is ASCII-only where Java's is Unicode-aware. Key names, font aliases and option values are ASCII in practice. The members that carry this restriction:
- DigitValue: `JavaLang.DigitValue` knows the ASCII digits and letters only; `Character.digit` also accepts the other Unicode decimal digits (U+0660-U+0669 and the like).
- ParseInt: `JavaLang.ParseInt` reads ASCII digits only, where `Integer.parseInt` accepts any Unicode decimal digit. `Tokenizer.VTxTokenizer.ParseInt` pushes its terminating byte back through the corrected `TokenizerSpec.Unget`, so a byte of 0x80 or more after a number is read again unchanged, where the source reads it as end of stream (`TokenizerProps.UngetCastReadsEof`).
- ToLowerAscii: folds the ASCII letters only; `compareToIgnoreCase` folds every Unicode letter (U+212A KELVIN SIGN equals 'k').
- LowerAscii: lowers the ASCII letters of a string only, standing for Java's Unicode case folding.
- ToUpperAscii: raises the ASCII letters only; `String.toUpperCase` maps every Unicode letter.
- UpperAscii: keeps the length, which holds of the ASCII stand-in only; Java's `"ß".toUpperCase()` is "SS".
- UpperIgnoringCase: holds of the ASCII stand-in only; in Java "ß" upper-cased no longer equals itself ignoring case.
- SameIsEqualsIgnoreCase: `KeyMappings.SameIsEqualsIgnoreCase` states ASCII folding, which stands for `compareToIgnoreCase`.
- Find: `KeyMappings.Find` matches key names with ASCII folding only.
- GetKeyCode: `KeyMappings.GetKeyCode` upper-cases and compares with ASCII folding only.
- BuiltinFont: `FontInfos.BuiltinFont` compares aliases with ASCII folding; `compareToIgnoreCase` also matches "monoſpaced" (U+017F LONG S).
- GetFontInfo: `FontInfos.FontRegistry.GetFontInfo` recognises the built-in aliases through the ASCII-only `BuiltinFont`.
- GetIntOption: `TermChannelOptionsModel.TermChannelOptions.GetIntOption` parses with the ASCII-only `JavaLang.ParseInt`.
- The tokenizer and the emulator run the corrected half of each row under "## Findings"; the as-written half is modelled beside it and its discrepancy proved. The members that run a corrected half, and what of the source they then do not follow:
- UngetChar: `Tokenizer.VTxTokenizer.UngetChar` pushes the value unchanged; the source's `(byte)` cast turns 0xc3 into -61, which is read back as end of stream (`TokenizerSpec.UngetAsWritten`).
- Unget: `TokenizerSpec.Unget` is the pushback without the `(byte)` cast; `TokenizerSpec.UngetAsWritten` is the source's.
- UngetPending: states the corrected pushback; as written a pushed-back byte of 0x80 or more does not read back.
- Lookahead: `Tokenizer.VTxTokenizer.Lookahead` pushes back through the corrected `Unget`.
- ArgumentsFollow: pushes back through the corrected `Unget`.
- ParseString: `Tokenizer.VTxTokenizer.ParseString` pushes back through the corrected `Unget`.
- ParseFieldNumber: pushes back through the corrected `Unget`.
- ParseIntegerField: pushes back through the corrected `Unget`.
- ParseIntegerList: pushes back through the corrected `Unget`.
- ParseGraphModeNumber: pushes back through the corrected `Unget`.
- ParseGraphModeArguments: pushes back through the corrected `Unget`.
- HandleChar: pushes back through the corrected `Unget`.
- ParseGraphModeOption: pushes back through the corrected `Unget`.
- ParseIntegersOption: pushes back through the corrected `Unget`.
- ParseOptions: pushes back through the corrected `Unget`.
- HandleSequence: pushes back through the corrected `Unget`.
- Step: `Tokenizer.VTxTokenizer.Step` pushes back through the corrected `Unget`.
- NextToken: `Tokenizer.VTxTokenizer.NextToken` pushes back through the corrected `Unget` and reads lead bytes with the corrected mask. `Emulators.VTxEmulator.NextToken` dispatches to the corrected halves of every row under "## Findings", so it models the intended program where those rows apply.
- ReplayPending: holds of the corrected pushback; as written `ESC [ 1` followed by 0xc3 reads the pushed-back byte as end of stream.
- LookaheadKeepsPending: holds of the corrected pushback only.
- NoDigitNoNumber: holds of the corrected pushback only.
- EndOfList: holds of the corrected pushback only.
- ParseIntReadsDigits: holds of the corrected pushback only.
- LastNumberField: holds of the corrected pushback only.
- ParseStringReadsText: holds of the corrected pushback only.
- MatchUtf8Token: uses the corrected lead-byte lengths (mask 0xfe); as written the 0xfd mask gives 0xfd and 0xfe other lengths (`TokenizerSpec.Utf8Length`).
- MultiByteOutcome: states the corrected lead-byte lengths.
- Utf8ResultFacts: states the corrected lead-byte lengths.
- ScrollLines: `Emulators.VTxEmulator.ScrollLines` scrolls with the corrected `Terminals.Scroll`, not the pane's move as written (`Terminals.ScrollAsWritten`), which keeps rows of a region holding fewer than 2n rows, keeps a 1-row region on LF, and runs away when the count exceeds the region.
- AutoNewline: scrolls through the corrected `ScrollLines`.
- LineFeed: scrolls with the corrected `Terminals.Scroll` on the region's last row.
- Index: scrolls with the corrected `Terminals.Scroll`.
- NextLine: scrolls with the corrected `Terminals.Scroll`.
- ReverseIndex: scrolls with the corrected `Terminals.Scroll`.
- InsertLines: blanks with the corrected `Terminals.Scroll` where the source leaves a stale row (`Terminals.InsertLinesStaleRow`) or runs away (`Terminals.OverlongScrollRunsAway`).
- LineFeedsToken: uses the corrected `LineFeed` scroll.
- IndexesToken: IND, NEL and RI use the corrected scroll.
- LineEditsToken: SU and SD use the corrected `ScrollCount` and `Terminals.Scroll`, so `ESC [ S` scrolls one line where the source blanks the region (`EmulatorSpec.ScrollCountAsWritten`); DCH takes the corrected row blanking where the source's move runs away.
- WriteChar: `Emulators.VTxEmulator.WriteChar` takes the corrected pending-wrap path; as written the second of two characters after a pending wrap overwrites the first on column 0 (`EmulatorSpec.WriteCharAsWritten`).
- WriteUnwrapped: is the corrected write path.
- RepeatChar: repeats through the corrected `WriteChar`.
- WrapFirst: `Emulators.WrapFirst` states the corrected wrap.
- WritingToken: CHAR and REP go through the corrected `WriteChar`.
- RestoreCursor: `Emulators.VTxEmulator.RestoreCursor` uses the corrected `RestoreCursor`; as written `ESC 8` before `ESC 7` throws in `CharSet.valueOf(null)` and ends the session (`EmulatorSpec.RestoreCursorAsWritten`).
- SetDecMode: mode 1049 reset restores through the corrected `RestoreCursor`.
- SetAltScreenMode: reset restores through the corrected `RestoreCursor`, so a reset without a prior set does not end the session as the source does.
- HandleDecMode: applies the corrected `SetDecMode`.
- RegionAndSavedToken: DECRC uses the corrected `RestoreCursor`.
- SgrNumber: maps 39 and 49 the corrected way; as written 39 resets the background and 49 the foreground (`EmulatorSpec.SgrModeAsWritten`).
- HandleSetFontStyle: applies the corrected 39 and 49 mapping.
- ExtendedColor: continues the list with the corrected SGR mapping, so `38;5;1;39` differs from the source.
- RenditionToken: SGR and DECSET/DECRST use the corrected mappings.
- Start: `Emulators.VTxEmulator.Start` iterates the corrected `NextToken` and tokenizer.
- Run: the `SessionProps` lemmas hold of any step function and so of the corrected `NextToken` the model runs.
- Resize: `LegacyTextBuffers.TextBuffer.Resize` copies with the corrected `Kept`; as written a resize from 80 x 24 to 10 x 24 drops rows (`LegacyTextBuffers.KeptAsWritten`).
- CopyRows: `LegacyTextBuffers.TextBuffer.CopyRows` is the corrected copy loop, whose rows run up to the new row count.
- ResizeTextBuffers: `LegacyCharPanes.CharPane.ResizeTextBuffers` resizes through the corrected `Resize`.
- SetFontProperties: `FontInfos.FontInfo.SetFontProperties` applies the corrected `ReadStyle`; as written re-applying exported properties fails with a ClassCastException (`FontInfos.ApplyPropertiesAsWritten`).
- FromProperties: `FontInfos.FontInfo.FromProperties` uses the corrected `ReadStyle`; as written a non-string style makes it fail.
- ScrollAsWritten: returns None where the source's move runs away; the grid the source leaves after counting round the 32-bit range is not computed.
- Move: `CharPanes.CharPane.Move` and `MoveBlock` report a run-away move (`finished` false) and leave the grid as it was; the source goes on through about 2^32 row or column passes, copying and clearing whichever of those cells lie on the grid. `Terminals.Move` returns None in that case.
- MoveBlock: see `Move`.
- DeleteChars: `EmulatorSpec.DeleteChars` and `Emulators.VTxEmulator.DeleteChars` blank the row from the cursor where the source's move runs away (`EmulatorProps.DeleteCharsRunsAway`).
- InsertBlank: with the cursor right of the last column the move of ICH has a negative width and runs away in the source; the model then shifts nothing and the space falls off the grid.
- A scroll region whose end lies above its start (`ESC [ 5 r` stores the end as 0) makes the source's next scroll run away; the corrected `Terminals.Scroll` changes no row then.
- Atoi: `Ptty.Atoi` reads unbounded integers; C's `atoi` has undefined behaviour on overflow, which is not modelled.
- GetBooleanOption: a null value stored in the options map is not modelled, here or in `GetIntOption` and `SetStringOption`; option values are strings, and an absent key is the only missing value.

## Findings

| source | as written | input that shows it | evidently intended | confidence | as-written member | corrected member |
|---|---|---|---|---|---|---|
| vterm-emulator/src/main/java/nl/piter/vterm/emulator/VTxTokenizer.java:145-150 | `ungetChar` pushes `(byte) c`, so a pushed-back byte of 0x80 or more is read again as a negative value | `parseInt` ends a number on byte 0xc3 and pushes it back; it is read as −61 and matched as end of stream | the pushed value is read back unchanged | not executed | TokenizerProps.UngetCastReadsEof | TokenizerProps.UngetKeepsValue |
| vterm-emulator/src/main/java/nl/piter/vterm/emulator/VTxTokenizer.java:420 | the six-byte UTF-8 lead test uses mask 0xfd | 0xfd is taken as a one-byte character, while 0xfe is taken as a six-byte lead | lead bytes 1111110x (mask 0xfe) start six-byte sequences | not executed | TokenizerProps.LeadByteAsWritten | TokenizerProps.LeadByteLengths |
| vterm-emulator/src/main/java/nl/piter/vterm/ui/charpane/TextBuffer.java:123 | the copy loop of the older `resize` runs its rows up to the new column count | resizing 80 x 24 to 10 x 24 keeps rows 0-9 and blanks rows 10-23 | rows run up to the new row count | not executed | LegacyTextBuffers.ResizeAsWrittenDropsRows | LegacyTextBuffers.ResizeKeepsBottom |
| vterm-emulator/src/main/java/nl/piter/vterm/ui/panels/charpane/CharPane.java:551-556 | `scrollRegion` moves a block of h − n rows, and `move` clears only the rows it copied from | an 80 x 24 pane, region rows 20-24, insert 3 lines: row 21 keeps its old text | every row the scroll vacates is blank | not executed | Terminals.InsertLinesStaleRow | Terminals.ScrollDownEffect |
| vterm-emulator/src/main/java/nl/piter/vterm/emulator/VTxEmulator.java:359-363 | SU and SD scroll by `arg1`, which is 0 without arguments, and a scroll by 0 blanks the whole region | `ESC [ S` | the count defaults to 1, as section 8.3.147 of ECMA-48 defines it | not executed | EmulatorProps.ScrollWithoutArgumentAsWritten | EmulatorProps.ScrollWithoutArgument |
| vterm-emulator/src/main/java/nl/piter/vterm/ui/fonts/FontInfo.java:197, 227 | `getFontProperties` stores the style as an Integer, and `setFontProperties` casts it to String | applying the properties a font info exported | exported properties can be applied back | not executed | FontInfos.ExportThenApplyAsWrittenFails | FontInfos.ExportThenApply |
| vterm-emulator/src/main/java/nl/piter/vterm/emulator/VTxEmulator.java:1004-1007 | SGR 39 resets the background index and SGR 49 the foreground index | `ESC [ 39 m` after a foreground colour was set | 39 resets the foreground and 49 the background (section 8.3.117 of ECMA-48) | not executed | EmulatorModeProps.DefaultColorsAsWritten | EmulatorModeProps.DefaultColors |
| vterm-emulator/src/main/java/nl/piter/vterm/emulator/VTxEmulator.java:1163-1171 | with a wrap pending, the character is written after the newline but the cursor is not advanced | two characters written after the last column is filled with auto-wrap on: the second overwrites the first on column 0 | the two characters land on columns 0 and 1 | not executed | EmulatorProps.WrapOverwritesAsWritten | EmulatorProps.WrapKeepsBoth |
| vterm-emulator/src/main/java/nl/piter/vterm/emulator/VTxEmulator.java:1139-1145 | `restoreCursor` passes the saved charset name, which is null before any save, to `CharSet.valueOf` | `ESC 8` (DECRC) before any `ESC 7` | DECRC without a save homes the cursor and keeps the character sets | not executed | EmulatorProps.RestoreBeforeSaveAsWritten | EmulatorProps.RestoreBeforeSave |
| vterm-emulator/src/main/java/nl/piter/vterm/ui/panels/charpane/CharPane.java:551-556 | `scrollRegion` by more lines than the region holds asks `move` for a negative height, and `move`'s row loop tests `y != endy`, so it counts round the 32-bit range | `ESC [ 30 S` on a 24-row screen; `ESC [ 10 L` on row 20 | the region is blanked | not executed | Terminals.OverlongScrollRunsAway | Terminals.OverlongScrollBlanks |
| vterm-emulator/src/main/java/nl/piter/vterm/emulator/VTxEmulator.java:409-415 | DCH moves a block of width `numColumns() - x - num`, negative when more characters are deleted than the row holds, and the column loop counts round the 32-bit range | `ESC [ 100 P` on column 0 of an 80-column row | the row is blanked from the cursor on | not executed | EmulatorProps.DeleteCharsRunsAway | EmulatorProps.DeleteCharsPastEnd |
