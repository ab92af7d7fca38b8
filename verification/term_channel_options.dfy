/**
 * TermChannelOptions (api/TermChannelOptions.java): the default screen size
 * and terminal type a channel is opened with, plus a map of channel specific
 * options stored as strings and read back as booleans or ints.
 */
module TermChannelOptionsModel {
  import opened Wrappers
  import opened JavaLang

  /** TermConst.XTERM_256COLOR. */
  const XTERM_256COLOR: string := "xterm-256color"

  class TermChannelOptions {
    var defaultRows: int
    var defaultColumns: int
    /** May be null when built without one. */
    var termType: Option<string>
    var options: map<string, string>

    /** The all-arguments constructor; the option map starts empty. */
    constructor (defaultRows: int, defaultColumns: int, termType: Option<string>)
      ensures this.defaultRows == defaultRows && this.defaultColumns == defaultColumns
      ensures this.termType == termType && options == map[]
    {
      this.defaultRows := defaultRows;
      this.defaultColumns := defaultColumns;
      this.termType := termType;
      options := map[];
    }

    /** create(): a 24 x 24 xterm-256color channel without options. */
    static method Create() returns (o: TermChannelOptions)
      ensures fresh(o)
      ensures o.defaultColumns == 24 && o.defaultRows == 24
      ensures o.termType == Some(XTERM_256COLOR) && o.options == map[]
    {
      o := new TermChannelOptions(24, 24, Some(XTERM_256COLOR));
    }

    method SetDefaultSize(rows: int, columns: int)
      modifies this`defaultRows, this`defaultColumns
      ensures defaultRows == rows && defaultColumns == columns
    {
      defaultRows := rows;
      defaultColumns := columns;
    }

    /**
     * getBooleanOption: the default when the option is absent, otherwise
     * whether its text is "true" in any letter case.
     */
    function GetBooleanOption(name: string, defaultValue: bool): (b: bool)
      reads this
      ensures name !in options ==> b == defaultValue
      ensures name in options ==> (b <==> LowerAscii(options[name]) == "true")
    {
      if name !in options then defaultValue else ParseBoolean(Some(options[name]))
    }

    /**
     * getIntOption: the default when the option is absent, otherwise its
     * text as a decimal int; text that is not one raises
     * NumberFormatException.
     */
    function GetIntOption(name: string, defaultValue: int): (r: Result<int>)
      reads this
      ensures name !in options ==> r == Ok(defaultValue)
      ensures name in options && r.Ok? ==> IsInt32(r.value) && |options[name]| > 0
      ensures name in options && options[name] == [] ==> r.Err?
    {
      if name !in options then Ok(defaultValue) else ParseInt(options[name], 10)
    }

    /** setOption(String, boolean): stores "true" or "false". */
    method SetBooleanOption(name: string, value: bool)
      modifies this`options
      ensures options == old(options)[name := BoolToString(value)]
      ensures forall d :: GetBooleanOption(name, d) == value
    {
      options := options[name := BoolToString(value)];
    }

    /** setOption(String, String). */
    method SetStringOption(name: string, value: string)
      modifies this`options
      ensures options == old(options)[name := value]
    {
      options := options[name := value];
    }

    /** setOption(String, int): stores the decimal text, which reads back as the value. */
    method SetIntOption(name: string, value: int)
      requires IsInt32(value)
      modifies this`options
      ensures options == old(options)[name := IntToString(value)]
      ensures forall d :: GetIntOption(name, d) == Ok(value)
    {
      options := options[name := IntToString(value)];
      IntToStringParses(value);
    }
  }
}
