/**
 * FontInfo (ui/fonts/FontInfo.java): the family, alias, size, style bits and
 * anti-aliasing hint of the terminal font, their export to and import from a
 * java.util.Properties table, and the static registry of fonts by alias.
 */
module FontInfos {
  import opened Wrappers
  import opened JavaLang

  // FontConst: the property names.
  const FONT_ALIAS: string := "fontAlias"
  const FONT_TYPE: string := "fontType"
  const FONT_FAMILY: string := "fontFamily"
  const FONT_STYLE: string := "fontStyle"
  const FONT_SIZE: string := "fontSize"
  const FONT_HAS_ANTIALIASING: string := "fontHasAntiAliasing"

  // FontConst: the built-in aliases.
  const FONT_ICON_LABEL: string := "iconlabel"
  const FONT_MONO_SPACED: string := "monospaced"
  const FONT_DIALOG: string := "dialog"
  const FONT_TERMINAL: string := "terminal"
  const FONT_FRAKTUR: string := "fraktur"

  /** java.awt.Font style bits. */
  const BOLD: int := 1
  const ITALIC: int := 2

  predicate IsStyleFlag(flag: int) { flag == BOLD || flag == ITALIC }

  /** The flag's bit is set in the Java int v (two's complement). */
  predicate HasFlag(v: int, flag: int)
    requires IsStyleFlag(flag)
  {
    (v / flag) % 2 == 1
  }

  /** v with the flag's bit cleared: what two values differing only in that bit share. */
  function WithoutFlag(v: int, flag: int): int
    requires IsStyleFlag(flag)
  {
    if HasFlag(v, flag) then v - flag else v
  }

  /**
   * setFlag: or-in the flag when val, otherwise subtract it when it is set.
   * Afterwards the flag's bit is val and every other bit is as it was.
   */
  function SetFlag(orgvalue: int, flag: int, val: bool): (r: int)
    requires IsStyleFlag(flag)
    requires IsInt32(orgvalue)
    ensures IsInt32(r)
    ensures HasFlag(r, flag) == val
    ensures WithoutFlag(r, flag) == WithoutFlag(orgvalue, flag)
  {
    if val then (if HasFlag(orgvalue, flag) then orgvalue else orgvalue + flag)
    else if HasFlag(orgvalue, flag) then orgvalue - flag
    else orgvalue
  }

  /** Setting or clearing bold leaves the italic bit alone, and the other way round. */
  lemma SetFlagKeepsOther(v: int, flag: int, other: int, val: bool)
    requires IsInt32(v) && IsStyleFlag(flag) && IsStyleFlag(other) && flag != other
    ensures HasFlag(SetFlag(v, flag, val), other) == HasFlag(v, other)
  {
    var r := SetFlag(v, flag, val);
    if flag == BOLD {
      assert r == v || r == v + 1 || r == v - 1;
      if r == v + 1 {
        assert v % 2 == 0;
        assert (v + 1) / 2 == v / 2;
      } else if r == v - 1 {
        assert v % 2 == 1;
        assert (v - 1) / 2 == v / 2;
      }
    } else {
      assert r == v || r == v + 2 || r == v - 2;
      if r == v + 2 {
        assert (v + 2) % 2 == v % 2;
      } else if r == v - 2 {
        assert (v - 2) % 2 == v % 2;
      }
    }
  }

  /** The value of RenderingHints.KEY_ANTIALIASING. */
  datatype AntiAliasHint = AntialiasDefault | AntialiasOn | AntialiasOff

  /** hasAntiAliasing: on unless the hint is explicitly off. */
  predicate AntiAliased(hint: Option<AntiAliasHint>)
  {
    hint != Some(AntialiasOff)
  }

  /** A value stored in a Properties table: a String, an Integer or a Boolean. */
  datatype PropValue = Text(s: string) | Int(i: int) | Bool(b: bool)

  type Properties = map<string, PropValue>

  /** Object.toString. */
  function ToText(v: PropValue): (s: string)
    requires v.Int? ==> IsInt32(v.i)
    ensures v.Text? ==> s == v.s
  {
    match v
    case Text(s) => s
    case Int(i) => IntToString(i)
    case Bool(b) => BoolToString(b)
  }

  /** Every Integer in the table is a Java int. */
  predicate WellTyped(props: Properties)
  {
    forall k :: k in props && props[k].Int? ==> IsInt32(props[k].i)
  }

  /** The (String) cast of an optional entry: absent is null, a non-String fails. */
  function ReadString(props: Properties, key: string): (r: Result<Option<string>>)
    ensures key !in props ==> r == Ok(None)
    ensures key in props ==> (r.Ok? <==> props[key].Text?)
    ensures key in props && r.Ok? ==> r.value == Some(props[key].s)
  {
    if key !in props then Ok(None)
    else if props[key].Text? then Ok(Some(props[key].s))
    else Err(ClassCast)
  }

  /** Integer.valueOf of an entry's text. */
  function ReadIntText(props: Properties, key: string): (r: Result<Option<int>>)
    requires WellTyped(props)
    ensures key !in props ==> r == Ok(None)
    ensures r.Ok? && r.value.Some? ==> IsInt32(r.value.value)
  {
    if key !in props then Ok(None)
    else match ParseInt(ToText(props[key]), 10)
      case Ok(v) => Ok(Some(v))
      case Err(e) => Err(e)
  }

  /** The font size: Integer.valueOf(intVal.toString()). */
  function ReadSize(props: Properties): (r: Result<Option<int>>)
    requires WellTyped(props)
  {
    ReadIntText(props, FONT_SIZE)
  }

  /** The font style as written: Integer.valueOf((String) props.get(FONT_STYLE)). */
  function ReadStyleAsWritten(props: Properties): (r: Result<Option<int>>)
    ensures FONT_STYLE in props && !props[FONT_STYLE].Text? ==> r == Err(ClassCast)
    ensures r.Ok? && r.value.Some? ==> IsInt32(r.value.value)
  {
    match ReadString(props, FONT_STYLE)
    case Err(e) => Err(e)
    case Ok(None) => Ok(None)
    case Ok(Some(s)) =>
      match ParseInt(s, 10)
      case Ok(v) => Ok(Some(v))
      case Err(e) => Err(e)
  }

  /** The font style read the way the size is, through toString. */
  function ReadStyle(props: Properties): (r: Result<Option<int>>)
    requires WellTyped(props)
  {
    ReadIntText(props, FONT_STYLE)
  }

  /** The anti-aliasing flag: Boolean.valueOf(val.toString()), which never fails. */
  function ReadAntiAliasing(props: Properties): (r: Option<bool>)
    requires WellTyped(props)
    ensures r.Some? <==> FONT_HAS_ANTIALIASING in props
  {
    if FONT_HAS_ANTIALIASING !in props then None
    else Some(ParseBoolean(Some(ToText(props[FONT_HAS_ANTIALIASING]))))
  }

  /** The state of a FontInfo. */
  datatype FontSettings = FontSettings(
    family: string, alias: Option<string>, size: int, style: int, hint: Option<AntiAliasHint>)

  /** setAntiAliasing: null is the default hint, otherwise on or off. */
  function HintFor(useAA: Option<bool>): (h: AntiAliasHint)
    ensures AntiAliased(Some(h)) <==> useAA != Some(false)
  {
    match useAA
    case None => AntialiasDefault
    case Some(true) => AntialiasOn
    case Some(false) => AntialiasOff
  }

  /** The settings after setFontProperties, and the exception it raised, if any. */
  datatype Outcome = Outcome(settings: FontSettings, error: Option<Exception>)

  /**
   * setFontProperties with the style read by `style`: the alias, then the
   * legacy type and the family (in that order, so the family wins), the
   * size, the style and the anti-aliasing flag. An exception stops the
   * import and leaves the fields set before it.
   */
  function Apply(s: FontSettings, props: Properties, style: Result<Option<int>>): (o: Outcome)
    requires WellTyped(props)
    requires style.Ok? && style.value.Some? ==> IsInt32(style.value.value)
    ensures o.error.None? ==> style.Ok?
  {
    match ReadString(props, FONT_ALIAS)
    case Err(e) => Outcome(s, Some(e))
    case Ok(a) =>
      var s1 := if a.Some? then s.(alias := a) else s;
      match ReadString(props, FONT_TYPE)
      case Err(e) => Outcome(s1, Some(e))
      case Ok(t) =>
        var s2 := if t.Some? then s1.(family := t.value) else s1;
        match ReadString(props, FONT_FAMILY)
        case Err(e) => Outcome(s2, Some(e))
        case Ok(f) =>
          var s3 := if f.Some? then s2.(family := f.value) else s2;
          match ReadSize(props)
          case Err(e) => Outcome(s3, Some(e))
          case Ok(z) =>
            var s4 := if z.Some? then s3.(size := z.value) else s3;
            match style
            case Err(e) => Outcome(s4, Some(e))
            case Ok(y) =>
              var s5 := if y.Some? then s4.(style := y.value) else s4;
              var aa := ReadAntiAliasing(props);
              Outcome(if aa.Some? then s5.(hint := Some(HintFor(aa))) else s5, None)
  }

  /** setFontProperties as written (the style must be a String). */
  function ApplyPropertiesAsWritten(s: FontSettings, props: Properties): (o: Outcome)
    requires WellTyped(props)
    ensures FONT_STYLE in props && !props[FONT_STYLE].Text? ==> o.error.Some?
  {
    Apply(s, props, ReadStyleAsWritten(props))
  }

  /** setFontProperties with the style read through toString, like the size. */
  function ApplyProperties(s: FontSettings, props: Properties): (o: Outcome)
    requires WellTyped(props)
  {
    Apply(s, props, ReadStyle(props))
  }

  /** The alias getFontProperties exports: the family when there is none. */
  function AliasOrFamily(s: FontSettings): (a: string)
    ensures s.alias.Some? ==> a == s.alias.value
    ensures s.alias.None? ==> a == s.family
  {
    if s.alias.Some? then s.alias.value else s.family
  }

  /** getFontProperties: alias, family, size and style, and the anti-aliasing flag. */
  function ExportProperties(s: FontSettings): (props: Properties)
    ensures WellTyped(props) || !IsInt32(s.size) || !IsInt32(s.style)
    ensures props.Keys == {FONT_ALIAS, FONT_FAMILY, FONT_SIZE, FONT_STYLE, FONT_HAS_ANTIALIASING}
  {
    map[FONT_ALIAS := Text(AliasOrFamily(s)), FONT_FAMILY := Text(s.family),
        FONT_SIZE := Int(s.size), FONT_STYLE := Int(s.style),
        FONT_HAS_ANTIALIASING := Bool(AntiAliased(s.hint))]
  }

  /** The family is taken from fontFamily when present, else from the legacy fontType. */
  lemma FamilyOverridesType(s: FontSettings, props: Properties)
    requires WellTyped(props)
    ensures var o := ApplyProperties(s, props);
      && (o.error.None? && FONT_FAMILY in props ==> o.settings.family == props[FONT_FAMILY].s)
      && (o.error.None? && FONT_FAMILY !in props && FONT_TYPE in props ==> o.settings.family == props[FONT_TYPE].s)
      && (FONT_FAMILY !in props && FONT_TYPE !in props ==> o.settings.family == s.family)
  {
  }

  /**
   * Exported properties read back into any FontInfo give the same family,
   * alias (the family when there was none), size, style and anti-aliasing.
   */
  lemma ExportThenApply(s: FontSettings, t: FontSettings)
    requires IsInt32(s.size) && IsInt32(s.style)
    ensures var o := ApplyProperties(t, ExportProperties(s));
      && o.error.None?
      && o.settings.family == s.family
      && o.settings.alias == Some(AliasOrFamily(s))
      && o.settings.size == s.size
      && o.settings.style == s.style
      && AntiAliased(o.settings.hint) == AntiAliased(s.hint)
  {
    var props := ExportProperties(s);
    ExportedFields(s);
    assert ReadString(props, FONT_ALIAS) == Ok(Some(AliasOrFamily(s)));
    assert ReadString(props, FONT_TYPE) == Ok(None);
    assert ReadString(props, FONT_FAMILY) == Ok(Some(s.family));
  }

  /** The size, style and anti-aliasing flag read back from exported properties. */
  lemma ExportedFields(s: FontSettings)
    requires IsInt32(s.size) && IsInt32(s.style)
    ensures ReadSize(ExportProperties(s)) == Ok(Some(s.size))
    ensures ReadStyle(ExportProperties(s)) == Ok(Some(s.style))
    ensures ReadAntiAliasing(ExportProperties(s)) == Some(AntiAliased(s.hint))
  {
    IntToStringParses(s.size);
    IntToStringParses(s.style);
  }

  /**
   * As written, the properties getFontProperties returns cannot be read
   * back: the style is an Integer and the (String) cast fails.
   */
  lemma ExportThenApplyAsWrittenFails(s: FontSettings, t: FontSettings)
    requires IsInt32(s.size) && IsInt32(s.style)
    ensures ApplyPropertiesAsWritten(t, ExportProperties(s)).error == Some(ClassCast)
  {
    var props := ExportProperties(s);
    IntToStringParses(s.size);
    assert ReadSize(props) == Ok(Some(s.size));
  }

  /** FontInfoTest.loadProperties: family, size 42, style 13 and anti-aliasing read from text. */
  lemma LoadPropertiesExample(t: FontSettings)
    ensures var props := map[FONT_FAMILY := Text("family"), FONT_SIZE := Text("42"),
                             FONT_STYLE := Text("13"), FONT_HAS_ANTIALIASING := Bool(true)];
      var o := ApplyPropertiesAsWritten(t, props);
      && o.error.None? && o.settings.family == "family" && o.settings.size == 42
      && o.settings.style == 13 && AntiAliased(o.settings.hint)
  {
    var props := map[FONT_FAMILY := Text("family"), FONT_SIZE := Text("42"),
                     FONT_STYLE := Text("13"), FONT_HAS_ANTIALIASING := Bool(true)];
    ParseDecimalDigits("42");
    ParseDecimalDigits("13");
    assert ReadSize(props) == Ok(Some(42));
    assert ReadStyleAsWritten(props) == Ok(Some(13));
  }

  class FontInfo {
    var fontFamily: string
    var fontAlias: Option<string>
    var fontSize: int
    var fontStyle: int
    /** The KEY_ANTIALIASING rendering hint; None while renderingHints has none. */
    var antiAliasing: Option<AntiAliasHint>

    function Settings(): (s: FontSettings)
      reads this
      ensures s.family == fontFamily && s.alias == fontAlias && s.size == fontSize
      ensures s.style == fontStyle && s.hint == antiAliasing
    {
      FontSettings(fontFamily, fontAlias, fontSize, fontStyle, antiAliasing)
    }

    /** The no-argument constructor: 13 point plain Monospaced, no alias, no hints. */
    constructor ()
      ensures Settings() == FontSettings("Monospaced", None, 13, 0, None)
    {
      fontFamily := "Monospaced";
      fontAlias := None;
      fontSize := 13;
      fontStyle := 0;
      antiAliasing := None;
    }

    /** FontInfo(Font) through init: the font's size, style and family; the alias is the family. */
    constructor FromFont(family: string, style: int, size: int)
      ensures Settings() == FontSettings(family, Some(family), size, style, None)
    {
      fontFamily := family;
      fontAlias := Some(family);
      fontSize := size;
      fontStyle := style;
      antiAliasing := None;
    }

    function IsBold(): (b: bool)
      reads this
      ensures b <==> HasFlag(fontStyle, BOLD)
    {
      (fontStyle / BOLD) % 2 == 1
    }

    function IsItalic(): (b: bool)
      reads this
      ensures b <==> HasFlag(fontStyle, ITALIC)
    {
      (fontStyle / ITALIC) % 2 == 1
    }

    method SetBold(val: bool)
      requires IsInt32(fontStyle)
      modifies this`fontStyle
      ensures fontStyle == SetFlag(old(fontStyle), BOLD, val)
      ensures IsBold() == val && IsItalic() == old(IsItalic())
    {
      SetFlagKeepsOther(fontStyle, BOLD, ITALIC, val);
      fontStyle := SetFlag(fontStyle, BOLD, val);
    }

    method SetItalic(val: bool)
      requires IsInt32(fontStyle)
      modifies this`fontStyle
      ensures fontStyle == SetFlag(old(fontStyle), ITALIC, val)
      ensures IsItalic() == val && IsBold() == old(IsBold())
    {
      SetFlagKeepsOther(fontStyle, ITALIC, BOLD, val);
      fontStyle := SetFlag(fontStyle, ITALIC, val);
    }

    method SetFontSize(size: int)
      modifies this`fontSize
      ensures fontSize == size
    {
      fontSize := size;
    }

    method SetFontStyle(style: int)
      modifies this`fontStyle
      ensures fontStyle == style
    {
      fontStyle := style;
    }

    method SetFontFamily(family: string)
      modifies this`fontFamily
      ensures fontFamily == family
    {
      fontFamily := family;
    }

    /** setAntiAliasing(useAA): afterwards anti-aliasing is on unless useAA is false. */
    method SetAntiAliasing(useAA: Option<bool>)
      modifies this`antiAliasing
      ensures antiAliasing == Some(HintFor(useAA))
      ensures HasAntiAliasing() <==> useAA != Some(false)
    {
      antiAliasing := Some(HintFor(useAA));
    }

    function HasAntiAliasing(): (b: bool)
      reads this
      ensures b <==> antiAliasing != Some(AntialiasOff)
    {
      if antiAliasing.Some? then antiAliasing.value != AntialiasOff else true
    }

    /** getFontProperties: fills in a missing alias with the family first. */
    method GetFontProperties() returns (props: Properties)
      modifies this`fontAlias
      ensures fontAlias == Some(AliasOrFamily(old(Settings())))
      ensures props == ExportProperties(old(Settings()))
    {
      if fontAlias.None? {
        fontAlias := Some(fontFamily);
      }
      props := map[FONT_ALIAS := Text(fontAlias.value), FONT_FAMILY := Text(fontFamily),
                   FONT_SIZE := Int(fontSize), FONT_STYLE := Int(fontStyle),
                   FONT_HAS_ANTIALIASING := Bool(HasAntiAliasing())];
    }

    /**
     * setFontProperties, field by field; an exception returns early with
     * the fields set so far. The style is read through toString (see
     * ApplyPropertiesAsWritten for the cast the source makes).
     */
    method SetFontProperties(props: Properties) returns (error: Option<Exception>)
      requires WellTyped(props)
      modifies this
      ensures Settings() == ApplyProperties(old(Settings()), props).settings
      ensures error == ApplyProperties(old(Settings()), props).error
    {
      var a := ReadString(props, FONT_ALIAS);
      if a.Err? {
        return Some(a.error);
      }
      if a.value.Some? {
        fontAlias := a.value;
      }
      var t := ReadString(props, FONT_TYPE);
      if t.Err? {
        return Some(t.error);
      }
      if t.value.Some? {
        SetFontFamily(t.value.value);
      }
      var f := ReadString(props, FONT_FAMILY);
      if f.Err? {
        return Some(f.error);
      }
      if f.value.Some? {
        SetFontFamily(f.value.value);
      }
      var z := ReadSize(props);
      if z.Err? {
        return Some(z.error);
      }
      if z.value.Some? {
        SetFontSize(z.value.value);
      }
      var y := ReadStyle(props);
      if y.Err? {
        return Some(y.error);
      }
      if y.value.Some? {
        SetFontStyle(y.value.value);
      }
      var aa := ReadAntiAliasing(props);
      if aa.Some? {
        SetAntiAliasing(aa);
      }
      return None;
    }

    /** FontInfo(Properties): the properties over the defaults, then the family as alias when none was given. */
    static method FromProperties(props: Properties) returns (r: Result<FontInfo>)
      requires WellTyped(props)
      ensures r.Err? <==> ApplyProperties(FontSettings("Monospaced", None, 13, 0, None), props).error.Some?
      ensures r.Ok? ==> fresh(r.value)
      ensures r.Ok? ==>
        var s := ApplyProperties(FontSettings("Monospaced", None, 13, 0, None), props).settings;
        r.value.Settings() == s.(alias := Some(AliasOrFamily(s)))
    {
      var info := new FontInfo();
      var error := info.SetFontProperties(props);
      if error.Some? {
        return Err(error.value);
      }
      if info.fontAlias.None? {
        info.fontAlias := Some(info.fontFamily);
      }
      return Ok(info);
    }
  }

  /** The font a built-in alias is created with. */
  datatype Builtin = Builtin(alias: string, family: string, size: int, antiAliased: bool)

  /**
   * getFontInfo's hard-coded fonts, tried in this order with
   * compareToIgnoreCase; the entry is stored under the constant's spelling.
   */
  function BuiltinFont(alias: string): (b: Option<Builtin>)
    ensures b.Some? ==> EqualsIgnoreCase(alias, b.value.alias)
    ensures b.None? ==> forall c :: c in {FONT_ICON_LABEL, FONT_DIALOG, FONT_MONO_SPACED, FONT_TERMINAL, FONT_FRAKTUR} ==>
      !EqualsIgnoreCase(alias, c)
  {
    if EqualsIgnoreCase(alias, FONT_ICON_LABEL) then Some(Builtin(FONT_ICON_LABEL, "dialog", 14, false))
    else if EqualsIgnoreCase(alias, FONT_DIALOG) then Some(Builtin(FONT_DIALOG, "dialog", 14, false))
    else if EqualsIgnoreCase(alias, FONT_MONO_SPACED) then Some(Builtin(FONT_MONO_SPACED, "monospaced", 16, false))
    else if EqualsIgnoreCase(alias, FONT_TERMINAL) then Some(Builtin(FONT_TERMINAL, "txmonospaced", 16, true))
    else if EqualsIgnoreCase(alias, FONT_FRAKTUR) then Some(Builtin(FONT_FRAKTUR, "Chomsky", 16, true))
    else None
  }

  /** The static fontRegistry, a Hashtable from alias to FontInfo. */
  class FontRegistry {
    var fonts: map<string, FontInfo>

    constructor ()
      ensures fonts == map[]
    {
      fonts := map[];
    }

    /** store(): registers info under its alias; a null alias is a NullPointerException. */
    method Store(info: FontInfo) returns (error: Option<Exception>)
      modifies this`fonts
      ensures info.fontAlias.None? ==> error == Some(NullPointer) && fonts == old(fonts)
      ensures info.fontAlias.Some? ==> error.None? && fonts == old(fonts)[info.fontAlias.value := info]
    {
      if info.fontAlias.None? {
        return Some(NullPointer);
      }
      fonts := fonts[info.fontAlias.value := info];
      return None;
    }

    /**
     * getFontInfo(alias): the registered font, else a new plain font for a
     * built-in alias (registered under the built-in spelling, with
     * anti-aliasing on for the terminal and Fraktur fonts), else null.
     */
    method GetFontInfo(alias: string) returns (info: Option<FontInfo>)
      modifies this`fonts
      ensures alias in old(fonts) ==> info == Some(old(fonts)[alias]) && fonts == old(fonts)
      ensures alias !in old(fonts) && BuiltinFont(alias).None? ==> info.None? && fonts == old(fonts)
      ensures alias !in old(fonts) && BuiltinFont(alias).Some? ==>
        var b := BuiltinFont(alias).value;
        && info.Some? && fresh(info.value)
        && fonts == old(fonts)[b.alias := info.value]
        && info.value.Settings().(hint := None) == FontSettings(b.family, Some(b.alias), b.size, 0, None)
        && (b.antiAliased ==> info.value.antiAliasing == Some(AntialiasOn))
        && (!b.antiAliased ==> info.value.antiAliasing.None?)
    {
      if alias in fonts {
        return Some(fonts[alias]);
      }
      var b := BuiltinFont(alias);
      if b.None? {
        return None;
      }
      var f := new FontInfo.FromFont(b.value.family, 0, b.value.size);
      f.fontAlias := Some(b.value.alias);
      fonts := fonts[b.value.alias := f];
      if b.value.antiAliased {
        f.SetAntiAliasing(Some(true));
      }
      return Some(f);
    }
  }

  /** Asking for "Terminal" creates the anti-aliased txmonospaced font under "terminal". */
  lemma TerminalIsBuiltin()
    ensures BuiltinFont("Terminal") == Some(Builtin(FONT_TERMINAL, "txmonospaced", 16, true))
    ensures BuiltinFont("courier").None?
  {
    assert LowerAscii("Terminal") == "terminal";
    assert !EqualsIgnoreCase("Terminal", FONT_ICON_LABEL);
    assert !EqualsIgnoreCase("Terminal", FONT_DIALOG);
    assert LowerAscii("Terminal") != FONT_MONO_SPACED;
    assert LowerAscii("courier") == "courier";
    assert LowerAscii(FONT_FRAKTUR) == FONT_FRAKTUR;
    assert LowerAscii("courier")[0] != LowerAscii(FONT_FRAKTUR)[0];
  }
}
