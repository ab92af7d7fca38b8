/**
 * The pure parts of VTermController (ui/VTermController.java): splitting a
 * user@host[:port] location, building the window title from the short and
 * long titles the emulator reports, and the X display port rule.
 */
module VTermControllers {
  import opened Wrappers
  import opened JavaLang
  import Util

  /** The parts of a start URI that parseLocation fills in. */
  datatype Location = Location(user: string, host: string, port: int)

  /** What parseLocation does: nothing, set a start URI, or show a message. */
  datatype LocationAction = Unchanged | StartUri(location: Location) | ShowMessage(message: string)

  const INVALID_LOCATION: string := "Invalid Location. Must be user@host[:port]. Value="

  /**
   * parseLocation(scheme, locstr): the user is the text before the first
   * '@' (empty without one); the host is what follows up to the first ':',
   * and the port the decimal number after it (0 without a ':'). A port
   * that is not a number shows a message naming what was left of the text.
   */
  function ParseLocation(locstr: Option<string>): (r: LocationAction)
    ensures locstr.None? <==> r.Unchanged?
    ensures locstr.Some? && '@' !in locstr.value && ':' !in locstr.value ==>
      r == StartUri(Location("", locstr.value, 0))
    ensures r.StartUri? ==> '@' !in r.location.user && ':' !in r.location.host && IsInt32(r.location.port)
  {
    if locstr.None? then Unchanged
    else
      var at := IndexOf(locstr.value, '@');
      var user := if at < 0 then "" else locstr.value[..at];
      var rest := if at < 0 then locstr.value else locstr.value[at + 1..];
      var colon := IndexOf(rest, ':');
      if colon < 0 then StartUri(Location(user, rest, 0))
      else
        var portText := rest[colon + 1..];
        match ParseInt(portText, 10)
        case Ok(port) => StartUri(Location(user, rest[..colon], port))
        case Err(_) => ShowMessage(INVALID_LOCATION + portText)
  }

  /** The text of a location: user@host:port. */
  function LocationText(loc: Location): (s: string)
    requires IsInt32(loc.port)
    ensures '@' in s && ':' in s
  {
    assert (loc.user + "@")[|loc.user|] == '@';
    assert (loc.user + "@" + loc.host + ":")[|loc.user| + 1 + |loc.host|] == ':';
    loc.user + "@" + loc.host + ":" + IntToString(loc.port)
  }

  /** The first c of head + [c] + tail is at |head| when head holds no c. */
  lemma IndexOfAfter(head: string, c: char, tail: string)
    requires c !in head
    ensures IndexOf(head + [c] + tail, c) == |head|
  {
    var s := head + [c] + tail;
    assert s[..|head|] == head;
    assert s[|head|] == c;
  }

  /** user@host:text splits at the first '@' and the first ':' after it. */
  lemma ParseLocationParts(user: string, host: string, portText: string)
    requires '@' !in user && ':' !in host
    ensures ParseLocation(Some(user + "@" + host + ":" + portText)) ==
      match ParseInt(portText, 10)
      case Ok(port) => StartUri(Location(user, host, port))
      case Err(_) => ShowMessage(INVALID_LOCATION + portText)
  {
    var rest := host + ":" + portText;
    var s := user + "@" + host + ":" + portText;
    assert s == user + "@" + rest;
    IndexOfAfter(user, '@', rest);
    assert s[..|user|] == user && s[|user| + 1..] == rest;
    IndexOfAfter(host, ':', portText);
    assert rest[..|host|] == host && rest[|host| + 1..] == portText;
  }

  /** A location written as user@host:port parses back to itself. */
  lemma ParseLocationText(loc: Location)
    requires '@' !in loc.user && ':' !in loc.host && IsInt32(loc.port)
    ensures ParseLocation(Some(LocationText(loc))) == StartUri(loc)
  {
    ParseLocationParts(loc.user, loc.host, IntToString(loc.port));
    IntToStringParses(loc.port);
  }

  /** A port that does not end in a digit is reported with the text after the ':'. */
  lemma BadPortReported(user: string, host: string, portText: string)
    requires '@' !in user && ':' !in host
    requires |portText| > 0 && DigitValue(portText[|portText| - 1], 10) < 0
    ensures ParseLocation(Some(user + "@" + host + ":" + portText)) == ShowMessage(INVALID_LOCATION + portText)
  {
    ParseLocationParts(user, host, portText);
    var body := if portText[0] == '-' || portText[0] == '+' then portText[1..] else portText;
    if body != [] {
      assert body[|body| - 1] == portText[|portText| - 1];
    }
  }

  /**
   * The window title: "[short] " when the short title is not empty, then
   * the long title when that is not empty.
   */
  function WindowTitle(shortTitle: string, longTitle: string): (t: string)
    ensures shortTitle == "" ==> t == longTitle
    ensures shortTitle != "" ==> |t| == |shortTitle| + 3 + |longTitle|
    ensures shortTitle != "" ==> t[..|shortTitle| + 3] == "[" + shortTitle + "] "
    ensures t[|t| - |longTitle|..] == longTitle
  {
    (if shortTitle != "" then "[" + shortTitle + "] " else "") + (if longTitle != "" then longTitle else "")
  }

  /** An X display port below 1024 is a display number: 6000 is added. */
  function XDisplayPort(port: int): (p: int)
    ensures port < 1024 ==> p == port + 6000
    ensures port >= 1024 ==> p == port
    ensures p >= 1024 || port < -4976
  {
    if port < 1024 then port + 6000 else port
  }

  /**
   * The X display the user typed, host:port: the host before the first ':',
   * the port number after it (raised by XDisplayPort). Without a ':' the
   * substring fails; a port that is not a number raises
   * NumberFormatException.
   */
  function ParseXDisplay(display: string): (r: Result<(string, int)>)
    ensures ':' !in display ==> r == Err(IndexOutOfBounds)
    ensures r.Ok? ==> ':' !in r.value.0 && |r.value.0| < |display| && display[..|r.value.0|] == r.value.0
  {
    var colon := IndexOf(display, ':');
    if colon < 0 then Err(IndexOutOfBounds)
    else match ParseInt(display[colon + 1..], 10)
      case Ok(port) => Ok((display[..colon], XDisplayPort(port)))
      case Err(e) => Err(e)
  }

  /** "h:0" is display 0 of host h: port 6000. */
  lemma XDisplayExample()
    ensures ParseXDisplay("h:0") == Ok(("h", 6000))
  {
    assert IndexOf("h:0", ':') == 1;
    assert "h:0"[2..] == "0";
    assert "h:0"[..1] == "h";
    ParseDecimalDigits("0");
    assert ParseInt("0", 10) == Ok(0);
  }

  /** The titles a controller keeps; null until the first notification. */
  class VTermController {
    var shortTitle: Option<string>
    var longTitle: Option<string>

    constructor ()
      ensures shortTitle.None? && longTitle.None?
    {
      shortTitle := None;
      longTitle := None;
    }

    /**
     * notifyTermTitle(type, arg): type 1 sets the short title, any other
     * type the long one; a null title becomes "". Returns the window title
     * and the status line short:long.
     */
    method NotifyTermTitle(titleType: int, arg: Option<string>) returns (title: string, status: string)
      modifies this
      ensures titleType == 1 ==> shortTitle == Some(arg.GetOr("")) && longTitle == Some(old(longTitle).GetOr(""))
      ensures titleType != 1 ==> longTitle == Some(arg.GetOr("")) && shortTitle == Some(old(shortTitle).GetOr(""))
      ensures title == WindowTitle(shortTitle.value, longTitle.value)
      ensures status == shortTitle.value + ":" + longTitle.value
    {
      if titleType == 1 {
        shortTitle := arg;
      } else {
        longTitle := arg;
      }
      if shortTitle.None? {
        shortTitle := Some("");
      }
      if longTitle.None? {
        longTitle := Some("");
      }
      title := "";
      if !Util.IsEmpty(shortTitle) {
        title := title + "[" + shortTitle.value + "] ";
      }
      if !Util.IsEmpty(longTitle) {
        title := title + longTitle.value;
      }
      status := shortTitle.value + ":" + longTitle.value;
    }
  }
}
