/**
 * The token and option vocabulary shared by the token table, the tokenizer
 * and the emulator, and the C0 control characters of VT100/ECMA-48.
 */
module Tokens {

  /**
   * Every token the token table, the tokenizer and the emulator name. The
   * table's bell is BEL; the tokenizer's C0 classifier calls it BEEP.
   */
  datatype Token =
    | EOF | NUL | SOH | STX
    | ETX | EOT | ENQ | ACK
    | BEL | BEEP | BS | HT
    | LF | VT | FF | CR
    | CAN | SUB | ESC | XON
    | XOFF | DEL | DC1 | DC2
    | CHARSET_G0 | CHARSET_G1 | SAVE_CURSOR | RESTORE_CURSOR
    | IND_INDEX | NEL_NEXT_LINE | HTS_TAB_SET | RI_REVERSE_INDEX
    | SPA_START_OF_GUARDED_AREA | EPA_END_OF_GUARDER_AREA | SOS_START_OF_STRING | DECID_SEND_TERM_ID
    | ST_END_OF_STRING | PM_PRIVACY_MESSAGE | APPLICATION_KEYPAD | NUMERIC_KEYPAD
    | EXIT_VT52_MODE | CHARSET_G0_DES | CHARSET_G1_DES | CHARSET_G2_DES
    | CHARSET_G3_DES | DEC_SCREEN_ALIGNMENT | DCS_DEVICE_CONTROL_STRING | APP_PROGRAM_CMD
    | OSC_GRAPHMODE_PREFIX | OSC_GRAPHMODE | CSI_PREFIX | DEC_SETMODE
    | DEC_RESETMODE | REQ_SECONDARY_DA | REQ_XTVERSION | REQ_TERTIARY_DA
    | XTERM_RESET_MODIFIERS | XTERM_GET_MODIFIERS | XTERM_SETGET_GRAPHICS | INSERT_BLANK_CHARS
    | UP | DOWN | RIGHT | LEFT
    | PRECEDING_LINE | SET_COLUMN | SET_CURSOR | FORWARD_TABS
    | SCREEN_ERASE | LINE_ERASE | INSERT_LINES | DELETE_LINES
    | DEL_CHAR | SCROLL_UP | SCROLL_DOWN_OR_MOUSETRACK | ERASE_CHARS
    | BACKWARD_TABS | SCROLL_DOWN | CHARACTER_REPEAT | REQ_PRIMARY_DA
    | SET_ROW | HTC_TAB_CLEAR | SET_MODE | RESET_MODE
    | CHARACTER_ATTRS | DEVICE_STATUS | SET_REGION | XTERM_WIN_MANIPULATION
    | DEC_LED_SET | DEC_LED_TEST | CHAR | UNSUPPORTED
    | ERROR

  /**
   * Argument kinds a sequence definition can carry: CSI integer lists, OSC
   * "graph mode" (an integer and a string), a charset designator and a string.
   */
  datatype TokenOption = Integers | GraphMode | CharSetParam | StringParam

  /** The enum constant name, as Token.toString() gives it. */
  function TokenName(t: Token): (s: string)
    ensures |s| > 0
  {
    match t
    case EOF => "EOF"
    case NUL => "NUL"
    case SOH => "SOH"
    case STX => "STX"
    case ETX => "ETX"
    case EOT => "EOT"
    case ENQ => "ENQ"
    case ACK => "ACK"
    case BEL => "BEL"
    case BEEP => "BEEP"
    case BS => "BS"
    case HT => "HT"
    case LF => "LF"
    case VT => "VT"
    case FF => "FF"
    case CR => "CR"
    case CAN => "CAN"
    case SUB => "SUB"
    case ESC => "ESC"
    case XON => "XON"
    case XOFF => "XOFF"
    case DEL => "DEL"
    case DC1 => "DC1"
    case DC2 => "DC2"
    case CHARSET_G0 => "CHARSET_G0"
    case CHARSET_G1 => "CHARSET_G1"
    case SAVE_CURSOR => "SAVE_CURSOR"
    case RESTORE_CURSOR => "RESTORE_CURSOR"
    case IND_INDEX => "IND_INDEX"
    case NEL_NEXT_LINE => "NEL_NEXT_LINE"
    case HTS_TAB_SET => "HTS_TAB_SET"
    case RI_REVERSE_INDEX => "RI_REVERSE_INDEX"
    case SPA_START_OF_GUARDED_AREA => "SPA_START_OF_GUARDED_AREA"
    case EPA_END_OF_GUARDER_AREA => "EPA_END_OF_GUARDER_AREA"
    case SOS_START_OF_STRING => "SOS_START_OF_STRING"
    case DECID_SEND_TERM_ID => "DECID_SEND_TERM_ID"
    case ST_END_OF_STRING => "ST_END_OF_STRING"
    case PM_PRIVACY_MESSAGE => "PM_PRIVACY_MESSAGE"
    case APPLICATION_KEYPAD => "APPLICATION_KEYPAD"
    case NUMERIC_KEYPAD => "NUMERIC_KEYPAD"
    case EXIT_VT52_MODE => "EXIT_VT52_MODE"
    case CHARSET_G0_DES => "CHARSET_G0_DES"
    case CHARSET_G1_DES => "CHARSET_G1_DES"
    case CHARSET_G2_DES => "CHARSET_G2_DES"
    case CHARSET_G3_DES => "CHARSET_G3_DES"
    case DEC_SCREEN_ALIGNMENT => "DEC_SCREEN_ALIGNMENT"
    case DCS_DEVICE_CONTROL_STRING => "DCS_DEVICE_CONTROL_STRING"
    case APP_PROGRAM_CMD => "APP_PROGRAM_CMD"
    case OSC_GRAPHMODE_PREFIX => "OSC_GRAPHMODE_PREFIX"
    case OSC_GRAPHMODE => "OSC_GRAPHMODE"
    case CSI_PREFIX => "CSI_PREFIX"
    case DEC_SETMODE => "DEC_SETMODE"
    case DEC_RESETMODE => "DEC_RESETMODE"
    case REQ_SECONDARY_DA => "REQ_SECONDARY_DA"
    case REQ_XTVERSION => "REQ_XTVERSION"
    case REQ_TERTIARY_DA => "REQ_TERTIARY_DA"
    case XTERM_RESET_MODIFIERS => "XTERM_RESET_MODIFIERS"
    case XTERM_GET_MODIFIERS => "XTERM_GET_MODIFIERS"
    case XTERM_SETGET_GRAPHICS => "XTERM_SETGET_GRAPHICS"
    case INSERT_BLANK_CHARS => "INSERT_BLANK_CHARS"
    case UP => "UP"
    case DOWN => "DOWN"
    case RIGHT => "RIGHT"
    case LEFT => "LEFT"
    case PRECEDING_LINE => "PRECEDING_LINE"
    case SET_COLUMN => "SET_COLUMN"
    case SET_CURSOR => "SET_CURSOR"
    case FORWARD_TABS => "FORWARD_TABS"
    case SCREEN_ERASE => "SCREEN_ERASE"
    case LINE_ERASE => "LINE_ERASE"
    case INSERT_LINES => "INSERT_LINES"
    case DELETE_LINES => "DELETE_LINES"
    case DEL_CHAR => "DEL_CHAR"
    case SCROLL_UP => "SCROLL_UP"
    case SCROLL_DOWN_OR_MOUSETRACK => "SCROLL_DOWN_OR_MOUSETRACK"
    case ERASE_CHARS => "ERASE_CHARS"
    case BACKWARD_TABS => "BACKWARD_TABS"
    case SCROLL_DOWN => "SCROLL_DOWN"
    case CHARACTER_REPEAT => "CHARACTER_REPEAT"
    case REQ_PRIMARY_DA => "REQ_PRIMARY_DA"
    case SET_ROW => "SET_ROW"
    case HTC_TAB_CLEAR => "HTC_TAB_CLEAR"
    case SET_MODE => "SET_MODE"
    case RESET_MODE => "RESET_MODE"
    case CHARACTER_ATTRS => "CHARACTER_ATTRS"
    case DEVICE_STATUS => "DEVICE_STATUS"
    case SET_REGION => "SET_REGION"
    case XTERM_WIN_MANIPULATION => "XTERM_WIN_MANIPULATION"
    case DEC_LED_SET => "DEC_LED_SET"
    case DEC_LED_TEST => "DEC_LED_TEST"
    case CHAR => "CHAR"
    case UNSUPPORTED => "UNSUPPORTED"
    case ERROR => "ERROR"
  }

  function OptionName(o: TokenOption): (s: string)
    ensures |s| > 0
  {
    match o
    case Integers => "PARAMETER_INTEGERS"
    case GraphMode => "PARAMETER_GRAPHMODE"
    case CharSetParam => "PARAMETER_CHARSET"
    case StringParam => "PARAMETER_STRING"
  }

  // C0 control characters.
  const CTRL_NUL := 0x00
  const CTRL_SOH := 0x01
  const CTRL_STX := 0x02
  const CTRL_ETX := 0x03
  const CTRL_EOT := 0x04
  const CTRL_ENQ := 0x05
  const CTRL_ACK := 0x06
  const CTRL_BEL := 0x07
  const CTRL_BS := 0x08
  const CTRL_HT := 0x09
  const CTRL_LF := 0x0a
  const CTRL_VT := 0x0b
  const CTRL_FF := 0x0c
  const CTRL_CR := 0x0d
  const CTRL_SO := 0x0e
  const CTRL_SI := 0x0f
  const CTRL_XON := 0x11
  const CTRL_XOFF := 0x13
  const CTRL_CAN := 0x18
  const CTRL_SUB := 0x1a
  const CTRL_ESC := 0x1b
  const CTRL_DEL := 0x7f
}
