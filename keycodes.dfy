/**
 * The table of Linux input-event key codes that the ydotool wrapper
 * sends for each key name, as pyautogui names keys. Each key maps to a
 * code; a shifted symbol shares the code of the key it is typed with.
 *
 * The one dictionary of the program is written here as lookups with the
 * same 133 entries: `CharCode` for the single-character keys, split by
 * character range, and `NamedCode` for the named keys, grouped by first
 * letter.
 */
module Keycodes {
  import opened Wrappers

  /**
   * The entries whose key is a single character, split by character range
   * so that a lookup only walks the entries of its own range.
   */
  function CharCode(c: char): (r: Option<int>)
    ensures r.Some? ==> r.value > 0
  {
    if 'a' <= c <= 'z' then LetterCode(c)
    else if '0' <= c <= '9' then DigitCode(c)
    else if '!' <= c <= '~' then SymbolCode(c)
    else WhitespaceCode(c)
  }

  /** The lower-case letters. */
  function LetterCode(c: char): (r: Option<int>)
    ensures r.Some? ==> r.value > 0
  {
    match c
    case 'a' => Some(30)
    case 's' => Some(31)
    case 'd' => Some(32)
    case 'f' => Some(33)
    case 'h' => Some(35)
    case 'g' => Some(34)
    case 'z' => Some(44)
    case 'x' => Some(45)
    case 'c' => Some(46)
    case 'v' => Some(47)
    case 'b' => Some(48)
    case 'q' => Some(16)
    case 'w' => Some(17)
    case 'e' => Some(18)
    case 'r' => Some(19)
    case 'y' => Some(21)
    case 't' => Some(20)
    case 'o' => Some(24)
    case 'u' => Some(22)
    case 'i' => Some(23)
    case 'p' => Some(25)
    case 'l' => Some(38)
    case 'j' => Some(36)
    case 'k' => Some(37)
    case 'n' => Some(49)
    case 'm' => Some(50)
    case _ => None
  }

  /** The digits. */
  function DigitCode(c: char): (r: Option<int>)
    ensures r.Some? ==> r.value > 0
  {
    match c
    case '1' => Some(2)
    case '2' => Some(3)
    case '3' => Some(4)
    case '4' => Some(5)
    case '5' => Some(6)
    case '6' => Some(7)
    case '7' => Some(8)
    case '8' => Some(9)
    case '9' => Some(10)
    case '0' => Some(11)
    case _ => None
  }

  /** The printable symbols, in four ranges around the digits and letters. */
  function SymbolCode(c: char): (r: Option<int>)
    ensures r.Some? ==> r.value > 0
  {
    if c < '0' then
      match c
      case '!' => Some(2)
      case '#' => Some(4)
      case '$' => Some(5)
      case '%' => Some(6)
      case '&' => Some(8)
      case '*' => Some(9)
      case '(' => Some(10)
      case ')' => Some(11)
      case '-' => Some(12)
      case '+' => Some(13)
      case '\'' => Some(40)
      case '"' => Some(40)
      case ',' => Some(51)
      case '.' => Some(52)
      case '/' => Some(53)
      case _ => None
    else if c < 'A' then
      match c
      case '@' => Some(3)
      case '=' => Some(13)
      case ';' => Some(39)
      case ':' => Some(39)
      case '<' => Some(51)
      case '>' => Some(52)
      case '?' => Some(53)
      case _ => None
    else if c < 'a' then
      match c
      case '^' => Some(7)
      case '_' => Some(12)
      case '[' => Some(26)
      case ']' => Some(27)
      case '`' => Some(41)
      case '\\' => Some(43)
      case _ => None
    else
      match c
      case '{' => Some(26)
      case '}' => Some(27)
      case '~' => Some(41)
      case '|' => Some(43)
      case _ => None
  }

  /** Space, tab, carriage return, line feed and backspace. */
  function WhitespaceCode(c: char): (r: Option<int>)
    ensures r.Some? ==> r.value > 0
  {
    match c
    case ' ' => Some(57)
    case '\t' => Some(15)
    case '\r' => Some(28)
    case '\n' => Some(28)
    case '\U{8}' => Some(14)
    case _ => None
  }

  /** The entries whose key is a name of two or more characters. */
  function NamedCode(k: string): (r: Option<int>)
    requires |k| >= 2
    ensures r.Some? ==> r.value > 0
  {
    match k[0]
    case 's' =>
      if k == "space" then Some(57)
      else if k == "shift" then Some(42)
      else if k == "shiftleft" then Some(42)
      else if k == "shiftright" then Some(54)
      else None
    case 't' =>
      if k == "tab" then Some(15)
      else None
    case 'e' =>
      if k == "enter" then Some(28)
      else if k == "esc" then Some(1)
      else if k == "escape" then Some(1)
      else if k == "end" then Some(107)
      else if k == "eisu" then Some(85)
      else None
    case 'r' =>
      if k == "return" then Some(28)
      else if k == "right" then Some(106)
      else None
    case 'b' =>
      if k == "backspace" then Some(14)
      else None
    case 'c' =>
      if k == "capslock" then Some(58)
      else if k == "ctrl" then Some(29)
      else if k == "ctrlleft" then Some(29)
      else if k == "ctrlright" then Some(97)
      else if k == "command" then Some(125)
      else None
    case 'a' =>
      if k == "alt" then Some(56)
      else if k == "altleft" then Some(56)
      else None
    case 'o' =>
      if k == "option" then Some(56)
      else if k == "optionleft" then Some(56)
      else if k == "optionright" then Some(100)
      else None
    case 'f' =>
      if k == "fn" then Some(464)
      else if k == "f1" then Some(59)
      else if k == "f2" then Some(60)
      else if k == "f3" then Some(61)
      else if k == "f4" then Some(62)
      else if k == "f5" then Some(63)
      else if k == "f6" then Some(64)
      else if k == "f7" then Some(65)
      else if k == "f8" then Some(66)
      else if k == "f9" then Some(67)
      else if k == "f10" then Some(68)
      else if k == "f11" then Some(87)
      else if k == "f12" then Some(88)
      else if k == "f13" then Some(183)
      else if k == "f14" then Some(184)
      else if k == "f15" then Some(185)
      else if k == "f16" then Some(186)
      else if k == "f17" then Some(187)
      else if k == "f18" then Some(188)
      else if k == "f19" then Some(189)
      else if k == "f20" then Some(190)
      else None
    case 'h' =>
      if k == "home" then Some(102)
      else if k == "help" then Some(138)
      else None
    case 'p' =>
      if k == "pageup" then Some(104)
      else if k == "pgup" then Some(104)
      else if k == "pagedown" then Some(109)
      else if k == "pgdn" then Some(109)
      else None
    case 'l' =>
      if k == "left" then Some(105)
      else None
    case 'u' =>
      if k == "up" then Some(103)
      else None
    case 'd' =>
      if k == "down" then Some(108)
      else if k == "del" then Some(111)
      else if k == "delete" then Some(111)
      else None
    case 'v' =>
      if k == "volumeup" then Some(115)
      else if k == "volumedown" then Some(114)
      else if k == "volumemute" then Some(113)
      else None
    case 'y' =>
      if k == "yen" then Some(124)
      else None
    case 'k' =>
      if k == "kana" then Some(90)
      else None
    case _ => None
  }

  /** `KEYCODE_MAP.get(key)`: the code of a key, looked up exactly as written. */
  function Keycode(key: string): (r: Option<int>)
    ensures r.Some? ==> r.value > 0
  {
    if |key| == 0 then None
    else if |key| == 1 then CharCode(key[0])
    else NamedCode(key)
  }

  /** A one-character key is looked up among the single-character entries. */
  lemma SingleCharKey(c: char)
    ensures Keycode([c]) == CharCode(c)
  {
  }

  /**
   * The key a symbol is typed with on a US keyboard when shift is held:
   * '!' is typed with '1', '_' with '-', and so on; every other character
   * is its own key.
   */
  function Unshifted(c: char): char
  {
    match c
    case '!' => '1'
    case '@' => '2'
    case '#' => '3'
    case '$' => '4'
    case '%' => '5'
    case '^' => '6'
    case '&' => '7'
    case '*' => '8'
    case '(' => '9'
    case ')' => '0'
    case '_' => '-'
    case '+' => '='
    case '{' => '['
    case '}' => ']'
    case ':' => ';'
    case '"' => '\''
    case '~' => '`'
    case '|' => '\\'
    case '<' => ','
    case '>' => '.'
    case '?' => '/'
    case _ => c
  }

  /** Each shifted symbol has a code, and it is the code of the key it is typed with. */
  lemma ShiftedSharesCode(c: char)
    requires Unshifted(c) != c
    ensures CharCode(c) == CharCode(Unshifted(c)) && CharCode(c).Some?
  {
  }

  /** Enter, return, carriage return and line feed are one key. */
  lemma EnterKeys()
    ensures Keycode("enter") == Keycode("return") == Keycode("\r") == Keycode("\n") == Some(28)
  {
  }

  /** Both spellings of page up and page down resolve, to the same codes. */
  lemma PageKeys()
    ensures Keycode("pageup") == Keycode("pgup") == Some(104)
    ensures Keycode("pagedown") == Keycode("pgdn") == Some(109)
  {
  }

  /** Escape and delete have a short and a long name each. */
  lemma EscapeAndDelete()
    ensures Keycode("esc") == Keycode("escape") == Some(1)
    ensures Keycode("del") == Keycode("delete") == Some(111)
  {
  }

  /** Every lower-case letter has a code. */
  lemma LowerCaseLetters(c: char)
    requires 'a' <= c <= 'z'
    ensures Keycode([c]).Some?
  {
  }

  /**
   * The lookup is exact, not case-insensitive: a key that starts with an
   * upper-case letter ("A", "ENTER", "F1") has no code, although its
   * lower-case spelling has one.
   */
  lemma UpperCaseHasNoCode(key: string)
    requires |key| >= 1 && 'A' <= key[0] <= 'Z'
    ensures Keycode(key).None?
  {
  }

  /** The spelling pyautogui uses is found, the capitalised one is not. */
  lemma ExactSpelling()
    ensures Keycode("A").None? && Keycode("a") == Some(30)
    ensures Keycode("ENTER").None? && Keycode("enter") == Some(28)
    ensures Keycode("F1").None? && Keycode("f1") == Some(59)
  {
  }
}
