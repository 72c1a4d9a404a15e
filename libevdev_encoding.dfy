/** How the libevdev output backend turns characters into key events: a fixed table
    for the US-layout characters, and the control+shift+u Unicode entry gesture of
    ISO/IEC 14755 ("basic method", as Linux desktops implement it) for everything else. */
module LibevdevEncoding {
  import opened Events
  import opened HexFormat
  import opened Outcomes

  const LeftShiftPress: Event := Key(LeftShift, Press)
  const LeftShiftRelease: Event := Key(LeftShift, Release)
  const BackspacePress: Event := Key(Backspace, Press)
  const BackspaceRelease: Event := Key(Backspace, Release)

  /** Hold control and shift, then type 'u'. */
  const UnicodeInputInit: seq<Event> := [
    Key(LeftCtrl, Press),
    LeftShiftPress,
    SynReport,
    Key(Letter('U'), Press),
    SynReport,
    Key(Letter('U'), Release),
    SynReport
  ]

  /** Let go of shift and control. */
  const UnicodeInputEnd: seq<Event> := [
    LeftShiftRelease,
    Key(LeftCtrl, Release),
    SynReport
  ]

  /** One unshifted keystroke. */
  function PressAndRelease(k: KeyCode): seq<Event> {
    [Key(k, Press), SynReport, Key(k, Release), SynReport]
  }

  /** One keystroke with shift held around it. */
  function ShiftPressAndRelease(k: KeyCode): seq<Event> {
    [LeftShiftPress, Key(k, Press), SynReport, Key(k, Release), LeftShiftRelease, SynReport]
  }

  /** A table entry: one key, typed with or without shift held. */
  datatype Keystroke = Unshifted(key: KeyCode) | Shifted(key: KeyCode)

  /** The events of a table entry: _press_and_release or _shift_press_and_release. */
  function KeystrokeEvents(ks: Keystroke): seq<Event> {
    match ks
    case Unshifted(k) => PressAndRelease(k)
    case Shifted(k) => ShiftPressAndRelease(k)
  }

  /** The characters typed directly on a US keyboard, each with its key and whether
      shift is held; None for a character the table does not hold. The cases are
      written as code points, with the character beside each. */
  function LatinCharKeystroke(c: char): Option<Keystroke> {
    match c as int
    case 10 /* '\n' */ => Some(Unshifted(Enter))
    case 9 /* '\t' */ => Some(Unshifted(Tab))
    case 32 /* ' ' */ => Some(Unshifted(Space))
    case 33 /* '!' */ => Some(Shifted(Digit(1)))
    case 34 /* '"' */ => Some(Shifted(Apostrophe))
    case 35 /* '#' */ => Some(Shifted(Digit(3)))
    case 36 /* '$' */ => Some(Shifted(Digit(4)))
    case 37 /* '%' */ => Some(Shifted(Digit(5)))
    case 38 /* '&' */ => Some(Shifted(Digit(7)))
    case 39 /* '\'' */ => Some(Unshifted(Apostrophe))
    case 40 /* '(' */ => Some(Shifted(Digit(9)))
    case 41 /* ')' */ => Some(Shifted(Digit(0)))
    case 42 /* '*' */ => Some(Shifted(Digit(8)))
    case 43 /* '+' */ => Some(Shifted(Digit(0)))
    case 44 /* ',' */ => Some(Shifted(Equal))
    case 45 /* '-' */ => Some(Unshifted(Minus))
    case 46 /* '.' */ => Some(Unshifted(Dot))
    case 47 /* '/' */ => Some(Unshifted(Slash))
    case 48 /* '0' */ => Some(Unshifted(Digit(0)))
    case 49 /* '1' */ => Some(Unshifted(Digit(1)))
    case 50 /* '2' */ => Some(Unshifted(Digit(2)))
    case 51 /* '3' */ => Some(Unshifted(Digit(3)))
    case 52 /* '4' */ => Some(Unshifted(Digit(4)))
    case 53 /* '5' */ => Some(Unshifted(Digit(5)))
    case 54 /* '6' */ => Some(Unshifted(Digit(6)))
    case 55 /* '7' */ => Some(Unshifted(Digit(7)))
    case 56 /* '8' */ => Some(Unshifted(Digit(8)))
    case 57 /* '9' */ => Some(Unshifted(Digit(9)))
    case 58 /* ':' */ => Some(Shifted(Semicolon))
    case 59 /* ';' */ => Some(Unshifted(Semicolon))
    case 60 /* '<' */ => Some(Shifted(Comma))
    case 61 /* '=' */ => Some(Unshifted(Equal))
    case 62 /* '>' */ => Some(Shifted(Dot))
    case 63 /* '?' */ => Some(Shifted(Slash))
    case 64 /* '@' */ => Some(Shifted(Digit(2)))
    case 65 /* 'A' */ => Some(Shifted(Letter('A')))
    case 66 /* 'B' */ => Some(Shifted(Letter('B')))
    case 67 /* 'C' */ => Some(Shifted(Letter('C')))
    case 68 /* 'D' */ => Some(Shifted(Letter('D')))
    case 69 /* 'E' */ => Some(Shifted(Letter('E')))
    case 70 /* 'F' */ => Some(Shifted(Letter('F')))
    case 71 /* 'G' */ => Some(Shifted(Letter('G')))
    case 72 /* 'H' */ => Some(Shifted(Letter('H')))
    case 73 /* 'I' */ => Some(Shifted(Letter('I')))
    case 74 /* 'J' */ => Some(Shifted(Letter('J')))
    case 75 /* 'K' */ => Some(Shifted(Letter('K')))
    case 76 /* 'L' */ => Some(Shifted(Letter('L')))
    case 77 /* 'M' */ => Some(Shifted(Letter('M')))
    case 78 /* 'N' */ => Some(Shifted(Letter('N')))
    case 79 /* 'O' */ => Some(Shifted(Letter('O')))
    case 80 /* 'P' */ => Some(Shifted(Letter('P')))
    case 81 /* 'Q' */ => Some(Shifted(Letter('Q')))
    case 82 /* 'R' */ => Some(Shifted(Letter('R')))
    case 83 /* 'S' */ => Some(Shifted(Letter('S')))
    case 84 /* 'T' */ => Some(Shifted(Letter('T')))
    case 85 /* 'U' */ => Some(Shifted(Letter('U')))
    case 86 /* 'V' */ => Some(Shifted(Letter('V')))
    case 87 /* 'W' */ => Some(Shifted(Letter('W')))
    case 88 /* 'X' */ => Some(Shifted(Letter('X')))
    case 89 /* 'Y' */ => Some(Shifted(Letter('Y')))
    case 90 /* 'Z' */ => Some(Shifted(Letter('Z')))
    case 91 /* '[' */ => Some(Unshifted(LeftBrace))
    case 92 /* '\\' */ => Some(Unshifted(Backslash))
    case 93 /* ']' */ => Some(Unshifted(RightBrace))
    case 94 /* '^' */ => Some(Shifted(Digit(6)))
    case 95 /* '_' */ => Some(Shifted(Minus))
    case 96 /* '`' */ => Some(Unshifted(Grave))
    case 97 /* 'a' */ => Some(Unshifted(Letter('A')))
    case 98 /* 'b' */ => Some(Unshifted(Letter('B')))
    case 99 /* 'c' */ => Some(Unshifted(Letter('C')))
    case 100 /* 'd' */ => Some(Unshifted(Letter('D')))
    case 101 /* 'e' */ => Some(Unshifted(Letter('E')))
    case 102 /* 'f' */ => Some(Unshifted(Letter('F')))
    case 103 /* 'g' */ => Some(Unshifted(Letter('G')))
    case 104 /* 'h' */ => Some(Unshifted(Letter('H')))
    case 105 /* 'i' */ => Some(Unshifted(Letter('I')))
    case 106 /* 'j' */ => Some(Unshifted(Letter('J')))
    case 107 /* 'k' */ => Some(Unshifted(Letter('K')))
    case 108 /* 'l' */ => Some(Unshifted(Letter('L')))
    case 109 /* 'm' */ => Some(Unshifted(Letter('M')))
    case 110 /* 'n' */ => Some(Unshifted(Letter('N')))
    case 111 /* 'o' */ => Some(Unshifted(Letter('O')))
    case 112 /* 'p' */ => Some(Unshifted(Letter('P')))
    case 113 /* 'q' */ => Some(Unshifted(Letter('Q')))
    case 114 /* 'r' */ => Some(Unshifted(Letter('R')))
    case 115 /* 's' */ => Some(Unshifted(Letter('S')))
    case 116 /* 't' */ => Some(Unshifted(Letter('T')))
    case 117 /* 'u' */ => Some(Unshifted(Letter('U')))
    case 118 /* 'v' */ => Some(Unshifted(Letter('V')))
    case 119 /* 'w' */ => Some(Unshifted(Letter('W')))
    case 120 /* 'x' */ => Some(Unshifted(Letter('X')))
    case 121 /* 'y' */ => Some(Unshifted(Letter('Y')))
    case 122 /* 'z' */ => Some(Unshifted(Letter('Z')))
    case 123 /* '{' */ => Some(Shifted(LeftBrace))
    case 124 /* '|' */ => Some(Shifted(Backslash))
    case 125 /* '}' */ => Some(Shifted(RightBrace))
    case 126 /* '~' */ => Some(Shifted(Grave))
    case _ => None
  }

  /** The table itself, character to events. */
  function LatinCharToInputEvents(c: char): Option<seq<Event>> {
    match LatinCharKeystroke(c)
    case Some(ks) => Some(KeystrokeEvents(ks))
    case None => None
  }

  /** Every character of s has a table entry. */
  predicate InTable(s: string) {
    forall i :: 0 <= i < |s| ==> LatinCharToInputEvents(s[i]).Some?
  }

  /** The sixteen lowercase hexadecimal digits are all in the table. */
  lemma HexDigitInTable(c: char)
    requires IsHexDigit(c)
    ensures LatinCharToInputEvents(c).Some?
  {
  }

  lemma HexDigitsInTable(s: string)
    requires AllHexDigits(s)
    ensures InTable(s)
  {
    forall i | 0 <= i < |s| ensures LatinCharToInputEvents(s[i]).Some? {
      HexDigitInTable(s[i]);
    }
  }

  /** The events that type one character: its table entry if it has one, the
      Unicode entry gesture otherwise. */
  function CharToInputEvents(c: char): seq<Event>
    decreases if LatinCharToInputEvents(c).Some? then 0 else 1, 1, 0
  {
    match LatinCharToInputEvents(c)
    case Some(events) => events
    case None => CharToUnicodeSequence(c)
  }

  /** Control+shift+u, the lowercase hexadecimal digits of c's code point each typed
      as an ordinary character, then control and shift released. */
  function CharToUnicodeSequence(c: char): seq<Event>
    decreases 1, 0, 0
  {
    HexIsCanonical(c as int);
    HexDigitsInTable(Hex(c as int));
    UnicodeInputInit + EncodeString(Hex(c as int)) + UnicodeInputEnd
  }

  /** The events of each character of s, in order, run together. */
  function EncodeString(s: string): seq<Event>
    decreases if InTable(s) then 0 else 1, 2, |s|
  {
    if s == [] then [] else CharToInputEvents(s[0]) + EncodeString(s[1..])
  }
}
