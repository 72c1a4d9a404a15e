/** What the libevdev encoder promises: the two keystroke shapes of the table, the
    layout of the Unicode entry gesture, order-preserving concatenation, and that no
    encoded text ever leaves a key held down. */
module EncodingProperties {
  import opened Events
  import opened HexFormat
  import opened Outcomes
  import opened LibevdevEncoding

  /** [(k, 1), SYN, (k, 0), SYN] for a key k that is not a modifier. */
  predicate IsUnshiftedKeystroke(es: seq<Event>) {
    && |es| == 4
    && es[0].Key? && es[0].edge == Press && !IsModifier(es[0].code)
    && es[1] == SynReport
    && es[2] == Key(es[0].code, Release)
    && es[3] == SynReport
  }

  /** [(SHIFT, 1), (k, 1), SYN, (k, 0), (SHIFT, 0), SYN] for a key k that is not a modifier. */
  predicate IsShiftedKeystroke(es: seq<Event>) {
    && |es| == 6
    && es[0] == LeftShiftPress
    && es[1].Key? && es[1].edge == Press && !IsModifier(es[1].code)
    && es[2] == SynReport
    && es[3] == Key(es[1].code, Release)
    && es[4] == LeftShiftRelease
    && es[5] == SynReport
  }

  /** The table holds exactly newline, tab and the printable US-ASCII characters from
      space to tilde. */
  lemma TableDomain(c: char)
    ensures LatinCharToInputEvents(c).Some? <==> c == '\n' || c == '\t' || ' ' <= c <= '~'
  {
  }

  /** No table entry types a modifier key. */
  lemma TableKeysAreNotModifiers(c: char)
    requires LatinCharKeystroke(c).Some?
    ensures !IsModifier(LatinCharKeystroke(c).value.key)
  {
  }

  /** Each table entry is one of the two keystroke shapes, and ends with SYN_REPORT. */
  lemma TableEntryShape(c: char)
    requires LatinCharToInputEvents(c).Some?
    ensures IsUnshiftedKeystroke(LatinCharToInputEvents(c).value) || IsShiftedKeystroke(LatinCharToInputEvents(c).value)
    ensures LatinCharToInputEvents(c).value[|LatinCharToInputEvents(c).value| - 1] == SynReport
  {
    TableKeysAreNotModifiers(c);
  }

  /** What shift with a digit key types on a US keyboard. */
  function ShiftedDigitChar(d: int): Option<char> {
    match d
    case 0 => Some(')')
    case 1 => Some('!')
    case 2 => Some('@')
    case 3 => Some('#')
    case 4 => Some('$')
    case 5 => Some('%')
    case 6 => Some('^')
    case 7 => Some('&')
    case 8 => Some('*')
    case 9 => Some('(')
    case _ => None
  }

  /** What a US keyboard types for a keystroke, if anything. */
  function UsLayoutChar(ks: Keystroke): Option<char> {
    match ks
    case Unshifted(k) => (
      match k
      case Enter => Some('\n')
      case Tab => Some('\t')
      case Space => Some(' ')
      case Apostrophe => Some('\'')
      case Minus => Some('-')
      case Dot => Some('.')
      case Slash => Some('/')
      case Semicolon => Some(';')
      case Comma => Some(',')
      case Equal => Some('=')
      case LeftBrace => Some('[')
      case Backslash => Some('\\')
      case RightBrace => Some(']')
      case Grave => Some('`')
      case Digit(d) => if 0 <= d <= 9 then Some(('0' as int + d) as char) else None
      case Letter(l) => if 'A' <= l <= 'Z' then Some((l as int + 32) as char) else None
      case _ => None)
    case Shifted(k) => (
      match k
      case Apostrophe => Some('"')
      case Minus => Some('_')
      case Dot => Some('>')
      case Slash => Some('?')
      case Semicolon => Some(':')
      case Comma => Some('<')
      case Equal => Some('+')
      case LeftBrace => Some('{')
      case Backslash => Some('|')
      case RightBrace => Some('}')
      case Grave => Some('~')
      case Digit(d) => ShiftedDigitChar(d)
      case Letter(l) => if 'A' <= l <= 'Z' then Some(l) else None
      case _ => None)
  }

  /** Every table entry but two types its own character on a US keyboard. */
  lemma TableTypesItsCharacter(c: char)
    requires LatinCharKeystroke(c).Some? && c != '+' && c != ','
    ensures UsLayoutChar(LatinCharKeystroke(c).value) == Some(c)
  {
    if 'a' <= c <= 'z' {
      LowercaseLetterEntry(c);
    } else if 'A' <= c <= 'Z' {
      UppercaseLetterEntry(c);
    } else if c < '0' {
      BelowDigitsTypeThemselves(c);
    } else if c < 'A' {
      DigitsAndAfterTypeThemselves(c);
    } else {
      AboveLettersTypeThemselves(c);
    }
  }

  /** A lowercase letter is its letter key, unshifted. */
  lemma LowercaseLetterEntry(c: char)
    requires 'a' <= c <= 'z'
    ensures LatinCharKeystroke(c) == Some(Unshifted(Letter((c as int - 32) as char)))
  {
  }

  /** An uppercase letter is its letter key with shift. */
  lemma UppercaseLetterEntry(c: char)
    requires 'A' <= c <= 'Z'
    ensures LatinCharKeystroke(c) == Some(Shifted(Letter(c)))
  {
  }

  /** Whitespace and the symbols before '0'. */
  lemma BelowDigitsTypeThemselves(c: char)
    requires LatinCharKeystroke(c).Some? && c < '0' && c != '+' && c != ','
    ensures UsLayoutChar(LatinCharKeystroke(c).value) == Some(c)
  {
  }

  /** The digits and the symbols between them and 'A'. */
  lemma DigitsAndAfterTypeThemselves(c: char)
    requires LatinCharKeystroke(c).Some? && '0' <= c < 'A'
    ensures UsLayoutChar(LatinCharKeystroke(c).value) == Some(c)
  {
  }

  /** The symbols after 'Z' that are not lowercase letters. */
  lemma AboveLettersTypeThemselves(c: char)
    requires LatinCharKeystroke(c).Some? && c > 'Z' && !('a' <= c <= 'z')
    ensures UsLayoutChar(LatinCharKeystroke(c).value) == Some(c)
  {
  }

  /** The two entries that do not: '+' types ')' (shift with KEY_0, the same keystroke
      as ')'), and ',' types '+' (shift with KEY_EQUAL). */
  lemma PlusAndCommaQuirks()
    ensures LatinCharToInputEvents('+') == LatinCharToInputEvents(')')
    ensures UsLayoutChar(LatinCharKeystroke('+').value) == Some(')')
    ensures UsLayoutChar(LatinCharKeystroke(',').value) == Some('+')
  {
  }

  /** The key a hexadecimal digit is typed with: KEY_0 .. KEY_9, KEY_A .. KEY_F. */
  function HexKey(d: char): (k: KeyCode)
    requires IsHexDigit(d)
    ensures !IsModifier(k)
  {
    if d <= '9' then Digit(d as int - '0' as int) else Letter((d as int - 32) as char)
  }

  /** Hexadecimal digits are unshifted table entries, so the gesture never nests. */
  lemma HexDigitEntry(d: char)
    requires IsHexDigit(d)
    ensures LatinCharKeystroke(d) == Some(Unshifted(HexKey(d)))
    ensures CharToInputEvents(d) == PressAndRelease(HexKey(d))
  {
  }

  /** Reads events front to back, tracking the set of keys held down; pressing a key
      that is already down or releasing one that is up is a fault (None). */
  function Replay(held: set<KeyCode>, es: seq<Event>): Option<set<KeyCode>>
    decreases |es|
  {
    if es == [] then Some(held)
    else match es[0]
      case SynReport => Replay(held, es[1..])
      case Key(k, Press) => if k in held then None else Replay(held + {k}, es[1..])
      case Key(k, Release) => if k in held then Replay(held - {k}, es[1..]) else None
  }

  function ReplayFrom(start: Option<set<KeyCode>>, es: seq<Event>): Option<set<KeyCode>> {
    match start
    case None => None
    case Some(held) => Replay(held, es)
  }

  /** Starting with every key up: no key is pressed twice without a release between,
      none is released while up, and every key is up again at the end. */
  predicate Balanced(es: seq<Event>) {
    Replay({}, es) == Some({})
  }

  /** Replaying a concatenation replays the two parts in turn. */
  lemma {:induction false} ReplayAppend(held: set<KeyCode>, a: seq<Event>, b: seq<Event>)
    ensures Replay(held, a + b) == ReplayFrom(Replay(held, a), b)
    decreases |a|
  {
    if a == [] {
      assert a + b == b;
    } else {
      assert (a + b)[1..] == a[1..] + b;
      match a[0]
      case SynReport =>
        ReplayAppend(held, a[1..], b);
      case Key(k, Press) =>
        if k !in held { ReplayAppend(held + {k}, a[1..], b); }
      case Key(k, Release) =>
        if k in held { ReplayAppend(held - {k}, a[1..], b); }
    }
  }

  /** A table keystroke typed while at most the modifiers are held (and shift is up
      if it needs shift) leaves the same keys held. */
  lemma KeystrokeReplay(ks: Keystroke, held: set<KeyCode>)
    requires !IsModifier(ks.key) && held <= {LeftShift, LeftCtrl}
    requires ks.Shifted? ==> LeftShift !in held
    ensures Replay(held, KeystrokeEvents(ks)) == Some(held)
  {
    var es := KeystrokeEvents(ks);
    var k := ks.key;
    if ks.Unshifted? {
      assert Replay(held, es) == Replay(held + {k}, es[1..]);
      assert Replay(held + {k}, es[1..]) == Replay(held + {k}, es[2..]);
      assert held + {k} - {k} == held;
      assert Replay(held + {k}, es[2..]) == Replay(held, es[3..]);
      assert Replay(held, es[3..]) == Some(held);
    } else {
      var h1 := held + {LeftShift};
      var h2 := h1 + {k};
      assert Replay(held, es) == Replay(h1, es[1..]);
      assert Replay(h1, es[1..]) == Replay(h2, es[3..]);
      assert Replay(h2, es[3..]) == Replay(h2 - {k}, es[4..]);
      assert h2 - {k} == h1 && h1 - {LeftShift} == held;
      assert Replay(h1, es[4..]) == Replay(held, es[5..]);
      assert Replay(held, es[5..]) == Some(held);
    }
  }

  /** The digits of the gesture: one unshifted keystroke per digit, in order, and no
      modifier anywhere. */
  lemma HexDigitsLayout(s: string)
    requires AllHexDigits(s)
    ensures |EncodeString(s)| == 4 * |s|
    ensures forall i :: 0 <= i < |s| ==> EncodeString(s)[4 * i .. 4 * i + 4] == PressAndRelease(HexKey(s[i]))
    ensures forall e :: e in EncodeString(s) ==> e == SynReport || !IsModifier(e.code)
  {
    HexDigitsAreKeystrokes(s);
    HexKeystrokesBlocks(s);
    HexDigitsNoModifier(s);
  }

  /** Typing hexadecimal digits is typing their keys one after the other. */
  lemma HexDigitsUnfold(s: string)
    requires AllHexDigits(s) && s != []
    ensures EncodeString(s) == PressAndRelease(HexKey(s[0])) + EncodeString(s[1..])
  {
    HexDigitEntry(s[0]);
  }

  /** The keystrokes of hexadecimal digits, one after the other. */
  function HexKeystrokes(s: string): seq<Event>
    requires AllHexDigits(s)
  {
    if s == [] then [] else PressAndRelease(HexKey(s[0])) + HexKeystrokes(s[1..])
  }

  lemma {:induction false} HexDigitsAreKeystrokes(s: string)
    requires AllHexDigits(s)
    ensures EncodeString(s) == HexKeystrokes(s)
    decreases |s|
  {
    if s != [] {
      HexDigitsUnfold(s);
      HexDigitsAreKeystrokes(s[1..]);
    }
  }

  lemma {:induction false} HexKeystrokesBlocks(s: string)
    requires AllHexDigits(s)
    ensures |HexKeystrokes(s)| == 4 * |s|
    ensures forall i :: 0 <= i < |s| ==> HexKeystrokes(s)[4 * i .. 4 * i + 4] == PressAndRelease(HexKey(s[i]))
    decreases |s|
  {
    if s != [] {
      var first := PressAndRelease(HexKey(s[0]));
      var rest := HexKeystrokes(s[1..]);
      HexKeystrokesBlocks(s[1..]);
      forall i | 0 <= i < |s|
        ensures (first + rest)[4 * i .. 4 * i + 4] == PressAndRelease(HexKey(s[i]))
      {
        if i > 0 {
          assert s[1..][i - 1] == s[i];
          SliceAfterPrefix(first, rest, 4 * i, 4 * i + 4);
        }
      }
    }
  }

  /** A slice lying wholly after a prefix is a slice of what follows it. */
  lemma SliceAfterPrefix<T>(a: seq<T>, b: seq<T>, lo: int, hi: int)
    requires |a| <= lo <= hi <= |a| + |b|
    ensures (a + b)[lo..hi] == b[lo - |a| .. hi - |a|]
  {
  }

  lemma {:induction false} HexDigitsNoModifier(s: string)
    requires AllHexDigits(s)
    ensures forall e :: e in EncodeString(s) ==> e == SynReport || !IsModifier(e.code)
    decreases |s|
  {
    if s != [] {
      HexDigitsUnfold(s);
      HexDigitsNoModifier(s[1..]);
    }
  }

  /** Typing hexadecimal digits while only modifiers are held leaves them held. */
  lemma {:induction false} HexDigitsReplay(s: string, held: set<KeyCode>)
    requires AllHexDigits(s) && held <= {LeftShift, LeftCtrl}
    ensures Replay(held, EncodeString(s)) == Some(held)
    decreases |s|
  {
    if s != [] {
      HexDigitEntry(s[0]);
      KeystrokeReplay(Unshifted(HexKey(s[0])), held);
      ReplayAppend(held, CharToInputEvents(s[0]), EncodeString(s[1..]));
      HexDigitsReplay(s[1..], held);
    }
  }

  /** The Unicode entry gesture for c: the 7 events of the opening, one 4-event
      keystroke per digit of c's code point in lowercase hexadecimal ('%x', no
      leading zero), and the 3 events of the closing, in that order. */
  lemma FallbackLayout(c: char)
    ensures var h := Hex(c as int); var r := CharToUnicodeSequence(c);
      && IsCanonicalHex(h) && HexValue(h) == c as int
      && |r| == 10 + 4 * |h|
      && r[..7] == UnicodeInputInit
      && (forall i :: 0 <= i < |h| ==> r[7 + 4 * i .. 11 + 4 * i] == PressAndRelease(HexKey(h[i])))
      && r[|r| - 3..] == UnicodeInputEnd
  {
    var h := Hex(c as int);
    HexIsCanonical(c as int);
    HexRoundTrip(c as int);
    HexDigitsAreKeystrokes(h);
    GestureLayout(h);
    assert CharToUnicodeSequence(c) == UnicodeInputInit + HexKeystrokes(h) + UnicodeInputEnd;
  }

  /** The gesture around the keystrokes of any hexadecimal digits, laid out event by
      event. */
  lemma GestureLayout(h: string)
    requires AllHexDigits(h)
    ensures var r := UnicodeInputInit + HexKeystrokes(h) + UnicodeInputEnd;
      && |r| == 10 + 4 * |h|
      && r[..7] == UnicodeInputInit
      && (forall i :: 0 <= i < |h| ==> r[7 + 4 * i .. 11 + 4 * i] == PressAndRelease(HexKey(h[i])))
      && r[|r| - 3..] == UnicodeInputEnd
  {
    HexKeystrokesBlocks(h);
    GestureFrame(HexKeystrokes(h));
    GestureBlocks(h, HexKeystrokes(h));
  }

  /** The opening and the closing enclose the digits' events. */
  lemma GestureFrame(digits: seq<Event>)
    ensures var r := UnicodeInputInit + digits + UnicodeInputEnd;
      && |r| == 10 + |digits| && r[..7] == UnicodeInputInit && r[|r| - 3..] == UnicodeInputEnd
  {
    var r := UnicodeInputInit + digits + UnicodeInputEnd;
    assert r[..7] == UnicodeInputInit;
    assert r[|r| - 3..] == UnicodeInputEnd;
  }

  lemma GestureBlocks(h: string, digits: seq<Event>)
    requires AllHexDigits(h) && |digits| == 4 * |h|
    requires forall i :: 0 <= i < |h| ==> digits[4 * i .. 4 * i + 4] == PressAndRelease(HexKey(h[i]))
    ensures var r := UnicodeInputInit + digits + UnicodeInputEnd;
      forall i :: 0 <= i < |h| ==> 11 + 4 * i <= |r| && r[7 + 4 * i .. 11 + 4 * i] == PressAndRelease(HexKey(h[i]))
  {
    forall i | 0 <= i < |h|
      ensures (UnicodeInputInit + digits + UnicodeInputEnd)[7 + 4 * i .. 11 + 4 * i] == digits[4 * i .. 4 * i + 4]
    {
      SliceInMiddle(UnicodeInputInit, digits, UnicodeInputEnd, 4 * i, 4 * i + 4);
    }
  }

  /** A slice of the middle part of a three-part concatenation. */
  lemma SliceInMiddle<T>(a: seq<T>, b: seq<T>, c: seq<T>, lo: int, hi: int)
    requires 0 <= lo <= hi <= |b|
    ensures (a + b + c)[|a| + lo .. |a| + hi] == b[lo..hi]
  {
    assert a + b + c == a + (b + c);
    SliceAfterPrefix(a, b + c, |a| + lo, |a| + hi);
  }

  /** A code point has at most six hexadecimal digits, so the gesture is at most 34
      events long. */
  lemma FallbackLengthBound(c: char)
    ensures 14 <= |CharToUnicodeSequence(c)| <= 34
  {
    FallbackLayout(c);
    assert Pow16(6) == 0x100_0000;
    HexLengthBound(c as int, 6);
  }

  /** Control and shift are each pressed once, first, and released once, at the end;
      the gesture ends with SYN_REPORT. */
  lemma FallbackModifiers(c: char)
    ensures var r := CharToUnicodeSequence(c);
      && r[0] == Key(LeftCtrl, Press) && r[1] == LeftShiftPress
      && r[|r| - 3] == LeftShiftRelease && r[|r| - 2] == Key(LeftCtrl, Release) && r[|r| - 1] == SynReport
      && multiset(r)[Key(LeftCtrl, Press)] == 1 && multiset(r)[Key(LeftCtrl, Release)] == 1
      && multiset(r)[LeftShiftPress] == 1 && multiset(r)[LeftShiftRelease] == 1
  {
    var h := Hex(c as int);
    HexIsCanonical(c as int);
    HexDigitsLayout(h);
    GestureModifiers(EncodeString(h));
  }

  lemma GestureModifiers(digits: seq<Event>)
    requires forall e :: e in digits ==> e == SynReport || !IsModifier(e.code)
    ensures var r := UnicodeInputInit + digits + UnicodeInputEnd;
      && r[0] == Key(LeftCtrl, Press) && r[1] == LeftShiftPress
      && r[|r| - 3] == LeftShiftRelease && r[|r| - 2] == Key(LeftCtrl, Release) && r[|r| - 1] == SynReport
      && multiset(r)[Key(LeftCtrl, Press)] == 1 && multiset(r)[Key(LeftCtrl, Release)] == 1
      && multiset(r)[LeftShiftPress] == 1 && multiset(r)[LeftShiftRelease] == 1
  {
    GestureEnds(digits);
    GestureModifierCounts(digits);
  }

  /** The gesture starts by pressing control then shift, and ends by releasing shift
      then control and flushing. */
  lemma GestureEnds(digits: seq<Event>)
    ensures var r := UnicodeInputInit + digits + UnicodeInputEnd;
      && r[0] == Key(LeftCtrl, Press) && r[1] == LeftShiftPress
      && r[|r| - 3] == LeftShiftRelease && r[|r| - 2] == Key(LeftCtrl, Release) && r[|r| - 1] == SynReport
  {
    var r := UnicodeInputInit + digits + UnicodeInputEnd;
    assert r[|r| - 3..] == UnicodeInputEnd;
  }

  lemma GestureModifierCounts(digits: seq<Event>)
    requires forall e :: e in digits ==> e == SynReport || !IsModifier(e.code)
    ensures var r := UnicodeInputInit + digits + UnicodeInputEnd;
      && multiset(r)[Key(LeftCtrl, Press)] == 1 && multiset(r)[Key(LeftCtrl, Release)] == 1
      && multiset(r)[LeftShiftPress] == 1 && multiset(r)[LeftShiftRelease] == 1
  {
    var ctrlDown, ctrlUp := Key(LeftCtrl, Press), Key(LeftCtrl, Release);
    assert ctrlDown !in digits && ctrlUp !in digits;
    assert LeftShiftPress !in digits && LeftShiftRelease !in digits;
    GestureEventCount(digits, ctrlDown);
    GestureEventCount(digits, ctrlUp);
    GestureEventCount(digits, LeftShiftPress);
    GestureEventCount(digits, LeftShiftRelease);
    InitModifierCounts();
    EndModifierCounts();
  }

  /** An event the digits do not hold occurs in the gesture as often as in its
      opening and closing together. */
  lemma GestureEventCount(digits: seq<Event>, e: Event)
    requires e !in digits
    ensures multiset(UnicodeInputInit + digits + UnicodeInputEnd)[e] == multiset(UnicodeInputInit)[e] + multiset(UnicodeInputEnd)[e]
  {
    assert multiset(UnicodeInputInit + digits + UnicodeInputEnd) == multiset(UnicodeInputInit) + multiset(digits) + multiset(UnicodeInputEnd);
  }

  /** The opening presses control and shift once each and releases neither. */
  lemma InitModifierCounts()
    ensures multiset(UnicodeInputInit)[Key(LeftCtrl, Press)] == 1 && multiset(UnicodeInputInit)[LeftShiftPress] == 1
    ensures multiset(UnicodeInputInit)[Key(LeftCtrl, Release)] == 0 && multiset(UnicodeInputInit)[LeftShiftRelease] == 0
  {
    var u := Letter('U');
    assert multiset(UnicodeInputInit)
      == multiset{Key(LeftCtrl, Press), LeftShiftPress, SynReport, Key(u, Press), SynReport, Key(u, Release), SynReport};
  }

  /** The closing releases shift and control once each and presses neither. */
  lemma EndModifierCounts()
    ensures multiset(UnicodeInputEnd)[Key(LeftCtrl, Press)] == 0 && multiset(UnicodeInputEnd)[LeftShiftPress] == 0
    ensures multiset(UnicodeInputEnd)[Key(LeftCtrl, Release)] == 1 && multiset(UnicodeInputEnd)[LeftShiftRelease] == 1
  {
  }

  lemma ReplayPress(held: set<KeyCode>, k: KeyCode, es: seq<Event>)
    requires k !in held
    ensures Replay(held, [Key(k, Press)] + es) == Replay(held + {k}, es)
  {
    assert ([Key(k, Press)] + es)[1..] == es;
  }

  lemma ReplayRelease(held: set<KeyCode>, k: KeyCode, es: seq<Event>)
    requires k in held
    ensures Replay(held, [Key(k, Release)] + es) == Replay(held - {k}, es)
  {
    assert ([Key(k, Release)] + es)[1..] == es;
  }

  lemma ReplaySyn(held: set<KeyCode>, es: seq<Event>)
    ensures Replay(held, [SynReport] + es) == Replay(held, es)
  {
    assert ([SynReport] + es)[1..] == es;
  }

  /** The opening of the gesture leaves control and shift held; the closing lets go
      of both. */
  lemma InitAndEndReplay()
    ensures Replay({}, UnicodeInputInit) == Some({LeftShift, LeftCtrl})
    ensures Replay({LeftShift, LeftCtrl}, UnicodeInputEnd) == Some({})
  {
    var mods: set<KeyCode> := {LeftShift, LeftCtrl};
    var u := Letter('U');
    var init := UnicodeInputInit;
    ReplayPress({}, LeftCtrl, init[1..]);
    assert {} + {LeftCtrl} == {LeftCtrl};
    ReplayPress({LeftCtrl}, LeftShift, init[2..]);
    assert {LeftCtrl} + {LeftShift} == mods;
    ReplaySyn(mods, init[3..]);
    ReplayPress(mods, u, init[4..]);
    ReplaySyn(mods + {u}, init[5..]);
    ReplayRelease(mods + {u}, u, init[6..]);
    assert mods + {u} - {u} == mods;
    ReplaySyn(mods, []);
    var end := UnicodeInputEnd;
    ReplayRelease(mods, LeftShift, end[1..]);
    assert mods - {LeftShift} == {LeftCtrl};
    ReplayRelease({LeftCtrl}, LeftCtrl, end[2..]);
    assert {LeftCtrl} - {LeftCtrl} == {};
    ReplaySyn({}, []);
  }

  /** The gesture leaves no key held and never presses a held key. */
  lemma FallbackBalanced(c: char)
    ensures Balanced(CharToUnicodeSequence(c))
  {
    var h := Hex(c as int);
    HexIsCanonical(c as int);
    var digits := EncodeString(h);
    var mods: set<KeyCode> := {LeftShift, LeftCtrl};
    InitAndEndReplay();
    HexDigitsReplay(h, mods);
    ReplayAppend({}, UnicodeInputInit, digits);
    ReplayAppend({}, UnicodeInputInit + digits, UnicodeInputEnd);
  }

  /** Every character has an encoding: exactly its table entry (4 or 6 events) when
      the table holds it, the Unicode gesture (14 to 34 events) otherwise. Either way
      the encoding ends with SYN_REPORT and leaves no key held. */
  lemma CharEncoding(c: char)
    ensures var r := CharToInputEvents(c);
      && (LatinCharToInputEvents(c).Some? ==> r == LatinCharToInputEvents(c).value && (|r| == 4 || |r| == 6))
      && (LatinCharToInputEvents(c).None? ==> r == CharToUnicodeSequence(c) && 14 <= |r| <= 34)
      && r[|r| - 1] == SynReport
      && Balanced(r)
  {
    match LatinCharKeystroke(c)
    case Some(ks) =>
      TableEntryShape(c);
      TableKeysAreNotModifiers(c);
      KeystrokeReplay(ks, {});
    case None =>
      FallbackLengthBound(c);
      FallbackModifiers(c);
      FallbackBalanced(c);
  }

  /** Encoding a string is a homomorphism: the events of s + t are those of s followed
      by those of t, with nothing reordered or merged at the boundary. */
  lemma {:induction false} EncodeStringAppend(s: string, t: string)
    ensures EncodeString(s + t) == EncodeString(s) + EncodeString(t)
    decreases |s|
  {
    if s == [] {
      assert s + t == t;
    } else {
      assert (s + t)[0] == s[0] && (s + t)[1..] == s[1..] + t;
      EncodeStringAppend(s[1..], t);
    }
  }

  /** The empty string yields no events (not even a SYN_REPORT); any other string
      yields events that end with SYN_REPORT. */
  lemma {:induction false} EncodeStringEnds(s: string)
    ensures EncodeString(s) == [] <==> s == []
    ensures s != [] ==> EncodeString(s)[|EncodeString(s)| - 1] == SynReport
    decreases |s|
  {
    if s != [] {
      CharEncoding(s[0]);
      EncodeStringEnds(s[1..]);
    }
  }

  /** Whatever the text, typing it leaves every key up and never presses a key that
      is already down. */
  lemma {:induction false} EncodeStringBalanced(s: string)
    ensures Balanced(EncodeString(s))
    decreases |s|
  {
    if s != [] {
      CharEncoding(s[0]);
      EncodeStringBalanced(s[1..]);
      ReplayAppend({}, CharToInputEvents(s[0]), EncodeString(s[1..]));
    }
  }

  /** The empty string types nothing; "A" is shift held around KEY_A. */
  lemma StringExamples()
    ensures EncodeString("") == []
    ensures EncodeString("A") == [LeftShiftPress, Key(Letter('A'), Press), SynReport, Key(Letter('A'), Release), LeftShiftRelease, SynReport]
  {
    UppercaseLetterEntry('A');
    assert "A"[1..] == [];
  }

  /** '\r' has no table entry, so it is typed as the gesture around the digit "d". */
  lemma CarriageReturnExample()
    ensures CharToInputEvents('\r') == UnicodeInputInit + PressAndRelease(Letter('D')) + UnicodeInputEnd
  {
    assert Hex('\r' as int) == "d";
    HexDigitEntry('d');
    assert "d"[1..] == [];
  }

  /** The euro sign, U+20AC, is typed as the gesture around "20ac". */
  lemma EuroSignExample()
    ensures CharToInputEvents('\U{20AC}') == UnicodeInputInit + PressAndRelease(Digit(2)) + PressAndRelease(Digit(0))
      + PressAndRelease(Letter('A')) + PressAndRelease(Letter('C')) + UnicodeInputEnd
  {
    assert LatinCharToInputEvents('\U{20AC}') == None;
    EuroSignDigits();
    EuroSignDigitEvents();
  }

  lemma EuroSignDigits()
    ensures Hex(0x20AC) == "20ac"
  {
    assert Hex(0x20) == "20";
    assert Hex(0x20A) == "20a";
  }

  lemma EuroSignDigitEvents()
    ensures EncodeString("20ac") == PressAndRelease(Digit(2)) + PressAndRelease(Digit(0))
      + PressAndRelease(Letter('A')) + PressAndRelease(Letter('C'))
  {
    HexDigitEntry('2');
    HexDigitEntry('0');
    HexDigitEntry('a');
    HexDigitEntry('c');
    assert "c"[1..] == [];
    assert EncodeString("c") == PressAndRelease(Letter('C'));
    assert "ac"[1..] == "c";
    assert EncodeString("ac") == PressAndRelease(Letter('A')) + EncodeString("c");
    assert "0ac"[1..] == "ac";
    assert EncodeString("0ac") == PressAndRelease(Digit(0)) + EncodeString("ac");
    assert "20ac"[1..] == "0ac";
  }
}
