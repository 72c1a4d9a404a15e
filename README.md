# Plover's Linux keyboard output, modelled in Dafny

Plover, the stenography engine, types its translations by emulating a keyboard.
On Linux it prefers a virtual keyboard registered with the kernel's uinput
through libevdev (works under X11 and Wayland), and falls back to the X11
backend when that device cannot be created. This project models:

- the libevdev backend's event encoding: the fixed table from US-layout
  characters to key events, the per-key press/release builders, and the
  control+shift+u Unicode entry gesture (ISO/IEC 14755) that types the
  lowercase hexadecimal code point of any other character;
- the libevdev backend objects: the emulation object that writes one batch of
  events per backspace and one batch per string to its uinput device, and the
  capture object that is declared but always raises `NotImplementedError`;
- the facades `KeyboardCapture` and `KeyboardEmulation` that try libevdev
  first, fall back to X11 when it raises, and forward every call to the
  backend they were bound to.

Modules: `Outcomes` (a raised exception becomes a `Result`/`Outcome` value),
`Events` (key codes and input events), `Platform` (the host: whether uinput is writable, whether a display is available, and the log of backend constructions attempted on it), `HexFormat` (Python's `'%x'` and its
inverse), `LibevdevEncoding` (the encoder), `EncodingProperties` (what the
encoder guarantees), `LibevdevBackend`, `X11Backend` (the X11 objects as call
recorders) and `KeyboardControl` (the facades).

The central properties: the table types, on a US layout, exactly the character
it is keyed by, except for the two entries below; every character becomes a
sequence that leaves no key held (`Balanced`, checked by replaying the
presses and releases); the fallback gesture holds control and shift exactly once
around the code point's hexadecimal digits, which are canonical and decode back
to the code point; and encoding a string is a homomorphism over concatenation.

Two table entries are kept as written: `'+'` is shift+KEY_0 (the same events as
`')'`) and `','` is shift+KEY_EQUAL (which types `'+'` on a US layout);
`EncodingProperties.PlusAndCommaQuirks` states both. `'\r'` has no table entry
and goes through the Unicode gesture (`EncodingProperties.CarriageReturnExample`).
A zero or negative backspace count sends nothing: the code's `range(count)` is
empty, and the model follows the code rather than failing on a negative count.

## Model

| member | source | states |
|---|---|---|
| HexFormat.HexIsCanonical | plover/oslayer/linux/keyboardcontrol_libevdev.py:219 | `'%x'` of a code point is non-empty lowercase hex with no leading zero, and is "0" exactly for 0 |
| HexFormat.HexRoundTrip | plover/oslayer/linux/keyboardcontrol_libevdev.py:219 | the hex digits of a code point decode back to it |
| HexFormat.CanonicalHexRoundTrip | plover/oslayer/linux/keyboardcontrol_libevdev.py:219 | every canonical hex string is the `'%x'` of the value it denotes (the other round trip) |
| HexFormat.HexValuePositive | plover/oslayer/linux/keyboardcontrol_libevdev.py:219 | a hex string not starting with '0' denotes a positive value |
| HexFormat.HexLengthBound | plover/oslayer/linux/keyboardcontrol_libevdev.py:219 | a value below 16^k has at most k hex digits |
| HexFormat.DigitValue | plover/oslayer/linux/keyboardcontrol_libevdev.py:219 | each lowercase hex digit has a value below 16 that formats back to it |
| LibevdevEncoding.HexDigitsInTable | plover/oslayer/linux/keyboardcontrol_libevdev.py:63-161 | every lowercase hex digit has a table entry, so the fallback's digits never fall back again |
| EncodingProperties.TableDomain | plover/oslayer/linux/keyboardcontrol_libevdev.py:63-161 | the table holds a character exactly when it is newline, tab or printable ASCII (' ' to '~') |
| EncodingProperties.TableKeysAreNotModifiers | plover/oslayer/linux/keyboardcontrol_libevdev.py:63-161 | no table entry's key is shift or control |
| EncodingProperties.TableEntryShape | plover/oslayer/linux/keyboardcontrol_libevdev.py:57-61 | each table entry is a single keystroke, with or without shift held around it, ending in SYN_REPORT |
| EncodingProperties.TableTypesItsCharacter | plover/oslayer/linux/keyboardcontrol_libevdev.py:63-161 | apart from '+' and ',', each entry's key and shift state type that very character on a US layout |
| EncodingProperties.LowercaseLetterEntry | plover/oslayer/linux/keyboardcontrol_libevdev.py:131-156 | 'a'..'z' are the unshifted letter keys |
| EncodingProperties.UppercaseLetterEntry | plover/oslayer/linux/keyboardcontrol_libevdev.py:99-124 | 'A'..'Z' are the shifted letter keys |
| EncodingProperties.BelowDigitsTypeThemselves | plover/oslayer/linux/keyboardcontrol_libevdev.py:64-81 | whitespace and the symbols below '0' type themselves, except '+' and ',' |
| EncodingProperties.DigitsAndAfterTypeThemselves | plover/oslayer/linux/keyboardcontrol_libevdev.py:82-98 | the digits and the symbols from ':' to '@' type themselves |
| EncodingProperties.AboveLettersTypeThemselves | plover/oslayer/linux/keyboardcontrol_libevdev.py:125-160 | punctuation above 'Z' types itself |
| EncodingProperties.PlusAndCommaQuirks | plover/oslayer/linux/keyboardcontrol_libevdev.py:77-78 | '+' sends the same events as ')' and so types ')'; ',' types '+' |
| EncodingProperties.HexKey | plover/oslayer/linux/keyboardcontrol_libevdev.py:82-136 | the key that types a hex digit is not a modifier |
| EncodingProperties.HexDigitEntry | plover/oslayer/linux/keyboardcontrol_libevdev.py:204-208 | a hex digit is typed as one unshifted press and release of its key |
| EncodingProperties.KeystrokeReplay | plover/oslayer/linux/keyboardcontrol_libevdev.py:57-61 | one keystroke, with shift or without, releases every key it presses |
| EncodingProperties.ReplayAppend | plover/oslayer/linux/keyboardcontrol_libevdev.py:262-264 | replaying a concatenation is replaying its parts in turn |
| EncodingProperties.HexDigitsAreKeystrokes | plover/oslayer/linux/keyboardcontrol_libevdev.py:219-220 | typing hex digits is typing their keys' unshifted keystrokes in order |
| EncodingProperties.HexKeystrokesBlocks | plover/oslayer/linux/keyboardcontrol_libevdev.py:219-220 | the keystrokes of n hex digits are 4n events, block i being digit i's keystroke |
| EncodingProperties.HexDigitsNoModifier | plover/oslayer/linux/keyboardcontrol_libevdev.py:219-220 | typing hex digits presses and releases no modifier |
| EncodingProperties.GestureLayout | plover/oslayer/linux/keyboardcontrol_libevdev.py:210-221 | around the keystrokes of any hex digits the gesture has the opening first, digit i's keystroke at events 7+4i to 10+4i, and the closing last |
| EncodingProperties.GestureFrame | plover/oslayer/linux/keyboardcontrol_libevdev.py:210-221 | the gesture is 10 events longer than its digits, with the 7-event opening first and the 3-event closing last |
| EncodingProperties.GestureBlocks | plover/oslayer/linux/keyboardcontrol_libevdev.py:210-221 | digit i's keystroke sits at events 7+4i to 10+4i of the gesture |
| EncodingProperties.HexDigitsUnfold | plover/oslayer/linux/keyboardcontrol_libevdev.py:204-208 | the events of a hex digit string are its first digit's keystroke followed by the events of the rest |
| EncodingProperties.HexDigitsLayout | plover/oslayer/linux/keyboardcontrol_libevdev.py:219-220 | the digits part of the gesture is 4 events per digit, digit i's block being that digit's keystroke, with no modifier event |
| EncodingProperties.HexDigitsReplay | plover/oslayer/linux/keyboardcontrol_libevdev.py:219-220 | the digits part of the gesture leaves the held control and shift as they were |
| EncodingProperties.FallbackLayout | plover/oslayer/linux/keyboardcontrol_libevdev.py:210-221 | the gesture is the init sequence, then 4 events per canonical hex digit of the code point, then the end sequence |
| EncodingProperties.FallbackLengthBound | plover/oslayer/linux/keyboardcontrol_libevdev.py:210-221 | the gesture is 14 to 34 events long (1 to 6 hex digits) |
| EncodingProperties.GestureModifiers | plover/oslayer/linux/keyboardcontrol_libevdev.py:41-55 | around any modifier-free digits, control and shift are each pressed once at the start and released once at the end |
| EncodingProperties.GestureEnds | plover/oslayer/linux/keyboardcontrol_libevdev.py:41-55 | any gesture starts by pressing control then shift, and ends by releasing shift, releasing control and flushing |
| EncodingProperties.GestureEventCount | plover/oslayer/linux/keyboardcontrol_libevdev.py:210-221 | an event absent from the digits occurs in the gesture as often as in the opening and closing together |
| EncodingProperties.GestureModifierCounts | plover/oslayer/linux/keyboardcontrol_libevdev.py:210-221 | around modifier-free digits, the gesture presses and releases control and shift exactly once each |
| EncodingProperties.InitModifierCounts | plover/oslayer/linux/keyboardcontrol_libevdev.py:41-49 | the init sequence presses control and shift once each and releases neither |
| EncodingProperties.EndModifierCounts | plover/oslayer/linux/keyboardcontrol_libevdev.py:51-55 | the end sequence releases shift and control once each and presses neither |
| EncodingProperties.FallbackModifiers | plover/oslayer/linux/keyboardcontrol_libevdev.py:210-221 | in a character's gesture control and shift are pressed once (events 0 and 1) and released once (the last three) |
| EncodingProperties.InitAndEndReplay | plover/oslayer/linux/keyboardcontrol_libevdev.py:41-55 | the init sequence leaves exactly control and shift held, the end sequence releases both |
| EncodingProperties.FallbackBalanced | plover/oslayer/linux/keyboardcontrol_libevdev.py:210-221 | the gesture leaves no key held |
| EncodingProperties.CharEncoding | plover/oslayer/linux/keyboardcontrol_libevdev.py:204-208 | a character with a table entry gets that entry (4 or 6 events), any other the gesture (14 to 34 events); both end with SYN_REPORT and leave no key held |
| EncodingProperties.EncodeStringAppend | plover/oslayer/linux/keyboardcontrol_libevdev.py:262-264 | the events of s + t are the events of s followed by those of t |
| EncodingProperties.EncodeStringEnds | plover/oslayer/linux/keyboardcontrol_libevdev.py:262-264 | a string gives no events exactly when empty, and otherwise its events end with SYN_REPORT |
| EncodingProperties.EncodeStringBalanced | plover/oslayer/linux/keyboardcontrol_libevdev.py:262-264 | the events of any string leave no key held |
| EncodingProperties.StringExamples | plover/oslayer/linux/keyboardcontrol_libevdev.py:99 | "" gives no events; "A" gives shift, A pressed and released, shift released |
| EncodingProperties.CarriageReturnExample | plover/oslayer/linux/keyboardcontrol_libevdev.py:204-221 | '\r' is typed as control+shift+u, 'd', control and shift released |
| EncodingProperties.EuroSignDigits | plover/oslayer/linux/keyboardcontrol_libevdev.py:219 | the euro sign's code point formats as "20ac" |
| EncodingProperties.EuroSignDigitEvents | plover/oslayer/linux/keyboardcontrol_libevdev.py:82-136 | "20ac" is typed as four unshifted keystrokes 2, 0, A, C |
| EncodingProperties.EuroSignExample | plover/oslayer/linux/keyboardcontrol_libevdev.py:210-221 | the euro sign is typed as the gesture around the keystrokes 2, 0, A, C |
| LibevdevBackend.BackspaceBatchesShape | plover/oslayer/linux/keyboardcontrol_libevdev.py:258-260 | send_backspaces writes max(count, 0) batches, each one balanced backspace keystroke |
| LibevdevBackend.KeyboardEmulation.Create | plover/oslayer/linux/keyboardcontrol_libevdev.py:243-253 | construction records itself on the host's construction log and fails exactly when the uinput device cannot be created; otherwise a fresh device named "Plover output" with nothing written |
| LibevdevBackend.KeyboardEmulation.SendEvents | plover/oslayer/linux/keyboardcontrol_libevdev.py:255-256 | one call writes one batch to the device |
| LibevdevBackend.KeyboardEmulation.SendBackspaces | plover/oslayer/linux/keyboardcontrol_libevdev.py:258-260 | the device receives exactly the backspace batches of count, one per repetition, nothing for count <= 0 |
| LibevdevBackend.KeyboardEmulation.SendString | plover/oslayer/linux/keyboardcontrol_libevdev.py:262-264 | the device receives one batch: the characters' events in order |
| LibevdevBackend.KeyboardEmulation.SendKeyCombination | plover/oslayer/linux/keyboardcontrol_libevdev.py:266-268 | always not implemented |
| LibevdevBackend.KeyboardCapture.Create | plover/oslayer/linux/keyboardcontrol_libevdev.py:226-229 | construction records itself on the host's construction log, then always fails with not implemented |
| LibevdevBackend.KeyboardCapture.Start | plover/oslayer/linux/keyboardcontrol_libevdev.py:231-232 | always not implemented |
| LibevdevBackend.KeyboardCapture.Cancel | plover/oslayer/linux/keyboardcontrol_libevdev.py:234-235 | always not implemented |
| LibevdevBackend.KeyboardCapture.Suppress | plover/oslayer/linux/keyboardcontrol_libevdev.py:237-238 | always not implemented, with or without keys (none by default) |
| KeyboardControl.Attempts | plover/oslayer/linux/keyboardcontrol.py:34-40 | libevdev is always tried first; X11 is tried exactly when libevdev fails, and no backend twice |
| KeyboardControl.Chosen | plover/oslayer/linux/keyboardcontrol.py:34-40 | the facade is bound to libevdev exactly when it can be constructed, to X11 exactly when only X11 can, and to the last backend tried |
| KeyboardControl.KeyboardCapture.Create | plover/oslayer/linux/keyboardcontrol.py:12-18 | the host's construction log grows by exactly libevdev then X11 (the libevdev capture always raises); construction succeeds exactly when X11 capture can be constructed, bound to a fresh X11 capture, and otherwise fails with X11's error |
| KeyboardControl.KeyboardCapture.Start | plover/oslayer/linux/keyboardcontrol.py:20-21 | forwarded: not implemented on libevdev, one start call recorded on X11 |
| KeyboardControl.KeyboardCapture.Cancel | plover/oslayer/linux/keyboardcontrol.py:23-24 | forwarded: not implemented on libevdev, one cancel call recorded on X11 |
| KeyboardControl.KeyboardCapture.Suppress | plover/oslayer/linux/keyboardcontrol.py:26-27 | forwarded with the same keys (none by default): not implemented on libevdev, one suppress call with those keys recorded on X11 |
| KeyboardControl.KeyboardEmulation.Create | plover/oslayer/linux/keyboardcontrol.py:34-40 | the host's construction log grows by exactly Attempts: libevdev once, then X11 once only if libevdev raised; the facade is bound to the backend given by Chosen, fresh and with nothing sent; fails with X11's error when both raise |
| KeyboardControl.KeyboardEmulation.SendBackspaces | plover/oslayer/linux/keyboardcontrol.py:42-43 | forwarded: the libevdev device gets the backspace batches, or X11 records the call with the same count |
| KeyboardControl.KeyboardEmulation.SendString | plover/oslayer/linux/keyboardcontrol.py:45-46 | forwarded: the libevdev device gets the string's events, or X11 records the same string |
| KeyboardControl.KeyboardEmulation.SendKeyCombination | plover/oslayer/linux/keyboardcontrol.py:48-49 | forwarded: not implemented on libevdev, recorded on X11 |

## Left out

- Registering the uinput device (enabling every KEY_ code, lines 245-253 of keyboardcontrol_libevdev.py) is reduced to a flag: whether the device can be created. The set of enabled codes is not modelled.
- I/O errors while writing events to the device are not modelled; a write always succeeds.
- The X11 backend (keyboardcontrol_x11.py) is not part of this model. Its objects only record the calls they receive, and whether they can be constructed is a parameter. Errors they raise after construction are not modelled.
- KEYNAME_TO_CHAR (keyboardcontrol_libevdev.py:163-202) is defined but not used by any modelled operation.
- Keyboard capture internals: the libevdev capture always raises, and the X11 capture is a call recorder.
- Logging of the fallback warning is left out; it has no effect on behaviour.
- Python strings may hold lone surrogate code points; Dafny characters are Unicode scalar values, so those cannot be encoded here.
- Dispatch through the facades' `_delegate` attribute (duck typing) is modelled as a two-variant datatype over the two backend classes.
- The libevdev device is owned by one emulation object and threads are not modelled.
