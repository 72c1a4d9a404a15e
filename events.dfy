/** The kernel input events the output layer writes to its virtual keyboard. */
module Events {

  /** The EV_KEY codes the output layer uses. KEY_0 .. KEY_9 are Digit(0) .. Digit(9)
      and KEY_A .. KEY_Z are Letter('A') .. Letter('Z'); the other constructors are
      KEY_LEFTSHIFT, KEY_LEFTCTRL, KEY_BACKSPACE, KEY_ENTER and so on. */
  datatype KeyCode =
    | LeftShift | LeftCtrl | Backspace | Enter | Tab | Space
    | Apostrophe | Minus | Dot | Slash | Semicolon | Comma | Equal
    | LeftBrace | Backslash | RightBrace | Grave
    | Digit(d: int)
    | Letter(l: char)

  /** Shift and control: the keys that stay held while other keys are typed. */
  predicate IsModifier(k: KeyCode) {
    k == LeftShift || k == LeftCtrl
  }

  /** The value of an EV_KEY event: 0 for a release, 1 for a press. */
  datatype Edge = Release | Press

  /** An input event: a key edge, or the EV_SYN/SYN_REPORT marker that flushes the
      edges before it to readers of the device as one batch. */
  datatype Event = Key(code: KeyCode, edge: Edge) | SynReport
}
