/** Key codes and modifiers (src/keys.h, src/keys.c). */
module Keys {

  /** A keyd key code: one byte. Code 0 names no key; a timer tick carries it. */
  type Code = c: int | 0 <= c < 256

  const LEFTCTRL: Code := 29
  const LEFTSHIFT: Code := 42
  const LEFTALT: Code := 56
  const RIGHTALT: Code := 100
  const LEFTMETA: Code := 125
  const NOOP: Code := 195
  const EXTERNAL_MOUSE_BUTTON: Code := 196
  const CHORD_1: Code := 197
  const CHORD_MAX: Code := 199
  const MAX_ACTIVE_CHORDS := 3

  /** A bit of the source's modifier mask. */
  datatype Modifier = Alt | AltGr | Shift | Super | Ctrl

  /** A modifier mask. */
  type Mods = set<Modifier>

  /** The order in which the source's modifier table lists the masks. */
  const MODIFIERS: seq<Modifier> := [Alt, AltGr, Shift, Super, Ctrl]

  /** The key that the source's modifier table pairs with a mask. */
  function KeyOf(m: Modifier): Code {
    match m
    case Alt => LEFTALT
    case AltGr => RIGHTALT
    case Shift => LEFTSHIFT
    case Super => LEFTMETA
    case Ctrl => LEFTCTRL
  }

  predicate IsModifierKey(c: Code) {
    c == LEFTALT || c == RIGHTALT || c == LEFTSHIFT || c == LEFTMETA || c == LEFTCTRL
  }

  /** The keys whose lone tap means something to a desktop (src/keyboard.c:100-103). */
  predicate IsGuarded(c: Code) {
    c == LEFTMETA || c == LEFTALT || c == RIGHTALT
  }

  /** The codes reserved for chords, which no key has and no configuration can name. */
  predicate IsChordCode(c: Code) {
    CHORD_1 <= c <= CHORD_MAX
  }

  /** Codes that never reach the output (src/keyboard.c:74-75). */
  predicate IsSilent(c: Code) {
    c == NOOP || c == EXTERNAL_MOUSE_BUTTON
  }
}
