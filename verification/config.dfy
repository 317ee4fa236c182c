/** The configuration the engine runs on (src/config.h, src/macro.h). */
module Configs {
  import opened Keys

  /** struct macro_entry. The hold entry of a macro carries a bare key, the others what
      their name says. */
  datatype MacroEntry =
    | KeySeqEntry(code: Code, mods: Mods)
    | HoldEntry(code: Code)
    | ReleaseEntry
    | UnicodeEntry(idx: nat)
    | TimeoutEntry(ms: nat)

  type Macro = seq<MacroEntry>

  /** struct descriptor: an action. The numbers are indices into the layers, the auxiliary
      descriptors and the macros of the configuration, and times. */
  datatype Descriptor =
    | Nothing
    | KeySequence(code: Code, mods: Mods)
    | Oneshot(layer: nat)
    | OneshotM(layer: nat, mac: nat)
    | OneshotK(layer: nat, key: nat)
    | LayerM(layer: nat, mac: nat)
    | Swap(layer: nat)
    | SwapM(layer: nat, mac: nat)
    | Layer(layer: nat)
    | Layout(layout: nat)
    | Clear
    | ClearM(mac: nat)
    | Overload(layer: nat, action: nat)
    | OverloadTimeout(layer: nat, action: nat, timeout: nat)
    | OverloadTimeoutTap(layer: nat, action: nat, timeout: nat)
    | OverloadIdle(action1: nat, action2: nat, timeout: nat)
    | Toggle(layer: nat)
    | ToggleM(layer: nat, mac: nat)
    | Repeat
    | MacroOnce(mac: nat)
    | Macro2(timeout: nat, interval: nat, mac: nat)
    | Command(cmd: nat)
    | Timeout(action1: nat, timeout: nat, action2: nat)
    | ScrollToggleOn(sensitivity: int)
    | ScrollToggleOff
    | ScrollToggle(sensitivity: int)
    | Scroll(sensitivity: int)

  datatype LayerType = Normal | LayoutType | Composite

  datatype Chord = Chord(keys: seq<Code>, d: Descriptor)

  datatype LayerDef = LayerDef(
    kind: LayerType, mods: Mods, keymap: seq<Descriptor>, chords: seq<Chord>, constituents: seq<nat>)

  /** struct config, as far as the engine reads it. */
  datatype Config = Config(
    layers: seq<LayerDef>,
    descriptors: seq<Descriptor>,
    macros: seq<Macro>,
    macroTimeout: int,
    macroSequenceTimeout: nat,
    macroRepeatTimeout: int,
    oneshotTimeout: int,
    overloadTapTimeout: int,
    chordInterkeyTimeout: int,
    chordHoldTimeout: int,
    disableModifierGuard: bool)

  function Max(a: nat, b: nat): nat { if a < b then b else a }

  /** One more than the largest table index an action refers to; 0 if it refers to none. */
  function Rank(d: Descriptor): nat {
    match d
    case OneshotK(_, k) => k + 1
    case Overload(_, a) => a + 1
    case OverloadTimeout(_, a, _) => a + 1
    case OverloadTimeoutTap(_, a, _) => a + 1
    case OverloadIdle(a, b, _) => Max(a, b) + 1
    case Timeout(a, _, b) => Max(a, b) + 1
    case _ => 0
  }

  /** The layer an action names, or -1. */
  function LayerOf(d: Descriptor): int {
    match d
    case Oneshot(l) => l
    case OneshotM(l, _) => l
    case OneshotK(l, _) => l
    case LayerM(l, _) => l
    case Swap(l) => l
    case SwapM(l, _) => l
    case Layer(l) => l
    case Overload(l, _) => l
    case OverloadTimeout(l, _, _) => l
    case OverloadTimeoutTap(l, _, _) => l
    case Toggle(l) => l
    case ToggleM(l, _) => l
    case _ => -1
  }

  /** The macro an action names, or -1. */
  function MacroOf(d: Descriptor): int {
    match d
    case OneshotM(_, m) => m
    case LayerM(_, m) => m
    case SwapM(_, m) => m
    case ClearM(m) => m
    case ToggleM(_, m) => m
    case MacroOnce(m) => m
    case Macro2(_, _, m) => m
    case _ => -1
  }

  predicate IsLayout(layers: seq<LayerDef>, l: int) {
    0 <= l < |layers| && layers[l].kind == LayoutType
  }

  /** What parse_descriptor checks of an action before it returns it
      (src/config.c:738-803): a layer action names an existing layer that is no layout,
      setlayout names main or a layout, macros and auxiliary actions exist, and the second
      argument of oneshotk is a key sequence. */
  predicate WellFormed(layers: seq<LayerDef>, table: seq<Descriptor>, nMacros: nat, d: Descriptor) {
    (LayerOf(d) != -1 ==> LayerOf(d) < |layers| && !IsLayout(layers, LayerOf(d))) &&
    (d.Layout? ==> d.layout < |layers| && (d.layout == 0 || IsLayout(layers, d.layout))) &&
    MacroOf(d) < nMacros &&
    Rank(d) <= |table| &&
    (d.OneshotK? ==> table[d.key].KeySequence?)
  }

  /** Every entry of the descriptor table refers to smaller indices only: the table is
      acyclic. */
  ghost predicate TableOk(layers: seq<LayerDef>, table: seq<Descriptor>, nMacros: nat) {
    forall i | 0 <= i < |table| :: WellFormed(layers, table[..i], nMacros, table[i])
  }

  predicate ChordOk(c: Chord) {
    forall i | 0 <= i < |c.keys| :: c.keys[i] != 0 && !IsChordCode(c.keys[i])
  }

  /** swap() or swapm(). */
  predicate IsSwap(d: Descriptor) {
    d.Swap? || d.SwapM?
  }

  /** What the engine remembers for repeat(). */
  predicate IsRepeatable(d: Descriptor) {
    d.Nothing? || d.KeySequence? || d.MacroOnce? || d.Macro2?
  }

  /** A key sequence, layer(), or overload() of a layer and a key sequence. */
  predicate IsSimple(table: seq<Descriptor>, d: Descriptor) {
    d.Nothing? || d.KeySequence? || d.Layer? ||
    (d.Overload? && d.action < |table| && table[d.action].KeySequence?)
  }

  ghost predicate All(c: Config, p: Descriptor -> bool) {
    (forall i | 0 <= i < |c.descriptors| :: p(c.descriptors[i])) &&
    (forall l, k | 0 <= l < |c.layers| && 0 <= k < |c.layers[l].keymap| :: p(c.layers[l].keymap[k])) &&
    (forall l, k | 0 <= l < |c.layers| && 0 <= k < |c.layers[l].chords| :: p(c.layers[l].chords[k].d))
  }

  ghost predicate ChordFree(c: Config) {
    forall l | 0 <= l < |c.layers| :: c.layers[l].chords == []
  }

  // ------------------------------------------------------------------- restricted classes

  /** Restricted classes of configurations, by the actions they are made of: without swap()
      and swapm(); without overloadt() and overloadt2(), so that no event waits for another;
      without swap(), swapm(), overloadi() and timeout(); without toggle(), togglem(),
      overloadi() and timeout(), so that a slot is marked with the layer its key holds; with
      simple actions only; and with timeouts that are not 0. */
  datatype Class = SwapFree | Undelayed | Steady | Marked | Simple | Timed

  predicate IsDelayed(d: Descriptor) {
    d.OverloadTimeout? || d.OverloadTimeoutTap?
  }

  predicate InClass(cls: Class, table: seq<Descriptor>, d: Descriptor) {
    match cls
    case SwapFree => !IsSwap(d)
    case Undelayed => !IsDelayed(d)
    case Steady => !IsSwap(d) && !d.OverloadIdle? && !d.Timeout?
    case Marked => !d.Toggle? && !d.ToggleM? && !d.OverloadIdle? && !d.Timeout?
    case Simple => IsSimple(table, d)
    case Timed =>
      (IsDelayed(d) || d.Timeout? ==> d.timeout > 0) && (d.Macro2? ==> d.timeout > 0 && d.interval > 0)
  }

  ghost predicate OfClass(c: Config, cls: Class) {
    All(c, d => InClass(cls, c.descriptors, d))
  }

  /** No timeout is 0, except where 0 means that there is none. */
  ghost predicate Positive(c: Config) {
    OfClass(c, Timed) && c.macroTimeout > 0 && c.macroRepeatTimeout > 0 && c.oneshotTimeout >= 0 &&
    c.chordInterkeyTimeout > 0 && c.chordHoldTimeout >= 0
  }

  lemma ClassesNested(c: Config)
    ensures OfClass(c, Simple) ==> OfClass(c, Steady) && OfClass(c, Undelayed) && OfClass(c, Marked)
    ensures OfClass(c, Steady) ==> OfClass(c, SwapFree)
  {
  }

  /** An action that may occur while the engine runs: well formed, and of every class the
      configuration belongs to. */
  ghost predicate Allowed(c: Config, d: Descriptor) {
    WellFormed(c.layers, c.descriptors, |c.macros|, d) &&
    forall cls: Class | OfClass(c, cls) :: InClass(cls, c.descriptors, d)
  }

  /** A configuration as config_parse builds it. */
  ghost predicate ConfigOk(c: Config) {
    0 < |c.layers| && IsLayout(c.layers, 0) &&
    TableOk(c.layers, c.descriptors, |c.macros|) &&
    All(c, d => WellFormed(c.layers, c.descriptors, |c.macros|, d)) &&
    (forall l | 0 <= l < |c.layers| ::
       |c.layers[l].keymap| == 256 &&
       (c.layers[l].kind == LayoutType ==> c.layers[l].mods == {}) &&
       (forall k | 0 <= k < |c.layers[l].chords| :: ChordOk(c.layers[l].chords[k])) &&
       (forall k | 0 <= k < |c.layers[l].constituents| :: c.layers[l].constituents[k] < |c.layers|))
  }

  lemma TableAllowed(c: Config, i: nat)
    requires ConfigOk(c) && i < |c.descriptors|
    ensures Allowed(c, c.descriptors[i]) && Rank(c.descriptors[i]) <= i
  {
    assert WellFormed(c.layers, c.descriptors[..i], |c.macros|, c.descriptors[i]);
  }

  lemma KeymapAllowed(c: Config, l: nat, k: nat)
    requires ConfigOk(c) && l < |c.layers| && k < 256
    ensures Allowed(c, c.layers[l].keymap[k])
  {
  }

  lemma ChordAllowed(c: Config, l: nat, k: nat)
    requires ConfigOk(c) && l < |c.layers| && k < |c.layers[l].chords|
    ensures Allowed(c, c.layers[l].chords[k].d) && ChordOk(c.layers[l].chords[k])
  {
  }
}
