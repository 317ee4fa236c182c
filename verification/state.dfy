/** struct keyboard (src/keyboard.h:20-142) as a value. */
module State {
  import opened Keys
  import opened Output
  import opened Configs

  datatype Option<T> = None | Some(value: T)

  /** struct key_event; code 0 is a timer tick. */
  datatype KeyEvent = KeyEvent(code: Code, pressed: bool, timestamp: nat)

  datatype LayerState = LayerState(activationTime: int, active: nat, toggled: bool, depth: nat)

  /** The layer states with what belongs to them. `layout` is 0 or the layout that occludes
      main; `underflow` records that deactivate_layer's assertion failed, and `strayed`, which
      no operation reads, that a swap() took the activation of a key that did not hold the
      layer. */
  datatype Lay = Lay(
    ls: seq<LayerState>, layout: nat, clock: nat, latch: bool, oneshotTimeout: int, underflow: bool, strayed: bool)

  const CACHE_SIZE := 16
  const QUEUE_SIZE := 32
  const MAX_TIMEOUTS := 128

  /** struct cache_entry; code 0 marks a free slot. */
  datatype CacheEntry = CacheEntry(code: Code, d: Descriptor, dl: nat, layer: nat)

  /** struct pending_timeout; code 0 when nothing is pending. */
  datatype PendingTimeout = PendingTimeout(
    code: Code, dl: nat, spontaneous: bool, expiration: int, activationTime: int,
    action1: Descriptor, action2: Descriptor)

  /** struct pending_overload without its queue; code 0 when nothing is pending. */
  datatype PendingOverload = PendingOverload(
    code: Code, dl: nat, expiration: int, resolveOnInterrupt: bool,
    action1: Descriptor, action2: Descriptor)

  datatype ChordPhase = Resolving | Inactive | PendingDisambiguation | PendingHoldTimeout

  /** struct active_chord: keys[i] becomes 0 when that key is released. */
  datatype ActiveChord = ActiveChord(active: bool, keys: seq<Code>, d: Descriptor, layer: nat)

  /** The chord recogniser and the active chords. */
  datatype Chords = Chords(
    phase: ChordPhase, queue: seq<KeyEvent>, match_: Option<Chord>, matchLayer: nat,
    startCode: Code, lastCodeTime: nat, active: seq<ActiveChord>)

  datatype MacroRun = MacroRun(active: Option<nat>, layer: nat, timeout: int, interval: int)

  /** What the engine remembers from one key to the next. */
  datatype Memo = Memo(
    lastPressed: Code, repeatable: Descriptor, lastSimple: int, overloadStart: int,
    sensitivity: int, scroll: bool)

  /** What actions read and write. `overflow` records that an assertion on a fixed capacity
      failed: the process is gone. */
  datatype Core = Core(
    out: Out, lay: Lay, cache: seq<CacheEntry>, pt: PendingTimeout, po: PendingOverload,
    mac: MacroRun, timers: seq<int>, overflow: bool, memo: Memo)

  /** A record of the run, which the engine never reads: the events that passed the pending
      handlers; the events that were settled there or by a chord; the synthetic chord events,
      each in order; and, of a matched chord that waits to be held, how long after the interkey
      timeout the tick came that ended its disambiguation, 0 if it needed none. */
  datatype Log = Log(passed: seq<KeyEvent>, settled: seq<KeyEvent>, made: seq<KeyEvent>, late: int)

  /** struct keyboard: besides what actions touch, the queue of the pending overload and the
      chord recogniser. */
  datatype Kbd = Kbd(core: Core, oq: seq<KeyEvent>, chords: Chords, log: Log)

  // ------------------------------------------------------------------------ well-formed

  /** No code occupies two slots. */
  ghost predicate DistinctCodes(cache: seq<CacheEntry>) {
    forall i, j | 0 <= i < j < |cache| && cache[i].code != 0 :: cache[i].code != cache[j].code
  }

  ghost predicate EntryOk(c: Config, e: CacheEntry) {
    e.layer < |c.layers| && (e.code != 0 ==> Allowed(c, e.d) && e.dl < |c.layers|)
  }

  ghost predicate CacheOk(c: Config, cache: seq<CacheEntry>) {
    |cache| == CACHE_SIZE && DistinctCodes(cache) &&
    forall i | 0 <= i < |cache| :: EntryOk(c, cache[i])
  }

  ghost predicate TimeoutOk(c: Config, p: PendingTimeout) {
    p.code != 0 ==> p.dl < |c.layers| && forall d | d == p.action1 || d == p.action2 :: Allowed(c, d)
  }

  ghost predicate OverloadOk(c: Config, p: PendingOverload) {
    p.code != 0 ==>
      p.dl < |c.layers| && p.action2.Layer? && forall d | d == p.action1 || d == p.action2 :: Allowed(c, d)
  }

  ghost predicate RepeatableOk(c: Config, memo: Memo) {
    IsRepeatable(memo.repeatable) && forall d | d == memo.repeatable :: Allowed(c, d)
  }

  ghost predicate ActiveChordOk(c: Config, a: ActiveChord) {
    Allowed(c, a.d) && a.layer < |c.layers|
  }

  predicate ChordPending(s: Chords) {
    s.phase == PendingDisambiguation || s.phase == PendingHoldTimeout
  }

  /** The first |keys| queued events are presses of keys of the chord. */
  predicate Prefixed(chord: Chord, queue: seq<KeyEvent>) {
    1 <= |chord.keys| <= |queue| &&
    forall i | 0 <= i < |chord.keys| :: queue[i].pressed && queue[i].code in chord.keys
  }

  ghost predicate ActiveOk(c: Config, active: seq<ActiveChord>) {
    |active| == MAX_ACTIVE_CHORDS && forall i | 0 <= i < |active| :: ActiveChordOk(c, active[i])
  }

  /** While a chord is being recognised: a match is a prefix of the queue; before the match
      is settled the queue holds presses only; afterwards there is a match. */
  ghost predicate QueueOk(s: Chords) {
    (ChordPending(s) && s.match_.Some? ==> Prefixed(s.match_.value, s.queue)) &&
    (s.phase == PendingDisambiguation ==> forall i | 0 <= i < |s.queue| :: s.queue[i].pressed) &&
    (s.phase == PendingHoldTimeout ==> s.match_.Some?)
  }

  ghost predicate ChordsOk(c: Config, s: Chords) {
    ActiveOk(c, s.active) && |s.queue| <= QUEUE_SIZE && QueueOk(s) &&
    (s.match_.Some? ==> MatchOk(c, s.match_.value) && s.matchLayer < |c.layers|)
  }

  ghost predicate MatchOk(c: Config, chord: Chord) {
    Allowed(c, chord.d) && ChordOk(chord)
  }

  /** What every action needs to be defined. */
  ghost predicate CoreOk(c: Config, k: Core) {
    ConfigOk(c) && |k.out.keys| == 256 && |k.lay.ls| == |c.layers| && CacheOk(c, k.cache) &&
    TimeoutOk(c, k.pt) && OverloadOk(c, k.po) && RepeatableOk(c, k.memo) && |k.timers| <= MAX_TIMEOUTS &&
    (k.mac.active.Some? ==> k.mac.active.value < |c.macros|)
  }

  /** What every step of the engine needs to be defined. */
  ghost predicate Ok(c: Config, k: Kbd) {
    CoreOk(c, k.core) && |k.oq| <= QUEUE_SIZE && ChordsOk(c, k.chords)
  }

  // ------------------------------------------------------------------------ termination

  function TimeoutRank(p: PendingTimeout): nat {
    if p.code == 0 then 0 else 1 + Max(Rank(p.action1), Rank(p.action2))
  }

  function OverloadRank(p: PendingOverload): nat {
    if p.code == 0 then 0 else 1 + Max(Rank(p.action1), Rank(p.action2))
  }

  /** A weight that more than doubles with each rank: one action resolved pays for both
      actions of lower rank it may leave pending. */
  function Weight(rank: nat): nat {
    if rank == 0 then 0 else 2 * Weight(rank - 1) + 1
  }

  lemma {:induction false} WeightMonotone(a: nat, b: nat)
    requires a <= b
    ensures Weight(a) <= Weight(b)
    ensures a < b ==> 2 * Weight(a) < Weight(b)
    decreases b
  {
    if a < b {
      WeightMonotone(a, b - 1);
    }
  }

  /** The nesting still pending. */
  function PendingWeight(k: Core): nat {
    Weight(OverloadRank(k.po)) + Weight(TimeoutRank(k.pt))
  }

  /** The events the engine has taken in but not settled. */
  function Load(k: Kbd): nat {
    |k.oq| + if ChordPending(k.chords) then |k.chords.queue| else 0
  }

  /** 0 while a chord is being resolved: nothing is resolved inside a resolution. */
  function Mode(k: Kbd): nat {
    if k.chords.phase == Resolving then 0 else 1
  }

  function NonZero(keys: seq<Code>): nat {
    if keys == [] then 0 else NonZero(keys[..|keys| - 1]) + (if keys[|keys| - 1] != 0 then 1 else 0)
  }

  /** The keys of the first n active chords that are still held. */
  function HeldChordKeys(chords: seq<ActiveChord>, n: nat): nat
    requires n <= |chords|
  {
    if n == 0 then 0
    else HeldChordKeys(chords, n - 1) + (if chords[n - 1].active then NonZero(chords[n - 1].keys) else 0)
  }
}
