/** The mutually recursive heart of the engine (src/keyboard.c:893-1274): chord handling,
    tap-hold resolution and the event loop, as functions on values. That these functions
    are accepted is the proof that the source's recursion terminates on every input. */
module Machine {
  import opened Keys
  import opened Output
  import opened Configs
  import opened State
  import opened Layers
  import opened Cache
  import opened Actions
  import opened Events
  import opened Pending

  /** What one call does to the measure of the recursion: at most `extra` events more are
      taken in, and if none was settled the nesting still pending has not grown; a chord
      resolution in progress stays in progress with its queue untouched. */
  ghost predicate Moves(k: Kbd, r: Kbd, extra: nat) {
    Load(r) <= Load(k) + extra &&
    (Load(r) == Load(k) + extra ==> PendingWeight(r.core) <= PendingWeight(k.core)) &&
    (k.core.overflow ==> r.core.overflow) &&
    Mode(r) <= Mode(k) && (Mode(k) == 1 && !r.core.overflow ==> Mode(r) == 1) &&
    (Mode(k) == 0 ==> r.chords.(active := k.chords.active) == k.chords)
  }

  /** 1 for a key event, 0 for a tick. */
  function Weighs(e: KeyEvent): nat {
    if e.code != 0 then 1 else 0
  }

  lemma LayersFact(c: Config, k: Kbd)
    requires Ok(c, k)
    ensures ConfigOk(c) && |k.core.lay.ls| == |c.layers|
  {
  }

  /** An assertion on a fixed capacity failed. */
  function Halt(k: Kbd): Kbd {
    k.(core := k.core.(overflow := true))
  }

  /** process_event after the pending handlers (src/keyboard.c:1199-1246). */
  function Dispatch(c: Config, k: Kbd, e: KeyEvent): (r: Kbd)
    requires Ok(c, k)
    ensures Ok(c, r) && Moves(k, r, Weighs(e)) && r == k.(core := r.core, log := r.log)
  {
    var core := RepeatMacro(c, ExpireOneshots(c, k.core, e.timestamp), e);
    if e.code == 0 then k.(core := core)
    else
      var log := k.log.(passed := k.log.passed + [e], settled := k.log.settled + [e]);
      k.(core := DispatchKey(c, core, k.chords.active, e), log := log)
  }

  // ------------------------------------------------------------------------ the recursion

  /** handle_pending_overload: the new state, and whether the event was taken. */
  function HandlePendingOverload(c: Config, k: Kbd, e: KeyEvent): (r: (Kbd, bool))
    requires Ok(c, k)
    ensures Ok(c, r.0) && Moves(k, r.0, Weighs(e)) && (!r.1 ==> r.0 == k)
    decreases Mode(k), Load(k) + Weighs(e), PendingWeight(k.core), 0,
              HeldChordKeys(k.chords.active, |k.chords.active|), 2
  {
    hide ProcessEvents;
    var po := k.core.po;
    if po.code == 0 then (k, false)
    else if e.code != 0 && |k.oq| >= QUEUE_SIZE then (Halt(k), true)
    else if e.code != 0 && !e.pressed && !Queued(k.oq, e.code) && e.code != po.code then (k, false)
    else
      var queue := if e.code != 0 then k.oq + [e] else k.oq;
      var action := Resolution(po, e);
      if action.Nothing? then (k.(oq := queue), true)
      else
        var p := k.(core := ResolveOverload(c, k.core, action, e.timestamp), oq := []);
        (ProcessEvents(c, p, queue, 0, 0, 0).0, true)
  }

  /** The first of the first n active chords that still holds a key; -1 if none does. */
  function FindHeld(active: seq<ActiveChord>, code: Code, n: nat): (r: int)
    requires n <= |active|
    ensures -1 <= r < n
    ensures r != -1 ==> active[r].active && code in active[r].keys
    ensures r == -1 ==> forall i | 0 <= i < n :: !(active[i].active && code in active[i].keys)
  {
    if n == 0 then -1
    else
      var p := FindHeld(active, code, n - 1);
      if p != -1 then p else if active[n - 1].active && code in active[n - 1].keys then n - 1 else -1
  }

  /** The keys of a chord after one of them is released. */
  function Strike(keys: seq<Code>, code: Code): (r: seq<Code>)
    ensures |r| == |keys|
    ensures forall i | 0 <= i < |keys| :: r[i] == if keys[i] == code then 0 else keys[i]
  {
    seq(|keys|, i requires 0 <= i < |keys| => if keys[i] == code then 0 else keys[i])
  }

  lemma {:induction false} StrikeLowers(keys: seq<Code>, code: Code)
    requires code != 0
    ensures NonZero(Strike(keys, code)) <= NonZero(keys)
    ensures code in keys ==> NonZero(Strike(keys, code)) < NonZero(keys)
    decreases |keys|
  {
    if keys != [] {
      var n := |keys| - 1;
      assert Strike(keys, code)[..n] == Strike(keys[..n], code);
      StrikeLowers(keys[..n], code);
    }
  }

  lemma {:induction false} HeldChordKeysUpdate(chords: seq<ActiveChord>, n: nat, i: nat, a: ActiveChord)
    requires n <= |chords| && i < |chords| && chords[i].active && NonZero(a.keys) < NonZero(chords[i].keys)
    ensures HeldChordKeys(chords[i := a], n) <= HeldChordKeys(chords, n)
    ensures i < n ==> HeldChordKeys(chords[i := a], n) < HeldChordKeys(chords, n)
    decreases n
  {
    if n != 0 {
      HeldChordKeysUpdate(chords, n - 1, i, a);
    }
  }

  /** The active chords after key `code` of chord i is released. */
  function ReleaseKey(c: Config, k: Kbd, i: nat, code: Code): (r: Kbd)
    requires Ok(c, k) && i < |k.chords.active| && code != 0
    requires k.chords.active[i].active && code in k.chords.active[i].keys
    ensures Ok(c, r) && r == k.(chords := k.chords.(active := r.chords.active), log := r.log)
    ensures HeldChordKeys(r.chords.active, |r.chords.active|) < HeldChordKeys(k.chords.active, |k.chords.active|)
  {
    var a := k.chords.active[i];
    var keys := Strike(a.keys, code);
    StrikeLowers(a.keys, code);
    assert ActiveChordOk(c, a);
    var b := a.(keys := keys, active := NonZero(keys) != 0);
    HeldChordKeysUpdate(k.chords.active, |k.chords.active|, i, b);
    k.(chords := k.chords.(active := k.chords.active[i := b]))
  }

  function Settle(k: Kbd, settled: seq<KeyEvent>, made: seq<KeyEvent>): Kbd {
    k.(log := k.log.(settled := k.log.settled + settled, made := k.log.made + made))
  }

  /** handle_chord: the new state, and whether the event was taken. */
  function HandleChord(c: Config, k: Kbd, e: KeyEvent): (r: (Kbd, bool))
    requires Ok(c, k)
    ensures Ok(c, r.0) && Moves(k, r.0, Weighs(e))
    ensures !r.1 ==> r.0 == k.(chords := r.0.chords) && Load(r.0) == Load(k) && Mode(r.0) == Mode(k) &&
                     r.0.chords.active == k.chords.active
    decreases Mode(k), Load(k) + Weighs(e), PendingWeight(k.core), 0,
              HeldChordKeys(k.chords.active, |k.chords.active|), 3
  {
    hide ProcessEvent, StartChord, ExtendChord, HoldChord, DisambiguationTick;
    var held := if e.code != 0 && !e.pressed then FindHeld(k.chords.active, e.code, |k.chords.active|) else -1;
    if held != -1 then
      var p := ReleaseKey(c, k, held, e.code);
      if p.chords.active[held].active then (Settle(p, [e], []), true)
      else
        var release := KeyEvent(CHORD_1 + held, false, e.timestamp);
        (ProcessEvent(c, Settle(p, [e], [release]), release).0, true)
    else
      match k.chords.phase
      case Resolving => (k, false)
      case Inactive => StartChord(c, k, e)
      case PendingDisambiguation => if e.code == 0 then DisambiguationTick(c, k, e.timestamp)
        else (ExtendChord(c, k, e), true)
      case PendingHoldTimeout => HoldChord(c, k, e)
  }

  /** enqueue_chord_event */
  function Enqueue(s: Chords, e: KeyEvent): Chords {
    if e.code == 0 then s else s.(queue := s.queue + [e])
  }

  /** The recogniser waits until a deadline. */
  function Await(k: Kbd, s: Chords, deadline: int, late: int): Kbd {
    k.(core := Schedule(k.core, deadline), chords := s, log := k.log.(late := late))
  }

  /** The recogniser after check_chord_match looked at a queue of presses. */
  function Matched(c: Config, k: Kbd, s: Chords): (r: (nat, Chords))
    requires ConfigOk(c) && |k.core.lay.ls| == |c.layers| && ResolvableOk(c, k, s)
    requires forall i | 0 <= i < |s.queue| :: s.queue[i].pressed
    ensures ResolvableOk(c, k, r.1) && r.1 == s.(match_ := r.1.match_, matchLayer := r.1.matchLayer)
    ensures r.0 <= 3 && (r.0 >= 2 ==> r.1.match_.Some?)
  {
    var (m, chord, layer) := CheckChordMatch(c, k.core.lay.ls, s);
    CheckChordMatchOk(c, k.core.lay.ls, s);
    (m, s.(match_ := chord, matchLayer := layer))
  }

  /** handle_chord in the inactive state. */
  function StartChord(c: Config, k: Kbd, e: KeyEvent): (r: (Kbd, bool))
    requires Ok(c, k) && k.chords.phase == Inactive
    ensures Ok(c, r.0) && Moves(k, r.0, Weighs(e))
    ensures !r.1 ==> r.0 == k.(chords := r.0.chords) && Load(r.0) == Load(k) && Mode(r.0) == Mode(k) &&
                     r.0.chords.active == k.chords.active
    decreases Mode(k), Load(k) + Weighs(e), PendingWeight(k.core), 0,
              HeldChordKeys(k.chords.active, |k.chords.active|), 2
  {
    var s := Enqueue(k.chords.(queue := [], match_ := None, startCode := e.code), e);
    if e.code == 0 || !e.pressed then
      FirstMatch(c, k.core.lay.ls, s, e);
      (k.(chords := s), false)
    else
      var (m, t) := Matched(c, k, s);
      if m == 0 then (k.(chords := s), false) else (MatchChord(c, k, t, m, e.timestamp), true)
  }

  /** handle_chord on a key event while a chord is being disambiguated. */
  function ExtendChord(c: Config, k: Kbd, e: KeyEvent): (r: Kbd)
    requires Ok(c, k) && k.chords.phase == PendingDisambiguation && e.code != 0
    ensures Ok(c, r) && Moves(k, r, 1)
    decreases Mode(k), Load(k) + 1, PendingWeight(k.core), 0, HeldChordKeys(k.chords.active, |k.chords.active|), 2
  {
    if |k.chords.queue| >= QUEUE_SIZE then Halt(k)
    else
      var s := Enqueue(k.chords, e);
      if !e.pressed then ResolveChord(c, k, s.(match_ := None))
      else
        var (m, t) := Matched(c, k, s);
        if m == 0 then ResolveChord(c, k, t.(match_ := None)) else MatchChord(c, k, t, m, e.timestamp)
  }

  lemma ExtendOk(c: Config, k: Kbd, e: KeyEvent)
    requires Ok(c, k) && k.chords.phase == PendingDisambiguation && e.code != 0
    ensures |k.chords.queue| < QUEUE_SIZE ==>
              ResolvableOk(c, k, Enqueue(k.chords, e)) && |Enqueue(k.chords, e).queue| == |k.chords.queue| + 1
    ensures e.pressed ==> forall i | 0 <= i < |Enqueue(k.chords, e).queue| :: Enqueue(k.chords, e).queue[i].pressed
  {
  }

  /** handle_chord on a tick while a chord is being disambiguated. */
  function DisambiguationTick(c: Config, k: Kbd, time: nat): (r: (Kbd, bool))
    requires Ok(c, k) && k.chords.phase == PendingDisambiguation
    ensures Ok(c, r.0) && Moves(k, r.0, 0)
    ensures !r.1 ==> r.0 == k
    decreases Mode(k), Load(k), PendingWeight(k.core), 0, HeldChordKeys(k.chords.active, |k.chords.active|), 2
  {
    if time - k.chords.lastCodeTime < c.chordInterkeyTimeout then (k, false)
    else
      var timeLeft := c.chordHoldTimeout - c.chordInterkeyTimeout;
      if k.chords.match_.Some? && timeLeft > 0 then
        (Await(k, k.chords.(phase := PendingHoldTimeout), time + timeLeft,
               time - k.chords.lastCodeTime - c.chordInterkeyTimeout), true)
      else (ResolveChord(c, k, k.chords), true)
  }

  /** handle_chord while a matched chord waits to be held long enough. */
  function HoldChord(c: Config, k: Kbd, e: KeyEvent): (r: (Kbd, bool))
    requires Ok(c, k) && k.chords.phase == PendingHoldTimeout
    ensures Ok(c, r.0) && Moves(k, r.0, Weighs(e))
    ensures !r.1 ==> r.0 == k
    decreases Mode(k), Load(k) + Weighs(e), PendingWeight(k.core), 0,
              HeldChordKeys(k.chords.active, |k.chords.active|), 2
  {
    if e.code == 0 then
      if e.timestamp - k.chords.lastCodeTime >= c.chordHoldTimeout then (ResolveChord(c, k, k.chords), true)
      else (k, false)
    else if |k.chords.queue| >= QUEUE_SIZE then (Halt(k), true)
    else
      var s := Enqueue(k.chords, e);
      if !e.pressed && e.code in s.match_.value.keys then (ResolveChord(c, k, s.(match_ := None)), true)
      else (k.(chords := s), true)
  }

  /** handle_chord once the queue matches some chord in part or in full. */
  function MatchChord(c: Config, k: Kbd, s: Chords, m: nat, time: nat): (r: Kbd)
    requires Ok(c, k) && 1 <= m <= 3 && Mode(k) == 1 && ResolvableOk(c, k, s) && s.phase != Resolving
    requires |s.queue| <= QUEUE_SIZE && forall i | 0 <= i < |s.queue| :: s.queue[i].pressed
    requires m >= 2 ==> s.match_.Some?
    ensures Ok(c, r) && Resolves(k, r, |s.queue|)
    decreases Mode(k), |k.oq| + |s.queue|, PendingWeight(k.core), 0,
              HeldChordKeys(k.chords.active, |k.chords.active|), 1
  {
    var t := s.(lastCodeTime := time);
    if m != 2 then Await(k, t.(phase := PendingDisambiguation), time + c.chordInterkeyTimeout, 0)
    else if c.chordHoldTimeout != 0 then Await(k, t.(phase := PendingHoldTimeout), time + c.chordHoldTimeout, 0)
    else ResolveChord(c, k, t)
  }

  /** A queue that can be resolved: its match, if there is one, is a prefix of it. */
  ghost predicate ResolvableOk(c: Config, k: Kbd, s: Chords) {
    s.active == k.chords.active && |s.queue| <= QUEUE_SIZE &&
    (s.match_.Some? ==> Prefixed(s.match_.value, s.queue) && MatchOk(c, s.match_.value) && s.matchLayer < |c.layers|)
  }

  /** The queue, `taken` events long, was taken in by someone or settled. */
  ghost predicate Resolves(k: Kbd, r: Kbd, taken: nat) {
    Load(r) <= |k.oq| + taken && (Load(r) == |k.oq| + taken ==> PendingWeight(r.core) <= PendingWeight(k.core)) &&
    (k.core.overflow ==> r.core.overflow) && (!r.core.overflow ==> Mode(r) == 1)
  }

  /** The first free one of the first n active chords; -1 if there is none. */
  function FindFree(active: seq<ActiveChord>, n: nat): (r: int)
    requires n <= |active|
    ensures -1 <= r < n
    ensures r != -1 ==> !active[r].active
    ensures r == -1 ==> forall i | 0 <= i < n :: active[i].active
  {
    if n == 0 then -1
    else
      var p := FindFree(active, n - 1);
      if p != -1 then p else if !active[n - 1].active then n - 1 else -1
  }

  /** resolve_chord: the matched prefix of the queue becomes a press of a chord code, and
      the rest of the queue is replayed. */
  function ResolveChord(c: Config, k: Kbd, s: Chords): (r: Kbd)
    requires Ok(c, k) && Mode(k) == 1 && ResolvableOk(c, k, s)
    ensures Ok(c, r) && Resolves(k, r, |s.queue|)
    decreases Mode(k), |k.oq| + |s.queue|, PendingWeight(k.core), 0,
              HeldChordKeys(k.chords.active, |k.chords.active|), 0
  {
    var p := k.(chords := s.(phase := Resolving));
    match s.match_
    case None => Replay(c, p, s.queue)
    case Some(chord) =>
      var free := FindFree(s.active, |s.active|);
      if free == -1 then Halt(p)
      else Replay(c, PressChord(c, p, free, s), s.queue[|chord.keys|..])
  }

  /** The end of resolve_chord: what is left of the queue is replayed. */
  function Replay(c: Config, k: Kbd, queue: seq<KeyEvent>): (r: Kbd)
    requires Ok(c, k) && Mode(k) == 0
    ensures Ok(c, r) && Resolves(k, r, |queue|)
    decreases Mode(k), Load(k) + |queue|, PendingWeight(k.core), 2
  {
    var r := ProcessEvents(c, k, queue, 0, 0, 0).0;
    r.(chords := r.chords.(phase := Inactive))
  }

  /** The matched prefix of the queue is settled by a press of the chord's code. */
  function PressChord(c: Config, k: Kbd, i: nat, s: Chords): (r: Kbd)
    requires Ok(c, k) && k.chords.phase == Resolving && i < MAX_ACTIVE_CHORDS
    requires s.match_.Some? && MatchOk(c, s.match_.value) && s.matchLayer < |c.layers|
    requires |s.match_.value.keys| <= |s.queue|
    ensures Ok(c, r) && Moves(k, r, 1)
    decreases Mode(k), Load(k) + 1, PendingWeight(k.core), 2
  {
    var chord := s.match_.value;
    var press := KeyEvent(CHORD_1 + i, true, s.lastCodeTime);
    var p := ActivateChord(c, k, i, chord, s.matchLayer);
    ProcessEvent(c, Settle(p, s.queue[..|chord.keys|], [press]), press).0
  }

  function ActivateChord(c: Config, k: Kbd, i: nat, chord: Chord, layer: nat): (r: Kbd)
    requires Ok(c, k) && i < |k.chords.active| && MatchOk(c, chord) && layer < |c.layers|
    ensures Ok(c, r) && r == k.(chords := k.chords.(active := r.chords.active))
  {
    k.(chords := k.chords.(active := k.chords.active[i := ActiveChord(true, chord.keys, chord.d, layer)]))
  }

  lemma ExitMoves(c: Config, k: Kbd, q: Kbd, time: nat, extra: nat)
    requires Ok(c, q) && Moves(k, q, extra)
    ensures Ok(c, Exit(q, time).0) && Moves(k, Exit(q, time).0, extra)
  {
    hide ChordsOk, ConfigOk, CacheOk, TimeoutOk, OverloadOk, RepeatableOk, OfClass;
  }

  /** process_event: the new state, and the time to the next deadline. */
  function ProcessEvent(c: Config, k: Kbd, e: KeyEvent): (r: (Kbd, nat))
    requires Ok(c, k)
    ensures Ok(c, r.0) && Moves(k, r.0, Weighs(e))
    decreases Mode(k), Load(k) + Weighs(e), PendingWeight(k.core), 0,
              HeldChordKeys(k.chords.active, |k.chords.active|), 4
  {
    hide HandleChord, PassChord, CoreOk, ChordsOk;
    var (p, byChord) := HandleChord(c, k, e);
    var q := if byChord then p else PassChord(c, p, e);
    ExitMoves(c, k, q, e.timestamp, Weighs(e));
    Exit(q, e.timestamp)
  }

  /** process_event once the chord handler let the event through. */
  function PassChord(c: Config, k: Kbd, e: KeyEvent): (r: Kbd)
    requires Ok(c, k)
    ensures Ok(c, r) && Moves(k, r, Weighs(e))
    decreases Mode(k), Load(k) + Weighs(e), PendingWeight(k.core), 0,
              HeldChordKeys(k.chords.active, |k.chords.active|), 3
  {
    var p := k.(core := HandlePendingTimeout(c, k.core, e));
    var (q, byOverload) := HandlePendingOverload(c, p, e);
    if byOverload then q else Dispatch(c, q, e)
  }

  /** The time left for ticks before an event. */
  function TickRoom(events: seq<KeyEvent>, i: nat, timeout: nat, timeoutTs: int): nat
    requires i < |events|
  {
    if timeout > 0 && timeoutTs <= events[i].timestamp then events[i].timestamp - timeoutTs + 1 else 0
  }

  /** kbd_process_events from event i on, with a tick due at timeoutTs if timeout is not 0. */
  function ProcessEvents(c: Config, k: Kbd, events: seq<KeyEvent>, i: nat, timeout: nat,
                         timeoutTs: nat): (r: (Kbd, nat))
    requires Ok(c, k) && i <= |events|
    ensures Ok(c, r.0) && Moves(k, r.0, |events| - i)
    decreases Mode(k), Load(k) + |events| - i, PendingWeight(k.core), 1, |events| - i,
              if i < |events| then TickRoom(events, i, timeout, timeoutTs) else 0
  {
    if i == |events| || k.core.overflow then (k, timeout)
    else if timeout > 0 && timeoutTs <= events[i].timestamp then
      var (p, t) := ProcessEvent(c, k, KeyEvent(0, false, timeoutTs));
      ProcessEvents(c, p, events, i, t, timeoutTs + t)
    else
      var (p, t) := ProcessEvent(c, k, events[i]);
      ProcessEvents(c, p, events, i + 1, t, events[i].timestamp + t)
  }

  /** A tick comes first. */
  lemma TickTurnUnfolds(c: Config, k: Kbd, events: seq<KeyEvent>, i: nat, timeout: nat, timeoutTs: nat, p: Kbd, t: nat)
    requires Ok(c, k) && i < |events| && !k.core.overflow
    requires timeout > 0 && timeoutTs <= events[i].timestamp
    requires (p, t) == ProcessEvent(c, k, KeyEvent(0, false, timeoutTs))
    ensures ProcessEvents(c, k, events, i, timeout, timeoutTs) == ProcessEvents(c, p, events, i, t, timeoutTs + t)
  {
    hide ProcessEvent;
  }

  /** The next event of the batch comes first. */
  lemma EventTurnUnfolds(c: Config, k: Kbd, events: seq<KeyEvent>, i: nat, timeout: nat, timeoutTs: nat, p: Kbd, t: nat)
    requires Ok(c, k) && i < |events| && !k.core.overflow
    requires !(timeout > 0 && timeoutTs <= events[i].timestamp)
    requires p == ProcessEvent(c, k, events[i]).0 && t == ProcessEvent(c, k, events[i]).1
    ensures ProcessEvents(c, k, events, i, timeout, timeoutTs) ==
            ProcessEvents(c, p, events, i + 1, t, events[i].timestamp + t)
  {
    hide ProcessEvent;
  }

  /** The batch is done. */
  lemma BatchEnds(c: Config, k: Kbd, events: seq<KeyEvent>, i: nat, timeout: nat, timeoutTs: nat)
    requires Ok(c, k) && i <= |events| && (i == |events| || k.core.overflow)
    ensures ProcessEvents(c, k, events, i, timeout, timeoutTs) == (k, timeout)
  {
    hide ProcessEvent;
  }
}
