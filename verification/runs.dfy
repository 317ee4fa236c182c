/** The promises of the engine over whole runs: from the state new_keyboard builds
    (src/keyboard.c:853-891), through any calls of kbd_process_events. */
module Runs {
  import opened Collections
  import opened Keys
  import opened Output
  import opened Configs
  import opened State
  import opened Layers
  import opened Cache
  import opened Events
  import opened Machine
  import opened ActionLaws
  import opened CoreLaws
  import opened Streams
  import opened Ledger
  import opened RunLaws

  // ---------------------------------------------------------------------------- the start

  const NO_ENTRY := CacheEntry(0, Nothing, 0, 0)
  const NO_CHORD := ActiveChord(false, [], Nothing, 0)

  /** The layer states at the start: main is active, and the default layout if there is
      one. */
  function StartLayers(c: Config, default: Option<nat>): (r: seq<LayerState>)
    requires 0 < |c.layers| && (default.Some? ==> default.value < |c.layers|)
    ensures |r| == |c.layers|
  {
    var bare := seq(|c.layers|, l => LayerState(0, if l == 0 then 1 else 0, false, 0));
    if default.Some? then bare[default.value := LayerState(1, 1, false, 0)] else bare
  }

  /** new_keyboard. The counter behind get_time is shared by all keyboards and may have any
      value. */
  function Start(c: Config, default: Option<nat>, clock: nat): Kbd
    requires 0 < |c.layers| && (default.Some? ==> default.value < |c.layers|)
  {
    var layout := if default.Some? then default.value else 0;
    var core := Core(
      Out(seq(256, _ => false), 0, []),
      Lay(StartLayers(c, default), layout, clock, false, 0, false, false),
      seq(CACHE_SIZE, _ => NO_ENTRY),
      PendingTimeout(0, 0, false, 0, 0, Nothing, Nothing),
      PendingOverload(0, 0, 0, false, Nothing, Nothing),
      MacroRun(None, 0, 0, 0), [], false, Memo(0, Nothing, 0, 0, 0, false));
    var chords := Chords(Inactive, [], None, 0, 0, 0, seq(MAX_ACTIVE_CHORDS, _ => NO_CHORD));
    Kbd(core, [], chords, Log([], [], [], 0))
  }

  lemma StartNet(c: Config, default: Option<nat>, clock: nat, l: nat)
    requires ConfigOk(c) && (default.Some? ==> IsLayout(c.layers, default.value)) && l < |c.layers| &&
             !IsLayout(c.layers, l)
    ensures Net(Start(c, default, clock).core, l) == 0
  {
    var cache := Start(c, default, clock).core.cache;
    HoldersEmpty(cache, |cache|, l);
  }

  lemma NothingDown(o: Out)
    requires o.trace == [] && |o.keys| == 256 && forall c: Code :: !o.keys[c]
    ensures OutputOk(o)
  {
    forall c: Code ensures KeyConsistent(o.keys[c], o.trace, c) {
      assert Of(o.trace, c) == [];
    }
  }

  lemma {:induction false} StartMods(c: Config, ls: seq<LayerState>, n: nat)
    requires ConfigOk(c) && n <= |ls| == |c.layers|
    requires forall l | 0 <= l < |ls| && !IsLayout(c.layers, l) :: ls[l].active == 0
    ensures ActiveMods(c.layers, ls, -1, n) == {}
    decreases n
  {
    if n != 0 {
      StartMods(c, ls, n - 1);
    }
  }

  lemma StartCore(c: Config, default: Option<nat>, clock: nat)
    requires ConfigOk(c) && (default.Some? ==> IsLayout(c.layers, default.value))
    ensures CoreInv(c, Start(c, default, clock).core, 0)
  {
    var k := Start(c, default, clock).core;
    assert Allowed(c, Nothing);
    assert CacheOk(c, k.cache);
    NothingDown(k.out);
    forall l | 0 <= l < |c.layers| ensures LayoutOk(c.layers, k.lay.ls[l], l, k.lay.layout) {
    }
    forall l | 0 <= l < |c.layers| && !IsLayout(c.layers, l) ensures Net(k, l) == 0 {
      StartNet(c, default, clock, l);
    }
    StartMods(c, k.lay.ls, |c.layers|);
  }

  lemma StartKeeps(c: Config, default: Option<nat>, clock: nat)
    requires ConfigOk(c) && (default.Some? ==> IsLayout(c.layers, default.value))
    ensures Ok(c, Start(c, default, clock)) && Inv(c, Start(c, default, clock), 0)
  {
    var k := Start(c, default, clock);
    StartCore(c, default, clock);
    assert Allowed(c, Nothing);
    assert ChordsOk(c, k.chords);
    assert Facts(c, k, 0);
  }

  // -------------------------------------------------------------------------------- runs

  /** The time of a call: that of its last event. */
  function TimeOf(batch: seq<KeyEvent>): nat
    requires batch != []
  {
    batch[|batch| - 1].timestamp
  }

  /** The time of the last of the first n calls. */
  function Clock(calls: seq<seq<KeyEvent>>, n: nat): nat
    requires n <= |calls| && forall i | 0 <= i < |calls| :: calls[i] != []
  {
    if n == 0 then 0 else TimeOf(calls[n - 1])
  }

  /** Calls of kbd_process_events in time: no event is later than its call, and no call is
      earlier than the one before. */
  ghost predicate InTime(calls: seq<seq<KeyEvent>>) {
    (forall i | 0 <= i < |calls| :: calls[i] != []) &&
    (forall i, j | 0 <= i < |calls| && 0 <= j < |calls[i]| :: calls[i][j].timestamp <= TimeOf(calls[i])) &&
    (forall i | 0 <= i < |calls| :: Clock(calls, i) <= Clock(calls, i + 1))
  }

  /** The state after the first n calls. */
  function Run(c: Config, k: Kbd, calls: seq<seq<KeyEvent>>, n: nat): (r: Kbd)
    requires Ok(c, k) && n <= |calls|
    ensures Ok(c, r)
  {
    if n == 0 then k else ProcessEvents(c, Run(c, k, calls, n - 1), calls[n - 1], 0, 0, 0).0
  }

  /** The key events of the first n calls. */
  function Input(calls: seq<seq<KeyEvent>>, n: nat): seq<KeyEvent>
    requires n <= |calls|
  {
    if n == 0 then [] else Input(calls, n - 1) + Reals(calls[n - 1])
  }

  lemma InvLater(c: Config, k: Kbd, from: int, to: int)
    requires Inv(c, k, from) && from <= to
    ensures Inv(c, k, to)
  {
    assert Facts(c, k, from);
    assert Facts(c, k, to);
  }

  /** Every call keeps the invariant and accounts for its events. */
  lemma {:induction false} RunKeeps(c: Config, k: Kbd, calls: seq<seq<KeyEvent>>, n: nat)
    requires Ok(c, k) && Inv(c, k, 0) && InTime(calls) && n <= |calls|
    ensures Inv(c, Run(c, k, calls, n), Clock(calls, n)) && Accounts(c, k, Run(c, k, calls, n), Input(calls, n))
    decreases n
  {
    hide ProcessEvents, Inv, Accounts, Ok;
    if n == 0 {
      AccountsNothing(c, k, k);
    } else {
      var p, batch := Run(c, k, calls, n - 1), calls[n - 1];
      RunKeeps(c, k, calls, n - 1);
      InvLater(c, p, Clock(calls, n - 1), Clock(calls, n));
      assert batch[0..] == batch;
      ProcessEventsKeeps(c, p, batch, 0, 0, 0, After(c, p, batch, 0, 0, 0), Reals(batch), Clock(calls, n));
      AccountsSteps(c, k, p, After(c, p, batch, 0, 0, 0), Input(calls, n - 1), Reals(batch));
    }
  }

  /** A state some run reaches, with all that is known of it. */
  ghost predicate Reached(c: Config, k: Kbd, calls: seq<seq<KeyEvent>>) {
    InTime(calls) && ConfigOk(c) &&
    exists default: Option<nat>, clock: nat | default.Some? ==> IsLayout(c.layers, default.value) ::
      ReachedFrom(c, k, calls, default, clock)
  }

  ghost predicate ReachedFrom(c: Config, k: Kbd, calls: seq<seq<KeyEvent>>, default: Option<nat>, clock: nat)
    requires ConfigOk(c) && (default.Some? ==> IsLayout(c.layers, default.value))
  {
    Ok(c, Start(c, default, clock)) && k == Run(c, Start(c, default, clock), calls, |calls|)
  }

  lemma ReachedStart(c: Config, default: Option<nat>, clock: nat)
    requires ConfigOk(c) && (default.Some? ==> IsLayout(c.layers, default.value))
    ensures Reached(c, Start(c, default, clock), [])
  {
    StartKeeps(c, default, clock);
    assert ReachedFrom(c, Start(c, default, clock), [], default, clock);
  }

  lemma {:induction false} RunPrefix(c: Config, k: Kbd, calls: seq<seq<KeyEvent>>, batch: seq<KeyEvent>, n: nat)
    requires Ok(c, k) && n <= |calls|
    ensures Run(c, k, calls + [batch], n) == Run(c, k, calls, n)
    decreases n
  {
    hide ProcessEvents;
    if n != 0 {
      RunPrefix(c, k, calls, batch, n - 1);
    }
  }

  /** A call in time leads from a reached state to a reached state. */
  lemma ReachedNext(c: Config, k: Kbd, calls: seq<seq<KeyEvent>>, batch: seq<KeyEvent>)
    requires Reached(c, k, calls) && Ok(c, k) && InTime(calls + [batch])
    ensures Reached(c, ProcessEvents(c, k, batch, 0, 0, 0).0, calls + [batch])
  {
    hide ProcessEvents, Ok, InTime, Start;
    var default: Option<nat>, clock: nat :|
      (default.Some? ==> IsLayout(c.layers, default.value)) && ReachedFrom(c, k, calls, default, clock);
    RunPrefix(c, Start(c, default, clock), calls, batch, |calls|);
    assert ReachedFrom(c, ProcessEvents(c, k, batch, 0, 0, 0).0, calls + [batch], default, clock);
  }

  lemma ReachedFacts(c: Config, k: Kbd, calls: seq<seq<KeyEvent>>)
    requires Reached(c, k, calls)
    ensures Facts(c, k, Clock(calls, |calls|))
  {
    var default: Option<nat>, clock: nat :|
      (default.Some? ==> IsLayout(c.layers, default.value)) && ReachedFrom(c, k, calls, default, clock);
    StartKeeps(c, default, clock);
    RunKeeps(c, Start(c, default, clock), calls, |calls|);
    assert Facts(c, k, Clock(calls, |calls|));
  }

  lemma ReachedTallies(c: Config, k: Kbd, calls: seq<seq<KeyEvent>>) returns (start: Kbd)
    requires Reached(c, k, calls)
    ensures Tallies(c, start, k, Input(calls, |calls|))
    ensures start.log == Log([], [], [], 0) && start.oq == [] && start.chords.phase == Inactive
    ensures forall i | 0 <= i < |start.chords.active| :: !start.chords.active[i].active
  {
    var default: Option<nat>, clock: nat :|
      (default.Some? ==> IsLayout(c.layers, default.value)) && ReachedFrom(c, k, calls, default, clock);
    hide Tallies, Inv, OfClass, Positive, ChordFree, Run, Input, Ok;
    start := Start(c, default, clock);
    StartKeeps(c, default, clock);
    RunKeeps(c, start, calls, |calls|);
    assert Tallies(c, start, k, Input(calls, |calls|));
  }

  // ----------------------------------------------------------------------- the promises

  /** In every run the strokes of every key alternate down, up, down, up, the engine's key
      states are what the output says, and silent codes are never sent. */
  lemma OutputAlternates(c: Config, k: Kbd, calls: seq<seq<KeyEvent>>, code: Code)
    requires Reached(c, k, calls)
    ensures Alternates(Of(k.core.out.trace, code))
    ensures |k.core.out.keys| == 256 && k.core.out.keys[code] == EndsDown(k.core.out.trace, code)
    ensures IsSilent(code) ==> Of(k.core.out.trace, code) == []
  {
    ReachedFacts(c, k, calls);
    assert KeyConsistent(k.core.out.keys[code], k.core.out.trace, code);
  }

  /** In every run main is active once, every layout at most once, and at most one layout
      besides main is active. */
  lemma OneLayout(c: Config, k: Kbd, calls: seq<seq<KeyEvent>>)
    requires Reached(c, k, calls)
    ensures |k.core.lay.ls| == |c.layers| && k.core.lay.ls[0].active == 1
    ensures forall l | IsLayout(c.layers, l) :: k.core.lay.ls[l].active <= 1
    ensures forall l, m | IsLayout(c.layers, l) && IsLayout(c.layers, m) && 0 < l < m ::
              k.core.lay.ls[l].active == 0 || k.core.lay.ls[m].active == 0
  {
    ReachedFacts(c, k, calls);
    OneLayoutBesidesMain(c.layers, k.core.lay);
  }

  /** In every run in which no swap() went astray, every layer that is no layout is active at
      least once for its toggle, for every armed oneshot and for every held key whose release
      will give up an activation, and deactivate_layer's assertion has not failed. Without
      swaps none goes astray, and neither without toggle(), togglem(), overloadi() and
      timeout(). */
  lemma LayersPaid(c: Config, k: Kbd, calls: seq<seq<KeyEvent>>, l: nat)
    requires Reached(c, k, calls) && l < |c.layers| && !IsLayout(c.layers, l)
    ensures |k.core.lay.ls| == |c.layers|
    ensures OfClass(c, SwapFree) || OfClass(c, Marked) ==> !k.core.lay.strayed
    ensures !k.core.lay.strayed ==>
              !k.core.lay.underflow &&
              k.core.lay.ls[l].active >=
                (if k.core.lay.ls[l].toggled then 1 else 0) + k.core.lay.ls[l].depth + Holders(k.core.cache,
                  |k.core.cache|, l)
  {
    hide OfClass;
    ReachedFacts(c, k, calls);
    assert !k.core.lay.strayed ==> Net(k.core, l) >= 0;
  }

  /** Exactly so often, if the configuration has no swap(), overloadi() and timeout().
      LayerLeak.LayerLeaks shows why overloadi() is excluded. */
  lemma LayersPaidExactly(c: Config, k: Kbd, calls: seq<seq<KeyEvent>>, l: nat)
    requires Reached(c, k, calls) && OfClass(c, Steady) && l < |c.layers| && !IsLayout(c.layers, l)
    ensures |k.core.lay.ls| == |c.layers|
    ensures k.core.lay.ls[l].active ==
            (if k.core.lay.ls[l].toggled then 1 else 0) + k.core.lay.ls[l].depth + Holders(k.core.cache,
              |k.core.cache|, l)
  {
    hide OfClass;
    ReachedFacts(c, k, calls);
    assert Net(k.core, l) == 0;
  }

  /** In every run the cache has 16 slots and no code occupies two of them. */
  lemma CacheIsMap(c: Config, k: Kbd, calls: seq<seq<KeyEvent>>, i: nat, j: nat)
    requires Reached(c, k, calls) && i < j < CACHE_SIZE
    ensures |k.core.cache| == CACHE_SIZE
    ensures k.core.cache[i].code != 0 ==> k.core.cache[i].code != k.core.cache[j].code
  {
    ReachedFacts(c, k, calls);
  }

  /** In every run that exceeds no fixed capacity, every key event of the input and every
      synthetic chord event is settled or queued, once. */
  lemma NothingLost(c: Config, k: Kbd, calls: seq<seq<KeyEvent>>)
    requires Reached(c, k, calls) && !k.core.overflow
    ensures multiset(k.log.settled) + multiset(k.oq) + multiset(Buffer(k.chords)) ==
            multiset(Input(calls, |calls|)) + multiset(k.log.made)
    ensures k.core.po.code == 0 && !ChordPending(k.chords) ==>
              multiset(k.log.settled) == multiset(Input(calls, |calls|)) + multiset(k.log.made)
  {
    hide Run, Input, Conserved, OfClass, Positive, ChordFree, Ordered, ConfigOk;
    var start := ReachedTallies(c, k, calls);
    TotalFromNothing(start, k, Input(calls, |calls|));
    if k.core.po.code == 0 {
      assert k.oq == [] by { ReachedFacts(c, k, calls); }
    }
  }

  lemma TotalFromNothing(start: Kbd, k: Kbd, input: seq<KeyEvent>)
    requires Conserved(start, k, input)
    requires start.log == Log([], [], [], 0) && start.oq == [] && start.chords.phase == Inactive
    ensures Total(k) == multiset(input) + multiset(k.log.made)
  {
    forall e: KeyEvent ensures Total(k)[e] == multiset(input)[e] + multiset(k.log.made)[e] {
      assert (Total(k) + multiset(start.log.made))[e] == (Total(start) + multiset(k.log.made) + multiset(input))[e];
      assert Total(start)[e] == 0;
    }
  }

  /** In every run without chords that exceeds no fixed capacity: for each key, and for all
      presses together, the events that got through followed by those the pending overload
      holds back are exactly those of the input, in order. */
  lemma OrderKept(c: Config, k: Kbd, calls: seq<seq<KeyEvent>>, v: View)
    requires Reached(c, k, calls) && !k.core.overflow && ChordFree(c)
    ensures See(v, k.log.passed) + See(v, k.oq) == See(v, Input(calls, |calls|))
    ensures k.core.po.code == 0 ==> See(v, k.log.passed) == See(v, Input(calls, |calls|))
  {
    var start := ReachedTallies(c, k, calls);
    LineFromNothing(start, k, Input(calls, |calls|), v);
    if k.core.po.code == 0 {
      assert k.oq == [] by { ReachedFacts(c, k, calls); }
      assert See(v, k.log.passed) + [] == See(v, k.log.passed);
    }
  }

  lemma LineFromNothing(start: Kbd, k: Kbd, input: seq<KeyEvent>, v: View)
    requires InLine(start, k, input, v)
    requires start.log == Log([], [], [], 0) && start.oq == []
    ensures See(v, k.log.passed) + See(v, k.oq) == See(v, input)
  {
    assert See(v, []) == [];
    assert [] + [] + See(v, input) == See(v, input);
  }

  /** In every run without overloadt() and overloadt2() that exceeds no fixed capacity: the
      presses that were settled, synthetic ones left out, followed by those the chord
      recogniser holds back are exactly those of the input, in order. */
  lemma PressesInOrder(c: Config, k: Kbd, calls: seq<seq<KeyEvent>>)
    requires Reached(c, k, calls) && !k.core.overflow && OfClass(c, Undelayed)
    ensures See(StrikeView, k.log.settled) + See(StrikeView, Buffer(k.chords)) == See(StrikeView, Input(calls, |calls|))
    ensures !ChordPending(k.chords) ==> See(StrikeView, k.log.settled) == See(StrikeView, Input(calls, |calls|))
  {
    hide Run, Input, OfClass, Positive, ChordFree, Conserved, Orderly, Turns, Reached;
    var start := ReachedTallies(c, k, calls);
    CourseFromNothing(start, k, Input(calls, |calls|), StrikeView);
  }

  /** The same for all events of each key, if each key is pressed and released in turn. */
  lemma KeysInOrder(c: Config, k: Kbd, calls: seq<seq<KeyEvent>>, x: Code)
    requires Reached(c, k, calls) && !k.core.overflow && OfClass(c, Undelayed) && Physical(x)
    requires forall y: Code | Physical(y) :: TakesTurns(See(KeyView(y), Input(calls, |calls|)))
    ensures See(KeyView(x), k.log.settled) + See(KeyView(x), Buffer(k.chords)) == See(KeyView(x), Input(calls, |calls|))
    ensures !ChordPending(k.chords) ==> See(KeyView(x), k.log.settled) == See(KeyView(x), Input(calls, |calls|))
  {
    hide Run, Input, OfClass, Positive, ChordFree, Conserved, Reached, TakesTurns;
    var start := ReachedTallies(c, k, calls);
    var input := Input(calls, |calls|);
    assert Orderly(start);
    forall y: Code | Physical(y) ensures KeyTurns(start, input, y) {
      assert See(KeyView(y), []) == [];
      assert Course(start, KeyView(y)) + See(KeyView(y), input) == See(KeyView(y), input);
    }
    assert InCourse(start, k, input, KeyView(x));
    CourseFromNothing(start, k, input, KeyView(x));
  }

  lemma CourseFromNothing(start: Kbd, k: Kbd, input: seq<KeyEvent>, v: View)
    requires InCourse(start, k, input, v)
    requires start.log == Log([], [], [], 0) && start.chords.phase == Inactive
    ensures See(v, k.log.settled) + See(v, Buffer(k.chords)) == See(v, input)
    ensures !ChordPending(k.chords) ==> See(v, k.log.settled) == See(v, input)
  {
    assert See(v, []) == [];
    assert [] + [] + See(v, input) == See(v, input);
  }

  /** In every run the synthetic events of a chord code are a press, a release, a press, ...;
      the last one is a press exactly while its chord is active, and an active chord still
      has a key that is held. */
  lemma ChordCodesTakeTurns(c: Config, k: Kbd, calls: seq<seq<KeyEvent>>, i: nat)
    requires Reached(c, k, calls) && i < MAX_ACTIVE_CHORDS
    ensures TakesTurns(Synthetic(k, i)) && |k.chords.active| == MAX_ACTIVE_CHORDS
    ensures k.chords.active[i].active <==> Synthetic(k, i) != [] && Synthetic(k, i)[|Synthetic(k, i)| - 1].pressed
    ensures k.chords.active[i].active ==> NonZero(k.chords.active[i].keys) != 0
  {
    assert ChordTurns(k, i) && |k.chords.active| == MAX_ACTIVE_CHORDS by { ReachedFacts(c, k, calls); }
    LastTurn(Synthetic(k, i));
  }

  lemma LastTurn(events: seq<KeyEvent>)
    requires TakesTurns(events)
    ensures |events| % 2 == 1 <==> events != [] && events[|events| - 1].pressed
  {
  }

  /** In every run, while a matched chord is pending, the first events of the queue, one for
      each key of the chord, are presses of its keys; with distinct keys they press exactly
      the keys of the chord. */
  lemma MatchIsPrefix(c: Config, k: Kbd, calls: seq<seq<KeyEvent>>)
    requires Reached(c, k, calls) && ChordPending(k.chords) && k.chords.match_.Some?
    ensures var keys := k.chords.match_.value.keys;
            1 <= |keys| <= |k.chords.queue| &&
            (forall i | 0 <= i < |keys| :: k.chords.queue[i].pressed && k.chords.queue[i].code in keys) &&
            (Distinct(Presses(k.chords.queue[..|keys|])) ==> Set(Presses(k.chords.queue[..|keys|])) == Set(keys))
  {
    var keys, queue := k.chords.match_.value.keys, k.chords.queue;
    assert Prefixed(k.chords.match_.value, queue) by { ReachedFacts(c, k, calls); }
    PrefixPresses(keys, queue[..|keys|]);
  }

  // -------------------------------------------------------------------------- quiescence

  lemma {:induction false} NoModsActive(c: Config, ls: seq<LayerState>, n: nat, m: Modifier)
    requires ConfigOk(c) && n <= |ls| == |c.layers|
    requires forall l | 0 <= l < |ls| && !IsLayout(c.layers, l) :: ls[l].active == 0
    ensures m !in ActiveMods(c.layers, ls, -1, n)
  {
    StartMods(c, ls, n);
  }

  /** With key sequences, layer() and overload() of a layer and a key sequence only: whenever
      no key is bound, every output key, modifiers included, is up and every layer that is no
      layout is inactive, whatever layer changes came between presses and releases. */
  lemma NothingHeldNothingDown(c: Config, k: Kbd, calls: seq<seq<KeyEvent>>)
    requires Reached(c, k, calls) && OfClass(c, Simple)
    requires forall i | 0 <= i < |k.core.cache| :: k.core.cache[i].code == 0
    ensures |k.core.out.keys| == 256 && forall code: Code :: !k.core.out.keys[code]
    ensures |k.core.lay.ls| == |c.layers| && forall l | 0 <= l < |c.layers| && !IsLayout(c.layers, l) ::
            k.core.lay.ls[l].active == 0
  {
    ReachedFacts(c, k, calls);
    ClassesNested(c);
    CoreQuiet(c, k.core, Clock(calls, |calls|));
  }

  lemma CoreQuiet(c: Config, k: Core, now: int)
    requires CoreInv(c, k, now) && OfClass(c, Simple) && OfClass(c, Steady) && forall i | 0 <= i < |k.cache| ::
             k.cache[i].code == 0
    ensures forall code: Code :: !k.out.keys[code]
    ensures forall l | 0 <= l < |c.layers| && !IsLayout(c.layers, l) :: k.lay.ls[l].active == 0
  {
    hide OfClass;
    forall l | 0 <= l < |c.layers| && !IsLayout(c.layers, l) ensures k.lay.ls[l].active == 0 {
      assert Net(k, l) == 0;
      HoldersEmpty(k.cache, |k.cache|, l);
    }
    forall code: Code ensures !k.out.keys[code] {
      if IsModifierKey(code) {
        var m :| KeyOf(m) == code;
        NoModsActive(c, k.lay.ls, |c.layers|, m);
      } else {
        assert KeyConsistent(k.out.keys[code], k.out.trace, code);
      }
    }
  }

  lemma BoundIsHeld(c: Config, k: Kbd, calls: seq<seq<KeyEvent>>, code: Code)
    requires Reached(c, k, calls) && OfClass(c, Simple) && ChordFree(c) && Holds(k.core.cache, code)
    ensures Held(Input(calls, |calls|), code)
  {
    hide Run, Input, See, OfClass, Positive, ChordFree;
    ClassesNested(c);
    assert !k.core.overflow && k.core.po.code == 0 && Held(k.log.passed, code) by { ReachedFacts(c, k, calls); }
    OrderKept(c, k, calls, KeyView(code));
  }

  /** The same in terms of the keyboard's own keys, without chords: when the last event of
      every key was its release, everything is up. */
  lemma AllReleasedAllUp(c: Config, k: Kbd, calls: seq<seq<KeyEvent>>)
    requires Reached(c, k, calls) && OfClass(c, Simple) && ChordFree(c)
    requires forall code: Code | code != 0 :: !Held(Input(calls, |calls|), code)
    ensures |k.core.out.keys| == 256 && forall code: Code :: !k.core.out.keys[code]
    ensures |k.core.lay.ls| == |c.layers| && forall l | 0 <= l < |c.layers| && !IsLayout(c.layers, l) ::
            k.core.lay.ls[l].active == 0
  {
    assert forall i | 0 <= i < |k.core.cache| :: k.core.cache[i].code == 0 by {
      forall i | 0 <= i < |k.core.cache| ensures k.core.cache[i].code == 0 {
        if k.core.cache[i].code != 0 {
          BoundIsHeld(c, k, calls, k.core.cache[i].code);
        }
      }
    }
    NothingHeldNothingDown(c, k, calls);
  }
}
