/** Presses that leave in another order than they came in. */
module LostOrder {
  import opened Keys
  import opened Configs
  import opened State
  import opened Layers
  import opened Cache
  import opened Actions
  import opened Events
  import opened Pending
  import opened Machine
  import opened Streams
  import opened Ledger
  import opened RunLaws
  import opened Runs
  import opened Deadlines
  import opened Steps

  /** overloadt(layer, a, 200) on one key, and the chord j+k, which is not held. */
  function Mixed(): Config {
    Config(
      [LayerDef(LayoutType, {}, Keymap(map[30 := OverloadTimeout(1, 0, 200)]), [Chord([36, 37], KeySequence(31, {}))],
        []),
       LayerDef(Normal, {}, Keymap(map[]), [], [])],
      [KeySequence(32, {})], [], 600, 0, 50, 0, 0, 50, 0, false)
  }

  const O_DOWN := KeyEvent(30, true, 0)
  const J_LATE := KeyEvent(36, true, 100)
  const K_LATE := KeyEvent(37, true, 190)

  lemma MixedOk()
    ensures ConfigOk(Mixed())
  {
    var c := Mixed();
    assert c.descriptors[..0] == [];
    forall l, k | 0 <= l < |c.layers| && 0 <= k < |c.layers[l].keymap|
      ensures WellFormed(c.layers, c.descriptors, |c.macros|, c.layers[l].keymap[k])
    {
      assert c.layers[l].keymap[k] in {OverloadTimeout(1, 0, 200), Nothing};
    }
    MixedTables();
  }

  lemma MixedTables()
    ensures var c := Mixed();
            TableOk(c.layers, c.descriptors, 0) &&
            forall l, k | 0 <= l < |c.layers| && 0 <= k < |c.layers[l].chords| ::
              ChordOk(c.layers[l].chords[k]) && WellFormed(c.layers, c.descriptors, 0, c.layers[l].chords[k].d)
  {
    assert Mixed().descriptors[..0] == [];
  }

  lemma MixedPresses()
    ensures Presses([O_DOWN]) == [30] && Presses([J_LATE]) == [36] && Presses([K_LATE]) == [37]
    ensures Presses([K_LATE, J_LATE]) == [37, 36]
  {
    assert [O_DOWN][..0] == [] && [J_LATE][..0] == [] && [K_LATE][..0] == [];
    assert [K_LATE, J_LATE][..1] == [K_LATE];
  }

  /** What check_chord_match makes of the queues. */
  lemma ScanMixed(ls: seq<LayerState>, s: Chords)
    requires |ls| == 2 && ls[0].active > 0 && ls[0].activationTime == 0
    ensures s.queue == [O_DOWN] ==> CheckChordMatch(Mixed(), ls, s) == (0, s.match_, s.matchLayer)
    ensures s.queue == [J_LATE] || s.queue == [K_LATE] ==> CheckChordMatch(Mixed(), ls, s) == (1, s.match_,
            s.matchLayer)
    ensures s.queue == [K_LATE, J_LATE] ==>
              CheckChordMatch(Mixed(), ls, s) == (2, Some(Mixed().layers[0].chords[0]), 0)
  {
    var c, start := Mixed(), Scan(false, false, s.match_, s.matchLayer, -1);
    var jk := c.layers[0].chords[0];
    MixedPresses();
    assert ScanLayers(c, ls, s.queue, 0, start) == start;
    assert ScanChords(c, ls, s.queue, 0, 0, start) == start;
    var one := ScanChords(c, ls, s.queue, 0, 1, start);
    assert ScanLayers(c, ls, s.queue, 1, start) == one;
    assert |c.layers[1].chords| == 0 && ScanChords(c, ls, s.queue, 1, 0, one) == one;
    assert ScanLayers(c, ls, s.queue, 2, start) == one;
    if s.queue == [O_DOWN] {
      assert Presses(s.queue)[0] !in jk.keys;
    } else if s.queue == [J_LATE] || s.queue == [K_LATE] {
      assert ChordEventMatch(jk, s.queue) == 1;
    } else if s.queue == [K_LATE, J_LATE] {
      assert ChordEventMatch(jk, s.queue) == 2;
    }
  }

  /** overloadt() is pending and holds events back. */
  ghost predicate MixedWaits(k: Kbd, queue: seq<KeyEvent>, timers: seq<int>) {
    !k.core.overflow && k.core.pt.code == 0 && k.core.lay.oneshotTimeout == 0 && k.core.mac.active.None? &&
    k.core.po == PendingOverload(30, 0, 200, false, KeySequence(32, {}), Layer(1)) && k.oq == queue &&
    k.core.timers == timers && k.core.lay.ls == [LayerState(0, 1, false, 0), LayerState(0, 0, false, 0)] &&
    |k.core.cache| == CACHE_SIZE && k.core.cache[15].code == 30 &&
      (forall i | 0 <= i < 15 :: k.core.cache[i].code == 0) &&
    k.log.settled == [O_DOWN] && |k.chords.active| == MAX_ACTIVE_CHORDS && !k.chords.active[0].active &&
    forall i | 0 <= i < |k.chords.active| :: !k.chords.active[i].active
  }

  lemma MixedFound(ls: seq<LayerState>, active: seq<ActiveChord>)
    requires ConfigOk(Mixed()) && ActiveOk(Mixed(), active) &&
             ls == [LayerState(0, 1, false, 0), LayerState(0, 0, false, 0)]
    ensures LookupDescriptor(Mixed(), ls, active, 30) == (OverloadTimeout(1, 0, 200), 0)
  {
    hide ConfigOk, ActiveOk;
    var c := Mixed();
    assert BestComposite(c, ls, 30, 0) == -1 && BestComposite(c, ls, 30, 1) == -1 && BestComposite(c, ls, 30, 2) == -1;
    assert BestActive(c, ls, 30, 0) == -1 && BestActive(c, ls, 30, 1) == 0 && BestActive(c, ls, 30, 2) == 0;
  }

  lemma MixedLayers()
    ensures |Mixed().layers| == 2 && Mixed().descriptors == [KeySequence(32, {})] && Mixed().chordInterkeyTimeout == 50
  {
  }

  lemma MixedTimers()
    ensures Later([200], 0) == [200] && Later([200, 150], 100) == [200, 150] && Later([200, 150], 150) == [200]
    ensures Later([200, 240], 190) == [200, 240]
  {
    assert [200][..0] == [] && [200, 150][..1] == [200] && [200, 240][..1] == [200];
    assert Later([], 0) == [] && Later([], 100) == [] && Later([], 150) == [] && Later([], 190) == [];
    assert Later([200, 150], 100) == [200] + [150];
    assert Later([200, 240], 190) == [200] + [240];
  }

  /** overloadt() is pressed: no chord begins. */
  lemma MixedDown(k: Kbd)
    requires Ok(Mixed(), k) && k == Start(Mixed(), None, 0)
    ensures var r := ProcessEvents(Mixed(), k, [O_DOWN], 0, 0, 0).0;
            MixedWaits(r, [], [200]) && r.chords.phase == Inactive
  {
    hide CoreOk, ActiveOk, ProcessEvents, ProcessEvent, DispatchKey, HandleChord, LookupDescriptor, Mixed, Start, Later;
    var c := Mixed();
    MixedLayers();
    StartUntouched(Mixed());
    NoneBegins(k);
    OneEvent(c, k, O_DOWN);
    CalmPasses(c, k, O_DOWN);
    MixedOk();
    MixedFound(k.core.lay.ls, k.chords.active);
    DelayedPress(c, k.core, k.chords.active, O_DOWN, OverloadTimeout(1, 0, 200));
    MixedTimers();
    assert [] + [O_DOWN] == [O_DOWN];
  }

  lemma NoneBegins(k: Kbd)
    requires Ok(Mixed(), k) && NoChords(k.chords) && Untouched(k.core)
    ensures var r := HandleChord(Mixed(), k, O_DOWN); !r.1 && r.0 == k.(chords := r.0.chords) && NoChords(r.0.chords)
    ensures HandleChord(Mixed(), k, O_DOWN).0.chords.active == k.chords.active
  {
    hide CoreOk, ActiveOk, MatchChord;
    var s := Enqueue(k.chords.(queue := [], match_ := None, startCode := 30), O_DOWN);
    assert s.queue == [O_DOWN];
    LayersFact(Mixed(), k);
    ScanMixed(k.core.lay.ls, s);
  }

  /** j begins a chord. */
  lemma MixedJ(k: Kbd)
    requires Ok(Mixed(), k) && MixedWaits(k, [], [200]) && k.chords.phase == Inactive
    ensures var r := ProcessEvents(Mixed(), k, [J_LATE], 0, 0, 0).0;
            MixedWaits(r, [], [200, 150]) && r.chords.phase == PendingDisambiguation && r.chords.queue == [J_LATE] &&
            r.chords.match_.None? && r.chords.lastCodeTime == 100
  {
    hide Ok, ProcessEvents, ProcessEvent, HandleChord, CheckChordMatch, Mixed, Later;
    MixedLayers();
    OneEvent(Mixed(), k, J_LATE);
    ScanMixed(k.core.lay.ls, k.chords.(queue := [J_LATE], match_ := None, startCode := 36));
    Begins(Mixed(), k, J_LATE);
    TakenByChord(Mixed(), k, J_LATE);
    assert [200] + [150] == [200, 150];
    MixedTimers();
  }

  /** k begins another one. */
  lemma MixedK(k: Kbd)
    requires Ok(Mixed(), k) && MixedWaits(k, [J_LATE], [200]) && k.chords.phase == Inactive
    ensures var r := ProcessEvents(Mixed(), k, [K_LATE], 0, 0, 0).0;
            MixedWaits(r, [J_LATE], [200, 240]) && r.chords.phase == PendingDisambiguation &&
              r.chords.queue == [K_LATE] &&
            r.chords.match_.None? && r.chords.lastCodeTime == 190
  {
    hide Ok, ProcessEvents, ProcessEvent, HandleChord, CheckChordMatch, Mixed, Later;
    MixedLayers();
    OneEvent(Mixed(), k, K_LATE);
    ScanMixed(k.core.lay.ls, k.chords.(queue := [K_LATE], match_ := None, startCode := 37));
    Begins(Mixed(), k, K_LATE);
    TakenByChord(Mixed(), k, K_LATE);
    assert [200] + [240] == [200, 240];
    MixedTimers();
  }

  /** While a chord is resolved, j waits for the overload. */
  lemma ResolvingQueues(p: Kbd)
    requires Ok(Mixed(), p) && MixedWaits(p, [], [200, 150]) && p.chords.phase == Resolving
    ensures ProcessEvents(Mixed(), p, [J_LATE], 0, 0, 0).0 == p.(oq := [J_LATE])
  {
    hide Ok, ProcessEvents, Mixed, Later;
    var c := Mixed();
    OneEvent(c, p, J_LATE);
    assert HandleChord(c, p, J_LATE) == (p, false);
    assert HandlePendingTimeout(c, p.core, J_LATE) == p.core;
    assert [] + [J_LATE] == [J_LATE];
    assert HandlePendingOverload(c, p, J_LATE) == (p.(oq := [J_LATE]), true);
    MixedTimers();
    assert p.(oq := [J_LATE], core := p.core.(timers := [200, 150])) == p.(oq := [J_LATE]);
  }

  lemma TickAborts(k: Kbd)
    requires Ok(Mixed(), k) && MixedWaits(k, [], [200, 150]) && k.chords.phase == PendingDisambiguation
    requires k.chords.queue == [J_LATE] && k.chords.match_.None? && k.chords.lastCodeTime == 100
    ensures HandleChord(Mixed(), k, KeyEvent(0, false, 150)) ==
            (k.(oq := [J_LATE], chords := k.chords.(phase := Inactive)), true)
  {
    hide CoreOk, ActiveOk, ProcessEvents, ProcessEvent;
    var p := k.(chords := k.chords.(phase := Resolving));
    ResolvingQueues(p);
    assert Replay(Mixed(), p, [J_LATE]) == k.(oq := [J_LATE], chords := k.chords.(phase := Inactive));
    assert ResolveChord(Mixed(), k, k.chords) == Replay(Mixed(), p, [J_LATE]);
  }

  /** The tick that gives the chord up. */
  lemma MixedAbort(k: Kbd)
    requires Ok(Mixed(), k) && MixedWaits(k, [], [200, 150]) && k.chords.phase == PendingDisambiguation
    requires k.chords.queue == [J_LATE] && k.chords.match_.None? && k.chords.lastCodeTime == 100
    ensures var r := ProcessEvents(Mixed(), k, [KeyEvent(0, false, 150)], 0, 0, 0).0;
            MixedWaits(r, [J_LATE], [200]) && r.chords.phase == Inactive
  {
    hide Ok, ProcessEvents, HandleChord, PassChord, Mixed, Later;
    OneEvent(Mixed(), k, KeyEvent(0, false, 150));
    TickAborts(k);
    MixedTimers();
  }

  /** The queue of the recogniser after the flush: j, which was pressed first, comes last. */
  ghost predicate Reversed(p: Kbd) {
    !p.core.overflow && p.core.pt.code == 0 && p.core.po.code == 0 && p.core.lay.oneshotTimeout == 0 &&
    p.core.mac.active.None? && p.oq == [] && |p.core.lay.ls| == 2 && p.core.lay.ls[0] == LayerState(0, 1, false, 0) &&
    p.chords.phase == PendingDisambiguation && p.chords.queue == [K_LATE] && p.chords.match_.None? &&
    p.log.settled == [O_DOWN] && |p.chords.active| == MAX_ACTIVE_CHORDS && !p.chords.active[0].active
  }

  /** The synthetic press of the chord. */
  lemma ChordPressed(q: Kbd, press: KeyEvent)
    requires Ok(Mixed(), q) && Calm(q) && q.chords.phase == Resolving && press == KeyEvent(CHORD_1, true, 100)
    requires q.chords.active[0].d.KeySequence?
    ensures var r := ProcessEvent(Mixed(), q, press).0;
            r.log.settled == q.log.settled + [press] && r.oq == [] && !r.core.overflow && r.chords == q.chords
  {
    hide CoreOk, ProcessEvent, HandlePendingOverload, Mixed, DispatchKey, Later;
    var c := Mixed();
    assert HandleChord(c, q, press) == (q, false);
    CalmPasses(c, q, press);
    KeySequenceNoOverflow(c, q.core, q.chords.active, press);
  }

  lemma KeySequenceNoOverflow(c: Config, k: Core, active: seq<ActiveChord>, e: KeyEvent)
    requires CoreOk(c, k) && ActiveOk(c, active) && e.pressed && e.code == CHORD_1 && active[0].d.KeySequence?
    ensures DispatchKey(c, k, active, e).overflow == k.overflow
  {
    hide OfClass, Act, ConfigOk;
    var d, dl := active[0].d, active[0].layer;
    assert LookupDescriptor(c, k.lay.ls, active, e.code) == (d, dl);
    var entry := CacheEntry(e.code, d, dl, 0);
    if Find(k.cache, e.code) == -1 && SlotFor(k.cache, e.code) != -1 {
      PutOk(c, k.cache, e.code, entry);
      StruckNoOverflow(c, k.(cache := Put(k.cache, e.code, entry)), e.code, d, dl, e.timestamp);
    }
  }

  lemma StruckNoOverflow(c: Config, k: Core, code: Code, d: Descriptor, dl: nat, time: int)
    requires CoreOk(c, k) && d.KeySequence? && Allowed(c, d) && dl < |c.layers| && code != 0
    ensures Act(c, k, code, d, dl, true, time).overflow == k.overflow
  {
    hide CoreOk, OfClass, UpdateMods;
    assert ActSwitch(c, k, code, d, dl, true, time) == ActKeySequence(c, k, d, dl, true, time);
  }

  /** The chord is recognised with its keys in the wrong order. */
  lemma ReversedChord(p: Kbd)
    requires Ok(Mixed(), p) && Reversed(p)
    ensures var r := ProcessEvents(Mixed(), p, [J_LATE], 0, 0, 0).0;
            r.log.settled == [O_DOWN, K_LATE, J_LATE, KeyEvent(CHORD_1, true, 100)] && r.oq == [] && !r.core.overflow &&
            r.chords.phase == Inactive
  {
    hide CoreOk, ActiveOk, ProcessEvents, ProcessEvent, HandleChord;
    OneEvent(Mixed(), p, J_LATE);
    var r := ReversedMatch(p);
  }

  lemma ReversedMatch(p: Kbd) returns (r: Kbd)
    requires Ok(Mixed(), p) && Reversed(p)
    ensures (r, true) == HandleChord(Mixed(), p, J_LATE)
    ensures ProcessEvent(Mixed(), p, J_LATE) == Exit(r, 100)
    ensures r.log.settled == [O_DOWN, K_LATE, J_LATE, KeyEvent(CHORD_1, true, 100)] && r.oq == [] && !r.core.overflow
    ensures r.chords.phase == Inactive
  {
    hide CoreOk, ActiveOk, ProcessEvents, ProcessEvent, CheckChordMatch, PressChord, Replay;
    var c := Mixed();
    var s := Enqueue(p.chords, J_LATE);
    assert s.queue == [K_LATE, J_LATE];
    LayersFact(c, p);
    ExtendOk(c, p, J_LATE);
    ScanMixed(p.core.lay.ls, s);
    var t := s.(match_ := Some(c.layers[0].chords[0]), matchLayer := 0);
    assert Matched(c, p, s) == (2, t);
    assert ExtendChord(c, p, J_LATE) == MatchChord(c, p, t, 2, 100);
    r := ResolveChord(c, p, t.(lastCodeTime := 100));
    ReversedResolution(p, t.(lastCodeTime := 100));
    assert HandleChord(c, p, J_LATE) == (r, true);
    TakenByChord(c, p, J_LATE);
  }

  lemma ReversedResolution(p: Kbd, t: Chords)
    requires Ok(Mixed(), p) && Reversed(p) && ResolvableOk(Mixed(), p, t)
    requires t.queue == [K_LATE, J_LATE] && t.match_ == Some(Mixed().layers[0].chords[0]) && t.lastCodeTime == 100
    ensures var r := ResolveChord(Mixed(), p, t);
            r.log.settled == [O_DOWN, K_LATE, J_LATE, KeyEvent(CHORD_1, true, 100)] && r.oq == [] && !r.core.overflow &&
            r.chords.phase == Inactive
  {
    hide CoreOk, ActiveOk, ProcessEvent;
    var c := Mixed();
    var q := p.(chords := t.(phase := Resolving));
    var press := KeyEvent(CHORD_1, true, 100);
    assert FindFree(t.active, 1) == 0 && FindFree(t.active, 2) == 0 && FindFree(t.active, 3) == 0;
    assert t.queue[..2] == [K_LATE, J_LATE] && t.queue[2..] == [];
    var settled := Settle(ActivateChord(c, q, 0, c.layers[0].chords[0], t.matchLayer), [K_LATE, J_LATE], [press]);
    ChordPressed(settled, press);
    var r := PressChord(c, q, 0, t);
    BatchEnds(c, r, [], 0, 0, 0);
    assert [O_DOWN] + [K_LATE, J_LATE] + [press] == [O_DOWN, K_LATE, J_LATE, press];
  }

  /** The tick that resolves the overload: j is replayed behind k. */
  lemma MixedFlush(k: Kbd)
    requires Ok(Mixed(), k) && MixedWaits(k, [J_LATE], [200, 240]) && k.chords.phase == PendingDisambiguation
    requires k.chords.queue == [K_LATE] && k.chords.match_.None? && k.chords.lastCodeTime == 190
    ensures var r := ProcessEvents(Mixed(), k, [KeyEvent(0, false, 200)], 0, 0, 0).0;
            r.log.settled == [O_DOWN, K_LATE, J_LATE, KeyEvent(CHORD_1, true, 100)] && r.oq == [] && !r.core.overflow &&
            r.chords.phase == Inactive
  {
    hide ActiveOk, CacheOk, ConfigOk, ProcessEvents, DispatchKey, ResolveOverload, ResolveChord, ExtendChord,
         StartChord, HoldChord;
    var c, tick := Mixed(), KeyEvent(0, false, 200);
    OneEvent(c, k, tick);
    assert HandleChord(c, k, tick) == (k, false);
    hide Mixed, HandleChord;
    MixedResolve(k.core);
    var p := k.(core := ResolveOverload(c, k.core, Layer(1), 200), oq := []);
    ReversedChord(p);
    assert Resolution(k.core.po, tick) == Layer(1);
    assert HandlePendingOverload(c, k, tick) == (ProcessEvents(c, p, [J_LATE], 0, 0, 0).0, true);
  }

  lemma MixedResolve(k: Core)
    requires CoreOk(Mixed(), k) && k.po == PendingOverload(30, 0, 200, false, KeySequence(32, {}), Layer(1))
    requires k.cache[15].code == 30 && (forall i | 0 <= i < 15 :: k.cache[i].code == 0) && k.pt.code == 0
    requires k.lay.ls == [LayerState(0, 1, false, 0), LayerState(0, 0, false, 0)] && k.mac.active.None?
    ensures var r := ResolveOverload(Mixed(), k, Layer(1), 200);
            r.pt == k.pt && r.po.code == 0 && r.mac == k.mac && r.timers == k.timers && r.overflow == k.overflow &&
            r.lay == Activate(k.lay, 1)
  {
    var c, po := Mixed(), k.po;
    assert Find(k.cache, 30) == 15;
    PutOk(c, k.cache, 30, CacheEntry(0, Layer(1), 0, 0));
    var p := k.(po := po.(code := 0), cache := Put(k.cache, 30, CacheEntry(0, Layer(1), 0, 0)));
    hide OfClass, UpdateMods, CacheOk, ConfigOk, TimeoutOk;
    assert ActSwitch(c, p, 30, Layer(1), 0, true, 200) == ActLayer(c, p, 30, Layer(1), true);
  }

  lemma MixedSeen()
    ensures See(StrikeView, [O_DOWN, K_LATE, J_LATE, KeyEvent(CHORD_1, true, 100)]) == [O_DOWN, K_LATE, J_LATE]
    ensures See(StrikeView, [O_DOWN, J_LATE, K_LATE]) == [O_DOWN, J_LATE, K_LATE]
  {
    var v, press := StrikeView, KeyEvent(CHORD_1, true, 100);
    SeeThree(v, O_DOWN, K_LATE, J_LATE);
    SeeThree(v, O_DOWN, J_LATE, K_LATE);
    assert [O_DOWN, K_LATE, J_LATE, press] == [O_DOWN, K_LATE, J_LATE] + [press];
    SeeConcat(v, [O_DOWN, K_LATE, J_LATE], [press]);
    SeeOne(v, press);
  }

  lemma SeeThree(v: View, a: KeyEvent, b: KeyEvent, c: KeyEvent)
    requires Shows(v, a) && Shows(v, b) && Shows(v, c)
    ensures See(v, [a, b, c]) == [a, b, c]
  {
    assert [a, b, c] == [a] + [b] + [c];
    SeeConcat(v, [a] + [b], [c]);
    SeeConcat(v, [a], [b]);
    SeeOne(v, a);
    SeeOne(v, b);
    SeeOne(v, c);
  }

  const FIRST_TICK := KeyEvent(0, false, 150)
  const SECOND_TICK := KeyEvent(0, false, 200)

  lemma MixedInput()
    ensures var calls := [[O_DOWN], [J_LATE], [FIRST_TICK], [K_LATE], [SECOND_TICK]];
            Input(calls, 5) == [O_DOWN, J_LATE, K_LATE]
  {
    var calls := [[O_DOWN], [J_LATE], [FIRST_TICK], [K_LATE], [SECOND_TICK]];
    assert forall e: KeyEvent :: [e][1..] == [] && Reals([e]) == Real(e);
    assert Input(calls, 0) == [] && Input(calls, 1) == [O_DOWN] && Input(calls, 2) == [O_DOWN] + [J_LATE];
    assert Input(calls, 3) == Input(calls, 2) + [] && Input(calls, 4) == Input(calls, 3) + [K_LATE];
    assert Input(calls, 5) == Input(calls, 4) + [];
  }

  /** An overload is pending; j, which could have begun a chord, waits behind it; k begins one.
      The tick that resolves the overload replays j behind k: j was pressed before k and is
      settled after it, and the two make a chord although they were pressed 90 apart. */
  lemma OrderLost() returns (calls: seq<seq<KeyEvent>>, r: Kbd)
    ensures calls == [[O_DOWN], [J_LATE], [FIRST_TICK], [K_LATE], [SECOND_TICK]] && Reached(Mixed(), r, calls)
    ensures !r.core.overflow && r.oq == [] && Buffer(r.chords) == []
    ensures See(StrikeView, Input(calls, |calls|)) == [O_DOWN, J_LATE, K_LATE]
    ensures See(StrikeView, r.log.settled) == [O_DOWN, K_LATE, J_LATE]
  {
    hide Ok, ProcessEvents, Reached, Mixed, Start, MixedWaits, See, Input;
    var c := Mixed();
    MixedOk();
    ReachedStart(c, None, 0);
    StartKeeps(c, None, 0);
    var k := Start(c, None, 0);
    MixedDown(k);
    var r1 := ProcessEvents(c, k, [O_DOWN], 0, 0, 0).0;
    OneMoreCall(c, k, [], O_DOWN);
    MixedJ(r1);
    var r2 := ProcessEvents(c, r1, [J_LATE], 0, 0, 0).0;
    OneMoreCall(c, r1, [] + [[O_DOWN]], J_LATE);
    MixedAbort(r2);
    var r3 := ProcessEvents(c, r2, [FIRST_TICK], 0, 0, 0).0;
    OneMoreCall(c, r2, [] + [[O_DOWN]] + [[J_LATE]], FIRST_TICK);
    MixedK(r3);
    var r4 := ProcessEvents(c, r3, [K_LATE], 0, 0, 0).0;
    OneMoreCall(c, r3, [] + [[O_DOWN]] + [[J_LATE]] + [[FIRST_TICK]], K_LATE);
    MixedFlush(r4);
    r := ProcessEvents(c, r4, [SECOND_TICK], 0, 0, 0).0;
    OneMoreCall(c, r4, [] + [[O_DOWN]] + [[J_LATE]] + [[FIRST_TICK]] + [[K_LATE]], SECOND_TICK);
    calls := [[O_DOWN], [J_LATE], [FIRST_TICK], [K_LATE], [SECOND_TICK]];
    assert [] + [[O_DOWN]] + [[J_LATE]] + [[FIRST_TICK]] + [[K_LATE]] + [[SECOND_TICK]] == calls;
    MixedInput();
    MixedSeen();
  }
}
