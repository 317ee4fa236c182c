/** Single steps of runs on given configurations, from which the runs that show what the engine
    does not do are put together. */
module Steps {
  import opened Keys
  import opened Configs
  import opened State
  import opened Cache
  import opened Actions
  import opened Events
  import opened Pending
  import opened Machine
  import opened RunLaws
  import opened Runs
  import opened Deadlines
  import Effects

  /** Main and an empty layer, with some keys of main bound. */
  function TwoLayers(bindings: map<Code, Descriptor>, table: seq<Descriptor>): (c: Config) {
    Config(
      [LayerDef(LayoutType, {}, Keymap(bindings), [], []), LayerDef(Normal, {}, Keymap(map[]), [], [])],
      table, [], 600, 0, 50, 0, 0, 50, 200, false)
  }

  function Keymap(bindings: map<Code, Descriptor>): (r: seq<Descriptor>)
    ensures |r| == 256 && forall x: Code :: r[x] == if x in bindings then bindings[x] else Nothing
  {
    seq(256, i requires 0 <= i < 256 => if i in bindings then bindings[i] else Nothing)
  }

  lemma TwoLayersOk(bindings: map<Code, Descriptor>, table: seq<Descriptor>)
    requires TableOk(TwoLayers(bindings, table).layers, table, 0)
    requires forall x | x in bindings :: WellFormed(TwoLayers(bindings, table).layers, table, 0, bindings[x])
    ensures ConfigOk(TwoLayers(bindings, table)) && ChordFree(TwoLayers(bindings, table))
  {
    var c := TwoLayers(bindings, table);
    forall i | 0 <= i < |table| ensures WellFormed(c.layers, table, 0, table[i]) {
      assert WellFormed(c.layers, table[..i], 0, table[i]);
    }
  }

  lemma OneMoreCall(c: Config, k: Kbd, calls: seq<seq<KeyEvent>>, e: KeyEvent)
    requires Reached(c, k, calls) && Ok(c, k) && Clock(calls, |calls|) <= e.timestamp
    ensures Reached(c, ProcessEvents(c, k, [e], 0, 0, 0).0, calls + [[e]])
  {
    hide ProcessEvents, Run, Ok, ReachedFrom;
    StillInTime(calls, e);
    ReachedNext(c, k, calls, [e]);
  }

  lemma StillInTime(calls: seq<seq<KeyEvent>>, e: KeyEvent)
    requires InTime(calls) && Clock(calls, |calls|) <= e.timestamp
    ensures InTime(calls + [[e]])
  {
    var after := calls + [[e]];
    assert forall i | 0 <= i < |calls| :: after[i] == calls[i];
    assert forall i | 0 <= i <= |calls| :: Clock(after, i) == Clock(calls, i);
  }

  /** Nothing is pending. */
  predicate Calm(k: Kbd) {
    !k.core.overflow && k.core.pt.code == 0 && k.core.po.code == 0 && k.core.lay.oneshotTimeout == 0 &&
    k.core.mac.active.None? && k.oq == []
  }

  /** Nothing but the dispatcher acts on an event the recogniser lets through. */
  lemma CalmPasses(c: Config, k: Kbd, e: KeyEvent)
    requires Ok(c, k) && Calm(k) && e.code != 0 && !HandleChord(c, k, e).1
    ensures var q := HandleChord(c, k, e).0;
            var core := DispatchKey(c, k.core, q.chords.active, e);
            var log := q.log.(passed := q.log.passed + [e], settled := q.log.settled + [e]);
            q.core == k.core && q.oq == [] && q.log == k.log &&
            ProcessEvent(c, k, e) == Exit(q.(core := core, log := log), e.timestamp)
  {
    hide CoreOk, ChordsOk, ProcessEvent, HandleChord, DispatchKey, Exit;
    PassesThrough(c, k, e);
  }

  /** A key event goes straight to the dispatcher when nothing is pending. */
  lemma GetsThrough(c: Config, k: Kbd, e: KeyEvent)
    requires Ok(c, k) && ChordFree(c) && NoChords(k.chords) && Calm(k) && e.code != 0
    ensures var (r, timeout) := ProcessEvents(c, k, [e], 0, 0, 0);
            var core := DispatchKey(c, k.core, k.chords.active, e);
            r.core == core.(timers := Later(core.timers, e.timestamp)) && NoChords(r.chords) && r.oq == []
  {
    hide Ok, ProcessEvents, HandleChord, DispatchKey, ChordFree;
    OneEvent(c, k, e);
    NoneRecognised(c, k, e);
    PassesThrough(c, k, e);
    StillNoChords(c, k, e);
  }

  lemma StillNoChords(c: Config, k: Kbd, e: KeyEvent)
    requires Ok(c, k) && ChordFree(c) && NoChords(k.chords) && !HandleChord(c, k, e).1
    ensures NoChords(HandleChord(c, k, e).0.chords) && HandleChord(c, k, e).0.chords.active == k.chords.active
    ensures HandleChord(c, k, e).0.oq == k.oq
  {
    hide CoreOk, MatchChord;
  }

  /** A binding of main is found whichever layers are active. */
  lemma FoundInMain(bindings: map<Code, Descriptor>, table: seq<Descriptor>, ls: seq<LayerState>,
                    active: seq<ActiveChord>, x: Code)
    requires ConfigOk(TwoLayers(bindings, table)) && ActiveOk(TwoLayers(bindings, table), active) && |ls| == 2
    requires x in bindings && !bindings[x].Nothing? && !IsChordCode(x) && ls[0].active > 0 && ls[0].activationTime >= 0
    ensures LookupDescriptor(TwoLayers(bindings, table), ls, active, x) == (bindings[x], 0)
  {
    hide ConfigOk, ActiveOk;
    var c := TwoLayers(bindings, table);
    assert BestComposite(c, ls, x, 0) == -1 && BestComposite(c, ls, x, 1) == -1 && BestComposite(c, ls, x, 2) == -1;
    assert BestActive(c, ls, x, 0) == -1 && BestActive(c, ls, x, 1) == 0 && BestActive(c, ls, x, 2) == 0;
  }

  /** Nothing was pressed yet. */
  ghost predicate Untouched(k: Core) {
    k.lay.ls == [LayerState(0, 1, false, 0), LayerState(0, 0, false, 0)] && k.timers == [] && !k.overflow &&
    |k.cache| == CACHE_SIZE && forall i | 0 <= i < CACHE_SIZE :: k.cache[i].code == 0
  }

  lemma StartUntouched(c: Config)
    requires |c.layers| == 2
    ensures var k := Start(c, None, 0);
            Untouched(k.core) && Calm(k) && NoChords(k.chords) && k.log.settled == [] && k.core.lay.clock == 0 &&
            |k.chords.active| == MAX_ACTIVE_CHORDS
  {
  }

  lemma FirstSlot(k: Core, code: Code)
    requires Untouched(k) && code != 0
    ensures Find(k.cache, code) == -1 && LastFree(k.cache, |k.cache|) == 15
  {
  }

  /** A press that gets through is bound in a free slot and acted on. */
  lemma PressBinds(c: Config, k: Core, active: seq<ActiveChord>, e: KeyEvent, slot: nat, d: Descriptor, dl: nat)
    requires CoreOk(c, k) && ActiveOk(c, active) && e.code != 0 && e.pressed
    requires Find(k.cache, e.code) == -1 && LastFree(k.cache, |k.cache|) == slot
    requires LookupDescriptor(c, k.lay.ls, active, e.code) == (d, dl)
    ensures slot < |k.cache|
    ensures var p := k.(cache := k.cache[slot := CacheEntry(e.code, d, dl, 0)]);
            CoreOk(c, p) && Find(p.cache, e.code) == slot &&
            DispatchKey(c, k, active, e) == Act(c, p, e.code, d, dl, true, e.timestamp)
  {
    hide LookupDescriptor, Act, ConfigOk, OfClass;
    PutOk(c, k.cache, e.code, CacheEntry(e.code, d, dl, 0));
    var p := k.(cache := k.cache[slot := CacheEntry(e.code, d, dl, 0)]);
    FindUnique(p.cache, e.code, slot);
  }

  /** The first press of a run is that of an overloadt(). */
  lemma DelayedPress(c: Config, k: Core, active: seq<ActiveChord>, e: KeyEvent, d: Descriptor)
    requires CoreOk(c, k) && ActiveOk(c, active) && Untouched(k) && e.code != 0 && e.pressed
    requires LookupDescriptor(c, k.lay.ls, active, e.code) == (d, 0) && d.OverloadTimeout? && d.action < |c.descriptors|
    ensures var r := DispatchKey(c, k, active, e);
            r.lay == k.lay && r.cache == k.cache[15 := CacheEntry(e.code, d, 0, 0)] && r.pt == k.pt && r.mac == k.mac &&
            r.timers == [e.timestamp + d.timeout] && !r.overflow &&
            r.po == PendingOverload(e.code, 0, e.timestamp + d.timeout, false, c.descriptors[d.action], Layer(d.layer))
  {
    hide ConfigOk, TimeoutOk, OverloadOk, RepeatableOk, LookupDescriptor;
    FirstSlot(k, e.code);
    PressBinds(c, k, active, e, 15, d, 0);
    hide CoreOk, OfClass, LookupDescriptor, DispatchKey, Find, Act;
    Effects.OverloadTimeoutWaits(c, k.(cache := k.cache[15 := CacheEntry(e.code, d, 0, 0)]), e.code, d, 0, e.timestamp);
    assert [] + [e.timestamp + d.timeout] == [e.timestamp + d.timeout];
  }

  /** A press that is part of a chord starts the recogniser. */
  lemma Begins(c: Config, k: Kbd, e: KeyEvent)
    requires Ok(c, k) && k.chords.phase == Inactive && e.code != 0 && e.pressed && |k.core.lay.ls| == |c.layers|
    requires var s := k.chords.(queue := [e], match_ := None, startCode := e.code);
             CheckChordMatch(c, k.core.lay.ls, s) == (1, None, s.matchLayer)
    ensures var s := k.chords.(queue := [e], match_ := None, startCode := e.code);
            HandleChord(c, k, e) ==
            (Await(k, s.(lastCodeTime := e.timestamp, phase := PendingDisambiguation),
              e.timestamp + c.chordInterkeyTimeout, 0),
             true)
  {
    hide Ok, ProcessEvent, ResolveChord, CheckChordMatch;
    var s := Enqueue(k.chords.(queue := [], match_ := None, startCode := e.code), e);
    assert [] + [e] == [e];
    LayersFact(c, k);
    assert Matched(c, k, s) == (1, s);
    assert StartChord(c, k, e) == (MatchChord(c, k, s, 1, e.timestamp), true);
  }

  lemma TakenByChord(c: Config, k: Kbd, e: KeyEvent)
    requires Ok(c, k) && HandleChord(c, k, e).1
    ensures ProcessEvent(c, k, e) == Exit(HandleChord(c, k, e).0, e.timestamp)
  {
    hide Ok, HandleChord, PassChord;
  }
}
