/** A swap that takes the wrong activation, so that one is given up twice. */
module StaleMark {
  import opened Keys
  import opened Configs
  import opened State
  import opened Layers
  import opened Cache
  import opened Actions
  import opened Events
  import opened Pending
  import opened Machine
  import opened RunLaws
  import opened Runs
  import opened Steps

  /** Keys 30, 31 and 32 of main are layer(one), toggle(one) and toggle(one); key 33 of layer one
      is swap(two). */
  function Swapping(): Config {
    Config(
      [LayerDef(LayoutType, {}, Keymap(map[30 := Layer(1), 31 := Toggle(1), 32 := Toggle(1)]), [], []),
       LayerDef(Normal, {}, Keymap(map[33 := Swap(2)]), [], []),
       LayerDef(Normal, {}, Keymap(map[]), [], [])],
      [], [], 600, 0, 50, 0, 0, 50, 200, false)
  }

  lemma SwappingOk()
    ensures ConfigOk(Swapping())
  {
    hide OfClass;
    var c := Swapping();
    assert forall d: Descriptor | d in {Layer(1), Toggle(1), Swap(2), Nothing} :: WellFormed(c.layers, [], 0, d);
    forall l, k | 0 <= l < |c.layers| && 0 <= k < |c.layers[l].keymap|
      ensures WellFormed(c.layers, c.descriptors, |c.macros|, c.layers[l].keymap[k])
    {
      assert c.layers[l].keymap[k] in {Layer(1), Toggle(1), Swap(2), Nothing};
    }
  }

  lemma SwappingLayers()
    ensures ChordFree(Swapping()) && |Swapping().layers| == 3 && Swapping().layers[1].kind == Normal
  {
  }

  /** The states of the layers, and the slots from 12 on; all other slots are free. */
  ghost predicate At(k: Kbd, one: LayerState, two: LayerState, clock: nat, slots: seq<CacheEntry>) {
    Calm(k) && NoChords(k.chords) && k.core.lay.ls == [LayerState(0, 1, false, 0), one, two] &&
    k.core.lay.clock == clock && !k.core.lay.underflow && Slots(k.core.cache, slots)
  }

  ghost predicate Slots(cache: seq<CacheEntry>, slots: seq<CacheEntry>) {
    |cache| == CACHE_SIZE && |slots| == 4 && (forall i | 0 <= i < 12 :: cache[i].code == 0) &&
    cache[12] == slots[0] && cache[13] == slots[1] && cache[14] == slots[2] && cache[15] == slots[3]
  }

  const OFF := LayerState(0, 0, false, 0)

  lemma SwappingFound(ls: seq<LayerState>, active: seq<ActiveChord>, x: Code)
    requires ConfigOk(Swapping()) && ActiveOk(Swapping(), active) && |ls| == 3
    requires ls[0] == LayerState(0, 1, false, 0) && ls[1].activationTime >= 0
    ensures x in {30, 31, 32} ==>
              LookupDescriptor(Swapping(), ls, active, x) == (if x == 30 then Layer(1) else Toggle(1), 0)
    ensures x == 33 && ls[1].active > 0 ==> LookupDescriptor(Swapping(), ls, active, x) == (Swap(2), 1)
  {
    hide ConfigOk, ActiveOk;
    var c := Swapping();
    assert BestComposite(c, ls, x, 0) == -1 && BestComposite(c, ls, x, 1) == -1 && BestComposite(c, ls, x, 2) == -1;
    assert BestComposite(c, ls, x, 3) == -1 && BestActive(c, ls, x, 0) == -1;
    if x in {30, 31, 32} {
      assert BestActive(c, ls, x, 1) == 0 && BestActive(c, ls, x, 2) == 0 && BestActive(c, ls, x, 3) == 0;
    } else if x == 33 && ls[1].active > 0 {
      assert BestActive(c, ls, x, 1) == -1 && BestActive(c, ls, x, 2) == 1 && BestActive(c, ls, x, 3) == 1;
    }
  }

  /** Only layers, bindings, output and memory change. */
  ghost predicate OnlyLayers(k: Core, r: Core) {
    r == k.(lay := r.lay, cache := r.cache, out := r.out, memo := r.memo)
  }

  lemma LayerPress(c: Config, k: Core, code: Code, d: Descriptor, dl: nat, time: int)
    requires CoreOk(c, k) && d.Layer? && Allowed(c, d) && dl < |c.layers| && code != 0
    ensures var r := Act(c, k, code, d, dl, true, time);
            OnlyLayers(k, r) && r.lay == Activate(k.lay, d.layer) && r.cache == MarkLayer(k.cache, code, d.layer)
  {
    hide CoreOk, OfClass, UpdateMods, MarkLayer, Activate;
    assert ActSwitch(c, k, code, d, dl, true, time) == ActLayer(c, k, code, d, true);
  }

  lemma LayerRelease(c: Config, k: Core, code: Code, d: Descriptor, dl: nat, time: int)
    requires CoreOk(c, k) && d.Layer? && Allowed(c, d) && dl < |c.layers| && code != 0
    ensures Act(c, k, code, d, dl, false, time).lay == Deactivate(k.lay, d.layer)
  {
    hide CoreOk, OfClass, UpdateMods;
    assert ActSwitch(c, k, code, d, dl, false, time) == ActLayer(c, k, code, d, false);
  }

  lemma TogglePress(c: Config, k: Core, code: Code, d: Descriptor, dl: nat, time: int)
    requires CoreOk(c, k) && d.Toggle? && Allowed(c, d) && dl < |c.layers| && code != 0
    ensures var r := Act(c, k, code, d, dl, true, time);
            OnlyLayers(k, r) && r.lay == ClearOneshot(FlipToggle(k.lay, d.layer)) &&
            r.cache == if k.lay.ls[d.layer].toggled then k.cache else MarkLayer(k.cache, code, d.layer)
  {
    hide CoreOk, OfClass, UpdateMods, MarkLayer, FlipToggle, ClearOneshot;
    assert ActSwitch(c, k, code, d, dl, true, time) == ActToggle(c, k, code, d, true);
  }

  lemma SwapPress(c: Config, k: Core, code: Code, d: Descriptor, dl: nat, time: int)
    requires CoreOk(c, k) && d.Swap? && Allowed(c, d) && dl < |c.layers| && code != 0
    requires !k.lay.ls[dl].toggled && k.lay.ls[dl].depth == 0
    ensures var r, i := Act(c, k, code, d, dl, true, time), FindActivator(c, k.cache, dl, |k.cache|);
            OnlyLayers(k, r) &&
            (i != -1 ==>
               r.lay == Activate(Deactivate(k.lay, dl), d.layer).(strayed := r.lay.strayed) &&
               r.cache == MarkLayer(k.cache[i := k.cache[i].(d := Layer(d.layer))], k.cache[i].code, d.layer))
  {
    hide CoreOk, OfClass, UpdateMods, FindActivator;
    assert ActSwitch(c, k, code, d, dl, true, time) == ActSwapM(c, k, d, dl, true);
  }

  lemma SwappingStart()
    ensures At(Start(Swapping(), None, 0), OFF, OFF, 0, [NO_ENTRY, NO_ENTRY, NO_ENTRY, NO_ENTRY])
  {
    SwappingLayers();
  }

  /** A press that binds its key in a slot and only changes layers. */
  lemma SwappingPress(k: Kbd, e: KeyEvent, slot: nat, d: Descriptor, dl: nat)
    requires Ok(Swapping(), k) && Calm(k) && NoChords(k.chords) && e.code != 0 && e.pressed
    requires Find(k.core.cache, e.code) == -1 && LastFree(k.core.cache, |k.core.cache|) == slot
    requires LookupDescriptor(Swapping(), k.core.lay.ls, k.chords.active, e.code) == (d, dl)
    ensures slot < |k.core.cache| && dl < |Swapping().layers|
    ensures var p := k.core.(cache := k.core.cache[slot := CacheEntry(e.code, d, dl, 0)]);
            var r := ProcessEvents(Swapping(), k, [e], 0, 0, 0).0;
            CoreOk(Swapping(), p) && Find(p.cache, e.code) == slot && Allowed(Swapping(), d) &&
            var a := Act(Swapping(), p, e.code, d, dl, true, e.timestamp);
            r.core == a.(timers := r.core.timers) && r.oq == [] && NoChords(r.chords)
  {
    hide CoreOk, ActiveOk, ProcessEvents, LookupDescriptor, DispatchKey, Act, Swapping, Find, OfClass;
    SwappingLayers();
    GetsThrough(Swapping(), k, e);
    PressBinds(Swapping(), k.core, k.chords.active, e, slot, d, dl);
  }

  lemma FreeSlot(cache: seq<CacheEntry>, slots: seq<CacheEntry>, n: nat, x: Code)
    requires Slots(cache, slots) && n < 4 && x != 0 && forall i | 0 <= i < 4 :: slots[i].code != x
    requires slots[n].code == 0 && forall i | n < i < 4 :: slots[i].code != 0
    ensures LastFree(cache, |cache|) == 12 + n && Find(cache, x) == -1
  {
    assert LastFree(cache, 16) == if n == 3 then 15 else LastFree(cache, 15);
    assert n < 3 ==> LastFree(cache, 15) == if n == 2 then 14 else LastFree(cache, 14);
    assert n < 2 ==> LastFree(cache, 14) == if n == 1 then 13 else LastFree(cache, 13);
    assert n == 0 ==> LastFree(cache, 13) == 12;
  }

  lemma ActiveChordsOk(c: Config, k: Kbd)
    requires Ok(c, k)
    ensures ActiveOk(c, k.chords.active)
  {
  }

  const E15 := CacheEntry(30, Layer(1), 0, 1)
  const E14 := CacheEntry(31, Toggle(1), 0, 1)
  const E13 := CacheEntry(32, Toggle(1), 0, 0)

  /** layer(one) is held. */
  lemma SwappingHold(k: Kbd)
    requires Ok(Swapping(), k) && At(k, OFF, OFF, 0, [NO_ENTRY, NO_ENTRY, NO_ENTRY, NO_ENTRY])
    ensures var r := ProcessEvents(Swapping(), k, [KeyEvent(30, true, 0)], 0, 0, 0).0;
            At(r, LayerState(1, 1, false, 0), OFF, 1, [NO_ENTRY, NO_ENTRY, NO_ENTRY, E15])
  {
    hide Ok, CoreOk, ActiveOk, ConfigOk, ProcessEvents, Act, Swapping, OfClass, LookupDescriptor, LastFree, Find;
    SwappingOk();
    SwappingLayers();
    ActiveChordsOk(Swapping(), k);
    SwappingFound(k.core.lay.ls, k.chords.active, 30);
    FreeSlot(k.core.cache, [NO_ENTRY, NO_ENTRY, NO_ENTRY, NO_ENTRY], 3, 30);
    SwappingPress(k, KeyEvent(30, true, 0), 15, Layer(1), 0);
    LayerPress(Swapping(), k.core.(cache := k.core.cache[15 := CacheEntry(30, Layer(1), 0, 0)]), 30, Layer(1), 0, 0);
  }

  /** It is toggled, too. */
  lemma SwappingToggle(k: Kbd)
    requires Ok(Swapping(), k) && At(k, LayerState(1, 1, false, 0), OFF, 1, [NO_ENTRY, NO_ENTRY, NO_ENTRY, E15])
    ensures var r := ProcessEvents(Swapping(), k, [KeyEvent(31, true, 1)], 0, 0, 0).0;
            At(r, LayerState(2, 2, true, 0), OFF, 2, [NO_ENTRY, NO_ENTRY, E14, E15])
  {
    hide Ok, CoreOk, ActiveOk, ConfigOk, ProcessEvents, Act, Swapping, OfClass, LookupDescriptor, LastFree, Find;
    SwappingOk();
    SwappingLayers();
    ActiveChordsOk(Swapping(), k);
    SwappingFound(k.core.lay.ls, k.chords.active, 31);
    FreeSlot(k.core.cache, [NO_ENTRY, NO_ENTRY, NO_ENTRY, E15], 2, 31);
    SwappingPress(k, KeyEvent(31, true, 1), 14, Toggle(1), 0);
    TogglePress(Swapping(), k.core.(cache := k.core.cache[14 := CacheEntry(31, Toggle(1), 0, 0)]), 31, Toggle(1), 0, 1);
    NothingArmed(FlipToggle(k.core.lay, 1));
  }

  /** And by another key untoggled: the mark of the first one stays. */
  lemma SwappingUntoggle(k: Kbd)
    requires Ok(Swapping(), k) && At(k, LayerState(2, 2, true, 0), OFF, 2, [NO_ENTRY, NO_ENTRY, E14, E15])
    ensures var r := ProcessEvents(Swapping(), k, [KeyEvent(32, true, 2)], 0, 0, 0).0;
            At(r, LayerState(2, 1, false, 0), OFF, 2, [NO_ENTRY, E13, E14, E15])
  {
    hide Ok, CoreOk, ActiveOk, ConfigOk, ProcessEvents, Act, Swapping, OfClass, LookupDescriptor, LastFree, Find;
    SwappingOk();
    SwappingLayers();
    ActiveChordsOk(Swapping(), k);
    SwappingFound(k.core.lay.ls, k.chords.active, 32);
    FreeSlot(k.core.cache, [NO_ENTRY, NO_ENTRY, E14, E15], 1, 32);
    SwappingPress(k, KeyEvent(32, true, 2), 13, Toggle(1), 0);
    TogglePress(Swapping(), k.core.(cache := k.core.cache[13 := CacheEntry(32, Toggle(1), 0, 0)]), 32, Toggle(1), 0, 2);
    NothingArmed(FlipToggle(k.core.lay, 1));
  }

  lemma NothingArmed(lay: Lay)
    requires |lay.ls| == 3 && forall l | 0 <= l < 3 :: lay.ls[l].depth == 0
    ensures ClearOneshot(lay) == lay.(latch := false, oneshotTimeout := 0)
  {
    assert ClearOneshotLayers(lay, 0) == lay && ClearOneshotLayers(lay, 1) == lay && ClearOneshotLayers(lay, 2) == lay;
    assert ClearOneshotLayers(lay, 3) == lay;
  }

  /** swap(two) takes the activation of layer(one) for that of the toggle. */
  lemma SwappingSwap(k: Kbd)
    requires Ok(Swapping(), k) && At(k, LayerState(2, 1, false, 0), OFF, 2, [NO_ENTRY, E13, E14, E15])
    ensures var r := ProcessEvents(Swapping(), k, [KeyEvent(33, true, 3)], 0, 0, 0).0;
            Calm(r) && NoChords(r.chords) && |r.core.lay.ls| == 3 && r.core.lay.ls[1].active == 0 &&
            !r.core.lay.underflow && |r.core.cache| == CACHE_SIZE && r.core.cache[15] == E15
  {
    hide Ok, CoreOk, ActiveOk, ConfigOk, ProcessEvents, Act, Swapping, OfClass, LookupDescriptor, LastFree, Find;
    SwappingOk();
    SwappingLayers();
    ActiveChordsOk(Swapping(), k);
    SwappingFound(k.core.lay.ls, k.chords.active, 33);
    FreeSlot(k.core.cache, [NO_ENTRY, E13, E14, E15], 0, 33);
    SwappingPress(k, KeyEvent(33, true, 3), 12, Swap(2), 1);
    var p := k.core.(cache := k.core.cache[12 := CacheEntry(33, Swap(2), 1, 0)]);
    SwapPress(Swapping(), p, 33, Swap(2), 1, 3);
    StaleMarkPicked(Swapping(), p.cache);
  }

  lemma StaleMarkPicked(c: Config, cache: seq<CacheEntry>)
    requires |c.layers| == 3 && c.layers[1].kind == Normal &&
             Slots(cache, [CacheEntry(33, Swap(2), 1, 0), E13, E14, E15])
    ensures FindActivator(c, cache, 1, 16) == 14
    ensures var after := MarkLayer(cache[14 := cache[14].(d := Layer(2))], 31, 2);
            |after| == CACHE_SIZE && after[15] == E15
  {
    NoActivator(c, cache, 14);
    assert FindActivator(c, cache, 1, 15) == 14;
  }

  lemma {:induction false} NoActivator(c: Config, cache: seq<CacheEntry>, n: nat)
    requires |c.layers| == 3 && n <= 14 && Slots(cache, [CacheEntry(33, Swap(2), 1, 0), E13, E14, E15])
    ensures FindActivator(c, cache, 1, n) == -1
    decreases n
  {
    if n != 0 {
      NoActivator(c, cache, n - 1);
    }
  }

  /** The release of layer(one) gives up an activation that is gone. */
  lemma SwappingRelease(k: Kbd)
    requires Ok(Swapping(), k) && Calm(k) && NoChords(k.chords) && |k.core.lay.ls| == 3 && k.core.lay.ls[1].active == 0
    requires |k.core.cache| == CACHE_SIZE && k.core.cache[15] == E15
    ensures ProcessEvents(Swapping(), k, [KeyEvent(30, false, 4)], 0, 0, 0).0.core.lay.underflow
  {
    var c, e := Swapping(), KeyEvent(30, false, 4);
    SwappingLayers();
    GetsThrough(c, k, e);
    FindUnique(k.core.cache, 30, 15);
    assert EntryOk(c, k.core.cache[15]);
    RemoveOk(c, k.core.cache, 30);
    hide CoreOk, ProcessEvents, Act, Swapping, OfClass, Find;
    LayerRelease(c, k.core.(cache := Remove(k.core.cache, 30)), 30, Layer(1), 0, 4);
  }

  /** Four keys are pressed and the first one is released: the assertion of deactivate_layer
      fails, since the swap() went astray. */
  lemma AssertionFails() returns (calls: seq<seq<KeyEvent>>, r: Kbd)
    ensures calls == [[KeyEvent(30, true, 0)], [KeyEvent(31, true, 1)], [KeyEvent(32, true, 2)],
                      [KeyEvent(33, true, 3)], [KeyEvent(30, false, 4)]]
    ensures Reached(Swapping(), r, calls) && r.core.lay.underflow && r.core.lay.strayed
  {
    hide Ok, ProcessEvents, Reached, Swapping, Start, At;
    var c := Swapping();
    var a, b, d, e, f := KeyEvent(30, true, 0), KeyEvent(31, true, 1), KeyEvent(32, true, 2), KeyEvent(33, true, 3),
      KeyEvent(30, false, 4);
    SwappingOk();
    ReachedStart(c, None, 0);
    StartKeeps(c, None, 0);
    SwappingStart();
    var k := Start(c, None, 0);
    SwappingHold(k);
    var r1 := ProcessEvents(c, k, [a], 0, 0, 0).0;
    OneMoreCall(c, k, [], a);
    SwappingToggle(r1);
    var r2 := ProcessEvents(c, r1, [b], 0, 0, 0).0;
    OneMoreCall(c, r1, [] + [[a]], b);
    SwappingUntoggle(r2);
    var r3 := ProcessEvents(c, r2, [d], 0, 0, 0).0;
    OneMoreCall(c, r2, [] + [[a]] + [[b]], d);
    SwappingSwap(r3);
    var r4 := ProcessEvents(c, r3, [e], 0, 0, 0).0;
    OneMoreCall(c, r3, [] + [[a]] + [[b]] + [[d]], e);
    SwappingRelease(r4);
    r := ProcessEvents(c, r4, [f], 0, 0, 0).0;
    OneMoreCall(c, r4, [] + [[a]] + [[b]] + [[d]] + [[e]], f);
    calls := [[a], [b], [d], [e], [f]];
    assert [] + [[a]] + [[b]] + [[d]] + [[e]] + [[f]] == calls;
    SwappingLayers();
    LayersPaid(c, r, calls, 1);
  }
}
