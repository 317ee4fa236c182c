/** A layer that stays active although nothing explains it. */
module LayerLeak {
  import opened Keys
  import opened Output
  import opened Configs
  import opened State
  import opened Layers
  import opened Cache
  import opened Actions
  import opened Events
  import opened Pending
  import opened Machine
  import opened ActionLaws
  import opened Taps
  import opened RunLaws
  import opened Runs
  import opened Steps

  /** overload(layer, overloadi(layer(layer), layer(layer), 0)) on one key. */
  function Leaky(): Config {
    TwoLayers(map[30 := Overload(1, 1)], [Layer(1), OverloadIdle(0, 0, 0)])
  }

  lemma LeakyOk()
    ensures ConfigOk(Leaky()) && ChordFree(Leaky()) && OfClass(Leaky(), SwapFree)
  {
    var c := Leaky();
    assert c.descriptors[..0] == [] && c.descriptors[..1] == [Layer(1)];
    TwoLayersOk(map[30 := Overload(1, 1)], [Layer(1), OverloadIdle(0, 0, 0)]);
    LeakySwapFree();
  }

  lemma LeakySwapFree()
    ensures OfClass(Leaky(), SwapFree)
  {
  }

  /** Key 30 is held, and with it layer 1. */
  ghost predicate LeakyHeld(k: Kbd) {
    Calm(k) && NoChords(k.chords) && k.core.lay.ls == [LayerState(0, 1, false, 0), LayerState(1, 1, false, 0)] &&
    |k.core.cache| == CACHE_SIZE && k.core.cache[15] == CacheEntry(30, Overload(1, 1), 0, 1) &&
    (forall i | 0 <= i < 15 :: k.core.cache[i].code == 0) && k.core.memo.lastPressed == 30
  }

  lemma LeakyPress(k: Core, active: seq<ActiveChord>)
    requires CoreOk(Leaky(), k) && ActiveOk(Leaky(), active) && Untouched(k)
    ensures var r := DispatchKey(Leaky(), k, active, KeyEvent(30, true, 0));
            r.lay == Activate(k.lay, 1) && r.cache == k.cache[15 := CacheEntry(30, Overload(1, 1), 0, 1)] &&
            r.memo.lastPressed == 30 && r.pt == k.pt && r.po == k.po && r.mac == k.mac && r.timers == [] && !r.overflow
  {
    hide ConfigOk, TimeoutOk, OverloadOk, RepeatableOk, CacheOk;
    var c, d, e := Leaky(), Overload(1, 1), KeyEvent(30, true, 0);
    FoundInMain(map[30 := Overload(1, 1)], [Layer(1), OverloadIdle(0, 0, 0)], k.lay.ls, active, 30);
    FirstSlot(k, 30);
    PressBinds(c, k, active, e, 15, d, 0);
    assert Allowed(c, d) by { KeymapAllowed(c, 0, 30); }
    hide CoreOk, OfClass, LookupDescriptor, DispatchKey, Find, Act;
    OverloadHolds(c, k.(cache := k.cache[15 := CacheEntry(30, d, 0, 0)]), 30, d, 0, 0, 15);
  }

  /** The press of an overload() activates its layer and marks the slot of its key. */
  lemma OverloadHolds(c: Config, k: Core, code: Code, d: Descriptor, dl: nat, time: int, slot: nat)
    requires CoreOk(c, k) && d.Overload? && Allowed(c, d) && dl < |c.layers| && code != 0
    requires slot < |k.cache| && Find(k.cache, code) == slot
    ensures var r := Act(c, k, code, d, dl, true, time);
            r.lay == Activate(k.lay, d.layer) && r.cache == k.cache[slot := k.cache[slot].(layer := d.layer)] &&
            r.memo.lastPressed == code && r.pt == k.pt && r.po == k.po && r.mac == k.mac && r.timers == k.timers &&
            r.overflow == k.overflow
  {
    hide CoreOk, OfClass, UpdateMods, Find;
    assert ActSwitch(c, k, code, d, dl, true, time) == ActOverload(c, k, code, d, dl, true, time);
  }

  lemma LeakyDown(k: Kbd)
    requires Ok(Leaky(), k) && k == Start(Leaky(), None, 0)
    ensures LeakyHeld(ProcessEvents(Leaky(), k, [KeyEvent(30, true, 0)], 0, 0, 0).0)
  {
    hide CoreOk, ActiveOk, ProcessEvents, DispatchKey, Leaky, Start;
    LeakyOk();
    LeakyLayers();
    StartUntouched(Leaky());
    GetsThrough(Leaky(), k, KeyEvent(30, true, 0));
    LeakyPress(k.core, k.chords.active);
  }

  lemma LeakyLayers()
    ensures |Leaky().layers| == 2
  {
  }

  lemma LeakyTap(k: Core)
    requires CoreOk(Leaky(), k) && Find(k.cache, 30) == -1 && |k.lay.ls| == 2 && Allowed(Leaky(), OverloadIdle(0, 0, 0))
    ensures var r := ActTap(Leaky(), k, 30, OverloadIdle(0, 0, 0), 0, 10);
            r.cache == k.cache && r.lay == Activate(k.lay, 1)
  {
    hide OfClass, CacheOk, TimeoutOk, OverloadOk, UpdateMods;
    var c, d := Leaky(), OverloadIdle(0, 0, 0);
    LeakyOk();
    TableAllowed(c, 1);
    var p := Act(c, k, 30, Layer(1), 0, true, 10);
    assert ActSwitch(c, k, 30, Layer(1), 0, true, 10) == ActLayer(c, k, 30, Layer(1), true);
    IdlePress(c, k, 30, d, 0, 10);
    IdleRelease(c, Act(c, k, 30, d, 0, true, 10), 30, d, 0, 10);
  }

  lemma LeakyRelease(k: Kbd)
    requires Ok(Leaky(), k) && LeakyHeld(k)
    ensures var r := DispatchKey(Leaky(), k.core, k.chords.active, KeyEvent(30, false, 10));
            |r.lay.ls| == 2 && r.lay.ls[1].active == 1 && !r.lay.ls[1].toggled && r.lay.ls[1].depth == 0 &&
            |r.cache| == CACHE_SIZE && forall i | 0 <= i < |r.cache| :: r.cache[i].code == 0
  {
    var c, d := Leaky(), Overload(1, 1);
    LeakyOk();
    TableAllowed(c, 1);
    assert Find(k.core.cache, 30) == 15;
    assert EntryOk(c, k.core.cache[15]);
    RemoveOk(c, k.core.cache, 30);
    var p := k.core.(cache := Remove(k.core.cache, 30));
    assert p.cache == k.core.cache[15 := CacheEntry(0, d, 0, 1)];
    hide Remove, OfClass, CacheOk, ConfigOk;
    LeakyGivenUp(p);
  }

  /** The release of an overload() that is tapped. */
  lemma LeakyGivenUp(k: Core)
    requires CoreOk(Leaky(), k) && Find(k.cache, 30) == -1 &&
             k.lay.ls == [LayerState(0, 1, false, 0), LayerState(1, 1, false, 0)]
    requires Allowed(Leaky(), OverloadIdle(0, 0, 0)) && Allowed(Leaky(), Overload(1, 1)) && k.memo.lastPressed == 30
    ensures var r := Act(Leaky(), k, 30, Overload(1, 1), 0, false, 10);
            r.cache == k.cache && r.lay.ls == [LayerState(0, 1, false, 0), LayerState(r.lay.clock, 1, false, 0)]
  {
    hide OfClass, UpdateMods, ActTap, CacheOk, ConfigOk, TimeoutOk, OverloadOk, RepeatableOk, Find, Allowed;
    var c, d := Leaky(), Overload(1, 1);
    assert ActSwitch(c, k, 30, d, 0, false, 10) == ActOverload(c, k, 30, d, 0, false, 10);
    var lay := Deactivate(k.lay, 1);
    assert lay.ls[1] == LayerState(1, 0, false, 0);
    LeakyTap(k.(lay := lay, out := Sync(c, lay.ls, k.out)));
  }

  /** The key is pressed and released within the tap time. Nothing is held then, toggled or
      armed; layer 1 is active all the same, and LayersPaidExactly does not hold. */
  lemma LayerLeaks() returns (calls: seq<seq<KeyEvent>>, r: Kbd)
    ensures calls == [[KeyEvent(30, true, 0)], [KeyEvent(30, false, 10)]]
    ensures Reached(Leaky(), r, calls) && OfClass(Leaky(), SwapFree)
    ensures |r.core.cache| == CACHE_SIZE && forall i | 0 <= i < |r.core.cache| :: r.core.cache[i].code == 0
    ensures |r.core.lay.ls| == 2 && r.core.lay.ls[1].active == 1 && !r.core.lay.ls[1].toggled &&
            r.core.lay.ls[1].depth == 0
  {
    hide CoreOk, ActiveOk, ProcessEvents, Reached, DispatchKey, Leaky;
    var c, down, up := Leaky(), KeyEvent(30, true, 0), KeyEvent(30, false, 10);
    LeakyOk();
    ReachedStart(c, None, 0);
    StartKeeps(c, None, 0);
    var k := Start(c, None, 0);
    LeakyDown(k);
    OneMoreCall(c, k, [], down);
    var p := ProcessEvents(c, k, [down], 0, 0, 0).0;
    assert [] + [[down]] == [[down]];
    OneMoreCall(c, p, [[down]], up);
    GetsThrough(c, p, up);
    LeakyRelease(p);
    r := ProcessEvents(c, p, [up], 0, 0, 0).0;
    calls := [[down], [up]];
    assert [[down]] + [[up]] == calls;
  }
}
