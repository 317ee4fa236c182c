/** A deadline that no timer watches over. */
module ForgottenDeadline {
  import opened Configs
  import opened State
  import opened Layers
  import opened Cache
  import opened Actions
  import opened Events
  import opened Pending
  import opened Machine
  import opened ActionLaws
  import opened RunLaws
  import opened Runs
  import opened Deadlines
  import opened Steps

  /** overloadt(layer, a, 200) on one key, timeout(a, 50, a) on another. */
  function Sleepy(): Config {
    TwoLayers(map[30 := OverloadTimeout(1, 0, 200), 31 := Timeout(0, 50, 0)], [KeySequence(32, {})])
  }

  lemma SleepyOk()
    ensures ConfigOk(Sleepy()) && ChordFree(Sleepy())
  {
    var c := Sleepy();
    assert c.descriptors[..0] == [];
    TwoLayersOk(map[30 := OverloadTimeout(1, 0, 200), 31 := Timeout(0, 50, 0)], [KeySequence(32, {})]);
  }

  lemma SleepyPositive()
    ensures Positive(Sleepy())
  {
    var c := Sleepy();
    assert forall d: Descriptor | d in {OverloadTimeout(1, 0, 200), Timeout(0, 50, 0), Nothing} ::
        InClass(Timed, c.descriptors, d);
    forall l, k | 0 <= l < |c.layers| && 0 <= k < |c.layers[l].keymap|
      ensures InClass(Timed, c.descriptors, c.layers[l].keymap[k])
    {
      assert c.layers[l].keymap[k] in {OverloadTimeout(1, 0, 200), Timeout(0, 50, 0), Nothing};
    }
  }

  const T_DOWN := KeyEvent(31, true, 100)

  /** overloadt() is pending. */
  ghost predicate OverloadWaits(k: Kbd, queue: seq<KeyEvent>) {
    !k.core.overflow && k.core.pt.code == 0 && k.core.lay.oneshotTimeout == 0 && k.core.mac.active.None? &&
    k.core.po == PendingOverload(30, 0, 200, false, KeySequence(32, {}), Layer(1)) && k.oq == queue &&
    k.core.timers == [200] && NoChords(k.chords) &&
    k.core.lay.ls == [LayerState(0, 1, false, 0), LayerState(0, 0, false, 0)] &&
    |k.core.cache| == CACHE_SIZE && k.core.cache[15].code == 30 && forall i | 0 <= i < 15 :: k.core.cache[i].code == 0
  }

  lemma SleepyFound(ls: seq<LayerState>, active: seq<ActiveChord>)
    requires ConfigOk(Sleepy()) && ActiveOk(Sleepy(), active) &&
             ls == [LayerState(0, 1, false, 0), LayerState(0, 0, false, 0)]
    ensures LookupDescriptor(Sleepy(), ls, active, 30) == (OverloadTimeout(1, 0, 200), 0)
  {
    FoundInMain(map[30 := OverloadTimeout(1, 0, 200), 31 := Timeout(0, 50, 0)], [KeySequence(32, {})], ls, active, 30);
  }

  lemma SleepyLayers()
    ensures |Sleepy().layers| == 2 && Sleepy().descriptors == [KeySequence(32, {})]
  {
  }

  lemma SleepyTimers()
    ensures Later([200], 0) == [200] && Later([200], 100) == [200]
    ensures Later([200, 150], 100) == [200, 150] && Later([200, 150], 200) == []
  {
    assert [200][..0] == [] && [200, 150][..1] == [200];
    assert Later([], 0) == [] && Later([], 100) == [] && Later([], 200) == [];
    assert Later([200], 200) == [];
    assert Later([200, 150], 100) == [200] + [150];
  }

  lemma SleepyDown(k: Kbd)
    requires Ok(Sleepy(), k) && k == Start(Sleepy(), None, 0)
    ensures OverloadWaits(ProcessEvents(Sleepy(), k, [KeyEvent(30, true, 0)], 0, 0, 0).0, [])
  {
    hide CoreOk, ActiveOk, ProcessEvents, DispatchKey, LookupDescriptor, Sleepy, Start, ChordFree, Later;
    SleepyOk();
    SleepyLayers();
    StartUntouched(Sleepy());
    GetsThrough(Sleepy(), k, KeyEvent(30, true, 0));
    SleepyFound(k.core.lay.ls, k.chords.active);
    DelayedPress(Sleepy(), k.core, k.chords.active, KeyEvent(30, true, 0), OverloadTimeout(1, 0, 200));
    SleepyTimers();
  }

  lemma SleepyQueues(k: Kbd)
    requires Ok(Sleepy(), k) && OverloadWaits(k, [])
    ensures OverloadWaits(ProcessEvents(Sleepy(), k, [T_DOWN], 0, 0, 0).0, [T_DOWN])
  {
    hide Ok, ProcessEvents, HandleChord, Sleepy, ChordFree;
    var c := Sleepy();
    SleepyOk();
    OneEvent(c, k, T_DOWN);
    NoneRecognised(c, k, T_DOWN);
    StillNoChords(c, k, T_DOWN);
    assert [] + [T_DOWN] == [T_DOWN];
    var q := HandleChord(c, k, T_DOWN).0;
    assert q.core == k.core && HandlePendingTimeout(c, q.core, T_DOWN) == q.core;
    assert HandlePendingOverload(c, q, T_DOWN) == (q.(oq := [T_DOWN]), true);
    SleepyTimers();
  }

  lemma SleepyResolve(k: Core)
    requires CoreOk(Sleepy(), k) && k.po == PendingOverload(30, 0, 200, false, KeySequence(32, {}), Layer(1))
    requires k.cache[15].code == 30 && (forall i | 0 <= i < 15 :: k.cache[i].code == 0) && k.pt.code == 0
    requires k.lay.ls == [LayerState(0, 1, false, 0), LayerState(0, 0, false, 0)] && k.mac.active.None?
    ensures var r := ResolveOverload(Sleepy(), k, Layer(1), 200);
            r.pt == k.pt && r.po.code == 0 && r.mac == k.mac && r.timers == k.timers && r.overflow == k.overflow &&
            r.lay == Activate(k.lay, 1) && SameCodes(k.cache, r.cache)
  {
    var c, po := Sleepy(), k.po;
    assert Find(k.cache, 30) == 15;
    PutOk(c, k.cache, 30, CacheEntry(0, Layer(1), 0, 0));
    var p := k.(po := po.(code := 0), cache := Put(k.cache, 30, CacheEntry(0, Layer(1), 0, 0)));
    hide OfClass, UpdateMods, CacheOk, ConfigOk, TimeoutOk;
    assert ActSwitch(c, p, 30, Layer(1), 0, true, 200) == ActLayer(c, p, 30, Layer(1), true);
  }

  lemma SleepyReplay(k: Core, active: seq<ActiveChord>)
    requires CoreOk(Sleepy(), k) && ActiveOk(Sleepy(), active) && k.timers == [200] && !k.overflow
    requires k.cache[15].code == 30 && (forall i | 0 <= i < 15 :: k.cache[i].code == 0)
    requires |k.lay.ls| == 2 && k.lay.ls[0] == LayerState(0, 1, false, 0)
    ensures var r := DispatchKey(Sleepy(), k, active, T_DOWN);
            r.pt == PendingTimeout(31, 0, false, 150, 100, KeySequence(32, {}), KeySequence(32, {})) &&
            r.timers == [200, 150] && !r.overflow
  {
    hide ConfigOk, TimeoutOk, OverloadOk, RepeatableOk, LookupDescriptor;
    var c, d := Sleepy(), Timeout(0, 50, 0);
    FoundInMain(map[30 := OverloadTimeout(1, 0, 200), 31 := Timeout(0, 50, 0)], [KeySequence(32, {})], k.lay.ls,
      active, 31);
    assert LastFree(k.cache, 16) == LastFree(k.cache, 15) && LastFree(k.cache, 15) == 14;
    PressBinds(c, k, active, T_DOWN, 14, d, 0);
    assert Allowed(c, d) by { KeymapAllowed(c, 0, 31); }
    hide CoreOk, OfClass, LookupDescriptor, DispatchKey, Find, Act;
    Effects.TimeoutWaits(c, k.(cache := k.cache[14 := CacheEntry(31, d, 0, 0)]), 31, d, 0, 100);
    assert [200] + [150] == [200, 150];
  }

  /** The tick that resolves the overload and replays the press behind it. */
  lemma SleepyTick(k: Kbd)
    requires Ok(Sleepy(), k) && OverloadWaits(k, [T_DOWN])
    ensures var (r, timeout) := ProcessEvents(Sleepy(), k, [KeyEvent(0, false, 200)], 0, 0, 0);
            r.core.pt.code == 31 && r.core.pt.expiration == 150 && r.core.timers == [] && timeout == 0 &&
              !r.core.overflow
  {
    hide ActiveOk, CacheOk, ConfigOk, ProcessEvents, HandleChord, Sleepy, ChordFree, DispatchKey, ResolveOverload;
    var c, tick := Sleepy(), KeyEvent(0, false, 200);
    SleepyOk();
    OneEvent(c, k, tick);
    NoneRecognised(c, k, tick);
    StillNoChords(c, k, tick);
    var q := HandleChord(c, k, tick).0;
    SleepyResolve(k.core);
    var p := q.(core := ResolveOverload(c, q.core, Layer(1), 200), oq := []);
    GetsThrough(c, p, T_DOWN);
    SleepyReplay(p.core, p.chords.active);
    SleepyTimers();
    assert q.core == k.core && q.oq == [T_DOWN] && Resolution(q.core.po, tick) == Layer(1);
    assert HandlePendingOverload(c, q, tick) == (ProcessEvents(c, p, [T_DOWN], 0, 0, 0).0, true);
  }

  /** The key of an overloadt() is pressed at 0 and the key of a timeout() at 100; the next call
      is the tick at 200 that the engine asked for. It replays the second press, which is due
      at 150; no timer is left for it, and the timeout returned says that nothing is due. */
  lemma DeadlineForgotten() returns (calls: seq<seq<KeyEvent>>, p: Kbd, r: Kbd, timeout: nat)
    ensures calls == [[KeyEvent(30, true, 0)], [T_DOWN]] && Reached(Sleepy(), p, calls) && Ok(Sleepy(), p)
    ensures Positive(Sleepy()) && (r, timeout) == ProcessEvents(Sleepy(), p, [KeyEvent(0, false, 200)], 0, 0, 0)
    ensures !r.core.overflow && Overdue(Sleepy(), r, 200) && r.core.timers == [] && timeout == 0
  {
    hide Ok, ProcessEvents, Reached, Sleepy, Positive;
    var c, down := Sleepy(), KeyEvent(30, true, 0);
    SleepyOk();
    SleepyPositive();
    ReachedStart(c, None, 0);
    StartKeeps(c, None, 0);
    var k := Start(c, None, 0);
    SleepyDown(k);
    OneMoreCall(c, k, [], down);
    var q := ProcessEvents(c, k, [down], 0, 0, 0).0;
    assert [] + [[down]] == [[down]];
    SleepyQueues(q);
    OneMoreCall(c, q, [[down]], T_DOWN);
    p := ProcessEvents(c, q, [T_DOWN], 0, 0, 0).0;
    calls := [[down], [T_DOWN]];
    assert [[down]] + [[T_DOWN]] == calls;
    SleepyTick(p);
    r := ProcessEvents(c, p, [KeyEvent(0, false, 200)], 0, 0, 0).0;
    timeout := ProcessEvents(c, p, [KeyEvent(0, false, 200)], 0, 0, 0).1;
    assert IsDeadline(c, r, 150);
  }
}
