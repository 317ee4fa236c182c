/** The key-processing engine (src/keyboard.c): one mutable struct keyboard, driven by
    timestamped press and release events and by timer ticks. Every method is proved to
    compute the function of the same meaning in the modules Actions, Events, Pending and
    Machine; what the source promises is proved about those functions. */
module Engine {
  import opened Keys
  import opened Output
  import opened Configs
  import opened Macros
  import opened State
  import opened Layers
  import opened Cache
  import opened Actions
  import Events
  import Pending
  import Machine
  import Runs

  method Filled<T>(n: nat, x: T) returns (a: array<T>)
    ensures fresh(a) && a.Length == n && a[..] == seq(n, _ => x)
  {
    a := new T[n](_ => x);
  }

  /** The layer states of a new keyboard. */
  method NewLayers(config: Config, default: Option<nat>) returns (ls: array<LayerState>)
    requires 0 < |config.layers| && (default.Some? ==> default.value < |config.layers|)
    ensures fresh(ls) && ls.Length == |config.layers| && ls[..] == Runs.StartLayers(config, default)
  {
    ls := new LayerState[|config.layers|](l => LayerState(0, if l == 0 then 1 else 0, false, 0));
    if default.Some? {
      ls[default.value] := LayerState(1, 1, false, 0);
    }
  }

  class Keyboard {
    const config: Config

    const keystate: array<bool>
    const layerState: array<LayerState>
    const cache: array<CacheEntry>
    const timeouts: array<int>
    const activeChords: array<ActiveChord>
    const chordQueue: array<KeyEvent>
    const overloadQueue: array<KeyEvent>

    var nrTimeouts: nat
    var chordQueueSize: nat
    var overloadQueueSize: nat

    var lastPressedOutputCode: Code
    var inhibitModifierGuard: bool

    var clock: nat
    var oneshotLatch: bool
    var oneshotTimeout: int

    var pendingTimeout: PendingTimeout
    var pendingOverload: PendingOverload
    var macroRun: MacroRun
    var memo: Memo

    var chordPhase: ChordPhase
    var chordMatch: Option<Chord>
    var chordMatchLayer: nat
    var chordStartCode: Code
    var chordLastCodeTime: nat

    /** An assertion of the source failed: the process is gone. */
    var underflow: bool
    var overflow: bool

    /** Every call of output.send_key so far, the current layout, whether a swap() went astray, and
        the record of the run. */
    ghost var trace: seq<Stroke>
    ghost var strayed: bool
    ghost var layout: nat
    ghost var log: Log

    /** new_keyboard. `default` is the default layout, if the configuration names one it has;
        `ticks` is the state of the counter behind get_time. */
    constructor (config: Config, default: Option<nat>, ticks: nat)
      requires ConfigOk(config) && (default.Some? ==> IsLayout(config.layers, default.value))
      ensures this.config == config && Shape() && Valid() && State() == Runs.Start(config, default, ticks)
      ensures Runs.Reached(config, State(), [])
      ensures fresh(keystate) && fresh(layerState) && fresh(cache) && fresh(timeouts)
      ensures fresh(activeChords) && fresh(chordQueue) && fresh(overloadQueue)
    {
      hide CoreOk, Ok, ConfigOk, Runs.Reached, Runs.StartLayers;
      LayersExist(config);
      this.config := config;
      var down := Filled(256, false);
      var layerStates := NewLayers(config, default);
      var slots := Filled(CACHE_SIZE, Runs.NO_ENTRY);
      var timers := Filled(MAX_TIMEOUTS, 0);
      var chords := Filled(MAX_ACTIVE_CHORDS, Runs.NO_CHORD);
      var chordEvents := Filled(QUEUE_SIZE, KeyEvent(0, false, 0));
      var heldBack := Filled(QUEUE_SIZE, KeyEvent(0, false, 0));
      keystate, layerState, cache, timeouts := down, layerStates, slots, timers;
      activeChords, chordQueue, overloadQueue := chords, chordEvents, heldBack;
      nrTimeouts, chordQueueSize, overloadQueueSize := 0, 0, 0;
      lastPressedOutputCode, inhibitModifierGuard := 0, false;
      clock, oneshotLatch, oneshotTimeout := ticks, false, 0;
      pendingTimeout := PendingTimeout(0, 0, false, 0, 0, Nothing, Nothing);
      pendingOverload := PendingOverload(0, 0, 0, false, Nothing, Nothing);
      macroRun, memo := MacroRun(None, 0, 0, 0), Memo(0, Nothing, 0, 0, 0, false);
      chordPhase, chordMatch, chordMatchLayer, chordStartCode, chordLastCodeTime := Inactive, None, 0, 0, 0;
      underflow, strayed, overflow, trace := false, false, false, [];
      layout, log := if default.Some? then default.value else 0, Log([], [], [], 0);
      new;
      assert State() == Runs.Start(config, default, ticks);
      Runs.ReachedStart(config, default, ticks);
    }

    // ----------------------------------------------------------------- the state as a value

    ghost predicate Shape() {
      keystate.Length == 256 && layerState.Length == |config.layers| && cache.Length == CACHE_SIZE &&
      timeouts.Length == MAX_TIMEOUTS && activeChords.Length == MAX_ACTIVE_CHORDS &&
      chordQueue.Length == QUEUE_SIZE && overloadQueue.Length == QUEUE_SIZE && chordQueue != overloadQueue
    }

    ghost function OutView(): Out
      reads keystate, `lastPressedOutputCode, `trace
    {
      Out(keystate[..], lastPressedOutputCode, trace)
    }

    ghost function LayView(): Lay
      reads layerState, `layout, `clock, `oneshotLatch, `oneshotTimeout, `underflow, `strayed
    {
      Lay(layerState[..], layout, clock, oneshotLatch, oneshotTimeout, underflow, strayed)
    }

    ghost function CoreView(): Core
      reads keystate, layerState, cache, timeouts, `nrTimeouts, `overflow, `lastPressedOutputCode, `trace
      reads `underflow, `strayed, `clock, `oneshotLatch, `oneshotTimeout, `layout
      reads `pendingTimeout, `pendingOverload, `macroRun, `memo
    {
      Core(OutView(), LayView(), cache[..], pendingTimeout, pendingOverload, macroRun, Timers(), overflow, memo)
    }

    ghost function Timers(): seq<int>
      reads `nrTimeouts, timeouts
    {
      if nrTimeouts <= timeouts.Length then timeouts[..nrTimeouts] else timeouts[..]
    }

    ghost function ChordsView(): Chords
      reads activeChords, chordQueue, `chordQueueSize, `chordPhase, `chordMatch, `chordMatchLayer
      reads `chordStartCode, `chordLastCodeTime
    {
      Chords(chordPhase, if chordQueueSize <= chordQueue.Length then chordQueue[..chordQueueSize] else chordQueue[..],
             chordMatch, chordMatchLayer, chordStartCode, chordLastCodeTime, activeChords[..])
    }

    /** The queue of the pending overload. */
    ghost function HeldBack(): seq<KeyEvent>
      reads `overloadQueueSize, overloadQueue
    {
      if overloadQueueSize <= overloadQueue.Length then overloadQueue[..overloadQueueSize] else overloadQueue[..]
    }

    ghost predicate Valid()
      reads `nrTimeouts, `chordQueueSize, `overloadQueueSize, `inhibitModifierGuard
    {
      nrTimeouts <= MAX_TIMEOUTS && chordQueueSize <= QUEUE_SIZE && overloadQueueSize <= QUEUE_SIZE &&
      !inhibitModifierGuard
    }

    ghost function State(): Kbd
      reads this, keystate, layerState, cache, timeouts, activeChords, chordQueue, overloadQueue
    {
      Kbd(CoreView(), HeldBack(), ChordsView(), log)
    }

    // -------------------------------------------------------------------------- the output

    method SendKey(code: Code, pressed: bool)
      requires Shape()
      modifies keystate, `lastPressedOutputCode, `trace
      ensures OutView() == Send(old(OutView()), code, pressed)
    {
      if IsSilent(code) {
        return;
      }
      if pressed {
        lastPressedOutputCode := code;
      }
      if keystate[code] != pressed {
        keystate[code] := pressed;
        trace := trace + [Stroke(code, pressed)];
      } else {
        assert keystate[..] == old(keystate[..]);
      }
    }

    method ResetKeystate()
      requires Shape()
      modifies keystate, `trace
      ensures OutView() == ResetKeys(old(OutView()), 256)
    {
      var i := 0;
      while i < 256
        invariant 0 <= i <= 256
        invariant OutView() == ResetKeys(old(OutView()), i)
      {
        if keystate[i] {
          trace := trace + [Stroke(i, false)];
          keystate[i] := false;
        }
        i := i + 1;
      }
    }

    method ClearMod(code: Code)
      requires Shape() && keystate[code] && IsModifierKey(code)
      modifies keystate, `lastPressedOutputCode, `trace
      ensures OutView() ==
              Output.ClearMod(old(OutView()), !inhibitModifierGuard && !config.disableModifierGuard, code)
    {
      var guard := lastPressedOutputCode == code && IsGuarded(code) && !inhibitModifierGuard &&
        !config.disableModifierGuard;
      if guard && !keystate[LEFTCTRL] {
        SendKey(LEFTCTRL, true);
        SendKey(code, false);
        SendKey(LEFTCTRL, false);
      } else {
        SendKey(code, false);
      }
    }

    method SetMods(mods: Mods)
      requires Shape()
      modifies keystate, `lastPressedOutputCode, `trace
      ensures OutView() ==
              Output.SetMods(old(OutView()), !inhibitModifierGuard && !config.disableModifierGuard, mods, |MODIFIERS|)
    {
      var i := 0;
      while i < |MODIFIERS|
        invariant 0 <= i <= |MODIFIERS|
        invariant OutView() ==
                  Output.SetMods(old(OutView()), !inhibitModifierGuard && !config.disableModifierGuard, mods, i)
      {
        var code := KeyOf(MODIFIERS[i]);
        if MODIFIERS[i] in mods {
          if !keystate[code] {
            SendKey(code, true);
          }
        } else {
          if keystate[code] {
            ClearMod(code);
          }
        }
        i := i + 1;
      }
    }

    /** Returns the resulting mask. */
    method UpdateMods(excluded: int, mods: Mods) returns (r: Mods)
      requires Shape()
      modifies keystate, `lastPressedOutputCode, `trace
      ensures (OutView(), r) ==
              Actions.UpdateMods(config, LayView().ls, old(OutView()), inhibitModifierGuard, excluded, mods)
    {
      r := mods;
      var i := 0;
      while i < |config.layers|
        modifies {}
        invariant 0 <= i <= |config.layers|
        invariant r == mods + ActiveMods(config.layers, layerState[..], excluded, i)
      {
        if layerState[i].active != 0 {
          var isExcluded := false;
          if i == excluded {
            isExcluded := true;
          } else if 0 <= excluded < |config.layers| && config.layers[excluded].kind == Composite {
            isExcluded := IsConstituent(excluded, i);
          }
          if !isExcluded {
            r := r + config.layers[i].mods;
          }
        }
        i := i + 1;
      }
      SetMods(r);
    }

    /** The modifier keys follow the active layers. */
    method SyncMods()
      requires Shape() && !inhibitModifierGuard
      modifies keystate, `lastPressedOutputCode, `trace
      ensures OutView() == Sync(config, LayView().ls, old(OutView()))
      ensures CoreView() == old(CoreView()).(out := Sync(config, old(CoreView()).lay.ls, old(CoreView()).out))
    {
      var _ := UpdateMods(-1, {});
    }

    /** The same, with the guard off while no other key was pressed since this one. */
    method SyncModsAfter(code: Code)
      requires Shape() && !inhibitModifierGuard
      modifies keystate, `lastPressedOutputCode, `trace, `inhibitModifierGuard
      ensures !inhibitModifierGuard
      ensures OutView() ==
              Actions.UpdateMods(config, LayView().ls, old(OutView()), memo.lastPressed == code, -1, {}).0
    {
      hide Actions.UpdateMods, OutView, LayView;
      if memo.lastPressed == code {
        inhibitModifierGuard := true;
        var _ := UpdateMods(-1, {});
        inhibitModifierGuard := false;
      } else {
        var _ := UpdateMods(-1, {});
      }
    }

    method IsConstituent(composite: nat, layer: nat) returns (r: bool)
      requires composite < |config.layers|
      ensures r <==> layer in config.layers[composite].constituents
    {
      var constituents := config.layers[composite].constituents;
      r := false;
      var j := 0;
      while j < |constituents|
        invariant 0 <= j <= |constituents|
        invariant r <==> layer in constituents[..j]
      {
        if constituents[j] == layer {
          r := true;
        }
        j := j + 1;
      }
      assert constituents[..|constituents|] == constituents;
    }

    // ----------------------------------------------------------------------------- macros

    /** The keys of a mask. */
    method MacroMods(mods: Mods, down: bool)
      requires Shape()
      modifies keystate, `lastPressedOutputCode, `trace
      ensures OutView() == SendAll(old(OutView()), ModRequests(mods, |MODIFIERS|, down))
    {
      var j := 0;
      while j < |MODIFIERS|
        invariant 0 <= j <= |MODIFIERS|
        invariant OutView() == SendAll(old(OutView()), ModRequests(mods, j, down))
      {
        if MODIFIERS[j] in mods {
          SendAllAppend(old(OutView()), ModRequests(mods, j, down), Stroke(KeyOf(MODIFIERS[j]), down));
          SendKey(KeyOf(MODIFIERS[j]), down);
        }
        j := j + 1;
      }
    }

    method MacroTaps(codes: seq<Code>)
      requires Shape()
      modifies keystate, `lastPressedOutputCode, `trace
      ensures OutView() == SendAll(old(OutView()), Taps(codes, |codes|))
    {
      var j := 0;
      while j < |codes|
        invariant 0 <= j <= |codes|
        invariant OutView() == SendAll(old(OutView()), Taps(codes, j))
      {
        SendAllTap(old(OutView()), Taps(codes, j), codes[j]);
        SendKey(codes[j], true);
        SendKey(codes[j], false);
        j := j + 1;
      }
    }

    /** The end of a hold group. */
    method MacroReleases(m: Macro, holdStart: nat, i: nat)
      requires Shape() && holdStart <= i <= |m|
      modifies keystate, `lastPressedOutputCode, `trace
      ensures OutView() == SendAll(old(OutView()), Releases(m, holdStart, i))
    {
      var j := holdStart;
      while j < i
        invariant holdStart <= j <= i
        invariant OutView() == SendAll(old(OutView()), Releases(m, holdStart, j))
      {
        SendAllAppend(old(OutView()), Releases(m, holdStart, j), Stroke(DataCode(m[j]), false));
        SendKey(DataCode(m[j]), false);
        j := j + 1;
      }
    }

    method MacroKeySequence(code: Code, mods: Mods)
      requires Shape()
      modifies keystate, `lastPressedOutputCode, `trace
      ensures OutView() == SendAll(old(OutView()),
        ModRequests(mods, |MODIFIERS|, true) + [Stroke(code, true), Stroke(code, false)] +
        ModRequests(mods, |MODIFIERS|, false))
    {
      ghost var down, up := ModRequests(mods, |MODIFIERS|, true), ModRequests(mods, |MODIFIERS|, false);
      SendAllTap(old(OutView()), down, code);
      SendAllConcat(old(OutView()), down + [Stroke(code, true), Stroke(code, false)], up);
      MacroMods(mods, true);
      SendKey(code, true);
      SendKey(code, false);
      MacroMods(mods, false);
    }

    /** One turn of macro_execute's loop: where the open hold group begins afterwards, and
        the time the entry takes. The pauses are no part of the model. */
    method MacroEntry(m: Macro, i: nat, holdStart: int) returns (newHoldStart: int, time: nat)
      requires Shape() && i < |m| && holdStart == HoldStart(m, i)
      modifies keystate, `lastPressedOutputCode, `trace
      ensures OutView() == SendAll(old(OutView()), EntryRequests(m, i))
      ensures newHoldStart == HoldStart(m, i + 1) && time == if m[i].TimeoutEntry? then m[i].ms else 0
    {
      newHoldStart, time := holdStart, 0;
      match m[i]
      case HoldEntry(code) =>
        if holdStart == -1 {
          newHoldStart := i;
        }
        SendAllAppend(OutView(), [], Stroke(code, true));
        SendKey(code, true);
      case ReleaseEntry =>
        if holdStart != -1 {
          MacroReleases(m, holdStart, i);
          newHoldStart := -1;
        }
      case UnicodeEntry(idx) =>
        MacroTaps(UnicodeSequence(idx));
      case KeySeqEntry(code, mods) =>
        MacroKeySequence(code, mods);
      case TimeoutEntry(ms) =>
        time := ms;
    }

    /** macro_execute: the execution time. */
    method MacroExecute(m: Macro, timeout: nat) returns (time: nat)
      requires Shape()
      modifies keystate, `lastPressedOutputCode, `trace
      ensures OutView() == SendAll(old(OutView()), Requests(m, |m|))
      ensures time == Duration(m, |m|, timeout / 1000)
    {
      hide HoldStart, EntryRequests;
      var holdStart := -1;
      HoldStartNothing(m);
      time := 0;
      var i := 0;
      while i < |m|
        invariant 0 <= i <= |m| && holdStart == HoldStart(m, i)
        invariant OutView() == SendAll(old(OutView()), Requests(m, i))
        invariant time == Duration(m, i, timeout / 1000)
      {
        SendAllConcat(old(OutView()), Requests(m, i), EntryRequests(m, i));
        var wait;
        holdStart, wait := MacroEntry(m, i, holdStart);
        time := time + wait;
        if timeout != 0 {
          time := time + timeout / 1000;
        }
        i := i + 1;
      }
    }

    method ExecuteMacro(dl: int, m: Macro) returns (time: nat)
      requires Shape()
      modifies keystate, `lastPressedOutputCode, `trace
      ensures !inhibitModifierGuard ==>
                (OutView(), time) == Actions.ExecuteMacro(config, LayView().ls, old(OutView()), dl, m)
    {
      time := 0;
      if |m| == 1 && m[0].KeySeqEntry? {
        var _ := UpdateMods(dl, m[0].mods);
        SendKey(m[0].code, true);
        SendKey(m[0].code, false);
      } else {
        var _ := UpdateMods(dl, {});
        time := MacroExecute(m, config.macroSequenceTimeout);
      }
      var _ := UpdateMods(-1, {});
    }

    // ----------------------------------------------------------------------------- layers

    method DeactivateLayer(idx: nat)
      requires Shape() && idx < |config.layers|
      modifies layerState, `underflow
      ensures LayView() == Deactivate(old(LayView()), idx)
      ensures CoreView() == old(CoreView()).(lay := Deactivate(old(CoreView()).lay, idx))
    {
      if layerState[idx].active == 0 {
        underflow := true;
      } else {
        layerState[idx] := layerState[idx].(active := layerState[idx].active - 1);
      }
    }

    method ActivateLayer(code: Code, idx: nat)
      requires Shape() && idx < |config.layers|
      modifies layerState, `clock, cache
      ensures LayView() == Activate(old(LayView()), idx)
      ensures cache[..] == MarkLayer(old(cache[..]), code, idx)
      ensures CoreView() == old(CoreView()).(lay := Activate(old(CoreView()).lay, idx),
                                             cache := MarkLayer(old(CoreView()).cache, code, idx))
    {
      clock := clock + 1;
      layerState[idx] := layerState[idx].(activationTime := clock, active := layerState[idx].active + 1);
      var slot := CacheGet(code);
      if slot != -1 {
        cache[slot] := cache[slot].(layer := idx);
      }
    }

    method LatchOneshot()
      modifies `oneshotLatch
      ensures LayView() == old(LayView()).(latch := true)
    {
      oneshotLatch := true;
    }

    method TimeOneshot(timeout: int)
      modifies `oneshotTimeout
      ensures LayView() == old(LayView()).(oneshotTimeout := timeout)
    {
      oneshotTimeout := timeout;
    }

    /** A released oneshot key leaves its layer armed. */
    method ArmOneshot(idx: nat)
      requires Shape() && idx < |config.layers|
      modifies layerState
      ensures LayView() == old(LayView()).(
                ls := old(LayView()).ls[idx := old(LayView()).ls[idx].(depth := old(LayView()).ls[idx].depth + 1)])
    {
      layerState[idx] := layerState[idx].(depth := layerState[idx].depth + 1);
    }

    /** The layer change of toggle(). */
    method FlipToggleLayer(code: Code, idx: nat)
      requires Shape() && idx < |config.layers|
      modifies layerState, `underflow, `clock, cache
      ensures LayView() == FlipToggle(old(LayView()), idx)
      ensures cache[..] == if old(LayView()).ls[idx].toggled then old(cache[..])
              else MarkLayer(old(cache[..]), code, idx)
      ensures CoreView() == old(CoreView()).(lay := FlipToggle(old(CoreView()).lay, idx), cache := cache[..])
    {
      layerState[idx] := layerState[idx].(toggled := !layerState[idx].toggled);
      if layerState[idx].toggled {
        ActivateLayer(code, idx);
      } else {
        DeactivateLayer(idx);
      }
    }

    /** swap() of a toggled layer. */
    method MoveToggle(dl: nat, idx: nat)
      requires Shape() && dl < |config.layers| && idx < |config.layers|
      modifies layerState, `underflow, `clock, cache
      ensures LayView() == SwapToggled(old(LayView()), dl, idx)
      ensures cache[..] == MarkLayer(old(cache[..]), 0, idx)
    {
      hide CoreView;
      DeactivateLayer(dl);
      layerState[dl] := layerState[dl].(toggled := false);
      ActivateLayer(0, idx);
      layerState[idx] := layerState[idx].(toggled := true);
    }

    /** swap() of a layer armed as a oneshot. */
    method MoveOneshot(dl: nat, idx: nat)
      requires Shape() && dl < |config.layers| && idx < |config.layers| && LayView().ls[dl].depth != 0
      modifies layerState, `underflow, `clock, cache
      ensures LayView() == SwapOneshot(old(LayView()), dl, idx)
      ensures cache[..] == MarkLayer(old(cache[..]), 0, idx)
    {
      hide CoreView, Activate, MarkLayer;
      DeactivateLayer(dl);
      layerState[dl] := layerState[dl].(depth := layerState[dl].depth - 1);
      ActivateLayer(0, idx);
      layerState[idx] := layerState[idx].(depth := layerState[idx].depth + 1);
    }

    method ClearOneshot()
      requires Shape()
      modifies layerState, `underflow, `oneshotLatch, `oneshotTimeout
      ensures LayView() == Layers.ClearOneshot(old(LayView()))
      ensures CoreView() == old(CoreView()).(lay := Layers.ClearOneshot(old(CoreView()).lay))
    {
      var i := 0;
      while i < |config.layers|
        invariant 0 <= i <= |config.layers|
        invariant LayView() == ClearOneshotLayers(old(LayView()), i)
        invariant oneshotLatch == old(oneshotLatch) && oneshotTimeout == old(oneshotTimeout)
      {
        DisarmLayer(i);
        i := i + 1;
      }
      oneshotLatch := false;
      oneshotTimeout := 0;
    }

    /** The inner loop of clear_oneshot. */
    method DisarmLayer(i: nat)
      requires Shape() && i < |config.layers|
      modifies layerState, `underflow
      ensures LayView() == ClearOneshotLayer(old(LayView()), i)
    {
      hide CoreView;
      while layerState[i].depth != 0
        invariant ClearOneshotLayer(LayView(), i) == ClearOneshotLayer(old(LayView()), i)
        decreases layerState[i].depth
      {
        DeactivateLayer(i);
        layerState[i] := layerState[i].(depth := layerState[i].depth - 1);
      }
    }

    method Clear()
      requires Shape()
      modifies layerState, `underflow, `oneshotLatch, `oneshotTimeout, `macroRun, keystate, `trace
      ensures LayView() == ClearToggles(config.layers, Layers.ClearOneshot(old(LayView())), |config.layers|)
      ensures OutView() == ResetKeys(old(OutView()), 256) && macroRun == old(macroRun).(active := None)
    {
      hide CoreView, Layers.ClearOneshot, ResetKeys;
      ClearOneshot();
      ghost var start := LayView();
      var i := 1;
      while i < |config.layers|
        modifies layerState, `underflow
        invariant 1 <= i && (i <= |config.layers| || (i == 1 && |config.layers| == 0))
        invariant i <= |config.layers| ==> LayView() == ClearToggles(config.layers, start, i)
        invariant |config.layers| == 0 ==> LayView() == start
      {
        if config.layers[i].kind != LayoutType {
          if layerState[i].toggled {
            layerState[i] := layerState[i].(toggled := false);
            DeactivateLayer(i);
          }
        }
        i := i + 1;
      }
      macroRun := macroRun.(active := None);
      ResetKeystate();
    }

    method SetLayout(idx: nat)
      requires Shape() && idx < |config.layers|
      modifies layerState, `underflow, `oneshotLatch, `oneshotTimeout, `macroRun, keystate, `trace, `layout
      ensures LayView() ==
              Layers.SetLayout(config.layers,
                ClearToggles(config.layers, Layers.ClearOneshot(old(LayView())), |config.layers|), idx)
      ensures OutView() == ResetKeys(old(OutView()), 256) && macroRun == old(macroRun).(active := None)
    {
      hide CoreView;
      Clear();
      ghost var start := LayView();
      var i := 1;
      while i < |config.layers|
        modifies layerState
        invariant 1 <= i <= |config.layers|
        invariant LayView() == ClearLayouts(config.layers, start, i)
      {
        if config.layers[i].kind == LayoutType {
          layerState[i] := layerState[i].(active := 0);
        }
        i := i + 1;
      }
      if idx != 0 {
        layerState[idx] := layerState[idx].(activationTime := 1, active := 1);
      }
      layout := idx;
    }

    // -------------------------------------------------------------------------- the cache

    /** The slot of a code, or -1. */
    method CacheGet(code: Code) returns (r: int)
      requires Shape()
      ensures r == Find(cache[..], code) && -1 <= r < CACHE_SIZE
    {
      var i := 0;
      while i < CACHE_SIZE
        invariant 0 <= i <= CACHE_SIZE
        invariant FindIn(cache[..], code, i) == -1
      {
        if cache[i].code == code {
          FindFirst(cache[..], code, i, cache.Length);
          return i;
        }
        i := i + 1;
      }
      return -1;
    }

    /** Returns -1 if the code is absent and no slot is free. */
    method CacheSet(code: Code, entry: Option<CacheEntry>) returns (r: int)
      requires Shape() && code != 0
      modifies cache
      ensures r == if SlotFor(old(cache[..]), code) == -1 then -1 else 0
      ensures cache[..] == if entry.Some? then Put(old(cache[..]), code, entry.value) else Remove(old(cache[..]), code)
    {
      var slot, i := -1, 0;
      while i < CACHE_SIZE
        invariant 0 <= i <= CACHE_SIZE
        invariant FindIn(cache[..], code, i) == -1 && slot == LastFree(cache[..], i)
      {
        if cache[i].code == code {
          FindFirst(cache[..], code, i, cache.Length);
          slot := i;
          break;
        } else if cache[i].code == 0 {
          slot := i;
        }
        i := i + 1;
      }
      assert slot == SlotFor(cache[..], code);
      if slot == -1 {
        return -1;
      }
      if entry.None? {
        cache[slot] := cache[slot].(code := 0);
      } else {
        cache[slot] := entry.value.(code := code);
      }
      return 0;
    }

    // -------------------------------------------------------------------------- the timers

    method ScheduleTimeout(timeout: int)
      requires Shape() && Valid()
      modifies timeouts, `nrTimeouts, `overflow
      ensures Valid() && CoreView() == Schedule(old(CoreView()), timeout)
    {
      if nrTimeouts >= MAX_TIMEOUTS {
        overflow := true;
        return;
      }
      timeouts[nrTimeouts] := timeout;
      nrTimeouts := nrTimeouts + 1;
    }

    /** Drops the deadlines that have passed, in place, and returns the time to the earliest
        one left, 0 if none is. */
    method CalculateMainLoopTimeout(time: nat) returns (r: nat)
      requires Shape() && nrTimeouts <= MAX_TIMEOUTS
      modifies timeouts, `nrTimeouts
      ensures nrTimeouts <= MAX_TIMEOUTS && timeouts[..nrTimeouts] == Events.Later(old(timeouts[..nrTimeouts]), time)
      ensures r == if nrTimeouts == 0 then 0 else Events.Minimum(timeouts[..nrTimeouts]) - time
    {
      hide Events.Later, Events.Minimum;
      ghost var before := timeouts[..nrTimeouts];
      LaterNothing(time);
      var timeout := 0;
      var n, i := 0, 0;
      while i < nrTimeouts
        modifies timeouts
        invariant 0 <= n <= i <= nrTimeouts
        invariant timeouts[..n] == Events.Later(before[..i], time)
        invariant forall j | i <= j < nrTimeouts :: timeouts[j] == before[j]
        invariant timeout == if n == 0 then 0 else Events.Minimum(timeouts[..n])
        invariant n > 0 ==> timeout > time
      {
        ghost var kept := timeouts[..n];
        LaterStep(before, i, time);
        assert timeouts[i] == before[i];
        if timeouts[i] > time {
          MinimumStep(kept, timeouts[i]);
          if timeout == 0 || timeouts[i] < timeout {
            timeout := timeouts[i];
          }
          timeouts[n] := timeouts[i];
          n := n + 1;
          assert timeouts[..n] == kept + [before[i]];
        }
        i := i + 1;
      }
      assert before[..i] == before;
      nrTimeouts := n;
      r := if timeout != 0 then timeout - time else 0;
    }

    // ------------------------------------------------------------------------- the lookup

    /** The action a code is bound to and the layer that binds it. */
    method LookupDescriptor(code: Code) returns (d: Descriptor, dl: nat)
      requires Shape() && ConfigOk(config) && ActiveOk(config, activeChords[..])
      ensures (d, dl) == Events.LookupDescriptor(config, layerState[..], activeChords[..], code)
    {
      if CHORD_1 <= code <= CHORD_MAX {
        var chord := activeChords[code - CHORD_1];
        return chord.d, chord.layer;
      }
      d, dl := ScanActive(code);
      d, dl := ScanComposites(code, d, dl);
      if d.Nothing? {
        d, dl := KeySequence(code, {}), 0;
      }
    }

    /** The first scan of lookup_descriptor. */
    method ScanActive(code: Code) returns (d: Descriptor, dl: nat)
      requires Shape() && ConfigOk(config)
      ensures var best := Events.BestActive(config, layerState[..], code, |config.layers|);
              if best == -1 then d.Nothing? else d == config.layers[best].keymap[code] && dl == best && !d.Nothing?
    {
      d, dl := Nothing, 0;
      var maxts := 0;
      var i := 0;
      while i < |config.layers|
        invariant 0 <= i <= |config.layers|
        invariant var best := Events.BestActive(config, layerState[..], code, i);
                  if best == -1 then d.Nothing? && maxts == 0
                  else
                    d == config.layers[best].keymap[code] && dl == best && !d.Nothing? &&
                    maxts == layerState[best].activationTime
      {
        if layerState[i].active != 0 {
          var activationTime := layerState[i].activationTime;
          if !config.layers[i].keymap[code].Nothing? && activationTime >= maxts {
            maxts := activationTime;
            d, dl := config.layers[i].keymap[code], i;
          }
        }
        i := i + 1;
      }
    }

    /** The second scan: a composite layer takes precedence over what the first one found. */
    method ScanComposites(code: Code, d0: Descriptor, dl0: nat) returns (d: Descriptor, dl: nat)
      requires Shape() && ConfigOk(config)
      ensures var best := Events.BestComposite(config, layerState[..], code, |config.layers|);
              if best == -1 then d == d0 && dl == dl0
              else d == config.layers[best].keymap[code] && dl == best && !d.Nothing?
    {
      hide Events.FullyActive, WellFormed, TableOk;
      d, dl := d0, dl0;
      var max := 0;
      var i := 0;
      while i < |config.layers|
        invariant 0 <= i <= |config.layers|
        invariant var best := Events.BestComposite(config, layerState[..], code, i);
                  if best == -1 then d == d0 && dl == dl0 && max == 0
                  else
                    d == config.layers[best].keymap[code] && dl == best && !d.Nothing? &&
                    max == |config.layers[best].constituents|
      {
        if config.layers[i].kind == Composite {
          var fullyActive := IsFullyActive(i);
          var constituents := |config.layers[i].constituents|;
          if fullyActive && !config.layers[i].keymap[code].Nothing? && constituents > max {
            d, dl := config.layers[i].keymap[code], i;
            max := constituents;
          }
        }
        i := i + 1;
      }
    }

    method IsFullyActive(l: nat) returns (r: bool)
      requires Shape() && ConfigOk(config) && l < |config.layers|
      ensures r == Events.FullyActive(config, layerState[..], l)
    {
      r := true;
      var j := 0;
      while j < |config.layers[l].constituents|
        invariant 0 <= j <= |config.layers[l].constituents|
        invariant r == forall n | 0 <= n < j :: layerState[config.layers[l].constituents[n]].active > 0
      {
        if layerState[config.layers[l].constituents[j]].active == 0 {
          r := false;
        }
        j := j + 1;
      }
    }

    // -------------------------------------------------------------------------- the chords

    /** 0 for no match, 1 for a partial, 2 for an exact one. */
    method ChordEventMatch(chord: Chord, events: array<KeyEvent>, nevents: nat) returns (r: nat)
      requires nevents <= events.Length
      ensures r == Events.ChordEventMatch(chord, events[..nevents])
    {
      if nevents == 0 {
        return 0;
      }
      ghost var queue := events[..nevents];
      var npressed, n, i := 0, 0, 0;
      while i < nevents
        invariant 0 <= i <= nevents && n == npressed == |Events.Presses(queue[..i])|
        invariant forall j | 0 <= j < npressed :: Events.Presses(queue[..i])[j] in chord.keys
      {
        PressesStep(queue, i);
        if events[i].pressed {
          npressed := npressed + 1;
          var found, j := false, 0;
          while j < |chord.keys|
            invariant 0 <= j <= |chord.keys| && found == (events[i].code in chord.keys[..j])
          {
            if chord.keys[j] == events[i].code {
              found := true;
            }
            j := j + 1;
          }
          assert chord.keys[..j] == chord.keys;
          if !found {
            PressesAppend(queue, i + 1);
            assert Events.Presses(queue)[npressed - 1] == events[i].code;
            return 0;
          }
          n := n + 1;
        }
        i := i + 1;
      }
      assert queue[..i] == queue;
      if npressed == 0 {
        return 0;
      }
      return if n == |chord.keys| then 2 else 1;
    }

    /** An assertion on a fixed capacity fails. */
    method Halt()
      modifies `overflow
      ensures State() == Machine.Halt(old(State()))
    {
      overflow := true;
    }

    /** False if the queue is full: an assertion failed. */
    method EnqueueChordEvent(code: Code, pressed: bool, time: nat) returns (ok: bool)
      requires Shape() && Valid()
      modifies chordQueue, `chordQueueSize, `overflow
      ensures Valid() && ok == (code == 0 || |old(ChordsView()).queue| < QUEUE_SIZE)
      ensures State() ==
              if ok then old(State()).(chords := Machine.Enqueue(old(ChordsView()), KeyEvent(code, pressed, time)))
              else Machine.Halt(old(State()))
    {
      if code == 0 {
        return true;
      }
      if chordQueueSize >= QUEUE_SIZE {
        Halt();
        return false;
      }
      chordQueue[chordQueueSize] := KeyEvent(code, pressed, time);
      chordQueueSize := chordQueueSize + 1;
      return true;
    }

    /** 0 for no match, 1 for a partial, 2 for an unambiguous, 3 for an ambiguous one; a full
        match becomes the recogniser's. */
    method CheckChordMatch() returns (r: nat)
      requires Shape() && Valid()
      modifies `chordMatch, `chordMatchLayer
      ensures (r, chordMatch, chordMatchLayer) == Events.CheckChordMatch(config, CoreView().lay.ls, old(ChordsView()))
      ensures ChordsView() == old(ChordsView()).(match_ := chordMatch, matchLayer := chordMatchLayer)
      ensures State() == old(State()).(chords := ChordsView())
    {
      hide Events.ChordEventMatch, OutView, Timers, HeldBack;
      var full, partial, maxts := false, false, -1;
      ghost var queue := chordQueue[..chordQueueSize];
      ghost var start := Events.Scan(false, false, chordMatch, chordMatchLayer, -1);
      var idx := 0;
      while idx < |config.layers|
        modifies `chordMatch, `chordMatchLayer
        invariant 0 <= idx <= |config.layers|
        invariant Events.Scan(full, partial, chordMatch, chordMatchLayer, maxts) ==
                  Events.ScanLayers(config, layerState[..], queue, idx, start)
      {
        if layerState[idx].active != 0 {
          var chords := config.layers[idx].chords;
          ghost var before := Events.Scan(full, partial, chordMatch, chordMatchLayer, maxts);
          var i := 0;
          while i < |chords|
            modifies `chordMatch, `chordMatchLayer
            invariant 0 <= i <= |chords|
            invariant Events.Scan(full, partial, chordMatch, chordMatchLayer, maxts) ==
                      Events.ScanChords(config, layerState[..], queue, idx, i, before)
          {
            var ret := ChordEventMatch(chords[i], chordQueue, chordQueueSize);
            if ret == 2 && maxts <= layerState[idx].activationTime {
              chordMatchLayer := idx;
              chordMatch := Some(chords[i]);
              full := true;
              maxts := layerState[idx].activationTime;
            } else if ret == 1 {
              partial := true;
            }
            i := i + 1;
          }
        }
        idx := idx + 1;
      }
      return if full then if partial then 3 else 2 else if partial then 1 else 0;
    }

    // ------------------------------------------------------------------------- the actions

    lemma CoreFacts()
      requires CoreOk(config, CoreView())
      ensures ConfigOk(config) && Allowed(config, memo.repeatable) && IsRepeatable(memo.repeatable)
    {
    }

    lemma ViewShape()
      requires Shape()
      ensures |OutView().keys| == 256 && |LayView().ls| == |config.layers| == layerState.Length
      ensures forall l | 0 <= l < layerState.Length :: LayView().ls[l] == layerState[l]
      ensures LayView().latch == oneshotLatch && LayView().oneshotTimeout == oneshotTimeout
      ensures cache.Length == |cache[..]| == CACHE_SIZE
    {
    }

    method KeySequenceAction(d: Descriptor, dl: nat, pressed: bool, time: int)
      requires Shape() && Valid() && CoreOk(config, CoreView()) && d.KeySequence? && Allowed(config, d)
      modifies keystate, layerState, `lastPressedOutputCode, `trace, `underflow, `oneshotLatch, `oneshotTimeout, `memo
      ensures Valid() && CoreView() == Actions.ActKeySequence(config, old(CoreView()), d, dl, pressed, time)
    {
      hide CoreOk, Shape, Timers, Schedule, MarkLayer, Activate, Deactivate, FlipToggle, Layers.ClearOneshot, Send,
           Actions.Sync, Actions.UpdateMods, Actions.ExecuteMacro, OutView, LayView, OfClass, Actions.Within;
      if pressed {
        var activeMods := StrikeKey(d, dl);
        memo := memo.(repeatable := KeySequence(d.code, activeMods));
        ClearOneshot();
      } else {
        SendKey(d.code, false);
        SyncMods();
      }
      NoteSimple(d.mods, time);
    }

    /** The time of the last key sequence that is typed without or with shift only. */
    method NoteSimple(mods: Mods, time: int)
      modifies `memo
      ensures memo == old(memo).(
              lastSimple := if mods == {} || mods == {Shift} then time else old(memo).lastSimple)
    {
      if mods == {} || mods == {Shift} {
        memo := memo.(lastSimple := time);
      }
    }

    /** The strokes of a key sequence that is pressed. */
    method StrikeKey(d: Descriptor, dl: nat) returns (activeMods: Mods)
      requires Shape() && Valid() && d.KeySequence?
      modifies keystate, `lastPressedOutputCode, `trace
      ensures var up := if old(OutView()).keys[d.code] then Send(old(OutView()), d.code, false) else old(OutView());
              var (held, mods) := Actions.UpdateMods(config, LayView().ls, up, false, dl, d.mods);
              OutView() == Send(held, d.code, true) && activeMods == mods
    {
      if keystate[d.code] {
        SendKey(d.code, false);
      }
      activeMods := UpdateMods(dl, d.mods);
      SendKey(d.code, true);
    }

    method OverloadTimeoutAction(code: Code, d: Descriptor, dl: nat, pressed: bool, time: int)
      requires Shape() && Valid() && CoreOk(config, CoreView()) && Allowed(config, d) && dl < |config.layers| &&
               code != 0
      requires d.OverloadTimeout? || d.OverloadTimeoutTap?
      modifies timeouts, `nrTimeouts, `overflow, `pendingOverload
      ensures Valid() && CoreView() == Actions.ActOverloadTimeout(config, old(CoreView()), code, d, dl, pressed, time)
    {
      hide CoreOk, Shape, Timers, Schedule, MarkLayer, Activate, Deactivate, FlipToggle, Layers.ClearOneshot, Send,
           Actions.Sync, Actions.UpdateMods, Actions.ExecuteMacro, OutView, LayView, OfClass, Actions.Within;
      if pressed {
        pendingOverload := PendingOverload(
          code, dl, time + d.timeout, d.OverloadTimeoutTap?, config.descriptors[d.action], Layer(d.layer));
        ScheduleTimeout(pendingOverload.expiration);
      }
    }

    method LayerAction(code: Code, d: Descriptor, pressed: bool)
      requires Shape() && Valid() && CoreOk(config, CoreView()) && Allowed(config, d) && (d.Layer? || d.LayerM?)
      modifies keystate, layerState, cache, `lastPressedOutputCode, `trace, `underflow, `clock, `inhibitModifierGuard
      ensures Valid() && CoreView() == Actions.ActLayer(config, old(CoreView()), code, d, pressed)
    {
      hide CoreOk, Shape, Timers, Schedule, MarkLayer, Activate, Deactivate, FlipToggle, Layers.ClearOneshot, Send,
           Actions.Sync, Actions.UpdateMods, Actions.ExecuteMacro, OutView, LayView, OfClass, Actions.Within;
      if pressed {
        ActivateLayer(code, d.layer);
      } else {
        DeactivateLayer(d.layer);
      }
      SyncModsAfter(code);
    }

    method ClearAction(d: Descriptor, dl: nat, pressed: bool)
      requires Shape() && Valid() && CoreOk(config, CoreView()) && Allowed(config, d) && (d.Clear? || d.ClearM?)
      modifies keystate, layerState, `lastPressedOutputCode, `trace, `underflow, `oneshotLatch, `oneshotTimeout,
               `macroRun
      ensures Valid() && CoreView() == Actions.ActClear(config, old(CoreView()), d, dl, pressed)
    {
      hide CoreOk, Shape, Timers, Schedule, MarkLayer, Activate, Deactivate, FlipToggle, Layers.ClearOneshot, Send,
           Actions.Sync, Actions.UpdateMods, Actions.ExecuteMacro, OutView, LayView, OfClass, Actions.Within;
      if pressed {
        Clear();
        if d.ClearM? {
          var _ := ExecuteMacro(dl, config.macros[d.mac]);
        }
      }
    }

    method LayoutAction(d: Descriptor, pressed: bool)
      requires Shape() && Valid() && CoreOk(config, CoreView()) && d.Layout? && Allowed(config, d)
      modifies keystate, layerState, `trace, `underflow, `oneshotLatch, `oneshotTimeout, `macroRun, `layout
      ensures Valid() && CoreView() == Actions.ActLayout(config, old(CoreView()), d, pressed)
    {
      hide CoreOk, Shape, Timers, Schedule, MarkLayer, Activate, Deactivate, FlipToggle, Layers.ClearOneshot, Send,
           Actions.Sync, Actions.UpdateMods, Actions.ExecuteMacro, OutView, LayView, OfClass, Actions.Within;
      if pressed {
        SetLayout(d.layout);
      }
    }

    method OneshotAction(code: Code, d: Descriptor, dl: nat, pressed: bool, time: int)
      requires Shape() && Valid() && CoreOk(config, CoreView()) && Allowed(config, d)
      requires d.Oneshot? || d.OneshotM? || d.OneshotK?
      modifies keystate, layerState, cache, timeouts, `nrTimeouts, `overflow, `lastPressedOutputCode, `trace,
               `underflow, `clock, `oneshotLatch, `oneshotTimeout
      ensures Valid() && CoreView() == Actions.ActOneshot(config, old(CoreView()), code, d, dl, pressed, time)
    {
      if pressed {
        OneshotPress(code, d, dl, time);
      } else {
        OneshotRelease(code, d, dl, time);
      }
    }

    method OneshotPress(code: Code, d: Descriptor, dl: nat, time: int)
      requires Shape() && Valid() && CoreOk(config, CoreView()) && Allowed(config, d)
      requires d.Oneshot? || d.OneshotM? || d.OneshotK?
      modifies keystate, layerState, cache, `lastPressedOutputCode, `trace, `clock, `oneshotLatch
      ensures Valid() && CoreView() == Actions.ActOneshot(config, old(CoreView()), code, d, dl, true, time)
    {
      hide CoreOk, Shape, Timers, Schedule, MarkLayer, Activate, Deactivate, FlipToggle, Layers.ClearOneshot, Send,
           Actions.Sync, Actions.UpdateMods, Actions.ExecuteMacro, OutView, LayView, OfClass, Actions.Within;
      ViewShape();
      ActivateLayer(code, d.layer);
      var _ := UpdateMods(dl, {});
      LatchOneshot();
    }

    method OneshotRelease(code: Code, d: Descriptor, dl: nat, time: int)
      requires Shape() && Valid() && CoreOk(config, CoreView()) && Allowed(config, d)
      requires d.Oneshot? || d.OneshotM? || d.OneshotK?
      modifies keystate, layerState, timeouts, `nrTimeouts, `overflow, `lastPressedOutputCode, `trace, `underflow,
               `oneshotTimeout
      ensures Valid() && CoreView() == Actions.ActOneshot(config, old(CoreView()), code, d, dl, false, time)
    {
      hide CoreOk, Shape, Timers, Schedule, MarkLayer, Activate, Deactivate, FlipToggle, Layers.ClearOneshot, Send,
           Actions.Sync, Actions.UpdateMods, Actions.ExecuteMacro, OutView, LayView, OfClass, Actions.Within;
      ViewShape();
      if oneshotLatch {
        ArmOneshot(d.layer);
        if config.oneshotTimeout != 0 {
          TimeOneshot(time + config.oneshotTimeout);
          ScheduleTimeout(time + config.oneshotTimeout);
        }
      } else {
        DeactivateLayer(d.layer);
        SyncMods();
      }
    }

    method RememberMacro(run: MacroRun, d: Descriptor)
      modifies `macroRun, `memo
      ensures CoreView() == old(CoreView()).(mac := run, memo := old(CoreView()).memo.(repeatable := d))
    {
      macroRun := run;
      memo := memo.(repeatable := d);
    }

    method StartMacro(dl: nat, m: Macro) returns (time: nat)
      requires Shape() && !inhibitModifierGuard
      modifies keystate, layerState, `lastPressedOutputCode, `trace, `underflow, `oneshotLatch, `oneshotTimeout
      ensures var lay := Layers.ClearOneshot(old(CoreView()).lay);
              CoreView() == old(CoreView()).(
                lay := lay, out := Actions.ExecuteMacro(config, lay.ls, old(CoreView()).out, dl, m).0) &&
              time == Actions.ExecuteMacro(config, lay.ls, old(CoreView()).out, dl, m).1
    {
      ClearOneshot();
      time := ExecuteMacro(dl, m);
    }

    method MacroAction(d: Descriptor, dl: nat, pressed: bool, time: int)
      requires Shape() && Valid() && CoreOk(config, CoreView()) && Allowed(config, d) && (d.MacroOnce? || d.Macro2?)
      modifies keystate, layerState, timeouts, `nrTimeouts, `overflow, `lastPressedOutputCode, `trace, `underflow,
               `oneshotLatch, `oneshotTimeout, `macroRun, `memo
      ensures Valid() && CoreView() == Actions.ActMacro(config, old(CoreView()), d, dl, pressed, time)
    {
      hide CoreOk, Shape, Timers, Schedule, MarkLayer, Activate, Deactivate, FlipToggle, Layers.ClearOneshot, Send,
           Actions.Sync, Actions.UpdateMods, Actions.ExecuteMacro, OutView, LayView, CoreView;
      if pressed {
        var timeout, interval := config.macroTimeout, config.macroRepeatTimeout;
        if d.Macro2? {
          timeout, interval := d.timeout, d.interval;
        }
        var executionTime := StartMacro(dl, config.macros[d.mac]);
        RememberMacro(MacroRun(Some(d.mac), dl, executionTime + time + timeout, interval), d);
        ScheduleTimeout(executionTime + time + timeout);
      }
    }

    method ToggleAction(code: Code, d: Descriptor, pressed: bool)
      requires Shape() && Valid() && CoreOk(config, CoreView()) && Allowed(config, d) && (d.Toggle? || d.ToggleM?)
      modifies keystate, layerState, cache, `lastPressedOutputCode, `trace, `underflow, `clock, `oneshotLatch,
               `oneshotTimeout
      ensures Valid() && CoreView() == Actions.ActToggle(config, old(CoreView()), code, d, pressed)
    {
      hide CoreOk, Shape, Timers, Schedule, MarkLayer, Activate, Deactivate, FlipToggle, Layers.ClearOneshot, Send,
           Actions.Sync, Actions.UpdateMods, Actions.ExecuteMacro, OutView, LayView, OfClass, Actions.Within;
      if pressed {
        FlipToggleLayer(code, d.layer);
        SyncMods();
        ClearOneshot();
      }
    }

    method TimeoutAction(code: Code, d: Descriptor, dl: nat, pressed: bool, time: int)
      requires Shape() && Valid() && CoreOk(config, CoreView()) && d.Timeout? && Allowed(config, d) &&
               dl < |config.layers|
      modifies timeouts, `nrTimeouts, `overflow, `pendingTimeout
      ensures Valid() && CoreView() == Actions.ActTimeout(config, old(CoreView()), code, d, dl, pressed, time)
    {
      hide CoreOk, Shape, Timers, Schedule, MarkLayer, Activate, Deactivate, FlipToggle, Layers.ClearOneshot, Send,
           Actions.Sync, Actions.UpdateMods, Actions.ExecuteMacro, OutView, LayView, OfClass, Actions.Within;
      if pressed {
        pendingTimeout := PendingTimeout(
          code, dl, false, time + d.timeout, time, config.descriptors[d.action1], config.descriptors[d.action2]);
        ScheduleTimeout(pendingTimeout.expiration);
      } else if time == pendingTimeout.activationTime {
        pendingTimeout := pendingTimeout.(spontaneous := true);
      }
    }

    /** The command itself is no part of the model. */
    method CommandAction(pressed: bool)
      requires Shape() && Valid() && CoreOk(config, CoreView())
      modifies keystate, layerState, `lastPressedOutputCode, `trace, `underflow, `oneshotLatch, `oneshotTimeout
      ensures Valid() && CoreView() == Actions.ActCommand(config, old(CoreView()), pressed)
    {
      hide CoreOk, Shape, Timers, Schedule, MarkLayer, Activate, Deactivate, FlipToggle, Layers.ClearOneshot, Send,
           Actions.Sync, Actions.UpdateMods, Actions.ExecuteMacro, OutView, LayView, OfClass, Actions.Within;
      if pressed {
        ClearOneshot();
        SyncMods();
      }
    }

    method SwapAction(d: Descriptor, dl: nat, pressed: bool)
      requires Shape() && Valid() && CoreOk(config, CoreView()) && Allowed(config, d) && IsSwap(d) &&
               dl < |config.layers|
      modifies keystate, layerState, cache, `lastPressedOutputCode, `trace, `underflow, `strayed, `clock
      ensures Valid() && CoreView() == Actions.ActSwapM(config, old(CoreView()), d, dl, pressed)
    {
      hide CoreOk, Shape, Timers, Schedule, MarkLayer, Activate, Deactivate, FlipToggle, Layers.ClearOneshot, Send,
           Actions.Sync, Actions.UpdateMods, Actions.ExecuteMacro, OutView, LayView, OfClass, Actions.Within;
      if pressed {
        SwapLayers(d, dl);
        if d.SwapM? {
          var _ := ExecuteMacro(dl, config.macros[d.mac]);
        }
      } else if d.SwapM? && |config.macros[d.mac]| == 1 && config.macros[d.mac][0].KeySeqEntry? {
        SendKey(config.macros[d.mac][0].code, false);
        SyncMods();
      }
    }

    method SwapLayers(d: Descriptor, dl: nat)
      requires Shape() && Valid() && CoreOk(config, CoreView()) && Allowed(config, d) && IsSwap(d) &&
               dl < |config.layers|
      modifies keystate, layerState, cache, `lastPressedOutputCode, `trace, `underflow, `strayed, `clock
      ensures Valid() && CoreView() == Actions.ActSwap(config, old(CoreView()), d, dl)
    {
      hide CoreOk, Shape, Timers, Schedule, MarkLayer, Activate, Deactivate, FlipToggle, Layers.ClearOneshot, Send,
           Actions.Sync, Actions.UpdateMods, Actions.ExecuteMacro, OutView, LayView, OfClass, Actions.Within;
      ViewShape();
      var idx := d.layer;
      if layerState[dl].toggled {
        MoveToggle(dl, idx);
        SyncMods();
      } else if layerState[dl].depth != 0 {
        MoveOneshot(dl, idx);
        SyncMods();
      } else {
        var slot := FindActivatorSlot(dl);
        if slot != -1 {
          SwapHeld(slot, d, dl);
        }
      }
    }

    ghost method RecordSwap(astray: bool)
      modifies `strayed
      ensures LayView() == old(LayView()).(strayed := old(LayView()).strayed || astray)
    {
      strayed := strayed || astray;
    }

    method RebindSlot(slot: nat, d: Descriptor)
      requires slot < cache.Length
      modifies cache
      ensures cache[..] == old(cache[..])[slot := old(cache[..])[slot].(d := d)]
    {
      cache[slot] := cache[slot].(d := d);
    }

    /** swap() of a layer that a held key activated: the key is bound to the new layer. */
    method SwapHeld(slot: nat, d: Descriptor, dl: nat)
      requires Shape() && Valid() && CoreOk(config, CoreView()) && Allowed(config, d) && IsSwap(d) &&
               dl < |config.layers|
      requires !LayView().ls[dl].toggled && LayView().ls[dl].depth == 0
      requires slot == FindActivator(config, cache[..], dl, CACHE_SIZE)
      modifies keystate, layerState, cache, `lastPressedOutputCode, `trace, `underflow, `strayed, `clock
      ensures Valid() && CoreView() == Actions.ActSwap(config, old(CoreView()), d, dl)
    {
      hide CoreOk, Shape, Timers, Schedule, MarkLayer, Activate, Deactivate, FlipToggle, Layers.ClearOneshot, Send,
           Actions.Sync, Actions.UpdateMods, Actions.ExecuteMacro, OutView, LayView, OfClass, Actions.Within;
      ViewShape();
      ghost var astray := HeldLayer(cache[slot].d) != dl;
      RebindSlot(slot, Layer(d.layer));
      DeactivateLayer(dl);
      ActivateLayer(cache[slot].code, d.layer);
      RecordSwap(astray);
      SyncMods();
    }

    /** The search of swap() through the cache. */
    method FindActivatorSlot(dl: nat) returns (r: int)
      requires Shape() && Valid() && CoreOk(config, CoreView()) && dl < |config.layers|
      ensures r == FindActivator(config, cache[..], dl, CACHE_SIZE)
    {
      r := -1;
      var i := 0;
      while i < CACHE_SIZE && r == -1
        invariant 0 <= i <= CACHE_SIZE && r == FindActivator(config, cache[..], dl, i)
      {
        if cache[i].code != 0 && cache[i].layer == dl && config.layers[dl].kind == Normal && dl != 0 {
          r := i;
        }
        i := i + 1;
      }
      FindActivatorStays(config, cache[..], dl, i, CACHE_SIZE);
    }

    method ScrollAction(d: Descriptor, pressed: bool)
      requires Shape() && Valid() && CoreOk(config, CoreView())
      modifies `memo
      ensures Valid() && CoreView() == Actions.ActScroll(config, old(CoreView()), d, pressed)
    {
      hide CoreOk, Shape, CoreView;
      MemoFact();
      match d
      case Scroll(s) => SetScroll(s, pressed);
      case ScrollToggleOn(s) => SetScroll(s, true);
      case ScrollToggleOff =>
        if pressed {
          SetScroll(memo.sensitivity, false);
        }
      case ScrollToggle(s) => SetScroll(s, if pressed then !memo.scroll else memo.scroll);
      case _ =>
    }

    method SetScroll(sensitivity: int, active: bool)
      modifies `memo
      ensures CoreView() == old(CoreView()).(memo := old(CoreView()).memo.(sensitivity := sensitivity,
              scroll := active))
    {
      memo := memo.(sensitivity := sensitivity, scroll := active);
    }

    lemma MemoFact()
      ensures CoreView().memo == memo
    {
    }

    method MacroFirst(d: Descriptor, dl: nat, pressed: bool)
      requires Shape() && Valid() && CoreOk(config, CoreView()) && Allowed(config, d)
      modifies keystate, `lastPressedOutputCode, `trace
      ensures Valid() && CoreView() == Actions.ActMacroFirst(config, old(CoreView()), d, dl, pressed)
    {
      hide CoreOk, Shape, Timers, Schedule, MarkLayer, Activate, Deactivate, FlipToggle, Layers.ClearOneshot, Send,
           Actions.Sync, Actions.UpdateMods, Actions.ExecuteMacro, OutView, LayView, OfClass, Actions.Within;
      if pressed && (d.LayerM? || d.OneshotM? || d.ToggleM?) {
        var _ := ExecuteMacro(dl, config.macros[d.mac]);
      }
    }

    // ------------------------------------------------------------------ process_descriptor

    method ProcessDescriptor(code: Code, d: Descriptor, dl: nat, pressed: bool, time: int)
      requires Shape() && Valid() && CoreOk(config, CoreView()) && Allowed(config, d) && dl < |config.layers| &&
               code != 0
      modifies keystate, layerState, cache, timeouts, `nrTimeouts, `overflow, `lastPressedOutputCode, `trace,
               `underflow, `strayed, `clock, `oneshotLatch, `oneshotTimeout, `inhibitModifierGuard, `pendingTimeout,
               `pendingOverload, `macroRun, `memo, `layout
      ensures Valid() && CoreView() == Actions.Act(config, old(CoreView()), code, d, dl, pressed, time)
      decreases Height(d), 3
    {
      hide CoreOk, Shape, OutView, LayView, Timers, ActMacroFirst, ActSwitch;
      MacroFirst(d, dl, pressed);
      Switch(code, d, dl, pressed, time);
      if pressed {
        memo := memo.(lastPressed := code);
      }
    }

    /** The switch of process_descriptor. */
    method Switch(code: Code, d: Descriptor, dl: nat, pressed: bool, time: int)
      requires Shape() && Valid() && CoreOk(config, CoreView()) && Allowed(config, d) && dl < |config.layers| &&
               code != 0
      modifies keystate, layerState, cache, timeouts, `nrTimeouts, `overflow, `lastPressedOutputCode, `trace,
               `underflow, `strayed, `clock, `oneshotLatch, `oneshotTimeout, `inhibitModifierGuard, `pendingTimeout,
               `pendingOverload, `macroRun, `memo, `layout
      ensures Valid() && CoreView() == Actions.ActSwitch(config, old(CoreView()), code, d, dl, pressed, time)
      decreases Height(d), 2
    {
      hide CoreOk, Shape, CoreView, OutView, LayView, Timers, ActSwitch;
      if d.Layer? || d.LayerM? || d.Oneshot? || d.OneshotM? {
        SwitchHeld(code, d, dl, pressed, time);
      } else if d.Toggle? || d.ToggleM? || IsSwap(d) || d.Layout? {
        SwitchLayer(code, d, dl, pressed, time);
      } else if d.OverloadTimeout? || d.OverloadTimeoutTap? || d.Timeout? {
        SwitchPending(code, d, dl, pressed, time);
      } else if d.OneshotK? || d.Overload? || d.OverloadIdle? || d.Repeat? {
        SwitchNested(code, d, dl, pressed, time);
      } else if d.Clear? || d.ClearM? || d.MacroOnce? || d.Macro2? {
        SwitchMacro(code, d, dl, pressed, time);
      } else if d.Nothing? || d.KeySequence? || d.Command? {
        SwitchKeys(code, d, dl, pressed, time);
      } else {
        SwitchScroll(code, d, dl, pressed, time);
      }
    }

    method SwitchHeld(code: Code, d: Descriptor, dl: nat, pressed: bool, time: int)
      requires Shape() && Valid() && CoreOk(config, CoreView()) && Allowed(config, d) && dl < |config.layers| &&
               code != 0
      requires d.Layer? || d.LayerM? || d.Oneshot? || d.OneshotM?
      modifies keystate, layerState, cache, timeouts, `nrTimeouts, `overflow, `lastPressedOutputCode, `trace,
               `underflow, `strayed, `clock, `oneshotLatch, `oneshotTimeout, `inhibitModifierGuard, `pendingTimeout,
               `pendingOverload, `macroRun, `memo, `layout
      ensures Valid() && CoreView() == Actions.ActSwitch(config, old(CoreView()), code, d, dl, pressed, time)
    {
      hide CoreOk, Shape, CoreView, OutView, LayView, Timers, OfClass, Actions.Within, ActLayer, ActOneshot;
      match d
      case Layer(_) => LayerAction(code, d, pressed);
      case LayerM(_, _) => LayerAction(code, d, pressed);
      case Oneshot(_) => OneshotAction(code, d, dl, pressed, time);
      case OneshotM(_, _) => OneshotAction(code, d, dl, pressed, time);
    }

    method SwitchLayer(code: Code, d: Descriptor, dl: nat, pressed: bool, time: int)
      requires Shape() && Valid() && CoreOk(config, CoreView()) && Allowed(config, d) && dl < |config.layers| &&
               code != 0
      requires d.Toggle? || d.ToggleM? || IsSwap(d) || d.Layout?
      modifies keystate, layerState, cache, timeouts, `nrTimeouts, `overflow, `lastPressedOutputCode, `trace,
               `underflow, `strayed, `clock, `oneshotLatch, `oneshotTimeout, `inhibitModifierGuard, `pendingTimeout,
               `pendingOverload, `macroRun, `memo, `layout
      ensures Valid() && CoreView() == Actions.ActSwitch(config, old(CoreView()), code, d, dl, pressed, time)
    {
      hide CoreOk, Shape, CoreView, OutView, LayView, Timers, OfClass, Actions.Within, ActToggle, ActSwapM, ActLayout;
      match d
      case Toggle(_) => ToggleAction(code, d, pressed);
      case ToggleM(_, _) => ToggleAction(code, d, pressed);
      case Swap(_) => SwapAction(d, dl, pressed);
      case SwapM(_, _) => SwapAction(d, dl, pressed);
      case Layout(_) => LayoutAction(d, pressed);
    }

    method SwitchPending(code: Code, d: Descriptor, dl: nat, pressed: bool, time: int)
      requires Shape() && Valid() && CoreOk(config, CoreView()) && Allowed(config, d) && dl < |config.layers| &&
               code != 0
      requires d.OverloadTimeout? || d.OverloadTimeoutTap? || d.Timeout?
      modifies keystate, layerState, cache, timeouts, `nrTimeouts, `overflow, `lastPressedOutputCode, `trace,
               `underflow, `strayed, `clock, `oneshotLatch, `oneshotTimeout, `inhibitModifierGuard, `pendingTimeout,
               `pendingOverload, `macroRun, `memo, `layout
      ensures Valid() && CoreView() == Actions.ActSwitch(config, old(CoreView()), code, d, dl, pressed, time)
    {
      hide CoreOk, Shape, CoreView, OutView, LayView, Timers, OfClass, Actions.Within, ActOverloadTimeout, ActTimeout;
      match d
      case OverloadTimeout(_, _, _) => OverloadTimeoutAction(code, d, dl, pressed, time);
      case OverloadTimeoutTap(_, _, _) => OverloadTimeoutAction(code, d, dl, pressed, time);
      case Timeout(_, _, _) => TimeoutAction(code, d, dl, pressed, time);
    }

    method SwitchNested(code: Code, d: Descriptor, dl: nat, pressed: bool, time: int)
      requires Shape() && Valid() && CoreOk(config, CoreView()) && Allowed(config, d) && dl < |config.layers| &&
               code != 0
      requires d.OneshotK? || d.Overload? || d.OverloadIdle? || d.Repeat?
      modifies keystate, layerState, cache, timeouts, `nrTimeouts, `overflow, `lastPressedOutputCode, `trace,
               `underflow, `strayed, `clock, `oneshotLatch, `oneshotTimeout, `inhibitModifierGuard, `pendingTimeout,
               `pendingOverload, `macroRun, `memo, `layout
      ensures Valid() && CoreView() == Actions.ActSwitch(config, old(CoreView()), code, d, dl, pressed, time)
      decreases Height(d), 1
    {
      hide CoreOk, Shape, CoreView, OutView, LayView, Timers, OfClass, Actions.Within, ActOneshotK, ActOverload,
           ActOverloadIdle, ActRepeat;
      match d
      case OneshotK(_, _) => OneshotKAction(code, d, dl, pressed, time);
      case Overload(_, _) => OverloadAction(code, d, dl, pressed, time);
      case OverloadIdle(_, _, _) => OverloadIdleAction(code, d, dl, pressed, time);
      case Repeat => RepeatAction(code, dl, pressed, time);
    }

    method SwitchKeys(code: Code, d: Descriptor, dl: nat, pressed: bool, time: int)
      requires Shape() && Valid() && CoreOk(config, CoreView()) && Allowed(config, d) && dl < |config.layers| &&
               code != 0
      requires d.Nothing? || d.KeySequence? || d.Command?
      modifies keystate, layerState, cache, timeouts, `nrTimeouts, `overflow, `lastPressedOutputCode, `trace,
               `underflow, `strayed, `clock, `oneshotLatch, `oneshotTimeout, `inhibitModifierGuard, `pendingTimeout,
               `pendingOverload, `macroRun, `memo, `layout
      ensures Valid() && CoreView() == Actions.ActSwitch(config, old(CoreView()), code, d, dl, pressed, time)
    {
      hide CoreOk, Shape, CoreView, OutView, LayView, Timers, OfClass, Actions.Within, ActKeySequence, ActCommand;
      match d
      case Nothing =>
      case KeySequence(_, _) => KeySequenceAction(d, dl, pressed, time);
      case Command(_) => CommandAction(pressed);
    }

    method SwitchMacro(code: Code, d: Descriptor, dl: nat, pressed: bool, time: int)
      requires Shape() && Valid() && CoreOk(config, CoreView()) && Allowed(config, d) && dl < |config.layers| &&
               code != 0
      requires d.Clear? || d.ClearM? || d.MacroOnce? || d.Macro2?
      modifies keystate, layerState, cache, timeouts, `nrTimeouts, `overflow, `lastPressedOutputCode, `trace,
               `underflow, `strayed, `clock, `oneshotLatch, `oneshotTimeout, `inhibitModifierGuard, `pendingTimeout,
               `pendingOverload, `macroRun, `memo, `layout
      ensures Valid() && CoreView() == Actions.ActSwitch(config, old(CoreView()), code, d, dl, pressed, time)
    {
      hide CoreOk, Shape, CoreView, OutView, LayView, Timers, OfClass, Actions.Within, ActClear, ActMacro;
      match d
      case Clear => ClearAction(d, dl, pressed);
      case ClearM(_) => ClearAction(d, dl, pressed);
      case MacroOnce(_) => MacroAction(d, dl, pressed, time);
      case Macro2(_, _, _) => MacroAction(d, dl, pressed, time);
    }

    method SwitchScroll(code: Code, d: Descriptor, dl: nat, pressed: bool, time: int)
      requires Shape() && Valid() && CoreOk(config, CoreView()) && Allowed(config, d) && dl < |config.layers| &&
               code != 0
      requires d.Scroll? || d.ScrollToggleOn? || d.ScrollToggleOff? || d.ScrollToggle?
      modifies keystate, layerState, cache, timeouts, `nrTimeouts, `overflow, `lastPressedOutputCode, `trace,
               `underflow, `strayed, `clock, `oneshotLatch, `oneshotTimeout, `inhibitModifierGuard, `pendingTimeout,
               `pendingOverload, `macroRun, `memo, `layout
      ensures Valid() && CoreView() == Actions.ActSwitch(config, old(CoreView()), code, d, dl, pressed, time)
    {
      hide CoreOk, Shape, CoreView, OutView, LayView, Timers, OfClass, Actions.Within, ActScroll;
      ScrollAction(d, pressed);
    }

    method OneshotKAction(code: Code, d: Descriptor, dl: nat, pressed: bool, time: int)
      requires Shape() && Valid() && CoreOk(config, CoreView()) && Allowed(config, d) && dl < |config.layers| &&
               code != 0
      requires d.OneshotK?
      modifies keystate, layerState, cache, timeouts, `nrTimeouts, `overflow, `lastPressedOutputCode, `trace,
               `underflow, `strayed, `clock, `oneshotLatch, `oneshotTimeout, `inhibitModifierGuard, `pendingTimeout,
               `pendingOverload, `macroRun, `memo, `layout
      ensures Valid() && CoreView() == Actions.ActOneshotK(config, old(CoreView()), code, d, dl, pressed, time)
      decreases Height(d), 0
    {
      hide CoreOk, Shape, CoreView, OutView, LayView, Timers, Act, ActOneshot;
      CoreFacts();
      TableAllowed(config, d.key);
      ProcessDescriptor(code, config.descriptors[d.key], dl, pressed, time);
      OneshotAction(code, d, dl, pressed, time);
    }

    method OverloadAction(code: Code, d: Descriptor, dl: nat, pressed: bool, time: int)
      requires Shape() && Valid() && CoreOk(config, CoreView()) && Allowed(config, d) && dl < |config.layers| &&
               code != 0
      requires d.Overload?
      modifies keystate, layerState, cache, timeouts, `nrTimeouts, `overflow, `lastPressedOutputCode, `trace,
               `underflow, `strayed, `clock, `oneshotLatch, `oneshotTimeout, `inhibitModifierGuard, `pendingTimeout,
               `pendingOverload, `macroRun, `memo, `layout
      ensures Valid() && CoreView() == Actions.ActOverload(config, old(CoreView()), code, d, dl, pressed, time)
      decreases Height(d), 0
    {
      hide CoreOk, Shape, Timers, MarkLayer, Activate, Deactivate, Send, Actions.Sync, OutView, LayView, ActTap;
      ViewShape();
      CoreFacts();
      TableAllowed(config, d.action);
      if pressed {
        memo := memo.(overloadStart := time);
        ActivateLayer(code, d.layer);
        SyncMods();
      } else {
        ReleaseOverload(d);
        if memo.lastPressed == code &&
           (config.overloadTapTimeout == 0 || time - memo.overloadStart < config.overloadTapTimeout) {
          TapAction(code, config.descriptors[d.action], dl, time);
        }
      }
    }

    /** The layer half of the release of an overload(). */
    method ReleaseOverload(d: Descriptor)
      requires Shape() && Valid() && CoreOk(config, CoreView()) && Allowed(config, d) && d.Overload?
      modifies keystate, layerState, `lastPressedOutputCode, `trace, `underflow
      ensures Valid() && CoreOk(config, CoreView()) && CoreView() == Released(config, old(CoreView()), d.layer)
    {
      hide CoreOk, Shape, Timers, Deactivate, Actions.Sync, OutView, LayView;
      ViewShape();
      ReleasedOk(config, CoreView(), d.layer);
      DeactivateLayer(d.layer);
      SyncMods();
    }

    /** The tap of an overload(). */
    method TapAction(code: Code, action: Descriptor, dl: nat, time: int)
      requires Shape() && Valid() && CoreOk(config, CoreView()) && Allowed(config, action) && dl < |config.layers| &&
               code != 0
      modifies keystate, layerState, cache, timeouts, `nrTimeouts, `overflow, `lastPressedOutputCode, `trace,
               `underflow, `strayed, `clock, `oneshotLatch, `oneshotTimeout, `inhibitModifierGuard, `pendingTimeout,
               `pendingOverload, `macroRun, `memo, `layout
      ensures Valid() && CoreView() == Actions.ActTap(config, old(CoreView()), code, action, dl, time)
      decreases Height(action), 4
    {
      hide CoreOk, Shape, OutView, LayView, Timers, Act, Actions.ExecuteMacro;
      if action.MacroOnce? {
        var _ := ExecuteMacro(dl, config.macros[action.mac]);
      } else {
        ProcessDescriptor(code, action, dl, true, time);
        ProcessDescriptor(code, action, dl, false, time);
      }
    }

    method OverloadIdleAction(code: Code, d: Descriptor, dl: nat, pressed: bool, time: int)
      requires Shape() && Valid() && CoreOk(config, CoreView()) && Allowed(config, d) && dl < |config.layers| &&
               code != 0
      requires d.OverloadIdle?
      modifies keystate, layerState, cache, timeouts, `nrTimeouts, `overflow, `lastPressedOutputCode, `trace,
               `underflow, `strayed, `clock, `oneshotLatch, `oneshotTimeout, `inhibitModifierGuard, `pendingTimeout,
               `pendingOverload, `macroRun, `memo, `layout
      ensures Valid() && CoreView() == Actions.ActOverloadIdle(config, old(CoreView()), code, d, dl, pressed, time)
      decreases Height(d), 0
    {
      hide CoreOk, Shape, OutView, LayView, Timers, Act, Rebind;
      if pressed {
        CoreFacts();
        TableAllowed(config, d.action1);
        TableAllowed(config, d.action2);
        var action := config.descriptors[if time - memo.lastSimple >= d.timeout then d.action2 else d.action1];
        ProcessDescriptor(code, action, dl, true, time);
        RebindKey(code, action);
      }
    }

    method RepeatAction(code: Code, dl: nat, pressed: bool, time: int)
      requires Shape() && Valid() && CoreOk(config, CoreView()) && dl < |config.layers| && code != 0
      modifies keystate, layerState, cache, timeouts, `nrTimeouts, `overflow, `lastPressedOutputCode, `trace,
               `underflow, `strayed, `clock, `oneshotLatch, `oneshotTimeout, `inhibitModifierGuard, `pendingTimeout,
               `pendingOverload, `macroRun, `memo, `layout
      ensures Valid() && CoreView() == Actions.ActRepeat(config, old(CoreView()), code, dl, pressed, time)
      decreases Height(Repeat), 0
    {
      hide CoreOk, Shape, OutView, LayView, Timers, Act, Rebind;
      if pressed {
        CoreFacts();
        ProcessDescriptor(code, memo.repeatable, dl, true, time);
        RebindKey(code, memo.repeatable);
      }
    }

    /** The in-place edit of the cache by overloadi() and repeat. */
    method RebindKey(code: Code, d: Descriptor)
      requires Shape()
      modifies cache
      ensures cache[..] == Rebind(old(cache[..]), code, d)
    {
      var slot := CacheGet(code);
      if slot != -1 {
        cache[slot] := cache[slot].(d := d);
      }
    }

    // --------------------------------------------------------------- the pending actions

    method HandlePendingTimeout(e: KeyEvent)
      requires Shape() && Valid() && CoreOk(config, CoreView())
      modifies keystate, layerState, cache, timeouts, `nrTimeouts, `overflow, `lastPressedOutputCode, `trace,
               `underflow, `strayed, `clock, `oneshotLatch, `oneshotTimeout, `inhibitModifierGuard, `pendingTimeout,
               `pendingOverload, `macroRun, `memo, `layout
      ensures Valid() && CoreView() == Pending.HandlePendingTimeout(config, old(CoreView()), e)
    {
      hide CoreOk, Shape, OutView, LayView, Timers, Pending.TapTimeout, Pending.HoldTimeout;
      var pt, time := pendingTimeout, e.timestamp;
      if pt.code == 0 || (!e.pressed && pt.code == e.code && time == pt.activationTime) {
        return;
      }
      if pt.spontaneous {
        if time >= pt.expiration || e.code != 0 {
          TapPendingTimeout(time);
        }
      } else if time >= pt.expiration || (e.code != 0 && (e.pressed || e.code == pt.code)) {
        HoldPendingTimeout(time);
      }
    }

    method TapPendingTimeout(time: nat)
      requires Shape() && Valid() && CoreOk(config, CoreView()) && pendingTimeout.code != 0
      modifies keystate, layerState, cache, timeouts, `nrTimeouts, `overflow, `lastPressedOutputCode, `trace,
               `underflow, `strayed, `clock, `oneshotLatch, `oneshotTimeout, `inhibitModifierGuard, `pendingTimeout,
               `pendingOverload, `macroRun, `memo, `layout
      ensures Valid() && CoreView() == Pending.TapTimeout(config, old(CoreView()), time)
    {
      hide CoreOk, Shape, OutView, LayView, Timers, Act;
      var pt := pendingTimeout;
      TimeoutFacts(config, CoreView());
      var action := if time >= pt.expiration then pt.action2 else pt.action1;
      pendingTimeout := pt.(code := 0);
      ProcessDescriptor(pt.code, action, pt.dl, true, time);
      ProcessDescriptor(pt.code, action, pt.dl, false, time);
    }

    method HoldPendingTimeout(time: nat)
      requires Shape() && Valid() && CoreOk(config, CoreView()) && pendingTimeout.code != 0
      modifies keystate, layerState, cache, timeouts, `nrTimeouts, `overflow, `lastPressedOutputCode, `trace,
               `underflow, `strayed, `clock, `oneshotLatch, `oneshotTimeout, `inhibitModifierGuard, `pendingTimeout,
               `pendingOverload, `macroRun, `memo, `layout
      ensures Valid() && CoreView() == Pending.HoldTimeout(config, old(CoreView()), time)
    {
      hide CoreOk, Shape, OutView, LayView, Timers, Act, Put;
      var pt := pendingTimeout;
      TimeoutFacts(config, CoreView());
      var action := if time >= pt.expiration then pt.action2 else pt.action1;
      var entry := CacheEntry(pt.code, action, pt.dl, 0);
      TimeoutBoundOk(config, CoreView(), entry);
      pendingTimeout := pt.(code := 0);
      var _ := CacheSet(pt.code, Some(entry));
      ProcessDescriptor(pt.code, action, pt.dl, true, time);
    }

    /** The pending overload becomes one of its actions. */
    method ResolvePendingOverload(action: Descriptor, time: nat)
      requires Shape() && Valid() && CoreOk(config, CoreView()) && pendingOverload.code != 0
      requires action == pendingOverload.action1 || action == pendingOverload.action2
      modifies keystate, layerState, cache, timeouts, `nrTimeouts, `overflow, `lastPressedOutputCode, `trace,
               `underflow, `strayed, `clock, `oneshotLatch, `oneshotTimeout, `inhibitModifierGuard, `pendingTimeout,
               `pendingOverload, `macroRun, `memo, `layout
      ensures Valid() && CoreView() == Pending.ResolveOverload(config, old(CoreView()), action, time)
    {
      hide CoreOk, Shape, OutView, LayView, Timers, Act, Put;
      var po := pendingOverload;
      var entry := CacheEntry(0, action, po.dl, 0);
      OverloadBoundOk(config, CoreView(), entry);
      pendingOverload := po.(code := 0);
      var _ := CacheSet(po.code, Some(entry));
      ProcessDescriptor(po.code, action, po.dl, true, time);
    }

    /** Whether an event of the key is queued by the pending overload. */
    method IsQueued(code: Code) returns (found: bool)
      requires Shape() && Valid()
      ensures found == Pending.Queued(HeldBack(), code)
    {
      found := false;
      var i := 0;
      while i < overloadQueueSize
        invariant 0 <= i <= overloadQueueSize
        invariant found == exists j | 0 <= j < i :: HeldBack()[j].code == code
      {
        assert HeldBack()[i] == overloadQueue[i];
        if overloadQueue[i].code == code {
          found := true;
        }
        i := i + 1;
      }
    }

    // ------------------------------------------------------------ an event that gets through

    method ExpireOneshots(time: nat)
      requires Shape() && Valid() && CoreOk(config, CoreView())
      modifies keystate, layerState, `lastPressedOutputCode, `trace, `underflow, `oneshotLatch, `oneshotTimeout
      ensures Valid() && CoreView() == Pending.ExpireOneshots(config, old(CoreView()), time)
    {
      hide CoreOk, Shape, Timers, Layers.ClearOneshot, Actions.Sync, OutView, LayView;
      ViewShape();
      if oneshotTimeout != 0 && time >= oneshotTimeout {
        ClearOneshot();
        SyncMods();
      }
    }

    method RepeatMacro(e: KeyEvent)
      requires Shape() && Valid() && CoreOk(config, CoreView())
      modifies keystate, timeouts, `nrTimeouts, `overflow, `lastPressedOutputCode, `trace, `macroRun
      ensures Valid() && CoreView() == Pending.RepeatMacro(config, old(CoreView()), e)
    {
      hide CoreOk, Shape, Timers, Schedule, Actions.Sync, Actions.ExecuteMacro, OutView, LayView;
      if macroRun.active.Some? {
        if e.code != 0 {
          macroRun := macroRun.(active := None);
          SyncMods();
        } else if e.timestamp >= macroRun.timeout {
          MacroFacts(config, CoreView());
          var executionTime := ExecuteMacro(macroRun.layer, config.macros[macroRun.active.value]);
          macroRun := macroRun.(timeout := executionTime + e.timestamp + macroRun.interval);
          ScheduleTimeout(macroRun.timeout);
        }
      }
    }

    method DispatchKey(e: KeyEvent)
      requires Shape() && Valid() && CoreOk(config, CoreView()) && ActiveOk(config, ChordsView().active) && e.code != 0
      modifies keystate, layerState, cache, timeouts, `nrTimeouts, `overflow, `lastPressedOutputCode, `trace,
               `underflow, `strayed, `clock, `oneshotLatch, `oneshotTimeout, `inhibitModifierGuard, `pendingTimeout,
               `pendingOverload, `macroRun, `memo, `layout
      ensures Valid() && CoreView() == Pending.DispatchKey(config, old(CoreView()), ChordsView().active, e)
    {
      if e.pressed {
        PressKey(e);
      } else {
        ReleaseKey(e);
      }
    }

    method PressKey(e: KeyEvent)
      requires Shape() && Valid() && CoreOk(config, CoreView()) && ActiveOk(config, ChordsView().active) &&
               e.code != 0 && e.pressed
      modifies keystate, layerState, cache, timeouts, `nrTimeouts, `overflow, `lastPressedOutputCode, `trace,
               `underflow, `strayed, `clock, `oneshotLatch, `oneshotTimeout, `inhibitModifierGuard, `pendingTimeout,
               `pendingOverload, `macroRun, `memo, `layout
      ensures Valid() && CoreView() == Pending.DispatchKey(config, old(CoreView()), ChordsView().active, e)
    {
      hide CoreOk, Shape, Timers, OutView, Find, SlotFor, Put, Act, Events.LookupDescriptor;
      var slot := CacheGet(e.code);
      if slot != -1 {
        return;
      }
      CoreFacts();
      var d, dl := LookupDescriptor(e.code);
      BoundOk(config, CoreView(), e.code, CacheEntry(e.code, d, dl, 0));
      var r := CacheSet(e.code, Some(CacheEntry(e.code, d, dl, 0)));
      if r != 0 {
        return;
      }
      ProcessDescriptor(e.code, d, dl, true, e.timestamp);
    }

    method ReleaseKey(e: KeyEvent)
      requires Shape() && Valid() && CoreOk(config, CoreView()) && ActiveOk(config, ChordsView().active) &&
               e.code != 0 && !e.pressed
      modifies keystate, layerState, cache, timeouts, `nrTimeouts, `overflow, `lastPressedOutputCode, `trace,
               `underflow, `strayed, `clock, `oneshotLatch, `oneshotTimeout, `inhibitModifierGuard, `pendingTimeout,
               `pendingOverload, `macroRun, `memo, `layout
      ensures Valid() && CoreView() == Pending.DispatchKey(config, old(CoreView()), ChordsView().active, e)
    {
      hide CoreOk, Shape, Timers, OutView, LayView, Find, SlotFor, Remove, Act;
      ViewShape();
      var slot := CacheGet(e.code);
      if slot == -1 {
        return;
      }
      UnboundOk(config, CoreView(), slot, e.code);
      var d, dl := cache[slot].d, cache[slot].dl;
      var _ := CacheSet(e.code, None);
      ProcessDescriptor(e.code, d, dl, false, e.timestamp);
    }

    /** process_event after the pending handlers. */
    method Dispatch(e: KeyEvent)
      requires Shape() && Valid() && Ok(config, State())
      modifies keystate, layerState, cache, timeouts, `nrTimeouts, `overflow, `lastPressedOutputCode, `trace,
               `underflow, `strayed, `clock, `oneshotLatch, `oneshotTimeout, `inhibitModifierGuard, `pendingTimeout,
               `pendingOverload, `macroRun, `memo, `layout, `log
      ensures Valid() && State() == Machine.Dispatch(config, old(State()), e)
    {
      hide CoreOk, Shape, OutView, LayView, Timers, HeldBack, ChordsView;
      hide Pending.ExpireOneshots, Pending.RepeatMacro, Pending.DispatchKey;
      ExpireOneshots(e.timestamp);
      RepeatMacro(e);
      if e.code != 0 {
        log := log.(passed := log.passed + [e], settled := log.settled + [e]);
        ActiveFacts(config, old(State()));
        DispatchKey(e);
      }
    }

    // ------------------------------------------------------------------------ the recursion

    /** Whether the event was taken. */
    method HandlePendingOverload(e: KeyEvent) returns (taken: bool)
      requires Shape() && Valid() && Ok(config, State())
      modifies this, keystate, layerState, cache, timeouts, activeChords, chordQueue, overloadQueue
      ensures Valid() && (State(), taken) == Machine.HandlePendingOverload(config, old(State()), e)
      decreases Mode(State()), Load(State()) + Machine.Weighs(e), PendingWeight(CoreView()), 0,
                HeldChordKeys(activeChords[..], activeChords.Length), 2
    {
      hide CoreOk, ChordsOk, Machine.ProcessEvents, OutView, LayView, Timers, ChordsView, HeldBack;
      hide Pending.ResolveOverload, PendingWeight;
      OverloadFacts();
      if pendingOverload.code == 0 {
        return false;
      }
      if e.code != 0 {
        if overloadQueueSize >= QUEUE_SIZE {
          overflow := true;
          return true;
        }
        if !e.pressed {
          var found := IsQueued(e.code);
          if !found && e.code != pendingOverload.code {
            return false;
          }
        }
        HoldBackEvent(e);
      }
      var action := Nothing;
      if e.timestamp >= pendingOverload.expiration {
        action := pendingOverload.action2;
      } else if e.code == pendingOverload.code {
        action := pendingOverload.action1;
      } else if pendingOverload.resolveOnInterrupt && !e.pressed {
        action := pendingOverload.action2;
      }
      if !action.Nothing? {
        FlushOverload(action, e.timestamp);
      }
      return true;
    }

    method HoldBackEvent(e: KeyEvent)
      requires Shape() && overloadQueueSize < QUEUE_SIZE
      modifies overloadQueue, `overloadQueueSize
      ensures HeldBack() == old(HeldBack()) + [e] && overloadQueueSize == old(overloadQueueSize) + 1
    {
      overloadQueue[overloadQueueSize] := e;
      overloadQueueSize := overloadQueueSize + 1;
    }

    method CopyQueue() returns (queue: array<KeyEvent>)
      requires Shape() && Valid()
      ensures fresh(queue) && queue.Length == QUEUE_SIZE && queue[0..overloadQueueSize] == HeldBack()
    {
      queue := new KeyEvent[QUEUE_SIZE](i requires 0 <= i < QUEUE_SIZE reads overloadQueue, this => overloadQueue[i]);
    }

    lemma OverloadFacts()
      requires Shape() && Valid() && Ok(config, State())
      ensures CoreOk(config, CoreView()) && |HeldBack()| == overloadQueueSize
      ensures HeldBack() == State().oq && pendingOverload == CoreView().po
    {
    }

    /** The queue is copied, so that the resolution may queue again, and then replayed. */
    method FlushOverload(action: Descriptor, time: nat)
      requires Shape() && Valid() && Ok(config, State()) && pendingOverload.code != 0
      requires action == pendingOverload.action1 || action == pendingOverload.action2
      modifies this, keystate, layerState, cache, timeouts, activeChords, chordQueue, overloadQueue
      ensures Valid()
      ensures var p := old(State()).(core := Pending.ResolveOverload(config, old(CoreView()), action, time), oq := []);
              State() == Machine.ProcessEvents(config, p, old(HeldBack()), 0, 0, 0).0
      decreases Mode(State()), Load(State()), PendingWeight(CoreView()), 0,
                HeldChordKeys(activeChords[..], activeChords.Length), 1
    {
      hide CoreOk, ChordsOk, Pending.ResolveOverload, Machine.ProcessEvents, CoreView, OutView, LayView, Timers,
           ChordsView;
      hide Weight, OverloadRank, TimeoutRank;
      OverloadFacts();
      var size := overloadQueueSize;
      var queue := CopyQueue();
      ResolvePendingOverload(action, time);
      overloadQueueSize := 0;
      assert State() == old(State()).(
          core := Pending.ResolveOverload(config, old(CoreView()), action, time), oq := []);
      var _ := KbdProcessEvents(queue, 0, size);
    }

    // -------------------------------------------------------------- the chord recogniser

    /** Whether the event was taken. */
    method HandleChord(e: KeyEvent) returns (taken: bool)
      requires Shape() && Valid() && Ok(config, State())
      modifies this, keystate, layerState, cache, timeouts, activeChords, chordQueue, overloadQueue
      ensures Valid() && (State(), taken) == Machine.HandleChord(config, old(State()), e)
      decreases Mode(State()), Load(State()) + Machine.Weighs(e), PendingWeight(CoreView()), 0,
                HeldChordKeys(activeChords[..], activeChords.Length), 3
    {
      hide Ok, Machine.StartChord, Machine.ExtendChord, Machine.DisambiguationTick, Machine.HoldChord,
           Machine.ProcessEvent;
      hide Machine.ReleaseKey, CoreView, HeldBack;
      if e.code != 0 && !e.pressed {
        taken := ReleaseFromChord(e);
        if taken {
          return true;
        }
      }
      match chordPhase
      case Resolving => taken := false;
      case Inactive => taken := StartChord(e);
      case PendingDisambiguation =>
        if e.code == 0 {
          taken := DisambiguationTick(e.timestamp);
        } else {
          ExtendChord(e);
          taken := true;
        }
      case PendingHoldTimeout => taken := HoldChord(e);
    }

    /** The release of a key of an active chord. */
    method ReleaseFromChord(e: KeyEvent) returns (taken: bool)
      requires Shape() && Valid() && Ok(config, State()) && e.code != 0 && !e.pressed
      modifies this, keystate, layerState, cache, timeouts, activeChords, chordQueue, overloadQueue
      ensures Valid() && taken == (Machine.FindHeld(old(ChordsView()).active, e.code, MAX_ACTIVE_CHORDS) != -1)
      ensures if taken then (State(), true) == Machine.HandleChord(config, old(State()), e) else State() == old(State())
      decreases Mode(State()), Load(State()) + Machine.Weighs(e), PendingWeight(CoreView()), 0,
                HeldChordKeys(activeChords[..], activeChords.Length), 2
    {
      hide Ok, Machine.StartChord, Machine.ExtendChord, Machine.DisambiguationTick, Machine.HoldChord,
           Machine.ProcessEvent;
      hide CoreView, HeldBack, Machine.Strike, NonZero;
      ghost var k := State();
      ChordShape();
      var held, nremaining := StrikeChords(e.code);
      if held == -1 {
        return false;
      }
      if nremaining == 0 {
        EndChord(k, held, e);
      } else {
        log := log.(settled := log.settled + [e], made := log.made + []);
      }
      return true;
    }

    /** The last key of an active chord was released; k is the state before that. */
    method EndChord(ghost k: Kbd, held: nat, e: KeyEvent)
      requires Shape() && Valid() && Ok(config, k) && e.code != 0 && !e.pressed && held < MAX_ACTIVE_CHORDS
      requires k.chords.active[held].active && e.code in k.chords.active[held].keys
      requires var a := k.chords.active[held];
               var keys := Machine.Strike(a.keys, e.code);
               NonZero(keys) == 0 && ChordsView() == k.chords.(active := k.chords.active[held := a.(keys := keys)])
      requires State() == k.(chords := ChordsView())
      modifies this, keystate, layerState, cache, timeouts, activeChords, chordQueue, overloadQueue
      ensures Valid()
      ensures var release := KeyEvent(CHORD_1 + held, false, e.timestamp);
              var p := Machine.Settle(Machine.ReleaseKey(config, k, held, e.code), [e], [release]);
              Ok(config, p) && State() == Machine.ProcessEvent(config, p, release).0
      decreases Mode(k), Load(k) + 1, PendingWeight(k.core), 0, HeldChordKeys(k.chords.active, |k.chords.active|), 1
    {
      hide CoreOk, QueueOk, CoreView, HeldBack, Machine.Strike, NonZero, Machine.ProcessEvent, PendingWeight,
           HeldChordKeys;
      ChordShape();
      var release := KeyEvent(CHORD_1 + held, false, e.timestamp);
      activeChords[held] := activeChords[held].(active := false);
      log := log.(settled := log.settled + [e], made := log.made + [release]);
      assert State() == Machine.Settle(Machine.ReleaseKey(config, k, held, e.code), [e], [release]);
      ChordShape();
      var _ := ProcessEvent(release);
    }

    /** Strikes the key from the first active chord that holds it: which one, and how many
        of its keys are left. */
    method StrikeChords(code: Code) returns (held: int, nremaining: nat)
      requires Shape() && code != 0
      modifies activeChords
      ensures held == Machine.FindHeld(old(activeChords[..]), code, MAX_ACTIVE_CHORDS)
      ensures held == -1 ==> activeChords[..] == old(activeChords[..])
      ensures held != -1 ==>
        var a := old(activeChords[..])[held];
        activeChords[..] == old(activeChords[..])[held := a.(keys := Machine.Strike(a.keys, code))] &&
        nremaining == NonZero(Machine.Strike(a.keys, code))
    {
      nremaining := 0;
      var i := 0;
      while i < MAX_ACTIVE_CHORDS
        invariant 0 <= i <= MAX_ACTIVE_CHORDS && activeChords[..] == old(activeChords[..])
        invariant Machine.FindHeld(activeChords[..], code, i) == -1
      {
        if activeChords[i].active {
          var found;
          found, nremaining := StrikeKeys(i, code);
          if found {
            FindHeldFirst(old(activeChords[..]), code, i, MAX_ACTIVE_CHORDS);
            return i, nremaining;
          }
        }
        i := i + 1;
      }
      return -1, 0;
    }

    method StrikeKeys(i: nat, code: Code) returns (found: bool, nremaining: nat)
      requires Shape() && code != 0 && i < MAX_ACTIVE_CHORDS
      modifies activeChords
      ensures var a := old(activeChords[..])[i];
              found == (code in a.keys) &&
              activeChords[..] == (if found then old(activeChords[..])[i := a.(keys := Machine.Strike(a.keys, code))]
                                   else old(activeChords[..])) &&
              (found ==> nremaining == NonZero(Machine.Strike(a.keys, code)))
    {
      ghost var chords, keys := activeChords[..], activeChords[i].keys;
      found, nremaining := false, 0;
      var j := 0;
      while j < |activeChords[i].keys|
        invariant 0 <= j <= |keys| == |activeChords[i].keys|
        invariant activeChords[..] == chords[i := chords[i].(keys := activeChords[i].keys)]
        invariant forall n | 0 <= n < j :: activeChords[i].keys[n] == if keys[n] == code then 0 else keys[n]
        invariant forall n | j <= n < |keys| :: activeChords[i].keys[n] == keys[n]
        invariant found == (code in keys[..j]) && nremaining == NonZero(activeChords[i].keys[..j])
      {
        ghost var before := activeChords[i].keys[..j];
        if activeChords[i].keys[j] == code {
          activeChords[i] := activeChords[i].(keys := activeChords[i].keys[j := 0]);
          found := true;
        }
        assert activeChords[i].keys[..j] == before;
        NonZeroStep(activeChords[i].keys, j);
        if activeChords[i].keys[j] != 0 {
          nremaining := nremaining + 1;
        }
        j := j + 1;
      }
      assert activeChords[i].keys[..j] == activeChords[i].keys == Machine.Strike(keys, code);
      if !found {
        assert activeChords[i].keys == keys;
      }
    }

    /** The queue holds the event alone, if it is a key event. */
    method OpenChord(e: KeyEvent)
      requires Shape() && Valid()
      modifies chordQueue, `chordQueueSize, `chordMatch, `chordStartCode, `overflow
      ensures Valid() && CoreView() == old(CoreView())
      ensures ChordsView() ==
              Machine.Enqueue(old(ChordsView()).(queue := [], match_ := None, startCode := e.code), e)
      ensures State() == old(State()).(chords := ChordsView())
    {
      hide State, CoreView, ChordsView, HeldBack;
      StateCore();
      ResetChord(e.code);
      var _ := EnqueueChordEvent(e.code, e.pressed, e.timestamp);
      StateCore();
    }

    method ResetChord(code: Code)
      requires Shape() && Valid()
      modifies `chordQueueSize, `chordMatch, `chordStartCode
      ensures Valid() && CoreView() == old(CoreView()) && State() == old(State()).(chords := ChordsView())
      ensures ChordsView() == old(ChordsView()).(queue := [], match_ := None, startCode := code)
    {
      chordQueueSize := 0;
      chordMatch := None;
      chordStartCode := code;
      assert ChordsView().queue == [];
    }

    /** handle_chord in the inactive state. */
    method StartChord(e: KeyEvent) returns (taken: bool)
      requires Shape() && Valid() && Ok(config, State()) && chordPhase == Inactive
      modifies this, keystate, layerState, cache, timeouts, activeChords, chordQueue, overloadQueue
      ensures Valid() && (State(), taken) == Machine.StartChord(config, old(State()), e)
      decreases Mode(State()), Load(State()) + Machine.Weighs(e), PendingWeight(CoreView()), 0,
                HeldChordKeys(activeChords[..], activeChords.Length), 2
    {
      hide CoreOk, ActiveOk, Machine.MatchChord, Events.CheckChordMatch, State, CoreView, ChordsView, PendingWeight;
      ghost var k := State();
      StateCore();
      ChordShape();
      Machine.LayersFact(config, k);
      OpenChord(e);
      ghost var s := ChordsView();
      StateCore();
      Events.FirstMatchNone(config, k.core.lay.ls, s, e);
      var m := CheckChordMatch();
      StateCore();
      if m == 0 {
        return false;
      }
      assert (m, ChordsView()) == Machine.Matched(config, k, s);
      MatchChord(k, m, e.timestamp);
      return true;
    }

    method ForgetMatch()
      modifies `chordMatch
      ensures ChordsView() == old(ChordsView()).(match_ := None) && CoreView() == old(CoreView())
      ensures State() == old(State()).(chords := ChordsView())
    {
      chordMatch := None;
    }

    /** handle_chord on a key event while a chord is being disambiguated. */
    method ExtendChord(e: KeyEvent)
      requires Shape() && Valid() && Ok(config, State()) && chordPhase == PendingDisambiguation && e.code != 0
      modifies this, keystate, layerState, cache, timeouts, activeChords, chordQueue, overloadQueue
      ensures Valid() && State() == Machine.ExtendChord(config, old(State()), e)
      decreases Mode(State()), Load(State()) + 1, PendingWeight(CoreView()), 0,
                HeldChordKeys(activeChords[..], activeChords.Length), 2
    {
      hide Ok, Machine.MatchChord, Machine.ResolveChord, Events.CheckChordMatch, State, CoreView, ChordsView,
           PendingWeight;
      ghost var k := State();
      StateCore();
      ChordShape();
      Machine.LayersFact(config, k);
      Machine.ExtendOk(config, k, e);
      var ok := EnqueueChordEvent(e.code, e.pressed, e.timestamp);
      StateCore();
      if !ok {
        return;
      }
      if !e.pressed {
        ForgetMatch();
        ResolveChord(k);
        return;
      }
      ghost var s := ChordsView();
      var m := CheckChordMatch();
      StateCore();
      assert (m, ChordsView()) == Machine.Matched(config, k, s);
      if m == 0 {
        ForgetMatch();
        ResolveChord(k);
      } else {
        MatchChord(k, m, e.timestamp);
      }
    }

    /** handle_chord on a tick while a chord is being disambiguated. */
    method DisambiguationTick(time: nat) returns (taken: bool)
      requires Shape() && Valid() && Ok(config, State()) && chordPhase == PendingDisambiguation
      modifies this, keystate, layerState, cache, timeouts, activeChords, chordQueue, overloadQueue
      ensures Valid() && (State(), taken) == Machine.DisambiguationTick(config, old(State()), time)
      decreases Mode(State()), Load(State()) + 0, PendingWeight(CoreView()), 0,
                HeldChordKeys(activeChords[..], activeChords.Length), 2
    {
      hide CoreOk, ActiveOk, Machine.ResolveChord, CoreView, HeldBack, PendingWeight, Schedule;
      ghost var k := State();
      if time - chordLastCodeTime < config.chordInterkeyTimeout {
        return false;
      }
      if chordMatch.Some? {
        var timeLeft := config.chordHoldTimeout - config.chordInterkeyTimeout;
        if timeLeft > 0 {
          chordPhase := PendingHoldTimeout;
          AwaitChord(time + timeLeft, time - chordLastCodeTime - config.chordInterkeyTimeout);
        } else {
          ResolveChord(k);
        }
      } else {
        ResolveChord(k);
      }
      return true;
    }

    /** handle_chord while a matched chord waits to be held long enough. */
    method HoldChord(e: KeyEvent) returns (taken: bool)
      requires Shape() && Valid() && Ok(config, State()) && chordPhase == PendingHoldTimeout
      modifies this, keystate, layerState, cache, timeouts, activeChords, chordQueue, overloadQueue
      ensures Valid() && (State(), taken) == Machine.HoldChord(config, old(State()), e)
      decreases Mode(State()), Load(State()) + Machine.Weighs(e), PendingWeight(CoreView()), 0,
                HeldChordKeys(activeChords[..], activeChords.Length), 2
    {
      hide CoreOk, ActiveOk, Machine.ResolveChord, CoreView, HeldBack, PendingWeight;
      ghost var k := State();
      if e.code == 0 {
        if e.timestamp - chordLastCodeTime >= config.chordHoldTimeout {
          ResolveChord(k);
          return true;
        }
        return false;
      }
      var ok := EnqueueChordEvent(e.code, e.pressed, e.timestamp);
      if !ok {
        return true;
      }
      if !e.pressed && e.code in chordMatch.value.keys {
        ForgetMatch();
        ResolveChord(k);
      }
      return true;
    }

    /** handle_chord once the queue, which differs from that of k, matches some chord. */
    method MatchChord(ghost k: Kbd, m: nat, time: nat)
      requires Shape() && Valid() && Ok(config, k) && 1 <= m <= 3 && Mode(k) == 1
      requires State() == k.(chords := ChordsView()) && Machine.ResolvableOk(config, k, ChordsView()) &&
               chordPhase != Resolving
      requires forall i | 0 <= i < |ChordsView().queue| :: ChordsView().queue[i].pressed
      requires m >= 2 ==> chordMatch.Some?
      modifies this, keystate, layerState, cache, timeouts, activeChords, chordQueue, overloadQueue
      ensures Valid() && State() == Machine.MatchChord(config, k, old(ChordsView()), m, time)
      decreases Mode(k), |k.oq| + |ChordsView().queue|, PendingWeight(k.core), 0,
                HeldChordKeys(k.chords.active, |k.chords.active|), 1
    {
      hide Ok, Machine.ResolveChord, State, CoreView, ChordsView, PendingWeight, Schedule;
      StateCore();
      if m != 2 {
        SetPhase(PendingDisambiguation, time);
        AwaitChord(time + config.chordInterkeyTimeout, 0);
      } else if config.chordHoldTimeout != 0 {
        SetPhase(PendingHoldTimeout, time);
        AwaitChord(time + config.chordHoldTimeout, 0);
      } else {
        SetPhase(chordPhase, time);
        ResolveChord(k);
      }
    }

    method SetPhase(phase: ChordPhase, time: nat)
      modifies `chordPhase, `chordLastCodeTime
      ensures ChordsView() == old(ChordsView()).(phase := phase, lastCodeTime := time)
      ensures State() == old(State()).(chords := ChordsView()) && CoreView() == old(CoreView())
    {
      chordPhase, chordLastCodeTime := phase, time;
    }

    method AwaitChord(deadline: int, ghost late: int)
      requires Shape() && Valid()
      modifies timeouts, `nrTimeouts, `overflow, `log
      ensures Valid() && State() == old(State()).(
                core := Schedule(old(CoreView()), deadline), log := old(log).(late := late))
    {
      hide Schedule, CoreView, HeldBack, ChordsView;
      ScheduleTimeout(deadline);
      log := log.(late := late);
    }

    /** The first free active chord, or -1. */
    method FindFreeChord() returns (r: int)
      requires Shape()
      ensures r == Machine.FindFree(activeChords[..], MAX_ACTIVE_CHORDS)
    {
      var i := 0;
      while i < MAX_ACTIVE_CHORDS
        invariant 0 <= i <= MAX_ACTIVE_CHORDS && Machine.FindFree(activeChords[..], i) == -1
      {
        if !activeChords[i].active {
          FindFreeFirst(activeChords[..], i, MAX_ACTIVE_CHORDS);
          return i;
        }
        i := i + 1;
      }
      return -1;
    }

    /** resolve_chord: the state was k before the recogniser looked at the queue. */
    method ResolveChord(ghost k: Kbd)
      requires Shape() && Valid() && Ok(config, k) && Mode(k) == 1
      requires State() == k.(chords := ChordsView()) && Machine.ResolvableOk(config, k, ChordsView())
      modifies this, keystate, layerState, cache, timeouts, activeChords, chordQueue, overloadQueue
      ensures Valid() && State() == Machine.ResolveChord(config, k, old(ChordsView()))
      decreases Mode(k), |k.oq| + |ChordsView().queue|, PendingWeight(k.core), 0,
                HeldChordKeys(k.chords.active, |k.chords.active|), 0
    {
      hide CoreOk, ActiveOk, Machine.PressChord, Machine.Replay, CoreView, HeldBack, PendingWeight;
      ghost var s := ChordsView();
      ChordShape();
      var chord := chordMatch;
      chordPhase := Resolving;
      if chord.Some? {
        var free := FindFreeChord();
        if free == -1 {
          Halt();
          return;
        }
        PressChord(free, s);
        ReplayQueue(|chord.value.keys|);
      } else {
        ReplayQueue(0);
      }
    }

    /** The end of resolve_chord. */
    method ReplayQueue(offset: nat)
      requires Shape() && Valid() && Ok(config, State()) && chordPhase == Resolving && offset <= chordQueueSize
      modifies this, keystate, layerState, cache, timeouts, activeChords, chordQueue, overloadQueue
      ensures Valid() && State() == Machine.Replay(config, old(State()), old(ChordsView()).queue[offset..])
      decreases Mode(State()), Load(State()) + chordQueueSize - offset, PendingWeight(CoreView()), 2
    {
      hide CoreOk, ChordsOk, Machine.ProcessEvents, CoreView, HeldBack, PendingWeight;
      assert chordQueue[offset..chordQueueSize] == ChordsView().queue[offset..];
      var _ := KbdProcessEvents(chordQueue, offset, chordQueueSize);
      chordPhase := Inactive;
    }

    /** The matched prefix of the queue becomes a press of the chord's code. */
    method PressChord(i: nat, ghost s: Chords)
      requires Shape() && Valid() && Ok(config, State()) && i < MAX_ACTIVE_CHORDS &&
               ChordsView() == s.(phase := Resolving)
      requires s.match_.Some? && MatchOk(config, s.match_.value) && s.matchLayer < |config.layers|
      requires |s.match_.value.keys| <= |s.queue|
      modifies this, keystate, layerState, cache, timeouts, activeChords, chordQueue, overloadQueue
      ensures Valid() && State() == Machine.PressChord(config, old(State()), i, s)
      decreases Mode(State()), Load(State()) + 1, PendingWeight(CoreView()), 2
    {
      hide CoreOk, ActiveOk, QueueOk, Machine.ProcessEvent, CoreView, HeldBack, PendingWeight;
      ChordShape();
      ghost var k := State();
      var chord, press := chordMatch.value, KeyEvent(CHORD_1 + i, true, chordLastCodeTime);
      activeChords[i] := ActiveChord(true, chord.keys, chord.d, chordMatchLayer);
      log := log.(settled := log.settled + s.queue[..|chord.keys|], made := log.made + [press]);
      assert State() == Machine.Settle(Machine.ActivateChord(config, k, i, chord, s.matchLayer),
                                       s.queue[..|chord.keys|], [press]);
      var _ := ProcessEvent(press);
    }

    lemma ChordShape()
      requires Shape() && Valid()
      ensures |ChordsView().active| == activeChords.Length == MAX_ACTIVE_CHORDS &&
              |ChordsView().queue| == chordQueueSize
      ensures ChordsView().active == activeChords[..] && State().chords == ChordsView()
    {
    }

    /** The time to the next deadline, 0 if there is none. */
    method ProcessEvent(e: KeyEvent) returns (timeout: nat)
      requires Shape() && Valid() && Ok(config, State())
      modifies this, keystate, layerState, cache, timeouts, activeChords, chordQueue, overloadQueue
      ensures Valid() && (State(), timeout) == Machine.ProcessEvent(config, old(State()), e)
      decreases Mode(State()), Load(State()) + Machine.Weighs(e), PendingWeight(CoreView()), 0,
                HeldChordKeys(activeChords[..], activeChords.Length), 4
    {
      hide Machine.HandleChord, Machine.PassChord, State, CoreView, PendingWeight, Ok;
      StateCore();
      ChordShape();
      var taken := HandleChord(e);
      StateCore();
      ChordShape();
      if !taken {
        PassChord(e);
      }
      timeout := Leave(e.timestamp);
    }

    /** The exit of process_event. */
    method Leave(time: nat) returns (timeout: nat)
      requires Shape() && Valid()
      modifies timeouts, `nrTimeouts
      ensures Valid() && (State(), timeout) == Events.Exit(old(State()), time)
    {
      hide Events.Later, Events.Minimum, OutView, LayView, HeldBack, ChordsView;
      timeout := CalculateMainLoopTimeout(time);
    }

    /** process_event once the chord handler let the event through. */
    method PassChord(e: KeyEvent)
      requires Shape() && Valid() && Ok(config, State())
      modifies this, keystate, layerState, cache, timeouts, activeChords, chordQueue, overloadQueue
      ensures Valid() && State() == Machine.PassChord(config, old(State()), e)
      decreases Mode(State()), Load(State()) + Machine.Weighs(e), PendingWeight(CoreView()), 0,
                HeldChordKeys(activeChords[..], activeChords.Length), 3
    {
      hide Machine.HandlePendingOverload, Machine.Dispatch, OutView, LayView, Timers, HeldBack, ChordsView;
      hide Pending.HandlePendingTimeout;
      HandlePendingTimeout(e);
      var taken := HandlePendingOverload(e);
      if !taken {
        Dispatch(e);
      }
    }

    lemma StateCore()
      ensures State().core == CoreView() && State().core.overflow == overflow && State().log == log
      ensures State().chords == ChordsView() && ChordsView().phase == chordPhase && ChordsView().match_ == chordMatch
      ensures ChordsView().matchLayer == chordMatchLayer && ChordsView().lastCodeTime == chordLastCodeTime
    {
    }

    /** One event of a batch that may lie in the chord queue. */
    method ProcessOne(e: KeyEvent, events: array<KeyEvent>, lo: nat, hi: nat) returns (timeout: nat)
      requires Shape() && Valid() && Ok(config, State())
      requires lo <= hi <= events.Length && events != overloadQueue
      requires events == chordQueue ==> chordPhase == Resolving && hi <= chordQueueSize
      modifies this, keystate, layerState, cache, timeouts, activeChords, chordQueue, overloadQueue
      ensures Valid() && (State(), timeout) == Machine.ProcessEvent(config, old(State()), e)
      ensures events[lo..hi] == old(events[lo..hi])
      ensures events == chordQueue ==> chordPhase == Resolving && hi <= chordQueueSize
      decreases Mode(State()), Load(State()) + Machine.Weighs(e), PendingWeight(CoreView()), 0,
                HeldChordKeys(activeChords[..], activeChords.Length), 5
    {
      hide CoreOk, ChordsOk, Machine.ProcessEvent, PendingWeight, CoreView;
      assert events == chordQueue ==> events[lo..hi] == ChordsView().queue[lo..hi];
      timeout := ProcessEvent(e);
      assert events == chordQueue ==> events[lo..hi] == ChordsView().queue[lo..hi];
    }

    /** kbd_process_events. The events may lie in the chord queue: a resolution in progress
        leaves that queue alone. */
    method KbdProcessEvents(events: array<KeyEvent>, lo: nat, hi: nat) returns (timeout: nat)
      requires Shape() && Valid() && Ok(config, State())
      requires lo <= hi <= events.Length && events != overloadQueue
      requires events == chordQueue ==> chordPhase == Resolving && hi <= chordQueueSize
      modifies this, keystate, layerState, cache, timeouts, activeChords, chordQueue, overloadQueue
      ensures Valid() && (State(), timeout) == Machine.ProcessEvents(config, old(State()), old(events[lo..hi]), 0, 0, 0)
      decreases Mode(State()), Load(State()) + hi - lo, PendingWeight(CoreView()), 1
    {
      hide Ok, Machine.ProcessEvent, Machine.ProcessEvents, PendingWeight, Load, Mode, State, CoreView, ChordsView;
      ghost var k, batch := State(), events[lo..hi];
      timeout := 0;
      var timeoutTs: nat, i := 0, lo;
      StateCore();
      while i != hi && !overflow
        invariant lo <= i <= hi && Shape() && Valid() && Ok(config, State()) && events[lo..hi] == batch
        invariant events == chordQueue ==> chordPhase == Resolving && hi <= chordQueueSize
        invariant Machine.ProcessEvents(config, State(), batch, i - lo, timeout, timeoutTs) ==
                  Machine.ProcessEvents(config, k, batch, 0, 0, 0)
        invariant Mode(State()) <= Mode(k) && Load(State()) + hi - i <= Load(k) + hi - lo
        invariant Load(State()) + hi - i == Load(k) + hi - lo ==> PendingWeight(State().core) <= PendingWeight(k.core)
        decreases Mode(State()), Load(State()) + hi - i, PendingWeight(State().core), hi - i,
                  if i < hi then Machine.TickRoom(batch, i - lo, timeout, timeoutTs) else 0
      {
        ghost var p, t := State(), timeout;
        StateCore();
        if timeout > 0 && timeoutTs <= events[i].timestamp {
          timeout := ProcessOne(KeyEvent(0, false, timeoutTs), events, lo, hi);
          Machine.TickTurnUnfolds(config, p, batch, i - lo, t, timeoutTs, State(), timeout);
          timeoutTs := timeoutTs + timeout;
        } else {
          timeout := ProcessOne(events[i], events, lo, hi);
          Machine.EventTurnUnfolds(config, p, batch, i - lo, t, timeoutTs, State(), timeout);
          timeoutTs := events[i].timestamp + timeout;
          i := i + 1;
        }
      }
      StateCore();
      Machine.BatchEnds(config, State(), batch, i - lo, timeout, timeoutTs);
    }

    /** A call from outside: what is proved of every reached state holds of the keyboard for
        as long as it lives. */
    method HandleEvents(events: array<KeyEvent>, ghost calls: seq<seq<KeyEvent>>) returns (timeout: nat)
      requires Shape() && Valid() && Ok(config, State()) && events != chordQueue && events != overloadQueue
      requires Runs.Reached(config, State(), calls) && Runs.InTime(calls + [events[..]])
      modifies this, keystate, layerState, cache, timeouts, activeChords, chordQueue, overloadQueue
      ensures Valid() && Ok(config, State()) && Runs.Reached(config, State(), calls + [old(events[..])])
      ensures (State(), timeout) == Machine.ProcessEvents(config, old(State()), old(events[..]), 0, 0, 0)
    {
      hide Ok, State, Machine.ProcessEvents, Runs.Reached, Runs.InTime;
      Runs.ReachedNext(config, State(), calls, events[..]);
      assert events[0..events.Length] == events[..];
      timeout := KbdProcessEvents(events, 0, events.Length);
    }
  }

  /** The first slot that holds the code. */
  lemma {:induction false} FindFirst(cache: seq<CacheEntry>, code: Code, i: nat, n: nat)
    requires i < n <= |cache| && cache[i].code == code && FindIn(cache, code, i) == -1
    ensures FindIn(cache, code, n) == i
    decreases n
  {
    if i != n - 1 {
      FindFirst(cache, code, i, n - 1);
    }
  }

  lemma SendAllTap(o: Out, a: seq<Stroke>, code: Code)
    requires |o.keys| == 256
    ensures SendAll(o, a + [Stroke(code, true), Stroke(code, false)]) == Send(Send(SendAll(o, a), code, true), code,
            false)
  {
    assert a + [Stroke(code, true), Stroke(code, false)] == (a + [Stroke(code, true)]) + [Stroke(code, false)];
    SendAllAppend(o, a + [Stroke(code, true)], Stroke(code, false));
    SendAllAppend(o, a, Stroke(code, true));
  }

  lemma LaterStep(ts: seq<int>, i: nat, time: int)
    requires i < |ts|
    ensures Events.Later(ts[..i + 1], time) == Events.Later(ts[..i], time) + if ts[i] > time then [ts[i]] else []
  {
    assert ts[..i + 1][..i] == ts[..i];
  }

  lemma MinimumStep(ts: seq<int>, t: int)
    ensures Events.Minimum(ts + [t]) == if ts == [] || t < Events.Minimum(ts) then t else Events.Minimum(ts)
  {
    assert (ts + [t])[..|ts|] == ts;
  }

  lemma LaterNothing(time: int)
    ensures Events.Later([], time) == []
  {
  }

  lemma HoldStartNothing(m: Macro)
    ensures HoldStart(m, 0) == -1
  {
  }

  lemma PressesStep(events: seq<KeyEvent>, i: nat)
    requires i < |events|
    ensures Events.Presses(events[..i + 1]) ==
            Events.Presses(events[..i]) + if events[i].pressed then [events[i].code] else []
  {
    assert events[..i + 1][..i] == events[..i];
  }

  lemma {:induction false} PressesAppend(events: seq<KeyEvent>, i: nat)
    requires i <= |events|
    ensures Events.Presses(events[..i]) <= Events.Presses(events)
    decreases |events| - i
  {
    if i == |events| {
      assert events[..i] == events;
    } else {
      PressesStep(events, i);
      PressesAppend(events, i + 1);
    }
  }

  lemma {:induction false} FindActivatorStays(c: Config, cache: seq<CacheEntry>, dl: nat, i: nat, n: nat)
    requires i <= n <= |cache| && dl < |c.layers|
    ensures FindActivator(c, cache, dl, i) != -1 ==> FindActivator(c, cache, dl, n) == FindActivator(c, cache, dl, i)
    decreases n
  {
    if i != n {
      FindActivatorStays(c, cache, dl, i, n - 1);
    }
  }

  function Released(c: Config, k: Core, layer: nat): Core
    requires layer < |k.lay.ls| == |c.layers| && |k.out.keys| == 256
  {
    var lay := Deactivate(k.lay, layer);
    k.(lay := lay, out := Sync(c, lay.ls, k.out))
  }

  lemma ReleasedOk(c: Config, k: Core, layer: nat)
    requires CoreOk(c, k) && layer < |c.layers|
    ensures CoreOk(c, Released(c, k, layer))
  {
  }

  lemma TimeoutFacts(c: Config, k: Core)
    requires CoreOk(c, k) && k.pt.code != 0
    ensures Allowed(c, k.pt.action1) && Allowed(c, k.pt.action2) && k.pt.dl < |c.layers|
    ensures CoreOk(c, k.(pt := k.pt.(code := 0)))
  {
  }

  lemma TimeoutBoundOk(c: Config, k: Core, e: CacheEntry)
    requires CoreOk(c, k) && k.pt.code != 0 && EntryOk(c, e) && e.code == k.pt.code
    ensures CoreOk(c, k.(pt := k.pt.(code := 0), cache := Put(k.cache, k.pt.code, e)))
  {
    PutOk(c, k.cache, k.pt.code, e);
  }

  lemma OverloadBoundOk(c: Config, k: Core, e: CacheEntry)
    requires CoreOk(c, k) && k.po.code != 0 && e.dl == k.po.dl && (e.d == k.po.action1 || e.d == k.po.action2) &&
             e.layer == 0
    ensures Allowed(c, e.d) && e.dl < |c.layers|
    ensures CoreOk(c, k.(po := k.po.(code := 0), cache := Put(k.cache, k.po.code, e)))
  {
    assert Allowed(c, e.d);
    PutOk(c, k.cache, k.po.code, e);
  }

  lemma MacroFacts(c: Config, k: Core)
    requires CoreOk(c, k) && k.mac.active.Some?
    ensures k.mac.active.value < |c.macros|
  {
  }

  lemma BoundOk(c: Config, k: Core, code: Code, e: CacheEntry)
    requires CoreOk(c, k) && code != 0 && EntryOk(c, e.(code := code))
    ensures CoreOk(c, k.(cache := Put(k.cache, code, e)))
    ensures SlotFor(k.cache, code) == -1 ==> Put(k.cache, code, e) == k.cache
  {
    PutOk(c, k.cache, code, e);
  }

  lemma UnboundOk(c: Config, k: Core, slot: nat, code: Code)
    requires CoreOk(c, k) && code != 0 && slot == Find(k.cache, code)
    ensures slot < |k.cache| && Allowed(c, k.cache[slot].d) && k.cache[slot].dl < |c.layers|
    ensures CoreOk(c, k.(cache := Remove(k.cache, code)))
  {
    assert EntryOk(c, k.cache[slot]);
    RemoveOk(c, k.cache, code);
  }

  lemma ActiveFacts(c: Config, k: Kbd)
    requires Ok(c, k)
    ensures ActiveOk(c, k.chords.active)
  {
  }

  /** The first active chord that holds the code. */
  lemma {:induction false} FindHeldFirst(active: seq<ActiveChord>, code: Code, i: nat, n: nat)
    requires i < n <= |active| && active[i].active && code in active[i].keys && Machine.FindHeld(active, code, i) == -1
    ensures Machine.FindHeld(active, code, n) == i
    decreases n
  {
    if i != n - 1 {
      FindHeldFirst(active, code, i, n - 1);
    }
  }

  lemma {:induction false} FindFreeFirst(active: seq<ActiveChord>, i: nat, n: nat)
    requires i < n <= |active| && !active[i].active && Machine.FindFree(active, i) == -1
    ensures Machine.FindFree(active, n) == i
    decreases n
  {
    if i != n - 1 {
      FindFreeFirst(active, i, n - 1);
    }
  }

  lemma NonZeroStep(keys: seq<Code>, j: nat)
    requires j < |keys|
    ensures NonZero(keys[..j + 1]) == NonZero(keys[..j]) + if keys[j] != 0 then 1 else 0
  {
    assert keys[..j + 1][..j] == keys[..j];
  }

  lemma LayersExist(c: Config)
    requires ConfigOk(c)
    ensures 0 < |c.layers|
  {
  }
}
