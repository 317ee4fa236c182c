/** What process_descriptor (src/keyboard.c:491-851) does for each action, in terms of keys,
    layers and deadlines. */
module Effects {
  import opened Keys
  import opened Output
  import opened Configs
  import opened Macros
  import opened State
  import opened Layers
  import opened Cache
  import opened Actions
  import opened ActionLaws
  import opened Pending

  /** No oneshot is armed. */
  ghost predicate Disarmed(lay: Lay) {
    !lay.latch && lay.oneshotTimeout == 0 && forall l | 0 <= l < |lay.ls| :: lay.ls[l].depth == 0
  }

  /** Every layer but one is as before. */
  ghost predicate OnlyLayer(before: Lay, after: Lay, l: nat) {
    |after.ls| == |before.ls| && forall j | 0 <= j < |before.ls| && j != l :: after.ls[j] == before.ls[j]
  }

  /** A key sequence leaves its key down at its press, with its modifiers and those of the active
      layers but the one it is bound in, and disarms the oneshots. Its release leaves the key up
      and the modifiers of the active layers. No other key changes. */
  lemma KeySequencePlays(c: Config, k: Core, code: Code, d: Descriptor, dl: nat, pressed: bool, time: int, now: int)
    requires Sound(c, k, now) && d.KeySequence? && Allowed(c, d) && dl < |c.layers| && code != 0
    ensures var r := Act(c, k, code, d, dl, pressed, time);
            (forall x: Code | !IsModifierKey(x) && x != d.code :: r.out.keys[x] == k.out.keys[x]) &&
            if pressed then
              Disarmed(r.lay) && (!IsSilent(d.code) ==> r.out.keys[d.code]) &&
              forall m: Modifier | KeyOf(m) != d.code ::
                r.out.keys[KeyOf(m)] == (m in d.mods + ActiveMods(c.layers, k.lay.ls, dl, |c.layers|))
            else
              r.lay == k.lay && ModsFollow(c, r) &&
              (!IsModifierKey(d.code) && !IsSilent(d.code) ==> !r.out.keys[d.code])
  {
    hide OutputOk, LayoutsOk, CacheOk, ConfigOk, OfClass, Positive, UpdateMods, DeadlinesKept, ActiveMods;
    if pressed {
      var up := if k.out.keys[d.code] then Send(k.out, d.code, false) else k.out;
      SendKeepsOutput(k.out, d.code, false);
      UpdateModsKeeps(c, k.lay.ls, up, false, dl, d.mods);
      UpdateModsSets(c, k.lay.ls, up, dl, d.mods);
      ClearOneshotKeeps(c.layers, k.lay);
    } else {
      SendKeepsOutput(k.out, d.code, false);
      SyncKeeps(c, k.lay.ls, Send(k.out, d.code, false), false);
    }
  }

  lemma UpdateModsSets(c: Config, ls: seq<LayerState>, o: Out, excluded: int, mods: Mods)
    requires |o.keys| == 256 && |ls| == |c.layers|
    ensures forall m: Modifier :: UpdateMods(c, ls, o, false, excluded, mods).0.keys[KeyOf(m)] ==
                                  (m in mods + ActiveMods(c.layers, ls, excluded, |c.layers|))
  {
    SetModsReachesTarget(o, !c.disableModifierGuard, mods + ActiveMods(c.layers, ls, excluded, |ls|));
  }

  /** layer() and layerm() activate their layer once more at the press and once less at the
      release, touch no other layer, and leave the modifiers of the active layers. */
  lemma LayerSwitches(c: Config, k: Core, code: Code, d: Descriptor, dl: nat, pressed: bool, time: int, now: int)
    requires Sound(c, k, now) && (d.Layer? || d.LayerM?) && Allowed(c, d) && dl < |c.layers| && code != 0
    ensures var r := Act(c, k, code, d, dl, pressed, time);
            OnlyLayer(k.lay, r.lay, d.layer) && ModsFollow(c, r) &&
            (pressed ==> r.lay.ls[d.layer].active == k.lay.ls[d.layer].active + 1) &&
            (!pressed && k.lay.ls[d.layer].active > 0 ==>
               r.lay.ls[d.layer].active == k.lay.ls[d.layer].active - 1)
  {
    hide OutputOk, LayoutsOk, CacheOk, ConfigOk, OfClass, Positive, UpdateMods, ExecuteMacro, DeadlinesKept;
    MacroFirstKeeps(c, k, d, dl, pressed, now);
    LayerSound(c, ActMacroFirst(c, k, d, dl, pressed), code, d, pressed, now);
  }

  /** oneshot() and oneshotm() activate their layer at the press. At the release the activation
      becomes an armed oneshot, with a deadline if there is a timeout, unless another key was
      pressed meanwhile: then it is given up. */
  lemma OneshotHandsOver(c: Config, k: Core, code: Code, d: Descriptor, dl: nat, pressed: bool, time: int, now: int)
    requires Sound(c, k, now) && (d.Oneshot? || d.OneshotM?) && Allowed(c, d) && dl < |c.layers| && code != 0
    ensures var r := Act(c, k, code, d, dl, pressed, time);
            var s, t := k.lay.ls[d.layer], r.lay.ls[d.layer];
            OnlyLayer(k.lay, r.lay, d.layer) && t.toggled == s.toggled &&
            (pressed ==> t.active == s.active + 1 && t.depth == s.depth && r.lay.latch) &&
            (!pressed && k.lay.latch ==> t.active == s.active && t.depth == s.depth + 1) &&
            (!pressed && k.lay.latch && c.oneshotTimeout != 0 ==>
               r.lay.oneshotTimeout == time + c.oneshotTimeout && (r.overflow || r.lay.oneshotTimeout in r.timers)) &&
            (!pressed && !k.lay.latch && s.active > 0 ==>
               t.active == s.active - 1 && t.depth == s.depth && ModsFollow(c, r))
  {
    hide OutputOk, LayoutsOk, CacheOk, ConfigOk, OfClass, Positive, UpdateMods, ExecuteMacro, DeadlinesKept, ModsFollow;
    if !pressed && !k.lay.latch {
      OneshotGivenUp(c, k, code, d, dl, time, now);
    }
  }

  lemma OneshotGivenUp(c: Config, k: Core, code: Code, d: Descriptor, dl: nat, time: int, now: int)
    requires Sound(c, k, now) && (d.Oneshot? || d.OneshotM?) && Allowed(c, d) && dl < |c.layers| && !k.lay.latch
    ensures ModsFollow(c, ActOneshot(c, k, code, d, dl, false, time))
  {
    hide OutputOk, LayoutsOk, CacheOk, ConfigOk, OfClass, Positive, UpdateMods, DeadlinesKept;
    SyncKeeps(c, ReleaseOneshot(k.lay, d.layer).ls, k.out, false);
  }

  /** toggle() and togglem() flip the toggle of their layer at the press and no other, disarm
      the oneshots, and keep every layer active as often as its holders explain, if it was.
      The release changes no layer. */
  lemma ToggleFlips(c: Config, k: Core, code: Code, d: Descriptor, dl: nat, pressed: bool, time: int, now: int)
    requires Sound(c, k, now) && (d.Toggle? || d.ToggleM?) && Allowed(c, d) && dl < |c.layers| && code != 0
    ensures var r := Act(c, k, code, d, dl, pressed, time);
            |r.lay.ls| == |k.lay.ls| &&
            if pressed then
              Disarmed(r.lay) &&
              (forall l | 0 <= l < |k.lay.ls| :: r.lay.ls[l].toggled == ((l == d.layer) != k.lay.ls[l].toggled)) &&
              (Covers(c.layers, k.lay, Nothing) ==>
                 forall l | 0 <= l < |c.layers| && !IsLayout(c.layers, l) :: Slack(r.lay.ls[l]) == Slack(k.lay.ls[l]))
            else r.lay == k.lay
  {
    hide OutputOk, CacheOk, ConfigOk, OfClass, Positive, UpdateMods, ExecuteMacro, DeadlinesKept, LayoutsOk,
         FlipToggle, Slack, IsLayout;
    if pressed {
      FlipFlips(c, k.lay, d.layer);
    }
  }

  lemma FlipFlips(c: Config, lay: Lay, idx: nat)
    requires LayoutsOk(c.layers, lay) && idx < |c.layers| && !IsLayout(c.layers, idx)
    ensures var r := ClearOneshot(FlipToggle(lay, idx));
            Disarmed(r) && |r.ls| == |lay.ls| &&
            (forall l | 0 <= l < |lay.ls| :: r.ls[l].toggled == ((l == idx) != lay.ls[l].toggled)) &&
            (Covers(c.layers, lay, Nothing) ==>
               forall l | 0 <= l < |c.layers| && !IsLayout(c.layers, l) :: Slack(r.ls[l]) == Slack(lay.ls[l]))
  {
    ToggleKeeps(c.layers, lay, idx);
    ClearOneshotKeeps(c.layers, FlipToggle(lay, idx));
  }

  /** What clear() leaves of the layers: no toggle, no oneshot, and exactly their activations
      fewer. */
  ghost predicate Cleared(c: Config, before: Lay, after: Lay)
    requires |before.ls| == |c.layers|
  {
    Disarmed(after) && |after.ls| == |before.ls| &&
    (forall l | 0 <= l < |c.layers| && !IsLayout(c.layers, l) :: !after.ls[l].toggled) &&
    (Covers(c.layers, before, Nothing) ==>
       forall l | 0 <= l < |c.layers| && !IsLayout(c.layers, l) :: after.ls[l].active == Slack(before.ls[l]))
  }

  lemma ClearAllClears(c: Config, k: Core, now: int)
    requires Sound(c, k, now)
    ensures Cleared(c, k.lay, ClearAll(c, k).lay) && forall x: Code :: !ClearAll(c, k).out.keys[x]
  {
    hide OutputOk, CacheOk, OfClass, Positive, DeadlinesKept;
    ClearAllKeeps(c, k, now);
    ClearOneshotKeeps(c.layers, k.lay);
    ClearTogglesKeeps(c.layers, ClearOneshot(k.lay), |c.layers|);
    assert ConfigOk(c);
    assert LayoutsOk(c.layers, ClearAll(c, k).lay);
  }

  /** clear() releases every key and takes every toggle and oneshot away, with exactly the
      activations they stand for; clearm() then runs its macro, which leaves down no key that
      it may not leave down. */
  lemma ClearReleasesAll(c: Config, k: Core, code: Code, d: Descriptor, dl: nat, time: int, now: int)
    requires Sound(c, k, now) && (d.Clear? || d.ClearM?) && Allowed(c, d) && dl < |c.layers| && code != 0
    ensures var r := Act(c, k, code, d, dl, true, time);
            Cleared(c, k.lay, r.lay) && r.mac.active.None? && (d.Clear? ==> forall x: Code :: !r.out.keys[x]) &&
            (d.ClearM? && Closed(c.macros[d.mac]) ==>
               ModsFollow(c, r) && forall x: Code | !IsModifierKey(x) && !IsSilent(x) :: !r.out.keys[x])
  {
    hide OutputOk, LayoutsOk, CacheOk, ConfigOk, OfClass, Positive, Cleared, DeadlinesKept, ExecuteMacro;
    ClearAllClears(c, k, now);
    ClearAllKeeps(c, k, now);
    if d.ClearM? {
      var p := ClearAll(c, k);
      ExecuteMacroKeeps(c, p.lay.ls, p.out, dl, c.macros[d.mac]);
    }
  }

  /** setlayout() makes its layout the current one, takes every toggle and oneshot away like
      clear(), and releases every key. */
  lemma LayoutSwitches(c: Config, k: Core, code: Code, d: Descriptor, dl: nat, time: int, now: int)
    requires Sound(c, k, now) && d.Layout? && Allowed(c, d) && dl < |c.layers| && code != 0
    ensures var r := Act(c, k, code, d, dl, true, time);
            r.lay.layout == d.layout && LayoutsOk(c.layers, r.lay) && Cleared(c, k.lay, r.lay) &&
            r.mac.active.None? && forall x: Code :: !r.out.keys[x]
  {
    hide OutputOk, CacheOk, OfClass, Positive, DeadlinesKept;
    ClearAllClears(c, k, now);
    ClearAllKeeps(c, k, now);
    var p := ClearAll(c, k);
    SetLayoutKeeps(c.layers, p.lay, d.layout);
    var r := SetLayout(c.layers, p.lay, d.layout);
    forall l | 0 <= l < |r.ls| ensures r.ls[l].depth == 0 {
      assert LayoutOk(c.layers, r.ls[l], l, r.layout);
    }
    SetLayoutRest(c, p.lay, d.layout);
  }

  lemma SetLayoutRest(c: Config, lay: Lay, idx: nat)
    requires |lay.ls| == |c.layers| && idx < |lay.ls|
    ensures SetLayout(c.layers, lay, idx).latch == lay.latch && SetLayout(c.layers, lay, idx).layout == idx
    ensures SetLayout(c.layers, lay, idx).oneshotTimeout == lay.oneshotTimeout
  {
    ClearLayoutsEffect(c.layers, lay, |c.layers|);
  }

  /** swap() and swapm() leave every layout as it was, and every code in its slot. */
  lemma SwapLeavesLayouts(c: Config, k: Core, code: Code, d: Descriptor, dl: nat, pressed: bool, time: int, now: int)
    requires Sound(c, k, now) && IsSwap(d) && Allowed(c, d) && dl < |c.layers| && code != 0
    ensures var r := Act(c, k, code, d, dl, pressed, time);
            LayoutsKept(c.layers, k.lay, r.lay) && SameCodes(k.cache, r.cache)
  {
    hide OutputOk, CacheOk, ConfigOk, OfClass, Positive, DeadlinesKept, UpdateMods, ExecuteMacro, ActSwap, CoreOk;
    SwapSound(c, k, d, dl, now);
    SwapLeaves(c, k, d, dl);
  }

  lemma SwapLeaves(c: Config, k: Core, d: Descriptor, dl: nat)
    requires CoreOk(c, k) && LayoutsOk(c.layers, k.lay) && IsSwap(d) && Allowed(c, d) && dl < |c.layers|
    ensures LayoutsKept(c.layers, k.lay, ActSwap(c, k, d, dl).lay)
  {
    hide CoreOk, OfClass, Positive, UpdateMods, MarkLayer, FindActivator, SwapToggled, SwapOneshot, Activate,
         Deactivate;
    hide IsLayout, CacheOk, EntryOk;
    LayersSwapped(c.layers, k.lay, dl, d.layer);
  }

  /** The three ways to move an activation from layer dl, which is no layout, to another. */
  lemma LayersSwapped(layers: seq<LayerDef>, lay: Lay, dl: nat, idx: nat)
    requires LayoutsOk(layers, lay) && dl < |layers| && idx < |layers| && !IsLayout(layers, idx)
    ensures lay.ls[dl].toggled ==> LayoutsKept(layers, lay, SwapToggled(lay, dl, idx))
    ensures lay.ls[dl].depth != 0 ==> LayoutsKept(layers, lay, SwapOneshot(lay, dl, idx))
    ensures layers[dl].kind == Normal ==> LayoutsKept(layers, lay, Activate(Deactivate(lay, dl), idx))
  {
    assert LayoutOk(layers, lay.ls[dl], dl, lay.layout);
  }

  ghost predicate LayoutsKept(layers: seq<LayerDef>, before: Lay, after: Lay) {
    after.layout == before.layout && |after.ls| == |before.ls| == |layers| &&
    forall l | IsLayout(layers, l) :: after.ls[l] == before.ls[l]
  }

  /** macro() and macro2() disarm the oneshots, make their macro the active one and the one to
      repeat, and list when it is repeated. Their release changes nothing. */
  lemma MacroStarts(c: Config, k: Core, code: Code, d: Descriptor, dl: nat, pressed: bool, time: int, now: int)
    requires Sound(c, k, now) && (d.MacroOnce? || d.Macro2?) && Allowed(c, d) && dl < |c.layers| && code != 0
    ensures var r := Act(c, k, code, d, dl, pressed, time);
            if pressed then
              Disarmed(r.lay) && r.mac.active == Some(d.mac) && r.memo.repeatable == d &&
              r.mac.timeout >= time + (if d.Macro2? then d.timeout else c.macroTimeout) &&
              (r.overflow || r.mac.timeout in r.timers)
            else r == k
  {
    hide OutputOk, CacheOk, ConfigOk, OfClass, Positive, DeadlinesKept, UpdateMods, ExecuteMacro, TimeoutOk, OverloadOk;
    hide RepeatableOk;
    ClearOneshotKeeps(c.layers, k.lay);
    assert ActSwitch(c, k, code, d, dl, pressed, time) == ActMacro(c, k, d, dl, pressed, time);
    hide ClearOneshot, LayoutsOk;
  }

  /** timeout() waits for its deadline, which is listed, and changes nothing else. */
  lemma TimeoutWaits(c: Config, k: Core, code: Code, d: Descriptor, dl: nat, time: int)
    requires CoreOk(c, k) && d.Timeout? && Allowed(c, d) && dl < |c.layers| && code != 0
    ensures var r := Act(c, k, code, d, dl, true, time);
            r.lay == k.lay && r.out == k.out && r.cache == k.cache && r.po == k.po && r.mac == k.mac &&
            r.pt == PendingTimeout(code, dl, false, time + d.timeout, time, c.descriptors[d.action1],
                      c.descriptors[d.action2]) &&
            (|k.timers| < MAX_TIMEOUTS ==> r.timers == k.timers + [r.pt.expiration] && r.overflow == k.overflow)
  {
    hide CacheOk, ConfigOk, TimeoutOk, OverloadOk, RepeatableOk, OfClass;
    assert ActSwitch(c, k, code, d, dl, true, time) == ActTimeout(c, k, code, d, dl, true, time);
  }

  /** overloadt() and overloadt2() wait for their deadline, which is listed, and change nothing
      else; only overloadt2() is resolved by the release of another key. */
  lemma OverloadTimeoutWaits(c: Config, k: Core, code: Code, d: Descriptor, dl: nat, time: int)
    requires CoreOk(c, k) && IsDelayed(d) && Allowed(c, d) && dl < |c.layers| && code != 0
    ensures var r := Act(c, k, code, d, dl, true, time);
            r.lay == k.lay && r.out == k.out && r.cache == k.cache && r.pt == k.pt &&
            r.po.code == code && r.po.dl == dl && r.po.resolveOnInterrupt == d.OverloadTimeoutTap? &&
            r.po.expiration == time + d.timeout && r.po.action1 == c.descriptors[d.action] &&
            r.po.action2 == Layer(d.layer) && r.mac == k.mac &&
            (|k.timers| < MAX_TIMEOUTS ==> r.timers == k.timers + [r.po.expiration] && r.overflow == k.overflow)
  {
  }

  /** overloadi() binds its key to the action it ran, the second one exactly if no simple key
      was struck for as long as its timeout. */
  lemma IdleRebinds(c: Config, k: Core, code: Code, d: Descriptor, dl: nat, time: int, now: int)
    requires Sound(c, k, now) && d.OverloadIdle? && Allowed(c, d) && dl < |c.layers| && code != 0
    requires Find(k.cache, code) != -1 && d.action1 < |c.descriptors| && d.action2 < |c.descriptors|
    ensures var r := Act(c, k, code, d, dl, true, time);
            SameCodes(k.cache, r.cache) &&
            r.cache[Find(k.cache, code)].d ==
              c.descriptors[if time - k.memo.lastSimple >= d.timeout then d.action2 else d.action1]
  {
    hide OutputOk, CacheOk, OfClass, Positive, DeadlinesKept, LayoutsOk, ConfigOk, TimeoutOk, OverloadOk, RepeatableOk;
    var action := IdleAction(c, k, d, time);
    PressKeepsCodes(c, k, code, action, dl, time, now);
    hide Act;
    var p := Act(c, k, code, action, dl, true, time);
    RebindSlot(k.cache, p.cache, code, action);
    assert ActOverloadIdle(c, k, code, d, dl, true, time).cache == Rebind(p.cache, code, action);
    PressOfIdle(c, k, code, d, dl, time);
  }

  lemma PressOfIdle(c: Config, k: Core, code: Code, d: Descriptor, dl: nat, time: int)
    requires CoreOk(c, k) && d.OverloadIdle? && Allowed(c, d) && dl < |c.layers| && code != 0
    ensures Act(c, k, code, d, dl, true, time).cache == ActOverloadIdle(c, k, code, d, dl, true, time).cache
  {
    hide ActOverloadIdle, CoreOk;
  }

  lemma PressKeepsCodes(c: Config, k: Core, code: Code, d: Descriptor, dl: nat, time: int, now: int)
    requires Sound(c, k, now) && Allowed(c, d) && dl < |c.layers| && code != 0
    ensures SameCodes(k.cache, Act(c, k, code, d, dl, true, time).cache)
  {
    hide Act, OfClass, Positive, CoreOk;
    ActKeeps(c, k, code, d, dl, true, time, now);
    assert Acted(c, k, Act(c, k, code, d, dl, true, time), code, d, true);
  }

  lemma RebindSlot(before: seq<CacheEntry>, after: seq<CacheEntry>, code: Code, d: Descriptor)
    requires SameCodes(before, after) && Find(before, code) != -1
    ensures SameCodes(before, Rebind(after, code, d)) && Rebind(after, code, d)[Find(before, code)].d == d
  {
    SameCodesSameSlot(before, after, code);
  }

  lemma SameCodesSameSlot(before: seq<CacheEntry>, after: seq<CacheEntry>, code: Code)
    requires SameCodes(before, after)
    ensures Find(after, code) == Find(before, code)
  {
  }

  /** repeat() does the action that was remembered and binds its key to what is remembered
      afterwards. */
  lemma RepeatRebinds(c: Config, k: Core, code: Code, dl: nat, time: int, now: int)
    requires Sound(c, k, now) && Allowed(c, Repeat) && dl < |c.layers| && code != 0 && Find(k.cache, code) != -1
    ensures var r := Act(c, k, code, Repeat, dl, true, time);
            SameCodes(k.cache, r.cache) && r.cache[Find(k.cache, code)].d == r.memo.repeatable &&
              IsRepeatable(r.memo.repeatable)
    ensures Act(c, k, code, Repeat, dl, true, time).out == Act(c, k, code, k.memo.repeatable, dl, true, time).out
    ensures Act(c, k, code, Repeat, dl, true, time).lay == Act(c, k, code, k.memo.repeatable, dl, true, time).lay
  {
    hide OutputOk, CacheOk, OfClass, Positive, DeadlinesKept;
    var action := k.memo.repeatable;
    PressKeepsCodes(c, k, code, action, dl, time, now);
    var p := Act(c, k, code, action, dl, true, time);
    RebindSlot(k.cache, p.cache, code, p.memo.repeatable);
  }

  /** When the armed oneshots expire, exactly their activations are given back and the
      modifiers are those of the layers left. */
  lemma OneshotsExpire(c: Config, k: Core, time: nat, now: int)
    requires Sound(c, k, now) && k.lay.oneshotTimeout != 0 && time >= k.lay.oneshotTimeout
    ensures var r := ExpireOneshots(c, k, time);
            Disarmed(r.lay) && ModsFollow(c, r) && |r.lay.ls| == |k.lay.ls| &&
            (Covers(c.layers, k.lay, Nothing) ==>
               forall l | 0 <= l < |c.layers| && !IsLayout(c.layers, l) ::
                 r.lay.ls[l] == k.lay.ls[l].(active := k.lay.ls[l].active - k.lay.ls[l].depth, depth := 0))
  {
    hide OutputOk, CacheOk, ConfigOk, OfClass, Positive, DeadlinesKept, UpdateMods;
    var lay := ClearOneshot(k.lay);
    SyncKeeps(c, lay.ls, k.out, false);
    ClearOneshotKeeps(c.layers, k.lay);
    ClearOneshotStamps(k.lay, |k.lay.ls|);
  }

  /** Disarming a oneshot does not change when its layer was activated. */
  lemma {:induction false} ClearOneshotStamps(lay: Lay, n: nat)
    requires n <= |lay.ls|
    ensures forall l | 0 <= l < |lay.ls| :: ClearOneshotLayers(lay, n).ls[l].activationTime == lay.ls[l].activationTime
    decreases n
  {
    if n != 0 {
      ClearOneshotStamps(lay, n - 1);
    }
  }
}
