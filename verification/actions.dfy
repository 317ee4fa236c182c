/** What process_descriptor and the functions below it (src/keyboard.c:135-187, 256-283,
    411-471, 491-851) do to struct keyboard, as functions on values. The methods of class
    Keyboard (keyboard.dfy) are proved to compute exactly these. */
module Actions {
  import opened Keys
  import opened Output
  import opened Configs
  import opened Macros
  import opened State
  import opened Layers
  import opened Cache

  /** update_mods: the output and the resulting mask. */
  function UpdateMods(c: Config, ls: seq<LayerState>, o: Out, inhibit: bool, excluded: int,
                      mods: Mods): (r: (Out, Mods))
    requires |o.keys| == 256 && |ls| == |c.layers|
    ensures |r.0.keys| == 256
  {
    var all := mods + ActiveMods(c.layers, ls, excluded, |ls|);
    (SetMods(o, !inhibit && !c.disableModifierGuard, all, |MODIFIERS|), all)
  }

  function Sync(c: Config, ls: seq<LayerState>, o: Out): (r: Out)
    requires |o.keys| == 256 && |ls| == |c.layers|
    ensures |r.keys| == 256
  {
    UpdateMods(c, ls, o, false, -1, {}).0
  }

  /** execute_macro: the output and the execution time. */
  function ExecuteMacro(c: Config, ls: seq<LayerState>, o: Out, dl: int, m: Macro): (r: (Out, nat))
    requires |o.keys| == 256 && |ls| == |c.layers|
    ensures |r.0.keys| == 256
  {
    if |m| == 1 && m[0].KeySeqEntry? then
      var held := UpdateMods(c, ls, o, false, dl, m[0].mods).0;
      (Sync(c, ls, Send(Send(held, m[0].code, true), m[0].code, false)), 0)
    else
      var bare := UpdateMods(c, ls, o, false, dl, {}).0;
      (Sync(c, ls, SendAll(bare, Requests(m, |m|))), Duration(m, |m|, c.macroSequenceTimeout / 1000))
  }

  /** schedule_timeout */
  function Schedule(k: Core, t: int): Core {
    if |k.timers| < MAX_TIMEOUTS then k.(timers := k.timers + [t]) else k.(overflow := true)
  }

  // ----------------------------------------------------------------------------- actions

  /** How much nesting an action may leave pending; a pending overload stays pending, and
      timers are only added. */
  ghost predicate Within(k: Core, r: Core, d: Descriptor) {
    (k.overflow ==> r.overflow) && (k.po.code != 0 ==> r.po.code != 0) && k.timers <= r.timers &&
    OverloadRank(r.po) <= Max(OverloadRank(k.po), Rank(d)) &&
    TimeoutRank(r.pt) <= Max(TimeoutRank(k.pt), Rank(d))
  }

  function ActKeySequence(c: Config, k: Core, d: Descriptor, dl: nat, pressed: bool, time: int): (r: Core)
    requires CoreOk(c, k) && d.KeySequence? && Allowed(c, d)
    ensures CoreOk(c, r) && Within(k, r, d)
  {
    var simple := if d.mods == {} || d.mods == {Shift} then time else k.memo.lastSimple;
    if pressed then
      var up := if k.out.keys[d.code] then Send(k.out, d.code, false) else k.out;
      var (held, activeMods) := UpdateMods(c, k.lay.ls, up, false, dl, d.mods);
      k.(out := Send(held, d.code, true), lay := ClearOneshot(k.lay),
         memo := k.memo.(repeatable := KeySequence(d.code, activeMods), lastSimple := simple))
    else
      k.(out := Sync(c, k.lay.ls, Send(k.out, d.code, false)), memo := k.memo.(lastSimple := simple))
  }

  function ActOverloadTimeout(c: Config, k: Core, code: Code, d: Descriptor, dl: nat, pressed: bool,
                              time: int): (r: Core)
    requires CoreOk(c, k) && Allowed(c, d) && dl < |c.layers| && code != 0
    requires d.OverloadTimeout? || d.OverloadTimeoutTap?
    ensures CoreOk(c, r) && Within(k, r, d)
  {
    if pressed then
      TableAllowed(c, d.action);
      var po := PendingOverload(code, dl, time + d.timeout, d.OverloadTimeoutTap?, c.descriptors[d.action],
        Layer(d.layer));
      Schedule(k.(po := po), po.expiration)
    else k
  }

  /** layer() and the layer half of layerm(). */
  function ActLayer(c: Config, k: Core, code: Code, d: Descriptor, pressed: bool): (r: Core)
    requires CoreOk(c, k) && Allowed(c, d) && (d.Layer? || d.LayerM?)
    ensures CoreOk(c, r) && Within(k, r, d)
  {
    MarkLayerOk(c, k.cache, code, d.layer);
    var lay := if pressed then Activate(k.lay, d.layer) else Deactivate(k.lay, d.layer);
    k.(lay := lay, cache := if pressed then MarkLayer(k.cache, code, d.layer) else k.cache,
       out := UpdateMods(c, lay.ls, k.out, k.memo.lastPressed == code, -1, {}).0)
  }

  /** clear() */
  function ClearAll(c: Config, k: Core): (r: Core)
    requires |k.lay.ls| == |c.layers| && |k.out.keys| == 256
    ensures |r.lay.ls| == |c.layers| && |r.out.keys| == 256
    ensures r == k.(lay := r.lay, out := r.out, mac := k.mac.(active := None))
  {
    k.(lay := ClearToggles(c.layers, ClearOneshot(k.lay), |c.layers|),
       mac := k.mac.(active := None), out := ResetKeys(k.out, 256))
  }

  /** clear() and clearm() */
  function ActClear(c: Config, k: Core, d: Descriptor, dl: nat, pressed: bool): (r: Core)
    requires CoreOk(c, k) && Allowed(c, d) && (d.Clear? || d.ClearM?)
    ensures CoreOk(c, r) && Within(k, r, d)
  {
    if pressed then
      var p := ClearAll(c, k);
      if d.ClearM? then p.(out := ExecuteMacro(c, p.lay.ls, p.out, dl, c.macros[d.mac]).0) else p
    else k
  }

  /** setlayout() */
  function ActLayout(c: Config, k: Core, d: Descriptor, pressed: bool): (r: Core)
    requires CoreOk(c, k) && d.Layout? && Allowed(c, d)
    ensures CoreOk(c, r) && Within(k, r, d)
  {
    if pressed then
      var p := ClearAll(c, k);
      p.(lay := SetLayout(c.layers, p.lay, d.layout))
    else k
  }

  /** The layer half of oneshot(), oneshotm() and oneshotk(). */
  function ActOneshot(c: Config, k: Core, code: Code, d: Descriptor, dl: nat, pressed: bool, time: int): (r: Core)
    requires CoreOk(c, k) && Allowed(c, d) && (d.Oneshot? || d.OneshotM? || d.OneshotK?)
    ensures CoreOk(c, r) && Within(k, r, d)
  {
    MarkLayerOk(c, k.cache, code, d.layer);
    if pressed then
      var lay := Activate(k.lay, d.layer);
      k.(lay := lay.(latch := true), cache := MarkLayer(k.cache, code, d.layer),
         out := UpdateMods(c, lay.ls, k.out, false, dl, {}).0)
    else
      var lay := ReleaseOneshot(k.lay, d.layer);
      if !k.lay.latch then k.(lay := lay, out := Sync(c, lay.ls, k.out))
      else if c.oneshotTimeout == 0 then k.(lay := lay)
      else
        Schedule(k.(lay := lay.(oneshotTimeout := time + c.oneshotTimeout)), time + c.oneshotTimeout)
  }

  function ActMacro(c: Config, k: Core, d: Descriptor, dl: nat, pressed: bool, time: int): (r: Core)
    requires CoreOk(c, k) && Allowed(c, d) && (d.MacroOnce? || d.Macro2?)
    ensures CoreOk(c, r) && Within(k, r, d)
  {
    if pressed then
      var timeout := if d.Macro2? then d.timeout else c.macroTimeout;
      var interval := if d.Macro2? then d.interval else c.macroRepeatTimeout;
      var lay := ClearOneshot(k.lay);
      var (out, executionTime) := ExecuteMacro(c, lay.ls, k.out, dl, c.macros[d.mac]);
      var mac := MacroRun(Some(d.mac), dl, executionTime + time + timeout, interval);
      Schedule(k.(lay := lay, out := out, mac := mac, memo := k.memo.(repeatable := d)), mac.timeout)
    else k
  }

  /** toggle() and the layer half of togglem(). */
  function ActToggle(c: Config, k: Core, code: Code, d: Descriptor, pressed: bool): (r: Core)
    requires CoreOk(c, k) && Allowed(c, d) && (d.Toggle? || d.ToggleM?)
    ensures CoreOk(c, r) && Within(k, r, d)
  {
    MarkLayerOk(c, k.cache, code, d.layer);
    if pressed then
      var lay := FlipToggle(k.lay, d.layer);
      k.(lay := ClearOneshot(lay), out := Sync(c, lay.ls, k.out),
         cache := if k.lay.ls[d.layer].toggled then k.cache else MarkLayer(k.cache, code, d.layer))
    else k
  }

  function ActTimeout(c: Config, k: Core, code: Code, d: Descriptor, dl: nat, pressed: bool, time: int): (r: Core)
    requires CoreOk(c, k) && d.Timeout? && Allowed(c, d) && dl < |c.layers|
    ensures CoreOk(c, r) && Within(k, r, d)
  {
    if pressed then
      TableAllowed(c, d.action1);
      TableAllowed(c, d.action2);
      var pt := PendingTimeout(code, dl, false, time + d.timeout, time, c.descriptors[d.action1],
        c.descriptors[d.action2]);
      Schedule(k.(pt := pt), pt.expiration)
    else if time == k.pt.activationTime then k.(pt := k.pt.(spontaneous := true))
    else k
  }

  /** command(): the command itself is no part of the model. */
  function ActCommand(c: Config, k: Core, pressed: bool): (r: Core)
    requires CoreOk(c, k)
    ensures CoreOk(c, r) && Within(k, r, Nothing)
  {
    if pressed then
      var lay := ClearOneshot(k.lay);
      k.(lay := lay, out := Sync(c, lay.ls, k.out))
    else k
  }

  /** The first slot among the first n whose key activated layer dl, if dl is a normal layer. */
  function FindActivator(c: Config, cache: seq<CacheEntry>, dl: nat, n: nat): (r: int)
    requires n <= |cache| && dl < |c.layers|
    ensures -1 <= r < n
    ensures r != -1 ==> cache[r].code != 0 && cache[r].layer == dl && c.layers[dl].kind == Normal
  {
    if n == 0 then -1
    else
      var p := FindActivator(c, cache, dl, n - 1);
      var e := cache[n - 1];
      if p != -1 then p
      else if e.code != 0 && e.layer == dl && c.layers[dl].kind == Normal && dl != 0 then n - 1
      else -1
  }

  /** swap() of a layer that the key in slot i activated: the key is bound to the new layer. */
  function ActSwapHeld(c: Config, k: Core, d: Descriptor, dl: nat, i: nat): (r: Core)
    requires CoreOk(c, k) && Allowed(c, d) && IsSwap(d) && dl < |c.layers| && i < |k.cache|
    ensures CoreOk(c, r) && Within(k, r, d)
  {
    hide ConfigOk, TimeoutOk, OverloadOk, RepeatableOk, Sync;
    var idx, code := d.layer, k.cache[i].code;
    var cache := k.cache[i := k.cache[i].(d := Layer(idx))];
    HeldLayerOk(c, k.cache, i, idx);
    MarkLayerOk(c, cache, code, idx);
    var lay := Activate(Deactivate(k.lay, dl), idx);
    k.(lay := lay.(strayed := lay.strayed || HeldLayer(k.cache[i].d) != dl), cache := MarkLayer(cache, code, idx),
       out := Sync(c, lay.ls, k.out))
  }

  lemma HeldLayerOk(c: Config, cache: seq<CacheEntry>, i: nat, idx: nat)
    requires CacheOk(c, cache) && i < |cache| && idx < |c.layers| && !IsLayout(c.layers, idx)
    ensures CacheOk(c, cache[i := cache[i].(d := Layer(idx))])
  {
    EditOk(c, cache, cache[i := cache[i].(d := Layer(idx))]);
  }

  /** swap() and the layer half of swapm(). */
  function ActSwap(c: Config, k: Core, d: Descriptor, dl: nat): (r: Core)
    requires CoreOk(c, k) && Allowed(c, d) && IsSwap(d) && dl < |c.layers|
    ensures CoreOk(c, r) && Within(k, r, d)
  {
    var idx, s := d.layer, k.lay.ls[dl];
    MarkLayerOk(c, k.cache, 0, idx);
    if s.toggled then
      var lay := SwapToggled(k.lay, dl, idx);
      k.(lay := lay, cache := MarkLayer(k.cache, 0, idx), out := Sync(c, lay.ls, k.out))
    else if s.depth != 0 then
      var lay := SwapOneshot(k.lay, dl, idx);
      k.(lay := lay, cache := MarkLayer(k.cache, 0, idx), out := Sync(c, lay.ls, k.out))
    else
      var i := FindActivator(c, k.cache, dl, |k.cache|);
      if i != -1 then ActSwapHeld(c, k, d, dl, i) else k
  }

  function ActSwapM(c: Config, k: Core, d: Descriptor, dl: nat, pressed: bool): (r: Core)
    requires CoreOk(c, k) && Allowed(c, d) && IsSwap(d) && dl < |c.layers|
    ensures CoreOk(c, r) && Within(k, r, d)
  {
    if pressed then
      var p := ActSwap(c, k, d, dl);
      if d.SwapM? then p.(out := ExecuteMacro(c, p.lay.ls, p.out, dl, c.macros[d.mac]).0) else p
    else if d.SwapM? && |c.macros[d.mac]| == 1 && c.macros[d.mac][0].KeySeqEntry? then
      k.(out := Sync(c, k.lay.ls, Send(k.out, c.macros[d.mac][0].code, false)))
    else k
  }

  function ActScroll(c: Config, k: Core, d: Descriptor, pressed: bool): (r: Core)
    requires CoreOk(c, k)
    ensures CoreOk(c, r) && Within(k, r, d)
  {
    match d
    case Scroll(s) => k.(memo := k.memo.(sensitivity := s, scroll := pressed))
    case ScrollToggleOn(s) => k.(memo := k.memo.(sensitivity := s, scroll := true))
    case ScrollToggleOff => if pressed then k.(memo := k.memo.(scroll := false)) else k
    case ScrollToggle(s) =>
      k.(memo := k.memo.(sensitivity := s, scroll := if pressed then !k.memo.scroll else k.memo.scroll))
    case _ => k
  }

  /** The macro that layerm, oneshotm and togglem run before their layer changes. */
  function ActMacroFirst(c: Config, k: Core, d: Descriptor, dl: nat, pressed: bool): (r: Core)
    requires CoreOk(c, k) && Allowed(c, d)
    ensures CoreOk(c, r) && Within(k, r, d) && r == k.(out := r.out)
  {
    if pressed && (d.LayerM? || d.OneshotM? || d.ToggleM?) then
      k.(out := ExecuteMacro(c, k.lay.ls, k.out, dl, c.macros[d.mac]).0)
    else k
  }

  /** The action an overloadi() stands for. */
  function IdleAction(c: Config, k: Core, d: Descriptor, time: int): (r: Descriptor)
    requires ConfigOk(c) && d.OverloadIdle? && Allowed(c, d)
    ensures Allowed(c, r) && Rank(r) < Rank(d)
  {
    TableAllowed(c, d.action1);
    TableAllowed(c, d.action2);
    c.descriptors[if time - k.memo.lastSimple >= d.timeout then d.action2 else d.action1]
  }

  /** The tap of an overload() counts: no other key was pressed since, and in time. */
  predicate Tapped(c: Config, k: Core, code: Code, time: int) {
    k.memo.lastPressed == code &&
    (c.overloadTapTimeout == 0 || time - k.memo.overloadStart < c.overloadTapTimeout)
  }

  /** A bound on how deep process_descriptor calls itself. */
  function Height(d: Descriptor): nat {
    2 * Rank(d) + if d.Repeat? then 1 else 0
  }

  /** process_descriptor */
  function Act(c: Config, k: Core, code: Code, d: Descriptor, dl: nat, pressed: bool, time: int): (r: Core)
    requires CoreOk(c, k) && Allowed(c, d) && dl < |c.layers| && code != 0
    ensures CoreOk(c, r) && Within(k, r, d)
    decreases Height(d), 2
  {
    var r := ActSwitch(c, ActMacroFirst(c, k, d, dl, pressed), code, d, dl, pressed, time);
    if pressed then r.(memo := r.memo.(lastPressed := code)) else r
  }

  function ActSwitch(c: Config, k: Core, code: Code, d: Descriptor, dl: nat, pressed: bool, time: int): (r: Core)
    requires CoreOk(c, k) && Allowed(c, d) && dl < |c.layers| && code != 0
    ensures CoreOk(c, r) && Within(k, r, d)
    decreases Height(d), 1
  {
    match d
    case Nothing => k
    case KeySequence(_, _) => ActKeySequence(c, k, d, dl, pressed, time)
    case Layer(_) => ActLayer(c, k, code, d, pressed)
    case LayerM(_, _) => ActLayer(c, k, code, d, pressed)
    case Layout(_) => ActLayout(c, k, d, pressed)
    case Clear => ActClear(c, k, d, dl, pressed)
    case ClearM(_) => ActClear(c, k, d, dl, pressed)
    case Oneshot(_) => ActOneshot(c, k, code, d, dl, pressed, time)
    case OneshotM(_, _) => ActOneshot(c, k, code, d, dl, pressed, time)
    case OneshotK(_, _) => ActOneshotK(c, k, code, d, dl, pressed, time)
    case Toggle(_) => ActToggle(c, k, code, d, pressed)
    case ToggleM(_, _) => ActToggle(c, k, code, d, pressed)
    case Swap(_) => ActSwapM(c, k, d, dl, pressed)
    case SwapM(_, _) => ActSwapM(c, k, d, dl, pressed)
    case Overload(_, _) => ActOverload(c, k, code, d, dl, pressed, time)
    case OverloadTimeout(_, _, _) => ActOverloadTimeout(c, k, code, d, dl, pressed, time)
    case OverloadTimeoutTap(_, _, _) => ActOverloadTimeout(c, k, code, d, dl, pressed, time)
    case OverloadIdle(_, _, _) => ActOverloadIdle(c, k, code, d, dl, pressed, time)
    case Repeat => ActRepeat(c, k, code, dl, pressed, time)
    case MacroOnce(_) => ActMacro(c, k, d, dl, pressed, time)
    case Macro2(_, _, _) => ActMacro(c, k, d, dl, pressed, time)
    case Command(_) => ActCommand(c, k, pressed)
    case Timeout(_, _, _) => ActTimeout(c, k, code, d, dl, pressed, time)
    case Scroll(_) => ActScroll(c, k, d, pressed)
    case ScrollToggleOn(_) => ActScroll(c, k, d, pressed)
    case ScrollToggleOff => ActScroll(c, k, d, pressed)
    case ScrollToggle(_) => ActScroll(c, k, d, pressed)
  }

  function ActOneshotK(c: Config, k: Core, code: Code, d: Descriptor, dl: nat, pressed: bool, time: int): (r: Core)
    requires CoreOk(c, k) && d.OneshotK? && Allowed(c, d) && dl < |c.layers| && code != 0
    ensures CoreOk(c, r) && Within(k, r, d)
    decreases Height(d), 0
  {
    TableAllowed(c, d.key);
    ActOneshot(c, Act(c, k, code, c.descriptors[d.key], dl, pressed, time), code, d, dl, pressed, time)
  }

  function ActOverload(c: Config, k: Core, code: Code, d: Descriptor, dl: nat, pressed: bool, time: int): (r: Core)
    requires CoreOk(c, k) && d.Overload? && Allowed(c, d) && dl < |c.layers| && code != 0
    ensures CoreOk(c, r) && Within(k, r, d)
    decreases Height(d), 0
  {
    TableAllowed(c, d.action);
    MarkLayerOk(c, k.cache, code, d.layer);
    var action := c.descriptors[d.action];
    if pressed then
      var lay := Activate(k.lay, d.layer);
      k.(lay := lay, cache := MarkLayer(k.cache, code, d.layer), out := Sync(c, lay.ls, k.out),
         memo := k.memo.(overloadStart := time))
    else
      var lay := Deactivate(k.lay, d.layer);
      var p := k.(lay := lay, out := Sync(c, lay.ls, k.out));
      if Tapped(c, k, code, time) then ActTap(c, p, code, action, dl, time) else p
  }

  /** The tap of an overload(). */
  function ActTap(c: Config, k: Core, code: Code, action: Descriptor, dl: nat, time: int): (r: Core)
    requires CoreOk(c, k) && Allowed(c, action) && dl < |c.layers| && code != 0
    ensures CoreOk(c, r) && Within(k, r, action)
    decreases Height(action), 3
  {
    if action.MacroOnce? then
      k.(out := ExecuteMacro(c, k.lay.ls, k.out, dl, c.macros[action.mac]).0)
    else
      Act(c, Act(c, k, code, action, dl, true, time), code, action, dl, false, time)
  }

  function ActOverloadIdle(c: Config, k: Core, code: Code, d: Descriptor, dl: nat, pressed: bool, time: int): (r: Core)
    requires CoreOk(c, k) && d.OverloadIdle? && Allowed(c, d) && dl < |c.layers| && code != 0
    ensures CoreOk(c, r) && Within(k, r, d)
    decreases Height(d), 0
  {
    if pressed then
      var action := IdleAction(c, k, d, time);
      var p := Act(c, k, code, action, dl, true, time);
      RebindOk(c, p.cache, code, action);
      p.(cache := Rebind(p.cache, code, action))
    else k
  }

  function ActRepeat(c: Config, k: Core, code: Code, dl: nat, pressed: bool, time: int): (r: Core)
    requires CoreOk(c, k) && dl < |c.layers| && code != 0
    ensures CoreOk(c, r) && Within(k, r, Repeat)
    decreases Height(Repeat), 0
  {
    if pressed then
      var p := Act(c, k, code, k.memo.repeatable, dl, true, time);
      RebindOk(c, p.cache, code, p.memo.repeatable);
      p.(cache := Rebind(p.cache, code, p.memo.repeatable))
    else k
  }
}
