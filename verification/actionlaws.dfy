/** What every action keeps, and what it does to the layer accounts, the cache, the
    deadlines and the keys. */
module ActionLaws {
  import opened Keys
  import opened Output
  import opened Configs
  import opened Macros
  import opened State
  import opened Layers
  import opened Cache
  import opened Actions

  // -------------------------------------------------------------------------- invariants

  /** Deadline t has passed or is in the timer list. */
  ghost predicate Kept(k: Core, now: int, t: int) {
    t <= now || t in k.timers
  }

  /** Every live deadline of an action has passed or is in the timer list. */
  ghost predicate DeadlinesKept(k: Core, now: int) {
    !k.overflow ==>
      (k.pt.code != 0 ==> Kept(k, now, k.pt.expiration)) &&
      (k.po.code != 0 ==> Kept(k, now, k.po.expiration)) &&
      (k.lay.oneshotTimeout != 0 ==> Kept(k, now, k.lay.oneshotTimeout)) &&
      (k.mac.active.Some? ==> Kept(k, now, k.mac.timeout))
  }

  /** What holds between any two actions. */
  ghost predicate Sound(c: Config, k: Core, now: int) {
    CoreOk(c, k) && OutputOk(k.out) && LayoutsOk(c.layers, k.lay) && DeadlinesKept(k, now)
  }

  /** A pending timeout() expires after it was pressed, and the active macro is repeated
      after a while. */
  predicate Ahead(k: Core) {
    (k.pt.code != 0 ==> k.pt.expiration > k.pt.activationTime) && (k.mac.active.Some? ==> k.mac.interval > 0)
  }

  // ------------------------------------------------------------------ what actions change

  /** The same codes in the same slots. */
  ghost predicate SameCodes(before: seq<CacheEntry>, after: seq<CacheEntry>) {
    |before| == |after| && forall i | 0 <= i < |after| :: after[i].code == before[i].code
  }

  /** The same codes are bound to the same actions in the same slots. */
  ghost predicate SameBindings(before: seq<CacheEntry>, after: seq<CacheEntry>) {
    |before| == |after| &&
    forall i | 0 <= i < |after| :: after[i].code == before[i].code && after[i].d == before[i].d
  }

  /** No visible key outside the modifiers is down that was up, except the one a key
      sequence presses; the one it releases is up. */
  ghost predicate KeysFollow(before: seq<bool>, after: seq<bool>, d: Descriptor, pressed: bool)
    requires |before| == |after| == 256
  {
    forall c: Code | !IsModifierKey(c) && !IsSilent(c) && after[c] ::
      if d.KeySequence? && d.code == c then pressed else before[c]
  }

  /** The modifier keys are those of the active layers. */
  ghost predicate ModsFollow(c: Config, k: Core)
    requires |k.out.keys| == 256 && |k.lay.ls| == |c.layers|
  {
    forall m: Modifier :: k.out.keys[KeyOf(m)] == (m in ActiveMods(c.layers, k.lay.ls, -1, |c.layers|))
  }

  /** What a press of d makes payable at the release, and what a release of d costs. */
  function Gain(d: Descriptor, pressed: bool): Descriptor { if pressed then d else Nothing }
  function Loss(d: Descriptor, pressed: bool): Descriptor { if pressed then Nothing else d }

  /** The activations of layer l that no toggle, oneshot or held key accounts for. */
  function Net(k: Core, l: nat): int
    requires l < |k.lay.ls|
  {
    Slack(k.lay.ls[l]) - Holders(k.cache, |k.cache|, l)
  }

  /** Every layer that is no layout can pay for the release of d and of all held keys. A
      press may find its own key among the held ones. */
  ghost predicate Funded(c: Config, k: Core, d: Descriptor, pressed: bool)
    requires |k.lay.ls| == |c.layers|
  {
    forall l | 0 <= l < |c.layers| && !IsLayout(c.layers, l) ::
      if pressed then Slack(k.lay.ls[l]) >= 0 && Net(k, l) + Credit(d, l) >= 0
      else Net(k, l) >= Credit(d, l)
  }

  /** No assertion failed, and every layer that is no layout earned what a press gains and
      lost no more than a release costs. */
  ghost predicate Earns(c: Config, k: Core, r: Core, d: Descriptor, pressed: bool)
    requires |k.lay.ls| == |r.lay.ls| == |c.layers|
  {
    r.lay.underflow == k.lay.underflow &&
    forall l | 0 <= l < |c.layers| && !IsLayout(c.layers, l) ::
      Net(r, l) >= Net(k, l) + Credit(Gain(d, pressed), l) - Credit(Loss(d, pressed), l)
  }

  /** Every layer that is no layout earned exactly what a press gains and lost exactly what
      a release costs. */
  ghost predicate Evens(c: Config, k: Core, r: Core, d: Descriptor, pressed: bool)
    requires |k.lay.ls| == |r.lay.ls| == |c.layers|
  {
    forall l | 0 <= l < |c.layers| && !IsLayout(c.layers, l) ::
      Net(r, l) == Net(k, l) + Credit(Gain(d, pressed), l) - Credit(Loss(d, pressed), l)
  }

  /** No slot, or, at a press, one that already accounts for d, holds the code. */
  predicate Loose(cache: seq<CacheEntry>, code: Code, d: Descriptor, pressed: bool) {
    Find(cache, code) == -1 || (pressed && HeldLayer(cache[Find(cache, code)].d) == HeldLayer(d))
  }

  /** The code has a slot or can get one. */
  ghost predicate HasRoom(cache: seq<CacheEntry>, code: Code) {
    Find(cache, code) != -1 || exists i | 0 <= i < |cache| :: cache[i].code == 0
  }

  /** Binding the code to another action gives no layer away: the code has a slot that holds
      none, or it has no slot and there is a free one. */
  ghost predicate Takeable(cache: seq<CacheEntry>, code: Code) {
    HasRoom(cache, code) && (Find(cache, code) != -1 ==> HeldLayer(cache[Find(cache, code)].d) == -1)
  }

  /** The key of a pending overload can be bound to what it resolves to. */
  ghost predicate OverloadFits(k: Core) {
    k.po.code != 0 ==> Takeable(k.cache, k.po.code)
  }

  /** What action d of a steady configuration changed. */
  ghost predicate ActedSteadily(c: Config, k: Core, r: Core, code: Code, d: Descriptor, pressed: bool)
    requires |k.lay.ls| == |r.lay.ls| == |c.layers|
  {
    r.pt == k.pt &&
    (Funded(c, k, d, pressed) && Loose(k.cache, code, d, pressed) ==> Evens(c, k, r, d, pressed)) &&
    (OverloadFits(k) && Loose(k.cache, code, d, pressed) && HasRoom(k.cache, code) ==> OverloadFits(r))
  }

  /** Every key that is marked with a layer holds it. */
  ghost predicate Honest(cache: seq<CacheEntry>) {
    forall i | 0 <= i < |cache| && cache[i].code != 0 && cache[i].layer != 0 :: HeldLayer(cache[i].d) == cache[i].layer
  }

  /** What action d changed where marks can be trusted: they still can, and no swap() went
      astray. */
  ghost predicate ActedHonestly(k: Core, r: Core, code: Code, d: Descriptor, pressed: bool) {
    r.pt == k.pt &&
    (Honest(k.cache) && Loose(k.cache, code, d, pressed) ==> Honest(r.cache) && r.lay.strayed == k.lay.strayed)
  }

  /** The bindings stay, and so do the marks, but for that of a key that begins to hold a layer. */
  ghost predicate MarksFollow(before: seq<CacheEntry>, after: seq<CacheEntry>, code: Code, d: Descriptor, pressed: bool)
  {
    after == before || (pressed && HeldLayer(d) >= 0 && after == MarkLayer(before, code, HeldLayer(d)))
  }

  /** A swap() that went astray is remembered, and without swaps none does. */
  ghost predicate Strays(c: Config, before: Lay, after: Lay) {
    (before.strayed ==> after.strayed) && (OfClass(c, SwapFree) ==> after.strayed == before.strayed)
  }

  /** d itself is done at once: no tap of another action, nothing an overloadi() stands for, and
      no swap. */
  predicate IsDirect(d: Descriptor, pressed: bool) {
    if pressed then !IsSwap(d) && !d.OverloadIdle? else !d.Overload?
  }

  /** What action d, done for a key, changed. */
  ghost predicate Acted(c: Config, k: Core, r: Core, code: Code, d: Descriptor, pressed: bool)
    requires CoreOk(c, k) && CoreOk(c, r)
  {
    SameCodes(k.cache, r.cache) &&
    (IsRepeatable(d) ==> r.cache == k.cache && r.po == k.po && r.lay.strayed == k.lay.strayed) &&
    Strays(c, k.lay, r.lay) && (!r.lay.strayed && Funded(c, k, d, pressed) ==> Earns(c, k, r, d, pressed)) &&
    (OfClass(c, Undelayed) ==> r.po == k.po) && (Positive(c) && Ahead(k) ==> Ahead(r)) &&
    (IsDirect(d, pressed) ==> ActedDirectly(c, k, r, code, d, pressed)) &&
    (OfClass(c, Steady) ==> ActedSteadily(c, k, r, code, d, pressed)) &&
    (OfClass(c, Marked) ==> ActedHonestly(k, r, code, d, pressed)) &&
    (IsSimple(c.descriptors, d) && Covers(c.layers, k.lay, Loss(d, pressed)) ==> ActedSimply(c, k, r, d, pressed))
  }

  /** What an action that is done at once changed. */
  ghost predicate ActedDirectly(c: Config, k: Core, r: Core, code: Code, d: Descriptor, pressed: bool)
    requires |k.lay.ls| == |r.lay.ls| == |c.layers|
  {
    (Covers(c.layers, k.lay, Loss(d, pressed)) && Loose(k.cache, code, d, pressed) ==> Evens(c, k, r, d, pressed)) &&
    (Find(k.cache, code) == -1 ==> SameBindings(k.cache, r.cache))
  }

  /** What a simple action changed. */
  ghost predicate ActedSimply(c: Config, k: Core, r: Core, d: Descriptor, pressed: bool)
    requires CoreOk(c, k) && CoreOk(c, r)
  {
    Balances(c.layers, k.lay, r.lay, Gain(d, pressed), Loss(d, pressed)) &&
    (Quiet(k.lay) ==> Quiet(r.lay)) && KeysFollow(k.out.keys, r.out.keys, d, pressed) &&
    (if d.Nothing? then ModsFollow(c, k) ==> ModsFollow(c, r) else !pressed ==> ModsFollow(c, r)) &&
    SameBindings(k.cache, r.cache) && r.pt == k.pt && r.po == k.po && r.mac == k.mac &&
    r.timers == k.timers && r.overflow == k.overflow
  }

  // ----------------------------------------------------------------------------- the output

  /** update_mods reaches its target: a modifier key is down if and only if its mask is
      requested or belongs to an active layer that is not excluded; other keys are as
      before. */
  lemma UpdateModsReachesTarget(c: Config, ls: seq<LayerState>, o: Out, inhibit: bool, excluded: int, mods: Mods)
    requires |o.keys| == 256 && |ls| == |c.layers|
    ensures var r := UpdateMods(c, ls, o, inhibit, excluded, mods).0;
            (forall m: Modifier :: r.keys[KeyOf(m)] ==
               (m in mods || exists l | 0 <= l < |ls| ::
                  ls[l].active > 0 && !Excluded(c.layers, excluded, l) && m in c.layers[l].mods)) &&
            (forall k: Code | !IsModifierKey(k) :: r.keys[k] == o.keys[k])
    ensures OutputOk(o) ==> OutputOk(UpdateMods(c, ls, o, inhibit, excluded, mods).0)
  {
    var all := mods + ActiveMods(c.layers, ls, excluded, |ls|);
    var guardOn := !inhibit && !c.disableModifierGuard;
    SetModsReachesTarget(o, guardOn, all);
    forall m: Modifier {
      ActiveModsMeaning(c.layers, ls, excluded, |ls|, m);
    }
    if OutputOk(o) {
      SetModsKeepsOutput(o, guardOn, all, |MODIFIERS|);
    }
  }

  /** With the guard on, every release of alt, altgr or meta that update_mods sends happens with
      control down or after another key was pressed. */
  lemma UpdateModsGuarded(c: Config, ls: seq<LayerState>, o: Out, inhibit: bool, excluded: int, mods: Mods)
    returns (strokes: seq<Stroke>)
    requires |o.keys| == 256 && |ls| == |c.layers|
    ensures UpdateMods(c, ls, o, inhibit, excluded, mods).0 == EmitAll(o, strokes)
    ensures !inhibit && !c.disableModifierGuard ==> NoLoneTaps(o, strokes)
  {
    var all := mods + ActiveMods(c.layers, ls, excluded, |ls|);
    strokes := SetModsGuarded(o, !inhibit && !c.disableModifierGuard, all, |MODIFIERS|);
  }

  lemma SyncKeeps(c: Config, ls: seq<LayerState>, o: Out, inhibit: bool)
    requires OutputOk(o) && |ls| == |c.layers|
    ensures var r := UpdateMods(c, ls, o, inhibit, -1, {}).0;
            OutputOk(r) &&
            (forall m: Modifier :: r.keys[KeyOf(m)] == (m in ActiveMods(c.layers, ls, -1, |c.layers|))) &&
            (forall k: Code | !IsModifierKey(k) :: r.keys[k] == o.keys[k])
  {
    var all := ActiveMods(c.layers, ls, -1, |ls|);
    assert {} + all == all;
    SetModsReachesTarget(o, !inhibit && !c.disableModifierGuard, all);
    SetModsKeepsOutput(o, !inhibit && !c.disableModifierGuard, all, |MODIFIERS|);
  }

  lemma UpdateModsKeeps(c: Config, ls: seq<LayerState>, o: Out, inhibit: bool, excluded: int, mods: Mods)
    requires OutputOk(o) && |ls| == |c.layers|
    ensures OutputOk(UpdateMods(c, ls, o, inhibit, excluded, mods).0)
    ensures forall k: Code | !IsModifierKey(k) :: UpdateMods(c, ls, o, inhibit, excluded, mods).0.keys[k] == o.keys[k]
  {
    var all := mods + ActiveMods(c.layers, ls, excluded, |ls|);
    SetModsReachesTarget(o, !inhibit && !c.disableModifierGuard, all);
    SetModsKeepsOutput(o, !inhibit && !c.disableModifierGuard, all, |MODIFIERS|);
  }

  /** A macro without an open hold group presses no key for good, and afterwards the
      modifier keys are those of the active layers. */
  lemma ExecuteMacroKeeps(c: Config, ls: seq<LayerState>, o: Out, dl: int, m: Macro)
    requires OutputOk(o) && |ls| == |c.layers|
    ensures var r := ExecuteMacro(c, ls, o, dl, m).0;
            OutputOk(r) &&
            (forall mod: Modifier :: r.keys[KeyOf(mod)] == (mod in ActiveMods(c.layers, ls, -1, |c.layers|))) &&
            (Closed(m) ==> forall k: Code | !IsModifierKey(k) && !IsSilent(k) ::
               r.keys[k] == (o.keys[k] && FateOf(Requests(m, |m|), k) == Untouched))
  {
    if |m| == 1 && m[0].KeySeqEntry? {
      UpdateModsKeeps(c, ls, o, false, dl, m[0].mods);
      var held := UpdateMods(c, ls, o, false, dl, m[0].mods).0;
      SendKeepsOutput(held, m[0].code, true);
      SendKeepsOutput(Send(held, m[0].code, true), m[0].code, false);
      SyncKeeps(c, ls, Send(Send(held, m[0].code, true), m[0].code, false), false);
      forall k: Code | !IsModifierKey(k) {
        SingleKeySequenceFate(m, k);
      }
    } else {
      UpdateModsKeeps(c, ls, o, false, dl, {});
      var bare := UpdateMods(c, ls, o, false, dl, {}).0;
      SendAllKeepsOutput(bare, Requests(m, |m|));
      SyncKeeps(c, ls, SendAll(bare, Requests(m, |m|)), false);
      forall k: Code | !IsModifierKey(k) && !IsSilent(k) && Closed(m)
        ensures SendAll(bare, Requests(m, |m|)).keys[k] == (o.keys[k] && FateOf(Requests(m, |m|), k) == Untouched)
      {
        ClosedMacroEffect(m, bare, k);
      }
    }
  }

  // ------------------------------------------------------------------ one action at a time

  /** Deadlines stay kept when timers are only added and what is pending only cleared. */
  lemma SoundStep(c: Config, k: Core, r: Core, now: int)
    requires Sound(c, k, now) && CoreOk(c, r) && OutputOk(r.out) && LayoutsOk(c.layers, r.lay)
    requires r.pt == k.pt && r.po == k.po && r.timers == k.timers && r.overflow == k.overflow
    requires r.mac == k.mac || r.mac.active.None?
    requires r.lay.oneshotTimeout == 0 || r.lay.oneshotTimeout == k.lay.oneshotTimeout
    ensures Sound(c, r, now)
  {
  }

  lemma {:induction false} SameBindingsSameHolders(before: seq<CacheEntry>, after: seq<CacheEntry>, n: nat, l: nat)
    requires SameBindings(before, after) && n <= |before|
    ensures Holders(after, n, l) == Holders(before, n, l)
    decreases n
  {
    if n != 0 {
      SameBindingsSameHolders(before, after, n - 1, l);
    }
  }

  /** Layers that balance, under bindings that stay, earn. */
  lemma BalanceEarns(c: Config, k: Core, r: Core, d: Descriptor, pressed: bool)
    requires |k.lay.ls| == |r.lay.ls| == |c.layers| && SameBindings(k.cache, r.cache)
    requires Covers(c.layers, k.lay, Loss(d, pressed)) ==>
               Balances(c.layers, k.lay, r.lay, Gain(d, pressed), Loss(d, pressed))
    ensures Covers(c.layers, k.lay, Loss(d, pressed)) ==> Evens(c, k, r, d, pressed)
    ensures Funded(c, k, d, pressed) ==> Earns(c, k, r, d, pressed) && Evens(c, k, r, d, pressed)
  {
    if Covers(c.layers, k.lay, Loss(d, pressed)) {
      forall l | 0 <= l < |c.layers|
        ensures Holders(r.cache, |r.cache|, l) == Holders(k.cache, |k.cache|, l)
      {
        SameBindingsSameHolders(k.cache, r.cache, |k.cache|, l);
      }
    }
  }

  /** A change of the layers that balances is all that is asked of most actions. */
  lemma ActedStep(c: Config, k: Core, r: Core, code: Code, d: Descriptor, pressed: bool)
    requires CoreOk(c, k) && CoreOk(c, r) && SameBindings(k.cache, r.cache)
    requires !IsSimple(c.descriptors, d) && r.lay.strayed == k.lay.strayed
    requires r.po == k.po || (pressed && IsDelayed(d) && r.po.code == code && !OfClass(c, Undelayed))
    requires OfClass(c, Steady) || OfClass(c, Marked) ==> r.pt == k.pt
    requires OfClass(c, Marked) || IsRepeatable(d) ==> MarksFollow(k.cache, r.cache, code, d, pressed)
    requires Positive(c) && Ahead(k) ==> Ahead(r)
    requires Covers(c.layers, k.lay, Loss(d, pressed)) ==>
               Balances(c.layers, k.lay, r.lay, Gain(d, pressed), Loss(d, pressed))
    ensures Acted(c, k, r, code, d, pressed)
  {
    hide OfClass, Positive, ConfigOk, CacheOk, TimeoutOk, OverloadOk, RepeatableOk, Funded, Earns, Evens, Balances,
         Covers, Honest, OverloadFits, HasRoom, Loose, IsSimple, Find, MarksFollow, ActedSimply;
    BalanceEarns(c, k, r, d, pressed);
    SameBindingsFit(k, r, code, d, pressed);
    MarksStayHonest(k.cache, r.cache, code, d, pressed);
  }

  lemma MarksStayHonest(before: seq<CacheEntry>, after: seq<CacheEntry>, code: Code, d: Descriptor, pressed: bool)
    ensures MarksFollow(before, after, code, d, pressed) && Honest(before) && Loose(before, code, d, pressed) ==>
              Honest(after)
    ensures MarksFollow(before, after, code, d, pressed) && IsRepeatable(d) ==> after == before
  {
  }

  /** The key of the pending overload can be bound as before; and so can a key whose overload
      begins to be pending. */
  lemma SameBindingsFit(k: Core, r: Core, code: Code, d: Descriptor, pressed: bool)
    requires SameBindings(k.cache, r.cache)
    requires r.po == k.po || (pressed && IsDelayed(d) && r.po.code == code)
    ensures OverloadFits(k) && Loose(k.cache, code, d, pressed) && HasRoom(k.cache, code) ==> OverloadFits(r)
  {
  }

  /** A simple action is also asked to leave the keys and the pending actions alone. */
  lemma SimpleStep(c: Config, k: Core, r: Core, code: Code, d: Descriptor, pressed: bool)
    requires CoreOk(c, k) && CoreOk(c, r) && SameBindings(k.cache, r.cache)
    requires Covers(c.layers, k.lay, Loss(d, pressed)) ==>
               Balances(c.layers, k.lay, r.lay, Gain(d, pressed), Loss(d, pressed))
    requires Quiet(k.lay) ==> Quiet(r.lay)
    requires if d.Nothing? then ModsFollow(c, k) ==> ModsFollow(c, r) else !pressed ==> ModsFollow(c, r)
    requires KeysFollow(k.out.keys, r.out.keys, d, pressed)
    requires r.pt == k.pt && r.po == k.po && r.mac == k.mac && r.timers == k.timers && r.overflow == k.overflow
    requires r.lay.strayed == k.lay.strayed && MarksFollow(k.cache, r.cache, code, d, pressed)
    ensures Acted(c, k, r, code, d, pressed)
  {
    hide OfClass, Positive, ConfigOk, CacheOk, TimeoutOk, OverloadOk, RepeatableOk, Funded, Earns, Evens, Balances,
         Covers, ModsFollow, KeysFollow, Quiet, Honest, OverloadFits, HasRoom, Loose, IsSimple, Find, MarksFollow;
    BalanceEarns(c, k, r, d, pressed);
    SameBindingsFit(k, r, code, d, pressed);
    MarksStayHonest(k.cache, r.cache, code, d, pressed);
  }

  lemma KeySequenceKeeps(c: Config, k: Core, code: Code, d: Descriptor, dl: nat, pressed: bool, time: int, now: int)
    requires Sound(c, k, now) && d.KeySequence? && Allowed(c, d)
    ensures var r := ActKeySequence(c, k, d, dl, pressed, time); Sound(c, r, now) && Acted(c, k, r, code, d, pressed)
  {
    hide Acted;
    var r := ActKeySequence(c, k, d, dl, pressed, time);
    ClearOneshotKeeps(c.layers, k.lay);
    SendKeepsOutput(k.out, d.code, false);
    if pressed {
      var up := if k.out.keys[d.code] then Send(k.out, d.code, false) else k.out;
      UpdateModsKeeps(c, k.lay.ls, up, false, dl, d.mods);
      SendKeepsOutput(UpdateMods(c, k.lay.ls, up, false, dl, d.mods).0, d.code, true);
    } else {
      SyncKeeps(c, k.lay.ls, Send(k.out, d.code, false), false);
    }
    SoundStep(c, k, r, now);
    SimpleStep(c, k, r, code, d, pressed);
  }

  lemma OverloadTimeoutKeeps(c: Config, k: Core, code: Code, d: Descriptor, dl: nat, pressed: bool, time: int, now: int)
    requires Sound(c, k, now) && Allowed(c, d) && dl < |c.layers| && code != 0
    requires d.OverloadTimeout? || d.OverloadTimeoutTap?
    ensures var r := ActOverloadTimeout(c, k, code, d, dl, pressed, time);
            Sound(c, r, now) && Acted(c, k, r, code, d, pressed)
  {
    hide Acted;
    hide OutputOk, LayoutsOk, ConfigOk, CacheOk, RepeatableOk, Net, Covers;
    assert OfClass(c, Undelayed) ==> InClass(Undelayed, c.descriptors, d);
    hide OfClass;
    ActedStep(c, k, ActOverloadTimeout(c, k, code, d, dl, pressed, time), code, d, pressed);
  }

  lemma MarkLayerKeeps(cache: seq<CacheEntry>, code: Code, layer: nat)
    ensures SameBindings(cache, MarkLayer(cache, code, layer))
  {
  }

  lemma LayerSound(c: Config, k: Core, code: Code, d: Descriptor, pressed: bool, now: int)
    requires Sound(c, k, now) && Allowed(c, d) && (d.Layer? || d.LayerM?)
    ensures var r := ActLayer(c, k, code, d, pressed); Sound(c, r, now) && ModsFollow(c, r)
    ensures forall key: Code | !IsModifierKey(key) :: ActLayer(c, k, code, d, pressed).out.keys[key] == k.out.keys[key]
  {
    hide CacheOk, ConfigOk, TimeoutOk, OverloadOk, RepeatableOk, OfClass, OutputOk, UpdateMods, MarkLayer;
    ActivateKeeps(c.layers, k.lay, d, d.layer);
    DeactivateKeeps(c.layers, k.lay, d, d.layer);
    var lay := if pressed then Activate(k.lay, d.layer) else Deactivate(k.lay, d.layer);
    SyncKeeps(c, lay.ls, k.out, k.memo.lastPressed == code);
    SoundStep(c, k, ActLayer(c, k, code, d, pressed), now);
  }

  lemma LayerKeeps(c: Config, k: Core, code: Code, d: Descriptor, pressed: bool, now: int)
    requires Sound(c, k, now) && Allowed(c, d) && (d.Layer? || d.LayerM?)
    ensures var r := ActLayer(c, k, code, d, pressed); Sound(c, r, now) && Acted(c, k, r, code, d, pressed)
  {
    hide Acted;
    hide OutputOk, ConfigOk, CacheOk, TimeoutOk, OverloadOk, RepeatableOk, Net, DeadlinesKept, Positive, UpdateMods;
    hide OfClass, MarkLayer;
    var r := ActLayer(c, k, code, d, pressed);
    LayerSound(c, k, code, d, pressed, now);
    MarkLayerKeeps(k.cache, code, d.layer);
    ActivateKeeps(c.layers, k.lay, d, d.layer);
    DeactivateKeeps(c.layers, k.lay, d, d.layer);
    assert SameBindings(k.cache, r.cache);
    if d.LayerM? {
      ActedStep(c, k, r, code, d, pressed);
    } else {
      SimpleStep(c, k, r, code, d, pressed);
    }
  }

  lemma ClearAllKeeps(c: Config, k: Core, now: int)
    requires Sound(c, k, now)
    ensures var r := ClearAll(c, k);
            Sound(c, r, now) &&
            (Covers(c.layers, k.lay, Nothing) ==> Balances(c.layers, k.lay, r.lay, Nothing, Nothing)) &&
            r.lay.strayed == k.lay.strayed && forall key: Code :: !r.out.keys[key]
  {
    ClearOneshotKeeps(c.layers, k.lay);
    ClearTogglesKeeps(c.layers, ClearOneshot(k.lay), |c.layers|);
    ResetKeysReleases(k.out, 256);
    SoundStep(c, k, ClearAll(c, k), now);
  }

  lemma ClearKeeps(c: Config, k: Core, code: Code, d: Descriptor, dl: nat, pressed: bool, now: int)
    requires Sound(c, k, now) && Allowed(c, d) && (d.Clear? || d.ClearM?)
    ensures var r := ActClear(c, k, d, dl, pressed); Sound(c, r, now) && Acted(c, k, r, code, d, pressed)
  {
    hide Acted;
    hide OutputOk, LayoutsOk, ConfigOk, CacheOk, Net, ExecuteMacro, DeadlinesKept;
    var r := ActClear(c, k, d, dl, pressed);
    if pressed {
      ClearAllKeeps(c, k, now);
      var p := ClearAll(c, k);
      if d.ClearM? {
        ExecuteMacroKeeps(c, p.lay.ls, p.out, dl, c.macros[d.mac]);
        SoundStep(c, p, r, now);
      }
    }
    ActedStep(c, k, r, code, d, pressed);
  }

  lemma LayoutKeeps(c: Config, k: Core, code: Code, d: Descriptor, pressed: bool, now: int)
    requires Sound(c, k, now) && d.Layout? && Allowed(c, d)
    ensures var r := ActLayout(c, k, d, pressed); Sound(c, r, now) && Acted(c, k, r, code, d, pressed)
  {
    hide Acted;
    hide OutputOk, LayoutsOk, CacheOk, Net, DeadlinesKept, Covers;
    var r := ActLayout(c, k, d, pressed);
    if pressed {
      ClearAllKeeps(c, k, now);
      var p := ClearAll(c, k);
      SetLayoutKeeps(c.layers, p.lay, d.layout);
      SoundStep(c, p, r, now);
    }
    ActedStep(c, k, r, code, d, pressed);
  }

  lemma OneshotSound(c: Config, k: Core, code: Code, d: Descriptor, dl: nat, pressed: bool, time: int, now: int)
    requires Sound(c, k, now) && Allowed(c, d) && (d.Oneshot? || d.OneshotM? || d.OneshotK?)
    ensures Sound(c, ActOneshot(c, k, code, d, dl, pressed, time), now)
  {
    hide CacheOk, ConfigOk, TimeoutOk, OverloadOk, RepeatableOk, OfClass, OutputOk, UpdateMods, MarkLayer;
    if pressed {
      ActivateKeeps(c.layers, k.lay, d, d.layer);
      UpdateModsKeeps(c, Activate(k.lay, d.layer).ls, k.out, false, dl, {});
      SoundStep(c, k, ActOneshot(c, k, code, d, dl, true, time), now);
    } else {
      OneshotReleaseSound(c, k, code, d, dl, time, now);
    }
  }

  lemma OneshotReleaseSound(c: Config, k: Core, code: Code, d: Descriptor, dl: nat, time: int, now: int)
    requires Sound(c, k, now) && Allowed(c, d) && (d.Oneshot? || d.OneshotM? || d.OneshotK?)
    ensures Sound(c, ActOneshot(c, k, code, d, dl, false, time), now)
  {
    hide CacheOk, ConfigOk, TimeoutOk, OverloadOk, RepeatableOk, OfClass, OutputOk, UpdateMods, DeadlinesKept;
    ReleaseOneshotKeeps(c.layers, k.lay, d, d.layer);
    var lay := ReleaseOneshot(k.lay, d.layer);
    SyncKeeps(c, lay.ls, k.out, false);
    var p := k.(lay := lay, out := if k.lay.latch then k.out else Sync(c, lay.ls, k.out));
    SoundStep(c, k, p, now);
    var r, t := ActOneshot(c, k, code, d, dl, false, time), time + c.oneshotTimeout;
    if k.lay.latch && c.oneshotTimeout != 0 {
      assert r == Schedule(p.(lay := p.lay.(oneshotTimeout := t)), t);
      hide ActOneshot, LayoutsOk, Schedule;
      TimedSound(c, p, r, t, now);
    }
  }

  /** A timeout for the armed oneshots that is listed. */
  lemma TimedSound(c: Config, p: Core, r: Core, t: int, now: int)
    requires Sound(c, p, now) && CoreOk(c, r) && r == Schedule(p.(lay := p.lay.(oneshotTimeout := t)), t)
    ensures Sound(c, r, now)
  {
    hide CacheOk, ConfigOk, TimeoutOk, OverloadOk, RepeatableOk, OfClass, OutputOk, LayoutOk;
  }

  lemma OneshotKeeps(c: Config, k: Core, code: Code, d: Descriptor, dl: nat, pressed: bool, time: int, now: int)
    requires Sound(c, k, now) && Allowed(c, d) && (d.Oneshot? || d.OneshotM? || d.OneshotK?)
    ensures var r := ActOneshot(c, k, code, d, dl, pressed, time); Sound(c, r, now) && Acted(c, k, r, code, d, pressed)
  {
    hide Acted, Sound, ActOneshot;
    OneshotSound(c, k, code, d, dl, pressed, time, now);
    if pressed {
      OneshotPressKeeps(c, k, code, d, dl, time, now);
    } else {
      OneshotReleaseKeeps(c, k, code, d, dl, time, now);
    }
  }

  lemma OneshotPressKeeps(c: Config, k: Core, code: Code, d: Descriptor, dl: nat, time: int, now: int)
    requires Sound(c, k, now) && Allowed(c, d) && (d.Oneshot? || d.OneshotM? || d.OneshotK?)
    ensures Acted(c, k, ActOneshot(c, k, code, d, dl, true, time), code, d, true)
  {
    hide Acted, UpdateMods, OutputOk, Holders, LayoutsOk, DeadlinesKept, CacheOk, ConfigOk, TimeoutOk, OverloadOk;
    hide RepeatableOk, Positive, OfClass;
    MarkLayerKeeps(k.cache, code, d.layer);
    ActivateKeeps(c.layers, k.lay, d, d.layer);
    var r := ActOneshot(c, k, code, d, dl, true, time);
    assert r.lay.ls == Activate(k.lay, d.layer).ls;
    ActedStep(c, k, r, code, d, true);
  }

  lemma OneshotReleaseKeeps(c: Config, k: Core, code: Code, d: Descriptor, dl: nat, time: int, now: int)
    requires Sound(c, k, now) && Allowed(c, d) && (d.Oneshot? || d.OneshotM? || d.OneshotK?)
    ensures Acted(c, k, ActOneshot(c, k, code, d, dl, false, time), code, d, false)
  {
    hide Acted, UpdateMods, OutputOk, Holders, LayoutsOk, DeadlinesKept, CacheOk, ConfigOk, TimeoutOk, OverloadOk;
    hide RepeatableOk, Positive, OfClass;
    ReleaseOneshotKeeps(c.layers, k.lay, d, d.layer);
    OneshotReleaseIs(c, k, code, d, dl, time);
    hide ActOneshot, Slack;
    ActedStep(c, k, ActOneshot(c, k, code, d, dl, false, time), code, d, false);
  }

  lemma OneshotReleaseIs(c: Config, k: Core, code: Code, d: Descriptor, dl: nat, time: int)
    requires CoreOk(c, k) && Allowed(c, d) && (d.Oneshot? || d.OneshotM? || d.OneshotK?)
    ensures var r, lay := ActOneshot(c, k, code, d, dl, false, time), ReleaseOneshot(k.lay, d.layer);
            r == k.(lay := r.lay, out := r.out, timers := r.timers, overflow := r.overflow) &&
            r.lay == lay.(oneshotTimeout := r.lay.oneshotTimeout) && r.lay.strayed == k.lay.strayed
  {
    hide CacheOk, ConfigOk, TimeoutOk, OverloadOk, RepeatableOk, OfClass, UpdateMods;
  }

  lemma MacroSound(c: Config, k: Core, d: Descriptor, dl: nat, pressed: bool, time: int, now: int)
    requires Sound(c, k, now) && Allowed(c, d) && (d.MacroOnce? || d.Macro2?)
    ensures Sound(c, ActMacro(c, k, d, dl, pressed, time), now)
  {
    ClearOneshotKeeps(c.layers, k.lay);
    ExecuteMacroKeeps(c, ClearOneshot(k.lay).ls, k.out, dl, c.macros[d.mac]);
  }

  lemma MacroKeeps(c: Config, k: Core, code: Code, d: Descriptor, dl: nat, pressed: bool, time: int, now: int)
    requires Sound(c, k, now) && Allowed(c, d) && (d.MacroOnce? || d.Macro2?)
    ensures var r := ActMacro(c, k, d, dl, pressed, time); Sound(c, r, now) && Acted(c, k, r, code, d, pressed)
  {
    hide Acted, Sound, ActMacro;
    MacroSound(c, k, d, dl, pressed, time, now);
    MacroActed(c, k, code, d, dl, pressed, time, now);
  }

  lemma MacroActed(c: Config, k: Core, code: Code, d: Descriptor, dl: nat, pressed: bool, time: int, now: int)
    requires Sound(c, k, now) && Allowed(c, d) && (d.MacroOnce? || d.Macro2?)
    ensures Acted(c, k, ActMacro(c, k, d, dl, pressed, time), code, d, pressed)
  {
    hide Acted, UpdateMods, OutputOk, Holders, DeadlinesKept, ExecuteMacro, CacheOk, ConfigOk, Slack, LayoutsOk;
    hide TimeoutOk, OverloadOk, RepeatableOk, OfClass, Covers, ClearOneshot;
    ClearOneshotKeeps(c.layers, k.lay);
    ActedStep(c, k, ActMacro(c, k, d, dl, pressed, time), code, d, pressed);
  }

  lemma ToggleActionKeeps(c: Config, k: Core, code: Code, d: Descriptor, pressed: bool, now: int)
    requires Sound(c, k, now) && Allowed(c, d) && (d.Toggle? || d.ToggleM?)
    ensures var r := ActToggle(c, k, code, d, pressed); Sound(c, r, now) && Acted(c, k, r, code, d, pressed)
  {
    hide Acted, OutputOk, LayoutsOk, CacheOk, ConfigOk, DeadlinesKept, ActToggle;
    if pressed {
      ToggleSound(c, k, code, d, now);
      ToggleActed(c, k, code, d, now);
    } else {
      assert ActToggle(c, k, code, d, false) == k by {
        ToggleRelease(c, k, code, d);
      }
      ActedStep(c, k, k, code, d, false);
    }
  }

  lemma ToggleRelease(c: Config, k: Core, code: Code, d: Descriptor)
    requires CoreOk(c, k) && Allowed(c, d) && (d.Toggle? || d.ToggleM?)
    ensures ActToggle(c, k, code, d, false) == k
  {
    hide CoreOk, OfClass;
  }

  lemma ToggleSound(c: Config, k: Core, code: Code, d: Descriptor, now: int)
    requires Sound(c, k, now) && Allowed(c, d) && (d.Toggle? || d.ToggleM?)
    ensures Sound(c, ActToggle(c, k, code, d, true), now)
  {
    hide CacheOk, ConfigOk, OfClass, UpdateMods, FlipToggle, ClearOneshot;
    ToggleKeeps(c.layers, k.lay, d.layer);
    var lay := FlipToggle(k.lay, d.layer);
    SyncKeeps(c, lay.ls, k.out, false);
    ClearOneshotKeeps(c.layers, lay);
    SoundStep(c, k, ActToggle(c, k, code, d, true), now);
  }

  lemma ToggleActed(c: Config, k: Core, code: Code, d: Descriptor, now: int)
    requires Sound(c, k, now) && Allowed(c, d) && (d.Toggle? || d.ToggleM?)
    ensures Acted(c, k, ActToggle(c, k, code, d, true), code, d, true)
  {
    hide Acted, OutputOk, CacheOk, ConfigOk, DeadlinesKept, UpdateMods, LayoutsOk, FlipToggle, ClearOneshot, Slack;
    assert !OfClass(c, Marked) by { assert OfClass(c, Marked) ==> InClass(Marked, c.descriptors, d); }
    hide OfClass;
    MarkLayerKeeps(k.cache, code, d.layer);
    ToggleKeeps(c.layers, k.lay, d.layer);
    ClearOneshotKeeps(c.layers, FlipToggle(k.lay, d.layer));
    ActedStep(c, k, ActToggle(c, k, code, d, true), code, d, true);
  }

  lemma TimeoutKeeps(c: Config, k: Core, code: Code, d: Descriptor, dl: nat, pressed: bool, time: int, now: int)
    requires Sound(c, k, now) && d.Timeout? && Allowed(c, d) && dl < |c.layers|
    ensures var r := ActTimeout(c, k, code, d, dl, pressed, time); Sound(c, r, now) && Acted(c, k, r, code, d, pressed)
  {
    hide Acted;
    hide OutputOk, LayoutsOk, ConfigOk, CacheOk, Net;
    ActedStep(c, k, ActTimeout(c, k, code, d, dl, pressed, time), code, d, pressed);
  }

  lemma CommandKeeps(c: Config, k: Core, code: Code, d: Descriptor, pressed: bool, now: int)
    requires Sound(c, k, now) && d.Command?
    ensures var r := ActCommand(c, k, pressed); Sound(c, r, now) && Acted(c, k, r, code, d, pressed)
  {
    hide Acted;
    var r := ActCommand(c, k, pressed);
    ClearOneshotKeeps(c.layers, k.lay);
    SyncKeeps(c, ClearOneshot(k.lay).ls, k.out, false);
    SoundStep(c, k, r, now);
    ActedStep(c, k, r, code, d, pressed);
  }

  lemma ScrollKeeps(c: Config, k: Core, code: Code, d: Descriptor, pressed: bool, now: int)
    requires Sound(c, k, now) && (d.Scroll? || d.ScrollToggleOn? || d.ScrollToggleOff? || d.ScrollToggle?)
    ensures var r := ActScroll(c, k, d, pressed); Sound(c, r, now) && Acted(c, k, r, code, d, pressed)
  {
    hide Acted;
    hide OutputOk, LayoutsOk, ConfigOk, CacheOk, TimeoutOk, OverloadOk, Net, DeadlinesKept, Positive, OfClass;
    var r := ActScroll(c, k, d, pressed);
    MemoOnly(c, k, d, pressed);
    hide ActScroll;
    SoundStep(c, k, r, now);
    ActedStep(c, k, r, code, d, pressed);
  }

  lemma MemoOnly(c: Config, k: Core, d: Descriptor, pressed: bool)
    requires CoreOk(c, k)
    ensures var r := ActScroll(c, k, d, pressed); r == k.(memo := r.memo)
  {
    hide CoreOk;
  }

  lemma SwapSound(c: Config, k: Core, d: Descriptor, dl: nat, now: int)
    requires Sound(c, k, now) && Allowed(c, d) && IsSwap(d) && dl < |c.layers|
    ensures Sound(c, ActSwap(c, k, d, dl), now) && SameCodes(k.cache, ActSwap(c, k, d, dl).cache)
  {
    hide CacheOk, ConfigOk, TimeoutOk, OverloadOk, RepeatableOk, OfClass, OutputOk, DeadlinesKept, FindActivator;
    hide SwapToggled, SwapOneshot, MarkLayer, UpdateMods;
    SwapKeepsLayouts(c.layers, k.lay, dl, d.layer);
    SwapRecorded(c, k, d, dl);
    SwapUnfolds(c, k, d, dl, ActSwap(c, k, d, dl), FindActivator(c, k.cache, dl, |k.cache|));
    SwapSynced(c, k, d, dl);
    hide ActSwap;
    SyncKeeps(c, ActSwap(c, k, d, dl).lay.ls, k.out, false);
    MarksKeepCodes(k.cache, 0, d.layer);
    SoundStep(c, k, ActSwap(c, k, d, dl), now);
    var i := FindActivator(c, k.cache, dl, |k.cache|);
    if i != -1 {
      MarksKeepCodes(k.cache[i := k.cache[i].(d := Layer(d.layer))], k.cache[i].code, d.layer);
    }
  }

  lemma MarksKeepCodes(cache: seq<CacheEntry>, code: Code, layer: nat)
    ensures SameCodes(cache, MarkLayer(cache, code, layer))
  {
  }

  lemma SwapSynced(c: Config, k: Core, d: Descriptor, dl: nat)
    requires CoreOk(c, k) && Allowed(c, d) && IsSwap(d) && dl < |c.layers|
    ensures var r := ActSwap(c, k, d, dl); r == k || r.out == Sync(c, r.lay.ls, k.out)
  {
    hide ConfigOk, CacheOk, TimeoutOk, OverloadOk, RepeatableOk, OfClass, UpdateMods, FindActivator, MarkLayer;
    hide SwapToggled, SwapOneshot, Activate, Deactivate, HeldLayer;
  }

  lemma SwapKeeps(c: Config, k: Core, code: Code, d: Descriptor, dl: nat, pressed: bool, now: int)
    requires Sound(c, k, now) && Allowed(c, d) && IsSwap(d) && dl < |c.layers|
    ensures var r := ActSwapM(c, k, d, dl, pressed); Sound(c, r, now) && Acted(c, k, r, code, d, pressed)
  {
    hide OutputOk, ConfigOk, CacheOk, LayoutsOk, ExecuteMacro, Covers, Earns, Funded, DeadlinesKept, ActSwap, Acted;
    var r := ActSwapM(c, k, d, dl, pressed);
    if pressed {
      SwapSound(c, k, d, dl, now);
      var p := ActSwap(c, k, d, dl);
      SwapActed(c, k, code, d, dl, now);
      if d.SwapM? {
        ExecuteMacroKeeps(c, p.lay.ls, p.out, dl, c.macros[d.mac]);
        SoundStep(c, p, r, now);
      }
      SwapFrame(c, k, p, r, code, d);
    } else {
      if r != k {
        var code := c.macros[d.mac][0].code;
        SendKeepsOutput(k.out, code, false);
        SyncKeeps(c, k.lay.ls, Send(k.out, code, false), false);
        SoundStep(c, k, r, now);
      }
      ActedStep(c, k, r, code, d, false);
    }
  }

  lemma SwapFrame(c: Config, k: Core, p: Core, r: Core, code: Code, d: Descriptor)
    requires CoreOk(c, k) && CoreOk(c, p) && CoreOk(c, r) && Acted(c, k, p, code, d, true) && IsSwap(d)
    requires Allowed(c, d) && r == p.(out := r.out)
    ensures Acted(c, k, r, code, d, true)
  {
    hide Positive, ConfigOk, CacheOk, Funded, TimeoutOk, OverloadOk, RepeatableOk;
    assert !OfClass(c, Steady) by { assert OfClass(c, Steady) ==> InClass(Steady, c.descriptors, d); }
    hide OfClass;
    FrameEarns(c, k, k, p, r, d, true);
  }

  /** swap() keeps the accounts of the layers unless it goes astray. */
  lemma SwapActed(c: Config, k: Core, code: Code, d: Descriptor, dl: nat, now: int)
    requires Sound(c, k, now) && Allowed(c, d) && IsSwap(d) && dl < |c.layers|
    requires SameCodes(k.cache, ActSwap(c, k, d, dl).cache)
    ensures Acted(c, k, ActSwap(c, k, d, dl), code, d, true)
  {
    hide OutputOk, ConfigOk, CacheOk, TimeoutOk, OverloadOk, RepeatableOk, LayoutsOk, DeadlinesKept, Positive;
    assert !OfClass(c, Steady) && !OfClass(c, SwapFree) by {
      assert OfClass(c, Steady) ==> InClass(Steady, c.descriptors, d);
      assert OfClass(c, SwapFree) ==> InClass(SwapFree, c.descriptors, d);
    }
    SwapRecorded(c, k, d, dl);
    if Honest(k.cache) {
      SwapHonest(c, k, d, dl);
    }
    hide OfClass, ActSwap, Funded, Earns, Acted, Honest;
    if !ActSwap(c, k, d, dl).lay.strayed && Funded(c, k, d, true) {
      SwapKeepsFunds(c, k, d, dl);
    }
    IndirectStep(c, k, ActSwap(c, k, d, dl), code, d);
  }

  /** Where every mark is honest, swap() does not go astray and leaves them so. */
  lemma SwapHonest(c: Config, k: Core, d: Descriptor, dl: nat)
    requires CoreOk(c, k) && Allowed(c, d) && IsSwap(d) && dl < |c.layers| && Honest(k.cache)
    ensures var r := ActSwap(c, k, d, dl); Honest(r.cache) && r.lay.strayed == k.lay.strayed
  {
    hide TimeoutOk, OverloadOk, RepeatableOk, OfClass, UpdateMods, FindActivator;
    SwapRecorded(c, k, d, dl);
    SwapUnfolds(c, k, d, dl, ActSwap(c, k, d, dl), FindActivator(c, k.cache, dl, |k.cache|));
    hide ActSwap;
    var i := FindActivator(c, k.cache, dl, |k.cache|);
    if i != -1 {
      SwappedHonest(k.cache, i, d.layer);
    }
    FreeMarkHonest(k.cache, d.layer);
  }

  lemma FreeMarkHonest(cache: seq<CacheEntry>, layer: nat)
    requires Honest(cache)
    ensures Honest(MarkLayer(cache, 0, layer))
  {
  }

  lemma SwappedHonest(cache: seq<CacheEntry>, i: nat, layer: nat)
    requires Honest(cache) && i < |cache| && cache[i].code != 0 && DistinctCodes(cache)
    ensures Honest(MarkLayer(cache[i := cache[i].(d := Layer(layer))], cache[i].code, layer))
  {
    FindUnique(cache[i := cache[i].(d := Layer(layer))], cache[i].code, i);
  }

  /** What is asked of the press of a swap() or an overloadi(). */
  lemma IndirectStep(c: Config, k: Core, r: Core, code: Code, d: Descriptor)
    requires CoreOk(c, k) && CoreOk(c, r) && SameCodes(k.cache, r.cache) && (IsSwap(d) || d.OverloadIdle?)
    requires Strays(c, k.lay, r.lay) && (OfClass(c, Undelayed) ==> r.po == k.po)
    requires Positive(c) && Ahead(k) ==> Ahead(r)
    requires !OfClass(c, Steady) && (OfClass(c, Marked) ==> ActedHonestly(k, r, code, d, true))
    requires !r.lay.strayed && Funded(c, k, d, true) ==> Earns(c, k, r, d, true)
    ensures Acted(c, k, r, code, d, true)
  {
    hide CoreOk, OfClass, Funded, Earns, SameCodes, ActedSteadily, ActedDirectly, ActedSimply, ActedHonestly, Covers;
    hide Positive, Ahead, Strays;
  }

  /** What every action is known to have changed. */
  lemma ActedGives(c: Config, k: Core, r: Core, code: Code, d: Descriptor, pressed: bool)
    requires CoreOk(c, k) && CoreOk(c, r) && Acted(c, k, r, code, d, pressed)
    ensures SameCodes(k.cache, r.cache) && Strays(c, k.lay, r.lay)
    ensures !r.lay.strayed && Funded(c, k, d, pressed) ==> Earns(c, k, r, d, pressed)
    ensures (OfClass(c, Undelayed) ==> r.po == k.po) && (Positive(c) && Ahead(k) ==> Ahead(r))
  {
    hide CoreOk, OfClass, Funded, Earns, SameCodes, ActedSteadily, ActedDirectly, ActedSimply, ActedHonestly, Covers;
    hide Positive, Ahead, Strays;
  }

  /** What swap() does to the account of layer l. Moving a toggle changes none, unless the new
      layer is toggled already: then its former activation is left over. Moving an armed oneshot
      changes none. Moving the activation of a held key takes one from the layer the action was
      bound in, and one is left over where the key held it. */
  function SwapShift(c: Config, k: Core, d: Descriptor, dl: nat, l: nat): int
    requires |k.lay.ls| == |c.layers| && IsSwap(d) && dl < |c.layers| && l < |c.layers|
  {
    var s, i := k.lay.ls[dl], FindActivator(c, k.cache, dl, |k.cache|);
    if s.toggled then if l == d.layer && l != dl && k.lay.ls[l].toggled then 1 else 0
    else if s.depth != 0 || i == -1 then 0
    else SlotCredit(k.cache[i], l) - if l == dl then 1 else 0
  }

  /** The activation that moves from layer dl to another, as a toggle, a oneshot or neither. */
  lemma SwapSlack(lay: Lay, dl: nat, idx: nat, l: nat)
    requires dl < |lay.ls| && idx < |lay.ls| && l < |lay.ls| && Slack(lay.ls[dl]) >= 0
    ensures lay.ls[dl].toggled ==>
              lay.ls[dl].active > 0 && SwapToggled(lay, dl, idx).underflow == lay.underflow &&
              Slack(SwapToggled(lay, dl, idx).ls[l]) ==
              Slack(lay.ls[l]) + if l == idx && l != dl && lay.ls[l].toggled then 1 else 0
    ensures lay.ls[dl].depth != 0 ==>
              lay.ls[dl].active > 0 && SwapOneshot(lay, dl, idx).underflow == lay.underflow &&
              Slack(SwapOneshot(lay, dl, idx).ls[l]) == Slack(lay.ls[l])
    ensures lay.ls[dl].active > 0 ==>
              Activate(Deactivate(lay, dl), idx).underflow == lay.underflow &&
              Slack(Activate(Deactivate(lay, dl), idx).ls[l]) ==
              Slack(lay.ls[l]) + (if l == idx then 1 else 0) - if l == dl then 1 else 0
  {
  }

  lemma SwapUnfolds(c: Config, k: Core, d: Descriptor, dl: nat, r: Core, i: int)
    requires CoreOk(c, k) && Allowed(c, d) && IsSwap(d) && dl < |c.layers| && d.layer < |c.layers|
    requires r == ActSwap(c, k, d, dl) && i == FindActivator(c, k.cache, dl, |k.cache|)
    ensures if k.lay.ls[dl].toggled then
              r.lay == SwapToggled(k.lay, dl, d.layer) && r.cache == MarkLayer(k.cache, 0, d.layer)
            else if k.lay.ls[dl].depth != 0 then
              r.lay == SwapOneshot(k.lay, dl, d.layer) && r.cache == MarkLayer(k.cache, 0, d.layer)
            else if i == -1 then r == k
            else
              r.lay == Activate(Deactivate(k.lay, dl), d.layer).(strayed := r.lay.strayed) &&
              r.cache == MarkLayer(k.cache[i := k.cache[i].(d := Layer(d.layer))], k.cache[i].code, d.layer)
  {
    hide ConfigOk, CacheOk, TimeoutOk, OverloadOk, RepeatableOk, OfClass, UpdateMods, FindActivator, MarkLayer;
    hide SwapToggled, SwapOneshot, Activate, Deactivate, HeldLayer;
  }

  lemma SwapAccounts(c: Config, k: Core, d: Descriptor, dl: nat, l: nat)
    requires CoreOk(c, k) && LayoutsOk(c.layers, k.lay) && Allowed(c, d) && IsSwap(d) && dl < |c.layers|
    requires l < |c.layers| && !IsLayout(c.layers, l) && Slack(k.lay.ls[dl]) >= 0
    ensures var s, r, i := k.lay.ls[dl], ActSwap(c, k, d, dl), FindActivator(c, k.cache, dl, |k.cache|);
            if s.active == 0 && i != -1 then r.lay.underflow
            else r.lay.underflow == k.lay.underflow && Net(r, l) == Net(k, l) + SwapShift(c, k, d, dl, l)
  {
    hide ConfigOk, CacheOk, TimeoutOk, OverloadOk, RepeatableOk, OfClass, UpdateMods, LayoutsOk, FindActivator;
    var i := FindActivator(c, k.cache, dl, |k.cache|);
    SwapUnfolds(c, k, d, dl, ActSwap(c, k, d, dl), i);
    hide ActSwap, SwapToggled, SwapOneshot, Slack, MarkLayer, Activate, Deactivate, Holders, SlotCredit;
    SwapSlack(k.lay, dl, d.layer, l);
    SwapFails(k.lay, dl, d.layer);
    MarkedHolders(k.cache, 0, d.layer, l);
    if i != -1 {
      MovedHolders(k.cache, i, d.layer, l);
    }
  }

  lemma SwapFails(lay: Lay, dl: nat, idx: nat)
    requires dl < |lay.ls| && idx < |lay.ls|
    ensures lay.ls[dl].active == 0 ==> Activate(Deactivate(lay, dl), idx).underflow
  {
  }

  lemma MarkedHolders(cache: seq<CacheEntry>, code: Code, layer: nat, l: nat)
    ensures |MarkLayer(cache, code, layer)| == |cache|
    ensures Holders(MarkLayer(cache, code, layer), |cache|, l) == Holders(cache, |cache|, l)
  {
    MarkLayerKeeps(cache, code, layer);
    SameBindingsSameHolders(cache, MarkLayer(cache, code, layer), |cache|, l);
  }

  /** A key that is bound to a layer holds it instead of the one it held. */
  lemma MovedHolders(cache: seq<CacheEntry>, i: nat, layer: nat, l: nat)
    requires i < |cache| && cache[i].code != 0
    ensures var after := MarkLayer(cache[i := cache[i].(d := Layer(layer))], cache[i].code, layer);
            |after| == |cache| &&
            Holders(after, |after|, l) ==
            Holders(cache, |cache|, l) - SlotCredit(cache[i], l) + if l == layer then 1 else 0
  {
    var edited := cache[i := cache[i].(d := Layer(layer))];
    HoldersUpdate(cache, |cache|, i, edited[i], l);
    MarkedHolders(edited, cache[i].code, layer, l);
  }

  /** In a state that can pay for all releases, swap() keeps it so if and only if it does not go
      astray: what it moves is a toggle, an armed oneshot, or the activation of a key that
      holds the layer. */
  lemma SwapEarns(c: Config, k: Core, d: Descriptor, dl: nat)
    requires CoreOk(c, k) && LayoutsOk(c.layers, k.lay) && Allowed(c, d) && IsSwap(d) && dl < |c.layers|
    requires Funded(c, k, d, true) && !k.lay.strayed && !k.lay.underflow
    ensures var s, r, i := k.lay.ls[dl], ActSwap(c, k, d, dl), FindActivator(c, k.cache, dl, |k.cache|);
            (r.lay.strayed <==> !s.toggled && s.depth == 0 && i != -1 && HeldLayer(k.cache[i].d) != dl) &&
            (Earns(c, k, r, d, true) <==> !r.lay.strayed)
  {
    hide ConfigOk, CacheOk, TimeoutOk, OverloadOk, RepeatableOk, OfClass, Net, UpdateMods;
    var s, r, i := k.lay.ls[dl], ActSwap(c, k, d, dl), FindActivator(c, k.cache, dl, |k.cache|);
    assert LayoutOk(c.layers, s, dl, k.lay.layout);
    assert Slack(s) >= 0;
    SwapRecorded(c, k, d, dl);
    hide ActSwap, Slack;
    if r.lay.strayed {
      SwapAccounts(c, k, d, dl, dl);
      assert r.lay.underflow || Net(r, dl) < Net(k, dl);
    } else {
      SwapKeepsFunds(c, k, d, dl);
    }
  }

  /** A swap() that does not go astray. */
  lemma SwapKeepsFunds(c: Config, k: Core, d: Descriptor, dl: nat)
    requires CoreOk(c, k) && LayoutsOk(c.layers, k.lay) && Allowed(c, d) && IsSwap(d) && dl < |c.layers|
    requires Funded(c, k, d, true) && !ActSwap(c, k, d, dl).lay.strayed
    ensures Earns(c, k, ActSwap(c, k, d, dl), d, true)
  {
    hide ConfigOk, CacheOk, TimeoutOk, OverloadOk, RepeatableOk, OfClass, Net, UpdateMods;
    var s, i := k.lay.ls[dl], FindActivator(c, k.cache, dl, |k.cache|);
    SwapRecorded(c, k, d, dl);
    hide ActSwap;
    assert LayoutOk(c.layers, s, dl, k.lay.layout);
    assert Slack(s) >= 0;
    if i != -1 && HeldLayer(k.cache[i].d) == dl {
      HoldsSomething(c, k, i, dl);
    }
    forall l | 0 <= l < |c.layers| && !IsLayout(c.layers, l)
      ensures Net(ActSwap(c, k, d, dl), l) >= Net(k, l)
    {
      SwapAccounts(c, k, d, dl, l);
    }
    SwapAccounts(c, k, d, dl, d.layer);
  }

  lemma SwapRecorded(c: Config, k: Core, d: Descriptor, dl: nat)
    requires CoreOk(c, k) && Allowed(c, d) && IsSwap(d) && dl < |c.layers|
    ensures var s, r, i := k.lay.ls[dl], ActSwap(c, k, d, dl), FindActivator(c, k.cache, dl, |k.cache|);
            r == k.(lay := r.lay, cache := r.cache, out := r.out) &&
            r.lay.strayed ==
              (k.lay.strayed || (!s.toggled && s.depth == 0 && i != -1 && HeldLayer(k.cache[i].d) != dl))
  {
    hide ConfigOk, CacheOk, TimeoutOk, OverloadOk, RepeatableOk, OfClass, UpdateMods, FindActivator, MarkLayer;
  }

  /** A layer that a key holds is active, if it can be paid for. */
  lemma HoldsSomething(c: Config, k: Core, i: nat, l: nat)
    requires |k.lay.ls| == |c.layers| && i < |k.cache| && k.cache[i].code != 0 && HeldLayer(k.cache[i].d) == l
    requires l < |c.layers| && Net(k, l) >= 0
    ensures k.lay.ls[l].active > 0
  {
    HoldersAtLeast(k.cache, |k.cache|, i, l);
  }

  lemma MacroFirstKeeps(c: Config, k: Core, d: Descriptor, dl: nat, pressed: bool, now: int)
    requires Sound(c, k, now) && Allowed(c, d)
    ensures Sound(c, ActMacroFirst(c, k, d, dl, pressed), now)
  {
    var r := ActMacroFirst(c, k, d, dl, pressed);
    if r != k {
      ExecuteMacroKeeps(c, k.lay.ls, k.out, dl, c.macros[MacroOf(d)]);
      SoundStep(c, k, r, now);
    }
  }

  // --------------------------------------------------------------------- all of the actions

  /** Output written before and memory written after an action do not enter its account. */
  lemma ActedFrame(c: Config, k: Core, p: Core, q: Core, r: Core, code: Code, d: Descriptor, pressed: bool)
    requires CoreOk(c, k) && CoreOk(c, p) && CoreOk(c, q) && CoreOk(c, r) && Acted(c, p, q, code, d, pressed)
    requires p == k.(out := p.out) && r == q.(memo := r.memo)
    requires IsSimple(c.descriptors, d) ==> p == k
    ensures Acted(c, k, r, code, d, pressed)
  {
    hide OfClass, Positive, IsSimple, OutputOk, CacheOk, ConfigOk, TimeoutOk, OverloadOk, RepeatableOk, Funded, Earns,
         Evens, Honest, Loose, HasRoom, Covers, KeysFollow, ModsFollow, Quiet, Balances, SameBindings, Find;
    assert IsSimple(c.descriptors, d) ==> ModsFollow(c, r) == ModsFollow(c, q) by { ModsFrame(c, q, r); }
    FrameFunded(c, p, k, d, pressed);
    FrameFunded(c, k, p, d, pressed);
    FrameEarns(c, k, p, q, r, d, pressed);
  }

  lemma ModsFrame(c: Config, k: Core, r: Core)
    requires |k.out.keys| == 256 && |k.lay.ls| == |c.layers| && r.out == k.out && r.lay == k.lay
    ensures ModsFollow(c, k) == ModsFollow(c, r)
  {
  }

  lemma FrameFunded(c: Config, k: Core, p: Core, d: Descriptor, pressed: bool)
    requires |k.lay.ls| == |c.layers| && p.lay == k.lay && p.cache == k.cache
    ensures Funded(c, k, d, pressed) ==> Funded(c, p, d, pressed)
  {
    hide Slack, Holders, Credit;
  }

  lemma FrameEarns(c: Config, k: Core, p: Core, q: Core, r: Core, d: Descriptor, pressed: bool)
    requires |k.lay.ls| == |q.lay.ls| == |c.layers|
    requires p.lay == k.lay && p.cache == k.cache && r.lay == q.lay && r.cache == q.cache
    ensures Earns(c, p, q, d, pressed) ==> Earns(c, k, r, d, pressed)
    ensures Evens(c, p, q, d, pressed) ==> Evens(c, k, r, d, pressed)
  {
    hide Slack, Holders, Credit;
  }

  /** Whatever the action and whatever the state, process_descriptor keeps the output
      alternating, the layouts single and the deadlines in the timer list; unless a swap() goes
      astray it can pay for every release to come and no assertion of deactivate_layer fails;
      and a simple action does exactly what its name says. */
  lemma {:induction false} ActKeeps(c: Config, k: Core, code: Code, d: Descriptor, dl: nat, pressed: bool, time: int,
                                    now: int)
    requires Sound(c, k, now) && Allowed(c, d) && dl < |c.layers| && code != 0
    ensures var r := Act(c, k, code, d, dl, pressed, time); Sound(c, r, now) && Acted(c, k, r, code, d, pressed)
    decreases Height(d), 3
  {
    hide Acted, OutputOk, LayoutsOk, DeadlinesKept, CacheOk, ConfigOk, TimeoutOk, OverloadOk, OfClass;
    hide ActSwitch, IsSimple;
    var p := ActMacroFirst(c, k, d, dl, pressed);
    assert IsSimple(c.descriptors, d) ==> p == k by {
      SimpleFirst(c, k, d, dl, pressed);
    }
    MacroFirstKeeps(c, k, d, dl, pressed, now);
    SwitchKeeps(c, p, code, d, dl, pressed, time, now);
    var q := ActSwitch(c, p, code, d, dl, pressed, time);
    var r := if pressed then q.(memo := q.memo.(lastPressed := code)) else q;
    SoundStep(c, q, r, now);
    ActedFrame(c, k, p, q, r, code, d, pressed);
  }

  lemma SimpleFirst(c: Config, k: Core, d: Descriptor, dl: nat, pressed: bool)
    requires CoreOk(c, k) && Allowed(c, d)
    ensures IsSimple(c.descriptors, d) ==> ActMacroFirst(c, k, d, dl, pressed) == k
  {
    hide CoreOk, OfClass, ExecuteMacro;
  }

  lemma {:induction false} SwitchKeeps(c: Config, k: Core, code: Code, d: Descriptor, dl: nat, pressed: bool,
                                       time: int, now: int)
    requires Sound(c, k, now) && Allowed(c, d) && dl < |c.layers| && code != 0
    ensures var r := ActSwitch(c, k, code, d, dl, pressed, time); Sound(c, r, now) && Acted(c, k, r, code, d, pressed)
    decreases Height(d), 2
  {
    hide Sound, Acted;
    if d.Layer? || d.LayerM? || d.Oneshot? || d.OneshotM? {
      HeldLayerActionKeeps(c, k, code, d, dl, pressed, time, now);
    } else if d.Toggle? || d.ToggleM? || d.Swap? || d.SwapM? {
      LayerActionKeeps(c, k, code, d, dl, pressed, time, now);
    } else if d.OverloadTimeout? || d.OverloadTimeoutTap? || d.Timeout? {
      PendingActionKeeps(c, k, code, d, dl, pressed, time, now);
    } else if d.OneshotK? || d.Overload? {
      NestedActionKeeps(c, k, code, d, dl, pressed, time, now);
    } else if d.OverloadIdle? || d.Repeat? {
      RebindingActionKeeps(c, k, code, d, dl, pressed, time, now);
    } else if d.ClearM? || d.MacroOnce? || d.Macro2? {
      MacroActionKeeps(c, k, code, d, dl, pressed, time, now);
    } else if d.Clear? || d.Layout? || d.Command? {
      ClearActionKeeps(c, k, code, d, dl, pressed, time, now);
    } else if d.Nothing? || d.KeySequence? {
      PlainActionKeeps(c, k, code, d, dl, pressed, time, now);
    } else {
      ScrollKeeps(c, k, code, d, pressed, now);
    }
  }

  lemma HeldLayerActionKeeps(c: Config, k: Core, code: Code, d: Descriptor, dl: nat, pressed: bool, time: int, now: int)
    requires Sound(c, k, now) && Allowed(c, d) && dl < |c.layers| && code != 0
    requires d.Layer? || d.LayerM? || d.Oneshot? || d.OneshotM?
    ensures var r := ActSwitch(c, k, code, d, dl, pressed, time); Sound(c, r, now) && Acted(c, k, r, code, d, pressed)
  {
    hide Sound, Acted, ActLayer, ActOneshot;
    match d
    case Layer(_) => LayerKeeps(c, k, code, d, pressed, now);
    case LayerM(_, _) => LayerKeeps(c, k, code, d, pressed, now);
    case Oneshot(_) => OneshotKeeps(c, k, code, d, dl, pressed, time, now);
    case OneshotM(_, _) => OneshotKeeps(c, k, code, d, dl, pressed, time, now);
  }

  lemma LayerActionKeeps(c: Config, k: Core, code: Code, d: Descriptor, dl: nat, pressed: bool, time: int, now: int)
    requires Sound(c, k, now) && Allowed(c, d) && dl < |c.layers| && code != 0
    requires d.Toggle? || d.ToggleM? || d.Swap? || d.SwapM?
    ensures var r := ActSwitch(c, k, code, d, dl, pressed, time); Sound(c, r, now) && Acted(c, k, r, code, d, pressed)
  {
    hide Sound, Acted, ActToggle, ActSwapM;
    match d
    case Toggle(_) => ToggleActionKeeps(c, k, code, d, pressed, now);
    case ToggleM(_, _) => ToggleActionKeeps(c, k, code, d, pressed, now);
    case Swap(_) => SwapKeeps(c, k, code, d, dl, pressed, now);
    case SwapM(_, _) => SwapKeeps(c, k, code, d, dl, pressed, now);
  }

  lemma PendingActionKeeps(c: Config, k: Core, code: Code, d: Descriptor, dl: nat, pressed: bool, time: int, now: int)
    requires Sound(c, k, now) && Allowed(c, d) && dl < |c.layers| && code != 0
    requires d.OverloadTimeout? || d.OverloadTimeoutTap? || d.Timeout?
    ensures var r := ActSwitch(c, k, code, d, dl, pressed, time); Sound(c, r, now) && Acted(c, k, r, code, d, pressed)
  {
    hide Sound, Acted, ActOverloadTimeout, ActTimeout, OfClass, Positive, CoreOk;
    match d
    case OverloadTimeout(_, _, _) => OverloadTimeoutKeeps(c, k, code, d, dl, pressed, time, now);
    case OverloadTimeoutTap(_, _, _) => OverloadTimeoutKeeps(c, k, code, d, dl, pressed, time, now);
    case Timeout(_, _, _) => TimeoutKeeps(c, k, code, d, dl, pressed, time, now);
  }

  lemma {:induction false} NestedActionKeeps(c: Config, k: Core, code: Code, d: Descriptor, dl: nat, pressed: bool,
                                             time: int, now: int)
    requires Sound(c, k, now) && Allowed(c, d) && dl < |c.layers| && code != 0
    requires d.OneshotK? || d.Overload?
    ensures var r := ActSwitch(c, k, code, d, dl, pressed, time); Sound(c, r, now) && Acted(c, k, r, code, d, pressed)
    decreases Height(d), 1
  {
    hide Sound, Acted, ActOneshotK, ActOverload;
    match d
    case OneshotK(_, _) => OneshotKKeeps(c, k, code, d, dl, pressed, time, now);
    case Overload(_, _) => OverloadKeeps(c, k, code, d, dl, pressed, time, now);
  }

  lemma {:induction false} RebindingActionKeeps(c: Config, k: Core, code: Code, d: Descriptor, dl: nat, pressed: bool,
                                                time: int, now: int)
    requires Sound(c, k, now) && Allowed(c, d) && dl < |c.layers| && code != 0
    requires d.OverloadIdle? || d.Repeat?
    ensures var r := ActSwitch(c, k, code, d, dl, pressed, time); Sound(c, r, now) && Acted(c, k, r, code, d, pressed)
    decreases Height(d), 1
  {
    hide Sound, Acted, ActOverloadIdle, ActRepeat;
    match d
    case OverloadIdle(_, _, _) => OverloadIdleKeeps(c, k, code, d, dl, pressed, time, now);
    case Repeat => RepeatKeeps(c, k, code, dl, pressed, time, now);
  }

  lemma MacroActionKeeps(c: Config, k: Core, code: Code, d: Descriptor, dl: nat, pressed: bool, time: int, now: int)
    requires Sound(c, k, now) && Allowed(c, d) && dl < |c.layers| && code != 0
    requires d.ClearM? || d.MacroOnce? || d.Macro2?
    ensures var r := ActSwitch(c, k, code, d, dl, pressed, time); Sound(c, r, now) && Acted(c, k, r, code, d, pressed)
  {
    hide Sound, Acted, ActClear, ActMacro, OfClass, Positive, CoreOk;
    match d
    case ClearM(_) => ClearKeeps(c, k, code, d, dl, pressed, now);
    case MacroOnce(_) => MacroKeeps(c, k, code, d, dl, pressed, time, now);
    case Macro2(_, _, _) => MacroKeeps(c, k, code, d, dl, pressed, time, now);
  }

  lemma ClearActionKeeps(c: Config, k: Core, code: Code, d: Descriptor, dl: nat, pressed: bool, time: int, now: int)
    requires Sound(c, k, now) && Allowed(c, d) && dl < |c.layers| && code != 0
    requires d.Clear? || d.Layout? || d.Command?
    ensures var r := ActSwitch(c, k, code, d, dl, pressed, time); Sound(c, r, now) && Acted(c, k, r, code, d, pressed)
  {
    hide Sound, Acted, ActClear, ActLayout, ActCommand, OfClass, Positive, CoreOk;
    match d
    case Clear => ClearKeeps(c, k, code, d, dl, pressed, now);
    case Layout(_) => LayoutKeeps(c, k, code, d, pressed, now);
    case Command(_) => CommandKeeps(c, k, code, d, pressed, now);
  }

  lemma PlainActionKeeps(c: Config, k: Core, code: Code, d: Descriptor, dl: nat, pressed: bool, time: int, now: int)
    requires Sound(c, k, now) && Allowed(c, d) && dl < |c.layers| && code != 0
    requires d.Nothing? || d.KeySequence?
    ensures var r := ActSwitch(c, k, code, d, dl, pressed, time); Sound(c, r, now) && Acted(c, k, r, code, d, pressed)
  {
    hide ActKeySequence;
    match d
    case Nothing => SimpleStep(c, k, k, code, d, pressed);
    case KeySequence(_, _) => KeySequenceKeeps(c, k, code, d, dl, pressed, time, now);
  }

  /** A key sequence before an action does not enter its account. */
  lemma AfterKeySequence(c: Config, k: Core, p: Core, r: Core, code: Code, key: Descriptor, d: Descriptor,
                         pressed: bool)
    requires CoreOk(c, k) && CoreOk(c, p) && CoreOk(c, r) && key.KeySequence? && !IsSimple(c.descriptors, d)
    requires Acted(c, k, p, code, key, pressed) && Acted(c, p, r, code, d, pressed)
    ensures Acted(c, k, r, code, d, pressed)
  {
    hide OfClass, Positive, OutputOk, CacheOk, ConfigOk, TimeoutOk, OverloadOk, RepeatableOk, Funded, Earns, Evens;
    hide ActedSimply, Find, Covers, OverloadFits, HasRoom, Honest, Net, Ahead, Strays, IsSimple;
    StraysThen(c, k.lay, p.lay, r.lay);
    FundedCovers(c, k, d, pressed);
    if Covers(c.layers, k.lay, Loss(d, pressed)) {
      KeySequenceKeepsFunds(c, k, p, code, key, d, pressed);
      SameFunds(c, k, p, r, d, pressed);
    }
    SameBindingsSameSlot(k.cache, p.cache, code);
    if OfClass(c, Steady) {
      KeySequenceFits(c, k, p, code, key, d, pressed);
    }
  }

  lemma StraysThen(c: Config, before: Lay, between: Lay, after: Lay)
    requires Strays(c, before, between) && Strays(c, between, after)
    ensures Strays(c, before, after) && (!after.strayed ==> !between.strayed)
  {
    hide OfClass;
  }

  lemma FundedCovers(c: Config, k: Core, d: Descriptor, pressed: bool)
    requires |k.lay.ls| == |c.layers|
    ensures Funded(c, k, d, pressed) ==> Covers(c.layers, k.lay, Loss(d, pressed))
  {
  }

  /** A key sequence leaves the key of the pending overload as it is. */
  lemma KeySequenceFits(c: Config, k: Core, p: Core, code: Code, key: Descriptor, d: Descriptor, pressed: bool)
    requires CoreOk(c, k) && CoreOk(c, p) && key.KeySequence? && Acted(c, k, p, code, key, pressed)
    requires OfClass(c, Steady)
    ensures p.pt == k.pt && HasRoom(p.cache, code) == HasRoom(k.cache, code)
    ensures OverloadFits(k) && Loose(k.cache, code, d, pressed) && HasRoom(k.cache, code) ==> OverloadFits(p)
  {
    hide OfClass, Positive, OutputOk, CacheOk, ConfigOk, TimeoutOk, OverloadOk, RepeatableOk, Funded, Earns, Evens;
    hide ActedSimply, Covers, ActedDirectly;
  }

  lemma SameFunds(c: Config, k: Core, p: Core, r: Core, d: Descriptor, pressed: bool)
    requires |k.lay.ls| == |p.lay.ls| == |r.lay.ls| == |c.layers| && p.lay.underflow == k.lay.underflow
    requires forall l | 0 <= l < |c.layers| && !IsLayout(c.layers, l) :: Net(p, l) == Net(k, l)
    ensures Earns(c, p, r, d, pressed) ==> Earns(c, k, r, d, pressed)
    ensures Evens(c, p, r, d, pressed) ==> Evens(c, k, r, d, pressed)
  {
    hide Net, Credit;
  }

  lemma KeySequenceKeepsFunds(c: Config, k: Core, p: Core, code: Code, key: Descriptor, d: Descriptor, pressed: bool)
    requires CoreOk(c, k) && CoreOk(c, p) && key.KeySequence? && Acted(c, k, p, code, key, pressed)
    requires Covers(c.layers, k.lay, Loss(d, pressed))
    ensures Funded(c, k, d, pressed) ==> Funded(c, p, d, pressed)
    ensures Covers(c.layers, p.lay, Loss(d, pressed)) && p.lay.underflow == k.lay.underflow
    ensures forall l | 0 <= l < |c.layers| && !IsLayout(c.layers, l) :: Net(p, l) == Net(k, l)
  {
    hide OfClass, Positive, OutputOk, CacheOk, ConfigOk, TimeoutOk, OverloadOk, RepeatableOk, ModsFollow;
    hide ActedSteadily, ActedDirectly;
    forall l | 0 <= l < |c.layers| && !IsLayout(c.layers, l)
      ensures Slack(k.lay.ls[l]) >= Credit(Nothing, l)
    {
      assert Slack(k.lay.ls[l]) >= Credit(Loss(d, pressed), l);
    }
    assert ActedSimply(c, k, p, key, pressed);
    forall l | 0 <= l < |c.layers| && !IsLayout(c.layers, l)
      ensures Net(p, l) == Net(k, l)
    {
      SameBindingsSameHolders(k.cache, p.cache, |k.cache|, l);
    }
  }

  lemma SameBindingsSameSlot(before: seq<CacheEntry>, after: seq<CacheEntry>, code: Code)
    requires SameBindings(before, after)
    ensures Find(after, code) == Find(before, code)
    ensures forall d: Descriptor, pressed: bool :: Loose(after, code, d, pressed) == Loose(before, code, d, pressed)
    ensures HasRoom(after, code) == HasRoom(before, code)
  {
  }

  lemma {:induction false} OneshotKKeeps(c: Config, k: Core, code: Code, d: Descriptor, dl: nat, pressed: bool,
                                         time: int, now: int)
    requires Sound(c, k, now) && d.OneshotK? && Allowed(c, d) && dl < |c.layers| && code != 0
    ensures var r := ActOneshotK(c, k, code, d, dl, pressed, time); Sound(c, r, now) && Acted(c, k, r, code, d, pressed)
    decreases Height(d), 0
  {
    hide Acted, OutputOk, LayoutsOk, DeadlinesKept, CacheOk, ConfigOk, TimeoutOk, OverloadOk, RepeatableOk, OfClass;
    hide ActOneshot, Act;
    TableAllowed(c, d.key);
    var key := c.descriptors[d.key];
    ActKeeps(c, k, code, key, dl, pressed, time, now);
    var p := Act(c, k, code, key, dl, pressed, time);
    OneshotKeeps(c, p, code, d, dl, pressed, time, now);
    AfterKeySequence(c, k, p, ActOneshot(c, p, code, d, dl, pressed, time), code, key, d, pressed);
  }

  /** The layer half of overload(). */
  lemma OverloadLayerKeeps(c: Config, k: Core, r: Core, code: Code, d: Descriptor, pressed: bool, now: int)
    requires Sound(c, k, now) && d.Overload? && Allowed(c, d) && CoreOk(c, r)
    requires SameBindings(k.cache, r.cache) && MarksFollow(k.cache, r.cache, code, d, pressed)
    requires r.lay == if pressed then Activate(k.lay, d.layer) else Deactivate(k.lay, d.layer)
    requires r.out == Sync(c, r.lay.ls, k.out) && r == k.(lay := r.lay, out := r.out, cache := r.cache, memo := r.memo)
    ensures Sound(c, r, now) && Acted(c, k, r, code, d, pressed) && ModsFollow(c, r)
  {
    hide Acted;
    ActivateKeeps(c.layers, k.lay, d, d.layer);
    DeactivateKeeps(c.layers, k.lay, d, d.layer);
    SyncKeeps(c, r.lay.ls, k.out, false);
    SoundStep(c, k, r, now);
    SimpleStep(c, k, r, code, d, pressed);
  }

  lemma {:induction false} OverloadKeeps(c: Config, k: Core, code: Code, d: Descriptor, dl: nat, pressed: bool,
                                         time: int, now: int)
    requires Sound(c, k, now) && d.Overload? && Allowed(c, d) && dl < |c.layers| && code != 0
    ensures var r := ActOverload(c, k, code, d, dl, pressed, time); Sound(c, r, now) && Acted(c, k, r, code, d, pressed)
    decreases Height(d), 0
  {
    if pressed {
      MarkLayerKeeps(k.cache, code, d.layer);
      OverloadLayerKeeps(c, k, ActOverload(c, k, code, d, dl, true, time), code, d, true, now);
    } else {
      TableAllowed(c, d.action);
      var action := c.descriptors[d.action];
      var lay := Deactivate(k.lay, d.layer);
      var p := k.(lay := lay, out := Sync(c, lay.ls, k.out));
      OverloadLayerKeeps(c, k, p, code, d, false, now);
      if Tapped(c, k, code, time) {
        TapKeeps(c, p, code, action, dl, time, now);
        AfterTap(c, k, p, ActTap(c, p, code, action, dl, time), code, d);
      }
    }
  }

  /** A tap in a steady configuration changes no account. */
  ghost predicate TappedSteadily(c: Config, k: Core, r: Core, code: Code)
    requires |k.lay.ls| == |r.lay.ls| == |c.layers|
  {
    r.pt == k.pt &&
    (Funded(c, k, Nothing, false) && Find(k.cache, code) == -1 ==> Evens(c, k, r, Nothing, false)) &&
    (OverloadFits(k) && Find(k.cache, code) == -1 && HasRoom(k.cache, code) ==> OverloadFits(r))
  }

  /** What a tap leaves behind: the layers can pay what they could pay before. */
  ghost predicate TapActed(c: Config, k: Core, r: Core, code: Code, action: Descriptor)
    requires CoreOk(c, k) && CoreOk(c, r)
  {
    SameCodes(k.cache, r.cache) && Strays(c, k.lay, r.lay) &&
    (!r.lay.strayed && Funded(c, k, Nothing, false) ==> Earns(c, k, r, Nothing, false)) &&
    (OfClass(c, Undelayed) ==> r.po == k.po) && (Positive(c) && Ahead(k) ==> Ahead(r)) &&
    (OfClass(c, Steady) ==> TappedSteadily(c, k, r, code)) &&
    (OfClass(c, Marked) ==> ActedHonestly(k, r, code, Nothing, false)) &&
    (action.KeySequence? && Covers(c.layers, k.lay, Nothing) && ModsFollow(c, k) ==>
       ActedSimply(c, k, r, Nothing, false) && ModsFollow(c, r))
  }

  lemma {:induction false} TapKeeps(c: Config, k: Core, code: Code, action: Descriptor, dl: nat, time: int, now: int)
    requires Sound(c, k, now) && Allowed(c, action) && dl < |c.layers| && code != 0
    ensures var r := ActTap(c, k, code, action, dl, time); Sound(c, r, now) && TapActed(c, k, r, code, action)
    decreases Height(action), 4
  {
    var r := ActTap(c, k, code, action, dl, time);
    if action.MacroOnce? {
      ExecuteMacroKeeps(c, k.lay.ls, k.out, dl, c.macros[action.mac]);
      SoundStep(c, k, r, now);
      BalanceEarns(c, k, r, Nothing, false);
    } else {
      ActKeeps(c, k, code, action, dl, true, time, now);
      var p := Act(c, k, code, action, dl, true, time);
      ActKeeps(c, p, code, action, dl, false, time, now);
      PressAndRelease(c, k, p, r, code, action);
    }
  }

  lemma PressAndReleaseEarns(c: Config, k: Core, p: Core, r: Core, d: Descriptor)
    requires |k.lay.ls| == |p.lay.ls| == |r.lay.ls| == |c.layers| && Funded(c, k, Nothing, false)
    requires Funded(c, k, d, true) ==> Earns(c, k, p, d, true)
    requires Funded(c, p, d, false) ==> Earns(c, p, r, d, false)
    ensures Earns(c, k, r, Nothing, false)
  {
  }

  lemma PressAndReleaseSteady(c: Config, k: Core, p: Core, r: Core, code: Code, d: Descriptor)
    requires |k.lay.ls| == |p.lay.ls| == |r.lay.ls| == |c.layers| && SameCodes(k.cache, p.cache)
    requires ActedSteadily(c, k, p, code, d, true) && ActedSteadily(c, p, r, code, d, false)
    ensures TappedSteadily(c, k, r, code)
  {
    hide Slack, Holders, OverloadFits;
    SameCodesSameRoom(k.cache, p.cache, code);
    if Funded(c, k, Nothing, false) && Find(k.cache, code) == -1 {
      hide Find;
      FundedToPress(c, k, d);
      assert Funded(c, k, d, true) && Evens(c, k, p, d, true);
      FundedToRelease(c, k, p, d);
      assert Funded(c, p, d, false) && Evens(c, p, r, d, false);
    }
  }

  lemma SameCodesSameRoom(before: seq<CacheEntry>, after: seq<CacheEntry>, code: Code)
    requires SameCodes(before, after)
    ensures Find(after, code) == Find(before, code) && HasRoom(after, code) == HasRoom(before, code)
  {
  }

  lemma FundedToPress(c: Config, k: Core, d: Descriptor)
    requires |k.lay.ls| == |c.layers| && Funded(c, k, Nothing, false)
    ensures Funded(c, k, d, true)
  {
  }

  lemma FundedToRelease(c: Config, k: Core, p: Core, d: Descriptor)
    requires |k.lay.ls| == |p.lay.ls| == |c.layers| && Funded(c, k, Nothing, false) && Evens(c, k, p, d, true)
    ensures Funded(c, p, d, false)
  {
  }

  lemma PressAndReleaseKeySequence(c: Config, k: Core, p: Core, r: Core, d: Descriptor)
    requires CoreOk(c, k) && CoreOk(c, p) && CoreOk(c, r) && d.KeySequence? && Covers(c.layers, k.lay, Nothing)
    requires Covers(c.layers, k.lay, Nothing) ==> ActedSimply(c, k, p, d, true)
    requires Covers(c.layers, p.lay, d) ==> ActedSimply(c, p, r, d, false)
    ensures ActedSimply(c, k, r, Nothing, false) && ModsFollow(c, r)
  {
  }

  /** A press and the release after it cancel. */
  lemma PressAndRelease(c: Config, k: Core, p: Core, r: Core, code: Code, d: Descriptor)
    requires CoreOk(c, k) && CoreOk(c, p) && CoreOk(c, r)
    requires Acted(c, k, p, code, d, true) && Acted(c, p, r, code, d, false)
    ensures TapActed(c, k, r, code, d)
  {
    if !r.lay.strayed && Funded(c, k, Nothing, false) {
      PressAndReleaseEarns(c, k, p, r, d);
    }
    if OfClass(c, Steady) {
      PressAndReleaseSteady(c, k, p, r, code, d);
    }
    if d.KeySequence? && Covers(c.layers, k.lay, Nothing) {
      PressAndReleaseKeySequence(c, k, p, r, d);
    }
  }

  lemma AfterTapSteady(c: Config, k: Core, p: Core, r: Core, code: Code, d: Descriptor)
    requires |k.lay.ls| == |p.lay.ls| == |r.lay.ls| == |c.layers| && SameCodes(k.cache, p.cache) && d.Overload?
    requires ActedSteadily(c, k, p, code, d, false) && TappedSteadily(c, p, r, code)
    ensures ActedSteadily(c, k, r, code, d, false)
  {
    SameCodesSameRoom(k.cache, p.cache, code);
    if Funded(c, k, d, false) && Find(k.cache, code) == -1 {
      assert Evens(c, k, p, d, false);
      assert Funded(c, p, Nothing, false) && Evens(c, p, r, Nothing, false);
    }
  }

  lemma AfterTapEarns(c: Config, k: Core, p: Core, r: Core, d: Descriptor)
    requires |k.lay.ls| == |p.lay.ls| == |r.lay.ls| == |c.layers|
    requires Funded(c, k, d, false) ==> Earns(c, k, p, d, false)
    requires Funded(c, p, Nothing, false) ==> Earns(c, p, r, Nothing, false)
    ensures Funded(c, k, d, false) ==> Earns(c, k, r, d, false)
  {
  }

  lemma AfterTap(c: Config, k: Core, p: Core, r: Core, code: Code, d: Descriptor)
    requires CoreOk(c, k) && CoreOk(c, p) && CoreOk(c, r) && d.Overload? && d.action < |c.descriptors|
    requires Acted(c, k, p, code, d, false) && ModsFollow(c, p) && TapActed(c, p, r, code, c.descriptors[d.action])
    ensures Acted(c, k, r, code, d, false)
  {
    hide OfClass, Positive, OutputOk, CacheOk, ConfigOk, TimeoutOk, OverloadOk, RepeatableOk, Funded, Earns,
         ActedSteadily, TappedSteadily;
    hide ModsFollow;
    if !r.lay.strayed {
      AfterTapEarns(c, k, p, r, d);
    }
    if OfClass(c, Steady) {
      AfterTapSteady(c, k, p, r, code, d);
    }
  }

  lemma {:induction false} OverloadIdleKeeps(c: Config, k: Core, code: Code, d: Descriptor, dl: nat, pressed: bool,
                                             time: int, now: int)
    requires Sound(c, k, now) && d.OverloadIdle? && Allowed(c, d) && dl < |c.layers| && code != 0
    ensures var r := ActOverloadIdle(c, k, code, d, dl, pressed, time);
            Sound(c, r, now) && Acted(c, k, r, code, d, pressed)
    decreases Height(d), 0
  {
    hide Acted, OutputOk, LayoutsOk, CacheOk, ConfigOk, DeadlinesKept, OfClass, Positive;
    if pressed {
      var action := IdleAction(c, k, d, time);
      ActKeeps(c, k, code, action, dl, true, time, now);
      AfterRebind(c, k, Act(c, k, code, action, dl, true, time), code, action, action, d, now);
    } else {
      ActedStep(c, k, k, code, d, false);
    }
  }

  lemma {:induction false} RepeatKeeps(c: Config, k: Core, code: Code, dl: nat, pressed: bool, time: int, now: int)
    requires Sound(c, k, now) && Allowed(c, Repeat) && dl < |c.layers| && code != 0
    ensures var r := ActRepeat(c, k, code, dl, pressed, time); Sound(c, r, now) && Acted(c, k, r, code, Repeat, pressed)
    decreases Height(Repeat), 0
  {
    hide Acted, OutputOk, LayoutsOk, CacheOk, ConfigOk, DeadlinesKept, OfClass, Positive;
    if pressed {
      var action := k.memo.repeatable;
      ActKeeps(c, k, code, action, dl, true, time, now);
      var p := Act(c, k, code, action, dl, true, time);
      AfterRebind(c, k, p, code, action, p.memo.repeatable, Repeat, now);
    } else {
      ActedStep(c, k, k, code, Repeat, false);
    }
  }

  lemma RebindNet(k: Core, code: Code, d: Descriptor, l: nat)
    requires l < |k.lay.ls| && code != 0
    ensures Net(k.(cache := Rebind(k.cache, code, d)), l) >= Net(k, l) - Credit(d, l)
  {
    var slot := Find(k.cache, code);
    if slot != -1 {
      HoldersUpdate(k.cache, |k.cache|, slot, k.cache[slot].(d := d), l);
    }
  }

  lemma AfterRebindEarns(c: Config, k: Core, p: Core, code: Code, done: Descriptor, bound: Descriptor, d: Descriptor)
    requires |k.lay.ls| == |p.lay.ls| == |c.layers| && code != 0
    requires Funded(c, k, d, true) && (Funded(c, k, done, true) ==> Earns(c, k, p, done, true))
    requires HeldLayer(bound) == -1 || HeldLayer(bound) == HeldLayer(done)
    requires HeldLayer(d) == -1
    ensures Earns(c, k, p.(cache := Rebind(p.cache, code, bound)), d, true)
  {
    var r := p.(cache := Rebind(p.cache, code, bound));
    forall l | 0 <= l < |c.layers| && !IsLayout(c.layers, l)
      ensures Net(r, l) >= Net(k, l)
    {
      RebindNet(p, code, bound, l);
    }
  }

  /** repeat(): its key holds no layer before and after. */
  lemma AfterRepeat(c: Config, k: Core, p: Core, code: Code, done: Descriptor, bound: Descriptor)
    requires |k.lay.ls| == |p.lay.ls| == |c.layers| && code != 0
    requires IsRepeatable(done) && HeldLayer(bound) == -1 && p.cache == k.cache
    ensures var r := p.(cache := Rebind(p.cache, code, bound));
            (ActedDirectly(c, k, p, code, done, true) ==> ActedDirectly(c, k, r, code, Repeat, true)) &&
            (ActedSteadily(c, k, p, code, done, true) ==> ActedSteadily(c, k, r, code, Repeat, true)) &&
            (ActedHonestly(k, p, code, done, true) ==> ActedHonestly(k, r, code, Repeat, true))
  {
    hide Honest, OverloadFits, Net, Find;
    var r := p.(cache := Rebind(p.cache, code, bound));
    RebindHonest(p.cache, code, bound);
    RebindFits(p, code, bound);
    SameBindingsSameSlot(k.cache, p.cache, code);
    if Loose(k.cache, code, Repeat, true) {
      forall l | 0 <= l < |c.layers| ensures Net(r, l) == Net(p, l) {
        RebindKeepsNet(p, code, bound, l);
      }
      RepeatEvens(c, k, p, r, done);
    }
  }

  lemma RebindKeepsNet(p: Core, code: Code, bound: Descriptor, l: nat)
    requires l < |p.lay.ls| && HeldLayer(bound) == -1 && Loose(p.cache, code, Repeat, true) && code != 0
    ensures Net(p.(cache := Rebind(p.cache, code, bound)), l) == Net(p, l)
  {
    var slot := Find(p.cache, code);
    if slot != -1 {
      HoldersUpdate(p.cache, |p.cache|, slot, p.cache[slot].(d := bound), l);
    }
  }

  lemma RepeatEvens(c: Config, k: Core, p: Core, r: Core, done: Descriptor)
    requires |k.lay.ls| == |p.lay.ls| == |r.lay.ls| == |c.layers| && IsRepeatable(done)
    requires forall l | 0 <= l < |c.layers| :: Net(r, l) == Net(p, l)
    ensures Funded(c, k, Repeat, true) == Funded(c, k, done, true)
    ensures Evens(c, k, p, done, true) ==> Evens(c, k, r, Repeat, true)
  {
    hide Net, Slack;
    forall l: nat ensures Credit(done, l) == 0 && Credit(Repeat, l) == 0 && Credit(Nothing, l) == 0 {
    }
    assert Funded(c, k, Repeat, true) ==> Funded(c, k, done, true);
  }

  lemma RebindHonest(cache: seq<CacheEntry>, code: Code, bound: Descriptor)
    requires HeldLayer(bound) == -1
    ensures Honest(cache) && Loose(cache, code, Repeat, true) ==> Honest(Rebind(cache, code, bound))
  {
  }

  lemma RebindFits(p: Core, code: Code, bound: Descriptor)
    requires HeldLayer(bound) == -1
    ensures OverloadFits(p) ==> OverloadFits(p.(cache := Rebind(p.cache, code, bound)))
  {
    SameCodesSameRoom(p.cache, Rebind(p.cache, code, bound), p.po.code);
  }

  /** Binding the key to the action that was done for it, or to one that holds no layer,
      keeps the accounts. */
  lemma AfterRebind(c: Config, k: Core, p: Core, code: Code, done: Descriptor, bound: Descriptor, d: Descriptor,
                    now: int)
    requires CoreOk(c, k) && Sound(c, p, now) && code != 0 && Allowed(c, bound) && Acted(c, k, p, code, done, true)
    requires HeldLayer(bound) == -1 || HeldLayer(bound) == HeldLayer(done)
    requires Allowed(c, d)
    requires d.OverloadIdle? || (d.Repeat? && IsRepeatable(done) && IsRepeatable(bound))
    ensures CoreOk(c, p.(cache := Rebind(p.cache, code, bound)))
    ensures var r := p.(cache := Rebind(p.cache, code, bound)); Sound(c, r, now) && Acted(c, k, r, code, d, true)
  {
    RebindOk(c, p.cache, code, bound);
    SoundStep(c, p, p.(cache := Rebind(p.cache, code, bound)), now);
    hide Sound, Acted;
    RebindActed(c, k, p, p.(cache := Rebind(p.cache, code, bound)), code, done, bound, d);
  }

  lemma RebindActed(c: Config, k: Core, p: Core, r: Core, code: Code, done: Descriptor, bound: Descriptor,
                    d: Descriptor)
    requires CoreOk(c, k) && CoreOk(c, p) && code != 0 && Allowed(c, d) && Acted(c, k, p, code, done, true)
    requires CoreOk(c, r) && r == p.(cache := Rebind(p.cache, code, bound))
    requires HeldLayer(bound) == -1 || HeldLayer(bound) == HeldLayer(done)
    requires d.OverloadIdle? || (d.Repeat? && IsRepeatable(done) && IsRepeatable(bound))
    ensures Acted(c, k, r, code, d, true)
  {
    hide Positive, CacheOk, ConfigOk, TimeoutOk, OverloadOk, RepeatableOk, Funded, Earns, Rebind, Find;
    assert d.OverloadIdle? ==> !OfClass(c, Steady) && !OfClass(c, Marked) by {
      assert OfClass(c, Steady) ==> InClass(Steady, c.descriptors, d);
      assert OfClass(c, Marked) ==> InClass(Marked, c.descriptors, d);
    }
    hide OfClass, Acted;
    ActedGives(c, k, p, code, done, true);
    RebindCodes(k.cache, p.cache, code, bound);
    if !p.lay.strayed && Funded(c, k, d, true) {
      AfterRebindEarns(c, k, p, code, done, bound, d);
    }
    if d.OverloadIdle? {
      IndirectStep(c, k, r, code, d);
    } else {
      RepeatActed(c, k, p, r, code, done, bound);
    }
  }

  lemma RepeatActed(c: Config, k: Core, p: Core, r: Core, code: Code, done: Descriptor, bound: Descriptor)
    requires CoreOk(c, k) && CoreOk(c, p) && CoreOk(c, r) && code != 0 && Acted(c, k, p, code, done, true)
    requires r == p.(cache := Rebind(p.cache, code, bound)) && SameCodes(k.cache, r.cache)
    requires IsRepeatable(done) && IsRepeatable(bound)
    requires !p.lay.strayed && Funded(c, k, Repeat, true) ==> Earns(c, k, r, Repeat, true)
    ensures Acted(c, k, r, code, Repeat, true)
  {
    AfterRepeat(c, k, p, code, done, bound);
    hide CoreOk, OfClass, Funded, Earns, SameCodes, ActedSteadily, ActedDirectly, ActedSimply, ActedHonestly, Covers;
    hide Positive, Rebind;
  }

  lemma RebindCodes(before: seq<CacheEntry>, after: seq<CacheEntry>, code: Code, d: Descriptor)
    requires SameCodes(before, after)
    ensures SameCodes(before, Rebind(after, code, d))
  {
  }
}
