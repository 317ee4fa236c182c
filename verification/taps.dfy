/** What a tap, the press and release of an action for a key that is up (src/keyboard.c:671-679,
    1084-1091), leaves behind: layers, and a pending overload. */
module Taps {
  import opened Keys
  import opened Output
  import opened Configs
  import opened State
  import opened Layers
  import opened Cache
  import opened Actions
  import opened Events
  import opened Pending
  import opened ActionLaws

  // ------------------------------------------------------------------ what a tap leaves over

  /** The action an overloadi() comes down to when no simple key was struck for as long as
      `idle`. */
  function Ran(c: Config, d: Descriptor, idle: int): (r: Descriptor)
    requires ConfigOk(c) && Allowed(c, d)
    ensures Allowed(c, r) && !r.OverloadIdle?
    decreases Rank(d)
  {
    if d.OverloadIdle? then
      TableAllowed(c, d.action1);
      TableAllowed(c, d.action2);
      Ran(c, c.descriptors[if idle >= d.timeout then d.action2 else d.action1], idle)
    else d
  }

  /** What the tap of an action comes down to: overload()s within it are tapped in turn, unless
      no tap is ever in time. */
  function Struck(c: Config, d: Descriptor): (r: Descriptor)
    requires ConfigOk(c) && Allowed(c, d)
    ensures Allowed(c, r) && !r.Overload?
    decreases Rank(d)
  {
    if !d.Overload? then d
    else if c.overloadTapTimeout < 0 then (assert Allowed(c, Nothing); Nothing)
    else
      TableAllowed(c, d.action);
      Struck(c, c.descriptors[d.action])
  }

  /** What the tap of an action leaves pressed: what an overloadi() ran, since the release that
      follows is one of the overloadi() itself, and nothing else. */
  function Leftover(c: Config, d: Descriptor, idle: int): (r: Descriptor)
    requires ConfigOk(c) && Allowed(c, d)
    ensures Allowed(c, r)
  {
    assert Allowed(c, Nothing);
    if Struck(c, d).OverloadIdle? then Ran(c, Struck(c, d), idle) else Nothing
  }

  /** The tap comes down to a swap(). */
  predicate Swaps(c: Config, d: Descriptor, idle: int)
    requires ConfigOk(c) && Allowed(c, d)
  {
    IsSwap(Ran(c, Struck(c, d), idle))
  }

  lemma IdleRelease(c: Config, k: Core, code: Code, d: Descriptor, dl: nat, time: int)
    requires CoreOk(c, k) && d.OverloadIdle? && Allowed(c, d) && dl < |c.layers| && code != 0
    ensures Act(c, k, code, d, dl, false, time) == k
  {
    hide CoreOk, OfClass;
    assert ActSwitch(c, k, code, d, dl, false, time) == ActOverloadIdle(c, k, code, d, dl, false, time);
  }

  lemma IdlePress(c: Config, k: Core, code: Code, d: Descriptor, dl: nat, time: int)
    requires CoreOk(c, k) && d.OverloadIdle? && Allowed(c, d) && dl < |c.layers| && code != 0
    ensures var p, r := Act(c, k, code, IdleAction(c, k, d, time), dl, true, time), Act(c, k, code, d, dl, true, time);
            Find(p.cache, code) == -1 ==> r.cache == p.cache && r.lay == p.lay
  {
    hide OfClass, Find, CacheOk, TimeoutOk, OverloadOk;
    var p := Act(c, k, code, IdleAction(c, k, d, time), dl, true, time);
    assert ActSwitch(c, k, code, d, dl, true, time) == ActOverloadIdle(c, k, code, d, dl, true, time);
    assert ActOverloadIdle(c, k, code, d, dl, true, time) == p.(cache := Rebind(p.cache, code,
           IdleAction(c, k, d, time)));
  }

  /** The press of an action for a key that is not held, swap() left out: every layer gains what
      the release of the action it comes down to will cost. */
  lemma {:induction false} PressGains(c: Config, k: Core, code: Code, d: Descriptor, dl: nat, time: int, now: int)
    requires Sound(c, k, now) && Allowed(c, d) && dl < |c.layers| && code != 0 && Find(k.cache, code) == -1
    requires Covers(c.layers, k.lay, Nothing) && !IsSwap(Ran(c, d, time - k.memo.lastSimple))
    ensures var r := Act(c, k, code, d, dl, true, time);
            SameBindings(k.cache, r.cache) && Evens(c, k, r, Ran(c, d, time - k.memo.lastSimple), true)
    decreases Rank(d)
  {
    hide OfClass, Positive, OutputOk, LayoutsOk, DeadlinesKept, ConfigOk, CacheOk, Evens, Covers, Act;
    if d.OverloadIdle? {
      var action := IdleAction(c, k, d, time);
      PressGains(c, k, code, action, dl, time, now);
      SameBindingsSameSlot(k.cache, Act(c, k, code, action, dl, true, time).cache, code);
      IdlePress(c, k, code, d, dl, time);
      SameAccounts(c, k, Act(c, k, code, action, dl, true, time), Act(c, k, code, d, dl, true, time),
        Ran(c, action, time - k.memo.lastSimple));
    } else {
      ActKeeps(c, k, code, d, dl, true, time, now);
      assert ActedDirectly(c, k, Act(c, k, code, d, dl, true, time), code, d, true);
    }
  }

  lemma SameAccounts(c: Config, k: Core, p: Core, r: Core, d: Descriptor)
    requires |k.lay.ls| == |p.lay.ls| == |c.layers| && r.lay == p.lay && r.cache == p.cache
    ensures Evens(c, k, p, d, true) ==> Evens(c, k, r, d, true)
  {
  }

  /** A press that gains what a release costs can pay for it. */
  lemma GainCovers(c: Config, k: Core, p: Core, d: Descriptor)
    requires |k.lay.ls| == |p.lay.ls| == |c.layers| && SameBindings(k.cache, p.cache)
    requires Covers(c.layers, k.lay, Nothing) && Evens(c, k, p, d, true)
    ensures Covers(c.layers, p.lay, d)
  {
    forall l | 0 <= l < |c.layers| && !IsLayout(c.layers, l) ensures Slack(p.lay.ls[l]) >= Credit(d, l) {
      SameBindingsSameHolders(k.cache, p.cache, |k.cache|, l);
      assert Slack(k.lay.ls[l]) >= Credit(Nothing, l);
    }
  }

  /** A press and a release of an action that is neither an overload() nor an overloadi(). */
  lemma PlainTap(c: Config, k: Core, p: Core, code: Code, d: Descriptor, dl: nat, time: int, now: int)
    requires Sound(c, k, now) && Allowed(c, d) && dl < |c.layers| && code != 0 && Find(k.cache, code) == -1
    requires Covers(c.layers, k.lay, Nothing) && !IsSwap(d) && !d.Overload? && !d.OverloadIdle?
    requires p == Act(c, k, code, d, dl, true, time)
    ensures Evens(c, k, Act(c, p, code, d, dl, false, time), Nothing, true)
  {
    hide OfClass, Positive, OutputOk, LayoutsOk, DeadlinesKept, ConfigOk, CacheOk, Evens, Covers, Act;
    ActKeeps(c, k, code, d, dl, true, time, now);
    assert ActedDirectly(c, k, p, code, d, true);
    SameBindingsSameSlot(k.cache, p.cache, code);
    GainCovers(c, k, p, d);
    ActKeeps(c, p, code, d, dl, false, time, now);
    var r := Act(c, p, code, d, dl, false, time);
    assert ActedDirectly(c, p, r, code, d, false);
    EvenThenEven(c, k, p, r, d);
  }

  lemma EvenThenEven(c: Config, k: Core, p: Core, r: Core, d: Descriptor)
    requires |k.lay.ls| == |p.lay.ls| == |r.lay.ls| == |c.layers|
    requires Evens(c, k, p, d, true) && Evens(c, p, r, d, false)
    ensures Evens(c, k, r, Nothing, true)
  {
    hide Net;
  }

  /** A press and a release of an action for a key that is not held, swap() left out: what is
      left over is what Leftover says. */
  lemma {:induction false} PressThenRelease(c: Config, k: Core, p: Core, r: Core, code: Code, d: Descriptor, dl: nat,
                                            time: int, now: int)
    requires Sound(c, k, now) && Allowed(c, d) && dl < |c.layers| && code != 0 && Find(k.cache, code) == -1
    requires Covers(c.layers, k.lay, Nothing) && !Swaps(c, d, time - k.memo.lastSimple)
    requires p == Act(c, k, code, d, dl, true, time) && r == Act(c, p, code, d, dl, false, time)
    ensures Evens(c, k, r, Leftover(c, d, time - k.memo.lastSimple), true)
    decreases Rank(d), 1
  {
    hide OfClass, Positive, OutputOk, LayoutsOk, DeadlinesKept, ConfigOk, CacheOk, TimeoutOk, OverloadOk, RepeatableOk;
    hide Evens, Covers, Act, Find;
    if d.OverloadIdle? {
      PressGains(c, k, code, d, dl, time, now);
      IdleRelease(c, p, code, d, dl, time);
    } else if d.Overload? {
      var q := OverloadTapped(c, k, code, d, dl, time, now);
      if c.overloadTapTimeout >= 0 {
        NestedTap(c, k, q, r, code, d, dl, time, now);
      }
    } else {
      PlainTap(c, k, p, code, d, dl, time, now);
    }
  }

  /** The action of an overload() that is tapped. */
  lemma {:induction false} NestedTap(c: Config, k: Core, q: Core, r: Core, code: Code, d: Descriptor, dl: nat,
                                     time: int, now: int)
    requires CoreOk(c, k) && Sound(c, q, now) && d.Overload? && Allowed(c, d) && dl < |c.layers| && code != 0
    requires Find(q.cache, code) == -1 && q.memo.lastSimple == k.memo.lastSimple && c.overloadTapTimeout >= 0
    requires Evens(c, k, q, Nothing, true) && Covers(c.layers, q.lay, Nothing)
    requires !Swaps(c, d, time - k.memo.lastSimple) && d.action < |c.descriptors|
    requires Allowed(c, c.descriptors[d.action]) && r == ActTap(c, q, code, c.descriptors[d.action], dl, time)
    ensures Evens(c, k, r, Leftover(c, d, time - k.memo.lastSimple), true)
    decreases Rank(d), 0
  {
    hide OfClass, Positive, OutputOk, LayoutsOk, DeadlinesKept, CacheOk, TimeoutOk, OverloadOk, RepeatableOk;
    hide Evens, Covers, Act, Find, ActTap;
    TableAllowed(c, d.action);
    TapLeavesOver(c, q, code, c.descriptors[d.action], dl, time, now);
    EvenFrom(c, k, q, r, Leftover(c, d, time - k.memo.lastSimple));
  }

  lemma EvenFrom(c: Config, k: Core, q: Core, r: Core, d: Descriptor)
    requires |k.lay.ls| == |q.lay.ls| == |r.lay.ls| == |c.layers|
    requires Evens(c, k, q, Nothing, true) && Evens(c, q, r, d, true)
    ensures Evens(c, k, r, d, true)
  {
    hide Net;
  }

  /** The layer half of an overload() that is pressed and released. */
  lemma OverloadHalves(c: Config, k: Core, p: Core, q: Core, code: Code, d: Descriptor, now: int)
    requires Sound(c, k, now) && d.Overload? && Allowed(c, d) && CoreOk(c, p) && CoreOk(c, q)
    requires Covers(c.layers, k.lay, Nothing) && p.cache == k.cache && q.cache == k.cache
    requires p.lay == Activate(k.lay, d.layer) && p.out == Sync(c, p.lay.ls, k.out)
    requires p == k.(lay := p.lay, out := p.out, memo := p.memo)
    requires q == p.(lay := Deactivate(p.lay, d.layer), out := Sync(c, Deactivate(p.lay, d.layer).ls, p.out))
    ensures Sound(c, q, now) && Evens(c, k, q, Nothing, true) && Covers(c.layers, q.lay, Nothing)
  {
    hide OfClass, Positive, OutputOk, LayoutsOk, DeadlinesKept, ConfigOk, CacheOk, UpdateMods, Net, Slack;
    OverloadLayerKeeps(c, k, p, code, d, true, now);
    OverloadLayerKeeps(c, p, q, code, d, false, now);
    ActivateKeeps(c.layers, k.lay, d, d.layer);
    BalanceEarns(c, k, p, d, true);
    GainCovers(c, k, p, d);
    DeactivateKeeps(c.layers, p.lay, d, d.layer);
    BalanceEarns(c, p, q, d, false);
    EvenThenEven(c, k, p, q, d);
    forall l | 0 <= l < |c.layers| && !IsLayout(c.layers, l) ensures Slack(q.lay.ls[l]) >= Credit(Nothing, l) {
      assert Slack(k.lay.ls[l]) >= Credit(Nothing, l);
    }
  }

  lemma OverloadPress(c: Config, k: Core, code: Code, d: Descriptor, dl: nat, time: int)
    requires CoreOk(c, k) && d.Overload? && Allowed(c, d) && dl < |c.layers| && code != 0 && Find(k.cache, code) == -1
    ensures var p := Act(c, k, code, d, dl, true, time);
            p == k.(lay := Activate(k.lay, d.layer), out := Sync(c, Activate(k.lay, d.layer).ls, k.out),
                    memo := k.memo.(overloadStart := time, lastPressed := code))
  {
    hide CoreOk, OfClass, UpdateMods, Find;
    assert ActSwitch(c, k, code, d, dl, true, time) == ActOverload(c, k, code, d, dl, true, time);
  }

  lemma OverloadRelease(c: Config, k: Core, code: Code, d: Descriptor, dl: nat, time: int)
    requires CoreOk(c, k) && d.Overload? && Allowed(c, d) && dl < |c.layers| && code != 0
    requires k.memo.lastPressed == code && k.memo.overloadStart == time
    requires d.action < |c.descriptors| && Allowed(c, c.descriptors[d.action])
    ensures var lay := Deactivate(k.lay, d.layer);
            var q := k.(lay := lay, out := Sync(c, lay.ls, k.out));
            CoreOk(c, q) &&
            Act(c, k, code, d, dl, false, time) ==
              if c.overloadTapTimeout >= 0 then ActTap(c, q, code, c.descriptors[d.action], dl, time) else q
  {
    hide OfClass, UpdateMods, Find, CacheOk, TimeoutOk, OverloadOk, RepeatableOk, ConfigOk, ActTap;
    assert ActSwitch(c, k, code, d, dl, false, time) == ActOverload(c, k, code, d, dl, false, time);
  }

  /** An overload() that is pressed and released taps its action, unless no tap is ever in time. */
  lemma OverloadTap(c: Config, k: Core, code: Code, d: Descriptor, dl: nat, time: int) returns (p: Core, q: Core)
    requires CoreOk(c, k) && d.Overload? && Allowed(c, d) && dl < |c.layers| && code != 0 && Find(k.cache, code) == -1
    ensures d.action < |c.descriptors| && Allowed(c, c.descriptors[d.action]) && Rank(c.descriptors[d.action]) < Rank(d)
    ensures CoreOk(c, p) && p.lay == Activate(k.lay, d.layer) && p.out == Sync(c, p.lay.ls, k.out)
    ensures p == k.(lay := p.lay, out := p.out, memo := p.memo) && p.memo.lastSimple == k.memo.lastSimple
    ensures CoreOk(c, q) && q == p.(lay := Deactivate(p.lay, d.layer),
                                    out := Sync(c, Deactivate(p.lay, d.layer).ls, p.out))
    ensures var r := Act(c, Act(c, k, code, d, dl, true, time), code, d, dl, false, time);
            r == if c.overloadTapTimeout >= 0 then ActTap(c, q, code, c.descriptors[d.action], dl, time) else q
  {
    hide OfClass, ConfigOk, CacheOk, TimeoutOk, OverloadOk, RepeatableOk, UpdateMods, Act, Find;
    TableAllowed(c, d.action);
    p := Act(c, k, code, d, dl, true, time);
    OverloadPress(c, k, code, d, dl, time);
    OverloadRelease(c, p, code, d, dl, time);
    var lay := Deactivate(p.lay, d.layer);
    q := p.(lay := lay, out := Sync(c, lay.ls, p.out));
  }

  /** An overload() that is pressed and released gives its layer up again. */
  lemma OverloadTapped(c: Config, k: Core, code: Code, d: Descriptor, dl: nat, time: int, now: int) returns (q: Core)
    requires Sound(c, k, now) && d.Overload? && Allowed(c, d) && dl < |c.layers| && code != 0
    requires Find(k.cache, code) == -1 && Covers(c.layers, k.lay, Nothing)
    ensures d.action < |c.descriptors| && Allowed(c, c.descriptors[d.action])
    ensures Sound(c, q, now) && q.cache == k.cache && Evens(c, k, q, Nothing, true) && Covers(c.layers, q.lay, Nothing)
    ensures q.memo.lastSimple == k.memo.lastSimple
    ensures var r := Act(c, Act(c, k, code, d, dl, true, time), code, d, dl, false, time);
            r == if c.overloadTapTimeout >= 0 then ActTap(c, q, code, c.descriptors[d.action], dl, time) else q
  {
    hide OfClass, Positive, OutputOk, LayoutsOk, DeadlinesKept, ConfigOk, CacheOk, Covers, UpdateMods, Act, Evens;
    hide Find;
    var p: Core;
    p, q := OverloadTap(c, k, code, d, dl, time);
    OverloadHalves(c, k, p, q, code, d, now);
  }

  /** The tap of an overload()'s action. */
  lemma {:induction false} TapLeavesOver(c: Config, k: Core, code: Code, d: Descriptor, dl: nat, time: int, now: int)
    requires Sound(c, k, now) && Allowed(c, d) && dl < |c.layers| && code != 0 && Find(k.cache, code) == -1
    requires Covers(c.layers, k.lay, Nothing) && !Swaps(c, d, time - k.memo.lastSimple)
    ensures Evens(c, k, ActTap(c, k, code, d, dl, time), Leftover(c, d, time - k.memo.lastSimple), true)
    decreases Rank(d), 2
  {
    hide OfClass, Positive, OutputOk, LayoutsOk, DeadlinesKept, ConfigOk, CacheOk, Covers, Act, ExecuteMacro;
    if !d.MacroOnce? {
      var p := Act(c, k, code, d, dl, true, time);
      PressThenRelease(c, k, p, Act(c, p, code, d, dl, false, time), code, d, dl, time, now);
    }
  }

  /** A tap, swap() left out, changes the accounts of the layers by what it leaves pressed: they
      stay as they were if and only if this holds no layer. */
  lemma TapLeaks(c: Config, k: Core, code: Code, d: Descriptor, dl: nat, time: int, now: int)
    requires Sound(c, k, now) && Allowed(c, d) && dl < |c.layers| && code != 0 && Find(k.cache, code) == -1
    requires Covers(c.layers, k.lay, Nothing) && !Swaps(c, d, time - k.memo.lastSimple)
    ensures var r, left := ActTap(c, k, code, d, dl, time), Leftover(c, d, time - k.memo.lastSimple);
            (forall l | 0 <= l < |c.layers| && !IsLayout(c.layers, l) :: Net(r, l) == Net(k, l) + Credit(left, l)) &&
            ((forall l | 0 <= l < |c.layers| && !IsLayout(c.layers, l) :: Net(r, l) == Net(k, l)) <==>
               HeldLayer(left) == -1)
  {
    hide OfClass, Positive, OutputOk, LayoutsOk, DeadlinesKept, ConfigOk, Covers, ActTap, Ran, Struck;
    TapLeavesOver(c, k, code, d, dl, time, now);
    LeakShows(c, k, ActTap(c, k, code, d, dl, time), Leftover(c, d, time - k.memo.lastSimple));
  }

  lemma LeakShows(c: Config, k: Core, r: Core, left: Descriptor)
    requires |k.lay.ls| == |r.lay.ls| == |c.layers| && Evens(c, k, r, left, true) && Allowed(c, left)
    ensures forall l | 0 <= l < |c.layers| && !IsLayout(c.layers, l) :: Net(r, l) == Net(k, l) + Credit(left, l)
    ensures (forall l | 0 <= l < |c.layers| && !IsLayout(c.layers, l) :: Net(r, l) == Net(k, l)) <==>
            HeldLayer(left) == -1
  {
    hide OfClass, Net;
    if HeldLayer(left) != -1 {
      assert HeldLayer(left) == LayerOf(left);
      assert Net(r, HeldLayer(left)) == Net(k, HeldLayer(left)) + Credit(left, HeldLayer(left));
    }
  }

  /** The same for the tap of a pending timeout(). */
  lemma TimeoutTapLeaks(c: Config, k: Core, time: nat, now: int)
    requires Sound(c, k, now) && k.pt.code != 0 && Find(k.cache, k.pt.code) == -1 && Covers(c.layers, k.lay, Nothing)
    requires !Swaps(c, TimeoutAction(c, k.pt, time), time - k.memo.lastSimple)
    ensures var r, left := TapTimeout(c, k, time), Leftover(c, TimeoutAction(c, k.pt, time), time - k.memo.lastSimple);
            (forall l | 0 <= l < |c.layers| && !IsLayout(c.layers, l) :: Net(r, l) == Net(k, l) + Credit(left, l)) &&
            ((forall l | 0 <= l < |c.layers| && !IsLayout(c.layers, l) :: Net(r, l) == Net(k, l)) <==>
               HeldLayer(left) == -1)
  {
    hide OfClass, Positive, OutputOk, LayoutsOk, ConfigOk, Act, Ran, Struck, Covers, Leftover;
    var o, d := k.(pt := k.pt.(code := 0)), TimeoutAction(c, k.pt, time);
    PressThenRelease(c, o, Act(c, o, k.pt.code, d, k.pt.dl, true, time), TapTimeout(c, k, time), k.pt.code, d, k.pt.dl,
      time, now);
    LeakShows(c, o, TapTimeout(c, k, time), Leftover(c, d, time - k.memo.lastSimple));
    assert forall l | 0 <= l < |c.layers| :: Net(o, l) == Net(k, l);
  }

  // ------------------------------------------------------------- whether a tap delays events

  /** An action with no other action in it, overloadt() and overloadt2() left out, leaves the
      pending overload alone. */
  lemma LeafKeepsOverload(c: Config, k: Core, code: Code, d: Descriptor, dl: nat, pressed: bool, time: int)
    requires CoreOk(c, k) && Allowed(c, d) && dl < |c.layers| && code != 0
    requires !d.OneshotK? && !d.Overload? && !d.OverloadIdle? && !d.Repeat? && !(pressed && IsDelayed(d))
    ensures Act(c, k, code, d, dl, pressed, time).po == k.po
  {
    hide CoreOk, OfClass, UpdateMods, ExecuteMacro, ResetKeys, MarkLayer, FindActivator, ClearOneshot, ClearToggles;
    hide SetLayout;
  }

  lemma {:induction false} OneshotKKeepsOverload(c: Config, k: Core, code: Code, d: Descriptor, dl: nat, pressed: bool,
                                                 time: int)
    requires CoreOk(c, k) && d.OneshotK? && Allowed(c, d) && dl < |c.layers| && code != 0
    ensures Act(c, k, code, d, dl, pressed, time).po == k.po
  {
    TableAllowed(c, d.key);
    LeafKeepsOverload(c, k, code, c.descriptors[d.key], dl, pressed, time);
    assert ActSwitch(c, k, code, d, dl, pressed, time) == ActOneshotK(c, k, code, d, dl, pressed, time);
    hide CoreOk, OfClass, UpdateMods, Act, MarkLayer;
  }

  lemma RepeatKeepsOverload(c: Config, k: Core, code: Code, dl: nat, pressed: bool, time: int)
    requires CoreOk(c, k) && Allowed(c, Repeat) && dl < |c.layers| && code != 0
    ensures Act(c, k, code, Repeat, dl, pressed, time).po == k.po
  {
    LeafKeepsOverload(c, k, code, k.memo.repeatable, dl, true, time);
    assert ActSwitch(c, k, code, Repeat, dl, pressed, time) == ActRepeat(c, k, code, dl, pressed, time);
    hide CoreOk, OfClass;
  }

  lemma OverloadPressKeepsOverload(c: Config, k: Core, code: Code, d: Descriptor, dl: nat, time: int)
    requires CoreOk(c, k) && d.Overload? && Allowed(c, d) && dl < |c.layers| && code != 0
    ensures Act(c, k, code, d, dl, true, time).po == k.po
  {
    hide CoreOk, OfClass, UpdateMods, MarkLayer;
    assert ActSwitch(c, k, code, d, dl, true, time) == ActOverload(c, k, code, d, dl, true, time);
  }

  lemma OverloadTimeoutBegins(c: Config, k: Core, code: Code, d: Descriptor, dl: nat, time: int)
    requires CoreOk(c, k) && IsDelayed(d) && Allowed(c, d) && dl < |c.layers| && code != 0
    ensures var r := Act(c, k, code, d, dl, true, time); r.po.code == code && r.po.expiration == time + d.timeout
  {
    hide CoreOk, OfClass;
    assert ActSwitch(c, k, code, d, dl, true, time) == ActOverloadTimeout(c, k, code, d, dl, true, time);
  }

  /** A press begins an overload if and only if it comes down to an overloadt(). */
  lemma {:induction false} PressDelays(c: Config, k: Core, code: Code, d: Descriptor, dl: nat, time: int)
    requires CoreOk(c, k) && Allowed(c, d) && dl < |c.layers| && code != 0
    ensures var r, ran := Act(c, k, code, d, dl, true, time), Ran(c, d, time - k.memo.lastSimple);
            if IsDelayed(ran) then r.po.code == code && r.po.expiration == time + ran.timeout else r.po == k.po
    decreases Rank(d)
  {
    hide CacheOk, ConfigOk, TimeoutOk, OverloadOk, RepeatableOk, OfClass, Act;
    if d.OverloadIdle? {
      var action := IdleAction(c, k, d, time);
      PressDelays(c, k, code, action, dl, time);
      IdlePressOverload(c, k, code, d, dl, time);
    } else if d.Overload? {
      OverloadPressKeepsOverload(c, k, code, d, dl, time);
    } else if d.OneshotK? {
      OneshotKKeepsOverload(c, k, code, d, dl, true, time);
    } else if d.Repeat? {
      RepeatKeepsOverload(c, k, code, dl, true, time);
    } else if IsDelayed(d) {
      OverloadTimeoutBegins(c, k, code, d, dl, time);
    } else {
      LeafKeepsOverload(c, k, code, d, dl, true, time);
    }
  }

  lemma IdlePressOverload(c: Config, k: Core, code: Code, d: Descriptor, dl: nat, time: int)
    requires CoreOk(c, k) && d.OverloadIdle? && Allowed(c, d) && dl < |c.layers| && code != 0
    ensures Act(c, k, code, d, dl, true, time).po == Act(c, k, code, IdleAction(c, k, d, time), dl, true, time).po
  {
    hide OfClass, CacheOk, TimeoutOk, OverloadOk;
    assert ActSwitch(c, k, code, d, dl, true, time) == ActOverloadIdle(c, k, code, d, dl, true, time);
  }

  /** A release begins none, unless it is that of an overload(). */
  lemma ReleaseKeepsOverload(c: Config, k: Core, code: Code, d: Descriptor, dl: nat, time: int)
    requires CoreOk(c, k) && Allowed(c, d) && dl < |c.layers| && code != 0 && !d.Overload?
    ensures Act(c, k, code, d, dl, false, time).po == k.po
  {
    hide CoreOk, OfClass, Act;
    if d.OneshotK? {
      OneshotKKeepsOverload(c, k, code, d, dl, false, time);
    } else if d.Repeat? {
      RepeatKeepsOverload(c, k, code, dl, false, time);
    } else if d.OverloadIdle? {
      IdleRelease(c, k, code, d, dl, time);
    } else {
      LeafKeepsOverload(c, k, code, d, dl, false, time);
    }
  }

  /** An overload began to be pending with d, or the one that was is still. */
  ghost predicate Delays(k: Core, r: Core, d: Descriptor, time: int) {
    if IsDelayed(d) then r.po.code != 0 && r.po.expiration == time + d.timeout else r.po == k.po
  }

  lemma {:induction false} PressThenReleaseDelays(c: Config, k: Core, p: Core, r: Core, code: Code, d: Descriptor,
                                                  dl: nat, time: int)
    requires CoreOk(c, k) && Allowed(c, d) && dl < |c.layers| && code != 0 && Find(k.cache, code) == -1
    requires p == Act(c, k, code, d, dl, true, time) && r == Act(c, p, code, d, dl, false, time)
    ensures Delays(k, r, Ran(c, Struck(c, d), time - k.memo.lastSimple), time)
    decreases Rank(d), 1
  {
    hide CacheOk, ConfigOk, TimeoutOk, OverloadOk, RepeatableOk, OfClass, Act, Find, UpdateMods;
    if d.Overload? {
      var _, q := OverloadTap(c, k, code, d, dl, time);
      if c.overloadTapTimeout >= 0 {
        TapDelays(c, q, code, c.descriptors[d.action], dl, time);
      }
    } else {
      PressDelays(c, k, code, d, dl, time);
      ReleaseKeepsOverload(c, p, code, d, dl, time);
    }
  }

  /** The tap of an action begins an overload if and only if it comes down to an overloadt(). */
  lemma {:induction false} TapDelays(c: Config, k: Core, code: Code, d: Descriptor, dl: nat, time: int)
    requires CoreOk(c, k) && Allowed(c, d) && dl < |c.layers| && code != 0 && Find(k.cache, code) == -1
    ensures Delays(k, ActTap(c, k, code, d, dl, time), Ran(c, Struck(c, d), time - k.memo.lastSimple), time)
    decreases Rank(d), 2
  {
    hide CoreOk, OfClass, Act, ExecuteMacro;
    if !d.MacroOnce? {
      var p := Act(c, k, code, d, dl, true, time);
      PressThenReleaseDelays(c, k, p, Act(c, p, code, d, dl, false, time), code, d, dl, time);
    }
  }

  /** The release of a held key taps an overload() whose action comes down to an overloadt(). */
  predicate ReleaseDelays(c: Config, k: Core, code: Code, time: int)
    requires CoreOk(c, k)
  {
    var slot := Find(k.cache, code);
    code != 0 && slot != -1 && k.cache[slot].d.Overload? && Tapped(c, k, code, time) &&
    (assert EntryOk(c, k.cache[slot]);
     TableAllowed(c, k.cache[slot].d.action);
     IsDelayed(Ran(c, Struck(c, c.descriptors[k.cache[slot].d.action]), time - k.memo.lastSimple)))
  }

  lemma SameReleaseDelays(c: Config, k: Core, r: Core, code: Code, time: int)
    requires CoreOk(c, k) && CoreOk(c, r) && r.cache == k.cache && r.memo == k.memo
    ensures ReleaseDelays(c, r, code, time) == ReleaseDelays(c, k, code, time)
  {
    hide Ran, Struck, OfClass, TimeoutOk, OverloadOk, RepeatableOk, Find;
  }

  /** A release that gets through begins an overload exactly then, and one that ends later. */
  lemma DispatchDelays(c: Config, k: Core, active: seq<ActiveChord>, e: KeyEvent)
    requires CoreOk(c, k) && ActiveOk(c, active) && e.code != 0 && !e.pressed && Positive(c)
    ensures var r := DispatchKey(c, k, active, e);
            if ReleaseDelays(c, k, e.code, e.timestamp) then r.po.expiration > e.timestamp else r.po == k.po
  {
    hide OfClass, Act, Ran, Struck, UpdateMods, ConfigOk, TimeoutOk, OverloadOk, RepeatableOk, ActiveOk, Positive;
    hide LookupDescriptor;
    var slot := Find(k.cache, e.code);
    if slot != -1 {
      var d, dl := k.cache[slot].d, k.cache[slot].dl;
      assert EntryOk(c, k.cache[slot]);
      RemoveOk(c, k.cache, e.code);
      RemoveRefinesRemoval(k.cache, e.code, 0);
      var p := k.(cache := Remove(k.cache, e.code));
      if d.Overload? {
        TableAllowed(c, d.action);
        OverloadReleased(c, p, e.code, d, dl, e.timestamp);
        DelayedLater(c, Ran(c, Struck(c, c.descriptors[d.action]), e.timestamp - k.memo.lastSimple));
      } else {
        ReleaseKeepsOverload(c, p, e.code, d, dl, e.timestamp);
      }
    }
  }

  lemma DelayedLater(c: Config, d: Descriptor)
    requires Allowed(c, d) && Positive(c)
    ensures IsDelayed(d) ==> d.timeout > 0
  {
    hide OfClass;
    assert InClass(Timed, c.descriptors, d);
  }

  lemma OverloadReleased(c: Config, k: Core, code: Code, d: Descriptor, dl: nat, time: int)
    requires CoreOk(c, k) && d.Overload? && Allowed(c, d) && dl < |c.layers| && code != 0 && Find(k.cache, code) == -1
    requires d.action < |c.descriptors| && Allowed(c, c.descriptors[d.action])
    ensures var r := Act(c, k, code, d, dl, false, time);
            if Tapped(c, k, code, time) then
              Delays(k, r, Ran(c, Struck(c, c.descriptors[d.action]), time - k.memo.lastSimple), time)
            else r.po == k.po
  {
    hide OfClass, UpdateMods, Find, CacheOk, TimeoutOk, OverloadOk, RepeatableOk, ConfigOk, ActTap, Ran, Struck;
    assert ActSwitch(c, k, code, d, dl, false, time) == ActOverload(c, k, code, d, dl, false, time);
    var lay := Deactivate(k.lay, d.layer);
    var q := k.(lay := lay, out := Sync(c, lay.ls, k.out));
    if Tapped(c, k, code, time) {
      TapDelays(c, q, code, c.descriptors[d.action], dl, time);
    }
  }
}
