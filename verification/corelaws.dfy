/** What a key event and the resolution of a pending action keep (src/keyboard.c:1077-1105,
    1150-1169, 1199-1246). */
module CoreLaws {
  import opened Keys
  import opened Output
  import opened Configs
  import opened State
  import opened Layers
  import opened Cache
  import opened Actions
  import opened Events
  import opened Pending
  import opened ActionLaws

  // -------------------------------------------------------------------------- invariants

  /** As long as no swap() went astray, every layer that is no layout can pay for the release
      of all held keys, and no assertion of deactivate_layer has failed. */
  ghost predicate Solvent(c: Config, k: Core)
    requires |k.lay.ls| == |c.layers|
  {
    (OfClass(c, SwapFree) ==> !k.lay.strayed) &&
    (!k.lay.strayed ==>
       !k.lay.underflow && forall l | 0 <= l < |c.layers| && !IsLayout(c.layers, l) :: Net(k, l) >= 0)
  }

  /** A held key whose key sequence plays key x. */
  predicate Plays(e: CacheEntry, x: Code) {
    e.code != 0 && e.d.KeySequence? && e.d.code == x
  }

  /** Every visible key that is down and no modifier is played by a held key. */
  ghost predicate KeysPlayed(keys: seq<bool>, cache: seq<CacheEntry>)
    requires |keys| == 256
  {
    forall x: Code | !IsModifierKey(x) && !IsSilent(x) && keys[x] :: exists i | 0 <= i < |cache| :: Plays(cache[i], x)
  }

  /** The held keys, if there are any, are bound to nothing. */
  ghost predicate AllIdle(cache: seq<CacheEntry>) {
    forall i | 0 <= i < |cache| && cache[i].code != 0 :: cache[i].d.Nothing?
  }

  /** No timeout() is pending, the key of a pending overload can be bound without giving a layer
      away, and every layer that is no layout is active exactly as often as its toggle, its
      oneshots and the held keys explain. */
  ghost predicate Even(k: Core, layers: seq<LayerDef>)
    requires |k.lay.ls| == |layers|
  {
    k.pt.code == 0 && OverloadFits(k) && forall l | 0 <= l < |layers| && !IsLayout(layers, l) :: Net(k, l) == 0
  }

  /** No timeout() is pending, every marked key holds the layer it is marked with, and so no
      swap() went astray. */
  ghost predicate Trusted(k: Core) {
    k.pt.code == 0 && Honest(k.cache) && !k.lay.strayed
  }

  /** With simple actions only, no macro is active, no layer is toggled or armed, and the
      held keys explain every key that is down. */
  ghost predicate Plain(c: Config, k: Core)
    requires CoreOk(c, k)
  {
    k.mac.active.None? && Quiet(k.lay) &&
    KeysPlayed(k.out.keys, k.cache) && (AllIdle(k.cache) ==> ModsFollow(c, k))
  }

  /** What holds between any two events. */
  ghost predicate CoreInv(c: Config, k: Core, now: int) {
    Sound(c, k, now) && Solvent(c, k) && (OfClass(c, Undelayed) ==> k.po.code == 0) &&
    (OfClass(c, Steady) ==> Even(k, c.layers)) && (OfClass(c, Marked) ==> Trusted(k)) &&
    (Positive(c) ==> Ahead(k)) && (OfClass(c, Simple) ==> Plain(c, k))
  }

  /** A change of the timer list that drops no deadline still to come. */
  lemma TimersKeep(c: Config, k: Core, r: Core, now: int)
    requires CoreInv(c, k, now) && r == k.(timers := r.timers, overflow := r.overflow)
    requires |r.timers| <= MAX_TIMEOUTS && (k.overflow ==> r.overflow)
    requires r.overflow || forall t <- k.timers | t > now :: t in r.timers
    ensures CoreInv(c, r, now)
  {
    hide OfClass, Positive, OutputOk, LayoutsOk, ConfigOk, CacheOk, KeysPlayed, AllIdle, ModsFollow;
    assert forall l | 0 <= l < |c.layers| :: Net(r, l) == Net(k, l);
    assert ModsFollow(c, k) == ModsFollow(c, r) by { ModsFrame(c, k, r); }
  }

  // ------------------------------------------------------------------------- held keys

  /** The codes of the held keys. */
  predicate Holds(cache: seq<CacheEntry>, code: Code) {
    code != 0 && Find(cache, code) != -1
  }

  lemma SameCodesSameHolds(before: seq<CacheEntry>, after: seq<CacheEntry>, code: Code)
    requires SameCodes(before, after)
    ensures Holds(after, code) == Holds(before, code)
  {
  }

  // ------------------------------------------------------------------------ a key is bound

  /** Binding a key to d and pressing it: the accounts can pay afterwards if the binding
      took away no more than the press earns. */
  lemma BoundPressSolvent(c: Config, k: Core, p: Core, r: Core, code: Code, d: Descriptor)
    requires CoreOk(c, p) && CoreOk(c, r) && |k.lay.ls| == |c.layers| && Solvent(c, k)
    requires p.lay == k.lay && Acted(c, p, r, code, d, true)
    requires forall l | 0 <= l < |c.layers| :: Net(p, l) >= Net(k, l) - Credit(d, l)
    ensures Solvent(c, r)
  {
    hide OfClass, Positive, CacheOk, ConfigOk, TimeoutOk, OverloadOk, RepeatableOk, ActedSteadily, ActedDirectly;
    hide ActedSimply, ActedHonestly, SameCodes;
    if !r.lay.strayed {
      forall l | 0 <= l < |c.layers| && !IsLayout(c.layers, l)
        ensures Slack(p.lay.ls[l]) >= 0 && Net(p, l) + Credit(d, l) >= 0
      {
        assert Net(k, l) >= 0;
      }
      assert Funded(c, p, d, true);
      forall l | 0 <= l < |c.layers| && !IsLayout(c.layers, l)
        ensures Net(r, l) >= 0
      {
        assert Net(k, l) >= 0;
      }
    }
  }

  /** Writing a slot changes the accounts by the credits of its two entries. */
  lemma SlotNet(k: Core, slot: nat, e: CacheEntry, l: nat)
    requires l < |k.lay.ls| && slot < |k.cache|
    ensures Net(k.(cache := k.cache[slot := e]), l) == Net(k, l) + SlotCredit(k.cache[slot], l) - SlotCredit(e, l)
  {
    HoldersUpdate(k.cache, |k.cache|, slot, e, l);
  }

  lemma PutNet(k: Core, code: Code, e: CacheEntry, l: nat)
    requires l < |k.lay.ls| && code != 0
    ensures Net(k.(cache := Put(k.cache, code, e)), l) >= Net(k, l) - Credit(e.d, l)
  {
    var slot := SlotFor(k.cache, code);
    if slot != -1 {
      SlotNet(k, slot, e.(code := code), l);
    }
  }

  /** The key of a pending action is bound to the action it resolves to and pressed. */
  lemma BindKeeps(c: Config, k: Core, p: Core, code: Code, d: Descriptor, dl: nat, time: int, now: int)
    requires Sound(c, k, now) && Solvent(c, k) && Sound(c, p, now) && code != 0 && Allowed(c, d) && dl < |c.layers|
    requires p.lay == k.lay && p.cache == Put(k.cache, code, CacheEntry(code, d, dl, 0))
    ensures Sound(c, Act(c, p, code, d, dl, true, time), now)
    ensures Solvent(c, Act(c, p, code, d, dl, true, time))
    ensures OfClass(c, Undelayed) ==> Act(c, p, code, d, dl, true, time).po == p.po
    ensures OfClass(c, Steady) ==> ActedSteadily(c, p, Act(c, p, code, d, dl, true, time), code, d, true)
    ensures OfClass(c, Marked) ==> ActedHonestly(p, Act(c, p, code, d, dl, true, time), code, d, true)
    ensures Positive(c) && Ahead(p) ==> Ahead(Act(c, p, code, d, dl, true, time))
  {
    ActKeeps(c, p, code, d, dl, true, time, now);
    forall l | 0 <= l < |c.layers|
      ensures Net(p, l) >= Net(k, l) - Credit(d, l)
    {
      PutNet(k, code, CacheEntry(code, d, dl, 0), l);
    }
    BoundPressSolvent(c, k, p, Act(c, p, code, d, dl, true, time), code, d);
  }

  lemma ResolveOverloadKeeps(c: Config, k: Core, action: Descriptor, time: nat, now: int)
    requires CoreInv(c, k, now) && k.po.code != 0 && (action == k.po.action1 || action == k.po.action2)
    ensures CoreInv(c, ResolveOverload(c, k, action, time), now)
  {
    hide OfClass, Positive, OutputOk, LayoutsOk, ConfigOk, Plain, Solvent, Even, Act, Trusted;
    ClassesNested(c);
    assert Allowed(c, action);
    var po, entry := k.po, CacheEntry(0, action, k.po.dl, 0);
    PutOk(c, k.cache, po.code, entry);
    var p := k.(po := po.(code := 0), cache := Put(k.cache, po.code, entry));
    BindKeeps(c, k, p, po.code, action, po.dl, time, now);
    if OfClass(c, Steady) {
      BindEven(c, k, p, Act(c, p, po.code, action, po.dl, true, time), po.code, action, po.dl);
    }
    if OfClass(c, Marked) {
      BindTrusted(k, p, Act(c, p, po.code, action, po.dl, true, time), po.code, action, po.dl);
    }
  }

  /** A key that is bound anew is not marked yet. */
  lemma BindTrusted(k: Core, p: Core, r: Core, code: Code, d: Descriptor, dl: nat)
    requires Trusted(k) && DistinctCodes(k.cache) && code != 0 && p.lay == k.lay && p.pt == k.pt
    requires p.cache == Put(k.cache, code, CacheEntry(code, d, dl, 0)) && ActedHonestly(p, r, code, d, true)
    ensures Trusted(r)
  {
    var slot := SlotFor(k.cache, code);
    if slot != -1 {
      UpdateSlot(k.cache, code, slot, CacheEntry(code, d, dl, 0), 0);
      FindUnique(p.cache, code, slot);
    }
  }

  /** The key of the pending overload is bound without giving a layer away. */
  lemma BindEven(c: Config, k: Core, p: Core, r: Core, code: Code, d: Descriptor, dl: nat)
    requires |k.lay.ls| == |p.lay.ls| == |r.lay.ls| == |c.layers| && DistinctCodes(k.cache) && code != 0
    requires Even(k, c.layers) && code == k.po.code && p.lay == k.lay && p.pt == k.pt && p.po.code == 0
    requires p.cache == Put(k.cache, code, CacheEntry(code, d, dl, 0)) && ActedSteadily(c, p, r, code, d, true)
    ensures Even(r, c.layers)
  {
    var slot, e := SlotFor(k.cache, code), CacheEntry(code, d, dl, 0);
    assert slot != -1;
    UpdateSlot(k.cache, code, slot, e, 0);
    FindUnique(p.cache, code, slot);
    forall l | 0 <= l < |c.layers| && !IsLayout(c.layers, l)
      ensures Slack(p.lay.ls[l]) >= 0 && Net(p, l) + Credit(d, l) == 0
    {
      assert Net(k, l) == 0;
      SlotNet(k, slot, e, l);
    }
    BoundEven(c, p, r, code, d);
  }

  /** The press of a key that is bound but not accounted for yet. */
  lemma BoundEven(c: Config, p: Core, r: Core, code: Code, d: Descriptor)
    requires |p.lay.ls| == |r.lay.ls| == |c.layers| && ActedSteadily(c, p, r, code, d, true)
    requires p.pt.code == 0 && OverloadFits(p) && Find(p.cache, code) != -1 && p.cache[Find(p.cache, code)].d == d
    requires forall l | 0 <= l < |c.layers| && !IsLayout(c.layers, l) ::
               Slack(p.lay.ls[l]) >= 0 && Net(p, l) + Credit(d, l) == 0
    ensures Even(r, c.layers)
  {
    hide Slack, Net, Credit;
    assert Funded(c, p, d, true);
    assert Evens(c, p, r, d, true);
    assert forall l | 0 <= l < |c.layers| && !IsLayout(c.layers, l) :: Credit(Loss(d, true), l) == 0 by {
      forall l | 0 <= l < |c.layers| && !IsLayout(c.layers, l) ensures Credit(Loss(d, true), l) == 0 {
        NothingCosts(l);
      }
    }
  }

  lemma NothingCosts(l: nat)
    ensures Credit(Nothing, l) == 0
  {
  }

  lemma HoldTimeoutKeeps(c: Config, k: Core, time: nat, now: int)
    requires CoreInv(c, k, now) && k.pt.code != 0
    ensures CoreInv(c, HoldTimeout(c, k, time), now)
  {
    hide OfClass, Positive, OutputOk, LayoutsOk, ConfigOk, Plain;
    ClassesNested(c);
    assert !OfClass(c, Steady) && !OfClass(c, Simple) && !OfClass(c, Marked);
    var pt, action := k.pt, TimeoutAction(c, k.pt, time);
    var entry := CacheEntry(pt.code, action, pt.dl, 0);
    PutOk(c, k.cache, pt.code, entry);
    var p := k.(pt := pt.(code := 0), cache := Put(k.cache, pt.code, entry));
    BindKeeps(c, k, p, pt.code, action, pt.dl, time, now);
  }

  lemma TapSolvent(c: Config, k: Core, r: Core, code: Code, d: Descriptor)
    requires CoreOk(c, k) && CoreOk(c, r) && Solvent(c, k) && TapActed(c, k, r, code, d)
    ensures Solvent(c, r)
  {
    hide OfClass, Positive, ConfigOk, CacheOk, ActedSimply, TappedSteadily;
    if !r.lay.strayed {
      forall l | 0 <= l < |c.layers| && !IsLayout(c.layers, l)
        ensures Net(k, l) >= Credit(Nothing, l)
      {
      }
      assert Funded(c, k, Nothing, false);
    }
  }

  lemma TapTimeoutKeeps(c: Config, k: Core, time: nat, now: int)
    requires CoreInv(c, k, now) && k.pt.code != 0
    ensures CoreInv(c, TapTimeout(c, k, time), now)
  {
    hide OfClass, Positive, OutputOk, LayoutsOk, ConfigOk, Plain, PendingWeight, Calms;
    ClassesNested(c);
    assert !OfClass(c, Steady) && !OfClass(c, Simple) && !OfClass(c, Marked);
    var pt, action := k.pt, TimeoutAction(c, k.pt, time);
    var o := k.(pt := pt.(code := 0));
    ActKeeps(c, o, pt.code, action, pt.dl, true, time, now);
    var p := Act(c, o, pt.code, action, pt.dl, true, time);
    ActKeeps(c, p, pt.code, action, pt.dl, false, time, now);
    var r := Act(c, p, pt.code, action, pt.dl, false, time);
    PressAndRelease(c, o, p, r, pt.code, action);
    assert forall l | 0 <= l < |c.layers| :: Net(o, l) == Net(k, l);
    TapSolvent(c, o, r, pt.code, action);
  }

  /** handle_pending_timeout */
  lemma PendingTimeoutKeeps(c: Config, k: Core, e: KeyEvent, now: int)
    requires CoreInv(c, k, now)
    ensures CoreInv(c, HandlePendingTimeout(c, k, e), now)
    ensures OfClass(c, Simple) ==> HandlePendingTimeout(c, k, e) == k
  {
    hide OfClass, Positive, TapTimeout, HoldTimeout, Sound, Plain, Solvent, CoreOk;
    ClassesNested(c);
    if k.pt.code != 0 {
      TapTimeoutKeeps(c, k, e.timestamp, now);
      HoldTimeoutKeeps(c, k, e.timestamp, now);
    }
  }

  // ------------------------------------------------------------------------ expiry, repeat

  lemma ExpireOneshotsKeeps(c: Config, k: Core, time: nat, now: int)
    requires CoreInv(c, k, now)
    ensures CoreInv(c, ExpireOneshots(c, k, time), now)
    ensures OfClass(c, Simple) ==> ExpireOneshots(c, k, time) == k
  {
    hide OfClass, Positive, CacheOk, ConfigOk, OutputOk, LayoutsOk, KeysPlayed, AllIdle, UpdateMods, ClearOneshot, Net;
    var r, lay := ExpireOneshots(c, k, time), ClearOneshot(k.lay);
    ClassesNested(c);
    if r != k {
      ClearOneshotKeeps(c.layers, k.lay);
      SyncKeeps(c, lay.ls, k.out, false);
      SoundStep(c, k, r, now);
      BalanceSolvent(c, k, r);
    }
  }

  lemma BalanceSolvent(c: Config, k: Core, r: Core)
    requires |k.lay.ls| == |r.lay.ls| == |c.layers| && Solvent(c, k) && r.cache == k.cache && r.pt == k.pt
    requires r.po == k.po && r.lay.strayed == k.lay.strayed
    requires Covers(c.layers, k.lay, Nothing) ==> Balances(c.layers, k.lay, r.lay, Nothing, Nothing)
    ensures Solvent(c, r)
    ensures OfClass(c, SwapFree) && Even(k, c.layers) ==> Even(r, c.layers)
  {
    hide OfClass;
    if !k.lay.strayed {
      forall l | 0 <= l < |c.layers| && !IsLayout(c.layers, l)
        ensures Slack(k.lay.ls[l]) >= 0
      {
        assert Net(k, l) >= 0;
      }
      forall l | 0 <= l < |c.layers| && !IsLayout(c.layers, l)
        ensures Net(r, l) >= 0
      {
        assert Net(k, l) >= 0;
      }
      if Even(k, c.layers) {
        forall l | 0 <= l < |c.layers| && !IsLayout(c.layers, l)
          ensures Net(r, l) == 0
        {
          assert Net(k, l) == 0;
        }
      }
    }
  }

  lemma RepeatMacroKeeps(c: Config, k: Core, e: KeyEvent, now: int)
    requires CoreInv(c, k, now)
    ensures CoreInv(c, RepeatMacro(c, k, e), now)
    ensures OfClass(c, Simple) ==> RepeatMacro(c, k, e) == k
  {
    hide OfClass, Positive, ConfigOk, LayoutsOk, OutputOk, ExecuteMacro;
    var r := RepeatMacro(c, k, e);
    if k.mac.active.Some? {
      if e.code != 0 {
        SyncKeeps(c, k.lay.ls, k.out, false);
        SoundStep(c, k, r, now);
      } else if e.timestamp >= k.mac.timeout {
        ExecuteMacroKeeps(c, k.lay.ls, k.out, k.mac.layer, c.macros[k.mac.active.value]);
      }
    }
  }

  // ---------------------------------------------------------------- press and release

  /** A press that is bound in a free slot. */
  lemma PressPlain(c: Config, k: Core, slot: nat, e: CacheEntry, r: Core)
    requires slot < |k.cache| && k.cache[slot].code == 0 && e.code != 0 && Allowed(c, e.d)
    requires CoreOk(c, k) && CoreOk(c, k.(cache := k.cache[slot := e])) && CoreOk(c, r)
    requires Even(k, c.layers) && Plain(c, k) && OfClass(c, Simple)
    requires Acted(c, k.(cache := k.cache[slot := e]), r, e.code, e.d, true)
    ensures Plain(c, r) && r.overflow == k.overflow
  {
    hide OutputOk, LayoutsOk, CacheOk, ConfigOk, Positive, Earns, ActedSteadily;
    var p := k.(cache := k.cache[slot := e]);
    assert Covers(c.layers, p.lay, Nothing) by {
      forall l | 0 <= l < |c.layers| && !IsLayout(c.layers, l) ensures Slack(p.lay.ls[l]) >= 0 {
        assert Net(k, l) == 0;
      }
    }
    assert ActedSimply(c, p, r, e.d, true);
    PressPlayed(k, p, slot, r, e.d);
  }

  lemma PressPlayed(k: Core, p: Core, slot: nat, r: Core, d: Descriptor)
    requires |k.out.keys| == |r.out.keys| == 256 && KeysPlayed(k.out.keys, k.cache)
    requires slot < |k.cache| == |p.cache| == |r.cache| && k.cache[slot].code == 0 && p.cache[slot].code != 0 &&
             p.cache[slot].d == d
    requires forall i | 0 <= i < |k.cache| && i != slot :: p.cache[i] == k.cache[i]
    requires SameBindings(p.cache, r.cache) && KeysFollow(k.out.keys, r.out.keys, d, true)
    ensures KeysPlayed(r.out.keys, r.cache)
  {
    forall x: Code | !IsModifierKey(x) && !IsSilent(x) && r.out.keys[x]
      ensures exists i | 0 <= i < |r.cache| :: Plays(r.cache[i], x)
    {
      if d.KeySequence? && d.code == x {
        assert Plays(r.cache[slot], x);
      } else {
        var i :| 0 <= i < |k.cache| && Plays(k.cache[i], x);
        assert Plays(r.cache[i], x);
      }
    }
  }

  lemma ReleasePlayed(k: Core, slot: nat, r: Core)
    requires |k.out.keys| == |r.out.keys| == 256 && KeysPlayed(k.out.keys, k.cache)
    requires slot < |k.cache| == |r.cache|
    requires forall i | 0 <= i < |k.cache| && i != slot ::
               r.cache[i].code == k.cache[i].code && r.cache[i].d == k.cache[i].d
    requires KeysFollow(k.out.keys, r.out.keys, k.cache[slot].d, false)
    ensures KeysPlayed(r.out.keys, r.cache)
  {
    forall x: Code | !IsModifierKey(x) && !IsSilent(x) && r.out.keys[x]
      ensures exists i | 0 <= i < |r.cache| :: Plays(r.cache[i], x)
    {
      var i :| 0 <= i < |k.cache| && Plays(k.cache[i], x);
      assert Plays(r.cache[i], x);
    }
  }

  lemma ReleasePlain(c: Config, k: Core, slot: nat, r: Core)
    requires CoreOk(c, k) && slot < |k.cache| && k.cache[slot].code != 0 && Allowed(c, k.cache[slot].d)
    requires CoreOk(c, k.(cache := k.cache[slot := k.cache[slot].(code := 0)])) && CoreOk(c, r)
    requires Even(k, c.layers) && Plain(c, k) && OfClass(c, Simple)
    requires Acted(c, k.(cache := k.cache[slot := k.cache[slot].(code := 0)]), r, k.cache[slot].code, k.cache[slot].d,
             false)
    ensures Plain(c, r) && r.overflow == k.overflow
  {
    hide OutputOk, LayoutsOk, CacheOk, ConfigOk, Positive, Earns, ActedSteadily;
    var d, e := k.cache[slot].d, k.cache[slot].(code := 0);
    var p := k.(cache := k.cache[slot := e]);
    forall l | 0 <= l < |c.layers| && !IsLayout(c.layers, l)
      ensures Slack(p.lay.ls[l]) >= Credit(d, l)
    {
      assert Net(k, l) == 0;
      HoldersAtLeast(k.cache, |k.cache|, slot, l);
    }
    assert Covers(c.layers, p.lay, d);
    assert ActedSimply(c, p, r, d, false);
    ReleasePlayed(k, slot, r);
  }

  /** A press that is bound in a free slot of a steady configuration. */
  lemma PressEven(c: Config, k: Core, slot: nat, e: CacheEntry, r: Core)
    requires slot < |k.cache| && k.cache[slot].code == 0 && e.code != 0
    requires CoreOk(c, k) && CoreOk(c, k.(cache := k.cache[slot := e])) && CoreOk(c, r)
    requires Even(k, c.layers) && ActedSteadily(c, k.(cache := k.cache[slot := e]), r, e.code, e.d, true)
    requires k.po.code == 0
    ensures Even(r, c.layers)
  {
    var p := k.(cache := k.cache[slot := e]);
    FindUnique(p.cache, e.code, slot);
    forall l | 0 <= l < |c.layers| && !IsLayout(c.layers, l)
      ensures Slack(p.lay.ls[l]) >= 0 && Net(p, l) + Credit(e.d, l) == 0
    {
      assert Net(k, l) == 0;
      SlotNet(k, slot, e, l);
    }
    BoundEven(c, p, r, e.code, e.d);
  }

  lemma ReleaseEven(c: Config, k: Core, slot: nat, r: Core)
    requires CoreOk(c, k) && slot < |k.cache| && k.cache[slot].code != 0
    requires CoreOk(c, k.(cache := k.cache[slot := k.cache[slot].(code := 0)])) && CoreOk(c, r) && Even(k, c.layers)
    requires ActedSteadily(c, k.(cache := k.cache[slot := k.cache[slot].(code := 0)]), r, k.cache[slot].code,
             k.cache[slot].d, false)
    ensures Even(r, c.layers)
  {
    var d, e := k.cache[slot].d, k.cache[slot].(code := 0);
    var p := k.(cache := k.cache[slot := e]);
    assert Find(p.cache, k.cache[slot].code) == -1 && p.cache[slot].code == 0;
    FitsAfterRelease(k, slot);
    forall l | 0 <= l < |c.layers| && !IsLayout(c.layers, l)
      ensures Net(p, l) == Credit(d, l)
    {
      assert Net(k, l) == 0;
      SlotNet(k, slot, e, l);
    }
    assert Funded(c, p, d, false);
    assert Evens(c, p, r, d, false);
  }

  /** A slot that becomes free leaves room for the key of the pending overload. */
  lemma FitsAfterRelease(k: Core, slot: nat)
    requires OverloadFits(k) && DistinctCodes(k.cache) && slot < |k.cache| && k.cache[slot].code != 0
    ensures OverloadFits(k.(cache := k.cache[slot := k.cache[slot].(code := 0)]))
  {
    var after := k.cache[slot := k.cache[slot].(code := 0)];
    assert after[slot].code == 0;
    if k.po.code != 0 && Find(k.cache, k.po.code) != -1 && k.cache[slot].code != k.po.code {
      UpdateSlot(k.cache, k.cache[slot].code, slot, k.cache[slot].(code := 0), k.po.code);
      assert after[Find(k.cache, k.po.code)].code == k.po.code;
    }
  }

  /** A press that is bound in a free slot, and a release that frees one, where marks can be
      trusted. */
  lemma SlotTrusted(k: Core, slot: nat, e: CacheEntry, r: Core, code: Code, d: Descriptor, pressed: bool)
    requires Trusted(k) && slot < |k.cache| && DistinctCodes(k.cache) && code != 0
    requires if pressed then k.cache[slot].code == 0 && e == CacheEntry(code, d, e.dl, 0) && Find(k.cache, code) == -1
             else k.cache[slot].code == code && e.code == 0
    requires ActedHonestly(k.(cache := k.cache[slot := e]), r, code, d, pressed)
    ensures Trusted(r)
  {
    UpdateSlot(k.cache, code, slot, e, 0);
    if pressed {
      FindUnique(k.cache[slot := e], code, slot);
    }
  }

  lemma PressSolvent(c: Config, k: Core, slot: nat, e: CacheEntry, r: Core)
    requires slot < |k.cache| && k.cache[slot].code == 0 && e.code != 0
    requires CoreOk(c, k) && CoreOk(c, k.(cache := k.cache[slot := e])) && CoreOk(c, r) && Solvent(c, k)
    requires Acted(c, k.(cache := k.cache[slot := e]), r, e.code, e.d, true)
    ensures Solvent(c, r)
  {
    forall l | 0 <= l < |c.layers|
      ensures Net(k.(cache := k.cache[slot := e]), l) >= Net(k, l) - Credit(e.d, l)
    {
      SlotNet(k, slot, e, l);
    }
    BoundPressSolvent(c, k, k.(cache := k.cache[slot := e]), r, e.code, e.d);
  }

  lemma ReleaseSolvent(c: Config, k: Core, slot: nat, r: Core)
    requires CoreOk(c, k) && slot < |k.cache| && k.cache[slot].code != 0
    requires CoreOk(c, k.(cache := k.cache[slot := k.cache[slot].(code := 0)])) && CoreOk(c, r) && Solvent(c, k)
    requires Acted(c, k.(cache := k.cache[slot := k.cache[slot].(code := 0)]), r, k.cache[slot].code, k.cache[slot].d,
             false)
    ensures Solvent(c, r)
  {
    hide OfClass, Positive, ConfigOk, CacheOk, ActedSimply, ActedSteadily, ActedDirectly;
    if !r.lay.strayed {
      var d, e := k.cache[slot].d, k.cache[slot].(code := 0);
      var p := k.(cache := k.cache[slot := e]);
      forall l | 0 <= l < |c.layers| && !IsLayout(c.layers, l)
        ensures Net(p, l) >= Credit(d, l)
      {
        assert Net(k, l) >= 0;
        SlotNet(k, slot, e, l);
      }
      assert Funded(c, p, d, false);
    }
  }

  /** A press that gets through binds its key; whatever happens, every key stays bound but
      the one released. */
  lemma DispatchPressKeeps(c: Config, k: Core, active: seq<ActiveChord>, e: KeyEvent, now: int)
    requires CoreInv(c, k, now) && ActiveOk(c, active) && e.code != 0 && e.pressed && k.po.code == 0
    ensures var r := DispatchKey(c, k, active, e);
            CoreInv(c, r, now) && (OfClass(c, Simple) ==> r.overflow == k.overflow) &&
            forall x: Code | Holds(r.cache, x) :: x == e.code || Holds(k.cache, x)
  {
    hide OutputOk, LayoutsOk, Plain, Even, Solvent, Act, Positive, Trusted;
    var slot, r := SlotFor(k.cache, e.code), DispatchKey(c, k, active, e);
    if Find(k.cache, e.code) == -1 && slot != -1 {
      var (d, dl) := LookupDescriptor(c, k.lay.ls, active, e.code);
      var entry := CacheEntry(e.code, d, dl, 0);
      PutOk(c, k.cache, e.code, entry);
      var p := k.(cache := k.cache[slot := entry]);
      SoundStep(c, k, p, now);
      ActKeeps(c, p, e.code, d, dl, true, e.timestamp, now);
      PressSolvent(c, k, slot, entry, r);
      ClassesNested(c);
      if OfClass(c, Steady) {
        PressEven(c, k, slot, entry, r);
      }
      if OfClass(c, Marked) {
        SlotTrusted(k, slot, entry, r, e.code, d, true);
      }
      if OfClass(c, Simple) {
        PressPlain(c, k, slot, entry, r);
      }
      forall x: Code | Holds(r.cache, x) ensures x == e.code || Holds(k.cache, x) {
        SameCodesSameHolds(p.cache, r.cache, x);
        UpdateSlot(k.cache, e.code, slot, entry, x);
      }
    }
  }

  lemma DispatchReleaseKeeps(c: Config, k: Core, active: seq<ActiveChord>, e: KeyEvent, now: int)
    requires CoreInv(c, k, now) && ActiveOk(c, active) && e.code != 0 && !e.pressed
    ensures var r := DispatchKey(c, k, active, e);
            CoreInv(c, r, now) && (OfClass(c, Simple) ==> r.overflow == k.overflow) &&
            forall x: Code | Holds(r.cache, x) :: x != e.code && Holds(k.cache, x)
  {
    hide OutputOk, LayoutsOk, Plain, Even, Solvent, Act, Positive, Trusted;
    var slot, r := Find(k.cache, e.code), DispatchKey(c, k, active, e);
    if slot != -1 {
      var entry := k.cache[slot].(code := 0);
      assert EntryOk(c, k.cache[slot]);
      RemoveOk(c, k.cache, e.code);
      var p := k.(cache := k.cache[slot := entry]);
      SoundStep(c, k, p, now);
      ActKeeps(c, p, e.code, k.cache[slot].d, k.cache[slot].dl, false, e.timestamp, now);
      ReleaseSolvent(c, k, slot, r);
      ClassesNested(c);
      if OfClass(c, Steady) {
        ReleaseEven(c, k, slot, r);
      }
      if OfClass(c, Marked) {
        SlotTrusted(k, slot, entry, r, e.code, k.cache[slot].d, false);
      }
      if OfClass(c, Simple) {
        ReleasePlain(c, k, slot, r);
      }
      forall x: Code | Holds(r.cache, x) ensures x != e.code && Holds(k.cache, x) {
        SameCodesSameHolds(p.cache, r.cache, x);
        UpdateSlot(k.cache, e.code, slot, entry, x);
      }
    }
  }
}
