/** Layer activation (src/keyboard.c:256-283, 411-464) and the modifiers it puts in force. */
module Layers {
  import opened Keys
  import opened Configs
  import opened State

  /** What deactivate_layer leaves of a layer's state. */
  function Deactivate(lay: Lay, idx: nat): Lay
    requires idx < |lay.ls|
  {
    var s := lay.ls[idx];
    if s.active == 0 then lay.(underflow := true)
    else lay.(ls := lay.ls[idx := s.(active := s.active - 1)])
  }

  function Activate(lay: Lay, idx: nat): Lay
    requires idx < |lay.ls|
  {
    var s := lay.ls[idx];
    lay.(clock := lay.clock + 1,
         ls := lay.ls[idx := s.(activationTime := lay.clock + 1, active := s.active + 1)])
  }

  /** Gives back the oneshot activations of one layer. */
  function ClearOneshotLayer(lay: Lay, i: nat): Lay
    requires i < |lay.ls|
  {
    var s := lay.ls[i];
    lay.(ls := lay.ls[i := s.(active := if s.active >= s.depth then s.active - s.depth else 0, depth := 0)],
         underflow := lay.underflow || s.active < s.depth)
  }

  function ClearOneshotLayers(lay: Lay, n: nat): (r: Lay)
    requires n <= |lay.ls|
    ensures |r.ls| == |lay.ls|
  {
    if n == 0 then lay else ClearOneshotLayer(ClearOneshotLayers(lay, n - 1), n - 1)
  }

  /** clear_oneshot */
  function ClearOneshot(lay: Lay): (r: Lay)
    ensures |r.ls| == |lay.ls|
  {
    ClearOneshotLayers(lay, |lay.ls|).(latch := false, oneshotTimeout := 0)
  }

  /** The loop of clear() up to layer n. */
  function ClearToggles(layers: seq<LayerDef>, lay: Lay, n: nat): (r: Lay)
    requires n <= |lay.ls| == |layers|
    ensures |r.ls| == |lay.ls|
  {
    if n <= 1 then lay
    else
      var p := ClearToggles(layers, lay, n - 1);
      if layers[n - 1].kind != LayoutType && p.ls[n - 1].toggled then
        Deactivate(p.(ls := p.ls[n - 1 := p.ls[n - 1].(toggled := false)]), n - 1)
      else p
  }

  /** The loop of setlayout up to layer n. */
  function ClearLayouts(layers: seq<LayerDef>, lay: Lay, n: nat): (r: Lay)
    requires n <= |lay.ls| == |layers|
    ensures |r.ls| == |lay.ls|
  {
    if n <= 1 then lay
    else
      var p := ClearLayouts(layers, lay, n - 1);
      if layers[n - 1].kind == LayoutType then
        p.(ls := p.ls[n - 1 := p.ls[n - 1].(active := 0)])
      else p
  }

  /** setlayout, after clear(). */
  function SetLayout(layers: seq<LayerDef>, lay: Lay, idx: nat): (r: Lay)
    requires idx < |lay.ls| == |layers|
    ensures |r.ls| == |lay.ls|
  {
    var p := ClearLayouts(layers, lay, |layers|);
    (if idx != 0 then p.(ls := p.ls[idx := p.ls[idx].(activationTime := 1, active := 1)]) else p).(layout := idx)
  }

  /** The release of a oneshot key: its activation becomes a oneshot while the latch holds,
      and is given up otherwise. */
  function ReleaseOneshot(lay: Lay, idx: nat): Lay
    requires idx < |lay.ls|
  {
    if lay.latch then lay.(ls := lay.ls[idx := lay.ls[idx].(depth := lay.ls[idx].depth + 1)])
    else Deactivate(lay, idx)
  }

  /** The layer change of toggle(). */
  function FlipToggle(lay: Lay, idx: nat): Lay
    requires idx < |lay.ls|
  {
    var s := lay.ls[idx];
    var flipped := lay.(ls := lay.ls[idx := s.(toggled := !s.toggled)]);
    if !s.toggled then Activate(flipped, idx) else Deactivate(flipped, idx)
  }

  /** swap() of a toggled layer. */
  function SwapToggled(lay: Lay, dl: nat, idx: nat): (r: Lay)
    requires dl < |lay.ls| && idx < |lay.ls|
    ensures |r.ls| == |lay.ls|
  {
    var off := Deactivate(lay, dl);
    var on := Activate(off.(ls := off.ls[dl := off.ls[dl].(toggled := false)]), idx);
    on.(ls := on.ls[idx := on.ls[idx].(toggled := true)])
  }

  /** swap() of a layer armed as a oneshot. */
  function SwapOneshot(lay: Lay, dl: nat, idx: nat): (r: Lay)
    requires dl < |lay.ls| && idx < |lay.ls| && lay.ls[dl].depth != 0
    ensures |r.ls| == |lay.ls|
  {
    var off := Deactivate(lay, dl);
    var on := Activate(off.(ls := off.ls[dl := off.ls[dl].(depth := lay.ls[dl].depth - 1)]), idx);
    on.(ls := on.ls[idx := on.ls[idx].(depth := on.ls[idx].depth + 1)])
  }

  // --------------------------------------------------------------------------- modifiers

  /** update_mods leaves out an excluded layer and, if it is a composite one, its
      constituents (src/keyboard.c:149-157). */
  predicate Excluded(layers: seq<LayerDef>, excluded: int, l: nat) {
    0 <= excluded < |layers| &&
    (l == excluded || (layers[excluded].kind == Composite && l in layers[excluded].constituents))
  }

  /** The modifiers of the first n layers that are active and not excluded. */
  function ActiveMods(layers: seq<LayerDef>, ls: seq<LayerState>, excluded: int, n: nat): Mods
    requires n <= |ls| == |layers|
  {
    if n == 0 then {}
    else
      var p := ActiveMods(layers, ls, excluded, n - 1);
      if ls[n - 1].active > 0 && !Excluded(layers, excluded, n - 1) then p + layers[n - 1].mods else p
  }

  lemma {:induction false} ActiveModsMeaning(layers: seq<LayerDef>, ls: seq<LayerState>, excluded: int, n: nat,
                                             m: Modifier)
    requires n <= |ls| == |layers|
    ensures m in ActiveMods(layers, ls, excluded, n) <==>
            exists l | 0 <= l < n :: ls[l].active > 0 && !Excluded(layers, excluded, l) && m in layers[l].mods
    decreases n
  {
    if n != 0 {
      ActiveModsMeaning(layers, ls, excluded, n - 1, m);
    }
  }

  // -------------------------------------------------------------------- layer accounting

  /** The activations of a layer that neither a toggle nor a oneshot accounts for. */
  function Slack(s: LayerState): int {
    s.active - s.depth - (if s.toggled then 1 else 0)
  }

  /** The layer a key bound to d holds active until its release, or -1. */
  function HeldLayer(d: Descriptor): int {
    match d
    case Layer(l) => l
    case LayerM(l, _) => l
    case Overload(l, _) => l
    case Oneshot(l) => l
    case OneshotM(l, _) => l
    case OneshotK(l, _) => l
    case _ => -1
  }

  /** 1 if releasing a key bound to d will give up one activation of layer l. */
  function Credit(d: Descriptor, l: nat): nat {
    if HeldLayer(d) == l then 1 else 0
  }

  /** Every layer that is no layout can pay for the release of d. */
  ghost predicate Covers(layers: seq<LayerDef>, lay: Lay, d: Descriptor)
    requires |lay.ls| == |layers|
  {
    forall l | 0 <= l < |layers| && !IsLayout(layers, l) :: Slack(lay.ls[l]) >= Credit(d, l)
  }

  /** Every layer that is no layout gained exactly what `gain` brings and lost exactly what
      `loss` takes, and no assertion failed. */
  ghost predicate Balances(layers: seq<LayerDef>, before: Lay, after: Lay, gain: Descriptor, loss: Descriptor)
    requires |before.ls| == |after.ls| == |layers|
  {
    after.underflow == before.underflow &&
    forall l | 0 <= l < |layers| && !IsLayout(layers, l) ::
      Slack(after.ls[l]) == Slack(before.ls[l]) + Credit(gain, l) - Credit(loss, l)
  }

  /** No layer is toggled or armed as a oneshot. */
  ghost predicate Quiet(lay: Lay) {
    lay.oneshotTimeout == 0 && forall l | 0 <= l < |lay.ls| :: !lay.ls[l].toggled && lay.ls[l].depth == 0
  }

  // ----------------------------------------------------------------------------- layouts

  /** A layout is active, once, exactly if it is main or the current layout; it is never
      toggled or armed as a oneshot. */
  ghost predicate LayoutOk(layers: seq<LayerDef>, s: LayerState, l: int, current: int) {
    s.activationTime >= 0 &&
    (IsLayout(layers, l) ==>
       s.active == (if l == 0 || l == current then 1 else 0) && !s.toggled && s.depth == 0)
  }

  ghost predicate LayoutsOk(layers: seq<LayerDef>, lay: Lay) {
    |lay.ls| == |layers| && IsLayout(layers, 0) && IsLayout(layers, lay.layout) &&
    forall l | 0 <= l < |layers| :: LayoutOk(layers, lay.ls[l], l, lay.layout)
  }

  /** Main is active once, every layout at most once, and at most one layout besides main
      is active. */
  lemma OneLayoutBesidesMain(layers: seq<LayerDef>, lay: Lay)
    requires LayoutsOk(layers, lay)
    ensures lay.ls[0].active == 1
    ensures forall l | IsLayout(layers, l) :: lay.ls[l].active <= 1
    ensures forall l, m | IsLayout(layers, l) && IsLayout(layers, m) && 0 < l < m ::
              lay.ls[l].active == 0 || lay.ls[m].active == 0
  {
    assert LayoutOk(layers, lay.ls[0], 0, lay.layout);
    forall l | IsLayout(layers, l)
      ensures lay.ls[l].active == if l == 0 || l == lay.layout then 1 else 0
    {
      assert LayoutOk(layers, lay.ls[l], l, lay.layout);
    }
  }

  // ------------------------------------------------------------- what the steps preserve

  lemma ActivateKeeps(layers: seq<LayerDef>, lay: Lay, d: Descriptor, idx: nat)
    requires LayoutsOk(layers, lay) && idx < |layers| && !IsLayout(layers, idx) && HeldLayer(d) == idx
    ensures LayoutsOk(layers, Activate(lay, idx))
    ensures Balances(layers, lay, Activate(lay, idx), d, Nothing)
  {
  }

  lemma DeactivateKeeps(layers: seq<LayerDef>, lay: Lay, d: Descriptor, idx: nat)
    requires LayoutsOk(layers, lay) && idx < |layers| && !IsLayout(layers, idx) && HeldLayer(d) == idx
    ensures LayoutsOk(layers, Deactivate(lay, idx))
    ensures Covers(layers, lay, d) ==> Balances(layers, lay, Deactivate(lay, idx), Nothing, d)
  {
    if Covers(layers, lay, d) {
      assert Slack(lay.ls[idx]) >= Credit(d, idx);
    }
  }

  lemma {:induction false} ClearOneshotLayersKeeps(layers: seq<LayerDef>, lay: Lay, n: nat)
    requires LayoutsOk(layers, lay) && n <= |layers|
    ensures var r := ClearOneshotLayers(lay, n);
            LayoutsOk(layers, r) && r.oneshotTimeout == lay.oneshotTimeout && r.strayed == lay.strayed &&
            (forall l | 0 <= l < |layers| ::
               r.ls[l].toggled == lay.ls[l].toggled && r.ls[l].depth == if l < n then 0 else lay.ls[l].depth) &&
            (Covers(layers, lay, Nothing) ==> Balances(layers, lay, r, Nothing, Nothing))
    decreases n
  {
    if n != 0 {
      ClearOneshotLayersKeeps(layers, lay, n - 1);
      var p := ClearOneshotLayers(lay, n - 1);
      assert LayoutOk(layers, p.ls[n - 1], n - 1, p.layout);
    }
  }

  /** clear_oneshot disarms every oneshot, gives back exactly their activations and leaves
      layouts and toggles alone. */
  lemma ClearOneshotKeeps(layers: seq<LayerDef>, lay: Lay)
    requires LayoutsOk(layers, lay)
    ensures var r := ClearOneshot(lay);
            LayoutsOk(layers, r) && !r.latch && r.oneshotTimeout == 0 && r.strayed == lay.strayed &&
            (forall l | 0 <= l < |layers| :: r.ls[l].toggled == lay.ls[l].toggled && r.ls[l].depth == 0) &&
            (Covers(layers, lay, Nothing) ==> Balances(layers, lay, r, Nothing, Nothing))
  {
    ClearOneshotLayersKeeps(layers, lay, |layers|);
  }

  lemma ReleaseOneshotKeeps(layers: seq<LayerDef>, lay: Lay, d: Descriptor, idx: nat)
    requires LayoutsOk(layers, lay) && idx < |layers| && !IsLayout(layers, idx) && HeldLayer(d) == idx
    ensures LayoutsOk(layers, ReleaseOneshot(lay, idx))
    ensures Covers(layers, lay, d) ==> Balances(layers, lay, ReleaseOneshot(lay, idx), Nothing, d)
  {
    assert LayoutOk(layers, lay.ls[idx], idx, lay.layout);
    DeactivateKeeps(layers, lay, d, idx);
  }

  lemma ToggleKeeps(layers: seq<LayerDef>, lay: Lay, idx: nat)
    requires LayoutsOk(layers, lay) && idx < |layers| && !IsLayout(layers, idx)
    ensures LayoutsOk(layers, FlipToggle(lay, idx))
    ensures FlipToggle(lay, idx).oneshotTimeout == lay.oneshotTimeout && FlipToggle(lay, idx).strayed == lay.strayed
    ensures Covers(layers, lay, Nothing) ==> Balances(layers, lay, FlipToggle(lay, idx), Nothing, Nothing)
  {
    assert LayoutOk(layers, lay.ls[idx], idx, lay.layout);
    if Covers(layers, lay, Nothing) {
      assert Slack(lay.ls[idx]) >= 0;
    }
  }

  /** swap() moves between layers that are no layouts. */
  lemma SwapKeepsLayouts(layers: seq<LayerDef>, lay: Lay, dl: nat, idx: nat)
    requires LayoutsOk(layers, lay) && dl < |layers| && idx < |layers| && !IsLayout(layers, idx)
    ensures lay.ls[dl].toggled ==> LayoutsOk(layers, SwapToggled(lay, dl, idx)) &&
                                   SwapToggled(lay, dl, idx).oneshotTimeout == lay.oneshotTimeout
    ensures lay.ls[dl].depth != 0 ==> LayoutsOk(layers, SwapOneshot(lay, dl, idx)) &&
                                      SwapOneshot(lay, dl, idx).oneshotTimeout == lay.oneshotTimeout
    ensures !IsLayout(layers, dl) ==> LayoutsOk(layers, Activate(Deactivate(lay, dl), idx))
  {
    assert LayoutOk(layers, lay.ls[dl], dl, lay.layout);
  }

  /** One turn of clear()'s loop. */
  lemma UntoggleKeeps(layers: seq<LayerDef>, lay: Lay, i: nat)
    requires LayoutsOk(layers, lay) && i < |layers| && !IsLayout(layers, i) && lay.ls[i].toggled
    ensures var r := Deactivate(lay.(ls := lay.ls[i := lay.ls[i].(toggled := false)]), i);
            LayoutsOk(layers, r) && r.oneshotTimeout == lay.oneshotTimeout && r.strayed == lay.strayed &&
            (forall l | 0 <= l < |layers| :: r.ls[l].depth == lay.ls[l].depth) && !r.ls[i].toggled &&
            (forall l | 0 <= l < |layers| && l != i :: r.ls[l] == lay.ls[l]) &&
            (Covers(layers, lay, Nothing) ==> Balances(layers, lay, r, Nothing, Nothing))
  {
    assert LayoutOk(layers, lay.ls[i], i, lay.layout);
    if Covers(layers, lay, Nothing) {
      assert Slack(lay.ls[i]) >= 0;
    }
  }

  lemma {:induction false} ClearTogglesKeeps(layers: seq<LayerDef>, lay: Lay, n: nat)
    requires LayoutsOk(layers, lay) && n <= |layers|
    ensures var r := ClearToggles(layers, lay, n);
            LayoutsOk(layers, r) && r.oneshotTimeout == lay.oneshotTimeout && r.strayed == lay.strayed &&
            r.latch == lay.latch &&
            (forall l | 0 <= l < |layers| :: r.ls[l].depth == lay.ls[l].depth) &&
            (forall l | 0 <= l < n :: !r.ls[l].toggled) &&
            (Covers(layers, lay, Nothing) ==> Balances(layers, lay, r, Nothing, Nothing))
    decreases n
  {
    if n > 1 {
      ClearTogglesKeeps(layers, lay, n - 1);
      var p := ClearToggles(layers, lay, n - 1);
      assert LayoutOk(layers, p.ls[n - 1], n - 1, p.layout);
      if layers[n - 1].kind != LayoutType && p.ls[n - 1].toggled {
        UntoggleKeeps(layers, p, n - 1);
      }
    } else if n == 1 {
      assert LayoutOk(layers, lay.ls[0], 0, lay.layout);
    }
  }

  lemma {:induction false} ClearLayoutsEffect(layers: seq<LayerDef>, lay: Lay, n: nat)
    requires |lay.ls| == |layers| && n <= |layers|
    ensures var r := ClearLayouts(layers, lay, n);
            r == lay.(ls := r.ls) &&
            forall l | 0 <= l < |layers| ::
              r.ls[l] == if 0 < l < n && IsLayout(layers, l) then lay.ls[l].(active := 0) else lay.ls[l]
    decreases n
  {
    if n > 1 {
      ClearLayoutsEffect(layers, lay, n - 1);
    }
  }

  /** setlayout makes its layout the only one besides main and touches no other layer. */
  lemma SetLayoutKeeps(layers: seq<LayerDef>, lay: Lay, idx: nat)
    requires LayoutsOk(layers, lay) && IsLayout(layers, idx)
    ensures LayoutsOk(layers, SetLayout(layers, lay, idx))
    ensures SetLayout(layers, lay, idx).oneshotTimeout == lay.oneshotTimeout
    ensures SetLayout(layers, lay, idx).strayed == lay.strayed
    ensures Balances(layers, lay, SetLayout(layers, lay, idx), Nothing, Nothing)
    ensures forall l | 0 <= l < |layers| && !IsLayout(layers, l) :: SetLayout(layers, lay, idx).ls[l] == lay.ls[l]
  {
    ClearLayoutsEffect(layers, lay, |layers|);
    var r := SetLayout(layers, lay, idx);
    forall l | 0 <= l < |layers| ensures LayoutOk(layers, r.ls[l], l, idx) {
      assert LayoutOk(layers, lay.ls[l], l, lay.layout);
    }
  }
}
