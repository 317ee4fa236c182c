/** Tap-hold resolution and the dispatch of a key event (src/keyboard.c:1077-1105,
    1150-1169, 1199-1246), as functions on values. */
module Pending {
  import opened Keys
  import opened Configs
  import opened State
  import opened Layers
  import opened Cache
  import opened Actions
  import opened Events

  lemma PendingWeightStep(k: Core, r: Core, resolved: nat, d: Descriptor)
    requires Rank(d) < resolved
    ensures (OverloadRank(r.po) <= Max(OverloadRank(k.po), Rank(d)) && TimeoutRank(r.pt) <= Rank(d) &&
             resolved == TimeoutRank(k.pt)) ==> PendingWeight(r) <= PendingWeight(k)
    ensures (OverloadRank(r.po) <= Rank(d) && TimeoutRank(r.pt) <= Max(TimeoutRank(k.pt), Rank(d)) &&
             resolved == OverloadRank(k.po)) ==> PendingWeight(r) < PendingWeight(k)
  {
    WeightMonotone(Rank(d), resolved);
    if OverloadRank(r.po) <= Max(OverloadRank(k.po), Rank(d)) && TimeoutRank(r.pt) <= Rank(d) {
      WeightMonotone(OverloadRank(r.po), Max(OverloadRank(k.po), Rank(d)));
      WeightMonotone(TimeoutRank(r.pt), Rank(d));
    }
    if OverloadRank(r.po) <= Rank(d) && TimeoutRank(r.pt) <= Max(TimeoutRank(k.pt), Rank(d)) {
      WeightMonotone(OverloadRank(r.po), Rank(d));
      WeightMonotone(TimeoutRank(r.pt), Max(TimeoutRank(k.pt), Rank(d)));
    }
  }

  /** The action a pending timeout() resolves to at a time. */
  function TimeoutAction(c: Config, pt: PendingTimeout, time: nat): (r: Descriptor)
    requires TimeoutOk(c, pt) && pt.code != 0
    ensures Allowed(c, r) && Rank(r) < TimeoutRank(pt)
  {
    if time >= pt.expiration then pt.action2 else pt.action1
  }

  /** handle_pending_timeout */
  function HandlePendingTimeout(c: Config, k: Core, e: KeyEvent): (r: Core)
    requires CoreOk(c, k)
    ensures CoreOk(c, r) && Calms(k, r)
  {
    var pt, time := k.pt, e.timestamp;
    if pt.code == 0 || (!e.pressed && pt.code == e.code && time == pt.activationTime) then k
    else if pt.spontaneous then
      if time >= pt.expiration || e.code != 0 then TapTimeout(c, k, time) else k
    else if time >= pt.expiration || (e.code != 0 && (e.pressed || e.code == pt.code)) then HoldTimeout(c, k, time)
    else k
  }

  /** No more nesting is pending than before, a pending overload stays pending, and timers
      are only added. */
  ghost predicate Calms(k: Core, r: Core) {
    (k.overflow ==> r.overflow) && (k.po.code != 0 ==> r.po.code != 0) && k.timers <= r.timers &&
    PendingWeight(r) <= PendingWeight(k)
  }

  /** The key of the pending timeout() was released at once: its action is tapped. */
  function TapTimeout(c: Config, k: Core, time: nat): (r: Core)
    requires CoreOk(c, k) && k.pt.code != 0
    ensures CoreOk(c, r) && Calms(k, r)
  {
    var pt := k.pt;
    var action := TimeoutAction(c, pt, time);
    var p := Act(c, k.(pt := pt.(code := 0)), pt.code, action, pt.dl, true, time);
    var r := Act(c, p, pt.code, action, pt.dl, false, time);
    PendingWeightStep(k, r, TimeoutRank(pt), action);
    r
  }

  /** The key of the pending timeout() is held: it is bound to its action. */
  function HoldTimeout(c: Config, k: Core, time: nat): (r: Core)
    requires CoreOk(c, k) && k.pt.code != 0
    ensures CoreOk(c, r) && Calms(k, r)
  {
    var pt := k.pt;
    var action := TimeoutAction(c, pt, time);
    var entry := CacheEntry(pt.code, action, pt.dl, 0);
    PutOk(c, k.cache, pt.code, entry);
    var p := k.(pt := pt.(code := 0), cache := Put(k.cache, pt.code, entry));
    var r := Act(c, p, pt.code, action, pt.dl, true, time);
    PendingWeightStep(k, r, TimeoutRank(pt), action);
    r
  }

  // ------------------------------------------------------- the key event that gets through

  /** The expiry of the armed oneshots. */
  function ExpireOneshots(c: Config, k: Core, time: nat): (r: Core)
    requires CoreOk(c, k)
    ensures CoreOk(c, r) && r == k.(lay := r.lay, out := r.out)
  {
    if k.lay.oneshotTimeout != 0 && time >= k.lay.oneshotTimeout then
      var lay := ClearOneshot(k.lay);
      k.(lay := lay, out := Sync(c, lay.ls, k.out))
    else k
  }

  /** The active macro ends with a key event and is repeated when its time has come. */
  function RepeatMacro(c: Config, k: Core, e: KeyEvent): (r: Core)
    requires CoreOk(c, k)
    ensures CoreOk(c, r) && r == k.(out := r.out, mac := r.mac, timers := r.timers, overflow := r.overflow)
    ensures (k.overflow ==> r.overflow) && k.timers <= r.timers
  {
    if k.mac.active.None? then k
    else if e.code != 0 then
      k.(mac := k.mac.(active := None), out := Sync(c, k.lay.ls, k.out))
    else if e.timestamp >= k.mac.timeout then
      var (out, executionTime) := ExecuteMacro(c, k.lay.ls, k.out, k.mac.layer, c.macros[k.mac.active.value]);
      var next := executionTime + e.timestamp + k.mac.interval;
      Schedule(k.(out := out, mac := k.mac.(timeout := next)), next)
    else k
  }

  /** A press is bound, cached and acted on unless its key is cached already or the cache is
      full; a release is acted on with the action its press was bound to. */
  function DispatchKey(c: Config, k: Core, active: seq<ActiveChord>, e: KeyEvent): (r: Core)
    requires CoreOk(c, k) && ActiveOk(c, active) && e.code != 0
    ensures CoreOk(c, r) && (k.overflow ==> r.overflow) && (k.po.code != 0 ==> r.po.code != 0) && k.timers <= r.timers
  {
    var slot := Find(k.cache, e.code);
    if e.pressed then
      if slot != -1 then k
      else
        var (d, dl) := LookupDescriptor(c, k.lay.ls, active, e.code);
        var entry := CacheEntry(e.code, d, dl, 0);
        if SlotFor(k.cache, e.code) == -1 then k
        else
          PutOk(c, k.cache, e.code, entry);
          Act(c, k.(cache := Put(k.cache, e.code, entry)), e.code, d, dl, true, e.timestamp)
    else if slot == -1 then k
    else
      assert EntryOk(c, k.cache[slot]);
      RemoveOk(c, k.cache, e.code);
      Act(c, k.(cache := Remove(k.cache, e.code)), e.code, k.cache[slot].d, k.cache[slot].dl, false, e.timestamp)
  }

  // ------------------------------------------------------------------ the pending overload

  /** The queue holds an event with a code. */
  predicate Queued(queue: seq<KeyEvent>, code: Code) {
    exists i | 0 <= i < |queue| :: queue[i].code == code
  }

  /** What a pending overload resolves to on an event; Nothing if it stays pending. */
  function Resolution(po: PendingOverload, e: KeyEvent): Descriptor {
    if e.timestamp >= po.expiration then po.action2
    else if e.code == po.code then po.action1
    else if po.resolveOnInterrupt && !e.pressed then po.action2
    else Nothing
  }

  /** The key of the pending overload is bound to one of its actions. */
  function ResolveOverload(c: Config, k: Core, action: Descriptor, time: nat): (r: Core)
    requires CoreOk(c, k) && k.po.code != 0 && (action == k.po.action1 || action == k.po.action2)
    ensures CoreOk(c, r) && (k.overflow ==> r.overflow) && k.timers <= r.timers && PendingWeight(r) < PendingWeight(k)
  {
    assert Allowed(c, action);
    var po, entry := k.po, CacheEntry(0, action, k.po.dl, 0);
    PutOk(c, k.cache, po.code, entry);
    var p := k.(po := po.(code := 0), cache := Put(k.cache, po.code, entry));
    var r := Act(c, p, po.code, action, po.dl, true, time);
    PendingWeightStep(k, r, OverloadRank(po), action);
    r
  }
}
