/** What is due, and that it happens: the timer list, the timeout kbd_process_events returns,
    and what an event leaves overdue (src/keyboard.c:467-489, 1077-1274). */
module Deadlines {
  import opened Keys
  import opened Output
  import opened Configs
  import opened State
  import opened Layers
  import opened Cache
  import opened Actions
  import opened Events
  import opened Pending
  import opened Machine
  import opened ActionLaws
  import opened CoreLaws
  import opened Taps
  import opened Streams
  import opened RunLaws
  import opened Runs

  // ------------------------------------------------------------------- no deadline is missed

  /** The next deadline is `timeout` after `time`; there is none if it is 0. */
  ghost predicate Rested(k: Kbd, time: nat, timeout: nat) {
    (forall t <- k.core.timers :: t > time) &&
    timeout == if k.core.timers == [] then 0 else Minimum(k.core.timers) - time
  }

  lemma ProcessEventRests(c: Config, k: Kbd, e: KeyEvent)
    requires Ok(c, k)
    ensures Rested(ProcessEvent(c, k, e).0, e.timestamp, ProcessEvent(c, k, e).1)
  {
    hide HandleChord, PassChord;
  }

  /** What kbd_process_events returns is what its last event returned. */
  lemma {:induction false} ProcessEventsRests(c: Config, k: Kbd, events: seq<KeyEvent>, i: nat, timeout: nat,
                                              timeoutTs: nat, r: (Kbd, nat))
    requires Ok(c, k) && i < |events| && r == ProcessEvents(c, k, events, i, timeout, timeoutTs)
    ensures !r.0.core.overflow ==> Rested(r.0, TimeOf(events), r.1)
    decreases Mode(k), Load(k) + |events| - i, PendingWeight(k.core), 1, |events| - i,
              TickRoom(events, i, timeout, timeoutTs)
  {
    hide ProcessEvent;
    if !k.core.overflow {
      if timeout > 0 && timeoutTs <= events[i].timestamp {
        var (p, t) := ProcessEvent(c, k, KeyEvent(0, false, timeoutTs));
        TickTurnUnfolds(c, k, events, i, timeout, timeoutTs, p, t);
        ProcessEventsRests(c, p, events, i, t, timeoutTs + t, r);
      } else {
        var (p, t) := ProcessEvent(c, k, events[i]);
        EventTurnUnfolds(c, k, events, i, timeout, timeoutTs, p, t);
        if i + 1 == |events| {
          ProcessEventRests(c, k, events[i]);
        } else {
          ProcessEventsRests(c, p, events, i + 1, t, events[i].timestamp + t, r);
        }
      }
    }
  }

  /** Something is due to happen at this time. A chord that waits to be held is due the hold
      timeout after its last key if it was matched without ambiguity, or if the tick that
      ended its disambiguation was not late; HoldDueInTime says what happens otherwise. */
  predicate IsDeadline(c: Config, k: Kbd, deadline: int) {
    (k.core.pt.code != 0 && deadline == k.core.pt.expiration) ||
    (k.core.po.code != 0 && deadline == k.core.po.expiration) ||
    (k.core.lay.oneshotTimeout != 0 && deadline == k.core.lay.oneshotTimeout) ||
    (k.core.mac.active.Some? && deadline == k.core.mac.timeout) ||
    (k.chords.phase == PendingDisambiguation && deadline == k.chords.lastCodeTime + c.chordInterkeyTimeout) ||
    (k.chords.phase == PendingHoldTimeout && deadline == k.chords.lastCodeTime + c.chordHoldTimeout + k.log.late)
  }

  lemma DeadlineListed(c: Config, k: Kbd, now: int, deadline: int)
    requires Inv(c, k, now) && !k.core.overflow && IsDeadline(c, k, deadline) && deadline > now
    ensures deadline in k.core.timers
  {
    hide OfClass, Positive, ChordFree, ConfigOk, OutputOk, LayoutsOk, CacheOk, Solvent, Even, Plain;
    assert Facts(c, k, now);
  }

  /** No deadline is missed: whatever is still to happen when kbd_process_events returns,
      and be it the end of a chord being recognised, the timeout it returns is positive and
      does not reach past it. */
  lemma NoDeadlineMissed(c: Config, p: Kbd, calls: seq<seq<KeyEvent>>, batch: seq<KeyEvent>, deadline: int)
    requires Reached(c, p, calls) && Ok(c, p) && batch != [] && Clock(calls, |calls|) <= TimeOf(batch)
    requires forall j | 0 <= j < |batch| :: batch[j].timestamp <= TimeOf(batch)
    ensures var (k, timeout) := ProcessEvents(c, p, batch, 0, 0, 0);
            !k.core.overflow && IsDeadline(c, k, deadline) && deadline > TimeOf(batch) ==>
              0 < timeout <= deadline - TimeOf(batch)
  {
    hide ProcessEvents;
    assert Inv(c, p, Clock(calls, |calls|)) by { ReachedFacts(c, p, calls); }
    InvLater(c, p, Clock(calls, |calls|), TimeOf(batch));
    var (k, timeout) := ProcessEvents(c, p, batch, 0, 0, 0);
    ProcessEventsKeeps(c, p, batch, 0, 0, 0, k, Rest(batch, 0), TimeOf(batch));
    ProcessEventsRests(c, p, batch, 0, 0, 0, (k, timeout));
    if !k.core.overflow && IsDeadline(c, k, deadline) && deadline > TimeOf(batch) {
      DeadlineListed(c, k, TimeOf(batch), deadline);
    }
  }

  /** A call with one event. */
  lemma OneEvent(c: Config, k: Kbd, e: KeyEvent)
    requires Ok(c, k) && !k.core.overflow
    ensures ProcessEvents(c, k, [e], 0, 0, 0) == ProcessEvent(c, k, e)
  {
    var (p, t) := ProcessEvent(c, k, e);
    EventTurnUnfolds(c, k, [e], 0, 0, 0, p, t);
    BatchEnds(c, p, [e], 1, t, e.timestamp + t);
  }

  /** A match without ambiguity is due the hold timeout after its last key, on time and listed. */
  lemma HoldStarts(c: Config, k: Kbd, s: Chords, time: nat)
    requires Ok(c, k) && Mode(k) == 1 && ResolvableOk(c, k, s) && s.phase != Resolving && |s.queue| <= QUEUE_SIZE
    requires (forall i | 0 <= i < |s.queue| :: s.queue[i].pressed) && s.match_.Some? && c.chordHoldTimeout != 0
    ensures var r := MatchChord(c, k, s, 2, time);
            r.chords.phase == PendingHoldTimeout && r.chords.lastCodeTime == time && r.log.late == 0 &&
            (r.core.overflow || time + c.chordHoldTimeout in r.core.timers)
  {
    hide CoreOk, ResolveChord;
  }

  /** A tick settles a matched chord that waits to be held as soon as the hold timeout has
      passed since its last key: this is when it is due. */
  lemma HoldDue(c: Config, k: Kbd, time: nat)
    requires Ok(c, k) && k.chords.phase == PendingHoldTimeout
    ensures HoldChord(c, k, KeyEvent(0, false, time)).1 <==> time >= k.chords.lastCodeTime + c.chordHoldTimeout
  {
    hide ResolveChord;
  }

  /** When a tick ends the disambiguation of a matched chord, before the hold timeout has
      passed, the timeout that is returned reaches to when the chord is due if and only if the
      tick came exactly the interkey timeout after the last key, or something else is due in
      between. */
  lemma HoldDueInTime(c: Config, k: Kbd, time: nat)
    requires Ok(c, k) && !k.core.overflow && |k.core.timers| < MAX_TIMEOUTS
    requires k.chords.phase == PendingDisambiguation && k.chords.match_.Some?
    requires k.chords.lastCodeTime + c.chordInterkeyTimeout <= time < k.chords.lastCodeTime + c.chordHoldTimeout
    ensures var (r, timeout) := ProcessEvents(c, k, [KeyEvent(0, false, time)], 0, 0, 0);
            var due := k.chords.lastCodeTime + c.chordHoldTimeout;
            r.chords.phase == PendingHoldTimeout && r.chords.lastCodeTime == k.chords.lastCodeTime &&
            r.log.late == time - (k.chords.lastCodeTime + c.chordInterkeyTimeout) &&
            timeout > 0 &&
            (timeout <= due - time <==>
               time == k.chords.lastCodeTime + c.chordInterkeyTimeout || exists t <- k.core.timers :: time < t <= due)
  {
    hide Ok, ProcessEvents, HandleChord, PassChord, Later, Minimum;
    var tick := KeyEvent(0, false, time);
    OneEvent(c, k, tick);
    var p := MatchWaits(c, k, time);
    assert ProcessEvent(c, k, tick) == Exit(p, time);
    ListedInTime(k.core.timers, time + (c.chordHoldTimeout - c.chordInterkeyTimeout), time,
      k.chords.lastCodeTime + c.chordHoldTimeout);
  }

  /** The tick that ends the disambiguation of a matched chord. */
  lemma MatchWaits(c: Config, k: Kbd, time: nat) returns (p: Kbd)
    requires Ok(c, k) && !k.core.overflow && |k.core.timers| < MAX_TIMEOUTS
    requires k.chords.phase == PendingDisambiguation && k.chords.match_.Some?
    requires k.chords.lastCodeTime + c.chordInterkeyTimeout <= time < k.chords.lastCodeTime + c.chordHoldTimeout
    ensures HandleChord(c, k, KeyEvent(0, false, time)) == (p, true)
    ensures p.chords == k.chords.(phase := PendingHoldTimeout)
    ensures p.log == k.log.(late := time - k.chords.lastCodeTime - c.chordInterkeyTimeout)
    ensures p.core.timers == k.core.timers + [time + (c.chordHoldTimeout - c.chordInterkeyTimeout)]
  {
    hide CoreOk, ChordsOk, ResolveChord, ProcessEvent;
    p := DisambiguationTick(c, k, time).0;
  }

  /** The least of the deadlines left reaches to a time if and only if one of them does. */
  lemma ListedInTime(timers: seq<int>, listed: int, time: int, due: int)
    requires time < due <= listed
    ensures var left := Later(timers + [listed], time);
            left != [] && (Minimum(left) <= due <==> due == listed || exists t <- timers :: time < t <= due) &&
            time < Minimum(left)
  {
    var left := Later(timers + [listed], time);
    assert listed in timers + [listed];
    assert listed in left;
    assert forall t :: t in left <==> t > time && (t == listed || t in timers);
  }

  // ---------------------------------------------------------------- what an action makes due

  /** What is due of an action afterwards is to come, or was due before. */
  predicate Arms(k: Core, r: Core, time: int) {
    (r.pt.code != 0 ==> r.pt.expiration > time || (k.pt.code != 0 && r.pt.expiration == k.pt.expiration)) &&
    (r.po.code != 0 ==> r.po.expiration > time || r.po == k.po) &&
    (r.lay.oneshotTimeout != 0 ==> r.lay.oneshotTimeout > time || r.lay.oneshotTimeout == k.lay.oneshotTimeout) &&
    (r.mac.active.Some? ==> r.mac.timeout > time || (k.mac.active.Some? && r.mac.timeout == k.mac.timeout))
  }

  lemma ArmsThen(k: Core, p: Core, r: Core, time: int)
    requires Arms(k, p, time) && Arms(p, r, time)
    ensures Arms(k, r, time)
  {
  }

  lemma {:induction false} ClearTogglesTimeout(layers: seq<LayerDef>, lay: Lay, n: nat)
    requires n <= |lay.ls| == |layers|
    ensures ClearToggles(layers, lay, n).oneshotTimeout == lay.oneshotTimeout
    decreases n
  {
    if n > 1 {
      ClearTogglesTimeout(layers, lay, n - 1);
    }
  }

  /** process_descriptor makes nothing due that is not to come, if no timeout is 0. */
  lemma {:induction false} ActArms(c: Config, k: Core, code: Code, d: Descriptor, dl: nat, pressed: bool, time: int)
    requires CoreOk(c, k) && Allowed(c, d) && dl < |c.layers| && code != 0 && Positive(c)
    ensures Arms(k, Act(c, k, code, d, dl, pressed, time), time)
    decreases Height(d), 3
  {
    hide CoreOk, OfClass;
    SwitchArms(c, ActMacroFirst(c, k, d, dl, pressed), code, d, dl, pressed, time);
  }

  lemma {:induction false} SwitchArms(c: Config, k: Core, code: Code, d: Descriptor, dl: nat, pressed: bool, time: int)
    requires CoreOk(c, k) && Allowed(c, d) && dl < |c.layers| && code != 0 && Positive(c)
    ensures Arms(k, ActSwitch(c, k, code, d, dl, pressed, time), time)
    decreases Height(d), 2
  {
    hide CoreOk, Arms, Positive, OfClass;
    if d.OneshotK? || d.Overload? || d.OverloadIdle? || d.Repeat? {
      NestedArms(c, k, code, d, dl, pressed, time);
    } else if d.OverloadTimeout? || d.OverloadTimeoutTap? || d.Timeout? || d.MacroOnce? || d.Macro2? {
      PendingArms(c, k, code, d, dl, pressed, time);
    } else if d.Clear? || d.ClearM? || d.Layout? {
      ClearArms(c, k, code, d, dl, pressed, time);
    } else if d.Swap? || d.SwapM? {
      SwapArms(c, k, code, d, dl, pressed, time);
    } else {
      LayerArms(c, k, code, d, dl, pressed, time);
    }
  }

  lemma PendingArms(c: Config, k: Core, code: Code, d: Descriptor, dl: nat, pressed: bool, time: int)
    requires CoreOk(c, k) && Allowed(c, d) && dl < |c.layers| && code != 0 && Positive(c)
    requires d.OverloadTimeout? || d.OverloadTimeoutTap? || d.Timeout? || d.MacroOnce? || d.Macro2?
    ensures Arms(k, ActSwitch(c, k, code, d, dl, pressed, time), time)
  {
    hide CoreOk, ExecuteMacro;
    assert InClass(Timed, c.descriptors, d);
  }

  lemma ClearArms(c: Config, k: Core, code: Code, d: Descriptor, dl: nat, pressed: bool, time: int)
    requires CoreOk(c, k) && Allowed(c, d) && dl < |c.layers| && code != 0
    requires d.Clear? || d.ClearM? || d.Layout?
    ensures Arms(k, ActSwitch(c, k, code, d, dl, pressed, time), time)
  {
    LayersExist(c, k);
    hide CoreOk, ExecuteMacro, OfClass, UpdateMods, ResetKeys;
    ClearTogglesTimeout(c.layers, ClearOneshot(k.lay), |c.layers|);
    if d.Layout? {
      ClearLayoutsEffect(c.layers, ClearAll(c, k).lay, |c.layers|);
    }
  }

  lemma LayersExist(c: Config, k: Core)
    requires CoreOk(c, k)
    ensures |k.lay.ls| == |c.layers| && |k.out.keys| == 256
  {
  }

  lemma SwapArms(c: Config, k: Core, code: Code, d: Descriptor, dl: nat, pressed: bool, time: int)
    requires CoreOk(c, k) && Allowed(c, d) && dl < |c.layers| && code != 0 && IsSwap(d)
    ensures Arms(k, ActSwitch(c, k, code, d, dl, pressed, time), time)
  {
    hide CoreOk, ExecuteMacro, OfClass, UpdateMods, ActSwap;
    SwapKeepsDeadlines(c, k, d, dl);
  }

  lemma SwapKeepsDeadlines(c: Config, k: Core, d: Descriptor, dl: nat)
    requires CoreOk(c, k) && Allowed(c, d) && dl < |c.layers| && IsSwap(d)
    ensures var r := ActSwap(c, k, d, dl);
            r.pt == k.pt && r.po == k.po && r.mac == k.mac && r.lay.oneshotTimeout == k.lay.oneshotTimeout
  {
    hide CacheOk, ConfigOk, TimeoutOk, OverloadOk, RepeatableOk, OfClass, FindActivator;
    SwapRecorded(c, k, d, dl);
    SwapUnfolds(c, k, d, dl, ActSwap(c, k, d, dl), FindActivator(c, k.cache, dl, |k.cache|));
    hide ActSwap, MarkLayer;
  }

  lemma LayerArms(c: Config, k: Core, code: Code, d: Descriptor, dl: nat, pressed: bool, time: int)
    requires CoreOk(c, k) && Allowed(c, d) && dl < |c.layers| && code != 0 && Positive(c)
    requires !(d.OneshotK? || d.Overload? || d.OverloadIdle? || d.Repeat?)
    requires !(d.OverloadTimeout? || d.OverloadTimeoutTap? || d.Timeout? || d.MacroOnce? || d.Macro2?)
    requires !(d.Clear? || d.ClearM? || d.Layout? || d.Swap? || d.SwapM?)
    ensures Arms(k, ActSwitch(c, k, code, d, dl, pressed, time), time)
  {
    hide CoreOk, ExecuteMacro, OfClass, UpdateMods;
  }

  lemma {:induction false} NestedArms(c: Config, k: Core, code: Code, d: Descriptor, dl: nat, pressed: bool, time: int)
    requires CoreOk(c, k) && Allowed(c, d) && dl < |c.layers| && code != 0 && Positive(c)
    requires d.OneshotK? || d.Overload? || d.OverloadIdle? || d.Repeat?
    ensures Arms(k, ActSwitch(c, k, code, d, dl, pressed, time), time)
    decreases Height(d), 1
  {
    hide CoreOk, Arms, Positive, OfClass, ActOneshotK, ActOverload, ActOverloadIdle, ActRepeat;
    match d
    case OneshotK(_, _) => OneshotKArms(c, k, code, d, dl, pressed, time);
    case Overload(_, _) => OverloadArms(c, k, code, d, dl, pressed, time);
    case OverloadIdle(_, _, _) => OverloadIdleArms(c, k, code, d, dl, pressed, time);
    case Repeat => RepeatArms(c, k, code, dl, pressed, time);
  }

  lemma {:induction false} OneshotKArms(c: Config, k: Core, code: Code, d: Descriptor, dl: nat, pressed: bool,
                                        time: int)
    requires CoreOk(c, k) && d.OneshotK? && Allowed(c, d) && dl < |c.layers| && code != 0 && Positive(c)
    ensures Arms(k, ActOneshotK(c, k, code, d, dl, pressed, time), time)
    decreases Height(d), 0
  {
    TableAllowed(c, d.key);
    var key := c.descriptors[d.key];
    ActArms(c, k, code, key, dl, pressed, time);
    hide CoreOk, OfClass, Act, UpdateMods;
  }

  lemma {:induction false} OverloadIdleArms(c: Config, k: Core, code: Code, d: Descriptor, dl: nat, pressed: bool,
                                            time: int)
    requires CoreOk(c, k) && d.OverloadIdle? && Allowed(c, d) && dl < |c.layers| && code != 0 && Positive(c)
    ensures Arms(k, ActOverloadIdle(c, k, code, d, dl, pressed, time), time)
    decreases Height(d), 0
  {
    if pressed {
      var action := IdleAction(c, k, d, time);
      ActArms(c, k, code, action, dl, true, time);
      hide CoreOk, OfClass, Act;
    }
  }

  lemma {:induction false} RepeatArms(c: Config, k: Core, code: Code, dl: nat, pressed: bool, time: int)
    requires CoreOk(c, k) && dl < |c.layers| && code != 0 && Positive(c)
    ensures Arms(k, ActRepeat(c, k, code, dl, pressed, time), time)
    decreases Height(Repeat), 0
  {
    if pressed {
      ActArms(c, k, code, k.memo.repeatable, dl, true, time);
      hide CoreOk, OfClass, Act;
    }
  }

  lemma {:induction false} OverloadArms(c: Config, k: Core, code: Code, d: Descriptor, dl: nat, pressed: bool,
                                        time: int)
    requires CoreOk(c, k) && d.Overload? && Allowed(c, d) && dl < |c.layers| && code != 0 && Positive(c)
    ensures Arms(k, ActOverload(c, k, code, d, dl, pressed, time), time)
    decreases Height(d), 0
  {
    hide OfClass, UpdateMods, ExecuteMacro;
    if !pressed && Tapped(c, k, code, time) {
      TableAllowed(c, d.action);
      var action, lay := c.descriptors[d.action], Deactivate(k.lay, d.layer);
      var p := k.(lay := lay, out := Sync(c, lay.ls, k.out));
      if !action.MacroOnce? {
        ActArms(c, p, code, action, dl, true, time);
        var q := Act(c, p, code, action, dl, true, time);
        ActArms(c, q, code, action, dl, false, time);
        ArmsThen(p, q, Act(c, q, code, action, dl, false, time), time);
      }
    }
  }

  // ------------------------------------------------------------------------ what is left overdue

  /** Something should have happened by now. */
  ghost predicate Overdue(c: Config, k: Kbd, time: int) {
    exists deadline: int | deadline <= time :: IsDeadline(c, k, deadline)
  }

  /** handle_pending_timeout leaves no timeout() overdue. */
  lemma TimeoutServed(c: Config, k: Core, e: KeyEvent)
    requires CoreOk(c, k) && Positive(c) && Ahead(k)
    ensures var p := HandlePendingTimeout(c, k, e);
            (p.pt.code != 0 ==> p.pt.expiration > e.timestamp) && Arms(k, p, e.timestamp)
  {
    hide OfClass, TapTimeout, HoldTimeout, CacheOk, ConfigOk, OverloadOk, RepeatableOk;
    if k.pt.code != 0 {
      TapServes(c, k, e.timestamp);
      HoldServes(c, k, e.timestamp);
    }
  }

  lemma TapServes(c: Config, k: Core, time: nat)
    requires CoreOk(c, k) && Positive(c) && k.pt.code != 0
    ensures var p := TapTimeout(c, k, time); (p.pt.code != 0 ==> p.pt.expiration > time) && Arms(k, p, time)
  {
    hide OfClass, Positive, Act, CacheOk, ConfigOk, OverloadOk, RepeatableOk;
    var pt, action := k.pt, TimeoutAction(c, k.pt, time);
    var o := k.(pt := pt.(code := 0));
    ActArms(c, o, pt.code, action, pt.dl, true, time);
    var p := Act(c, o, pt.code, action, pt.dl, true, time);
    ActArms(c, p, pt.code, action, pt.dl, false, time);
    ArmsThen(o, p, Act(c, p, pt.code, action, pt.dl, false, time), time);
  }

  lemma HoldServes(c: Config, k: Core, time: nat)
    requires CoreOk(c, k) && Positive(c) && k.pt.code != 0
    ensures var p := HoldTimeout(c, k, time); (p.pt.code != 0 ==> p.pt.expiration > time) && Arms(k, p, time)
  {
    hide OfClass, Positive, Act, ConfigOk, OverloadOk, RepeatableOk;
    var pt, action := k.pt, TimeoutAction(c, k.pt, time);
    var entry := CacheEntry(pt.code, action, pt.dl, 0);
    PutOk(c, k.cache, pt.code, entry);
    ActArms(c, k.(pt := pt.(code := 0), cache := Put(k.cache, pt.code, entry)), pt.code, action, pt.dl, true, time);
  }

  /** An action is waiting for this time. */
  predicate CoreDeadline(k: Core, deadline: int) {
    (k.pt.code != 0 && deadline == k.pt.expiration) || (k.po.code != 0 && deadline == k.po.expiration) ||
    (k.lay.oneshotTimeout != 0 && deadline == k.lay.oneshotTimeout) ||
    (k.mac.active.Some? && deadline == k.mac.timeout)
  }

  /** The dispatcher leaves nothing overdue but an overload that was overdue before and stays
      pending. */
  lemma DispatchServes(c: Config, k: Kbd, e: KeyEvent, deadline: int)
    requires Ok(c, k) && Positive(c) && Ahead(k.core) && (k.core.pt.code != 0 ==> k.core.pt.expiration > e.timestamp)
    requires k.core.po.code != 0 ==> e.code != 0 && !e.pressed
    requires deadline <= e.timestamp
    ensures CoreDeadline(Dispatch(c, k, e).core, deadline) <==>
              k.core.po.code != 0 && deadline == k.core.po.expiration && !ReleaseDelays(c, k.core, e.code, e.timestamp)
    ensures Dispatch(c, k, e).log.late == k.log.late
  {
    hide OfClass, ExecuteMacro, UpdateMods, Positive, DispatchKey, ReleaseDelays;
    var core := RepeatMacro(c, ExpireOneshots(c, k.core, e.timestamp), e);
    if e.code != 0 {
      KeyArms(c, core, k.chords.active, e);
      if !e.pressed {
        DispatchDelays(c, core, k.chords.active, e);
        SameReleaseDelays(c, k.core, core, e.code, e.timestamp);
      }
    }
  }

  lemma KeyArms(c: Config, k: Core, active: seq<ActiveChord>, e: KeyEvent)
    requires CoreOk(c, k) && ActiveOk(c, active) && e.code != 0 && Positive(c)
    ensures Arms(k, DispatchKey(c, k, active, e), e.timestamp)
  {
    hide OfClass;
    var slot := Find(k.cache, e.code);
    if e.pressed && slot == -1 && SlotFor(k.cache, e.code) != -1 {
      var (d, dl) := LookupDescriptor(c, k.lay.ls, active, e.code);
      PutOk(c, k.cache, e.code, CacheEntry(e.code, d, dl, 0));
      ActArms(c, k.(cache := Put(k.cache, e.code, CacheEntry(e.code, d, dl, 0))), e.code, d, dl, true, e.timestamp);
    } else if !e.pressed && slot != -1 {
      assert EntryOk(c, k.cache[slot]);
      RemoveOk(c, k.cache, e.code);
      ActArms(c, k.(cache := Remove(k.cache, e.code)), e.code, k.cache[slot].d, k.cache[slot].dl, false, e.timestamp);
    }
  }

  /** An event that handle_chord lets through finds no chord overdue. */
  lemma LetThrough(c: Config, k: Kbd, e: KeyEvent)
    requires Ok(c, k) && (ChordPending(k.chords) ==> k.log.late >= 0)
    ensures var (r, taken) := HandleChord(c, k, e);
            !taken ==> r == k.(chords := r.chords) && (ChordPending(r.chords) ==> ChordDeadline(c, r) > e.timestamp)
  {
    hide CoreOk, ActiveOk, ResolveChord, MatchChord, ProcessEvent, ExtendChord;
  }

  lemma PassesThrough(c: Config, k: Kbd, e: KeyEvent)
    requires Ok(c, k) && !HandleChord(c, k, e).1
    ensures var q := HandleChord(c, k, e).0;
            var p := q.(core := HandlePendingTimeout(c, q.core, e));
            !HandlePendingOverload(c, p, e).1 ==> ProcessEvent(c, k, e) == Exit(Dispatch(c, p, e), e.timestamp)
  {
    hide HandleChord, HandlePendingTimeout, HandlePendingOverload, Dispatch, Ok, Moves, Exit;
  }

  lemma PendingFacts(c: Config, k: Kbd, now: int)
    requires Inv(c, k, now)
    ensures CoreInv(c, k.core, now) && (ChordPending(k.chords) ==> k.log.late >= 0)
  {
    assert Facts(c, k, now);
  }

  /** What a pending overload lets pass is the release of another key. */
  lemma PassesRelease(c: Config, k: Kbd, e: KeyEvent)
    requires Ok(c, k) && k.core.po.code != 0 && !HandlePendingOverload(c, k, e).1
    ensures e.code != 0 && !e.pressed && e.code != k.core.po.code
  {
    hide CoreOk, ChordsOk, ProcessEvents, ResolveOverload;
  }

  /** What an event that gets through leaves overdue: nothing, except that the release of a key
      struck before leaves an overload pending past its time (src/keyboard.c:1119-1130), unless
      it taps an overloadt(), which takes the place of the one that was pending. */
  lemma PassedServes(c: Config, k: Kbd, e: KeyEvent, now: int, deadline: int)
    requires Ok(c, k) && Inv(c, k, now) && e.timestamp <= now && Positive(c) && !HandleChord(c, k, e).1
    requires deadline <= e.timestamp
    ensures var q := HandleChord(c, k, e).0;
            var p := q.(core := HandlePendingTimeout(c, q.core, e));
            var r := ProcessEvent(c, k, e).0;
            !HandlePendingOverload(c, p, e).1 ==>
              (IsDeadline(c, r, deadline) <==>
                 p.core.po.code != 0 && deadline == p.core.po.expiration &&
                 !ReleaseDelays(c, p.core, e.code, e.timestamp)) &&
              (p.core.po.code != 0 ==> e.code != 0 && !e.pressed && e.code != p.core.po.code)
  {
    hide Positive, HandleChord, ProcessEvent, HandlePendingTimeout, HandlePendingOverload, Dispatch, CoreOk, ChordsOk,
         Inv;
    PendingFacts(c, k, now);
    var q := HandleChord(c, k, e).0;
    LetThrough(c, k, e);
    TimeoutServed(c, q.core, e);
    PendingTimeoutKeeps(c, q.core, e, now);
    var p := q.(core := HandlePendingTimeout(c, q.core, e));
    if !HandlePendingOverload(c, p, e).1 {
      if p.core.po.code != 0 {
        PassesRelease(c, p, e);
      }
      PassesThrough(c, k, e);
      DispatchServes(c, p, e, deadline);
    }
  }

  /** What an event that the pending overload only holds back, or that only reminds it, leaves
      overdue: the expiry of the oneshots and the repetition of a macro, if they were due. */
  lemma HeldBackServes(c: Config, k: Kbd, e: KeyEvent, now: int, deadline: int)
    requires Ok(c, k) && Inv(c, k, now) && e.timestamp <= now && Positive(c) && !HandleChord(c, k, e).1
    requires deadline <= e.timestamp
    ensures var q := HandleChord(c, k, e).0;
            var p := q.(core := HandlePendingTimeout(c, q.core, e));
            var r := ProcessEvent(c, k, e).0;
            HandlePendingOverload(c, p, e).1 && Resolution(p.core.po, e).Nothing? && !r.core.overflow ==>
              (IsDeadline(c, r, deadline) <==>
                 (p.core.lay.oneshotTimeout != 0 && deadline == p.core.lay.oneshotTimeout) ||
                 (p.core.mac.active.Some? && deadline == p.core.mac.timeout))
  {
    hide Positive, HandleChord, ProcessEvent, HandlePendingTimeout, CoreOk, ChordsOk, Inv;
    PendingFacts(c, k, now);
    var q := HandleChord(c, k, e).0;
    LetThrough(c, k, e);
    TimeoutServed(c, q.core, e);
    var p := q.(core := HandlePendingTimeout(c, q.core, e));
    if HandlePendingOverload(c, p, e).1 && Resolution(p.core.po, e).Nothing? && !ProcessEvent(c, k, e).0.core.overflow {
      StaysBehind(c, k, e);
      NotYet(c, p, e);
    }
  }

  /** An overload that stays pending is not due yet. */
  lemma NotYet(c: Config, k: Kbd, e: KeyEvent)
    requires Ok(c, k) && HandlePendingOverload(c, k, e).1 && Resolution(k.core.po, e).Nothing?
    ensures k.core.po.code != 0 && e.timestamp < k.core.po.expiration
  {
    hide ProcessEvents, ResolveOverload, ChordsOk, CacheOk, ConfigOk, TimeoutOk, RepeatableOk, OfClass;
  }

  lemma StaysBehind(c: Config, k: Kbd, e: KeyEvent)
    requires Ok(c, k) && !HandleChord(c, k, e).1
    ensures var q := HandleChord(c, k, e).0;
            var p := q.(core := HandlePendingTimeout(c, q.core, e));
            var r := ProcessEvent(c, k, e).0;
            HandlePendingOverload(c, p, e).1 && Resolution(p.core.po, e).Nothing? && !r.core.overflow ==>
              r == p.(core := p.core.(timers := r.core.timers), oq := r.oq)
  {
    hide HandleChord, HandlePendingTimeout, Dispatch, Ok, Moves, ProcessEvents, ResolveOverload;
  }

  // --------------------------------------------------- a class of configurations that is on time

  /** Without chords and without delays every event gets through. */
  lemma AllGetThrough(c: Config, k: Kbd, e: KeyEvent, now: int)
    requires Ok(c, k) && Inv(c, k, now) && ChordFree(c) && OfClass(c, Undelayed)
    ensures !HandleChord(c, k, e).1
    ensures var q := HandleChord(c, k, e).0;
            var p := q.(core := HandlePendingTimeout(c, q.core, e));
            p.core.po.code == 0 && !HandlePendingOverload(c, p, e).1
  {
    hide CoreOk, OfClass, Positive, HandlePendingTimeout;
    assert CoreInv(c, k.core, now) && NoChords(k.chords) && |k.core.lay.ls| == |c.layers| by {
      assert Facts(c, k, now);
      LayersFact(c, k);
    }
    NoneRecognised(c, k, e);
    PendingTimeoutKeeps(c, HandleChord(c, k, e).0.core, e, now);
  }

  lemma NoneRecognised(c: Config, k: Kbd, e: KeyEvent)
    requires Ok(c, k) && ChordFree(c) && NoChords(k.chords)
    ensures !HandleChord(c, k, e).1 && HandleChord(c, k, e).0.core == k.core
  {
    hide CoreOk, MatchChord;
    LayersFact(c, k);
    var s := Enqueue(k.chords.(queue := [], match_ := None, startCode := e.code), e);
    NoChordsScan(c, k.core.lay.ls, s.queue, |c.layers|, Scan(false, false, s.match_, s.matchLayer, -1));
  }

  lemma EventOnTime(c: Config, k: Kbd, e: KeyEvent, now: int)
    requires Ok(c, k) && Inv(c, k, now) && e.timestamp <= now && ChordFree(c) && OfClass(c, Undelayed) && Positive(c)
    ensures !Overdue(c, ProcessEvent(c, k, e).0, e.timestamp)
  {
    hide Inv, OfClass, Positive, Ok, HandleChord, ProcessEvent, HandlePendingTimeout, HandlePendingOverload, Overdue;
    AllGetThrough(c, k, e, now);
    forall deadline: int | deadline <= e.timestamp ensures !IsDeadline(c, ProcessEvent(c, k, e).0, deadline) {
      PassedServes(c, k, e, now, deadline);
    }
    assert !Overdue(c, ProcessEvent(c, k, e).0, e.timestamp) by {
      NothingDue(c, ProcessEvent(c, k, e).0, e.timestamp);
    }
  }

  lemma NothingDue(c: Config, k: Kbd, time: int)
    requires forall deadline: int | deadline <= time :: !IsDeadline(c, k, deadline)
    ensures !Overdue(c, k, time)
  {
  }

  lemma {:induction false} BatchOnTime(c: Config, k: Kbd, events: seq<KeyEvent>, i: nat, timeout: nat, timeoutTs: nat,
                                       r: Kbd, now: int)
    requires Ok(c, k) && Inv(c, k, now) && ChordFree(c) && OfClass(c, Undelayed) && Positive(c)
    requires i < |events| && forall j | i <= j < |events| :: events[j].timestamp <= now
    requires r == After(c, k, events, i, timeout, timeoutTs)
    ensures !r.core.overflow ==> !Overdue(c, r, TimeOf(events))
    decreases Mode(k), Load(k) + |events| - i, PendingWeight(k.core), 1, |events| - i,
              TickRoom(events, i, timeout, timeoutTs)
  {
    hide ProcessEvent, Inv, OfClass, Positive, Overdue, ChordFree;
    if !k.core.overflow {
      if timeout > 0 && timeoutTs <= events[i].timestamp {
        var (p, t) := ProcessEvent(c, k, KeyEvent(0, false, timeoutTs));
        TickTurnUnfolds(c, k, events, i, timeout, timeoutTs, p, t);
        ProcessEventKeeps(c, k, KeyEvent(0, false, timeoutTs), p, now);
        BatchOnTime(c, p, events, i, t, timeoutTs + t, r, now);
      } else {
        var (p, t) := ProcessEvent(c, k, events[i]);
        EventTurnUnfolds(c, k, events, i, timeout, timeoutTs, p, t);
        if i + 1 == |events| {
          EventOnTime(c, k, events[i], now);
          BatchEnds(c, p, events, i + 1, t, events[i].timestamp + t);
        } else {
          ProcessEventKeeps(c, k, events[i], p, now);
          BatchOnTime(c, p, events, i + 1, t, events[i].timestamp + t, r, now);
        }
      }
    }
  }

  /** Without chords, without overloadt() and overloadt2() and without timeouts of 0, nothing is
      ever left overdue: what is due at the end of a call is to come. */
  lemma NothingOverdue(c: Config, p: Kbd, calls: seq<seq<KeyEvent>>, batch: seq<KeyEvent>)
    requires Reached(c, p, calls) && Ok(c, p) && batch != [] && Clock(calls, |calls|) <= TimeOf(batch)
    requires forall j | 0 <= j < |batch| :: batch[j].timestamp <= TimeOf(batch)
    requires ChordFree(c) && OfClass(c, Undelayed) && Positive(c)
    ensures var k := ProcessEvents(c, p, batch, 0, 0, 0).0;
            !k.core.overflow ==> !Overdue(c, k, TimeOf(batch))
  {
    hide ProcessEvents, OfClass, Positive, ChordFree, Overdue;
    assert Inv(c, p, Clock(calls, |calls|)) by { ReachedFacts(c, p, calls); }
    InvLater(c, p, Clock(calls, |calls|), TimeOf(batch));
    BatchOnTime(c, p, batch, 0, 0, 0, After(c, p, batch, 0, 0, 0), TimeOf(batch));
  }
}
