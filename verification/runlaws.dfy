/** What a whole run of the engine keeps: the laws of machine.dfy's recursion. */
module RunLaws {
  import opened Keys
  import opened Output
  import opened Configs
  import opened State
  import opened Layers
  import opened Cache
  import opened Actions
  import opened Events
  import opened Pending
  import opened Machine
  import opened ActionLaws
  import opened CoreLaws
  import opened Streams
  import opened Ledger

  // -------------------------------------------------------------------------- invariants

  /** Queued events are key events of the past. */
  ghost predicate Past(queue: seq<KeyEvent>, now: int) {
    forall i | 0 <= i < |queue| :: queue[i].code != 0 && queue[i].timestamp <= now
  }

  ghost predicate Timely(k: Kbd, now: int) {
    Past(k.oq, now) && (ChordPending(k.chords) ==> Past(k.chords.queue, now)) && k.chords.lastCodeTime <= now &&
    (k.core.po.code == 0 ==> k.oq == [])
  }

  /** When the recogniser is due to look at its buffer again: the interkey timeout after its
      last key; or, once it has found a match, the hold timeout after it, and later by as much
      as the tick that ended a disambiguation was late. */
  function ChordDeadline(c: Config, k: Kbd): int {
    k.chords.lastCodeTime +
    if k.chords.phase == PendingDisambiguation then c.chordInterkeyTimeout else c.chordHoldTimeout + k.log.late
  }

  ghost predicate ChordDeadlineKept(c: Config, k: Kbd, now: int) {
    ChordPending(k.chords) ==>
      k.log.late >= 0 && (!k.core.overflow ==> Kept(k.core, now, ChordDeadline(c, k)))
  }

  /** The synthetic events of the i-th chord code. */
  function Synthetic(k: Kbd, i: nat): seq<KeyEvent>
    requires i < MAX_ACTIVE_CHORDS
  {
    See(KeyView(CHORD_1 + i), k.log.made)
  }

  /** Every chord code is pressed and released in turn; it is down exactly while its chord is
      active, which is as long as one of its keys is held. */
  ghost predicate ChordTurns(k: Kbd, i: nat)
    requires i < MAX_ACTIVE_CHORDS && |k.chords.active| == MAX_ACTIVE_CHORDS
  {
    TakesTurns(Synthetic(k, i)) &&
    k.chords.active[i].active == (|Synthetic(k, i)| % 2 == 1) &&
    (k.chords.active[i].active ==> NonZero(k.chords.active[i].keys) != 0)
  }

  /** With simple actions only, a bound key's last event to get through was its press. */
  ghost predicate BoundHeld(k: Kbd) {
    forall x: Code | Holds(k.core.cache, x) :: Held(k.log.passed, x)
  }

  /** Without chords in the configuration, none is ever recognised. */
  ghost predicate NoChords(s: Chords) {
    s.phase == Inactive && forall i | 0 <= i < |s.active| :: !s.active[i].active
  }

  ghost predicate Facts(c: Config, k: Kbd, now: int) {
    Ok(c, k) && CoreInv(c, k.core, now) && Timely(k, now) && ChordDeadlineKept(c, k, now) &&
    (forall i | 0 <= i < MAX_ACTIVE_CHORDS :: ChordTurns(k, i)) &&
    (OfClass(c, Simple) ==> BoundHeld(k)) && (ChordFree(c) ==> NoChords(k.chords)) &&
    (OfClass(c, Simple) && ChordFree(c) ==> !k.core.overflow)
  }

  /** What holds at every moment of a run, up to time `now`. Stated so that it unfolds only
      where a proof asks for it. */
  ghost predicate Inv(c: Config, k: Kbd, now: int) {
    forall q | q == k :: Facts(c, q, now)
  }

  /** The synthetic events and the active chords are as before. */
  lemma TurnsFrame(k: Kbd, r: Kbd)
    requires r.log.made == k.log.made && r.chords.active == k.chords.active
    requires |k.chords.active| == MAX_ACTIVE_CHORDS && forall i | 0 <= i < MAX_ACTIVE_CHORDS :: ChordTurns(k, i)
    ensures forall i | 0 <= i < MAX_ACTIVE_CHORDS :: ChordTurns(r, i)
  {
    forall i | 0 <= i < MAX_ACTIVE_CHORDS ensures ChordTurns(r, i) {
      assert ChordTurns(k, i);
    }
  }

  // -------------------------------------------------------------------- the single steps

  lemma CoreStep(c: Config, k: Kbd, core: Core, now: int)
    requires Inv(c, k, now) && CoreInv(c, core, now) && (OfClass(c, Simple) ==> core == k.core)
    requires (k.core.overflow ==> core.overflow) && (k.core.po.code != 0 ==> core.po.code != 0) &&
             k.core.timers <= core.timers
    ensures Inv(c, k.(core := core), now) && Accounts(c, k, k.(core := core), [])
  {
    hide OfClass, Positive, Inv, Accounts, CoreInv;
    TimerStep(c, k, k.(core := core), now);
  }

  /** The core changes, and no deadline to come is dropped. */
  lemma TimerStep(c: Config, k: Kbd, r: Kbd, now: int)
    requires Inv(c, k, now) && CoreInv(c, r.core, now) && r == k.(core := r.core)
    requires OfClass(c, Simple) ==> r.core.cache == k.core.cache && r.core.overflow == k.core.overflow
    requires (k.core.overflow ==> r.core.overflow) && (k.core.po.code != 0 ==> r.core.po.code != 0)
    requires r.core.overflow || forall t <- k.core.timers | t > now :: t in r.core.timers
    ensures Inv(c, r, now) && Accounts(c, k, r, [])
  {
    hide OfClass, Positive, ChordFree, Solvent, Plain, Even, Trusted, OutputOk, LayoutsOk, ConfigOk, CacheOk;
    hide ChordTurns, Accounts, Ahead;
    assert Facts(c, k, now);
    assert ChordDeadlineKept(c, r, now);
    TurnsFrame(k, r);
    assert Facts(c, r, now);
    AccountsNothing(c, k, r);
  }

  /** calculate_main_loop_timeout drops no deadline that is still to come. */
  lemma ExitKeeps(c: Config, k: Kbd, time: nat, now: int)
    requires Inv(c, k, now) && time <= now
    ensures Inv(c, Exit(k, time).0, now) && Accounts(c, k, Exit(k, time).0, [])
  {
    hide OfClass, Positive, CoreInv, Later, Minimum, Accounts;
    assert CoreInv(c, k.core, now) && |k.core.timers| <= MAX_TIMEOUTS by { CoreFacts(c, k, now); }
    hide Inv;
    var r := Exit(k, time).0;
    TimersKeep(c, k.core, r.core, now);
    TimerStep(c, k, r, now);
  }

  lemma CoreFacts(c: Config, k: Kbd, now: int)
    requires Inv(c, k, now)
    ensures CoreInv(c, k.core, now) && |k.core.timers| <= MAX_TIMEOUTS
  {
    hide OfClass, Positive, ChordFree, Solvent, Plain, Even, Trusted, OutputOk, LayoutsOk, ConfigOk, CacheOk;
    assert Facts(c, k, now);
  }

  // ------------------------------------------------------------------ an event gets through

  lemma BoundHeldAfter(k: Kbd, r: Kbd, e: KeyEvent)
    requires BoundHeld(k) && r.log.passed == k.log.passed + [e]
    requires forall x: Code | Holds(r.core.cache, x) :: if x == e.code then e.pressed else Holds(k.core.cache, x)
    ensures BoundHeld(r)
  {
    forall x: Code | Holds(r.core.cache, x) ensures Held(r.log.passed, x) {
      HeldAfter(k.log.passed, e, x);
    }
  }

  lemma KeyStep(c: Config, k: Kbd, core: Core, e: KeyEvent, now: int)
    requires Inv(c, k, now) && CoreInv(c, core, now)
    requires (k.core.overflow ==> core.overflow) && (k.core.po.code != 0 ==> core.po.code != 0) &&
             k.core.timers <= core.timers
    requires OfClass(c, Simple) ==> core.overflow == k.core.overflow
    requires forall x: Code | Holds(core.cache, x) :: if x == e.code then e.pressed else Holds(k.core.cache, x)
    requires Unheld(k, e) && (ChordFree(c) ==> forall v: View | Shows(v, e) :: See(v, k.oq) == [])
    ensures var r := k.(core := core, log := k.log.(passed := k.log.passed + [e], settled := k.log.settled + [e]));
            Inv(c, r, now) && Accounts(c, k, r, [e])
  {
    hide OfClass, Positive, ChordFree, Solvent, Plain, Even, Trusted, OutputOk, LayoutsOk, ConfigOk, CacheOk;
    hide ChordTurns;
    assert Facts(c, k, now);
    var r := k.(core := core, log := k.log.(passed := k.log.passed + [e], settled := k.log.settled + [e]));
    assert ChordDeadlineKept(c, r, now);
    TurnsFrame(k, r);
    if OfClass(c, Simple) {
      BoundHeldAfter(k, r, e);
    }
    assert Facts(c, r, now);
    KeyAccounts(c, k, r, e);
  }

  lemma DispatchKeyKeeps(c: Config, k: Kbd, e: KeyEvent, now: int)
    requires Ok(c, k) && Inv(c, k, now) && e.code != 0 && Unheld(k, e) && (e.pressed ==> k.core.po.code == 0)
    requires ChordFree(c) ==> forall v: View | Shows(v, e) :: See(v, k.oq) == []
    ensures var r := k.(core := DispatchKey(c, k.core, k.chords.active, e),
                        log := k.log.(passed := k.log.passed + [e], settled := k.log.settled + [e]));
            Inv(c, r, now) && Accounts(c, k, r, [e])
  {
    assert Facts(c, k, now);
    if e.pressed {
      DispatchPressKeeps(c, k.core, k.chords.active, e, now);
    } else {
      DispatchReleaseKeeps(c, k.core, k.chords.active, e, now);
    }
    KeyStep(c, k, DispatchKey(c, k.core, k.chords.active, e), e, now);
  }

  /** process_event after the pending handlers. */
  lemma DispatchKeeps(c: Config, k: Kbd, e: KeyEvent, now: int)
    requires Ok(c, k) && Inv(c, k, now) && e.timestamp <= now
    requires e.code != 0 ==> Unheld(k, e) && (ChordFree(c) ==> forall v: View | Shows(v, e) :: See(v, k.oq) == [])
    requires e.code != 0 && e.pressed ==> k.core.po.code == 0
    ensures Inv(c, Dispatch(c, k, e), now) && Accounts(c, k, Dispatch(c, k, e), Real(e))
  {
    assert CoreInv(c, k.core, now) by { assert Facts(c, k, now); }
    var expired := ExpireOneshots(c, k.core, e.timestamp);
    var core := RepeatMacro(c, expired, e);
    ExpireOneshotsKeeps(c, k.core, e.timestamp, now);
    RepeatMacroKeeps(c, expired, e, now);
    CoreStep(c, k, core, now);
    if e.code != 0 {
      DispatchKeyKeeps(c, k.(core := core), e, now);
      AccountsThen(c, k, k.(core := core), Dispatch(c, k, e), [e]);
    }
  }

  // ------------------------------------------------------------- the overload queue

  /** Events are delayed by configurations only that can. */
  lemma Delaying(c: Config, k: Kbd, now: int)
    requires Inv(c, k, now) && k.core.po.code != 0
    ensures !OfClass(c, Undelayed) && !OfClass(c, Simple)
  {
    assert Facts(c, k, now);
    ClassesNested(c);
  }

  /** The pending overload holds back a key event. */
  lemma HoldBack(c: Config, k: Kbd, e: KeyEvent, now: int)
    requires Ok(c, k) && Inv(c, k, now) && e.code != 0 && e.timestamp <= now && k.core.po.code != 0 &&
             |k.oq| < QUEUE_SIZE
    ensures var r := k.(oq := k.oq + [e]); Inv(c, r, now) && Accounts(c, k, r, [e])
  {
    hide OfClass, Positive, ChordFree, Solvent, Plain, Even, Trusted, OutputOk, LayoutsOk, ConfigOk, CacheOk;
    hide ChordTurns;
    assert Facts(c, k, now);
    var r := k.(oq := k.oq + [e]);
    assert ChordDeadlineKept(c, r, now);
    TurnsFrame(k, r);
    assert Facts(c, r, now);
    DelayAccounts(c, k, r, e);
  }

  /** The queue is emptied when the pending overload is resolved. */
  lemma Unqueue(c: Config, k: Kbd, action: Descriptor, e: KeyEvent, now: int)
    requires Ok(c, k) && Inv(c, k, now) && e.timestamp <= now && k.core.po.code != 0
    requires action == k.core.po.action1 || action == k.core.po.action2
    ensures Inv(c, k.(core := ResolveOverload(c, k.core, action, e.timestamp), oq := []), now)
    ensures Past(k.oq + Real(e), now) && !OfClass(c, Undelayed)
  {
    hide OfClass, Positive, ChordFree, Solvent, Plain, Even, Trusted, OutputOk, LayoutsOk, ConfigOk, CacheOk;
    hide ResolveOverload;
    Delaying(c, k, now);
    assert Facts(c, k, now);
    var core := ResolveOverload(c, k.core, action, e.timestamp);
    var r := k.(core := core, oq := []);
    ResolveOverloadKeeps(c, k.core, action, e.timestamp, now);
    assert ChordDeadlineKept(c, r, now);
    TurnsFrame(k, r);
    assert Facts(c, r, now);
  }

  // ------------------------------------------------------------------------ the chords

  /** The recogniser changes its mind about the queue. */
  lemma ChordStep(c: Config, k: Kbd, s: Chords, now: int)
    requires Inv(c, k, now) && ChordsOk(c, s) && s.active == k.chords.active && s.lastCodeTime <= now
    requires ChordPending(s) ==>
               Past(s.queue, now) && s.phase == k.chords.phase && s.lastCodeTime == k.chords.lastCodeTime
    requires ChordFree(c) ==> s.phase == Inactive
    ensures Inv(c, k.(chords := s), now)
  {
    hide OfClass, Positive, ChordFree, Solvent, Plain, Even, Trusted, OutputOk, LayoutsOk, ConfigOk, CacheOk;
    hide ChordTurns;
    assert Facts(c, k, now);
    var r := k.(chords := s);
    TurnsFrame(k, r);
    assert Facts(c, r, now);
  }

  /** The recogniser waits. */
  lemma AwaitKeeps(c: Config, k: Kbd, s: Chords, deadline: int, late: int, now: int)
    requires Inv(c, k, now) && ChordsOk(c, s) && s.active == k.chords.active && s.lastCodeTime <= now && !ChordFree(c)
    requires ChordPending(s) && Past(s.queue, now)
    requires late >= 0 && deadline == ChordDeadline(c, Await(k, s, deadline, late))
    ensures Inv(c, Await(k, s, deadline, late), now)
    ensures var r := Await(k, s, deadline, late); !r.core.overflow ==> ChordDeadline(c, r) in r.core.timers
  {
    hide OfClass, Positive, ChordFree, OutputOk, LayoutsOk, ConfigOk, CacheOk, Solvent, Plain, Even, Trusted;
    hide ChordTurns;
    assert Facts(c, k, now);
    var r := Await(k, s, deadline, late);
    TimersKeep(c, k.core, r.core, now);
    assert r.core.overflow || deadline in r.core.timers;
    assert ChordDeadlineKept(c, r, now);
    TurnsFrame(k, r);
    assert Facts(c, r, now);
  }

  // ------------------------------------------------------------------- synthetic events

  lemma TurnAdded(made: seq<KeyEvent>, e: KeyEvent, code: Code)
    ensures See(KeyView(code), made + [e]) == See(KeyView(code), made) + if e.code == code then [e] else []
  {
    SeeConcat(KeyView(code), made, [e]);
    SeeOne(KeyView(code), e);
  }

  /** The i-th chord code is pressed when its chord becomes active and released when it
      ends. */
  lemma TurnTaken(k: Kbd, r: Kbd, i: nat, e: KeyEvent, j: nat)
    requires i < MAX_ACTIVE_CHORDS && j < MAX_ACTIVE_CHORDS && |k.chords.active| == MAX_ACTIVE_CHORDS
    requires ChordTurns(k, j) && e.code == CHORD_1 + i && r.log.made == k.log.made + [e]
    requires exists a :: r.chords.active == k.chords.active[i := a] && a.active == e.pressed &&
                         (a.active ==> NonZero(a.keys) != 0)
    requires k.chords.active[i].active != e.pressed
    ensures ChordTurns(r, j)
  {
    TurnAdded(k.log.made, e, CHORD_1 + j);
  }

  /** The release of a key of an active chord is settled at once; a synthetic release is made
      exactly when no key of the chord is held any more. */
  lemma ReleaseStep(c: Config, k: Kbd, i: nat, e: KeyEvent, now: int)
    requires Ok(c, k) && Inv(c, k, now) && i < MAX_ACTIVE_CHORDS && e.code != 0 && !e.pressed
    requires k.chords.active[i].active && e.code in k.chords.active[i].keys
    ensures var p, release := ReleaseKey(c, k, i, e.code), KeyEvent(CHORD_1 + i, false, e.timestamp);
            var r := Settle(p, [e], if p.chords.active[i].active then [] else [release]);
            Inv(c, r, now) && LetsGo(k, r, i, e) &&
            (r.log.made == k.log.made + [release] <==> NonZero(Strike(k.chords.active[i].keys, e.code)) == 0) &&
            (r.log.made == k.log.made <==> NonZero(Strike(k.chords.active[i].keys, e.code)) > 0)
    ensures !ChordFree(c)
  {
    hide OfClass, Positive, Solvent, Plain, Even, Trusted, OutputOk, LayoutsOk, ConfigOk, CacheOk, CoreOk, Past;
    assert Facts(c, k, now);
    var p := ReleaseKey(c, k, i, e.code);
    var release := KeyEvent(CHORD_1 + i, false, e.timestamp);
    var r := Settle(p, [e], if p.chords.active[i].active then [] else [release]);
    assert k.log.made + [release] != k.log.made;
    assert k.log.made + [] == k.log.made;
    assert ChordDeadlineKept(c, r, now);
    forall j | 0 <= j < MAX_ACTIVE_CHORDS ensures ChordTurns(r, j) {
      assert ChordTurns(k, j);
      if !p.chords.active[i].active {
        TurnTaken(k, r, i, release, j);
      }
    }
    assert Facts(c, r, now);
  }

  /** A chord is pressed: after a release of its code, or for the first time. */
  lemma PressStep(c: Config, k: Kbd, i: nat, s: Chords, now: int)
    requires Ok(c, k) && Inv(c, k, now) && k.chords.phase == Resolving && i < MAX_ACTIVE_CHORDS &&
             !k.chords.active[i].active
    requires s.match_.Some? && MatchOk(c, s.match_.value) && s.matchLayer < |c.layers|
    requires 1 <= |s.match_.value.keys| <= |s.queue|
    ensures var press := KeyEvent(CHORD_1 + i, true, s.lastCodeTime);
            var p := ActivateChord(c, k, i, s.match_.value, s.matchLayer);
            var r := Settle(p, s.queue[..|s.match_.value.keys|], [press]);
            Inv(c, r, now) && Synthetic(r, i) == Synthetic(k, i) + [press] &&
            (Synthetic(k, i) != [] ==> !Synthetic(k, i)[|Synthetic(k, i)| - 1].pressed)
  {
    hide OfClass, Positive, Solvent, Plain, Even, Trusted, OutputOk, LayoutsOk, ConfigOk, CacheOk, CoreOk, Past;
    assert Facts(c, k, now);
    var chord, press := s.match_.value, KeyEvent(CHORD_1 + i, true, s.lastCodeTime);
    var p := ActivateChord(c, k, i, chord, s.matchLayer);
    var r := Settle(p, s.queue[..|chord.keys|], [press]);
    AllHeld(chord.keys);
    assert ChordDeadlineKept(c, r, now);
    assert ChordTurns(k, i);
    TurnAdded(k.log.made, press, CHORD_1 + i);
    forall j | 0 <= j < MAX_ACTIVE_CHORDS ensures ChordTurns(r, j) {
      TurnTaken(k, r, i, press, j);
    }
    assert Facts(c, r, now);
  }

  lemma {:induction false} AllHeld(keys: seq<Code>)
    requires forall i | 0 <= i < |keys| :: keys[i] != 0
    ensures NonZero(keys) == |keys|
    decreases |keys|
  {
    if keys != [] {
      AllHeld(keys[..|keys| - 1]);
    }
  }

  lemma HaltKeeps(c: Config, k: Kbd, now: int)
    requires Inv(c, k, now) && (OfClass(c, Simple) ==> !ChordFree(c))
    ensures Inv(c, Halt(k), now)
  {
    hide OfClass, Positive, ChordFree, OutputOk, LayoutsOk, ConfigOk, CacheOk, Solvent, Plain, Even, Trusted;
    hide ChordTurns;
    assert Facts(c, k, now);
    var r := Halt(k);
    TimersKeep(c, k.core, r.core, now);
    TurnsFrame(k, r);
    assert Facts(c, r, now);
  }

  // ------------------------------------------------------------------------ the recursion

  /** What the pending overload lets pass overtakes no event of its key and is no press. */
  lemma OvertakesNothing(c: Config, k: Kbd, e: KeyEvent, now: int)
    requires Inv(c, k, now) && e.code != 0
    requires k.core.po.code == 0 || (!e.pressed && !Queued(k.oq, e.code))
    ensures forall v: View | Shows(v, e) :: See(v, k.oq) == []
  {
    assert Facts(c, k, now);
    forall v: View | Shows(v, e) ensures See(v, k.oq) == [] {
      SeeNothing(v, k.oq);
    }
  }

  /** handle_pending_overload */
  lemma {:induction false} OverloadKeepsInv(c: Config, k: Kbd, e: KeyEvent, now: int)
    requires Ok(c, k) && Inv(c, k, now) && e.timestamp <= now
    ensures var r := HandlePendingOverload(c, k, e);
            Inv(c, r.0, now) && (r.1 ==> Accounts(c, k, r.0, Real(e))) &&
            (!r.1 && e.code != 0 ==> forall v: View | Shows(v, e) :: See(v, k.oq) == []) &&
            (!r.1 && e.code != 0 && k.core.po.code != 0 ==> !e.pressed && !Queued(k.oq, e.code))
    decreases Mode(k), Load(k) + Weighs(e), PendingWeight(k.core), 0,
              HeldChordKeys(k.chords.active, |k.chords.active|), 2
  {
    hide ProcessEvents, ResolveOverload, Inv, Accounts;
    var po := k.core.po;
    if po.code == 0 || (e.code != 0 && |k.oq| < QUEUE_SIZE && !e.pressed && !Queued(k.oq, e.code) &&
      e.code != po.code) {
      if e.code != 0 {
        OvertakesNothing(c, k, e, now);
      }
    } else if e.code != 0 && |k.oq| >= QUEUE_SIZE {
      Delaying(c, k, now);
      HaltKeeps(c, k, now);
      AccountsGone(c, k, Halt(k), Real(e));
    } else {
      var action := Resolution(po, e);
      if action.Nothing? {
        if e.code != 0 {
          HoldBack(c, k, e, now);
        } else {
          AccountsNothing(c, k, k);
        }
      } else {
        var p := k.(core := ResolveOverload(c, k.core, action, e.timestamp), oq := []);
        Unqueue(c, k, action, e, now);
        assert k.oq + [] == k.oq;
        ReplayKeepsInv(c, p, k.oq + Real(e), now);
        UnqueueAccounts(c, k, p, ProcessEvents(c, p, k.oq + Real(e), 0, 0, 0).0, Real(e));
      }
    }
  }

  /** The replay of a queue. */
  lemma {:induction false} ReplayKeepsInv(c: Config, k: Kbd, queue: seq<KeyEvent>, now: int)
    requires Ok(c, k) && Inv(c, k, now) && Past(queue, now)
    ensures var r := ProcessEvents(c, k, queue, 0, 0, 0).0; Inv(c, r, now) && Accounts(c, k, r, queue)
    decreases Mode(k), Load(k) + |queue|, PendingWeight(k.core), 1, |queue| + 1
  {
    hide ProcessEvents, Inv, Accounts;
    assert queue[0..] == queue;
    AllReal(queue);
    ProcessEventsKeeps(c, k, queue, 0, 0, 0, After(c, k, queue, 0, 0, 0), queue, now);
  }

  /** The state kbd_process_events leaves. */
  function After(c: Config, k: Kbd, events: seq<KeyEvent>, i: nat, timeout: nat, timeoutTs: nat): Kbd
    requires Ok(c, k) && i <= |events|
  {
    ProcessEvents(c, k, events, i, timeout, timeoutTs).0
  }

  /** kbd_process_events */
  lemma {:induction false} ProcessEventsKeeps(c: Config, k: Kbd, events: seq<KeyEvent>, i: nat, timeout: nat,
                                              timeoutTs: nat,
                                          r: Kbd, taken: seq<KeyEvent>, now: int)
    requires Ok(c, k) && Inv(c, k, now) && i <= |events|
    requires forall j | i <= j < |events| :: events[j].timestamp <= now
    requires r == After(c, k, events, i, timeout, timeoutTs) && taken == Rest(events, i)
    ensures Inv(c, r, now) && Accounts(c, k, r, taken)
    decreases Mode(k), Load(k) + |events| - i, PendingWeight(k.core), 1, |events| - i,
              if i < |events| then TickRoom(events, i, timeout, timeoutTs) else 0
  {
    hide ProcessEvent, Inv, Accounts;
    if i == |events| || k.core.overflow {
      BatchEnd(c, k, events, i);
    } else if timeout > 0 && timeoutTs <= events[i].timestamp {
      var (p, t) := ProcessEvent(c, k, KeyEvent(0, false, timeoutTs));
      TickTurnUnfolds(c, k, events, i, timeout, timeoutTs, p, t);
      TickTurnKeeps(c, k, events, i, timeout, timeoutTs, p, t, r, taken, now);
    } else {
      var (p, t) := ProcessEvent(c, k, events[i]);
      EventTurnUnfolds(c, k, events, i, timeout, timeoutTs, p, t);
      EventTurnKeeps(c, k, events, i, timeout, timeoutTs, p, t, r, taken, now);
    }
  }

  /** A tick comes first. */
  lemma {:induction false} TickTurnKeeps(c: Config, k: Kbd, events: seq<KeyEvent>, i: nat, timeout: nat, timeoutTs: nat,
                                          p: Kbd, t: nat, r: Kbd, taken: seq<KeyEvent>, now: int)
    requires Ok(c, k) && Inv(c, k, now) && i < |events| && !k.core.overflow
    requires forall j | i <= j < |events| :: events[j].timestamp <= now
    requires timeout > 0 && timeoutTs <= events[i].timestamp
    requires p == ProcessEvent(c, k, KeyEvent(0, false, timeoutTs)).0 &&
             t == ProcessEvent(c, k, KeyEvent(0, false, timeoutTs)).1
    requires r == After(c, p, events, i, t, timeoutTs + t)
    requires taken == Rest(events, i)
    ensures Inv(c, r, now) && Accounts(c, k, r, taken)
    decreases Mode(k), Load(k) + |events| - i, PendingWeight(k.core), 1, |events| - i,
              TickRoom(events, i, timeout, timeoutTs), 0
  {
    hide ProcessEvent, ProcessEvents, Inv, Accounts;
    ProcessEventKeeps(c, k, KeyEvent(0, false, timeoutTs), p, now);
    ProcessEventsKeeps(c, p, events, i, t, timeoutTs + t, r, taken, now);
    AccountsThen(c, k, p, r, taken);
  }

  /** The next event of the batch comes first. */
  lemma {:induction false} EventTurnKeeps(c: Config, k: Kbd, events: seq<KeyEvent>, i: nat, timeout: nat,
                                          timeoutTs: nat,
                                          p: Kbd, t: nat, r: Kbd, taken: seq<KeyEvent>, now: int)
    requires Ok(c, k) && Inv(c, k, now) && i < |events| && !k.core.overflow
    requires forall j | i <= j < |events| :: events[j].timestamp <= now
    requires !(timeout > 0 && timeoutTs <= events[i].timestamp)
    requires p == ProcessEvent(c, k, events[i]).0 && t == ProcessEvent(c, k, events[i]).1
    requires r == After(c, p, events, i + 1, t, events[i].timestamp + t)
    requires taken == Rest(events, i)
    ensures Inv(c, r, now) && Accounts(c, k, r, taken)
    decreases Mode(k), Load(k) + |events| - i, PendingWeight(k.core), 1, |events| - i,
              TickRoom(events, i, timeout, timeoutTs), 0
  {
    hide ProcessEvent, ProcessEvents, Inv, Accounts;
    var one, rest := Real(events[i]), Rest(events, i + 1);
    assert taken == one + rest by { RealsStep(events, i); }
    ProcessEventKeeps(c, k, events[i], p, now);
    ProcessEventsKeeps(c, p, events, i + 1, t, events[i].timestamp + t, r, rest, now);
    AccountsSteps(c, k, p, r, one, rest);
  }

  /** process_event */
  lemma {:induction false} ProcessEventKeeps(c: Config, k: Kbd, e: KeyEvent, r: Kbd, now: int)
    requires Ok(c, k) && Inv(c, k, now) && e.timestamp <= now && r == ProcessEvent(c, k, e).0
    ensures Inv(c, r, now) && Accounts(c, k, r, Real(e))
    decreases Mode(k), Load(k) + Weighs(e), PendingWeight(k.core), 0,
              HeldChordKeys(k.chords.active, |k.chords.active|), 4
  {
    hide HandleChord, PassChord, Inv, Accounts;
    var (p, byChord) := HandleChord(c, k, e);
    HandleChordKeeps(c, k, e, now);
    var q := if byChord then p else PassChord(c, p, e);
    if !byChord {
      PassChordKeeps(c, p, e, now);
      AccountsThen(c, k, p, q, Real(e));
    }
    ExitKeeps(c, q, e.timestamp, now);
    ThenAccounts(c, k, q, r, Real(e));
  }

  /** process_event once the chord handler let the event through. */
  lemma {:induction false} PassChordKeeps(c: Config, k: Kbd, e: KeyEvent, now: int)
    requires Ok(c, k) && Inv(c, k, now) && e.timestamp <= now && (e.code != 0 ==> Unheld(k, e))
    ensures Inv(c, PassChord(c, k, e), now) && Accounts(c, k, PassChord(c, k, e), Real(e))
    decreases Mode(k), Load(k) + Weighs(e), PendingWeight(k.core), 0,
              HeldChordKeys(k.chords.active, |k.chords.active|), 3
  {
    hide HandlePendingTimeout, HandlePendingOverload, Dispatch, Accounts;
    assert CoreInv(c, k.core, now) by { assert Facts(c, k, now); }
    var p := k.(core := HandlePendingTimeout(c, k.core, e));
    PendingTimeoutKeeps(c, k.core, e, now);
    CoreStep(c, k, p.core, now);
    OverloadKeepsInv(c, p, e, now);
    var (q, byOverload) := HandlePendingOverload(c, p, e);
    if !byOverload {
      DispatchKeeps(c, q, e, now);
    }
    AccountsThen(c, k, p, PassChord(c, k, e), Real(e));
  }

  // -------------------------------------------------------------- the chord recogniser

  /** A chord is recognised in configurations with chords only. */
  lemma Recognising(c: Config, k: Kbd, now: int)
    requires Inv(c, k, now) && ChordPending(k.chords)
    ensures Timely(k, now) && !ChordFree(c)
  {
    assert Facts(c, k, now);
  }

  /** handle_chord */
  lemma {:induction false} HandleChordKeeps(c: Config, k: Kbd, e: KeyEvent, now: int)
    requires Ok(c, k) && Inv(c, k, now) && e.timestamp <= now
    ensures var r := HandleChord(c, k, e);
            Inv(c, r.0, now) && Accounts(c, k, r.0, if r.1 then Real(e) else []) &&
            (!r.1 && e.code != 0 ==> Unheld(r.0, e))
    decreases Mode(k), Load(k) + Weighs(e), PendingWeight(k.core), 0,
              HeldChordKeys(k.chords.active, |k.chords.active|), 3
  {
    hide StartChord, ExtendChord, HoldChord, DisambiguationTick, ProcessEvent, Inv, Accounts;
    var held := if e.code != 0 && !e.pressed then FindHeld(k.chords.active, e.code, |k.chords.active|) else -1;
    if held != -1 {
      ReleaseChordKeeps(c, k, held, e, now);
    } else {
      match k.chords.phase
      case Resolving => AccountsNothing(c, k, k);
      case Inactive => StartChordKeeps(c, k, e, now);
      case PendingDisambiguation => DisambiguateKeeps(c, k, e, now);
      case PendingHoldTimeout => HoldChordKeeps(c, k, e, now);
    }
  }

  lemma {:induction false} ReleaseChordKeeps(c: Config, k: Kbd, held: nat, e: KeyEvent, now: int)
    requires Ok(c, k) && Inv(c, k, now) && e.timestamp <= now && e.code != 0 && !e.pressed
    requires held == FindHeld(k.chords.active, e.code, |k.chords.active|)
    ensures var r := HandleChord(c, k, e); Inv(c, r.0, now) && Accounts(c, k, r.0, [e])
    decreases Mode(k), Load(k) + 1, PendingWeight(k.core), 0, HeldChordKeys(k.chords.active, |k.chords.active|), 2
  {
    hide ProcessEvent, Inv, Accounts;
    var p := ReleaseKey(c, k, held, e.code);
    ReleaseStep(c, k, held, e, now);
    if p.chords.active[held].active {
      var r := Settle(p, [e], []);
      AccountsNothing(c, r, r);
      SettledAccounts(c, k, r, r, held, e, []);
    } else {
      var release := KeyEvent(CHORD_1 + held, false, e.timestamp);
      var q := Settle(p, [e], [release]);
      ProcessEventKeeps(c, q, release, ProcessEvent(c, q, release).0, now);
      SettledAccounts(c, k, q, ProcessEvent(c, q, release).0, held, e, [release]);
    }
  }

  /** Without chords in the configuration nothing matches. */
  lemma {:induction false} NoChordsScan(c: Config, ls: seq<LayerState>, queue: seq<KeyEvent>, l: nat, s: Scan)
    requires ChordFree(c) && l <= |ls| == |c.layers|
    ensures ScanLayers(c, ls, queue, l, s) == s
    decreases l
  {
    if l != 0 {
      NoChordsScan(c, ls, queue, l - 1, s);
    }
  }

  /** handle_chord in the inactive state */
  lemma {:induction false} StartChordKeeps(c: Config, k: Kbd, e: KeyEvent, now: int)
    requires Ok(c, k) && Inv(c, k, now) && e.timestamp <= now && k.chords.phase == Inactive
    ensures var r := StartChord(c, k, e);
            Inv(c, r.0, now) && Accounts(c, k, r.0, if r.1 then Real(e) else []) &&
            (!r.1 ==> r.0.chords.phase == Inactive && r.0.chords.active == k.chords.active)
    decreases Mode(k), Load(k) + Weighs(e), PendingWeight(k.core), 0,
              HeldChordKeys(k.chords.active, |k.chords.active|), 2
  {
    hide CoreOk, ActiveOk, MatchChord, Accounts;
    LayersFact(c, k);
    assert k.chords.lastCodeTime <= now by { assert Facts(c, k, now); }
    var s := Enqueue(k.chords.(queue := [], match_ := None, startCode := e.code), e);
    if !StartChord(c, k, e).1 {
      ChordStep(c, k, s, now);
      AccountsNothing(c, k, k.(chords := s));
    } else {
      var (m, t) := Matched(c, k, s);
      if ChordFree(c) {
        NoChordsScan(c, k.core.lay.ls, s.queue, |c.layers|, Scan(false, false, s.match_, s.matchLayer, -1));
      }
      MatchChordKeeps(c, k, t, m, e.timestamp, [e], now);
    }
  }

  /** handle_chord while a chord is being disambiguated */
  lemma {:induction false} DisambiguateKeeps(c: Config, k: Kbd, e: KeyEvent, now: int)
    requires Ok(c, k) && Inv(c, k, now) && e.timestamp <= now && k.chords.phase == PendingDisambiguation
    ensures var r := if e.code == 0 then DisambiguationTick(c, k, e.timestamp) else (ExtendChord(c, k, e), true);
            Inv(c, r.0, now) && Accounts(c, k, r.0, if r.1 then Real(e) else [])
    decreases Mode(k), Load(k) + Weighs(e), PendingWeight(k.core), 0,
              HeldChordKeys(k.chords.active, |k.chords.active|), 2
  {
    hide DisambiguationTick, ExtendChord, Inv, Accounts;
    if e.code == 0 {
      DisambiguationTickKeeps(c, k, e.timestamp, now);
    } else {
      ExtendChordKeeps(c, k, e, now);
    }
  }

  lemma {:induction false} DisambiguationTickKeeps(c: Config, k: Kbd, time: nat, now: int)
    requires Ok(c, k) && Inv(c, k, now) && time <= now && k.chords.phase == PendingDisambiguation
    ensures var r := DisambiguationTick(c, k, time); Inv(c, r.0, now) && Accounts(c, k, r.0, [])
    decreases Mode(k), Load(k), PendingWeight(k.core), 0, HeldChordKeys(k.chords.active, |k.chords.active|), 2, 0
  {
    hide CoreOk, ActiveOk, ResolveChord, Accounts;
    Recognising(c, k, now);
    var timeLeft := c.chordHoldTimeout - c.chordInterkeyTimeout;
    if time - k.chords.lastCodeTime < c.chordInterkeyTimeout {
      AccountsNothing(c, k, k);
    } else if k.chords.match_.Some? && timeLeft > 0 {
      var s := k.chords.(phase := PendingHoldTimeout);
      var late := time - k.chords.lastCodeTime - c.chordInterkeyTimeout;
      AwaitKeeps(c, k, s, time + timeLeft, late, now);
      BufferAccounts(c, k, Await(k, s, time + timeLeft, late), []);
    } else {
      ResolveKeeps(c, k, k.chords, [], now);
    }
  }

  lemma {:induction false} ExtendChordKeeps(c: Config, k: Kbd, e: KeyEvent, now: int)
    requires Ok(c, k) && Inv(c, k, now) && e.timestamp <= now && k.chords.phase == PendingDisambiguation && e.code != 0
    ensures var r := ExtendChord(c, k, e); Inv(c, r, now) && Accounts(c, k, r, [e])
    decreases Mode(k), Load(k) + 1, PendingWeight(k.core), 0, HeldChordKeys(k.chords.active, |k.chords.active|), 2, 0
  {
    hide CoreOk, ActiveOk, ResolveChord, MatchChord, Accounts, Inv, CheckChordMatch, Presses, ChordEventMatch;
    LayersFact(c, k);
    Recognising(c, k, now);
    if |k.chords.queue| >= QUEUE_SIZE {
      HaltKeeps(c, k, now);
      AccountsGone(c, k, Halt(k), [e]);
    } else {
      var s := Enqueue(k.chords, e);
      if !e.pressed {
        ResolveKeeps(c, k, s.(match_ := None), [e], now);
      } else {
        var (m, t) := Matched(c, k, s);
        if m == 0 {
          ResolveKeeps(c, k, t.(match_ := None), [e], now);
        } else {
          MatchChordKeeps(c, k, t, m, e.timestamp, [e], now);
        }
      }
    }
  }

  /** handle_chord while a matched chord waits to be held long enough */
  lemma {:induction false} HoldChordKeeps(c: Config, k: Kbd, e: KeyEvent, now: int)
    requires Ok(c, k) && Inv(c, k, now) && e.timestamp <= now && k.chords.phase == PendingHoldTimeout
    requires e.code != 0 ==> Ungripped(k, e)
    ensures var r := HoldChord(c, k, e);
            Inv(c, r.0, now) && Accounts(c, k, r.0, if r.1 then Real(e) else []) && (e.code != 0 ==> r.1)
    decreases Mode(k), Load(k) + Weighs(e), PendingWeight(k.core), 0,
              HeldChordKeys(k.chords.active, |k.chords.active|), 2
  {
    hide CoreOk, ActiveOk, ResolveChord, Accounts;
    Recognising(c, k, now);
    if e.code == 0 {
      if e.timestamp - k.chords.lastCodeTime >= c.chordHoldTimeout {
        ResolveKeeps(c, k, k.chords, [], now);
      } else {
        AccountsNothing(c, k, k);
      }
    } else if |k.chords.queue| >= QUEUE_SIZE {
      HaltKeeps(c, k, now);
      AccountsGone(c, k, Halt(k), [e]);
    } else {
      var s := Enqueue(k.chords, e);
      if !e.pressed && e.code in s.match_.value.keys {
        ResolveKeeps(c, k, s.(match_ := None), [e], now);
      } else {
        ChordStep(c, k, s, now);
        BufferAccounts(c, k, k.(chords := s), [e]);
      }
    }
  }

  /** handle_chord once the buffer, which `taken` extends, matches some chord */
  lemma {:induction false} MatchChordKeeps(c: Config, k: Kbd, s: Chords, m: nat, time: nat, taken: seq<KeyEvent>,
                                           now: int)
    requires Ok(c, k) && Inv(c, k, now) && time <= now && !ChordFree(c)
    requires 1 <= m <= 3 && Mode(k) == 1 && ResolvableOk(c, k, s) && s.phase != Resolving
    requires forall i | 0 <= i < |s.queue| :: s.queue[i].pressed
    requires m >= 2 ==> s.match_.Some?
    requires Past(s.queue, now) && s.queue == Buffer(k.chords) + taken
    ensures var r := MatchChord(c, k, s, m, time); Inv(c, r, now) && Accounts(c, k, r, taken)
    decreases Mode(k), |k.oq| + |s.queue|, PendingWeight(k.core), 0,
              HeldChordKeys(k.chords.active, |k.chords.active|), 1
  {
    hide CoreOk, ActiveOk, ResolveChord, Inv, Accounts, OfClass, ChordFree;
    var t := s.(lastCodeTime := time);
    assert forall i | 0 <= i < |taken| :: s.queue[|Buffer(k.chords)| + i] == taken[i];
    if m != 2 {
      var u := t.(phase := PendingDisambiguation);
      AwaitKeeps(c, k, u, time + c.chordInterkeyTimeout, 0, now);
      BufferAccounts(c, k, Await(k, u, time + c.chordInterkeyTimeout, 0), taken);
    } else if c.chordHoldTimeout != 0 {
      var u := t.(phase := PendingHoldTimeout);
      AwaitKeeps(c, k, u, time + c.chordHoldTimeout, 0, now);
      BufferAccounts(c, k, Await(k, u, time + c.chordHoldTimeout, 0), taken);
    } else {
      ResolveKeeps(c, k, t, taken, now);
    }
  }

  /** resolve_chord */
  lemma {:induction false} ResolveKeeps(c: Config, k: Kbd, s: Chords, taken: seq<KeyEvent>, now: int)
    requires Ok(c, k) && Inv(c, k, now) && !ChordFree(c)
    requires Mode(k) == 1 && ResolvableOk(c, k, s) && s.lastCodeTime <= now
    requires Past(s.queue, now) && s.queue == Buffer(k.chords) + taken
    ensures var r := ResolveChord(c, k, s); Inv(c, r, now) && Accounts(c, k, r, taken)
    decreases Mode(k), |k.oq| + |s.queue|, PendingWeight(k.core), 0,
              HeldChordKeys(k.chords.active, |k.chords.active|), 0
  {
    hide CoreOk, Replay, PressChord, Inv, Accounts;
    var p := k.(chords := s.(phase := Resolving));
    ChordStep(c, k, p.chords, now);
    match s.match_
    case None =>
      ReplayChordKeeps(c, p, s.queue, now);
      assert [] + s.queue == s.queue && k.log.settled + [] == k.log.settled && k.log.made + [] == k.log.made;
      ReplayAccounts(c, k, p, ResolveChord(c, k, s), [], s.queue, [], taken);
    case Some(chord) =>
      var free := FindFree(s.active, |s.active|);
      if free == -1 {
        HaltKeeps(c, p, now);
        AccountsGone(c, k, Halt(p), taken);
      } else {
        ResolveMatchKeeps(c, k, p, free, s, PressChord(c, p, free, s), ResolveChord(c, k, s), taken, now);
      }
  }

  lemma {:induction false} ResolveMatchKeeps(c: Config, k: Kbd, p: Kbd, free: nat, s: Chords, pressed: Kbd, r: Kbd,
                                             taken: seq<KeyEvent>, now: int)
    requires Ok(c, k) && !ChordFree(c) && p == k.(chords := s.(phase := Resolving)) && Ok(c, p) && Inv(c, p, now)
    requires s.match_.Some? && free < MAX_ACTIVE_CHORDS && !s.active[free].active
    requires ResolvableOk(c, k, s) && s.lastCodeTime <= now && Past(s.queue, now) && s.queue == Buffer(k.chords) + taken
    requires pressed == PressChord(c, p, free, s) && r == Replay(c, pressed, s.queue[|s.match_.value.keys|..])
    ensures Inv(c, r, now) && Accounts(c, k, r, taken)
    decreases Mode(p), Load(p) + |s.queue|, PendingWeight(p.core), 3
  {
    hide CoreOk, Replay, ProcessEvent, Inv, Accounts, Settles, OfClass, ChordFree;
    var n, press := |s.match_.value.keys|, KeyEvent(CHORD_1 + free, true, s.lastCodeTime);
    var prefix, rest := s.queue[..n], s.queue[n..];
    var q := Settle(ActivateChord(c, p, free, s.match_.value, s.matchLayer), prefix, [press]);
    PressStep(c, p, free, s, now);
    ProcessEventKeeps(c, q, press, pressed, now);
    ReplayChordKeeps(c, pressed, rest, now);
    MatchAccounts(c, k, p, q, free, s, pressed, r, taken);
  }

  /** A match is accounted for: the prefix, the press of the chord and the rest. */
  lemma MatchAccounts(c: Config, k: Kbd, p: Kbd, q: Kbd, free: nat, s: Chords, pressed: Kbd, r: Kbd,
                      taken: seq<KeyEvent>)
    requires Ok(c, k) && !ChordFree(c) && p == k.(chords := s.(phase := Resolving)) && Ok(c, p)
    requires s.match_.Some? && free < MAX_ACTIVE_CHORDS && !s.active[free].active && ResolvableOk(c, k, s)
    requires s.queue == Buffer(k.chords) + taken
    requires q == Settle(ActivateChord(c, p, free, s.match_.value, s.matchLayer), s.queue[..|s.match_.value.keys|],
                    [KeyEvent(CHORD_1 + free, true, s.lastCodeTime)])
    requires Accounts(c, q, pressed, [KeyEvent(CHORD_1 + free, true, s.lastCodeTime)])
    requires Accounts(c, pressed, r, s.queue[|s.match_.value.keys|..]) && (pressed.core.overflow ==> r.core.overflow)
    ensures Accounts(c, k, r, taken)
  {
    hide CoreOk, Accounts, Settles, OfClass, ChordFree;
    var n, press := |s.match_.value.keys|, KeyEvent(CHORD_1 + free, true, s.lastCodeTime);
    var prefix, rest := s.queue[..n], s.queue[n..];
    AccountsSteps(c, q, pressed, r, [press], rest);
    Split(s.queue, n);
    MatchSettles(c, k, p, q, free, s);
    ReplayAccounts(c, k, q, r, prefix, rest, [press], taken);
  }

  /** The matched prefix is settled by the press of the chord. */
  lemma MatchSettles(c: Config, k: Kbd, p: Kbd, q: Kbd, free: nat, s: Chords)
    requires Ok(c, k) && p == k.(chords := s.(phase := Resolving)) && Ok(c, p) && ResolvableOk(c, k, s)
    requires s.match_.Some? && free < MAX_ACTIVE_CHORDS && !s.active[free].active
    requires q == Settle(ActivateChord(c, p, free, s.match_.value, s.matchLayer), s.queue[..|s.match_.value.keys|],
                    [KeyEvent(CHORD_1 + free, true, s.lastCodeTime)])
    ensures Settles(k, q, s.queue[..|s.match_.value.keys|]) && q.oq == k.oq && q.core == k.core
    ensures q.log.made == k.log.made + [KeyEvent(CHORD_1 + free, true, s.lastCodeTime)]
  {
    hide CoreOk;
    assert SettlesPress(k, q, s.queue[..|s.match_.value.keys|], free, q.chords.active[free]);
  }

  lemma {:induction false} ReplayChordKeeps(c: Config, k: Kbd, queue: seq<KeyEvent>, now: int)
    requires Ok(c, k) && Inv(c, k, now) && !ChordFree(c) && Mode(k) == 0 && Past(queue, now)
    ensures var r := Replay(c, k, queue); Inv(c, r, now) && Accounts(c, k, r, queue)
    decreases Mode(k), Load(k) + |queue|, PendingWeight(k.core), 2
  {
    hide ProcessEvents, Accounts;
    ReplayKeepsInv(c, k, queue, now);
    var p, r := ProcessEvents(c, k, queue, 0, 0, 0).0, Replay(c, k, queue);
    assert p.chords.lastCodeTime <= now by { assert Facts(c, p, now); }
    ChordStep(c, p, r.chords, now);
    AccountsNothing(c, p, r);
    ThenAccounts(c, k, p, r, queue);
  }
}
