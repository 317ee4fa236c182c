/** Where every event is: settled, or held back by the pending overload or by the chord
    recogniser; and in which order. */
module Ledger {
  import opened Collections
  import opened Keys
  import opened Configs
  import opened State
  import opened Events
  import opened Streams

  // --------------------------------------------------------------------------- quantities

  /** The events the recogniser holds back. */
  function Buffer(s: Chords): seq<KeyEvent> {
    if ChordPending(s) then s.queue else []
  }

  /** The key events the engine has taken in: settled ones and queued ones. */
  function Total(k: Kbd): multiset<KeyEvent> {
    multiset(k.log.settled) + multiset(k.oq) + multiset(Buffer(k.chords))
  }

  /** The events that got through, followed by those the pending overload holds back. */
  function Line(k: Kbd, v: View): seq<KeyEvent> {
    See(v, k.log.passed) + See(v, k.oq)
  }

  /** The settled events, followed by those the recogniser holds back. */
  function Course(k: Kbd, v: View): seq<KeyEvent> {
    See(v, k.log.settled) + See(v, Buffer(k.chords))
  }

  /** Every event of `taken` was settled or queued, once, and so were the synthetic events. */
  ghost predicate Conserved(k: Kbd, r: Kbd, taken: seq<KeyEvent>) {
    Total(r) + multiset(k.log.made) == Total(k) + multiset(r.log.made) + multiset(taken)
  }

  /** A view of the stream grew by what it shows of `taken`, in order. */
  ghost predicate InLine(k: Kbd, r: Kbd, taken: seq<KeyEvent>, v: View) {
    Line(r, v) == Line(k, v) + See(v, taken)
  }

  ghost predicate InCourse(k: Kbd, r: Kbd, taken: seq<KeyEvent>, v: View) {
    Course(r, v) == Course(k, v) + See(v, taken)
  }

  /** The code of a key, not of a chord. */
  predicate Physical(x: Code) {
    x != 0 && !IsChordCode(x)
  }

  /** An active chord still holds key x. */
  predicate Grips(a: ActiveChord, x: Code) {
    a.active && x in a.keys && Physical(x)
  }

  /** A key gripped by an active chord is gripped by no other, its press was settled last, and
      its release is not held back. */
  ghost predicate Orderly(k: Kbd) {
    forall i, x: Code | 0 <= i < |k.chords.active| && Grips(k.chords.active[i], x) :: Tidy(k, i, x)
  }

  ghost predicate Tidy(k: Kbd, i: nat, x: Code) {
    Held(k.log.settled, x) && NoRelease(Buffer(k.chords), x) &&
    forall j | 0 <= j < |k.chords.active| && j != i :: !Grips(k.chords.active[j], x)
  }

  predicate NoRelease(events: seq<KeyEvent>, x: Code) {
    forall i | 0 <= i < |events| && events[i].code == x :: events[i].pressed
  }

  /** The events of key x so far, continued by `taken`, are a press, a release, a press, ... */
  ghost predicate KeyTurns(k: Kbd, taken: seq<KeyEvent>, x: Code) {
    TakesTurns(Course(k, KeyView(x)) + See(KeyView(x), taken))
  }

  ghost predicate Turns(k: Kbd, taken: seq<KeyEvent>) {
    forall x: Code | Physical(x) :: KeyTurns(k, taken, x)
  }

  ghost predicate KeysInCourse(k: Kbd, r: Kbd, taken: seq<KeyEvent>) {
    forall x: Code | Physical(x) :: InCourse(k, r, taken, KeyView(x))
  }

  /** Where no event is ever delayed by an overload, presses stay in order through the
      recogniser, and so do the events of each key if it is pressed and released in turn. */
  ghost predicate Ordered(k: Kbd, r: Kbd, taken: seq<KeyEvent>) {
    InCourse(k, r, taken, StrikeView) &&
    (Orderly(k) && Turns(k, taken) ==> Orderly(r) && KeysInCourse(k, r, taken))
  }

  /** The events taken in between two moments: none is lost or duplicated, and without chords
      or without delays they stay in order. */
  ghost predicate Tallies(c: Config, k: Kbd, r: Kbd, taken: seq<KeyEvent>) {
    !r.core.overflow ==>
      Conserved(k, r, taken) && (ChordFree(c) ==> forall v: View :: InLine(k, r, taken, v)) &&
      (OfClass(c, Undelayed) ==> Ordered(k, r, taken))
  }

  /** The same, stated so that it unfolds only where a proof asks for it. */
  ghost predicate Accounts(c: Config, k: Kbd, r: Kbd, taken: seq<KeyEvent>) {
    forall q | q == r :: Tallies(c, k, q, taken)
  }

  // ------------------------------------------------------------------------- one after another

  lemma Chain<T>(tk: multiset<T>, mk: multiset<T>, tp: multiset<T>, mp: multiset<T>,
                 tr: multiset<T>, mr: multiset<T>, a: multiset<T>, b: multiset<T>)
    requires tp + mk == tk + mp + a && tr + mp == tp + mr + b
    ensures tr + mk == tk + mr + (a + b)
  {
    forall e: T ensures tr[e] + mk[e] == tk[e] + mr[e] + (a[e] + b[e]) {
      assert (tp + mk)[e] == (tk + mp + a)[e] && (tr + mp)[e] == (tp + mr + b)[e];
    }
  }

  lemma ConservedSteps(k: Kbd, p: Kbd, r: Kbd, a: seq<KeyEvent>, b: seq<KeyEvent>)
    requires Conserved(k, p, a) && Conserved(p, r, b)
    ensures Conserved(k, r, a + b)
  {
    Chain(Total(k), multiset(k.log.made), Total(p), multiset(p.log.made), Total(r), multiset(r.log.made),
          multiset(a), multiset(b));
    assert multiset(a + b) == multiset(a) + multiset(b);
  }

  lemma InLineSteps(k: Kbd, p: Kbd, r: Kbd, a: seq<KeyEvent>, b: seq<KeyEvent>, v: View)
    requires InLine(k, p, a, v) && InLine(p, r, b, v)
    ensures InLine(k, r, a + b, v)
  {
    SeeConcat(v, a, b);
  }

  lemma InCourseSteps(k: Kbd, p: Kbd, r: Kbd, a: seq<KeyEvent>, b: seq<KeyEvent>, v: View)
    requires InCourse(k, p, a, v) && InCourse(p, r, b, v)
    ensures InCourse(k, r, a + b, v)
  {
    SeeConcat(v, a, b);
  }

  /** What takes turns does so from its beginning. */
  lemma TurnsFirst(k: Kbd, a: seq<KeyEvent>, b: seq<KeyEvent>)
    requires Turns(k, a + b)
    ensures Turns(k, a)
  {
    forall x: Code | Physical(x) ensures KeyTurns(k, a, x) {
      var v := KeyView(x);
      SeeConcat(v, a, b);
      var front, all := Course(k, v) + See(v, a), Course(k, v) + See(v, a + b);
      assert KeyTurns(k, a + b, x);
      assert forall i | 0 <= i < |front| :: front[i] == all[i];
    }
  }

  lemma TurnsThen(k: Kbd, p: Kbd, a: seq<KeyEvent>, b: seq<KeyEvent>)
    requires Turns(k, a + b) && KeysInCourse(k, p, a)
    ensures Turns(p, b)
  {
    forall x: Code | Physical(x) ensures KeyTurns(p, b, x) {
      var v := KeyView(x);
      SeeConcat(v, a, b);
      assert KeyTurns(k, a + b, x) && InCourse(k, p, a, v);
      assert Course(p, v) + See(v, b) == Course(k, v) + See(v, a + b);
    }
  }

  lemma OrderedSteps(k: Kbd, p: Kbd, r: Kbd, a: seq<KeyEvent>, b: seq<KeyEvent>)
    requires Ordered(k, p, a) && Ordered(p, r, b)
    ensures Ordered(k, r, a + b)
  {
    hide Orderly, Turns, InCourse;
    InCourseSteps(k, p, r, a, b, StrikeView);
    if Orderly(k) && Turns(k, a + b) {
      TurnsFirst(k, a, b);
      TurnsThen(k, p, a, b);
      forall x: Code | Physical(x) ensures InCourse(k, r, a + b, KeyView(x)) {
        InCourseSteps(k, p, r, a, b, KeyView(x));
      }
    }
  }

  lemma AccountsSteps(c: Config, k: Kbd, p: Kbd, r: Kbd, a: seq<KeyEvent>, b: seq<KeyEvent>)
    requires Accounts(c, k, p, a) && Accounts(c, p, r, b) && (p.core.overflow ==> r.core.overflow)
    ensures Accounts(c, k, r, a + b)
  {
    hide OfClass, Positive, ChordFree, Ordered;
    assert Tallies(c, k, p, a) && Tallies(c, p, r, b);
    if !r.core.overflow {
      ConservedSteps(k, p, r, a, b);
      if ChordFree(c) {
        forall v: View ensures InLine(k, r, a + b, v) {
          InLineSteps(k, p, r, a, b, v);
        }
      }
      if OfClass(c, Undelayed) {
        OrderedSteps(k, p, r, a, b);
      }
    }
    assert Tallies(c, k, r, a + b);
  }

  lemma AccountsThen(c: Config, k: Kbd, p: Kbd, r: Kbd, taken: seq<KeyEvent>)
    requires Accounts(c, k, p, []) && Accounts(c, p, r, taken) && (p.core.overflow ==> r.core.overflow)
    ensures Accounts(c, k, r, taken)
  {
    AccountsSteps(c, k, p, r, [], taken);
    assert [] + taken == taken;
  }

  lemma ThenAccounts(c: Config, k: Kbd, p: Kbd, r: Kbd, taken: seq<KeyEvent>)
    requires Accounts(c, k, p, taken) && Accounts(c, p, r, []) && (p.core.overflow ==> r.core.overflow)
    ensures Accounts(c, k, r, taken)
  {
    AccountsSteps(c, k, p, r, taken, []);
    assert taken + [] == taken;
  }

  // ------------------------------------------------------------------------- nothing happened

  lemma OrderedNothing(k: Kbd, r: Kbd)
    requires r.log.settled == k.log.settled && Buffer(r.chords) == Buffer(k.chords) &&
             r.chords.active == k.chords.active
    ensures Ordered(k, r, [])
  {
    forall v: View ensures InCourse(k, r, [], v) {
      assert See(v, []) == [];
    }
  }

  lemma AccountsNothing(c: Config, k: Kbd, r: Kbd)
    requires r.log.settled == k.log.settled && r.log.made == k.log.made && r.log.passed == k.log.passed
    requires r.oq == k.oq && Buffer(r.chords) == Buffer(k.chords) && r.chords.active == k.chords.active
    ensures Accounts(c, k, r, [])
  {
    assert Total(r) == Total(k);
    assert Conserved(k, r, []);
    forall v: View ensures InLine(k, r, [], v) {
      assert See(v, []) == [];
    }
    OrderedNothing(k, r);
    assert Tallies(c, k, r, []);
  }

  lemma BatchEnd(c: Config, k: Kbd, events: seq<KeyEvent>, i: nat)
    requires i <= |events| && (i == |events| || k.core.overflow)
    ensures Accounts(c, k, k, Rest(events, i))
  {
    if i == |events| {
      assert events[i..] == [];
      AccountsNothing(c, k, k);
    } else {
      assert Tallies(c, k, k, Rest(events, i));
    }
  }

  /** After a failed assertion nothing is accounted for. */
  lemma AccountsGone(c: Config, k: Kbd, r: Kbd, taken: seq<KeyEvent>)
    requires r.core.overflow
    ensures Accounts(c, k, r, taken)
  {
    assert Tallies(c, k, r, taken);
  }

  // -------------------------------------------------------------------- an event gets through

  /** An event that gets through joins the end of every view that shows it. */
  lemma PassedInLine(k: Kbd, r: Kbd, e: KeyEvent, v: View)
    requires r.log.passed == k.log.passed + [e] && r.oq == k.oq
    requires Shows(v, e) ==> See(v, k.oq) == []
    ensures InLine(k, r, [e], v)
  {
    SeeConcat(v, k.log.passed, [e]);
    SeeOne(v, e);
  }

  /** Not the release of a key that an active chord grips. */
  ghost predicate Ungripped(k: Kbd, e: KeyEvent) {
    !e.pressed ==> forall i | 0 <= i < |k.chords.active| :: !Grips(k.chords.active[i], e.code)
  }

  /** An event that the recogniser lets through: it holds none back. */
  ghost predicate Unheld(k: Kbd, e: KeyEvent) {
    !ChordPending(k.chords) && Ungripped(k, e)
  }

  lemma OrderedKey(k: Kbd, r: Kbd, e: KeyEvent)
    requires r.log.settled == k.log.settled + [e] && r.chords == k.chords && Unheld(k, e)
    ensures Ordered(k, r, [e])
  {
    forall v: View ensures InCourse(k, r, [e], v) {
      SeeConcat(v, k.log.settled, [e]);
      assert See(v, Buffer(k.chords)) == [];
    }
    if Orderly(k) {
      forall i, x: Code | 0 <= i < |r.chords.active| && Grips(r.chords.active[i], x) ensures Tidy(r, i, x) {
        assert Tidy(k, i, x);
        HeldAfter(k.log.settled, e, x);
      }
    }
  }

  lemma KeyAccounts(c: Config, k: Kbd, r: Kbd, e: KeyEvent)
    requires r.log.passed == k.log.passed + [e] && r.oq == k.oq && r.chords == k.chords
    requires r.log.settled == k.log.settled + [e] && r.log.made == k.log.made && Unheld(k, e)
    requires ChordFree(c) ==> forall v: View | Shows(v, e) :: See(v, k.oq) == []
    ensures Accounts(c, k, r, [e])
  {
    hide OfClass;
    assert multiset(k.log.settled + [e]) == multiset(k.log.settled) + multiset([e]);
    assert Total(r) == Total(k) + multiset([e]);
    if ChordFree(c) {
      forall v: View ensures InLine(k, r, [e], v) {
        PassedInLine(k, r, e, v);
      }
    }
    OrderedKey(k, r, e);
    assert Tallies(c, k, r, [e]);
  }

  // ----------------------------------------------------------------------- the overload queue

  /** The pending overload holds back a key event. */
  lemma DelayAccounts(c: Config, k: Kbd, r: Kbd, e: KeyEvent)
    requires r == k.(oq := k.oq + [e]) && !OfClass(c, Undelayed)
    ensures Accounts(c, k, r, [e])
  {
    hide OfClass;
    assert multiset(k.oq + [e]) == multiset(k.oq) + multiset([e]);
    assert Total(r) == Total(k) + multiset([e]);
    forall v: View ensures InLine(k, r, [e], v) {
      SeeConcat(v, k.oq, [e]);
    }
    assert Tallies(c, k, r, [e]);
  }

  /** Replaying the emptied queue accounts for it. */
  lemma UnqueueAccounts(c: Config, k: Kbd, p: Kbd, r: Kbd, taken: seq<KeyEvent>)
    requires p.log == k.log && p.chords == k.chords && p.oq == [] && !OfClass(c, Undelayed)
    requires Accounts(c, p, r, k.oq + taken)
    ensures Accounts(c, k, r, taken)
  {
    hide OfClass;
    assert Tallies(c, p, r, k.oq + taken);
    if !r.core.overflow {
      assert multiset(k.oq + taken) == multiset(k.oq) + multiset(taken);
      assert Total(k) == Total(p) + multiset(k.oq);
      assert Conserved(k, r, taken);
      forall v: View | ChordFree(c) ensures InLine(k, r, taken, v) {
        assert InLine(p, r, k.oq + taken, v);
        SeeConcat(v, k.oq, taken);
        assert Line(k, v) == Line(p, v) + See(v, k.oq);
      }
    }
    assert Tallies(c, k, r, taken);
  }

  // ------------------------------------------------------------------------------ the buffer

  lemma OrderedBuffer(k: Kbd, r: Kbd, taken: seq<KeyEvent>)
    requires r.log.settled == k.log.settled && r.chords.active == k.chords.active
    requires Buffer(r.chords) == Buffer(k.chords) + taken
    requires forall e <- taken :: Ungripped(k, e)
    ensures Ordered(k, r, taken)
  {
    forall v: View ensures InCourse(k, r, taken, v) {
      SeeConcat(v, Buffer(k.chords), taken);
    }
    if Orderly(k) {
      forall i, x: Code | 0 <= i < |r.chords.active| && Grips(r.chords.active[i], x) ensures Tidy(r, i, x) {
        assert Tidy(k, i, x);
        assert forall j | 0 <= j < |taken| && taken[j].code == x :: Ungripped(k, taken[j]);
      }
    }
  }

  /** A buffer that grew by what was taken in. */
  lemma BufferAccounts(c: Config, k: Kbd, r: Kbd, taken: seq<KeyEvent>)
    requires !ChordFree(c) && r.oq == k.oq && r.log.settled == k.log.settled && r.log.made == k.log.made
    requires Buffer(r.chords) == Buffer(k.chords) + taken && r.chords.active == k.chords.active
    requires forall e <- taken :: Ungripped(k, e)
    ensures Accounts(c, k, r, taken)
  {
    hide OfClass, Positive, ChordFree;
    assert multiset(Buffer(k.chords) + taken) == multiset(Buffer(k.chords)) + multiset(taken);
    OrderedBuffer(k, r, taken);
    assert Tallies(c, k, r, taken);
  }

  // ---------------------------------------------------------------------- a chord is resolved

  /** Presses that continue what ends with a press break the turns. */
  lemma NoSecondPress(k: Kbd, taken: seq<KeyEvent>, prefix: seq<KeyEvent>, rest: seq<KeyEvent>, x: Code)
    requires KeyTurns(k, taken, x) && Buffer(k.chords) + taken == prefix + rest
    requires forall e <- prefix :: e.pressed
    ensures |See(KeyView(x), prefix)| <= 1
    ensures Held(k.log.settled, x) ==> See(KeyView(x), prefix) == []
  {
    var v := KeyView(x);
    SeeConcat(v, Buffer(k.chords), taken);
    SeeConcat(v, prefix, rest);
    SeePressed(v, prefix);
    hide See, Buffer, TakesTurns, Shows;
    var before, mine, after := See(v, k.log.settled), See(v, prefix), See(v, rest);
    var held, more := See(v, Buffer(k.chords)), See(v, taken);
    Regrouped(before, held, more, mine, after);
    PressesApart(before, mine, after);
  }

  lemma Regrouped<T>(before: seq<T>, held: seq<T>, more: seq<T>, mine: seq<T>, after: seq<T>)
    requires held + more == mine + after
    ensures (before + held) + more == before + mine + after
  {
    assert (before + held) + more == before + (held + more);
    assert before + (mine + after) == before + mine + after;
  }

  lemma SeePressed(v: View, events: seq<KeyEvent>)
    requires forall e <- events :: e.pressed
    ensures forall i | 0 <= i < |See(v, events)| :: See(v, events)[i].pressed
  {
    SeeShown(v, events);
  }

  /** No two presses follow each other where turns are taken. */
  lemma PressesApart(before: seq<KeyEvent>, mine: seq<KeyEvent>, after: seq<KeyEvent>)
    requires TakesTurns(before + mine + after)
    requires forall i | 0 <= i < |mine| :: mine[i].pressed
    ensures |mine| <= 1
    ensures before != [] && before[|before| - 1].pressed ==> mine == []
  {
    hide TakesTurns;
    if before != [] {
      assert before + mine + after == [] + before + (mine + after);
      TurnsAt([], before, mine + after, |before| - 1);
    }
    if |mine| > 1 {
      TurnsAt(before, mine, after, 1);
    }
    if mine != [] {
      TurnsAt(before, mine, after, 0);
    }
  }

  lemma TurnsAt(before: seq<KeyEvent>, mine: seq<KeyEvent>, after: seq<KeyEvent>, i: nat)
    requires i < |mine| && TakesTurns(before + mine + after)
    ensures mine[i].pressed == ((|before| + i) % 2 == 0)
  {
    assert (before + mine + after)[|before| + i] == mine[i];
  }

  lemma SeeTwo(x: Code, events: seq<KeyEvent>, i: nat, j: nat)
    requires i < j < |events| && events[i].code == x && events[j].code == x
    ensures |See(KeyView(x), events)| >= 2
  {
    var v := KeyView(x);
    Split(events, j);
    SeeConcat(v, events[..j], events[j..]);
    SeeAny(x, events[..j], i);
    SeeAny(x, events[j..], 0);
  }

  lemma SeeAny(x: Code, events: seq<KeyEvent>, i: nat)
    requires i < |events| && events[i].code == x
    ensures |See(KeyView(x), events)| >= 1
  {
    var v := KeyView(x);
    Split(events, i);
    SeeConcat(v, events[..i], events[i..]);
    Split(events[i..], 1);
    SeeConcat(v, events[i..][..1], events[i..][1..]);
    assert events[i..][..1] == [events[i]];
    SeeOne(v, events[i]);
  }

  /** A prefix of presses of a chord's keys, one for each, presses every key of the chord. */
  lemma PrefixPresses(keys: seq<Code>, prefix: seq<KeyEvent>)
    requires |prefix| == |keys| && forall i | 0 <= i < |keys| :: prefix[i].pressed && prefix[i].code in keys
    ensures Distinct(Presses(prefix)) ==> Set(Presses(prefix)) == Set(keys)
  {
    AllPressed(prefix);
    var p := Presses(prefix);
    if Distinct(p) {
      DistinctSize(p);
      assert Set(p) <= Set(keys);
      SubsetSize(Set(p), Set(keys));
      SetSize(keys);
    }
  }

  /** What a match settles when its keys take turns. */
  lemma PrefixGripped(k: Kbd, taken: seq<KeyEvent>, keys: seq<Code>, prefix: seq<KeyEvent>, rest: seq<KeyEvent>,
                      x: Code)
    requires Turns(k, taken) && Buffer(k.chords) + taken == prefix + rest
    requires |prefix| == |keys| && forall i | 0 <= i < |keys| :: prefix[i].pressed && prefix[i].code in keys
    requires forall y <- keys :: Physical(y)
    requires x in keys
    ensures See(KeyView(x), prefix) != [] && Held(k.log.settled + prefix, x)
  {
    AllPressed(prefix);
    var p := Presses(prefix);
    if !Distinct(p) {
      var i, j :| 0 <= i < j < |p| && p[i] == p[j];
      assert KeyTurns(k, taken, p[i]);
      SeeTwo(p[i], prefix, i, j);
      NoSecondPress(k, taken, prefix, rest, p[i]);
      assert false;
    }
    PrefixPresses(keys, prefix);
    assert x in Set(p);
    var i :| 0 <= i < |p| && p[i] == x;
    SeeAny(x, prefix, i);
    SeeShown(KeyView(x), prefix);
    SeeConcat(KeyView(x), k.log.settled, prefix);
  }

  /** A resolution settles a prefix of what the recogniser holds back: nothing, or the
      presses of a chord, which becomes active. */
  ghost predicate Settles(k: Kbd, p: Kbd, prefix: seq<KeyEvent>) {
    !ChordPending(p.chords) && p.log.settled == k.log.settled + prefix &&
    if prefix == [] then p.chords.active == k.chords.active
    else exists i, a | 0 <= i < |k.chords.active| && !k.chords.active[i].active :: SettlesPress(k, p, prefix, i, a)
  }

  ghost predicate SettlesPress(k: Kbd, p: Kbd, prefix: seq<KeyEvent>, i: nat, a: ActiveChord)
    requires i < |k.chords.active|
  {
    p.chords.active == k.chords.active[i := a] && |prefix| == |a.keys| && (forall y <- a.keys :: Physical(y)) &&
    forall j | 0 <= j < |prefix| :: prefix[j].pressed && prefix[j].code in a.keys
  }

  lemma OrderlyResolution(k: Kbd, p: Kbd, taken: seq<KeyEvent>, prefix: seq<KeyEvent>, rest: seq<KeyEvent>)
    requires Orderly(k) && Turns(k, taken) && Buffer(k.chords) + taken == prefix + rest && Settles(k, p, prefix)
    ensures Orderly(p)
  {
    if prefix == [] {
      assert k.log.settled + prefix == k.log.settled;
      forall j, x: Code | 0 <= j < |p.chords.active| && Grips(p.chords.active[j], x) ensures Tidy(p, j, x) {
        assert Tidy(k, j, x);
      }
    } else {
      var i, a :| 0 <= i < |k.chords.active| && !k.chords.active[i].active && SettlesPress(k, p, prefix, i, a);
      forall j, x: Code | 0 <= j < |p.chords.active| && Grips(p.chords.active[j], x)
        ensures Tidy(p, j, x)
      {
        OrderlyGrip(k, p, taken, prefix, rest, i, a, j, x);
      }
    }
  }

  lemma OrderlyGrip(k: Kbd, p: Kbd, taken: seq<KeyEvent>, prefix: seq<KeyEvent>, rest: seq<KeyEvent>,
                    i: nat, a: ActiveChord, j: nat, x: Code)
    requires Orderly(k) && Turns(k, taken) && Buffer(k.chords) + taken == prefix + rest
    requires i < |k.chords.active| && !k.chords.active[i].active && SettlesPress(k, p, prefix, i, a)
    requires p.log.settled == k.log.settled + prefix && Buffer(p.chords) == []
    requires j < |p.chords.active| && Grips(p.chords.active[j], x)
    ensures Tidy(p, j, x)
  {
    assert KeyTurns(k, taken, x);
    NoSecondPress(k, taken, prefix, rest, x);
    if x in a.keys {
      PrefixGripped(k, taken, a.keys, prefix, rest, x);
      assert !Held(k.log.settled, x);
    } else {
      assert Grips(k.chords.active[j], x) && Tidy(k, j, x);
      SeeConcat(KeyView(x), k.log.settled, prefix);
      assert See(KeyView(x), p.log.settled) == See(KeyView(x), k.log.settled);
    }
    forall h | 0 <= h < |p.chords.active| && h != j ensures !Grips(p.chords.active[h], x) {
      assert h != i && Grips(p.chords.active[h], x) ==> Tidy(k, h, x);
    }
  }

  lemma Rearranged(v: View, k: Kbd, p: Kbd, r: Kbd, taken: seq<KeyEvent>, prefix: seq<KeyEvent>,
                   made: seq<KeyEvent>, rest: seq<KeyEvent>)
    requires Buffer(k.chords) + taken == prefix + rest && Settles(k, p, prefix)
    requires forall e <- made :: !Shows(v, e)
    ensures Course(p, v) + See(v, made + rest) == Course(k, v) + See(v, taken)
    ensures InCourse(p, r, made + rest, v) ==> InCourse(k, r, taken, v)
  {
    SettledPrefix(k, p, prefix);
    hide Settles, Buffer;
    SeeConcat(v, Buffer(k.chords), taken);
    SeeConcat(v, prefix, rest);
    SeeConcat(v, k.log.settled, prefix);
    SeeConcat(v, made, rest);
    SeeNothing(v, made);
    assert See(v, Buffer(p.chords)) == [];
    hide See, Shows;
    Regroup(See(v, k.log.settled), See(v, Buffer(k.chords)), See(v, taken), See(v, prefix), See(v, rest));
  }

  lemma SettledPrefix(k: Kbd, p: Kbd, prefix: seq<KeyEvent>)
    requires Settles(k, p, prefix)
    ensures p.log.settled == k.log.settled + prefix && Buffer(p.chords) == []
  {
  }

  lemma Regroup<T>(settled: seq<T>, held: seq<T>, taken: seq<T>, prefix: seq<T>, rest: seq<T>)
    requires held + taken == prefix + rest
    ensures (settled + held) + taken == (settled + prefix) + [] + ([] + rest)
  {
    assert (settled + held) + taken == settled + (held + taken);
    assert (settled + prefix) + rest == settled + (prefix + rest);
  }

  lemma OrderedReplay(k: Kbd, p: Kbd, r: Kbd, prefix: seq<KeyEvent>, rest: seq<KeyEvent>, made: seq<KeyEvent>,
                      taken: seq<KeyEvent>)
    requires Buffer(k.chords) + taken == prefix + rest && Settles(k, p, prefix)
    requires (forall e <- made :: IsChordCode(e.code)) && Ordered(p, r, made + rest)
    ensures Ordered(k, r, taken)
  {
    hide Orderly, InCourse, Settles, Course, IsChordCode;
    Unshown(made);
    Rearranged(StrikeView, k, p, r, taken, prefix, made, rest);
    if Orderly(k) && Turns(k, taken) {
      OrderlyResolution(k, p, taken, prefix, rest);
      forall x: Code | Physical(x) ensures KeyTurns(p, made + rest, x) {
        assert KeyTurns(k, taken, x);
        Rearranged(KeyView(x), k, p, r, taken, prefix, made, rest);
      }
      forall x: Code | Physical(x) ensures InCourse(k, r, taken, KeyView(x)) {
        Rearranged(KeyView(x), k, p, r, taken, prefix, made, rest);
      }
    }
  }

  lemma Unshown(made: seq<KeyEvent>)
    requires forall e <- made :: IsChordCode(e.code)
    ensures forall e <- made :: !Shows(StrikeView, e) && forall x: Code | Physical(x) :: !Shows(KeyView(x), e)
  {
  }

  /** A buffer that is replayed after its first events were settled by a press of a chord
      code. */
  lemma ReplayAccounts(c: Config, k: Kbd, p: Kbd, r: Kbd, prefix: seq<KeyEvent>, rest: seq<KeyEvent>,
                       made: seq<KeyEvent>, taken: seq<KeyEvent>)
    requires !ChordFree(c) && p.oq == k.oq && Settles(k, p, prefix) && p.log.made == k.log.made + made
    requires forall e <- made :: IsChordCode(e.code)
    requires Buffer(k.chords) + taken == prefix + rest && Accounts(c, p, r, made + rest)
    ensures Accounts(c, k, r, taken)
  {
    hide OfClass, Positive, ChordFree, Ordered;
    assert Tallies(c, p, r, made + rest);
    if !r.core.overflow {
      assert multiset(Buffer(k.chords) + taken) == multiset(Buffer(k.chords)) + multiset(taken);
      assert multiset(prefix + rest) == multiset(prefix) + multiset(rest);
      assert multiset(made + rest) == multiset(made) + multiset(rest);
      assert multiset(k.log.made + made) == multiset(k.log.made) + multiset(made);
      assert multiset(k.log.settled + prefix) == multiset(k.log.settled) + multiset(prefix);
      assert Total(p) + multiset(Buffer(k.chords)) == Total(k) + multiset(prefix);
      Cancel(Total(k), Total(p), Total(r), multiset(k.log.made), multiset(made), multiset(r.log.made),
             multiset(Buffer(k.chords)), multiset(taken), multiset(prefix), multiset(rest));
      if OfClass(c, Undelayed) {
        OrderedReplay(k, p, r, prefix, rest, made, taken);
      }
    }
    assert Tallies(c, k, r, taken);
  }

  lemma Cancel<T>(k: multiset<T>, p: multiset<T>, r: multiset<T>, mk: multiset<T>, made: multiset<T>, mr: multiset<T>,
                  buffer: multiset<T>, taken: multiset<T>, prefix: multiset<T>, rest: multiset<T>)
    requires p + buffer == k + prefix && buffer + taken == prefix + rest && r + (mk + made) == p + mr + (made + rest)
    ensures r + mk == k + mr + taken
  {
    forall e: T ensures r[e] + mk[e] == k[e] + mr[e] + taken[e] {
      assert (p + buffer)[e] == (k + prefix)[e] && (buffer + taken)[e] == (prefix + rest)[e];
      assert (r + (mk + made))[e] == (p + mr + (made + rest))[e];
    }
  }

  // ------------------------------------------------------------------ a chord's key is released

  /** A release of a key that chord i grips is settled at once. */
  ghost predicate LetsGo(k: Kbd, p: Kbd, i: nat, e: KeyEvent)
    requires i < |k.chords.active|
  {
    e.code != 0 && !e.pressed && k.chords.active[i].active && e.code in k.chords.active[i].keys &&
    p.log.settled == k.log.settled + [e] && Buffer(p.chords) == Buffer(k.chords) &&
    |p.chords.active| == |k.chords.active| && p.chords.active == k.chords.active[i := p.chords.active[i]] &&
    forall x: Code | Grips(p.chords.active[i], x) :: x != e.code && Grips(k.chords.active[i], x)
  }

  /** A release that overtakes the buffer overtakes no event of its key. */
  lemma NoneHeldBack(k: Kbd, p: Kbd, i: nat, e: KeyEvent)
    requires i < |k.chords.active| && LetsGo(k, p, i, e) && Orderly(k) && Turns(k, [e]) && Physical(e.code)
    ensures See(KeyView(e.code), Buffer(k.chords)) == []
  {
    var v := KeyView(e.code);
    assert Grips(k.chords.active[i], e.code) && KeyTurns(k, [e], e.code);
    var before, mine := See(v, k.log.settled), See(v, Buffer(k.chords));
    var all := Course(k, v) + See(v, [e]);
    SeeShown(v, Buffer(k.chords));
    SeeOne(v, e);
    assert Tidy(k, i, e.code);
    if mine != [] {
      assert all == before + mine[..1] + (mine[1..] + [e]);
      PressesApart(before, mine[..1], mine[1..] + [e]);
    }
  }

  lemma ReleasedInCourse(k: Kbd, p: Kbd, i: nat, e: KeyEvent, v: View)
    requires i < |k.chords.active| && LetsGo(k, p, i, e)
    requires Shows(v, e) ==> See(v, Buffer(k.chords)) == []
    ensures InCourse(k, p, [e], v)
  {
    SeeConcat(v, k.log.settled, [e]);
    SeeOne(v, e);
  }

  lemma OrderedRelease(k: Kbd, p: Kbd, i: nat, e: KeyEvent)
    requires i < |k.chords.active| && LetsGo(k, p, i, e)
    ensures Ordered(k, p, [e])
  {
    ReleasedInCourse(k, p, i, e, StrikeView);
    if Orderly(k) && Turns(k, [e]) {
      forall x: Code | Physical(x) ensures InCourse(k, p, [e], KeyView(x)) {
        if x == e.code {
          NoneHeldBack(k, p, i, e);
        }
        ReleasedInCourse(k, p, i, e, KeyView(x));
      }
      forall j, x: Code | 0 <= j < |p.chords.active| && Grips(p.chords.active[j], x)
        ensures Tidy(p, j, x)
      {
        HeldAfter(k.log.settled, e, x);
        assert Grips(k.chords.active[j], x) && Tidy(k, j, x);
        assert x == e.code ==> Grips(k.chords.active[i], x);
      }
    }
  }

  /** Synthetic events are seen in no course. */
  lemma OrderedSynthetic(p: Kbd, r: Kbd, made: seq<KeyEvent>)
    requires (forall e <- made :: IsChordCode(e.code)) && Ordered(p, r, made) && (forall e <- made :: !e.pressed)
    ensures Ordered(p, r, [])
  {
    hide Orderly;
    SeeNothing(StrikeView, made);
    if Turns(p, []) {
      forall x: Code | Physical(x) ensures See(KeyView(x), made) == [] {
        SeeNothing(KeyView(x), made);
      }
      assert forall x: Code :: See(KeyView(x), []) == [];
      forall x: Code | Physical(x) ensures KeyTurns(p, made, x) {
        assert KeyTurns(p, [], x);
      }
      if Orderly(p) {
        forall x: Code | Physical(x) ensures InCourse(p, r, [], KeyView(x)) {
          assert InCourse(p, r, made, KeyView(x));
        }
      }
    }
  }

  lemma SettledAccounts(c: Config, k: Kbd, p: Kbd, r: Kbd, i: nat, e: KeyEvent, made: seq<KeyEvent>)
    requires !ChordFree(c) && p.oq == k.oq && i < |k.chords.active| && LetsGo(k, p, i, e)
    requires p.log.made == k.log.made + made && forall s <- made :: IsChordCode(s.code) && !s.pressed
    requires Accounts(c, p, r, made)
    ensures Accounts(c, k, r, [e])
  {
    hide OfClass, Positive, ChordFree, Ordered, LetsGo, IsChordCode;
    assert Tallies(c, p, r, made);
    if !r.core.overflow {
      assert p.log.settled == k.log.settled + [e] && Buffer(p.chords) == Buffer(k.chords) by {
        ReleaseSettles(k, p, i, e);
      }
      assert multiset(k.log.made + made) == multiset(k.log.made) + multiset(made);
      assert multiset(k.log.settled + [e]) == multiset(k.log.settled) + multiset([e]);
      assert Total(p) == Total(k) + multiset([e]);
      assert Conserved(p, r, made);
      CancelMade(Total(k), Total(r), multiset(k.log.made), multiset(made), multiset(r.log.made), multiset([e]));
      if OfClass(c, Undelayed) {
        OrderedRelease(k, p, i, e);
        OrderedSynthetic(p, r, made);
        OrderedSteps(k, p, r, [e], []);
        assert [e] + [] == [e];
      }
    }
    assert Tallies(c, k, r, [e]);
  }

  lemma CancelMade<T>(k: multiset<T>, r: multiset<T>, mk: multiset<T>, made: multiset<T>, mr: multiset<T>,
                      e: multiset<T>)
    requires r + (mk + made) == k + e + mr + made
    ensures r + mk == k + mr + e
  {
    forall x: T ensures r[x] + mk[x] == k[x] + mr[x] + e[x] {
      assert (r + (mk + made))[x] == (k + e + mr + made)[x];
    }
  }

  lemma ReleaseSettles(k: Kbd, p: Kbd, i: nat, e: KeyEvent)
    requires i < |k.chords.active| && LetsGo(k, p, i, e)
    ensures p.log.settled == k.log.settled + [e] && Buffer(p.chords) == Buffer(k.chords)
  {
  }
}
