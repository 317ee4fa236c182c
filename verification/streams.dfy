/** Streams of key events, and ways to look at them. */
module Streams {
  import opened Keys
  import opened State

  /** A way to look at a stream of events: the events of one key, all presses, or the presses
      of keys, which leaves out the synthetic presses of chords. */
  datatype View = KeyView(code: Code) | PressView | StrikeView

  predicate Shows(v: View, e: KeyEvent) {
    match v
    case KeyView(code) => e.code == code
    case PressView => e.pressed
    case StrikeView => e.pressed && !IsChordCode(e.code)
  }

  /** The events of a stream that a view shows, in order. */
  function See(v: View, events: seq<KeyEvent>): seq<KeyEvent> {
    if events == [] then []
    else
      var n := |events| - 1;
      See(v, events[..n]) + if Shows(v, events[n]) then [events[n]] else []
  }

  lemma {:induction false} SeeConcat(v: View, a: seq<KeyEvent>, b: seq<KeyEvent>)
    ensures See(v, a + b) == See(v, a) + See(v, b)
    decreases |b|
  {
    if b == [] {
      assert a + b == a;
    } else {
      var n := |b| - 1;
      assert (a + b)[..|a + b| - 1] == a + b[..n];
      SeeConcat(v, a, b[..n]);
    }
  }

  lemma {:induction false} SeeNothing(v: View, events: seq<KeyEvent>)
    requires forall i | 0 <= i < |events| :: !Shows(v, events[i])
    ensures See(v, events) == []
    decreases |events|
  {
    if events != [] {
      SeeNothing(v, events[..|events| - 1]);
    }
  }

  lemma SeeOne(v: View, e: KeyEvent)
    ensures See(v, [e]) == if Shows(v, e) then [e] else []
  {
    assert [e][..0] == [];
  }

  /** A view shows events of the stream only. */
  lemma {:induction false} SeeShown(v: View, events: seq<KeyEvent>)
    ensures forall i | 0 <= i < |See(v, events)| :: See(v, events)[i] in events && Shows(v, See(v, events)[i])
    decreases |events|
  {
    if events != [] {
      var n := |events| - 1;
      SeeShown(v, events[..n]);
      assert events == events[..n] + [events[n]];
    }
  }

  /** press, release, press, release, ... starting with a press. */
  ghost predicate TakesTurns(events: seq<KeyEvent>) {
    forall i | 0 <= i < |events| :: events[i].pressed == (i % 2 == 0)
  }

  /** The last event of a key is a press: the key is held. */
  predicate Held(events: seq<KeyEvent>, code: Code) {
    var own := See(KeyView(code), events);
    own != [] && own[|own| - 1].pressed
  }

  lemma HeldAfter(events: seq<KeyEvent>, e: KeyEvent, code: Code)
    ensures Held(events + [e], code) == if e.code == code then e.pressed else Held(events, code)
  {
    SeeConcat(KeyView(code), events, [e]);
    SeeOne(KeyView(code), e);
  }

  // ----------------------------------------------------------------------------- batches

  /** The event itself, unless it is a tick. */
  function Real(e: KeyEvent): seq<KeyEvent> {
    if e.code != 0 then [e] else []
  }

  /** The key events of a batch. */
  function Reals(events: seq<KeyEvent>): seq<KeyEvent> {
    if events == [] then [] else Real(events[0]) + Reals(events[1..])
  }

  lemma {:induction false} AllReal(events: seq<KeyEvent>)
    requires forall i | 0 <= i < |events| :: events[i].code != 0
    ensures Reals(events) == events
    decreases |events|
  {
    if events != [] {
      AllReal(events[1..]);
    }
  }

  /** The key events of a batch from event i on. */
  function Rest(events: seq<KeyEvent>, i: nat): seq<KeyEvent>
    requires i <= |events|
  {
    Reals(events[i..])
  }

  lemma RealsStep(events: seq<KeyEvent>, i: nat)
    requires i < |events|
    ensures Rest(events, i) == Real(events[i]) + Rest(events, i + 1)
  {
    assert events[i..][1..] == events[i + 1..];
  }

  lemma Split<T>(s: seq<T>, n: nat)
    requires n <= |s|
    ensures s == s[..n] + s[n..]
  {
  }
}
