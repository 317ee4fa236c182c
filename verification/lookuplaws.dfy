/** What lookup_descriptor, chord_event_match and check_chord_match find
    (src/keyboard.c:189-254, 290-318, 340-378), said without their loops. */
module LookupLaws {
  import opened Collections
  import opened Keys
  import opened Configs
  import opened State
  import opened Events

  // ------------------------------------------------------------------ lookup_descriptor

  /** Activation times are never negative. */
  predicate Aged(ls: seq<LayerState>) {
    forall l | 0 <= l < |ls| :: ls[l].activationTime >= 0
  }

  /** An active layer that binds the code. */
  predicate ActiveBinding(c: Config, ls: seq<LayerState>, code: Code, l: nat)
    requires ConfigOk(c) && l < |ls| == |c.layers|
  {
    ls[l].active > 0 && !c.layers[l].keymap[code].Nothing?
  }

  /** A composite layer, all of whose constituents are active, that binds the code. */
  predicate CompositeBinding(c: Config, ls: seq<LayerState>, code: Code, l: nat)
    requires ConfigOk(c) && l < |ls| == |c.layers|
  {
    c.layers[l].kind == Composite && c.layers[l].constituents != [] && FullyActive(c, ls, l) &&
    !c.layers[l].keymap[code].Nothing?
  }

  lemma {:induction false} BestActiveIsLatest(c: Config, ls: seq<LayerState>, code: Code, n: nat)
    requires ConfigOk(c) && n <= |ls| == |c.layers| && Aged(ls)
    ensures var r := BestActive(c, ls, code, n);
            (r == -1 ==> forall l | 0 <= l < n :: !ActiveBinding(c, ls, code, l)) &&
            (r != -1 ==>
               ActiveBinding(c, ls, code, r) &&
               forall l | 0 <= l < n && ActiveBinding(c, ls, code, l) ::
                 ls[l].activationTime < ls[r].activationTime ||
                   (ls[l].activationTime == ls[r].activationTime && l <= r))
    decreases n
  {
    if n != 0 {
      BestActiveIsLatest(c, ls, code, n - 1);
    }
  }

  lemma {:induction false} BestCompositeIsLargest(c: Config, ls: seq<LayerState>, code: Code, n: nat)
    requires ConfigOk(c) && n <= |ls| == |c.layers|
    ensures var r := BestComposite(c, ls, code, n);
            (r == -1 ==> forall l | 0 <= l < n :: !CompositeBinding(c, ls, code, l)) &&
            (r != -1 ==>
               CompositeBinding(c, ls, code, r) &&
               forall l | 0 <= l < n && CompositeBinding(c, ls, code, l) ::
                 |c.layers[l].constituents| < |c.layers[r].constituents| ||
                 (|c.layers[l].constituents| == |c.layers[r].constituents| && r <= l))
    decreases n
  {
    if n != 0 {
      BestCompositeIsLargest(c, ls, code, n - 1);
    }
  }

  /** The binding of a fully active composite layer with the most constituents, the first of
      several; else that of the active layer activated last, the one with the highest index of
      several; else the key itself, in layer 0. */
  lemma LookupFindsBinding(c: Config, ls: seq<LayerState>, active: seq<ActiveChord>, code: Code)
    requires ConfigOk(c) && |ls| == |c.layers| && ActiveOk(c, active) && Aged(ls) && !IsChordCode(code)
    ensures var (d, l) := LookupDescriptor(c, ls, active, code);
            if exists m | 0 <= m < |ls| :: CompositeBinding(c, ls, code, m) then
              CompositeBinding(c, ls, code, l) && d == c.layers[l].keymap[code] &&
              forall m | 0 <= m < |ls| && CompositeBinding(c, ls, code, m) ::
                |c.layers[m].constituents| < |c.layers[l].constituents| ||
                (|c.layers[m].constituents| == |c.layers[l].constituents| && l <= m)
            else if exists m | 0 <= m < |ls| :: ActiveBinding(c, ls, code, m) then
              ActiveBinding(c, ls, code, l) && d == c.layers[l].keymap[code] &&
              forall m | 0 <= m < |ls| && ActiveBinding(c, ls, code, m) ::
                ls[m].activationTime < ls[l].activationTime || (ls[m].activationTime == ls[l].activationTime && m <= l)
            else d == KeySequence(code, {}) && l == 0
  {
    BestActiveIsLatest(c, ls, code, |ls|);
    BestCompositeIsLargest(c, ls, code, |ls|);
  }

  // ------------------------------------------------------------------ chord_event_match

  /** With distinct keys pressed and distinct keys in the chord: an exact match if and only if
      the pressed keys are the chord's keys, a partial one if and only if they are some but not
      all of them. */
  lemma MatchComparesSets(chord: Chord, events: seq<KeyEvent>)
    requires Distinct(chord.keys) && Distinct(Presses(events)) && chord.keys != []
    ensures ChordEventMatch(chord, events) == 2 <==> Set(Presses(events)) == Set(chord.keys)
    ensures ChordEventMatch(chord, events) == 1 <==> {} < Set(Presses(events)) < Set(chord.keys)
  {
    var p := Presses(events);
    DistinctSize(p);
    DistinctSize(chord.keys);
    if forall i | 0 <= i < |p| :: p[i] in chord.keys {
      assert Set(p) <= Set(chord.keys);
      SubsetSize(Set(p), Set(chord.keys));
    } else {
      var i :| 0 <= i < |p| && p[i] !in chord.keys;
      assert p[i] in Set(p) && p[i] !in Set(chord.keys);
    }
    assert p != [] ==> p[0] in Set(p);
    assert chord.keys[0] in Set(chord.keys);
  }

  /** Without that, a key pressed twice counts as two keys: j, pressed twice, matches j+k. */
  lemma RepeatedPressMatches() returns (chord: Chord, events: seq<KeyEvent>)
    ensures chord.keys == [36, 37] && events == [KeyEvent(36, true, 0), KeyEvent(36, true, 1)]
    ensures Distinct(chord.keys) && ChordEventMatch(chord, events) == 2 && Set(Presses(events)) != Set(chord.keys)
  {
    chord, events := Chord([36, 37], Nothing), [KeyEvent(36, true, 0), KeyEvent(36, true, 1)];
    assert events[..1] == [KeyEvent(36, true, 0)] && events[..1][..0] == [];
    assert Presses(events) == [36, 36];
    assert 37 !in Set(Presses(events)) && 37 in Set(chord.keys);
  }

  // ------------------------------------------------------------------ check_chord_match

  /** The j-th chord of an active layer matches the queue to this degree. */
  predicate MatchAt(c: Config, ls: seq<LayerState>, queue: seq<KeyEvent>, l: nat, j: nat, degree: nat)
    requires l < |ls| == |c.layers| && j < |c.layers[l].chords|
  {
    ls[l].active > 0 && ChordEventMatch(c.layers[l].chords[j], queue) == degree
  }

  /** Some chord before position (l, n) matches to this degree. */
  ghost predicate MatchBefore(c: Config, ls: seq<LayerState>, queue: seq<KeyEvent>, l: nat, n: nat, degree: nat)
    requires |ls| == |c.layers|
  {
    exists m, j | 0 <= m < |ls| && 0 <= j < |c.layers[m].chords| && (m < l || (m == l && j < n)) ::
      MatchAt(c, ls, queue, m, j, degree)
  }

  /** What the scan knows before position (l, n): whether there was a full match, whether
      there was a partial one, and, of the full matches, one in the layer activated last, the
      one with the highest index of several. */
  ghost predicate ScanKnows(c: Config, ls: seq<LayerState>, queue: seq<KeyEvent>, l: nat, n: nat, s: Scan)
    requires |ls| == |c.layers|
  {
    (s.full <==> MatchBefore(c, ls, queue, l, n, 2)) && (s.partial <==> MatchBefore(c, ls, queue, l, n, 1)) &&
    (s.full ==> IsLatest(c, ls, queue, l, n, s)) && (!s.full ==> s.maxts == -1)
  }

  ghost predicate IsLatest(c: Config, ls: seq<LayerState>, queue: seq<KeyEvent>, l: nat, n: nat, s: Scan)
    requires |ls| == |c.layers|
  {
    s.layer < |ls| && s.maxts == ls[s.layer].activationTime && s.chord.Some? &&
    (exists j | 0 <= j < |c.layers[s.layer].chords| ::
       MatchAt(c, ls, queue, s.layer, j, 2) && c.layers[s.layer].chords[j] == s.chord.value) &&
    forall m, j | 0 <= m < |ls| && 0 <= j < |c.layers[m].chords| && (m < l || (m == l && j < n)) &&
      MatchAt(c, ls, queue, m, j, 2) ::
      ls[m].activationTime < s.maxts || (ls[m].activationTime == s.maxts && m <= s.layer)
  }

  /** One chord more. */
  lemma ScanChordKnows(c: Config, ls: seq<LayerState>, queue: seq<KeyEvent>, l: nat, j: nat, p: Scan, r: Scan)
    requires l < |ls| == |c.layers| && j < |c.layers[l].chords| && Aged(ls) && ls[l].active > 0
    requires ScanKnows(c, ls, queue, l, j, p) && (p.full ==> p.layer <= l)
    requires var chord := c.layers[l].chords[j];
             var m := ChordEventMatch(chord, queue);
             r == if m == 2 && p.maxts <= ls[l].activationTime then
               Scan(true, p.partial, Some(chord), l, ls[l].activationTime)
                  else if m == 1 then p.(partial := true) else p
    ensures ScanKnows(c, ls, queue, l, j + 1, r) && (r.full ==> r.layer <= l)
  {
    forall degree | degree == 1 || degree == 2
      ensures MatchBefore(c, ls, queue, l, j + 1, degree) <==>
              MatchBefore(c, ls, queue, l, j, degree) || MatchAt(c, ls, queue, l, j, degree)
    {
      MatchStep(c, ls, queue, l, j, degree);
    }
    if r.full {
      if r.layer == l && r != p && r != p.(partial := true) {
        assert MatchAt(c, ls, queue, l, j, 2);
      }
      assert IsLatest(c, ls, queue, l, j + 1, r);
    }
  }

  lemma MatchStep(c: Config, ls: seq<LayerState>, queue: seq<KeyEvent>, l: nat, j: nat, degree: nat)
    requires l < |ls| == |c.layers| && j < |c.layers[l].chords|
    ensures MatchBefore(c, ls, queue, l, j + 1, degree) <==>
            MatchBefore(c, ls, queue, l, j, degree) || MatchAt(c, ls, queue, l, j, degree)
  {
    if MatchBefore(c, ls, queue, l, j, degree) {
      var m, i :| 0 <= m < |ls| && 0 <= i < |c.layers[m].chords| && (m < l || (m == l && i < j)) &&
        MatchAt(c, ls, queue, m, i, degree);
    }
    if MatchBefore(c, ls, queue, l, j + 1, degree) {
      var m, i :| 0 <= m < |ls| && 0 <= i < |c.layers[m].chords| && (m < l || (m == l && i < j + 1)) &&
        MatchAt(c, ls, queue, m, i, degree);
    }
  }

  lemma {:induction false} ScanChordsKnows(c: Config, ls: seq<LayerState>, queue: seq<KeyEvent>, l: nat, n: nat,
                                           s: Scan)
    requires l < |ls| == |c.layers| && n <= |c.layers[l].chords| && Aged(ls) && ls[l].active > 0
    requires ScanKnows(c, ls, queue, l, 0, s) && (s.full ==> s.layer <= l)
    ensures ScanKnows(c, ls, queue, l, n, ScanChords(c, ls, queue, l, n, s))
    ensures ScanChords(c, ls, queue, l, n, s).full ==> ScanChords(c, ls, queue, l, n, s).layer <= l
    decreases n
  {
    if n != 0 {
      ScanChordsKnows(c, ls, queue, l, n - 1, s);
      ScanChordKnows(c, ls, queue, l, n - 1, ScanChords(c, ls, queue, l, n - 1, s), ScanChords(c, ls, queue, l, n, s));
    }
  }

  lemma {:induction false} ScanLayersKnows(c: Config, ls: seq<LayerState>, queue: seq<KeyEvent>, l: nat, s: Scan)
    requires l <= |ls| == |c.layers| && Aged(ls) && !s.full && !s.partial && s.maxts == -1
    ensures var r := ScanLayers(c, ls, queue, l, s);
            ScanKnows(c, ls, queue, l, 0, r) && (r.full ==> r.layer <= l)
    decreases l
  {
    if l != 0 {
      ScanLayersKnows(c, ls, queue, l - 1, s);
      var p := ScanLayers(c, ls, queue, l - 1, s);
      var n := |c.layers[l - 1].chords|;
      if ls[l - 1].active > 0 {
        ScanChordsKnows(c, ls, queue, l - 1, n, p);
        NextLayer(c, ls, queue, l - 1, ScanChords(c, ls, queue, l - 1, n, p));
      } else {
        NextInactiveLayer(c, ls, queue, l - 1, p);
      }
    }
  }

  lemma NextLayer(c: Config, ls: seq<LayerState>, queue: seq<KeyEvent>, l: nat, s: Scan)
    requires l < |ls| == |c.layers| && ScanKnows(c, ls, queue, l, |c.layers[l].chords|, s)
    ensures ScanKnows(c, ls, queue, l + 1, 0, s)
  {
    forall degree | degree == 1 || degree == 2
      ensures MatchBefore(c, ls, queue, l + 1, 0, degree) <==>
              MatchBefore(c, ls, queue, l, |c.layers[l].chords|, degree)
    {
    }
  }

  lemma NextInactiveLayer(c: Config, ls: seq<LayerState>, queue: seq<KeyEvent>, l: nat, s: Scan)
    requires l < |ls| == |c.layers| && ScanKnows(c, ls, queue, l, 0, s) && ls[l].active == 0
    ensures ScanKnows(c, ls, queue, l + 1, 0, s)
  {
    forall degree | degree == 1 || degree == 2
      ensures MatchBefore(c, ls, queue, l + 1, 0, degree) <==> MatchBefore(c, ls, queue, l, 0, degree)
    {
    }
  }

  /** Some chord of an active layer matches to this degree. */
  ghost predicate Matches(c: Config, ls: seq<LayerState>, queue: seq<KeyEvent>, degree: nat)
    requires |ls| == |c.layers|
  {
    MatchBefore(c, ls, queue, |ls|, 0, degree)
  }

  /** check_chord_match tells full matches from partial ones and ambiguous from unambiguous
      ones; of the chords that match in full it picks one of the layer activated last, the one
      with the highest index of several. */
  lemma ChordMatchChecked(c: Config, ls: seq<LayerState>, chords: Chords)
    requires |ls| == |c.layers| && Aged(ls)
    ensures var (m, chord, layer) := CheckChordMatch(c, ls, chords);
            (m == 2 || m == 3 <==> Matches(c, ls, chords.queue, 2)) &&
              (m == 1 || m == 3 <==> Matches(c, ls, chords.queue, 1)) &&
            (Matches(c, ls, chords.queue, 2) ==>
               layer < |ls| && chord.Some? &&
               (exists j | 0 <= j < |c.layers[layer].chords| ::
                  MatchAt(c, ls, chords.queue, layer, j, 2) && c.layers[layer].chords[j] == chord.value) &&
               forall l, j | 0 <= l < |ls| && 0 <= j < |c.layers[l].chords| && MatchAt(c, ls, chords.queue, l, j, 2) ::
                 ls[l].activationTime < ls[layer].activationTime ||
                 (ls[l].activationTime == ls[layer].activationTime && l <= layer))
  {
    ScanLayersKnows(c, ls, chords.queue, |c.layers|, Scan(false, false, chords.match_, chords.matchLayer, -1));
  }
}
