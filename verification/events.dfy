/** What process_event, kbd_process_events and the functions they call
    (src/keyboard.c:189-254, 290-378, 473-489, 893-1274) do to struct keyboard, as
    functions on values. The methods of class Keyboard (keyboard.dfy) are proved to
    compute exactly these. */
module Events {
  import opened Keys
  import opened Output
  import opened Configs
  import opened State
  import opened Layers
  import opened Cache
  import opened Actions

  // ------------------------------------------------------------------------------ lookup

  /** The layer, among the first n, whose binding of a code the scan of the active layers
      leaves in place; -1 if none binds it. */
  function BestActive(c: Config, ls: seq<LayerState>, code: Code, n: nat): (r: int)
    requires ConfigOk(c) && n <= |ls| == |c.layers|
    ensures -1 <= r < n
  {
    if n == 0 then -1
    else
      var p := BestActive(c, ls, code, n - 1);
      var maxts := if p == -1 then 0 else ls[p].activationTime;
      if ls[n - 1].active > 0 && !c.layers[n - 1].keymap[code].Nothing? && ls[n - 1].activationTime >= maxts
      then n - 1 else p
  }

  /** Every constituent of layer l is active. */
  predicate FullyActive(c: Config, ls: seq<LayerState>, l: nat)
    requires ConfigOk(c) && l < |ls| == |c.layers|
  {
    forall j | 0 <= j < |c.layers[l].constituents| :: ls[c.layers[l].constituents[j]].active > 0
  }

  /** The composite layer, among the first n, that the second scan leaves in place; -1 if
      none matches. */
  function BestComposite(c: Config, ls: seq<LayerState>, code: Code, n: nat): (r: int)
    requires ConfigOk(c) && n <= |ls| == |c.layers|
    ensures -1 <= r < n
  {
    if n == 0 then -1
    else
      var p := BestComposite(c, ls, code, n - 1);
      var max := if p == -1 then 0 else |c.layers[p].constituents|;
      if c.layers[n - 1].kind == Composite && FullyActive(c, ls, n - 1) &&
         !c.layers[n - 1].keymap[code].Nothing? && |c.layers[n - 1].constituents| > max
      then n - 1 else p
  }

  /** lookup_descriptor: the action a code is bound to and the layer that binds it. */
  function LookupDescriptor(c: Config, ls: seq<LayerState>, active: seq<ActiveChord>,
                            code: Code): (r: (Descriptor, nat))
    requires ConfigOk(c) && |ls| == |c.layers| && ActiveOk(c, active)
    ensures Allowed(c, r.0) && r.1 < |c.layers|
  {
    var composite := BestComposite(c, ls, code, |c.layers|);
    var layer := BestActive(c, ls, code, |c.layers|);
    if IsChordCode(code) then
      var a := active[code - CHORD_1];
      assert ActiveChordOk(c, a);
      (a.d, a.layer)
    else if composite != -1 then
      KeymapAllowed(c, composite, code);
      (c.layers[composite].keymap[code], composite)
    else if layer != -1 then
      KeymapAllowed(c, layer, code);
      (c.layers[layer].keymap[code], layer)
    else
      (KeySequence(code, {}), 0)
  }

  // ------------------------------------------------------------------------------ chords

  /** The codes of the press events, in order. */
  function Presses(events: seq<KeyEvent>): seq<Code> {
    if events == [] then []
    else
      var n := |events| - 1;
      Presses(events[..n]) + if events[n].pressed then [events[n].code] else []
  }

  /** chord_event_match: 0 for no match, 1 for a partial, 2 for an exact one. */
  function ChordEventMatch(chord: Chord, events: seq<KeyEvent>): (r: nat)
    ensures r <= 2
  {
    var p := Presses(events);
    if p == [] || exists i | 0 <= i < |p| :: p[i] !in chord.keys then 0
    else if |p| == |chord.keys| then 2 else 1
  }

  /** The state of check_chord_match's scan. */
  datatype Scan = Scan(full: bool, partial: bool, chord: Option<Chord>, layer: nat, maxts: int)

  /** check_chord_match on the first n chords of active layer l. */
  function ScanChords(c: Config, ls: seq<LayerState>, queue: seq<KeyEvent>, l: nat, n: nat, s: Scan): Scan
    requires l < |ls| == |c.layers| && n <= |c.layers[l].chords|
    decreases n
  {
    if n == 0 then s
    else
      var p := ScanChords(c, ls, queue, l, n - 1, s);
      var chord := c.layers[l].chords[n - 1];
      var m := ChordEventMatch(chord, queue);
      if m == 2 && p.maxts <= ls[l].activationTime then Scan(true, p.partial, Some(chord), l, ls[l].activationTime)
      else if m == 1 then p.(partial := true)
      else p
  }

  /** check_chord_match on the first l layers. */
  function ScanLayers(c: Config, ls: seq<LayerState>, queue: seq<KeyEvent>, l: nat, s: Scan): Scan
    requires l <= |ls| == |c.layers|
    decreases l
  {
    if l == 0 then s
    else
      var p := ScanLayers(c, ls, queue, l - 1, s);
      if ls[l - 1].active > 0 then ScanChords(c, ls, queue, l - 1, |c.layers[l - 1].chords|, p) else p
  }

  /** check_chord_match: 0 for no match, 1 for a partial, 2 for an unambiguous, 3 for an
      ambiguous one. */
  function CheckChordMatch(c: Config, ls: seq<LayerState>, chords: Chords): (r: (nat, Option<Chord>, nat))
    requires |ls| == |c.layers|
    ensures r.0 <= 3
  {
    var s := ScanLayers(c, ls, chords.queue, |c.layers|, Scan(false, false, chords.match_, chords.matchLayer, -1));
    (if s.full then (if s.partial then 3 else 2) else if s.partial then 1 else 0, s.chord, s.layer)
  }

  lemma {:induction false} AllPressed(events: seq<KeyEvent>)
    requires forall i | 0 <= i < |events| :: events[i].pressed
    ensures |Presses(events)| == |events|
    ensures forall i | 0 <= i < |events| :: Presses(events)[i] == events[i].code
    decreases |events|
  {
    if events != [] {
      AllPressed(events[..|events| - 1]);
    }
  }

  /** What a scan has found is a chord of the configuration that matches the queue. */
  ghost predicate ScanOk(c: Config, queue: seq<KeyEvent>, s: Scan, start: Scan) {
    (s.full ==> s.chord.Some? && ChordEventMatch(s.chord.value, queue) == 2 &&
                MatchOk(c, s.chord.value) && s.layer < |c.layers|) &&
    (!s.full ==> s.chord == start.chord && s.layer == start.layer)
  }

  lemma {:induction false} ScanChordsOk(c: Config, ls: seq<LayerState>, queue: seq<KeyEvent>, l: nat, n: nat, s: Scan,
                                        start: Scan)
    requires ConfigOk(c) && l < |ls| == |c.layers| && n <= |c.layers[l].chords| && ScanOk(c, queue, s, start)
    ensures ScanOk(c, queue, ScanChords(c, ls, queue, l, n, s), start)
    decreases n
  {
    if n != 0 {
      ScanChordsOk(c, ls, queue, l, n - 1, s, start);
      ChordAllowed(c, l, n - 1);
    }
  }

  lemma {:induction false} ScanLayersOk(c: Config, ls: seq<LayerState>, queue: seq<KeyEvent>, l: nat, s: Scan,
                                        start: Scan)
    requires ConfigOk(c) && l <= |ls| == |c.layers| && ScanOk(c, queue, s, start)
    ensures ScanOk(c, queue, ScanLayers(c, ls, queue, l, s), start)
    decreases l
  {
    if l != 0 {
      ScanLayersOk(c, ls, queue, l - 1, s, start);
      if ls[l - 1].active > 0 {
        ScanChordsOk(c, ls, queue, l - 1, |c.layers[l - 1].chords|, ScanLayers(c, ls, queue, l - 1, s), start);
      }
    }
  }

  /** A full match is a chord of the configuration; the whole queue, if it holds presses
      only, presses keys of it, one for each. */
  ghost predicate MatchFound(c: Config, queue: seq<KeyEvent>, m: (nat, Option<Chord>, nat)) {
    m.0 >= 2 ==>
      m.1.Some? && MatchOk(c, m.1.value) && m.2 < |c.layers| && ChordEventMatch(m.1.value, queue) == 2 &&
      ((forall i | 0 <= i < |queue| :: queue[i].pressed) ==>
         (Prefixed(m.1.value, queue) && |m.1.value.keys| == |queue|))
  }

  /** A full match of a queue of presses is a chord whose keys the whole queue presses. */
  lemma CheckChordMatchOk(c: Config, ls: seq<LayerState>, chords: Chords)
    requires ConfigOk(c) && |ls| == |c.layers|
    ensures MatchFound(c, chords.queue, CheckChordMatch(c, ls, chords))
    ensures CheckChordMatch(c, ls, chords).0 < 2 ==>
            CheckChordMatch(c, ls, chords).1 == chords.match_ && CheckChordMatch(c, ls, chords).2 == chords.matchLayer
  {
    var queue := chords.queue;
    var start := Scan(false, false, chords.match_, chords.matchLayer, -1);
    ScanLayersOk(c, ls, queue, |c.layers|, start, start);
    var s := ScanLayers(c, ls, queue, |c.layers|, start);
    if s.full && forall i | 0 <= i < |queue| :: queue[i].pressed {
      AllPressed(queue);
      var p := Presses(queue);
      assert forall i | 0 <= i < |p| :: p[i] in s.chord.value.keys;
    }
  }

  /** Only a press starts a match. */
  lemma FirstMatch(c: Config, ls: seq<LayerState>, chords: Chords, e: KeyEvent)
    requires |ls| == |c.layers| && chords.queue == if e.code == 0 then [] else [e]
    ensures CheckChordMatch(c, ls, chords).0 != 0 ==> e.code != 0 && e.pressed
  {
    if e.code == 0 || !e.pressed {
      assert [e][..0] == [];
      assert Presses(chords.queue) == [];
      NoPressScan(c, ls, chords.queue, |c.layers|, Scan(false, false, chords.match_, chords.matchLayer, -1));
    }
  }

  /** Looking at a queue of at most one event that is no press leaves the match alone. */
  lemma FirstMatchNone(c: Config, ls: seq<LayerState>, chords: Chords, e: KeyEvent)
    requires ConfigOk(c) && |ls| == |c.layers| && chords.queue == if e.code == 0 then [] else [e]
    ensures e.code == 0 || !e.pressed ==> CheckChordMatch(c, ls, chords) == (0, chords.match_, chords.matchLayer)
    ensures CheckChordMatch(c, ls, chords).0 < 2 ==>
            CheckChordMatch(c, ls, chords).1 == chords.match_ && CheckChordMatch(c, ls, chords).2 == chords.matchLayer
  {
    FirstMatch(c, ls, chords, e);
    CheckChordMatchOk(c, ls, chords);
  }

  lemma {:induction false} NoPressScan(c: Config, ls: seq<LayerState>, queue: seq<KeyEvent>, l: nat, s: Scan)
    requires l <= |ls| == |c.layers| && Presses(queue) == []
    ensures ScanLayers(c, ls, queue, l, s) == s
    decreases l
  {
    if l != 0 {
      NoPressScan(c, ls, queue, l - 1, s);
      NoPressChords(c, ls, queue, l - 1, |c.layers[l - 1].chords|, s);
    }
  }

  lemma {:induction false} NoPressChords(c: Config, ls: seq<LayerState>, queue: seq<KeyEvent>, l: nat, n: nat, s: Scan)
    requires l < |ls| == |c.layers| && n <= |c.layers[l].chords| && Presses(queue) == []
    ensures ScanChords(c, ls, queue, l, n, s) == s
    decreases n
  {
    if n != 0 {
      NoPressChords(c, ls, queue, l, n - 1, s);
    }
  }

  // ------------------------------------------------------------------------------ timers

  function Minimum(ts: seq<int>): (r: int)
    requires ts != []
    ensures r in ts && forall t <- ts :: r <= t
  {
    var n := |ts| - 1;
    if n == 0 then ts[0]
    else
      var p := Minimum(ts[..n]);
      assert ts == ts[..n] + [ts[n]];
      if ts[n] < p then ts[n] else p
  }

  /** The deadlines after a time, in order. */
  function Later(ts: seq<int>, time: int): (r: seq<int>)
    ensures |r| <= |ts| && forall t :: t in r <==> t in ts && t > time
  {
    if ts == [] then []
    else
      var n := |ts| - 1;
      assert ts == ts[..n] + [ts[n]];
      Later(ts[..n], time) + if ts[n] > time then [ts[n]] else []
  }

  /** calculate_main_loop_timeout: drops the deadlines that have passed and returns the time
      to the earliest one left, 0 if none is. */
  function Exit(k: Kbd, time: nat): (r: (Kbd, nat))
    ensures r.0 == k.(core := k.core.(timers := r.0.core.timers))
  {
    var timers := Later(k.core.timers, time);
    (k.(core := k.core.(timers := timers)), if timers == [] then 0 else Minimum(timers) - time)
  }
}
