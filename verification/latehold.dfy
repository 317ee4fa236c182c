/** A matched chord that is resolved later than the timeout that is returned allows. */
module LateHold {
  import opened Configs
  import opened State
  import opened Events
  import opened Machine
  import opened Runs
  import opened Deadlines
  import opened Steps

  /** Main with the chords j+k and j+k+l. */
  function JKL(): Config {
    Config(
      [LayerDef(LayoutType, {}, Keymap(map[]),
                [Chord([36, 37], KeySequence(30, {})), Chord([36, 37, 38], KeySequence(31, {}))], [])],
      [], [], 600, 0, 50, 0, 0, 50, 200, false)
  }

  lemma JKLOk()
    ensures ConfigOk(JKL())
  {
  }

  const J_DOWN := KeyEvent(36, true, 0)
  const K_DOWN := KeyEvent(37, true, 10)

  lemma MatchesJ(chord: Chord)
    ensures Presses([J_DOWN]) == [36] && Presses([J_DOWN, K_DOWN]) == [36, 37]
  {
    assert [J_DOWN][..0] == [];
    assert [J_DOWN, K_DOWN][..1] == [J_DOWN];
  }

  /** What check_chord_match makes of j and of j+k. */
  lemma ScanJ(ls: seq<LayerState>, s: Chords)
    requires |ls| == 1 && ls[0].active > 0 && ls[0].activationTime == 0
    ensures s.queue == [J_DOWN] ==> CheckChordMatch(JKL(), ls, s) == (1, s.match_, s.matchLayer)
    ensures s.queue == [J_DOWN, K_DOWN] ==> CheckChordMatch(JKL(), ls, s) == (3, Some(JKL().layers[0].chords[0]), 0)
  {
    var c, start := JKL(), Scan(false, false, s.match_, s.matchLayer, -1);
    var jk, jkl := c.layers[0].chords[0], c.layers[0].chords[1];
    MatchesJ(jk);
    assert ScanLayers(c, ls, s.queue, 0, start) == start;
    assert ScanChords(c, ls, s.queue, 0, 0, start) == start;
    if s.queue == [J_DOWN] {
      assert ChordEventMatch(jk, s.queue) == 1 && ChordEventMatch(jkl, s.queue) == 1;
      assert ScanChords(c, ls, s.queue, 0, 1, start) == start.(partial := true);
      assert ScanChords(c, ls, s.queue, 0, 2, start) == start.(partial := true);
    } else if s.queue == [J_DOWN, K_DOWN] {
      assert ChordEventMatch(jk, s.queue) == 2 && ChordEventMatch(jkl, s.queue) == 1;
      assert ScanChords(c, ls, s.queue, 0, 1, start) == Scan(true, false, Some(jk), 0, 0);
      assert ScanChords(c, ls, s.queue, 0, 2, start) == Scan(true, true, Some(jk), 0, 0);
    }
  }

  /** The recogniser waits after j, and again after k. */
  ghost predicate Waiting(k: Kbd, queue: seq<KeyEvent>, match_: Option<Chord>, time: nat, timers: seq<int>) {
    !k.core.overflow && k.core.timers == timers && k.core.lay.ls == [LayerState(0, 1, false, 0)] &&
    k.chords.phase == PendingDisambiguation && k.chords.queue == queue && k.chords.match_ == match_ &&
    k.chords.lastCodeTime == time
  }

  lemma LaterOf(time: int)
    ensures time < 50 ==> Later([50], time) == [50]
    ensures time < 50 ==> Later([50, 60], time) == [50, 60]
  {
    assert [50][..0] == [];
    assert [50, 60][..1] == [50];
    assert Later([], time) == [];
    if time < 50 {
      assert Later([50], time) == [] + [50];
      assert Later([50, 60], time) == [50] + [60];
    }
  }

  lemma AfterJ(k: Kbd)
    requires Ok(JKL(), k) && k == Start(JKL(), None, 0)
    ensures Waiting(ProcessEvents(JKL(), k, [J_DOWN], 0, 0, 0).0, [J_DOWN], None, 0, [50])
  {
    hide Ok, ProcessEvents, ResolveChord;
    var c := JKL();
    OneEvent(c, k, J_DOWN);
    var s := Enqueue(k.chords.(queue := [], match_ := None, startCode := 36), J_DOWN);
    assert s.queue == [J_DOWN];
    assert k.core.lay.ls == [LayerState(0, 1, false, 0)];
    ScanJ(k.core.lay.ls, s);
    var t := s.(lastCodeTime := 0, phase := PendingDisambiguation);
    assert HandleChord(c, k, J_DOWN) == (Await(k, t, 50, 0), true);
    LaterOf(0);
  }

  lemma ExtendedByK(k: Kbd)
    requires Ok(JKL(), k) && Waiting(k, [J_DOWN], None, 0, [50])
    ensures var t := k.chords.(queue := [J_DOWN, K_DOWN], match_ := Some(JKL().layers[0].chords[0]), matchLayer := 0,
                               lastCodeTime := 10);
            HandleChord(JKL(), k, K_DOWN) == (Await(k, t, 60, 0), true)
  {
    hide Ok, ProcessEvent, ResolveChord, CheckChordMatch;
    var c, s := JKL(), Enqueue(k.chords, K_DOWN);
    assert s.queue == [J_DOWN, K_DOWN];
    LayersFact(c, k);
    ExtendOk(c, k, K_DOWN);
    ScanJ(k.core.lay.ls, s);
    var t := s.(match_ := Some(c.layers[0].chords[0]), matchLayer := 0);
    assert Matched(c, k, s) == (3, t);
    assert ExtendChord(c, k, K_DOWN) == MatchChord(c, k, t, 3, 10);
    assert MatchChord(c, k, t, 3, 10) == Await(k, t.(lastCodeTime := 10), 60, 0);
  }

  lemma AfterK(k: Kbd)
    requires Ok(JKL(), k) && Waiting(k, [J_DOWN], None, 0, [50])
    ensures Waiting(ProcessEvents(JKL(), k, [K_DOWN], 0, 0, 0).0, [J_DOWN, K_DOWN], Some(JKL().layers[0].chords[0]),
            10, [50, 60])
  {
    hide Ok, ProcessEvents, HandleChord, PassChord, JKL;
    OneEvent(JKL(), k, K_DOWN);
    ExtendedByK(k);
    LaterOf(10);
  }

  /** j at 0 and k at 10 match j+k and begin j+k+l; the next call is a tick at 61. The chord is
      due at 210, and a tick at 210 would settle it; but the timeout that is returned is 150. */
  lemma HoldDeadlineMissed() returns (calls: seq<seq<KeyEvent>>, p: Kbd, r: Kbd, timeout: nat)
    ensures calls == [[J_DOWN], [K_DOWN]] && Reached(JKL(), p, calls) && Ok(JKL(), p)
    ensures (r, timeout) == ProcessEvents(JKL(), p, [KeyEvent(0, false, 61)], 0, 0, 0)
    ensures Ok(JKL(), r) && r.chords.phase == PendingHoldTimeout
    ensures r.chords.lastCodeTime + JKL().chordHoldTimeout == 210 && HoldChord(JKL(), r, KeyEvent(0, false, 210)).1
    ensures timeout > 210 - 61
  {
    hide Ok, ProcessEvents, Reached, HoldChord;
    var c := JKL();
    JKLOk();
    ReachedStart(c, None, 0);
    var k := Start(c, None, 0);
    StartKeeps(c, None, 0);
    AfterJ(k);
    var q := ProcessEvents(c, k, [J_DOWN], 0, 0, 0).0;
    OneMoreCall(c, k, [], J_DOWN);
    AfterK(q);
    p := ProcessEvents(c, q, [K_DOWN], 0, 0, 0).0;
    assert [] + [[J_DOWN]] == [[J_DOWN]];
    OneMoreCall(c, q, [[J_DOWN]], K_DOWN);
    calls := [[J_DOWN], [K_DOWN]];
    assert [[J_DOWN]] + [[K_DOWN]] == calls;
    HoldDueInTime(c, p, 61);
    r := ProcessEvents(c, p, [KeyEvent(0, false, 61)], 0, 0, 0).0;
    timeout := ProcessEvents(c, p, [KeyEvent(0, false, 61)], 0, 0, 0).1;
    HoldDue(c, r, 210);
  }
}
