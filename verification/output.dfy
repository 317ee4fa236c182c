/** The stream of key strokes sent to the virtual keyboard (output.send_key) and what it
    says about each key. */
module Output {
  import opened Keys

  /** One call of output.send_key. */
  datatype Stroke = Stroke(code: Code, down: bool)

  /** The strokes of one key, in order. */
  function Of(trace: seq<Stroke>, c: Code): seq<bool> {
    if trace == [] then []
    else
      var rest := Of(trace[..|trace| - 1], c);
      var last := trace[|trace| - 1];
      if last.code == c then rest + [last.down] else rest
  }

  /** down, up, down, up, ... starting with down. */
  ghost predicate Alternates(strokes: seq<bool>) {
    forall i | 0 <= i < |strokes| :: strokes[i] == (i % 2 == 0)
  }

  /** The stream ends with key c down. */
  predicate EndsDown(trace: seq<Stroke>, c: Code) {
    |Of(trace, c)| % 2 == 1
  }

  /** Key c's strokes alternate, leave it in the given state, and do not exist for a
      silent code. */
  ghost predicate KeyConsistent(down: bool, trace: seq<Stroke>, c: Code) {
    Alternates(Of(trace, c)) && down == EndsDown(trace, c) && (IsSilent(c) ==> Of(trace, c) == [])
  }

  ghost predicate Consistent(keys: seq<bool>, trace: seq<Stroke>) {
    |keys| == 256 && forall c: Code {:trigger Of(trace, c)} :: KeyConsistent(keys[c], trace, c)
  }

  lemma OfAppend(trace: seq<Stroke>, s: Stroke, c: Code)
    ensures Of(trace + [s], c) == if s.code == c then Of(trace, c) + [s.down] else Of(trace, c)
  {
    assert (trace + [s])[..|trace|] == trace;
  }

  lemma KeyConsistentStep(down: bool, trace: seq<Stroke>, s: Stroke, c: Code)
    requires KeyConsistent(down, trace, c)
    requires s.code == c ==> down != s.down && !IsSilent(c)
    ensures KeyConsistent(if s.code == c then s.down else down, trace + [s], c)
  {
    OfAppend(trace, s, c);
  }

  /** A stroke that changes the state of its key keeps the stream consistent. */
  lemma ConsistentStep(keys: seq<bool>, trace: seq<Stroke>, s: Stroke)
    requires Consistent(keys, trace)
    requires keys[s.code] != s.down && !IsSilent(s.code)
    ensures Consistent(keys[s.code := s.down], trace + [s])
  {
    var after, trace' := keys[s.code := s.down], trace + [s];
    forall c: Code
      ensures KeyConsistent(after[c], trace', c)
    {
      KeyConsistentStep(keys[c], trace, s, c);
    }
  }

  // ------------------------------------------------------------------------ the output

  /** The output side of struct keyboard: the key states, the last key pressed and every
      call of output.send_key so far. */
  datatype Out = Out(keys: seq<bool>, last: Code, trace: seq<Stroke>)

  function Emit(o: Out, s: Stroke): Out
    requires |o.keys| == 256
  {
    Out(o.keys[s.code := s.down], if s.down then s.code else o.last, o.trace + [s])
  }

  /** send_key */
  function Send(o: Out, code: Code, down: bool): (r: Out)
    requires |o.keys| == 256
    ensures |r.keys| == 256
  {
    if IsSilent(code) then o
    else if o.keys[code] == down then o.(last := if down then code else o.last)
    else Emit(o, Stroke(code, down))
  }

  /** With the guard on, clear_mod interposes a control tap where the release would
      complete a lone tap. */
  predicate NeedsTap(o: Out, guardOn: bool, code: Code)
    requires |o.keys| == 256
  {
    guardOn && o.last == code && IsGuarded(code) && !o.keys[LEFTCTRL]
  }

  function ClearMod(o: Out, guardOn: bool, code: Code): (r: Out)
    requires |o.keys| == 256
    ensures |r.keys| == 256
  {
    if NeedsTap(o, guardOn, code) then
      Send(Send(Send(o, LEFTCTRL, true), code, false), LEFTCTRL, false)
    else
      Send(o, code, false)
  }

  /** One turn of set_mods' loop. */
  function SetMod(o: Out, guardOn: bool, m: Modifier, on: bool): (r: Out)
    requires |o.keys| == 256
    ensures |r.keys| == 256
  {
    if o.keys[KeyOf(m)] == on then o
    else if on then Send(o, KeyOf(m), true)
    else ClearMod(o, guardOn, KeyOf(m))
  }

  /** set_mods up to the n-th modifier of the table. */
  function SetMods(o: Out, guardOn: bool, mods: Mods, n: nat): (r: Out)
    requires |o.keys| == 256 && n <= |MODIFIERS|
    ensures |r.keys| == 256
  {
    if n == 0 then o
    else SetMod(SetMods(o, guardOn, mods, n - 1), guardOn, MODIFIERS[n - 1], MODIFIERS[n - 1] in mods)
  }

  /** reset_keystate up to key n. */
  function ResetKeys(o: Out, n: nat): (r: Out)
    requires |o.keys| == 256 && n <= 256
    ensures |r.keys| == 256
  {
    if n == 0 then o
    else
      var p := ResetKeys(o, n - 1);
      if p.keys[n - 1] then Out(p.keys[n - 1 := false], p.last, p.trace + [Stroke(n - 1, false)]) else p
  }

  // -------------------------------------------------------------- strokes that alternate

  ghost predicate OutputOk(o: Out) {
    Consistent(o.keys, o.trace)
  }

  lemma SendKeepsOutput(o: Out, code: Code, down: bool)
    requires OutputOk(o)
    ensures OutputOk(Send(o, code, down))
  {
    if !IsSilent(code) && o.keys[code] != down {
      ConsistentStep(o.keys, o.trace, Stroke(code, down));
    }
  }

  lemma SetModKeepsOutput(o: Out, guardOn: bool, m: Modifier, on: bool)
    requires OutputOk(o)
    ensures OutputOk(SetMod(o, guardOn, m, on))
  {
    var code := KeyOf(m);
    SendKeepsOutput(o, code, on);
    SendKeepsOutput(o, LEFTCTRL, true);
    SendKeepsOutput(Send(o, LEFTCTRL, true), code, false);
    SendKeepsOutput(Send(Send(o, LEFTCTRL, true), code, false), LEFTCTRL, false);
  }

  lemma {:induction false} SetModsKeepsOutput(o: Out, guardOn: bool, mods: Mods, n: nat)
    requires OutputOk(o) && n <= |MODIFIERS|
    ensures OutputOk(SetMods(o, guardOn, mods, n))
    decreases n
  {
    if n != 0 {
      SetModsKeepsOutput(o, guardOn, mods, n - 1);
      SetModKeepsOutput(SetMods(o, guardOn, mods, n - 1), guardOn, MODIFIERS[n - 1], MODIFIERS[n - 1] in mods);
    }
  }

  /** reset_keystate releases every key and keeps every stream alternating. */
  lemma {:induction false} ResetKeysReleases(o: Out, n: nat)
    requires OutputOk(o) && n <= 256
    ensures OutputOk(ResetKeys(o, n))
    ensures forall c: Code :: ResetKeys(o, n).keys[c] == (c >= n && o.keys[c])
    decreases n
  {
    if n != 0 {
      ResetKeysReleases(o, n - 1);
      var p, c := ResetKeys(o, n - 1), n - 1;
      if p.keys[c] {
        assert KeyConsistent(p.keys[c], p.trace, c) by { assert Of(p.trace, c) == Of(p.trace, c); }
        ConsistentStep(p.keys, p.trace, Stroke(c, false));
      }
    }
  }

  // --------------------------------------------------------- update_mods meets its target

  /** The first n modifiers of the table are as the mask wants them, the others and all
      other keys as before. */
  ghost predicate ModsSet(before: seq<bool>, after: seq<bool>, n: nat, mods: Mods)
    requires |before| == |after| == 256 && n <= |MODIFIERS|
  {
    (forall j | 0 <= j < n :: after[KeyOf(MODIFIERS[j])] == (MODIFIERS[j] in mods)) &&
    (forall j | n <= j < |MODIFIERS| :: after[KeyOf(MODIFIERS[j])] == before[KeyOf(MODIFIERS[j])]) &&
    (forall c: Code | !IsModifierKey(c) :: after[c] == before[c])
  }

  lemma ModsSetStep(before: seq<bool>, now: seq<bool>, n: nat, mods: Mods)
    requires |before| == |now| == 256 && n < |MODIFIERS| && ModsSet(before, now, n, mods)
    ensures ModsSet(before, now[KeyOf(MODIFIERS[n]) := MODIFIERS[n] in mods], n + 1, mods)
  {
  }

  /** Despite the interposed control taps one turn changes one key. */
  lemma SetModKeys(o: Out, guardOn: bool, m: Modifier, on: bool)
    requires |o.keys| == 256
    ensures SetMod(o, guardOn, m, on).keys == o.keys[KeyOf(m) := on]
  {
    var code := KeyOf(m);
    if NeedsTap(o, guardOn, code) {
      assert o.keys[LEFTCTRL := true][code := false][LEFTCTRL := false] == o.keys[code := false];
    }
  }

  lemma {:induction false} SetModsKeys(o: Out, guardOn: bool, mods: Mods, n: nat)
    requires |o.keys| == 256 && n <= |MODIFIERS|
    ensures ModsSet(o.keys, SetMods(o, guardOn, mods, n).keys, n, mods)
    decreases n
  {
    if n != 0 {
      var p := SetMods(o, guardOn, mods, n - 1);
      SetModsKeys(o, guardOn, mods, n - 1);
      SetModKeys(p, guardOn, MODIFIERS[n - 1], MODIFIERS[n - 1] in mods);
      ModsSetStep(o.keys, p.keys, n - 1, mods);
    }
  }

  /** set_mods reaches exactly its target: a modifier key is down if and only if its mask
      is requested, and no other key changes. */
  lemma SetModsReachesTarget(o: Out, guardOn: bool, mods: Mods)
    requires |o.keys| == 256
    ensures var after := SetMods(o, guardOn, mods, |MODIFIERS|).keys;
            (forall m: Modifier :: after[KeyOf(m)] == (m in mods)) &&
            (forall c: Code | !IsModifierKey(c) :: after[c] == o.keys[c])
  {
    SetModsKeys(o, guardOn, mods, |MODIFIERS|);
    var after := SetMods(o, guardOn, mods, |MODIFIERS|).keys;
    forall m: Modifier ensures after[KeyOf(m)] == (m in mods) {
      var j := match m case Alt => 0 case AltGr => 1 case Shift => 2 case Super => 3 case Ctrl => 4;
      assert MODIFIERS[j] == m;
    }
  }

  // ------------------------------------------------------------------ the modifier guard

  /** The output after a list of strokes. */
  function EmitAll(o: Out, strokes: seq<Stroke>): (r: Out)
    requires |o.keys| == 256
    ensures |r.keys| == 256 && r.trace == o.trace + strokes
    decreases |strokes|
  {
    if strokes == [] then o else EmitAll(Emit(o, strokes[0]), strokes[1..])
  }

  /** A release of a guarded key is no lone tap: control is down, or another key was
      pressed after it. */
  predicate NotLoneTap(o: Out, s: Stroke)
    requires |o.keys| == 256
  {
    !s.down && IsGuarded(s.code) ==> o.keys[LEFTCTRL] || o.last != s.code
  }

  /** No stroke of the list completes a lone tap of a guarded key. */
  predicate NoLoneTaps(o: Out, strokes: seq<Stroke>)
    requires |o.keys| == 256
    decreases |strokes|
  {
    strokes == [] || (NotLoneTap(o, strokes[0]) && NoLoneTaps(Emit(o, strokes[0]), strokes[1..]))
  }

  lemma {:induction false} EmitAllConcat(o: Out, a: seq<Stroke>, b: seq<Stroke>)
    requires |o.keys| == 256
    ensures EmitAll(o, a + b) == EmitAll(EmitAll(o, a), b)
    ensures NoLoneTaps(o, a + b) == (NoLoneTaps(o, a) && NoLoneTaps(EmitAll(o, a), b))
    decreases |a|
  {
    if a == [] {
      assert a + b == b;
    } else {
      assert (a + b)[1..] == a[1..] + b;
      EmitAllConcat(Emit(o, a[0]), a[1..], b);
    }
  }

  lemma EmitOne(o: Out, s: Stroke)
    requires |o.keys| == 256
    ensures EmitAll(o, [s]) == Emit(o, s)
    ensures NoLoneTaps(o, [s]) == NotLoneTap(o, s)
  {
    assert [s][1..] == [];
    assert EmitAll(Emit(o, s), []) == Emit(o, s);
  }

  lemma EmitThree(o: Out, a: Stroke, b: Stroke, c: Stroke)
    requires |o.keys| == 256
    ensures EmitAll(o, [a, b, c]) == Emit(Emit(Emit(o, a), b), c)
    ensures NoLoneTaps(o, [a, b, c]) ==
            (NotLoneTap(o, a) && NotLoneTap(Emit(o, a), b) && NotLoneTap(Emit(Emit(o, a), b), c))
  {
    EmitAllConcat(o, [a], [b, c]);
    EmitAllConcat(Emit(o, a), [b], [c]);
    EmitOne(o, a);
    EmitOne(Emit(o, a), b);
    EmitOne(Emit(Emit(o, a), b), c);
    assert [a, b, c] == [a] + [b, c] && [b, c] == [b] + [c];
  }

  /** What one turn of set_mods sends, and, guard on, that it completes no lone tap. */
  lemma SetModStrokes(o: Out, guardOn: bool, m: Modifier, on: bool) returns (strokes: seq<Stroke>)
    requires |o.keys| == 256
    ensures SetMod(o, guardOn, m, on) == EmitAll(o, strokes)
    ensures guardOn ==> NoLoneTaps(o, strokes)
  {
    var code := KeyOf(m);
    if o.keys[code] == on {
      strokes := [];
    } else if !on && NeedsTap(o, guardOn, code) {
      strokes := [Stroke(LEFTCTRL, true), Stroke(code, false), Stroke(LEFTCTRL, false)];
      EmitThree(o, strokes[0], strokes[1], strokes[2]);
    } else {
      strokes := [Stroke(code, on)];
      EmitOne(o, strokes[0]);
    }
  }

  /** With the guard on, every release of alt, altgr or meta that set_mods sends happens
      with control down or after another key was pressed. */
  lemma {:induction false} SetModsGuarded(o: Out, guardOn: bool, mods: Mods, n: nat) returns (strokes: seq<Stroke>)
    requires |o.keys| == 256 && n <= |MODIFIERS|
    ensures SetMods(o, guardOn, mods, n) == EmitAll(o, strokes)
    ensures guardOn ==> NoLoneTaps(o, strokes)
    decreases n
  {
    if n == 0 {
      strokes := [];
    } else {
      var front := SetModsGuarded(o, guardOn, mods, n - 1);
      var p := SetMods(o, guardOn, mods, n - 1);
      var last := SetModStrokes(p, guardOn, MODIFIERS[n - 1], MODIFIERS[n - 1] in mods);
      EmitAllConcat(o, front, last);
      strokes := front + last;
    }
  }
}
