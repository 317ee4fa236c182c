/** What a macro sends (src/macro.c:85-173, src/unicode.c). */
module Macros {
  import opened Keys
  import opened Output
  import opened Configs

  const CANCEL: Code := 223

  /** The keys that stand for the 36 digits of a compose sequence. */
  const DIGITS: seq<Code> := [
    11, 2, 3, 4, 5, 6, 7, 8, 9, 10, 30, 48, 46, 32, 18, 33, 34, 35,
    23, 36, 37, 38, 50, 49, 24, 25, 16, 19, 31, 20, 22, 47, 17, 45, 21, 44]

  function UnicodeSequence(idx: nat): seq<Code> {
    [CANCEL, DIGITS[idx / 1296 % 36], DIGITS[idx / 36 % 36], DIGITS[idx % 36]]
  }

  /** The low byte of an entry's data: what the release of a hold group sends. */
  function DataCode(e: MacroEntry): Code {
    match e
    case KeySeqEntry(code, _) => code
    case HoldEntry(code) => code
    case ReleaseEntry => 0
    case UnicodeEntry(idx) => idx % 256
    case TimeoutEntry(ms) => ms % 256
  }

  /** hold_start after the first n entries: where the open hold group begins, or -1. */
  function HoldStart(m: Macro, n: nat): (r: int)
    requires n <= |m|
    ensures -1 <= r < n
  {
    if n == 0 then -1
    else
      var h := HoldStart(m, n - 1);
      match m[n - 1]
      case HoldEntry(_) => if h == -1 then n - 1 else h
      case ReleaseEntry => -1
      case _ => h
  }

  /** No hold group is left open. */
  predicate Closed(m: Macro) {
    HoldStart(m, |m|) == -1
  }

  /** Requests to press or release, in table order, the keys of a mask. */
  function ModRequests(mods: Mods, n: nat, down: bool): seq<Stroke>
    requires n <= |MODIFIERS|
  {
    if n == 0 then []
    else
      var rest := ModRequests(mods, n - 1, down);
      if MODIFIERS[n - 1] in mods then rest + [Stroke(KeyOf(MODIFIERS[n - 1]), down)] else rest
  }

  function Releases(m: Macro, lo: nat, hi: nat): seq<Stroke>
    requires lo <= hi <= |m|
    decreases hi
  {
    if lo == hi then [] else Releases(m, lo, hi - 1) + [Stroke(DataCode(m[hi - 1]), false)]
  }

  function Taps(codes: seq<Code>, n: nat): seq<Stroke>
    requires n <= |codes|
  {
    if n == 0 then [] else Taps(codes, n - 1) + [Stroke(codes[n - 1], true), Stroke(codes[n - 1], false)]
  }

  /** What entry i asks the output for. */
  function EntryRequests(m: Macro, i: nat): seq<Stroke>
    requires i < |m|
  {
    match m[i]
    case HoldEntry(code) => [Stroke(code, true)]
    case ReleaseEntry => if HoldStart(m, i) == -1 then [] else Releases(m, HoldStart(m, i), i)
    case UnicodeEntry(idx) => Taps(UnicodeSequence(idx), 4)
    case KeySeqEntry(code, mods) =>
      ModRequests(mods, |MODIFIERS|, true) + [Stroke(code, true), Stroke(code, false)] +
      ModRequests(mods, |MODIFIERS|, false)
    case TimeoutEntry(_) => []
  }

  /** What the first n entries ask the output for. */
  function Requests(m: Macro, n: nat): seq<Stroke>
    requires n <= |m|
  {
    if n == 0 then [] else Requests(m, n - 1) + EntryRequests(m, n - 1)
  }

  /** A list of requests served by send_key. */
  function SendAll(o: Out, requests: seq<Stroke>): (r: Out)
    requires |o.keys| == 256
    ensures |r.keys| == 256
    decreases |requests|
  {
    if requests == [] then o
    else
      var n := |requests| - 1;
      Send(SendAll(o, requests[..n]), requests[n].code, requests[n].down)
  }

  lemma SendAllAppend(o: Out, a: seq<Stroke>, s: Stroke)
    requires |o.keys| == 256
    ensures SendAll(o, a + [s]) == Send(SendAll(o, a), s.code, s.down)
  {
    assert (a + [s])[..|a|] == a;
  }

  lemma {:induction false} SendAllConcat(o: Out, a: seq<Stroke>, b: seq<Stroke>)
    requires |o.keys| == 256
    ensures SendAll(o, a + b) == SendAll(SendAll(o, a), b)
    decreases |b|
  {
    if b == [] {
      assert a + b == a;
    } else {
      var n := |b| - 1;
      assert a + b == (a + b[..n]) + [b[n]];
      SendAllAppend(o, a + b[..n], b[n]);
      SendAllConcat(o, a, b[..n]);
    }
  }

  lemma {:induction false} SendAllKeepsOutput(o: Out, requests: seq<Stroke>)
    requires OutputOk(o)
    ensures OutputOk(SendAll(o, requests))
    decreases |requests|
  {
    if requests != [] {
      var n := |requests| - 1;
      SendAllKeepsOutput(o, requests[..n]);
      SendKeepsOutput(SendAll(o, requests[..n]), requests[n].code, requests[n].down);
    }
  }

  // ------------------------------------------------- a closed macro leaves nothing down

  /** What a list of requests last says about a key. */
  datatype Fate = Untouched | Down | Up

  function FateOf(requests: seq<Stroke>, c: Code): Fate {
    if requests == [] then Untouched
    else
      var last := requests[|requests| - 1];
      if last.code != c then FateOf(requests[..|requests| - 1], c)
      else if last.down then Down else Up
  }

  lemma FateAppend(a: seq<Stroke>, s: Stroke, c: Code)
    ensures FateOf(a + [s], c) == if s.code != c then FateOf(a, c) else if s.down then Down else Up
  {
    assert (a + [s])[..|a|] == a;
  }

  lemma {:induction false} FateConcat(a: seq<Stroke>, b: seq<Stroke>, c: Code)
    ensures FateOf(a + b, c) == if FateOf(b, c) == Untouched then FateOf(a, c) else FateOf(b, c)
    decreases |b|
  {
    if b == [] {
      assert a + b == a;
    } else {
      var n := |b| - 1;
      assert a + b == (a + b[..n]) + [b[n]];
      FateAppend(a + b[..n], b[n], c);
      FateConcat(a, b[..n], c);
    }
  }

  /** The last request for a key decides its state. */
  lemma {:induction false} FateEffect(o: Out, requests: seq<Stroke>, c: Code)
    requires |o.keys| == 256 && !IsSilent(c)
    ensures SendAll(o, requests).keys[c] ==
            match FateOf(requests, c) case Untouched => o.keys[c] case Down => true case Up => false
    decreases |requests|
  {
    if requests != [] {
      FateEffect(o, requests[..|requests| - 1], c);
    }
  }

  lemma {:induction false} ModFates(mods: Mods, n: nat, c: Code)
    requires n <= |MODIFIERS|
    ensures FateOf(ModRequests(mods, n, false), c) != Down
    ensures FateOf(ModRequests(mods, n, true), c) != Untouched ==> FateOf(ModRequests(mods, n, false), c) == Up
    decreases n
  {
    if n != 0 {
      ModFates(mods, n - 1, c);
      FateAppend(ModRequests(mods, n - 1, true), Stroke(KeyOf(MODIFIERS[n - 1]), true), c);
      FateAppend(ModRequests(mods, n - 1, false), Stroke(KeyOf(MODIFIERS[n - 1]), false), c);
    }
  }

  lemma TapFate(a: seq<Stroke>, code: Code, c: Code)
    ensures FateOf(a + [Stroke(code, true), Stroke(code, false)], c) == if c == code then Up else FateOf(a, c)
  {
    assert a + [Stroke(code, true), Stroke(code, false)] == (a + [Stroke(code, true)]) + [Stroke(code, false)];
    FateAppend(a + [Stroke(code, true)], Stroke(code, false), c);
    FateAppend(a, Stroke(code, true), c);
  }

  lemma {:induction false} TapsFate(codes: seq<Code>, n: nat, c: Code)
    requires n <= |codes|
    ensures FateOf(Taps(codes, n), c) != Down
    decreases n
  {
    if n != 0 {
      TapsFate(codes, n - 1, c);
      TapFate(Taps(codes, n - 1), codes[n - 1], c);
    }
  }

  lemma {:induction false} ReleasesFate(m: Macro, lo: nat, hi: nat, c: Code)
    requires lo <= hi <= |m|
    ensures FateOf(Releases(m, lo, hi), c) != Down
    ensures (exists j | lo <= j < hi :: m[j] == HoldEntry(c)) ==> FateOf(Releases(m, lo, hi), c) == Up
    decreases hi
  {
    if lo != hi {
      ReleasesFate(m, lo, hi - 1, c);
      FateAppend(Releases(m, lo, hi - 1), Stroke(DataCode(m[hi - 1]), false), c);
    }
  }

  /** The open hold group after n entries holds key c. */
  predicate HoldsOpen(m: Macro, n: nat, c: Code)
    requires n <= |m|
  {
    HoldStart(m, n) != -1 && exists j | HoldStart(m, n) <= j < n :: m[j] == HoldEntry(c)
  }

  /** Whatever entry i presses is released by the entry itself, or becomes held. */
  lemma EntryFate(m: Macro, i: nat, c: Code)
    requires i < |m|
    ensures FateOf(EntryRequests(m, i), c) == Down ==> HoldsOpen(m, i + 1, c)
    ensures HoldsOpen(m, i, c) ==> HoldsOpen(m, i + 1, c) || FateOf(EntryRequests(m, i), c) == Up
  {
    match m[i]
    case HoldEntry(code) =>
      FateAppend([], Stroke(code, true), c);
      if FateOf(EntryRequests(m, i), c) == Down {
        assert m[i] == HoldEntry(c);
      }
    case ReleaseEntry =>
      if HoldStart(m, i) != -1 {
        ReleasesFate(m, HoldStart(m, i), i, c);
      }
    case UnicodeEntry(idx) =>
      TapsFate(UnicodeSequence(idx), 4, c);
    case KeySeqEntry(code, mods) =>
      var n := |MODIFIERS|;
      ModFates(mods, n, c);
      TapFate(ModRequests(mods, n, true), code, c);
      FateConcat(ModRequests(mods, n, true) + [Stroke(code, true), Stroke(code, false)], ModRequests(mods, n, false),
        c);
    case TimeoutEntry(_) =>
  }

  lemma {:induction false} RequestsFate(m: Macro, n: nat, c: Code)
    requires n <= |m|
    ensures FateOf(Requests(m, n), c) == Down ==> HoldsOpen(m, n, c)
    decreases n
  {
    hide EntryRequests, HoldsOpen;
    if n != 0 {
      RequestsFate(m, n - 1, c);
      EntryFate(m, n - 1, c);
      DownStays(Requests(m, n - 1), EntryRequests(m, n - 1), c, HoldsOpen(m, n - 1, c), HoldsOpen(m, n, c));
    }
  }

  lemma DownStays(a: seq<Stroke>, b: seq<Stroke>, c: Code, before: bool, after: bool)
    requires FateOf(a, c) == Down ==> before
    requires (FateOf(b, c) == Down ==> after) && (before ==> after || FateOf(b, c) == Up)
    ensures FateOf(a + b, c) == Down ==> after
  {
    FateConcat(a, b, c);
  }

  /** From any key state, a macro without an open hold group leaves exactly the keys down
      that were down before and that it never mentions: it presses nothing for good. */
  lemma ClosedMacroEffect(m: Macro, o: Out, c: Code)
    requires |o.keys| == 256 && Closed(m) && !IsSilent(c)
    ensures SendAll(o, Requests(m, |m|)).keys[c] == (o.keys[c] && FateOf(Requests(m, |m|), c) == Untouched)
  {
    RequestsFate(m, |m|, c);
    FateEffect(o, Requests(m, |m|), c);
  }

  /** A time in a hold group releases a key, too: the one whose code is its low byte. */
  lemma TimesRelease(held: Code, ms: nat, o: Out)
    requires |o.keys| == 256 && !IsSilent(ms % 256)
    ensures var m := [HoldEntry(held), TimeoutEntry(ms), ReleaseEntry];
            Closed(m) && !SendAll(o, Requests(m, |m|)).keys[ms % 256]
  {
    var m := [HoldEntry(held), TimeoutEntry(ms), ReleaseEntry];
    assert HoldStart(m, 1) == 0 && HoldStart(m, 2) == 0 && HoldStart(m, 3) == -1;
    assert EntryRequests(m, 2) == Releases(m, 0, 2);
    FateAppend(Releases(m, 0, 1), Stroke(ms % 256, false), ms % 256);
    FateConcat(Requests(m, 2), EntryRequests(m, 2), ms % 256);
    ClosedMacroEffect(m, o, ms % 256);
  }

  /** A lone key sequence mentions its key and modifier keys only. */
  lemma SingleKeySequenceFate(m: Macro, c: Code)
    requires |m| == 1 && m[0].KeySeqEntry? && !IsModifierKey(c)
    ensures Closed(m)
    ensures FateOf(Requests(m, |m|), c) == if c == m[0].code then Up else Untouched
  {
    var n, code, mods := |MODIFIERS|, m[0].code, m[0].mods;
    ModRequestsFate(mods, n, true, c);
    ModRequestsFate(mods, n, false, c);
    TapFate(ModRequests(mods, n, true), code, c);
    FateConcat(ModRequests(mods, n, true) + [Stroke(code, true), Stroke(code, false)], ModRequests(mods, n, false), c);
    assert Requests(m, 1) == [] + EntryRequests(m, 0);
    assert [] + EntryRequests(m, 0) == EntryRequests(m, 0);
  }

  lemma {:induction false} ModRequestsFate(mods: Mods, n: nat, down: bool, c: Code)
    requires n <= |MODIFIERS| && !IsModifierKey(c)
    ensures FateOf(ModRequests(mods, n, down), c) == Untouched
    decreases n
  {
    if n != 0 {
      ModRequestsFate(mods, n - 1, down, c);
      FateAppend(ModRequests(mods, n - 1, down), Stroke(KeyOf(MODIFIERS[n - 1]), down), c);
    }
  }

  /** The execution time macro_execute reports for the first n entries: their timeouts
      plus, per entry, the sequence timeout in whole milliseconds. */
  function Duration(m: Macro, n: nat, perEntry: nat): nat
    requires n <= |m|
  {
    if n == 0 then 0
    else
      var wait := if m[n - 1].TimeoutEntry? then m[n - 1].ms else 0;
      Duration(m, n - 1, perEntry) + wait + perEntry
  }
}
