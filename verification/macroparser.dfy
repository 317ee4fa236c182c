/** Parsing macros (src/macro.c:3-83). */
module MacroParser {
  import opened Keys
  import opened Output
  import opened Configs
  import opened Macros
  import opened State

  const MAX_ENTRIES := 256

  /** The tables behind the parser: parse_key_sequence (src/keys.c:346), and what a single
      character of a text types, a key or a compose sequence. */
  datatype Tables = Tables(
    keySequence: string -> Option<(Code, Mods)>, character: char -> Option<MacroEntry>)

  ghost predicate TablesOk(t: Tables) {
    forall c :: t.character(c).Some? ==> t.character(c).value.KeySeqEntry? || t.character(c).value.UnicodeEntry?
  }

  // -------------------------------------------------------------------------- the pieces

  function PieceEnd(s: string, sep: char, c: nat): (r: nat)
    requires c <= |s|
    ensures c <= r <= |s|
    decreases |s| - c
  {
    if c < |s| && s[c] != sep then PieceEnd(s, sep, c + 1) else c
  }

  /** The pieces strtok cuts a text into from position c on: none is empty. */
  function Pieces(s: string, sep: char, c: nat): seq<string>
    requires c <= |s|
    decreases |s| - c
  {
    if c == |s| then []
    else if s[c] == sep then Pieces(s, sep, c + 1)
    else
      var e := PieceEnd(s, sep, c);
      [s[c..e]] + Pieces(s, sep, e)
  }

  /** A piece: not empty, and free of the separator. */
  predicate Uncut(p: string, sep: char) {
    p != [] && sep !in p
  }

  lemma {:induction false} PieceEndAt(s: string, sep: char, c: nat, e: nat)
    requires c <= e <= |s| && (forall i | c <= i < e :: s[i] != sep) && (e == |s| || s[e] == sep)
    ensures PieceEnd(s, sep, c) == e
    decreases e - c
  {
    if c < e {
      PieceEndAt(s, sep, c + 1, e);
    }
  }

  lemma {:induction false} PieceEndFree(s: string, sep: char, c: nat)
    requires c <= |s|
    ensures sep !in s[c..PieceEnd(s, sep, c)]
    decreases |s| - c
  {
    if c < |s| && s[c] != sep {
      PieceEndFree(s, sep, c + 1);
      assert s[c..PieceEnd(s, sep, c)] == [s[c]] + s[c + 1..PieceEnd(s, sep, c)];
    }
  }

  /** Every piece is one. */
  lemma {:induction false} PiecesUncut(s: string, sep: char, c: nat)
    requires c <= |s|
    ensures forall p <- Pieces(s, sep, c) :: Uncut(p, sep)
    decreases |s| - c
  {
    if c == |s| {
    } else if s[c] == sep {
      PiecesUncut(s, sep, c + 1);
    } else {
      PieceEndFree(s, sep, c);
      PiecesUncut(s, sep, PieceEnd(s, sep, c));
    }
  }

  /** Pieces with one separator between each two. */
  function Joined(pieces: seq<string>, sep: char): string {
    if pieces == [] then [] else if |pieces| == 1 then pieces[0] else pieces[0] + [sep] + Joined(pieces[1..], sep)
  }

  /** Cutting undoes joining. */
  lemma PiecesOfJoined(pieces: seq<string>, sep: char)
    requires forall p <- pieces :: Uncut(p, sep)
    ensures Pieces(Joined(pieces, sep), sep, 0) == pieces
  {
    PiecesAfter([], pieces, sep);
    assert [] + Joined(pieces, sep) == Joined(pieces, sep);
  }

  lemma {:induction false} PiecesAfter(front: string, pieces: seq<string>, sep: char)
    requires forall p <- pieces :: Uncut(p, sep)
    ensures Pieces(front + Joined(pieces, sep), sep, |front|) == pieces
    decreases |pieces|
  {
    var s, c := front + Joined(pieces, sep), |front|;
    if pieces != [] {
      var e := c + |pieces[0]|;
      assert Uncut(pieces[0], sep);
      assert s[c..e] == pieces[0];
      assert forall i | c <= i < e :: s[i] == pieces[0][i - c];
      PieceEndAt(s, sep, c, e);
      if |pieces| > 1 {
        assert s == front + pieces[0] + [sep] + Joined(pieces[1..], sep);
        PiecesAfter(front + pieces[0] + [sep], pieces[1..], sep);
        assert s[e] == sep;
      }
    }
  }

  method Split(s: string, sep: char) returns (pieces: seq<string>)
    ensures pieces == Pieces(s, sep, 0)
  {
    pieces := [];
    var c := 0;
    while c < |s|
      invariant c <= |s| && pieces + Pieces(s, sep, c) == Pieces(s, sep, 0)
    {
      if s[c] == sep {
        c := c + 1;
      } else {
        var start := c;
        while c < |s| && s[c] != sep
          invariant start <= c <= |s| && PieceEnd(s, sep, c) == PieceEnd(s, sep, start)
          invariant c == start ==> s[c] != sep
        {
          c := c + 1;
        }
        assert pieces + ([s[start..c]] + Pieces(s, sep, c)) == (pieces + [s[start..c]]) + Pieces(s, sep, c);
        pieces := pieces + [s[start..c]];
      }
    }
  }

  predicate IsDigit(c: char) {
    '0' <= c <= '9'
  }

  function Digits(s: string, c: nat): (r: nat)
    requires c <= |s|
    ensures c <= r <= |s|
    decreases |s| - c
  {
    if c < |s| && IsDigit(s[c]) then Digits(s, c + 1) else c
  }

  /** is_timeval: digits followed by ms. */
  predicate IsTimeval(s: string) {
    var e := Digits(s, 0);
    e != 0 && e + 2 <= |s| && s[e] == 'm' && s[e + 1] == 's' && (e + 2 == |s| || s[e + 2] == '\n')
  }

  /** The value of the first n characters of a text, all digits. */
  function Number(s: string, n: nat): nat
    requires n <= |s| && forall i | 0 <= i < n :: IsDigit(s[i])
  {
    assert n != 0 ==> IsDigit(s[n - 1]);
    if n == 0 then 0 else 10 * Number(s, n - 1) + (s[n - 1] as int - '0' as int)
  }

  lemma {:induction false} DigitsAreDigits(s: string, c: nat)
    requires c <= |s|
    ensures forall i | c <= i < Digits(s, c) :: IsDigit(s[i])
    decreases |s| - c
  {
    if c < |s| && IsDigit(s[c]) {
      DigitsAreDigits(s, c + 1);
    }
  }

  /** The timeout entry of a time: 16 bits. */
  function TimeEntry(s: string): MacroEntry {
    DigitsAreDigits(s, 0);
    TimeoutEntry(Number(s, Digits(s, 0)) % 0x10000)
  }

  // -------------------------------------------------------------------------- the entries

  /** The entries of a hold group up to its n-th key. */
  function HoldEntries(t: Tables, keys: seq<string>, n: nat): Option<Macro>
    requires n <= |keys|
  {
    if n == 0 then Some([])
    else
      var front := HoldEntries(t, keys, n - 1);
      if front.None? then None
      else if IsTimeval(keys[n - 1]) then Some(front.value + [TimeEntry(keys[n - 1])])
      else
        match t.keySequence(keys[n - 1])
        case Some(k) => Some(front.value + [HoldEntry(k.0)])
        case None => None
  }

  /** The entries of a text up to its n-th character. */
  function TextEntries(t: Tables, s: string, n: nat): Macro
    requires n <= |s|
  {
    if n == 0 then []
    else
      TextEntries(t, s, n - 1) +
      match t.character(s[n - 1])
      case Some(e) => [e]
      case None => []
  }

  function TokenEntries(t: Tables, token: string): Option<Macro> {
    match t.keySequence(token)
    case Some(k) => Some([KeySeqEntry(k.0, k.1)])
    case None =>
      if '+' in token then
        var keys := Pieces(token, '+', 0);
        match HoldEntries(t, keys, |keys|)
        case Some(held) => Some(held + [ReleaseEntry])
        case None => None
      else if IsTimeval(token) then Some([TimeEntry(token)])
      else Some(TextEntries(t, token, |token|))
  }

  function Entries(t: Tables, tokens: seq<string>, n: nat): Option<Macro>
    requires n <= |tokens|
  {
    if n == 0 then Some([])
    else
      match (Entries(t, tokens, n - 1), TokenEntries(t, tokens[n - 1]))
      case (Some(front), Some(own)) => Some(front + own)
      case _ => None
  }

  /** The macro a text stands for; None if it is not one or has too many entries. */
  function ParseMacro(t: Tables, s: string): Option<Macro> {
    var tokens := Pieces(s, ' ', 0);
    match Entries(t, tokens, |tokens|)
    case Some(m) => if |m| <= MAX_ENTRIES then Some(m) else None
    case None => None
  }

  // --------------------------------------------------------------------------- the parser

  /** struct macro while it is being parsed. */
  class MacroBuilder {
    const tables: Tables
    const entries: array<MacroEntry>
    var sz: nat

    constructor (tables: Tables)
      ensures this.tables == tables && Valid() && fresh(entries) && Contents() == []
    {
      this.tables := tables;
      entries := new MacroEntry[MAX_ENTRIES](_ => ReleaseEntry);
      sz := 0;
    }

    ghost predicate Valid()
      reads `sz
    {
      sz <= entries.Length == MAX_ENTRIES
    }

    ghost function Contents(): Macro
      reads `sz, entries
      requires Valid()
    {
      entries[..sz]
    }

    /** ADD_ENTRY: false if the macro is full. */
    method Add(e: MacroEntry) returns (ok: bool)
      requires Valid()
      modifies `sz, entries
      ensures Valid() && ok == (|old(Contents())| < MAX_ENTRIES)
      ensures Contents() == if ok then old(Contents()) + [e] else old(Contents())
    {
      ok := sz < MAX_ENTRIES;
      if ok {
        entries[sz] := e;
        sz := sz + 1;
      }
    }

    /** What has been added so far is the start of what is to be added. */
    ghost predicate Added(before: Macro, own: Macro, ok: bool)
      reads `sz, entries
    {
      Valid() && ok == (|before| + |own| <= MAX_ENTRIES) && (ok ==> Contents() == before + own)
    }

    method AddHolds(keys: seq<string>) returns (ok: bool)
      requires Valid()
      modifies `sz, entries
      ensures Valid()
      ensures match HoldEntries(tables, keys, |keys|)
              case Some(held) => Added(old(Contents()), held, ok)
              case None => !ok
    {
      hide IsTimeval, TimeEntry;
      ghost var before := Contents();
      var i := 0;
      while i < |keys|
        invariant 0 <= i <= |keys| && Valid()
        invariant HoldEntries(tables, keys, i).Some? && Contents() == before + HoldEntries(tables, keys, i).value
      {
        HoldEntriesFail(tables, keys, i + 1, |keys|);
        if IsTimeval(keys[i]) {
          ok := Add(TimeEntry(keys[i]));
        } else {
          match tables.keySequence(keys[i])
          case Some(k) => ok := Add(HoldEntry(k.0));
          case None => return false;
        }
        if !ok {
          return;
        }
        i := i + 1;
      }
      return true;
    }

    method AddText(token: string) returns (ok: bool)
      requires Valid()
      modifies `sz, entries
      ensures Added(old(Contents()), TextEntries(tables, token, |token|), ok)
    {
      ghost var before := Contents();
      var i := 0;
      while i < |token|
        invariant 0 <= i <= |token| && Valid() && Contents() == before + TextEntries(tables, token, i)
      {
        TextEntriesGrow(tables, token, i + 1, |token|);
        match tables.character(token[i]) {
          case Some(e) =>
            ok := Add(e);
            if !ok {
              return;
            }
          case None =>
        }
        i := i + 1;
      }
      return true;
    }

    method AddToken(token: string) returns (ok: bool)
      requires Valid()
      modifies `sz, entries
      ensures Valid()
      ensures match TokenEntries(tables, token)
              case Some(own) => Added(old(Contents()), own, ok)
              case None => !ok
    {
      match tables.keySequence(token)
      case Some(k) => ok := Add(KeySeqEntry(k.0, k.1));
      case None =>
        if '+' in token {
          var keys := Split(token, '+');
          ok := AddHolds(keys);
          if ok {
            ok := Add(ReleaseEntry);
          }
        } else if IsTimeval(token) {
          ok := Add(TimeEntry(token));
        } else {
          ok := AddText(token);
        }
    }

    /** macro_parse */
    method Parse(s: string) returns (ok: bool)
      requires Valid()
      modifies `sz, entries
      ensures Valid() && ok == ParseMacro(tables, s).Some?
      ensures ok ==> Contents() == ParseMacro(tables, s).value
    {
      sz := 0;
      var tokens := Split(s, ' ');
      var i := 0;
      while i < |tokens|
        invariant 0 <= i <= |tokens| && Valid()
        invariant Entries(tables, tokens, i) == Some(Contents())
      {
        EntriesFail(tables, tokens, i + 1, |tokens|);
        ok := AddToken(tokens[i]);
        if !ok {
          return;
        }
        i := i + 1;
      }
      return true;
    }
  }

  lemma {:induction false} HoldEntriesFail(t: Tables, keys: seq<string>, i: nat, n: nat)
    requires i <= n <= |keys|
    ensures HoldEntries(t, keys, i).None? ==> HoldEntries(t, keys, n).None?
    ensures HoldEntries(t, keys, i).Some? && HoldEntries(t, keys, n).Some? ==>
              |HoldEntries(t, keys, i).value| <= |HoldEntries(t, keys, n).value|
    decreases n
  {
    if i != n {
      HoldEntriesFail(t, keys, i, n - 1);
    }
  }

  lemma {:induction false} TextEntriesGrow(t: Tables, s: string, i: nat, n: nat)
    requires i <= n <= |s|
    ensures |TextEntries(t, s, i)| <= |TextEntries(t, s, n)|
    decreases n
  {
    if i != n {
      TextEntriesGrow(t, s, i, n - 1);
    }
  }

  lemma {:induction false} EntriesFail(t: Tables, tokens: seq<string>, i: nat, n: nat)
    requires i <= n <= |tokens|
    ensures Entries(t, tokens, i).None? ==> Entries(t, tokens, n).None?
    ensures Entries(t, tokens, i).Some? && Entries(t, tokens, n).Some? ==>
              |Entries(t, tokens, i).value| <= |Entries(t, tokens, n).value|
    decreases n
  {
    if i != n {
      EntriesFail(t, tokens, i, n - 1);
    }
  }

  // ------------------------------------------------------- parsed macros leave nothing down

  lemma {:induction false} HoldStartOfPrefix(a: Macro, b: Macro, n: nat)
    requires n <= |a|
    ensures HoldStart(a + b, n) == HoldStart(a, n)
    decreases n
  {
    if n != 0 {
      HoldStartOfPrefix(a, b, n - 1);
    }
  }

  /** Entries that open no hold group. */
  ghost predicate HoldsNothing(m: Macro) {
    forall i | 0 <= i < |m| :: !m[i].HoldEntry?
  }

  lemma {:induction false} HoldsNothingStaysClosed(a: Macro, b: Macro, n: nat)
    requires Closed(a) && HoldsNothing(b) && n <= |b|
    ensures HoldStart(a + b, |a| + n) == -1
    decreases n
  {
    if n == 0 {
      HoldStartOfPrefix(a, b, |a|);
    } else {
      HoldsNothingStaysClosed(a, b, n - 1);
    }
  }

  lemma {:induction false} TextHoldsNothing(t: Tables, s: string, n: nat)
    requires TablesOk(t) && n <= |s|
    ensures HoldsNothing(TextEntries(t, s, n))
    decreases n
  {
    if n != 0 {
      TextHoldsNothing(t, s, n - 1);
    }
  }

  /** A token opens no hold group or ends by closing it. */
  lemma TokenCloses(t: Tables, before: Macro, token: string)
    requires TablesOk(t) && Closed(before) && TokenEntries(t, token).Some?
    ensures Closed(before + TokenEntries(t, token).value)
  {
    var own := TokenEntries(t, token).value;
    if t.keySequence(token).None? && '+' in token {
      assert (before + own)[|before + own| - 1] == ReleaseEntry;
    } else {
      if t.keySequence(token).None? && !IsTimeval(token) {
        TextHoldsNothing(t, token, |token|);
      }
      HoldsNothingStaysClosed(before, own, |own|);
    }
  }

  lemma {:induction false} EntriesClosed(t: Tables, tokens: seq<string>, n: nat)
    requires TablesOk(t) && n <= |tokens|
    ensures Entries(t, tokens, n).Some? ==> Closed(Entries(t, tokens, n).value)
    decreases n
  {
    if n != 0 && Entries(t, tokens, n).Some? {
      EntriesClosed(t, tokens, n - 1);
      TokenCloses(t, Entries(t, tokens, n - 1).value, tokens[n - 1]);
    }
  }

  /** Every macro that parses, whatever mix of holds, times, key sequences and text it is, run
      from any key state leaves exactly those keys down that were down before and that it
      never mentions: every hold group is released. */
  lemma ParsedMacroReleases(t: Tables, s: string, o: Out, c: Code)
    requires TablesOk(t) && ParseMacro(t, s).Some? && |o.keys| == 256 && !IsSilent(c)
    ensures var m := ParseMacro(t, s).value;
            Closed(m) && SendAll(o, Requests(m, |m|)).keys[c] == (o.keys[c] && FateOf(Requests(m, |m|), c) == Untouched)
  {
    var tokens := Pieces(s, ' ', 0);
    EntriesClosed(t, tokens, |tokens|);
    ClosedMacroEffect(ParseMacro(t, s).value, o, c);
  }
}
