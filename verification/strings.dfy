/** Unescaping in place (src/string.c:52-107). */
module Strings {

  /** The text of a buffer: what precedes its first NUL. */
  function Text(buffer: seq<char>): string {
    if buffer == [] || buffer[0] == '\0' then [] else [buffer[0]] + Text(buffer[1..])
  }

  /** What the character after a backslash stands for. */
  function Meaning(c: char): string {
    match c
    case 'n' => "\n"
    case 't' => "\t"
    case '\\' => "\\"
    case ')' => ")"
    case '(' => "("
    case _ => ['\\', c]
  }

  /** A text with its escape sequences replaced; a backslash at the end is dropped. */
  function Unescape(t: string): string
    decreases |t|
  {
    if t == [] then []
    else if t[0] != '\\' then [t[0]] + Unescape(t[1..])
    else if |t| == 1 then []
    else Meaning(t[1]) + Unescape(t[2..])
  }

  function EscapeChar(c: char): string {
    match c
    case '\n' => "\\n"
    case '\t' => "\\t"
    case '\\' => "\\\\"
    case ')' => "\\)"
    case '(' => "\\("
    case _ => [c]
  }

  /** The escaped form of a text. */
  function Escape(t: string): string {
    if t == [] then [] else EscapeChar(t[0]) + Escape(t[1..])
  }

  lemma UnescapeChar(c: char, rest: string)
    ensures Unescape(EscapeChar(c) + rest) == [c] + Unescape(rest)
  {
    var s := EscapeChar(c) + rest;
    assert s[|EscapeChar(c)|..] == rest;
  }

  /** Unescaping undoes escaping. */
  lemma {:induction false} UnescapeEscape(t: string)
    ensures Unescape(Escape(t)) == t
    decreases |t|
  {
    if t != [] {
      UnescapeEscape(t[1..]);
      UnescapeChar(t[0], Escape(t[1..]));
    }
  }

  /** A text is the part of its buffer before the first NUL. */
  lemma {:induction false} TextEnds(buffer: seq<char>, n: nat)
    requires n < |buffer| && buffer[n] == '\0' && '\0' !in buffer[..n]
    ensures Text(buffer) == buffer[..n]
    decreases n
  {
    if n != 0 {
      assert buffer[0] in buffer[..n];
      assert buffer[1..][..n - 1] == buffer[..n][1..];
      TextEnds(buffer[1..], n - 1);
    }
  }

  lemma {:induction false} TextFits(buffer: seq<char>)
    requires '\0' in buffer
    ensures var n := |Text(buffer)|;
            n < |buffer| && buffer[n] == '\0' && Text(buffer) == buffer[..n] && '\0' !in Text(buffer)
    decreases |buffer|
  {
    if buffer[0] != '\0' {
      assert '\0' in buffer[1..];
      TextFits(buffer[1..]);
    }
  }

  lemma UnescapeStep(t: string, i: nat)
    requires i < |t|
    ensures Unescape(t[i..]) ==
            if t[i] != '\\' then [t[i]] + Unescape(t[i + 1..])
            else if i + 1 == |t| then [] else Meaning(t[i + 1]) + Unescape(t[i + 2..])
  {
    assert t[i..][1..] == t[i + 1..];
    if i + 1 < |t| {
      assert t[i..][2..] == t[i + 2..];
    }
  }

  lemma UnescapeNothing(t: string)
    ensures Unescape(t[|t|..]) == []
  {
  }

  lemma Regroup<T>(all: seq<T>, a: seq<T>, b: seq<T>, c: seq<T>)
    requires all == a + (b + c)
    ensures all == a + b + c
  {
  }

  /** Writes what an escape sequence stands for at the write cursor. */
  method WriteMeaning(s: array<char>, n: nat, c: char) returns (m: nat)
    requires n + 1 < s.Length && c != '\0'
    modifies s
    ensures n < m <= n + 2 && s[..m] == old(s[..n]) + Meaning(c) && forall j | n + 2 <= j < s.Length ::
            s[j] == old(s[j])
    ensures '\0' !in Meaning(c)
  {
    m := n + 1;
    match c
    case 'n' => s[n] := '\n';
    case 't' => s[n] := '\t';
    case '\\' => s[n] := '\\';
    case ')' => s[n] := ')';
    case '(' => s[n] := '(';
    case _ =>
      s[n] := '\\';
      s[n + 1] := c;
      m := n + 2;
  }

  /** str_escape: unescapes the text of a NUL-terminated buffer in place and returns its new
      length. The write cursor n never passes the read cursor i. */
  method StrEscape(s: array<char>) returns (n: nat)
    requires '\0' in s[..]
    modifies s
    ensures Text(s[..]) == Unescape(old(Text(s[..]))) && n == |Text(s[..])| <= |old(Text(s[..]))|
    ensures n < s.Length && s[..n] == Text(s[..])
  {
    hide Unescape, Meaning, Text;
    ghost var t := Text(s[..]);
    TextFits(s[..]);
    UnescapeNothing(t);
    n := 0;
    var i := 0;
    ghost var rest := Unescape(t[i..]);
    assert t[0..] == t;
    while s[i] != '\0'
      invariant n <= i <= |t| < s.Length && rest == Unescape(t[i..])
      invariant forall j | i <= j < s.Length :: s[j] == old(s[j])
      invariant Unescape(t) == s[..n] + rest && '\0' !in s[..n]
      decreases |t| - i
    {
      assert i < |t| && s[i] == t[i];
      UnescapeStep(t, i);
      ghost var done := s[..n];
      if s[i] == '\\' {
        var c := s[i + 1];
        if c == '\0' {
          assert i + 1 == |t|;
          rest := [];
          break;
        }
        assert i + 1 < |t| && c == t[i + 1];
        n := WriteMeaning(s, n, c);
        i := i + 2;
        rest := Unescape(t[i..]);
        Regroup(Unescape(t), done, Meaning(c), rest);
      } else {
        s[n] := s[i];
        n := n + 1;
        assert s[..n] == done + [t[i]];
        Regroup(Unescape(t), done, [t[i]], Unescape(t[i + 1..]));
        i := i + 1;
        rest := Unescape(t[i..]);
      }
    }
    assert rest == [] && Unescape(t) == s[..n];
    s[n] := '\0';
    TextEnds(s[..], n);
  }
}
