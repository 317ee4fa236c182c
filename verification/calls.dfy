/** Actions written as calls: name(arg, arg, ...) (src/config.c:478-548), and the text of a
    macro (src/config.c:560-597). */
module Calls {
  import opened State
  import opened Strings

  const MAX_ARGS := 5

  // --------------------------------------------------------------------------- parse_fn

  /** Where the argument being read at c ends: at a comma or a closing parenthesis outside
      all parentheses opened since, or with the text. */
  function ArgEnd(s: string, c: nat, level: nat): (r: nat)
    requires c <= |s|
    ensures c <= r <= |s| && (r < |s| ==> s[r] == ',' || s[r] == ')')
    decreases |s| - c
  {
    if c == |s| then c
    else if s[c] == '\\' then ArgEnd(s, if c + 1 < |s| then c + 2 else c + 1, level)
    else if s[c] == '(' then ArgEnd(s, c + 1, level + 1)
    else if s[c] == ')' then if level == 0 then c else ArgEnd(s, c + 1, level - 1)
    else if s[c] == ',' && level == 0 then c
    else ArgEnd(s, c + 1, level)
  }

  function SkipSpaces(s: string, c: nat): (r: nat)
    requires c <= |s|
    ensures c <= r <= |s|
    decreases |s| - c
  {
    if c < |s| && s[c] == ' ' then SkipSpaces(s, c + 1) else c
  }

  /** The outcome of parse_fn; TooMany stands for a failed assertion. */
  datatype Call = NoCall | TooMany | Call(name: string, args: seq<string>)

  /** The call with more arguments in front. */
  function Prepend(args: seq<string>, call: Call): Call {
    if call.Call? then call.(args := args + call.args) else call
  }

  /** The arguments from position arg on, after n others. */
  function Args(s: string, name: string, arg: nat, n: nat): Call
    requires arg <= |s|
    decreases |s| - arg
  {
    var e := ArgEnd(s, arg, 0);
    var own := if e != arg then [s[arg..e]] else [];
    if e == |s| then NoCall
    else if n + |own| > MAX_ARGS then TooMany
    else if s[e] == ')' then Call(name, own)
    else Prepend(own, Args(s, name, SkipSpaces(s, e + 1), n + |own|))
  }

  /** Where the name of a call ends: at the first parenthesis. */
  function NameEnd(s: string, c: nat): (r: nat)
    requires c <= |s|
    ensures c <= r <= |s| && (r < |s| ==> s[r] == '(')
    decreases |s| - c
  {
    if c == |s| || s[c] == '(' then c else NameEnd(s, c + 1)
  }

  function Parse(s: string): Call {
    var e := NameEnd(s, 0);
    if e == |s| then NoCall else Args(s, s[..e], SkipSpaces(s, e + 1), 0)
  }

  /** parse_fn, with slices for the pieces the source cuts out of its buffer. */
  method ParseFn(s: string) returns (r: Call)
    ensures r == Parse(s)
  {
    hide Args, ArgEnd, SkipSpaces, NameEnd;
    var c := FindParen(s);
    if c == |s| {
      return NoCall;
    }
    var name := s[..c];
    c := Spaces(s, c + 1);
    var args: seq<string> := [];
    var arg := c;
    while true
      invariant arg <= |s| && |args| <= MAX_ARGS
      invariant Parse(s) == Prepend(args, Args(s, name, arg, |args|))
      decreases |s| - arg
    {
      ArgsStep(s, name, arg, |args|);
      c := ScanArg(s, arg);
      if c == |s| {
        return NoCall;
      }
      ghost var before, own := args, if arg != c then [s[arg..c]] else [];
      if arg != c {
        if |args| >= MAX_ARGS {
          return TooMany;
        }
        args := args + [s[arg..c]];
      }
      assert args == before + own;
      if s[c] == ')' {
        return Call(name, args);
      }
      PrependTwice(before, own, Args(s, name, SkipSpaces(s, c + 1), |args|));
      c := Spaces(s, c + 1);
      arg := c;
    }
  }

  lemma ArgsStep(s: string, name: string, arg: nat, n: nat)
    requires arg <= |s|
    ensures var e := ArgEnd(s, arg, 0);
            var own := if e != arg then [s[arg..e]] else [];
            Args(s, name, arg, n) ==
            if e == |s| then NoCall
            else if n + |own| > MAX_ARGS then TooMany
            else if s[e] == ')' then Call(name, own)
            else Prepend(own, Args(s, name, SkipSpaces(s, e + 1), n + |own|))
  {
  }

  method FindParen(s: string) returns (c: nat)
    ensures c == NameEnd(s, 0)
  {
    c := 0;
    while c < |s| && s[c] != '('
      invariant c <= |s| && NameEnd(s, c) == NameEnd(s, 0)
    {
      c := c + 1;
    }
  }

  method Spaces(s: string, start: nat) returns (c: nat)
    requires start <= |s|
    ensures c == SkipSpaces(s, start)
  {
    c := start;
    while c < |s| && s[c] == ' '
      invariant start <= c <= |s| && SkipSpaces(s, c) == SkipSpaces(s, start)
    {
      c := c + 1;
    }
  }

  /** The inner loop of parse_fn. */
  method ScanArg(s: string, arg: nat) returns (c: nat)
    requires arg <= |s|
    ensures c == ArgEnd(s, arg, 0)
  {
    c := arg;
    var level := 0;
    while c < |s|
      invariant arg <= c <= |s| && 0 <= level && ArgEnd(s, c, level) == ArgEnd(s, arg, 0)
      decreases |s| - c
    {
      if s[c] == '\\' && c + 1 < |s| {
        c := c + 2;
      } else {
        if s[c] == '(' {
          level := level + 1;
        } else if s[c] == ')' {
          if level == 0 {
            return;
          }
          level := level - 1;
        } else if s[c] == ',' && level == 0 {
          return;
        }
        c := c + 1;
      }
    }
  }

  lemma PrependTwice(a: seq<string>, b: seq<string>, call: Call)
    ensures Prepend(a, Prepend(b, call)) == Prepend(a + b, call)
  {
    if call.Call? {
      assert a + (b + call.args) == (a + b) + call.args;
    }
  }

  // -------------------------------------------------------------------- balanced arguments

  /** The parenthesis level after a text that is read at a level; -1 if the text does not
      belong to one argument there. */
  function LevelAfter(a: string, level: nat): (r: int)
    ensures r >= -1
    decreases |a|
  {
    if a == [] then level
    else if a[0] == '\\' then if |a| == 1 then -1 else LevelAfter(a[2..], level)
    else if a[0] == '(' then LevelAfter(a[1..], level + 1)
    else if a[0] == ')' then if level == 0 then -1 else LevelAfter(a[1..], level - 1)
    else if a[0] == ',' && level == 0 then -1
    else LevelAfter(a[1..], level)
  }

  /** A text that reads as one argument: its unescaped parentheses match, it has no unescaped
      comma outside of them and it does not end in an open escape. */
  predicate Balanced(a: string) {
    LevelAfter(a, 0) == 0
  }

  lemma {:induction false} LevelAfterConcat(a: string, b: string, level: nat)
    requires LevelAfter(a, level) >= 0
    ensures LevelAfter(a + b, level) == LevelAfter(b, LevelAfter(a, level))
    decreases |a|
  {
    if a == [] {
      assert a + b == b;
    } else if a[0] == '\\' {
      assert (a + b)[2..] == a[2..] + b;
      LevelAfterConcat(a[2..], b, level);
    } else {
      assert (a + b)[1..] == a[1..] + b;
      LevelAfterConcat(a[1..], b, if a[0] == '(' then level + 1 else if a[0] == ')' then level - 1 else level);
    }
  }

  /** The scan passes over a text that belongs to the argument. */
  lemma {:induction false} ArgEndSkips(s: string, c: nat, a: string, level: nat)
    requires c + |a| <= |s| && s[c..c + |a|] == a && LevelAfter(a, level) >= 0
    ensures ArgEnd(s, c, level) == ArgEnd(s, c + |a|, LevelAfter(a, level))
    decreases |a|
  {
    if a != [] {
      assert s[c] == a[0];
      if a[0] == '\\' {
        assert s[c + 2..c + |a|] == a[2..];
        ArgEndSkips(s, c + 2, a[2..], level);
      } else {
        assert s[c + 1..c + |a|] == a[1..];
        ArgEndSkips(s, c + 1, a[1..], if a[0] == '(' then level + 1 else if a[0] == ')' then level - 1 else level);
      }
    }
  }

  // --------------------------------------------------------------------------- printing

  function Join(args: seq<string>): string {
    if args == [] then [] else if |args| == 1 then args[0] else args[0] + ", " + Join(args[1..])
  }

  function Print(name: string, args: seq<string>): string {
    name + "(" + Join(args) + ")"
  }

  /** A text without the spaces in front. */
  function Trim(a: string): string {
    if a != [] && a[0] == ' ' then Trim(a[1..]) else a
  }

  /** The arguments without the spaces in front, empty ones left out. */
  function Kept(args: seq<string>): seq<string> {
    if args == [] then []
    else (if Trim(args[0]) == [] then [] else [Trim(args[0])]) + Kept(args[1..])
  }

  lemma {:induction false} TrimBalanced(a: string)
    ensures LevelAfter(Trim(a), 0) == LevelAfter(a, 0)
    decreases |a|
  {
    if a != [] && a[0] == ' ' {
      TrimBalanced(a[1..]);
    }
  }

  /** Skipping spaces in front of an argument. */
  lemma {:induction false} SkipTrims(s: string, c: nat, a: string)
    requires c + |a| < |s| && s[c..c + |a|] == a && s[c + |a|] != ' '
    ensures SkipSpaces(s, c) == c + |a| - |Trim(a)| && |Trim(a)| <= |a|
    ensures s[SkipSpaces(s, c)..c + |a|] == Trim(a)
    decreases |a|
  {
    if a != [] && a[0] == ' ' {
      assert s[c + 1..c + |a|] == a[1..] && s[c] == ' ';
      SkipTrims(s, c + 1, a[1..]);
    } else if a != [] {
      assert s[c] == a[0];
    }
  }

  /** One argument, up to the comma or parenthesis that ends it. */
  lemma ArgRead(s: string, c: nat, a: string)
    requires c + |a| < |s| && s[c..c + |a|] == a && Balanced(a)
    requires s[c + |a|] == ',' || s[c + |a|] == ')'
    ensures ArgEnd(s, SkipSpaces(s, c), 0) == c + |a| && s[SkipSpaces(s, c)..c + |a|] == Trim(a)
  {
    SkipTrims(s, c, a);
    TrimBalanced(a);
    ArgEndSkips(s, SkipSpaces(s, c), Trim(a), 0);
  }

  /** The first printed argument, what follows it and the rest. */
  lemma JoinRead(s: string, c: nat, args: seq<string>) returns (e: nat)
    requires c <= |s| && s[c..] == Join(args) + ")" && args != []
    ensures e == c + |args[0]| < |s| && s[c..e] == args[0]
    ensures |args| == 1 ==> s[e] == ')'
    ensures |args| > 1 ==> s[e] == ',' && e + 2 <= |s| && s[e + 1] == ' ' && s[e + 2..] == Join(args[1..]) + ")"
  {
    var a := args[0];
    var tail := if |args| == 1 then ")" else ", " + Join(args[1..]) + ")";
    e := c + |a|;
    assert s[c..] == a + tail;
    assert s[c..e] == s[c..][..|a|] == a && s[e..] == s[c..][|a|..] == tail && s[e] == tail[0];
    if |args| > 1 {
      assert s[e + 1] == tail[1] && s[e + 2..] == tail[2..] == Join(args[1..]) + ")";
    }
  }

  lemma KeptStep(args: seq<string>)
    requires args != []
    ensures Kept(args) == (if Trim(args[0]) == [] then [] else [Trim(args[0])]) + Kept(args[1..])
  {
  }

  lemma KeptNothing(args: seq<string>)
    requires args == []
    ensures Kept(args) == []
  {
  }

  lemma SkipOne(s: string, c: nat)
    requires c < |s| && s[c] == ' '
    ensures SkipSpaces(s, c) == SkipSpaces(s, c + 1)
  {
  }

  /** Reading printed arguments. */
  lemma {:induction false} ArgsOfJoin(s: string, name: string, c: nat, args: seq<string>, n: nat)
    requires c <= |s| && s[c..] == Join(args) + ")" && args != [] && n <= MAX_ARGS
    requires forall i | 0 <= i < |args| :: Balanced(args[i])
    ensures Args(s, name, SkipSpaces(s, c), n) ==
            if n + |Kept(args)| <= MAX_ARGS then Call(name, Kept(args)) else TooMany
    decreases |args|
  {
    hide Args, ArgEnd, SkipSpaces, LevelAfter, Trim, Kept, Join;
    KeptStep(args);
    var e := JoinRead(s, c, args);
    var own := if Trim(args[0]) == [] then [] else [Trim(args[0])];
    ArgRead(s, c, args[0]);
    ArgsStep(s, name, SkipSpaces(s, c), n);
    if |args| == 1 {
      KeptNothing(args[1..]);
    } else {
      SkipOne(s, e + 1);
      if n + |own| <= MAX_ARGS {
        ArgsOfJoin(s, name, e + 2, args[1..], n + |own|);
      }
    }
  }

  lemma {:induction false} NameRead(s: string, name: string, c: nat)
    requires c <= |name| < |s| && s[..|name|] == name && s[|name|] == '(' && '(' !in name
    ensures NameEnd(s, c) == |name|
    decreases |name| - c
  {
    if c < |name| {
      assert s[c] == name[c];
      NameRead(s, name, c + 1);
    }
  }

  /** parse_fn undoes printing: for any name and any balanced arguments it returns them in
      order, without the spaces in front and without empty ones, unless more than five are
      left. */
  lemma ParsePrint(name: string, args: seq<string>)
    requires '(' !in name && forall i | 0 <= i < |args| :: Balanced(args[i])
    ensures Parse(Print(name, args)) == if |Kept(args)| <= MAX_ARGS then Call(name, Kept(args)) else TooMany
  {
    var s, c := Print(name, args), |name| + 1;
    assert s[..|name|] == name && s[|name|] == '(' && s[c..] == Join(args) + ")";
    NameRead(s, name, 0);
    if args == [] {
      assert s[c] == ')' && ArgEnd(s, c, 0) == c;
    } else {
      ArgsOfJoin(s, name, c, args, 0);
    }
  }

  lemma {:induction false} TrimFirst(a: string)
    ensures |Trim(a)| <= |a| && (Trim(a) == a <==> a == [] || a[0] != ' ')
    ensures Trim(a) != [] ==> Trim(a)[0] != ' '
    decreases |a|
  {
    if a != [] && a[0] == ' ' {
      TrimFirst(a[1..]);
    }
  }

  lemma {:induction false} KeptAll(args: seq<string>)
    ensures |Kept(args)| <= |args|
    ensures Kept(args) == args <==> forall i | 0 <= i < |args| :: args[i] != [] && args[i][0] != ' '
    decreases |args|
  {
    if args != [] {
      KeptAll(args[1..]);
      TrimFirst(args[0]);
      var own := if Trim(args[0]) == [] then [] else [Trim(args[0])];
      if Kept(args) == args {
        assert |own| == 1 && own + Kept(args[1..]) == [args[0]] + args[1..];
        assert (own + Kept(args[1..]))[0] == args[0] && (own + Kept(args[1..]))[1..] == Kept(args[1..]);
      }
      assert args == [args[0]] + args[1..];
    }
  }

  /** It returns exactly the arguments printed if and only if there are at most five and none
      is empty or begins with a space. */
  lemma ParsesBackExactly(name: string, args: seq<string>)
    requires '(' !in name && forall i | 0 <= i < |args| :: Balanced(args[i])
    ensures Parse(Print(name, args)) == Call(name, args) <==>
            |args| <= MAX_ARGS && forall i | 0 <= i < |args| :: args[i] != [] && args[i][0] != ' '
  {
    ParsePrint(name, args);
    KeptAll(args);
  }

  // ----------------------------------------------------------------------------- macros

  function MacroCall(t: string): string {
    "macro(" + Escape(t) + ")"
  }

  /** Escaped text inside parentheses is never the end of an argument. */
  lemma {:induction false} EscapeKeepsLevel(t: string, level: nat)
    requires level > 0
    ensures LevelAfter(Escape(t), level) == level
    decreases |t|
  {
    if t != [] {
      var head := EscapeChar(t[0]);
      EscapeKeepsLevel(t[1..], level);
      EscapedChar(t[0], level);
      LevelAfterConcat(head, Escape(t[1..]), level);
    }
  }

  lemma EscapedChar(c: char, level: nat)
    requires level > 0
    ensures LevelAfter(EscapeChar(c), level) == level
  {
    var e := EscapeChar(c);
    if |e| == 2 {
      assert e[2..] == [];
    } else {
      assert e[1..] == [];
    }
  }

  lemma MacroLevel()
    ensures LevelAfter("macro(", 0) == 1
  {
    assert "macro("[1..] == "acro(" && "acro("[1..] == "cro(" && "cro("[1..] == "ro(" && "ro("[1..] == "o(" &&
           "o("[1..] == "(";
    assert "("[1..] == [];
  }

  /** Whatever the text, its macro is one balanced argument. */
  lemma MacroBalanced(t: string)
    ensures Balanced(MacroCall(t)) && MacroCall(t)[0] != ' '
  {
    MacroLevel();
    EscapeKeepsLevel(t, 1);
    LevelAfterConcat("macro(", Escape(t), 0);
    LevelAfterConcat("macro(" + Escape(t), ")", 0);
    assert ")"[1..] == [];
  }

  const MACRO_BUFFER := 1024

  /** parse_macro_expression up to macro_parse: the text of the macro, if the expression is
      one. A key sequence or a single character is its own macro. */
  function MacroText(s: string, isKeySequence: string -> bool): Option<string> {
    if |s| >= MACRO_BUFFER then None
    else if "macro(" <= s && s[|s| - 1] == ')' then Some(Unescape(s[6..|s| - 1]))
    else if !isKeySequence(s) && |s| != 1 then None
    else Some(s)
  }

  /** For any text, its macro comes out of any argument position whole and is turned back
      into the text. */
  lemma MacroSurvives(name: string, before: seq<string>, t: string, after: seq<string>, isKeySequence: string -> bool)
    requires '(' !in name && |before| + 1 + |after| <= MAX_ARGS
    requires forall i | 0 <= i < |before| :: Balanced(before[i]) && before[i] != [] && before[i][0] != ' '
    requires forall i | 0 <= i < |after| :: Balanced(after[i]) && after[i] != [] && after[i][0] != ' '
    ensures Parse(Print(name, before + [MacroCall(t)] + after)) == Call(name, before + [MacroCall(t)] + after)
    ensures |MacroCall(t)| < MACRO_BUFFER ==> MacroText(MacroCall(t), isKeySequence) == Some(t)
  {
    MacroBalanced(t);
    ParsesBackExactly(name, before + [MacroCall(t)] + after);
    var m := MacroCall(t);
    assert "macro(" <= m && m[6..|m| - 1] == Escape(t);
    UnescapeEscape(t);
  }
}
