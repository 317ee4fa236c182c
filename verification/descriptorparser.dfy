/** Parsing actions (src/config.c:64-117, 560-813): the descriptor table a configuration is
    built from. */
module DescriptorParser {
  import opened Keys
  import opened Configs
  import opened State
  import opened Strings
  import opened Calls
  import opened Macros
  import opened MacroParser

  const MAX_DESCRIPTORS := 1024
  const MAX_MACROS := 256
  const MAX_COMMANDS := 64
  const MAX_COMMAND_LENGTH := 256

  /** The room for a rewritten lettermod(). */
  const REWRITE_BUFFER := 1024

  /** One more than the longest expression of a configuration (src/config.h:16). */
  const MAX_EXP_LEN := 512

  // ------------------------------------------------------------------------- the actions

  datatype Op =
    | SwapOp | ClearOp | OneshotOp | ToggleOp | ClearMOp | SwapMOp | ToggleMOp | LayerMOp | OneshotMOp | OneshotKOp
    | LayerOp | OverloadOp | OverloadTimeoutOp | OverloadTimeoutTapOp | OverloadIdleOp | TimeoutOp | Macro2Op
    | LayoutOp | RepeatOp | ScrollOnOp | ScrollOffOp | ScrollToggleOp | ScrollOp

  datatype ArgType = LayerArg | LayoutArg | TimeArg | SensitivityArg | KeySequenceArg | ActionArg | MacroArg

  /** The table of actions; the last four are deprecated names. */
  const ACTIONS: seq<(string, Op)> := [
    ("swap", SwapOp), ("clear", ClearOp), ("oneshot", OneshotOp), ("toggle", ToggleOp),
    ("clearm", ClearMOp), ("swapm", SwapMOp), ("togglem", ToggleMOp), ("layerm", LayerMOp),
    ("oneshotm", OneshotMOp), ("oneshotk", OneshotKOp), ("layer", LayerOp), ("overload", OverloadOp),
    ("overloadt", OverloadTimeoutOp), ("overloadt2", OverloadTimeoutTapOp), ("overloadi", OverloadIdleOp),
    ("timeout", TimeoutOp), ("macro2", Macro2Op), ("setlayout", LayoutOp), ("repeat", RepeatOp),
    ("scrollon", ScrollOnOp), ("scrolloff", ScrollOffOp), ("scrollt", ScrollToggleOp), ("scroll", ScrollOp),
    ("overload2", OverloadTimeoutOp), ("overload3", OverloadTimeoutTapOp), ("toggle2", ToggleMOp), ("swap2", SwapMOp)]

  function Types(op: Op): (r: seq<ArgType>)
    ensures |r| <= 3
  {
    match op
    case SwapOp => [LayerArg]
    case ClearOp => []
    case OneshotOp => [LayerArg]
    case ToggleOp => [LayerArg]
    case ClearMOp => [MacroArg]
    case SwapMOp => [LayerArg, MacroArg]
    case ToggleMOp => [LayerArg, MacroArg]
    case LayerMOp => [LayerArg, MacroArg]
    case OneshotMOp => [LayerArg, MacroArg]
    case OneshotKOp => [LayerArg, KeySequenceArg]
    case LayerOp => [LayerArg]
    case OverloadOp => [LayerArg, ActionArg]
    case OverloadTimeoutOp => [LayerArg, ActionArg, TimeArg]
    case OverloadTimeoutTapOp => [LayerArg, ActionArg, TimeArg]
    case OverloadIdleOp => [ActionArg, ActionArg, TimeArg]
    case TimeoutOp => [ActionArg, TimeArg, ActionArg]
    case Macro2Op => [TimeArg, TimeArg, MacroArg]
    case LayoutOp => [LayoutArg]
    case RepeatOp => []
    case ScrollOnOp => [SensitivityArg]
    case ScrollOffOp => []
    case ScrollToggleOp => [SensitivityArg]
    case ScrollOp => [SensitivityArg]
  }

  /** Which arguments are never negative. */
  ghost predicate Natural(op: Op, v: seq<int>) {
    |v| == |Types(op)| && forall j | 0 <= j < |v| && !Types(op)[j].SensitivityArg? :: v[j] >= 0
  }

  function Build(op: Op, v: seq<int>): Descriptor
    requires Natural(op, v)
  {
    match op
    case SwapOp => Swap(v[0])
    case ClearOp => Clear
    case OneshotOp => Oneshot(v[0])
    case ToggleOp => Toggle(v[0])
    case ClearMOp => ClearM(v[0])
    case SwapMOp => SwapM(v[0], v[1])
    case ToggleMOp => ToggleM(v[0], v[1])
    case LayerMOp => LayerM(v[0], v[1])
    case OneshotMOp => OneshotM(v[0], v[1])
    case OneshotKOp => OneshotK(v[0], v[1])
    case LayerOp => Layer(v[0])
    case OverloadOp => Overload(v[0], v[1])
    case OverloadTimeoutOp => OverloadTimeout(v[0], v[1], v[2])
    case OverloadTimeoutTapOp => OverloadTimeoutTap(v[0], v[1], v[2])
    case OverloadIdleOp => OverloadIdle(v[0], v[1], v[2])
    case TimeoutOp => Timeout(v[0], v[1], v[2])
    case Macro2Op => Macro2(v[0], v[1], v[2])
    case LayoutOp => Layout(v[0])
    case RepeatOp => Repeat
    case ScrollOnOp => ScrollToggleOn(v[0])
    case ScrollOffOp => ScrollToggleOff
    case ScrollToggleOp => ScrollToggle(v[0])
    case ScrollOp => Scroll(v[0])
  }

  /** The first of the first n actions with this name, or -1. */
  function FindAction(name: string, n: nat): (r: int)
    requires n <= |ACTIONS|
    ensures -1 <= r < n && (r != -1 ==> ACTIONS[r].0 == name)
  {
    if n == 0 then -1
    else
      var p := FindAction(name, n - 1);
      if p != -1 then p else if ACTIONS[n - 1].0 == name then n - 1 else -1
  }

  // --------------------------------------------------------------------------- the names

  /** What the parser knows besides the text: the layers and their names, key sequences,
      characters and numbers (atoi). */
  datatype Names = Names(
    layers: seq<LayerDef>, layerIndex: string -> Option<nat>, tables: Tables, number: string -> int)

  /** The layer a bare modifier key stands for. */
  function ModifierLayer(code: Code): string {
    if code == LEFTSHIFT then "shift"
    else if code == LEFTCTRL then "control"
    else if code == LEFTMETA then "meta"
    else if code == LEFTALT then "alt"
    else "altgr"
  }

  /** Every name leads to a layer, and the modifier layers, which a configuration begins with,
      are no layouts. */
  ghost predicate NamesOk(n: Names) {
    TablesOk(n.tables) &&
    (forall s :: n.layerIndex(s).Some? ==> n.layerIndex(s).value < |n.layers|) &&
    forall code: Code | IsModifierKey(code) ::
      n.layerIndex(ModifierLayer(code)).Some? && !IsLayout(n.layers, n.layerIndex(ModifierLayer(code)).value)
  }

  // ------------------------------------------------------------------- what a text says

  function LetterModCall(args: seq<string>): string
    requires |args| == 4
  {
    Print("overloadi", [args[1], Print("overloadt2", [args[0], args[1], args[3]]), args[2]])
  }

  predicate IsLetterMod(s: string) {
    Parse(s).Call? && Parse(s).name == "lettermod"
  }

  /** A bound on the recursion: the rewritten form of lettermod() may be longer than the
      text. */
  function Measure(s: string): nat {
    |s| + if IsLetterMod(s) then 2 else 0
  }

  /** The call a text stands for, lettermod() rewritten. */
  function CallOf(s: string): Call {
    if !IsLetterMod(s) then Parse(s)
    else if |Parse(s).args| != 4 then NoCall
    else Parse(LetterModCall(Parse(s).args))
  }

  predicate IsCommand(s: string) {
    "command(" <= s && s[|s| - 1] == ')'
  }

  /** The macro a text stands for: not one, an invalid one, or its entries. */
  datatype MacroReading = NoMacro | BadMacro | GoodMacro(m: Macro)

  function ReadMacro(n: Names, s: string): MacroReading {
    match MacroText(s, t => n.tables.keySequence(t).Some?)
    case None => NoMacro
    case Some(text) =>
      match ParseMacro(n.tables, text)
      case Some(m) => GoodMacro(m)
      case None => BadMacro
  }

  datatype Reading =
    | Empty | KeysReading(code: Code, mods: Mods) | CommandReading | MacroIs(m: Macro)
    | Action(op: Op, args: seq<string>) | Invalid

  function ReadCall(call: Call): Reading {
    if !call.Call? then Invalid
    else
      var i := FindAction(call.name, |ACTIONS|);
      if i == -1 || |call.args| != |Types(ACTIONS[i].1)| then Invalid else Action(ACTIONS[i].1, call.args)
  }

  /** How parse_descriptor understands a text, leaving its arguments to be understood. */
  function Read(n: Names, s: string): Reading {
    if s == [] then Empty
    else if n.tables.keySequence(s).Some? then
      KeysReading(n.tables.keySequence(s).value.0, n.tables.keySequence(s).value.1)
    else if IsCommand(s) then if |s| > MAX_COMMAND_LENGTH then Invalid else CommandReading
    else
      match ReadMacro(n, s)
      case GoodMacro(m) => MacroIs(m)
      case BadMacro => Invalid
      case NoMacro => ReadCall(CallOf(s))
  }

  // -------------------------------------------------------------------------- the measure

  /** A text as C holds it. */
  predicate Clean(s: string) {
    '\0' !in s
  }

  /** What parse_fn returns for an argument: balanced, not empty, no space in front. */
  predicate Proper(a: string) {
    Balanced(a) && a != [] && a[0] != ' '
  }

  lemma {:induction false} ArgEndBalances(s: string, c: nat, level: nat)
    requires c <= |s| && ArgEnd(s, c, level) < |s|
    ensures LevelAfter(s[c..ArgEnd(s, c, level)], level) == 0
    decreases |s| - c
  {
    var e := ArgEnd(s, c, level);
    if e == c {
      assert s[c..e] == [];
    } else {
      var a := s[c..e];
      assert a[0] == s[c];
      if s[c] == '\\' {
        ArgEndBalances(s, c + 2, level);
        assert a[2..] == s[c + 2..e];
      } else {
        ArgEndBalances(s, c + 1, if s[c] == '(' then level + 1 else if s[c] == ')' then level - 1 else level);
        assert a[1..] == s[c + 1..e];
      }
    }
  }

  lemma {:induction false} SpacesSkipped(s: string, c: nat)
    requires c <= |s|
    ensures SkipSpaces(s, c) < |s| ==> s[SkipSpaces(s, c)] != ' '
    decreases |s| - c
  {
    if c < |s| && s[c] == ' ' {
      SpacesSkipped(s, c + 1);
    }
  }

  function Total(args: seq<string>): nat {
    if args == [] then 0 else |args[0]| + 1 + Total(args[1..])
  }

  /** The arguments are proper, and with one character after each they fit the text. */
  lemma {:induction false} ArgsFit(s: string, name: string, arg: nat, n: nat)
    requires arg <= |s| && (arg < |s| ==> s[arg] != ' ') && Args(s, name, arg, n).Call?
    ensures var args := Args(s, name, arg, n).args;
            Total(args) <= |s| - arg && forall i | 0 <= i < |args| :: Proper(args[i])
    decreases |s| - arg
  {
    hide ArgEnd, SkipSpaces, LevelAfter, Args;
    var e := ArgEnd(s, arg, 0);
    ArgsStep(s, name, arg, n);
    ArgEndBalances(s, arg, 0);
    var own := if e != arg then [s[arg..e]] else [];
    if s[e] != ')' {
      SpacesSkipped(s, e + 1);
      ArgsFit(s, name, SkipSpaces(s, e + 1), n + |own|);
      var rest := Args(s, name, SkipSpaces(s, e + 1), n + |own|).args;
      if own != [] {
        assert (own + rest)[1..] == rest;
      } else {
        assert own + rest == rest;
      }
    }
  }

  lemma {:induction false} ArgsClean(s: string, name: string, arg: nat, n: nat)
    requires arg <= |s| && Args(s, name, arg, n).Call? && Clean(s)
    ensures forall i | 0 <= i < |Args(s, name, arg, n).args| :: Clean(Args(s, name, arg, n).args[i])
    decreases |s| - arg
  {
    hide ArgEnd, SkipSpaces, Args;
    var e := ArgEnd(s, arg, 0);
    ArgsStep(s, name, arg, n);
    if s[e] != ')' {
      ArgsClean(s, name, SkipSpaces(s, e + 1), n + if e != arg then 1 else 0);
    }
  }

  lemma CallFits(s: string)
    requires Parse(s).Call?
    ensures |Parse(s).name| + 1 + Total(Parse(s).args) <= |s|
    ensures forall i | 0 <= i < |Parse(s).args| :: Proper(Parse(s).args[i]) && (Clean(s) ==> Clean(Parse(s).args[i]))
  {
    SpacesSkipped(s, NameEnd(s, 0) + 1);
    ArgsName(s, s[..NameEnd(s, 0)], SkipSpaces(s, NameEnd(s, 0) + 1), 0);
    ArgsFit(s, s[..NameEnd(s, 0)], SkipSpaces(s, NameEnd(s, 0) + 1), 0);
    if Clean(s) {
      ArgsClean(s, s[..NameEnd(s, 0)], SkipSpaces(s, NameEnd(s, 0) + 1), 0);
    }
  }

  lemma {:induction false} ArgsName(s: string, name: string, arg: nat, n: nat)
    requires arg <= |s| && Args(s, name, arg, n).Call?
    ensures Args(s, name, arg, n).name == name
    decreases |s| - arg
  {
    hide ArgEnd, SkipSpaces, Args;
    var e := ArgEnd(s, arg, 0);
    ArgsStep(s, name, arg, n);
    if s[e] != ')' {
      ArgsName(s, name, SkipSpaces(s, e + 1), n + if e != arg then 1 else 0);
    }
  }

  lemma {:induction false} TotalBounds(args: seq<string>, i: nat)
    requires i < |args|
    ensures |args[i]| < Total(args)
    decreases |args|
  {
    if i != 0 {
      TotalBounds(args[1..], i - 1);
    }
  }

  lemma Total4(args: seq<string>)
    requires |args| == 4
    ensures Total(args) == |args[0]| + |args[1]| + |args[2]| + |args[3]| + 4
  {
    assert Total(args) == |args[0]| + 1 + Total(args[1..]);
    assert Total(args[1..]) == |args[1]| + 1 + Total(args[1..][1..]);
    assert Total(args[1..][1..]) == |args[2]| + 1 + Total(args[1..][1..][1..]);
    assert Total(args[1..][1..][1..]) == |args[3]| + 1 + Total(args[1..][1..][1..][1..]);
  }

  // ------------------------------------------------------------------- rewriting lettermod()

  lemma {:induction false} LevelUp(a: string, level: nat, up: nat)
    requires LevelAfter(a, level) >= 0
    ensures LevelAfter(a, level + up) == LevelAfter(a, level) + up
    decreases |a|
  {
    if a != [] {
      if a[0] == '\\' {
        LevelUp(a[2..], level, up);
      } else {
        LevelUp(a[1..], if a[0] == '(' then level + 1 else if a[0] == ')' then level - 1 else level, up);
      }
    }
  }

  lemma Separator(level: nat)
    requires level > 0
    ensures LevelAfter(", ", level) == level
  {
    assert ", "[1..] == " " && " "[1..] == [];
  }

  lemma {:induction false} JoinLevel(args: seq<string>)
    requires forall i | 0 <= i < |args| :: Balanced(args[i])
    ensures LevelAfter(Join(args), 1) == 1
    decreases |args|
  {
    if args != [] {
      LevelUp(args[0], 0, 1);
      if |args| > 1 {
        JoinLevel(args[1..]);
        Separator(1);
        LevelAfterConcat(args[0], ", ", 1);
        LevelAfterConcat(args[0] + ", ", Join(args[1..]), 1);
      }
    }
  }

  /** A printed call is a balanced text. */
  lemma PrintBalanced(name: string, args: seq<string>)
    requires Balanced(name) && forall i | 0 <= i < |args| :: Balanced(args[i])
    ensures Balanced(Print(name, args))
  {
    JoinLevel(args);
    assert "("[1..] == [] && ")"[1..] == [];
    LevelAfterConcat(name, "(", 0);
    LevelAfterConcat(name + "(", Join(args), 0);
    LevelAfterConcat(name + "(" + Join(args), ")", 0);
  }

  /** A plain name leaves the level alone. */
  lemma {:induction false} NameBalanced(name: string)
    requires forall i | 0 <= i < |name| :: name[i] !in "\\(),"
    ensures Balanced(name)
    decreases |name|
  {
    if name != [] {
      assert name[0] !in "\\(),";
      NameBalanced(name[1..]);
    }
  }

  lemma PrintThree(name: string, a: string, b: string, c: string)
    ensures |Print(name, [a, b, c])| == |name| + |a| + |b| + |c| + 6
  {
    assert [a, b, c][1..] == [b, c] && [b, c][1..] == [c];
    assert |Join([c])| == |c| && |Join([b, c])| == |b| + 2 + |c|;
  }

  lemma PrintClean(name: string, a: string, b: string, c: string)
    requires Clean(name) && Clean(a) && Clean(b) && Clean(c)
    ensures Clean(Print(name, [a, b, c]))
  {
    assert [a, b, c][1..] == [b, c] && [b, c][1..] == [c];
    assert Join([c]) == c && Clean(Join([b, c]));
  }

  function Inner(args: seq<string>): string
    requires |args| == 4
  {
    Print("overloadt2", [args[0], args[1], args[3]])
  }

  lemma InnerProper(args: seq<string>)
    requires |args| == 4 && forall i | 0 <= i < 4 :: Proper(args[i])
    ensures Proper(Inner(args)) && !IsLetterMod(Inner(args))
    ensures |Inner(args)| == 16 + |args[0]| + |args[1]| + |args[3]|
    ensures Clean(args[0]) && Clean(args[1]) && Clean(args[3]) ==> Clean(Inner(args))
  {
    hide LevelAfter, Parse, Join;
    NameBalanced("overloadt2");
    var three := [args[0], args[1], args[3]];
    PrintBalanced("overloadt2", three);
    ParsesBackExactly("overloadt2", three);
    assert "overloadt2"[0] == 'o' && "lettermod"[0] == 'l';
    PrintThree("overloadt2", args[0], args[1], args[3]);
    if Clean(args[0]) && Clean(args[1]) && Clean(args[3]) {
      PrintClean("overloadt2", args[0], args[1], args[3]);
    }
  }

  /** The rewritten lettermod() fits its buffer and reads back as overloadi() of the key, the
      layered key and the idle time. */
  lemma LetterModReads(s: string)
    requires IsLetterMod(s) && |Parse(s).args| == 4 && |s| < MAX_EXP_LEN
    ensures var args := Parse(s).args;
            |LetterModCall(args)| < REWRITE_BUFFER &&
            Parse(LetterModCall(args)) == Call("overloadi", [args[1], Inner(args), args[2]])
    ensures |Inner(Parse(s).args)| <= |s| + 1 && !IsLetterMod(Inner(Parse(s).args))
    ensures |Parse(s).args[1]| + 14 <= |s| && |Parse(s).args[2]| + 14 <= |s|
    ensures Clean(s) ==> Clean(Parse(s).args[1]) && Clean(Parse(s).args[2]) && Clean(Inner(Parse(s).args))
  {
    hide LevelAfter, Join;
    var args := Parse(s).args;
    CallFits(s);
    Total4(args);
    InnerProper(args);
    var three := [args[1], Inner(args), args[2]];
    ParsesBackExactly("overloadi", three);
    PrintThree("overloadi", args[1], Inner(args), args[2]);
  }

  lemma ActionNamed(i: nat)
    requires i < |ACTIONS|
    ensures ACTIONS[i].0 != ""
  {
  }

  /** A text that the expressions of a configuration may contain. */
  predicate Short(s: string) {
    Clean(s) && |s| < MAX_EXP_LEN + if IsLetterMod(s) then 0 else 2
  }

  /** Every argument of an action is smaller than the text it is part of, also when the text
      was rewritten to a longer one. */
  lemma ArgsShrink(n: Names, s: string, j: nat)
    requires Read(n, s).Action? && j < |Read(n, s).args| && Short(s)
    ensures Measure(Read(n, s).args[j]) < Measure(s) && Short(Read(n, s).args[j])
  {
    var i := FindAction(CallOf(s).name, |ACTIONS|);
    ActionNamed(i);
    if IsLetterMod(s) {
      LetterModReads(s);
    } else {
      CallFits(s);
      TotalBounds(Parse(s).args, j);
    }
  }

  function Understand(n: Names, s: string): (r: Reading)
    requires Short(s)
    ensures r == Read(n, s)
    ensures r.Action? ==> |r.args| == |Types(r.op)| && forall j | 0 <= j < |r.args| ::
            Measure(r.args[j]) < Measure(s) && Short(r.args[j])
  {
    var r := Read(n, s);
    assert r.Action? ==> forall j | 0 <= j < |r.args| :: Measure(r.args[j]) < Measure(s) && Short(r.args[j]) by {
      if r.Action? {
        forall j | 0 <= j < |r.args| ensures Measure(r.args[j]) < Measure(s) && Short(r.args[j]) {
          ArgsShrink(n, s, j);
        }
      }
    }
    r
  }

  // ------------------------------------------------------------------ what an action means

  /** Action d, with the descriptors and macros it refers to, is what text s says. */
  ghost predicate Means(n: Names, ds: seq<Descriptor>, ms: seq<Macro>, s: string, d: Descriptor)
    requires Short(s)
    decreases Measure(s), 1
  {
    match Understand(n, s)
    case Empty => d.Nothing?
    case KeysReading(code, mods) =>
      if IsModifierKey(code) then d.Layer? && n.layerIndex(ModifierLayer(code)) == Some(d.layer)
      else d == KeySequence(code, mods)
    case CommandReading => d.Command?
    case MacroIs(m) => d.MacroOnce? && d.mac < |ms| && ms[d.mac] == m
    case Action(op, args) => exists v :: Natural(op, v) && d == Build(op, v) && ArgsMean(n, ds, ms, s, op, args, v)
    case Invalid => false
  }

  ghost predicate ArgsMean(n: Names, ds: seq<Descriptor>, ms: seq<Macro>, s: string, op: Op, args: seq<string>,
                           v: seq<int>)
    requires Short(s) && Understand(n, s) == Action(op, args) && |v| == |args|
    decreases Measure(s), 0
  {
    forall j | 0 <= j < |args| :: ArgMeans(n, ds, ms, Types(op)[j], args[j], v[j])
  }

  /** The value v of an argument is what text a says. */
  ghost predicate ArgMeans(n: Names, ds: seq<Descriptor>, ms: seq<Macro>, t: ArgType, a: string, v: int)
    requires Short(a)
    decreases Measure(a), 2
  {
    match t
    case LayerArg => v >= 0 && a != "main" && n.layerIndex(a) == Some(v) && !IsLayout(n.layers, v)
    case LayoutArg => v >= 0 && n.layerIndex(a) == Some(v) && (v == 0 || IsLayout(n.layers, v))
    case TimeArg => v == n.number(a) % 0x10000
    case SensitivityArg => v == (n.number(a) + 0x8000) % 0x10000 - 0x8000
    case KeySequenceArg => 0 <= v < |ds| && Means(n, ds, ms, a, ds[v]) && ds[v].KeySequence?
    case ActionArg => 0 <= v < |ds| && Means(n, ds, ms, a, ds[v])
    case MacroArg => 0 <= v < |ms| && ReadMacro(n, a) == GoodMacro(ms[v])
  }

  /** Text s is an action. */
  ghost predicate Parsable(n: Names, s: string)
    requires Short(s)
    decreases Measure(s), 0
  {
    match Understand(n, s)
    case Action(op, args) => forall j | 0 <= j < |args| :: ArgParsable(n, Types(op)[j], args[j])
    case Invalid => false
    case _ => true
  }

  ghost predicate ArgParsable(n: Names, t: ArgType, a: string)
    requires Short(a)
    decreases Measure(a), 1
  {
    match t
    case LayerArg => a != "main" && n.layerIndex(a).Some? && !IsLayout(n.layers, n.layerIndex(a).value)
    case LayoutArg => n.layerIndex(a).Some? && (n.layerIndex(a).value == 0 || IsLayout(n.layers, n.layerIndex(a).value))
    case KeySequenceArg => Understand(n, a).KeysReading? && !IsModifierKey(Understand(n, a).code)
    case ActionArg => Parsable(n, a)
    case MacroArg => ReadMacro(n, a).GoodMacro?
    case _ => true
  }

  /** Tables that only grow keep every meaning. */
  lemma {:induction false} MeansGrows(n: Names, ds: seq<Descriptor>, ms: seq<Macro>, ds': seq<Descriptor>,
                                      ms': seq<Macro>, s: string, d: Descriptor)
    requires Short(s) && Means(n, ds, ms, s, d) && ds <= ds' && ms <= ms'
    ensures Means(n, ds', ms', s, d)
    decreases Measure(s), 1
  {
    match Understand(n, s)
    case Action(op, args) =>
      var v :| Natural(op, v) && d == Build(op, v) && ArgsMean(n, ds, ms, s, op, args, v);
      forall j | 0 <= j < |args| ensures ArgMeans(n, ds', ms', Types(op)[j], args[j], v[j]) {
        ArgMeansGrows(n, ds, ms, ds', ms', Types(op)[j], args[j], v[j]);
      }
      assert ArgsMean(n, ds', ms', s, op, args, v);
    case _ =>
  }

  lemma {:induction false} ArgMeansGrows(n: Names, ds: seq<Descriptor>, ms: seq<Macro>, ds': seq<Descriptor>,
                                         ms': seq<Macro>, t: ArgType, a: string, v: int)
    requires Short(a) && ArgMeans(n, ds, ms, t, a, v) && ds <= ds' && ms <= ms'
    ensures ArgMeans(n, ds', ms', t, a, v)
    decreases Measure(a), 2
  {
    if t.KeySequenceArg? || t.ActionArg? {
      MeansGrows(n, ds, ms, ds', ms', a, ds[v]);
    }
  }

  // ------------------------------------------------------------------------ well-formedness

  /** A value an argument of this type may have. */
  predicate ArgOk(layers: seq<LayerDef>, ds: seq<Descriptor>, nMacros: nat, t: ArgType, v: int) {
    match t
    case LayerArg => 0 <= v < |layers| && !IsLayout(layers, v)
    case LayoutArg => 0 <= v < |layers| && (v == 0 || IsLayout(layers, v))
    case TimeArg => v >= 0
    case SensitivityArg => true
    case KeySequenceArg => 0 <= v < |ds| && ds[v].KeySequence?
    case ActionArg => 0 <= v < |ds|
    case MacroArg => 0 <= v < nMacros
  }

  lemma BuildWellFormed(layers: seq<LayerDef>, ds: seq<Descriptor>, nMacros: nat, op: Op, v: seq<int>)
    requires |v| == |Types(op)| && (forall j | 0 <= j < |v| :: ArgOk(layers, ds, nMacros, Types(op)[j], v[j]))
    ensures Natural(op, v) && WellFormed(layers, ds, nMacros, Build(op, v))
  {
    if |v| <= 1 {
      BuildOneWellFormed(layers, ds, nMacros, op, v);
    } else if |v| == 2 {
      BuildTwoWellFormed(layers, ds, nMacros, op, v);
    } else {
      BuildThreeWellFormed(layers, ds, nMacros, op, v);
    }
  }

  lemma BuildOneWellFormed(layers: seq<LayerDef>, ds: seq<Descriptor>, nMacros: nat, op: Op, v: seq<int>)
    requires |v| == |Types(op)| && (forall j | 0 <= j < |v| :: ArgOk(layers, ds, nMacros, Types(op)[j], v[j])) &&
             |v| <= 1
    ensures Natural(op, v) && WellFormed(layers, ds, nMacros, Build(op, v))
  {
    assert |v| == 1 ==> ArgOk(layers, ds, nMacros, Types(op)[0], v[0]);
  }

  lemma BuildTwoWellFormed(layers: seq<LayerDef>, ds: seq<Descriptor>, nMacros: nat, op: Op, v: seq<int>)
    requires |v| == |Types(op)| && (forall j | 0 <= j < |v| :: ArgOk(layers, ds, nMacros, Types(op)[j], v[j])) &&
             |v| == 2
    ensures Natural(op, v) && WellFormed(layers, ds, nMacros, Build(op, v))
  {
    assert ArgOk(layers, ds, nMacros, Types(op)[0], v[0]);
    assert ArgOk(layers, ds, nMacros, Types(op)[1], v[1]);
  }

  lemma BuildThreeWellFormed(layers: seq<LayerDef>, ds: seq<Descriptor>, nMacros: nat, op: Op, v: seq<int>)
    requires |v| == |Types(op)| && (forall j | 0 <= j < |v| :: ArgOk(layers, ds, nMacros, Types(op)[j], v[j])) &&
             |v| == 3
    ensures Natural(op, v) && WellFormed(layers, ds, nMacros, Build(op, v))
  {
    assert ArgOk(layers, ds, nMacros, Types(op)[0], v[0]);
    assert ArgOk(layers, ds, nMacros, Types(op)[1], v[1]);
    assert ArgOk(layers, ds, nMacros, Types(op)[2], v[2]);
  }

  /** No macro leaves a hold group open. */
  ghost predicate AllClosed(ms: seq<Macro>) {
    forall i | 0 <= i < |ms| :: Closed(ms[i])
  }

  lemma ReadMacroClosed(n: Names, s: string)
    requires TablesOk(n.tables) && ReadMacro(n, s).GoodMacro?
    ensures Closed(ReadMacro(n, s).m)
  {
    var text := MacroText(s, t => n.tables.keySequence(t).Some?).value;
    var tokens := Pieces(text, ' ', 0);
    EntriesClosed(n.tables, tokens, |tokens|);
  }

  /** An action stays well formed while the tables grow. */
  lemma WellFormedGrows(layers: seq<LayerDef>, ds: seq<Descriptor>, ds': seq<Descriptor>, nMacros: nat, nMacros': nat,
                        d: Descriptor)
    requires WellFormed(layers, ds, nMacros, d) && ds <= ds' && nMacros <= nMacros'
    ensures WellFormed(layers, ds', nMacros', d)
  {
  }

  /** An entry at the end keeps the table acyclic. */
  lemma TableGrows(layers: seq<LayerDef>, ds: seq<Descriptor>, nMacros: nat, d: Descriptor)
    requires TableOk(layers, ds, nMacros) && WellFormed(layers, ds, nMacros, d)
    ensures TableOk(layers, ds + [d], nMacros)
  {
    var after := ds + [d];
    forall i | 0 <= i < |after| ensures WellFormed(layers, after[..i], nMacros, after[i]) {
      assert after[..i] == ds[..i];
      if i == |ds| {
        assert ds[..i] == ds;
      }
    }
  }

  /** What a text says is well formed. */
  lemma MeantWellFormed(n: Names, ds: seq<Descriptor>, ms: seq<Macro>, s: string, d: Descriptor)
    requires NamesOk(n) && Short(s) && Means(n, ds, ms, s, d)
    ensures WellFormed(n.layers, ds, |ms|, d)
  {
    hide Short, Read, IsLayout;
    match Understand(n, s)
    case Action(op, args) =>
      var v :| Natural(op, v) && d == Build(op, v) && ArgsMean(n, ds, ms, s, op, args, v);
      ArgsMeantOk(n, ds, ms, s, op, args, v);
      hide Means, WellFormed, Build, Types;
      BuildWellFormed(n.layers, ds, |ms|, op, v);
    case _ =>
  }

  lemma ArgsMeantOk(n: Names, ds: seq<Descriptor>, ms: seq<Macro>, s: string, op: Op, args: seq<string>, v: seq<int>)
    requires NamesOk(n) && Short(s) && Understand(n, s) == Action(op, args) && |v| == |args|
    requires ArgsMean(n, ds, ms, s, op, args, v)
    ensures |v| == |Types(op)| && forall j | 0 <= j < |v| :: ArgOk(n.layers, ds, |ms|, Types(op)[j], v[j])
  {
    hide Short, Read, Means, IsLayout, Types;
    forall j | 0 <= j < |v| ensures ArgOk(n.layers, ds, |ms|, Types(op)[j], v[j]) {
      assert ArgMeans(n, ds, ms, Types(op)[j], args[j], v[j]);
    }
  }

  /** Nothing, or what some text of a configuration says. */
  ghost predicate Parsed(n: Names, ds: seq<Descriptor>, ms: seq<Macro>, d: Descriptor) {
    d.Nothing? || exists s | Short(s) :: Means(n, ds, ms, s, d)
  }

  lemma ParsedWellFormed(n: Names, ds: seq<Descriptor>, ms: seq<Macro>, d: Descriptor)
    requires NamesOk(n) && Parsed(n, ds, ms, d)
    ensures WellFormed(n.layers, ds, |ms|, d)
  {
    hide Means, Short;
    if !d.Nothing? {
      var s :| Short(s) && Means(n, ds, ms, s, d);
      MeantWellFormed(n, ds, ms, s, d);
    }
  }

  /** The layers of a configuration as config.c fills them in: the bindings are what texts say,
      and the rest is what the sections promise. */
  ghost predicate LayersParsed(n: Names, c: Config) {
    |c.layers| == |n.layers| > 0 && IsLayout(c.layers, 0) &&
    (forall l | 0 <= l < |c.layers| :: c.layers[l].kind == n.layers[l].kind && LayerFilled(n, c, c.layers[l]))
  }

  ghost predicate LayerFilled(n: Names, c: Config, layer: LayerDef) {
    |layer.keymap| == 256 && (layer.kind == LayoutType ==> layer.mods == {}) &&
    (forall k | 0 <= k < 256 :: Parsed(n, c.descriptors, c.macros, layer.keymap[k])) &&
    (forall k | 0 <= k < |layer.chords| ::
       ChordOk(layer.chords[k]) && Parsed(n, c.descriptors, c.macros, layer.chords[k].d)) &&
    (forall k | 0 <= k < |layer.constituents| :: layer.constituents[k] < |c.layers|)
  }

  /** A well-formed action is so whatever the layers are bound to. */
  lemma SameKindsWellFormed(before: seq<LayerDef>, after: seq<LayerDef>, ds: seq<Descriptor>, nMacros: nat,
                            d: Descriptor)
    requires |before| == |after| && forall l | 0 <= l < |after| :: after[l].kind == before[l].kind
    ensures WellFormed(after, ds, nMacros, d) == WellFormed(before, ds, nMacros, d)
  {
  }

  /** The tables a ConfigBuilder has built, with layers bound to what it parsed, are a
      configuration the engine can run on. */
  lemma BuiltConfigOk(b: ConfigBuilder, c: Config)
    requires b.Valid() && c.descriptors == b.descriptors && c.macros == b.macros && LayersParsed(b.names, c)
    ensures ConfigOk(c) && AllClosed(c.macros)
  {
    hide WellFormed, Parsed, ChordOk;
    var n := b.names;
    forall i | 0 <= i < |c.descriptors|
      ensures WellFormed(c.layers, c.descriptors[..i], |c.macros|, c.descriptors[i]) &&
              WellFormed(c.layers, c.descriptors, |c.macros|, c.descriptors[i])
    {
      SameKindsWellFormed(n.layers, c.layers, c.descriptors[..i], |c.macros|, c.descriptors[i]);
      WellFormedGrows(c.layers, c.descriptors[..i], c.descriptors, |c.macros|, |c.macros|, c.descriptors[i]);
    }
    forall l, k | 0 <= l < |c.layers| && 0 <= k < 256
      ensures WellFormed(c.layers, c.descriptors, |c.macros|, c.layers[l].keymap[k])
    {
      assert LayerFilled(n, c, c.layers[l]);
      ParsedWellFormed(n, c.descriptors, c.macros, c.layers[l].keymap[k]);
      SameKindsWellFormed(n.layers, c.layers, c.descriptors, |c.macros|, c.layers[l].keymap[k]);
    }
    forall l, k | 0 <= l < |c.layers| && 0 <= k < |c.layers[l].chords|
      ensures WellFormed(c.layers, c.descriptors, |c.macros|, c.layers[l].chords[k].d)
    {
      assert LayerFilled(n, c, c.layers[l]);
      ParsedWellFormed(n, c.descriptors, c.macros, c.layers[l].chords[k].d);
      SameKindsWellFormed(n.layers, c.layers, c.descriptors, |c.macros|, c.layers[l].chords[k].d);
    }
    assert forall l | 0 <= l < |c.layers| :: LayerFilled(n, c, c.layers[l]);
  }

  // --------------------------------------------------------------------------- the parser

  /** parse_macro_expression */
  method ParseMacroExpression(n: Names, s: string) returns (r: MacroReading)
    requires Clean(s)
    ensures r == ReadMacro(n, s)
  {
    if |s| >= MACRO_BUFFER {
      return NoMacro;
    }
    var text := s;
    if "macro(" <= s && s[|s| - 1] == ')' {
      text := UnescapeCopy(s[6..|s| - 1]);
    } else if n.tables.keySequence(s).None? && |s| != 1 {
      return NoMacro;
    }
    var builder := new MacroBuilder(n.tables);
    var ok := builder.Parse(text);
    if !ok {
      return BadMacro;
    }
    return GoodMacro(builder.entries[..builder.sz]);
  }

  /** str_escape on a copy of the text. */
  method UnescapeCopy(s: string) returns (r: string)
    requires Clean(s)
    ensures r == Unescape(s)
  {
    var buffer := new char[|s| + 1](i requires 0 <= i <= |s| => if i < |s| then s[i] else '\0');
    assert buffer[..|s|] == s && buffer[..][|s|] == '\0';
    TextEnds(buffer[..], |s|);
    var length := StrEscape(buffer);
    r := buffer[..length];
  }

  /** struct config while actions are parsed: the tables grow, the layers are known. */
  class ConfigBuilder {
    const names: Names
    var descriptors: seq<Descriptor>
    var macros: seq<Macro>
    var nrCommands: nat

    constructor (names: Names)
      requires NamesOk(names)
      ensures this.names == names && descriptors == [] && macros == [] && nrCommands == 0 && Valid()
    {
      this.names := names;
      descriptors, macros, nrCommands := [], [], 0;
    }

    ghost predicate Valid()
      reads this
    {
      NamesOk(names) && TableOk(names.layers, descriptors, |macros|) && AllClosed(macros) &&
      |descriptors| <= MAX_DESCRIPTORS && |macros| <= MAX_MACROS && nrCommands <= MAX_COMMANDS
    }

    /** Some table has no room left. */
    ghost predicate Full()
      reads this
    {
      |descriptors| == MAX_DESCRIPTORS || |macros| == MAX_MACROS || nrCommands == MAX_COMMANDS
    }

    /** parse_descriptor: appends what the action refers to to the tables. */
    method ParseDescriptor(s: string) returns (r: Option<Descriptor>)
      requires Valid() && Short(s)
      modifies this
      ensures Valid() && old(descriptors) <= descriptors && old(macros) <= macros && old(nrCommands) <= nrCommands
      ensures r.Some? ==> Means(names, descriptors, macros, s, r.value)
      ensures r.Some? ==> WellFormed(names.layers, descriptors, |macros|, r.value)
      ensures r.None? ==> !Parsable(names, s) || Full()
      decreases Measure(s), 3
    {
      if s == [] {
        return Some(Nothing);
      }
      match names.tables.keySequence(s)
      case Some(k) =>
        if IsModifierKey(k.0) {
          return Some(Layer(names.layerIndex(ModifierLayer(k.0)).value));
        }
        return Some(KeySequence(k.0, k.1));
      case None =>
        if IsCommand(s) {
          r := ParseCommand(s);
          return;
        }
        var reading := ParseMacroExpression(names, s);
        match reading
        case GoodMacro(m) =>
          if |macros| >= MAX_MACROS {
            return None;
          }
          ReadMacroClosed(names, s);
          AddMacro(m);
          return Some(MacroOnce(|macros| - 1));
        case BadMacro => return None;
        case NoMacro => r := ParseAction(s);
    }

    /** parse_command: the command itself is no part of the model. */
    method ParseCommand(s: string) returns (r: Option<Descriptor>)
      requires Valid() && Short(s) && Read(names, s) == if |s| > MAX_COMMAND_LENGTH then Invalid else CommandReading
      modifies `nrCommands
      ensures Valid() && old(nrCommands) <= nrCommands
      ensures r.Some? ==> r.value.Command? && Read(names, s) == CommandReading
      ensures r.None? ==> Read(names, s) == Invalid || Full()
    {
      hide Read, TableOk, AllClosed;
      if |s| > MAX_COMMAND_LENGTH || nrCommands >= MAX_COMMANDS {
        return None;
      }
      nrCommands := nrCommands + 1;
      return Some(Command(nrCommands - 1));
    }

    method AddMacro(m: Macro)
      requires Valid() && |macros| < MAX_MACROS && Closed(m)
      modifies `macros
      ensures Valid() && macros == old(macros) + [m]
    {
      macros := macros + [m];
      assert forall i | 0 <= i < |descriptors| :: WellFormed(names.layers, descriptors[..i], |macros| - 1,
             descriptors[i]);
    }

    /** An action that is written as a call. */
    method ParseAction(s: string) returns (r: Option<Descriptor>)
      requires Valid() && Short(s) && Read(names, s) == ReadCall(CallOf(s))
      modifies this
      ensures Valid() && old(descriptors) <= descriptors && old(macros) <= macros && old(nrCommands) <= nrCommands
      ensures r.Some? ==> Means(names, descriptors, macros, s, r.value)
      ensures r.Some? ==> WellFormed(names.layers, descriptors, |macros|, r.value)
      ensures r.None? ==> !Parsable(names, s) || Full()
      decreases Measure(s), 2
    {
      var call := ParseFn(s);
      if call.Call? && call.name == "lettermod" {
        if |call.args| != 4 {
          return None;
        }
        LetterModReads(s);
        call := ParseFn(LetterModCall(call.args));
      }
      if !call.Call? {
        return None;
      }
      var i := Lookup(call.name);
      if i == -1 || |call.args| != |Types(ACTIONS[i].1)| {
        return None;
      }
      r := ParseArgs(s, ACTIONS[i].1, call.args);
    }

    method Lookup(name: string) returns (i: int)
      ensures i == FindAction(name, |ACTIONS|)
    {
      i := 0;
      while i < |ACTIONS|
        invariant 0 <= i <= |ACTIONS| && FindAction(name, i) == -1
      {
        if ACTIONS[i].0 == name {
          FindActionFirst(name, i, |ACTIONS|);
          return;
        }
        i := i + 1;
      }
      return -1;
    }

    /** The arguments, last to first. */
    method ParseArgs(s: string, op: Op, args: seq<string>) returns (r: Option<Descriptor>)
      requires Valid() && Short(s) && Read(names, s) == Action(op, args)
      modifies this
      ensures Valid() && old(descriptors) <= descriptors && old(macros) <= macros && old(nrCommands) <= nrCommands
      ensures r.Some? ==> Means(names, descriptors, macros, s, r.value)
      ensures r.Some? ==> WellFormed(names.layers, descriptors, |macros|, r.value)
      ensures r.None? ==> !Parsable(names, s) || Full()
      decreases Measure(s), 1
    {
      ghost var reading := Understand(names, s);
      var v := seq(|args|, _ => 0);
      var j := |args|;
      while j > 0
        invariant 0 <= j <= |args| == |v| == |Types(op)| && Valid()
        invariant old(descriptors) <= descriptors && old(macros) <= macros && old(nrCommands) <= nrCommands
        invariant forall m | j <= m < |args| :: ArgMeans(names, descriptors, macros, Types(op)[m], args[m], v[m])
        invariant forall m | j <= m < |args| :: ArgOk(names.layers, descriptors, |macros|, Types(op)[m], v[m])
      {
        j := j - 1;
        ghost var ds, ms := descriptors, macros;
        var value := ParseArg(Types(op)[j], args[j]);
        if value.None? {
          return None;
        }
        forall m | j < m < |args| ensures ArgMeans(names, descriptors, macros, Types(op)[m], args[m], v[m]) {
          ArgMeansGrows(names, ds, ms, descriptors, macros, Types(op)[m], args[m], v[m]);
        }
        v := v[j := value.value];
      }
      BuildWellFormed(names.layers, descriptors, |macros|, op, v);
      assert ArgsMean(names, descriptors, macros, s, op, args, v);
      return Some(Build(op, v));
    }

    method ParseArg(t: ArgType, a: string) returns (r: Option<int>)
      requires Valid() && Short(a)
      modifies this
      ensures Valid() && old(descriptors) <= descriptors && old(macros) <= macros && old(nrCommands) <= nrCommands
      ensures r.Some? ==> ArgMeans(names, descriptors, macros, t, a, r.value)
      ensures r.Some? ==> ArgOk(names.layers, descriptors, |macros|, t, r.value)
      ensures r.None? ==> !ArgParsable(names, t, a) || Full()
      decreases Measure(a), 5
    {
      match t
      case LayerArg =>
        if a == "main" || names.layerIndex(a).None? || IsLayout(names.layers, names.layerIndex(a).value) {
          return None;
        }
        return Some(names.layerIndex(a).value);
      case LayoutArg =>
        if names.layerIndex(a).None? {
          return None;
        }
        var idx := names.layerIndex(a).value;
        if idx != 0 && !IsLayout(names.layers, idx) {
          return None;
        }
        return Some(idx);
      case TimeArg => return Some(names.number(a) % 0x10000);
      case SensitivityArg => return Some((names.number(a) + 0x8000) % 0x10000 - 0x8000);
      case KeySequenceArg => r := ParseAuxiliary(t, a);
      case ActionArg => r := ParseAuxiliary(t, a);
      case MacroArg =>
        if |macros| >= MAX_MACROS {
          return None;
        }
        var reading := ParseMacroExpression(names, a);
        if !reading.GoodMacro? {
          return None;
        }
        ReadMacroClosed(names, a);
        AddMacro(reading.m);
        return Some(|macros| - 1);
    }

    /** An argument that is itself an action becomes an entry of the descriptor table. */
    method ParseAuxiliary(t: ArgType, a: string) returns (r: Option<int>)
      requires Valid() && Short(a) && (t.KeySequenceArg? || t.ActionArg?)
      modifies this
      ensures Valid() && old(descriptors) <= descriptors && old(macros) <= macros && old(nrCommands) <= nrCommands
      ensures r.Some? ==> ArgMeans(names, descriptors, macros, t, a, r.value)
      ensures r.Some? ==> ArgOk(names.layers, descriptors, |macros|, t, r.value)
      ensures r.None? ==> !ArgParsable(names, t, a) || Full()
      decreases Measure(a), 4
    {
      var d := ParseDescriptor(a);
      if d.None? || |descriptors| >= MAX_DESCRIPTORS || (t.KeySequenceArg? && !d.value.KeySequence?) {
        return None;
      }
      ghost var ds := descriptors;
      TableGrows(names.layers, descriptors, |macros|, d.value);
      descriptors := descriptors + [d.value];
      MeansGrows(names, ds, macros, descriptors, macros, a, d.value);
      return Some(|descriptors| - 1);
    }
  }

  lemma {:induction false} FindActionFirst(name: string, i: nat, n: nat)
    requires i < n <= |ACTIONS| && ACTIONS[i].0 == name && FindAction(name, i) == -1
    ensures FindAction(name, n) == i
    decreases n
  {
    if i != n - 1 {
      FindActionFirst(name, i, n - 1);
    }
  }
}
