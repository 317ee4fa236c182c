/** The keyboard report of the USB gadget output (src/vkbd/usb-gadget.c:16-127, 152-158): a
    modifier byte and six slots, the format of Appendix B.1 of the USB HID 1.11 class
    definition. */
module Gadget {
  import opened Collections
  import opened Keys

  const RIGHTSHIFT: Code := 54
  const RIGHTCTRL: Code := 97
  const RIGHTMETA: Code := 126

  const SLOTS := 6

  /** A call of vkbd_send_key. */
  datatype KeyChange = KeyChange(code: Code, down: bool)

  /** get_modifier: the bit of a modifier key, 0 for every other key. */
  function ModifierBit(code: Code): bv8 {
    if code == LEFTSHIFT then 0x2
    else if code == RIGHTSHIFT then 0x20
    else if code == LEFTCTRL then 0x1
    else if code == RIGHTCTRL then 0x10
    else if code == LEFTALT then 0x4
    else if code == RIGHTALT then 0x40
    else if code == LEFTMETA then 0x8
    else if code == RIGHTMETA then 0x80
    else 0
  }

  predicate IsModifier(code: Code) {
    ModifierBit(code) != 0
  }

  /** The key table: 0 for a key that has no usage of its own. */
  type HidTable = t: seq<bv8> | |t| == 256 witness seq(256, _ => 0)

  /** No two keys share a usage. */
  ghost predicate Injective(hid: HidTable) {
    forall a: Code, b: Code | hid[a] == hid[b] && hid[a] != 0 :: a == b
  }

  /** A key that can occupy a slot. */
  predicate Mapped(hid: HidTable, code: Code) {
    !IsModifier(code) && hid[code] != 0
  }

  // ------------------------------------------------------------------------- the report

  datatype Report = Report(mods: bv8, slots: seq<bv8>)

  /** The slots after a usage is released: it is gone. */
  function Cleared(slots: seq<bv8>, usage: bv8): (r: seq<bv8>)
    ensures |r| == |slots| && forall i | 0 <= i < |r| :: r[i] == if slots[i] == usage then 0 else slots[i]
  {
    seq(|slots|, i requires 0 <= i < |slots| => if slots[i] == usage then 0 else slots[i])
  }

  /** The first free slot among the first n, or -1. */
  function FreeSlot(slots: seq<bv8>, n: nat): (r: int)
    requires n <= |slots|
    ensures -1 <= r < n && (r != -1 ==> slots[r] == 0)
    ensures r == -1 ==> forall i | 0 <= i < n :: slots[i] != 0
  {
    if n == 0 then -1
    else
      var p := FreeSlot(slots, n - 1);
      if p != -1 then p else if slots[n - 1] == 0 then n - 1 else -1
  }

  function UpdateKeys(slots: seq<bv8>, usage: bv8, down: bool): seq<bv8> {
    if !down then Cleared(slots, usage)
    else if usage in slots || FreeSlot(slots, |slots|) == -1 then slots
    else slots[FreeSlot(slots, |slots|) := usage]
  }

  function Update(hid: HidTable, r: Report, e: KeyChange): Report {
    var bit := ModifierBit(e.code);
    if bit != 0 then r.(mods := if e.down then r.mods | bit else r.mods & !bit)
    else r.(slots := UpdateKeys(r.slots, hid[e.code], e.down))
  }

  /** The static state of the source and every report it has sent. */
  class UsbGadget {
    const hid: HidTable
    var mods: bv8
    const keys: array<bv8>
    ghost var sent: seq<Report>

    constructor (hid: HidTable)
      ensures this.hid == hid && keys.Length == SLOTS && fresh(keys)
      ensures Current() == Report(0, seq(SLOTS, _ => 0)) && sent == []
    {
      this.hid := hid;
      mods := 0;
      keys := new bv8[SLOTS](_ => 0);
      sent := [];
      new;
      assert keys[..] == seq(SLOTS, _ => 0);
    }

    ghost function Current(): Report
      reads this, keys
    {
      Report(mods, keys[..])
    }

    /** vkbd_send_key */
    method SendKey(code: Code, down: bool)
      requires keys.Length == SLOTS
      modifies this, keys
      ensures Current() == Update(hid, old(Current()), KeyChange(code, down)) && sent == old(sent) + [Current()]
    {
      var handled := UpdateModifierState(code, down);
      if !handled {
        UpdateKeyState(code, down);
      }
      sent := sent + [Current()];
    }

    method UpdateModifierState(code: Code, down: bool) returns (handled: bool)
      modifies `mods
      ensures handled == IsModifier(code)
      ensures mods == if !handled then old(mods) else if down then old(mods) | ModifierBit(code)
              else old(mods) & !ModifierBit(code)
    {
      var bit := ModifierBit(code);
      if bit == 0 {
        return false;
      }
      if down {
        mods := mods | bit;
      } else {
        mods := mods & !bit;
      }
      return true;
    }

    method UpdateKeyState(code: Code, down: bool)
      requires keys.Length == SLOTS
      modifies keys
      ensures keys[..] == UpdateKeys(old(keys[..]), hid[code], down)
    {
      var usage, set_ := hid[code], false;
      var i := 0;
      while i < SLOTS
        invariant 0 <= i <= SLOTS && set_ == (usage in old(keys[..i]))
        invariant forall j | 0 <= j < SLOTS :: keys[j] == if j < i && !down && old(keys[j]) == usage then 0
                  else old(keys[j])
      {
        if keys[i] == usage {
          set_ := true;
          if !down {
            keys[i] := 0;
          }
        }
        i := i + 1;
      }
      assert old(keys[..i]) == old(keys[..]);
      if down {
        assert keys[..] == old(keys[..]);
        if !set_ {
          TakeSlot(usage);
        }
      }
    }

    /** The second loop of update_key_state. */
    method TakeSlot(usage: bv8)
      requires keys.Length == SLOTS
      modifies keys
      ensures var free := FreeSlot(old(keys[..]), SLOTS);
              keys[..] == if free == -1 then old(keys[..]) else old(keys[..])[free := usage]
    {
      var i := 0;
      while i < SLOTS
        invariant 0 <= i <= SLOTS && keys[..] == old(keys[..]) && FreeSlot(keys[..], i) == -1
      {
        if keys[i] == 0 {
          FreeSlotFirst(keys[..], i, SLOTS);
          keys[i] := usage;
          return;
        }
        i := i + 1;
      }
    }
  }

  lemma {:induction false} FreeSlotFirst(slots: seq<bv8>, i: nat, n: nat)
    requires i < n <= |slots| && slots[i] == 0 && FreeSlot(slots, i) == -1
    ensures FreeSlot(slots, n) == i
    decreases n
  {
    if i != n - 1 {
      FreeSlotFirst(slots, i, n - 1);
    }
  }

  // ------------------------------------------------------------------------------- runs

  /** The report after a run of key changes. */
  function Run(hid: HidTable, run: seq<KeyChange>): Report {
    if run == [] then Report(0, seq(SLOTS, _ => 0))
    else Update(hid, Run(hid, run[..|run| - 1]), run[|run| - 1])
  }

  /** The keys held after a run. */
  function Held(run: seq<KeyChange>): set<Code> {
    if run == [] then {}
    else
      var before, e := Held(run[..|run| - 1]), run[|run| - 1];
      if e.down then before + {e.code} else before - {e.code}
  }

  /** The held keys that can occupy a slot. */
  function HeldMapped(hid: HidTable, run: seq<KeyChange>): set<Code> {
    set c | c in Held(run) && Mapped(hid, c)
  }

  /** Occupied slots show different keys, and only held ones. */
  ghost predicate ShowsHeld(hid: HidTable, slots: seq<bv8>, held: set<Code>) {
    (forall i, j | 0 <= i < j < |slots| && slots[i] != 0 :: slots[i] != slots[j]) &&
    (forall i | 0 <= i < |slots| && slots[i] != 0 ::
       exists c: Code :: c in held && Mapped(hid, c) && hid[c] == slots[i])
  }

  /** Every held key that can occupy a slot does. */
  ghost predicate ShowsAll(hid: HidTable, slots: seq<bv8>, held: set<Code>) {
    forall c: Code | c in held && Mapped(hid, c) :: hid[c] in slots
  }

  lemma ClearedShows(hid: HidTable, slots: seq<bv8>, held: set<Code>, code: Code)
    requires Injective(hid) && ShowsHeld(hid, slots, held) && !IsModifier(code)
    ensures ShowsHeld(hid, Cleared(slots, hid[code]), held - {code})
    ensures ShowsAll(hid, slots, held) ==> ShowsAll(hid, Cleared(slots, hid[code]), held - {code})
  {
    var after := Cleared(slots, hid[code]);
    forall i | 0 <= i < |after| && after[i] != 0
      ensures exists c: Code :: c in held - {code} && Mapped(hid, c) && hid[c] == after[i]
    {
      var c: Code :| c in held && Mapped(hid, c) && hid[c] == slots[i];
      assert c in held - {code};
    }
    if ShowsAll(hid, slots, held) {
      forall c: Code | c in held - {code} && Mapped(hid, c) ensures hid[c] in after {
        var i :| 0 <= i < |slots| && slots[i] == hid[c];
        assert after[i] == hid[c];
      }
    }
  }

  lemma PressedShows(hid: HidTable, slots: seq<bv8>, held: set<Code>, code: Code)
    requires ShowsHeld(hid, slots, held) && !IsModifier(code)
    ensures ShowsHeld(hid, UpdateKeys(slots, hid[code], true), held + {code})
    ensures ShowsAll(hid, slots, held) && (hid[code] in slots || FreeSlot(slots, |slots|) != -1 ||
            !Mapped(hid, code)) ==>
              ShowsAll(hid, UpdateKeys(slots, hid[code], true), held + {code})
  {
    var after := UpdateKeys(slots, hid[code], true);
    var free := FreeSlot(slots, |slots|);
    forall i | 0 <= i < |after| && after[i] != 0
      ensures exists c: Code :: c in held + {code} && Mapped(hid, c) && hid[c] == after[i]
    {
      if after[i] == slots[i] {
        var c: Code :| c in held && Mapped(hid, c) && hid[c] == slots[i];
        assert c in held + {code};
      } else {
        assert code in held + {code} && hid[code] == after[i];
      }
    }
    if ShowsAll(hid, slots, held) && (hid[code] in slots || free != -1 || !Mapped(hid, code)) {
      forall c: Code | c in held + {code} && Mapped(hid, c) ensures hid[c] in after {
        if c != code || hid[code] in slots {
          var i :| 0 <= i < |slots| && slots[i] == hid[c];
          assert after[i] == hid[c];
        } else {
          assert after[free] == hid[code];
        }
      }
    }
  }

  /** The usages of a set of keys. */
  function Usages(hid: HidTable, keys: set<Code>): set<bv8> {
    set c | c in keys :: hid[c]
  }

  lemma {:induction false} UsagesSize(hid: HidTable, keys: set<Code>)
    ensures |Usages(hid, keys)| <= |keys|
    decreases keys
  {
    if keys != {} {
      var c :| c in keys;
      UsagesSize(hid, keys - {c});
      assert Usages(hid, keys) == Usages(hid, keys - {c}) + {hid[c]};
    }
  }

  /** Full slots show six held keys. */
  lemma FullSlots(hid: HidTable, slots: seq<bv8>, held: set<Code>, mapped: set<Code>)
    requires ShowsHeld(hid, slots, held) && FreeSlot(slots, |slots|) == -1
    requires mapped == set c | c in held && Mapped(hid, c)
    ensures |slots| <= |mapped|
  {
    assert Distinct(slots);
    DistinctSize(slots);
    forall u | u in Set(slots) ensures u in Usages(hid, mapped) {
      var i :| 0 <= i < |slots| && slots[i] == u;
      var c: Code :| c in held && Mapped(hid, c) && hid[c] == slots[i];
      assert c in mapped;
    }
    SubsetSize(Set(slots), Usages(hid, mapped));
    UsagesSize(hid, mapped);
  }

  /** In every run the occupied slots of the report show different usages, each of a held
      key. */
  lemma {:induction false} ReportShowsHeld(hid: HidTable, run: seq<KeyChange>)
    requires Injective(hid)
    ensures |Run(hid, run).slots| == SLOTS && ShowsHeld(hid, Run(hid, run).slots, Held(run))
    decreases |run|
  {
    if run != [] {
      var n := |run| - 1;
      ReportShowsHeld(hid, run[..n]);
      StepShows(hid, Run(hid, run[..n]), Held(run[..n]), run[n]);
    }
  }

  lemma StepShows(hid: HidTable, r: Report, held: set<Code>, e: KeyChange)
    requires Injective(hid) && ShowsHeld(hid, r.slots, held)
    ensures ShowsHeld(hid, Update(hid, r, e).slots, if e.down then held + {e.code} else held - {e.code})
  {
    if !IsModifier(e.code) {
      if e.down {
        PressedShows(hid, r.slots, held, e.code);
      } else {
        ClearedShows(hid, r.slots, held, e.code);
      }
    } else {
      ModifierShows(hid, r.slots, held, e.code, e.down);
    }
  }

  lemma ModifierShows(hid: HidTable, slots: seq<bv8>, held: set<Code>, code: Code, down: bool)
    requires IsModifier(code)
    ensures var after := if down then held + {code} else held - {code};
            (ShowsHeld(hid, slots, held) ==> ShowsHeld(hid, slots, after)) &&
            (ShowsAll(hid, slots, held) ==> ShowsAll(hid, slots, after))
  {
    var after := if down then held + {code} else held - {code};
    if ShowsHeld(hid, slots, held) {
      forall i | 0 <= i < |slots| && slots[i] != 0
        ensures exists c: Code :: c in after && Mapped(hid, c) && hid[c] == slots[i]
      {
        var c: Code :| c in held && Mapped(hid, c) && hid[c] == slots[i];
        assert c in after;
      }
    }
  }

  lemma HeldGrows(hid: HidTable, run: seq<KeyChange>)
    requires run != [] && run[|run| - 1].down && Mapped(hid, run[|run| - 1].code)
    requires run[|run| - 1].code !in Held(run[..|run| - 1])
    ensures |HeldMapped(hid, run)| == |HeldMapped(hid, run[..|run| - 1])| + 1
  {
    var before, e := run[..|run| - 1], run[|run| - 1];
    assert HeldMapped(hid, run) == HeldMapped(hid, before) + {e.code};
  }

  /** If at no time more than six keys that can occupy a slot were held, the slots show all
      the held ones. */
  lemma {:induction false} ReportShowsAll(hid: HidTable, run: seq<KeyChange>)
    requires Injective(hid) && forall n | 0 <= n <= |run| :: |HeldMapped(hid, run[..n])| <= SLOTS
    ensures ShowsAll(hid, Run(hid, run).slots, Held(run))
    decreases |run|
  {
    if run != [] {
      var n := |run| - 1;
      var before, r, e := run[..n], Run(hid, run[..n]), run[n];
      forall m | 0 <= m <= |before| ensures |HeldMapped(hid, before[..m])| <= SLOTS {
        assert before[..m] == run[..m];
      }
      ReportShowsAll(hid, before);
      ReportShowsHeld(hid, before);
      if IsModifier(e.code) {
        ModifierShows(hid, r.slots, Held(before), e.code, e.down);
      } else if !e.down {
        ClearedShows(hid, r.slots, Held(before), e.code);
      } else {
        assert run[..|run|] == run;
        if Mapped(hid, e.code) && hid[e.code] !in r.slots {
          HeldGrows(hid, run);
          if FreeSlot(r.slots, |r.slots|) == -1 {
            FullSlots(hid, r.slots, Held(before), HeldMapped(hid, before));
          }
        }
        PressedShows(hid, r.slots, Held(before), e.code);
      }
    }
  }

  lemma ModifierBits(x: bv8, a: Code, b: Code)
    requires IsModifier(a)
    ensures (x | ModifierBit(b)) & ModifierBit(a) != 0 <==> a == b || x & ModifierBit(a) != 0
    ensures (x & !ModifierBit(b)) & ModifierBit(a) != 0 <==> a != b && x & ModifierBit(a) != 0
  {
  }

  lemma ModifierStep(hid: HidTable, r: Report, e: KeyChange, code: Code)
    requires IsModifier(code)
    ensures Update(hid, r, e).mods & ModifierBit(code) != 0 <==>
            if e.code == code then e.down else r.mods & ModifierBit(code) != 0
  {
    UpdatedMods(hid, r, e);
    hide Update;
    ModifierBits(r.mods, code, e.code);
    hide ModifierBit;
  }

  lemma UpdatedMods(hid: HidTable, r: Report, e: KeyChange)
    ensures var bit := ModifierBit(e.code);
            Update(hid, r, e).mods == if bit == 0 then r.mods else if e.down then r.mods | bit else r.mods & !bit
  {
    hide ModifierBit, UpdateKeys;
  }

  /** In every run the modifier byte is exactly the held modifiers. */
  lemma {:induction false} ModifierByteIsHeld(hid: HidTable, run: seq<KeyChange>, code: Code)
    requires IsModifier(code)
    ensures Run(hid, run).mods & ModifierBit(code) != 0 <==> code in Held(run)
    decreases |run|
  {
    hide Update, ModifierBit;
    if run != [] {
      var n := |run| - 1;
      ModifierByteIsHeld(hid, run[..n], code);
      ModifierStep(hid, Run(hid, run[..n]), run[n], code);
    }
  }
}
