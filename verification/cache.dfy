/** The descriptor cache (src/keyboard.c:22-57): 16 slots read as a partial map. */
module Cache {
  import opened Keys
  import opened Configs
  import opened State
  import opened Layers

  /** The first of the first n slots that holds a code, or -1. */
  function FindIn(cache: seq<CacheEntry>, code: Code, n: nat): (r: int)
    requires n <= |cache|
    ensures -1 <= r < n
    ensures r != -1 ==> cache[r].code == code && forall i | 0 <= i < r :: cache[i].code != code
    ensures r == -1 ==> forall i | 0 <= i < n :: cache[i].code != code
  {
    if n == 0 then -1
    else
      var p := FindIn(cache, code, n - 1);
      if p != -1 then p else if cache[n - 1].code == code then n - 1 else -1
  }

  /** cache_get */
  function Find(cache: seq<CacheEntry>, code: Code): int {
    FindIn(cache, code, |cache|)
  }

  /** The last free slot of the first n, or -1. */
  function LastFree(cache: seq<CacheEntry>, n: nat): (r: int)
    requires n <= |cache|
    ensures -1 <= r < n
    ensures r != -1 ==> cache[r].code == 0
    ensures r == -1 ==> forall i | 0 <= i < n :: cache[i].code != 0
  {
    if n == 0 then -1 else if cache[n - 1].code == 0 then n - 1 else LastFree(cache, n - 1)
  }

  /** The slot cache_set writes: that of the code, else the last free one, else -1. */
  function SlotFor(cache: seq<CacheEntry>, code: Code): int {
    if Find(cache, code) != -1 then Find(cache, code) else LastFree(cache, |cache|)
  }

  /** cache_set with an entry. */
  function Put(cache: seq<CacheEntry>, code: Code, e: CacheEntry): seq<CacheEntry> {
    var slot := SlotFor(cache, code);
    if slot == -1 then cache else cache[slot := e.(code := code)]
  }

  /** cache_set without an entry. */
  function Remove(cache: seq<CacheEntry>, code: Code): seq<CacheEntry> {
    var slot := SlotFor(cache, code);
    if slot == -1 then cache else cache[slot := cache[slot].(code := 0)]
  }

  /** The in-place edit of activate_layer. */
  function MarkLayer(cache: seq<CacheEntry>, code: Code, layer: nat): seq<CacheEntry> {
    var slot := Find(cache, code);
    if slot == -1 then cache else cache[slot := cache[slot].(layer := layer)]
  }

  /** The in-place edit of overloadi and repeat. */
  function Rebind(cache: seq<CacheEntry>, code: Code, d: Descriptor): seq<CacheEntry> {
    var slot := Find(cache, code);
    if slot == -1 then cache else cache[slot := cache[slot].(d := d)]
  }

  /** The cache read as a partial map: the slot bound to a code. */
  function Lookup(cache: seq<CacheEntry>, code: Code): Option<CacheEntry> {
    if Find(cache, code) == -1 then None else Some(cache[Find(cache, code)])
  }

  lemma FindUnique(cache: seq<CacheEntry>, code: Code, i: nat)
    requires DistinctCodes(cache) && code != 0 && i < |cache| && cache[i].code == code
    ensures Find(cache, code) == i
  {
  }

  /** A slot that holds a code, or, if none does, a free one, may be rewritten: the map
      changes at that code and nowhere else. */
  lemma UpdateSlot(cache: seq<CacheEntry>, code: Code, slot: nat, e: CacheEntry, other: Code)
    requires DistinctCodes(cache) && code != 0 && slot < |cache|
    requires cache[slot].code == code || (cache[slot].code == 0 && Find(cache, code) == -1)
    requires e.code == code || e.code == 0
    ensures DistinctCodes(cache[slot := e])
    ensures other != 0 && other != code ==> Lookup(cache[slot := e], other) == Lookup(cache, other)
    ensures Lookup(cache[slot := e], code) == if e.code == code then Some(e) else None
  {
    var after := cache[slot := e];
    if e.code == code {
      FindUnique(after, code, slot);
    }
    if other != 0 && other != code && Find(cache, other) != -1 {
      assert after[Find(cache, other)].code == other;
      FindUnique(after, other, Find(cache, other));
    }
  }

  /** cache_set with an entry updates the map at its code, unless the code is absent and no
      slot is free; then it changes nothing. */
  lemma PutRefinesUpdate(cache: seq<CacheEntry>, code: Code, e: CacheEntry, other: Code)
    requires DistinctCodes(cache) && code != 0
    ensures var after := Put(cache, code, e);
            var full := Lookup(cache, code) == None && forall i | 0 <= i < |cache| :: cache[i].code != 0;
            DistinctCodes(after) && (SlotFor(cache, code) == -1 <==> full) &&
            (full ==> after == cache) &&
            (!full ==> Lookup(after, code) == Some(e.(code := code))) &&
            (other != 0 && other != code ==> Lookup(after, other) == Lookup(cache, other))
  {
    var slot := SlotFor(cache, code);
    if slot != -1 {
      UpdateSlot(cache, code, slot, e.(code := code), other);
    }
  }

  /** cache_set without an entry removes its code from the map and nothing else. */
  lemma RemoveRefinesRemoval(cache: seq<CacheEntry>, code: Code, other: Code)
    requires DistinctCodes(cache) && code != 0
    ensures var after := Remove(cache, code);
            DistinctCodes(after) && Lookup(after, code) == None &&
            (other != 0 && other != code ==> Lookup(after, other) == Lookup(cache, other))
  {
    var slot := SlotFor(cache, code);
    if slot != -1 {
      UpdateSlot(cache, code, slot, cache[slot].(code := 0), other);
    }
  }

  /** Rebinding a key, by overloadi and repeat, changes the map at its code only, and there the
      action only. */
  lemma RebindRefinesUpdate(cache: seq<CacheEntry>, code: Code, d: Descriptor, other: Code)
    requires DistinctCodes(cache) && code != 0
    ensures var after := Rebind(cache, code, d);
            DistinctCodes(after) && (other != 0 && other != code ==> Lookup(after, other) == Lookup(cache, other)) &&
            Lookup(after, code) == match Lookup(cache, code) case None => None case Some(e) => Some(e.(d := d))
  {
    var slot := Find(cache, code);
    if slot != -1 {
      UpdateSlot(cache, code, slot, cache[slot].(d := d), other);
    }
  }

  /** Marking the slot of a key with the layer it activated changes the map at its code only,
      and there the mark only. */
  lemma MarkLayerRefinesUpdate(cache: seq<CacheEntry>, code: Code, layer: nat, other: Code)
    requires DistinctCodes(cache) && code != 0
    ensures var after := MarkLayer(cache, code, layer);
            DistinctCodes(after) && (other != 0 && other != code ==> Lookup(after, other) == Lookup(cache, other)) &&
            Lookup(after, code) == match Lookup(cache, code) case None => None case Some(e) => Some(e.(layer := layer))
  {
    var slot := Find(cache, code);
    if slot != -1 {
      UpdateSlot(cache, code, slot, cache[slot].(layer := layer), other);
    }
  }

  /** The edit that swap makes to the slot it picked is a rebinding of its key. */
  lemma SwapEditRebinds(cache: seq<CacheEntry>, i: nat, d: Descriptor)
    requires DistinctCodes(cache) && i < |cache| && cache[i].code != 0
    ensures cache[i := cache[i].(d := d)] == Rebind(cache, cache[i].code, d)
  {
    FindUnique(cache, cache[i].code, i);
  }

  // ----------------------------------------------------- every edit keeps the cache sound

  lemma PutOk(c: Config, cache: seq<CacheEntry>, code: Code, e: CacheEntry)
    requires CacheOk(c, cache) && code != 0 && EntryOk(c, e.(code := code))
    ensures CacheOk(c, Put(cache, code, e))
  {
    PutRefinesUpdate(cache, code, e, 0);
  }

  lemma RemoveOk(c: Config, cache: seq<CacheEntry>, code: Code)
    requires CacheOk(c, cache) && code != 0
    ensures CacheOk(c, Remove(cache, code))
  {
    RemoveRefinesRemoval(cache, code, 0);
  }

  lemma MarkLayerOk(c: Config, cache: seq<CacheEntry>, code: Code, layer: nat)
    requires CacheOk(c, cache) && layer < |c.layers|
    ensures CacheOk(c, MarkLayer(cache, code, layer))
  {
    EditOk(c, cache, MarkLayer(cache, code, layer));
  }

  lemma RebindOk(c: Config, cache: seq<CacheEntry>, code: Code, d: Descriptor)
    requires CacheOk(c, cache) && Allowed(c, d)
    ensures CacheOk(c, Rebind(cache, code, d))
  {
    EditOk(c, cache, Rebind(cache, code, d));
  }

  /** Edits that leave every code in its slot. */
  lemma EditOk(c: Config, before: seq<CacheEntry>, after: seq<CacheEntry>)
    requires CacheOk(c, before) && |after| == |before|
    requires forall i | 0 <= i < |after| :: after[i].code == before[i].code && EntryOk(c, after[i])
    ensures CacheOk(c, after)
  {
  }

  // ---------------------------------------------------------------------------- holders

  function SlotCredit(e: CacheEntry, l: nat): nat {
    if e.code != 0 then Credit(e.d, l) else 0
  }

  /** How many held keys will give up an activation of layer l when released. */
  function Holders(cache: seq<CacheEntry>, n: nat, l: nat): nat
    requires n <= |cache|
  {
    if n == 0 then 0 else Holders(cache, n - 1, l) + SlotCredit(cache[n - 1], l)
  }

  lemma {:induction false} HoldersUpdate(cache: seq<CacheEntry>, n: nat, i: nat, e: CacheEntry, l: nat)
    requires n <= |cache| && i < |cache|
    ensures Holders(cache[i := e], n, l) ==
            Holders(cache, n, l) + if i < n then SlotCredit(e, l) - SlotCredit(cache[i], l) else 0
    decreases n
  {
    if n != 0 {
      HoldersUpdate(cache, n - 1, i, e, l);
    }
  }

  lemma {:induction false} HoldersAtLeast(cache: seq<CacheEntry>, n: nat, i: nat, l: nat)
    requires i < n <= |cache|
    ensures Holders(cache, n, l) >= SlotCredit(cache[i], l)
    decreases n
  {
    if i != n - 1 {
      HoldersAtLeast(cache, n - 1, i, l);
    }
  }

  lemma {:induction false} HoldersEmpty(cache: seq<CacheEntry>, n: nat, l: nat)
    requires n <= |cache| && forall i | 0 <= i < n :: cache[i].code == 0
    ensures Holders(cache, n, l) == 0
    decreases n
  {
    if n != 0 {
      HoldersEmpty(cache, n - 1, l);
    }
  }
}
