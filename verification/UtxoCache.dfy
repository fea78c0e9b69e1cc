/** The cache in front of the coin store: entries carry the time of their last use, and a queue of
    uses, in which older uses of the same key are left to go stale, orders evictions. */
module UtxoCache {
  import opened Basics

  datatype Slot = Slot(bytes: Bytes, stamp: nat)

  datatype Use = Use(key: OutPoint, stamp: nat)

  type Slots = map<OutPoint, Slot>

  type Store = map<OutPoint, Bytes>

  datatype Write = Put(key: OutPoint, bytes: Bytes) | Delete(key: OutPoint)

  function Apply(store: Store, w: Write): (s: Store) {
    match w
    case Put(k, b) => store[k := b]
    case Delete(k) => store - {k}
  }

  /** The store after the first `n` writes. */
  function Applied(store: Store, ws: seq<Write>, n: nat): (s: Store)
    requires n <= |ws|
  {
    if n == 0 then store else Apply(Applied(store, ws, n - 1), ws[n - 1])
  }

  /** Uses are queued in the order of their stamps. */
  predicate Ordered(order: seq<Use>, clock: nat) {
    && (forall i :: 0 <= i < |order| ==> order[i].stamp <= clock)
    && (forall i, j :: 0 <= i < j < |order| ==> order[i].stamp < order[j].stamp)
  }

  /** The last use of every entry is still in the queue. */
  predicate Queued(slots: Slots, order: seq<Use>) { forall k :: k in slots ==> Use(k, slots[k].stamp) in order }

  predicate Coherent(slots: Slots, store: Store) { forall k :: k in slots ==> k in store && store[k] == slots[k].bytes }

  /** Everything in `gone` was used before everything kept. */
  predicate Oldest(before: Slots, after: Slots) {
    && after.Keys <= before.Keys && (forall k :: k in after ==> after[k] == before[k])
    && forall k, g :: k in after && g in before && g !in after ==> before[g].stamp < before[k].stamp
  }

  lemma PushKeeps(slots: Slots, order: seq<Use>, clock: nat, k: OutPoint, bytes: Bytes)
    requires Ordered(order, clock) && Queued(slots, order)
    ensures Ordered(order + [Use(k, clock + 1)], clock + 1)
            && Queued(slots[k := Slot(bytes, clock + 1)], order + [Use(k, clock + 1)])
  {
    var longer := order + [Use(k, clock + 1)];
    assert longer[|order|] == Use(k, clock + 1);
    forall x | x in slots && x != k ensures Use(x, slots[x].stamp) in longer {
      assert Use(x, slots[x].stamp) in order;
    }
  }

  /** Taking the oldest use off the queue: a stale one belongs to nobody, a live one to the entry
      that was used least recently. */
  lemma PopFacts(slots: Slots, order: seq<Use>, clock: nat)
    requires Ordered(order, clock) && Queued(slots, order) && order != []
    ensures var u := order[0];
            var live := u.key in slots && slots[u.key].stamp == u.stamp;
            && Ordered(order[1..], clock)
            && (!live ==> Queued(slots, order[1..]))
            && (live ==> Queued(slots - {u.key}, order[1..])
                         && forall k :: k in slots && k != u.key ==> slots[u.key].stamp < slots[k].stamp)
  {
    var u := order[0];
    forall k | k in slots && (k != u.key || slots[k].stamp != u.stamp)
      ensures Use(k, slots[k].stamp) in order[1..] && slots[k].stamp > u.stamp
    {
      var i :| 0 <= i < |order| && order[i] == Use(k, slots[k].stamp);
      assert i > 0;
      assert order[1..][i - 1] == order[i];
    }
  }

  lemma NotEmpty(slots: Slots, order: seq<Use>)
    requires Queued(slots, order) && |slots| > 0
    ensures order != []
  {
    var k :| k in slots;
    assert Use(k, slots[k].stamp) in order;
  }

  lemma Shrinks(slots: Slots, k: OutPoint)
    requires k in slots
    ensures |slots - {k}| == |slots| - 1
  {
    assert (slots - {k}).Keys == slots.Keys - {k};
    assert |slots.Keys| == |slots| && |(slots - {k}).Keys| == |slots - {k}|;
  }

  /** Evicts down to the capacity. The queue never runs out first, and what goes is what was used
      least recently. */
  method Evict(slots: Slots, order: seq<Use>, capacity: nat, ghost clock: nat) returns (slots': Slots, order': seq<Use>)
    requires Ordered(order, clock) && Queued(slots, order)
    ensures Ordered(order', clock) && Queued(slots', order') && |slots'| <= capacity
    ensures Oldest(slots, slots') && (|slots| >= capacity ==> |slots'| == capacity)
            && (|slots| <= capacity ==> slots' == slots)
  {
    slots', order' := slots, order;
    while |slots'| > capacity
      invariant Ordered(order', clock) && Queued(slots', order') && Oldest(slots, slots')
      invariant (|slots| >= capacity ==> |slots'| >= capacity) && (|slots| <= capacity ==> slots' == slots)
      decreases |order'|
    {
      NotEmpty(slots', order');
      PopFacts(slots', order', clock);
      var u := order'[0];
      order' := order'[1..];
      if u.key in slots' && slots'[u.key].stamp == u.stamp {
        Shrinks(slots', u.key);
        slots' := slots' - {u.key};
      }
    }
  }

  /** The coin store with its cache. */
  class CachedStore {
    var store: Store
    var slots: Slots
    var order: seq<Use>
    var clock: nat
    const capacity: nat

    ghost predicate Valid()
      reads this
    {
      Ordered(order, clock) && Queued(slots, order) && Coherent(slots, store) && |slots| <= capacity
    }

    constructor (store: Store, capacity: nat)
      ensures Valid() && this.store == store && slots == map[] && this.capacity == capacity
    {
      this.store := store;
      this.capacity := capacity;
      slots := map[];
      order := [];
      clock := 0;
    }

    method Get(k: OutPoint) returns (r: Option<Bytes>)
      requires Valid()
      modifies this`slots, this`order, this`clock
      ensures Valid() && slots.Keys == old(slots).Keys
      ensures r == if k in old(slots) then Some(old(slots)[k].bytes) else None
      ensures k in slots ==> slots[k].stamp == clock > old(clock)
    {
      hide Ordered; hide Queued; hide Coherent;
      if capacity == 0 {
        NoSlots(slots);
        return None;
      }
      if k !in slots {
        OrderedLater(order, clock);
        clock := clock + 1;
        return None;
      }
      var slot := Slot(slots[k].bytes, clock + 1);
      PushKeeps(slots, order, clock, k, slots[k].bytes);
      SameSize(slots, k, slot);
      CoherentUse(slots, store, k, slot);
      clock := clock + 1;
      slots := slots[k := slot];
      order := order + [Use(k, clock)];
      return Some(slot.bytes);
    }

    /** Adds or refreshes an entry, then evicts the least recently used ones. */
    method Insert(k: OutPoint, bytes: Bytes, ghost after: Store)
      requires Ordered(order, clock) && Queued(slots, order) && Coherent(slots - {k}, after) && |slots| <= capacity
      requires k in after && after[k] == bytes
      modifies this`slots, this`order, this`clock
      ensures Ordered(order, clock) && Queued(slots, order) && Coherent(slots, after) && |slots| <= capacity
      ensures capacity > 0 ==> Oldest(old(slots)[k := Slot(bytes, clock)], slots) && k in slots
      ensures capacity == 0 ==> slots == old(slots)
    {
      hide Ordered; hide Queued; hide Coherent; hide Oldest;
      if capacity == 0 {
        NoSlots(slots);
        assert slots - {k} == slots;
        return;
      }
      PushKeeps(slots, order, clock, k, bytes);
      Newest(slots, order, clock);
      CoherentPut(slots, after, k, Slot(bytes, clock + 1));
      clock := clock + 1;
      slots := slots[k := Slot(bytes, clock)];
      ghost var full := slots;
      order := order + [Use(k, clock)];
      slots, order := Evict(slots, order, capacity, clock);
      KeepsNewest(full, slots, k, capacity);
      CoherentPart(full, slots, after);
    }

    /** A read through the cache is a read of the store. */
    method Read(k: OutPoint) returns (r: Option<Bytes>)
      requires Valid()
      modifies this`slots, this`order, this`clock
      ensures Valid() && r == if k in store then Some(store[k]) else None
    {
      hide Ordered; hide Queued; hide Oldest;
      r := Get(k);
      if r.Some? { return r; }
      if k !in store { return None; }
      Insert(k, store[k], store);
      return Some(store[k]);
    }

    /** Writes a batch to the store and repeats it on the cache. */
    method Commit(ws: seq<Write>)
      requires Valid()
      modifies this
      ensures Valid() && store == Applied(old(store), ws, |ws|)
    {
      hide Ordered; hide Queued; hide Coherent; hide Oldest; hide Apply;
      ghost var before := store;
      store := ApplyAll(store, ws);
      for i := 0 to |ws|
        invariant store == Applied(before, ws, |ws|)
        invariant Ordered(order, clock) && Queued(slots, order) && Coherent(slots, Applied(before, ws, i))
                  && |slots| <= capacity
      {
        CoherentWrite(slots, Applied(before, ws, i), ws[i]);
        if ws[i].Put? {
          Insert(ws[i].key, ws[i].bytes, Applied(before, ws, i + 1));
        } else {
          DropKeeps(slots, order, ws[i].key);
          slots := slots - {ws[i].key};
        }
      }
    }
  }

  lemma NoSlots(slots: Slots)
    ensures |slots| == 0 ==> slots == map[]
  {
  }

  lemma OrderedLater(order: seq<Use>, clock: nat)
    requires Ordered(order, clock)
    ensures Ordered(order, clock + 1)
  {
  }

  lemma CoherentUse(slots: Slots, store: Store, k: OutPoint, slot: Slot)
    requires Coherent(slots, store) && k in slots && slot.bytes == slots[k].bytes
    ensures Coherent(slots[k := slot], store) && slots[k := slot].Keys == slots.Keys
  {
  }

  lemma CoherentPut(slots: Slots, after: Store, k: OutPoint, slot: Slot)
    requires Coherent(slots - {k}, after) && k in after && after[k] == slot.bytes
    ensures Coherent(slots[k := slot], after)
  {
    forall x | x in slots[k := slot] ensures x in after && after[x] == slots[k := slot][x].bytes {
      if x != k { assert x in slots - {k}; }
    }
  }

  lemma CoherentPart(full: Slots, part: Slots, store: Store)
    requires Coherent(full, store) && Oldest(full, part)
    ensures Coherent(part, store)
  {
  }

  lemma CoherentWrite(slots: Slots, store: Store, w: Write)
    requires Coherent(slots, store)
    ensures Coherent(slots - {w.key}, Apply(store, w))
    ensures w.Put? ==> w.key in Apply(store, w) && Apply(store, w)[w.key] == w.bytes
  {
  }

  lemma DropKeeps(slots: Slots, order: seq<Use>, k: OutPoint)
    requires Queued(slots, order)
    ensures Queued(slots - {k}, order) && |slots - {k}| <= |slots|
  {
    if k in slots { Shrinks(slots, k); } else { assert slots - {k} == slots; }
  }

  method ApplyAll(store: Store, ws: seq<Write>) returns (s: Store)
    ensures s == Applied(store, ws, |ws|)
  {
    s := store;
    for i := 0 to |ws|
      invariant s == Applied(store, ws, i)
    {
      s := Apply(s, ws[i]);
    }
  }

  lemma SameSize(slots: Slots, k: OutPoint, v: Slot)
    requires k in slots
    ensures |slots[k := v]| == |slots|
  {
    assert slots[k := v].Keys == slots.Keys;
    assert |slots.Keys| == |slots| && |slots[k := v].Keys| == |slots[k := v]|;
  }

  /** Every entry was last used at or before the clock. */
  lemma Newest(slots: Slots, order: seq<Use>, clock: nat)
    requires Ordered(order, clock) && Queued(slots, order)
    ensures forall x :: x in slots ==> slots[x].stamp <= clock
  {
    forall x | x in slots ensures slots[x].stamp <= clock {
      var i :| 0 <= i < |order| && order[i] == Use(x, slots[x].stamp);
    }
  }

  /** The entry just used is never the one evicted. */
  lemma KeepsNewest(full: Slots, kept: Slots, k: OutPoint, capacity: nat)
    requires k in full && (forall x :: x in full && x != k ==> full[x].stamp < full[k].stamp)
    requires Oldest(full, kept) && capacity > 0 && (|full| >= capacity ==> |kept| == capacity)
             && (|full| <= capacity ==> kept == full)
    ensures k in kept
  {
    assert |kept| > 0 by { assert full != map[]; }
    var x :| x in kept;
  }
}
