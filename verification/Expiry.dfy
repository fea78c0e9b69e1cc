/** When a node's confirmation expires. The allowed gap grows with each upgrade, so the height at
    which a confirmation expires is a fixpoint. */
module Expiry {
  import opened Basics

  const U32_MAX: int := 0xffff_ffff
  const NEVER: int := -1

  /** Activation heights; `NEVER` disables an upgrade. */
  datatype Upgrades = Upgrades(flux: int, halving: int, pon: int)

  predicate Active(activation: int, h: int) { activation != NEVER && h >= activation }

  function Count(ups: Upgrades, h: int): (c: u32)
    ensures c == 60 || c == 80 || c == 160 || c == 640
  {
    if Active(ups.pon, h) then 640 else if Active(ups.halving, h) then 160 else if Active(ups.flux, h) then 80 else 60
  }

  /** Heights are looked up as 32-bit signed numbers. */
  function CountAt(ups: Upgrades, h: u32): (c: u32)
    ensures c == 60 || c == 80 || c == 160 || c == 640
  {
    Count(ups, if h <= I32_MAX then h else I32_MAX)
  }

  lemma CountGrows(ups: Upgrades, a: u32, b: u32)
    requires a <= b
    ensures CountAt(ups, a) <= CountAt(ups, b)
  {
  }

  /** How many of the allowed gaps lie below `c`. */
  function Level(c: u32): (n: nat)
    ensures n <= 3
  {
    if c >= 640 then 3 else if c >= 160 then 2 else if c >= 80 then 1 else 0
  }

  /** The first height at which a node last confirmed at `last` has been silent for too long. The
      allowed gap only grows, so the search settles after at most three changes. */
  method ExpireHeight(ups: Upgrades, last: u32) returns (e: u32, ghost changes: nat)
    ensures changes <= 3
    ensures forall h :: last < h < e ==> h - last <= CountAt(ups, h)
    ensures e == SaturatingAdd(last, CountAt(ups, e) + 1, U32_MAX)
  {
    var gap := CountAt(ups, last);
    e := SaturatingAdd(last, gap + 1, U32_MAX);
    changes := 0;
    Settles(ups, last, e, gap, last);
    while true
      invariant gap <= 640 && e == SaturatingAdd(last, gap + 1, U32_MAX) && CountAt(ups, e) >= gap
      invariant forall h :: last < h < e ==> h - last <= CountAt(ups, h)
      invariant changes <= Level(gap)
      decreases 640 - gap
    {
      var next := CountAt(ups, e);
      if next == gap { break; }
      Settles(ups, last, SaturatingAdd(last, next + 1, U32_MAX), next, e);
      gap := next;
      e := SaturatingAdd(last, gap + 1, U32_MAX);
      changes := changes + 1;
    }
  }

  /** Once the gap is the one allowed at `from`, every later height below the bound is within it. */
  lemma Settles(ups: Upgrades, last: u32, e: u32, gap: u32, from: u32)
    requires gap == CountAt(ups, from) && e == SaturatingAdd(last, gap + 1, U32_MAX) && from <= e
    ensures forall h :: from <= h < e ==> h - last <= CountAt(ups, h)
    ensures CountAt(ups, e) >= gap
  {
    forall h | from <= h < e ensures h - last <= CountAt(ups, h) { CountGrows(ups, from, h); }
    CountGrows(ups, from, e);
  }

  /** Some height up to `p` is further from the last confirmation than was allowed there. */
  ghost predicate Overdue(ups: Upgrades, p: u32, last: u32) {
    exists h: u32 :: last < h <= p && h - last > CountAt(ups, h)
  }

  /** The only heights where saturation shows: the end of the 32-bit range. */
  predicate AtEnd(ups: Upgrades, p: u32, last: u32) {
    p == U32_MAX && last < p && last + CountAt(ups, U32_MAX) + 1 > U32_MAX
  }

  /** Expiry read exactly: a node has expired when it has been overdue at some height up to now.
      The two differ at one height only, the largest 32-bit number. */
  method ExpiredAt(ups: Upgrades, p: u32, last: u32) returns (expired: bool)
    ensures (expired <==> Overdue(ups, p, last)) <==> !AtEnd(ups, p, last)
    ensures p <= I32_MAX ==> (expired <==> Overdue(ups, p, last))
  {
    if p <= last { return false; }
    ghost var changes;
    var e;
    e, changes := ExpireHeight(ups, last);
    expired := p >= e;
    if last + CountAt(ups, e) + 1 <= U32_MAX {
      assert e - last > CountAt(ups, e);
      CountGrows(ups, e, U32_MAX);
    }
  }

  /** Expiry is permanent: it never ends as the chain grows. */
  lemma OverdueForever(ups: Upgrades, p: u32, q: u32, last: u32)
    requires p <= q && Overdue(ups, p, last)
    ensures Overdue(ups, q, last)
  {
  }
}
