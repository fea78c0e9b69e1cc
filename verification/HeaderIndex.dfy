/** The header index: a tree under the genesis block with heights, total work and skip links. */
module HeaderIndex {
  import opened Basics
  import opened Powers
  import opened Compact

  datatype Entry = Entry(prev: Hash, skip: Hash, height: nat, time: u32, bits: u32, pon: bool, work: nat)

  datatype NewHeader = NewHeader(hash: Hash, prev: Hash, time: u32, bits: u32, pon: bool)

  type Index = map<Hash, Entry>

  // ---- skip heights ----

  /** The number with its lowest one bit cleared. */
  function ClearLowestOne(n: nat): (r: nat)
    ensures r <= n && (n > 0 ==> r < n)
  {
    if n == 0 then 0 else if n % 2 == 1 then n - 1 else 2 * ClearLowestOne(n / 2)
  }

  /** What is cleared is a power of two, and what is left a multiple of twice that power. */
  lemma {:induction false} ClearsLowestOne(n: nat) returns (k: nat, m: nat)
    requires n > 0
    ensures n == ClearLowestOne(n) + Pow2(k) && ClearLowestOne(n) == m * Pow2(k + 1)
  {
    if n % 2 == 1 {
      k, m := 0, n / 2;
      assert Pow2(0) == 1 && Pow2(1) == 2;
    } else {
      k, m := ClearsLowestOne(n / 2);
      assert 2 * (m * Pow2(k + 1)) == m * Pow2(k + 2);
      k := k + 1;
    }
  }

  function SkipHeight(h: nat): (r: nat)
    ensures h > 0 ==> r < h
  {
    if h < 2 then 0
    else if h % 2 == 1 then ClearLowestOne(ClearLowestOne(h - 1)) + 1
    else ClearLowestOne(h)
  }

  /** An even height skips to itself without its lowest one bit; an odd one, without the two lowest above
      the last. */
  lemma SkipIs(h: nat) returns (k: nat, m: nat, l: nat, n: nat)
    requires h >= 2
    ensures h % 2 == 0 ==> h == m * Pow2(k + 1) + Pow2(k) && SkipHeight(h) == m * Pow2(k + 1)
    ensures h % 2 == 1 ==>
              && h - 1 == m * Pow2(k + 1) + Pow2(k)
              && if m == 0 then SkipHeight(h) == 1
                 else m * Pow2(k + 1) == n * Pow2(l + 1) + Pow2(l) && SkipHeight(h) == n * Pow2(l + 1) + 1
  {
    hide Pow2;
    k, m := ClearsLowestOne(if h % 2 == 0 then h else h - 1);
    l, n := 0, 0;
    if h % 2 == 1 && m > 0 {
      assert m * Pow2(k + 1) > 0;
      l, n := ClearsLowestOne(m * Pow2(k + 1));
    }
  }

  // ---- the invariant ----

  const PON_WORK: nat := 0x100_0000_0000

  function Work(bits: u32, pon: bool): (w: Option<nat>) {
    if pon then Some(PON_WORK) else if BlockProof(bits).Target? then Some(BlockProof(bits).value) else None
  }

  predicate Linked(hs: Index, x: Hash) {
    x in hs && (hs[x].height > 0 ==> hs[x].prev in hs && hs[hs[x].prev].height == hs[x].height - 1)
  }

  predicate AllLinked(hs: Index) { forall x :: x in hs ==> Linked(hs, x) }

  /** The ancestor at height `h`, found by walking parent links. */
  function Ancestor(hs: Index, x: Hash, h: nat): (a: Hash)
    requires AllLinked(hs) && x in hs && h <= hs[x].height
    ensures a in hs && hs[a].height == h
    decreases if x in hs then hs[x].height else 0
  {
    if hs[x].height == h then x
    else
      assert Linked(hs, x);
      Ancestor(hs, hs[x].prev, h)
  }

  /** The work of a header and of everything below it. */
  function TotalWork(hs: Index, x: Hash): (w: nat)
    requires AllLinked(hs) && x in hs
    decreases hs[x].height
  {
    var own := Work(hs[x].bits, hs[x].pon);
    var here := if own.Some? then own.value else 0;
    if hs[x].height == 0 then here
    else
      assert Linked(hs, x);
      here + TotalWork(hs, hs[x].prev)
  }

  /** Height zero is the genesis block; work is the sum so far; a skip link, if there is one, is the true ancestor. */
  predicate EntryRight(genesis: Hash, hs: Index, x: Hash)
    requires AllLinked(hs)
  {
    x in hs ==>
      && Work(hs[x].bits, hs[x].pon).Some?
      && (hs[x].height == 0 ==>
            x == genesis && hs[x].prev == ZERO_HASH && hs[x].work == Work(hs[x].bits, hs[x].pon).value)
      && (hs[x].height > 0 ==> Linked(hs, x) && hs[x].work == Work(hs[x].bits, hs[x].pon).value + hs[hs[x].prev].work)
      && (hs[x].skip != ZERO_HASH ==> hs[x].height > 0 && hs[x].skip == Ancestor(hs, x, SkipHeight(hs[x].height)))
  }

  predicate Tree(genesis: Hash, hs: Index) {
    ZERO_HASH !in hs && AllLinked(hs) && forall x :: x in hs ==> EntryRight(genesis, hs, x)
  }

  /** The best header has the most work. */
  predicate IsBest(hs: Index, best: Option<Hash>) {
    match best
    case None => hs == map[]
    case Some(b) => b in hs && forall x :: x in hs ==> hs[x].work <= hs[b].work
  }

  /** Stored work is the sum of work back to genesis. */
  lemma {:induction false} WorkIsTotal(genesis: Hash, hs: Index, x: Hash)
    requires Tree(genesis, hs) && x in hs
    ensures hs[x].work == TotalWork(hs, x)
    decreases hs[x].height
  {
    hide Work;
    assert EntryRight(genesis, hs, x) && Linked(hs, x);
    if hs[x].height > 0 { WorkIsTotal(genesis, hs, hs[x].prev); }
  }

  /** The header `n` parent links below `x`, if the links lead that far. */
  function Back(hs: Index, x: Hash, n: nat): (a: Option<Hash>)
    decreases n
  {
    if x !in hs then None else if n == 0 then Some(x) else Back(hs, hs[x].prev, n - 1)
  }

  lemma EntryLinks(genesis: Hash, hs: Index, x: Hash)
    requires Tree(genesis, hs) && x in hs
    ensures hs[x].height == 0 ==> x == genesis && hs[x].prev !in hs
    ensures hs[x].height > 0 ==> hs[x].prev in hs && hs[hs[x].prev].height == hs[x].height - 1
  {
    hide Work; hide Ancestor;
    assert EntryRight(genesis, hs, x) && Linked(hs, x);
  }

  /** Every link goes down one height. */
  lemma {:induction false} BackDown(genesis: Hash, hs: Index, x: Hash, n: nat)
    requires Tree(genesis, hs) && x in hs
    ensures Back(hs, x, n).Some? <==> n <= hs[x].height
    ensures n <= hs[x].height ==> Back(hs, x, n).value in hs && hs[Back(hs, x, n).value].height == hs[x].height - n
    decreases n
  {
    hide Tree;
    EntryLinks(genesis, hs, x);
    if n > 0 && hs[x].height > 0 { BackDown(genesis, hs, hs[x].prev, n - 1); }
  }

  lemma {:induction false} GenesisIsLow(genesis: Hash, hs: Index, x: Hash)
    requires Tree(genesis, hs) && x in hs
    ensures genesis in hs && hs[genesis].height == 0
    decreases hs[x].height
  {
    hide Tree;
    EntryLinks(genesis, hs, x);
    if hs[x].height > 0 { GenesisIsLow(genesis, hs, hs[x].prev); }
  }

  /** Stored height is the number of parent links back to genesis: following that many leads to it,
      and following fewer or more does not. */
  lemma HeightIsLength(genesis: Hash, hs: Index, x: Hash)
    requires Tree(genesis, hs) && x in hs
    ensures forall n: nat :: Back(hs, x, n) == Some(genesis) <==> n == hs[x].height
    ensures forall n: nat :: Back(hs, x, n).Some? <==> n <= hs[x].height
  {
    hide Back; hide Tree;
    GenesisIsLow(genesis, hs, x);
    forall n: nat ensures Back(hs, x, n) == Some(genesis) <==> n == hs[x].height
      ensures Back(hs, x, n).Some? <==> n <= hs[x].height
    {
      BackDown(genesis, hs, x, n);
      if n == hs[x].height { EntryLinks(genesis, hs, Back(hs, x, n).value); }
    }
  }

  /** An ancestor of an ancestor is an ancestor. */
  lemma {:induction false} AncestorChain(hs: Index, x: Hash, h: nat, g: nat)
    requires AllLinked(hs) && x in hs && g <= h <= hs[x].height
    ensures Ancestor(hs, Ancestor(hs, x, h), g) == Ancestor(hs, x, g)
    decreases hs[x].height
  {
    assert Linked(hs, x);
    if hs[x].height > h { AncestorChain(hs, hs[x].prev, h, g); }
  }

  /** Adding headers does not change the ancestry of the old ones. */
  lemma {:induction false} AncestorKept(hs: Index, more: Index, x: Hash, h: nat)
    requires AllLinked(hs) && AllLinked(more) && x in hs && h <= hs[x].height
    requires forall y :: y in hs ==> y in more && more[y] == hs[y]
    ensures Ancestor(more, x, h) == Ancestor(hs, x, h)
    decreases hs[x].height
  {
    assert Linked(hs, x);
    if hs[x].height > h { AncestorKept(hs, more, hs[x].prev, h); }
  }

  // ---- looking up an ancestor ----

  /** `header_ancestor_hash`: skips where a link leads no further back than the target. It sees the
      headers in `seen`, which may be fewer than all; then it may find nothing, but never a wrong answer. */
  method AncestorHash(seen: Index, hash: Hash, target: int, ghost genesis: Hash, ghost all: Index)
    returns (r: Option<Hash>)
    requires Tree(genesis, all) && forall x :: x in seen ==> x in all && all[x] == seen[x]
    ensures r.Some? ==> hash in all && 0 <= target <= all[hash].height && r.value == Ancestor(all, hash, target)
    ensures seen == all ==> (r.Some? <==> hash in all && 0 <= target <= all[hash].height)
  {
    hide Work;
    if target < 0 { return None; }
    if hash !in seen { return None; }
    var entry: Entry, current: Hash := seen[hash], hash;
    if target > entry.height { return None; }
    while entry.height > target
      invariant current in seen && entry == seen[current] && target <= entry.height
      invariant Ancestor(all, current, target) == Ancestor(all, hash, target)
      decreases entry.height
    {
      assert EntryRight(genesis, all, current) && Linked(all, current);
      var skipHeight := SkipHeight(entry.height);
      var next := if entry.skip != ZERO_HASH && skipHeight >= target then entry.skip else entry.prev;
      if next == entry.skip && entry.skip != ZERO_HASH && skipHeight >= target {
        AncestorChain(all, current, skipHeight, target);
      }
      if next !in seen { return None; }
      current := next;
      entry := seen[current];
    }
    return Some(current);
  }

  // ---- adding headers ----

  lemma LinkedKept(hs: Index, x: Hash, e: Entry)
    requires AllLinked(hs) && x !in hs && (e.height > 0 ==> e.prev in hs && hs[e.prev].height == e.height - 1)
    ensures AllLinked(hs[x := e])
  {
    var more := hs[x := e];
    forall y | y in more ensures Linked(more, y) { if y != x { assert Linked(hs, y); } }
  }

  lemma EntryKept(genesis: Hash, hs: Index, more: Index, y: Hash)
    requires AllLinked(hs) && AllLinked(more) && y in hs && EntryRight(genesis, hs, y)
    requires forall z :: z in hs ==> z in more && more[z] == hs[z]
    ensures EntryRight(genesis, more, y)
  {
    hide Work;
    assert Linked(hs, y) && Linked(more, y);
    if hs[y].skip != ZERO_HASH { AncestorKept(hs, more, y, SkipHeight(hs[y].height)); }
  }

  /** An entry as it is built on its parent: one higher, with its own work added, and a skip link, if
      any, to the ancestor at the skip height. */
  predicate BuiltOn(genesis: Hash, hs: Index, x: Hash, e: Entry)
    requires AllLinked(hs) && Work(e.bits, e.pon).Some?
  {
    var own := Work(e.bits, e.pon).value;
    if e.height == 0 then x == genesis && e.prev == ZERO_HASH && e.skip == ZERO_HASH && e.work == own
    else
      && e.prev in hs && hs[e.prev].height == e.height - 1 && e.work == own + hs[e.prev].work
      && (e.skip != ZERO_HASH ==> e.skip == Ancestor(hs, e.prev, SkipHeight(e.height)))
  }

  /** The skip link is there and leads to the ancestor at the skip height. */
  ghost predicate SkipsRight(hs: Index, e: Entry) {
    && AllLinked(hs) && e.prev in hs && SkipHeight(e.height) <= hs[e.prev].height
    && e.skip == Ancestor(hs, e.prev, SkipHeight(e.height))
  }

  lemma SkipsKept(hs: Index, more: Index, e: Entry)
    requires SkipsRight(hs, e) && AllLinked(more) && forall y :: y in hs ==> y in more && more[y] == hs[y]
    ensures SkipsRight(more, e)
  {
    AncestorKept(hs, more, e.prev, SkipHeight(e.height));
  }

  /** A header built on its parent keeps the tree. */
  lemma TreeGrows(genesis: Hash, hs: Index, x: Hash, e: Entry)
    requires Tree(genesis, hs) && x !in hs && x != ZERO_HASH && Work(e.bits, e.pon).Some?
    requires BuiltOn(genesis, hs, x, e)
    ensures Tree(genesis, hs[x := e])
  {
    hide Work; hide EntryRight; hide AllLinked; hide Ancestor; hide SkipHeight;
    var more := hs[x := e];
    LinkedKept(hs, x, e);
    NewEntryRight(genesis, hs, more, x, e);
    forall y | y in more ensures EntryRight(genesis, more, y) {
      if y != x {
        assert EntryRight(genesis, hs, y);
        EntryKept(genesis, hs, more, y);
      }
    }
  }

  lemma NewEntryRight(genesis: Hash, hs: Index, more: Index, x: Hash, e: Entry)
    requires AllLinked(hs) && AllLinked(more) && x !in hs && more == hs[x := e] && Work(e.bits, e.pon).Some?
    requires BuiltOn(genesis, hs, x, e)
    ensures EntryRight(genesis, more, x)
  {
    hide Work;
    assert Linked(more, x);
    if e.skip != ZERO_HASH { AncestorKept(hs, more, e.prev, SkipHeight(e.height)); }
  }

  datatype HeaderError = MissingHeader | InvalidHeader

  datatype Built = Built(entry: Entry) | Refused(error: HeaderError)

  /** The entry holds what the header says. */
  predicate Carries(e: Entry, h: NewHeader) {
    e.prev == h.prev && e.time == h.time && e.bits == h.bits && e.pon == h.pon
  }

  /** Why a header is refused, if it is: its parent is unknown, or a rule or its bits are against it. */
  function Refusal(genesis: Hash, all: Index, rules: (Index, NewHeader) -> bool, h: NewHeader): Option<HeaderError> {
    if !(h.prev == ZERO_HASH && h.hash == genesis) && h.prev !in all then Some(MissingHeader)
    else if !rules(all, h) || Work(h.bits, h.pon).None? then Some(InvalidHeader)
    else None
  }

  /** The entry of a header that is not indexed yet. `cached` are the pending headers still in the
      header cache, where the ancestor search can find them. */
  method BuildEntry(genesis: Hash, headers: Index, pending: Index, cached: set<Hash>,
                    rules: (Index, NewHeader) -> bool, h: NewHeader)
    returns (r: Built)
    requires Tree(genesis, headers + pending) && h.hash !in headers + pending && h.hash != ZERO_HASH
             && headers.Keys !! pending.Keys
    ensures r.Built? ==> Tree(genesis, (headers + pending)[h.hash := r.entry]) && Carries(r.entry, h)
    ensures Refusal(genesis, headers + pending, rules, h) == if r.Built? then None else Some(r.error)
    ensures r.Built? && r.entry.height > 0 && pending.Keys <= cached ==> SkipsRight(headers + pending, r.entry)
  {
    hide Tree; hide Work; hide Ancestor; hide SkipHeight; hide AllLinked;
    ghost var all := headers + pending;
    var isGenesis := h.prev == ZERO_HASH && h.hash == genesis;
    if !isGenesis && h.prev !in pending && h.prev !in headers { return Refused(MissingHeader); }
    if !rules(headers + pending, h) { return Refused(InvalidHeader); }
    var own := Work(h.bits, h.pon);
    if own.None? { return Refused(InvalidHeader); }
    if isGenesis {
      var e := Entry(h.prev, ZERO_HASH, 0, h.time, h.bits, h.pon, own.value);
      TreeGrows(genesis, all, h.hash, e);
      return Built(e);
    }
    var parent := if h.prev in pending then pending[h.prev] else headers[h.prev];
    var height := parent.height + 1;
    var seen := headers + (map x | x in pending && x in cached :: pending[x]);
    var found := AncestorHash(seen, h.prev, SkipHeight(height), genesis, all);
    var e := Entry(h.prev, if found.Some? then found.value else ZERO_HASH, height, h.time, h.bits, h.pon,
                   parent.work + own.value);
    TreeLinked(genesis, all);
    TreeGrows(genesis, all, h.hash, e);
    if pending.Keys <= cached { assert seen == all; }
    return Built(e);
  }

  lemma TreeLinked(genesis: Hash, hs: Index)
    requires Tree(genesis, hs)
    ensures AllLinked(hs)
  {
  }

  /** The entry is that of the first header of this hash among the first `n` of the batch. */
  ghost predicate Entered(batch: seq<NewHeader>, n: nat, x: Hash, e: Entry)
    requires n <= |batch|
  {
    exists i :: 0 <= i < n && batch[i].hash == x && Carries(e, batch[i])
      && forall k :: 0 <= k < i ==> batch[k].hash != x
  }

  lemma EnteredNow(batch: seq<NewHeader>, i: nat, e: Entry)
    requires i < |batch| && Carries(e, batch[i]) && forall k :: 0 <= k < i ==> batch[k].hash != batch[i].hash
    ensures Entered(batch, i + 1, batch[i].hash, e)
  {
  }

  /** The index with its best header. */
  class HeaderStore {
    const genesis: Hash
    const rules: (Index, NewHeader) -> bool
    var headers: Index
    var best: Option<Hash>

    /** Heights, work, skip links and the best header are right after every committed batch. */
    ghost predicate Valid()
      reads this
    {
      Tree(genesis, headers) && IsBest(headers, best)
    }

    constructor (genesis: Hash, rules: (Index, NewHeader) -> bool)
      ensures Valid() && headers == map[] && this.genesis == genesis
    {
      this.genesis := genesis;
      this.rules := rules;
      headers := map[];
      best := None;
    }

    /** Inserts a batch of headers: all of them, or none on the first failure. Every new entry holds
        what the first header of that hash in the batch says. The best header only gives way to one with
        more work; of several with the most, it is the first. */
    method InsertBatch(batch: seq<NewHeader>, cached: set<Hash>) returns (r: Option<HeaderError>)
      requires Valid() && forall i :: 0 <= i < |batch| ==> batch[i].hash != ZERO_HASH
      modifies this
      ensures Valid()
      ensures r.Some? ==> headers == old(headers) && best == old(best)
      ensures r.None? ==> forall i :: 0 <= i < |batch| ==> batch[i].hash in headers
      ensures forall x :: x in old(headers) ==> x in headers && headers[x] == old(headers)[x]
      ensures forall x :: x in headers && x !in old(headers) ==> Entered(batch, |batch|, x, headers[x])
      ensures best != old(best) ==> best.Some? && Overtakes(batch, headers, old(best), best.value)
      ensures AllCached(batch, cached) ==>
                forall x :: x in headers && x !in old(headers) && headers[x].height > 0 ==>
                  SkipsRight(headers, headers[x])
    {
      hide Tree; hide IsBest; hide Work; hide SkipsRight; hide Overtakes; hide Entered; hide Inserting;
      var pending: Index := map[];
      var top := best;
      InsertStart(genesis, batch, cached, headers, best);
      for i := 0 to |batch|
        invariant headers == old(headers) && best == old(best)
        invariant Inserting(genesis, batch, i, cached, headers, pending, best, top)
      {
        var h := batch[i];
        InsertParts(genesis, batch, i, cached, headers, pending, best, top);
        if h.hash !in pending && h.hash !in headers {
          var built := BuildEntry(genesis, headers, pending, cached, rules, h);
          if built.Refused? { return Some(built.error); }
          InsertNew(genesis, batch, i, cached, headers, pending, best, top, built.entry);
          pending := pending[h.hash := built.entry];
          if top.None? || built.entry.work > (if top.value in pending then pending[top.value]
                                              else headers[top.value]).work {
            top := Some(h.hash);
          }
        } else {
          InsertSeen(genesis, batch, i, cached, headers, pending, best, top);
        }
      }
      InsertEnd(genesis, batch, cached, headers, pending, best, top);
      headers := headers + pending;
      best := top;
      return None;
    }
  }

  ghost predicate AllCached(batch: seq<NewHeader>, cached: set<Hash>) {
    forall i :: 0 <= i < |batch| ==> batch[i].hash in cached
  }

  /** Part way through a batch: `pending` are the headers added so far and `top` is the best of all. */
  ghost predicate Inserting(genesis: Hash, batch: seq<NewHeader>, i: nat, cached: set<Hash>, headers: Index,
                            pending: Index, best: Option<Hash>, top: Option<Hash>)
    requires i <= |batch|
  {
    var all := headers + pending;
    && headers.Keys !! pending.Keys && Tree(genesis, all) && IsBest(all, top) && IsBest(headers, best)
    && (forall k :: 0 <= k < i ==> batch[k].hash in all)
    && (forall x :: x in pending ==> Entered(batch, i, x, pending[x]))
    && (top != best ==> top.Some? && Overtakes(batch, all, best, top.value))
    && (AllCached(batch, cached) ==>
          && pending.Keys <= cached
          && forall x :: x in pending && pending[x].height > 0 ==> SkipsRight(all, pending[x]))
  }

  lemma InsertStart(genesis: Hash, batch: seq<NewHeader>, cached: set<Hash>, headers: Index, best: Option<Hash>)
    requires Tree(genesis, headers) && IsBest(headers, best)
    ensures Inserting(genesis, batch, 0, cached, headers, map[], best, best)
  {
    hide Tree; hide IsBest;
    assert headers + map[] == headers;
  }

  lemma InsertParts(genesis: Hash, batch: seq<NewHeader>, i: nat, cached: set<Hash>, headers: Index, pending: Index,
                    best: Option<Hash>, top: Option<Hash>)
    requires i <= |batch| && Inserting(genesis, batch, i, cached, headers, pending, best, top)
    ensures headers.Keys !! pending.Keys && Tree(genesis, headers + pending)
    ensures top.Some? ==> top.value in headers + pending
  {
    hide Tree; hide Overtakes; hide SkipsRight; hide Entered;
  }

  lemma InsertSeen(genesis: Hash, batch: seq<NewHeader>, i: nat, cached: set<Hash>, headers: Index, pending: Index,
                   best: Option<Hash>, top: Option<Hash>)
    requires i < |batch| && Inserting(genesis, batch, i, cached, headers, pending, best, top)
             && batch[i].hash in headers + pending
    ensures Inserting(genesis, batch, i + 1, cached, headers, pending, best, top)
  {
    hide Tree; hide IsBest; hide Overtakes; hide SkipsRight;
  }

  lemma InsertNew(genesis: Hash, batch: seq<NewHeader>, i: nat, cached: set<Hash>, headers: Index, pending: Index,
                  best: Option<Hash>, top: Option<Hash>, e: Entry)
    requires i < |batch| && Inserting(genesis, batch, i, cached, headers, pending, best, top)
             && batch[i].hash !in headers + pending && Carries(e, batch[i])
             && Tree(genesis, (headers + pending)[batch[i].hash := e])
    requires pending.Keys <= cached && e.height > 0 ==> SkipsRight(headers + pending, e)
    ensures top.Some? ==> top.value in headers + pending
    ensures Inserting(genesis, batch, i + 1, cached, headers, pending[batch[i].hash := e], best,
                      if top.None? || e.work > (headers + pending)[top.value].work then Some(batch[i].hash) else top)
  {
    hide Tree; hide IsBest; hide Overtakes; hide SkipsRight; hide Entered;
    var x, before := batch[i].hash, headers + pending;
    var all := headers + pending[x := e];
    assert all == before[x := e];
    TopKnown(before, top);
    TopKnown(headers, best);
    BestAfter(before, top, x, e);
    EnteredNow(batch, i, e);
    forall y | y in pending ensures Entered(batch, i + 1, y, pending[y]) { EnteredLater(batch, i, y, pending[y]); }
    GrownBy(genesis, before, all, best, top, batch, x, e);
    if top.None? || e.work > before[top.value].work { OvertakesNow(batch, i, before, best, top, e); }
  }

  lemma EnteredLater(batch: seq<NewHeader>, i: nat, x: Hash, e: Entry)
    requires i < |batch| && Entered(batch, i, x, e)
    ensures Entered(batch, i + 1, x, e)
  {
  }

  lemma InsertEnd(genesis: Hash, batch: seq<NewHeader>, cached: set<Hash>, headers: Index, pending: Index,
                  best: Option<Hash>, top: Option<Hash>)
    requires Inserting(genesis, batch, |batch|, cached, headers, pending, best, top)
    ensures var all := headers + pending;
            && Tree(genesis, all) && IsBest(all, top) && (forall i :: 0 <= i < |batch| ==> batch[i].hash in all)
            && (forall x :: x in headers ==> x in all && all[x] == headers[x])
            && (forall x :: x in all && x !in headers ==> Entered(batch, |batch|, x, all[x]))
            && (top != best ==> top.Some? && Overtakes(batch, all, best, top.value))
            && (AllCached(batch, cached) ==>
                  forall x :: x in all && x !in headers && all[x].height > 0 ==> SkipsRight(all, all[x]))
  {
    hide Tree; hide IsBest; hide Overtakes; hide SkipsRight; hide Entered;
  }

  /** The new best header has more work than the old one and than every header before it in the batch. */
  ghost predicate Overtakes(batch: seq<NewHeader>, hs: Index, was: Option<Hash>, b: Hash) {
    && b in hs && (was.Some? ==> was.value in hs && hs[was.value].work < hs[b].work)
    && exists i :: 0 <= i < |batch| && batch[i].hash == b
         && forall k :: 0 <= k < i ==> batch[k].hash in hs && hs[batch[k].hash].work < hs[b].work
  }

  lemma OvertakesNow(batch: seq<NewHeader>, i: nat, hs: Index, was: Option<Hash>, top: Option<Hash>, e: Entry)
    requires i < |batch| && IsBest(hs, top) && batch[i].hash !in hs && (top.None? || e.work > hs[top.value].work)
    requires (forall k :: 0 <= k < i ==> batch[k].hash in hs) && (was.Some? ==> was.value in hs)
    ensures Overtakes(batch, hs[batch[i].hash := e], was, batch[i].hash)
  {
  }

  /** What was right of the headers so far stays right when one is added. */
  lemma GrownBy(genesis: Hash, hs: Index, more: Index, was: Option<Hash>, top: Option<Hash>, batch: seq<NewHeader>,
                x: Hash, e: Entry)
    requires more == hs[x := e] && x !in hs && Tree(genesis, more)
    ensures top.Some? && Overtakes(batch, hs, was, top.value) ==> Overtakes(batch, more, was, top.value)
    ensures forall d: Entry :: SkipsRight(hs, d) ==> SkipsRight(more, d)
  {
    hide SkipsRight; hide EntryRight; hide AllLinked;
    forall d: Entry | SkipsRight(hs, d) ensures SkipsRight(more, d) { SkipsKept(hs, more, d); }
  }

  lemma TopKnown(hs: Index, top: Option<Hash>)
    requires IsBest(hs, top)
    ensures top.Some? ==> top.value in hs
  {
  }

  lemma BestAfter(hs: Index, top: Option<Hash>, x: Hash, e: Entry)
    requires IsBest(hs, top) && x !in hs
    ensures top.None? || e.work > hs[top.value].work ==> IsBest(hs[x := e], Some(x))
    ensures top.Some? && e.work <= hs[top.value].work ==> IsBest(hs[x := e], top)
  {
  }
}
