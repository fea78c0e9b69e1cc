/** The transaction pool: entries, the maps inverse to them, and eviction. */
module Mempool {
  import opened Basics
  import Powers
  import opened Payees

  /** What a transaction uses up: an output, or a nullifier of either shielded pool. */
  datatype Claim = Output(o: OutPoint) | SproutNullifier(h: Hash) | SaplingNullifier(h: Hash)

  datatype Entry = Entry(
    txid: Hash, size: nat, time: nat, fee: i64, feeDelta: i64, spends: seq<OutPoint>, sprout: seq<Hash>,
    sapling: seq<Hash>, parents: seq<Hash>)

  lemma ClaimsAre(e: Entry)
    ensures var outputs := seq(|e.spends|, i requires 0 <= i < |e.spends| => Output(e.spends[i]));
            var sprout := seq(|e.sprout|, i requires 0 <= i < |e.sprout| => SproutNullifier(e.sprout[i]));
            var sapling := seq(|e.sapling|, i requires 0 <= i < |e.sapling| => SaplingNullifier(e.sapling[i]));
            forall c :: c in outputs + sprout + sapling <==>
              if c.Output? then c.o in e.spends else if c.SproutNullifier? then c.h in e.sprout else c.h in e.sapling
  {
    var outputs := seq(|e.spends|, i requires 0 <= i < |e.spends| => Output(e.spends[i]));
    var sprout := seq(|e.sprout|, i requires 0 <= i < |e.sprout| => SproutNullifier(e.sprout[i]));
    var sapling := seq(|e.sapling|, i requires 0 <= i < |e.sapling| => SaplingNullifier(e.sapling[i]));
    forall i | 0 <= i < |e.spends| ensures Output(e.spends[i]) in outputs { assert outputs[i] == Output(e.spends[i]); }
    forall i | 0 <= i < |e.sprout| ensures SproutNullifier(e.sprout[i]) in sprout {
      assert sprout[i] == SproutNullifier(e.sprout[i]);
    }
    forall i | 0 <= i < |e.sapling| ensures SaplingNullifier(e.sapling[i]) in sapling {
      assert sapling[i] == SaplingNullifier(e.sapling[i]);
    }
  }

  function ClaimsOf(e: Entry): (cs: seq<Claim>)
    ensures |cs| == |e.spends| + |e.sprout| + |e.sapling|
    ensures forall c :: c in cs <==>
              if c.Output? then c.o in e.spends else if c.SproutNullifier? then c.h in e.sprout else c.h in e.sapling
  {
    ClaimsAre(e);
    seq(|e.spends|, i requires 0 <= i < |e.spends| => Output(e.spends[i]))
    + seq(|e.sprout|, i requires 0 <= i < |e.sprout| => SproutNullifier(e.sprout[i]))
    + seq(|e.sapling|, i requires 0 <= i < |e.sapling| => SaplingNullifier(e.sapling[i]))
  }

  type Entries = map<Hash, Entry>

  // ---- the invariant ----

  predicate Held(spent: map<Claim, Hash>, c: Claim, t: Hash) { c in spent && spent[c] == t }

  predicate Claimed(entries: Entries, t: Hash, c: Claim) { t in entries && c in ClaimsOf(entries[t]) }

  predicate Child(children: map<Hash, seq<Hash>>, a: Hash, t: Hash) { a in children && t in children[a] }

  predicate Parent(entries: Entries, t: Hash, a: Hash) { t in entries && a in entries[t].parents }

  /** The spent map is the exact inverse of the claims of the entries: no two entries conflict. */
  ghost predicate SpentInverse(entries: Entries, spent: map<Claim, Hash>) {
    forall c, t :: Held(spent, c, t) <==> Claimed(entries, t, c)
  }

  /** The children map is the exact inverse of the parents of the entries. */
  ghost predicate ChildInverse(entries: Entries, children: map<Hash, seq<Hash>>) {
    forall a, t :: Child(children, a, t) <==> Parent(entries, t, a)
  }

  ghost function Total(entries: Entries): (n: nat)
    decreases |entries|
  {
    if entries == map[] then 0
    else
      var t :| t in entries;
      entries[t].size + Total(entries - {t})
  }

  ghost predicate Consistent(entries: Entries, spent: map<Claim, Hash>, children: map<Hash, seq<Hash>>, bytes: nat) {
    && (forall t :: t in entries ==> entries[t].txid == t)
    && SpentInverse(entries, spent) && ChildInverse(entries, children) && bytes == Total(entries)
  }

  lemma {:induction false} TotalWithout(entries: Entries, t: Hash)
    requires t in entries
    ensures Total(entries) == entries[t].size + Total(entries - {t})
    decreases |entries|
  {
    var k :| k in entries && Total(entries) == entries[k].size + Total(entries - {k});
    if k != t {
      TotalWithout(entries - {k}, t);
      TotalWithout(entries - {t}, k);
      assert entries - {k} - {t} == entries - {t} - {k};
    }
  }

  /** Totals look at sizes only. */
  lemma {:induction false} TotalSame(a: Entries, b: Entries)
    requires a.Keys == b.Keys && forall t :: t in a ==> a[t].size == b[t].size
    ensures Total(a) == Total(b)
    decreases |a|
  {
    if a != map[] {
      var t :| t in a && Total(a) == a[t].size + Total(a - {t});
      TotalWithout(b, t);
      TotalSame(a - {t}, b - {t});
    } else {
      assert b == map[];
    }
  }

  function Drop(s: seq<Hash>, t: Hash): (r: seq<Hash>)
    ensures forall x :: x in r <==> x in s && x != t
  {
    if s == [] then [] else (if s[0] == t then [] else [s[0]]) + Drop(s[1..], t)
  }

  // ---- what can be reached through children ----

  predicate IsPath(children: map<Hash, seq<Hash>>, path: seq<Hash>) {
    path != [] && forall i :: 0 <= i < |path| - 1 ==> Child(children, path[i], path[i + 1])
  }

  ghost predicate Reaches(children: map<Hash, seq<Hash>>, a: Hash, b: Hash) {
    exists path :: IsPath(children, path) && path[0] == a && path[|path| - 1] == b
  }

  ghost predicate Closed(children: map<Hash, seq<Hash>>, s: set<Hash>) {
    forall a, t :: a in s && Child(children, a, t) ==> t in s
  }

  lemma ReachesSelf(children: map<Hash, seq<Hash>>, a: Hash)
    ensures Reaches(children, a, a)
  {
    assert IsPath(children, [a]);
  }

  lemma ReachesThrough(children: map<Hash, seq<Hash>>, a: Hash, c: Hash, b: Hash)
    requires Child(children, a, c) && Reaches(children, c, b)
    ensures Reaches(children, a, b)
  {
    var path :| IsPath(children, path) && path[0] == c && path[|path| - 1] == b;
    var longer := [a] + path;
    forall i | 0 <= i < |longer| - 1 ensures Child(children, longer[i], longer[i + 1]) {
      if i > 0 { assert Child(children, path[i - 1], path[i]); }
    }
    assert IsPath(children, longer);
  }

  /** A closed set holds everything reachable from its members. */
  lemma {:induction false} ClosedHolds(children: map<Hash, seq<Hash>>, s: set<Hash>, path: seq<Hash>)
    requires Closed(children, s) && IsPath(children, path) && path[0] in s
    ensures path[|path| - 1] in s
    decreases |path|
  {
    if |path| > 1 {
      assert Child(children, path[0], path[1]);
      forall i | 0 <= i < |path| - 2 ensures Child(children, path[1..][i], path[1..][i + 1]) {
        assert Child(children, path[i + 1], path[i + 2]);
      }
      ClosedHolds(children, s, path[1..]);
    }
  }

  /** Everything below some set, and nothing else. */
  ghost predicate IsClosure(children: map<Hash, seq<Hash>>, t: Hash, s: set<Hash>) {
    t in s && forall x :: x in s <==> Reaches(children, t, x)
  }

  lemma ClosedIsClosure(children: map<Hash, seq<Hash>>, t: Hash, s: set<Hash>)
    requires Closed(children, s) && t in s && forall x :: x in s ==> Reaches(children, t, x)
    ensures IsClosure(children, t, s)
  {
    forall x | Reaches(children, t, x) ensures x in s {
      var path :| IsPath(children, path) && path[0] == t && path[|path| - 1] == x;
      ClosedHolds(children, s, path);
    }
  }

  /** Every transaction named by the children map. */
  ghost function Named(children: map<Hash, seq<Hash>>): (s: set<Hash>)
    ensures forall a, t :: Child(children, a, t) ==> t in s
  {
    set a, t | a in children && t in children[a] :: t
  }

  /** Depth-first walk: `visited` grows by exactly new nodes below `t`, all of whose children it then holds. */
  method Visit(children: map<Hash, seq<Hash>>, t: Hash, visited: set<Hash>, order: seq<Hash>, ghost all: set<Hash>)
    returns (visited': set<Hash>, order': seq<Hash>)
    requires t in all && Named(children) <= all && visited <= all && (forall x :: x in order ==> x in visited)
    ensures visited + {t} <= visited' <= all && order <= order'
    ensures forall x :: x in order' ==> x in visited'
    ensures forall x :: x in visited' - visited ==> Reaches(children, t, x) && x in order'
    ensures forall a, x :: a in visited' - visited && Child(children, a, x) ==> x in visited'
    decreases |all - visited|, 0, 0
  {
    hide Reaches; hide IsPath;
    if t in visited { return visited, order; }
    var kids := if t in children then children[t] else [];
    ReachesSelf(children, t);
    visited', order' := VisitKids(children, t, kids, visited + {t}, order, all);
    order' := order' + [t];
  }

  method VisitKids(children: map<Hash, seq<Hash>>, t: Hash, kids: seq<Hash>, visited: set<Hash>, order: seq<Hash>,
                   ghost all: set<Hash>)
    returns (visited': set<Hash>, order': seq<Hash>)
    requires t in visited && Named(children) <= all && visited <= all && (forall x :: x in order ==> x in visited)
    requires forall x :: x in kids ==> Child(children, t, x)
    ensures visited <= visited' <= all && order <= order' && (forall x :: x in kids ==> x in visited')
    ensures forall x :: x in order' ==> x in visited'
    ensures forall x :: x in visited' - visited ==> Reaches(children, t, x) && x in order'
    ensures forall a, x :: a in visited' - visited && Child(children, a, x) ==> x in visited'
    decreases |all - visited|, 1, |kids|
  {
    hide Reaches; hide IsPath;
    if kids == [] { return visited, order; }
    assert Child(children, t, kids[0]);
    var v, o := Visit(children, kids[0], visited, order, all);
    assert all - v <= all - visited;
    SubsetSize(all - v, all - visited);
    visited', order' := VisitKids(children, t, kids[1..], v, o, all);
    assert order' == o + order'[|o|..];
    forall x | x in v - visited ensures Reaches(children, t, x) && x in order' {
      ReachesThrough(children, t, kids[0], x);
    }
  }

  lemma {:induction false} SubsetSize(a: set<Hash>, b: set<Hash>)
    requires a <= b
    ensures |a| <= |b|
  {
    if a != {} {
      var x :| x in a;
      SubsetSize(a - {x}, b - {x});
    }
  }

  // ---- eviction order ----

  function SaturatingI64(x: int): (r: i64) { if x > I64_MAX then I64_MAX else if x < I64_MIN then I64_MIN else x }

  function ModifiedFee(e: Entry): (f: i64) { SaturatingI64(e.fee + e.feeDelta) }

  function EvictSize(e: Entry): (n: nat)
    ensures n >= 1
  {
    if e.size >= 1 then e.size else 1
  }

  /** `a` is evicted before `b`: lower fee per byte, then older, then smaller id. */
  predicate Cheaper(a: Entry, b: Entry) {
    var left, right := ModifiedFee(a) * EvictSize(b), ModifiedFee(b) * EvictSize(a);
    left < right || (left == right && (a.time < b.time || (a.time == b.time && LexLess(a.txid, b.txid))))
  }

  /** Fee rates compare like fractions. */
  lemma RatesChain(f: int, s: int, g: int, t: int, h: int, u: int)
    requires s > 0 && t > 0 && u > 0 && f * t <= g * s && g * u <= h * t
    ensures f * u <= h * s
    ensures (f * t < g * s || g * u < h * t) ==> f * u < h * s
  {
    var x, y := f * u, h * s;
    assert f * t * u <= g * s * u by { if f * t < g * s { assert (g * s - f * t) * u > 0; } }
    assert g * u * s <= h * t * s by { if g * u < h * t { assert (h * t - g * u) * s > 0; } }
    assert t * x <= t * y by { assert t * x == f * t * u && g * s * u == g * u * s && t * y == h * t * s; }
    if x > y { ScalesUp(t, y, x); }
    if f * t < g * s { assert (g * s - f * t) * u > 0; }
    if g * u < h * t { assert (h * t - g * u) * s > 0; }
  }

  lemma ScalesUp(t: int, x: int, y: int)
    requires t > 0 && x < y
    ensures t * x < t * y
  {
    Powers.Scales(t, x, y);
  }

  lemma CheaperTransitive(a: Entry, b: Entry, c: Entry)
    requires Cheaper(a, b) && Cheaper(b, c)
    ensures Cheaper(a, c)
  {
    var (f, s, g, t, h, u) := (ModifiedFee(a), EvictSize(a), ModifiedFee(b), EvictSize(b), ModifiedFee(c),
                               EvictSize(c));
    RatesChain(f, s, g, t, h, u);
    if f * t == g * s && g * u == h * t { RatesChain(h, u, g, t, f, s); }
    if LexLess(a.txid, b.txid) && LexLess(b.txid, c.txid) { LexTransitive(a.txid, b.txid, c.txid); }
  }

  lemma CheaperTotal(a: Entry, b: Entry)
    requires a.txid != b.txid
    ensures Cheaper(a, b) || Cheaper(b, a)
  {
    LexTotal(a.txid, b.txid);
  }

  /** A number cut to the range of a signed 64-bit one. */
  function Cut(x: int): (r: i64) { if x < I64_MIN then I64_MIN else if I64_MAX < x then I64_MAX else x }

  /** `a` leaves the pool before `b`: it pays less per byte, fee and adjustment together, or as much and
      is older, or was seen at the same time and has the smaller id. */
  ghost predicate LeavesFirst(a: Entry, b: Entry) {
    var f, g := Cut(a.fee + a.feeDelta), Cut(b.fee + b.feeDelta);
    var n, m := if a.size == 0 then 1 else a.size, if b.size == 0 then 1 else b.size;
    && f * m <= g * n
    && (f * m == g * n ==> a.time <= b.time && (a.time == b.time ==> SmallerAtFirst(a.txid, b.txid)))
  }

  /** Cross-multiplying compares what is paid per byte. */
  lemma CheaperMeans(a: Entry, b: Entry)
    ensures Cheaper(a, b) <==> LeavesFirst(a, b)
  {
    hide LexLess; hide SmallerAtFirst;
    LexMeans(a.txid, b.txid);
  }

  /** The entry to evict first among some of the entries. */
  method Cheapest(entries: Entries, left: set<Hash>) returns (t: Hash)
    requires left != {} && left <= entries.Keys && forall x :: x in entries ==> entries[x].txid == x
    ensures t in left && forall x :: x in left && x != t ==> LeavesFirst(entries[t], entries[x])
  {
    hide Cheaper; hide LeavesFirst;
    t :| t in left;
    var rest := left - {t};
    while rest != {}
      invariant t in left && rest <= left && t !in rest
      invariant forall x :: x in left - rest && x != t ==> Cheaper(entries[t], entries[x])
    {
      var k :| k in rest;
      rest := rest - {k};
      CheaperTotal(entries[t], entries[k]);
      if Cheaper(entries[k], entries[t]) {
        forall x | x in left - rest && x != k ensures Cheaper(entries[k], entries[x]) {
          if x != t { CheaperTransitive(entries[k], entries[t], entries[x]); }
        }
        t := k;
      }
    }
    forall x | x in left && x != t ensures LeavesFirst(entries[t], entries[x]) {
      CheaperMeans(entries[t], entries[x]);
    }
  }

  // ---- the three steps of a removal ----

  method ReleaseClaims(spent: map<Claim, Hash>, claims: seq<Claim>, t: Hash) returns (r: map<Claim, Hash>)
    ensures forall c, x :: Held(r, c, x) <==> Held(spent, c, x) && !(x == t && c in claims)
  {
    r := spent;
    for i := 0 to |claims|
      invariant forall c, x :: Held(r, c, x) <==> Held(spent, c, x) && !(x == t && c in claims[..i])
    {
      ghost var before := r;
      if claims[i] in r && r[claims[i]] == t { r := r - {claims[i]}; }
      forall c, x ensures Held(r, c, x) <==> Held(spent, c, x) && !(x == t && c in claims[..i + 1]) {
        assert Held(before, c, x) <==> Held(spent, c, x) && !(x == t && c in claims[..i]);
        assert claims[..i + 1] == claims[..i] + [claims[i]];
      }
    }
    assert claims[..|claims|] == claims;
  }

  method Unlink(children: map<Hash, seq<Hash>>, parents: seq<Hash>, t: Hash) returns (r: map<Hash, seq<Hash>>)
    ensures forall a, x :: Child(r, a, x) <==> Child(children, a, x) && !(x == t && a in parents)
  {
    r := children;
    for i := 0 to |parents|
      invariant forall a, x :: Child(r, a, x) <==> Child(children, a, x) && !(x == t && a in parents[..i])
    {
      ghost var before := r;
      var a := parents[i];
      if a in r {
        var kept := Drop(r[a], t);
        r := if kept == [] then r - {a} else r[a := kept];
        NoneKept(before[a], t);
      }
      forall b, x ensures Child(r, b, x) <==> Child(children, b, x) && !(x == t && b in parents[..i + 1]) {
        assert Child(before, b, x) <==> Child(children, b, x) && !(x == t && b in parents[..i]);
        assert parents[..i + 1] == parents[..i] + [parents[i]];
      }
    }
    assert parents[..|parents|] == parents;
  }

  lemma NoneKept(s: seq<Hash>, t: Hash)
    ensures Drop(s, t) == [] ==> forall x :: x in s ==> x == t
  {
  }

  lemma {:induction false} DropNothing(s: seq<Hash>, t: Hash)
    requires t !in s
    ensures Drop(s, t) == s
  {
    if s != [] { DropNothing(s[1..], t); }
  }

  /** Entry `e` without the parent `t`. */
  function Orphaned(e: Entry, t: Hash): (r: Entry) { e.(parents := Drop(e.parents, t)) }

  lemma OrphanedTwice(e: Entry, t: Hash)
    ensures Orphaned(Orphaned(e, t), t) == Orphaned(e, t)
  {
    DropNothing(Drop(e.parents, t), t);
  }

  method OrphanKids(entries: Entries, kids: seq<Hash>, t: Hash) returns (r: Entries)
    ensures r.Keys == entries.Keys
    ensures forall x :: x in r ==> r[x] == if x in kids then Orphaned(entries[x], t) else entries[x]
  {
    hide Orphaned;
    r := entries;
    for i := 0 to |kids|
      invariant r.Keys == entries.Keys
      invariant forall x :: x in r ==> r[x] == if x in kids[..i] then Orphaned(entries[x], t) else entries[x]
    {
      assert kids[..i + 1] == kids[..i] + [kids[i]];
      if kids[i] in r {
        OrphanedTwice(entries[kids[i]], t);
        r := r[kids[i] := Orphaned(r[kids[i]], t)];
      }
    }
    assert kids[..|kids|] == kids;
  }

  /** Taking one entry out keeps every map the inverse of what is left. */
  lemma RemovalKeeps(entries: Entries, spent: map<Claim, Hash>, children: map<Hash, seq<Hash>>, bytes: nat, t: Hash,
                     left: Entries, spent': map<Claim, Hash>, unlinked: map<Hash, seq<Hash>>,
                         children': map<Hash, seq<Hash>>)
    requires Consistent(entries, spent, children, bytes) && t in entries
    requires forall c, x :: Held(spent', c, x) <==> Held(spent, c, x) && !(x == t && c in ClaimsOf(entries[t]))
    requires forall a, x :: Child(unlinked, a, x) <==> Child(children, a, x) && !(x == t && a in entries[t].parents)
    requires children' == unlinked - {t} && left.Keys == entries.Keys - {t}
    requires forall x :: x in left ==> left[x] == if Child(unlinked, t, x) then Orphaned(entries[x], t) else entries[x]
    ensures forall x :: x in left ==> left[x] == Orphaned(entries[x], t)
    ensures bytes >= entries[t].size && Consistent(left, spent', children', bytes - entries[t].size)
  {
    hide ClaimsOf; hide Total;
    forall x | x in left ensures left[x] == Orphaned(entries[x], t) {
      assert Child(unlinked, t, x) <==> Child(children, t, x);
      assert Child(children, t, x) <==> Parent(entries, x, t);
      if !Parent(entries, x, t) { DropNothing(entries[x].parents, t); }
    }
    forall c, x ensures Held(spent', c, x) <==> Claimed(left, x, c) {
      assert Held(spent, c, x) <==> Claimed(entries, x, c);
      if x in left { SameClaims(entries[x], t); }
    }
    forall a, x ensures Child(children', a, x) <==> Parent(left, x, a) {
      assert Child(children, a, x) <==> Parent(entries, x, a);
    }
    TotalWithout(entries, t);
    TotalSame(left, entries - {t});
  }

  lemma SameClaims(e: Entry, t: Hash)
    ensures ClaimsOf(Orphaned(e, t)) == ClaimsOf(e)
  {
  }

  // ---- the pool ----

  /** Every parent of an entry is in the pool. */
  ghost predicate Rooted(entries: Entries) { forall t, a :: Parent(entries, t, a) ==> a in entries }

  ghost function SizeSum(es: seq<Entry>): (n: nat) {
    if es == [] then 0 else SizeSum(es[..|es| - 1]) + es[|es| - 1].size
  }

  /** The entries outside a set, unchanged. */
  ghost predicate Keeps(before: Entries, after: Entries, gone: set<Hash>) {
    after.Keys == before.Keys - gone && forall x :: x in after ==> after[x] == before[x]
  }

  datatype Outcome = Outcome(evicted: nat, bytes: nat, txids: seq<Hash>)

  datatype InsertResult = Inserted(outcome: Outcome) | TooLarge | AlreadyInPool | Conflict | Full

  class TxPool {
    var entries: Entries
    var spent: map<Claim, Hash>
    var children: map<Hash, seq<Hash>>
    var deltas: map<Hash, i64>
    var totalBytes: nat
    const maxBytes: nat

    ghost predicate Valid()
      reads this
    {
      Consistent(entries, spent, children, totalBytes)
    }

    constructor (maxBytes: nat)
      ensures Valid() && entries == map[] && totalBytes == 0 && this.maxBytes == maxBytes
    {
      entries := map[];
      spent := map[];
      children := map[];
      deltas := map[];
      totalBytes := 0;
      this.maxBytes := maxBytes;
    }

    /** Takes one entry out; entries that named it as a parent no longer do. */
    method Remove(t: Hash) returns (r: Option<Entry>)
      requires Valid()
      modifies this
      ensures Valid() && deltas == old(deltas)
      ensures r == if t in old(entries) then Some(old(entries)[t]) else None
      ensures entries.Keys == old(entries).Keys - {t}
      ensures t !in old(entries) ==>
                entries == old(entries) && totalBytes == old(totalBytes) && children == old(children)
                    && spent == old(spent)
      ensures t in old(entries) ==> old(totalBytes) == totalBytes + old(entries)[t].size
      ensures forall x :: x in entries ==>
                entries[x] == if t in old(entries) then Orphaned(old(entries)[x], t) else old(entries)[x]
    {
      hide Consistent; hide Orphaned; hide ClaimsOf;
      if t !in entries { return None; }
      var e := entries[t];
      var released := ReleaseClaims(spent, ClaimsOf(e), t);
      var unlinked := Unlink(children, e.parents, t);
      var kids := if t in unlinked then unlinked[t] else [];
      var left := OrphanKids(entries - {t}, kids, t);
      RemovalKeeps(entries, spent, children, totalBytes, t, left, released, unlinked, unlinked - {t});
      spent := released;
      children := unlinked - {t};
      entries := left;
      totalBytes := totalBytes - e.size;
      return Some(e);
    }

    /** Takes out a transaction and everything below it: exactly the entries reachable from it. */
    method RemoveWithDescendants(t: Hash) returns (removed: seq<Entry>, ghost gone: set<Hash>)
      requires Valid()
      modifies this
      ensures Valid() && deltas == old(deltas)
      ensures IsClosure(old(children), t, gone) && Keeps(old(entries), entries, gone)
      ensures forall x :: x in old(entries) && x in gone <==> Listed(removed, x)
      ensures old(totalBytes) == totalBytes + SizeSum(removed)
      ensures Rooted(old(entries)) ==> Rooted(entries)
    {
      hide Consistent; hide IsClosure; hide Closed; hide Drop; hide Reaches; hide Done; hide Rooted; hide Listed;
      hide SizeSum;
      ghost var first, kids, bytes := entries, children, totalBytes;
      Parts(entries, spent, children, totalBytes);
      var order;
      gone, order := Collect(children, t);
      removed := [];
      NoneDone(order, first);
      for i := 0 to |order|
        invariant Valid() && deltas == old(deltas) && entries.Keys == first.Keys - Done(order, i)
        invariant forall x :: x in entries && x !in gone ==> x in first && entries[x] == first[x]
        invariant forall x :: x in entries ==> x in first && entries[x].size == first[x].size && entries[x].txid == x
        invariant forall x :: x in first && x in Done(order, i) <==> Listed(removed, x)
        invariant bytes == totalBytes + SizeSum(removed)
      {
        ghost var list := removed;
        DoneSnoc(order, i);
        OutsideUntouched(first, kids, gone, order[i], entries);
        var r := Remove(order[i]);
        if r.Some? {
          ListedSnoc(removed, r.value);
          removed := removed + [r.value];
        }
      }
      DoneAll(order, gone);
      RootsKept(first, kids, entries, gone);
    }

    /** Evicts the cheapest entries with everything below them until the pool fits, and no longer:
        before the last one was taken the pool was over the limit. */
    method EvictToFit() returns (r: Outcome, ghost ev: Eviction)
      requires Valid()
      modifies this
      ensures Valid() && deltas == old(deltas) && totalBytes <= maxBytes
      ensures Keeps(old(entries), entries, old(entries).Keys - entries.Keys)
      ensures old(totalBytes) == totalBytes + r.bytes && r.evicted == |r.txids|
      ensures forall x :: x in r.txids <==> x in old(entries) && x !in entries
      ensures Chosen(old(entries), old(children), entries, ev.roots)
      ensures Rooted(old(entries)) ==> Rooted(entries)
      ensures old(totalBytes) <= maxBytes ==> entries == old(entries)
      ensures old(totalBytes) > maxBytes ==> Stopped(old(entries), old(children), entries, ev, maxBytes)
    {
      hide Consistent; hide Rooted; hide SizeSum; hide Listed; hide IsClosure; hide Evicting; hide Keeps;
      hide LeavesFirst; hide Stopped; hide Chosen; hide Total;
      ghost var first, kids := entries, children;
      Parts(entries, spent, children, totalBytes);
      var start := entries;
      var left := entries.Keys;
      r := Outcome(0, 0, []);
      ghost var roots := {};
      ev := Eviction({}, ZERO_HASH, map[]);
      EvictStart(entries, children);
      while left != {}
        invariant Valid() && deltas == old(deltas) && left <= start.Keys
                  && Evicting(first, kids, entries, left, roots, r.txids)
        invariant old(totalBytes) == totalBytes + r.bytes && r.evicted == |r.txids|
        invariant Rooted(first) ==> Rooted(entries)
        invariant old(totalBytes) <= maxBytes ==> entries == first
        invariant ev.roots == roots && if left == start.Keys then totalBytes == old(totalBytes)
                  else Stopped(first, kids, entries, ev, maxBytes)
        decreases |left|
      {
        if totalBytes <= maxBytes { break; }
        var t := Cheapest(start, left);
        ghost var before, links := entries, children;
        Parts(entries, spent, children, totalBytes);
        var removed;
        ghost var gone;
        removed, gone := RemoveWithDescendants(t);
        var ids := IdsOf(removed);
        EvictStep(first, kids, before, links, left, roots, r.txids, t, gone, entries, ids);
        StoppedStep(first, kids, before, links, left, roots, r.txids, t, gone, entries, maxBytes);
        ev := Eviction(roots + {t}, t, before);
        left := left - {t};
        roots := roots + {t};
        r := Outcome(r.evicted + |removed|, r.bytes + SizeTotal(removed), r.txids + ids);
      }
      EvictEnd(first, kids, entries, left, roots, r.txids);
      if entries == map[] { EmptyTotal(entries, spent, children, totalBytes); }
    }

    /** Changes the fee a transaction is ranked by, now or when it arrives. */
    method Prioritise(t: Hash, delta: i64)
      requires Valid()
      modifies this
      ensures Valid() && entries.Keys == old(entries).Keys && totalBytes == old(totalBytes)
              && children == old(children) && spent == old(spent)
      ensures deltas == old(deltas)[t := Cut((if t in old(deltas) then old(deltas)[t] else 0) + delta)]
      ensures forall x :: x in entries ==>
                var was := old(entries)[x];
                entries[x] == if x == t then was.(feeDelta := Cut(was.feeDelta + delta)) else was
    {
      hide Consistent;
      deltas := deltas[t := SaturatingI64(DeltaOf(deltas, t) + delta)];
      if t in entries {
        ShiftKeeps(entries, spent, children, totalBytes, t, delta);
        entries := entries[t := Shifted(entries[t], delta)];
      }
    }

    /** Adds an entry that conflicts with nothing, then evicts until the pool fits. The newcomer
        itself may be evicted, in which case the caller is told the pool is full. */
    method Insert(entry: Entry) returns (r: InsertResult, ghost ev: Eviction, ghost links: map<Hash, seq<Hash>>)
      requires Valid()
      modifies this
      ensures Valid() && deltas == old(deltas)
      ensures r.TooLarge? <==> maxBytes > 0 && entry.size > maxBytes
      ensures r.AlreadyInPool? <==> !r.TooLarge? && entry.txid in old(entries)
      ensures r.Conflict? <==> !r.TooLarge? && !r.AlreadyInPool? && exists c :: c in ClaimsOf(entry) && c in old(spent)
      ensures !r.Inserted? && !r.Full? ==>
                entries == old(entries) && spent == old(spent) && children == old(children)
                    && totalBytes == old(totalBytes)
      ensures r.Inserted? || r.Full? ==>
                var e := Adjusted(entry, deltas);
                var all := old(entries)[entry.txid := e];
                && Keeps(all, entries, all.Keys - entries.Keys)
                && (r.Inserted? <==> entry.txid in entries)
                && (maxBytes > 0 ==> totalBytes <= maxBytes)
                && (maxBytes == 0 || old(totalBytes) + entry.size <= maxBytes ==> entries == all)
                && (Rooted(old(entries)) && (forall a :: a in entry.parents ==> a in old(entries)) ==> Rooted(entries))
                && ChildInverse(all, links) && Chosen(all, links, entries, ev.roots)
                && (maxBytes > 0 && old(totalBytes) + entry.size > maxBytes ==>
                      Stopped(all, links, entries, ev, maxBytes))
      ensures r.Inserted? ==>
                && old(totalBytes) + entry.size == totalBytes + r.outcome.bytes
                && r.outcome.evicted == |r.outcome.txids|
                && forall x :: x in r.outcome.txids <==> x in old(entries) && x !in entries
    {
      hide Consistent; hide Rooted; hide Shifted; hide Adjusted; hide ClaimsOf; hide LeavesFirst; hide Keeps;
      hide Chosen; hide Stopped; hide ChildInverse;
      ev := Eviction({}, ZERO_HASH, map[]);
      links := children;
      var t := entry.txid;
      var e := Shifted(entry, DeltaOf(deltas, t));
      ShiftedSame(entry, DeltaOf(deltas, t));
      ShiftedIs(entry, deltas);
      if maxBytes > 0 && e.size > maxBytes { return TooLarge, ev, links; }
      if t in entries { return AlreadyInPool, ev, links; }
      var free := AllFree(spent, ClaimsOf(e));
      if !free { return Conflict, ev, links; }
      var claimed := TakeClaims(spent, ClaimsOf(e), t);
      var linked := Link(children, e.parents, t);
      InsertKeeps(entries, spent, children, totalBytes, e, claimed, linked);
      InsertRooted(entries, e);
      spent := claimed;
      totalBytes := totalBytes + e.size;
      entries := entries[t := e];
      children := linked;
      links := linked;
      ghost var all := entries;
      var outcome := Outcome(0, 0, []);
      KeepsAll(all);
      NoneChosen(all, links);
      Parts(entries, spent, children, totalBytes);
      if maxBytes > 0 && totalBytes > maxBytes {
        outcome, ev := EvictToFit();
      }
      KeepsKeys(all, entries);
      if maxBytes > 0 && t !in entries { return Full, ev, links; }
      return Inserted(outcome), ev, links;
    }
  }

  /** Part way through an eviction: `left` are the candidates not looked at yet. */
  ghost predicate Evicting(first: Entries, kids: map<Hash, seq<Hash>>, now: Entries, left: set<Hash>, roots: set<Hash>,
                           txids: seq<Hash>) {
    && left <= first.Keys && now.Keys <= left && roots <= first.Keys && roots !! left
    && (forall x :: x in now ==> x in first && now[x] == first[x])
    && (forall x :: x in txids <==> x in first && x !in now)
    && (forall c, x :: c in roots && x in left ==> LeavesFirst(first[c], first[x]))
    && (forall x :: x in first && x !in now ==> Below(kids, roots, x))
    && Closed(kids, first.Keys - now.Keys)
  }

  lemma EvictStart(first: Entries, kids: map<Hash, seq<Hash>>)
    ensures Evicting(first, kids, first, first.Keys, {}, [])
  {
  }

  lemma EvictStep(first: Entries, kids: map<Hash, seq<Hash>>, now: Entries, links: map<Hash, seq<Hash>>,
                  left: set<Hash>, roots: set<Hash>, txids: seq<Hash>, t: Hash, gone: set<Hash>, after: Entries,
                      ids: seq<Hash>)
    requires ChildInverse(first, kids) && ChildInverse(now, links) && Evicting(first, kids, now, left, roots, txids)
    requires t in left && t in first
             && (forall x :: x in left && x != t && x in first ==> LeavesFirst(first[t], first[x]))
    requires IsClosure(links, t, gone) && Keeps(now, after, gone) && forall x :: x in ids <==> x in now && x in gone
    ensures Evicting(first, kids, after, left - {t}, roots + {t}, txids + ids)
  {
    hide LeavesFirst; hide Reaches; hide Below; hide ChildInverse; hide IsClosure;
    ClosureHas(links, t, gone);
    BelowMore(first, kids, now, links, roots + {t}, t, gone);
    forall x | x in first && x !in after ensures Below(kids, roots + {t}, x) {
      if x !in now { BelowGrows(kids, roots, t, x); }
    }
    forall x ensures x in txids + ids <==> x in first && x !in after {}
    StaysClosed(first, kids, now, links, t, gone, after);
  }

  lemma StaysClosed(first: Entries, kids: map<Hash, seq<Hash>>, now: Entries, links: map<Hash, seq<Hash>>, t: Hash,
                    gone: set<Hash>, after: Entries)
    requires ChildInverse(first, kids) && ChildInverse(now, links) && Closed(kids, first.Keys - now.Keys)
    requires (forall x :: x in now ==> x in first && now[x] == first[x]) && IsClosure(links, t, gone)
             && Keeps(now, after, gone)
    ensures Closed(kids, first.Keys - after.Keys)
  {
    hide Reaches;
    forall a, b | a in first.Keys - after.Keys && Child(kids, a, b) ensures b in first.Keys - after.Keys {
      assert Parent(first, b, a);
      if a in now && b in now {
        assert Parent(now, b, a);
        ClosureGrows(links, t, a, b);
      }
    }
  }

  lemma ClosureGrows(children: map<Hash, seq<Hash>>, t: Hash, a: Hash, b: Hash)
    requires Reaches(children, t, a) && Child(children, a, b)
    ensures Reaches(children, t, b)
  {
    var path :| IsPath(children, path) && path[0] == t && path[|path| - 1] == a;
    var longer := path + [b];
    assert IsPath(children, longer) && longer[0] == t && longer[|longer| - 1] == b;
  }

  lemma ClosureHas(children: map<Hash, seq<Hash>>, t: Hash, gone: set<Hash>)
    requires IsClosure(children, t, gone)
    ensures t in gone && forall x :: x in gone ==> Reaches(children, t, x)
  {
  }

  lemma BelowGrows(children: map<Hash, seq<Hash>>, roots: set<Hash>, t: Hash, x: Hash)
    requires Below(children, roots, x)
    ensures Below(children, roots + {t}, x)
  {
    var c :| c in roots && Reaches(children, c, x);
    assert c in roots + {t};
  }

  lemma EvictEnd(first: Entries, kids: map<Hash, seq<Hash>>, now: Entries, left: set<Hash>, roots: set<Hash>,
                 txids: seq<Hash>)
    requires Evicting(first, kids, now, left, roots, txids)
    ensures Keeps(first, now, first.Keys - now.Keys) && Chosen(first, kids, now, roots)
    ensures forall x :: x in txids <==> x in first && x !in now
    ensures roots !! left && (left == {} ==> now == map[])
  {
    hide LeavesFirst; hide Below; hide Closed;
    forall x | x in first && Below(kids, roots, x) ensures x !in now { BelowGone(first, kids, now, roots, x); }
  }

  lemma BelowGone(first: Entries, kids: map<Hash, seq<Hash>>, now: Entries, roots: set<Hash>, x: Hash)
    requires Closed(kids, first.Keys - now.Keys) && roots <= first.Keys - now.Keys && Below(kids, roots, x)
    ensures x !in now
  {
    var c :| c in roots && Reaches(kids, c, x);
    var path :| IsPath(kids, path) && path[0] == c && path[|path| - 1] == x;
    ClosedHolds(kids, first.Keys - now.Keys, path);
  }

  /** `x` is below one of the roots. */
  ghost predicate Below(children: map<Hash, seq<Hash>>, roots: set<Hash>, x: Hash) {
    exists c :: c in roots && Reaches(children, c, x)
  }

  /** What was evicted is exactly what lies below the roots, and every root was cheaper than every entry kept. */
  ghost predicate Chosen(first: Entries, children: map<Hash, seq<Hash>>, kept: Entries, roots: set<Hash>) {
    && roots <= first.Keys
    && (forall c, x :: c in roots && x in kept && x in first ==> LeavesFirst(first[c], first[x]))
    && (forall x :: x in first ==> (x !in kept <==> Below(children, roots, x)))
  }

  /** The roots of an eviction, the last of them, and the entries there were before it was taken. */
  datatype Eviction = Eviction(roots: set<Hash>, last: Hash, prev: Entries)

  /** Before the last root was taken the pool did not fit, and the earlier roots account for what was
      gone by then. */
  ghost predicate Stopped(first: Entries, children: map<Hash, seq<Hash>>, kept: Entries, ev: Eviction, limit: nat) {
    && ev.last in ev.roots && Total(ev.prev) > limit && Keeps(first, ev.prev, first.Keys - ev.prev.Keys)
    && Chosen(first, children, ev.prev, ev.roots - {ev.last}) && kept.Keys <= ev.prev.Keys
    && forall x :: x in ev.prev && x !in kept ==> Reaches(children, ev.last, x)
  }

  lemma StoppedStep(first: Entries, kids: map<Hash, seq<Hash>>, now: Entries, links: map<Hash, seq<Hash>>,
                    left: set<Hash>, roots: set<Hash>, txids: seq<Hash>, t: Hash, gone: set<Hash>, after: Entries,
                        limit: nat)
    requires ChildInverse(first, kids) && ChildInverse(now, links) && Evicting(first, kids, now, left, roots, txids)
             && t in left
    requires IsClosure(links, t, gone) && Keeps(now, after, gone) && Total(now) > limit
    ensures Stopped(first, kids, after, Eviction(roots + {t}, t, now), limit)
  {
    hide LeavesFirst; hide Reaches; hide ChildInverse; hide IsClosure; hide Total; hide Chosen; hide Evicting;
    hide Below;
    EvictEnd(first, kids, now, left, roots, txids);
    assert roots + {t} - {t} == roots;
    ClosureHas(links, t, gone);
    BelowMore(first, kids, now, links, {t}, t, gone);
    forall x | x in now && x !in after ensures Reaches(kids, t, x) { BelowOne(kids, t, x); }
  }

  lemma BelowOne(children: map<Hash, seq<Hash>>, t: Hash, x: Hash)
    requires Below(children, {t}, x)
    ensures Reaches(children, t, x)
  {
  }

  /** With fewer entries there are fewer links, so fewer descendants. */
  lemma BelowMore(first: Entries, kids: map<Hash, seq<Hash>>, before: Entries, links: map<Hash, seq<Hash>>,
                  roots: set<Hash>, t: Hash, gone: set<Hash>)
    requires ChildInverse(first, kids) && ChildInverse(before, links) && t in roots
    requires forall x :: x in before ==> x in first && before[x] == first[x]
    requires forall x :: x in gone ==> Reaches(links, t, x)
    ensures forall x :: x in gone ==> Below(kids, roots, x)
  {
    forall a, x | Child(links, a, x) ensures Child(kids, a, x) {
      assert Parent(before, x, a);
      assert Parent(first, x, a);
    }
    forall x | x in gone ensures Below(kids, roots, x) {
      var path :| IsPath(links, path) && path[0] == t && path[|path| - 1] == x;
      assert IsPath(kids, path);
      assert Reaches(kids, t, x);
    }
  }

  lemma EmptyTotal(entries: Entries, spent: map<Claim, Hash>, children: map<Hash, seq<Hash>>, bytes: nat)
    requires Consistent(entries, spent, children, bytes) && entries == map[]
    ensures bytes == 0
  {
  }

  function SizeTotal(es: seq<Entry>): (n: nat)
    ensures n == SizeSum(es)
  {
    if es == [] then 0 else SizeTotal(es[..|es| - 1]) + es[|es| - 1].size
  }

  method IdsOf(es: seq<Entry>) returns (ids: seq<Hash>)
    ensures |ids| == |es| && forall x :: x in ids <==> Listed(es, x)
  {
    ids := [];
    for i := 0 to |es|
      invariant |ids| == i && forall k :: 0 <= k < i ==> ids[k] == es[k].txid
    {
      ids := ids + [es[i].txid];
    }
  }

  ghost predicate Listed(es: seq<Entry>, x: Hash) { exists i :: 0 <= i < |es| && es[i].txid == x }

  ghost function Done(order: seq<Hash>, n: nat): (s: set<Hash>)
    requires n <= |order|
  {
    set k | 0 <= k < n :: order[k]
  }

  lemma DoneSnoc(order: seq<Hash>, i: nat)
    requires i < |order|
    ensures Done(order, i + 1) == Done(order, i) + {order[i]}
  {
  }

  lemma NoneDone(order: seq<Hash>, first: Entries)
    ensures Done(order, 0) == {} && SizeSum([]) == 0 && first.Keys - {} == first.Keys
    ensures forall x :: !Listed([], x)
  {
  }

  lemma DoneAll(order: seq<Hash>, s: set<Hash>)
    requires forall x :: x in order <==> x in s
    ensures Done(order, |order|) == s
  {
  }

  lemma ListedSnoc(es: seq<Entry>, e: Entry)
    ensures forall x :: Listed(es + [e], x) <==> Listed(es, x) || x == e.txid
    ensures SizeSum(es + [e]) == SizeSum(es) + e.size
  {
    var longer := es + [e];
    assert longer[..|es|] == es && longer[|es|] == e;
    forall x ensures Listed(longer, x) <==> Listed(es, x) || x == e.txid {
      if Listed(es, x) { var i :| 0 <= i < |es| && es[i].txid == x; assert longer[i].txid == x; }
    }
  }

  lemma Parts(entries: Entries, spent: map<Claim, Hash>, children: map<Hash, seq<Hash>>, bytes: nat)
    requires Consistent(entries, spent, children, bytes)
    ensures ChildInverse(entries, children) && bytes == Total(entries) && forall x :: x in entries ==>
              entries[x].txid == x
  {
  }

  method Collect(children: map<Hash, seq<Hash>>, t: Hash) returns (ghost gone: set<Hash>, order: seq<Hash>)
    ensures IsClosure(children, t, gone) && Closed(children, gone) && forall x :: x in order <==> x in gone
  {
    hide Reaches; hide IsPath;
    var visited;
    visited, order := Visit(children, t, {}, [], Named(children) + {t});
    gone := visited;
    ClosedIsClosure(children, t, gone);
  }

  /** Outside a closed set nothing has a parent in it. */
  lemma OutsideUntouched(first: Entries, kids: map<Hash, seq<Hash>>, gone: set<Hash>, t: Hash, now: Entries)
    requires ChildInverse(first, kids) && Closed(kids, gone) && t in gone
    requires forall x :: x in now && x !in gone ==> x in first && now[x] == first[x]
    ensures forall x :: x in now && x !in gone ==> Orphaned(now[x], t) == now[x]
  {
    forall x | x in now && x !in gone ensures Orphaned(now[x], t) == now[x] {
      assert Child(kids, t, x) <==> Parent(first, x, t);
      DropNothing(now[x].parents, t);
    }
  }

  lemma RootsKept(first: Entries, kids: map<Hash, seq<Hash>>, now: Entries, gone: set<Hash>)
    requires ChildInverse(first, kids) && Closed(kids, gone) && Keeps(first, now, gone)
    ensures Rooted(first) ==> Rooted(now)
  {
    if Rooted(first) {
      forall t, a | Parent(now, t, a) ensures a in now {
        assert Parent(first, t, a);
        assert Child(kids, a, t);
      }
    }
  }

  // ---- insertion ----

  function DeltaOf(deltas: map<Hash, i64>, t: Hash): (d: i64) { if t in deltas then deltas[t] else 0 }

  function Shifted(e: Entry, delta: i64): (r: Entry) { e.(feeDelta := SaturatingI64(e.feeDelta + delta)) }

  /** An entry with the adjustment asked for its transaction added. */
  function Adjusted(e: Entry, deltas: map<Hash, i64>): (r: Entry) {
    if e.txid in deltas then e.(feeDelta := Cut(e.feeDelta + deltas[e.txid])) else e
  }

  lemma ShiftedIs(e: Entry, deltas: map<Hash, i64>)
    ensures Shifted(e, DeltaOf(deltas, e.txid)) == Adjusted(e, deltas)
  {
  }

  lemma ShiftedSame(e: Entry, delta: i64)
    ensures var r := Shifted(e, delta);
            r.txid == e.txid && r.size == e.size && r.parents == e.parents && ClaimsOf(r) == ClaimsOf(e)
  {
  }

  lemma ShiftKeeps(entries: Entries, spent: map<Claim, Hash>, children: map<Hash, seq<Hash>>, bytes: nat, t: Hash,
                   delta: i64)
    requires Consistent(entries, spent, children, bytes) && t in entries
    ensures Consistent(entries[t := Shifted(entries[t], delta)], spent, children, bytes)
  {
    hide ClaimsOf; hide Total; hide Shifted;
    ShiftedSame(entries[t], delta);
    var after := entries[t := Shifted(entries[t], delta)];
    forall c, x ensures Held(spent, c, x) <==> Claimed(after, x, c) {
      assert Held(spent, c, x) <==> Claimed(entries, x, c);
    }
    forall a, x ensures Child(children, a, x) <==> Parent(after, x, a) {
      assert Child(children, a, x) <==> Parent(entries, x, a);
    }
    TotalSame(after, entries);
  }

  method AllFree(spent: map<Claim, Hash>, claims: seq<Claim>) returns (free: bool)
    ensures free <==> forall c :: c in claims ==> c !in spent
  {
    for i := 0 to |claims|
      invariant forall k :: 0 <= k < i ==> claims[k] !in spent
    {
      if claims[i] in spent { return false; }
    }
    return true;
  }

  method TakeClaims(spent: map<Claim, Hash>, claims: seq<Claim>, t: Hash) returns (r: map<Claim, Hash>)
    ensures forall c, x :: Held(r, c, x) <==> if c in claims then x == t else Held(spent, c, x)
  {
    r := spent;
    for i := 0 to |claims|
      invariant forall c, x :: Held(r, c, x) <==> if c in claims[..i] then x == t else Held(spent, c, x)
    {
      ghost var before := r;
      r := r[claims[i] := t];
      forall c, x ensures Held(r, c, x) <==> if c in claims[..i + 1] then x == t else Held(spent, c, x) {
        assert Held(before, c, x) <==> if c in claims[..i] then x == t else Held(spent, c, x);
        assert claims[..i + 1] == claims[..i] + [claims[i]];
      }
    }
    assert claims[..|claims|] == claims;
  }

  method Link(children: map<Hash, seq<Hash>>, parents: seq<Hash>, t: Hash) returns (r: map<Hash, seq<Hash>>)
    ensures forall a, x :: Child(r, a, x) <==> Child(children, a, x) || (x == t && a in parents)
  {
    r := children;
    for i := 0 to |parents|
      invariant forall a, x :: Child(r, a, x) <==> Child(children, a, x) || (x == t && a in parents[..i])
    {
      ghost var before := r;
      var kids := if parents[i] in r then r[parents[i]] else [];
      r := r[parents[i] := if t in kids then kids else kids + [t]];
      forall a, x ensures Child(r, a, x) <==> Child(children, a, x) || (x == t && a in parents[..i + 1]) {
        assert Child(before, a, x) <==> Child(children, a, x) || (x == t && a in parents[..i]);
        assert parents[..i + 1] == parents[..i] + [parents[i]];
      }
    }
    assert parents[..|parents|] == parents;
  }

  lemma InsertKeeps(entries: Entries, spent: map<Claim, Hash>, children: map<Hash, seq<Hash>>, bytes: nat, e: Entry,
                    claimed: map<Claim, Hash>, linked: map<Hash, seq<Hash>>)
    requires Consistent(entries, spent, children, bytes) && e.txid !in entries && forall c :: c in ClaimsOf(e) ==>
               c !in spent
    requires forall c, x :: Held(claimed, c, x) <==> if c in ClaimsOf(e) then x == e.txid else Held(spent, c, x)
    requires forall a, x :: Child(linked, a, x) <==> Child(children, a, x) || (x == e.txid && a in e.parents)
    ensures Consistent(entries[e.txid := e], claimed, linked, bytes + e.size)
  {
    hide ClaimsOf; hide Total;
    var t, after := e.txid, entries[e.txid := e];
    forall c, x ensures Held(claimed, c, x) <==> Claimed(after, x, c) {
      assert Held(spent, c, x) <==> Claimed(entries, x, c);
    }
    forall a, x ensures Child(linked, a, x) <==> Parent(after, x, a) {
      assert Child(children, a, x) <==> Parent(entries, x, a);
    }
    TotalWithout(after, t);
    assert after - {t} == entries;
  }

  lemma InsertRooted(entries: Entries, e: Entry)
    requires e.txid !in entries
    ensures Rooted(entries) && (forall a :: a in e.parents ==> a in entries) ==> Rooted(entries[e.txid := e])
  {
    var after := entries[e.txid := e];
    if Rooted(entries) && forall a :: a in e.parents ==> a in entries {
      forall t, a | Parent(after, t, a) ensures a in after {
        if t != e.txid { assert Parent(entries, t, a); }
      }
    }
  }

  lemma KeepsAll(entries: Entries)
    ensures Keeps(entries, entries, entries.Keys - entries.Keys)
  {
  }

  lemma KeepsKeys(all: Entries, kept: Entries)
    requires Keeps(all, kept, all.Keys - kept.Keys)
    ensures kept.Keys <= all.Keys
  {
  }

  lemma NoneChosen(entries: Entries, children: map<Hash, seq<Hash>>)
    ensures Chosen(entries, children, entries, {})
  {
  }
}
