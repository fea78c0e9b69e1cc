/** Who is paid next: the order on confirmed nodes and what makes one eligible. */
module Payees {
  import opened Basics
  import opened Undo
  import opened Ledger
  import opened Expiry

  // ---- the order ----

  /** Byte strings of one length, compared from the front. */
  predicate LexLess(a: Bytes, b: Bytes)
    requires |a| == |b|
  {
    a != [] && (a[0] < b[0] || (a[0] == b[0] && LexLess(a[1..], b[1..])))
  }

  lemma {:induction false} LexTotal(a: Bytes, b: Bytes)
    requires |a| == |b|
    ensures a == b || LexLess(a, b) || LexLess(b, a)
    ensures !(LexLess(a, b) && LexLess(b, a)) && !LexLess(a, a)
    decreases |a|
  {
    if a != [] {
      LexTotal(a[1..], b[1..]);
      assert a == [a[0]] + a[1..] && b == [b[0]] + b[1..];
      LexTotal(a[1..], a[1..]);
    }
  }

  lemma {:induction false} LexTransitive(a: Bytes, b: Bytes, c: Bytes)
    requires |a| == |b| == |c| && LexLess(a, b) && LexLess(b, c)
    ensures LexLess(a, c)
    decreases |a|
  {
    if a[0] == b[0] == c[0] { LexTransitive(a[1..], b[1..], c[1..]); }
  }

  /** The strings differ, and the first is smaller where they first do. */
  ghost predicate SmallerAtFirst(a: Bytes, b: Bytes) {
    exists k :: 0 <= k < |a| && k < |b| && a[..k] == b[..k] && a[k] < b[k]
  }

  /** Comparing from the front finds the first difference. */
  lemma {:induction false} LexMeans(a: Bytes, b: Bytes)
    requires |a| == |b|
    ensures LexLess(a, b) <==> SmallerAtFirst(a, b)
    decreases |a|
  {
    if a != [] {
      LexMeans(a[1..], b[1..]);
      if a[0] < b[0] { assert a[..0] == b[..0]; }
      if a[0] == b[0] && SmallerAtFirst(a[1..], b[1..]) {
        var k :| 0 <= k < |a[1..]| && k < |b[1..]| && a[1..][..k] == b[1..][..k] && a[1..][k] < b[1..][k];
        assert a[..k + 1] == [a[0]] + a[1..][..k] && b[..k + 1] == [b[0]] + b[1..][..k];
      }
      if k :| 0 < k < |a| && k < |b| && a[..k] == b[..k] && a[k] < b[k] {
        assert a[0] == a[..k][0] == b[..k][0] == b[0];
        assert a[1..][..k - 1] == a[..k][1..] && b[1..][..k - 1] == b[..k][1..];
      }
    }
  }

  /** Nodes wait from their last payment, or from their confirmation if they were never paid. */
  datatype PayeeKey = PayeeKey(since: u32, paid: bool, o: OutPoint)

  function Rank(b: bool): (n: nat) { if b then 1 else 0 }

  predicate Less(a: PayeeKey, b: PayeeKey) {
    || a.since < b.since
    || (a.since == b.since && Rank(a.paid) < Rank(b.paid))
    || (a.since == b.since && a.paid == b.paid && LexLess(a.o.hash, b.o.hash))
    || (a.since == b.since && a.paid == b.paid && a.o.hash == b.o.hash && a.o.index < b.o.index)
  }

  /** Keys are totally ordered. */
  lemma LessTotal(a: PayeeKey, b: PayeeKey)
    ensures a == b || Less(a, b) || Less(b, a)
    ensures !(Less(a, b) && Less(b, a)) && !Less(a, a)
  {
    LexTotal(a.o.hash, b.o.hash);
    LexTotal(a.o.hash, a.o.hash);
  }

  lemma LessTransitive(a: PayeeKey, b: PayeeKey, c: PayeeKey)
    requires Less(a, b) && Less(b, c)
    ensures Less(a, c)
  {
    LexTotal(a.o.hash, b.o.hash);
    LexTotal(b.o.hash, c.o.hash);
    LexTotal(a.o.hash, c.o.hash);
    if LexLess(a.o.hash, b.o.hash) && LexLess(b.o.hash, c.o.hash) { LexTransitive(a.o.hash, b.o.hash, c.o.hash); }
  }

  function KeyOf(n: NodeRecord): (k: Option<PayeeKey>) {
    if !(1 <= n.tier <= 3) || n.confirmedHeight == 0 then None
    else Some(PayeeKey(if n.lastPaidHeight > 0 then n.lastPaidHeight
                       else n.confirmedHeight, n.lastPaidHeight > 0, n.collateral))
  }

  /** The height a node waits from: its last payment, or its confirmation. */
  function WaitsFrom(n: NodeRecord): (h: u32) { if n.lastPaidHeight > 0 then n.lastPaidHeight else n.confirmedHeight }

  /** Of two nodes, the one that has waited longer goes first; of two that waited as long, the one never
      paid; then the smaller collateral, by its hash and then its index. */
  ghost predicate GoesFirst(nodes: map<OutPoint, NodeRecord>, o: OutPoint, c: OutPoint)
    requires o in nodes && c in nodes
  {
    var n, m := nodes[o], nodes[c];
    || WaitsFrom(n) < WaitsFrom(m)
    || (WaitsFrom(n) == WaitsFrom(m) && n.lastPaidHeight == 0 && m.lastPaidHeight > 0)
    || (WaitsFrom(n) == WaitsFrom(m) && (n.lastPaidHeight == 0 <==> m.lastPaidHeight == 0)
        && (SmallerAtFirst(o.hash, c.hash) || (o.hash == c.hash && o.index < c.index)))
  }

  /** The order of the keys is that order of the nodes. */
  lemma FirstIsLess(nodes: map<OutPoint, NodeRecord>, o: OutPoint, c: OutPoint)
    requires o in nodes && c in nodes && nodes[o].collateral == o && nodes[c].collateral == c
    requires KeyOf(nodes[o]).Some? && KeyOf(nodes[c]).Some?
    ensures GoesFirst(nodes, o, c) <==> Less(KeyOf(nodes[o]).value, KeyOf(nodes[c]).value)
  {
    hide LexLess; hide SmallerAtFirst;
    LexMeans(o.hash, c.hash);
  }

  lemma FirstOnce(nodes: map<OutPoint, NodeRecord>, o: OutPoint, c: OutPoint)
    requires o in nodes && c in nodes && GoesFirst(nodes, o, c)
    ensures !GoesFirst(nodes, c, o)
  {
    hide SmallerAtFirst;
    LexMeans(o.hash, c.hash);
    LexMeans(c.hash, o.hash);
    LexTotal(o.hash, c.hash);
    hide LexLess;
  }

  // ---- collateral ----

  /** The heights between which both collateral amounts of a tier are accepted. */
  datatype Transition = Transition(start: int, end: int)

  datatype NodeParams = NodeParams(ups: Upgrades, cumulus: Transition, nimbus: Transition, stratus: Transition)

  function OldAmount(tier: int): (v: int) {
    if tier == 1 then 10_000 * COIN else if tier == 2 then 25_000 * COIN else 100_000 * COIN
  }

  function NewAmount(tier: int): (v: int) {
    if tier == 1 then 1_000 * COIN else if tier == 2 then 12_500 * COIN else 40_000 * COIN
  }

  function TransitionOf(np: NodeParams, tier: int): (t: Transition) {
    if tier == 1 then np.cumulus else if tier == 2 then np.nimbus else np.stratus
  }

  predicate MatchesTier(np: NodeParams, h: int, value: int, tier: int) {
    && 1 <= tier <= 3
    && var t := TransitionOf(np, tier);
       if h < t.start then value == OldAmount(tier)
       else if h < t.end then value == OldAmount(tier) || value == NewAmount(tier)
       else value == NewAmount(tier)
  }

  /** The old amount is right up to the end of the transition, the new one from its start on, and no
      other amount ever is. */
  lemma MatchesExactly(np: NodeParams, h: int, value: int, tier: int)
    requires 1 <= tier <= 3
    ensures var t := TransitionOf(np, tier);
            MatchesTier(np, h, value, tier) <==>
              || (value == OldAmount(tier) && h < (if t.end < t.start then t.start else t.end))
              || (value == NewAmount(tier) && h >= t.start)
  {
  }

  /** A collateral that was right for its tier once and is wrong later stays wrong. */
  lemma MismatchIsForever(np: NodeParams, started: int, p: int, q: int, value: int, tier: int)
    requires started <= p <= q && MatchesTier(np, started, value, tier) && !MatchesTier(np, p, value, tier)
    ensures !MatchesTier(np, q, value, tier)
  {
  }

  // ---- eligibility ----

  /** The record at `c` may be paid in `tier` by the block after height `p`. */
  ghost predicate Eligible(np: NodeParams, nodes: map<OutPoint, NodeRecord>, ledger: Store, tier: int, p: u32,
                           c: OutPoint) {
    && c in nodes && 1 <= nodes[c].tier <= 3 && nodes[c].tier == tier && nodes[c].confirmedHeight > 0
    && !Overdue(np.ups, p, nodes[c].lastConfirmedHeight)
    && Utxo(c) in ledger && ledger[Utxo(c)].Coin? && MatchesTier(np, p, ledger[Utxo(c)].entry.value, tier)
  }

  lemma EligibleKeyed(np: NodeParams, nodes: map<OutPoint, NodeRecord>, ledger: Store, tier: int, p: u32, c: OutPoint)
    requires Eligible(np, nodes, ledger, tier, p, c)
    ensures c in nodes && KeyOf(nodes[c]).Some?
  {
  }

  /** `r` is the eligible record that has waited longest. */
  ghost predicate IsNext(np: NodeParams, nodes: map<OutPoint, NodeRecord>, ledger: Store, tier: int, p: u32,
                         r: Option<OutPoint>) {
    match r
    case None => forall c :: c in nodes ==> !Eligible(np, nodes, ledger, tier, p, c)
    case Some(o) =>
      && Eligible(np, nodes, ledger, tier, p, o)
      && forall c :: c in nodes && c != o && Eligible(np, nodes, ledger, tier, p, c) ==> GoesFirst(nodes, o, c)
  }

  /** There is at most one next payee. */
  lemma NextIsUnique(np: NodeParams, nodes: map<OutPoint, NodeRecord>, ledger: Store, tier: int, p: u32,
                     r: Option<OutPoint>, s: Option<OutPoint>)
    requires IsNext(np, nodes, ledger, tier, p, r) && IsNext(np, nodes, ledger, tier, p, s)
    ensures r == s
  {
    if r.Some? && s.Some? && r != s {
      if GoesFirst(nodes, r.value, s.value) { FirstOnce(nodes, r.value, s.value); }
    }
  }
}
