/** The payments cache: one ordered set of keys per tier with two maps beside it, pruned only when
    an entry that can no longer be paid comes to the front. */
module Payments {
  import opened Basics
  import opened Undo
  import opened Ledger
  import opened Chain
  import opened Expiry
  import opened Payees
  import ConnectBlock

  datatype Meta = Meta(
    tier: u8, confirmedHeight: u32, lastConfirmedHeight: u32, lastPaidHeight: u32, collateralValue: i64,
    operatorKey: Hash, collateralKey: Option<Hash>, redeemScript: Option<Hash>)

  function MetaOf(n: NodeRecord): (m: Meta) {
    Meta(n.tier, n.confirmedHeight, n.lastConfirmedHeight, n.lastPaidHeight, n.collateralValue, n.operatorKey,
         n.collateralKey, n.redeemScript)
  }

  /** The entry shows the record it was made from. */
  predicate Mirrors(m: Meta, n: NodeRecord) {
    && m.tier == n.tier && m.confirmedHeight == n.confirmedHeight && m.lastConfirmedHeight == n.lastConfirmedHeight
    && m.lastPaidHeight == n.lastPaidHeight && m.collateralValue == n.collateralValue
    && m.operatorKey == n.operatorKey && m.collateralKey == n.collateralKey && m.redeemScript == n.redeemScript
  }

  lemma MetaMirrors(n: NodeRecord)
    ensures Mirrors(MetaOf(n), n)
  {
  }

  datatype Cache = Cache(byTier: seq<set<PayeeKey>>, keys: map<OutPoint, PayeeKey>, metas: map<OutPoint, Meta>)

  /** `k` is the key filed for its outpoint, in the tier with index `t`. */
  predicate KeyFiled(c: Cache, t: int, k: PayeeKey) {
    k.o in c.metas && k.o in c.keys && c.keys[k.o] == k && c.metas[k.o].tier == t + 1
  }

  predicate Entry(c: Cache, o: OutPoint) {
    o in c.metas && o in c.keys && 1 <= c.metas[o].tier <= 3 && c.keys[o].o == o
  }

  /** The three indexes say the same. */
  ghost predicate Agrees(c: Cache) {
    && |c.byTier| == 3
    && (forall o :: o in c.metas || o in c.keys ==> Entry(c, o))
    && (forall t, k :: 0 <= t < 3 ==> (k in c.byTier[t] <==> KeyFiled(c, t, k)))
  }

  /** Every entry is that of the stored record. */
  ghost predicate Reflects(c: Cache, nodes: map<OutPoint, NodeRecord>) {
    forall o :: o in c.metas && o in c.keys ==>
      o in nodes && KeyOf(nodes[o]) == Some(c.keys[o]) && c.metas[o] == MetaOf(nodes[o])
  }

  /** The record at `o` cannot be paid at height `from` or later. */
  ghost predicate Lost(np: NodeParams, nodes: map<OutPoint, NodeRecord>, ledger: Store, from: int, o: OutPoint) {
    forall p: u32, tier: int :: from <= p <= I32_MAX ==> !Eligible(np, nodes, ledger, tier, p, o)
  }

  /** Whatever the cache does not hold is not confirmed or can no longer be paid. */
  ghost predicate Complete(np: NodeParams, c: Cache, nodes: map<OutPoint, NodeRecord>, ledger: Store, from: int) {
    forall o :: o in nodes && o !in c.metas && KeyOf(nodes[o]).Some? ==> Lost(np, nodes, ledger, from, o)
  }

  /** A confirmed record matched its tier when it was started. */
  predicate StartedRight(np: NodeParams, n: NodeRecord, ledger: Store, from: int) {
    KeyOf(n).Some? && Utxo(n.collateral) in ledger && ledger[Utxo(n.collateral)].Coin? ==>
      n.startHeight <= from && MatchesTier(np, n.startHeight, ledger[Utxo(n.collateral)].entry.value, n.tier)
  }

  ghost predicate Sane(np: NodeParams, nodes: map<OutPoint, NodeRecord>, ledger: Store, from: int) {
    Filed(nodes) && forall c :: c in nodes ==> StartedRight(np, nodes[c], ledger, from)
  }

  // ---- the two updates ----

  function Without(c: Cache, o: OutPoint): (r: Cache)
    ensures |r.byTier| == |c.byTier|
  {
    var byTier :=
      if o in c.metas && o in c.keys && 1 <= c.metas[o].tier <= |c.byTier|
      then c.byTier[c.metas[o].tier - 1 := c.byTier[c.metas[o].tier - 1] - {c.keys[o]}] else c.byTier;
    Cache(byTier, c.keys - {o}, c.metas - {o})
  }

  function With(c: Cache, n: NodeRecord): (r: Cache)
    requires |c.byTier| == 3
    ensures |r.byTier| == 3
  {
    var c := if n.collateral in c.metas then Without(c, n.collateral) else c;
    match KeyOf(n)
    case None => c
    case Some(k) =>
      Cache(c.byTier[n.tier - 1 := c.byTier[n.tier - 1] + {k}], c.keys[n.collateral := k],
            c.metas[n.collateral := MetaOf(n)])
  }

  lemma WithoutAgrees(c: Cache, o: OutPoint)
    requires Agrees(c)
    ensures Agrees(Without(c, o)) && o !in Without(c, o).metas && o !in Without(c, o).keys
  {
    var d := Without(c, o);
    assert o in c.metas || o in c.keys ==> Entry(c, o);
    forall x | x in d.metas || x in d.keys ensures Entry(d, x) { assert Entry(c, x); }
    forall t, k | 0 <= t < 3 ensures k in d.byTier[t] <==> KeyFiled(d, t, k) {
      assert k in c.byTier[t] <==> KeyFiled(c, t, k);
    }
  }

  /** Filing a key for an outpoint that has none. */
  lemma FileAgrees(c: Cache, tier: u8, k: PayeeKey, m: Meta)
    requires Agrees(c) && k.o !in c.metas && k.o !in c.keys && 1 <= tier <= 3 && m.tier == tier
    ensures Agrees(Cache(c.byTier[tier - 1 := c.byTier[tier - 1] + {k}], c.keys[k.o := k], c.metas[k.o := m]))
  {
    var d := Cache(c.byTier[tier - 1 := c.byTier[tier - 1] + {k}], c.keys[k.o := k], c.metas[k.o := m]);
    forall x | x in d.metas || x in d.keys ensures Entry(d, x) { if x != k.o { assert Entry(c, x); } }
    forall t, x | 0 <= t < 3 ensures x in d.byTier[t] <==> KeyFiled(d, t, x) {
      assert x in c.byTier[t] <==> KeyFiled(c, t, x);
    }
  }

  lemma WithAgrees(c: Cache, n: NodeRecord)
    requires Agrees(c)
    ensures Agrees(With(c, n))
    ensures With(c, n).metas == if KeyOf(n).Some? then c.metas[n.collateral := MetaOf(n)] else c.metas - {n.collateral}
    ensures With(c, n).keys == if KeyOf(n).Some? then c.keys[n.collateral := KeyOf(n).value]
            else c.keys - {n.collateral}
  {
    hide MetaOf;
    var o := n.collateral;
    var d := if o in c.metas then Without(c, o) else c;
    WithoutAgrees(c, o);
    assert o in c.metas || o in c.keys ==> Entry(c, o);
    assert o !in c.metas ==> c.metas - {o} == c.metas && c.keys - {o} == c.keys;
    if KeyOf(n).Some? {
      MetaTier(n);
      FileAgrees(d, n.tier, KeyOf(n).value, MetaOf(n));
      assert (c.metas - {o})[o := MetaOf(n)] == c.metas[o := MetaOf(n)];
      assert (c.keys - {o})[o := KeyOf(n).value] == c.keys[o := KeyOf(n).value];
    }
  }

  lemma MetaTier(n: NodeRecord)
    ensures MetaOf(n).tier == n.tier
  {
  }

  /** The cache follows a batch: every record written or deleted in the store is in the cache too. */
  function Followed(c: Cache, batch: Batch): (r: Cache)
    requires |c.byTier| == 3
    ensures |r.byTier| == 3
  {
    if batch == [] then c
    else
      var before := Followed(c, batch[..|batch| - 1]);
      match batch[|batch| - 1]
      case NodePut(_, n) => With(before, n)
      case NodeDel(o) => Without(before, o)
      case _ => before
  }

  /** Every confirmed record is cached. */
  ghost predicate Full(c: Cache, nodes: map<OutPoint, NodeRecord>) {
    forall o :: o in nodes && KeyOf(nodes[o]).Some? ==> o in c.metas
  }

  lemma PutReflects(c: Cache, nodes: map<OutPoint, NodeRecord>, n: NodeRecord)
    requires Agrees(c) && Reflects(c, nodes)
    ensures Agrees(With(c, n)) && Reflects(With(c, n), nodes[n.collateral := n])
    ensures Full(c, nodes) ==> Full(With(c, n), nodes[n.collateral := n])
  {
    hide With; hide KeyOf; hide Entry; hide KeyFiled;
    WithAgrees(c, n);
  }

  lemma DelReflects(c: Cache, nodes: map<OutPoint, NodeRecord>, o: OutPoint)
    requires Agrees(c) && Reflects(c, nodes)
    ensures Agrees(Without(c, o)) && Reflects(Without(c, o), nodes - {o})
  {
    hide Agrees; hide KeyOf;
    WithoutAgrees(c, o);
  }

  /** Whatever the batch, the cache stays a part of the stored records. */
  lemma {:induction false} FollowedReflects(c: Cache, db: Db, batch: Batch)
    requires Agrees(c) && Reflects(c, db.nodes) && ConnectBlock.FiledPuts(batch)
    ensures Agrees(Followed(c, batch)) && Reflects(Followed(c, batch), Commit(db, batch).nodes)
    decreases |batch|
  {
    hide Agrees; hide Reflects; hide CommitOp; hide With; hide Without;
    SizeOfTiers(c);
    if batch != [] {
      var n := |batch| - 1;
      FollowedReflects(c, db, batch[..n]);
      var before, nodes := Followed(c, batch[..n]), Commit(db, batch[..n]).nodes;
      ConnectBlock.NodesAfter(Commit(db, batch[..n]), batch[n]);
      match batch[n]
      case NodePut(_, rec) => PutReflects(before, nodes, rec);
      case NodeDel(o) => DelReflects(before, nodes, o);
      case _ =>
    }
  }

  lemma {:induction false} FollowedComplete(np: NodeParams, c: Cache, db: Db, batch: Batch, ledger: Store, from: int)
    requires Agrees(c) && Reflects(c, db.nodes) && ConnectBlock.FiledPuts(batch)
             && Complete(np, c, db.nodes, ledger, from)
    ensures Complete(np, Followed(c, batch), Commit(db, batch).nodes, ledger, from)
    decreases |batch|
  {
    hide Agrees; hide Reflects; hide CommitOp; hide With; hide Without; hide Complete;
    SizeOfTiers(c);
    if batch != [] {
      var n := |batch| - 1;
      FollowedComplete(np, c, db, batch[..n], ledger, from);
      FollowedReflects(c, db, batch[..n]);
      var before, nodes := Followed(c, batch[..n]), Commit(db, batch[..n]).nodes;
      ConnectBlock.NodesAfter(Commit(db, batch[..n]), batch[n]);
      match batch[n]
      case NodePut(_, rec) => PutKeeps(np, before, nodes, ledger, from, rec);
      case NodeDel(o) => DelKeeps(np, before, nodes, ledger, from, o);
      case _ =>
    }
  }

  lemma {:induction false} FollowedFiled(db: Db, batch: Batch)
    requires Filed(db.nodes) && ConnectBlock.FiledPuts(batch)
    ensures Filed(Commit(db, batch).nodes)
    decreases |batch|
  {
    hide CommitOp;
    if batch != [] {
      var n := |batch| - 1;
      FollowedFiled(db, batch[..n]);
      ConnectBlock.NodesAfter(Commit(db, batch[..n]), batch[n]);
    }
  }

  /** Deleting one record from the store and the cache. */
  lemma DelKeeps(np: NodeParams, c: Cache, nodes: map<OutPoint, NodeRecord>, ledger: Store, from: int, o: OutPoint)
    requires Agrees(c) && Complete(np, c, nodes, ledger, from)
    ensures Complete(np, Without(c, o), nodes - {o}, ledger, from)
  {
    hide Agrees; hide KeyOf; hide Overdue; hide MatchesTier;
    forall x | x in nodes - {o} && x !in Without(c, o).metas && KeyOf(nodes[x]).Some?
        ensures Lost(np, nodes - {o}, ledger, from, x) {
      assert Lost(np, nodes, ledger, from, x);
      forall p: u32, tier: int | from <= p <= I32_MAX ensures !Eligible(np, nodes - {o}, ledger, tier, p, x) {
        assert !Eligible(np, nodes, ledger, tier, p, x);
      }
    }
  }

  /** Writing one record to the store and the cache. */
  lemma PutKeeps(np: NodeParams, c: Cache, nodes: map<OutPoint, NodeRecord>, ledger: Store, from: int, n: NodeRecord)
    requires Agrees(c) && Complete(np, c, nodes, ledger, from)
    ensures Complete(np, With(c, n), nodes[n.collateral := n], ledger, from)
  {
    hide With; hide KeyOf; hide Overdue; hide MatchesTier; hide Entry; hide KeyFiled;
    WithAgrees(c, n);
    var nodes' := nodes[n.collateral := n];
    forall o | o in nodes' && o !in With(c, n).metas && KeyOf(nodes'[o]).Some?
        ensures Lost(np, nodes', ledger, from, o) {
      assert Lost(np, nodes, ledger, from, o);
      forall p: u32, tier: int | from <= p <= I32_MAX ensures !Eligible(np, nodes', ledger, tier, p, o) {
        assert !Eligible(np, nodes, ledger, tier, p, o);
      }
    }
  }

  /** Dropping an entry that cannot be paid any more. */
  lemma DropKeeps(np: NodeParams, c: Cache, nodes: map<OutPoint, NodeRecord>, ledger: Store, from: int, o: OutPoint)
    requires Complete(np, c, nodes, ledger, from) && Lost(np, nodes, ledger, from, o)
    ensures Complete(np, Without(c, o), nodes, ledger, from)
  {
    hide KeyOf; hide Lost;
  }

  lemma DropReflects(c: Cache, nodes: map<OutPoint, NodeRecord>, o: OutPoint)
    requires Agrees(c) && Reflects(c, nodes)
    ensures Agrees(Without(c, o)) && Reflects(Without(c, o), nodes)
  {
    hide KeyOf; hide Agrees;
    WithoutAgrees(c, o);
  }

  lemma LaterKeeps(np: NodeParams, c: Cache, nodes: map<OutPoint, NodeRecord>, ledger: Store, from: int, later: int)
    requires Complete(np, c, nodes, ledger, from) && from <= later
    ensures Complete(np, c, nodes, ledger, later)
  {
    hide Eligible; hide KeyOf;
  }

  // ---- why an entry at the front is dropped ----

  lemma ExpiredIsLost(np: NodeParams, nodes: map<OutPoint, NodeRecord>, ledger: Store, p: u32, o: OutPoint)
    requires o in nodes && Overdue(np.ups, p, nodes[o].lastConfirmedHeight)
    ensures Lost(np, nodes, ledger, p, o)
  {
    forall q: u32, tier: int | p <= q <= I32_MAX ensures !Eligible(np, nodes, ledger, tier, q, o) {
      OverdueForever(np.ups, p, q, nodes[o].lastConfirmedHeight);
    }
  }

  lemma SpentIsLost(np: NodeParams, nodes: map<OutPoint, NodeRecord>, ledger: Store, p: u32, o: OutPoint)
    requires Utxo(o) !in ledger || !ledger[Utxo(o)].Coin?
    ensures Lost(np, nodes, ledger, p, o)
  {
  }

  lemma MismatchIsLost(np: NodeParams, nodes: map<OutPoint, NodeRecord>, ledger: Store, from: int, p: u32, o: OutPoint)
    requires Sane(np, nodes, ledger, from) && from <= p && o in nodes && KeyOf(nodes[o]).Some?
    requires Utxo(o) in ledger && ledger[Utxo(o)].Coin? && !MatchesTier(np, p, ledger[Utxo(o)].entry.value,
                                                                        nodes[o].tier)
    ensures Lost(np, nodes, ledger, p, o)
  {
    hide MatchesTier; hide Overdue;
    assert StartedRight(np, nodes[o], ledger, from);
    forall q: u32, tier: int | p <= q <= I32_MAX ensures !Eligible(np, nodes, ledger, tier, q, o) {
      MismatchIsForever(np, nodes[o].startHeight, p, q, ledger[Utxo(o)].entry.value, nodes[o].tier);
    }
  }

  /** Some record is next, or none is eligible. */
  lemma {:induction false} LeastOf(np: NodeParams, nodes: map<OutPoint, NodeRecord>, ledger: Store, tier: int, p: u32,
                                   s: set<OutPoint>)
    returns (r: Option<OutPoint>)
    requires Filed(nodes) && s <= nodes.Keys
    ensures r.None? ==> forall c :: c in s ==> !Eligible(np, nodes, ledger, tier, p, c)
    ensures r.Some? ==> r.value in s && Eligible(np, nodes, ledger, tier, p, r.value)
    ensures r.Some? ==> forall c :: c in s && c != r.value && Eligible(np, nodes, ledger, tier, p, c) ==>
                          Less(KeyOf(nodes[r.value]).value, KeyOf(nodes[c]).value)
  {
    hide Overdue; hide MatchesTier; hide Less;
    if s == {} { return None; }
    var o :| o in s;
    r := LeastOf(np, nodes, ledger, tier, p, s - {o});
    if Eligible(np, nodes, ledger, tier, p, o) {
      if r.None? { return Some(o); }
      var a, b := KeyOf(nodes[o]).value, KeyOf(nodes[r.value]).value;
      LessTotal(a, b);
      if Less(a, b) {
        forall c | c in s && c != o && Eligible(np, nodes, ledger, tier, p, c) ensures Less(a, KeyOf(nodes[c]).value) {
          if c != r.value { LessTransitive(a, b, KeyOf(nodes[c]).value); }
        }
        return Some(o);
      }
    }
  }

  lemma NextExists(np: NodeParams, nodes: map<OutPoint, NodeRecord>, ledger: Store, tier: int, p: u32)
    returns (r: Option<OutPoint>)
    requires Filed(nodes)
    ensures IsNext(np, nodes, ledger, tier, p, r)
  {
    hide Eligible; hide KeyOf; hide Less; hide GoesFirst;
    r := LeastOf(np, nodes, ledger, tier, p, nodes.Keys);
    assert r.Some? ==> Eligible(np, nodes, ledger, tier, p, r.value);
    forall c | r.Some? && c in nodes && c != r.value && Eligible(np, nodes, ledger, tier, p, c)
      ensures GoesFirst(nodes, r.value, c)
    {
      EligibleKeyed(np, nodes, ledger, tier, p, c);
      EligibleKeyed(np, nodes, ledger, tier, p, r.value);
      FirstIsLess(nodes, r.value, c);
    }
  }

  /** Of what the cache held at the start, only records not eligible now are gone. */
  ghost predicate Trimmed(np: NodeParams, first: map<OutPoint, Meta>, c: Cache, nodes: map<OutPoint, NodeRecord>,
                          ledger: Store, p: u32) {
    && c.metas.Keys <= first.Keys
    && forall o, tier: int :: o in first && o !in c.metas ==> !Eligible(np, nodes, ledger, tier, p, o)
  }

  /** The record that is next is one the cache held. */
  ghost predicate NextHeld(np: NodeParams, first: map<OutPoint, Meta>, nodes: map<OutPoint, NodeRecord>, ledger: Store,
                           tier: int, p: u32) {
    forall o :: o in nodes && IsNext(np, nodes, ledger, tier, p, Some(o)) ==> o in first
  }

  lemma CachedIsFiled(c: Cache, nodes: map<OutPoint, NodeRecord>, o: OutPoint)
    requires Agrees(c) && Reflects(c, nodes) && o in c.metas && KeyOf(nodes[o]).Some?
    ensures 1 <= nodes[o].tier <= 3 && KeyOf(nodes[o]).value in c.byTier[nodes[o].tier - 1]
  {
    assert Entry(c, o);
    assert KeyFiled(c, nodes[o].tier - 1, c.keys[o]);
  }

  /** What is found at the front is next exactly when the next record was held. */
  lemma FoundExact(np: NodeParams, first: map<OutPoint, Meta>, c: Cache, nodes: map<OutPoint, NodeRecord>,
                   ledger: Store, tier: int, p: u32, k: PayeeKey)
    requires Filed(nodes) && Agrees(c) && Reflects(c, nodes) && Trimmed(np, first, c, nodes, ledger, p)
             && 1 <= tier <= 3
    requires k in c.byTier[tier - 1] && forall x :: x in c.byTier[tier - 1] ==> x == k || Less(k, x)
    requires Eligible(np, nodes, ledger, tier, p, k.o)
    ensures IsNext(np, nodes, ledger, tier, p, Some(k.o)) <==> NextHeld(np, first, nodes, ledger, tier, p)
  {
    hide Overdue; hide MatchesTier; hide KeyOf; hide Less; hide GoesFirst;
    assert KeyFiled(c, tier - 1, k);
    if IsNext(np, nodes, ledger, tier, p, Some(k.o)) {
      forall o | o in nodes && IsNext(np, nodes, ledger, tier, p, Some(o)) ensures o in first {
        NextIsUnique(np, nodes, ledger, tier, p, Some(k.o), Some(o));
      }
    }
    if NextHeld(np, first, nodes, ledger, tier, p) {
      var s := NextExists(np, nodes, ledger, tier, p);
      assert s.Some?;
      if s.value != k.o {
        EligibleKeyed(np, nodes, ledger, tier, p, s.value);
        CachedIsFiled(c, nodes, s.value);
        FirstIsLess(nodes, k.o, s.value);
        FirstOnce(nodes, k.o, s.value);
      }
    }
  }

  lemma EmptyExact(np: NodeParams, first: map<OutPoint, Meta>, c: Cache, nodes: map<OutPoint, NodeRecord>,
                   ledger: Store, tier: int, p: u32)
    requires Filed(nodes) && Agrees(c) && Reflects(c, nodes) && Trimmed(np, first, c, nodes, ledger, p)
    requires 1 <= tier <= 3 && c.byTier[tier - 1] == {}
    ensures IsNext(np, nodes, ledger, tier, p, None) <==> NextHeld(np, first, nodes, ledger, tier, p)
  {
    hide Overdue; hide MatchesTier; hide KeyOf; hide Less;
    if NextHeld(np, first, nodes, ledger, tier, p) {
      var s := NextExists(np, nodes, ledger, tier, p);
      if s.Some? { CachedIsFiled(c, nodes, s.value); }
    }
  }

  lemma FullHeld(np: NodeParams, c: Cache, nodes: map<OutPoint, NodeRecord>, ledger: Store, tier: int, p: u32)
    requires Full(c, nodes)
    ensures NextHeld(np, c.metas, nodes, ledger, tier, p)
  {
    hide Overdue; hide MatchesTier; hide GoesFirst;
  }

  /** A complete cache holds the next record. */
  lemma CompleteHeld(np: NodeParams, c: Cache, nodes: map<OutPoint, NodeRecord>, ledger: Store, tier: int, p: u32)
    requires Complete(np, c, nodes, ledger, p) && p <= I32_MAX
    ensures NextHeld(np, c.metas, nodes, ledger, tier, p)
  {
    hide Overdue; hide MatchesTier; hide GoesFirst;
    forall o | o in nodes && o !in c.metas ensures !IsNext(np, nodes, ledger, tier, p, Some(o)) {
      if KeyOf(nodes[o]).Some? {
        assert Lost(np, nodes, ledger, p, o);
        assert !Eligible(np, nodes, ledger, tier, p, o);
      }
    }
  }

  // ---- the store and its cache ----

  /** No coin behind a stored record comes back or changes: ids on a chain are distinct. */
  ghost predicate Forward(db: Db, after: Db) {
    forall c :: c in db.nodes && Utxo(c) in after.ledger ==>
      Utxo(c) in db.ledger && after.ledger[Utxo(c)] == db.ledger[Utxo(c)]
  }

  /** The first element of an ordered set. */
  method First(s: set<PayeeKey>) returns (r: Option<PayeeKey>)
    ensures r.None? <==> s == {}
    ensures r.Some? ==> r.value in s && forall k :: k in s ==> k == r.value || Less(r.value, k)
  {
    hide Less;
    r := None;
    var left := s;
    while left != {}
      invariant left <= s && (r.None? <==> left == s)
      invariant r.Some? ==> r.value in s && forall k :: k in s - left ==> k == r.value || Less(r.value, k)
    {
      var k :| k in left;
      left := left - {k};
      if r.None? {
        r := Some(k);
      } else {
        LessTotal(r.value, k);
        if Less(k, r.value) {
          forall x | x in s - left && x != k ensures Less(k, x) {
            if x != r.value { LessTransitive(k, r.value, x); }
          }
          r := Some(k);
        }
      }
    }
  }

  /** A spent coin stays spent, so what was lost stays lost. */
  lemma ForwardKeeps(np: NodeParams, c: Cache, db: Db, ledger: Store, from: int)
    requires Complete(np, c, db.nodes, db.ledger, from) && Forward(db, db.(ledger := ledger))
    ensures Complete(np, c, db.nodes, ledger, from)
  {
    hide Overdue; hide MatchesTier; hide KeyOf;
    forall o | o in db.nodes && o !in c.metas && KeyOf(db.nodes[o]).Some? ensures Lost(np, db.nodes, ledger, from, o) {
      assert Lost(np, db.nodes, db.ledger, from, o);
      forall p: u32, tier: int | from <= p <= I32_MAX ensures !Eligible(np, db.nodes, ledger, tier, p, o) {
        assert !Eligible(np, db.nodes, db.ledger, tier, p, o);
      }
    }
  }

  /** The node records of the store, and the cache beside it. */
  class PaymentState {
    const np: NodeParams
    var db: Db
    var initialized: bool
    var byTier: seq<set<PayeeKey>>
    var keys: map<OutPoint, PayeeKey>
    var metas: map<OutPoint, Meta>
    ghost var from: int

    ghost function Now(): (c: Cache)
      reads this
    {
      Cache(byTier, keys, metas)
    }

    /** The cache, once filled, is an index of stored records. */
    ghost predicate Coherent()
      reads this
    {
      |byTier| == 3 && Filed(db.nodes) && (initialized ==> Agrees(Now()) && Reflects(Now(), db.nodes))
    }

    /** The cache is also right for every pay height from `from` on. */
    ghost predicate Valid()
      reads this
    {
      Coherent() && Sane(np, db.nodes, db.ledger, from) && (initialized ==>
                                                              Complete(np, Now(), db.nodes, db.ledger, from))
    }

    /** The next payee of a tier is in the cache, or the cache is still to be filled. */
    ghost predicate NextCached(tier: int, p: u32)
      reads this
    {
      initialized ==> NextHeld(np, metas, db.nodes, db.ledger, tier, p)
    }

    constructor (np: NodeParams, db: Db, ghost from: int)
      requires Sane(np, db.nodes, db.ledger, from)
      ensures Valid() && this.np == np && this.db == db && this.from == from
    {
      this.np := np;
      this.db := db;
      this.from := from;
      initialized := false;
      byTier := [{}, {}, {}];
      keys := map[];
      metas := map[];
    }

    method RemoveOutpoint(o: OutPoint)
      modifies this`byTier, this`keys, this`metas
      ensures Now() == Without(old(Now()), o)
    {
      if o in metas && o in keys {
        var tier := metas[o].tier;
        if 1 <= tier <= |byTier| { byTier := byTier[tier - 1 := byTier[tier - 1] - {keys[o]}]; }
      }
      keys := keys - {o};
      metas := metas - {o};
    }

    method UpsertRecord(n: NodeRecord)
      requires |byTier| == 3
      modifies this`byTier, this`keys, this`metas
      ensures Now() == With(old(Now()), n)
    {
      if n.collateral in metas { RemoveOutpoint(n.collateral); }
      var k := KeyOf(n);
      if k.Some? {
        byTier := byTier[n.tier - 1 := byTier[n.tier - 1] + {k.value}];
        keys := keys[n.collateral := k.value];
        metas := metas[n.collateral := MetaOf(n)];
      }
    }

    /** Fills the cache from the store, once. */
    method EnsureLoaded()
      requires Coherent()
      modifies this`byTier, this`keys, this`metas, this`initialized
      ensures Coherent() && initialized
      ensures if old(initialized) then Now() == old(Now()) else Full(Now(), db.nodes)
      ensures old(Valid()) ==> Valid()
    {
      hide Without; hide With; hide KeyOf; hide MetaOf; hide Agrees; hide Reflects; hide Complete; hide Sane; hide Full;
      if initialized { return; }
      byTier := [{}, {}, {}];
      keys := map[];
      metas := map[];
      NothingCached();
      var left := db.nodes.Keys;
      ghost var done: map<OutPoint, NodeRecord> := map[];
      while left != {}
        invariant left <= db.nodes.Keys && done == (map c | c in db.nodes && c !in left :: db.nodes[c])
        invariant Agrees(Now()) && Reflects(Now(), done) && Full(Now(), done)
      {
        var c :| c in left;
        SizeOfTiers(Now());
        PutReflects(Now(), done, db.nodes[c]);
        UpsertRecord(db.nodes[c]);
        done := done[c := db.nodes[c]];
        left := left - {c};
      }
      assert done == db.nodes;
      SizeOfTiers(Now());
      FullIsComplete(np, Now(), db.nodes, db.ledger, from);
      initialized := true;
    }

    /** Commits a batch: the store first, then every write to a node record goes to the cache. The
        cache stays an index of stored records whatever the batch does. It stays right for later pay
        heights if no coin comes back and the records are those of a chain. */
    method CommitBatch(batch: Batch, ghost height: int)
      requires |byTier| == 3
      modifies this
      ensures db == Commit(old(db), batch) && initialized == old(initialized) && from == height
      ensures |byTier| == 3 && Now() == if initialized then Followed(old(Now()), batch) else old(Now())
      ensures old(Coherent()) && ConnectBlock.FiledPuts(batch) ==> Coherent()
      ensures && old(Valid()) && old(from) <= height && ConnectBlock.FiledPuts(batch) && Forward(old(db), db)
              && Sane(np, db.nodes, db.ledger, height)
              ==> Valid()
    {
      hide Without; hide With; hide KeyOf; hide MetaOf; hide Agrees; hide Reflects; hide Complete; hide Sane;
      hide Commit; hide CommitOp; hide Forward; hide Filed; hide ConnectBlock.FiledPuts;
      ghost var first, before, start := Now(), db, from;
      if Coherent() && ConnectBlock.FiledPuts(batch) {
        FollowedFiled(db, batch);
        if initialized {
          FollowedReflects(first, db, batch);
          if Valid() && Forward(db, Commit(db, batch)) && from <= height {
            ForwardLedger(db, Commit(db, batch));
            ForwardKeeps(np, first, db, Commit(db, batch).ledger, from);
            LaterKeeps(np, first, db.nodes, Commit(db, batch).ledger, from, height);
            FollowedComplete(np, first, db, batch, Commit(db, batch).ledger, height);
          }
        }
      }
      if initialized {
        for i := 0 to |batch|
          invariant unchanged(`db) && unchanged(`initialized) && unchanged(`from)
          invariant |byTier| == 3 && Now() == Followed(first, batch[..i])
        {
          assert batch[..i + 1][..i] == batch[..i];
          match batch[i]
          case NodePut(_, n) => UpsertRecord(n);
          case NodeDel(o) => RemoveOutpoint(o);
          case _ =>
        }
        assert batch[..|batch|] == batch;
      }
      db := Commit(db, batch);
      from := height;
    }

    /** The next payee of a tier: what a scan of all stored records would choose, exactly when that
        record is still cached. A cache that is right for this pay height always holds it. Entries
        found expired, spent or of the wrong amount at the front are dropped on the way. */
    method NextPayee(tier: int, p: int) returns (r: Option<OutPoint>, meta: Option<Meta>)
      requires Coherent() && p <= I32_MAX
      modifies this
      ensures Coherent() && db == old(db)
      ensures !(1 <= tier <= 3) || p < 0 ==> r == None && from == old(from) && (old(Valid()) ==> Valid())
      ensures r.Some? ==> 0 <= p && Eligible(np, db.nodes, db.ledger, tier, p, r.value)
      ensures if r.Some? then meta.Some? && Mirrors(meta.value, db.nodes[r.value]) else meta == None
      ensures r.Some? ==> meta.value == MetaOf(db.nodes[r.value])
      ensures 1 <= tier <= 3 && 0 <= p ==> initialized && |byTier| == 3 && (r.None? <==> byTier[tier - 1] == {})
      ensures 1 <= tier <= 3 && 0 <= p ==> (IsNext(np, db.nodes, db.ledger, tier, p, r) <==> old(NextCached(tier, p)))
      ensures 1 <= tier <= 3 && 0 <= p && old(Valid()) && old(from) <= p ==>
                Valid() && from == p && IsNext(np, db.nodes, db.ledger, tier, p, r)
    {
      hide Without; hide KeyOf; hide MetaOf; hide Agrees; hide Reflects; hide Complete; hide Lost; hide Less;
      hide Mirrors; hide MatchesTier; hide Overdue; hide IsNext; hide Filed; hide NextHeld; hide Trimmed; hide Sane;
      hide Full; hide Eligible;
      if !(1 <= tier <= 3) || p < 0 { return None, None; }
      ghost var good := Valid() && from <= p;
      EnsureLoaded();
      ghost var first := metas;
      if !old(initialized) { FullHeld(np, Now(), db.nodes, db.ledger, tier, p); }
      if good {
        LaterKeeps(np, Now(), db.nodes, db.ledger, from, p);
        SaneLater(np, db.nodes, db.ledger, from, p);
        CompleteHeld(np, Now(), db.nodes, db.ledger, tier, p);
      }
      from := p;
      NothingTrimmed(np, Now(), db.nodes, db.ledger, p);
      while true
        invariant db == old(db) && initialized && |byTier| == 3 && from == p && Filed(db.nodes)
        invariant Agrees(Now()) && Reflects(Now(), db.nodes) && Trimmed(np, first, Now(), db.nodes, db.ledger, p)
        invariant good ==> Sane(np, db.nodes, db.ledger, p) && Complete(np, Now(), db.nodes, db.ledger, p)
        decreases |byTier[tier - 1]|
      {
        var front := First(byTier[tier - 1]);
        if front.None? {
          EmptyExact(np, first, Now(), db.nodes, db.ledger, tier, p);
          return None, None;
        }
        var k := front.value;
        FrontFacts(Now(), db.nodes, tier, k);
        if k.o !in metas { assert false; }
        var entry := metas[k.o];
        if entry.tier != tier { assert false; }
        var expired := ExpiredAt(np.ups, p, entry.lastConfirmedHeight);
        if !expired && Utxo(k.o) in db.ledger && db.ledger[Utxo(k.o)].Coin?
            && MatchesTier(np, p, db.ledger[Utxo(k.o)].entry.value, tier) {
          PayableIsEligible(np, db.nodes, db.ledger, tier, p, k.o);
          MetaMirrors(db.nodes[k.o]);
          FoundExact(np, first, Now(), db.nodes, db.ledger, tier, p, k);
          return Some(k.o), Some(entry);
        }
        UnpayableIsNot(np, db.nodes, db.ledger, tier, p, k.o);
        if good {
          UnpayableIsLost(np, db.nodes, db.ledger, tier, p, k.o);
          DropKeeps(np, Now(), db.nodes, db.ledger, p, k.o);
        }
        DropReflects(Now(), db.nodes, k.o);
        DropTrims(np, first, Now(), db.nodes, db.ledger, p, k.o);
        DropShrinks(Now(), tier, k);
        RemoveOutpoint(k.o);
      }
    }
  }

  lemma NothingCached()
    ensures var c := Cache([{}, {}, {}], map[], map[]); Agrees(c) && Reflects(c, map[]) && Full(c, map[])
  {
  }

  lemma FullIsComplete(np: NodeParams, c: Cache, nodes: map<OutPoint, NodeRecord>, ledger: Store, from: int)
    requires Full(c, nodes)
    ensures Complete(np, c, nodes, ledger, from)
  {
    hide KeyOf; hide Lost;
  }

  lemma NothingTrimmed(np: NodeParams, c: Cache, nodes: map<OutPoint, NodeRecord>, ledger: Store, p: u32)
    ensures Trimmed(np, c.metas, c, nodes, ledger, p)
  {
  }

  lemma PayableIsEligible(np: NodeParams, nodes: map<OutPoint, NodeRecord>, ledger: Store, tier: int, p: u32,
                          o: OutPoint)
    requires o in nodes && KeyOf(nodes[o]).Some? && nodes[o].tier == tier
             && !Overdue(np.ups, p, nodes[o].lastConfirmedHeight)
    requires Utxo(o) in ledger && ledger[Utxo(o)].Coin? && MatchesTier(np, p, ledger[Utxo(o)].entry.value, tier)
    ensures Eligible(np, nodes, ledger, tier, p, o)
  {
  }

  /** An entry of the tier fails one of the three tests. */
  ghost predicate Unpayable(np: NodeParams, nodes: map<OutPoint, NodeRecord>, ledger: Store, tier: int, p: u32,
                            o: OutPoint)
    requires o in nodes
  {
    || Overdue(np.ups, p, nodes[o].lastConfirmedHeight) || Utxo(o) !in ledger || !ledger[Utxo(o)].Coin?
    || !MatchesTier(np, p, ledger[Utxo(o)].entry.value, tier)
  }

  lemma UnpayableIsNot(np: NodeParams, nodes: map<OutPoint, NodeRecord>, ledger: Store, tier: int, p: u32, o: OutPoint)
    requires o in nodes && nodes[o].tier == tier && Unpayable(np, nodes, ledger, tier, p, o)
    ensures forall t: int :: !Eligible(np, nodes, ledger, t, p, o)
  {
    hide MatchesTier; hide Overdue;
  }

  /** Once unpayable, a record that was started right is unpayable for good. */
  lemma UnpayableIsLost(np: NodeParams, nodes: map<OutPoint, NodeRecord>, ledger: Store, tier: int, p: u32, o: OutPoint)
    requires Sane(np, nodes, ledger, p) && o in nodes && KeyOf(nodes[o]).Some? && nodes[o].tier == tier
    requires Unpayable(np, nodes, ledger, tier, p, o)
    ensures Lost(np, nodes, ledger, p, o)
  {
    hide MatchesTier; hide Overdue; hide Lost; hide Sane; hide KeyOf;
    if Overdue(np.ups, p, nodes[o].lastConfirmedHeight) {
      ExpiredIsLost(np, nodes, ledger, p, o);
    } else if Utxo(o) !in ledger || !ledger[Utxo(o)].Coin? {
      SpentIsLost(np, nodes, ledger, p, o);
    } else {
      MismatchIsLost(np, nodes, ledger, p, p, o);
    }
  }

  lemma DropTrims(np: NodeParams, first: map<OutPoint, Meta>, c: Cache, nodes: map<OutPoint, NodeRecord>,
                  ledger: Store, p: u32, o: OutPoint)
    requires Trimmed(np, first, c, nodes, ledger, p) && forall t: int :: !Eligible(np, nodes, ledger, t, p, o)
    ensures Trimmed(np, first, Without(c, o), nodes, ledger, p)
  {
    hide Eligible;
  }

  lemma SaneLater(np: NodeParams, nodes: map<OutPoint, NodeRecord>, ledger: Store, from: int, later: int)
    requires Sane(np, nodes, ledger, from) && from <= later
    ensures Sane(np, nodes, ledger, later)
  {
  }

  lemma SizeOfTiers(c: Cache)
    requires Agrees(c)
    ensures |c.byTier| == 3
  {
  }

  lemma ForwardLedger(db: Db, after: Db)
    requires Forward(db, after)
    ensures Forward(db, db.(ledger := after.ledger))
  {
  }

  lemma FrontFacts(c: Cache, nodes: map<OutPoint, NodeRecord>, tier: int, k: PayeeKey)
    requires Agrees(c) && Reflects(c, nodes) && 1 <= tier <= 3 && k in c.byTier[tier - 1]
    ensures k.o in c.metas && c.metas[k.o].tier == tier && k.o in nodes && KeyOf(nodes[k.o]).Some?
            && nodes[k.o].tier == tier
    ensures c.metas[k.o] == MetaOf(nodes[k.o]) && nodes[k.o].lastConfirmedHeight == c.metas[k.o].lastConfirmedHeight
  {
    assert KeyFiled(c, tier - 1, k);
  }

  lemma DropShrinks(c: Cache, tier: int, k: PayeeKey)
    requires Agrees(c) && 1 <= tier <= 3 && k in c.byTier[tier - 1]
    ensures |Without(c, k.o).byTier| == 3 && |Without(c, k.o).byTier[tier - 1]| < |c.byTier[tier - 1]|
  {
    assert KeyFiled(c, tier - 1, k);
  }
}
