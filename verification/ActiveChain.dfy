/** The state as a function of the active chain, and exactly when a block can be taken back. */
module ActiveChain {
  import opened Basics
  import opened Ledger
  import opened Chain
  import opened Sequential
  import opened Reversal
  import opened Rewind
  import opened Supply

  /** A block as it was connected: where it was stored and which nodes it paid. */
  datatype Link = Link(block: Block, location: nat, paid: seq<OutPoint>)

  type Links = s: seq<Link> | |s| <= I32_MAX && (forall i :: 0 <= i < |s| ==> s[i].block.txs != []) witness []

  function EmptyView(env: Env): (v: View) {
    View(map[], map[], {}, map[], map[], env.emptyTree(Sprout), env.emptyTree(Sapling), map[], map[], {}, None,
         Stats(0, 0), Pools(0, 0))
  }

  /** Connecting a chain from nothing, one block after the other. */
  function Replay(env: Env, links: Links): (r: Result<View>)
    decreases |links|
  {
    if links == [] then Ok(EmptyView(env))
    else
      var n := |links| - 1;
      var view :- Replay(env, links[..n]);
      var c :- ConnectView(env, view, links[n].block, n, links[n].location, links[n].paid);
      Ok(c.view)
  }

  // ---- transaction index rows ----

  lemma {:induction false} TxAtKept(s: Store, ops: seq<Op>, id: Hash)
    requires TxAt(id) in s && forall i :: 0 <= i < |ops| && ops[i].Del? ==> !ops[i].key.TxAt?
    ensures TxAt(id) in Apply(s, ops)
  {
    if ops != [] { TxAtKept(s, ops[..|ops| - 1], id); }
  }

  lemma {:induction false} InputsTxAt(env: Env, h: nat, j: nat, tx: Tx, n: nat, run: Run, id: Hash)
    requires n <= |tx.vin| && SpendInputs(env, h, j, tx, n, run).Ok? && TxAt(id) in run.ledger
    ensures TxAt(id) in SpendInputs(env, h, j, tx, n, run).value.0.ledger
  {
    hide SpendInput; hide Apply; hide AddressOf;
    if n > 0 {
      InputsTxAt(env, h, j, tx, n - 1, run, id);
      var before := SpendInputs(env, h, j, tx, n - 1, run).value;
      SpendInputEffect(env, h, j, tx, n - 1, before.0, before.1);
      TxAtKept(before.0.ledger, InputOps(env, h, j, tx, n - 1, before.0.ledger[Utxo(tx.vin[n - 1].prevout)].entry), id);
    }
  }

  lemma {:induction false} OutputsPut(env: Env, h: u32, j: nat, tx: Tx, n: nat)
    requires n <= |tx.vout|
    ensures forall i :: 0 <= i < |OutputsOps(env, h, j, tx, n)| ==> OutputsOps(env, h, j, tx, n)[i].Put?
  {
    hide AddressOf;
    if n > 0 { OutputsPut(env, h, j, tx, n - 1); }
  }

  lemma TxIndexed(env: Env, view: View, block: Block, h: u32, location: nat, j: nat, run: Run, g: Stages, after: Run,
                  id: Hash)
    requires j < |block.txs| && IsStages(env, view, block, h, location, j, run, after, g)
    requires Coins(env, run.ledger) && Unknown(run.ledger, block.txs[j].id)
    ensures TxAt(id) in run.ledger ==> TxAt(id) in after.ledger
    ensures env.options.indexTx ==> TxAt(block.txs[j].id) in after.ledger
  {
    hide IsStages; hide Coins; hide Unknown; hide SpendTx; hide ApplyNode; hide SpendInputs; hide OutputsOps;
    hide ValueOut; hide ShieldedIn; hide MoneyRange;
    var tx := block.txs[j];
    StageFacts(env, view, block, h, location, j, run, g, after);
    CoinsHeld(env, run.ledger);
    TxTotals(env, view, block, h, location, j, run, g, after);
    SpendTxParts(env, h, j, tx, g.checked);
    var outs := OutputsOps(env, h, j, tx, |tx.vout|);
    ApplyConcat(g.paid.ledger, outs, TxRowOps(env, j, tx, location));
    if env.options.indexTx {
      ApplyOne(Apply(g.paid.ledger, outs), Put(TxAt(tx.id), Location(location, j)));
    }
    if TxAt(id) in run.ledger {
      if j != 0 { InputsTxAt(env, h, j, tx, |tx.vin|, g.checked, id); }
      OutputsPut(env, h, j, tx, |tx.vout|);
      TxAtKept(g.paid.ledger, outs, id);
    }
  }

  /** After a prefix of a block: old index rows are kept, the prefix is indexed, and an id seen
      neither before nor in the prefix is still unknown. */
  lemma {:induction false} TxsIndexed(env: Env, view: View, block: Block, h: u32, location: nat, n: nat, id: Hash)
    requires n <= |block.txs| && StepTxs(env, view, block, h, location, n).Ok?
    requires Coins(env, view.ledger) && DistinctIds(block.txs) && NewIds(view.ledger, block.txs, 0)
    ensures var run := StepTxs(env, view, block, h, location, n).value;
            && (TxAt(id) in view.ledger ==> TxAt(id) in run.ledger)
            && (env.options.indexTx && (exists j :: 0 <= j < n && block.txs[j].id == id) ==> TxAt(id) in run.ledger)
            && (Unknown(view.ledger, id) && (forall j :: 0 <= j < n ==> block.txs[j].id != id) ==>
                  Unknown(run.ledger, id))
  {
    hide StepTx; hide Coins; hide NewIds; hide Unknown; hide IsStages;
    if n > 0 {
      TxsIndexed(env, view, block, h, location, n - 1, id);
      TxsKeep(env, view, block, h, location, n - 1);
      var run := StepTxs(env, view, block, h, location, n - 1).value;
      var g := StepTxStages(env, view, block, h, location, n - 1, run);
      var after := StepTxs(env, view, block, h, location, n).value;
      UnknownAt(run.ledger, block.txs, n - 1);
      TxIndexed(env, view, block, h, location, n - 1, run, g, after, id);
      TxKeeps(env, view, block, h, location, n - 1, run, g, after, id);
    }
  }

  // ---- what every chain state satisfies ----

  function BlockIds(block: Block): (ids: set<Hash>) { set j | 0 <= j < |block.txs| :: block.txs[j].id }

  function Ids(links: seq<Link>): (ids: set<Hash>) {
    if links == [] then {} else Ids(links[..|links| - 1]) + BlockIds(links[|links| - 1].block)
  }

  function Hashes(links: seq<Link>): (hs: set<Hash>) { set i | 0 <= i < |links| :: links[i].block.hash }

  /** No transaction id and no block hash occurs twice on the chain. */
  predicate DistinctChain(links: seq<Link>) {
    links == [] ||
    var n := |links| - 1;
    && DistinctChain(links[..n])
    && DistinctIds(links[n].block.txs) && BlockIds(links[n].block) !! Ids(links[..n])
    && links[n].block.hash !in Hashes(links[..n])
  }

  /** Every id off the chain is unknown, and every id on it is indexed. */
  ghost predicate KnowsIds(env: Env, s: Store, ids: set<Hash>) {
    && (forall id: Hash :: id !in ids ==> Unknown(s, id))
    && (env.options.indexTx ==> forall id: Hash :: id in ids ==> TxAt(id) in s)
  }

  ghost predicate KnowsBlocks(view: View, links: seq<Link>) {
    && view.heights == (map i | 0 <= i < |links| :: links[i].block.hash)
    && (forall h: Hash :: h in view.times ==> h in Hashes(links))
    && (forall t: u32, h: Hash :: (t, h) in view.timeIndex ==> h in Hashes(links))
    && view.tip == if links == [] then None else Some(links[|links| - 1].block.hash)
  }

  ghost predicate Reached(env: Env, links: seq<Link>, view: View) {
    && Sound(env, view) && Counted(view.ledger, view.stats)
    && KnowsIds(env, view.ledger, Ids(links)) && KnowsBlocks(view, links)
  }

  lemma LastIsNew(links: Links)
    requires DistinctChain(links) && links != []
    ensures var n := |links| - 1;
            && DistinctChain(links[..n]) && DistinctIds(links[n].block.txs)
            && BlockIds(links[n].block) !! Ids(links[..n])
            && links[n].block.hash !in Hashes(links[..n])
  {
  }

  lemma NewBlockIsFresh(env: Env, links: seq<Link>, view: View, block: Block)
    requires Reached(env, links, view)
    requires DistinctIds(block.txs) && BlockIds(block) !! Ids(links) && block.hash !in Hashes(links)
    ensures Fresh(view, block, |links|)
  {
    hide Sound; hide Counted; hide Unknown; hide KnowsIds; hide BlockIds; hide Ids; hide DistinctIds;
    NewIdsUnknown(env, links, view, block);
  }

  lemma NewIdsUnknown(env: Env, links: seq<Link>, view: View, block: Block)
    requires KnowsIds(env, view.ledger, Ids(links)) && BlockIds(block) !! Ids(links)
    ensures NewIds(view.ledger, block.txs, 0)
  {
    hide Unknown;
    assert forall k :: 0 <= k < |block.txs| ==> block.txs[k].id in BlockIds(block);
  }

  lemma CountedIsNonNegative(env: Env, s: Store, stats: Stats)
    requires Coins(env, s) && Counted(s, stats)
    ensures stats.total >= 0
  {
    hide AddressOf; hide Sum;
    forall k | k in UtxoRows(s) ensures CoinValue(UtxoRows(s)[k]) >= 0 {
      assert CoinRow(env, s, k.o);
    }
    SumNonNegative(UtxoRows(s));
  }

  lemma RootKept(env: Env, pool: Pool, before: Bytes, after: Bytes, anchors: map<Hash, Bytes>)
    requires RootKnown(env, pool, before, anchors)
    ensures RootKnown(env, pool, NewTree(env, pool, before, after), NewAnchors(env, pool, before, after, anchors))
  {
  }

  lemma SoundKept(env: Env, view: View, block: Block, h: u32, location: nat, paid: seq<OutPoint>)
    requires block.txs != [] && ConnectView(env, view, block, h, location, paid).Ok?
    requires Sound(env, view) && Counted(view.ledger, view.stats)
    requires DistinctIds(block.txs) && NewIds(view.ledger, block.txs, 0)
    ensures var after := ConnectView(env, view, block, h, location, paid).value.view;
            Sound(env, after) && Counted(after.ledger, after.stats)
  {
    hide ConnectView; hide StepTxs; hide Coins; hide NewIds; hide DistinctIds; hide Counted; hide PayNodes;
    hide NewStats; hide NewPools; hide NewAnchors; hide NewTree; hide RootKnown; hide ValueOut;
    var run, nodes, t := ConnectedRun(env, view, block, h, location, paid);
    TxsKeep(env, view, block, h, location, |block.txs|);
    NoInflation(env, view, block, h, location, paid);
    var after := ConnectView(env, view, block, h, location, paid).value.view;
    CountedIsNonNegative(env, after.ledger, after.stats);
    RootKept(env, Sprout, view.sproutTree, run.sproutTree, view.sproutAnchors);
    RootKept(env, Sapling, view.saplingTree, run.saplingTree, view.saplingAnchors);
  }

  lemma IdsKept(env: Env, view: View, block: Block, h: u32, location: nat, ids: set<Hash>, run: Run)
    requires StepTxs(env, view, block, h, location, |block.txs|) == Ok(run)
    requires Coins(env, view.ledger) && DistinctIds(block.txs) && NewIds(view.ledger, block.txs, 0)
    requires KnowsIds(env, view.ledger, ids)
    ensures KnowsIds(env, run.ledger, ids + BlockIds(block))
  {
    hide StepTxs; hide Coins; hide NewIds; hide DistinctIds; hide Unknown;
    forall id: Hash
      ensures id !in ids + BlockIds(block) ==> Unknown(run.ledger, id)
      ensures env.options.indexTx && id in ids + BlockIds(block) ==> TxAt(id) in run.ledger
    {
      TxsIndexed(env, view, block, h, location, |block.txs|, id);
    }
  }

  lemma ReachedKept(env: Env, links: Links, view: View)
    requires links != [] && DistinctChain(links)
    requires Reached(env, links[..|links| - 1], view)
    requires ConnectView(env, view, links[|links| - 1].block, |links| - 1, links[|links| - 1].location,
                         links[|links| - 1].paid).Ok?
    ensures var c := ConnectView(env, view, links[|links| - 1].block, |links| - 1, links[|links| - 1].location,
                                 links[|links| - 1].paid).value;
            Reached(env, links, c.view)
  {
    hide ConnectView; hide StepTxs; hide Coins; hide NewIds; hide DistinctIds; hide Counted; hide PayNodes;
    hide NewStats; hide NewPools; hide NewAnchors; hide NewTree; hide Sound; hide KnowsIds; hide ValueOut;
    hide KnowsBlocks; hide Hashes;
    var n := |links| - 1;
    var (block, location, paid) := (links[n].block, links[n].location, links[n].paid);
    NewBlockIsFresh(env, links[..n], view, block);
    SoundCoins(env, view);
    var run, nodes, t := ConnectedRun(env, view, block, n, location, paid);
    SoundKept(env, view, block, n, location, paid);
    IdsKept(env, view, block, n, location, Ids(links[..n]), run);
    var after := ConnectView(env, view, block, n, location, paid).value.view;
    BlocksKept(links, view, after, env.options.indexTime, t);
  }

  lemma BlocksKept(links: seq<Link>, view: View, after: View, indexTime: bool, t: u32)
    requires links != [] && KnowsBlocks(view, links[..|links| - 1])
    requires var hash := links[|links| - 1].block.hash;
             && after.heights == view.heights[|links| - 1 := hash]
             && after.times == (if indexTime then view.times[hash := t] else view.times)
             && after.timeIndex == (if indexTime then view.timeIndex + {(t, hash)} else view.timeIndex)
             && after.tip == Some(hash)
    ensures KnowsBlocks(after, links)
  {
    HashesSnoc(links);
    hide Hashes;
  }

  lemma SoundCoins(env: Env, view: View)
    requires Sound(env, view)
    ensures Coins(env, view.ledger)
  {
  }

  lemma HashesSnoc(links: seq<Link>)
    requires links != []
    ensures Hashes(links) == Hashes(links[..|links| - 1]) + {links[|links| - 1].block.hash}
  {
    var n := |links| - 1;
    forall h | h in Hashes(links) ensures h in Hashes(links[..n]) + {links[n].block.hash} {
      var i :| 0 <= i < |links| && links[i].block.hash == h;
      if i < n { assert links[..n][i].block.hash == h; }
    }
    forall h | h in Hashes(links[..n]) ensures h in Hashes(links) {
      var i :| 0 <= i < n && links[..n][i].block.hash == h;
      assert links[i].block.hash == h;
    }
  }

  /** Every state reached by connecting blocks keeps the ledger invariants, its running totals are
      exact sums, and its indexes know exactly the chain. */
  lemma {:induction false} ReplayReached(env: Env, links: Links)
    requires DistinctChain(links) && Replay(env, links).Ok?
    ensures Reached(env, links, Replay(env, links).value)
    decreases |links|
  {
    hide ConnectView; hide Reached;
    if links == [] {
      EmptyReached(env);
    } else {
      ReplayReached(env, links[..|links| - 1]);
      ReachedKept(env, links, Replay(env, links[..|links| - 1]).value);
    }
  }

  lemma EmptyReached(env: Env)
    ensures Reached(env, [], EmptyView(env))
  {
    assert UtxoRows(map[]) == map[];
  }

  /** Subsidy and scheduled funds of the heights from 3 to `n - 1`. */
  function Emission(env: Env, n: nat): (x: nat) {
    if n <= 3 then 0 else Emission(env, n - 1) + env.subsidy(n - 1) + env.extraFunds(n - 1)
  }

  /** No inflation along a whole chain: past the first three blocks, everything in circulation is
      bounded by what was scheduled. */
  lemma {:induction false} SupplyBound(env: Env, links: Links)
    requires DistinctChain(links) && Replay(env, links).Ok? && |links| >= 3
    ensures Replay(env, links[..3]).Ok?
    ensures Circulation(Replay(env, links).value) <= Circulation(Replay(env, links[..3]).value) + Emission(env, |links|)
    decreases |links|
  {
    hide ConnectView; hide Reached; hide Circulation; hide DistinctIds;
    var n := |links| - 1;
    if |links| == 3 {
      assert links[..3] == links;
    } else {
      SupplyBound(env, links[..n]);
      assert links[..n][..3] == links[..3];
      var before := Replay(env, links[..n]).value;
      ReplayReached(env, links[..n]);
      NewBlockIsFresh(env, links[..n], before, links[n].block);
      ReachedParts(env, links[..n], before, links[n].block);
      NoInflation(env, before, links[n].block, n, links[n].location, links[n].paid);
    }
  }

  lemma ReachedParts(env: Env, links: seq<Link>, view: View, block: Block)
    requires Reached(env, links, view) && Fresh(view, block, |links|)
    ensures Coins(env, view.ledger) && Counted(view.ledger, view.stats) && NewIds(view.ledger, block.txs, 0)
  {
    hide Coins; hide Counted; hide NewIds; hide KnowsIds; hide KnowsBlocks; hide RootKnown; hide DistinctIds;
  }
}
