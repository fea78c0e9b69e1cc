/** What the chain guarantees about node records: each was started on a coin of its tier, and no coin
    behind a record ever comes back once it is spent. */
module NodeChain {
  import opened Basics
  import opened Undo
  import opened Ledger
  import opened Chain
  import opened Sequential
  import opened Reversal
  import opened Room
  import opened Rewind
  import opened ActiveChain
  import opened Payees
  import opened Payments
  import opened Fairness
  import opened Disconnect
  import ConnectBlock
  import Supply

  // ---- what node validation gives ----

  /** The collateral of a start is an unspent coin whose amount is that of the tier it is filed under. */
  predicate StartChecked(np: NodeParams, ledger: Store, c: OutPoint, h: nat, meta: Option<StartMeta>) {
    && meta.Some? && Utxo(c) in ledger && ledger[Utxo(c)].Coin?
    && MatchesTier(np, h, ledger[Utxo(c)].entry.value, meta.value.tier)
  }

  predicate IsStart(tx: Tx) { tx.node.Some? && tx.node.value.Start? }

  /** Accepted starts have had their collateral looked up in the ledger before the block: coins of the
      same block are too young. */
  ghost predicate NodeRules(env: Env, np: NodeParams) {
    forall ledger, nodes, block: Block, h, j ::
      0 <= j < |block.txs| && IsStart(block.txs[j]) && env.nodeCheck(ledger, nodes, block, h, j).Some? ==>
        StartChecked(np, ledger, block.txs[j].node.value.collateral, h, env.nodeCheck(ledger, nodes, block, h, j).value)
  }

  // ---- records ----

  /** Where a record comes from: it was there with the same start, or it was started at `h` on a coin
      of `ledger`. */
  predicate RecordFrom(np: NodeParams, was: Option<NodeRecord>, now: Option<NodeRecord>, ledger: Store, c: OutPoint,
                       h: u32) {
    now.Some? ==>
      || (was.Some? && now.value.startHeight == was.value.startHeight && now.value.tier == was.value.tier
          && now.value.collateral == was.value.collateral)
      || (now.value.startHeight == h && now.value.collateral == c
          && StartChecked(np, ledger, c, h, Some(StartMeta(now.value.tier, 0))))
  }

  lemma WriteFrom(np: NodeParams, t: NodeTx, h: u32, meta: Option<StartMeta>, nodes: map<OutPoint, NodeRecord>,
                  ledger: Store, c: OutPoint)
    requires t.Start? ==> StartChecked(np, ledger, t.collateral, h, meta)
    ensures RecordFrom(np, Lookup(nodes, c), Lookup(NodeMap(Some(t), h, meta, nodes), c), ledger, c, h)
  {
    hide MatchesTier;
  }

  lemma TxFrom(env: Env, np: NodeParams, view: View, block: Block, h: u32, location: nat, j: nat, run: Run, c: OutPoint)
    requires NodeRules(env, np) && j < |block.txs| && StepTx(env, view, block, h, location, j, run).Ok?
    ensures RecordFrom(np, Lookup(run.nodes, c), Lookup(StepTx(env, view, block, h, location, j, run).value.nodes, c),
                       view.ledger, c, h)
  {
    hide StepTx; hide NodeMap; hide RecordFrom; hide Lookup; hide StartChecked;
    var meta := StepNodes(env, view, block, h, location, j, run);
    var t := block.txs[j].node;
    if t.Some? {
      assert t.value.Start? ==> IsStart(block.txs[j]);
      WriteFrom(np, t.value, h, meta, run.nodes, view.ledger, c);
    } else {
      SameNodes(h, meta, run.nodes);
      SameRecord(np, Lookup(run.nodes, c), view.ledger, c, h);
    }
  }

  lemma SameRecord(np: NodeParams, n: Option<NodeRecord>, ledger: Store, c: OutPoint, h: u32)
    ensures RecordFrom(np, n, n, ledger, c, h)
  {
  }

  lemma FromTransitive(np: NodeParams, a: Option<NodeRecord>, b: Option<NodeRecord>, d: Option<NodeRecord>,
                       ledger: Store, c: OutPoint, h: u32)
    requires RecordFrom(np, a, b, ledger, c, h) && RecordFrom(np, b, d, ledger, c, h)
    ensures RecordFrom(np, a, d, ledger, c, h)
  {
    hide MatchesTier;
  }

  lemma {:induction false} TxsFrom(env: Env, np: NodeParams, view: View, block: Block, h: u32, location: nat, n: nat,
                                   c: OutPoint)
    requires NodeRules(env, np) && n <= |block.txs| && StepTxs(env, view, block, h, location, n).Ok?
    ensures RecordFrom(np, Lookup(view.nodes, c), Lookup(StepTxs(env, view, block, h, location, n).value.nodes, c),
                       view.ledger, c, h)
  {
    hide StepTx; hide RecordFrom; hide Lookup; hide NodeRules;
    if n == 0 {
      SameRecord(np, Lookup(view.nodes, c), view.ledger, c, h);
    } else {
      TxsFrom(env, np, view, block, h, location, n - 1, c);
      var run := StepTxs(env, view, block, h, location, n - 1).value;
      TxFrom(env, np, view, block, h, location, n - 1, run, c);
      FromTransitive(np, Lookup(view.nodes, c), Lookup(run.nodes, c),
                     Lookup(StepTxs(env, view, block, h, location, n).value.nodes, c), view.ledger, c, h);
    }
  }

  lemma PaidFrom(np: NodeParams, n: NodeRecord, ledger: Store, c: OutPoint, h: u32)
    ensures RecordFrom(np, Some(n), Some(n.(lastPaidHeight := h)), ledger, c, h)
  {
  }

  /** Every record after a connected block has the start it had, or was started by the block. */
  lemma BlockFrom(env: Env, np: NodeParams, view: View, block: Block, h: u32, location: nat, paid: seq<OutPoint>,
                  c: OutPoint)
    requires NodeRules(env, np) && block.txs != [] && ConnectView(env, view, block, h, location, paid).Ok?
    ensures var after := ConnectView(env, view, block, h, location, paid).value.view;
            RecordFrom(np, Lookup(view.nodes, c), Lookup(after.nodes, c), view.ledger, c, h)
  {
    hide ConnectView; hide StepTxs; hide PayNodes; hide NewAnchors; hide NewTree; hide ValueOut; hide NewStats;
    hide NewPools; hide RecordFrom; hide NodeRules;
    var run, nodes, t := ConnectedRun(env, view, block, h, location, paid);
    TxsFrom(env, np, view, block, h, location, |block.txs|, c);
    PaidAre(h, paid, run.nodes, [], c);
    if c in paid {
      PaidFrom(np, run.nodes[c], view.ledger, c, h);
      FromTransitive(np, Lookup(view.nodes, c), Lookup(run.nodes, c), Lookup(nodes, c), view.ledger, c, h);
    }
  }

  // ---- coins ----

  predicate NoCoin(ops: seq<Op>, o: OutPoint) { forall i :: 0 <= i < |ops| && ops[i].Put? ==> ops[i].key != Utxo(o) }

  /** The coin at `o`, if any, is the one of the earlier ledger. */
  predicate SameCoin(s: Store, t: Store, o: OutPoint) { Utxo(o) in t ==> Utxo(o) in s && t[Utxo(o)] == s[Utxo(o)] }

  lemma {:induction false} ApplyCoin(s: Store, ops: seq<Op>, o: OutPoint)
    requires NoCoin(ops, o)
    ensures SameCoin(s, Apply(s, ops), o)
  {
    if ops != [] { ApplyCoin(s, ops[..|ops| - 1], o); }
  }

  lemma {:induction false} InputsCoin(env: Env, h: nat, j: nat, tx: Tx, n: nat, run: Run, o: OutPoint)
    requires n <= |tx.vin| && SpendInputs(env, h, j, tx, n, run).Ok?
    ensures SameCoin(run.ledger, SpendInputs(env, h, j, tx, n, run).value.0.ledger, o)
  {
    hide SpendInput; hide Apply; hide AddressOf;
    if n > 0 {
      InputsCoin(env, h, j, tx, n - 1, run, o);
      var before := SpendInputs(env, h, j, tx, n - 1, run).value;
      SpendInputEffect(env, h, j, tx, n - 1, before.0, before.1);
      ApplyCoin(before.0.ledger, InputOps(env, h, j, tx, n - 1, before.0.ledger[Utxo(tx.vin[n - 1].prevout)].entry), o);
    }
  }

  lemma {:induction false} OutputsCoin(env: Env, h: u32, j: nat, tx: Tx, n: nat, o: OutPoint)
    requires n <= |tx.vout| && o.hash != tx.id
    ensures NoCoin(OutputsOps(env, h, j, tx, n), o)
  {
    hide AddressOf;
    if n > 0 { OutputsCoin(env, h, j, tx, n - 1, o); }
  }

  lemma StepCoin(env: Env, view: View, block: Block, h: u32, location: nat, j: nat, run: Run, o: OutPoint)
    requires j < |block.txs| && StepTx(env, view, block, h, location, j, run).Ok? && o.hash != block.txs[j].id
    ensures SameCoin(run.ledger, StepTx(env, view, block, h, location, j, run).value.ledger, o)
  {
    hide StepTx; hide CheckNode; hide OutputsInRange; hide ShieldedInRange; hide CheckShielded; hide SpendTx;
    hide NodeWrite; hide GrowTrees; hide SpendInputs; hide OutputsOps; hide Apply; hide ValueOut; hide ShieldedIn;
    hide SumOut;
    var tx := block.txs[j];
    var g := StepTxStages(env, view, block, h, location, j, run);
    ShieldedFrame(env, view, tx, run);
    SpendTxParts(env, h, j, tx, g.checked);
    if j != 0 { InputsCoin(env, h, j, tx, |tx.vin|, g.checked, o); }
    TreesFrame(env, tx, g.noded);
    OutputsCoin(env, h, j, tx, |tx.vout|, o);
    ApplyCoin(g.grown.ledger, OutputsOps(env, h, j, tx, |tx.vout|) + TxRowOps(env, j, tx, location), o);
  }

  lemma {:induction false} TxsCoin(env: Env, view: View, block: Block, h: u32, location: nat, n: nat, o: OutPoint)
    requires n <= |block.txs| && StepTxs(env, view, block, h, location, n).Ok? && o.hash !in BlockIds(block)
    ensures SameCoin(view.ledger, StepTxs(env, view, block, h, location, n).value.ledger, o)
  {
    hide StepTx;
    if n > 0 {
      TxsCoin(env, view, block, h, location, n - 1, o);
      StepCoin(env, view, block, h, location, n - 1, StepTxs(env, view, block, h, location, n - 1).value, o);
    }
  }

  /** A block adds no coin but those of its own transactions, and changes none. */
  lemma BlockCoin(env: Env, view: View, block: Block, h: u32, location: nat, paid: seq<OutPoint>, o: OutPoint)
    requires block.txs != [] && ConnectView(env, view, block, h, location, paid).Ok? && o.hash !in BlockIds(block)
    ensures SameCoin(view.ledger, ConnectView(env, view, block, h, location, paid).value.view.ledger, o)
  {
    hide ConnectView; hide StepTxs; hide PayNodes; hide NewAnchors; hide NewTree; hide ValueOut; hide NewStats;
    hide NewPools; hide BlockIds;
    var run, nodes, t := ConnectedRun(env, view, block, h, location, paid);
    TxsCoin(env, view, block, h, location, |block.txs|, o);
  }

  // ---- along a chain ----

  /** A record sits under its own collateral, which a transaction of the chain created, and while that
      coin is unspent it is of the record's tier. */
  predicate RecordRight(np: NodeParams, ids: set<Hash>, ledger: Store, c: OutPoint, n: NodeRecord, from: int) {
    && n.collateral == c && c.hash in ids
    && (Utxo(c) in ledger && ledger[Utxo(c)].Coin? ==>
          n.startHeight <= from && MatchesTier(np, n.startHeight, ledger[Utxo(c)].entry.value, n.tier))
  }

  ghost predicate RecordsRight(np: NodeParams, ids: set<Hash>, view: View, from: int) {
    forall c :: c in view.nodes ==> RecordRight(np, ids, view.ledger, c, view.nodes[c], from)
  }

  lemma RecordStaysRight(np: NodeParams, ids: set<Hash>, ids': set<Hash>, before: View, after: View, c: OutPoint,
                         h: u32)
    requires RecordsRight(np, ids, before, h - 1) && ids <= ids' && c in after.nodes
    requires RecordFrom(np, Lookup(before.nodes, c), Lookup(after.nodes, c), before.ledger, c, h)
    requires Utxo(c) in before.ledger ==> c.hash in ids
    requires c.hash in ids ==> SameCoin(before.ledger, after.ledger, c)
    ensures RecordRight(np, ids', after.ledger, c, after.nodes[c], h)
  {
    hide MatchesTier;
    if c in before.nodes { assert RecordRight(np, ids, before.ledger, c, before.nodes[c], h - 1); }
  }

  lemma KnownCoin(env: Env, s: Store, ids: set<Hash>, o: OutPoint)
    requires KnowsIds(env, s, ids) && Utxo(o) in s
    ensures o.hash in ids
  {
    if o.hash !in ids { assert Unknown(s, o.hash) && Mentions(Utxo(o), o.hash); }
  }

  /** Every chain state has its records right. */
  lemma {:induction false} ReplayRight(env: Env, np: NodeParams, links: Links)
    requires NodeRules(env, np) && DistinctChain(links) && Replay(env, links).Ok?
    ensures RecordsRight(np, Ids(links), Replay(env, links).value, |links| - 1)
    decreases |links|
  {
    hide ConnectView; hide NodeRules; hide RecordFrom; hide RecordRight; hide BlockIds; hide SameCoin; hide Reached;
    hide DistinctIds; hide Hashes;
    if links != [] {
      var n := |links| - 1;
      ReplayRight(env, np, links[..n]);
      BlockRight(env, np, links[..n], links[n]);
    }
  }

  lemma BlockRight(env: Env, np: NodeParams, links: Links, next: Link)
    requires NodeRules(env, np) && DistinctChain(links) && Replay(env, links).Ok? && |links| < I32_MAX
             && next.block.txs != []
    requires RecordsRight(np, Ids(links), Replay(env, links).value, |links| - 1) && BlockIds(next.block) !! Ids(links)
    requires ConnectView(env, Replay(env, links).value, next.block, |links|, next.location, next.paid).Ok?
    ensures var after := ConnectView(env, Replay(env, links).value, next.block, |links|, next.location,
                                     next.paid).value.view;
            RecordsRight(np, Ids(links) + BlockIds(next.block), after, |links|)
  {
    hide ConnectView; hide Replay; hide NodeRules; hide RecordFrom; hide RecordRight; hide BlockIds; hide Ids;
    hide SameCoin; hide Lookup; hide DistinctChain; hide Sound; hide Supply.Counted; hide KnowsIds; hide KnowsBlocks;
    hide RecordsRight;
    var before := Replay(env, links).value;
    var after := ConnectView(env, before, next.block, |links|, next.location, next.paid).value.view;
    ReplayReached(env, links);
    forall c | c in after.nodes ensures RecordRight(np, Ids(links) + BlockIds(next.block), after.ledger, c,
                                                    after.nodes[c], |links|) {
      BlockFrom(env, np, before, next.block, |links|, next.location, next.paid, c);
      if Utxo(c) in before.ledger { KnownCoin(env, before.ledger, Ids(links), c); }
      if c.hash in Ids(links) { BlockCoin(env, before, next.block, |links|, next.location, next.paid, c); }
      RecordStaysRight(np, Ids(links), Ids(links) + BlockIds(next.block), before, after, c, |links|);
    }
    RightMeans(np, Ids(links) + BlockIds(next.block), after, |links|);
  }

  lemma RightMeans(np: NodeParams, ids: set<Hash>, view: View, from: int)
    requires forall c :: c in view.nodes ==> RecordRight(np, ids, view.ledger, c, view.nodes[c], from)
    ensures RecordsRight(np, ids, view, from)
  {
  }

  // ---- what the payments cache needs ----

  lemma RightIsSane(np: NodeParams, ids: set<Hash>, view: View, from: int)
    requires RecordsRight(np, ids, view, from)
    ensures Sane(np, view.nodes, view.ledger, from)
  {
    hide MatchesTier; hide KeyOf;
    forall c | c in view.nodes ensures view.nodes[c].collateral == c
        && StartedRight(np, view.nodes[c], view.ledger, from) {
      assert RecordRight(np, ids, view.ledger, c, view.nodes[c], from);
    }
  }

  /** Connecting a block of new transactions moves the store forward. */
  lemma BlockForward(env: Env, np: NodeParams, links: Links, next: Link, db: Db, after: Db)
    requires NodeRules(env, np) && DistinctChain(links) && Replay(env, links) == Ok(ViewOf(env, db))
             && |links| < I32_MAX
    requires next.block.txs != [] && BlockIds(next.block) !! Ids(links)
    requires ConnectView(env, ViewOf(env, db), next.block, |links|, next.location, next.paid).Ok?
    requires ViewOf(env, after) == ConnectView(env, ViewOf(env, db), next.block, |links|, next.location,
                                               next.paid).value.view
    ensures Forward(db, after)
  {
    hide ConnectView; hide Replay; hide NodeRules; hide BlockIds; hide Ids; hide DistinctChain; hide MatchesTier;
    ReplayRight(env, np, links);
    forall c | c in db.nodes && Utxo(c) in after.ledger ensures Utxo(c) in db.ledger
        && after.ledger[Utxo(c)] == db.ledger[Utxo(c)] {
      assert RecordRight(np, Ids(links), db.ledger, c, db.nodes[c], |links| - 1);
      BlockCoin(env, ViewOf(env, db), next.block, |links|, next.location, next.paid, c);
    }
  }

  // ---- what taking a block back leaves alone ----

  /** The collaterals whose records a block writes: those of its node transactions and of the nodes it
      pays. */
  function Written(link: Link): (keys: set<OutPoint>) {
    (set j | 0 <= j < |link.block.txs| && link.block.txs[j].node.Some? :: link.block.txs[j].node.value.collateral)
    + (set j | 0 <= j < |link.paid| :: link.paid[j])
  }

  lemma TxUndoWithin(env: Env, view: View, block: Block, h: u32, location: nat, j: nat, run: Run, keys: set<OutPoint>)
    requires j < |block.txs| && StepTx(env, view, block, h, location, j, run).Ok? && Filed(run.nodes)
             && UndoWithin(run.nodeUndo, keys)
             && (block.txs[j].node.Some? ==> block.txs[j].node.value.collateral in keys)
    ensures var after := StepTx(env, view, block, h, location, j, run).value;
            Filed(after.nodes) && UndoWithin(after.nodeUndo, keys)
  {
    hide StepTx; hide CheckNode; hide OutputsInRange; hide ShieldedInRange; hide CheckShielded; hide SpendTx;
    hide GrowTrees; hide SpendInputs; hide OutputsOps; hide Apply; hide ValueOut; hide ShieldedIn; hide SumOut;
    var tx := block.txs[j];
    var g := StepTxStages(env, view, block, h, location, j, run);
    ShieldedFrame(env, view, tx, run);
    SpendTxParts(env, h, j, tx, g.checked);
    if j != 0 { SpendInputsFrame(env, h, j, tx, |tx.vin|, g.checked); }
    TreesFrame(env, tx, g.noded);
  }

  lemma {:induction false} TxsUndoWithin(env: Env, view: View, link: Link, h: u32, n: nat)
    requires n <= |link.block.txs| && StepTxs(env, view, link.block, h, link.location, n).Ok? && Filed(view.nodes)
    ensures var run := StepTxs(env, view, link.block, h, link.location, n).value;
            Filed(run.nodes) && UndoWithin(run.nodeUndo, Written(link))
  {
    hide StepTx; hide Filed;
    if n > 0 {
      TxsUndoWithin(env, view, link, h, n - 1);
      TxUndoWithin(env, view, link.block, h, link.location, n - 1,
                   StepTxs(env, view, link.block, h, link.location, n - 1).value, Written(link));
    }
  }

  lemma {:induction false} PaidUndoWithin(h: u32, paid: seq<OutPoint>, nodes: map<OutPoint, NodeRecord>,
                                          undo: seq<NodeUndo>, keys: set<OutPoint>)
    requires PayNodes(h, paid, nodes, undo).Ok? && Filed(nodes) && UndoWithin(undo, keys)
             && forall i :: 0 <= i < |paid| ==> paid[i] in keys
    ensures UndoWithin(PayNodes(h, paid, nodes, undo).value.1, keys)
    decreases |paid|
  {
    if paid != [] {
      var n := nodes[paid[0]];
      PaidUndoWithin(h, paid[1..], nodes[paid[0] := n.(lastPaidHeight := h)], undo + [NodeUndo(paid[0], Some(n))],
                     keys);
    }
  }

  /** A block's undo record keeps node records under their own collateral, of no node but those whose
      record the block wrote. */
  lemma BlockUndoWithin(env: Env, view: View, link: Link, h: u32)
    requires link.block.txs != [] && Filed(view.nodes)
             && ConnectView(env, view, link.block, h, link.location, link.paid).Ok?
    ensures var undo := ConnectView(env, view, link.block, h, link.location, link.paid).value.undo;
            RecordsFiled(undo) && UndoKeys(undo) <= Written(link)
  {
    hide ConnectView; hide StepTxs; hide PayNodes; hide NewAnchors; hide NewTree; hide ValueOut; hide NewStats;
    hide NewPools; hide Filed;
    var run, nodes, t := ConnectedRun(env, view, link.block, h, link.location, link.paid);
    TxsUndoWithin(env, view, link, h, |link.block.txs|);
    PaidUndoWithin(h, link.paid, run.nodes, [], Written(link));
  }

  /** Outside `keys`, the same nodes are cached and the same records stored. */
  ghost predicate SameOutside(keys: set<OutPoint>, c: Cache, d: Cache, db: Db, after: Db) {
    forall o :: o !in keys ==> (o in d.metas <==> o in c.metas) && Lookup(after.nodes, o) == Lookup(db.nodes, o)
  }

  lemma {:induction false} WithinLeaves(c: Cache, db: Db, batch: Batch, keys: set<OutPoint>)
    requires |c.byTier| == 3 && Within(batch, keys)
    ensures SameOutside(keys, c, Followed(c, batch), db, Commit(db, batch))
    decreases |batch|
  {
    hide CommitOp; hide KeyOf; hide MetaOf;
    if batch != [] {
      var n := |batch| - 1;
      WithinLeaves(c, db, batch[..n], keys);
      ConnectBlock.NodesAfter(Commit(db, batch[..n]), batch[n]);
    }
  }

  // ---- spent coins ----

  /** A spent coin was there before and is gone afterwards. */
  predicate Gone(s: Store, t: Store, o: OutPoint) { Utxo(o) in s && s[Utxo(o)].Coin? && Utxo(o) !in t }

  lemma {:induction false} InputsSpend(env: Env, h: nat, j: nat, tx: Tx, n: nat, run: Run, x: nat)
    requires x < n <= |tx.vin| && SpendInputs(env, h, j, tx, n, run).Ok?
    ensures Gone(run.ledger, SpendInputs(env, h, j, tx, n, run).value.0.ledger, tx.vin[x].prevout)
  {
    hide SpendInput; hide Apply; hide AddressOf;
    var o := tx.vin[x].prevout;
    var before := SpendInputs(env, h, j, tx, n - 1, run).value;
    SpendInputEffect(env, h, j, tx, n - 1, before.0, before.1);
    if x == n - 1 {
      InputsCoin(env, h, j, tx, n - 1, run, o);
      InputApplied(env, before.0.ledger, h, j, tx, x, before.0.ledger[Utxo(o)].entry);
    } else {
      InputsSpend(env, h, j, tx, n - 1, run, x);
      ApplyCoin(before.0.ledger, InputOps(env, h, j, tx, n - 1, before.0.ledger[Utxo(tx.vin[n - 1].prevout)].entry), o);
    }
  }

  lemma StepSpend(env: Env, view: View, block: Block, h: u32, location: nat, j: nat, run: Run, x: nat)
    requires 0 < j < |block.txs| && StepTx(env, view, block, h, location, j, run).Ok? && x < |block.txs[j].vin|
             && block.txs[j].vin[x].prevout.hash != block.txs[j].id
    ensures Gone(run.ledger, StepTx(env, view, block, h, location, j, run).value.ledger, block.txs[j].vin[x].prevout)
  {
    hide StepTx; hide CheckNode; hide OutputsInRange; hide ShieldedInRange; hide CheckShielded; hide SpendTx;
    hide NodeWrite; hide GrowTrees; hide SpendInputs; hide OutputsOps; hide Apply; hide ValueOut; hide ShieldedIn;
    hide SumOut;
    var tx := block.txs[j];
    var o := tx.vin[x].prevout;
    var g := StepTxStages(env, view, block, h, location, j, run);
    ShieldedFrame(env, view, tx, run);
    SpendTxParts(env, h, j, tx, g.checked);
    InputsSpend(env, h, j, tx, |tx.vin|, g.checked, x);
    TreesFrame(env, tx, g.noded);
    OutputsCoin(env, h, j, tx, |tx.vout|, o);
    ApplyCoin(g.grown.ledger, OutputsOps(env, h, j, tx, |tx.vout|) + TxRowOps(env, j, tx, location), o);
  }

  lemma {:induction false} TxsSpend(env: Env, view: View, block: Block, h: u32, location: nat, n: nat, k: nat, x: nat,
                                    o: OutPoint)
    requires k < n <= |block.txs| && StepTxs(env, view, block, h, location, n).Ok? && SpendsAt(block, k, x, o)
             && o.hash !in BlockIds(block)
    ensures Gone(view.ledger, StepTxs(env, view, block, h, location, n).value.ledger, o)
  {
    hide StepTx;
    var run := StepTxs(env, view, block, h, location, n - 1).value;
    if k == n - 1 {
      TxsCoin(env, view, block, h, location, n - 1, o);
      StepSpend(env, view, block, h, location, n - 1, run, x);
    } else {
      TxsSpend(env, view, block, h, location, n - 1, k, x, o);
      StepCoin(env, view, block, h, location, n - 1, run, o);
    }
  }

  lemma BlockSpend(env: Env, view: View, block: Block, h: u32, location: nat, paid: seq<OutPoint>, k: nat, x: nat,
                   o: OutPoint)
    requires block.txs != [] && ConnectView(env, view, block, h, location, paid).Ok? && SpendsAt(block, k, x, o)
             && o.hash !in BlockIds(block)
    ensures Gone(view.ledger, ConnectView(env, view, block, h, location, paid).value.view.ledger, o)
  {
    hide ConnectView; hide StepTxs; hide PayNodes; hide NewAnchors; hide NewTree; hide ValueOut; hide NewStats;
    hide NewPools; hide BlockIds;
    var run, nodes, t := ConnectedRun(env, view, block, h, location, paid);
    TxsSpend(env, view, block, h, location, |block.txs|, k, x, o);
  }
}
