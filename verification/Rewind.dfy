/** Disconnecting a whole block: the reverse of `Sequential.ConnectView`. */
module Rewind {
  import opened Basics
  import opened Undo
  import opened Ledger
  import opened Chain
  import opened Sequential
  import opened Reversal
  import opened Room

  // ---- nullifiers ----

  function Tagged(pool: Pool, hs: seq<Hash>): (s: set<(Pool, Hash)>) {
    set i | 0 <= i < |hs| :: (pool, hs[i])
  }

  function JoinSplitNulls(js: seq<JoinSplit>): (s: set<(Pool, Hash)>) {
    if js == [] then {} else Tagged(Sprout, js[0].nullifiers) + JoinSplitNulls(js[1..])
  }

  function SpendNulls(spends: seq<ShieldedSpend>): (s: set<(Pool, Hash)>) {
    if spends == [] then {} else {(Sapling, spends[0].nullifier)} + SpendNulls(spends[1..])
  }

  function TxNulls(tx: Tx): (s: set<(Pool, Hash)>) { JoinSplitNulls(tx.joinSplits) + SpendNulls(tx.spends) }

  /** The nullifiers of the first `n` transactions. */
  function BlockNulls(block: Block, n: nat): (s: set<(Pool, Hash)>)
    requires n <= |block.txs|
  {
    if n == 0 then {} else BlockNulls(block, n - 1) + TxNulls(block.txs[n - 1])
  }

  lemma {:induction false} NullifiersAdded(before: set<(Pool, Hash)>, nulls: set<(Pool, Hash)>, pool: Pool,
                                           hs: seq<Hash>)
    requires AddNullifiers(before, nulls, pool, hs).Ok?
    ensures AddNullifiers(before, nulls, pool, hs) == Ok(nulls + Tagged(pool, hs))
    ensures nulls !! Tagged(pool, hs)
    decreases |hs|
  {
    if hs != [] {
      NullifiersAdded(before, nulls + {(pool, hs[0])}, pool, hs[1..]);
      assert Tagged(pool, hs) == {(pool, hs[0])} + Tagged(pool, hs[1..]) by {
        forall x | x in Tagged(pool, hs) ensures x in {(pool, hs[0])} + Tagged(pool, hs[1..]) {
          var i :| 0 <= i < |hs| && x == (pool, hs[i]);
          if i > 0 { assert hs[1..][i - 1] == hs[i]; }
        }
      }
      assert nulls + {(pool, hs[0])} + Tagged(pool, hs[1..]) == nulls + Tagged(pool, hs);
    } else {
      assert nulls + Tagged(pool, hs) == nulls;
    }
  }

  lemma {:induction false} JoinSplitsAdded(env: Env, view: View, js: seq<JoinSplit>, nulls: set<(Pool, Hash)>,
                                           inner: map<Hash, Bytes>, sprout: i64)
    requires JoinSplits(env, view, js, nulls, inner, sprout).Ok?
    ensures var r := JoinSplits(env, view, js, nulls, inner, sprout).value;
            && r.0 == nulls + JoinSplitNulls(js) && nulls !! JoinSplitNulls(js)
            && JoinSplitDelta(js, sprout) == Ok(r.1)
            && r.1 == sprout + SumOld(js) - SumNew(js)
    decreases |js|
  {
    hide AddNullifiers; hide AnchorTree; hide AppendAll; hide Tagged;
    SumCons(js);
    if js != [] {
      NullifiersAdded(view.nulls, nulls, Sprout, js[0].nullifiers);
      var nulls' := AddNullifiers(view.nulls, nulls, Sprout, js[0].nullifiers).value;
      var base := AnchorTree(env, view, inner, js[0].anchor).value;
      var grown := AppendAll(env, Sprout, base, js[0].commitments).value;
      JoinSplitsAdded(env, view, js[1..], nulls', inner[env.root(Sprout, grown) := grown],
                      sprout + js[0].vpubOld - js[0].vpubNew);
    }
  }

  /** Sums taken from the front instead of the back. */
  lemma {:induction false} SumCons(js: seq<JoinSplit>)
    ensures js != [] ==> SumOld(js) == js[0].vpubOld + SumOld(js[1..])
    ensures js != [] ==> SumNew(js) == js[0].vpubNew + SumNew(js[1..])
    decreases |js|
  {
    if |js| > 1 {
      SumCons(js[..|js| - 1]);
      assert js[1..][..|js| - 2] == js[..|js| - 1][1..];
    }
  }

  lemma {:induction false} SpendsAdded(env: Env, view: View, spends: seq<ShieldedSpend>, nulls: set<(Pool, Hash)>)
    requires Spends(env, view, spends, nulls).Ok?
    ensures Spends(env, view, spends, nulls) == Ok(nulls + SpendNulls(spends))
    ensures nulls !! SpendNulls(spends)
    decreases |spends|
  {
    if spends != [] {
      var hs := [spends[0].nullifier];
      NullifiersAdded(view.nulls, nulls, Sapling, hs);
      assert Tagged(Sapling, hs) == {(Sapling, spends[0].nullifier)} by { assert hs[0] == spends[0].nullifier; }
      hide AddNullifiers; hide Tagged;
      SpendsAdded(env, view, spends[1..], nulls + {(Sapling, spends[0].nullifier)});
      assert nulls + {(Sapling, spends[0].nullifier)} + SpendNulls(spends[1..]) == nulls + SpendNulls(spends);
    } else {
      assert nulls + SpendNulls(spends) == nulls;
    }
  }

  // ---- pool movements ----

  function JoinSplitDelta(js: seq<JoinSplit>, sprout: i64): (r: Result<i64>)
    decreases |js|
  {
    if js == [] then Ok(sprout)
    else
      var up :- CheckedI64(sprout + js[0].vpubOld);
      var delta :- CheckedI64(up - js[0].vpubNew);
      JoinSplitDelta(js[1..], delta)
  }

  /** `value_pool_deltas` over the first `n` transactions. */
  function PoolDeltas(block: Block, n: nat): (r: Result<(i64, i64)>)
    requires n <= |block.txs|
  {
    if n == 0 then Ok((0, 0))
    else
      var before :- PoolDeltas(block, n - 1);
      var sapling :- CheckedI64(before.1 - block.txs[n - 1].valueBalance);
      var sprout :- JoinSplitDelta(block.txs[n - 1].joinSplits, before.0);
      Ok((sprout, sapling))
  }

  lemma ShieldedAdded(env: Env, view: View, tx: Tx, run: Run)
    requires CheckShielded(env, view, tx, run).Ok?
    ensures var r := CheckShielded(env, view, tx, run).value;
            && r.nulls == run.nulls + TxNulls(tx) && run.nulls !! TxNulls(tx)
            && r.totals.sapling == run.totals.sapling - tx.valueBalance
            && JoinSplitDelta(tx.joinSplits, run.totals.sprout) == Ok(r.totals.sprout)
            && r.totals.sprout == run.totals.sprout + SumOld(tx.joinSplits) - SumNew(tx.joinSplits)
  {
    hide JoinSplits; hide Spends; hide JoinSplitNulls; hide SpendNulls; hide JoinSplitDelta;
    var (nulls, sprout) := JoinSplits(env, view, tx.joinSplits, run.nulls, map[], run.totals.sprout).value;
    JoinSplitsAdded(env, view, tx.joinSplits, run.nulls, map[], run.totals.sprout);
    SpendsAdded(env, view, tx.spends, nulls);
  }

  lemma {:induction false} TxsAdded(env: Env, view: View, block: Block, h: u32, location: nat, n: nat)
    requires n <= |block.txs| && StepTxs(env, view, block, h, location, n).Ok? && Held(env, view.ledger)
    ensures var run := StepTxs(env, view, block, h, location, n).value;
            && run.nulls == view.nulls + BlockNulls(block, n) && view.nulls !! BlockNulls(block, n)
            && PoolDeltas(block, n) == Ok((run.totals.sprout, run.totals.sapling))
  {
    hide StepTx; hide Held; hide IsStages; hide TxNulls; hide JoinSplitDelta;
    if n > 0 {
      TxsAdded(env, view, block, h, location, n - 1);
      TxsHeld(env, view, block, h, location, n - 1);
      var run := StepTxs(env, view, block, h, location, n - 1).value;
      var g := StepTxStages(env, view, block, h, location, n - 1, run);
      var after := StepTxs(env, view, block, h, location, n).value;
      TxTotals(env, view, block, h, location, n - 1, run, g, after);
      StageShielded(env, view, block, h, location, n - 1, run, g, after);
      ShieldedAdded(env, view, block.txs[n - 1], run);
    }
  }

  lemma UnknownAt(s: Store, txs: seq<Tx>, n: nat)
    requires n < |txs| && NewIds(s, txs, n)
    ensures Unknown(s, txs[n].id)
  {
  }

  lemma StageShielded(env: Env, view: View, block: Block, h: u32, location: nat, j: nat, run: Run, g: Stages,
                      after: Run)
    requires j < |block.txs| && IsStages(env, view, block, h, location, j, run, after, g)
    ensures CheckShielded(env, view, block.txs[j], run) == Ok(g.checked)
  {
    hide SpendTx; hide ApplyNode; hide CheckShielded; hide GrowTrees; hide CreateOutputs; hide CheckNode;
    hide ShieldedInRange; hide OutputsInRange;
  }

  // ---- the rest of the block ----

  /** Puts back the records of entries `n - 1` down to 0. */
  function RestoreAll(nodes: map<OutPoint, NodeRecord>, undo: seq<NodeUndo>, n: nat): (r: map<OutPoint, NodeRecord>)
    requires n <= |undo|
    decreases n
  {
    if n == 0 then nodes else RestoreAll(Restore(nodes, undo[n - 1]), undo, n - 1)
  }

  function OldAnchors(env: Env, pool: Pool, now: Bytes, before: Bytes,
                      anchors: map<Hash, Bytes>): (a: map<Hash, Bytes>) {
    var kept := anchors - {env.root(pool, now)};
    if env.root(pool, before) == EmptyRoot(env, pool) then kept
    else kept[env.root(pool, before) := if pool == Sprout then before else []]
  }

  function OldStats(stats: Stats, st: UndoState): (r: Result<Stats>) {
    if stats.txouts + st.restored >= U64_LIMIT || stats.txouts + st.restored - st.removed < 0 then Err(StatsMismatch)
    else
      var down :- CheckedI64(stats.total - st.valueRemoved);
      var total :- CheckedI64(down + st.valueRestored);
      Ok(Stats(stats.txouts + st.restored - st.removed, total))
  }

  function OldPools(pools: Pools, sprout: i64, sapling: i64): (r: Result<Pools>) {
    var oldSprout :- CheckedI64(pools.sprout - sprout);
    var oldSapling :- CheckedI64(pools.sapling - sapling);
    if oldSprout < 0 || oldSapling < 0 then Err(NegativePool) else Ok(Pools(oldSprout, oldSapling))
  }

  function StartUndo(view: View, undo: BlockUndo): (st: UndoState) {
    UndoState(view.ledger, RestoreAll(view.nodes, undo.paid, |undo.paid|), undo.spent, undo.nodes, 0, 0, 0, 0)
  }

  /** The whole effect of disconnecting the tip block of height `h` with its undo record. */
  function DisconnectView(env: Env, view: View, block: Block, h: nat, undo: BlockUndo,
                          prevTip: Option<Hash>): (r: Result<View>) {
    var deltas :- PoolDeltas(block, |block.txs|);
    var st :- UndoTxs(env, block, h, |block.txs|, StartUndo(view, undo));
    if st.spent != [] || st.nodeUndo != [] then Err(UndoMismatch)
    else
      var stats :- OldStats(view.stats, st);
      var pools :- OldPools(view.pools, deltas.0, deltas.1);
      Ok(View(st.ledger, st.nodes, view.nulls - BlockNulls(block, |block.txs|),
              OldAnchors(env, Sprout, view.sproutTree, undo.sproutTree, view.sproutAnchors),
              OldAnchors(env, Sapling, view.saplingTree, undo.saplingTree, view.saplingAnchors),
              undo.sproutTree, undo.saplingTree, view.heights - {h}, view.times - {block.hash},
              if block.hash in view.times then view.timeIndex - {(view.times[block.hash], block.hash)}
                  else view.timeIndex,
              prevTip, stats, pools))
  }

  // ---- when disconnecting undoes connecting ----

  /** The current root of a pool has its row, holding the current tree. */
  predicate RootKnown(env: Env, pool: Pool, tree: Bytes, anchors: map<Hash, Bytes>) {
    && EmptyRoot(env, pool) !in anchors
    && var root := env.root(pool, tree);
       root != EmptyRoot(env, pool) ==>
         root in anchors && anchors[root] == if pool == Sprout then tree else []
  }

  /** What every state on the active chain satisfies. */
  ghost predicate Sound(env: Env, view: View) {
    && Coins(env, view.ledger)
    && RootKnown(env, Sprout, view.sproutTree, view.sproutAnchors)
    && RootKnown(env, Sapling, view.saplingTree, view.saplingAnchors)
    && view.pools.sprout >= 0 && view.pools.sapling >= 0 && view.stats.total >= 0
  }

  /** No row carries the block's hash or its height. */
  ghost predicate NewBlock(view: View, block: Block, h: nat) {
    h !in view.heights && block.hash !in view.times && forall t: u32 :: (t, block.hash) !in view.timeIndex
  }

  /** The block is not on the chain yet: no row carries one of its ids either. */
  ghost predicate Fresh(view: View, block: Block, h: nat) {
    DistinctIds(block.txs) && NewIds(view.ledger, block.txs, 0) && NewBlock(view, block, h)
  }

  /** A new commitment root is not one that was already known. */
  predicate FreshRoot(env: Env, pool: Pool, before: Bytes, after: Bytes, anchors: map<Hash, Bytes>) {
    var root := env.root(pool, after);
    root == env.root(pool, before) || root !in anchors
  }

  lemma {:induction false} PaidUndone(h: u32, paid: seq<OutPoint>, nodes: map<OutPoint, NodeRecord>,
                                      undo: seq<NodeUndo>)
    requires PayNodes(h, paid, nodes, undo).Ok?
    ensures var (after, undo') := PayNodes(h, paid, nodes, undo).value;
            && |undo'| == |undo| + |paid| && undo'[..|undo|] == undo
            && RestoreAll(after, undo', |undo'|) == RestoreAll(nodes, undo', |undo|)
    decreases |paid|
  {
    if paid != [] {
      var n := nodes[paid[0]];
      var u := NodeUndo(paid[0], Some(n));
      var nodes' := nodes[paid[0] := n.(lastPaidHeight := h)];
      PaidUndone(h, paid[1..], nodes', undo + [u]);
      var (after, undo') := PayNodes(h, paid, nodes, undo).value;
      assert undo'[|undo|] == u;
      assert undo'[..|undo|] == undo;
      assert Restore(nodes', u) == nodes;
    }
  }

  lemma AnchorsUndone(env: Env, pool: Pool, before: Bytes, after: Bytes, anchors: map<Hash, Bytes>)
    requires RootKnown(env, pool, before, anchors)
    ensures OldAnchors(env, pool, NewTree(env, pool, before, after), before,
                       NewAnchors(env, pool, before, after, anchors)) == anchors
            <==> FreshRoot(env, pool, before, after, anchors)
  {
    var root, prev := env.root(pool, after), env.root(pool, before);
    var back := OldAnchors(env, pool, NewTree(env, pool, before, after), before,
                           NewAnchors(env, pool, before, after, anchors));
    if FreshRoot(env, pool, before, after, anchors) {
      assert back == anchors;
    } else {
      assert root !in back;
    }
  }

  /** The accepted run behind an accepted block. */
  lemma ConnectedRun(env: Env, view: View, block: Block, h: u32, location: nat, paid: seq<OutPoint>)
    returns (run: Run, nodes: map<OutPoint, NodeRecord>, t: u32)
    requires block.txs != [] && ConnectView(env, view, block, h, location, paid).Ok?
    ensures StepTxs(env, view, block, h, location, |block.txs|) == Ok(run) && t == LogicalTime(view, block)
    ensures var c := ConnectView(env, view, block, h, location, paid).value;
            && run.scriptsOk
            && PayNodes(h, paid, run.nodes, []) == Ok((nodes, c.undo.paid))
            && NewStats(view.stats, run.totals) == Ok(c.view.stats)
            && NewPools(view.pools, run.totals) == Ok(c.view.pools)
            && (h > 2 ==> ValueOut(block.txs[0]) <= env.subsidy(h) + run.totals.fees + env.extraFunds(h))
            && c.undo == BlockUndo(view.sproutTree, view.saplingTree, run.spent, run.nodeUndo, c.undo.paid)
            && c.view == View(run.ledger, nodes, run.nulls,
                 NewAnchors(env, Sprout, view.sproutTree, run.sproutTree, view.sproutAnchors),
                 NewAnchors(env, Sapling, view.saplingTree, run.saplingTree, view.saplingAnchors),
                 NewTree(env, Sprout, view.sproutTree, run.sproutTree),
                 NewTree(env, Sapling, view.saplingTree, run.saplingTree),
                 view.heights[h := block.hash],
                 if env.options.indexTime then view.times[block.hash := t] else view.times,
                 if env.options.indexTime then view.timeIndex + {(t, block.hash)} else view.timeIndex,
                 Some(block.hash), c.view.stats, c.view.pools)
  {
    hide StepTxs; hide PayNodes; hide NewStats; hide NewPools; hide NewAnchors; hide NewTree; hide LogicalTime;
    hide ValueOut;
    run := StepTxs(env, view, block, h, location, |block.txs|).value;
    nodes := PayNodes(h, paid, run.nodes, []).value.0;
    t := LogicalTime(view, block);
  }

  /** Accepted shielded roots were new. */
  ghost predicate FreshRoots(env: Env, view: View, block: Block, h: u32, location: nat) {
    StepTxs(env, view, block, h, location, |block.txs|).Ok? ==>
      var run := StepTxs(env, view, block, h, location, |block.txs|).value;
      && FreshRoot(env, Sprout, view.sproutTree, run.sproutTree, view.sproutAnchors)
      && FreshRoot(env, Sapling, view.saplingTree, run.saplingTree, view.saplingAnchors)
  }

  lemma StatsUndone(stats: Stats, t: Totals, st: UndoState)
    requires NewStats(stats, t).Ok? && stats.total >= 0 && t.valueSpent >= 0 && t.valueCreated >= 0
    requires st.restored == t.spentCount && st.removed == t.created
    requires st.valueRestored == t.valueSpent && st.valueRemoved == t.valueCreated
    ensures OldStats(NewStats(stats, t).value, st) == Ok(stats)
  {
  }

  lemma PoolsUndone(pools: Pools, t: Totals)
    requires NewPools(pools, t).Ok? && pools.sprout >= 0 && pools.sapling >= 0
    ensures OldPools(NewPools(pools, t).value, t.sprout, t.sapling) == Ok(pools)
  {
  }

  /** Undoing the transactions of an accepted block from the state it left. */
  lemma BlockTxsUndone(env: Env, view: View, block: Block, h: u32, location: nat, paid: seq<OutPoint>, c: Connected,
                       run: Run)
    requires block.txs != [] && ConnectView(env, view, block, h, location, paid) == Ok(c)
    requires StepTxs(env, view, block, h, location, |block.txs|) == Ok(run)
    requires DistinctIds(block.txs) && Roomy(env, view.ledger, block, h, 0, 0)
    ensures run.totals.valueSpent >= 0 && run.totals.valueCreated >= 0
    ensures UndoTxs(env, block, h, |block.txs|, StartUndo(c.view, c.undo))
            == Ok(UndoState(view.ledger, view.nodes, [], [],
              run.totals.spentCount, run.totals.valueSpent, run.totals.created, run.totals.valueCreated))
  {
    hide ConnectView; hide StepTxs; hide Roomy; hide DistinctIds; hide PayNodes; hide UndoTxs;
    var run', nodes, t := ConnectedRun(env, view, block, h, location, paid);
    PaidUndone(h, paid, run.nodes, []);
    var st := StartUndo(c.view, c.undo);
    assert st.nodes == run.nodes;
    TxsUndone(env, view, block, h, location, |block.txs|, st);
  }

  /** Disconnecting a block that was just connected never reports an undo mismatch and gives back
      every restored column, if no row the block writes was there before. */
  lemma RoundTripInRoom(env: Env, view: View, block: Block, h: u32, location: nat, paid: seq<OutPoint>)
    requires block.txs != [] && ConnectView(env, view, block, h, location, paid).Ok?
    requires Sound(env, view) && DistinctIds(block.txs) && NewBlock(view, block, h)
    requires Roomy(env, view.ledger, block, h, 0, 0) && FreshRoots(env, view, block, h, location)
    ensures var c := ConnectView(env, view, block, h, location, paid).value;
            DisconnectView(env, c.view, block, h, c.undo, view.tip) == Ok(view)
  {
    hide ConnectView; hide StepTxs; hide Coins; hide Roomy; hide Held; hide DistinctIds; hide UndoTxs; hide PayNodes;
    hide PoolDeltas; hide BlockNulls; hide NewStats; hide OldStats; hide NewPools; hide OldPools; hide NewAnchors;
    hide OldAnchors; hide NewTree; hide RootKnown; hide FreshRoot; hide StartUndo;
    var c := ConnectView(env, view, block, h, location, paid).value;
    var run, nodes, t := ConnectedRun(env, view, block, h, location, paid);
    BlockTxsUndone(env, view, block, h, location, paid, c, run);
    RoomyHeld(env, view.ledger, block, h, 0, 0);
    TxsAdded(env, view, block, h, location, |block.txs|);
    AnchorsUndone(env, Sprout, view.sproutTree, run.sproutTree, view.sproutAnchors);
    AnchorsUndone(env, Sapling, view.saplingTree, run.saplingTree, view.saplingAnchors);
    var st := UndoTxs(env, block, h, |block.txs|, StartUndo(c.view, c.undo)).value;
    StatsUndone(view.stats, run.totals, st);
    PoolsUndone(view.pools, run.totals);
    assert c.view.nulls - BlockNulls(block, |block.txs|) == view.nulls;
    assert c.view.heights - {h} == view.heights;
    assert c.view.times - {block.hash} == view.times;
    assert block.hash in c.view.times ==> c.view.timeIndex - {(t, block.hash)} == view.timeIndex;
  }

  /** Reorganisation round trip: a block of new ids is taken back. */
  lemma RoundTrip(env: Env, view: View, block: Block, h: u32, location: nat, paid: seq<OutPoint>)
    requires block.txs != [] && ConnectView(env, view, block, h, location, paid).Ok?
    requires Sound(env, view) && Fresh(view, block, h) && FreshRoots(env, view, block, h, location)
    ensures var c := ConnectView(env, view, block, h, location, paid).value;
            DisconnectView(env, c.view, block, h, c.undo, view.tip) == Ok(view)
  {
    hide ConnectView; hide DisconnectView; hide Coins; hide NewIds; hide Roomy; hide RootKnown; hide FreshRoots;
    hide NewBlock; hide DistinctIds;
    NewIsRoomy(env, view.ledger, block, h);
    RoundTripInRoom(env, view, block, h, location, paid);
  }
}
