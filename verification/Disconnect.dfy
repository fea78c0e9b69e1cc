/** Disconnecting the tip the way the node does it: the undo record is read back, popped from its
    end while the transactions are walked in reverse, and every change goes to one batch. */
module Disconnect {
  import opened Basics
  import opened Undo
  import opened Ledger
  import opened Chain
  import opened Sequential
  import opened Reversal
  import opened Rewind
  import Connect
  import opened ConnectBlock
  import Linked

  /** The local variables of the pass. */
  datatype Rest = Rest(
    batch: Batch, spent: seq<SpentOutput>, nodeUndo: seq<NodeUndo>, restored: nat, valueRestored: i64, removed: nat,
        valueRemoved: i64)

  /** The state the pass has reached. */
  ghost function StateOf(db: Db, w: Rest): (st: UndoState) {
    UndoState(Commit(db, w.batch).ledger, Commit(db, w.batch).nodes, w.spent, w.nodeUndo, w.restored, w.valueRestored,
              w.removed, w.valueRemoved)
  }

  /** The batch changes ledger and node columns only. */
  ghost predicate Framed(db: Db, before: Batch, after: Batch) {
    Commit(db, after) == Commit(db, before).(ledger := Commit(db, after).ledger, nodes := Commit(db, after).nodes)
  }

  /** A part of the pass fails as reverse processing does, or reaches the same state. */
  ghost predicate UndoAgrees(db: Db, w: Rest, spec: Result<UndoState>, r: Result<Rest>) {
    if r.Err? then spec == Err(r.error) else spec == Ok(StateOf(db, r.value)) && Framed(db, w.batch, r.value.batch)
  }

  predicate UndoFiled(us: seq<NodeUndo>) {
    forall i :: 0 <= i < |us| && us[i].prev.Some? ==> us[i].prev.value.collateral == us[i].collateral
  }

  /** The undo record keeps every node record under its own collateral. */
  predicate RecordsFiled(u: BlockUndo) { UndoFiled(u.nodes) && UndoFiled(u.paid) }

  /** The collaterals whose records the undo record restores. */
  function UndoKeys(u: BlockUndo): (keys: set<OutPoint>) {
    (set i | 0 <= i < |u.nodes| :: u.nodes[i].collateral) + (set i | 0 <= i < |u.paid| :: u.paid[i].collateral)
  }

  /** The batch writes and deletes records of these collaterals only, each under its own. */
  predicate Within(batch: Batch, keys: set<OutPoint>) {
    forall i :: 0 <= i < |batch| ==>
      && (batch[i].NodePut? ==> batch[i].collateral in keys && batch[i].record.collateral == batch[i].collateral)
      && (batch[i].NodeDel? ==> batch[i].collateral in keys)
  }

  predicate UndoWithin(us: seq<NodeUndo>, keys: set<OutPoint>) {
    UndoFiled(us) && forall i :: 0 <= i < |us| ==> us[i].collateral in keys
  }

  predicate Filing(w: Rest, keys: set<OutPoint>) { Within(w.batch, keys) && UndoWithin(w.nodeUndo, keys) }

  lemma WithinFiled(batch: Batch, keys: set<OutPoint>)
    requires Within(batch, keys)
    ensures FiledPuts(batch)
  {
  }

  lemma WithinLedger(batch: Batch, ops: seq<Op>, keys: set<OutPoint>)
    ensures Within(batch, keys) ==> Within(batch + LedgerOps(ops), keys)
  {
  }

  // ---- nullifiers ----

  function WithoutNulls(db: Db, nulls: set<(Pool, Hash)>): (r: Db) { db.(nulls := db.nulls - nulls) }

  lemma WithoutMore(db: Db, a: set<(Pool, Hash)>, b: set<(Pool, Hash)>)
    ensures WithoutNulls(WithoutNulls(db, a), b) == WithoutNulls(db, a + b)
    ensures WithoutNulls(db, {}) == db
  {
    assert db.nulls - a - b == db.nulls - (a + b);
    assert db.nulls - {} == db.nulls;
  }

  lemma OneLess(db: Db, batch: Batch, pool: Pool, h: Hash)
    ensures Commit(db, batch + [NullDel(pool, h)]) == WithoutNulls(Commit(db, batch), {(pool, h)})
  {
    hide Commit;
    CommitSnoc(db, batch, NullDel(pool, h));
  }

  method DropTagged(db: Db, pool: Pool, hs: seq<Hash>, batch: Batch, ghost keys: set<OutPoint>) returns (b: Batch)
    ensures Commit(db, b) == WithoutNulls(Commit(db, batch), Tagged(pool, hs))
    ensures Within(batch, keys) ==> Within(b, keys)
  {
    hide Commit; hide CommitOp; hide Tagged; hide WithoutNulls;
    b := batch;
    Connect.NoneTagged(pool, hs);
    WithoutMore(Commit(db, batch), {}, {});
    for k := 0 to |hs|
      invariant Commit(db, b) == WithoutNulls(Commit(db, batch), Tagged(pool, hs[..k]))
      invariant Within(batch, keys) ==> Within(b, keys)
    {
      OneLess(db, b, pool, hs[k]);
      Connect.TaggedSnoc(pool, hs, k);
      WithoutMore(Commit(db, batch), Tagged(pool, hs[..k]), {(pool, hs[k])});
      b := b + [NullDel(pool, hs[k])];
    }
    assert hs[..|hs|] == hs;
  }

  method DropTxNulls(db: Db, tx: Tx, batch: Batch, ghost keys: set<OutPoint>) returns (b: Batch)
    ensures Commit(db, b) == WithoutNulls(Commit(db, batch), TxNulls(tx))
    ensures Within(batch, keys) ==> Within(b, keys)
  {
    hide Commit; hide CommitOp; hide Tagged; hide WithoutNulls;
    b := batch;
    ghost var cur := Commit(db, batch);
    ghost var spendNulls := SpendNulls(tx.spends);
    assert tx.joinSplits[0..] == tx.joinSplits;
    for i := 0 to |tx.joinSplits|
      invariant WithoutNulls(cur, JoinSplitNulls(tx.joinSplits))
                == WithoutNulls(Commit(db, b), JoinSplitNulls(tx.joinSplits[i..]))
      invariant Within(batch, keys) ==> Within(b, keys)
    {
      assert tx.joinSplits[i..][1..] == tx.joinSplits[i + 1..];
      WithoutMore(Commit(db, b), Tagged(Sprout, tx.joinSplits[i].nullifiers), JoinSplitNulls(tx.joinSplits[i + 1..]));
      b := DropTagged(db, Sprout, tx.joinSplits[i].nullifiers, b, keys);
    }
    WithoutMore(Commit(db, b), {}, {});
    WithoutMore(cur, JoinSplitNulls(tx.joinSplits), SpendNulls(tx.spends));
    b := DropSpendNulls(db, tx.spends, b, keys);
  }

  method DropSpendNulls(db: Db, spends: seq<ShieldedSpend>, batch: Batch, ghost keys: set<OutPoint>) returns (b: Batch)
    ensures Commit(db, b) == WithoutNulls(Commit(db, batch), SpendNulls(spends))
    ensures Within(batch, keys) ==> Within(b, keys)
  {
    hide Commit; hide CommitOp; hide WithoutNulls;
    b := batch;
    assert spends[0..] == spends;
    for i := 0 to |spends|
      invariant WithoutNulls(Commit(db, batch), SpendNulls(spends))
                == WithoutNulls(Commit(db, b), SpendNulls(spends[i..]))
      invariant Within(batch, keys) ==> Within(b, keys)
    {
      assert spends[i..][1..] == spends[i + 1..];
      WithoutMore(Commit(db, b), {(Sapling, spends[i].nullifier)}, SpendNulls(spends[i + 1..]));
      OneLess(db, b, Sapling, spends[i].nullifier);
      b := b + [NullDel(Sapling, spends[i].nullifier)];
    }
    WithoutMore(Commit(db, b), {}, {});
  }

  method DropNullifiers(db: Db, block: Block, ghost keys: set<OutPoint>) returns (b: Batch)
    ensures Commit(db, b) == WithoutNulls(db, BlockNulls(block, |block.txs|))
    ensures Within(b, keys)
  {
    hide Commit; hide CommitOp; hide WithoutNulls; hide TxNulls;
    b := [];
    ConnectBlock.CommitNothing(db, b);
    WithoutMore(db, {}, {});
    for j := 0 to |block.txs|
      invariant Commit(db, b) == WithoutNulls(db, BlockNulls(block, j))
      invariant Within(b, keys)
    {
      WithoutMore(db, BlockNulls(block, j), TxNulls(block.txs[j]));
      b := DropTxNulls(db, block.txs[j], b, keys);
    }
  }

  // ---- node records ----

  function RestoreOp(u: NodeUndo): (op: WriteOp) {
    match u.prev
    case Some(n) => NodePut(u.collateral, n)
    case None => NodeDel(u.collateral)
  }

  lemma AfterRestore(db: Db, b: Batch, u: NodeUndo)
    ensures Commit(db, b + [RestoreOp(u)]) == Commit(db, b).(nodes := Restore(Commit(db, b).nodes, u))
  {
    hide Commit;
    CommitSnoc(db, b, RestoreOp(u));
  }

  lemma RestoreWithin(batch: Batch, u: NodeUndo, keys: set<OutPoint>)
    ensures Within(batch, keys) && UndoWithin([u], keys) ==> Within(batch + [RestoreOp(u)], keys)
  {
    assert UndoWithin([u], keys) ==>
        u.collateral in keys && (u.prev.Some? ==> u.prev.value.collateral == u.collateral) by { assert [u][0] == u; }
  }

  lemma OneWithin(us: seq<NodeUndo>, i: nat, keys: set<OutPoint>)
    requires i < |us| && UndoWithin(us, keys)
    ensures UndoWithin([us[i]], keys) && UndoWithin(us[..|us| - 1], keys)
  {
  }

  method RestorePaid(db: Db, paid: seq<NodeUndo>, batch: Batch, ghost keys: set<OutPoint>) returns (b: Batch)
    ensures Commit(db, b) == Commit(db, batch).(nodes := RestoreAll(Commit(db, batch).nodes, paid, |paid|))
    ensures Within(batch, keys) && UndoWithin(paid, keys) ==> Within(b, keys)
  {
    hide Commit; hide CommitOp; hide Restore; hide RestoreOp; hide Within; hide UndoWithin;
    b := batch;
    for n := |paid| downto 0
      invariant RestoreAll(Commit(db, batch).nodes, paid, |paid|) == RestoreAll(Commit(db, b).nodes, paid, n)
      invariant Commit(db, b) == Commit(db, batch).(nodes := Commit(db, b).nodes)
      invariant Within(batch, keys) && UndoWithin(paid, keys) ==> Within(b, keys)
    {
      AfterRestore(db, b, paid[n]);
      RestoreWithin(b, paid[n], keys);
      if UndoWithin(paid, keys) { OneWithin(paid, n, keys); }
      b := b + [RestoreOp(paid[n])];
    }
  }

  // ---- one transaction ----

  /** Deletes the rows of the outputs and of the transaction index. */
  method UndoOutputs(env: Env, db: Db, h: nat, j: nat, tx: Tx, w: Rest, ghost keys: set<OutPoint>)
    returns (r: Result<Rest>)
    ensures var spec := RemoveValue(tx, |tx.vout|, w.valueRemoved);
            if r.Err? then spec == Err(r.error)
            else && spec.Ok? && Framed(db, w.batch, r.value.batch)
                 && StateOf(db, r.value) ==
                    StateOf(db, w).(ledger := Apply(StateOf(db, w).ledger, UndoCreditOps(env, h, j, tx)),
                                    removed := w.removed + |tx.vout|, valueRemoved := spec.value)
    ensures r.Ok? && Within(w.batch, keys) ==> Within(r.value.batch, keys) && r.value.nodeUndo == w.nodeUndo
  {
    hide Commit; hide CommitOp; hide Apply; hide UndoOutputOps; hide LedgerOps; hide Within;
    var b, value := w.batch, w.valueRemoved;
    ghost var s := Commit(db, w.batch).ledger;
    Linked.NoOps(s);
    for i := 0 to |tx.vout|
      invariant RemoveValue(tx, i, w.valueRemoved) == Ok(value)
      invariant Commit(db, b) == Commit(db, w.batch).(ledger := Apply(s, UndoOutputsOps(env, h, j, tx, i)))
      invariant Within(w.batch, keys) ==> Within(b, keys)
    {
      CommitLedgerOps(db, b, UndoOutputOps(env, h, j, tx, i));
      ApplyConcat(s, UndoOutputsOps(env, h, j, tx, i), UndoOutputOps(env, h, j, tx, i));
      WithinLedger(b, UndoOutputOps(env, h, j, tx, i), keys);
      b := b + LedgerOps(UndoOutputOps(env, h, j, tx, i));
      if !InI64(value + tx.vout[i].value) {
        RemoveFails(tx, i + 1, w.valueRemoved);
        return Err(ValueOutOfRange);
      }
      value := value + tx.vout[i].value;
    }
    CommitLedgerOps(db, b, UndoTxRowOps(env, tx));
    ApplyConcat(s, UndoOutputsOps(env, h, j, tx, |tx.vout|), UndoTxRowOps(env, tx));
    WithinLedger(b, UndoTxRowOps(env, tx), keys);
    b := b + LedgerOps(UndoTxRowOps(env, tx));
    return Ok(w.(batch := b, removed := w.removed + |tx.vout|, valueRemoved := value));
  }

  lemma {:induction false} RemoveFails(tx: Tx, i: nat, start: i64)
    requires i <= |tx.vout| && RemoveValue(tx, i, start).Err?
    ensures RemoveValue(tx, |tx.vout|, start) == RemoveValue(tx, i, start)
    decreases |tx.vout| - i
  {
    if i < |tx.vout| { RemoveFails(tx, i + 1, start); }
  }

  /** Pops one spent output per input, from the last input to the first. */
  method UndoDebits(env: Env, db: Db, h: nat, j: nat, tx: Tx, w: Rest, ghost keys: set<OutPoint>)
    returns (r: Result<Rest>)
    ensures UndoAgrees(db, w, UndoInputs(env, h, j, tx, |tx.vin|, StateOf(db, w)), r)
    ensures r.Ok? && Within(w.batch, keys) ==> Within(r.value.batch, keys) && r.value.nodeUndo == w.nodeUndo
  {
    hide Commit; hide CommitOp; hide Apply; hide UndoInputOps; hide LedgerOps; hide Within;
    var w' := w;
    for n := |tx.vin| downto 0
      invariant UndoInputs(env, h, j, tx, |tx.vin|, StateOf(db, w)) == UndoInputs(env, h, j, tx, n, StateOf(db, w'))
      invariant Framed(db, w.batch, w'.batch) && w'.nodeUndo == w.nodeUndo
                && (Within(w.batch, keys) ==> Within(w'.batch, keys))
    {
      if w'.spent == [] { return Err(UndoMismatch); }
      var last := w'.spent[|w'.spent| - 1];
      if last.outpoint != tx.vin[n].prevout { return Err(UndoMismatch); }
      CommitLedgerOps(db, w'.batch, UndoInputOps(env, h, j, tx, n, last.entry));
      WithinLedger(w'.batch, UndoInputOps(env, h, j, tx, n, last.entry), keys);
      if !InI64(w'.valueRestored + last.entry.value) { return Err(ValueOutOfRange); }
      w' := w'.(batch := w'.batch + LedgerOps(UndoInputOps(env, h, j, tx, n, last.entry)),
                spent := w'.spent[..|w'.spent| - 1],
                restored := w'.restored + 1, valueRestored := w'.valueRestored + last.entry.value);
    }
    return Ok(w');
  }

  method UndoNodeTx(db: Db, tx: Tx, w: Rest, ghost keys: set<OutPoint>) returns (r: Result<Rest>)
    ensures UndoAgrees(db, w, UndoNode(tx, StateOf(db, w)), r)
    ensures r.Ok? && Filing(w, keys) ==> Filing(r.value, keys)
  {
    hide Commit; hide CommitOp; hide Restore; hide RestoreOp; hide Within; hide UndoWithin;
    if tx.node.None? { return Ok(w); }
    if w.nodeUndo == [] { return Err(UndoMismatch); }
    var last := w.nodeUndo[|w.nodeUndo| - 1];
    if last.collateral != tx.node.value.collateral { return Err(UndoMismatch); }
    AfterRestore(db, w.batch, last);
    RestoreWithin(w.batch, last, keys);
    if UndoWithin(w.nodeUndo, keys) { OneWithin(w.nodeUndo, |w.nodeUndo| - 1, keys); }
    return Ok(w.(batch := w.batch + [RestoreOp(last)], nodeUndo := w.nodeUndo[..|w.nodeUndo| - 1]));
  }

  method UndoOne(env: Env, db: Db, h: nat, j: nat, tx: Tx, w: Rest, ghost keys: set<OutPoint>) returns (r: Result<Rest>)
    ensures UndoAgrees(db, w, UndoTx(env, h, j, tx, StateOf(db, w)), r)
    ensures r.Ok? && Filing(w, keys) ==> Filing(r.value, keys)
  {
    hide Commit; hide CommitOp; hide Apply; hide UndoInputs; hide UndoNode; hide UndoCreditOps; hide RemoveValue;
    var credited := UndoOutputs(env, db, h, j, tx, w, keys);
    if credited.Err? { return Err(credited.error); }
    var w' := credited.value;
    if j != 0 {
      var debited := UndoDebits(env, db, h, j, tx, w', keys);
      if debited.Err? { return Err(debited.error); }
      w' := debited.value;
    }
    r := UndoNodeTx(db, tx, w', keys);
  }

  /** The transactions, last to first. */
  method UndoAll(env: Env, db: Db, block: Block, h: nat, w: Rest, ghost keys: set<OutPoint>) returns (r: Result<Rest>)
    ensures UndoAgrees(db, w, UndoTxs(env, block, h, |block.txs|, StateOf(db, w)), r)
    ensures r.Ok? && Filing(w, keys) ==> Filing(r.value, keys)
  {
    hide Commit; hide CommitOp; hide UndoTx; hide StateOf;
    var w' := w;
    for n := |block.txs| downto 0
      invariant UndoTxs(env, block, h, |block.txs|, StateOf(db, w)) == UndoTxs(env, block, h, n, StateOf(db, w'))
      invariant Framed(db, w.batch, w'.batch) && (Filing(w, keys) ==> Filing(w', keys))
    {
      var next := UndoOne(env, db, h, n, block.txs[n], w', keys);
      if next.Err? { return Err(next.error); }
      w' := next.value;
    }
    return Ok(w');
  }

  // ---- the whole block ----

  /** `value_pool_deltas`: what the block moved into and out of the shielded pools. */
  method PoolMoves(block: Block) returns (r: Result<(i64, i64)>)
    ensures r == PoolDeltas(block, |block.txs|)
  {
    hide JoinSplitDelta;
    var sprout: i64, sapling: i64 := 0, 0;
    for n := 0 to |block.txs|
      invariant PoolDeltas(block, n) == Ok((sprout, sapling))
    {
      var tx := block.txs[n];
      if !InI64(sapling - tx.valueBalance) { MovesFail(block, n + 1); return Err(ValueOutOfRange); }
      sapling := sapling - tx.valueBalance;
      var moved := JoinSplitMoves(tx.joinSplits, sprout);
      if moved.Err? { MovesFail(block, n + 1); return Err(moved.error); }
      sprout := moved.value;
    }
    return Ok((sprout, sapling));
  }

  method JoinSplitMoves(js: seq<JoinSplit>, start: i64) returns (r: Result<i64>)
    ensures r == JoinSplitDelta(js, start)
  {
    var sprout: i64 := start;
    assert js[0..] == js;
    for i := 0 to |js|
      invariant JoinSplitDelta(js, start) == JoinSplitDelta(js[i..], sprout)
    {
      assert js[i..][1..] == js[i + 1..];
      if !InI64(sprout + js[i].vpubOld) { return Err(ValueOutOfRange); }
      if !InI64(sprout + js[i].vpubOld - js[i].vpubNew) { return Err(ValueOutOfRange); }
      sprout := sprout + js[i].vpubOld - js[i].vpubNew;
    }
    return Ok(sprout);
  }

  lemma {:induction false} MovesFail(block: Block, i: nat)
    requires i <= |block.txs| && PoolDeltas(block, i).Err?
    ensures PoolDeltas(block, |block.txs|) == PoolDeltas(block, i)
    decreases |block.txs| - i
  {
    if i < |block.txs| { MovesFail(block, i + 1); }
  }

  datatype Target = Target(block: Block, header: Header, undo: BlockUndo)

  /** What the tip's columns hold: its header, its body and its undo record. */
  function FindTarget(db: Db, hash: Hash): (r: Result<Target>)
    ensures r.Ok? ==> r.value.header.height < U32_LIMIT && hash in db.headers && r.value.header == db.headers[hash]
  {
    if BestBlock(db) != Some(hash) then Err(NotOnTip)
    else if db.headers[hash].height >= U32_LIMIT then Err(ValueOutOfRange)
    else if hash !in db.blocks then Err(MissingBlock)
    else if hash !in db.undos then Err(MissingUndo)
    else match ReadUndo(db.undos[hash])
         case Bad(_) => Err(BadUndo)
         case Got(u, _) => Ok(Target(db.blocks[hash].block.(hash := hash), db.headers[hash], u))
  }

  function TipOf(db: Db, hash: Hash): (t: Option<Hash>) { if hash in db.headers then Some(hash) else None }

  /** The database once the tip is gone, given the columns its transactions changed. */
  function BackDb(env: Env, db: Db, cur: Db, hash: Hash, t: Target, stats: Stats, pools: Pools): (r: Db) {
    var sprout, sapling := Tree(env, db, Sprout), Tree(env, db, Sapling);
    cur.(sproutAnchors := (cur.sproutAnchors - {env.root(Sprout, sprout)})[env.root(Sprout,
        t.undo.sproutTree) := t.undo.sproutTree],
         saplingAnchors := (cur.saplingAnchors - {env.root(Sapling, sapling)})[env.root(Sapling,
             t.undo.saplingTree) := []],
         trees := cur.trees[Sprout := t.undo.sproutTree][Sapling := t.undo.saplingTree],
         timeIndex := if hash in db.times then cur.timeIndex - {(db.times[hash], hash)} else cur.timeIndex,
         times := if hash in db.times then cur.times - {hash} else cur.times,
         heights := cur.heights - {t.header.height}, tip := Some(t.header.prev), stats := stats, pools := pools,
             undos := cur.undos - {hash})
  }

  lemma OpAnchors(cur: Db, pool: Pool, hash: Hash, t: Bytes)
    ensures CommitOp(cur, AnchorDel(pool, hash)) ==
            if pool.Sprout? then cur.(sproutAnchors := cur.sproutAnchors - {hash})
            else cur.(saplingAnchors := cur.saplingAnchors - {hash})
    ensures CommitOp(cur, AnchorPut(pool, hash, t)) ==
            if pool.Sprout? then cur.(sproutAnchors := cur.sproutAnchors[hash := t])
            else cur.(saplingAnchors := cur.saplingAnchors[hash := t])
  {
    match pool case Sprout => case Sapling =>
  }

  lemma OpBack(cur: Db, hash: Hash, h: nat, t: u32)
    ensures CommitOp(cur, HeightDel(h)) == cur.(heights := cur.heights - {h})
    ensures CommitOp(cur, TimeDel(hash)) == cur.(times := cur.times - {hash})
    ensures CommitOp(cur, TimeIndexDel(t, hash)) == cur.(timeIndex := cur.timeIndex - {(t, hash)})
  {
  }

  lemma OpTree(cur: Db, pool: Pool, t: Bytes)
    ensures CommitOp(cur, TreePut(pool, t)) == cur.(trees := cur.trees[pool := t])
  {
  }

  /** Puts the trees and anchors of the parent back. */
  method PutTrees(env: Env, db: Db, undo: BlockUndo, batch: Batch, ghost keys: set<OutPoint>) returns (b: Batch)
    ensures var sprout, sapling := Tree(env, db, Sprout), Tree(env, db, Sapling);
            var cur := Commit(db, batch);
            Commit(db, b) == cur.(
              sproutAnchors := (cur.sproutAnchors - {env.root(Sprout, sprout)})[env.root(Sprout,
                  undo.sproutTree) := undo.sproutTree],
              saplingAnchors := (cur.saplingAnchors - {env.root(Sapling, sapling)})[env.root(Sapling,
                  undo.saplingTree) := []],
              trees := cur.trees[Sprout := undo.sproutTree][Sapling := undo.saplingTree])
    ensures Within(batch, keys) ==> Within(b, keys)
  {
    hide Commit; hide CommitOp; hide Tree;
    b := batch;
    var root := env.root(Sprout, Tree(env, db, Sprout));
    OpAnchors(Commit(db, b), Sprout, root, []);
    CommitSnoc(db, b, AnchorDel(Sprout, root));
    b := b + [AnchorDel(Sprout, root)];
    root := env.root(Sapling, Tree(env, db, Sapling));
    OpAnchors(Commit(db, b), Sapling, root, []);
    CommitSnoc(db, b, AnchorDel(Sapling, root));
    b := b + [AnchorDel(Sapling, root)];
    root := env.root(Sprout, undo.sproutTree);
    OpAnchors(Commit(db, b), Sprout, root, undo.sproutTree);
    CommitSnoc(db, b, AnchorPut(Sprout, root, undo.sproutTree));
    b := b + [AnchorPut(Sprout, root, undo.sproutTree)];
    root := env.root(Sapling, undo.saplingTree);
    OpAnchors(Commit(db, b), Sapling, root, []);
    CommitSnoc(db, b, AnchorPut(Sapling, root, []));
    b := b + [AnchorPut(Sapling, root, [])];
    OpTree(Commit(db, b), Sprout, undo.sproutTree);
    CommitSnoc(db, b, TreePut(Sprout, undo.sproutTree));
    b := b + [TreePut(Sprout, undo.sproutTree)];
    OpTree(Commit(db, b), Sapling, undo.saplingTree);
    CommitSnoc(db, b, TreePut(Sapling, undo.saplingTree));
    b := b + [TreePut(Sapling, undo.saplingTree)];
  }

  method DropTimes(db: Db, hash: Hash, batch: Batch, ghost keys: set<OutPoint>) returns (b: Batch)
    ensures var cur := Commit(db, batch);
            Commit(db, b) == cur.(timeIndex := if hash in db.times then cur.timeIndex - {(db.times[hash], hash)}
                                  else cur.timeIndex,
                                  times := if hash in db.times then cur.times - {hash} else cur.times)
    ensures Within(batch, keys) ==> Within(b, keys)
  {
    hide Commit; hide CommitOp;
    b := batch;
    if hash in db.times {
      var t := db.times[hash];
      OpBack(Commit(db, b), hash, 0, t);
      CommitSnoc(db, b, TimeIndexDel(t, hash));
      b := b + [TimeIndexDel(t, hash)];
      OpBack(Commit(db, b), hash, 0, t);
      CommitSnoc(db, b, TimeDel(hash));
      b := b + [TimeDel(hash)];
    }
  }

  /** The writes that make the parent the tip. */
  method PutBack(env: Env, db: Db, hash: Hash, t: Target, stats: Stats, pools: Pools, batch: Batch,
                 ghost keys: set<OutPoint>)
    returns (b: Batch)
    ensures Commit(db, b) == BackDb(env, db, Commit(db, batch), hash, t, stats, pools)
    ensures Within(batch, keys) ==> Within(b, keys)
  {
    hide Commit; hide CommitOp; hide Tree;
    b := DropTimes(db, hash, batch, keys);
    b := PutTrees(env, db, t.undo, b, keys);
    OpBack(Commit(db, b), hash, t.header.height, 0);
    CommitSnoc(db, b, HeightDel(t.header.height));
    b := b + [HeightDel(t.header.height)];
    ConnectBlock.AfterTip(db, b, t.header.prev, 0, t.header);
    b := b + [TipPut(t.header.prev)];
    ConnectBlock.AfterBlock(db, b, hash, StoredBlock(t.block, 0), []);
    b := b + [UndoDel(hash)];
    ConnectBlock.AfterTotals(db, b, stats, pools);
    b := b + [StatsPut(stats)];
    ConnectBlock.AfterTotals(db, b, stats, pools);
    b := b + [PoolsPut(pools)];
  }

  lemma AnchorsBack(env: Env, pool: Pool, now: Bytes, before: Bytes, anchors: map<Hash, Bytes>)
    ensures var row := if pool.Sprout? then before else [];
            KnownAnchors(env, pool, (anchors - {env.root(pool, now)})[env.root(pool, before) := row])
            == OldAnchors(env, pool, now, before, KnownAnchors(env, pool, anchors))
  {
  }

  lemma BackViewed(env: Env, db: Db, st: UndoState, hash: Hash, t: Target, stats: Stats, pools: Pools)
    requires t.block.hash == hash && hash in db.headers
    ensures var view := ViewOf(env, db);
            var nulls := BlockNulls(t.block, |t.block.txs|);
            var cur := db.(ledger := st.ledger, nodes := st.nodes, nulls := db.nulls - nulls);
            ViewOf(env, BackDb(env, db, cur, hash, t, stats, pools)) ==
              View(st.ledger, st.nodes, view.nulls - nulls,
                   OldAnchors(env, Sprout, view.sproutTree, t.undo.sproutTree, view.sproutAnchors),
                   OldAnchors(env, Sapling, view.saplingTree, t.undo.saplingTree, view.saplingAnchors),
                   t.undo.sproutTree, t.undo.saplingTree, view.heights - {t.header.height}, view.times - {hash},
                   if hash in view.times then view.timeIndex - {(view.times[hash], hash)} else view.timeIndex,
                   TipOf(db, t.header.prev), stats, pools)
  {
    hide OldAnchors; hide KnownAnchors; hide BlockNulls;
    AnchorsBack(env, Sprout, Tree(env, db, Sprout), t.undo.sproutTree, db.sproutAnchors);
    AnchorsBack(env, Sapling, Tree(env, db, Sapling), t.undo.saplingTree, db.saplingAnchors);
    assert hash !in db.times ==> db.times - {hash} == db.times;
  }

  /** What a disconnected block leaves: the given view, without the block's undo record. */
  ghost predicate DisconnectedDb(env: Env, db: Db, after: Db, hash: Hash, view: View) {
    ViewOf(env, after) == view && after.headers == db.headers && after.blocks == db.blocks
        && after.undos == db.undos - {hash}
  }

  ghost predicate DisconnectAgrees(env: Env, db: Db, hash: Hash, spec: Result<View>, r: Result<Batch>) {
    if spec.Err? then r == Err(spec.error) else r.Ok? && DisconnectedDb(env, db, Commit(db, r.value), hash, spec.value)
  }

  lemma KeysCover(u: BlockUndo)
    ensures RecordsFiled(u) ==> UndoWithin(u.nodes, UndoKeys(u)) && UndoWithin(u.paid, UndoKeys(u))
  {
  }

  method StartRest(db: Db, t: Target, ghost keys: set<OutPoint>) returns (w: Rest)
    ensures StateOf(db, w) == UndoState(db.ledger, RestoreAll(db.nodes, t.undo.paid, |t.undo.paid|), t.undo.spent,
                                        t.undo.nodes, 0, 0, 0, 0)
    ensures Commit(db, w.batch) == db.(nulls := db.nulls - BlockNulls(t.block, |t.block.txs|),
                                       nodes := Commit(db, w.batch).nodes)
    ensures UndoWithin(t.undo.paid, keys) && UndoWithin(t.undo.nodes, keys) ==> Filing(w, keys)
  {
    hide Commit; hide CommitOp; hide RestoreAll; hide BlockNulls;
    var b := DropNullifiers(db, t.block, keys);
    b := RestorePaid(db, t.undo.paid, b, keys);
    w := Rest(b, t.undo.spent, t.undo.nodes, 0, 0, 0, 0);
  }

  /** Disconnecting the tip: it fails exactly when the reverse of sequential processing fails, and
      otherwise the committed batch leaves the same state. */
  method DisconnectTip(env: Env, db: Db, hash: Hash) returns (r: Result<Batch>)
    ensures FindTarget(db, hash).Err? ==> r == Err(FindTarget(db, hash).error)
    ensures FindTarget(db, hash).Ok? ==>
              var t := FindTarget(db, hash).value;
              DisconnectAgrees(env, db, hash,
                               DisconnectView(env, ViewOf(env, db), t.block, t.header.height, t.undo,
                                              TipOf(db, t.header.prev)), r)
    ensures r.Ok? ==>
              && FindTarget(db, hash).Ok?
              && var undo := FindTarget(db, hash).value.undo;
                 (RecordsFiled(undo) ==> Within(r.value, UndoKeys(undo)))
  {
    hide Commit; hide CommitOp; hide UndoTxs; hide PoolDeltas; hide OldStats; hide OldPools; hide BackDb;
    hide OldAnchors; hide BlockNulls; hide RestoreAll; hide ViewOf; hide DisconnectedDb; hide DisconnectView;
    hide StateOf; hide Within; hide UndoWithin; hide RecordsFiled; hide UndoKeys;
    var target := ReadTarget(db, hash);
    if target.Err? { return Err(target.error); }
    var t := target.value;
    ghost var keys := UndoKeys(t.undo);
    KeysCover(t.undo);
    Steps(env, db, t);
    var moved := PoolMoves(t.block);
    if moved.Err? { return Err(moved.error); }
    var w := StartRest(db, t, keys);
    var undone := UndoAll(env, db, t.block, t.header.height, w, keys);
    if undone.Err? { return Err(undone.error); }
    ghost var st := StateOf(db, undone.value);
    StateParts(db, undone.value);
    if undone.value.spent != [] || undone.value.nodeUndo != [] { return Err(UndoMismatch); }
    var stats := TakeStats(db, undone.value);
    if stats.Err? { return Err(stats.error); }
    var pools := OldPools(db.pools, moved.value.0, moved.value.1);
    if pools.Err? { return Err(pools.error); }
    var b := PutBack(env, db, hash, t, stats.value, pools.value, undone.value.batch, keys);
    BackViewed(env, db, st, hash, t, stats.value, pools.value);
    BackParts(env, db, st, hash, t, stats.value, pools.value);
    DisconnectedMeans(env, db, Commit(db, b), hash, ViewOf(env, Commit(db, b)));
    return Ok(b);
  }

  lemma StateParts(db: Db, w: Rest)
    ensures var st := StateOf(db, w);
            && st.spent == w.spent && st.nodeUndo == w.nodeUndo
            && st.ledger == Commit(db, w.batch).ledger && st.nodes == Commit(db, w.batch).nodes
  {
  }

  method TakeStats(db: Db, w: Rest) returns (r: Result<Stats>)
    ensures r == OldStats(db.stats, StateOf(db, w))
  {
    var up := db.stats.txouts + w.restored;
    if up >= U64_LIMIT || up - w.removed < 0 { return Err(StatsMismatch); }
    if !InI64(db.stats.total - w.valueRemoved) { return Err(ValueOutOfRange); }
    if !InI64(db.stats.total - w.valueRemoved + w.valueRestored) { return Err(ValueOutOfRange); }
    return Ok(Stats(up - w.removed, db.stats.total - w.valueRemoved + w.valueRestored));
  }

  method ReadTarget(db: Db, hash: Hash) returns (r: Result<Target>)
    ensures r == FindTarget(db, hash)
    ensures r.Ok? ==> r.value.block.hash == hash && hash in db.headers
  {
    hide ReadUndo;
    var best := BestBlock(db);
    if best != Some(hash) { return Err(NotOnTip); }
    var header := db.headers[hash];
    if header.height >= U32_LIMIT { return Err(ValueOutOfRange); }
    if hash !in db.blocks { return Err(MissingBlock); }
    if hash !in db.undos { return Err(MissingUndo); }
    var undo := Decode(db.undos[hash]);
    if undo.Bad? { return Err(BadUndo); }
    return Ok(Target(db.blocks[hash].block.(hash := hash), header, undo.value));
  }

  /** `DisconnectView` in the steps the node goes through. */
  lemma Steps(env: Env, db: Db, t: Target)
    ensures var view := ViewOf(env, db);
            var block := t.block;
            var deltas := PoolDeltas(block, |block.txs|);
            var r := DisconnectView(env, view, block, t.header.height, t.undo, TipOf(db, t.header.prev));
            var start := UndoState(db.ledger, RestoreAll(db.nodes, t.undo.paid, |t.undo.paid|), t.undo.spent,
                                   t.undo.nodes, 0, 0, 0, 0);
            var st := UndoTxs(env, block, t.header.height, |block.txs|, start);
            && (deltas.Err? ==> r == Err(deltas.error))
            && (deltas.Ok? && st.Err? ==> r == Err(st.error))
            && (deltas.Ok? && st.Ok? && (st.value.spent != [] || st.value.nodeUndo != []) ==> r == Err(UndoMismatch))
            && (deltas.Ok? && st.Ok? && st.value.spent == [] && st.value.nodeUndo == [] ==>
                  var stats := OldStats(db.stats, st.value);
                  var pools := OldPools(db.pools, deltas.value.0, deltas.value.1);
                  && (stats.Err? ==> r == Err(stats.error))
                  && (stats.Ok? && pools.Err? ==> r == Err(pools.error))
                  && (stats.Ok? && pools.Ok? ==> r == Ok(
                        View(st.value.ledger, st.value.nodes, view.nulls - BlockNulls(block, |block.txs|),
                             OldAnchors(env, Sprout, view.sproutTree, t.undo.sproutTree, view.sproutAnchors),
                             OldAnchors(env, Sapling, view.saplingTree, t.undo.saplingTree, view.saplingAnchors),
                             t.undo.sproutTree, t.undo.saplingTree, view.heights - {t.header.height},
                                 view.times - {block.hash},
                             if block.hash in view.times then view.timeIndex - {(view.times[block.hash], block.hash)}
                                 else view.timeIndex,
                             TipOf(db, t.header.prev), stats.value, pools.value))))
  {
    hide PoolDeltas; hide UndoTxs; hide OldStats; hide OldPools; hide OldAnchors; hide BlockNulls; hide RestoreAll;
    hide KnownAnchors; hide Tree;
  }

  lemma BackParts(env: Env, db: Db, st: UndoState, hash: Hash, t: Target, stats: Stats, pools: Pools)
    ensures var cur := db.(ledger := st.ledger, nodes := st.nodes,
                           nulls := db.nulls - BlockNulls(t.block, |t.block.txs|));
            var after := BackDb(env, db, cur, hash, t, stats, pools);
            after.headers == db.headers && after.blocks == db.blocks && after.undos == db.undos - {hash}
  {
    hide BlockNulls; hide Tree;
  }

  lemma DisconnectedMeans(env: Env, db: Db, after: Db, hash: Hash, view: View)
    requires ViewOf(env, after) == view && after.headers == db.headers && after.blocks == db.blocks
             && after.undos == db.undos - {hash}
    ensures DisconnectedDb(env, db, after, hash, view)
  {
  }
}
