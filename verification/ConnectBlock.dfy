/** The whole of connecting a block: the walk over its transactions, then the writes that end it. */
module ConnectBlock {
  import opened Basics
  import opened Undo
  import opened Ledger
  import opened Chain
  import opened Sequential
  import opened Reversal
  import opened Room
  import opened Overlay
  import opened Linked
  import opened Connect
  import Amounts
  import opened Validate

  // ---- the transactions ----

  const START: Work := Work([], map[], {}, {}, None, None, [], [], [], Totals(0, 0, 0, 0, 0, 0, 0))

  lemma StartLinked(env: Env, db: Db, block: Block, location: nat)
    ensures Boundary(env, db, block, location, START, StartRun(ViewOf(env, db)), 0)
  {
    hide LedgerLinked;
    LinkStart(env, block, db.ledger);
  }

  /** The pass over the transactions agrees with sequential processing, failures included. */
  method WalkTxs(env: Env, db: Db, block: Block, h: u32, location: nat) returns (r: Result<Work>)
    ensures r.Ok? ==> Plain(db, r.value.batch) && DistinctSpends(block)
    ensures Ready(db, block) ==>
              StepAgrees(env, db, block, location, |block.txs|,
                         StepTxs(env, ViewOf(env, db), block, h, location, |block.txs|), r)
  {
    hide Boundary; hide Ready; hide ViewOf; hide StepTx; hide PlainOp; hide SpentOnce; hide DistinctSpends;
    ghost var view := ViewOf(env, db);
    var w := START;
    StartLinked(env, db, block, location);
    NoneSpent(block);
    for j := 0 to |block.txs|
      invariant db.nulls !! w.seen && Plain(db, w.batch) && SpentOnce(block, w.spentOut, j, 0)
      invariant Ready(db, block) ==> StepTxs(env, view, block, h, location, j).Ok?
      invariant Ready(db, block) ==>
                  Boundary(env, db, block, location, w, StepTxs(env, view, block, h, location, j).value, j)
    {
      ghost var run := if Ready(db, block) then StepTxs(env, view, block, h, location, j).value else StartRun(view);
      var next := StepOne(env, db, block, h, location, j, w, run);
      if next.Err? {
        if Ready(db, block) { StepTxsFailure(env, view, block, h, location, j + 1, |block.txs|); }
        return Err(next.error);
      }
      w := next.value;
    }
    AllSpentOnce(block, w.spentOut);
    return Ok(w);
  }

  lemma NoneSpent(block: Block)
    ensures SpentOnce(block, {}, 0, 0)
  {
  }

  lemma AllSpentOnce(block: Block, spentOut: set<OutPoint>)
    requires SpentOnce(block, spentOut, |block.txs|, 0)
    ensures DistinctSpends(block)
  {
    forall k, x, o | SpendsAt(block, k, x, o) ensures !NotBefore(|block.txs|, 0, k, x) {}
  }

  // ---- the overlay and the transaction index ----

  /** Writes what is left of the overlay, in any order. */
  method Flush(db: Db, created: Pending, batch: Batch, ghost s: Store, ghost rows: Store) returns (b: Batch)
    ensures Commit(db, b) == Commit(db, batch).(ledger := Commit(db, b).ledger)
    ensures Shows(s, Commit(db, batch).ledger, created, rows) ==> Shows(s, Commit(db, b).ledger, map[], rows)
    ensures Plain(db, batch) ==> Plain(db, b)
  {
    hide Commit; hide Shows; hide PendingOps; hide Plain;
    b := batch;
    var left := created;
    while left != map[]
      invariant Commit(db, b) == Commit(db, batch).(ledger := Commit(db, b).ledger)
      invariant Shows(s, Commit(db, batch).ledger, created, rows) ==> Shows(s, Commit(db, b).ledger, left, rows)
      invariant Plain(db, batch) ==> Plain(db, b)
      decreases |left|
    {
      var o :| o in left;
      if Shows(s, Commit(db, batch).ledger, created, rows) { FlushPending(s, Commit(db, b).ledger, left, rows, o); }
      CommitLedgerOps(db, b, PendingOps(o, left[o]));
      if Plain(db, b) { PlainMore(db, b, PendingOps(o, left[o])); }
      b := b + LedgerOps(PendingOps(o, left[o]));
      left := left - {o};
    }
  }

  /** `now` is `cur` with `rows` written over it. */
  ghost predicate Overwrites(cur: Store, rows: Store, now: Store) {
    forall k :: At(now, k) == if k in rows then Some(rows[k]) else At(cur, k)
  }

  lemma OverwriteRow(env: Env, block: Block, location: nat, n: nat, cur: Store, now: Store)
    requires n < |block.txs| && env.options.indexTx && Overwrites(cur, Rows(env, block, location, n), now)
    ensures Overwrites(cur, Rows(env, block, location, n + 1), now[TxAt(block.txs[n].id) := Location(location, n)])
  {
    var next := now[TxAt(block.txs[n].id) := Location(location, n)];
    var rows, rows' := Rows(env, block, location, n), Rows(env, block, location, n + 1);
    forall k ensures At(next, k) == if k in rows' then Some(rows'[k]) else At(cur, k) {
      assert At(now, k) == if k in rows then Some(rows[k]) else At(cur, k);
    }
  }

  lemma {:induction false} RowsAreTxAt(env: Env, block: Block, location: nat, n: nat)
    requires n <= |block.txs|
    ensures forall k :: k in Rows(env, block, location, n) ==> k.TxAt?
  {
    if n > 0 { RowsAreTxAt(env, block, location, n - 1); }
  }

  lemma OverwritesShown(env: Env, block: Block, location: nat, s: Store, cur: Store, now: Store)
    requires Shows(s, cur, map[], Rows(env, block, location, |block.txs|))
    requires Overwrites(cur, Rows(env, block, location, |block.txs|), now)
    ensures now == s
  {
    var rows := Rows(env, block, location, |block.txs|);
    RowsAreTxAt(env, block, location, |block.txs|);
    forall k ensures (k in s <==> k in now) && (k in s ==> s[k] == now[k]) {
      assert At(s, k) == SeenAt(cur, map[], rows, k);
      assert At(now, k) == if k in rows then Some(rows[k]) else At(cur, k);
    }
  }

  /** Writes the transaction index; the ledger is then the sequential one. */
  method PutTxRows(env: Env, db: Db, block: Block, location: nat, batch: Batch, ghost s: Store) returns (b: Batch)
    ensures Commit(db, b) == Commit(db, batch).(ledger := Commit(db, b).ledger)
    ensures Shows(s, Commit(db, batch).ledger, map[], Rows(env, block, location, |block.txs|)) ==>
              Commit(db, b).ledger == s
    ensures Plain(db, batch) ==> Plain(db, b)
  {
    hide Commit; hide Shows; hide Overwrites;
    b := batch;
    ghost var cur := Commit(db, batch).ledger;
    OverwriteNothing(cur);
    if env.options.indexTx {
      for j := 0 to |block.txs|
        invariant Commit(db, b) == Commit(db, batch).(ledger := Commit(db, b).ledger)
        invariant Overwrites(cur, Rows(env, block, location, j), Commit(db, b).ledger)
        invariant Plain(db, batch) ==> Plain(db, b)
      {
        OverwriteRow(env, block, location, j, cur, Commit(db, b).ledger);
        CommitSnoc(db, b, LedgerOp(Put(TxAt(block.txs[j].id), Location(location, j))));
        b := b + [LedgerOp(Put(TxAt(block.txs[j].id), Location(location, j)))];
      }
    }
    NoRows(env, block, location, |block.txs|);
    if Shows(s, cur, map[], Rows(env, block, location, |block.txs|)) {
      OverwritesShown(env, block, location, s, cur, Commit(db, b).ledger);
    }
  }

  lemma OverwriteNothing(cur: Store)
    ensures Overwrites(cur, map[], cur)
  {
  }

  // ---- payments ----

  /** The node record an operation writes at `c`: `Some(None)` is a deletion. */
  function WritesRecord(op: WriteOp, c: OutPoint): (r: Option<Option<NodeRecord>>) {
    match op
    case NodePut(k, n) => if k == c then Some(Some(n)) else None
    case NodeDel(k) => if k == c then Some(None) else None
    case _ => None
  }

  lemma RecordAfter(db: Db, op: WriteOp, c: OutPoint)
    ensures var w := WritesRecord(op, c);
            Lookup(CommitOp(db, op).nodes, c) == if w.Some? then w.value else Lookup(db.nodes, c)
  {
    hide ApplyOp; hide Lookup;
    NodesAfter(db, op);
    if op.NodePut? { LookupPut(db.nodes, op.collateral, op.record, c); }
    if op.NodeDel? { LookupDel(db.nodes, op.collateral, c); }
    hide CommitOp;
  }

  lemma LookupPut<K, V>(m: map<K, V>, k: K, v: V, c: K)
    ensures Lookup(m[k := v], c) == if k == c then Some(v) else Lookup(m, c)
  {
  }

  lemma LookupDel<K, V>(m: map<K, V>, k: K, c: K)
    ensures Lookup(m - {k}, c) == if k == c then None else Lookup(m, c)
  {
  }

  lemma NodesAfter(db: Db, op: WriteOp)
    ensures CommitOp(db, op).nodes == if op.NodePut? then db.nodes[op.collateral := op.record]
                                      else if op.NodeDel? then db.nodes - {op.collateral} else db.nodes
  {
    hide ApplyOp;
  }

  /** The record a collateral will have: the last write to it in the batch, else the stored one. */
  method FindRecord(db: Db, batch: Batch, c: OutPoint) returns (r: Option<NodeRecord>)
    ensures r == Lookup(Commit(db, batch).nodes, c)
  {
    hide Commit; hide CommitOp; hide WritesRecord; hide Lookup;
    var found: Option<Option<NodeRecord>> := None;
    CommitNothing(db, batch);
    for i := 0 to |batch|
      invariant Lookup(Commit(db, batch[..i]).nodes, c) == if found.Some? then found.value else Lookup(db.nodes, c)
    {
      CommitSnoc(db, batch[..i], batch[i]);
      assert batch[..i] + [batch[i]] == batch[..i + 1];
      RecordAfter(Commit(db, batch[..i]), batch[i], c);
      var w := WritesRecord(batch[i], c);
      if w.Some? { found := w; }
    }
    assert batch[..|batch|] == batch;
    r := if found.Some? then found.value else Lookup(db.nodes, c);
  }

  lemma CommitNothing(db: Db, batch: Batch)
    ensures Commit(db, batch[..0]) == db
  {
  }

  ghost predicate PaysAgree(db: Db, batch: Batch, spec: Result<(map<OutPoint, NodeRecord>, seq<NodeUndo>)>,
                            r: Result<(Batch, seq<NodeUndo>)>) {
    if r.Err? then spec == Err(r.error)
    else spec.Ok? && r.value.1 == spec.value.1 && Commit(db, r.value.0) == Commit(db, batch).(nodes := spec.value.0)
  }

  lemma PaidPlain(db: Db, batch: Batch, c: OutPoint, n: NodeRecord, h: u32)
    requires Plain(db, batch) && Lookup(Commit(db, batch).nodes, c) == Some(n)
    ensures Plain(db, batch + [NodePut(c, n.(lastPaidHeight := h))])
  {
    hide Commit;
    PlainFrame(db, batch);
  }

  /** Marks every paid node, whatever the batch already did to its record. */
  method PayEach(db: Db, h: u32, paid: seq<OutPoint>, batch: Batch) returns (r: Result<(Batch, seq<NodeUndo>)>)
    ensures PaysAgree(db, batch, PayNodes(h, paid, Commit(db, batch).nodes, []), r)
    ensures r.Ok? && Plain(db, batch) ==> Plain(db, r.value.0)
  {
    hide Commit; hide Plain;
    var b, undo := batch, [];
    assert paid[0..] == paid;
    for i := 0 to |paid|
      invariant PayNodes(h, paid, Commit(db, batch).nodes, []) == PayNodes(h, paid[i..], Commit(db, b).nodes, undo)
      invariant Commit(db, b) == Commit(db, batch).(nodes := Commit(db, b).nodes)
      invariant Plain(db, batch) ==> Plain(db, b)
    {
      assert paid[i..][1..] == paid[i + 1..];
      var record := FindRecord(db, b, paid[i]);
      if record.None? { return Err(MissingPaidRecord); }
      CommitSnoc(db, b, NodePut(paid[i], record.value.(lastPaidHeight := h)));
      if Plain(db, b) { PaidPlain(db, b, paid[i], record.value, h); }
      undo := undo + [NodeUndo(paid[i], record)];
      b := b + [NodePut(paid[i], record.value.(lastPaidHeight := h))];
    }
    return Ok((b, undo));
  }

  // ---- trees and the tip ----

  /** An operation that deletes no node record and writes records under their own collateral. */
  predicate KeepingOp(db: Db, op: WriteOp) {
    !op.NodeDel? && (op.NodePut? && Filed(db.nodes) ==> op.record.collateral == op.collateral)
  }

  predicate Keeping(db: Db, batch: Batch) { forall i :: 0 <= i < |batch| ==> KeepingOp(db, batch[i]) }

  /** Records are written under their own collateral. */
  predicate FiledPuts(batch: Batch) {
    forall i :: 0 <= i < |batch| && batch[i].NodePut? ==> batch[i].record.collateral == batch[i].collateral
  }

  lemma KeepingFiled(db: Db, batch: Batch)
    requires Keeping(db, batch) && Filed(db.nodes)
    ensures FiledPuts(batch)
  {
    forall i | 0 <= i < |batch| && batch[i].NodePut? ensures batch[i].record.collateral == batch[i].collateral {
      assert KeepingOp(db, batch[i]);
    }
  }

  lemma PlainKeeps(db: Db, batch: Batch)
    requires Plain(db, batch)
    ensures Keeping(db, batch)
  {
    forall i | 0 <= i < |batch| ensures KeepingOp(db, batch[i]) { assert PlainOp(db, batch[i]); }
  }

  predicate Moved(env: Env, pool: Pool, before: Bytes, t: Option<Bytes>) {
    t.Some? && env.root(pool, t.value) != env.root(pool, before)
  }

  function PutAnchor(env: Env, pool: Pool, before: Bytes, t: Option<Bytes>,
                     anchors: map<Hash, Bytes>): (a: map<Hash, Bytes>) {
    if Moved(env, pool, before, t) then anchors[env.root(pool, t.value) := if pool.Sprout? then t.value else []]
        else anchors
  }

  function WithTree(env: Env, cur: Db, pool: Pool, before: Bytes, t: Option<Bytes>): (r: Db) {
    cur.(sproutAnchors := if pool.Sprout? then PutAnchor(env, pool, before, t, cur.sproutAnchors)
         else cur.sproutAnchors,
         saplingAnchors := if pool.Sapling? then PutAnchor(env, pool, before, t, cur.saplingAnchors)
             else cur.saplingAnchors,
         trees := if Moved(env, pool, before, t) then cur.trees[pool := t.value] else cur.trees)
  }

  /** A tree whose root moved is stored with an anchor row for the new root. */
  method PutTree(env: Env, db: Db, pool: Pool, t: Option<Bytes>, batch: Batch) returns (b: Batch)
    ensures Commit(db, b) == WithTree(env, Commit(db, batch), pool, Tree(env, db, pool), t)
    ensures Keeping(db, batch) ==> Keeping(db, b)
  {
    hide Commit; hide Tree;
    b := batch;
    if t.Some? && env.root(pool, t.value) != env.root(pool, Tree(env, db, pool)) {
      var row := AnchorPut(pool, env.root(pool, t.value), if pool.Sprout? then t.value else []);
      CommitSnoc(db, b, row);
      CommitSnoc(db, b + [row], TreePut(pool, t.value));
      b := b + [row] + [TreePut(pool, t.value)];
    }
  }

  lemma AnchorsViewed(env: Env, pool: Pool, before: Bytes, t: Option<Bytes>, anchors: map<Hash, Bytes>)
    ensures KnownAnchors(env, pool, PutAnchor(env, pool, before, t, anchors))
            == NewAnchors(env, pool, before, TreeOr(t, before), KnownAnchors(env, pool, anchors))
  {
  }

  lemma TreesViewed(env: Env, db: Db, cur: Db, sprout: Option<Bytes>, sapling: Option<Bytes>)
    requires cur.trees == db.trees
    ensures var before, before' := Tree(env, db, Sprout), Tree(env, db, Sapling);
            var done := WithTree(env, WithTree(env, cur, Sprout, before, sprout), Sapling, before', sapling);
            && Tree(env, done, Sprout) == NewTree(env, Sprout, before, TreeOr(sprout, before))
            && Tree(env, done, Sapling) == NewTree(env, Sapling, before', TreeOr(sapling, before'))
            && done == cur.(sproutAnchors := done.sproutAnchors, saplingAnchors := done.saplingAnchors,
                            trees := done.trees)
            && done.sproutAnchors == PutAnchor(env, Sprout, before, sprout, cur.sproutAnchors)
            && done.saplingAnchors == PutAnchor(env, Sapling, before', sapling, cur.saplingAnchors)
  {
    hide PutAnchor;
  }

  function MaxReorgDepth(h: nat): (d: nat) { if 2_020_000 <= h <= 2_025_000 then 5_000 else 40 }

  /** The block whose undo record is dropped because it can no longer be reached by a reorganisation. */
  function Pruned(db: Db, h: nat): (hs: set<Hash>) {
    var p := h - (MaxReorgDepth(h) + 1);
    if p >= 0 && p in db.heights then {db.heights[p]} else {}
  }

  /** The database once a block is the tip. */
  function TipDb(env: Env, db: Db, cur: Db, block: Block, h: nat, location: nat, header: Header, stats: Stats,
                 pools: Pools, undo: BlockUndo): (r: Db) {
    var t := LogicalTime(ViewOf(env, db), block);
    cur.(timeIndex := if env.options.indexTime then cur.timeIndex + {(t, block.hash)} else cur.timeIndex,
         times := if env.options.indexTime then cur.times[block.hash := t] else cur.times,
         headers := cur.headers[block.hash := header.(hasBlock := true)], tip := Some(block.hash),
         heights := cur.heights[h := block.hash], stats := stats, pools := pools,
         undos := cur.undos[block.hash := UndoBytes(undo)] - Pruned(db, h),
         blocks := cur.blocks[block.hash := StoredBlock(block, location)])
  }

  lemma OpTimes(cur: Db, hash: Hash, t: u32)
    ensures CommitOp(cur, TimeIndexPut(t, hash)) == cur.(timeIndex := cur.timeIndex + {(t, hash)})
    ensures CommitOp(cur, TimePut(hash, t)) == cur.(times := cur.times[hash := t])
  {
  }

  lemma AfterTimes(db: Db, b: Batch, hash: Hash, t: u32)
    ensures var cur := Commit(db, b);
            && Commit(db, b + [TimeIndexPut(t, hash)]) == cur.(timeIndex := cur.timeIndex + {(t, hash)})
            && Commit(db, b + [TimePut(hash, t)]) == cur.(times := cur.times[hash := t])
  {
    hide Commit; hide CommitOp;
    OpTimes(Commit(db, b), hash, t);
    CommitSnoc(db, b, TimeIndexPut(t, hash));
    CommitSnoc(db, b, TimePut(hash, t));
  }

  lemma OpTip(cur: Db, hash: Hash, h: nat, header: Header)
    ensures CommitOp(cur, HeaderPut(hash, header)) == cur.(headers := cur.headers[hash := header])
    ensures CommitOp(cur, TipPut(hash)) == cur.(tip := Some(hash))
    ensures CommitOp(cur, HeightPut(h, hash)) == cur.(heights := cur.heights[h := hash])
  {
  }

  lemma AfterTip(db: Db, b: Batch, hash: Hash, h: nat, header: Header)
    ensures var cur := Commit(db, b);
            && Commit(db, b + [HeaderPut(hash, header)]) == cur.(headers := cur.headers[hash := header])
            && Commit(db, b + [TipPut(hash)]) == cur.(tip := Some(hash))
            && Commit(db, b + [HeightPut(h, hash)]) == cur.(heights := cur.heights[h := hash])
  {
    hide Commit; hide CommitOp;
    OpTip(Commit(db, b), hash, h, header);
    CommitSnoc(db, b, HeaderPut(hash, header));
    CommitSnoc(db, b, TipPut(hash));
    CommitSnoc(db, b, HeightPut(h, hash));
  }

  lemma OpTotals(cur: Db, stats: Stats, pools: Pools)
    ensures CommitOp(cur, StatsPut(stats)) == cur.(stats := stats)
    ensures CommitOp(cur, PoolsPut(pools)) == cur.(pools := pools)
  {
  }

  lemma AfterTotals(db: Db, b: Batch, stats: Stats, pools: Pools)
    ensures var cur := Commit(db, b);
            && Commit(db, b + [StatsPut(stats)]) == cur.(stats := stats)
            && Commit(db, b + [PoolsPut(pools)]) == cur.(pools := pools)
  {
    hide Commit; hide CommitOp;
    OpTotals(Commit(db, b), stats, pools);
    CommitSnoc(db, b, StatsPut(stats));
    CommitSnoc(db, b, PoolsPut(pools));
  }

  lemma OpBlock(cur: Db, hash: Hash, stored: StoredBlock, bytes: Bytes)
    ensures CommitOp(cur, BlockPut(hash, stored)) == cur.(blocks := cur.blocks[hash := stored])
    ensures CommitOp(cur, UndoPut(hash, bytes)) == cur.(undos := cur.undos[hash := bytes])
    ensures CommitOp(cur, UndoDel(hash)) == cur.(undos := cur.undos - {hash})
  {
  }

  lemma AfterBlock(db: Db, b: Batch, hash: Hash, stored: StoredBlock, bytes: Bytes)
    ensures var cur := Commit(db, b);
            && Commit(db, b + [BlockPut(hash, stored)]) == cur.(blocks := cur.blocks[hash := stored])
            && Commit(db, b + [UndoPut(hash, bytes)]) == cur.(undos := cur.undos[hash := bytes])
            && Commit(db, b + [UndoDel(hash)]) == cur.(undos := cur.undos - {hash})
  {
    hide Commit; hide CommitOp;
    OpBlock(Commit(db, b), hash, stored, bytes);
    CommitSnoc(db, b, BlockPut(hash, stored));
    CommitSnoc(db, b, UndoPut(hash, bytes));
    CommitSnoc(db, b, UndoDel(hash));
  }

  method PutTimes(env: Env, db: Db, block: Block, batch: Batch) returns (b: Batch)
    ensures var t := LogicalTime(ViewOf(env, db), block);
            var cur := Commit(db, batch);
            Commit(db, b) == cur.(
              timeIndex := if env.options.indexTime then cur.timeIndex + {(t, block.hash)} else cur.timeIndex,
              times := if env.options.indexTime then cur.times[block.hash := t] else cur.times)
    ensures Keeping(db, batch) ==> Keeping(db, b)
  {
    hide Commit; hide CommitOp;
    b := batch;
    if env.options.indexTime {
      var t: u32 := block.time;
      if block.prev != ZERO_HASH && block.prev in db.times && t <= db.times[block.prev] {
        t := if db.times[block.prev] < U32_LIMIT - 1 then db.times[block.prev] + 1 else U32_LIMIT - 1;
      }
      AfterTimes(db, b, block.hash, t);
      b := b + [TimeIndexPut(t, block.hash)];
      AfterTimes(db, b, block.hash, t);
      b := b + [TimePut(block.hash, t)];
    }
  }

  method PutUndo(db: Db, block: Block, h: nat, location: nat, undo: BlockUndo, batch: Batch) returns (b: Batch)
    ensures var cur := Commit(db, batch);
            Commit(db, b) == cur.(undos := cur.undos[block.hash := UndoBytes(undo)] - Pruned(db, h),
                                  blocks := cur.blocks[block.hash := StoredBlock(block, location)])
    ensures Keeping(db, batch) ==> Keeping(db, b)
  {
    hide Commit; hide CommitOp; hide UndoBytes;
    var bytes := Encode(undo);
    var stored := StoredBlock(block, location);
    AfterBlock(db, batch, block.hash, stored, bytes);
    b := batch + [BlockPut(block.hash, stored)];
    AfterBlock(db, b, block.hash, stored, bytes);
    b := b + [UndoPut(block.hash, bytes)];
    ghost var undos := Commit(db, b).undos;
    assert undos - {} == undos;
    var p := h - (MaxReorgDepth(h) + 1);
    if p >= 0 && p in db.heights {
      AfterBlock(db, b, db.heights[p], stored, bytes);
      b := b + [UndoDel(db.heights[p])];
    }
  }

  /** The writes that make the block the tip. */
  method PutTip(env: Env, db: Db, block: Block, h: nat, location: nat, header: Header, stats: Stats, pools: Pools,
                undo: BlockUndo, batch: Batch)
    returns (b: Batch)
    ensures Commit(db, b) == TipDb(env, db, Commit(db, batch), block, h, location, header, stats, pools, undo)
    ensures Keeping(db, batch) ==> Keeping(db, b)
  {
    hide Commit; hide CommitOp; hide LogicalTime; hide ViewOf; hide Pruned; hide UndoBytes;
    b := PutTimes(env, db, block, batch);
    var entry := header.(hasBlock := true);
    AfterTip(db, b, block.hash, h, entry);
    b := b + [HeaderPut(block.hash, entry)];
    AfterTip(db, b, block.hash, h, entry);
    b := b + [TipPut(block.hash)];
    AfterTip(db, b, block.hash, h, entry);
    b := b + [HeightPut(h, block.hash)];
    AfterTotals(db, b, stats, pools);
    b := b + [StatsPut(stats)];
    AfterTotals(db, b, stats, pools);
    b := b + [PoolsPut(pools)];
    b := PutUndo(db, block, h, location, undo, b);
  }

  // ---- the whole block ----

  /** The header entry of a block: the indexed one, or one built on its parent. */
  function HeaderFor(env: Env, db: Db, block: Block): (r: Result<Header>) {
    var isGenesis := block.prev == ZERO_HASH && block.hash == env.genesis;
    if block.hash in db.headers then Ok(db.headers[block.hash])
    else if !isGenesis && block.prev !in db.headers then Err(MissingHeader)
    else if !env.headerOk(db.headers, block) then Err(InvalidHeader)
    else Ok(Header(block.prev, if isGenesis then 0 else db.headers[block.prev].height + 1, false))
  }

  /** The checks made before any transaction is looked at. */
  function Admit(env: Env, db: Db, block: Block, h: nat): (r: Result<Header>) {
    var header :- HeaderFor(env, db, block);
    if header.height != h then Err(BadHeight)
    else if (if BestBlock(db).Some? then block.prev != BestBlock(db).value else h != 0) then Err(NotOnTip)
    else if !ValidBlock(env, block, h) then Err(InvalidBlock)
    else Ok(header)
  }

  /** What a connected block leaves: the view of sequential processing, its header, body and undo record. */
  ghost predicate ConnectedDb(env: Env, db: Db, after: Db, block: Block, h: nat, location: nat, header: Header,
                              c: Connected) {
    && ViewOf(env, after) == c.view
    && after.headers == db.headers[block.hash := header.(hasBlock := true)]
    && after.blocks == db.blocks[block.hash := StoredBlock(block, location)]
    && after.undos == db.undos[block.hash := UndoBytes(c.undo)] - Pruned(db, h)
  }

  method VerifyScripts(env: Env, block: Block, checks: seq<Check>, spent: seq<SpentOutput>) returns (ok: bool)
    ensures ok == ChecksOk(env, block, checks, spent)
  {
    for k := 0 to |checks|
      invariant forall i :: 0 <= i < k ==> CheckOk(env, block, spent, checks[i])
    {
      if !CheckOk(env, block, spent, checks[k]) { return false; }
    }
    return true;
  }

  lemma BoundaryParts(env: Env, db: Db, block: Block, location: nat, w: Work, run: Run)
    requires Boundary(env, db, block, location, w, run, |block.txs|)
    ensures Shows(run.ledger, Commit(db, w.batch).ledger, w.created, Rows(env, block, location, |block.txs|))
    ensures Commit(db, w.batch) == db.(ledger := Commit(db, w.batch).ledger, nodes := run.nodes, nulls := run.nulls)
    ensures run.scriptsOk == ChecksOk(env, block, w.checks, w.spent)
    ensures w.totals == run.totals && w.spent == run.spent && w.nodeUndo == run.nodeUndo
    ensures TreeOr(w.sproutTree, Tree(env, db, Sprout)) == run.sproutTree
            && TreeOr(w.saplingTree, Tree(env, db, Sapling)) == run.saplingTree
  {
    hide Shows; hide Commit; hide Tree; hide ChecksOk;
  }

  /** The columns the transactions change. */
  function Settled(env: Env, db: Db, ledger: Store, nodes: map<OutPoint, NodeRecord>, nulls: set<(Pool, Hash)>,
                   w: Work): (r: Db) {
    var cur := db.(ledger := ledger, nodes := nodes, nulls := nulls);
    WithTree(env, WithTree(env, cur, Sprout, Tree(env, db, Sprout), w.sproutTree), Sapling, Tree(env, db, Sapling),
             w.saplingTree)
  }

  ghost predicate SettlesAgree(env: Env, db: Db, w: Work, run: Run,
                               pay: Result<(map<OutPoint, NodeRecord>, seq<NodeUndo>)>,
                                   r: Result<(Batch, seq<NodeUndo>)>) {
    if pay.Err? then r == Err(pay.error)
    else
      && r.Ok? && r.value.1 == pay.value.1
      && Commit(db, r.value.0) == Settled(env, db, run.ledger, pay.value.0, run.nulls, w)
  }

  /** Whatever the transactions did, they did it to the columns that are theirs. */
  ghost predicate Settles(env: Env, db: Db, w: Work, cur: Db) {
    cur == Settled(env, db, cur.ledger, cur.nodes, cur.nulls, w)
  }

  lemma PlainSettles(env: Env, db: Db, w: Work, before: Batch, b: Batch)
    requires Plain(db, before)
    requires Commit(db, b) == WithTree(env, WithTree(env, Commit(db, before), Sprout, Tree(env, db, Sprout),
                                                     w.sproutTree),
                                       Sapling, Tree(env, db, Sapling), w.saplingTree)
    ensures Settles(env, db, w, Commit(db, b))
  {
    hide Commit; hide Tree; hide PutAnchor; hide Filed; hide Plain;
    PlainFrame(db, before);
  }

  /** Flushes the overlay, marks the paid nodes, and writes trees and the transaction index. */
  method Settle(env: Env, db: Db, block: Block, h: u32, location: nat, paid: seq<OutPoint>, w: Work, ghost run: Run)
    returns (r: Result<(Batch, seq<NodeUndo>)>)
    ensures Boundary(env, db, block, location, w, run, |block.txs|) ==>
              if !run.scriptsOk then r == Err(ScriptFailed)
              else SettlesAgree(env, db, w, run, PayNodes(h, paid, run.nodes, []), r)
    ensures r.Ok? && Plain(db, w.batch) ==> Keeping(db, r.value.0) && Settles(env, db, w, Commit(db, r.value.0))
  {
    hide Boundary; hide Commit; hide CommitOp; hide Shows; hide PayNodes; hide WithTree; hide Tree; hide Rows;
    hide ChecksOk; hide Plain; hide Keeping; hide Settles;
    if Boundary(env, db, block, location, w, run, |block.txs|) { BoundaryParts(env, db, block, location, w, run); }
    var b := Flush(db, w.created, w.batch, run.ledger, Rows(env, block, location, |block.txs|));
    var ok := VerifyScripts(env, block, w.checks, w.spent);
    if !ok { return Err(ScriptFailed); }
    b := PutTxRows(env, db, block, location, b, run.ledger);
    var paidOut := PayEach(db, h, paid, b);
    if paidOut.Err? { return Err(paidOut.error); }
    b := paidOut.value.0;
    ghost var before := b;
    if Plain(db, b) { PlainKeeps(db, b); }
    b := PutTree(env, db, Sprout, w.sproutTree, b);
    b := PutTree(env, db, Sapling, w.saplingTree, b);
    if Plain(db, before) { PlainSettles(env, db, w, before, b); }
    return Ok((b, paidOut.value.1));
  }

  /** The view once the block is connected. */
  function EndView(env: Env, view: View, block: Block, h: nat, run: Run, nodes: map<OutPoint, NodeRecord>,
                   stats: Stats, pools: Pools): (v: View) {
    var t := LogicalTime(view, block);
    View(run.ledger, nodes, run.nulls,
         NewAnchors(env, Sprout, view.sproutTree, run.sproutTree, view.sproutAnchors),
         NewAnchors(env, Sapling, view.saplingTree, run.saplingTree, view.saplingAnchors),
         NewTree(env, Sprout, view.sproutTree, run.sproutTree),
         NewTree(env, Sapling, view.saplingTree, run.saplingTree),
         view.heights[h := block.hash],
         if env.options.indexTime then view.times[block.hash := t] else view.times,
         if env.options.indexTime then view.timeIndex + {(t, block.hash)} else view.timeIndex,
         Some(block.hash), stats, pools)
  }

  lemma SettledViewed(env: Env, db: Db, run: Run, nodes: map<OutPoint, NodeRecord>, w: Work, block: Block, h: nat,
                      location: nat, header: Header, stats: Stats, pools: Pools, undo: BlockUndo)
    requires TreeOr(w.sproutTree, Tree(env, db, Sprout)) == run.sproutTree
             && TreeOr(w.saplingTree, Tree(env, db, Sapling)) == run.saplingTree
    ensures ViewOf(env, TipDb(env, db, Settled(env, db, run.ledger, nodes, run.nulls, w), block, h, location, header,
                              stats, pools, undo)) ==
              EndView(env, ViewOf(env, db), block, h, run, nodes, stats, pools)
  {
    hide WithTree; hide NewAnchors; hide NewTree; hide LogicalTime; hide PutAnchor; hide KnownAnchors; hide Pruned;
    hide UndoBytes;
    var cur := db.(ledger := run.ledger, nodes := nodes, nulls := run.nulls);
    TreesViewed(env, db, cur, w.sproutTree, w.saplingTree);
    AnchorsViewed(env, Sprout, Tree(env, db, Sprout), w.sproutTree, db.sproutAnchors);
    AnchorsViewed(env, Sapling, Tree(env, db, Sapling), w.saplingTree, db.saplingAnchors);
  }

  /** The last checks on a settled block, in order. */
  function FinalTotals(env: Env, view: View, block: Block, h: nat, run: Run): (r: Result<(Stats, Pools)>)
    requires block.txs != []
  {
    var sapling := NewTree(env, Sapling, view.saplingTree, run.saplingTree);
    if h >= env.acadiaHeight && block.saplingRoot != env.root(Sapling, sapling) then Err(SaplingRootMismatch)
    else
      var maxReward :- CheckedI64(env.subsidy(h) + run.totals.fees + env.extraFunds(h));
      if h > 2 && ValueOut(block.txs[0]) > maxReward then Err(CoinbaseTooLarge)
      else
        var stats :- NewStats(view.stats, run.totals);
        var pools :- NewPools(view.pools, run.totals);
        Ok((stats, pools))
  }

  method AddStats(stats: Stats, t: Totals) returns (r: Result<Stats>)
    ensures r == NewStats(stats, t)
  {
    var up := stats.txouts + t.created;
    if up >= U64_LIMIT || t.spentCount > up { return Err(StatsMismatch); }
    var total := stats.total + t.valueCreated;
    if !InI64(total) { return Err(ValueOutOfRange); }
    total := total - t.valueSpent;
    if !InI64(total) { return Err(ValueOutOfRange); }
    return Ok(Stats(up - t.spentCount, total));
  }

  method AddPools(pools: Pools, t: Totals) returns (r: Result<Pools>)
    ensures r == NewPools(pools, t)
  {
    var sprout, sapling := pools.sprout + t.sprout, pools.sapling + t.sapling;
    if !InI64(sprout) || !InI64(sapling) { return Err(ValueOutOfRange); }
    if sprout < 0 || sapling < 0 { return Err(NegativePool); }
    return Ok(Pools(sprout, sapling));
  }

  method CheckTotals(env: Env, db: Db, block: Block, h: nat, w: Work, ghost run: Run)
    returns (r: Result<(Stats, Pools)>)
    requires block.txs != []
    ensures w.totals == run.totals && TreeOr(w.saplingTree, Tree(env, db, Sapling)) == run.saplingTree
            && OutputsInRange(block.txs[0]) ==>
              r == FinalTotals(env, ViewOf(env, db), block, h, run)
  {
    hide NewStats; hide NewPools; hide ValueOut; hide OutputsInRange; hide ViewOf; hide Tree; hide TreeOr; hide NewTree;
    TotalsView(env, db, w.saplingTree);
    var root := if w.saplingTree.Some? then env.root(Sapling, w.saplingTree.value)
        else env.root(Sapling, Tree(env, db, Sapling));
    if h >= env.acadiaHeight && block.saplingRoot != root { return Err(SaplingRootMismatch); }
    var coinbase := Amounts.TxValueOut(block.txs[0]);
    if coinbase.Err? { return Err(coinbase.error); }
    var maxReward := env.subsidy(h) + w.totals.fees + env.extraFunds(h);
    if !InI64(maxReward) { return Err(ValueOutOfRange); }
    if h > 2 && coinbase.value > maxReward { return Err(CoinbaseTooLarge); }
    var stats := AddStats(db.stats, w.totals);
    if stats.Err? { return Err(stats.error); }
    var pools := AddPools(db.pools, w.totals);
    if pools.Err? { return Err(pools.error); }
    return Ok((stats.value, pools.value));
  }

  lemma TotalsView(env: Env, db: Db, t: Option<Bytes>)
    ensures var view := ViewOf(env, db);
            && view.stats == db.stats && view.pools == db.pools
            && env.root(Sapling, NewTree(env, Sapling, view.saplingTree, TreeOr(t, Tree(env, db, Sapling)))) ==
                 if t.Some? then env.root(Sapling, t.value) else env.root(Sapling, Tree(env, db, Sapling))
  {
  }

  /** `ConnectView` in the phases the node goes through. */
  lemma Phases(env: Env, view: View, block: Block, h: u32, location: nat, paid: seq<OutPoint>)
    requires block.txs != []
    ensures var walk := StepTxs(env, view, block, h, location, |block.txs|);
            var r := ConnectView(env, view, block, h, location, paid);
            && (walk.Err? ==> r == Err(walk.error))
            && (walk.Ok? && !walk.value.scriptsOk ==> r == Err(ScriptFailed))
            && (walk.Ok? && walk.value.scriptsOk ==>
                  var pay := PayNodes(h, paid, walk.value.nodes, []);
                  var totals := FinalTotals(env, view, block, h, walk.value);
                  && (pay.Err? ==> r == Err(pay.error))
                  && (pay.Ok? && totals.Err? ==> r == Err(totals.error))
                  && (pay.Ok? && totals.Ok? ==>
                        r == Ok(Connected(EndView(env, view, block, h, walk.value, pay.value.0, totals.value.0,
                                                  totals.value.1),
                                          BlockUndo(view.sproutTree, view.saplingTree, walk.value.spent,
                                                    walk.value.nodeUndo, pay.value.1)))))
  {
    hide StepTxs; hide PayNodes; hide NewStats; hide NewPools; hide NewAnchors; hide NewTree; hide LogicalTime;
    hide ValueOut;
  }

  lemma {:induction false} FirstInRange(env: Env, view: View, block: Block, h: u32, location: nat, n: nat)
    requires 0 < n <= |block.txs| && StepTxs(env, view, block, h, location, n).Ok?
    ensures OutputsInRange(block.txs[0])
    decreases n
  {
    hide CheckNode; hide OutputsInRange; hide ShieldedInRange; hide CheckShielded; hide SpendTx; hide ApplyNode;
    hide GrowTrees; hide CreateOutputs;
    if n > 1 { hide StepTx; FirstInRange(env, view, block, h, location, n - 1); }
  }

  /** What every connected block leaves, whatever its transactions are: the tip's columns. */
  ghost predicate TipColumns(db: Db, after: Db, block: Block, h: nat, location: nat, header: Header) {
    && after.headers == db.headers[block.hash := header.(hasBlock := true)] && after.tip == Some(block.hash)
    && after.blocks == db.blocks[block.hash := StoredBlock(block, location)]
    && after.heights == db.heights[h := block.hash]
  }

  ghost predicate ConnectAgrees(env: Env, db: Db, block: Block, h: nat, location: nat, header: Header,
                                spec: Result<Connected>, r: Result<Batch>) {
    if spec.Err? then r == Err(spec.error)
    else r.Ok? && ConnectedDb(env, db, Commit(db, r.value), block, h, location, header, spec.value)
  }

  /** Connecting a block: it accepts and rejects what sequential processing of its transactions
      accepts and rejects, with the same error, and the committed batch leaves the same state. Only
      a block that makes an outpoint that is stored already, and then spends it, is not covered. Every
      connected block spends no outpoint twice, and sets the tip. */
  method ConnectTip(env: Env, db: Db, block: Block, h: nat, location: nat, paid: seq<OutPoint>)
    returns (r: Result<Batch>)
    requires h <= I32_MAX
    ensures Admit(env, db, block, h).Err? ==> r == Err(Admit(env, db, block, h).error)
    ensures Admit(env, db, block, h).Ok? && NoClash(db.ledger, block) ==>
              ConnectAgrees(env, db, block, h, location, Admit(env, db, block, h).value,
                            ConnectView(env, ViewOf(env, db), block, h, location, paid), r)
    ensures r.Ok? ==>
              && Admit(env, db, block, h).Ok? && Keeping(db, r.value) && DistinctSpends(block)
              && TipColumns(db, Commit(db, r.value), block, h, location, Admit(env, db, block, h).value)
  {
    hide Commit; hide CommitOp; hide NoClash; hide ViewOf; hide StepTxs; hide ConnectView; hide FinalTotals;
    hide Boundary; hide PayNodes; hide EndView; hide Settled; hide Settles; hide TipDb; hide Tree; hide TreeOr;
    hide ConnectedDb; hide Plain; hide Keeping; hide TipColumns; hide DistinctIds; hide DistinctCollaterals;
    hide DistinctSpends; hide OutputsInRange; hide Admit;
    ghost var view := ViewOf(env, db);
    var admitted := CheckAdmit(env, db, block, h);
    if admitted.Err? { return Err(admitted.error); }
    Phases(env, view, block, h, location, paid);
    var w := WalkTxs(env, db, block, h, location);
    if w.Err? { return Err(w.error); }
    ghost var linked := NoClash(db.ledger, block);
    ghost var run := if linked then StepTxs(env, view, block, h, location, |block.txs|).value else StartRun(view);
    if linked {
      BoundaryFacts(env, db, block, location, w.value, run);
      FirstInRange(env, view, block, h, location, |block.txs|);
    }
    var settled := Settle(env, db, block, h, location, paid, w.value, run);
    if settled.Err? { return Err(settled.error); }
    var totals := CheckTotals(env, db, block, h, w.value, run);
    if totals.Err? { return Err(totals.error); }
    var undo := BlockUndo(Tree(env, db, Sprout), Tree(env, db, Sapling), w.value.spent, w.value.nodeUndo,
                          settled.value.1);
    var b := PutTip(env, db, block, h, location, admitted.value, totals.value.0, totals.value.1, undo, settled.value.0);
    TipSet(env, db, Commit(db, settled.value.0), w.value, block, h, location, admitted.value, totals.value.0,
           totals.value.1, undo);
    if linked {
      ghost var nodes := PayNodes(h, paid, run.nodes, []).value.0;
      SettledViewed(env, db, run, nodes, w.value, block, h, location, admitted.value, totals.value.0, totals.value.1,
                    undo);
      TipParts(env, db, run, nodes, w.value, block, h, location, admitted.value, totals.value.0, totals.value.1, undo);
      ViewTrees(env, db);
      ConnectedMeans(env, db, Commit(db, b), block, h, location, admitted.value,
                     ConnectView(env, view, block, h, location, paid).value);
    }
    return Ok(b);
  }

  lemma TipSet(env: Env, db: Db, cur: Db, w: Work, block: Block, h: nat, location: nat, header: Header, stats: Stats,
               pools: Pools, undo: BlockUndo)
    requires Settles(env, db, w, cur)
    ensures TipColumns(db, TipDb(env, db, cur, block, h, location, header, stats, pools, undo), block, h, location,
                       header)
  {
    hide Pruned; hide UndoBytes; hide LogicalTime; hide PutAnchor; hide Tree; hide ViewOf;
  }

  method FindHeader(env: Env, db: Db, block: Block) returns (r: Result<Header>)
    ensures r == HeaderFor(env, db, block)
  {
    if block.hash in db.headers { return Ok(db.headers[block.hash]); }
    var height := 0;
    if block.prev != ZERO_HASH || block.hash != env.genesis {
      if block.prev !in db.headers { return Err(MissingHeader); }
      height := db.headers[block.prev].height + 1;
    }
    if !env.headerOk(db.headers, block) { return Err(InvalidHeader); }
    return Ok(Header(block.prev, height, false));
  }

  method CheckAdmit(env: Env, db: Db, block: Block, h: nat) returns (r: Result<Header>)
    ensures r == Admit(env, db, block, h)
    ensures r.Ok? ==> block.txs != [] && DistinctIds(block.txs) && DistinctCollaterals(block.txs)
  {
    hide DistinctIds; hide DistinctCollaterals; hide BlockSize;
    var header := FindHeader(env, db, block);
    if header.Err? { return Err(header.error); }
    if header.value.height != h { return Err(BadHeight); }
    var best := BestBlock(db);
    if best.Some? {
      if block.prev != best.value { return Err(NotOnTip); }
    } else if h != 0 {
      return Err(NotOnTip);
    }
    var ok := CheckBlock(env, block, h);
    if !ok { return Err(InvalidBlock); }
    return Ok(header.value);
  }

  lemma BoundaryFacts(env: Env, db: Db, block: Block, location: nat, w: Work, run: Run)
    requires Boundary(env, db, block, location, w, run, |block.txs|)
    ensures w.totals == run.totals && w.spent == run.spent && w.nodeUndo == run.nodeUndo
    ensures TreeOr(w.sproutTree, Tree(env, db, Sprout)) == run.sproutTree
            && TreeOr(w.saplingTree, Tree(env, db, Sapling)) == run.saplingTree
  {
    hide Boundary; hide Tree; hide TreeOr;
    BoundaryParts(env, db, block, location, w, run);
  }

  lemma ViewTrees(env: Env, db: Db)
    ensures ViewOf(env, db).sproutTree == Tree(env, db, Sprout) && ViewOf(env, db).saplingTree == Tree(env, db, Sapling)
  {
  }

  lemma TipParts(env: Env, db: Db, run: Run, nodes: map<OutPoint, NodeRecord>, w: Work, block: Block, h: nat,
                 location: nat, header: Header, stats: Stats, pools: Pools, undo: BlockUndo)
    ensures var after := TipDb(env, db, Settled(env, db, run.ledger, nodes, run.nulls, w), block, h, location, header,
                               stats, pools, undo);
            && after.headers == db.headers[block.hash := header.(hasBlock := true)]
            && after.blocks == db.blocks[block.hash := StoredBlock(block, location)]
            && after.undos == db.undos[block.hash := UndoBytes(undo)] - Pruned(db, h)
  {
    hide Pruned; hide UndoBytes; hide LogicalTime; hide PutAnchor; hide Tree;
  }

  lemma ConnectedMeans(env: Env, db: Db, after: Db, block: Block, h: nat, location: nat, header: Header, c: Connected)
    requires ViewOf(env, after) == c.view
    requires after.headers == db.headers[block.hash := header.(hasBlock := true)]
    requires after.blocks == db.blocks[block.hash := StoredBlock(block, location)]
    requires after.undos == db.undos[block.hash := UndoBytes(c.undo)] - Pruned(db, h)
    ensures ConnectedDb(env, db, after, block, h, location, header, c)
  {
  }
}
