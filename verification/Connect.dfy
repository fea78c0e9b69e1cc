/** Connecting a block the way the node does it: one pass over the transactions with an overlay
    of created outputs and a write batch, committed at the end. */
module Connect {
  import opened Basics
  import opened Undo
  import opened Ledger
  import opened Chain
  import opened Sequential
  import opened Reversal
  import opened Room
  import opened Rewind
  import opened Amounts
  import opened Validate
  import opened Overlay
  import opened Linked

  /** A script to verify once the block has been walked: input `input` of transaction `tx` against entry `spent`. */
  datatype Check = Check(tx: nat, input: nat, spent: nat)

  /** The local variables of the pass. */
  datatype Work = Work(
    batch: Batch, created: Pending, spentOut: set<OutPoint>, seen: set<(Pool, Hash)>, sproutTree: Option<Bytes>,
    saplingTree: Option<Bytes>, spent: seq<SpentOutput>, nodeUndo: seq<NodeUndo>, checks: seq<Check>, totals: Totals)

  function TreeOr(t: Option<Bytes>, stored: Bytes): (b: Bytes) { if t.Some? then t.value else stored }

  predicate CheckOk(env: Env, block: Block, spent: seq<SpentOutput>, c: Check) {
    c.tx < |block.txs| && c.spent < |spent| && env.verifyScript(block.txs[c.tx], c.input, spent[c.spent].entry)
  }

  predicate ChecksOk(env: Env, block: Block, checks: seq<Check>, spent: seq<SpentOutput>) {
    forall i :: 0 <= i < |checks| ==> CheckOk(env, block, spent, checks[i])
  }

  predicate ChecksIn(checks: seq<Check>, spent: seq<SpentOutput>) {
    forall i :: 0 <= i < |checks| ==> checks[i].spent < |spent|
  }

  predicate ChecksLinked(env: Env, block: Block, checks: seq<Check>, spent: seq<SpentOutput>, ok: bool) {
    ChecksIn(checks, spent) && ok == ChecksOk(env, block, checks, spent)
  }

  /** What block validation gives, for a block that does not spend what it re-creates. */
  ghost predicate Ready(db: Db, block: Block) {
    && DistinctIds(block.txs) && NoClash(db.ledger, block) && DistinctCollaterals(block.txs)
  }

  /** The pass has done what sequential processing has done. */
  ghost predicate WorkLinked(env: Env, db: Db, block: Block, w: Work, run: Run, j: nat, i: nat, rows: Store) {
    var cur := Commit(db, w.batch);
    && LedgerLinked(env, block, db.ledger, cur.ledger, w.created, w.spentOut, run.ledger, j, i, rows)
    && cur == db.(ledger := cur.ledger, nodes := run.nodes, nulls := cur.nulls)
    && run.nulls == db.nulls + w.seen && db.nulls !! w.seen
    && TreeOr(w.sproutTree, Tree(env, db, Sprout)) == run.sproutTree
    && TreeOr(w.saplingTree, Tree(env, db, Sapling)) == run.saplingTree
    && w.spent == run.spent && w.nodeUndo == run.nodeUndo && w.totals == run.totals
    && ChecksLinked(env, block, w.checks, w.spent, run.scriptsOk)
  }

  /** A part of the pass fails as sequential processing does, or reaches the same state. */
  ghost predicate Agrees(env: Env, db: Db, block: Block, rows: Store, j: nat, spec: Result<Run>, r: Result<Work>) {
    if r.Err? then spec == Err(r.error) else spec.Ok? && WorkLinked(env, db, block, r.value, spec.value, j, 0, rows)
  }

  ghost predicate SameNulls(db: Db, w: Work, r: Result<Work>) {
    r.Ok? ==> Commit(db, r.value.batch).nulls == Commit(db, w.batch).nulls
  }

  /** The same for a part that also adds up the value spent. */
  ghost predicate AgreesOn(env: Env, db: Db, block: Block, rows: Store, j: nat, w: Work, spec: Result<(Run, i64)>,
                           r: Result<(Work, i64)>) {
    if r.Err? then spec == Err(r.error)
    else
      && spec.Ok? && spec.value.1 == r.value.1 && WorkLinked(env, db, block, r.value.0, spec.value.0, j, 0, rows)
      && Commit(db, r.value.0.batch).nulls == Commit(db, w.batch).nulls
  }

  // ---- the operations of a batch ----

  /** An operation the walk over the transactions may add. Records go under their own collateral. */
  predicate PlainOp(db: Db, op: WriteOp) {
    op.LedgerOp? || op.NullPut? || (op.NodePut? && (Filed(db.nodes) ==> op.record.collateral == op.collateral))
  }

  predicate Plain(db: Db, batch: Batch) { forall i :: 0 <= i < |batch| ==> PlainOp(db, batch[i]) }

  lemma PlainMore(db: Db, batch: Batch, ops: seq<Op>)
    requires Plain(db, batch)
    ensures Plain(db, batch + LedgerOps(ops))
  {
  }

  /** Plain operations change ledger, node and nullifier columns only, and keep records filed. */
  lemma {:induction false} PlainFrame(db: Db, batch: Batch)
    requires Plain(db, batch)
    ensures var cur := Commit(db, batch);
            && cur == db.(ledger := cur.ledger, nodes := cur.nodes, nulls := cur.nulls)
            && (Filed(db.nodes) ==> Filed(cur.nodes))
    decreases |batch|
  {
    hide CommitOp; hide Filed;
    if batch != [] {
      var n := |batch| - 1;
      PlainFrame(db, batch[..n]);
      assert PlainOp(db, batch[n]);
      PlainStep(db, Commit(db, batch[..n]), batch[n]);
    }
  }

  lemma PlainStep(db: Db, cur: Db, op: WriteOp)
    requires PlainOp(db, op)
    ensures var next := CommitOp(cur, op);
            && next == cur.(ledger := next.ledger, nodes := next.nodes, nulls := next.nulls)
            && (Filed(db.nodes) && Filed(cur.nodes) ==> Filed(next.nodes))
  {
    hide ApplyOp;
    match op
    case LedgerOp(_) =>
    case NullPut(_, _) =>
    case NodePut(c, n) =>
  }

  // ---- inputs ----

  /** The outpoints of all inputs before input `i` of transaction `j` are marked, and they are all different. */
  ghost predicate SpentOnce(block: Block, spentOut: set<OutPoint>, j: nat, i: nat) {
    && (forall k, x, o :: SpendsAt(block, k, x, o) && !NotBefore(j, i, k, x) ==> o in spentOut)
    && forall k, x, l, y, o ::
         SpendsAt(block, k, x, o) && SpendsAt(block, l, y, o) && !NotBefore(j, i, k, x) && !NotBefore(j, i, l, y) ==>
           k == l && x == y
  }

  lemma SpentMore(block: Block, spentOut: set<OutPoint>, j: nat, i: nat)
    requires 0 < j < |block.txs| && i < |block.txs[j].vin| && SpentOnce(block, spentOut, j, i)
    requires block.txs[j].vin[i].prevout !in spentOut
    ensures SpentOnce(block, spentOut + {block.txs[j].vin[i].prevout}, j, i + 1)
  {
    forall k, x | !NotBefore(j, i + 1, k, x) ensures !NotBefore(j, i, k, x) || (k == j && x == i) {}
  }

  lemma SpentNext(block: Block, spentOut: set<OutPoint>, j: nat, i: nat)
    requires j < |block.txs| && SpentOnce(block, spentOut, j, i) && (j == 0 || i == |block.txs[j].vin|)
    ensures SpentOnce(block, spentOut, j + 1, 0)
  {
    forall k, x, o | SpendsAt(block, k, x, o) && !NotBefore(j + 1, 0, k, x) ensures !NotBefore(j, i, k, x) {}
  }

  lemma CheckAdded(env: Env, block: Block, checks: seq<Check>, spent: seq<SpentOutput>, ok: bool, j: nat, i: nat,
                   s: SpentOutput)
    requires j < |block.txs| && ChecksLinked(env, block, checks, spent, ok)
    ensures ChecksLinked(env, block, checks + [Check(j, i, |spent|)], spent + [s], ok
                         && env.verifyScript(block.txs[j], i, s.entry))
  {
    var checks', spent' := checks + [Check(j, i, |spent|)], spent + [s];
    assert forall k :: 0 <= k < |checks| ==>
      CheckOk(env, block, spent', checks'[k]) == CheckOk(env, block, spent, checks[k]);
    assert CheckOk(env, block, spent', checks'[|checks|]) == env.verifyScript(block.txs[j], i, s.entry);
    if ChecksOk(env, block, checks', spent') {
      assert forall k :: 0 <= k < |checks| ==> CheckOk(env, block, spent', checks'[k]);
    }
  }

  /** The state after one accepted input. */
  function SpendWork(env: Env, h: nat, block: Block, j: nat, i: nat, w: Work, e: UtxoEntry, inBlock: bool,
                     valueSpent: i64): (r: Work)
    requires j < |block.txs| && i < |block.txs[j].vin|
    ensures r.seen == w.seen && r.spentOut == w.spentOut + {block.txs[j].vin[i].prevout}
  {
    var tx := block.txs[j];
    var o := tx.vin[i].prevout;
    w.(batch := w.batch + LedgerOps(StoredInputOps(env, h, j, tx, i, e, inBlock)),
       created := if inBlock then w.created - {o} else w.created,
       spentOut := w.spentOut + {o},
       spent := w.spent + [SpentOutput(o, e)],
       checks := w.checks + [Check(j, i, |w.spent|)],
       totals := w.totals.(spentCount := w.totals.spentCount + 1, valueSpent := valueSpent))
  }

  ghost function SpentRun(env: Env, h: nat, j: nat, tx: Tx, i: nat, run: Run, e: UtxoEntry, valueSpent: i64): (r: Run)
    requires i < |tx.vin|
  {
    run.(ledger := Apply(run.ledger, InputOps(env, h, j, tx, i, e)),
         spent := run.spent + [SpentOutput(tx.vin[i].prevout, e)],
         scriptsOk := run.scriptsOk && env.verifyScript(tx, i, e),
         totals := run.totals.(spentCount := run.totals.spentCount + 1, valueSpent := valueSpent))
  }

  /** The checks on an input whose coin is found, in order. */
  lemma InputChecks(env: Env, h: nat, j: nat, tx: Tx, i: nat, run: Run, paidIn: i64, e: UtxoEntry)
    requires i < |tx.vin| && Utxo(tx.vin[i].prevout) in run.ledger && run.ledger[Utxo(tx.vin[i].prevout)] == Coin(e)
    ensures var valueSpent := run.totals.valueSpent + e.value;
            SpendInput(env, h, j, tx, i, run, paidIn) ==
            if !InI64(0 - e.value) || !InI64(valueSpent) then Err(ValueOutOfRange)
            else if e.coinbase && h - e.height < COINBASE_MATURITY then Err(PrematureCoinbase)
            else if e.coinbase && env.coinbaseProtected && h < env.fluxHeight && tx.vout != []
            then Err(ProtectedCoinbase)
            else if !InI64(paidIn + e.value) then Err(ValueOutOfRange)
            else Ok((SpentRun(env, h, j, tx, i, run, e, valueSpent), paidIn + e.value))
  {
  }

  lemma SpendLinked(env: Env, db: Db, block: Block, h: nat, j: nat, i: nat, w: Work, run: Run, rows: Store,
                    e: UtxoEntry, inBlock: bool, valueSpent: i64)
    requires j < |block.txs| && i < |block.txs[j].vin|
    requires 0 < j && WorkLinked(env, db, block, w, run, j, 0, rows) && NoClash(db.ledger, block)
    requires var o := block.txs[j].vin[i].prevout;
             && o !in w.spentOut && inBlock == (o in w.created)
             && (if inBlock then e == w.created[o].entry else Utxo(o) in db.ledger && db.ledger[Utxo(o)] == Coin(e))
    ensures var tx := block.txs[j];
            var o := tx.vin[i].prevout;
            var w' := SpendWork(env, h, block, j, i, w, e, inBlock, valueSpent);
            && Utxo(o) in run.ledger && run.ledger[Utxo(o)] == Coin(e)
            && WorkLinked(env, db, block, w', SpentRun(env, h, j, tx, i, run, e, valueSpent), j, 0, rows)
            && Commit(db, w'.batch).nulls == Commit(db, w.batch).nulls
  {
    hide LedgerLinked; hide Commit; hide Apply; hide InputOps; hide StoredInputOps; hide ChecksLinked; hide LedgerOps;
    hide TreeOr; hide Tree; hide NoClash;
    var tx := block.txs[j];
    var o := tx.vin[i].prevout;
    var cur := Commit(db, w.batch);
    CommitLedgerOps(db, w.batch, StoredInputOps(env, h, j, tx, i, e, inBlock));
    CheckAdded(env, block, w.checks, w.spent, run.scriptsOk, j, i, SpentOutput(o, e));
    if inBlock {
      LinkSpendPending(env, block, db.ledger, cur.ledger, w.created, w.spentOut, run.ledger, h, j, i, rows);
    } else {
      LinkSpendStored(env, block, db.ledger, cur.ledger, w.created, w.spentOut, run.ledger, h, j, tx, i, rows);
    }
  }

  lemma WorkFacts(env: Env, db: Db, block: Block, w: Work, run: Run, j: nat, i: nat, rows: Store)
    requires WorkLinked(env, db, block, w, run, j, i, rows)
    ensures w.totals == run.totals
    ensures LedgerLinked(env, block, db.ledger, Commit(db, w.batch).ledger, w.created, w.spentOut, run.ledger, j, i,
                         rows)
  {
  }

  /** One input: taken from the overlay if created in this block, else from the store. */
  method SpendOne(env: Env, db: Db, block: Block, h: nat, j: nat, i: nat, w: Work, paidIn: i64, ghost run: Run,
                  ghost rows: Store)
    returns (r: Result<(Work, i64)>)
    requires 0 < j < |block.txs| && i < |block.txs[j].vin|
    ensures r.Ok? ==> r.value.0.seen == w.seen
    ensures r.Ok? && Plain(db, w.batch) ==> Plain(db, r.value.0.batch)
    ensures r.Ok? && SpentOnce(block, w.spentOut, j, i) ==> SpentOnce(block, r.value.0.spentOut, j, i + 1)
    ensures WorkLinked(env, db, block, w, run, j, 0, rows) && NoClash(db.ledger, block) ==>
              AgreesOn(env, db, block, rows, j, w, SpendInput(env, h, j, block.txs[j], i, run, paidIn), r)
  {
    hide WorkLinked; hide LedgerLinked; hide Commit; hide Apply; hide InputOps; hide NoClash; hide SpendWork;
    hide Plain; hide SpentRun; hide SpentOnce;
    ghost var linked := WorkLinked(env, db, block, w, run, j, 0, rows) && NoClash(db.ledger, block);
    ghost var cur := Commit(db, w.batch).ledger;
    if linked { WorkFacts(env, db, block, w, run, j, 0, rows); }
    var tx := block.txs[j];
    var o := tx.vin[i].prevout;
    var inBlock := o in w.created;
    if o in w.spentOut || (!inBlock && (Utxo(o) !in db.ledger || !db.ledger[Utxo(o)].Coin?)) {
      if linked { LinkMissing(env, block, db.ledger, cur, w.created, w.spentOut, run.ledger, j, i, rows, o); }
      return Err(MissingInput);
    }
    var e := if inBlock then w.created[o].entry else db.ledger[Utxo(o)].entry;
    if linked {
      SpendLinked(env, db, block, h, j, i, w, run, rows, e, inBlock, 0);
      InputChecks(env, h, j, tx, i, run, paidIn, e);
    }
    if !InI64(0 - e.value) { return Err(ValueOutOfRange); }
    if !InI64(w.totals.valueSpent + e.value) { return Err(ValueOutOfRange); }
    if e.coinbase && h - e.height < COINBASE_MATURITY { return Err(PrematureCoinbase); }
    if e.coinbase && env.coinbaseProtected && h < env.fluxHeight && tx.vout != [] { return Err(ProtectedCoinbase); }
    if !InI64(paidIn + e.value) { return Err(ValueOutOfRange); }
    if linked { SpendLinked(env, db, block, h, j, i, w, run, rows, e, inBlock, w.totals.valueSpent + e.value); }
    if SpentOnce(block, w.spentOut, j, i) { SpentMore(block, w.spentOut, j, i); }
    if Plain(db, w.batch) { SpendPlain(env, db, h, block, j, i, w, e, inBlock, w.totals.valueSpent + e.value); }
    return Ok((SpendWork(env, h, block, j, i, w, e, inBlock, w.totals.valueSpent + e.value), paidIn + e.value));
  }

  lemma SpendPlain(env: Env, db: Db, h: nat, block: Block, j: nat, i: nat, w: Work, e: UtxoEntry, inBlock: bool,
                   valueSpent: i64)
    requires j < |block.txs| && i < |block.txs[j].vin| && Plain(db, w.batch)
    ensures Plain(db, SpendWork(env, h, block, j, i, w, e, inBlock, valueSpent).batch)
  {
    hide Plain; hide StoredInputOps;
    PlainMore(db, w.batch, StoredInputOps(env, h, j, block.txs[j], i, e, inBlock));
  }

  /** All inputs of a transaction, in order. */
  method SpendEach(env: Env, db: Db, block: Block, h: nat, j: nat, w: Work, ghost run: Run, ghost rows: Store)
    returns (r: Result<(Work, i64)>)
    requires 0 < j < |block.txs|
    ensures r.Ok? ==> r.value.0.seen == w.seen
    ensures r.Ok? && Plain(db, w.batch) ==> Plain(db, r.value.0.batch)
    ensures r.Ok? && SpentOnce(block, w.spentOut, j, 0) ==>
              SpentOnce(block, r.value.0.spentOut, j, |block.txs[j].vin|)
    ensures WorkLinked(env, db, block, w, run, j, 0, rows) && NoClash(db.ledger, block) ==>
              AgreesOn(env, db, block, rows, j, w, SpendInputs(env, h, j, block.txs[j], |block.txs[j].vin|, run), r)
  {
    hide WorkLinked; hide NoClash; hide Commit; hide SpendInput; hide Plain; hide SpentOnce;
    ghost var linked := WorkLinked(env, db, block, w, run, j, 0, rows) && NoClash(db.ledger, block);
    var tx := block.txs[j];
    var w', paidIn: i64 := w, 0;
    for i := 0 to |tx.vin|
      invariant w'.seen == w.seen && (Plain(db, w.batch) ==> Plain(db, w'.batch))
      invariant SpentOnce(block, w.spentOut, j, 0) ==> SpentOnce(block, w'.spentOut, j, i)
      invariant linked ==>
                  SpendInputs(env, h, j, tx, i, run).Ok? && SpendInputs(env, h, j, tx, i, run).value.1 == paidIn
      invariant linked ==> WorkLinked(env, db, block, w', SpendInputs(env, h, j, tx, i, run).value.0, j, 0, rows)
      invariant linked ==> Commit(db, w'.batch).nulls == Commit(db, w.batch).nulls
    {
      ghost var now := if linked then SpendInputs(env, h, j, tx, i, run).value.0 else run;
      var next := SpendOne(env, db, block, h, j, i, w', paidIn, now, rows);
      if next.Err? {
        if linked { SpendInputsFailure(env, h, j, tx, i + 1, |tx.vin|, run); }
        return Err(next.error);
      }
      w', paidIn := next.value.0, next.value.1;
    }
    return Ok((w', paidIn));
  }

  /** Inputs and fee of a transaction after the first. */
  method SpendAll(env: Env, db: Db, block: Block, h: nat, j: nat, w: Work, valueOut: i64, shieldedIn: i64,
                  ghost run: Run, ghost rows: Store)
    returns (r: Result<Work>)
    requires j < |block.txs| && valueOut == ValueOut(block.txs[j]) && shieldedIn == ShieldedIn(block.txs[j])
    ensures r.Ok? ==> r.value.seen == w.seen
    ensures r.Ok? && Plain(db, w.batch) ==> Plain(db, r.value.batch)
    ensures r.Ok? && SpentOnce(block, w.spentOut, j, 0) ==> SpentOnce(block, r.value.spentOut, j + 1, 0)
    ensures WorkLinked(env, db, block, w, run, j, 0, rows) && NoClash(db.ledger, block) ==>
              Agrees(env, db, block, rows, j, SpendTx(env, h, j, block.txs[j], run), r) && SameNulls(db, w, r)
  {
    hide WorkLinked; hide NoClash; hide Commit; hide SpendInputs; hide ValueOut; hide ShieldedIn; hide Plain;
    hide SpentOnce;
    ghost var linked := WorkLinked(env, db, block, w, run, j, 0, rows) && NoClash(db.ledger, block);
    if j == 0 {
      if SpentOnce(block, w.spentOut, j, 0) { SpentNext(block, w.spentOut, j, 0); }
      return Ok(w);
    }
    var inner := SpendEach(env, db, block, h, j, w, run, rows);
    if inner.Err? { return Err(inner.error); }
    var w', paidIn := inner.value.0, inner.value.1;
    if SpentOnce(block, w.spentOut, j, 0) { SpentNext(block, w'.spentOut, j, |block.txs[j].vin|); }
    ghost var now := if linked then SpendInputs(env, h, j, block.txs[j], |block.txs[j].vin|, run).value.0 else run;
    if linked { WorkFacts(env, db, block, w', now, j, 0, rows); }
    if !InI64(shieldedIn + paidIn) || shieldedIn + paidIn < valueOut { return Err(ValueOutOfRange); }
    var fees := w'.totals.fees + (shieldedIn + paidIn - valueOut);
    if !InI64(fees) { return Err(ValueOutOfRange); }
    if linked { TotalsLinked(env, db, block, w', now, j, rows, w'.totals.(fees := fees)); }
    return Ok(w'.(totals := w'.totals.(fees := fees)));
  }

  lemma TotalsLinked(env: Env, db: Db, block: Block, w: Work, run: Run, j: nat, rows: Store, t: Totals)
    requires WorkLinked(env, db, block, w, run, j, 0, rows)
    ensures WorkLinked(env, db, block, w.(totals := t), run.(totals := t), j, 0, rows)
  {
    hide LedgerLinked; hide Commit; hide ChecksLinked; hide Tree;
  }

  // ---- shielded parts ----

  method CheckTxShielded(env: Env, db: Db, block: Block, j: nat, w: Work, ghost run: Run, ghost rows: Store)
    returns (r: Result<Work>)
    requires j < |block.txs| && db.nulls !! w.seen
    ensures r.Ok? ==> r.value == w.(seen := r.value.seen, totals := r.value.totals) && db.nulls !! r.value.seen
    ensures WorkLinked(env, db, block, w, run, j, 0, rows) ==>
              Agrees(env, db, block, rows, j, CheckShielded(env, ViewOf(env, db), block.txs[j], run), r)
  {
    hide WorkLinked; hide ViewOf; hide JoinSplits; hide Spends;
    ghost var linked := WorkLinked(env, db, block, w, run, j, 0, rows);
    if linked { NullsLinked(env, db, block, w, run, j, rows); }
    var tx := block.txs[j];
    if !InI64(w.totals.sapling - tx.valueBalance) { return Err(ValueOutOfRange); }
    var js := CheckJoinSplits(env, db, tx.joinSplits, w.seen, w.totals.sprout);
    if js.Err? { return Err(js.error); }
    var sp := CheckSpends(env, db, tx.spends, js.value.0);
    if sp.Err? { return Err(sp.error); }
    var t := w.totals.(sprout := js.value.1, sapling := w.totals.sapling - tx.valueBalance);
    if linked { SeenLinked(env, db, block, w, run, j, rows, sp.value, t); }
    return Ok(w.(seen := sp.value, totals := t));
  }

  lemma NullsLinked(env: Env, db: Db, block: Block, w: Work, run: Run, j: nat, rows: Store)
    requires WorkLinked(env, db, block, w, run, j, 0, rows)
    ensures w.totals == run.totals && run.nulls == db.nulls + w.seen && db.nulls !! w.seen
  {
    hide LedgerLinked; hide Commit; hide ChecksLinked; hide Tree;
  }

  lemma SeenLinked(env: Env, db: Db, block: Block, w: Work, run: Run, j: nat, rows: Store, seen: set<(Pool, Hash)>,
                   t: Totals)
    requires WorkLinked(env, db, block, w, run, j, 0, rows) && db.nulls !! seen
    ensures WorkLinked(env, db, block, w.(seen := seen, totals := t), run.(nulls := db.nulls + seen, totals := t), j,
                       0, rows)
  {
    hide LedgerLinked; hide Commit; hide ChecksLinked; hide Tree;
  }

  function WithNulls(db: Db, nulls: set<(Pool, Hash)>): (r: Db) { db.(nulls := db.nulls + nulls) }

  method PutTagged(db: Db, pool: Pool, hs: seq<Hash>, batch: Batch) returns (b: Batch)
    ensures Commit(db, b) == WithNulls(Commit(db, batch), Tagged(pool, hs))
    ensures Plain(db, batch) ==> Plain(db, b)
  {
    hide Commit; hide Tagged;
    b := batch;
    NoneTagged(pool, hs);
    for k := 0 to |hs|
      invariant Commit(db, b) == WithNulls(Commit(db, batch), Tagged(pool, hs[..k]))
      invariant Plain(db, batch) ==> Plain(db, b)
    {
      CommitSnoc(db, b, NullPut(pool, hs[k]));
      TaggedSnoc(pool, hs, k);
      b := b + [NullPut(pool, hs[k])];
      assert Commit(db, batch).nulls + Tagged(pool, hs[..k]) + {(pool, hs[k])}
          == Commit(db, batch).nulls + Tagged(pool, hs[..k + 1]);
    }
    assert hs[..|hs|] == hs;
  }

  lemma NoneTagged(pool: Pool, hs: seq<Hash>)
    ensures Tagged(pool, hs[..0]) == {}
  {
  }

  method PutJoinSplitNulls(db: Db, js: seq<JoinSplit>, batch: Batch) returns (b: Batch)
    ensures Commit(db, b) == WithNulls(Commit(db, batch), JoinSplitNulls(js))
    ensures Plain(db, batch) ==> Plain(db, b)
  {
    hide Commit; hide Tagged; hide WithNulls;
    b := batch;
    assert js[0..] == js;
    for i := 0 to |js|
      invariant WithNulls(Commit(db, batch), JoinSplitNulls(js)) == WithNulls(Commit(db, b), JoinSplitNulls(js[i..]))
      invariant Plain(db, batch) ==> Plain(db, b)
    {
      assert js[i..][1..] == js[i + 1..];
      WithMore(Commit(db, b), Tagged(Sprout, js[i].nullifiers), JoinSplitNulls(js[i + 1..]));
      b := PutTagged(db, Sprout, js[i].nullifiers, b);
    }
    WithMore(Commit(db, b), {}, {});
  }

  method PutSpendNulls(db: Db, spends: seq<ShieldedSpend>, batch: Batch) returns (b: Batch)
    ensures Commit(db, b) == WithNulls(Commit(db, batch), SpendNulls(spends))
    ensures Plain(db, batch) ==> Plain(db, b)
  {
    hide Commit; hide WithNulls;
    b := batch;
    assert spends[0..] == spends;
    for i := 0 to |spends|
      invariant WithNulls(Commit(db, batch), SpendNulls(spends)) == WithNulls(Commit(db, b), SpendNulls(spends[i..]))
      invariant Plain(db, batch) ==> Plain(db, b)
    {
      assert spends[i..][1..] == spends[i + 1..];
      WithMore(Commit(db, b), {(Sapling, spends[i].nullifier)}, SpendNulls(spends[i + 1..]));
      OneNull(db, b, Sapling, spends[i].nullifier);
      b := b + [NullPut(Sapling, spends[i].nullifier)];
    }
    WithMore(Commit(db, b), {}, {});
  }

  lemma WithMore(db: Db, a: set<(Pool, Hash)>, b: set<(Pool, Hash)>)
    ensures WithNulls(WithNulls(db, a), b) == WithNulls(db, a + b)
    ensures WithNulls(db, {}) == db
  {
    assert db.nulls + a + b == db.nulls + (a + b);
  }

  lemma OneNull(db: Db, batch: Batch, pool: Pool, h: Hash)
    ensures Commit(db, batch + [NullPut(pool, h)]) == WithNulls(Commit(db, batch), {(pool, h)})
  {
    hide Commit;
    CommitSnoc(db, batch, NullPut(pool, h));
  }

  /** Writes the nullifiers of a transaction to the batch. */
  method PutNullifiers(db: Db, tx: Tx, batch: Batch) returns (b: Batch)
    ensures Commit(db, b) == WithNulls(Commit(db, batch), TxNulls(tx))
    ensures Plain(db, batch) ==> Plain(db, b)
  {
    hide Commit; hide WithNulls;
    b := PutJoinSplitNulls(db, tx.joinSplits, batch);
    b := PutSpendNulls(db, tx.spends, b);
    WithMore(Commit(db, batch), JoinSplitNulls(tx.joinSplits), SpendNulls(tx.spends));
  }

  lemma TaggedSnoc(pool: Pool, hs: seq<Hash>, k: nat)
    requires k < |hs|
    ensures Tagged(pool, hs[..k + 1]) == Tagged(pool, hs[..k]) + {(pool, hs[k])}
  {
    forall x | x in Tagged(pool, hs[..k + 1]) ensures x in Tagged(pool, hs[..k]) + {(pool, hs[k])} {
      var i :| 0 <= i < k + 1 && x == (pool, hs[..k + 1][i]);
      if i < k { assert hs[..k][i] == hs[..k + 1][i]; }
    }
    forall x | x in Tagged(pool, hs[..k]) ensures x in Tagged(pool, hs[..k + 1]) {
      var i :| 0 <= i < k && x == (pool, hs[..k][i]);
      assert hs[..k + 1][i] == hs[..k][i];
    }
    assert hs[..k + 1][k] == hs[k];
  }

  // ---- node records ----

  /** The records of collaterals that transactions from `j` on touch are still the stored ones. */
  predicate NodesLeft(nodes: map<OutPoint, NodeRecord>, stored: map<OutPoint, NodeRecord>, block: Block, j: nat) {
    forall k :: j <= k < |block.txs| && block.txs[k].node.Some? ==>
      Lookup(nodes, block.txs[k].node.value.collateral) == Lookup(stored, block.txs[k].node.value.collateral)
  }

  lemma NodesLeftStep(nodes: map<OutPoint, NodeRecord>, stored: map<OutPoint, NodeRecord>, block: Block, j: nat)
    requires j < |block.txs| && NodesLeft(nodes, stored, block, j)
    ensures NodesLeft(nodes, stored, block, j + 1)
    ensures var t := block.txs[j].node;
            t.Some? ==> Lookup(nodes, t.value.collateral) == Lookup(stored, t.value.collateral)
  {
  }

  lemma NodesLeftWrite(nodes: map<OutPoint, NodeRecord>, stored: map<OutPoint, NodeRecord>, block: Block, j: nat,
                       n: NodeRecord)
    requires j < |block.txs| && NodesLeft(nodes, stored, block, j) && DistinctCollaterals(block.txs)
             && block.txs[j].node.Some?
    ensures NodesLeft(nodes[block.txs[j].node.value.collateral := n], stored, block, j + 1)
  {
  }

  function NodeBatch(batch: Batch, c: OutPoint, write: Option<NodeRecord>): Batch {
    if write.Some? then batch + [NodePut(c, write.value)] else batch
  }

  ghost predicate NodesAgree(db: Db, block: Block, j: nat, spec: Result<Run>) {
    spec.Ok? ==> NodesLeft(spec.value.nodes, db.nodes, block, j + 1)
  }

  /** Records the old node record and writes the new one, both from what is stored before the block. */
  method ApplyTxNode(env: Env, db: Db, block: Block, h: u32, j: nat, w: Work, meta: Option<StartMeta>, ghost run: Run,
                     ghost rows: Store)
    returns (r: Result<Work>)
    requires j < |block.txs|
    ensures r.Ok? ==> r.value == w.(batch := r.value.batch, nodeUndo := r.value.nodeUndo)
    ensures r.Ok? && Plain(db, w.batch) ==> Plain(db, r.value.batch)
    ensures WorkLinked(env, db, block, w, run, j, 0, rows) && NodesLeft(run.nodes, db.nodes, block, j)
            && DistinctCollaterals(block.txs) ==>
              var spec := ApplyNode(block.txs[j].node, h, meta, run);
              Agrees(env, db, block, rows, j, spec, r) && SameNulls(db, w, r) && NodesAgree(db, block, j, spec)
  {
    hide WorkLinked; hide Commit; hide NodeWrite; hide NodesLeft; hide DistinctCollaterals; hide Plain; hide Agrees;
    hide NodesAgree; hide ApplyNode;
    ghost var linked := WorkLinked(env, db, block, w, run, j, 0, rows) && NodesLeft(run.nodes, db.nodes, block, j)
        && DistinctCollaterals(block.txs);
    if linked { NodeAgrees(env, db, block, h, j, w, meta, run, rows); }
    if block.txs[j].node.None? { return Ok(w); }
    var t := block.txs[j].node.value;
    var prev := Lookup(db.nodes, t.collateral);
    var write := NodeWrite(t, prev, h, meta);
    if write.Err? { return Err(write.error); }
    if Plain(db, w.batch) { WrittenPlain(db, w.batch, t, h, meta, write.value); }
    return Ok(w.(batch := NodeBatch(w.batch, t.collateral, write.value),
                 nodeUndo := w.nodeUndo + [NodeUndo(t.collateral, prev)]));
  }

  lemma NodeAgrees(env: Env, db: Db, block: Block, h: u32, j: nat, w: Work, meta: Option<StartMeta>, run: Run,
                   rows: Store)
    requires j < |block.txs| && WorkLinked(env, db, block, w, run, j, 0, rows)
    requires NodesLeft(run.nodes, db.nodes, block, j) && DistinctCollaterals(block.txs)
    ensures var spec := ApplyNode(block.txs[j].node, h, meta, run);
            if block.txs[j].node.None? then Agrees(env, db, block, rows, j, spec, Ok(w))
                && NodesAgree(db, block, j, spec)
            else
              var t := block.txs[j].node.value;
              var prev := Lookup(db.nodes, t.collateral);
              var write := NodeWrite(t, prev, h, meta);
              if write.Err? then Agrees(env, db, block, rows, j, spec, Err(write.error))
                  && NodesAgree(db, block, j, spec)
              else
                var r := Ok(w.(batch := NodeBatch(w.batch, t.collateral, write.value),
                               nodeUndo := w.nodeUndo + [NodeUndo(t.collateral, prev)]));
                Agrees(env, db, block, rows, j, spec, r) && SameNulls(db, w, r) && NodesAgree(db, block, j, spec)
  {
    hide WorkLinked; hide Commit; hide NodeWrite; hide NodesLeft; hide DistinctCollaterals;
    NodesLeftStep(run.nodes, db.nodes, block, j);
    if block.txs[j].node.Some? {
      var t := block.txs[j].node.value;
      var prev := Lookup(db.nodes, t.collateral);
      var write := NodeWrite(t, prev, h, meta);
      if write.Ok? {
        NodeLinked(env, db, block, j, w, run, rows, NodeUndo(t.collateral, prev), write.value);
        if write.value.Some? { NodesLeftWrite(run.nodes, db.nodes, block, j, write.value.value); }
      }
    }
  }

  /** A record goes under its own collateral, if the records before the block do. */
  lemma WrittenPlain(db: Db, batch: Batch, t: NodeTx, h: u32, meta: Option<StartMeta>, write: Option<NodeRecord>)
    requires NodeWrite(t, Lookup(db.nodes, t.collateral), h, meta) == Ok(write) && Plain(db, batch)
    ensures Plain(db, NodeBatch(batch, t.collateral, write))
  {
  }

  lemma NodeLinked(env: Env, db: Db, block: Block, j: nat, w: Work, run: Run, rows: Store, u: NodeUndo,
                   write: Option<NodeRecord>)
    requires j < |block.txs| && WorkLinked(env, db, block, w, run, j, 0, rows)
    ensures var batch' := NodeBatch(w.batch, u.collateral, write);
            && WorkLinked(env, db, block, w.(batch := batch', nodeUndo := w.nodeUndo + [u]),
                          run.(nodes := if write.Some? then run.nodes[u.collateral := write.value] else run.nodes,
                               nodeUndo := run.nodeUndo + [u]), j, 0, rows)
            && Commit(db, batch').nulls == Commit(db, w.batch).nulls
  {
    hide LedgerLinked; hide Commit; hide ChecksLinked; hide Tree;
    if write.Some? { CommitSnoc(db, w.batch, NodePut(u.collateral, write.value)); }
  }

  // ---- commitment trees ----

  method ListCommitments(js: seq<JoinSplit>) returns (hs: seq<Hash>)
    ensures hs == Commitments(js)
  {
    hs := [];
    assert js[0..] == js;
    for i := 0 to |js|
      invariant Commitments(js) == hs + Commitments(js[i..])
    {
      assert js[i..][0] == js[i] && js[i..][1..] == js[i + 1..];
      hs := hs + js[i].commitments;
    }
  }

  method GrowTxTrees(env: Env, db: Db, block: Block, j: nat, w: Work, ghost run: Run, ghost rows: Store)
    returns (r: Result<Work>)
    requires j < |block.txs|
    ensures r.Ok? ==> r.value == w.(sproutTree := r.value.sproutTree, saplingTree := r.value.saplingTree)
    ensures WorkLinked(env, db, block, w, run, j, 0, rows) ==>
              Agrees(env, db, block, rows, j, GrowTrees(env, block.txs[j], run), r)
  {
    hide WorkLinked; hide AppendAll; hide Tree;
    ghost var linked := WorkLinked(env, db, block, w, run, j, 0, rows);
    if linked { TreesLinked(env, db, block, j, w, run, rows); }
    var tx := block.txs[j];
    var sprout, sapling := w.sproutTree, w.saplingTree;
    NoCommitments(env, tx, run);
    if tx.joinSplits != [] {
      var t := TreeOr(sprout, Tree(env, db, Sprout));
      var hs := ListCommitments(tx.joinSplits);
      var grown := AppendCommitments(env, Sprout, t, hs);
      if grown.Err? { return Err(grown.error); }
      sprout := Some(grown.value);
    }
    if tx.outputs != [] {
      var grown := AppendCommitments(env, Sapling, TreeOr(sapling, Tree(env, db, Sapling)), tx.outputs);
      if grown.Err? { return Err(grown.error); }
      sapling := Some(grown.value);
    }
    r := Ok(w.(sproutTree := sprout, saplingTree := sapling));
    if linked {
      TreesChanged(env, db, block, j, w, run, rows, sprout, sapling);
    }
  }

  lemma NoCommitments(env: Env, tx: Tx, run: Run)
    ensures tx.joinSplits == [] ==>
              AppendAll(env, Sprout, run.sproutTree, Commitments(tx.joinSplits)) == Ok(run.sproutTree)
    ensures tx.outputs == [] ==> AppendAll(env, Sapling, run.saplingTree, tx.outputs) == Ok(run.saplingTree)
  {
  }

  lemma TreesLinked(env: Env, db: Db, block: Block, j: nat, w: Work, run: Run, rows: Store)
    requires WorkLinked(env, db, block, w, run, j, 0, rows)
    ensures TreeOr(w.sproutTree, Tree(env, db, Sprout)) == run.sproutTree
            && TreeOr(w.saplingTree, Tree(env, db, Sapling)) == run.saplingTree
  {
    hide LedgerLinked; hide Commit; hide ChecksLinked; hide Tree;
  }

  lemma TreesChanged(env: Env, db: Db, block: Block, j: nat, w: Work, run: Run, rows: Store, sprout: Option<Bytes>,
                     sapling: Option<Bytes>)
    requires WorkLinked(env, db, block, w, run, j, 0, rows)
    ensures WorkLinked(env, db, block, w.(sproutTree := sprout, saplingTree := sapling),
                       run.(sproutTree := TreeOr(sprout, Tree(env, db, Sprout)),
                            saplingTree := TreeOr(sapling, Tree(env, db, Sapling))), j, 0, rows)
  {
    hide LedgerLinked; hide Commit; hide ChecksLinked; hide Tree;
  }

  // ---- outputs ----

  /** The run after the first `i` outputs. */
  function RunWithOutputs(env: Env, h: u32, j: nat, tx: Tx, run: Run, i: nat, value: i64): (r: Run)
    requires i <= |tx.vout|
  {
    run.(ledger := Apply(run.ledger, OutputsOps(env, h, j, tx, i)),
         totals := run.totals.(created := run.totals.created + i, valueCreated := value))
  }

  function CreateWork(env: Env, h: u32, block: Block, j: nat, i: nat, w: Work, value: i64): (r: Work)
    requires j < |block.txs| && i < |block.txs[j].vout|
    ensures r == w.(batch := r.batch, created := r.created, totals := r.totals) && r.totals.valueCreated == value
  {
    var tx := block.txs[j];
    var c := Created(OutputEntry(h, j, tx, i), AddressOf(env, tx.vout[i].script));
    w.(batch := w.batch + LedgerOps(CreditRowOps(env, h, j, tx, i)),
       created := w.created[OutPoint(tx.id, i) := c],
       totals := w.totals.(created := w.totals.created + 1, valueCreated := value))
  }

  lemma CreateLinked(env: Env, db: Db, block: Block, h: u32, j: nat, i: nat, w: Work, run: Run, rows: Store,
                     before: i64, value: i64)
    requires j < |block.txs| && i < |block.txs[j].vout|
    requires WorkLinked(env, db, block, w, RunWithOutputs(env, h, j, block.txs[j], run, i, before), j, i, rows)
    requires NoClash(db.ledger, block) && DistinctIds(block.txs)
    ensures var w' := CreateWork(env, h, block, j, i, w, value);
            && WorkLinked(env, db, block, w', RunWithOutputs(env, h, j, block.txs[j], run, i + 1, value), j, i + 1,
                          rows)
            && Commit(db, w'.batch).nulls == Commit(db, w.batch).nulls
  {
    hide LedgerLinked; hide Commit; hide Apply; hide OutputOps; hide CreditRowOps; hide ChecksLinked; hide LedgerOps;
    hide TreeOr; hide Tree; hide NoClash; hide AddressOf; hide OutputEntry; hide DistinctIds;
    var tx := block.txs[j];
    var cur := Commit(db, w.batch);
    var s := Apply(run.ledger, OutputsOps(env, h, j, tx, i));
    CommitLedgerOps(db, w.batch, CreditRowOps(env, h, j, tx, i));
    LinkCreate(env, block, db.ledger, cur.ledger, w.created, w.spentOut, s, h, j, i, rows);
    ApplyConcat(run.ledger, OutputsOps(env, h, j, tx, i), OutputOps(env, h, j, tx, i));
  }

  ghost predicate OutputsAgree(env: Env, db: Db, block: Block, rows: Store, h: u32, j: nat, w: Work, run: Run,
                               r: Result<Work>)
    requires j < |block.txs|
  {
    var tx := block.txs[j];
    var value := run.totals.valueCreated + SumOut(tx.vout);
    if r.Err? then !InI64(value) && r.error == ValueOutOfRange
    else
      && InI64(value) && SameNulls(db, w, r)
      && WorkLinked(env, db, block, r.value, RunWithOutputs(env, h, j, tx, run, |tx.vout|, value), j, |tx.vout|, rows)
  }

  lemma CreatePlain(env: Env, db: Db, h: u32, block: Block, j: nat, i: nat, w: Work, value: i64)
    requires j < |block.txs| && i < |block.txs[j].vout| && Plain(db, w.batch)
    ensures Plain(db, CreateWork(env, h, block, j, i, w, value).batch)
  {
    hide Plain; hide CreditRowOps; hide AddressOf; hide OutputEntry;
    PlainMore(db, w.batch, CreditRowOps(env, h, j, block.txs[j], i));
  }

  /** The coins of a transaction join the overlay. */
  method CreateEach(env: Env, db: Db, block: Block, h: u32, j: nat, w: Work, ghost run: Run, ghost rows: Store)
    returns (r: Result<Work>)
    requires j < |block.txs| && OutputsInRange(block.txs[j])
    ensures r.Ok? ==> r.value == w.(batch := r.value.batch, created := r.value.created, totals := r.value.totals)
    ensures r.Ok? && Plain(db, w.batch) ==> Plain(db, r.value.batch)
    ensures WorkLinked(env, db, block, w, run, j, 0, rows) && NoClash(db.ledger, block) && DistinctIds(block.txs) ==>
              OutputsAgree(env, db, block, rows, h, j, w, run, r)
  {
    hide WorkLinked; hide Commit; hide NoClash; hide DistinctIds; hide CreateWork; hide RunWithOutputs;
    hide OutputsInRange; hide Plain;
    ghost var linked := WorkLinked(env, db, block, w, run, j, 0, rows) && NoClash(db.ledger, block)
        && DistinctIds(block.txs);
    var tx := block.txs[j];
    RangeOutputs(tx);
    if linked { CreateStart(env, db, block, h, j, w, run, rows); }
    var w' := w;
    for i := 0 to |tx.vout|
      invariant w' == w.(batch := w'.batch, created := w'.created, totals := w'.totals)
      invariant Plain(db, w.batch) ==> Plain(db, w'.batch)
      invariant linked ==> w'.totals.valueCreated == run.totals.valueCreated + SumOut(tx.vout[..i])
      invariant linked ==>
                  WorkLinked(env, db, block, w', RunWithOutputs(env, h, j, tx, run, i, w'.totals.valueCreated), j, i,
                             rows)
      invariant linked ==> Commit(db, w'.batch).nulls == Commit(db, w.batch).nulls
    {
      var value := w'.totals.valueCreated + tx.vout[i].value;
      assert tx.vout[..i + 1][..i] == tx.vout[..i];
      if !InI64(value) {
        if linked { PrefixOverflows(tx, i + 1, run.totals.valueCreated); }
        return Err(ValueOutOfRange);
      }
      if linked { CreateLinked(env, db, block, h, j, i, w', run, rows, w'.totals.valueCreated, value); }
      if Plain(db, w'.batch) { CreatePlain(env, db, h, block, j, i, w', value); }
      w' := CreateWork(env, h, block, j, i, w', value);
    }
    assert tx.vout[..|tx.vout|] == tx.vout;
    return Ok(w');
  }

  lemma RangeOutputs(tx: Tx)
    requires OutputsInRange(tx)
    ensures AllOutputsLegal(tx.vout)
  {
  }

  lemma PrefixOverflows(tx: Tx, i: nat, start: i64)
    requires i <= |tx.vout| && AllOutputsLegal(tx.vout) && !InI64(start + SumOut(tx.vout[..i]))
    ensures !InI64(start + SumOut(tx.vout))
  {
    SumOutBounds(tx.vout, i);
  }

  lemma CreateStart(env: Env, db: Db, block: Block, h: u32, j: nat, w: Work, run: Run, rows: Store)
    requires j < |block.txs| && WorkLinked(env, db, block, w, run, j, 0, rows)
    ensures RunWithOutputs(env, h, j, block.txs[j], run, 0, run.totals.valueCreated) == run
    ensures w.totals == run.totals
  {
    hide LedgerLinked; hide Commit; hide ChecksLinked; hide Tree;
    NoOps(run.ledger);
  }

  // ---- one transaction ----

  /** Rows of the transaction index for the first `n` transactions. */
  function Rows(env: Env, block: Block, location: nat, n: nat): (rows: Store)
    requires n <= |block.txs|
  {
    if n == 0 || !env.options.indexTx then map[]
    else Rows(env, block, location, n - 1)[TxAt(block.txs[n - 1].id) := Location(location, n - 1)]
  }

  /** The state of the pass between two transactions. */
  ghost predicate Boundary(env: Env, db: Db, block: Block, location: nat, w: Work, run: Run, j: nat)
    requires j <= |block.txs|
  {
    && WorkLinked(env, db, block, w, run, j, 0, Rows(env, block, location, j))
    && Commit(db, w.batch).nulls == run.nulls
    && NodesLeft(run.nodes, db.nodes, block, j)
  }

  ghost predicate StepAgrees(env: Env, db: Db, block: Block, location: nat, j: nat, spec: Result<Run>, r: Result<Work>)
    requires j <= |block.txs|
  {
    if r.Err? then spec == Err(r.error) else spec.Ok? && Boundary(env, db, block, location, r.value, spec.value, j)
  }

  lemma IndexLinked(env: Env, db: Db, block: Block, h: u32, location: nat, j: nat, w: Work, run: Run, value: i64)
    requires j < |block.txs| && DistinctIds(block.txs)
    requires WorkLinked(env, db, block, w, RunWithOutputs(env, h, j, block.txs[j], run, |block.txs[j].vout|, value), j,
                        |block.txs[j].vout|, Rows(env, block, location, j))
    requires value == run.totals.valueCreated + SumOut(block.txs[j].vout)
    ensures CreateOutputs(env, h, j, block.txs[j], location, run).Ok?
    ensures WorkLinked(env, db, block, w, CreateOutputs(env, h, j, block.txs[j], location, run).value, j + 1, 0,
                       Rows(env, block, location, j + 1))
  {
    hide LedgerLinked; hide Commit; hide Apply; hide OutputsOps; hide TxRowOps; hide ChecksLinked; hide TreeOr;
    hide Tree; hide DistinctIds; hide SumOut;
    var tx := block.txs[j];
    var s := Apply(run.ledger, OutputsOps(env, h, j, tx, |tx.vout|));
    LinkIndex(env, block, db.ledger, Commit(db, w.batch).ledger, w.created, w.spentOut, s, j,
              Rows(env, block, location, j), location);
    ApplyConcat(run.ledger, OutputsOps(env, h, j, tx, |tx.vout|), TxRowOps(env, j, tx, location));
    NoRows(env, block, location, j);
  }

  lemma {:induction false} NoRows(env: Env, block: Block, location: nat, n: nat)
    requires n <= |block.txs|
    ensures !env.options.indexTx ==> Rows(env, block, location, n) == map[]
  {
  }

  /** The nullifier writes are the ones the check has already marked. */
  lemma NullsCaughtUp(env: Env, db: Db, block: Block, w: Work, batch: Batch, run: Run, j: nat, rows: Store,
                      added: set<(Pool, Hash)>)
    requires WorkLinked(env, db, block, w, run, j, 0, rows)
    requires Commit(db, batch) == WithNulls(Commit(db, w.batch), added)
             && Commit(db, w.batch).nulls + added == run.nulls
    ensures WorkLinked(env, db, block, w.(batch := batch), run, j, 0, rows)
    ensures Commit(db, batch).nulls == run.nulls
  {
    hide LedgerLinked; hide Commit; hide ChecksLinked; hide Tree; hide TreeOr;
  }

  lemma ViewParts(env: Env, db: Db)
    ensures ViewOf(env, db).ledger == db.ledger && ViewOf(env, db).nodes == db.nodes
  {
  }

  ghost predicate DebitsAgree(env: Env, db: Db, block: Block, rows: Store, j: nat, w: Work,
                              spec: Result<(Run, Option<StartMeta>)>, r: Result<(Work, Option<StartMeta>)>) {
    if r.Err? then spec == Err(r.error)
    else
      && spec.Ok? && r.value.1 == spec.value.1 && WorkLinked(env, db, block, r.value.0, spec.value.0, j, 0, rows)
      && Commit(db, r.value.0.batch).nulls == Commit(db, w.batch).nulls
  }

  /** The checks and the inputs of one transaction, in the order the pass makes them. */
  method StepDebits(env: Env, db: Db, block: Block, h: u32, j: nat, w: Work, ghost run: Run, ghost rows: Store)
    returns (r: Result<(Work, Option<StartMeta>)>)
    requires j < |block.txs| && db.nulls !! w.seen
    ensures r.Ok? ==> db.nulls !! r.value.0.seen && OutputsInRange(block.txs[j])
    ensures r.Ok? && Plain(db, w.batch) ==> Plain(db, r.value.0.batch)
    ensures r.Ok? && SpentOnce(block, w.spentOut, j, 0) ==> SpentOnce(block, r.value.0.spentOut, j + 1, 0)
    ensures WorkLinked(env, db, block, w, run, j, 0, rows) && NoClash(db.ledger, block) ==>
              DebitsAgree(env, db, block, rows, j, w, DebitTx(env, ViewOf(env, db), block, h, j, run), r)
  {
    hide WorkLinked; hide Commit; hide NoClash; hide ViewOf; hide OutputsInRange; hide ShieldedInRange;
    hide CheckShielded; hide SpendTx; hide ValueOut; hide ShieldedIn; hide Plain; hide SpentOnce;
    ghost var linked := WorkLinked(env, db, block, w, run, j, 0, rows) && NoClash(db.ledger, block);
    ViewParts(env, db);
    var tx := block.txs[j];
    var meta: Option<StartMeta> := None;
    if tx.node.Some? {
      var verdict := env.nodeCheck(db.ledger, db.nodes, block, h, j);
      if verdict.None? { return Err(NodeRejected); }
      meta := verdict.value;
    }
    var valueOut := TxValueOut(tx);
    if valueOut.Err? { return Err(valueOut.error); }
    var shieldedIn := TxShieldedIn(tx);
    if shieldedIn.Err? { return Err(shieldedIn.error); }
    var w1 := CheckTxShielded(env, db, block, j, w, run, rows);
    if w1.Err? { return Err(w1.error); }
    ghost var run1 := if linked then CheckShielded(env, ViewOf(env, db), tx, run).value else run;
    var w2 := SpendAll(env, db, block, h, j, w1.value, valueOut.value, shieldedIn.value, run1, rows);
    if w2.Err? { return Err(w2.error); }
    return Ok((w2.value, meta));
  }

  /** The first half of `StepTx`. */
  function DebitTx(env: Env, view: View, block: Block, h: u32, j: nat, run: Run): (r: Result<(Run, Option<StartMeta>)>)
    requires j < |block.txs|
  {
    var tx := block.txs[j];
    var meta :- CheckNode(env, view, block, h, j);
    if !OutputsInRange(tx) || !ShieldedInRange(tx) then Err(ValueOutOfRange)
    else
      var checked :- CheckShielded(env, view, tx, run);
      var paid :- SpendTx(env, h, j, tx, checked);
      Ok((paid, meta))
  }

  /** The second half of `StepTx`. */
  function CreditTx(env: Env, h: u32, location: nat, j: nat, tx: Tx, meta: Option<StartMeta>,
                    run: Run): (r: Result<Run>) {
    var noded :- ApplyNode(tx.node, h, meta, run);
    var grown :- GrowTrees(env, tx, noded);
    CreateOutputs(env, h, j, tx, location, grown)
  }

  lemma Halves(env: Env, view: View, block: Block, h: u32, location: nat, j: nat, run: Run)
    requires j < |block.txs|
    ensures StepTx(env, view, block, h, location, j, run) ==
              match DebitTx(env, view, block, h, j, run)
              case Err(e) => Err(e)
              case Ok(x) => CreditTx(env, h, location, j, block.txs[j], x.1, x.0)
  {
    hide CheckNode; hide OutputsInRange; hide ShieldedInRange; hide CheckShielded; hide SpendTx; hide ApplyNode;
    hide GrowTrees; hide CreateOutputs;
  }

  lemma DebitTxFrame(env: Env, view: View, block: Block, h: u32, j: nat, run: Run)
    requires j < |block.txs| && DebitTx(env, view, block, h, j, run).Ok?
    ensures var r := DebitTx(env, view, block, h, j, run).value.0;
            r.nodes == run.nodes && r.nulls == run.nulls + TxNulls(block.txs[j])
  {
    hide CheckNode; hide OutputsInRange; hide ShieldedInRange; hide CheckShielded; hide SpendTx; hide TxNulls;
    var tx := block.txs[j];
    ShieldedAdded(env, view, tx, run);
    ShieldedFrame(env, view, tx, run);
    SpendTxFrame(env, h, j, tx, CheckShielded(env, view, tx, run).value);
  }

  /** The writes one transaction adds: its node record, nullifiers, commitments and outputs. */
  method StepCredits(env: Env, db: Db, block: Block, h: u32, location: nat, j: nat, w: Work, meta: Option<StartMeta>,
                     ghost run: Run)
    returns (r: Result<Work>)
    requires j < |block.txs| && OutputsInRange(block.txs[j])
    ensures r.Ok? ==> r.value.seen == w.seen && r.value.spentOut == w.spentOut
    ensures r.Ok? && Plain(db, w.batch) ==> Plain(db, r.value.batch)
    ensures && WorkLinked(env, db, block, w, run, j, 0, Rows(env, block, location, j)) && Ready(db, block)
            && Commit(db, w.batch).nulls + TxNulls(block.txs[j]) == run.nulls
            && NodesLeft(run.nodes, db.nodes, block, j) ==>
              StepAgrees(env, db, block, location, j + 1, CreditTx(env, h, location, j, block.txs[j], meta, run), r)
  {
    hide WorkLinked; hide Commit; hide NoClash; hide DistinctIds; hide DistinctCollaterals; hide NodesLeft; hide Rows;
    hide OutputsInRange; hide ApplyNode; hide GrowTrees; hide CreateOutputs; hide TxNulls; hide WithNulls;
    hide RunWithOutputs; hide SumOut; hide Plain;
    ghost var linked := && WorkLinked(env, db, block, w, run, j, 0, Rows(env, block, location, j)) && Ready(db, block)
                        && Commit(db, w.batch).nulls + TxNulls(block.txs[j]) == run.nulls
                        && NodesLeft(run.nodes, db.nodes, block, j);
    ghost var rows := Rows(env, block, location, j);
    var tx := block.txs[j];
    var w3 := ApplyTxNode(env, db, block, h, j, w, meta, run, rows);
    if w3.Err? { return Err(w3.error); }
    ghost var run3 := if linked then ApplyNode(tx.node, h, meta, run).value else run;
    if linked { NodeFrame(tx.node, h, meta, run); }
    var batch := PutNullifiers(db, tx, w3.value.batch);
    if linked { NullsCaughtUp(env, db, block, w3.value, batch, run3, j, rows, TxNulls(tx)); }
    var w4 := GrowTxTrees(env, db, block, j, w3.value.(batch := batch), run3, rows);
    if w4.Err? { return Err(w4.error); }
    ghost var run4 := if linked then GrowTrees(env, tx, run3).value else run;
    if linked { TreesFrame(env, tx, run3); }
    r := CreateEach(env, db, block, h, j, w4.value, run4, rows);
    if linked {
      if r.Ok? {
        IndexLinked(env, db, block, h, location, j, r.value, run4, run4.totals.valueCreated + SumOut(tx.vout));
        CreateFrame(env, h, j, tx, location, run4);
      } else {
        CreateFails(env, h, j, tx, location, run4);
      }
    }
  }

  /** One transaction of the pass. It accepts, rejects and changes what sequential processing does. */
  method StepOne(env: Env, db: Db, block: Block, h: u32, location: nat, j: nat, w: Work, ghost run: Run)
    returns (r: Result<Work>)
    requires j < |block.txs| && db.nulls !! w.seen
    ensures r.Ok? ==> db.nulls !! r.value.seen
    ensures r.Ok? && Plain(db, w.batch) ==> Plain(db, r.value.batch)
    ensures r.Ok? && SpentOnce(block, w.spentOut, j, 0) ==> SpentOnce(block, r.value.spentOut, j + 1, 0)
    ensures Boundary(env, db, block, location, w, run, j) && Ready(db, block) ==>
              StepAgrees(env, db, block, location, j + 1, StepTx(env, ViewOf(env, db), block, h, location, j, run), r)
  {
    hide WorkLinked; hide Commit; hide NoClash; hide DistinctIds; hide DistinctCollaterals; hide NodesLeft; hide ViewOf;
    hide Rows; hide OutputsInRange; hide TxNulls; hide StepTx; hide DebitTx; hide CreditTx; hide Plain; hide SpentOnce;
    ghost var linked := Boundary(env, db, block, location, w, run, j) && Ready(db, block);
    Halves(env, ViewOf(env, db), block, h, location, j, run);
    var debit := StepDebits(env, db, block, h, j, w, run, Rows(env, block, location, j));
    if debit.Err? { return Err(debit.error); }
    ghost var run2 := if linked then DebitTx(env, ViewOf(env, db), block, h, j, run).value.0 else run;
    if linked { DebitTxFrame(env, ViewOf(env, db), block, h, j, run); }
    r := StepCredits(env, db, block, h, location, j, debit.value.0, debit.value.1, run2);
  }

  lemma SpendTxFrame(env: Env, h: nat, j: nat, tx: Tx, run: Run)
    requires SpendTx(env, h, j, tx, run).Ok?
    ensures SpendTx(env, h, j, tx, run).value.nodes == run.nodes && SpendTx(env, h, j, tx, run).value.nulls == run.nulls
  {
    hide SpendTx; hide SpendInputs; hide ValueOut; hide ShieldedIn;
    SpendTxParts(env, h, j, tx, run);
    if j != 0 { SpendInputsFrame(env, h, j, tx, |tx.vin|, run); }
  }

  lemma NodeFrame(t: Option<NodeTx>, h: u32, meta: Option<StartMeta>, run: Run)
    requires ApplyNode(t, h, meta, run).Ok?
    ensures ApplyNode(t, h, meta, run).value.nulls == run.nulls
  {
    hide NodeWrite;
  }

  lemma CreateFrame(env: Env, h: u32, j: nat, tx: Tx, location: nat, run: Run)
    requires CreateOutputs(env, h, j, tx, location, run).Ok?
    ensures var r := CreateOutputs(env, h, j, tx, location, run).value; r.nulls == run.nulls && r.nodes == run.nodes
  {
    hide Apply; hide OutputsOps; hide TxRowOps; hide SumOut;
  }

  lemma CreateFails(env: Env, h: u32, j: nat, tx: Tx, location: nat, run: Run)
    requires !InI64(run.totals.valueCreated + SumOut(tx.vout))
    ensures CreateOutputs(env, h, j, tx, location, run) == Err(ValueOutOfRange)
  {
    hide Apply; hide OutputsOps; hide TxRowOps; hide SumOut;
  }
}
