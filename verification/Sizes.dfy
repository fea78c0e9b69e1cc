/** Undo records of accepted blocks always fit the decoder: a block is at most `MAX_BLOCK_SIZE`
    bytes, so scripts, addresses and counts stay far below its limits. */
module Sizes {
  import opened Basics
  import opened Codec
  import opened Undo
  import opened Ledger
  import opened Chain
  import opened Sequential
  import opened Rewind
  import opened Validate

  /** Serialized commitment trees are short. */
  ghost predicate ShortTrees(env: Env) {
    && (forall p: Pool :: |env.emptyTree(p)| <= MAX_COMPACT_SIZE)
    && (forall p: Pool, t: Bytes, h: Hash :: env.append(p, t, h).Some? ==>
          |env.append(p, t, h).value| <= MAX_COMPACT_SIZE)
  }

  predicate SmallValue(v: Value) { v.Coin? ==> |v.entry.script| <= MAX_BLOCK_SIZE }

  ghost predicate SmallCoins(s: Store) { forall k :: k in s ==> SmallValue(s[k]) }

  predicate SmallOps(ops: seq<Op>) { forall i :: 0 <= i < |ops| && ops[i].Put? ==> SmallValue(ops[i].value) }

  predicate SmallNodes(nodes: map<OutPoint, NodeRecord>) { forall c :: c in nodes ==> |nodes[c].ip| <= MAX_BLOCK_SIZE }

  predicate SmallSpent(spent: seq<SpentOutput>) {
    forall i :: 0 <= i < |spent| ==> |spent[i].entry.script| <= MAX_BLOCK_SIZE
  }

  predicate SmallUndo(undo: seq<NodeUndo>) {
    forall i :: 0 <= i < |undo| && undo[i].prev.Some? ==> |undo[i].prev.value.ip| <= MAX_BLOCK_SIZE
  }

  predicate SmallTrees(sprout: Bytes, sapling: Bytes) { |sprout| <= MAX_COMPACT_SIZE && |sapling| <= MAX_COMPACT_SIZE }

  ghost predicate SmallView(view: View) {
    SmallCoins(view.ledger) && SmallNodes(view.nodes) && SmallTrees(view.sproutTree, view.saplingTree)
  }

  ghost predicate SmallRun(run: Run, bytes: int) {
    && SmallCoins(run.ledger) && SmallNodes(run.nodes) && SmallTrees(run.sproutTree, run.saplingTree)
    && SmallSpent(run.spent) && SmallUndo(run.nodeUndo) && |run.spent| + |run.nodeUndo| <= bytes
  }

  // ---- one transaction ----

  lemma {:induction false} ApplySmall(s: Store, ops: seq<Op>)
    requires SmallCoins(s) && SmallOps(ops)
    ensures SmallCoins(Apply(s, ops))
  {
    if ops != [] { ApplySmall(s, ops[..|ops| - 1]); }
  }

  lemma {:induction false} ScriptShort(outs: seq<TxOut>, i: nat)
    requires i < |outs|
    ensures |outs[i].script| <= ScriptBytes(outs)
  {
    if i < |outs| - 1 { ScriptShort(outs[..|outs| - 1], i); }
  }

  lemma {:induction false} OutputsSmall(env: Env, h: u32, j: nat, tx: Tx, n: nat)
    requires n <= |tx.vout| && ScriptBytes(tx.vout) <= MAX_BLOCK_SIZE
    ensures SmallOps(OutputsOps(env, h, j, tx, n))
  {
    hide AddressOf;
    if n > 0 {
      OutputsSmall(env, h, j, tx, n - 1);
      ScriptShort(tx.vout, n - 1);
    }
  }

  lemma InputSmall(env: Env, h: nat, j: nat, tx: Tx, i: nat, run: Run, paidIn: i64, bytes: int)
    requires i < |tx.vin| && SmallRun(run, bytes) && SpendInput(env, h, j, tx, i, run, paidIn).Ok?
    ensures SmallRun(SpendInput(env, h, j, tx, i, run, paidIn).value.0, bytes + 1)
  {
    hide AddressOf; hide SpentRow; hide Apply;
    var e := run.ledger[Utxo(tx.vin[i].prevout)].entry;
    ApplySmall(run.ledger, InputOps(env, h, j, tx, i, e)) by {
      InputOpsSmall(env, h, j, tx, i, e);
    }
    hide InputOps;
  }

  lemma InputOpsSmall(env: Env, h: nat, j: nat, tx: Tx, i: nat, e: UtxoEntry)
    requires i < |tx.vin|
    ensures SmallOps(InputOps(env, h, j, tx, i, e))
  {
    hide AddressOf;
  }

  lemma {:induction false} InputsSmall(env: Env, h: nat, j: nat, tx: Tx, n: nat, run: Run, bytes: int)
    requires n <= |tx.vin| && SmallRun(run, bytes) && SpendInputs(env, h, j, tx, n, run).Ok?
    ensures SmallRun(SpendInputs(env, h, j, tx, n, run).value.0, bytes + n)
  {
    hide SpendInput; hide SmallRun;
    if n > 0 {
      InputsSmall(env, h, j, tx, n - 1, run, bytes);
      var before := SpendInputs(env, h, j, tx, n - 1, run).value;
      InputSmall(env, h, j, tx, n - 1, before.0, before.1, bytes + n - 1);
    }
  }

  lemma SpendSmall(env: Env, h: nat, j: nat, tx: Tx, run: Run, bytes: int)
    requires SmallRun(run, bytes) && SpendTx(env, h, j, tx, run).Ok?
    ensures SmallRun(SpendTx(env, h, j, tx, run).value, bytes + |tx.vin|)
  {
    hide SpendInputs; hide ShieldedIn; hide ValueOut;
    if j != 0 { InputsSmall(env, h, j, tx, |tx.vin|, run, bytes); }
  }

  lemma NodeSmall(t: Option<NodeTx>, h: u32, meta: Option<StartMeta>, run: Run, bytes: int)
    requires SmallRun(run, bytes) && ApplyNode(t, h, meta, run).Ok?
    requires t.Some? && t.value.Confirm? ==> |t.value.ip| <= MAX_BLOCK_SIZE
    ensures SmallRun(ApplyNode(t, h, meta, run).value, bytes + 1)
  {
    hide SmallCoins; hide SmallSpent;
  }

  lemma {:induction false} AppendSmall(env: Env, pool: Pool, tree: Bytes, hs: seq<Hash>)
    requires ShortTrees(env) && |tree| <= MAX_COMPACT_SIZE && AppendAll(env, pool, tree, hs).Ok?
    ensures |AppendAll(env, pool, tree, hs).value| <= MAX_COMPACT_SIZE
    decreases |hs|
  {
    if hs != [] { AppendSmall(env, pool, env.append(pool, tree, hs[0]).value, hs[1..]); }
  }

  lemma GrowSmall(env: Env, tx: Tx, run: Run, bytes: int)
    requires ShortTrees(env) && SmallRun(run, bytes) && GrowTrees(env, tx, run).Ok?
    ensures SmallRun(GrowTrees(env, tx, run).value, bytes)
  {
    hide SmallCoins; hide SmallSpent; hide SmallNodes; hide SmallUndo; hide AppendAll; hide ShortTrees;
    AppendSmall(env, Sprout, run.sproutTree, Commitments(tx.joinSplits));
    AppendSmall(env, Sapling, run.saplingTree, tx.outputs);
  }

  lemma CreateSmall(env: Env, h: u32, j: nat, tx: Tx, location: nat, run: Run, bytes: int)
    requires SmallRun(run, bytes) && ScriptBytes(tx.vout) <= MAX_BLOCK_SIZE
             && CreateOutputs(env, h, j, tx, location, run).Ok?
    ensures SmallRun(CreateOutputs(env, h, j, tx, location, run).value, bytes)
  {
    hide SmallCoins; hide SmallSpent; hide SmallNodes; hide SmallUndo; hide Apply; hide OutputsOps;
    OutputsSmall(env, h, j, tx, |tx.vout|);
    ApplySmall(run.ledger, OutputsOps(env, h, j, tx, |tx.vout|) + TxRowOps(env, j, tx, location));
  }

  lemma TxSmall(env: Env, view: View, block: Block, h: u32, location: nat, j: nat, run: Run, bytes: int)
    requires j < |block.txs| && StepTx(env, view, block, h, location, j, run).Ok?
    requires ShortTrees(env) && SmallRun(run, bytes) && TxBytes(block.txs[j]) <= MAX_BLOCK_SIZE
    ensures SmallRun(StepTx(env, view, block, h, location, j, run).value, bytes + TxBytes(block.txs[j]))
  {
    hide SmallRun; hide CheckNode; hide OutputsInRange; hide ShieldedInRange; hide CheckShielded; hide SpendTx;
    hide ApplyNode; hide GrowTrees; hide CreateOutputs; hide ShortTrees;
    var tx := block.txs[j];
    var meta := CheckNode(env, view, block, h, j).value;
    var checked := CheckShielded(env, view, tx, run).value;
    CheckedSmall(env, view, tx, run, bytes);
    var paid := SpendTx(env, h, j, tx, checked).value;
    SpendSmall(env, h, j, tx, checked, bytes);
    var noded := ApplyNode(tx.node, h, meta, paid).value;
    NodeSmall(tx.node, h, meta, paid, bytes + |tx.vin|);
    var grown := GrowTrees(env, tx, noded).value;
    GrowSmall(env, tx, noded, bytes + |tx.vin| + 1);
    CreateSmall(env, h, j, tx, location, grown, bytes + |tx.vin| + 1);
    MoreBytes(StepTx(env, view, block, h, location, j, run).value, bytes + |tx.vin| + 1, bytes + TxBytes(tx));
  }

  lemma MoreBytes(run: Run, a: int, b: int)
    requires SmallRun(run, a) && a <= b
    ensures SmallRun(run, b)
  {
  }

  lemma CheckedSmall(env: Env, view: View, tx: Tx, run: Run, bytes: int)
    requires SmallRun(run, bytes) && CheckShielded(env, view, tx, run).Ok?
    ensures SmallRun(CheckShielded(env, view, tx, run).value, bytes)
  {
    hide JoinSplits; hide Spends;
  }

  // ---- a block ----

  lemma {:induction false} BytesGrow(txs: seq<Tx>, i: nat, n: nat)
    requires i < n <= |txs|
    ensures TxsBytes(txs, i) + TxBytes(txs[i]) <= TxsBytes(txs, n)
    decreases n
  {
    hide TxBytes;
    if i < n - 1 { BytesGrow(txs, i, n - 1); }
  }

  lemma {:induction false} TxsSmall(env: Env, view: View, block: Block, h: u32, location: nat, n: nat)
    requires n <= |block.txs| && StepTxs(env, view, block, h, location, n).Ok?
    requires ShortTrees(env) && SmallView(view) && BlockSize(block) <= MAX_BLOCK_SIZE
    ensures SmallRun(StepTxs(env, view, block, h, location, n).value, TxsBytes(block.txs, n))
  {
    hide StepTx; hide TxBytes; hide ShortTrees; hide SmallCoins; hide SmallNodes;
    if n > 0 {
      TxsSmall(env, view, block, h, location, n - 1);
      BytesGrow(block.txs, n - 1, |block.txs|);
      TxSmall(env, view, block, h, location, n - 1, StepTxs(env, view, block, h, location, n - 1).value,
              TxsBytes(block.txs, n - 1));
    }
  }

  lemma {:induction false} PaySmall(h: u32, paid: seq<OutPoint>, nodes: map<OutPoint, NodeRecord>, undo: seq<NodeUndo>)
    requires PayNodes(h, paid, nodes, undo).Ok? && SmallNodes(nodes) && SmallUndo(undo)
    ensures var r := PayNodes(h, paid, nodes, undo).value;
            SmallNodes(r.0) && SmallUndo(r.1) && |r.1| == |undo| + |paid|
    decreases |paid|
  {
    if paid != [] {
      var n := nodes[paid[0]];
      PaySmall(h, paid[1..], nodes[paid[0] := n.(lastPaidHeight := h)], undo + [NodeUndo(paid[0], Some(n))]);
    }
  }

  predicate SmallBlockUndo(u: BlockUndo) {
    && SmallTrees(u.sproutTree, u.saplingTree) && SmallSpent(u.spent) && SmallUndo(u.nodes) && SmallUndo(u.paid)
    && |u.spent| <= MAX_BLOCK_SIZE && |u.nodes| <= MAX_BLOCK_SIZE && |u.paid| <= MAX_BLOCK_SIZE
  }

  /** A block within the size limit keeps the state small and leaves a small undo record. */
  lemma BlockSmall(env: Env, view: View, block: Block, h: u32, location: nat, paid: seq<OutPoint>)
    requires block.txs != [] && ConnectView(env, view, block, h, location, paid).Ok?
    requires ShortTrees(env) && SmallView(view) && BlockSize(block) <= MAX_BLOCK_SIZE && |paid| <= MAX_BLOCK_SIZE
    ensures var c := ConnectView(env, view, block, h, location, paid).value;
            SmallView(c.view) && SmallBlockUndo(c.undo)
  {
    hide ConnectView; hide StepTxs; hide PayNodes; hide SmallCoins; hide SmallNodes; hide SmallUndo; hide SmallSpent;
    hide ShortTrees; hide NewAnchors; hide NewStats; hide NewPools; hide ValueOut;
    var run, nodes, t := ConnectedRun(env, view, block, h, location, paid);
    TxsSmall(env, view, block, h, location, |block.txs|);
    PaySmall(h, paid, run.nodes, []) by { assert SmallUndo([]) by { NoUndo(); } }
  }

  lemma NoUndo()
    ensures SmallUndo([])
  {
  }

  // ---- encoded lengths ----

  lemma EntryLength(e: UtxoEntry)
    ensures |EntryBytes(e)| <= |e.script| + 22
  {
  }

  lemma RecordLength(n: NodeRecord)
    ensures |RecordBytes(n)| <= |n.ip| + 250
  {
  }

  lemma {:induction false} ManyLength<T>(write: T -> Bytes, items: seq<T>, each: nat)
    requires forall i :: 0 <= i < |items| ==> |write(items[i])| <= each
    ensures |WriteMany(write, items)| <= |items| * each
  {
    if items != [] {
      ManyLength(write, items[1..], each);
      assert |items| * each == each + (|items| - 1) * each;
    }
  }

  lemma ListLengths(u: BlockUndo)
    requires SmallBlockUndo(u)
    ensures |WriteMany(SpentBytes, u.spent)| <= |u.spent| * 3_000_000
    ensures |WriteMany(NodeUndoBytes, u.nodes)| <= |u.nodes| * 3_000_000
    ensures |WriteMany(NodeUndoBytes, u.paid)| <= |u.paid| * 3_000_000
    ensures AllFit(SpentFits, u.spent) && AllFit(NodeUndoFits, u.nodes) && AllFit(NodeUndoFits, u.paid)
  {
    hide EntryBytes; hide RecordBytes; hide WriteMany;
    forall i | 0 <= i < |u.spent| ensures |SpentBytes(u.spent[i])| <= 3_000_000 && SpentFits(u.spent[i]) {
      EntryLength(u.spent[i].entry);
    }
    NodeLengths(u.nodes);
    NodeLengths(u.paid);
    ManyLength(SpentBytes, u.spent, 3_000_000);
    ManyLength(NodeUndoBytes, u.nodes, 3_000_000);
    ManyLength(NodeUndoBytes, u.paid, 3_000_000);
  }

  lemma NodeLengths(us: seq<NodeUndo>)
    requires SmallUndo(us)
    ensures forall i :: 0 <= i < |us| ==> |NodeUndoBytes(us[i])| <= 3_000_000 && NodeUndoFits(us[i])
  {
    hide RecordBytes;
    forall i | 0 <= i < |us| ensures |NodeUndoBytes(us[i])| <= 3_000_000 && NodeUndoFits(us[i]) {
      if us[i].prev.Some? { RecordLength(us[i].prev.value); }
    }
  }

  /** The undo record of an accepted block is read back as it was written. */
  lemma UndoReadBack(u: BlockUndo)
    requires SmallBlockUndo(u)
    ensures ReadUndo(UndoBytes(u)) == Got(u, [])
  {
    hide ReadUndo; hide WriteMany; hide AllFit; hide SpentBytes; hide NodeUndoBytes; hide ReadCounted;
    ListLengths(u);
    Undo.RoundTrip(u);
  }
}
