/** The parts of block validation that connecting a block relies on. */
module Validate {
  import opened Basics
  import opened Chain
  import opened Reversal
  import Merkle

  function ScriptBytes(outs: seq<TxOut>): (n: nat) {
    if outs == [] then 0 else ScriptBytes(outs[..|outs| - 1]) + |outs[|outs| - 1].script|
  }

  /** A lower bound on the encoded size of a transaction: an input takes at least 41 bytes. */
  function TxBytes(tx: Tx): (n: nat) {
    1 + 41 * |tx.vin| + ScriptBytes(tx.vout) + (if tx.node.Some? && tx.node.value.Confirm? then |tx.node.value.ip|
                                                else 0)
  }

  function TxsBytes(txs: seq<Tx>, n: nat): (t: nat)
    requires n <= |txs|
  {
    if n == 0 then 0 else TxsBytes(txs, n - 1) + TxBytes(txs[n - 1])
  }

  function BlockSize(block: Block): (n: nat) { block.otherBytes + TxsBytes(block.txs, |block.txs|) }

  /** A node transaction carries nothing else. */
  predicate NodeOnly(tx: Tx) {
    tx.node.Some? ==> tx.vin == [] && tx.vout == [] && tx.joinSplits == [] && tx.spends == [] && tx.outputs == []
  }

  /** No two transactions of the block write the record of the same node. */
  predicate DistinctCollaterals(txs: seq<Tx>) {
    forall i, k :: 0 <= i < k < |txs| && txs[i].node.Some? && txs[k].node.Some? ==>
      txs[i].node.value.collateral != txs[k].node.value.collateral
  }

  const NULL_OUTPOINT: OutPoint := OutPoint(ZERO_HASH, 0xffff_ffff)

  predicate IsCoinbase(tx: Tx) { |tx.vin| == 1 && tx.vin[0].prevout == NULL_OUTPOINT }

  function TxIds(txs: seq<Tx>): (ids: seq<Hash>)
    ensures |ids| == |txs| && forall j :: 0 <= j < |txs| ==> ids[j] == txs[j].id
  {
    seq<Hash>(|txs|, j requires 0 <= j < |txs| => txs[j].id)
  }

  /** The header commits to the transactions, by a list no other list could be mistaken for. */
  predicate MerkleRight(env: Env, block: Block) {
    Merkle.Root(env.pairHash, TxIds(block.txs)) == block.merkleRoot && !Merkle.Mutated(env.pairHash, TxIds(block.txs))
  }

  predicate ValidBlock(env: Env, block: Block, h: nat) {
    && block.txs != [] && BlockSize(block) <= MAX_BLOCK_SIZE && env.blockOk(block, h) && MerkleRight(env, block)
    && IsCoinbase(block.txs[0])
    && (forall i :: 0 <= i < |block.txs| ==> NodeOnly(block.txs[i]))
    && DistinctIds(block.txs) && DistinctCollaterals(block.txs)
  }

  method MeasureBlock(block: Block) returns (n: nat)
    ensures n == BlockSize(block)
  {
    n := block.otherBytes;
    for j := 0 to |block.txs|
      invariant n == block.otherBytes + TxsBytes(block.txs, j)
    {
      n := n + TxBytes(block.txs[j]);
    }
  }

  /** Collects the ids seen so far in a set. */
  method CheckIds(txs: seq<Tx>) returns (ok: bool)
    ensures ok == DistinctIds(txs)
  {
    var ids: set<Hash> := {};
    for j := 0 to |txs|
      invariant forall i :: 0 <= i < j ==> txs[i].id in ids
      invariant forall id :: id in ids ==> exists i :: 0 <= i < j && txs[i].id == id
      invariant forall i, k :: 0 <= i < k < j ==> txs[i].id != txs[k].id
    {
      if txs[j].id in ids { return false; }
      ids := ids + {txs[j].id};
    }
    return true;
  }

  predicate Writes(tx: Tx, c: OutPoint) { tx.node.Some? && tx.node.value.collateral == c }

  /** Collects the collaterals of node transactions after the first in a set. */
  method CheckCollaterals(txs: seq<Tx>) returns (ok: bool)
    requires txs != [] && txs[0].node.None?
    ensures ok == DistinctCollaterals(txs)
  {
    var seen: set<OutPoint> := {};
    for j := 0 to |txs|
      invariant forall i :: 0 <= i < j && txs[i].node.Some? ==> txs[i].node.value.collateral in seen
      invariant forall c :: c in seen ==> exists i :: 0 <= i < j && Writes(txs[i], c)
      invariant forall i, k :: 0 <= i < k < j && txs[i].node.Some? && txs[k].node.Some? ==>
                  txs[i].node.value.collateral != txs[k].node.value.collateral
    {
      if j > 0 && txs[j].node.Some? {
        var c := txs[j].node.value.collateral;
        if c in seen { return false; }
        seen := seen + {c};
      }
    }
    return true;
  }

  method CheckBlock(env: Env, block: Block, h: nat) returns (ok: bool)
    ensures ok == ValidBlock(env, block, h)
  {
    hide DistinctIds; hide DistinctCollaterals; hide BlockSize;
    var txs := block.txs;
    if txs == [] { return false; }
    var size := MeasureBlock(block);
    if size > MAX_BLOCK_SIZE || !env.blockOk(block, h) { return false; }
    if |txs[0].vin| != 1 || txs[0].vin[0].prevout.hash != ZERO_HASH || txs[0].vin[0].prevout.index != 0xffff_ffff {
      return false;
    }
    var root, mutated := Merkle.RootWithFlag(env.pairHash, TxIds(txs));
    if mutated || root != block.merkleRoot { return false; }
    for j := 0 to |txs|
      invariant forall i :: 0 <= i < j ==> NodeOnly(txs[i])
    {
      if txs[j].node.Some? {
        if txs[j].vin != [] || txs[j].vout != [] { return false; }
        if txs[j].joinSplits != [] || txs[j].spends != [] || txs[j].outputs != [] { return false; }
      }
    }
    assert NodeOnly(txs[0]);
    var distinct := CheckIds(txs);
    if !distinct { return false; }
    ok := CheckCollaterals(txs);
  }
}
