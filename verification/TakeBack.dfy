/** Exactly when a block can be taken back, for every choice of indexes. */
module TakeBack {
  import opened Basics
  import opened Undo
  import opened Ledger
  import opened Chain
  import opened Sequential
  import opened Reversal
  import opened Room
  import opened Rewind
  import opened ActiveChain
  import opened Overlay
  import opened Linked
  import Supply

  // ---- the condition ----

  /** No row that disconnecting the block deletes for good is there before it: no index row of its
      transactions, no spent row of its inputs, and no coin it makes again, unless one of its inputs
      spends that coin first. Rows of indexes that are switched off do not matter. */
  ghost predicate Reversible(env: Env, s: Store, block: Block) {
    && IndexRoom(env, s, block, 0)
    && (env.options.indexSpent ==> forall k, x, o :: SpendsAt(block, k, x, o) ==> Spent(o) !in s)
    && forall m, o :: MadeBy(block, m, o) && Utxo(o) in s ==> SpentFrom(block, 0, 0, m, o)
  }

  /** On a chain state, such a block has room. */
  lemma ReversibleIsRoomy(env: Env, s: Store, block: Block, h: nat)
    requires Coins(env, s) && AddressRows(env, s) && DeltasBelow(s, h)
    requires Reversible(env, s, block) && DistinctSpends(block)
    ensures Roomy(env, s, block, h, 0, 0)
  {
    hide AddressOf; hide MoneyRange; hide Coins; hide Held;
    CoinsHeld(env, s);
  }

  /** And none of the coins it makes again is spent afterwards. */
  lemma ReversibleHasNoClash(env: Env, s: Store, block: Block)
    requires AddressRows(env, s) && Reversible(env, s, block) && DistinctSpends(block)
    ensures NoClash(s, block)
  {
    hide AddressOf; hide IndexRoom;
    forall o, j, k, x | MadeBy(block, j, o) && SpendsAt(block, k, x, o) && j < k ensures Absent(s, o) {
      assert Utxo(o) in s ==> SpentFrom(block, 0, 0, j, o);
      forall y | y in s && (y.Utxo? || y.AddrOut?) ensures y.o != o {
        if y.Utxo? { assert Utxo(y.o) == y; } else { assert AddrOut(y.script, y.o) == y; }
      }
    }
  }

  // ---- what disconnecting deletes ----

  /** The undo of one of the inputs may write the row. */
  predicate Gives(tx: Tx, k: Key) {
    (k.Utxo? || k.AddrOut?) && exists x :: 0 <= x < |tx.vin| && tx.vin[x].prevout == k.o
  }

  /** The undo of one of the first `n` inputs deletes the row. */
  predicate Unspends(env: Env, tx: Tx, n: nat, k: Key)
    requires n <= |tx.vin|
  {
    env.options.indexSpent && k.Spent? && exists x :: 0 <= x < n && tx.vin[x].prevout == k.o
  }

  lemma {:induction false} NotPut(s: Store, ops: seq<Op>, k: Key)
    requires forall i :: 0 <= i < |ops| && ops[i].Put? ==> ops[i].key != k
    requires k !in s || exists i :: 0 <= i < |ops| && ops[i].key == k
    ensures k !in Apply(s, ops)
  {
    if ops != [] {
      var n := |ops| - 1;
      if k !in s || exists i :: 0 <= i < n && ops[..n][i].key == k { NotPut(s, ops[..n], k); }
    }
  }

  lemma UndoInputGone(env: Env, s: Store, h: nat, j: nat, tx: Tx, i: nat, e: UtxoEntry, k: Key)
    requires i < |tx.vin| && !Gives(tx, k)
    requires k !in s || (env.options.indexSpent && k == Spent(tx.vin[i].prevout))
    ensures k !in Apply(s, UndoInputOps(env, h, j, tx, i, e))
  {
    hide AddressOf; hide Apply;
    var ops := UndoInputOps(env, h, j, tx, i, e);
    if k in s { assert ops[0].key == k; }
    NotPut(s, ops, k);
  }

  lemma {:induction false} UndoInputsGone(env: Env, h: nat, j: nat, tx: Tx, n: nat, st: UndoState, k: Key)
    requires n <= |tx.vin| && UndoInputs(env, h, j, tx, n, st).Ok? && !Gives(tx, k)
    requires k !in st.ledger || Unspends(env, tx, n, k)
    ensures k !in UndoInputs(env, h, j, tx, n, st).value.ledger
    decreases n
  {
    hide Apply; hide UndoInputOps;
    if n > 0 {
      var next := UndoInput(env, h, j, tx, n - 1, st).value;
      if k !in st.ledger || (env.options.indexSpent && k == Spent(tx.vin[n - 1].prevout)) {
        UndoInputGone(env, st.ledger, h, j, tx, n - 1, st.spent[|st.spent| - 1].entry, k);
      }
      UndoInputsGone(env, h, j, tx, n - 1, next, k);
    }
  }

  /** Disconnecting the transaction deletes the row. */
  predicate Takes(env: Env, h: nat, j: nat, tx: Tx, k: Key) {
    k in Keys(UndoCreditOps(env, h, j, tx)) || (j != 0 && Unspends(env, tx, |tx.vin|, k))
  }

  lemma {:induction false} UndoOutputsDelete(env: Env, h: nat, j: nat, tx: Tx, n: nat)
    requires n <= |tx.vout|
    ensures DelsOnly(UndoOutputsOps(env, h, j, tx, n))
  {
    hide AddressOf;
    if n > 0 { UndoOutputsDelete(env, h, j, tx, n - 1); }
  }

  lemma UndoTxGone(env: Env, h: nat, j: nat, tx: Tx, st: UndoState, k: Key)
    requires UndoTx(env, h, j, tx, st).Ok? && (j == 0 || !Gives(tx, k)) && (k !in st.ledger || Takes(env, h, j, tx, k))
    ensures k !in UndoTx(env, h, j, tx, st).value.ledger
  {
    hide UndoInputs; hide RemoveValue; hide Apply; hide UndoOutputsOps; hide Keys; hide Unspends; hide Gives;
    var ops := UndoCreditOps(env, h, j, tx);
    UndoOutputsDelete(env, h, j, tx, |tx.vout|);
    ApplyDels(st.ledger, ops);
    var credited := st.(ledger := Apply(st.ledger, ops), removed := st.removed + |tx.vout|,
                        valueRemoved := RemoveValue(tx, |tx.vout|, st.valueRemoved).value);
    if j != 0 { UndoInputsGone(env, h, j, tx, |tx.vin|, credited, k); }
  }

  /** A row that transaction `m` deletes and no input up to it gives back is gone, whatever the state was. */
  lemma {:induction false} UndoTxsGone(env: Env, block: Block, h: nat, n: nat, st: UndoState, m: nat, k: Key)
    requires n <= |block.txs| && m < |block.txs| && UndoTxs(env, block, h, n, st).Ok?
    requires forall l :: 0 < l <= m ==> !Gives(block.txs[l], k)
    requires if m < n then Takes(env, h, m, block.txs[m], k) else k !in st.ledger
    ensures k !in UndoTxs(env, block, h, n, st).value.ledger
    decreases n
  {
    hide UndoTx; hide Takes; hide Gives;
    if n > 0 {
      if n - 1 <= m { UndoTxGone(env, h, n - 1, block.txs[n - 1], st, k); }
      UndoTxsGone(env, block, h, n - 1, UndoTx(env, h, n - 1, block.txs[n - 1], st).value, m, k);
    }
  }

  lemma {:induction false} CoinTaken(env: Env, h: nat, j: nat, tx: Tx, n: nat, i: nat)
    requires i < n <= |tx.vout|
    ensures Utxo(OutPoint(tx.id, i)) in Keys(UndoOutputsOps(env, h, j, tx, n))
  {
    hide AddressOf;
    KeysConcat(UndoOutputsOps(env, h, j, tx, n - 1), UndoOutputOps(env, h, j, tx, n - 1));
    if i < n - 1 {
      CoinTaken(env, h, j, tx, n - 1, i);
    } else {
      assert UndoOutputOps(env, h, j, tx, i)[0].key == Utxo(OutPoint(tx.id, i));
    }
  }

  /** A block that is not reversible takes some row with it for good. */
  lemma LostRow(env: Env, s: Store, block: Block, h: nat) returns (k: Key, m: nat)
    requires !Reversible(env, s, block)
    ensures k in s && m < |block.txs| && Takes(env, h, m, block.txs[m], k)
    ensures forall l :: 0 < l <= m ==> !Gives(block.txs[l], k)
  {
    hide UndoOutputsOps; hide Keys;
    if !IndexRoom(env, s, block, 0) {
      m :| 0 <= m < |block.txs| && TxAt(block.txs[m].id) in s;
      k := TxAt(block.txs[m].id);
      KeysConcat(UndoOutputsOps(env, h, m, block.txs[m], |block.txs[m].vout|), UndoTxRowOps(env, block.txs[m]));
      RowKey(env, block.txs[m]);
    } else if env.options.indexSpent && exists l, x, o :: SpendsAt(block, l, x, o) && Spent(o) in s {
      var l, x, o :| SpendsAt(block, l, x, o) && Spent(o) in s;
      m, k := l, Spent(o);
    } else {
      var l, o :| MadeBy(block, l, o) && Utxo(o) in s && !SpentFrom(block, 0, 0, l, o);
      m, k := l, Utxo(o);
      KeysConcat(UndoOutputsOps(env, h, m, block.txs[m], |block.txs[m].vout|), UndoTxRowOps(env, block.txs[m]));
      CoinTaken(env, h, m, block.txs[m], |block.txs[m].vout|, o.index);
      forall i | 0 < i <= m ensures !Gives(block.txs[i], k) {
        forall x | 0 <= x < |block.txs[i].vin| ensures block.txs[i].vin[x].prevout != o {
          assert block.txs[i].vin[x].prevout == o ==> SpendsAt(block, i, x, o) && NotBefore(0, 0, i, x);
        }
      }
    }
  }

  lemma RowKey(env: Env, tx: Tx)
    requires env.options.indexTx
    ensures TxAt(tx.id) in Keys(UndoTxRowOps(env, tx))
  {
    assert UndoTxRowOps(env, tx)[0].key == TxAt(tx.id);
  }

  /** Whatever the state it is disconnected from, such a block does not leave the ledger before it. */
  lemma NotRestored(env: Env, s: Store, view: View, block: Block, h: nat, undo: BlockUndo, tip: Option<Hash>)
    requires !Reversible(env, s, block) && DisconnectView(env, view, block, h, undo, tip).Ok?
    ensures DisconnectView(env, view, block, h, undo, tip).value.ledger != s
  {
    hide UndoTxs; hide PoolDeltas; hide OldStats; hide OldPools; hide OldAnchors; hide StartUndo; hide BlockNulls;
    hide Reversible; hide Takes; hide Gives;
    var k, m := LostRow(env, s, block, h);
    UndoTxsGone(env, block, h, |block.txs|, StartUndo(view, undo), m, k);
  }

  // ---- along a chain ----

  /** In every chain state address rows belong to unspent coins and address changes are dated on the chain. */
  lemma {:induction false} ReplayRows(env: Env, links: Links)
    requires DistinctChain(links) && Replay(env, links).Ok?
    ensures var s := Replay(env, links).value.ledger; AddressRows(env, s) && DeltasBelow(s, |links|)
    decreases |links|
  {
    hide ConnectView; hide Reached; hide AddressRows; hide DeltasBelow; hide DistinctIds; hide Hashes; hide Ids;
    hide BlockIds;
    if links == [] {
      NoRows(env);
    } else {
      ReplayRows(env, links[..|links| - 1]);
      RowsNext(env, links, Replay(env, links[..|links| - 1]).value);
    }
  }

  lemma NoRows(env: Env)
    ensures AddressRows(env, map[]) && DeltasBelow(map[], 0)
  {
  }

  lemma RowsNext(env: Env, links: Links, before: View)
    requires links != [] && DistinctChain(links) && Replay(env, links).Ok?
    requires Replay(env, links[..|links| - 1]) == Ok(before)
    requires AddressRows(env, before.ledger) && DeltasBelow(before.ledger, |links| - 1)
    ensures var s := Replay(env, links).value.ledger; AddressRows(env, s) && DeltasBelow(s, |links|)
  {
    hide ConnectView; hide Reached; hide AddressRows; hide DeltasBelow; hide DistinctIds; hide Hashes; hide Ids;
    hide BlockIds; hide DistinctChain; hide Fresh; hide Coins; hide NewIds; hide Supply.Counted; hide StepTxs;
    hide Roomy; hide Held; hide PayNodes; hide NewAnchors; hide NewTree; hide ValueOut; hide NewStats; hide NewPools;
    var n := |links| - 1;
    var block, location := links[n].block, links[n].location;
    LastIsNew(links);
    ReplayReached(env, links[..n]);
    NewBlockIsFresh(env, links[..n], before, block);
    ReachedParts(env, links[..n], before, block);
    NewIsRoomy(env, before.ledger, block, n);
    CoinsHeld(env, before.ledger);
    var run, nodes, t := ConnectedRun(env, before, block, n, location, links[n].paid);
    TxsAddresses(env, before, block, n, location, |block.txs|);
    DeltasMore(before.ledger, n);
    TxsDated(env, before, block, n, location, |block.txs|);
  }

  lemma DeltasMore(s: Store, n: nat)
    requires DeltasBelow(s, n)
    ensures DeltasBelow(s, n + 1)
  {
  }

  /** On any chain, an accepted block that spends nothing twice is taken back if and only if it is
      reversible. The code checks neither ids nor rows for this. */
  lemma TakenBackExactly(env: Env, links: Links, view: View, next: Link)
    requires |links| < I32_MAX && next.block.txs != [] && DistinctChain(links) && Replay(env, links) == Ok(view)
    requires ConnectView(env, view, next.block, |links|, next.location, next.paid).Ok?
    requires DistinctIds(next.block.txs) && DistinctSpends(next.block) && next.block.hash !in Hashes(links)
    requires FreshRoots(env, view, next.block, |links|, next.location)
    ensures var c := ConnectView(env, view, next.block, |links|, next.location, next.paid).value;
            DisconnectView(env, c.view, next.block, |links|, c.undo, view.tip) == Ok(view)
            <==> Reversible(env, view.ledger, next.block)
  {
    hide ConnectView; hide DisconnectView; hide FreshRoots; hide Replay; hide Reversible; hide DistinctSpends;
    hide Roomy; hide AddressRows; hide DeltasBelow; hide DistinctIds; hide Hashes; hide DistinctChain; hide Reached;
    hide Coins; hide NewBlock;
    var block, h := next.block, |links|;
    var c := ConnectView(env, view, block, h, next.location, next.paid).value;
    ReplayReached(env, links);
    ReplayRows(env, links);
    ReachedPlace(env, links, view, block);
    if Reversible(env, view.ledger, block) {
      ReversibleIsRoomy(env, view.ledger, block, h);
      RoundTripInRoom(env, view, block, h, next.location, next.paid);
    } else if DisconnectView(env, c.view, block, h, c.undo, view.tip).Ok? {
      NotRestored(env, view.ledger, c.view, block, h, c.undo, view.tip);
    }
  }

  lemma ReachedPlace(env: Env, links: seq<Link>, view: View, block: Block)
    requires Reached(env, links, view) && block.hash !in Hashes(links)
    ensures Sound(env, view) && Coins(env, view.ledger) && NewBlock(view, block, |links|)
  {
    hide Coins; hide Supply.Counted; hide KnowsIds; hide RootKnown;
  }
}
