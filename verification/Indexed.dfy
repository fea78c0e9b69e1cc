/** Every index row of every transaction on a chain is what the transaction says, in every state. */
module Indexed {
  import opened Basics
  import opened Undo
  import opened Ledger
  import opened Chain
  import opened Sequential
  import opened Reversal
  import opened Room
  import opened Rewind
  import opened Overlay
  import opened ActiveChain
  import Linked
  import Supply

  // ---- what the rows of one transaction say ----

  /** The spent row and the address debit of an input, whose coin was `e`. */
  predicate InputRight(env: Env, s: Store, h: nat, j: nat, tx: Tx, i: nat, e: UtxoEntry)
    requires i < |tx.vin|
  {
    var o := tx.vin[i].prevout;
    var a := AddressOf(env, e.script);
    var (kind, hash) := AddressInfo(e.script);
    && o.hash != tx.id && Utxo(o) !in s && MoneyRange(e.value)
    && At(s, Spent(o)) == Some(SpentBy(tx.id, i, h, e.value, kind, hash))
    && (a.Some? ==> At(s, Delta(a.value, h, j, tx.id, i, true)) == Some(Amount(0 - e.value)))
  }

  ghost predicate InputFound(env: Env, s: Store, h: nat, j: nat, tx: Tx, i: nat)
    requires i < |tx.vin|
  {
    exists e :: InputRight(env, s, h, j, tx, i, e)
  }

  /** The coin of an output, while it lasts, and its address credit. */
  predicate OutputRight(env: Env, s: Store, h: u32, j: nat, tx: Tx, i: nat)
    requires i < |tx.vout|
  {
    var o := OutPoint(tx.id, i);
    var a := AddressOf(env, tx.vout[i].script);
    && (Utxo(o) in s ==> s[Utxo(o)] == Coin(UtxoEntry(tx.vout[i].value, tx.vout[i].script, h, j == 0)))
    && (a.Some? ==> At(s, Delta(a.value, h, j, tx.id, i, false)) == Some(Amount(tx.vout[i].value)))
  }

  ghost predicate TxRight(env: Env, s: Store, h: u32, j: nat, tx: Tx, location: nat) {
    && At(s, TxAt(tx.id)) == Some(Location(location, j))
    && (j > 0 ==> forall i :: 0 <= i < |tx.vin| ==> InputFound(env, s, h, j, tx, i))
    && (forall i :: 0 <= i < |tx.vout| ==> OutputRight(env, s, h, j, tx, i))
  }

  // ---- what a transaction leaves alone ----

  /** Transaction `id` adds its own rows, deletes coins it spends, and writes spent rows only for those. */
  ghost predicate Kept(s: Store, t: Store, id: Hash) {
    && (forall k: Key :: (k.TxAt? || k.Delta?) && !Mentions(k, id) ==> At(t, k) == At(s, k))
    && (forall o: OutPoint :: o.hash != id && Utxo(o) !in s ==> At(t, Spent(o)) == At(s, Spent(o)))
    && (forall o: OutPoint :: o.hash != id && Utxo(o) in t ==> Utxo(o) in s && t[Utxo(o)] == s[Utxo(o)])
  }

  lemma KeptThrough(s: Store, t: Store, u: Store, id: Hash)
    requires Kept(s, t, id) && Kept(t, u, id)
    ensures Kept(s, u, id)
  {
    forall k: Key | (k.TxAt? || k.Delta?) && !Mentions(k, id) ensures At(u, k) == At(s, k) {
      assert At(t, k) == At(s, k) && At(u, k) == At(t, k);
    }
    forall o: OutPoint | o.hash != id && Utxo(o) !in s ensures At(u, Spent(o)) == At(s, Spent(o)) {
      assert Utxo(o) !in t;
      assert At(t, Spent(o)) == At(s, Spent(o)) && At(u, Spent(o)) == At(t, Spent(o));
    }
  }

  /** Rows of earlier transactions stay right. */
  lemma RightKept(env: Env, s: Store, t: Store, id: Hash, h: u32, j: nat, tx: Tx, location: nat)
    requires TxRight(env, s, h, j, tx, location) && Kept(s, t, id) && Unknown(s, id)
    ensures TxRight(env, t, h, j, tx, location)
  {
    hide AddressOf; hide AddressInfo; hide MoneyRange; hide OutputEntry;
    assert tx.id != id by { assert TxAt(tx.id) in s; assert !Mentions(TxAt(tx.id), id); }
    assert At(t, TxAt(tx.id)) == At(s, TxAt(tx.id));
    if j > 0 {
      forall i | 0 <= i < |tx.vin| ensures InputFound(env, t, h, j, tx, i) {
        assert InputFound(env, s, h, j, tx, i);
        InputRightKept(env, s, t, id, h, j, tx, i);
      }
    }
    forall i | 0 <= i < |tx.vout| ensures OutputRight(env, t, h, j, tx, i) {
      assert OutputRight(env, s, h, j, tx, i);
      var a := AddressOf(env, tx.vout[i].script);
      if a.Some? {
        assert At(t, Delta(a.value, h, j, tx.id, i, false)) == At(s, Delta(a.value, h, j, tx.id, i, false));
      }
    }
  }

  lemma InputRightKept(env: Env, s: Store, t: Store, id: Hash, h: u32, j: nat, tx: Tx, i: nat)
    requires i < |tx.vin| && InputFound(env, s, h, j, tx, i) && Kept(s, t, id) && Unknown(s, id) && tx.id != id
    ensures InputFound(env, t, h, j, tx, i)
  {
    hide AddressOf; hide AddressInfo; hide MoneyRange;
    var e :| InputRight(env, s, h, j, tx, i, e);
    var o := tx.vin[i].prevout;
    var a := AddressOf(env, e.script);
    assert o.hash != id by { assert Spent(o) in s; assert !Mentions(Spent(o), id); }
    assert At(t, Spent(o)) == At(s, Spent(o));
    if a.Some? { assert At(t, Delta(a.value, h, j, tx.id, i, true)) == At(s, Delta(a.value, h, j, tx.id, i, true)); }
    assert InputRight(env, t, h, j, tx, i, e);
  }

  // ---- inputs ----

  lemma InputStep(env: Env, s: Store, h: nat, j: nat, tx: Tx, i: nat)
    requires i < |tx.vin| && Utxo(tx.vin[i].prevout) in s && Coins(env, s) && AddressRows(env, s)
             && OnlyDebits(s, tx.id, i)
    requires env.options.indexSpent
    ensures var e := s[Utxo(tx.vin[i].prevout)].entry;
            var t := Apply(s, InputOps(env, h, j, tx, i, e));
            Kept(s, t, tx.id) && AddressRows(env, t) && InputRight(env, t, h, j, tx, i, e)
  {
    hide AddressOf; hide AddressInfo; hide MoneyRange; hide Apply; hide InputOps; hide AddressRows;
    var o := tx.vin[i].prevout;
    assert CoinRow(env, s, o);
    var e := s[Utxo(o)].entry;
    InputApplied(env, s, h, j, tx, i, e);
    InputAddresses(env, s, h, j, tx, i, e);
    assert o.hash != tx.id by { assert Mentions(Utxo(o), o.hash); }
  }

  /** The inputs before stay right. */
  lemma EarlierInput(env: Env, s: Store, h: nat, j: nat, tx: Tx, i: nat, n: nat, e: UtxoEntry, f: UtxoEntry)
    requires i < n < |tx.vin| && InputRight(env, s, h, j, tx, i, e) && Utxo(tx.vin[n].prevout) in s
    ensures InputRight(env, Apply(s, InputOps(env, h, j, tx, n, f)), h, j, tx, i, e)
  {
    hide AddressOf; hide AddressInfo; hide MoneyRange; hide Apply; hide InputOps;
    InputApplied(env, s, h, j, tx, n, f);
  }

  lemma {:induction false} InputsStep(env: Env, h: nat, j: nat, tx: Tx, n: nat, run: Run)
    requires n <= |tx.vin| && SpendInputs(env, h, j, tx, n, run).Ok? && env.options.indexSpent
    requires Coins(env, run.ledger) && AddressRows(env, run.ledger) && OnlyDebits(run.ledger, tx.id, 0)
    ensures var t := SpendInputs(env, h, j, tx, n, run).value.0.ledger;
            && Kept(run.ledger, t, tx.id) && AddressRows(env, t)
            && forall i :: 0 <= i < n ==> InputFound(env, t, h, j, tx, i)
  {
    hide SpendInput; hide InputOps; hide Apply; hide AddressRows; hide Kept; hide Coins; hide InputRight;
    hide OnlyDebits;
    KeptSame(run.ledger, tx.id);
    if n > 0 {
      InputsStep(env, h, j, tx, n - 1, run);
      InputsKeep(env, h, j, tx, n - 1, run);
      var before := SpendInputs(env, h, j, tx, n - 1, run).value;
      var s := before.0.ledger;
      SpendInputEffect(env, h, j, tx, n - 1, before.0, before.1);
      InputStep(env, s, h, j, tx, n - 1);
      var f := s[Utxo(tx.vin[n - 1].prevout)].entry;
      var t := Apply(s, InputOps(env, h, j, tx, n - 1, f));
      KeptThrough(run.ledger, s, t, tx.id);
      forall i | 0 <= i < n ensures InputFound(env, t, h, j, tx, i) {
        if i < n - 1 {
          assert InputFound(env, s, h, j, tx, i);
          var e :| InputRight(env, s, h, j, tx, i, e);
          EarlierInput(env, s, h, j, tx, i, n - 1, e, f);
        }
      }
    }
  }

  lemma KeptSame(s: Store, id: Hash)
    ensures Kept(s, s, id)
  {
  }

  // ---- outputs ----

  lemma NoOutputYet(s: Store, id: Hash, i: nat)
    requires OwnRows(s, id, i) && i < U32_LIMIT
    ensures Utxo(OutPoint(id, i)) !in s
  {
    assert Mentions(Utxo(OutPoint(id, i)), id);
  }

  lemma OutputStep(env: Env, s: Store, h: u32, j: nat, tx: Tx, i: nat)
    requires i < |tx.vout| && AddressRows(env, s) && OwnRows(s, tx.id, i)
    ensures var t := Apply(s, OutputOps(env, h, j, tx, i));
            Kept(s, t, tx.id) && AddressRows(env, t) && OutputRight(env, t, h, j, tx, i)
  {
    hide AddressOf; hide Apply; hide OutputOps; hide AddressRows; hide OwnRows;
    OutputApplied(env, s, h, j, tx, i);
    NoOutputYet(s, tx.id, i);
    OutputAddresses(env, s, h, j, tx, i);
  }

  /** Inputs and earlier outputs stay right when an output is added. */
  lemma EarlierRows(env: Env, s: Store, h: u32, j: nat, tx: Tx, n: nat)
    requires n < |tx.vout|
    ensures var t := Apply(s, OutputOps(env, h, j, tx, n));
            && (forall i :: 0 <= i < |tx.vin| && InputFound(env, s, h, j, tx, i) ==> InputFound(env, t, h, j, tx, i))
            && (forall i :: 0 <= i < n && OutputRight(env, s, h, j, tx, i) ==> OutputRight(env, t, h, j, tx, i))
  {
    hide AddressOf; hide Apply; hide OutputOps; hide AddressInfo; hide MoneyRange;
    OutputApplied(env, s, h, j, tx, n);
    var t := Apply(s, OutputOps(env, h, j, tx, n));
    forall i | 0 <= i < |tx.vin| && InputFound(env, s, h, j, tx, i) ensures InputFound(env, t, h, j, tx, i) {
      var e :| InputRight(env, s, h, j, tx, i, e);
      assert InputRight(env, t, h, j, tx, i, e);
    }
  }

  lemma {:induction false} OutputsStep(env: Env, s: Store, h: u32, j: nat, tx: Tx, n: nat)
    requires n <= |tx.vout| && (forall i :: 0 <= i < |tx.vout| ==> MoneyRange(tx.vout[i].value))
    requires Coins(env, s) && AddressRows(env, s) && OwnRows(s, tx.id, 0)
    ensures var t := Apply(s, OutputsOps(env, h, j, tx, n));
            && Kept(s, t, tx.id) && AddressRows(env, t)
            && (forall i :: 0 <= i < |tx.vin| && InputFound(env, s, h, j, tx, i) ==> InputFound(env, t, h, j, tx, i))
            && (forall i :: 0 <= i < n ==> OutputRight(env, t, h, j, tx, i))
  {
    hide OutputOps; hide Apply; hide AddressRows; hide Kept; hide Coins; hide OutputRight; hide InputFound;
    hide OwnRows; hide MoneyRange;
    KeptSame(s, tx.id);
    Linked.NoOps(s);
    if n > 0 {
      OutputsStep(env, s, h, j, tx, n - 1);
      OutputsKeep(env, s, h, j, tx, n - 1);
      var front := Apply(s, OutputsOps(env, h, j, tx, n - 1));
      ApplyConcat(s, OutputsOps(env, h, j, tx, n - 1), OutputOps(env, h, j, tx, n - 1));
      OutputStep(env, front, h, j, tx, n - 1);
      EarlierRows(env, front, h, j, tx, n - 1);
      KeptThrough(s, front, Apply(front, OutputOps(env, h, j, tx, n - 1)), tx.id);
    }
  }

  lemma RowStep(env: Env, s: Store, h: u32, j: nat, tx: Tx, location: nat)
    requires AddressRows(env, s)
    ensures var t := s[TxAt(tx.id) := Location(location, j)];
            && Kept(s, t, tx.id) && AddressRows(env, t)
            && (forall i :: 0 <= i < |tx.vin| && InputFound(env, s, h, j, tx, i) ==> InputFound(env, t, h, j, tx, i))
            && (forall i :: 0 <= i < |tx.vout| && OutputRight(env, s, h, j, tx, i) ==> OutputRight(env, t, h, j, tx, i))
  {
    hide AddressOf; hide AddressInfo; hide MoneyRange;
    var t := s[TxAt(tx.id) := Location(location, j)];
    forall a, o | AddrOut(a, o) in t ensures Utxo(o) in t && t[Utxo(o)].Coin?
        && AddressOf(env, t[Utxo(o)].entry.script) == Some(a) {
      assert AddrOut(a, o) in s;
    }
    forall i | 0 <= i < |tx.vin| && InputFound(env, s, h, j, tx, i) ensures InputFound(env, t, h, j, tx, i) {
      var e :| InputRight(env, s, h, j, tx, i, e);
      assert InputRight(env, t, h, j, tx, i, e);
    }
  }

  // ---- one transaction, one block, one chain ----

  predicate AllIndexes(env: Env) { env.options.indexTx && env.options.indexSpent && env.options.indexAddress }

  lemma TxStep(env: Env, view: View, block: Block, h: u32, location: nat, j: nat, run: Run, g: Stages, after: Run)
    requires j < |block.txs| && IsStages(env, view, block, h, location, j, run, after, g) && AllIndexes(env)
    requires Coins(env, run.ledger) && AddressRows(env, run.ledger) && Unknown(run.ledger, block.txs[j].id)
    ensures Kept(run.ledger, after.ledger, block.txs[j].id) && AddressRows(env, after.ledger)
    ensures TxRight(env, after.ledger, h, j, block.txs[j], location)
  {
    hide IsStages; hide Coins; hide Apply; hide OwnRows; hide OnlyDebits; hide SpendTx; hide MoneyRange; hide Unknown;
    hide Kept; hide AddressRows; hide InputFound; hide OutputRight; hide OutputsOps; hide SpendInputs;
    var tx := block.txs[j];
    StageFacts(env, view, block, h, location, j, run, g, after);
    CoinsHeld(env, run.ledger);
    TxTotals(env, view, block, h, location, j, run, g, after);
    SpendTxKeeps(env, h, j, tx, g.checked);
    SpendTxParts(env, h, j, tx, g.checked);
    NoDebitsYet(run.ledger, tx.id);
    KeptSame(run.ledger, tx.id);
    if j != 0 { InputsStep(env, h, j, tx, |tx.vin|, g.checked); }
    DebitsOnlyAreOwn(g.paid.ledger, tx.id, |tx.vin|);
    var s := g.paid.ledger;
    OutputsStep(env, s, h, j, tx, |tx.vout|);
    var t := Apply(s, OutputsOps(env, h, j, tx, |tx.vout|));
    ApplyConcat(s, OutputsOps(env, h, j, tx, |tx.vout|), TxRowOps(env, j, tx, location));
    ApplyOne(t, Put(TxAt(tx.id), Location(location, j)));
    RowStep(env, t, h, j, tx, location);
    KeptThrough(run.ledger, s, t, tx.id);
    KeptThrough(run.ledger, t, after.ledger, tx.id);
  }

  ghost predicate TxsRight(env: Env, s: Store, block: Block, h: u32, location: nat, n: nat)
    requires n <= |block.txs|
  {
    forall j :: 0 <= j < n ==> TxRight(env, s, h, j, block.txs[j], location)
  }

  /** Earlier rows stay right through a block, and its own become right. */
  lemma {:induction false} BlockStep(env: Env, view: View, block: Block, h: u32, location: nat, n: nat)
    requires n <= |block.txs| && StepTxs(env, view, block, h, location, n).Ok? && AllIndexes(env)
    requires Coins(env, view.ledger) && AddressRows(env, view.ledger) && DistinctIds(block.txs)
             && NewIds(view.ledger, block.txs, 0)
    ensures var t := StepTxs(env, view, block, h, location, n).value.ledger;
            AddressRows(env, t) && TxsRight(env, t, block, h, location, n)
  {
    hide StepTx; hide Coins; hide NewIds; hide Unknown; hide IsStages; hide TxRight; hide Kept; hide AddressRows;
    hide DistinctIds;
    if n > 0 {
      BlockStep(env, view, block, h, location, n - 1);
      TxsKeep(env, view, block, h, location, n - 1);
      var run := StepTxs(env, view, block, h, location, n - 1).value;
      var g := StepTxStages(env, view, block, h, location, n - 1, run);
      var after := StepTxs(env, view, block, h, location, n).value;
      UnknownAt(run.ledger, block.txs, n - 1);
      TxStep(env, view, block, h, location, n - 1, run, g, after);
      forall j | 0 <= j < n ensures TxRight(env, after.ledger, h, j, block.txs[j], location) {
        if j < n - 1 { RightKept(env, run.ledger, after.ledger, block.txs[n - 1].id, h, j, block.txs[j], location); }
      }
    }
  }

  lemma {:induction false} OldRowsKept(env: Env, view: View, block: Block, h: u32, location: nat, n: nat, g: u32,
                                       j: nat, tx: Tx, place: nat)
    requires n <= |block.txs| && StepTxs(env, view, block, h, location, n).Ok? && AllIndexes(env)
    requires Coins(env, view.ledger) && AddressRows(env, view.ledger) && DistinctIds(block.txs)
             && NewIds(view.ledger, block.txs, 0)
    requires TxRight(env, view.ledger, g, j, tx, place)
    ensures TxRight(env, StepTxs(env, view, block, h, location, n).value.ledger, g, j, tx, place)
  {
    hide StepTx; hide Coins; hide NewIds; hide Unknown; hide IsStages; hide TxRight; hide Kept; hide AddressRows;
    hide DistinctIds; hide TxsRight;
    if n > 0 {
      OldRowsKept(env, view, block, h, location, n - 1, g, j, tx, place);
      BlockStep(env, view, block, h, location, n - 1);
      TxsKeep(env, view, block, h, location, n - 1);
      var run := StepTxs(env, view, block, h, location, n - 1).value;
      var stages := StepTxStages(env, view, block, h, location, n - 1, run);
      var after := StepTxs(env, view, block, h, location, n).value;
      UnknownAt(run.ledger, block.txs, n - 1);
      TxStep(env, view, block, h, location, n - 1, run, stages, after);
      RightKept(env, run.ledger, after.ledger, block.txs[n - 1].id, g, j, tx, place);
    }
  }

  /** Every row of every transaction on the chain says what the transaction says. */
  ghost predicate ChainIndexed(env: Env, s: Store, links: Links) {
    AddressRows(env, s) && forall h :: 0 <= h < |links| ==>
      TxsRight(env, s, links[h].block, h, links[h].location, |links[h].block.txs|)
  }

  /** The indexes of every state reached by connecting blocks are complete and exact. */
  lemma {:induction false} ReplayIndexed(env: Env, links: Links)
    requires DistinctChain(links) && Replay(env, links).Ok? && AllIndexes(env)
    ensures ChainIndexed(env, Replay(env, links).value.ledger, links)
    decreases |links|
  {
    hide ConnectView; hide ChainIndexed; hide DistinctChain;
    if links == [] {
      NoAddresses(env);
    } else {
      var n := |links| - 1;
      LastIsNew(links);
      ReplayIndexed(env, links[..n]);
      IndexedNext(env, links, Replay(env, links[..n]).value);
    }
  }

  lemma IndexedNext(env: Env, links: Links, before: View)
    requires links != [] && DistinctChain(links) && Replay(env, links).Ok? && AllIndexes(env)
             && Replay(env, links[..|links| - 1]) == Ok(before)
    requires ChainIndexed(env, before.ledger, links[..|links| - 1])
    ensures ChainIndexed(env, Replay(env, links).value.ledger, links)
  {
    hide ConnectView; hide Reached; hide TxsRight; hide AddressRows; hide DistinctIds; hide Coins; hide NewIds;
    hide DistinctChain; hide Ids; hide Hashes; hide BlockIds; hide Fresh; hide Supply.Counted; hide StepTxs;
    var n := |links| - 1;
    var block, location := links[n].block, links[n].location;
    LastIsNew(links);
    ReplayReached(env, links[..n]);
    NewBlockIsFresh(env, links[..n], before, block);
    ReachedParts(env, links[..n], before, block);
    BlockLedger(env, before, block, n, location, links[n].paid);
    BlockStep(env, before, block, n, location, |block.txs|);
    forall h | 0 <= h < n
      ensures TxsRight(env, StepTxs(env, before, block, n, location, |block.txs|).value.ledger, links[h].block, h,
                       links[h].location,
                       |links[h].block.txs|)
    {
      assert links[..n][h] == links[h];
      OldBlockKept(env, before, block, n, location, links[h].block, h, links[h].location);
    }
  }

  lemma NoAddresses(env: Env)
    ensures ChainIndexed(env, map[], [])
  {
  }

  lemma BlockLedger(env: Env, view: View, block: Block, h: u32, location: nat, paid: seq<OutPoint>)
    requires block.txs != [] && ConnectView(env, view, block, h, location, paid).Ok?
    ensures StepTxs(env, view, block, h, location, |block.txs|).Ok?
    ensures ConnectView(env, view, block, h, location, paid).value.view.ledger
            == StepTxs(env, view, block, h, location, |block.txs|).value.ledger
  {
    hide ConnectView; hide StepTxs; hide PayNodes; hide NewAnchors; hide NewTree; hide ValueOut; hide NewStats;
    hide NewPools;
    var run, nodes, t := ConnectedRun(env, view, block, h, location, paid);
  }

  lemma OldBlockKept(env: Env, view: View, block: Block, h: u32, location: nat, older: Block, g: u32, place: nat)
    requires StepTxs(env, view, block, h, location, |block.txs|).Ok? && AllIndexes(env)
    requires Coins(env, view.ledger) && AddressRows(env, view.ledger) && DistinctIds(block.txs)
             && NewIds(view.ledger, block.txs, 0)
    requires TxsRight(env, view.ledger, older, g, place, |older.txs|)
    ensures TxsRight(env, StepTxs(env, view, block, h, location, |block.txs|).value.ledger, older, g, place,
                     |older.txs|)
  {
    hide StepTxs; hide Coins; hide NewIds; hide TxRight; hide AddressRows; hide DistinctIds;
    forall j | 0 <= j < |older.txs|
      ensures TxRight(env, StepTxs(env, view, block, h, location, |block.txs|).value.ledger, g, j, older.txs[j], place)
    {
      assert TxRight(env, view.ledger, g, j, older.txs[j], place);
      OldRowsKept(env, view, block, h, location, |block.txs|, g, j, older.txs[j], place);
    }
  }
}
