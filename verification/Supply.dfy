/** Money: the running totals are the sums they stand for, and no block creates more than its reward. */
module Supply {
  import opened Basics
  import opened Undo
  import opened Ledger
  import opened Chain
  import opened Sequential
  import opened Reversal
  import opened Rewind

  // ---- the unspent coins of a ledger, summed ----

  function UtxoRows(s: Store): (m: map<Key, Value>) {
    map k | k in s && k.Utxo? :: s[k]
  }

  function CoinValue(v: Value): (x: int) { if v.Coin? then v.entry.value else 0 }

  /** The value of all rows, in whatever order they are added. */
  ghost function Sum(m: map<Key, Value>): (x: int)
    decreases |m|
  {
    if m == map[] then 0
    else
      var k :| k in m;
      CoinValue(m[k]) + Sum(m - {k})
  }

  lemma {:induction false} SumRemove(m: map<Key, Value>, k: Key)
    requires k in m
    ensures Sum(m) == CoinValue(m[k]) + Sum(m - {k})
    decreases |m|
  {
    var k0 :| k0 in m && Sum(m) == CoinValue(m[k0]) + Sum(m - {k0});
    if k0 != k {
      SumRemove(m - {k0}, k);
      SumRemove(m - {k}, k0);
      assert m - {k0} - {k} == m - {k} - {k0};
    }
  }

  lemma SumAdd(m: map<Key, Value>, k: Key, v: Value)
    requires k !in m
    ensures Sum(m[k := v]) == Sum(m) + CoinValue(v)
    ensures |m[k := v]| == |m| + 1
  {
    SumRemove(m[k := v], k);
    assert m[k := v] - {k} == m;
  }

  lemma {:induction false} SumNonNegative(m: map<Key, Value>)
    requires forall k :: k in m ==> CoinValue(m[k]) >= 0
    ensures Sum(m) >= 0
    decreases |m|
  {
    if m != map[] {
      var k :| k in m;
      SumRemove(m, k);
      SumNonNegative(m - {k});
    }
  }

  /** What a full scan of the unspent outputs would count and add up. */
  ghost predicate Counted(s: Store, stats: Stats) {
    stats.txouts == |UtxoRows(s)| && stats.total == Sum(UtxoRows(s))
  }

  // ---- one transaction ----

  lemma InputSum(env: Env, s: Store, h: nat, j: nat, tx: Tx, i: nat, e: UtxoEntry)
    requires i < |tx.vin| && Utxo(tx.vin[i].prevout) in s && s[Utxo(tx.vin[i].prevout)] == Coin(e)
    ensures var t := Apply(s, InputOps(env, h, j, tx, i, e));
            && Sum(UtxoRows(t)) == Sum(UtxoRows(s)) - e.value
            && |UtxoRows(t)| == |UtxoRows(s)| - 1
  {
    hide AddressOf; hide SpentRow; hide Apply; hide InputOps;
    InputApplied(env, s, h, j, tx, i, e);
    var k := Utxo(tx.vin[i].prevout);
    var t := InputResult(env, s, h, j, tx, i, e);
    assert UtxoRows(t) == UtxoRows(s) - {k};
    SumRemove(UtxoRows(s), k);
    assert UtxoRows(s) == (UtxoRows(s) - {k})[k := Coin(e)];
    SumAdd(UtxoRows(s) - {k}, k, Coin(e));
  }

  lemma {:induction false} InputsSum(env: Env, h: nat, j: nat, tx: Tx, n: nat, run: Run)
    requires n <= |tx.vin| && SpendInputs(env, h, j, tx, n, run).Ok?
    ensures var r := SpendInputs(env, h, j, tx, n, run).value;
            && Sum(UtxoRows(r.0.ledger)) == Sum(UtxoRows(run.ledger)) - r.1
            && |UtxoRows(r.0.ledger)| == |UtxoRows(run.ledger)| - n
  {
    hide SpendInput; hide InputOps; hide Apply; hide UtxoRows; hide Sum;
    if n > 0 {
      InputsSum(env, h, j, tx, n - 1, run);
      var before := SpendInputs(env, h, j, tx, n - 1, run).value;
      SpendInputEffect(env, h, j, tx, n - 1, before.0, before.1);
      InputSum(env, before.0.ledger, h, j, tx, n - 1, before.0.ledger[Utxo(tx.vin[n - 1].prevout)].entry);
    }
  }

  lemma OutputSum(env: Env, s: Store, h: u32, j: nat, tx: Tx, i: nat)
    requires i < |tx.vout| && Utxo(OutPoint(tx.id, i)) !in s
    ensures var t := Apply(s, OutputOps(env, h, j, tx, i));
            && Sum(UtxoRows(t)) == Sum(UtxoRows(s)) + tx.vout[i].value
            && |UtxoRows(t)| == |UtxoRows(s)| + 1
  {
    hide AddressOf; hide Apply; hide OutputOps;
    OutputApplied(env, s, h, j, tx, i);
    var k, e := Utxo(OutPoint(tx.id, i)), OutputEntry(h, j, tx, i);
    var t := Apply(s, OutputOps(env, h, j, tx, i));
    assert UtxoRows(t) == UtxoRows(s)[k := Coin(e)];
    SumAdd(UtxoRows(s), k, Coin(e));
  }

  lemma NoSuchOutput(s: Store, id: Hash, n: u32)
    requires OwnRows(s, id, n)
    ensures Utxo(OutPoint(id, n)) !in s
  {
    assert Mentions(Utxo(OutPoint(id, n)), id);
  }

  lemma NoOutputs(env: Env, s: Store, h: u32, j: nat, tx: Tx)
    ensures Apply(s, OutputsOps(env, h, j, tx, 0)) == s
  {
  }

  lemma NextOutputSum(env: Env, s: Store, h: u32, j: nat, tx: Tx, n: nat)
    requires n < |tx.vout| && OwnRows(Apply(s, OutputsOps(env, h, j, tx, n)), tx.id, n)
    ensures var front := Apply(s, OutputsOps(env, h, j, tx, n));
            var t := Apply(s, OutputsOps(env, h, j, tx, n + 1));
            && Sum(UtxoRows(t)) == Sum(UtxoRows(front)) + tx.vout[n].value
            && |UtxoRows(t)| == |UtxoRows(front)| + 1
  {
    hide OutputOps; hide Apply; hide UtxoRows; hide Sum; hide OwnRows;
    var front := Apply(s, OutputsOps(env, h, j, tx, n));
    NoSuchOutput(front, tx.id, n);
    ApplyConcat(s, OutputsOps(env, h, j, tx, n), OutputOps(env, h, j, tx, n));
    OutputSum(env, front, h, j, tx, n);
  }

  lemma {:induction false} OutputsSum(env: Env, s: Store, h: u32, j: nat, tx: Tx, n: nat)
    requires n <= |tx.vout| && forall i :: 0 <= i < |tx.vout| ==> MoneyRange(tx.vout[i].value)
    requires Coins(env, s) && OwnRows(s, tx.id, 0)
    ensures var t := Apply(s, OutputsOps(env, h, j, tx, n));
            && Sum(UtxoRows(t)) == Sum(UtxoRows(s)) + SumOut(tx.vout[..n])
            && |UtxoRows(t)| == |UtxoRows(s)| + n
  {
    hide Apply; hide OutputsOps; hide Coins; hide MoneyRange; hide UtxoRows; hide Sum; hide OwnRows; hide NewRowsOf;
    if n == 0 {
      NoOutputs(env, s, h, j, tx);
    } else {
      OutputsSum(env, s, h, j, tx, n - 1);
      OutputsKeep(env, s, h, j, tx, n - 1);
      NextOutputSum(env, s, h, j, tx, n - 1);
      assert tx.vout[..n][..n - 1] == tx.vout[..n - 1];
    }
  }

  lemma CreditsSum(env: Env, s: Store, h: u32, j: nat, tx: Tx, location: nat)
    requires forall i :: 0 <= i < |tx.vout| ==> MoneyRange(tx.vout[i].value)
    requires Coins(env, s) && OwnRows(s, tx.id, 0)
    ensures var t := Apply(s, CreditOps(env, h, j, tx, location));
            && Sum(UtxoRows(t)) == Sum(UtxoRows(s)) + SumOut(tx.vout)
            && |UtxoRows(t)| == |UtxoRows(s)| + |tx.vout|
  {
    hide OutputsOps; hide OwnRows; hide Coins; hide MoneyRange; hide Sum; hide SumOut;
    OutputsSum(env, s, h, j, tx, |tx.vout|);
    assert tx.vout[..|tx.vout|] == tx.vout;
    var u := Apply(s, OutputsOps(env, h, j, tx, |tx.vout|));
    ApplyConcat(s, OutputsOps(env, h, j, tx, |tx.vout|), TxRowOps(env, j, tx, location));
    if env.options.indexTx {
      var row := Put(TxAt(tx.id), Location(location, j));
      ApplyOne(u, row);
      assert UtxoRows(ApplyOp(u, row)) == UtxoRows(u);
    }
  }

  /** All the money a run has moved: coins created less coins spent, plus what entered the pools. */
  function Flow(t: Totals): (x: int) { t.valueCreated - t.valueSpent + t.sprout + t.sapling }

  /** A transaction other than the first lowers the supply by exactly its fee; the first raises
      it by what it pays out less what it takes from the pools. */
  lemma TxConserves(env: Env, view: View, block: Block, h: u32, location: nat, j: nat, run: Run, g: Stages, after: Run)
    requires j < |block.txs| && IsStages(env, view, block, h, location, j, run, after, g)
    requires Coins(env, run.ledger) && Unknown(run.ledger, block.txs[j].id)
    ensures var tx := block.txs[j];
            && after.totals.fees >= run.totals.fees
            && (if j == 0 then after.totals.fees == run.totals.fees
                               && Flow(after.totals) == Flow(run.totals) + ValueOut(tx) - ShieldedIn(tx)
                else Flow(after.totals) == Flow(run.totals) - (after.totals.fees - run.totals.fees))
            && ShieldedIn(tx) >= 0
  {
    hide IsStages; hide Coins; hide Unknown; hide SpendTx; hide ApplyNode; hide Apply; hide CreditOps; hide SumOut;
    hide SumOld; hide SumNew; hide CheckShielded; hide TxNulls; hide JoinSplitDelta; hide SpendInputs;
    var tx := block.txs[j];
    StageFacts(env, view, block, h, location, j, run, g, after);
    StageShielded(env, view, block, h, location, j, run, g, after);
    StageRange(env, view, block, h, location, j, run, g, after);
    CoinsHeld(env, run.ledger);
    TxTotals(env, view, block, h, location, j, run, g, after);
    ShieldedFrame(env, view, tx, run);
    ShieldedAdded(env, view, tx, run);
    SpendTxParts(env, h, j, tx, g.checked);
    if j != 0 {
      SpendInputsFrame(env, h, j, tx, |tx.vin|, g.checked);
    }
  }

  lemma StageRange(env: Env, view: View, block: Block, h: u32, location: nat, j: nat, run: Run, g: Stages, after: Run)
    requires j < |block.txs| && IsStages(env, view, block, h, location, j, run, after, g)
    ensures MoneyRange(ShieldedIn(block.txs[j])) && MoneyRange(ValueOut(block.txs[j]))
  {
    hide SpendTx; hide ApplyNode; hide CheckShielded; hide GrowTrees; hide CreateOutputs; hide CheckNode;
    hide ValueOut; hide ShieldedIn;
  }

  lemma TxSum(env: Env, view: View, block: Block, h: u32, location: nat, j: nat, run: Run, g: Stages, after: Run)
    requires j < |block.txs| && IsStages(env, view, block, h, location, j, run, after, g)
    requires Coins(env, run.ledger) && Unknown(run.ledger, block.txs[j].id)
    ensures var tx := block.txs[j];
            && Sum(UtxoRows(after.ledger)) == Sum(UtxoRows(run.ledger)) + SumOut(tx.vout)
                                              - (after.totals.valueSpent - run.totals.valueSpent)
            && |UtxoRows(after.ledger)| == |UtxoRows(run.ledger)| + |tx.vout|
                                           - (after.totals.spentCount - run.totals.spentCount)
  {
    hide IsStages; hide Coins; hide Unknown; hide SpendTx; hide ApplyNode; hide Apply; hide CreditOps; hide SumOut;
    hide SpendInputs; hide UtxoRows; hide Sum; hide OwnRows; hide OnlyDebits; hide MoneyRange; hide ValueOut;
    hide ShieldedIn;
    var tx := block.txs[j];
    StageFacts(env, view, block, h, location, j, run, g, after);
    CoinsHeld(env, run.ledger);
    TxTotals(env, view, block, h, location, j, run, g, after);
    SpendTxKeeps(env, h, j, tx, g.checked);
    SpendTxParts(env, h, j, tx, g.checked);
    if j != 0 {
      InputsSum(env, h, j, tx, |tx.vin|, g.checked);
      SpendInputsFrame(env, h, j, tx, |tx.vin|, g.checked);
    }
    DebitsOnlyAreOwn(g.paid.ledger, tx.id, |tx.vin|);
    CreditsSum(env, g.paid.ledger, h, j, tx, location);
  }

  // ---- a whole block ----

  /** The first `n` transactions moved what the first one issued, less the fees collected so far. */
  predicate Flows(block: Block, n: nat, t: Totals)
    requires n <= |block.txs|
  {
    && t.fees >= 0
    && Flow(t) == (if n == 0 then 0 else ValueOut(block.txs[0]) - ShieldedIn(block.txs[0])) - t.fees
    && (n > 0 ==> ShieldedIn(block.txs[0]) >= 0)
  }

  lemma FlowsStart(block: Block, view: View)
    ensures Flows(block, 0, StartRun(view).totals)
  {
  }

  lemma FlowsOn(block: Block, j: nat, t: Totals, t': Totals)
    requires j < |block.txs| && Flows(block, j, t) && t'.fees >= t.fees && ShieldedIn(block.txs[j]) >= 0
    requires if j == 0 then t'.fees == t.fees && Flow(t') == Flow(t) + ValueOut(block.txs[j]) - ShieldedIn(block.txs[j])
             else Flow(t') == Flow(t) - (t'.fees - t.fees)
    ensures Flows(block, j + 1, t')
  {
    hide Flow; hide ValueOut; hide ShieldedIn;
  }

  lemma {:induction false} TxsFlow(env: Env, view: View, block: Block, h: u32, location: nat, n: nat)
    requires n <= |block.txs| && StepTxs(env, view, block, h, location, n).Ok?
    requires Coins(env, view.ledger) && DistinctIds(block.txs) && NewIds(view.ledger, block.txs, 0)
    ensures Flows(block, n, StepTxs(env, view, block, h, location, n).value.totals)
  {
    hide StepTx; hide Coins; hide NewIds; hide Unknown; hide IsStages; hide ValueOut; hide ShieldedIn; hide DistinctIds;
    hide Flow; hide Flows;
    FlowsStart(block, view);
    if n > 0 {
      TxsFlow(env, view, block, h, location, n - 1);
      TxsKeep(env, view, block, h, location, n - 1);
      var run := StepTxs(env, view, block, h, location, n - 1).value;
      var g := StepTxStages(env, view, block, h, location, n - 1, run);
      var after := StepTxs(env, view, block, h, location, n).value;
      UnknownAt(run.ledger, block.txs, n - 1);
      TxConserves(env, view, block, h, location, n - 1, run, g, after);
      FlowsOn(block, n - 1, run.totals, after.totals);
    }
  }

  lemma {:induction false} TxsSum(env: Env, view: View, block: Block, h: u32, location: nat, n: nat)
    requires n <= |block.txs| && StepTxs(env, view, block, h, location, n).Ok?
    requires Coins(env, view.ledger) && DistinctIds(block.txs) && NewIds(view.ledger, block.txs, 0)
    ensures var run := StepTxs(env, view, block, h, location, n).value;
            && Sum(UtxoRows(run.ledger)) == Sum(UtxoRows(view.ledger)) + run.totals.valueCreated - run.totals.valueSpent
            && |UtxoRows(run.ledger)| == |UtxoRows(view.ledger)| + run.totals.created - run.totals.spentCount
  {
    hide StepTx; hide Coins; hide NewIds; hide Unknown; hide IsStages; hide UtxoRows; hide Sum; hide SumOut;
    hide DistinctIds;
    if n > 0 {
      TxsSum(env, view, block, h, location, n - 1);
      TxsKeep(env, view, block, h, location, n - 1);
      var run := StepTxs(env, view, block, h, location, n - 1).value;
      var g := StepTxStages(env, view, block, h, location, n - 1, run);
      var after := StepTxs(env, view, block, h, location, n).value;
      UnknownAt(run.ledger, block.txs, n - 1);
      CoinsHeld(env, run.ledger);
      TxTotals(env, view, block, h, location, n - 1, run, g, after);
      TxSum(env, view, block, h, location, n - 1, run, g, after);
    }
  }

  /** Everything in circulation: unspent coins and both shielded pools. */
  function Circulation(view: View): (x: int) { view.stats.total + view.pools.sprout + view.pools.sapling }

  /** No inflation: an accepted block above height 2 raises the supply by at most its subsidy and
      the scheduled funds, the recorded totals stay the sums they stand for, and no pool goes negative. */
  lemma NoInflation(env: Env, view: View, block: Block, h: u32, location: nat, paid: seq<OutPoint>)
    requires block.txs != [] && ConnectView(env, view, block, h, location, paid).Ok?
    requires Coins(env, view.ledger) && DistinctIds(block.txs) && NewIds(view.ledger, block.txs, 0)
    requires Counted(view.ledger, view.stats)
    ensures var after := ConnectView(env, view, block, h, location, paid).value.view;
            && Counted(after.ledger, after.stats)
            && after.pools.sprout >= 0 && after.pools.sapling >= 0
            && (h > 2 ==> Circulation(after) <= Circulation(view) + env.subsidy(h) + env.extraFunds(h))
  {
    hide ConnectView; hide StepTxs; hide Coins; hide NewIds; hide DistinctIds; hide UtxoRows; hide Sum; hide ValueOut;
    hide ShieldedIn; hide PayNodes; hide NewAnchors; hide NewTree;
    var run, nodes, t := ConnectedRun(env, view, block, h, location, paid);
    TxsFlow(env, view, block, h, location, |block.txs|);
    TxsSum(env, view, block, h, location, |block.txs|);
  }
}
