/** The ledger of a chain against its plain meaning: the coins there are, are those made and not spent;
    every input spends a coin made before it, once, when it is ripe and its script allows; and no
    nullifier is shown twice. */
module Spending {
  import opened Basics
  import opened Undo
  import opened Ledger
  import opened Chain
  import opened Sequential
  import opened Reversal
  import opened Rewind
  import opened ActiveChain
  import Fairness

  // ---- what a chain makes and spends ----

  type Made = map<OutPoint, UtxoEntry>

  /** The first `n` outputs of a transaction. */
  function TxMakes(h: u32, j: nat, tx: Tx, n: nat): (m: Made)
    requires n <= |tx.vout|
  {
    if n == 0 then map[]
    else
      var out := tx.vout[n - 1];
      TxMakes(h, j, tx, n - 1)[OutPoint(tx.id, n - 1) := UtxoEntry(out.value, out.script, h, j == 0)]
  }

  /** What the first `n` inputs of a transaction spend; the first transaction of a block spends nothing. */
  function TxTakes(j: nat, tx: Tx, n: nat): (s: set<OutPoint>)
    requires n <= |tx.vin|
  {
    if j == 0 then {} else set i | 0 <= i < n :: tx.vin[i].prevout
  }

  function BlockMakes(block: Block, h: u32, n: nat): (m: Made)
    requires n <= |block.txs|
  {
    if n == 0 then map[]
    else BlockMakes(block, h, n - 1) + TxMakes(h, n - 1, block.txs[n - 1], |block.txs[n - 1].vout|)
  }

  function BlockTakes(block: Block, n: nat): (s: set<OutPoint>)
    requires n <= |block.txs|
  {
    if n == 0 then {}
    else BlockTakes(block, n - 1) + TxTakes(n - 1, block.txs[n - 1], |block.txs[n - 1].vin|)
  }

  /** Every output of the chain, and every outpoint it spends. */
  function ChainMakes(links: Links): (m: Made)
    requires |links| < U32_LIMIT
    decreases |links|
  {
    if links == [] then map[]
    else
      var n := |links| - 1;
      ChainMakes(links[..n]) + BlockMakes(links[n].block, n, |links[n].block.txs|)
  }

  function ChainTakes(links: Links): (s: set<OutPoint>)
    decreases |links|
  {
    if links == [] then {}
    else
      var n := |links| - 1;
      ChainTakes(links[..n]) + BlockTakes(links[n].block, |links[n].block.txs|)
  }

  /** The coins of the ledger are those made and not spent, as they were made; only what was made was
      spent. */
  ghost predicate Tracks(s: Store, made: Made, taken: set<OutPoint>) {
    && taken <= made.Keys
    && forall o :: (Utxo(o) in s <==> o in made && o !in taken) && (Utxo(o) in s ==> s[Utxo(o)] == Coin(made[o]))
  }

  const RIPE: int := 100

  /** An input spends a coin that was made before it and not spent; of a coinbase, a hundred blocks later;
      and the coin's script allows it. */
  ghost predicate SpendsWell(env: Env, h: nat, tx: Tx, i: nat, made: Made, taken: set<OutPoint>)
    requires i < |tx.vin|
  {
    var o := tx.vin[i].prevout;
    && o in made && o !in taken && (made[o].coinbase ==> h - made[o].height >= RIPE)
    && env.verifyScript(tx, i, made[o])
  }

  // ---- inputs ----

  lemma InputTracks(env: Env, s: Store, h: nat, j: nat, tx: Tx, i: nat, made: Made, taken: set<OutPoint>)
    requires i < |tx.vin| && Tracks(s, made, taken) && Utxo(tx.vin[i].prevout) in s
    ensures var o := tx.vin[i].prevout;
            Tracks(Apply(s, InputOps(env, h, j, tx, i, s[Utxo(o)].entry)), made, taken + {o})
  {
    hide Apply; hide InputOps; hide AddressOf; hide SpentRow;
    InputApplied(env, s, h, j, tx, i, s[Utxo(tx.vin[i].prevout)].entry);
  }

  lemma InputRules(env: Env, h: nat, j: nat, tx: Tx, i: nat, run: Run, paidIn: i64)
    requires i < |tx.vin| && SpendInput(env, h, j, tx, i, run, paidIn).Ok?
    ensures var o := tx.vin[i].prevout;
            && Utxo(o) in run.ledger && run.ledger[Utxo(o)].Coin?
            && var e := run.ledger[Utxo(o)].entry;
               && (e.coinbase ==> h - e.height >= RIPE)
               && (SpendInput(env, h, j, tx, i, run, paidIn).value.0.scriptsOk <==>
                     run.scriptsOk && env.verifyScript(tx, i, e))
  {
    hide Apply; hide InputOps;
  }

  lemma {:induction false} InputsTrack(env: Env, h: nat, j: nat, tx: Tx, n: nat, run: Run, made: Made,
                                       taken: set<OutPoint>)
    requires 0 < j && n <= |tx.vin| && SpendInputs(env, h, j, tx, n, run).Ok? && Tracks(run.ledger, made, taken)
    ensures var after := SpendInputs(env, h, j, tx, n, run).value.0;
            && Tracks(after.ledger, made, taken + TxTakes(j, tx, n)) && (after.scriptsOk ==> run.scriptsOk)
            && (after.scriptsOk ==>
                  forall i :: 0 <= i < n ==> SpendsWell(env, h, tx, i, made, taken + TxTakes(j, tx, i)))
  {
    hide SpendInput; hide Apply; hide InputOps; hide Tracks; hide SpendsWell;
    if n == 0 {
      assert taken + TxTakes(j, tx, 0) == taken;
    } else {
      InputsTrack(env, h, j, tx, n - 1, run, made, taken);
      var before := SpendInputs(env, h, j, tx, n - 1, run).value;
      SpendInputEffect(env, h, j, tx, n - 1, before.0, before.1);
      InputRules(env, h, j, tx, n - 1, before.0, before.1);
      InputTracks(env, before.0.ledger, h, j, tx, n - 1, made, taken + TxTakes(j, tx, n - 1));
      assert taken + TxTakes(j, tx, n) == taken + TxTakes(j, tx, n - 1) + {tx.vin[n - 1].prevout};
      if SpendInputs(env, h, j, tx, n, run).value.0.scriptsOk {
        WellSpent(env, h, tx, n - 1, before.0.ledger, made, taken + TxTakes(j, tx, n - 1));
      }
    }
  }

  lemma WellSpent(env: Env, h: nat, tx: Tx, i: nat, s: Store, made: Made, taken: set<OutPoint>)
    requires i < |tx.vin| && Tracks(s, made, taken)
    requires var o := tx.vin[i].prevout;
             && Utxo(o) in s && s[Utxo(o)].Coin? && var e := s[Utxo(o)].entry;
             (e.coinbase ==> h - e.height >= RIPE) && env.verifyScript(tx, i, e)
    ensures SpendsWell(env, h, tx, i, made, taken)
  {
  }

  // ---- outputs ----

  lemma OutputTracks(env: Env, s: Store, h: u32, j: nat, tx: Tx, i: nat, made: Made, taken: set<OutPoint>)
    requires i < |tx.vout| && Tracks(s, made, taken) && OutPoint(tx.id, i) !in made
    ensures Tracks(Apply(s, OutputOps(env, h, j, tx, i)),
                   made[OutPoint(tx.id, i) := UtxoEntry(tx.vout[i].value, tx.vout[i].script, h, j == 0)], taken)
  {
    hide Apply; hide OutputOps; hide AddressOf;
    OutputApplied(env, s, h, j, tx, i);
  }

  /** No output of the transaction has been made yet. */
  ghost predicate NoneMade(made: Made, id: Hash) { forall o :: o in made ==> o.hash != id }

  lemma {:induction false} TxMakesOwn(h: u32, j: nat, tx: Tx, n: nat)
    requires n <= |tx.vout|
    ensures forall o :: o in TxMakes(h, j, tx, n) <==> o.hash == tx.id && o.index < n
  {
    if n > 0 { TxMakesOwn(h, j, tx, n - 1); }
  }

  lemma {:induction false} OutputsTrack(env: Env, s: Store, h: u32, j: nat, tx: Tx, n: nat, made: Made,
                                        taken: set<OutPoint>)
    requires n <= |tx.vout| && Tracks(s, made, taken) && NoneMade(made, tx.id)
    ensures Tracks(Apply(s, OutputsOps(env, h, j, tx, n)), made + TxMakes(h, j, tx, n), taken)
  {
    hide Apply; hide OutputOps; hide Tracks;
    if n == 0 {
      NoOps(s);
      assert made + map[] == made;
    } else {
      OutputsTrack(env, s, h, j, tx, n - 1, made, taken);
      ApplyConcat(s, OutputsOps(env, h, j, tx, n - 1), OutputOps(env, h, j, tx, n - 1));
      TxMakesOwn(h, j, tx, n - 1);
      var front := Apply(s, OutputsOps(env, h, j, tx, n - 1));
      OutputTracks(env, front, h, j, tx, n - 1, made + TxMakes(h, j, tx, n - 1), taken);
      MakesNext(h, j, tx, n, made);
    }
  }

  lemma NoOps(s: Store)
    ensures Apply(s, []) == s
  {
  }

  lemma MakesNext(h: u32, j: nat, tx: Tx, n: nat, made: Made)
    requires 0 < n <= |tx.vout|
    ensures made + TxMakes(h, j, tx, n)
            == (made + TxMakes(h, j, tx, n - 1))[OutPoint(tx.id, n - 1) :=
                 UtxoEntry(tx.vout[n - 1].value, tx.vout[n - 1].script, h, j == 0)]
  {
  }

  lemma RowTracks(s: Store, id: Hash, v: Value, made: Made, taken: set<OutPoint>)
    requires Tracks(s, made, taken)
    ensures Tracks(s[TxAt(id) := v], made, taken)
  {
  }

  // ---- one transaction, one block ----

  lemma StageLedgers(env: Env, view: View, block: Block, h: u32, location: nat, j: nat, run: Run, g: Stages, after: Run)
    requires j < |block.txs| && IsStages(env, view, block, h, location, j, run, after, g)
    ensures g.checked.ledger == run.ledger && g.checked.scriptsOk == run.scriptsOk
            && SpendTx(env, h, j, block.txs[j], g.checked) == Ok(g.paid)
            && after.scriptsOk == g.paid.scriptsOk
            && after.ledger == Apply(g.paid.ledger, CreditOps(env, h, j, block.txs[j], location))
  {
    hide CheckNode; hide OutputsInRange; hide ShieldedInRange; hide CheckShielded; hide SpendTx; hide GrowTrees;
    hide NodeWrite; hide Apply; hide OutputsOps; hide TxRowOps; hide SumOut;
    ShieldedFrame(env, view, block.txs[j], run);
    TreesFrame(env, block.txs[j], g.noded);
  }

  lemma TxTracks(env: Env, view: View, block: Block, h: u32, location: nat, j: nat, run: Run, made: Made,
                 taken: set<OutPoint>)
    requires j < |block.txs| && StepTx(env, view, block, h, location, j, run).Ok?
    requires Tracks(run.ledger, made, taken) && NoneMade(made, block.txs[j].id)
    ensures var tx, after := block.txs[j], StepTx(env, view, block, h, location, j, run).value;
            && Tracks(after.ledger, made + TxMakes(h, j, tx, |tx.vout|), taken + TxTakes(j, tx, |tx.vin|))
            && (after.scriptsOk ==> run.scriptsOk)
            && (after.scriptsOk && j > 0 ==> forall i :: 0 <= i < |tx.vin| ==>
                  SpendsWell(env, h, tx, i, made, taken + TxTakes(j, tx, i)))
  {
    hide StepTx; hide IsStages; hide SpendTx; hide SpendInputs; hide Apply; hide Tracks; hide SpendsWell;
    hide OutputsOps; hide TxMakes; hide ValueOut; hide ShieldedIn;
    var tx, after := block.txs[j], StepTx(env, view, block, h, location, j, run).value;
    var g := StepTxStages(env, view, block, h, location, j, run);
    StageLedgers(env, view, block, h, location, j, run, g, after);
    SpendTxParts(env, h, j, tx, g.checked);
    if j > 0 {
      InputsTrack(env, h, j, tx, |tx.vin|, g.checked, made, taken);
    } else {
      assert taken + TxTakes(j, tx, |tx.vin|) == taken;
    }
    var s, gone := g.paid.ledger, taken + TxTakes(j, tx, |tx.vin|);
    OutputsTrack(env, s, h, j, tx, |tx.vout|, made, gone);
    var t := Apply(s, OutputsOps(env, h, j, tx, |tx.vout|));
    ApplyConcat(s, OutputsOps(env, h, j, tx, |tx.vout|), TxRowOps(env, j, tx, location));
    NoOps(t);
    ApplyOne(t, Put(TxAt(tx.id), Location(location, j)));
    RowTracks(t, tx.id, Location(location, j), made + TxMakes(h, j, tx, |tx.vout|), gone);
  }

  /** Outputs of the first `n` transactions have their ids. */
  lemma {:induction false} BlockMakesOwn(block: Block, h: u32, n: nat)
    requires n <= |block.txs|
    ensures forall o :: o in BlockMakes(block, h, n) ==> exists j :: 0 <= j < n && block.txs[j].id == o.hash
  {
    if n > 0 {
      hide TxMakes;
      BlockMakesOwn(block, h, n - 1);
      var tx := block.txs[n - 1];
      TxMakesOwn(h, n - 1, tx, |tx.vout|);
      forall o | o in BlockMakes(block, h, n) ensures exists j :: 0 <= j < n && block.txs[j].id == o.hash {
        if o in TxMakes(h, n - 1, tx, |tx.vout|) { assert block.txs[n - 1].id == o.hash; }
      }
    }
  }

  lemma NewAmong(block: Block, h: u32, n: nat, made: Made)
    requires n < |block.txs| && DistinctIds(block.txs)
             && forall j :: 0 <= j < |block.txs| ==> NoneMade(made, block.txs[j].id)
    ensures NoneMade(made + BlockMakes(block, h, n), block.txs[n].id)
  {
    BlockMakesOwn(block, h, n);
  }

  /** Every input of the first `n` transactions spends well, given what was made and spent before the
      block. */
  ghost predicate BlockSpendsWell(env: Env, block: Block, h: u32, n: nat, made: Made, taken: set<OutPoint>)
    requires n <= |block.txs|
  {
    forall k, x :: 0 < k < n && 0 <= x < |block.txs[k].vin| ==>
      SpendsWell(env, h, block.txs[k], x, made + BlockMakes(block, h, k),
                 taken + BlockTakes(block, k) + TxTakes(k, block.txs[k], x))
  }

  lemma {:induction false} TxsTrack(env: Env, view: View, block: Block, h: u32, location: nat, n: nat, made: Made,
                                    taken: set<OutPoint>)
    requires n <= |block.txs| && StepTxs(env, view, block, h, location, n).Ok? && DistinctIds(block.txs)
    requires Tracks(view.ledger, made, taken) && forall j :: 0 <= j < |block.txs| ==> NoneMade(made, block.txs[j].id)
    ensures var run := StepTxs(env, view, block, h, location, n).value;
            && Tracks(run.ledger, made + BlockMakes(block, h, n), taken + BlockTakes(block, n))
            && (run.scriptsOk ==> BlockSpendsWell(env, block, h, n, made, taken))
  {
    hide StepTx; hide Tracks; hide SpendsWell; hide NoneMade; hide DistinctIds; hide TxMakes; hide TxTakes;
    if n == 0 {
      assert made + map[] == made && taken + {} == taken;
    } else {
      TxsTrack(env, view, block, h, location, n - 1, made, taken);
      var run := StepTxs(env, view, block, h, location, n - 1).value;
      NewAmong(block, h, n - 1, made);
      var tx := block.txs[n - 1];
      TxTracks(env, view, block, h, location, n - 1, run, made + BlockMakes(block, h, n - 1),
               taken + BlockTakes(block, n - 1));
      assert made + BlockMakes(block, h, n) == made + BlockMakes(block, h, n - 1) + TxMakes(h, n - 1, tx, |tx.vout|);
      assert taken + BlockTakes(block, n) == taken + BlockTakes(block, n - 1) + TxTakes(n - 1, tx, |tx.vin|);
    }
  }

  // ---- along a chain ----

  lemma {:induction false} ChainMakesOwn(links: Links)
    requires |links| < U32_LIMIT
    ensures forall o :: o in ChainMakes(links) ==> o.hash in Ids(links)
    decreases |links|
  {
    if links != [] {
      var n := |links| - 1;
      ChainMakesOwn(links[..n]);
      BlockMakesOwn(links[n].block, n, |links[n].block.txs|);
    }
  }

  lemma NewBlockMakes(links: Links, block: Block)
    requires |links| < U32_LIMIT && BlockIds(block) !! Ids(links)
    ensures forall j :: 0 <= j < |block.txs| ==> NoneMade(ChainMakes(links), block.txs[j].id)
  {
    hide ChainMakes; hide Ids;
    ChainMakesOwn(links);
    forall j | 0 <= j < |block.txs| ensures NoneMade(ChainMakes(links), block.txs[j].id) {
      assert block.txs[j].id in BlockIds(block);
    }
  }

  /** The coins of every chain state are exactly the outputs of the chain it has not spent, with their
      values, scripts and heights. */
  lemma {:induction false} CoinsExactly(env: Env, links: Links)
    requires Replay(env, links).Ok? && DistinctChain(links) && |links| < U32_LIMIT
    ensures Tracks(Replay(env, links).value.ledger, ChainMakes(links), ChainTakes(links))
    decreases |links|
  {
    hide ConnectView; hide StepTxs; hide BlockMakes; hide BlockTakes; hide Ids; hide BlockIds;
    if links != [] {
      var n := |links| - 1;
      LastIsNew(links);
      CoinsExactly(env, links[..n]);
      hide Tracks;
      BlockTracks(env, links);
    }
  }

  /** Every input of the last block of a chain spends well. */
  lemma BlockTracks(env: Env, links: Links)
    requires Replay(env, links).Ok? && DistinctChain(links) && 0 < |links| < U32_LIMIT
    requires var n := |links| - 1;
             Tracks(Replay(env, links[..n]).value.ledger, ChainMakes(links[..n]), ChainTakes(links[..n]))
    ensures Tracks(Replay(env, links).value.ledger, ChainMakes(links), ChainTakes(links))
    ensures var n := |links| - 1;
            BlockSpendsWell(env, links[n].block, n, |links[n].block.txs|, ChainMakes(links[..n]),
                            ChainTakes(links[..n]))
  {
    hide ConnectView; hide StepTxs; hide BlockMakes; hide BlockTakes; hide Ids; hide BlockIds; hide Tracks;
    hide BlockSpendsWell; hide PayNodes; hide NewAnchors; hide NewTree; hide ValueOut; hide NewStats; hide NewPools;
    hide DistinctIds; hide NoneMade; hide Hashes;
    var n := |links| - 1;
    var link, before := links[n], Replay(env, links[..n]).value;
    LastIsNew(links);
    hide DistinctChain;
    NewBlockMakes(links[..n], link.block);
    var run, nodes, t := ConnectedRun(env, before, link.block, n, link.location, link.paid);
    TxsTrack(env, before, link.block, n, link.location, |link.block.txs|, ChainMakes(links[..n]),
             ChainTakes(links[..n]));
  }

  /** Over a whole chain: every input spends a coin that was made before it and that nothing before it
      spent, a coinbase only when ripe, and with a script that allows it. */
  lemma SpendsRight(env: Env, links: Links, h: nat, k: nat, x: nat)
    requires Replay(env, links).Ok? && DistinctChain(links) && h < |links| < U32_LIMIT
    requires 0 < k < |links[h].block.txs| && x < |links[h].block.txs[k].vin|
    ensures var block := links[h].block;
            SpendsWell(env, h, block.txs[k], x, ChainMakes(links[..h]) + BlockMakes(block, h, k),
                       ChainTakes(links[..h]) + BlockTakes(block, k) + TxTakes(k, block.txs[k], x))
  {
    hide ConnectView; hide Replay; hide Tracks; hide SpendsWell; hide ChainMakes; hide ChainTakes; hide BlockMakes;
    hide BlockTakes; hide TxTakes; hide DistinctChain;
    Fairness.StateStep(env, links, h);
    PrefixDistinct(links, h + 1);
    PrefixDistinct(links, h);
    var front := links[..h + 1];
    assert front[..h] == links[..h] && front[h] == links[h];
    CoinsExactly(env, links[..h]);
    BlockTracks(env, front);
  }

  lemma {:induction false} PrefixDistinct(links: Links, n: nat)
    requires DistinctChain(links) && n <= |links|
    ensures DistinctChain(links[..n])
    decreases |links|
  {
    hide DistinctIds; hide BlockIds; hide Ids; hide Hashes;
    if n == |links| {
      assert links[..n] == links;
    } else {
      assert links[..|links| - 1][..n] == links[..n];
      PrefixDistinct(links[..|links| - 1], n);
    }
  }

  // ---- nullifiers ----

  type Null = (Pool, Hash)

  function Tags(pool: Pool, hs: seq<Hash>): (list: seq<Null>) {
    if hs == [] then [] else [(pool, hs[0])] + Tags(pool, hs[1..])
  }

  function SproutShown(js: seq<JoinSplit>): (list: seq<Null>) {
    if js == [] then [] else Tags(Sprout, js[0].nullifiers) + SproutShown(js[1..])
  }

  function SaplingShown(spends: seq<ShieldedSpend>): (list: seq<Null>) {
    if spends == [] then [] else [(Sapling, spends[0].nullifier)] + SaplingShown(spends[1..])
  }

  /** The nullifiers the first `n` transactions show, in order. */
  function BlockShown(block: Block, n: nat): (list: seq<Null>)
    requires n <= |block.txs|
  {
    if n == 0 then []
    else
      var tx := block.txs[n - 1];
      BlockShown(block, n - 1) + (SproutShown(tx.joinSplits) + SaplingShown(tx.spends))
  }

  function ChainShown(links: Links): (list: seq<Null>)
    decreases |links|
  {
    if links == [] then []
    else
      var n := |links| - 1;
      ChainShown(links[..n]) + BlockShown(links[n].block, |links[n].block.txs|)
  }

  /** The list has no repeats and nothing of what was known, and what is known now is both together. */
  ghost predicate Adds(known: set<Null>, list: seq<Null>, now: set<Null>) {
    && (forall i :: 0 <= i < |list| ==> list[i] !in known)
    && (forall i, j :: 0 <= i < j < |list| ==> list[i] != list[j])
    && now == known + set i | 0 <= i < |list| :: list[i]
  }

  lemma AddsNone(known: set<Null>)
    ensures Adds(known, [], known)
  {
  }

  lemma AddsBoth(known: set<Null>, a: seq<Null>, mid: set<Null>, b: seq<Null>, now: set<Null>)
    requires Adds(known, a, mid) && Adds(mid, b, now)
    ensures Adds(known, a + b, now)
  {
    var list := a + b;
    forall i, j | 0 <= i < j < |list| ensures list[i] != list[j] {
      if i < |a| <= j { assert list[i] in mid && list[j] == b[j - |a|]; }
    }
    forall x | x in now ensures x in known + set i | 0 <= i < |list| :: list[i] {
      if x !in known {
        if i :| 0 <= i < |a| && a[i] == x { assert list[i] == x; }
        if i :| 0 <= i < |b| && b[i] == x { assert list[|a| + i] == x; }
      }
    }
  }

  lemma AddsOne(known: set<Null>, x: Null)
    requires x !in known
    ensures Adds(known, [x], known + {x})
  {
    assert [x][0] == x;
  }

  lemma {:induction false} TagsAdded(before: set<Null>, nulls: set<Null>, pool: Pool, hs: seq<Hash>)
    requires AddNullifiers(before, nulls, pool, hs).Ok?
    ensures Adds(nulls, Tags(pool, hs), AddNullifiers(before, nulls, pool, hs).value)
    decreases |hs|
  {
    hide Adds;
    AddsNone(nulls);
    if hs != [] {
      AddsOne(nulls, (pool, hs[0]));
      TagsAdded(before, nulls + {(pool, hs[0])}, pool, hs[1..]);
      AddsBoth(nulls, [(pool, hs[0])], nulls + {(pool, hs[0])}, Tags(pool, hs[1..]),
               AddNullifiers(before, nulls, pool, hs).value);
    }
  }

  lemma {:induction false} SproutAdded(env: Env, view: View, js: seq<JoinSplit>, nulls: set<Null>,
                                       inner: map<Hash, Bytes>, sprout: i64)
    requires JoinSplits(env, view, js, nulls, inner, sprout).Ok?
    ensures Adds(nulls, SproutShown(js), JoinSplits(env, view, js, nulls, inner, sprout).value.0)
    decreases |js|
  {
    hide Adds; hide AnchorTree; hide AppendAll; hide AddNullifiers;
    AddsNone(nulls);
    if js != [] {
      TagsAdded(view.nulls, nulls, Sprout, js[0].nullifiers);
      var mid := AddNullifiers(view.nulls, nulls, Sprout, js[0].nullifiers).value;
      var base := AnchorTree(env, view, inner, js[0].anchor).value;
      var grown := AppendAll(env, Sprout, base, js[0].commitments).value;
      SproutAdded(env, view, js[1..], mid, inner[env.root(Sprout, grown) := grown],
                  sprout + js[0].vpubOld - js[0].vpubNew);
      AddsBoth(nulls, Tags(Sprout, js[0].nullifiers), mid, SproutShown(js[1..]),
               JoinSplits(env, view, js, nulls, inner, sprout).value.0);
    }
  }

  lemma {:induction false} SaplingAdded(env: Env, view: View, spends: seq<ShieldedSpend>, nulls: set<Null>)
    requires Spends(env, view, spends, nulls).Ok?
    ensures Adds(nulls, SaplingShown(spends), Spends(env, view, spends, nulls).value)
    decreases |spends|
  {
    hide Adds; hide AddNullifiers;
    AddsNone(nulls);
    if spends != [] {
      TagsAdded(view.nulls, nulls, Sapling, [spends[0].nullifier]);
      var mid := AddNullifiers(view.nulls, nulls, Sapling, [spends[0].nullifier]).value;
      assert Tags(Sapling, [spends[0].nullifier]) == [(Sapling, spends[0].nullifier)];
      SaplingAdded(env, view, spends[1..], mid);
      AddsBoth(nulls, [(Sapling, spends[0].nullifier)], mid, SaplingShown(spends[1..]),
               Spends(env, view, spends, nulls).value);
    }
  }

  lemma TxShows(env: Env, view: View, block: Block, h: u32, location: nat, j: nat, run: Run)
    requires j < |block.txs| && StepTx(env, view, block, h, location, j, run).Ok?
    ensures var tx := block.txs[j];
            Adds(run.nulls, SproutShown(tx.joinSplits) + SaplingShown(tx.spends),
                 StepTx(env, view, block, h, location, j, run).value.nulls)
  {
    hide StepTx; hide CheckNode; hide OutputsInRange; hide ShieldedInRange; hide SpendTx; hide GrowTrees;
    hide NodeWrite; hide SpendInputs; hide OutputsOps; hide Apply; hide ValueOut; hide ShieldedIn; hide SumOut;
    hide Adds; hide JoinSplits; hide Spends; hide SproutShown; hide SaplingShown;
    var tx := block.txs[j];
    var g := StepTxStages(env, view, block, h, location, j, run);
    SpendTxParts(env, h, j, tx, g.checked);
    if j != 0 { SpendInputsFrame(env, h, j, tx, |tx.vin|, g.checked); }
    TreesFrame(env, tx, g.noded);
    SproutAdded(env, view, tx.joinSplits, run.nulls, map[], run.totals.sprout);
    var mid := JoinSplits(env, view, tx.joinSplits, run.nulls, map[], run.totals.sprout).value.0;
    SaplingAdded(env, view, tx.spends, mid);
    AddsBoth(run.nulls, SproutShown(tx.joinSplits), mid, SaplingShown(tx.spends), g.checked.nulls);
  }

  lemma {:induction false} TxsShow(env: Env, view: View, block: Block, h: u32, location: nat, n: nat)
    requires n <= |block.txs| && StepTxs(env, view, block, h, location, n).Ok?
    ensures Adds(view.nulls, BlockShown(block, n), StepTxs(env, view, block, h, location, n).value.nulls)
  {
    hide StepTx; hide Adds; hide SproutShown; hide SaplingShown;
    AddsNone(view.nulls);
    if n > 0 {
      TxsShow(env, view, block, h, location, n - 1);
      var run, tx := StepTxs(env, view, block, h, location, n - 1).value, block.txs[n - 1];
      TxShows(env, view, block, h, location, n - 1, run);
      AddsBoth(view.nulls, BlockShown(block, n - 1), run.nulls, SproutShown(tx.joinSplits) + SaplingShown(tx.spends),
               StepTxs(env, view, block, h, location, n).value.nulls);
    }
  }

  /** No nullifier is shown twice on a chain, and the chain state knows exactly those shown. */
  lemma {:induction false} NullifiersOnce(env: Env, links: Links)
    requires Replay(env, links).Ok?
    ensures Adds({}, ChainShown(links), Replay(env, links).value.nulls)
    decreases |links|
  {
    hide ConnectView; hide StepTxs; hide Adds; hide BlockShown; hide PayNodes; hide NewAnchors; hide NewTree;
    hide ValueOut; hide NewStats; hide NewPools;
    AddsNone({});
    if links != [] {
      var n := |links| - 1;
      NullifiersOnce(env, links[..n]);
      var link, before := links[n], Replay(env, links[..n]).value;
      var run, nodes, t := ConnectedRun(env, before, link.block, n, link.location, link.paid);
      TxsShow(env, before, link.block, n, link.location, |link.block.txs|);
      AddsBoth({}, ChainShown(links[..n]), before.nulls, BlockShown(link.block, |link.block.txs|), run.nulls);
    }
  }

  // ---- commitment trees ----

  /** The note commitments of the first `n` transactions of a block, in order. */
  function JoinSplitNotes(js: seq<JoinSplit>, n: nat): (hs: seq<Hash>)
    requires n <= |js|
  {
    if n == 0 then [] else JoinSplitNotes(js, n - 1) + js[n - 1].commitments
  }

  function Notes(pool: Pool, block: Block, n: nat): (hs: seq<Hash>)
    requires n <= |block.txs|
  {
    if n == 0 then []
    else
      var tx := block.txs[n - 1];
      Notes(pool, block, n - 1) + if pool == Sprout then JoinSplitNotes(tx.joinSplits, |tx.joinSplits|) else tx.outputs
  }

  lemma {:induction false} CommitmentsAre(js: seq<JoinSplit>, n: nat)
    requires n <= |js|
    ensures Commitments(js) == JoinSplitNotes(js, n) + Commitments(js[n..])
  {
    if n == 0 {
      assert js[0..] == js;
    } else {
      CommitmentsAre(js, n - 1);
      assert js[n - 1..][0] == js[n - 1] && js[n - 1..][1..] == js[n..];
    }
  }

  lemma {:induction false} AppendBoth(env: Env, pool: Pool, tree: Bytes, a: seq<Hash>, b: seq<Hash>)
    requires AppendAll(env, pool, tree, a).Ok?
    ensures AppendAll(env, pool, tree, a + b) == AppendAll(env, pool, AppendAll(env, pool, tree, a).value, b)
    decreases |a|
  {
    if a == [] {
      assert a + b == b;
    } else {
      assert (a + b)[0] == a[0] && (a + b)[1..] == a[1..] + b;
      AppendBoth(env, pool, env.append(pool, tree, a[0]).value, a[1..], b);
    }
  }

  /** The tree of a pool part way through a block. */
  function TreeOf(pool: Pool, run: Run): (t: Bytes) { if pool == Sprout then run.sproutTree else run.saplingTree }

  lemma TxGrows(env: Env, view: View, block: Block, h: u32, location: nat, j: nat, run: Run, pool: Pool)
    requires j < |block.txs| && StepTx(env, view, block, h, location, j, run).Ok?
    ensures var tx := block.txs[j];
            AppendAll(env, pool, TreeOf(pool, run),
                      if pool == Sprout then JoinSplitNotes(tx.joinSplits, |tx.joinSplits|) else tx.outputs)
            == Ok(TreeOf(pool, StepTx(env, view, block, h, location, j, run).value))
  {
    hide StepTx; hide CheckNode; hide OutputsInRange; hide ShieldedInRange; hide SpendTx; hide NodeWrite;
    hide SpendInputs; hide OutputsOps; hide Apply; hide ValueOut; hide ShieldedIn; hide SumOut; hide AppendAll;
    hide CheckShielded; hide JoinSplitNotes;
    var tx := block.txs[j];
    var g := StepTxStages(env, view, block, h, location, j, run);
    ShieldedFrame(env, view, tx, run);
    SpendTxParts(env, h, j, tx, g.checked);
    if j != 0 { SpendInputsFrame(env, h, j, tx, |tx.vin|, g.checked); }
    CommitmentsAre(tx.joinSplits, |tx.joinSplits|);
    assert Commitments(tx.joinSplits) == JoinSplitNotes(tx.joinSplits, |tx.joinSplits|);
  }

  lemma {:induction false} TxsGrow(env: Env, view: View, block: Block, h: u32, location: nat, n: nat, pool: Pool)
    requires n <= |block.txs| && StepTxs(env, view, block, h, location, n).Ok?
    ensures AppendAll(env, pool, if pool == Sprout then view.sproutTree else view.saplingTree, Notes(pool, block, n))
            == Ok(TreeOf(pool, StepTxs(env, view, block, h, location, n).value))
  {
    hide StepTx; hide AppendAll; hide JoinSplitNotes;
    var start := if pool == Sprout then view.sproutTree else view.saplingTree;
    if n == 0 {
      AppendNone(env, pool, start);
    } else {
      TxsGrow(env, view, block, h, location, n - 1, pool);
      var tx := block.txs[n - 1];
      TxGrows(env, view, block, h, location, n - 1, StepTxs(env, view, block, h, location, n - 1).value, pool);
      AppendBoth(env, pool, start, Notes(pool, block, n - 1),
                 if pool == Sprout then JoinSplitNotes(tx.joinSplits, |tx.joinSplits|) else tx.outputs);
    }
  }

  lemma AppendNone(env: Env, pool: Pool, tree: Bytes)
    ensures AppendAll(env, pool, tree, []) == Ok(tree)
  {
  }

  /** A block leaves each pool's tree with all its notes appended in order, up to trees of one root. */
  lemma TreesGrow(env: Env, view: View, block: Block, h: u32, location: nat, paid: seq<OutPoint>)
    requires block.txs != [] && ConnectView(env, view, block, h, location, paid).Ok?
    ensures var after := ConnectView(env, view, block, h, location, paid).value.view;
            var sprout := AppendAll(env, Sprout, view.sproutTree, Notes(Sprout, block, |block.txs|));
            var sapling := AppendAll(env, Sapling, view.saplingTree, Notes(Sapling, block, |block.txs|));
            && sprout.Ok? && sapling.Ok?
            && env.root(Sprout, after.sproutTree) == env.root(Sprout, sprout.value)
            && env.root(Sapling, after.saplingTree) == env.root(Sapling, sapling.value)
            && after.sproutTree in {view.sproutTree, sprout.value}
            && after.saplingTree in {view.saplingTree, sapling.value}
  {
    hide ConnectView; hide StepTxs; hide PayNodes; hide NewAnchors; hide ValueOut; hide NewStats; hide NewPools;
    hide AppendAll; hide Notes;
    var run, nodes, t := ConnectedRun(env, view, block, h, location, paid);
    TxsGrow(env, view, block, h, location, |block.txs|, Sprout);
    TxsGrow(env, view, block, h, location, |block.txs|, Sapling);
  }
}
