/** When a block's rows are new, and why disconnecting the block then undoes connecting it. */
module Room {
  import opened Basics
  import opened Undo
  import opened Ledger
  import opened Chain
  import opened Sequential
  import opened Reversal

  // ---- room for a block's rows ----

  /** Transaction `m` of the block makes the outpoint. */
  predicate MadeBy(block: Block, m: int, o: OutPoint) {
    0 <= m < |block.txs| && o.hash == block.txs[m].id && o.index < |block.txs[m].vout|
  }

  /** Input `x` of transaction `k` spends the outpoint; the first transaction spends nothing. */
  predicate SpendsAt(block: Block, k: int, x: int, o: OutPoint) {
    0 < k < |block.txs| && 0 <= x < |block.txs[k].vin| && block.txs[k].vin[x].prevout == o
  }

  /** Input `x` of transaction `k` is not before input `i` of transaction `j`. */
  predicate NotBefore(j: int, i: int, k: int, x: int) { k > j || (k == j && x >= i) }

  /** An input from `(j, i)` to the end of transaction `m` spends the outpoint. */
  ghost predicate SpentFrom(block: Block, j: int, i: int, m: int, o: OutPoint) {
    exists k, x :: SpendsAt(block, k, x, o) && NotBefore(j, i, k, x) && k <= m
  }

  /** The block spends no outpoint twice. */
  ghost predicate DistinctSpends(block: Block) {
    forall k, x, l, y, o :: SpendsAt(block, k, x, o) && SpendsAt(block, l, y, o) ==> k == l && x == y
  }

  /** Address rows of outpoints still to be made belong to their stored coins. */
  ghost predicate AddressRoom(env: Env, s: Store, block: Block, j: nat) {
    forall a, o, m :: AddrOut(a, o) in s && j <= m && MadeBy(block, m, o) ==>
      Utxo(o) in s && s[Utxo(o)].Coin? && AddressOf(env, s[Utxo(o)].entry.script) == Some(a)
  }

  /** No remaining transaction has its index row, if there is an index. */
  ghost predicate IndexRoom(env: Env, s: Store, block: Block, j: nat) {
    env.options.indexTx ==> forall m :: j <= m < |block.txs| ==> TxAt(block.txs[m].id) !in s
  }

  /** The only address rows of this height and of remaining transactions are debits of inputs before `(j, i)`. */
  ghost predicate DeltaRoom(s: Store, block: Block, h: nat, j: nat, i: nat) {
    forall k, m :: k in s && k.Delta? && k.height == h && j <= m < |block.txs| && k.txid == block.txs[m].id ==>
      m == j && k.spending && k.index < i
  }

  /** A remaining input whose spent row is there already has no coin, now or when its turn comes. */
  ghost predicate SpentRoom(env: Env, s: Store, block: Block, j: nat, i: nat) {
    env.options.indexSpent ==> forall k, x, o :: SpendsAt(block, k, x, o) && NotBefore(j, i, k, x) && Spent(o) in s ==>
      Utxo(o) !in s && forall m :: j <= m < k ==> !MadeBy(block, m, o)
  }

  /** A stored coin of an outpoint still to be made is spent before it is made again, and not after. */
  ghost predicate CoinRoom(s: Store, block: Block, j: nat, i: nat) {
    forall m, o :: j <= m && MadeBy(block, m, o) && Utxo(o) in s ==>
      SpentFrom(block, j, i, m, o) && forall k, x :: SpendsAt(block, k, x, o) ==> k <= m
  }

  /** Before input `i` of transaction `j`: no row the rest of the block writes is there already, but
      for coins that it spends before it makes them again. */
  ghost predicate Roomy(env: Env, s: Store, block: Block, h: nat, j: nat, i: nat) {
    && Held(env, s) && AddressRoom(env, s, block, j) && IndexRoom(env, s, block, j) && DeltaRoom(s, block, h, j, i)
    && SpentRoom(env, s, block, j, i) && CoinRoom(s, block, j, i)
  }

  lemma RoomyHeld(env: Env, s: Store, block: Block, h: nat, j: nat, i: nat)
    requires Roomy(env, s, block, h, j, i)
    ensures Held(env, s)
  {
  }

  /** New ids leave room. */
  lemma NewIsRoomy(env: Env, s: Store, block: Block, h: nat)
    requires Coins(env, s) && NewIds(s, block.txs, 0)
    ensures Roomy(env, s, block, h, 0, 0)
  {
    hide AddressOf; hide MoneyRange;
    CoinsHeld(env, s);
    assert forall m: nat, k :: m < |block.txs| && k in s ==> !Mentions(k, block.txs[m].id) by {
      forall m: nat, k | m < |block.txs| && k in s ensures !Mentions(k, block.txs[m].id) {
        assert Unknown(s, block.txs[m].id);
      }
    }
    forall o | Utxo(o) in s ensures Spent(o) !in s { assert CoinRow(env, s, o); }
  }

  /** An input with room can be undone. */
  lemma InputHasRoom(env: Env, s: Store, block: Block, h: nat, j: nat, i: nat)
    requires 0 < j < |block.txs| && i < |block.txs[j].vin| && Roomy(env, s, block, h, j, i)
    requires Utxo(block.txs[j].vin[i].prevout) in s
    ensures var o := block.txs[j].vin[i].prevout;
            var a := AddressOf(env, s[Utxo(o)].entry.script);
            && CoinHeld(env, s, o) && (env.options.indexSpent ==> Spent(o) !in s)
            && (a.Some? ==> Delta(a.value, h, j, block.txs[j].id, i, true) !in s)
  {
    hide AddressOf; hide MoneyRange; hide AddressRoom; hide IndexRoom; hide CoinRoom;
    var o := block.txs[j].vin[i].prevout;
    assert CoinHeld(env, s, o) && SpendsAt(block, j, i, o);
  }

  /** Spending leaves room for the rest. */
  lemma InputRoomy(env: Env, s: Store, block: Block, h: nat, j: nat, i: nat)
    requires 0 < j < |block.txs| && i < |block.txs[j].vin| && Roomy(env, s, block, h, j, i) && DistinctIds(block.txs)
    requires Utxo(block.txs[j].vin[i].prevout) in s
    ensures var e := s[Utxo(block.txs[j].vin[i].prevout)].entry;
            Roomy(env, Apply(s, InputOps(env, h, j, block.txs[j], i, e)), block, h, j, i + 1)
  {
    hide AddressOf; hide MoneyRange; hide SpentRow; hide InputOps; hide Apply; hide Held; hide AddressRoom;
    hide DeltaRoom; hide SpentRoom; hide CoinRoom; hide DistinctIds;
    InputHasRoom(env, s, block, h, j, i);
    var e := s[Utxo(block.txs[j].vin[i].prevout)].entry;
    InputHeld(env, s, h, j, block.txs[j], i);
    InputApplied(env, s, h, j, block.txs[j], i, e);
    InputAddressRoom(env, s, block, h, j, i, e);
    InputDeltaRoom(env, s, block, h, j, i, e);
    InputSpentRoom(env, s, block, h, j, i, e);
    InputCoinRoom(env, s, block, h, j, i, e);
  }

  lemma InputAddressRoom(env: Env, s: Store, block: Block, h: nat, j: nat, i: nat, e: UtxoEntry)
    requires j < |block.txs| && i < |block.txs[j].vin| && AddressRoom(env, s, block, j)
    requires Utxo(block.txs[j].vin[i].prevout) in s && s[Utxo(block.txs[j].vin[i].prevout)] == Coin(e)
    ensures AddressRoom(env, InputResult(env, s, h, j, block.txs[j], i, e), block, j)
  {
    hide AddressOf; hide SpentRow;
  }

  lemma InputDeltaRoom(env: Env, s: Store, block: Block, h: nat, j: nat, i: nat, e: UtxoEntry)
    requires j < |block.txs| && i < |block.txs[j].vin| && DeltaRoom(s, block, h, j, i) && DistinctIds(block.txs)
    ensures DeltaRoom(InputResult(env, s, h, j, block.txs[j], i, e), block, h, j, i + 1)
  {
    hide AddressOf; hide SpentRow;
  }

  lemma InputSpentRoom(env: Env, s: Store, block: Block, h: nat, j: nat, i: nat, e: UtxoEntry)
    requires 0 < j < |block.txs| && i < |block.txs[j].vin| && SpentRoom(env, s, block, j, i) && CoinRoom(s, block, j, i)
    requires Utxo(block.txs[j].vin[i].prevout) in s
    ensures SpentRoom(env, InputResult(env, s, h, j, block.txs[j], i, e), block, j, i + 1)
  {
    hide AddressOf; hide SpentRow;
  }

  lemma InputCoinRoom(env: Env, s: Store, block: Block, h: nat, j: nat, i: nat, e: UtxoEntry)
    requires 0 < j < |block.txs| && i < |block.txs[j].vin| && CoinRoom(s, block, j, i)
    ensures CoinRoom(InputResult(env, s, h, j, block.txs[j], i, e), block, j, i + 1)
  {
    hide AddressOf; hide SpentRow;
    var t := InputResult(env, s, h, j, block.txs[j], i, e);
    forall m, o | j <= m && MadeBy(block, m, o) && Utxo(o) in t ensures SpentFrom(block, j, i + 1, m, o) {
      assert Utxo(o) in s && o != block.txs[j].vin[i].prevout;
      assert SpentFrom(block, j, i, m, o);
    }
  }

  lemma {:induction false} InputsRoomy(env: Env, block: Block, h: nat, j: nat, n: nat, run: Run)
    requires 0 < j < |block.txs| && n <= |block.txs[j].vin| && DistinctIds(block.txs)
    requires SpendInputs(env, h, j, block.txs[j], n, run).Ok? && Roomy(env, run.ledger, block, h, j, 0)
    ensures Roomy(env, SpendInputs(env, h, j, block.txs[j], n, run).value.0.ledger, block, h, j, n)
  {
    hide SpendInput; hide InputOps; hide Apply; hide Roomy; hide DistinctIds;
    if n > 0 {
      InputsRoomy(env, block, h, j, n - 1, run);
      var before := SpendInputs(env, h, j, block.txs[j], n - 1, run).value;
      SpendInputEffect(env, h, j, block.txs[j], n - 1, before.0, before.1);
      InputRoomy(env, before.0.ledger, block, h, j, n - 1);
    }
  }

  // ---- the rows a transaction creates ----

  /** After its inputs, none of a transaction's own rows is there. */
  lemma CreditsAreNew(env: Env, s: Store, block: Block, h: u32, j: nat, location: nat)
    requires j < |block.txs| && Roomy(env, s, block, h, j, |block.txs[j].vin|)
    ensures s.Keys !! Keys(CreditOps(env, h, j, block.txs[j], location))
  {
    hide AddressOf; hide MoneyRange; hide CreditOps; hide Keys; hide SpentRoom; hide Held;
    CreditKeys(env, h, j, block.txs[j], location);
    forall k | k in Keys(CreditOps(env, h, j, block.txs[j], location)) ensures k !in s {
      if k.Utxo? || k.AddrOut? {
        assert MadeBy(block, j, k.o);
        NotYetMade(s, block, j, k.o);
      }
    }
  }

  lemma NotYetMade(s: Store, block: Block, j: nat, o: OutPoint)
    requires j < |block.txs| && MadeBy(block, j, o) && CoinRoom(s, block, j, |block.txs[j].vin|)
    ensures Utxo(o) !in s
  {
  }

  /** An index row or an output's row of the transaction. */
  predicate RowOf(k: Key, tx: Tx, h: nat) { if k.TxAt? then k.txid == tx.id else IsOutputRow(k, tx.id, h, |tx.vout|) }

  /** Credits change no row but the transaction's own. */
  lemma CreditsFrame(env: Env, s: Store, h: u32, j: nat, tx: Tx, location: nat, k: Key)
    requires !RowOf(k, tx, h)
    ensures var t := Apply(s, CreditOps(env, h, j, tx, location)); (k in t <==> k in s) && (k in s ==> t[k] == s[k])
  {
    hide CreditOps; hide Keys; hide Apply;
    CreditKeys(env, h, j, tx, location);
    ApplyFrame(s, CreditOps(env, h, j, tx, location), k);
  }

  lemma OutputHeld(env: Env, s: Store, h: u32, j: nat, tx: Tx, i: nat)
    requires i < |tx.vout| && MoneyRange(tx.vout[i].value) && Held(env, s)
    ensures Held(env, Apply(s, OutputOps(env, h, j, tx, i)))
  {
    OutputApplied(env, s, h, j, tx, i);
    hide AddressOf; hide Apply; hide OutputOps; hide MoneyRange;
    var t := Apply(s, OutputOps(env, h, j, tx, i));
    forall p | Utxo(p) in t ensures CoinHeld(env, t, p) {
      if p != OutPoint(tx.id, i) { assert CoinHeld(env, s, p); }
    }
  }

  lemma {:induction false} OutputsHeld(env: Env, s: Store, h: u32, j: nat, tx: Tx, n: nat)
    requires n <= |tx.vout| && Held(env, s) && forall i :: 0 <= i < |tx.vout| ==> MoneyRange(tx.vout[i].value)
    ensures Held(env, Apply(s, OutputsOps(env, h, j, tx, n)))
  {
    hide OutputOps; hide Held; hide MoneyRange;
    if n > 0 {
      OutputsHeld(env, s, h, j, tx, n - 1);
      ApplyConcat(s, OutputsOps(env, h, j, tx, n - 1), OutputOps(env, h, j, tx, n - 1));
      OutputHeld(env, Apply(s, OutputsOps(env, h, j, tx, n - 1)), h, j, tx, n - 1);
    }
  }

  lemma CreditsHeld(env: Env, s: Store, h: u32, j: nat, tx: Tx, location: nat)
    requires Held(env, s) && forall i :: 0 <= i < |tx.vout| ==> MoneyRange(tx.vout[i].value)
    ensures Held(env, Apply(s, CreditOps(env, h, j, tx, location)))
  {
    hide OutputsOps; hide AddressOf; hide MoneyRange; hide Held;
    OutputsHeld(env, s, h, j, tx, |tx.vout|);
    var u := Apply(s, OutputsOps(env, h, j, tx, |tx.vout|));
    ApplyConcat(s, OutputsOps(env, h, j, tx, |tx.vout|), TxRowOps(env, j, tx, location));
    if env.options.indexTx {
      ApplyOne(u, Put(TxAt(tx.id), Location(location, j)));
      RowHeld(env, u, tx.id, Location(location, j));
    }
  }

  lemma RowHeld(env: Env, s: Store, id: Hash, v: Value)
    requires Held(env, s)
    ensures Held(env, s[TxAt(id) := v])
  {
    hide AddressOf; hide MoneyRange;
    forall o | Utxo(o) in s[TxAt(id) := v] ensures CoinHeld(env, s[TxAt(id) := v], o) { assert CoinHeld(env, s, o); }
  }

  /** Creating leaves room for the next transaction. */
  lemma CreditsRoomy(env: Env, s: Store, block: Block, h: u32, j: nat, location: nat)
    requires j < |block.txs| && Roomy(env, s, block, h, j, |block.txs[j].vin|) && DistinctIds(block.txs)
    requires forall i :: 0 <= i < |block.txs[j].vout| ==> MoneyRange(block.txs[j].vout[i].value)
    ensures Roomy(env, Apply(s, CreditOps(env, h, j, block.txs[j], location)), block, h, j + 1, 0)
  {
    hide AddressOf; hide MoneyRange; hide CreditOps; hide Apply; hide Held; hide AddressRoom; hide IndexRoom;
    hide DeltaRoom; hide SpentRoom; hide CoinRoom; hide DistinctIds;
    var t := Apply(s, CreditOps(env, h, j, block.txs[j], location));
    CreditsHeld(env, s, h, j, block.txs[j], location);
    forall k | !RowOf(k, block.txs[j], h)
      ensures (k in t <==> k in s) && (k in s ==> t[k] == s[k])
    {
      CreditsFrame(env, s, h, j, block.txs[j], location, k);
    }
    RoomKept(env, s, t, block, h, j);
    SpentRoomKept(env, s, t, block, h, j);
    CoinRoomKept(s, t, block, h, j);
  }

  /** `t` differs from `s` in rows of transaction `j` only. */
  ghost predicate OnlyOwn(s: Store, t: Store, block: Block, h: nat, j: nat)
    requires j < |block.txs|
  {
    forall k :: !RowOf(k, block.txs[j], h) ==>
      (k in t <==> k in s) && (k in s ==> t[k] == s[k])
  }

  lemma RoomKept(env: Env, s: Store, t: Store, block: Block, h: nat, j: nat)
    requires j < |block.txs| && OnlyOwn(s, t, block, h, j) && DistinctIds(block.txs)
    requires AddressRoom(env, s, block, j) && IndexRoom(env, s, block, j)
             && DeltaRoom(s, block, h, j, |block.txs[j].vin|)
    ensures AddressRoom(env, t, block, j + 1) && IndexRoom(env, t, block, j + 1) && DeltaRoom(t, block, h, j + 1, 0)
  {
    hide AddressOf;
    forall a, o, m | AddrOut(a, o) in t && j + 1 <= m && MadeBy(block, m, o)
      ensures Utxo(o) in t && t[Utxo(o)].Coin? && AddressOf(env, t[Utxo(o)].entry.script) == Some(a)
    {
      assert o.hash != block.txs[j].id;
      assert AddrOut(a, o) in s;
    }
    forall k | k in t && k.Delta? && k.height == h && k.txid != block.txs[j].id ensures k in s {
      assert !RowOf(k, block.txs[j], h);
    }
  }

  lemma SpentRoomKept(env: Env, s: Store, t: Store, block: Block, h: nat, j: nat)
    requires j < |block.txs| && OnlyOwn(s, t, block, h, j) && SpentRoom(env, s, block, j, |block.txs[j].vin|)
    ensures SpentRoom(env, t, block, j + 1, 0)
  {
    if env.options.indexSpent {
      forall k, x, o | SpendsAt(block, k, x, o) && NotBefore(j + 1, 0, k, x) && Spent(o) in t
        ensures Utxo(o) !in t && forall m :: j + 1 <= m < k ==> !MadeBy(block, m, o)
      {
        assert Spent(o) in s;
        assert !MadeBy(block, j, o);
      }
    }
  }

  lemma CoinRoomKept(s: Store, t: Store, block: Block, h: nat, j: nat)
    requires j < |block.txs| && OnlyOwn(s, t, block, h, j) && CoinRoom(s, block, j, |block.txs[j].vin|)
    requires DistinctIds(block.txs)
    ensures CoinRoom(t, block, j + 1, 0)
  {
    forall m, o | j + 1 <= m && MadeBy(block, m, o) && Utxo(o) in t
      ensures SpentFrom(block, j + 1, 0, m, o) && forall k, x :: SpendsAt(block, k, x, o) ==> k <= m
    {
      assert o.hash != block.txs[j].id;
      assert Utxo(o) in s;
      var k, x :| SpendsAt(block, k, x, o) && NotBefore(j, |block.txs[j].vin|, k, x) && k <= m;
      assert NotBefore(j + 1, 0, k, x);
    }
  }

  // ---- one transaction ----

  /** The first transaction spends nothing. */
  lemma SkipInputs(env: Env, s: Store, block: Block, h: nat)
    requires block.txs != [] && Roomy(env, s, block, h, 0, 0)
    ensures Roomy(env, s, block, h, 0, |block.txs[0].vin|)
  {
    hide AddressOf; hide MoneyRange; hide AddressRoom; hide IndexRoom; hide Held;
    var n := |block.txs[0].vin|;
    forall m, o | 0 <= m && MadeBy(block, m, o) && Utxo(o) in s ensures SpentFrom(block, 0, n, m, o) {
      assert SpentFrom(block, 0, 0, m, o);
    }
  }

  lemma SpendRoomy(env: Env, block: Block, h: nat, j: nat, run: Run)
    requires j < |block.txs| && SpendTx(env, h, j, block.txs[j], run).Ok? && DistinctIds(block.txs)
    requires Roomy(env, run.ledger, block, h, j, 0)
    ensures Roomy(env, SpendTx(env, h, j, block.txs[j], run).value.ledger, block, h, j, |block.txs[j].vin|)
  {
    hide SpendTx; hide SpendInputs; hide Roomy; hide ValueOut; hide ShieldedIn; hide DistinctIds;
    SpendTxParts(env, h, j, block.txs[j], run);
    if j == 0 {
      SkipInputs(env, run.ledger, block, h);
    } else {
      InputsRoomy(env, block, h, j, |block.txs[j].vin|, run);
    }
  }

  /** An accepted transaction leaves room for the rest of the block. */
  lemma TxRoomy(env: Env, view: View, block: Block, h: u32, location: nat, j: nat, run: Run, g: Stages, after: Run)
    requires j < |block.txs| && IsStages(env, view, block, h, location, j, run, after, g) && DistinctIds(block.txs)
    requires Roomy(env, run.ledger, block, h, j, 0)
    ensures Roomy(env, after.ledger, block, h, j + 1, 0)
    ensures Roomy(env, g.paid.ledger, block, h, j, |block.txs[j].vin|)
  {
    hide IsStages; hide Roomy; hide SpendTx; hide ApplyNode; hide MoneyRange; hide Apply; hide CreditOps;
    hide DistinctIds; hide Held;
    StageFacts(env, view, block, h, location, j, run, g, after);
    RoomyHeld(env, run.ledger, block, h, j, 0);
    TxTotals(env, view, block, h, location, j, run, g, after);
    SpendRoomy(env, block, h, j, g.checked);
    CreditsRoomy(env, g.paid.ledger, block, h, j, location);
  }

  lemma TxHeld(env: Env, view: View, block: Block, h: u32, location: nat, j: nat, run: Run, g: Stages, after: Run)
    requires j < |block.txs| && IsStages(env, view, block, h, location, j, run, after, g) && Held(env, run.ledger)
    ensures Held(env, after.ledger)
  {
    hide IsStages; hide SpendTx; hide ApplyNode; hide MoneyRange; hide Apply; hide CreditOps; hide Held;
    StageFacts(env, view, block, h, location, j, run, g, after);
    TxTotals(env, view, block, h, location, j, run, g, after);
    SpendTxHeld(env, h, j, block.txs[j], g.checked);
    CreditsHeld(env, g.paid.ledger, h, j, block.txs[j], location);
  }

  lemma {:induction false} TxsHeld(env: Env, view: View, block: Block, h: u32, location: nat, n: nat)
    requires n <= |block.txs| && StepTxs(env, view, block, h, location, n).Ok? && Held(env, view.ledger)
    ensures var run := StepTxs(env, view, block, h, location, n).value;
            Held(env, run.ledger) && run.totals.valueSpent >= 0 && run.totals.valueCreated >= 0
  {
    hide StepTx; hide Held; hide IsStages; hide SumOut;
    if n > 0 {
      TxsHeld(env, view, block, h, location, n - 1);
      var run := StepTxs(env, view, block, h, location, n - 1).value;
      var g := StepTxStages(env, view, block, h, location, n - 1, run);
      var after := StepTxs(env, view, block, h, location, n).value;
      TxTotals(env, view, block, h, location, n - 1, run, g, after);
      SumOutNonNegative(env, view, block, h, location, n - 1, run, g, after);
      TxHeld(env, view, block, h, location, n - 1, run, g, after);
    }
  }

  // ---- undoing an accepted transaction ----

  /** The undo state that stands for a run: its tables, and how much has been put back. */
  predicate Matches(st: UndoState, run: Run) {
    && st.ledger == run.ledger && st.nodes == run.nodes
    && st.spent == run.spent && st.nodeUndo == run.nodeUndo
  }

  /** The state after undoing back to `run`. */
  function Back(st: UndoState, run: Run, restored: nat, valueRestored: i64, removed: nat,
                valueRemoved: i64): (r: UndoState) {
    UndoState(run.ledger, run.nodes, run.spent, run.nodeUndo, restored, valueRestored, removed, valueRemoved)
  }

  lemma InputUndone(env: Env, block: Block, h: nat, j: nat, i: nat, run: Run, paidIn: i64, st: UndoState)
    requires 0 < j < |block.txs| && i < |block.txs[j].vin|
    requires SpendInput(env, h, j, block.txs[j], i, run, paidIn).Ok? && Roomy(env, run.ledger, block, h, j, i)
    requires var after := SpendInput(env, h, j, block.txs[j], i, run, paidIn).value.0;
             && st.ledger == after.ledger && st.spent == after.spent
             && st.valueRestored >= 0
             && st.valueRestored + (after.totals.valueSpent - run.totals.valueSpent) <= I64_MAX
    ensures var after := SpendInput(env, h, j, block.txs[j], i, run, paidIn).value.0;
            && after.totals.valueSpent >= run.totals.valueSpent
            && UndoInput(env, h, j, block.txs[j], i, st) == Ok(st.(
                 ledger := run.ledger, spent := run.spent, restored := st.restored + 1,
                 valueRestored := st.valueRestored + (after.totals.valueSpent - run.totals.valueSpent)))
  {
    SpendInputEffect(env, h, j, block.txs[j], i, run, paidIn);
    hide SpendInput; hide InputOps; hide UndoInputOps; hide Apply; hide Roomy; hide AddressOf;
    var o := block.txs[j].vin[i].prevout;
    InputHasRoom(env, run.ledger, block, h, j, i);
    InputInverse(env, run.ledger, h, j, block.txs[j], i);
    var e := run.ledger[Utxo(o)].entry;
    assert (run.spent + [SpentOutput(o, e)])[..|run.spent|] == run.spent;
  }

  lemma {:induction false} InputsUndone(env: Env, block: Block, h: nat, j: nat, n: nat, run: Run, st: UndoState)
    requires 0 < j < |block.txs| && n <= |block.txs[j].vin| && DistinctIds(block.txs)
    requires SpendInputs(env, h, j, block.txs[j], n, run).Ok? && Roomy(env, run.ledger, block, h, j, 0)
    requires var after := SpendInputs(env, h, j, block.txs[j], n, run).value.0;
             && st.ledger == after.ledger && st.spent == after.spent
             && st.valueRestored >= 0
             && st.valueRestored + (after.totals.valueSpent - run.totals.valueSpent) <= I64_MAX
    ensures var after := SpendInputs(env, h, j, block.txs[j], n, run).value.0;
            && after.totals.valueSpent >= run.totals.valueSpent
            && UndoInputs(env, h, j, block.txs[j], n, st) == Ok(st.(
                 ledger := run.ledger, spent := run.spent, restored := st.restored + n,
                 valueRestored := st.valueRestored + (after.totals.valueSpent - run.totals.valueSpent)))
  {
    hide SpendInput; hide UndoInput; hide Roomy; hide Held; hide DistinctIds;
    if n > 0 {
      var before := SpendInputs(env, h, j, block.txs[j], n - 1, run).value;
      RoomyHeld(env, run.ledger, block, h, j, 0);
      InputsHeld(env, h, j, block.txs[j], n - 1, run);
      InputsRoomy(env, block, h, j, n - 1, run);
      InputUndone(env, block, h, j, n - 1, before.0, before.1, st);
      var next := UndoInput(env, h, j, block.txs[j], n - 1, st).value;
      InputsUndone(env, block, h, j, n - 1, run, next);
    }
  }

  /** Undoing the inputs of an accepted transaction. */
  lemma SpendTxUndone(env: Env, block: Block, h: nat, j: nat, run: Run, st: UndoState)
    requires j < |block.txs| && SpendTx(env, h, j, block.txs[j], run).Ok? && DistinctIds(block.txs)
    requires Roomy(env, run.ledger, block, h, j, 0)
    requires var paid := SpendTx(env, h, j, block.txs[j], run).value;
             && st.ledger == paid.ledger && st.spent == paid.spent
             && st.valueRestored >= 0
             && st.valueRestored + (paid.totals.valueSpent - run.totals.valueSpent) <= I64_MAX
    ensures var tx := block.txs[j];
            var paid := SpendTx(env, h, j, tx, run).value;
            && paid.totals.valueSpent >= run.totals.valueSpent
            && (if j == 0 then Ok(st) else UndoInputs(env, h, j, tx, |tx.vin|, st)) == Ok(st.(
              ledger := run.ledger, spent := run.spent, restored := st.restored + (if j == 0 then 0 else |tx.vin|),
              valueRestored := st.valueRestored + (paid.totals.valueSpent - run.totals.valueSpent)))
  {
    hide SpendTx; hide Roomy; hide SpendInputs; hide UndoInputs; hide ValueOut; hide ShieldedIn; hide DistinctIds;
    hide Held;
    SpendTxParts(env, h, j, block.txs[j], run);
    RoomyHeld(env, run.ledger, block, h, j, 0);
    SpendTxHeld(env, h, j, block.txs[j], run);
    if j != 0 { InputsUndone(env, block, h, j, |block.txs[j].vin|, run, st); }
  }

  /** Deleting an accepted transaction's outputs. */
  lemma TxCreditsUndone(env: Env, view: View, block: Block, h: u32, location: nat, j: nat, run: Run, g: Stages,
                        after: Run, removed: i64)
    requires j < |block.txs| && IsStages(env, view, block, h, location, j, run, after, g) && DistinctIds(block.txs)
    requires Roomy(env, run.ledger, block, h, j, 0)
    requires removed >= 0 && removed + SumOut(block.txs[j].vout) <= I64_MAX
    ensures var tx := block.txs[j];
            && SumOut(tx.vout) >= 0
            && RemoveValue(tx, |tx.vout|, removed) == Ok(removed + SumOut(tx.vout))
            && Apply(after.ledger, UndoCreditOps(env, h, j, tx)) == g.paid.ledger
  {
    hide IsStages; hide Roomy; hide Held; hide Apply; hide UndoCreditOps; hide CreditOps; hide Keys; hide DistinctIds;
    hide RemoveValue; hide SpendTx; hide ApplyNode; hide MoneyRange; hide SumOut;
    var tx := block.txs[j];
    StageFacts(env, view, block, h, location, j, run, g, after);
    RoomyHeld(env, run.ledger, block, h, j, 0);
    TxTotals(env, view, block, h, location, j, run, g, after);
    TxRoomy(env, view, block, h, location, j, run, g, after);
    CreditsAreNew(env, g.paid.ledger, block, h, j, location);
    CreditsUndone(env, g.paid.ledger, h, j, tx, location);
    assert tx.vout[..|tx.vout|] == tx.vout;
    SumOutBounds(tx.vout, |tx.vout|);
    RemoveValueOk(tx, |tx.vout|, removed);
  }

  /** Undoing an accepted transaction's inputs and its node record. */
  lemma TxDebitsUndone(env: Env, view: View, block: Block, h: u32, location: nat, j: nat, run: Run, g: Stages,
                       after: Run, st: UndoState)
    requires j < |block.txs| && IsStages(env, view, block, h, location, j, run, after, g) && DistinctIds(block.txs)
    requires Roomy(env, run.ledger, block, h, j, 0)
    requires Matches(st, after.(ledger := g.paid.ledger))
    requires st.valueRestored >= 0 && st.valueRestored + (after.totals.valueSpent - run.totals.valueSpent) <= I64_MAX
    ensures var tx := block.txs[j];
            && after.totals.valueSpent >= run.totals.valueSpent
            && after.totals.spentCount == run.totals.spentCount + (if j == 0 then 0 else |tx.vin|)
            && var debited := if j == 0 then Ok(st) else UndoInputs(env, h, j, tx, |tx.vin|, st);
               && debited.Ok?
               && UndoNode(tx, debited.value) == Ok(Back(st, run,
                    st.restored + (if j == 0 then 0 else |tx.vin|),
                    st.valueRestored + (after.totals.valueSpent - run.totals.valueSpent),
                    st.removed, st.valueRemoved))
  {
    hide IsStages; hide Roomy; hide Held; hide UndoInputs; hide UndoNode; hide SpendTx; hide ApplyNode;
    hide MoneyRange; hide Apply; hide CreditOps; hide DistinctIds;
    var tx := block.txs[j];
    StageFacts(env, view, block, h, location, j, run, g, after);
    RoomyHeld(env, run.ledger, block, h, j, 0);
    TxTotals(env, view, block, h, location, j, run, g, after);
    SpendTxUndone(env, block, h, j, g.checked, st);
    var debited := st.(ledger := run.ledger, spent := run.spent,
                       restored := st.restored + (if j == 0 then 0 else |tx.vin|),
                       valueRestored := st.valueRestored + (after.totals.valueSpent - run.totals.valueSpent));
    NodeUndone(tx.node, tx, h, g.meta, g.paid, debited);
  }

  /** Undoing an accepted transaction gives back the state before it, whatever was undone already. */
  lemma TxUndone(env: Env, view: View, block: Block, h: u32, location: nat, j: nat, run: Run, g: Stages, after: Run,
                 st: UndoState)
    requires j < |block.txs| && IsStages(env, view, block, h, location, j, run, after, g) && DistinctIds(block.txs)
    requires Roomy(env, run.ledger, block, h, j, 0)
    requires Matches(st, after)
    requires st.valueRestored >= 0 && st.valueRestored + (after.totals.valueSpent - run.totals.valueSpent) <= I64_MAX
    requires st.valueRemoved >= 0 && st.valueRemoved + SumOut(block.txs[j].vout) <= I64_MAX
    ensures var tx := block.txs[j];
            && after.totals.valueSpent >= run.totals.valueSpent && SumOut(tx.vout) >= 0
            && after.totals.spentCount == run.totals.spentCount + (if j == 0 then 0 else |tx.vin|)
            && UndoTx(env, h, j, tx, st) == Ok(Back(st, run,
                 st.restored + (if j == 0 then 0 else |tx.vin|),
                 st.valueRestored + (after.totals.valueSpent - run.totals.valueSpent),
                 st.removed + |tx.vout|, st.valueRemoved + SumOut(tx.vout)))
  {
    hide IsStages; hide Roomy; hide Apply; hide UndoCreditOps; hide UndoInputs; hide UndoNode;
    hide RemoveValue; hide SumOut; hide DistinctIds;
    var tx := block.txs[j];
    TxCreditsUndone(env, view, block, h, location, j, run, g, after, st.valueRemoved);
    var credited := st.(ledger := g.paid.ledger, removed := st.removed + |tx.vout|,
                        valueRemoved := st.valueRemoved + SumOut(tx.vout));
    TxDebitsUndone(env, view, block, h, location, j, run, g, after, credited);
  }

  // ---- undoing all transactions of a block ----

  lemma {:induction false} TxsRoomy(env: Env, view: View, block: Block, h: u32, location: nat, n: nat)
    requires n <= |block.txs| && StepTxs(env, view, block, h, location, n).Ok? && DistinctIds(block.txs)
    requires Roomy(env, view.ledger, block, h, 0, 0)
    ensures Roomy(env, StepTxs(env, view, block, h, location, n).value.ledger, block, h, n, 0)
  {
    hide StepTx; hide Roomy; hide IsStages; hide DistinctIds;
    if n > 0 {
      TxsRoomy(env, view, block, h, location, n - 1);
      var run := StepTxs(env, view, block, h, location, n - 1).value;
      var g := StepTxStages(env, view, block, h, location, n - 1, run);
      TxRoomy(env, view, block, h, location, n - 1, run, g, StepTxs(env, view, block, h, location, n).value);
    }
  }

  lemma UndoFirst(env: Env, block: Block, h: nat, n: nat, st: UndoState)
    requires 0 < n <= |block.txs| && UndoTx(env, h, n - 1, block.txs[n - 1], st).Ok?
    ensures UndoTxs(env, block, h, n, st)
            == UndoTxs(env, block, h, n - 1, UndoTx(env, h, n - 1, block.txs[n - 1], st).value)
  {
    hide UndoTx;
  }

  /** Undoing the transactions of a block that has room restores ledger, records and totals. */
  lemma {:induction false} TxsUndone(env: Env, view: View, block: Block, h: u32, location: nat, n: nat, st: UndoState)
    requires n <= |block.txs| && StepTxs(env, view, block, h, location, n).Ok? && DistinctIds(block.txs)
    requires Roomy(env, view.ledger, block, h, 0, 0)
    requires var run := StepTxs(env, view, block, h, location, n).value;
             && Matches(st, run)
             && st.valueRestored >= 0 && st.valueRestored + run.totals.valueSpent <= I64_MAX
             && st.valueRemoved >= 0 && st.valueRemoved + run.totals.valueCreated <= I64_MAX
    ensures var run := StepTxs(env, view, block, h, location, n).value;
            && run.totals.valueSpent >= 0 && run.totals.valueCreated >= 0
            && UndoTxs(env, block, h, n, st) == Ok(Back(st, StartRun(view),
                 st.restored + run.totals.spentCount, st.valueRestored + run.totals.valueSpent,
                 st.removed + run.totals.created, st.valueRemoved + run.totals.valueCreated))
  {
    hide StepTx; hide Roomy; hide Held; hide IsStages; hide SumOut; hide UndoTx; hide DistinctIds; hide Apply;
    hide CreditOps;
    RoomyHeld(env, view.ledger, block, h, 0, 0);
    TxsHeld(env, view, block, h, location, n);
    if n > 0 {
      hide UndoTxs;
      TxsHeld(env, view, block, h, location, n - 1);
      TxsRoomy(env, view, block, h, location, n - 1);
      var run := StepTxs(env, view, block, h, location, n - 1).value;
      var g := StepTxStages(env, view, block, h, location, n - 1, run);
      var after := StepTxs(env, view, block, h, location, n).value;
      TxTotals(env, view, block, h, location, n - 1, run, g, after);
      TxUndone(env, view, block, h, location, n - 1, run, g, after, st);
      var next := UndoTx(env, h, n - 1, block.txs[n - 1], st).value;
      UndoFirst(env, block, h, n, st);
      TxsUndone(env, view, block, h, location, n - 1, next);
    }
  }

  // ---- address rows ----

  /** An address row belongs to an unspent coin of that address. */
  ghost predicate AddressRows(env: Env, s: Store) {
    forall a, o :: AddrOut(a, o) in s ==>
      Utxo(o) in s && s[Utxo(o)].Coin? && AddressOf(env, s[Utxo(o)].entry.script) == Some(a)
  }

  lemma InputAddresses(env: Env, s: Store, h: nat, j: nat, tx: Tx, i: nat, e: UtxoEntry)
    requires i < |tx.vin| && AddressRows(env, s)
    requires Utxo(tx.vin[i].prevout) in s && s[Utxo(tx.vin[i].prevout)] == Coin(e)
    ensures AddressRows(env, InputResult(env, s, h, j, tx, i, e))
  {
    hide AddressOf; hide SpentRow;
    var t := InputResult(env, s, h, j, tx, i, e);
    forall a, o | AddrOut(a, o) in t
      ensures Utxo(o) in t && t[Utxo(o)].Coin? && AddressOf(env, t[Utxo(o)].entry.script) == Some(a)
    {
      assert AddrOut(a, o) in s;
    }
  }

  lemma OutputAddresses(env: Env, s: Store, h: u32, j: nat, tx: Tx, i: nat)
    requires i < |tx.vout| && AddressRows(env, s) && Utxo(OutPoint(tx.id, i)) !in s
    ensures AddressRows(env, OutputResult(env, s, h, j, tx, i))
  {
    hide AddressOf;
    var t := OutputResult(env, s, h, j, tx, i);
    forall a, o | AddrOut(a, o) in t
      ensures Utxo(o) in t && t[Utxo(o)].Coin? && AddressOf(env, t[Utxo(o)].entry.script) == Some(a)
    {
    }
  }

  lemma {:induction false} InputsAddresses(env: Env, h: nat, j: nat, tx: Tx, n: nat, run: Run)
    requires n <= |tx.vin| && SpendInputs(env, h, j, tx, n, run).Ok? && AddressRows(env, run.ledger)
    ensures AddressRows(env, SpendInputs(env, h, j, tx, n, run).value.0.ledger)
  {
    hide SpendInput; hide InputOps; hide Apply; hide AddressRows;
    if n > 0 {
      InputsAddresses(env, h, j, tx, n - 1, run);
      var before := SpendInputs(env, h, j, tx, n - 1, run).value;
      SpendInputEffect(env, h, j, tx, n - 1, before.0, before.1);
      var e := before.0.ledger[Utxo(tx.vin[n - 1].prevout)].entry;
      InputApplied(env, before.0.ledger, h, j, tx, n - 1, e);
      InputAddresses(env, before.0.ledger, h, j, tx, n - 1, e);
    }
  }

  lemma {:induction false} OutputsAddresses(env: Env, s: Store, h: u32, j: nat, tx: Tx, n: nat)
    requires n <= |tx.vout| && AddressRows(env, s)
    requires forall i :: 0 <= i < |tx.vout| ==> Utxo(OutPoint(tx.id, i)) !in s
    ensures var t := Apply(s, OutputsOps(env, h, j, tx, n));
            AddressRows(env, t) && forall i :: n <= i < |tx.vout| ==> Utxo(OutPoint(tx.id, i)) !in t
  {
    hide OutputOps; hide AddressRows; hide AddressOf;
    if n > 0 {
      OutputsAddresses(env, s, h, j, tx, n - 1);
      var front := Apply(s, OutputsOps(env, h, j, tx, n - 1));
      ApplyConcat(s, OutputsOps(env, h, j, tx, n - 1), OutputOps(env, h, j, tx, n - 1));
      OutputApplied(env, front, h, j, tx, n - 1);
      OutputAddresses(env, front, h, j, tx, n - 1);
    }
  }

  /** With room, address rows keep belonging to their coins. */
  lemma TxAddresses(env: Env, view: View, block: Block, h: u32, location: nat, j: nat, run: Run, g: Stages, after: Run)
    requires j < |block.txs| && IsStages(env, view, block, h, location, j, run, after, g) && DistinctIds(block.txs)
    requires Roomy(env, run.ledger, block, h, j, 0) && AddressRows(env, run.ledger)
    ensures AddressRows(env, after.ledger)
  {
    hide IsStages; hide Roomy; hide Held; hide SpendTx; hide ApplyNode; hide MoneyRange; hide Apply; hide CreditOps;
    hide AddressRows; hide SpendInputs; hide DistinctIds; hide ValueOut; hide ShieldedIn;
    var tx := block.txs[j];
    StageFacts(env, view, block, h, location, j, run, g, after);
    RoomyHeld(env, run.ledger, block, h, j, 0);
    TxTotals(env, view, block, h, location, j, run, g, after);
    SpendTxParts(env, h, j, tx, g.checked);
    if j != 0 { InputsAddresses(env, h, j, tx, |tx.vin|, g.checked); }
    TxRoomy(env, view, block, h, location, j, run, g, after);
    var s := g.paid.ledger;
    forall i | 0 <= i < |tx.vout| ensures Utxo(OutPoint(tx.id, i)) !in s {
      RoomyCoins(env, s, block, h, j, |tx.vin|);
      NotYetMade(s, block, j, OutPoint(tx.id, i));
    }
    CreditsAddresses(env, s, h, j, tx, location);
  }

  lemma CreditsAddresses(env: Env, s: Store, h: u32, j: nat, tx: Tx, location: nat)
    requires AddressRows(env, s) && forall i :: 0 <= i < |tx.vout| ==> Utxo(OutPoint(tx.id, i)) !in s
    ensures AddressRows(env, Apply(s, CreditOps(env, h, j, tx, location)))
  {
    hide OutputsOps; hide AddressRows;
    OutputsAddresses(env, s, h, j, tx, |tx.vout|);
    var t := Apply(s, OutputsOps(env, h, j, tx, |tx.vout|));
    ApplyConcat(s, OutputsOps(env, h, j, tx, |tx.vout|), TxRowOps(env, j, tx, location));
    if env.options.indexTx {
      ApplyOne(t, Put(TxAt(tx.id), Location(location, j)));
      RowAddresses(env, t, tx.id, Location(location, j));
    }
  }

  lemma RoomyCoins(env: Env, s: Store, block: Block, h: nat, j: nat, i: nat)
    requires Roomy(env, s, block, h, j, i)
    ensures CoinRoom(s, block, j, i)
  {
  }

  lemma RowAddresses(env: Env, s: Store, id: Hash, v: Value)
    requires AddressRows(env, s)
    ensures AddressRows(env, s[TxAt(id) := v])
  {
    hide AddressOf;
  }

  lemma {:induction false} TxsAddresses(env: Env, view: View, block: Block, h: u32, location: nat, n: nat)
    requires n <= |block.txs| && StepTxs(env, view, block, h, location, n).Ok? && DistinctIds(block.txs)
    requires Roomy(env, view.ledger, block, h, 0, 0) && AddressRows(env, view.ledger)
    ensures AddressRows(env, StepTxs(env, view, block, h, location, n).value.ledger)
  {
    hide StepTx; hide Roomy; hide IsStages; hide DistinctIds; hide AddressRows;
    if n > 0 {
      TxsAddresses(env, view, block, h, location, n - 1);
      TxsRoomy(env, view, block, h, location, n - 1);
      var run := StepTxs(env, view, block, h, location, n - 1).value;
      var g := StepTxStages(env, view, block, h, location, n - 1, run);
      TxAddresses(env, view, block, h, location, n - 1, run, g, StepTxs(env, view, block, h, location, n).value);
    }
  }

  // ---- heights of address changes ----

  /** Every address change is dated below `n`. */
  ghost predicate DeltasBelow(s: Store, n: nat) { forall k :: k in s && k.Delta? ==> k.height < n }

  predicate DatedBelow(ops: seq<Op>, n: nat) {
    forall i :: 0 <= i < |ops| && ops[i].Put? && ops[i].key.Delta? ==> ops[i].key.height < n
  }

  lemma {:induction false} ApplyDated(s: Store, ops: seq<Op>, n: nat)
    requires DeltasBelow(s, n) && DatedBelow(ops, n)
    ensures DeltasBelow(Apply(s, ops), n)
  {
    if ops != [] { ApplyDated(s, ops[..|ops| - 1], n); }
  }

  lemma {:induction false} InputsDated(env: Env, h: nat, j: nat, tx: Tx, n: nat, run: Run)
    requires n <= |tx.vin| && SpendInputs(env, h, j, tx, n, run).Ok? && DeltasBelow(run.ledger, h + 1)
    ensures DeltasBelow(SpendInputs(env, h, j, tx, n, run).value.0.ledger, h + 1)
  {
    hide SpendInput; hide Apply; hide AddressOf; hide DeltasBelow;
    if n > 0 {
      InputsDated(env, h, j, tx, n - 1, run);
      var before := SpendInputs(env, h, j, tx, n - 1, run).value;
      SpendInputEffect(env, h, j, tx, n - 1, before.0, before.1);
      var e := before.0.ledger[Utxo(tx.vin[n - 1].prevout)].entry;
      ApplyDated(before.0.ledger, InputOps(env, h, j, tx, n - 1, e), h + 1);
    }
  }

  lemma {:induction false} OutputsDated(env: Env, h: u32, j: nat, tx: Tx, n: nat)
    requires n <= |tx.vout|
    ensures DatedBelow(OutputsOps(env, h, j, tx, n), h + 1)
  {
    hide AddressOf;
    if n > 0 { OutputsDated(env, h, j, tx, n - 1); }
  }

  lemma TxDated(env: Env, view: View, block: Block, h: u32, location: nat, j: nat, run: Run, g: Stages, after: Run)
    requires j < |block.txs| && IsStages(env, view, block, h, location, j, run, after, g) && Held(env, run.ledger)
    requires DeltasBelow(run.ledger, h + 1)
    ensures DeltasBelow(after.ledger, h + 1)
  {
    hide IsStages; hide Held; hide SpendTx; hide ApplyNode; hide MoneyRange; hide Apply; hide OutputsOps;
    hide SpendInputs; hide DeltasBelow; hide ValueOut; hide ShieldedIn;
    var tx := block.txs[j];
    StageFacts(env, view, block, h, location, j, run, g, after);
    TxTotals(env, view, block, h, location, j, run, g, after);
    SpendTxParts(env, h, j, tx, g.checked);
    if j != 0 { InputsDated(env, h, j, tx, |tx.vin|, g.checked); }
    OutputsDated(env, h, j, tx, |tx.vout|);
    ApplyDated(g.paid.ledger, CreditOps(env, h, j, tx, location), h + 1);
  }

  lemma {:induction false} TxsDated(env: Env, view: View, block: Block, h: u32, location: nat, n: nat)
    requires n <= |block.txs| && StepTxs(env, view, block, h, location, n).Ok? && Held(env, view.ledger)
    requires DeltasBelow(view.ledger, h + 1)
    ensures DeltasBelow(StepTxs(env, view, block, h, location, n).value.ledger, h + 1)
  {
    hide StepTx; hide Held; hide IsStages; hide DeltasBelow;
    if n > 0 {
      TxsDated(env, view, block, h, location, n - 1);
      TxsHeld(env, view, block, h, location, n - 1);
      var run := StepTxs(env, view, block, h, location, n - 1).value;
      var g := StepTxStages(env, view, block, h, location, n - 1, run);
      TxDated(env, view, block, h, location, n - 1, run, g, StepTxs(env, view, block, h, location, n).value);
    }
  }
}
