/** Disconnecting a block on the state as readers see it, and why it undoes connecting. */
module Reversal {
  import opened Basics
  import opened Undo
  import opened Ledger
  import opened Chain
  import opened Sequential

  // ---- undoing one transaction's transparent rows ----

  function UndoInputOps(env: Env, h: nat, j: nat, tx: Tx, i: nat, e: UtxoEntry): (ops: seq<Op>)
    requires i < |tx.vin|
  {
    var o := tx.vin[i].prevout;
    var a := AddressOf(env, e.script);
    (if env.options.indexSpent then [Del(Spent(o))] else [])
    + (if a.Some? then [Del(Delta(a.value, h, j, tx.id, i, true))] else [])
    + [Put(Utxo(o), Coin(e))]
    + (if a.Some? then [Put(AddrOut(a.value, o), Mark)] else [])
  }

  function UndoOutputOps(env: Env, h: nat, j: nat, tx: Tx, i: nat): (ops: seq<Op>)
    requires i < |tx.vout|
  {
    var o := OutPoint(tx.id, i);
    [Del(Utxo(o))]
    + (match AddressOf(env, tx.vout[i].script)
       case Some(a) => [Del(AddrOut(a, o)), Del(Delta(a, h, j, tx.id, i, false))]
       case None => [])
  }

  function UndoOutputsOps(env: Env, h: nat, j: nat, tx: Tx, n: nat): (ops: seq<Op>)
    requires n <= |tx.vout|
  {
    if n == 0 then [] else UndoOutputsOps(env, h, j, tx, n - 1) + UndoOutputOps(env, h, j, tx, n - 1)
  }

  /** An unspent coin has its address row and holds a legal amount. */
  predicate CoinHeld(env: Env, s: Store, o: OutPoint)
    requires Utxo(o) in s
  {
    && s[Utxo(o)].Coin?
    && MoneyRange(s[Utxo(o)].entry.value)
    && var a := AddressOf(env, s[Utxo(o)].entry.script);
       a.Some? ==> AddrOut(a.value, o) in s && s[AddrOut(a.value, o)] == Mark
  }

  ghost predicate Held(env: Env, s: Store) {
    forall o :: Utxo(o) in s ==> CoinHeld(env, s, o)
  }

  /** It also has no spent row. */
  predicate CoinRow(env: Env, s: Store, o: OutPoint)
    requires Utxo(o) in s
  {
    CoinHeld(env, s, o) && Spent(o) !in s
  }

  ghost predicate Coins(env: Env, s: Store) {
    forall o :: Utxo(o) in s ==> CoinRow(env, s, o)
  }

  lemma CoinsHeld(env: Env, s: Store)
    requires Coins(env, s)
    ensures Held(env, s)
  {
    forall o | Utxo(o) in s ensures CoinHeld(env, s, o) { assert CoinRow(env, s, o); }
  }

  /** A row that carries the transaction id `id`. */
  predicate Mentions(k: Key, id: Hash) {
    match k
    case Utxo(o) => o.hash == id
    case Spent(o) => o.hash == id
    case AddrOut(_, o) => o.hash == id
    case Delta(_, _, _, txid, _, _) => txid == id
    case TxAt(txid) => txid == id
  }

  ghost predicate Unknown(s: Store, id: Hash) {
    forall k :: k in s ==> !Mentions(k, id)
  }

  /** The only rows of transaction `id` are debits of its inputs before `i`. */
  ghost predicate OnlyDebits(s: Store, id: Hash, i: nat) {
    forall k :: k in s && Mentions(k, id) ==> k.Delta? && k.spending && k.index < i
  }

  /** Undoing an input gives back every row it touched, if its spent row and its debit are new. */
  lemma InputInverse(env: Env, s: Store, h: nat, j: nat, tx: Tx, i: nat)
    requires i < |tx.vin| && Utxo(tx.vin[i].prevout) in s && CoinHeld(env, s, tx.vin[i].prevout)
    requires env.options.indexSpent ==> Spent(tx.vin[i].prevout) !in s
    requires var a := AddressOf(env, s[Utxo(tx.vin[i].prevout)].entry.script);
             a.Some? ==> Delta(a.value, h, j, tx.id, i, true) !in s
    ensures var e := s[Utxo(tx.vin[i].prevout)].entry;
            Apply(Apply(s, InputOps(env, h, j, tx, i, e)), UndoInputOps(env, h, j, tx, i, e)) == s
  {
    hide AddressOf; hide MoneyRange; hide SpentRow; hide InputOps; hide UndoInputOps; hide Apply;
    var e := s[Utxo(tx.vin[i].prevout)].entry;
    InputApplied(env, s, h, j, tx, i, e);
    UndoInputApplied(env, InputResult(env, s, h, j, tx, i, e), h, j, tx, i, e);
  }

  function InputResult(env: Env, s: Store, h: nat, j: nat, tx: Tx, i: nat, e: UtxoEntry): (t: Store)
    requires i < |tx.vin|
  {
    var o := tx.vin[i].prevout;
    var a := AddressOf(env, e.script);
    var s1 := (if env.options.indexSpent then s[Spent(o) := SpentRow(tx, i, h, e)] else s) - {Utxo(o)};
    if a.Some? then (s1 - {AddrOut(a.value, o)})[Delta(a.value, h, j, tx.id, i, true) := Amount(0 - e.value)] else s1
  }

  lemma InputApplied(env: Env, s: Store, h: nat, j: nat, tx: Tx, i: nat, e: UtxoEntry)
    requires i < |tx.vin|
    ensures Apply(s, InputOps(env, h, j, tx, i, e)) == InputResult(env, s, h, j, tx, i, e)
  {
    hide AddressOf; hide SpentRow;
    var o := tx.vin[i].prevout;
    var a := AddressOf(env, e.script);
    var row := Put(Spent(o), SpentRow(tx, i, h, e));
    var p: seq<Op> := if env.options.indexSpent then [row] else [];
    var q := [Del(Utxo(o))];
    if a.Some? {
      var d, c := Del(AddrOut(a.value, o)), Put(Delta(a.value, h, j, tx.id, i, true), Amount(0 - e.value));
      assert InputOps(env, h, j, tx, i, e) == p + q + [d] + [c];
      ApplyParts(s, p, q, [d], [c]);
      ApplyOne(Apply(Apply(s, p), q), d);
      ApplyOne(Apply(Apply(Apply(s, p), q), [d]), c);
    } else {
      assert InputOps(env, h, j, tx, i, e) == p + q + [] + [];
      ApplyParts(s, p, q, [], []);
    }
    ApplyOne(s, row);
    ApplyOne(Apply(s, p), q[0]);
  }

  function UndoInputResult(env: Env, s: Store, h: nat, j: nat, tx: Tx, i: nat, e: UtxoEntry): (t: Store)
    requires i < |tx.vin|
  {
    var o := tx.vin[i].prevout;
    var a := AddressOf(env, e.script);
    var s1 := if env.options.indexSpent then s - {Spent(o)} else s;
    if a.Some? then (s1 - {Delta(a.value, h, j, tx.id, i, true)})[Utxo(o) := Coin(e)][AddrOut(a.value, o) := Mark]
    else s1[Utxo(o) := Coin(e)]
  }

  lemma UndoInputApplied(env: Env, s: Store, h: nat, j: nat, tx: Tx, i: nat, e: UtxoEntry)
    requires i < |tx.vin|
    ensures Apply(s, UndoInputOps(env, h, j, tx, i, e)) == UndoInputResult(env, s, h, j, tx, i, e)
  {
    hide AddressOf;
    var o := tx.vin[i].prevout;
    var a := AddressOf(env, e.script);
    var p: seq<Op> := if env.options.indexSpent then [Del(Spent(o))] else [];
    var c := Put(Utxo(o), Coin(e));
    ApplyOne(s, Del(Spent(o)));
    var s1 := Apply(s, p);
    if a.Some? {
      var d, m := Del(Delta(a.value, h, j, tx.id, i, true)), Put(AddrOut(a.value, o), Mark);
      assert UndoInputOps(env, h, j, tx, i, e) == p + [d] + [c] + [m];
      ApplyParts(s, p, [d], [c], [m]);
      ApplyOne(s1, d);
      ApplyOne(ApplyOp(s1, d), c);
      ApplyOne(ApplyOp(ApplyOp(s1, d), c), m);
    } else {
      assert UndoInputOps(env, h, j, tx, i, e) == p + [] + [c] + [];
      ApplyParts(s, p, [], [c], []);
      ApplyOne(s1, c);
    }
  }

  lemma InputKeeps(env: Env, s: Store, h: nat, j: nat, tx: Tx, i: nat)
    requires i < |tx.vin| && Utxo(tx.vin[i].prevout) in s
    requires Coins(env, s) && OnlyDebits(s, tx.id, i)
    ensures var t := Apply(s, InputOps(env, h, j, tx, i, s[Utxo(tx.vin[i].prevout)].entry));
            Coins(env, t) && OnlyDebits(t, tx.id, i + 1)
  {
    var o := tx.vin[i].prevout;
    assert CoinRow(env, s, o);
    var e := s[Utxo(o)].entry;
    InputApplied(env, s, h, j, tx, i, e);
    var t := InputResult(env, s, h, j, tx, i, e);
    assert o.hash != tx.id by { assert !Utxo(o).Delta?; assert Mentions(Utxo(o), o.hash); }
    forall p | Utxo(p) in t ensures CoinRow(env, t, p) {
      assert Utxo(p) in s && p != o;
      assert CoinRow(env, s, p);
    }
  }

  // ---- undoing the inputs of one transaction ----

  datatype UndoState = UndoState(
    ledger: Store, nodes: map<OutPoint, NodeRecord>, spent: seq<SpentOutput>, nodeUndo: seq<NodeUndo>,
    restored: nat, valueRestored: i64, removed: nat, valueRemoved: i64)

  /** Pops the last spent output, which must be the one input `i` spent. */
  function UndoInput(env: Env, h: nat, j: nat, tx: Tx, i: nat, st: UndoState): (r: Result<UndoState>)
    requires i < |tx.vin|
  {
    if st.spent == [] then Err(UndoMismatch)
    else
      var last := st.spent[|st.spent| - 1];
      if last.outpoint != tx.vin[i].prevout then Err(UndoMismatch)
      else
        var valueRestored :- CheckedI64(st.valueRestored + last.entry.value);
        Ok(st.(ledger := Apply(st.ledger, UndoInputOps(env, h, j, tx, i, last.entry)),
               spent := st.spent[..|st.spent| - 1],
               restored := st.restored + 1, valueRestored := valueRestored))
  }

  /** Inputs `n - 1` down to 0. */
  function UndoInputs(env: Env, h: nat, j: nat, tx: Tx, n: nat, st: UndoState): (r: Result<UndoState>)
    requires n <= |tx.vin|
  {
    if n == 0 then Ok(st)
    else
      var next :- UndoInput(env, h, j, tx, n - 1, st);
      UndoInputs(env, h, j, tx, n - 1, next)
  }

  /** What an accepted input did, without the checks. */
  lemma SpendInputEffect(env: Env, h: nat, j: nat, tx: Tx, i: nat, run: Run, paidIn: i64)
    requires i < |tx.vin|
    requires SpendInput(env, h, j, tx, i, run, paidIn).Ok?
    ensures var o := tx.vin[i].prevout;
            var r := SpendInput(env, h, j, tx, i, run, paidIn).value;
            && Utxo(o) in run.ledger && run.ledger[Utxo(o)].Coin?
            && var e := run.ledger[Utxo(o)].entry;
               && r.0 == run.(ledger := Apply(run.ledger, InputOps(env, h, j, tx, i, e)),
                              spent := run.spent + [SpentOutput(o, e)],
                              scriptsOk := run.scriptsOk && env.verifyScript(tx, i, e),
                              totals := r.0.totals)
               && r.0.totals == run.totals.(spentCount := run.totals.spentCount + 1,
                                            valueSpent := r.0.totals.valueSpent)
               && r.0.totals.valueSpent == run.totals.valueSpent + e.value
               && r.1 == paidIn + e.value
  {
    hide InputOps; hide Apply;
  }

  lemma InputHeld(env: Env, s: Store, h: nat, j: nat, tx: Tx, i: nat)
    requires i < |tx.vin| && Utxo(tx.vin[i].prevout) in s && Held(env, s)
    ensures Held(env, Apply(s, InputOps(env, h, j, tx, i, s[Utxo(tx.vin[i].prevout)].entry)))
  {
    hide AddressOf; hide MoneyRange; hide SpentRow; hide InputOps; hide Apply;
    var e := s[Utxo(tx.vin[i].prevout)].entry;
    InputApplied(env, s, h, j, tx, i, e);
    var t := InputResult(env, s, h, j, tx, i, e);
    forall p | Utxo(p) in t ensures CoinHeld(env, t, p) { assert CoinHeld(env, s, p); }
  }

  lemma {:induction false} InputsHeld(env: Env, h: nat, j: nat, tx: Tx, n: nat, run: Run)
    requires n <= |tx.vin| && SpendInputs(env, h, j, tx, n, run).Ok? && Held(env, run.ledger)
    ensures var after := SpendInputs(env, h, j, tx, n, run).value.0;
            Held(env, after.ledger) && after.totals.valueSpent >= run.totals.valueSpent
  {
    hide SpendInput; hide InputOps; hide Apply;
    if n > 0 {
      InputsHeld(env, h, j, tx, n - 1, run);
      var before := SpendInputs(env, h, j, tx, n - 1, run).value;
      SpendInputEffect(env, h, j, tx, n - 1, before.0, before.1);
      assert CoinHeld(env, before.0.ledger, tx.vin[n - 1].prevout);
      InputHeld(env, before.0.ledger, h, j, tx, n - 1);
    }
  }

  lemma {:induction false} InputsKeep(env: Env, h: nat, j: nat, tx: Tx, n: nat, run: Run)
    requires n <= |tx.vin|
    requires SpendInputs(env, h, j, tx, n, run).Ok?
    requires Coins(env, run.ledger) && OnlyDebits(run.ledger, tx.id, 0)
    ensures var after := SpendInputs(env, h, j, tx, n, run).value.0;
            && Coins(env, after.ledger) && OnlyDebits(after.ledger, tx.id, n)
            && after.totals.valueSpent >= run.totals.valueSpent
  {
    hide SpendInput; hide InputOps; hide Apply;
    if n > 0 {
      InputsKeep(env, h, j, tx, n - 1, run);
      var before := SpendInputs(env, h, j, tx, n - 1, run).value;
      SpendInputEffect(env, h, j, tx, n - 1, before.0, before.1);
      assert CoinRow(env, before.0.ledger, tx.vin[n - 1].prevout);
      InputKeeps(env, before.0.ledger, h, j, tx, n - 1);
    }
  }

  // ---- the outputs of one transaction ----

  lemma KeysConcat(a: seq<Op>, b: seq<Op>)
    ensures Keys(a + b) == Keys(a) + Keys(b)
  {
    forall k | k in Keys(a) + Keys(b) ensures k in Keys(a + b) {
      if k in Keys(a) {
        var i :| 0 <= i < |a| && a[i].key == k;
        assert (a + b)[i].key == k;
      } else {
        var i :| 0 <= i < |b| && b[i].key == k;
        assert (a + b)[|a| + i].key == k;
      }
    }
  }

  /** The rows output `i` of a transaction owns. */
  function OutputKeys(env: Env, h: nat, j: nat, tx: Tx, i: nat): (ks: set<Key>)
    requires i < |tx.vout|
  {
    var o := OutPoint(tx.id, i);
    {Utxo(o)} + (match AddressOf(env, tx.vout[i].script)
                 case Some(a) => {AddrOut(a, o), Delta(a, h, j, tx.id, i, false)}
                 case None => {})
  }

  lemma OutputKeysAre(env: Env, h: u32, j: nat, tx: Tx, i: nat)
    requires i < |tx.vout|
    ensures Keys(OutputOps(env, h, j, tx, i)) == OutputKeys(env, h, j, tx, i)
    ensures Keys(UndoOutputOps(env, h, j, tx, i)) == OutputKeys(env, h, j, tx, i)
    ensures DelsOnly(UndoOutputOps(env, h, j, tx, i))
    ensures forall k :: k in OutputKeys(env, h, j, tx, i) ==> IsOutputRow(k, tx.id, h, i + 1)
  {
    hide AddressOf;
    var o := OutPoint(tx.id, i);
    var ops, undo := OutputOps(env, h, j, tx, i), UndoOutputOps(env, h, j, tx, i);
    var a := AddressOf(env, tx.vout[i].script);
    assert ops[0].key == Utxo(o) && undo[0].key == Utxo(o);
    if a.Some? {
      assert |ops| == 3 && |undo| == 3;
      assert ops[1].key == AddrOut(a.value, o) && ops[2].key == Delta(a.value, h, j, tx.id, i, false);
      assert undo[1].key == AddrOut(a.value, o) && undo[2].key == Delta(a.value, h, j, tx.id, i, false);
      assert forall k :: k in Keys(ops) ==> k == ops[0].key || k == ops[1].key || k == ops[2].key;
      assert forall k :: k in Keys(undo) ==> k == undo[0].key || k == undo[1].key || k == undo[2].key;
    } else {
      assert |ops| == 1 && |undo| == 1;
    }
  }

  /** A row of transaction `id` that belongs to an output. */
  predicate IsCredit(k: Key, id: Hash) {
    Mentions(k, id) && (k.Utxo? || k.AddrOut? || (k.Delta? && !k.spending))
  }

  /** A row of one of the first `n` outputs of transaction `id` at height `h`. */
  predicate IsOutputRow(k: Key, id: Hash, h: nat, n: nat) {
    IsCredit(k, id) && (if k.Delta? then k.height == h && k.index < n else k.o.index < n)
  }

  lemma {:induction false} OutputsKeysAre(env: Env, h: u32, j: nat, tx: Tx, n: nat)
    requires n <= |tx.vout|
    ensures Keys(OutputsOps(env, h, j, tx, n)) == Keys(UndoOutputsOps(env, h, j, tx, n))
    ensures DelsOnly(UndoOutputsOps(env, h, j, tx, n))
    ensures forall k :: k in Keys(OutputsOps(env, h, j, tx, n)) ==> IsOutputRow(k, tx.id, h, n)
  {
    if n > 0 {
      OutputsKeysAre(env, h, j, tx, n - 1);
      OutputKeysAre(env, h, j, tx, n - 1);
      hide OutputOps; hide UndoOutputOps; hide AddressOf; hide Keys; hide OutputKeys; hide IsCredit;
      KeysConcat(OutputsOps(env, h, j, tx, n - 1), OutputOps(env, h, j, tx, n - 1));
      KeysConcat(UndoOutputsOps(env, h, j, tx, n - 1), UndoOutputOps(env, h, j, tx, n - 1));
    }
  }

  function UndoTxRowOps(env: Env, tx: Tx): (ops: seq<Op>) {
    if env.options.indexTx then [Del(TxAt(tx.id))] else []
  }

  function CreditOps(env: Env, h: u32, j: nat, tx: Tx, location: nat): (ops: seq<Op>) {
    OutputsOps(env, h, j, tx, |tx.vout|) + TxRowOps(env, j, tx, location)
  }

  function UndoCreditOps(env: Env, h: nat, j: nat, tx: Tx): (ops: seq<Op>) {
    UndoOutputsOps(env, h, j, tx, |tx.vout|) + UndoTxRowOps(env, tx)
  }

  /** The rows of a transaction's outputs and of its index entry. */
  lemma CreditKeys(env: Env, h: u32, j: nat, tx: Tx, location: nat)
    ensures Keys(CreditOps(env, h, j, tx, location)) == Keys(UndoCreditOps(env, h, j, tx))
    ensures DelsOnly(UndoCreditOps(env, h, j, tx))
    ensures forall k :: k in Keys(CreditOps(env, h, j, tx, location)) ==>
              if k.TxAt? then env.options.indexTx && k.txid == tx.id else IsOutputRow(k, tx.id, h, |tx.vout|)
  {
    OutputsKeysAre(env, h, j, tx, |tx.vout|);
    KeysConcat(OutputsOps(env, h, j, tx, |tx.vout|), TxRowOps(env, j, tx, location));
    KeysConcat(UndoOutputsOps(env, h, j, tx, |tx.vout|), UndoTxRowOps(env, tx));
    assert Keys(TxRowOps(env, j, tx, location)) == Keys(UndoTxRowOps(env, tx)) by {
      if env.options.indexTx {
        assert TxRowOps(env, j, tx, location)[0].key == TxAt(tx.id) && UndoTxRowOps(env, tx)[0].key == TxAt(tx.id);
      }
    }
  }

  /** Deleting the rows a transaction created leaves the state its inputs left, if they were new. */
  lemma CreditsUndone(env: Env, s: Store, h: u32, j: nat, tx: Tx, location: nat)
    requires s.Keys !! Keys(CreditOps(env, h, j, tx, location))
    ensures Apply(Apply(s, CreditOps(env, h, j, tx, location)), UndoCreditOps(env, h, j, tx)) == s
  {
    hide CreditOps; hide UndoCreditOps; hide Apply; hide Keys;
    CreditKeys(env, h, j, tx, location);
    DelsUndo(s, CreditOps(env, h, j, tx, location), UndoCreditOps(env, h, j, tx));
  }

  /** What one output adds. */
  function OutputResult(env: Env, s: Store, h: u32, j: nat, tx: Tx, i: nat): (t: Store)
    requires i < |tx.vout|
  {
    var o := OutPoint(tx.id, i);
    var e := OutputEntry(h, j, tx, i);
    match AddressOf(env, e.script)
    case Some(a) => s[Utxo(o) := Coin(e)][AddrOut(a, o) := Mark][Delta(a, h, j, tx.id, i, false) := Amount(e.value)]
    case None => s[Utxo(o) := Coin(e)]
  }

  lemma OutputApplied(env: Env, s: Store, h: u32, j: nat, tx: Tx, i: nat)
    requires i < |tx.vout|
    ensures Apply(s, OutputOps(env, h, j, tx, i)) == OutputResult(env, s, h, j, tx, i)
  {
    hide AddressOf;
    var o := OutPoint(tx.id, i);
    var e := OutputEntry(h, j, tx, i);
    var c := Put(Utxo(o), Coin(e));
    ApplyOne(s, c);
    match AddressOf(env, e.script)
    case Some(a) =>
      var m, d := Put(AddrOut(a, o), Mark), Put(Delta(a, h, j, tx.id, i, false), Amount(e.value));
      assert OutputOps(env, h, j, tx, i) == [] + [c] + [m] + [d];
      ApplyParts(s, [], [c], [m], [d]);
      ApplyOne(ApplyOp(s, c), m);
      ApplyOne(ApplyOp(ApplyOp(s, c), m), d);
    case None =>
      assert OutputOps(env, h, j, tx, i) == [c];
  }

  /** Every row of `t` that was not in `s` is a row of transaction `id`. */
  ghost predicate NewRowsOf(s: Store, t: Store, id: Hash) {
    forall k :: k in t && k !in s ==> Mentions(k, id)
  }

  /** After the inputs and the first `n` outputs, every other row of `id` is one of those. */
  ghost predicate OwnRows(s: Store, id: Hash, n: nat) {
    forall k :: k in s && Mentions(k, id) ==>
      (k.Delta? && k.spending) || (IsCredit(k, id) && (if k.Delta? then k.index else k.o.index) < n)
  }

  lemma OutputKeeps(env: Env, s: Store, h: u32, j: nat, tx: Tx, i: nat)
    requires i < |tx.vout| && MoneyRange(tx.vout[i].value)
    requires Coins(env, s) && OwnRows(s, tx.id, i)
    ensures var t := Apply(s, OutputOps(env, h, j, tx, i));
            && Coins(env, t) && OwnRows(t, tx.id, i + 1)
            && NewRowsOf(s, t, tx.id)
  {
    OutputApplied(env, s, h, j, tx, i);
    hide AddressOf; hide Apply; hide OutputOps;
    var o := OutPoint(tx.id, i);
    var t := Apply(s, OutputOps(env, h, j, tx, i));
    assert Mentions(Utxo(o), tx.id) && Mentions(Spent(o), tx.id);
    forall p | Utxo(p) in t ensures CoinRow(env, t, p) {
      if p != o {
        assert CoinRow(env, s, p);
      }
    }
  }

  lemma {:induction false} OutputsKeep(env: Env, s: Store, h: u32, j: nat, tx: Tx, n: nat)
    requires n <= |tx.vout| && forall i :: 0 <= i < |tx.vout| ==> MoneyRange(tx.vout[i].value)
    requires Coins(env, s) && OwnRows(s, tx.id, 0)
    ensures var t := Apply(s, OutputsOps(env, h, j, tx, n));
            && Coins(env, t) && OwnRows(t, tx.id, n)
            && NewRowsOf(s, t, tx.id)
  {
    assert Apply(s, []) == s;
    hide OutputOps; hide Coins; hide OwnRows; hide Mentions; hide Apply; hide MoneyRange;
    if n > 0 {
      OutputsKeep(env, s, h, j, tx, n - 1);
      var front := Apply(s, OutputsOps(env, h, j, tx, n - 1));
      ApplyConcat(s, OutputsOps(env, h, j, tx, n - 1), OutputOps(env, h, j, tx, n - 1));
      OutputKeeps(env, front, h, j, tx, n - 1);
    }
  }

  lemma TxRowKeeps(env: Env, s: Store, id: Hash, v: Value)
    requires Coins(env, s)
    ensures Coins(env, s[TxAt(id) := v])
  {
    hide AddressOf; hide MoneyRange;
    var t := s[TxAt(id) := v];
    forall o | Utxo(o) in t ensures CoinRow(env, t, o) {
      assert CoinRow(env, s, o);
    }
  }

  lemma CreditsKeep(env: Env, s: Store, h: u32, j: nat, tx: Tx, location: nat)
    requires forall i :: 0 <= i < |tx.vout| ==> MoneyRange(tx.vout[i].value)
    requires Coins(env, s) && OwnRows(s, tx.id, 0)
    ensures var t := Apply(s, CreditOps(env, h, j, tx, location));
            Coins(env, t) && NewRowsOf(s, t, tx.id)
  {
    OutputsKeep(env, s, h, j, tx, |tx.vout|);
    hide OutputsOps; hide OwnRows; hide AddressOf; hide MoneyRange; hide Coins;
    var u := Apply(s, OutputsOps(env, h, j, tx, |tx.vout|));
    ApplyConcat(s, OutputsOps(env, h, j, tx, |tx.vout|), TxRowOps(env, j, tx, location));
    if env.options.indexTx {
      ApplyOne(u, Put(TxAt(tx.id), Location(location, j)));
      TxRowKeeps(env, u, tx.id, Location(location, j));
    }
  }

  // ---- undoing one transaction ----

  /** The value of the first `n` outputs, as the disconnect loop adds it up. */
  function RemoveValue(tx: Tx, n: nat, start: i64): (r: Result<i64>)
    requires n <= |tx.vout|
  {
    if n == 0 then Ok(start)
    else
      var before :- RemoveValue(tx, n - 1, start);
      CheckedI64(before + tx.vout[n - 1].value)
  }

  function UndoNode(tx: Tx, st: UndoState): (r: Result<UndoState>) {
    if tx.node.None? then Ok(st)
    else if st.nodeUndo == [] then Err(UndoMismatch)
    else
      var last := st.nodeUndo[|st.nodeUndo| - 1];
      if last.collateral != tx.node.value.collateral then Err(UndoMismatch)
      else Ok(st.(nodes := Restore(st.nodes, last), nodeUndo := st.nodeUndo[..|st.nodeUndo| - 1]))
  }

  function Restore(nodes: map<OutPoint, NodeRecord>, u: NodeUndo): (r: map<OutPoint, NodeRecord>) {
    match u.prev
    case Some(n) => nodes[u.collateral := n]
    case None => nodes - {u.collateral}
  }

  function UndoTx(env: Env, h: nat, j: nat, tx: Tx, st: UndoState): (r: Result<UndoState>) {
    var value :- RemoveValue(tx, |tx.vout|, st.valueRemoved);
    var credited := st.(ledger := Apply(st.ledger, UndoCreditOps(env, h, j, tx)),
                        removed := st.removed + |tx.vout|, valueRemoved := value);
    var debited :- if j == 0 then Ok(credited) else UndoInputs(env, h, j, tx, |tx.vin|, credited);
    UndoNode(tx, debited)
  }

  /** Transactions `n - 1` down to 0. */
  function UndoTxs(env: Env, block: Block, h: nat, n: nat, st: UndoState): (r: Result<UndoState>)
    requires n <= |block.txs|
  {
    if n == 0 then Ok(st)
    else
      var next :- UndoTx(env, h, n - 1, block.txs[n - 1], st);
      UndoTxs(env, block, h, n - 1, next)
  }

  /** Spending a coin mentions no transaction the ledger did not already mention. */
  lemma InputUnknown(env: Env, s: Store, h: nat, j: nat, tx: Tx, i: nat, e: UtxoEntry, id: Hash)
    requires i < |tx.vin| && Utxo(tx.vin[i].prevout) in s
    requires Unknown(s, id) && id != tx.id
    ensures Unknown(Apply(s, InputOps(env, h, j, tx, i, e)), id)
  {
    InputApplied(env, s, h, j, tx, i, e);
    hide AddressOf; hide Apply; hide InputOps; hide SpentRow;
    assert !Mentions(Utxo(tx.vin[i].prevout), id);
  }

  lemma {:induction false} InputsUnknown(env: Env, h: nat, j: nat, tx: Tx, n: nat, run: Run, id: Hash)
    requires n <= |tx.vin|
    requires SpendInputs(env, h, j, tx, n, run).Ok?
    requires Unknown(run.ledger, id) && id != tx.id
    ensures Unknown(SpendInputs(env, h, j, tx, n, run).value.0.ledger, id)
  {
    hide SpendInput; hide InputOps; hide Apply; hide Unknown;
    if n > 0 {
      InputsUnknown(env, h, j, tx, n - 1, run, id);
      var before := SpendInputs(env, h, j, tx, n - 1, run).value;
      SpendInputEffect(env, h, j, tx, n - 1, before.0, before.1);
      InputUnknown(env, before.0.ledger, h, j, tx, n - 1, before.0.ledger[Utxo(tx.vin[n - 1].prevout)].entry, id);
    }
  }

  // ---- what an accepted transaction did, part by part ----

  lemma SpendTxParts(env: Env, h: nat, j: nat, tx: Tx, run: Run)
    requires SpendTx(env, h, j, tx, run).Ok?
    ensures var paid := SpendTx(env, h, j, tx, run).value;
            if j == 0 then paid == run
            else && SpendInputs(env, h, j, tx, |tx.vin|, run).Ok?
                 && var inner := SpendInputs(env, h, j, tx, |tx.vin|, run).value;
                    && paid == inner.0.(totals := inner.0.totals.(fees := paid.totals.fees))
                    && paid.totals.fees == inner.0.totals.fees + (ShieldedIn(tx) + inner.1 - ValueOut(tx))
                    && ShieldedIn(tx) + inner.1 >= ValueOut(tx)
  {
    hide SpendInputs;
  }

  lemma {:induction false} SpendInputsFrame(env: Env, h: nat, j: nat, tx: Tx, n: nat, run: Run)
    requires n <= |tx.vin| && SpendInputs(env, h, j, tx, n, run).Ok?
    ensures var r := SpendInputs(env, h, j, tx, n, run).value;
            && r.0 == run.(ledger := r.0.ledger, spent := r.0.spent, scriptsOk := r.0.scriptsOk, totals := r.0.totals)
            && r.0.totals == run.totals.(spentCount := run.totals.spentCount + n, valueSpent := r.0.totals.valueSpent)
            && r.0.totals.valueSpent - run.totals.valueSpent == r.1
  {
    hide SpendInput; hide InputOps; hide Apply;
    if n > 0 {
      SpendInputsFrame(env, h, j, tx, n - 1, run);
      var before := SpendInputs(env, h, j, tx, n - 1, run).value;
      SpendInputEffect(env, h, j, tx, n - 1, before.0, before.1);
    }
  }

  lemma ShieldedFrame(env: Env, view: View, tx: Tx, run: Run)
    requires CheckShielded(env, view, tx, run).Ok?
    ensures var r := CheckShielded(env, view, tx, run).value;
            && r == run.(nulls := r.nulls, totals := r.totals)
            && r.totals == run.totals.(sprout := r.totals.sprout, sapling := run.totals.sapling - tx.valueBalance)
  {
    hide JoinSplits; hide Spends;
  }

  lemma TreesFrame(env: Env, tx: Tx, run: Run)
    requires GrowTrees(env, tx, run).Ok?
    ensures var r := GrowTrees(env, tx, run).value;
            r == run.(sproutTree := r.sproutTree, saplingTree := r.saplingTree)
  {
    hide AppendAll;
  }

  /** The five stages of an accepted transaction. */
  datatype Stages = Stages(meta: Option<StartMeta>, checked: Run, paid: Run, noded: Run, grown: Run)

  ghost predicate IsStages(env: Env, view: View, block: Block, h: u32, location: nat, j: nat, run: Run, after: Run,
                           g: Stages)
    requires j < |block.txs|
  {
    var tx := block.txs[j];
    && CheckNode(env, view, block, h, j) == Ok(g.meta)
    && OutputsInRange(tx) && ShieldedInRange(tx)
    && CheckShielded(env, view, tx, run) == Ok(g.checked)
    && SpendTx(env, h, j, tx, g.checked) == Ok(g.paid)
    && ApplyNode(tx.node, h, g.meta, g.paid) == Ok(g.noded)
    && GrowTrees(env, tx, g.noded) == Ok(g.grown)
    && CreateOutputs(env, h, j, tx, location, g.grown) == Ok(after)
  }

  lemma StepTxStages(env: Env, view: View, block: Block, h: u32, location: nat, j: nat, run: Run) returns (g: Stages)
    requires j < |block.txs|
    requires StepTx(env, view, block, h, location, j, run).Ok?
    ensures IsStages(env, view, block, h, location, j, run, StepTx(env, view, block, h, location, j, run).value, g)
  {
    hide CheckNode; hide OutputsInRange; hide ShieldedInRange; hide CheckShielded; hide SpendTx; hide ApplyNode;
    hide GrowTrees; hide CreateOutputs;
    var tx := block.txs[j];
    var meta := CheckNode(env, view, block, h, j).value;
    var checked := CheckShielded(env, view, tx, run).value;
    var paid := SpendTx(env, h, j, tx, checked).value;
    var noded := ApplyNode(tx.node, h, meta, paid).value;
    var grown := GrowTrees(env, tx, noded).value;
    g := Stages(meta, checked, paid, noded, grown);
  }

  // ---- undoing an accepted transaction ----

  lemma {:induction false} SumOutBounds(outs: seq<TxOut>, n: nat)
    requires n <= |outs| && forall i :: 0 <= i < |outs| ==> MoneyRange(outs[i].value)
    ensures 0 <= SumOut(outs[..n]) <= SumOut(outs)
    decreases |outs|
  {
    if n < |outs| {
      SumOutBounds(outs[..|outs| - 1], n);
      assert outs[..|outs| - 1][..n] == outs[..n];
    } else {
      assert outs[..n] == outs;
      if n > 0 {
        SumOutBounds(outs[..n - 1], n - 1);
        assert outs[..n - 1][..n - 1] == outs[..n - 1];
      }
    }
  }

  lemma {:induction false} RemoveValueOk(tx: Tx, n: nat, start: i64)
    requires n <= |tx.vout| && start >= 0 && start + SumOut(tx.vout) <= I64_MAX
    requires forall i :: 0 <= i < |tx.vout| ==> MoneyRange(tx.vout[i].value)
    ensures RemoveValue(tx, n, start) == Ok(start + SumOut(tx.vout[..n]))
    ensures start <= start + SumOut(tx.vout[..n]) <= I64_MAX
  {
    SumOutBounds(tx.vout, n);
    if n > 0 {
      RemoveValueOk(tx, n - 1, start);
      assert tx.vout[..n][..n - 1] == tx.vout[..n - 1];
    }
  }

  lemma NodeUndone(t: Option<NodeTx>, tx: Tx, h: u32, meta: Option<StartMeta>, run: Run, st: UndoState)
    requires tx.node == t
    requires ApplyNode(t, h, meta, run).Ok?
    requires st.nodes == ApplyNode(t, h, meta, run).value.nodes
    requires st.nodeUndo == ApplyNode(t, h, meta, run).value.nodeUndo
    ensures UndoNode(tx, st) == Ok(st.(nodes := run.nodes, nodeUndo := run.nodeUndo))
    ensures var r := ApplyNode(t, h, meta, run).value; r == run.(nodes := r.nodes, nodeUndo := r.nodeUndo)
  {
    hide NodeWrite;
    if t.Some? {
      var c := t.value.collateral;
      var u := NodeUndo(c, Lookup(run.nodes, c));
      assert (run.nodeUndo + [u])[..|run.nodeUndo|] == run.nodeUndo;
      assert Restore(st.nodes, u) == run.nodes;
    }
  }

  lemma UnknownAfterSpend(env: Env, h: nat, j: nat, tx: Tx, run: Run, id: Hash)
    requires SpendTx(env, h, j, tx, run).Ok?
    requires Unknown(run.ledger, id) && id != tx.id
    ensures Unknown(SpendTx(env, h, j, tx, run).value.ledger, id)
  {
    hide Unknown; hide SpendInputs;
    SpendTxParts(env, h, j, tx, run);
    if j != 0 {
      InputsUnknown(env, h, j, tx, |tx.vin|, run, id);
    }
  }

  lemma SpendTxKeeps(env: Env, h: nat, j: nat, tx: Tx, run: Run)
    requires SpendTx(env, h, j, tx, run).Ok?
    requires Coins(env, run.ledger) && Unknown(run.ledger, tx.id)
    ensures var paid := SpendTx(env, h, j, tx, run).value;
            Coins(env, paid.ledger) && OnlyDebits(paid.ledger, tx.id, |tx.vin|)
  {
    hide SpendTx; hide Coins; hide SpendInputs; hide OnlyDebits; hide Unknown; hide ValueOut; hide ShieldedIn;
    SpendTxParts(env, h, j, tx, run);
    NoDebitsYet(run.ledger, tx.id);
    OnlyDebitsMore(run.ledger, tx.id, 0, |tx.vin|);
    if j != 0 { InputsKeep(env, h, j, tx, |tx.vin|, run); }
  }

  lemma OnlyDebitsMore(s: Store, id: Hash, i: nat, n: nat)
    requires OnlyDebits(s, id, i) && i <= n
    ensures OnlyDebits(s, id, n)
  {
  }

  lemma NoDebitsYet(s: Store, id: Hash)
    requires Unknown(s, id)
    ensures OnlyDebits(s, id, 0)
  {
  }

  lemma SpendTxHeld(env: Env, h: nat, j: nat, tx: Tx, run: Run)
    requires SpendTx(env, h, j, tx, run).Ok? && Held(env, run.ledger)
    ensures var paid := SpendTx(env, h, j, tx, run).value;
            && Held(env, paid.ledger) && paid.totals.valueSpent >= run.totals.valueSpent
            && paid == run.(ledger := paid.ledger, spent := paid.spent, scriptsOk := paid.scriptsOk,
                            totals := paid.totals)
            && paid.totals == run.totals.(spentCount := paid.totals.spentCount, valueSpent := paid.totals.valueSpent,
                                          fees := paid.totals.fees)
            && paid.totals.spentCount == run.totals.spentCount + (if j == 0 then 0 else |tx.vin|)
  {
    hide SpendTx; hide Held; hide SpendInputs; hide ValueOut; hide ShieldedIn;
    SpendTxParts(env, h, j, tx, run);
    if j != 0 {
      InputsHeld(env, h, j, tx, |tx.vin|, run);
      SpendInputsFrame(env, h, j, tx, |tx.vin|, run);
    }
  }

  /** The totals an accepted transaction leaves behind. */
  lemma TxTotals(env: Env, view: View, block: Block, h: u32, location: nat, j: nat, run: Run, g: Stages, after: Run)
    requires j < |block.txs| && IsStages(env, view, block, h, location, j, run, after, g) && Held(env, run.ledger)
    ensures var tx := block.txs[j];
            && after.totals.valueSpent == g.paid.totals.valueSpent >= run.totals.valueSpent
            && after.totals.spentCount == g.paid.totals.spentCount
            && g.paid.totals.spentCount == run.totals.spentCount + (if j == 0 then 0 else |tx.vin|)
            && after.totals.created == run.totals.created + |tx.vout|
            && after.totals.valueCreated == run.totals.valueCreated + SumOut(tx.vout)
            && after.totals.fees == g.paid.totals.fees
            && after.totals.sprout == g.checked.totals.sprout && after.totals.sapling == g.checked.totals.sapling
            && after.spent == g.paid.spent && after.nodes == g.noded.nodes && after.nodeUndo == g.noded.nodeUndo
            && after.ledger == Apply(g.paid.ledger, CreditOps(env, h, j, tx, location))
            && g.checked.ledger == run.ledger && g.checked.nodes == run.nodes
            && g.checked.spent == run.spent && g.checked.nodeUndo == run.nodeUndo
            && g.checked.totals.valueSpent == run.totals.valueSpent
            && g.checked.totals.spentCount == run.totals.spentCount
            && g.paid.nodes == run.nodes && g.paid.nodeUndo == run.nodeUndo
            && after.scriptsOk == g.paid.scriptsOk
            && after.nulls == g.checked.nulls
  {
    var tx := block.txs[j];
    ShieldedFrame(env, view, tx, run);
    SpendTxHeld(env, h, j, tx, g.checked);
    TreesFrame(env, tx, g.noded);
    NodeUndone(tx.node, tx, h, g.meta, g.paid,
               UndoState(map[], g.noded.nodes, [], g.noded.nodeUndo, 0, 0, 0, 0));
    hide CheckShielded; hide SpendTx; hide GrowTrees; hide ApplyNode; hide CheckNode; hide OutputsInRange;
    hide ShieldedInRange; hide Held; hide UndoNode; hide Apply;
    assert CreditOps(env, h, j, tx, location) == OutputsOps(env, h, j, tx, |tx.vout|) + TxRowOps(env, j, tx, location);
  }

  lemma StageFacts(env: Env, view: View, block: Block, h: u32, location: nat, j: nat, run: Run, g: Stages, after: Run)
    requires j < |block.txs| && IsStages(env, view, block, h, location, j, run, after, g)
    ensures var tx := block.txs[j];
            && SpendTx(env, h, j, tx, g.checked) == Ok(g.paid)
            && ApplyNode(tx.node, h, g.meta, g.paid) == Ok(g.noded)
            && (forall i :: 0 <= i < |tx.vout| ==> MoneyRange(tx.vout[i].value))
  {
    hide SpendTx; hide ApplyNode; hide CheckShielded; hide GrowTrees; hide CreateOutputs; hide CheckNode;
    hide ShieldedInRange;
  }

  lemma DebitsOnlyAreOwn(s: Store, id: Hash, n: nat)
    requires OnlyDebits(s, id, n)
    ensures OwnRows(s, id, 0)
  {
  }

  lemma UnknownKept(s: Store, t: Store, owner: Hash, id: Hash)
    requires Unknown(s, id) && NewRowsOf(s, t, owner) && id != owner
    ensures Unknown(t, id)
  {
  }

  lemma TxKeeps(env: Env, view: View, block: Block, h: u32, location: nat, j: nat, run: Run, g: Stages, after: Run,
                id: Hash)
    requires j < |block.txs| && IsStages(env, view, block, h, location, j, run, after, g)
    requires Coins(env, run.ledger) && Unknown(run.ledger, block.txs[j].id)
    ensures Coins(env, after.ledger)
    ensures id != block.txs[j].id && Unknown(run.ledger, id) ==> Unknown(after.ledger, id)
  {
    var tx := block.txs[j];
    hide IsStages; hide Coins; hide Apply; hide CreditOps; hide OwnRows; hide OnlyDebits; hide SpendTx;
    hide MoneyRange; hide NewRowsOf; hide Unknown;
    StageFacts(env, view, block, h, location, j, run, g, after);
    CoinsHeld(env, run.ledger);
    TxTotals(env, view, block, h, location, j, run, g, after);
    SpendTxKeeps(env, h, j, tx, g.checked);
    DebitsOnlyAreOwn(g.paid.ledger, tx.id, |tx.vin|);
    CreditsKeep(env, g.paid.ledger, h, j, tx, location);
    if id != tx.id && Unknown(run.ledger, id) {
      UnknownAfterSpend(env, h, j, tx, g.checked, id);
      UnknownKept(g.paid.ledger, after.ledger, tx.id, id);
    }
  }

  // ---- undoing all transactions of a block ----

  predicate DistinctIds(txs: seq<Tx>) {
    forall i, k :: 0 <= i < k < |txs| ==> txs[i].id != txs[k].id
  }

  /** No row of the ledger carries an id of the block. */
  ghost predicate NewIds(s: Store, txs: seq<Tx>, n: nat) {
    forall k :: n <= k < |txs| ==> Unknown(s, txs[k].id)
  }

  /** The state an accepted prefix leaves, and that the remaining ids are still new. */
  lemma {:induction false} TxsKeep(env: Env, view: View, block: Block, h: u32, location: nat, n: nat)
    requires n <= |block.txs| && StepTxs(env, view, block, h, location, n).Ok?
    requires Coins(env, view.ledger) && DistinctIds(block.txs) && NewIds(view.ledger, block.txs, 0)
    ensures var run := StepTxs(env, view, block, h, location, n).value;
            && Coins(env, run.ledger) && NewIds(run.ledger, block.txs, n)
            && run.totals.valueSpent >= 0 && run.totals.valueCreated >= 0
  {
    hide StepTx; hide Coins; hide Unknown; hide IsStages; hide SumOut;
    if n > 0 {
      TxsKeep(env, view, block, h, location, n - 1);
      var run := StepTxs(env, view, block, h, location, n - 1).value;
      var g := StepTxStages(env, view, block, h, location, n - 1, run);
      var after := StepTxs(env, view, block, h, location, n).value;
      CoinsHeld(env, run.ledger);
      TxTotals(env, view, block, h, location, n - 1, run, g, after);
      SumOutNonNegative(env, view, block, h, location, n - 1, run, g, after);
      forall k | n <= k < |block.txs| ensures Unknown(after.ledger, block.txs[k].id) {
        TxKeeps(env, view, block, h, location, n - 1, run, g, after, block.txs[k].id);
      }
      TxKeeps(env, view, block, h, location, n - 1, run, g, after, block.txs[n - 1].id);
    }
  }

  lemma SumOutNonNegative(env: Env, view: View, block: Block, h: u32, location: nat, j: nat, run: Run, g: Stages,
                          after: Run)
    requires j < |block.txs| && IsStages(env, view, block, h, location, j, run, after, g)
    ensures SumOut(block.txs[j].vout) >= 0
  {
    hide IsStages; hide SumOut; hide MoneyRange;
    StageFacts(env, view, block, h, location, j, run, g, after);
    SumOutBounds(block.txs[j].vout, |block.txs[j].vout|);
    assert block.txs[j].vout[..|block.txs[j].vout|] == block.txs[j].vout;
  }
}
