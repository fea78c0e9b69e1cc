/** The overlay a block is connected with: outputs created so far are kept aside, and only
    what survives the block is written. These lemmas say that the pending batch plus the overlay
    always show the ledger that sequential processing would have reached. */
module Overlay {
  import opened Basics
  import opened Undo
  import opened Ledger
  import opened Chain
  import opened Sequential
  import opened Reversal

  datatype Created = Created(entry: UtxoEntry, address: Option<Hash>)

  type Pending = map<OutPoint, Created>

  function At(s: Store, k: Key): (v: Option<Value>) { if k in s then Some(s[k]) else None }

  /** A row as the block sees it: from the overlay, the index rows, or the store with pending writes. */
  function SeenAt(cur: Store, created: Pending, rows: Store, k: Key): (v: Option<Value>) {
    match k
    case Utxo(o) => if o in created then Some(Coin(created[o].entry)) else At(cur, k)
    case AddrOut(a, o) => if o in created && created[o].address == Some(a) then Some(Mark) else At(cur, k)
    case TxAt(_) => if k in rows then Some(rows[k]) else At(cur, k)
    case _ => At(cur, k)
  }

  /** `s` is the ledger the block sees. */
  ghost predicate Shows(s: Store, cur: Store, created: Pending, rows: Store) {
    forall k :: At(s, k) == SeenAt(cur, created, rows, k)
  }

  /** The store holds no coin and no address row of an outpoint. */
  ghost predicate Absent(s: Store, o: OutPoint) {
    forall k :: k in s && (k.Utxo? || k.AddrOut?) ==> k.o != o
  }

  function StoredInputOps(env: Env, h: nat, j: nat, tx: Tx, i: nat, e: UtxoEntry, inBlock: bool): (ops: seq<Op>)
    requires i < |tx.vin|
  {
    var o := tx.vin[i].prevout;
    var a := AddressOf(env, e.script);
    (if env.options.indexSpent then [Put(Spent(o), SpentRow(tx, i, h, e))] else [])
    + (if inBlock then [] else [Del(Utxo(o))])
    + (if a.Some? && !inBlock then [Del(AddrOut(a.value, o))] else [])
    + (if a.Some? then [Put(Delta(a.value, h, j, tx.id, i, true), Amount(0 - e.value))] else [])
  }

  function StoredInputResult(env: Env, s: Store, h: nat, j: nat, tx: Tx, i: nat, e: UtxoEntry,
                             inBlock: bool): (t: Store)
    requires i < |tx.vin|
  {
    var o := tx.vin[i].prevout;
    var a := AddressOf(env, e.script);
    var s1 := if env.options.indexSpent then s[Spent(o) := SpentRow(tx, i, h, e)] else s;
    var s2 := if inBlock then s1 else s1 - {Utxo(o)};
    var s3 := if a.Some? && !inBlock then s2 - {AddrOut(a.value, o)} else s2;
    if a.Some? then s3[Delta(a.value, h, j, tx.id, i, true) := Amount(0 - e.value)] else s3
  }

  lemma StoredInputApplied(env: Env, s: Store, h: nat, j: nat, tx: Tx, i: nat, e: UtxoEntry, inBlock: bool)
    requires i < |tx.vin|
    ensures Apply(s, StoredInputOps(env, h, j, tx, i, e, inBlock)) == StoredInputResult(env, s, h, j, tx, i, e, inBlock)
  {
    hide AddressOf; hide SpentRow;
    var o := tx.vin[i].prevout;
    var a := AddressOf(env, e.script);
    var p: seq<Op> := if env.options.indexSpent then [Put(Spent(o), SpentRow(tx, i, h, e))] else [];
    var q: seq<Op> := if inBlock then [] else [Del(Utxo(o))];
    var d: seq<Op> := if a.Some? && !inBlock then [Del(AddrOut(a.value, o))] else [];
    var c: seq<Op> := if a.Some? then [Put(Delta(a.value, h, j, tx.id, i, true), Amount(0 - e.value))] else [];
    assert StoredInputOps(env, h, j, tx, i, e, inBlock) == p + q + d + c;
    ApplyParts(s, p, q, d, c);
    var s1 := Apply(s, p);
    var s2 := Apply(s1, q);
    var s3 := Apply(s2, d);
    ApplyOne(s, Put(Spent(o), SpentRow(tx, i, h, e)));
    ApplyOne(s1, Del(Utxo(o)));
    if a.Some? {
      ApplyOne(s2, Del(AddrOut(a.value, o)));
      ApplyOne(s3, Put(Delta(a.value, h, j, tx.id, i, true), Amount(0 - e.value)));
    }
  }

  /** Spending a coin created earlier in the block only drops it from the overlay. */
  lemma SpendPending(env: Env, s: Store, cur: Store, created: Pending, rows: Store, h: nat, j: nat, tx: Tx, i: nat)
    requires i < |tx.vin| && tx.vin[i].prevout in created && Shows(s, cur, created, rows)
             && Absent(cur, tx.vin[i].prevout)
    requires var c := created[tx.vin[i].prevout]; c.address == AddressOf(env, c.entry.script)
    ensures var o := tx.vin[i].prevout;
            var e := created[o].entry;
            && Utxo(o) in s && s[Utxo(o)] == Coin(e)
            && Shows(Apply(s, InputOps(env, h, j, tx, i, e)),
                     Apply(cur, StoredInputOps(env, h, j, tx, i, e, true)), created - {o}, rows)
  {
    hide AddressOf; hide SpentRow; hide Apply; hide InputOps; hide StoredInputOps;
    var o := tx.vin[i].prevout;
    var e := created[o].entry;
    assert At(s, Utxo(o)) == SeenAt(cur, created, rows, Utxo(o));
    InputApplied(env, s, h, j, tx, i, e);
    StoredInputApplied(env, cur, h, j, tx, i, e, true);
    var s' := InputResult(env, s, h, j, tx, i, e);
    var cur' := StoredInputResult(env, cur, h, j, tx, i, e, true);
    forall k ensures At(s', k) == SeenAt(cur', created - {o}, rows, k) {
      assert At(s, k) == SeenAt(cur, created, rows, k);
    }
  }

  /** Spending a stored coin is written to the batch. */
  lemma SpendStored(env: Env, s: Store, cur: Store, created: Pending, rows: Store, h: nat, j: nat, tx: Tx, i: nat,
                    e: UtxoEntry)
    requires i < |tx.vin| && tx.vin[i].prevout !in created && Shows(s, cur, created, rows)
    requires Utxo(tx.vin[i].prevout) in cur && cur[Utxo(tx.vin[i].prevout)] == Coin(e)
    ensures var o := tx.vin[i].prevout;
            && Utxo(o) in s && s[Utxo(o)] == Coin(e)
            && Shows(Apply(s, InputOps(env, h, j, tx, i, e)),
                     Apply(cur, StoredInputOps(env, h, j, tx, i, e, false)), created, rows)
  {
    hide AddressOf; hide SpentRow; hide Apply; hide InputOps; hide StoredInputOps;
    var o := tx.vin[i].prevout;
    assert At(s, Utxo(o)) == SeenAt(cur, created, rows, Utxo(o));
    InputApplied(env, s, h, j, tx, i, e);
    StoredInputApplied(env, cur, h, j, tx, i, e, false);
    var s' := InputResult(env, s, h, j, tx, i, e);
    var cur' := StoredInputResult(env, cur, h, j, tx, i, e, false);
    forall k ensures At(s', k) == SeenAt(cur', created, rows, k) {
      assert At(s, k) == SeenAt(cur, created, rows, k);
    }
  }

  function CreditRowOps(env: Env, h: nat, j: nat, tx: Tx, i: nat): (ops: seq<Op>)
    requires i < |tx.vout|
  {
    var a := AddressOf(env, tx.vout[i].script);
    if a.Some? then [Put(Delta(a.value, h, j, tx.id, i, false), Amount(tx.vout[i].value))] else []
  }

  lemma CreditRowApplied(env: Env, s: Store, h: nat, j: nat, tx: Tx, i: nat)
    requires i < |tx.vout|
    ensures var a := AddressOf(env, tx.vout[i].script);
            Apply(s, CreditRowOps(env, h, j, tx, i)) ==
              if a.Some? then s[Delta(a.value, h, j, tx.id, i, false) := Amount(tx.vout[i].value)] else s
  {
    hide AddressOf;
    var a := AddressOf(env, tx.vout[i].script);
    if a.Some? {
      ApplyOne(s, Put(Delta(a.value, h, j, tx.id, i, false), Amount(tx.vout[i].value)));
    }
  }

  /** A new output goes to the overlay; only its address credit is written at once. */
  lemma CreatePending(env: Env, s: Store, cur: Store, created: Pending, rows: Store, h: u32, j: nat, tx: Tx, i: nat)
    requires i < |tx.vout| && Shows(s, cur, created, rows) && OutPoint(tx.id, i) !in created
    ensures var c := Created(OutputEntry(h, j, tx, i), AddressOf(env, tx.vout[i].script));
            Shows(Apply(s, OutputOps(env, h, j, tx, i)),
                  Apply(cur, CreditRowOps(env, h, j, tx, i)), created[OutPoint(tx.id, i) := c], rows)
  {
    hide AddressOf; hide Apply; hide OutputOps; hide CreditRowOps;
    OutputApplied(env, s, h, j, tx, i);
    CreditRowApplied(env, cur, h, j, tx, i);
    var c := Created(OutputEntry(h, j, tx, i), AddressOf(env, tx.vout[i].script));
    var s' := Apply(s, OutputOps(env, h, j, tx, i));
    var cur' := Apply(cur, CreditRowOps(env, h, j, tx, i));
    forall k ensures At(s', k) == SeenAt(cur', created[OutPoint(tx.id, i) := c], rows, k) {
      assert At(s, k) == SeenAt(cur, created, rows, k);
    }
  }

  /** Writing out one entry of the overlay. */
  function PendingOps(o: OutPoint, c: Created): (ops: seq<Op>) {
    [Put(Utxo(o), Coin(c.entry))] + (if c.address.Some? then [Put(AddrOut(c.address.value, o), Mark)] else [])
  }

  lemma FlushPending(s: Store, cur: Store, created: Pending, rows: Store, o: OutPoint)
    requires Shows(s, cur, created, rows) && o in created
    ensures Shows(s, Apply(cur, PendingOps(o, created[o])), created - {o}, rows)
  {
    hide Apply;
    var c := created[o];
    var p := Put(Utxo(o), Coin(c.entry));
    ApplyOne(cur, p);
    if c.address.Some? {
      var m := Put(AddrOut(c.address.value, o), Mark);
      ApplySnoc(cur, [p], m);
    } else {
      assert PendingOps(o, c) == [p];
    }
    var cur' := Apply(cur, PendingOps(o, c));
    forall k ensures At(s, k) == SeenAt(cur', created - {o}, rows, k) {
      assert At(s, k) == SeenAt(cur, created, rows, k);
    }
  }
}
