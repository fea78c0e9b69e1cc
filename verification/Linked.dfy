/** The invariant that ties the overlay bookkeeping to the sequential ledger, and its steps. */
module Linked {
  import opened Basics
  import opened Ledger
  import opened Chain
  import opened Sequential
  import opened Reversal
  import opened Room
  import opened Overlay

  /** The store with pending writes: its coins are the stored ones not yet spent, and it has no new coin or address
      row. */
  ghost predicate CoinsLeft(db: Store, cur: Store, spentOut: set<OutPoint>) {
    && (forall o :: Utxo(o) in cur <==> Utxo(o) in db && o !in spentOut)
    && (forall o :: Utxo(o) in cur ==> cur[Utxo(o)] == db[Utxo(o)])
    && (forall k :: k in cur && k.AddrOut? ==> k in db)
  }

  /** An earlier transaction makes the outpoint, or transaction `j` does before its output `i`. */
  ghost predicate MadeBefore(block: Block, o: OutPoint, j: nat, i: nat) {
    exists m :: MadeBy(block, m, o) && (m < j || (m == j && o.index < i))
  }

  /** Pending outputs were made by now; what was spent was stored or made by now; what was spent and is
      pending again was stored. */
  ghost predicate Origins(env: Env, block: Block, db: Store, created: Pending, spentOut: set<OutPoint>, j: nat,
                          i: nat) {
    && (forall o :: o in created ==>
          MadeBefore(block, o, j, i) && created[o].address == AddressOf(env, created[o].entry.script))
    && (forall o :: o in spentOut ==> Utxo(o) in db || MadeBefore(block, o, j, i))
    && (forall o :: o in spentOut && o in created ==> Utxo(o) in db)
  }

  /** The block makes the outpoint and spends it afterwards. */
  ghost predicate Chained(block: Block, o: OutPoint) {
    exists m, k, x :: MadeBy(block, m, o) && SpendsAt(block, k, x, o) && m < k
  }

  /** What the block makes and then spends is not stored already. Blocks of new ids satisfy it, and so
      do blocks that repeat an id without spending what they made. */
  ghost predicate NoClash(db: Store, block: Block) {
    forall m, o, k, x :: MadeBy(block, m, o) && SpendsAt(block, k, x, o) && m < k ==> Absent(db, o)
  }

  lemma NewHasNoClash(db: Store, block: Block)
    requires NewIds(db, block.txs, 0)
    ensures NoClash(db, block)
  {
    forall m, o, k, x | MadeBy(block, m, o) && SpendsAt(block, k, x, o) && m < k ensures Absent(db, o) {
      assert Unknown(db, block.txs[m].id);
      forall y | y in db && (y.Utxo? || y.AddrOut?) ensures y.o != o { assert !Mentions(y, block.txs[m].id); }
    }
  }

  /** What the block makes and then spends is in the overlay only. */
  ghost predicate Apart(block: Block, cur: Store, created: Pending) {
    forall o :: o in created && Chained(block, o) ==> Absent(cur, o)
  }

  ghost predicate LedgerLinked(env: Env, block: Block, db: Store, cur: Store, created: Pending, spentOut: set<OutPoint>,
                               s: Store, j: nat, i: nat, rows: Store)
  {
    && Shows(s, cur, created, rows) && Apart(block, cur, created) && CoinsLeft(db, cur, spentOut)
    && Origins(env, block, db, created, spentOut, j, i)
  }

  lemma LinkStart(env: Env, block: Block, db: Store)
    ensures LedgerLinked(env, block, db, db, map[], {}, db, 0, 0, map[])
  {
    forall k ensures At(db, k) == SeenAt(db, map[], map[], k) {}
  }

  /** An outpoint spent earlier, or found neither pending nor stored, is missing from the sequential ledger too. */
  lemma LinkMissing(env: Env, block: Block, db: Store, cur: Store, created: Pending, spentOut: set<OutPoint>,
                    s: Store, j: nat, x: nat, rows: Store, o: OutPoint)
    requires LedgerLinked(env, block, db, cur, created, spentOut, s, j, 0, rows)
    requires NoClash(db, block) && SpendsAt(block, j, x, o)
    requires o in spentOut || (o !in created && (Utxo(o) !in db || !db[Utxo(o)].Coin?))
    ensures Utxo(o) !in s || !s[Utxo(o)].Coin?
  {
    hide AddressOf;
    if o in spentOut && o in created { SpentNotPending(block, db, o, j, x); }
    assert At(s, Utxo(o)) == SeenAt(cur, created, rows, Utxo(o));
  }

  /** A coin that was stored and is made again is not spent after that. */
  lemma SpentNotPending(block: Block, db: Store, o: OutPoint, j: nat, x: nat)
    requires NoClash(db, block) && SpendsAt(block, j, x, o) && MadeBefore(block, o, j, 0)
    ensures Utxo(o) !in db
  {
    assert Absent(db, o);
    assert Utxo(o).o == o;
  }

  lemma LinkSpendPending(env: Env, block: Block, db: Store, cur: Store, created: Pending, spentOut: set<OutPoint>,
                         s: Store, h: nat, j: nat, i: nat, rows: Store)
    requires LedgerLinked(env, block, db, cur, created, spentOut, s, j, 0, rows)
    requires 0 < j < |block.txs| && i < |block.txs[j].vin| && block.txs[j].vin[i].prevout in created
    ensures var tx := block.txs[j];
            var o := tx.vin[i].prevout;
            var e := created[o].entry;
            && Utxo(o) in s && s[Utxo(o)] == Coin(e)
            && LedgerLinked(env, block, db, Apply(cur, StoredInputOps(env, h, j, tx, i, e, true)), created - {o},
                            spentOut + {o},
                            Apply(s, InputOps(env, h, j, tx, i, e)), j, 0, rows)
  {
    hide AddressOf; hide SpentRow; hide Apply; hide InputOps; hide StoredInputOps; hide Shows; hide SeenAt;
    var tx := block.txs[j];
    var o := tx.vin[i].prevout;
    var e := created[o].entry;
    assert Chained(block, o) by { assert SpendsAt(block, j, i, o); }
    hide Chained; hide MadeBefore;
    SpendPending(env, s, cur, created, rows, h, j, tx, i);
    StoredInputApplied(env, cur, h, j, tx, i, e, true);
    assert Absent(cur, o);
    assert forall p :: Utxo(p) in cur ==> p != o by {
      forall p | Utxo(p) in cur ensures p != o { assert Utxo(p).o == p; }
    }
    var cur' := Apply(cur, StoredInputOps(env, h, j, tx, i, e, true));
    forall p | p in created - {o} && Chained(block, p) ensures Absent(cur', p) { assert Absent(cur, p); }
  }

  lemma LinkSpendStored(env: Env, block: Block, db: Store, cur: Store, created: Pending, spentOut: set<OutPoint>,
                        s: Store, h: nat, j: nat, tx: Tx, i: nat, rows: Store)
    requires LedgerLinked(env, block, db, cur, created, spentOut, s, j, 0, rows) && i < |tx.vin|
    requires tx.vin[i].prevout !in created && tx.vin[i].prevout !in spentOut
    requires Utxo(tx.vin[i].prevout) in db && db[Utxo(tx.vin[i].prevout)].Coin?
    ensures var o := tx.vin[i].prevout;
            var e := db[Utxo(o)].entry;
            && Utxo(o) in s && s[Utxo(o)] == Coin(e)
            && LedgerLinked(env, block, db, Apply(cur, StoredInputOps(env, h, j, tx, i, e, false)), created,
                            spentOut + {o},
                            Apply(s, InputOps(env, h, j, tx, i, e)), j, 0, rows)
  {
    hide AddressOf; hide SpentRow; hide Apply; hide InputOps; hide StoredInputOps; hide Shows; hide SeenAt;
    hide Chained; hide MadeBefore;
    var o := tx.vin[i].prevout;
    var e := db[Utxo(o)].entry;
    assert Utxo(o) in cur;
    SpendStored(env, s, cur, created, rows, h, j, tx, i, e);
    StoredInputApplied(env, cur, h, j, tx, i, e, false);
    var cur' := Apply(cur, StoredInputOps(env, h, j, tx, i, e, false));
    forall p | p in created && Chained(block, p) ensures Absent(cur', p) { assert Absent(cur, p); }
  }

  lemma LinkCreate(env: Env, block: Block, db: Store, cur: Store, created: Pending, spentOut: set<OutPoint>,
                   s: Store, h: u32, j: nat, i: nat, rows: Store)
    requires j < |block.txs| && i < |block.txs[j].vout|
    requires LedgerLinked(env, block, db, cur, created, spentOut, s, j, i, rows)
    requires NoClash(db, block) && DistinctIds(block.txs)
    ensures var tx := block.txs[j];
            var c := Created(OutputEntry(h, j, tx, i), AddressOf(env, tx.vout[i].script));
            && OutPoint(tx.id, i) !in created
            && LedgerLinked(env, block, db, Apply(cur, CreditRowOps(env, h, j, tx, i)),
                            created[OutPoint(tx.id, i) := c], spentOut,
                            Apply(s, OutputOps(env, h, j, tx, i)), j, i + 1, rows)
  {
    hide AddressOf; hide Apply; hide OutputOps; hide CreditRowOps; hide Shows; hide SeenAt; hide OutputEntry;
    var tx := block.txs[j];
    var o := OutPoint(tx.id, i);
    NotMadeYet(block, j, i);
    CreatePending(env, s, cur, created, rows, h, j, tx, i);
    CreditRowApplied(env, cur, h, j, tx, i);
    var cur' := Apply(cur, CreditRowOps(env, h, j, tx, i));
    var c := Created(OutputEntry(h, j, tx, i), AddressOf(env, tx.vout[i].script));
    assert c.address == AddressOf(env, c.entry.script) by { EntryScript(h, j, tx, i); }
    OriginsMore(env, block, db, created, spentOut, j, i, c);
    hide MadeBefore; hide Origins;
    forall p | p in created[o := c] && Chained(block, p) ensures Absent(cur', p) {
      if p == o {
        ChainedAbsent(db, block, o);
        StillAbsent(db, cur, spentOut, o);
      } else {
        assert Absent(cur, p);
      }
    }
  }

  lemma EntryScript(h: u32, j: nat, tx: Tx, i: nat)
    requires i < |tx.vout|
    ensures OutputEntry(h, j, tx, i).script == tx.vout[i].script
  {
  }

  lemma ChainedAbsent(db: Store, block: Block, o: OutPoint)
    requires NoClash(db, block) && Chained(block, o)
    ensures Absent(db, o)
  {
  }

  lemma NotMadeYet(block: Block, j: nat, i: nat)
    requires j < |block.txs| && i < |block.txs[j].vout| && DistinctIds(block.txs)
    ensures !MadeBefore(block, OutPoint(block.txs[j].id, i), j, i)
  {
  }

  lemma OriginsMore(env: Env, block: Block, db: Store, created: Pending, spentOut: set<OutPoint>, j: nat, i: nat,
                    c: Created)
    requires j < |block.txs| && i < |block.txs[j].vout| && Origins(env, block, db, created, spentOut, j, i)
    requires c.address == AddressOf(env, c.entry.script) && !MadeBefore(block, OutPoint(block.txs[j].id, i), j, i)
    ensures Origins(env, block, db, created[OutPoint(block.txs[j].id, i) := c], spentOut, j, i + 1)
  {
    hide AddressOf;
    var o := OutPoint(block.txs[j].id, i);
    assert MadeBefore(block, o, j, i + 1) by { assert MadeBy(block, j, o); }
    forall p | MadeBefore(block, p, j, i) ensures MadeBefore(block, p, j, i + 1) {
      var m :| MadeBy(block, m, p) && (m < j || (m == j && p.index < i));
      assert MadeBy(block, m, p) && (m < j || (m == j && p.index < i + 1));
    }
    hide MadeBefore;
  }

  lemma OriginsNext(env: Env, block: Block, db: Store, created: Pending, spentOut: set<OutPoint>, j: nat)
    requires j < |block.txs| && Origins(env, block, db, created, spentOut, j, |block.txs[j].vout|)
    ensures Origins(env, block, db, created, spentOut, j + 1, 0)
  {
    hide AddressOf;
    forall p | MadeBefore(block, p, j, |block.txs[j].vout|) ensures MadeBefore(block, p, j + 1, 0) {
      var m :| MadeBy(block, m, p) && (m < j || (m == j && p.index < |block.txs[j].vout|));
      assert MadeBy(block, m, p) && (m < j + 1 || (m == j + 1 && p.index < 0));
    }
    hide MadeBefore;
  }

  lemma StillAbsent(db: Store, cur: Store, spentOut: set<OutPoint>, o: OutPoint)
    requires CoinsLeft(db, cur, spentOut) && Absent(db, o)
    ensures Absent(cur, o)
  {
    forall k | k in cur && (k.Utxo? || k.AddrOut?) ensures k.o != o {
      if k.Utxo? { assert Utxo(k.o) == k; }
      assert k in db;
    }
  }

  /** Between transactions: the index row joins the rows to be written. */
  lemma LinkIndex(env: Env, block: Block, db: Store, cur: Store, created: Pending, spentOut: set<OutPoint>,
                  s: Store, j: nat, rows: Store, location: nat)
    requires j < |block.txs|
    requires LedgerLinked(env, block, db, cur, created, spentOut, s, j, |block.txs[j].vout|, rows)
    ensures var tx := block.txs[j];
            var rows' := if env.options.indexTx then rows[TxAt(tx.id) := Location(location, j)] else rows;
            LedgerLinked(env, block, db, cur, created, spentOut, Apply(s, TxRowOps(env, j, tx, location)), j + 1, 0,
                         rows')
  {
    hide AddressOf; hide Apply; hide Origins; hide Apart; hide CoinsLeft;
    OriginsNext(env, block, db, created, spentOut, j);
    var tx := block.txs[j];
    var rows' := if env.options.indexTx then rows[TxAt(tx.id) := Location(location, j)] else rows;
    ApplyOne(s, Put(TxAt(tx.id), Location(location, j)));
    NoOps(s);
    var s' := Apply(s, TxRowOps(env, j, tx, location));
    forall k ensures At(s', k) == SeenAt(cur, created, rows', k) {
      assert At(s, k) == SeenAt(cur, created, rows, k);
    }
  }

  lemma NoOps(s: Store)
    ensures Apply(s, []) == s
  {
  }
}
