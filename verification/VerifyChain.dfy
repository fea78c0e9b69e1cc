/** The node's own consistency check of its indexes, and that every chain state passes it. */
module VerifyChain {
  import opened Basics
  import opened Undo
  import opened Ledger
  import opened Chain
  import opened Sequential
  import opened Reversal
  import opened Room
  import opened Rewind
  import opened Overlay
  import opened ActiveChain
  import opened Validate
  import opened Indexed
  import opened ChainRun
  import Merkle
  import Supply

  // ---- what each level asks of one block ----

  predicate RowPasses(s: Store, id: Hash, location: nat, j: nat) { At(s, TxAt(id)) == Some(Location(location, j)) }

  /** Level 4: the spent row of an input names its spender and holds legal details. */
  predicate SpentPasses(s: Store, tx: Tx, i: nat, h: nat)
    requires i < |tx.vin|
  {
    var o := tx.vin[i].prevout;
    o == NULL_OUTPOINT ||
    (&& Spent(o) in s && s[Spent(o)].SpentBy?
     && var row := s[Spent(o)];
        && row.txid == tx.id && row.input == i && row.height == h && MoneyRange(row.satoshis) && row.addrType <= 2
        && (row.addrType == 0 ==> row.addrHash == NO_ADDRESS))
  }

  /** Level 5: an output's address credit is there, and its address row exactly while it is unspent. */
  predicate CreditPasses(env: Env, s: Store, tx: Tx, i: nat, h: nat, j: nat)
    requires i < |tx.vout|
  {
    var a := env.scriptHash(tx.vout[i].script);
    var o := OutPoint(tx.id, i);
    a.Some? ==>
      && At(s, Delta(a.value, h, j, tx.id, i, false)) == Some(Amount(tx.vout[i].value))
      && (Utxo(o) in s <==> AddrOut(a.value, o) in s)
  }

  function PayToKeyHash(hash: Bytes): (script: Bytes) { [0x76, 0xa9, 0x14] + hash + [0x88, 0xac] }

  function PayToScriptHash(hash: Bytes): (script: Bytes) { [0xa9, 0x14] + hash + [0x87] }

  /** The address of a spent row, from the script it can only have come from. */
  function SpentAddress(env: Env, row: Value): (a: Option<Hash>) {
    if !row.SpentBy? then None
    else if row.addrType == 1 then env.scriptHash(PayToKeyHash(row.addrHash))
    else if row.addrType == 2 then env.scriptHash(PayToScriptHash(row.addrHash))
    else None
  }

  /** Level 5: an input's address debit is there, and the spent output has no address row left. */
  predicate DebitPasses(env: Env, s: Store, tx: Tx, i: nat, h: nat, j: nat)
    requires i < |tx.vin|
  {
    var o := tx.vin[i].prevout;
    o == NULL_OUTPOINT || Spent(o) !in s ||
    var a := SpentAddress(env, s[Spent(o)]);
    a.Some? ==>
      && InI64(0 - s[Spent(o)].satoshis)
      && At(s, Delta(a.value, h, j, tx.id, i, true)) == Some(Amount(0 - s[Spent(o)].satoshis))
      && AddrOut(a.value, o) !in s
  }

  predicate TxPasses(env: Env, s: Store, tx: Tx, h: nat, j: nat, location: nat, level: nat) {
    && (level >= 3 ==> RowPasses(s, tx.id, location, j))
    && (level >= 4 ==> forall i :: 0 <= i < |tx.vin| ==> SpentPasses(s, tx, i, h))
    && (level >= 5 ==> forall i :: 0 <= i < |tx.vout| ==> CreditPasses(env, s, tx, i, h, j))
    && (level >= 5 && j > 0 ==> forall i :: 0 <= i < |tx.vin| ==> DebitPasses(env, s, tx, i, h, j))
  }

  predicate BlockPasses(env: Env, db: Db, x: Hash, level: nat) {
    && x in db.headers && db.headers[x].hasBlock && db.headers[x].height in db.heights
    && db.heights[db.headers[x].height] == x
    && (level >= 1 ==>
          && x in db.blocks && db.blocks[x].block.hash == x && db.blocks[x].block.prev == db.headers[x].prev
          && var stored := db.blocks[x];
             && (level >= 2 ==> Merkle.Root(env.pairHash, TxIds(stored.block.txs)) == stored.block.merkleRoot)
             && forall j :: 0 <= j < |stored.block.txs| ==>
                  TxPasses(env, db.ledger, stored.block.txs[j], db.headers[x].height, j, stored.location, level))
  }

  /** The header `d` parents back from `x`, if the walk gets there: it ends at the first block. */
  function Back(headers: map<Hash, Header>, x: Hash, d: nat): (y: Option<Hash>)
    decreases d
  {
    if d == 0 then Some(x)
    else if x !in headers || headers[x].height == 0 then None
    else Back(headers, headers[x].prev, d - 1)
  }

  /** How many headers are looked at. */
  function Depth(db: Db, best: Hash, count: nat): (n: nat)
    requires best in db.headers
  {
    var length := db.headers[best].height + 1;
    if count == 0 || length < count then length else count
  }

  /** Every block looked at passes. */
  ghost predicate ChainPasses(env: Env, db: Db, level: nat, count: nat) {
    var best := BestBlock(db);
    level > 0 && best.Some? ==>
      forall d, x :: 0 <= d < Depth(db, best.value, count) && Back(db.headers, best.value, d) == Some(x) ==>
        BlockPasses(env, db, x, level)
  }

  // ---- the check, as the node makes it ----

  method CheckSpent(s: Store, tx: Tx, i: nat, h: nat) returns (ok: bool)
    requires i < |tx.vin|
    ensures ok == SpentPasses(s, tx, i, h)
  {
    var o := tx.vin[i].prevout;
    if o == NULL_OUTPOINT { return true; }
    if Spent(o) !in s || !s[Spent(o)].SpentBy? { return false; }
    var row := s[Spent(o)];
    if row.txid != tx.id { return false; }
    if row.input != i { return false; }
    if row.height != h { return false; }
    if !MoneyRange(row.satoshis) { return false; }
    if row.addrType > 2 { return false; }
    return row.addrType != 0 || row.addrHash == NO_ADDRESS;
  }

  method CheckCredit(env: Env, s: Store, tx: Tx, i: nat, h: nat, j: nat) returns (ok: bool)
    requires i < |tx.vout|
    ensures ok == CreditPasses(env, s, tx, i, h, j)
  {
    var a := env.scriptHash(tx.vout[i].script);
    if a.None? { return true; }
    var delta := Delta(a.value, h, j, tx.id, i, false);
    if delta !in s || !s[delta].Amount? || s[delta].satoshis != tx.vout[i].value { return false; }
    var o := OutPoint(tx.id, i);
    return (Utxo(o) in s) == (AddrOut(a.value, o) in s);
  }

  method CheckDebit(env: Env, s: Store, tx: Tx, i: nat, h: nat, j: nat) returns (ok: bool)
    requires i < |tx.vin|
    ensures ok == DebitPasses(env, s, tx, i, h, j)
  {
    var o := tx.vin[i].prevout;
    if o == NULL_OUTPOINT || Spent(o) !in s { return true; }
    var row := s[Spent(o)];
    if !row.SpentBy? || !(1 <= row.addrType <= 2) { return true; }
    var script := if row.addrType == 1 then PayToKeyHash(row.addrHash) else PayToScriptHash(row.addrHash);
    var a := env.scriptHash(script);
    if a.None? { return true; }
    if !InI64(0 - row.satoshis) { return false; }
    var delta := Delta(a.value, h, j, tx.id, i, true);
    if delta !in s || !s[delta].Amount? || s[delta].satoshis != 0 - row.satoshis { return false; }
    return AddrOut(a.value, o) !in s;
  }

  method CheckTx(env: Env, s: Store, tx: Tx, h: nat, j: nat, location: nat, level: nat) returns (ok: bool)
    ensures ok == TxPasses(env, s, tx, h, j, location, level)
  {
    hide SpentPasses; hide CreditPasses; hide DebitPasses;
    if level >= 3 {
      if TxAt(tx.id) !in s || !s[TxAt(tx.id)].Location? { return false; }
      var row := s[TxAt(tx.id)];
      if row.location != location || row.index != j { return false; }
    }
    if level >= 4 {
      for i := 0 to |tx.vin|
        invariant forall k :: 0 <= k < i ==> SpentPasses(s, tx, k, h)
      {
        var fine := CheckSpent(s, tx, i, h);
        if !fine { return false; }
      }
    }
    if level >= 5 {
      for i := 0 to |tx.vout|
        invariant forall k :: 0 <= k < i ==> CreditPasses(env, s, tx, k, h, j)
      {
        var fine := CheckCredit(env, s, tx, i, h, j);
        if !fine { return false; }
      }
      if j > 0 {
        for i := 0 to |tx.vin|
          invariant forall k :: 0 <= k < i ==> DebitPasses(env, s, tx, k, h, j)
        {
          var fine := CheckDebit(env, s, tx, i, h, j);
          if !fine { return false; }
        }
      }
    }
    return true;
  }

  method CheckStored(env: Env, db: Db, x: Hash, level: nat) returns (ok: bool)
    ensures ok == BlockPasses(env, db, x, level)
  {
    hide TxPasses; hide Merkle.Root;
    if x !in db.headers { return false; }
    var entry := db.headers[x];
    if !entry.hasBlock || entry.height !in db.heights || db.heights[entry.height] != x { return false; }
    if level >= 1 {
      if x !in db.blocks { return false; }
      var stored := db.blocks[x];
      if stored.block.hash != x || stored.block.prev != entry.prev { return false; }
      if level >= 2 {
        var root := Merkle.RootByPadding(env.pairHash, TxIds(stored.block.txs));
        if root != stored.block.merkleRoot { return false; }
      }
      for j := 0 to |stored.block.txs|
        invariant forall k :: 0 <= k < j ==>
                    TxPasses(env, db.ledger, stored.block.txs[k], entry.height, k, stored.location, level)
      {
        var fine := CheckTx(env, db.ledger, stored.block.txs[j], entry.height, j, stored.location, level);
        if !fine { return false; }
      }
    }
    return true;
  }

  /** `verify_chain`: walks back from the tip. */
  method Verify(env: Env, db: Db, level: nat, count: nat) returns (ok: bool)
    ensures ok == ChainPasses(env, db, level, count)
  {
    hide BlockPasses; hide Back;
    if level == 0 { return true; }
    var best := BestBlock(db);
    if best.None? { return true; }
    var length := db.headers[best.value].height + 1;
    var remaining: nat := if count == 0 || length < count then length else count;
    ghost var all := remaining;
    var current: Hash := best.value;
    BackStarts(db.headers, best.value);
    while remaining > 0
      invariant remaining <= all == Depth(db, best.value, count)
      invariant Back(db.headers, best.value, all - remaining) == Some(current)
      invariant forall d, x :: 0 <= d < all - remaining && Back(db.headers, best.value, d) == Some(x) ==>
                  BlockPasses(env, db, x, level)
      decreases remaining
    {
      var fine := CheckStored(env, db, current, level);
      if !fine { return false; }
      InHeaders(env, db, current, level);
      var entry := db.headers[current];
      BackSteps(db.headers, best.value, all - remaining, current);
      remaining := remaining - 1;
      if entry.height == 0 {
        forall d | all - remaining <= d < all ensures Back(db.headers, best.value, d) == None {
          BackEnds(db.headers, best.value, all - remaining, d);
        }
        return true;
      }
      current := entry.prev;
    }
    return true;
  }

  lemma BackStarts(headers: map<Hash, Header>, x: Hash)
    ensures Back(headers, x, 0) == Some(x)
  {
  }

  lemma {:induction false} BackSteps(headers: map<Hash, Header>, x: Hash, d: nat, y: Hash)
    requires Back(headers, x, d) == Some(y)
    ensures Back(headers, x, d + 1) == if y in headers && headers[y].height > 0 then Some(headers[y].prev) else None
    decreases d
  {
    if d > 0 { BackSteps(headers, headers[x].prev, d - 1, y); }
  }

  lemma {:induction false} BackEnds(headers: map<Hash, Header>, x: Hash, d: nat, e: nat)
    requires Back(headers, x, d) == None && d <= e
    ensures Back(headers, x, e) == None
    decreases d
  {
    if d > 0 && x in headers && headers[x].height > 0 { BackEnds(headers, headers[x].prev, d - 1, e - 1); }
  }

  lemma InHeaders(env: Env, db: Db, x: Hash, level: nat)
    requires BlockPasses(env, db, x, level)
    ensures x in db.headers
  {
  }

  // ---- every chain state passes ----

  lemma Rebuilt(script: Bytes)
    ensures AddressInfo(script).0 == 1 ==> PayToKeyHash(AddressInfo(script).1) == script
    ensures AddressInfo(script).0 == 2 ==> PayToScriptHash(AddressInfo(script).1) == script
    ensures AddressInfo(script).0 == 0 ==> AddressInfo(script).1 == NO_ADDRESS
  {
  }

  lemma InputPasses(env: Env, s: Store, tx: Tx, i: nat, h: nat, j: nat)
    requires i < |tx.vin| && InputFound(env, s, h, j, tx, i) && AddressRows(env, s) && env.options.indexAddress
    ensures SpentPasses(s, tx, i, h) && DebitPasses(env, s, tx, i, h, j)
  {
    hide PayToKeyHash; hide PayToScriptHash; hide AddressInfo;
    var e :| InputRight(env, s, h, j, tx, i, e);
    Rebuilt(e.script);
    var o := tx.vin[i].prevout;
    var a := SpentAddress(env, s[Spent(o)]);
    if a.Some? {
      assert AddressOf(env, e.script) == a;
    }
  }

  lemma OutputPasses(env: Env, s: Store, tx: Tx, i: nat, h: u32, j: nat)
    requires i < |tx.vout| && OutputRight(env, s, h, j, tx, i) && AddressRows(env, s) && Coins(env, s)
             && env.options.indexAddress
    ensures CreditPasses(env, s, tx, i, h, j)
  {
    var o := OutPoint(tx.id, i);
    if Utxo(o) in s { assert CoinRow(env, s, o); }
  }

  lemma RightPasses(env: Env, s: Store, tx: Tx, h: u32, j: nat, location: nat, level: nat)
    requires TxRight(env, s, h, j, tx, location) && AddressRows(env, s) && Coins(env, s) && AllIndexes(env)
    requires j == 0 ==> IsCoinbase(tx)
    ensures TxPasses(env, s, tx, h, j, location, level)
  {
    hide InputFound; hide OutputRight; hide AddressRows; hide Coins; hide DebitPasses; hide CreditPasses;
    forall i | 0 <= i < |tx.vin| ensures SpentPasses(s, tx, i, h) && (j > 0 ==> DebitPasses(env, s, tx, i, h, j)) {
      if j > 0 { InputPasses(env, s, tx, i, h, j); }
    }
    forall i | 0 <= i < |tx.vout| ensures CreditPasses(env, s, tx, i, h, j) { OutputPasses(env, s, tx, i, h, j); }
  }

  lemma StoredPasses(env: Env, db: Db, links: Links, top: nat, i: nat, level: nat)
    requires OnChain(env, db, links, top) && AllIndexes(env) && i < |links|
    ensures BlockPasses(env, db, links[i].block.hash, level)
  {
    hide Replay; hide ViewOf; hide DistinctChain; hide NewRoots; hide HeaderTree; hide UndoBytes; hide Step;
    hide TxPasses; hide Reached; hide Merkle.Mutated; hide Merkle.Root; hide BlockSize; hide IsCoinbase;
    assert Stored(env, db, links, i) && GoodLink(env, links[i]);
    TipKnown(env, db, links);
    HeightKnown(env, db, links, i);
    var block := links[i].block;
    forall j | 0 <= j < |block.txs| ensures TxPasses(env, db.ledger, block.txs[j], i, j, links[i].location, level) {
      TxOnChainPasses(env, db, links, i, j, level);
    }
  }

  lemma HeightKnown(env: Env, db: Db, links: Links, i: nat)
    requires Reached(env, links, ViewOf(env, db)) && i < |links|
    ensures i in db.heights && db.heights[i] == links[i].block.hash
  {
    hide Sound; hide Supply.Counted; hide KnowsIds;
  }

  lemma TxOnChainPasses(env: Env, db: Db, links: Links, i: nat, j: nat, level: nat)
    requires DistinctChain(links) && Replay(env, links) == Ok(ViewOf(env, db)) && AllIndexes(env)
    requires i < |links| && j < |links[i].block.txs| && IsCoinbase(links[i].block.txs[0])
    ensures TxPasses(env, db.ledger, links[i].block.txs[j], i, j, links[i].location, level)
  {
    hide Replay; hide DistinctChain; hide TxPasses; hide TxRight; hide AddressRows; hide Coins; hide Reached;
    hide IsCoinbase;
    ReplayIndexed(env, links);
    ReplayReached(env, links);
    LedgerCoins(env, db, links);
    assert TxsRight(env, db.ledger, links[i].block, i, links[i].location, |links[i].block.txs|);
    RightPasses(env, db.ledger, links[i].block.txs[j], i, j, links[i].location, level);
  }

  lemma LedgerCoins(env: Env, db: Db, links: Links)
    requires Reached(env, links, ViewOf(env, db))
    ensures Coins(env, db.ledger)
  {
    hide Coins; hide Supply.Counted; hide KnowsIds; hide KnowsBlocks; hide RootKnown;
  }

  /** Walking back from the tip of a chain meets its blocks, one by one. */
  lemma {:induction false} BackOnChain(env: Env, db: Db, links: Links, top: nat, d: nat)
    requires OnChain(env, db, links, top) && d < |links|
    ensures Back(db.headers, links[|links| - 1].block.hash, d) == Some(links[|links| - 1 - d].block.hash)
    decreases d
  {
    hide OnChain; hide Back;
    var tip := links[|links| - 1].block.hash;
    if d == 0 {
      BackStarts(db.headers, tip);
    } else {
      BackOnChain(env, db, links, top, d - 1);
      PrevKnown(env, db, links, top, |links| - d);
      BackSteps(db.headers, tip, d - 1, links[|links| - d].block.hash);
    }
  }

  lemma PrevKnown(env: Env, db: Db, links: Links, top: nat, i: nat)
    requires OnChain(env, db, links, top) && i < |links|
    ensures var x := links[i].block.hash;
            && x in db.headers && db.headers[x].height == i && (i > 0 ==> db.headers[x].prev == links[i - 1].block.hash)
  {
    hide Replay; hide ViewOf; hide DistinctChain; hide NewRoots; hide HeaderTree; hide UndoBytes; hide Step;
    hide GoodLink;
    assert Stored(env, db, links, i);
  }

  lemma TipFound(env: Env, db: Db, links: Links, top: nat)
    requires OnChain(env, db, links, top)
    ensures if links == [] then BestBlock(db) == None else
              var tip := links[|links| - 1].block.hash;
              BestBlock(db) == Some(tip) && tip in db.headers && db.headers[tip].height == |links| - 1
  {
    hide Stored; hide NewRoots; hide GoodLink; hide Reached; hide ViewOf; hide DistinctChain; hide Replay;
    hide HeaderTree;
    TipKnown(env, db, links);
    if links != [] { PrevKnown(env, db, links, top, |links| - 1); }
  }

  /** With all indexes on, every state of the chain passes the check at every level and depth. */
  lemma ChainStatePasses(env: Env, db: Db, links: Links, top: nat, level: nat, count: nat)
    requires OnChain(env, db, links, top) && AllIndexes(env)
    ensures ChainPasses(env, db, level, count)
  {
    hide OnChain; hide BlockPasses; hide Back; hide BestBlock; hide Depth;
    TipFound(env, db, links, top);
    if links != [] && level > 0 {
      var tip := links[|links| - 1].block.hash;
      forall d, x | 0 <= d < Depth(db, tip, count) && Back(db.headers, tip, d) == Some(x)
        ensures BlockPasses(env, db, x, level)
      {
        DepthWithin(db, tip, count);
        BackOnChain(env, db, links, top, d);
        StoredPasses(env, db, links, top, |links| - 1 - d, level);
      }
    }
  }

  lemma DepthWithin(db: Db, best: Hash, count: nat)
    requires best in db.headers
    ensures Depth(db, best, count) <= db.headers[best].height + 1
  {
  }

  // ---- what a check that passes has seen ----

  /** The spent row names the spender, and the debit, if the spent output had an address, holds the
      amount. */
  predicate InputShown(env: Env, s: Store, tx: Tx, i: nat, h: nat, j: nat)
    requires i < |tx.vin|
  {
    var spent := Spent(tx.vin[i].prevout);
    && spent in s && s[spent].SpentBy? && s[spent].txid == tx.id && s[spent].input == i && s[spent].height == h
    && (j > 0 && SpentAddress(env, s[spent]).Some? ==>
          var debit := Delta(SpentAddress(env, s[spent]).value, h, j, tx.id, i, true);
          debit in s && s[debit] == Amount(0 - s[spent].satoshis))
  }

  /** The credit of an output with an address holds its value, and there is an address row exactly while
      the output is unspent. */
  predicate OutputShown(env: Env, s: Store, tx: Tx, i: nat, h: nat, j: nat)
    requires i < |tx.vout| && env.scriptHash(tx.vout[i].script).Some?
  {
    var a := env.scriptHash(tx.vout[i].script).value;
    var credit := Delta(a, h, j, tx.id, i, false);
    && credit in s && s[credit] == Amount(tx.vout[i].value)
    && (AddrOut(a, OutPoint(tx.id, i)) in s <==> Utxo(OutPoint(tx.id, i)) in s)
  }

  /** The rows of the transaction: where it is, what it spends and what it makes. */
  ghost predicate Shows(env: Env, s: Store, tx: Tx, h: nat, j: nat, location: nat) {
    && TxAt(tx.id) in s && s[TxAt(tx.id)] == Location(location, j)
    && (forall i :: 0 <= i < |tx.vin| && tx.vin[i].prevout != NULL_OUTPOINT ==> InputShown(env, s, tx, i, h, j))
    && (forall i :: 0 <= i < |tx.vout| && env.scriptHash(tx.vout[i].script).Some? ==> OutputShown(env, s, tx, i, h, j))
  }

  lemma PassesShows(env: Env, s: Store, tx: Tx, h: nat, j: nat, location: nat)
    requires TxPasses(env, s, tx, h, j, location, 5)
    ensures Shows(env, s, tx, h, j, location)
  {
    hide SpentAddress;
    forall i | 0 <= i < |tx.vin| && tx.vin[i].prevout != NULL_OUTPOINT ensures InputShown(env, s, tx, i, h, j) {
      assert SpentPasses(s, tx, i, h);
      assert j > 0 ==> DebitPasses(env, s, tx, i, h, j);
    }
    forall i | 0 <= i < |tx.vout| && env.scriptHash(tx.vout[i].script).Some? ensures OutputShown(env, s, tx, i, h, j) {
      assert CreditPasses(env, s, tx, i, h, j);
    }
  }

  /** A full check that passes: for every header met on the way back from the tip, the height row names
      it, its stored body has its hash and its parent, the ids hash to the stored root, and the rows of
      every transaction show it. */
  lemma PassedMeans(env: Env, db: Db, x: Hash, d: nat)
    requires ChainPasses(env, db, 5, 0) && BestBlock(db).Some?
    requires d <= db.headers[BestBlock(db).value].height && Back(db.headers, BestBlock(db).value, d) == Some(x)
    ensures x in db.headers && x in db.blocks
    ensures var header, block := db.headers[x], db.blocks[x].block;
            && header.height in db.heights && db.heights[header.height] == x
            && block.hash == x && block.prev == header.prev
            && Merkle.Root(env.pairHash, TxIds(block.txs)) == block.merkleRoot
    ensures var stored := db.blocks[x];
            forall j :: 0 <= j < |stored.block.txs| ==>
              Shows(env, db.ledger, stored.block.txs[j], db.headers[x].height, j, stored.location)
  {
    hide Back; hide Merkle.Root; hide Shows; hide TxPasses;
    assert BlockPasses(env, db, x, 5);
    var h, stored := db.headers[x].height, db.blocks[x];
    forall j | 0 <= j < |stored.block.txs| ensures Shows(env, db.ledger, stored.block.txs[j], h, j, stored.location) {
      PassesShows(env, db.ledger, stored.block.txs[j], h, j, stored.location);
    }
  }

  // ---- one wrong row is seen ----

  /** The store with the row at `k` replaced, or deleted. */
  function Changed(s: Store, k: Key, v: Option<Value>): (t: Store) { if v.Some? then s[k := v.value] else s - {k} }

  /** The row is one the check compares with an output: its credit, or the presence of its coin and its
      address row. */
  ghost predicate TellsOutput(env: Env, s: Store, tx: Tx, i: nat, h: nat, j: nat, k: Key, v: Option<Value>)
    requires i < |tx.vout|
  {
    var a, o := env.scriptHash(tx.vout[i].script), OutPoint(tx.id, i);
    a.Some? && (|| k == Delta(a.value, h, j, tx.id, i, false)
                || ((k == Utxo(o) || k == AddrOut(a.value, o)) && (v.Some? <==> k !in s)))
  }

  /** The row is an input's spent row, now with another spender or gone. */
  predicate TellsSpent(tx: Tx, i: nat, h: nat, k: Key, v: Option<Value>)
    requires i < |tx.vin|
  {
    && k == Spent(tx.vin[i].prevout) && k.o != NULL_OUTPOINT
    && (v.Some? && v.value.SpentBy? ==> v.value.txid != tx.id || v.value.input != i || v.value.height != h)
  }

  /** The row is an input's debit. */
  predicate TellsDebit(env: Env, s: Store, tx: Tx, i: nat, h: nat, j: nat, k: Key)
    requires i < |tx.vin|
  {
    var o := tx.vin[i].prevout;
    && o != NULL_OUTPOINT && j > 0 && Spent(o) in s && SpentAddress(env, s[Spent(o)]).Some?
    && k == Delta(SpentAddress(env, s[Spent(o)]).value, h, j, tx.id, i, true)
  }

  /** The change is one the check looks for at this level. */
  ghost predicate Telling(env: Env, s: Store, tx: Tx, h: nat, j: nat, level: nat, k: Key, v: Option<Value>) {
    || (level >= 3 && k == TxAt(tx.id))
    || (level >= 4 && exists i :: 0 <= i < |tx.vin| && TellsSpent(tx, i, h, k, v))
    || (level >= 5 && exists i :: 0 <= i < |tx.vin| && TellsDebit(env, s, tx, i, h, j, k))
    || (level >= 5 && exists i :: 0 <= i < |tx.vout| && TellsOutput(env, s, tx, i, h, j, k, v))
  }

  lemma TellingFails(env: Env, s: Store, tx: Tx, h: nat, j: nat, location: nat, level: nat, k: Key, v: Option<Value>)
    requires TxPasses(env, s, tx, h, j, location, level) && Telling(env, s, tx, h, j, level, k, v)
             && v != (if k in s then Some(s[k]) else None)
    ensures !TxPasses(env, Changed(s, k, v), tx, h, j, location, level)
  {
    hide SpentAddress;
    var t := Changed(s, k, v);
    if i :| level >= 4 && 0 <= i < |tx.vin| && TellsSpent(tx, i, h, k, v) {
      assert !SpentPasses(t, tx, i, h);
    } else if i :| level >= 5 && 0 <= i < |tx.vin| && TellsDebit(env, s, tx, i, h, j, k) {
      assert DebitPasses(env, s, tx, i, h, j);
      assert !DebitPasses(env, t, tx, i, h, j);
    } else if i :| level >= 5 && 0 <= i < |tx.vout| && TellsOutput(env, s, tx, i, h, j, k, v) {
      assert CreditPasses(env, s, tx, i, h, j);
      assert !CreditPasses(env, t, tx, i, h, j);
    }
  }

  /** Blocks looked at: the last `count`, or all. */
  predicate LookedAt(links: Links, i: nat, count: nat) { i < |links| && (count == 0 || |links| - i <= count) }

  /** Any one wrong row is seen: on a chain state with all indexes, changing a single row of a block
      looked at that tells at the level makes the check fail. */
  lemma WrongRowSeen(env: Env, db: Db, links: Links, top: nat, level: nat, count: nat, i: nat, j: nat, k: Key,
                     v: Option<Value>)
    requires OnChain(env, db, links, top) && AllIndexes(env) && LookedAt(links, i, count)
             && j < |links[i].block.txs|
    requires Telling(env, db.ledger, links[i].block.txs[j], i, j, level, k, v)
             && v != (if k in db.ledger then Some(db.ledger[k]) else None)
    ensures !ChainPasses(env, db.(ledger := Changed(db.ledger, k, v)), level, count)
  {
    hide OnChain; hide Back; hide TxPasses; hide Telling; hide Merkle.Root;
    var after := db.(ledger := Changed(db.ledger, k, v));
    var x := links[i].block.hash;
    TellingLevel(env, db.ledger, links[i].block.txs[j], i, j, level, k, v);
    StoredPasses(env, db, links, top, i, level);
    BodyKnown(env, db, links, top, i);
    TellingFails(env, db.ledger, links[i].block.txs[j], i, j, links[i].location, level, k, v);
    assert !BlockPasses(env, after, x, level);
    Unseen(env, db, links, top, after, level, count, i);
  }

  lemma TellingLevel(env: Env, s: Store, tx: Tx, h: nat, j: nat, level: nat, k: Key, v: Option<Value>)
    requires Telling(env, s, tx, h, j, level, k, v)
    ensures level >= 3
  {
  }

  lemma BodyKnown(env: Env, db: Db, links: Links, top: nat, i: nat)
    requires OnChain(env, db, links, top) && i < |links|
    ensures var x := links[i].block.hash;
            && x in db.headers && db.headers[x].height == i
            && x in db.blocks && db.blocks[x].block == links[i].block && db.blocks[x].location == links[i].location
  {
    hide Replay; hide ViewOf; hide DistinctChain; hide NewRoots; hide HeaderTree; hide UndoBytes; hide Step;
    hide GoodLink;
    assert Stored(env, db, links, i);
  }

  /** A block looked at that does not pass makes the whole check fail. */
  lemma Unseen(env: Env, db: Db, links: Links, top: nat, after: Db, level: nat, count: nat, i: nat)
    requires OnChain(env, db, links, top) && LookedAt(links, i, count) && level > 0
    requires after.headers == db.headers && after.tip == db.tip && !BlockPasses(env, after, links[i].block.hash, level)
    ensures !ChainPasses(env, after, level, count)
  {
    hide OnChain; hide BlockPasses; hide Back;
    TipFound(env, db, links, top);
    BackOnChain(env, db, links, top, |links| - 1 - i);
    var tip := links[|links| - 1].block.hash;
    assert BestBlock(after) == Some(tip) && |links| - 1 - i < Depth(after, tip, count);
    assert Back(after.headers, tip, |links| - 1 - i) == Some(links[i].block.hash);
  }

  /** A wrong or missing height row is seen at every level. */
  lemma WrongHeightSeen(env: Env, db: Db, links: Links, top: nat, level: nat, count: nat, i: nat,
                        heights: map<nat, Hash>)
    requires OnChain(env, db, links, top) && LookedAt(links, i, count) && level > 0
    requires i !in heights || heights[i] != links[i].block.hash
    ensures !ChainPasses(env, db.(heights := heights), level, count)
  {
    hide OnChain; hide Back; hide TxPasses; hide Merkle.Root;
    BodyKnown(env, db, links, top, i);
    Unseen(env, db, links, top, db.(heights := heights), level, count, i);
  }

  /** A missing body, or one with another hash or parent or, from level 2 on, another root than its ids
      hash to, is seen. */
  lemma WrongBodySeen(env: Env, db: Db, links: Links, top: nat, level: nat, count: nat, i: nat,
                      blocks: map<Hash, StoredBlock>)
    requires OnChain(env, db, links, top) && LookedAt(links, i, count) && level > 0
    requires var x := links[i].block.hash;
             || x !in blocks || blocks[x].block.hash != x || blocks[x].block.prev != links[i].block.prev
             || (level >= 2
                 && Merkle.Root(env.pairHash, TxIds(blocks[x].block.txs)) != blocks[x].block.merkleRoot)
    ensures !ChainPasses(env, db.(blocks := blocks), level, count)
  {
    hide OnChain; hide Back; hide TxPasses; hide Merkle.Root;
    BodyKnown(env, db, links, top, i);
    ParentKnown(env, db, links, top, i);
    Unseen(env, db, links, top, db.(blocks := blocks), level, count, i);
  }

  lemma ParentKnown(env: Env, db: Db, links: Links, top: nat, i: nat)
    requires OnChain(env, db, links, top) && i < |links|
    ensures links[i].block.hash in db.headers && db.headers[links[i].block.hash].prev == links[i].block.prev
  {
    hide Replay; hide ViewOf; hide DistinctChain; hide NewRoots; hide HeaderTree; hide UndoBytes; hide Step;
    hide GoodLink;
    assert Stored(env, db, links, i);
  }
}
