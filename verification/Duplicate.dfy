/** Two coinbases with one id. Up to height 20 the coinbase does not have to name its height, so that
    miners of two blocks can put the same coinbase in both. The second block is accepted, and taking
    it back takes the first coinbase's coin and index row with it. */
module Duplicate {
  import opened Basics
  import opened Codec
  import opened Undo
  import opened Ledger
  import opened Chain
  import opened Sequential
  import opened Reversal
  import opened Rewind
  import opened ActiveChain
  import opened Validate
  import opened Linked
  import opened Sizes
  import opened ConnectBlock
  import opened Disconnect
  import opened ChainRun
  import TakeBack

  function HashOf(n: u8): (h: Hash) { ZERO_HASH[0 := n] }

  const REWARD: i64 := 100_000_000

  /** One null input with a two-byte script, one output. */
  function Coinbase(id: Hash): (tx: Tx) {
    Tx(id, [TxIn(NULL_OUTPOINT, [0, 0])], [TxOut(REWARD, [])], 0, [], [], [], None)
  }

  function OnlyCoinbase(hash: Hash, prev: Hash, id: Hash): (b: Block) {
    Block(hash, prev, 0, id, ZERO_HASH, [Coinbase(id)], 200)
  }

  const GENESIS: Block := OnlyCoinbase(HashOf(1), ZERO_HASH, HashOf(11))
  const FIRST: Block := OnlyCoinbase(HashOf(2), HashOf(1), HashOf(12))
  const SECOND: Block := OnlyCoinbase(HashOf(3), HashOf(2), HashOf(12))
  const REPEATED: Hash := HashOf(12)

  /** The rules left abstract accept the three blocks. */
  ghost predicate Permits(env: Env) {
    && ShortTrees(env) && env.genesis == GENESIS.hash && env.acadiaHeight > 2
    && (forall hs :: env.headerOk(hs, GENESIS) && env.headerOk(hs, FIRST) && env.headerOk(hs, SECOND))
    && env.blockOk(GENESIS, 0) && env.blockOk(FIRST, 1) && env.blockOk(SECOND, 2)
    && forall h: nat :: h <= 2 ==> InI64(env.subsidy(h) + env.extraFunds(h))
  }

  /** Rules that reject nothing, with one commitment root for every tree. */
  function Lenient(options: Options): (env: Env) {
    Env(options, _ => None, (_, _) => ZERO_HASH, (_, _, _) => None, _ => [], (_, _) => ZERO_HASH, (_, _, _) => true,
        (_, _, _, _, _) => Some(None), (_, _) => true, (_, _) => true, GENESIS.hash, false, 0, 1000, _ => 0, _ => 0)
  }

  lemma LenientPermits(options: Options)
    ensures Permits(Lenient(options)) && Lenient(options).options == options
  {
  }

  // ---- validation ----

  lemma CoinbaseValid(env: Env, hash: Hash, prev: Hash, id: Hash, h: nat)
    requires env.blockOk(OnlyCoinbase(hash, prev, id), h)
    ensures ValidBlock(env, OnlyCoinbase(hash, prev, id), h)
  {
    var block := OnlyCoinbase(hash, prev, id);
    var tx := Coinbase(id);
    assert ScriptBytes(tx.vout[..0]) == 0;
    assert ScriptBytes(tx.vout) == 0;
    assert TxsBytes(block.txs, 0) == 0;
    assert TxIds(block.txs) == [id];
  }

  lemma CoinbaseNoClash(db: Store, hash: Hash, prev: Hash, id: Hash)
    ensures NoClash(db, OnlyCoinbase(hash, prev, id))
  {
  }

  // ---- connecting ----

  /** The run after the only transaction, up to the ledger. */
  lemma CoinbaseStep(env: Env, view: View, hash: Hash, prev: Hash, id: Hash, h: u32, location: nat)
    ensures var r := StepTxs(env, view, OnlyCoinbase(hash, prev, id), h, location, 1);
            && r.Ok? && Utxo(OutPoint(id, 0)) in r.value.ledger
            && r.value == StartRun(view).(ledger := r.value.ledger,
                                          totals := StartRun(view).totals.(created := 1, valueCreated := REWARD))
  {
    hide AddressOf; hide Apply;
    var block, tx, run := OnlyCoinbase(hash, prev, id), Coinbase(id), StartRun(view);
    assert StepTxs(env, view, block, h, location, 0) == Ok(run);
    CoinbaseAmounts(id);
    assert CheckShielded(env, view, tx, run) == Ok(run) by {
      assert JoinSplits(env, view, [], run.nulls, map[], 0) == Ok((run.nulls, 0));
      assert Spends(env, view, [], run.nulls) == Ok(run.nulls);
    }
    assert GrowTrees(env, tx, run) == Ok(run) by {
      assert AppendAll(env, Sprout, run.sproutTree, []) == Ok(run.sproutTree);
      assert AppendAll(env, Sapling, run.saplingTree, []) == Ok(run.saplingTree);
    }
    CoinPut(env, view.ledger, h, id, location);
  }

  lemma CoinbaseAmounts(id: Hash)
    ensures OutputsInRange(Coinbase(id)) && ShieldedInRange(Coinbase(id)) && SumOut(Coinbase(id).vout) == REWARD
    ensures ValueOut(Coinbase(id)) == REWARD && ShieldedIn(Coinbase(id)) == 0
  {
    var tx := Coinbase(id);
    assert tx.vout[..0] == [];
  }

  lemma CoinPut(env: Env, s: Store, h: u32, id: Hash, location: nat)
    ensures var ops := OutputsOps(env, h, 0, Coinbase(id), 1) + TxRowOps(env, 0, Coinbase(id), location);
            Utxo(OutPoint(id, 0)) in Apply(s, ops)
  {
    hide AddressOf; hide Apply;
    var tx := Coinbase(id);
    var ops := OutputsOps(env, h, 0, tx, 1) + TxRowOps(env, 0, tx, location);
    assert OutputsOps(env, h, 0, tx, 0) == [];
    assert OutputsOps(env, h, 0, tx, 1) == OutputOps(env, h, 0, tx, 0);
    assert ops[0].key == Utxo(OutPoint(id, 0));
    OutputsPut(env, h, 0, tx, 1);
    PutStays(s, ops, 0);
  }

  lemma {:induction false} PutStays(s: Store, ops: seq<Op>, k: nat)
    requires k < |ops| && forall i :: 0 <= i < |ops| ==> ops[i].Put?
    ensures ops[k].key in Apply(s, ops)
  {
    if k < |ops| - 1 { PutStays(s, ops[..|ops| - 1], k); }
  }

  /** The last checks pass on a state with small totals. */
  lemma CoinbaseTotals(env: Env, view: View, hash: Hash, prev: Hash, id: Hash, h: u32, run: Run)
    requires h <= 2 && h < env.acadiaHeight && InI64(env.subsidy(h) + env.extraFunds(h)) && view.pools == Pools(0, 0)
    requires view.stats.txouts <= 2 && 0 <= view.stats.total <= 2 * REWARD
    requires run.totals == StartRun(view).totals.(created := 1, valueCreated := REWARD)
    ensures FinalTotals(env, view, OnlyCoinbase(hash, prev, id), h, run) ==
            Ok((Stats(view.stats.txouts + 1, view.stats.total + REWARD), Pools(0, 0)))
  {
    hide ValueOut; hide NewTree;
  }

  /** The block connects on any state with small totals. */
  lemma CoinbaseConnects(env: Env, view: View, hash: Hash, prev: Hash, id: Hash, h: u32, location: nat)
    requires h <= 2 && h < env.acadiaHeight && InI64(env.subsidy(h) + env.extraFunds(h)) && view.pools == Pools(0, 0)
    requires view.stats.txouts <= 2 && 0 <= view.stats.total <= 2 * REWARD
    ensures var r := ConnectView(env, view, OnlyCoinbase(hash, prev, id), h, location, []);
            && r.Ok? && Utxo(OutPoint(id, 0)) in r.value.view.ledger && r.value.view.pools == Pools(0, 0)
            && r.value.view.stats == Stats(view.stats.txouts + 1, view.stats.total + REWARD)
            && r.value.undo == BlockUndo(view.sproutTree, view.saplingTree, [], [], [])
    ensures FreshRoots(env, view, OnlyCoinbase(hash, prev, id), h, location)
  {
    hide ConnectView; hide StepTxs; hide LogicalTime; hide NewAnchors; hide NewTree; hide FinalTotals;
    var block := OnlyCoinbase(hash, prev, id);
    CoinbaseStep(env, view, hash, prev, id, h, location);
    Phases(env, view, block, h, location, []);
    CoinbaseTotals(env, view, hash, prev, id, h, StepTxs(env, view, block, h, location, 1).value);
    assert PayNodes(h, [], view.nodes, []) == Ok((view.nodes, []));
  }

  // ---- disconnecting ----

  /** The block disconnects, and takes the coin and any index row of its id with it. */
  lemma CoinbaseBack(env: Env, view: View, hash: Hash, prev: Hash, id: Hash, h: nat, undo: BlockUndo, tip: Option<Hash>)
    requires undo.spent == [] && undo.nodes == [] && undo.paid == []
    requires view.pools == Pools(0, 0) && 1 <= view.stats.txouts <= 3 && REWARD <= view.stats.total <= 3 * REWARD
    ensures var r := DisconnectView(env, view, OnlyCoinbase(hash, prev, id), h, undo, tip);
            && r.Ok? && (env.options.indexTx ==> TxAt(id) !in r.value.ledger)
            && Utxo(OutPoint(id, 0)) !in r.value.ledger && r.value.tip == tip
  {
    hide Apply; hide UndoTxs; hide OldAnchors;
    var block, tx := OnlyCoinbase(hash, prev, id), Coinbase(id);
    assert PoolDeltas(block, 0) == Ok((0, 0));
    assert PoolDeltas(block, 1) == Ok((0, 0)) by { assert JoinSplitDelta([], 0) == Ok(0); }
    assert RestoreAll(view.nodes, [], 0) == view.nodes;
    CoinTaken(env, id, h, block, StartUndo(view, undo));
  }

  lemma CoinTaken(env: Env, id: Hash, h: nat, block: Block, st: UndoState)
    requires block.txs == [Coinbase(id)] && st.valueRemoved == 0 && st.removed == 0
    ensures var r := UndoTxs(env, block, h, 1, st);
            && r.Ok? && Utxo(OutPoint(id, 0)) !in r.value.ledger
            && (env.options.indexTx ==> TxAt(id) !in r.value.ledger)
            && r.value == st.(ledger := r.value.ledger, removed := 1, valueRemoved := REWARD)
  {
    hide Apply; hide AddressOf; hide Keys;
    var tx := Coinbase(id);
    assert RemoveValue(tx, 0, 0) == Ok(0);
    assert RemoveValue(tx, 1, 0) == Ok(REWARD);
    var ops := UndoCreditOps(env, h, 0, tx);
    TakeBack.UndoOutputsDelete(env, h, 0, tx, 1);
    ApplyDels(st.ledger, ops);
    assert UndoOutputsOps(env, h, 0, tx, 0) == [];
    CoinKey(env, id, h);
    var next := UndoTx(env, h, 0, tx, st).value;
    assert UndoTxs(env, block, h, 0, next) == Ok(next);
  }

  lemma CoinKey(env: Env, id: Hash, h: nat)
    ensures Utxo(OutPoint(id, 0)) in Keys(UndoCreditOps(env, h, 0, Coinbase(id)))
    ensures env.options.indexTx ==> TxAt(id) in Keys(UndoCreditOps(env, h, 0, Coinbase(id)))
  {
    hide AddressOf;
    var ops := UndoCreditOps(env, h, 0, Coinbase(id));
    assert UndoOutputsOps(env, h, 0, Coinbase(id), 0) == [];
    assert UndoOutputsOps(env, h, 0, Coinbase(id), 1) == UndoOutputOps(env, h, 0, Coinbase(id), 0);
    assert ops[0].key == Utxo(OutPoint(id, 0));
    assert env.options.indexTx ==> ops[|ops| - 1].key == TxAt(id);
  }

  // ---- the run ----

  /** The place a block is admitted to: under the tip, or at the bottom of an empty database. */
  predicate Follows(env: Env, db: Db, block: Block, h: nat) {
    && block.hash !in db.headers && block.hash != ZERO_HASH && env.headerOk(db.headers, block)
    && (if h == 0 then block.prev == ZERO_HASH && block.hash == env.genesis && BestBlock(db) == None
        else && block.prev != ZERO_HASH && BestBlock(db) == Some(block.prev)
             && block.prev in db.headers && db.headers[block.prev].height == h - 1)
  }

  predicate SmallTotals(db: Db, n: nat) {
    db.pools == Pools(0, 0) && db.stats.txouts == n && db.stats.total == n * REWARD
  }

  /** `after` is what connecting the block of height `h` to `db` leaves. */
  ghost predicate Mined(env: Env, db: Db, after: Db, block: Block, h: nat)
    requires h <= 2 && block.txs != []
  {
    var spec := ConnectView(env, ViewOf(env, db), block, h, h, []);
    && Admit(env, db, block, h) == Ok(Header(block.prev, h, false)) && spec.Ok?
    && ConnectedDb(env, db, after, block, h, h, Header(block.prev, h, false), spec.value)
    && spec.value.undo == BlockUndo(Tree(env, db, Sprout), Tree(env, db, Sapling), [], [], [])
    && TipColumns(db, after, block, h, h, Header(block.prev, h, false))
  }

  /** Connects one of the blocks and commits the batch. */
  method Mine(env: Env, db: Db, hash: Hash, prev: Hash, id: Hash, h: nat) returns (after: Db)
    requires h <= 2 && h < env.acadiaHeight && InI64(env.subsidy(h) + env.extraFunds(h)) && SmallTotals(db, h)
    requires env.blockOk(OnlyCoinbase(hash, prev, id), h) && Follows(env, db, OnlyCoinbase(hash, prev, id), h)
    ensures Mined(env, db, after, OnlyCoinbase(hash, prev, id), h)
    ensures SmallTotals(after, h + 1) && Utxo(OutPoint(id, 0)) in after.ledger
  {
    hide ConnectView; hide ConnectedDb; hide Commit; hide ValidBlock; hide NoClash; hide BestBlock; hide Keeping;
    var block := OnlyCoinbase(hash, prev, id);
    CoinbaseValid(env, hash, prev, id, h);
    CoinbaseNoClash(db.ledger, hash, prev, id);
    CoinbaseConnects(env, ViewOf(env, db), hash, prev, id, h, h);
    var batch := ConnectTip(env, db, block, h, h, []);
    after := Commit(db, batch.value);
    ConnectedParts(env, db, after, block, h, h, Header(prev, h, false),
                   ConnectView(env, ViewOf(env, db), block, h, h, []).value);
  }

  lemma MinedFollows(env: Env, db: Db, after: Db, block: Block, h: nat, next: Block)
    requires h <= 1 && block.txs != [] && Mined(env, db, after, block, h) && next.prev == block.hash
             && block.hash != ZERO_HASH
    requires next.hash !in db.headers && next.hash != block.hash && next.hash != ZERO_HASH
             && env.headerOk(after.headers, next)
    ensures Follows(env, after, next, h + 1)
  {
    hide ConnectView; hide ConnectedDb; hide ViewOf; hide Admit;
  }

  lemma HashesDiffer(a: u8, b: u8)
    requires a != b
    ensures HashOf(a) != HashOf(b)
  {
    assert HashOf(a)[0] == a && HashOf(b)[0] == b;
  }

  lemma NotZero(a: u8)
    requires a != 0
    ensures HashOf(a) != ZERO_HASH
  {
    assert HashOf(a)[0] == a && ZERO_HASH[0] == 0;
  }

  /** The database of the chain with the coinbase, once. */
  method MineTwo(env: Env) returns (db: Db)
    requires Permits(env)
    ensures OnChain(env, db, [Link(GENESIS, 0, []), Link(FIRST, 1, [])], 2)
    ensures Follows(env, db, SECOND, 2) && SmallTotals(db, 2) && Utxo(OutPoint(REPEATED, 0)) in db.ledger
  {
    hide ConnectView; hide ConnectedDb; hide OnChain; hide BestBlock; hide Admit; hide FreshRoots; hide Follows;
    hide ViewOf; hide Mined; hide Permits;
    FreshGenesis(env);
    Permitted(env);
    var db1 := Mine(env, EMPTY_DB, HashOf(1), ZERO_HASH, HashOf(11), 0);
    AfterGenesis(env, db1);
    Grows(env, EMPTY_DB, [], [Link(GENESIS, 0, [])], 0, HashOf(1), ZERO_HASH, HashOf(11), db1);
    db := Mine(env, db1, HashOf(2), HashOf(1), HashOf(12), 1);
    AfterFirst(env, db1, db);
    OneId();
    Grows(env, db1, [Link(GENESIS, 0, [])], [Link(GENESIS, 0, []), Link(FIRST, 1, [])], 1, HashOf(2), HashOf(1),
          HashOf(12), db);
  }

  lemma Permitted(env: Env)
    requires Permits(env)
    ensures env.acadiaHeight > 2 && env.blockOk(GENESIS, 0) && env.blockOk(FIRST, 1)
            && env.blockOk(SECOND, 2)
    ensures InI64(env.subsidy(0) + env.extraFunds(0)) && InI64(env.subsidy(1) + env.extraFunds(1))
            && InI64(env.subsidy(2) + env.extraFunds(2))
  {
  }

  lemma FreshGenesis(env: Env)
    requires Permits(env)
    ensures OnChain(env, EMPTY_DB, [], 0) && Follows(env, EMPTY_DB, GENESIS, 0) && SmallTotals(EMPTY_DB, 0)
  {
    EmptyOnChain(env);
    NotZero(1);
  }

  lemma AfterGenesis(env: Env, db: Db)
    requires Permits(env) && Mined(env, EMPTY_DB, db, GENESIS, 0)
    ensures Follows(env, db, FIRST, 1) && HashOf(3) !in db.headers
  {
    hide ConnectView; hide ConnectedDb; hide ViewOf; hide Admit;
    NotZero(1); NotZero(2);
    HashesDiffer(2, 1); HashesDiffer(3, 1);
    MinedFollows(env, EMPTY_DB, db, GENESIS, 0, FIRST);
  }

  lemma AfterFirst(env: Env, db1: Db, db: Db)
    requires Permits(env) && Mined(env, db1, db, FIRST, 1) && HashOf(3) !in db1.headers
    ensures Follows(env, db, SECOND, 2)
  {
    hide Mined;
    NotZero(2); NotZero(3);
    HashesDiffer(3, 2);
    MinedFollows(env, db1, db, FIRST, 1, SECOND);
  }

  lemma OneId()
    ensures BlockIds(FIRST) !! Ids([Link(GENESIS, 0, [])])
  {
    HashesDiffer(11, 12);
    var links := [Link(GENESIS, 0, [])];
    assert links[..0] == [];
    assert Ids(links[..0]) == {};
    forall id | id in Ids(links) ensures id == HashOf(11) { assert id in BlockIds(GENESIS); }
  }

  /** A mined block with a new id extends the chain. */
  lemma Grows(env: Env, db: Db, links: Links, links': Links, h: nat, hash: Hash, prev: Hash, id: Hash, after: Db)
    requires h <= 1 && h == |links| && links' == links + [Link(OnlyCoinbase(hash, prev, id), h, [])]
    requires BlockIds(OnlyCoinbase(hash, prev, id)) !! Ids(links) && h < env.acadiaHeight
             && InI64(env.subsidy(h) + env.extraFunds(h))
    requires SmallTotals(db, h) && Follows(env, db, OnlyCoinbase(hash, prev, id), h)
    requires OnChain(env, db, links, h) && Mined(env, db, after, OnlyCoinbase(hash, prev, id), h)
    ensures OnChain(env, after, links', h + 1)
  {
    hide ConnectView; hide ConnectedDb; hide OnChain; hide BestBlock; hide Admit; hide FreshRoots; hide Ids;
    hide BlockIds;
    var block := OnlyCoinbase(hash, prev, id);
    CoinbaseConnects(env, ViewOf(env, db), hash, prev, id, h, h);
    ConnectStep(env, db, links, links', h, block, h, h, [], Header(prev, h, false),
                ConnectView(env, ViewOf(env, db), block, h, h, []).value, after);
  }

  /** The code has no check against an id that is already on the chain. On a database it reaches, a
      block that repeats a coinbase is admitted, connected and committed; disconnecting it succeeds,
      and the state is not the one before: the earlier coinbase has lost its coin, and its index row if
      there is an index. */
  method RepeatedIdIsNotTakenBack(env: Env) returns (before: Db, mid: Db, back: Db)
    requires Permits(env)
    ensures OnChain(env, before, [Link(GENESIS, 0, []), Link(FIRST, 1, [])], 2)
    ensures Admit(env, before, SECOND, 2).Ok? && BestBlock(mid) == Some(SECOND.hash)
            && BestBlock(back) == BestBlock(before)
    ensures ConnectView(env, ViewOf(env, before), SECOND, 2, 2, []).Ok? && FindTarget(mid, SECOND.hash).Ok?
    ensures ViewOf(env, mid) == ConnectView(env, ViewOf(env, before), SECOND, 2, 2, []).value.view
    ensures var t := FindTarget(mid, SECOND.hash).value;
            DisconnectView(env, ViewOf(env, mid), t.block, 2, t.undo, BestBlock(before)) == Ok(ViewOf(env, back))
    ensures Utxo(OutPoint(REPEATED, 0)) in before.ledger && Utxo(OutPoint(REPEATED, 0)) !in back.ledger
    ensures env.options.indexTx ==> TxAt(REPEATED) in before.ledger && TxAt(REPEATED) !in back.ledger
    ensures ViewOf(env, back) != ViewOf(env, before)
  {
    hide ConnectView; hide ConnectedDb; hide OnChain; hide Admit; hide DisconnectView; hide FindTarget; hide ViewOf;
    hide Commit; hide Permits; hide BestBlock; hide Follows; hide DisconnectedDb; hide TipColumns;
    before := MineTwo(env);
    Permitted(env);
    if env.options.indexTx { Indexed(env, before); }
    mid := Mine(env, before, HashOf(3), HashOf(2), HashOf(12), 2);
    Found(env, before, mid);
    var batch := DisconnectTip(env, mid, SECOND.hash);
    back := Commit(mid, batch.value);
    ghost var t := FindTarget(mid, SECOND.hash).value;
    DisconnectedParts(env, mid, back, SECOND.hash, DisconnectView(env, ViewOf(env, mid), t.block, 2, t.undo,
                                                                  Some(FIRST.hash)).value);
    ConnectedParts(env, before, mid, SECOND, 2, 2, Header(FIRST.hash, 2, false),
                   ConnectView(env, ViewOf(env, before), SECOND, 2, 2, []).value);
    LedgerViewed(env, back);
    LedgerViewed(env, before);
    TipViewed(env, back);
  }

  lemma TipViewed(env: Env, db: Db)
    ensures ViewOf(env, db).tip == BestBlock(db)
  {
  }

  lemma Indexed(env: Env, db: Db)
    requires env.options.indexTx && OnChain(env, db, [Link(GENESIS, 0, []), Link(FIRST, 1, [])], 2)
    ensures TxAt(REPEATED) in db.ledger
  {
    hide OnChain;
    var links := [Link(GENESIS, 0, []), Link(FIRST, 1, [])];
    IndexedIsOnChain(env, db, links, 2, SECOND);
    assert REPEATED in BlockIds(SECOND) && REPEATED in BlockIds(FIRST) by {
      assert SECOND.txs[0].id == REPEATED && FIRST.txs[0].id == REPEATED;
    }
    assert REPEATED in Ids(links);
  }

  /** The undo record of the repeated block reads back, and it can be disconnected. */
  lemma Found(env: Env, before: Db, mid: Db)
    requires Permits(env) && OnChain(env, before, [Link(GENESIS, 0, []), Link(FIRST, 1, [])], 2)
    requires Follows(env, before, SECOND, 2) && SmallTotals(mid, 3) && Mined(env, before, mid, SECOND, 2)
    ensures BestBlock(mid) == Some(SECOND.hash) && FindTarget(mid, SECOND.hash).Ok?
    ensures var t := FindTarget(mid, SECOND.hash).value;
            var r := DisconnectView(env, ViewOf(env, mid), t.block, 2, t.undo, Some(FIRST.hash));
            && t.header == Header(FIRST.hash, 2, true)
            && BestBlock(before) == Some(FIRST.hash) == TipOf(mid, t.header.prev)
            && r.Ok? && (env.options.indexTx ==> TxAt(REPEATED) !in r.value.ledger)
            && Utxo(OutPoint(REPEATED, 0)) !in r.value.ledger
            && r.value.tip == Some(FIRST.hash)
  {
    hide ConnectView; hide OnChain; hide Admit; hide DisconnectView; hide Tree; hide ReadUndo; hide UndoBytes;
    var u := ConnectView(env, ViewOf(env, before), SECOND, 2, 2, []).value.undo;
    ReadsBack(env, before, [Link(GENESIS, 0, []), Link(FIRST, 1, [])], 2, u);
    assert Pruned(before, 2) == {};
    CoinbaseBack(env, ViewOf(env, mid), HashOf(3), HashOf(2), HashOf(12), 2, u, Some(FIRST.hash));
  }

  lemma ReadsBack(env: Env, db: Db, links: Links, top: nat, u: BlockUndo)
    requires ShortTrees(env) && OnChain(env, db, links, top)
    requires u == BlockUndo(Tree(env, db, Sprout), Tree(env, db, Sapling), [], [], [])
    ensures ReadUndo(UndoBytes(u)) == Got(u, [])
  {
    hide Replay; hide Stored; hide NewRoots; hide GoodLink; hide HeaderTree; hide DistinctChain; hide ShortTrees;
    hide SmallCoins; hide SmallNodes; hide ReadUndo; hide UndoBytes;
    ReplaySmall(env, links);
    UndoReadBack(u);
  }
}
