/** Connecting a block, one transaction at a time on the state as readers see it.
    This is the plain meaning of a block: every transaction spends from and adds to the
    current state before the next one is looked at, with no overlay and no batch. */
module Sequential {
  import opened Basics
  import opened Undo
  import opened Ledger
  import opened Chain

  // ---- the state as readers see it ----

  /** The columns a reorganisation restores, as the node reads them. */
  datatype View = View(
    ledger: Store, nodes: map<OutPoint, NodeRecord>, nulls: set<(Pool, Hash)>, sproutAnchors: map<Hash, Bytes>,
    saplingAnchors: map<Hash, Bytes>, sproutTree: Bytes, saplingTree: Bytes, heights: map<nat, Hash>,
        times: map<Hash, u32>,
    timeIndex: set<(u32, Hash)>, tip: Option<Hash>, stats: Stats, pools: Pools)

  function EmptyRoot(env: Env, pool: Pool): (h: Hash) { env.root(pool, env.emptyTree(pool)) }

  function Tree(env: Env, db: Db, pool: Pool): (t: Bytes) {
    if pool in db.trees then db.trees[pool] else env.emptyTree(pool)
  }

  /** Anchors as they are looked up: the empty root is always known, so its row never matters. */
  function KnownAnchors(env: Env, pool: Pool, anchors: map<Hash, Bytes>): (a: map<Hash, Bytes>) {
    anchors - {EmptyRoot(env, pool)}
  }

  function BestBlock(db: Db): (h: Option<Hash>) {
    if db.tip.Some? && db.tip.value in db.headers then db.tip else None
  }

  /** The restored columns of a database. */
  function ViewOf(env: Env, db: Db): (v: View) {
    View(db.ledger, db.nodes, db.nulls, KnownAnchors(env, Sprout, db.sproutAnchors),
         KnownAnchors(env, Sapling, db.saplingAnchors),
         Tree(env, db, Sprout), Tree(env, db, Sapling), db.heights, db.times, db.timeIndex, BestBlock(db), db.stats,
             db.pools)
  }

  // ---- value totals ----

  function SumOut(outs: seq<TxOut>): (t: int) {
    if outs == [] then 0 else SumOut(outs[..|outs| - 1]) + outs[|outs| - 1].value
  }

  function SumOld(js: seq<JoinSplit>): (t: int) {
    if js == [] then 0 else SumOld(js[..|js| - 1]) + js[|js| - 1].vpubOld
  }

  function SumNew(js: seq<JoinSplit>): (t: int) {
    if js == [] then 0 else SumNew(js[..|js| - 1]) + js[|js| - 1].vpubNew
  }

  predicate MoneyRange(x: int) { 0 <= x <= MAX_MONEY }

  function Positive(x: int): (p: nat) { if x > 0 then x else 0 }

  function ValueOut(tx: Tx): (v: int) { SumOut(tx.vout) + Positive(0 - tx.valueBalance) + SumOld(tx.joinSplits) }

  function ShieldedIn(tx: Tx): (v: int) { Positive(tx.valueBalance) + SumNew(tx.joinSplits) }

  predicate OutputsInRange(tx: Tx) {
    && (forall i :: 0 <= i < |tx.vout| ==> MoneyRange(tx.vout[i].value))
    && (forall i :: 0 <= i < |tx.joinSplits| ==> MoneyRange(tx.joinSplits[i].vpubOld))
    && MoneyRange(ValueOut(tx))
  }

  predicate ShieldedInRange(tx: Tx) {
    && (forall i :: 0 <= i < |tx.joinSplits| ==> MoneyRange(tx.joinSplits[i].vpubNew))
    && MoneyRange(ShieldedIn(tx))
  }

  // ---- transparent rows ----

  function AddressOf(env: Env, script: Bytes): (a: Option<Hash>) {
    if env.options.indexAddress then env.scriptHash(script) else None
  }

  const NO_ADDRESS: Bytes := [0, 0, 0, 0, 0, 0, 0, 0, 0, 0, 0, 0, 0, 0, 0, 0, 0, 0, 0, 0]

  /** `spent_address_info`: the address kind and hash of a standard script. */
  function AddressInfo(script: Bytes): (r: (nat, Bytes))
    ensures r.0 <= 2 && |r.1| == 20
  {
    if |script| == 25 && script[0] == 0x76 && script[1] == 0xa9 && script[2] == 0x14
       && script[23] == 0x88 && script[24] == 0xac then (1, script[3..23])
    else if |script| == 23 && script[0] == 0xa9 && script[1] == 0x14 && script[22] == 0x87 then (2, script[2..22])
    else (0, NO_ADDRESS)
  }

  function SpentRow(tx: Tx, i: nat, h: nat, e: UtxoEntry): (v: Value) {
    SpentBy(tx.id, i, h, e.value, AddressInfo(e.script).0, AddressInfo(e.script).1)
  }

  function InputOps(env: Env, h: nat, j: nat, tx: Tx, i: nat, e: UtxoEntry): (ops: seq<Op>)
    requires i < |tx.vin|
  {
    var o := tx.vin[i].prevout;
    (if env.options.indexSpent then [Put(Spent(o), SpentRow(tx, i, h, e))] else [])
    + [Del(Utxo(o))]
    + (match AddressOf(env, e.script)
       case Some(a) => [Del(AddrOut(a, o)), Put(Delta(a, h, j, tx.id, i, true), Amount(0 - e.value))]
       case None => [])
  }

  function OutputEntry(h: u32, j: nat, tx: Tx, i: nat): (e: UtxoEntry)
    requires i < |tx.vout|
  {
    UtxoEntry(tx.vout[i].value, tx.vout[i].script, h, j == 0)
  }

  function OutputOps(env: Env, h: u32, j: nat, tx: Tx, i: nat): (ops: seq<Op>)
    requires i < |tx.vout|
  {
    var o := OutPoint(tx.id, i);
    var e := OutputEntry(h, j, tx, i);
    [Put(Utxo(o), Coin(e))]
    + (match AddressOf(env, e.script)
       case Some(a) => [Put(AddrOut(a, o), Mark), Put(Delta(a, h, j, tx.id, i, false), Amount(e.value))]
       case None => [])
  }

  /** The rows of the first `n` outputs. */
  function OutputsOps(env: Env, h: u32, j: nat, tx: Tx, n: nat): (ops: seq<Op>)
    requires n <= |tx.vout|
  {
    if n == 0 then [] else OutputsOps(env, h, j, tx, n - 1) + OutputOps(env, h, j, tx, n - 1)
  }

  // ---- the running state within a block ----

  datatype Totals = Totals(
    created: nat, spentCount: nat, valueCreated: i64, valueSpent: i64, sprout: i64, sapling: i64, fees: i64)

  datatype Run = Run(
    ledger: Store, nodes: map<OutPoint, NodeRecord>, nulls: set<(Pool, Hash)>, sproutTree: Bytes, saplingTree: Bytes,
    spent: seq<SpentOutput>, nodeUndo: seq<NodeUndo>, scriptsOk: bool, totals: Totals)

  /** One input: its coin must be unspent, mature and, if protected, fully shielded. */
  function SpendInput(env: Env, h: nat, j: nat, tx: Tx, i: nat, run: Run, paidIn: i64): (r: Result<(Run, i64)>)
    requires i < |tx.vin|
  {
    var o := tx.vin[i].prevout;
    if Utxo(o) !in run.ledger || !run.ledger[Utxo(o)].Coin? then Err(MissingInput)
    else
      var e := run.ledger[Utxo(o)].entry;
      var _ :- CheckedI64(0 - e.value);
      var valueSpent :- CheckedI64(run.totals.valueSpent + e.value);
      if e.coinbase && h - e.height < COINBASE_MATURITY then Err(PrematureCoinbase)
      else if e.coinbase && env.coinbaseProtected && h < env.fluxHeight && tx.vout != [] then Err(ProtectedCoinbase)
      else
        var total :- CheckedI64(paidIn + e.value);
        Ok((run.(ledger := Apply(run.ledger, InputOps(env, h, j, tx, i, e)),
                 spent := run.spent + [SpentOutput(o, e)],
                 scriptsOk := run.scriptsOk && env.verifyScript(tx, i, e),
                 totals := run.totals.(spentCount := run.totals.spentCount + 1, valueSpent := valueSpent)), total))
  }

  /** The first `n` inputs, with the value they bring in. */
  function SpendInputs(env: Env, h: nat, j: nat, tx: Tx, n: nat, run: Run): (r: Result<(Run, i64)>)
    requires n <= |tx.vin|
  {
    if n == 0 then Ok((run, 0))
    else
      var before :- SpendInputs(env, h, j, tx, n - 1, run);
      SpendInput(env, h, j, tx, n - 1, before.0, before.1)
  }

  /** All inputs of a transaction after the first, whose fee is added to the total. */
  function SpendTx(env: Env, h: nat, j: nat, tx: Tx, run: Run): (r: Result<Run>) {
    if j == 0 then Ok(run)
    else
      var (spent, paidIn) :- SpendInputs(env, h, j, tx, |tx.vin|, run);
      var valueIn :- CheckedI64(ShieldedIn(tx) + paidIn);
      if valueIn < ValueOut(tx) then Err(ValueOutOfRange)
      else
        var fees :- CheckedI64(spent.totals.fees + (valueIn - ValueOut(tx)));
        Ok(spent.(totals := spent.totals.(fees := fees)))
  }

  function TxRowOps(env: Env, j: nat, tx: Tx, location: nat): (ops: seq<Op>) {
    if env.options.indexTx then [Put(TxAt(tx.id), Location(location, j))] else []
  }

  /** The new coins with their index rows, and the transaction's place in the block file. */
  function CreateOutputs(env: Env, h: u32, j: nat, tx: Tx, location: nat, run: Run): (r: Result<Run>) {
    var valueCreated :- CheckedI64(run.totals.valueCreated + SumOut(tx.vout));
    Ok(run.(ledger := Apply(run.ledger, OutputsOps(env, h, j, tx, |tx.vout|) + TxRowOps(env, j, tx, location)),
            totals := run.totals.(created := run.totals.created + |tx.vout|, valueCreated := valueCreated)))
  }

  // ---- shielded parts ----

  function AddNullifiers(before: set<(Pool, Hash)>, nulls: set<(Pool, Hash)>, pool: Pool, hs: seq<Hash>)
    : (r: Result<set<(Pool, Hash)>>)
    decreases |hs|
  {
    if hs == [] then Ok(nulls)
    else if (pool, hs[0]) in nulls then Err(if (pool, hs[0]) in before then NullifierSpent else DuplicateNullifier)
    else AddNullifiers(before, nulls + {(pool, hs[0])}, pool, hs[1..])
  }

  function AppendAll(env: Env, pool: Pool, tree: Bytes, hs: seq<Hash>): (r: Result<Bytes>)
    decreases |hs|
  {
    if hs == [] then Ok(tree)
    else match env.append(pool, tree, hs[0])
         case None => Err(TreeFull)
         case Some(t) => AppendAll(env, pool, t, hs[1..])
  }

  function AnchorTree(env: Env, view: View, inner: map<Hash, Bytes>, anchor: Hash): (r: Result<Bytes>) {
    if anchor in inner then Ok(inner[anchor])
    else if anchor == EmptyRoot(env, Sprout) then Ok(env.emptyTree(Sprout))
    else if anchor in view.sproutAnchors then Ok(view.sproutAnchors[anchor])
    else Err(AnchorNotFound)
  }

  /** Joinsplits of one transaction in order: pool movement, fresh nullifiers, a known or earlier anchor. */
  function JoinSplits(env: Env, view: View, js: seq<JoinSplit>, nulls: set<(Pool, Hash)>, inner: map<Hash, Bytes>,
                      sprout: i64)
    : (r: Result<(set<(Pool, Hash)>, i64)>)
  {
    if js == [] then Ok((nulls, sprout))
    else
      var up :- CheckedI64(sprout + js[0].vpubOld);
      var delta :- CheckedI64(up - js[0].vpubNew);
      var nulls' :- AddNullifiers(view.nulls, nulls, Sprout, js[0].nullifiers);
      var base :- AnchorTree(env, view, inner, js[0].anchor);
      var grown :- AppendAll(env, Sprout, base, js[0].commitments);
      JoinSplits(env, view, js[1..], nulls', inner[env.root(Sprout, grown) := grown], delta)
  }

  function Spends(env: Env, view: View, spends: seq<ShieldedSpend>,
                  nulls: set<(Pool, Hash)>): (r: Result<set<(Pool, Hash)>>) {
    if spends == [] then Ok(nulls)
    else
      var nulls' :- AddNullifiers(view.nulls, nulls, Sapling, [spends[0].nullifier]);
      if spends[0].anchor != EmptyRoot(env, Sapling) && spends[0].anchor !in view.saplingAnchors
      then Err(AnchorNotFound)
      else Spends(env, view, spends[1..], nulls')
  }

  function CheckShielded(env: Env, view: View, tx: Tx, run: Run): (r: Result<Run>) {
    var sapling :- CheckedI64(run.totals.sapling - tx.valueBalance);
    var (nulls, sprout) :- JoinSplits(env, view, tx.joinSplits, run.nulls, map[], run.totals.sprout);
    var nulls' :- Spends(env, view, tx.spends, nulls);
    Ok(run.(nulls := nulls', totals := run.totals.(sprout := sprout, sapling := sapling)))
  }

  function Commitments(js: seq<JoinSplit>): (hs: seq<Hash>) {
    if js == [] then [] else js[0].commitments + Commitments(js[1..])
  }

  function GrowTrees(env: Env, tx: Tx, run: Run): (r: Result<Run>) {
    var sprout :- AppendAll(env, Sprout, run.sproutTree, Commitments(tx.joinSplits));
    var sapling :- AppendAll(env, Sapling, run.saplingTree, tx.outputs);
    Ok(run.(sproutTree := sprout, saplingTree := sapling))
  }

  // ---- node records ----

  function Lookup<K(==), V>(m: map<K, V>, k: K): (r: Option<V>) { if k in m then Some(m[k]) else None }

  /** The record a node transaction writes, if any, given the current one. */
  function NodeWrite(t: NodeTx, current: Option<NodeRecord>, h: u32,
                     meta: Option<StartMeta>): (r: Result<Option<NodeRecord>>) {
    match t
    case Start(c, operator, key, redeem, update) =>
      if meta.None? then Err(NodeMetaMissing)
      else
        var kept := if current.Some? then current.value.delegates else None;
        var delegates := match update case Keep => kept case Clear => None case Replace(k) => Some(k);
        Ok(Some(NodeRecord(c, meta.value.tier, h, 0, h, 0, meta.value.value, operator, key, redeem, delegates, [])))
    case Confirm(c, kind, ip) =>
      if current.None? then Ok(None)
      else if kind == 0 then
        var n := current.value;
        Ok(Some(n.(confirmedHeight := if n.confirmedHeight == 0 then h else n.confirmedHeight,
                   lastConfirmedHeight := h, ip := ip)))
      else if kind == 1 then
        if current.value.confirmedHeight == 0 then Err(ConfirmBeforeInitial)
        else Ok(Some(current.value.(lastConfirmedHeight := h, ip := ip)))
      else Err(BadUpdateType)
  }

  function ApplyNode(t: Option<NodeTx>, h: u32, meta: Option<StartMeta>, run: Run): (r: Result<Run>) {
    if t.None? then Ok(run)
    else
      var c := t.value.collateral;
      var prev := Lookup(run.nodes, c);
      var write :- NodeWrite(t.value, prev, h, meta);
      Ok(run.(nodes := if write.Some? then run.nodes[c := write.value] else run.nodes,
              nodeUndo := run.nodeUndo + [NodeUndo(c, prev)]))
  }

  function CheckNode(env: Env, view: View, block: Block, h: nat, j: nat): (r: Result<Option<StartMeta>>)
    requires j < |block.txs|
  {
    if block.txs[j].node.None? then Ok(None)
    else match env.nodeCheck(view.ledger, view.nodes, block, h, j)
         case None => Err(NodeRejected)
         case Some(m) => Ok(m)
  }

  // ---- one transaction, all transactions ----

  function StepTx(env: Env, view: View, block: Block, h: u32, location: nat, j: nat, run: Run): (r: Result<Run>)
    requires j < |block.txs|
  {
    var tx := block.txs[j];
    var meta :- CheckNode(env, view, block, h, j);
    if !OutputsInRange(tx) || !ShieldedInRange(tx) then Err(ValueOutOfRange)
    else
      var checked :- CheckShielded(env, view, tx, run);
      var paid :- SpendTx(env, h, j, tx, checked);
      var noded :- ApplyNode(tx.node, h, meta, paid);
      var grown :- GrowTrees(env, tx, noded);
      CreateOutputs(env, h, j, tx, location, grown)
  }

  function StartRun(view: View): (run: Run) {
    Run(view.ledger, view.nodes, view.nulls, view.sproutTree, view.saplingTree, [], [], true,
        Totals(0, 0, 0, 0, 0, 0, 0))
  }

  /** The first `n` transactions of a block. */
  function StepTxs(env: Env, view: View, block: Block, h: u32, location: nat, n: nat): (r: Result<Run>)
    requires n <= |block.txs|
  {
    if n == 0 then Ok(StartRun(view))
    else
      var before :- StepTxs(env, view, block, h, location, n - 1);
      StepTx(env, view, block, h, location, n - 1, before)
  }

  /** A failure on a prefix is the failure of the whole. */
  lemma {:induction false} SpendInputsFailure(env: Env, h: nat, j: nat, tx: Tx, i: nat, n: nat, run: Run)
    requires i <= n <= |tx.vin|
    requires SpendInputs(env, h, j, tx, i, run).Err?
    ensures SpendInputs(env, h, j, tx, n, run) == SpendInputs(env, h, j, tx, i, run)
    decreases n
  {
    hide SpendInput;
    if i < n { SpendInputsFailure(env, h, j, tx, i, n - 1, run); }
  }

  lemma {:induction false} StepTxsFailure(env: Env, view: View, block: Block, h: u32, location: nat, i: nat, n: nat)
    requires i <= n <= |block.txs|
    requires StepTxs(env, view, block, h, location, i).Err?
    ensures StepTxs(env, view, block, h, location, n) == StepTxs(env, view, block, h, location, i)
    decreases n
  {
    hide StepTx;
    if i < n { StepTxsFailure(env, view, block, h, location, i, n - 1); }
  }

  // ---- the rest of the block ----

  /** Every paid node must have a record by now; it is marked as paid at this height. */
  function PayNodes(h: u32, paid: seq<OutPoint>, nodes: map<OutPoint, NodeRecord>, undo: seq<NodeUndo>)
    : (r: Result<(map<OutPoint, NodeRecord>, seq<NodeUndo>)>)
  {
    if paid == [] then Ok((nodes, undo))
    else if paid[0] !in nodes then Err(MissingPaidRecord)
    else
      var n := nodes[paid[0]];
      PayNodes(h, paid[1..], nodes[paid[0] := n.(lastPaidHeight := h)], undo + [NodeUndo(paid[0], Some(n))])
  }

  function NewAnchors(env: Env, pool: Pool, before: Bytes, after: Bytes,
                      anchors: map<Hash, Bytes>): (a: map<Hash, Bytes>) {
    var root := env.root(pool, after);
    if root == env.root(pool, before) || root == EmptyRoot(env, pool) then anchors
    else anchors[root := if pool == Sprout then after else []]
  }

  function NewTree(env: Env, pool: Pool, before: Bytes, after: Bytes): (t: Bytes) {
    if env.root(pool, after) == env.root(pool, before) then before else after
  }

  /** A block's time, pushed past its parent's so that times rise along the chain. */
  function LogicalTime(view: View, block: Block): (t: u32) {
    if block.prev != ZERO_HASH && block.prev in view.times && block.time <= view.times[block.prev]
    then if view.times[block.prev] + 1 < U32_LIMIT then view.times[block.prev] + 1 else U32_LIMIT - 1
    else block.time
  }

  function NewStats(stats: Stats, t: Totals): (r: Result<Stats>) {
    if stats.txouts + t.created >= U64_LIMIT || stats.txouts + t.created - t.spentCount < 0 then Err(StatsMismatch)
    else
      var up :- CheckedI64(stats.total + t.valueCreated);
      var total :- CheckedI64(up - t.valueSpent);
      Ok(Stats(stats.txouts + t.created - t.spentCount, total))
  }

  function NewPools(pools: Pools, t: Totals): (r: Result<Pools>) {
    var sprout :- CheckedI64(pools.sprout + t.sprout);
    var sapling :- CheckedI64(pools.sapling + t.sapling);
    if sprout < 0 || sapling < 0 then Err(NegativePool) else Ok(Pools(sprout, sapling))
  }

  datatype Connected = Connected(view: View, undo: BlockUndo)

  /** The whole effect of a block of height `h` paying the nodes in `paid`, and what undoes it. */
  function ConnectView(env: Env, view: View, block: Block, h: u32, location: nat,
                       paid: seq<OutPoint>): (r: Result<Connected>)
    requires block.txs != []
  {
    var run :- StepTxs(env, view, block, h, location, |block.txs|);
    if !run.scriptsOk then Err(ScriptFailed)
    else
      var (nodes, paidUndo) :- PayNodes(h, paid, run.nodes, []);
      var sapling := NewTree(env, Sapling, view.saplingTree, run.saplingTree);
      if h >= env.acadiaHeight && block.saplingRoot != env.root(Sapling, sapling) then Err(SaplingRootMismatch)
      else
        var maxReward :- CheckedI64(env.subsidy(h) + run.totals.fees + env.extraFunds(h));
        if h > 2 && ValueOut(block.txs[0]) > maxReward then Err(CoinbaseTooLarge)
        else
          var stats :- NewStats(view.stats, run.totals);
          var pools :- NewPools(view.pools, run.totals);
          var t := LogicalTime(view, block);
          Ok(Connected(
               View(run.ledger, nodes, run.nulls,
                    NewAnchors(env, Sprout, view.sproutTree, run.sproutTree, view.sproutAnchors),
                    NewAnchors(env, Sapling, view.saplingTree, run.saplingTree, view.saplingAnchors),
                    NewTree(env, Sprout, view.sproutTree, run.sproutTree),
                    NewTree(env, Sapling, view.saplingTree, run.saplingTree),
                    view.heights[h := block.hash],
                    if env.options.indexTime then view.times[block.hash := t] else view.times,
                    if env.options.indexTime then view.timeIndex + {(t, block.hash)} else view.timeIndex,
                    Some(block.hash), stats, pools),
               BlockUndo(view.sproutTree, view.saplingTree, run.spent, run.nodeUndo, paidUndo)))
  }
}
