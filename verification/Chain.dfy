/** Transactions, blocks, the database columns and the write batch that changes them. */
module Chain {
  import opened Basics
  import opened Undo
  import opened Ledger

  const MAX_MONEY: int := 440_000_000 * COIN
  const COINBASE_MATURITY: int := 100
  const MAX_BLOCK_SIZE: int := 2_000_000

  /** A decoded vector: the decoder bounds its length well below 2^32. */
  type Vec<T> = s: seq<T> | |s| < U32_LIMIT witness []

  datatype Pool = Sprout | Sapling

  datatype TxIn = TxIn(prevout: OutPoint, scriptSig: Bytes)

  datatype TxOut = TxOut(value: i64, script: Bytes)

  datatype JoinSplit = JoinSplit(
    vpubOld: i64, vpubNew: i64, anchor: Hash, nullifiers: seq<Hash>, commitments: seq<Hash>)

  datatype ShieldedSpend = ShieldedSpend(nullifier: Hash, anchor: Hash)

  /** What a start transaction does to the delegate keys of its record. */
  datatype DelegateUpdate = Keep | Clear | Replace(key: Hash)

  datatype NodeTx =
    | Start(collateral: OutPoint, operatorKey: Hash, collateralKey: Option<Hash>, redeemScript: Option<Hash>,
            delegates: DelegateUpdate)
    | Confirm(collateral: OutPoint, updateType: u8, ip: Bytes)

  /** A transaction together with its id. */
  datatype Tx = Tx(
    id: Hash, vin: Vec<TxIn>, vout: Vec<TxOut>, valueBalance: i64, joinSplits: seq<JoinSplit>,
    spends: seq<ShieldedSpend>, outputs: seq<Hash>, node: Option<NodeTx>)

  /** A block together with its hash; `otherBytes` is the size of everything but scripts, inputs and addresses. */
  datatype Block = Block(
    hash: Hash, prev: Hash, time: u32, merkleRoot: Hash, saplingRoot: Hash, txs: Vec<Tx>, otherBytes: nat)

  datatype StartMeta = StartMeta(tier: u8, value: i64)

  datatype Stats = Stats(txouts: u64, total: i64)

  datatype Pools = Pools(sprout: i64, sapling: i64)

  datatype Header = Header(prev: Hash, height: nat, hasBlock: bool)

  datatype StoredBlock = StoredBlock(block: Block, location: nat)

  /** The database, column by column. */
  datatype Db = Db(
    ledger: Store, nodes: map<OutPoint, NodeRecord>, nulls: set<(Pool, Hash)>, sproutAnchors: map<Hash, Bytes>,
    saplingAnchors: map<Hash, Bytes>, trees: map<Pool, Bytes>, heights: map<nat, Hash>, times: map<Hash, u32>,
    timeIndex: set<(u32, Hash)>, tip: Option<Hash>, stats: Stats, pools: Pools, headers: map<Hash, Header>,
    blocks: map<Hash, StoredBlock>, undos: map<Hash, Bytes>)

  /** Node records sit under their own collateral. */
  predicate Filed(nodes: map<OutPoint, NodeRecord>) { forall c :: c in nodes ==> nodes[c].collateral == c }

  datatype WriteOp =
    | LedgerOp(op: Op)
    | NodePut(collateral: OutPoint, record: NodeRecord) | NodeDel(collateral: OutPoint)
    | NullPut(pool: Pool, hash: Hash) | NullDel(pool: Pool, hash: Hash)
    | AnchorPut(pool: Pool, hash: Hash, tree: Bytes) | AnchorDel(pool: Pool, hash: Hash)
    | TreePut(pool: Pool, tree: Bytes)
    | HeightPut(height: nat, hash: Hash) | HeightDel(height: nat)
    | TimePut(hash: Hash, time: u32) | TimeDel(hash: Hash)
    | TimeIndexPut(time: u32, hash: Hash) | TimeIndexDel(time: u32, hash: Hash)
    | TipPut(hash: Hash) | StatsPut(stats: Stats) | PoolsPut(pools: Pools)
    | HeaderPut(hash: Hash, header: Header) | BlockPut(hash: Hash, stored: StoredBlock)
    | UndoPut(hash: Hash, bytes: Bytes) | UndoDel(hash: Hash)

  type Batch = seq<WriteOp>

  function CommitOp(db: Db, op: WriteOp): (r: Db) {
    match op
    case LedgerOp(o) => db.(ledger := ApplyOp(db.ledger, o))
    case NodePut(c, n) => db.(nodes := db.nodes[c := n])
    case NodeDel(c) => db.(nodes := db.nodes - {c})
    case NullPut(p, h) => db.(nulls := db.nulls + {(p, h)})
    case NullDel(p, h) => db.(nulls := db.nulls - {(p, h)})
    case AnchorPut(p, h, t) =>
      db.(sproutAnchors := if p.Sprout? then db.sproutAnchors[h := t] else db.sproutAnchors,
          saplingAnchors := if p.Sapling? then db.saplingAnchors[h := t] else db.saplingAnchors)
    case AnchorDel(p, h) =>
      db.(sproutAnchors := if p.Sprout? then db.sproutAnchors - {h} else db.sproutAnchors,
          saplingAnchors := if p.Sapling? then db.saplingAnchors - {h} else db.saplingAnchors)
    case TreePut(p, t) => db.(trees := db.trees[p := t])
    case HeightPut(n, h) => db.(heights := db.heights[n := h])
    case HeightDel(n) => db.(heights := db.heights - {n})
    case TimePut(h, t) => db.(times := db.times[h := t])
    case TimeDel(h) => db.(times := db.times - {h})
    case TimeIndexPut(t, h) => db.(timeIndex := db.timeIndex + {(t, h)})
    case TimeIndexDel(t, h) => db.(timeIndex := db.timeIndex - {(t, h)})
    case TipPut(h) => db.(tip := Some(h))
    case StatsPut(s) => db.(stats := s)
    case PoolsPut(p) => db.(pools := p)
    case HeaderPut(h, e) => db.(headers := db.headers[h := e])
    case BlockPut(h, b) => db.(blocks := db.blocks[h := b])
    case UndoPut(h, b) => db.(undos := db.undos[h := b])
    case UndoDel(h) => db.(undos := db.undos - {h})
  }

  /** Writes a batch: its operations in order. */
  function Commit(db: Db, batch: Batch): (r: Db) {
    if batch == [] then db else CommitOp(Commit(db, batch[..|batch| - 1]), batch[|batch| - 1])
  }

  lemma CommitSnoc(db: Db, batch: Batch, op: WriteOp)
    ensures Commit(db, batch + [op]) == CommitOp(Commit(db, batch), op)
  {
    assert (batch + [op])[..|batch|] == batch;
  }

  function LedgerOps(ops: seq<Op>): (batch: Batch)
    ensures |batch| == |ops|
  {
    seq(|ops|, i requires 0 <= i < |ops| => LedgerOp(ops[i]))
  }

  /** Ledger writes change the ledger columns and nothing else. */
  lemma {:induction false} CommitLedgerOps(db: Db, batch: Batch, ops: seq<Op>)
    ensures Commit(db, batch + LedgerOps(ops)) == Commit(db, batch).(ledger := Apply(Commit(db, batch).ledger, ops))
  {
    if ops == [] {
      assert batch + LedgerOps(ops) == batch;
    } else {
      var front := ops[..|ops| - 1];
      var last := ops[|ops| - 1];
      CommitLedgerOps(db, batch, front);
      assert batch + LedgerOps(ops) == batch + LedgerOps(front) + [LedgerOp(last)];
      CommitSnoc(db, batch + LedgerOps(front), LedgerOp(last));
    }
  }

  // ---- errors ----

  datatype ChainError =
    | InvalidBlock | NotOnTip | BadHeight | MissingHeader | InvalidHeader | MissingInput | ValueOutOfRange
    | DuplicateNullifier | NullifierSpent | AnchorNotFound | PrematureCoinbase | ProtectedCoinbase
    | TreeFull | NodeRejected | NodeMetaMissing | ConfirmBeforeInitial | BadUpdateType | ScriptFailed
    | MissingPaidRecord | SaplingRootMismatch | CoinbaseTooLarge | StatsMismatch | NegativePool
    | MissingBlock | MissingUndo | BadUndo | UndoMismatch | NoPayeeScript | PayoutMissing

  datatype Result<+T> = Ok(value: T) | Err(error: ChainError) {
    predicate IsFailure() { Err? }
    function PropagateFailure<U>(): Result<U> requires Err? { Err(error) }
    function Extract(): T requires Ok? { value }
  }

  function CheckedI64(x: int): (r: Result<i64>) {
    if InI64(x) then Ok(x) else Err(ValueOutOfRange)
  }

  // ---- what the model takes as given ----

  datatype Options = Options(indexTx: bool, indexSpent: bool, indexAddress: bool, indexTime: bool)

  /** The parts of validation that are not modelled, as arbitrary functions, and the fixed parameters.
      `nodeCheck` judges the node transaction at an index of a block against the ledger and the records
      before the block: `None` rejects, `Some(m)` accepts with the start metadata `m`. `headerOk` and
      `blockOk` are the rules on headers and blocks that no property here depends on. */
  datatype Env = Env(
    options: Options,
    scriptHash: Bytes -> Option<Hash>,
    root: (Pool, Bytes) -> Hash,
    append: (Pool, Bytes, Hash) -> Option<Bytes>,
    emptyTree: Pool -> Bytes,
    pairHash: (Hash, Hash) -> Hash,
    verifyScript: (Tx, nat, UtxoEntry) -> bool,
    nodeCheck: (Store, map<OutPoint, NodeRecord>, Block, nat, nat) -> Option<Option<StartMeta>>,
    headerOk: (map<Hash, Header>, Block) -> bool,
    blockOk: (Block, nat) -> bool,
    genesis: Hash,
    coinbaseProtected: bool, fluxHeight: int, acadiaHeight: int,
    subsidy: nat -> nat, extraFunds: nat -> nat)
}
