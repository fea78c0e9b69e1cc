/** The block undo record: what a connected block overwrote, and its stored form.
    `Encode` and `Decode` are the loops over a byte buffer; the functions they are proved
    against read and write the same layout, and `RoundTrip` says exactly which records
    come back. */
module Undo {
  import opened Basics
  import opened Codec

  const BLOCK_UNDO_VERSION: u8 := 2

  datatype UtxoEntry = UtxoEntry(value: i64, script: Bytes, height: u32, coinbase: bool)

  datatype NodeRecord = NodeRecord(
    collateral: OutPoint, tier: u8, startHeight: u32, confirmedHeight: u32, lastConfirmedHeight: u32,
    lastPaidHeight: u32, collateralValue: i64, operatorKey: Hash, collateralKey: Option<Hash>,
    redeemScript: Option<Hash>, delegates: Option<Hash>, ip: Bytes)

  datatype SpentOutput = SpentOutput(outpoint: OutPoint, entry: UtxoEntry)

  datatype NodeUndo = NodeUndo(collateral: OutPoint, prev: Option<NodeRecord>)

  datatype BlockUndo = BlockUndo(
    sproutTree: Bytes, saplingTree: Bytes, spent: seq<SpentOutput>, nodes: seq<NodeUndo>, paid: seq<NodeUndo>)

  // ---- entries and records ----

  function EntryBytes(e: UtxoEntry): (b: Bytes)
    ensures |b| > |e.script|
  {
    I64Bytes(e.value) + VarBytes(e.script) + U32Bytes(e.height) + FlagByte(e.coinbase)
  }

  function ReadEntry(b: Bytes): (r: Parsed<UtxoEntry>) {
    var (value, b) :- ReadI64(b);
    var (script, b) :- ReadVarBytes(b);
    var (height, b) :- ReadU32(b);
    var (flag, b) :- ReadU8(b);
    if b != [] then Bad(TrailingBytes) else Got(UtxoEntry(value, script, height, flag != 0), [])
  }

  function RecordBytes(n: NodeRecord): (b: Bytes)
    ensures |b| > |n.ip|
  {
    OutPointBytes(n.collateral) + [n.tier] + U32Bytes(n.startHeight) + U32Bytes(n.lastConfirmedHeight)
    + U32Bytes(n.lastPaidHeight) + n.operatorKey + OptionalHash(n.collateralKey) + OptionalHash(n.redeemScript)
    + U32Bytes(n.confirmedHeight) + I64Bytes(n.collateralValue) + VarBytes(n.ip) + OptionalHash(n.delegates)
  }

  /** Older records stop before the confirmation height, the address or the delegates. */
  function ReadRecord(b: Bytes): (r: Parsed<NodeRecord>) {
    var (collateral, b) :- ReadOutPoint(b);
    var (tier, b) :- ReadU8(b);
    var (start, b) :- ReadU32(b);
    var (lastConfirmed, b) :- ReadU32(b);
    var (lastPaid, b) :- ReadU32(b);
    var (operator, b) :- ReadHash(b);
    var (collateralKey, b) :- ReadOptionalHash(b);
    var (redeem, b) :- ReadOptionalHash(b);
    var (confirmation, b) :- if b == [] then Got((if lastConfirmed != start then lastConfirmed else 0, 0), b)
                             else ReadConfirmation(b);
    var (ip, b) :- if b == [] then Got([], b) else ReadVarBytes(b);
    var (delegates, b) :- if b == [] then Got(None, b) else ReadOptionalHash(b);
    if b != [] then Bad(TrailingBytes)
    else Got(NodeRecord(collateral, tier, start, confirmation.0, lastConfirmed, lastPaid, confirmation.1, operator,
                        collateralKey, redeem, delegates, ip), [])
  }

  function ReadConfirmation(b: Bytes): (r: Parsed<(u32, i64)>) {
    var (confirmed, b) :- ReadU32(b);
    var (value, b) :- ReadI64(b);
    Got((confirmed, value), b)
  }

  lemma ReadEntryBack(e: UtxoEntry)
    requires |e.script| <= MAX_COMPACT_SIZE
    ensures ReadEntry(EntryBytes(e)) == Got(e, [])
  {
    var b4 := FlagByte(e.coinbase);
    var b3 := U32Bytes(e.height) + b4;
    var b2 := VarBytes(e.script) + b3;
    assert EntryBytes(e) == I64Bytes(e.value) + b2;
    ReadI64Back(e.value, b2);
    ReadVarBytesBack(e.script, b3);
    ReadU32Back(e.height, b4);
    assert b4 == FlagByte(e.coinbase) + [];
    ReadU8Back(if e.coinbase then 1 else 0, []);
  }

  /** The second half of a record, from the collateral key on. */
  function RecordTail(n: NodeRecord): (b: Bytes) {
    U32Bytes(n.confirmedHeight) + (I64Bytes(n.collateralValue) + (VarBytes(n.ip) + OptionalHash(n.delegates)))
  }

  function RecordHead(n: NodeRecord, tail: Bytes): (b: Bytes) {
    OutPointBytes(n.collateral) + ([n.tier] + (U32Bytes(n.startHeight) + (U32Bytes(n.lastConfirmedHeight)
    + (U32Bytes(n.lastPaidHeight) + (n.operatorKey + (OptionalHash(n.collateralKey)
    + (OptionalHash(n.redeemScript) + tail)))))))
  }

  lemma RecordSplit(n: NodeRecord)
    ensures RecordBytes(n) == RecordHead(n, RecordTail(n))
  {
  }

  lemma ReadRecordTailBack(n: NodeRecord)
    requires |n.ip| <= MAX_COMPACT_SIZE
    ensures var c := ReadConfirmation(RecordTail(n));
            && RecordTail(n) != []
            && c == Got((n.confirmedHeight, n.collateralValue), VarBytes(n.ip) + OptionalHash(n.delegates))
            && ReadVarBytes(c.rest) == Got(n.ip, OptionalHash(n.delegates))
            && ReadOptionalHash(OptionalHash(n.delegates)) == Got(n.delegates, [])
  {
    var b2 := OptionalHash(n.delegates);
    var b1 := VarBytes(n.ip) + b2;
    ReadU32Back(n.confirmedHeight, I64Bytes(n.collateralValue) + b1);
    ReadI64Back(n.collateralValue, b1);
    ReadVarBytesBack(n.ip, b2);
    assert b2 + [] == b2;
    ReadOptionalHashBack(n.delegates, []);
  }

  lemma ReadRecordBack(n: NodeRecord)
    requires |n.ip| <= MAX_COMPACT_SIZE
    ensures ReadRecord(RecordBytes(n)) == Got(n, [])
  {
    var b8 := RecordTail(n);
    var b7 := OptionalHash(n.redeemScript) + b8;
    var b6 := OptionalHash(n.collateralKey) + b7;
    var b5 := n.operatorKey + b6;
    var b4 := U32Bytes(n.lastPaidHeight) + b5;
    var b3 := U32Bytes(n.lastConfirmedHeight) + b4;
    var b2 := U32Bytes(n.startHeight) + b3;
    var b1 := [n.tier] + b2;
    RecordSplit(n);
    ReadOutPointBack(n.collateral, b1);
    ReadU8Back(n.tier, b2);
    ReadU32Back(n.startHeight, b3);
    ReadU32Back(n.lastConfirmedHeight, b4);
    ReadU32Back(n.lastPaidHeight, b5);
    ReadHashBack(n.operatorKey, b6);
    ReadOptionalHashBack(n.collateralKey, b7);
    ReadOptionalHashBack(n.redeemScript, b8);
    ReadRecordTailBack(n);
  }

  // ---- the lists of an undo record ----

  function SpentBytes(s: SpentOutput): (b: Bytes) {
    OutPointBytes(s.outpoint) + VarBytes(EntryBytes(s.entry))
  }

  function ReadSpent(b: Bytes): (r: Parsed<SpentOutput>) {
    var (outpoint, b) :- ReadOutPoint(b);
    var (bytes, b) :- ReadVarBytes(b);
    match ReadEntry(bytes)
    case Got(entry, _) => Got(SpentOutput(outpoint, entry), b)
    case Bad(_) => Bad(InvalidData)
  }

  function NodeUndoBytes(n: NodeUndo): (b: Bytes) {
    OutPointBytes(n.collateral) + FlagByte(n.prev.Some?)
    + (match n.prev case Some(record) => VarBytes(RecordBytes(record)) case None => [])
  }

  function ReadNodeUndo(b: Bytes): (r: Parsed<NodeUndo>) {
    var (collateral, b) :- ReadOutPoint(b);
    var (flag, b) :- ReadU8(b);
    if flag == 0 then Got(NodeUndo(collateral, None), b)
    else
      var (bytes, b) :- ReadVarBytes(b);
      match ReadRecord(bytes)
      case Got(record, _) => Got(NodeUndo(collateral, Some(record)), b)
      case Bad(_) => Bad(InvalidData)
  }

  function UndoBytes(u: BlockUndo): (b: Bytes) {
    [BLOCK_UNDO_VERSION] + (VarBytes(u.sproutTree) + (VarBytes(u.saplingTree)
    + (WriteCounted(SpentBytes, u.spent) + (WriteCounted(NodeUndoBytes, u.nodes)
    + WriteCounted(NodeUndoBytes, u.paid)))))
  }

  /** Version 1 records carry no payment entries. */
  function ReadUndo(b: Bytes): (r: Parsed<BlockUndo>) {
    var (version, b) :- ReadU8(b);
    if version != 1 && version != BLOCK_UNDO_VERSION then Bad(InvalidData)
    else
      var (sprout, b) :- ReadVarBytes(b);
      var (sapling, b) :- ReadVarBytes(b);
      var (spent, b) :- ReadCounted(ReadSpent, b);
      var (nodes, b) :- ReadCounted(ReadNodeUndo, b);
      var (paid, b) :- if version == 1 then Got([], b) else ReadCounted(ReadNodeUndo, b);
      if b != [] then Bad(TrailingBytes) else Got(BlockUndo(sprout, sapling, spent, nodes, paid), [])
  }

  // ---- which records come back ----

  predicate SpentFits(s: SpentOutput) { |EntryBytes(s.entry)| <= MAX_COMPACT_SIZE }

  predicate NodeUndoFits(n: NodeUndo) { n.prev.Some? ==> |RecordBytes(n.prev.value)| <= MAX_COMPACT_SIZE }

  predicate Fits(u: BlockUndo) {
    && |u.sproutTree| <= MAX_COMPACT_SIZE && |u.saplingTree| <= MAX_COMPACT_SIZE
    && AllFit(SpentFits, u.spent) && AllFit(NodeUndoFits, u.nodes) && AllFit(NodeUndoFits, u.paid)
  }

  lemma ReadSpentBack(s: SpentOutput, rest: Bytes)
    requires |EntryBytes(s.entry)| < U64_LIMIT
    ensures ReadSpent(SpentBytes(s) + rest) == if SpentFits(s) then Got(s, rest) else Bad(SizeTooLarge)
  {
    var tail := VarBytes(EntryBytes(s.entry)) + rest;
    assert SpentBytes(s) + rest == OutPointBytes(s.outpoint) + tail;
    ReadOutPointBack(s.outpoint, tail);
    ReadVarBytesBack(EntryBytes(s.entry), rest);
    if SpentFits(s) {
      ReadEntryBack(s.entry);
    }
  }

  lemma ReadNodeUndoBack(n: NodeUndo, rest: Bytes)
    requires n.prev.Some? ==> |RecordBytes(n.prev.value)| < U64_LIMIT
    ensures ReadNodeUndo(NodeUndoBytes(n) + rest) == if NodeUndoFits(n) then Got(n, rest) else Bad(SizeTooLarge)
  {
    match n.prev
    case None =>
      assert NodeUndoBytes(n) + rest == OutPointBytes(n.collateral) + ([0] + rest);
      ReadOutPointBack(n.collateral, [0] + rest);
      ReadU8Back(0, rest);
    case Some(record) =>
      var tail := VarBytes(RecordBytes(record)) + rest;
      assert NodeUndoBytes(n) + rest == OutPointBytes(n.collateral) + ([1] + tail);
      ReadOutPointBack(n.collateral, [1] + tail);
      ReadU8Back(1, tail);
      ReadVarBytesBack(RecordBytes(record), rest);
      if NodeUndoFits(n) {
        ReadRecordBack(record);
      }
  }

  lemma SpentReads()
    ensures Reads(ReadSpent, SpentBytes, SpentFits)
  {
    forall s: SpentOutput, rest: Bytes | |SpentBytes(s)| < U64_LIMIT
      ensures if SpentFits(s) then ReadSpent(SpentBytes(s) + rest) == Got(s, rest)
              else ReadSpent(SpentBytes(s) + rest).Bad?
    {
      ReadSpentBack(s, rest);
    }
  }

  lemma NodeUndoReads()
    ensures Reads(ReadNodeUndo, NodeUndoBytes, NodeUndoFits)
  {
    forall n: NodeUndo, rest: Bytes | |NodeUndoBytes(n)| < U64_LIMIT
      ensures if NodeUndoFits(n) then ReadNodeUndo(NodeUndoBytes(n) + rest) == Got(n, rest)
              else ReadNodeUndo(NodeUndoBytes(n) + rest).Bad?
    {
      ReadNodeUndoBack(n, rest);
    }
  }

  /** The undo record a block leaves is read back as it was written, exactly when every
      variable-length part is within the decoder's size limit and every count fits 32 bits. */
  lemma RoundTrip(u: BlockUndo)
    requires |UndoBytes(u)| < U64_LIMIT
    ensures ReadUndo(UndoBytes(u)) == Got(u, []) <==> Fits(u)
  {
    hide VarBytes; hide ReadVarBytes; hide ReadU8; hide ReadCounted; hide WriteCounted; hide AllFit;
    var b5 := WriteCounted(NodeUndoBytes, u.paid);
    var b4 := WriteCounted(NodeUndoBytes, u.nodes) + b5;
    var b3 := WriteCounted(SpentBytes, u.spent) + b4;
    var b2 := VarBytes(u.saplingTree) + b3;
    var b1 := VarBytes(u.sproutTree) + b2;
    assert UndoBytes(u) == [BLOCK_UNDO_VERSION] + b1;
    Lengths(u);
    ReadU8Back(BLOCK_UNDO_VERSION, b1);
    ReadVarBytesBack(u.sproutTree, b2);
    ReadVarBytesBack(u.saplingTree, b3);
    SpentReads();
    NodeUndoReads();
    ReadCountedBack(ReadSpent, SpentBytes, SpentFits, u.spent, b4);
    ReadCountedBack(ReadNodeUndo, NodeUndoBytes, NodeUndoFits, u.nodes, b5);
    assert b5 + [] == b5;
    ReadCountedBack(ReadNodeUndo, NodeUndoBytes, NodeUndoFits, u.paid, []);
  }

  lemma Lengths(u: BlockUndo)
    requires |UndoBytes(u)| < U64_LIMIT
    ensures |u.sproutTree| < U64_LIMIT && |u.saplingTree| < U64_LIMIT
    ensures |WriteMany(SpentBytes, u.spent)| < U64_LIMIT
    ensures |WriteMany(NodeUndoBytes, u.nodes)| < U64_LIMIT
    ensures |WriteMany(NodeUndoBytes, u.paid)| < U64_LIMIT
  {
  }

  // ---- the record as the node writes and reads it ----

  method Encode(u: BlockUndo) returns (buf: Bytes)
    ensures buf == UndoBytes(u)
  {
    hide VarBytes; hide WriteCounted;
    buf := [BLOCK_UNDO_VERSION];
    buf := buf + VarBytes(u.sproutTree);
    buf := buf + VarBytes(u.saplingTree);
    buf := AppendCounted(SpentBytes, u.spent, buf);
    buf := AppendCounted(NodeUndoBytes, u.nodes, buf);
    buf := AppendCounted(NodeUndoBytes, u.paid, buf);
  }

  method Decode(bytes: Bytes) returns (r: Parsed<BlockUndo>)
    ensures r == ReadUndo(bytes)
  {
    hide ReadVarBytes; hide ReadCounted; hide ReadU8;
    var version := ReadU8(bytes);
    if version.Bad? { return Bad(version.error); }
    if version.value != 1 && version.value != BLOCK_UNDO_VERSION { return Bad(InvalidData); }
    var sprout := ReadVarBytes(version.rest);
    if sprout.Bad? { return Bad(sprout.error); }
    var sapling := ReadVarBytes(sprout.rest);
    if sapling.Bad? { return Bad(sapling.error); }
    var spent := ReadCountedLoop(ReadSpent, sapling.rest);
    if spent.Bad? { return Bad(spent.error); }
    var nodes := ReadCountedLoop(ReadNodeUndo, spent.rest);
    if nodes.Bad? { return Bad(nodes.error); }
    var paid: Parsed<seq<NodeUndo>> := Got([], nodes.rest);
    if version.value != 1 {
      paid := ReadCountedLoop(ReadNodeUndo, nodes.rest);
      if paid.Bad? { return Bad(paid.error); }
    }
    if paid.rest != [] { return Bad(TrailingBytes); }
    return Got(BlockUndo(sprout.value, sapling.value, spent.value, nodes.value, paid.value), []);
  }
}
