# A verified model of the Flux full node's state machines

The Flux node keeps a transparent ledger with several secondary indexes, two shielded pools, a
registry of collateralised nodes that are paid in turn, a header tree, a transaction pool and
proof-of-work rules. This project models those parts in Dafny and proves what they promise:

- Connecting a block is one pass over its transactions with an overlay of created outputs and a
  write batch. It accepts and rejects exactly what processing the transactions one at a time
  accepts and rejects, and commits the same state. Disconnecting replays the undo record, read
  back from its stored bytes, and gives back every restored column. Over any run of connects and
  disconnects the state is a function of the active chain: the coins are the outputs made and not
  spent, every input spends one that was there, ripe and unspent, and no nullifier is shown twice. It
  passes the node's own consistency check at every level, any single wrong row makes that check fail,
  and no block creates more money than was scheduled.
- Node payments go to the record that has waited longest, although the cache behind them is pruned
  only lazily. Over any run of connected blocks every coinbase pays the nodes a scan of all records
  would choose, and every node that stays eligible is paid between two payments to any other. A node
  expires exactly when no block has named it for a whole allowed gap.
- The transaction pool's maps stay exact inverses of its entries through insertion, removal with
  descendants and eviction by fee rate.
- A header's Equihash solution is accepted exactly when the indices its bytes spell solve the puzzle
  in the flat definition, over leaves unpacked from the hashes. Bit unpacking, the compact
  target form, the work of a block, the retarget rules on bounded windows, the header tree with its
  skip links and Merkle roots are proved correct, with no overflow and no index out of range. Slower
  blocks never get a harder target, blocks on time keep theirs.

How the model is laid out:

| files | what they hold |
|---|---|
| `Basics`, `Powers`, `Codec`, `Undo` | numbers and bytes, shifts and masks, the stored encodings |
| `Ledger`, `Chain`, `Sequential` | columns and batches, and the plain meaning of a block |
| `Overlay`, `Linked`, `Amounts`, `Validate`, `Connect`, `ConnectBlock` | connecting as the node does it |
| `Reversal`, `Room`, `Rewind`, `Disconnect`, `Sizes` | disconnecting, and why it undoes connecting |
| `Supply`, `ActiveChain`, `TakeBack`, `ChainRun`, `Duplicate`, `Spending`, `Indexed`, `Timestamps`, `VerifyChain` | whole chains and runs |
| `Expiry`, `Payees`, `Payments`, `Fairness`, `Records`, `NodeChain`, `Payouts`, `NodeRun` | node payments |
| `Mempool`, `UtxoCache`, `Merkle` | the pool, the coin cache, Merkle roots |
| `Equihash`, `Expand`, `Solutions`, `Compact`, `Retarget`, `RetargetLoops`, `RetargetLaws`, `HeaderIndex`, `Windows` | proof of work and headers |

Things the source takes from elsewhere are parameters. Script and signature checks, node
transaction validation, remaining block and header rules, commitment-tree appends and roots, the
pair hash, subsidies and scheduled funds are arbitrary functions in `Chain.Env`. A transaction
carries its id and a block its hash. `ChainRun.ChainState` takes the nodes a block pays as input;
`NodeRun.Node` finds them as the node does. What it needs of node validation is said in
`NodeChain.NodeRules`: an accepted start names an unspent coin of its tier.

Hashes are taken to bind (`ChainRun.HashesBind`): a block hash has one header behind it, and a
commitment root one tree. That the transaction ids of a block are new does not follow from this.
Up to height 20 a coinbase need not name its height, so two blocks can hold the same one, and the
source does not compare ids with those on the chain. `ChainRun.ConnectAndBack` connects a block to
any reachable database and disconnects it again: whatever indexes are kept, the state before comes
back if and only if the block is `TakeBack.Reversible`, which can be seen before it is connected.
With the transaction index on, that is that none of its ids is indexed. With no index, it is that
every stored coin the block makes again is spent by the block no later than in the transaction that
makes it. With the spent index on, moreover, no outpoint the block spends may have a spent row
already. Blocks of new ids always are. `Duplicate.RepeatedIdIsNotTakenBack` is a run with one that
is not.

The payments cache is right as long as blocks are only connected. A disconnect can give back a coin
whose node was dropped from the cache, and nothing puts the entry back before the node is restarted.
`Payments.PaymentState.NextPayee` says when the answer is right all the same: exactly when the
record a scan would choose is still cached. `NodeRun.Node.DisconnectForgets` is the case where it is
not, on every node of every run.

## Model

| member | source | states |
|---|---|---|
| `Undo.RoundTrip` | fluxd_rust/crates/chainstate/src/undo.rs:31-124 | A stored undo record is read back as it was written exactly when its parts are within the decoder's size limits |
| `Undo.Encode` | fluxd_rust/crates/chainstate/src/undo.rs:31-58 | The buffer loop writes the record layout that `RoundTrip` is about |
| `Undo.Decode` | fluxd_rust/crates/chainstate/src/undo.rs:60-124 | The cursor loops read that layout, errors included |
| `Sizes.UndoReadBack` | fluxd_rust/crates/chainstate/src/undo.rs:31-124 | Every undo record small enough for a block's size limit is read back exactly |
| `Sizes.BlockSmall` | fluxd_rust/crates/chainstate/src/state.rs:2478-2963 | An accepted block within the size limit leaves such a record and keeps all stored scripts and addresses small |
| `Amounts.TxValueOut` | fluxd_rust/crates/chainstate/src/state.rs:5022-5056 | Accepts exactly the transactions whose output values and total are legal amounts, and returns the total |
| `Amounts.TxShieldedIn` | fluxd_rust/crates/chainstate/src/state.rs:5058-5078 | The same for what a transaction takes out of the shielded pools |
| `Amounts.CheckJoinSplits` | fluxd_rust/crates/chainstate/src/state.rs:2508-2551 | Checking joinsplits with in-block sets of seen nullifiers is checking them against the growing nullifier set |
| `Amounts.CheckSpends` | fluxd_rust/crates/chainstate/src/state.rs:2553-2569 | The same for shielded spends and their anchors |
| `Validate.CheckBlock` | fluxd_rust/crates/chainstate/src/validation.rs:171-280 | Accepts exactly the blocks with distinct ids and node collaterals, a coinbase first, node transactions that carry nothing else, a legal size and the right unflagged Merkle root, given the abstract remaining rules |
| `Overlay.SpendPending` | fluxd_rust/crates/chainstate/src/state.rs:2571-2712 | Spending an output created in the same block only drops it from the overlay, yet the block's view of the ledger is the sequential one |
| `Overlay.SpendStored` | fluxd_rust/crates/chainstate/src/state.rs:2571-2712 | Spending a stored output through the batch keeps the block's view sequential |
| `Overlay.CreatePending` | fluxd_rust/crates/chainstate/src/state.rs:2796-2843 | Creating an output in the overlay keeps the block's view sequential |
| `Connect.SpendOne` | fluxd_rust/crates/chainstate/src/state.rs:2573-2712 | One input through overlay, spent set and store is one sequential input, with the same error |
| `Connect.SpendAll` | fluxd_rust/crates/chainstate/src/state.rs:2571-2722 | All inputs and the fee of a transaction, likewise |
| `Connect.ApplyTxNode` | fluxd_rust/crates/fluxnode/src/cache.rs:19-214 | Node records written from the state before the block are those of sequential processing, because collaterals in a block are distinct |
| `Records.BlockBecomes` | fluxd_rust/crates/fluxnode/src/cache.rs:120-214 | Of an accepted block, field by field: a confirmation dates the record, renews its address and is of a legal kind, the first one confirms it; a start makes the record anew with the tier and amount its validation found; a confirmation of no record does nothing |
| `Records.BlockLeaves` | fluxd_rust/crates/fluxnode/src/cache.rs:19-104 | A record no transaction names changes only by being paid |
| `Records.WriteRefused` | fluxd_rust/crates/fluxnode/src/cache.rs:180-214 | Each refusal exactly when its condition holds |
| `Records.LastNamed` | fluxd_rust/crates/fluxnode/src/cache.rs:180-214 | In every chain state a record's last confirmation is the last block that started or confirmed its node |
| `Connect.GrowTxTrees` | fluxd_rust/crates/chainstate/src/state.rs:2750-2794 | The lazily loaded commitment trees are the sequentially grown ones |
| `Connect.CreateEach` | fluxd_rust/crates/chainstate/src/state.rs:2796-2843 | The outputs of a transaction join the overlay with exact counts and value |
| `Connect.StepOne` | fluxd_rust/crates/chainstate/src/state.rs:2478-2844 | One transaction of the pass is one step of sequential processing |
| `ConnectBlock.WalkTxs` | fluxd_rust/crates/chainstate/src/state.rs:2478-2844 | The pass over all transactions is sequential processing, failures included |
| `ConnectBlock.Flush` | fluxd_rust/crates/chainstate/src/state.rs:2846-2865 | Writing out the overlay in any order shows the same ledger |
| `ConnectBlock.PutTxRows` | fluxd_rust/crates/chainstate/src/state.rs:3100-3111 | With the transaction index written, the batch's ledger is the sequential ledger |
| `ConnectBlock.FindRecord` | fluxd_rust/crates/chainstate/src/state.rs:2922-2955 | Searching the batch for the last write finds the record the committed store will hold |
| `ConnectBlock.PayEach` | fluxd_rust/crates/chainstate/src/state.rs:2922-2963 | Payments mark each record after whatever the block already did to it, and record what was there |
| `ConnectBlock.ConnectTip` | fluxd_rust/crates/chainstate/src/state.rs:2310-3246 | Connecting rejects with the error sequential processing gives, or commits a batch that leaves its state, header, body and encoded undo record, repeated ids included as long as no stored outpoint is made again and then spent; it always sets the tip and its columns, and never spends an outpoint twice |
| `Disconnect.UndoAll` | fluxd_rust/crates/chainstate/src/state.rs:3309-3402 | Popping the undo lists while walking backwards is the reverse of sequential processing, with the same mismatches |
| `Disconnect.PoolMoves` | fluxd_rust/crates/chainstate/src/state.rs:5080-5095 | Pool movements are recomputed from the block with the same overflow checks |
| `Disconnect.DisconnectTip` | fluxd_rust/crates/chainstate/src/state.rs:3248-3489 | Disconnecting fails exactly when the reverse processing fails, or commits its state; it writes no node record but those its undo record names |
| `Reversal.InputInverse` | fluxd_rust/crates/chainstate/src/state.rs:3341-3381 | Undoing an input gives back every row it touched |
| `Reversal.CreditsUndone` | fluxd_rust/crates/chainstate/src/state.rs:3309-3339 | Deleting a transaction's rows leaves the state its inputs left |
| `Room.TxUndone` | fluxd_rust/crates/chainstate/src/state.rs:3309-3402 | Undoing an accepted transaction restores ledger, node records, undo lists and running totals, wherever its rows have room |
| `Room.TxsUndone` | fluxd_rust/crates/chainstate/src/state.rs:3309-3402 | The same for all transactions of a block, intra-block spends included |
| `Rewind.AnchorsUndone` | fluxd_rust/crates/chainstate/src/state.rs:3449-3457 | Anchor rows come back exactly when the new root was not already known, up to the empty root |
| `Rewind.PaidUndone` | fluxd_rust/crates/chainstate/src/state.rs:3296-3307 | Undoing payments in reverse restores the records, repeated payees included |
| `Rewind.RoundTripInRoom` | fluxd_rust/crates/chainstate/src/state.rs:3248-3489 | Disconnecting the block just connected never reports a mismatch and restores every column as read, if no row it deletes for good was there before |
| `Rewind.RoundTrip` | fluxd_rust/crates/chainstate/src/state.rs:3248-3489 | So it does for every block of new ids |
| `Supply.TxConserves` | fluxd_rust/crates/chainstate/src/state.rs:2713-2722 | Every transaction but the first lowers coins plus pools by exactly its fee |
| `Supply.NoInflation` | fluxd_rust/crates/chainstate/src/state.rs:3124-3166 | A block above height 2 adds at most subsidy and scheduled funds; totals stay exact sums; pools stay non-negative |
| `ActiveChain.SupplyBound` | fluxd_rust/crates/chainstate/src/state.rs:3124-3166 | The bound summed along any chain |
| `ActiveChain.ReplayReached` | fluxd_rust/crates/chainstate/src/state.rs:2310-3246 | Every chain state keeps the ledger invariants and exact totals and knows exactly the chain's ids and blocks |
| `Spending.CoinsExactly` | fluxd_rust/crates/chainstate/src/state.rs:2571-2865 | The coins of every chain state are exactly the outputs made on the chain and not spent on it, with value, script, height and coinbase flag |
| `Spending.SpendsRight` | fluxd_rust/crates/chainstate/src/state.rs:2571-2712 | Every input on a chain spends a coin made before it that nothing before it spent, of a coinbase at least 100 blocks later, and with its script satisfied |
| `Spending.NullifiersOnce` | fluxd_rust/crates/chainstate/src/state.rs:2508-2569 | No nullifier is shown twice on a chain, and a chain state knows exactly those shown |
| `Spending.TreesGrow` | fluxd_rust/crates/chainstate/src/state.rs:2750-2794 | A block appends its note commitments to each tree in order |
| `Timestamps.TimesRise` | fluxd_rust/crates/chainstate/src/state.rs:3058-3090 | With the time index on, a block's time is its header's or one second after its parent's, so times rise along every chain |
| `Timestamps.OnChainJoined` | fluxd_rust/crates/chainstate/src/state.rs:2331-2341 | Blocks of every reachable chain name their parents |
| `TakeBack.ReplayRows` | fluxd_rust/crates/chainstate/src/state.rs:2571-2865 | In every chain state address rows belong to unspent coins and address changes are dated on the chain |
| `TakeBack.NotRestored` | fluxd_rust/crates/chainstate/src/state.rs:3309-3402 | Disconnecting a block that is not reversible never leaves the ledger before it, from whatever state and undo record |
| `TakeBack.TakenBackExactly` | fluxd_rust/crates/chainstate/src/state.rs:3248-3489 | In sequential processing and for every choice of indexes, an accepted block is taken back if and only if it is reversible |
| `Duplicate.LenientPermits` | fluxd_rust/crates/chainstate/src/validation.rs:205-207 | For every choice of indexes there are rules that accept three blocks with real coinbases of which two are the same |
| `Duplicate.RepeatedIdIsNotTakenBack` | fluxd_rust/crates/chainstate/src/validation.rs:205-207 | Under all such rules: connected to a database the node reaches, the block that repeats a coinbase is admitted and committed; disconnecting it succeeds and leaves the earlier coinbase without its coin, and without its row if there is an index |
| `ChainRun.ConnectStep` | fluxd_rust/crates/chainstate/src/state.rs:2310-3246 | A committed connect extends the chain the database stands for by that block |
| `ChainRun.DisconnectStep` | fluxd_rust/crates/chainstate/src/state.rs:3248-3489 | A committed disconnect shortens it by its tip |
| `ChainRun.TargetFound` | fluxd_rust/crates/chainstate/src/state.rs:3248-3276 | The tip's header, body and decoded undo record are what was stored for the last block |
| `ChainRun.ChainState.Connect` | fluxd_rust/crates/chainstate/src/state.rs:2310-3246 | After any run, connecting succeeds exactly when the rules accept; the state is the replay of the longer chain, and stays the one of a chain if no id repeats |
| `ChainRun.ChainState.Disconnect` | fluxd_rust/crates/chainstate/src/state.rs:3248-3489 | After any run, disconnecting the tip succeeds exactly while its undo record is kept, always within 41 blocks of the highest tip, and the state is the replay of the shorter chain |
| `ChainRun.ConnectAndBack` | fluxd_rust/crates/chainstate/src/state.rs:2310-3489 | On every reachable database and for every choice of indexes, a block that is connected and committed, then disconnected and committed, leaves the state before it if and only if it is reversible; with the transaction index on, if and only if none of its ids was indexed |
| `Indexed.RightKept` | fluxd_rust/crates/chainstate/src/state.rs:2571-2865 | Later transactions leave the index rows of earlier ones right |
| `Indexed.ReplayIndexed` | fluxd_rust/crates/chainstate/src/state.rs:2571-2865 | In every chain state each transaction's location, spent rows, address credits and debits are exact, and an address row exists only for an unspent coin |
| `VerifyChain.CheckSpent` | fluxd_rust/crates/node/src/verify_chain.rs:123-207 | The checks of one spent row, in order |
| `VerifyChain.CheckCredit` | fluxd_rust/crates/node/src/verify_chain.rs:209-275 | The checks of one output's credit and address row |
| `VerifyChain.CheckDebit` | fluxd_rust/crates/node/src/verify_chain.rs:277-350 | The checks of one input's debit and address row |
| `VerifyChain.CheckTx` | fluxd_rust/crates/node/src/verify_chain.rs:100-352 | The per-transaction checks of levels 3 to 5 |
| `VerifyChain.CheckStored` | fluxd_rust/crates/node/src/verify_chain.rs:48-353 | The per-block checks of all levels |
| `VerifyChain.Verify` | fluxd_rust/crates/node/src/verify_chain.rs:26-372 | The walk back from the tip accepts exactly when every header met within the depth passes |
| `VerifyChain.ChainStatePasses` | fluxd_rust/crates/node/src/verify_chain.rs:26-372 | With all indexes on, every chain state passes at every level and depth |
| `VerifyChain.PassedMeans` | fluxd_rust/crates/node/src/verify_chain.rs:26-372 | Whatever the database, a full check that passes has seen every header down from the tip named by its height row, with a body of its hash, parent and root, and all index rows of all its transactions right |
| `VerifyChain.WrongRowSeen` | fluxd_rust/crates/node/src/verify_chain.rs:100-352 | On a chain state, changing or deleting any one index row that the level compares makes the check fail, at any depth that reaches the block |
| `VerifyChain.WrongHeightSeen` | fluxd_rust/crates/node/src/verify_chain.rs:58-63 | So does any wrong height row |
| `VerifyChain.WrongBodySeen` | fluxd_rust/crates/node/src/verify_chain.rs:65-98 | And a body that is missing or has another hash, parent or root |
| `Expiry.ExpireHeight` | fluxd_rust/crates/chainstate/src/state.rs:5382-5402 | The search settles after at most three changes on the first height too far from the last confirmation |
| `Expiry.ExpiredAt` | fluxd_rust/crates/chainstate/src/state.rs:5404-5413 | Expired means overdue at some height up to now, except at the largest 32-bit height, and nowhere else |
| `Expiry.OverdueForever` | fluxd_rust/crates/chainstate/src/state.rs:5404-5413 | Expiry is permanent |
| `Expiry.CountGrows` | fluxd_rust/crates/chainstate/src/state.rs:5368-5380 | The allowed gap never shrinks with height |
| `Records.OverdueExactly` | fluxd_rust/crates/chainstate/src/state.rs:5368-5413 | After any chain a node is overdue if and only if no block has named it, to the tip, for the whole gap allowed at some height; one confirmed in every gap never is |
| `Payees.LessTotal` | fluxd_rust/crates/chainstate/src/state.rs:397-430 | Payee keys are totally ordered |
| `Payees.LexMeans` | fluxd_rust/crates/chainstate/src/state.rs:427 | Hashes compare by their first different byte |
| `Payees.FirstIsLess` | fluxd_rust/crates/chainstate/src/state.rs:397-430 | The order of the keys, in fields of the records: first who has waited from a lower height, then who was never paid, then the smaller hash, then the smaller index |
| `Payees.MatchesExactly` | fluxd_rust/crates/consensus/src/rewards.rs:103-138 | The old amount of a tier is right up to the end of its transition, the new one from its start, no other ever |
| `Payees.MismatchIsForever` | fluxd_rust/crates/consensus/src/rewards.rs:103-138 | A collateral that was right at the start and is wrong later stays wrong |
| `Payees.NextIsUnique` | fluxd_rust/crates/chainstate/src/state.rs:2032-2132 | At most one record is next |
| `Payments.WithAgrees` | fluxd_rust/crates/chainstate/src/state.rs:472-501 | Updating a record keeps the three indexes in agreement |
| `Payments.WithoutAgrees` | fluxd_rust/crates/chainstate/src/state.rs:459-470 | So does removing one |
| `Payments.FoundExact` | fluxd_rust/crates/chainstate/src/state.rs:2056-2131 | The first cached key that can be paid is the one a scan of all records would choose if and only if that record is cached |
| `Payments.CompleteHeld` | fluxd_rust/crates/chainstate/src/state.rs:2032-2132 | A cache from which only records lost for good were dropped holds it |
| `Payments.PaymentState.UpsertRecord` | fluxd_rust/crates/chainstate/src/state.rs:472-501 | The cache after an update, index by index |
| `Payments.PaymentState.EnsureLoaded` | fluxd_rust/crates/chainstate/src/state.rs:1961-1979 | Loading, once, puts every confirmed record in the cache |
| `Payments.FollowedReflects` | fluxd_rust/crates/chainstate/src/state.rs:3644-3665 | Whatever a batch writes or deletes, the cache that follows it holds stored records only |
| `Payments.PaymentState.CommitBatch` | fluxd_rust/crates/chainstate/src/state.rs:3644-3665 | The cache after any batch, deletions included; it stays right for later pay heights if no coin comes back and records were started right |
| `Payments.PaymentState.NextPayee` | fluxd_rust/crates/chainstate/src/state.rs:2032-2132 | Ends with a record that can be paid and what is stored of it, or none; among all stored records that are confirmed, unexpired, unspent and of matching collateral it is the one that goes first, if and only if that record was cached, as it always is in a cache that is right |
| `Fairness.BlockSteps` | fluxd_rust/crates/fluxnode/src/cache.rs:120-214 | What one block can do to one node record |
| `Fairness.StaysLate` | fluxd_rust/crates/chainstate/src/state.rs:2922-2963 | A node just paid stays behind that height in the queue |
| `Fairness.KeepsPlace` | fluxd_rust/crates/chainstate/src/state.rs:397-420 | A node that stays eligible and is not paid keeps its place |
| `Fairness.Fair` | fluxd_rust/crates/chainstate/src/state.rs:2032-2159 | On a chain whose blocks pay the next nodes, between two payments to one node every other node of the tier that stayed eligible is paid |
| `NodeChain.ReplayRight` | fluxd_rust/crates/chainstate/src/state.rs:1488-1512 | In every chain state each node record sits under its collateral, and while that coin is unspent it is of the record's tier at the height it was started |
| `NodeChain.BlockForward` | fluxd_rust/crates/chainstate/src/state.rs:2571-2865 | Connecting a block of new ids brings back no coin behind a record and changes none |
| `NodeChain.BlockUndoWithin` | fluxd_rust/crates/chainstate/src/state.rs:2922-2963 | The undo record of a block holds node records under their own collateral, and of no node but those whose record the block wrote |
| `NodeChain.BlockSpend` | fluxd_rust/crates/chainstate/src/state.rs:2571-2712 | A coin made before the block and spent by it was there before and is gone after |
| `NodeRun.Node.ExpectedPayouts` | fluxd_rust/crates/chainstate/src/state.rs:2134-2159 | The payouts of a block: tier by tier the next node with its script and amount, or the error of the first without a script |
| `NodeRun.Node.Connect` | fluxd_rust/crates/chainstate/src/state.rs:2310-3246 | Over any run: a block connects exactly when its coinbase makes the expected payouts and sequential processing accepts it, and while no block was disconnected the payees are those a scan would choose |
| `NodeRun.Node.Disconnect` | fluxd_rust/crates/chainstate/src/state.rs:3248-3489 | Shortens the chain; the cache stays an index of stored records, and no record, stored or cached, comes or goes but those the block wrote |
| `NodeRun.Node.DisconnectForgets` | fluxd_rust/crates/chainstate/src/state.rs:2111-2119 | Over any run: once the tip is disconnected, a node whose coin it spent and whose record it did not write has coin and record again, but is not cached if it was dropped; wherever it is next, the cache does not hold the next payee |
| `NodeRun.Node.Restart` | fluxd_rust/crates/chainstate/src/state.rs:1961-1979 | A restart makes the cache right again |
| `NodeRun.Node.OverdueRun` | fluxd_rust/crates/chainstate/src/state.rs:5368-5413 | The same of the node as it runs |
| `NodeRun.Node.FairRun` | fluxd_rust/crates/chainstate/src/state.rs:2032-2159 | Fairness of the node as it runs, with nothing assumed of who is paid |
| `Payouts.Approve` | fluxd_rust/crates/chainstate/src/state.rs:2223-2246 | The greedy pass marks, of every kind of payment, as many as there are outputs for; an output takes one exactly when fewer like it came before |
| `Payouts.ApprovedMeans` | fluxd_rust/crates/chainstate/src/state.rs:2271-2303 | All payments are approved exactly when the coinbase contains them as a multiset |
| `Payouts.CheckPayouts` | fluxd_rust/crates/chainstate/src/state.rs:2180-2306 | Accepts exactly the coinbases that contain the payments as a multiset and, once the development fund is active, one more output of at least the remainder to it |
| `Payouts.AcceptedPaysSubsidy` | fluxd_rust/crates/chainstate/src/state.rs:2180-2306 | Such a coinbase pays at least the whole subsidy |
| `Payouts.CoinbaseBound` | fluxd_rust/crates/chainstate/src/state.rs:3124-3139 | It pays at most subsidy, fees and scheduled funds |
| `Payouts.CoinbaseBetween` | fluxd_rust/crates/chainstate/src/state.rs:3124-3139 | Both bounds for one accepted block above height 2 with the fund active |
| `Payouts.PonSubsidy` | fluxd_rust/crates/consensus/src/rewards.rs:15-27 | The subsidy after the yearly cuts, never above its start |
| `Payouts.CutsShrink` | fluxd_rust/crates/consensus/src/rewards.rs:15-27 | More cuts never raise it |
| `Payouts.CutsAreTenths` | fluxd_rust/crates/consensus/src/rewards.rs:15-27 | The subsidy is nine tenths to the power of the cuts, rounded down by less than ten units in all |
| `Payouts.SharesFit` | fluxd_rust/crates/consensus/src/rewards.rs:58-77 | The tier shares are 2, 7 and 18 parts in 28, rounded down, and leave at least one to the development fund |
| `Payouts.SwapPoolHeight` | fluxd_rust/crates/consensus/src/rewards.rs:168-181 | A height is scheduled exactly when it is one of the pool's multiples |
| `Mempool.Visit` | fluxd_rust/crates/node/src/mempool.rs:545-562 | The depth-first walk ends and collects only what is reachable, with all its children |
| `Mempool.RemovalKeeps` | fluxd_rust/crates/node/src/mempool.rs:498-539 | Taking an entry out keeps spent and children maps exact inverses and the byte count exact |
| `Mempool.TxPool.Remove` | fluxd_rust/crates/node/src/mempool.rs:498-539 | The pool without one entry |
| `Mempool.TxPool.RemoveWithDescendants` | fluxd_rust/crates/node/src/mempool.rs:541-571 | Removes exactly the entries reachable through children, changes no other entry and accounts for every byte |
| `Mempool.TxPool.EvictToFit` | fluxd_rust/crates/node/src/mempool.rs:577-634 | Ends within the limit and stops at once: before the last root the pool was over it. What goes is exactly what lies below roots that pay less per byte than everything kept, or as much and are older, or have the smaller id; bytes are conserved and no entry is left without a parent it had |
| `Mempool.TxPool.Insert` | fluxd_rust/crates/node/src/mempool.rs:401-495 | Each refusal exactly when its condition holds and without effect; otherwise the pool with the entry, cut to fit by such an eviction, every byte accounted for |
| `Mempool.TxPool.Prioritise` | fluxd_rust/crates/node/src/mempool.rs:389-399 | Changes the ranking fee and nothing else |
| `Mempool.CheaperTransitive` | fluxd_rust/crates/node/src/mempool.rs:591-606 | Comparing fee rates by cross-multiplication is an order |
| `Mempool.CheaperMeans` | fluxd_rust/crates/node/src/mempool.rs:591-606 | That order in the entries' own fields: fee and adjustment cut to 64 bits, per byte, then time, then the first different byte of the id |
| `Merkle.RootWithFlag` | fluxd_rust/crates/chainstate/src/validation.rs:675-699 | Computes the root and whether some even layer ends in a repeated pair |
| `Merkle.RootByPadding` | fluxd_rust/crates/node/src/verify_chain.rs:374-391 | Computes the same root |
| `Merkle.Binding` | fluxd_rust/crates/chainstate/src/validation.rs:346-355 | Equal roots, equal depth and no flag mean equal lists, or an explicit pair-hash collision |
| `Merkle.RepeatedEnd` | fluxd_rust/crates/chainstate/src/validation.rs:685-687 | Repeating the last id of an odd list keeps the root and is flagged |
| `Merkle.RootOfHalves` | fluxd_rust/crates/chainstate/src/validation.rs:675-699 | The root of two lists of one power-of-two length is the hash of their roots, the first one left |
| `UtxoCache.Evict` | fluxd_rust/crates/chainstate/src/state.rs:291-304 | The queue never runs out while over capacity, and what goes was used before everything kept |
| `UtxoCache.CachedStore.Insert` | fluxd_rust/crates/chainstate/src/state.rs:273-281 | Size stays within capacity and the newest entry is kept |
| `UtxoCache.CachedStore.Read` | fluxd_rust/crates/chainstate/src/state.rs:4208-4238 | A read through the cache is a read of the store |
| `UtxoCache.CachedStore.Commit` | fluxd_rust/crates/chainstate/src/state.rs:3582-3633 | Repeating a batch on the cache keeps it coherent with the store |
| `Equihash.Accepts` | fluxd_rust/crates/pow/src/equihash_verify.rs:206-228 | The recursive check accepts exactly the index lists with distinct indices and ordered, colliding subtrees, and returns the list it was given |
| `Equihash.VerifyIsFlat` | fluxd_rust/crates/pow/src/equihash_verify.rs:218-250 | Verification is the flat definition, the XOR of all leaves zero on all groups included |
| `Expand.WriteGroup` | fluxd_rust/crates/pow/src/equihash_verify.rs:271-278 | One group is written from the accumulator most significant byte first, with no shift beyond 31 |
| `Expand.ExpandLoop` | fluxd_rust/crates/pow/src/equihash_verify.rs:260-282 | The 32-bit accumulator loses no needed bit up to 26-bit groups, and every write is in range |
| `Expand.ExpandArray` | fluxd_rust/crates/pow/src/equihash_verify.rs:252-283 | Group `i` of the output is bits `[i*b, (i+1)*b)` of the input and zeros follow the last, unless input and output lengths coincide; then the input comes back |
| `Expand.LeafSizes` | fluxd_rust/crates/pow/src/equihash_verify.rs:53-66 | For all parameters with groups of at least a byte, a leaf expands to exactly `k + 1` groups, and the lengths coincide only where groups are whole bytes |
| `Expand.IndicesFromMinimal` | fluxd_rust/crates/pow/src/equihash_verify.rs:291-308 | Exactly `2^k` indices, each the next bits of the solution, or nothing for a wrong length |
| `Solutions.NewLeaf` | fluxd_rust/crates/pow/src/equihash_verify.rs:54-67 | The leaf of an index is the groups of its slice of the hash |
| `Solutions.ValidateTree` | fluxd_rust/crates/pow/src/equihash_verify.rs:218-228 | The recursion over expanded leaves is the check `Equihash.Accepts` is about |
| `Solutions.IsValidSolution` | fluxd_rust/crates/pow/src/equihash_verify.rs:230-250 | A solution is accepted exactly when its length is right and the indices it spells are a solution of the flat definition over the expanded leaves |
| `Solutions.SizeOfSolutions` | fluxd_rust/crates/pow/src/equihash.rs:80-109 | Each of the five solution sizes is that of its parameters |
| `Solutions.ValidateSolution` | fluxd_rust/crates/pow/src/equihash.rs:38-78 | Every outcome with its exact condition, the flat definition for acceptance |
| `Compact.DecodeExactly` | fluxd_rust/crates/pow/src/difficulty.rs:58-82 | A compact number is refused exactly when it is negative or too large for 256 bits, and otherwise read as its mantissa moved by whole bytes |
| `Compact.DecodeEncode` | fluxd_rust/crates/pow/src/difficulty.rs:58-107 | Decoding an encoded number succeeds and rounds it down to a 23-bit mantissa |
| `Compact.CodecLaws` | fluxd_rust/crates/pow/src/difficulty.rs:58-107 | The composite loses less than one part in 2^15, is monotone and idempotent |
| `Compact.ReencodeKeeps` | fluxd_rust/crates/pow/src/difficulty.rs:58-107 | Re-encoding an accepted compact number keeps its value |
| `Compact.WorkIsShare` | fluxd_rust/crates/pow/src/difficulty.rs:125-132 | The work of a block is 2^256 over its target plus one |
| `Retarget.MulDivIs` | fluxd_rust/crates/pow/src/difficulty.rs:391-407 | Scaling by parts is the exact rounded-down quotient |
| `Retarget.Band` | fluxd_rust/crates/pow/src/difficulty.rs:372-382 | The third average stays between 67 and 150 percent of the last target |
| `Retarget.NextWorkGood` | fluxd_rust/crates/pow/src/difficulty.rs:140-389 | On targets within the limit nothing overflows, no index is out of range and the next bits are within the limit |
| `Retarget.ChainWithin` | fluxd_rust/crates/pow/src/difficulty.rs:140-389 | So every target of a chain that follows the rule is |
| `Retarget.SortOrders` | fluxd_rust/crates/pow/src/difficulty.rs:236-244 | The list a median is read from holds the same times in order |
| `Retarget.WindowIsEnough` | fluxd_rust/crates/pow/src/difficulty.rs:140-214 | On a window of averaging length plus 11 the rule gives what it gives on the whole history |
| `RetargetLoops.LwmaNext` | fluxd_rust/crates/pow/src/difficulty.rs:276-324 | The loop computes the weighted average rule |
| `RetargetLoops.Lwma3Next` | fluxd_rust/crates/pow/src/difficulty.rs:326-389 | The loop computes its third variant |
| `RetargetLoops.NextRequired` | fluxd_rust/crates/pow/src/difficulty.rs:140-214 | The whole rule, branch by branch |
| `RetargetLaws.RuleByHeight` | fluxd_rust/crates/pow/src/difficulty.rs:140-214 | By height, which of the three rules answers |
| `RetargetLaws.EasiestWhere` | fluxd_rust/crates/pow/src/difficulty.rs:140-190 | Where the easiest target is asked for |
| `RetargetLaws.MedianSplits` | fluxd_rust/crates/pow/src/difficulty.rs:236-244 | More than half of the eleven times are no later than the median, and half no earlier |
| `RetargetLaws.DampedSpan` | fluxd_rust/crates/pow/src/difficulty.rs:246-264 | The span used stays within its limits, and within them differs from the one aimed at by a quarter of the surplus, rounded towards zero, on the same side |
| `RetargetLaws.SpanPercent` | fluxd_rust/crates/pow/src/difficulty.rs:246-264 | The limits are the given percentages |
| `RetargetLaws.SpanGrows` | fluxd_rust/crates/pow/src/difficulty.rs:246-264 | It never falls as more time passes |
| `RetargetLaws.DigishieldAsks` | fluxd_rust/crates/pow/src/difficulty.rs:246-274 | The target asked for, as a number |
| `RetargetLaws.NextEases` | fluxd_rust/crates/pow/src/difficulty.rs:140-274 | Of two chains with the same heights and targets, the one whose window took longer never gets the harder next block |
| `RetargetLaws.NextSteady` | fluxd_rust/crates/pow/src/difficulty.rs:140-274 | A window that took as long as it should keeps the average, cut to whole spans |
| `RetargetLaws.AverageEven` | fluxd_rust/crates/pow/src/difficulty.rs:192-198 | The average of equal targets is that target |
| `RetargetLaws.TimeIsSum` | fluxd_rust/crates/pow/src/difficulty.rs:295-311 | In the weighted rule a solve time counts as often as its place in the window, so newer blocks weigh more |
| `RetargetLaws.StampIsLatest` | fluxd_rust/crates/pow/src/difficulty.rs:346-355 | A pushed timestamp is the latest any earlier header forces |
| `RetargetLaws.LwmaEases` | fluxd_rust/crates/pow/src/difficulty.rs:276-324 | Longer solve times, at whatever places, never give a harder target |
| `RetargetLaws.LwmaSteady` | fluxd_rust/crates/pow/src/difficulty.rs:276-324 | Blocks on time keep their target, cut to whole shares |
| `RetargetLaws.Lwma3Eases` | fluxd_rust/crates/pow/src/difficulty.rs:326-389 | The same for the third variant |
| `RetargetLaws.Lwma3Steady` | fluxd_rust/crates/pow/src/difficulty.rs:326-389 | Blocks on time keep their target, cut to whole shares and within the band |
| `RetargetLaws.RampAsks` | fluxd_rust/crates/pow/src/difficulty.rs:160-177 | Up to 61 blocks after the second epoch, so many 32nds above the weighted average, at most the limit |
| `HeaderIndex.SkipIs` | fluxd_rust/crates/chainstate/src/state.rs:191-203 | An even height skips to itself without its lowest one bit, an odd one without the two above the last |
| `HeaderIndex.AncestorHash` | fluxd_rust/crates/chainstate/src/state.rs:799-832 | Following skip links ends and is walking parent links, whenever it finds anything |
| `HeaderIndex.TreeGrows` | fluxd_rust/crates/chainstate/src/state.rs:1005-1187 | A new header keeps heights, work and skip links right |
| `HeaderIndex.BuildEntry` | fluxd_rust/crates/chainstate/src/state.rs:1005-1187 | The entry built for a header is such a one and carries its parent, time, bits and kind, with its skip link if the headers of the batch are cached; each refusal exactly when its condition holds |
| `HeaderIndex.WorkIsTotal` | fluxd_rust/crates/chainstate/src/state.rs:1153-1165 | Stored work is the sum back to genesis |
| `HeaderIndex.HeightIsLength` | fluxd_rust/crates/chainstate/src/state.rs:1019-1022 | Stored height is the number of parent links to genesis, no fewer and no more |
| `HeaderIndex.HeaderStore.InsertBatch` | fluxd_rust/crates/chainstate/src/state.rs:868-903 | Every committed batch keeps the tree, and the best header has the most work and gives way only to more, the first of several; all headers are added and nothing else, each entry carrying what the header says and, if the batch is cached, its skip link |
| `Windows.CollectHeaders` | fluxd_rust/crates/chainstate/src/state.rs:5108-5131 | Walking back, pushing and reversing gives the last headers oldest first |
| `Windows.HeaderWindow.Advance` | fluxd_rust/crates/chainstate/src/state.rs:579-589 | A slid window is what walking back from the new tip would collect |
| `Windows.HeaderWindow.ExpectedBits` | fluxd_rust/crates/chainstate/src/state.rs:569-577 | The bits asked for on the window are those of the whole history |
| `Windows.HeaderWindow.MedianTime` | fluxd_rust/crates/chainstate/src/state.rs:608-612 | The median on the window is that of the whole history |

## Left out

- Networking, relay, RPC, wallet, dashboard, logging, metrics and configuration.
- Floating point: fee estimation, transaction priorities, the free-relay limiter and tier amounts before proof of node.
- Cryptography and script execution: hashes, signatures, shielded proofs and commitment-tree internals are arbitrary functions.
- Node transaction validation beyond the collateral of a start, header rules and the block rules no property depends on are arbitrary predicates.
- Flat files, their pruning and the block-file bookkeeping; a block's body and undo bytes are database columns here.
- Totals missing from old databases, which the node recomputes by a scan; here they are always stored.
- The node key column and the text encoding of node addresses.
- The lock interleavings of the caches; commits and reads are sequential.
- Header entries left in the header cache by abandoned batches, header failure marking and the repair of old chainwork.
- The orphan pool of the mempool.
- Fixed-width wrap-around of counters that cannot reach their width: cache clocks, pool byte counts and the number of outputs in a block.
- Connect.ApplyTxNode: the delegate keys of a start transaction are an abstract update of one key.
- NodeRun.Node.ExpectedPayouts: amounts, payee scripts and the fund's script are arbitrary functions of height, tier, coin and record.
- NodeRun.Node.Connect: the exchange, foundation and swap-pool outputs of the coinbase and the signature of a proof-of-node header are not checked.
- ConnectBlock.ConnectTip: of a block that makes an outpoint while an earlier one of that name is stored, and spends it later on, only the tip's columns and that it spends nothing twice are stated.
- Solutions.IsValidSolution: only for parameters of at most 512 bits and groups of 8 to 25 bits, which all five in use have; which of them a height allows is an input.
- Validate.CheckBlock: finality, signature-operation limits, per-transaction rules and the coinbase height push are the arbitrary `blockOk`.
- Mempool.TxPool.Insert: the three maps of spent outputs and nullifiers are one map keyed by kind.
- RetargetLaws.RampAsks: of the last two steps of the ramp after the second epoch only the limit is stated, since their negative step wraps.
- VerifyChain.WrongRowSeen: the amount and address of a spent row without address, and the contents of a coin, are compared with nothing, so changing them is not seen.
