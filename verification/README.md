# Verification model of basiccoin

A Dafny model of the chain engine of this repository, with proofs.  It follows a node of the
currency from bytes on a connection to the ledger it keeps:

- **Inventory** (`Inventory`, over the rules in `Rules` and the forest in `Forest`): an insert-only
  store of transactions, merkle nodes and blocks, with the walks through the block tree (`Ancestry`)
  and the reading of merkle trees.
- **State** (`ChainState`): the head, mempool, unspent outputs and their indexes, updated piece by
  piece by `Advance` and `Rewind`.  Its invariant says that every field is what a pure replay of the
  blocks from the zero block to the head makes it (`Ledger.Canon`); nothing in `Ledger` rewinds.
- **Chain** (`Chain`): the event loop.  `Node` states each event on inventory, head and mempool alone
  and proves what whole runs keep; `Supply`, `Agreement` and `History` draw conclusions.
- **Mining** (`Mining`, `Merkle`, `Difficulty`, `Solving`, `Starving`): from the sorted mempool to a
  published block, and why the chain takes it up, or does not.  `Work` says what a target weighs,
  `Spending` who may spend an output.
- **Peers** (`Network`, `Sync`, `Command`, `Loop`): two peers over first-in first-out streams.
  `Network` proves once that sequential peers reach one end in every interleaving if one schedule
  completes; `Sync` and `Command` give that schedule.  In `Loop` each peer chooses at every turn
  whether to issue a command or to listen.  `Trees`, `Fetches`, `Ordering`, `Delivery` and `Arrival`
  follow what a sync fetches into the receiver's chain.  `Lying` puts a peer that recites a script
  against one that follows the protocol, `Published` any program at all, and `Transcript` writes an
  honest sync out word by word.
- **Wallet** (`CoinSelection`) and **formats** (`HashBytes`, `Codec`, `Text`, `Records`, `Layout`).
- **Concrete runs** (`Scenarios`, `SyncScenario`): a toy network whose ids are small numbers, on which
  the node does what the general results say can go wrong.

Hash functions and signature checks are function values of which nothing is known (`Core.Hashes`).
What a proof needs of them stands in its `requires`: transaction and merkle ids differ
(`Disjoint`), and no two of the finitely many entities at hand share an id: those of two inventories
(`Agreement.NoCollision`), a tree and the inventory it goes to (`Merkle.NodesClear`), a new block
and the stored ones (`Mining.BlockClear`).  No result assumes a hash function without collisions.
`Hashes.block` covers five fields: the mined time is not part of a block's id.

A class stands for each object that the program updates in place; its methods carry the program's
loops.  `Panic`, or a method that is not `ok`, stands for a panic where the text says so.

## Where the code and its comments part ways

The model follows the code.

- The check that the last block of a period is later than its first never fires
  (`Difficulty.GuardNeverFires`), so computing a target can panic: when exactly says
  `Difficulty.PanicsExactly`, and `Scenarios.TargetPanics` mines such a chain.  In the first period
  the median rule makes up for the check (`Difficulty.FirstPeriodPanicsExactly`).
- The median of an even number of times is a wrapping sum halved (`Difficulty.MedianWraps`), so from
  times of 2^63 on the median rule does not even make up for that (`Scenarios.LateTargetPanics`).
- `Rewind` walks a block's transactions forward, so a block that spends its own outputs can be
  advanced to but not rewound (`ChainState.State.Rewind`, `History.AdvanceThenRewind`); a heavier fork
  then panics (`Scenarios.InBlockSpendPanics`).
- Sums of values wrap at 2^64 (`Supply.SurplusExact`, `Supply.SupplyExact`), so a block can mint money
  (`Scenarios.MoneyMinted`).
- A transaction that names an output twice is stored and offered to the miner
  (`Starving.DoubledIsOffered`), and refused only by `Advance` (`ChainState.State.RemoveMempoolTx`).
  So not every template can become a block: `Mining.MinedBlockAccepted` says exactly which can.  Such a
  transaction stays pending for good (`Starving.PendsForever`), and while it is offered no block is
  mined (`Starving.SolutionRefused`, `Starving.MinerStarves`).
- Work is measured against 2^256-1, not 2^256.
- A payment of the whole balance is refused even when it is free of charge
  (`CoinSelection.WholeBalancePayable`, `CoinSelection.MakeOutboundTx`).
- A field of 65536 bytes can be written but is framed with length zero (`Codec.FieldInverts`).
- A count of inputs or outputs that no slice can have panics in its reader (`Codec.Conn.ReadTx`).
- A transaction record whose last row is empty does not come back (`Records.TxRecordInverts`).
- The rows of a record are counted modulo 2^64, and a count may be negative: the parser panics where the
  check should refuse (`Records.ReadTxRecord`, `Records.MiscountsCrash`).
- When the quick checks of a sync fail, composing the error dereferences one that is nil: any peer that
  lies about its work ends the other's loop with a panic (`Lying.LiarCrashes`, `Lying.AnyoneCrashes`).
- The transactions of a sync need not come in the order they can be stored in: levels of different
  trees interleave.  `Arrival.OrderIsKnownBefore` says exactly when they do, and
  `SyncScenario.SyncRefused` gives an honest sync whose event is refused.

## Model

| member | source | states |
|---|---|---|
| `Core.ComputeInputsValue` | pkg/core/transaction.go:67-73 | the sum loop yields the inputs' total modulo 2^64 |
| `Core.ComputeOutputsValue` | pkg/core/transaction.go:75-81 | the sum loop yields the outputs' total modulo 2^64 |
| `Core.ComputeVSize` | pkg/core/transaction.go:83-93 | the size loop adds 72, 48 plus key and signature for each input, 40 for each output |
| `Supply.WrappedSurplus` | pkg/core/transaction.go:105-107 | a concrete transaction that pays out more than it takes in and still has a surplus, because its outputs wrap |
| `Supply.SurplusExact` | pkg/core/transaction.go:105-107 | a transaction that passes the surplus check takes in more than it pays out if and only if its outputs wrap no more often than its inputs |
| `Inventory.Inv.GetBlockAncestors` | internal/inv/inv.go:152-165 | ancestors nearest first, at most so many, ending at the zero block |
| `Inventory.Inv.GetBlockSpecificAncestor` | internal/inv/inv.go:169-176 | the ancestor so many hops up, or the zero block |
| `Inventory.Inv.GetBlockAncestorDepth` | internal/inv/inv.go:180-191 | found if and only if it is an ancestor, and then the depth is the difference in height and the number of blocks between |
| `Inventory.Inv.GetBlockAncestorsUntil` | internal/inv/inv.go:194-213 | with the block itself, the exact path down to the given ancestor, top first |
| `Inventory.Inv.GetBlockLCA` | internal/inv/inv.go:217-231 | never panics, and returns the common ancestor that every common ancestor precedes |
| `Ancestry.LcaUnique` | internal/inv/inv.go:217-231 | there is only one such ancestor |
| `Ancestry.PathExact` | internal/inv/inv.go:194-213 | the path is exactly the ancestors strictly above the lower end, as many as the heights differ |
| `Ancestry.HeavierNotAncestor` | internal/chain/chain.go:168-189 | a block with more work is never an ancestor of one with less, so a reorganisation always has blocks to advance to |
| `Ancestry.TotalWorkIsChainWork` | internal/inv/inv.go:329-344 | total work is the sum over the chain of floor((2^256-1)/target) |
| `Target.WorkExact` | pkg/core/hasht.go:110-119 | the work of a target is how often it goes into 2^256 - 1 |
| `Work.HarderSibling` | internal/inv/inv.go:329-344 | of two stored blocks on one parent the one with the lower target never has less total work, and has more exactly if its target goes into 2^256 - 1 more often |
| `Work.SiblingTaken` | internal/chain/chain.go:164-189 | a known sibling of the head becomes the head exactly if its target goes in more often, its transactions follow and are at hand, and the head has no in-block spend, which makes the node panic instead; so never one as easy or easier |
| `Ancestry.WellFormedTree` | internal/inv/inv.go:329-344 | stored blocks form a tree rooted at the zero block in which work strictly grows |
| `Ancestry.TargetsBounded` | pkg/core/verify.go:207-232 | with an original target within the maximum every stored target is positive, within the maximum, and four times it stays below 2^256 |
| `Inventory.Inv.GetMerkleTxIds` | internal/inv/inv.go:249-270 | the queue-driven search terminates without panic and returns the transactions of the tree level by level |
| `Inventory.Inv.VerifyTxIsolated` | pkg/core/verify.go:237-275 | accepts exactly transactions with valid signatures, lawful size, and coinbase shape or surplus |
| `Inventory.Inv.VerifyTx` | pkg/core/verify.go:43-62 | accepts exactly when every input names a stored output, states its value, and shows a key that hashes to what the output pays, with a valid signature under that key over the outputs; the size is lawful; and it is a coinbase in shape and amount, or takes in more than it pays out, in 64-bit sums |
| `Inventory.Inv.VerifyMerkle` | pkg/core/verify.go:65-96 | accepts exactly when the children are stored, share no transaction unless they are one, and fit the size limit |
| `Inventory.Inv.VerifyBody` | pkg/core/verify.go:115-148 | accepts exactly a non-empty, not too long list with its coinbase first and only first, at the right height, whose 64-bit sums balance |
| `Inventory.Inv.VerifyTimes` | pkg/core/verify.go:155-205 | accepts exactly a time above the median of up to five earlier blocks and at most an hour ahead, the mis-parsed guard included |
| `Rules.TimesOkExact` | pkg/core/verify.go:155-205 | in full: above the median, and at most an hour ahead of a 64-bit clock that wraps |
| `Rules.MedianExact` | pkg/core/verify.go:164-175 | however the times are put in ascending order, the median is the middle one, or half the sum of the two middle ones, which wraps |
| `Inventory.Inv.VerifyTarget` | pkg/core/verify.go:207-232 | accepts exactly the original target after the zero block, the parent's within a period, and where a period begins one from a quarter of it to four times it, within the maximum |
| `Inventory.Inv.VerifyBlock` | pkg/core/verify.go:99-234 | accepts exactly the blocks that keep all rules |
| `Rules.SortTimesSorts` | pkg/core/verify.go:170 | the median is taken of an ascending permutation of the times |
| `Difficulty.GuardNeverFires` | pkg/core/verify.go:186-200 | the last-block-of-period check passes every block, because its condition parses as height + (1 % period) |
| `Inventory.Inv.StoreTx` | internal/inv/inv.go:367-380 | stores exactly new valid transactions, and keeps the inventory well formed |
| `Inventory.Inv.StoreMerkle` | internal/inv/inv.go:347-364 | stores exactly new valid nodes with the size of their tree, and keeps the inventory well formed |
| `Inventory.Inv.StoreBlock` | internal/inv/inv.go:329-344 | stores exactly new valid blocks one above their parent, whose total exceeds the parent's by how often the target goes into 2^256 - 1; panics exactly when total work leaves 256 bits |
| `Rules.PutTxWellFormed` | internal/inv/inv.go:367-380 | a new transaction leaves every stored record as it must be |
| `Rules.PutMerkleWellFormed` | internal/inv/inv.go:347-364 | after a new node every stored node still reads, to a list without duplicates whose sizes sum to the recorded size within the limit |
| `Rules.PutBlockWellFormed` | internal/inv/inv.go:329-344 | a new block leaves every stored record as it must be |
| `Rules.TxIdsUnderStable` | internal/inv/inv.go:249-270 | the transactions under a stored node never change as the inventory grows |
| `Rules.LastingStable` | pkg/core/verify.go:99-234 | the rules on a block that do not mention time never lapse |
| `Ledger.FitsAllIffNoDoubleSpend` | internal/chain/state.go:145-241 | transactions can follow one another if and only if they are distinct, every input is an earlier output with its value, and no output is consumed twice |
| `Ledger.UnspentStep` | internal/chain/state.go:186-204 | applying a transaction removes its inputs from and adds its outputs to the unspent outputs |
| `Ledger.RewindStep` | internal/chain/state.go:88-124 | taking a transaction back succeeds exactly while nothing after it in the block spent from it |
| `Ledger.RewindDone` | internal/chain/state.go:88-124 | taking a whole block back leaves what was unspent before it |
| `Ledger.IncludedExact` | internal/chain/state.go:205-210 | the recorded block of a transaction is the one block of the head's chain that holds it |
| `Ledger.ConfirmsExact` | internal/chain/state.go:343-358 | the recorded block is an ancestor of the head, so confirmations never underflow |
| `Index.IndexExact` | internal/chain/state.go:270-292 | an index holds exactly its pairs and no empty set |
| `Index.IndexAdd` | internal/chain/state.go:271-277 | adding a pair to an index yields the index of one pair more |
| `Index.IndexRemove` | internal/chain/state.go:280-292 | removing a pair yields the index of one pair less, empty sets going away |
| `ChainState.State.constructor` | internal/chain/state.go:42-53 | the empty state is the one of the zero block |
| `ChainState.State.Copy` | internal/chain/state.go:56-78 | the copy has the same fields and shares none |
| `ChainState.State.AddMempoolTx` | internal/chain/state.go:258-268 | the mempool and both its indexes gain the transaction |
| `ChainState.State.RemoveMempoolTx` | internal/chain/state.go:167-185 | the mempool and both its indexes lose it; fails exactly when the transaction names an output twice |
| `ChainState.State.CreditBalance` | internal/chain/state.go:271-277 | an index of some pairs becomes the index of those and the credited output under its key; the sets of other keys stay |
| `ChainState.State.DebitBalance` | internal/chain/state.go:280-292 | fails exactly when the key does not control the output |
| `ChainState.State.ConsumeInputs` | internal/chain/state.go:186-195 | succeeds exactly when all inputs are distinct and unspent, and removes them from set and index |
| `ChainState.State.CreateOutputs` | internal/chain/state.go:196-204 | adds the outputs to set and index |
| `ChainState.State.ReturnInputs` | internal/chain/state.go:99-104 | puts the inputs back into set and index |
| `ChainState.State.RemoveOutputs` | internal/chain/state.go:105-117 | succeeds exactly when all outputs are unspent, and removes them from set and index |
| `ChainState.State.VerifyTxIncludable` | internal/chain/state.go:217-241 | accepts exactly stored, mature, pending (or auto-added) transactions with unspent inputs |
| `ChainState.State.Advance` | internal/chain/state.go:145-214 | succeeds exactly when the block is a child of the head and its transactions follow the chain, and then every field is the pure replay to the new head |
| `ChainState.State.Rewind` | internal/chain/state.go:82-126 | succeeds exactly off the zero block without an in-block spend, and then every field is the pure replay to the parent |
| `ChainState.State.RewindUntil` | internal/chain/state.go:129-141 | succeeds exactly when the block is an ancestor and no block above it has an in-block spend; the mempool gains just their transactions |
| `ChainState.State.GetSortedIncludableMempool` | internal/chain/state.go:244-255 | lists exactly the includable pending transactions with surplus, each once, by descending fee per size, said in integers |
| `Core.PaysNoLessExact` | pkg/core/transaction.go:95-97 | in that order, of equal sizes the larger fee comes first, and of equal fees the smaller size |
| `ChainState.State.GetPkhUtxos` | internal/chain/state.go:295-309 | lists exactly the unspent outputs that pay the key, without those a pending transaction spends when they are to be excluded |
| `ChainState.State.GetManyPkhUtxos` | internal/chain/state.go:312-321 | maps exactly those outputs to the keys they pay |
| `ChainState.State.GetPkhBalance` | internal/chain/state.go:323-333 | is the total of the unspent outputs that pay the key, modulo 2^64 |
| `ChainState.State.GetTxConfirms` | internal/chain/state.go:343-358 | one plus the number of blocks above the including one, zero off the chain, no entry for the unknown |
| `History.AdvanceThenRewind` | internal/chain/state.go:82-214 | `Advance` to any block and then `Rewind` succeed exactly when the block follows and spends none of its own outputs, and then every field is as before; with auto-add the mempool has grown by just the block's missing transactions |
| `History.AdvanceThenRewindUntil` | internal/chain/chain.go:168-189 | the same up any number of blocks with `AdvanceTo` and back with one `RewindUntil` |
| `Scenarios.InBlockSpendPanics` | internal/chain/state.go:88-124 | a new node takes up a block that spends its own output, cannot rewind it, refuses a fork of equal work, and panics when the fork becomes heavier |
| `History.TxPartition` | internal/chain/chain.go:134-226 | in every reachable state a stored transaction is pending or included, never both, and the recorded block is on the chain and holds it |
| `Chain.Chain.HandleCandidateHead` | internal/chain/chain.go:134-207 | the state stays the pure replay of its head, and the event comes to exactly what `Node.HandleHead` says: storing in order, then refusal, a panic, or the new head |
| `Chain.Chain.HandleCandidateTx` | internal/chain/chain.go:209-226 | a new valid transaction is stored and becomes pending; nothing else changes |
| `Chain.Chain.AdvanceTo` | internal/chain/chain.go:176-189 | advancing block by block succeeds exactly when the whole chain is valid and its transactions are at hand |
| `Node.HandleHeadOk` | internal/chain/chain.go:134-207 | a refused head leaves chain and head alone; an accepted one has strictly more work and a valid chain |
| `Node.AddEntitiesOk` | internal/chain/chain.go:136-163 | storing an event's entities only adds to what is known and pending |
| `Node.CanonStable` | internal/chain/chain.go:136-163 | unspent outputs, balances, indexes and inclusions of a head do not depend on what else is stored |
| `Node.RunOk` | internal/chain/chain.go:87-226 | after any sequence of events the inventory is well formed, the chain has no double spend and spends only what its signers own, and no step has lost work |
| `Spending.StoredInputShows` | pkg/core/verify.go:43-62 | every input of a stored transaction names an output with its value and shows a key hashing to what it pays, with a valid signature, said of the hash and signature functions themselves |
| `Spending.SpentOnTheWay` | internal/chain/state.go:186-204 | going up a chain, an output leaves the unspent ones only through a transaction that shows such a key |
| `Spending.LostToKey` | internal/chain/chain.go:87-226 | over any run, reorganisations included, an output whose transaction is still on the chain is lost only to a transaction on the chain that shows such a key |
| `Node.NewNodeOk` | internal/chain/state.go:42-53 | a fresh node satisfies what every run keeps |
| `Node.HistoryIndependence` | internal/chain/chain.go:134-226 | two runs that end with the same inventory and head agree on everything, whatever was tried, taken back or refused |
| `Agreement.SameHeadSameLedger` | internal/chain/chain.go:134-226 | when no two entities of the two share an id, nodes at the same head have the same unspent outputs, balances, inclusions and work |
| `Supply.SupplyFormula` | pkg/core/verify.go:129-147 | the unspent total is height times reward plus 2^64 for each net wrap of a block's sums |
| `Supply.SupplyModulo` | pkg/core/verify.go:129-147 | modulo 2^64 the unspent total is always height times reward |
| `Supply.SupplyExact` | pkg/core/verify.go:129-147 | a block adds exactly the reward if and only if its two sums wrap equally often |
| `Scenarios.MintingTaken` | pkg/core/verify.go:129-147 | a new node takes up one block whose payment has outputs adding up to 50 modulo 2^64, and what is unspent then is their full sum, where the reward is 50 |
| `Scenarios.MoneyMinted` | pkg/core/verify.go:129-147 | so after one block 2^64 and the reward are unspent |
| `Supply.PkhIndexExact` | internal/chain/state.go:270-292 | the entry of a key is exactly the unspent outputs that pay it |
| `Supply.BalancesAddUp` | internal/chain/state.go:323-333 | the outputs held by all keys add up to all unspent outputs |
| `Merkle.CeilLog2` | pkg/core/block.go:63 | the number of layers above the leaves is the least k with 2^k at least the number of leaves |
| `Merkle.HalvingsReachOne` | pkg/core/block.go:63-93 | that many halvings reach a single node and fewer do not |
| `Merkle.BuildLayer` | pkg/core/block.go:71-92 | a layer pairs neighbours and repeats an odd last one |
| `Merkle.MerkleFromTxIds` | pkg/core/block.go:49-95 | returns the nodes of all layers by id, in the order they are to be stored |
| `Merkle.TreeSizeBound` | pkg/core/block.go:41-44 | nodes and leaves together are at most floor(20n/9), attained at n = 9 |
| `Merkle.BlockTreeFits` | pkg/core/block.go:32-44 | no block's tree exceeds the maximum tree size |
| `Merkle.StoreTree` | internal/inv/inv.go:347-364 | for distinct stored transactions that fit a block, and no colliding ids, the nodes can be stored in the returned order, the last id is the root, and reading it breadth first gives back the list |
| `HashBytes.Lt` | pkg/core/hasht.go:86-96 | the byte-by-byte comparison is the order of the numbers |
| `HashBytes.NumberRoundTrip` | pkg/core/hasht.go:56-60 | a number survives the way to bytes and back if and only if it fits |
| `HashBytes.BytesRoundTrip` | pkg/core/hasht.go:104-108 | bytes survive the way to a number and back |
| `Difficulty.ExpectedTargetAdjustment` | pkg/core/difficulty.go:17-47 | the time taken and the time desired since the first block of the period |
| `Difficulty.PeriodFirstExact` | pkg/core/difficulty.go:26-39 | that block is the ancestor at the height where the period starts, one for the first period |
| `Difficulty.ComputeNextTarget` | pkg/core/difficulty.go:49-99 | the next target, or a panic |
| `Difficulty.PanicsExactly` | pkg/core/difficulty.go:64-68 | it panics exactly at the end of a period whose last block is not later than its first, or with a zero desired time |
| `Difficulty.NextTargetExact` | pkg/core/difficulty.go:49-99 | after the last block of a period: none exactly if no time passed or none should have; else a quarter of the old target, four times it, the maximum, or its proportion to the times rounded down, and when it is which, all in mined times, target time and heights |
| `Difficulty.TargetMovesWithTime` | pkg/core/difficulty.go:64-92 | slower blocks never lower a target within the maximum, faster ones never raise it, on time it stays, and within a period nothing moves it |
| `Difficulty.LaterThanFirst` | pkg/core/verify.go:155-183 | by the median rule every block of a chain is later than its first, while times stay below 2^63 |
| `Difficulty.MedianWraps` | pkg/core/verify.go:170-175 | beyond that the sum of the two middle times wraps, and the median of two late times is zero |
| `Difficulty.FirstPeriodPanicsExactly` | pkg/core/difficulty.go:64-68 | so in the first period it panics exactly when the desired time is zero |
| `Scenarios.LineMined` | pkg/core/verify.go:99-234 | up to 99 blocks mined at any times that keep the median rule are taken up one by one by a new node of a toy network |
| `Scenarios.TargetPanics` | pkg/core/verify.go:186-200 | times 1, 2, 3, 1000, 3, 4, 4 with period 4 are such, and the target after them is a panic: the second period ends before it began |
| `Scenarios.LateTargetPanics` | pkg/core/verify.go:170-175 | with times 2^63, 2^63 + 1 and 1 even the first period ends before it began, and the target is a panic |
| `Difficulty.NextTargetAllowed` | pkg/core/difficulty.go:84-92 | a next target passes the block rules if and only if a quarter of the previous one is within the maximum, or no adjustment is due |
| `Difficulty.NextTargetOk` | pkg/core/difficulty.go:84-92 | with an original target within the maximum it always passes |
| `Difficulty.NearestAllowed` | pkg/core/difficulty.go:70-92 | of all targets the rules allow it is the nearest to the proportion, which is bracketed by multiplication |
| `Mining.PackTxs` | internal/chain/target.go:15-37 | the loop packs first come, first served, and stops once nothing of the minimum size can fit |
| `Mining.CreateMiningTarget` | internal/chain/target.go:10-43 | offers that packing of the sorted includable transactions at the head, with the next target |
| `Mining.PackFeasible` | internal/chain/target.go:19-33 | the picks fit beside a coinbase, share no output, and come by descending fee per size |
| `Mining.PackMaximal` | internal/chain/target.go:19-37 | a candidate left out clashes with or no longer fits beside picks that pay at least as much for their size, if it has the minimum size |
| `Mining.CountFollowsSize` | pkg/core/block.go:32-38 | what fits by size is within the number of transactions a block may have |
| `Mining.PackedIsOffered` | internal/chain/target.go:10-43 | what is packed could follow the head in any order |
| `Mining.TotalFees` | internal/miner/miner.go:85-92 | the surpluses summed in 64 bits; stops at one without surplus |
| `Mining.Miner.UpdateTemplate` | internal/miner/miner.go:83-123 | the template carries the coinbase for the picks' fees and the root of the tree over both |
| `Mining.FeesBalance` | internal/miner/miner.go:85-92 | fees plus outputs equal inputs modulo 2^64 |
| `Mining.TemplateLasts` | internal/miner/miner.go:83-123 | while the head stays, whatever else arrives, the same coinbase, root and target are right |
| `Mining.RepeatedInputPasses` | pkg/core/verify.go:43-62 | an input that passes the transaction checks also passes them named twice in one transaction, size and surplus permitting |
| `Starving.DoubledIsOffered` | internal/chain/chain.go:209-226 | whoever may spend an unspent output can send it named twice: the transaction is stored, pending, and may be offered to the miner |
| `Starving.PendsForever` | internal/chain/state.go:167-195 | whatever events follow, such a transaction stays pending and off the chain, and may be offered whenever its outputs are unspent |
| `Mining.CoinbaseStored` | internal/miner/miner.go:85-110 | the coinbase can be stored if and only if fees and reward do not wrap and the size limit allows a coinbase |
| `Mining.MinedBlockAccepted` | internal/miner/miner.go:83-151 | a published solution over offered picks (`Solved`, `Buildable`, `BlockClear`) is stored in the emitted order and becomes the head if and only if the coinbase fits, the count fits, and no pick names an output twice (`Mineable`) |
| `Solving.MineAndDeliver` | internal/miner/miner.go:62-151 | from the offer over the template, the transactions that arrive meanwhile and the published event to the chain: a lucky block becomes the head, with the coinbase and the picks as its transactions, if and only if the picks are mineable (`Mineable`) |
| `Starving.SolutionRefused` | internal/miner/miner.go:62-151 | a solution over an offer with such a pick is never taken up, however lucky, and whatever arrived since |
| `Starving.MinerStarves` | internal/miner/miner.go:62-151 | a node with one block and one such transaction: its every offer is that transaction alone, and a lucky solution over it is refused |
| `Network.Diamond` | internal/peer/sync.go:15-195 | steps of different peers commute |
| `Network.Confluence` | internal/peer/sync.go:15-195 | if one schedule completes, every interleaving is on the way to the same end and no longer |
| `Network.AllEndAlike` | internal/peer/sync.go:15-195 | then none gets stuck elsewhere and none goes on forever |
| `Sync.QuickVerifyChain` | internal/peer/sync.go:199-232 | accepts exactly blocks that hang together from the head claimed to the common ancestor, each below its own target, whose work, bracketed by multiplication, beats ours within 256 bits |
| `Sync.QuickVerdictExact` | internal/peer/sync.go:199-232 | the same of the checks as the protocol takes them, and that they panic exactly when the blocks hang together and their work leaves 256 bits or a target is zero |
| `Sync.NothingToDo` | internal/peer/sync.go:25-30 | with equal work, or a head the lighter peer knows, both cancel |
| `Sync.Roles` | internal/peer/sync.go:43-60 | otherwise the peers take complementary roles |
| `Sync.MissingExact` | internal/peer/sync.go:65-75 | the blocks negotiated are exactly those between the head and its most recent ancestor the receiver knows |
| `Sync.Negotiate` | internal/peer/sync.go:65-125 | both peers end the negotiation with the same list |
| `Sync.HonestChainPasses` | internal/peer/sync.go:199-232 | the quick checks accept an honest chain |
| `Lying.LiarCrashes` | internal/peer/sync.go:36-146 | a peer that claims more work and sends blocks we do not have, not listening to us: in every interleaving our side stops in the same place, and it has crashed if and only if the blocks fail the quick checks |
| `Lying.AnyoneCrashes` | internal/peer/sync.go:36-146 | so any peer, unless it has all the work there can be, is crashed by one unknown block that does not attach, does not beat its own target, or adds too little; what dies is the loop of this peer, which recovers the panic and closes the connection |
| `Lying.NewNodeCrashes` | internal/peer/sync.go:128-146 | for one, a new node of the toy network, by a block that does not attach |
| `Sync.SyncEnds` | internal/peer/sync.go:15-195 | every interleaving of an honest sync ends, the sender having sent the list and the receiver publishing its event |
| `Sync.SyncSettles` | internal/peer/sync.go:15-195 | whoever is heavier, the sync settles in complementary roles or with nothing to do |
| `Published.WhateverTheySay` | internal/peer/sync.go:15-195 | whatever program the other side runs, and in every interleaving: a published event has new blocks from a known one to its head, each below its target, of more work than ours, and just the entities they refer to that were missing, each once, under ids that no two share and none of which was known, parents after children |
| `Transcript.ReceiverTranscript` | internal/peer/sync.go:15-195 | word by word what a peer that lacks one block says to a script of what the other says, and the event it ends with |
| `Transcript.SenderTranscript` | internal/peer/sync.go:15-125 | and the other side |
| `Trees.OneParent` | pkg/core/verify.go:83-88 | in a tree without repeated transactions no node has two parents |
| `Fetches.HaulInvariant` | internal/peer/sync.go:148-180 | what was fetched is what the sender has and the receiver had not, each once, and everything it refers to is in hand |
| `Fetches.HaulComplete` | internal/peer/sync.go:148-180 | the receiver holds everything below the new blocks' roots |
| `Fetches.NewTxsInHand` | internal/peer/sync.go:148-180 | in particular every transaction of the new blocks |
| `Fetches.ParentBeforeChild` | internal/peer/sync.go:156-180 | a node is fetched before its children, across all trees |
| `Ordering.FetchedInOrder` | internal/peer/sync.go:148-180 | of two fetched transactions the one at the lesser level comes first, on one level the one of the older block, in one block the one further left |
| `Ordering.OnePlace` | internal/peer/sync.go:148-180 | a transaction of the new blocks is at one level, in one block, at one position |
| `Delivery.MerklesDeliverable` | internal/peer/sync.go:186-193 | the reversed node list can be stored in order, never missing a child |
| `Delivery.OnlyTimesRefuse` | internal/peer/sync.go:186-193 | the reversed blocks are stored if and only if their times are accepted |
| `Delivery.OnlyOrderRefuses` | internal/peer/sync.go:186-193 | the reversed transactions are stored if and only if each comes after those it spends from |
| `Delivery.SameValidChain` | internal/chain/chain.go:176-189 | a chain valid for one peer is valid for another that holds it |
| `Arrival.OrderIsKnownBefore` | internal/peer/sync.go:186-193 | the transactions can be stored in the order they arrive if and only if each new one that spends a new one finds it in an older new block, at a level at least as deep (`OrderFine`), which shows on the two inventories |
| `Arrival.InBlockSpendLate` | internal/peer/sync.go:186-193 | a new transaction that spends from its own block is never in order |
| `Arrival.TimesKnownBefore` | pkg/core/verify.go:155-205 | the blocks are stored if and only if the times fit the medians over both inventories joined, and the clock |
| `Arrival.StuckKnownBefore` | internal/chain/state.go:88-124 | whether the way back is blocked shows on the receiver's own chain above the last common block |
| `Arrival.SyncArrives` | internal/peer/sync.go:15-195 | an honest sync from a peer with a heavier valid chain ends in every interleaving, and its event makes that head the receiver's if and only if order and times are fine and the way back is free, all told by the two inventories before the sync |
| `SyncScenario.SyncRefused` | internal/peer/sync.go:186-193 | two honest peers, their sync complete in every interleaving, and a valid chain of three blocks that the receiver nevertheless refuses: a payment spends the reward of an older block from a shallower level |
| `Command.RunInside` | internal/peer/peer.go:145-180 | a conversation of handlers runs the same inside the peers' loops |
| `Command.LeftIssues` | internal/peer/peer.go:190-203 | a command issued alone is acknowledged and handled on both ends |
| `Command.BothIssue` | internal/peer/peer.go:204-231 | of two simultaneous commands both ends handle the non-initiator's first |
| `Command.SyncCompatible` | internal/peer/peer.go:173-174 | the two ends of a sync are such a pair of handlers |
| `Loop.RunFollows` | internal/peer/peer.go:85-143 | however the peers choose at the tops of their loops to issue or to listen, every state they reach is one on the way through the rounds that their choices form |
| `Loop.LoopsAgree` | internal/peer/peer.go:85-234 | at any moment of any run nobody has failed, and both have handled, and acknowledged, the same commands in one order as far as each has come |
| `Loop.LoopsRest` | internal/peer/peer.go:85-234 | from any such moment, however they go on without another command, it takes a bounded number of moves, and where nothing is left to do both are back at the tops of their loops, each command handled by both and acknowledged once |
| `CoinSelection.GetBalanceAndRichestPkh` | pkg/core/txfactory.go:240-258 | refuses a key that is not ours, panics without outputs, and finds the key with the highest balance |
| `CoinSelection.RichestExact` | pkg/core/txfactory.go:240-258 | no key has outputs worth more together |
| `CoinSelection.SelectInputs` | pkg/core/txfactory.go:80-108 | takes the least number of the largest outputs that is enough, unless the payment is then too large |
| `CoinSelection.MakeOutboundTx` | pkg/core/txfactory.go:18-134 | panics exactly without outputs; makes a payment exactly when all keys are ours, less than the balance is paid out, and some choice of outputs covers payment and fee within the size limit (`Payable`); then pays the destinations from the fewest outputs that do, the change to the richest key, all inputs signed |
| `CoinSelection.EachIsPaid` | pkg/core/txfactory.go:66-75 | each destination gets one output, with what it is to be paid, and nobody else gets any |
| `CoinSelection.FirstAreBest` | pkg/core/txfactory.go:47-52 | no choice of so many outputs is worth more than the first so many |
| `CoinSelection.SelectionBest` | pkg/core/txfactory.go:80-108 | what is selected covers the payment, and no choice with fewer outputs does |
| `CoinSelection.NoneCovers` | pkg/core/txfactory.go:80-108 | when nothing is selected, no choice of outputs covers the payment |
| `CoinSelection.WholeBalancePayable` | pkg/core/txfactory.go:43-45 | without a fee all outputs together would cover a payment of the whole balance, which is refused |
| `CoinSelection.PaymentBalances` | pkg/core/txfactory.go:110-114 | inputs equal outputs plus exactly the fee |
| `CoinSelection.PaymentPasses` | pkg/core/txfactory.go:116-133 | the signed payment passes the transaction verifier |
| `Codec.Conn.WriteRaw` | pkg/prot/conn.go:127-144 | appends the bytes, or sets the error when there are too many |
| `Codec.Conn.ReadRaw` | pkg/prot/conn.go:107-124 | takes exactly so many bytes, or sets the error |
| `Codec.Conn.Write` | pkg/prot/conn.go:169-181 | appends length and bytes |
| `Codec.Conn.Read` | pkg/prot/conn.go:148-166 | takes a length and so many bytes |
| `Codec.Conn.Err` | pkg/prot/conn.go:216-219 | hands the error over and clears it |
| `Codec.Conn.ReadUint64` | pkg/prot/primitives.go:43-52 | takes eight bytes as a number |
| `Codec.Conn.WriteUint64` | pkg/prot/primitives.go:55-62 | appends the eight bytes of a number |
| `Codec.Conn.ReadBool` | pkg/prot/primitives.go:65-81 | takes one byte, zero or one, anything else being an error |
| `Codec.Conn.WriteBool` | pkg/prot/primitives.go:84-93 | appends one byte |
| `Codec.Conn.ReadTx` | pkg/prot/core.go:97-136 | takes a transaction of the expected id; panics exactly at a count of inputs or outputs that no slice can have |
| `Codec.WrittenPanics` | pkg/prot/core.go:97-158 | so a transaction that was written makes its reader panic exactly when it has that many |
| `Codec.Conn.WriteTx` | pkg/prot/core.go:139-158 | appends the bytes of a transaction, or sets the error when a field is too long |
| `Codec.Conn.ReadBlock` | pkg/prot/core.go:31-52 | takes a block of the expected id |
| `Codec.Conn.WriteBlock` | pkg/prot/core.go:55-65 | appends the bytes of a block |
| `Codec.Conn.ReadMerkle` | pkg/prot/core.go:68-85 | takes a merkle node of the expected id |
| `Codec.Conn.WriteMerkle` | pkg/prot/core.go:88-94 | appends the bytes of a merkle node |
| `Codec.FieldInverts` | pkg/prot/conn.go:148-181 | a field comes back if and only if it is shorter than 65536 bytes; one of exactly that length comes back empty |
| `Codec.TxInverts` | pkg/prot/core.go:97-158 | a transaction comes back with just its bytes consumed if and only if no key or signature has 65536 bytes |
| `Codec.BlockInverts` | pkg/prot/core.go:31-65 | a block comes back with just its bytes consumed |
| `Codec.MerkleInverts` | pkg/prot/core.go:68-94 | a merkle node comes back with just its bytes consumed |
| `Layout.TxLayout` | pkg/prot/core.go:139-158 | a transaction on the wire, by offset: flag, minimum block and the two counts in 25 bytes, most significant first, then inputs and outputs |
| `Layout.InputLayout` | pkg/prot/core.go:139-158 | an input: 32 bytes of id, index, value, key and signature each after its length in two bytes |
| `Layout.OutputLayout` | pkg/prot/core.go:139-158 | an output: value, then 32 bytes of key hash |
| `Layout.InputsLayout` | pkg/prot/core.go:139-158 | inputs come first to last |
| `Layout.OutputsLayout` | pkg/prot/core.go:139-158 | and so do outputs, 40 bytes each |
| `Layout.BlockLayout` | pkg/prot/core.go:55-65 | a block: parent, root, target, noise, nonce, time in 144 bytes |
| `Layout.MerkleLayout` | pkg/prot/core.go:88-94 | a node: left child, right child |
| `Text.HashParses` | pkg/core/hasht.go:32-43 | a hash survives its hexadecimal form |
| `Text.UintParses` | internal/inv/serialize.go:33-40 | a number survives its decimal form |
| `Text.Base64Inverts` | internal/inv/serialize.go:162-171 | bytes survive their base64 form |
| `Text.BrokenDecodes` | internal/inv/serialize.go:162-171 | a carriage return anywhere in the text changes nothing |
| `Text.RowsBack` | internal/inv/serialize.go:12-13 | rows survive joining, trimming and splitting, up to the last that is not empty |
| `Text.Alphabets` | internal/inv/serialize.go:162-171 | the digits of the decimal, hexadecimal and base64 alphabets |
| `Layout.HexLayout` | pkg/core/hasht.go:76-78 | the high half of each byte comes first |
| `Layout.KnownTexts` | internal/inv/serialize.go:162-171 | test vectors of RFC 4648, section 10, and a number |
| `Records.BlockRecordInverts` | internal/inv/serialize.go:12-74 | a block record survives its text form |
| `Records.MerkleRecordInverts` | internal/inv/serialize.go:76-108 | a merkle record survives its text form |
| `Records.ComputeTxString` | internal/inv/serialize.go:209-232 | the loops print one row for each value |
| `Records.ReadTxRecord` | internal/inv/serialize.go:110-207 | the loops parse the rows in order; they crash exactly when the header is read, its counts call for as many rows as there are modulo 2^64, and a count is negative or larger than any slice (`Miscounted`) |
| `Records.RowsSuffice` | internal/inv/serialize.go:139-206 | past that check the sum has not wrapped, and every row that the loops look for is there |
| `Records.EmptyRecordCrashes` | internal/inv/serialize.go:131-144 | five rows that announce some inputs or outputs crash the parser if the rows announced come to nothing modulo 2^64, and are refused otherwise |
| `Records.MiscountsCrash` | internal/inv/serialize.go:131-144 | texts that crash it: minus two inputs and five outputs, two inputs and 2^63 - 5 outputs, minus 2^63 outputs |
| `Records.TxRecordInverts` | internal/inv/serialize.go:110-232 | a transaction record survives its text form if and only if its last row is not empty |
| `Layout.BlockRecordRows` | internal/inv/serialize.go:63-74 | which value of a block record is in which row |
| `Layout.MerkleRecordRows` | internal/inv/serialize.go:102-108 | of a merkle record |
| `Layout.TxRecordRows` | internal/inv/serialize.go:209-232 | of a transaction record: header, then inputs, then outputs |
| `Layout.InputRowsAt` | internal/inv/serialize.go:216-224 | five rows to an input |
| `Layout.OutputRowsAt` | internal/inv/serialize.go:225-230 | two rows to an output |

## Left out

- Heights, sizes and output indexes are unbounded numbers, where the program has 64 bits; the
  results that would break say so in a `requires` (`Mining.Buildable`, `Codec.Writable`,
  `Records.TxStorable`).
- Fee rates are exact quotients, where the program rounds to a float; the fee of a payment is any
  function of its size.  `MerkleTreeMaxSize` is computed in integers.
- The clock is read once per event.  Noise, nonces and the time of a template are parameters; the
  nonce search is not modelled.
- `Inv` is used by one thread at a time: the concurrent maps, the disk store and the head reloaded at
  start are not part of this model, except that `autoAdd` is a parameter of `Advance`.
- During a sync neither inventory changes, and messages are whole values; `Codec` says separately
  that each takes exactly its own bytes.
- Sockets, deadlines, the version handshake and peer discovery: a connection is two byte streams and
  an error that sticks.  What a slice can hold at most is a parameter of `Codec.Conn` and of
  `Records.ReadTxRecord`; memory that runs out below that is not modelled.
- A handler that fails, and `cmd:close`: commands are taken to succeed (`Command.Compatible`).
- Sets and maps are values: `Copy` shares nothing by construction, so the aliasing that its deep copies
  prevent cannot be expressed.
- The order in which a Go map is iterated is any order; `Lists.ToList` chooses one.
- `MakeConsolidateTx`, the rich list, printing, and the queries that only look a record up: they add
  nothing to the members above.
- The REST server and client, the command line, and wallet configuration.
- Difficulty.ComputeNextTarget: does not model the message printed when the target changes.
- Inventory.Inv.GetMerkleTxIds: stands also for `GetMerkleTxs`, which looks each id up.
