# The spaces indexer: chain following, mempool reconciliation and backfill

The indexer keeps three Postgres tables, `blocks`, `transactions` and `vmetaouts`, in step with a Bitcoin node and a
spaces node that change under it. This project models the statements it runs, the RPC answers it gets, and its three
loops (`cmd/sync` following the chain, `cmd/sync` following the mempool, `cmd/backfill` filling gaps), and proves what
they keep and what they end with.

## The model in brief

- The database is the class `Connection` of `Database.dfy`: its fields are the tables, its methods the SQL statements,
  and a transaction saves what a rollback restores. `Schema.dfy` states the constraints (`Valid`: primary keys, one row
  per height >= 0, unique indexes per block, foreign keys, checks on heights and names) and each statement's effect as a
  function on `Tables` values. Every method of the project keeps `Valid`.
- The outside world is a tree of all blocks that any branch ever contains (`World`) and a script: one `Moment` for each
  operation that can fail or time out. A moment says whether the operation gets through, which chain is active, what the
  mempool holds and in what order it is visited, and what lookups answer. The node may be on another branch at every
  moment. The process is stopped when the script ends, so a statement about all scripts is one about all runs cut off
  anywhere. `Clients` in `Node.dfy` takes one moment per call.
- Each operation is an imperative method, loop by loop as in the source, proved equal in outcome, tables and moments used
  to a specification function (`GetSyncedHeadSpec`, `StoreBlockSpec`, `SyncBlocksSpec`, `SyncMempoolSpec`,
  `SyncGapBlocksSpec`, `Run` and so on). The theorems are about these functions.
- `float64` values are reals that are multiples of the right power of two; `int32` and `int64` conversions wrap.

Files: `Outcomes`, `Node`, `Schema`, `Database`, `Amounts`, `Batch`, `Spaces`, `Store`, `Sync`, `Mempool`, `Service`,
`Backfill` hold the model. `Chain`, `Safety`, `ForkPoint` are about the stored chain; `Ledger`, `Accounts`,
`Rows`, `Rebuild`, `Views`, `Collisions` about the rows under it; `Convergence`, `Completion`, `Interruptions`, `Tally`
about the mempool; `Gaps`, `Filling`, `Genesis` about the backfill; `Contents` and `Served` about what each stored row
says, column by column; `Runs` and `Separation` about whole runs of the
service, `Histories` about any alternation of service and backfill. `Counterexamples`, `Misplaced`, `BelowBase`, `Starved`
and `Blocked` hold the concrete runs in which a property fails, `Packages` a concrete package of two metas.

## What the proofs found

- A round keeps a parent-linked chain exactly when the first block it stores is a child of the matched row and that row is
  not flagged (`Safety.RoundKeepsChainIff`; over whole runs `Runs.EveryRunKeepsChainIff`). The source checks neither.
  The hash at height h+1 (`cmd/sync/sync.go:201`) is read after the match at h (`pkg/store/store.go:364-388`), and a node
  that changes branch in between gets a block stored above a row that is not its parent
  (`Counterexamples.RacingReorgBreaksChain`). The block carries its parent's hash, so the check could be made.
- The chain's base is usually the fast-sync height, but a backfilled database starts at 0, and the same condition holds
  there. A reorganisation from below the fast-sync height always breaks it: the round starts at that height
  (`cmd/sync/sync.go:195-197`) and leaves a hole (`Safety.ReorgBelowFastSyncBreaks`). `BelowBase.ReorgBelowBaseLeavesHole`
  is a history from the migrated database: fast synchronisation, a backfill to the genesis block, and then such a branch.
- The two orphan updates are separate statements. After a crash between them the next successful `GetSyncedHead` always
  leaves the tables that an atomic update would have led to, but if it agrees with the node above the crashed call's
  height it answers a row that it has just moved to -2 (`ForkPoint.CrashRecovery`). The next block lands above a hole
  (`Counterexamples.CrashLeavesHole`), or, where there is no next block, the round completes with a height left out
  (`Counterexamples.CrashSkipsHeight`); both runs start from the migrated database.
- After any run whatever, a completed round against an unchanging node shows what a database built from scratch shows if
  and only if the rows that its head keeps are the node's (`Separation.AnyHistoryEqualsRebuildIff`). A scan that agrees
  at one height does not look below it, so a hole or a foreign row there stays. Where the rows are a chain that is so if
  and only if the matched row was not left flagged (`Rebuild.SteadyRoundFollowsNodeIff`).
- On a stored chain, with time enough, a round completes if and only if the node's tip is not below the stored top, the
  two share the block of the base height (or nothing is stored), and every block of the node's chain from the fast-sync
  height on can be stored (`Rebuild.SteadyRoundCompletesIff`). Without the first two the round changes nothing. Without
  the third it stops before the first block that cannot be stored (a repeated txid, an unknown type, a name too long, a
  meta for a transaction that is not in the block), as does every later round, and no turn follows the mempool any more
  (`Blocked.BlockedRunFollowsNoMempool`, `Blocked.UnknownTypeBlocksChain`).
- A block's spaces rows are inserted again with each commit of the block, also when a reorganisation reactivates it,
  because only the transactions depend on `wasInserted` (`Accounts.Accounted`, kept by every run).
- A mempool transaction whose lookup fails is skipped while the meta of its package is stored all the same, so the last
  meta can belong to another transaction; `Runs.EveryRunIsTalliedIff` says exactly when the rows stay right, and
  `Misplaced.CompletedRoundMisplacesRows` is a run in which they do not.
- One mempool package whose last meta cannot be stored (an unknown type, a name too long, a transaction that is not
  stored) stops the round, and with it every later group (`Completion.ServedRoundCompletesIff`, `Starved.UnknownTypeStarvesGroups`).
- The index of mempool transactions comes from a descending sequence that is never reset, while its column is an INTEGER:
  after about 2^31 draws every insertion fails (`Convergence.PooledInserted`).
- In the backfill the address of `NextBlockHash` is never nil, so the walk asks for a block with an empty hash after the
  tip and every pass that finds a gap ends in an error; the program ends only through a pass that finds none
  (`Backfill.Fill`, `Gaps.StopsOnlyWhenFull`). One missing block that cannot be stored keeps it retrying
  (`Genesis.BackfillCompletesIff`).
- The repository's README says that the backfill stores no spaces data; the code stores it from the activation height on.
  The model follows the code.

## Model

| member | source | states |
|---|---|---|
| Node.Clients.GetBlockHash | pkg/node/bitcoin.go:34-42 | the active chain's hash at the height, out of range outside it, unavailable if the call does not get through |
| Node.Clients.GetBlock | pkg/node/bitcoin.go:25-32 | any block the node knows, with a successor only while it is on the active chain below the tip |
| Node.Clients.GetBlockMeta | pkg/node/spaces.go:31-39 | the meta of a known block |
| Node.Clients.GetRawMempool | pkg/node/bitcoin.go:101-106 | the mempool's entries in the order of that call |
| Node.Clients.GetTransaction | pkg/node/bitcoin.go:70-77 | the transaction, if the node can look it up at that moment |
| Node.Clients.CheckPackage | pkg/node/spaces.go:51-59 | any sequence of metas, some absent |
| Schema.MaxHeight | pkg/db/blocks.sql.go:209-212 | the greatest height, or -1 for an empty table |
| Schema.RowAt | pkg/db/blocks.sql.go:126-130 | a row of the height if there is one |
| Schema.UpsertKeepsValid | pkg/db/blocks.sql.go:253-277 | an upsert that finds its height free keeps every constraint |
| Schema.OrphaningKeepsValid | pkg/db/blocks.sql.go:221-232 | both orphan updates keep every constraint |
| Schema.InsertKeepsValid | sql/schema/20240920025448_transactions.sql:3-24 | an insertion that violates nothing keeps every constraint |
| Schema.MetaKeepsValid | sql/schema/20240925031658_spaces.sql:7-31 | the same for a spaces row |
| Schema.DropKeepsValid | pkg/db/transactions.sql.go:35-39 | the deletion with its cascade keeps every constraint and removes exactly the given txids from the sentinel block |
| Database.Connection.constructor | sql/schema/20241222135605_insert_mempool_block.sql:3-31 | after the migrations only the sentinel block exists, at height -1 |
| Database.Connection.Begin | pkg/store/store.go:400-404 | a rollback will restore the current tables |
| Database.Connection.Commit | pkg/store/store.go:424-424 | the tables stay |
| Database.Connection.Rollback | pkg/store/store.go:404-404 | the tables are those at the beginning, if a transaction was open; sequences keep their position |
| Database.Connection.UpsertBlock | pkg/db/blocks.sql.go:253-277 | succeeds if and only if no other row has the height; moves or inserts the row, unflagged, and tells which; otherwise changes nothing |
| Database.Connection.SetOrphanAfterHeight | pkg/db/blocks.sql.go:230-232 | flags exactly the rows above the height |
| Database.Connection.SetNegativeHeightToOrphans | pkg/db/blocks.sql.go:221-223 | moves exactly the flagged rows to -2 |
| Database.Connection.GetBlocksMaxHeight | pkg/db/blocks.sql.go:209-219 | the greatest height |
| Database.Connection.GetBlockHashByHeight | pkg/db/blocks.sql.go:126-137 | the row of the height |
| Database.Connection.InsertTransaction | pkg/db/transactions.sql.go:246-251 | inserts the row, or reports the violated constraint and changes nothing |
| Database.Connection.InsertMempoolTransaction | sql/schema/20241227050834_sequence_for_mempool_tx_index.sql:3-10 | the same with an index from the descending sequence, which moves on even on failure; an index below the range of INTEGER is an error |
| Database.Connection.InsertVMetaOut | pkg/db/spaces.sql.go:65-85 | appends the row if its name has at most 63 characters and its transaction is stored; a longer name is a check violation |
| Database.Connection.GetMempoolTxids | pkg/db/transactions.sql.go:93-118 | the txids of the sentinel block, each once, in the order of their indexes |
| Database.Connection.DeleteMempoolTransactionsByTxids | pkg/db/transactions.sql.go:35-44 | removes those sentinel transactions and, by cascade, their spaces rows; every other row stays in place |
| Amounts.RoundToDoubleIsDouble | pkg/node/types.go:90-92 | below the overflow threshold rounding yields a finite binary64 value |
| Amounts.RoundToDoubleIsNearest | pkg/node/types.go:90-92 | no binary64 value is nearer (section 4.3.1 of IEEE 754-2008) |
| Amounts.RelativeError | pkg/node/types.go:66-68 | a relative error of at most 2^-53 above the subnormals |
| Amounts.SatoshisExact | pkg/node/types.go:90-92 | decoding v / 10^8 and converting with math.Round(f * 1e8) returns v for every v below 2^51, both roundings included |
| Amounts.SupplyIsExact | pkg/node/types.go:66-68 | in particular for every amount up to 21 million coins |
| Batch.CalculateAggregates | pkg/store/store.go:313-323 | counts and the wrapped sum of the outputs' satoshis |
| Batch.RowAmountsExact | pkg/store/store.go:313-323 | fee and total are the exact satoshi amounts as long as the total fits int64 |
| Batch.PrepareBatchTransactions | pkg/store/store.go:326-352 | one row per transaction, in block order: its key, hash, fee, input and output counts and total, with its place as index |
| Batch.ShowsExactly | pkg/store/store.go:313-352 | where everything fits its column, the row is exactly hash, fee, number of inputs, number of outputs and total in satoshis |
| Batch.PairsDistinctIff | sql/schema/20240920025448_transactions.sql:24-24 | a batch meets the unique index on block and index if and only if it has at most 2^32 rows, where the conversion to int32 repeats no index |
| Batch.BatchIterator.constructor | pkg/db/copyfrom.go:13-16 | all rows are pending |
| Batch.BatchIterator.Next | pkg/db/copyfrom.go:18-28 | moves to the next pending row, or tells that there is none |
| Batch.BatchIterator.Values | pkg/db/copyfrom.go:30-46 | the row moved to; it is never read past the end |
| Batch.CopyFrom | pkg/db/copyfrom.go:52-54 | drains the iterator into the table: each pending row once, in order, up to the first violation |
| Batch.InsertBatchTransactions | pkg/db/copyfrom.go:52-54 | inserts the batch row by row in order, or reports the first violation |
| Spaces.StoreCreates | pkg/store/store.go:41-119 | stops at the first failure; otherwise appends one row per create, in order, with its output, name, the action its type spells and its covenant |
| Spaces.StoreUpdates | pkg/store/store.go:121-218 | the same for the updates, with priority and reason where given |
| Spaces.StoreSpends | pkg/store/store.go:220-258 | the same for the spends with a script error: REJECT with the error's name and text |
| Spaces.StoreSpacesTransaction | pkg/store/store.go:39-261 | succeeds if and only if all types are known, all names short, and the transaction stored unless it has no rows; then appends creates, updates and rejected spends in that order |
| Spaces.StoreSpacesTransactions | pkg/store/store.go:29-37 | succeeds if and only if that holds of every transaction, and then appends the rows of all of them, one after the other |
| Spaces.ActionSpelled | pkg/store/store.go:66-75 | the action is BID, RESERVE, TRANSFER, ROLLOUT or REVOKE if and only if the type spells that word, in capital or small letters; there is none for any other type |
| Spaces.CreateRowExactly | pkg/store/store.go:41-119 | every column of a create's row; without a covenant type the covenant is left out |
| Spaces.UpdateRowExactly | pkg/store/store.go:121-218 | every column of an update's row |
| Spaces.SpendRowExactly | pkg/store/store.go:220-258 | every column of a rejection: the text is the reason, followed by the type unless that spells REJECT |
| Spaces.RejectedPlaces | pkg/store/store.go:220-221 | the rejections are the errors of all spends that have one, in order |
| Spaces.BlockRowsListed | pkg/store/store.go:29-37 | the rows of a block's meta are those of all its transactions: the i-th transaction's start after those of the ones before it |
| Spaces.BlockGoesIn | pkg/store/store.go:29-37 | they can all be computed and stored if and only if that holds of each transaction |
| Spaces.MetaRowsExactly | pkg/store/store.go:39-261 | one row per create, update and rejected spend, in that order, with every column; all can be computed if and only if every create type is empty or spells a known action and every update type spells one |
| Spaces.InsertRowsExactly | pkg/store/store.go:29-37 | insertion succeeds if and only if every row can be computed and stored, and then appends exactly these rows |
| Spaces.InsertRowsErrors | pkg/db/spaces.sql.go:65-85 | inserting spaces rows never breaks a unique constraint |
| Store.StoreBitcoinBlock | pkg/store/store.go:263-286 | upsert, then the batch if and only if the row is new |
| Store.StoreBlock | pkg/store/store.go:392-425 | equals its specification: begin, block, meta from the activation height on, commit; every failure leaves the tables as they were |
| Store.StoreBlockSpec | pkg/store/store.go:392-425 | a failed call changes nothing |
| Store.GetSyncedHead | pkg/store/store.go:356-390 | the downward loop equals the recursive scan, with the two orphan updates as separate steps |
| Sync.StoreForward | cmd/sync/sync.go:229-242 | the loop over next hashes equals the recursive walk and the blocks it committed |
| Sync.SyncBlocks | cmd/sync/sync.go:177-244 | equals its specification: head, fast-sync start, first hash, walk |
| Chain.TopHeight | pkg/db/blocks.sql.go:209-212 | in a stored chain the greatest height is the top's |
| Chain.FlaggedHolds | pkg/db/blocks.sql.go:230-232 | the first orphan update flags the upper part of the chain and keeps it otherwise |
| Chain.BuriedHolds | pkg/db/blocks.sql.go:221-223 | the second leaves the unflagged part as the whole chain |
| Chain.GenesisAgrees | pkg/store/store.go:364-373 | the node always agrees at height 0 |
| Chain.HeadKeepsChain | pkg/store/store.go:356-390 | however GetSyncedHead ends, against any node behaviour, the chain survives up to the matched row, or as a whole with its upper part flagged |
| Chain.NextIsChild | cmd/sync/sync.go:229-242 | the successor that getblock names is a child |
| Chain.WalkExtends | cmd/sync/sync.go:229-242 | whatever the node does between calls, a walk that starts with a child of the top appends exactly the blocks it stores, each a child of the top at the time |
| Chain.WalkStores | cmd/sync/sync.go:229-242 | from any tables: blocks of consecutive heights are stored and no other row changes |
| Collisions.StoreNoCollision | pkg/store/store.go:263-286 | with a free height and distinct txids, storing a block breaks no unique constraint |
| Collisions.WalkNeverCollides | cmd/sync/sync.go:229-242 | a walk that starts above all rows never violates the height index or a key, even if the node changes branch between any two calls |
| Collisions.RowsBelowFirst | cmd/sync/sync.go:178-199 | whatever head is found, all rows lie below the height of the first block the round asks for |
| Collisions.RoundNeverCollides | cmd/sync/sync.go:177-244 | a round on rows at their heights breaks no unique constraint, whatever the node does |
| Safety.IdleRoundKeepsChain | cmd/sync/sync.go:177-208 | a round that stores nothing keeps a chain, wherever it stops |
| Safety.LinkedRoundExtends | cmd/sync/sync.go:195-242 | a linked round leaves the common part of the chain followed by what it stored, from any base height |
| Safety.UnlinkedRoundBreaks | cmd/sync/sync.go:201-201 | a round whose first block is not linked leaves no chain |
| Safety.RoundKeepsChainIff | cmd/sync/sync.go:177-244 | a round keeps a chain from any base height if and only if it stores nothing or its first block is a child of an unflagged matched row; with no match, if it starts at the base |
| Safety.ReorgBelowFastSyncBreaks | cmd/sync/sync.go:195-197 | on a chain from below the fast-sync height, a round that matches a row further down than just below that height and stores a block leaves no chain |
| BelowBase.ReorgBelowBaseLeavesHole | cmd/sync/sync.go:195-197 | a history from the migrated database: after fast synchronisation and a completed backfill the node's chain is stored from the genesis block; the node moves to a branch that parts below the fast-sync height, the next round completes, and no chain is left |
| Counterexamples.RacingReorgBreaksChain | cmd/sync/sync.go:201-201 | a run from the migrated database with a branch change between match and next hash, after which no chain is left |
| Counterexamples.CrashedHead | pkg/store/store.go:377-385 | a connection lost between the two orphan updates leaves the row of block 2 flagged at its height |
| Counterexamples.CrashReached | pkg/store/store.go:377-385 | a run from the migrated database reaches that state, whatever follows |
| Counterexamples.CrashLeavesHole | pkg/store/store.go:377-385 | a run from the migrated database with that crash, after which a round leaves a hole and no chain |
| Counterexamples.CrashSkipsHeight | pkg/store/store.go:377-385 | after the same crash a round against an unchanging node completes, stores nothing and leaves the node's height 1 without a row |
| ForkPoint.AgreesBelow | pkg/store/store.go:364-375 | two parent-linked chains that agree at a height agree at every stored height below |
| ForkPoint.HighestAgreementIsAncestor | pkg/store/store.go:364-375 | the block of the highest agreeing height is the lowest common ancestor of both tops in the block tree |
| ForkPoint.HeadIsForkPoint | pkg/store/store.go:356-390 | a successful GetSyncedHead answers the lowest common ancestor of the stored top and the node's tip; heights agree exactly up to it; exactly the rows above it become orphans at -2 |
| ForkPoint.CrashRecovery | pkg/store/store.go:377-385 | after a crash between the orphan updates the next successful call leaves the tables of an atomic update, and the same head if and only if it agrees no higher than the crashed call |
| Ledger.CopyBatch | pkg/store/store.go:271-284 | the batch of a new block succeeds if and only if its txids are distinct, and then stores exactly its rows |
| Ledger.BitcoinBlockRows | pkg/store/store.go:263-286 | block and batch succeed if and only if the height is free and the txids are distinct; afterwards the block has exactly its rows |
| Ledger.StoreBlockExactly | pkg/store/store.go:392-425 | all or nothing; with the connection up it commits if and only if height and block allow it |
| Accounts.BalancedStore | pkg/store/store.go:412-421 | a commit adds the block's spaces rows once more, keeps every block's transactions, and loses no block committed before |
| Accounts.BalancedRound | cmd/sync/sync.go:177-244 | a round, wherever it stops, keeps every block ever committed, its transactions exactly and its spaces rows at one set per commit; each could be computed and stored |
| Contents.StoredBlockShown | pkg/store/store.go:392-425 | a committed block leaves exactly its transactions, each with its own hash, counts, fee, total and place, and appends from the activation height on the rows of all transactions of its meta, in order |
| Contents.EveryHistoryShows | pkg/store/store.go:392-425 | however service and backfill alternate: every block ever committed is stored with exactly these rows, and one such list of spaces rows per commit |
| Contents.ListingShows | pkg/db/transactions.sql.go:120-130 | every listing at a height shows the transactions of its block in block order, each with its own columns |
| Rows.HeadIsTop | pkg/store/store.go:356-390 | from any tables: nothing is left above a head that was found, and where none is matched every height up to the top was found to have a row |
| Rows.HeadEnds | pkg/store/store.go:356-390 | on rows at their heights a head found lies on the node's chain, with no row above it and no flagged row left |
| Rebuild.SteadyRoundRows | cmd/sync/sync.go:177-244 | on rows at their heights a completed round against an unchanging node keeps the rows up to the head and adds the node's blocks from the first height to the tip, and nothing else |
| Rebuild.SteadyRoundIff | cmd/sync/sync.go:177-244 | after any history, such a round leaves exactly the node's chain from a base height if and only if the rows the head keeps are that chain's and no height is skipped between head and first block |
| Rebuild.KeptFollowsIff | pkg/store/store.go:364-385 | on a stored chain the kept rows are the node's if and only if the matched row was not left flagged by a crash |
| Rebuild.SteadyRoundFollowsNodeIff | cmd/sync/sync.go:195-242 | on a stored chain, also with an orphan update pending, a completed round leaves exactly the node's chain from the base height if and only if the matched row was not flagged |
| Rebuild.KeptStorable | pkg/store/store.go:364-385 | the blocks of a stored chain that a head keeps can be stored: each was committed once |
| Rebuild.SteadyRoundCompletesIff | cmd/sync/sync.go:177-244 | with time enough a round on a chain, also with an orphan update pending, finds its head if and only if nothing is stored, or the tip is not below the stored top and the base blocks are the same, and else changes nothing; it completes if and only if besides all the node's blocks from the first height on can be stored, and else stores exactly those below the first that cannot; for a base up to the fast-sync height that is a property of the node's chain alone |
| Blocked.CompletedRoundStores | cmd/sync/sync.go:195-242 | a round that completes, on any tables and with any number of moments, found every block from its first height to the tip storable |
| Blocked.CompletedRoundStorable | cmd/sync/sync.go:177-244 | on a stored chain it found every block of the node's chain from the fast-sync height on storable |
| Blocked.BlockedRunFollowsNoMempool | cmd/sync/sync.go:83-97 | while the node's chain holds a block that cannot be stored, a run with linked turns makes no mempool commit |
| Blocked.UnknownTypeBlocksChain | pkg/store/store.go:39-119 | a concrete block with an unknown covenant type: every long enough first round fails, having stored the block below it |
| Views.ListingIff | pkg/db/transactions.sql.go:120-130 | each height has exactly one listing: its block's transactions in block order, or none |
| Views.SameViewIff | pkg/db/transactions.sql.go:120-130 | two databases show the same at every height if, and where every block has a transaction only if, they have the same row at every height |
| Views.IncrementalEqualsRebuildIff | cmd/sync/sync.go:195-242 | from any tables with rows at their heights, a completed round shows at every height what a database built from scratch shows, if and only if the rows the head keeps are the node's |
| Mempool.GetMempoolTxIds | pkg/node/bitcoin.go:101-123 | one group per entry, in the order visited: its dependencies and then itself |
| Mempool.StoreTransaction | pkg/store/store.go:288-309 | stores the transaction's own hash, counts, fee and total; a sentinel transaction takes its index from the sequence, any other the one given |
| Mempool.ProcessTxGroup | cmd/sync/mempool.go:135-170 | equals its specification, of which `Served.GroupStores` says what it stores |
| Served.GroupStores | cmd/sync/mempool.go:135-170 | a successful group adds the row of its last transaction as it was answered, under the next index, if it was answered, and no other; if any transaction was answered it appends exactly the rows of the last entry of the package, if that is present |
| Served.RoundServes | cmd/sync/mempool.go:14-94 | wherever a round stops: each row of the sentinel block was there before, or is that of a transaction, or of the last meta of a package, that the node answered |
| Served.EveryHistoryServes | cmd/sync/sync.go:91-97 | however service and backfill alternate: every sentinel transaction has the columns of a transaction answered for its txid, and every sentinel spaces row is one of the last meta of an answered package |
| Packages.LastOfTwo | cmd/sync/mempool.go:160-167 | a concrete group of two with a package of two metas stores the second transaction and the second meta's row only |
| Mempool.Vanished | cmd/sync/mempool.go:97-102 | collects exactly the stored txids that the node no longer has, each once, in any order |
| Mempool.DeleteInChunks | cmd/sync/mempool.go:114-128 | deleting in chunks of 500 removes the whole set |
| Mempool.CleanupMempoolTxs | cmd/sync/mempool.go:96-133 | removes all vanished transactions or, if stopped, none |
| Mempool.DroppedTwice | cmd/sync/mempool.go:116-128 | two deletions with their cascades are one deletion of the union |
| Mempool.NodeMempoolTxs | cmd/sync/mempool.go:24-30 | the txids of all groups |
| Mempool.FilterGroups | cmd/sync/mempool.go:48-59 | keeps the groups whose last transaction is not stored, in order |
| Mempool.ProcessGroups | cmd/sync/mempool.go:67-90 | one transaction per group, rolled back on failure, up to the first failure |
| Mempool.SyncMempool | cmd/sync/mempool.go:14-94 | equals its specification and the commits it made |
| Completion.GroupPassesIff | cmd/sync/mempool.go:135-170 | a group whose transactions are served succeeds if and only if the sequence has an index left and the package's last meta can be stored |
| Completion.PackageFitsIff | cmd/sync/mempool.go:160-167 | the rows of a package can be stored if and only if its last meta, if present, has known types and short names, and its transaction is stored unless it has no rows |
| Completion.GroupsPassIff | cmd/sync/mempool.go:67-90 | the groups are all processed if and only if each in its turn passes and time suffices |
| Completion.ServedRoundCompletesIff | cmd/sync/mempool.go:14-94 | against a node that serves its own mempool a round completes if and only if time suffices for the cleanup and every group passes; the first that does not stops all later ones |
| Starved.UnknownTypeStarvesGroups | cmd/sync/mempool.go:67-90 | a concrete served round that fails at a package of unknown type with nothing committed, although the next group would have passed |
| Convergence.PooledInserted | sql/schema/20241227050834_sequence_for_mempool_tx_index.sql:3-10 | a txid that is not stored is inserted if and only if the sequence is still in the range of INTEGER; there is no other violation |
| Convergence.GroupEffects | cmd/sync/mempool.go:135-170 | a group adds at most its last transaction and its rows, and touches no real block |
| Convergence.MembersOfEntries | cmd/sync/mempool.go:24-30 | the node's set is its keys and everything they depend on |
| Convergence.LastsToProcess | cmd/sync/mempool.go:48-59 | the groups to process end in exactly the new keys, each once |
| Convergence.DropEffect | cmd/sync/mempool.go:96-133 | the cleanup changes only sentinel rows |
| Convergence.RoundEffects | cmd/sync/mempool.go:14-94 | wherever a round stops: no duplicate key, no change besides the sentinel's rows, and those are as before or the ones still known plus some new keys |
| Interruptions.CompletedRoundConverges | cmd/sync/mempool.go:14-94 | a completed round leaves K and the stored part of D if and only if no fetch of a new key failed; exactly K when D lies in K |
| Interruptions.NeverDuplicate | sql/schema/20240920025448_transactions.sql:20-24 | no round, in any order, inserts a duplicate key |
| Interruptions.ServedRoundFetchesAll | cmd/sync/mempool.go:139-145 | against a node that serves its own mempool no fetch fails |
| Interruptions.InterruptedRoundsLoseNothing | cmd/sync/mempool.go:44-90 | any rounds stopped anywhere and then a completed one store the same txids as one completed round |
| Tally.AdditionTalliedIff | cmd/sync/mempool.go:135-170 | a group's commit keeps each transaction's rows to those of its own meta, once, if and only if its rows are its transaction's own |
| Tally.RemovalTallied | sql/schema/20240925031658_spaces.sql:30-30 | a deletion forgets exactly the rows of its transactions |
| Tally.RoundTalliedIff | cmd/sync/mempool.go:44-90 | a round, wherever it stops, leaves each sentinel transaction with the rows of its insertion, once, if and only if that holds of each of its commits |
| Misplaced.CompletedRoundMisplacesRows | cmd/sync/mempool.go:139-167 | a run whose one mempool round completes, with a failed lookup after which the parent's row is stored twice |
| Service.TakeTurn | cmd/sync/sync.go:70-105 | equals its specification: the mempool is followed only after the chain round succeeded |
| Service.RunService | cmd/sync/sync.go:70-105 | the loop equals the run over the whole script |
| Runs.BlocksSamePool | cmd/sync/sync.go:83-89 | following the chain leaves the sentinel's rows and the sequence alone |
| Runs.MempoolConsistent | cmd/sync/sync.go:91-97 | following the mempool leaves the blocks, and every real block's transactions, spaces rows and accounts, as they were |
| Runs.EveryRunIsBalanced | cmd/sync/sync.go:70-105 | from the migrated database, for every node behaviour and every stop: all constraints hold, the blocks stored are exactly those ever committed (no committed block is lost), each has exactly its transactions at its own height, all its spaces rows could be computed, and each commit added them once |
| Runs.EveryRunNeverCollides | cmd/sync/sync.go:70-105 | in every run, with distinct txids in each block, no chain round and no mempool round breaks a unique constraint |
| Runs.EveryRunIsTalliedIff | cmd/sync/mempool.go:160-167 | over every run each sentinel transaction has the rows of its insertion, once, after every turn, if and only if the last meta of each package belonged to the group's fetched transaction |
| Runs.EveryRowHasItsTransaction | sql/schema/20240925031658_spaces.sql:30-30 | in every run no spaces row of the sentinel block outlives its transaction |
| Runs.ChainThroughoutIff | cmd/sync/sync.go:70-105 | from any consistent tables and any base height: a chain stays one after every turn if and only if the first block each turn stores is linked |
| Runs.EveryRunKeepsChainIff | cmd/sync/sync.go:70-105 | over every run the rows with height >= 0 are one parent-linked chain from the base height after every turn if and only if the first block each turn stores is linked |
| Histories.EveryHistoryIsBalanced | cmd/backfill/backfill.go:58-67 | however runs of the service and of the backfill alternate, each stopped anywhere: all that holds after a run of the service, with no committed block lost |
| Histories.NoHistoryCollides | cmd/backfill/backfill.go:58-67 | no round and no pass in any such history breaks a unique constraint |
| Histories.EveryHistoryIsTalliedIff | cmd/sync/mempool.go:160-167 | over any such history each sentinel transaction keeps the rows of its insertion, once, if and only if the last meta of each package belonged to the group's fetched transaction |
| Histories.BackfilledRunKeepsChainIff | cmd/sync/sync.go:70-105 | after any history, a backfill that reaches the genesis block, and then a run of the service: the rows stay one parent-linked chain from the genesis block after every turn if and only if the first block each turn stores is linked |
| Separation.AnyHistoryEqualsRebuildIff | cmd/sync/sync.go:195-242 | after any run whatever, a completed round shows at every height what a database built from scratch shows, if and only if the rows the head keeps are the node's |
| Separation.LinkedHistoryEqualsRebuildIff | cmd/sync/sync.go:195-242 | after a run with linked turns, if and only if the matched row was not left flagged by a crash |
| Separation.SeparateIff | pkg/db/transactions.sql.go:120-130 | mempool and active blocks share no txid in the rows if and only if no block with a height contains a stored mempool transaction |
| Separation.CompletedTurnSeparatesIff | cmd/sync/sync.go:83-97 | from any consistent tables a completed turn, whichever lookups failed, leaves no txid both in an active block and in the sentinel block if and only if no transaction it leaves in the mempool is in the kept rows or the node's chain above them; what it leaves is the node's, and all of the node's if no lookup failed |
| Separation.CompletedTurnSeparates | cmd/sync/sync.go:83-97 | on a stored chain it does so, whichever lookups failed, whenever the node's mempool holds no transaction of its own chain |
| Backfill.FindGap | cmd/backfill/backfill.go:82-106 | the downward loop equals the recursive search |
| Backfill.Fill | cmd/backfill/backfill.go:119-149 | a fill never ends without an error |
| Backfill.FillForward | cmd/backfill/backfill.go:119-149 | the upward loop equals the recursive fill and the blocks it committed |
| Backfill.SyncGapBlocks | cmd/backfill/backfill.go:70-152 | equals its specification: head, search, first hash, fill |
| Backfill.RunBackfill | cmd/backfill/backfill.go:58-67 | the retries equal the specification: passes until one succeeds |
| Gaps.SearchFinds | cmd/backfill/backfill.go:82-106 | the search finds the highest maximal run of missing heights below the head, or that none is missing |
| Gaps.StopsOnlyWhenFull | cmd/backfill/backfill.go:58-67 | the program ends by itself only when every height up to the highest stored one has a row |
| Gaps.FillStores | cmd/backfill/backfill.go:119-149 | against any node behaviour only blocks of consecutive heights up to the gap's beginning are stored, and no other row changes |
| Gaps.PassFillsGap | cmd/backfill/backfill.go:82-149 | each block stored lowers the number of missing heights below the head by one, from the bottom of the gap, and the gap is closed if and only if all were stored |
| Filling.BalancedBackfill | cmd/backfill/backfill.go:58-67 | a whole backfill loses no committed block, keeps every block's transactions, accounts for every commit, and keeps rows at their blocks' heights |
| Histories.BackfillConsistent | cmd/backfill/backfill.go:58-67 | besides, it leaves the sentinel's transactions, spaces rows and sequence alone, so that the service can go on from it |
| Histories.FillNeverCollides | cmd/backfill/backfill.go:119-149 | a fill that starts in a gap breaks no unique constraint, even if the node changes branch between any two calls |
| Genesis.PassSteady | cmd/backfill/backfill.go:70-152 | against an unchanging node a pass stores the node's blocks from the bottom of the gap on, each of which can be stored; with time enough, all up to the gap's beginning or to the first that cannot |
| Genesis.ChainLinked | cmd/sync/sync.go:229-242 | the rows of a stored chain, flagged or not, are linked wherever two heights follow each other |
| Genesis.OrphansKeepLinked | pkg/store/store.go:377-385 | the orphan updates keep rows linked |
| Genesis.PassMeetsChainIff | cmd/backfill/backfill.go:113-149 | after a pass that closes its gap on linked rows, the block on top of the gap is the parent of the one in the row above it, and all rows are linked if and only if the row just below the gap is the node's |
| Genesis.EndsCompleted | cmd/backfill/backfill.go:58-67 | with time enough, and unless a block above the highest row cannot be stored, the retries end only with every missing height filled and nothing else changed |
| Genesis.BackfillCompletesIff | cmd/backfill/backfill.go:58-67 | against an unchanging node, once a head is found and with time enough, the retries end with every missing height up to it filled with the node's block and nothing else changed, if and only if the blocks of all missing heights can be stored |
| Genesis.CompletedIsChainIff | cmd/backfill/backfill.go:58-67 | the result is the node's chain from the genesis block if and only if every row kept was the node's |
| Genesis.BackfillReachesGenesisIff | cmd/backfill/backfill.go:58-67 | a chain from a fast-sync base, also with an orphan update pending, becomes the node's chain from the genesis block if and only if the node's blocks below the base can be stored; unless even the base row was flagged, the retries end only then |

## Left out

- Genesis.BackfillCompletesIff: asks for moments enough for a pass per missing height; real time has no such bound.
- Separation.AnyHistoryEqualsRebuildIff: asks that every block has a transaction, as a coinbase ensures; an empty block and a missing row are listed alike, and `Views.IncrementalEqualsRebuildIff` says which direction needs it.
- Amounts.RoundToDoubleIsDouble: does not model infinity, which a float64 becomes from the overflow threshold on; amounts below 2^51 satoshis stay far from it.
- `syncRollouts` and `syncRootAnchors`: they touch no modelled table; where they fail, the round stops as it does at the next call.
- A commit whose acknowledgement is lost: a commit either happens and is known, or does not happen.
- A connection lost inside a transaction is modelled at its next call that has a context, or at its commit.
- HTTP, JSON-RPC, decoding, authentication, logging, timing, environment variables and waiting between turns.
- Hex strings and hash lengths: hashes are numbers with equality, and the length checks of the schema always hold.
- Upper-casing of covenant types is modelled for ASCII letters.
- Field copying by the copier library, and the columns of blocks and transactions that take part in no property (size, weight, version, locktime and so on).
- `LIMIT` and `OFFSET` of the listing: a page is a slice of the full listing.
- `UpdateTxSpenders`: not defined in the repository; the backfill's transaction around it is one operation that may fail and touches no modelled table.
- `cmd/populate`: it inserts the rows of `StoreSpacesTransaction` once more.
- Queries that no modelled loop uses, such as `DeleteBlocksAfterHeight` and the other mempool deletions.
- Several processes on one database at a time: `Histories` lets service and backfill alternate, not overlap.
