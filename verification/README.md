# A verified model of the Bitcoin indexer

The indexer follows a node whose chain may be reorganised at any moment and keeps, in an
append-only database, the longest chain it has seen, so that applications can follow it through
an event log. This project models the four parts that make this work and proves what they
promise together:

* **The fetcher.** Worker threads claim heights from a shared counter and ask an adversarial
  node; a consumer reorders what they push into a bounded channel, checks every parent against
  a sliding window of 1000 hashes and, on a mismatch, throws all work away and steps back one
  height. `PrefetchSpec` is the protocol, one label per atomic step of one party;
  `PrefetchSafety` proves what holds in every interleaving; `PrefetchLive` proves convergence
  with a lexicographic measure; `Prefetcher` is the consumer as an object with its loops.
* **The store.** `StoreSpec` gives the meaning of every operation as a function on the store's
  state, `StoreProofs` and `StoreRuns` prove that it keeps the longest chain received and
  switches branches in one transaction, `ReorgLog` says exactly which events it emits, `Store` is
  the object updated in place and proved to do exactly that, its runtime assertions included.
* **The pipeline and the UTXO cache.** `UtxoCache` proves that a cache in front of a lagging
  database gives the values of the sequential ledger of `Ledger`; `Pipeline` is the machine of
  three threads, proved to lose, duplicate or reorder nothing and to refine the queue of batches
  the store assumes.
* **Derived forms.** `Database` holds the tables and the event log with its canceling protocol,
  `Polling` the paged reading of that log, `Balance` the SQL views against a replay of the
  ledger, `Sql` the multi-row statements, `Hash` the split and reversed hashes.

`StorePipeline` joins the store with its threads: the state that really exists, with no queue of
its own, refines the store of `StoreSpec` over whole runs. `Indexer` composes fetcher, main loop
and store into the whole program, from the empty database through any number of crashes and
restarts; `Provenance` shows that all it ever delivers or keeps comes from a chain the node had.
`IndexerLive` proves that after a restart the live chain becomes the node's exactly when the block
the program continues from is still on that chain. `Buffering` and `IndexerWritten` answer when
all of it is also committed, which the bulk modes do not always do.

Vocabulary: a *chain* is a sequence of block ids from genesis, each naming its parent. The
*received* chain is the fold of the tests' `chain_insert` over everything delivered; the *live*
chain is what is committed, then what is in flight, then what is buffered; the *visible* chain is
what a follower of the event log has. Hashes are idealised as the hashed content itself, so an id
determines its parent and its height.

Where the code and its comments differ the model follows the code: `MultiValueSqlFormatter`
promises up to 30000 values per statement (`src/db/pg.rs:145-148`) but compares with `>`
(`src/db/pg.rs:224`), so a full statement has 30001 rows (`Sql.CommentHoldsWhen` says when the
comment is met). The restart rule re-fetches 100 blocks "in case there was a reorg"
(`src/main.rs:61`); `IndexerLive.RestartCatchesUpExactlyWhen` gives the exact condition under
which that is enough, and `IndexerWritten.DeepReorgIsMissed` an input for which it is not. Bulk
mode ends only when the block at the node's starting height is inserted at the tip
(`src/db/pg.rs:1461-1463`); a program restarted in bulk mode on a database that is already at that
height never leaves it and keeps the node's next block in memory
(`IndexerWritten.BulkKeepsTheLastBlock`, with the exact condition in
`IndexerWritten.RestartIsWrittenExactlyWhen`).

## Model

| member | source | states |
|---|---|---|
| Chain.ChainInsert | src/tests.rs:13-26 | the reference: refuses exactly the heights that leave a gap, otherwise keeps everything below and puts the block on top |
| Chain.ReferenceChain.Insert | src/tests.rs:13-26 | truncating and pushing a vector in place is that function, and a refused insert leaves the vector alone |
| Chain.SharedBlock | src/node/prefetcher.rs:186-191 | two linked chains with a common block agree on everything below it, at the same heights |
| Chain.InsertKeepsChain | src/tests.rs:13-26 | a fitting block keeps the reference chain linked, and its reported height is its true height |
| PrefetchSafety.WindowBounds | src/node/prefetcher.rs:207-230 | first and last key of a contiguous window, and its size |
| PrefetchSafety.AdvanceWindow | src/node/prefetcher.rs:235-242 | recording a hash keeps the window one interval of at most 1000 heights that agrees with the folded chain below the current height |
| PrefetchSafety.TrackExact | src/node/prefetcher.rs:192-245 | a block passes the check exactly when it fits the folded chain and there is a hash below it; a mismatch names a parent that is really different; "beyond acceptable depth" and the size assertion are unreachable, and the one panic left occurs exactly when the current height is the oldest recorded one and above 0 |
| PrefetchSafety.WorkerPartition | src/node/prefetcher.rs:367-426 | worker steps keep every claimed, undelivered height in exactly one place |
| PrefetchSafety.JudgeKeeps | src/node/prefetcher.rs:301-333 | judging the awaited block keeps the whole protocol invariant, whatever abandoned branch the block comes from |
| PrefetchSafety.ReceiveKeeps | src/node/prefetcher.rs:311-337 | receiving keeps the invariant; what is not the awaited height is higher and not already put aside, so the assertion holds and nothing is overwritten |
| PrefetchSafety.RestartKeeps | src/node/prefetcher.rs:252-282 | after stopping and starting the workers, for a reorg or at the end of fast sync, channel and early blocks are empty, every worker is new, and the counter stands at the current height, one lower after a reorg, and there is one worker unless it was a reorg |
| PrefetchSafety.StepKeeps | src/node/prefetcher.rs:155-426 | every step of every party keeps the invariant: linked output, window, partition of heights, every item a block of its height |
| PrefetchSafety.KeepsAThousand | src/node/prefetcher.rs:235-242 | of the recorded heights exactly those less than 1000 below the new one are kept, never more than 1000 |
| PrefetchSafety.GivesUpAThousandBelow | src/node/prefetcher.rs:210-245 | in every run the fetcher gives up only at the height it started from or 999 below the highest height it has recorded |
| PrefetchSafety.StopsOnlyWhen | src/node/prefetcher.rs:285-333 | workers are stopped exactly when the next block is asked for at the end of fast sync, or when the awaited block does not name the recorded hash below it |
| PrefetchSafety.ChannelIsBounded | src/node/prefetcher.rs:158 | the channel never holds more than 64 blocks for each worker |
| PrefetchSafety.SendsWhileThereIsRoom | src/node/prefetcher.rs:158 | a worker with a block waits exactly while the channel holds that many |
| PrefetchSafety.OneWorkerAfterFastSync | src/node/prefetcher.rs:290-299 | in every run that starts no higher, there is exactly one worker above the end of fast sync |
| PrefetchSafety.NewInv | src/node/prefetcher.rs:123-153 | a new fetcher, continuing after a block or from genesis, satisfies it |
| PrefetchSafety.FetcherIsSafe | src/node/prefetcher.rs:285-339 | for every node schedule and every interleaving the deliveries never leave a gap, always fold to a linked chain, and the fetcher halts only when it would have to go below its oldest hash |
| PrefetchLive.ExitDecreases | src/node/prefetcher.rs:269-282 | once the finish flag is set every step of a worker or of the draining consumer brings the shutdown nearer |
| PrefetchLive.ExitProgress | src/node/prefetcher.rs:269-282 | the drain cannot deadlock: discard, restart or a worker's own step is always possible, also with a full channel |
| PrefetchLive.OneSendAtMost | src/node/prefetcher.rs:367-403 | between the finish flag and the restart a worker sends at most one block, and none unless it was asking for one already |
| PrefetchLive.StepProgress | src/node/prefetcher.rs:290-426 | when the node stays, every step but a poll above its top lowers (stale items, roll-back distance, remaining height, phase, stale ids, work) lexicographically |
| PrefetchLive.AwaitedHeightIs | src/node/prefetcher.rs:311-337 | the awaited height is early, in the channel, in a worker's hand, or the very next to be claimed while all workers are free |
| PrefetchLive.AwaitedHeightMoves | src/node/prefetcher.rs:367-416 | with nothing to receive, the worker that has the awaited height, or that claims it, can make progress |
| PrefetchLive.ProgressPossible | src/node/prefetcher.rs:290-426 | below the node's top somebody can always make progress |
| PrefetchLive.Converges | src/tests.rs:226-290 | once the node stays on a chain that outgrows everything on its way, with the fork in the window, every fair schedule makes the folded output equal the node's chain |
| PrefetchLive.FairFromParties | src/node/prefetcher.rs:155-184 | the fairness that convergence assumes follows from weak fairness to each worker and to the consumer |
| PrefetchLive.StaysConverged | src/node/prefetcher.rs:393-396 | after that nothing is delivered until the node moves |
| Prefetcher.TrackWindow | src/node/prefetcher.rs:192-245 | the three outcomes of the check for an object in any reachable state |
| Prefetcher.ProtocolFeeds | src/node/prefetcher.rs:155-184 | in every reachable state of the worker threads the channel meets what the object demands of a generation |
| Prefetcher.ServeByPool | src/node/prefetcher.rs:301-338 | the outcome does not depend on the order of arrival: the block of the current height decides, wherever it is, and all others are kept |
| Prefetcher.NothingIsLost | src/node/prefetcher.rs:301-338 | within a generation an outcome takes at most the delivered block out, and the caller waits only when no block of the current height is there |
| Prefetcher.DeliversInOrder | src/node/prefetcher.rs:290-339 | if the linked blocks of the next n heights are there in any order, n calls deliver exactly them, ascending, and keep the rest |
| Prefetcher.FastEndForgets | src/node/prefetcher.rs:292-299 | at the end of fast sync nothing received before counts: a new generation starts at the current height |
| Prefetcher.Prefetcher.constructor | src/node/prefetcher.rs:123-153 | the window is the given block alone, the fetcher starts right above it, and the first generation is running |
| Prefetcher.Prefetcher.TrackReorgs | src/node/prefetcher.rs:192-245 | the branches of the check, the in-place window update, and the state left by each failure |
| Prefetcher.Prefetcher.ResetOnReorg | src/node/prefetcher.rs:252-262 | one height back, nothing left of the old generation |
| Prefetcher.Prefetcher.Next | src/node/prefetcher.rs:290-339 | outcome and new state are the specified ones; without a reset what was put aside or pushed stays, but for the delivered block, and waiting means that the current height is nowhere there; whatever is pushed in whatever order, a delivered block fits what was delivered; both loops end; giving up has one cause |
| ReorgLog.FinishLog | src/db/pg.rs:1504-1529 | the log after a reorg is the log before, the reverts above the longest common part from the top down, the new branch from there up, and nothing else |
| ReorgLog.BranchEvents | src/db/pg.rs:1533-1597 | events of revived blocks first, of new ones later, together the branch in ascending order |
| ReorgLog.InsertLog | src/db/pg.rs:1398-1600 | an insert that finishes no reorg only announces what the visible chain grows by; one that does emits exactly the reorg's events |
| ReorgLog.NothingToUndo | src/db/pg.rs:1504-1527 | a received branch that continues the live chain reverts nothing |
| ReorgLog.CommitLog | src/db/pg.rs:1042-1066 | a commit of the pipeline announces its batch |
| StoreProofs.CommitOneKeeps | src/db/pg.rs:1042-1086 | a commit of the writer moves the visible chain along the live chain and changes nothing else |
| StoreProofs.StopKeeps | src/db/pg.rs:1276-1282 | stopping the workers with an empty batch makes the whole live chain visible |
| StoreProofs.FlushWorkersKeeps | src/db/pg.rs:1297-1312 | flushing makes the live chain visible and disturbs neither chain |
| StoreProofs.StoredBelow | src/db/pg.rs:1544-1573 | the block table is closed under ancestors: with one block of a branch every lower one is stored |
| StoreProofs.ForkPoint | src/db/pg.rs:1504-1516 | the search finds the exact height where received and live chain part |
| StoreProofs.CutAt | src/db/pg.rs:1520-1529 | after the revert events and the UPDATE the log leads to the common part and exactly it is not extinct |
| StoreProofs.SettleBranch | src/db/pg.rs:1533-1573 | walking the new branch meets no gap and no live block, revives exactly its stored prefix and collects exactly the rest, both in ascending height |
| StoreProofs.SettleAll | src/db/pg.rs:1533-1597 | the batch is never empty, and committing it makes the new branch the visible chain |
| StoreProofs.FinishSwitches | src/db/pg.rs:1497-1600 | finishing a reorg never panics and moves the visible chain to the received one in a single transaction |
| StoreProofs.InsertBelowTip | src/db/pg.rs:1414-1445 | a block at a stored height either is the stored one or opens a reorg; the live chain stays |
| StoreProofs.InsertOnTop | src/db/pg.rs:1447-1466 | a block at the tip extends the live chain in every mode, across the switch to normal mode |
| StoreProofs.CutPending | src/db/pg.rs:1483-1488 | within a reorg the pending blocks stay one contiguous range from the fork to the received top |
| StoreProofs.InsertRefines | src/db/pg.rs:1398-1600 | any fitting block is inserted without a panic, the store still represents the received chain, and the live chain is the longer of the two; the visible chain is extended or replaced by the received one at once |
| StoreRuns.RunRefines | src/db/pg.rs:1398-1600 | for every disciplined input and every timing of commits the live chain is the longest chain received so far and the visible chain never shrinks |
| StoreRuns.LongestMeaning | src/db/pg.rs:1129-1135 | what longest means: shown at some time, never beaten, and the first of equals stays |
| StoreRuns.OpenCommitted | src/db/pg.rs:1145-1180 | every committed state passes the reorg-atomicity assertion and can be continued from any height |
| StoreRuns.OpenRefusesExactlyWhen | src/db/pg.rs:1153-1159 | the reorg-atomicity assertion fails exactly when some extinct block is higher than every live one |
| StoreRuns.GapIsRefused | src/db/pg.rs:1411-1412 | in every state a block above the live chain is refused |
| StoreRuns.CrashSafe | src/db/pg.rs:1153-1159 | a crash at any point of any run leaves such a state |
| StoreRuns.ReplayIsIdempotent | src/db/pg.rs:1414-1436 | replaying an unchanged chain from any height adds no row and no event and keeps the state as it was |
| StoreRuns.GetHashMeaning | src/db/pg.rs:1689-1705 | a query by height answers from the received chain, above it from the live chain, and disturbs neither |
| Store.IndexerStore.constructor | src/db/pg.rs:1145-1180 | opening a committed database |
| Store.IndexerStore.WriterCommits | src/db/pg.rs:1047-1083 | one batch committed, then its ids leave the in-flight set, all of which were in it |
| Store.IndexerStore.FlushBatch | src/db/pg.rs:1314-1343 | ids are marked, the batch is handed over |
| Store.IndexerStore.StopWorkers | src/db/pg.rs:1276-1282 | everything in flight is committed and the in-flight assertion holds |
| Store.IndexerStore.FlushWorkers | src/db/pg.rs:1297-1312 | flush, and a restart only when something is in flight |
| Store.IndexerStore.SetMode | src/db/pg.rs:1352-1381 | a change of mode of a running store waits until batch and pipeline are empty and the live chain is visible |
| Store.IndexerStore.Insert | src/db/pg.rs:1707-1715 | the method is the specified step, folds the block into the received chain and keeps the longer chain live |
| Store.IndexerStore.InsertWhenAtTip | src/db/pg.rs:1398-1466 | the method is the specified step and its assertions hold |
| Store.IndexerStore.InsertWhenInReorg | src/db/pg.rs:1468-1495 | likewise |
| Store.IndexerStore.FinishReorg | src/db/pg.rs:1497-1600 | likewise; the committed chain is then the received one |
| Store.IndexerStore.GetHeadHeight | src/db/pg.rs:1681-1687 | the height of the live chain's top |
| Store.IndexerStore.GetHashByHeight | src/db/pg.rs:1689-1705 | the block of the received, else of the live chain |
| Store.ReadBlockCount | src/db/pg.rs:1193-1209 | one more than the greatest height among the selected rows |
| Store.ReadHashByHeight | src/db/pg.rs:1211-1233 | the one live block at a height |
| Store.RevertEvents | src/db/pg.rs:1520-1524 | the revert events, highest first |
| Store.SettleLoop | src/db/pg.rs:1533-1573 | the loop revives, collects and panics exactly as specified; that it never panics is SettleAll |
| Store.BatchesDisjoint | src/db/pg.rs:1075-1083 | batches in flight share no block id |
| Database.InsertTxsMeaning | src/db/pg.rs:927-965 | the rows a block adds: existing rows win, the rest is exactly what its transactions say |
| Database.AppendKeepsTables | src/db/pg.rs:927-965 | the transaction tables keep describing every stored block, extinct or not |
| Database.MempoolMeaning | src/db/pg.rs:1781-1808 | a mempool transaction adds its own rows, no block row, and changes no row that is there |
| Database.FollowReverts | src/db/pg.rs:1520-1524 | the revert events take a follower down to the fork one top at a time |
| Database.FollowPushes | src/db/pg.rs:515-541 | the events of a batch take a follower up its blocks |
| Database.EveryPrefixFollows | src/db/pg/init.sql:13-23 | in every prefix of the log the chain is linked, each revert names its top and each new block links to it |
| Ledger.UnspentMeaning | src/db/pg.rs:645-660 | unspent is created and consumed by nobody, at the created value |
| Ledger.SpendOnce | src/db/pg.rs:698-734 | in a valid history a point is consumed once and after its creation |
| Ledger.ValueConserved | src/db/pg.rs:437-450 | total unspent value is total coinbase output minus all fees, and no fee is negative |
| UtxoCache.CacheAfter | src/db/pg.rs:684-734 | after a batch the cache holds exactly what it saw created and not consumed |
| UtxoCache.MissingIsOld | src/db/pg.rs:716-765 | what the cache cannot answer was created before the pipeline started |
| UtxoCache.ProcessCorrect | src/db/pg.rs:660-765 | with a database that may lack every batch in flight, each input gets the ledger's value and the length assertion holds |
| UtxoCache.FeesCorrect | src/db/pg.rs:434-450 | with those values no lookup and no fee assertion fails and the fee is the ledger's |
| UtxoCache.ComputeFee | src/db/pg.rs:434-450 | the two folds compute that fee |
| UtxoCache.FmtFetchOutputs | src/db/pg.rs:554-579 | the queries ask for every point once, in order, 30000 at a time, the last one for the rest |
| UtxoCache.FetchOutputs | src/db/pg.rs:581-601 | those queries together return the table restricted to the requested points |
| UtxoCache.UtxoSetCache.InsertNewFromBlocks | src/db/pg.rs:684-696 | all outputs of the batch are added |
| UtxoCache.UtxoSetCache.ConsumeSpent | src/db/pg.rs:716-734 | each point is removed and found, or missing |
| UtxoCache.UtxoSetCache.ProcessBlocks | src/db/pg.rs:660-682 | the method resolves the batch as specified and leaves the right cache |
| Pipeline.ExecuteCommits | src/db/pg.rs:927-965 | running the queries formatted with the cached values is committing the batch with the ledger's fees |
| Pipeline.StepKeeps | src/db/pg.rs:991-1086 | no thread fails, committed blocks and stage contents in order stay the live chain, commits only extend what is visible |
| Pipeline.RunKeeps | src/db/pg.rs:991-1086 | for every interleaving and mempool insert: what was there plus everything offered, in order, nothing lost or repeated |
| Pipeline.EmptyInFlightMeansWritten | src/db/pg.rs:1297-1306 | an empty in-flight set means everything handed over can be read back |
| Pipeline.CrashAnywhere | src/db/pg.rs:1153-1159 | a crash at any step leaves a consistent database between the old chain and the offered one |
| Pipeline.StepRefinesQueue | src/db/pg.rs:1042-1086 | the three threads refine the queue of batches that the store's model uses |
| Pipeline.DrainTerminates | src/db/pg.rs:1097-1112 | shutting the pipeline down terminates with everything committed and nothing in flight |
| Pipeline.ReorgResolves | src/db/pg.rs:1580-1597 | the fresh cache of a reorg resolves every input, revived blocks included, and its queries commit the branch |
| StorePipeline.OfferIsAdmissible | src/db/pg.rs:1314-1343 | what the store hands over continues, in a valid history, what the pipeline holds |
| StorePipeline.DrainedIsCommitted | src/db/pg.rs:1097-1112 | joining the threads commits every batch in order and empties the in-flight set |
| StorePipeline.FinishExecutes | src/db/pg.rs:1529-1600 | the reorg's transaction, with its own cache and the fees computed from it, is the specified one |
| StorePipeline.InsertRefines | src/db/pg.rs:1398-1600 | with real threads and no queue of its own, inserting a fitting block is the specified step and no thread dies |
| StorePipeline.RunRefines | src/db/pg.rs:991-1086 | for every interleaving of received blocks and thread steps, store and threads are the specified store fed with the same blocks |
| StorePipeline.TogetherTheyKeepTheLongest | src/db/pg.rs:1398-1600 | so the live chain is the longest one received, and the database can be opened at any moment on a lower part of it |
| Buffering.SettleCollects | src/db/pg.rs:1533-1573 | the blocks a reorg collects are exactly those of the branch that are not stored |
| Buffering.FinishCounts | src/db/pg.rs:1566-1578 | a reorg adds their transactions to the counter and does not reset it |
| Buffering.TxCountIs | src/db/pg.rs:1448 | the counter counts all transactions of the blocks |
| Buffering.BulkModes | src/db/pg.rs:847-854 | both bulk modes wait, normal mode does not |
| Buffering.SetModeWaits | src/db/pg.rs:1352-1381 | changing the mode of a running store waits: nothing is in flight or buffered and the visible chain is the live one |
| Buffering.InsertSwitches | src/db/pg.rs:1461-1463 | an insert changes the mode exactly at the tip at the node's starting height, to normal, and by then everything is written |
| Buffering.TipInsert | src/db/pg.rs:1447-1466 | what a block at the tip does to batch, counter, mode, queue and database: above 100,000 transactions, or in normal mode, the batch is handed over, otherwise it waits |
| Buffering.NextBlock | src/db/pg.rs:1398-1600 | a forecast from the two chains alone says, block by block, in which mode the store is and whether it still waits |
| Buffering.InsertBelowHead | src/db/pg.rs:1453-1463 | after any block up to the starting height, nothing is left waiting once the live chain has passed that height |
| Buffering.BulkPastHead | src/db/pg.rs:1453-1463 | above the node's starting height bulk mode stays, and a block at the tip reaches neither database nor pipeline until 100,000 transactions are exceeded |
| Buffering.BulkForever | src/db/pg.rs:1453-1463 | no input and no timing ever ends bulk mode then |
| Balance.SpendersMeaning | src/db/pg/mode_normal.sql:239-244 | the left join finds a spender exactly when the live chain up to the height has one |
| Balance.OneLiveBlock | src/db/pg/mode_normal.sql:236-238 | a transaction is in at most one live block, so the join counts no output twice |
| Balance.GroupExists | src/db/pg/mode_normal.sql:281-285 | an address has a row exactly when some live output pays to it |
| Balance.BalanceByQueryIsByReplay | src/db/pg/mode_normal.sql:264-286 | at every live height, and at the tip, the queried balance is the sum of the address's unspent outputs after replaying the live chain, whatever extinct blocks and mempool rows are there; the view has a row exactly when some live output pays to the address |
| Balance.AllBalancesConserveValue | src/db/pg/mode_normal.sql:232-248 | all balances together are what was minted minus the fees recorded in the tx table |
| Polling.PageIsSlice | src/db/pg.rs:1728-1732 | the query selects the next entries of the log, at most the limit, skipping none |
| Polling.Next | src/db/pg.rs:1723-1755 | one page is the slice after the cursor with true heights, and the new cursor stands right behind it |
| Polling.PagesAreTheLog | src/db/pg.rs:1723-1755 | for any limits and any commits in between the pages put together are the log after the first cursor, each event once, and the cursor never goes back |
| Polling.FollowerSeesTheChain | src/db/pg/init.sql:13-23 | a polling follower never meets an event that does not apply and ends with the visible chain |
| Polling.RunGrows | src/db/pg.rs:1398-1600 | the store only appends events, every event names a stored block, stored heights stay |
| Sql.ChunksMeaning | src/db/pg.rs:145-153 | statements hold the rows in order, none empty, all but the last full |
| Sql.MultiValueSqlFormatter.FmtWith | src/db/pg.rs:211-221 | one more row; the text stays well formed |
| Sql.MultiValueSqlFormatter.TerminateQuery | src/db/pg.rs:229-233 | the open statement is closed |
| Sql.MultiValueSqlFormatter.Drop | src/db/pg.rs:236-242 | the last statement is closed, an empty one is not begun |
| Sql.FormatRows | src/db/pg.rs:211-242 | the text reads back as terminated, non-empty statements of 30001 rows, the last one possibly smaller, that hold exactly the rows, in order |
| Sql.CommentHoldsWhen | src/db/pg.rs:145-148 | the documented limit of 30000 is met exactly when there are no more rows than that in all |
| Hash.IterSwaps | src/db/pg/mode_normal.sql:141-153 | what the recursive swap does to each byte |
| Hash.ReverseBytesAt | src/db/pg/mode_normal.sql:155-157 | it is the reversal |
| Hash.ReverseTwice | src/db/pg/mode_normal.sql:155-157 | it undoes itself |
| Hash.SplitAndJoin | src/db/pg.rs:132-142 | splitting at 16 bytes and joining are inverse both ways |
| Hash.DatabaseAgreesWithProgram | src/db/pg/mode_normal.sql:159-165 | the database's functions find the stored key and show the stored parts as the written hash |
| Hash.IdOfParts | src/db/pg/mode_normal.sql:159-165 | taking the key out of the hash made from its parts gives the key exactly when the key has at most 32 bytes |
| Indexer.FindStart | src/main.rs:55-75 | the start block: for a chain of n blocks height n - 101, or 0 for n up to 101, with its stored hash; a node that is behind stops the program |
| Indexer.ProcessBlocks | src/main.rs:77-81 | inserting deliveries one by one leaves the longest chain they ever showed |
| Indexer.StartKeeps | src/main.rs:55-75 | what the fetcher continues from is what the store counts as received; start-up fails exactly on a node that is behind; fetching begins at height n - 100 of n blocks, or at 1 for n up to 101 |
| Indexer.StepKeeps | src/main.rs:39-81 | the fetcher's promise is the store's demand, in every interleaving of fetching, inserting and committing |
| Indexer.NeverAhead | src/main.rs:77-81 | in every run the fetcher is at most one block ahead of the store, and idle while it is |
| Indexer.OneLife | src/main.rs:55-81 | no life of the program ends in a panic of the store, and the database it leaves is consistent and not shorter |
| Indexer.ManyLives | src/main.rs:55-81 | the same from the empty database through any number of crashes and restarts |
| Provenance.DeliversTheNodesChains | src/node/prefetcher.rs:428-447 | right after each delivery the deliveries fold to a chain the node had at some time, or to the lower part of one |
| Provenance.LiveFromNode | src/main.rs:77-81 | the live chain is the one found at the start, or a chain the node had, or the lower part of one |
| Provenance.DatabaseFromNode | src/main.rs:55-81 | through any crashes and restarts the visible chain is empty or the lower part of a chain the node had |
| IndexerLive.StepProgress | src/main.rs:77-81 | fetching, inserting and writing, measured together, only move towards the node's chain |
| IndexerLive.CatchesUp | src/main.rs:55-81 | along every fair schedule the live chain becomes the node's and all of it but the batch is committed; in normal mode there is no batch |
| IndexerLive.FairFromParties | src/main.rs:77-81 | the fairness assumed there follows from weak fairness to each worker, the main thread and the writer |
| IndexerLive.StaysStuck | src/node/prefetcher.rs:192-262 | continuing from an abandoned block above genesis, nothing is ever delivered |
| IndexerLive.RestartCatchesUpExactlyWhen | src/main.rs:55-75 | after a restart the live chain becomes a longer, stable chain of the node if and only if the block 100 below the program's head is on that chain or is the genesis block |
| IndexerLive.WithinReachIs | src/main.rs:61 | in numbers: the chains may differ in the last 100 blocks of the stored one, or anywhere while it has no more than 101 |
| IndexerLive.RecoversAHundredBlocks | src/main.rs:61 | a reorg during the downtime is recovered if and only if it replaced at most the last 100 stored blocks, or there are no more than 101 |
| IndexerWritten.StaysStraight | src/node/prefetcher.rs:192-262 | on a stable chain within reach the fetcher delivers its blocks one after the other, after at most one step back at genesis |
| IndexerWritten.RestartIsWrittenExactlyWhen | src/db/pg.rs:1447-1466 | after a restart the event log comes to show exactly the node's chain if and only if, besides, the mode does not leave its last block waiting, which the chains, the database, the mode and the head height decide beforehand |
| IndexerWritten.RestartAtHeadIsWritten | src/main.rs:23-27 | with the head height read from that very node the second condition holds in every mode |
| IndexerWritten.CatchesUpAtHead | src/db/pg.rs:1461-1463 | at any time and in any mode: once the node stays on a chain ending at the starting height, with nothing waiting above it, every fair schedule leads to everything being committed |
| IndexerWritten.DeepReorgIsMissed | src/main.rs:61 | 102 stored blocks and a node with 103 others: the program never gets there |
| IndexerWritten.BulkKeepsTheLastBlock | src/db/pg.rs:1414-1463 | a bulk-mode restart at the node's starting height: the next block joins the live chain and is never committed |

## Left out

- Hash functions, scripts, addresses, weights, hex and decimal text: ids are the hashed content, addresses are numbers, rows of a statement are opaque tokens. The split of a hash into key and rest is treated in `Hash` only; elsewhere keys are taken to be as distinct as the hashes.
- The two duplicate coinbase transactions (`src/db/pg.rs:82-105`): transactions of a valid chain are distinct.
- The `current_height` column and the views built on it, and the mempool views: the program does not maintain the column across reorgs (`src/db/pg.rs:1557-1570`) and marks the mempool view as an approximation.
- Database failures, and the duplicate rows that the bulk modes would reject for lack of conflict handling: a commit always succeeds, and the transaction tables are those of normal mode.
- Schema and index changes, the stored mode flag and the self test when the mode changes: a mode is a field that decides about flushing.
- Choice of batch ids, logging, sleeps and retry delays, throughput figures, `in_progress` of the workers (it only sets a delay).
- Overflow of machine integers: heights, amounts and counts are unbounded.
- Databases, RPC, channels and threads as libraries: a transaction is one step, a channel is a queue, a thread that fails halts. In `Store` and `Indexer` the writer commits between calls of the store's methods and inside the ones that wait for it, not in the middle of the others. In `StorePipeline` handing over a batch returns at once and the next insert waits until the first thread has taken it. That the receiver outlives all senders is the guard of the restart in `PrefetchSpec`, not a field of the state.
- Prefetcher.Prefetcher.Next: what a generation of workers pushes is an arbitrary sequence given in advance, and waiting for a block that never comes is an outcome; the interleaving with the workers is in `PrefetchSpec`.
- StorePipeline.RunRefines: mempool inserts are in `Pipeline.RunKeeps` only; the store's specification has no step for them.
- PrefetchLive.Converges: assumes that from some time on the node answers without errors and that whenever a useful step is possible one is taken later; the delivered and still travelling blocks must be shorter than the node's chain and the fork inside the window.
- IndexerLive.CatchesUp: says that all but the batch is committed, because in the bulk modes the rest may stay in memory for good; `IndexerWritten` has the case of the node ending at the starting height and, for restarts, the exact condition.
- IndexerLive.RestartCatchesUpExactlyWhen: same assumptions on the node and the schedule, from the start on (from every state there is such a schedule, `IndexerLive.FairScheduleExists`); a node whose chain is not longer than the stored one is not asked about, because the store then keeps what it has.
- Balance.BalanceByQueryIsByReplay: the live chain is assumed to be valid by the node's rules, and the rows of the join are a set, since no table holds a row twice in normal mode.
- Ledger.ValueConserved: the limit on what a coinbase may claim is not part of the model.
- The mempool store and its poll loop, the updater, the benchmarks, `Fetcher`, `BottleCheck` and the in-memory store that is commented out.
