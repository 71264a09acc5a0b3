# Verified model of the Tron relayer

A Dafny model of the parts of the relayer whose correctness does not show from reading one function:
the transaction manager and its stores, the two polling caches, the two users of double-checked
locking, the text forms of an address, the fee limit, and the configuration overlay. `dafny verify
dfyconfig.toml` checks it.

## How it is put together

**Transaction store.** `tx_store_spec.dfy` says what each store call does as a function on values;
a heap maps references to the fields of the objects they point at, so that the aliasing between
store, channel and goroutines stays visible. `Valid` is the consistency of a store: an id is in at
most one map, under an object whose state is the one the map stands for, and the hash index is the
inverse of the live records. `tx_store.dfy` has the store as a class that updates its maps and its
objects in place; every method is proved equal to its function, and `CallKeepsValid` carries `Valid`
over from the functions to the object.

**Transaction manager.** `manager.dfy` is a transition system: Enqueue callers and the broadcast,
confirm and reap goroutines interleave, and one step is one section under a store's lock, one write
of a shared field by `maybeRetry`, one channel operation or one answer of the chain. Answers, hashes,
clock, map order and the success of a send are chosen by the label. `manager_invariant.dfy` and
`manager_steps.dfy` prove an invariant of every step. What follows for whole runs is in
`manager_runs.dfy` (retries), `manager_lifecycle.dfy` (phases), `manager_queue.dfy` (the channel and the
answers), `manager_records.dfy` (what records hold), `manager_reaping.dfy` (how long they are kept) and
`manager_status.dfy` (what is reported), and `manager_scenarios.dfy` has runs from the start to
particular outcomes. `txm_loops.dfy` has `maybeRetry`, `broadcastTx` and `checkReorged` as sequential
methods, and `manager_retry.dfy` shows that the steps of a retry add up to the method.

The limits of the retry policy, the tables of letters and the results of receipts are constants and
functions of the model; the properties that turn on them give the numbers and letters themselves.

Assumptions, each visible in `Enabled`: calls of Enqueue for one id of one account do not overlap
(without this an id can be in two maps, `OverlappingEnqueueLosesDisjointness`), and a new hash differs from the
hashes of errored records still kept (exactly what `OnBroadcasted` needs, `OnBroadcastedKeepsValid`).

**Caches.** `transmissions_cache.dfy` and `contract_cache.dfy` each have the cache as a class, a
step function that its update method is proved equal to, and lemmas over all histories of polls. In
the contract cache the chain may grow between the calls of one poll, by configs of new blocks or of
the latest one, and a look at a block may pass over any of its transactions, as the reader does with
those it cannot look up and those sent to another contract. The events of a block are taken to be the
contract's own.

**Double-checked locking.** `double_checked.dfy` interleaves threads over a reader/writer lock;
`account_store.dfy` (`GetTxStore`) and `validated_client.dfy` (`validate`) use it.

**Addresses.** `numerals.dfy` has positional numerals, `base58.dfy` base58 with and without
checksum, `hexutils.dfy` hexadecimal text (section 8 of RFC 4648) and `address.dfy` the readers and
printers. SHA-256 is a parameter, any function to 32 bytes. The base58 library is taken to print
numerals with leading zeros as leading ones, `IsHexAddress`, `HexToAddress` and the mixed-case `Hex`
of go-ethereum to do what their documentation says; these libraries are not part of this model. A
string is a sequence of bytes, each written as a char.

**Fees and prices.** `decimals.dfy`, `energy.dfy` and `fees.dfy`. Multipliers and padded fees are
exact reals.

**Configuration.** `config_overlay.dfy` has the overlay on values, and on lists of node objects that
may share some; `node_objects.dfy` what each object comes to hold then; `toml_config.dfy` the objects
that compute it in place.

## Where the code does less than its names promise

- A failed broadcast is not recorded: the broadcaster's `OnFatalError` finds the id pending and is
  always refused (`CallsAreEnabled`). The id then stays pending for ever without being queued, and so
  does one that a full channel turned away; no other id does (`StuckIffLost`).
- Finalized does not mean that the solidity node knows the transaction: a hit on the full node after
  a miss on the solidity node is enough (`FullNodeFinalizesUnsolidified`, and a run from the start in
  `FinalizedUnsolidified`).
- `validate` sets `done` before it cuts the chain id out of the block id. For a block id of fewer
  than eight characters the cut panics with no error on record, and all other calls pass the gate
  (`ShortIdOpensGate`); the gate keeps its promise to them exactly for longer ids (`GateIsExact`).
- `Enqueue` looks for an id in the account of the request only, and `GetStatusAll` answers from the
  first account that knows it. A transaction that has ended can therefore be reported as pending if
  another account has enqueued its id (`RevertedMayReadPending`); the report is settled exactly if all
  accounts that know the id agree (`StatusIsUnambiguous`).
- The reader takes the config of a block only if it sees one there. After a second one in the latest
  block the contract cache keeps what it had, if the reader passes over nothing
  (`SecondConfigOfBlockStallsCache`). If it passes over the transaction of the second, the cache takes
  the first for the latest, because `updateConfig` does not compare digests
  (`SkippedEventCachesWrongConfig`).
- `broadcastTx` reports success without a call if its first look at the clock comes 30 s late.
- Merging node lists is not associative around a list that names a node again with a field set
  (`RepeatedNamesBreakAssociativity`), and it is around all others. A list merged into itself changes
  if a node has no name, or if the first node of a name has other values than are last given under it
  (`MergeIsIdempotent`, and `ListIntoItself` for the objects). The same file merged twice is the file
  merged once exactly if all its nodes have names (`MergeTwice`, `FileTwice`).

## Model

| member | source | states |
|---|---|---|
| TxStoreSpec.OnPendingKeepsValid | relayer/txm/txstore.go:57-81 | a first OnPending keeps the store consistent if and only if it is refused or the id was unknown |
| TxStoreSpec.OverlappingEnqueueLosesDisjointness | relayer/txm/txm.go:145-154 | two overlapping Enqueue calls for one id leave it in two maps, although no store call fails |
| TxStoreSpec.OnRetryKeepsValid | relayer/txm/txstore.go:57-81 | the retry of an unconfirmed record is carried out and keeps the store consistent |
| TxStoreSpec.OnBroadcastedKeepsValid | relayer/txm/txstore.go:83-107 | OnBroadcasted keeps the store consistent if and only if it is refused or the hash is not that of an errored record still kept |
| TxStoreSpec.OnConfirmedKeepsValid | relayer/txm/txstore.go:109-126 | succeeds exactly for unconfirmed ids, keeps the store consistent |
| TxStoreSpec.OnErroredKeepsValid | relayer/txm/txstore.go:128-161 | succeeds exactly for unconfirmed and confirmed ids, keeps the store consistent |
| TxStoreSpec.OnFatalErrorKeepsValid | relayer/txm/txstore.go:163-184 | succeeds exactly for unconfirmed and confirmed ids, keeps the store consistent |
| TxStoreSpec.OnReorgKeepsValid | relayer/txm/txstore.go:188-204 | succeeds exactly for confirmed ids, keeps the store consistent |
| TxStoreSpec.OnFinalizedKeepsValid | relayer/txm/txstore.go:206-223 | succeeds exactly for confirmed ids, keeps the store consistent |
| TxStoreSpec.DeleteFinishedExact | relayer/txm/txstore.go:270-283 | exactly the finished records named go, with their index entries, and the count is right even for repeated ids |
| TxStoreSpec.DeleteFinishedKeepsValid | relayer/txm/txstore.go:270-283 | deleting keeps the store consistent and no other record loses its index entry |
| TxStoreSpec.ApplyKeepsValid | relayer/txm/txstore.go:57-283 | every call as the manager makes it keeps the store consistent |
| TxStoreSpec.ApplyFollowsLifecycle | relayer/txm/txstore.go:57-283 | every call moves its own id along an edge of the lifecycle or changes nothing, and moves no other id |
| TxStoreSpec.CallFilesRecord | relayer/txm/txstore.go:57-223 | a call that is carried out files the hash, expiration and object it was given, or those on record; the end of a record is dated with the time of the call |
| TxStoreSpec.ReachedIsValid | relayer/txm/txstore.go:57-283 | any sequence of calls from an empty store leaves a consistent store |
| TxStoreSpec.ReadersSeePhase | relayer/txm/txstore.go:285-293 | Has and GetStatus answer from the phase of the id alone |
| TxStoreSpec.CountsArePhases | relayer/txm/txstore.go:295-305 | the unconfirmed and finished maps have one entry per id in the phase |
| TxStoreSpec.LiveHashesInvertIndex | relayer/txm/txstore.go:57-223 | the hash index is the inverse of the map from live ids to their hashes |
| TxStoreSpec.IndexSize | relayer/txm/txstore.go:57-283 | the index has one entry per unconfirmed, confirmed, finalized and fatally errored record |
| TxStores.TxStore.constructor | relayer/txm/txstore.go:47-55 | a new store is empty and consistent |
| TxStores.TxStore.OnPending | relayer/txm/txstore.go:57-81 | does in place what the function says, including the partial update of a refused retry |
| TxStores.TxStore.OnBroadcasted | relayer/txm/txstore.go:83-107 | does in place what the function says, writes only the state of its object |
| TxStores.TxStore.OnConfirmed | relayer/txm/txstore.go:109-126 | does in place what the function says, writes only the state of the record's object |
| TxStores.TxStore.OnErrored | relayer/txm/txstore.go:128-161 | does in place what the function says, writes only the state of the record's object |
| TxStores.TxStore.OnFatalError | relayer/txm/txstore.go:163-184 | does in place what the function says, writes only the state of the record's object |
| TxStores.TxStore.OnReorg | relayer/txm/txstore.go:188-204 | does in place what the function says, writes only the state of the record's object |
| TxStores.TxStore.OnFinalized | relayer/txm/txstore.go:206-223 | does in place what the function says, writes only the state of the record's object |
| TxStores.TxStore.DeleteFinishedTxs | relayer/txm/txstore.go:270-283 | the loop over the ids leaves what the function says and returns its count |
| TxStores.TxStore.Has | relayer/txm/txstore.go:285-293 | whether the id is in one of the four maps, which in a consistent store is whether it has a phase |
| TxStores.TxStore.InflightCount | relayer/txm/txstore.go:295-299 | in a consistent store the number of ids that are unconfirmed |
| TxStores.TxStore.FinishedCount | relayer/txm/txstore.go:301-305 | in a consistent store the number of ids that have ended |
| TxStores.TxStore.GetStatus | relayer/txm/txstore.go:344-360 | the state of the record's object, from the first map that knows the id |
| TxStores.TxStore.GetUnconfirmed | relayer/txm/txstore.go:225-238 | every unconfirmed record once, by ascending expiration |
| TxStores.TxStore.GetConfirmed | relayer/txm/txstore.go:240-253 | every confirmed record once, by ascending expiration |
| TxStores.TxStore.GetFinished | relayer/txm/txstore.go:255-268 | every finished record once, by ascending retention time |
| TxStores.CallKeepsValid | relayer/txm/txstore.go:57-283 | an object on which an allowed call was made is as consistent as before |
| TxmLoops.TronTxm.MaybeRetry | relayer/txm/txm.go:469-504 | an object with fewer than 5 attempts and fewer than 2 out-of-time errors has one attempt more, one bump or out-of-time error more if told so, is filed as pending in place of its record and queued if there is room; any other is filed as errored; the store stays consistent |
| TxmLoops.BroadcastTx | relayer/txm/txm.go:330-359 | at most 15 calls, each begun within 30 seconds; only SERVER_BUSY and BLOCK_UNSOLIDIFIED are retried; success exactly if the last call was accepted, or if no call was made because the first clock check came too late |
| TxmLoops.CheckReorged | relayer/txm/txm.go:644-662 | a reorg is reported exactly when the first lookup and all three retries fail |
| ManagerSteps.StepKeepsInv | relayer/txm/txm.go:123-574 | every step of every goroutine keeps the invariant of the manager |
| ManagerRuns.RunKeepsInv | relayer/txm/txm.go:123-574 | the invariant holds in every state of every run |
| ManagerRuns.CallsAreEnabled | relayer/txm/txm.go:389-538 | no call the confirm loop makes from its snapshot takes an error branch or dereferences a missing record; the broadcaster's OnFatalError is always refused and changes nothing |
| ManagerRuns.InFlightOnce | relayer/txm/txm.go:152-221 | no (account, id) is twice in the channel and the broadcaster's hand, and each is pending as the same object |
| ManagerRuns.RankStep | relayer/txm/txm.go:389-538 | a store call raises the rank of its object by one, or by two if it ends an unconfirmed one, a reorg lowers it by two, and nothing else changes it |
| ManagerRuns.RankCountsMoves | relayer/txm/txm.go:389-538 | over a run the moves of an object are exactly its rank plus three for each reorg, less one if it failed unconfirmed |
| ManagerRuns.RetriesAreBounded | relayer/txm/txm.go:469-528 | a transaction reorged k times is dequeued at most 5 + k times and makes at most 12 + 3k store transitions |
| ManagerScenarios.FiveAttempts | relayer/txm/txm.go:469-528 | the bound is met: a run from the start in which an object is dequeued five times without a reorg |
| ManagerRuns.CountersAreBounded | relayer/txm/txm.go:469-504 | Attempt is at most 5, OutOfTimeErrors at most 2, and bumps and out-of-time errors together at most Attempt - 1 |
| ManagerLifecycle.StepMovesPhase | relayer/txm/txm.go:123-574 | each step leaves each id in its phase with its record or takes one edge of the lifecycle; only the reaper forgets an id |
| ManagerLifecycle.KnownUntilReaped | relayer/txm/txm.go:540-574 | an enqueued id is known until it is reaped, and an ended one keeps its record and state |
| ManagerLifecycle.ProbingHasMissed | relayer/txm/txm.go:644-662 | m counted misses are m + 1 failed lookups of the hash the record still has |
| ManagerLifecycle.LeavingConfirmed | relayer/txm/txm.go:506-538 | a record leaves confirmed only as finalized, when a node finds it, or by a reorg after one failed solidity lookup and four failed full-node lookups |
| ManagerLifecycle.FullNodeFinalizesUnsolidified | relayer/txm/txm.go:506-538 | in every run the step that finalizes a record is an answer of the full node if and only if the solidity node was asked for its hash before, while the record was confirmed, and did not find it |
| ManagerScenarios.FinalizedUnsolidified | relayer/txm/txm.go:506-538 | a run from the start that ends with a finalized transaction, whose only lookup on the solidity node found nothing |
| ManagerLifecycle.OverForever | relayer/txm/txm.go:389-538 | an object that has ended keeps its state for ever, even after its record is reaped |
| ManagerLifecycle.BackInChannelAfterMisses | relayer/txm/txm.go:506-538 | once confirmed, an object is in the channel again only after a reorg with those five failed lookups |
| ManagerReaping.ReapingIsExact | relayer/txm/txm.go:546-568 | although other goroutines run between snapshot and deletion, exactly the records of the snapshot that were older than the retention period when the pass began go, unchanged since, each counted once, and everything else stays |
| ManagerReaping.DeletedIsOld | relayer/txm/txm.go:546-568 | whatever is removed had ended longer ago than the retention period when the reaper started |
| ManagerReaping.PassRemovesTheOld | relayer/txm/txm.go:546-568 | a pass that comes to its end has removed a record it found finished if and only if that had ended longer ago than the retention period when the pass began |
| ManagerReaping.KnownForRetention | relayer/txm/txm.go:546-568 | from the step that ends it, an id stays known with the same record for at least the retention period |
| ManagerRecords.InFlightAsPublished | relayer/txm/txstore.go:83-126 | in every state of every run a record in flight has the hash, the expiration and the object that the broadcaster published it with, and has been there since |
| ManagerRecords.FinishedAsItEnded | relayer/txm/txstore.go:128-223 | in every state of every run a finished record has the hash and object of the record in flight it was made of, and the time of the step that ended it |
| ManagerRecords.SilenceDecides | relayer/txm/txm.go:399-413 | when the full node does not know a hash, the expiration that the hash was published with decides between leaving the record alone and trying again or giving up |
| ManagerQueue.WaitingEnds | relayer/txm/txm.go:152-176 | an object on the way to the channel or in it stays there until the broadcaster takes it or the full channel refuses it |
| ManagerQueue.UsedChanges | relayer/txm/txm.go:152-176 | what an object has used of its attempts goes up by one exactly when it is dequeued or refused by the full channel, and down by one exactly at a reorg |
| ManagerQueue.QueueIsBalanced | relayer/txm/txm.go:469-528 | over a run dequeues and refusals of an object add up to its attempts and reorgs, less the one it waits with |
| ManagerQueue.FirstInFirstOut | relayer/txm/txm.go:152-176 | over every run the objects sent are those received and then those in the channel, in this order, and the channel never holds more than its capacity |
| ManagerQueue.PendingIsAccountedFor | relayer/txm/txm.go:123-227 | in every state of every run each pending object is queued or in the broadcaster's hand, unless a send found the channel full or the broadcaster gave it up |
| ManagerQueue.StuckIffLost | relayer/txm/txm.go:123-227 | in every state of every run an object is pending without being queued, sent or in hand if and only if a send found the channel full or the broadcaster gave it up before; once so, it stays so |
| ManagerQueue.AnswerDecides | relayer/txm/txm.go:389-467 | where each answer takes an unconfirmed record: confirmed on SUCCESS, fatally errored on the ten results listed, left alone while missing until it expires, errored after 5 attempts or 2 out-of-time errors, and else retried with the right counter |
| ManagerRetry.FiveStepsAreOneRetry | relayer/txm/txm.go:487-503 | the five steps of an undisturbed retry raise the counters, mark the object, file it as pending and send it, as the method MaybeRetry does |
| ManagerRetry.RetriedOrErrored | relayer/txm/txm.go:389-504 | every other answer has an object with fewer than 5 attempts and fewer than 2 out-of-time errors tried again, with one attempt more, one bump more exactly on OUT_OF_ENERGY and one out-of-time error more exactly on OUT_OF_TIME, and ends all others as errored |
| ManagerStatus.StoreSeesPhase | relayer/txm/txm.go:577-596 | what a store answers gives the status of the phase, even in the middle of a retry |
| ManagerStatus.StatusOfRecord | relayer/txm/txm.go:577-596 | which of the six statuses is reported, by the map that has the id and, for a finished one, by how it ended |
| ManagerStatus.FirstKnownAnswers | relayer/txm/txstore.go:450-461 | the accounts may each be asked in another state: the status is that of the phase id had, when it was asked, in the first account that knew it then, and not found if none did |
| ManagerStatus.KnownIsFound | relayer/txm/txstore.go:450-461 | while other goroutines run, an id known before the question and not reaped is found, with the status it has in an account at a moment of the question |
| ManagerStatus.OneMomentAnswers | relayer/txm/txstore.go:450-461 | if only one account ever knows the id, there is a state among those the question ran through in which every order of the accounts gives its answer |
| ManagerStatus.StatusIsUnambiguous | relayer/txm/txstore.go:450-461 | the answer is the same in every order of the accounts if and only if all accounts that know the id give it the same status |
| ManagerStatus.EndIsReportedUntilReaped | relayer/txm/txm.go:577-596 | an account's final status stays until the id is reaped; all questions in that time, whatever order and moments they ask the accounts in, report it if and only if no account that knows the id gives it another status in any state of that time |
| ManagerStatus.EndMayGoUnreported | relayer/txm/txm.go:138-154 | any run in which an account has ended an id can go on with another account enqueuing it, after which the manager gives both answers, by the order of the accounts |
| ManagerStatus.RevertedMayReadPending | relayer/txm/txm.go:577-596 | a run from the start in which a reverted transaction reads as fatal in one order and as pending in another, nothing having been reaped |
| DoubleChecked.StepKeepsInv | relayer/txm/txstore.go:318-341 | each thread step keeps the lock exclusive and never replaces an entry |
| DoubleChecked.CellsNeverChange | relayer/txm/txstore.go:318-341 | an entry keeps its value over the whole run |
| DoubleChecked.OneValuePerKey | relayer/txm/txstore.go:318-341 | all callers for a key that are given a value are given the same one |
| DoubleChecked.FilledOnce | relayer/txm/txstore.go:318-341 | a key is filled exactly once if it has an entry and never otherwise |
| AccountStores.GetTxStoreIsConsistent | relayer/txm/txstore.go:318-341 | every caller gets the one store ever opened for its address, and no two addresses share one |
| ValidatedClient.VerdictIsOfFetchedBlock | relayer/sdk/combined_client.go:128-161 | the verdict on record is that of a genesis block that was fetched |
| ValidatedClient.GateNeedsMatch | relayer/sdk/combined_client.go:128-280 | a call passes only on a verdict recorded once, which is a match with the hexadecimal text of the chain id unless the block id was too short; failed fetches record nothing |
| ValidatedClient.GateIsExact | relayer/sdk/combined_client.go:128-280 | one call fills the cell; a call with a verdict passes if and only if the last eight characters of the block id are the chain id in hexadecimal, in either case or with a sign in the first place, or is shorter than eight characters and another call filled; the filling call panics if and only if it is shorter; passing implies a match if and only if the id has eight characters or the call is the filling one |
| ValidatedClient.SpellsIsParsed | relayer/sdk/combined_client.go:149-160 | for all chain ids: eight characters are read as the chain id if and only if they are the hexadecimal text of its four bytes, or seven of it behind a sign |
| ValidatedClient.MainnetMatches | relayer/sdk/combined_client.go:149-160 | a block id that ends in 2b6653dc matches chain id 728126428 |
| ValidatedClient.ShortIdOpensGate | relayer/sdk/combined_client.go:149-161 | for every shorter block id and every chain id, a run in which the thread that fetched it panics and another passes |
| TransmissionsCache.Cache.UpdateTransmission | relayer/ocr2/transmissions_cache.go:59-122 | one update is one step of the cache; it fails exactly if the fetch does |
| TransmissionsCache.Cache.LatestTransmissionDetails | relayer/ocr2/transmissions_cache.go:160-179 | the cached details; fresh exactly within the time to live of the last check |
| TransmissionsCache.Cache.Poll | relayer/ocr2/transmissions_cache.go:140-158 | the loop takes one step per fetch, in order |
| TransmissionsCache.HoldsLastAccepted | relayer/ocr2/transmissions_cache.go:59-122 | after any history: the last accepted observation, the number of skips since, and the time of the first of them |
| TransmissionsCache.NoUnminedAnswer | relayer/ocr2/transmissions_cache.go:59-122 | no reader is given an answer other than zero with timestamp zero |
| TransmissionsCache.TakenUnlessUnmined | relayer/ocr2/transmissions_cache.go:85-122 | after any history, details that are read are taken exactly unless their timestamp is zero and their answer is not |
| TransmissionsCache.FreshIffRecentRead | relayer/ocr2/transmissions_cache.go:193-203 | fresh if and only if the last successful fetch was within the time to live |
| ContractCache.Cache.UpdateConfig | relayer/ocr2/contract_cache.go:53-90 | one update is one step of the cache; a failed one changes nothing |
| ContractCache.Cache.LatestConfigDetails | relayer/ocr2/contract_cache.go:132-139 | block and digest of the entry held; fresh exactly within the time to live |
| ContractCache.Cache.LatestConfig | relayer/ocr2/contract_cache.go:141-147 | the config held, whatever block is asked for; fresh exactly within the time to live |
| ContractCache.Cache.LatestBlockHeight | relayer/ocr2/contract_cache.go:149-153 | the height held; fresh exactly within the time to live |
| ContractCache.StepTakesWhatIsSeen | relayer/ocr2/contract_cache.go:53-90 | a poll that succeeds leaves the block of its details, with the config it had if they were cached and else with that of the one event it saw there, whose digest is that of the details if and only if it is the latest config's; one that fails changes nothing |
| ContractCache.CacheIsConsistent | relayer/ocr2/contract_cache.go:53-90 | after any polls, whatever their lookups passed over and whatever landed in the middle of them, the cache holds nothing, or a block that some poll was told of with one of that block's configs |
| ContractCache.BlockNeverGoesBack | relayer/ocr2/contract_cache.go:53-90 | no poll takes the cached block back |
| ContractCache.FreshIffRecentSuccess | relayer/ocr2/contract_cache.go:155-163 | fresh if and only if the last poll that succeeded was within the time to live |
| ContractCache.AloneSeesOne | relayer/ocr2/ocr2_reader.go:176-183 | a lookup that passes over nothing sees exactly one event in the latest block if and only if it has one config, and then sees that |
| ContractCache.QuietPollAgreesWithChain | relayer/ocr2/contract_cache.go:53-90 | after any polls, if configs of one block differ in digest: a poll during which the chain stood still succeeds if and only if its lookup sees exactly one event in the latest block or the details are cached, and leaves the chain's answer if and only if that event is the latest config or it was cached |
| ContractCache.SkippedEventCachesWrongConfig | relayer/reader/reader.go:193-221 | after any polls, if the latest block has another config and the reader passes over all but that one, a quiet poll succeeds and the cache holds the other config, fresh, under the latest block |
| ContractCache.SecondConfigOfBlockStallsCache | relayer/ocr2/contract_cache.go:53-90 | if configs of one block differ in digest and no lookup passes over a transaction: once the latest block has a second config, every quiet poll fails and the cache keeps another answer than the chain gives; if it has one, every quiet poll succeeds |
| EnergyPrices.ParseIntIsExact | relayer/txm/energy.go:24-27 | exactly the numerals of 32-bit integers are parsed, to their value |
| Decimals.DigitsGrow | relayer/txm/energy.go:24-27 | the ten digits, and what one more on the right means |
| EnergyPrices.PriceIsTheAnnounced | relayer/txm/energy.go:13-30 | a price is reported if and only if the last component is stamp, colon and its numeral; otherwise the default with an error |
| EnergyPrices.LatestPriceIsRead | relayer/txm/energy.go:13-30 | a printed history of prices is read back as its last price |
| Fees.FeeIsExactIffItFits | relayer/txm/txm.go:246-268 | the fee limit is the exact fee, rounded down, for all bumps up to a bound if and only if the fee at the bound fits 32 bits |
| Fees.FeePerBump | relayer/txm/energy.go:32-34 | the exact fee at no bumps is price times energy times the multiplier, each bump multiplies it once more, and a multiplier below one is taken as 1.5 |
| Fees.WrapIsTruncation | relayer/txm/txm.go:264 | the 32-bit product is congruent to the exact one |
| Fees.FeesAreSafe | relayer/txm/txm.go:246-268 | in every state of every run the fee limit does not overflow, is at least price times energy and no less than at fewer bumps, if the exact fee at four bumps fits |
| Numerals.ChangeBack | relayer/gotron-sdk/pkg/common/base58.go:13-15 | changing the base of a numeral and back gives the same digits, leading zeros included |
| Numerals.LeadingDigit | relayer/gotron-sdk/pkg/address/address.go:73-76 | a number between d and d + 1 times the k-th power of the base has k + 1 digits, led by d |
| Base58.DecodeIsExact | relayer/gotron-sdk/pkg/common/base58.go:35-37 | byte strings but the empty one and base58 texts are in one-to-one correspondence |
| Base58.DecodeCheckIsExact | relayer/gotron-sdk/pkg/common/base58.go:39-75 | a text decodes to an address if and only if it spells 21 bytes led by 0x41 and the first four bytes of their double hash, which is if and only if it is the encoding of a main-network address |
| Base58.AlphabetIs | relayer/gotron-sdk/pkg/common/base58.go:13-15 | the 58 characters of the alphabet, in order |
| Base58.MainnetTextShape | relayer/gotron-sdk/pkg/common/base58.go:17-33 | the text of every main-network address has 34 characters and starts with T |
| HexUtils.HexDecodeIsExact | relayer/gotron-sdk/pkg/common/hexutils.go:98-101 | a text decodes to the bytes it encodes, in either case, and no other text decodes |
| HexUtils.HexTable | relayer/gotron-sdk/pkg/common/hexutils.go:98-101 | the sixteen characters, in order and in both cases |
| HexUtils.BytesToHexString | relayer/gotron-sdk/pkg/common/hexutils.go:9-14 | the loop over the buffer gives 0x and two lower-case characters a byte |
| Addresses.StringToAddressIsExact | relayer/gotron-sdk/pkg/address/address.go:86-103 | a text is read as an address if and only if that is 21 bytes led by 0x41 and the text is its hexadecimal form, that of its last 20 bytes, or the base58 of it and the first four bytes of its double hash |
| Addresses.PrintersAreInverted | relayer/gotron-sdk/pkg/address/address.go:41-116 | reading inverts String, Hex and EthAddress().Hex() on exactly the main-network addresses; String prints the base58 of the bytes and the first four of their double hash |
| Addresses.AddressVariable.UnmarshalJSON | relayer/gotron-sdk/pkg/address/address.go:160-188 | stores what the text stands for, or reports an error and stores nothing |
| Addresses.AddressVariable.Scan | relayer/gotron-sdk/pkg/address/address.go:129-139 | stores exactly byte strings of 21 bytes |
| Addresses.JsonRoundTrip | relayer/gotron-sdk/pkg/address/address.go:150-188 | of the 21-byte addresses exactly the main-network ones survive JSON, and so does the empty one |
| Addresses.JsonIsExact | relayer/gotron-sdk/pkg/address/address.go:160-188 | which JSON data give which address: quoted checked base58 of a main-network address, or quoted hexadecimal text of any bytes |
| ConfigOverlay.MergeIsAssociative | relayer/config/toml.go:75-87 | merging is associative around a middle list if and only if no name in it comes up again with a field set |
| ConfigOverlay.RepeatedNamesBreakAssociativity | relayer/config/toml.go:75-87 | for every middle list that names a node again with a field set there is a later file of one node for which the order of merging matters |
| ConfigOverlay.MergeIsPointwise | relayer/config/toml.go:75-87 | for all lists: every node keeps its place, the first of each name has all laid over it that the file says of the name, and new nodes follow in order, each once |
| ConfigOverlay.MergeIsIdempotent | relayer/config/toml.go:75-87 | merging a list into itself changes nothing if and only if every node has a name and the first of each name has the values last given under it |
| ConfigOverlay.MergeTwice | relayer/config/toml.go:75-87 | the same file merged twice is the file merged once if and only if all its nodes have names |
| ConfigOverlay.MergeIntoNothing | relayer/config/toml.go:75-87 | a list merged into nothing is itself if and only if it names no node twice |
| ConfigOverlay.OverlayIsAssociative | relayer/config/toml.go:130-139 | laying configurations over each other is associative around a middle one if and only if no node name in it comes up again with a field set |
| ConfigOverlay.OverlayIsIdempotent | relayer/config/toml.go:130-139 | laying a configuration over itself changes nothing if and only if every node has a name and the first of each name has the values last given under it |
| ConfigOverlay.DefaultsFillTheGaps | relayer/config/toml.go:124-128 | set fields stay, unset ones come from the defaults, nodes stay exactly if names are unique, and doing it twice is doing it once |
| ConfigOverlay.UnsharedNodesMerge | relayer/config/toml.go:75-87 | lists that share no node object come to hold the merge of their values; old objects keep their places and the file's others are untouched |
| ConfigOverlay.SharedNodesMergeOtherwise | relayer/config/toml.go:75-87 | lists that share an object need not: a node written over is read again as it now is |
| NodeObjects.ObjectsMerge | relayer/config/toml.go:75-87 | for all lists, shared objects or not: the first object of each name has all laid over it that the other objects of the file say of the name, no other object changes, and the list stays as it is if and only if it has a node for every node of the file |
| NodeObjects.FileTwice | relayer/config/toml.go:75-87 | for all lists of objects, shared or not, the same file objects merged twice leave what merging them once does if and only if all of them have names |
| NodeObjects.ListIntoItself | relayer/config/toml.go:75-87 | a list of objects merged into itself changes nothing if and only if every node has a name and what the other objects of a name say last is what its first says |
| NodeObjects.AgreedIsSettled | relayer/config/toml.go:75-87 | for a list that has no object twice, that is the condition on its values under which merging them changes nothing |
| TomlConfigs.SetFromNode | relayer/config/toml.go:100-110 | the node becomes its overlay; the file node is untouched |
| TomlConfigs.SetNodesFrom | relayer/config/toml.go:75-87 | for all lists, shared objects or not, the list and the objects are those of the fold over the file; without sharing they hold the merge of the values |
| TomlConfigs.TomlConfig.SetFromChain | relayer/config/toml.go:141-163 | the chain fields become their overlay |
| TomlConfigs.TomlConfig.SetFrom | relayer/config/toml.go:130-139 | each field and the list become what the file makes of them, also for a configuration laid over itself; without sharing that is the overlay of the values |
| TomlConfigs.TomlConfig.SetDefaults | relayer/config/toml.go:124-128 | the configuration object becomes the overlay over the defaults, also if it lists an object twice, when its nodes are the fold over the list |

## Left out

- Liveness: nothing is claimed about progress, except that an id lost to a full channel or an early `continue` of the broadcast loop makes none (`ManagerQueue.StuckIffLost`).
- HTTP clients, JSON transport, gRPC, ABI packing, keystore signing, protobuf building, logging, metrics, balance monitor and plugin wiring: input and output without a rule of their own.
- Data races on fields of a transaction object outside the locks: the writes of `maybeRetry` are atomic steps.
- Manager.Snap: the manager takes snapshots in any order, not only by expiration as `GetUnconfirmed` and `GetConfirmed` give them; what is proved of the manager does not depend on the order.
- TxmLoops.BroadcastTx: a failed call without a response body is an outcome of its own, `NilDereference`; the recovery from it is not modelled.
- `DeleteAllFinishedTxs`, the totals and the listings over all accounts of `AccountStore`: the reaper's loop over the accounts is in the transition system, the rest adds only easy members.
- `estimateEnergy`: which of the node's two estimates is taken is not modelled; the energy is any natural number.
- Fees.FeesAreSafe: float rounding is not modelled, the multiplier and the padded fee are exact reals; beyond 32 bits the conversion has no value.
- Base58.EncodeCheck: the append of the checksum to the caller's slice makes a new sequence; sharing of a slice with spare capacity is not modelled.
- `Base64ToAddress`, `BigToAddress`, `PubkeyToAddress` and the byte-slice helpers of `hexutils.go`: not used by the readers and printers of addresses.
- `TOMLConfigs.SetFrom`: merges chains by id as nodes are merged by name, after a check for repeated keys; `ValidateConfig` and TOML decoding are out as well.
- TomlConfigs.TomlConfig.SetDefaults: the defaults are a parameter without nodes.
- ValidatedClient: which node a gated call is delegated to, and the two accessors that bypass the gate.
- `LatestRoundRequested` of the transmission cache: it asks the reader and uses no cached value.
