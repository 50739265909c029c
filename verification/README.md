# Venn, verified

Venn is a JSON-RPC front for Ethereum nodes. It answers block, receipt and log requests from a stack of
caches over the remote chain, spreads calls over prioritised remotes, publishes new heads to subscribers,
hands out leases to the elected node and paces its polling of the chain. This project models those parts
in Dafny, one module for each component, and proves what they are for.

How it is laid out:

- *Caches.* `Basics`, `Types` and `Json` hold the shared values and the streaming array writer. `SimpleLru`,
  `LruStores`, `Rediblock` and `Chainblock` (with `Buckets`, the splitting of a flat log list) are the three
  kinds of store, `CompoundStores` stacks them. `Direct` says what a query should answer when read off the
  chain; `Coherence`, `Growth` and `Poison` say what keeps the stores right and what spoils them; `Interleavings`
  proves over runs of single steps, and `CoherenceRuns` over runs of whole queries made of them, that the stack
  answers exactly that. Runs start coherent (`CoherenceRuns.StartSound`); `Runs` is what all runs have in common.
  `Caching` says when the stack answers at all. `LruLaws` and `RedisLaws` tell key by key what one Put or read does. `LruLinks`, `LruRecency`, `LruRuns` and `LruReorg`, and for Redis `RedisRuns`,
  prove what the two caches keep on their own, also across reorganisations.
- *Requests.* `LogFilter` and `Cacher` answer `eth_getLogs`, `BlockRequests` answers block and receipt
  requests, `Documents` and `Forger` rewrite JSON objects token by token, and `Objects` reads the results back.
- *Calls.* `Clusters`, `Failover`, `FailoverRuns` and `FailoverLaws` are the prioritised remotes, `Validators` the check of
  reported heads, `FlightKeys` the keys of shared calls, `Numerals` and `BlockNumbers` the block numbers.
- *Heads, leases, pacing.* `Heads`, `Deliveries`, `Subscriptions`, `Openings` and `Promises`, `Leases` and `LeaseRuns`,
  `Delays` and `Stalking`.

Objects that the program updates in place are classes whose methods are proved equal to a function on their
state (`State()`, `States()`); the lemmas are then about those functions and about runs of them. What happens
outside (replies of remotes, failures, clocks, other nodes, the order of steps of different goroutines) is an
argument of the call or an event of the run, and is not restricted further than the rows below say. Besides the
results over runs there are laws that say what one call does without using the functions which specify it.

Six statements that one would like to make are false of the program. Each is stated with its exact condition,
in terms of what is there before the step, and with an input at which it fails:

- *Cache coherence.* Three kinds of event store something that is not on the chain. Missing fields decode to
  zero, so the bottom store cannot tell a missing block from the zero hash: a header or log query by the zero
  hash is answered with an entry that claims to be block 0. A log request for one tag, such as "safe" to "safe",
  becomes a query for the number 2^64 - 3, and the tagged block's logs are stored under that number. And a
  request by tag stores whatever block the remote replies with: `null`, and any block that carries a hash and is
  not on the chain. `CoherenceRuns.StepSoundIff` and `RunSoundIff` show that among all events that they admit
  exactly these make a coherent system incoherent; `Poison.ZeroHashHidesGenesis`, `Poison.TagLogsGoStale`,
  `Cacher.TagLogsStay` and `BlockRequests.NullTagPoisons` show what follows.
- *Links in the cache* are kept by every Put of a linked batch except when a block cached above it has another
  parent and outlives the Put (`LruRuns.PutKeepsLinks`; `LruReorg.SiblingLeavesStaleChild`).
- *No gaps in newHeads.* A failed notification ends the loop over one received head early, but the subscription
  still takes that head as done (`Promises.KeptIff`; `FailedNotificationLeavesGap`).
- *Every fetched log is sent.* In the same way a failed notification loses the rest of a batch
  (`Promises.KeptIff`; `FailedNotificationLosesLogs`).
- *Block numbers print and parse back* exactly from "latestExecuted" (-5) upwards (`BlockNumbers.RoundTripIff`;
  `BelowTheTags`).
- *Forged receipts hold the block's logs* exactly when each log's hash is that of one transaction, and of only
  one (`Forger.ConservesIff`; `LostAndRepeated`).

Three behaviours of the source are kept although they surprise: `CompoundStore.Get` returns an error when a
write-back fails, even though it has an answer; numerals too long for 64 bits are read modulo 2^64
(`BlockNumbers.ReadsAnyDecimal`), so that 18446744073709551616 is block 0; and `updateSubs` can still grant a lease after the leader flag
has been cleared (`LeaseRuns.GrantedInsideWindow`), until the loop's own update ends.

## Model

| member | source | states |
|---|---|---|
| SimpleLru.AddSpec | lib/stores/blockstore/lru.go:27-42 | Adding makes the pair readable and most recent, changes no other value, and forgets at most the least recent key, and only for a new key in a full cache |
| SimpleLru.TouchValid | lib/stores/blockstore/lru.go:50-55 | Promotion keeps keys distinct, bounded and in step with the table |
| LruStores.LruStore.Get | lib/stores/blockstore/lru.go:44-78 | A read by hash, of a range of numbers or of a range of tags has the specified answer and only changes recency |
| LruStores.LruStore.Put | lib/stores/blockstore/lru.go:80-110 | The loop with the predecessor check, purge and the two adds is the fold of StoreOne |
| LruStores.CollectSpec | lib/stores/blockstore/lru.go:60-74 | A range read answers if and only if every number of the range is cached, with exactly the cached entries in order |
| LruStores.CollectFrame | lib/stores/blockstore/lru.go:60-74 | A range read, complete or cut short, changes no cached value and keeps the cache valid |
| LruStores.StoreOneSpec | lib/stores/blockstore/lru.go:83-107 | After storing an entry both indices have it, every other pair was there before, and no number pair survives a purge |
| LruStores.LruAnswersIff | lib/stores/blockstore/lru.go:44-78 | The in-process cache answers if and only if all keys that a query needs are there, with what is stored under them |
| LruLaws.OnePut | lib/stores/blockstore/lru.go:83-107 | An entry put is found by hash and by number; each index keeps all else but one entry at most, and that only for a new key in a full cache, except that a predecessor of another branch leaves nothing else in the number index |
| LruLaws.PutFold | lib/stores/blockstore/lru.go:83-107 | A batch is its entries put one after another |
| LruLaws.RangePromotes | lib/stores/blockstore/lru.go:62-72 | A range read makes the numbers it finds before the first missing one more recent than all others, whose order it keeps |
| LruLaws.HashPromotes | lib/stores/blockstore/lru.go:50-59 | A read by hash makes its entry the most recent one |
| LruLinks.PurgeOnlyAtFirst | lib/stores/blockstore/lru.go:84-95 | In a linked batch only the first block can clear the number index, whatever is evicted meanwhile |
| LruRecency.AddForgets | lib/stores/blockstore/lru.go:97-106 | Adding a key forgets another if and only if as many different keys as fit have then been used since that other one was |
| LruRecency.PutForgets | lib/stores/blockstore/lru.go:83-107 | A Put that clears nothing forgets a block above its batch if and only if the keys used since that block, those of the Put included, fill the cache |
| LruRuns.PutKeepsLinks | lib/stores/blockstore/lru.go:80-109 | Storing a linked batch keeps "neighbouring numbers are parent-linked" unless, before the Put, a block cached just above the batch has another parent, the batch's first block clears nothing, and that block is recent enough to outlive the Put; in that case it breaks |
| LruRuns.FittingBatchKeepsLinks | lib/stores/blockstore/lru.go:80-109 | In particular links are kept when the block above the batch is absent, knows no parent or has the batch's last block as parent |
| LruRuns.ParentlessAll | lib/stores/blockstore/lru.go:83-107 | Logs and receipts, which know no parents, break no link, whatever their numbers |
| LruRuns.RunSoundIff | lib/stores/blockstore/lru.go:44-109 | A run of reads, header batches, logs and receipts with gaps and empty Puts keeps the cache linked at every moment if and only if no header batch breaks it |
| LruRuns.EveryReadIsHashChain | lib/stores/blockstore/lru.go:44-109 | From the empty cache on, every range read in such a run is a hash chain |
| LruReorg.SiblingLeavesStaleChild | lib/stores/blockstore/lru.go:84-106 | A concrete reorganisation that leaves an unlinked child in place: the condition on the block above is needed |
| LruLinks.RangeIsHashChain | lib/stores/blockstore/lru.go:60-74 | Every range read from a linked cache is a hash chain |
| Buckets.Split | svc/node/stores/vennstores/chainblock/module.go:257-314 | The loop over the flat list with in-place compaction gives one entry per non-empty block |
| Buckets.Compact | svc/node/stores/vennstores/chainblock/module.go:303-312 | Compacting in place keeps exactly the used slots, in order, with finished buffers |
| Buckets.SlotTest | svc/node/stores/vennstores/chainblock/module.go:280-283 | The wrapped unsigned difference read as signed drops exactly the logs outside the range |
| Buckets.BucketsAscend | svc/node/stores/vennstores/chainblock/module.go:303-314 | Entries have increasing numbers inside the range, and each holds all logs of its block and nothing else |
| Buckets.BucketsComplete | svc/node/stores/vennstores/chainblock/module.go:266-314 | Every block of the range that has logs gets its entry |
| Buckets.FlattenBuckets | svc/node/stores/vennstores/chainblock/module.go:257-314 | Decoding the entries one after another gives the in-range logs sorted by block |
| Buckets.ByBlockStable | svc/node/stores/vennstores/chainblock/module.go:266-301 | That sort is stable: within a block the order is the remote's |
| Buckets.ByBlockSorted | svc/node/stores/vennstores/chainblock/module.go:266-314 | It is in block order and inside the range |
| Buckets.ByBlockPermutes | svc/node/stores/vennstores/chainblock/module.go:266-314 | It is a permutation of the in-range logs: none lost, none duplicated |
| Chainblock.Get | svc/node/stores/vennstores/chainblock/module.go:56-75 | A query of any type is answered as specified from the remote's replies, with its failures |
| Chainblock.GetBlockHeaders | svc/node/stores/vennstores/chainblock/module.go:77-140 | By hash and by range; a failed call is an error, a missing block makes the whole range empty |
| Chainblock.GetReceipts | svc/node/stores/vennstores/chainblock/module.go:142-180 | The same for receipts, which cannot be asked for by hash |
| Chainblock.GetLogs | svc/node/stores/vennstores/chainblock/module.go:182-314 | By hash, for one block, and for a range through the buckets |
| Direct.ChainAnswers | svc/node/stores/vennstores/chainblock/module.go:77-314 | Whenever the bottom store answers, the answer is the direct reading of the chain that the remote serves, unless the query is poisonous: by the zero hash while the remote replies, or for the logs of one tag to which it replies with some log |
| Direct.ChainInventsEntry | svc/node/stores/vennstores/chainblock/module.go:91-254 | The exceptions are real: a poisonous query is always answered, with one entry that has the zero hash or a tag for a number |
| Direct.ChainAnswersIff | svc/node/stores/vennstores/chainblock/module.go:77-314 | The bottom store answers if and only if the calls that the query needs do not fail; of a range of blocks, those up to the first missing one |
| Rediblock.RediblockStore.Get | svc/node/stores/vennstores/rediblock/module.go:125-195 | A read by hash or range returns pairs that are both live, or fails |
| Rediblock.LifetimeGrows | svc/node/stores/vennstores/rediblock/module.go:98-110 | A key's lifetime never shrinks as the head moves on, and the newest block's is one block time within the bounds |
| Rediblock.RediblockStore.CheckReorg | svc/node/stores/vennstores/rediblock/module.go:52-63 | The check finds a mismatch if and only if some stored parent hash differs from the expected one |
| Rediblock.RediblockStore.Put | svc/node/stores/vennstores/rediblock/module.go:211-273 | Key building, check, clean-up and script together have the specified outcome for a connection lost at any point |
| Rediblock.RedisAnswersIff | svc/node/stores/vennstores/rediblock/module.go:125-195 | Redis answers if and only if it is up and both keys of everything asked for are live, with what they say |
| RedisLaws.PutAfterReorg | svc/node/stores/vennstores/rediblock/module.go:197-209 | A Put that finds a live hash below one of its blocks which is not the parent's leaves nothing of the chain by number but its own blocks, and nothing of other chains changed |
| RedisLaws.PutWithoutReorg | svc/node/stores/vennstores/rediblock/module.go:254-273 | A Put that finds none changes no key by number outside its batch |
| RedisLaws.FaultedPut | svc/node/stores/vennstores/rediblock/module.go:255-273 | What has been done when the connection fails in the check, the clean-up, before or after the script |
| RedisLaws.LifetimeIs | svc/node/stores/vennstores/rediblock/module.go:98-110 | A block lives as many block times as it is below the head, itself included, up to an hour |
| RedisLaws.OneIsStored | svc/node/stores/vennstores/rediblock/module.go:93-115 | An entry is stored under its four keys, all to expire when that time at the raised head is over, and no other key changes |
| RedisLaws.AddAllFold | svc/node/stores/vennstores/rediblock/module.go:75-116 | A batch is its entries added one after another |
| RedisLaws.PutIsSteps | svc/node/stores/vennstores/rediblock/module.go:254-273 | To every reader a Put is what the steps of the runs do: list, delete and add after a mismatch, add otherwise |
| RedisRuns.EveryRunGood | svc/node/stores/vennstores/rediblock/module.go:65-209 | Over every run the stored head is the largest number ever put, no key outlives 3600 seconds, and the keys of a number (of a hash) stem from one entry and expire together |
| RedisRuns.MaxPutIsMaximum | svc/node/stores/vennstores/rediblock/module.go:93-96 | What the stored head is compared with is an upper bound of all numbers put for the chain, and one of them |
| RedisRuns.PairsLiveTogether | svc/node/stores/vennstores/rediblock/module.go:108-209 | A reader never sees half of a pair, also between listing and deleting keys in a clean-up |
| RedisRuns.PutIsReadable | svc/node/stores/vennstores/rediblock/module.go:112-195 | An entry just put is read back by number and by hash, without its parent hash |
| CompoundStores.CompoundStore.AddStore | lib/stores/blockstore/compound.go:27-35 | A store goes below the others; a missing one is skipped |
| CompoundStores.CompoundStore.Get | lib/stores/blockstore/compound.go:52-98 | The first store that answers decides, the stores above get the answer, the ones below are not asked, and a failed write-back is an error |
| CompoundStores.QuerySucceedsIff | lib/stores/blockstore/compound.go:59-97 | A query succeeds with an answer if and only if some store gives it, no store above does, and all stores above, having been asked, accept it |
| CompoundStores.QueryLeaves | lib/stores/blockstore/compound.go:64-92 | The stores above the one that answers have been asked and written to, that one has been asked, those below are as before |
| CompoundStores.InvertedIsEmpty | lib/stores/blockstore/compound.go:53-57 | An inverted range is answered with nothing, and no store is asked |
| CompoundStores.DownRedisIsSilent | lib/stores/blockstore/compound.go:64-73 | Only Redis depends on whether Redis is up |
| CompoundStores.HealthyAnswered | lib/stores/blockstore/compound.go:59-97 | Without a fault of Redis a query is answered as soon as one store can |
| CompoundStores.PutSucceedsIff | lib/stores/blockstore/compound.go:38-50 | A Put succeeds if and only if every store accepts it |
| Caching.HealthyStackAnswers | lib/stores/blockstore/compound.go:52-98 | With a bottom store whose calls do not fail and no fault of Redis every query is answered |
| Caching.AnsweredOnce | lib/stores/blockstore/compound.go:82-92 | What has been answered for one block is answered by the in-process cache the next time, whatever has become of the rest |
| CompoundStores.CompoundStore.Put | lib/stores/blockstore/compound.go:38-50 | Every store gets the entries, also after an earlier one failed |
| Coherence.RightNeverPurges | lib/stores/blockstore/lru.go:84-95 | On an append-only chain no purge ever fires |
| Coherence.PutCoherent | lib/stores/blockstore/compound.go:82-92 | Writing the chain's own entries keeps every kind of store coherent, also when the connection fails midway |
| Coherence.PrefixAnswerRight | svc/node/stores/vennstores/chainblock/module.go:77-314 | What the chain of a lagging remote answers is right for the whole chain |
| Coherence.LayerAnswers | lib/stores/blockstore/compound.go:64-73 | Whatever a coherent store answers is right, and is a direct reading of the chain, or of the prefix that a lagging remote serves |
| Coherence.CompoundAnswers | lib/stores/blockstore/compound.go:52-98 | One read-through query returns such a direct reading and leaves every store coherent |
| Growth.StoresGrow | lib/stores/blockstore/compound.go:52-98 | Coherent stores stay coherent as the chain grows |
| Poison.PoisonAnsweredIff | lib/stores/blockstore/compound.go:64-80 | Coherent stores answer a poisonous query if and only if there is a bottom store, and it is the one that answers |
| Poison.PoisonSpoils | lib/stores/blockstore/compound.go:82-92 | The answer to a poisonous query leaves the in-process cache incoherent |
| Poison.PoisonStays | lib/stores/blockstore/compound.go:82-92 | From then on the number of the invented entry is answered with that entry, whatever the remote says by then |
| CoherenceRuns.StepSoundIff | lib/stores/blockstore/compound.go:38-98 | Growth, whole queries, announcements, other nodes' writes, lost keys and time keep the caches coherent if and only if the event is neither a poisonous query to a stack with a bottom store nor the announcement of a header that is not on the chain |
| CoherenceRuns.RunSoundIff | lib/stores/blockstore/compound.go:38-98 | A run is coherent at every moment if and only if none of its steps poisons |
| CoherenceRuns.EveryAnswerDirect | lib/stores/blockstore/compound.go:52-98 | Every answer given during such a run is a direct reading of what the chain holds at that moment, or of the prefix served by a lagging remote, whatever has been evicted |
| CoherenceRuns.StepIsRun | lib/stores/blockstore/compound.go:38-98 | Each whole event does what the single steps of Interleavings that it consists of do |
| Poison.ZeroHashHidesGenesis | svc/node/stores/vennstores/chainblock/module.go:91-103 | After an answered zero-hash query the cache serves "null" for block 0 |
| Poison.TagLogsGoStale | svc/node/stores/vennstores/chainblock/module.go:231-254 | After an answered query for the logs of one tag, such as "safe", the cache serves these logs for that tag, also when it has moved on |
| Interleavings.AskDirect | lib/stores/blockstore/compound.go:64-73 | What a store is asked while other queries, growth and write-backs go on is answered by a direct reading of the chain at that moment, or of a lagging remote's prefix |
| Interleavings.StepSoundIff | lib/stores/blockstore/compound.go:52-98 | With each store asked and each store written back to in a step of its own, stores and answers on their way stay coherent if and only if the step does not poison them |
| Interleavings.RunSoundIff | lib/stores/blockstore/compound.go:38-98 | However queries overlap, a run is coherent at every moment if and only if none of its steps poisons |
| Interleavings.NextAnswerDirect | lib/stores/blockstore/compound.go:52-98 | In such a run the next store asked answers by a direct reading |
| Interleavings.QueryIsRun | lib/stores/blockstore/compound.go:52-98 | A whole query is a run of single steps: stores asked in turn until one answers, and the answer written into those above |
| Interleavings.AnnounceIsRun | lib/stores/blockstore/compound.go:38-50 | So is an announced header |
| Runs.RunIff | lib/stores/blockstore/compound.go:38-98 | If single steps keep a property exactly when they are not fatal, so do runs |
| LogFilter.CompileFilter | lib/ethtypes/logs.go:38-65 | The loops build the sets of the filter; an empty filter compiles to none |
| LogFilter.Check | lib/ethtypes/logs.go:67-98 | The loop with its early exits accepts if and only if address and every topic position do |
| LogFilter.CompiledDecides | lib/ethtypes/logs.go:38-98 | Compiling and checking decides exactly the plain meaning of addresses and topics, wildcards and short topic lists included |
| LogFilter.FilterCases | lib/ethtypes/logs.go:67-98 | What lets a log through and what keeps it out: wildcards, a missing address, a topic list that is too short, a topic that is not among the alternatives |
| LogFilter.Filter | lib/ethtypes/logs.go:100-112 | Filtering keeps exactly the accepted logs in order |
| LogFilter.AcceptedAreMatching | lib/ethtypes/logs.go:38-112 | With a compiled filter these are the logs that match its plain meaning |
| LogFilter.MatchingIs | lib/ethtypes/logs.go:100-112 | Which logs match, one after another |
| Json.EncodeDecode | svc/node/atoms/cacher/cacher.go:148-153 | What the array writer emits is read back by the array iterator element for element |
| Json.DecodeEncode | svc/node/atoms/cacher/cacher.go:148-153 | Only the writer's own form is read, so that different arrays stay different |
| Json.EncodeLooks | svc/node/atoms/cacher/cacher.go:148-213 | Arrays are brackets around the elements with a comma before each but the first |
| Cacher.FilterLogs | svc/node/atoms/cacher/cacher.go:144-216 | The nested loops with comma flag and reused header write one array of all entries' accepted logs, or fail if an entry cannot be read |
| Cacher.GetLogs | svc/node/atoms/cacher/cacher.go:387-427 | A request by hash, by narrow range, by wide range and by anything else has the specified outcome on the stores |
| Cacher.ForwardedIff | svc/node/atoms/cacher/cacher.go:398-415 | A request goes to the remote if and only if it names no block and lacks an end or spans more than eleven blocks, and then the stores are left alone |
| Cacher.MinusIsSigned | svc/node/atoms/cacher/cacher.go:403-403 | The span is the signed 64-bit difference, which is the true one for two numbers |
| Cacher.RefusedIff | svc/node/atoms/cacher/cacher.go:417-426 | A reply is refused if and only if the stores fail or some entry of theirs is no array of logs |
| Cacher.LogsAreNaive | svc/node/atoms/cacher/cacher.go:398-426 | A request for up to eleven blocks, when answered, gets the chain's matching logs in the range, each once and in chain order, or those of the prefix that a lagging remote serves |
| Cacher.ChainLogsIs | svc/node/atoms/cacher/cacher.go:398-426 | Which logs a range holds, block by block |
| Cacher.EveryLogsReplyNaive | svc/node/atoms/cacher/cacher.go:387-427 | At the end of any run without poison, with a remote that is up to date, it gets those of the chain itself |
| Cacher.LogsByHashAreNaive | svc/node/atoms/cacher/cacher.go:400-401 | A request by block hash, whatever ends it also gives, gets that block's matching logs when answered |
| Cacher.TagLogsStay | svc/node/atoms/cacher/cacher.go:402-426 | Once a request for the logs of "safe", "finalized" or another tag but "latest" has been answered with some, every later such request gets the same logs, filtered, whatever the tag means by then |
| Cacher.AnswerableIff | svc/node/atoms/cacher/cacher.go:402-410 | Which ranges of numbers and tags become queries that the loops of the stores can carry out |
| BlockRequests.GetBlock | svc/node/atoms/cacher/cacher.go:249-356 | A block request by number or hash has the specified outcome on the stores, whole or cut down to hashes |
| BlockRequests.GetReceipts | svc/node/atoms/cacher/cacher.go:358-386 | A receipt request by number has the specified outcome; receipts are always sent whole |
| BlockRequests.StoredIsDirect | svc/node/atoms/cacher/cacher.go:226-386 | When answered it gets the chain's block or receipts, or null if there are none |
| BlockRequests.BlockReplies | svc/node/atoms/cacher/cacher.go:249-276 | An answered block request gets the block whole with details, cut down to hashes without, and null when there is no such block |
| BlockRequests.ReceiptReplies | svc/node/atoms/cacher/cacher.go:370-386 | An answered receipt request gets the receipts whole, or null when there are none |
| BlockRequests.TagReplies | svc/node/atoms/cacher/cacher.go:282-311 | What is stored and sent for each kind of reply of the remote to a request by tag |
| BlockRequests.ProxyTag | svc/node/atoms/cacher/cacher.go:282-311 | A request by tag stores the remote's block and replies with it |
| BlockRequests.TagSoundIff | svc/node/atoms/cacher/cacher.go:282-300 | It keeps the caches coherent if and only if the reply is unreadable or a block of the chain |
| BlockRequests.NullTagPoisons | svc/node/atoms/cacher/cacher.go:282-300 | The reply "null" to a request by tag always makes the caches incoherent |
| Documents.RemoveTransactions | svc/node/atoms/subcenter/component.go:48-83 | The writer loop gives one object of the block's other fields, with commas only between them |
| Documents.OnlyTransactionsDropped | svc/node/atoms/subcenter/component.go:57-63 | Exactly the fields that are not the transaction list remain |
| Documents.RemoveTransactionDetails | svc/node/atoms/cacher/cacher.go:53-116 | It succeeds if and only if every listed transaction is an object, and writes the block with hashes in their place |
| Documents.OneHashEach | svc/node/atoms/cacher/cacher.go:80-98 | Transactions with one hash each become one element each, in order |
| Objects.ObjectReads | svc/node/atoms/cacher/cacher.go:53-116 | An object written as a stream reads back as exactly its attributes, in order |
| Objects.BlockForSubscribers | svc/node/atoms/subcenter/component.go:48-83 | The stream for subscribers reads back as the block's fields other than the transaction list |
| Objects.WithoutTransactionsIs | svc/node/atoms/subcenter/component.go:57-77 | Which fields a subscriber gets, one after another |
| Objects.BlockWithoutDetails | svc/node/atoms/cacher/cacher.go:53-116 | The stream without details reads back as the block's own fields, with the hashes under "transactions" |
| Objects.HashesOf | svc/node/atoms/cacher/cacher.go:85-101 | A transaction's hashes are the values of its fields called "hash" |
| Objects.AllHashesIs | svc/node/atoms/cacher/cacher.go:79-104 | The list holds those of one transaction after another |
| Forger.Forge | svc/node/middlewares/forger/forger.go:84-166 | The nested loops write one receipt per transaction with the logs of its hash, or fail if and only if a transaction is unusable |
| Forger.ReceiptFieldsAre | svc/node/middlewares/forger/forger.go:95-142 | A receipt has exactly the transaction's kept fields, and its hash as "transactionHash" |
| Objects.ReceiptReads | svc/node/middlewares/forger/forger.go:84-163 | A receipt's stream reads back as its fields in order and its logs last, under "logs" |
| Objects.ReceiptFieldsOf | svc/node/middlewares/forger/forger.go:107-145 | Which fields of a transaction become which fields of its receipt, one after another |
| Objects.TxHashIs | svc/node/middlewares/forger/forger.go:107-128 | A transaction's hash is that of its last hash field, and the zero hash without one |
| Objects.OfTxIs | svc/node/middlewares/forger/forger.go:150-162 | A transaction's logs are those with its hash, in order |
| Forger.ReceiptAt | svc/node/middlewares/forger/forger.go:147-163 | Receipt number i carries the logs of transaction hash number i |
| Forger.ForgedCount | svc/node/middlewares/forger/forger.go:147-160 | A log appears once for each transaction with its hash |
| Forger.ConservesIff | svc/node/middlewares/forger/forger.go:84-166 | The receipts' logs are a permutation of the block's if and only if each log's hash is that of exactly one transaction |
| Forger.LostAndRepeated | svc/node/middlewares/forger/forger.go:147-160 | Both ways to fail happen: a log of no transaction is lost, a log of two is repeated |
| Forger.ForgedInOrder | svc/node/middlewares/forger/forger.go:84-166 | Logs that come in transaction order keep their order across all receipts |
| Clusters.BinarySearch | lib/callcenter/cluster.go:38-38 | The search finds the leftmost insertion point and whether the value is there |
| Clusters.AddAgrees | lib/callcenter/cluster.go:34-67 | Adding to a group inserts into the flat list exactly where the flat list's own search points |
| Clusters.AddKeepsValid | lib/callcenter/cluster.go:34-67 | Add keeps the two representations equal and the groups strictly ascending |
| Clusters.ValidAscending | lib/callcenter/cluster.go:38-49 | The flat priorities are sorted |
| Failover.Cluster.Add | lib/callcenter/cluster.go:34-67 | The two searches and slice shifts have the specified effect on both representations |
| Failover.Cluster.ServeRPC | lib/callcenter/cluster.go:76-121 | The nested loops call a prefix of the visiting order that stops at the first decisive outcome, answer with what the last outcome calls for, and advance exactly the reached groups' counters |
| FailoverLaws.UserErrorAnswers | lib/callcenter/cluster.go:94-98 | The first user error, after replies that let the request go on, is the answer, and nobody is called after it |
| FailoverLaws.ResultAnswers | lib/callcenter/cluster.go:115-119 | So is the first result without error |
| FailoverLaws.LastSentAnswers | lib/callcenter/cluster.go:101-114 | If all replies let the request go on, the last one that sent anything decides: the data of an old head, another error, or nothing |
| FailoverLaws.SilenceAnswersNothing | lib/callcenter/cluster.go:76-121 | If nobody sends anything, all are called and nothing is sent |
| FailoverLaws.CallOrder | lib/callcenter/cluster.go:80-91 | Groups are called by ascending priority, each from its own turn on, round the group |
| FailoverLaws.TurnsAdvance | lib/callcenter/cluster.go:81-84 | A group's turn moves on by one if and only if one of its several remotes is called; nothing else about groups changes |
| FailoverLaws.ReachesIff | lib/callcenter/cluster.go:79-91 | A request reaches a group if and only if it calls a remote of it |
| FailoverLaws.AddGoesFirst | lib/callcenter/cluster.go:38-49 | In the flat list a new remote goes before all others of its priority and after all of lower ones |
| FailoverLaws.AddGoesLastInGroup | lib/callcenter/cluster.go:51-66 | In its group it goes last, and the group's turn stays; without a group it gets one whose turns start at 0 |
| FailoverRuns.FirstDecisiveAnswers | lib/callcenter/cluster.go:93-119 | The first user error or result is the answer and no later remote is called |
| FailoverRuns.LastOutcomeAnswers | lib/callcenter/cluster.go:101-114 | Otherwise every remote is called and the last outcome decides: stale data is sent, another error is sent, nothing stays unanswered |
| FailoverRuns.EveryRunRepresents | lib/callcenter/cluster.go:34-67 | After any run of Adds and requests the flat list is the groups reversed, and the groups hold what was added with each priority, in order |
| FailoverRuns.AllVisitedOnce | lib/callcenter/cluster.go:80-91 | The visiting order is a permutation of all remotes |
| FailoverRuns.GroupVisitedOnce | lib/callcenter/cluster.go:86-91 | One request tries each remote of a group once |
| FailoverRuns.RoundRobinFair | lib/callcenter/cluster.go:81-91 | Over as many requests reaching a group as it has remotes, each is first choice exactly once |
| FailoverRuns.FirstChoiceCalled | lib/callcenter/cluster.go:81-93 | The first choice of a reached group is the first of its remotes really called |
| Heads.Redihead.UpdateHead | svc/node/stores/headstores/redihead/module.go:98-106 | The head only moves up, and publication follows exactly when it does |
| Heads.Redihead.Publish | svc/node/stores/headstores/redihead/module.go:107-120 | Every empty channel of the chain gets the head, full ones keep what they hold |
| Heads.Redihead.On | svc/node/stores/headstores/redihead/module.go:187-201 | A new empty channel under an id that no channel of any chain uses |
| Heads.UpdatedIs | svc/node/stores/headstores/redihead/module.go:98-106 | A chain's head changes only to a higher one of its own |
| Heads.PublishedIs | svc/node/stores/headstores/redihead/module.go:107-120 | A published head goes into the empty channels of its chain, and into no other |
| Heads.RegisteredIs | svc/node/stores/headstores/redihead/module.go:187-201 | Registering adds one empty channel and changes nothing else |
| Heads.CancelledIs | svc/node/stores/headstores/redihead/module.go:202-210 | Cancelling removes one channel and changes nothing else |
| Heads.TakenIs | svc/node/atoms/subcenter/component.go:147-147 | Receiving empties one channel and changes nothing else |
| Deliveries.AnnounceBlocks | svc/node/atoms/subcenter/component.go:148-166 | The loop attempts consecutive blocks up to the head or the first failed notification; exactly the attempts without a failed fetch or notification reach the client |
| Deliveries.StopsShortIff | svc/node/atoms/subcenter/component.go:149-165 | The loop ends before the head if and only if some block before it can be fetched and fails to be notified |
| Deliveries.AnnounceLogs | svc/node/atoms/subcenter/component.go:218-228 | The loop sends the logs up to the first failed notification |
| Subscriptions.Subscription.Register | svc/node/atoms/subcenter/component.go:124-139 | Registration comes after the head was read, in a step of its own, and gets a fresh channel |
| Subscriptions.Subscription.Deliver | svc/node/atoms/subcenter/component.go:146-231 | A received head empties the channel; the blocks attempted, received and lost, or the range fetched with its logs and those sent, are recorded as specified; a failed fetch of logs changes nothing |
| Subscriptions.DeliverIsStep | svc/node/atoms/subcenter/component.go:146-231 | A delivery step of a run is what that method does, also on an empty channel |
| Subscriptions.EveryRunOrderly | svc/node/atoms/subcenter/component.go:124-231 | Under every interleaving pending heads are never behind the subscription nor ahead of the head, no block is attempted twice or out of order, each attempt is either received or lost, log ranges tile, and no channel is shared |
| Openings.OpensAtHead | svc/node/atoms/subcenter/component.go:124-124 | A subscription starts at the head of the moment, with nothing done |
| Openings.StartKept | svc/node/atoms/subcenter/component.go:124-231 | Where it started, and what for, never changes |
| Openings.NothingBeforeOpening | svc/node/atoms/subcenter/component.go:124-231 | In every run all it attempts, sends or fetches lies above the head at which it was opened |
| Openings.OneDelivery | svc/node/atoms/subcenter/component.go:147-231 | A head delivered without trouble is followed by exactly the blocks, or the logs of the range, above the head at opening |
| Deliveries.TilesCoverOnce | svc/node/atoms/subcenter/component.go:185-231 | Tiling ranges hold each block after the start up to current exactly once |
| Promises.KeptIff | svc/node/atoms/subcenter/component.go:145-231 | However many heads were dropped: initial + 1, ..., current have all been attempted if and only if no fetched block before a head being worked towards failed to be notified; all have been received if and only if no fetch or notification up to such a head failed; all fetched logs have been sent if and only if none of their notifications failed |
| Promises.FailedNotificationLeavesGap | svc/node/atoms/subcenter/component.go:162-167 | A concrete run: the notification of block 1 fails, and blocks 2 and 3 are never tried |
| Promises.FailedNotificationLosesLogs | svc/node/atoms/subcenter/component.go:218-231 | A concrete run: a failed notification loses the fetched logs, and their block is taken as done |
| Promises.DroppedHeadWaits | svc/node/stores/headstores/redihead/module.go:114-118 | A dropped head is only made up for by the next one: a concrete run that ends without it |
| Leases.RedilockStrategy.UpdateSubs | lib/election/redsync.go:119-152 | The loop grants or cancels each entry as specified; its send never blocks and its close never fails |
| Leases.RedilockStrategy.Acquire | lib/election/redsync.go:102-113 | A new lease waits behind all others |
| LeaseRuns.AppliedTraces | lib/election/redsync.go:119-152 | An update moves every lease exactly one stage, or not at all, as the loaded flag says |
| LeaseRuns.EveryLeaseInOneState | lib/election/redsync.go:102-179 | In every run each lease is exactly one of waiting, live and revoked, none is lost, order is kept, and outside the window a live lease means this node leads |
| LeaseRuns.StepMovesForward | lib/election/redsync.go:102-152 | No step takes a lease back, and it is cancelled only once and only after it was granted |
| LeaseRuns.LoopUpdateSettles | lib/election/redsync.go:173-179 | After the loop's own update nobody waits on a leader and nobody is live on a follower |
| LeaseRuns.GrantedInsideWindow | lib/election/redsync.go:119-179 | Inside the window a lease can be granted on a node that no longer leads: a concrete run |
| Delays.DelayTracker.Add | svc/node/atoms/stalker/delay.go:21-45 | Clamping, growth, wrap-around and mean as specified |
| Delays.HoldsLatest | svc/node/atoms/stalker/delay.go:21-45 | After any samples the ring holds exactly the latest size of them, clamped, oldest first |
| Delays.HoldsLatestAsTheyAre | svc/node/atoms/stalker/delay.go:21-45 | Samples within the bounds are held as they are |
| Delays.ClampIs | svc/node/atoms/stalker/delay.go:22-26 | Others become the bound that they exceed |
| Delays.MeanMoves | svc/node/atoms/stalker/delay.go:27-44 | One sample moves the mean as it would the exact one, less what leaves and plus what comes, rounded toward zero |
| Delays.QuoIsExact | svc/node/atoms/stalker/delay.go:30-42 | Division truncates toward zero, for negative dividends too |
| Delays.EveryRunMeanRange | svc/node/atoms/stalker/delay.go:21-45 | On every run min - max <= mean <= max and size * mean <= sum, truncation drift included |
| Delays.MeanCanBeNegative | svc/node/atoms/stalker/delay.go:42-43 | The drift is real: four samples that are not negative with a negative mean |
| Stalking.Stalker.Tick | svc/node/atoms/stalker/stalker.go:117-203 | Every branch of a tick updates the tracker and waits as specified |
| Stalking.EveryWaitBounded | svc/node/atoms/stalker/stalker.go:117-203 | No wait of any run is shorter than half a second or longer than the block time and nine tenths of it, nor shorter than half the block time after a new head |
| Stalking.WaitWithoutHead | svc/node/atoms/stalker/stalker.go:118-150 | Without a readable head, or when the store fails, the wait is the block time, at least half a second |
| Stalking.WaitUntilDue | svc/node/atoms/stalker/stalker.go:140-161 | After a new head with little delay the next question comes when the next block is due, within half a block time, half a second and one block time |
| Stalking.WaitForDelay | svc/node/atoms/stalker/stalker.go:162-167 | With a mean delay above a quarter of a second nine tenths of it come on top |
| Stalking.WaitAgain | svc/node/atoms/stalker/stalker.go:186-202 | After a head that is not new the next question comes when the next block is due, or after a quarter of the block time when it is overdue |
| Stalking.SampleIs | svc/node/atoms/stalker/stalker.go:150-159 | The time left until the next block is due becomes a sample exactly for a new head that comes before |
| FlightKeys.KeyInjective | lib/stores/blockstore/deduper.go:24-34 | Two queries share a flight only if chain, type and query are the same, for chain names with dots too |
| Numerals.NumeralReads | lib/ethtypes/rpc.go:50-51 | A numeral reads back as the number it was printed from |
| BlockNumbers.RoundTripIff | lib/ethtypes/rpc.go:26-98 | Printing then parsing is the identity if and only if the number is at least -5; below, parsing fails |
| BlockNumbers.WordsRead | lib/ethtypes/rpc.go:61-87 | Which number each word stands for |
| BlockNumbers.WordsPrinted | lib/ethtypes/rpc.go:35-53 | Which word is printed for each of these numbers |
| BlockNumbers.HexLooks | lib/ethtypes/rpc.go:50-51 | What printed quantities look like, at three numbers |
| BlockNumbers.ReadsBetweenQuotes | lib/ethtypes/rpc.go:26-62 | What is read is what stands between quotes of either kind, whatever white space is around them |
| BlockNumbers.ReadsBare | lib/ethtypes/rpc.go:26-62 | An input without quotes or white space is read as it is |
| BlockNumbers.ReadsAnyDecimal | lib/ethtypes/rpc.go:88-98 | Decimal numerals of any size are read modulo 2^64, and refused from 2^63 on |
| BlockNumbers.ReadsAnyHex | lib/ethtypes/rpc.go:88-98 | So are hex quantities |
| BlockNumbers.BelowTheTags | lib/ethtypes/rpc.go:50-96 | The number -6 is printed as an unsigned word that parsing refuses |
| BlockNumbers.ReadsEitherNumeral | lib/ethtypes/rpc.go:61-98 | Decimal and hex numerals of one number parse to it, in either quotes and with white space around |
| Validators.Validator.UpdateHead | lib/callcenter/validator.go:38-61 | Each report is joined in and judged as specified |
| Validators.StateIsBest | lib/callcenter/validator.go:38-61 | After any reports the head is the newest and its time the earliest reported for it |
| Validators.OrderIndependent | lib/callcenter/validator.go:38-61 | Order and repetition of reports do not matter |
| Validators.BackwardsIff | lib/callcenter/validator.go:42-44 | A report is refused as going backwards if and only if a newer head was reported before |
| Validators.OldIff | lib/callcenter/validator.go:52-58 | A head is refused as old if and only if it is the newest and some report of it, this one included, is too old |
| Validators.NewerAccepted | lib/callcenter/validator.go:46-50 | A strictly newer head is never refused |

## Left out

- Cacher.LogsAreNaive: is about ranges of numbers; for tags see Cacher.TagLogsStay.
- Cacher.GetLogs: leaves out two kinds of range that are neither inverted nor sent to the remote (Cacher.AnswerableIff says which these are, Cacher.OtherRanges what the remaining ranges with tags get): those from a number to a tag, for which the in-process cache asks for more memory than there is, and those from a tag to "latest", which end at 2^64 - 1, so that the counters of the stores' loops wrap. Parameter parsing and the reading of addresses and topics from hex strings are not modelled; a log's JSON is one raw token with its decoded fields.
- Coherence.CompoundAnswers: compares answers without the parent hash, which the Redis store does not keep.
- Interleavings.AskDirect: the remote's replies to the calls of one range are one snapshot of the chain, also when the chain grows between them; a remote may lag, but is never on another branch.
- CoherenceRuns.StepSoundIff: takes a whole query as one step, overlapping queries are in Interleavings; covers append-only chains, since after a reorganisation the caches promise links (LruRuns.PutKeepsLinks), not freshness.
- Direct.ChainAnswers: a remote's log reply for a range of numbers is complete for the chain it serves, or fails; a reply for tags may hold any logs of blocks below 2^63.
- Chainblock.GetReceipts: receipts by hash are always an error in the source, and so here; there is nothing to prove about them.
- LruStores.LruStore.Get: takes ranges that are not inverted and lie below 2^63, or between 2^63 and 2^64 - 2; a range from one side to the other overruns its capacity, and the loop over a range ending at 2^64 - 1 wraps.
- Rediblock.RediblockStore.Get: a pipeline of reads is atomic here; the server may run other commands between them.
- Rediblock.RediblockStore.Put: script numbers are unbounded integers, whereas Lua has 53 bits of precision.
- RedisRuns.EveryRunGood: keys expire at whole seconds, and the server is one database.
- Clusters.AddAgrees: a group is a value in the list of groups, where the source updates a shared record.
- Failover.Cluster.ServeRPC: counters are unbounded, while the source's 64-bit counter wraps to negative indices after 2^63 requests; concurrent requests on one group are whole requests one after another.
- Subscriptions.EveryRunOrderly: a client's context and notifier appear as the Close step and as failing notifications; the filter of a logs subscription is part of the fetch.
- LeaseRuns.EveryLeaseInOneState: covers the leases of one node; that at most one node leads is not claimed, since the flag is a stale reading of the election.
- Delays.EveryRunMeanRange: integers are unbounded, while the source multiplies in 64 bits.
- Stalking.EveryWaitBounded: assumes a block time that is not negative; the fractional configuration value is taken as nanoseconds.
- BlockNumbers.RoundTripIff: white space is the ASCII kind, and what the big-number reader makes of prefixes other than 0x, signs and underscores, or leaves behind on failure, is an arbitrary value.
- Forger.Forge: a log list whose hashes do not decode makes the source answer twice; here hashes of logs always decode.
- FlightKeys.KeyInjective: the sharing of calls itself (waiting, cancellation) is library code and not modelled.
- SimpleLru.AddSpec: the library's linked list and locks are a table with its keys in order of use.
- The remaining parts of the source: HTTP, websocket and Redis connections, wiring, configuration, metrics, the backer's timeouts, the doctor, collectors, rate limiters, filterer, oracles and the unused in-memory head store, which are input and output or add only easy members.
