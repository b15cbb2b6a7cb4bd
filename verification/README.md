# Verified models of couchbase-cxx-client

This project models the protocols and algorithms inside the Couchbase C++ client that have real
invariants, in Dafny 4.11, and proves what they keep over every run. `dafny verify dfyconfig.toml`
checks all of it.

| part | files |
|---|---|
| range-scan scheduler | `LoadBalancing`, `RangeScan` (the steps), `RangeScanInvariant`, `RangeScanScheduling`, `RangeScanDelivery` (their preservation), `RangeScanTheorems`, `RangeScanOutcomes`, `RangeScanCapacity`, `RangeScanProgress`, `RangeScanBlocking` |
| key generator | `Crc32`, `Odometer`, `KeySearch`, `KeyGenerator`, `KeyCoverage` |
| bucket routing state | `Configuration`, `SessionTable`, `Bucket`, `Retry` |
| collection-id cache | `Collections` (the handlers as functions), `CollectionsComponent` (the same, changing state), `CollectionsQueues`, `CollectionsTheorems`, `CollectionsWakers`, `CollectionsRuns`, `CollectionsNumbers` |
| codecs | `Bytes`, `RangeScanPayload`, `Masking`, `WebSocket`, `WebSocketHandler`, `WebSocketFragments` |
| operation state machines | `ColumnarErrors`, `ColumnarQuery`, `Telemetry` |
| shared | `Options`, `Reals`, `Residues`, `Sets` |

How the parts are modelled:

* The range scan is a step relation. A run is any interleaving of single steps of the manager threads
  (notify, decrement, enqueue, check, lock, look at one node, choose, count), of the streams and the
  server, and of the consumer. The server answers each create and continue call once.
* Objects whose methods update their fields are classes; loops of the source are loops here. What each
  method does is tied to a function or a predicate, and the properties are proved of those.
* Randomness (shuffles, masking keys, jitter), timers, the network and the compression library are
  parameters or events. A timer that has expired can no longer be cancelled: its handler is queued.
* `Terminated` and `Ended` stand for reading outside a `gsl::span`, which ends the program.
* Backoff arithmetic is over reals; integer widths are written out where they matter (16-bit counters,
  the 64-bit length of a frame, the 64-bit LEB128 value, the 32-bit error code).

Where the code does less than its comments or its purpose suggest, the model follows the code, and the
exact condition under which the property holds is proved:

* A node is compared by its default-network host and ports (core/topology/configuration.hxx:84-89). On
  another network two nodes can trade addresses unnoticed, and the session table is then not rebuilt:
  `Configuration.TradedAddresses`, `Bucket.TradePlaces`, and the if-and-only-if in
  `Bucket.Bucket.UpdateConfig`.
* A LEB128 length whose last byte is missing is answered with zero by the decoder; the range-scan parser
  does not look, and delivers an empty key with success: `RangeScanPayload.CutPayload` says exactly when.
  In a document payload the same cut ends the program or delivers a document without its value:
  `RangeScanPayload.CutDocuments`.
* Cancelling a scan does not wake a caller that waits inside `next()`. It waits for ever if and only if
  nothing more is on its way to it, which happens only if the scan was cancelled while it waited:
  `RangeScanBlocking.CancelledCallBlocks`, `RangeScanBlocking.BlockedExactlyWhen`,
  `RangeScanBlocking.CancelledWhileWaiting`.
* A stream that is retried because its server is busy gives its slot up unless no other is counted, so a scan
  uses its whole concurrency only until then: `RangeScanCapacity.ConcurrencyIsUsed`,
  `RangeScanCapacity.RetryGivesUpSlot`.
* The search for a key of a vbucket ends, without a length limit, if and only if the vbucket exists and its
  number has at most fifteen bits: `KeyCoverage.EveryVbucketComesUp`.
* Removing a queued request from an operation queue never succeeds, because the queue it is in is
  compared with null (core/mcbp/operation_queue.cxx:105-107): `CollectionsQueues.RemovedExactlyWhen`,
  `CollectionsQueues.NeverRemoved`. So a collection that is not found fails all its waiting requests instead
  of retrying the one that asked, as the comment beside it says it would
  (`CollectionsQueues.AskerNeverRetried`), and a request cancelled while it waits is called back and still
  sent (`CollectionsQueues.CancelledIsSent`).
* The answer to a lookup for a name of which exactly one part is empty is cached under another name. The
  requests that wait for it are sent on with the sentinel of a pending collection, and those that come
  later wait for ever: `CollectionsRuns.IncompleteNameSendsSentinel`, `CollectionsRuns.IncompleteNameNeverWakes`.
* A lookup that is refused without its callback being called leaves the request that asked in the queue with
  nobody to wake it. That is the only way: `CollectionsWakers.StepWoken`, `CollectionsWakers.StrandedByRefusal`.
* With complete names a sentinel can be sent after a reset if and only if the reset hits an entry that
  has its identifier while its lookup is outstanding, which takes a lookup from outside:
  `CollectionsRuns.SentinelExactlyAfterClash`, `CollectionsRuns.ResetAfterExternalSendsSentinel`.
* A cancelled request that may be resent is lost when its strategy gives no delay:
  `Retry.LostExactlyWhen`; with the fail-fast strategy it always is, unless the reason always retries:
  `Retry.FailFastLoses`.
* Neither a response nor the backoff timer looks whether the request has been called back. One that is
  cancelled while its answer is on its way can be sent again: `Retry.CancelledThenAnswered` says exactly when.
* `decode_frame` takes everything after the header for the payload: `WebSocket.FrameWithTrailer`.
* The last part of a message in several frames is neither added to it nor taken for its end. The message is
  called back whole if and only if that part is empty, and the one after it is refused:
  `WebSocketFragments.WholeExactlyWhen`, `WebSocketFragments.NextMessageRefused`.
* A first chunk of one byte ends the program: `WebSocketHandler.FrameInChunks`.
* An entry with code zero is passed over when the error to report is chosen:
  `ColumnarErrors.FirstSetIsFirst`, `ColumnarErrors.ZeroCodeIsPassedOver`.
* The jitter is drawn from an empty range when the configured maximum is below 100 ms:
  `Telemetry.DrawPossibleExactlyWhen`.

## Model

| member | source | states |
|---|---|---|
| LoadBalancing.Distribute | core/range_scan_load_balancer.cxx:77-90 | the queue of each node is the ascending list of the vbuckets active on it, and nodes without one have no queue |
| LoadBalancing.SharesPartition | core/range_scan_load_balancer.cxx:77-90 | the queues partition the vbuckets: each is at its active node, once, in ascending order |
| LoadBalancing.LoadBalancer.constructor | core/range_scan_load_balancer.cxx:77-90 | all counters start at zero and the board is balanced |
| LoadBalancing.LoadBalancer.SelectVbucket | core/range_scan_load_balancer.cxx:98-130 | for every shuffle: something is selected exactly when a node with work is below the counter maximum; then it is the front vbucket of a least loaded such node, the earliest in the order |
| LoadBalancing.LoadBalancer.NotifyStreamEnded | core/range_scan_load_balancer.cxx:49-54 | exactly the counter of that node goes down by one |
| LoadBalancing.LoadBalancer.EnqueueVbucket | core/range_scan_load_balancer.cxx:56-61 | the vbucket joins the back of that node's queue and nothing else changes |
| LoadBalancing.SelectionsStayBalanced | core/range_scan_load_balancer.cxx:77-130 | in any run of selections from the start no node is more than one stream ahead of a node that still has work |
| RangeScanScheduling.StepScheduled | core/range_scan_orchestrator.cxx:525-610 | every step of every thread keeps the scheduling invariant: structure, accounting and wakefulness |
| RangeScanDelivery.StepDelivering | core/range_scan_orchestrator.cxx:108-304 | every step keeps the delivery invariant: what was delivered and what is in the channel add up to what the streams handed over |
| RangeScanTheorems.RunInvariant | core/range_scan_orchestrator.cxx:395-610 | both invariants hold in every state of every run |
| RangeScanTheorems.EveryVbucketAccountedFor | core/range_scan_orchestrator.cxx:525-610 | each vbucket is in one phase, and is queued exactly when it is in the queue of its active node, once, and in no other |
| RangeScanTheorems.BudgetKept | core/range_scan_orchestrator.cxx:525-610 | streams in progress, freed slots and unspent initial starts never exceed the concurrency; no counter is negative or above the streams in progress |
| RangeScanTheorems.StepsAreDefined | core/range_scan_orchestrator.cxx:525-610 | no counter is decremented at zero, and the lookups by vbucket and by node always find their key |
| RangeScanTheorems.SelectionFindsWork | core/range_scan_load_balancer.cxx:98-130 | although nodes are examined one by one while others run, the node chosen still has work when it is fetched from |
| RangeScanTheorems.NoLostWakeup | core/range_scan_orchestrator.cxx:525-610 | in every uncancelled state with a vbucket queued, a stream is in progress, or a thread has yet to check or select, is selecting with work still ahead of it, or is about to cancel the scan |
| RangeScanTheorems.TaskCanStep | core/range_scan_orchestrator.cxx:525-610 | a manager thread has a next step, or waits for the lock of one that has |
| RangeScanTheorems.NeverStalls | core/range_scan_orchestrator.cxx:525-610 | when only the consumer can move on an uncancelled scan, every vbucket has been scanned to its end |
| RangeScanTheorems.NextNeverBlocks | core/range_scan_orchestrator.cxx:477-523 | on an uncancelled scan a caller inside next always has something other than cancellation to wait for |
| RangeScanBlocking.BlockedExactlyWhen | core/range_scan_orchestrator.cxx:477-523 | in every run a caller inside next has nothing but cancellation to wait for if and only if it waits for an item, none is in the channel, no thread is left and no stream has a request outstanding; the scan is then cancelled |
| RangeScanBlocking.BlockedForEver | core/range_scan_orchestrator.cxx:451-457 | from then on nothing changes |
| RangeScanBlocking.CancelledWhileWaiting | core/range_scan_orchestrator.cxx:451-523 | a caller that waits on a cancelled scan was waiting when it was cancelled: a call made later does not wait |
| RangeScanBlocking.CancelledCallBlocks | core/range_scan_orchestrator.cxx:451-523 | for every limit and kind of scan there is a run in which the caller is blocked |
| RangeScanProgress.StepLowers | core/range_scan_orchestrator.cxx:108-610 | a rank over threads and vbuckets: every step of a thread, stream or server lowers it, except that a busy server gives a bounded amount back; data, requests for more, the consumer and cancellation never raise it |
| RangeScanTheorems.BehavesTakes | core/range_scan_orchestrator.cxx:395-610 | every run takes a list of actions, so what is said of actions is about every run |
| RangeScanProgress.WorkIsBounded | core/range_scan_orchestrator.cxx:395-610 | a scan ends: over any run, under any interleaving, with v vbuckets and n nodes, threads, streams and servers take at most v(4n + 18) + 2n + 3 steps, plus 4n + 16 for each time a server was too busy, besides data and requests for more |
| RangeScanTheorems.CompletionIsComplete | core/range_scan_orchestrator.cxx:477-523 | when next finds no stream left on an uncancelled scan, what was delivered of each vbucket is exactly the items that the server sent for it, read off the actions of the run, in order and once |
| RangeScanTheorems.LimitIsReached | core/range_scan_orchestrator.cxx:477-523 | when next finds the limit used up on an uncancelled scan, exactly the limit has been delivered unless a stream failed or next had already reported the end, and then everything that the server sent has |
| RangeScanTheorems.DeliveredInOrder | core/range_scan_orchestrator.cxx:477-523 | in every state of every run, cancelled or not, what was delivered of a vbucket is a prefix of the items that the server sent for it before the cancellation |
| RangeScanTheorems.AtMostLimit | core/range_scan_orchestrator.cxx:477-523 | over any run no more items than the limit are delivered |
| RangeScanTheorems.StartsFromTheBeginning | core/range_scan_orchestrator.cxx:108-181 | a stream that is about to start, also after a retry, has not emitted anything: there is no last seen key |
| RangeScanTheorems.StepAdds | core/range_scan_orchestrator.cxx:451-564 | every step hands over exactly the item that arrives with it, on a scan that is not cancelled, and otherwise nothing; it cancels the scan exactly if it is a cancellation, a call beyond the limit or the end of a fatal failure |
| RangeScanTheorems.EmittedIsSent | core/range_scan_orchestrator.cxx:282-304 | over every run each stream has handed over exactly the items that the server sent it, in order, while the scan was not cancelled |
| RangeScanOutcomes.StepExplained | core/range_scan_orchestrator.cxx:108-304 | every step keeps every outcome, from the end of a stream to the signal in the channel, one that a reply or a timeout has given |
| RangeScanOutcomes.EndedBecause | core/range_scan_orchestrator.cxx:108-245 | in every run a vbucket is done only if the server reported it done or without documents, or reported what a sampling scan tolerates; it has failed only if a fatal error was reported for it |
| RangeScanOutcomes.ErrorsAreReported | core/range_scan_orchestrator.cxx:566-610 | in every run an error on its way to the caller is one that was reported for that vbucket |
| RangeScanOutcomes.CompletionIsReported | core/range_scan_orchestrator.cxx:477-523 | when next finds no stream left on an uncancelled scan, every vbucket was reported done, or passed over as its error allows |
| RangeScanCapacity.ConcurrencyIsUsed | core/range_scan_orchestrator.cxx:525-610 | in every run in which no server was too busy and nothing failed, as long as a vbucket is left to start, streams in progress, freed slots and unspent initial starts are exactly the concurrency; once no thread is left, that many streams are in progress |
| RangeScanCapacity.RetryGivesUpSlot | core/range_scan_orchestrator.cxx:588-610 | the slot of a stream that is to be retried is given up unless no other stream is counted |
| RangeScanCapacity.SelectsLeastLoaded | core/range_scan_load_balancer.cxx:98-130 | a thread that selects without being disturbed takes the front vbucket of a least loaded node with work, in whatever order it looks at the nodes, and gives up exactly if there is no work |
| RangeScanCapacity.StepQueues | core/range_scan_load_balancer.cxx:49-75 | every step of every thread leaves each queue as it is, takes its front, or adds a retried vbucket at its back |
| Crc32.TableCorrect | tools/key_generator.cxx:36-72 | every one of the 256 table entries is eight bit steps of its index |
| Crc32.ByteStepSplits | tools/key_generator.cxx:74-80 | eight bit steps are linear: the low byte through the table, exclusive-or the rest shifted |
| Crc32.HashCrc32 | tools/key_generator.cxx:74-82 | for every byte string the table-driven loop computes the bit-at-a-time reflected CRC-32 with polynomial 0xEDB88320 (section 8 of RFC 1952), complemented, shifted right by 16 and masked with 0x7fff |
| Crc32.DigestBound | tools/key_generator.cxx:81-82 | the digest has fifteen bits |
| Crc32.DigestBits | tools/key_generator.cxx:81-82 | bit i of the digest is the complement of bit 16 + i of the register |
| Crc32.CheckValue | tools/key_generator.cxx:74-82 | the digits from one to nine have the CRC-32 0xcbf43926, the check value of the standard, and the digest 0x4bf4 |
| KeyGenerator.MapKeyToVbucket | tools/key_generator.cxx:84-89 | the digest is a multiple of the number of vbuckets plus the vbucket, which exists; the cast to 16 bits loses nothing |
| KeyGenerator.VbucketOf | tools/key_generator.cxx:84-89 | a key maps to a vbucket that exists |
| KeyGenerator.SharedVbucket | tools/key_generator.cxx:84-89 | two keys share a vbucket if and only if their digests are a multiple of the number of vbuckets apart |
| KeyGenerator.BytesAre | tools/key_generator.cxx:74-82 | each character is hashed as its low byte, in order |
| KeyGenerator.DefaultSymbols | tools/key_generator.cxx:91-96 | the alphabet is the digits and the letters of both cases, in ascending order |
| Odometer.UpdateState | tools/key_generator.cxx:98-118 | the loop over the symbols yields the successor of the state, in both modes; the rotation at the end changes nothing |
| Odometer.SuccessorAdds | tools/key_generator.cxx:98-118 | with fixed length the state advances by one modulo b^n |
| Odometer.SuccessorRanks | tools/key_generator.cxx:98-118 | with growing length the state advances by one in bijective base b |
| Odometer.FixedPeriod | tools/key_generator.cxx:98-148 | with fixed length the state comes back after b^n calls |
| Odometer.FixedDistinct | tools/key_generator.cxx:98-148 | any b^n consecutive fixed-length states are different |
| Odometer.FixedExhausts | tools/key_generator.cxx:98-148 | from any state every state of that length comes up within b^n calls |
| Odometer.ComesUpAgain | tools/key_generator.cxx:98-148 | and again within b^n calls of any point of the stream |
| Odometer.GrowingDistinct | tools/key_generator.cxx:98-148 | with growing length no state ever comes back |
| Odometer.GrowingExhausts | tools/key_generator.cxx:98-148 | with growing length every string comes up, after as many calls as its rank says |
| KeyGenerator.ShuffledAlphabet | tools/key_generator.cxx:135-140 | a shuffled alphabet has the same symbols, once each |
| KeyGenerator.Generator.Make | tools/key_generator.cxx:122-141 | an error exactly when there is a prefix and it leaves no room; otherwise a valid generator at the start of its stream, with the settings asked for |
| KeyGenerator.Generator.constructor | tools/key_generator.cxx:122-141 | the stream of keys is the prefix followed by the states of the odometer, from as many zeros as fit, or from nothing |
| KeyGenerator.FirstKey | tools/key_generator.cxx:132-148 | the first key: the first symbol without a length; with one, the zeros with the symbol after zero in front, or the first symbol all over where zero is the last |
| KeyGenerator.Generator.NextKey | tools/key_generator.cxx:143-148 | the next key of the stream |
| KeyGenerator.Generator.NextKeyFor | tools/key_generator.cxx:169-177 | if a key for the vbucket is to come, the first one is returned and none is skipped over |
| KeyGenerator.Generator.NextKeysFor | tools/key_generator.cxx:150-197 | if that many are to come, exactly the next so many keys for the vbucket, in order |
| KeyGenerator.Generator.NextDistinctKeysFor | tools/key_generator.cxx:150-197 | if that many different ones are to come, exactly so many different keys for the vbucket, in lexicographic order |
| KeySearch.MoreToFind | tools/key_generator.cxx:150-197 | while the result is short of what a position of the stream holds, that position is ahead and a further hit exists: the loops end |
| KeySearch.Resume | tools/key_generator.cxx:150-197 | a search that goes on from where it stopped adds exactly the key it stops at |
| KeySearch.Insert | tools/key_generator.cxx:179-197 | inserting into an ordered set keeps it ordered and adds exactly that key, unless it is there |
| KeyGenerator.FixedFindable | tools/key_generator.cxx:169-177 | with fixed length the search for a key ends if and only if some suffix of that length maps to the vbucket, and then within b^n steps |
| KeyGenerator.GrowingFindable | tools/key_generator.cxx:169-177 | with growing length the search ends if and only if some suffix ranked after the present one maps to the vbucket |
| KeyGenerator.GrowingPlentiful | tools/key_generator.cxx:179-197 | with growing length the search for different keys ends if and only if that many matching keys are still to come |
| KeyGenerator.GrowingRepeatable | tools/key_generator.cxx:179-197 | and allowing repetition makes no difference |
| KeyGenerator.NoSuchVbucket | tools/key_generator.cxx:169-177 | a search for a vbucket at or above the number of vbuckets or 0x8000 never ends |
| KeyCoverage.AnyDigest | tools/key_generator.cxx:74-82 | whatever the data begins with, 23 digits, each zero or one, can be put behind it to give any of the 0x8000 digests |
| KeyCoverage.EveryVbucketComesUp | tools/key_generator.cxx:169-177 | with growing length the search for a vbucket ends if and only if its number is below the number of vbuckets and below 0x8000 |
| KeyCoverage.AnyNumberComesUp | tools/key_generator.cxx:179-197 | and then the search for any number of keys, different or not, ends |
| KeyGenerator.FirstHitInPeriod | tools/key_generator.cxx:169-177 | the key that the search returns is at most b^n steps away |
| KeyGenerator.FixedRound | tools/key_generator.cxx:179-197 | b^n steps find exactly the keys of that length that map to the vbucket |
| KeyGenerator.FixedPlentiful | tools/key_generator.cxx:179-197 | the search for different keys ends if and only if at least that many suffixes match |
| KeyGenerator.FixedRepeatable | tools/key_generator.cxx:179-197 | with repetition allowed it ends if and only if one suffix matches, or nothing is asked for |
| KeyGenerator.FixedCapacity | tools/key_generator.cxx:150-167 | there are exactly b^n different keys: asking for more never ends |
| KeyGenerator.GrowingCapacity | tools/key_generator.cxx:150-167 | without a fixed length any number of different keys can be had, each call giving a new one |
| Configuration.KvAddressesFirst | core/bucket.cxx:835-935 | with the key-value nodes first, the k-th key-value node is the node with index k |
| Configuration.DiffNodes | core/bucket.cxx:730-752 | exactly the nodes of the second list whose address the first does not have |
| Configuration.SameNodesSameAddresses | core/bucket.cxx:805-815 | on the default network nodes that look the same have the same addresses in the same order |
| Configuration.TradedAddresses | core/bucket.cxx:805-815 | on another network they need not: whatever their addresses, two nodes that trade them look the same |
| Configuration.PairAddresses | core/bucket.cxx:805-815 | the addresses of these nodes on that network, in the order in which they are listed |
| Configuration.AddressReads | core/topology/configuration.cxx:31-160 | the address is that of the alternate network if the node has one, else the default one; the port is that of the transport in use, zero for none |
| Configuration.LessIsTotal | core/topology/configuration.hxx:162-165 | revisions are strictly and totally ordered |
| Configuration.LessIsLexicographic | core/topology/configuration.hxx:162-165 | the order is the lexicographic one of the pairs of epoch and revision number, a missing number counting below every other |
| Configuration.AfterIsMaximum | core/bucket.cxx:759-834 | after any non-empty list of unforced configurations with partition maps, the one installed was delivered and none delivered is newer |
| Configuration.OrderDoesNotMatter | core/bucket.cxx:759-834 | two deliveries of the same configurations in any order and multiplicity end with the same revision |
| Configuration.AfterIsNewest | core/bucket.cxx:759-834 | with a configuration in place, the result is the newest of it and those delivered |
| Configuration.InstalledIsMaximum | core/bucket.cxx:759-834 | after any unforced configurations with partition maps, on top of any or none, the pair of epoch and revision number installed is the lexicographic maximum of all of them |
| Configuration.AcceptedIncrease | core/bucket.cxx:759-834 | the unforced revisions accepted strictly increase, from the one in place on, and the last one is installed |
| Configuration.StaysUsable | core/bucket.cxx:759-834 | an empty partition map is never installed; a configuration is installed if and only if there was one or a usable one came, and is never unset |
| SessionTable.FindAddress | core/bucket.cxx:437-442 | the lowest slot with that address, or none if there is none |
| SessionTable.RebuildReuse | core/bucket.cxx:846-864 | taking over a session for the next node keeps the meaning of a partly rebuilt table |
| SessionTable.RebuiltKeepsSurvivors | core/bucket.cxx:835-935 | from a table in order, a session goes on if and only if its address survives; exactly the others are left over |
| SessionTable.RebuiltAddsOnlyMissing | core/bucket.cxx:866-920 | a session is new if and only if its node had none |
| Bucket.Rebuild | core/bucket.cxx:835-922 | from any table: the new one has every session in the slot of its node, keeps the lowest session of each surviving address, adds sessions only for nodes without one (none if connections are lazy), and leaves over exactly the rest |
| Bucket.Restart | core/bucket.cxx:421-519 | from any table every key-value node ends up in its slot; where each has a session already, so it does for any order of the nodes, without opening or losing one; a table in order loses and moves nothing |
| Bucket.RestartStep | core/bucket.cxx:437-519 | moving, swapping or opening one session leaves the slots before it right |
| Bucket.Unchanged | core/bucket.cxx:805-818 | the comparison of added, removed and reordered nodes decides whether the nodes look the same |
| Bucket.Bucket.UpdateConfig | core/bucket.cxx:759-936 | an unforced update with a partition map is installed if and only if its epoch is greater, or equal with a greater revision number, a missing number being below every number; the first usable one and a forced one always are, an empty map never; the table is rebuilt exactly when the nodes look different; exactly the leftovers are stopped; a table in order stays in order if and only if there was no configuration, the nodes look different, or every occupied slot keeps its address, and always on the default network |
| Bucket.TradePlaces | core/bucket.cxx:759-936 | for any two hosts: after two nodes trade addresses, the session in the first slot is the one of the second node |
| Bucket.Bucket.Bootstrap | core/bucket.cxx:546-584 | the first session, wherever it put itself, is in the slot of its node or stopped |
| Bucket.Bucket.RestartSessions | core/bucket.cxx:421-519 | afterwards every key-value node has its session in its slot; in-order tables keep every session |
| Bucket.Bucket.RemoveSession | core/bucket.cxx:521-545 | exactly the session with that identifier goes; a restart is posted exactly if it was there |
| Bucket.Bucket.ConnectSession | core/bucket.cxx:374-419 | a new session in the slot of that node, which keeps the table in order |
| Bucket.Bucket.FetchConfig | core/bucket.cxx:641-676 | one poll ends after probing every residue once, asks the last eligible one, and asks one if and only if some slot below the table size is eligible |
| Bucket.LastEligible | core/bucket.cxx:641-676 | a probe finds a session if and only if some residue probed is eligible |
| Bucket.LastIsLast | core/bucket.cxx:641-676 | no probe after the one asked met a session that is up and answers |
| Bucket.RoundProbesAll | core/bucket.cxx:653-665 | a full round of probes covers every slot below the table size |
| Bucket.PollsMoveOn | core/bucket.cxx:653-665 | in a full table of eligible sessions each poll asks the slot after the one before |
| Bucket.PollsAreFair | core/bucket.cxx:653-665 | any n successive polls ask each of the n sessions exactly once |
| Retry.ControlledBackoff | core/impl/best_effort_retry_strategy.cxx:37-60 | between 1 and 1000 ms, never falling with the attempts |
| Retry.ControlledDelays | core/impl/best_effort_retry_strategy.cxx:37-60 | 1, 10, 50, 100 and 500 ms, and one second from then on |
| Retry.ExponentialBackoff | core/impl/best_effort_retry_strategy.cxx:62-86 | between minimum and maximum, with 1 ms and 500 ms in place of those not given, and the minimum where the maximum is below it |
| Retry.ExponentialDelay | core/impl/best_effort_retry_strategy.cxx:62-86 | the minimum times a power of the factor, without its fraction, within the limits |
| Retry.ExponentialDefaults | core/impl/best_effort_retry_strategy.cxx:62-86 | settings that are not positive stand for 1 ms, 500 ms and doubling |
| Reals.ScaledIs | core/impl/best_effort_retry_strategy.cxx:62-86 | multiplying step by step is multiplying by the power |
| Retry.RetriedRegardless | core/retry_orchestrator.cxx:28-59 | exactly a wrong vbucket, an outdated collection and a view without partitions are retried whatever the strategy, after the controlled delay |
| Retry.UnsafeReasons | core/impl/best_effort_retry_strategy.cxx:93-101 | best effort retries every idempotent request, and any other except for an unknown reason, a socket closed in flight or none |
| Retry.StatusDecides | core/bucket.cxx:150-185 | each status is followed as its own reason, called back exactly if that gets no delay; a lock is no reason to repeat an unlock |
| Retry.BrokenOff | core/bucket.cxx:116-148 | an aborted request is called back with a timeout, ambiguous unless it is idempotent; a cancelled one is called back only if it is not, and for an unsafe reason |
| Retry.LostExactlyWhen | core/bucket.cxx:138-148 | for any strategy, a response yields neither callback nor retry if and only if it cancels a resendable request that gets no delay |
| Retry.FailFastLoses | core/impl/fail_fast_retry_strategy.cxx:29-34 | with the fail-fast strategy a cancelled idempotent request is lost if and only if its reason is not one that always retries |
| Retry.ProvidedStrategiesLoseNothing | core/impl/best_effort_retry_strategy.cxx:37-101 | with the calculators provided no request is ever lost |
| Retry.BestEffortStrategy | core/impl/best_effort_retry_strategy.cxx:93-101 | best effort meets the assumptions made of strategies, the second exactly when its calculator never answers zero |
| Retry.Request.ShouldRetry | core/retry_orchestrator.cxx:28-59 | the delay is the one for the reason and the attempts so far; an attempt and its reason are recorded if and only if it is not zero |
| Retry.Request.BackoffAndRetry | core/bucket.cxx:302-319 | a retry is scheduled, for that reason, if and only if there is a delay; attempts stay equal to the retries scheduled |
| Retry.Request.ResolveResponse | core/bucket.cxx:116-185 | exactly one of callback, reschedule and loss, as the reaction says; attempts and reasons stay those of the retries scheduled, and the callback is called at most once |
| Retry.Request.DirectDispatch | core/bucket.cxx:206-241 | a closed bucket cancels; without a configuration or session the request is deferred; a stopped session leads to a retry if and only if there is a delay; otherwise it is in flight |
| Retry.Request.DirectReQueue | core/bucket.cxx:243-300 | the request ends up deferred, in flight, waiting for a retry or called back with the error, as routing, the delay and encoding decide; whether it was called back before plays no part |
| Retry.Request.RecordRetryAttempt | core/mcbp/queue_request.cxx:68-74 | one more attempt, with its reason |
| Retry.Request.TryCallback | core/mcbp/queue_request.cxx:156-184 | the callback is called once, with the first error |
| Retry.Request.Cancel | core/mcbp/queue_request.cxx:107-140 | called back unless it was; it stays where it is if it is deferred, or if its answer or timer can no longer be called off |
| Retry.CancelledThenAnswered | core/bucket.cxx:116-300 | a request cancelled while its answer is on its way is called back once, with that error, and is in flight again if and only if the answer asks for a retry and a live session takes it |
| Bytes.BigEndianRoundTrip | core/mcbp/big_endian.cxx:22-81 | reading back a number written in that many bytes |
| Bytes.BigEndianAt | core/mcbp/big_endian.cxx:22-81 | byte j of a number in k bytes is its multiple of 256 to the power k - 1 - j, modulo 256 |
| Bytes.SwappedLoad | core/websocket_codec.cxx:459-483 | loading into a little-endian word and swapping its bytes reads a big-endian number |
| Bytes.EncodeLeb128 | core/utils/unsigned_leb128.hxx:129-145 | the loop writes the unsigned LEB128 form |
| Bytes.DecodeLeb128 | core/utils/unsigned_leb128.hxx:53-79 | the loop reads it, to 64 bits; zero and nothing left if the last byte is missing |
| Bytes.Leb128RoundTrip | core/utils/unsigned_leb128.hxx:53-145 | reading back a number, whatever follows it |
| Bytes.Leb128Truncated | core/utils/unsigned_leb128.hxx:53-79 | the last byte is missing if and only if every byte announces another |
| Bytes.Leb128Announces | core/utils/unsigned_leb128.hxx:129-145 | every byte of the form but the last announces another |
| Bytes.Leb128At | core/utils/unsigned_leb128.hxx:129-145 | byte j holds the j-th seven bits of the number, and there are just as many bytes as it needs |
| RangeScanPayload.ParseRangeScanKeys | core/crud_component.cxx:137-159 | the loop, each iteration of which shortens the data, parses item by item |
| RangeScanPayload.KeysRoundTrip | core/crud_component.cxx:137-159 | for every list of keys, parsing its encoding delivers exactly that list with success |
| RangeScanPayload.ItemsCancelled | core/crud_component.cxx:137-220 | a request cancelled after n items has delivered exactly the first n, without an error |
| RangeScanPayload.MissingLengthByte | core/crud_component.cxx:137-159 | a length without its last byte delivers an empty key with success |
| RangeScanPayload.MissingKeyByte | core/crud_component.cxx:145-149 | a key cut short is a protocol error after the keys before it |
| RangeScanPayload.CutPayload | core/crud_component.cxx:137-159 | keys followed by one cut anywhere: an error after the keys before it if and only if the whole length arrived; otherwise success with one more key, which is empty |
| RangeScanPayload.ParseRangeScanDocuments | core/crud_component.cxx:161-220 | the loop over the documents parses item by item |
| RangeScanPayload.HeaderRoundTrip | core/crud_component.cxx:172-186 | the fixed part of a document is read back field by field |
| RangeScanPayload.HeaderBytes | core/crud_component.cxx:172-186 | flags, expiry, sequence number and CAS in 4, 4, 8 and 8 bytes, the highest first, and the kind |
| RangeScanPayload.Expanded | core/crud_component.cxx:205-212 | a value marked as compressed that the library can expand comes out expanded with exactly that mark cleared; any other document is unchanged |
| RangeScanPayload.DocumentsRoundTrip | core/crud_component.cxx:161-220 | for every list of documents, compressed or not, parsing its encoding delivers exactly those, each expanded, in order and with success |
| RangeScanPayload.CutDocuments | core/crud_component.cxx:161-220 | documents followed by one cut anywhere: the program ends if the cut is right after the header, inside the key length or right after the key; a cut inside the value length delivers the document without its value; every other cut is an error after the documents before it |
| Masking.MaskPayload | core/websocket_codec.cxx:142-148 | in place, every bit of every byte from the offset on is turned if and only if the key byte whose turn it is has it set; no other byte changes |
| Masking.XorAt | core/websocket_codec.cxx:142-148 | a bit of the exclusive or is set if and only if the two bits differ |
| Masking.MaskedTwice | core/websocket_codec.cxx:142-148 | masking twice gives the payload back |
| WebSocket.LengthRoundTrip | core/websocket_codec.cxx:429-483 | the three forms of the payload length are read back |
| WebSocket.EncodeFrame | core/websocket_codec.cxx:561-579 | the loop writes the frame |
| WebSocket.FrameBytes | core/websocket_codec.cxx:429-579 | the bytes of every frame as section 5.2 of RFC 6455 has them: the final bit and the opcode, the mask bit and the length in its shortest form, the key, and each byte of the message turned by its key byte |
| WebSocket.FrameRoundTrip | core/websocket_codec.cxx:485-579 | for every key, every text or binary message and every control message of at most 125 bytes, decoding the frame gives opcode, message and full consumption |
| WebSocket.FramePrefix | core/websocket_codec.cxx:485-540 | every strict prefix of at least two bytes needs more data |
| WebSocket.FrameWithTrailer | core/websocket_codec.cxx:544-559 | whatever follows the frame is unmasked onto the end of the message |
| WebSocket.MalformedExactlyWhen | core/websocket_codec.cxx:485-513 | a frame is refused if and only if a reserved bit is set, a control frame is in parts or longer than 125 bytes, or a text or binary frame comes inside another message |
| WebSocket.ServerFrameDecoded | core/websocket_codec.cxx:485-559 | every frame of a server that is not to be refused, final or not, comes out as it was sent |
| WebSocketHandler.DataHandler.Feed | core/websocket_codec.cxx:207-284 | the loop does what one decoding of the collected bytes says, since a frame takes all of them |
| WebSocketHandler.FrameInChunks | core/websocket_codec.cxx:207-257 | one frame in any chunks gives exactly one callback with its message if and only if the first chunk that is not empty has at least two bytes |
| WebSocketHandler.FramesInOrder | core/websocket_codec.cxx:207-257 | frames whose chunks do not mix are called back in order, once each |
| WebSocketFragments.LastPartDropped | core/websocket_codec.cxx:232-272 | for every message in any number of frames the callback gets all parts but the last, and the handler keeps them |
| WebSocketFragments.WholeExactlyWhen | core/websocket_codec.cxx:258-272 | so it gets the message if and only if the last part is empty |
| WebSocketFragments.NextMessageRefused | core/websocket_codec.cxx:485-502 | after that every text or binary frame is refused |
| WebSocketFragments.ControlBetween | core/websocket_codec.cxx:249-257 | a control frame between the parts of a message is called back, and the parts are kept |
| WebSocketFragments.StrayRefused | core/websocket_codec.cxx:258-280 | a continuation of nothing and a frame with a reserved opcode fail the connection |
| WebSocketFragments.FailureStays | core/websocket_codec.cxx:177-195 | a failed handler only reports the failure again, once for each chunk |
| CollectionsComponent.Component.DispatchRequest | core/collections_component.cxx:311-380 | the request is sent on with exactly the identifier cached for its name if there is one and its body parses; otherwise it is queued behind a lookup or refused |
| CollectionsComponent.Component.RefreshCollectionId | core/collections_component.cxx:382-398 | the entry is marked pending and its lookup started, or marked unknown again |
| CollectionsComponent.Component.ReQueueRequest | core/collections_component.cxx:236-246 | reset, then dispatch; a refused request is called back unless it is completed |
| CollectionsComponent.Component.LookupSucceeded | core/collections_component.cxx:253-269 | the identifier is cached, then the whole queue is sent on |
| CollectionsComponent.Component.LookupFailed | core/collections_component.cxx:399-434 | for a collection not found the request that asked is taken out if it can be; unless it is retried, the entry leaves the cache and the queue is called back, but for completed requests |
| CollectionsComponent.Component.UpsertId | core/collections_component.cxx:190-208 | the cached entry gets the identifier, or a new one is cached with it |
| CollectionsComponent.Component.PushRequest | core/mcbp/operation_queue.cxx:66-95 | a request joins the back if and only if the queue is not full and it is in no queue and not completed |
| CollectionsComponent.Component.RemoveRequest | core/mcbp/operation_queue.cxx:97-116 | the first occurrence goes, if the request has no owner |
| CollectionsComponent.Component.CancelRequest | core/mcbp/queue_request.cxx:107-140 | a request that is not completed is called back, after its queue was asked to remove it |
| CollectionsComponent.Component.CallBackAll | core/mcbp/queue_request.cxx:156-184 | every request of the queue is completed, and those that were not are called back in order |
| CollectionsQueues.RemovedExactlyWhen | core/mcbp/operation_queue.cxx:97-116 | in any state a request is removed if and only if it is in the queue and believes itself in none |
| CollectionsQueues.StepSound | core/mcbp/operation_queue.cxx:66-165 | every handler keeps the queues sound: a request is in a queue if and only if it believes itself there, and then once |
| CollectionsQueues.RunSound | core/mcbp/operation_queue.cxx:66-165 | so they are in every state of every run, whatever the events |
| CollectionsQueues.NeverRemoved | core/mcbp/operation_queue.cxx:97-116 | with sound queues nothing is ever removed |
| CollectionsQueues.RunCalls | core/mcbp/queue_request.cxx:107-184 | in every run, whatever the events, the completed requests are exactly those called back, each once |
| CollectionsQueues.FailIs | core/collections_component.cxx:399-434 | a failed lookup drains the queue into the callbacks whatever the error and whether or not a retry could be scheduled |
| CollectionsQueues.CancelIs | core/mcbp/queue_request.cxx:107-140 | cancelling leaves every queue as it is |
| CollectionsQueues.AskerNeverRetried | core/collections_component.cxx:399-434 | in no run does it matter whether the request that asked could be retried: its entry leaves the cache |
| CollectionsQueues.RetriedIfRemoved | core/collections_component.cxx:399-434 | in a state in which the request that asked could be taken out, it alone would leave the queue and nobody be called back |
| CollectionsQueues.WaitsForLookup | core/collections_component.cxx:382-465 | a queued request stays queued through every event but the end of a lookup for its entry, also when it is cancelled |
| CollectionsQueues.DispatchJoins | core/collections_component.cxx:342-398 | in any state a dispatched request joins the back of the queue of its collection if and only if there is room, it waits nowhere, is not completed and has no identifier; it starts a lookup exactly if nobody has |
| CollectionsQueues.CancelledIsSent | core/collections_component.cxx:436-456 | in every run a request cancelled while it waits is sent when the lookup succeeds and its body parses, although it has been called back |
| CollectionsTheorems.StepAwaits | core/collections_component.cxx:94-465 | every handler, on complete names, keeps a lookup outstanding for every cached pending entry |
| CollectionsTheorems.RunAwaits | core/collections_component.cxx:94-465 | so it is in every state of every run with complete names |
| CollectionsTheorems.StepKeeps | core/collections_component.cxx:94-465 | every handler keeps the whole invariant of the cache, unless a reset clashes: one lookup for each entry, only for cached ones, waiting requests only in cached ones, no sentinel sent |
| CollectionsTheorems.RunInvariant | core/collections_component.cxx:94-465 | it holds in every state of every run with complete names in which no reset clashes; without lookups from outside none does |
| CollectionsWakers.StepWoken | core/collections_component.cxx:382-465 | from a state in which every waiting request has a lookup for its entry, an event with a complete name leaves one without if and only if a lookup is refused without its callback, for an entry that has no other |
| CollectionsWakers.WokenExactlyUnless | core/collections_component.cxx:382-465 | so it is in every run with complete names, with lookups from outside and resets of any kind |
| CollectionsWakers.StrandedByRefusal | core/collections_component.cxx:382-465 | in every run with complete names a waiting request without a lookup goes back to such a refusal |
| CollectionsWakers.WaitingHasWaker | core/collections_component.cxx:382-465 | in every run with complete names and without refusals every waiting request has an outstanding lookup for its entry |
| CollectionsRuns.PendingHasItsLookup | core/collections_component.cxx:342-398 | in every run with complete names a cached pending entry has an outstanding lookup |
| CollectionsRuns.AtMostOneLookup | core/collections_component.cxx:342-398 | while no reset clashes no entry has two lookups, and only cached entries have one |
| CollectionsRuns.ExactlyOneLookup | core/collections_component.cxx:342-398 | without lookups from outside, whatever the resets, a cached entry is pending if and only if it has its one lookup |
| CollectionsRuns.NoSentinelSent | core/collections_component.cxx:114-131 | while no reset clashes no request is ever sent on with the unknown or pending sentinel |
| CollectionsRuns.SentinelExactlyAfterClash | core/collections_component.cxx:94-131 | after any run without a clash, a reset can be followed by a sentinel being sent, with no other reset, if and only if it clashes |
| CollectionsRuns.ResetAfterExternalSendsSentinel | core/collections_component.cxx:184-208 | for every complete name there is such a run |
| CollectionsRuns.SentinelExactlyWhen | core/collections_component.cxx:436-456 | in any state, the identifier sent by a lookup is real if and only if it was cached for that very entry or the entry had one |
| CollectionsRuns.FailureDrains | core/collections_component.cxx:399-434 | the end of a failed lookup empties its queue: exactly the requests not completed before are called back, once each |
| CollectionsRuns.SuccessDrains | core/collections_component.cxx:436-456 | the end of a lookup that succeeds empties its queue: exactly those whose body parses are sent on, with one identifier |
| CollectionsRuns.StaleResetHarmless | core/collections_component.cxx:94-100 | a reset and dispatch on a pending entry queues the request or calls it back, and changes nothing else |
| CollectionsRuns.IncompleteNameSendsSentinel | core/collections_component.cxx:274-277 | for every name with exactly one part empty there is a run that sends a sentinel |
| CollectionsRuns.StuckStays | core/collections_component.cxx:253-277 | an entry for an incomplete name that is pending without a lookup stays so through every event, and its queue only grows |
| CollectionsRuns.IncompleteNameNeverWakes | core/collections_component.cxx:253-277 | for every such name there is a run after which, however it goes on, a request waits without any lookup to wake it |
| CollectionsNumbers.DispatchSends | core/collections_component.cxx:342-380 | in any state a dispatch sends the request on, with the number cached for its name, if there is one and the body parses, and otherwise nothing |
| CollectionsNumbers.ReQueueSendsNothing | core/collections_component.cxx:236-246 | a reset forgets the number, so the request is not sent at once |
| CollectionsNumbers.SuccessCaches | core/collections_component.cxx:190-208 | the number looked up is cached for the name asked for, and no other entry changes its number |
| CollectionsNumbers.QueueNumberExactly | core/collections_component.cxx:253-269 | the queue is sent with the number looked up if and only if that was cached for this very entry, or the entry had it |
| CollectionsNumbers.ForwardsWhole | core/collections_component.cxx:114-131 | where every body parses the whole queue is sent, in order |
| CollectionsNumbers.CachedIsLatest | core/collections_component.cxx:184-208 | in every state of every run a number cached for a name is the latest that a lookup brought for it |
| CollectionsNumbers.DispatchedWithLatest | core/collections_component.cxx:342-380 | so in every run a request that is dispatched is sent with the latest number brought for its collection, or not yet |
| CollectionsNumbers.QueueWithItsNumber | core/collections_component.cxx:436-456 | while no reset clashes a queue is sent with the number that its lookup brought |
| CollectionsNumbers.RunSourced | core/collections_component.cxx:184-269 | in every run, whatever the events, every number that an entry has was brought for its name before |
| CollectionsNumbers.QueueWithBroughtNumber | core/collections_component.cxx:436-456 | so a queue is never sent with a number that was not brought for its collection |
| ColumnarErrors.ParseError | core/columnar/query_component.cxx:337-461 | no error for none, a generic one for anything malformed, otherwise the verdict: code, all entries listed, retriable if and only if all are, the reported entry exactly for a query error |
| ColumnarErrors.LastTellingCode | core/columnar/query_component.cxx:436-447 | the last entry with code 20000 or 21002 makes the error one of credentials or a timeout |
| ColumnarErrors.NoTellingCode | core/columnar/query_component.cxx:359-447 | without such an entry it is one of credentials for status 401 and a query error otherwise |
| ColumnarErrors.FirstSetIsFirst | core/columnar/query_component.cxx:428-435 | for any entries: the first, or the first not retriable, among those with a code that is not zero |
| ColumnarErrors.ReportedIsFirst | core/columnar/query_component.cxx:449-458 | with codes that are not zero, the first entry that is not retriable is reported, or else the first |
| ColumnarErrors.ZeroCodeIsPassedOver | core/columnar/query_component.cxx:428-435 | a first entry that is not retriable is not reported if its code is zero |
| ColumnarQuery.Query.constructor | core/columnar/query_component.cxx:164-179 | the deadline is armed before the first request; a refused request calls back with a failure and disarms it |
| ColumnarQuery.Query.Dispatch | core/columnar/query_component.cxx:80-162 | one more request; a refused one disarms the timers and calls back with a failure |
| ColumnarQuery.Query.Cancel | core/columnar/query_component.cxx:181-200 | timers are disarmed unless they have expired, and the cancellation is called back unless something was |
| ColumnarQuery.Query.MaybeRetry | core/columnar/query_component.cxx:211-240 | a retry is scheduled, after the backoff, if and only if the operation is not cancelled and it fires before the deadline; if only the deadline is in the way, a timeout is called back |
| ColumnarQuery.Query.HandleResponse | core/columnar/query_component.cxx:82-113 | a failed request calls back, with a timeout if it was one, which also cancels; a response goes on to be read |
| ColumnarQuery.Query.HandleHeader | core/columnar/query_component.cxx:114-134 | a response without errors is answered with its rows, a broken or malformed one and one with an error that is not retriable with that error; otherwise a retry is scheduled or a timeout called back |
| ColumnarQuery.Query.RetryFires | core/columnar/query_component.cxx:222-240 | the next attempt, counted; if it is refused the failure is called back |
| ColumnarQuery.Query.DeadlineFires | core/columnar/query_component.cxx:168-176 | afterwards the callback has been called, with a timeout if it had not been, and the operation is cancelled |
| ColumnarQuery.Query.Tick | core/columnar/query_component.cxx:164-240 | exactly the timers that are due have their handlers queued; an operation not called back has its deadline handler queued once that is due |
| ColumnarQuery.Query.TriggerTimeout | core/columnar/query_component.cxx:242-248 | a timeout is called back unless something else was, and the operation is cancelled |
| ColumnarQuery.Query.InvokeCallback | core/columnar/query_component.cxx:72-78 | the callback is called at most once |
| Telemetry.DelayInRange | core/app_telemetry_reporter.cxx:623-670 | for every number of attempts and every draw the delay is their sum without its fraction, between minimum and maximum |
| Telemetry.BaseGrows | core/app_telemetry_reporter.cxx:638-643 | without jitter the delay is the minimum times a power of the factor, up to the maximum |
| Telemetry.JitterRange | core/app_telemetry_reporter.cxx:650-664 | the range of the jitter holds zero and never leads outside the limits |
| Telemetry.DrawsAre | core/app_telemetry_reporter.cxx:650-664 | the draws are exactly the whole numbers within the share of the jitter that keep the delay in its limits |
| Telemetry.DrawPossibleExactlyWhen | core/app_telemetry_reporter.cxx:650-664 | there is something to draw from if and only if the maximum is not below the minimum |
| Telemetry.Reporter.Stop | core/app_telemetry_reporter.cxx:717-729 | stopped for good: from here on the invariant says that nothing is dialled |
| Telemetry.Reporter.OnConnected | core/app_telemetry_reporter.cxx:740-766 | connected, unless stopped; the next address will be another, without waiting |
| Telemetry.Reporter.OnWebsocketReady | core/app_telemetry_reporter.cxx:768-771 | the attempts are counted anew |
| Telemetry.Reporter.OnError | core/app_telemetry_reporter.cxx:773-829 | the next address comes up, after the last of them the first of a new order; it is dialled at once in the first round and after the delay from then on; stopped stays stopped |
| Telemetry.Reporter.UpdateConfig | core/app_telemetry_reporter.cxx:831-854 | the collectors of the configuration replace those known unless one was set; the next address is dialled if and only if telemetry is enabled, the reporter disconnected and an address known |
| Telemetry.Reporter.TimerHandler | core/app_telemetry_reporter.cxx:816-824 | the address is dialled exactly if disconnected |

## Left out

- RangeScan: the orchestrator is modelled on values as a step relation, not as objects, because its handlers interleave; what is not captured is the identity of the stream objects.
- RangeScanOutcomes.ErrorsAreReported: does not promise that a reported error reaches the caller, because cancellation can make the next call report completion first.
- LoadBalancing: the two maps a node carries are fields of the balancer; the locks per node are steps of the range-scan model.
- KeyGenerator: the variants for sets of vbuckets, parents and nodes, which run the same loops with another condition.
- Bucket.Restart: where a session has to be opened, placement is stated for configurations whose key-value nodes come first, because it goes to the node index and not to the key-value index.
- Bucket.Bucket.UpdateConfig: the configuration lock is released before the session lock is taken; two updates that overlap in between are not modelled.
- Bucket: deferred commands, configuration listeners, closing, and the wrap-around of the poll index.
- Retry: persistent requests, whose callback may be called many times.
- Collections: whether a queue is at its limit is an input; closing a queue and popping from it are not modelled.
- Collections: a name is a pair; scopes and collections whose names contain a dot, which could share a key, are not distinguished from others.
- Collections: what a caller does with a request that stays queued although its lookup was refused, and with one whose body does not parse while the queue is drained; responses from the server to requests that were sent on.
- Collections: each handler is one step; interleavings inside a handler are not modelled.
- RangeScanPayload: the compression library is a parameter.
- Bytes.DecodeLeb128: does not model shifts by 64 bits or more, which only a number of more than ten bytes causes and whose result C++ leaves undefined.
- WebSocket: the HTTP handshake.
- WebSocketFragments.LastPartDropped: each frame arrives in a chunk of its own.
- ColumnarQuery: the row stream, the payload of the request, and error contexts other than the list of errors.
- Telemetry: the session that writes and reads the socket, the dialer, the meter, and rounding in the backoff.
- The cluster and agent layers, HTTP services, cryptography, transactions and the command-line tools: forwarding, formatting or wrappers with only easy properties.
