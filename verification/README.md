# A verified model of ndn-svs

ndn-svs implements State Vector Sync: every node of a group keeps a vector that maps (node,
bootstrap epoch) to the largest sequence number it has heard of, sends it in signed Sync Interests,
and merges the vectors it hears. A publish/subscribe layer on top assigns sequence numbers, cuts
publications into packets, piggybacks small ones on Sync Interests and fetches the rest.

The model follows the source's own objects. Each stateful object is a class whose methods change its
fields step by step; each method's contract equates the new state with a step function, and the
properties are proved about that function, mostly over every run of the resulting state machine.
Fields named `sends`, `ending`, `age`, `reports`, `raised`, `sent`, `log`, `committed`, `finished` and
the like only record history so that whole-run properties can be stated. Each step function is in turn
tied to something that does not mention it: a simpler machine, a closed form over a run, lookups in the
new state, or bytes.

| file | part of the system |
|---|---|
| `names.dfy` | names, canonical order, map iteration order |
| `runs.dfy` | runs of a state machine, induction over them |
| `state_vector.dfy`, `merge.dfy` | the two-level vector with its latest index; merging with missing ranges |
| `sync_core.dfy`, `sync_runs.dfy`, `listener.dfy`, `group.dfy` | the sync core, its runs (serial and with worker pool), the plain listener it acts as, a group of N cores on a lossy network |
| `data_store.dfy`, `async_publish.dfy`, `async_runs.dfy`, `async_progress.dfy`, `heard_number.dfy` | transactional batches, the asynchronous publication pipeline, what it gets done, and what a raise of the publisher's own entry does to it |
| `segmentation.dfy`, `segment_wire.dfy`, `reassembly.dfy` | fitting segments into packets; the signed packets as bytes; putting segments together again |
| `tlv.dfy`, `data_packet.dfy`, `vector_codec.dfy`, `extension_codecs.dfy`, `sync_envelope.dfy` | wire formats, down to bytes |
| `wire_grammar.dfy`, `wire_fixtures.dfy` | what the readers accept, as grammars; the repository's own fixtures, byte for byte |
| `fetcher.dfy`, `publication_fetch.dfy`, `mapping_fetch.dfy` | the windowed Interest queue, the publication fetch machine, mapping queries and gap filling |
| `piggyback.dfy`, `piggy_cache.dfy` | packing extra data into Sync Interests; the bounded caches of the receiver |

## What is proved

- **Exactly-once reporting.** Over every run of serial receives, worker results, timers and
  non-lowering local updates, each sequence number has been announced (to the update callback or by
  a local update) exactly once if the vector covers it, and never otherwise.
- **The parallel path refines the serial one** for every interleaving of snapshots, results, stale and
  queue-full fallbacks, timers and updates that leave the current snapshots valid.
- **The core acts as a plain listener** that remembers the vectors heard since suppression began: same
  vector, same messages, and a record that is the join of what was heard. A timer of a started core sends,
  unless something was heard and its join equals the local vector.
- **Group safety and convergence** under loss, duplication, delay and reordering.
- **Ordered gap-free asynchronous commit and data-store conservation** with injected faults, retries,
  rollback and shutdown; a retried head commits, every reserved number can be advertised, and what is
  advertised is what was published, piece by piece.
- **Segment fitting always converges** (at most five passes; the "did not converge" error is
  unreachable); its size function is the length of the signed packet's wire, every packet keeps the limit,
  every segment is as large as fits, and segmentation followed by reassembly of any permutation is the
  identity on bytes; reassembly accepts exactly the complete sets.
- **Wire formats**: round trips of the vector, mapping, repair and envelope formats through the byte level;
  blocks, vectors, envelopes and repair lists are accepted exactly when they have the prescribed form; the
  encoders write the repository's fixtures.
- **Fetching**: conservation, unique ids, first-in-first-out order, window and send bounds of the Interest
  queue, and retries of both kinds that are all used; window, retry and lifetime bounds, best-first order
  and doubling of the publication fetch machine; exact coverage and termination of mapping gap filling.
- **Piggybacking**: newest-first packing, retry budgets kept and used, size bounds, caches that agree with
  their history.

Some statements one might expect are false of the code. Each has its exact condition, proved for all
inputs, and a concrete input on which it fails:

- *A local update keeps reporting exact.* Iff it does not lower the entry
  (`SyncRuns.UpdateKeepsExactlyOnce`, over runs `ReportingIsExactEverywhere`; fails in
  `LoweringBreaksExactlyOnce`).
- *Worker results act like the serial handler.* Iff no update lowers an entry while a current snapshot is
  in flight (`SyncRuns.UpdateKeepsResultsSerial`; fails in `LoweringBreaksRefinement`).
- *The extra-data block keeps its size limit.* The running size is taken before the block's own length
  field grows, so only limits up to 254 bytes are always kept, whatever the packet cap
  (`Piggyback.LimitIsKeptExactly`; fails in `LimitExceededByTwo`).
- *The extensions of a Sync Interest can always be built.* Iff every repair range sent starts at 1 or
  above. A mapping list may name number 0, whose failed fetch queues such a request
  (`Piggyback.ExtensionsCarryWhatWasSent`; fails in `NumberZeroBreaksExtensions`).
- *Commits stay in order whatever is heard from the group.* Iff no vector raises the publisher's own entry
  after its first asynchronous publication (`HeardNumber.KeepsOrderExactly`, over runs
  `OrderHoldsEverywhere`; fails in `StrandsPublication`). Within one session no other node can raise it
  (`Group.NobodyOutrunsTheOwner`); after a restart that reuses an epoch one can.
- *A failed batch leaves the store as it was.* Iff its inserted names were new
  (`DataStore.FailedBatchChangesNothing`; fails in `RollbackLosesOlderPacket`).
- *An encoded vector is accepted.* Iff no epoch is more than a day ahead
  (`VectorCodec.VectorAcceptedExactly`; fails in `FutureEpochIsRejected`).

## Model

| member | source | states |
|---|---|---|
| `StateVector.Extensional` | ndn-svs/version-vector.hpp:77-85 | a vector is determined by its lookups: two vectors that answer every `get` alike are the same map, so no empty rows or zero entries hide in it |
| `StateVector.ListingContent` | ndn-svs/version-vector.hpp:103-106 | the nested loops over all entries visit exactly the (node, epoch, number) triples the map holds |
| `StateVector.VersionVector.Set` | ndn-svs/version-vector.hpp:60-69 | number 0 is refused and changes nothing; otherwise one entry changes and the latest index is again, for every node, the maximum over its epochs |
| `StateVector.VersionVector.RefreshLatest` | ndn-svs/version-vector.cpp:176-190 | recomputes one node's index entry as the maximum over its epochs and leaves the others alone |
| `StateVector.VersionVector.GetLatest` | ndn-svs/version-vector.hpp:71-75 | the largest number over all epochs of the node, 0 for an unknown node |
| `StateVector.VersionVector.GetBootstrapTime` | ndn-svs/version-vector.hpp:94-101 | the highest epoch of the node, 0 for an unknown node |
| `Merge.JoinGet` | ndn-svs/core.cpp:1199-1209 | the merge loop computes the pointwise maximum of both vectors |
| `Merge.JoinUpper` | ndn-svs/core.cpp:1199-1209 | the merge result is an upper bound of both vectors |
| `Merge.JoinAbsorbs` | ndn-svs/core.cpp:1199-1209 | merging a vector that is already covered changes nothing and reports nothing |
| `Merge.MergeReports` | ndn-svs/core.cpp:1199-1209 | every number newly covered by a merge lies in exactly one missing range, and no other number lies in any |
| `Merge.MergeFlags` | ndn-svs/core.cpp:1202-1223 | otherVectorNew iff the vector changes; myVectorNew iff the remote vector lacks something of the merged one |
| `Merge.ComputeMergeStateVector` | ndn-svs/core.cpp:1192-1226 | both nested loops, with their early exits, compute the merge function about which the lemmas above speak |
| `Merge.MergeLoop` | ndn-svs/core.cpp:1199-1209 | the first loop alone yields the join and the missing ranges |
| `Merge.AnyRowNewer` | ndn-svs/core.cpp:1211-1223 | the second loop with its two breaks finds out whether any entry exceeds the remote one |
| `SyncCore.SVSyncCore.constructor` | ndn-svs/core.cpp:202-240 | a core starts with an empty vector, in steady state, not initialised |
| `SyncCore.SVSyncCore.MergeStateVector` | ndn-svs/core.cpp:1178-1190 | installs the merge and bumps the generation iff the vector changed |
| `SyncCore.SVSyncCore.RecordVector` | ndn-svs/core.cpp:1306-1327 | only while suppressed, the record becomes its join with the heard vector |
| `SyncCore.SVSyncCore.EnterSuppressionState` | ndn-svs/core.cpp:1329-1336 | starts a record with the heard vector unless there is one |
| `SyncCore.SVSyncCore.OnSyncInterestValidatedSerial` | ndn-svs/core.cpp:664-721 | the whole serial handler: merge, report, then record, stay or enter suppression |
| `SyncCore.SVSyncCore.ProcessSyncInterestResult` | ndn-svs/core.cpp:734-816 | a current result is installed, a stale one is recomputed serially |
| `SyncCore.SVSyncCore.RetxSyncInterest` | ndn-svs/core.cpp:829-840 | the timer merges the record, sends iff there was none or it lacks something, and ends suppression |
| `SyncCore.SVSyncCore.SendInitialInterest` | ndn-svs/core.cpp:399-408 | the first timer, which also marks the core initialised |
| `SyncCore.SVSyncCore.SendLocalPublicationSyncInterest` | ndn-svs/core.cpp:873-886 | a local publication ends suppression and sends |
| `SyncCore.SVSyncCore.Update` | ndn-svs/core.cpp:1251-1275 | the value is written even when lower, generation and send only when it rises, number 0 throws |
| `SyncRuns.InstallKeeps` | ndn-svs/core.cpp:1178-1190 | installing a merge keeps the exactly-once account once its ranges are reported |
| `SyncRuns.GenerationTracksMerge` | ndn-svs/core.cpp:1185-1187 | an unchanged generation after a merge means an unchanged vector, and a changed one a changed vector |
| `SyncRuns.TimerMergeIsSilent` | ndn-svs/core.cpp:833-839 | with the record covered by the vector, the timer's own merge finds nothing missing, so discarding its list loses nothing |
| `SyncRuns.UpdateKeepsExactlyOnce` | ndn-svs/core.cpp:1251-1264 | a local update keeps exactly-once reporting and the covered record iff it does not lower the entry |
| `SyncRuns.LoweringBreaksExactlyOnce` | ndn-svs/core.cpp:1259-1263 | a concrete lowering update after which number 2 counts as announced but is not covered |
| `SyncRuns.UpdateKeepsSnapshots` | ndn-svs/core.cpp:1256-1264 | an update keeps "equal generation implies equal vector" iff it does not lower the entry or no snapshot of this generation is in flight |
| `SyncRuns.ReportingIsExactlyOnce` | ndn-svs/core.cpp:664-702 | over every run without lowering updates, each number is announced exactly once if covered, never otherwise |
| `SyncRuns.ReportingIsExactEverywhere` | ndn-svs/core.cpp:1251-1264 | the account is exact after every prefix of a run iff no update along the run lowers its entry |
| `SyncRuns.ResultIsSerialExactly` | ndn-svs/core.cpp:746-800 | processing a worker result acts like the serial handler iff it is stale or its snapshot is still the core's vector |
| `SyncRuns.UpdateKeepsResultsSerial` | ndn-svs/core.cpp:1251-1264 | after a local update all results in flight still act serially iff the update did not lower its entry or no current snapshot was in flight; so a lowering update always spoils the current snapshots' results |
| `SyncRuns.ParallelRefinesSerial` | ndn-svs/core.cpp:520-625 | every run with the worker pool whose updates leave the current snapshots valid ends in the same core state as the serial run in processing order |
| `SyncRuns.SerializedIsSerial` | ndn-svs/core.cpp:627-721 | that serial counterpart uses neither snapshots nor results |
| `SyncRuns.LoweringBreaksRefinement` | ndn-svs/core.cpp:1259-1263 | a concrete run with a lowering update that ends in another vector than its own serial counterpart |
| `Listening.JoinOfIsLeastUpperBound` | ndn-svs/core.cpp:1306-1336 | the join of a list of vectors is for each key the largest value of any of them |
| `Listening.CoreActsAsListener` | ndn-svs/core.cpp:664-886 | over every run without lowering updates the core, with its record, generation and snapshots, has the vector and has sent the messages of a listener that only remembers what it heard since suppression began, computed from the events alone |
| `Listening.RecordIsLargestHeard` | ndn-svs/core.cpp:1306-1336 | in every reachable state there is a record iff something was heard since suppression began, and it is for each key the largest value heard |
| `Listening.SuppressionNeverHidesNews` | ndn-svs/core.cpp:829-840 | in every reachable state of a started core the timer sends the vector, unless vectors were heard since suppression began and their join is that vector; a core not started sends nothing; either way the record is gone |
| `Listening.StartSends` | ndn-svs/core.cpp:399-408 | starting up sends the vector at once, with the same exception, and marks the core initialised |
| `Listening.ReceiveRecords` | ndn-svs/core.cpp:664-721 | a vector heard raises each entry to the larger value; a suppressed core raises its record likewise, and one that is not begins a record with that vector iff the vector lacks something; nothing is sent |
| `Listening.ResultRecords` | ndn-svs/core.cpp:734-816 | a worker's result does exactly the same with the vector that was posted, and its job is gone |
| `Listening.UpdateSends` | ndn-svs/core.cpp:1251-1275 | a local update writes its number and nothing else; iff it rises it is announced, and then sent with the new vector, ending suppression, unless batched |
| `Listening.BatchSends` | ndn-svs/core.cpp:873-901 | the batch timer sends the vector as it is by then and ends suppression |
| `Listening.ZeroIsRefused` | ndn-svs/core.cpp:1251-1264 | number 0 changes nothing |
| `Group.NobodyOutrunsTheOwner` | ndn-svs/core.cpp:1178-1226 | whatever the network does, no node's entry for a node exceeds that node's own, and strangers have no entries |
| `Group.EntriesAreMonotone` | ndn-svs/core.cpp:1178-1226 | along every run of the group no entry of any node decreases |
| `Group.StepUnder` | ndn-svs/core.cpp:664-816 | a core that has only seen vectors under a bound stays under it, in vector, record, jobs and messages |
| `Group.StepGrows` | ndn-svs/core.cpp:664-901 | a step never lowers an entry, never unsends a vector, and sends only the new vector |
| `Group.TopIsGlobalJoin` | ndn-svs/core.cpp:1192-1226 | the owners' own entries form the least upper bound of all vectors of the group |
| `Group.ChainedDeliveriesConverge` | ndn-svs/core.cpp:1178-1226 | once publishing stops, any deliveries that chain every node's vector to every other leave all vectors equal to that join |
| `DataStore.Storage.InsertPreparedDataBatch` | ndn-svs/svsync-base.cpp:137-176 | the outcome and the store after a batch, for every point at which the store may throw, with rollback from the back |
| `DataStore.Storage.RemovePreparedDataBatch` | ndn-svs/svsync-base.cpp:178-194 | all packets of the batch are erased, or none if the store cannot erase |
| `DataStore.EraseUndoesInsert` | ndn-svs/svsync-base.cpp:178-194 | erasing a batch restores the store iff none of its names was there before |
| `DataStore.FailedBatchChangesNothing` | ndn-svs/svsync-base.cpp:150-176 | a failed batch leaves the store as it was for every failure point iff the names inserted before it were new |
| `DataStore.RollbackLosesOlderPacket` | ndn-svs/svsync-base.cpp:163-175 | a concrete failed batch whose rollback erases a packet the store held before |
| `AsyncRuns.CommitsInOrderWithoutGaps` | ndn-svs/svspubsub.cpp:549-673 | in every reachable state the advertised numbers are consecutive, the next commit is the core's number plus one, and the reserved numbers above it are in exactly one place |
| `AsyncRuns.StoreIsConserved` | ndn-svs/svspubsub.cpp:595-623 | in every reachable state the store is the initial contents plus the packets of staged, prepared-and-stored and committed publications |
| `AsyncRuns.ShutdownReclaims` | ndn-svs/svspubsub.cpp:160-188 | after shutdown the store is the initial contents plus committed publications only |
| `AsyncPublish.FailedPublishConsumesNothing` | ndn-svs/svspubsub.cpp:323-371 | a preparation or insertion that fails consumes no number and leaves the store alone |
| `AsyncRuns.CommitRaisesByOne` | ndn-svs/svspubsub.cpp:675-716 | a commit raises the core's number by exactly one or not at all, and a fault-free one succeeds |
| `AsyncRuns.FailingHeadBlocks` | ndn-svs/svspubsub.cpp:567-633 | while the head waits for its retry no event but its own timer or shutdown advances the core or the head |
| `AsyncRuns.FailingHeadBlocksRun` | ndn-svs/svspubsub.cpp:634-673 | the same over any run without that timer |
| `AsyncRuns.NothingLeftBehind` | ndn-svs/svspubsub.cpp:567-633 | when everything is delivered and no retry is pending, the loop stops only when all reserved numbers are advertised |
| `AsyncProgress.CommitSucceedsExactly` | ndn-svs/svspubsub.cpp:675-716 | in every reachable state a commit attempt succeeds iff no fault strikes; packets stored earlier are not stored again |
| `AsyncProgress.SucceededCommitIs` | ndn-svs/svspubsub.cpp:605-630 | a successful attempt advertises the head with its packets and touches no other publication |
| `AsyncProgress.FailedCommitRequeues` | ndn-svs/svspubsub.cpp:594-623 | a failed attempt puts the same publication back to wait for its timer, counts the attempt, and changes nothing else but the store |
| `AsyncProgress.RetryUnblocks` | ndn-svs/svspubsub.cpp:634-673 | a head that failed any number of times is advertised by its retry timer and one attempt without a fault, and the next number is due |
| `AsyncProgress.EverythingCanBeCommitted` | ndn-svs/svspubsub.cpp:549-673 | from every reachable state between critical sections, delivering, retrying and committing in order without further faults advertises every reserved number |
| `AsyncProgress.AcceptedExactly` | ndn-svs/svsync-base.cpp:137-176 | a publication is accepted iff preparation succeeds, the store can erase or nothing is to be stored, every packet has at most 8800 bytes and no insertion fails |
| `AsyncProgress.AcceptedPublishStores` | ndn-svs/svspubsub.cpp:323-371 | an accepted publication takes the next number, its pieces are in the store under their segment names, and no other name changes |
| `AsyncProgress.AdvertisedIsServed` | ndn-svs/svspubsub.cpp:323-716 | whatever happens in between, once the number of an accepted publication is advertised the store serves exactly the pieces that were published under it |
| `HeardNumber.KeepsOrderExactly` | ndn-svs/svspubsub.cpp:567-632 | a vector heard from the group that names this prefix and epoch keeps the commit order iff it does not raise the entry or nothing was published asynchronously yet |
| `HeardNumber.OrderHoldsEverywhere` | ndn-svs/svspubsub.cpp:549-673 | over whole runs that mix pipeline events with heard vectors, the order of commits holds after every prefix iff no vector raises the entry once something was published |
| `HeardNumber.StrandsPublication` | ndn-svs/svspubsub.cpp:605-630 | a concrete raise between two publications: the next commit lowers the core's number and the later publication is never committed, whatever follows |
| `AsyncRuns.AsyncPublisher.PrepareAndStage` | ndn-svs/svspubsub.cpp:323-371 | reserve, prepare, store and stage act as one publish step and return the number staged |
| `AsyncRuns.AsyncPublisher.CommitOne` | ndn-svs/svspubsub.cpp:675-716 | one commit attempt, with hook, store and mapping failures and the rollback, is one commit step |
| `AsyncRuns.AsyncPublisher.CommitReady` | ndn-svs/svspubsub.cpp:567-633 | the commit loop is a run of take, commit and advance steps that ends when the head is not ready |
| `AsyncRuns.AsyncPublisher.OnPreparedPublication` | ndn-svs/svspubsub.cpp:549-565 | the posted callback moves a publication from staged to prepared and runs the loop; without faults a publication that is next is advertised |
| `AsyncRuns.AsyncPublisher.OnRetryTimer` | ndn-svs/svspubsub.cpp:634-673 | the timer of a failed head makes it ready again and runs the loop; without faults that head is advertised |
| `AsyncRuns.AsyncPublisher.Shutdown` | ndn-svs/svspubsub.cpp:160-188 | the two collecting loops and the batch-by-batch removal erase exactly the names of staged and of prepared-and-stored publications |
| `Segmentation.FitsMonotone` | ndn-svs/svspubsub.cpp:423-451 | a smaller content under a narrower final number fits wherever a larger one under a wider one does |
| `Segmentation.FitSegment` | ndn-svs/svspubsub.cpp:468-492 | the binary search returns the largest content size that fits, 0 when none does |
| `Segmentation.PackSizes` | ndn-svs/svspubsub.cpp:462-500 | a successful pass cuts the value into non-empty segments that fit and together cover it |
| `Segmentation.PackIsGreedy` | ndn-svs/svspubsub.cpp:464-495 | each segment takes the largest size that fits, up to 8000 bytes and what is left |
| `Segmentation.PackMonotone` | ndn-svs/svspubsub.cpp:462-507 | widening the final segment number never lets a value get by with fewer segments |
| `Segmentation.PackPass` | ndn-svs/svspubsub.cpp:462-500 | the greedy loop with its early exit computes that packing |
| `Segmentation.RefitProgress` | ndn-svs/svspubsub.cpp:462-507 | refitting keeps the guess a lower bound and either widens the number field or reaches a confirmed guess |
| `Segmentation.FitAll` | ndn-svs/svspubsub.cpp:453-508 | the outer loop ends in at most five passes and never with "did not converge"; it fails iff no final segment number is confirmed by its own fitting, and otherwise returns the packing of the least such number |
| `SegmentWire.DataWireSize` | ndn-svs/svspubsub.cpp:423-451 | the size function is the length of the wire of a signed packet with name, MetaInfo with final block, content and signature blocks |
| `SegmentWire.FitsIsWireSize` | ndn-svs/svspubsub.cpp:423-451 | a segment fits iff the wire of its outer packet, whose content is the whole signed inner packet, has at most 8800 bytes |
| `SegmentWire.InnerReadsBack` | ndn-svs/svspubsub.cpp:1380-1394 | an inner packet's block reads back with the name, final number and content it was built from |
| `SegmentWire.OuterReadsBack` | ndn-svs/svspubsub.cpp:423-451 | from the bytes of an outer packet the receiver gets its name and, in its content, the inner packet |
| `Reassembly.PrepareSegmentedPackets` | ndn-svs/svspubsub.cpp:453-508 | every returned list is cut well: non-empty slices in order, each as large as fits, FinalBlock equal to count minus one; however signed, the wire of every packet has at most 8800 bytes; refused as too large iff no final number is self-consistent |
| `Reassembly.DecodeInnerSegments` | ndn-svs/svspubsub.cpp:1366-1417 | accepts iff the list is a complete set of one base name, and then joins the contents by segment number |
| `Reassembly.DecodeBuffer` | ndn-svs/svspubsub.cpp:1478-1489 | reads inner packets out of one buffer and accepts iff they are a complete set |
| `Reassembly.AcceptedIsComplete` | ndn-svs/svspubsub.cpp:1366-1417 | an accepted list holds every number from 0 to the final one exactly once |
| `Reassembly.PermutationIsComplete` | ndn-svs/svspubsub.cpp:1366-1417 | every permutation of a prepared list is a complete set |
| `Reassembly.SegmentationRoundTrip` | ndn-svs/svspubsub.cpp:1366-1417 | reassembling any permutation of a prepared list returns the original name and value |
| `Reassembly.PrepareThenDecode` | ndn-svs/svspubsub.cpp:453-508 | end to end on bytes: prepare, sign in any way of the given sizes, reorder, print into one buffer, decode: name and value come back |
| `Tlv.NniRoundTrip` | ndn-svs/version-vector.cpp:110-128 | a number printed in 1, 2, 4 or 8 bytes reads back as itself |
| `Tlv.VarNumberRoundTrip` | ndn-svs/version-vector.cpp:110-128 | a type or length printed in its shortest form reads back, whatever follows |
| `Tlv.ElementsOfWires` | ndn-svs/version-vector.cpp:36-74 | parsing concatenated blocks returns them, in order |
| `Tlv.NameRoundTrip` | ndn-svs/version-vector.cpp:36-74 | a name printed as a block reads back |
| `VectorCodec.VectorRoundTrip` | ndn-svs/version-vector.cpp:36-74 | decoding an encoded vector returns it when no epoch is more than a day ahead |
| `VectorCodec.VectorAcceptedExactly` | ndn-svs/version-vector.cpp:24-34 | an encoded vector is accepted iff no epoch is more than a day ahead |
| `VectorCodec.FutureEpochIsRejected` | ndn-svs/version-vector.cpp:26-32 | a concrete vector that is rejected: its epoch is one second too far ahead |
| `VectorCodec.VectorRoundTripV2` | ndn-svs/version-vector.cpp:79-106 | V2 keeps per node the largest number over its epochs, filed under epoch 0 |
| `VectorCodec.Encode` | ndn-svs/version-vector.cpp:109-137 | the backward-prepending printer with its running lengths writes the bytes of the vector block |
| `VectorCodec.EncodeV2` | ndn-svs/version-vector.cpp:138-160 | the V2 printer writes the bytes of the latest-per-node block |
| `VectorCodec.Decode` | ndn-svs/version-vector.cpp:36-74 | the parser sets entry by entry, fails as the reference reader does, and leaves a correct latest index |
| `VectorCodec.DecodeV2` | ndn-svs/version-vector.cpp:79-106 | likewise for V2 |
| `ExtensionCodecs.MappingRoundTrip` | ndn-svs/mapping-provider.cpp:47-133 | one pass keeps the node, reverses the pairs and each pair's extra blocks; V2 loses the epochs |
| `ExtensionCodecs.MappingTwice` | ndn-svs/mapping-provider.cpp:47-133 | two V3 passes are the identity |
| `ExtensionCodecs.EncodeMapping` | ndn-svs/mapping-provider.cpp:94-133 | the forward-walking, backward-prepending printer writes the bytes of the mapping block |
| `ExtensionCodecs.DecodeMapping` | ndn-svs/mapping-provider.cpp:47-92 | the parser agrees with the reference reader, skipping unknown elements |
| `ExtensionCodecs.RepairRoundTrip` | ndn-svs/svspubsub.cpp:65-117 | repair requests read back in order iff every range is non-empty and starts at 1 or above; otherwise all are rejected |
| `ExtensionCodecs.EncodeRepairs` | ndn-svs/svspubsub.cpp:65-87 | the printer writes the bytes of the repair block |
| `ExtensionCodecs.DecodeRepairs` | ndn-svs/svspubsub.cpp:89-117 | the parser agrees with the reference reader |
| `SyncEnvelope.EnvelopeRoundTripV3` | ndn-svs/sync-protocol.cpp:63-258 | whenever the sender accepts the extensions, a V3 receiver accepts iff no epoch is more than a day ahead, and then returns the same vector and the same extensions in order |
| `SyncEnvelope.EnvelopeRoundTripV2` | ndn-svs/sync-protocol.cpp:63-258 | likewise for V2 with the epoch-0 projection of the vector |
| `SyncEnvelope.CheckExtensions` | ndn-svs/sync-protocol.cpp:63-85 | accepts iff at most 16 extensions, none of a core type, known types at most once |
| `SyncEnvelope.CollectExtensions` | ndn-svs/sync-protocol.cpp:132-233 | the receiver's loop, with its early exits, collects the extensions iff they satisfy the sender's rules, and then all of them in order |
| `SyncEnvelope.EncodeSync` | ndn-svs/sync-protocol.cpp:63-130 | the sender builds the specified Interest, or none when the extensions are refused |
| `SyncEnvelope.DecodeSync` | ndn-svs/sync-protocol.cpp:132-233 | the receiver agrees with the reference reader on every Interest |
| `SyncEnvelope.InspectThenDecode` | ndn-svs/sync-protocol.cpp:235-258 | for every Interest, V2 or V3, accepted or not, inspecting the envelope and decoding its vector later gives exactly what decoding at once gives |
| `SyncEnvelope.DecodeStateVector` | ndn-svs/sync-protocol.cpp:235-258 | the deferred decoder reads the vector out of the inspected envelope, failing on missing, empty or foreign content |
| `SyncEnvelope.OnSyncInterest` | ndn-svs/core.cpp:411-470 | the receiver's two stages, gate and decoding, together accept exactly what one full decoding accepts |
| `WireGrammar.ElementsExactly` | ndn-svs/version-vector.cpp:36-74 | parsing and printing block sequences are inverse: bytes parse to these blocks iff they are their concatenated wires in shortest form |
| `WireGrammar.DataExactly` | ndn-svs/sync-protocol.cpp:132-233 | a block reads as a Data packet iff it is that packet with some signature |
| `WireGrammar.VectorExactly` | ndn-svs/version-vector.cpp:36-74 | a V3 vector is accepted iff it is a list of entries, each a name and a list of epoch and number fields, no number 0, no epoch more than a day ahead |
| `WireGrammar.VectorExactlyV2` | ndn-svs/version-vector.cpp:79-106 | a V2 vector is accepted iff it is a list of entries, each a name and one number above 0 |
| `WireGrammar.AcceptedExactlyV3` | ndn-svs/sync-protocol.cpp:132-233 | a V3 Interest is accepted with these extensions iff it has the group's name and a right digest and its parameters are one signed Data packet under that name, and nothing else, holding a well-formed vector and these extensions |
| `WireGrammar.AcceptedExactlyV2` | ndn-svs/sync-protocol.cpp:132-233 | a V2 Interest is accepted iff its parameters are a well-formed V2 vector followed by these extensions |
| `WireGrammar.RepairsExactly` | ndn-svs/svspubsub.cpp:89-117 | a repair block reads as these ranges iff it lists them in order and each starts at 1 or above and is not empty; the block's own type is not checked |
| `WireFixtures.OneNodeEnvelope` | tests/unit-tests/v3-wire.t.cpp:63-83 | the V3 parameters of the one-node vector are the fixture's bytes, whatever the digest |
| `WireFixtures.MultiEpochVector` | tests/unit-tests/v3-wire.t.cpp:85-105 | the vector with several nodes and epochs is the fixture's bytes: nodes in canonical order, epochs ascending |
| `WireFixtures.BaselineV2` | tests/unit-tests/v3-wire.t.cpp:135-162 | the V2 parameters are the baseline fixture's bytes |
| `WireFixtures.MappingBytes` | ndn-svs/mapping-provider.cpp:94-133 | the bytes of a mapping list, with the epoch in V3 and without it in V2 |
| `WireFixtures.RepairBytes` | ndn-svs/svspubsub.cpp:65-87 | the bytes of a repair request |
| `WireFixtures.RefusedExactly` | tests/unit-tests/v3-wire.t.cpp:164-202 | the sender refuses extensions iff there are more than 16, one has a core type, or two are mapping blocks or two are repair blocks |
| `Fetcher.EachRequestInOnePlace` | ndn-svs/fetcher.cpp:40-168 | at every moment of every run each expressed request is in exactly one of queued, pending, validating, awaiting retry, finished; ids are unique |
| `Fetcher.WindowIsKeptAndUsed` | ndn-svs/fetcher.cpp:76-101 | pending never exceeds the widest window set so far, and requests queue only while the window is full |
| `Fetcher.FixedWindowIsRespected` | ndn-svs/fetcher.cpp:76-101 | while the window is not changed pending never exceeds it, and equals it whenever something queues |
| `Fetcher.SendsAreBounded` | ndn-svs/fetcher.cpp:103-168 | with non-negative retries a request is sent at most 1 + retries + validation retries times |
| `Fetcher.NegativeRetriesAreUnbounded` | ndn-svs/fetcher.cpp:155-168 | with negative retries no bound holds: for every k there is a run that sends the same request k + 1 times |
| `Fetcher.TimeoutRetriesAreUsed` | ndn-svs/fetcher.cpp:155-168 | with n >= 0 retries the request is sent again after each of n timeouts, under a fresh id, and ends with the next one after exactly n + 1 sends |
| `Fetcher.ValidationRetriesAreUsed` | ndn-svs/fetcher.cpp:117-140 | likewise for refused data: v refusals make v + 1 sends and the next refusal ends the request; with no such retries the first one does |
| `Fetcher.NoRetryIsLost` | ndn-svs/fetcher.cpp:103-168 | in every run a request that ended by timeout or by refused data has used up its retries of that kind |
| `Fetcher.ProcessQueueTakes` | ndn-svs/fetcher.cpp:76-101 | processing sends exactly as many requests from the front as the window has room for, each once, and leaves the rest in order |
| `Fetcher.InterestsLeaveInOrder` | ndn-svs/fetcher.cpp:40-101 | in every reachable state queued ids ascend and everything on the wire was expressed before everything queued |
| `Fetcher.ExpressOutcome` | ndn-svs/fetcher.cpp:40-60 | a new request is on its way under a fresh id with the retries given; all others go on undisturbed |
| `Fetcher.DataOutcome` | ndn-svs/fetcher.cpp:103-145 | data frees its slot and ends the request, or hands it to the validator; all others go on |
| `Fetcher.NackOutcome` | ndn-svs/fetcher.cpp:147-153 | a nack ends its request as nacked, whatever retries it has left |
| `Fetcher.TimeoutOutcome` | ndn-svs/fetcher.cpp:155-168 | a timeout with retries left puts the request last in the queue, or straight on the wire, with one retry less |
| `Fetcher.LastTimeoutOutcome` | ndn-svs/fetcher.cpp:155-163 | a timeout with no retries left ends the request as timed out |
| `Fetcher.ValidatedOutcome` | ndn-svs/fetcher.cpp:110-116 | valid data ends the request as satisfied |
| `Fetcher.RefusedOutcome` | ndn-svs/fetcher.cpp:117-140 | refused data makes the request wait if validation retries are left, else ends it |
| `Fetcher.RetryOutcome` | ndn-svs/fetcher.cpp:122-133 | the retry timer sends a waiting request on its way with one validation retry less |
| `Fetcher.EndingIsFinal` | ndn-svs/fetcher.cpp:103-168 | an ended request stays ended: later events only append outcomes |
| `Fetcher.InterestFetcher.ProcessInterestQueue` | ndn-svs/fetcher.cpp:76-101 | the while loop sends from the front until the queue is empty or the window full |
| `Fetcher.InterestFetcher.ExpressInterest` | ndn-svs/fetcher.cpp:40-60 | a fresh id, the configured validation retries, then the queue is processed |
| `Fetcher.InterestFetcher.OnData` | ndn-svs/fetcher.cpp:103-145 | the slot is freed and refilled; the request goes to validation or ends |
| `Fetcher.InterestFetcher.OnNack` | ndn-svs/fetcher.cpp:147-153 | a nack frees the slot and ends the request, retries or not |
| `Fetcher.InterestFetcher.OnTimeout` | ndn-svs/fetcher.cpp:155-168 | the last timeout ends the request; an earlier one requeues it under a fresh id with one retry less |
| `Fetcher.InterestFetcher.OnValidationFailed` | ndn-svs/fetcher.cpp:117-140 | a request with validation retries left waits for the timer, else ends |
| `Fetcher.InterestFetcher.OnRetryTimer` | ndn-svs/fetcher.cpp:122-133 | requeues under a fresh id with one validation retry less |
| `Fetcher.InterestFetcher.SetWindowSize` | ndn-svs/fetcher.hpp:44-49 | the window is at least 1 and freed slots are used at once |
| `PublicationFetch.FetchingIsBounded` | ndn-svs/svspubsub.cpp:1229-1364 | over every run, stale callbacks included: fetch and state maps have the same keys, at most max(1, window) are fetching, attempts stay within retries + 1, lifetimes and estimates within their bounds |
| `PublicationFetch.RoundIsBestFirst` | ndn-svs/svspubsub.cpp:1281-1305 | what a round starts was due and ranks no lower than anything due it leaves waiting; it leaves something waiting only with a full window and before its deadline |
| `PublicationFetch.FailuresDouble` | ndn-svs/svspubsub.cpp:1082-1136 | the k-th failure in a row puts a publication off for the initial back-off doubled k - 1 times and leaves its lifetime and its session's estimate doubled k times, up to their limits, for positive settings |
| `PublicationFetch.FetchRetriesAreUsed` | ndn-svs/svspubsub.cpp:1082-1136 | with r retries a publication is asked for r + 1 times; the last failure drops it |
| `PublicationFetch.AnswerMovesHalfway` | ndn-svs/svspubsub.cpp:1138-1175 | an answer moves the session's estimate halfway to twice the round trip, rounding down, and touches no other publication |
| `PublicationFetch.AddJoins` | ndn-svs/svspubsub.cpp:851-878 | another subscription joins those of its publication and leaves a known one as it is |
| `PublicationFetch.DispatchServes` | ndn-svs/svspubsub.cpp:1294-1363 | the dispatch loop serves a prefix of the sorted list, from the cache or by fetching, touches nothing else, and stops early only with a full window |
| `PublicationFetch.PreparedKeeps` | ndn-svs/svspubsub.cpp:1237-1279 | scanning and expiring keep the invariant, change no surviving state, and leave nothing past its deadline waiting |
| `PublicationFetch.SortReady` | ndn-svs/svspubsub.cpp:1281-1292 | the ready list sorted by fewest attempts, newest epoch, newest number |
| `PublicationFetch.PublicationFetcher.AddPublicationFetch` | ndn-svs/svspubsub.cpp:851-878 | adds the subscription; a new publication starts queued with the session's clamped lifetime |
| `PublicationFetch.PublicationFetcher.MarkPublicationFetchFailed` | ndn-svs/svspubsub.cpp:1082-1136 | drops an exhausted or overdue publication, else backs off with doubled, clamped lifetime and back-off and says that a repair request is due |
| `PublicationFetch.PublicationFetcher.ObservePublicationFetchSuccess` | ndn-svs/svspubsub.cpp:1138-1175 | moves the session estimate halfway towards twice the round trip, clamped |
| `PublicationFetch.PublicationFetcher.ScanFetchMap` | ndn-svs/svspubsub.cpp:1231-1266 | counts what is fetching and collects what is due while marking what expired |
| `PublicationFetch.PublicationFetcher.DropExpired` | ndn-svs/svspubsub.cpp:1268-1279 | removes exactly the expired publications from both maps |
| `PublicationFetch.PublicationFetcher.FetchAllPublications` | ndn-svs/svspubsub.cpp:1229-1364 | one whole round: scan, expire, sort, dispatch |
| `MappingFetch.ChunksTile` | ndn-svs/svspubsub.cpp:830-843 | the chunks of at most 11 numbers follow each other without gap or overlap from the first unknown number to the end |
| `MappingFetch.UpdateCoversRange` | ndn-svs/svspubsub.cpp:814-844 | after an update every number of the range is known or in a chunk that is in flight or backing off |
| `MappingFetch.UpdateAsksExactly` | ndn-svs/svspubsub.cpp:814-844 | an update asks for nothing before the first unknown number, and from there for exactly the chunks of 11 that are not backing off |
| `MappingFetch.GapsAreMaximalRuns` | ndn-svs/svspubsub.cpp:1001-1015 | the ranges asked for again are exactly the maximal runs of unreturned numbers |
| `MappingFetch.GapsAreApart` | ndn-svs/svspubsub.cpp:1001-1015 | those runs are ascending and never touch, so nothing is asked for twice |
| `MappingFetch.ReplyCoversRange` | ndn-svs/svspubsub.cpp:971-1016 | after a reply every number of the range was returned or lies in a maximal run that is in flight or backing off |
| `MappingFetch.ReplyAsksExactly` | ndn-svs/svspubsub.cpp:971-1016 | a reply forgets its query; unless it is empty, exactly the maximal runs it leaves out and that are not backing off are asked for again |
| `MappingFetch.InRangeExactly` | ndn-svs/svspubsub.cpp:979-988 | a number counts as returned iff the reply maps it under the epoch asked for |
| `MappingFetch.ReplySettles` | ndn-svs/svspubsub.cpp:971-1016 | a reply lowers the numbers outstanding by at least as many as it returned |
| `MappingFetch.GapFillingTerminates` | ndn-svs/svspubsub.cpp:971-1080 | without new updates, replies that return something number at most the numbers outstanding at the start |
| `MappingFetch.AnswerIsWhatIsKnown` | ndn-svs/mapping-provider.cpp:170-204 | the provider's answer holds a number iff it is in the range and known |
| `MappingFetch.AnswerAscends` | ndn-svs/mapping-provider.cpp:180-192 | the answer lists its numbers in ascending order, each once |
| `MappingFetch.ProviderMakesProgress` | ndn-svs/mapping-provider.cpp:170-204 | any answer a provider gives strictly lowers the requester's outstanding numbers |
| `MappingFetch.QueriesAreSound` | ndn-svs/svspubsub.cpp:1018-1080 | in every reachable state queries in flight are non-empty ranges and none of them is backing off |
| `MappingFetch.BackoffIsRespected` | ndn-svs/svspubsub.cpp:1018-1080 | in any run that begins with the failure of a query and stays within the back-off, that query is not sent again |
| `MappingFetch.FailureReleases` | ndn-svs/svspubsub.cpp:1072-1080 | a failed query is no longer in flight, and asked for again it is sent iff the back-off is over |
| `MappingFetch.MappingFetcher.ScheduleMappingFetch` | ndn-svs/svspubsub.cpp:1018-1063 | sends iff the query is neither in flight nor backing off |
| `MappingFetch.MappingFetcher.UpdateCallback` | ndn-svs/svspubsub.cpp:814-844 | skips the known prefix and asks for the rest in chunks |
| `MappingFetch.MappingFetcher.OnFetchedNameMappings` | ndn-svs/svspubsub.cpp:971-1016 | collects the returned numbers and schedules the gaps in one scan |
| `MappingFetch.OnMappingQuery` | ndn-svs/mapping-provider.cpp:170-204 | answers with the known part of the range in order, not at all when nothing is known |
| `Piggyback.PassIsNewestFirstFit` | ndn-svs/svspubsub.cpp:1703-1728 | a pass charges every entry exactly once, as sent or missed; sent is what fits after the newer sent ones; survivors keep their order |
| `Piggyback.RoundRespectsLimit` | ndn-svs/svspubsub.cpp:1674-1791 | the running size stays within the limit iff the bare block fits; the encoded block exceeds the running size by exactly the growth of its length field |
| `Piggyback.LimitIsKeptExactly` | ndn-svs/svspubsub.cpp:1674-1791 | whatever the packet cap, the encoded block keeps the configured limit for every content of the queues within that cap iff the limit is at most 254 bytes |
| `Piggyback.LimitExceededByTwo` | ndn-svs/svspubsub.cpp:1789-1791 | the smallest overflow: a block of 257 bytes under a limit of 255 |
| `Piggyback.SelectionIsMaximal` | ndn-svs/svspubsub.cpp:1674-1688 | no new mapping that was left out could still be added |
| `Piggyback.SelectionFits` | ndn-svs/svspubsub.cpp:1674-1688 | the block of new mappings fits iff the bare block with the producer's name does |
| `Piggyback.EntriesLeaveInTime` | ndn-svs/svspubsub.cpp:1702-1787 | over every run an entry leaves within max(1, repeat) + max(1, missLimit) - 1 rounds, and no repair request is queued twice |
| `Piggyback.RoundCharges` | ndn-svs/svspubsub.cpp:1662-1824 | a round charges every entry of every queue once, keeps exactly those with budget left, and clears the notifications |
| `Piggyback.BudgetIsUsed` | ndn-svs/svspubsub.cpp:1730-1759 | a publication alone in the queues is carried by exactly max(1, repeat) rounds if it fits, and dropped after exactly max(1, missLimit) rounds if not |
| `Piggyback.QueuedAsTold` | ndn-svs/svspubsub.cpp:734-742 | what is told between rounds goes uncharged to the back of its queue; a mapping is also notified iff nothing is yet or only of the same producer |
| `Piggyback.AskedOnce` | ndn-svs/svspubsub.cpp:1177-1196 | after a repair request it is queued exactly once |
| `Piggyback.ExtensionsCarryWhatWasSent` | ndn-svs/svspubsub.cpp:1826-1850 | the extensions are built iff every repair range sent is valid; then the mapping block holds mappings and packets in packing order and the repair block exactly the ranges that were sent |
| `Piggyback.ValidRequestsNeverFail` | ndn-svs/svspubsub.cpp:1826-1850 | over every run in which only valid ranges are asked for, the extensions of every round can be built |
| `Piggyback.OneRequestDecides` | ndn-svs/svspubsub.cpp:1177-1196 | one request in empty queues that fits makes the round fail iff its range is not valid |
| `Piggyback.NumberZeroBreaksExtensions` | ndn-svs/svspubsub.cpp:89-117 | the failing input: asking for number 0 makes building the extensions throw |
| `Piggyback.RepairsReadBack` | ndn-svs/svspubsub.cpp:65-117 | the repair extension reads back as the ranges it was built from iff all are valid |
| `Piggyback.PiggybackQueues.InsertMapping` | ndn-svs/svspubsub.cpp:734-742 | a mapping is queued and, for the first or same producer, also notified |
| `Piggyback.PiggybackQueues.RememberRepairRequest` | ndn-svs/svspubsub.cpp:1177-1196 | a request already queued is not queued again |
| `Piggyback.PiggybackQueues.EnqueueRepairPublication` | ndn-svs/svspubsub.cpp:1198-1227 | a publication a peer asks for goes on the queues again: its mapping, and its packet if stored and within the cap |
| `Piggyback.PiggybackQueues.PassQueue` | ndn-svs/svspubsub.cpp:1703-1728 | the backward loop with push-front computes the pass |
| `Piggyback.PiggybackQueues.OnGetExtraData` | ndn-svs/svspubsub.cpp:1662-1824 | one whole round over new mappings and the three queues |
| `PiggyCache.TrimDropsOldest` | ndn-svs/svspubsub.cpp:2007-2011 | eviction removes exactly the oldest keys beyond the limit |
| `PiggyCache.ReceivedComeLast` | ndn-svs/svspubsub.cpp:1994-2011 | a packet replaces what was filed under its names, which keep their places or come last; then the oldest beyond the limit go |
| `PiggyCache.DeliveredComesLast` | ndn-svs/svspubsub.cpp:1603-1616 | a delivered publication keeps its place or comes last; then the oldest beyond the limit are forgotten |
| `PiggyCache.CacheAgreesWithHistory` | ndn-svs/svspubsub.cpp:1994-2011 | after any packets received the order queue lists the cached names once each, at most `limit`, each holding the latest packet received under it |
| `PiggyCache.ProbeFindsExtensions` | ndn-svs/svspubsub.cpp:911-923 | the probe finds a packet iff some cached name extends the mapping name, and then the first such name's |
| `PiggyCache.ReceivedIsFound` | ndn-svs/svspubsub.cpp:1994-2011 | a new packet is found under every prefix of its name while few enough packets follow it |
| `PiggyCache.DeliveredIsRemembered` | ndn-svs/svspubsub.cpp:1603-1616 | in any run that begins with a new delivery, that publication is remembered while fewer than the limit are delivered after it |
| `PiggyCache.PiggyDataCache.Receive` | ndn-svs/svspubsub.cpp:1994-2011 | files a packet under name and full name, then evicts |
| `PiggyCache.DeliveredPublications.Remember` | ndn-svs/svspubsub.cpp:1603-1616 | remembers a publication once, then evicts |
| `Names.NameOrder` | ndn-svs/svspubsub.cpp:911-923 | canonical name order is a strict total order |
| `Names.PrefixInterval` | ndn-svs/svspubsub.cpp:911-923 | the names that extend a prefix are contiguous in that order, so one probe suffices |

## Left out

- Face, KeyChain, TPM, validators, regular expressions, SegmentFetcher and logging: data, nacks, timeouts and validation results are events that may occur at any time; signatures are given.
- Suppression delays and the random timer: a timer may fire at any time, so no timing bound is claimed.
- Threads, mutexes, queue sizes and statistics: each critical section is one atomic step.
- Dropped sync-production results: a send is modelled as taking place with the vector of the moment it is decided.
- Callbacks that re-enter the object that calls them.
- Wrap-around of the 64-bit generation and Interest id counters, and of the chunk loop for sequence numbers within 11 of 2^64.
- Mixed use of synchronous and asynchronous publication on one prefix, and `reserveSeqNo`: both overwrite the commit position.
- Packet names that were in the store before: conservation assumes names of new publications are new.
- Signature sizes that vary from packet to packet: `SegmentWire.Publication` takes them as fixed.
- MetaInfo fields other than ContentType, FreshnessPeriod and FinalBlockId, and the order of Data elements in foreign packets.
- Subscriptions, prefix registration, security options and `toStr`: plumbing without a hard property.
- The all-or-nothing validation of received extension blocks, and what a received mapping does to subscriptions.
- Clock readings inside one handler call are taken as one reading, in whole milliseconds.
- MappingFetch.GapFillingTerminates: does not claim that every mapping is eventually fetched, because a query refused while it is backing off is not asked for again by the source.
- A mapping query whose reply fails validation or does not decode: the source then calls neither handler, so the query stays in flight and later requests for the same range are refused; in the model that is a query without a further event.
- Building a publication that fits one packet, and its retry delay after a failed commit: the asynchronous pipeline takes the sizes and bodies of the packets as given and lets a retry timer fire at any time.
- PublicationFetch.FailuresDouble: gives the closed form for positive back-offs and lifetimes only, because a setting of 0 or below is not doubled.
- PublicationFetch.FetchingIsBounded: does not claim that every fetch ends, because the source ignores a failed validation of the outer packet.
- SyncRuns.ParallelRefinesSerial: takes each worker's result as the merge of its snapshot; a worker that fails to decode is a dropped job.
- DataStore.Storage.InsertPreparedDataBatch: does not model a rollback whose own erase throws, which the source reports as a failed rollback with the store half restored.
- DataStore.Storage.RemovePreparedDataBatch: does not model an erase that throws midway, after which the source reports failure with some packets gone.
- AsyncRuns.CommitsInOrderWithoutGaps: its runs hold no vector that raises the publisher's own entry; HeardNumber.OrderHoldsEverywhere says exactly which runs with such vectors keep the order.
- AsyncRuns.AsyncPublisher.CommitOne: mapping and piggyback insertion are one step that succeeds or fails; what an attempt that fails later has inserted there is not undone by the source and is not part of the state.
- SyncEnvelope.EncodeSync: leaves out the LZMA compression of the V2 state vector, an unseen library.
- SyncEnvelope.DecodeSync: leaves out V2 decompression, and reads only Data whose elements come in the order the encoder writes.
- PublicationFetch.PublicationFetcher.FetchAllPublications: which publications have a cached packet is given; the lookup itself is PiggyCache.ProbeFindsExtensions.
- MappingFetch.MappingFetcher.OnFetchedNameMappings: the subscriptions that a returned mapping concerns are not processed.
- MappingFetch.OnMappingQuery: takes the parsed query; the query name is built and parsed by plain calls.
