# A model of the block layer, the CBC cipher walk and the trace tools

This project models the parts of the repository that carry its hardest promises and proves those
promises for every input, every state or every run of steps.

- **Ordered writes (barriers).** One request queue as a state machine: insertion, scheduler dispatch,
  opening a barrier sequence, handing requests to the driver, completion, errors and re-queueing. The
  value-level protocol is in `OrderedQueue`; its invariant is in `BarrierInvariant`, kept by every step
  (`BarrierSteps`, `BarrierStages`); the theorems over whole runs are in `BarrierTheorems`, and what a
  barrier's sequence has to do before the barrier ends in `BarrierObligations`. What the single colour
  bit can bear is in `BarrierSeam` (colours that turn over and do no harm), `BarrierBreaks` (runs that
  go wrong) and `BarrierColours` (the exact rule). `RequestQueueClass` is the in-place form with the bit
  mask of `SequenceMask`; each of its methods is proved to take the protocol's step.
- **Request geometry.** How segments are counted, merged, mapped to a scatterlist and completed:
  `Segments`, `RequestGeometry`, `Completion`, `BlockRequest`, `Scatterlist`, `MergeHistory`. What a
  packing is without the code's own tests is in `Packings`; with which error a bio ends is in `Verdicts`.
- **Cipher block chaining.** `ByteXor`, `Cbc`, `CbcEquations`, `CipherWalk`, `BlkcipherSlots`.
- **Elevators.** The merge hash (`RequestHash`), one-way-elevator insertion (`DispatchSort`), the
  deadline scheduler (`Deadline`), and CFQ's request choice, queue merging, groups and their fairness
  (`CfqChoose`, `CfqMergeChain`, `CfqGroups`, `CfqFairness`).
- **Tags.** The lockless tag map (`TagMap`).
- **Trace tools.** Reordering and pairing of trace records (`TraceSort`, `TracePairs`).

`Options`, `Lists`, `Numbers` and `Multiples` are shared vocabulary.

Code that updates fields or buffers is modelled by classes, arrays and loops; code that only computes
is modelled by functions. History that the code does not keep (submission numbers, epochs, what has
been completed) is part of the barrier state and is never read by a step.

## Findings

Twelve promises turn out to be conditional. Each has a concrete failing input and an exact condition.

- **A packet command with the hard-barrier flag breaks barrier ordering.** The insertion code flips the
  queue's colour for every request that carries the flag, not only for file-system requests, and the
  packet driver sets the flag on packet commands (litmus2010/drivers/block/pktcdvd.c:754-755).
  `HardSpecialOvertakes` is a run in which data of the new epoch goes out while the barrier is still in
  the driver. `HardSpecialIff` gives the rule: after such a request every continuation respects every
  barrier if and only if no file-system request is live, or the newest barrier is still queued, is
  empty, needs no flush, and no data submitted since the barrier before it is live
  (`EmptyBarrierHarmless` is such a queue). The rule takes discards as they come, as file-system requests
  (litmus2010/drivers/scsi/sd.c:483-486). If callers could also submit other discards, only a queue
  without live file-system requests would be safe (`HardSpecialDiscardIff`).
- **Two partial completions may leave a bio at the wrong sector.** Each call moves the sector by its own
  byte count divided by 512. `HalvesLoseSector` completes two half sectors; `LeftLeftIff` shows that
  completing a and then b bytes equals completing a + b exactly when the two do not end in one bio with
  remainders that add up to a sector. The bios ended and the errors they report always agree
  (`EndedEnded`).
- **A merged request may have one sector more than the limit.** The limit is checked on whole sectors of
  each part. `OddBytesOverLimit` merges two bios of 1023 bytes under a limit of two sectors into a
  request of three. `OddBytes` is the exact rule for one merge; by `MergedWithinLimits` no history leads
  further, and none over the limit if the bios are of whole sectors, as those of file systems are.
- **A sector limit of 65536 or more is cut when a bio is merged.** The limit is kept in sixteen bits there
  (litmus2010/block/blk-merge.c:227) but not where two requests are merged, and it can be set that high
  (litmus2010/block/blk-sysfs.c:159-171, litmus2010/drivers/block/virtio_blk.c:357). `ShortLimitIff`: the
  two agree exactly if the limit is below 65536; at 65536 no bio is ever merged.
- **A cipher request may be reported as done although data was left untouched.** Unaligned data needs a
  bounce page. If none can be had, the walk hands out an empty chunk, and the driver takes that for the
  end (litmus2010/crypto/blkcipher.c:242-260). `SilentStop` is one block at an odd offset; by
  `StopsIff` and `CryptRequest` it happens exactly when there is no page and some chunk begins at an
  unaligned place, and then at least a block has not been touched.
- **The buffer for a copied chaining value is large enough only for some sizes.** This concerns chaining
  values that are longer than an aligned block and not a multiple of the alignment, such as 17 bytes
  with blocks of 16 (`OddIvOverflows`). `IvFitsIff` gives the exact inequality over all buffer
  addresses; by `UsuallyRoomy` CBC is safe, since its chaining value is one block.
- **A negative `writes_starved` starves writes for two billion batches or more.** The setting may be
  negative (litmus2010/block/deadline-iosched.c:423) but is compared with an unsigned counter.
  `NegativeStarves` covers every negative setting, -1 included. The bound of `Starve` holds for every
  setting, taken as unsigned; it is the documented one exactly if the setting is not negative.
- **Growing a tag map may drop below its old size.** The new depth is capped at twice the request limit,
  which can be lowered in the meantime (litmus2010/block/blk-sysfs.c:40-54), while the old contents are
  copied in full. `CopyFitsIff`: they fit exactly if the old depth is at most twice the limit; a map of
  256 tags grown to 300 with a limit of 4 is the example.
- **The trace sorter sorts only within its window.** `ReorderSortsIff`: for distinct non-zero numbers
  the result is sorted exactly when the first record is the lowest and fewer than 1000 higher-numbered
  records precede each record. `SwappedPairStays` is two records that stay out of order.
- **A hole in a trace may go unnoticed.** The search for the end of an interval starts afresh behind every
  record of the processor (ft_tools/src/ft2csv.c:70-90), so records missing right there are not noticed.
  `HoleMissed` is a start and an end with a gap between them that are joined; `FindSecond` is exact:
  found if and only if the end is there and no hole lies before it but right behind such records.
- **CFQ's neighbour search can miss the best request.** `MixedClassesMissed` is an example;
  `FindNextIff` says exactly when it does: some request is of a higher class than the neighbour that
  stands in front of it and the other neighbour does not make up for that.
- **Asynchronous requests leave the top two tags alone unless the depth is one or two.**
  `AsyncSparedIff`, with `AsyncTopTag` for the two exceptions.

One more observation: between the two halves of ending a tag, the tag index names a request whose own
tag is already cleared; `TagsExclusive` says exactly when.

## Model

| member | source | states |
|---|---|---|
| BarrierInvariant.InitInv | litmus2010/block/blk-barrier.c:25-50 | a fresh queue with drain ordering satisfies the protocol invariant |
| BarrierInvariant.HeadWhileActive | litmus2010/block/blk-barrier.c:236-280 | while a sequence runs the head is a non-file-system request or belongs to the current stage or a later one, and a file-system request that may go out belongs to the epoch being drained |
| BarrierSteps.HeadHandedOut | litmus2010/block/blk-barrier.c:236-280 | the queue hands out neither a queued barrier nor, in a running sequence, anything but the proxy whose turn it is, a request of the drained epoch or a non-file-system request |
| BarrierTheorems.StepCore | litmus2010/block/elevator.c:601-733 | every step keeps the invariant even with a seam in the colours, if no sequence runs across the seam |
| BarrierTheorems.StepInv | litmus2010/block/elevator.c:601-733 | every step a caller, scheduler or driver may take keeps the invariant: insertion, merging, dispatch, start, issue, completion, error, re-queue |
| BarrierTheorems.RunInv | litmus2010/block/blk-barrier.c:56-280 | the invariant holds in every state of every run |
| BarrierTheorems.IssueSeparated | litmus2010/block/blk-barrier.c:236-280 | whatever an orderly queue may hand out respects every barrier |
| BarrierTheorems.BarrierSeparates | litmus2010/block/blk-barrier.c:56-280 | in every run, a proxy goes out only when everything submitted before its barrier is completed, and data goes out only when every barrier submitted before it has ended |
| BarrierTheorems.DoneMeansFinished | litmus2010/block/blk-barrier.c:92-112 | a submission counts as completed only if an earlier step of the run completed a request that carries it, or ended its barrier |
| BarrierTheorems.Unstuck | litmus2010/block/blk-barrier.c:236-280 | with a sequence in progress, the driver owes a completion or the head may go out |
| BarrierTheorems.NeverStuck | litmus2010/block/blk-barrier.c:236-280 | the same in every state of every run, so no sequence deadlocks |
| BarrierTheorems.CallsFresh | litmus2010/block/blk-barrier.c:92-112 | no call that marks stages complete repeats a stage, against the mask as it is at that call |
| BarrierTheorems.ChecksSilent | litmus2010/block/blk-barrier.c:92-112 | in every run the fatal checks on repeated stages, on starting twice and on the head's stage never fire |
| BarrierTheorems.BarriersEndOnce | litmus2010/block/blk-barrier.c:92-112 | barriers end in submission order, each once, with the first error any of its stages reported |
| BarrierTheorems.HardSpecialOvertakes | litmus2010/drivers/block/pktcdvd.c:754-755 | a run with one hard-barrier packet command in which new data overtakes a barrier that is still in the driver |
| BarrierObligations.PassedMeansCompleted | litmus2010/block/blk-barrier.c:92-130 | at any point of any run, whatever the mode, a stage is open only if the barrier needs it, and a stage it needs is passed only after the driver completed it for this barrier |
| BarrierObligations.EndsAfterStages | litmus2010/block/blk-barrier.c:92-234 | in every run of a queue that orders, a barrier ends only after each stage its mode asks for (preflush; the barrier itself and postflush unless it is empty) was with the driver and completed for it |
| BarrierObligations.StagesInOrder | litmus2010/block/blk-barrier.c:236-280 | while the driver has a stage, the barrier needs that stage, and every needed earlier one has been completed before |
| BarrierObligations.BarriersRejected | litmus2010/block/blk-barrier.c:236-257 | in every run of a queue that cannot order, no sequence starts, no barrier reaches the driver, and each barrier ends at once with error -95 |
| BarrierSeam.TurnedCore | litmus2010/block/elevator.c:698-733 | turning the colour over behind the newest barrier keeps the invariant if nothing live is newer and that barrier is not running |
| BarrierSeam.SeamClear | litmus2010/block/blk-barrier.c:154-234 | a barrier that pauses at the seam has no stage left to wait for when its turn comes |
| BarrierSeam.SeamStep | litmus2010/block/blk-barrier.c:154-234 | no step without foreign discards takes that away |
| BarrierSeam.NeverBreaks | litmus2010/block/elevator.c:698-733 | every disciplined run from an orderly state hands out nothing it must not, whatever the parity of its colours, and across a seam too |
| BarrierBreaks.BreaksNewest | litmus2010/block/elevator.c:601-696 | with live data of the newest epoch and the colour turned over, a run of ordinary steps lets a proxy go before that data is completed |
| BarrierBreaks.BreaksPending | litmus2010/block/blk-barrier.c:236-280 | with the newest barrier still to end, a run lets later data go before it ends, by ordinary steps alone if the barrier has anything to wait for |
| BarrierColours.HardSpecialBreaks | litmus2010/block/elevator.c:698-733 | unless it is harmless, a hard-barrier non-file-system insertion leads to a run of ordinary steps that breaks separation |
| BarrierColours.HardSpecialIff | litmus2010/block/elevator.c:698-733 | after such an insertion all disciplined continuations are separated if and only if no file-system request was live or the newest barrier pauses |
| BarrierColours.HardSpecialDiscardIff | litmus2010/block/elevator.c:698-733 | with foreign discards among the continuations, if and only if no file-system request was live |
| BarrierColours.EmptyBarrierHarmless | litmus2010/block/blk-barrier.c:154-234 | an empty barrier alone on a queue that only drains is harmless though it is live |
| SequenceMask.FlagsNamed | litmus2010/include/linux/blkdev.h:579-584 | the named masks stand for the stages they name |
| SequenceMask.FlagsIdle | litmus2010/block/blk-barrier.c:56-61 | a mask is zero exactly when no sequence runs |
| SequenceMask.BitOrder | litmus2010/block/blk-barrier.c:63-90 | comparing stage bits as numbers is comparing stages |
| SequenceMask.CurSeqBits | litmus2010/block/blk-barrier.c:56-61 | the lowest clear bit of the mask is the current stage |
| RequestQueueClass.RequestQueue.StageOf | litmus2010/block/blk-barrier.c:63-90 | the stage bit of a request from its identity, type and colour |
| RequestQueueClass.RequestQueue.CompleteStages | litmus2010/block/blk-barrier.c:92-112 | marking stages complete takes the protocol's step; the sequence finishes exactly when no stage is left |
| RequestQueueClass.RequestQueue.SwapInProxies | litmus2010/block/blk-barrier.c:154-234 | the barrier leaves the list, its proxies take its place in issue order, and the in-flight count is restored |
| RequestQueueClass.RequestQueue.BeginSequence | litmus2010/block/blk-barrier.c:154-234 | opening a sequence: skipped stages are completed; a request is handed out exactly if there is nothing to drain, and it is the proxy at the head |
| RequestQueueClass.RequestQueue.Reject | litmus2010/block/blk-barrier.c:236-280 | a queue that cannot order ends the barrier with the not-supported error |
| RequestQueueClass.RequestQueue.HeadMayGo | litmus2010/block/blk-barrier.c:236-280 | the stage comparison decides exactly what the protocol allows |
| RequestQueueClass.RequestQueue.DoOrdered | litmus2010/block/blk-barrier.c:236-280 | hand out, hold back or retry: which, and with what new state; when a sequence opens, a request is handed out exactly if draining is over, and it asks for another turn exactly if the barrier is over at once |
| RequestQueueClass.RequestQueue.FetchTurn | litmus2010/block/blk.h:54-68 | one turn of the fetch loop is at most one protocol step, makes progress if it asks for another turn, returns only what may go out, and returns nothing from a non-empty list only if the head is held back |
| RequestQueueClass.RequestQueue.NextRequest | litmus2010/block/blk.h:54-68 | the fetch loop ends, moves only along protocol steps, and returns the head only if it may go out; it comes back empty-handed from an orderly queue with work only while the driver owes a completion |
| RequestQueueClass.RequestQueue.DrainElevator | litmus2010/block/elevator.c:559-571 | forced draining ends with an empty scheduler, along protocol steps |
| RequestQueueClass.RequestQueue.AddFsRequest | litmus2010/block/elevator.c:698-733 | a new request gets the current colour and a barrier flips it |
| RequestQueueClass.RequestQueue.RequeuePlace | litmus2010/block/elevator.c:601-696 | a returned request goes before the first entry of its own or a later stage |
| RequestQueueClass.RequestQueue.RequeueRequest | litmus2010/block/elevator.c:542-557 | re-queueing takes the protocol's step, accounting included |
| RequestQueueClass.RequestQueue.NothingToDrain | litmus2010/block/elevator.c:826-856 | whether the drain stage is over, from the in-flight count and the head |
| RequestQueueClass.RequestQueue.CompletedRequest | litmus2010/block/elevator.c:826-856 | accounting for a request that leaves the driver, with the end of draining |
| RequestQueueClass.RequestQueue.CompleteRequest | litmus2010/block/blk-barrier.c:114-130 | completion of any request, a proxy's end callback included, takes the protocol's step |
| RequestQueueClass.PathInv | litmus2010/block/blk.h:54-68 | the invariant holds at every point of the paths the class methods report |
| RequestQueueClass.EmptyHanded | litmus2010/block/blk.h:54-68 | a head that is held back means that the driver owes a completion |
| Segments.GreedyValid | litmus2010/block/blk-merge.c:118-170 | the packing the mapper builds is valid: vectors share a segment only if they touch, stay in one boundary window and within the size limit |
| Segments.GreedyMinimal | litmus2010/block/blk-merge.c:118-170 | no valid packing of the vectors has fewer segments |
| Segments.CountedIsMapped | litmus2010/block/blk-merge.c:12-70 | without bounce pages the counter counts exactly the segments the mapper emits |
| Packings.ValidIff | litmus2010/block/blk-merge.c:118-170 | the code's valid packings are exactly the packings whose segments of several vectors are contiguous, within the size limit and inside one boundary window, defined without the code's test |
| Packings.MappedSmallest | litmus2010/block/blk-merge.c:118-170 | the mapper's packing is one of those and none has fewer segments |
| Packings.CountedSmallest | litmus2010/block/blk-merge.c:12-70 | the counter counts the smallest packing in which vectors on bounced pages stand alone |
| Packings.GlueMeans | litmus2010/block/blk-merge.c:118-170 | the code's test of two neighbours is: clustering, touching, and one boundary window |
| Segments.ConcatPacking | litmus2010/block/blk-merge.c:273-308 | two packings side by side are a packing, with the outer end segments kept |
| Segments.JoinPacking | litmus2010/block/blk-merge.c:273-308 | two packings glued at a contiguous seam are a packing with one segment less |
| RequestGeometry.CountSegments | litmus2010/block/blk-merge.c:12-70 | the nested counting loop gives the number of segments and raises the recorded end sizes to the first and last segment, for any list of bios |
| RequestGeometry.RecountBio | litmus2010/block/blk-merge.c:77-85 | a fresh count describes a valid packing of the bio; count and end sizes recorded are exactly those of the counted packing, and end sizes only widen |
| RequestGeometry.MappedWithinTally | litmus2010/block/blk-merge.c:118-170 | the mapper never needs more entries than a right count |
| RequestGeometry.TallyJoined | litmus2010/block/blk-merge.c:273-308 | joining at a contiguous seam: one segment less, end sizes updated, count still right |
| BlockRequest.BackMergedOk | litmus2010/block/blk-merge.c:203-246 | a back merge keeps count, bytes and bios right and stays within the segment limit |
| BlockRequest.FrontMergedOk | litmus2010/block/blk-merge.c:248-271 | a front merge does too |
| BlockRequest.AbsorbedTally | litmus2010/block/blk-merge.c:273-308 | merging two requests keeps both counts right whether or not the merge goes through |
| BlockRequest.AbsorbedOk | litmus2010/block/blk-merge.c:273-308 | merging two requests re-establishes everything the next merge needs |
| BlockRequest.AbsorbedBytes | litmus2010/block/blk-merge.c:410-413 | a merge concatenates the data and adds the bytes; a refusal changes neither |
| BlockRequest.BackMergedRule | litmus2010/block/blk-merge.c:224-246 | a bio is appended if and only if the whole sectors of both parts are within the sector limit, in sixteen bits, and the segments fit; what count, bytes, data and flags are then, and after a refusal |
| BlockRequest.FrontMergedRule | litmus2010/block/blk-merge.c:248-271 | the same in front, with the new start sector |
| BlockRequest.ContiguousMeans | litmus2010/block/blk-merge.c:88-112 | the seam of two bios can be one segment exactly if clustering is on, the end sizes together are within the limit, and the vectors touch inside one boundary window |
| BlockRequest.AbsorbedRule | litmus2010/block/blk-merge.c:273-308 | two requests become one if and only if their sectors and their segments fit, one fewer if the seam can be one; what is recorded at the far ends |
| BlockRequest.ShortLimitIff | litmus2010/block/blk-merge.c:224-246 | cut to sixteen bits the limit stays the same if and only if it is below 65536 |
| BlockRequest.Request.NewHwSegment | litmus2010/block/blk-merge.c:203-222 | segments are added exactly if they fit; a refusal forbids merging |
| BlockRequest.Request.BackMerge | litmus2010/block/blk-core.c:1183-1203 | the whole back-merge path: appended if and only if sectors and segments fit, recount of stale bios, byte count, merge flag |
| BlockRequest.Request.FrontMerge | litmus2010/block/blk-core.c:1205-1236 | the whole front-merge path: prepended if and only if sectors and segments fit, with the new start sector |
| BlockRequest.Request.Absorb | litmus2010/block/blk-merge.c:273-308 | takes over the next request's bios if and only if sectors and segments fit, one segment fewer at a joined seam, end sizes included |
| MergeHistory.StepOk | litmus2010/block/blk-merge.c:203-308 | any step that builds requests keeps every request of the pool right |
| MergeHistory.HistoryOk | litmus2010/block/blk-merge.c:203-308 | after any history of creations, front merges, back merges and joins, every request is right |
| MergeHistory.MappedWithinCount | litmus2010/block/blk-merge.c:118-170 | after any such history, mapping a request needs at most as many entries as it has counted |
| MergeHistory.MergedWithinLimits | litmus2010/block/blk-merge.c:203-308 | after any such history, a request made by a merge is within the segment limit, within the sector limit if its bios are of whole sectors, and else at most one sector above |
| MergeHistory.OddBytes | litmus2010/block/blk-merge.c:224-246 | parts that fit one by one exceed the limit together if and only if they fill it and their odd bytes make up a sector |
| MergeHistory.OddBytesOverLimit | litmus2010/block/blk-merge.c:224-246 | a history of two steps that takes a request over the limit |
| Scatterlist.MapBio | litmus2010/block/blk-merge.c:118-170 | one bio mapped behind what is already mapped |
| Scatterlist.MapForDevice | litmus2010/block/blk-merge.c:118-200 | padding and drain buffer on top: the request's bytes come first, the total is padded, and at most one entry more than counted is used |
| Scatterlist.MapRequest | litmus2010/block/blk-merge.c:118-170 | the scatterlist covers exactly the request's bytes in order; every entry is a single vector or within the size limit and one boundary window; no packing so defined has fewer entries; it fits every right count |
| Completion.AdvanceDropsPrefix | litmus2010/block/blk-core.c:1940-2070 | completing n bytes drops exactly the first n bytes |
| BlockRequest.WalkRequest | litmus2010/block/blk-core.c:1966-2019 | the walk over bios and vectors stops at the byte where the completion ends |
| BlockRequest.LeftFacts | litmus2010/block/blk-core.c:1940-2070 | what is left: its bytes, its size, and that it is empty exactly if everything was completed |
| BlockRequest.NotBotched | litmus2010/block/blk-core.c:2057-2064 | the check for a current vector longer than the request never fires |
| BlockRequest.ErrorSticks | litmus2010/block/blk-core.c:133-160 | an error on part of a bio stays with the bio |
| BlockRequest.LeftLeftIff | litmus2010/block/blk-core.c:1940-2070 | completing a then b equals completing a + b if and only if no sector is lost between them |
| BlockRequest.EndedEnded | litmus2010/block/blk-core.c:1940-2070 | the bios ended and their errors are always those of completing a + b at once |
| Verdicts.OneGo | litmus2010/block/blk-core.c:133-160 | one completion: exactly the bios it covers end, in order, each with the call's error, or -5 if it failed before and the call did not; the bio it stops in is short of the bytes done and remembers a failure |
| Verdicts.TwoErrors | litmus2010/block/blk-core.c:133-160 | two completions with errors of their own: the bio the first stopped in fails if either did, the others end with the verdict of the go that ends them |
| Verdicts.UpdateErrors | litmus2010/block/blk-core.c:1940-2070 | the same for two updates of a request, which end every bio if the bytes suffice |
| BlockRequest.HalvesLoseSector | litmus2010/block/blk-core.c:133-160 | two half-sector completions leave the bio's sector unmoved |
| BlockRequest.Request.Update | litmus2010/block/blk-core.c:1940-2070 | the whole update: remaining chain, ended bios, byte count, the sector of requests that have one, exact fresh segment count, and both facts above |
| BlockRequest.UpdateTwice | litmus2010/block/blk-core.c:1940-2070 | two updates against one: same ended bios and bytes always, same chain exactly if no sector is lost |
| ByteXor.XorTwice | litmus2010/crypto/algapi.c:898-907 | exclusive or with the same bytes twice gives the original |
| ByteXor.WordXor | litmus2010/crypto/algapi.c:898-907 | a word-wide exclusive or is four byte-wide ones |
| ByteXor.XorInto | litmus2010/crypto/algapi.c:898-907 | words first, then odd bytes: together the byte-wise exclusive or, nothing else touched |
| Cbc.ChainedAppend | litmus2010/crypto/cbc.c:90-112 | chaining over a concatenation is chaining over its parts with the chaining value handed on |
| Cbc.RoundTrip | litmus2010/crypto/cbc.c:90-191 | decryption undoes encryption and both leave the same chaining value |
| Cbc.IvIsLastBlock | litmus2010/crypto/cbc.c:66-88 | the chaining value afterwards is the last ciphertext block |
| CbcEquations.CbcHolds | litmus2010/crypto/cbc.c:42-167 | every block of the output satisfies the equation of its mode: ciphertext is the cipher of plaintext combined with the ciphertext block before it, plaintext the inverse cipher of ciphertext combined with the ciphertext block before it, the initial value before the first |
| Cbc.EncryptSegment | litmus2010/crypto/cbc.c:42-64 | the loop writes the chained ciphertext of the whole blocks and leaves the rest |
| Cbc.EncryptInPlace | litmus2010/crypto/cbc.c:66-88 | in place, with the previous block as chaining value, the same |
| Cbc.DecryptSegment | litmus2010/crypto/cbc.c:114-138 | the same for decryption |
| Cbc.DecryptInPlace | litmus2010/crypto/cbc.c:140-167 | backwards and in place, decryption gives what the forward definition gives, and the last ciphertext block is saved as chaining value |
| Cbc.DoChunk | litmus2010/crypto/cbc.c:90-112 | a chunk done directly, in place, through a bounce page or through slots gives the same result |
| Cbc.Crypt | litmus2010/crypto/cbc.c:169-191 | for every legal division into chunks the driver computes the chained output of the whole buffer; it succeeds exactly if the length is a whole number of blocks |
| Cbc.EncryptThenDecrypt | litmus2010/crypto/cbc.c:90-191 | encrypting under one division and decrypting under another restores the buffer, with equal chaining values |
| Cbc.CryptChunks | litmus2010/crypto/cbc.c:90-112 | any legal list of chunks, complete or not, gives the chained output of the whole blocks it covers |
| CipherWalk.WalkFits | litmus2010/crypto/blkcipher.c:224-277 | the walk over any pair of scatterlists divides the request legally, and completely unless it stops |
| CipherWalk.ChunksRight | litmus2010/crypto/blkcipher.c:224-277 | every chunk lies in one entry and on one page on both sides and is as long as that goes; a block is gathered exactly if it does not, and copied exactly if it does but is not aligned |
| CipherWalk.StopsIff | litmus2010/crypto/blkcipher.c:224-277 | it stops early exactly if there is no bounce page and some chunk begins at an unaligned place |
| CipherWalk.CryptRequest | litmus2010/crypto/cbc.c:90-191 | a scattered request is encrypted or decrypted whole, with the right verdict, unless the walk stops; then success is reported with at least a block untouched |
| CipherWalk.SilentStop | litmus2010/crypto/blkcipher.c:224-277 | one block at an odd offset without a page |
| BlkcipherSlots.SpotFacts | litmus2010/crypto/blkcipher.c:65-69 | the spot lies on one page, moved at most to the boundary inside it, and only if needed |
| BlkcipherSlots.SlotsSound | litmus2010/crypto/blkcipher.c:278-301 | destination, source and chaining-value slots lie on one page each, do not overlap and stay in the allocation |
| BlkcipherSlots.SmallerBlocks | litmus2010/crypto/blkcipher.c:147-181 | a smaller block later in the same buffer stays clear of the chaining value |
| BlkcipherSlots.TwoSlotsSound | litmus2010/crypto/blkcipher.c:147-181 | without a copied chaining value the allocation for two slots is large enough |
| BlkcipherSlots.PageBuffer | litmus2010/crypto/blkcipher.c:147-181 | a page used as the buffer holds both slots |
| BlkcipherSlots.UsuallyRoomy | litmus2010/crypto/blkcipher.c:278-301 | the size condition holds if the chaining value is no longer than an aligned block or a whole number of alignment units |
| BlkcipherSlots.NotRoomyOverflows | litmus2010/crypto/blkcipher.c:278-301 | if the condition fails, some buffer address makes the chaining value end outside the allocation |
| BlkcipherSlots.OddIvOverflows | litmus2010/crypto/blkcipher.c:278-301 | blocks of 16 aligned to 16 with a chaining value of 17 bytes overflow at some address |
| BlkcipherSlots.IvFitsIff | litmus2010/crypto/blkcipher.c:278-301 | the chaining value fits for every buffer address if and only if the condition holds |
| RequestHash.ElevatorHash.Reposition | litmus2010/block/elevator.c:322-326 | a request whose end moved is on the chain of its new end |
| RequestHash.ElevatorHash.Insert | litmus2010/block/elevator.c:601-696 | exactly the mergeable requests are hashed on insertion |
| RequestHash.ElevatorHash.BackMerge | litmus2010/block/elevator.c:514-525 | after a back merge every hashed request is still on the chain of its end sector |
| RequestHash.ElevatorHash.FrontMerge | litmus2010/block/elevator.c:514-525 | a front merge keeps the end sector, so no chain changes |
| RequestHash.ElevatorHash.MergeRequests | litmus2010/block/elevator.c:527-540 | the survivor is re-hashed and the swallowed request is gone |
| RequestHash.ElevatorHash.Find | litmus2010/block/elevator.c:328-348 | the search succeeds exactly if some hashed mergeable request ends at the sector, returns such a one, and drops only unmergeable entries |
| DispatchSort.FindPlace | litmus2010/block/elevator.c:411-447 | the walk from the tail stops right behind the last entry that comes before the request, or at the start of its run |
| DispatchSort.InsertOrdered | litmus2010/block/elevator.c:411-447 | an ordered run stays in one-way-elevator order |
| DispatchSort.OrderedIsSweep | litmus2010/block/elevator.c:411-447 | the order kept is exactly: from the boundary upwards, then below it upwards |
| DispatchSort.DispatchList.Sort | litmus2010/block/elevator.c:411-447 | no barrier, started request, discard or request of the other direction is passed, and an ordered run stays one sweep of the disk from the boundary up and then from the bottom |
| DispatchSort.BatchOrdered | litmus2010/block/elevator.c:411-447 | any batch of like requests, however it arrives, ends as one sweep that is a permutation of it and what was there |
| CfqChoose.PrefersOrder | litmus2010/block/cfq-iosched.c:611-696 | the preference is total, transitive and indifferent only within one class at one sector |
| CfqChoose.ChooseIsBetter | litmus2010/block/cfq-iosched.c:611-696 | the pairwise choice is one of the two and at least as good as the other |
| CfqChoose.SeekRule | litmus2010/block/cfq-iosched.c:611-696 | within a class the lower sector is taken if and only if both lie ahead, both lie further back than a seek may go, or only it lies behind, in reach, and the way back times the penalty is shorter than the way forward |
| CfqChoose.ClassRule | litmus2010/block/cfq-iosched.c:611-696 | synchronous requests come before others and metadata next, wherever they lie |
| CfqChoose.BestOfIsBest | litmus2010/block/cfq-iosched.c:611-696 | choosing pairwise over a list gives the best of the list |
| CfqChoose.FindNextIff | litmus2010/block/cfq-iosched.c:745-766 | the neighbour search finds the best of all the others if and only if it overlooks none |
| CfqChoose.FindNextIsBest | litmus2010/block/cfq-iosched.c:745-766 | among requests of one class it always does |
| CfqChoose.MixedClassesMissed | litmus2010/block/cfq-iosched.c:745-766 | three requests for which it does not |
| CfqMergeChain.LinkKeepsAcyclic | litmus2010/block/cfq-iosched.c:1928-1959 | linking two different chain ends keeps every chain finite |
| CfqMergeChain.LoopNeverEnds | litmus2010/block/cfq-iosched.c:1928-1959 | a chain that leads back to its start has no end |
| CfqMergeChain.Queues.ChainEnd | litmus2010/block/cfq-iosched.c:1928-1959 | the walk ends at the chain's last queue, and gives up exactly if the other queue is on the chain |
| CfqMergeChain.Queues.SetupMerge | litmus2010/block/cfq-iosched.c:1928-1959 | who follows whom, which references are added, when nothing happens, and that no loop can arise |
| CfqMergeChain.Queues.ExitQueue | litmus2010/block/cfq-iosched.c:2506-2532 | the queue and every queue on its chain lose one reference, each exactly once, and the loop warning cannot fire |
| CfqGroups.ServeSpread | litmus2010/block/cfq-iosched.c:892-909 | charging the leftmost group leaves the spread of times within the larger of what it was and the charge |
| CfqGroups.SpreadBounded | litmus2010/block/cfq-iosched.c:892-909 | over any number of services of a fixed set of groups the times stay within the larger of the initial spread and the largest charge |
| CfqFairness.ScaleExact | litmus2010/block/cfq-iosched.c:483-490 | the charge is the scaled slice divided by the weight, rounded down |
| CfqFairness.HeavierChargedLess | litmus2010/block/cfq-iosched.c:483-490 | a heavier group is charged no more for the same slice |
| CfqFairness.ServedByWeight | litmus2010/block/cfq-iosched.c:892-909 | over any run in which groups stay busy, disk time divided by weight differs between two groups by at most a bound from the initial spread, the largest charge and the number of turns |
| CfqGroups.ServiceTree.Insert | litmus2010/block/cfq-iosched.c:785-810 | a group goes behind its equals and the cached leftmost stays right |
| CfqGroups.ServiceTree.AddGroup | litmus2010/block/cfq-iosched.c:813-838 | each busy queue is counted; with its first a group joins at the end with the last time plus the delay, or alone at the minimum |
| CfqGroups.ServiceTree.UpdateMin | litmus2010/block/cfq-iosched.c:510-526 | with an active group the minimum becomes the leftmost time if that is known, else the active group's; the tree's bound survives exactly if that is the least time |
| CfqGroups.ServiceTree.NextGroup | litmus2010/block/cfq-iosched.c:2066-2077 | the group served has the least time, and the minimum never goes down |
| CfqGroups.ServiceTree.Served | litmus2010/block/cfq-iosched.c:892-909 | the group is taken out, charged by its weight and put back in place; who is on the tree does not change |
| CfqGroups.ServiceTree.DelGroup | litmus2010/block/cfq-iosched.c:841-862 | the group is no longer active, and leaves the tree exactly with its last busy queue |
| Deadline.Scheduler.MoveRequest | litmus2010/block/deadline-iosched.c:207-222 | a request leaves both indexes, the ages keep their order, and the lowest sector above it in its direction continues the batch |
| Deadline.Scheduler.Evict | litmus2010/block/deadline-iosched.c:77-84 | a sector is cleared by sending its occupant, and nobody else, to the dispatch list; the other ages and the running batch stay unless it does |
| Deadline.Scheduler.AddRequest | litmus2010/block/deadline-iosched.c:101-113 | the request is in both indexes, youngest of its direction, with its expiry time; only an occupant of its sector goes out, and the other ages keep their order |
| Deadline.Scheduler.FrontMerge | litmus2010/block/deadline-iosched.c:156-168 | the request moves in the tree and keeps its age, and so do the others; only an occupant of its new sector goes out |
| Deadline.Scheduler.BackMerge | litmus2010/block/deadline-iosched.c:156-168 | a back merge changes neither index |
| Deadline.Scheduler.MergeRequests | litmus2010/block/deadline-iosched.c:171-189 | the survivor takes over the earlier expiry and that place among the ages, also when the other has just grown in front and not been moved; a batch about to go on with the other goes on above it |
| Deadline.Scheduler.Choose | litmus2010/block/deadline-iosched.c:245-327 | which request goes out, spelled out: a running batch goes on, else reads come first until writes have been passed over often enough, from the oldest if that has expired; the counters, and a bound that shrinks whenever a read goes out past waiting writes |
| Deadline.Scheduler.Dispatch | litmus2010/block/deadline-iosched.c:245-327 | one request goes out exactly if any waits, the one so chosen; both age lists are the old ones without it, and the lowest sector above it in its direction is to continue the batch |
| Deadline.DispatchNext | litmus2010/block/deadline-iosched.c:245-327 | two calls: after one that sent the request at a sector, the next sends the lowest sector above it of that direction exactly while there is one and the batch is not used up, else it starts a new batch |
| Deadline.DispatchAll | litmus2010/block/deadline-iosched.c:245-327 | any number of calls in a row send what was waiting, each request once, every batch in ascending order of sectors without leaving one out |
| Deadline.Scheduler.Drain | litmus2010/block/elevator.c:559-571 | forced draining ends and the elevator's count is then zero |
| Deadline.Perform | litmus2010/block/deadline-iosched.c:245-327 | no other operation raises the bound, and a dispatch call that sends no write lowers it |
| Deadline.Starve | litmus2010/block/deadline-iosched.c:245-327 | among any operations and for every setting, taken as unsigned, a waiting write goes out within writes_starved batches plus the running one, plus one call |
| Deadline.NegativeStarves | litmus2010/block/deadline-iosched.c:269-275 | with any negative setting and reads waiting, writes are passed over two billion times |
| TagMap.StepInv | litmus2010/block/blk-tag.c:337-384 | every atomic step of starting, ending and resizing keeps the tag invariant |
| TagMap.RunInv | litmus2010/block/blk-tag.c:282-384 | it holds in every state of every interleaving |
| TagMap.TagsExclusive | litmus2010/block/blk-tag.c:282-384 | in every interleaving no two requests have one tag, the index names the holder except between the halves of ending it, and every tag in use has its bit set |
| TagMap.ChecksSilent | litmus2010/block/blk-tag.c:282-316 | the complaints about missing tags and clear bits are never printed |
| TagMap.AsyncSpared | litmus2010/block/blk-tag.c:337-384 | with a fixed depth of at least three, asynchronous requests never have one of the top two tags |
| TagMap.AsyncSparedIff | litmus2010/block/blk-tag.c:337-384 | the top two tags are spared in every run of fixed depth if and only if the depth is neither one nor two |
| TagMap.AsyncTopTag | litmus2010/block/blk-tag.c:337-384 | with depth one or two they can |
| TagMap.TagsAllowed | litmus2010/block/blk-tag.c:337-384 | a request may take exactly the tags below the depth, asynchronous ones all but the top two and always the lowest, and gets one that is free |
| TagMap.TagQueue.FindFirstZero | litmus2010/block/blk-tag.c:337-384 | the lowest clear bit below the limit, or the limit |
| TagMap.TagQueue.StartTag | litmus2010/block/blk-tag.c:337-384 | a tag is given exactly if the queue is not crowded and one the request may have is free, and it is the lowest; map, index and request record it |
| TagMap.CopyFitsIff | litmus2010/block/blk-tag.c:107-138 | the old map's contents fit the larger one if and only if the old depth is at most twice the request limit |
| TagMap.TagQueue.Resize | litmus2010/block/blk-tag.c:220-265 | a smaller depth only lowers the limit, a shared map is not replaced, a replaced one keeps every tag in use; the depth afterwards |
| TagMap.TagQueue.EndTag | litmus2010/block/blk-tag.c:282-316 | the tag, its index entry and its bit are given back |
| TraceSort.FindLowest | ft_tools/src/ftsort.c:48-61 | the windowed scan, with its early stop at the wanted number |
| TraceSort.MoveRecord | ft_tools/src/ftsort.c:64-78 | the record moves down and those between shift up by one |
| TraceSort.Settle | ft_tools/src/ftsort.c:80-102 | the right record is put in place, and a hole or a move is reported exactly if there is one |
| TraceSort.Reorder | ft_tools/src/ftsort.c:80-102 | the whole pass in place; the holes counted are the breaks left in the result; nothing is fetched and no hole counted exactly if there was no break, and then nothing moves |
| TraceSort.UntouchedIff | ft_tools/src/ftsort.c:80-102 | the pass fetches nothing and leaves no break if and only if there was none to begin with |
| TraceSort.ReorderedPermutes | ft_tools/src/ftsort.c:80-102 | the result is a permutation of the input, whatever the numbers |
| TraceSort.ReorderSortsIff | ft_tools/src/ftsort.c:80-102 | the result is sorted if and only if the first record is the lowest and each record lies within the window |
| TraceSort.SwappedPairStays | ft_tools/src/ftsort.c:80-102 | two records in the wrong order are left as they are, since the first record is never moved |
| TracePairs.PairsApart | ft_tools/src/ft2csv.c:92-98 | intervals of one event on one processor do not overlap |
| TracePairs.PairUnique | ft_tools/src/ft2csv.c:92-98 | no end belongs to two starts and no start has two ends |
| TracePairs.PairsTogether | ft_tools/src/ft2csv.c:173-184 | among all pairs found in a trace no end occurs twice and none overlap |
| TracePairs.Next | ft_tools/src/ft2csv.c:50-68 | the next record of the processor if no hole comes before it, and none only if there is no such record |
| TracePairs.NextId | ft_tools/src/ft2csv.c:70-90 | found if and only if the first record with either event on the processor is the wanted one, no noticed hole comes before it and, without interleaving, no other record of the processor; the restarts counted are those other records |
| TracePairs.FindSecond | ft_tools/src/ft2csv.c:92-98 | the end of the interval, found if and only if it is there and reached in that sense |
| TracePairs.HoleMissed | ft_tools/src/ft2csv.c:50-90 | a start and an end that follows it directly are joined although numbers between them are missing |
| TracePairs.Converter.ShowCsv | ft_tools/src/ft2csv.c:119-142 | each start record is accounted for in exactly one counter: left out by its processor, unpaired, too long, not real-time, or printed; it is paired if and only if it is not left out and its end is found |
| TracePairs.Converter.SkipPrefix | ft_tools/src/ft2csv.c:173-184 | everything before the first end record is skipped |
| TracePairs.Converter.ShowId | ft_tools/src/ft2csv.c:173-184 | the counters add up to the start records after the prefix, those left out and too long are counted exactly, exactly the pairs to be shown are printed, every start is paired that is to be, and pairs do not overlap |

## Left out

- BarrierTheorems.BarrierSeparates: covers the three drain modes; with ordering by tag the device keeps the order, which the queue cannot show, and a queue without ordering refuses barriers.
- BarrierSteps.HeadHandedOut: a non-file-system request is outside the barrier's promise and may go out at any time.
- BarrierColours.HardSpecialIff: for queues whose mode issues the barrier itself, as every drain mode does, and on which no live request is a discard of another type; a file-system discard that a driver turns into a packet command when it prepares it keeps its type in the model.
- RequestQueueClass.RequestQueue.ChoosePlace: any place the scheduler is allowed to take; the sorted place is DispatchSort.
- RequestQueueClass.RequestQueue.ElevatorDispatch: the scheduler is any scheduler that moves one request or none, and moves one when forced.
- BarrierTheorems.StepInv: no file-system request is inserted at the front of the list, which the source relies on too (litmus2010/block/blk-barrier.c:189-193).
- BarrierObligations.StagesInOrder: for the drain modes; with ordering by tag the stages are issued together and the device keeps the order.
- BlockRequest.Request.Absorb: requests a driver has prepared already, which are never merged, are not modelled, and bios are taken to carry data, so the seam of a bio without data is not.
- CfqFairness.ServedByWeight: a fixed set of groups.
- Scatterlist.MapForDevice: clearing the drain buffer is not modelled.
- CfqGroups.SpreadBounded: a fixed set of groups; a group that joins starts at the end with its own delay.
- CfqGroups.ServiceTree.AddGroup: the sum of the weights is not modelled.
- CfqMergeChain.Queues.ExitQueue: a queue whose count reaches zero is not freed in the model.
- TagMap.AsyncSpared: for a queue whose depth is not changed; a resize may leave higher tags in use.
- TagMap.StepInv: allocation failure is not modelled, and a map that its contents do not fit is excluded; when that happens is CopyFitsIff.
- TagMap.TagQueue.Resize: excludes the same case.
- TraceSort.ReorderSortsIff: for distinct numbers other than zero; zero means no previous number to the sorter.
- BlkcipherSlots.SlotsSound: for sizes of which all three slots fit one page.
- Cbc.Crypt: the division into chunks is a parameter; the walk that makes it is CipherWalk.
- CipherWalk.CryptRequest: source and destination are arrays, the scatterlists say only where their bytes lie; failure to allocate slots or a copy of the chaining value is not modelled.
- In-flight requests are one sum over both directions; the source keeps two counters and tests their sum.
- Sector, byte-count, virtual-time and clock arithmetic is unbounded; wrap-around of 64-bit values is not modelled.
- Masking with a power of two is modelled as rounding down.
- Red-black trees are modelled by their order, not by their balancing.
- Failfast flags, I/O priorities, accounting statistics and integrity data of requests would only add easy members.
- The schedulers' sysfs settings are fixed for the life of a scheduler.
- The anticipation, slice and idling logic of CFQ, the no-op scheduler, request timeouts, the block-device maps and the rest of the kernel tree are not part of this model.
- The other cipher modes, hashes and the real-time scheduling plug-ins are not part of this model.
