# mk1: a verified model

mk1 is a sequencer for a based rollup. While it is the preconfer it builds L2 blocks, collects them
in an outstanding batch, and proposes batches to L1 as blobs. This project models the logic of it
that is not I/O, and proves what that logic keeps over all inputs and all runs.

* **Blob codec** (`BlobFormat`, `BlobBits`, `BlobDecoding`, `BlobEncoder`, `BlobDecoder`,
  `BlobSidecars`). The format is specified as 1024 groups of 127 bytes. Encoder and decoder are array programs proved
  against it; round trip and canonicity are theorems about the specification.
* **Fees and posting** (`Fees`, `Retries`, `RetryOutcomes`, `Poster`). Fee hints that cover EIP-1559 growth, a retry
  loop that gives up in time, exactly how it ends, block parameters that can be read back.
* **Batching pipeline** (`Batches`, `AnchoredBlocks`, `BatchLists`, `BatchMaps`, `Coinbases`,
  `Reanchoring`, `Packing`, `Grouping`, `Pipeline`, `PipelineResults`, `PipelineTimes`, `PipelineOrder`,
  `PipelinePosting`, `Sorting`). Blocks are grouped by anchor, split by coinbase, re-anchored and
  re-timestamped. Blocks are conserved, batches are proposable and can be read back, and neither grouping nor
  packing makes more batches than it has to.
* **Lookahead** (`Lookahead`, `Handover`). A ring of three entries that answers as a set of epochs, the
  status timeline, and mutual exclusion between operators over all runs of syncs, with the exact
  condition on a sync that it rests on.
* **State machines** (`SoftBlocks`, `GapDownloads`, `Submission`, `QueueHistory`, `Throttle`, `Driver`,
  `DriverRuns`, `DriverEvents`, `DriverSizes`, `DriverTiming`, `Ledger`, `WindowStart`, `DriverQueue`,
  `HandGaps`). The concurrent downloader, the submission queue and the outstanding batch, each as a step
  function with an invariant over every run, and what follows for them together.

Code that changes state is a class or a method proved equal to a function of the old state; the
theorems are about those functions. `Wrappers` and `Integers` hold small shared definitions.
Verify with `dafny verify dfyconfig.toml`.

What the model takes as parameters: the estimated compressed size is any fixed function of the raw
size (`Estimate`), monotone where a theorem says so; the answers of nodes and contracts are inputs of
the events. A batch capacity is at least 1, a throttling factor at least 1.

Where the code departs from what it is meant to do:

* `decode_blob_data` loads byte 0 without the check that all other lead bytes get
  (`BlobDecoding.CanonicalIff`, `BlobDecoding.NotCanonical`).
* `create_batches` means to move blocks to the higher of the safe anchor and the anchor of the
  highest unsafe block, but takes the header of that L2 block. `DriverRuns.NewAnchorIsHigherIff`
  says when the result is the one meant, `DriverRuns.NewAnchorRecentIff` when it is at least recent
  enough, `DriverRuns.NewAnchorTooOld` gives an input for which it is not.
* A sync files the answers of the contract, which are about the epoch the contract is in, under the
  epoch of the head it processes. Claims stay a node's own for all owners exactly if the two epochs
  agree (`Handover.InStepIff`); otherwise two nodes can propose, or sequence, at one slot
  (`Handover.LaggingBothPropose`, `Handover.LaggingBothSequence`), and that they do not, for all
  owners, is again the same condition (`Handover.ExclusionIff`).
* The submission queue does not compare a request with the one in flight. `Submission.RunDisjointIff`
  says when that does no harm, `DriverQueue.SyncResubmits` how the driver comes to do harm.
* The gas limit of retries is called a minimum and is taken with `min`, so an estimate above
  MIN_GAS_LIMIT is cut off (`Retries.RetryGasLimitIff`).
* A proposal whose transaction is rejected because of its fees goes on without checking the deadline, and
  before the fee cap if it was rejected while being filled in. `Retries.EndlessIff` says exactly which
  rejections, blob fee or base fee, keep it going for ever; `Retries.AttemptsBounded` bounds all other
  attempts, whatever they are mixed with.
* A node that can only sequence takes over blocks up to capacity, whatever their size. Later submissions
  stay within the target size exactly if what it took over does (`DriverSizes.SyncFitsIff`); an input
  for which it does not is in `DriverSizes.TakenOverTooLarge`.
* Missing blocks are looked for only while the outstanding batch has blocks
  (`HandGaps.HandConsecutiveIff`).
* The comment on MAX_FEES says 0.5 ETH and the constant is 0.125 ETH. The model follows the code.

## Model

| member | source | states |
|---|---|---|
| BlobEncoder.CreateBlobFromData | crates/primitives/src/blob.rs:266-341 | the encoder with its offsets, special first round and early exit computes the uniform 127-byte grouping of header, data and zeros; it fails exactly on data over 130044 bytes, never reaches `DataDidNotFit`, and its asserts never trip |
| BlobEncoder.WriteRound | crates/primitives/src/blob.rs:277-334 | one round writes the next 128 bytes of the encoding and consumes exactly the data of one group, the first round 4 bytes fewer |
| BlobEncoder.ReadOneByte | crates/primitives/src/blob.rs:438-448 | reading at or past the end of the data gives 0, which is the next payload byte |
| BlobEncoder.Read31Bytes | crates/primitives/src/blob.rs:450-460 | a partial or empty read is padded with zeros to the next 31 payload bytes |
| BlobEncoder.WriteOneByte | crates/primitives/src/blob.rs:462-475 | a lead byte is written at a multiple of 32 and has its two top bits clear (the asserts) |
| BlobEncoder.Write31Bytes | crates/primitives/src/blob.rs:477-489 | a body is written one past a multiple of 32 (the assert) and leaves what was written before |
| BlobEncoder.RestIsZero | crates/primitives/src/blob.rs:277-280 | once the data is used up everything still unwritten is zero, so leaving early loses nothing |
| BlobDecoder.DecodeBlobData | crates/primitives/src/blob.rs:346-399 | on every 131072-byte blob the decoder returns what the grouping says or the first error in its order, without indexing out of range |
| BlobDecoder.DecodeFieldElement | crates/primitives/src/blob.rs:402-421 | copies 31 bytes, leaves a hole of one, and rejects a lead byte with a top bit set |
| BlobDecoder.ReassembleBytes | crates/primitives/src/blob.rs:424-434 | fills the three holes of a round with the bytes put together from four lead bytes |
| BlobFormat.JoinSplit | crates/primitives/src/blob.rs:297-333 | cutting the three spare bytes into four lead bytes and joining them is the identity, and the lead bytes have clear top bits |
| BlobFormat.SplitJoin | crates/primitives/src/blob.rs:424-434 | conversely, joining four lead bytes with clear top bits and cutting is the identity |
| BlobBits.MasksAndShifts | crates/primitives/src/blob.rs:299-331 | each mask and shift, and the test of the two top bits, is the arithmetic of the specification |
| BlobBits.OperandsArePieces | crates/primitives/src/blob.rs:318-331 | the two operands of every disjunction are pieces of four and four bits, or of six and two |
| BlobBits.JoinedBits | crates/primitives/src/blob.rs:427-429 | the disjunction of such pieces is their sum |
| BlobFormat.LengthOfLengthBytes | crates/primitives/src/blob.rs:286-289 | the 24-bit length prefix reads back as the length |
| BlobFormat.DecodeEncodeGroups | crates/primitives/src/blob.rs:266-341 | decoding the groups of an encoding gives the payload, with all lead bytes acceptable |
| BlobFormat.EncodeDecodeGroups | crates/primitives/src/blob.rs:346-399 | encoding the groups decoded from acceptable bytes gives those bytes |
| BlobFormat.EncodeZeroTail | crates/primitives/src/blob.rs:277-280 | zero groups encode to zeros |
| BlobDecoding.DecodedIff | crates/primitives/src/blob.rs:346-399 | decoding gives `data` if and only if the blob, its first byte without the two top bits, is the encoding of `data` |
| BlobDecoding.RoundTrip | crates/primitives/src/blob.rs:255-266 | decoding inverts encoding for every byte string of at most 130044 bytes |
| BlobDecoding.CanonicalIff | crates/primitives/src/blob.rs:355-367 | an accepted blob is the encoding of its data if and only if its first byte has its two top bits clear |
| BlobDecoding.NotCanonical | crates/primitives/src/blob.rs:367 | a blob that is accepted and is not the encoding of its data: the first byte is loaded without the check |
| BlobDecoding.Layout | crates/primitives/src/blob.rs:255-341 | version and length stand after the first byte, and each byte of the data that is not one of the three spare ones of its group stands in the clear, one place further for each group |
| BlobDecoding.LeadLayout | crates/primitives/src/blob.rs:297-333 | the bits of the three spare bytes of each group, by position, in its four lead bytes |
| BlobDecoding.RejectedIff | crates/primitives/src/blob.rs:349-417 | a wrong version is reported first, then a length over the maximum, then a lead byte other than the first with a top bit set |
| BlobSidecars.CreateBlobsFromData | crates/primitives/src/blob.rs:204-216 | as many blobs as the size asks for, the quotient rounded up; blob k is the encoding of the data from k times 130044 on, up to 130044 bytes |
| BlobSidecars.DecodeBlobsIntoBytes | crates/primitives/src/blob.rs:233-254 | decodes the selected blobs in order and concatenates, or returns the first error |
| BlobSidecars.FirstErrorIff | crates/primitives/src/blob.rs:241-247 | it fails if and only if one of the selected blobs does, with the error of the first that does |
| BlobSidecars.ChunksRoundTrip | crates/primitives/src/blob.rs:204-254 | data of any length survives chunking, encoding, decoding and concatenation |
| BlobSidecars.SidecarsRoundTrip | crates/primitives/src/blob.rs:233-254 | the same with other blobs mixed in, even undecodable ones |
| BlobSidecars.FieldElementsAreScalars | crates/primitives/src/blob.rs:462-475 | each of the 4096 field elements is below BLS_MODULUS (Parameters section of EIP-4844) |
| Fees.FeesHints.Double | crates/primitives/src/blob.rs:71-75 | doubles all three hints in place |
| Fees.FeesHints.NextBlockIncrease | crates/primitives/src/blob.rs:80-98 | raises the base fee share and the blob fee by 12.5% plus one, the tip unchanged |
| Fees.FeesHints.BumpBaseFee | crates/primitives/src/blob.rs:119-139 | bumps only if the new base fee is not below the old one |
| Fees.BumpCovers | crates/primitives/src/blob.rs:119-139 | a bump covers exactly the new base fee, tips a tenth of it and no more than needed for that, and lowers nothing; without a bump nothing changes |
| Fees.TipCovers | crates/primitives/src/blob.rs:102-113 | enforcing a tip reaches it and gives up no base fee; a tip that is high enough stays, otherwise tip and blob fee are one wei above |
| Fees.RaisedCovers | crates/primitives/src/blob.rs:77-98 | raised n times, the hints cover every base fee that n blocks can reach under the rule in the Specification section of EIP-1559, the tip unchanged |
| Fees.RaisedCoversBlobs | crates/primitives/src/blob.rs:77-98 | raised n times, the blob fee covers n blocks in each of which it rises by at most an eighth; a raise is one wei above an eighth |
| Fees.RaiseIsTight | crates/primitives/src/blob.rs:77-98 | after a full block the raise is exactly the base fee, or one wei above it from 8 wei on |
| Poster.GenerateBatch | crates/driver/src/batch_submitter/poster.rs:194-228 | the loop computes the last timestamp, time shifts, counts and concatenated transactions |
| Poster.BatchParamsRoundTripIff | crates/driver/src/batch_submitter/poster.rs:198-228 | for every non-empty batch the parameters determine all timestamps and transaction lists if and only if timestamps are 0 to 255 seconds apart and every list is shorter than 65536 |
| Retries.ProposeBatchWithRetries | crates/driver/src/batch_submitter/poster.rs:283-389 | the deadline and head lookups first, then exactly the steps of the specification on any script of node answers |
| Retries.SendsBounded | crates/driver/src/batch_submitter/poster.rs:306-385 | however the node answers, at most 57 transactions are sent for each time hints are estimated |
| Retries.AcceptedRunSendsAtMost57 | crates/driver/src/batch_submitter/poster.rs:306-385 | accepted and never mined, a proposal ends with `FeesTooHigh` after at most 57 transactions |
| Retries.DoublingDoesNotOverflow | crates/driver/src/batch_submitter/poster.rs:383-384 | when a blob transaction is retried the doubled fees are at most twice MAX_FEES, far below 2^128 |
| Retries.RetryGasLimitIff | crates/driver/src/batch_submitter/poster.rs:428-430 | the gas limit kept for retries is at least the estimate if and only if the estimate is at most MIN_GAS_LIMIT |
| Retries.GasLimitStays | crates/driver/src/batch_submitter/poster.rs:313-318 | a gas limit once set stays for the rest of the run |
| Retries.RetryGasTooLow | crates/driver/src/batch_submitter/poster.rs:428-430 | an estimate of six million gas is retried with five million |
| Retries.AttemptsBounded | crates/driver/src/batch_submitter/poster.rs:306-385 | however the node answers, at most 343 attempts are made for each time hints are estimated, not counting idle ones: filling fails because of the blob fee, or the hints are raised just to the base fee a rejection names |
| Retries.ProposalAttempts | crates/driver/src/batch_submitter/poster.rs:283-306 | the same for a proposal from its start |
| Retries.EndlessIff | crates/driver/src/batch_submitter/poster.rs:333-370 | repeated, an attempt goes on for ever without fresh hints if and only if filling fails because of the blob fee or of a base fee not below that of the hints, or sending fails because of such a base fee and the fee cap allows the hints before and after the raise |
| Retries.AttemptsUnbounded | crates/driver/src/batch_submitter/poster.rs:337-343 | endless attempts have no bound: they reach neither fee cap nor deadline, send nothing and estimate nothing anew |
| Retries.AffordableFees | crates/driver/src/batch_submitter/poster.rs:507-523 | a total within MAX_FEES bounds the max fee and the blob fee one by one, despite saturation |
| Retries.MaxBatchFeeIsExact | crates/driver/src/batch_submitter/poster.rs:507-523 | the fee total is exact, gas limit times max fee plus blob gas times blob fee, cut off at the u128 bound |
| RetryOutcomes.OutcomeIff | crates/driver/src/batch_submitter/poster.rs:306-388 | a run ends with an outcome if and only if it reaches an attempt that ends it so: landed exactly when a transaction is sent and included, past the deadline or not; deadline reached exactly when one is sent, not included and the deadline has passed; too high exactly when one costs more than MAX_FEES; failed exactly when the chain cannot be looked up or the rejection cannot be recovered from |
| RetryOutcomes.SentOutcome | crates/driver/src/batch_submitter/poster.rs:306-385 | from the answers alone: after n attempts that were sent and not mined, one more that is sent lands with n + 1 transactions if it is included, reaches the deadline exactly if that has passed, and otherwise goes on with hints of 2^(n+1) times the first ones, the first nonce and a gas limit fixed by the first estimate |
| RetryOutcomes.NonceStays | crates/driver/src/batch_submitter/poster.rs:313-315 | the nonce of the first transaction sent is used for all later ones |
| RetryOutcomes.RejectionsCovered | crates/driver/src/batch_submitter/poster.rs:337-343 | after n rejections because of the blob fee the hints cover base fee and blob fee of n blocks later, tip unchanged |
| RetryOutcomes.BaseFeeFollowed | crates/driver/src/batch_submitter/poster.rs:345-371 | after a rejection because of the base fee the hints cover exactly the base fee that was named, or were estimated anew, which happens if and only if none was named or the hints did cover it |
| AnchoredBlocks.NewContiguous | crates/primitives/src/taiko/block.rs:78-96 | sorts by number and returns the first gap or duplicate, or the sorted blocks |
| AnchoredBlocks.ContiguousIff | crates/primitives/src/taiko/block.rs:78-96 | succeeds if and only if the numbers are those of one interval, each once, in any order |
| AnchoredBlocks.FirstGap | crates/primitives/src/taiko/block.rs:78-96 | what is reported is the first block out of line and the number expected there |
| AnchoredBlocks.OutstandingIsFinalRun | crates/primitives/src/taiko/block.rs:108-133 | with anchors that never decrease the outstanding batch is the longest run of final blocks that share the last anchor and fit the capacity |
| AnchoredBlocks.OutstandingOnHighest | crates/primitives/src/taiko/block.rs:108-133 | in whatever order the anchors are, the outstanding batch is on the highest and has blocks of that anchor only, all of them unless they are more than the capacity |
| Batches.MutableBatch.AddBlockAndResetIfFull | crates/primitives/src/taiko/batch.rs:125-145 | drops blocks from the new number on, then adds the block or returns the full batch and starts a new one |
| Batches.FitsIff | crates/primitives/src/taiko/batch.rs:96-119 | a block fits if and only if the batch stays within the target size and the capacity with it; the size is checked and reported first |
| Batches.MutableBatch.TakeAndReset | crates/primitives/src/taiko/batch.rs:299-311 | returns the batch as it was and leaves an empty one on the new anchor |
| Batches.MutableBatch.SetAllBlocksTimestamp | crates/primitives/src/taiko/batch.rs:329-333 | changes every timestamp and nothing else |
| Batches.AgeLimitIff | crates/primitives/src/taiko/batch.rs:178-200 | j more slots keep the anchor height and the first timestamp within the protocol bounds if and only if j is at most the age limit |
| Batches.AgeLimitDrop | crates/primitives/src/taiko/batch.rs:178-200 | from slot to slot the limit drops by at most one and never rises |
| Batches.TriggersInTime | crates/driver/src/driver.rs:384-396 | a driver that checks at every slot triggers with the whole buffer left, as long as its batch gets no older than the slots that pass |
| Batches.ForcedBlocksFitIff | crates/primitives/src/taiko/batch.rs:149-157 | whatever the batch, a block built some seconds after a slot at which none was forced has a time shift within a byte if and only if those are at most 5 seconds |
| DriverRuns.BeforeIsPrefix | crates/primitives/src/taiko/batch.rs:214-222 | of ordered blocks, dropping those from a number on keeps exactly a prefix |
| DriverRuns.AfterIsSuffix | crates/primitives/src/taiko/batch.rs:203-212 | of ordered blocks, dropping those up to a number keeps exactly a suffix |
| BatchMaps.NewBatchMap | crates/primitives/src/taiko/batch_map.rs:58-106 | the map filled block by block, each anchor's last batch updated in place, then sorted per anchor |
| BatchMaps.MapOfSortsByAnchor | crates/primitives/src/taiko/batch_map.rs:58-106 | filling the map sorts the blocks stably by anchor into proposable, non-empty batches; nothing is lost, repeated or moved between anchors |
| Grouping.GroupingIsOptimal | crates/primitives/src/taiko/batch_map.rs:66-88 | a batch is followed by another one of its anchor only if the first block of that one would take it over capacity or over the target, and no order-preserving way to cut the blocks of an anchor into proposable batches has fewer |
| BatchMaps.BatchesAlreadySorted | crates/primitives/src/taiko/batch_map.rs:96-103 | the final sort of the batches of an anchor changes nothing |
| Coinbases.SplitByCoinbase | crates/primitives/src/taiko/batch.rs:341-369 | the splitting loop computes the runs of equal coinbase |
| Coinbases.RunsLaws | crates/primitives/src/taiko/batch.rs:341-369 | the parts are consecutive blocks of the batch, in order, each of one coinbase, and maximal |
| Coinbases.EnsureUniqueCoinbase | crates/primitives/src/taiko/batch_map.rs:110-121 | splits every batch of the map in place |
| Coinbases.UniqueCoinbasesKeeps | crates/primitives/src/taiko/batch_map.rs:110-121 | splitting keeps all blocks in place, every batch proposable, and gives each batch one coinbase |
| Reanchoring.ReanchorMap | crates/primitives/src/taiko/batch_map.rs:129-189 | packs all blocks again on the safe anchor if the oldest anchor is too old, with the reason it reports |
| Reanchoring.PackedLaws | crates/primitives/src/taiko/batch_map.rs:159-176 | packing keeps the blocks in order; every batch is proposable and on the new anchor |
| Reanchoring.Pack | crates/primitives/src/taiko/batch_map.rs:164-176 | the packing loop |
| Packing.PackingIsOptimal | crates/primitives/src/taiko/batch_map.rs:164-176 | no order-preserving way to form proposable batches has fewer than the non-empty batches of the packing |
| Packing.PackedIsPartition | crates/primitives/src/taiko/batch_map.rs:164-176 | the bound is met: the non-empty batches are such a way |
| Packing.EmptyBatchIff | crates/primitives/src/taiko/batch_map.rs:164-176 | the only batch that can be empty is the first, and it is if and only if the first block alone is over the target (or there are no blocks) |
| Pipeline.RetimestampMap | crates/primitives/src/taiko/batch_map.rs:195-226 | the loops with their flag, and the reason they report |
| Pipeline.RetimeMapIsRetimeBatches | crates/primitives/src/taiko/batch_map.rs:195-226 | going through the map entry by entry is going through its batches in order |
| Pipeline.CreateBatches | crates/driver/src/sync/mod.rs:191-225 | the stages in their order compute the specified batches and reasons |
| Pipeline.PopWithCoinbase | crates/primitives/src/taiko/batch.rs:414-422 | takes the last batch if and only if it has the coinbase |
| PipelineResults.PipelineKeepsBlocks | crates/primitives/src/taiko/batch_map.rs:58-238 | no block is lost, repeated or invented; a prefix in range keeps its timestamps and all others move to the maximum, and there are others only if one of them was out of range |
| PipelineResults.OrderKeptIff | crates/primitives/src/taiko/batch_map.rs:58-238 | the blocks come out in their own order if and only if re-anchoring fires or anchors never decrease |
| PipelineResults.ReanchorIff | crates/primitives/src/taiko/batch_map.rs:248-260 | re-anchoring fires if and only if some block has an anchor below the minimum |
| PipelineResults.PipelineBatchesValid | crates/primitives/src/taiko/batch_map.rs:110-226 | every batch is within capacity and, unless a single block, within the target; anchors never decrease and are recent enough if the safe anchor is; coinbases are uniform unless everything was re-anchored |
| PipelineResults.PipelineTimestamps | crates/primitives/src/taiko/batch_map.rs:195-226 | all timestamps end up in range, ordered timestamps stay ordered, and nothing changes if all were in range |
| PipelineResults.NoReasonsIff | crates/primitives/src/taiko/batch_map.rs:129-226 | no reason to change the chain is reported if and only if no anchor is too old and no timestamp out of range |
| PipelineTimes.RetimedExactly | crates/primitives/src/taiko/batch_map.rs:195-226 | a batch keeps its timestamps if and only if neither it nor any batch before it has a block out of range; otherwise all its blocks get the maximum, and nothing else changes |
| PipelineTimes.ReasonsExactly | crates/primitives/src/taiko/batch_map.rs:178-223 | the reasons: the lowest anchor and the new one if some anchor is too old, then the range if some timestamp is out of it |
| PipelinePosting.CreatedRoundTrip | crates/driver/src/batch_submitter/poster.rs:198-228 | for blocks in their order with timestamps 0 to 255 seconds apart, the parameters posted for each batch of the pipeline determine its timestamps and transactions, re-timestamped or not |
| PipelineOrder.CreatedIncreasing | crates/primitives/src/taiko/batch_map.rs:58-238 | inside every batch block numbers increase |
| PipelineOrder.CreatedConsecutive | crates/primitives/src/taiko/batch_map.rs:58-238 | with anchors that never decrease, or after re-anchoring, every batch is a run without a gap |
| Lookahead.Window.ApplyEpoch | crates/driver/src/lookahead.rs:346-348 | the ring holds the set of epochs with the epoch of the same index replaced |
| Lookahead.Window.ResetAtEpoch | crates/driver/src/lookahead.rs:317-320 | removes whichever epoch has the same index, and nothing else |
| Lookahead.OneEpochPerIndex | crates/driver/src/lookahead.rs:290-302 | for an epoch that is set that is exactly this epoch |
| Lookahead.Window.Contains | crates/driver/src/lookahead.rs:351-357 | true if and only if the epoch of slot plus offset is in the set, for any offset |
| Lookahead.FirstMatchIff | crates/driver/src/lookahead.rs:339-357 | entries that are not set match epoch 0, yet the first match answers as the set does |
| Lookahead.Window.End | crates/driver/src/lookahead.rs:362-374 | the shifted end of the largest epoch, or 0 for the empty set |
| Lookahead.Window.CalculateInclusion | crates/driver/src/lookahead.rs:280-303 | learns the current and the next epoch, erasing stale entries |
| Lookahead.Window.CalculateSequencing | crates/driver/src/lookahead.rs:325-335 | the sequencing ring holds the same epochs as the inclusion ring |
| Handover.Node.Sync | crates/driver/src/lookahead.rs:48-98 | nothing is learned in the first slot of an epoch or when a call fails; the status follows from the set of epochs |
| Handover.Node.Status | crates/driver/src/lookahead.rs:138-152 | the status computed from the two rings is the one the set of epochs gives |
| Handover.Node.IsLastBlockInSequencingWindow | crates/driver/src/lookahead.rs:157-172 | true exactly for the timestamp one L2 slot before the end of the window (or of slot 0 if the window is empty) |
| Handover.HandoverWaitEnds | crates/driver/src/lookahead.rs:188-212 | in the handover slots, waiting ends with the mark of the epoch before or once the skipped L2 slots have passed |
| Handover.SyncKeepsOwnIff | crates/driver/src/lookahead.rs:56-79 | for given owners, a sync keeps the node's claims its own if and only if what it files under the epoch of its head is the node's own |
| Handover.InStepIff | crates/driver/src/lookahead.rs:56-79 | a sync that learns keeps claims own for all owners if and only if the contract is in the epoch of the head |
| Handover.ClaimsOnlyOwn | crates/driver/src/lookahead.rs:48-98 | in every run of such syncs a node only claims epochs that are its own |
| Handover.MutualExclusion | crates/driver/src/lookahead.rs:138-152 | two nodes with different operators never both sequence nor both propose at one slot, in any two runs of syncs that file only own epochs |
| Handover.ExclusionInStep | crates/driver/src/lookahead.rs:138-152 | in particular when each sync that learns finds the contract in the epoch of its head |
| Handover.ExclusionIff | crates/driver/src/lookahead.rs:138-152 | a sync that learns leaves a node excluded from every other one, for all owners and slots, if and only if it finds the contract in the epoch of its head |
| Handover.LaggingBothPropose | crates/driver/src/driver.rs:736-753 | a sync for slot 31 while the contract is in the next epoch: both nodes propose at slot 31 |
| Handover.LaggingBothSequence | crates/driver/src/driver.rs:736-753 | the same lag: both nodes sequence at slot 32, where no sync corrects it |
| Handover.HeardIsKnown | crates/driver/src/lookahead.rs:280-303 | what was heard about an epoch stays known until the head is more than one epoch past it |
| Handover.StatusIsExact | crates/driver/src/lookahead.rs:138-152 | a node that heard about the two epochs of a slot has exactly the status its ownership gives |
| Handover.SteadyNodeIsExact | crates/driver/src/lookahead.rs:44-98 | a node that syncs at every slot has the exact status at every slot, the first of an epoch included |
| Handover.IsolatedTimeline | crates/driver/src/status.rs:5-23 | the documented timeline, slot by slot, for a node that owns one epoch and neither neighbour |
| Handover.NoHandoverToSelf | crates/driver/src/status.rs:5-23 | a node that owns consecutive epochs stays active between them |
| Handover.IsNewIff | crates/driver/src/lookahead.rs:305-312 | the window is new in epoch e if and only if e is at least 1, e is owned and e - 1 is not |
| SoftBlocks.BlockDownloadTask.Turn | crates/driver/src/sync/soft_blocks.rs:152-216 | one pass: a fetched anchor, then a block, then the completion check; an early return for errors and for blocks without an anchor transaction |
| SoftBlocks.BlockDownloadTask.OnAnchor | crates/driver/src/sync/soft_blocks.rs:247-255 | caches the header and hands it to the blocks that wait for it |
| SoftBlocks.BlockDownloadTask.OnBlock | crates/driver/src/sync/soft_blocks.rs:189-206 | uses a cached header, waits for one in flight, or asks for it |
| SoftBlocks.BlockDownloadTask.Poll | crates/driver/src/sync/soft_blocks.rs:149-218 | the loop takes passes until one finishes or makes no progress |
| SoftBlocks.RunKeeps | crates/driver/src/sync/soft_blocks.rs:149-218 | over every interleaving: what was received is the output plus what waits, exactly once; each anchor is asked for at most once; each output has the header of its own anchor |
| SoftBlocks.CompleteIff | crates/driver/src/sync/soft_blocks.rs:209-211 | the output has all blocks if and only if every block arrived and no anchor is in flight |
| SoftBlocks.NeverStuck | crates/driver/src/sync/soft_blocks.rs:209-215 | a task that has not finished still waits for something |
| SoftBlocks.DownloadEnds | crates/driver/src/sync/soft_blocks.rs:149-218 | as long as every pass delivers something it waits for, it has finished after at most two passes for each block |
| SoftBlocks.FailedDownload | crates/driver/src/sync/soft_blocks.rs:156-177 | it fails only with an error that one of the calls returned |
| SoftBlocks.FinishedDownload | crates/driver/src/sync/soft_blocks.rs:179-211 | a download that succeeds is complete, unless it broke off at a block without an anchor transaction with part of those before it |
| SoftBlocks.DownloadReturnsRange | crates/driver/src/sync/soft_blocks.rs:44-61 | sorting the output gives the requested range in order without a gap, each block with its own anchor |
| GapDownloads.DownloadFillsGap | crates/driver/src/driver.rs:548-561 | a download that meets only blocks with anchor transactions fills the gap the driver found |
| GapDownloads.DownloadStaysWithin | crates/driver/src/driver.rs:548-561 | whatever a successful download returns lies inside the gap |
| Submission.BatchSubmissionProcessor.Turn | crates/driver/src/batch_submitter/processor.rs:209-242 | one pass: the proposal in flight, the next request, all commands |
| Submission.BatchSubmissionProcessor.OnProposal | crates/driver/src/batch_submitter/processor.rs:120-151 | a nonce that is too low keeps the queue and reports nothing, any other error clears it |
| Submission.BatchSubmissionProcessor.HandleBatchSubmissionRequest | crates/driver/src/batch_submitter/processor.rs:179-200 | accepts a request if and only if its range overlaps no queued one |
| Submission.BatchSubmissionProcessor.CalcMaxNextBlockSize | crates/driver/src/batch_submitter/processor.rs:106-117 | the loop computes the throttled size |
| Submission.RunKeeps | crates/driver/src/batch_submitter/processor.rs:120-243 | in every run queued ranges are pairwise disjoint, the queue is the end of what was accepted, and at most one proposal is in flight |
| Submission.Conservation | crates/driver/src/batch_submitter/processor.rs:120-243 | every request accepted is finished, in flight, queued or dropped, exactly once |
| QueueHistory.SmoothRunKeepsAll | crates/driver/src/batch_submitter/processor.rs:120-243 | while no proposal fails other than on a nonce that is too low and the queue is not told to clear, all that was accepted was posted or is still queued, in order |
| QueueHistory.NothingDroppedIff | crates/driver/src/batch_submitter/processor.rs:120-177 | that is so if and only if nothing was queued whenever a proposal failed in another way or the queue was told to clear |
| QueueHistory.FailedNeverPosted | crates/driver/src/batch_submitter/processor.rs:134-150 | once a proposal failed in another way, nothing that was queued then is ever posted |
| QueueHistory.ClearedNeverPosted | crates/driver/src/batch_submitter/processor.rs:159-163 | once the queue was told to clear, nothing that was queued then is ever posted |
| QueueHistory.QueueIsPosted | crates/driver/src/batch_submitter/processor.rs:209-231 | each pass in which the proposal in flight is answered posts the next request, until the queue is empty |
| QueueHistory.AcceptedIff | crates/driver/src/batch_submitter/processor.rs:179-200 | at every point of a run a request joins the queue if and only if its range shares no number with that of a queued one |
| QueueHistory.SuggestedSize | crates/driver/src/batch_submitter/processor.rs:164-169 | the size suggested at any point of a run is the share of the maximum that the queue of that point leaves |
| Submission.PostedInOrder | crates/driver/src/batch_submitter/processor.rs:223-231 | requests are posted in the order of acceptance, all before any still queued |
| Submission.QueuedShareNothing | crates/driver/src/batch_submitter/processor.rs:179-200 | two queued batches share no block, when the blocks of each are within its range |
| Submission.StaysDisjointIff | crates/driver/src/batch_submitter/processor.rs:180-190 | the request in flight and the queue stay disjoint if and only if a new request is refused or does not overlap the one in flight |
| Submission.RunDisjointIff | crates/driver/src/batch_submitter/processor.rs:179-200 | over every run they are disjoint at every point if and only if no request was accepted that overlapped the one in flight |
| Submission.InFlightNotChecked | crates/driver/src/batch_submitter/processor.rs:180-190 | the request in flight is accepted again |
| Throttle.ThrottleBounds | crates/driver/src/batch_submitter/processor.rs:106-117 | with factor f and q batches queued, s·f^q is at least M·(f-1)^q, (s-(f-1))·f^q at most that, and s at least the smaller of M and f-1 |
| Throttle.ThrottleMonotone | crates/driver/src/batch_submitter/processor.rs:106-117 | a longer queue never gives a larger size |
| Driver.Driver.OnProducedBlock | crates/driver/src/driver.rs:539-593 | adds the missing blocks and the new one; full batches that have blocks are submitted if the driver can propose |
| Driver.Driver.TriggerBatchSubmission | crates/driver/src/batch_submitter/mod.rs:45-54 | sends a batch as a request, unless it has no blocks |
| Driver.Driver.UpdateL1Info | crates/driver/src/driver.rs:736-756 | stops at the first failed call; drops safe blocks, refreshes the anchor of an empty batch |
| Driver.Driver.OnL2Block | crates/driver/src/driver.rs:622-697 | on a reorg clears the queue and drops reorged blocks; follows a higher anchor of a foreign block |
| Driver.Driver.SubmitLocalOutstandingBatch | crates/driver/src/driver.rs:761-783 | submits the batch as it is, if it has blocks, and starts an empty one on the cached anchor, atomically |
| Driver.Driver.SyncBatches | crates/driver/src/sync/mod.rs:94-149 | which batches a sync gives for each status |
| Driver.Driver.SyncAndPropose | crates/driver/src/driver.rs:199-275 | keeps the last batch if it is the operator's own and submits the others in order |
| Driver.Driver.OnL1SlotTick | crates/driver/src/driver.rs:371-417 | the tick that the windows of the node make of a timestamp: which status follows, whether a sync runs, and the deadline |
| Driver.Driver.HandleTick | crates/driver/src/driver.rs:384-415 | age check, sync or status update, handover submission, anchor refresh, in this order |
| WindowStart.TickSyncsIff | crates/driver/src/driver.rs:371-406 | a node that syncs at every slot runs a sync at a tick if and only if the slot is the first of an epoch of its own that follows an epoch of another operator; the sync has the status of an active node and the end of that epoch as deadline |
| WindowStart.TickStatusIsExact | crates/driver/src/driver.rs:398-406 | at every tick such a node has exactly the status its ownership gives it, except at the second slot of an epoch if no block of the first was seen; without a router it is inactive |
| WindowStart.NextSlot | crates/driver/src/driver.rs:375-386 | the age check of a tick is made for the block of the next slot |
| WindowStart.WindowStartHandsOver | crates/driver/src/driver.rs:398-401 | that tick gets back every block the node had or built before, and they stay submitted, outstanding or on L1 |
| DriverEvents.TickSubmitsIff | crates/driver/src/driver.rs:384-416 | a tick without a sync submits the batch if and only if it has blocks and is old or the node may only include; with which deadline, and on which anchor the next batch starts |
| DriverEvents.HandoverEmpties | crates/driver/src/driver.rs:407-413 | after a tick a node that may only include has nothing outstanding |
| DriverEvents.AnchorsStay | crates/driver/src/driver.rs:758-783 | in every run without syncs each block is proposed with the anchor it was added on |
| DriverEvents.BuiltOnItsAnchor | crates/driver/src/driver.rs:501-514 | a block stands on the anchor it was built on, if the batch is the same when it comes back |
| DriverEvents.SyncTakesOver | crates/driver/src/sync/mod.rs:119-141 | a sync that cannot propose submits nothing; inactive it leaves nothing outstanding, and otherwise the final run of blocks on the last anchor |
| DriverEvents.NothingToSync | crates/driver/src/sync/mod.rs:108-115 | when every block is in an L1 batch a sync submits nothing and starts an empty batch on the anchor it read |
| DriverEvents.SyncKeepsOwnLast | crates/driver/src/driver.rs:219-253 | after a sync that can propose something is outstanding if and only if the last block carries the operator's coinbase or all were re-anchored; everything else is submitted |
| DriverEvents.OutstandingIsOwn | crates/driver/src/driver.rs:219-225 | in every run the outstanding batch carries the operator's own coinbase |
| DriverRuns.FillLaws | crates/primitives/src/taiko/batch.rs:125-145 | filling a batch keeps every block in order and never exceeds the capacity |
| DriverRuns.ProducedConserves | crates/driver/src/driver.rs:539-590 | full batches followed by the outstanding one are retained blocks, then the gap, then the new block; exactly the full ones that have blocks are submitted if the driver can propose |
| DriverRuns.SyncConserves | crates/driver/src/driver.rs:199-273 | a sync that can propose hands over every soft block exactly once, in batch order |
| DriverRuns.RunKeepsSound | crates/driver/src/driver.rs:309-363 | in every run of events, failed downloads included, the numbers of the outstanding batch increase and it stays within capacity |
| DriverRuns.RunKeepsConsecutive | crates/driver/src/driver.rs:309-363 | in every run with gaps filled and anchors that never decrease the outstanding batch has no gap |
| Ledger.HandedOver | crates/driver/src/driver.rs:583-590 | blocks built while the driver could only sequence come back with the first sync that can propose and reads a chain with them, and stay from then on |
| Ledger.NoBlockLost | crates/driver/src/driver.rs:199-275 | while the driver can propose and nothing is reorged, every block it had or added is submitted, outstanding or already on L1, up to a timestamp reset, through every sync that reads a chain with the outstanding blocks |
| DriverRuns.RunSubmitsGood | crates/driver/src/driver.rs:309-363 | in every run each batch submitted has blocks, in increasing order and within capacity |
| DriverSizes.RunSubmitsSized | crates/driver/src/driver.rs:309-363 | in every run in which what sequencing-only syncs take over fits, each batch submitted is within the target size unless it is a single block |
| DriverSizes.SyncFitsIff | crates/primitives/src/taiko/block.rs:108-133 | after a sync, whatever tick follows, only batches within capacity and target are submitted if and only if what the sync takes over fits |
| DriverSizes.TakenOverTooLarge | crates/primitives/src/taiko/block.rs:122-132 | two blocks on one anchor, together over the target, that are taken over |
| DriverTiming.DriverTicks | crates/driver/src/driver.rs:371-417 | however the batch is filled, submitted and reset between ticks, it does not get older |
| DriverTiming.DriverTriggersInTime | crates/driver/src/driver.rs:384-396 | in every run of slots without a sync, the first tick whose limit is not above the buffer finds the whole buffer left and submits the batch |
| DriverRuns.OldBatchSubmitted | crates/driver/src/driver.rs:384-396 | a batch that has blocks and at most the buffer left is submitted first, with a deadline up to which the protocol takes it |
| DriverRuns.ReorgDropsBlocks | crates/driver/src/driver.rs:635-656 | after a reorg exactly the outstanding blocks below it are left, and the queue is told to clear |
| DriverRuns.SafeBlocksDropped | crates/driver/src/driver.rs:736-751 | after an L1 update exactly the blocks above the origin are left, and an empty batch is on the cached anchor |
| DriverRuns.AnchorNeverGoesBack | crates/driver/src/driver.rs:686-696 | over every run the cached anchor never goes back |
| DriverEvents.AnchorIsHighest | crates/driver/src/driver.rs:678-696 | over every run the cached anchor is the highest of the first one, the safe ones and those of blocks built by others |
| DriverEvents.StatusIsLatest | crates/driver/src/driver.rs:834-858 | the status is the one given by the last L1 block, tick, sync or end of sequencing |
| DriverEvents.HeadsAreLatest | crates/driver/src/driver.rs:599-658 | the heads are those of the last L1 block and the last L2 block |
| DriverQueue.LaterStartsAbove | crates/driver/src/driver.rs:779-781 | a batch submitted later starts above the end of one submitted before |
| DriverQueue.NeverRefused | crates/driver/src/batch_submitter/processor.rs:179-200 | while the chain grows the queue refuses no batch that the driver submits, whichever earlier ones are still queued |
| DriverQueue.SyncStartsAfresh | crates/driver/src/driver.rs:199-275 | the result of a sync, with the queue empty behind it, is such a start |
| DriverQueue.SyncResubmits | crates/driver/src/driver.rs:243-253 | a sync that can propose, while a request is in flight whose blocks are not on L1 yet, makes a batch that overlaps it; if submitted, an empty queue accepts it |
| DriverQueue.QueuedOnce | crates/driver/src/batch_submitter/processor.rs:179-200 | in every run of the driver, and however the processor interleaves, no block is in two queued batches |
| HandGaps.HandConsecutiveIff | crates/driver/src/driver.rs:542-561 | submitted blocks followed by the outstanding ones are without a gap if and only if every block built on an empty outstanding batch follows the last one submitted |
| DriverRuns.NewAnchorIsHigherIff | crates/driver/src/sync/mod.rs:157-163 | when re-anchoring fires, batches are on the higher of safe anchor and highest unsafe anchor if and only if the L2 header is not used or has the number of its anchor |
| DriverRuns.NewAnchorRecentIff | crates/driver/src/sync/mod.rs:157-163 | blocks are moved to an anchor that is recent enough if and only if the header of the L2 block is not used, or its number happens to be high enough |
| DriverRuns.NewAnchorTooOld | crates/driver/src/sync/mod.rs:157-163 | two blocks, one of them expired, that are moved to an anchor that is too old |

## Left out

- RPC, WebSocket and HTTP clients, contract bindings, CLI, metrics, telemetry, shutdown: I/O without logic to prove.
- KZG commitments and versioned hashes: a hash is a number, and selecting blobs by hash is modelled with given hashes.
- RLP and zlib: a transaction is an identity with an encoded length; the payload of a blob is any byte string.
- The moving average behind the compression estimate: any fixed monotone function stands for it. That the estimate changes between two calls is not modelled.
- Integer widths: slots, timestamps, block numbers and fees are unbounded. Written out are the u8, u16 and u64 conversions of the block parameters, the u128 saturation of the fee total, and all saturating subtractions; `Retries.DoublingDoesNotOverflow` covers the doubling of fees.
- `anchorMaxHeightBuffer` arithmetic of the oldest proposable anchor and timestamp (`crates/driver/src/sync/mod.rs:211-217`): the results are inputs of the pipeline.
- Header hashes and L1 block contents: a header is a number and a timestamp.
- The map of the pipeline is a list of entries with increasing keys, and the standard library's sort is a stable insertion sort; lookups and ordered iteration are as for the library types.
- The block builder: whether a block is being finalized is an input, waiting for it is not modelled, and neither is a batch that changes while a block for it is being finalized (`DriverEvents.BuiltOnItsAnchor` assumes that it does not).
- Re-posting blocks to the P2P network after re-anchoring: it changes other nodes, not the outstanding batch.
- The channels between driver and processor: commands are a list, results are a list; a full channel is not modelled.
- Proposing an empty batch: the poster panics on it, and `Poster.GenerateBatch` requires a block as the program does. The driver never submits one (`DriverRuns.RunSubmitsGood`).
- The order in which ready futures are polled inside one pass is as in the code; which futures are ready is arbitrary. Buffering a bounded number of block requests is not modelled, blocks arrive in order.
- `deterministic_signer.rs`, `merge_adjacent_ranges`, base fee maps, summaries: outside the state machines above, or easy.
- Handover.MutualExclusion: one operator per epoch is assumed; a whitelist that changes its answer about an epoch is covered only by the contracts of `Lookahead.Window` and `Handover.Node.Sync`.
- Ledger.NoBlockLost: covers runs without reorgs, because a reorg drops blocks on purpose, and syncs that can propose; `Ledger.HandedOver` covers what was built before.
- DriverQueue.NeverRefused: covers runs after the last sync, with the queue empty at that point (`DriverQueue.SyncStartsAfresh`); a sync submits blocks again that may still be queued, and then the queue refuses them.
- DriverTiming.DriverTriggersInTime: assumes that the maximum anchor offset is at least three above the buffer and that timestamps follow block numbers; a sync takes over a batch of any age, so slots with a sync are left out.
- Submission.Conservation: what the poster does with a request in flight is `Retries`; the two are not composed.
