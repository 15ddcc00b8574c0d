/** Batches that the pipeline makes can be read back from what is posted for them. */
module PipelinePosting {
  import opened Wrappers
  import opened Batches
  import opened AnchoredBlocks
  import opened BatchLists
  import opened BatchMaps
  import opened Sorting
  import opened Pipeline
  import opened PipelineResults
  import opened PipelineOrder
  import opened Poster

  // Each timestamp is 0 to 255 seconds after the one before.
  predicate GapsFit(blocks: seq<Block>) {
    forall i :: 0 <= i < |blocks| - 1 ==> ShortGap(blocks[i], blocks[i + 1])
  }

  predicate ShortGap(a: Block, b: Block) {
    a.timestamp <= b.timestamp <= a.timestamp + 0xff
  }

  lemma {:induction false} GapsAreShifts(previousTimestamp: nat, blocks: seq<Block>)
    requires GapsFit(blocks)
    requires blocks != [] ==> previousTimestamp <= blocks[0].timestamp <= previousTimestamp + 0xff
    ensures ShiftsFit(previousTimestamp, blocks)
    decreases |blocks|
  {
    if blocks != [] {
      var rest := blocks[1..];
      forall i | 0 <= i < |rest| - 1 ensures ShortGap(rest[i], rest[i + 1]) {
        assert ShortGap(blocks[i + 1], blocks[i + 2]);
      }
      assert rest != [] ==> ShortGap(blocks[0], blocks[1]);
      GapsAreShifts(blocks[0].timestamp, rest);
    }
  }

  // The transactions of all blocks can be counted in sixteen bits.
  predicate Postable(blocks: seq<Block>) {
    GapsFit(blocks) && CountsFit(blocks)
  }

  lemma {:induction false} PartPostable(blocks: seq<Block>, from: nat, to: nat)
    requires from <= to <= |blocks| && Postable(blocks)
    ensures Postable(blocks[from..to])
  {
    var part := blocks[from..to];
    forall i | 0 <= i < |part| - 1 ensures ShortGap(part[i], part[i + 1]) {
      assert ShortGap(blocks[from + i], blocks[from + i + 1]);
    }
  }

  lemma {:induction false} RetimedPostable(blocks: seq<Block>, ts: nat)
    requires Postable(blocks)
    ensures Postable(Retimestamped(blocks, ts))
  {}

  // A batch is kept, or all of its timestamps are reset.
  lemma {:induction false} RetimedWhole(batches: seq<Batch>, started: bool, minTs: nat, maxTs: nat, i: nat)
    requires i < |batches|
    ensures var r := RetimeBatches(batches, started, minTs, maxTs).0[i];
            r == batches[i] || r == Retime(batches[i], maxTs)
    decreases |batches|
  {
    var now := started || AnyOutOfRange(batches[0].blocks, minTs, maxTs);
    if i > 0 {
      RetimedWhole(batches[1..], now, minTs, maxTs, i - 1);
    }
  }

  /**
   When the blocks keep their order, and their timestamps are 0 to 255 seconds apart, the parameters
   posted for each batch determine its timestamps and transactions. Resetting timestamps does not
   break this, because it resets whole batches.
   */
  lemma {:induction false} CreatedRoundTrip(blocks: seq<AnchoredBlock>, settings: Settings, est: Estimate, bounds: Bounds, k: nat)
    requires Monotone(est) && settings.capacity >= 1 && ConsecutiveAnchored(blocks) && Postable(Blocks(blocks))
    requires SomeExpired(blocks, bounds.minProposableAnchor) || SortedBy(blocks, AnchorOf)
    requires k < |Created(blocks, settings, est, bounds)| && Created(blocks, settings, est, bounds)[k].blocks != []
    ensures var posted := Created(blocks, settings, est, bounds)[k].blocks;
            Reconstruct(ChainParams(posted)) == Some(Contents(posted))
  {
    hide Grouped, ConsecutiveAnchored, Flatten, FinalMap, Postable, RetimeBatches, SortedBy, SomeExpired;
    var batches := AllBatches(FinalMap(blocks, settings, est, bounds));
    FinalMapBlocks(blocks, settings, est, bounds);
    ReanchorIff(blocks, settings, est, bounds.minProposableAnchor);
    OrderKeptIff(blocks, settings, est, bounds);
    RetimedWhole(batches, false, bounds.minTs, bounds.maxTs, k);
    var from := FlattenPart(batches, k);
    PartPostable(Blocks(blocks), from, from + |batches[k].blocks|);
    RetimedPostable(batches[k].blocks, bounds.maxTs);
    PostableRoundTrip(Created(blocks, settings, est, bounds)[k].blocks);
  }

  lemma {:induction false} PostableRoundTrip(blocks: seq<Block>)
    requires blocks != [] && Postable(blocks)
    ensures Reconstruct(ChainParams(blocks)) == Some(Contents(blocks))
  {
    GapsAreShifts(blocks[0].timestamp, blocks);
    BatchParamsRoundTripIff(blocks);
  }
}
