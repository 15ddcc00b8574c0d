/** The order of blocks inside the batches that the pipeline makes. */
module PipelineOrder {
  import opened Batches
  import opened AnchoredBlocks
  import opened BatchLists
  import opened BatchMaps
  import opened Reanchoring
  import opened Sorting
  import opened Pipeline
  import opened PipelineResults

  ghost predicate Increasing(b: Batch) {
    StrictlySortedBy(b.blocks, BlockNumber)
  }

  ghost predicate AllIncreasing(batches: seq<Batch>) {
    forall i :: 0 <= i < |batches| ==> Increasing(batches[i])
  }

  ghost predicate AllConsecutive(batches: seq<Batch>) {
    forall i :: 0 <= i < |batches| ==> Consecutive(batches[i].blocks)
  }

  // Where the blocks of one batch stand among all.
  lemma {:induction false} FlattenPart(batches: seq<Batch>, i: nat) returns (k: nat)
    requires i < |batches|
    ensures k + |batches[i].blocks| <= |Flatten(batches)|
    ensures batches[i].blocks == Flatten(batches)[k..k + |batches[i].blocks|]
    decreases |batches|
  {
    var front := batches[..|batches| - 1];
    if i == |front| {
      k := |Flatten(front)|;
    } else {
      k := FlattenPart(front, i);
      assert Flatten(front)[k..k + |batches[i].blocks|] == Flatten(batches)[k..k + |batches[i].blocks|];
    }
  }

  lemma {:induction false} IncreasingParts(batches: seq<Batch>)
    requires StrictlySortedBy(Flatten(batches), BlockNumber)
    ensures AllIncreasing(batches)
  {
    forall i | 0 <= i < |batches| ensures Increasing(batches[i]) {
      var k := FlattenPart(batches, i);
    }
  }

  lemma {:induction false} ConsecutiveParts(batches: seq<Batch>)
    requires Consecutive(Flatten(batches))
    ensures AllConsecutive(batches)
  {
    var all := Flatten(batches);
    forall i | 0 <= i < |batches| ensures Consecutive(batches[i].blocks) {
      var k := FlattenPart(batches, i);
      var part := batches[i].blocks;
      assert forall j :: 0 <= j < |part| ==> part[j] == all[k + j];
    }
  }

  lemma {:induction false} MapIncreasing(m: BatchMap, settings: Settings, est: Estimate, number: nat)
    requires GoodMap(m, settings, est, number)
    ensures AllIncreasing(AllBatches(m))
    decreases |m|
  {
    hide Flatten, Proposable, StrictlySortedBy;
    if m != [] {
      var front, last := m[..|m| - 1], m[|m| - 1];
      assert m == front + [last];
      GoodMapSnoc(front, last, settings, est, number);
      MapIncreasing(front, settings, est, number);
      IncreasingParts(last.batches);
    }
  }

  lemma {:induction false} SameOrder(a: Batch, b: Batch)
    requires SameButTimes(a, b)
    ensures Increasing(a) ==> Increasing(b)
    ensures Consecutive(a.blocks) ==> Consecutive(b.blocks)
  {
    assert forall i :: 0 <= i < |a.blocks| ==> BlockNumber(a.blocks[i]) == BlockNumber(b.blocks[i]);
  }

  lemma {:induction false} RetimedOrder(batches: seq<Batch>, minTs: nat, maxTs: nat)
    ensures var r := RetimeBatches(batches, false, minTs, maxTs).0;
            && (AllIncreasing(batches) ==> AllIncreasing(r))
            && (AllConsecutive(batches) ==> AllConsecutive(r))
  {
    hide RetimeBatches, Increasing, Consecutive;
    var r := RetimeBatches(batches, false, minTs, maxTs).0;
    forall i | 0 <= i < |batches|
      ensures Increasing(batches[i]) ==> Increasing(r[i])
      ensures Consecutive(batches[i].blocks) ==> Consecutive(r[i].blocks)
    {
      RetimeKeepsBatches(batches, false, minTs, maxTs, i);
      SameOrder(batches[i], r[i]);
    }
  }

  /** In every batch the block numbers increase. */
  lemma {:induction false} CreatedIncreasing(blocks: seq<AnchoredBlock>, settings: Settings, est: Estimate, bounds: Bounds)
    requires Monotone(est) && settings.capacity >= 1 && ConsecutiveAnchored(blocks)
    ensures AllIncreasing(Created(blocks, settings, est, bounds))
  {
    hide Grouped, ConsecutiveAnchored, AllIncreasing, Flatten, Packed, GoodMap;
    var m := Grouped(blocks, settings, est);
    if ShouldReanchor(m, bounds.minProposableAnchor) {
      FinalMapBlocks(blocks, settings, est, bounds);
      BlocksStrict(blocks);
      IncreasingParts(AllBatches(FinalMap(blocks, settings, est, bounds)));
    } else {
      var number := GroupedLaws(blocks, settings, est);
      MapIncreasing(m, settings, est, number);
    }
    RetimedOrder(AllBatches(FinalMap(blocks, settings, est, bounds)), bounds.minTs, bounds.maxTs);
  }

  /** If anchors never decrease, or re-anchoring fires, every batch is a run without a gap. */
  lemma {:induction false} CreatedConsecutive(blocks: seq<AnchoredBlock>, settings: Settings, est: Estimate, bounds: Bounds)
    requires Monotone(est) && settings.capacity >= 1 && ConsecutiveAnchored(blocks)
    requires SomeExpired(blocks, bounds.minProposableAnchor) || SortedBy(blocks, AnchorOf)
    ensures AllConsecutive(Created(blocks, settings, est, bounds))
  {
    assert Consecutive(Blocks(blocks));
    hide Grouped, ConsecutiveAnchored, AllConsecutive, Flatten, FinalMap, Consecutive;
    FinalMapBlocks(blocks, settings, est, bounds);
    ReanchorIff(blocks, settings, est, bounds.minProposableAnchor);
    OrderKeptIff(blocks, settings, est, bounds);
    ConsecutiveParts(AllBatches(FinalMap(blocks, settings, est, bounds)));
    RetimedOrder(AllBatches(FinalMap(blocks, settings, est, bounds)), bounds.minTs, bounds.maxTs);
  }
}
