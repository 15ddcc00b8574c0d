/** Which batches get new timestamps, and what exactly is reported as a reason to change the chain. */
module PipelineTimes {
  import opened Batches
  import opened AnchoredBlocks
  import opened BatchLists
  import opened BatchMaps
  import opened Reanchoring
  import opened Sorting
  import opened Pipeline
  import opened PipelineResults

  lemma {:induction false} RetimedAt(batches: seq<Batch>, started: bool, minTs: nat, maxTs: nat, k: nat)
    requires k < |batches|
    ensures RetimeBatches(batches, started, minTs, maxTs).0[k] ==
            if started || AnyOutOfRange(Flatten(batches[..k + 1]), minTs, maxTs)
            then batches[k].(blocks := Retimestamped(batches[k].blocks, maxTs)) else batches[k]
    decreases k
  {
    hide AnyOutOfRange, Flatten, Retimestamped;
    var b, rest := batches[0], batches[1..];
    var now := started || AnyOutOfRange(b.blocks, minTs, maxTs);
    FlattenCons(b, rest[..k]);
    assert batches[..k + 1] == [b] + rest[..k];
    OutOfRangeEither(b.blocks, Flatten(rest[..k]), minTs, maxTs);
    if k == 0 {
      assert rest[..0] == [];
      NothingOut(minTs, maxTs);
    } else {
      RetimedAt(rest, now, minTs, maxTs, k - 1);
    }
  }

  /**
   A batch of the pipeline keeps its timestamps if and only if neither it nor any batch before it has a block out of
   range; otherwise all its blocks get the maximum. Nothing else of it changes.
   */
  lemma {:induction false} RetimedExactly(blocks: seq<AnchoredBlock>, settings: Settings, est: Estimate, bounds: Bounds, k: nat)
    requires k < |Created(blocks, settings, est, bounds)|
    ensures var r, before := Created(blocks, settings, est, bounds), AllBatches(FinalMap(blocks, settings, est, bounds));
            && |r| == |before|
            && (if AnyOutOfRange(Flatten(before[..k + 1]), bounds.minTs, bounds.maxTs)
                then r[k] == before[k].(blocks := r[k].blocks) && |r[k].blocks| == |before[k].blocks|
                     && forall i :: 0 <= i < |r[k].blocks| ==>
                          r[k].blocks[i] == before[k].blocks[i].(timestamp := bounds.maxTs)
                else r[k] == before[k])
  {
    hide FinalMap, AnyOutOfRange, Flatten, AllBatches;
    RetimedAt(AllBatches(FinalMap(blocks, settings, est, bounds)), false, bounds.minTs, bounds.maxTs, k);
    hide RetimeBatches;
  }

  /**
   The reasons that are reported: first, if some anchor is too old, the lowest anchor of all blocks and the one they are
   moved to; then, if some timestamp is out of range, the range.
   */
  lemma {:induction false} ReasonsExactly(blocks: seq<AnchoredBlock>, settings: Settings, est: Estimate, bounds: Bounds)
    returns (reanchored: seq<ReorgReason>, retimed: seq<ReorgReason>)
    requires Monotone(est) && settings.capacity >= 1 && ConsecutiveAnchored(blocks)
    ensures Reasons(blocks, settings, est, bounds) == reanchored + retimed
    ensures reanchored != [] <==> SomeExpired(blocks, bounds.minProposableAnchor)
    ensures reanchored != [] ==>
              exists i :: 0 <= i < |blocks| && reanchored == [Reanchor(AnchorOf(blocks[i]), bounds.safeAnchor.number)]
                          && forall j :: 0 <= j < |blocks| ==> AnchorOf(blocks[i]) <= AnchorOf(blocks[j])
    ensures retimed == if AnyOutOfRange(Blocks(blocks), bounds.minTs, bounds.maxTs)
                       then [Retimestamp(bounds.minTs, bounds.maxTs)] else []
  {
    var m := Grouped(blocks, settings, est);
    reanchored := if ShouldReanchor(m, bounds.minProposableAnchor)
                  then [Reanchor(m[0].anchorId, bounds.safeAnchor.number)] else [];
    retimed := if RetimeMap(FinalMap(blocks, settings, est, bounds), false, bounds.minTs, bounds.maxTs).1
               then [Retimestamp(bounds.minTs, bounds.maxTs)] else [];
    ReanchorIff(blocks, settings, est, bounds.minProposableAnchor);
    RetimedIff(blocks, settings, est, bounds);
    hide Grouped, FinalMap, SomeExpired, ConsecutiveAnchored, AnyOutOfRange;
    if reanchored != [] {
      LowestFirst(blocks, settings, est);
    }
  }
}
