/**
 Grouping makes no more batches than it has to: in each anchor's list a batch is followed by another one only because
 the first block of that one did not fit, so no other way to cut the blocks of the anchor needs fewer batches.
 */
module Grouping {
  import opened Batches
  import opened AnchoredBlocks
  import opened BatchLists
  import opened BatchMaps
  import opened Packing
  import opened Sorting

  // No batch could have taken the first block of the next one: it would be over capacity or over the target size.
  ghost predicate Tight(batches: seq<Batch>, settings: Settings, est: Estimate) {
    forall k :: 0 <= k < |batches| - 1 ==> ClosedFor(batches[k], batches[k + 1], settings, est)
  }

  ghost predicate ClosedFor(b: Batch, next: Batch, settings: Settings, est: Estimate) {
    && b.blocks != [] && next.blocks != []
    && (|b.blocks| + 1 > settings.capacity || est(RawSize(b.blocks + [next.blocks[0]])) > settings.targetCompressedSize)
  }

  // ---------- tight lists are the shortest ----------

  // However the blocks are cut, each part ends before the part of the tight list does.
  lemma {:induction false} TightIsShortest(batches: seq<Batch>, before: seq<Block>, parts: seq<seq<Block>>,
                                           settings: Settings, est: Estimate)
    requires Monotone(est) && Tight(batches, settings, est) && NoneEmpty(batches)
    requires Partition(parts, before + Flatten(batches), settings, est)
    ensures |batches| <= |parts|
    decreases |batches|
  {
    hide CanShare, ClosedFor, Flatten;
    if batches != [] {
      var first, rest := batches[0], batches[1..];
      assert batches == [first] + rest;
      FlattenOne(first);
      FlattenConcat([first], rest);
      var d := before + first.blocks;
      assert before + Flatten(batches) == d + Flatten(rest);
      if rest == [] {
        assert parts != [];
      } else {
        assert ClosedFor(first, rest[0], settings, est);
        StartsWith(rest);
        FirstEndsEarly(before, first, rest[0], Flatten(rest), parts, settings, est);
        RestPartition(parts, d + Flatten(rest), settings, est);
        var p := |parts[0]|;
        assert (d + Flatten(rest))[p..] == d[p..] + Flatten(rest);
        TightRest(batches, settings, est);
        TightIsShortest(rest, d[p..], parts[1..], settings, est);
      }
    }
  }

  lemma {:induction false} TightRest(batches: seq<Batch>, settings: Settings, est: Estimate)
    requires batches != [] && Tight(batches, settings, est)
    ensures Tight(batches[1..], settings, est)
  {
    hide ClosedFor;
    var rest := batches[1..];
    forall k | 0 <= k < |rest| - 1 ensures ClosedFor(rest[k], rest[k + 1], settings, est) {
      assert ClosedFor(batches[k + 1], batches[k + 2], settings, est);
    }
  }

  lemma {:induction false} StartsWith(batches: seq<Batch>)
    requires batches != [] && NoneEmpty(batches)
    ensures Flatten(batches) != [] && Flatten(batches)[0] == batches[0].blocks[0]
  {
    hide Flatten;
    assert batches == [batches[0]] + batches[1..];
    FlattenOne(batches[0]);
    FlattenConcat([batches[0]], batches[1..]);
  }

  lemma {:induction false} FirstEndsEarly(before: seq<Block>, first: Batch, next: Batch, rest: seq<Block>,
                                          parts: seq<seq<Block>>, settings: Settings, est: Estimate)
    requires Monotone(est) && ClosedFor(first, next, settings, est) && rest != [] && rest[0] == next.blocks[0]
    requires Partition(parts, before + first.blocks + rest, settings, est)
    ensures parts != [] && |parts[0]| <= |before + first.blocks|
  {
    assert !CanShare(first.blocks + [rest[0]], settings, est);
    hide CanShare;
    FirstPartEnds(before, first.blocks, rest, parts, settings, est);
  }

  // ---------- the lists of the map are tight ----------

  lemma {:induction false} TightSnoc(batches: seq<Batch>, last: Batch, next: Batch, settings: Settings, est: Estimate)
    requires Tight(batches + [last], settings, est) && ClosedFor(last, next, settings, est)
    ensures Tight(batches + [last, next], settings, est)
  {
    hide ClosedFor;
    var all := batches + [last, next];
    assert forall k :: 0 <= k <= |batches| ==> all[k] == (batches + [last])[k];
  }

  lemma {:induction false} TightGrown(batches: seq<Batch>, last: Batch, grown: Batch, settings: Settings, est: Estimate)
    requires Tight(batches + [last], settings, est) && last.blocks != [] && last.blocks <= grown.blocks
    ensures Tight(batches + [grown], settings, est)
  {
    var all, was := batches + [grown], batches + [last];
    assert forall k :: 0 <= k < |batches| ==> all[k] == was[k];
    forall k | 0 <= k < |all| - 1 ensures ClosedFor(all[k], all[k + 1], settings, est) {
      assert ClosedFor(was[k], was[k + 1], settings, est);
    }
  }

  // A batch is closed only for a block that it cannot take.
  lemma {:induction false} AddedTight(batches: seq<Batch>, x: AnchoredBlock, settings: Settings, est: Estimate)
    requires settings.capacity >= 1 && Tight(batches, settings, est)
    requires GoodBatches(batches, AnchorOf(x), settings, est, x.block.number)
    ensures Tight(AddToBatches(batches, x, est), settings, est)
  {
    hide Flatten, StrictlySortedBy, NumbersBelow, AllGood, BlocksBefore, RawSize, TxsSize, ClosedFor, Tight;
    var front, current := batches[..|batches| - 1], batches[|batches| - 1];
    assert batches == front + [current];
    AllGoodSnoc(front, current, AnchorOf(x), settings, est);
    CurrentKept(batches, x.block.number);
    var (next, result) := current.AddBlock(x.block, x.anchor, est);
    if result.Added? {
      TightGrown(front, current, next, settings, est);
    } else {
      Closes(current, x.block, next, settings, est);
      TightSnoc(front, current, next, settings, est);
    }
  }

  lemma {:induction false} Closes(current: Batch, block: Block, next: Batch, settings: Settings, est: Estimate)
    requires current.blocks != [] && SameLimits(current, settings) && |current.blocks| <= settings.capacity
    requires current.DoesntFit(block.txs, est).Some? && next.blocks == [block]
    ensures ClosedFor(current, next, settings, est)
  {
    var grown := current.blocks + [block];
    assert grown[..|grown| - 1] == current.blocks;
  }

  ghost predicate TightMap(m: BatchMap, settings: Settings, est: Estimate) {
    forall i :: 0 <= i < |m| ==> Tight(m[i].batches, settings, est)
  }

  lemma {:induction false} TightMapSnoc(m: BatchMap, e: Entry, settings: Settings, est: Estimate)
    ensures TightMap(m + [e], settings, est) <==> TightMap(m, settings, est) && Tight(e.batches, settings, est)
  {
    hide Tight;
    var all := m + [e];
    assert all[|m|] == e && forall i :: 0 <= i < |m| ==> all[i] == m[i];
  }

  lemma {:induction false} PutTight(m: BatchMap, x: AnchoredBlock, settings: Settings, est: Estimate)
    requires settings.capacity >= 1 && GoodMap(m, settings, est, x.block.number) && TightMap(m, settings, est)
    ensures TightMap(Put(m, x, settings, est), settings, est)
    decreases |m|
  {
    hide GoodMap, AddToBatches, TightMap, AllGood, Flatten;
    var alone := Entry(AnchorOf(x), [NewBatch(x, settings)]);
    TightMapSnoc(m, alone, settings, est);
    if m != [] {
      var front, last := m[..|m| - 1], m[|m| - 1];
      assert m == front + [last];
      GoodMapSnoc(front, last, settings, est, x.block.number);
      TightMapSnoc(front, last, settings, est);
      if last.anchorId == AnchorOf(x) {
        AddedTight(last.batches, x, settings, est);
        TightMapSnoc(front, last.(batches := AddToBatches(last.batches, x, est)), settings, est);
      } else if last.anchorId > AnchorOf(x) {
        PutTight(front, x, settings, est);
        TightMapSnoc(Put(front, x, settings, est), last, settings, est);
      }
    }
  }

  lemma {:induction false} MapOfTight(blocks: seq<AnchoredBlock>, settings: Settings, est: Estimate)
    requires settings.capacity >= 1 && ConsecutiveAnchored(blocks)
    ensures TightMap(MapOf(blocks, settings, est), settings, est)
    decreases |blocks|
  {
    hide Put, GoodMap, MapPlaced, ConsecutiveAnchored, Tight;
    if blocks != [] {
      var front, x := blocks[..|blocks| - 1], blocks[|blocks| - 1];
      FrontConsecutive(blocks);
      MapOfSortsByAnchor(front, settings, est, x.block.number);
      MapOfTight(front, settings, est);
      PutTight(MapOf(front, settings, est), x, settings, est);
    }
  }

  /**
   Blocks of one anchor are put into as few batches as there can be: each batch is followed by another one only if the
   first block of that one would have taken it over capacity or over the target size, and no order-preserving way to cut
   the blocks of the anchor into proposable batches has fewer.
   */
  lemma {:induction false} GroupingIsOptimal(blocks: seq<AnchoredBlock>, settings: Settings, est: Estimate, i: nat,
                                             parts: seq<seq<Block>>)
    requires Monotone(est) && settings.capacity >= 1 && ConsecutiveAnchored(blocks)
    requires i < |MapOf(blocks, settings, est)|
    ensures var batches := MapOf(blocks, settings, est)[i].batches;
            && (forall k :: 0 <= k < |batches| - 1 ==>
                  || |batches[k].blocks| + 1 > settings.capacity
                  || (batches[k + 1].blocks != []
                      && est(RawSize(batches[k].blocks + [batches[k + 1].blocks[0]])) > settings.targetCompressedSize))
            && (Partition(parts, Flatten(batches), settings, est) ==> |batches| <= |parts|)
  {
    hide Put, GoodBatches, MapPlaced, ConsecutiveAnchored, Flatten;
    MapOfTight(blocks, settings, est);
    var m := MapOf(blocks, settings, est);
    assert Tight(m[i].batches, settings, est);
    assert blocks != [];
    var number := blocks[0].block.number + |blocks|;
    MapOfSortsByAnchor(blocks, settings, est, number);
    assert GoodEntry(m[i], settings, est, number);
    forall k | 0 <= k < |m[i].batches| - 1
      ensures ClosedFor(m[i].batches[k], m[i].batches[k + 1], settings, est)
    {}
    if Partition(parts, Flatten(m[i].batches), settings, est) {
      NoneEmptyIn(m[i], settings, est, number);
      assert [] + Flatten(m[i].batches) == Flatten(m[i].batches);
      TightIsShortest(m[i].batches, [], parts, settings, est);
    }
  }

  lemma {:induction false} NoneEmptyIn(e: Entry, settings: Settings, est: Estimate, number: nat)
    requires GoodEntry(e, settings, est, number)
    ensures NoneEmpty(e.batches)
  {
    forall k | 0 <= k < |e.batches| ensures e.batches[k].blocks != [] {
      assert GoodBatch(e.batches[k], e.anchorId, settings, est);
    }
  }
}
