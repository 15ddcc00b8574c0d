/** What the pipeline keeps of the blocks, and what it establishes of the batches. */
module PipelineResults {
  import opened Batches
  import opened AnchoredBlocks
  import opened BatchLists
  import opened BatchMaps
  import opened Coinbases
  import opened Reanchoring
  import opened Sorting
  import opened Pipeline

  // ---------- resetting timestamps, on the blocks ----------

  ghost predicate AllInRange(blocks: seq<Block>, minTs: nat, maxTs: nat) {
    forall i :: 0 <= i < |blocks| ==> minTs <= blocks[i].timestamp <= maxTs
  }

  // The first `c` blocks are in range and kept; the others only differ in their timestamp.
  ghost predicate RetimedFrom(before: seq<Block>, after: seq<Block>, c: nat, minTs: nat, maxTs: nat) {
    && c <= |before| && AllInRange(before[..c], minTs, maxTs)
    && after == before[..c] + Retimestamped(before[c..], maxTs)
  }

  lemma {:induction false} RetimestampedConcat(a: seq<Block>, b: seq<Block>, ts: nat)
    ensures Retimestamped(a + b, ts) == Retimestamped(a, ts) + Retimestamped(b, ts)
  {}

  lemma {:induction false} FlattenCons(b: Batch, rest: seq<Batch>)
    ensures Flatten([b] + rest) == b.blocks + Flatten(rest)
  {
    FlattenOne(b);
    FlattenConcat([b], rest);
  }

  /** Resetting keeps a prefix of blocks, all in range, and moves all others to the maximum. */
  lemma {:induction false} RetimeCut(batches: seq<Batch>, started: bool, minTs: nat, maxTs: nat) returns (c: nat)
    ensures RetimedFrom(Flatten(batches), Flatten(RetimeBatches(batches, started, minTs, maxTs).0), c, minTs, maxTs)
    ensures started ==> c == 0
    ensures c <= |Flatten(batches)|
    ensures !started && c < |Flatten(batches)| ==> AnyOutOfRange(Flatten(batches)[c..], minTs, maxTs)
    decreases |batches|
  {
    hide Flatten, RetimedFrom, AnyOutOfRange;
    if batches == [] {
      NothingToRetime(minTs, maxTs);
      c := 0;
    } else {
      var b, rest := batches[0], batches[1..];
      var now := started || AnyOutOfRange(b.blocks, minTs, maxTs);
      var first := if now then Retime(b, maxTs) else b;
      var later := RetimeBatches(rest, now, minTs, maxTs).0;
      assert batches == [b] + rest;
      FlattenCons(b, rest);
      FlattenCons(first, later);
      c := RetimeCut(rest, now, minTs, maxTs);
      if now {
        MovedInFront(b.blocks, Flatten(rest), Flatten(later), minTs, maxTs);
        OutOfRangeInFront(b.blocks, Flatten(rest), minTs, maxTs);
        assert (b.blocks + Flatten(rest))[0..] == b.blocks + Flatten(rest);
      } else {
        assert (b.blocks + Flatten(rest))[|b.blocks| + c..] == Flatten(rest)[c..];
        KeptInFront(b.blocks, Flatten(rest), Flatten(later), c, minTs, maxTs);
        c := |b.blocks| + c;
      }
    }
  }

  lemma {:induction false} MovedInFront(moved: seq<Block>, before: seq<Block>, after: seq<Block>, minTs: nat, maxTs: nat)
    requires RetimedFrom(before, after, 0, minTs, maxTs)
    ensures RetimedFrom(moved + before, Retimestamped(moved, maxTs) + after, 0, minTs, maxTs)
  {
    RetimestampedConcat(moved, before, maxTs);
    assert before[0..] == before && (moved + before)[0..] == moved + before;
    assert after == Retimestamped(before, maxTs);
  }

  lemma {:induction false} OutOfRangeInFront(a: seq<Block>, b: seq<Block>, minTs: nat, maxTs: nat)
    ensures AnyOutOfRange(a, minTs, maxTs) ==> AnyOutOfRange(a + b, minTs, maxTs)
  {
    if AnyOutOfRange(a, minTs, maxTs) {
      var i :| 0 <= i < |a| && OutOfRange(a[i], minTs, maxTs);
      assert OutOfRange((a + b)[i], minTs, maxTs);
    }
  }

  lemma {:induction false} NothingToRetime(minTs: nat, maxTs: nat)
    ensures RetimedFrom(Flatten([]), Flatten([]), 0, minTs, maxTs) && Flatten([]) == []
  {}

  lemma {:induction false} InRangeConcat(a: seq<Block>, b: seq<Block>, minTs: nat, maxTs: nat)
    requires !AnyOutOfRange(a, minTs, maxTs) && AllInRange(b, minTs, maxTs)
    ensures AllInRange(a + b, minTs, maxTs)
  {
    forall i | 0 <= i < |a| ensures minTs <= a[i].timestamp <= maxTs {
      assert !OutOfRange(a[i], minTs, maxTs);
    }
  }

  lemma {:induction false} KeptInFront(kept: seq<Block>, before: seq<Block>, after: seq<Block>, c: nat, minTs: nat, maxTs: nat)
    requires RetimedFrom(before, after, c, minTs, maxTs) && !AnyOutOfRange(kept, minTs, maxTs)
    ensures RetimedFrom(kept + before, kept + after, |kept| + c, minTs, maxTs)
  {
    hide AnyOutOfRange, AllInRange, Retimestamped;
    var all, n := kept + before, |kept| + c;
    assert all[..n] == kept + before[..c] && all[n..] == before[c..];
    InRangeConcat(kept, before[..c], minTs, maxTs);
    ConcatAssoc(kept, before[..c], Retimestamped(before[c..], maxTs));
  }

  ghost predicate TimestampsOrdered(blocks: seq<Block>) {
    forall i, j :: 0 <= i < j < |blocks| ==> blocks[i].timestamp <= blocks[j].timestamp
  }

  /** All timestamps end up at the maximum or in range, and ordered timestamps stay ordered. */
  lemma {:induction false} RetimedTimestamps(before: seq<Block>, after: seq<Block>, c: nat, minTs: nat, maxTs: nat)
    requires RetimedFrom(before, after, c, minTs, maxTs)
    ensures minTs <= maxTs ==> AllInRange(after, minTs, maxTs)
    ensures TimestampsOrdered(before) ==> TimestampsOrdered(after)
    ensures |after| == |before| && forall i :: 0 <= i < |before| ==>
              after[i] == before[i] || (after[i] == before[i].(timestamp := maxTs) && i >= c)
  {
    forall i | 0 <= i < c ensures minTs <= after[i].timestamp <= maxTs {
      assert after[i] == before[..c][i];
    }
    if TimestampsOrdered(before) {
      forall i, j | 0 <= i < j < |after| ensures after[i].timestamp <= after[j].timestamp {
        if j < c {
          assert after[i] == before[i] && after[j] == before[j];
        }
      }
    }
  }

  // ---------- resetting timestamps, on the batches ----------

  // The batch is the same except for block timestamps.
  ghost predicate SameButTimes(a: Batch, b: Batch) {
    && a.anchor == b.anchor && a.settings == b.settings && a.coinbase == b.coinbase
    && |a.blocks| == |b.blocks|
    && forall i :: 0 <= i < |a.blocks| ==> a.blocks[i].(timestamp := b.blocks[i].timestamp) == b.blocks[i]
  }

  lemma {:induction false} RetimeKeepsBatches(batches: seq<Batch>, started: bool, minTs: nat, maxTs: nat, i: nat)
    requires i < |batches|
    ensures SameButTimes(batches[i], RetimeBatches(batches, started, minTs, maxTs).0[i])
    decreases |batches|
  {
    var now := started || AnyOutOfRange(batches[0].blocks, minTs, maxTs);
    if i > 0 {
      RetimeKeepsBatches(batches[1..], now, minTs, maxTs, i - 1);
    }
  }

  lemma {:induction false} SameSize(a: seq<Block>, b: seq<Block>)
    requires |a| == |b|
    requires forall i :: 0 <= i < |a| ==> a[i].(timestamp := b[i].timestamp) == b[i]
    ensures RawSize(a) == RawSize(b)
    decreases |a|
  {
    if a != [] {
      SameSize(a[..|a| - 1], b[..|b| - 1]);
    }
  }

  lemma {:induction false} SameProposable(a: Batch, b: Batch, settings: Settings, est: Estimate)
    requires SameButTimes(a, b) && Proposable(a, settings, est)
    ensures Proposable(b, settings, est)
  {
    SameSize(a.blocks, b.blocks);
  }

  lemma {:induction false} SameUniform(a: Batch, b: Batch)
    requires SameButTimes(a, b)
    ensures UniformCoinbase(a) ==> UniformCoinbase(b)
  {
    assert forall i :: 0 <= i < |a.blocks| ==> a.blocks[i].coinbase == b.blocks[i].coinbase;
  }

  // ---------- permutations, block by block ----------

  lemma {:induction false} PlacedBlocksSnoc(placed: seq<Placed>, p: Placed)
    ensures PlacedBlocks(placed + [p]) == PlacedBlocks(placed) + [p.block]
  {}

  lemma {:induction false} InsertedBlocks(placed: seq<Placed>, p: Placed)
    ensures multiset(PlacedBlocks(InsertBy(placed, p, AnchorKey))) == multiset(PlacedBlocks(placed)) + multiset{p.block}
    decreases |placed|
  {
    PlacedBlocksSnoc(placed, p);
    if placed != [] && !(AnchorKey(placed[|placed| - 1]) <= AnchorKey(p)) {
      var front, last := placed[..|placed| - 1], placed[|placed| - 1];
      InsertedBlocks(front, p);
      assert placed == front + [last];
      PlacedBlocksSnoc(front, last);
      PlacedBlocksSnoc(InsertBy(front, p, AnchorKey), last);
    }
  }

  lemma {:induction false} SortedPlacedBlocks(placed: seq<Placed>)
    ensures multiset(PlacedBlocks(SortBy(placed, AnchorKey))) == multiset(PlacedBlocks(placed))
    decreases |placed|
  {
    if placed != [] {
      var front, last := placed[..|placed| - 1], placed[|placed| - 1];
      SortedPlacedBlocks(front);
      InsertedBlocks(SortBy(front, AnchorKey), last);
      assert placed == front + [last];
      PlacedBlocksSnoc(front, last);
    }
  }

  // ---------- main results: the blocks ----------

  // The blocks in the order of the batches, timestamps apart.
  function InBatchOrder(blocks: seq<AnchoredBlock>, settings: Settings, est: Estimate, bounds: Bounds): seq<Block> {
    if ShouldReanchor(Grouped(blocks, settings, est), bounds.minProposableAnchor) then Blocks(blocks)
    else PlacedBlocks(SortBy(PlacedOf(blocks), AnchorKey))
  }

  lemma {:induction false} BlocksStrict(blocks: seq<AnchoredBlock>)
    requires ConsecutiveAnchored(blocks)
    ensures StrictlySortedBy(Blocks(blocks), BlockNumber)
    ensures PlacedBlocks(PlacedOf(blocks)) == Blocks(blocks)
  {}

  lemma {:induction false} GroupedLaws(blocks: seq<AnchoredBlock>, settings: Settings, est: Estimate) returns (number: nat)
    requires Monotone(est) && settings.capacity >= 1 && ConsecutiveAnchored(blocks)
    ensures var m := Grouped(blocks, settings, est);
            && GoodMap(m, settings, est, number)
            && MapPlaced(m) == SortBy(PlacedOf(blocks), AnchorKey)
            && AllUniform(AllBatches(m))
  {
    hide GoodMap, MapPlaced, AllUniform, MapOf, UniqueCoinbases;
    number := if blocks == [] then 0 else blocks[0].block.number + |blocks|;
    MapOfSortsByAnchor(blocks, settings, est, number);
    UniqueCoinbasesKeeps(MapOf(blocks, settings, est), settings, est, number);
  }

  /** Taking the batches apart and sorting by number gives the blocks back. */
  lemma {:induction false} SortedBlocksAreBlocks(blocks: seq<AnchoredBlock>, settings: Settings, est: Estimate)
    requires Monotone(est) && settings.capacity >= 1 && ConsecutiveAnchored(blocks)
    ensures SortedBlocks(Grouped(blocks, settings, est)) == Blocks(blocks)
  {
    hide Grouped, ConsecutiveAnchored;
    var m := Grouped(blocks, settings, est);
    var number := GroupedLaws(blocks, settings, est);
    FlattenIsPlaced(AllBatches(m));
    SortedPlacedBlocks(PlacedOf(blocks));
    BlocksStrict(blocks);
    SortRestores(Flatten(AllBatches(m)), Blocks(blocks), BlockNumber);
  }

  lemma {:induction false} FinalMapBlocks(blocks: seq<AnchoredBlock>, settings: Settings, est: Estimate, bounds: Bounds)
    requires Monotone(est) && settings.capacity >= 1 && ConsecutiveAnchored(blocks)
    ensures Flatten(AllBatches(FinalMap(blocks, settings, est, bounds))) == InBatchOrder(blocks, settings, est, bounds)
  {
    hide Grouped, ConsecutiveAnchored, Packed, MapPlaced;
    var m := Grouped(blocks, settings, est);
    if ShouldReanchor(m, bounds.minProposableAnchor) {
      SortedBlocksAreBlocks(blocks, settings, est);
      BlocksStrict(blocks);
      var start := EmptyBatch(bounds.safeAnchor, settings);
      assert [] + Blocks(blocks) == Blocks(blocks);
      PackedLaws(start, Blocks(blocks), bounds.safeAnchor, est);
      AllBatchesOne(FinalMap(blocks, settings, est, bounds)[0]);
    } else {
      var number := GroupedLaws(blocks, settings, est);
      FlattenIsPlaced(AllBatches(m));
      MapPlacedIs(m);
    }
  }

  lemma {:induction false} MapPlacedIs(m: BatchMap)
    ensures MapPlaced(m) == AllPlaced(AllBatches(m))
  {}

  /**
   The pipeline loses, repeats and invents no block. Its output is the blocks in batch order. A
   prefix that is in range keeps its timestamps, all other blocks are moved to the maximum, and
   there are others only if one of them was out of range.
   */
  lemma {:induction false} PipelineKeepsBlocks(blocks: seq<AnchoredBlock>, settings: Settings, est: Estimate, bounds: Bounds)
    returns (c: nat)
    requires Monotone(est) && settings.capacity >= 1 && ConsecutiveAnchored(blocks)
    ensures var base := InBatchOrder(blocks, settings, est, bounds);
            && multiset(base) == multiset(Blocks(blocks))
            && RetimedFrom(base, Flatten(Created(blocks, settings, est, bounds)), c, bounds.minTs, bounds.maxTs)
            && c <= |base| && (c < |base| ==> AnyOutOfRange(base[c..], bounds.minTs, bounds.maxTs))
  {
    hide ConsecutiveAnchored, RetimedFrom, FinalMap, Grouped, Flatten;
    FinalMapBlocks(blocks, settings, est, bounds);
    SortedPlacedBlocks(PlacedOf(blocks));
    BlocksStrict(blocks);
    c := RetimeCut(AllBatches(FinalMap(blocks, settings, est, bounds)), false, bounds.minTs, bounds.maxTs);
  }

  /**
   The blocks come out in their own order if and only if re-anchoring fires or the anchors never
   decrease from block to block.
   */
  lemma {:induction false} OrderKeptIff(blocks: seq<AnchoredBlock>, settings: Settings, est: Estimate, bounds: Bounds)
    requires Monotone(est) && settings.capacity >= 1 && ConsecutiveAnchored(blocks)
    ensures InBatchOrder(blocks, settings, est, bounds) == Blocks(blocks) <==>
            (ShouldReanchor(Grouped(blocks, settings, est), bounds.minProposableAnchor) || SortedBy(blocks, AnchorOf))
  {
    hide Grouped;
    var placed := PlacedOf(blocks);
    var sorted := SortBy(placed, AnchorKey);
    BlocksStrict(blocks);
    if SortedBy(blocks, AnchorOf) {
      assert SortedBy(placed, AnchorKey) by {
        assert forall i :: 0 <= i < |blocks| ==> AnchorKey(placed[i]) == AnchorOf(blocks[i]);
      }
      SortOfSorted(placed, AnchorKey);
    }
    if PlacedBlocks(sorted) == Blocks(blocks) {
      SortLaws(placed, AnchorKey);
      SamePlaces(blocks, sorted);
      assert forall i :: 0 <= i < |blocks| ==> AnchorKey(sorted[i]) == AnchorOf(blocks[i]);
    }
  }

  // Blocks are told apart by their number, so a rearrangement that keeps the blocks keeps anchors.
  lemma {:induction false} SamePlaces(blocks: seq<AnchoredBlock>, sorted: seq<Placed>)
    requires ConsecutiveAnchored(blocks) && multiset(sorted) == multiset(PlacedOf(blocks))
    requires PlacedBlocks(sorted) == Blocks(blocks)
    ensures sorted == PlacedOf(blocks)
  {
    var placed := PlacedOf(blocks);
    forall i | 0 <= i < |blocks| ensures sorted[i] == placed[i] {
      assert sorted[i] in multiset(placed);
      var j :| 0 <= j < |placed| && placed[j] == sorted[i];
      assert blocks[j].block == placed[j].block == PlacedBlocks(sorted)[i] == blocks[i].block;
    }
  }

  // ---------- main results: the batches ----------

  ghost predicate AnchorsOrdered(batches: seq<Batch>, lo: nat) {
    && (forall i :: 0 <= i < |batches| ==> lo <= batches[i].anchor.number)
    && (forall i, j :: 0 <= i < j < |batches| ==> batches[i].anchor.number <= batches[j].anchor.number)
  }

  // All batches keep the limits they were made with.
  ghost predicate AllLimits(batches: seq<Batch>, settings: Settings) {
    forall i :: 0 <= i < |batches| ==> SameLimits(batches[i], settings)
  }

  lemma {:induction false} GoodMapLimits(m: BatchMap, settings: Settings, est: Estimate, number: nat)
    requires GoodMap(m, settings, est, number)
    ensures AllLimits(AllBatches(m), settings)
    decreases |m|
  {
    hide Flatten, Proposable, SameLimits;
    if m != [] {
      var front, last := m[..|m| - 1], m[|m| - 1];
      assert m == front + [last];
      GoodMapSnoc(front, last, settings, est, number);
      GoodMapLimits(front, settings, est, number);
      forall i | 0 <= i < |last.batches| ensures SameLimits(last.batches[i], settings) {
        assert GoodBatch(last.batches[i], last.anchorId, settings, est);
      }
    }
  }

  ghost predicate AnchorsUpTo(batches: seq<Batch>, hi: nat) {
    forall i :: 0 <= i < |batches| ==> batches[i].anchor.number <= hi
  }

  ghost predicate AllAnchoredAt(batches: seq<Batch>, anchor: nat) {
    forall i :: 0 <= i < |batches| ==> batches[i].anchor.number == anchor
  }

  lemma {:induction false} AnchorsConcat(a: seq<Batch>, b: seq<Batch>, lo: nat, anchor: nat)
    requires AnchorsOrdered(a, lo) && AnchorsUpTo(a, anchor) && AllAnchoredAt(b, anchor) && lo <= anchor
    ensures AnchorsOrdered(a + b, lo) && AnchorsUpTo(a + b, anchor)
  {
    var all := a + b;
    forall i | 0 <= i < |all|
      ensures lo <= all[i].anchor.number <= anchor && (|a| <= i ==> all[i].anchor.number == anchor)
    {
      assert all[i] == if i < |a| then a[i] else b[i - |a|];
    }
    forall i, j | 0 <= i < j < |all| ensures all[i].anchor.number <= all[j].anchor.number {
      assert j < |a| ==> all[i] == a[i] && all[j] == a[j];
    }
  }

  lemma {:induction false} ProposableConcat(a: seq<Batch>, b: seq<Batch>, settings: Settings, est: Estimate)
    requires AllProposable(a, settings, est) && AllProposable(b, settings, est)
    ensures AllProposable(a + b, settings, est)
  {
    hide Proposable;
  }

  lemma {:induction false} GoodBatchesLaws(e: Entry, settings: Settings, est: Estimate, number: nat)
    requires GoodEntry(e, settings, est, number)
    ensures AllAnchoredAt(e.batches, e.anchorId) && AllProposable(e.batches, settings, est)
  {
    hide Flatten, Proposable, StrictlySortedBy, NumbersBelow;
    forall i | 0 <= i < |e.batches|
      ensures e.batches[i].anchor.number == e.anchorId && Proposable(e.batches[i], settings, est)
    {
      assert GoodBatch(e.batches[i], e.anchorId, settings, est);
    }
  }

  lemma {:induction false} GoodMapBatches(m: BatchMap, settings: Settings, est: Estimate, number: nat, lo: nat)
    requires GoodMap(m, settings, est, number) && (m != [] ==> lo <= m[0].anchorId)
    ensures AnchorsOrdered(AllBatches(m), lo) && AllProposable(AllBatches(m), settings, est)
    ensures m != [] ==> AnchorsUpTo(AllBatches(m), m[|m| - 1].anchorId)
    decreases |m|
  {
    hide GoodMap, GoodEntry, AnchorsOrdered, AnchorsUpTo, AllProposable, AllAnchoredAt, AllBatches, KeysIncrease;
    if m == [] {
      NoBatchesLaws(settings, est, lo);
    } else {
      var front, last := m[..|m| - 1], m[|m| - 1];
      assert m == front + [last];
      GoodMapSnoc(front, last, settings, est, number);
      assert front != [] ==> front[0].anchorId < last.anchorId && front[|front| - 1].anchorId < last.anchorId;
      GoodMapBatches(front, settings, est, number, lo);
      GoodBatchesLaws(last, settings, est, number);
      MapPlacedSnoc(front, last);
      if front == [] {
        NoBatchesLaws(settings, est, lo);
      }
      AnchorsFurther(AllBatches(front), if front == [] then 0 else front[|front| - 1].anchorId, last.anchorId);
      AnchorsConcat(AllBatches(front), last.batches, lo, last.anchorId);
      ProposableConcat(AllBatches(front), last.batches, settings, est);
    }
  }

  lemma {:induction false} AnchorsFurther(batches: seq<Batch>, hi: nat, further: nat)
    requires AnchorsUpTo(batches, hi) && hi <= further
    ensures AnchorsUpTo(batches, further)
  {}

  lemma {:induction false} NoBatchesLaws(settings: Settings, est: Estimate, lo: nat)
    ensures AnchorsOrdered(AllBatches([]), lo) && AllProposable(AllBatches([]), settings, est)
    ensures forall hi: nat :: AnchorsUpTo(AllBatches([]), hi)
  {}

  lemma {:induction false} FirstPlaced(m: BatchMap, settings: Settings, est: Estimate, number: nat)
    requires GoodMap(m, settings, est, number) && m != []
    ensures MapPlaced(m) != [] && AnchorKey(MapPlaced(m)[0]) == m[0].anchorId
    ensures m[0].batches != [] && m[0].batches[0].anchor.number == m[0].anchorId
    decreases |m|
  {
    hide MapPlaced, AllPlaced, AllBatches, Proposable, Flatten;
    var front, last := m[..|m| - 1], m[|m| - 1];
    assert m == front + [last];
    GoodMapSnoc(front, last, settings, est, number);
    MapPlacedSnoc(front, last);
    EntryPlaced(last.batches, last.anchorId, settings, est);
    EmptyMap(settings, est, number);
    if front == [] {
      assert [] + AllPlaced(last.batches) == AllPlaced(last.batches);
      assert GoodBatch(last.batches[0], last.anchorId, settings, est);
    } else {
      FirstPlaced(front, settings, est, number);
      assert front[0] == m[0];
    }
  }

  ghost predicate SomeExpired(blocks: seq<AnchoredBlock>, minAnchor: nat) {
    exists i :: 0 <= i < |blocks| && AnchorOf(blocks[i]) < minAnchor
  }

  // The lowest anchor of the blocks is that of the first entry.
  lemma {:induction false} LowestFirst(blocks: seq<AnchoredBlock>, settings: Settings, est: Estimate)
    requires Monotone(est) && settings.capacity >= 1 && ConsecutiveAnchored(blocks) && Grouped(blocks, settings, est) != []
    ensures var a := Grouped(blocks, settings, est)[0].anchorId;
            && (forall i :: 0 <= i < |blocks| ==> a <= AnchorOf(blocks[i]))
            && exists i :: 0 <= i < |blocks| && AnchorOf(blocks[i]) == a
  {
    hide Grouped, ConsecutiveAnchored, MapPlaced, GoodMap, SortBy;
    var m, placed := Grouped(blocks, settings, est), PlacedOf(blocks);
    var number := GroupedLaws(blocks, settings, est);
    SortLaws(placed, AnchorKey);
    FirstPlaced(m, settings, est, number);
    var sorted := MapPlaced(m);
    assert sorted[0] in multiset(placed);
    var k :| 0 <= k < |placed| && placed[k] == sorted[0];
    assert AnchorOf(blocks[k]) == m[0].anchorId;
    forall i | 0 <= i < |blocks| ensures m[0].anchorId <= AnchorOf(blocks[i]) {
      assert placed[i] in multiset(sorted);
      var j :| 0 <= j < |sorted| && sorted[j] == placed[i];
      assert j > 0 ==> AnchorKey(sorted[0]) <= AnchorKey(sorted[j]);
    }
  }

  /** Re-anchoring fires if and only if some block has an anchor below the minimum. */
  lemma {:induction false} ReanchorIff(blocks: seq<AnchoredBlock>, settings: Settings, est: Estimate, minAnchor: nat)
    requires Monotone(est) && settings.capacity >= 1 && ConsecutiveAnchored(blocks)
    ensures ShouldReanchor(Grouped(blocks, settings, est), minAnchor) <==> SomeExpired(blocks, minAnchor)
  {
    hide Grouped, ConsecutiveAnchored, MapPlaced, GoodMap, SortBy;
    var m := Grouped(blocks, settings, est);
    var number := GroupedLaws(blocks, settings, est);
    SortLaws(PlacedOf(blocks), AnchorKey);
    if m == [] {
      EmptyMap(settings, est, number);
    } else {
      FirstPlaced(m, settings, est, number);
      LowestFirst(blocks, settings, est);
    }
  }

  // Every batch is on the safe anchor and carries the default coinbase.
  ghost predicate AllOnSafe(batches: seq<Batch>, settings: Settings, safe: Header) {
    Alike(batches, EmptyBatch(safe, settings))
  }

  lemma {:induction false} GroupedValid(blocks: seq<AnchoredBlock>, settings: Settings, est: Estimate, minAnchor: nat)
    requires Monotone(est) && settings.capacity >= 1 && ConsecutiveAnchored(blocks)
    requires !ShouldReanchor(Grouped(blocks, settings, est), minAnchor)
    ensures var r := AllBatches(Grouped(blocks, settings, est));
            && AllProposable(r, settings, est) && AllLimits(r, settings)
            && AnchorsOrdered(r, minAnchor) && AllUniform(r)
  {
    hide Grouped, ConsecutiveAnchored, AllProposable, AllLimits, AnchorsOrdered, AllBatches, MapPlaced, GoodMap, AllUniform;
    var m := Grouped(blocks, settings, est);
    var number := GroupedLaws(blocks, settings, est);
    if m != [] {
      FirstPlaced(m, settings, est, number);
    }
    GoodMapBatches(m, settings, est, number, minAnchor);
    GoodMapLimits(m, settings, est, number);
  }

  lemma {:induction false} ReanchoredValid(blocks: seq<AnchoredBlock>, settings: Settings, est: Estimate, safe: Header)
    requires Monotone(est) && settings.capacity >= 1 && ConsecutiveAnchored(blocks)
    ensures var r := Packed(EmptyBatch(safe, settings), SortedBlocks(Grouped(blocks, settings, est)), safe, est);
            AllProposable(r, settings, est) && AllLimits(r, settings) && AllOnSafe(r, settings, safe)
  {
    hide Grouped, ConsecutiveAnchored, Packed, AllProposable, Alike;
    SortedBlocksAreBlocks(blocks, settings, est);
    BlocksStrict(blocks);
    assert [] + Blocks(blocks) == Blocks(blocks);
    PackedLaws(EmptyBatch(safe, settings), Blocks(blocks), safe, est);
    OnSafeLimits(Packed(EmptyBatch(safe, settings), SortedBlocks(Grouped(blocks, settings, est)), safe, est), settings, safe);
  }

  lemma {:induction false} OnSafeLimits(batches: seq<Batch>, settings: Settings, safe: Header)
    requires AllOnSafe(batches, settings, safe)
    ensures AllLimits(batches, settings)
    ensures forall lo: nat :: lo <= safe.number ==> AnchorsOrdered(batches, lo)
  {}

  lemma {:induction false} FinalMapValid(blocks: seq<AnchoredBlock>, settings: Settings, est: Estimate, bounds: Bounds)
    requires Monotone(est) && settings.capacity >= 1 && ConsecutiveAnchored(blocks)
    ensures var r := AllBatches(FinalMap(blocks, settings, est, bounds));
            && AllProposable(r, settings, est) && AllLimits(r, settings)
            && (bounds.minProposableAnchor <= bounds.safeAnchor.number ==> AnchorsOrdered(r, bounds.minProposableAnchor))
            && (if ShouldReanchor(Grouped(blocks, settings, est), bounds.minProposableAnchor)
                then AllOnSafe(r, settings, bounds.safeAnchor) else AllUniform(r))
  {
    hide Grouped, ConsecutiveAnchored, Packed, AllProposable, AllLimits, ShouldReanchor, AllBatches, SortedBlocks;
    if ShouldReanchor(Grouped(blocks, settings, est), bounds.minProposableAnchor) {
      ReanchoredValid(blocks, settings, est, bounds.safeAnchor);
      AllBatchesOne(FinalMap(blocks, settings, est, bounds)[0]);
    } else {
      GroupedValid(blocks, settings, est, bounds.minProposableAnchor);
    }
  }

  lemma {:induction false} RetimedValid(batches: seq<Batch>, settings: Settings, est: Estimate, bounds: Bounds)
    ensures var r := RetimeBatches(batches, false, bounds.minTs, bounds.maxTs).0;
            && (AllProposable(batches, settings, est) ==> AllProposable(r, settings, est))
            && (AllLimits(batches, settings) ==> AllLimits(r, settings))
            && (AnchorsOrdered(batches, bounds.minProposableAnchor) ==> AnchorsOrdered(r, bounds.minProposableAnchor))
            && (AllOnSafe(batches, settings, bounds.safeAnchor) ==> AllOnSafe(r, settings, bounds.safeAnchor))
            && (AllUniform(batches) ==> AllUniform(r))
  {
    hide RetimeBatches, Proposable, UniformCoinbase;
    var r := RetimeBatches(batches, false, bounds.minTs, bounds.maxTs).0;
    forall i | 0 <= i < |batches|
      ensures r[i].anchor == batches[i].anchor && r[i].settings == batches[i].settings
      ensures r[i].coinbase == batches[i].coinbase
      ensures Proposable(batches[i], settings, est) ==> Proposable(r[i], settings, est)
      ensures UniformCoinbase(batches[i]) ==> UniformCoinbase(r[i])
    {
      RetimeKeepsBatches(batches, false, bounds.minTs, bounds.maxTs, i);
      SameUniform(batches[i], r[i]);
      if Proposable(batches[i], settings, est) {
        SameProposable(batches[i], r[i], settings, est);
      }
    }
  }

  /**
   Every batch that comes out can be proposed: it is within capacity, and within the target size
   unless it is a single block; anchors never decrease and none is too old, provided the safe anchor
   is not; and each batch has one coinbase, unless re-anchoring put all of them on the safe anchor with the default coinbase.
   */
  lemma {:induction false} PipelineBatchesValid(blocks: seq<AnchoredBlock>, settings: Settings, est: Estimate, bounds: Bounds)
    requires Monotone(est) && settings.capacity >= 1 && ConsecutiveAnchored(blocks)
    ensures var r := Created(blocks, settings, est, bounds);
            && AllProposable(r, settings, est) && AllLimits(r, settings)
            && (bounds.minProposableAnchor <= bounds.safeAnchor.number ==> AnchorsOrdered(r, bounds.minProposableAnchor))
            && (if SomeExpired(blocks, bounds.minProposableAnchor)
                then AllOnSafe(r, settings, bounds.safeAnchor) else AllUniform(r))
  {
    hide FinalMap, AllProposable, AllLimits, AnchorsOrdered, AllOnSafe, AllUniform, Grouped, ConsecutiveAnchored;
    FinalMapValid(blocks, settings, est, bounds);
    ReanchorIff(blocks, settings, est, bounds.minProposableAnchor);
    RetimedValid(AllBatches(FinalMap(blocks, settings, est, bounds)), settings, est, bounds);
  }

  /**
   All timestamps that come out are in range, and timestamps that were ordered stay ordered when
   the blocks keep their order. If all were in range, none changes.
   */
  lemma {:induction false} PipelineTimestamps(blocks: seq<AnchoredBlock>, settings: Settings, est: Estimate, bounds: Bounds)
    requires Monotone(est) && settings.capacity >= 1 && ConsecutiveAnchored(blocks)
    requires bounds.minTs <= bounds.maxTs
    ensures var r := Flatten(Created(blocks, settings, est, bounds));
            && AllInRange(r, bounds.minTs, bounds.maxTs)
            && (TimestampsOrdered(Blocks(blocks)) ==>
                  (SomeExpired(blocks, bounds.minProposableAnchor) || SortedBy(blocks, AnchorOf)) ==> TimestampsOrdered(r))
            && (AllInRange(Blocks(blocks), bounds.minTs, bounds.maxTs) ==> r == InBatchOrder(blocks, settings, est, bounds))
  {
    var base := InBatchOrder(blocks, settings, est, bounds);
    var r := Flatten(Created(blocks, settings, est, bounds));
    hide Flatten, Grouped, Created, InBatchOrder, ConsecutiveAnchored, TimestampsOrdered, SortedBy;
    var c := PipelineKeepsBlocks(blocks, settings, est, bounds);
    RetimedTimestamps(base, r, c, bounds.minTs, bounds.maxTs);
    ReanchorIff(blocks, settings, est, bounds.minProposableAnchor);
    OrderKeptIff(blocks, settings, est, bounds);
    if AllInRange(Blocks(blocks), bounds.minTs, bounds.maxTs) {
      RearrangedInRange(Blocks(blocks), base, bounds.minTs, bounds.maxTs);
      NoneOutOfRange(base, c, bounds.minTs, bounds.maxTs);
      assert base[..c] == base && base[c..] == [];
    }
  }

  lemma {:induction false} NoneOutOfRange(blocks: seq<Block>, c: nat, minTs: nat, maxTs: nat)
    requires c <= |blocks| && AllInRange(blocks, minTs, maxTs)
    ensures !AnyOutOfRange(blocks[c..], minTs, maxTs)
  {
    assert forall i :: 0 <= i < |blocks[c..]| ==> blocks[c..][i] == blocks[c + i];
  }

  lemma {:induction false} RearrangedInRange(a: seq<Block>, b: seq<Block>, minTs: nat, maxTs: nat)
    requires multiset(a) == multiset(b) && AllInRange(a, minTs, maxTs)
    ensures AllInRange(b, minTs, maxTs)
  {
    forall i | 0 <= i < |b| ensures minTs <= b[i].timestamp <= maxTs {
      assert b[i] in multiset(a);
    }
  }

  // ---------- when the chain has to be changed ----------

  lemma {:induction false} RetimeFlagIff(batches: seq<Batch>, started: bool, minTs: nat, maxTs: nat)
    ensures RetimeBatches(batches, started, minTs, maxTs).1 <==> started || AnyOutOfRange(Flatten(batches), minTs, maxTs)
    decreases |batches|
  {
    hide AnyOutOfRange, Flatten;
    if batches == [] {
      NothingOut(minTs, maxTs);
    } else {
      var b, rest := batches[0], batches[1..];
      assert batches == [b] + rest;
      RetimeFlagIff(rest, started || AnyOutOfRange(b.blocks, minTs, maxTs), minTs, maxTs);
      FlattenCons(b, rest);
      OutOfRangeEither(b.blocks, Flatten(rest), minTs, maxTs);
    }
  }

  lemma {:induction false} NothingOut(minTs: nat, maxTs: nat)
    ensures !AnyOutOfRange(Flatten([]), minTs, maxTs)
  {}

  lemma {:induction false} OutOfRangeEither(a: seq<Block>, b: seq<Block>, minTs: nat, maxTs: nat)
    ensures AnyOutOfRange(a + b, minTs, maxTs) <==> AnyOutOfRange(a, minTs, maxTs) || AnyOutOfRange(b, minTs, maxTs)
  {
    OutOfRangeInFront(a, b, minTs, maxTs);
    if AnyOutOfRange(b, minTs, maxTs) {
      var i :| 0 <= i < |b| && OutOfRange(b[i], minTs, maxTs);
      assert OutOfRange((a + b)[|a| + i], minTs, maxTs);
    }
  }

  lemma {:induction false} RearrangedOut(a: seq<Block>, b: seq<Block>, minTs: nat, maxTs: nat)
    requires multiset(a) == multiset(b) && AnyOutOfRange(a, minTs, maxTs)
    ensures AnyOutOfRange(b, minTs, maxTs)
  {
    var i :| 0 <= i < |a| && OutOfRange(a[i], minTs, maxTs);
    assert a[i] in multiset(b);
    var j :| 0 <= j < |b| && b[j] == a[i];
    assert OutOfRange(b[j], minTs, maxTs);
  }

  lemma {:induction false} RetimedIff(blocks: seq<AnchoredBlock>, settings: Settings, est: Estimate, bounds: Bounds)
    requires Monotone(est) && settings.capacity >= 1 && ConsecutiveAnchored(blocks)
    ensures RetimeMap(FinalMap(blocks, settings, est, bounds), false, bounds.minTs, bounds.maxTs).1 <==>
            AnyOutOfRange(Blocks(blocks), bounds.minTs, bounds.maxTs)
  {
    hide Grouped, FinalMap, ConsecutiveAnchored, AnyOutOfRange, InBatchOrder, RetimedFrom, Flatten;
    var m := FinalMap(blocks, settings, est, bounds);
    var base := InBatchOrder(blocks, settings, est, bounds);
    RetimeMapIsRetimeBatches(m, false, bounds.minTs, bounds.maxTs);
    RetimeFlagIff(AllBatches(m), false, bounds.minTs, bounds.maxTs);
    FinalMapBlocks(blocks, settings, est, bounds);
    var c := PipelineKeepsBlocks(blocks, settings, est, bounds);
    if AnyOutOfRange(base, bounds.minTs, bounds.maxTs) {
      RearrangedOut(base, Blocks(blocks), bounds.minTs, bounds.maxTs);
    }
    if AnyOutOfRange(Blocks(blocks), bounds.minTs, bounds.maxTs) {
      RearrangedOut(Blocks(blocks), base, bounds.minTs, bounds.maxTs);
    }
  }

  /**
   A reason to change the chain is reported if and only if some anchor is too old or some timestamp
   is out of range.
   */
  lemma {:induction false} NoReasonsIff(blocks: seq<AnchoredBlock>, settings: Settings, est: Estimate, bounds: Bounds)
    requires Monotone(est) && settings.capacity >= 1 && ConsecutiveAnchored(blocks)
    ensures Reasons(blocks, settings, est, bounds) == [] <==>
            !SomeExpired(blocks, bounds.minProposableAnchor) && !AnyOutOfRange(Blocks(blocks), bounds.minTs, bounds.maxTs)
  {
    hide Grouped, FinalMap, ConsecutiveAnchored, AnyOutOfRange, SomeExpired;
    ReanchorIff(blocks, settings, est, bounds.minProposableAnchor);
    RetimedIff(blocks, settings, est, bounds);
  }
}
