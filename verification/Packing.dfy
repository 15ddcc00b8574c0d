/** Greedy packing needs no more batches than any other order-preserving way to form batches. */
module Packing {
  import opened Batches
  import opened BatchLists
  import opened Reanchoring
  import opened Sorting

  // Blocks that could be proposed as one batch.
  ghost predicate CanShare(blocks: seq<Block>, settings: Settings, est: Estimate) {
    && |blocks| <= settings.capacity
    && (|blocks| >= 2 ==> est(RawSize(blocks)) <= settings.targetCompressedSize)
  }

  function Join(parts: seq<seq<Block>>): seq<Block> {
    if parts == [] then [] else parts[0] + Join(parts[1..])
  }

  /** Some way to cut blocks, in order, into non-empty proposable batches. */
  ghost predicate Partition(parts: seq<seq<Block>>, blocks: seq<Block>, settings: Settings, est: Estimate) {
    && Join(parts) == blocks
    && forall i :: 0 <= i < |parts| ==> parts[i] != [] && CanShare(parts[i], settings, est)
  }

  function CountNonEmpty(batches: seq<Batch>): (n: nat)
    ensures n <= |batches|
  {
    if batches == [] then 0
    else (if batches[0].blocks != [] then 1 else 0) + CountNonEmpty(batches[1..])
  }

  // If a run of blocks does not fit, nothing that contains it does.
  lemma {:induction false} NoBiggerShare(before: seq<Block>, run: seq<Block>, after: seq<Block>, settings: Settings, est: Estimate)
    requires Monotone(est) && |run| >= 2 && !CanShare(run, settings, est)
    ensures !CanShare(before + run + after, settings, est)
  {
    RawSizeConcat(before + run, after);
    RawSizeConcat(before, run);
    assert est(RawSize(run)) <= est(RawSize(before + run + after));
  }

  // The cursor is full for a block exactly when the two cannot share a batch.
  lemma {:induction false} FullIff(cursor: Batch, block: Block, est: Estimate)
    requires cursor.blocks != [] && Proposable(cursor, cursor.settings, est)
    ensures cursor.DoesntFit(block.txs, est).Some? <==> !CanShare(cursor.blocks + [block], cursor.settings, est)
  {
    var both := cursor.blocks + [block];
    assert both[..|both| - 1] == cursor.blocks;
  }

  /**
   Greedy stays ahead. Its cursor holds the end of what the other packing still has in hand, `d`,
   so whatever the other one does next, greedy needs no more batches from here on.
   */
  lemma {:induction false} StaysAhead(cursor: Batch, rest: seq<Block>, newAnchor: Header, est: Estimate,
                                      before: seq<Block>, parts: seq<seq<Block>>)
    requires Monotone(est) && cursor.settings.capacity >= 1 && cursor.anchor == newAnchor
    requires cursor.blocks != [] && Proposable(cursor, cursor.settings, est) && InOrder(cursor.blocks, rest)
    requires Partition(parts, before + cursor.blocks + rest, cursor.settings, est)
    ensures CountNonEmpty(Packed(cursor, rest, newAnchor, est)) <= |parts|
    decreases |rest|
  {
    hide InOrder, CanShare, Batch.AddBlock, Proposable;
    var d := before + cursor.blocks;
    if rest != [] {
      ProposableFits(cursor, est);
      AddOne(cursor, rest, newAnchor, est);
      FullIff(cursor, rest[0], est);
      var (next, result) := cursor.AddBlock(rest[0], newAnchor, est);
      assert rest == [rest[0]] + rest[1..];
      if result.Added? {
        assert d + rest == before + next.blocks + rest[1..];
        StaysAhead(next, rest[1..], newAnchor, est, before, parts);
      } else {
        FirstPartEnds(before, cursor.blocks, rest, parts, cursor.settings, est);
        var p := |parts[0]|;
        assert d[p..] + next.blocks + rest[1..] == (d + rest)[p..];
        RestPartition(parts, d + rest, cursor.settings, est);
        StaysAhead(next, rest[1..], newAnchor, est, d[p..], parts[1..]);
        var tail := Packed(next, rest[1..], newAnchor, est);
        assert ([cursor] + tail)[1..] == tail;
      }
    } else {
      assert parts != [];
      assert [cursor][1..] == [];
    }
  }

  // When the cursor is full, the first part of the other packing ends inside `before + taken`.
  lemma {:induction false} FirstPartEnds(before: seq<Block>, taken: seq<Block>, rest: seq<Block>,
                                         parts: seq<seq<Block>>, settings: Settings, est: Estimate)
    requires Monotone(est) && taken != [] && rest != []
    requires !CanShare(taken + [rest[0]], settings, est)
    requires Partition(parts, before + taken + rest, settings, est)
    ensures parts != [] && |parts[0]| <= |before + taken|
  {
    var all, d := before + taken + rest, before + taken;
    assert parts != [];
    var p := parts[0];
    assert p == all[..|p|];
    if |p| > |d| {
      var after := p[|d| + 1..];
      assert p == before + (taken + [rest[0]]) + after;
      NoBiggerShare(before, taken + [rest[0]], after, settings, est);
    }
  }

  lemma {:induction false} RestPartition(parts: seq<seq<Block>>, blocks: seq<Block>, settings: Settings, est: Estimate)
    requires parts != [] && Partition(parts, blocks, settings, est)
    ensures |parts[0]| <= |blocks| && Partition(parts[1..], blocks[|parts[0]|..], settings, est)
  {
    hide CanShare;
    assert blocks == parts[0] + Join(parts[1..]);
  }

  // ---------- packing from an empty batch ----------

  predicate OverTargetAlone(block: Block, settings: Settings, est: Estimate) {
    est(TxsSize(block.txs)) > settings.targetCompressedSize
  }

  /**
   Of all ways to cut the blocks into proposable batches, greedy packing finds one with the
   fewest non-empty batches.
   */
  lemma {:induction false} PackingIsOptimal(blocks: seq<Block>, safe: Header, settings: Settings, est: Estimate,
                                            parts: seq<seq<Block>>)
    requires Monotone(est) && settings.capacity >= 1 && StrictlySortedBy(blocks, BlockNumber)
    requires Partition(parts, blocks, settings, est)
    ensures CountNonEmpty(Packed(EmptyBatch(safe, settings), blocks, safe, est)) <= |parts|
  {
    var start := EmptyBatch(safe, settings);
    if blocks == [] {
      assert [start][1..] == [];
    } else {
      hide Partition;
      assert [] + blocks == blocks && blocks == [blocks[0]] + blocks[1..];
      AddOne(start, blocks, safe, est);
      var (next, result) := start.AddBlock(blocks[0], safe, est);
      assert next.blocks == [blocks[0]] by { assert [] + [blocks[0]] == [blocks[0]]; }
      assert [] + next.blocks + blocks[1..] == blocks;
      StaysAhead(next, blocks[1..], safe, est, [], parts);
      var tail := Packed(next, blocks[1..], safe, est);
      assert ([start] + tail)[1..] == tail;
    }
  }

  lemma {:induction false} PackedNoneEmpty(cursor: Batch, rest: seq<Block>, newAnchor: Header, est: Estimate)
    requires cursor.settings.capacity >= 1 && cursor.anchor == newAnchor
    requires cursor.blocks != [] && Proposable(cursor, cursor.settings, est) && InOrder(cursor.blocks, rest)
    ensures NoneEmpty(Packed(cursor, rest, newAnchor, est))
    decreases |rest|
  {
    hide InOrder, Batch.AddBlock, Proposable;
    if rest != [] {
      ProposableFits(cursor, est);
      AddOne(cursor, rest, newAnchor, est);
      var (next, result) := cursor.AddBlock(rest[0], newAnchor, est);
      PackedNoneEmpty(next, rest[1..], newAnchor, est);
    }
  }

  /**
   The only batch that can come out empty is the first, and it does exactly when the first block
   alone is over the target size (or there are no blocks).
   */
  lemma {:induction false} EmptyBatchIff(blocks: seq<Block>, safe: Header, settings: Settings, est: Estimate)
    requires settings.capacity >= 1 && StrictlySortedBy(blocks, BlockNumber)
    ensures var r := Packed(EmptyBatch(safe, settings), blocks, safe, est);
            && (r[0].blocks == [] <==> (blocks == [] || OverTargetAlone(blocks[0], settings, est)))
            && NoneEmpty(r[1..])
  {
    hide InOrder, Batch.AddBlock, Batch.DoesntFit, Proposable, OverTargetAlone, StrictlySortedBy;
    var start := EmptyBatch(safe, settings);
    if blocks != [] {
      StartLaws(blocks, safe, settings, est);
      AddOne(start, blocks, safe, est);
      var (next, result) := start.AddBlock(blocks[0], safe, est);
      assert next.blocks == [blocks[0]] by { assert [] + [blocks[0]] == [blocks[0]]; }
      PackedNoneEmpty(next, blocks[1..], safe, est);
      assert ([start] + Packed(next, blocks[1..], safe, est))[1..] == Packed(next, blocks[1..], safe, est);
    } else {
      assert [start][1..] == [];
    }
  }

  lemma {:induction false} NothingTaken(blocks: seq<Block>)
    requires StrictlySortedBy(blocks, BlockNumber)
    ensures InOrder([], blocks)
  {
    hide StrictlySortedBy;
    assert [] + blocks == blocks;
  }

  // The batch that packing starts from.
  lemma {:induction false} StartLaws(blocks: seq<Block>, safe: Header, settings: Settings, est: Estimate)
    requires settings.capacity >= 1 && StrictlySortedBy(blocks, BlockNumber) && blocks != []
    ensures var start := EmptyBatch(safe, settings);
            && InOrder(start.blocks, blocks) && Proposable(start, settings, est)
            && (start.DoesntFit(blocks[0].txs, est).Some? <==> OverTargetAlone(blocks[0], settings, est))
  {
    hide StrictlySortedBy, InOrder;
    NothingTaken(blocks);
  }

  // The blocks of the batches that are not empty.
  function Parts(batches: seq<Batch>): seq<seq<Block>> {
    if batches == [] then []
    else (if batches[0].blocks != [] then [batches[0].blocks] else []) + Parts(batches[1..])
  }

  lemma {:induction false} PartsLaws(batches: seq<Batch>, settings: Settings, est: Estimate)
    requires AllProposable(batches, settings, est)
    ensures |Parts(batches)| == CountNonEmpty(batches)
    ensures Partition(Parts(batches), Flatten(batches), settings, est)
    decreases |batches|
  {
    if batches != [] {
      var first, rest := batches[0], batches[1..];
      PartsLaws(rest, settings, est);
      assert batches == [first] + rest;
      FlattenOne(first);
      FlattenConcat([first], rest);
      if first.blocks == [] {
        assert [] + Parts(rest) == Parts(rest) && [] + Flatten(rest) == Flatten(rest);
      } else {
        assert Proposable(first, settings, est) && CanShare(first.blocks, settings, est);
        assert ([first.blocks] + Parts(rest))[1..] == Parts(rest);
      }
    }
  }

  /** The bound is met: the non-empty batches of a greedy packing are themselves such a way. */
  lemma {:induction false} PackedIsPartition(blocks: seq<Block>, safe: Header, settings: Settings, est: Estimate)
    requires settings.capacity >= 1 && StrictlySortedBy(blocks, BlockNumber)
    ensures var r := Packed(EmptyBatch(safe, settings), blocks, safe, est);
            Partition(Parts(r), blocks, settings, est) && |Parts(r)| == CountNonEmpty(r)
  {
    assert [] + blocks == blocks;
    PackedLaws(EmptyBatch(safe, settings), blocks, safe, est);
    PartsLaws(Packed(EmptyBatch(safe, settings), blocks, safe, est), settings, est);
  }
}
