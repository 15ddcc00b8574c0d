/** Lists of batches: the blocks in them, and what makes each batch proposable. */
module BatchLists {
  import opened Batches
  import opened AnchoredBlocks
  import opened Sorting

  /** A block together with the number of the L1 block its batch is anchored to. */
  datatype Placed = Placed(block: Block, anchor: nat)

  function AnchorKey(p: Placed): nat { p.anchor }

  function BlockNumber(b: Block): nat { b.number }

  function PlacedIn(b: Batch): (r: seq<Placed>)
    ensures |r| == |b.blocks|
  {
    seq(|b.blocks|, i requires 0 <= i < |b.blocks| => Placed(b.blocks[i], b.anchor.number))
  }

  function PlacedOf(blocks: seq<AnchoredBlock>): (r: seq<Placed>)
    ensures |r| == |blocks|
  {
    seq(|blocks|, i requires 0 <= i < |blocks| => Placed(blocks[i].block, blocks[i].anchor.number))
  }

  function PlacedBlocks(placed: seq<Placed>): (r: seq<Block>)
    ensures |r| == |placed|
  {
    seq(|placed|, i requires 0 <= i < |placed| => placed[i].block)
  }

  /** The blocks of a list of batches, in order, with their anchors. */
  function AllPlaced(batches: seq<Batch>): seq<Placed> {
    if batches == [] then [] else AllPlaced(batches[..|batches| - 1]) + PlacedIn(batches[|batches| - 1])
  }

  /** The blocks of a list of batches, in order. */
  function Flatten(batches: seq<Batch>): seq<Block> {
    if batches == [] then [] else Flatten(batches[..|batches| - 1]) + batches[|batches| - 1].blocks
  }

  lemma {:induction false} FlattenIsPlaced(batches: seq<Batch>)
    ensures Flatten(batches) == PlacedBlocks(AllPlaced(batches))
    decreases |batches|
  {
    if batches != [] {
      FlattenIsPlaced(batches[..|batches| - 1]);
    }
  }

  lemma {:induction false} ConcatAssoc<T>(a: seq<T>, b: seq<T>, c: seq<T>)
    ensures a + (b + c) == a + b + c
  {}

  lemma {:induction false} FlattenSnoc(batches: seq<Batch>, b: Batch)
    ensures Flatten(batches + [b]) == Flatten(batches) + b.blocks
    ensures AllPlaced(batches + [b]) == AllPlaced(batches) + PlacedIn(b)
  {
    assert (batches + [b])[..|batches|] == batches;
  }

  lemma {:induction false} FlattenNone()
    ensures Flatten([]) == [] && AllPlaced([]) == []
  {}

  lemma {:induction false} FlattenConcat(a: seq<Batch>, b: seq<Batch>)
    ensures Flatten(a + b) == Flatten(a) + Flatten(b)
    ensures AllPlaced(a + b) == AllPlaced(a) + AllPlaced(b)
    decreases |b|
  {
    hide *;
    if b == [] {
      FlattenNone();
      assert a + b == a;
    } else {
      var front, last := b[..|b| - 1], b[|b| - 1];
      assert b == front + [last];
      FlattenConcat(a, front);
      FlattenSnoc(front, last);
      FlattenSnoc(a + front, last);
      ConcatAssoc(a, front, [last]);
      ConcatAssoc(Flatten(a), Flatten(front), last.blocks);
      ConcatAssoc(AllPlaced(a), AllPlaced(front), PlacedIn(last));
    }
  }

  lemma {:induction false} FlattenOne(b: Batch)
    ensures Flatten([b]) == b.blocks && AllPlaced([b]) == PlacedIn(b)
  {
    assert [b][..0] == [];
  }

  /** Within capacity, and within the target size unless it is a single block. */
  ghost predicate Proposable(b: Batch, settings: Settings, est: Estimate) {
    && |b.blocks| <= settings.capacity
    && (|b.blocks| >= 2 ==> est(RawSize(b.blocks)) <= settings.targetCompressedSize)
  }

  predicate NoneEmpty(batches: seq<Batch>) {
    forall i :: 0 <= i < |batches| ==> batches[i].blocks != []
  }

  // All batches carry the limits of these settings; the default coinbase may differ.
  predicate SameLimits(b: Batch, settings: Settings) {
    b.settings.capacity == settings.capacity &&
    b.settings.targetCompressedSize == settings.targetCompressedSize
  }

  /** A batch of one anchor with at least one block, proposable under these settings. */
  ghost predicate GoodBatch(b: Batch, anchor: nat, settings: Settings, est: Estimate) {
    && b.blocks != [] && b.anchor.number == anchor
    && SameLimits(b, settings) && Proposable(b, settings, est)
  }

  ghost predicate AllGood(batches: seq<Batch>, anchor: nat, settings: Settings, est: Estimate) {
    forall i :: 0 <= i < |batches| ==> GoodBatch(batches[i], anchor, settings, est)
  }

  lemma {:induction false} AllGoodSnoc(front: seq<Batch>, b: Batch, anchor: nat, settings: Settings, est: Estimate)
    ensures AllGood(front + [b], anchor, settings, est) <==>
            (AllGood(front, anchor, settings, est) && GoodBatch(b, anchor, settings, est))
  {
    hide GoodBatch;
    var all := front + [b];
    assert all[|front|] == b && forall i :: 0 <= i < |front| ==> all[i] == front[i];
  }

  ghost predicate NumbersBelow(blocks: seq<Block>, number: nat) {
    forall i :: 0 <= i < |blocks| ==> blocks[i].number < number
  }

  lemma {:induction false} StrictSnoc(blocks: seq<Block>, b: Block)
    requires StrictlySortedBy(blocks, BlockNumber) && NumbersBelow(blocks, b.number)
    ensures StrictlySortedBy(blocks + [b], BlockNumber) && NumbersBelow(blocks + [b], b.number + 1)
  {}

  lemma {:induction false} BlocksBeforeAll(blocks: seq<Block>, number: nat)
    requires NumbersBelow(blocks, number)
    ensures BlocksBefore(blocks, number) == blocks
    decreases |blocks|
  {
    if blocks != [] {
      BlocksBeforeAll(blocks[..|blocks| - 1], number);
    }
  }

  /** Part of a batch is proposable when the whole is. */
  lemma {:induction false} PartProposable(part: Batch, whole: Batch, before: seq<Block>, after: seq<Block>,
                       settings: Settings, est: Estimate)
    requires Monotone(est) && Proposable(whole, settings, est)
    requires whole.blocks == before + part.blocks + after
    ensures Proposable(part, settings, est)
  {
    RawSizeConcat(before + part.blocks, after);
    RawSizeConcat(before, part.blocks);
  }

  /** Growing the last batch by a block appends the block to the whole list. */
  lemma {:induction false} FlattenGrown(front: seq<Batch>, last: Batch, grown: Batch, block: Block)
    requires grown.blocks == last.blocks + [block] && grown.anchor == last.anchor
    ensures Flatten(front + [grown]) == Flatten(front + [last]) + [block]
    ensures AllPlaced(front + [grown]) == AllPlaced(front + [last]) + [Placed(block, last.anchor.number)]
  {
    FlattenSnoc(front, last);
    FlattenSnoc(front, grown);
    assert PlacedIn(grown) == PlacedIn(last) + [Placed(block, last.anchor.number)];
  }

  function PlacedAt(blocks: seq<Block>, anchor: nat): (r: seq<Placed>)
    ensures |r| == |blocks|
  {
    seq(|blocks|, i requires 0 <= i < |blocks| => Placed(blocks[i], anchor))
  }

  lemma {:induction false} AllPlacedAt(batches: seq<Batch>, anchor: nat, settings: Settings, est: Estimate)
    requires AllGood(batches, anchor, settings, est)
    ensures AllPlaced(batches) == PlacedAt(Flatten(batches), anchor)
    decreases |batches|
  {
    hide Proposable;
    if batches != [] {
      assert GoodBatch(batches[|batches| - 1], anchor, settings, est);
      AllPlacedAt(batches[..|batches| - 1], anchor, settings, est);
    }
  }
}
