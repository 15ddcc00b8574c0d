/**
 L2 blocks and the batches they are collected in. A `Batch` value is what the program moves
 around; `MutableBatch` is the same batch while it is updated in place.
 */
module Batches {
  import opened Integers
  import opened Wrappers

  const SLOT_DURATION_SECS: nat := 12
  const MAX_TIMESHIFT_SECS: nat := 255
  const TIMESHIFT_BUFFER_SECS: nat := MAX_TIMESHIFT_SECS - 4

  type Address = nat

  /** A transaction, known by its identity and its encoded length. */
  datatype Tx = Tx(id: nat, encodedLength: nat)

  /** An L1 block header, as far as anchoring is concerned. */
  datatype Header = Header(number: nat, timestamp: nat)

  /** A preconfirmed L2 block, without its anchor transaction. */
  datatype Block = Block(number: nat, timestamp: nat, coinbase: Address, txs: seq<Tx>)

  datatype Settings = Settings(
    capacity: nat,
    targetCompressedSize: nat,
    maxRawSize: nat,
    defaultCoinbase: Address,
    maxAnchorHeightOffset: nat,
    anchorMaxHeightBuffer: nat)

  // The estimated compressed size of raw data: some fixed function, larger data never smaller.
  type Estimate = nat -> nat

  ghost predicate Monotone(est: Estimate) {
    forall a: nat, b: nat :: a <= b ==> est(a) <= est(b)
  }

  function TxsSize(txs: seq<Tx>): nat {
    if txs == [] then 0 else txs[0].encodedLength + TxsSize(txs[1..])
  }

  function RawSize(blocks: seq<Block>): nat {
    if blocks == [] then 0 else RawSize(blocks[..|blocks| - 1]) + TxsSize(blocks[|blocks| - 1].txs)
  }

  lemma {:induction false} RawSizeConcat(a: seq<Block>, b: seq<Block>)
    ensures RawSize(a + b) == RawSize(a) + RawSize(b)
  {
    if b == [] {
      assert a + b == a;
    } else {
      assert (a + b)[..|a + b| - 1] == a + b[..|b| - 1];
      RawSizeConcat(a, b[..|b| - 1]);
    }
  }

  // The blocks that `retain` keeps, in their order.
  function BlocksBefore(blocks: seq<Block>, number: nat): seq<Block> {
    if blocks == [] then []
    else
      var last := |blocks| - 1;
      BlocksBefore(blocks[..last], number) + if blocks[last].number < number then [blocks[last]] else []
  }

  function BlocksAfter(blocks: seq<Block>, number: nat): seq<Block> {
    if blocks == [] then []
    else
      var last := |blocks| - 1;
      BlocksAfter(blocks[..last], number) + if blocks[last].number > number then [blocks[last]] else []
  }

  function Retimestamped(blocks: seq<Block>, timestamp: nat): (r: seq<Block>)
    ensures |r| == |blocks|
    ensures forall i :: 0 <= i < |blocks| ==> r[i] == blocks[i].(timestamp := timestamp)
  {
    seq(|blocks|, i requires 0 <= i < |blocks| => blocks[i].(timestamp := timestamp))
  }

  datatype DoesntFitReason =
    | Capacity
    | TargetSize(actual: nat, target: nat)

  datatype AddBlockResult =
    | Added(rawSize: nat)
    | Full(reason: DoesntFitReason, batch: Batch)

  datatype Batch = Batch(blocks: seq<Block>, anchor: Header, settings: Settings, coinbase: Address) {

    function Size(): nat {
      RawSize(blocks)
    }

    function DoesntFit(txs: seq<Tx>, est: Estimate): Option<DoesntFitReason> {
      var compressed := est(Size() + TxsSize(txs));
      if compressed > settings.targetCompressedSize then Some(TargetSize(compressed, settings.targetCompressedSize))
      else if |blocks| == settings.capacity then Some(Capacity)
      else None
    }

    // The batch once blocks from `number` on are dropped.
    function Before(number: nat): Batch {
      this.(blocks := BlocksBefore(blocks, number))
    }

    // The batch and the result after adding a block.
    function AddBlock(block: Block, newAnchor: Header, est: Estimate): (Batch, AddBlockResult) {
      var kept := Before(block.number);
      match kept.DoesntFit(block.txs, est)
      case None =>
        var grown := kept.(blocks := kept.blocks + [block]);
        (grown, Added(grown.Size()))
      case Some(reason) =>
        (kept.(blocks := [block], anchor := newAnchor), Full(reason, kept))
    }

    /** The first and the last block number, or 0 and 0 if the batch is empty. */
    function BlocksRange(): (nat, nat) {
      if blocks == [] then (0, 0) else (blocks[0].number, blocks[|blocks| - 1].number)
    }

    /** Slots left before the batch is too old to be proposed in L1 block `nextNumber`. */
    function AgeLimit(nextTs: nat, nextNumber: nat): nat {
      var anchorAge := SaturatingSub(nextNumber, anchor.number);
      var anchorSlotsLeft := SaturatingSub(settings.maxAnchorHeightOffset, anchorAge);
      var timeshiftLimit := settings.maxAnchorHeightOffset * SLOT_DURATION_SECS;
      if blocks == [] then anchorSlotsLeft
      else
        var distance := SaturatingSub(nextTs, blocks[0].timestamp);
        var secondsLeft := SaturatingSub(timeshiftLimit, distance);
        Min(anchorSlotsLeft, secondsLeft / SLOT_DURATION_SECS)
    }

    predicate ShouldBuildEmptyBlock(newBlockTs: nat) {
      blocks != [] && blocks[|blocks| - 1].timestamp <= SaturatingSub(newBlockTs, TIMESHIFT_BUFFER_SECS)
    }
  }

  /**
   A block fits exactly if the batch stays within the target size and the capacity with it; the size is checked first, and
   reported with what it would be.
   */
  lemma {:induction false} FitsIff(b: Batch, block: Block, est: Estimate)
    requires |b.blocks| <= b.settings.capacity
    ensures var grown, limits := b.blocks + [block], b.settings;
            var compressed := est(RawSize(grown));
            && (b.DoesntFit(block.txs, est).None? <==> compressed <= limits.targetCompressedSize && |grown| <= limits.capacity)
            && (b.DoesntFit(block.txs, est) == Some(Capacity) <==>
                  compressed <= limits.targetCompressedSize && |grown| > limits.capacity)
            && (b.DoesntFit(block.txs, est) == Some(TargetSize(compressed, limits.targetCompressedSize)) <==>
                  compressed > limits.targetCompressedSize)
  {
    var grown := b.blocks + [block];
    assert grown[..|grown| - 1] == b.blocks;
  }

  function EmptyBatch(anchor: Header, settings: Settings): Batch {
    Batch([], anchor, settings, settings.defaultCoinbase)
  }

  function BatchFromBlocks(anchor: Header, settings: Settings, blocks: seq<Block>): Batch {
    Batch(blocks, anchor, settings, settings.defaultCoinbase)
  }

  /** A batch that is being filled. */
  class MutableBatch {
    var blocks: seq<Block>
    var anchor: Header
    const settings: Settings
    var coinbase: Address

    constructor (batch: Batch)
      ensures Value() == batch
    {
      blocks, anchor, settings, coinbase := batch.blocks, batch.anchor, batch.settings, batch.coinbase;
    }

    function Value(): Batch
      reads this
    {
      Batch(blocks, anchor, settings, coinbase)
    }

    method AddBlockAndResetIfFull(block: Block, newAnchor: Header, est: Estimate)
      returns (r: AddBlockResult)
      modifies this
      ensures (Value(), r) == old(Value()).AddBlock(block, newAnchor, est)
    {
      RetainBlocksBefore(block.number);
      var reason := Value().DoesntFit(block.txs, est);
      if reason.None? {
        blocks := blocks + [block];
        return Added(Value().Size());
      }
      var full := TakeAndReset(newAnchor);
      assert blocks + [block] == [block];
      blocks := blocks + [block];
      return Full(reason.value, full);
    }

    method RetainBlocksBefore(number: nat)
      modifies this`blocks
      ensures blocks == BlocksBefore(old(blocks), number)
    {
      blocks := BlocksBefore(blocks, number);
    }

    method RetainBlocksAfter(number: nat)
      modifies this`blocks
      ensures blocks == BlocksAfter(old(blocks), number)
    {
      blocks := BlocksAfter(blocks, number);
    }

    /** Returns the batch as it was and starts an empty one on a new anchor. */
    method TakeAndReset(newAnchor: Header) returns (taken: Batch)
      modifies this
      ensures taken == old(Value())
      ensures Value() == old(Value()).(blocks := [], anchor := newAnchor)
    {
      taken := Batch(blocks, anchor, settings, coinbase);
      blocks := [];
      anchor := newAnchor;
    }

    method ChangeAnchor(newAnchor: Header)
      modifies this`anchor
      ensures anchor == newAnchor
    {
      anchor := newAnchor;
    }

    method SetAllBlocksTimestamp(timestamp: nat)
      modifies this`blocks
      ensures blocks == Retimestamped(old(blocks), timestamp)
    {
      var i := 0;
      while i < |blocks|
        invariant 0 <= i <= |blocks| == |old(blocks)|
        invariant blocks[..i] == Retimestamped(old(blocks), timestamp)[..i]
        invariant blocks[i..] == old(blocks)[i..]
      {
        blocks := blocks[i := blocks[i].(timestamp := timestamp)];
        i := i + 1;
      }
    }
  }

  // ---------- the age limit ----------

  /**
   The age limit is exactly how many slots remain: `j` more slots keep both the anchor height and
   the first timestamp within the protocol's bounds if and only if `j` is at most the limit.
   */
  lemma {:induction false} AgeLimitIff(b: Batch, nextTs: nat, nextNumber: nat, j: nat)
    requires j >= 1
    ensures j <= b.AgeLimit(nextTs, nextNumber) <==>
            var offset := b.settings.maxAnchorHeightOffset;
            && Max(nextNumber, b.anchor.number) + j <= b.anchor.number + offset
            && (b.blocks != [] ==>
                  Max(nextTs, b.blocks[0].timestamp) + SLOT_DURATION_SECS * j <=
                  b.blocks[0].timestamp + SLOT_DURATION_SECS * offset)
  {}

  /** A slot later, with the L1 tip at most one block higher, the limit is down by at most one. */
  lemma {:induction false} AgeLimitDrop(b: Batch, nextTs: nat, nextNumber: nat, mined: nat)
    requires mined <= 1
    ensures b.AgeLimit(nextTs, nextNumber) <=
            b.AgeLimit(nextTs + SLOT_DURATION_SECS, nextNumber + mined) + 1
    ensures b.AgeLimit(nextTs + SLOT_DURATION_SECS, nextNumber + mined) <=
            b.AgeLimit(nextTs, nextNumber)
  {}

  // How the outstanding batch changes from one slot tick to the next. It may grow, lose blocks at the
  // front, be reset or filled anew: its anchor does not go back, and its first block is not
  // older than the first one before, or not older than the tick before.
  ghost predicate NextTick(before: Batch, after: Batch, nextTs: nat) {
    && before.settings == after.settings && before.anchor.number <= after.anchor.number
    && (after.blocks != [] ==>
          || (before.blocks != [] && before.blocks[0].timestamp <= after.blocks[0].timestamp)
          || nextTs <= after.blocks[0].timestamp + SLOT_DURATION_SECS)
  }

  // The batch at successive slot ticks; the L1 tip advances by at most one block per slot.
  ghost predicate Ticks(batches: seq<Batch>, tips: seq<nat>, firstTs: nat) {
    && |batches| == |tips| > 0
    && (forall i :: 0 <= i < |tips| - 1 ==> tips[i] <= tips[i + 1] <= tips[i] + 1)
    && (forall i :: 0 <= i < |batches| - 1 ==>
          NextTick(batches[i], batches[i + 1], firstTs + SLOT_DURATION_SECS * i))
  }

  function LimitAt(batches: seq<Batch>, tips: seq<nat>, firstTs: nat, i: nat): nat
    requires i < |batches| == |tips|
  {
    batches[i].AgeLimit(firstTs + SLOT_DURATION_SECS * i, tips[i])
  }

  /** From tick to tick the limit of the batch drops by at most one, or to two below the maximum. */
  lemma {:induction false} LimitDrop(before: Batch, after: Batch, nextTs: nat, tip: nat, mined: nat)
    requires mined <= 1 && NextTick(before, after, nextTs)
    ensures var limit := after.AgeLimit(nextTs + SLOT_DURATION_SECS, tip + mined);
            || before.AgeLimit(nextTs, tip) <= limit + 1
            || after.settings.maxAnchorHeightOffset <= limit + 2
  {
    AgeLimitDrop(before, nextTs, tip, mined);
  }

  /**
   A driver that checks at every slot and was above the buffer triggers with the whole buffer
   left: at the first tick whose limit is not above the buffer, the limit is the buffer.
   */
  lemma {:induction false} TriggersInTime(batches: seq<Batch>, tips: seq<nat>, firstTs: nat, buffer: nat, m: nat)
    requires Ticks(batches, tips, firstTs) && 0 < m < |tips|
    requires buffer + 3 <= batches[m].settings.maxAnchorHeightOffset
    requires forall i :: 0 <= i < m ==> LimitAt(batches, tips, firstTs, i) > buffer
    requires LimitAt(batches, tips, firstTs, m) <= buffer
    ensures LimitAt(batches, tips, firstTs, m) == buffer
  {
    assert LimitAt(batches, tips, firstTs, m - 1) > buffer;
    LimitDrop(batches[m - 1], batches[m], firstTs + SLOT_DURATION_SECS * (m - 1), tips[m - 1], tips[m] - tips[m - 1]);
  }

  // A block built at this time has a time shift that fits in a byte.
  predicate ShiftFits(b: Batch, timestamp: nat)
    requires b.blocks != []
  {
    timestamp <= b.blocks[|b.blocks| - 1].timestamp + MAX_TIMESHIFT_SECS
  }

  /**
   The driver forces an empty block when the last one is old. For a batch for which it did not at
   one L2 slot, a block built `wait` seconds later has a time shift that fits in a byte, whatever the
   batch is, if and only if `wait` is at most 5: one or two L2 slots of 2 seconds.
   */
  lemma {:induction false} ForcedBlocksFitIff(previousTick: nat, wait: nat, anchor: Header, settings: Settings)
    requires previousTick >= TIMESHIFT_BUFFER_SECS
    ensures (forall b: Batch :: b.blocks != [] && !b.ShouldBuildEmptyBlock(previousTick) ==> ShiftFits(b, previousTick + wait))
            <==> wait <= MAX_TIMESHIFT_SECS - TIMESHIFT_BUFFER_SECS + 1
  {
    var oldest := Block(0, previousTick - TIMESHIFT_BUFFER_SECS + 1, 0, []);
    var b := BatchFromBlocks(anchor, settings, [oldest]);
    assert !b.ShouldBuildEmptyBlock(previousTick);
    assert ShiftFits(b, previousTick + wait) <==> wait <= MAX_TIMESHIFT_SECS - TIMESHIFT_BUFFER_SECS + 1;
  }
}
