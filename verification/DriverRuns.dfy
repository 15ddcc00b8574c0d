/** What holds of the outstanding batch in every run of the driver. */
module DriverRuns {
  import opened Integers
  import opened Wrappers
  import opened Batches
  import opened AnchoredBlocks
  import opened BatchLists
  import opened BatchMaps
  import opened Reanchoring
  import opened Sorting
  import opened Pipeline
  import opened PipelineResults
  import opened PipelineOrder
  import opened Driver
  import Submission
  import Handover

  datatype Event =
    | Produced(block: Block, anchor: Header, gap: Option<seq<AnchoredBlock>>, deadline: nat)
    | L1Block(l1: L1Input)
    | L2Block(l2: L2Input)
    | Sync(sync: SyncInput)
    | SlotTick(tick: Tick)
    | EndOfSequencing(status: Handover.DriverStatus)

  function Step(s: State, e: Event, settings: Settings, est: Estimate): State {
    match e
    case Produced(block, anchor, gap, deadline) => AfterProduced(s, block, anchor, gap, deadline, est)
    case L1Block(i) => AfterL1Update(s, i)
    case L2Block(i) => AfterL2Block(s, i)
    case Sync(i) => AfterSync(s, i, settings, est)
    case SlotTick(t) => AfterTick(s, t, settings, est)
    case EndOfSequencing(status) => s.(status := status)
  }

  function Run(start: State, events: seq<Event>, settings: Settings, est: Estimate): State
    decreases |events|
  {
    if events == [] then start
    else Step(Run(start, events[..|events| - 1], settings, est), events[|events| - 1], settings, est)
  }

  // ---------- dropping blocks at one end ----------

  lemma {:induction false} LastIsLargest(blocks: seq<Block>)
    requires blocks != [] && StrictlySortedBy(blocks, BlockNumber)
    ensures StrictlySortedBy(blocks[..|blocks| - 1], BlockNumber)
    ensures NumbersBelow(blocks[..|blocks| - 1], blocks[|blocks| - 1].number)
  {
    var last := |blocks| - 1;
    assert forall i :: 0 <= i < last ==> BlockNumber(blocks[i]) < BlockNumber(blocks[last]);
  }

  // Every block before `k` has a number below, and no other block.
  ghost predicate EndsBelow(blocks: seq<Block>, number: nat, k: nat) {
    && k <= |blocks| && (k < |blocks| ==> blocks[k].number >= number)
    && forall i :: 0 <= i < |blocks| ==> (blocks[i].number < number <==> i < k)
  }

  lemma {:induction false} EndSnoc(front: seq<Block>, last: Block, number: nat, k: nat)
    requires EndsBelow(front, number, k) && NumbersBelow(front, last.number)
    ensures last.number >= number ==> EndsBelow(front + [last], number, k) && (front + [last])[..k] == front[..k] + []
    ensures last.number < number ==> EndsBelow(front + [last], number, |front| + 1) && front[..k] == front
  {}

  lemma {:induction false} BeforeIsPrefix(blocks: seq<Block>, number: nat) returns (k: nat)
    requires StrictlySortedBy(blocks, BlockNumber)
    ensures EndsBelow(blocks, number, k) && BlocksBefore(blocks, number) == blocks[..k]
    decreases |blocks|
  {
    hide EndsBelow;
    if blocks == [] {
      k := 0;
      NothingToCut(number);
    } else {
      LastIsLargest(blocks);
      hide StrictlySortedBy;
      var front, last := blocks[..|blocks| - 1], blocks[|blocks| - 1];
      assert blocks == front + [last];
      k := BeforeIsPrefix(front, number);
      EndSnoc(front, last, number, k);
      if last.number < number {
        k := |blocks|;
      }
    }
  }

  // Every block from `k` on has a number above, and no block before.
  ghost predicate CutAt(blocks: seq<Block>, number: nat, k: nat) {
    && k <= |blocks| && (k < |blocks| ==> blocks[k].number > number)
    && forall i :: 0 <= i < |blocks| ==> (blocks[i].number > number <==> k <= i)
  }

  lemma {:induction false} CutSnoc(front: seq<Block>, last: Block, number: nat, k: nat)
    requires CutAt(front, number, k) && NumbersBelow(front, last.number)
    ensures last.number > number ==> CutAt(front + [last], number, k) && (front + [last])[k..] == front[k..] + [last]
    ensures last.number <= number ==> CutAt(front + [last], number, |front| + 1) && front[k..] == []
  {}

  lemma {:induction false} AfterIsSuffix(blocks: seq<Block>, number: nat) returns (k: nat)
    requires StrictlySortedBy(blocks, BlockNumber)
    ensures CutAt(blocks, number, k) && BlocksAfter(blocks, number) == blocks[k..]
    decreases |blocks|
  {
    hide CutAt;
    if blocks == [] {
      k := 0;
      NothingToCut(number);
    } else {
      LastIsLargest(blocks);
      hide StrictlySortedBy;
      var front, last := blocks[..|blocks| - 1], blocks[|blocks| - 1];
      assert blocks == front + [last];
      k := AfterIsSuffix(front, number);
      CutSnoc(front, last, number, k);
      if last.number <= number {
        k := |blocks|;
      }
    }
  }

  lemma {:induction false} NothingToCut(number: nat)
    ensures CutAt([], number, 0) && EndsBelow([], number, 0)
  {}

  lemma {:induction false} StillThere(blocks: seq<Block>, number: nat, b: Block)
    requires StrictlySortedBy(blocks, BlockNumber) && b in blocks && b.number > number
    ensures b in BlocksAfter(blocks, number)
  {
    var k := AfterIsSuffix(blocks, number);
    var i :| 0 <= i < |blocks| && blocks[i] == b;
    assert blocks[k..][i - k] == b;
  }

  lemma {:induction false} PartKeeps(blocks: seq<Block>, from: nat, to: nat)
    requires from <= to <= |blocks|
    ensures StrictlySortedBy(blocks, BlockNumber) ==> StrictlySortedBy(blocks[from..to], BlockNumber)
    ensures Consecutive(blocks) ==> Consecutive(blocks[from..to])
  {
    var part := blocks[from..to];
    assert forall i :: 0 <= i < |part| ==> part[i] == blocks[from + i];
  }

  lemma {:induction false} BeforeKeeps(blocks: seq<Block>, number: nat)
    requires StrictlySortedBy(blocks, BlockNumber)
    ensures var r := BlocksBefore(blocks, number);
            && StrictlySortedBy(r, BlockNumber) && |r| <= |blocks| && NumbersBelow(r, number)
            && (Consecutive(blocks) ==> Consecutive(r))
  {
    var k := BeforeIsPrefix(blocks, number);
    PartKeeps(blocks, 0, k);
  }

  lemma {:induction false} AfterKeeps(blocks: seq<Block>, number: nat)
    requires StrictlySortedBy(blocks, BlockNumber)
    ensures var r := BlocksAfter(blocks, number);
            && StrictlySortedBy(r, BlockNumber) && |r| <= |blocks|
            && (Consecutive(blocks) ==> Consecutive(r))
  {
    var k := AfterIsSuffix(blocks, number);
    PartKeeps(blocks, k, |blocks|);
  }

  // ---------- filling the outstanding batch ----------

  // All batches have the settings and the coinbase of `b`, and are within capacity.
  ghost predicate AllWithin(batches: seq<Batch>, b: Batch) {
    forall i :: 0 <= i < |batches| ==> Within(batches[i], b)
  }

  ghost predicate Within(x: Batch, b: Batch) {
    x.settings == b.settings && x.coinbase == b.coinbase && |x.blocks| <= b.settings.capacity
  }

  /** Filling keeps every block, in order, and no batch goes over capacity. */
  lemma {:induction false} FillLaws(cursor: Batch, blocks: seq<Block>, anchor: Header, est: Estimate)
    requires InOrder(cursor.blocks, blocks)
    requires 1 <= cursor.settings.capacity && |cursor.blocks| <= cursor.settings.capacity
    ensures var r := Packed(cursor, blocks, anchor, est);
            && Flatten(r) == cursor.blocks + blocks && AllWithin(r, cursor)
            && (Proposable(cursor, cursor.settings, est) ==> AllProposable(r, cursor.settings, est))
    decreases |blocks|
  {
    hide InOrder, Flatten, Batch.AddBlock, Proposable;
    if blocks == [] {
      FlattenOne(cursor);
      assert cursor.blocks + [] == cursor.blocks;
    } else {
      AddOne(cursor, blocks, anchor, est);
      var (next, result) := cursor.AddBlock(blocks[0], anchor, est);
      FillLaws(next, blocks[1..], anchor, est);
      assert blocks == [blocks[0]] + blocks[1..];
      if result.Added? {
        assert cursor.blocks + [blocks[0]] + blocks[1..] == cursor.blocks + blocks;
      } else {
        FlattenCons(cursor, Packed(next, blocks[1..], anchor, est));
      }
    }
  }

  // Blocks that the first new block replaces are dropped before anything is added.
  lemma {:induction false} PackedTrims(cursor: Batch, blocks: seq<Block>, anchor: Header, est: Estimate)
    requires blocks != []
    ensures Packed(cursor, blocks, anchor, est) == Packed(cursor.Before(blocks[0].number), blocks, anchor, est)
  {
    var number := blocks[0].number;
    BeforeBelow(cursor.blocks, number);
    BlocksBeforeAll(BlocksBefore(cursor.blocks, number), number);
    assert cursor.Before(number).Before(number) == cursor.Before(number);
  }

  lemma {:induction false} BeforeBelow(blocks: seq<Block>, number: nat)
    ensures NumbersBelow(BlocksBefore(blocks, number), number)
    decreases |blocks|
  {
    if blocks != [] {
      BeforeBelow(blocks[..|blocks| - 1], number);
    }
  }

  // ---------- a block was built ----------

  // The download gave blocks of the missing range without a gap, if perhaps not all of them.
  ghost predicate GapWithin(s: State, block: Block, gap: Option<seq<AnchoredBlock>>) {
    HasGap(s.outstanding, block.number) && gap.Some? ==>
      ConsecutiveAnchored(gap.value) && Between(Blocks(gap.value), s.outstanding.BlocksRange().1, block.number)
  }

  predicate Between(blocks: seq<Block>, after: nat, before: nat) {
    forall i :: 0 <= i < |blocks| ==> after < blocks[i].number < before
  }

  // The download gave exactly the missing range.
  ghost predicate GapFilled(s: State, block: Block, gap: Option<seq<AnchoredBlock>>) {
    HasGap(s.outstanding, block.number) ==>
      && gap.Some? && s.outstanding.BlocksRange().1 + 1 + |gap.value| == block.number
      && forall i :: 0 <= i < |gap.value| ==> gap.value[i].block.number == s.outstanding.BlocksRange().1 + 1 + i
  }

  ghost predicate Sound(s: State, settings: Settings) {
    && Increasing(s.outstanding) && SameLimits(s.outstanding, settings)
    && |s.outstanding.blocks| <= settings.capacity
  }

  lemma {:induction false} FilledIsWithin(s: State, block: Block, gap: Option<seq<AnchoredBlock>>)
    requires GapFilled(s, block, gap)
    ensures GapWithin(s, block, gap)
  {}

  lemma {:induction false} ToAddIncreasing(s: State, block: Block, gap: Option<seq<AnchoredBlock>>)
    requires GapWithin(s, block, gap)
    ensures StrictlySortedBy(BlocksToAdd(s.outstanding, block, gap), BlockNumber)
  {
    if HasGap(s.outstanding, block.number) && gap.Some? {
      var missing := Blocks(gap.value);
      assert forall i :: 0 <= i < |missing| ==> missing[i].number == gap.value[i].block.number;
      assert StrictlySortedBy(missing, BlockNumber);
      StrictSnoc(missing, block);
    }
  }

  lemma {:induction false} Follows(kept: seq<Block>, blocks: seq<Block>)
    requires blocks != [] && StrictlySortedBy(kept, BlockNumber) && StrictlySortedBy(blocks, BlockNumber)
    requires NumbersBelow(kept, blocks[0].number)
    ensures InOrder(kept, blocks)
  {
    var all := kept + blocks;
    forall i, j | 0 <= i < j < |all| ensures BlockNumber(all[i]) < BlockNumber(all[j]) {
      if i < |kept| && |kept| <= j {
        assert all[j] == blocks[j - |kept|];
        assert j > |kept| ==> BlockNumber(blocks[0]) < BlockNumber(blocks[j - |kept|]);
      }
    }
  }

  /**
   The full batches that come out when a block was built, followed by the new outstanding batch,
   hold the outstanding blocks that were not replaced, the missing blocks and the new block, in
   order. If the driver can propose, exactly the full batches that have blocks are submitted.
   */
  lemma {:induction false} ProducedConserves(
    s: State, block: Block, anchor: Header, gap: Option<seq<AnchoredBlock>>, deadline: nat, settings: Settings, est: Estimate)
    returns (full: seq<Batch>)
    requires settings.capacity >= 1 && Sound(s, settings) && GapWithin(s, block, gap)
    ensures var r := AfterProduced(s, block, anchor, gap, deadline, est);
            var add := BlocksToAdd(s.outstanding, block, gap);
            && Flatten(full) + r.outstanding.blocks == BlocksBefore(s.outstanding.blocks, add[0].number) + add
            && Sound(r, settings) && AllWithin(full, r.outstanding) && AllIncreasing(full)
            && r.commands == s.commands + (if s.status.CanPropose() then Requests(full, deadline) else [])
            && (Proposable(s.outstanding.Before(add[0].number), s.outstanding.settings, est) ==>
                  AllProposable(full + [r.outstanding], s.outstanding.settings, est))
  {
    var add := BlocksToAdd(s.outstanding, block, gap);
    var kept := s.outstanding.Before(add[0].number);
    ToAddIncreasing(s, block, gap);
    BeforeKeeps(s.outstanding.blocks, add[0].number);
    Follows(kept.blocks, add);
    hide StrictlySortedBy, Flatten, BlocksToAdd, GapWithin, NumbersBelow, Requests, AllProposable, Proposable, BlocksBefore,
         Packed, InOrder, Increasing;
    PackedTrims(s.outstanding, add, anchor, est);
    FillLaws(kept, add, anchor, est);
    full := LastOfAll(kept, add, Packed(kept, add, anchor, est));
  }

  lemma {:induction false} LastOfAll(kept: Batch, add: seq<Block>, r: seq<Batch>) returns (full: seq<Batch>)
    requires r != [] && InOrder(kept.blocks, add) && Flatten(r) == kept.blocks + add && AllWithin(r, kept)
    ensures var last := r[|r| - 1];
            && full == r[..|r| - 1] && r == full + [last] && Flatten(full) + last.blocks == kept.blocks + add
            && Increasing(last) && Within(last, kept) && AllWithin(full, last) && AllIncreasing(full)
  {
    hide InOrder;
    full := r[..|r| - 1];
    assert r == full + [r[|r| - 1]];
    FlattenSnoc(full, r[|r| - 1]);
    OrderedIncreasing(kept.blocks, add, r);
    hide Increasing, Flatten;
  }

  lemma {:induction false} OrderedIncreasing(kept: seq<Block>, add: seq<Block>, r: seq<Batch>)
    requires InOrder(kept, add) && Flatten(r) == kept + add
    ensures AllIncreasing(r)
  {
    IncreasingParts(r);
  }

  // ---------- a sync ----------

  lemma {:induction false} WithAnchorIncreasing(blocks: seq<AnchoredBlock>, number: nat)
    requires ConsecutiveAnchored(blocks)
    ensures StrictlySortedBy(Blocks(WithAnchor(blocks, number)), BlockNumber)
    ensures blocks != [] ==> NumbersBelow(Blocks(WithAnchor(blocks, number)), blocks[0].block.number + |blocks|)
    decreases |blocks|
  {
    if blocks != [] {
      var front, last := blocks[..|blocks| - 1], blocks[|blocks| - 1];
      WithAnchorIncreasing(front, number);
      var kept := WithAnchor(front, number);
      if last.anchor.number == number {
        StrictSnoc(Blocks(kept), last.block);
        assert Blocks(kept + [last]) == Blocks(kept) + [last.block];
      } else {
        assert kept + [] == kept;
      }
    }
  }

  lemma {:induction false} OutstandingIncreasing(blocks: seq<AnchoredBlock>, safe: Header, settings: Settings)
    requires ConsecutiveAnchored(blocks)
    ensures var b := IntoOutstanding(blocks, safe, settings);
            Increasing(b) && b.settings == settings && |b.blocks| <= settings.capacity
  {
    var kept := WithAnchor(blocks, HighestAnchor(blocks, safe).number);
    WithAnchorIncreasing(blocks, HighestAnchor(blocks, safe).number);
    var k := SaturatingSub(|kept|, settings.capacity);
    assert Blocks(kept[k..]) == Blocks(kept)[k..|kept|];
    PartKeeps(Blocks(kept), k, |kept|);
  }

  ghost predicate SyncValid(i: SyncInput) {
    ConsecutiveAnchored(i.blocks)
  }

  // The anchors of the downloaded blocks do not decrease, or the blocks get a new anchor anyway.
  ghost predicate SyncOrdered(i: SyncInput) {
    || SortedBy(i.blocks, AnchorOf)
    || (i.status.CanPropose() && SomeExpired(i.blocks, i.minProposableAnchor))
  }

  lemma {:induction false} SyncedSound(i: SyncInput, settings: Settings, est: Estimate)
    requires Monotone(est) && settings.capacity >= 1 && SyncValid(i)
    ensures var r := SyncedBatches(i, settings, est);
            forall k :: 0 <= k < |r| ==>
              Increasing(r[k]) && SameLimits(r[k], settings) && |r[k].blocks| <= settings.capacity
  {
    hide Increasing, IntoOutstanding, Created, ConsecutiveAnchored;
    EmptyIncreasing(i.l1Anchor, settings);
    OutstandingIncreasing(i.blocks, i.l1Anchor, settings);
    CreatedIncreasing(i.blocks, settings, est, BoundsOf(i));
    PipelineBatchesValid(i.blocks, settings, est, BoundsOf(i));
    forall k | 0 <= k < |Created(i.blocks, settings, est, BoundsOf(i))|
      ensures |Created(i.blocks, settings, est, BoundsOf(i))[k].blocks| <= settings.capacity
    {
      assert Proposable(Created(i.blocks, settings, est, BoundsOf(i))[k], settings, est);
    }
  }

  lemma {:induction false} EmptyIncreasing(anchor: Header, settings: Settings)
    ensures Increasing(EmptyBatch(anchor, settings))
  {}

  lemma {:induction false} SyncKeeps(s: State, i: SyncInput, settings: Settings, est: Estimate)
    requires Monotone(est) && settings.capacity >= 1 && SyncValid(i)
    ensures Sound(AfterSync(s, i, settings, est), settings)
  {
    hide Increasing, SyncedBatches, SyncValid;
    SyncedSound(i, settings, est);
    EmptyIncreasing(s.l1Anchor, settings);
  }

  lemma {:induction false} SyncedConsecutive(i: SyncInput, settings: Settings, est: Estimate)
    requires Monotone(est) && settings.capacity >= 1 && SyncValid(i) && SyncOrdered(i)
    ensures AllConsecutive(SyncedBatches(i, settings, est))
  {
    hide IntoOutstanding, Created, ConsecutiveAnchored, Consecutive;
    assert Consecutive([]) by { NoneConsecutive(); }
    if i.l2Head > i.origin {
      if i.status.CanPropose() {
        CreatedConsecutive(i.blocks, settings, est, BoundsOf(i));
      } else if i.blocks != [] {
        OutstandingIsFinalRun(i.blocks, i.l1Anchor, settings);
      } else {
        NoneOutstanding(i.l1Anchor, settings);
      }
    }
  }

  lemma {:induction false} NoneConsecutive()
    ensures Consecutive([])
  {}

  lemma {:induction false} NoneOutstanding(safe: Header, settings: Settings)
    ensures IntoOutstanding([], safe, settings).blocks == []
  {}

  /**
   A sync that can propose hands over every soft block exactly once: the submitted batches followed
   by the outstanding one are the blocks in batch order, up to timestamps reset to the maximum.
   */
  lemma {:induction false} SyncConserves(s: State, i: SyncInput, settings: Settings, est: Estimate)
    returns (submitted: seq<Batch>, c: nat)
    requires Monotone(est) && settings.capacity >= 1 && SyncValid(i)
    requires i.status.CanPropose() && i.origin < i.l2Head
    ensures var r := AfterSync(s, i, settings, est);
            var base := InBatchOrder(i.blocks, settings, est, BoundsOf(i));
            && r.commands == s.commands + Requests(submitted, i.deadline)
            && multiset(base) == multiset(Blocks(i.blocks))
            && RetimedFrom(base, Flatten(submitted) + r.outstanding.blocks, c, i.minTs, i.maxTs)
  {
    hide RetimedFrom, Created, InBatchOrder, ConsecutiveAnchored, Flatten;
    var batches := Created(i.blocks, settings, est, BoundsOf(i));
    submitted := Proposed(batches, settings);
    c := PipelineKeepsBlocks(i.blocks, settings, est, BoundsOf(i));
    KeptFlatten(batches, s.l1Anchor, settings);
  }

  lemma {:induction false} KeptFlatten(batches: seq<Batch>, anchor: Header, settings: Settings)
    ensures Flatten(Proposed(batches, settings)) + Kept(batches, anchor, settings).blocks == Flatten(batches)
  {}

  /**
   The anchor that blocks are moved to is meant to be the higher of the safe L1 anchor and the
   anchor of the highest unsafe block. The program takes the header of that L2 block instead. Given
   a safe anchor that is recent enough, blocks are moved to one that is if and only if that branch
   is not taken or the L2 block number happens to be high enough.
   */
  lemma {:induction false} NewAnchorRecentIff(i: SyncInput, settings: Settings, est: Estimate)
    requires Monotone(est) && settings.capacity >= 1 && SyncValid(i)
    requires i.minProposableAnchor <= i.l1Anchor.number && SomeExpired(i.blocks, i.minProposableAnchor)
    ensures AnchorsOrdered(Created(i.blocks, settings, est, BoundsOf(i)), i.minProposableAnchor) <==>
            (i.highestUnsafeAnchor <= i.l1Anchor.number || i.minProposableAnchor <= i.highestUnsafe.number)
  {
    var r := Created(i.blocks, settings, est, BoundsOf(i));
    PipelineBatchesValid(i.blocks, settings, est, BoundsOf(i));
    ReanchorIff(i.blocks, settings, est, i.minProposableAnchor);
    assert r != [] by {
      AllBatchesOne(FinalMap(i.blocks, settings, est, BoundsOf(i))[0]);
    }
    hide Created, SomeExpired, AllProposable;
    assert r[0].anchor == SafeAnchor(i);
  }

  // All batches are on the higher of the safe anchor and the anchor of the highest unsafe block.
  ghost predicate OnHigherAnchor(batches: seq<Batch>, i: SyncInput) {
    forall k :: 0 <= k < |batches| ==> batches[k].anchor.number == Max(i.l1Anchor.number, i.highestUnsafeAnchor)
  }

  /**
   When re-anchoring fires, batches are on the higher of the two anchors if and only if the branch
   that takes the L2 header is not taken, or the L2 block and its anchor have the same number.
   */
  lemma {:induction false} NewAnchorIsHigherIff(i: SyncInput, settings: Settings, est: Estimate)
    requires Monotone(est) && settings.capacity >= 1 && SyncValid(i) && SomeExpired(i.blocks, i.minProposableAnchor)
    ensures OnHigherAnchor(Created(i.blocks, settings, est, BoundsOf(i)), i) <==>
            (i.highestUnsafeAnchor <= i.l1Anchor.number || i.highestUnsafe.number == i.highestUnsafeAnchor)
  {
    var r := Created(i.blocks, settings, est, BoundsOf(i));
    PipelineBatchesValid(i.blocks, settings, est, BoundsOf(i));
    ReanchorIff(i.blocks, settings, est, i.minProposableAnchor);
    assert r != [] by {
      AllBatchesOne(FinalMap(i.blocks, settings, est, BoundsOf(i))[0]);
    }
    hide Created, SomeExpired, AllProposable, AnchorsOrdered;
    assert r[0].anchor == SafeAnchor(i);
  }

  // Blocks 7 and 8 are not on L1 yet; block 7 has an anchor that expired, block 8 the highest one.
  function TwoBlocks(unsafe: Header, status: Handover.DriverStatus): SyncInput {
    var blocks := [AnchoredBlock(Block(7, 0, 0, []), Header(3, 0)), AnchoredBlock(Block(8, 0, 0, []), Header(21, 0))];
    SyncInput(status, 8, 6, Header(20, 0), blocks, unsafe, 21, 10, 0, 0, 0)
  }

  /** An input for which both blocks are moved to an anchor that is too old. */
  lemma {:induction false} NewAnchorTooOld(settings: Settings, est: Estimate, status: Handover.DriverStatus)
    requires Monotone(est) && settings.capacity >= 1
    ensures var i := TwoBlocks(Header(8, 0), status);
            !AnchorsOrdered(Created(i.blocks, settings, est, BoundsOf(i)), i.minProposableAnchor)
  {
    var i := TwoBlocks(Header(8, 0), status);
    assert AnchorOf(i.blocks[0]) < 10;
    NewAnchorRecentIff(i, settings, est);
  }

  // ---------- L1 and L2 blocks ----------

  /** After a reorg only blocks below it are left, all of those, and the queue was told to clear. */
  lemma {:induction false} ReorgDropsBlocks(s: State, i: L2Input, b: Block)
    requires Increasing(s.outstanding) && i.number < s.l2Head
    ensures var r := AfterL2Block(s, i);
            && (b in r.outstanding.blocks <==> b in s.outstanding.blocks && b.number < i.number)
            && r.commands == s.commands + [Submission.ClearQueue]
  {
    var k := BeforeIsPrefix(s.outstanding.blocks, i.number);
    hide StrictlySortedBy, BlocksBefore;
    if b in s.outstanding.blocks && b.number < i.number {
      var j :| 0 <= j < |s.outstanding.blocks| && s.outstanding.blocks[j] == b;
      assert b == s.outstanding.blocks[..k][j];
    }
  }

  /**
   After an L1 update in which no call failed, exactly the blocks above the origin are left, the
   cached anchor is not older than the safe one, and an empty batch is on the cached anchor.
   */
  lemma {:induction false} SafeBlocksDropped(s: State, i: L1Input, b: Block)
    requires Increasing(s.outstanding) && i.origin.Some?
    requires i.safeAnchor.Some? && i.safeAnchor.value.number == SaturatingSub(i.tip, i.anchorLag)
    ensures var r := AfterL1Update(s, i);
            && (b in r.outstanding.blocks <==> b in s.outstanding.blocks && b.number > i.origin.value)
            && r.l1Anchor.number == Max(s.l1Anchor.number, SaturatingSub(i.tip, i.anchorLag))
            && (r.outstanding.blocks == [] && !i.finalizing ==> r.outstanding.anchor == r.l1Anchor)
  {
    var k := AfterIsSuffix(s.outstanding.blocks, i.origin.value);
    if b in s.outstanding.blocks && b.number > i.origin.value {
      StillThere(s.outstanding.blocks, i.origin.value, b);
    }
    hide StrictlySortedBy, BlocksAfter;
    if b in s.outstanding.blocks[k..] {
      var j :| 0 <= j < |s.outstanding.blocks[k..]| && s.outstanding.blocks[k..][j] == b;
      assert b == s.outstanding.blocks[k + j];
    }
  }

  // The header of a call is the one asked for.
  ghost predicate HeadersMatch(e: Event) {
    match e
    case L1Block(i) => i.safeAnchor.Some? ==> i.safeAnchor.value.number == SaturatingSub(i.tip, i.anchorLag)
    case L2Block(i) => i.anchor.Some? && i.anchorId.Some? ==> i.anchor.value.number == i.anchorId.value
    case _ => true
  }

  /** Over a run the cached anchor never goes back. */
  lemma {:induction false} AnchorNeverGoesBack(start: State, events: seq<Event>, settings: Settings, est: Estimate)
    requires forall i :: 0 <= i < |events| ==> HeadersMatch(events[i])
    ensures start.l1Anchor.number <= Run(start, events, settings, est).l1Anchor.number
    decreases |events|
  {
    if events != [] {
      AnchorNeverGoesBack(start, events[..|events| - 1], settings, est);
      assert HeadersMatch(events[|events| - 1]);
      hide BlocksAfter, BlocksBefore, Packed, Batch.AgeLimit, Kept, Proposed, Requests, SyncedBatches;
    }
  }

  // ---------- the age check ----------

  /**
   At a tick, a batch that has blocks and at most the buffer left is submitted first. Its deadline
   is safe: for as many slots as are left the protocol takes its anchor and its first timestamp.
   */
  lemma {:induction false} OldBatchSubmitted(s: State, t: Tick, settings: Settings, est: Estimate, j: nat)
    requires s.outstanding.AgeLimit(t.nextTs, s.l1Tip + 1) <= settings.anchorMaxHeightBuffer
    requires s.outstanding.blocks != []
    ensures var b := s.outstanding;
            var limit := b.AgeLimit(t.nextTs, s.l1Tip + 1);
            var submit := Submission.Submit(Submission.Request(b, t.currentSlot + limit));
            && s.commands + [submit] <= AfterTick(s, t, settings, est).commands
            && (1 <= j <= limit ==>
                  && s.l1Tip + 1 + j <= b.anchor.number + b.settings.maxAnchorHeightOffset
                  && t.nextTs + SLOT_DURATION_SECS * j <=
                     b.blocks[0].timestamp + SLOT_DURATION_SECS * b.settings.maxAnchorHeightOffset)
  {
    if j >= 1 {
      AgeLimitIff(s.outstanding, t.nextTs, s.l1Tip + 1, j);
    }
    hide Batch.AgeLimit, SyncedBatches, Requests, Kept, Proposed;
  }

  // ---------- runs ----------

  // What holds of the inputs of an event, whatever the node's peers do.
  ghost predicate Valid(s: State, e: Event) {
    match e
    case Produced(block, _, gap, _) => GapWithin(s, block, gap)
    case L1Block(_) => true
    case L2Block(_) => true
    case Sync(i) => SyncValid(i)
    case SlotTick(t) => t.sync.Some? ==> SyncValid(t.sync.value)
    case EndOfSequencing(_) => true
  }

  ghost predicate ValidRun(start: State, events: seq<Event>, settings: Settings, est: Estimate)
    decreases |events|
  {
    events != [] ==>
      && ValidRun(start, events[..|events| - 1], settings, est)
      && Valid(Run(start, events[..|events| - 1], settings, est), events[|events| - 1])
  }

  lemma {:induction false} TickKeeps(s: State, t: Tick, settings: Settings, est: Estimate)
    requires Monotone(est) && settings.capacity >= 1 && Sound(s, settings)
    requires t.sync.Some? ==> SyncValid(t.sync.value)
    ensures Sound(AfterTick(s, t, settings, est), settings)
  {
    var a := if s.outstanding.AgeLimit(t.nextTs, s.l1Tip + 1) <= settings.anchorMaxHeightBuffer
             then AfterSubmit(s, t.currentSlot + s.outstanding.AgeLimit(t.nextTs, s.l1Tip + 1)) else s;
    if t.sync.Some? {
      SyncKeeps(a, t.sync.value, settings, est);
    }
    hide AfterSync, Batch.AgeLimit, SyncValid;
  }

  lemma {:induction false} StepKeeps(s: State, e: Event, settings: Settings, est: Estimate)
    requires Monotone(est) && settings.capacity >= 1 && Sound(s, settings) && Valid(s, e)
    ensures Sound(Step(s, e, settings, est), settings)
  {
    hide AfterSync, AfterProduced, AfterTick, GapWithin, SyncValid;
    match e
    case Produced(block, anchor, gap, deadline) =>
      var full := ProducedConserves(s, block, anchor, gap, deadline, settings, est);
    case L1Block(i) => if i.origin.Some? { AfterKeeps(s.outstanding.blocks, i.origin.value); }
    case L2Block(i) => BeforeKeeps(s.outstanding.blocks, i.number);
    case Sync(i) => SyncKeeps(s, i, settings, est);
    case SlotTick(t) => TickKeeps(s, t, settings, est);
    case EndOfSequencing(_) =>
  }

  /**
   In every run the block numbers of the outstanding batch increase and the batch stays within
   capacity, even when downloads fail or break off and anchors go back.
   */
  lemma {:induction false} RunKeepsSound(start: State, events: seq<Event>, settings: Settings, est: Estimate)
    requires Monotone(est) && settings.capacity >= 1 && Sound(start, settings)
    requires ValidRun(start, events, settings, est)
    ensures Sound(Run(start, events, settings, est), settings)
    decreases |events|
  {
    hide Sound, Step, Valid;
    if events != [] {
      RunKeepsSound(start, events[..|events| - 1], settings, est);
      StepKeeps(Run(start, events[..|events| - 1], settings, est), events[|events| - 1], settings, est);
    }
  }

  // ---------- what is submitted ----------

  // A request has blocks, in order and within capacity.
  ghost predicate GoodCommand(cmd: Submission.Cmd, settings: Settings) {
    cmd.Submit? ==>
      var b := cmd.request.batch;
      b.blocks != [] && Increasing(b) && |b.blocks| <= settings.capacity
  }

  ghost predicate GoodCommands(commands: seq<Submission.Cmd>, settings: Settings) {
    forall i :: 0 <= i < |commands| ==> GoodCommand(commands[i], settings)
  }

  ghost predicate Fits(b: Batch, settings: Settings) {
    Increasing(b) && |b.blocks| <= settings.capacity
  }

  lemma {:induction false} GoodRequests(commands: seq<Submission.Cmd>, batches: seq<Batch>, deadline: nat, settings: Settings)
    requires GoodCommands(commands, settings)
    requires forall i :: 0 <= i < |batches| ==> Fits(batches[i], settings)
    ensures GoodCommands(commands + Requests(batches, deadline), settings)
    decreases |batches|
  {
    hide Increasing;
    if batches == [] {
      assert commands + Requests(batches, deadline) == commands;
    } else {
      var front, last := batches[..|batches| - 1], batches[|batches| - 1];
      GoodRequests(commands, front, deadline, settings);
      assert Fits(last, settings);
      assert commands + Requests(batches, deadline) == commands + Requests(front, deadline) + Sent(last, deadline);
    }
  }

  lemma {:induction false} GoodSubmit(s: State, deadline: nat, settings: Settings)
    requires GoodCommands(s.commands, settings) && Sound(s, settings)
    ensures GoodCommands(AfterSubmit(s, deadline).commands, settings)
    ensures Sound(AfterSubmit(s, deadline), settings)
  {}

  lemma {:induction false} GoodSync(s: State, i: SyncInput, settings: Settings, est: Estimate)
    requires Monotone(est) && settings.capacity >= 1 && SyncValid(i) && GoodCommands(s.commands, settings)
    ensures GoodCommands(AfterSync(s, i, settings, est).commands, settings)
    ensures Sound(AfterSync(s, i, settings, est), settings)
  {
    SyncKeeps(s, i, settings, est);
    hide Increasing, SyncedBatches, SyncValid, GoodCommands, Requests, Sound;
    SyncedSound(i, settings, est);
    GoodRequests(s.commands, Proposed(SyncedBatches(i, settings, est), settings), i.deadline, settings);
    assert s.commands + [] == s.commands;
  }

  lemma {:induction false} GoodTick(s: State, t: Tick, settings: Settings, est: Estimate)
    requires Monotone(est) && settings.capacity >= 1 && Sound(s, settings) && GoodCommands(s.commands, settings)
    requires t.sync.Some? ==> SyncValid(t.sync.value)
    ensures GoodCommands(AfterTick(s, t, settings, est).commands, settings)
  {
    hide AfterSync, AfterSubmit, Batch.AgeLimit, SyncValid, Sound, GoodCommands;
    var limit := s.outstanding.AgeLimit(t.nextTs, s.l1Tip + 1);
    GoodSubmit(s, t.currentSlot + limit, settings);
    var a := if limit <= settings.anchorMaxHeightBuffer then AfterSubmit(s, t.currentSlot + limit) else s;
    var b := a.(status := t.status);
    SoundStatus(a, t.status, settings);
    if t.sync.Some? {
      GoodSync(a, t.sync.value, settings, est);
      b := AfterSync(a, t.sync.value, settings, est);
    }
    GoodSubmit(b, t.windowEnd, settings);
  }

  lemma {:induction false} SoundStatus(s: State, status: Handover.DriverStatus, settings: Settings)
    ensures Sound(s.(status := status), settings) <==> Sound(s, settings)
  {}

  lemma {:induction false} StepSubmitsGood(s: State, e: Event, settings: Settings, est: Estimate)
    requires Monotone(est) && settings.capacity >= 1 && Sound(s, settings) && Valid(s, e)
    requires GoodCommands(s.commands, settings)
    ensures GoodCommands(Step(s, e, settings, est).commands, settings)
  {
    hide AfterSync, AfterProduced, AfterTick, GapWithin, SyncValid, Increasing, Requests;
    match e
    case Produced(block, anchor, gap, deadline) =>
      var full := ProducedConserves(s, block, anchor, gap, deadline, settings, est);
      forall i | 0 <= i < |full| ensures Fits(full[i], settings) {
        assert Within(full[i], AfterProduced(s, block, anchor, gap, deadline, est).outstanding);
      }
      GoodRequests(s.commands, full, deadline, settings);
      assert s.commands + [] == s.commands;
    case L1Block(i) =>
    case L2Block(i) =>
    case Sync(i) => GoodSync(s, i, settings, est);
    case SlotTick(t) => GoodTick(s, t, settings, est);
    case EndOfSequencing(_) =>
  }

  /** In every run each batch submitted has blocks, in increasing order and within capacity. */
  lemma {:induction false} RunSubmitsGood(start: State, events: seq<Event>, settings: Settings, est: Estimate)
    requires Monotone(est) && settings.capacity >= 1 && Sound(start, settings) && GoodCommands(start.commands, settings)
    requires ValidRun(start, events, settings, est)
    ensures GoodCommands(Run(start, events, settings, est).commands, settings)
    decreases |events|
  {
    hide Sound, Step, Valid, GoodCommands;
    if events != [] {
      RunSubmitsGood(start, events[..|events| - 1], settings, est);
      RunKeepsSound(start, events[..|events| - 1], settings, est);
      StepSubmitsGood(Run(start, events[..|events| - 1], settings, est), events[|events| - 1], settings, est);
    }
  }

  // ---------- runs without a gap ----------

  lemma {:induction false} JoinConsecutive(kept: seq<Block>, add: seq<Block>)
    requires Consecutive(kept) && Consecutive(add) && add != []
    requires kept != [] ==> add[0].number == kept[0].number + |kept|
    ensures Consecutive(kept + add)
  {
    var all := kept + add;
    forall i | 0 <= i < |all| ensures all[i].number == all[0].number + i {
      if |kept| <= i {
        assert all[i] == add[i - |kept|];
      }
    }
  }

  lemma {:induction false} KeptMeetsAdded(s: State, block: Block, gap: Option<seq<AnchoredBlock>>)
    requires Increasing(s.outstanding) && Consecutive(s.outstanding.blocks) && GapFilled(s, block, gap)
    ensures var add := BlocksToAdd(s.outstanding, block, gap);
            && Consecutive(add)
            && Consecutive(BlocksBefore(s.outstanding.blocks, add[0].number) + add)
  {
    var blocks, add := s.outstanding.blocks, BlocksToAdd(s.outstanding, block, gap);
    var k := BeforeIsPrefix(blocks, add[0].number);
    var kept := blocks[..k];
    hide StrictlySortedBy, BlocksBefore;
    if HasGap(s.outstanding, block.number) {
      assert forall i :: 0 <= i < |gap.value| ==> add[i].number == gap.value[i].block.number;
    }
    if 0 < k {
      assert blocks[k - 1].number == blocks[0].number + k - 1 < add[0].number;
      if k < |blocks| {
        assert blocks[k].number == blocks[0].number + k;
      }
    }
    JoinConsecutive(kept, add);
  }

  lemma {:induction false} ProducedConsecutive(
    s: State, block: Block, anchor: Header, gap: Option<seq<AnchoredBlock>>, deadline: nat, settings: Settings, est: Estimate)
    requires settings.capacity >= 1 && Sound(s, settings) && Consecutive(s.outstanding.blocks) && GapFilled(s, block, gap)
    ensures Consecutive(AfterProduced(s, block, anchor, gap, deadline, est).outstanding.blocks)
  {
    hide Consecutive, AfterProduced, BlocksToAdd, BlocksBefore, GapFilled;
    FilledIsWithin(s, block, gap);
    KeptMeetsAdded(s, block, gap);
    var full := ProducedConserves(s, block, anchor, gap, deadline, settings, est);
    var last := AfterProduced(s, block, anchor, gap, deadline, est).outstanding.blocks;
    var all := Flatten(full) + last;
    PartKeeps(all, |Flatten(full)|, |all|);
    assert all[|Flatten(full)|..|all|] == last;
  }

  // Downloads return the missing range, and anchors do not decrease.
  ghost predicate Honest(s: State, e: Event) {
    match e
    case Produced(block, _, gap, _) => GapFilled(s, block, gap)
    case L1Block(_) => true
    case L2Block(_) => true
    case Sync(i) => SyncValid(i) && SyncOrdered(i)
    case SlotTick(t) => t.sync.Some? ==> SyncValid(t.sync.value) && SyncOrdered(t.sync.value)
    case EndOfSequencing(_) => true
  }

  ghost predicate HonestRun(start: State, events: seq<Event>, settings: Settings, est: Estimate)
    decreases |events|
  {
    events != [] ==>
      && HonestRun(start, events[..|events| - 1], settings, est)
      && Honest(Run(start, events[..|events| - 1], settings, est), events[|events| - 1])
  }

  lemma {:induction false} SyncConsecutive(s: State, i: SyncInput, settings: Settings, est: Estimate)
    requires Monotone(est) && settings.capacity >= 1 && SyncValid(i) && SyncOrdered(i)
    ensures Consecutive(AfterSync(s, i, settings, est).outstanding.blocks)
  {
    hide Consecutive, SyncedBatches, SyncValid, SyncOrdered;
    SyncedConsecutive(i, settings, est);
    NoneConsecutive();
  }

  lemma {:induction false} TickConsecutive(s: State, t: Tick, settings: Settings, est: Estimate)
    requires Monotone(est) && settings.capacity >= 1 && Consecutive(s.outstanding.blocks)
    requires t.sync.Some? ==> SyncValid(t.sync.value) && SyncOrdered(t.sync.value)
    ensures Consecutive(AfterTick(s, t, settings, est).outstanding.blocks)
  {
    var a := if s.outstanding.AgeLimit(t.nextTs, s.l1Tip + 1) <= settings.anchorMaxHeightBuffer
             then AfterSubmit(s, t.currentSlot + s.outstanding.AgeLimit(t.nextTs, s.l1Tip + 1)) else s;
    NoneConsecutive();
    if t.sync.Some? {
      SyncConsecutive(a, t.sync.value, settings, est);
    }
    hide AfterSync, Batch.AgeLimit, Consecutive, SyncValid, SyncOrdered;
  }

  lemma {:induction false} StepConsecutive(s: State, e: Event, settings: Settings, est: Estimate)
    requires Monotone(est) && settings.capacity >= 1 && Sound(s, settings) && Consecutive(s.outstanding.blocks)
    requires Honest(s, e)
    ensures Consecutive(Step(s, e, settings, est).outstanding.blocks) && Valid(s, e)
  {
    hide AfterSync, AfterProduced, AfterTick, GapWithin, GapFilled, SyncValid, SyncOrdered, Consecutive;
    match e
    case Produced(block, anchor, gap, deadline) =>
      FilledIsWithin(s, block, gap);
      ProducedConsecutive(s, block, anchor, gap, deadline, settings, est);
    case L1Block(i) => if i.origin.Some? { AfterKeeps(s.outstanding.blocks, i.origin.value); }
    case L2Block(i) => BeforeKeeps(s.outstanding.blocks, i.number);
    case Sync(i) => SyncConsecutive(s, i, settings, est);
    case SlotTick(t) => TickConsecutive(s, t, settings, est);
    case EndOfSequencing(_) =>
  }

  /** When downloads return what is missing, the outstanding batch never has a gap, in any run. */
  lemma {:induction false} RunKeepsConsecutive(start: State, events: seq<Event>, settings: Settings, est: Estimate)
    requires Monotone(est) && settings.capacity >= 1 && Sound(start, settings) && Consecutive(start.outstanding.blocks)
    requires HonestRun(start, events, settings, est)
    ensures Consecutive(Run(start, events, settings, est).outstanding.blocks)
    ensures Sound(Run(start, events, settings, est), settings)
    decreases |events|
  {
    hide Sound, Step, Valid, Honest, Consecutive;
    if events != [] {
      var s := Run(start, events[..|events| - 1], settings, est);
      RunKeepsConsecutive(start, events[..|events| - 1], settings, est);
      StepConsecutive(s, events[|events| - 1], settings, est);
      StepKeeps(s, events[|events| - 1], settings, est);
    }
  }
}
