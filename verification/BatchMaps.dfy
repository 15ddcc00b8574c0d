/**
 The map from anchor to batches that the pipeline starts from. A map ordered by key is a list of
 entries with increasing keys. Filling it is a stable sort of the blocks by anchor, cut into
 batches that fit.
 */
module BatchMaps {
  import opened Wrappers
  import opened Batches
  import opened AnchoredBlocks
  import opened BatchLists
  import opened Sorting

  datatype Entry = Entry(anchorId: nat, batches: seq<Batch>)

  type BatchMap = seq<Entry>

  function AllBatches(m: BatchMap): seq<Batch> {
    if m == [] then [] else AllBatches(m[..|m| - 1]) + m[|m| - 1].batches
  }

  function FirstNumber(b: Batch): nat {
    if b.blocks == [] then 0 else b.blocks[0].number
  }

  // The last batch of an anchor takes the block, or is closed and followed by a new one.
  function AddToBatches(batches: seq<Batch>, x: AnchoredBlock, est: Estimate): seq<Batch>
    requires batches != []
  {
    var front, current := batches[..|batches| - 1], batches[|batches| - 1];
    var (next, result) := current.AddBlock(x.block, x.anchor, est);
    match result
    case Added(_) => front + [next]
    case Full(_, full) => front + [full, next]
  }

  function NewBatch(x: AnchoredBlock, settings: Settings): Batch {
    BatchFromBlocks(x.anchor, settings.(defaultCoinbase := x.block.coinbase), [x.block])
  }

  function Put(m: BatchMap, x: AnchoredBlock, settings: Settings, est: Estimate): BatchMap {
    if m == [] || m[|m| - 1].anchorId < AnchorOf(x) then m + [Entry(AnchorOf(x), [NewBatch(x, settings)])]
    else
      var front, last := m[..|m| - 1], m[|m| - 1];
      if last.anchorId == AnchorOf(x) then
        front + [if last.batches == [] then last else last.(batches := AddToBatches(last.batches, x, est))]
      else Put(front, x, settings, est) + [last]
  }

  function MapOf(blocks: seq<AnchoredBlock>, settings: Settings, est: Estimate): BatchMap
    decreases |blocks|
  {
    if blocks == [] then []
    else Put(MapOf(blocks[..|blocks| - 1], settings, est), blocks[|blocks| - 1], settings, est)
  }

  // ---------- invariants of the map ----------

  // The batches of one anchor: never empty, blocks in increasing order, each batch proposable.
  ghost predicate GoodBatches(batches: seq<Batch>, anchor: nat, settings: Settings, est: Estimate, number: nat) {
    && batches != [] && AllGood(batches, anchor, settings, est)
    && StrictlySortedBy(Flatten(batches), BlockNumber) && NumbersBelow(Flatten(batches), number)
  }

  ghost predicate GoodEntry(e: Entry, settings: Settings, est: Estimate, number: nat) {
    GoodBatches(e.batches, e.anchorId, settings, est, number)
  }

  ghost predicate KeysIncrease(m: BatchMap) {
    forall i, j :: 0 <= i < j < |m| ==> m[i].anchorId < m[j].anchorId
  }

  ghost predicate GoodMap(m: BatchMap, settings: Settings, est: Estimate, number: nat) {
    KeysIncrease(m) && forall i :: 0 <= i < |m| ==> GoodEntry(m[i], settings, est, number)
  }

  lemma {:induction false} NewBatchGood(x: AnchoredBlock, settings: Settings, est: Estimate)
    requires settings.capacity >= 1
    ensures GoodBatches([NewBatch(x, settings)], AnchorOf(x), settings, est, x.block.number + 1)
    ensures AllPlaced([NewBatch(x, settings)]) == [Placed(x.block, AnchorOf(x))]
  {
    FlattenOne(NewBatch(x, settings));
  }

  lemma {:induction false} EndBelow(a: seq<Block>, b: seq<Block>, number: nat)
    requires NumbersBelow(a + b, number)
    ensures NumbersBelow(b, number)
  {
    forall i | 0 <= i < |b| ensures b[i].number < number {
      assert b[i] == (a + b)[|a| + i];
    }
  }

  // The current batch of an anchor, when every block so far comes before block `number`.
  lemma {:induction false} CurrentKept(batches: seq<Batch>, number: nat)
    requires batches != [] && NumbersBelow(Flatten(batches), number)
    ensures batches[|batches| - 1].Before(number) == batches[|batches| - 1]
  {
    hide Flatten, NumbersBelow;
    var front, last := batches[..|batches| - 1], batches[|batches| - 1];
    assert batches == front + [last];
    FlattenSnoc(front, last);
    EndBelow(Flatten(front), last.blocks, number);
    BlocksBeforeAll(last.blocks, number);
  }

  lemma {:induction false} AddedProposable(current: Batch, block: Block, settings: Settings, est: Estimate)
    requires Proposable(current, settings, est) && SameLimits(current, settings)
    requires current.DoesntFit(block.txs, est).None?
    ensures Proposable(current.(blocks := current.blocks + [block]), settings, est)
  {
    var grown := current.blocks + [block];
    assert grown[..|grown| - 1] == current.blocks;
  }

  /** Adding a block appends it to the blocks of its anchor and keeps every batch proposable. */
  lemma {:induction false} AddToBatchesGood(batches: seq<Batch>, x: AnchoredBlock, settings: Settings, est: Estimate)
    requires settings.capacity >= 1
    requires GoodBatches(batches, AnchorOf(x), settings, est, x.block.number)
    ensures var r := AddToBatches(batches, x, est);
            && GoodBatches(r, AnchorOf(x), settings, est, x.block.number + 1)
            && AllPlaced(r) == AllPlaced(batches) + [Placed(x.block, AnchorOf(x))]
  {
    hide Flatten, AllPlaced, StrictlySortedBy, NumbersBelow, AllGood, BlocksBefore, RawSize, TxsSize;
    var front, current := batches[..|batches| - 1], batches[|batches| - 1];
    assert batches == front + [current];
    AllGoodSnoc(front, current, AnchorOf(x), settings, est);
    CurrentKept(batches, x.block.number);
    StrictSnoc(Flatten(batches), x.block);
    var (next, result) := current.AddBlock(x.block, x.anchor, est);
    if result.Added? {
      AddedProposable(current, x.block, settings, est);
      FlattenGrown(front, current, next, x.block);
      AllGoodSnoc(front, next, AnchorOf(x), settings, est);
    } else {
      FlattenSnoc(batches, next);
      assert front + [current, next] == batches + [next];
      assert PlacedIn(next) == [Placed(x.block, AnchorOf(x))];
      AllGoodSnoc(batches, next, AnchorOf(x), settings, est);
    }
  }

  // ---------- filling the map sorts the blocks by anchor ----------

  function MapPlaced(m: BatchMap): seq<Placed> {
    AllPlaced(AllBatches(m))
  }

  lemma {:induction false} MapPlacedSnoc(m: BatchMap, e: Entry)
    ensures AllBatches(m + [e]) == AllBatches(m) + e.batches
    ensures MapPlaced(m + [e]) == MapPlaced(m) + AllPlaced(e.batches)
  {
    assert (m + [e])[..|m|] == m;
    FlattenConcat(AllBatches(m), e.batches);
  }

  lemma {:induction false} EntryPlaced(batches: seq<Batch>, anchor: nat, settings: Settings, est: Estimate)
    requires AllGood(batches, anchor, settings, est)
    ensures forall i :: 0 <= i < |AllPlaced(batches)| ==> AnchorKey(AllPlaced(batches)[i]) == anchor
    ensures batches != [] ==> AllPlaced(batches) != []
    decreases |batches|
  {
    if batches != [] {
      var front, last := batches[..|batches| - 1], batches[|batches| - 1];
      assert GoodBatch(last, anchor, settings, est);
      EntryPlaced(front, anchor, settings, est);
    }
  }

  lemma {:induction false} GoodLater(e: Entry, settings: Settings, est: Estimate, number: nat)
    requires GoodEntry(e, settings, est, number)
    ensures GoodEntry(e, settings, est, number + 1)
  {
    hide AllGood, Flatten, StrictlySortedBy;
  }

  ghost predicate KeysBelow(m: BatchMap, key: nat) {
    forall i :: 0 <= i < |m| ==> m[i].anchorId < key
  }

  lemma {:induction false} GoodMapSnoc(m: BatchMap, e: Entry, settings: Settings, est: Estimate, number: nat)
    ensures GoodMap(m + [e], settings, est, number) <==>
            (GoodMap(m, settings, est, number) && GoodEntry(e, settings, est, number) && KeysBelow(m, e.anchorId))
  {
    hide GoodEntry;
    var all := m + [e];
    assert all[|m|] == e && forall i :: 0 <= i < |m| ==> all[i] == m[i];
  }

  lemma {:induction false} GoodMapLater(m: BatchMap, settings: Settings, est: Estimate, number: nat)
    requires GoodMap(m, settings, est, number)
    ensures GoodMap(m, settings, est, number + 1)
  {
    hide GoodEntry;
    forall i | 0 <= i < |m| ensures GoodEntry(m[i], settings, est, number + 1) {
      GoodLater(m[i], settings, est, number);
    }
  }

  lemma {:induction false} PutKeysBelow(m: BatchMap, x: AnchoredBlock, settings: Settings, est: Estimate, key: nat)
    requires KeysBelow(m, key) && AnchorOf(x) < key
    ensures KeysBelow(Put(m, x, settings, est), key)
    decreases |m|
  {
    hide AddToBatches;
    if m != [] && m[|m| - 1].anchorId > AnchorOf(x) {
      PutKeysBelow(m[..|m| - 1], x, settings, est, key);
    }
  }

  /** One step: the block goes after all blocks whose anchor is not higher. */
  lemma {:induction false} PutInserts(m: BatchMap, x: AnchoredBlock, settings: Settings, est: Estimate)
    requires settings.capacity >= 1 && GoodMap(m, settings, est, x.block.number)
    ensures GoodMap(Put(m, x, settings, est), settings, est, x.block.number + 1)
    ensures MapPlaced(Put(m, x, settings, est)) ==
            InsertBy(MapPlaced(m), Placed(x.block, AnchorOf(x)), AnchorKey)
    decreases |m|
  {
    hide AddToBatches, AllPlaced, AllBatches, GoodMap, AllGood, Flatten, StrictlySortedBy, NumbersBelow;
    var p, number := Placed(x.block, AnchorOf(x)), x.block.number;
    GoodMapLater(m, settings, est, number);
    if m == [] {
      NewBatchGood(x, settings, est);
      MapPlacedSnoc(m, Entry(AnchorOf(x), [NewBatch(x, settings)]));
      GoodMapSnoc(m, Entry(AnchorOf(x), [NewBatch(x, settings)]), settings, est, number + 1);
      EmptyMap(settings, est, number);
    } else {
      var front, last := m[..|m| - 1], m[|m| - 1];
      assert m == front + [last];
      MapPlacedSnoc(front, last);
      GoodMapSnoc(front, last, settings, est, number);
      GoodMapSnoc(front, last, settings, est, number + 1);
      EntryPlaced(last.batches, last.anchorId, settings, est);
      if last.anchorId < AnchorOf(x) {
        NewBatchGood(x, settings, est);
        var e := Entry(AnchorOf(x), [NewBatch(x, settings)]);
        MapPlacedSnoc(m, e);
        GoodMapSnoc(m, e, settings, est, number + 1);
      } else if last.anchorId == AnchorOf(x) {
        AddToBatchesGood(last.batches, x, settings, est);
        var e := last.(batches := AddToBatches(last.batches, x, est));
        MapPlacedSnoc(front, e);
        GoodMapSnoc(front, e, settings, est, number + 1);
      } else {
        PutInserts(front, x, settings, est);
        PutKeysBelow(front, x, settings, est, last.anchorId);
        MapPlacedSnoc(Put(front, x, settings, est), last);
        GoodMapSnoc(Put(front, x, settings, est), last, settings, est, number + 1);
        InsertBefore(MapPlaced(front), AllPlaced(last.batches), p, AnchorKey);
      }
    }
  }

  lemma {:induction false} EmptyMap(settings: Settings, est: Estimate, number: nat)
    ensures MapPlaced([]) == [] && GoodMap([], settings, est, number)
  {}

  /**
   The map holds exactly the given blocks, sorted stably by anchor, in batches that are each
   proposable; nothing is lost, repeated or moved between anchors.
   */
  lemma {:induction false} MapOfSortsByAnchor(blocks: seq<AnchoredBlock>, settings: Settings, est: Estimate, number: nat)
    requires settings.capacity >= 1 && ConsecutiveAnchored(blocks)
    requires blocks != [] ==> number == blocks[0].block.number + |blocks|
    ensures GoodMap(MapOf(blocks, settings, est), settings, est, number)
    ensures MapPlaced(MapOf(blocks, settings, est)) == SortBy(PlacedOf(blocks), AnchorKey)
    decreases |blocks|
  {
    hide Put, InsertBy, GoodMap, MapPlaced, ConsecutiveAnchored;
    if blocks == [] {
      EmptyMap(settings, est, number);
    } else {
      var front, x := blocks[..|blocks| - 1], blocks[|blocks| - 1];
      FrontConsecutive(blocks);
      MapOfSortsByAnchor(front, settings, est, x.block.number);
      PutInserts(MapOf(front, settings, est), x, settings, est);
      SortPlacedSnoc(front, x);
      assert blocks == front + [x];
    }
  }

  lemma {:induction false} SortPlacedSnoc(front: seq<AnchoredBlock>, x: AnchoredBlock)
    ensures SortBy(PlacedOf(front + [x]), AnchorKey) ==
            InsertBy(SortBy(PlacedOf(front), AnchorKey), Placed(x.block, AnchorOf(x)), AnchorKey)
  {
    var placed := PlacedOf(front + [x]);
    assert placed[..|placed| - 1] == PlacedOf(front);
  }

  lemma {:induction false} FrontConsecutive(blocks: seq<AnchoredBlock>)
    requires blocks != [] && ConsecutiveAnchored(blocks)
    ensures ConsecutiveAnchored(blocks[..|blocks| - 1])
    ensures blocks[|blocks| - 1].block.number == blocks[0].block.number + |blocks| - 1
  {}

  // ---------- the program that fills the map ----------

  // Looking up a key, and inserting a new one in order.
  function IndexOf(m: BatchMap, key: nat): Option<nat>
    ensures IndexOf(m, key).Some? ==> IndexOf(m, key).value < |m| && m[IndexOf(m, key).value].anchorId == key
  {
    if m == [] then None
    else if m[|m| - 1].anchorId == key then Some(|m| - 1)
    else IndexOf(m[..|m| - 1], key)
  }

  function InsertEntry(m: BatchMap, e: Entry): BatchMap {
    if m == [] || m[|m| - 1].anchorId < e.anchorId then m + [e]
    else InsertEntry(m[..|m| - 1], e) + [m[|m| - 1]]
  }

  lemma {:induction false} PutByLookup(m: BatchMap, x: AnchoredBlock, settings: Settings, est: Estimate)
    requires KeysIncrease(m) && forall i :: 0 <= i < |m| ==> m[i].batches != []
    ensures Put(m, x, settings, est) ==
            match IndexOf(m, AnchorOf(x))
            case Some(i) => m[i := m[i].(batches := AddToBatches(m[i].batches, x, est))]
            case None => InsertEntry(m, Entry(AnchorOf(x), [NewBatch(x, settings)]))
    decreases |m|
  {
    hide AddToBatches;
    if m != [] {
      var front, last := m[..|m| - 1], m[|m| - 1];
      PutByLookup(front, x, settings, est);
      if last.anchorId < AnchorOf(x) {
        AbsentAbove(front, AnchorOf(x));
      }
    }
  }

  lemma {:induction false} AbsentAbove(m: BatchMap, key: nat)
    requires KeysBelow(m, key)
    ensures IndexOf(m, key).None?
    decreases |m|
  {
    if m != [] {
      AbsentAbove(m[..|m| - 1], key);
    }
  }

  lemma {:induction false} HeadInFlatten(batches: seq<Batch>, i: nat) returns (k: nat)
    requires i < |batches| && batches[i].blocks != []
    ensures k < |Flatten(batches)| && Flatten(batches)[k] == batches[i].blocks[0]
    decreases |batches|
  {
    var front := batches[..|batches| - 1];
    if i == |front| {
      k := |Flatten(front)|;
    } else {
      k := HeadInFlatten(front, i);
    }
  }

  /** The batches of one anchor are already in the order the program sorts them into. */
  lemma {:induction false} BatchesAlreadySorted(batches: seq<Batch>)
    requires NoneEmpty(batches) && StrictlySortedBy(Flatten(batches), BlockNumber)
    ensures SortedBy(batches, FirstNumber)
    decreases |batches|
  {
    if batches != [] {
      var front, last := batches[..|batches| - 1], batches[|batches| - 1];
      assert Flatten(front) == Flatten(batches)[..|Flatten(front)|];
      BatchesAlreadySorted(front);
      forall i | 0 <= i < |front| ensures FirstNumber(front[i]) <= FirstNumber(last) {
        var k := HeadInFlatten(front, i);
        assert Flatten(batches)[k] == front[i].blocks[0];
        assert Flatten(batches)[|Flatten(front)|] == last.blocks[0];
        assert BlockNumber(Flatten(batches)[k]) < BlockNumber(Flatten(batches)[|Flatten(front)|]);
      }
    }
  }

  lemma {:induction false} EntrySorted(e: Entry, settings: Settings, est: Estimate, number: nat)
    requires GoodEntry(e, settings, est, number)
    ensures SortBy(e.batches, FirstNumber) == e.batches
  {
    assert NoneEmpty(e.batches) by {
      forall i | 0 <= i < |e.batches| ensures e.batches[i].blocks != [] {
        assert GoodBatch(e.batches[i], e.anchorId, settings, est);
      }
    }
    BatchesAlreadySorted(e.batches);
    SortOfSorted(e.batches, FirstNumber);
  }

  /** Adds one block to the map, looking its anchor up and updating the last batch in place. */
  method AddBlock(m: BatchMap, x: AnchoredBlock, settings: Settings, est: Estimate) returns (r: BatchMap)
    requires KeysIncrease(m) && forall i :: 0 <= i < |m| ==> m[i].batches != []
    ensures r == Put(m, x, settings, est)
  {
    PutByLookup(m, x, settings, est);
    var found := IndexOf(m, x.anchor.number);
    if found.None? {
      return InsertEntry(m, Entry(x.anchor.number, [NewBatch(x, settings)]));
    }
    var i := found.value;
    var batches := m[i].batches;
    var currentBatch := new MutableBatch(batches[|batches| - 1]);
    batches := batches[..|batches| - 1];
    var result := currentBatch.AddBlockAndResetIfFull(x.block, x.anchor, est);
    if result.Added? {
      batches := batches + [currentBatch.Value()];
    } else {
      batches := batches + [result.batch];
      batches := batches + [currentBatch.Value()];
      assert batches == m[i].batches[..|m[i].batches| - 1] + [result.batch, currentBatch.Value()];
    }
    r := m[i := m[i].(batches := batches)];
  }

  /** Groups contiguous blocks by anchor, and sorts the batches of every anchor. */
  method NewBatchMap(blocks: seq<AnchoredBlock>, settings: Settings, est: Estimate) returns (m: BatchMap)
    requires settings.capacity >= 1 && ConsecutiveAnchored(blocks)
    ensures m == MapOf(blocks, settings, est)
  {
    hide Put;
    m := [];
    if blocks == [] {
      return;
    }
    var i := 0;
    while i < |blocks|
      invariant 0 <= i <= |blocks|
      invariant m == MapOf(blocks[..i], settings, est)
    {
      assert blocks[..i + 1][..i] == blocks[..i];
      MapOfSortsByAnchor(blocks[..i], settings, est, blocks[i].block.number);
      EntriesNotEmpty(m, settings, est, blocks[i].block.number);
      m := AddBlock(m, blocks[i], settings, est);
      i := i + 1;
    }
    assert blocks[..i] == blocks;
    ghost var number := blocks[0].block.number + |blocks|;
    MapOfSortsByAnchor(blocks, settings, est, number);
    var k := 0;
    while k < |m|
      invariant 0 <= k <= |m| && m == MapOf(blocks, settings, est)
    {
      EntrySorted(m[k], settings, est, number);
      m := m[k := m[k].(batches := SortBy(m[k].batches, FirstNumber))];
      k := k + 1;
    }
  }

  lemma {:induction false} EntriesNotEmpty(m: BatchMap, settings: Settings, est: Estimate, number: nat)
    requires GoodMap(m, settings, est, number)
    ensures KeysIncrease(m) && forall i :: 0 <= i < |m| ==> m[i].batches != []
  {
    forall i | 0 <= i < |m| ensures m[i].batches != [] {
      assert GoodEntry(m[i], settings, est, number);
    }
  }
}
