/**
 Re-anchoring: when the oldest anchor is too old, all blocks are taken out of their batches and
 packed again, in order, on the safe anchor. Packing is greedy; Packing.dfy
 proves that no order-preserving way to form proposable batches needs fewer.
 */
module Reanchoring {
  import opened Batches
  import opened BatchLists
  import opened BatchMaps
  import opened Sorting

  datatype ReorgReason =
    | Reanchor(expiredAnchor: nat, newAnchor: nat)
    | Retimestamp(minTs: nat, maxTs: nat)

  // The batches that filling up from `cursor` produces, the last one included.
  function Packed(cursor: Batch, blocks: seq<Block>, newAnchor: Header, est: Estimate): (r: seq<Batch>)
    ensures r != []
    decreases |blocks|
  {
    if blocks == [] then [cursor]
    else
      var (next, result) := cursor.AddBlock(blocks[0], newAnchor, est);
      match result
      case Added(_) => Packed(next, blocks[1..], newAnchor, est)
      case Full(_, full) => [full] + Packed(next, blocks[1..], newAnchor, est)
  }

  predicate ShouldReanchor(m: BatchMap, minProposableAnchor: nat) {
    m != [] && m[0].batches != [] && m[0].batches[0].anchor.number < minProposableAnchor
  }

  function SortedBlocks(m: BatchMap): seq<Block> {
    SortBy(Flatten(AllBatches(m)), BlockNumber)
  }

  function Reanchored(m: BatchMap, minProposableAnchor: nat, safe: Header, settings: Settings, est: Estimate): BatchMap {
    if !ShouldReanchor(m, minProposableAnchor) then m
    else [Entry(safe.number, Packed(EmptyBatch(safe, settings), SortedBlocks(m), safe, est))]
  }

  /** Fills up a batch with blocks, one after the other. */
  method Pack(start: Batch, blocks: seq<Block>, newAnchor: Header, est: Estimate) returns (r: seq<Batch>)
    ensures r == Packed(start, blocks, newAnchor, est)
  {
    hide Batch.AddBlock;
    var full := [];
    var cursor := new MutableBatch(start);
    var i := 0;
    while i < |blocks|
      invariant 0 <= i <= |blocks| && fresh(cursor)
      invariant full + Packed(cursor.Value(), blocks[i..], newAnchor, est) == Packed(start, blocks, newAnchor, est)
    {
      assert blocks[i..][0] == blocks[i] && blocks[i..][1..] == blocks[i + 1..];
      var result := cursor.AddBlockAndResetIfFull(blocks[i], newAnchor, est);
      i := i + 1;
      if result.Full? {
        ConcatAssoc(full, [result.batch], Packed(cursor.Value(), blocks[i..], newAnchor, est));
        full := full + [result.batch];
      }
    }
    r := full + [cursor.Value()];
  }

  method ReanchorMap(m: BatchMap, minProposableAnchor: nat, safe: Header, settings: Settings, est: Estimate)
    returns (r: BatchMap, reasons: seq<ReorgReason>)
    ensures r == Reanchored(m, minProposableAnchor, safe, settings, est)
    ensures reasons == if ShouldReanchor(m, minProposableAnchor) then [Reanchor(m[0].anchorId, safe.number)] else []
  {
    if !ShouldReanchor(m, minProposableAnchor) {
      return m, [];
    }
    var packed := Pack(EmptyBatch(safe, settings), SortedBlocks(m), safe, est);
    return [Entry(safe.number, packed)], [Reanchor(m[0].anchorId, safe.number)];
  }

  // ---------- packing keeps the blocks and makes proposable batches ----------

  // All batches are like `b` in everything but their blocks.
  ghost predicate Alike(batches: seq<Batch>, b: Batch) {
    forall i :: 0 <= i < |batches| ==>
      batches[i].anchor == b.anchor && batches[i].settings == b.settings && batches[i].coinbase == b.coinbase
  }

  ghost predicate AllProposable(batches: seq<Batch>, settings: Settings, est: Estimate) {
    forall i :: 0 <= i < |batches| ==> Proposable(batches[i], settings, est)
  }

  // What the blocks already taken and the blocks to come have to look like.
  ghost predicate InOrder(taken: seq<Block>, blocks: seq<Block>) {
    StrictlySortedBy(taken + blocks, BlockNumber)
  }

  lemma {:induction false} TakenKept(cursor: Batch, blocks: seq<Block>)
    requires blocks != [] && InOrder(cursor.blocks, blocks)
    ensures cursor.Before(blocks[0].number) == cursor
    ensures InOrder(cursor.blocks + [blocks[0]], blocks[1..]) && InOrder([blocks[0]], blocks[1..])
  {
    var all := cursor.blocks + blocks;
    assert all[|cursor.blocks|] == blocks[0];
    forall i | 0 <= i < |cursor.blocks| ensures cursor.blocks[i].number < blocks[0].number {
      assert BlockNumber(all[i]) < BlockNumber(all[|cursor.blocks|]);
    }
    BlocksBeforeAll(cursor.blocks, blocks[0].number);
    assert cursor.blocks + [blocks[0]] + blocks[1..] == all;
    assert [blocks[0]] + blocks[1..] == all[|cursor.blocks|..];
  }

  lemma {:induction false} ProposableFits(b: Batch, est: Estimate)
    requires Proposable(b, b.settings, est)
    ensures |b.blocks| <= b.settings.capacity
  {}

  // Adding one block, when it comes after all blocks of the cursor.
  lemma {:induction false} AddOne(cursor: Batch, blocks: seq<Block>, newAnchor: Header, est: Estimate)
    requires blocks != [] && InOrder(cursor.blocks, blocks)
    requires 1 <= cursor.settings.capacity && |cursor.blocks| <= cursor.settings.capacity
    ensures var (next, result) := cursor.AddBlock(blocks[0], newAnchor, est);
            && next.settings == cursor.settings && next.coinbase == cursor.coinbase
            && |next.blocks| <= cursor.settings.capacity && InOrder(next.blocks, blocks[1..])
            && (result.Added? ==> next.blocks == cursor.blocks + [blocks[0]] && next.anchor == cursor.anchor)
            && (result.Full? ==> result.batch == cursor && next.blocks == [blocks[0]] && next.anchor == newAnchor)
            && (result.Full? <==> cursor.DoesntFit(blocks[0].txs, est).Some?)
            && (Proposable(cursor, cursor.settings, est) ==> Proposable(next, cursor.settings, est))
  {
    hide InOrder;
    TakenKept(cursor, blocks);
    if cursor.DoesntFit(blocks[0].txs, est).None? && Proposable(cursor, cursor.settings, est) {
      AddedProposable(cursor, blocks[0], cursor.settings, est);
    }
  }

  lemma {:induction false} ConsLists(x: Batch, rest: seq<Batch>, b: Batch, settings: Settings, est: Estimate)
    requires x.anchor == b.anchor && x.settings == b.settings && x.coinbase == b.coinbase
    requires Proposable(x, settings, est) && Alike(rest, b) && AllProposable(rest, settings, est)
    ensures Alike([x] + rest, b) && AllProposable([x] + rest, settings, est)
    ensures Flatten([x] + rest) == x.blocks + Flatten(rest)
  {
    FlattenOne(x);
    FlattenConcat([x], rest);
  }

  lemma {:induction false} PackedLaws(cursor: Batch, blocks: seq<Block>, newAnchor: Header, est: Estimate)
    requires InOrder(cursor.blocks, blocks) && cursor.settings.capacity >= 1
    requires cursor.anchor == newAnchor && Proposable(cursor, cursor.settings, est)
    ensures var r := Packed(cursor, blocks, newAnchor, est);
            && Flatten(r) == cursor.blocks + blocks
            && Alike(r, cursor) && AllProposable(r, cursor.settings, est)
    decreases |blocks|
  {
    hide InOrder, Flatten, Batch.AddBlock, Alike, AllProposable, Proposable;
    if blocks == [] {
      OnlyCursor(cursor, est);
    } else {
      ProposableFits(cursor, est);
      AddOne(cursor, blocks, newAnchor, est);
      var (next, result) := cursor.AddBlock(blocks[0], newAnchor, est);
      var rest := Packed(next, blocks[1..], newAnchor, est);
      PackedLaws(next, blocks[1..], newAnchor, est);
      AlikeTransfers(rest, next, cursor);
      assert blocks == [blocks[0]] + blocks[1..];
      if result.Added? {
        assert cursor.blocks + [blocks[0]] + blocks[1..] == cursor.blocks + blocks;
      } else {
        ConsLists(cursor, rest, cursor, cursor.settings, est);
      }
    }
  }

  lemma {:induction false} OnlyCursor(cursor: Batch, est: Estimate)
    requires Proposable(cursor, cursor.settings, est)
    ensures Flatten([cursor]) == cursor.blocks + []
    ensures Alike([cursor], cursor) && AllProposable([cursor], cursor.settings, est)
  {
    FlattenOne(cursor);
  }

  lemma {:induction false} AlikeTransfers(batches: seq<Batch>, a: Batch, b: Batch)
    requires Alike(batches, a)
    requires a.anchor == b.anchor && a.settings == b.settings && a.coinbase == b.coinbase
    ensures Alike(batches, b)
  {}
}
