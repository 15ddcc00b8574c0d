/** Posting a batch: the block parameters that go on chain for it, and what they determine. */
module Poster {
  import opened Wrappers
  import opened Batches

  // ---------- block parameters ----------

  datatype BlockParams = BlockParams(numTransactions: nat, timeShift: nat)

  // What goes on chain, besides fixed fields: the blob carries the transactions.
  datatype BatchParams = BatchParams(lastBlockTimestamp: nat, blocks: seq<BlockParams>, txs: seq<Tx>)

  // A block as far as the chain can tell: its timestamp and its transactions.
  datatype BlockContent = BlockContent(timestamp: nat, txs: seq<Tx>)

  function Contents(blocks: seq<Block>): (r: seq<BlockContent>)
    ensures |r| == |blocks|
  {
    seq(|blocks|, i requires 0 <= i < |blocks| => BlockContent(blocks[i].timestamp, blocks[i].txs))
  }

  // A time difference as a byte, capped at 255. The program subtracts two u64: a difference that
  // is negative wraps to a huge number and is capped as well.
  function TimeShift(difference: int): nat {
    if 0 <= difference <= 0xff then difference else 0xff
  }

  // The parameters of one block; the count is a u16.
  function ParamsOfBlock(previousTimestamp: nat, b: Block): BlockParams {
    BlockParams(|b.txs| % 0x10000, TimeShift(b.timestamp - previousTimestamp))
  }

  function ParamsOf(previousTimestamp: nat, blocks: seq<Block>): (r: seq<BlockParams>)
    ensures |r| == |blocks|
    decreases |blocks|
  {
    if blocks == [] then []
    else [ParamsOfBlock(previousTimestamp, blocks[0])] + ParamsOf(blocks[0].timestamp, blocks[1..])
  }

  function TxsOf(blocks: seq<Block>): seq<Tx>
    decreases |blocks|
  {
    if blocks == [] then [] else blocks[0].txs + TxsOf(blocks[1..])
  }

  function LastTimestamp(previousTimestamp: nat, blocks: seq<Block>): nat {
    if blocks == [] then previousTimestamp else blocks[|blocks| - 1].timestamp
  }

  lemma {:induction false} ParamsSnoc(previousTimestamp: nat, blocks: seq<Block>, b: Block)
    ensures ParamsOf(previousTimestamp, blocks + [b]) ==
            ParamsOf(previousTimestamp, blocks) + [ParamsOfBlock(LastTimestamp(previousTimestamp, blocks), b)]
    ensures TxsOf(blocks + [b]) == TxsOf(blocks) + b.txs
    decreases |blocks|
  {
    if blocks == [] {
      assert [] + [b] == [b] && [b][1..] == [];
    } else {
      assert (blocks + [b])[1..] == blocks[1..] + [b];
      ParamsSnoc(blocks[0].timestamp, blocks[1..], b);
    }
  }

  // The parameters that go on chain for a batch.
  function ChainParams(blocks: seq<Block>): BatchParams
    requires blocks != []
  {
    BatchParams(blocks[|blocks| - 1].timestamp, ParamsOf(blocks[0].timestamp, blocks), TxsOf(blocks))
  }

  /** Builds the parameters of a batch; like the program, it needs at least one block. */
  method GenerateBatch(blocks: seq<Block>) returns (params: BatchParams)
    requires blocks != []
    ensures params == ChainParams(blocks)
  {
    var first, last := blocks[0].timestamp, blocks[|blocks| - 1].timestamp;
    var batchTxs, blocksParams := [], [];
    var previousTimestamp, i := first, 0;
    while i < |blocks|
      invariant 0 <= i <= |blocks|
      invariant previousTimestamp == LastTimestamp(first, blocks[..i])
      invariant blocksParams == ParamsOf(first, blocks[..i])
      invariant batchTxs == TxsOf(blocks[..i])
    {
      ParamsSnoc(first, blocks[..i], blocks[i]);
      assert blocks[..i] + [blocks[i]] == blocks[..i + 1];
      var timeShift := TimeShift(blocks[i].timestamp - previousTimestamp);
      blocksParams := blocksParams + [BlockParams(|blocks[i].txs| % 0x10000, timeShift)];
      previousTimestamp := blocks[i].timestamp;
      batchTxs := batchTxs + blocks[i].txs;
      i := i + 1;
    }
    assert blocks[..i] == blocks;
    params := BatchParams(last, blocksParams, batchTxs);
  }

  // ---------- reading the parameters back ----------

  function TotalShift(params: seq<BlockParams>): nat {
    if params == [] then 0 else params[0].timeShift + TotalShift(params[1..])
  }

  // Rebuilds the blocks front to back: a running timestamp, and the next transactions by count.
  function Rebuilt(timestamp: int, params: seq<BlockParams>, txs: seq<Tx>): Option<seq<BlockContent>>
    decreases |params|
  {
    if params == [] then (if txs == [] then Some([]) else None)
    else
      var ts, n := timestamp + params[0].timeShift, params[0].numTransactions;
      if ts < 0 || n > |txs| then None
      else
        match Rebuilt(ts, params[1..], txs[n..])
        case None => None
        case Some(rest) => Some([BlockContent(ts, txs[..n])] + rest)
  }

  /**
   What a reader of the chain makes of the parameters: the first timestamp is the last one less
   all time shifts, and each block takes its number of transactions in turn.
   */
  function Reconstruct(p: BatchParams): Option<seq<BlockContent>> {
    Rebuilt(p.lastBlockTimestamp - TotalShift(p.blocks), p.blocks, p.txs)
  }

  // What a caller can check before proposing: no time shift is capped, no count is truncated.
  predicate ShiftsFit(previousTimestamp: nat, blocks: seq<Block>)
    decreases |blocks|
  {
    blocks == [] ||
    (0 <= blocks[0].timestamp - previousTimestamp <= 0xff && ShiftsFit(blocks[0].timestamp, blocks[1..]))
  }

  predicate CountsFit(blocks: seq<Block>) {
    forall i :: 0 <= i < |blocks| ==> |blocks[i].txs| < 0x10000
  }

  lemma {:induction false} ShiftsAddUp(previousTimestamp: nat, blocks: seq<Block>)
    requires ShiftsFit(previousTimestamp, blocks)
    ensures previousTimestamp + TotalShift(ParamsOf(previousTimestamp, blocks)) ==
            LastTimestamp(previousTimestamp, blocks)
    decreases |blocks|
  {
    if blocks != [] {
      ShiftsAddUp(blocks[0].timestamp, blocks[1..]);
      assert ParamsOf(previousTimestamp, blocks)[1..] == ParamsOf(blocks[0].timestamp, blocks[1..]);
    }
  }

  // The first block takes its transactions, and the rest is rebuilt from what is left.
  lemma {:induction false} ContentsCons(blocks: seq<Block>)
    requires blocks != []
    ensures Contents(blocks) == [BlockContent(blocks[0].timestamp, blocks[0].txs)] + Contents(blocks[1..])
    ensures Contents(blocks)[1..] == Contents(blocks[1..])
    ensures TxsOf(blocks)[..|blocks[0].txs|] == blocks[0].txs
    ensures TxsOf(blocks)[|blocks[0].txs|..] == TxsOf(blocks[1..])
    ensures CountsFit(blocks) <==> |blocks[0].txs| < 0x10000 && CountsFit(blocks[1..])
  {}

  // Rebuilding goes right for all blocks if it does for the first and then for the rest.
  lemma {:induction false} RebuiltFirst(ts: int, n: nat, p: BlockParams, rest: seq<BlockParams>, txs: seq<Tx>,
                                        content: BlockContent, contents: seq<BlockContent>)
    requires p.numTransactions == n
    ensures Rebuilt(ts, [p] + rest, txs) == Some([content] + contents) <==>
            var t := ts + p.timeShift;
            && 0 <= t == content.timestamp && n <= |txs| && txs[..n] == content.txs
            && Rebuilt(t, rest, txs[n..]) == Some(contents)
  {
    assert ([p] + rest)[1..] == rest;
    assert ([content] + contents)[0] == content && ([content] + contents)[1..] == contents;
  }

  lemma {:induction false} RebuiltIff(previousTimestamp: nat, blocks: seq<Block>)
    ensures Rebuilt(previousTimestamp, ParamsOf(previousTimestamp, blocks), TxsOf(blocks)) == Some(Contents(blocks))
            <==> (ShiftsFit(previousTimestamp, blocks) && CountsFit(blocks))
    decreases |blocks|
  {
    if blocks != [] {
      var b, rest := blocks[0], blocks[1..];
      var p := ParamsOfBlock(previousTimestamp, b);
      RebuiltIff(b.timestamp, rest);
      ContentsCons(blocks);
      hide Contents, TxsOf, CountsFit;
      RebuiltFirst(previousTimestamp, p.numTransactions, p, ParamsOf(b.timestamp, rest), TxsOf(blocks),
                   BlockContent(b.timestamp, b.txs), Contents(rest));
      hide Rebuilt;
    }
  }

  /**
   The parameters of any batch determine every block's timestamp and transactions if and only if
   consecutive timestamps are 0 to 255 seconds apart and every transaction list is shorter than
   65536.
   */
  lemma {:induction false} BatchParamsRoundTripIff(blocks: seq<Block>)
    requires blocks != []
    ensures Reconstruct(ChainParams(blocks)) == Some(Contents(blocks))
            <==> (ShiftsFit(blocks[0].timestamp, blocks) && CountsFit(blocks))
  {
    var first, p := blocks[0].timestamp, ChainParams(blocks);
    var start := p.lastBlockTimestamp - TotalShift(p.blocks);
    RebuiltIff(first, blocks);
    if ShiftsFit(first, blocks) {
      ShiftsAddUp(first, blocks);
    }
    if Reconstruct(p) == Some(Contents(blocks)) {
      assert p.blocks[0].timeShift == 0;
      assert Contents(blocks)[0].timestamp == start;
    }
  }
}
