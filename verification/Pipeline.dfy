/**
 The whole batching pipeline: group by anchor, split by coinbase, re-anchor if needed, reset
 timestamps if needed, flatten. What it keeps and establishes is in PipelineResults.dfy and
 PipelineOrder.dfy.
 */
module Pipeline {
  import opened Wrappers
  import opened Batches
  import opened AnchoredBlocks
  import opened BatchMaps
  import opened Coinbases
  import opened Reanchoring

  // ---------- resetting timestamps ----------

  predicate OutOfRange(b: Block, minTs: nat, maxTs: nat) {
    b.timestamp < minTs || b.timestamp > maxTs
  }

  predicate AnyOutOfRange(blocks: seq<Block>, minTs: nat, maxTs: nat) {
    exists i :: 0 <= i < |blocks| && OutOfRange(blocks[i], minTs, maxTs)
  }

  function Retime(b: Batch, maxTs: nat): Batch {
    b.(blocks := Retimestamped(b.blocks, maxTs))
  }

  // From the first batch with a block out of range on, all timestamps are set to the maximum.
  function RetimeBatches(batches: seq<Batch>, started: bool, minTs: nat, maxTs: nat): (r: (seq<Batch>, bool))
    ensures |r.0| == |batches|
    decreases |batches|
  {
    if batches == [] then ([], started)
    else
      var now := started || AnyOutOfRange(batches[0].blocks, minTs, maxTs);
      var (rest, end) := RetimeBatches(batches[1..], now, minTs, maxTs);
      ([if now then Retime(batches[0], maxTs) else batches[0]] + rest, end)
  }

  function RetimeMap(m: BatchMap, started: bool, minTs: nat, maxTs: nat): (BatchMap, bool)
    decreases |m|
  {
    if m == [] then ([], started)
    else
      var (batches, now) := RetimeBatches(m[0].batches, started, minTs, maxTs);
      var (rest, end) := RetimeMap(m[1..], now, minTs, maxTs);
      ([Entry(m[0].anchorId, batches)] + rest, end)
  }

  // The same, with something in front.
  function Behind<T>(front: seq<T>, p: (seq<T>, bool)): (seq<T>, bool) {
    (front + p.0, p.1)
  }

  lemma {:induction false} BehindLaws<T>(front: seq<T>, x: seq<T>, p: (seq<T>, bool))
    ensures Behind([], p) == p
    ensures Behind(front + x, p) == Behind(front, Behind(x, p))
  {
    assert [] + p.0 == p.0;
    assert front + x + p.0 == front + (x + p.0);
  }

  method RetimestampBatches(batches: seq<Batch>, started: bool, minTs: nat, maxTs: nat)
    returns (r: seq<Batch>, shouldRetimestamp: bool)
    ensures (r, shouldRetimestamp) == RetimeBatches(batches, started, minTs, maxTs)
  {
    r, shouldRetimestamp := [], started;
    var i := 0;
    BehindLaws(r, [], RetimeBatches(batches, started, minTs, maxTs));
    assert batches[0..] == batches;
    while i < |batches|
      invariant 0 <= i <= |batches|
      invariant RetimeBatches(batches, started, minTs, maxTs) ==
                Behind(r, RetimeBatches(batches[i..], shouldRetimestamp, minTs, maxTs))
    {
      assert batches[i..][0] == batches[i] && batches[i..][1..] == batches[i + 1..];
      var batch := new MutableBatch(batches[i]);
      if !shouldRetimestamp {
        var k := 0;
        while k < |batch.blocks|
          invariant 0 <= k <= |batch.blocks|
          invariant shouldRetimestamp <==> AnyOutOfRange(batch.blocks[..k], minTs, maxTs)
        {
          assert batch.blocks[..k + 1] == batch.blocks[..k] + [batch.blocks[k]];
          if OutOfRange(batch.blocks[k], minTs, maxTs) {
            shouldRetimestamp := true;
            assert OutOfRange(batch.blocks[..k + 1][k], minTs, maxTs);
          }
          k := k + 1;
        }
        assert batch.blocks[..k] == batch.blocks;
      }
      if shouldRetimestamp {
        batch.SetAllBlocksTimestamp(maxTs);
      }
      BehindLaws(r, [batch.Value()], RetimeBatches(batches[i + 1..], shouldRetimestamp, minTs, maxTs));
      r := r + [batch.Value()];
      i := i + 1;
    }
    assert r + [] == r;
  }

  method RetimestampMap(m: BatchMap, minTs: nat, maxTs: nat, reasons: seq<ReorgReason>)
    returns (r: BatchMap, newReasons: seq<ReorgReason>)
    ensures r == RetimeMap(m, false, minTs, maxTs).0
    ensures newReasons == reasons + if RetimeMap(m, false, minTs, maxTs).1 then [Retimestamp(minTs, maxTs)] else []
  {
    r := [];
    var shouldRetimestamp := false;
    var i := 0;
    BehindLaws(r, [], RetimeMap(m, false, minTs, maxTs));
    assert m[0..] == m;
    while i < |m|
      invariant 0 <= i <= |m|
      invariant RetimeMap(m, false, minTs, maxTs) ==
                Behind(r, RetimeMap(m[i..], shouldRetimestamp, minTs, maxTs))
    {
      assert m[i..][0] == m[i] && m[i..][1..] == m[i + 1..];
      var batches;
      batches, shouldRetimestamp := RetimestampBatches(m[i].batches, shouldRetimestamp, minTs, maxTs);
      BehindLaws(r, [Entry(m[i].anchorId, batches)], RetimeMap(m[i + 1..], shouldRetimestamp, minTs, maxTs));
      r := r + [Entry(m[i].anchorId, batches)];
      i := i + 1;
    }
    assert r + [] == r;
    newReasons := reasons + if shouldRetimestamp then [Retimestamp(minTs, maxTs)] else [];
  }

  lemma {:induction false} AllBatchesConcat(a: BatchMap, b: BatchMap)
    ensures AllBatches(a + b) == AllBatches(a) + AllBatches(b)
    decreases |b|
  {
    if b == [] {
      assert a + b == a;
    } else {
      assert (a + b)[..|a + b| - 1] == a + b[..|b| - 1];
      AllBatchesConcat(a, b[..|b| - 1]);
    }
  }

  lemma {:induction false} RetimeConcat(a: seq<Batch>, b: seq<Batch>, started: bool, minTs: nat, maxTs: nat)
    ensures var (ra, now) := RetimeBatches(a, started, minTs, maxTs);
            RetimeBatches(a + b, started, minTs, maxTs) == Behind(ra, RetimeBatches(b, now, minTs, maxTs))
    decreases |a|
  {
    if a == [] {
      assert a + b == b;
      BehindLaws([], [], RetimeBatches(b, started, minTs, maxTs));
    } else {
      assert (a + b)[0] == a[0] && (a + b)[1..] == a[1..] + b;
      var now := started || AnyOutOfRange(a[0].blocks, minTs, maxTs);
      var first := if now then Retime(a[0], maxTs) else a[0];
      RetimeConcat(a[1..], b, now, minTs, maxTs);
      var (ra, end) := RetimeBatches(a[1..], now, minTs, maxTs);
      BehindLaws([first], ra, RetimeBatches(b, end, minTs, maxTs));
    }
  }

  lemma {:induction false} AllBatchesOne(e: Entry)
    ensures AllBatches([e]) == e.batches
  {
    assert [e][..0] == [];
    assert [] + e.batches == e.batches;
  }

  /** Going through the map entry by entry is going through its batches in order. */
  lemma {:induction false} RetimeMapIsRetimeBatches(m: BatchMap, started: bool, minTs: nat, maxTs: nat)
    ensures var (r, end) := RetimeMap(m, started, minTs, maxTs);
            RetimeBatches(AllBatches(m), started, minTs, maxTs) == (AllBatches(r), end)
    decreases |m|
  {
    if m != [] {
      var (batches, now) := RetimeBatches(m[0].batches, started, minTs, maxTs);
      var (rest, end) := RetimeMap(m[1..], now, minTs, maxTs);
      var e := Entry(m[0].anchorId, batches);
      RetimeMapIsRetimeBatches(m[1..], now, minTs, maxTs);
      assert m == [m[0]] + m[1..];
      AllBatchesConcat([m[0]], m[1..]);
      AllBatchesConcat([e], rest);
      AllBatchesOne(m[0]);
      AllBatchesOne(e);
      RetimeConcat(m[0].batches, AllBatches(m[1..]), started, minTs, maxTs);
    }
  }

  // ---------- the pipeline ----------

  /** What a run depends on besides the blocks: the oldest anchor and timestamps the chain takes. */
  datatype Bounds = Bounds(minProposableAnchor: nat, safeAnchor: Header, minTs: nat, maxTs: nat)

  function Grouped(blocks: seq<AnchoredBlock>, settings: Settings, est: Estimate): BatchMap {
    UniqueCoinbases(MapOf(blocks, settings, est))
  }

  function FinalMap(blocks: seq<AnchoredBlock>, settings: Settings, est: Estimate, bounds: Bounds): BatchMap {
    Reanchored(Grouped(blocks, settings, est), bounds.minProposableAnchor, bounds.safeAnchor, settings, est)
  }

  function Created(blocks: seq<AnchoredBlock>, settings: Settings, est: Estimate, bounds: Bounds): seq<Batch> {
    RetimeBatches(AllBatches(FinalMap(blocks, settings, est, bounds)), false, bounds.minTs, bounds.maxTs).0
  }

  // Why the blocks of the result differ from those of the chain, if they do.
  function Reasons(blocks: seq<AnchoredBlock>, settings: Settings, est: Estimate, bounds: Bounds): seq<ReorgReason> {
    var m := Grouped(blocks, settings, est);
    (if ShouldReanchor(m, bounds.minProposableAnchor) then [Reanchor(m[0].anchorId, bounds.safeAnchor.number)] else [])
    + if RetimeMap(FinalMap(blocks, settings, est, bounds), false, bounds.minTs, bounds.maxTs).1
      then [Retimestamp(bounds.minTs, bounds.maxTs)] else []
  }

  method CreateBatches(blocks: seq<AnchoredBlock>, settings: Settings, est: Estimate, bounds: Bounds)
    returns (batches: seq<Batch>, reasons: seq<ReorgReason>)
    requires settings.capacity >= 1 && ConsecutiveAnchored(blocks)
    ensures batches == Created(blocks, settings, est, bounds)
    ensures reasons == Reasons(blocks, settings, est, bounds)
  {
    if blocks == [] {
      return [], [];
    }
    var m := NewBatchMap(blocks, settings, est);
    m := EnsureUniqueCoinbase(m);
    m, reasons := ReanchorMap(m, bounds.minProposableAnchor, bounds.safeAnchor, settings, est);
    RetimeMapIsRetimeBatches(m, false, bounds.minTs, bounds.maxTs);
    m, reasons := RetimestampMap(m, bounds.minTs, bounds.maxTs, reasons);
    batches := AllBatches(m);
  }

  /** Takes the last batch if it has the given coinbase. */
  method PopWithCoinbase(batches: seq<Batch>, coinbase: Address) returns (popped: Option<Batch>, rest: seq<Batch>)
    ensures popped.Some? <==> batches != [] && batches[|batches| - 1].coinbase == coinbase
    ensures popped.Some? ==> batches == rest + [popped.value]
    ensures popped.None? ==> rest == batches
  {
    if batches == [] || batches[|batches| - 1].coinbase != coinbase {
      return None, batches;
    }
    return Some(batches[|batches| - 1]), batches[..|batches| - 1];
  }
}
