/** Splitting batches so that each has a single coinbase. */
module Coinbases {
  import opened Batches
  import opened BatchLists
  import opened BatchMaps

  // A batch like `b`, for some of its blocks and one coinbase.
  function Part(b: Batch, coinbase: Address, blocks: seq<Block>): Batch {
    Batch(blocks, b.anchor, b.settings, coinbase)
  }

  // The runs once `block` is added: the last one grows, or a new one starts.
  function Extended(runs: seq<Batch>, b: Batch, block: Block): (r: seq<Batch>)
    ensures r != []
  {
    if runs != [] && runs[|runs| - 1].coinbase == block.coinbase
    then runs[..|runs| - 1] + [runs[|runs| - 1].(blocks := runs[|runs| - 1].blocks + [block])]
    else runs + [Part(b, block.coinbase, [block])]
  }

  // The runs of equal coinbase in the first `n` blocks.
  function Runs(b: Batch, n: nat): (r: seq<Batch>)
    requires n <= |b.blocks|
  {
    if n == 0 then [] else Extended(Runs(b, n - 1), b, b.blocks[n - 1])
  }

  function Split(b: Batch): seq<Batch> {
    Runs(b, |b.blocks|)
  }

  lemma {:induction false} ExtendedLast(batches: seq<Batch>, current: Batch, b: Batch, block: Block)
    ensures Extended(batches + [current], b, block) ==
            if current.coinbase == block.coinbase
            then batches + [current.(blocks := current.blocks + [block])]
            else batches + [current] + [Part(b, block.coinbase, [] + [block])]
    ensures Extended([], b, block) == [] + [Part(b, block.coinbase, [] + [block])]
  {
    assert [] + [block] == [block];
    assert (batches + [current])[..|batches|] == batches;
  }

  /** Splits one batch; an empty batch gives no batches at all. */
  method SplitByCoinbase(b: Batch) returns (batches: seq<Batch>)
    ensures batches == Split(b)
  {
    if b.blocks == [] {
      return [];
    }
    batches := [];
    var current := new MutableBatch(Part(b, b.blocks[0].coinbase, []));
    var i := 0;
    while i < |b.blocks|
      invariant 0 <= i <= |b.blocks| && fresh(current)
      invariant current.settings == b.settings && current.anchor == b.anchor
      invariant i == 0 ==> batches == [] && current.blocks == [] && current.coinbase == b.blocks[0].coinbase
      invariant i > 0 ==> Runs(b, i) == batches + [current.Value()]
    {
      var block := b.blocks[i];
      ExtendedLast(batches, current.Value(), b, block);
      if current.coinbase != block.coinbase {
        batches := batches + [current.Value()];
        current := new MutableBatch(Part(b, block.coinbase, []));
      }
      current.blocks := current.blocks + [block];
      i := i + 1;
    }
    batches := batches + [current.Value()];
  }

  // ---------- what splitting keeps and establishes ----------

  ghost predicate UniformCoinbase(b: Batch) {
    forall i :: 0 <= i < |b.blocks| ==> b.blocks[i].coinbase == b.coinbase
  }

  ghost predicate AllUniform(batches: seq<Batch>) {
    forall i :: 0 <= i < |batches| ==> UniformCoinbase(batches[i])
  }

  // Neighbours have different coinbases, so no run could be longer.
  ghost predicate NeighboursDiffer(batches: seq<Batch>) {
    forall i :: 0 <= i < |batches| - 1 ==> batches[i].coinbase != batches[i + 1].coinbase
  }

  // A batch made of consecutive blocks of `b`.
  ghost predicate IsPart(part: Batch, b: Batch) {
    && part.blocks != [] && part.anchor == b.anchor && part.settings == b.settings
    && exists from: nat, to: nat :: from <= to <= |b.blocks| && part.blocks == b.blocks[from..to]
  }

  ghost predicate AllParts(batches: seq<Batch>, b: Batch) {
    forall i :: 0 <= i < |batches| ==> IsPart(batches[i], b)
  }

  // The runs of the first `n` blocks: cut at every change of coinbase, and nowhere else.
  ghost predicate RunsUpTo(runs: seq<Batch>, b: Batch, n: nat)
    requires n <= |b.blocks|
  {
    && Flatten(runs) == b.blocks[..n]
    && AllUniform(runs) && NeighboursDiffer(runs) && AllParts(runs, b)
    && (runs != [] ==> EndsAt(runs[|runs| - 1].blocks, b, n))
  }

  ghost predicate EndsAt(blocks: seq<Block>, b: Batch, n: nat)
    requires n <= |b.blocks|
  {
    |blocks| <= n && blocks == b.blocks[n - |blocks|..n]
  }

  lemma {:induction false} RunsSnoc(front: seq<Batch>, last: Batch, b: Batch)
    ensures AllUniform(front + [last]) <==> (AllUniform(front) && UniformCoinbase(last))
    ensures AllParts(front + [last], b) <==> (AllParts(front, b) && IsPart(last, b))
    ensures NeighboursDiffer(front + [last]) <==>
            (NeighboursDiffer(front) && (front != [] ==> front[|front| - 1].coinbase != last.coinbase))
  {
    hide IsPart, UniformCoinbase;
    var all := front + [last];
    assert all[|front|] == last && forall i :: 0 <= i < |front| ==> all[i] == front[i];
    if NeighboursDiffer(all) {
      assert forall i :: 0 <= i < |front| - 1 ==> front[i].coinbase == all[i].coinbase != all[i + 1].coinbase;
    }
  }

  lemma {:induction false} GrownRun(front: seq<Batch>, before: Batch, b: Batch, n: nat)
    requires n < |b.blocks| && RunsUpTo(front + [before], b, n)
    requires before.coinbase == b.blocks[n].coinbase
    ensures RunsUpTo(front + [before.(blocks := before.blocks + [b.blocks[n]])], b, n + 1)
  {
    hide Flatten, IsPart, AllUniform, AllParts, NeighboursDiffer;
    var last := before.(blocks := before.blocks + [b.blocks[n]]);
    FlattenGrown(front, before, last, b.blocks[n]);
    RunsSnoc(front, before, b);
    assert last.blocks == b.blocks[n - |before.blocks|..n + 1];
    PartIntro(last, before, b, n - |before.blocks|, n + 1);
    RunsSnoc(front, last, b);
  }

  lemma {:induction false} NewRun(runs: seq<Batch>, b: Batch, n: nat)
    requires n < |b.blocks| && RunsUpTo(runs, b, n)
    requires runs != [] ==> runs[|runs| - 1].coinbase != b.blocks[n].coinbase
    ensures RunsUpTo(runs + [Part(b, b.blocks[n].coinbase, [b.blocks[n]])], b, n + 1)
  {
    hide Flatten, IsPart, AllUniform, AllParts, NeighboursDiffer;
    var last := Part(b, b.blocks[n].coinbase, [b.blocks[n]]);
    FlattenSnoc(runs, last);
    assert last.blocks == b.blocks[n..n + 1];
    PartIntro(last, last, b, n, n + 1);
    RunsSnoc(runs, last, b);
  }

  lemma {:induction false} ExtendedRuns(runs: seq<Batch>, b: Batch, n: nat)
    requires n < |b.blocks| && RunsUpTo(runs, b, n)
    ensures RunsUpTo(Extended(runs, b, b.blocks[n]), b, n + 1)
  {
    hide RunsUpTo;
    if runs != [] && runs[|runs| - 1].coinbase == b.blocks[n].coinbase {
      assert runs == runs[..|runs| - 1] + [runs[|runs| - 1]];
      GrownRun(runs[..|runs| - 1], runs[|runs| - 1], b, n);
    } else {
      NewRun(runs, b, n);
    }
  }

  lemma {:induction false} RunsLaws(b: Batch, n: nat)
    requires n <= |b.blocks|
    ensures RunsUpTo(Runs(b, n), b, n)
    decreases n
  {
    hide RunsUpTo, Extended;
    if n == 0 {
      NoRuns(b);
    } else {
      RunsLaws(b, n - 1);
      ExtendedRuns(Runs(b, n - 1), b, n - 1);
    }
  }

  lemma {:induction false} NoRuns(b: Batch)
    ensures RunsUpTo([], b, 0)
  {}

  lemma {:induction false} PartIntro(part: Batch, like: Batch, b: Batch, from: nat, to: nat)
    requires part.blocks != [] && from <= to <= |b.blocks| && part.blocks == b.blocks[from..to]
    requires part.anchor == like.anchor && part.settings == like.settings
    requires (like.anchor == b.anchor && like.settings == b.settings) || IsPart(like, b)
    ensures IsPart(part, b)
  {}

  lemma {:induction false} PartGood(part: Batch, b: Batch, anchor: nat, settings: Settings, est: Estimate)
    requires Monotone(est) && IsPart(part, b) && GoodBatch(b, anchor, settings, est)
    ensures GoodBatch(part, anchor, settings, est)
  {
    hide Proposable;
    var from: nat, to: nat :| from <= to <= |b.blocks| && part.blocks == b.blocks[from..to];
    assert b.blocks == b.blocks[..from] + part.blocks + b.blocks[to..];
    PartProposable(part, b, b.blocks[..from], b.blocks[to..], settings, est);
  }

  // ---------- the whole map ----------

  function SplitAll(batches: seq<Batch>): seq<Batch> {
    if batches == [] then [] else SplitAll(batches[..|batches| - 1]) + Split(batches[|batches| - 1])
  }

  function UniqueCoinbases(m: BatchMap): (r: BatchMap)
    ensures |r| == |m|
  {
    seq(|m|, i requires 0 <= i < |m| => Entry(m[i].anchorId, SplitAll(m[i].batches)))
  }

  method EnsureUniqueCoinbase(m: BatchMap) returns (r: BatchMap)
    ensures r == UniqueCoinbases(m)
  {
    r := [];
    var i := 0;
    while i < |m|
      invariant 0 <= i <= |m|
      invariant r == UniqueCoinbases(m)[..i]
    {
      var newBatches, k := [], 0;
      while k < |m[i].batches|
        invariant 0 <= k <= |m[i].batches|
        invariant newBatches == SplitAll(m[i].batches[..k])
      {
        assert m[i].batches[..k + 1][..k] == m[i].batches[..k];
        var parts := SplitByCoinbase(m[i].batches[k]);
        newBatches := newBatches + parts;
        k := k + 1;
      }
      assert m[i].batches[..k] == m[i].batches;
      r := r + [Entry(m[i].anchorId, newBatches)];
      i := i + 1;
    }
  }

  /** Splitting one batch keeps its blocks and makes proposable batches of one coinbase. */
  lemma {:induction false} SplitLaws(b: Batch, anchor: nat, settings: Settings, est: Estimate)
    requires Monotone(est) && GoodBatch(b, anchor, settings, est)
    ensures AllGood(Split(b), anchor, settings, est) && AllUniform(Split(b))
    ensures Flatten(Split(b)) == b.blocks && Split(b) != []
  {
    assert b.blocks != [] && b.blocks[..|b.blocks|] == b.blocks;
    hide GoodBatch, IsPart, AllUniform, NeighboursDiffer, Extended;
    RunsLaws(b, |b.blocks|);
    forall i | 0 <= i < |Split(b)| ensures GoodBatch(Split(b)[i], anchor, settings, est) {
      PartGood(Split(b)[i], b, anchor, settings, est);
    }
  }

  lemma {:induction false} GoodConcat(a: seq<Batch>, b: seq<Batch>, anchor: nat, settings: Settings, est: Estimate)
    requires AllGood(a, anchor, settings, est) && AllGood(b, anchor, settings, est)
    requires AllUniform(a) && AllUniform(b)
    ensures AllGood(a + b, anchor, settings, est) && AllUniform(a + b)
  {
    hide GoodBatch, UniformCoinbase;
  }

  lemma {:induction false} SplitAllLaws(batches: seq<Batch>, anchor: nat, settings: Settings, est: Estimate)
    requires Monotone(est) && AllGood(batches, anchor, settings, est)
    ensures AllGood(SplitAll(batches), anchor, settings, est) && AllUniform(SplitAll(batches))
    ensures Flatten(SplitAll(batches)) == Flatten(batches)
    ensures batches != [] ==> SplitAll(batches) != []
    decreases |batches|
  {
    if batches != [] {
      var front, last := batches[..|batches| - 1], batches[|batches| - 1];
      assert GoodBatch(last, anchor, settings, est) && AllGood(front, anchor, settings, est);
      hide GoodBatch, AllGood, AllUniform, Split;
      SplitAllLaws(front, anchor, settings, est);
      SplitLaws(last, anchor, settings, est);
      GoodConcat(SplitAll(front), Split(last), anchor, settings, est);
      FlattenConcat(SplitAll(front), Split(last));
    }
  }

  lemma {:induction false} SplitEntry(e: Entry, settings: Settings, est: Estimate, number: nat)
    requires Monotone(est) && GoodEntry(e, settings, est, number)
    ensures GoodEntry(Entry(e.anchorId, SplitAll(e.batches)), settings, est, number)
    ensures AllUniform(SplitAll(e.batches))
    ensures AllPlaced(SplitAll(e.batches)) == AllPlaced(e.batches)
  {
    SplitAllLaws(e.batches, e.anchorId, settings, est);
    hide AllGood, AllUniform;
    AllPlacedAt(e.batches, e.anchorId, settings, est);
    AllPlacedAt(SplitAll(e.batches), e.anchorId, settings, est);
  }

  /** Splitting keeps the map as it is, except that every batch now has one coinbase. */
  lemma {:induction false} UniqueCoinbasesKeeps(m: BatchMap, settings: Settings, est: Estimate, number: nat)
    requires Monotone(est) && GoodMap(m, settings, est, number)
    ensures GoodMap(UniqueCoinbases(m), settings, est, number)
    ensures AllUniform(AllBatches(UniqueCoinbases(m)))
    ensures MapPlaced(UniqueCoinbases(m)) == MapPlaced(m)
    decreases |m|
  {
    hide GoodMap, GoodEntry, AllPlaced, AllBatches, MapPlaced, SplitAll;
    if m == [] {
      EmptyMap(settings, est, number);
      NoBatches();
    } else {
      var front, last := m[..|m| - 1], m[|m| - 1];
      assert m == front + [last];
      GoodMapSnoc(front, last, settings, est, number);
      UniqueCoinbasesKeeps(front, settings, est, number);
      SplitEntry(last, settings, est, number);
      var e := Entry(last.anchorId, SplitAll(last.batches));
      assert UniqueCoinbases(m) == UniqueCoinbases(front) + [e];
      GoodMapSnoc(UniqueCoinbases(front), e, settings, est, number);
      MapPlacedSnoc(front, last);
      MapPlacedSnoc(UniqueCoinbases(front), e);
    }
  }

  lemma {:induction false} NoBatches()
    ensures AllBatches([]) == []
  {}
}
