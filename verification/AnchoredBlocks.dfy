/** L2 blocks with the L1 headers they are anchored to, and contiguous runs of them. */
module AnchoredBlocks {
  import opened Integers
  import opened Wrappers
  import opened Batches
  import opened Sorting

  datatype AnchoredBlock = AnchoredBlock(block: Block, anchor: Header)

  datatype GapError = GapError(expected: nat, got: nat)

  function NumberOf(b: AnchoredBlock): nat { b.block.number }

  function AnchorOf(b: AnchoredBlock): nat { b.anchor.number }

  function Itself(n: nat): nat { n }

  function Numbers(blocks: seq<AnchoredBlock>): (r: seq<nat>)
    ensures |r| == |blocks|
  {
    seq(|blocks|, i requires 0 <= i < |blocks| => blocks[i].block.number)
  }

  function Blocks(blocks: seq<AnchoredBlock>): (r: seq<Block>)
    ensures |r| == |blocks|
  {
    seq(|blocks|, i requires 0 <= i < |blocks| => blocks[i].block)
  }

  /** Each number is one more than the one before it. */
  ghost predicate Consecutive(blocks: seq<Block>) {
    forall i :: 0 <= i < |blocks| ==> blocks[i].number == blocks[0].number + i
  }

  ghost predicate ConsecutiveAnchored(blocks: seq<AnchoredBlock>) {
    forall i :: 0 <= i < |blocks| ==> blocks[i].block.number == blocks[0].block.number + i
  }

  function Interval(lo: nat, n: nat): (r: seq<nat>)
    ensures |r| == n
  {
    seq(n, i requires 0 <= i < n => lo + i)
  }

  // The first block out of line, if there is one.
  function GapFrom(sorted: seq<AnchoredBlock>, first: nat, i: nat): Option<GapError>
    requires i <= |sorted|
    decreases |sorted| - i
  {
    if i == |sorted| then None
    else if sorted[i].block.number != first + i then Some(GapError(first + i, sorted[i].block.number))
    else GapFrom(sorted, first, i + 1)
  }

  lemma {:induction false} GapFromIff(sorted: seq<AnchoredBlock>, first: nat, i: nat)
    requires i <= |sorted|
    ensures GapFrom(sorted, first, i).None? <==>
            forall j :: i <= j < |sorted| ==> sorted[j].block.number == first + j
    decreases |sorted| - i
  {
    if i < |sorted| {
      GapFromIff(sorted, first, i + 1);
    }
  }

  /** What is reported is the first block out of line, with the number that was expected there. */
  lemma {:induction false} FirstGap(sorted: seq<AnchoredBlock>, first: nat, i: nat) returns (j: nat)
    requires i <= |sorted| && GapFrom(sorted, first, i).Some?
    ensures i <= j < |sorted| && (forall k :: i <= k < j ==> sorted[k].block.number == first + k)
    ensures var gap := GapFrom(sorted, first, i).value;
            gap.expected == first + j && gap.got == sorted[j].block.number && gap.got != gap.expected
    decreases |sorted| - i
  {
    if sorted[i].block.number != first + i {
      j := i;
    } else {
      j := FirstGap(sorted, first, i + 1);
    }
  }

  /** Sorts the blocks by number and fails on the first gap or duplicate. */
  method NewContiguous(blocks: seq<AnchoredBlock>) returns (r: Result<seq<AnchoredBlock>, GapError>)
    ensures var sorted := SortBy(blocks, NumberOf);
            if sorted == [] then r == Ok([])
            else match GapFrom(sorted, sorted[0].block.number, 0)
                 case None => r == Ok(sorted)
                 case Some(gap) => r == Err(gap)
    ensures r.Ok? ==> ConsecutiveAnchored(r.value)
  {
    var sorted := SortBy(blocks, NumberOf);
    if sorted == [] {
      return Ok(sorted);
    }
    var first, i := sorted[0].block.number, 0;
    GapFromIff(sorted, first, 0);
    while i < |sorted|
      invariant 0 <= i <= |sorted|
      invariant GapFrom(sorted, first, 0) == GapFrom(sorted, first, i)
    {
      var got, expected := sorted[i].block.number, first + i;
      if got != expected {
        return Err(GapError(expected, got));
      }
      i := i + 1;
    }
    r := Ok(sorted);
  }

  // ---------- when a collection is contiguous ----------

  lemma {:induction false} NumbersOfInserted(s: seq<AnchoredBlock>, x: AnchoredBlock)
    ensures Numbers(InsertBy(s, x, NumberOf)) == InsertBy(Numbers(s), NumberOf(x), Itself)
    decreases |s|
  {
    if s != [] && !(NumberOf(s[|s| - 1]) <= NumberOf(x)) {
      NumbersOfInserted(s[..|s| - 1], x);
      assert Numbers(s)[..|s| - 1] == Numbers(s[..|s| - 1]);
    }
  }

  lemma {:induction false} NumbersOfSorted(s: seq<AnchoredBlock>)
    ensures Numbers(SortBy(s, NumberOf)) == SortBy(Numbers(s), Itself)
    decreases |s|
  {
    if s != [] {
      NumbersOfSorted(s[..|s| - 1]);
      NumbersOfInserted(SortBy(s[..|s| - 1], NumberOf), s[|s| - 1]);
      assert Numbers(s)[..|s| - 1] == Numbers(s[..|s| - 1]);
    }
  }

  // The numbers of the blocks are exactly those of one interval, each once, in any order.
  ghost predicate CoversInterval(blocks: seq<AnchoredBlock>, lo: nat) {
    multiset(Numbers(blocks)) == multiset(Interval(lo, |blocks|))
  }

  lemma {:induction false} ContiguousCovers(blocks: seq<AnchoredBlock>) returns (lo: nat)
    requires ConsecutiveAnchored(SortBy(blocks, NumberOf))
    ensures CoversInterval(blocks, lo)
  {
    var sorted := SortBy(blocks, NumberOf);
    lo := if sorted == [] then 0 else sorted[0].block.number;
    NumbersOfSorted(blocks);
    assert Numbers(sorted) == Interval(lo, |blocks|);
    SortLaws(Numbers(blocks), Itself);
  }

  lemma {:induction false} CoveringContiguous(blocks: seq<AnchoredBlock>, lo: nat)
    requires CoversInterval(blocks, lo)
    ensures ConsecutiveAnchored(SortBy(blocks, NumberOf))
  {
    var sorted := SortBy(blocks, NumberOf);
    NumbersOfSorted(blocks);
    SortRestores(Numbers(blocks), Interval(lo, |blocks|), Itself);
    assert forall i :: 0 <= i < |sorted| ==> sorted[i].block.number == Numbers(sorted)[i] == lo + i;
  }

  /** Blocks form a contiguous run if and only if their numbers cover an interval once. */
  lemma {:induction false} ContiguousIff(blocks: seq<AnchoredBlock>)
    ensures ConsecutiveAnchored(SortBy(blocks, NumberOf)) <==> exists lo: nat :: CoversInterval(blocks, lo)
  {
    hide ConsecutiveAnchored, CoversInterval;
    if ConsecutiveAnchored(SortBy(blocks, NumberOf)) {
      var lo := ContiguousCovers(blocks);
    }
    if exists lo: nat :: CoversInterval(blocks, lo) {
      var lo: nat :| CoversInterval(blocks, lo);
      CoveringContiguous(blocks, lo);
    }
  }

  // ---------- the outstanding batch of a sequencing-only node ----------

  // The header of the highest anchor; of equal ones the last, or `safe` if there are no blocks.
  function HighestAnchor(blocks: seq<AnchoredBlock>, safe: Header): Header {
    if blocks == [] then safe
    else
      var last := blocks[|blocks| - 1].anchor;
      var rest := HighestAnchor(blocks[..|blocks| - 1], last);
      if rest.number <= last.number then last else rest
  }

  function WithAnchor(blocks: seq<AnchoredBlock>, number: nat): seq<AnchoredBlock> {
    if blocks == [] then []
    else
      var last := blocks[|blocks| - 1];
      WithAnchor(blocks[..|blocks| - 1], number) + if last.anchor.number == number then [last] else []
  }

  function IntoOutstanding(blocks: seq<AnchoredBlock>, safe: Header, settings: Settings): Batch {
    var highest := HighestAnchor(blocks, safe);
    var outstanding := WithAnchor(blocks, highest.number);
    BatchFromBlocks(highest, settings, Blocks(outstanding[SaturatingSub(|outstanding|, settings.capacity)..]))
  }

  lemma {:induction false} HighestIsLast(blocks: seq<AnchoredBlock>, safe: Header)
    requires blocks != [] && SortedBy(blocks, AnchorOf)
    ensures HighestAnchor(blocks, safe) == blocks[|blocks| - 1].anchor
    decreases |blocks|
  {
    var front := blocks[..|blocks| - 1];
    if front != [] {
      HighestIsLast(front, blocks[|blocks| - 1].anchor);
      assert AnchorOf(blocks[|blocks| - 2]) <= AnchorOf(blocks[|blocks| - 1]);
    }
  }

  lemma {:induction false} HighestIsHighest(blocks: seq<AnchoredBlock>, safe: Header)
    requires blocks != []
    ensures forall i :: 0 <= i < |blocks| ==> AnchorOf(blocks[i]) <= HighestAnchor(blocks, safe).number
    ensures exists i :: 0 <= i < |blocks| && blocks[i].anchor == HighestAnchor(blocks, safe)
    decreases |blocks|
  {
    var front, last := blocks[..|blocks| - 1], blocks[|blocks| - 1];
    if front != [] {
      HighestIsHighest(front, last.anchor);
      var i :| 0 <= i < |front| && front[i].anchor == HighestAnchor(front, last.anchor);
      assert blocks[i] == front[i];
    }
    assert blocks[|blocks| - 1].anchor == last.anchor;
  }

  lemma {:induction false} WithAnchorIff(blocks: seq<AnchoredBlock>, number: nat, x: AnchoredBlock)
    ensures x in WithAnchor(blocks, number) <==> x in blocks && x.anchor.number == number
    decreases |blocks|
  {
    if blocks != [] {
      WithAnchorIff(blocks[..|blocks| - 1], number, x);
      assert blocks == blocks[..|blocks| - 1] + [blocks[|blocks| - 1]];
    }
  }

  /**
   In whatever order the anchors are, the outstanding batch is on the highest of them and has only blocks of that anchor;
   all of those, unless they are more than the capacity.
   */
  lemma {:induction false} OutstandingOnHighest(blocks: seq<AnchoredBlock>, safe: Header, settings: Settings, x: AnchoredBlock)
    requires blocks != []
    ensures var b := IntoOutstanding(blocks, safe, settings);
            && (forall i :: 0 <= i < |blocks| ==> AnchorOf(blocks[i]) <= b.anchor.number)
            && (exists i :: 0 <= i < |blocks| && blocks[i].anchor == b.anchor)
            && |b.blocks| <= settings.capacity
            && (|b.blocks| < settings.capacity && x in blocks && x.anchor.number == b.anchor.number ==> x.block in b.blocks)
            && forall k :: 0 <= k < |b.blocks| ==>
                 exists i :: 0 <= i < |blocks| && blocks[i].anchor.number == b.anchor.number && blocks[i].block == b.blocks[k]
  {
    var highest := HighestAnchor(blocks, safe);
    HighestIsHighest(blocks, safe);
    var all := WithAnchor(blocks, highest.number);
    hide HighestAnchor, WithAnchor;
    var kept := all[SaturatingSub(|all|, settings.capacity)..];
    var b := IntoOutstanding(blocks, safe, settings);
    forall k | 0 <= k < |b.blocks|
      ensures exists i :: 0 <= i < |blocks| && blocks[i].anchor.number == b.anchor.number && blocks[i].block == b.blocks[k]
    {
      WithAnchorIff(blocks, highest.number, kept[k]);
      assert kept[k] in all;
    }
    WithAnchorIff(blocks, highest.number, x);
    if |b.blocks| < settings.capacity && x in all {
      assert kept == all;
      var i :| 0 <= i < |all| && all[i] == x;
      assert b.blocks[i] == x.block;
    }
  }

  // Where the final run of blocks with one anchor starts.
  function RunStart(blocks: seq<AnchoredBlock>, number: nat): (k: nat)
    ensures k <= |blocks|
    decreases |blocks|
  {
    if blocks == [] || blocks[|blocks| - 1].anchor.number != number then |blocks|
    else RunStart(blocks[..|blocks| - 1], number)
  }

  lemma {:induction false} RunStartLaw(blocks: seq<AnchoredBlock>, number: nat)
    ensures var k := RunStart(blocks, number);
            && (forall i :: k <= i < |blocks| ==> blocks[i].anchor.number == number)
            && (k > 0 ==> blocks[k - 1].anchor.number != number)
    decreases |blocks|
  {
    if blocks != [] && blocks[|blocks| - 1].anchor.number == number {
      RunStartLaw(blocks[..|blocks| - 1], number);
    }
  }

  lemma {:induction false} NoneWithAnchor(blocks: seq<AnchoredBlock>, number: nat)
    requires forall i :: 0 <= i < |blocks| ==> blocks[i].anchor.number != number
    ensures WithAnchor(blocks, number) == []
    decreases |blocks|
  {
    if blocks != [] {
      NoneWithAnchor(blocks[..|blocks| - 1], number);
    }
  }

  lemma {:induction false} WithAnchorIsRun(blocks: seq<AnchoredBlock>, number: nat)
    requires SortedBy(blocks, AnchorOf)
    requires forall i :: 0 <= i < |blocks| ==> blocks[i].anchor.number <= number
    ensures WithAnchor(blocks, number) == blocks[RunStart(blocks, number)..]
    decreases |blocks|
  {
    hide SortedBy;
    if blocks != [] {
      var front, last := blocks[..|blocks| - 1], blocks[|blocks| - 1];
      SortedFront(blocks, AnchorOf);
      if last.anchor.number == number {
        WithAnchorIsRun(front, number);
        var k := RunStart(front, number);
        assert blocks[k..] == front[k..] + [last];
      } else {
        LastAnchorIsHighest(blocks);
        NoneWithAnchor(blocks, number);
      }
    }
  }

  // The longest run of final blocks that share the last anchor and fit the capacity.
  function FinalRun(blocks: seq<AnchoredBlock>, capacity: nat): seq<AnchoredBlock>
    requires blocks != []
  {
    blocks[Max(RunStart(blocks, blocks[|blocks| - 1].anchor.number), SaturatingSub(|blocks|, capacity))..]
  }

  lemma {:induction false} OutstandingBlocks(blocks: seq<AnchoredBlock>, safe: Header, settings: Settings)
    requires blocks != [] && SortedBy(blocks, AnchorOf)
    ensures IntoOutstanding(blocks, safe, settings) ==
            BatchFromBlocks(blocks[|blocks| - 1].anchor, settings, Blocks(FinalRun(blocks, settings.capacity)))
  {
    var last := blocks[|blocks| - 1];
    HighestIsLast(blocks, safe);
    LastAnchorIsHighest(blocks);
    WithAnchorIsRun(blocks, last.anchor.number);
    hide SortedBy, HighestAnchor, WithAnchor, RunStart, Blocks;
    LastOf(blocks, RunStart(blocks, last.anchor.number), settings.capacity);
  }

  /**
   With anchors that never decrease, the outstanding batch is the longest run of final blocks
   that share the last anchor and fit the capacity. It is contiguous and ends at the L2 head.
   */
  lemma {:induction false} OutstandingIsFinalRun(blocks: seq<AnchoredBlock>, safe: Header, settings: Settings)
    requires blocks != [] && SortedBy(blocks, AnchorOf) && ConsecutiveAnchored(blocks)
    ensures var b := IntoOutstanding(blocks, safe, settings);
            && b.blocks == Blocks(FinalRun(blocks, settings.capacity))
            && b.anchor == blocks[|blocks| - 1].anchor
            && Consecutive(b.blocks) && |b.blocks| <= settings.capacity
  {
    OutstandingBlocks(blocks, safe, settings);
    hide SortedBy, IntoOutstanding, RunStart, Consecutive, ConsecutiveAnchored;
    TailConsecutive(blocks, Max(RunStart(blocks, blocks[|blocks| - 1].anchor.number),
                                SaturatingSub(|blocks|, settings.capacity)));
  }

  lemma {:induction false} LastOf(blocks: seq<AnchoredBlock>, s: nat, capacity: nat)
    requires s <= |blocks|
    ensures blocks[s..][SaturatingSub(|blocks[s..]|, capacity)..] == blocks[Max(s, SaturatingSub(|blocks|, capacity))..]
  {}

  lemma {:induction false} LastAnchorIsHighest(blocks: seq<AnchoredBlock>)
    requires blocks != [] && SortedBy(blocks, AnchorOf)
    ensures forall i :: 0 <= i < |blocks| ==> blocks[i].anchor.number <= blocks[|blocks| - 1].anchor.number
  {
    var last := |blocks| - 1;
    assert forall i :: 0 <= i < last ==> AnchorOf(blocks[i]) <= AnchorOf(blocks[last]);
  }

  lemma {:induction false} TailConsecutive(blocks: seq<AnchoredBlock>, k: nat)
    requires k <= |blocks| && ConsecutiveAnchored(blocks)
    ensures Consecutive(Blocks(blocks[k..]))
  {}
}
