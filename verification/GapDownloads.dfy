/** The downloader gives the driver what it assumes of the blocks that fill a gap. */
module GapDownloads {
  import opened Wrappers
  import opened Batches
  import opened AnchoredBlocks
  import opened Sorting
  import opened Driver
  import opened DriverRuns
  import SoftBlocks

  // The range that a gap before block `got` asks for.
  ghost predicate AsksFor(s: State, got: nat, w: SoftBlocks.World) {
    && HasGap(s.outstanding, got)
    && w.Honest(s.outstanding.BlocksRange().1 + 1)
    && |w.blocks| == got - 1 - s.outstanding.BlocksRange().1
  }

  /** When every missing block has an anchor transaction, a download that succeeds fills the gap. */
  lemma {:induction false} DownloadFillsGap(s: State, block: Block, w: SoftBlocks.World, ready: seq<SoftBlocks.Ready>)
    requires AsksFor(s, block.number, w) && SoftBlocks.AllAnchored(w, |w.blocks|)
    requires SoftBlocks.Download(w, ready).Finished? && SoftBlocks.Download(w, ready).result.Ok?
    ensures GapFilled(s, block, Some(SortBy(SoftBlocks.Download(w, ready).result.value, NumberOf)))
  {
    SoftBlocks.DownloadReturnsRange(w, ready, s.outstanding.BlocksRange().1 + 1);
  }

  lemma {:induction false} ReceivedInRange(w: SoftBlocks.World, n: nat, first: nat, b: SoftBlocks.L2Block)
    requires w.Honest(first) && SoftBlocks.AllAnchored(w, n) && b in SoftBlocks.Received(w, n)
    ensures first <= b.block.number < first + |w.blocks|
  {
    var i :| 0 <= i < n && SoftBlocks.Received(w, n)[i] == b;
    assert SoftBlocks.HasNumber(w.blocks[i].value, first + i);
  }

  lemma {:induction false} SortedInUnanchored(out: seq<AnchoredBlock>, i: nat)
    requires i < |out|
    ensures SoftBlocks.L2Block(SortBy(out, NumberOf)[i].block, Some(SortBy(out, NumberOf)[i].anchor.number)) in SoftBlocks.Unanchored(out)
  {
    SortLaws(out, NumberOf);
    var x := SortBy(out, NumberOf)[i];
    assert x in multiset(out);
    var j :| 0 <= j < |out| && out[j] == x;
    assert SoftBlocks.Unanchored(out)[j] == SoftBlocks.L2Block(x.block, Some(x.anchor.number));
  }

  /** Whatever a download that succeeds gives, it gives no block outside the gap. */
  lemma {:induction false} DownloadStaysWithin(s: State, block: Block, w: SoftBlocks.World, ready: seq<SoftBlocks.Ready>)
    requires AsksFor(s, block.number, w)
    requires SoftBlocks.Download(w, ready).Finished? && SoftBlocks.Download(w, ready).result.Ok?
    requires ConsecutiveAnchored(SortBy(SoftBlocks.Download(w, ready).result.value, NumberOf))
    ensures GapWithin(s, block, Some(SortBy(SoftBlocks.Download(w, ready).result.value, NumberOf)))
  {
    var first, out := s.outstanding.BlocksRange().1 + 1, SoftBlocks.Download(w, ready).result.value;
    var k := SoftBlocks.FinishedDownload(w, ready, first);
    var n := if SoftBlocks.Complete(w, out) then |w.blocks| else k;
    var sorted := SortBy(out, NumberOf);
    forall i | 0 <= i < |sorted| ensures first - 1 < sorted[i].block.number < block.number {
      SortedInUnanchored(out, i);
      var b := SoftBlocks.L2Block(sorted[i].block, Some(sorted[i].anchor.number));
      assert b in multiset(SoftBlocks.Unanchored(out));
      assert b in multiset(SoftBlocks.Received(w, n));
      ReceivedInRange(w, n, first, b);
    }
  }
}
