/** The target size of what the driver submits. */
module DriverSizes {
  import opened Wrappers
  import opened Batches
  import opened AnchoredBlocks
  import opened BatchLists
  import opened Reanchoring
  import opened Sorting
  import opened Pipeline
  import opened PipelineResults
  import opened PipelineOrder
  import opened Driver
  import opened DriverRuns
  import Submission
  import Handover

  ghost predicate SizedCommand(cmd: Submission.Cmd, settings: Settings, est: Estimate) {
    cmd.Submit? ==> Proposable(cmd.request.batch, settings, est)
  }

  /** Every batch submitted is within capacity and, unless it is a single block, within the target size. */
  ghost predicate SizedCommands(commands: seq<Submission.Cmd>, settings: Settings, est: Estimate) {
    forall i :: 0 <= i < |commands| ==> SizedCommand(commands[i], settings, est)
  }

  ghost predicate Sized(s: State, settings: Settings, est: Estimate) {
    Proposable(s.outstanding, settings, est) && SizedCommands(s.commands, settings, est)
  }

  // What a node that can only sequence takes over is proposable. The program limits it by capacity only.
  ghost predicate SyncFits(i: SyncInput, settings: Settings, est: Estimate) {
    (i.status.SequencingOnly? || i.status.HandoverWait?) && i.origin < i.l2Head ==>
      Proposable(IntoOutstanding(i.blocks, i.l1Anchor, settings), settings, est)
  }

  ghost predicate EventFits(e: Event, settings: Settings, est: Estimate) {
    match e
    case Sync(i) => SyncFits(i, settings, est)
    case SlotTick(t) => t.sync.Some? ==> SyncFits(t.sync.value, settings, est)
    case _ => true
  }

  lemma {:induction false} SizedRequests(commands: seq<Submission.Cmd>, batches: seq<Batch>, deadline: nat, settings: Settings, est: Estimate)
    requires SizedCommands(commands, settings, est) && AllProposable(batches, settings, est)
    ensures SizedCommands(commands + Requests(batches, deadline), settings, est)
    decreases |batches|
  {
    hide Proposable;
    if batches == [] {
      assert commands + Requests(batches, deadline) == commands;
    } else {
      var front, last := batches[..|batches| - 1], batches[|batches| - 1];
      SizedRequests(commands, front, deadline, settings, est);
      assert Proposable(last, settings, est);
      assert commands + Requests(batches, deadline) == commands + Requests(front, deadline) + Sent(last, deadline);
    }
  }

  lemma {:induction false} SizedSubmit(s: State, deadline: nat, settings: Settings, est: Estimate)
    requires Sized(s, settings, est)
    ensures Sized(AfterSubmit(s, deadline), settings, est)
  {
    NoneProposable(s.outstanding.(blocks := [], anchor := s.l1Anchor), settings, est);
    hide Proposable;
  }

  lemma {:induction false} NoneProposable(b: Batch, settings: Settings, est: Estimate)
    requires b.blocks == []
    ensures Proposable(b, settings, est)
  {}

  // A run of the blocks of a proposable batch is proposable.
  lemma {:induction false} RunProposable(b: Batch, from: nat, to: nat, settings: Settings, est: Estimate)
    requires Monotone(est) && from <= to <= |b.blocks| && Proposable(b, settings, est)
    ensures Proposable(b.(blocks := b.blocks[from..to]), settings, est)
  {
    assert b.blocks == b.blocks[..from] + b.blocks[from..to] + b.blocks[to..];
    hide Proposable;
    PartProposable(b.(blocks := b.blocks[from..to]), b, b.blocks[..from], b.blocks[to..], settings, est);
  }

  lemma {:induction false} BeforeProposable(b: Batch, number: nat, settings: Settings, est: Estimate)
    requires Monotone(est) && Increasing(b) && Proposable(b, settings, est)
    ensures Proposable(b.Before(number), settings, est)
  {
    hide Proposable;
    var k := BeforeIsPrefix(b.blocks, number);
    RunProposable(b, 0, k, settings, est);
  }

  lemma {:induction false} AfterProposable(b: Batch, number: nat, settings: Settings, est: Estimate)
    requires Monotone(est) && Increasing(b) && Proposable(b, settings, est)
    ensures Proposable(b.(blocks := BlocksAfter(b.blocks, number)), settings, est)
  {
    hide Proposable;
    var k := AfterIsSuffix(b.blocks, number);
    assert b.blocks[k..] == b.blocks[k..|b.blocks|];
    RunProposable(b, k, |b.blocks|, settings, est);
  }

  lemma {:induction false} SyncedSizes(i: SyncInput, settings: Settings, est: Estimate)
    requires Monotone(est) && settings.capacity >= 1 && SyncValid(i) && SyncFits(i, settings, est)
    ensures AllProposable(SyncedBatches(i, settings, est), settings, est)
  {
    hide Proposable, IntoOutstanding, Created, ConsecutiveAnchored;
    NoneProposable(EmptyBatch(i.l1Anchor, settings), settings, est);
    PipelineBatchesValid(i.blocks, settings, est, BoundsOf(i));
  }

  lemma {:induction false} SizedSync(s: State, i: SyncInput, settings: Settings, est: Estimate)
    requires Monotone(est) && settings.capacity >= 1 && SyncValid(i) && SyncFits(i, settings, est)
    requires SizedCommands(s.commands, settings, est)
    ensures Sized(AfterSync(s, i, settings, est), settings, est)
  {
    hide Proposable, SyncedBatches, SyncValid, SyncFits, SizedCommands, Requests;
    SyncedSizes(i, settings, est);
    NoneProposable(EmptyBatch(s.l1Anchor, settings), settings, est);
    SizedRequests(s.commands, Proposed(SyncedBatches(i, settings, est), settings), i.deadline, settings, est);
    assert s.commands + [] == s.commands;
  }

  lemma {:induction false} SizedTick(s: State, t: Tick, settings: Settings, est: Estimate)
    requires Monotone(est) && settings.capacity >= 1 && Sized(s, settings, est)
    requires t.sync.Some? ==> SyncValid(t.sync.value) && SyncFits(t.sync.value, settings, est)
    ensures Sized(AfterTick(s, t, settings, est), settings, est)
  {
    hide AfterSync, AfterSubmit, Batch.AgeLimit, SyncValid, SyncFits, Proposable, SizedCommands;
    var limit := s.outstanding.AgeLimit(t.nextTs, s.l1Tip + 1);
    SizedSubmit(s, t.currentSlot + limit, settings, est);
    var a := if limit <= settings.anchorMaxHeightBuffer then AfterSubmit(s, t.currentSlot + limit) else s;
    var b := a.(status := t.status);
    if t.sync.Some? {
      SizedSync(a, t.sync.value, settings, est);
      b := AfterSync(a, t.sync.value, settings, est);
    }
    SizedSubmit(b, t.windowEnd, settings, est);
    AnchorKeepsSize(if b.status.InclusionOnly? then AfterSubmit(b, t.windowEnd) else b, t.finalizing, settings, est);
  }

  lemma {:induction false} AnchorKeepsSize(s: State, finalizing: bool, settings: Settings, est: Estimate)
    requires Sized(s, settings, est)
    ensures Sized(WithFreshAnchor(s, finalizing), settings, est)
  {
    hide SizedCommands;
  }

  lemma {:induction false} SameLimitsProposable(b: Batch, one: Settings, other: Settings, est: Estimate)
    requires one.capacity == other.capacity && one.targetCompressedSize == other.targetCompressedSize
    ensures Proposable(b, one, est) <==> Proposable(b, other, est)
  {}

  lemma {:induction false} SizedProduced(
    s: State, block: Block, anchor: Header, gap: Option<seq<AnchoredBlock>>, deadline: nat, settings: Settings, est: Estimate)
    requires Monotone(est) && settings.capacity >= 1 && Sound(s, settings) && Sized(s, settings, est) && GapWithin(s, block, gap)
    ensures Sized(AfterProduced(s, block, anchor, gap, deadline, est), settings, est)
  {
    assert BlocksToAdd(s.outstanding, block, gap) != [];
    hide Proposable, AfterProduced, BlocksToAdd, GapWithin, SizedCommands, Requests, AllWithin, AllIncreasing;
    var full := ProducedConserves(s, block, anchor, gap, deadline, settings, est);
    var first := BlocksToAdd(s.outstanding, block, gap)[0].number;
    BeforeProposable(s.outstanding, first, settings, est);
    SameLimitsProposable(s.outstanding.Before(first), settings, s.outstanding.settings, est);
    var r := AfterProduced(s, block, anchor, gap, deadline, est);
    forall k | 0 <= k < |full| + 1 ensures Proposable((full + [r.outstanding])[k], settings, est) {
      SameLimitsProposable((full + [r.outstanding])[k], settings, s.outstanding.settings, est);
    }
    assert (full + [r.outstanding])[|full|] == r.outstanding;
    assert forall k :: 0 <= k < |full| ==> full[k] == (full + [r.outstanding])[k];
    SizedRequests(s.commands, full, deadline, settings, est);
    assert s.commands + [] == s.commands;
  }

  lemma {:induction false} StepSized(s: State, e: Event, settings: Settings, est: Estimate)
    requires Monotone(est) && settings.capacity >= 1 && Sound(s, settings) && Sized(s, settings, est)
    requires Valid(s, e) && EventFits(e, settings, est)
    ensures Sized(Step(s, e, settings, est), settings, est)
  {
    hide Proposable, AfterProduced, AfterSync, AfterTick, GapWithin, SyncValid, SyncFits, BlocksAfter, BlocksBefore, Increasing;
    match e
    case Produced(block, anchor, gap, deadline) => SizedProduced(s, block, anchor, gap, deadline, settings, est);
    case L1Block(i) => SizedL1(s, i, settings, est);
    case L2Block(i) => BeforeProposable(s.outstanding, i.number, settings, est);
    case Sync(i) => SizedSync(s, i, settings, est);
    case SlotTick(t) => SizedTick(s, t, settings, est);
    case EndOfSequencing(_) =>
  }

  lemma {:induction false} SizedL1(s: State, i: L1Input, settings: Settings, est: Estimate)
    requires Monotone(est) && Sound(s, settings) && Sized(s, settings, est)
    ensures Sized(AfterL1Update(s, i), settings, est)
  {
    hide SizedCommands, BlocksAfter, Increasing;
    if i.origin.Some? {
      AfterProposable(s.outstanding, i.origin.value, settings, est);
    }
  }

  /**
   In every run in which what syncs take over fits, each batch submitted is within capacity and, unless
   it is a single block, within the target size.
   */
  lemma {:induction false} RunSubmitsSized(start: State, events: seq<Event>, settings: Settings, est: Estimate)
    requires Monotone(est) && settings.capacity >= 1 && Sound(start, settings) && Sized(start, settings, est)
    requires ValidRun(start, events, settings, est)
    requires forall i :: 0 <= i < |events| ==> EventFits(events[i], settings, est)
    ensures Sized(Run(start, events, settings, est), settings, est)
    decreases |events|
  {
    hide Sound, Sized, Step, Valid, EventFits;
    if events != [] {
      RunSubmitsSized(start, events[..|events| - 1], settings, est);
      RunKeepsSound(start, events[..|events| - 1], settings, est);
      StepSized(Run(start, events[..|events| - 1], settings, est), events[|events| - 1], settings, est);
    }
  }

  // ---------- the condition is exact ----------

  ghost predicate TickSized(s: State, t: Tick, settings: Settings, est: Estimate) {
    t.sync.None? ==> SizedCommands(AfterTick(s, t, settings, est).commands, settings, est)
  }

  // A tick of the handover slots, without a sync.
  const HANDOVER_TICK := Tick(0, 0, None, Handover.InclusionOnly, 0, true)

  lemma {:induction false} SubmitSends(s: State, deadline: nat)
    requires s.outstanding.blocks != []
    ensures var r := AfterSubmit(s, deadline);
            |r.commands| > |s.commands| && r.commands[|s.commands|] == Submission.Submit(Submission.Request(s.outstanding, deadline))
  {}

  lemma {:induction false} HandoverSubmits(s: State, settings: Settings, est: Estimate)
    requires s.outstanding.blocks != [] && !Proposable(s.outstanding, settings, est)
    ensures !TickSized(s, HANDOVER_TICK, settings, est)
  {
    hide AfterSubmit, Batch.AgeLimit, Proposable, AfterSync;
    var t := HANDOVER_TICK;
    var limit := s.outstanding.AgeLimit(t.nextTs, s.l1Tip + 1);
    SubmitSends(s, t.currentSlot + limit);
    var a := if limit <= settings.anchorMaxHeightBuffer then AfterSubmit(s, t.currentSlot + limit) else s;
    var b := a.(status := t.status);
    SubmitKeepsCommands(b, t.windowEnd);
    if !(limit <= settings.anchorMaxHeightBuffer) {
      SubmitSends(b, t.windowEnd);
    }
    var r := AfterTick(s, t, settings, est);
    assert r.commands == AfterSubmit(b, t.windowEnd).commands;
    assert !SizedCommand(r.commands[|s.commands|], settings, est);
  }

  lemma {:induction false} SubmitKeepsCommands(s: State, deadline: nat)
    ensures s.commands <= AfterSubmit(s, deadline).commands
  {}

  /**
   For one sync: whatever tick follows, only proposable batches are submitted, if and only if what the
   sync takes over fits.
   */
  lemma {:induction false} SyncFitsIff(s: State, i: SyncInput, settings: Settings, est: Estimate)
    requires Monotone(est) && settings.capacity >= 1 && SyncValid(i) && SizedCommands(s.commands, settings, est)
    ensures (forall t: Tick :: TickSized(AfterSync(s, i, settings, est), t, settings, est)) <==> SyncFits(i, settings, est)
  {
    hide AfterTick, Proposable, SyncValid, SizedCommands, IntoOutstanding;
    var r := AfterSync(s, i, settings, est);
    if SyncFits(i, settings, est) {
      SizedSync(s, i, settings, est);
      forall t: Tick ensures TickSized(r, t, settings, est) {
        if t.sync.None? {
          SizedTick(r, t, settings, est);
        }
      }
    } else {
      TakenOver(s, i, settings, est);
      if r.outstanding.blocks == [] {
        NoneProposable(r.outstanding, settings, est);
      }
      hide TickSized, AfterSync;
      HandoverSubmits(r, settings, est);
    }
  }

  lemma {:induction false} TakenOver(s: State, i: SyncInput, settings: Settings, est: Estimate)
    requires (i.status.SequencingOnly? || i.status.HandoverWait?) && i.origin < i.l2Head
    ensures AfterSync(s, i, settings, est).outstanding == IntoOutstanding(i.blocks, i.l1Anchor, settings)
  {
    hide HighestAnchor, WithAnchor, Blocks;
  }

  /** Two blocks on one anchor that together are over the target are taken over all the same. */
  lemma {:induction false} TakenOverTooLarge(i: SyncInput, tx: Tx, settings: Settings, est: Estimate)
    requires i.status.SequencingOnly? && i.origin < i.l2Head && settings.capacity >= 2
    requires i.blocks == [AnchoredBlock(Block(1, 0, 0, [tx]), Header(5, 0)), AnchoredBlock(Block(2, 0, 0, [tx]), Header(5, 0))]
    requires est(2 * tx.encodedLength) > settings.targetCompressedSize
    ensures SyncValid(i) && !SyncFits(i, settings, est)
  {
    var blocks := i.blocks;
    assert SortedBy(blocks, AnchorOf);
    assert SyncValid(i);
    OutstandingIsFinalRun(blocks, i.l1Anchor, settings);
    BothOnAnchor(blocks, settings.capacity);
    var r := IntoOutstanding(blocks, i.l1Anchor, settings).blocks;
    assert r == [Block(1, 0, 0, [tx]), Block(2, 0, 0, [tx])];
    SizeOfTwo(Block(1, 0, 0, [tx]), Block(2, 0, 0, [tx]), tx);
  }

  lemma {:induction false} BothOnAnchor(blocks: seq<AnchoredBlock>, capacity: nat)
    requires |blocks| == 2 && blocks[0].anchor == blocks[1].anchor && capacity >= 2
    ensures FinalRun(blocks, capacity) == blocks
  {
    var number := blocks[1].anchor.number;
    assert blocks[..1] == [blocks[0]] && [blocks[0]][..0] == [];
    assert RunStart([], number) == 0;
    assert RunStart([blocks[0]], number) == 0;
    assert RunStart(blocks, number) == 0;
  }

  lemma {:induction false} SizeOfTwo(a: Block, b: Block, tx: Tx)
    requires a.txs == [tx] && b.txs == [tx]
    ensures RawSize([a, b]) == 2 * tx.encodedLength
  {
    assert [a, b] == [a] + [b];
    RawSizeConcat([a], [b]);
    SizeOfOne(a, tx);
    SizeOfOne(b, tx);
  }

  lemma {:induction false} SizeOfOne(b: Block, tx: Tx)
    requires b.txs == [tx]
    ensures RawSize([b]) == tx.encodedLength
  {
    var blocks := [b];
    assert blocks[..|blocks| - 1] == [] && [tx][1..] == [];
    assert RawSize(blocks) == RawSize([]) + TxsSize(b.txs);
    assert TxsSize([tx]) == tx.encodedLength + TxsSize([]);
  }
}
