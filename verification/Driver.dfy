/**
 The driver's outstanding batch: the L2 blocks that were built but not yet handed to the
 submitter. Every event of the driver is a transition of a `State`; the class carries out the
 transitions in place.
 */
module Driver {
  import opened Integers
  import opened Wrappers
  import opened Batches
  import opened AnchoredBlocks
  import opened BatchLists
  import opened Reanchoring
  import opened Pipeline
  import opened Lookahead
  import Submission
  import Handover

  /** `commands` lists what was sent to the batch submitter. */
  datatype State = State(
    outstanding: Batch, l1Tip: nat, l1Anchor: Header, headL1Origin: nat, l2Head: nat,
    status: Handover.DriverStatus, commands: seq<Submission.Cmd>)

  /** A new L1 block, and what the calls it triggers return; None for a call that fails. */
  datatype L1Input = L1Input(
    tip: nat, anchorLag: nat, safeAnchor: Option<Header>, origin: Option<nat>,
    finalizing: bool, status: Handover.DriverStatus)

  /** A new L2 block, and what the calls it triggers return. */
  datatype L2Input = L2Input(
    number: nat, builtByUs: bool, origin: Option<nat>, anchorId: Option<nat>, anchor: Option<Header>)

  /** What a sync reads from the chains; `blocks` are those above the origin, downloaded. */
  datatype SyncInput = SyncInput(
    status: Handover.DriverStatus, l2Head: nat, origin: nat, l1Anchor: Header, blocks: seq<AnchoredBlock>,
    highestUnsafe: Header, highestUnsafeAnchor: nat, minProposableAnchor: nat, minTs: nat, maxTs: nat,
    deadline: nat)

  /** An L1 slot tick; a sync runs when a new inclusion window starts. */
  datatype Tick = Tick(
    nextTs: nat, currentSlot: nat, sync: Option<SyncInput>, status: Handover.DriverStatus,
    windowEnd: nat, finalizing: bool)

  // An empty batch is not sent.
  function Sent(b: Batch, deadline: nat): seq<Submission.Cmd> {
    if b.blocks == [] then [] else [Submission.Submit(Submission.Request(b, deadline))]
  }

  // The batches that have blocks, in order, each as a request.
  function Requests(batches: seq<Batch>, deadline: nat): seq<Submission.Cmd> {
    if batches == [] then []
    else Requests(batches[..|batches| - 1], deadline) + Sent(batches[|batches| - 1], deadline)
  }

  lemma {:induction false} RequestsLaws(batches: seq<Batch>, b: Batch, deadline: nat)
    ensures Requests([], deadline) == []
    ensures Requests(batches + [b], deadline) == Requests(batches, deadline) + Sent(b, deadline)
  {
    assert (batches + [b])[..|batches|] == batches;
  }

  // ---------- a block was built ----------

  // Whether blocks are missing between the outstanding batch and block `got`.
  predicate HasGap(b: Batch, got: nat) {
    b.blocks != [] && b.BlocksRange().1 + 1 <= SaturatingSub(got, 1)
  }

  // The downloaded blocks, if there was a gap and the download succeeded, and the new one.
  function BlocksToAdd(b: Batch, block: Block, gap: Option<seq<AnchoredBlock>>): seq<Block> {
    (if HasGap(b, block.number) && gap.Some? then Blocks(gap.value) else []) + [block]
  }

  function AfterProduced(s: State, block: Block, anchor: Header, gap: Option<seq<AnchoredBlock>>, deadline: nat, est: Estimate): State {
    var r := Packed(s.outstanding, BlocksToAdd(s.outstanding, block, gap), anchor, est);
    s.(outstanding := r[|r| - 1],
       commands := s.commands + if s.status.CanPropose() then Requests(r[..|r| - 1], deadline) else [])
  }

  // ---------- L1 and L2 blocks ----------

  function WithFreshAnchor(s: State, finalizing: bool): State {
    if s.outstanding.blocks == [] && !finalizing then s.(outstanding := s.outstanding.(anchor := s.l1Anchor)) else s
  }

  function AfterL1Update(s: State, i: L1Input): State {
    var newSafe, a := SaturatingSub(i.tip, i.anchorLag), s.(l1Tip := i.tip);
    if a.l1Anchor.number < newSafe && i.safeAnchor.None? then a
    else
      var b := if a.l1Anchor.number < newSafe then a.(l1Anchor := i.safeAnchor.value) else a;
      if i.origin.None? then b
      else
        var left := b.outstanding.(blocks := BlocksAfter(b.outstanding.blocks, i.origin.value));
        WithFreshAnchor(b.(headL1Origin := i.origin.value, outstanding := left), i.finalizing).(status := i.status)
  }

  function AfterL2Block(s: State, i: L2Input): State {
    var a := if i.number < s.l2Head then
               s.(commands := s.commands + [Submission.ClearQueue],
                  outstanding := s.outstanding.Before(i.number),
                  headL1Origin := i.origin.GetOr(s.headL1Origin))
             else s;
    var b := a.(l2Head := i.number);
    if !i.builtByUs && i.anchorId.Some? && i.anchorId.value > b.l1Anchor.number && i.anchor.Some?
    then b.(l1Anchor := i.anchor.value) else b
  }

  // ---------- submitting and syncing ----------

  function AfterSubmit(s: State, deadline: nat): State {
    s.(outstanding := s.outstanding.(blocks := [], anchor := s.l1Anchor),
       commands := s.commands + Sent(s.outstanding, deadline))
  }

  // The anchor to move blocks to. When the highest unsafe block has a higher anchor, the program
  // takes the header of that L2 block, not of its anchor.
  function SafeAnchor(i: SyncInput): Header {
    if i.highestUnsafeAnchor > i.l1Anchor.number then i.highestUnsafe else i.l1Anchor
  }

  function BoundsOf(i: SyncInput): Bounds {
    Bounds(i.minProposableAnchor, SafeAnchor(i), i.minTs, i.maxTs)
  }

  function SyncedBatches(i: SyncInput, settings: Settings, est: Estimate): seq<Batch> {
    if i.l2Head <= i.origin then [EmptyBatch(i.l1Anchor, settings)]
    else
      match i.status
      case Inactive => [EmptyBatch(i.l1Anchor, settings)]
      case SequencingOnly | HandoverWait => [IntoOutstanding(i.blocks, i.l1Anchor, settings)]
      case InclusionOnly | Active => Created(i.blocks, settings, est, BoundsOf(i))
  }

  // The last batch becomes the outstanding one if it carries the operator's coinbase.
  predicate LastIsOwn(batches: seq<Batch>, settings: Settings) {
    batches != [] && batches[|batches| - 1].coinbase == settings.defaultCoinbase
  }

  function Kept(batches: seq<Batch>, anchor: Header, settings: Settings): Batch {
    if LastIsOwn(batches, settings) then batches[|batches| - 1] else EmptyBatch(anchor, settings)
  }

  function Proposed(batches: seq<Batch>, settings: Settings): seq<Batch> {
    if LastIsOwn(batches, settings) then batches[..|batches| - 1] else batches
  }

  function AfterSync(s: State, i: SyncInput, settings: Settings, est: Estimate): State {
    var batches := SyncedBatches(i, settings, est);
    s.(status := i.status,
       outstanding := Kept(batches, s.l1Anchor, settings),
       commands := s.commands + if i.status.CanPropose() then Requests(Proposed(batches, settings), i.deadline) else [])
  }

  function AfterTick(s: State, t: Tick, settings: Settings, est: Estimate): State {
    var slotsLeft := s.outstanding.AgeLimit(t.nextTs, s.l1Tip + 1);
    var a := if slotsLeft <= settings.anchorMaxHeightBuffer then AfterSubmit(s, t.currentSlot + slotsLeft) else s;
    var b := match t.sync
             case Some(i) => AfterSync(a, i, settings, est)
             case None => a.(status := t.status);
    var c := if b.status.InclusionOnly? then AfterSubmit(b, t.windowEnd) else b;
    WithFreshAnchor(c, t.finalizing)
  }

  // Whether the epochs have the one of the slot, and not the one before; never in epoch 0.
  predicate IsNewIn(epochs: set<nat>, slot: nat) {
    slot / EPOCH_SLOTS in epochs && SaturatingSub(slot, EPOCH_SLOTS) / EPOCH_SLOTS !in epochs
  }

  // The tick that a timestamp makes for a node that knows these epochs to be its own, which end at
  // `end`. A sync runs in the first slot of a new inclusion window, with the status of that slot.
  function TickOf(cfg: Handover.Config, epochs: set<nat>, end: nat, past: bool, timestamp: nat, now: nat,
                  sync: SyncInput, finalizing: bool, routerSet: bool): Tick
    requires cfg.Valid()
  {
    var slot := cfg.SlotOf(timestamp);
    var status := if routerSet then Handover.StatusAt(epochs, cfg.handoverWindowSlots, slot, past) else Handover.Inactive;
    var starts := slot % EPOCH_SLOTS == 0 && IsNewIn(epochs, slot);
    Tick(timestamp + cfg.l1BlockTime, cfg.SlotOf(now),
         if starts then Some(sync.(status := status, deadline := end)) else None, status, end, finalizing)
  }

  // ---------- the driver ----------

  class Driver {
    const settings: Settings
    const est: Estimate
    var outstandingBatch: MutableBatch
    var l1Tip: nat
    var l1Anchor: Header
    var headL1Origin: nat
    var l2Head: nat
    var status: Handover.DriverStatus
    var commands: seq<Submission.Cmd>

    constructor (settings: Settings, est: Estimate, l1Tip: nat, l1Anchor: Header, headL1Origin: nat, l2Head: nat)
      ensures this.settings == settings && this.est == est && fresh(outstandingBatch)
      ensures Value() == State(EmptyBatch(l1Anchor, settings), l1Tip, l1Anchor, headL1Origin, l2Head, Handover.Inactive, [])
    {
      this.settings, this.est := settings, est;
      this.l1Tip, this.l1Anchor, this.headL1Origin, this.l2Head := l1Tip, l1Anchor, headL1Origin, l2Head;
      status, commands := Handover.Inactive, [];
      outstandingBatch := new MutableBatch(EmptyBatch(l1Anchor, settings));
    }

    function Value(): State
      reads this, outstandingBatch
    {
      State(outstandingBatch.Value(), l1Tip, l1Anchor, headL1Origin, l2Head, status, commands)
    }

    method TriggerBatchSubmission(batch: Batch, deadline: nat)
      modifies this`commands
      ensures commands == old(commands) + Sent(batch, deadline)
    {
      if batch.blocks == [] {
        return;
      }
      commands := commands + [Submission.Submit(Submission.Request(batch, deadline))];
    }

    /** Adds blocks one by one; full batches are submitted if the driver can propose. */
    method AddBlocks(blocksToAdd: seq<Block>, anchor: Header, deadline: nat)
      modifies this`commands, outstandingBatch
      ensures var r := Packed(old(outstandingBatch.Value()), blocksToAdd, anchor, est);
              && outstandingBatch.Value() == r[|r| - 1]
              && commands == old(commands) + if status.CanPropose() then Requests(r[..|r| - 1], deadline) else []
    {
      hide Batch.AddBlock, Requests;
      ghost var start := outstandingBatch.Value();
      ghost var full: seq<Batch> := [];
      RequestsLaws([], start, deadline);
      var i := 0;
      while i < |blocksToAdd|
        invariant 0 <= i <= |blocksToAdd|
        invariant full + Packed(outstandingBatch.Value(), blocksToAdd[i..], anchor, est) == Packed(start, blocksToAdd, anchor, est)
        invariant commands == old(commands) + if status.CanPropose() then Requests(full, deadline) else []
      {
        assert blocksToAdd[i..][0] == blocksToAdd[i] && blocksToAdd[i..][1..] == blocksToAdd[i + 1..];
        var result := outstandingBatch.AddBlockAndResetIfFull(blocksToAdd[i], anchor, est);
        i := i + 1;
        if result.Full? {
          ConcatAssoc(full, [result.batch], Packed(outstandingBatch.Value(), blocksToAdd[i..], anchor, est));
          RequestsLaws(full, result.batch, deadline);
          if status.CanPropose() {
            TriggerBatchSubmission(result.batch, deadline);
          }
          full := full + [result.batch];
        }
      }
      ghost var r := Packed(start, blocksToAdd, anchor, est);
      assert r == full + [outstandingBatch.Value()];
      assert r[..|r| - 1] == full;
    }

    /** Adds a block that was built, after the blocks that are missing before it. */
    method OnProducedBlock(block: Block, anchor: Header, gap: Option<seq<AnchoredBlock>>, deadline: nat)
      modifies this`commands, outstandingBatch
      ensures Value() == AfterProduced(old(Value()), block, anchor, gap, deadline, est)
    {
      hide Packed, Requests, Blocks;
      var (_, end) := outstandingBatch.Value().BlocksRange();
      var blocksToAdd := [];
      if outstandingBatch.blocks != [] && end + 1 <= SaturatingSub(block.number, 1) && gap.Some? {
        blocksToAdd := Blocks(gap.value);
      }
      AddBlocks(blocksToAdd + [block], anchor, deadline);
    }

    method UpdateOutstandingBatchAnchorIfNeeded(finalizing: bool)
      modifies outstandingBatch
      ensures Value() == WithFreshAnchor(old(Value()), finalizing)
    {
      if outstandingBatch.blocks == [] && !finalizing {
        outstandingBatch.ChangeAnchor(l1Anchor);
      }
    }

    /** Refreshes the L1 view; stops at the first call that fails. */
    method UpdateL1Info(i: L1Input)
      modifies this`l1Tip, this`l1Anchor, this`headL1Origin, this`status, outstandingBatch
      ensures Value() == AfterL1Update(old(Value()), i)
    {
      l1Tip := i.tip;
      if l1Anchor.number < SaturatingSub(i.tip, i.anchorLag) {
        if i.safeAnchor.None? {
          return;
        }
        l1Anchor := i.safeAnchor.value;
      }
      if i.origin.None? {
        return;
      }
      headL1Origin := i.origin.value;
      outstandingBatch.RetainBlocksAfter(headL1Origin);
      UpdateOutstandingBatchAnchorIfNeeded(i.finalizing);
      status := i.status;
    }

    /** A lower number than before means a reorg: reorged blocks and queued batches are dropped. */
    method OnL2Block(i: L2Input)
      modifies this`commands, this`headL1Origin, this`l2Head, this`l1Anchor, outstandingBatch
      ensures Value() == AfterL2Block(old(Value()), i)
    {
      if i.number < l2Head {
        commands := commands + [Submission.ClearQueue];
        outstandingBatch.RetainBlocksBefore(i.number);
        if i.origin.Some? {
          headL1Origin := i.origin.value;
        }
      }
      l2Head := i.number;
      if i.builtByUs || i.anchorId.None? {
        return;
      }
      if i.anchorId.value > l1Anchor.number && i.anchor.Some? {
        l1Anchor := i.anchor.value;
      }
    }

    method SubmitLocalOutstandingBatch(deadline: nat)
      modifies this`commands, outstandingBatch
      ensures Value() == AfterSubmit(old(Value()), deadline)
    {
      var batch := outstandingBatch.TakeAndReset(l1Anchor);
      TriggerBatchSubmission(batch, deadline);
    }

    /** The batches of the blocks that are not safe yet, depending on the status. */
    method SyncBatches(i: SyncInput) returns (batches: seq<Batch>)
      requires settings.capacity >= 1 && ConsecutiveAnchored(i.blocks)
      ensures batches == SyncedBatches(i, settings, est)
    {
      if i.l2Head <= i.origin {
        return [EmptyBatch(i.l1Anchor, settings)];
      }
      match i.status
      case Inactive => batches := [EmptyBatch(i.l1Anchor, settings)];
      case SequencingOnly | HandoverWait => batches := [IntoOutstanding(i.blocks, i.l1Anchor, settings)];
      case InclusionOnly | Active =>
        var reasons;
        batches, reasons := CreateBatches(i.blocks, settings, est, BoundsOf(i));
    }

    method SubmitAll(batches: seq<Batch>, deadline: nat)
      modifies this`commands
      ensures commands == old(commands) + Requests(batches, deadline)
    {
      hide Requests, Sent;
      RequestsLaws([], EmptyBatch(l1Anchor, settings), deadline);
      var k := 0;
      while k < |batches|
        invariant 0 <= k <= |batches|
        invariant commands == old(commands) + Requests(batches[..k], deadline)
      {
        TriggerBatchSubmission(batches[k], deadline);
        RequestsLaws(batches[..k], batches[k], deadline);
        assert batches[..k + 1] == batches[..k] + [batches[k]];
        k := k + 1;
      }
      assert batches[..k] == batches;
    }

    method SyncAndPropose(i: SyncInput)
      requires settings.capacity >= 1 && ConsecutiveAnchored(i.blocks)
      modifies this`status, this`commands, this`outstandingBatch
      ensures Value() == AfterSync(old(Value()), i, settings, est) && fresh(outstandingBatch)
    {
      hide SyncedBatches, Requests;
      status := i.status;
      var batches := SyncBatches(i);
      ghost var all := batches;
      var popped;
      popped, batches := PopWithCoinbase(batches, settings.defaultCoinbase);
      var outstanding := popped.GetOr(EmptyBatch(l1Anchor, settings));
      assert outstanding == Kept(all, l1Anchor, settings) && batches == Proposed(all, settings);
      if status.CanPropose() {
        SubmitAll(batches, i.deadline);
      }
      outstandingBatch := new MutableBatch(outstanding);
    }

    /**
     An L1 slot tick. Which status follows, whether a sync runs and up to when batches can be proposed
     is what the windows of the node say.
     */
    method OnL1SlotTick(timestamp: nat, now: nat, node: Handover.Node, sync: SyncInput, finalizing: bool, routerSet: bool)
      requires node.Valid() && settings.capacity >= 1 && ConsecutiveAnchored(sync.blocks)
      modifies this, outstandingBatch
      ensures exists end: nat ::
                && IsEnd(node.inclusion.Epochs(), 0, end)
                && Value() == AfterTick(old(Value()),
                                        TickOf(node.cfg, node.inclusion.Epochs(), end, node.IsPastHandoverBuffer(now),
                                               timestamp, now, sync, finalizing, routerSet),
                                        settings, est)
      ensures outstandingBatch == old(outstandingBatch) || fresh(outstandingBatch)
    {
      ghost var epochs, past := node.inclusion.Epochs(), node.IsPastHandoverBuffer(now);
      var t, end := TickFor(node, timestamp, now, sync, finalizing, routerSet);
      hide *;
      HandleTick(t);
      assert node.inclusion.Epochs() == epochs;
      assert node.IsPastHandoverBuffer(now) == past;
    }

    /** What the windows of the node say about a timestamp. */
    method TickFor(node: Handover.Node, timestamp: nat, now: nat, sync: SyncInput, finalizing: bool, routerSet: bool)
      returns (t: Tick, end: nat)
      requires node.Valid()
      ensures IsEnd(node.inclusion.Epochs(), 0, end)
      ensures t == TickOf(node.cfg, node.inclusion.Epochs(), end, node.IsPastHandoverBuffer(now),
                          timestamp, now, sync, finalizing, routerSet)
      ensures t.sync.Some? ==> t.sync.value.blocks == sync.blocks
    {
      var slot := node.cfg.SlotOf(timestamp);
      var status := Handover.Inactive;
      if routerSet {
        status := node.Status(slot, now);
      }
      end := node.inclusion.End();
      var starts := slot % EPOCH_SLOTS == 0 && node.inclusion.IsNew(slot);
      t := Tick(timestamp + node.cfg.l1BlockTime, node.cfg.SlotOf(now),
                if starts then Some(sync.(status := status, deadline := end)) else None, status, end, finalizing);
    }

    /** Carries out a tick: age check, sync or new status, handover submission, anchor refresh. */
    method HandleTick(t: Tick)
      requires settings.capacity >= 1 && (t.sync.Some? ==> ConsecutiveAnchored(t.sync.value.blocks))
      modifies this, outstandingBatch
      ensures Value() == AfterTick(old(Value()), t, settings, est)
      ensures outstandingBatch == old(outstandingBatch) || fresh(outstandingBatch)
    {
      hide AfterSync, AfterSubmit, WithFreshAnchor, Batch.AgeLimit;
      var slotsLeft := outstandingBatch.Value().AgeLimit(t.nextTs, l1Tip + 1);
      if slotsLeft <= settings.anchorMaxHeightBuffer {
        SubmitLocalOutstandingBatch(t.currentSlot + slotsLeft);
      }
      if t.sync.Some? {
        SyncAndPropose(t.sync.value);
      } else {
        status := t.status;
      }
      if status.InclusionOnly? {
        SubmitLocalOutstandingBatch(t.windowEnd);
      }
      UpdateOutstandingBatchAnchorIfNeeded(t.finalizing);
    }
  }
}
