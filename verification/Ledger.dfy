/** No block is lost: what a driver that can propose has added is submitted, outstanding or on L1. */
module Ledger {
  import opened Wrappers
  import opened Batches
  import opened AnchoredBlocks
  import opened BatchLists
  import opened Sorting
  import opened PipelineOrder
  import opened PipelineResults
  import opened Driver
  import opened DriverRuns
  import Submission
  import Handover

  /** The blocks of all batches that were submitted. */
  function Submitted(commands: seq<Submission.Cmd>): seq<Block> {
    if commands == [] then []
    else
      var last := commands[|commands| - 1];
      Submitted(commands[..|commands| - 1]) + if last.Submit? then last.request.batch.blocks else []
  }

  lemma {:induction false} SubmittedSnoc(commands: seq<Submission.Cmd>, cmd: Submission.Cmd)
    ensures Submitted(commands + [cmd]) == Submitted(commands) + if cmd.Submit? then cmd.request.batch.blocks else []
  {
    assert (commands + [cmd])[..|commands|] == commands;
  }

  lemma {:induction false} SubmittedRequests(commands: seq<Submission.Cmd>, batches: seq<Batch>, deadline: nat)
    ensures Submitted(commands + Requests(batches, deadline)) == Submitted(commands) + Flatten(batches)
    decreases |batches|
  {
    if batches == [] {
      assert commands + Requests(batches, deadline) == commands;
      assert Submitted(commands) + [] == Submitted(commands);
    } else {
      hide *;
      var front, last := batches[..|batches| - 1], batches[|batches| - 1];
      SubmittedRequests(commands, front, deadline);
      assert batches == front + [last];
      RequestsLaws(front, last, deadline);
      FlattenSnoc(front, last);
      SubmittedSent(commands + Requests(front, deadline), last, deadline);
      ConcatAssoc(commands, Requests(front, deadline), Sent(last, deadline));
      ConcatAssoc(Submitted(commands), Flatten(front), last.blocks);
    }
  }

  lemma {:induction false} SubmittedSent(commands: seq<Submission.Cmd>, b: Batch, deadline: nat)
    ensures Submitted(commands + Sent(b, deadline)) == Submitted(commands) + b.blocks
  {
    if b.blocks == [] {
      assert commands + [] == commands;
    } else {
      SubmittedSnoc(commands, Submission.Submit(Submission.Request(b, deadline)));
    }
  }

  // The same block, perhaps with another timestamp.
  predicate SameBlock(a: Block, b: Block) {
    a.(timestamp := b.timestamp) == b
  }

  // A sync that can propose reads a chain that holds the outstanding blocks above the origin.
  ghost predicate ChainHolds(s: State, i: SyncInput) {
    && SyncValid(i) && i.status.CanPropose()
    && forall b :: b in s.outstanding.blocks && b.number > i.origin ==>
         i.origin < i.l2Head && exists x :: x in Blocks(i.blocks) && SameBlock(x, b)
  }

  // A driver that can propose builds blocks one after the other, and nothing is reorged.
  ghost predicate Steady(s: State, e: Event) {
    match e
    case Produced(block, _, gap, _) =>
      && s.status.CanPropose() && GapFilled(s, block, gap)
      && (s.outstanding.blocks != [] ==> block.number > s.outstanding.BlocksRange().1)
    case L1Block(_) => true
    case L2Block(i) => i.number >= s.l2Head
    case Sync(i) => ChainHolds(s, i)
    case SlotTick(t) => t.sync.Some? ==> ChainHolds(s, t.sync.value)
    case EndOfSequencing(_) => true
  }

  ghost predicate SteadyRun(start: State, events: seq<Event>, settings: Settings, est: Estimate)
    decreases |events|
  {
    events != [] ==>
      && SteadyRun(start, events[..|events| - 1], settings, est)
      && Steady(Run(start, events[..|events| - 1], settings, est), events[|events| - 1])
  }

  function AddedBy(s: State, e: Event): seq<Block> {
    match e
    case Produced(block, _, gap, _) => BlocksToAdd(s.outstanding, block, gap)
    case _ => []
  }

  function Added(start: State, events: seq<Event>, settings: Settings, est: Estimate): seq<Block>
    decreases |events|
  {
    if events == [] then []
    else
      var front := events[..|events| - 1];
      Added(start, front, settings, est) + AddedBy(Run(start, front, settings, est), events[|events| - 1])
  }

  // What the event read from L1 says that the block with this number is in an L1 batch.
  predicate MakesSafe(e: Event, number: nat) {
    match e
    case L1Block(i) => i.origin.Some? && number <= i.origin.value
    case Sync(i) => number <= i.origin
    case SlotTick(t) => t.sync.Some? && number <= t.sync.value.origin
    case _ => false
  }

  predicate Safe(events: seq<Event>, number: nat) {
    exists i :: 0 <= i < |events| && MakesSafe(events[i], number)
  }

  function InHand(s: State): seq<Block> {
    Submitted(s.commands) + s.outstanding.blocks
  }

  lemma {:induction false} ProducedLosesNothing(
    s: State, block: Block, anchor: Header, gap: Option<seq<AnchoredBlock>>, deadline: nat, settings: Settings, est: Estimate)
    requires settings.capacity >= 1 && Sound(s, settings) && Steady(s, Produced(block, anchor, gap, deadline))
    ensures InHand(AfterProduced(s, block, anchor, gap, deadline, est)) == InHand(s) + BlocksToAdd(s.outstanding, block, gap)
  {
    var add := BlocksToAdd(s.outstanding, block, gap);
    FilledIsWithin(s, block, gap);
    AllBelow(s, block, gap);
    hide Sound, GapFilled, GapWithin, AfterProduced, BlocksToAdd, Requests, Flatten, Submitted;
    var full := ProducedConserves(s, block, anchor, gap, deadline, settings, est);
    SubmittedRequests(s.commands, full, deadline);
    hide *;
    Regroup(Submitted(s.commands), Flatten(full),
            AfterProduced(s, block, anchor, gap, deadline, est).outstanding.blocks, s.outstanding.blocks, add);
    HandOf(s);
    HandOf(AfterProduced(s, block, anchor, gap, deadline, est));
  }

  lemma {:induction false} HandOf(s: State)
    ensures InHand(s) == Submitted(s.commands) + s.outstanding.blocks
  {}

  lemma {:induction false} Regroup(before: seq<Block>, full: seq<Block>, last: seq<Block>, kept: seq<Block>, add: seq<Block>)
    requires full + last == kept + add
    ensures before + full + last == before + kept + add
  {
    assert before + full + last == before + (full + last);
    assert before + kept + add == before + (kept + add);
  }

  // A block that follows the outstanding ones replaces none of them.
  lemma {:induction false} AllBelow(s: State, block: Block, gap: Option<seq<AnchoredBlock>>)
    requires Increasing(s.outstanding) && GapFilled(s, block, gap)
    requires s.outstanding.blocks != [] ==> block.number > s.outstanding.BlocksRange().1
    ensures BlocksBefore(s.outstanding.blocks, BlocksToAdd(s.outstanding, block, gap)[0].number) == s.outstanding.blocks
  {
    var add := BlocksToAdd(s.outstanding, block, gap);
    if s.outstanding.blocks != [] {
      LastIsLargest(s.outstanding.blocks);
      assert add[0].number > s.outstanding.BlocksRange().1;
    }
    BlocksBeforeAll(s.outstanding.blocks, add[0].number);
  }

  lemma {:induction false} SubmitLosesNothing(s: State, deadline: nat)
    ensures InHand(AfterSubmit(s, deadline)) == InHand(s)
  {
    SubmittedSent(s.commands, s.outstanding, deadline);
  }

  lemma {:induction false} TickLosesNothing(s: State, t: Tick, settings: Settings, est: Estimate)
    requires t.sync.None?
    ensures InHand(AfterTick(s, t, settings, est)) == InHand(s)
  {
    hide Batch.AgeLimit, AfterSync, AfterSubmit, InHand, WithFreshAnchor;
    var limit := s.outstanding.AgeLimit(t.nextTs, s.l1Tip + 1);
    SubmitLosesNothing(s, t.currentSlot + limit);
    var a := if limit <= settings.anchorMaxHeightBuffer then AfterSubmit(s, t.currentSlot + limit) else s;
    var b := a.(status := t.status);
    SubmitLosesNothing(b, t.windowEnd);
    StatusKeepsHand(a, t.status);
    AnchorKeepsHand(if b.status.InclusionOnly? then AfterSubmit(b, t.windowEnd) else b, t.finalizing);
  }

  lemma {:induction false} StatusKeepsHand(s: State, status: Handover.DriverStatus)
    ensures InHand(s.(status := status)) == InHand(s)
  {}

  lemma {:induction false} AnchorKeepsHand(s: State, finalizing: bool)
    ensures InHand(WithFreshAnchor(s, finalizing)) == InHand(s)
  {}

  // ---------- syncs ----------

  // The driver still has the block, up to its timestamp.
  ghost predicate Holds(s: State, b: Block) {
    exists x :: x in InHand(s) && SameBlock(x, b)
  }

  lemma {:induction false} RetimedHolds(before: seq<Block>, after: seq<Block>, c: nat, minTs: nat, maxTs: nat, x: Block)
    returns (y: Block)
    requires RetimedFrom(before, after, c, minTs, maxTs) && x in before
    ensures y in after && SameBlock(y, x)
  {
    RetimedTimestamps(before, after, c, minTs, maxTs);
    var k :| 0 <= k < |before| && before[k] == x;
    y := after[k];
  }

  // A sync that can propose takes every block of the chain that it reads.
  lemma {:induction false} SyncGathers(s: State, i: SyncInput, settings: Settings, est: Estimate, y: Block)
    requires Monotone(est) && settings.capacity >= 1 && SyncValid(i) && i.status.CanPropose() && i.origin < i.l2Head
    requires y in Blocks(i.blocks)
    ensures Holds(AfterSync(s, i, settings, est), y)
  {
    var r := AfterSync(s, i, settings, est);
    hide AfterSync, SyncValid, Flatten, RetimedFrom, InBatchOrder, Requests, Submitted;
    var submitted, c := SyncConserves(s, i, settings, est);
    var base := InBatchOrder(i.blocks, settings, est, BoundsOf(i));
    assert y in multiset(base);
    var z := RetimedHolds(base, Flatten(submitted) + r.outstanding.blocks, c, i.minTs, i.maxTs, y);
    SubmittedRequests(s.commands, submitted, i.deadline);
    assert z in InHand(r) && SameBlock(z, y);
  }

  // Of what the sync replaces, nothing above the origin is lost.
  lemma {:induction false} SyncLosesNothing(s: State, i: SyncInput, settings: Settings, est: Estimate, x: Block)
    requires Monotone(est) && settings.capacity >= 1 && ChainHolds(s, i)
    requires x in InHand(s) && x.number > i.origin
    ensures Holds(AfterSync(s, i, settings, est), x)
  {
    hide AfterSync, SyncValid, Submitted;
    if x in s.outstanding.blocks {
      var y :| y in Blocks(i.blocks) && SameBlock(y, x);
      SyncGathers(s, i, settings, est, y);
      HoldsSame(AfterSync(s, i, settings, est), y, x);
    } else {
      StillSubmitted(s, i, settings, est, x);
    }
  }

  lemma {:induction false} StillSubmitted(s: State, i: SyncInput, settings: Settings, est: Estimate, x: Block)
    requires x in Submitted(s.commands)
    ensures Holds(AfterSync(s, i, settings, est), x)
  {
    var r := AfterSync(s, i, settings, est);
    hide SyncedBatches, Requests, Submitted;
    SubmittedRequests(s.commands, Proposed(SyncedBatches(i, settings, est), settings), i.deadline);
    assert s.commands + [] == s.commands;
    assert x in InHand(r) && SameBlock(x, x);
  }

  lemma {:induction false} TickSyncLosesNothing(s: State, t: Tick, settings: Settings, est: Estimate, x: Block)
    requires Monotone(est) && settings.capacity >= 1
    requires t.sync.Some? && ChainHolds(s, t.sync.value)
    requires x in InHand(s) && x.number > t.sync.value.origin
    ensures Holds(AfterTick(s, t, settings, est), x)
  {
    hide Batch.AgeLimit, AfterSync, InHand, WithFreshAnchor, SameBlock;
    var limit := s.outstanding.AgeLimit(t.nextTs, s.l1Tip + 1);
    SubmitLosesNothing(s, t.currentSlot + limit);
    var a := if limit <= settings.anchorMaxHeightBuffer then AfterSubmit(s, t.currentSlot + limit) else s;
    SyncLosesNothing(a, t.sync.value, settings, est, x);
    hide AfterSubmit;
    var b := AfterSync(a, t.sync.value, settings, est);
    SubmitLosesNothing(b, t.windowEnd);
    AnchorKeepsHand(if b.status.InclusionOnly? then AfterSubmit(b, t.windowEnd) else b, t.finalizing);
  }

  // ---------- the main result ----------

  lemma {:induction false} StepLosesNothing(s: State, e: Event, settings: Settings, est: Estimate, x: Block)
    requires Monotone(est) && settings.capacity >= 1 && Sound(s, settings) && Steady(s, e)
    requires x in InHand(s) || x in AddedBy(s, e)
    ensures Holds(Step(s, e, settings, est), x) || MakesSafe(e, x.number)
  {
    assert SameBlock(x, x);
    hide AfterProduced, AfterTick, AfterSync, GapFilled, BlocksToAdd, BlocksAfter, StrictlySortedBy, Submitted, SameBlock, ChainHolds;
    match e
    case Produced(block, anchor, gap, deadline) =>
      ProducedLosesNothing(s, block, anchor, gap, deadline, settings, est);
    case L1Block(i) =>
      if i.origin.Some? && x in s.outstanding.blocks && x.number > i.origin.value {
        StillThere(s.outstanding.blocks, i.origin.value, x);
      }
    case L2Block(i) =>
    case Sync(i) =>
      if x.number > i.origin {
        SyncLosesNothing(s, i, settings, est, x);
      }
    case SlotTick(t) =>
      if t.sync.None? {
        TickLosesNothing(s, t, settings, est);
      } else if x.number > t.sync.value.origin {
        TickSyncLosesNothing(s, t, settings, est, x);
      }
    case EndOfSequencing(status) =>
      StatusKeepsHand(s, status);
  }

  lemma {:induction false} HoldsSame(s: State, x: Block, b: Block)
    requires Holds(s, x) && SameBlock(x, b)
    ensures Holds(s, b) && x.number == b.number
  {
    var y :| y in InHand(s) && SameBlock(y, x);
    assert SameBlock(y, b);
  }

  /**
   No block is lost. While the driver can propose and nothing is reorged, every block it had or added
   is in a submitted batch or in the outstanding batch, up to a timestamp reset by a sync, or was
   reported to be in an L1 batch.
   */
  lemma {:induction false} NoBlockLost(start: State, events: seq<Event>, settings: Settings, est: Estimate, b: Block)
    requires Monotone(est) && settings.capacity >= 1 && Sound(start, settings)
    requires SteadyRun(start, events, settings, est)
    requires b in InHand(start) || b in Added(start, events, settings, est)
    ensures Holds(Run(start, events, settings, est), b) || Safe(events, b.number)
    decreases |events|
  {
    hide Sound, Step, AddedBy, InHand, MakesSafe, SameBlock;
    if events == [] {
      StartHolds(start, b);
    } else {
      var front, e := events[..|events| - 1], events[|events| - 1];
      var s := Run(start, front, settings, est);
      SteadyRunSound(start, front, settings, est);
      if b in InHand(start) || b in Added(start, front, settings, est) {
        NoBlockLost(start, front, settings, est, b);
        if Holds(s, b) {
          var x :| x in InHand(s) && SameBlock(x, b);
          StepLosesNothing(s, e, settings, est, x);
          if Holds(Step(s, e, settings, est), x) {
            HoldsSame(Step(s, e, settings, est), x, b);
          } else {
            SameNumber(x, b);
            assert MakesSafe(events[|events| - 1], b.number);
          }
        } else {
          var i :| 0 <= i < |front| && MakesSafe(front[i], b.number);
          assert MakesSafe(events[i], b.number);
        }
      } else {
        StepLosesNothing(s, e, settings, est, b);
        assert MakesSafe(e, b.number) ==> MakesSafe(events[|events| - 1], b.number);
      }
    }
  }

  lemma {:induction false} SameNumber(x: Block, b: Block)
    requires SameBlock(x, b)
    ensures x.number == b.number
  {}

  lemma {:induction false} StartHolds(s: State, b: Block)
    requires b in InHand(s)
    ensures Holds(s, b)
  {
    assert SameBlock(b, b);
  }

  // ---------- handing over ----------

  // The sync of an event, if it has one: on its own, or at the tick that starts an inclusion window.
  function SyncOf(e: Event): Option<SyncInput> {
    match e
    case Sync(i) => Some(i)
    case SlotTick(t) => t.sync
    case _ => None
  }

  // A sync that can propose reads a chain that holds these blocks, as far as they are above the origin.
  ghost predicate ReadsAll(i: SyncInput, known: seq<Block>) {
    && SyncValid(i) && i.status.CanPropose()
    && forall b :: b in known && b.number > i.origin ==>
         i.origin < i.l2Head && exists x :: x in Blocks(i.blocks) && SameBlock(x, b)
  }

  lemma {:induction false} TickGathers(s: State, t: Tick, settings: Settings, est: Estimate, y: Block)
    requires Monotone(est) && settings.capacity >= 1 && t.sync.Some?
    requires var i := t.sync.value;
             SyncValid(i) && i.status.CanPropose() && i.origin < i.l2Head && y in Blocks(i.blocks)
    ensures Holds(AfterTick(s, t, settings, est), y)
  {
    hide Batch.AgeLimit, AfterSync, InHand, WithFreshAnchor, SameBlock, SyncValid;
    var limit := s.outstanding.AgeLimit(t.nextTs, s.l1Tip + 1);
    var a := if limit <= settings.anchorMaxHeightBuffer then AfterSubmit(s, t.currentSlot + limit) else s;
    SyncGathers(a, t.sync.value, settings, est, y);
    hide AfterSubmit;
    var b := AfterSync(a, t.sync.value, settings, est);
    SubmitLosesNothing(b, t.windowEnd);
    AnchorKeepsHand(if b.status.InclusionOnly? then AfterSubmit(b, t.windowEnd) else b, t.finalizing);
  }

  lemma {:induction false} SyncedHolds(s: State, e: Event, settings: Settings, est: Estimate, known: seq<Block>, b: Block)
    requires Monotone(est) && settings.capacity >= 1 && SyncOf(e).Some? && ReadsAll(SyncOf(e).value, known)
    requires b in known && b.number > SyncOf(e).value.origin
    ensures Holds(Step(s, e, settings, est), b)
  {
    hide AfterSync, AfterTick, SyncValid, Holds;
    var i := SyncOf(e).value;
    var y :| y in Blocks(i.blocks) && SameBlock(y, b);
    if e.Sync? {
      SyncGathers(s, i, settings, est, y);
    } else {
      TickGathers(s, e.tick, settings, est, y);
    }
    HoldsSame(Step(s, e, settings, est), y, b);
  }

  /**
   Blocks built while the driver could only sequence are not lost either, although a batch that fills up
   then is dropped. Whatever happened before, a sync that can propose and reads a chain with the blocks
   of the driver gets them back, and from then on they stay, as long as nothing is reorged.
   */
  lemma {:induction false} HandedOver(start: State, before: seq<Event>, e: Event, after: seq<Event>,
                                      settings: Settings, est: Estimate, b: Block)
    requires Monotone(est) && settings.capacity >= 1 && Sound(start, settings)
    requires ValidRun(start, before, settings, est) && SyncOf(e).Some?
    requires ReadsAll(SyncOf(e).value, start.outstanding.blocks + Added(start, before, settings, est))
    requires SteadyRun(Step(Run(start, before, settings, est), e, settings, est), after, settings, est)
    requires b in start.outstanding.blocks + Added(start, before, settings, est)
    ensures var s := Step(Run(start, before, settings, est), e, settings, est);
            || Holds(Run(s, after, settings, est), b)
            || b.number <= SyncOf(e).value.origin || Safe(after, b.number)
  {
    hide Sound, Step, Holds, MakesSafe, ReadsAll, SteadyRun, ValidRun;
    var known := start.outstanding.blocks + Added(start, before, settings, est);
    var s0 := Run(start, before, settings, est);
    var s := Step(s0, e, settings, est);
    RunKeepsSound(start, before, settings, est);
    GatheringValid(s0, e, known);
    StepKeeps(s0, e, settings, est);
    if b.number > SyncOf(e).value.origin {
      SyncedHolds(s0, e, settings, est, known, b);
      var x := WhatIsHeld(s, b);
      NoBlockLost(s, after, settings, est, x);
      if Holds(Run(s, after, settings, est), x) {
        HoldsSame(Run(s, after, settings, est), x, b);
      }
    }
  }

  lemma {:induction false} WhatIsHeld(s: State, b: Block) returns (x: Block)
    requires Holds(s, b)
    ensures x in InHand(s) && SameBlock(x, b) && x.number == b.number
  {
    x :| x in InHand(s) && SameBlock(x, b);
  }

  lemma {:induction false} GatheringValid(s: State, e: Event, known: seq<Block>)
    requires SyncOf(e).Some? && ReadsAll(SyncOf(e).value, known)
    ensures Valid(s, e)
  {}

  lemma {:induction false} SteadyRunSound(start: State, events: seq<Event>, settings: Settings, est: Estimate)
    requires Monotone(est) && settings.capacity >= 1 && Sound(start, settings)
    requires SteadyRun(start, events, settings, est)
    ensures Sound(Run(start, events, settings, est), settings)
    decreases |events|
  {
    hide Sound, Step, Valid;
    if events != [] {
      var s, e := Run(start, events[..|events| - 1], settings, est), events[|events| - 1];
      SteadyRunSound(start, events[..|events| - 1], settings, est);
      SteadyValid(s, e);
      StepKeeps(s, e, settings, est);
    }
  }

  lemma {:induction false} SteadyValid(s: State, e: Event)
    requires Steady(s, e)
    ensures Valid(s, e)
  {
    if e.Produced? {
      FilledIsWithin(s, e.block, e.gap);
    }
  }
}
