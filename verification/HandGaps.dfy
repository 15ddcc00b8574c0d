/**
 When what the driver has submitted, followed by its outstanding batch, is without a gap. The driver
 looks for missing blocks only while its outstanding batch has blocks.
 */
module HandGaps {
  import opened Batches
  import opened AnchoredBlocks
  import opened Driver
  import opened DriverRuns
  import opened Ledger
  import opened DriverQueue

  // The event drops no outstanding block.
  ghost predicate DropsNothing(s: State, e: Event) {
    e.L1Block? && e.l1.origin.Some? ==>
      BlocksAfter(s.outstanding.blocks, e.l1.origin.value) == s.outstanding.blocks
  }

  // A block built on an empty outstanding batch follows the last one that was submitted.
  ghost predicate Meets(s: State, e: Event) {
    e.Produced? && s.outstanding.blocks == [] && InHand(s) != [] ==>
      e.block.number == InHand(s)[|InHand(s)| - 1].number + 1
  }

  lemma {:induction false} JoinIff(a: seq<Block>, b: seq<Block>)
    requires Consecutive(b) && b != []
    ensures Consecutive(a + b) <==> Consecutive(a) && (a != [] ==> b[0].number == a[|a| - 1].number + 1)
  {
    var all := a + b;
    if Consecutive(a) && (a != [] ==> b[0].number == a[|a| - 1].number + 1) {
      JoinConsecutive(a, b);
    }
    if Consecutive(all) {
      assert forall i :: 0 <= i < |a| ==> a[i] == all[i];
      assert all[|a|] == b[0];
    }
  }

  lemma {:induction false} AddedConsecutive(s: State, e: Event)
    requires e.Produced? && Growing(s, e)
    ensures var add := BlocksToAdd(s.outstanding, e.block, e.gap);
            && add != [] && Consecutive(add)
            && (s.outstanding.blocks != [] ==> add[0].number == s.outstanding.BlocksRange().1 + 1)
            && (s.outstanding.blocks == [] ==> add[0] == e.block)
  {
    var add := BlocksToAdd(s.outstanding, e.block, e.gap);
    if HasGap(s.outstanding, e.block.number) {
      assert forall i :: 0 <= i < |e.gap.value| ==> add[i].number == e.gap.value[i].block.number;
    }
  }

  lemma {:induction false} ProducedJoins(s: State, e: Event, settings: Settings, est: Estimate)
    requires settings.capacity >= 1 && Sound(s, settings) && e.Produced? && Growing(s, e)
    ensures Consecutive(InHand(Step(s, e, settings, est))) <==> Consecutive(InHand(s)) && Meets(s, e)
  {
    hide AfterProduced, BlocksToAdd, Submitted, GapFilled, Consecutive;
    ProducedLosesNothing(s, e.block, e.anchor, e.gap, e.deadline, settings, est);
    AddedConsecutive(s, e);
    JoinIff(InHand(s), BlocksToAdd(s.outstanding, e.block, e.gap));
    if s.outstanding.blocks != [] {
      assert InHand(s)[|InHand(s)| - 1] == s.outstanding.blocks[|s.outstanding.blocks| - 1];
    }
  }

  lemma {:induction false} StepJoins(s: State, e: Event, settings: Settings, est: Estimate)
    requires settings.capacity >= 1 && Sound(s, settings) && Growing(s, e) && DropsNothing(s, e)
    ensures Consecutive(InHand(Step(s, e, settings, est))) <==> Consecutive(InHand(s)) && Meets(s, e)
  {
    hide AfterProduced, AfterTick, BlocksAfter, BlocksBefore, Submitted, Consecutive, InHand, Growing;
    match e
    case Produced(block, anchor, gap, deadline) =>
      ProducedJoins(s, e, settings, est);
    case L1Block(i) =>
      HandOf(s);
      HandOf(AfterL1Update(s, i));
    case L2Block(i) =>
      QuietL2Block(s, e);
      HandOf(s);
      HandOf(AfterL2Block(s, i));
    case Sync(i) =>
      NoSync(s, e);
      assert false;
    case SlotTick(t) =>
      NoSync(s, e);
      TickLosesNothing(s, t, settings, est);
    case EndOfSequencing(status) =>
      StatusKeepsHand(s, status);
  }

  lemma {:induction false} NoSync(s: State, e: Event)
    requires Growing(s, e)
    ensures !e.Sync? && (e.SlotTick? ==> e.tick.sync.None?)
  {}

  lemma {:induction false} QuietL2Block(s: State, e: Event)
    requires Growing(s, e) && e.L2Block?
    ensures e.l2.number >= s.l2Head
  {}

  ghost predicate QuietRun(start: State, events: seq<Event>, settings: Settings, est: Estimate)
    decreases |events|
  {
    events != [] ==>
      var front, e := events[..|events| - 1], events[|events| - 1];
      && QuietRun(start, front, settings, est)
      && Growing(Run(start, front, settings, est), e) && DropsNothing(Run(start, front, settings, est), e)
  }

  ghost predicate AllMeet(start: State, events: seq<Event>, settings: Settings, est: Estimate)
    decreases |events|
  {
    events != [] ==>
      var front, e := events[..|events| - 1], events[|events| - 1];
      AllMeet(start, front, settings, est) && Meets(Run(start, front, settings, est), e)
  }

  /**
   While the chain grows and no outstanding block is dropped, submitted blocks followed by the
   outstanding ones are without a gap if and only if every block built on an empty outstanding batch
   follows the last one submitted. All other gaps are filled; this one is not looked for.
   */
  lemma {:induction false} HandConsecutiveIff(start: State, events: seq<Event>, settings: Settings, est: Estimate)
    requires Monotone(est) && settings.capacity >= 1 && Sound(start, settings) && Ordered(start)
    requires Consecutive(InHand(start)) && QuietRun(start, events, settings, est)
    ensures Consecutive(InHand(Run(start, events, settings, est))) <==> AllMeet(start, events, settings, est)
    decreases |events|
  {
    hide Sound, Ordered, Growing, DropsNothing, Meets, Consecutive, InHand, Step;
    if events != [] {
      var front, e := events[..|events| - 1], events[|events| - 1];
      HandConsecutiveIff(start, front, settings, est);
      QuietIsGrowing(start, front, settings, est);
      RunOrdered(start, front, settings, est);
      StepJoins(Run(start, front, settings, est), e, settings, est);
    }
  }

  lemma {:induction false} QuietIsGrowing(start: State, events: seq<Event>, settings: Settings, est: Estimate)
    requires QuietRun(start, events, settings, est)
    ensures GrowingRun(start, events, settings, est)
    decreases |events|
  {
    hide Growing, DropsNothing;
    if events != [] {
      QuietIsGrowing(start, events[..|events| - 1], settings, est);
    }
  }
}
