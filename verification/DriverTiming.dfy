/**
 The age of the outstanding batch over the slots of a run. Between two ticks the batch grows, loses blocks
 at the front, is submitted when full and started anew; none of this makes it older.
 */
module DriverTiming {
  import opened Integers
  import opened Wrappers
  import opened Batches
  import opened AnchoredBlocks
  import opened BatchLists
  import opened Reanchoring
  import opened Sorting
  import opened PipelineResults
  import opened PipelineOrder
  import opened Driver
  import opened DriverRuns
  import Submission
  import Handover

  // The anchor is not ahead of the cached one, and timestamps do not decrease.
  ghost predicate Timed(s: State) {
    s.outstanding.anchor.number <= s.l1Anchor.number && TimestampsOrdered(s.outstanding.blocks)
  }

  // A block built since the tick, on the anchor of the batch or a newer one that was cached; no
  // block that is added is older than the first of the batch.
  ghost predicate TimelyBlock(s: State, block: Block, anchor: Header, gap: Option<seq<AnchoredBlock>>, nextTs: nat) {
    var add := BlocksToAdd(s.outstanding, block, gap);
    && GapWithin(s, block, gap)
    && s.outstanding.anchor.number <= anchor.number <= s.l1Anchor.number
    && TimestampsOrdered(BlocksBefore(s.outstanding.blocks, add[0].number) + add)
    && (if s.outstanding.blocks == [] then nextTs <= add[0].timestamp + SLOT_DURATION_SECS
        else s.outstanding.blocks[0].timestamp <= add[0].timestamp)
  }

  // What happens between two ticks, syncs apart.
  ghost predicate Timely(s: State, e: Event, nextTs: nat) {
    match e
    case Produced(block, anchor, gap, _) => TimelyBlock(s, block, anchor, gap, nextTs)
    case L1Block(_) => HeadersMatch(e)
    case L2Block(_) => HeadersMatch(e)
    case EndOfSequencing(_) => true
    case _ => false
  }

  ghost predicate TimelyRun(s: State, events: seq<Event>, nextTs: nat, settings: Settings, est: Estimate)
    decreases |events|
  {
    events != [] ==>
      && TimelyRun(s, events[..|events| - 1], nextTs, settings, est)
      && Timely(Run(s, events[..|events| - 1], settings, est), events[|events| - 1], nextTs)
  }

  lemma {:induction false} NotOlderTwice(a: Batch, b: Batch, c: Batch, nextTs: nat)
    requires NextTick(a, b, nextTs) && NextTick(b, c, nextTs)
    ensures NextTick(a, c, nextTs)
  {}

  lemma {:induction false} NotOlderThanItself(b: Batch, nextTs: nat)
    ensures NextTick(b, b, nextTs)
  {}

  // A batch keeps its anchor while it is filled, or gets the new one.
  lemma {:induction false} PackedAnchors(cursor: Batch, blocks: seq<Block>, anchor: Header, est: Estimate)
    ensures var r := Packed(cursor, blocks, anchor, est);
            var last := r[|r| - 1];
            last.settings == cursor.settings && (last.anchor == cursor.anchor || last.anchor == anchor)
    decreases |blocks|
  {
    hide Batch.DoesntFit, BlocksBefore;
    if blocks != [] {
      var (next, result) := cursor.AddBlock(blocks[0], anchor, est);
      PackedAnchors(next, blocks[1..], anchor, est);
    }
  }

  lemma {:induction false} OrderedEnd(a: seq<Block>, b: seq<Block>, ts: nat)
    requires TimestampsOrdered(a + b) && (a + b != [] ==> ts <= (a + b)[0].timestamp)
    ensures TimestampsOrdered(b) && (b != [] ==> ts <= b[0].timestamp)
  {
    var all := a + b;
    forall i, j | 0 <= i < j < |b| ensures b[i].timestamp <= b[j].timestamp {
      assert all[|a| + i] == b[i] && all[|a| + j] == b[j];
    }
    if b != [] {
      assert all[|a|] == b[0];
      assert 0 < |a| ==> all[0].timestamp <= all[|a|].timestamp;
    }
  }

  lemma {:induction false} PartOrdered(blocks: seq<Block>, from: nat, to: nat)
    requires from <= to <= |blocks| && TimestampsOrdered(blocks)
    ensures TimestampsOrdered(blocks[from..to])
    ensures from < to ==> blocks[0].timestamp <= blocks[from..to][0].timestamp
  {
    var part := blocks[from..to];
    assert forall i :: 0 <= i < |part| ==> part[i] == blocks[from + i];
    assert 0 < from < to ==> blocks[0].timestamp <= blocks[from].timestamp;
  }

  lemma {:induction false} ProducedTimely(
    s: State, block: Block, anchor: Header, gap: Option<seq<AnchoredBlock>>, deadline: nat, nextTs: nat, settings: Settings, est: Estimate)
    requires settings.capacity >= 1 && Sound(s, settings) && Timed(s) && TimelyBlock(s, block, anchor, gap, nextTs)
    ensures var r := AfterProduced(s, block, anchor, gap, deadline, est);
            NextTick(s.outstanding, r.outstanding, nextTs) && Timed(r)
  {
    var add := BlocksToAdd(s.outstanding, block, gap);
    var kept := BlocksBefore(s.outstanding.blocks, add[0].number);
    var k := BeforeIsPrefix(s.outstanding.blocks, add[0].number);
    var full := ProducedConserves(s, block, anchor, gap, deadline, settings, est);
    PackedAnchors(s.outstanding, add, anchor, est);
    var r := AfterProduced(s, block, anchor, gap, deadline, est).outstanding;
    var ts := (kept + add)[0].timestamp;
    assert kept != [] ==> kept[0] == s.outstanding.blocks[0];
    OrderedEnd(Flatten(full), r.blocks, ts);
    hide Packed, TimestampsOrdered, StrictlySortedBy, Flatten, BlocksBefore, GapWithin, Requests;
  }

  lemma {:induction false} AfterOrdered(blocks: seq<Block>, number: nat)
    requires StrictlySortedBy(blocks, BlockNumber) && TimestampsOrdered(blocks)
    ensures var r := BlocksAfter(blocks, number);
            TimestampsOrdered(r) && (r != [] ==> blocks != [] && blocks[0].timestamp <= r[0].timestamp)
  {
    hide StrictlySortedBy, TimestampsOrdered;
    var k := AfterIsSuffix(blocks, number);
    PartOrdered(blocks, k, |blocks|);
    assert blocks[k..] == blocks[k..|blocks|];
  }

  lemma {:induction false} L1Timely(s: State, i: L1Input, nextTs: nat)
    requires Increasing(s.outstanding) && Timed(s) && HeadersMatch(L1Block(i))
    ensures var r := AfterL1Update(s, i);
            NextTick(s.outstanding, r.outstanding, nextTs) && Timed(r)
  {
    hide TimestampsOrdered, StrictlySortedBy, BlocksAfter;
    if i.origin.Some? {
      AfterOrdered(s.outstanding.blocks, i.origin.value);
    }
  }

  lemma {:induction false} L2Timely(s: State, i: L2Input, nextTs: nat)
    requires Increasing(s.outstanding) && Timed(s) && HeadersMatch(L2Block(i))
    ensures var r := AfterL2Block(s, i);
            NextTick(s.outstanding, r.outstanding, nextTs) && Timed(r)
  {
    var k := BeforeIsPrefix(s.outstanding.blocks, i.number);
    PartOrdered(s.outstanding.blocks, 0, k);
    assert s.outstanding.blocks[..k] == s.outstanding.blocks[0..k];
    hide TimestampsOrdered, StrictlySortedBy, BlocksBefore, EndsBelow;
  }

  lemma {:induction false} StepTimely(s: State, e: Event, nextTs: nat, settings: Settings, est: Estimate)
    requires Monotone(est) && settings.capacity >= 1 && Sound(s, settings) && Timed(s) && Timely(s, e, nextTs)
    ensures var r := Step(s, e, settings, est);
            NextTick(s.outstanding, r.outstanding, nextTs) && Timed(r) && Sound(r, settings)
  {
    hide AfterProduced, AfterL1Update, AfterL2Block, Timed, Sound, NextTick, HeadersMatch, GapWithin, TimestampsOrdered, BlocksBefore;
    StepKeepsTimely(s, e, nextTs, settings, est);
    match e
    case Produced(block, anchor, gap, deadline) => ProducedTimely(s, block, anchor, gap, deadline, nextTs, settings, est);
    case L1Block(i) => SoundIncreasing(s, settings); L1Timely(s, i, nextTs);
    case L2Block(i) => SoundIncreasing(s, settings); L2Timely(s, i, nextTs);
    case EndOfSequencing(status) => StatusKeepsTime(s, status, nextTs);
  }

  lemma {:induction false} SoundIncreasing(s: State, settings: Settings)
    requires Sound(s, settings)
    ensures Increasing(s.outstanding)
  {}

  lemma {:induction false} StatusKeepsTime(s: State, status: Handover.DriverStatus, nextTs: nat)
    requires Timed(s)
    ensures Timed(s.(status := status)) && NextTick(s.outstanding, s.outstanding, nextTs)
  {}

  lemma {:induction false} StepKeepsTimely(s: State, e: Event, nextTs: nat, settings: Settings, est: Estimate)
    requires Monotone(est) && settings.capacity >= 1 && Sound(s, settings) && Timely(s, e, nextTs)
    ensures Sound(Step(s, e, settings, est), settings)
  {
    hide Sound, Step, TimestampsOrdered, BlocksBefore, BlocksToAdd;
    StepKeeps(s, e, settings, est);
  }

  lemma {:induction false} RunTimely(s: State, events: seq<Event>, nextTs: nat, settings: Settings, est: Estimate)
    requires Monotone(est) && settings.capacity >= 1 && Sound(s, settings) && Timed(s)
    requires TimelyRun(s, events, nextTs, settings, est)
    ensures var r := Run(s, events, settings, est);
            NextTick(s.outstanding, r.outstanding, nextTs) && Timed(r) && Sound(r, settings)
    decreases |events|
  {
    hide Timed, Sound, NextTick, Step, Timely;
    if events == [] {
      NotOlderThanItself(s.outstanding, nextTs);
    } else {
      var front, e := events[..|events| - 1], events[|events| - 1];
      var middle := Run(s, front, settings, est);
      RunTimely(s, front, nextTs, settings, est);
      StepTimely(middle, e, nextTs, settings, est);
      NotOlderTwice(s.outstanding, middle.outstanding, Step(middle, e, settings, est).outstanding, nextTs);
    }
  }

  // ---------- slots ----------

  /** A tick, and what happens until the next one. */
  datatype Slot = Slot(tick: Tick, events: seq<Event>)

  function AfterSlot(s: State, slot: Slot, settings: Settings, est: Estimate): State {
    Run(AfterTick(s, slot.tick, settings, est), slot.events, settings, est)
  }

  function SlotRun(start: State, slots: seq<Slot>, settings: Settings, est: Estimate): State
    decreases |slots|
  {
    if slots == [] then start
    else AfterSlot(SlotRun(start, slots[..|slots| - 1], settings, est), slots[|slots| - 1], settings, est)
  }

  // A slot without a sync, in which the L1 tip advances by at most one block.
  ghost predicate TimelySlot(s: State, slot: Slot, nextTs: nat, settings: Settings, est: Estimate) {
    && slot.tick.sync.None? && slot.tick.nextTs == nextTs
    && TimelyRun(AfterTick(s, slot.tick, settings, est), slot.events, nextTs, settings, est)
    && s.l1Tip <= AfterSlot(s, slot, settings, est).l1Tip <= s.l1Tip + 1
  }

  ghost predicate TimelySlots(start: State, slots: seq<Slot>, firstTs: nat, settings: Settings, est: Estimate)
    decreases |slots|
  {
    slots != [] ==>
      var n := |slots| - 1;
      && TimelySlots(start, slots[..n], firstTs, settings, est)
      && TimelySlot(SlotRun(start, slots[..n], settings, est), slots[n], firstTs + SLOT_DURATION_SECS * n, settings, est)
  }

  lemma {:induction false} SubmitTimely(s: State, deadline: nat, nextTs: nat)
    requires Timed(s)
    ensures Timed(AfterSubmit(s, deadline)) && NextTick(s.outstanding, AfterSubmit(s, deadline).outstanding, nextTs)
  {}

  lemma {:induction false} FreshAnchorTimely(s: State, finalizing: bool, nextTs: nat)
    requires Timed(s)
    ensures Timed(WithFreshAnchor(s, finalizing)) && NextTick(s.outstanding, WithFreshAnchor(s, finalizing).outstanding, nextTs)
  {}

  lemma {:induction false} TickTimely(s: State, t: Tick, nextTs: nat, settings: Settings, est: Estimate)
    requires t.sync.None? && Timed(s)
    ensures var r := AfterTick(s, t, settings, est);
            Timed(r) && NextTick(s.outstanding, r.outstanding, nextTs)
  {
    hide Batch.AgeLimit, AfterSync, AfterSubmit, Timed, NextTick, WithFreshAnchor;
    var limit := s.outstanding.AgeLimit(t.nextTs, s.l1Tip + 1);
    SubmitTimely(s, t.currentSlot + limit, nextTs);
    NotOlderThanItself(s.outstanding, nextTs);
    var a := if limit <= settings.anchorMaxHeightBuffer then AfterSubmit(s, t.currentSlot + limit) else s;
    var b := a.(status := t.status);
    StatusKeepsTime(a, t.status, nextTs);
    SubmitTimely(b, t.windowEnd, nextTs);
    var c := if b.status.InclusionOnly? then AfterSubmit(b, t.windowEnd) else b;
    NotOlderThanItself(b.outstanding, nextTs);
    NotOlderTwice(s.outstanding, b.outstanding, c.outstanding, nextTs);
    FreshAnchorTimely(c, t.finalizing, nextTs);
    NotOlderTwice(s.outstanding, c.outstanding, AfterTick(s, t, settings, est).outstanding, nextTs);
  }

  lemma {:induction false} SlotTimely(s: State, slot: Slot, nextTs: nat, settings: Settings, est: Estimate)
    requires Monotone(est) && settings.capacity >= 1 && Sound(s, settings) && Timed(s)
    requires TimelySlot(s, slot, nextTs, settings, est)
    ensures var r := AfterSlot(s, slot, settings, est);
            NextTick(s.outstanding, r.outstanding, nextTs) && Timed(r) && Sound(r, settings)
  {
    hide Timed, Sound, NextTick, AfterTick, TimelyRun;
    var middle := AfterTick(s, slot.tick, settings, est);
    TickTimely(s, slot.tick, nextTs, settings, est);
    TickKeeps(s, slot.tick, settings, est);
    RunTimely(middle, slot.events, nextTs, settings, est);
    NotOlderTwice(s.outstanding, middle.outstanding, AfterSlot(s, slot, settings, est).outstanding, nextTs);
  }

  lemma {:induction false} SlotsKeep(start: State, slots: seq<Slot>, firstTs: nat, settings: Settings, est: Estimate)
    requires Monotone(est) && settings.capacity >= 1 && Sound(start, settings) && Timed(start)
    requires TimelySlots(start, slots, firstTs, settings, est)
    ensures Timed(SlotRun(start, slots, settings, est)) && Sound(SlotRun(start, slots, settings, est), settings)
    decreases |slots|
  {
    hide Timed, Sound, TimelySlot, AfterSlot;
    if slots != [] {
      var n := |slots| - 1;
      SlotsKeep(start, slots[..n], firstTs, settings, est);
      SlotTimely(SlotRun(start, slots[..n], settings, est), slots[n], firstTs + SLOT_DURATION_SECS * n, settings, est);
    }
  }

  // The outstanding batch, and the next L1 block, at each of the ticks.
  ghost function BatchesAt(start: State, slots: seq<Slot>, settings: Settings, est: Estimate): (r: seq<Batch>)
    ensures |r| == |slots| + 1
  {
    seq(|slots| + 1, k requires 0 <= k <= |slots| => SlotRun(start, slots[..k], settings, est).outstanding)
  }

  ghost function TipsAt(start: State, slots: seq<Slot>, settings: Settings, est: Estimate): (r: seq<nat>)
    ensures |r| == |slots| + 1
  {
    seq(|slots| + 1, k requires 0 <= k <= |slots| => SlotRun(start, slots[..k], settings, est).l1Tip + 1)
  }

  lemma {:induction false} PrefixTimely(start: State, slots: seq<Slot>, firstTs: nat, settings: Settings, est: Estimate, k: nat)
    requires k < |slots| && TimelySlots(start, slots, firstTs, settings, est)
    ensures TimelySlots(start, slots[..k], firstTs, settings, est)
    ensures TimelySlot(SlotRun(start, slots[..k], settings, est), slots[k], firstTs + SLOT_DURATION_SECS * k, settings, est)
    decreases |slots|
  {
    hide TimelySlot, SlotRun;
    var n := |slots| - 1;
    if k < n {
      PrefixTimely(start, slots[..n], firstTs, settings, est, k);
      assert slots[..n][..k] == slots[..k];
    }
  }

  lemma {:induction false} SlotStep(start: State, slots: seq<Slot>, firstTs: nat, settings: Settings, est: Estimate, k: nat)
    requires Monotone(est) && settings.capacity >= 1 && Sound(start, settings) && Timed(start)
    requires TimelySlots(start, slots, firstTs, settings, est) && k < |slots|
    ensures var s, t := SlotRun(start, slots[..k], settings, est), SlotRun(start, slots[..k + 1], settings, est);
            && NextTick(s.outstanding, t.outstanding, firstTs + SLOT_DURATION_SECS * k)
            && s.l1Tip <= t.l1Tip <= s.l1Tip + 1
  {
    hide Timed, Sound, NextTick, TimelyRun, TimelySlots, AfterSlot;
    PrefixTimely(start, slots, firstTs, settings, est, k);
    SlotsKeep(start, slots[..k], firstTs, settings, est);
    var s := SlotRun(start, slots[..k], settings, est);
    SlotTimely(s, slots[k], firstTs + SLOT_DURATION_SECS * k, settings, est);
    assert slots[..k + 1][..k] == slots[..k] && slots[..k + 1][k] == slots[k];
  }

  /** The batch of a driver, from tick to tick, is as the trigger of the age check assumes. */
  lemma {:induction false} DriverTicks(start: State, slots: seq<Slot>, firstTs: nat, settings: Settings, est: Estimate)
    requires Monotone(est) && settings.capacity >= 1 && Sound(start, settings) && Timed(start)
    requires TimelySlots(start, slots, firstTs, settings, est)
    ensures Ticks(BatchesAt(start, slots, settings, est), TipsAt(start, slots, settings, est), firstTs)
  {
    hide Timed, Sound, NextTick, TimelySlots, SlotRun, Monotone;
    var batches, tips := BatchesAt(start, slots, settings, est), TipsAt(start, slots, settings, est);
    forall k | 0 <= k < |slots|
      ensures NextTick(batches[k], batches[k + 1], firstTs + SLOT_DURATION_SECS * k)
      ensures tips[k] <= tips[k + 1] <= tips[k] + 1
    {
      SlotStep(start, slots, firstTs, settings, est, k);
    }
  }

  // The limit was above the buffer at all ticks but the last.
  ghost predicate FirstAtBuffer(batches: seq<Batch>, tips: seq<nat>, firstTs: nat, buffer: nat) {
    && |batches| == |tips| >= 2
    && (forall i :: 0 <= i < |tips| - 1 ==> LimitAt(batches, tips, firstTs, i) > buffer)
    && LimitAt(batches, tips, firstTs, |tips| - 1) <= buffer
  }

  lemma {:induction false} LimitIsBuffer(batches: seq<Batch>, tips: seq<nat>, firstTs: nat, buffer: nat)
    requires Ticks(batches, tips, firstTs) && FirstAtBuffer(batches, tips, firstTs, buffer)
    requires buffer + 3 <= batches[0].settings.maxAnchorHeightOffset
    ensures LimitAt(batches, tips, firstTs, |tips| - 1) == buffer
  {
    SameSettings(batches, tips, firstTs, |tips| - 1);
    TriggersInTime(batches, tips, firstTs, buffer, |tips| - 1);
  }

  lemma {:induction false} EndsOf(start: State, slots: seq<Slot>, settings: Settings, est: Estimate)
    ensures var batches, tips := BatchesAt(start, slots, settings, est), TipsAt(start, slots, settings, est);
            var s := SlotRun(start, slots, settings, est);
            && batches[0] == start.outstanding
            && batches[|slots|] == s.outstanding && tips[|slots|] == s.l1Tip + 1
  {
    assert slots[..|slots|] == slots && slots[..0] == [];
  }

  /**
   In every run of slots without a sync, however the batch is filled, submitted and reset in between: at
   the first tick at which its limit is not above the buffer, the limit is the buffer, and the tick
   submits the batch.
   */
  lemma {:induction false} DriverTriggersInTime(start: State, slots: seq<Slot>, firstTs: nat, settings: Settings, est: Estimate, t: Tick)
    requires Monotone(est) && settings.capacity >= 1 && Sound(start, settings) && Timed(start)
    requires TimelySlots(start, slots, firstTs, settings, est)
    requires settings.anchorMaxHeightBuffer + 3 <= start.outstanding.settings.maxAnchorHeightOffset
    requires FirstAtBuffer(BatchesAt(start, slots, settings, est), TipsAt(start, slots, settings, est), firstTs,
                           settings.anchorMaxHeightBuffer)
    requires t.nextTs == firstTs + SLOT_DURATION_SECS * |slots|
    ensures var s := SlotRun(start, slots, settings, est);
            && s.outstanding.AgeLimit(t.nextTs, s.l1Tip + 1) == settings.anchorMaxHeightBuffer
            && (s.outstanding.blocks != [] ==>
                  s.commands + [Submission.Submit(Submission.Request(s.outstanding, t.currentSlot + settings.anchorMaxHeightBuffer))]
                  <= AfterTick(s, t, settings, est).commands)
  {
    hide SlotRun, BatchesAt, TipsAt, TimelySlots, Sound, Timed, AfterTick, Batch.AgeLimit, Ticks, FirstAtBuffer, Monotone;
    var s := SlotRun(start, slots, settings, est);
    DriverTicks(start, slots, firstTs, settings, est);
    EndsOf(start, slots, settings, est);
    LimitIsBuffer(BatchesAt(start, slots, settings, est), TipsAt(start, slots, settings, est), firstTs,
                  settings.anchorMaxHeightBuffer);
    if s.outstanding.blocks != [] {
      OldBatchSubmitted(s, t, settings, est, 0);
    }
  }

  lemma {:induction false} SameSettings(batches: seq<Batch>, tips: seq<nat>, firstTs: nat, m: nat)
    requires Ticks(batches, tips, firstTs) && m < |batches|
    ensures batches[m].settings == batches[0].settings
    decreases m
  {
    if m > 0 {
      SameSettings(batches, tips, firstTs, m - 1);
      assert NextTick(batches[m - 1], batches[m], firstTs + SLOT_DURATION_SECS * (m - 1));
    }
  }
}
