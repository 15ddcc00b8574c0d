/**
 The start of an inclusion window, from the ownership of epochs to the blocks that are handed over: at which slot ticks a
 node that syncs at every slot runs a sync, with what status and deadline, and that this sync gets back what was built
 while the node could only sequence.
 */
module WindowStart {
  import opened Integers
  import opened Wrappers
  import opened Batches
  import opened AnchoredBlocks
  import opened Lookahead
  import opened Driver
  import opened DriverRuns
  import Handover
  import Ledger

  // The slot is the first one of an epoch of the operator that follows an epoch of another one.
  ghost predicate TakesOverAt(slot: nat, owner: nat -> Address, me: Address) {
    exists e: nat :: e >= 1 && StartsAt(slot, e) && owner(e) == me && owner(e - 1) != me
  }

  predicate StartsAt(slot: nat, epoch: nat) {
    slot == epoch * EPOCH_SLOTS
  }

  // A node that was told about every slot so far, at a tick for the slot of the last L1 block or the next one.
  ghost predicate UpToDate(steps: seq<Handover.SyncStep>, owner: nat -> Address, slot: nat) {
    && Handover.Honest(steps, owner) && Handover.AllInStep(steps) && Handover.EverySlot(steps)
    && steps[|steps| - 1].head <= slot <= steps[|steps| - 1].head + 1
  }

  // At the first slot of an epoch the node knows about this epoch and about the one before.
  lemma {:induction false} FirstSlotKnown(
    steps: seq<Handover.SyncStep>, owner: nat -> Address, me: Address, slot: nat, epoch: nat)
    requires UpToDate(steps, owner, slot) && slot % EPOCH_SLOTS == 0
    requires slot / EPOCH_SLOTS <= epoch + 1 && epoch <= slot / EPOCH_SLOTS
    ensures Handover.Knows(Handover.Run(steps, me), owner, me, epoch)
  {
    var n := |steps|;
    assert Handover.NthSlot(steps[n - 1], steps[0].head, n - 1);
    var k := if steps[n - 1].head == slot then n - 2 else n - 1;
    assert Handover.NthSlot(steps[k], steps[0].head, k);
    assert Handover.HeardAt(steps, k, epoch) by {
      assert steps[k].head == slot - 1;
      forall j | k < j < n ensures Handover.NearEpoch(steps[j].head, epoch) {
        assert j == n - 1;
      }
    }
    Handover.HeardIsKnown(steps, owner, me, k, epoch);
  }

  // What was filed is at most one epoch ahead of the heads at which something was learned.
  ghost predicate LearnsBefore(steps: seq<Handover.SyncStep>, epoch: nat) {
    forall i :: 0 <= i < |steps| ==> LessonBefore(steps[i], epoch)
  }

  predicate LessonBefore(s: Handover.SyncStep, epoch: nat) {
    Handover.Learns(s.head, s.answers) ==> s.head / EPOCH_SLOTS < epoch
  }

  lemma {:induction false} FiledAtMost(steps: seq<Handover.SyncStep>, me: Address, epoch: nat)
    requires LearnsBefore(steps, epoch)
    ensures forall d :: d in Handover.Run(steps, me) ==> d <= epoch
    decreases |steps|
  {
    if steps != [] {
      FiledAtMost(steps[..|steps| - 1], me, epoch);
      assert LessonBefore(steps[|steps| - 1], epoch);
    }
  }

  lemma {:induction false} NothingAhead(steps: seq<Handover.SyncStep>, owner: nat -> Address, me: Address, slot: nat)
    requires UpToDate(steps, owner, slot) && slot % EPOCH_SLOTS == 0
    ensures forall d :: d in Handover.Run(steps, me) ==> d <= slot / EPOCH_SLOTS
  {
    var n := |steps|;
    assert Handover.NthSlot(steps[n - 1], steps[0].head, n - 1);
    forall i | 0 <= i < n ensures LessonBefore(steps[i], slot / EPOCH_SLOTS) {
      assert Handover.NthSlot(steps[i], steps[0].head, i);
      assert steps[i].head < slot || steps[i].head % EPOCH_SLOTS == 0;
    }
    FiledAtMost(steps, me, slot / EPOCH_SLOTS);
  }

  lemma {:induction false} EndOfLast(epochs: set<nat>, end: nat, epoch: nat)
    requires IsEnd(epochs, 0, end) && epoch in epochs && forall d :: d in epochs ==> d <= epoch
    ensures end == (epoch + 1) * EPOCH_SLOTS
  {}

  // What the node sees at the tick of a slot.
  ghost function TickAt(steps: seq<Handover.SyncStep>, cfg: Handover.Config, end: nat, past: bool, timestamp: nat, now: nat,
                  sync: SyncInput, finalizing: bool): Tick
    requires cfg.Valid()
  {
    TickOf(cfg, Handover.Run(steps, cfg.me), end, past, timestamp, now, sync, finalizing, true)
  }

  lemma {:induction false} NewIff(steps: seq<Handover.SyncStep>, owner: nat -> Address, me: Address, slot: nat)
    requires UpToDate(steps, owner, slot)
    ensures slot % EPOCH_SLOTS == 0 && IsNewIn(Handover.Run(steps, me), slot) <==> TakesOverAt(slot, owner, me)
  {
    if slot % EPOCH_SLOTS == 0 {
      LaterThanStart(steps, owner, slot);
      hide *;
      var e := slot / EPOCH_SLOTS;
      FirstSlotKnown(steps, owner, me, slot, e);
      FirstSlotKnown(steps, owner, me, slot, e - 1);
      NewInIff(Handover.Run(steps, me), owner, me, e);
    }
  }

  lemma {:induction false} LaterThanStart(steps: seq<Handover.SyncStep>, owner: nat -> Address, slot: nat)
    requires UpToDate(steps, owner, slot)
    ensures slot > 0
  {
    assert Handover.NthSlot(steps[|steps| - 1], steps[0].head, |steps| - 1);
  }

  lemma {:induction false} NewInIff(epochs: set<nat>, owner: nat -> Address, me: Address, e: nat)
    requires e >= 1 && Handover.Knows(epochs, owner, me, e) && Handover.Knows(epochs, owner, me, e - 1)
    ensures IsNewIn(epochs, e * EPOCH_SLOTS) <==> TakesOverAt(e * EPOCH_SLOTS, owner, me)
  {
    assert StartsAt(e * EPOCH_SLOTS, e);
  }

  /**
   A node that syncs at every slot runs a sync at a tick if and only if the slot is the first of an epoch of its own that
   follows an epoch of another operator. The sync has the status of an active node and the end of this epoch as deadline.
   */
  lemma {:induction false} TickSyncsIff(
    steps: seq<Handover.SyncStep>, owner: nat -> Address, cfg: Handover.Config, end: nat, past: bool,
    timestamp: nat, now: nat, sync: SyncInput, finalizing: bool)
    requires cfg.Valid() && cfg.handoverWindowSlots < EPOCH_SLOTS
    requires UpToDate(steps, owner, cfg.SlotOf(timestamp)) && IsEnd(Handover.Run(steps, cfg.me), 0, end)
    ensures var slot, t := cfg.SlotOf(timestamp), TickAt(steps, cfg, end, past, timestamp, now, sync, finalizing);
            && (t.sync.Some? <==> TakesOverAt(slot, owner, cfg.me))
            && (t.sync.Some? ==>
                  && t.sync.value == sync.(status := Handover.Active, deadline := slot + EPOCH_SLOTS)
                  && t.status == Handover.Active && t.windowEnd == slot + EPOCH_SLOTS)
  {
    var slot, epochs := cfg.SlotOf(timestamp), Handover.Run(steps, cfg.me);
    var t := TickAt(steps, cfg, end, past, timestamp, now, sync, finalizing);
    hide Handover.Config.SlotOf;
    NewIff(steps, owner, cfg.me, slot);
    if t.sync.Some? {
      hide UpToDate, TakesOverAt;
      NothingAhead(steps, owner, cfg.me, slot);
      EndOfLast(epochs, end, slot / EPOCH_SLOTS);
      assert (slot + cfg.handoverWindowSlots) / EPOCH_SLOTS == slot / EPOCH_SLOTS;
    }
  }

  lemma {:induction false} EpochsAhead(slot: nat, offset: nat)
    requires offset < EPOCH_SLOTS
    ensures slot / EPOCH_SLOTS <= (slot + offset) / EPOCH_SLOTS <= (slot + EPOCH_SLOTS - 1) / EPOCH_SLOTS
  {}

  // The last sync that learned something, at a tick for this slot.
  lemma {:induction false} StatusKnown(steps: seq<Handover.SyncStep>, owner: nat -> Address, slot: nat, epoch: nat)
    returns (k: nat)
    requires UpToDate(steps, owner, slot)
    requires steps[|steps| - 1].head == slot || slot % EPOCH_SLOTS != 1
    requires slot / EPOCH_SLOTS <= epoch <= (slot + EPOCH_SLOTS - 1) / EPOCH_SLOTS
    ensures Handover.HeardAt(steps, k, epoch)
  {
    var n := |steps|;
    assert Handover.NthSlot(steps[n - 1], steps[0].head, n - 1);
    k := Handover.LastLesson(steps[n - 1].head, n);
    assert Handover.NthSlot(steps[k], steps[0].head, k);
    forall j | k < j < n ensures Handover.NearEpoch(steps[j].head, epoch) {
      assert j == n - 1;
    }
  }

  /**
   At every tick such a node has exactly the status that the ownership of epochs gives it, except at the second slot of an
   epoch if no block of the first slot was seen; without a router it is inactive whatever it owns.
   */
  lemma {:induction false} TickStatusIsExact(
    steps: seq<Handover.SyncStep>, owner: nat -> Address, cfg: Handover.Config, end: nat, past: bool,
    timestamp: nat, now: nat, sync: SyncInput, finalizing: bool)
    requires cfg.Valid() && cfg.handoverWindowSlots < EPOCH_SLOTS && UpToDate(steps, owner, cfg.SlotOf(timestamp))
    requires steps[|steps| - 1].head == cfg.SlotOf(timestamp) || cfg.SlotOf(timestamp) % EPOCH_SLOTS != 1
    ensures var slot, r := cfg.SlotOf(timestamp), TickAt(steps, cfg, end, past, timestamp, now, sync, finalizing).status;
            var sequences, includes :=
              owner((slot + cfg.handoverWindowSlots) / EPOCH_SLOTS) == cfg.me, owner(slot / EPOCH_SLOTS) == cfg.me;
            && (r.CanPropose() <==> includes)
            && (r.CanSequence() <==> sequences && (includes || past))
            && (r.HandoverWait? <==> sequences && !includes && !past)
            && (r.Inactive? <==> !sequences && !includes)
    ensures TickOf(cfg, Handover.Run(steps, cfg.me), end, past, timestamp, now, sync, finalizing, false).status.Inactive?
  {
    var slot, offset := cfg.SlotOf(timestamp), cfg.handoverWindowSlots;
    hide Handover.Config.SlotOf, Handover.HeardAt, Handover.EverySlot, Handover.Run, Handover.Honest, Handover.AllInStep,
         Handover.StatusAt, IsNewIn;
    EpochsAhead(slot, offset);
    var i := StatusKnown(steps, owner, slot, slot / EPOCH_SLOTS);
    var j := StatusKnown(steps, owner, slot, (slot + offset) / EPOCH_SLOTS);
    Handover.StatusIsExact(steps, owner, cfg.me, offset, slot, past, i, j);
  }

  /** A tick is one slot before the next block: the age check is made for the block of the next slot. */
  lemma {:induction false} NextSlot(
    steps: seq<Handover.SyncStep>, cfg: Handover.Config, end: nat, past: bool, timestamp: nat, now: nat, sync: SyncInput,
    finalizing: bool)
    requires cfg.Valid() && cfg.l1Genesis <= timestamp
    ensures var t := TickAt(steps, cfg, end, past, timestamp, now, sync, finalizing);
            cfg.SlotOf(t.nextTs) == cfg.SlotOf(timestamp) + 1 && t.currentSlot == cfg.SlotOf(now)
  {
    var age, d := timestamp - cfg.l1Genesis, cfg.l1BlockTime;
    var q := age / d;
    assert q * d <= age < q * d + d;
    assert (q + 1) * d == q * d + d;
    DivUnique(age + d, q + 1, d);
  }

  // ---------- handing over ----------

  // The chain that the sync reads holds these blocks, as far as they are not in an L1 batch yet.
  ghost predicate ChainHas(sync: SyncInput, known: seq<Block>) {
    && SyncValid(sync)
    && forall b :: b in known && b.number > sync.origin ==>
         sync.origin < sync.l2Head && exists x :: x in Blocks(sync.blocks) && Ledger.SameBlock(x, b)
  }

  lemma {:induction false} ActiveReadsAll(sync: SyncInput, deadline: nat, known: seq<Block>)
    requires ChainHas(sync, known)
    ensures Ledger.ReadsAll(sync.(status := Handover.Active, deadline := deadline), known)
  {
    hide Ledger.SameBlock, SyncValid, Blocks;
    var i := sync.(status := Handover.Active, deadline := deadline);
    assert SyncValid(i) by { SameValid(sync, i); }
    assert Blocks(i.blocks) == Blocks(sync.blocks);
  }

  lemma {:induction false} SameValid(i: SyncInput, j: SyncInput)
    requires SyncValid(i) && i.blocks == j.blocks
    ensures SyncValid(j)
  {}

  /**
   At the start of its inclusion window a node gets back what it built while it could only sequence: at the first slot of
   an epoch of its own that follows another operator's, the tick of a node that syncs at every slot gathers every
   block it had or built, whatever happened before, and from then on they are submitted, outstanding or in an L1 batch,
   as long as nothing is reorged.
   */
  lemma {:induction false} WindowStartHandsOver(
    steps: seq<Handover.SyncStep>, owner: nat -> Address, cfg: Handover.Config, end: nat, past: bool,
    timestamp: nat, now: nat, sync: SyncInput, finalizing: bool,
    start: State, before: seq<Event>, after: seq<Event>, settings: Settings, est: Estimate, b: Block)
    requires cfg.Valid() && cfg.handoverWindowSlots < EPOCH_SLOTS
    requires UpToDate(steps, owner, cfg.SlotOf(timestamp)) && IsEnd(Handover.Run(steps, cfg.me), 0, end)
    requires TakesOverAt(cfg.SlotOf(timestamp), owner, cfg.me)
    requires Monotone(est) && settings.capacity >= 1 && Sound(start, settings) && ValidRun(start, before, settings, est)
    requires ChainHas(sync, start.outstanding.blocks + Ledger.Added(start, before, settings, est))
    requires var tick := SlotTick(TickAt(steps, cfg, end, past, timestamp, now, sync, finalizing));
             Ledger.SteadyRun(Step(Run(start, before, settings, est), tick, settings, est), after, settings, est)
    requires b in start.outstanding.blocks + Ledger.Added(start, before, settings, est)
    ensures var tick := SlotTick(TickAt(steps, cfg, end, past, timestamp, now, sync, finalizing));
            var s := Step(Run(start, before, settings, est), tick, settings, est);
            || Ledger.Holds(Run(s, after, settings, est), b)
            || b.number <= sync.origin || Ledger.Safe(after, b.number)
  {
    TickSyncsIff(steps, owner, cfg, end, past, timestamp, now, sync, finalizing);
    var t := TickAt(steps, cfg, end, past, timestamp, now, sync, finalizing);
    hide *;
    ActiveReadsAll(sync, t.sync.value.deadline, start.outstanding.blocks + Ledger.Added(start, before, settings, est));
    SyncOfTick(t);
    Ledger.HandedOver(start, before, SlotTick(t), after, settings, est, b);
  }

  lemma {:induction false} SyncOfTick(t: Tick)
    ensures Ledger.SyncOf(SlotTick(t)) == t.sync
  {}
}
