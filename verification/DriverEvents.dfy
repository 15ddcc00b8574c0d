/**
 What the events of a run make of the driver's anchors, its status and its coinbase, and what exactly a tick and a sync
 submit. No event other than a sync moves a block to another anchor.
 */
module DriverEvents {
  import opened Integers
  import opened Wrappers
  import opened Batches
  import opened AnchoredBlocks
  import opened BatchLists
  import opened BatchMaps
  import opened Coinbases
  import opened Packing
  import opened Reanchoring
  import opened Sorting
  import opened Pipeline
  import opened PipelineResults
  import opened Driver
  import opened DriverRuns
  import Submission
  import Handover

  // ---------- what a tick submits ----------

  /**
   A tick without a sync submits the outstanding batch if and only if it has blocks and either at most the buffer is left
   or the node may only include from now on; it then goes out as it is, with the slots that are left or the end of the
   window as deadline. Otherwise it stays as it is.
   */
  lemma {:induction false} TickSubmitsIff(s: State, t: Tick, settings: Settings, est: Estimate)
    requires t.sync.None?
    ensures var r, b := AfterTick(s, t, settings, est), s.outstanding;
            var limit := b.AgeLimit(t.nextTs, s.l1Tip + 1);
            var due := limit <= settings.anchorMaxHeightBuffer;
            && r.status == t.status
            && (if b.blocks != [] && (due || t.status.InclusionOnly?)
                then var deadline := if due then t.currentSlot + limit else t.windowEnd;
                     && r.commands == s.commands + [Submission.Submit(Submission.Request(b, deadline))]
                     && r.outstanding.blocks == []
                else r.commands == s.commands && r.outstanding.blocks == b.blocks)
            && (r.outstanding.blocks == [] && !t.finalizing ==> r.outstanding.anchor == s.l1Anchor)
            && (r.outstanding.blocks != [] ==> r.outstanding.anchor == b.anchor)
  {
    hide Batch.AgeLimit, AfterSync;
    assert s.commands + [] == s.commands;
  }

  /** Whatever else a tick does, a node that may only include has nothing outstanding after it. */
  lemma {:induction false} HandoverEmpties(s: State, t: Tick, settings: Settings, est: Estimate)
    ensures AfterTick(s, t, settings, est).status.InclusionOnly? ==> AfterTick(s, t, settings, est).outstanding.blocks == []
  {
    hide Batch.AgeLimit, AfterSync;
  }

  // ---------- no block moves to another anchor ----------

  /** The blocks of all batches that were submitted, with the anchors of those. */
  function SubmittedPlaced(commands: seq<Submission.Cmd>): seq<Placed> {
    if commands == [] then []
    else
      var last := commands[|commands| - 1];
      SubmittedPlaced(commands[..|commands| - 1]) + if last.Submit? then PlacedIn(last.request.batch) else []
  }

  // The block is submitted or outstanding, in a batch with this anchor.
  predicate StandsAt(s: State, p: Placed) {
    p in SubmittedPlaced(s.commands) || p in PlacedIn(s.outstanding)
  }

  lemma {:induction false} SubmittedPlacedSnoc(commands: seq<Submission.Cmd>, cmd: Submission.Cmd)
    ensures SubmittedPlaced(commands + [cmd]) ==
            SubmittedPlaced(commands) + if cmd.Submit? then PlacedIn(cmd.request.batch) else []
  {
    assert (commands + [cmd])[..|commands|] == commands;
  }

  lemma {:induction false} PlacedSent(commands: seq<Submission.Cmd>, b: Batch, deadline: nat)
    ensures SubmittedPlaced(commands + Sent(b, deadline)) == SubmittedPlaced(commands) + PlacedIn(b)
  {
    if b.blocks == [] {
      assert commands + [] == commands;
    } else {
      SubmittedPlacedSnoc(commands, Submission.Submit(Submission.Request(b, deadline)));
    }
  }

  lemma {:induction false} PlacedRequests(commands: seq<Submission.Cmd>, batches: seq<Batch>, deadline: nat)
    ensures SubmittedPlaced(commands + Requests(batches, deadline)) == SubmittedPlaced(commands) + AllPlaced(batches)
    decreases |batches|
  {
    if batches == [] {
      assert commands + Requests(batches, deadline) == commands;
    } else {
      hide *;
      var front, last := batches[..|batches| - 1], batches[|batches| - 1];
      PlacedRequests(commands, front, deadline);
      assert batches == front + [last];
      RequestsLaws(front, last, deadline);
      FlattenSnoc(front, last);
      PlacedSent(commands + Requests(front, deadline), last, deadline);
      ConcatAssoc(commands, Requests(front, deadline), Sent(last, deadline));
      ConcatAssoc(SubmittedPlaced(commands), AllPlaced(front), PlacedIn(last));
    }
  }

  lemma {:induction false} BeforeIsPart(blocks: seq<Block>, number: nat)
    ensures forall b :: b in BlocksBefore(blocks, number) ==> b in blocks
    decreases |blocks|
  {
    if blocks != [] {
      BeforeIsPart(blocks[..|blocks| - 1], number);
    }
  }

  lemma {:induction false} AfterIsPart(blocks: seq<Block>, number: nat)
    ensures forall b :: b in BlocksAfter(blocks, number) ==> b in blocks
    decreases |blocks|
  {
    if blocks != [] {
      AfterIsPart(blocks[..|blocks| - 1], number);
    }
  }

  // A place in a batch is a block of it, on its anchor.
  lemma {:induction false} InPlacedIff(b: Batch, p: Placed)
    ensures p in PlacedIn(b) <==> p.block in b.blocks && p.anchor == b.anchor.number
  {
    if p.block in b.blocks && p.anchor == b.anchor.number {
      var i :| 0 <= i < |b.blocks| && b.blocks[i] == p.block;
      assert PlacedIn(b)[i] == p;
    }
  }

  // Filling a batch moves none of its blocks.
  lemma {:induction false} FilledPlaces(cursor: Batch, blocks: seq<Block>, anchor: Header, est: Estimate, p: Placed)
    requires p in AllPlaced(Packed(cursor, blocks, anchor, est))
    ensures p in PlacedIn(cursor) || p.block in blocks
    decreases |blocks|
  {
    hide PlacedIn, Flatten, AllPlaced, BlocksBefore, Batch.DoesntFit;
    FlattenOne(cursor);
    if blocks != [] {
      var (next, result) := cursor.AddBlock(blocks[0], anchor, est);
      var rest := Packed(next, blocks[1..], anchor, est);
      BeforeIsPart(cursor.blocks, blocks[0].number);
      InPlacedIff(cursor, p);
      InPlacedIff(next, p);
      if result.Full? {
        FlattenOne(result.batch);
        FlattenConcat([result.batch], rest);
        InPlacedIff(result.batch, p);
      }
      if p in AllPlaced(rest) {
        FilledPlaces(next, blocks[1..], anchor, est, p);
      }
    }
  }

  lemma {:induction false} ProducedPlaces(
    s: State, block: Block, anchor: Header, gap: Option<seq<AnchoredBlock>>, deadline: nat, est: Estimate, p: Placed)
    requires StandsAt(AfterProduced(s, block, anchor, gap, deadline, est), p)
    ensures StandsAt(s, p) || p.block in BlocksToAdd(s.outstanding, block, gap)
  {
    hide BlocksToAdd, Packed, Requests, PlacedIn, SubmittedPlaced, AllPlaced, Flatten;
    var add := BlocksToAdd(s.outstanding, block, gap);
    var r := Packed(s.outstanding, add, anchor, est);
    var full, last := r[..|r| - 1], r[|r| - 1];
    assert r == full + [last];
    FlattenSnoc(full, last);
    PlacedRequests(s.commands, full, deadline);
    assert s.commands + [] == s.commands;
    if p in AllPlaced(r) {
      FilledPlaces(s.outstanding, add, anchor, est, p);
    }
  }

  lemma {:induction false} SubmitPlaces(s: State, deadline: nat, p: Placed)
    ensures StandsAt(AfterSubmit(s, deadline), p) <==> StandsAt(s, p)
  {
    hide SubmittedPlaced, Sent;
    PlacedSent(s.commands, s.outstanding, deadline);
  }

  lemma {:induction false} FreshAnchorPlaces(s: State, finalizing: bool, p: Placed)
    ensures StandsAt(WithFreshAnchor(s, finalizing), p) <==> StandsAt(s, p)
  {
    hide SubmittedPlaced;
  }

  lemma {:induction false} TickPlaces(s: State, t: Tick, settings: Settings, est: Estimate, p: Placed)
    requires t.sync.None?
    ensures StandsAt(AfterTick(s, t, settings, est), p) <==> StandsAt(s, p)
  {
    hide Batch.AgeLimit, AfterSync, AfterSubmit, StandsAt, WithFreshAnchor;
    var limit := s.outstanding.AgeLimit(t.nextTs, s.l1Tip + 1);
    SubmitPlaces(s, t.currentSlot + limit, p);
    var a := if limit <= settings.anchorMaxHeightBuffer then AfterSubmit(s, t.currentSlot + limit) else s;
    var b := a.(status := t.status);
    StatusPlaces(a, t.status, p);
    SubmitPlaces(b, t.windowEnd, p);
    FreshAnchorPlaces(if b.status.InclusionOnly? then AfterSubmit(b, t.windowEnd) else b, t.finalizing, p);
  }

  lemma {:induction false} StatusPlaces(s: State, status: Handover.DriverStatus, p: Placed)
    ensures StandsAt(s.(status := status), p) <==> StandsAt(s, p)
  {}

  lemma {:induction false} L1Places(s: State, i: L1Input, p: Placed)
    requires StandsAt(AfterL1Update(s, i), p)
    ensures StandsAt(s, p)
  {
    hide SubmittedPlaced, PlacedIn;
    var r := AfterL1Update(s, i);
    InPlacedIff(s.outstanding, p);
    InPlacedIff(r.outstanding, p);
    if i.origin.Some? {
      AfterIsPart(s.outstanding.blocks, i.origin.value);
    }
  }

  lemma {:induction false} L2Places(s: State, i: L2Input, p: Placed)
    requires StandsAt(AfterL2Block(s, i), p)
    ensures StandsAt(s, p)
  {
    hide SubmittedPlaced, PlacedIn;
    var r := AfterL2Block(s, i);
    InPlacedIff(s.outstanding, p);
    InPlacedIff(r.outstanding, p);
    BeforeIsPart(s.outstanding.blocks, i.number);
    SubmittedPlacedSnoc(s.commands, Submission.ClearQueue);
  }

  predicate HasSync(e: Event) {
    e.Sync? || (e.SlotTick? && e.tick.sync.Some?)
  }

  // The blocks that the event adds.
  function NewBlocks(s: State, e: Event): seq<Block> {
    if e.Produced? then BlocksToAdd(s.outstanding, e.block, e.gap) else []
  }

  lemma {:induction false} StepPlaces(s: State, e: Event, settings: Settings, est: Estimate, p: Placed)
    requires !HasSync(e) && StandsAt(Step(s, e, settings, est), p)
    ensures StandsAt(s, p) || p.block in NewBlocks(s, e)
  {
    hide StandsAt, AfterProduced, AfterL1Update, AfterL2Block, AfterTick;
    match e
    case Produced(block, anchor, gap, deadline) => ProducedPlaces(s, block, anchor, gap, deadline, est, p);
    case L1Block(i) => L1Places(s, i, p);
    case L2Block(i) => L2Places(s, i, p);
    case SlotTick(t) => TickPlaces(s, t, settings, est, p);
    case EndOfSequencing(status) => StatusPlaces(s, status, p);
  }

  // The block was added by event `k`, and stood at this anchor right after.
  ghost predicate PlacedBy(start: State, events: seq<Event>, settings: Settings, est: Estimate, k: nat, p: Placed)
    requires k < |events|
  {
    && p.block in NewBlocks(Run(start, events[..k], settings, est), events[k])
    && StandsAt(Run(start, events[..k + 1], settings, est), p)
  }

  /**
   Every batch is proposed with the anchor its blocks were added on: in a run without syncs, whatever is submitted or
   outstanding stands at the anchor at which it stood at the start, or right after it was added.
   */
  lemma {:induction false} AnchorsStay(start: State, events: seq<Event>, settings: Settings, est: Estimate, p: Placed)
    requires forall i :: 0 <= i < |events| ==> !HasSync(events[i])
    requires StandsAt(Run(start, events, settings, est), p)
    ensures StandsAt(start, p) || exists k: nat :: k < |events| && PlacedBy(start, events, settings, est, k, p)
    decreases |events|
  {
    hide StandsAt, Step, NewBlocks, HasSync;
    if events != [] {
      var n := |events| - 1;
      var front := events[..n];
      assert !HasSync(events[n]) && events[..n + 1] == events;
      var s := Run(start, front, settings, est);
      StepPlaces(s, events[n], settings, est, p);
      if p.block in NewBlocks(s, events[n]) {
        assert PlacedBy(start, events, settings, est, n, p);
      } else {
        AnchorsStay(start, front, settings, est, p);
        if !StandsAt(start, p) {
          var k: nat :| k < |front| && PlacedBy(start, front, settings, est, k, p);
          assert front[..k] == events[..k] && front[..k + 1] == events[..k + 1];
          assert PlacedBy(start, events, settings, est, k, p);
        }
      }
    }
  }

  // The batch after one block that follows it.
  lemma {:induction false} FilledByOne(b: Batch, block: Block, anchor: Header, est: Estimate)
    requires NumbersBelow(b.blocks, block.number)
    ensures var r := Packed(b, [block], anchor, est);
            r[|r| - 1] == if b.DoesntFit(block.txs, est).None? then b.(blocks := b.blocks + [block])
                          else b.(blocks := [block], anchor := anchor)
  {
    hide Batch.DoesntFit;
    BlocksBeforeAll(b.blocks, block.number);
    hide BlocksBefore;
    assert [block][1..] == [];
    assert b.Before(block.number) == b;
  }

  /**
   The builder puts a block on the anchor of the outstanding batch if it fits there, and on the cached one otherwise. If
   the batch is still the same when the block comes back, the block stands last in the outstanding batch afterwards, and
   on the anchor it was built on.
   */
  lemma {:induction false} BuiltOnItsAnchor(
    s: State, block: Block, anchor: Header, gap: Option<seq<AnchoredBlock>>, deadline: nat, est: Estimate)
    requires NumbersBelow(s.outstanding.blocks, block.number) && !HasGap(s.outstanding, block.number)
    requires s.outstanding.DoesntFit(block.txs, est).None? ==> anchor == s.outstanding.anchor
    ensures var b := AfterProduced(s, block, anchor, gap, deadline, est).outstanding;
            && b.anchor == anchor
            && b.blocks == (if s.outstanding.DoesntFit(block.txs, est).None? then s.outstanding.blocks else []) + [block]
  {
    hide Batch.DoesntFit, Requests, Packed, NumbersBelow, Blocks;
    assert [] + [block] == [block];
    FilledByOne(s.outstanding, block, anchor, est);
  }

  // ---------- the cached anchor ----------

  // The anchor that the event brings to the driver's knowledge, if its calls succeed: the safe one of a new L1 block, or
  // that of an L2 block that was built by somebody else.
  function SeenAnchor(e: Event): nat {
    match e
    case L1Block(i) => if i.safeAnchor.Some? then SaturatingSub(i.tip, i.anchorLag) else 0
    case L2Block(i) => if !i.builtByUs && i.anchor.Some? then i.anchorId.GetOr(0) else 0
    case _ => 0
  }

  lemma {:induction false} StepFollowsAnchor(s: State, e: Event, settings: Settings, est: Estimate)
    requires HeadersMatch(e)
    ensures Step(s, e, settings, est).l1Anchor.number == Max(s.l1Anchor.number, SeenAnchor(e))
  {
    hide BlocksAfter, BlocksBefore, Packed, Batch.AgeLimit, Kept, Proposed, Requests, SyncedBatches;
  }

  /** The cached anchor is the highest of all that the driver came to know. */
  lemma {:induction false} AnchorIsHighest(start: State, events: seq<Event>, settings: Settings, est: Estimate)
    requires forall i :: 0 <= i < |events| ==> HeadersMatch(events[i])
    ensures var number := Run(start, events, settings, est).l1Anchor.number;
            && start.l1Anchor.number <= number
            && (forall i :: 0 <= i < |events| ==> SeenAnchor(events[i]) <= number)
            && (number == start.l1Anchor.number || exists i :: 0 <= i < |events| && SeenAnchor(events[i]) == number)
    decreases |events|
  {
    hide Step, SeenAnchor, HeadersMatch;
    if events != [] {
      var n := |events| - 1;
      var front := events[..n];
      AnchorIsHighest(start, front, settings, est);
      assert HeadersMatch(events[n]);
      StepFollowsAnchor(Run(start, front, settings, est), events[n], settings, est);
      assert forall i :: 0 <= i < n ==> front[i] == events[i];
    }
  }

  // ---------- the status ----------

  // The status that the event gives, and whether the calls it makes before that succeed.
  function GivenStatus(e: Event): Option<Handover.DriverStatus> {
    match e
    case L1Block(i) => Some(i.status)
    case Sync(i) => Some(i.status)
    case SlotTick(t) => Some(if t.sync.Some? then t.sync.value.status else t.status)
    case EndOfSequencing(status) => Some(status)
    case _ => None
  }

  predicate CallsSucceed(e: Event) {
    e.L1Block? ==> e.l1.safeAnchor.Some? && e.l1.origin.Some?
  }

  lemma {:induction false} StepGivesStatus(s: State, e: Event, settings: Settings, est: Estimate)
    requires CallsSucceed(e)
    ensures Step(s, e, settings, est).status == GivenStatus(e).GetOr(s.status)
  {
    hide BlocksAfter, BlocksBefore, Packed, Batch.AgeLimit, Kept, Proposed, Requests, SyncedBatches;
  }

  // Event `k` is the last one that gives a status.
  predicate LastGiven(events: seq<Event>, k: nat) {
    && k < |events| && GivenStatus(events[k]).Some?
    && forall j :: k < j < |events| ==> GivenStatus(events[j]).None?
  }

  /** The status of the driver is the one that the last L1 block, tick, sync or end of sequencing gave it. */
  lemma {:induction false} StatusIsLatest(start: State, events: seq<Event>, settings: Settings, est: Estimate, k: nat)
    requires forall i :: 0 <= i < |events| ==> CallsSucceed(events[i])
    requires LastGiven(events, k)
    ensures Run(start, events, settings, est).status == GivenStatus(events[k]).value
    decreases |events|
  {
    hide Step, GivenStatus, CallsSucceed;
    var n := |events| - 1;
    assert CallsSucceed(events[n]);
    StepGivesStatus(Run(start, events[..n], settings, est), events[n], settings, est);
    if k < n {
      StatusIsLatest(start, events[..n], settings, est, k);
    }
  }

  // ---------- the heads ----------

  predicate LastL1(events: seq<Event>, k: nat) {
    k < |events| && events[k].L1Block? && forall j :: k < j < |events| ==> !events[j].L1Block?
  }

  predicate LastL2(events: seq<Event>, k: nat) {
    k < |events| && events[k].L2Block? && forall j :: k < j < |events| ==> !events[j].L2Block?
  }

  lemma {:induction false} StepKeepsHeads(s: State, e: Event, settings: Settings, est: Estimate)
    ensures var r := Step(s, e, settings, est);
            && r.l1Tip == (if e.L1Block? then e.l1.tip else s.l1Tip)
            && r.l2Head == (if e.L2Block? then e.l2.number else s.l2Head)
            && (CallsSucceed(e) && (e.L2Block? ==> s.l2Head <= e.l2.number) ==>
                  r.headL1Origin == if e.L1Block? then e.l1.origin.value else s.headL1Origin)
  {
    hide BlocksAfter, BlocksBefore, Packed, Batch.AgeLimit, Kept, Proposed, Requests, SyncedBatches;
  }

  /** The heads of the driver are those of the last L1 block and the last L2 block. */
  lemma {:induction false} HeadsAreLatest(start: State, events: seq<Event>, settings: Settings, est: Estimate, k: nat)
    ensures LastL1(events, k) ==> Run(start, events, settings, est).l1Tip == events[k].l1.tip
    ensures LastL2(events, k) ==> Run(start, events, settings, est).l2Head == events[k].l2.number
    decreases |events|
  {
    hide Step;
    if events != [] {
      var n := |events| - 1;
      StepKeepsHeads(Run(start, events[..n], settings, est), events[n], settings, est);
      if k < n {
        HeadsAreLatest(start, events[..n], settings, est, k);
      }
    }
  }

  // ---------- the coinbase ----------

  lemma {:induction false} PackedCoinbase(cursor: Batch, blocks: seq<Block>, anchor: Header, est: Estimate)
    ensures var r := Packed(cursor, blocks, anchor, est); r[|r| - 1].coinbase == cursor.coinbase
    decreases |blocks|
  {
    hide Batch.DoesntFit, BlocksBefore;
    if blocks != [] {
      var (next, result) := cursor.AddBlock(blocks[0], anchor, est);
      PackedCoinbase(next, blocks[1..], anchor, est);
    }
  }

  lemma {:induction false} StepKeepsCoinbase(s: State, e: Event, settings: Settings, est: Estimate)
    requires s.outstanding.coinbase == settings.defaultCoinbase
    ensures Step(s, e, settings, est).outstanding.coinbase == settings.defaultCoinbase
  {
    hide BlocksAfter, BlocksBefore, Packed, Batch.AgeLimit, Proposed, Requests, SyncedBatches, BlocksToAdd;
    if e.Produced? {
      PackedCoinbase(s.outstanding, BlocksToAdd(s.outstanding, e.block, e.gap), e.anchor, est);
    }
  }

  /** In every run the outstanding batch carries the operator's own coinbase, whoever built the blocks that a sync reads. */
  lemma {:induction false} OutstandingIsOwn(start: State, events: seq<Event>, settings: Settings, est: Estimate)
    requires start.outstanding.coinbase == settings.defaultCoinbase
    ensures Run(start, events, settings, est).outstanding.coinbase == settings.defaultCoinbase
    decreases |events|
  {
    hide Step;
    if events != [] {
      OutstandingIsOwn(start, events[..|events| - 1], settings, est);
      StepKeepsCoinbase(Run(start, events[..|events| - 1], settings, est), events[|events| - 1], settings, est);
    }
  }

  // ---------- what a sync takes over ----------

  lemma {:induction false} OutstandingCoinbase(blocks: seq<AnchoredBlock>, safe: Header, settings: Settings)
    ensures IntoOutstanding(blocks, safe, settings).coinbase == settings.defaultCoinbase
  {}

  /**
   A node that cannot propose submits nothing at a sync. If it is inactive, or there are no soft blocks, nothing is
   outstanding afterwards; if it waits or only sequences, it takes over the longest run of final blocks that share
   the last anchor and fit the capacity.
   */
  lemma {:induction false} SyncTakesOver(s: State, i: SyncInput, settings: Settings, est: Estimate)
    requires SyncValid(i) && !i.status.CanPropose()
    ensures var r := AfterSync(s, i, settings, est);
            && r.commands == s.commands && r.status == i.status
            && (i.l2Head <= i.origin || i.status.Inactive? ==> r.outstanding.blocks == [])
            && (i.origin < i.l2Head && !i.status.Inactive? && i.blocks != [] && SortedBy(i.blocks, AnchorOf) ==>
                  && r.outstanding.blocks == Blocks(FinalRun(i.blocks, settings.capacity))
                  && r.outstanding.anchor == i.blocks[|i.blocks| - 1].anchor)
  {
    OutstandingCoinbase(i.blocks, i.l1Anchor, settings);
    hide IntoOutstanding, Created, FinalRun, SortedBy, ConsecutiveAnchored;
    assert s.commands + [] == s.commands;
    if i.blocks != [] && SortedBy(i.blocks, AnchorOf) {
      OutstandingIsFinalRun(i.blocks, i.l1Anchor, settings);
    }
  }

  /** When every block is in an L1 batch a sync submits nothing, and starts an empty batch on the anchor it read. */
  lemma {:induction false} NothingToSync(s: State, i: SyncInput, settings: Settings, est: Estimate)
    requires i.l2Head <= i.origin
    ensures var r := AfterSync(s, i, settings, est);
            r.commands == s.commands && r.outstanding == EmptyBatch(i.l1Anchor, settings) && r.status == i.status
  {
    hide IntoOutstanding, Created;
    assert s.commands + [] == s.commands;
    assert [EmptyBatch(i.l1Anchor, settings)][..0] == [];
  }

  // ---------- what a sync keeps in hand ----------

  lemma {:induction false} GroupedLast(m: BatchMap, settings: Settings, est: Estimate, number: nat)
    requires m != [] && GoodMap(m, settings, est, number)
    ensures var r := AllBatches(m); r != [] && r[|r| - 1].blocks != []
  {
    hide AllGood, Flatten, AllBatches, StrictlySortedBy, NumbersBelow;
    var front, e := m[..|m| - 1], m[|m| - 1];
    assert m == front + [e];
    MapPlacedSnoc(front, e);
    assert GoodEntry(e, settings, est, number);
    assert e.batches != [];
    LastGood(e.batches, e.anchorId, settings, est);
    assert (AllBatches(front) + e.batches)[|AllBatches(m)| - 1] == e.batches[|e.batches| - 1];
  }

  lemma {:induction false} LastGood(batches: seq<Batch>, anchor: nat, settings: Settings, est: Estimate)
    requires batches != [] && AllGood(batches, anchor, settings, est)
    ensures batches[|batches| - 1].blocks != []
  {
    assert GoodBatch(batches[|batches| - 1], anchor, settings, est);
  }

  lemma {:induction false} PackedLast(blocks: seq<Block>, safe: Header, settings: Settings, est: Estimate)
    requires settings.capacity >= 1 && StrictlySortedBy(blocks, BlockNumber) && blocks != []
    ensures var r := Packed(EmptyBatch(safe, settings), blocks, safe, est); r[|r| - 1].blocks != []
  {
    hide StrictlySortedBy, OverTargetAlone, Packed;
    var r := Packed(EmptyBatch(safe, settings), blocks, safe, est);
    EmptyBatchIff(blocks, safe, settings, est);
    if |r| == 1 {
      AllPacked(blocks, safe, settings, est);
      assert r == [r[0]];
      FlattenOne(r[0]);
    } else {
      assert r[1..][|r| - 2] == r[|r| - 1];
    }
  }

  lemma {:induction false} AllPacked(blocks: seq<Block>, safe: Header, settings: Settings, est: Estimate)
    requires settings.capacity >= 1 && StrictlySortedBy(blocks, BlockNumber)
    ensures Flatten(Packed(EmptyBatch(safe, settings), blocks, safe, est)) == blocks
  {
    assert [] + blocks == blocks;
    PackedLaws(EmptyBatch(safe, settings), blocks, safe, est);
  }

  // The last batch of the pipeline, before timestamps are reset, has blocks.
  lemma {:induction false} FinalMapLast(blocks: seq<AnchoredBlock>, settings: Settings, est: Estimate, bounds: Bounds)
    requires Monotone(est) && settings.capacity >= 1 && ConsecutiveAnchored(blocks) && blocks != []
    ensures var r := AllBatches(FinalMap(blocks, settings, est, bounds)); r != [] && r[|r| - 1].blocks != []
  {
    hide Grouped, ConsecutiveAnchored, Packed, MapPlaced, GoodMap, AllBatches, Flatten, SortedBlocks;
    var m := Grouped(blocks, settings, est);
    if ShouldReanchor(m, bounds.minProposableAnchor) {
      SortedBlocksAreBlocks(blocks, settings, est);
      BlocksStrict(blocks);
      PackedLast(Blocks(blocks), bounds.safeAnchor, settings, est);
      AllBatchesOne(FinalMap(blocks, settings, est, bounds)[0]);
    } else {
      var number := GroupedLaws(blocks, settings, est);
      SortLaws(PlacedOf(blocks), AnchorKey);
      NoneMapped(m);
      GroupedLast(m, settings, est, number);
    }
  }

  lemma {:induction false} NoneMapped(m: BatchMap)
    ensures m == [] ==> MapPlaced(m) == []
  {}

  lemma {:induction false} LastOfFlatten(batches: seq<Batch>)
    requires batches != [] && batches[|batches| - 1].blocks != []
    ensures var all, last := Flatten(batches), batches[|batches| - 1].blocks;
            all != [] && all[|all| - 1] == last[|last| - 1]
  {}

  // The last block of the pipeline carries the coinbase of the last batch, unless all were re-anchored.
  lemma {:induction false} LastCoinbase(blocks: seq<AnchoredBlock>, settings: Settings, est: Estimate, bounds: Bounds)
    requires Monotone(est) && settings.capacity >= 1 && ConsecutiveAnchored(blocks) && blocks != []
    ensures var r, base := Created(blocks, settings, est, bounds), InBatchOrder(blocks, settings, est, bounds);
            && r != [] && r[|r| - 1].blocks != [] && base != []
            && r[|r| - 1].coinbase == if SomeExpired(blocks, bounds.minProposableAnchor) then settings.defaultCoinbase
                                      else base[|base| - 1].coinbase
  {
    hide Grouped, FinalMap, ConsecutiveAnchored, Flatten, InBatchOrder, RetimeBatches, AllProposable, AnchorsOrdered, SomeExpired;
    var before := AllBatches(FinalMap(blocks, settings, est, bounds));
    FinalMapLast(blocks, settings, est, bounds);
    FinalMapBlocks(blocks, settings, est, bounds);
    LastOfFlatten(before);
    RetimeKeepsBatches(before, false, bounds.minTs, bounds.maxTs, |before| - 1);
    FinalMapValid(blocks, settings, est, bounds);
    ReanchorIff(blocks, settings, est, bounds.minProposableAnchor);
    if !SomeExpired(blocks, bounds.minProposableAnchor) {
      assert UniformCoinbase(before[|before| - 1]);
    }
  }

  /**
   After a sync that can propose something is outstanding if and only if the last soft block, in batch order, carries the
   operator's own coinbase or all blocks were re-anchored, which gives them that coinbase; everything else is submitted.
   */
  lemma {:induction false} SyncKeepsOwnLast(s: State, i: SyncInput, settings: Settings, est: Estimate)
    returns (submitted: seq<Batch>, c: nat)
    requires Monotone(est) && settings.capacity >= 1 && SyncValid(i) && i.blocks != []
    requires i.status.CanPropose() && i.origin < i.l2Head
    ensures var r, base := AfterSync(s, i, settings, est), InBatchOrder(i.blocks, settings, est, BoundsOf(i));
            && base != []
            && (r.outstanding.blocks != [] <==>
                  SomeExpired(i.blocks, i.minProposableAnchor) || base[|base| - 1].coinbase == settings.defaultCoinbase)
            && (r.outstanding.blocks == [] ==> r.outstanding.anchor == s.l1Anchor)
            && r.commands == s.commands + Requests(submitted, i.deadline)
            && RetimedFrom(base, Flatten(submitted) + r.outstanding.blocks, c, i.minTs, i.maxTs)
  {
    hide Created, ConsecutiveAnchored, Flatten, InBatchOrder, SomeExpired, RetimedFrom, Requests;
    submitted, c := SyncConserves(s, i, settings, est);
    LastCoinbase(i.blocks, settings, est, BoundsOf(i));
  }
}
