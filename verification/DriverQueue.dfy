/**
 The driver and the submission queue together: what the driver submits while the chain grows is
 never refused for overlapping a queued batch, and what a sync can do to that.
 */
module DriverQueue {
  import opened Batches
  import opened AnchoredBlocks
  import opened BatchLists
  import opened Sorting
  import opened PipelineOrder
  import opened PipelineResults
  import opened Pipeline
  import opened Driver
  import opened DriverRuns
  import opened Ledger
  import Submission

  // Every block in hand comes before the next one.
  ghost predicate Ordered(s: State) {
    StrictlySortedBy(InHand(s), BlockNumber)
  }

  // The chain grows: a new block has a number above those of all blocks in hand, and above 0.
  ghost predicate Growing(s: State, e: Event) {
    && Steady(s, e) && !e.Sync? && (e.SlotTick? ==> e.tick.sync.None?)
    && (e.Produced? ==> NumbersBelow(InHand(s), e.block.number) && e.block.number > 0)
  }

  ghost predicate GrowingRun(start: State, events: seq<Event>, settings: Settings, est: Estimate)
    decreases |events|
  {
    events != [] ==>
      && GrowingRun(start, events[..|events| - 1], settings, est)
      && Growing(Run(start, events[..|events| - 1], settings, est), events[|events| - 1])
  }

  lemma {:induction false} AddedFollow(s: State, e: Event)
    requires Ordered(s) && e.Produced? && Growing(s, e)
    ensures BlocksToAdd(s.outstanding, e.block, e.gap) != []
    ensures NumbersBelow(InHand(s), BlocksToAdd(s.outstanding, e.block, e.gap)[0].number)
  {
    var hand := InHand(s);
    if HasGap(s.outstanding, e.block.number) {
      assert hand[|hand| - 1] == s.outstanding.blocks[|s.outstanding.blocks| - 1];
      assert forall i :: 0 <= i < |hand| - 1 ==> BlockNumber(hand[i]) < BlockNumber(hand[|hand| - 1]);
    }
  }

  lemma {:induction false} DroppedOrdered(before: seq<Block>, blocks: seq<Block>, k: nat)
    requires k <= |blocks| && StrictlySortedBy(before + blocks, BlockNumber)
    ensures StrictlySortedBy(before + blocks[k..], BlockNumber)
  {
    var all, rest := before + blocks, before + blocks[k..];
    forall i, j | 0 <= i < j < |rest| ensures BlockNumber(rest[i]) < BlockNumber(rest[j]) {
      assert rest[i] == all[if i < |before| then i else i + k];
      assert rest[j] == all[if j < |before| then j else j + k];
    }
  }

  lemma {:induction false} StepOrdered(s: State, e: Event, settings: Settings, est: Estimate)
    requires settings.capacity >= 1 && Sound(s, settings) && Ordered(s) && Growing(s, e)
    ensures Ordered(Step(s, e, settings, est))
  {
    hide AfterProduced, AfterTick, BlocksToAdd, BlocksAfter, BlocksBefore, Submitted, StrictlySortedBy, GapFilled, NumbersBelow, InHand;
    match e
    case Produced(block, anchor, gap, deadline) =>
      AddedFollow(s, e);
      FilledIsWithin(s, block, gap);
      ToAddIncreasing(s, block, gap);
      Follows(InHand(s), BlocksToAdd(s.outstanding, block, gap));
      ProducedLosesNothing(s, block, anchor, gap, deadline, settings, est);
    case L1Block(i) =>
      HandOf(s);
      HandOf(AfterL1Update(s, i));
      if i.origin.Some? {
        var k := AfterIsSuffix(s.outstanding.blocks, i.origin.value);
        DroppedOrdered(Submitted(s.commands), s.outstanding.blocks, k);
      }
    case L2Block(i) =>
      HandOf(s);
      HandOf(AfterL2Block(s, i));
    case SlotTick(t) =>
      TickLosesNothing(s, t, settings, est);
    case EndOfSequencing(status) =>
      StatusKeepsHand(s, status);
  }

  lemma {:induction false} RunOrdered(start: State, events: seq<Event>, settings: Settings, est: Estimate)
    requires Monotone(est) && settings.capacity >= 1 && Sound(start, settings) && Ordered(start)
    requires GrowingRun(start, events, settings, est)
    ensures Ordered(Run(start, events, settings, est)) && Sound(Run(start, events, settings, est), settings)
    decreases |events|
  {
    hide Ordered, Sound, Step, Steady, Valid;
    if events != [] {
      var s, e := Run(start, events[..|events| - 1], settings, est), events[|events| - 1];
      RunOrdered(start, events[..|events| - 1], settings, est);
      StepOrdered(s, e, settings, est);
      SteadyValid(s, e);
      StepKeeps(s, e, settings, est);
    }
  }

  // ---------- ranges of submitted batches ----------

  lemma {:induction false} LastSubmitted(commands: seq<Submission.Cmd>, i: nat, settings: Settings) returns (k: nat)
    requires GoodCommands(commands, settings) && i < |commands| && commands[i].Submit?
    ensures k < |Submitted(commands)|
    ensures Submitted(commands)[k].number == commands[i].request.batch.BlocksRange().1
    decreases |commands|
  {
    hide Increasing;
    var front := commands[..|commands| - 1];
    assert GoodCommand(commands[i], settings);
    if i < |front| {
      k := LastSubmitted(front, i, settings);
    } else {
      k := |Submitted(commands)| - 1;
    }
  }

  /** A batch submitted later starts above the end of one submitted before. */
  lemma {:induction false} LaterStartsAbove(commands: seq<Submission.Cmd>, i: nat, j: nat, settings: Settings)
    requires GoodCommands(commands, settings) && StrictlySortedBy(Submitted(commands), BlockNumber)
    requires i < j < |commands| && commands[i].Submit? && commands[j].Submit?
    ensures commands[i].request.batch.BlocksRange().1 < commands[j].request.batch.BlocksRange().0
    decreases |commands|
  {
    hide Increasing;
    var front := commands[..|commands| - 1];
    if j < |front| {
      assert Submitted(front) == Submitted(commands)[..|Submitted(front)|];
      LaterStartsAbove(front, i, j, settings);
    } else {
      assert GoodCommand(commands[j], settings);
      var k := LastSubmitted(front, i, settings);
      var n := |Submitted(front)|;
      var all := Submitted(commands);
      assert all[k] == Submitted(front)[k] && all[n] == commands[j].request.batch.blocks[0];
      assert BlockNumber(all[k]) < BlockNumber(all[n]);
    }
  }

  // The queue holds requests that the driver made before command `j`.
  ghost predicate FromBefore(queue: seq<Submission.Request>, commands: seq<Submission.Cmd>, j: nat) {
    forall q :: 0 <= q < |queue| ==> MadeBefore(queue[q], commands, j)
  }

  ghost predicate MadeBefore(r: Submission.Request, commands: seq<Submission.Cmd>, j: nat) {
    exists i :: 0 <= i < j && i < |commands| && commands[i] == Submission.Submit(r)
  }

  // Command `j` submits a batch, and reaches a queue of requests made before it.
  ghost predicate Arrives(queue: seq<Submission.Request>, commands: seq<Submission.Cmd>, j: nat) {
    j < |commands| && commands[j].Submit? && FromBefore(queue, commands, j)
  }

  /**
   While the chain grows, whichever of its earlier batches are still queued, the queue refuses no
   batch that the driver submits.
   */
  lemma {:induction false} NeverRefused(start: State, events: seq<Event>, settings: Settings, est: Estimate,
                                        queue: seq<Submission.Request>, j: nat)
    requires Monotone(est) && settings.capacity >= 1 && Sound(start, settings) && Ordered(start)
    requires GoodCommands(start.commands, settings) && GrowingRun(start, events, settings, est)
    requires Arrives(queue, Run(start, events, settings, est).commands, j)
    ensures !Submission.OverlapsQueue(queue, Run(start, events, settings, est).commands[j].request.batch)
  {
    var s := Run(start, events, settings, est);
    var commands := s.commands;
    RunOrdered(start, events, settings, est);
    GrowingValid(start, events, settings, est);
    RunSubmitsGood(start, events, settings, est);
    PrefixOrdered(Submitted(commands), s.outstanding.blocks);
    HandOf(s);
    var range := commands[j].request.batch.BlocksRange();
    hide Run, InHand, Submitted, StrictlySortedBy, GrowingRun, Sound, GoodCommands;
    forall q | 0 <= q < |queue| ensures !Submission.RangesOverlap(queue[q].batch.BlocksRange(), range) {
      assert MadeBefore(queue[q], commands, j);
      var i :| 0 <= i < j && i < |commands| && commands[i] == Submission.Submit(queue[q]);
      LaterStartsAbove(commands, i, j, settings);
    }
  }

  lemma {:induction false} GrowingValid(start: State, events: seq<Event>, settings: Settings, est: Estimate)
    requires GrowingRun(start, events, settings, est)
    ensures ValidRun(start, events, settings, est)
    decreases |events|
  {
    hide Valid, Steady, Step;
    if events != [] {
      GrowingValid(start, events[..|events| - 1], settings, est);
      SteadyValid(Run(start, events[..|events| - 1], settings, est), events[|events| - 1]);
    }
  }

  lemma {:induction false} PrefixOrdered(a: seq<Block>, b: seq<Block>)
    requires StrictlySortedBy(a + b, BlockNumber)
    ensures StrictlySortedBy(a, BlockNumber)
  {
    assert forall i :: 0 <= i < |a| ==> (a + b)[i] == a[i];
  }

  // ---------- queued batches share no block ----------

  lemma {:induction false} IncreasingWithinRange(b: Batch)
    requires Increasing(b)
    ensures Submission.WithinRange(b)
  {
    forall i | 0 <= i < |b.blocks| ensures b.BlocksRange().0 <= b.blocks[i].number <= b.BlocksRange().1 {
      assert 0 < i ==> BlockNumber(b.blocks[0]) < BlockNumber(b.blocks[i]);
      assert i < |b.blocks| - 1 ==> BlockNumber(b.blocks[i]) < BlockNumber(b.blocks[|b.blocks| - 1]);
    }
  }

  // All requests that reach the processor come from these commands.
  ghost predicate CmdsFrom(cmds: seq<Submission.Cmd>, commands: seq<Submission.Cmd>) {
    forall c :: 0 <= c < |cmds| && cmds[c].Submit? ==> cmds[c] in commands
  }

  ghost predicate TurnsFrom(turns: seq<Submission.Ready>, commands: seq<Submission.Cmd>) {
    forall t :: 0 <= t < |turns| ==> CmdsFrom(turns[t].cmds, commands)
  }

  ghost predicate QueueFrom(queue: seq<Submission.Request>, commands: seq<Submission.Cmd>) {
    forall q :: 0 <= q < |queue| ==> Submission.Submit(queue[q]) in commands
  }

  lemma {:induction false} CommandsQueue(s: Submission.State, cmds: seq<Submission.Cmd>, commands: seq<Submission.Cmd>, max: nat, factor: nat)
    requires factor >= 1 && QueueFrom(s.queue, commands) && CmdsFrom(cmds, commands)
    ensures QueueFrom(Submission.AllCommanded(s, cmds, max, factor).queue, commands)
    decreases |cmds|
  {
    hide Submission.OverlapsQueue;
    if cmds != [] {
      CommandsQueue(s, cmds[..|cmds| - 1], commands, max, factor);
      assert cmds[|cmds| - 1].Submit? ==> cmds[|cmds| - 1] in commands;
    }
  }

  lemma {:induction false} RunQueue(turns: seq<Submission.Ready>, commands: seq<Submission.Cmd>, max: nat, factor: nat)
    requires factor >= 1 && TurnsFrom(turns, commands)
    ensures QueueFrom(Submission.Run(turns, max, factor).queue, commands)
    decreases |turns|
  {
    hide Submission.AllCommanded, CmdsFrom;
    if turns != [] {
      var s, ready := Submission.Run(turns[..|turns| - 1], max, factor), turns[|turns| - 1];
      RunQueue(turns[..|turns| - 1], commands, max, factor);
      var a := if s.pending.Some? && ready.proposal.Some? then Submission.Proposed(s, ready.proposal.value) else s;
      CommandsQueue(Submission.Popped(a), ready.cmds, commands, max, factor);
    }
  }

  /**
   Whatever the driver did before and however the processor interleaves, no block is in two batches
   that are queued.
   */
  lemma {:induction false} QueuedOnce(
    start: State, events: seq<Event>, settings: Settings, est: Estimate,
    turns: seq<Submission.Ready>, max: nat, factor: nat, i: nat, j: nat, a: nat, b: nat)
    requires Monotone(est) && settings.capacity >= 1 && factor >= 1
    requires Sound(start, settings) && GoodCommands(start.commands, settings)
    requires ValidRun(start, events, settings, est) && TurnsFrom(turns, Run(start, events, settings, est).commands)
    requires var q := Submission.Run(turns, max, factor).queue;
             i < j < |q| && a < |q[i].batch.blocks| && b < |q[j].batch.blocks|
    ensures var q := Submission.Run(turns, max, factor).queue;
            q[i].batch.blocks[a].number != q[j].batch.blocks[b].number
  {
    hide Increasing, Sound, TurnsFrom, ValidRun, Submission.WithinRange;
    var commands, q := Run(start, events, settings, est).commands, Submission.Run(turns, max, factor).queue;
    RunSubmitsGood(start, events, settings, est);
    RunQueue(turns, commands, max, factor);
    hide Run, Submission.Run;
    forall k | 0 <= k < |q| ensures Submission.WithinRange(q[k].batch) {
      var c :| 0 <= c < |commands| && commands[c] == Submission.Submit(q[k]);
      assert GoodCommand(commands[c], settings);
      IncreasingWithinRange(q[k].batch);
    }
    Submission.QueuedShareNothing(turns, max, factor, i, j, a, b);
  }

  // ---------- syncs and the queue ----------

  lemma {:induction false} SameNumbersOrdered(before: seq<Block>, after: seq<Block>)
    requires |before| == |after| && StrictlySortedBy(before, BlockNumber)
    requires forall i :: 0 <= i < |before| ==> after[i].number == before[i].number
    ensures StrictlySortedBy(after, BlockNumber)
  {
    forall i, j | 0 <= i < j < |after| ensures BlockNumber(after[i]) < BlockNumber(after[j]) {
      assert BlockNumber(before[i]) < BlockNumber(before[j]);
    }
  }

  lemma {:induction false} RetimedOrdered(before: seq<Block>, after: seq<Block>, c: nat, minTs: nat, maxTs: nat)
    requires RetimedFrom(before, after, c, minTs, maxTs) && StrictlySortedBy(before, BlockNumber)
    ensures StrictlySortedBy(after, BlockNumber)
  {
    hide RetimedFrom, StrictlySortedBy, AllInRange, TimestampsOrdered;
    RetimedTimestamps(before, after, c, minTs, maxTs);
    SameNumbersOrdered(before, after);
  }

  /**
   A sync with an empty queue behind it starts afresh: with the commands counted from the sync, its
   result is a start for which nothing is refused.
   */
  lemma {:induction false} SyncStartsAfresh(s: State, i: SyncInput, settings: Settings, est: Estimate)
    requires Monotone(est) && settings.capacity >= 1 && SyncValid(i) && SyncOrdered(i) && i.status.CanPropose()
    ensures var r := AfterSync(s.(commands := []), i, settings, est);
            Sound(r, settings) && Ordered(r) && GoodCommands(r.commands, settings)
  {
    var r := AfterSync(s.(commands := []), i, settings, est);
    GoodSync(s.(commands := []), i, settings, est);
    BlocksStrict(i.blocks);
    hide Sound, GoodCommands, Flatten, RetimedFrom, ConsecutiveAnchored, Created, InBatchOrder, Grouped, Submitted, Requests,
         StrictlySortedBy;
    HandOf(r);
    if i.l2Head <= i.origin {
      FreshEmpty(s, i, settings, est);
    } else {
      var submitted, c := SyncConserves(s.(commands := []), i, settings, est);
      SubmittedRequests([], submitted, i.deadline);
      SubmittedNone();
      assert [] + Flatten(submitted) == Flatten(submitted);
      ReanchorIff(i.blocks, settings, est, i.minProposableAnchor);
      OrderKeptIff(i.blocks, settings, est, BoundsOf(i));
      RetimedOrdered(Blocks(i.blocks), Flatten(submitted) + r.outstanding.blocks, c, i.minTs, i.maxTs);
    }
  }

  lemma {:induction false} SubmittedNone()
    ensures Submitted([]) == []
  {}

  lemma {:induction false} FreshEmpty(s: State, i: SyncInput, settings: Settings, est: Estimate)
    requires i.l2Head <= i.origin
    ensures Ordered(AfterSync(s.(commands := []), i, settings, est))
  {
    var r := AfterSync(s.(commands := []), i, settings, est);
    var batches := SyncedBatches(i, settings, est);
    assert batches[..|batches| - 1] == [];
    assert r.commands == [] && r.outstanding.blocks == [];
  }

  lemma {:induction false} InSomeBatch(batches: seq<Batch>, x: Block) returns (k: nat)
    requires x in Flatten(batches)
    ensures k < |batches| && x in batches[k].blocks
    decreases |batches|
  {
    var front := batches[..|batches| - 1];
    if x in Flatten(front) {
      k := InSomeBatch(front, x);
    } else {
      k := |front|;
    }
  }

  lemma {:induction false} SharedMeansOverlap(a: Batch, b: Batch, x: Block, y: Block)
    requires Increasing(a) && Increasing(b) && x in a.blocks && y in b.blocks && x.number == y.number
    ensures Submission.RangesOverlap(a.BlocksRange(), b.BlocksRange())
  {
    IncreasingWithinRange(a);
    IncreasingWithinRange(b);
    var i :| 0 <= i < |a.blocks| && a.blocks[i] == x;
    var j :| 0 <= j < |b.blocks| && b.blocks[j] == y;
    assert a.BlocksRange().0 <= a.blocks[i].number <= a.BlocksRange().1;
    assert b.BlocksRange().0 <= b.blocks[j].number <= b.BlocksRange().1;
  }

  /**
   How the queue and the request in flight come to overlap: a sync that can propose, while a request
   is in flight whose blocks are not on L1 yet, makes a batch that overlaps it. Unless it is kept
   as the outstanding one, the driver submits it, and an empty queue accepts it.
   */
  lemma {:induction false} SyncResubmits(
    s: State, i: SyncInput, settings: Settings, est: Estimate, q: Submission.State, x: Block, y: Block) returns (k: nat)
    requires Monotone(est) && settings.capacity >= 1 && SyncValid(i) && i.status.CanPropose() && i.origin < i.l2Head
    requires q.pending.Some? && q.queue == [] && Increasing(q.pending.value.batch)
    requires x in q.pending.value.batch.blocks && y in Blocks(i.blocks) && x.number == y.number
    ensures var batches := SyncedBatches(i, settings, est);
            && k < |batches| && batches[k].blocks != []
            && Submission.RangesOverlap(q.pending.value.batch.BlocksRange(), batches[k].BlocksRange())
            && (k < |Proposed(batches, settings)| ==>
                  var request := Submission.Request(batches[k], i.deadline);
                  && Submission.Submit(request) in AfterSync(s, i, settings, est).commands
                  && !Submission.AllDisjoint(Submission.Handled(q, request)))
  {
    hide Increasing, RetimedFrom, Created, InBatchOrder, ConsecutiveAnchored, Flatten, Requests, Batch.BlocksRange;
    var batches := SyncedBatches(i, settings, est);
    var p := q.pending.value.batch;
    CreatedIncreasing(i.blocks, settings, est, BoundsOf(i));
    var c := PipelineKeepsBlocks(i.blocks, settings, est, BoundsOf(i));
    var base := InBatchOrder(i.blocks, settings, est, BoundsOf(i));
    assert y in multiset(base);
    var z := RetimedHolds(base, Flatten(batches), c, i.minTs, i.maxTs, y);
    k := InSomeBatch(batches, z);
    SharedMeansOverlap(p, batches[k], x, z);
    if k < |Proposed(batches, settings)| {
      RequestMade(Proposed(batches, settings), k, i.deadline);
      OverlapBreaks(q, Submission.Request(batches[k], i.deadline));
    }
  }

  lemma {:induction false} OverlapBreaks(q: Submission.State, r: Submission.Request)
    requires q.pending.Some? && q.queue == []
    requires Submission.RangesOverlap(q.pending.value.batch.BlocksRange(), r.batch.BlocksRange())
    ensures !Submission.AllDisjoint(Submission.Handled(q, r))
  {
    Submission.StaysDisjointIff(q, r);
  }

  lemma {:induction false} RequestMade(batches: seq<Batch>, k: nat, deadline: nat)
    requires k < |batches| && batches[k].blocks != []
    ensures Submission.Submit(Submission.Request(batches[k], deadline)) in Requests(batches, deadline)
    decreases |batches|
  {
    if k < |batches| - 1 {
      RequestMade(batches[..|batches| - 1], k, deadline);
    }
  }
}
