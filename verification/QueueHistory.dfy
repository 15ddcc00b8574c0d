/**
 Which accepted requests are posted. Nothing is dropped as long as no proposal fails and the queue is not told to clear;
 what is queued when one of the two happens is never posted; and without commands the queue is posted to its end.
 */
module QueueHistory {
  import opened Integers
  import opened Wrappers
  import opened Batches
  import opened Submission
  import opened Throttle

  // ---------- a later state ----------

  // A later state of a run has the same history, and more of it.
  ghost predicate Extends(s: State, t: State) {
    s.fates <= t.fates && s.accepted <= t.accepted
  }

  lemma {:induction false} CommandsExtend(s: State, cmds: seq<Cmd>, maxSize: nat, factor: nat)
    requires factor >= 1
    ensures Extends(s, AllCommanded(s, cmds, maxSize, factor))
    decreases |cmds|
  {
    if cmds != [] {
      CommandsExtend(s, cmds[..|cmds| - 1], maxSize, factor);
    }
  }

  lemma {:induction false} TurnExtends(s: State, ready: Ready, maxSize: nat, factor: nat)
    requires factor >= 1
    ensures Extends(s, BeforeCommands(s, ready)) && Extends(s, Turned(s, ready, maxSize, factor))
  {
    hide AllCommanded;
    CommandsExtend(BeforeCommands(s, ready), ready.cmds, maxSize, factor);
  }

  lemma {:induction false} RunExtends(turns: seq<Ready>, k: nat, maxSize: nat, factor: nat)
    requires factor >= 1 && k <= |turns|
    ensures Extends(Run(turns[..k], maxSize, factor), Run(turns, maxSize, factor))
    decreases |turns|
  {
    hide Turned;
    if k == |turns| {
      assert turns[..k] == turns;
    } else {
      var front := turns[..|turns| - 1];
      assert front[..k] == turns[..k];
      RunExtends(front, k, maxSize, factor);
      TurnExtends(Run(front, maxSize, factor), turns[|turns| - 1], maxSize, factor);
    }
  }

  // What was posted between the two states was accepted between them, and in that order.
  ghost predicate OnlyLaterPosted(s: State, t: State, places: seq<nat>, end: nat) {
    && |s.accepted| <= |t.accepted| && s.posted <= t.posted
    && InPlaces(t.accepted[|s.accepted|..], places, t.posted[|s.posted|..], end)
  }

  lemma {:induction false} WithFateApart(
    before: seq<Request>, after: seq<Request>, fates: seq<Fate>, more: seq<Fate>, fate: Fate)
    requires |fates| == |before| && |more| <= |after|
    ensures WithFate(before + after, fates + more, fate) == WithFate(before, fates, fate) + WithFate(after, more, fate)
    decreases |more|
  {
    if more == [] {
      assert fates + more == fates;
      WithFateLonger(before, after, fates, fate);
    } else {
      var n := |more| - 1;
      WithFateApart(before, after, fates, more[..n], fate);
      assert (fates + more)[..|fates| + n] == fates + more[..n];
      hide *;
      assert fates + more == fates + more[..n] + [more[n]];
      assert more == more[..n] + [more[n]];
      assert (before + after)[|fates + more[..n]|] == after[n];
      WithFateSnoc(before + after, fates + more[..n], more[n], fate);
      WithFateSnoc(after, more[..n], more[n], fate);
    }
  }

  lemma {:induction false} WithFateLonger(before: seq<Request>, after: seq<Request>, fates: seq<Fate>, fate: Fate)
    requires |fates| <= |before|
    ensures WithFate(before + after, fates, fate) == WithFate(before, fates, fate)
    decreases |fates|
  {
    if fates != [] {
      WithFateLonger(before, after, fates[..|fates| - 1], fate);
    }
  }

  lemma {:induction false} EmptyQueueFresh(s: State, t: State) returns (places: seq<nat>, end: nat)
    requires Inv(s) && Inv(t) && Extends(s, t) && s.queue == []
    ensures OnlyLaterPosted(s, t, places, end)
  {
    var n := |s.accepted|;
    var after, more := t.accepted[n..], t.fates[n..];
    assert t.accepted == s.accepted + after && t.fates == s.fates + more;
    WithFateApart(s.accepted, after, s.fates, more, Posted);
    FatesInPlaces(after, more, Posted);
    hide WithFate, Places;
    assert t.posted == s.posted + WithFate(after, more, Posted);
    places, end := Places(more, Posted), |more|;
  }

  // ---------- what is dropped is never posted ----------

  // The request in flight comes back with an error other than a nonce that is too low.
  predicate Fails(s: State, ready: Ready) {
    s.pending.Some? && ready.proposal.Some? && ready.proposal.value.Err? && ready.proposal.value.error != NonceTooLow
  }

  // The state after the first `j` commands of pass `k`.
  function At(turns: seq<Ready>, k: nat, j: nat, maxSize: nat, factor: nat): State
    requires factor >= 1 && k < |turns| && j <= |turns[k].cmds|
  {
    AllCommanded(BeforeCommands(Run(turns[..k], maxSize, factor), turns[k]), turns[k].cmds[..j], maxSize, factor)
  }

  lemma {:induction false} AtKeeps(turns: seq<Ready>, k: nat, j: nat, maxSize: nat, factor: nat)
    requires factor >= 1 && k < |turns| && j <= |turns[k].cmds|
    ensures Inv(At(turns, k, j, maxSize, factor))
    ensures At(turns, k, |turns[k].cmds|, maxSize, factor) == Run(turns[..k + 1], maxSize, factor)
  {
    hide Inv, Proposed, Popped, AllCommanded;
    var s, ready := Run(turns[..k], maxSize, factor), turns[k];
    RunKeeps(turns[..k], maxSize, factor);
    if s.pending.Some? && ready.proposal.Some? {
      ProposedKeeps(s, ready.proposal.value);
      s := Proposed(s, ready.proposal.value);
    }
    PoppedKeeps(s);
    CommandsKeep(Popped(s), ready.cmds[..j], maxSize, factor);
    assert turns[..k + 1][..k] == turns[..k] && ready.cmds[..|ready.cmds|] == ready.cmds;
  }

  lemma {:induction false} AtExtends(turns: seq<Ready>, k: nat, j: nat, maxSize: nat, factor: nat)
    requires factor >= 1 && k < |turns| && j <= |turns[k].cmds|
    ensures Extends(At(turns, k, j, maxSize, factor), Run(turns, maxSize, factor))
  {
    hide Extends, AllCommanded, BeforeCommands, Run;
    AtKeeps(turns, k, j, maxSize, factor);
    CommandsFollow(BeforeCommands(Run(turns[..k], maxSize, factor), turns[k]), turns[k].cmds, j, maxSize, factor);
    RunExtends(turns, k + 1, maxSize, factor);
    assert turns[k].cmds[..|turns[k].cmds|] == turns[k].cmds;
    ExtendsTwice(At(turns, k, j, maxSize, factor), Run(turns[..k + 1], maxSize, factor), Run(turns, maxSize, factor));
  }

  lemma {:induction false} CommandsFollow(s: State, cmds: seq<Cmd>, j: nat, maxSize: nat, factor: nat)
    requires factor >= 1 && j <= |cmds|
    ensures Extends(AllCommanded(s, cmds[..j], maxSize, factor), AllCommanded(s, cmds, maxSize, factor))
    decreases |cmds|
  {
    if j == |cmds| {
      assert cmds[..j] == cmds;
    } else {
      assert cmds[..|cmds| - 1][..j] == cmds[..j];
      CommandsFollow(s, cmds[..|cmds| - 1], j, maxSize, factor);
    }
  }

  lemma {:induction false} ExtendsTwice(r: State, s: State, t: State)
    requires Extends(r, s) && Extends(s, t)
    ensures Extends(r, t)
  {}

  /**
   Once the queue was told to clear, no request that was queued at that point is ever posted: what is posted later was
   accepted later.
   */
  lemma {:induction false} ClearedNeverPosted(turns: seq<Ready>, k: nat, j: nat, maxSize: nat, factor: nat)
    returns (places: seq<nat>, end: nat)
    requires factor >= 1 && k < |turns| && j < |turns[k].cmds| && turns[k].cmds[j].ClearQueue?
    ensures OnlyLaterPosted(At(turns, k, j, maxSize, factor), Run(turns, maxSize, factor), places, end)
  {
    hide Inv, Extends, BeforeCommands, Run;
    var cmds := turns[k].cmds;
    assert cmds[..j + 1][..j] == cmds[..j];
    var s, cleared := At(turns, k, j, maxSize, factor), At(turns, k, j + 1, maxSize, factor);
    assert cleared == Cleared(s);
    hide AllCommanded, At, OnlyLaterPosted;
    AtKeeps(turns, k, j + 1, maxSize, factor);
    AtExtends(turns, k, j + 1, maxSize, factor);
    RunKeeps(turns, maxSize, factor);
    places, end := EmptyQueueFresh(cleared, Run(turns, maxSize, factor));
    SamePast(s, cleared, Run(turns, maxSize, factor), places, end);
  }

  lemma {:induction false} SamePast(s: State, cleared: State, t: State, places: seq<nat>, end: nat)
    requires OnlyLaterPosted(cleared, t, places, end) && s.accepted == cleared.accepted && s.posted == cleared.posted
    ensures OnlyLaterPosted(s, t, places, end)
  {}

  /**
   Once a proposal failed, other than on a nonce that is too low, no request that was queued at that point is ever
   posted.
   */
  lemma {:induction false} FailedNeverPosted(turns: seq<Ready>, k: nat, maxSize: nat, factor: nat)
    returns (places: seq<nat>, end: nat)
    requires factor >= 1 && k < |turns| && Fails(Run(turns[..k], maxSize, factor), turns[k])
    ensures OnlyLaterPosted(Run(turns[..k], maxSize, factor), Run(turns, maxSize, factor), places, end)
  {
    hide Inv, Extends, Run;
    var s, before := Run(turns[..k], maxSize, factor), At(turns, k, 0, maxSize, factor);
    assert turns[k].cmds[..0] == [];
    assert before.queue == [] && before.accepted == s.accepted && before.posted == s.posted;
    hide AllCommanded, At, OnlyLaterPosted;
    AtKeeps(turns, k, 0, maxSize, factor);
    AtExtends(turns, k, 0, maxSize, factor);
    RunKeeps(turns, maxSize, factor);
    places, end := EmptyQueueFresh(before, Run(turns, maxSize, factor));
    SamePast(s, before, Run(turns, maxSize, factor), places, end);
  }

  // ---------- when nothing is dropped ----------

  // Whatever was accepted was posted or is still queued.
  predicate AllKept(s: State) {
    s.accepted == s.posted + s.queue
  }

  predicate NoDrops(fates: seq<Fate>) {
    forall i :: 0 <= i < |fates| ==> fates[i] == Posted
  }

  lemma {:induction false} AllPostedIff(requests: seq<Request>, fates: seq<Fate>)
    requires |fates| <= |requests|
    ensures |WithFate(requests, fates, Posted)| <= |fates|
    ensures |WithFate(requests, fates, Posted)| == |fates| <==> NoDrops(fates)
    ensures NoDrops(fates) ==> WithFate(requests, fates, Posted) == requests[..|fates|]
    decreases |fates|
  {
    if fates != [] {
      AllPostedIff(requests, fates[..|fates| - 1]);
    }
  }

  lemma {:induction false} AllKeptIff(s: State)
    requires Inv(s)
    ensures AllKept(s) <==> NoDrops(s.fates)
  {
    AllPostedIff(s.accepted, s.fates);
    hide WithFate, NoDrops;
    assert s.accepted == s.accepted[..|s.fates|] + s.queue;
  }

  // Whenever the queue is told to clear, it is empty.
  ghost predicate ClearsNothing(s: State, cmds: seq<Cmd>, maxSize: nat, factor: nat)
    requires factor >= 1
    decreases |cmds|
  {
    cmds != [] ==>
      var front, last := cmds[..|cmds| - 1], cmds[|cmds| - 1];
      && ClearsNothing(s, front, maxSize, factor)
      && (last.ClearQueue? ==> AllCommanded(s, front, maxSize, factor).queue == [])
  }

  // Whenever a proposal fails or the queue is told to clear, nothing is queued.
  ghost predicate NothingToDrop(turns: seq<Ready>, maxSize: nat, factor: nat)
    requires factor >= 1
    decreases |turns|
  {
    turns != [] ==>
      var front, ready := turns[..|turns| - 1], turns[|turns| - 1];
      var s := Run(front, maxSize, factor);
      && NothingToDrop(front, maxSize, factor)
      && (Fails(s, ready) ==> s.queue == [])
      && ClearsNothing(BeforeCommands(s, ready), ready.cmds, maxSize, factor)
  }

  lemma {:induction false} DropsIff(fates: seq<Fate>, n: nat)
    ensures NoDrops(fates + Drops(n)) <==> NoDrops(fates) && n == 0
    ensures NoDrops(fates + [Posted]) <==> NoDrops(fates)
  {
    var all := fates + Drops(n);
    assert forall i :: 0 <= i < |fates| ==> all[i] == fates[i];
    assert n > 0 ==> all[|fates|] == Dropped;
    assert forall i :: 0 <= i < |fates| ==> (fates + [Posted])[i] == fates[i];
  }

  lemma {:induction false} CommandsDropIff(s: State, cmds: seq<Cmd>, maxSize: nat, factor: nat)
    requires factor >= 1
    ensures NoDrops(AllCommanded(s, cmds, maxSize, factor).fates) <==>
            NoDrops(s.fates) && ClearsNothing(s, cmds, maxSize, factor)
    decreases |cmds|
  {
    hide NoDrops;
    if cmds != [] {
      var front := cmds[..|cmds| - 1];
      var before := AllCommanded(s, front, maxSize, factor);
      CommandsDropIff(s, front, maxSize, factor);
      DropsIff(before.fates, |before.queue|);
    }
  }

  lemma {:induction false} PassDropsIff(s: State, ready: Ready)
    ensures NoDrops(BeforeCommands(s, ready).fates) <==> NoDrops(s.fates) && (Fails(s, ready) ==> s.queue == [])
  {
    hide NoDrops;
    var a := if s.pending.Some? && ready.proposal.Some? then Proposed(s, ready.proposal.value) else s;
    DropsIff(s.fates, |s.queue|);
    DropsIff(a.fates, 0);
  }

  lemma {:induction false} RunDropsIff(turns: seq<Ready>, maxSize: nat, factor: nat)
    requires factor >= 1
    ensures NoDrops(Run(turns, maxSize, factor).fates) <==> NothingToDrop(turns, maxSize, factor)
    decreases |turns|
  {
    hide NoDrops, ClearsNothing, AllCommanded, BeforeCommands, Fails;
    if turns == [] {
      DropsIff([], 0);
      assert NoDrops([]) by { NothingDroppedYet(); }
    } else {
      var front, ready := turns[..|turns| - 1], turns[|turns| - 1];
      var s := Run(front, maxSize, factor);
      RunDropsIff(front, maxSize, factor);
      PassDropsIff(s, ready);
      CommandsDropIff(BeforeCommands(s, ready), ready.cmds, maxSize, factor);
      assert Turned(s, ready, maxSize, factor) == AllCommanded(BeforeCommands(s, ready), ready.cmds, maxSize, factor) by {
        TurnParts(s, ready, maxSize, factor);
      }
    }
  }

  lemma {:induction false} NothingDroppedYet()
    ensures NoDrops([])
  {}

  lemma {:induction false} TurnParts(s: State, ready: Ready, maxSize: nat, factor: nat)
    requires factor >= 1
    ensures Turned(s, ready, maxSize, factor) == AllCommanded(BeforeCommands(s, ready), ready.cmds, maxSize, factor)
  {}

  /**
   In every run, all that was accepted was posted or is still queued, in order, if and only if nothing was queued
   whenever a proposal failed, other than on a nonce that is too low, or the queue was told to clear.
   */
  lemma {:induction false} NothingDroppedIff(turns: seq<Ready>, maxSize: nat, factor: nat)
    requires factor >= 1
    ensures AllKept(Run(turns, maxSize, factor)) <==> NothingToDrop(turns, maxSize, factor)
  {
    hide *;
    RunKeeps(turns, maxSize, factor);
    AllKeptIff(Run(turns, maxSize, factor));
    RunDropsIff(turns, maxSize, factor);
  }

  // Every proposal that comes back succeeded or had a nonce that is too low, and no command clears the queue.
  predicate Smooth(ready: Ready) {
    && (ready.proposal.Some? ==> ready.proposal.value.Ok? || ready.proposal.value.error == NonceTooLow)
    && forall j :: 0 <= j < |ready.cmds| ==> !ready.cmds[j].ClearQueue?
  }

  /** In particular when no proposal fails in another way and the queue is never told to clear. */
  lemma {:induction false} SmoothRunKeepsAll(turns: seq<Ready>, maxSize: nat, factor: nat)
    requires factor >= 1 && forall k :: 0 <= k < |turns| ==> Smooth(turns[k])
    ensures AllKept(Run(turns, maxSize, factor))
  {
    SmoothDropsNothing(turns, maxSize, factor);
    hide *;
    NothingDroppedIff(turns, maxSize, factor);
  }

  lemma {:induction false} SmoothDropsNothing(turns: seq<Ready>, maxSize: nat, factor: nat)
    requires factor >= 1 && forall k :: 0 <= k < |turns| ==> Smooth(turns[k])
    ensures NothingToDrop(turns, maxSize, factor)
    decreases |turns|
  {
    hide AllCommanded, BeforeCommands, Run;
    if turns != [] {
      var ready := turns[|turns| - 1];
      assert Smooth(ready);
      SmoothDropsNothing(turns[..|turns| - 1], maxSize, factor);
      SmoothClearsNothing(BeforeCommands(Run(turns[..|turns| - 1], maxSize, factor), ready), ready.cmds, maxSize, factor);
    }
  }

  lemma {:induction false} SmoothClearsNothing(s: State, cmds: seq<Cmd>, maxSize: nat, factor: nat)
    requires factor >= 1 && forall j :: 0 <= j < |cmds| ==> !cmds[j].ClearQueue?
    ensures ClearsNothing(s, cmds, maxSize, factor)
    decreases |cmds|
  {
    hide AllCommanded;
    if cmds != [] {
      SmoothClearsNothing(s, cmds[..|cmds| - 1], maxSize, factor);
    }
  }

  // ---------- the queue is posted ----------

  // The proposal in flight is answered, and there are no commands.
  predicate Quiet(ready: Ready) {
    Smooth(ready) && ready.proposal.Some? && ready.cmds == []
  }

  /**
   The queue is posted to its end: each pass in which the proposal in flight is answered, other than with a failure, posts
   the next request, in order.
   */
  lemma {:induction false} QueueIsPosted(turns: seq<Ready>, more: seq<Ready>, maxSize: nat, factor: nat)
    requires factor >= 1 && forall k :: 0 <= k < |more| ==> Quiet(more[k])
    ensures var s, t := Run(turns, maxSize, factor), Run(turns + more, maxSize, factor);
            var n := Min(|more|, |s.queue|);
            t.queue == s.queue[n..] && t.posted == s.posted + s.queue[..n]
    decreases |more|
  {
    hide Turned, Quiet;
    if more == [] {
      assert turns + more == turns;
    } else {
      var front, ready := more[..|more| - 1], more[|more| - 1];
      QueueIsPosted(turns, front, maxSize, factor);
      assert (turns + more)[..|turns + more| - 1] == turns + front;
      QuietPass(Run(turns + front, maxSize, factor), ready, maxSize, factor);
    }
  }

  lemma {:induction false} QuietPass(s: State, ready: Ready, maxSize: nat, factor: nat)
    requires factor >= 1 && Quiet(ready)
    ensures var t := Turned(s, ready, maxSize, factor);
            if s.queue == [] then t.queue == [] && t.posted == s.posted
            else t.queue == s.queue[1..] && t.posted == s.posted + [s.queue[0]]
  {}

  // ---------- what a command does ----------

  predicate InRange(n: nat, range: (nat, nat)) {
    range.0 <= n <= range.1
  }

  // The ranges of the two batches have a number in common.
  ghost predicate ShareNumber(a: Batch, b: Batch) {
    exists n: nat :: InRange(n, a.BlocksRange()) && InRange(n, b.BlocksRange())
  }

  predicate RangeOrdered(b: Batch) {
    b.BlocksRange().0 <= b.BlocksRange().1
  }

  lemma {:induction false} OverlapIff(a: Batch, b: Batch)
    requires RangeOrdered(a) && RangeOrdered(b)
    ensures RangesOverlap(a.BlocksRange(), b.BlocksRange()) <==> ShareNumber(a, b)
  {
    var p, q := a.BlocksRange(), b.BlocksRange();
    if RangesOverlap(p, q) {
      var n := Max(p.0, q.0);
      assert InRange(n, p) && InRange(n, q);
    }
  }

  /** At every point of a run a request joins the queue if and only if its range has no number of a queued one. */
  lemma {:induction false} AcceptedIff(turns: seq<Ready>, k: nat, j: nat, maxSize: nat, factor: nat)
    requires factor >= 1 && k < |turns| && j < |turns[k].cmds| && turns[k].cmds[j].Submit?
    requires RangeOrdered(turns[k].cmds[j].request.batch)
    requires forall i :: 0 <= i < |At(turns, k, j, maxSize, factor).queue| ==>
               RangeOrdered(At(turns, k, j, maxSize, factor).queue[i].batch)
    ensures var s, t, r := At(turns, k, j, maxSize, factor), At(turns, k, j + 1, maxSize, factor), turns[k].cmds[j].request;
            && (t == s || (t.queue == s.queue + [r] && t.accepted == s.accepted + [r]))
            && (t == s <==> exists i :: 0 <= i < |s.queue| && ShareNumber(s.queue[i].batch, r.batch))
  {
    hide RangesOverlap, Batch.BlocksRange, Run, BeforeCommands, ShareNumber, RangeOrdered;
    var cmds := turns[k].cmds;
    assert cmds[..j + 1][..j] == cmds[..j];
    var s, r := At(turns, k, j, maxSize, factor), cmds[j].request;
    assert At(turns, k, j + 1, maxSize, factor) == Handled(s, r);
    hide AllCommanded, At;
    forall i | 0 <= i < |s.queue|
      ensures RangesOverlap(s.queue[i].batch.BlocksRange(), r.batch.BlocksRange()) <==> ShareNumber(s.queue[i].batch, r.batch)
    {
      OverlapIff(s.queue[i].batch, r.batch);
    }
    assert |s.queue + [r]| != |s.queue|;
  }

  /** The size that is suggested is the share of the maximum that the queue leaves, as `ThrottleBounds` says. */
  lemma {:induction false} SuggestedSize(turns: seq<Ready>, k: nat, j: nat, maxSize: nat, factor: nat)
    requires factor >= 1 && k < |turns| && j < |turns[k].cmds| && turns[k].cmds[j].GetSuggestedMaxSize?
    ensures var s, t := At(turns, k, j, maxSize, factor), At(turns, k, j + 1, maxSize, factor);
            var q := |s.queue|;
            && s.replies < t.replies && |t.replies| == |s.replies| + 1
            && var size := t.replies[|s.replies|];
               && size * Pow(factor, q) >= maxSize * Pow(factor - 1, q)
               && (size - (factor - 1)) * Pow(factor, q) <= maxSize * Pow(factor - 1, q)
  {
    hide Run, BeforeCommands, Throttled, Pow;
    var cmds := turns[k].cmds;
    assert cmds[..j + 1][..j] == cmds[..j];
    ThrottleBounds(maxSize, factor, |At(turns, k, j, maxSize, factor).queue|);
  }
}
